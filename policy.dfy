/** The ownership checks of the controllers. Each is the condition of one `if` in a handler,
    with JavaScript's short-circuit order, so that a property read on a missing value throws
    exactly where the handler would. None means the handler goes on. */
module Policy {
  import opened Base
  import opened Errors
  import opened UserModel
  import opened Http

  /** The authenticated user is an admin. */
  predicate ActorIsAdmin(actor: ReqUser)
  {
    actor.Loaded? && actor.user.role == "admin"
  }

  /** Bootcamp update, delete and photo upload: `bootcamp.user.toString() !== req.body.user &&
      req.body.role !== "admin"`. Both the claimed owner and the role come from the request body. */
  function BodyOwnershipGate(owner: Id, body: Body, denial: Err): (r: Option<Err>)
    ensures r.None? <==> body.user == Some(owner) || body.role == Some("admin")
    ensures r.Some? ==> r.value == denial
  {
    if body.user != Some(owner) && body.role != Some("admin") then Some(denial) else None
  }

  /** Course and review update and delete: `x.user.toString() !== req.user.id &&
      req.user.role !== "admin"`, on the authenticated user. */
  function ActorOwnershipGate(owner: Option<Id>, actor: ReqUser, denial: Err): (r: Option<Err>)
    ensures r.None? <==> owner.Some? && actor.Loaded? && (owner.value == actor.user.id || actor.user.role == "admin")
    ensures owner.None? ==> r == Some(TypeError("Cannot read properties of undefined (reading 'toString')"))
    ensures owner.Some? && !actor.Loaded? ==> r == Some(ReadOf(actor, "id"))
    ensures owner.Some? && actor.Loaded? && r.Some? ==> r.value == denial
  {
    if owner.None? then Some(TypeError("Cannot read properties of undefined (reading 'toString')"))
    else if !actor.Loaded? then Some(ReadOf(actor, "id"))
    else if owner.value != actor.user.id && actor.user.role != "admin" then Some(denial)
    else None
  }

  /** Course creation: `bootcamp.user.toString() !== req.body.user && req.user.role !== "admin"`:
      the owner is claimed in the body, the admin role is the authenticated user's. */
  function CreatorGate(owner: Id, claimed: Option<Id>, actor: ReqUser, denial: Err): (r: Option<Err>)
    ensures r.None? <==> claimed == Some(owner) || (actor.Loaded? && actor.user.role == "admin")
    ensures claimed != Some(owner) && !actor.Loaded? ==> r == Some(ReadOf(actor, "role"))
    ensures claimed != Some(owner) && actor.Loaded? && r.Some? ==> r.value == denial
  {
    if claimed == Some(owner) then None
    else if !actor.Loaded? then Some(ReadOf(actor, "role"))
    else if actor.user.role != "admin" then Some(denial)
    else None
  }

  /** Bootcamp creation: `publishedBootcamp && req.user.role !== "admin"`. */
  function OnePerOwnerGate(published: bool, actor: ReqUser): (r: Option<Err>)
    ensures r.None? <==> !published || (actor.Loaded? && actor.user.role == "admin")
    ensures published && !actor.Loaded? ==> r == Some(ReadOf(actor, "role"))
    ensures published && actor.Loaded? && actor.user.role != "admin" ==>
      r == Some(ErrorResponse("You cannot create more than 1 bootcamp", 400))
  {
    if !published then None
    else if !actor.Loaded? then Some(ReadOf(actor, "role"))
    else if actor.user.role != "admin" then Some(ErrorResponse("You cannot create more than 1 bootcamp", 400))
    else None
  }

  /** The two kinds of gate disagree: a publisher who owns nothing but writes another user's id
      and `role: "admin"` into the body passes the bootcamp gate, while the course gate, which
      looks at the authenticated user, turns the same publisher away. */
  lemma BodyRoleOnlyFoolsBootcampGate(owner: Id, publisher: User, body: Body, denial: Err)
    requires publisher.role == "publisher" && publisher.id != owner
    requires body.role == Some("admin")
    ensures BodyOwnershipGate(owner, body, denial) == None
    ensures ActorOwnershipGate(Some(owner), Loaded(publisher), denial) == Some(denial)
  {
  }
}

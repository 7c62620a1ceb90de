/** The review handlers. Creation only checks that the bootcamp exists; update and delete check
    the review's owner against the authenticated user. */
module Reviews {
  import opened Base
  import opened Errors
  import opened UserModel
  import opened Resources
  import opened Http
  import opened Policy
  import opened Store

  function ReviewNotFound(id: Id): Err
  {
    ErrorResponse("Review id:" + id + " not found", 400)
  }

  /** Update and delete share one denial message. */
  function NotReviewOwner(id: Id): Err
  {
    ErrorResponse("Not authorized to update review id:" + id, 401)
  }

  /** The record `findByIdAndUpdate(id, req.body, { new: true })` returns. */
  function UpdatedReview(r: Review, body: Body): Review
  {
    Review(if body.user.Some? then body.user else r.owner,
           if body.bootcamp.Some? then body.bootcamp.value else r.bootcamp,
           r.fields + body.fields)
  }

  /** getReviews: with a bootcamp id in the route, exactly that bootcamp's reviews and their
      count; otherwise the page the filtering middleware prepared. */
  method GetReviews(db: Db, req: Request) returns (out: Outcome)
    ensures !Truthy(req.bootcampId) ==> out == Reply(200, Advanced)
    ensures Truthy(req.bootcampId) ==>
      && out.Respond? && out.response.status == 200 && out.response.cookie == None
      && out.response.body.Listing? && out.response.body.data.ReviewList?
      && var found := out.response.body.data.reviews;
      && out.response.body.count == |found|
      && (forall k :: k in found <==> k in db.reviews && db.reviews[k].bootcamp == req.bootcampId.value)
      && (forall k :: k in found ==> found[k] == db.reviews[k])
  {
    if !Truthy(req.bootcampId) {
      return Reply(200, Advanced);
    }
    var bootcamp := req.bootcampId.value;
    var found := map k | k in db.reviews && db.reviews[k].bootcamp == bootcamp :: db.reviews[k];
    out := Reply(200, Listing(|found|, ReviewList(found)));
  }

  /** getReview. */
  method GetReview(db: Db, req: Request) returns (out: Outcome)
    ensures req.id !in db.reviews ==> out == Raise(ReviewNotFound(req.id))
    ensures req.id in db.reviews ==> out == Reply(200, Data(ReviewData(req.id, db.reviews[req.id])))
  {
    if req.id !in db.reviews {
      return Raise(ReviewNotFound(req.id));
    }
    out := Reply(200, Data(ReviewData(req.id, db.reviews[req.id])));
  }

  /** createReview: the route's bootcamp id is overwritten with `req.body.bootcamp`, which must
      name an existing bootcamp; no ownership check. `newId` is the id the database assigns. */
  method CreateReview(db: Db, req: Request, newId: Id) returns (out: Outcome)
    requires db.Valid() && newId !in db.reviews
    modifies db, req`bootcampId
    ensures db.Valid()
    ensures db.users == old(db.users) && db.bootcamps == old(db.bootcamps) && db.courses == old(db.courses)
    ensures req.bootcampId == req.body.bootcamp
    ensures out.Respond? <==> req.body.bootcamp.Some? && req.body.bootcamp.value in old(db.bootcamps)
    ensures !out.Respond? ==>
      out == Raise(ErrorResponse("Bootcamp id:" + Show(req.body.bootcamp) + " not found", 400)) &&
      db.reviews == old(db.reviews)
    ensures out.Respond? ==>
      var r := Review(req.body.user, req.body.bootcamp.value, req.body.fields);
      db.reviews == old(db.reviews)[newId := r] && out == Reply(201, Data(ReviewData(newId, r)))
  {
    req.bootcampId := req.body.bootcamp;
    if !(req.bootcampId.Some? && req.bootcampId.value in db.bootcamps) {
      return Raise(ErrorResponse("Bootcamp id:" + Show(req.bootcampId) + " not found", 400));
    }
    var review := Review(req.body.user, req.body.bootcamp.value, req.body.fields);
    db.reviews := db.reviews[newId := review];
    out := Reply(201, Data(ReviewData(newId, review)));
  }

  /** updateReview: not found, then owner-or-admin on the authenticated user, then the update. */
  method UpdateReview(db: Db, req: Request) returns (out: Outcome)
    requires db.Valid()
    modifies db
    ensures db.Valid()
    ensures db.users == old(db.users) && db.bootcamps == old(db.bootcamps) && db.courses == old(db.courses)
    ensures req.id !in old(db.reviews) ==> out == Raise(ReviewNotFound(req.id))
    ensures req.id in old(db.reviews) ==>
      var denied := ActorOwnershipGate(old(db.reviews)[req.id].owner, req.user, NotReviewOwner(req.id));
      && (denied.Some? ==> out == Raise(denied.value))
      && (denied.None? ==>
            var r := UpdatedReview(old(db.reviews)[req.id], req.body);
            db.reviews == old(db.reviews)[req.id := r] && out == Reply(200, Data(ReviewData(req.id, r))))
    ensures out.Raise? ==> db.reviews == old(db.reviews)
  {
    if req.id !in db.reviews {
      return Raise(ReviewNotFound(req.id));
    }
    var review := db.reviews[req.id];
    var denied := ActorOwnershipGate(review.owner, req.user, NotReviewOwner(req.id));
    if denied.Some? {
      return Raise(denied.value);
    }
    review := UpdatedReview(review, req.body);
    db.reviews := db.reviews[req.id := review];
    out := Reply(200, Data(ReviewData(req.id, review)));
  }

  /** deleteReview as evidently intended: the checked review, and only it, is removed. */
  method DeleteReview(db: Db, req: Request) returns (out: Outcome)
    requires db.Valid()
    modifies db
    ensures db.Valid()
    ensures db.users == old(db.users) && db.bootcamps == old(db.bootcamps) && db.courses == old(db.courses)
    ensures req.id !in old(db.reviews) ==> out == Raise(ReviewNotFound(req.id))
    ensures req.id in old(db.reviews) ==>
      var denied := ActorOwnershipGate(old(db.reviews)[req.id].owner, req.user, NotReviewOwner(req.id));
      && (denied.Some? ==> out == Raise(denied.value))
      && (denied.None? ==> db.reviews == old(db.reviews) - {req.id} && out == Reply(200, Data(EmptyObject)))
    ensures out.Raise? ==> db.reviews == old(db.reviews)
  {
    if req.id !in db.reviews {
      return Raise(ReviewNotFound(req.id));
    }
    var review := db.reviews[req.id];
    var denied := ActorOwnershipGate(review.owner, req.user, NotReviewOwner(req.id));
    if denied.Some? {
      return Raise(denied.value);
    }
    db.reviews := db.reviews - {req.id};
    out := Reply(200, Data(EmptyObject));
  }

  /** deleteReview as written: the checks concern one review, but `Review.remove()` is called
      on the model with no conditions, which removes every review in the collection. */
  method DeleteReviewAsWritten(db: Db, req: Request) returns (out: Outcome)
    requires db.Valid()
    modifies db
    ensures db.Valid()
    ensures db.users == old(db.users) && db.bootcamps == old(db.bootcamps) && db.courses == old(db.courses)
    ensures req.id !in old(db.reviews) ==> out == Raise(ReviewNotFound(req.id))
    ensures req.id in old(db.reviews) ==>
      var denied := ActorOwnershipGate(old(db.reviews)[req.id].owner, req.user, NotReviewOwner(req.id));
      && (denied.Some? ==> out == Raise(denied.value))
      && (denied.None? ==> db.reviews == map[] && out == Reply(200, Data(EmptyObject)))
    ensures out.Raise? ==> db.reviews == old(db.reviews)
  {
    if req.id !in db.reviews {
      return Raise(ReviewNotFound(req.id));
    }
    var review := db.reviews[req.id];
    var denied := ActorOwnershipGate(review.owner, req.user, NotReviewOwner(req.id));
    if denied.Some? {
      return Raise(denied.value);
    }
    db.reviews := map[];
    out := Reply(200, Data(EmptyObject));
  }

  /** A store holding two reviews by different users: the first author deleting their own review
      through the code as written also deletes the other author's, which the intended version keeps. */
  method DeleteOwnReviewLosesOthers(author: User, other: Id, mine: Id, theirs: Id, camp: Id, body: Body)
    returns (asWritten: map<Id, Review>, intended: map<Id, Review>)
    requires mine != theirs && other != author.id
    ensures theirs !in asWritten
    ensures theirs in intended && mine !in intended
  {
    var reviewMine := Review(Some(author.id), camp, map[]);
    var reviewTheirs := Review(Some(other), camp, map[]);
    var db := new Db();
    db.reviews := map[mine := reviewMine, theirs := reviewTheirs];
    var req := new Request(None, None, mine, "", None, body, None);
    req.user := Loaded(author);
    var out := DeleteReviewAsWritten(db, req);
    asWritten := db.reviews;

    db.reviews := map[mine := reviewMine, theirs := reviewTheirs];
    out := DeleteReview(db, req);
    intended := db.reviews;
  }
}

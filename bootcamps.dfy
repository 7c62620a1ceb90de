/** The bootcamp handlers. Ownership is decided from `req.body.user` and `req.body.role`; only
    the one-bootcamp rule looks at the authenticated user. */
module Bootcamps {
  import opened Base
  import opened Errors
  import opened UserModel
  import opened Resources
  import opened Http
  import opened Policy
  import opened Store

  predicate UserExists(users: map<Id, User>, user: Option<Id>)
  {
    user.Some? && user.value in users
  }

  function UserNotFound(user: Option<Id>): Err
  {
    ErrorResponse("User id:" + Show(user) + " not found", 400)
  }

  function BootcampNotFound(id: string): Err
  {
    ErrorResponse("Bootcamp id:" + id + " not found", 400)
  }

  /** The record `Bootcamp.create(req.body)` stores. */
  function NewBootcamp(body: Body): Bootcamp
    requires body.user.Some?
  {
    Bootcamp(body.user.value, None, body.fields)
  }

  /** The record `findByIdAndUpdate(id, req.body)` leaves: the body's `user` becomes the owner. */
  function UpdatedBootcamp(b: Bootcamp, body: Body): Bootcamp
    requires body.user.Some?
  {
    b.(owner := body.user.value, fields := b.fields + body.fields)
  }

  /** The stored photo name, `photo_<id><ext>`, from which the id and the extension can be read back. */
  function PhotoName(id: Id, ext: string): (name: string)
    ensures StartsWith(name, "photo_")
    ensures |name| == 6 + |id| + |ext|
    ensures name[6..6 + |id|] == id && name[6 + |id|..] == ext
  {
    "photo_" + id + ext
  }

  /** getBootcamp. A missing bootcamp is a 400, and its message names `req.body.id`, not the
      route's id. */
  method GetBootcamp(db: Db, req: Request) returns (out: Outcome)
    ensures req.id !in db.bootcamps ==>
      out == Raise(ErrorResponse("Bootcamp id:" + Show(req.body.id) + " not found", 400))
    ensures req.id in db.bootcamps ==>
      out == Reply(200, Data(BootcampData(req.id, db.bootcamps[req.id])))
  {
    if req.id !in db.bootcamps {
      return Raise(ErrorResponse("Bootcamp id:" + Show(req.body.id) + " not found", 400));
    }
    out := Reply(200, Data(BootcampData(req.id, db.bootcamps[req.id])));
  }

  /** createBootcamp. `newId` is the id the database assigns. The claimed owner must exist;
      if that owner already has a bootcamp, only an authenticated admin may add another. */
  method CreateBootcamp(db: Db, req: Request, newId: Id) returns (out: Outcome)
    requires db.Valid() && newId !in db.bootcamps
    modifies db
    ensures db.Valid()
    ensures db.users == old(db.users) && db.courses == old(db.courses) && db.reviews == old(db.reviews)
    ensures out.Respond? <==>
      UserExists(old(db.users), req.body.user) &&
      (OwnedBy(old(db.bootcamps), req.body.user.value) == {} || ActorIsAdmin(req.user))
    ensures !UserExists(old(db.users), req.body.user) ==> out == Raise(UserNotFound(req.body.user))
    ensures (UserExists(old(db.users), req.body.user) && OwnedBy(old(db.bootcamps), req.body.user.value) != {} &&
             req.user.Loaded? && req.user.user.role != "admin") ==>
      out == Raise(ErrorResponse("You cannot create more than 1 bootcamp", 400))
    ensures (UserExists(old(db.users), req.body.user) && OwnedBy(old(db.bootcamps), req.body.user.value) != {} &&
             !req.user.Loaded?) ==>
      out == Raise(ReadOf(req.user, "role"))
    ensures out.Raise? ==> db.bootcamps == old(db.bootcamps)
    ensures out.Respond? ==>
      && db.bootcamps == old(db.bootcamps)[newId := NewBootcamp(req.body)]
      && out == Reply(201, Data(BootcampData(newId, NewBootcamp(req.body))))
      && |OwnedBy(db.bootcamps, req.body.user.value)| == |OwnedBy(old(db.bootcamps), req.body.user.value)| + 1
    ensures out.Respond? && !ActorIsAdmin(req.user) ==> OwnedBy(db.bootcamps, req.body.user.value) == {newId}
  {
    if !UserExists(db.users, req.body.user) {
      return Raise(UserNotFound(req.body.user));
    }
    var published := OwnedBy(db.bootcamps, req.body.user.value) != {};
    var denied := OnePerOwnerGate(published, req.user);
    if denied.Some? {
      return Raise(denied.value);
    }
    var b := NewBootcamp(req.body);
    CreateAddsOne(db.bootcamps, newId, b);
    db.bootcamps := db.bootcamps[newId := b];
    out := Reply(201, Data(BootcampData(newId, b)));
  }

  /** updateBootcamp: not found, then the claimed user must exist, then owner-or-admin as
      claimed in the body; the update may hand the bootcamp to the claimed user. */
  method UpdateBootcamp(db: Db, req: Request) returns (out: Outcome)
    requires db.Valid()
    modifies db
    ensures db.Valid()
    ensures db.users == old(db.users) && db.courses == old(db.courses) && db.reviews == old(db.reviews)
    ensures out.Respond? <==>
      req.id in old(db.bootcamps) && UserExists(old(db.users), req.body.user) &&
      BodyOwnershipGate(old(db.bootcamps)[req.id].owner, req.body, ErrorResponse("", 401)).None?
    ensures req.id !in old(db.bootcamps) ==> out == Raise(BootcampNotFound(req.id))
    ensures req.id in old(db.bootcamps) && !UserExists(old(db.users), req.body.user) ==>
      out == Raise(UserNotFound(req.body.user))
    ensures (req.id in old(db.bootcamps) && UserExists(old(db.users), req.body.user) &&
             req.body.user != Some(old(db.bootcamps)[req.id].owner) && req.body.role != Some("admin")) ==>
      out == Raise(ErrorResponse("Bootcamp can only be updated by owner", 401))
    ensures out.Raise? ==> db.bootcamps == old(db.bootcamps)
    ensures out.Respond? ==>
      var b := UpdatedBootcamp(old(db.bootcamps)[req.id], req.body);
      db.bootcamps == old(db.bootcamps)[req.id := b] && out == Reply(200, Data(BootcampData(req.id, b)))
  {
    if req.id !in db.bootcamps {
      return Raise(BootcampNotFound(req.id));
    }
    var bootcamp := db.bootcamps[req.id];
    if !UserExists(db.users, req.body.user) {
      return Raise(UserNotFound(req.body.user));
    }
    var denied := BodyOwnershipGate(bootcamp.owner, req.body, ErrorResponse("Bootcamp can only be updated by owner", 401));
    if denied.Some? {
      return Raise(denied.value);
    }
    bootcamp := UpdatedBootcamp(bootcamp, req.body);
    db.bootcamps := db.bootcamps[req.id := bootcamp];
    out := Reply(200, Data(BootcampData(req.id, bootcamp)));
  }

  /** deleteBootcamp: not found, then owner-or-admin as claimed in the body; unlike update,
      the claimed user need not exist. */
  method DeleteBootcamp(db: Db, req: Request) returns (out: Outcome)
    requires db.Valid()
    modifies db
    ensures db.Valid()
    ensures db.users == old(db.users) && db.courses == old(db.courses) && db.reviews == old(db.reviews)
    ensures out.Respond? <==>
      req.id in old(db.bootcamps) &&
      (req.body.user == Some(old(db.bootcamps)[req.id].owner) || req.body.role == Some("admin"))
    ensures req.id !in old(db.bootcamps) ==> out == Raise(BootcampNotFound(req.id))
    ensures req.id in old(db.bootcamps) && !out.Respond? ==>
      out == Raise(ErrorResponse("Bootcamp can only be removed by owner", 401))
    ensures out.Raise? ==> db.bootcamps == old(db.bootcamps)
    ensures out.Respond? ==> db.bootcamps == old(db.bootcamps) - {req.id} && out == Reply(200, Done)
  {
    if req.id !in db.bootcamps {
      return Raise(BootcampNotFound(req.id));
    }
    var bootcamp := db.bootcamps[req.id];
    var denied := BodyOwnershipGate(bootcamp.owner, req.body, ErrorResponse("Bootcamp can only be removed by owner", 401));
    if denied.Some? {
      return Raise(denied.value);
    }
    db.bootcamps := db.bootcamps - {req.id};
    out := Reply(200, Done);
  }

  /** Everything uploadPhoto checks before it names the file, in its order. */
  predicate PhotoAccepted(bootcamps: map<Id, Bootcamp>, users: map<Id, User>, req: Request, cfg: Config)
    reads req
  {
    && req.id in bootcamps
    && UserExists(users, req.body.user)
    && BodyOwnershipGate(bootcamps[req.id].owner, req.body, ErrorResponse("", 401)).None?
    && req.files.Some? && "file" in req.files.value
    && StartsWith(req.files.value["file"].mimetype, "image/")
    && req.files.value["file"].size <= cfg.maxFileUpload
  }

  /** uploadPhoto: the guard chain, the renaming of `file.name`, and the outcome of moving the
      file (`moved`, since the file system is not modelled), after which the name is stored. */
  method UploadPhoto(db: Db, req: Request, cfg: Config, moved: bool) returns (out: Outcome)
    requires db.Valid()
    modifies db, req`files
    ensures db.Valid()
    ensures db.users == old(db.users) && db.courses == old(db.courses) && db.reviews == old(db.reviews)
    ensures req.id !in old(db.bootcamps) ==> out == Raise(BootcampNotFound(req.id))
    ensures req.id in old(db.bootcamps) && !UserExists(old(db.users), req.body.user) ==>
      out == Raise(UserNotFound(req.body.user))
    ensures (req.id in old(db.bootcamps) && UserExists(old(db.users), req.body.user) &&
             req.body.user != Some(old(db.bootcamps)[req.id].owner) && req.body.role != Some("admin")) ==>
      out == Raise(ErrorResponse("Bootcamp picture can only be updated by owner", 401))
    ensures (req.id in old(db.bootcamps) && UserExists(old(db.users), req.body.user) &&
             BodyOwnershipGate(old(db.bootcamps)[req.id].owner, req.body, ErrorResponse("", 401)).None?) ==>
      && (old(req.files).None? ==> out == Raise(ErrorResponse("Photo not uploaded", 400)))
      && (old(req.files).Some? && "file" !in old(req.files).value ==>
            out == Raise(TypeError("Cannot read properties of undefined (reading 'mimetype')")))
      && (old(req.files).Some? && "file" in old(req.files).value ==>
            var file := old(req.files).value["file"];
            && (!StartsWith(file.mimetype, "image/") ==> out == Raise(ErrorResponse("Please upload a picture", 400)))
            && (StartsWith(file.mimetype, "image/") && file.size > cfg.maxFileUpload ==>
                  out == Raise(ErrorResponse("Size is too big", 400))))
    ensures !old(PhotoAccepted(db.bootcamps, db.users, req, cfg)) ==>
      db.bootcamps == old(db.bootcamps) && req.files == old(req.files)
    ensures old(PhotoAccepted(db.bootcamps, db.users, req, cfg)) ==>
      var file := old(req.files).value["file"];
      var name := PhotoName(req.id, file.ext);
      && req.files == Some(old(req.files).value["file" := file.(name := name)])
      && (!moved ==> out == Raise(ErrorResponse("Upload error", 500)) && db.bootcamps == old(db.bootcamps))
      && (moved ==>
            && out == Reply(200, Data(Text(name)))
            && db.bootcamps == old(db.bootcamps)[req.id := old(db.bootcamps)[req.id].(photo := Some(name))])
  {
    if req.id !in db.bootcamps {
      return Raise(BootcampNotFound(req.id));
    }
    var bootcamp := db.bootcamps[req.id];
    if !UserExists(db.users, req.body.user) {
      return Raise(UserNotFound(req.body.user));
    }
    var denied := BodyOwnershipGate(bootcamp.owner, req.body, ErrorResponse("Bootcamp picture can only be updated by owner", 401));
    if denied.Some? {
      return Raise(denied.value);
    }
    if req.files.None? {
      return Raise(ErrorResponse("Photo not uploaded", 400));
    }
    if "file" !in req.files.value {
      return Raise(TypeError("Cannot read properties of undefined (reading 'mimetype')"));
    }
    var file := req.files.value["file"];
    if !StartsWith(file.mimetype, "image/") {
      return Raise(ErrorResponse("Please upload a picture", 400));
    }
    if file.size > cfg.maxFileUpload {
      return Raise(ErrorResponse("Size is too big", 400));
    }
    file := file.(name := PhotoName(req.id, file.ext));
    req.files := Some(req.files.value["file" := file]);
    if !moved {
      return Raise(ErrorResponse("Upload error", 500));
    }
    db.bootcamps := db.bootcamps[req.id := bootcamp.(photo := Some(file.name))];
    out := Reply(200, Data(Text(file.name)));
  }
}

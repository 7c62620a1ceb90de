/** The course handlers. Creation checks the claimed owner against the parent bootcamp; update
    and delete check the course's owner against the authenticated user. */
module Courses {
  import opened Base
  import opened Errors
  import opened UserModel
  import opened Resources
  import opened Http
  import opened Policy
  import opened Store
  import opened ErrorMiddleware

  function CourseNotFound(id: Id): Err
  {
    ErrorResponse("Course id:" + id + " not found", 400)
  }

  /** The record `findByIdAndUpdate(id, req.body, { new: true })` returns: fields present in the
      body replace the stored ones, the owner and the parent bootcamp included. */
  function UpdatedCourse(c: Course, body: Body): Course
  {
    Course(if body.user.Some? then body.user else c.owner,
           if body.bootcamp.Some? then body.bootcamp.value else c.bootcamp,
           c.fields + body.fields)
  }

  /** getCourses: with a bootcamp id in the route, exactly the courses of that bootcamp and their
      count; otherwise the page the filtering middleware prepared. */
  method GetCourses(db: Db, req: Request) returns (out: Outcome)
    ensures !Truthy(req.bootcampId) ==> out == Reply(200, Advanced)
    ensures Truthy(req.bootcampId) ==>
      && out.Respond? && out.response.status == 200 && out.response.cookie == None
      && out.response.body.Listing? && out.response.body.data.CourseList?
      && var found := out.response.body.data.courses;
      && out.response.body.count == |found|
      && (forall k :: k in found <==> k in db.courses && db.courses[k].bootcamp == req.bootcampId.value)
      && (forall k :: k in found ==> found[k] == db.courses[k])
  {
    if !Truthy(req.bootcampId) {
      return Reply(200, Advanced);
    }
    var bootcamp := req.bootcampId.value;
    var found := map k | k in db.courses && db.courses[k].bootcamp == bootcamp :: db.courses[k];
    out := Reply(200, Listing(|found|, CourseList(found)));
  }

  /** getCourseById. */
  method GetCourseById(db: Db, req: Request) returns (out: Outcome)
    ensures req.id !in db.courses ==> out == Raise(CourseNotFound(req.id))
    ensures req.id in db.courses ==> out == Reply(200, Data(CourseData(req.id, db.courses[req.id])))
  {
    if req.id !in db.courses {
      return Raise(CourseNotFound(req.id));
    }
    out := Reply(200, Data(CourseData(req.id, db.courses[req.id])));
  }

  /** createCourse: the route's bootcamp id is overwritten with `req.body.bootcamp`; the
      bootcamp must exist, and the body's `user` must be its owner unless the authenticated user
      is an admin. `newId` is the id the database assigns. */
  method CreateCourse(db: Db, req: Request, newId: Id) returns (out: Outcome)
    requires db.Valid() && newId !in db.courses
    modifies db, req`bootcampId
    ensures db.Valid()
    ensures db.users == old(db.users) && db.bootcamps == old(db.bootcamps) && db.reviews == old(db.reviews)
    ensures req.bootcampId == req.body.bootcamp
    ensures out.Respond? <==>
      && req.body.bootcamp.Some? && req.body.bootcamp.value in old(db.bootcamps)
      && (req.body.user == Some(old(db.bootcamps)[req.body.bootcamp.value].owner) || ActorIsAdmin(req.user))
    ensures !(req.body.bootcamp.Some? && req.body.bootcamp.value in old(db.bootcamps)) ==>
      out == Raise(ErrorResponse("Bootcamp id:" + Show(req.body.bootcamp) + " not found", 400))
    ensures (req.body.bootcamp.Some? && req.body.bootcamp.value in old(db.bootcamps) &&
             req.body.user != Some(old(db.bootcamps)[req.body.bootcamp.value].owner)) ==>
      && (!req.user.Loaded? ==> out == Raise(ReadOf(req.user, "role")))
      && (req.user.Loaded? && req.user.user.role != "admin" ==>
            out == Raise(ErrorResponse("Course can only be created by owner", 401)))
    ensures out.Raise? ==> db.courses == old(db.courses)
    ensures out.Respond? ==>
      var c := Course(req.body.user, req.body.bootcamp.value, req.body.fields);
      db.courses == old(db.courses)[newId := c] && out == Reply(201, Data(CourseData(newId, c)))
  {
    req.bootcampId := req.body.bootcamp;
    if !(req.bootcampId.Some? && req.bootcampId.value in db.bootcamps) {
      return Raise(ErrorResponse("Bootcamp id:" + Show(req.bootcampId) + " not found", 400));
    }
    var bootcamp := db.bootcamps[req.bootcampId.value];
    var denied := CreatorGate(bootcamp.owner, req.body.user, req.user, ErrorResponse("Course can only be created by owner", 401));
    if denied.Some? {
      return Raise(denied.value);
    }
    var course := Course(req.body.user, req.body.bootcamp.value, req.body.fields);
    db.courses := db.courses[newId := course];
    out := Reply(201, Data(CourseData(newId, course)));
  }

  /** updateCourse with the lookup awaited: not found, then owner-or-admin on the authenticated
      user, then the update, whose result is the updated course. */
  method UpdateCourse(db: Db, req: Request) returns (out: Outcome)
    requires db.Valid()
    modifies db
    ensures db.Valid()
    ensures db.users == old(db.users) && db.bootcamps == old(db.bootcamps) && db.reviews == old(db.reviews)
    ensures req.id !in old(db.courses) ==> out == Raise(CourseNotFound(req.id))
    ensures req.id in old(db.courses) ==>
      var denied := ActorOwnershipGate(old(db.courses)[req.id].owner, req.user, ErrorResponse("Course can only be updated by owner", 401));
      && (denied.Some? ==> out == Raise(denied.value) && db.courses == old(db.courses))
      && (denied.None? ==>
            var c := UpdatedCourse(old(db.courses)[req.id], req.body);
            db.courses == old(db.courses)[req.id := c] && out == Reply(200, Data(CourseData(req.id, c))))
    ensures out.Raise? ==> db.courses == old(db.courses)
  {
    if req.id !in db.courses {
      return Raise(CourseNotFound(req.id));
    }
    var course := db.courses[req.id];
    var denied := ActorOwnershipGate(course.owner, req.user, ErrorResponse("Course can only be updated by owner", 401));
    if denied.Some? {
      return Raise(denied.value);
    }
    course := UpdatedCourse(course, req.body);
    db.courses := db.courses[req.id := course];
    out := Reply(200, Data(CourseData(req.id, course)));
  }

  /** deleteCourse with the lookup awaited. */
  method DeleteCourse(db: Db, req: Request) returns (out: Outcome)
    requires db.Valid()
    modifies db
    ensures db.Valid()
    ensures db.users == old(db.users) && db.bootcamps == old(db.bootcamps) && db.reviews == old(db.reviews)
    ensures req.id !in old(db.courses) ==> out == Raise(CourseNotFound(req.id))
    ensures req.id in old(db.courses) ==>
      var denied := ActorOwnershipGate(old(db.courses)[req.id].owner, req.user, ErrorResponse("Course can only be Deleted by owner", 401));
      && (denied.Some? ==> out == Raise(denied.value) && db.courses == old(db.courses))
      && (denied.None? ==> db.courses == old(db.courses) - {req.id} && out == Reply(200, Data(EmptyObject)))
    ensures out.Raise? ==> db.courses == old(db.courses)
  {
    if req.id !in db.courses {
      return Raise(CourseNotFound(req.id));
    }
    var course := db.courses[req.id];
    var denied := ActorOwnershipGate(course.owner, req.user, ErrorResponse("Course can only be Deleted by owner", 401));
    if denied.Some? {
      return Raise(denied.value);
    }
    db.courses := db.courses - {req.id};
    out := Reply(200, Data(EmptyObject));
  }

  /** The error both handlers raise as written. `Course.findById` is not awaited, so `course` is
      a pending query: always truthy, so the not-found branch never runs, and without a `user`
      property, so the ownership test throws before anything is updated or removed. */
  function PendingQueryOwnerRead(): Err
  {
    TypeError("Cannot read properties of undefined (reading 'toString')")
  }

  /** updateCourse as written: every request that reaches it, found or not, owner or admin,
      ends in a 500 and leaves the store as it was (no `modifies`). */
  method UpdateCourseAsWritten(db: Db, req: Request) returns (resp: Response)
    ensures resp.status == 500
    ensures resp.body == Failure("Cannot read properties of undefined (reading 'toString')")
  {
    resp := ErrorHandler(PendingQueryOwnerRead());
  }

  /** deleteCourse as written: the same, for deletion. It is deliberately a second member with
      the same body as UpdateCourseAsWritten, since controller/courses.js has the same un-awaited
      lookup in a second handler and each handler is modelled by a member of its own. */
  method DeleteCourseAsWritten(db: Db, req: Request) returns (resp: Response)
    ensures resp.status == 500
    ensures resp.body == Failure("Cannot read properties of undefined (reading 'toString')")
  {
    resp := ErrorHandler(PendingQueryOwnerRead());
  }

  /** The discrepancy on one request: the owner of an existing course is refused by the code as
      written, and served by the awaited version, which also performs the update. */
  method OwnerUpdateAsWrittenAndAwaited(db: Db, req: Request) returns (asWritten: Response, awaited: Outcome)
    requires db.Valid() && req.id in db.courses
    requires req.user.Loaded? && db.courses[req.id].owner == Some(req.user.user.id)
    modifies db
    ensures asWritten.status == 500
    ensures awaited.Respond? && awaited.response.status == 200
    ensures db.courses == old(db.courses)[req.id := UpdatedCourse(old(db.courses)[req.id], req.body)]
  {
    asWritten := UpdateCourseAsWritten(db, req);
    awaited := UpdateCourse(db, req);
  }
}

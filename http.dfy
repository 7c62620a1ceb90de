/** Requests as the handlers see them and the responses they produce. */
module Http {
  import opened Base
  import opened Errors
  import opened UserModel
  import opened Resources

  /** The request body fields the core reads; None is an absent field, and a field sent as
      null is taken to be absent too. For `role` the two differ in Mongoose: the schema default
      replaces only an undefined role, and the enum validator passes only undefined or a listed
      value, so a null role is refused with a validation error, a case the model does not have.
      `fields` stands for the remaining document fields a create or update
      copies into the record. */
  datatype Body = Body(
    user: Option<Id>,
    role: Option<string>,
    bootcamp: Option<Id>,
    id: Option<string>,
    name: Option<string>,
    email: Option<string>,
    password: Option<string>,
    currentPassword: Option<string>,
    newPassword: Option<string>,
    fields: map<string, string>)

  /** One uploaded file; `ext` is what path.parse(name).ext yields. */
  datatype UploadedFile = UploadedFile(name: string, ext: string, mimetype: string, size: int)

  /** `req.user`: never assigned, assigned null by a lookup that found nobody, or a user. */
  datatype ReqUser = Absent | Null | Loaded(user: User)

  /** The TypeError thrown by reading a property of `req.user` when it is not a user. */
  function ReadOf(u: ReqUser, property: string): Err
    requires !u.Loaded?
  {
    TypeError("Cannot read properties of " + (if u.Null? then "null" else "undefined") + " (reading '" + property + "')")
  }

  /** An incoming request. `id` and `token` are the route parameters of the same name. */
  class Request {
    const authorization: Option<string>
    const cookieToken: Option<string>
    const id: Id
    const token: string
    const body: Body
    var bootcampId: Option<Id>
    var user: ReqUser
    /** `req.files`: None (null) when the request uploaded nothing, otherwise the uploaded
        files by form field name. */
    var files: Option<map<string, UploadedFile>>

    constructor (authorization: Option<string>, cookieToken: Option<string>, id: Id, token: string,
                 bootcampId: Option<Id>, body: Body, files: Option<map<string, UploadedFile>>)
      ensures this.authorization == authorization && this.cookieToken == cookieToken
      ensures this.id == id && this.token == token && this.body == body
      ensures this.bootcampId == bootcampId && this.files == files && this.user == Absent
    {
      this.authorization := authorization;
      this.cookieToken := cookieToken;
      this.id := id;
      this.token := token;
      this.body := body;
      this.bootcampId := bootcampId;
      this.files := files;
      this.user := Absent;
    }
  }

  /** The `data` member of a success envelope. */
  datatype Payload =
    | BootcampData(bootcampId: Id, bootcamp: Bootcamp)
    | CourseData(courseId: Id, course: Course)
    | ReviewData(reviewId: Id, review: Review)
    | UserData(user: Option<User>)
    | CourseList(courses: map<Id, Course>)
    | ReviewList(reviews: map<Id, Review>)
    | Text(text: string)
    | EmptyObject

  /** The JSON bodies the core sends. */
  datatype Json =
    | Data(data: Payload)                       // { success: true, data }
    | Listing(count: nat, data: Payload)        // { success: true, count, data }
    | Done                                      // { success: true }
    | WithToken(user: User, token: string)      // { success: true, user, token }
    | Advanced                                  // res.advancedResults, built by the filtering middleware
    | Failure(error: string)                    // { success: false, error }

  datatype Cookie = Cookie(name: string, value: string, expires: int, httpOnly: bool, secure: bool)

  datatype Response = Response(status: int, body: Json, cookie: Option<Cookie>)

  /** What a handler does: answer the request, or pass an error to `next`. */
  datatype Outcome = Respond(response: Response) | Raise(err: Err)

  function Reply(status: int, body: Json): Outcome
  {
    Respond(Response(status, body, None))
  }

  /** The environment variables the core reads. */
  datatype Config = Config(nodeEnv: string, jwtCookieExpireDays: int, maxFileUpload: int)
}

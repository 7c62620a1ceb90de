# BootCamp API request policy, modelled in Dafny

This project models the request-policy layer of the BootCamp REST API, an Express and Mongoose
backend for bootcamps, their courses and reviews, and the user accounts that publish them. It covers:

- the `protect` and `authorize` middleware;
- the error middleware that turns errors into HTTP statuses;
- the bootcamp, course, review and account handlers, down to the messages and status codes they answer with;
- the user schema: validation, the pre-save hook, password matching and reset tokens;
- the route tables of the bootcamps, courses, users and auth routers.

The database is a `Store.Db` object with one map per collection, id to record. Handlers are methods
on it. Each method's postcondition states the outcome and the new state for every branch of its
source. Properties that relate several calls are lemmas or scenario methods:

- the forgot/reset round trip;
- the lock-out caused by the pre-save hook's rehash when a reset mail fails;
- the guards in front of every route.

Modules, one per file:

- `Base`: JavaScript truthiness, template printing, `split`, `join`, `startsWith`.
- `Errors`: error values.
- `Libraries`: jsonwebtoken, bcrypt, SHA-256 and the email regex, all taken as parameters.
- `UserModel`: `models/User.js`.
- `Resources`: bootcamp, course and review records.
- `Http`: requests, responses and configuration.
- `ErrorMiddleware`, `AuthMiddleware`.
- `Policy`: the ownership checks of the handlers.
- `Store`: the database and `save()`.
- `Bootcamps`, `Courses`, `Reviews`, `AuthController`: the handlers.
- `Routes`: the routers.

A handler's result is an `Http.Outcome`. It is either `Respond` (the handler answered) or `Raise`
(it called `next(err)`, or threw inside `asyncHandler`, which comes to the same thing).
`ErrorMiddleware.ErrorHandler` maps a raised error to a response.

JavaScript values are modelled as follows:

- `Option` stands for undefined and null in bodies and stored fields.
- `Http.ReqUser` tells apart a `req.user` that was never set, one set to null by a lookup that found nobody, and a loaded user.
- Property reads on null or undefined raise the `TypeError` JavaScript would.
- Short-circuit order decides which error is raised.

Behaviour kept as the code has it:

- **The pre-save hook rehashes an unmodified password, but only in memory.** The hook is async and takes `next`. When the password is not modified it calls `next()` without returning, so the save goes ahead and writes the stored digest unchanged, while the hook goes on to replace the document's `password` with a hash of that digest. Only a later save of the same document writes the rehash (`UserModel.UserDoc.PreSave`, `UserModel.UserDoc.FinishPreSave`, `Store.SaveUser`). After a forgot-password request whose mail goes out, the old password still works (`AuthController.MailedResetKeepsLogin`). When the mail fails after the rehash has landed, the second save finds the in-memory rehash marked modified and writes a hash of that rehash, and the old password no longer works (`AuthController.FailedMailLocksOut`); a mail failure that comes before the rehash lands leaves the password as it was.
- **Reset tokens never expire.** `resetPassword` looks the token up by digest alone and never reads the stored expiry. `AuthController.ResetRoundTrip` succeeds at any later time.
- **No user can be an admin.** The role enum has no "admin", so no validated save stores one. The users router, which only admits admins, is unreachable (`Routes.UsersHandlersUnreachable`).
- **The schema requires nothing.** It says `require` where it means `required`.
- **getBootcamp's not-found message names the wrong id.** It uses `req.body.id`.
- **updateDetails answers with the old record.** It does not pass `{ new: true }`, so the response holds the record as it was before the update.
- **Bootcamp requests carry their own credentials.** Bootcamp update, delete and photo upload decide ownership and admin rights from `req.body.user` and `req.body.role`. The course and review handlers use the authenticated user instead (`Policy.BodyRoleOnlyFoolsBootcampGate`).

## Model

| member | source | states |
|---|---|---|
| Base.Split | middleware/auth.js:12 | `split(' ')` gives at least one piece, no piece holds the separator, and joining the pieces gives back the string |
| Base.SplitJoin | middleware/auth.js:12 | splitting a join of separator-free pieces gives back the pieces (Split's contract gives the other direction) |
| Base.SplitWithoutSeparator | middleware/auth.js:12 | a string without a space splits into itself alone |
| Base.SplitAtFirstSeparator | middleware/auth.js:12 | the first space ends the first piece and the rest splits on its own |
| Base.JoinEmpty | middleware/error.js:56-62 | a joined message list is empty exactly when there are no messages or one empty one, which is when the fallback "Server Error" is sent |
| UserModel.RoleOrDefault | models/User.js:21-25 | an undefined role becomes the default "user"; a given role is kept |
| UserModel.ValidationMessages | models/User.js:6-31 | validation passes exactly when the email matches the pattern (or is undefined or ""), the role is in the enum and the password (when given) has at least 6 characters; at most one message per path |
| UserModel.ValidatedRoleIsNotAdmin | models/User.js:21-25 | every role that passes validation is "user" or "publisher", never "admin" |
| UserModel.EmailAccepted | models/User.js:15-18 | the `match` validator admits an undefined or empty email, and otherwise exactly the emails the pattern accepts |
| UserModel.PasswordAccepted | models/User.js:29 | the `minlength` validator admits an undefined password, and otherwise exactly the passwords of at least 6 characters |
| UserModel.MatchPasswordOnDigest | models/User.js:69-71 | `matchPassword` against a stored bcrypt digest admits the entered password exactly when it is the plaintext the digest was made from |
| UserModel.WrittenPasswordLogsIn | models/User.js:53-59 | a save writes an unmodified password back as it was; a modified one is stored hashed, so that under a sound bcrypt the assigned plaintext matches it (`matchPassword`, models/User.js:69-71) |
| UserModel.ResavedRehashRejectsOriginal | models/User.js:53-71 | once a second save writes the in-memory rehash of a stored digest, the plaintext the digest was made from no longer matches under `matchPassword` |
| UserModel.UserDoc.Load | controller/auth.js:130 | a loaded document holds the stored record's fields, and its password counts as not modified |
| UserModel.UserDoc.New | controller/auth.js:40-42 | `User.create` builds a document from name, email, role and password, with no reset token; as a new document, its password counts as modified |
| UserModel.UserDoc.Record | models/User.js:6-39 | the record a save writes keeps the document's id, email, role and password |
| UserModel.UserDoc.GetResetPasswordToken | models/User.js:74-88 | returns the raw token, keeps only its SHA-256 digest and sets the expiry ten minutes after now; nothing else changes |
| UserModel.UserDoc.PreSave | models/User.js:53-59 | a modified password is hashed before the write, and an undefined one makes bcrypt throw; an unmodified one is left as it is and the hook lets the save go ahead early |
| UserModel.UserDoc.FinishPreSave | models/User.js:57-58 | after an early `next()`, the document's password becomes the hash of the one it held, in memory only |
| Store.SaveUser | models/User.js:6-59 | save validates (unless told not to), then runs the hook, then writes; the password written is hashed exactly when it was modified, and the document is left holding the hash of the password it had; the unique email index refuses another user's email; nothing is written unless all steps succeed, and the store stays valid |
| Store.OwnEmailFree | models/User.js:14 | with unique emails, a stored user's own email is never held by someone else |
| Store.CreateAddsOne | controller/bootcamps.js:53-64 | creating a bootcamp under a fresh id adds exactly that id to its owner's bootcamps |
| ErrorMiddleware.ErrorHandler | middleware/error.js:34-64 | ValidationError gives 400 with the comma-joined messages; otherwise code 11000 gives 400 "Duplicate field value entered"; otherwise CastError gives 404 "Resource not found"; anything else keeps its status (500 when it has none) and its message ("Server Error" when empty) |
| AuthMiddleware.ExtractToken | middleware/auth.js:8-15 | a token taken from a Bearer header is one space-free piece of it; without a qualifying header the token, if any, is the truthy cookie |
| AuthMiddleware.BearerHeaderSecondPiece | middleware/auth.js:10-12 | for every header whose first space-separated piece starts with "Bearer", the token is the second piece, whatever follows it after the next space and whatever the cookie holds |
| AuthMiddleware.BearerHeaderGivesToken | middleware/auth.js:10-12 | `Bearer <t>` yields t, whatever the cookie holds |
| AuthMiddleware.BearerHeaderWithoutPiece | middleware/auth.js:10-12 | a Bearer header with no second piece yields no token, and the cookie is not consulted |
| AuthMiddleware.BearerHeaderIgnoresCookie | middleware/auth.js:10-15 | once the header starts with "Bearer", the cookie never changes the token |
| AuthMiddleware.CookieFallback | middleware/auth.js:13-15 | without a Bearer header the token is the cookie when it is truthy |
| AuthMiddleware.ProtectDecision | middleware/auth.js:7-30 | the request is stopped with 401 "Not Authorized!" exactly when there is no token or it fails to verify; otherwise `req.user` is the stored user of the token's id, or null |
| AuthMiddleware.ProtectAsWritten | middleware/auth.js:17-19 | without a token, protect as written raises "ErrorResponse is not defined"; with one, it behaves as intended |
| AuthMiddleware.Protect | middleware/auth.js:7-30 | on a request object, protect decides as ProtectDecision and sets `req.user` only when it lets the request through |
| AuthMiddleware.MissingTokenResponse | middleware/auth.js:17-19 | a request without a token gets 401 "Not Authorized!" |
| AuthMiddleware.MissingTokenResponseAsWritten | middleware/auth.js:17-19 | as written, the same request gets 500 "ErrorResponse is not defined" |
| AuthMiddleware.Authorize | middleware/auth.js:33-45 | the request passes exactly when `req.user.role` is one of the roles, and then unchanged; any other role gets 401 "User role … has no access to this route"; a missing user throws |
| Policy.BodyOwnershipGate | controller/bootcamps.js:97-104 | the bootcamp check passes exactly when the body's user is the owner or the body's role is "admin" |
| Policy.ActorOwnershipGate | controller/courses.js:98-105 | the course and review check passes exactly when the record has an owner, the authenticated user is loaded, and it is the owner or an admin; each failing case raises the error JavaScript would |
| Policy.CreatorGate | controller/courses.js:66-73 | course creation passes exactly when the claimed user owns the bootcamp or the authenticated user is an admin |
| Policy.OnePerOwnerGate | controller/bootcamps.js:53-62 | a second bootcamp passes only for an authenticated admin; otherwise 400 "You cannot create more than 1 bootcamp" |
| Policy.BodyRoleOnlyFoolsBootcampGate | controller/bootcamps.js:97 | a publisher who owns nothing, sending `role: "admin"` in the body, passes the bootcamp check but not the course check |
| Bootcamps.PhotoName | controller/bootcamps.js:224 | the stored name starts with "photo_", and the bootcamp id and the extension can be read back from it |
| Bootcamps.GetBootcamp | controller/bootcamps.js:19-35 | a stored bootcamp is returned with 200; a missing one raises 400 with `req.body.id` in the message |
| Bootcamps.CreateBootcamp | controller/bootcamps.js:40-69 | creation succeeds exactly when the claimed user exists and owns no bootcamp, or the actor is an admin; it adds exactly the new bootcamp; a non-admin then owns exactly that bootcamp; each refusal has its message, and a second bootcamp with no `req.user` raises the TypeError of reading its role |
| Bootcamps.UpdateBootcamp | controller/bootcamps.js:74-115 | not found, then unknown user, then the ownership check, each with its error; on success only that bootcamp changes, and the body's user becomes its owner |
| Bootcamps.DeleteBootcamp | controller/bootcamps.js:120-146 | deletion succeeds exactly when the bootcamp exists and passes the ownership check; it removes exactly that bootcamp; no user lookup |
| Bootcamps.UploadPhoto | controller/bootcamps.js:174-236 | the checks run in source order, each with its error: no `req.files` gives 400 "Photo not uploaded", and uploads without a `file` field give the TypeError of reading `mimetype`; an accepted file is renamed `photo_<id><ext>` and, once moved, stored as the bootcamp's photo and returned |
| Courses.GetCourses | controller/courses.js:10-21 | with a bootcamp id, exactly that bootcamp's courses with their count; without one, the filtered page |
| Courses.GetCourseById | controller/courses.js:26-45 | a stored course is returned, a missing one raises 400 |
| Courses.CreateCourse | controller/courses.js:50-81 | the route's bootcamp id becomes `req.body.bootcamp`; creation succeeds exactly when that bootcamp exists and the creator check passes; it adds exactly the new course |
| Courses.UpdateCourse | controller/courses.js:86-116 | with the lookup awaited: not found, then the ownership check; on success only that course changes |
| Courses.DeleteCourse | controller/courses.js:121-147 | with the lookup awaited: not found, then the ownership check; on success only that course is removed |
| Courses.UpdateCourseAsWritten | controller/courses.js:86-105 | as written, every update ends in 500 "Cannot read properties of undefined (reading 'toString')" |
| Courses.DeleteCourseAsWritten | controller/courses.js:121-140 | as written, every delete ends in the same 500 |
| Courses.OwnerUpdateAsWrittenAndAwaited | controller/courses.js:87-110 | the owner of an existing course is refused as written and served, with the update, once the lookup is awaited |
| Reviews.GetReviews | controller/reviews.js:10-21 | with a bootcamp id, exactly that bootcamp's reviews with their count; without one, the filtered page |
| Reviews.GetReview | controller/reviews.js:26-45 | a stored review is returned, a missing one raises 400 |
| Reviews.CreateReview | controller/reviews.js:50-71 | creation succeeds exactly when `req.body.bootcamp` names an existing bootcamp; there is no ownership check; it adds exactly the new review |
| Reviews.UpdateReview | controller/reviews.js:76-107 | not found, then the ownership check with "Not authorized to update review id:…"; on success only that review changes |
| Reviews.DeleteReview | controller/reviews.js:112-139 | as intended: after the checks, exactly the checked review is removed |
| Reviews.DeleteReviewAsWritten | controller/reviews.js:112-139 | as written: after the checks, the review collection is empty |
| Reviews.DeleteOwnReviewLosesOthers | controller/reviews.js:134 | an author deleting their own review also deletes another author's as written; the intended version keeps it |
| AuthController.SessionCookie | controller/auth.js:12-21 | the cookie is named "token", holds the token, expires JWT_COOKIE_EXPIRE days after now, is HTTP-only, and is secure exactly in production |
| AuthController.TokenResponse | controller/auth.js:9-31 | the same signed token is in the cookie and in the body |
| AuthController.LogoutResponse | controller/auth.js:103-109 | the token cookie is replaced by "none" for ten seconds, and the answer is 200 with an empty object |
| AuthController.Register | controller/auth.js:39-44 | registration raises the validation, bcrypt or duplicate-key error, and succeeds exactly when validation passes, a password is given and the email is free; a success stores the user with the password hashed and the default role when none is given, and the stored role is in the enum |
| AuthController.LoginUser | controller/auth.js:50-87 | missing fields give 400; otherwise success exactly when a user with that email matches the password; an unknown email and a wrong password give the same 401 |
| AuthController.GetMe | controller/auth.js:93-96 | the stored record of the authenticated user, or null when it is gone |
| AuthController.UpdateDetails | controller/auth.js:114-122 | only name and email change (absent ones become null); role and password never change; the unique index can refuse it; the answer is the old record |
| AuthController.UpdatePassword | controller/auth.js:129-144 | the current password must match, then the new one is validated and saved, hashed unless it equals the stored digest; every failure has its error and writes nothing |
| AuthController.IssueResetToken | controller/auth.js:156-157 | the first save stores the token digest and the expiry with the stored digest unchanged; the document is left holding the rehash of that digest |
| AuthController.ClearResetToken | controller/auth.js:174-177 | after a mail failure the reset fields are cleared and the document saved as it stands: its password is written hashed when modified, as it is otherwise; the unique index can refuse it |
| AuthController.ForgotPassword | controller/auth.js:149-180 | an unknown email gives 400 "There is no user"; otherwise the reset token is stored with the password unchanged and the answer is "Email sent", or 500 "Email could not be sent" with the token cleared and a hash of the stored digest's rehash written |
| AuthController.ResetPassword | controller/auth.js:186-210 | "Invalid token" exactly when no user holds the digest of the route's token; otherwise that user's new password is validated and stored with the reset fields cleared; the expiry is never checked |
| AuthController.StoreReset | controller/auth.js:201-206 | the reset save validates the new password and stores it with the reset fields cleared, hashed unless it equals the stored digest, or writes nothing |
| AuthController.ResetRoundTrip | controller/auth.js:149-210 | forgot then reset with the mailed token never gives "Invalid token", at any later time; after a successful reset the same token is refused, and the user can log in with the new password unless it is the stored digest itself |
| AuthController.MailedResetKeepsLogin | controller/auth.js:149-171 | a login succeeds after a forgot-password request whose mail went out exactly when it succeeded before |
| AuthController.FailedMailLocksOut | controller/auth.js:149-178 | after a forgot-password request whose mail failed once the first save's in-memory rehash had landed, the answer is 500 "Email could not be sent" and the user's old password is refused with "Invalid credentials" |
| Routes.MatchesSegmentwise | routes/bootcamps.js:23-35 | a route pattern matches a path exactly when both have as many segments and every literal equals the segment at its position |
| Routes.BindBindsParams | routes/bootcamps.js:29-35 | every bound parameter is a `:name` of the pattern, bound to a segment of the path |
| Routes.FirstRoute | routes/bootcamps.js:23-35 | the chosen route is registered for the verb and matches the path; with none chosen, no route for the verb matches |
| Routes.FirstRouteIs | routes/bootcamps.js:23-35 | a matching route with no matching route registered before it is the one chosen |
| Routes.FirstMount | routes/bootcamps.js:20-21 | the chosen mount's prefix matches; with none chosen, no prefix matches |
| Routes.Dispatch | routes/users.js:8-14 | a router's own answer runs its `router.use` guards first; a mount receives no more of the path than the router got |
| Routes.Resolve | routes/users.js:8-14 | a router without mounts answers every request itself; every chain a request resolves to, through a mount or not, starts with the router's `router.use` guards |
| Routes.RunGuards | middleware/auth.js:7-45 | the guards run in order, each seeing the `req.user` the previous left; a chain containing protect passes only a request whose token verifies, with protect as written or as intended |
| Routes.RunChain | routes/bootcamps.js:27 | a chain reaches its endpoint's handler only when the guards pass, with the `req.user` they leave; a guard that stops halts the chain with its error; Express's not-found handler is never reached |
| Routes.DispatchFromTable | routes/bootcamps.js:20-35 | a router answers with one of its own routes for that verb behind its own guards, or with its not-found handler, or hands the request to one of its mounts |
| Routes.DispatchToRoute | routes/auth.js:15-22 | with no mount matching, the first matching route runs with its own guards and parameters |
| Routes.DispatchToMount | routes/bootcamps.js:20-21 | the first matching mount gets the rest of the path and the prefix's parameters |
| Routes.ResolveOwn | routes/auth.js:15-22 | a request the router answers itself resolves to that chain |
| Routes.GuardsAdmit | routes/bootcamps.js:27 | behind `protect, authorize(roles)` only a request with a verifying token, for a stored user with one of the roles, reaches the handler, and it sees that user; without a token it stops at protect, with 500 "ErrorResponse is not defined" as written and with the intended 401 otherwise |
| Routes.BootcampTable | routes/bootcamps.js:20-35 | the table `BootcampsRouter`: bootcamp reads carry no guard, writes carry `protect, authorize("publisher", "admin")`; the mounts go to courses and reviews |
| Routes.BootcampMounts | routes/bootcamps.js:20-21 | the bootcamps router mounts the courses router, and the reviews router outside the model |
| Routes.CourseTable | routes/courses.js:14-28 | the table `CoursesRouter`: course reads carry no guard, writes carry the publisher guards |
| Routes.AuthTable | routes/auth.js:15-22 | the table `AuthRouter`: the auth routes carry no guard or `protect` alone, and `protect` exactly on me, logout, updatedetails and updatepassword |
| Routes.ReadsOpenWritesGuarded | routes/courses.js:1-28 | when a router and the router it mounts keep reads open and writes behind the publisher guards, every request they resolve does too |
| Routes.BootcampRoutesGuarded | routes/bootcamps.js:20-35 | every request through the bootcamps router, nested course requests included: reads pass no guard, other verbs pass exactly the publisher guards |
| Routes.CourseRoutesGuarded | routes/courses.js:14-28 | the same at the courses router's own prefix |
| Routes.NestedCourseListingSeesBootcamp | routes/courses.js:1-22 | under a bootcamp the course listing receives `bootcampId` (mergeParams); at its own prefix it receives none |
| Routes.NestedReviewsDelegated | routes/bootcamps.js:21 | review paths under a bootcamp are handed to the reviews router |
| Routes.BootcampByIdBindsId | routes/bootcamps.js:28-35 | `GET /:id` reaches getBootcamp with `id` bound; `PUT /:id/photo` reaches uploadPhoto behind the publisher guards |
| Routes.UsersRouterAdminOnly | routes/users.js:8-14 | the table `UsersRouter`: every request to the users router, matched or not, passes exactly `protect, authorize("admin")` |
| Routes.UsersHandlersUnreachable | routes/users.js:8-9 | when every stored role is in the enum, no request reaches a users handler, with protect as written or as intended |
| Routes.AuthRouteGuards | routes/auth.js:15-22 | every auth request resolves to no guard or `protect` alone, and `protect` exactly on the four account routes |
| Routes.ResetRouteBindsToken | routes/auth.js:22 | `PUT /resetpassword/:token` reaches resetPassword with the raw token bound as `token` |

## Left out

- The network, the server, the database connection and the mounting of routers under `/api/v1` are not modelled; `Server.js` is not part of this model.
- File storage: `file.mv` is the `moved` parameter of `Bootcamps.UploadPhoto`, and the upload path is not modelled.
- Mail: `sendEmail` is the `mailSent` parameter of `AuthController.ForgotPassword`; the reset URL and the message text are not modelled.
- Randomness and clocks: the raw reset token and `now` are parameters. The bcrypt salt is folded into the `bcryptHash` function.
- jsonwebtoken, bcrypt, SHA-256 and the email regex are uninterpreted functions in `Libraries.Lib`. Only the properties the lemmas name are assumed of them, as requirements (for example `BcryptSound`).
- Token expiry inside the JWT and `JWT_SECRET` are folded into `jwtVerify`.
- ObjectId casting: a malformed id raising CastError is only modelled in `ErrorMiddleware.ErrorHandler`. The handlers treat every id as a plain key.
- The Bootcamp, Course and Review schemas are not part of this model, so `runValidators` on their updates and their hooks (geocoding, cascade deletes, averages) are not modelled. Their records keep only the owner, the parent bootcamp, the photo, and the other fields as an opaque map.
- `populate` in getCourseById, and the `advancedResults` filtering middleware (its output is the opaque `Advanced` body), are not modelled.
- getBootcampsInRadius is modelled only as its route: geocoding is not modelled.
- `controller/users.js` is not part of this model; only the users router in front of it is.
- `routes/reviews.js` is not part of this model, so review paths end at the reviews mount (`Elsewhere(Reviews)`).
- `createdAt` and other schema defaults besides `role` are not modelled.
- Bootcamps.DeleteBootcamp: `bootcamp.remove()` is not awaited, so in the source the 200 goes out before the removal and a failed removal is an unhandled rejection rather than an error response; the model removes the bootcamp before answering and has no failing removal.
- Bootcamps.UpdateBootcamp: with `findByIdAndUpdate(id, req.body)` a `photo` key in the body overwrites the stored photo, and `Bootcamp.create(req.body)` in Bootcamps.CreateBootcamp sets it the same way; the model (`Bootcamps.UpdatedBootcamp`, `Bootcamps.NewBootcamp`) keeps such a key among the opaque fields, and its `photo` changes only through uploadPhoto.
- Concurrency: handlers run one at a time, and the race between a lookup and a later write is not modelled.
- Result order of `find` is not modelled: listings are maps from id to record.
- Routes: paths are given as segments. Matching covers literal and `:param` segments only, and one level of mounting, which is all these routers use. `router.use` guards are applied before the router's own routes and before the chain of a mounted router. That is the order of the users router, the only one that has them, and it has no mounts.
- Routes.Matches: Express matches paths case-insensitively and accepts one trailing slash by default; the model matches literals exactly and has no trailing empty segment, so `/me/` and `/ME` are unrouted in it.
- Routes.Dispatch: a request handed to a mounted router that has no route for it falls through, in Express, to the parent's later routes and finally to the not-found handler; the model ends it in the mounted router's not-found chain.
- Routes.RunGuards: the route tables name `protect` once; which version runs is the `asWritten` parameter, and `Routes.GuardsAdmit` states both.
- Timing of the pre-save hook: after an early `next()` the rehash is taken to land after the write and the response but before any later save of the same document, as bcrypt with cost 10 takes far longer than a write. The responses of updatePassword and resetPassword show the record as written. For the failed mail this is an assumption about the mailer, not a fact: a mailer whose connection is refused fails within milliseconds.
- AuthController.FailedMailLocksOut: a mail failure that comes before the first save's rehash lands is not modelled; in that order the second save finds the password unmodified, writes the stored digest unchanged, and the old password still logs in. AuthController.ForgotPassword has the same assumption in its mail-failed branch.
- AuthController.Register: a body with `"role": null` is refused by the source with a 400 validation error whose messages include "`null` is not a valid enum value for path `role`."; the model takes null as an absent role, gives it the default "user" (UserModel.RoleOrDefault) and registers the user.
- UserModel.UserDoc.PasswordModified: `isModified` is taken as a comparison with the value last loaded or written, which is what Mongoose's change tracking gives for the single assignment each handler makes. An undefined password given to `User.create` counts as modified, as every path set on a new document does.
- Request objects: only `req.params.bootcampId`, `req.user` and `req.files` are mutable fields. Other request and response objects are values. Several files under the one field name `file`, which express-fileupload gives as an array, are not modelled.
- AuthController.LoginUser: when several users share an email, `findOne` returns the first in natural order. The model takes any of them. The unique index makes this impossible in a valid store.
- AuthController.ResetPassword: when several users hold the same token digest, the model picks any of them (the ghost `holder`), not the first in natural order.
- AuthController.ForgotPassword: the same, for several users without an email, who all match `findOne({ email: undefined })`.
- ErrorMiddleware.ErrorHandler: the console log is left out.

## Findings

| source | as written | input that shows it | evidently intended | confidence | as-written member | corrected member |
|---|---|---|---|---|---|---|
| middleware/auth.js:17-19 | the missing-token branch constructs `ErrorResponse`, but the file only imports `errorResponse`, so that branch throws a ReferenceError | a request with no Authorization header and no token cookie to any protected route: 500 "ErrorResponse is not defined" | 401 "Not Authorized!" | high, not executed | AuthMiddleware.MissingTokenResponseAsWritten | AuthMiddleware.MissingTokenResponse |
| controller/courses.js:87-105 | `Course.findById` is not awaited in updateCourse and deleteCourse, so `course` is a pending query: the not-found check never fires and `course.user.toString()` throws | the owner of an existing course sending PUT or DELETE to `/courses/:id`: 500 "Cannot read properties of undefined (reading 'toString')" | the course is looked up; missing gives 400; the owner or an admin may update or delete | high, not executed | Courses.OwnerUpdateAsWrittenAndAwaited | Courses.UpdateCourse |
| controller/reviews.js:134 | `Review.remove()` is called on the model with no conditions, which removes every review | two reviews by different authors; the first author deletes their own: both are gone | only the checked review is removed | medium (depends on the Mongoose version's `Model.remove`), not executed | Reviews.DeleteOwnReviewLosesOthers | Reviews.DeleteReview |

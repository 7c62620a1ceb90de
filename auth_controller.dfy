/** The account handlers: registration, login, the session cookie, profile and password
    changes, and the forgot/reset password flow. */
module AuthController {
  import opened Base
  import opened Errors
  import opened Libraries
  import opened UserModel
  import opened Http
  import opened Store

  const DayMillis: int := 24 * 60 * 60 * 1000
  const LogoutCookieLifetime: int := 10 * 1000

  /** The options of the session cookie: it lives JWT_COOKIE_EXPIRE days from `now`, is
      HTTP-only, and is marked secure exactly when NODE_ENV is "production". */
  function SessionCookie(token: string, cfg: Config, now: int): (c: Cookie)
    ensures c.name == "token" && c.value == token && c.httpOnly
    ensures c.expires == now + cfg.jwtCookieExpireDays * 86400000
    ensures c.secure <==> cfg.nodeEnv == "production"
  {
    Cookie("token", token, now + cfg.jwtCookieExpireDays * DayMillis, true, cfg.nodeEnv == "production")
  }

  /** sendTokenResponse: the signed token goes both into the cookie and into the body. */
  function TokenResponse(user: User, status: int, lib: Lib, cfg: Config, now: int): (r: Response)
    ensures r.status == status
    ensures r.body == WithToken(user, lib.jwtSign(user.id))
    ensures r.cookie.Some? && r.cookie.value.value == r.body.token
    ensures r.cookie.value == SessionCookie(lib.jwtSign(user.id), cfg, now)
  {
    var token := lib.jwtSign(user.id);
    Response(status, WithToken(user, token), Some(SessionCookie(token, cfg, now)))
  }

  /** logout: the token cookie is overwritten with "none" for ten seconds; not marked secure. */
  function LogoutResponse(now: int): (r: Response)
    ensures r.status == 200 && r.body == Data(EmptyObject)
    ensures r.cookie == Some(Cookie("token", "none", now + 10000, true, false))
  {
    Response(200, Data(EmptyObject), Some(Cookie("token", "none", now + LogoutCookieLifetime, true, false)))
  }

  /** The record a successful registration stores. */
  function Registered(id: Id, body: Body, lib: Lib): User
    requires body.password.Some?
  {
    User(id, body.name, body.email, RoleOrDefault(body.role), lib.bcryptHash(body.password.value), None, None)
  }

  /** registerUser: `User.create({ name, email, password, role })` under the id the database
      assigns, then a token response with status 200. */
  method Register(db: Db, req: Request, lib: Lib, cfg: Config, now: int, newId: Id) returns (out: Outcome)
    requires db.Valid() && newId !in db.users
    modifies db`users
    ensures db.Valid()
    ensures var msgs := ValidationMessages(req.body.email, RoleOrDefault(req.body.role), req.body.password, lib);
      && (msgs != [] ==> out == Raise(ValidationError("User", msgs)))
      && (msgs == [] && req.body.password.None? ==> out == Raise(BcryptIllegalArguments()))
      && (msgs == [] && req.body.password.Some? && EmailTaken(old(db.users), req.body.email, newId) ==>
            out == Raise(DuplicateKey()))
      && (msgs == [] && req.body.password.Some? && !EmailTaken(old(db.users), req.body.email, newId) ==>
            out.Respond?)
    ensures out.Raise? ==> db.users == old(db.users)
    ensures out.Respond? ==>
      && req.body.password.Some?
      && db.users == old(db.users)[newId := Registered(newId, req.body, lib)]
      && out == Respond(TokenResponse(Registered(newId, req.body, lib), 200, lib, cfg, now))
      && db.users[newId].role in Roles
  {
    var doc := new UserDoc.New(newId, req.body.name, req.body.email, RoleOrDefault(req.body.role), req.body.password);
    var err := SaveUser(db, doc, true, lib);
    if err.Some? {
      return Raise(err.value);
    }
    out := Respond(TokenResponse(doc.Record(), 200, lib, cfg, now));
  }

  /** The user a login or a forgot-password request looks up: `findOne({ email })`. */
  predicate HasEmail(users: map<Id, User>, k: Id, email: Option<string>)
  {
    k in users && users[k].email == email
  }

  /** loginUser: both fields must be truthy; an unknown email and a wrong password give the
      same 401, so a client cannot tell which one failed. Nothing is written. */
  method LoginUser(db: Db, req: Request, lib: Lib, cfg: Config, now: int) returns (out: Outcome)
    requires db.Valid()
    ensures !Truthy(req.body.email) || !Truthy(req.body.password) ==>
      out == Raise(ErrorResponse("Please provide an email and password", 400))
    ensures Truthy(req.body.email) && Truthy(req.body.password) ==>
      && (out.Respond? <==> exists k :: HasEmail(db.users, k, req.body.email) &&
                                        MatchPassword(lib, req.body.password.value, db.users[k].password))
      && (out.Raise? ==> out.err == ErrorResponse("Invalid credentials", 401))
    ensures out.Respond? ==>
      exists k :: HasEmail(db.users, k, req.body.email) &&
                  out.response == TokenResponse(db.users[k], 200, lib, cfg, now)
  {
    if !Truthy(req.body.email) || !Truthy(req.body.password) {
      return Raise(ErrorResponse("Please provide an email and password", 400));
    }
    if !exists k :: k in db.users && HasEmail(db.users, k, req.body.email) {
      return Raise(ErrorResponse("Invalid credentials", 401));
    }
    var k :| k in db.users && HasEmail(db.users, k, req.body.email);
    if !MatchPassword(lib, req.body.password.value, db.users[k].password) {
      return Raise(ErrorResponse("Invalid credentials", 401));
    }
    out := Respond(TokenResponse(db.users[k], 200, lib, cfg, now));
  }

  /** getMe: the stored record of the authenticated user, or null when it is gone. */
  method GetMe(db: Db, req: Request) returns (out: Outcome)
    ensures !req.user.Loaded? ==> out == Raise(ReadOf(req.user, "id"))
    ensures req.user.Loaded? && req.user.user.id in db.users ==>
      out == Reply(200, Data(UserData(Some(db.users[req.user.user.id]))))
    ensures req.user.Loaded? && req.user.user.id !in db.users ==> out == Reply(200, Data(UserData(None)))
  {
    if !req.user.Loaded? {
      return Raise(ReadOf(req.user, "id"));
    }
    var id := req.user.user.id;
    out := Reply(200, Data(UserData(if id in db.users then Some(db.users[id]) else None)));
  }

  /** updateDetails: `findByIdAndUpdate(req.user.id, { name, email })` with no validators and
      no hook; an absent field is written as null. Only the unique index on `email` can refuse
      it. The response holds the record as it was before the update. */
  method UpdateDetails(db: Db, req: Request) returns (out: Outcome)
    requires db.Valid()
    modifies db`users
    ensures db.Valid()
    ensures !req.user.Loaded? ==> out == Raise(ReadOf(req.user, "id")) && db.users == old(db.users)
    ensures req.user.Loaded? ==>
      var id := req.user.user.id;
      && (id !in old(db.users) ==> out == Reply(200, Data(UserData(None))) && db.users == old(db.users))
      && (id in old(db.users) && EmailTaken(old(db.users), req.body.email, id) ==>
            out == Raise(DuplicateKey()) && db.users == old(db.users))
      && (id in old(db.users) && !EmailTaken(old(db.users), req.body.email, id) ==>
            && db.users == old(db.users)[id := old(db.users)[id].(name := req.body.name, email := req.body.email)]
            && out == Reply(200, Data(UserData(Some(old(db.users)[id])))))
    ensures db.users.Keys == old(db.users).Keys
    ensures forall k :: k in db.users ==>
      db.users[k].role == old(db.users)[k].role && db.users[k].password == old(db.users)[k].password
  {
    if !req.user.Loaded? {
      return Raise(ReadOf(req.user, "id"));
    }
    var id := req.user.user.id;
    if id !in db.users {
      return Reply(200, Data(UserData(None)));
    }
    if EmailTaken(db.users, req.body.email, id) {
      return Raise(DuplicateKey());
    }
    var before := db.users[id];
    db.users := db.users[id := before.(name := req.body.name, email := req.body.email)];
    out := Reply(200, Data(UserData(Some(before))));
  }

  /** updatePassword: the current password must match the stored digest; the new one is then
      saved with full validation, so a user whose stored role is outside the enum cannot change
      it. A missing user or a missing current password throws. The response shows the record
      as it was written. */
  method UpdatePassword(db: Db, req: Request, lib: Lib, cfg: Config, now: int) returns (out: Outcome)
    requires db.Valid()
    modifies db`users
    ensures db.Valid()
    ensures out.Raise? ==> db.users == old(db.users)
    ensures !req.user.Loaded? ==> out == Raise(ReadOf(req.user, "id"))
    ensures req.user.Loaded? && req.user.user.id !in old(db.users) ==>
      out == Raise(TypeError("Cannot read properties of null (reading 'matchPassword')"))
    ensures req.user.Loaded? && req.user.user.id in old(db.users) ==>
      var u := old(db.users)[req.user.user.id];
      var msgs := ValidationMessages(u.email, u.role, req.body.newPassword, lib);
      && (req.body.currentPassword.None? ==> out == Raise(BcryptIllegalArguments()))
      && (req.body.currentPassword.Some? && !MatchPassword(lib, req.body.currentPassword.value, u.password) ==>
            out == Raise(ErrorResponse("Wrong password!", 401)))
      && (req.body.currentPassword.Some? && MatchPassword(lib, req.body.currentPassword.value, u.password) ==>
            && (msgs != [] ==> out == Raise(ValidationError("User", msgs)))
            && (msgs == [] && req.body.newPassword.None? ==> out == Raise(BcryptIllegalArguments()))
            && (msgs == [] && req.body.newPassword.Some? ==>
                  var v := u.(password := WrittenPassword(Some(u.password), req.body.newPassword.value, lib));
                  db.users == old(db.users)[u.id := v] && out == Respond(TokenResponse(v, 200, lib, cfg, now))))
  {
    if !req.user.Loaded? {
      return Raise(ReadOf(req.user, "id"));
    }
    var id := req.user.user.id;
    if id !in db.users {
      return Raise(TypeError("Cannot read properties of null (reading 'matchPassword')"));
    }
    if req.body.currentPassword.None? {
      return Raise(BcryptIllegalArguments());
    }
    if !MatchPassword(lib, req.body.currentPassword.value, db.users[id].password) {
      return Raise(ErrorResponse("Wrong password!", 401));
    }
    var doc := new UserDoc.Load(db.users[id]);
    doc.password := req.body.newPassword;
    var err := SaveUser(db, doc, true, lib);
    if err.Some? {
      return Raise(err.value);
    }
    out := Respond(TokenResponse(db.users[id], 200, lib, cfg, now));
  }

  /** The record forgotPassword leaves when the mail goes out: the digest of the raw token and a
      ten-minute expiry are stored. The password is not modified, so the stored digest is
      written back unchanged. */
  function WithResetToken(u: User, raw: string, now: int, lib: Lib): User
  {
    u.(resetPasswordToken := Some(lib.sha256Hex(raw)),
       resetPasswordExpiration := Some(now + ResetTokenLifetime))
  }

  /** The record forgotPassword leaves when the mail fails: the reset fields are cleared again
      by a second save of the same document, which by then holds the hook's rehash of the
      stored digest, a modified password that this save hashes and writes. */
  function WithResetCleared(u: User, lib: Lib): User
  {
    u.(password := WrittenPassword(Some(u.password), lib.bcryptHash(u.password), lib),
       resetPasswordToken := None,
       resetPasswordExpiration := None)
  }

  /** The first save of forgotPassword: the loaded user gets a reset token. The store keeps the
      digest it had; the document is left holding its rehash. */
  method IssueResetToken(db: Db, k: Id, raw: string, now: int, lib: Lib) returns (doc: UserDoc)
    requires db.Valid() && k in db.users
    modifies db`users
    ensures fresh(doc) && doc.id == k
    ensures db.Valid()
    ensures db.users == old(db.users)[k := WithResetToken(old(db.users)[k], raw, now, lib)]
    ensures doc.savedPassword == Some(old(db.users)[k].password)
    ensures doc.password == Some(lib.bcryptHash(old(db.users)[k].password))
    ensures doc.Record() == WithResetToken(old(db.users)[k], raw, now, lib).(password := doc.password.value)
  {
    var u := db.users[k];
    OwnEmailFree(db.users, k);
    doc := new UserDoc.Load(u);
    var resetToken := doc.GetResetPasswordToken(raw, now, lib);
    var err := SaveUser(db, doc, false, lib);
  }

  /** The second save of forgotPassword, after the mail failed: the reset fields are cleared and
      the document saved as it stands, which the unique index on `email` can still refuse. */
  method ClearResetToken(db: Db, doc: UserDoc, lib: Lib) returns (err: Option<Err>)
    requires db.Valid() && doc.password.Some?
    modifies db`users, doc`resetPasswordToken, doc`resetPasswordExpiration, doc`password, doc`savedPassword
    ensures db.Valid()
    ensures doc.resetPasswordToken == None && doc.resetPasswordExpiration == None
    ensures EmailTaken(old(db.users), doc.email, doc.id) ==> err == Some(DuplicateKey()) && db.users == old(db.users)
    ensures !EmailTaken(old(db.users), doc.email, doc.id) ==>
      && err == None
      && db.users == old(db.users)[doc.id := old(doc.Record()).(
           password := WrittenPassword(old(doc.savedPassword), old(doc.password).value, lib),
           resetPasswordToken := None, resetPasswordExpiration := None)]
  {
    doc.resetPasswordToken := None;
    doc.resetPasswordExpiration := None;
    err := SaveUser(db, doc, false, lib);
  }

  /** forgotPassword. `raw` is the random token, `now` the clock and `mailSent` whether the mailer
      succeeded; both saves skip validation. The hook's rehash after the first save is taken to
      land before the mailer fails. */
  method ForgotPassword(db: Db, req: Request, lib: Lib, raw: string, now: int, mailSent: bool) returns (out: Outcome)
    requires db.Valid()
    modifies db`users
    ensures db.Valid()
    ensures (forall k :: !HasEmail(old(db.users), k, req.body.email)) ==>
      out == Raise(ErrorResponse("There is no user", 400)) && db.users == old(db.users)
    ensures forall k :: HasEmail(old(db.users), k, req.body.email) ==>
      && (mailSent ==>
            && out == Reply(200, Data(Text("Email sent")))
            && db.users == old(db.users)[k := WithResetToken(old(db.users)[k], raw, now, lib)])
      && (!mailSent ==>
            && out == Raise(ErrorResponse("Email could not be sent", 500))
            && db.users == old(db.users)[k := WithResetCleared(old(db.users)[k], lib)])
  {
    if !exists k :: k in db.users && HasEmail(db.users, k, req.body.email) {
      return Raise(ErrorResponse("There is no user", 400));
    }
    var k :| k in db.users && HasEmail(db.users, k, req.body.email);
    assert forall j :: HasEmail(db.users, j, req.body.email) ==> j == k;
    var doc := IssueResetToken(db, k, raw, now, lib);
    if mailSent {
      return Reply(200, Data(Text("Email sent")));
    }
    // the user's own email, just written under this id, cannot be refused by the index
    OwnEmailFree(db.users, k);
    var err := ClearResetToken(db, doc, lib);
    assert err.None?;
    out := Raise(ErrorResponse("Email could not be sent", 500));
  }

  /** The user holding a reset-token digest: `findOne({ resetPasswordToken })`. */
  predicate HoldsToken(users: map<Id, User>, k: Id, digest: string)
  {
    k in users && users[k].resetPasswordToken == Some(digest)
  }

  /** The record a successful reset stores: the password is hashed unless it equals the stored
      digest, which the hook then leaves as it is. */
  function AfterReset(u: User, password: string, lib: Lib): User
  {
    u.(password := WrittenPassword(Some(u.password), password, lib),
       resetPasswordToken := None, resetPasswordExpiration := None)
  }

  /** resetPassword: the user is found by the SHA-256 digest of the route's token alone; the
      stored expiry is never compared with `now`, which only sets the cookie's expiry. The
      new password is saved with full validation. `holder` names the user the lookup found. */
  method ResetPassword(db: Db, req: Request, lib: Lib, cfg: Config, now: int) returns (out: Outcome, ghost holder: Option<Id>)
    requires db.Valid()
    modifies db`users
    ensures db.Valid()
    ensures holder.None? <==> forall k :: !HoldsToken(old(db.users), k, lib.sha256Hex(req.token))
    ensures holder.None? ==> out == Raise(ErrorResponse("Invalid token", 400))
    ensures out.Raise? ==> db.users == old(db.users)
    ensures holder.Some? ==>
      && HoldsToken(old(db.users), holder.value, lib.sha256Hex(req.token))
      && var u := old(db.users)[holder.value];
      && var msgs := ValidationMessages(u.email, u.role, req.body.password, lib);
      && (msgs != [] ==> out == Raise(ValidationError("User", msgs)))
      && (msgs == [] && req.body.password.None? ==> out == Raise(BcryptIllegalArguments()))
      && (msgs == [] && req.body.password.Some? ==>
            var v := AfterReset(u, req.body.password.value, lib);
            db.users == old(db.users)[holder.value := v] && out == Respond(TokenResponse(v, 200, lib, cfg, now)))
  {
    var digest := lib.sha256Hex(req.token);
    if !exists k :: k in db.users && HoldsToken(db.users, k, digest) {
      return Raise(ErrorResponse("Invalid token", 400)), None;
    }
    var k :| k in db.users && HoldsToken(db.users, k, digest);
    holder := Some(k);
    var err, v := StoreReset(db, k, req.body.password, lib);
    if err.Some? {
      return Raise(err.value), holder;
    }
    out := Respond(TokenResponse(v, 200, lib, cfg, now));
  }

  /** The save of resetPassword: the new password and cleared reset fields, fully validated;
      `v` is the record the store then holds. */
  method StoreReset(db: Db, k: Id, password: Option<string>, lib: Lib) returns (err: Option<Err>, v: User)
    requires db.Valid() && k in db.users
    modifies db`users
    ensures db.Valid()
    ensures var u := old(db.users)[k];
      var msgs := ValidationMessages(u.email, u.role, password, lib);
      && (msgs != [] ==> err == Some(ValidationError("User", msgs)) && db.users == old(db.users))
      && (msgs == [] && password.None? ==> err == Some(BcryptIllegalArguments()) && db.users == old(db.users))
      && (msgs == [] && password.Some? ==>
            err == None && v == AfterReset(u, password.value, lib) && db.users == old(db.users)[k := v])
  {
    OwnEmailFree(db.users, k);
    var doc := new UserDoc.Load(db.users[k]);
    doc.password := password;
    doc.resetPasswordToken := None;
    doc.resetPasswordExpiration := None;
    ghost var u := old(db.users)[k];
    assert password.Some? ==> doc.Record() == u.(password := password.value, resetPasswordToken := None, resetPasswordExpiration := None);
    err := SaveUser(db, doc, true, lib);
    v := db.users[k];
  }

  /** The forgot/reset round trip. Starting from a store where nobody holds the new token's
      digest, resetting with the mailed raw token finds that user, at any later time, even past
      the ten-minute expiry; once the reset succeeded, the same token is refused, and the user
      can log in with the new password, unless that password is the stored digest itself. */
  method ResetRoundTrip(db: Db, forgot: Request, reset: Request, login: Request,
                        lib: Lib, cfg: Config, raw: string, now: int, later: int)
    returns (sent: Outcome, first: Outcome, second: Outcome, relogin: Outcome)
    requires db.Valid() && BcryptSound(lib)
    requires exists k :: HasEmail(db.users, k, forgot.body.email)
    requires forall j :: j in db.users ==> db.users[j].resetPasswordToken != Some(lib.sha256Hex(raw))
    requires reset.token == raw
    requires login.body.email == forgot.body.email && Truthy(login.body.email)
    requires login.body.password == reset.body.password && Truthy(login.body.password)
    modifies db`users
    ensures sent == Reply(200, Data(Text("Email sent")))
    ensures first != Raise(ErrorResponse("Invalid token", 400))
    ensures first.Respond? ==> second == Raise(ErrorResponse("Invalid token", 400))
    ensures first.Respond? && (forall j :: j in old(db.users) ==> Some(old(db.users)[j].password) != reset.body.password) ==>
      relogin.Respond?
  {
    ghost var k :| HasEmail(db.users, k, forgot.body.email);
    ghost var before := db.users[k];
    sent := ForgotPassword(db, forgot, lib, raw, now, true);
    assert db.users == old(db.users)[k := WithResetToken(before, raw, now, lib)];
    assert HoldsToken(db.users, k, lib.sha256Hex(raw));
    assert forall j :: HoldsToken(db.users, j, lib.sha256Hex(raw)) ==> j == k;
    first, second, relogin := ResetTwiceThenLogin(db, reset, login, lib, cfg, k, later);
  }

  /** The second half of the round trip: the only holder of the token's digest resets, the
      same token is then refused, and the new password logs in. */
  method ResetTwiceThenLogin(db: Db, reset: Request, login: Request, lib: Lib, cfg: Config, ghost k: Id, later: int)
    returns (first: Outcome, second: Outcome, relogin: Outcome)
    requires db.Valid() && BcryptSound(lib)
    requires HoldsToken(db.users, k, lib.sha256Hex(reset.token))
    requires forall j :: HoldsToken(db.users, j, lib.sha256Hex(reset.token)) ==> j == k
    requires HasEmail(db.users, k, login.body.email) && Truthy(login.body.email)
    requires login.body.password == reset.body.password && Truthy(login.body.password)
    modifies db`users
    ensures first != Raise(ErrorResponse("Invalid token", 400))
    ensures first.Respond? ==> second == Raise(ErrorResponse("Invalid token", 400))
    ensures first.Respond? && Some(old(db.users)[k].password) != reset.body.password ==> relogin.Respond?
  {
    ghost var before := db.users[k];
    ghost var holder;
    first, holder := ResetPassword(db, reset, lib, cfg, later);
    if first.Respond? {
      assert holder == Some(k);
      forall j | j in db.users
        ensures !HoldsToken(db.users, j, lib.sha256Hex(reset.token))
      {
        assert j != k ==> !HoldsToken(old(db.users), j, lib.sha256Hex(reset.token));
      }
    }
    ghost var h2;
    if first.Respond? && Some(before.password) != reset.body.password {
      assert holder == Some(k);
      assert HasEmail(db.users, k, login.body.email);
      WrittenPasswordLogsIn(lib, Some(before.password), login.body.password.value);
      assert MatchPassword(lib, login.body.password.value, db.users[k].password);
    }
    second, h2 := ResetPassword(db, reset, lib, cfg, later);
    relogin := LoginUser(db, login, lib, cfg, later);
  }

  /** A forgot-password request whose mail goes out leaves the password alone: every login that
      worked before it works after it. */
  method MailedResetKeepsLogin(db: Db, forgot: Request, login: Request, lib: Lib, cfg: Config,
                               raw: string, now: int)
    returns (before: Outcome, sent: Outcome, after: Outcome)
    requires db.Valid()
    modifies db`users
    ensures before.Respond? <==> after.Respond?
  {
    before := LoginUser(db, login, lib, cfg, now);
    ghost var stored := db.users;
    sent := ForgotPassword(db, forgot, lib, raw, now, true);
    assert forall j :: j in db.users ==>
      j in stored && db.users[j].email == stored[j].email && db.users[j].password == stored[j].password;
    after := LoginUser(db, login, lib, cfg, now);
  }

  /** A forgot-password request whose mail fails, after the in-memory rehash of the first save
      has landed, locks the user out of the password they had: the second save writes the hash
      of the stored digest's rehash, which the old plaintext no longer matches. */
  method FailedMailLocksOut(db: Db, forgot: Request, login: Request, lib: Lib, cfg: Config,
                            raw: string, now: int, plaintext: string)
    returns (failed: Outcome, relogin: Outcome)
    requires db.Valid() && BcryptSound(lib)
    requires exists k :: HasEmail(db.users, k, forgot.body.email) && db.users[k].password == lib.bcryptHash(plaintext)
    requires plaintext != lib.bcryptHash(plaintext) && plaintext != lib.bcryptHash(lib.bcryptHash(plaintext))
    requires login.body.email == forgot.body.email && Truthy(login.body.email)
    requires login.body.password == Some(plaintext) && plaintext != ""
    modifies db`users
    ensures failed == Raise(ErrorResponse("Email could not be sent", 500))
    ensures relogin == Raise(ErrorResponse("Invalid credentials", 401))
  {
    ghost var k :| HasEmail(db.users, k, forgot.body.email) && db.users[k].password == lib.bcryptHash(plaintext);
    failed := ForgotPassword(db, forgot, lib, raw, now, false);
    ResavedRehashRejectsOriginal(lib, plaintext);
    assert !MatchPassword(lib, plaintext, db.users[k].password);
    relogin := LoginUser(db, login, lib, cfg, now);
  }
}

/** Authentication (`protect`) and the role gate (`authorize`). */
module AuthMiddleware {
  import opened Base
  import opened Errors
  import opened Libraries
  import opened UserModel
  import opened Http
  import opened ErrorMiddleware

  /** What a middleware does with a request: call `next()`, leaving `req.user` as given, or
      call `next(err)` and stop the chain. */
  datatype Gate = Next(user: ReqUser) | Stop(err: Err)

  function NotAuthorized(): Err
  {
    ErrorResponse("Not Authorized!", 401)
  }

  /** The token protect works with: the second space-separated piece of an Authorization
      header that starts with "Bearer", else the `token` cookie. None is undefined. */
  function ExtractToken(authorization: Option<string>, cookie: Option<string>): (token: Option<string>)
    ensures Truthy(authorization) && StartsWith(authorization.value, "Bearer") && token.Some? ==>
      token.value in Split(authorization.value, ' ') && ' ' !in token.value
    ensures !(Truthy(authorization) && StartsWith(authorization.value, "Bearer")) ==>
      token.Some? ==> token == cookie && cookie != Some("")
  {
    if Truthy(authorization) && StartsWith(authorization.value, "Bearer") then
      var pieces := Split(authorization.value, ' ');
      if |pieces| > 1 then Some(pieces[1]) else None
    else if Truthy(cookie) then cookie
    else None
  }

  /** "Bearer <t>" yields t, whatever the cookie holds. */
  lemma BearerHeaderGivesToken(t: string, cookie: Option<string>)
    requires ' ' !in t
    ensures ExtractToken(Some("Bearer " + t), cookie) == Some(t)
  {
    assert "Bearer " + t == "Bearer" + [' '] + t;
    SplitAtFirstSeparator("Bearer", ' ', t);
    SplitWithoutSeparator(t, ' ');
  }

  /** Any header whose first space-separated piece starts with "Bearer" yields its second piece,
      whatever follows that piece after the next space. */
  lemma BearerHeaderSecondPiece(p: string, t: string, rest: string, cookie: Option<string>)
    requires StartsWith(p, "Bearer") && ' ' !in p && ' ' !in t
    requires rest == "" || rest[0] == ' '
    ensures ExtractToken(Some(p + [' '] + t + rest), cookie) == Some(t)
  {
    var header := p + [' '] + t + rest;
    assert header == p + [' '] + (t + rest);
    assert header[..|"Bearer"|] == p[..|"Bearer"|];
    SplitAtFirstSeparator(p, ' ', t + rest);
    if rest == "" {
      assert t + rest == t;
      SplitWithoutSeparator(t, ' ');
    } else {
      assert t + rest == t + [' '] + rest[1..];
      SplitAtFirstSeparator(t, ' ', rest[1..]);
    }
  }

  /** A Bearer header with no second piece yields no token: the cookie is not consulted. */
  lemma BearerHeaderWithoutPiece(header: string, cookie: Option<string>)
    requires StartsWith(header, "Bearer") && ' ' !in header
    ensures ExtractToken(Some(header), cookie) == None
  {
    SplitWithoutSeparator(header, ' ');
  }

  /** Once the header qualifies, the cookie never changes the token. */
  lemma BearerHeaderIgnoresCookie(header: string, cookie1: Option<string>, cookie2: Option<string>)
    requires StartsWith(header, "Bearer")
    ensures ExtractToken(Some(header), cookie1) == ExtractToken(Some(header), cookie2)
  {
  }

  /** Without a qualifying header the token is the cookie, when it is truthy. */
  lemma CookieFallback(authorization: Option<string>, cookie: Option<string>)
    requires !(Truthy(authorization) && StartsWith(authorization.value, "Bearer"))
    ensures ExtractToken(authorization, cookie) == (if Truthy(cookie) then cookie else None)
  {
  }

  /** protect, with the missing-token error it evidently means to raise. */
  function ProtectDecision(authorization: Option<string>, cookie: Option<string>, users: map<Id, User>, lib: Lib): (g: Gate)
    ensures var token := ExtractToken(authorization, cookie);
      g.Stop? <==> !Truthy(token) || lib.jwtVerify(token.value).None?
    ensures g.Stop? ==> g.err == NotAuthorized()
    ensures var token := ExtractToken(authorization, cookie);
      g.Next? ==> var id := lib.jwtVerify(token.value).value;
        g.user == (if id in users then Loaded(users[id]) else Null)
  {
    var token := ExtractToken(authorization, cookie);
    if !Truthy(token) then Stop(NotAuthorized())
    else match lib.jwtVerify(token.value)
      case None => Stop(NotAuthorized())
      case Some(id) => Next(if id in users then Loaded(users[id]) else Null)
  }

  /** protect as written: the missing-token branch constructs `ErrorResponse`, a name the file
      never binds (it imports `errorResponse`), so that branch throws a ReferenceError instead. */
  function ProtectAsWritten(authorization: Option<string>, cookie: Option<string>, users: map<Id, User>, lib: Lib): (g: Gate)
    ensures !Truthy(ExtractToken(authorization, cookie)) ==> g == Stop(ReferenceError("ErrorResponse is not defined"))
    ensures Truthy(ExtractToken(authorization, cookie)) ==> g == ProtectDecision(authorization, cookie, users, lib)
  {
    var token := ExtractToken(authorization, cookie);
    if !Truthy(token) then Stop(ReferenceError("ErrorResponse is not defined"))
    else match lib.jwtVerify(token.value)
      case None => Stop(NotAuthorized())
      case Some(id) => Next(if id in users then Loaded(users[id]) else Null)
  }

  /** protect on a request object: `req.user` is assigned the lookup result, null included,
      only when the token verifies. */
  method Protect(req: Request, users: map<Id, User>, lib: Lib) returns (g: Gate)
    modifies req`user
    ensures g == ProtectDecision(req.authorization, req.cookieToken, users, lib)
    ensures g.Next? ==> req.user == g.user
    ensures g.Stop? ==> req.user == old(req.user)
  {
    var token: Option<string> := None;
    if Truthy(req.authorization) && StartsWith(req.authorization.value, "Bearer") {
      var pieces := Split(req.authorization.value, ' ');
      if |pieces| > 1 {
        token := Some(pieces[1]);
      }
    } else if Truthy(req.cookieToken) {
      token := req.cookieToken;
    }
    if !Truthy(token) {
      return Stop(NotAuthorized());
    }
    var decoded := lib.jwtVerify(token.value);
    if decoded.None? {
      return Stop(NotAuthorized());
    }
    req.user := if decoded.value in users then Loaded(users[decoded.value]) else Null;
    g := Next(req.user);
  }

  /** The response to a request without a token, with the intended error: 401. */
  method MissingTokenResponse(authorization: Option<string>, cookie: Option<string>, users: map<Id, User>, lib: Lib)
    returns (resp: Response)
    requires !Truthy(ExtractToken(authorization, cookie))
    ensures resp.status == 401 && resp.body == Failure("Not Authorized!")
  {
    var g := ProtectDecision(authorization, cookie, users, lib);
    resp := ErrorHandler(g.err);
  }

  /** The response to a request without a token, as written: the ReferenceError reaches the
      error middleware with no status code of its own, so the client gets a 500. */
  method MissingTokenResponseAsWritten(authorization: Option<string>, cookie: Option<string>, users: map<Id, User>, lib: Lib)
    returns (resp: Response)
    requires !Truthy(ExtractToken(authorization, cookie))
    ensures resp.status == 500 && resp.body == Failure("ErrorResponse is not defined")
  {
    var g := ProtectAsWritten(authorization, cookie, users, lib);
    resp := ErrorHandler(g.err);
  }

  /** authorize(...roles): lets the request through exactly when `req.user.role` is one of the
      roles, never changing the request; reading the role of a missing user throws. */
  function Authorize(roles: seq<string>, user: ReqUser): (g: Gate)
    ensures g.Next? <==> user.Loaded? && user.user.role in roles
    ensures g.Next? ==> g.user == user
    ensures user.Loaded? && user.user.role !in roles ==>
      g == Stop(ErrorResponse("User role " + user.user.role + " has no access to this route", 401))
    ensures !user.Loaded? ==> g == Stop(ReadOf(user, "role"))
  {
    if !user.Loaded? then Stop(ReadOf(user, "role"))
    else if user.user.role !in roles then
      Stop(ErrorResponse("User role " + user.user.role + " has no access to this route", 401))
    else Next(user)
  }
}

/** The two authenticated handlers of the auth package: PostToken issues an
    access and a refresh token as cookies, PutPassword rotates the caller's
    password. Every collaborator (the request context, the JSON decoder, the
    JWT service and the login service) is an oracle whose answer is an input;
    the handlers record what they ask of it, in order, in a call trace. */
module Auth {
  import opened Chain

  // ---------------------------------------------------------------- values

  /** The identity an upstream middleware put in the request context. */
  datatype AuthUser = AuthUser(userUuid: string)

  /** A signed token as the JWT service returns it; expiry is a timestamp. */
  datatype Token = Token(token: string, expiry: int)

  datatype SameSite = SameSiteDefaultMode | SameSiteLaxMode | SameSiteStrictMode | SameSiteNoneMode

  /** The fields of an HTTP cookie that the handlers set. */
  datatype Cookie = Cookie(
    name: string,
    path: string,
    value: string,
    expires: int,
    httpOnly: bool,
    secure: bool,
    sameSite: SameSite)

  datatype Response = Response(code: int, body: string)

  /** The JSON body of a password change request. */
  datatype PasswordChange = PasswordChange(currentPassword: string, newPassword: string)

  // --------------------------------------------------- oracle answers

  /** What decoding the request body gave. */
  datatype Decoded = Decoded(data: PasswordChange) | DecodeErr(error: string)

  /** What the JWT service answered to one token request. */
  datatype Issued = Issued(token: Token) | IssueErr(error: string)

  /** What MatchPasswordByUuids answered: an error, or whether the password matched. */
  datatype MatchResult = MatchErr(error: string) | NoMatch | Match

  /** What a login-service call that returns only an error answered. */
  datatype Check = Pass | Fail(error: string)

  /** The JWT service's answers for one request. */
  datatype Jwt = Jwt(access: Issued, refresh: Issued)

  /** The login service's answers for one request. */
  datatype LoginService = LoginService(matched: MatchResult, complexity: Check, update: Check)

  /** Everything a handler asks of its request and its collaborators. */
  datatype Call =
    | DecodeJSON
    | AuthUserFromContext
    | CreateAccessToken(user: AuthUser)
    | CreateRefreshToken(user: AuthUser)
    | MatchPasswordByUuids(userUuid: string, password: string)
    | VerifyPasswordComplexity(password: string)
    | UpdatePassword(userUuid: string, newPassword: string)

  /** What one request produced: the response, the calls made in order, and
      the cookies appended to the response writer. */
  datatype Effect = Effect(response: Response, calls: seq<Call>, cookies: seq<Cookie>)

  // ------------------------------------------------------------ constants

  const StatusOK := 200
  const StatusBadRequest := 400
  const StatusUnauthorized := 401
  const StatusInternalServerError := 500

  /** Cookie names. Their values are defined in the login package, which is
      not part of this model; these are placeholders, and the one fact the
      model relies on is that the two differ, so that the refresh cookie
      does not overwrite the access cookie in the client. */
  const AccessTokenName := "access_token"
  const RefreshTokenName := "refresh_token"

  const Unauthorized := Response(StatusUnauthorized, "Unauthorized")
  const Success := Response(StatusOK, "success")
  const InternalError := Response(StatusInternalServerError, "Internal system error")

  // -------------------------------------------------------------- cookies

  /** The attributes every token cookie carries. */
  predicate Hardened(c: Cookie) {
    c.path == "/" && c.httpOnly && c.secure && c.sameSite == SameSiteLaxMode
  }

  /** The cookie setTokenCookie builds. */
  function TokenCookie(name: string, value: string, expire: int): (c: Cookie)
    ensures Hardened(c)
    ensures c.name == name && c.value == value && c.expires == expire
  {
    Cookie(name, "/", value, expire, true, true, SameSiteLaxMode)
  }

  /** The cookie carrying a token under the given name. */
  function CookieFor(name: string, t: Token): Cookie {
    TokenCookie(name, t.token, t.expiry)
  }

  /** The two session cookies, access first; none unless both tokens were issued. */
  function SessionCookies(jwt: Jwt): seq<Cookie> {
    match (jwt.access, jwt.refresh)
    case (Issued(a), Issued(r)) => [CookieFor(AccessTokenName, a), CookieFor(RefreshTokenName, r)]
    case _ => []
  }

  // ------------------------------------------------------------ PostToken

  /** PostToken as a chain: look up the user, then ask for an access token,
      then for a refresh token. */
  function PostTokenSteps(user: Option<AuthUser>, jwt: Jwt): seq<Step<Call, Response>> {
    match user
    case None => [Step(AuthUserFromContext, Some(Unauthorized))]
    case Some(u) => [
      Step(AuthUserFromContext, None),
      Step(CreateAccessToken(u),
        if jwt.access.Issued? then None
        else Some(Response(StatusInternalServerError, "Failed to create access token"))),
      Step(CreateRefreshToken(u),
        if jwt.refresh.Issued? then None
        else Some(Response(StatusInternalServerError, "Failed to create refresh token")))
    ]
  }

  /** What PostToken does: the chain's response and calls, and the session
      cookies only when the whole chain went through. */
  function PostTokenSpec(user: Option<AuthUser>, jwt: Jwt): Effect {
    var run := Execute(PostTokenSteps(user, jwt), Success);
    Effect(run.response, run.calls, if run.completed then SessionCookies(jwt) else [])
  }

  // ---------------------------------------------------------- PutPassword

  function MatchVerdict(m: MatchResult): Option<Response> {
    match m
    case MatchErr(_) => Some(InternalError)
    case NoMatch => Some(Response(StatusBadRequest, "Bad request"))
    case Match => None
  }

  function ComplexityVerdict(c: Check): Option<Response> {
    match c
    case Fail(reason) => Some(Response(StatusBadRequest, reason))
    case Pass => None
  }

  function UpdateVerdict(c: Check): Option<Response> {
    match c
    case Fail(_) => Some(InternalError)
    case Pass => None
  }

  /** PutPassword as a chain: decode the body, look up the user, match the
      current password, check the new one's complexity, update it. */
  function PutPasswordSteps(body: Decoded, user: Option<AuthUser>, svc: LoginService): seq<Step<Call, Response>> {
    match body
    case DecodeErr(_) => [Step(DecodeJSON, Some(Response(StatusBadRequest, "Unable to parse request body")))]
    case Decoded(data) =>
      [Step(DecodeJSON, None)] +
      match user
      case None => [Step(AuthUserFromContext, Some(Unauthorized))]
      case Some(u) => [
        Step(AuthUserFromContext, None),
        Step(MatchPasswordByUuids(u.userUuid, data.currentPassword), MatchVerdict(svc.matched)),
        Step(VerifyPasswordComplexity(data.newPassword), ComplexityVerdict(svc.complexity)),
        Step(UpdatePassword(u.userUuid, data.newPassword), UpdateVerdict(svc.update))
      ]
  }

  /** What PutPassword does: the chain's response and calls; it never sets a cookie. */
  function PutPasswordSpec(body: Decoded, user: Option<AuthUser>, svc: LoginService): Effect {
    var run := Execute(PutPasswordSteps(body, user, svc), Success);
    Effect(run.response, run.calls, [])
  }

  // ------------------------------------------------- PostToken properties

  /** Without an identity in the context PostToken answers 401 and asks the
      JWT service nothing. */
  lemma PostTokenUnauthenticated(jwt: Jwt)
    ensures PostTokenSpec(None, jwt) == Effect(Unauthorized, [AuthUserFromContext], [])
  {
    HaltsAt(PostTokenSteps(None, jwt), 0, Success);
  }

  /** When the access token cannot be created PostToken answers 500, never
      asks for a refresh token and sets no cookie. */
  lemma PostTokenAccessFails(u: AuthUser, jwt: Jwt)
    requires jwt.access.IssueErr?
    ensures PostTokenSpec(Some(u), jwt) == Effect(
      Response(StatusInternalServerError, "Failed to create access token"),
      [AuthUserFromContext, CreateAccessToken(u)], [])
  {
    var steps := PostTokenSteps(Some(u), jwt);
    HaltsAt(steps, 1, Success);
    assert Calls(steps[..2]) == [AuthUserFromContext, CreateAccessToken(u)];
  }

  /** When the refresh token cannot be created PostToken answers 500 and sets
      no cookie, although the access token was already issued. */
  lemma PostTokenRefreshFails(u: AuthUser, jwt: Jwt)
    requires jwt.access.Issued? && jwt.refresh.IssueErr?
    ensures PostTokenSpec(Some(u), jwt) == Effect(
      Response(StatusInternalServerError, "Failed to create refresh token"),
      [AuthUserFromContext, CreateAccessToken(u), CreateRefreshToken(u)], [])
  {
    var steps := PostTokenSteps(Some(u), jwt);
    HaltsAt(steps, 2, Success);
    assert steps[..3] == steps;
  }

  /** When both tokens are issued PostToken answers 200 "success" and appends
      the access cookie, then the refresh cookie, each carrying its token's
      value and expiry. */
  lemma PostTokenIssues(u: AuthUser, access: Token, refresh: Token)
    ensures PostTokenSpec(Some(u), Jwt(Issued(access), Issued(refresh))) == Effect(
      Success,
      [AuthUserFromContext, CreateAccessToken(u), CreateRefreshToken(u)],
      [CookieFor(AccessTokenName, access), CookieFor(RefreshTokenName, refresh)])
  {
    Completes(PostTokenSteps(Some(u), Jwt(Issued(access), Issued(refresh))), Success);
  }

  /** For every request: PostToken succeeds exactly when there is an identity
      and both tokens are issued; cookies are set exactly on success, there
      are then two of them, access first, each hardened and carrying its
      token, under two different names so that neither overwrites the
      other in the client; a refresh token is only asked for after an
      access token was issued. */
  lemma PostTokenCookiesOnlyOnSuccess(user: Option<AuthUser>, jwt: Jwt)
    ensures var e := PostTokenSpec(user, jwt);
      && (e.response == Success <==> user.Some? && jwt.access.Issued? && jwt.refresh.Issued?)
      && (e.cookies != [] <==> e.response == Success)
      && (forall c :: c in e.cookies ==> Hardened(c))
      && (e.cookies != [] ==>
            |e.cookies| == 2
            && e.cookies[0].name == AccessTokenName
            && e.cookies[0].value == jwt.access.token.token
            && e.cookies[0].expires == jwt.access.token.expiry
            && e.cookies[1].name == RefreshTokenName
            && e.cookies[1].value == jwt.refresh.token.token
            && e.cookies[1].expires == jwt.refresh.token.expiry
            && e.cookies[0].name != e.cookies[1].name)
      && (forall u :: CreateRefreshToken(u) in e.calls ==> jwt.access.Issued?)
  {
    match user
    case None => PostTokenUnauthenticated(jwt);
    case Some(u) =>
      if jwt.access.IssueErr? {
        PostTokenAccessFails(u, jwt);
      } else if jwt.refresh.IssueErr? {
        PostTokenRefreshFails(u, jwt);
      } else {
        PostTokenIssues(u, jwt.access.token, jwt.refresh.token);
      }
  }

  // ----------------------------------------------- PutPassword properties

  /** A body that does not decode gives 400 before the identity is looked up
      and before any service is called, whether or not there is an identity. */
  lemma PutPasswordUnparsable(error: string, user: Option<AuthUser>, svc: LoginService)
    ensures PutPasswordSpec(DecodeErr(error), user, svc) == Effect(
      Response(StatusBadRequest, "Unable to parse request body"), [DecodeJSON], [])
  {
    HaltsAt(PutPasswordSteps(DecodeErr(error), user, svc), 0, Success);
  }

  /** A decoded body without an identity gives 401 and no service is called. */
  lemma PutPasswordUnauthenticated(data: PasswordChange, svc: LoginService)
    ensures PutPasswordSpec(Decoded(data), None, svc) == Effect(
      Unauthorized, [DecodeJSON, AuthUserFromContext], [])
  {
    var steps := PutPasswordSteps(Decoded(data), None, svc);
    HaltsAt(steps, 1, Success);
    assert steps[..2] == steps;
  }

  /** When the current password cannot be matched (500 on a service error,
      400 "Bad request" on a mismatch) neither the complexity check nor the
      update is called. */
  lemma PutPasswordMatchFails(data: PasswordChange, u: AuthUser, svc: LoginService)
    requires svc.matched != Match
    ensures var e := PutPasswordSpec(Decoded(data), Some(u), svc);
      && e.calls == [DecodeJSON, AuthUserFromContext, MatchPasswordByUuids(u.userUuid, data.currentPassword)]
      && e.cookies == []
      && (svc.matched.MatchErr? ==> e.response == InternalError)
      && (svc.matched.NoMatch? ==> e.response == Response(StatusBadRequest, "Bad request"))
  {
    var steps := PutPasswordSteps(Decoded(data), Some(u), svc);
    HaltsAt(steps, 2, Success);
    assert Calls(steps[..3]) == [DecodeJSON, AuthUserFromContext, MatchPasswordByUuids(u.userUuid, data.currentPassword)];
  }

  /** When the new password fails the complexity check the answer is 400 with
      the complexity check's reason verbatim, and the update is not called. */
  lemma PutPasswordTooWeak(data: PasswordChange, u: AuthUser, svc: LoginService)
    requires svc.matched == Match && svc.complexity.Fail?
    ensures PutPasswordSpec(Decoded(data), Some(u), svc) == Effect(
      Response(StatusBadRequest, svc.complexity.error),
      [DecodeJSON, AuthUserFromContext, MatchPasswordByUuids(u.userUuid, data.currentPassword),
       VerifyPasswordComplexity(data.newPassword)],
      [])
  {
    var steps := PutPasswordSteps(Decoded(data), Some(u), svc);
    HaltsAt(steps, 3, Success);
    assert Calls(steps[..4]) == [DecodeJSON, AuthUserFromContext,
      MatchPasswordByUuids(u.userUuid, data.currentPassword), VerifyPasswordComplexity(data.newPassword)];
  }

  /** After a match and a passed complexity check the update is called once,
      last, with the user's uuid and the new password; its error gives 500,
      otherwise the answer is 200 "success". */
  lemma PutPasswordUpdates(data: PasswordChange, u: AuthUser, svc: LoginService)
    requires svc.matched == Match && svc.complexity == Pass
    ensures var e := PutPasswordSpec(Decoded(data), Some(u), svc);
      && e.calls == [DecodeJSON, AuthUserFromContext, MatchPasswordByUuids(u.userUuid, data.currentPassword),
                     VerifyPasswordComplexity(data.newPassword), UpdatePassword(u.userUuid, data.newPassword)]
      && e.cookies == []
      && e.response == (if svc.update.Pass? then Success else InternalError)
  {
    var steps := PutPasswordSteps(Decoded(data), Some(u), svc);
    if svc.update.Pass? {
      Completes(steps, Success);
    } else {
      HaltsAt(steps, 4, Success);
      assert steps[..5] == steps;
    }
  }

  /** The update was asked for. */
  predicate Updates(calls: seq<Call>) {
    exists i :: 0 <= i < |calls| && calls[i].UpdatePassword?
  }

  /** No call appears twice. */
  predicate NoRepeats(calls: seq<Call>) {
    forall i, j :: 0 <= i < j < |calls| ==> calls[i] != calls[j]
  }

  /** The update is asked for at most once, whatever its arguments. */
  predicate AtMostOneUpdate(calls: seq<Call>) {
    forall i, j :: 0 <= i < j < |calls| ==> !(calls[i].UpdatePassword? && calls[j].UpdatePassword?)
  }

  /** For every request: the update is called exactly when the body decoded,
      there is an identity, the password matched and the new one passed the
      complexity check, and then last, with that user's uuid and the new
      password; PutPassword never sets a cookie; it succeeds exactly when the
      update is called and succeeds. */
  lemma PutPasswordUpdateDiscipline(body: Decoded, user: Option<AuthUser>, svc: LoginService)
    ensures var e := PutPasswordSpec(body, user, svc);
      && (Updates(e.calls) <==> body.Decoded? && user.Some? && svc.matched == Match && svc.complexity == Pass)
      && (Updates(e.calls) ==>
            e.calls[|e.calls| - 1] == UpdatePassword(user.value.userUuid, body.data.newPassword))
      && e.cookies == []
      && (e.response == Success <==> Updates(e.calls) && svc.update == Pass)
  {
    var e := PutPasswordSpec(body, user, svc);
    match body
    case DecodeErr(error) =>
      PutPasswordUnparsable(error, user, svc);
    case Decoded(data) =>
      match user
      case None =>
        PutPasswordUnauthenticated(data, svc);
        assert !e.calls[0].UpdatePassword? && !e.calls[1].UpdatePassword?;
      case Some(u) =>
        if svc.matched != Match {
          PutPasswordMatchFails(data, u, svc);
          assert forall i :: 0 <= i < 3 ==> !e.calls[i].UpdatePassword?;
        } else if svc.complexity.Fail? {
          PutPasswordTooWeak(data, u, svc);
          assert forall i :: 0 <= i < 4 ==> !e.calls[i].UpdatePassword?;
        } else {
          PutPasswordUpdates(data, u, svc);
          assert e.calls[4].UpdatePassword?;
        }
  }

  /** No call of PutPassword is ever repeated within one request, and the
      update is called at most once, whatever its arguments. */
  lemma PutPasswordNoRepeats(body: Decoded, user: Option<AuthUser>, svc: LoginService)
    ensures NoRepeats(PutPasswordSpec(body, user, svc).calls)
    ensures AtMostOneUpdate(PutPasswordSpec(body, user, svc).calls)
  {
    match body
    case DecodeErr(error) =>
      PutPasswordUnparsable(error, user, svc);
    case Decoded(data) =>
      match user
      case None =>
        PutPasswordUnauthenticated(data, svc);
      case Some(u) =>
        var full := [DecodeJSON, AuthUserFromContext, MatchPasswordByUuids(u.userUuid, data.currentPassword),
                     VerifyPasswordComplexity(data.newPassword), UpdatePassword(u.userUuid, data.newPassword)];
        assert NoRepeats(full);
        assert forall i :: 0 <= i < 4 ==> !full[i].UpdatePassword?;
        assert AtMostOneUpdate(full);
        if svc.matched != Match {
          PutPasswordMatchFails(data, u, svc);
          assert PutPasswordSpec(body, user, svc).calls == full[..3];
        } else if svc.complexity.Fail? {
          PutPasswordTooWeak(data, u, svc);
          assert PutPasswordSpec(body, user, svc).calls == full[..4];
        } else {
          PutPasswordUpdates(data, u, svc);
        }
  }

  // ------------------------------------------------------- the handlers

  /** The response writer, seen only as the cookies appended to it. */
  class ResponseWriter {
    var cookies: seq<Cookie>

    constructor ()
      ensures cookies == []
    {
      cookies := [];
    }
  }

  /** The handle; `calls` records what its handlers asked of the request and
      of the JWT and login services, in order. */
  class Handle {
    var calls: seq<Call>

    constructor ()
      ensures calls == []
    {
      calls := [];
    }

    /** Appends a hardened cookie carrying the token to the writer. */
    method SetTokenCookie(w: ResponseWriter, tokenName: string, tokenValue: string, expire: int)
      modifies w
      ensures w.cookies == old(w.cookies) + [TokenCookie(tokenName, tokenValue, expire)]
      ensures Hardened(w.cookies[|w.cookies| - 1])
    {
      var tokenCookie := TokenCookie(tokenName, tokenValue, expire);
      w.cookies := w.cookies + [tokenCookie];
    }

    method PostToken(w: ResponseWriter, user: Option<AuthUser>, jwt: Jwt) returns (resp: Response)
      modifies this, w
      ensures var e := PostTokenSpec(user, jwt);
        resp == e.response && calls == old(calls) + e.calls && w.cookies == old(w.cookies) + e.cookies
    {
      calls := calls + [AuthUserFromContext];
      if user.None? {
        PostTokenUnauthenticated(jwt);
        return Unauthorized;
      }
      var authUser := user.value;

      calls := calls + [CreateAccessToken(authUser)];
      if jwt.access.IssueErr? {
        PostTokenAccessFails(authUser, jwt);
        return Response(StatusInternalServerError, "Failed to create access token");
      }
      var accessToken := jwt.access.token;

      calls := calls + [CreateRefreshToken(authUser)];
      if jwt.refresh.IssueErr? {
        PostTokenRefreshFails(authUser, jwt);
        return Response(StatusInternalServerError, "Failed to create refresh token");
      }
      var refreshToken := jwt.refresh.token;

      SetTokenCookie(w, AccessTokenName, accessToken.token, accessToken.expiry);
      SetTokenCookie(w, RefreshTokenName, refreshToken.token, refreshToken.expiry);
      PostTokenIssues(authUser, accessToken, refreshToken);
      resp := Success;
    }

    /** The writer is passed as in the source and left untouched. */
    method PutPassword(w: ResponseWriter, body: Decoded, user: Option<AuthUser>, svc: LoginService)
      returns (resp: Response)
      modifies this
      ensures var e := PutPasswordSpec(body, user, svc);
        resp == e.response && calls == old(calls) + e.calls
      ensures w.cookies == old(w.cookies)
    {
      calls := calls + [DecodeJSON];
      if body.DecodeErr? {
        PutPasswordUnparsable(body.error, user, svc);
        return Response(StatusBadRequest, "Unable to parse request body");
      }
      var data := body.data;

      calls := calls + [AuthUserFromContext];
      if user.None? {
        PutPasswordUnauthenticated(data, svc);
        return Unauthorized;
      }
      var authUser := user.value;

      calls := calls + [MatchPasswordByUuids(authUser.userUuid, data.currentPassword)];
      if svc.matched.MatchErr? {
        PutPasswordMatchFails(data, authUser, svc);
        return InternalError;
      } else if svc.matched.NoMatch? {
        PutPasswordMatchFails(data, authUser, svc);
        return Response(StatusBadRequest, "Bad request");
      }

      calls := calls + [VerifyPasswordComplexity(data.newPassword)];
      if svc.complexity.Fail? {
        PutPasswordTooWeak(data, authUser, svc);
        return Response(StatusBadRequest, svc.complexity.error);
      }

      calls := calls + [UpdatePassword(authUser.userUuid, data.newPassword)];
      PutPasswordUpdates(data, authUser, svc);
      if svc.update.Fail? {
        return InternalError;
      }
      resp := Success;
    }
  }
}

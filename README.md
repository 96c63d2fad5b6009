# Auth handlers: token issuance and password rotation

A model of the two authenticated HTTP handlers of the `auth` package
(`pkg/auth/handle.go`):

- `PostToken` looks up the authenticated user in the request context. It asks
  the JWT service for an access token and then for a refresh token. Only when
  both are issued does it append two cookies to the response writer, access
  first. It answers 200 "success".
- `PutPassword` decodes the JSON body, then looks up the user. It asks the
  login service to match the current password, to check the new password's
  complexity, and to update the password. Each step ends the request on
  failure with a fixed status. The match step has two such answers: 500 on a
  service error and 400 on a mismatch. The body is fixed too, except after a
  failed complexity check, where it is the check's error text verbatim.
- `setTokenCookie` builds a cookie with path `/`, `HttpOnly`, `Secure`,
  `SameSite=Lax`, the token's value and its expiry, and appends it to the
  writer.

Every collaborator is an oracle whose answer is an input. These are the request
context (`Option<AuthUser>`), the JSON decoder (`Decoded`), the JWT service
(`Jwt`: one answer per token) and the login service (`LoginService`: the match,
complexity and update answers). Each handler records what it asks, in order, in
a call trace (`Call`). The trace includes decoding the body (`DecodeJSON`) and
reading the context (`AuthUserFromContext`), so the order of those two steps
can be seen.

Layout:

- `chain.dfy`, module `Chain`: the semantics of an early-return chain. A
  `Step` makes one call and either lets the request go on or ends it with a
  response. `Execute` runs the steps up to the first one that halts.
  `HaltsAt` and `Completes` say exactly what a run produces.
- `handle.dfy`, module `Auth`:
  - the values (`Cookie`, `Token`, `Response`, ...);
  - each handler written as a list of steps (`PostTokenSteps`,
    `PutPasswordSteps`);
  - the specification of each handler as a pure function of the oracle
    answers (`PostTokenSpec`, `PutPasswordSpec`: response, calls, cookies);
  - lemmas for each failure path and the success path;
  - the imperative handlers. These are the class `Handle`, whose `calls`
    field is the trace, and the class `ResponseWriter`, whose `cookies`
    field is the writer. Their methods return early like the source does
    and are proved equal to the specification functions.

`PutPassword` decodes the body (handle.go:83) before it looks up the
identity (handle.go:90). A malformed body therefore answers 400 "Unable to
parse request body" even without an identity. `PutPasswordUnparsable` states
this.

## Model

| member | source | states |
|---|---|---|
| `Auth.TokenCookie` | pkg/auth/handle.go:26-34 | the token cookie carries the given name, value and expiry, with path "/", HttpOnly, Secure and SameSite=Lax |
| `Auth.Handle.SetTokenCookie` | pkg/auth/handle.go:25-37 | exactly one hardened token cookie is appended to the writer, and the earlier cookies are kept |
| `Chain.Execute` | pkg/auth/handle.go:44-138 | an early-return chain makes a prefix of its calls in order. It completes with the success response iff no step halts; otherwise the last call made is the first halting step, and its response is the answer |
| `Chain.HaltsAt` | pkg/auth/handle.go:44-136 | when the k-th step is the first to fail, the calls are exactly those of steps 0..k and the answer is that step's response |
| `Chain.Completes` | pkg/auth/handle.go:44-138 | when no step fails, every call is made in order and the answer is the success response |
| `Auth.PostTokenUnauthenticated` | pkg/auth/handle.go:44-51 | with no user in the context: 401 "Unauthorized", no JWT call, no cookie |
| `Auth.PostTokenAccessFails` | pkg/auth/handle.go:53-60 | when access-token creation fails: 500 "Failed to create access token", CreateRefreshToken is never called, no cookie |
| `Auth.PostTokenRefreshFails` | pkg/auth/handle.go:62-69 | when refresh-token creation fails: 500 "Failed to create refresh token" after both JWT calls, and no cookie is set |
| `Auth.PostTokenIssues` | pkg/auth/handle.go:71-75 | when both tokens are issued: 200 "success", and the access cookie then the refresh cookie, each with its token's value and expiry |
| `Auth.PostTokenCookiesOnlyOnSuccess` | pkg/auth/handle.go:44-75 | for every input: success iff a user is present and both tokens are issued; cookies are set iff the answer is success; there are then exactly two hardened cookies carrying the two tokens, under two different names; a refresh token is requested only after an access token was issued |
| `Auth.Handle.PostToken` | pkg/auth/handle.go:39-76 | the imperative handler's response, appended calls and appended cookies are those of `PostTokenSpec` |
| `Auth.PutPasswordUnparsable` | pkg/auth/handle.go:82-89 | an undecodable body: 400 "Unable to parse request body" before the identity lookup and before any service call, with or without a user |
| `Auth.PutPasswordUnauthenticated` | pkg/auth/handle.go:90-97 | a decoded body with no user: 401 "Unauthorized", and no service is called |
| `Auth.PutPasswordMatchFails` | pkg/auth/handle.go:98-115 | a match error gives 500 "Internal system error" and a mismatch gives 400 "Bad request". In both cases the match (with the user's uuid and the current password) is the last call, with no complexity check and no update |
| `Auth.PutPasswordTooWeak` | pkg/auth/handle.go:116-124 | a complexity failure gives 400 with the complexity check's error text verbatim; no update is called |
| `Auth.PutPasswordUpdates` | pkg/auth/handle.go:125-138 | after a match and a passed complexity check, UpdatePassword(user uuid, new password) is the fifth and last call; its error gives 500 "Internal system error", otherwise 200 "success" |
| `Auth.PutPasswordUpdateDiscipline` | pkg/auth/handle.go:82-138 | for every input: the update is called iff the body decoded, a user is present, the password matched and the complexity check passed; it is then called last, with that user's uuid and the new password; no cookie is ever set; success iff the update was called and succeeded |
| `Auth.PutPasswordNoRepeats` | pkg/auth/handle.go:78-139 | within one request no call is repeated, and UpdatePassword is called at most once whatever its arguments |
| `Auth.Handle.PutPassword` | pkg/auth/handle.go:78-139 | the imperative handler's response and appended calls are those of `PutPasswordSpec`, and the writer's cookies are unchanged |

## Left out

- The `net/http` plumbing. The response writer is only its list of cookies,
  and `http.SetCookie`'s header encoding is not modelled. The request is only
  what the handlers read from it: the context's user and the decoded body.
- JSON decoding (`render.DecodeJSON`) is an oracle answer: the two password
  strings, or an error.
- The context lookup and its type assertion become an `Option<AuthUser>`.
  The model assumes a nil `*AuthUser` is never stored under the key. A typed
  nil would pass the assertion (handle.go:44, handle.go:90), and the handlers
  would then hand nil to `CreateAccessToken` (handle.go:53) or panic reading
  `authUser.UserUUID` (handle.go:100). That path is not modelled.
- JWT signing and expiry computation happen inside the JWT service, which is
  not part of this model. A token is an opaque string plus an integer expiry,
  and each answer is an input.
- Password hashing, storage and the complexity rules belong to the login
  service, which is not part of this model. Its three answers are inputs.
  The `context.Context` passed to it is not modelled.
- `time.Time` is an integer timestamp.
- `slog` logging has no effect on results and is not modelled.
- `PostTokenJSON200Response` and `PutPasswordJSON200Response` are not part of
  this model. A success is modelled as code 200 with body "success", the
  `Result` field of the JSON body they write.
- The values of `login.ACCESS_TOKEN_NAME` and `login.REFRESH_TOKEN_NAME` come
  from the login package, which is not part of this model. They are
  placeholder strings here. The one fact about them that a property uses is
  that they differ (`PostTokenCookiesOnlyOnSuccess`); the model assumes the
  login package's two names differ too.
- The other `http.Cookie` fields (domain, max-age, raw fields) stay at Go's
  zero values and are not modelled.
- Concurrency between requests is not modelled. The handle keeps no state
  between requests, and each request's oracle answers are independent
  inputs.

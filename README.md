# MFLIX request authorization, modelled in Dafny

MFLIX is an Express API over a movie database. Before a controller runs, a request passes through
several stages, and this project models each of them:

- `authenticate()` reads the `Authorization` header. It writes `user`, `role` and `authType` onto
  the request in place.
- `auth(paths)` looks up the request's method in a policy table, checks the scheme the entry
  requires, then tests the entry's authorization predicate.
- The four policy tables are accounts, movies, comments and favorites.
- Two throttles sit in front of some routes:
  - `rateLimiter` keeps an in-memory map of GET counters and rated movies;
  - `reqLimiter` keeps a per-account request counter.
- `AccountService` manages the accounts collection: creation with a forced role, role and password
  changes, blocking, deletion and login.
- Two utilities:
  - `createError` and the error handler, which default a missing status to 500;
  - `getExpirationIn`, which reads a duration such as "1s" against a table of units.

Modules:

| module | file | models |
|---|---|---|
| `Common`, `Strings` | common.dfy, strings.dfy | `undefined` as `Option`; `startsWith`, `includes`, `substring`, `split` on a one-char class, `trim` |
| `Errors` | errors.dfy | `createError`, `errorHandler` |
| `Expiration` | expiration.dfy | `time_units`, `getExpirationIn` |
| `Requests` | requests.dfy | the request fields the layer reads, and JavaScript truthiness of a predicate's result |
| `Mediator` | mediator.dfy | `auth(paths)` |
| `Authentication` | authentication.dfy | `authenticate`, `jwtAuthentication`, `basicAuthentication`, as a class whose identity fields are overwritten in place |
| `AccountPaths`, `MoviesPaths`, `CommentsPaths`, `FavoritesPaths` | *_paths.dfy | the policy tables |
| `RateLimiting` | rate_limiter.dfy | `rateLimiter`, as a class over the module-level map |
| `RequestQuota` | req_limiter.dfy | `reqLimiter`, as a class over the stored counters |
| `Accounts` | account_service.dfy | `AccountService`, as a class over `map<email, Account>` |

Modelling conventions:

- Each state-changing middleware or service method is a Dafny `method` that updates a field of
  its class. It is proved equal to a pure step function, and the properties are lemmas about that
  step function.
- Outside collaborators are parameters of the model:
  - token verification: claims, or nothing when it throws;
  - base64 decoding;
  - the account lookup and login calls of the basic path, applied to exactly the arguments the
    source passes them;
  - the comment and favorites lookups;
  - bcrypt: an ideal hash, where a digest matches exactly the secret it was made from, and the
    salt is a parameter;
  - the clock: integer times.
- `ADMIN_EMAIL` and `ADMIN_PASSWORD` come in as a `Config` value.
- The request's HTTP method is the field `verb`, because `method` is a Dafny keyword.
- A predicate's result is a `Verdict`: a plain value, or a Promise of one for `async`
  predicates. The value is a boolean or the `{authorized: false, status, message}` object.

Three behaviours of the code that a reader might not expect, modelled as written:

- `src/security/MoviesPaths.js:14-19` lets every role except "admin" PATCH (rate) a movie. That
  includes a plain "user" and a request with no role.
- `src/middleware/rateLimiter.js:29` applies the one-rating-per-movie rule to "premium_user"
  only. Other roles are never stopped from rating a movie again.
- `src/security/FavoritesPaths.js:26-29` checks PUT ownership against the caller's first favorite
  only.

## Model

| member | source | states |
|---|---|---|
| Strings.Split | src/utils/expiration.js:11-12 | `split` on a one-char class: one more part than separators, no part holds a separator, the first part is the prefix of the string up to the first separator |
| Strings.FirstSegmentIs | src/utils/expiration.js:11 | any separator-free prefix that ends at a separator or at the end of the string is the first part of the split |
| Strings.SplitWithoutSeparator | src/security/authenticate.js:39 | a string with no separator splits into itself alone |
| Errors.CreateError | src/utils/error.js:1-5 | the error carries the given status and message, and the handler answers exactly that status and message |
| Errors.HandleError | src/utils/error.js:7-12 | the status is the error's when present, else 500; the body is the message when present, else "internal error server" followed by the error |
| Errors.Raised | src/utils/error.js:9-11 | an error thrown without a status, by the application or the engine, is answered with 500 and its own message |
| Errors.StatuslessErrorIs500 | src/utils/error.js:9 | a plain Error or an engine TypeError, which have no status, is answered with 500 and its message |
| Expiration.UnitMs | src/utils/expiration.js:1-7 | exactly h, d, m, s and ms have a value, and every value is positive |
| Expiration.Decimal | src/utils/expiration.js:11 | the decimal rendering of n is a non-empty digit run whose numeric value is n |
| Expiration.FindNonBlank | src/utils/expiration.js:13 | `findIndex` of the first non-blank segment: the index found is not blank and every segment before it is blank; -1 exactly when all segments are blank |
| Expiration.Amount | src/utils/expiration.js:11 | `split(/\D/)[0]` is the leading run of digits: all digits, a prefix of the duration, and followed by a non-digit or the end |
| Expiration.UnitValue | src/utils/expiration.js:12-16 | there is no unit value exactly when no segment between digits is non-blank or the first non-blank one is not in the unit table |
| Expiration.ExpirationIn | src/utils/expiration.js:10-19 | the result is the error 'Invalid time unit' exactly when no segment is non-blank or the first non-blank one is not in the unit table |
| Expiration.ExpirationOfDecimal | src/utils/expiration.js:11-19 | a duration written as the number n followed by a known unit evaluates to n times that unit's milliseconds |
| Expiration.UnitAfterDigits | src/utils/expiration.js:12-14 | splitting digits-then-unit on digits leaves blanks for the digits and puts the unit at the first non-blank index |
| Expiration.GetExpirationIn | src/utils/expiration.js:9-20 | the hard-coded "1s" is 1000 ms and never throws |
| Mediator.Decide | src/security/authenticate.js:68-70 | as written, only a synchronous `false` is refused, and it is answered 403 with an empty body; a Promise and a denial object both pass |
| Mediator.Auth | src/security/authenticate.js:58-74 | `next()` only when the method has an entry with both functions; every thrown error is one of the five the middleware can raise |
| Mediator.DecideAwaited | src/security/authenticate.js:68-70 | awaited, only `true` passes, and whatever passes also passes as written; `false` is answered 403 with an empty body, and a denial object with its own status and message |
| Mediator.AuthAwaited | src/security/authenticate.js:58-74 | the corrected mediator: `next()` only when the method has an entry with both functions |
| Mediator.AuthMissingEntry | src/security/authenticate.js:60 | a method without an entry throws an error with no status, which the handler answers with 500 |
| Mediator.AuthMissingAuthorization | src/security/authenticate.js:60-63 | an entry without an authorization predicate is 500 "security configuration not provided" |
| Mediator.AuthPublicSkipsPredicate | src/security/authenticate.js:64-72 | when no scheme is required the request passes, and the predicate is irrelevant: any other predicate gives the same outcome |
| Mediator.AuthSchemeMismatch | src/security/authenticate.js:64-67 | a required scheme that differs from `authType`, including no `authType` at all, is 401 "no required authentication" whatever the predicate |
| Mediator.AuthPredicateDecides | src/security/authenticate.js:68-72 | with the scheme matched, a truthy result passes and a falsy one is 403 with an empty message |
| Mediator.AuthPromisePasses | src/security/authenticate.js:68 | a Promise is truthy, so with the scheme matched an `async` predicate always passes |
| Mediator.AwaitedIsStricter | src/security/authenticate.js:68-72 | whatever the awaited mediator passes, the one as written passes too; for synchronous boolean predicates the two agree |
| Authentication.CredentialParts | src/security/authenticate.js:35-39 | the decoded credentials split on ':' give at least one part |
| Authentication.HttpRequest.Authenticate | src/security/authenticate.js:9-22 | the request's identity afterwards is `Authenticated` of the identity before: dispatch on the "Bearer " and "Basic " prefixes |
| Authentication.HttpRequest.JwtAuthentication | src/security/authenticate.js:24-32 | the identity becomes the token's `sub`, `role` and "jwt" when it verifies, and is untouched when verification throws |
| Authentication.HttpRequest.BasicAuthentication | src/security/authenticate.js:34-56 | the identity afterwards is `BasicIdentity`: the fields are written one at a time, so a `null` account leaves only `user` written |
| Authentication.OtherHeadersIgnored | src/security/authenticate.js:11-18 | no header, or a header with neither prefix, leaves user, role and authType unchanged |
| Authentication.BearerToken | src/security/authenticate.js:13-14 | "Bearer " + token sets the token's claims with "jwt" when it verifies, and changes nothing otherwise |
| Authentication.SplitPair | src/security/authenticate.js:39 | `name:password` with no ':' inside either part splits into exactly [name, password] |
| Authentication.AdministratorCredentials | src/security/authenticate.js:42-47 | the configured email and password authenticate as that email with role "" and "basic", without any account lookup |
| Authentication.AdministratorWrongPassword | src/security/authenticate.js:42-43 | the configured email with any other password leaves the identity unchanged |
| Authentication.OtherBasicNeedsBothCalls | src/security/authenticate.js:48-55 | for any other name nothing changes unless the lookup and the login both succeed, and "basic" is set only when an account was returned; conversely an account and a resolved login give the name, the account's role and "basic", and a `null` account writes the name alone |
| Authentication.ForgedTokenIsUnauthenticated | src/security/authenticate.js:26-31 | a token that fails to verify leaves a fresh request anonymous, and any entry requiring jwt then answers 401 |
| AccountPaths.Table | src/security/AccountPaths.js:1-43 | the table has entries for exactly POST, GET, PATCH and DELETE |
| AccountPaths.AdminCreation | src/security/AccountPaths.js:2-15 | a POST under "/admin" needs basic, then the configured administrator or role "admin"; everyone else is 403 |
| AccountPaths.PublicPost | src/security/AccountPaths.js:3-13 | any other POST needs no authentication and always passes |
| AccountPaths.ReadOrDeleteSelfOrAdmin | src/security/AccountPaths.js:16-21 | GET (and DELETE, lines 37-42) need jwt, then the administrator, the account named by `params.email`, or role "admin" |
| AccountPaths.PasswordPatch | src/security/AccountPaths.js:25-26 | a PATCH whose path contains "/password" follows the owner-or-admin rule, whatever else the path contains |
| AccountPaths.AdminOnlyPatch | src/security/AccountPaths.js:27-32 | "/roles", "/block" and "/unblock" pass only the administrator or role "admin", never the owner as such |
| AccountPaths.OtherPatchDenied | src/security/AccountPaths.js:34 | any other PATCH is 403 for everyone with jwt, the administrator included |
| AccountPaths.UnlistedMethod | src/security/AccountPaths.js:1-43 | a method outside the table throws the statusless destructuring error |
| MoviesPaths.Table | src/security/MoviesPaths.js:1-20 | the table has entries for exactly GET, POST and PATCH |
| MoviesPaths.ListedMethods | src/security/MoviesPaths.js:2-19 | each listed method needs jwt, then refuses role "admin" with 403 and passes every other role |
| MoviesPaths.RatingRoles | src/security/MoviesPaths.js:14-19 | rating (PATCH) passes "user", "premium_user", "" and no role, and is 403 for "admin" |
| MoviesPaths.NoPutOrDelete | src/security/MoviesPaths.js:1-20 | PUT and DELETE have no entry and throw the statusless destructuring error |
| CommentsPaths.LookupFailure | src/security/CommentsPaths.js:14-19 | once forwarded, a failed lookup is answered 404 'Comment not found' exactly when that was the error; any other error is answered 500 'Internal server error' |
| CommentsPaths.PostDecision | src/security/CommentsPaths.js:10-20 | `true` exactly when a comment was found, the caller is "premium_user" and wrote it; a failed lookup gives the catch object |
| CommentsPaths.DeleteDecision | src/security/CommentsPaths.js:24-34 | `true` exactly when the lookup did not throw and the caller is "admin", or is the "premium_user" author |
| CommentsPaths.Table | src/security/CommentsPaths.js:3-36 | the table has entries for exactly GET, POST and DELETE |
| CommentsPaths.ReadOpen | src/security/CommentsPaths.js:4-7 | reading comments needs jwt and nothing else |
| CommentsPaths.WritesPassAsWritten | src/security/CommentsPaths.js:8-35 | as written, POST and DELETE pass every jwt caller whatever the lookup finds |
| CommentsPaths.PostAwaited | src/security/CommentsPaths.js:10-20 | awaited, POST passes exactly the premium author; another author's comment is 403 and a missing one 404 |
| CommentsPaths.DeleteAwaited | src/security/CommentsPaths.js:24-34 | awaited, an admin deletes any comment the lookup finds, and a failed lookup is answered with the catch object's status and message |
| FavoritesPaths.PutDecision | src/security/FavoritesPaths.js:23-33 | `true` exactly when the favorites list is non-empty and the caller is a "premium_user" owning the first entry |
| FavoritesPaths.Table | src/security/FavoritesPaths.js:6-47 | the table has entries for exactly GET, POST, PUT and DELETE |
| FavoritesPaths.AnyJwtPassesAsWritten | src/security/FavoritesPaths.js:6-47 | as written, every listed method passes every jwt caller |
| FavoritesPaths.ForeignEmailPassesAsWritten | src/security/FavoritesPaths.js:9-11 | as written, a premium user reading another user's favorites passes |
| FavoritesPaths.ForeignEmailDeniedAwaited | src/security/FavoritesPaths.js:9-11 | awaited, the same request is 403 |
| FavoritesPaths.Awaited | src/security/FavoritesPaths.js:7-45 | awaited, each method passes exactly the callers its predicate accepts, and the rest are 403 |
| FavoritesPaths.PutWithoutFavorites | src/security/FavoritesPaths.js:25-31 | awaited, a PUT by a caller with no favorites, or whose lookup throws, is 403 |
| RateLimiting.CountGet | src/middleware/rateLimiter.js:7-27 | the GET counter refuses only with 'Rate limit exceeded' and an unchanged map; only the caller's entry changes |
| RateLimiting.RecordRating | src/middleware/rateLimiter.js:29-44 | a rating passes exactly when the caller has no entry or a set without this movie; the movie is then added to the set, and a refusal leaves the map alone |
| RateLimiting.RateLimiter.Limit | src/middleware/rateLimiter.js:6-46 | the outcome and the new map are those of `Step`, and every counter stays between 1 and the limit |
| RateLimiting.StepKeepsBounded | src/middleware/rateLimiter.js:11-25 | every step keeps every counter between 1 and RATE_LIMIT |
| RateLimiting.OtherRequestsUntouched | src/middleware/rateLimiter.js:7-45 | a request that is neither a GET by "user" nor a PATCH by "premium_user" passes and leaves the map unchanged |
| RateLimiting.WindowPassesRemainder | src/middleware/rateLimiter.js:15-22 | inside an open window that has counted c requests, only the remaining RATE_LIMIT - c of any number of GETs pass |
| RateLimiting.AtMostTwoPerWindow | src/middleware/rateLimiter.js:3-22 | a new "user" gets exactly min(n, 2) of n GETs through within the minute that starts with the first |
| RateLimiting.WindowExpires | src/middleware/rateLimiter.js:23-25 | a GET once the window has run out starts a new window with count 1 and passes |
| RateLimiting.SecondRatingRefused | src/middleware/rateLimiter.js:37-43 | after a rating passes, rating the same movie again is 429 'You have already rated this movie' and changes nothing |
| RequestQuota.Incremented | src/middleware/reqLimiter.js:24 | the increment never changes whether the window is over; a missing count becomes 1; a count below the quota never goes past it, and a non-negative count grows |
| RequestQuota.RequestLimiter.Limit | src/middleware/reqLimiter.js:5-29 | the outcome and the new counters are those of `QuotaStep`, including a reset that happens before a 429 or a failed increment |
| RequestQuota.UnknownAccount | src/middleware/reqLimiter.js:7-10 | an unknown caller is 404 'Account not found' and nothing is counted |
| RequestQuota.OnlyUsersAreCapped | src/middleware/reqLimiter.js:20-25 | any role other than "user" passes and is counted once, from zero after a reset |
| RequestQuota.UserQuota | src/middleware/reqLimiter.js:14-25 | a "user" inside an open window is 429 with nothing counted exactly when at the quota, and otherwise passes and is counted once; after the window runs out the count restarts at 1 and the request passes |
| RequestQuota.WindowBoundary | src/middleware/reqLimiter.js:14 | the reset test is strict: a window exactly TIME_WINDOW old is still open |
| RequestQuota.UserCountStaysWithinQuota | src/middleware/reqLimiter.js:14-24 | a "user" whose count is within REQS_LIMIT stays within it after any request |
| RequestQuota.StoreFailureIs500 | src/middleware/reqLimiter.js:26-28 | a failing lookup or increment never passes, and a 500 leaves the counters as they were apart from a reset already made |
| Accounts.Hash | src/service/AccountService.js:70 | the digest has cost 10 and matches its own secret and no other |
| Accounts.ExpiresAt | src/service/AccountService.js:71 | `Date.now() + getExpirationIn()` is the time plus 1000 ms |
| Accounts.Prepare | src/service/AccountService.js:68-84 | the record keeps email, username and role, is unblocked, holds a digest of the password and expires 1000 ms after preparation |
| Accounts.CreateStep | src/service/AccountService.js:25-32 | a taken email is 'Account already exists' and changes nothing; otherwise the prepared record is returned and added, and no existing record is touched |
| Accounts.SetRoleStep | src/service/AccountService.js:34-40 | an unknown email is 'Account not found' and changes nothing; otherwise only that record's role changes, to the given value |
| Accounts.UpdatePasswordStep | src/service/AccountService.js:42-54 | 'Account not found', then 'Password is the same' when the new password matches; otherwise only that record's password changes, to a digest of the new one |
| Accounts.ToggleBlockStep | src/service/AccountService.js:87-96 | 'Account not found' for an unknown email; otherwise only that record's `blocked` flips |
| Accounts.DeleteStep | src/service/AccountService.js:98-104 | 'Account not found' for an unknown email; otherwise exactly that key is removed and every other record is kept |
| Accounts.LoginStep | src/service/AccountService.js:106-125 | checks in order: 'Account not found', 'Invalid password', 'Session expired'; success yields claims with the username as subject and the role |
| Accounts.AccountStore.GetAccountByEmail | src/service/AccountService.js:56-66 | the record stored under the email, or `null` exactly when there is none |
| Accounts.AccountStore.AddUserAccount | src/service/AccountService.js:15-18 | creation with the role replaced by "user" |
| Accounts.AccountStore.AddAdminAccount | src/service/AccountService.js:20-23 | creation with the role replaced by "admin" |
| Accounts.AccountStore.CreateAccount | src/service/AccountService.js:25-32 | the result and the new collection are those of `CreateStep`, and every record stays under its own email |
| Accounts.AccountStore.SetRole | src/service/AccountService.js:34-40 | the result and the new collection are those of `SetRoleStep` |
| Accounts.AccountStore.UpdatePassword | src/service/AccountService.js:42-54 | the result and the new collection are those of `UpdatePasswordStep` |
| Accounts.AccountStore.BlockUnblockAccount | src/service/AccountService.js:87-96 | the result and the new collection are those of `ToggleBlockStep` |
| Accounts.AccountStore.DeleteAccount | src/service/AccountService.js:98-104 | the result and the new collection are those of `DeleteStep` |
| Accounts.AccountStore.Login | src/service/AccountService.js:106-125 | the result is that of `LoginStep`, and the collection is not changed |
| Accounts.RoleForced | src/service/AccountService.js:15-23 | whatever role the caller's object carried, a successful creation stores and returns the forced role |
| Accounts.StepsKeepKeyed | src/service/AccountService.js:25-104 | every operation keeps each record stored under its own email |
| Accounts.DuplicateRefused | src/service/AccountService.js:26-28 | after a creation, a second creation with the same email is refused and leaves the collection unchanged |
| Accounts.ToggleTwiceRestores | src/service/AccountService.js:92-95 | blocking twice restores the collection exactly |
| Accounts.SamePasswordTwice | src/service/AccountService.js:47-53 | right after a password change, setting the same password again is 'Password is the same' |
| Accounts.CreateThenLogin | src/service/AccountService.js:106-123 | a freshly created account logs in with its own password, and the token names its username and role |
| Accounts.LoginIgnoresStoredExpiration | src/service/AccountService.js:113-121 | changing the stored expiration never changes the login result |
| Accounts.LoginIgnoresBlocked | src/service/AccountService.js:106-125 | blocking an account never changes its login result |

## Left out

- Controllers, `MovieService`, `FavoriteService`, `CommentsService`: routing, MongoDB queries and
  the floating-point rating average are outside this model. The comment and favorites lookups
  are parameters of the tables.
- Validation schemas (Joi): their meaning lives in the library.
- I/O, logging, the database connection and the demo script: not modelled.
- Concurrency: each request is one sequential step. Interleaved async requests on the shared
  rate map or on the stored counters are not modelled.
- Token signing and verification, base64 decoding and bcrypt are parameters or ideal functions.
  A bcrypt collision is not modelled.
- Basic authentication passes the password as the email to the account lookup, and the account
  object as the email to login. The model applies both collaborators to exactly those arguments.
  What the real service then does with them is outside this model.
- `reqLimiter` calls the lookup, reset and increment on the class rather than an instance, and
  the service defines no reset or increment. The model treats the store as an abstract interface
  whose calls may throw (`Fault`). It does not decide which of them throw in the deployed code.
- `process.env` is a `Config` value. An unset variable, whose value is `undefined`, is not
  modelled.
- Policy tables and the unit table are plain objects. A method or unit named like an
  `Object.prototype` property (`constructor`, `toString`) would find an inherited member; the
  model treats such names as absent.
- Request `params` and `body` fields are strings. Non-string body values are not modelled.
- Expiration.ExpirationIn: the amount is an unbounded natural number. JavaScript `Number`
  precision is not modelled for amounts beyond 2^53.
- `addUserAccount` and `addAdminAccount` also overwrite the role on the caller's own object, even
  when creation then fails. The model passes a copy with the role replaced.
- Accounts.AccountStore.Login: the source re-prepares the stored record, hashing its digest
  again. Only the username, role and fresh expiration of that record are read, so the model
  prepares it with an empty secret.

## Findings

| source | as written | input that shows it | evidently intended | confidence | as-written member | corrected member |
|---|---|---|---|---|---|---|
| src/security/authenticate.js:68 | `authorization(req)` is tested without `await`. The `async` predicates of src/security/FavoritesPaths.js and src/security/CommentsPaths.js return a Promise, which is truthy, so they never refuse. | GET /favorites/b@x.io with a valid token for "a@x.io", role "premium_user": passes, although the predicate settles to `false` | await the predicate: `false` is 403, and a `{status, message}` object is answered with that status and message | not executed | FavoritesPaths.ForeignEmailPassesAsWritten | FavoritesPaths.ForeignEmailDeniedAwaited |

# Todo app: a Dafny model of the client and the server

This project models the core of a full-stack todo application, covering both halves.

- **The FastAPI server.**
  - Users and tasks in a SQL database.
  - bcrypt passwords and JWT access and refresh tokens.
  - The `/auth` and `/tasks` endpoints, and the bearer-token dependency that guards them.
  - The start-up choice between PostgreSQL and SQLite.
  - An outbound HTTP client.
- **The Next.js client.**
  - An axios API client that stores tokens in `localStorage` and refreshes an expired access token once for all waiting requests.
  - Two authentication providers and a route guard.
  - The endpoint catalogue and the task service.
  - The sign-up and task forms, the task list and task item.
  - The zod task schemas and an in-memory logger.

Each source file of the core has its own Dafny module:

- `Server…` modules model the server, and `Web…` modules model the client. Both halves have an API client, an auth configuration and an auth middleware, so the prefix keeps the names apart.
- Code that only computes is modelled as functions and lemmas.
- Components and objects whose state changes are classes. Their fields are reassigned by methods with `modifies` clauses, and each method's `ensures` clause gives the complete new state. This covers the database session, the React component state, `localStorage`, the axios client's refresh slot and the logger's buffer.
- Loops in the source are `while` loops with invariants, proved against reference functions. Examples:
  - the task list filter of `get_tasks_by_user`;
  - the `setattr` loops of the two partial updates;
  - the resolution of the requests parked during a refresh;
  - the de-duplication in `getAllEndpoints`.

Some inputs become parameters:

- Anything the code reads from outside: the clock, fresh `uuid4` values, bcrypt salts, environment variables.
- The outcome of every network call: a response, or a failure with its message.
- Whatever a browser API decides: whether a date parses, what a JWT payload decodes to.

Shared modules:

- `Wrappers`: Option and Result.
- `Strings`: prefix and substring tests, Python `strip`, `replace` and `int`, JavaScript `trim`.
- `Js`: JavaScript truthiness and `||`.
- `Unicode`: UTF-8 and UTF-16 lengths.
- `Uuids`: Python's `uuid.UUID(str)` parsing and `str(uuid)`, with the round trip between them.
- `ServerHttp`: the outcome of a FastAPI handler.

`ServerHttp.Outcome` is `Ok(value)`, `Raise(HttpError(status, detail, bearerChallenge))` for an `HTTPException`, or `Crash(reason)` for any other exception, which FastAPI answers with a 500.

Where the code and its documentation disagree, the model follows the code:

- The client never clears the session when a refresh fails. `refreshAccessToken` catches the failure itself and resolves to null, so the interceptor's own catch-and-redirect branch cannot be reached. The parked requests are then rejected with their original error.
- A request retried after a refresh carries no retry marker. A second 401 on it can start another refresh.
- `TaskUpdate` declares no title or description bounds, so an update that breaks them is committed. The bounds come back when the service builds a `TaskPublic` from the saved row: that validation error is a 500, and the row stays in the table. From then on every read of the row, the owner's list included, answers 500 until the row is repaired. `ServerTaskService.BadUpdateSpoilsList` shows this.
- Deactivating an account revokes neither its access tokens nor its refresh tokens. `ServerAuthMiddleware.DeactivatedTokenStillAccepted` and `ServerAuthRouter.RefreshWithIssuedTokens` show this.

## Model

| member | source | states |
|---|---|---|
| Uuids.Parse | backend/src/services/task_service.py:26-34 | `uuid.UUID(s)` succeeds only when removing "urn:" and "uuid:", stripping the braces and dropping the hyphens leaves 32 characters; the id it gives is 32 lower-case hex digits |
| Uuids.ParseToString | backend/src/services/task_service.py:26-38 | `uuid.UUID(str(u))` succeeds and gives back `u`, so the id string the routers pass on always parses |
| Uuids.ToStringInjective | backend/src/api/task_router.py:34-36 | two different user ids are never written as the same `str(uuid)`, so the owner string the routers pass identifies one user |
| ServerUserModels.NewUser | backend/src/models/user.py:15-28 | a new row holds the given id, email and hash and the model defaults: active, unverified, role "user", with both timestamps taken from the clock |
| ServerUserModels.WithUserColumns | backend/src/models/user.py:15-28 | the row after an update is committed exactly when email, is_active and email_verified are all non-null; it keeps its id and timestamps; writing back the row's own columns changes nothing |
| ServerUserModels.SetUserAllIsPatched | backend/src/services/user_service.py:172-176 | the `setattr` loop over `model_dump(exclude_unset=True)` changes exactly the fields that were sent and leaves the others as they were |
| ServerUserModels.SetUserAllAppend | backend/src/services/user_service.py:174-175 | running the `setattr` loop over two lists in turn is the same as running it over their concatenation |
| ServerTaskModels.ParseStatus | backend/src/models/task.py:9-13 | exactly "pending", "in_progress" and "completed" are statuses, and each one maps back to its own string value |
| ServerTaskModels.ParsePriority | backend/src/models/task.py:16-21 | exactly "low", "medium", "high" and "urgent" are priorities, and each one maps back to its own string value |
| ServerTaskModels.ParseTaskCreate | backend/src/models/task.py:24-31 | a create body is accepted if and only if it has a 1-200 character title, a description of at most 1000 characters if any, and valid enum values; the fields are kept; status defaults to pending and priority to medium |
| ServerTaskModels.NewTask | backend/src/models/task.py:34-39 | a new task has the fresh id, the owner and the create fields, with both timestamps taken from the clock |
| ServerTaskModels.ParseTaskUpdate | backend/src/models/task.py:47-54 | an update body is refused only for an enum value outside its set; title and description pass unchecked, explicit nulls included |
| ServerTaskModels.WithColumns | backend/src/models/task.py:26-39 | the row after an update is committed exactly when title, status and priority are non-null; it keeps its id, owner and timestamps |
| ServerTaskModels.SetAllIsPatched | backend/src/services/task_service.py:211-213 | the `setattr` loop changes exactly the fields the client sent, in any combination, and nothing else |
| ServerTaskModels.SetAllAppend | backend/src/services/task_service.py:212-213 | running the loop over two lists in turn is the same as running it over their concatenation |
| ServerDb.UserIndexById | backend/src/services/user_service.py:108-110 | `select(User).where(User.id == id).first()` finds a row with that id, and finds none exactly when no row has it |
| ServerDb.UserIndexByEmail | backend/src/services/user_service.py:127-141 | the email query finds a row with that email, and finds none exactly when no row has it |
| ServerDb.TaskIndex | backend/src/services/task_service.py:148-154 | the task query matches both the task id and the owner, and finds none exactly when no row matches both |
| ServerDb.Database.InsertUser | backend/src/models/user.py:17-25 | a user insert succeeds exactly when neither the primary key nor the unique email is taken; the row is appended and the table constraints still hold |
| ServerDb.Database.UpdateUser | backend/src/services/user_service.py:172-181 | an update commits exactly when no other row has the new email; the constraints still hold |
| ServerDb.Database.InsertTask | backend/src/models/task.py:36-37 | a task insert succeeds exactly when the id is new and the owner exists (the foreign key) |
| ServerDb.Database.UpdateTask | backend/src/services/task_service.py:214-219 | committing a row that keeps its id and owner replaces only that row |
| ServerDb.Database.DeleteTask | backend/src/services/task_service.py:273-275 | `session.delete` removes exactly that row and keeps the others, in the model's table order |
| ServerAuthConfig.ParseInt | backend/src/config/auth_config.py:15 | `int()` succeeds exactly when the text, stripped of Python white space, is an optional sign and at least one ASCII digit, and then gives their signed value |
| ServerAuthConfig.ParseIntOfString | backend/src/config/auth_config.py:15 | any integer written in decimal reads back as itself |
| ServerAuthConfig.ParseIntDigits | backend/src/config/auth_config.py:15 | an optional "+" or "-" and a run of digits, unpadded, read back as their value |
| ServerAuthConfig.ParseIntIgnoresPadding | backend/src/config/auth_config.py:15 | white space before and after the number, such as " 60 ", does not change what `int()` reads |
| ServerAuthConfig.LoadWith | backend/src/config/auth_config.py:4-19 | loading succeeds exactly when the expiry text (the environment's or the default) is an integer, which becomes the access lifetime in minutes; the secret falls back when unset; HS256 and 7 days are fixed |
| ServerAuthConfig.AsWrittenDefaultIsSixtyHours | backend/src/config/auth_config.py:14-15 | as written, the default "3600" makes access tokens last 3600 minutes, sixty times the client's one hour |
| ServerAuthConfig.DefaultLifetimes | backend/src/config/auth_config.py:14-28 | with the default corrected to 60 minutes, access tokens last one hour and refresh tokens 604800 seconds, both matching the client configuration |
| ServerJwt.Expiry | backend/src/utils/jwt_utils.py:24-27 | the expiry is now plus `expires_delta` when that is truthy, and otherwise now plus the configured lifetime |
| ServerJwt.CreateAccessToken | backend/src/utils/jwt_utils.py:11-31 | the token is signed with the configured key and algorithm; its claims are the caller's, with `exp` set to the expiry |
| ServerJwt.CreateRefreshToken | backend/src/utils/jwt_utils.py:34-54 | like an access token, but with the refresh lifetime and with `type` set to "refresh" |
| ServerJwt.VerifyToken | backend/src/utils/jwt_utils.py:57-75 | a token verifies exactly when it is signed with the configured key and algorithm, any `exp` is a number not yet passed and any `sub` is a string; it yields its claims |
| ServerJwt.DecodeTokenPayloadAsWritten | backend/src/utils/jwt_utils.py:78-93 | as written, decoding without verification yields None for every token |
| ServerJwt.DecodeTokenPayload | backend/src/utils/jwt_utils.py:78-93 | decoding without verification yields the claims of exactly the tokens jose wrote |
| ServerJwt.DecodeSeesVerified | backend/src/utils/jwt_utils.py:57-93 | unverified decoding agrees with verification wherever verification succeeds; the as-written decoding differs from it on every real token |
| ServerJwt.GetUserIdFromToken | backend/src/utils/jwt_utils.py:96-109 | a user id is returned exactly when the token verifies and carries `sub`, and it is that `sub` |
| ServerJwt.IsTokenExpired | backend/src/utils/jwt_utils.py:112-132 | a token counts as not expired exactly when it verifies at jose's whole-second reading, carries a truthy `exp`, and the microsecond reading of `utcnow()` has not passed `exp` |
| ServerJwt.AccessTokenLifetime | backend/src/utils/jwt_utils.py:11-132 | an issued access token verifies, with the given claims plus `exp`, until and including its expiry second and not after; when the `utcnow()` reading comes no earlier than jose's, `is_token_expired` says expired exactly once the instant `exp` is passed |
| ServerJwt.ExpirySecondDisagreement | backend/src/utils/jwt_utils.py:57-132 | read at one instant, an issued token that still verifies is reported expired exactly when the instant lies strictly inside its expiry second |
| ServerJwt.RefreshTokenLifetime | backend/src/utils/jwt_utils.py:34-132 | the same for refresh tokens, whose verified claims say `type` "refresh" |
| ServerJwt.AccessTokenHasNoType | backend/src/utils/jwt_utils.py:11-31 | an access token made from claims without `type` has no `type`, so it is never taken for a refresh token |
| ServerUserService.Truncate72 | backend/src/services/user_service.py:14 | the bytes bcrypt sees are a prefix of the password's UTF-8 encoding, at most 72 long |
| ServerUserService.GetPasswordHash | backend/src/services/user_service.py:11-17 | the hash carries the fresh salt and commits to at most 72 bytes |
| ServerUserService.VerifyHashed | backend/src/services/user_service.py:11-24 | a hash accepts its own password, and exactly the passwords whose first 72 bytes agree with it |
| ServerUserService.LongPasswordExtensionsVerify | backend/src/services/user_service.py:14-24 | for a password of 72 bytes or more, anything appended to it still signs in |
| ServerUserService.CreateUser | backend/src/services/user_service.py:31-84 | a taken email gives 400, then different confirmation gives 400; otherwise exactly the new row is appended and its public view returned; a uuid4 collision is an error |
| ServerUserService.GetUserById | backend/src/services/user_service.py:87-123 | 400 exactly for a non-UUID; otherwise the public view of the row with that id, or None exactly when there is none |
| ServerUserService.GetUserByIdOfToString | backend/src/services/user_service.py:87-123 | every user is found by the id the server writes out for it |
| ServerUserService.GetUserByEmail | backend/src/services/user_service.py:126-141 | the row with that email, or None exactly when no row has it |
| ServerUserService.UpdateUser | backend/src/services/user_service.py:144-190 | 400 for a malformed id, None for an unknown one; otherwise the sent fields are written and committed, unless a null or another user's email makes the commit fail |
| ServerUserService.TokenData | backend/src/services/user_service.py:223-226 | the token claims are exactly `sub` (the user's id as text) and `email` |
| ServerUserService.AuthenticateUser | backend/src/services/user_service.py:193-237 | None exactly for an unknown email or a wrong password; a 401 with challenge exactly for a deactivated account; otherwise the user's token pair |
| ServerUserService.SignupThenSignin | backend/src/services/user_service.py:31-237 | after registration adds its row, the same email and password sign in and get tokens for that row |
| ServerUserService.DeactivateUser | backend/src/services/user_service.py:240-271 | 400 for a malformed id, False for an unknown one; otherwise only `is_active` of that row becomes False |
| ServerUserService.DeactivatedCannotSignIn | backend/src/services/user_service.py:213-218 | a deactivated account with the right password always gets the 401 challenge |
| ServerAuthService.PublicWithoutRole | backend/src/services/auth_service.py:55-62 | the user is reported with the default role whatever its stored role |
| ServerAuthService.AuthenticateUser | backend/src/services/auth_service.py:15-70 | a 401 without challenge for a deactivated account; on success the access token lasts 30 minutes |
| ServerAuthService.AuthenticateServicesAgree | backend/src/services/auth_service.py:15-70 | both sign-in services accept and refuse the same credentials and issue the same refresh token; they differ only in the challenge header, the reported role and the access lifetime |
| ServerAuthService.RefreshAccessToken | backend/src/services/auth_service.py:79-105 | a new access token, of type "bearer" and carrying the same `sub` and `email`, exactly for a verified token of type "refresh" that has both claims; a missing `sub` or `email` is a KeyError |
| ServerAuthService.RefreshOfIssuedTokens | backend/src/services/auth_service.py:79-105 | an issued refresh token refreshes until it expires and not after; an access token never refreshes |
| ServerAuthService.DeactivateUser | backend/src/services/auth_service.py:108-138 | 403 unless the id is the caller's own; False for a missing row; otherwise only `is_active` becomes False |
| ServerAuthService.ActivateUser | backend/src/services/auth_service.py:141-162 | a malformed id escapes as a 500; False for an unknown id; otherwise only `is_active` becomes True |
| ServerAuthMiddleware.HttpBearer | backend/src/middleware/auth_middleware.py:16-20 | the credentials pass exactly when the header, its scheme and its credentials are present and the scheme is "bearer" in any case; otherwise 403 |
| ServerAuthMiddleware.JwtBearerCall | backend/src/middleware/auth_middleware.py:16-42 | the token passes exactly when the scheme is exactly "Bearer" and the token verifies; every refusal is a 403 |
| ServerAuthMiddleware.GetCurrentUser | backend/src/middleware/auth_middleware.py:46-97 | a user is returned exactly when the token verifies, its `sub` is a UUID and a row has that id; every refusal is a 401 with a challenge; an inactive user is returned too |
| ServerAuthMiddleware.GetCurrentUserAsWritten | backend/src/middleware/auth_middleware.py:16-56 | as wired, every request that passes the bearer check crashes, because the token string has no `.credentials` |
| ServerAuthMiddleware.NoRequestAuthenticatesAsWritten | backend/src/middleware/auth_middleware.py:46-56 | as wired, no request ever authenticates |
| ServerAuthMiddleware.CurrentUser | backend/src/middleware/auth_middleware.py:46-97 | the bearer check, then the token resolved to a user |
| ServerAuthMiddleware.IssuedTokenIdentifiesUser | backend/src/middleware/auth_middleware.py:46-97 | the access token issued at sign-in identifies its user until it expires, and gets a 403 afterwards |
| ServerAuthMiddleware.DeactivatedTokenStillAccepted | backend/src/middleware/auth_middleware.py:46-97 | deactivating an account does not revoke access tokens already issued |
| ServerAuthMiddleware.ValidateUserAccess | backend/src/middleware/auth_middleware.py:101-125 | True exactly when the target is the caller's id as `str(uuid)` writes it, and never False; 400 for a non-UUID; 403 with the "Cannot access other user's data" detail for any other UUID, another user's id or another spelling of the caller's own |
| ServerAuthRouter.Wrap | backend/src/api/auth_router.py:60-66 | any error that is not an `HTTPException` becomes a 500 naming it; an `HTTPException` passes unchanged |
| ServerAuthRouter.RegisterUser | backend/src/api/auth_router.py:18-66 | the service's 400s pass through; otherwise the new row is stored and the answer carries its public view and token pair |
| ServerAuthRouter.LoginUser | backend/src/api/auth_router.py:69-114 | a 401 with challenge exactly when the service finds no matching credentials; on success an active user with the right password and its token pair |
| ServerAuthRouter.RefreshToken | backend/src/api/auth_router.py:117-170 | 400 exactly when the body has no truthy refresh token; success exactly when it is a verified refresh token whose `sub` names an existing user, and the new access token is that user's |
| ServerAuthRouter.RefreshWithIssuedTokens | backend/src/api/auth_router.py:117-170 | an issued refresh token refreshes until it expires, and an access token sent as a refresh token gets a 401 |
| ServerAuthRouter.LogoutUser | backend/src/api/auth_router.py:173-185 | sign-out always succeeds with its fixed message |
| ServerTaskService.OwnedByMembership | backend/src/services/task_service.py:101-105 | a user's task list holds exactly that user's rows |
| ServerTaskService.OwnedByAppend | backend/src/services/task_service.py:101-105 | the filtered list of a concatenation is the concatenation of the filtered lists |
| ServerTaskService.UpdateIsolation | backend/src/services/task_service.py:176-237 | rewriting one user's task leaves every other user's list unchanged |
| ServerTaskService.DeleteIsolation | backend/src/services/task_service.py:240-277 | deleting one user's task leaves every other user's list unchanged |
| ServerTaskService.InsertIsolation | backend/src/services/task_service.py:14-78 | a new task goes at the end of its owner's list and into no other list |
| ServerTaskService.CreateTaskForUser | backend/src/services/task_service.py:14-78 | 400 for a malformed owner id, 404 for an unknown owner, 403 for a deactivated one; otherwise exactly the new task is appended, and its `TaskPublic` is valid because the `TaskCreate` was |
| ServerTaskService.GetTasksByUser | backend/src/services/task_service.py:81-123 | 400 for a malformed id; otherwise exactly that owner's rows, in the model's table order, when `TaskPublic` accepts all of them, and the `TaskPublic` validation error when it refuses any |
| ServerTaskService.ParseIds | backend/src/services/task_service.py:138-146 | both ids parse exactly when each one does |
| ServerTaskService.GetTaskByIdAndUser | backend/src/services/task_service.py:126-173 | 400 exactly for a malformed id; otherwise the row with that id and owner, or None exactly when no row has both; the `TaskPublic` validation error exactly when that row breaks the bounds |
| ServerTaskService.ApplyUpdate | backend/src/services/task_service.py:211-213 | the `setattr` loop leaves each column the client sent with its new value and every other column as it was |
| ServerTaskService.UpdateTaskByUser | backend/src/services/task_service.py:176-237 | 400 for malformed ids; None unless the user owns the task; otherwise only that row changes, with the sent fields and `updated_at`; a null in a NOT NULL column fails the commit; a committed row that breaks the bounds stays saved, and the answer is the `TaskPublic` validation error |
| ServerTaskService.DeleteTaskByUser | backend/src/services/task_service.py:240-277 | 400 for malformed ids; False unless the user owns the task; otherwise exactly that row is removed |
| ServerTaskService.Completion | backend/src/services/task_service.py:316-330 | the status is completed exactly when `completed` is true, and then only is there a completion time; nothing else but `updated_at` changes |
| ServerTaskService.CompletionLastWins | backend/src/services/task_service.py:316-330 | marking twice is the same as marking once with the later call's flag |
| ServerTaskService.CompleteTask | backend/src/services/task_service.py:280-344 | 400 for malformed ids; None unless the user owns the task; otherwise only that row changes, as `Completion` says, and the answer is the `TaskPublic` validation error when the row breaks the bounds |
| ServerTaskService.EmptyTitleUpdateCommits | backend/src/services/task_service.py:211-230 | an update setting the title to "" passes `TaskUpdate` and the NOT NULL check, and `TaskPublic` then refuses the saved row |
| ServerTaskService.BadRowSpoilsList | backend/src/services/task_service.py:101-117 | while a row that `TaskPublic` refuses is in the table, its owner's list fails |
| ServerTaskService.BadUpdateSpoilsList | backend/src/services/task_service.py:176-237 | one committed update that breaks the bounds leaves the owner's list failing |
| ServerTaskService.BadRowSparesOthers | backend/src/services/task_service.py:101-117 | other users' lists are not affected by the bad row |
| ServerTaskRouter.CallerIds | backend/src/api/task_router.py:104-106 | the caller's own id always parses, so only a bad task id can cause the 400 |
| ServerTaskRouter.GetUserTasks | backend/src/api/task_router.py:15-44 | the answer holds exactly the caller's tasks, in the model's table order; when `TaskPublic` refuses any of them, a 500 naming the validation error |
| ServerTaskRouter.CreateTask | backend/src/api/task_router.py:47-83 | the task is created for the caller and appended, and its answer is a valid `TaskPublic`; a missing caller gets 404 and a deactivated one 403; every failure becomes an HTTP error and leaves the table as it was |
| ServerTaskRouter.GetSpecificTask | backend/src/api/task_router.py:86-124 | 400 exactly for a malformed id; 404 exactly when the caller owns no task with that id; the `TaskPublic` validation error (a 500) exactly when the caller's task breaks the bounds; otherwise the caller's task |
| ServerTaskRouter.UpdateTask | backend/src/api/task_router.py:127-168 | 400, 404 as above; otherwise the service's update of only that row, answered with the saved row or, when it breaks the bounds, the `TaskPublic` validation error |
| ServerTaskRouter.DeleteTask | backend/src/api/task_router.py:171-212 | 400, 404 as above; otherwise exactly that row is removed |
| ServerTaskRouter.CompleteTaskEndpoint | backend/src/api/task_router.py:215-255 | 400, 404 as above; otherwise only that row is marked as `Completion` says, answered with it or, when it breaks the bounds, the `TaskPublic` validation error |
| ServerCompletionRouter.CompleteTask | backend/src/api/task_completion_router.py:15-55 | the stand-alone completion endpoint answers exactly as the task router's does |
| ServerApiClient.Url | backend/src/services/api_client.py:44 | the URL is the base, one slash, and the endpoint without any of its leading slashes |
| ServerApiClient.LeadingSlashesIgnored | backend/src/services/api_client.py:44 | any number of leading slashes on the endpoint gives the same URL |
| ServerApiClient.RequestHeaders | backend/src/services/api_client.py:47-58 | the headers are the JSON content type and accept, a bearer credential when a token is held, and the caller's headers, which win |
| ServerApiClient.MapResponse | backend/src/services/api_client.py:60-106 | a status below 400 returns the parsed body, and a body that is not JSON escapes; 401 and 403 have fixed details; other errors keep their status and the body's `detail` or a generic one; a transport failure is 503; a timeout is 503 when the HTTP library counts it as a request error, as httpx does, and 504 otherwise |
| ServerApiClient.ForwardsServerError | backend/src/services/api_client.py:79-90 | any server error other than 401 and 403 reaches the caller with the same status and detail |
| ServerApiClient.ApiClient.constructor | backend/src/services/api_client.py:12-21 | a non-empty argument is the base URL, else the environment's, else the default; no token is held |
| ServerApiClient.ApiClient.MakeRequest | backend/src/services/api_client.py:23-106 | the request sent has the verb, the joined URL, the merged headers, the body and the params; the answer is the mapped response |
| ServerApiClient.ApiClient.SetToken | backend/src/services/api_client.py:108-115 | later requests carry `Bearer <token>` unless the caller overrides Authorization |
| ServerApiClient.ApiClient.ClearToken | backend/src/services/api_client.py:117-119 | later requests carry no Authorization unless the caller sets one |
| ServerApiClient.ApiClient.Get | backend/src/services/api_client.py:121-123 | a GET with the query parameters and no body |
| ServerApiClient.ApiClient.Post | backend/src/services/api_client.py:125-127 | a POST with the JSON body |
| ServerApiClient.ApiClient.Put | backend/src/services/api_client.py:129-131 | a PUT with the JSON body |
| ServerApiClient.ApiClient.Patch | backend/src/services/api_client.py:133-135 | a PATCH with the JSON body |
| ServerApiClient.ApiClient.Delete | backend/src/services/api_client.py:137-139 | a DELETE with neither body nor query |
| ServerConnection.RewriteScheme | backend/src/database/connection.py:14-15 | a leading "postgres://" becomes "postgresql://", the rest is kept, and the result never starts with the legacy scheme |
| ServerConnection.RequireSsl | backend/src/database/connection.py:18-22 | a PostgreSQL URL without "sslmode=" gets `sslmode=require`, after `&` when it already has a query and after `?` otherwise |
| ServerConnection.NormaliseIdempotent | backend/src/database/connection.py:14-22 | normalising a URL twice gives the same result as normalising it once |
| ServerConnection.LegacySchemeNormalised | backend/src/database/connection.py:14-25 | a "postgres://" URL becomes a PostgreSQL URL with its host and path kept and TLS required |
| ServerConnection.ConfigureDatabase | backend/src/database/connection.py:10-59 | PostgreSQL exactly when the normalised URL is a PostgreSQL URL and the engine builds, and then with TLS required; otherwise the local SQLite file |
| WebStorage.LocalStorage.GetItem | frontend/src/services/api_client.ts:69-87 | `localStorage.getItem` gives the stored value exactly when the key is present, and null otherwise |
| WebStorage.LocalStorage.SetItem | frontend/src/services/api_client.ts:89-97 | `setItem` overwrites one key and leaves the others |
| WebStorage.LocalStorage.RemoveItem | frontend/src/services/api_client.ts:99-107 | `removeItem` deletes one key and leaves the others |
| WebApiClient.AuthorizeAttachesBearer | frontend/src/services/api_client.ts:19-31 | the request interceptor adds `Bearer <token>` whenever a truthy token is stored, so the header gives the token back; verb, URL, body and other headers are untouched; without a token the request goes out as it was |
| WebApiClient.RetryCarriesNewToken | frontend/src/services/api_client.ts:46-50 | a retried request keeps its verb, URL and body and carries the refreshed token, which survives the second pass through the request interceptor |
| WebApiClient.RetryAllAppend | frontend/src/services/api_client.ts:109-137 | retrying the parked requests in order is the same as retrying all but the last one and then the last one |
| WebApiClient.TaskCallPaths | frontend/src/services/api_client.ts:223-295 | every task call of the client goes under `/tasks`; completion is a PATCH whose body carries the flag; the reads and the delete send no body |
| WebApiClient.ApiClient.constructor | frontend/src/services/api_client.ts:9-17 | the base URL is the argument, else the environment's non-empty value, else the local default; no refresh is in flight and nothing was sent |
| WebApiClient.ApiClient.SaveTokens | frontend/src/services/api_client.ts:89-97 | both tokens are written under their keys and read back from them (the access token whenever the two keys differ) |
| WebApiClient.ApiClient.ClearTokens | frontend/src/services/api_client.ts:99-107 | both keys are removed and neither token can be read back |
| WebApiClient.ApiClient.ClearToken | frontend/src/services/api_client.ts:164-166 | the same as `clearTokens` |
| WebApiClient.ApiClient.Send | frontend/src/services/api_client.ts:19-31 | a request goes out through the interceptor with the currently stored token |
| WebApiClient.ApiClient.OnResponseError | frontend/src/services/api_client.ts:33-63 | a non-401 error is passed on untouched; a 401 without a refresh token sends the browser to sign-in; a 401 with one joins the refresh in flight, or starts one with a single POST to `/auth/refresh` |
| WebApiClient.ApiClient.RefreshAccessToken | frontend/src/services/api_client.ts:109-137 | while a refresh is in flight, later callers wait for it and nothing more is sent; otherwise exactly one refresh POST goes out |
| WebApiClient.ApiClient.SettleRefresh | frontend/src/services/api_client.ts:33-137 | when the refresh ends the slot is emptied; on success the new access token and the old refresh token are stored, and every waiting request is retried once, in order, with the new token; without a new token every waiter is rejected, nothing is sent and the tokens stay |
| WebApiClient.ApiClient.ResolveWaiters | frontend/src/services/api_client.ts:46-60 | each waiter is retried through the client exactly once with the new token, or rejected when there is none |
| WebApiClient.ApiClient.Post | frontend/src/services/api_client.ts:19-63 | the POST goes out through the request interceptor; a failure meets the response interceptor, which parks a 401 for a refresh when a refresh token is stored and sends the browser to sign-in when none is |
| WebApiClient.ApiClient.Register | frontend/src/services/api_client.ts:172-188 | the POST to `/auth/signup` goes through the client and its interceptors; a parked call stays pending and changes no token; otherwise the answer is returned as it came, the tokens are saved only when both `token` and `refresh_token` are truthy, and a failure throws the server's `detail`, else the error's message |
| WebApiClient.ApiClient.Login | frontend/src/services/api_client.ts:190-206 | the same for sign-in, posting to `/auth/signin` |
| WebApiClient.ApiClient.StoreAuthResponse | frontend/src/services/api_client.ts:176-187 | the shared part of sign-up and sign-in: save both tokens only when both are present, and map a failure to its message |
| WebApiClient.ApiClient.Logout | frontend/src/services/api_client.ts:208-221 | the POST to `/auth/signout` goes through the client and its interceptors; unless it is parked for a refresh, both tokens are removed whether it succeeded or not |
| WebApiClient.UnauthorizedStorm | frontend/src/services/api_client.ts:33-137 | any number of requests rejected with 401 together cause exactly one refresh POST, and each is retried once with the new token, its URL and body unchanged |
| WebAuthConfig.ProcessEnv.constructor | frontend/src/config/auth_config.ts:11 | the configuration reads the given environment |
| WebAuthConfig.ConfigOf | frontend/src/config/auth_config.ts:23-36 | every URL and storage key in the configuration is non-empty, whatever the environment |
| WebAuthConfig.LoadAuthConfig | frontend/src/config/auth_config.ts:3-36 | a valid environment is left alone; an invalid one gets all four fallback values written into it; the configuration is read from the result |
| WebAuthConfig.FallbackWrites | frontend/src/config/auth_config.ts:17-20 | the four assignments together are one overwrite of the environment with the fallback values |
| WebAuthConfig.FallbackConfig | frontend/src/config/auth_config.ts:13-30 | after the fallback the configuration holds exactly the fallback URLs and keys, and the token key is "auth_token" |
| WebAuthConfig.ValidEnvKeysDisagree | frontend/src/config/auth_config.ts:29 | with no token key set, the configuration says "auth_token" while the client's own default is "access_token" |
| WebAuthConfig.Lifetimes | frontend/src/config/auth_config.ts:32-36 | access tokens last one hour and refresh tokens seven days of them |
| WebAuthContext.AuthContext.constructor | frontend/src/contexts/auth_context.tsx:21-24 | the context starts signed out and loading |
| WebAuthContext.AuthContext.CheckAuthStatusAsWritten | frontend/src/contexts/auth_context.tsx:37-57 | as written: without a token under the context's key nobody is signed in and nothing changes; with one the profile is fetched, and a failure clears both of the context's keys |
| WebAuthContext.AuthContext.CheckAuthStatus | frontend/src/contexts/auth_context.tsx:37-57 | the same check reading the client's own key, so a session the client saved is found; a failed profile fetch clears the client's keys |
| WebAuthContext.AuthContext.MountAsWritten | frontend/src/contexts/auth_context.tsx:28-57 | as written: after mounting, loading is over, and the user counts as signed in exactly when a token was stored under the context's own key and the profile came back |
| WebAuthContext.AuthContext.Mount | frontend/src/contexts/auth_context.tsx:28-35 | corrected: the same mount over the corrected check, signed in exactly when the client's access token was stored and the profile came back |
| WebAuthContext.AuthContext.Login | frontend/src/contexts/auth_context.tsx:59-89 | sign-in succeeds exactly when the answer carries a truthy `token`; then the tokens are saved, the user set and the browser sent to the task list; otherwise storage, user and navigation are unchanged and the error's message, or the fixed invalid-answer message, is thrown; loading ends either way |
| WebAuthContext.AuthContext.Register | frontend/src/contexts/auth_context.tsx:91-122 | the same for sign-up, with its own invalid-answer message |
| WebAuthContext.AuthContext.Authenticate | frontend/src/contexts/auth_context.tsx:59-122 | the shared sign-in and sign-up flow, as above |
| WebAuthContext.AuthContext.Logout | frontend/src/contexts/auth_context.tsx:124-141 | sign-out clears the client's keys and the user and goes to the home page, even when the server call fails |
| WebAuthContext.ReloadAfterLoginAsWritten | frontend/src/contexts/auth_context.tsx:37-89 | as written, with the key variables unset, a page reload after a successful sign-in finds no session |
| WebAuthContext.ReloadAfterLogin | frontend/src/contexts/auth_context.tsx:37-89 | with the key read as the client stores it, the session survives the reload |
| WebAuthHook.AuthProvider.constructor | frontend/src/hooks/useAuth.tsx:23-29 | the provider starts signed out, loading and without an error |
| WebAuthHook.AuthProvider.CheckAuthStatus | frontend/src/hooks/useAuth.tsx:33-71 | loading ends; the user counts as signed in exactly when one is set; without a stored token nothing changes; a fetched profile signs in; a failed fetch clears both keys |
| WebAuthHook.AuthProvider.Login | frontend/src/hooks/useAuth.tsx:73-111 | sign-in succeeds exactly when the answer carries a truthy `access_token` or `token`; then both tokens are stored, the user set and the browser sent to the task list; otherwise state is unchanged but for the error, which is the server's `detail` or the fixed fallback |
| WebAuthHook.AuthProvider.Register | frontend/src/hooks/useAuth.tsx:113-152 | the same for sign-up, which posts `confirm_password` too |
| WebAuthHook.AuthProvider.Authenticate | frontend/src/hooks/useAuth.tsx:73-152 | the shared sign-in and sign-up flow, as above |
| WebAuthHook.AuthProvider.Logout | frontend/src/hooks/useAuth.tsx:154-177 | sign-out removes the tokens under both the provider's and the client's keys, clears the user and goes home, whatever the server answered |
| WebAuthHook.ProviderAndClientShareKeys | frontend/src/hooks/useAuth.tsx:48 | the hook and the client store the tokens under the same keys, so a session either one saves is seen by the other |
| WebAuthHook.TokenlessAnswerMessage | frontend/src/hooks/useAuth.tsx:84-106 | an answer with no token counts as a failure, and the user sees the fallback message rather than the internal one |
| WebRouteGuard.DecideCases | frontend/src/middleware/auth_middleware.ts:9-38 | a tokenless visit to a protected page goes to sign-in with the page as callback; a signed-in visit to exactly the sign-in or sign-up page goes to the task list; every other visit proceeds |
| WebRouteGuard.NotProtected | frontend/src/middleware/auth_middleware.ts:4-7 | no public route is protected |
| WebRouteGuard.NoRedirectLoop | frontend/src/middleware/auth_middleware.ts:9-38 | the page a redirect leads to is let through by the guard, so redirects never loop |
| WebRouteGuard.PrefixProtection | frontend/src/middleware/auth_middleware.ts:11-13 | every path under `/tasks`, `/profile` or `/settings` is protected, sub-pages included |
| WebRouteGuard.AnyHeaderIsAToken | frontend/src/middleware/auth_middleware.ts:16-17 | any Basic Authorization header counts as a token when the cookie is missing |
| WebRouteGuard.ApiPassesThrough | frontend/src/middleware/auth_middleware.ts:40-49 | the matcher leaves every `/api` path alone |
| WebEndpoints.GetTaskEndpointCases | frontend/src/services/api_endpoints.ts:46-58 | an id-taking operation without an id fails; with one it yields the path made from the id; the status and user listings are handed back unapplied; the constant operations give their path |
| WebEndpoints.GetUserEndpoint | frontend/src/services/api_endpoints.ts:60-68 | fails exactly without an id, and otherwise gives `/users/<id>` |
| WebEndpoints.UniqueIsSet | frontend/src/services/api_endpoints.ts:70-87 | spreading a `Set` keeps each element once and keeps all of them |
| WebEndpoints.UniqueOfDistinct | frontend/src/services/api_endpoints.ts:70-87 | a list without duplicates comes back unchanged |
| WebEndpoints.Dedup | frontend/src/services/api_endpoints.ts:86 | the one-element-at-a-time deduplication computes the spread of the `Set` |
| WebEndpoints.GetAllEndpoints | frontend/src/services/api_endpoints.ts:70-87 | the list is the six auth endpoints and `/tasks` once, with no duplicates |
| WebTaskService.ParseBool | backend/src/api/task_router.py:215-255 | the server reads the query flag as true exactly when it equals, ignoring ASCII case, one of "1", "on", "t", "true", "y", "yes", as false likewise for "0", "off", "f", "false", "n", "no", and refuses anything else |
| WebTaskService.ParseBoolIgnoresCase | backend/src/api/task_router.py:215-255 | capitals make no difference to the flag the server reads |
| WebTaskService.ServiceMirrorsClient | frontend/src/services/task_service.ts:9-96 | each service call is the client's call with `/api` in front; completion moves the flag from the body into the query |
| WebTaskService.CatalogueMatchesClient | frontend/src/services/api_endpoints.ts:24-58 | the endpoint catalogue and the client's task calls agree on every path |
| WebTaskService.CompletionQueryRoundTrip | frontend/src/services/task_service.ts:85-96 | the flag the service writes into the query is read back by the server as the same boolean |
| WebTaskTypes.WithDefaults | frontend/src/types/task.ts:4-16 | parsing fills status and priority when they are missing and keeps every given value |
| WebTaskTypes.DefaultsPreserveValidity | frontend/src/types/task.ts:4-16 | a valid task stays valid with its defaults, and filling the defaults twice changes nothing more |
| WebTaskTypes.ServerIdsAreZodUuids | frontend/src/types/task.ts:5 | every id the server writes passes the client's UUID check |
| WebSignupForm.Strength | frontend/src/components/auth/signup-form.tsx:27-36 | the strength is a multiple of 5 between 0 and 100 |
| WebSignupForm.StrongIffRulesHold | frontend/src/components/auth/signup-form.tsx:27-107 | the meter says "Strong" exactly when the password meets every rule the form enforces |
| WebSignupForm.ConfigEmailPassesForm | frontend/src/components/auth/signup-form.tsx:60 | every email the shared configuration's pattern accepts also passes the form's pattern |
| WebSignupForm.ValidateFormSound | frontend/src/components/auth/signup-form.tsx:54-107 | the form reports no error exactly when the email looks valid, the password meets every rule and the confirmation matches; such a password is always "Strong" |
| WebSignupForm.ShortPasswordReportedFirst | frontend/src/components/auth/signup-form.tsx:70-79 | a short password is reported before any missing character class |
| WebSignupForm.SignupForm.constructor | frontend/src/components/auth/signup-form.tsx:15-23 | the form starts empty, idle and without messages |
| WebSignupForm.SignupForm.HandleChange | frontend/src/components/auth/signup-form.tsx:38-52 | an edit writes one field, re-scores the strength only for the password, and clears the error |
| WebSignupForm.SignupForm.HandleSubmit | frontend/src/components/auth/signup-form.tsx:109-134 | an invalid form shows its first error and touches neither `loading`, the provider nor storage; a valid one posts the sign-up and ends loading; success shows the message, schedules the task list and leaves the provider signed in with the tokens stored; failure shows the server's detail or the fallback and leaves the provider's user and storage as they were |
| WebSignupForm.SubmitFallbackUnreachable | frontend/src/components/auth/signup-form.tsx:129-130 | the form's own fallback message is never shown, because the hook always throws a non-empty message |
| WebTaskForm.ValidateTaskFormCases | frontend/src/components/tasks/task-form.tsx:21-36 | a title error exactly for a blank or over-long title, with the matching message; a description error exactly for an over-long one; no errors exactly when both fit |
| WebTaskForm.TrimShortens | frontend/src/components/tasks/task-form.tsx:24-28 | trimming never lengthens the text |
| WebTaskForm.AcceptedFormMeetsSchema | frontend/src/components/tasks/task-form.tsx:21-60 | a form the component accepts gives a payload the `TaskCreate` schema accepts |
| WebTaskForm.TaskForm.constructor | frontend/src/components/tasks/task-form.tsx:14-19 | the form starts empty with the default priority |
| WebTaskForm.TaskForm.HandleSubmit | frontend/src/components/tasks/task-form.tsx:38-79 | an invalid form shows its errors and sends nothing; a valid one posts the create call; success resets the fields and hands the task on; failure keeps the fields and shows one error |
| WebTaskForm.TaskForm.Submit | frontend/src/components/tasks/task-form.tsx:45-78 | posting an accepted form ends with loading cleared, as described above |
| WebTaskForm.SubmitError | frontend/src/components/tasks/task-form.tsx:72-74 | the error shown after a failed submit is never empty |
| WebTaskItem.SaveUntouched | frontend/src/components/tasks/task-item.tsx:14-33 | saving without edits writes the task back as it was, apart from `updated_at`, once its optional fields are normal |
| WebTaskItem.SaveKeepsIdentity | frontend/src/components/tasks/task-item.tsx:20-33 | saving keeps the id, status, owner and the creation and completion times, and writes the edited title and description |
| WebTaskItem.BadgesDistinguish | frontend/src/components/tasks/task-item.tsx:43-67 | different statuses get different badges, and so do different priorities; an unknown status looks like pending |
| WebTaskItem.TaskItem.constructor | frontend/src/components/tasks/task-item.tsx:14-18 | the item starts out of edit mode with its buffers filled from the task |
| WebTaskItem.TaskItem.Edit | frontend/src/components/tasks/task-item.tsx:14-18 | editing changes only the buffers |
| WebTaskItem.TaskItem.HandleSave | frontend/src/components/tasks/task-item.tsx:20-33 | saving reports the edited task once and leaves edit mode |
| WebTaskItem.TaskItem.HandleCancel | frontend/src/components/tasks/task-item.tsx:35-41 | cancelling refills the buffers from the task and leaves edit mode without reporting anything |
| WebTaskItem.TaskItem.HandleDelete | frontend/src/components/tasks/task-item.tsx:154 | deleting reports the id only when the task has one |
| WebTaskItem.CancelThenSave | frontend/src/components/tasks/task-item.tsx:20-41 | edits followed by cancel and save write back the original task, apart from `updated_at` |
| WebTaskList.ReplaceByIdPositions | frontend/src/components/tasks/task-list.tsx:67 | the update replaces exactly the tasks with the same id and keeps the order and every id |
| WebTaskList.ReplaceByIdIdempotent | frontend/src/components/tasks/task-list.tsx:67 | applying the same update twice is the same as once |
| WebTaskList.RemoveByIdSpec | frontend/src/components/tasks/task-list.tsx:78 | removal keeps exactly the tasks with another id, and removing twice is the same as once |
| WebTaskList.RemoveByIdCount | frontend/src/components/tasks/task-list.tsx:78 | removal shortens the list by the number of tasks with that id |
| WebTaskList.TaskList.constructor | frontend/src/components/tasks/task-list.tsx:15-19 | the list starts empty and loading |
| WebTaskList.TaskList.FetchTasks | frontend/src/components/tasks/task-list.tsx:26-47 | the list is fetched; a 404 means no tasks and no error; another failure keeps the list and shows the server's detail or the fallback; loading ends |
| WebTaskList.TaskList.HandleTaskCreated | frontend/src/components/tasks/task-list.tsx:49-52 | a new task goes to the front and the form closes |
| WebTaskList.TaskList.HandleTaskUpdated | frontend/src/components/tasks/task-list.tsx:54-73 | a task without id is ignored; otherwise the update is sent, and the answer replaces the task by id and reaches `onTaskUpdate` when that prop is given, or a save error is shown |
| WebTaskList.TaskList.HandleTaskDeleted | frontend/src/components/tasks/task-list.tsx:75-84 | the delete is sent; on success the task is removed by id and the id reaches `onTaskDelete` when that prop is given, otherwise a delete error is shown |
| WebTaskList.TaskList.HandleToggleComplete | frontend/src/components/tasks/task-list.tsx:55-97 | the completion is sent with the flag flipped from the current status; a failure shows the toggle error; an answer without id changes nothing more; otherwise the answer is sent back as an update, whose reply replaces the task by id and is reported when `onTaskUpdate` is given, or whose failure shows the save error |
| WebLogger.LastN | frontend/src/utils/logger.ts:69-79 | the kept window is at most the limit and keeps everything while under it |
| WebLogger.LastNPush | frontend/src/utils/logger.ts:69-79 | pushing an entry and dropping the oldest when over the limit keeps exactly the last entries |
| WebLogger.FilterLevel | frontend/src/utils/logger.ts:180-182 | an entry is in the result exactly when it is in the logs with the asked level |
| WebLogger.FilterUser | frontend/src/utils/logger.ts:187-189 | an entry is in the result exactly when it is in the logs with the asked user |
| WebLogger.FilterUserAppend | frontend/src/utils/logger.ts:187-189 | filtering two runs of entries is filtering each and joining them, so the stored order is kept |
| WebLogger.FilterLevelAppend | frontend/src/utils/logger.ts:180-182 | the same for the level filter |
| WebLogger.FilterLevelPartition | frontend/src/utils/logger.ts:180-182 | the four level filters together account for every entry exactly once |
| WebLogger.Logger.constructor | frontend/src/utils/logger.ts:26-28 | the logger starts empty and is in development mode exactly when `NODE_ENV` says so |
| WebLogger.Logger.StoreLog | frontend/src/utils/logger.ts:69-79 | the entry is appended, the window stays within 1000 entries and ends with it |
| WebLogger.Logger.LogDebug | frontend/src/utils/logger.ts:92-98 | a debug entry is stored only in development |
| WebLogger.Logger.LogInfo | frontend/src/utils/logger.ts:103-107 | an info entry is stored |
| WebLogger.Logger.LogWarn | frontend/src/utils/logger.ts:112-117 | a warning entry is stored |
| WebLogger.Logger.LogError | frontend/src/utils/logger.ts:122-137 | an error entry is stored with the error in its context |
| WebLogger.Logger.LogAction | frontend/src/utils/logger.ts:139-157 | an action is stored as an info entry named "User action: …" with its category |
| WebLogger.Logger.GetLogs | frontend/src/utils/logger.ts:159-161 | the logs returned are the last 1000 entries stored |
| WebLogger.Logger.ClearLogs | frontend/src/utils/logger.ts:166-168 | clearing empties the logs |
| WebLogger.ErrorContext | frontend/src/utils/logger.ts:124-132 | the error is recorded and every other context key is kept |
| WebLogger.ActionContext | frontend/src/utils/logger.ts:144-147 | every metadata key is kept, and the category is recorded unless the metadata sets its own |
| WebLogger.Overflow | frontend/src/utils/logger.ts:69-79 | after 1001 messages the logger keeps the last 1000, in order |

## Left out

- Rendering, styling and navigation side effects are not modelled. Pages, layout components, both `ProtectedRoute` components, JSX, `setTimeout` and `window.location` are out. Redirects and `router.push` calls appear only as entries in a `navigations` or `redirects` sequence. The response interceptor's sign-in redirect is one such entry.
- Promise interleavings are not modelled. The refresh slot is checked and set in one step. The 10-second axios timeout is not modelled.
- `console` output on the client and `print` output on the server (`backend/src/api/task_router.py:65-78`, `backend/src/database/connection.py:37-74`) are not modelled. Nor is the logger's `exportLogs` JSON formatting, its empty `sendToExternalService`, or the base64 decode in `getUserId`. The user id of a log entry is a parameter function of the stored token.
- bcrypt is idealised: a hash is the salt together with the first 72 bytes of the UTF-8 password, and it verifies by comparing those bytes. passlib's scheme handling and bcrypt's cost factor are not modelled.
- jose signing is abstract: a token is either its claims, key and algorithm, or an opaque string. Only the `exp` and `sub` checks are modelled, and `exp` must be a number. The other registered claims (`nbf`, `iat`, `aud`, `iss`, `jti`) are not checked.
- Ids: `uuid4()` values are parameters, and so is the clock.
- `Uuids.Parse`: does not accept what `int(hex, 16)` tolerates inside the 32 digits (whitespace, a sign, a `0x` prefix, underscores). Its contract states only the length condition; `Uuids.ParseToString` gives the round trip.
- `ServerAuthConfig.ParseInt`: does not accept underscores or non-ASCII digits, which Python's `int()` allows. It does strip every character `str.isspace()` accepts.
- SQLModel sessions are a class with two sequences. The model covers the unique id and email constraints, the task owner foreign key and the NOT NULL columns. It does not model `VARCHAR` lengths, the engine and pool construction, `get_session`, `create_db_and_tables`, migrations or the database set-up scripts.
- NewUser: `created_at` and `updated_at` each have their own `datetime.utcnow` factory (`backend/src/models/user.py:27-28`), so the source reads the clock twice; the model reads it once, so its `createdAt == updatedAt` is a property of the model only. Timestamps are whole seconds.
- NewTask: the same for `backend/src/models/task.py:38-39`; the model's equal creation and update times are a property of the model only.
- `ServerJwt.IsTokenExpired`: `utcfromtimestamp` on an `exp` beyond the range of `datetime` raises an error that the function does not catch; the model does not have that failure.
- `ServerTaskService.CompleteTask`: the source reads the clock twice (`completed_at` and `updated_at`), while the model uses one instant for both.
- FastAPI's request validation is reduced to the body parsers `ServerTaskModels.ParseTaskCreate` and `ParseTaskUpdate`. The structure of the 422 error is not modelled.
- The text of pydantic's `ValidationError` for `TaskPublic` is abbreviated to one fixed reason, `ServerTaskModels.TaskPublicInvalid`.
- `ServerAuthMiddleware.HttpBearer`: models FastAPI's `HTTPBearer` of the versions that answer a missing or malformed header with 403. Newer versions answer 401.
- The outbound client's transport (httpx) is a parameter. httpx's `TimeoutException` is a `RequestError`, which is caught first, so with httpx (`timeoutIsRequestError` true) a timeout answers 503 and the 504 branch is never reached. The parameter keeps the 504 branch for a library that keeps the two apart. A `detail` in an error body is taken to be a string.
- The outbound client's `close` and `__del__`, and its use by other modules, are not modelled.
- The zod `.url()` and `.datetime()` checks and `new Date(...).toISOString()` are parameter functions. `localStorage` is taken to be always available; the server-rendering guards are not modelled.
- Module wiring is not modelled. `backend/src/main.py` mounts the routers under `/api`. `backend/src/api/user_router.py` is not part of this model. The routers import `src.api.middleware.auth_middleware`, while the file modelled is `backend/src/middleware/auth_middleware.py`. `auth_service.py` imports `utils.jwt_utils` without the `src.` prefix. The model takes all of these imports as resolving.
- The paths and key names the files disagree on are not reconciled. The client's task calls use `/tasks` while the task service uses `/api/tasks`, and the client sends the completion flag in the body while the service sends it in the query. The client and the context read the answer's `token` field while the server returns `access_token`. `WebTaskService.ServiceMirrorsClient` and `WebTaskService.CatalogueMatchesClient` state the relation between these paths.
- `WebLogger.Overflow`: shows the window on one scenario, 1001 info messages; `WebLogger.LastNPush` and `WebLogger.Logger.StoreLog` give the general rule.
- The auth hook, the auth context and the task list (`WebAuthHook.AuthProvider`, `WebAuthContext.AuthContext`, `WebTaskList.TaskList`) take the client's answers as parameters. The response interceptor's sign-in redirect and refresh-and-retry on their 401s are modelled only in `WebApiClient.ApiClient`.
- `WebApiClient.ApiClient.Register`, `Login` and `Logout`: a call parked for a refresh is left pending; how it continues once `SettleRefresh` retries it is not modelled.
- `ServerTaskService.GetTasksByUser`, `ServerTaskRouter.GetUserTasks`, `ServerDb.Database.UpdateTask` and `ServerDb.Database.DeleteTask`: the table is a sequence, and a query gives its rows in insertion order. That order is the model's choice. The query at `backend/src/services/task_service.py:102-104` has no `ORDER BY`, so the database promises no order, and on PostgreSQL an update can move a row. Only which rows come back is a property of the source (`ServerTaskService.OwnedByMembership`).
- `WebApiClient.UnauthorizedStorm`: covers one storm from an idle client with a successful refresh; the general rule is in `OnResponseError` and `SettleRefresh`.

## Findings

| source | as written | input that shows it | evidently intended | confidence | as-written member | corrected member |
|---|---|---|---|---|---|---|
| frontend/src/contexts/auth_context.tsx:40 | `checkAuthStatus` reads the token under the key variable or else `auth_token`, while `apiClient.saveTokens` writes it under the key variable or else `access_token` | neither key variable set; sign in, then reload the page | the context finds the session the client saved | high, not executed | WebAuthContext.ReloadAfterLoginAsWritten | WebAuthContext.ReloadAfterLogin |
| backend/src/config/auth_config.py:15 | `ACCESS_TOKEN_EXPIRE_MINUTES` defaults to `"3600"`, read as minutes | `JWT_EXPIRATION_TIME` unset | one hour, as the comment and the client's 3600-second lifetime say | high, not executed | ServerAuthConfig.AsWrittenDefaultIsSixtyHours | ServerAuthConfig.DefaultLifetimes |
| backend/src/middleware/auth_middleware.py:60 | `get_current_user` reads `credentials.credentials`, but `JWTBearer.__call__` returns the token string | any request with a valid `Bearer` token to a route using `get_current_user` | the dependency receives the token and resolves it to the user | high, not executed | ServerAuthMiddleware.NoRequestAuthenticatesAsWritten | ServerAuthMiddleware.IssuedTokenIdentifiesUser |
| backend/src/utils/jwt_utils.py:90 | `jwt.decode` is called without the key that jose's `decode` requires, so the `TypeError` is caught and None returned | any token jose signed | the unverified claims are returned | medium, not executed | ServerJwt.DecodeTokenPayloadAsWritten | ServerJwt.DecodeSeesVerified |

# pizza-auth-service: a Dafny model of the authentication core

This project models the logic of the Express authentication service that can be stated sequentially:

- **Register and login orchestration** (`AuthController`). A request is validated. Then `register` creates the user, and `login` looks the user up by email and compares the password. Both then generate the access token, persist a refresh-token row, generate the refresh token naming that row, set the `accessToken` and `refreshToken` cookies and respond. Any throw inside the `try` goes to `next`. The controller is a class. Its methods append every observable step of a request (user created, tokens generated, row persisted, cookie set, response, `next(err)`) to a `trace`, and they write a user table and a refresh-token table. Each method is proved to append exactly the steps computed by a specification function (`RegisterEffects`, `LoginEffects`). The lemmas in `AuthProperties` state what those steps guarantee.
- **Token extraction** (`getToken` in the authenticate middleware). The access token comes from the second single-space-separated word of the `Authorization` header, and from the `accessToken` cookie otherwise.
- **User creation** (`UserService.create`). The password is hashed with cost 10 and the row is saved with role CUSTOMER. Any save failure becomes a fixed 500 error.
- **The error handler and `GET /`** (`app.ts`). A thrown error becomes a status and a one-entry `errors` body. The end-to-end lemmas follow the controller's and the service's errors through it.

Collaborators whose code is not part of this model are fields of the `Auth.Env` datatype: the bcrypt hash, `findByEmail`, `comparePassword`, `generateAccessToken`, `generateRefreshToken`, the timestamps of a new refresh-token row, and whether each database write fails. The two database tables are classes over sequences of rows with auto-increment ids. A thrown value is an `Http.HttpError` with an optional `statusCode`; a plain `Error` has none.

The model follows the code in these details:
- The code has no duplicate-email check, so registering an existing email is not a conflict error: a failing save is the generic 500 error.
- The refresh token's claim linking it to its row is named `id`.
- Both login credential failures are a 400 `BadRequestError`.
- No expiry or issuer is modelled, because the token service's code is not part of this model.

## Model

| member | source | states |
|---|---|---|
| `Decimal.NatToString` | src/controller/AuthController.ts:49-52 | `String(id)`: a non-empty string of decimal digits with no leading zero |
| `Decimal.ParseNatToString` | src/controller/AuthController.ts:59-62 | reading `String(n)` back as digits gives `n` (round trip) |
| `Decimal.NatToStringInjective` | src/controller/AuthController.ts:49-62 | distinct ids give distinct `sub`/`id` claims, so a claim names exactly one user or row |
| `Http.BadRequest` | src/controller/AuthController.ts:103 | `createHttpError(400, msg)`: status 400, name BadRequestError, the given message |
| `Http.InternalServerError` | src/services/UserService.ts:24-27 | `createHttpError(500, msg)`: status 500, name InternalServerError, the given message |
| `Authenticate.Split` | src/middlewares/authentiate.ts:17-18 | `split(" ")` yields at least one part, no part contains a space, and joining the parts with single spaces gives back the header |
| `Authenticate.SecondWord` | src/middlewares/authentiate.ts:17-18 | `split(" ")[1]` is undefined exactly when the header has no space; otherwise it is a space-free word |
| `Authenticate.CookieToken` | src/middlewares/authentiate.ts:28-29 | the `accessToken` cookie is present exactly when the map has that key, and is its value |
| `Authenticate.GetToken` | src/middlewares/authentiate.ts:14-30 | total (never throws); a result not taken from the cookie is a non-empty, space-free word other than "undefined" |
| `Authenticate.SplitAfterWord` | src/middlewares/authentiate.ts:17-18 | a space-free word followed by a space splits off as exactly the first part |
| `Authenticate.SecondWordOf` | src/middlewares/authentiate.ts:17-18 | part 1 of `scheme + " " + t + tail` is `t` when the tail is empty or starts with a space |
| `Authenticate.HeaderTakesPrecedence` | src/middlewares/authentiate.ts:17-21 | a usable header wins over any cookie, and its token is the word the header carries after the scheme |
| `Authenticate.CarriedTokenIsExtracted` | src/middlewares/authentiate.ts:17-21 | conversely, any header of the form scheme, space, token, then end or space yields that token whatever the cookies |
| `Authenticate.NoCarriedTokenFallsBack` | src/middlewares/authentiate.ts:15-29 | a missing header, or one carrying no token, yields exactly the `accessToken` cookie |
| `Authenticate.SchemeWordIgnored` | src/middlewares/authentiate.ts:17-18 | the scheme word is never inspected and words after the second are ignored |
| `Authenticate.ExampleThreeWords` | src/middlewares/authentiate.ts:17-18 | `"X a b"` yields `"a"` |
| `Authenticate.UndefinedWordFallsBack` | src/middlewares/authentiate.ts:17 | a second word equal to "undefined" falls back to the cookie |
| `Authenticate.UnusableHeadersFallBack` | src/middlewares/authentiate.ts:15-29 | a missing header, `""`, a single word such as `"Bearer"`, and an empty second word (two spaces) all fall back to the cookie |
| `Authenticate.NoCookieNoToken` | src/middlewares/authentiate.ts:28-29 | on the fallback path with no `accessToken` cookie the result is absent |
| `Users.UserRepository.constructor` | src/services/UserService.ts:10 | the repository starts empty with next id 1 |
| `Users.UserRepository.Save` | src/services/UserService.ts:16-22 | on success appends the entity with the next id and returns that row; on a fault returns it and changes nothing |
| `Users.CreateOutcome` | src/services/UserService.ts:12-30 | succeeds exactly when hashing and saving both succeed, and then the row has role CUSTOMER and holds the hash output |
| `Users.UserService.constructor` | src/services/UserService.ts:10 | the service writes to the repository it is given |
| `Users.UserService.Create` | src/services/UserService.ts:12-30 | returns `CreateOutcome` and appends exactly the returned row to the repository, nothing on failure |
| `Users.CreateStoresDigest` | src/services/UserService.ts:14-21 | the saved row keeps firstName, lastName and email unchanged, stores the digest of cost 10, takes role CUSTOMER and the next id |
| `Users.SaveFailureTranslated` | src/services/UserService.ts:23-28 | every save failure becomes the same 500 "Failed to store the data in the database"; the original error is discarded |
| `Users.HashFailureUntranslated` | src/services/UserService.ts:14-15 | a hashing failure propagates as it is, whatever the save would have done |
| `RefreshTokens.PersistOutcome` | src/entity/RefreshToken.ts:12-28 | the persisted row has the next id and is linked to the user; it fails exactly on a store fault |
| `RefreshTokens.FreshRowUnique` | src/controller/AuthController.ts:57-62 | a row appended under the next id is the only row with that id, so the refresh token's `id` claim names exactly one row |
| `RefreshTokens.RefreshTokenStore.constructor` | src/entity/RefreshToken.ts:12-28 | the refresh-token table starts empty |
| `RefreshTokens.RefreshTokenStore.Persist` | src/controller/AuthController.ts:57 | appends exactly the persisted row, which is then unique by id; changes nothing on a fault |
| `Auth.AccessClaims` | src/controller/AuthController.ts:49-52 | the access payload keeps the user's role, has no `id`, and its `sub` reads back as the user's id |
| `Auth.RefreshClaims` | src/controller/AuthController.ts:59-62 | the refresh payload keeps `sub` and `role` and adds an `id` that reads back as the row's id |
| `Auth.TokenCookie` | src/controller/AuthController.ts:64-76 | a cookie carries the given name, token and `maxAge`, and is httpOnly, sameSite strict, for domain localhost |
| `Auth.MintEffects` | src/controller/AuthController.ts:59-78 | the minting steps end in `next(err)` or in `{id: user.id}` with the given status; they respond exactly when refresh-token generation succeeds; the refresh token names the row's id |
| `Auth.PersistEffects` | src/controller/AuthController.ts:57-78 | the row is persisted exactly when the store does not fail, with the next id and linked to the user; the steps end in `next(err)` or in `{id}` |
| `Auth.IssueEffects` | src/controller/AuthController.ts:54-78 | the token steps begin with the access token exactly when it is generated, and end in `next(err)` or in `{id}` with the given status |
| `Auth.CreateEffects` | src/controller/AuthController.ts:39-82 | the `try` block of register starts with the created user exactly when creation succeeds, and ends in `next(err)` or a 201 |
| `Auth.RegisterEffects` | src/controller/AuthController.ts:26-83 | the first step of register is the created user exactly when validation passes and the create succeeds (the rows written by the whole request are given by `Auth.CreateWrites`) |
| `Auth.LoginEffects` | src/controller/AuthController.ts:85-159 | the first step of login is never a created user, and it is the access token only for a valid request whose email is known and whose password matches (the whole request writes no user, by `Auth.LoginWrites`) |
| `Auth.IssueWrites` | src/controller/AuthController.ts:49-62 | the token steps create no user and persist one row exactly when the access token was generated and the store did not fail |
| `Auth.PersistWrites` | src/controller/AuthController.ts:57-62 | the steps from the persist onwards create no user and insert exactly the persisted row, nothing when the store fails |
| `Auth.CreateWrites` | src/controller/AuthController.ts:39-62 | the `try` block of register inserts the created user, if any, and only what its token steps persist |
| `Auth.LoginWrites` | src/controller/AuthController.ts:85-134 | login never inserts a user |
| `Auth.AuthController.constructor` | src/controller/AuthController.ts:19-24 | the controller uses the given user service and refresh table, with an empty trace |
| `Auth.AuthController.Mint` | src/controller/AuthController.ts:59-78 | appends the refresh-token step, the two cookies and the response, or the forwarded error of refresh-token generation |
| `Auth.AuthController.PersistAndMint` | src/controller/AuthController.ts:57-78 | appends the persist step and then the minting steps, and writes exactly the persisted row; the table's next id advances by the number of rows written |
| `Auth.AuthController.Issue` | src/controller/AuthController.ts:49-78 | appends the token steps in order and persists exactly the row they record; the next id advances by one per row written |
| `Auth.AuthController.CreateAndIssue` | src/controller/AuthController.ts:39-82 | appends `CreateEffects`: the created user then the token steps with status 201, or the forwarded error; each table gains exactly the rows those steps record, and each table's next id advances by that many |
| `Auth.AuthController.Register` | src/controller/AuthController.ts:26-83 | appends `RegisterEffects` to the trace; the user and refresh tables gain exactly the rows those steps record, and each next id advances by that many |
| `Auth.AuthController.Login` | src/controller/AuthController.ts:85-159 | appends `LoginEffects` to the trace; the refresh table gains exactly the rows recorded and its next id advances by that many; the user table is not touched |
| `AuthProperties.IssueCases` | src/controller/AuthController.ts:54-78 | the token steps end after a failed access token, after a failed persist, after a failed refresh token, or as the full six-step success; they succeed exactly when all three calls do |
| `AuthProperties.IssuedNoPartialEmission` | src/controller/AuthController.ts:54-76 | in the full six-step issue, each cookie is preceded by the access token, the row and the refresh token, in that order |
| `AuthProperties.IssuedWellFormed` | src/controller/AuthController.ts:54-78 | the full six-step issue, after at most a `UserCreated` step, meets every guarantee of a well-formed request |
| `AuthProperties.IssueWellFormed` | src/controller/AuthController.ts:54-82 | the token steps reply once, mint the refresh token right after its row, emit nothing partial and set cookies with the right attributes |
| `AuthProperties.RegisterWellFormed` | src/controller/AuthController.ts:26-83 | every register request replies exactly once, mints after persisting with `id = String(row.id)`, sets no cookie or status when it forwards an error, and sets cookies only after all three token steps |
| `AuthProperties.LoginWellFormed` | src/controller/AuthController.ts:85-159 | the same guarantees for every login request |
| `AuthProperties.ValidationFailureShortCircuits` | src/controller/AuthController.ts:27-30 | with validation errors both flows respond 400 with the error array and consult no collaborator |
| `AuthProperties.RegisterSuccess` | src/controller/AuthController.ts:39-78 | register answers 201 exactly when every collaborator succeeds, and then created the CUSTOMER user and issued, in order, the access token over `{sub, role}`, the row, the refresh token over `{sub, role, id}`, the 3,600,000 ms and 31,536,000,000 ms cookies, and `{id}` |
| `AuthProperties.LoginSuccess` | src/controller/AuthController.ts:99-154 | login creates no user; it answers 200 exactly when the request is valid, the email is known, the password matches and all three token calls succeed, and then the same six token steps were issued for the stored user |
| `AuthProperties.CredentialFailuresIndistinguishable` | src/controller/AuthController.ts:101-118 | unknown email and wrong password both forward the identical 400 "Email and password doesn't match", with nothing persisted, generated or set |
| `AuthProperties.UnknownEmailSkipsComparison` | src/controller/AuthController.ts:101-106 | on an unknown email the outcome does not depend on the password comparison |
| `AuthProperties.MintFailureLeavesRow` | src/controller/AuthController.ts:57-62 | the row is written before the refresh token exists, so a failure of refresh-token generation forwards the error but leaves the row persisted |
| `App.HasStatus` | src/app.ts:23 | JavaScript truthiness of `err.statusCode`: `undefined` and 0 are falsy, every other number is truthy |
| `App.HandleError` | src/app.ts:21-34 | status is `err.statusCode` when truthy, otherwise 500, never 0; the body is `{errors: [e]}` with exactly one entry of `type = name`, `msg = message`, empty `path` and `location` |
| `App.Root` | src/app.ts:14-16 | `GET /` answers 200 with "Welcome to Auth services" |
| `App.ClientReply` | src/app.ts:21-34 | a request gets a reply exactly when its last step is a response or `next(err)`; a forwarded error becomes a one-entry `errors` body with a non-zero status |
| `App.EveryRequestReplied` | src/app.ts:21-34 | every register and login request reaches the client as exactly one reply with a non-zero status |
| `App.TerminalReplied` | src/app.ts:21-34 | a request that ends in a response or `next(err)` yields a reply, the response's own status or a non-zero one from the handler |
| `App.IssueEndsWith` | src/controller/AuthController.ts:54-81 | the token steps end in `next(err)` or in a response carrying the status they were given |
| `App.IssueStatuses` | src/controller/AuthController.ts:29-154 | the controller itself only answers 400 (validation), 201 (register) or 200 (login) |
| `App.LoginCredentialFailureReply` | src/controller/AuthController.ts:101-118 | both credential failures reach the client as 400 with one BadRequestError entry "Email and password doesn't match" |
| `App.RegisterSaveFailureReply` | src/services/UserService.ts:23-28 | a failed user save reaches the client as 500 with one InternalServerError entry "Failed to store the data in the database" |
| `App.RegisterHashFailureReply` | src/services/UserService.ts:14 | a plain hashing error reaches the client as 500 with its own name and message |
| `App.RegisterSuccessReply` | tests/users/register.spec.ts:20 | a successful register reaches the client as 201 with `{id}` |

## Left out

- JWT signing and verification (RS256), `expressjwt`, and `jwksClient` key fetching, caching and rate limiting (src/middlewares/authentiate.ts:7-13). These are library cryptography and network I/O. Tokens are opaque strings returned by the `generateAccessToken` and `generateRefreshToken` fields of `Auth.Env`.
- `TokenService` and `CredentialService` are not part of this model. Token expiry, issuer and the other signed claims are not modelled. The timestamps of a new refresh-token row (`expiresAt`, `createdAt`, `updatedAt`) come from the environment (`RecordTimes`).
- `userService.findByEmail` is not defined in the shown `UserService`. It is an abstract lookup in `Auth.Env` and is not tied to the rows of the user repository.
- The request validators are declarative express-validator schemas. The validation result is an input of the request (`validationErrors`), and its entries are passed through as given.
- The `User` entity and the `Roles` constants are not part of this model. Ids are non-negative auto-increment integers starting at 1, and `Role` is CUSTOMER or another named role.
- Concurrency: each `await` is one sequential step, and interleavings of concurrent requests are not modelled.
- Logging through winston, bcrypt internals, the route wiring in src/routes/auth.ts, process bootstrap (src/server.ts, src/index.ts) and scripts/generateKeys.mjs.
- HTTP details other than status, JSON body and cookies are not modelled: content-type headers, the `Expires` attribute Express derives from `maxAge`, and the `expose` and `status` properties of `http-errors`.
- `App.HandleError`: a `statusCode` that is `NaN` is not modelled. JavaScript treats it as falsy like 0; the model has no such value. A truthy `statusCode` outside 100-999 is not modelled either: Node refuses to write such a status, the handler throws, and Express's final handler answers 500 with its own body. The model replies with that code as the status, so its statuses are those the handler asks for, not those Node sends. Every error the controller and the service create themselves has status 400 or 500.
- `Decimal.NatToString`: it agrees with JavaScript's `String(n)` only for `n` below 10^21, where `String` switches to exponent notation. Ids are bounded by the database's integer key, far below that bound, so the model does not represent JavaScript numbers.
- `Users.CreateOutcome`: the stored password is proved to be the hash output. That it is never the plaintext holds only if the hash never returns its input, which an uninterpreted hash cannot promise.
- The refresh-token store's lookup and deletion by id are not modelled, because the controller calls neither.

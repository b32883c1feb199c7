# Role and access-decision layer of go-firebase-api, in Dafny

This project models the core of a small Go CRUD backend for user records kept in a
Firestore collection:

- the closed role set `{admin, user}` and its membership check (`Roles`);
- the API error taxonomy: an HTTP code plus a message, with shortcut constructors that supply
  a default message (`ApiErrors`);
- the `User` record (`Model`);
- JWT issuance and the two access middlewares (`Auth`). `AuthMiddleware` checks the
  `Authorization: Bearer <token>` header and the token, then stores the user ID and role in
  the request context. `RoleAuthMiddleware` admits only an exact role match;
- Go's `strings.Split`, which the header check relies on (`Text`);
- the user store over the `users` collection (`Repository`). It translates backend outcomes
  into the error taxonomy, stamps document IDs onto users and lists users all-or-nothing;
- the user service (`Service`). It forces the role on public registration, defaults and
  validates it on admin registration, issues a token on login and passes reads through.

The store is a class whose `docs` field holds the collection, in the order the backend
iterates it. `CreateUser` appends to it. The read operations are functions that read it.
`GetAllUsers` is a loop proved against the specification function `Drain`. The Gin request
context is the class `Auth.RequestContext`, which the middleware methods update. The service
is a class holding its store.

What the backend, the clock, the environment and the cryptographic library do on their own
are parameters:

- `Link` says whether a backend call fails with an error other than "not found";
- `newId` is the ID that Firestore's `Add` generates;
- `failing` is the index of the cursor's `Next` call that fails, if any;
- `now` is the current time, in whole seconds;
- `secret` is the value of `JWT_SECRET_KEY`;
- `Signer` and `Verifier` stand for HS256 signing and verification.

Token claims follow RFC 7519: `exp` (section 4.1.4), `iat` (section 4.1.6) and `iss`
(section 4.1.1). The header check follows the bearer scheme of section 2.1 of RFC 6750, but
is stricter: it splits on single spaces, needs exactly two parts and compares "Bearer"
case-sensitively.

## Model

| member | source | states |
|---|---|---|
| Roles.IsValid | internal/role/role.go:14-20 | a role string is valid exactly when it is "admin" or "user" |
| Roles.Parse | internal/role/role.go:7-10 | a string read into the closed role set is the name of the role it yields |
| Roles.ParseName | internal/role/role.go:7-10 | each role's name reads back to that role and is valid; the names "admin" and "user" differ |
| Roles.IsValidParse | internal/role/role.go:14-20 | validity coincides with membership in the closed role set |
| Roles.IsValidCases | internal/role/role.go:15-19 | "admin" and "user" are valid; the empty string and every other string are not |
| ApiErrors.Error | internal/apierror/api_error.go:16-18 | the text of an error is exactly its message |
| ApiErrors.NewAPIError | internal/apierror/api_error.go:21-26 | code and message are kept unchanged |
| ApiErrors.NewNotFoundError | internal/apierror/api_error.go:30-36 | code 404; an empty message becomes "The requested resource was not found", any other is kept; never empty |
| ApiErrors.NewInternalServerError | internal/apierror/api_error.go:40-46 | code 500; an empty message becomes "An unexpected internal error occurred", any other is kept; never empty |
| ApiErrors.NewBadRequestError | internal/apierror/api_error.go:50-56 | code 400; an empty message becomes "Bad request", any other is kept; never empty |
| ApiErrors.ShortcutsIdempotent | internal/apierror/api_error.go:30-56 | rebuilding a shortcut error from its own message gives the same error |
| Text.Split | internal/auth/auth.go:74 | splitting always yields at least one part |
| Text.SplitJoin | internal/auth/auth.go:74 | joining the parts with the separator gives back the original string |
| Text.SplitPartsFree | internal/auth/auth.go:74 | no part contains the separator |
| Text.SplitWhole | internal/auth/auth.go:74 | a string without the separator is one part |
| Text.SplitAfterPrefix | internal/auth/auth.go:74 | a separator-free prefix followed by the separator is split off as the first part |
| Text.JoinSplit | internal/auth/auth.go:74 | separator-free parts joined and split again are recovered |
| Auth.GenerateJWT | internal/auth/auth.go:27-59 | no secret: an error and no token; otherwise exactly the signer's result for claims carrying the user's id, email and role, issued now, expiring 24 hours later, issuer "go-firebase-api" |
| Auth.Authenticate | internal/auth/auth.go:62-103 | every refusal of the authentication middleware is a 401 |
| Auth.BearerToken | internal/auth/auth.go:74-81 | an accepted header is "Bearer " followed by the token, and the token has no space |
| Auth.BearerAccepts | internal/auth/auth.go:74-81 | "Bearer " plus a space-free token is accepted, and exactly that token is checked |
| Auth.BearerTokenExact | internal/auth/auth.go:74-81 | the header check accepts exactly the well-formed bearer headers and yields what follows "Bearer " |
| Auth.BearerRejectsNearMisses | internal/auth/auth.go:74-79 | "bearer x", "Bearer" and "Bearer  x" (two spaces) are all refused |
| Auth.AuthenticateCases | internal/auth/auth.go:64-101 | no header gives 401 "Authorization header is required"; a malformed header gives 401 with the format message; a token that fails verification or has expired gives 401 "Invalid or expired token"; otherwise the claims' user id and role go through |
| Auth.IssuedTokenRoundTrip | internal/auth/auth.go:27-101 | a token from GenerateJWT, sent as "Bearer <token>", authenticates as the same user id and role before its 24-hour expiry and is refused from then on |
| Auth.Authorize | internal/auth/auth.go:107-135 | admits exactly when the stored value is a role equal to the required one (no hierarchy); a typed role that differs gives 403 "You do not have permission to access this resource"; no stored role gives 403 "User role not found in token"; a stored value of another type gives 500 |
| Auth.Gate | cmd/api/main.go:56-69 | authentication followed, on a role-gated route, by the role check; its refusals are only ever 401 or 403, never 500, since authentication always stores a typed role |
| Auth.GateDecision | internal/auth/auth.go:105-135 | behind both middlewares a request passes exactly when it authenticates with the required role; authentication failures give 401, a role mismatch gives the 403 permission error |
| Auth.AuthMiddleware | internal/auth/auth.go:62-103 | aborts the request with the decision's error, or stores "userID" and "userRole" in the context and leaves it running |
| Auth.RoleAuthMiddleware | internal/auth/auth.go:107-135 | aborts with the role decision's error or leaves the request running; the context's values are unchanged |
| Auth.RunGuards | cmd/api/main.go:56-69 | a guarded route's handler runs exactly when the guard admits the request; an aborted request carries the guard's error; the context afterwards holds "userID" and "userRole" exactly when authentication succeeded |
| Repository.Decode | internal/repository/user_repository.go:67-74 | a document decodes exactly when its fields are well typed; the user gets the document ID and the stored fields |
| Repository.Encode | internal/repository/user_repository.go:37-41 | the document Add writes is well typed and its email field is the user's email, so email queries find it |
| Repository.DecodeEncode | internal/repository/user_repository.go:37-41 | what CreateUser writes decodes back to the same user under the document's ID |
| Repository.ClassifyQueryError | internal/repository/user_repository.go:118-126 | the query error is read as "not found" exactly when its text is "iterator: no more items"; any other text is 500 "Failed to retrieve user from database" |
| Repository.First | internal/repository/user_repository.go:113 | a limit-1 query finds the first matching document, or reports that none matches |
| Repository.OnlyOneWithId | internal/repository/user_repository.go:55 | with unique document IDs, an ID names exactly one document |
| Repository.Drain | internal/repository/user_repository.go:84-107 | a successful listing has as many users as documents; a failed one is 500 "Failed to retrieve users" or "Failed to process user data" and carries no users |
| Repository.DrainAllOrNothing | internal/repository/user_repository.go:84-107 | a listing succeeds exactly when every document decodes and no cursor call fails |
| Repository.DrainOnePerDocument | internal/repository/user_repository.go:84-107 | a successful listing has one user per document, in iteration order, each decoded from its document and carrying its ID |
| Repository.CreatedUserIsReadable | internal/repository/user_repository.go:35-76 | once CreateUser has stored a user, GetUser on the new ID returns that user with that ID |
| Repository.PrependStep | internal/repository/user_repository.go:103-104 | appending one decoded user to the collected list keeps the listing's result unchanged |
| Repository.Store.CreateUser | internal/repository/user_repository.go:35-51 | success exactly when the backend is up and the new ID is unused; stores name, email and role under the new ID and returns the input user with that ID; otherwise 500 "Failed to create user in database" and the collection is unchanged |
| Repository.Store.GetUser | internal/repository/user_repository.go:54-76 | 404 "User with ID '<id>' not found" exactly when no document has the ID; 500 on backend failure or an undecodable document; otherwise the stored user, with the requested ID |
| Repository.Store.GetUserByEmail | internal/repository/user_repository.go:111-137 | the lookup as intended: 404 "User with email '<email>' not found" exactly when no document's email matches; 500 on backend failure; for the first match, success exactly when it decodes and 500 "Failed to process user data" exactly when it does not; a success is that document decoded with its ID |
| Repository.Store.GetUserByEmailAsWritten | internal/repository/user_repository.go:111-137 | the lookup as the code is written: every error is a 500, and a success carries the requested email |
| Repository.EmailLookupAsWrittenDiffers | internal/repository/user_repository.go:117-126 | as written, the lookup never returns the 404; where the intended lookup gives 404 it gives 500 "Failed to retrieve user from database", and otherwise the two agree |
| Repository.EmailLookupCounterexample | internal/repository/user_repository.go:117-126 | in an empty collection, looking up "ann@x.com" gives 500 as written and 404 as intended |
| Repository.Store.GetAllUsers | internal/repository/user_repository.go:79-108 | the cursor loop returns exactly the listing Drain specifies |
| Service.PublicRegistration | internal/service/user_service.go:35-36 | the role becomes "user" whatever was supplied; id, name and email are unchanged |
| Service.AdminRegistration | internal/service/user_service.go:44-52 | an empty role becomes "user"; a valid role is kept; any other role is 400 "Invalid role specified"; an accepted role is always valid |
| Service.UserService.RegisterUser | internal/service/user_service.go:34-38 | stores and returns the user with role "user", name and email unchanged; the store's error is passed on |
| Service.UserService.AdminRegisterUser | internal/service/user_service.go:43-55 | an invalid non-empty role returns 400 "Invalid role specified" and leaves the store unchanged; otherwise stores the user with the defaulted or given role, and the store's failure is passed on as its 500 |
| Service.UserService.LoginUser | internal/service/user_service.go:59-75 | a failed lookup's error is returned unchanged and no token is issued; a failure to issue a token gives 500 "Failed to generate authentication token"; when lookup and issuing succeed, the token issued for the found user's id, email and role |
| Service.UserService.FindUserByID | internal/service/user_service.go:78-80 | exactly what the store's GetUser returns |
| Service.UserService.FindAllUsers | internal/service/user_service.go:82-84 | exactly the store's listing |
| Service.LoginThenAccess | internal/service/user_service.go:59-75 | the login token, used within 24 hours, authenticates as the found user and role, reaches routes open to any role, and gets 403 on admin routes unless the role is "admin" |

## Findings

| source | as written | input that shows it | evidently intended | confidence | as-written member | corrected member |
|---|---|---|---|---|---|---|
| internal/repository/user_repository.go:120 | no match is recognised by comparing the error text with "iterator: no more items", but `iterator.Done` reads "no more items in iterator", so the 404 branch is never taken and an unknown email gives 500 "Failed to retrieve user from database" | an empty collection and the email "ann@x.com" (logging in with an unregistered email) | 404 "User with email 'ann@x.com' not found", as the branch at line 121 and the not-found case of the lookup by ID show | high, not executed | Repository.Store.GetUserByEmailAsWritten, Repository.EmailLookupCounterexample | Repository.Store.GetUserByEmail |

## Left out

- HS256 signing and verification are the `Signer` and `Verifier` parameters. `SignerMatches` states the one property used of them: a signed token has no spaces and verifies to the claims that were signed.
- The JWT library's registered-claim validation is modelled only for `exp`. `nbf` and `aud` are not modelled, because the tokens this system issues carry neither.
- Auth.GenerateJWT: the source reads the clock twice, once for `exp` and once for `iat`. The model uses one `now` for both, in whole seconds.
- `time.Now` and `os.Getenv("JWT_SECRET_KEY")` are parameters.
- Firestore calls, gRPC status codes and iterator internals are not modelled. A backend call is reduced to its outcome: `Link`, a missing document, or a cursor failure at a given call.
- The order in which Firestore returns documents (by document ID) is not modelled. Both the listing and the first match of the email query follow the order of `docs`, and `CreateUser` appends. So which of several users sharing an email is found by email is a fact about the model's order only.
- The IDs that `Add` generates are a parameter. An ID already in use fails like any other backend error.
- Firestore's own checks on document IDs, such as an empty ID, are not modelled.
- Service.UserService.LoginUser: uses the intended lookup by email (see Findings). With the lookup as written, an unknown email gives 500 "Failed to retrieve user from database" instead of 404.
- The HTTP handlers (`internal/handler/*.go`) are not part of this model. They do JSON binding, run the external validator (the name must be 2 to 100 characters and the email well formed) and write responses.
- Route wiring, server start-up and Firebase bootstrap are not part of this model, beyond the middleware order that `RunGuards` follows. Neither are log output and context cancellation.

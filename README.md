# Auth-Form: sign-up, sign-in and the browser session, in Dafny

This project models the logic of a small login/registration application:

- **The API controllers** (`AuthController`). `register` and `login` work over an account table keyed by email, with each row holding `(id, passwordHash)`. Validation comes first. `register` then refuses a taken email, hashes the password, inserts the row and issues a token. `login` looks the account up, compares the password and issues a token. The collaborators are parameters:
  - the email syntax check of the validation schema (`isEmail`);
  - the password hasher (`Hasher`, a `hash` and a `verify` function, asked only to be `Sound`: a password verifies against its own hash);
  - the `JWT_SECRET` setting.
  
  A token is the record of what was signed: the claims `(id, email)`, the secret and the lifetime `"1h"`. The salt of a hash and the id the database gives a new row are inputs of `register`. `AuthService` is a class whose `accounts` map only `Register` changes. `Login` reads the map and nothing else. Each method is proved equal to a function (`LoginResult`, `RegisterResult`), and the lemmas about the operations are stated over those functions.
- **The error translator** (`ErrorHandler`). Every error handed to `next(error)` becomes one status code and one body `{status: "error", message, errors?}`. The classification is total and the first branch that matches wins. Validation issues become `{path, message}` entries, with each path's segments joined by `"."`.
- **The browser session** (`AuthContext`, `UserJson`). `AuthProvider` is a class with `user`, `token`, `isLoading` and the local storage map, and three mutators: `RestoreSession`, `Login` and `Logout`. The user is stored as the text `JSON.stringify` writes. `UserJson` writes that text exactly as `JSON.stringify` does, escapes included, and reads it back. The round trip is proved.

`AuthTypes.User` is the `{id, email}` record of `frontend/types/auth.ts`, and `Wrappers` holds `Option` and `Result`.

Edge cases of the code that the model keeps:

- A login with the five-character password `"wrong"` is refused by validation (`400 "Validation failed"`) before any password is compared (`AuthController.SignUpWalkThrough`).
- A uniqueness error raised by the insert itself is handed on unchanged and answers `400 "Database error occurred"`, not "Email already in use" (`AuthController.UniqueViolationIsDatabaseError`).
- When only one of the two stored entries is present, restore treats it as nothing stored and leaves the stray entry where it is (`AuthContext.Restore`).
- `process.env.JWT_SECRET || "your-secret-key"` also falls back when the variable is set to the empty string (`AuthController.SigningSecret`).
- Stored entries are tested for truth. An empty stored token therefore counts as no session, so a session logged in with an empty token does not survive a reload (`AuthContext.ReloadAfterLoginWithEmptyToken`). The server never issues an empty token.

## Model

| member | source | states |
|---|---|---|
| `ErrorHandler.DecimalText` | backend/src/middleware/errorHandler.ts:12 | A numeric path segment is written as a non-empty string of decimal digits. |
| `ErrorHandler.DecimalRoundTrip` | backend/src/middleware/errorHandler.ts:12 | Reading the decimal text of an index gives back the index. |
| `ErrorHandler.JoinPath` | backend/src/middleware/errorHandler.ts:12 | `path.join(".")`. It has no contract of its own; `SplitJoinPath` states its property, that cutting the joined text at every "." gives back the segments. |
| `ErrorHandler.SplitJoinPath` | backend/src/middleware/errorHandler.ts:12 | Joining a non-empty path with "." and cutting at every "." gives back the segments, when no segment contains a "." itself. |
| `ErrorHandler.FieldErrors` | backend/src/middleware/errorHandler.ts:11-14 | There is one `{path, message}` entry per issue, in order. Its path is the issue's path joined by "." and its message is the issue's message. |
| `ErrorHandler.Classify` | backend/src/middleware/errorHandler.ts:10-48 | First-match classification. Validation iff ZodError, Application iff AppError, Database iff another error named PrismaClientKnownRequestError, Jwt iff one named JsonWebTokenError, Internal for everything else. The five cases are exclusive and cover every error. |
| `ErrorHandler.Handle` | backend/src/middleware/errorHandler.ts:5-52 | Every body has status "error", and only the validation branch has `errors`. Validation gives 400 "Validation failed" with the field errors, and AppError gives its own status and message. Prisma gives 400 "Database error occurred", JsonWebTokenError gives 401 "Invalid token", and anything else gives 500 "Internal server error". |
| `ErrorHandler.ThrownMessageNeverLeaks` | backend/src/middleware/errorHandler.ts:32-51 | For an error that is neither a ZodError nor an AppError, the response does not depend on its message. The message sent is one of the three fixed texts. |
| `ErrorHandler.NameIsNotClass` | backend/src/middleware/errorHandler.ts:10-51 | A plain error that only carries the name "ZodError" or "AppError" is answered with 500, because the first two branches test the class. |
| `ErrorHandler.ValidationPathsRecoverable` | backend/src/middleware/errorHandler.ts:10-20 | A validation response lists exactly as many entries as there are issues. The entry for an issue whose path is non-empty and has no segment containing "." cuts back into that issue's segments. |
| `AuthController.Utf16Length` | backend/src/controllers/authController.ts:11 | A password's length as the schema counts it (UTF-16 code units) is between its number of characters and twice that. |
| `AuthController.Utf16LengthBmp` | backend/src/controllers/authController.ts:11 | A password with no character above U+FFFF has a UTF-16 length equal to its number of characters. |
| `AuthController.FiveBmpCharactersAreTooShort` | backend/src/controllers/authController.ts:11 | Five characters of the Basic Multilingual Plane fail the 6-character minimum. |
| `AuthController.LongEnough` | backend/src/controllers/authController.ts:11 | The `.min(6)` test on the password: six characters always pass, and fewer than three never do. |
| `AuthController.EmailIssues` | backend/src/controllers/authController.ts:10 | The email property yields no issue exactly when it is a string that is a valid address, and "Invalid email address" at path `email` when it is a string that is not. |
| `AuthController.PasswordIssues` | backend/src/controllers/authController.ts:11 | The password property yields no issue exactly when it is a string at least 6 UTF-16 units long, and "Password must be at least 6 characters" at path `password` when it is a shorter string. |
| `AuthController.ThreeAstralCharactersAreEnough` | backend/src/controllers/authController.ts:11 | Three characters above U+FFFF already pass the 6-character minimum. |
| `AuthController.FieldIssues` | backend/src/controllers/authController.ts:9-12 | A field yields at most one issue, at path `[key]`, and none exactly when it is a string that passes its check. A missing field yields "Required", a value that is not a string yields "Expected string, received" followed by its type, and a failed check yields the check's message. |
| `AuthController.ParseCredentials` | backend/src/controllers/authController.ts:9-18 | The schema accepts exactly when the email is a string that is a valid address and the password is a string of at least 6 UTF-16 units. The credentials are then those two strings. Otherwise the schema reports one or two issues, email first. |
| `AuthController.SigningSecret` | backend/src/controllers/authController.ts:37 | The secret is `JWT_SECRET` when that is set and non-empty, and "your-secret-key" otherwise. It is never empty. |
| `AuthController.CreateAccount` | backend/src/controllers/authController.ts:73-78 | The insert fails exactly when the email is taken, with an error the translator classifies as Database. Otherwise it adds exactly one row, keyed by the email, and keeps every other row. |
| `AuthController.Respond` | backend/src/controllers/authController.ts:42-50 | The client gets the controller's payload with its status exactly when the controller replied. An error passed to `next` is answered with the status and body the error translator gives it. |
| `AuthController.Authentication` | backend/src/controllers/authController.ts:37-48 | The payload `{user: {id, email}, token}` with the token `jwt.sign` issues over `{id, email}`. It has no contract of its own; `LoginResult` and `RegisterResult` state its property: the user is the stored or new `(id, email)` and the token has exactly those claims, the signing secret and lifetime "1h". |
| `AuthController.LoginResult` | backend/src/controllers/authController.ts:21-52 | A schema failure is handed on as a ZodError. Login succeeds iff the email is stored and the password verifies against its hash, and otherwise fails with AppError 401 "Invalid email or password". Success is status 200, with the stored id and the email, and a token over exactly `(id, email)` with the signing secret and lifetime "1h". |
| `AuthController.RegisterResult` | backend/src/controllers/authController.ts:55-96 | A schema failure is handed on as a ZodError, and a taken email gives AppError 400 "Email already in use". Every failure leaves the table as it was. Success is status 201, with user `(newId, email)` and a token over exactly those claims. The table gains exactly one row, `email -> (newId, hash(password, 10, salt))`, and every other row is kept. |
| `AuthController.RegisterSteps` | backend/src/controllers/authController.ts:55-96 | Register with the look-up reading the table `seen` and the insert writing the table `current`. A schema failure is handed on as a ZodError, and an email `seen` holds gives AppError 400 "Email already in use". An email only `current` holds gives the store's uniqueness error. Every failure leaves `current` as it was. It succeeds exactly when the credentials are valid and neither table holds the email: status 201, user `(newId, email)`, a token over exactly those claims with the signing secret and lifetime "1h", and `current` gains exactly that one row. |
| `AuthController.AuthService.Login` | backend/src/controllers/authController.ts:21-52 | The imperative login (validate, find, compare, sign) returns `LoginResult` of the current table. It has no modifies clause, so the table is unchanged. |
| `AuthController.AuthService.Register` | backend/src/controllers/authController.ts:55-96 | The imperative register (validate, find, hash, create, sign) returns the outcome of `RegisterResult` of the old table, and leaves the table that function gives. |
| `AuthController.ValidationPrecedesLookup` | backend/src/controllers/authController.ts:24-58 | A request the schema refuses gets the same 400 answer whatever the table holds, from login and register alike. Register leaves the table unchanged. |
| `AuthController.LoginFailuresIndistinguishable` | backend/src/controllers/authController.ts:32-34 | An unknown email and a known email with a wrong password get the identical response `401 {status: "error", message: "Invalid email or password"}`. |
| `AuthController.DuplicateRegistrationRefused` | backend/src/controllers/authController.ts:61-67 | Registering a taken email answers `400 "Email already in use"`, and the existing row, hash included, is unchanged. |
| `AuthController.RegisterThenLogin` | backend/src/controllers/authController.ts:32-92 | With a sound hasher, after a successful register, a login with the same request on the new table succeeds with the same user and a token with the same claims, secret and lifetime. Register answers 201 and login answers 200. |
| `AuthController.RegisterErrorsAreValidationOrDuplicate` | backend/src/controllers/authController.ts:58-78 | Run on its own, register fails only through the validation or the AppError branch, never through the database branch. |
| `AuthController.UniqueViolationIsDatabaseError` | backend/src/controllers/authController.ts:61-78 | When the look-up did not see the email but the insert meets it, register hands on the insert's own error, which reaches the client as `400 "Database error occurred"`, a different response from `"Email already in use"`. The table is left as the insert found it. |
| `AuthController.SignUpWalkThrough` | backend/src/controllers/authController.ts:21-96 | Register a@b.com / secret1 on an empty table gives 201 with that email, and a second register gives 400 "Email already in use". A login with "wrong" gives 400 "Validation failed". A login with secret1 gives 200 as the same user. |
| `UserJson.Encode` | frontend/contexts/auth-context.tsx:37 | The serialised user is never the empty string, so a stored user always counts as present. |
| `UserJson.Decode` | frontend/contexts/auth-context.tsx:27 | `JSON.parse` of the stored user text. It has no contract of its own; `DecodeEncode` states its property, that it reads back every text `Encode` writes as the user written. |
| `UserJson.DecodeEncode` | frontend/contexts/auth-context.tsx:27-37 | Parsing the text written for a user gives back that user. |
| `UserJson.EncodeInjective` | frontend/contexts/auth-context.tsx:37 | Two different users are never stored as the same text. |
| `AuthContext.Restore` | frontend/contexts/auth-context.tsx:21-31 | Nothing is restored exactly when one of the two entries is missing or empty. A session is restored exactly when both are truthy and the stored user text parses, and the parse error case is exactly when both are truthy and it does not. A restored session holds the stored token and the user parsed from the stored text. |
| `AuthContext.AfterLogin` | frontend/contexts/auth-context.tsx:37-38 | After login, "user" holds the serialised user and "token" holds the token, and every other entry is kept. |
| `AuthContext.AfterLogout` | frontend/contexts/auth-context.tsx:44-45 | After logout, both "user" and "token" are gone, and every other entry is kept. |
| `AuthContext.ReloadAfterLogin` | frontend/contexts/auth-context.tsx:26-38 | Restoring from the storage written by `login(u, t)` with a non-empty token gives back exactly `u` and `t`. |
| `AuthContext.ReloadAfterLoginWithEmptyToken` | frontend/contexts/auth-context.tsx:26-38 | With an empty token, restoring from the storage that login wrote finds no session. |
| `AuthContext.ReloadAfterLogout` | frontend/contexts/auth-context.tsx:21-46 | Restoring from the storage left by logout finds no session. |
| `AuthContext.UseAuth` | frontend/contexts/auth-context.tsx:55-61 | `useAuth` gives the provider's value exactly when there is a provider. Otherwise it fails with "useAuth must be used within an AuthProvider". |
| `AuthContext.Truthy` | frontend/contexts/auth-context.tsx:26 | The truth test of a stored entry. It has no contract of its own; `Restore` (only truthy entries restore a session) and `ReloadAfterLoginWithEmptyToken` (an empty token is no session) state its property. |
| `AuthContext.AuthProvider.constructor` | frontend/contexts/auth-context.tsx:17-19 | A new provider has no user and no token and is loading. |
| `AuthContext.AuthProvider.IsAuthenticated` | frontend/contexts/auth-context.tsx:49 | In a valid provider (user and token held together), `isAuthenticated` holds exactly when a token is held. |
| `AuthContext.AuthProvider.ChildrenShown` | frontend/contexts/auth-context.tsx:50 | `{!isLoading && children}`. It has no contract of its own; `RestoreSession` and `Mount` state when loading ends and the children are shown. |
| `AuthContext.AuthProvider.Value` | frontend/contexts/auth-context.tsx:49 | The context value carries the provider's own user and token, and its `isAuthenticated` is true exactly when that user is non-null. |
| `AuthContext.AuthProvider.RestoreSession` | frontend/contexts/auth-context.tsx:21-32 | Storage is only read. On a restored session, user and token are set and loading ends. When nothing is stored, memory is unchanged and loading ends. When the stored user fails to parse, nothing changes and loading does not end. The invariant "user iff token" is kept. |
| `AuthContext.AuthProvider.Login` | frontend/contexts/auth-context.tsx:34-39 | Sets user and token in memory and writes both entries (`AfterLogin`). The provider is then authenticated. |
| `AuthContext.AuthProvider.Logout` | frontend/contexts/auth-context.tsx:41-46 | Clears user and token and removes both entries (`AfterLogout`). The provider is then unauthenticated. |
| `AuthContext.Mount` | frontend/contexts/auth-context.tsx:17-50 | A page load after its restore effect is authenticated exactly on a restored session. It shows its children unless the stored user failed to parse. |
| `AuthContext.LoginThenReload` | frontend/contexts/auth-context.tsx:21-39 | A login with a non-empty token followed by a page load gives an authenticated provider, with the same user and token, that shows its children. |
| `AuthContext.LogoutThenReload` | frontend/contexts/auth-context.tsx:21-46 | A logout followed by a page load gives an unauthenticated provider that shows its children. |

## Left out

- Password hashing internals (bcrypt salting, the cost-10 work factor, constant-time comparison). The hasher is a parameter, and the only demand on it is `Sound`. Salt randomness is an input, so "two hashes of one password differ" is not stated. A `compare` that throws on a malformed stored hash is not modelled, because `verify` is total.
- Token signing, encoding and verification (`jwt.sign`, signature checks, expiry after one hour). A token is the record of its claims, secret and lifetime. The issue time (`iat`) and expiry time (`exp`) that `jwt.sign` reads from the clock are not modelled, so two tokens with the same claims, secret and lifetime are equal in the model even when signed at different times. Token verification is not part of the two endpoints.
- The email syntax check of the validation library. It is the parameter `isEmail`.
- Validation library details beyond the two string properties: request bodies that are not objects, extra properties (they are stripped), and issue codes other than the message and path. The "Expected string, received …" text takes the received type's name as an input.
- Database I/O and id generation. The id of a new row is an input, and only the unique email column is enforced. Concurrent requests are not modelled. The one effect of a race between look-up and insert is modelled without them: `AuthController.RegisterSteps` lets the look-up and the insert see different tables, and `AuthController.UniqueViolationIsDatabaseError` states what the client then receives.
- Express plumbing (`res.status().json()`, `next`, the `app.use(errorHandler)` wiring) and `console.error`. Responses are values. An AppError status code that Express would itself refuse is not modelled.
- `UserJson.Decode` accepts only the text shape `JSON.stringify` writes for a `{id, email}` record. It rejects whitespace, other key orders, extra keys and escapes of surrogate halves. Stored text that `JSON.parse` would accept as some other value (a number, a record of another shape) is treated like a parse failure. The code would instead set `user` to that value.
- A parse failure during restore is modelled as "nothing is set and loading never ends". What React then does with the thrown error (error boundaries, unmounting) is not modelled.
- React rendering, the UI forms and pages (`frontend/components`, `frontend/app`), the fetch wrappers in `frontend/api/auth.ts` and server bootstrap (`backend/src/index.ts`). They are UI, network and process code. The forms' extra rule that the confirmation must equal the password is declarative UI validation and is not modelled.

# Account and token lifecycle of the Spring Security template

This project models the account and token lifecycle of a Spring Boot
authentication template. The model works over three stores:

- accounts, keyed by id, with lookup by e-mail;
- e-mail confirmation / password reset tokens, keyed by token value;
- refresh tokens, keyed by id.

It covers the services that change those stores and proves, in Dafny, which
error each call raises, in which order the checks run, and which fields change
while nothing else does.

The model has two layers.

- **Specification.** `Store.Db` is the contents of all stores at one instant.
  Each service operation is a pure step function (`Authentication.SignupStep`,
  `Users.UpdateUserStep`, ...) returning `Result<(Db, Response)>`. A thrown
  exception is a `Failure` carrying no new state, so a call that throws changes
  nothing. `Store.WellFormed` is the invariant of the stores: ids lie below
  their sequences, every token is bound to an existing account and lives
  exactly 15 minutes, and a consumed token was consumed no later than its expiry.
  Every step keeps it.
- **Implementation.** The services are classes that follow the source
  statement by statement. `Store.Repositories` holds the account map, the map
  from token value to `ConfirmationToken` objects, the refresh-token map and the
  id sequences. `ConfirmationTokens.ConfirmationToken` is the mutable entity
  whose `confirmedAt` is set after construction. A ghost map of rows mirrors
  the token objects, and `Store.Repositories.Valid` states that every object
  shows exactly its row. Each service method that changes the stores proves
  `Realises(step, r, old state, new state)`: it returns what the step returns
  and leaves the stores as the step prescribes. The read-only operations
  (`Admin.AdminService.GetUser`, `Authentication.AuthenticationService.Signin`,
  `Users.UserService.EnableUser`) state their results directly.

`Lifecycle` runs any sequence of calls and proves facts about whole histories
by induction. The stores stay well formed. No account, token or refresh token
ever disappears. A token changes only by being consumed once, and a consumed
token stays consumed. E-mails stay unique as long as no profile update runs.

Instants are integers (milliseconds), and `isBefore` is strict `<`. The
confirmation-token lifetime is `15 * 60 * 1000`. The password encoder is an
uninterpreted function `encode: string -> string`. Fresh UUIDs and the current
instant are parameters.

Where the code differs from what a reader might expect, the model follows the
code:

- sign-up builds the account with `enabled(true)`, so it is enabled before any
  confirmation (services/AuthenticationService.java:60);
- `enableUser` has an empty body, so confirming an e-mail changes no account
  (services/UserService.java:19-21);
- `forgotPassword` never consumes its token, so a reset token can be reused, and
  can still confirm the e-mail, until it expires
  (services/AuthenticationService.java:111-117);
- `updatePassword` reports success on a mismatch and leaves the password as it
  was (services/UserService.java:78-85);
- `partialUpdateUser` overwrites both flags, with null when an argument is
  omitted (services/AdminService.java:46-47);
- `updateUser` answers with the message "User deleted successfully"
  (services/UserService.java:57), and does not check the new e-mail against
  other accounts.

Some collaborators are not part of this model: `ConfirmationTokenService`,
`ConfirmationTokenRepository`, `UserRepository`, the `User` entity and the
`PasswordEncoder`. They are modelled as follows:

- `getToken` and `findByToken` both look up the one token map;
- `saveConfirmationToken` stores the token and gives it the next id of
  `token_sequence`;
- `setConfirmedAt(token)` sets that token's `confirmedAt` to the current
  instant, taken to be the same instant `confirmToken` compared against;
- the account fields are the ones the services read or write. Fields the
  sign-up builder does not set (`locked`, `isDeleted`) are null.

Accounts can share an e-mail once a profile update copies one. In that case
`findByEmail` is taken to return the account with the smallest id
(`Store.EmailOwner`).

## Model

| member | source | states |
|---|---|---|
| `UserMapper.ToDto` | src/main/java/spring/security/temp/models/UserMapper.java:7-14 | the user name is the e-mail; the full name is the first name followed directly by the last name, with no separator (its length is the sum and both parts can be read back); `locked` and `enabled` are copied |
| `UserMapper.ToDtoIgnoresSecrets` | src/main/java/spring/security/temp/models/UserMapper.java:8-13 | the view depends only on e-mail, names and the two flags; password and soft-delete flag never show |
| `UserMapper.FullNameLosesTheSplit` | src/main/java/spring/security/temp/models/UserMapper.java:10 | two different accounts ("Ab"+"c" and "A"+"bc") map to the same view, so the full name loses where the first name ends |
| `ConfirmationTokens.ConfirmationToken.constructor` | src/main/java/spring/security/temp/token/ConfirmationToken.java:45-50 | stores the token value, issue instant, expiry and owner unchanged; `confirmedAt` and `id` stay null (unconsumed, not yet persisted) |
| `ConfirmationTokens.FreshTokenUsableUntilExpiry` | src/main/java/spring/security/temp/services/AuthenticationService.java:89-95 | an unconsumed token issued at `t` with the 15-minute lifetime passes the confirm / reset checks at `now` exactly when `now <= t + 15 min` |
| `Store.EmailOwner` | src/main/java/spring/security/temp/services/AuthenticationService.java:52 | the e-mail lookup finds nothing exactly when no account has that e-mail; otherwise it returns an account with that e-mail, the one with the smallest id |
| `Store.Repositories.FindById` | src/main/java/spring/security/temp/services/UserService.java:49-50 | returns the account stored under the id, or nothing exactly when the id is unknown |
| `Store.Repositories.FindByEmail` | src/main/java/spring/security/temp/services/AuthenticationService.java:149 | returns the account `EmailOwner` designates |
| `Store.Repositories.InsertUser` | src/main/java/spring/security/temp/services/AuthenticationService.java:62 | saves a new account under the next, unused id of the sequence; only the account map and its sequence change; the stores stay well formed |
| `Store.Repositories.SaveUser` | src/main/java/spring/security/temp/services/UserService.java:54 | replaces the stored account under an existing id and changes nothing else |
| `Store.Repositories.GetToken` | src/main/java/spring/security/temp/services/AuthenticationService.java:85-87 | returns the token object stored under the value, or nothing exactly when the value is unknown |
| `Store.Repositories.SaveConfirmationToken` | src/main/java/spring/security/temp/services/AuthenticationService.java:71 | stores the given object `ct` itself under its own value, gives it the next id of `token_sequence`, keeps its other fields, and changes no other token |
| `Store.Repositories.SetConfirmedAt` | src/main/java/spring/security/temp/services/AuthenticationService.java:97 | sets `confirmedAt` of the token with that value to `now`; every other field, token and store stays as it was |
| `Store.Repositories.SaveRefreshToken` | src/main/java/spring/security/temp/services/RefreshTokenService.java:31 | stores the refresh token under the next id of its sequence and changes nothing else |
| `Users.UpdateUserStep` | src/main/java/spring/security/temp/services/UserService.java:48-60 | a successful profile update keeps every store invariant |
| `Users.DeleteUserStep` | src/main/java/spring/security/temp/services/UserService.java:63-73 | a successful delete keeps every store invariant |
| `Users.UpdatePasswordStep` | src/main/java/spring/security/temp/services/UserService.java:75-86 | a successful password change keeps every store invariant |
| `Users.UpdateUserReplacesProfile` | src/main/java/spring/security/temp/services/UserService.java:48-59 | unknown id: "User not found" and no change. Otherwise exactly e-mail, first and last name take the requested values; password, enabled, locked and isDeleted stay; no other account or store changes; the returned view shows the new values with the delete message |
| `Users.UpdateUserCanDuplicateEmail` | src/main/java/spring/security/temp/services/UserService.java:51-54 | the new e-mail is not checked: an update can leave two accounts with one e-mail |
| `Users.DeleteIsSoft` | src/main/java/spring/security/temp/services/UserService.java:63-72 | unknown id: "User not found" and no change. Otherwise the account stays in the store, now deleted, disabled and locked, and nothing else changes |
| `Users.UpdatePasswordOnlyOnMatch` | src/main/java/spring/security/temp/services/UserService.java:75-85 | unknown id: "User not found". Otherwise the call reports success either way; the password becomes `encode(new)` when the two entries agree, and the stores are unchanged when they differ |
| `Users.UserService.EnableUser` | src/main/java/spring/security/temp/services/UserService.java:19-21 | changes nothing in any store |
| `Users.UserService.UpdateUser` | src/main/java/spring/security/temp/services/UserService.java:48-60 | realises `UpdateUserStep` on the repositories and keeps them well formed |
| `Users.UserService.DeleteUser` | src/main/java/spring/security/temp/services/UserService.java:63-73 | realises `DeleteUserStep` on the repositories and keeps them well formed |
| `Users.UserService.UpdatePassword` | src/main/java/spring/security/temp/services/UserService.java:75-86 | realises `UpdatePasswordStep` on the repositories and keeps them well formed |
| `Admin.FoundMessageInjective` | src/main/java/spring/security/temp/services/AdminService.java:36 | two accounts found under the same "Found user with id %d" message are the same account |
| `Admin.FoundMessageNamesId` | src/main/java/spring/security/temp/services/AdminService.java:36 | "Found user with id %d" starts with the fixed prefix and the id reads back from the rest, so the message names the account |
| `Admin.PartialUpdateStep` | src/main/java/spring/security/temp/services/AdminService.java:43-52 | a successful flag override keeps every store invariant |
| `Admin.PartialUpdateOverwritesFlags` | src/main/java/spring/security/temp/services/AdminService.java:43-51 | unknown id: "User not found" and no change. Otherwise `locked` and `enabled` take the arguments, null included; e-mail, names, password and isDeleted stay; no other account or store changes |
| `Admin.AdminService.GetUser` | src/main/java/spring/security/temp/services/AdminService.java:31-39 | fails with "User not found" exactly when the id is unknown; otherwise returns the mapped view of the stored account and a message that names the id; reads only |
| `Admin.AdminService.PartialUpdateUser` | src/main/java/spring/security/temp/services/AdminService.java:43-52 | realises `PartialUpdateStep` on the repositories and keeps them well formed |
| `RefreshTokens.RefreshStep` | src/main/java/spring/security/temp/services/RefreshTokenService.java:26-37 | a successful refresh keeps every store invariant |
| `RefreshTokens.RefreshIssuesOneToken` | src/main/java/spring/security/temp/services/RefreshTokenService.java:26-37 | unknown account: `Optional.get` throws and nothing is saved. Otherwise exactly one refresh token is added under a new id, bound to that account, expiring `now + refreshTokenDurationMs`; earlier tokens and the other stores stay; the response carries the saved token and "Token refreshed successfully" |
| `RefreshTokens.IsTokenExpired` | src/main/java/spring/security/temp/services/RefreshTokenService.java:39-41 | a refresh token is expired exactly when its expiry lies strictly before the given instant; one expiring at that very instant is not |
| `RefreshTokens.IssuedTokenExpiry` | src/main/java/spring/security/temp/services/RefreshTokenService.java:29-41 | a token issued with a non-negative lifetime is not expired when issued; it is expired at a later instant exactly when that instant is past issue time plus lifetime |
| `RefreshTokens.ExpiryIsPermanent` | src/main/java/spring/security/temp/services/RefreshTokenService.java:39-41 | once a refresh token is expired it stays expired |
| `RefreshTokens.RefreshTokenService.RefreshToken` | src/main/java/spring/security/temp/services/RefreshTokenService.java:26-37 | realises `RefreshStep` with the configured lifetime and keeps the repositories well formed |
| `Authentication.SignupStep` | src/main/java/spring/security/temp/services/AuthenticationService.java:51-81 | a successful sign-up keeps every store invariant |
| `Authentication.ConfirmStep` | src/main/java/spring/security/temp/services/AuthenticationService.java:84-101 | a successful confirmation keeps every store invariant (the token is consumed within its lifetime) |
| `Authentication.ForgotPasswordStep` | src/main/java/spring/security/temp/services/AuthenticationService.java:104-122 | a successful reset keeps every store invariant |
| `Authentication.ResendStep` | src/main/java/spring/security/temp/services/AuthenticationService.java:148-171 | a successful resend keeps every store invariant |
| `Authentication.SignupRejectsDuplicate` | src/main/java/spring/security/temp/services/AuthenticationService.java:52-54 | sign-up fails exactly when some account has the e-mail, and then with "User with email already present" and no store changed |
| `Authentication.SignupCreatesAccountAndToken` | src/main/java/spring/security/temp/services/AuthenticationService.java:55-80 | a fresh e-mail adds exactly one account under an unused id, with the given e-mail and names, `encode(password)` and enabled; and exactly one token bound to it, unconsumed, issued now and expiring 15 minutes later, whose value is returned; nothing else changes |
| `Authentication.ConfirmCheckOrder` | src/main/java/spring/security/temp/services/AuthenticationService.java:85-95 | unknown value: "token not found"; consumed token: "email already confirmed" even when also expired; unconsumed and expiry strictly before now: "token expired"; success exactly for an unconsumed, unexpired token, so expiry equal to now is accepted |
| `Authentication.ConfirmConsumesOnlyThatToken` | src/main/java/spring/security/temp/services/AuthenticationService.java:97-100 | success sets only that token's `confirmedAt` to now and answers "Email Confirmed"; no account changes |
| `Authentication.ConfirmOnlyOnce` | src/main/java/spring/security/temp/services/AuthenticationService.java:89-97 | after a successful confirmation, confirming the same value again fails with "email already confirmed" |
| `Authentication.ForgotPasswordMismatchFirst` | src/main/java/spring/security/temp/services/AuthenticationService.java:106-110 | differing entries fail with "Incorrect Password" whatever the token, even an unknown one, and no password changes |
| `Authentication.ForgotPasswordChecks` | src/main/java/spring/security/temp/services/AuthenticationService.java:109-113 | with matching entries: unknown token gives "Token not found"; consumed or expired token gives "Password Reset Token is expired"; success exactly for a usable token |
| `Authentication.ForgotPasswordRewritesOwnerPassword` | src/main/java/spring/security/temp/services/AuthenticationService.java:115-121 | success changes only the owner's password, to `encode(newPassword)`; the token store is unchanged |
| `Authentication.ResetTokenReusable` | src/main/java/spring/security/temp/services/AuthenticationService.java:111-117 | after a reset the same token resets again, and still confirms the e-mail, at any instant up to its expiry |
| `Authentication.ConfirmedTokenCannotReset` | src/main/java/spring/security/temp/services/AuthenticationService.java:111-113 | once a token has confirmed the e-mail, a reset with it fails with "Password Reset Token is expired" |
| `Authentication.ResendMintsToken` | src/main/java/spring/security/temp/services/AuthenticationService.java:148-160 | unknown e-mail fails with "User not Found" and nothing else does; success adds one unconsumed 15-minute token for an account with that e-mail and leaves every earlier token and the accounts as they were |
| `Authentication.SignupThenConfirmOnce` | src/main/java/spring/security/temp/services/AuthenticationService.java:51-100 | a fresh sign-up's returned token confirms within 15 minutes, leaves the (already enabled) account as it was, and a second confirmation fails with "email already confirmed" |
| `Authentication.SignupThenLateConfirmExpires` | src/main/java/spring/security/temp/services/AuthenticationService.java:65-95 | a sign-up token presented after its 15 minutes fails with "token expired" |
| `Authentication.AuthenticationService.Signup` | src/main/java/spring/security/temp/services/AuthenticationService.java:51-81 | realises `SignupStep` on the repositories and keeps them well formed |
| `Authentication.AuthenticationService.ConfirmToken` | src/main/java/spring/security/temp/services/AuthenticationService.java:84-101 | realises `ConfirmStep`, keeps the token map (so the same objects stay stored under every value), and keeps the repositories well formed; with `Valid`, only the row of that value changes |
| `Authentication.AuthenticationService.ForgotPassword` | src/main/java/spring/security/temp/services/AuthenticationService.java:104-122 | realises `ForgotPasswordStep` on the repositories and keeps them well formed |
| `Authentication.AuthenticationService.Signin` | src/main/java/spring/security/temp/services/AuthenticationService.java:125-145 | rejected credentials fail; an authenticated name no account has fails with "User not found"; otherwise the response carries the token generated for the account `findByEmail` returns and "User has signed in successfully" |
| `Authentication.AuthenticationService.ResendVerification` | src/main/java/spring/security/temp/services/AuthenticationService.java:148-171 | realises `ResendStep` on the repositories and keeps them well formed |
| `Lifecycle.Apply` | src/main/java/spring/security/temp/services/AuthenticationService.java:51-171 | any single service call keeps every store invariant |
| `Lifecycle.Run` | src/main/java/spring/security/temp/services/AuthenticationService.java:51-171 | any sequence of service calls keeps every store invariant |
| `Lifecycle.ApplyEvolves` | src/main/java/spring/security/temp/services/AuthenticationService.java:97 | no call removes an account, token or refresh token; a token changes only by having a null `confirmedAt` set; refresh tokens never change |
| `Lifecycle.RunEvolves` | src/main/java/spring/security/temp/services/AuthenticationService.java:84-122 | the same holds across any history of calls |
| `Lifecycle.ConsumedTokenStaysConsumed` | src/main/java/spring/security/temp/services/AuthenticationService.java:89-113 | a consumed token keeps its `confirmedAt` through any later history, so it never confirms again and never resets a password |
| `Lifecycle.ApplyKeepsEmailsUnique` | src/main/java/spring/security/temp/services/AuthenticationService.java:52-62 | any call other than a profile update keeps e-mails unique, because sign-up refuses a taken e-mail |
| `Lifecycle.EmailsStayUniqueWithoutProfileUpdates` | src/main/java/spring/security/temp/services/AuthenticationService.java:52-54 | a history without profile updates keeps e-mails unique |
| `Lifecycle.FromEmptyEmailsUnique` | src/main/java/spring/security/temp/services/AuthenticationService.java:52-54 | from empty stores, every history without profile updates leaves at most one account per e-mail |

## Left out

- Controllers: HTTP routing and status codes only; the live refresh-token handler does nothing and the refresh and logout endpoints are commented out.
- Authentication.AuthenticationService.Signin: the authentication manager's verdict is a boolean parameter and JWT generation an uninterpreted function; neither is part of this model, and no signing is modelled.
- `getAuthenticatedUser` and `getCurrentUser`: they read the thread-local security context.
- `getAllUsers`: Spring Data paging and sorting.
- E-mail sending, the link text and console logging: outbound I/O.
- `UUID.randomUUID()`: fresh confirmation-token values are parameters, required not to be stored yet, and `Lifecycle.Apply` skips a sign-up or resend whose value collides. Refresh tokens are keyed by id, so their values need no such requirement.
- `LocalDateTime.now()` and `Instant.now()`: one `now` parameter per call; sign-up reads the clock twice and `confirmToken` compares against one reading while `setConfirmedAt` takes another, and the model uses one instant for both.
- Instants are unbounded integers: the range limits of `LocalDateTime` and `Instant` and `long` overflow of `plusMillis` are not modelled.
- `PasswordEncoder.encode`: a foreign hash, modelled as an uninterpreted function.
- `@Transactional` boundaries and concurrent calls: the model is sequential.
- Null request fields: strings are never null here, so the exception `updatePassword` raises when the new password is null is not modelled.
- Store.EmailOwner: with several accounts sharing an e-mail, Spring Data's `findByEmail` would throw a non-unique-result exception; the model returns the smallest id instead.
- Entity identity: accounts are stored as values and a token refers to its account by id, so aliasing between a token's `User` object and the stored account is not modelled.
- Account fields that no modelled operation reads or writes (roles and the like) are not part of this model.
- Repository interfaces and DTO/record classes are datatypes and maps; their persistence mechanics are not modelled.

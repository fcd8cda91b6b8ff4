# MyNotesApp — a Dafny model of its rules

MyNotesApp is a note-taking web application. A Spring backend keeps users and
their notes, issues JSON Web Tokens at login and checks them on every request;
it also links a wallet address to a user and relays Cardano transactions. A
React frontend stores the token, attaches it to requests, edits and lists notes
and drives three wallet adapters (MetaMask, and two for Cardano extensions).

The model covers the rules these pieces follow, one Dafny module per source file:

- `Users`, `UserDetailsService`: the users table and the mapping from a stored
  user to Spring Security's `UserDetails`.
- `JwtUtil`: token claims (subject, issue time, expiration) and their validation.
  The signed compact form is an abstract codec.
- `JwtAuthFilter`: the per-request decision of the authentication filter. It is
  a pure `Decide` function. `DoFilterInternal` is a method writing the security
  context and continuing the filter chain.
- `AuthController` and `SignupController`: signup and login of the current
  backend, and the signup-only controller of the earlier `my-notes-app` backend.
- `NoteController`: the notes table guarded by ownership.
- `UserController`: wallet linking.
- `CardanoController`: request guards and the exception-to-status mapping.
- `Api`: local storage, the bearer-header interceptor and the request each
  exported call sends.
- `App`: the editor's save rule and the dashboard's handlers.
- `EthWallet`, `CardanoWalletHook`, `CardanoWallet`: the three wallet adapters,
  each a state record, pure transition functions and a class whose methods
  perform the transitions field by field.
- `EndToEnd`: properties where client and server meet:
  - the `Bearer ` header round trip;
  - the routes the filter leaves public;
  - a login token authenticating later requests;
  - client signup storing the email as the username.
- `Common`, `Http`: shared vocabulary:
  - optional values;
  - settled JavaScript promises (`Outcome`);
  - Java and JavaScript `trim`;
  - decimal numerals for note ids;
  - HTTP statuses and bodies.

Every foreign call is a parameter of the operation that makes it:

- JPA repositories are a `seq` of user rows and a `map` of notes.
- BCrypt is an opaque `encode` function.
- The authentication manager's verdict is a boolean.
- jjwt's signing and parsing is a codec pair (`compact`, `parse`).
- `CardanoService` is a record of three functions.
- Browser storage, wallet extensions and backend calls are how each awaited
  call settles (`Outcome`).
- Clock readings are explicit millisecond arguments.

Where the code and its description differ, the model follows the code:

- Update and delete of an absent note id answer 404 without looking up the caller.
- jjwt's parser itself rejects an expired token, so an expired token passes the
  filter unauthenticated. It never reaches `validateToken`.
- Signup checks only the email. The model takes the username column to be unique,
  so a username that is already taken (possible when the client sends one) makes
  the insert fail, and the exception escapes the controller.
- The repository has two `User` classes. The controllers, the note entity and
  `UserRepository` use `com.yankee.mynotesapp.user.User`, which is not part of
  this model. Only `UserController` uses `com.yankee.mynotesapp.model.User`,
  which declares the unique username column but no email and no role column.
  The model merges the two into one table, and its `User` record carries the
  union of their fields.

## Model

| member | source | states |
|---|---|---|
| Common.OrElse | frontend/src/useCardanoWallet.jsx:45 | `a \|\| b` on an optional string: the value when truthy, otherwise the fallback |
| Common.ErrorText | frontend/src/useCardanoWallet.jsx:45 | the server's message if truthy, else the error's own message if truthy, else the fallback |
| Common.Lookup | frontend/src/api.js:31 | reading a key of a JSON object gives its value, or undefined exactly when absent |
| Common.TrimStart | backend/mynotesapp/src/main/java/com/yankee/mynotesapp/controller/UserController.java:39 | the result is a suffix of the input; every removed character is blank; the result does not start with a blank |
| Common.TrimEnd | backend/mynotesapp/src/main/java/com/yankee/mynotesapp/controller/UserController.java:39 | the result is a prefix of the input; every removed character is blank; the result does not end with a blank |
| Common.TrimEmptyIff | backend/mynotesapp/src/main/java/com/yankee/mynotesapp/controller/UserController.java:39 | a string trims to empty if and only if all its characters are blank |
| Common.TrimHasNoBlankEnds | backend/mynotesapp/src/main/java/com/yankee/mynotesapp/controller/UserController.java:51 | the stored trimmed address neither starts nor ends with a blank |
| Common.TrimIdempotent | backend/mynotesapp/src/main/java/com/yankee/mynotesapp/controller/UserController.java:51 | trimming a trimmed string changes nothing |
| Common.Decimal | frontend/src/api.js:56 | `${id}` is a non-empty string of digits without a leading zero |
| Common.ParseDecimal | frontend/src/api.js:56 | a path segment reads back as a number exactly when it is a non-empty string of digits; every numeral the client sends reads back as its id (`Api.NotePathRoundTrip`) |
| Common.DecimalRoundTrip | frontend/src/api.js:56 | reading back the numeral of an id gives that id |
| Common.DecimalInjective | frontend/src/api.js:60 | distinct ids give distinct numerals |
| Users.IndexOfUsername | backend/mynotesapp/src/main/java/com/yankee/mynotesapp/user/UserRepository.java:10 | the first row with that username; none exactly when no row has it |
| Users.FindByUsername | backend/mynotesapp/src/main/java/com/yankee/mynotesapp/user/UserRepository.java:10 | a returned user is a stored row with that username; empty exactly when no row has it |
| Users.ExistsByEmail | backend/mynotesapp/src/main/java/com/yankee/mynotesapp/user/UserRepository.java:13 | true exactly when some row has that email |
| Users.FindStoredUser | backend/mynotesapp/src/main/java/com/yankee/mynotesapp/model/User.java:20-21 | with unique usernames, looking up a stored user's name returns that very row |
| Users.UserRepository.Insert | backend/mynotesapp/src/main/java/com/yankee/mynotesapp/model/User.java:15-21 | a taken username is refused and nothing changes; otherwise the row is appended with a fresh id and uniqueness is kept |
| Users.UserRepository.Update | backend/mynotesapp/src/main/java/com/yankee/mynotesapp/controller/UserController.java:52 | saving a loaded user replaces exactly its own row |
| UserDetailsService.LoadUserByUsername | backend/mynotesapp/src/main/java/com/yankee/mynotesapp/config/CustomUserDetailsService.java:22-32 | not-found exactly when no row has the name, with message "User not found with username: " + name; otherwise a stored row's username and hashed password, and that row's role as the one authority |
| UserDetailsService.LoadStoredUser | backend/mynotesapp/src/main/java/com/yankee/mynotesapp/config/CustomUserDetailsService.java:24-31 | with unique usernames, each stored user loads with their own username, password and role |
| JwtUtil.TokenClaims | backend/mynotesapp/src/main/java/com/yankee/mynotesapp/config/JwtUtil.java:38-46 | no custom claims; subject is the username; issue time and expiration are the clock reading and the clock plus lifetime, in whole seconds |
| JwtUtil.GenerateToken | backend/mynotesapp/src/main/java/com/yankee/mynotesapp/config/JwtUtil.java:38-47 | with a faithful signer the token is non-empty and parses back to exactly the builder's claims |
| JwtUtil.ExtractUsername | backend/mynotesapp/src/main/java/com/yankee/mynotesapp/config/JwtUtil.java:51-53 | the subject claim exactly when the token parses and is not expired; otherwise the parser's error |
| JwtUtil.ExtractExpiration | backend/mynotesapp/src/main/java/com/yankee/mynotesapp/config/JwtUtil.java:55-57 | the expiration in milliseconds (or absent) exactly when the token parses and is not expired; otherwise the parser's error |
| JwtUtil.ExtractAllClaims | backend/mynotesapp/src/main/java/com/yankee/mynotesapp/config/JwtUtil.java:64-70 | claims come back exactly when the token parses and is not expired; a parsed but refused token is reported as expired |
| JwtUtil.ExpirationIsIssuePlusLifetime | backend/mynotesapp/src/main/java/com/yankee/mynotesapp/config/JwtUtil.java:43-44 | with one clock reading and a whole-second lifetime, expiration equals issue time plus lifetime |
| JwtUtil.DefaultLifetimeIsOneHour | backend/mynotesapp/src/main/java/com/yankee/mynotesapp/config/JwtUtil.java:30 | with the default 3600000 ms, tokens expire 3600 seconds after issue |
| JwtUtil.GeneratedTokenSubject | backend/mynotesapp/src/main/java/com/yankee/mynotesapp/config/JwtUtil.java:42-52 | until it expires, `extractUsername` of a generated token is the user it was generated for; afterwards it is refused as expired |
| JwtUtil.ExpiryIsStrict | backend/mynotesapp/src/main/java/com/yankee/mynotesapp/config/JwtUtil.java:77-79 | a token is accepted exactly up to and including its expiration instant |
| JwtUtil.IsTokenExpired | backend/mynotesapp/src/main/java/com/yankee/mynotesapp/config/JwtUtil.java:77-79 | a result exactly when the token parses unexpired and carries an expiration, which is then compared strictly with `new Date()`; a missing expiration is a null-pointer failure |
| JwtUtil.ValidateToken | backend/mynotesapp/src/main/java/com/yankee/mynotesapp/config/JwtUtil.java:72-75 | false exactly when a readable token names another user; a failure exactly when the token is unreadable, has no subject, or names the user but has no expiration |
| JwtUtil.ValidateTokenIff | backend/mynotesapp/src/main/java/com/yankee/mynotesapp/config/JwtUtil.java:72-75 | valid if and only if the token parses, its subject is the user's name and its expiration is not before now |
| JwtUtil.ValidateTokenOtherUser | backend/mynotesapp/src/main/java/com/yankee/mynotesapp/config/JwtUtil.java:72-75 | a token naming another user is refused, whatever its expiration |
| JwtAuthFilter.PublicRequests | backend/mynotesapp/src/main/java/com/yankee/mynotesapp/config/JwtAuthFilter.java:31-35 | `IsPublic`: every URI below "/api/auth/" and every OPTIONS request is skipped; "/api/auth" without the slash and the notes endpoints are not |
| JwtAuthFilter.BearerToken | backend/mynotesapp/src/main/java/com/yankee/mynotesapp/config/JwtAuthFilter.java:43-48 | a token exists iff the header starts with "Bearer ", and the header is "Bearer " followed by the token |
| JwtAuthFilter.Decide | backend/mynotesapp/src/main/java/com/yankee/mynotesapp/config/JwtAuthFilter.java:27-72 | auth endpoints and OPTIONS are skipped; authentication only when none is present; its authorities are the loaded user's |
| JwtAuthFilter.DoFilterInternal | backend/mynotesapp/src/main/java/com/yankee/mynotesapp/config/JwtAuthFilter.java:27-72 | follows `Decide`; the context changes only when authenticating; the chain continues exactly once unless an exception escapes |
| JwtAuthFilter.NoBearerPassesThrough | backend/mynotesapp/src/main/java/com/yankee/mynotesapp/config/JwtAuthFilter.java:43-46 | no header, or no "Bearer " prefix, passes on unauthenticated |
| JwtAuthFilter.UnreadableTokenPassesThrough | backend/mynotesapp/src/main/java/com/yankee/mynotesapp/config/JwtAuthFilter.java:50-56 | a token whose claims cannot be read passes on unauthenticated without escaping |
| JwtAuthFilter.NeverOverwrites | backend/mynotesapp/src/main/java/com/yankee/mynotesapp/config/JwtAuthFilter.java:59 | an existing authentication is never replaced and no user is loaded |
| JwtAuthFilter.AuthenticatesOnlyValidTokens | backend/mynotesapp/src/main/java/com/yankee/mynotesapp/config/JwtAuthFilter.java:60-69 | authenticating implies the loaded user is the token's subject and `validateToken` held for them |
| JwtAuthFilter.SingleClockAuthenticatesKnownUser | backend/mynotesapp/src/main/java/com/yankee/mynotesapp/config/JwtAuthFilter.java:59-69 | with one clock, a current token of a stored user with an expiration authenticates exactly that user |
| AuthController.SignupUsername | backend/mynotesapp/src/main/java/com/yankee/mynotesapp/config/AuthController.java:49-51 | a null or empty username becomes the email; otherwise it is kept |
| AuthController.NewUser | backend/mynotesapp/src/main/java/com/yankee/mynotesapp/config/AuthController.java:54-59 | the entity has that username and email, the encoded password, role "ROLE_USER" and no wallet |
| AuthController.RegisterUser | backend/mynotesapp/src/main/java/com/yankee/mynotesapp/config/AuthController.java:42-65 | a known email gives 400 and saves nothing; otherwise 201 "User registered successfully" and exactly the new row is appended |
| AuthController.AuthenticateUser | backend/mynotesapp/src/main/java/com/yankee/mynotesapp/config/AuthController.java:69-91 | refused credentials give 401 "Invalid username or password"; success gives 200 with the single key "token" holding the generated token |
| SignupController.RegisterUser | backend/my-notes-app/src/main/java/com/yankee/mynotesapp/config/AuthController.java:24-50 | the same signup rules as the later controller, and every answer it builds is plain text, so no token |
| NoteController.GetCurrentUser | backend/mynotesapp/src/main/java/com/yankee/mynotesapp/note/NoteController.java:26-31 | the stored row named by the principal, or "User not found: " + name |
| NoteController.NotesOf | backend/mynotesapp/src/main/java/com/yankee/mynotesapp/repository/NoteRepository.java:12 | exactly the stored notes with that owner |
| NoteController.UpdateSpec | backend/mynotesapp/src/main/java/com/yankee/mynotesapp/note/NoteController.java:49-61 | 404 iff absent, 403 iff another's, success iff owned; success keeps id and owner, replaces title and content, and touches no other note; failures change nothing |
| NoteController.DeleteSpec | backend/mynotesapp/src/main/java/com/yankee/mynotesapp/note/NoteController.java:64-75 | the same 404/403/success split; success removes exactly that id; failures change nothing |
| NoteController.UpdateIdempotent | backend/mynotesapp/src/main/java/com/yankee/mynotesapp/note/NoteController.java:57-59 | repeating an update gives the same table |
| NoteController.DeleteThenNotFound | backend/mynotesapp/src/main/java/com/yankee/mynotesapp/note/NoteController.java:72-74 | after a delete the id answers 404, and the owner's listing has lost exactly that note |
| NoteController.UnknownUserChangesNothing | backend/mynotesapp/src/main/java/com/yankee/mynotesapp/note/NoteController.java:26-31 | an unknown principal never changes the table; the answer is 404 or the exception |
| NoteController.GetAllNotes | backend/mynotesapp/src/main/java/com/yankee/mynotesapp/note/NoteController.java:34-38 | exactly the notes owned by the current user; the exception when the principal is unknown |
| NoteController.CreateSpec | backend/mynotesapp/src/main/java/com/yankee/mynotesapp/note/NoteController.java:41-46 | an unknown caller raises and nothing changes; otherwise the note has the body's title and content and the caller as owner; a body naming a stored id overwrites that row, any other body is inserted under the next generated id |
| NoteController.CreateSeizesNamedNote | backend/mynotesapp/src/main/java/com/yankee/mynotesapp/note/NoteController.java:42-45 | a caller posting the id of a note they do not own replaces it and becomes its owner; its owner's listing loses it |
| NoteController.FreshCreateSpec | backend/mynotesapp/src/main/java/com/yankee/mynotesapp/note/NoteController.java:41-46 | create as intended: an unknown caller raises and nothing changes; otherwise the note gets the next generated id, the body's title and content and the caller as owner, whatever id the body names |
| NoteController.FreshCreateKeepsStoredNotes | backend/mynotesapp/src/main/java/com/yankee/mynotesapp/note/NoteController.java:41-46 | the intended create keeps every stored note and adds exactly one new id |
| NoteController.CreateNote | backend/mynotesapp/src/main/java/com/yankee/mynotesapp/note/NoteController.java:41-46 | reply, table and next id are those of `CreateSpec`; the table stays keyed by id |
| NoteController.UpdateNote | backend/mynotesapp/src/main/java/com/yankee/mynotesapp/note/NoteController.java:49-61 | reply and new table are those of `UpdateSpec` |
| NoteController.DeleteNote | backend/mynotesapp/src/main/java/com/yankee/mynotesapp/note/NoteController.java:64-75 | reply and new table are those of `DeleteSpec` |
| UserController.LinkWalletSpec | backend/mynotesapp/src/main/java/com/yankee/mynotesapp/controller/UserController.java:30-61 | null or blank gives 400 "Wallet address is required." with no change; unknown user gives 404 "User not found."; success stores and echoes the trimmed address |
| UserController.LinkChangesOnlyWalletAddress | backend/mynotesapp/src/main/java/com/yankee/mynotesapp/controller/UserController.java:50-52 | only the caller's `walletAddress` changes; `secondaryWalletAddress` and other rows stay |
| UserController.RelinkOverwrites | backend/mynotesapp/src/main/java/com/yankee/mynotesapp/controller/UserController.java:51 | linking twice leaves what linking the second address once leaves |
| UserController.BlankAddressRejected | backend/mynotesapp/src/main/java/com/yankee/mynotesapp/controller/UserController.java:39-42 | an address made only of blanks is rejected with 400 |
| UserController.LinkWallet | backend/mynotesapp/src/main/java/com/yankee/mynotesapp/controller/UserController.java:30-61 | response and new table are those of `LinkWalletSpec` |
| CardanoController.ErrorBody | backend/mynotesapp/src/main/java/com/yankee/mynotesapp/controller/CardanoController.java:25 | the error body holds the message and the exception text; a null exception text makes `Map.of` throw |
| CardanoController.GetUtxos | backend/mynotesapp/src/main/java/com/yankee/mynotesapp/controller/CardanoController.java:19-27 | 200 with the list exactly when the service returns; an exception maps to 500 "Failed to fetch UTxOs" |
| CardanoController.BuildTx | backend/mynotesapp/src/main/java/com/yankee/mynotesapp/controller/CardanoController.java:31-51 | 200 with the single key "unsignedTxHex" exactly on success; unsupported-operation gives 501; any other exception gives 500 |
| CardanoController.SubmitTx | backend/mynotesapp/src/main/java/com/yankee/mynotesapp/controller/CardanoController.java:54-69 | a missing or empty hex gives 400 and the service is not called; success returns the service's map unchanged; an exception gives 500 "Failed to submit transaction" |
| CardanoController.BuildTxSingleKey | backend/mynotesapp/src/main/java/com/yankee/mynotesapp/controller/CardanoController.java:40 | a 200 build answer has exactly the key "unsignedTxHex" |
| CardanoController.SubmitGuardIndependentOfService | backend/mynotesapp/src/main/java/com/yankee/mynotesapp/controller/CardanoController.java:55-59 | a rejected submit is the same whatever the service would do |
| CardanoController.ErrorStatusesDistinguishExceptions | backend/mynotesapp/src/main/java/com/yankee/mynotesapp/controller/CardanoController.java:41-50 | a failed build answers 501 if and only if the exception is an unsupported-operation one |
| Api.LocalStorage.GetItem | frontend/src/api.js:16 | the stored value, or null for a missing key |
| Api.LocalStorage.SetItem | frontend/src/api.js:32 | the key now maps to the value; nothing else changes |
| Api.LocalStorage.RemoveItem | frontend/src/api.js:42 | the key is gone; nothing else changes |
| Api.Stringified | frontend/src/api.js:32 | storing undefined stores the text "undefined" |
| Api.WithAuthorization | frontend/src/api.js:15-20 | a truthy token sets Authorization to "Bearer " + token; otherwise the headers stay as they were |
| Api.WithAuthorizationIdempotent | frontend/src/api.js:17-19 | running the interceptor twice equals once; headers other than Authorization are kept |
| Api.Intercept | frontend/src/api.js:15-23 | the config's headers become `WithAuthorization` of the stored token |
| Api.LoginRequest | frontend/src/api.js:29 | POST /api/auth/login with exactly username and password |
| Api.SignupRequest | frontend/src/api.js:37-39 | POST /api/auth/signup with exactly email and password, no username |
| Api.GetNotesRequest | frontend/src/api.js:47-49 | GET /api/notes without a body |
| Api.CreateNoteRequest | frontend/src/api.js:51-53 | POST /api/notes with title and content only, no id and no owner |
| Api.NoteIdOf | frontend/src/api.js:56 | only paths under "/notes/" with a non-empty remainder designate a note |
| Api.NotePathRoundTrip | frontend/src/api.js:56 | the server reads back from "/notes/" + id the very id |
| Api.UpdateNoteRequest | frontend/src/api.js:55-57 | PUT to the note's path with title and content |
| Api.DeleteNoteRequest | frontend/src/api.js:59-61 | DELETE to the note's path without a body |
| Api.NoteRequestsTargetTheirId | frontend/src/api.js:55-61 | update and delete address their own id, and distinct ids give distinct paths |
| Api.Login | frontend/src/api.js:27-35 | sends the credentials; on success stores `data.token` under "token" and resolves to it; a failure stores nothing |
| Api.Logout | frontend/src/api.js:41-43 | removes "token" and nothing else |
| Api.MissingTokenStoredAsUndefined | frontend/src/api.js:31-32 | a login reply without a token leads to the header "Bearer undefined" |
| App.CanSaveIff | frontend/src/App.jsx:118 | `CanSave`, the guard of a save: it holds iff title and content each have a visible character and the content is not the empty paragraph |
| App.EmptyParagraphGuardNeeded | frontend/src/App.jsx:118 | the empty paragraph passes the trim test, yet no title can be saved with it as content: the comparison is what refuses it |
| App.Edited | frontend/src/App.jsx:119 | the saved note has the edited title and content and keeps the current note's id, or has none when creating |
| App.NoteEditor.constructor | frontend/src/App.jsx:108-109 | the editor starts with the current note's title and content, or empty |
| App.NoteEditor.HandleSave | frontend/src/App.jsx:116-123 | a refused save sends nothing and changes nothing; an accepted one hands over the edited note, empties the editor and clears the current note |
| App.Prefix | frontend/src/App.jsx:288 | `substring(0, n)` is the first `min(n, length)` characters: the whole string when it is shorter |
| App.ProofStatus | frontend/src/App.jsx:286-299 | receipt status 1 is success with the hash; another status is "Transaction failed (Status 0)."; code 4001 is "Transaction rejected by user."; other errors show their message or "Check console." |
| App.AfterLogout | frontend/src/App.jsx:260-264 | logout makes the app unauthenticated and changes nothing else on the dashboard |
| App.AfterFetch | frontend/src/App.jsx:218-232 | loading ends false; success replaces the list and clears the error; failure keeps the list and sets the error; only a 401 logs out |
| App.AfterMutation | frontend/src/App.jsx:238-258 | a failed save or delete sets its error; a successful one is followed by a refetch |
| App.SaveRequest | frontend/src/App.jsx:240-244 | a note with a truthy id is updated under that id; otherwise it is created |
| App.EditedNoteUpdatesItsId | frontend/src/App.jsx:119-241 | editing a note and saving it sends a PUT for that very note's id |
| App.FreshNoteIsCreated | frontend/src/App.jsx:242-243 | a note without a current note is POSTed to /api/notes |
| App.Dashboard.HandleLogout | frontend/src/App.jsx:260-264 | the token is removed, the app is unauthenticated and the wallet adapter is reset |
| App.Dashboard.FetchNotes | frontend/src/App.jsx:218-232 | the dashboard follows `AfterFetch`; a 401 also removes the token and resets the wallet adapter |
| App.Dashboard.HandleSave | frontend/src/App.jsx:238-249 | sends `SaveRequest(note)`, then follows `AfterMutation` with "Failed to save note." |
| App.Dashboard.HandleDelete | frontend/src/App.jsx:251-258 | sends the delete request for the id, then follows `AfterMutation` with "Failed to delete note." |
| App.Dashboard.SendProofTransaction | frontend/src/App.jsx:266-301 | without a connection and signer nothing is sent and the error appears; otherwise a transaction to the wallet's own address ends in `ProofStatus` |
| App.UnauthorizedFetchLogsOut | frontend/src/App.jsx:225-228 | a 401 on fetch logs out and shows the fetch error |
| App.FailedMutationKeepsList | frontend/src/App.jsx:246-247 | a failed save or delete neither refetches nor logs out |
| App.InitialAuthenticated | frontend/src/App.jsx:413 | the app starts authenticated iff a non-empty token is stored |
| App.ReloadAfterSession | frontend/src/App.jsx:413 | after logout the app starts unauthenticated; after storing a non-empty token it starts authenticated |
| EthWallet.FirstAccount | frontend/src/useWallet.jsx:25 | `accounts[0]`, undefined on an empty list |
| EthWallet.AfterConnect | frontend/src/useWallet.jsx:14-35 | the flag is set iff access was granted; success sets provider, signer, first account and clears the error; failures set their message and keep provider, signer and address |
| EthWallet.AfterDisconnect | frontend/src/useWallet.jsx:38-44 | all five fields are reset |
| EthWallet.AfterAccountsChanged | frontend/src/useWallet.jsx:49-56 | a non-empty list sets the address and flag and leaves the signer; an empty list disconnects |
| EthWallet.TransitionsKeepSignerHasProvider | frontend/src/useWallet.jsx:23-24 | a signer is never held without its provider |
| EthWallet.DisconnectIdempotent | frontend/src/useWallet.jsx:38-44 | disconnecting twice equals once and gives the initial state |
| EthWallet.GrantedConnectForgetsHistory | frontend/src/useWallet.jsx:15-26 | a successful connect does not depend on earlier state, including an earlier error |
| EthWallet.ConnectedWithoutSigner | frontend/src/useWallet.jsx:49-53 | an account change can mark the adapter connected with no signer |
| EthWallet.Wallet.ConnectWallet | frontend/src/useWallet.jsx:14-35 | the fields become `AfterConnect` of the old state |
| EthWallet.Wallet.DisconnectWallet | frontend/src/useWallet.jsx:38-44 | the fields become `AfterDisconnect` |
| EthWallet.Wallet.HandleAccountsChanged | frontend/src/useWallet.jsx:49-56 | the fields become `AfterAccountsChanged` |
| CardanoWalletHook.AfterConnect | frontend/src/useCardanoWallet.jsx:14-47 | without Eternl only the error changes; `enable` is called iff no API is held and Eternl exists; a rejected enable sets its error text; otherwise the result is `AfterEnable` of the cleared state holding the API |
| CardanoWalletHook.AfterEnable | frontend/src/useCardanoWallet.jsx:29-45 | a falsy address sets its error and connects nothing; a readable one is shown and connects, and the fetched UTxOs are stored or the fetch error is shown; a failed address request sets its error text |
| CardanoWalletHook.AfterDisconnect | frontend/src/useCardanoWallet.jsx:49-56 | address, flag, UTxOs, hash, error and API handle are reset |
| CardanoWalletHook.AfterSend | frontend/src/useCardanoWallet.jsx:59-89 | not connected gives "Connect Cardano wallet first." with no call; the calls are build, submit of the built hex, and a UTxO refresh, in that order; the first failing call sets its error and returns null; on success the refreshed UTxOs and the submit reply's `txHash` are stored and that hash is returned |
| CardanoWalletHook.EnableAtMostOnce | frontend/src/useCardanoWallet.jsx:22-24 | after one successful enable, later connects reuse the API |
| CardanoWalletHook.FalsyAddressDoesNotConnect | frontend/src/useCardanoWallet.jsx:31-34 | a falsy change address leaves the flag and address as they were |
| CardanoWalletHook.UtxoFailureStaysConnected | frontend/src/useCardanoWallet.jsx:36-45 | a failed UTxO load leaves the adapter connected with its address and an error |
| CardanoWalletHook.DisconnectIdempotent | frontend/src/useCardanoWallet.jsx:49-56 | disconnecting twice equals once and gives the initial state |
| CardanoWalletHook.SendSucceedsIff | frontend/src/useCardanoWallet.jsx:65-88 | a hash is returned iff every call succeeds and the submit reply carries one; any failure sets an error and returns null |
| CardanoWalletHook.SubmitsBuiltHex | frontend/src/useCardanoWallet.jsx:67-74 | the hex the build returned is submitted unchanged |
| CardanoWalletHook.CardanoHook.ConnectWallet | frontend/src/useCardanoWallet.jsx:14-47 | the fields and the enable call follow `AfterConnect` |
| CardanoWalletHook.CardanoHook.DisconnectWallet | frontend/src/useCardanoWallet.jsx:49-56 | the fields become `AfterDisconnect` |
| CardanoWalletHook.CardanoHook.SendAda | frontend/src/useCardanoWallet.jsx:59-89 | the fields, the returned hash and the calls follow `AfterSend` |
| CardanoWallet.FirstPresent | frontend/src/cardanoWallet.js:19-26 | the first injected name in the list; none exactly when no name is injected |
| CardanoWallet.AfterDetect | frontend/src/cardanoWallet.js:13-30 | no `window.cardano` and no supported wallet each set their error and return null; otherwise the first injected wallet and its name are recorded and returned |
| CardanoWallet.DetectionOrder | frontend/src/cardanoWallet.js:3 | Eternl is preferred over Nami, Nami over Flint |
| CardanoWallet.ConnectErrorText | frontend/src/cardanoWallet.js:54-58 | code -3 or info containing "user canceled" gives "Connection canceled by user."; otherwise the message or "Failed to connect wallet." |
| CardanoWallet.AfterConnect | frontend/src/cardanoWallet.js:33-60 | a held wallet is reused, otherwise the one `detectWallet` returns is enabled and recorded; after enable the flag is set; the first address is stored, or "No addresses found in wallet."; a failed enable or address request sets `ConnectErrorText`; a failed enable changes nothing else, keeping the flag and the address |
| CardanoWallet.AfterDisconnect | frontend/src/cardanoWallet.js:63-67 | flag, address and error are reset; the wallet and its name are kept |
| CardanoWallet.DisconnectIdempotent | frontend/src/cardanoWallet.js:63-67 | disconnecting twice equals once |
| CardanoWallet.ConnectKeepsDetectedWallet | frontend/src/cardanoWallet.js:36 | once detected, every later connect enables the same wallet |
| CardanoWallet.Adapter.DetectWallet | frontend/src/cardanoWallet.js:13-30 | the loop over the three names ends in `AfterDetect` |
| CardanoWallet.Adapter.ConnectWallet | frontend/src/cardanoWallet.js:33-60 | the fields and the enabled wallet follow `AfterConnect` |
| CardanoWallet.Adapter.DisconnectWallet | frontend/src/cardanoWallet.js:63-67 | the fields become `AfterDisconnect` |
| EndToEnd.StoredTokenReachesFilter | frontend/src/api.js:18 | the token from a login reply, once stored, is what the filter's `substring(7)` reads from the header |
| EndToEnd.RoutesPastTheFilter | backend/mynotesapp/src/main/java/com/yankee/mynotesapp/config/JwtAuthFilter.java:31-35 | login and signup requests are skipped by the filter; every note request is inspected |
| EndToEnd.LoginTokenAuthenticates | backend/mynotesapp/src/main/java/com/yankee/mynotesapp/config/AuthController.java:80-90 | a token issued at login, sent by the client before it expires, authenticates the user it was issued for |
| EndToEnd.ClientSignupUsesEmail | frontend/src/api.js:37-39 | client signup stores the email as username, so logging in with that email finds the new user |

## Findings

| source | as written | input that shows it | evidently intended | confidence | as-written member | corrected member |
|---|---|---|---|---|---|---|
| backend/mynotesapp/src/main/java/com/yankee/mynotesapp/note/NoteController.java:42-45 | `createNote` saves the request body as given, and `save` merges a body that carries an id onto the stored row with that id | user A posts `{"id": k, "title": "x"}` where note k belongs to user B: note k is overwritten and now owned by A | create always inserts a new note and never touches stored notes, as update and delete refuse a caller who does not own the note | not executed; relies on Spring Data's `save` merging an entity whose id is set | NoteController.CreateSeizesNamedNote | NoteController.FreshCreateKeepsStoredNotes |

## Left out
- Users.UserRepository.Insert: the unique username is assumed from backend/mynotesapp/src/main/java/com/yankee/mynotesapp/model/User.java:20. The entity that signup saves is `com.yankee.mynotesapp.user.User`, which is not part of this model. So the refusal of a taken name, and `UniqueRows` with it (used by `Users.FindStoredUser` and `UserDetailsService.LoadStoredUser`), rest on that assumption.

- CardanoService is not part of this model. It is a Blockfrost REST client with a
  placeholder transaction and floating-point lovelace conversion. Its results are
  the `Service` parameter of `CardanoController`.
- Both SecurityConfig files and MyNotesAppApplication: framework wiring. That
  `/api/auth/**` is public and everything else needs authentication is not modelled.
- JWT signing and serialisation (HS512, key decoding, compact form) are the
  abstract codec. `Faithful` only assumes that parsing what was written gives it back.
- BCrypt hashing is the opaque `encode` parameter.
- UI components (Auth form, Dashboard, AuthForm, note rendering), ThemeContext and
  the CardanoPrepod page are presentation.
- useCardanoWallet.jsx imports `getCardanoUTxOs`, `submitCardanoTransaction` and
  `buildUnsignedCardanoTx`, which api.js does not export. They are modelled as the
  intended backend calls, each with an abstract outcome.
- Timing is not modelled: the 200 ms delay, React state batching and re-rendering,
  listener registration, ethers `parseEther`/`wait`, and the fact that `fetchNotes`
  is not awaited. Handlers run as sequential steps.
- NoteEditor's `useEffect` that reloads title and content when the current note
  changes is represented only by the `NoteEditor` constructor.
- Spring's check that a `User` has a non-empty username is not modelled.
- Case-insensitive HTTP header names are not modelled, nor database column lengths
  (42 and 100 characters for the wallet columns).
- A null email or password in the signup request is not modelled; only the
  username may be null.
- Console logging is not modelled.
- `NoteController.CreateNote`: a body carrying an id that is not stored is inserted under a generated id, which is how Hibernate before 6.6 merges such an entity; Hibernate 6.6 and later raise instead.
- `NoteController.NoteBody`: title and content are always present. A body without a title breaks the not-null title column (Note.java:22-23), and create or update then raise; that failure is not modelled.
- On-mount effects are not modelled: the dashboard's initial `fetchNotes` (App.jsx:234-236) and the Cardano adapter's initial `detectWallet` (cardanoWallet.js:70-72). The constructors give the state before these effects run.
- `Common.Decimal`: ids are unbounded naturals. A JavaScript number renders an id exactly only up to 2^53, and a Java `Long` holds at most 2^63 - 1.
- `Common.ParseDecimal`: reads unsigned digit strings of any length. Spring's conversion to `Long` also accepts a leading sign (a negative id then answers 404), and it refuses numerals above 2^63 - 1 with 400. The client only sends numerals of ids.
- `JwtAuthFilter.DoFilterInternal`: the web-authentication details attached to the token are not modelled.
- `JwtUtil.TokenClaims`: the two `currentTimeMillis` calls are one clock reading, as with one clock the source's expiration is issue time plus lifetime.
- `JwtUtil.ValidateToken`: reads the clock once for its two parses and `new Date()`. The filter gets separate readings for the guarded `extractUsername` and for `validateToken`.
- `NoteController.NotesOf`: returns a set. The order of the list JPA returns is not modelled.
- `App.ProofStatus`: a receipt that is itself null (making `receipt.status` throw) is not modelled.
- `App.Dashboard.SendProofTransaction`: the amount, a fixed 0.00000001 ether, is not modelled.
- `CardanoWalletHook.AfterSend`: the amount is passed through as a real number, without the floating-point semantics of a JavaScript number.

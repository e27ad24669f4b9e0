# PAL-AI backend core, modelled in Dafny

This project models the core of the PAL-AI REST backend, which is written in JavaScript.

- **The database connection pool** (`DatabasePool` in `src/db/connection.js`). `getConnection` does four things:
  - sweeps out connections that are no longer logged in;
  - hands out the first idle connection;
  - grows the pool below `MAX_POOL_SIZE`;
  - at capacity, drops the oldest entry and opens a replacement.

  `executeQuery` binds parameters by position (`param0`, `param1`, …). It collects the rows a request emits and retries a failed connection attempt up to three times, with a `500*k` ms backoff.
- **The one-time-code stores** of `src/services/verification.js`. These are three `Map`s, modelled as classes whose `entries` map the route handlers update in place:
  - the e-mail change OTP (`/verify-email-change`, `/confirm-email-change`);
  - the password-reset code (`/verify-email`, `/verify-otp`, `/resend-password-otp`, `/reset-password`);
  - the sign-up verification code, used by both sign-up routers (`/pre-signup`, `/complete-signup`, `/resend-verification-code`).
- **Request validation, query building and response shaping**:
  - the profile routes: the dynamic `UPDATE … SET` builder and the column-name keyed fetch;
  - the notification routes: status words, store defaults and row shaping;
  - the scan routes: ordered missing-field list, the two-insert chain, positional disease-info mapping;
  - the admin push routes: title capitalisation, token filtering, one message per token, success and failure counts.

Each route handler is a method. It takes the request fields as JavaScript values (`Js.Value`) and the outcome of each database call as a `Result<seq<Row>>`. It returns the HTTP status and message together with the queries it issued. The handlers that keep codes also update the store object they are given.

Other code and the environment become parameters of the model:

- bcrypt (`hash`, `compare`), whether nodemailer delivered the mail, the current time in milliseconds, the generated codes, and `createNewConnection`;
- the driver's event stream for a request;
- the Expo SDK's `isExpoPushToken`, `chunkPushNotifications` and `sendPushNotificationsAsync`.

JavaScript semantics the routes rely on are written out in module `Js`:

- truthiness and `||`;
- `toString`, `parseInt(·, 10)`, `Number(·) > 0` and `trim()`;
- the `TypeError` thrown by `.trim()`, `.toString()` and `.charAt()` on values that lack them.

Modules: `Js`, `Seqs` and `Sql` (shared value, sequence and query types); `DbPool` (connection.dfy); `Verification` (the three stores); `Credentials`, `ForgotPassword`, `SignupFlow` (the code-store state machine shared by both sign-up routers), `UserSignup`, `Signup`, `Profile`, `Notifications`, `Scan`, `Push`.

Where the behaviour described for the system and its code disagree, the model follows the code:

- `isExecuting` is read in `getConnection` but never set, so there is no busy tracking. The model proves that, for calls that do not overlap, a pool which starts empty never holds more than one connection (`DbPool.AcquireNeverGrowsPastOne`, `DbPool.ExecuteKeepsSingleConnection`). Overlapping calls, such as the three of the `Promise.all` in `/disease-info`, can each pass the length check before any of them pushes, and so open up to three connections; concurrency is left out (see "## Left out").
- The request promise is returned without `await`, so only connection failures are retried. An execution error goes straight to the caller (`DbPool.ExecuteRunsOnce`).
- The `if (connection)` clean-up in the `catch` of `executeQuery` can never run: `connection` is only assigned by a successful `getConnection`, and after that the loop returns. `DbPool.DatabasePool.ExecuteQuery` carries `assert false` in that branch. `DbPool.DatabasePool.RemoveConnection` models those lines on their own.
- Rows of a multi-statement script are returned as one flat list.
- `/reset-password` consults no reset code. Any caller who names a registered address gets its password replaced (`ForgotPassword.ResetPassword`).
- `/confirm-email-change` binds the raw `user_id` as the `Int` parameter, where the other routes use `parseInt`.
- `/verify-otp` compares the code before checking its expiry. `/confirm-email-change` checks the expiry first.

## Model

| member | source | states |
|---|---|---|
| Js.NatToString | src/routes/signupRoutes.js:9 | the decimal string of a natural number is non-empty, all digits, and has no leading zero unless it is "0" |
| Js.DigitsValueOfNatToString | src/routes/signupRoutes.js:9 | reading the decimal digits of `n.toString()` back gives `n` |
| Js.NatToStringInjective | src/routes/signupRoutes.js:9 | different numbers have different decimal strings |
| Js.NatToStringLength | src/routes/signupRoutes.js:9 | a number in `10^k .. 10^(k+1)-1` has exactly `k+1` digits |
| Js.TrimStartShape | src/userRoutes/credentialsRoutes.js:113 | the result is the suffix left after the leading white space, and starts with a non-space character or is empty |
| Js.TrimEndShape | src/userRoutes/credentialsRoutes.js:113 | the result is the prefix left before the trailing white space, and ends with a non-space character or is empty |
| Js.TrimIdempotent | src/userRoutes/credentialsRoutes.js:167 | trimming an already trimmed string changes nothing |
| Js.DigitPrefix | src/userRoutes/notificationsRoutes.js:9 | the leading digits of a string are a prefix of it |
| Js.ParseIntString | src/userRoutes/notificationsRoutes.js:9 | `parseInt(s, 10)` gives a number or NaN |
| Js.ParseIntOfNatToString | src/userRoutes/notificationsRoutes.js:9-11 | `parseInt` of the decimal string of `n` is `n`, so a numeric path parameter is never NaN |
| Js.ParseIntOfNum | src/userRoutes/credentialsRoutes.js:29 | `parseInt(n, 10)` of an integer is that integer |
| Js.ArrayStrings | src/userRoutes/credentialsRoutes.js:165 | `String` of an array joins its elements with commas: `[]` gives "", `[v]` gives the string of `v` (or "" for `null` and `undefined`), and two elements are separated by one comma |
| Js.ParseIntOfSingletonArray | src/userRoutes/credentialsRoutes.js:29 | `parseInt([n], 10)` is `n` and `[n].toString()` is the numeral of `n`, as for a JSON body whose id is a one-element array |
| Js.CallTrimTrimmed | src/userRoutes/credentialsRoutes.js:50 | the string `trim()` returns neither starts nor ends with white space, and trimming it again changes nothing |
| Js.StringToNumber | src/userRoutes/profileRoutes.js:158 | `Number(s)` gives a number or NaN, and 0 for a blank string |
| Js.ToNumber | src/userRoutes/profileRoutes.js:158 | the numeric conversion used by `>` gives a number or NaN |
| Js.StringToNumberOfNatToString | src/userRoutes/profileRoutes.js:158 | `Number` of a decimal string is the number |
| Sql.LastNamedFinds | src/userRoutes/profileRoutes.js:46-48 | keying a row by column name finds a value iff some column has that name, and the value found is the last such column's |
| Sql.LastNamedIsLast | src/userRoutes/profileRoutes.js:46-48 | a column with no later namesake is the one the key lookup returns |
| Sql.KeyByColName | src/userRoutes/profileRoutes.js:45-48 | the `forEach` that fills the dictionary leaves, for every name, the value of the last column with that name |
| DbPool.SweepShape | src/db/connection.js:105-114 | the swept pool holds exactly the logged-in entries, as a subsequence of the pool (relative order kept) |
| DbPool.SweepKeepsLoggedIn | src/db/connection.js:105-114 | a pool whose entries are all logged in is left as it is |
| DbPool.SweepIdempotent | src/db/connection.js:105-114 | sweeping a swept pool changes nothing |
| DbPool.SweepDistinct | src/db/connection.js:105-114 | sweeping keeps connection identities distinct |
| DbPool.FindAvailable | src/db/connection.js:117-118 | `find` returns the first entry that is logged in and not executing, or none exists |
| DbPool.FirstAvailableSurvivesSweep | src/db/connection.js:104-118 | the first available entry of the pool is the first available entry after the sweep |
| DbPool.NoneAvailableAfterSweep | src/db/connection.js:104-118 | with no available entry before the sweep there is none after it |
| DbPool.AcquireReusesFirstAvailable | src/db/connection.js:117-122 | with an available entry, `getConnection` returns the first one and leaves the swept pool unchanged |
| DbPool.AcquireGrows | src/db/connection.js:125-129 | below capacity with none available, a new connection is appended last and returned, so the pool grows by exactly one |
| DbPool.AcquireEvictsOldest | src/db/connection.js:133-145 | at capacity with none available, entry 0 is removed and the new connection appended, so the length is unchanged |
| DbPool.AcquireFailure | src/db/connection.js:125-145 | a failed `createNewConnection` is rethrown unchanged; at capacity the oldest entry is gone by then |
| DbPool.SweepPreservesInv | src/db/connection.js:105-114 | the sweep keeps the bookkeeping invariant: distinct identities, size at most `MAX_POOL_SIZE` |
| DbPool.DropOldestPreservesInv | src/db/connection.js:140 | removing entry 0 keeps the invariant and leaves room for one more |
| DbPool.ConnectPreservesInv | src/db/connection.js:126-127 | pushing a fresh connection below capacity keeps the invariant, and what is returned is a logged-in pool entry |
| DbPool.AcquirePreservesInv | src/db/connection.js:103-151 | `getConnection` never lets the pool exceed `MAX_POOL_SIZE`, and a returned connection is a logged-in entry of the new pool |
| DbPool.AcquireNeverGrowsPastOne | src/db/connection.js:117-122 | since `isExecuting` is never set, a non-empty swept pool hands out its first entry, and a pool of at most one stays so |
| DbPool.ParamNamesDistinct | src/db/connection.js:170 | different positions get different parameter names |
| DbPool.Bindings | src/db/connection.js:169-171 | parameter i is bound as `"param" + i` with its type and value unchanged, in list order |
| DbPool.BindParams | src/db/connection.js:169-171 | the `forEach` produces exactly those bindings |
| DbPool.SettleAtFirstTerminal | src/db/connection.js:173-184 | the request settles at its first completion or error: on completion it resolves with every row emitted before it, in order |
| DbPool.SettlePending | src/db/connection.js:162-187 | a request that never completes or fails leaves the promise pending |
| DbPool.CollectRows | src/db/connection.js:173-184 | the event loop computes that settlement |
| DbPool.ExecuteBackoff | src/db/connection.js:155-211 | at most three attempts are made; after failed attempt k the delay is `500*k` ms, and none follows the last |
| DbPool.ExecuteRethrowsLastError | src/db/connection.js:188-208 | when no request ran, every attempt failed to connect and the caller gets the third error unchanged |
| DbPool.ExecuteRunsOnce | src/db/connection.js:162-187 | once a request runs, its outcome is the caller's outcome, and it is not retried |
| DbPool.ExecutePreservesInv | src/db/connection.js:153-214 | `executeQuery` keeps the bookkeeping invariant: at most `maxPoolSize` entries, distinct identities, all below the next identity |
| DbPool.ExecuteKeepsSingleConnection | src/db/connection.js:153-214 | across `executeQuery`, no entry becomes flagged as executing, and a pool of at most one connection stays so |
| DbPool.DatabasePool.constructor | src/db/connection.js:9-16 | an empty pool with `MAX_POOL_SIZE = maxPoolSize \|\| 10` |
| DbPool.DatabasePool.ConnectionLost | src/db/connection.js:106 | the driver moving one connection out of LoggedIn changes that entry's state only |
| DbPool.DatabasePool.PushNewConnection | src/db/connection.js:126-127 | a fresh connection is pushed on success, nothing changes on failure |
| DbPool.DatabasePool.RemoveClosed | src/db/connection.js:105-114 | the backward splice loop leaves exactly the swept pool |
| DbPool.DatabasePool.GetConnection | src/db/connection.js:103-151 | the in-place method returns and leaves exactly what `Acquire` specifies |
| DbPool.ReuseScenario | src/db/connection.js:103-151 | a pool of size one opens connection 0 on the first call and hands the same connection back on the second without connecting again, keeping a single pooled connection |
| DbPool.DatabasePool.RemoveConnection | src/db/connection.js:192-203 | `indexOf` plus `splice` removes the held connection if present, and leaves every other entry untouched |
| DbPool.DatabasePool.Attempt | src/db/connection.js:159-187 | one pass of the retry loop either settles the call exactly as `Execute` does, or leaves it one failed attempt and one `500 * attempts` ms wait further on |
| DbPool.DatabasePool.ExecuteQuery | src/db/connection.js:153-214 | the loop's outcome, delays and final pool are exactly those of `Execute` from attempt 0 |
| Verification.OtpStorage.constructor | src/services/verification.js:6 | the e-mail change store starts empty |
| Verification.PasswordResetCodes.constructor | src/services/verification.js:5 | the reset-code store starts empty |
| Verification.VerificationCodes.constructor | src/services/verification.js:4 | the sign-up store starts empty |
| Credentials.CheckPassword | src/userRoutes/credentialsRoutes.js:33-58 | the password check passes iff the user exists with a hash and bcrypt accepts the trimmed password; otherwise 500, 404, 400 (no hash stored) or 401 |
| Credentials.ChangePassword | src/userRoutes/credentialsRoutes.js:11-98 | a falsy field gives 400 before any query; a hash over 255 characters gives 400 and no update; the update binds user id and new hash in order; 200 iff it ran |
| Credentials.ConfirmAndUpdate | src/userRoutes/credentialsRoutes.js:32-90 | an unknown user gives 404 and no update; the update runs iff the current password is confirmed and the new hash fits the column; 200 iff it ran and succeeded |
| Credentials.StoreNewHash | src/userRoutes/credentialsRoutes.js:59-90 | a failed hash is a server error, a hash over 255 characters gives 400, both without an update; otherwise one update binding the user id and the hash, and 200 with its message iff it succeeds |
| Credentials.CheckNewEmail | src/userRoutes/credentialsRoutes.js:104-123 | the trimmed address is looked up; the check passes iff the lookup succeeds with no row, and an address in use gives 400 "Email already in use" |
| Credentials.EmailChangeChecks | src/userRoutes/credentialsRoutes.js:104-162 | an address in use gives 400; the checks pass iff the address is free and the password is confirmed |
| Credentials.VerifyEmailChange | src/userRoutes/credentialsRoutes.js:101-191 | `{otp, trimmed newEmail, timestamp}` is stored under `user_id.toString()`, replacing any earlier entry, only after both checks pass |
| Credentials.ConfirmEmailChange | src/userRoutes/credentialsRoutes.js:194-268 | no entry gives 400 with the store unchanged; expiry (more than 600000 ms) is checked first and deletes; a wrong OTP keeps the entry; success binds user id and stored e-mail, then deletes |
| Credentials.EmailChangeScenario | src/userRoutes/credentialsRoutes.js:101-268 | an OTP confirmed within ten minutes updates the e-mail to the trimmed address and removes the entry |
| ForgotPassword.IssueResetCode | src/routes/forgotPasswordRoutes.js:14-62 | an unknown address gives 404 and stores nothing; otherwise `{code, now+15 min, first value}` overwrites any entry for the address |
| ForgotPassword.VerifyEmail | src/routes/forgotPasswordRoutes.js:11-70 | as above, for `/verify-email` |
| ForgotPassword.ResendPasswordOtp | src/routes/forgotPasswordRoutes.js:121-180 | `/resend-password-otp` issues a fresh code in exactly the same way |
| ForgotPassword.VerifyOtp | src/routes/forgotPasswordRoutes.js:73-118 | missing fields or no entry give 400; a wrong code keeps the entry even when expired; a right, expired code deletes it; success returns the stored user id and keeps the entry |
| ForgotPassword.ResetPassword | src/routes/forgotPasswordRoutes.js:183-234 | both fields are required; an unknown user gives 404; the update binds hash then user id |
| ForgotPassword.ResetScenario | src/routes/forgotPasswordRoutes.js:11-118 | a code issued for a registered address is accepted in time with the looked-up user id |
| ForgotPassword.ArrayEmailScenario | src/routes/forgotPasswordRoutes.js:85-90 | a code issued for `{"email": [address]}` is stored, yet a later request with another array holding the same address finds no entry and gets 400 with no user id, because a `Map` compares array keys by identity |
| SignupFlow.PreSignup | src/userRoutes/signupRoutes.js:11-87 | a taken e-mail gives 409 and stores nothing; otherwise the form plus code and `now+15 min` overwrite the entry for the e-mail |
| SignupFlow.CompleteSignup | src/userRoutes/signupRoutes.js:90-173 | no entry, a different code or `now > expiry` give 400 and leave the store; otherwise the stored form is registered as `Register` states, and the entry is deleted exactly when the answer is 201 |
| SignupFlow.Register | src/userRoutes/signupRoutes.js:107-164 | a failed hash is a server error before any query; otherwise one query, the script with its parameters; 201 with the first value of the first row iff the query succeeds and returns one, otherwise a server error |
| SignupFlow.ResendVerificationCode | src/userRoutes/signupRoutes.js:176-227 | no entry gives 400; otherwise only code and expiry are replaced and the form is kept |
| UserSignup.RegistrationParams | src/userRoutes/signupRoutes.js:114-153 | 14 parameters, the i-th being the column `@param i` fills in the script |
| UserSignup.AddressAndExperience | src/userRoutes/signupRoutes.js:138-153 | the address parameters are region, province, city, barangay in order, and the last is the years of experience |
| UserSignup.PreSignup | src/userRoutes/signupRoutes.js:11-87 | the user router's pre-signup, with the 409 and overwrite rules |
| UserSignup.CompleteSignup | src/userRoutes/signupRoutes.js:90-173 | one registration query, with the script and 14 parameters, iff the code is accepted and hashing succeeds; a 201 returns the new user id |
| UserSignup.ResendVerificationCode | src/userRoutes/signupRoutes.js:176-227 | the user router's resend, with the same rules |
| Signup.GenerateVerificationCode | src/routes/signupRoutes.js:8-10 | the code is the decimal string of `100000 + draw`: always six digits, no leading zero |
| Signup.CodesDistinct | src/routes/signupRoutes.js:8-10 | different draws give different codes |
| Signup.ShortForm | src/routes/signupRoutes.js:30-47 | this router stores no experience or address fields |
| Signup.RegistrationParams | src/routes/signupRoutes.js:103-132 | 9 parameters lining up with `@param0..@param8` |
| Signup.PreSignup | src/routes/signupRoutes.js:12-77 | 409 for a taken e-mail, otherwise the entry with a generated code and `now+15 min` |
| Signup.CompleteSignup | src/routes/signupRoutes.js:79-152 | the same rejection rules; on success one query with 9 parameters and the entry deleted |
| Signup.ResendVerificationCode | src/routes/signupRoutes.js:154-205 | no entry gives 400; otherwise only code and expiry change |
| Signup.CrossRouterScenario | src/routes/signupRoutes.js:12-77 | an entry stored by this router and completed by the user router binds `undefined` for the address and experience parameters |
| Profile.FetchProfile | src/userRoutes/profileRoutes.js:10-69 | the query binds `parseInt(userId)`; an error gives 500; an empty result gives 404; otherwise 200 with the first row keyed by column name |
| Profile.ShapeProfile | src/userRoutes/profileRoutes.js:45-60 | the dictionary-filling loop gives the profile of the first row |
| Profile.LookupIsField | src/userRoutes/profileRoutes.js:46-59 | reading the dictionary is reading the last column of that name |
| Profile.ProfileIgnoresOtherColumns | src/userRoutes/profileRoutes.js:46-60 | columns with other names do not change the profile |
| Profile.LaterColumnWins | src/userRoutes/profileRoutes.js:46-48 | appending a column sets the profile field its name feeds (any of the seven) to its value and leaves the other six fields as they were |
| Profile.Provided | src/userRoutes/profileRoutes.js:115-143 | only truthy fields are kept |
| Profile.ProvidedExact | src/userRoutes/profileRoutes.js:115-143 | the kept fields are exactly the truthy ones, in the fixed order firstname, lastname, birthdate, mobile_number, profile_image |
| Profile.LinedStep | src/userRoutes/profileRoutes.js:115-143 | one `if` of the builder keeps the SET items and the parameters lined up |
| Profile.AppendIfProvided | src/userRoutes/profileRoutes.js:115-143 | one `if` of the builder, in place |
| Profile.ConsiderEach | src/userRoutes/profileRoutes.js:109-143 | after the five `if` blocks, starting from `[userId]` and index 1, the SET items and parameters line up with the truthy fields in order |
| Profile.BuildUpdate | src/userRoutes/profileRoutes.js:108-153 | `params[0]` is the user id; each SET item `@param k` names `params[k]`, holding that field; `paramIndex == params.length`; the last item is `updated_at = GETDATE()` |
| Profile.PlaceholdersInRange | src/userRoutes/profileRoutes.js:110-143 | every placeholder index is in range and they increase |
| Profile.SetListNonEmpty | src/userRoutes/profileRoutes.js:145-153 | the SET list is never empty |
| Profile.UpdateProfile | src/userRoutes/profileRoutes.js:96-177 | a falsy user id gives 400 and no query; otherwise one query whose statement is the joined SET list: one `column = @param(k+1)` per truthy field in handler order, lined up with the bound parameters after the user id, then `updated_at = GETDATE()`; 200 iff the first value is greater than 0, otherwise 404 or 500 with their messages |
| Notifications.NotificationOf | src/userRoutes/notificationsRoutes.js:31-48 | a row maps to a notification iff it has `notification_id` and `title` columns |
| Notifications.NotificationDefaults | src/userRoutes/notificationsRoutes.js:38-46 | absent columns default to subtitle `''`, icon `'bell'`, colour `'gray'`, type `'general'`; `iconColor` is always white |
| Notifications.NotificationRead | src/userRoutes/notificationsRoutes.js:46 | read is true iff the `read` column is present and holds `true` |
| Notifications.PresentFalsyBodyKept | src/userRoutes/notificationsRoutes.js:40 | a present body column is used even when its value is null |
| Notifications.ShapeNotification | src/userRoutes/notificationsRoutes.js:32-48 | the keying loop gives that notification |
| Notifications.ShapeAll | src/userRoutes/notificationsRoutes.js:31-49 | one output per row, in order; a row without id or title throws |
| Notifications.FetchNotifications | src/userRoutes/notificationsRoutes.js:8-56 | a NaN user id gives 400 before any query; 200 with the shaped rows, otherwise 500 |
| Notifications.ReadAllBit | src/userRoutes/notificationsRoutes.js:67-72 | only `read-all` and `unread-all` are accepted, as 1 and 0 |
| Notifications.ReadOneBit | src/userRoutes/notificationsRoutes.js:110-115 | only `read` and `unread` are accepted, as 1 and 0 |
| Notifications.MarkAll | src/userRoutes/notificationsRoutes.js:59-99 | the id is checked before the status; a bad id or a bad status gives its 400 message and no query; the update binds the id and the bit; success and failure carry the message for `read` or `unread` |
| Notifications.MarkOne | src/userRoutes/notificationsRoutes.js:102-142 | the same for one notification: 400 and no query for a bad id or status, the update binding the id and the bit, and the 200 and 500 messages naming `read` or `unread` |
| Notifications.StoreParams | src/userRoutes/notificationsRoutes.js:153-166 | 7 parameters in placeholder order with the defaults `''`, `'bell'`, `'gray'`, `'general'` and null data |
| Notifications.StoreNotification | src/userRoutes/notificationsRoutes.js:145-175 | truthy `user_id` and `title` are required; 200 iff the insert succeeded |
| Notifications.DeleteNotification | src/userRoutes/notificationsRoutes.js:178-198 | the raw path id is bound; 200 iff the delete succeeded |
| Notifications.DeleteAllNotifications | src/userRoutes/notificationsRoutes.js:201-221 | the raw path id is bound; 200 iff the delete succeeded |
| Scan.LackingAmongExact | src/userRoutes/scanRoutes.js:38-49 | given which checks failed, the first n checks list exactly the failed fields among the first n, in order |
| Scan.MissingAmongExact | src/userRoutes/scanRoutes.js:38-49 | the first n checks list exactly the missing fields among the first n, in order |
| Scan.MissingExact | src/userRoutes/scanRoutes.js:38-49 | the list is a subsequence of scan_image, user_profile_id, disease_prediction_score, disease_prediction, holding exactly the missing ones |
| Scan.MissingFields | src/userRoutes/scanRoutes.js:38-49 | the four `push`es build that list |
| Scan.NoneMissing | src/userRoutes/scanRoutes.js:40-56 | nothing is missing iff image and profile id are truthy and score and prediction are not null or undefined (so 0 is accepted) |
| Scan.SaveScan | src/userRoutes/scanRoutes.js:34-116 | the 400 answer lists exactly the missing fields in the handler's order (`Missing`), and no insert runs; the history insert binds the first value the leaf insert returned; 201 returns that id |
| Scan.TreatmentsOfRows | src/userRoutes/scanRoutes.js:180-184 | one treatment per row, in order, from columns 0..2; None exactly when some row is too short, where `row[i].value` throws |
| Scan.MedicinesOfRows | src/userRoutes/scanRoutes.js:185-190 | one medicine per row, in order, from columns 0..3; None exactly when some row is too short |
| Scan.FetchDiseaseInfo | src/userRoutes/scanRoutes.js:119-201 | three queries, each binding `parseInt(classNumber)`, and the answer `DiseaseAnswer` describes |
| Scan.AnswerDiseaseInfo | src/userRoutes/scanRoutes.js:164-200 | any failed query gives 500 and an empty disease result 404, both without information; 200 exactly when the disease row has two columns and every treatment and medicine row maps, carrying that information |
| Push.UpperChar | src/adminRoutes/pushNotifications.js:41 | a lower-case ASCII letter becomes the upper-case letter at the same place in the alphabet, the result is never a lower-case ASCII letter, and every other character is kept |
| Push.Capitalize | src/adminRoutes/pushNotifications.js:41 | only the first character is upper-cased; the length and the rest are unchanged |
| Push.CapitalizeIdempotent | src/adminRoutes/pushNotifications.js:41 | capitalising twice is capitalising once |
| Push.PushTitle | src/adminRoutes/pushNotifications.js:35-41 | the title is `data.type`, or the default when it is falsy, capitalised; a non-string type throws |
| Push.FailedPlusDelivered | src/adminRoutes/pushNotifications.js:110-121 | every message is counted once, as failed or delivered |
| Push.CountsAddUp | src/adminRoutes/pushNotifications.js:110-128 | when the chunks partition the messages, failures plus deliveries equal the number of messages |
| Push.SendChunks | src/adminRoutes/pushNotifications.js:110-121 | the loop gathers the tickets of the chunks that were sent, and adds up the lengths of those whose send threw |
| Push.Notify | src/adminRoutes/pushNotifications.js:10-72 | a falsy user id gives 400; no row or a falsy token gives 404, not pushed; an invalid token gives 400; 200 sends one message with the defaults |
| Push.TokensOfColumns | src/adminRoutes/pushNotifications.js:89 | one token per row, from column 0; a row without columns throws |
| Push.ValidTokens | src/adminRoutes/pushNotifications.js:90 | every kept token is truthy and valid |
| Push.ValidTokensExact | src/adminRoutes/pushNotifications.js:89-90 | the valid tokens are exactly the truthy, valid ones, in their original order |
| Push.ValidTokensCount | src/adminRoutes/pushNotifications.js:89-90 | each valid token is kept exactly as many times as it is stored, and an invalid or falsy one not at all |
| Push.BroadcastMessages | src/adminRoutes/pushNotifications.js:100-107 | exactly one message per valid token, in the same order |
| Push.Recipients | src/adminRoutes/pushNotifications.js:80-94 | no row gives 404 and no valid token 400; a failed query or a row without columns is a server error; otherwise the valid tokens are the filtered first columns |
| Push.SendBroadcast | src/adminRoutes/pushNotifications.js:96-129 | one message per valid token with the capitalised title and the defaults; `failedCount` and the tickets are those of sending the chunks; `successCount = tokenCount - failedCount`, and it is not negative when the chunks partition the messages |
| Push.Broadcast | src/adminRoutes/pushNotifications.js:75-134 | reads every stored token with one query; no rows gives 404; no valid token gives 400; 200 reports `successCount = tokenCount - failedCount`, which is not negative when the chunks partition the messages |

Some members are definitions or proof steps and have no row of their own. Each definition below models the source lines given, and the rows named beside it state what it does:

- `DbPool.Sweep` (src/db/connection.js:104-114): `SweepShape`, `SweepIdempotent`, `SweepDistinct`, `SweepPreservesInv`.
- `DbPool.Acquire` (`getConnection`, src/db/connection.js:103-151): `AcquireReusesFirstAvailable`, `AcquireGrows`, `AcquireEvictsOldest`, `AcquireFailure`, `AcquirePreservesInv`.
- `DbPool.Settle` (the request's event handlers, src/db/connection.js:162-187): `SettleAtFirstTerminal`, `SettlePending`.
- `DbPool.Execute` (`executeQuery`, src/db/connection.js:153-214): `ExecuteBackoff`, `ExecuteRethrowsLastError`, `ExecuteRunsOnce`, `ExecutePreservesInv`, `ExecuteKeepsSingleConnection`.
- `Js.ToJsString`, `Js.IntToString` and `Js.CallToString` (`String(v)` and `v.toString()`): `NatToString`, `ParseIntOfNum`, `ArrayStrings`, `ParseIntOfSingletonArray`.
- `Js.Trim` (`String.prototype.trim`): `TrimStartShape`, `TrimEndShape`, `TrimIdempotent`, `CallTrimTrimmed`.
- `Js.ParseInt` (`parseInt(v, 10)`): `ParseIntString`, `ParseIntOfNum`, `ParseIntOfSingletonArray`.
- `Profile.ProfileOf` (the profile object of `/fetch-profile`, src/userRoutes/profileRoutes.js:44-60): `ShapeProfile`, `LookupIsField`, `ProfileIgnoresOtherColumns`, `LaterColumnWins`.
- `Credentials.OtpExpired` (the ten-minute test of `/confirm-email-change`): `ConfirmEmailChange`.
- `Scan.MissingAmong`, `Scan.LackingAmong` and `Scan.Lacks` (the four checks of `/save`): `LackingAmongExact`, `MissingAmongExact`.
- `Scan.TreatmentsOf` and `Scan.MedicinesOf` (the two `map`s of `/disease-info`): `TreatmentsOfRows`, `MedicinesOfRows`.
- `Push.TokensOf` (`usersResult.map(row => row[0].value)`): `TokensOfColumns`.
- `Push.FailedOf` (the failure count of the send loop): `FailedPlusDelivered`, `CountsAddUp`, `SendChunks`.
- `Sql.FirstValue` (the first column of the first row) and `Credentials.StoredHash` (the truthy first column of the lookup) are read off their own ensures.
- `DbPool.SweepStep`, `DbPool.ExecuteStep` and `DbPool.ExecuteState` are single steps and packed states of the pool functions above.

## Left out

- Driver and network work are not modelled: `createNewConnection` with its configuration literals (src/db/connection.js:18-101) and tedious's `execSql`. They are a connection outcome and a function giving the request's event stream. The `setTimeout` sleep is left out; only its delay value is computed.
- Concurrency is not modelled: interleaved `executeQuery` calls, and the `Promise.all` of `/disease-info`, which is modelled as three results available together.
- bcrypt, `genSalt`, nodemailer, the Expo SDK, `Math.random` and the clock are parameters.
- Google Cloud Storage uploads and multer (`/upload`, `/upload-profile`) are not part of this model.
- Floats, dates and JSON are not modelled:
  - `parseFloat` of the score is kept as an unevaluated parameter value;
  - `new Date(...)` and `Date.now()` for the notification timestamp, and the `timestamp` and `data` fields of a shaped notification, are left out;
  - `JSON.stringify` and `JSON.parse`, and their failures, are left out;
  - `GETDATE()` is left to the database.
- `/delete-account` (src/userRoutes/credentialsRoutes.js:271-361) is not part of this model. It repeats the password check of the modelled routes.
- `generateVerificationCode` from `src/utils` is not part of this model. The user router's handlers take the code as a parameter.
- A request that never settles leaves its route waiting forever; the route handlers of the model are given settled results only.
- Push.UpperChar: `toUpperCase` is modelled for ASCII letters only; other case mappings (such as one character becoming two) are not.
- Js.ToJsString: JavaScript numbers are modelled as unbounded integers (`Num(n: int)`), not IEEE doubles. Fractions cannot be written, integers above 2^53 are not rounded, and `String(n)` does not switch to exponent form from 1e21 on.
- Js.IntToString: the same limit applies; the decimal string of `n` is given for every integer, including those where `String(n)` would use exponent form.
- Js.ParseIntOfNum: `parseInt(n, 10)` is proved to give back `n` for every integer. For a double this holds only up to 1e21, above which the string has an exponent and `parseInt` stops at the `e`. The SQL `Int` parameters these values are bound to are 32-bit; the model does not bound them.
- Js.CallToString: an object other than an array converts to "[object Object]". An object that carries its own `toString` or `valueOf` key, which makes `String(v)` or `v.toString()` return another string or throw, is not modelled.
- Js.Value: the identity of an array or object in a request body is part of the value the handler is given; the model does not require that two requests carry different identities, as two fresh JavaScript arrays always do.
- Js.IsSpace: `trim()` and `parseInt` skip the ASCII white space, no-break space and the byte-order mark; the other Unicode space and line-separator characters are not modelled.
- Js.StringToNumber: `Number(…)` is modelled for blank strings and signed decimal-digit strings with surrounding white space; every other string is NaN. Decimals, exponents, hex and `Infinity` are not modelled; the row count it is used on is an integer.
- DbPool.DatabasePool.ConnectionLost: the driver's state changes are an extra method, because the source has no code of its own for them.
- Scan.SaveScan: the missing fields are returned as an enumeration. `Scan.FieldName` gives the strings the response carries.
- Scan.TreatmentsOfRows: the mapping is proved row by row; a lemma about concatenated results is not included.
- Push.Broadcast: `successCount = tokenCount - failedCount` always holds, so the counts always add up. That `successCount` is not negative is proved only when the chunker partitions the messages (the Expo chunker does); an arbitrary chunker could report more failures than tokens.
- Push.Notify: `data?.type` is a parameter, because property access on arbitrary objects is not modelled.

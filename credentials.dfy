/** The credential routes of src/userRoutes/credentialsRoutes.js: changing the
    password, and the two-step e-mail change whose one-time codes live in
    `otpStorage`. The database, bcrypt and the mailer are the caller's: each
    query's outcome, `bcrypt.compare`, `bcrypt.hash` and whether `sendMail`
    succeeded are parameters. */
module Credentials {
  import opened Js
  import opened Sql
  import opened Verification

  const SelectPassword := "SELECT password FROM user_credentials WHERE user_id = @param0"
  const UpdatePassword := "UPDATE user_credentials SET password = @param1, updated_at = GETDATE() WHERE user_id = @param0"
  const SelectEmail := "SELECT email FROM user_profiles WHERE email = @param0"
  const SelectCredentials := "SELECT uc.password, up.email FROM user_credentials uc JOIN user_profiles up ON uc.user_id = up.user_id WHERE uc.user_id = @param0"
  const UpdateEmail := "UPDATE user_profiles SET email = @param1, updated_at = GETDATE() WHERE user_id = @param0"

  /** The longest password hash the `varchar(255)` column holds. */
  const MaxHashLength: nat := 255

  /** The stored hash read by a password lookup, when the lookup returned a
      row with a truthy first column. */
  function StoredHash(lookup: Result<seq<Row>>): (r: Option<Value>)
    ensures r.Some? <==> lookup.Ok? && FirstValue(lookup.value).Some? && Truthy(FirstValue(lookup.value).value)
    ensures r.Some? ==> r.value == lookup.value[0][0].value
  {
    if lookup.Ok? && FirstValue(lookup.value).Some? && Truthy(FirstValue(lookup.value).value)
    then FirstValue(lookup.value) else None
  }

  /** The lookup found a user with a password hash and `bcrypt.compare` of the
      trimmed `password` against it resolved to true. */
  predicate PasswordConfirmed(lookup: Result<seq<Row>>, password: Value, compare: (string, Value) -> Option<bool>) {
    && StoredHash(lookup).Some?
    && CallTrim(password).Some?
    && compare(CallTrim(password).value, StoredHash(lookup).value) == Some(true)
  }

  /** The hash of the trimmed new password, when trimming and hashing succeed. */
  function NewHash(newPassword: Value, hash: Value -> Option<string>): Option<string> {
    match CallTrim(newPassword)
    case None => None
    case Some(t) => hash(Str(t))
  }

  /** The password check shared by the credential routes: the lookup must
      succeed with a row whose first column holds a hash, and the trimmed
      `password` must match it. A failed query, a row without columns, a
      non-string password or a rejected comparison is a server error. */
  method CheckPassword(lookup: Result<seq<Row>>, password: Value, compare: (string, Value) -> Option<bool>,
                       serverError: Response, incorrect: Response)
    returns (failure: Option<Response>)
    ensures failure.None? <==> PasswordConfirmed(lookup, password, compare)
    ensures lookup.Err? ==> failure == Some(serverError)
    ensures lookup.Ok? && lookup.value == [] ==> failure == Some(Response(404, "User not found"))
    ensures lookup.Ok? && FirstValue(lookup.value).Some? && !Truthy(FirstValue(lookup.value).value) ==>
              failure == Some(Response(400, "Password not set for this user"))
    ensures StoredHash(lookup).Some? && CallTrim(password).Some? &&
            compare(CallTrim(password).value, StoredHash(lookup).value) == Some(false) ==>
              failure == Some(incorrect)
    ensures failure.Some? ==> || failure.value == serverError || failure.value == incorrect
                              || failure.value == Response(404, "User not found")
                              || failure.value == Response(400, "Password not set for this user")
  {
    if lookup.Err? {
      return Some(serverError);
    }
    if |lookup.value| == 0 {
      return Some(Response(404, "User not found"));
    }
    var storedHash := FirstValue(lookup.value);
    if storedHash.None? {
      return Some(serverError);
    }
    if !Truthy(storedHash.value) {
      return Some(Response(400, "Password not set for this user"));
    }
    var plain := CallTrim(password);
    if plain.None? {
      return Some(serverError);
    }
    var isValid := compare(plain.value, storedHash.value);
    if isValid.None? {
      return Some(serverError);
    }
    if !isValid.value {
      return Some(incorrect);
    }
    failure := None;
  }

  /** `POST /change-password` */
  method ChangePassword(userId: Value, currentPassword: Value, newPassword: Value,
                        lookup: Result<seq<Row>>, compare: (string, Value) -> Option<bool>,
                        hash: Value -> Option<string>, update: Result<seq<Row>>)
    returns (resp: Response, queries: seq<Query>)
    // a missing field is refused before any query
    ensures !Truthy(userId) || !Truthy(currentPassword) || !Truthy(newPassword) ==>
              resp == Response(400, "All fields are required") && queries == []
    ensures Truthy(userId) && Truthy(currentPassword) && Truthy(newPassword) ==>
              |queries| >= 1 && queries[0] == Query(SelectPassword, [P(Int, ParseInt(userId))])
    ensures lookup.Ok? && lookup.value == [] && |queries| >= 1 ==> resp.status == 404 && |queries| == 1
    // a hash that does not fit the column is refused and nothing is updated
    ensures |queries| >= 1 && PasswordConfirmed(lookup, currentPassword, compare) &&
            NewHash(newPassword, hash).Some? && |NewHash(newPassword, hash).value| > MaxHashLength ==>
              resp == Response(400, "Generated password hash is too long") && |queries| == 1
    // the update binds the user id and the new hash, in placeholder order
    ensures |queries| == 2 <==>
              && Truthy(userId) && Truthy(currentPassword) && Truthy(newPassword)
              && PasswordConfirmed(lookup, currentPassword, compare)
              && NewHash(newPassword, hash).Some? && |NewHash(newPassword, hash).value| <= MaxHashLength
    ensures |queries| == 2 ==>
              queries[1] == Query(UpdatePassword, [P(Int, ParseInt(userId)), P(VarChar, Str(NewHash(newPassword, hash).value))])
    ensures resp.status == 200 <==> |queries| == 2 && update.Ok?
    ensures |queries| <= 2
  {
    if !Truthy(userId) || !Truthy(currentPassword) || !Truthy(newPassword) {
      return Response(400, "All fields are required"), [];
    }
    var updates;
    resp, updates := ConfirmAndUpdate(userId, currentPassword, newPassword, lookup, compare, hash, update);
    queries := [Query(SelectPassword, [P(Int, ParseInt(userId))])] + updates;
  }

  /** What `/change-password` does with the lookup of the stored hash: check
      the current password, then hash and store the new one. */
  method ConfirmAndUpdate(userId: Value, currentPassword: Value, newPassword: Value,
                          lookup: Result<seq<Row>>, compare: (string, Value) -> Option<bool>,
                          hash: Value -> Option<string>, update: Result<seq<Row>>)
    returns (resp: Response, updates: seq<Query>)
    ensures lookup.Ok? && lookup.value == [] ==> resp == Response(404, "User not found") && updates == []
    ensures PasswordConfirmed(lookup, currentPassword, compare) &&
            NewHash(newPassword, hash).Some? && |NewHash(newPassword, hash).value| > MaxHashLength ==>
              resp == Response(400, "Generated password hash is too long") && updates == []
    ensures |updates| == 1 <==>
              && PasswordConfirmed(lookup, currentPassword, compare)
              && NewHash(newPassword, hash).Some? && |NewHash(newPassword, hash).value| <= MaxHashLength
    ensures |updates| == 1 ==>
              updates[0] == Query(UpdatePassword, [P(Int, ParseInt(userId)), P(VarChar, Str(NewHash(newPassword, hash).value))])
    ensures resp.status == 200 <==> |updates| == 1 && update.Ok?
    ensures |updates| <= 1
  {
    var serverError := Response(500, "Internal server error during password change");
    var failure := CheckPassword(lookup, currentPassword, compare, serverError,
                                 Response(401, "Current password is incorrect"));
    if failure.Some? {
      return failure.value, [];
    }
    resp, updates := StoreNewHash(userId, newPassword, hash, update, serverError);
  }

  /** The second half of `/change-password`, once the current password is
      confirmed: hash the trimmed new password, refuse a hash longer than the
      column, and otherwise update it. */
  method StoreNewHash(userId: Value, newPassword: Value, hash: Value -> Option<string>,
                      update: Result<seq<Row>>, serverError: Response)
    returns (resp: Response, updates: seq<Query>)
    requires serverError.status != 200
    ensures NewHash(newPassword, hash).None? ==> resp == serverError && updates == []
    ensures NewHash(newPassword, hash).Some? && |NewHash(newPassword, hash).value| > MaxHashLength ==>
              resp == Response(400, "Generated password hash is too long") && updates == []
    ensures NewHash(newPassword, hash).Some? && |NewHash(newPassword, hash).value| <= MaxHashLength ==>
              updates == [Query(UpdatePassword, [P(Int, ParseInt(userId)), P(VarChar, Str(NewHash(newPassword, hash).value))])]
    ensures resp.status == 200 <==> |updates| == 1 && update.Ok?
    ensures resp.status == 200 ==> resp.message == "Password successfully updated"
    ensures |updates| == 1 && update.Err? ==> resp == serverError
  {
    var newHash := NewHash(newPassword, hash);
    if newHash.None? {
      return serverError, [];
    }
    if |newHash.value| > MaxHashLength {
      return Response(400, "Generated password hash is too long"), [];
    }
    updates := [Query(UpdatePassword, [P(Int, ParseInt(userId)), P(VarChar, Str(newHash.value))])];
    if update.Err? {
      return serverError, updates;
    }
    resp := Response(200, "Password successfully updated");
  }

  /** The e-mail address is free: the lookup succeeded and found no row. */
  predicate EmailFree(emailCheck: Result<seq<Row>>) {
    emailCheck.Ok? && emailCheck.value == []
  }

  /** Everything `/verify-email-change` checks before it stores an OTP. */
  predicate MayStoreOtp(userId: Value, password: Value, newEmail: Value, emailCheck: Result<seq<Row>>,
                        lookup: Result<seq<Row>>, compare: (string, Value) -> Option<bool>) {
    && CallTrim(newEmail).Some?
    && EmailFree(emailCheck)
    && PasswordConfirmed(lookup, password, compare)
    && CallToString(userId).Some?
  }

  /** The first check of `/verify-email-change`: the trimmed address is
      looked up and must not be in use. */
  method CheckNewEmail(newEmail: Value, emailCheck: Result<seq<Row>>, serverError: Response)
    returns (failure: Option<Response>, queries: seq<Query>)
    ensures failure.None? <==> CallTrim(newEmail).Some? && EmailFree(emailCheck)
    ensures failure.Some? ==> failure.value in {serverError, Response(400, "Email already in use")}
    ensures CallTrim(newEmail).Some? && emailCheck.Ok? && emailCheck.value != [] ==>
              failure == Some(Response(400, "Email already in use"))
    ensures CallTrim(newEmail).None? ==> queries == []
    ensures CallTrim(newEmail).Some? ==> queries == [Query(SelectEmail, [P(VarChar, Str(CallTrim(newEmail).value))])]
  {
    queries := [];
    var trimmed := CallTrim(newEmail);
    if trimmed.None? {
      return Some(serverError), queries;
    }
    queries := [Query(SelectEmail, [P(VarChar, Str(trimmed.value))])];
    if emailCheck.Err? {
      return Some(serverError), queries;
    }
    if |emailCheck.value| > 0 {
      return Some(Response(400, "Email already in use")), queries;
    }
    failure := None;
  }

  /** The checks of `/verify-email-change` before an OTP is stored: the
      trimmed address must be unused, and the password must match. */
  method EmailChangeChecks(userId: Value, password: Value, newEmail: Value,
                           emailCheck: Result<seq<Row>>, lookup: Result<seq<Row>>,
                           compare: (string, Value) -> Option<bool>, serverError: Response)
    returns (failure: Option<Response>, queries: seq<Query>)
    ensures failure.None? <==> MayStoreOtp(userId, password, newEmail, emailCheck, lookup, compare)
    ensures failure.Some? ==> failure.value in {serverError, Response(400, "Email already in use"),
                                                Response(401, "Current password is incorrect"),
                                                Response(404, "User not found"),
                                                Response(400, "Password not set for this user")}
    ensures CallTrim(newEmail).Some? && emailCheck.Ok? && emailCheck.value != [] ==>
              failure == Some(Response(400, "Email already in use")) && |queries| == 1
    ensures CallTrim(newEmail).Some? ==>
              |queries| >= 1 && queries[0] == Query(SelectEmail, [P(VarChar, Str(CallTrim(newEmail).value))])
    ensures |queries| == 2 <==> CallTrim(newEmail).Some? && EmailFree(emailCheck)
    ensures |queries| == 2 ==> queries[1] == Query(SelectCredentials, [P(Int, ParseInt(userId))])
    ensures |queries| <= 2
  {
    failure, queries := CheckNewEmail(newEmail, emailCheck, serverError);
    if failure.Some? {
      return;
    }
    queries := queries + [Query(SelectCredentials, [P(Int, ParseInt(userId))])];
    failure := CheckPassword(lookup, password, compare, serverError,
                             Response(401, "Current password is incorrect"));
    if failure.None? && CallToString(userId).None? {
      failure := Some(serverError);
    }
  }

  /** `POST /verify-email-change`: `otp` is the freshly generated code and
      `now` the clock reading `Date.now()` returns. */
  method VerifyEmailChange(store: OtpStorage, userId: Value, password: Value, newEmail: Value,
                           emailCheck: Result<seq<Row>>, lookup: Result<seq<Row>>,
                           compare: (string, Value) -> Option<bool>, otp: string, now: int, mailSent: bool)
    returns (resp: Response, queries: seq<Query>)
    modifies store
    // the entry is written, replacing any earlier one, only once both checks pass
    ensures MayStoreOtp(userId, password, newEmail, emailCheck, lookup, compare) ==>
              store.entries == old(store.entries)[CallToString(userId).value := OtpEntry(otp, CallTrim(newEmail).value, now)]
    ensures !MayStoreOtp(userId, password, newEmail, emailCheck, lookup, compare) ==>
              store.entries == old(store.entries)
    ensures resp.status == 200 <==> MayStoreOtp(userId, password, newEmail, emailCheck, lookup, compare) && mailSent
  {
    var serverError := Response(500, "Internal server error during verification");
    var failure;
    failure, queries := EmailChangeChecks(userId, password, newEmail, emailCheck, lookup, compare, serverError);
    if failure.Some? {
      return failure.value, queries;
    }
    var key := CallToString(userId).value;
    store.entries := store.entries[key := OtpEntry(otp, CallTrim(newEmail).value, now)];
    if !mailSent {
      return serverError, queries;
    }
    resp := Response(200, "OTP sent successfully");
  }

  /** An e-mail change OTP is expired once more than ten minutes have passed;
      at exactly ten minutes it is still valid. */
  predicate OtpExpired(entry: OtpEntry, now: int) {
    now - entry.timestamp > OtpLifetime
  }

  /** `POST /confirm-email-change` */
  method ConfirmEmailChange(store: OtpStorage, userId: Value, otp: Value, now: int, update: Result<seq<Row>>)
    returns (resp: Response, queries: seq<Query>)
    modifies store
    ensures CallToString(userId).None? ==> resp.status == 500 && store.entries == old(store.entries) && queries == []
    ensures CallToString(userId).Some? && CallToString(userId).value !in old(store.entries) ==>
              resp == Response(400, "No OTP request found") && store.entries == old(store.entries) && queries == []
    ensures CallToString(userId).Some? && CallToString(userId).value in old(store.entries) ==>
              var key := CallToString(userId).value;
              var entry := old(store.entries)[key];
              // expiry is checked first, and an expired entry is deleted
              && (OtpExpired(entry, now) ==>
                    resp == Response(400, "OTP has expired") && store.entries == old(store.entries) - {key} && queries == [])
              // a wrong code is refused and the entry kept
              && (!OtpExpired(entry, now) && otp != Str(entry.otp) ==>
                    resp == Response(400, "Invalid OTP") && store.entries == old(store.entries) && queries == [])
              // a right code updates the e-mail to the stored address, then the entry is deleted
              && (!OtpExpired(entry, now) && otp == Str(entry.otp) ==>
                    && queries == [Query(UpdateEmail, [P(Int, userId), P(VarChar, Str(entry.newEmail))])]
                    && (update.Ok? ==> resp == Response(200, "Email updated successfully") && store.entries == old(store.entries) - {key})
                    && (update.Err? ==> resp.status == 500 && store.entries == old(store.entries)))
  {
    var serverError := Response(500, "Internal server error during email change");
    queries := [];
    var key := CallToString(userId);
    if key.None? {
      return serverError, queries;
    }
    if key.value !in store.entries {
      return Response(400, "No OTP request found"), queries;
    }
    var storedData := store.entries[key.value];
    if now - storedData.timestamp > OtpLifetime {
      store.entries := store.entries - {key.value};
      return Response(400, "OTP has expired"), queries;
    }
    if Str(storedData.otp) != otp {
      return Response(400, "Invalid OTP"), queries;
    }
    queries := [Query(UpdateEmail, [P(Int, userId), P(VarChar, Str(storedData.newEmail))])];
    if update.Err? {
      return serverError, queries;
    }
    store.entries := store.entries - {key.value};
    resp := Response(200, "Email updated successfully");
  }

  /** The two steps together: an OTP issued for a numeric user id is accepted
      within ten minutes, the e-mail is updated to the trimmed address, and
      the entry is gone afterwards. */
  method EmailChangeScenario(store: OtpStorage, id: nat, password: string, newEmail: string,
                             lookup: Result<seq<Row>>, compare: (string, Value) -> Option<bool>,
                             otp: string, issuedAt: int, confirmedAt: int)
    returns (resp: Response, queries: seq<Query>)
    requires PasswordConfirmed(lookup, Str(password), compare)
    requires issuedAt <= confirmedAt <= issuedAt + OtpLifetime
    modifies store
    ensures resp.status == 200
    ensures queries == [Query(UpdateEmail, [P(Int, Num(id)), P(VarChar, Str(Trim(newEmail)))])]
    ensures NatToString(id) !in store.entries
  {
    var first, _ := VerifyEmailChange(store, Num(id), Str(password), Str(newEmail), Ok([]), lookup,
                                      compare, otp, issuedAt, true);
    assert first.status == 200;
    assert store.entries[NatToString(id)] == OtpEntry(otp, Trim(newEmail), issuedAt);
    resp, queries := ConfirmEmailChange(store, Num(id), Str(otp), confirmedAt, Ok([]));
  }
}

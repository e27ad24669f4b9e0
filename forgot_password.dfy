/** The password-reset routes of src/routes/forgotPasswordRoutes.js. A reset
    code is issued for a known e-mail address and kept in `passwordResetCodes`
    for fifteen minutes; `/verify-otp` checks it; `/reset-password` sets the
    new hash. The database lookup, `bcrypt.hash`, the generated code, the
    clock and whether `sendMail` succeeded are parameters. */
module ForgotPassword {
  import opened Js
  import opened Sql
  import opened Verification

  const SelectUserIdN := "SELECT user_id FROM user_profiles WHERE email = @param0"
  const UpdatePasswordByUser := "UPDATE user_credentials SET password = @param0, updated_at = GETDATE() WHERE user_id = @param1"

  /** A code can be issued: the lookup found a row and its first column can be read. */
  predicate CanIssue(lookup: Result<seq<Row>>) {
    lookup.Ok? && FirstValue(lookup.value).Some?
  }

  /** The shared body of `/verify-email` and `/resend-password-otp`: look the
      address up, store a fresh code with a fifteen-minute expiry and the
      user id from the first column of the first row, then mail the code. */
  method IssueResetCode(store: PasswordResetCodes, email: Value, lookup: Result<seq<Row>>,
                        resetCode: string, now: int, mailSent: bool, sent: Response, serverError: Response)
    returns (resp: Response, queries: seq<Query>)
    requires sent.status == 200 && serverError.status == 500
    modifies store
    ensures queries == [Query(SelectUserIdN, [P(NVarChar, email)])]
    // an unknown address is refused and nothing is stored
    ensures lookup.Ok? && lookup.value == [] ==>
              resp == Response(404, "No account found with this email address") && store.entries == old(store.entries)
    // otherwise the entry overwrites any earlier one for the same address
    ensures CanIssue(lookup) ==>
              store.entries == old(store.entries)[email := ResetEntry(resetCode, now + CodeLifetime, lookup.value[0][0].value)]
    ensures !CanIssue(lookup) ==> store.entries == old(store.entries)
    ensures resp.status == 200 <==> CanIssue(lookup) && mailSent
    ensures resp.status == 200 ==> resp == sent
  {
    queries := [Query(SelectUserIdN, [P(NVarChar, email)])];
    if lookup.Err? {
      return serverError, queries;
    }
    if |lookup.value| == 0 {
      return Response(404, "No account found with this email address"), queries;
    }
    var userId := FirstValue(lookup.value);
    if userId.None? {
      return serverError, queries;
    }
    store.entries := store.entries[email := ResetEntry(resetCode, now + CodeLifetime, userId.value)];
    if !mailSent {
      return serverError, queries;
    }
    resp := sent;
  }

  /** `POST /verify-email` */
  method VerifyEmail(store: PasswordResetCodes, email: Value, lookup: Result<seq<Row>>,
                     resetCode: string, now: int, mailSent: bool)
    returns (resp: Response, queries: seq<Query>)
    modifies store
    ensures queries == [Query(SelectUserIdN, [P(NVarChar, email)])]
    ensures lookup.Ok? && lookup.value == [] ==> resp.status == 404 && store.entries == old(store.entries)
    ensures CanIssue(lookup) ==>
              store.entries == old(store.entries)[email := ResetEntry(resetCode, now + CodeLifetime, lookup.value[0][0].value)]
    ensures !CanIssue(lookup) ==> store.entries == old(store.entries)
    ensures resp.status == 200 <==> CanIssue(lookup) && mailSent
  {
    resp, queries := IssueResetCode(store, email, lookup, resetCode, now, mailSent,
                                    Response(200, "Password reset code sent to your email"),
                                    Response(500, "Server error during password reset request"));
  }

  /** `POST /resend-password-otp`: the same as `/verify-email`, so a resend
      replaces the code, the expiry and the user id together. */
  method ResendPasswordOtp(store: PasswordResetCodes, email: Value, lookup: Result<seq<Row>>,
                           resetCode: string, now: int, mailSent: bool)
    returns (resp: Response, queries: seq<Query>)
    modifies store
    ensures queries == [Query(SelectUserIdN, [P(NVarChar, email)])]
    ensures lookup.Ok? && lookup.value == [] ==> resp.status == 404 && store.entries == old(store.entries)
    ensures CanIssue(lookup) ==>
              store.entries == old(store.entries)[email := ResetEntry(resetCode, now + CodeLifetime, lookup.value[0][0].value)]
    ensures !CanIssue(lookup) ==> store.entries == old(store.entries)
    ensures resp.status == 200 <==> CanIssue(lookup) && mailSent
  {
    resp, queries := IssueResetCode(store, email, lookup, resetCode, now, mailSent,
                                    Response(200, "New password reset code sent to your email"),
                                    Response(500, "Server error during OTP resend"));
  }

  /** `POST /verify-otp`: on success the stored user id is returned. */
  method VerifyOtp(store: PasswordResetCodes, email: Value, otp: Value, now: int)
    returns (resp: Response, userId: Option<Value>)
    modifies store
    ensures !Truthy(email) || !Truthy(otp) ==>
              resp == Response(400, "Email and OTP are required") && store.entries == old(store.entries)
    ensures Truthy(email) && Truthy(otp) && email !in old(store.entries) ==>
              resp.status == 400 && store.entries == old(store.entries)
    ensures Truthy(email) && Truthy(otp) && email in old(store.entries) ==>
              var entry := old(store.entries)[email];
              // the code is compared first: a wrong code keeps the entry, expired or not
              && (otp != Str(entry.resetCode) ==>
                    resp == Response(400, "Invalid OTP") && store.entries == old(store.entries))
              // a right but expired code deletes the entry
              && (otp == Str(entry.resetCode) && now > entry.codeExpiry ==>
                    resp.status == 400 && store.entries == old(store.entries) - {email})
              // a right code in time is accepted and the entry stays for the reset
              && (otp == Str(entry.resetCode) && now <= entry.codeExpiry ==>
                    resp.status == 200 && userId == Some(entry.userId) && store.entries == old(store.entries))
    ensures resp.status == 200 <==> userId.Some?
  {
    userId := None;
    if !Truthy(email) || !Truthy(otp) {
      return Response(400, "Email and OTP are required"), userId;
    }
    if email !in store.entries {
      return Response(400, "No password reset request found. Please request a new OTP."), userId;
    }
    var resetData := store.entries[email];
    if Str(resetData.resetCode) != otp {
      return Response(400, "Invalid OTP"), userId;
    }
    if now > resetData.codeExpiry {
      store.entries := store.entries - {email};
      return Response(400, "OTP has expired. Please request a new one."), userId;
    }
    userId := Some(resetData.userId);
    resp := Response(200, "OTP verified successfully");
  }

  /** `POST /reset-password`. It consults no reset code: any caller who names
      a registered address gets its password replaced. */
  method ResetPassword(email: Value, newPassword: Value, lookup: Result<seq<Row>>,
                       hash: Value -> Option<string>, update: Result<seq<Row>>)
    returns (resp: Response, queries: seq<Query>)
    ensures !Truthy(email) || !Truthy(newPassword) ==>
              resp == Response(400, "Email and new password are required") && queries == []
    ensures Truthy(email) && Truthy(newPassword) ==>
              |queries| >= 1 && queries[0] == Query(SelectUserIdN, [P(VarChar, email)])
    ensures Truthy(email) && Truthy(newPassword) && lookup.Ok? && lookup.value == [] ==>
              resp == Response(404, "User not found") && |queries| == 1
    // the update binds the hash first and the user id second, as its placeholders say
    ensures |queries| == 2 <==>
              Truthy(email) && Truthy(newPassword) && CanIssue(lookup) && hash(newPassword).Some?
    ensures |queries| == 2 ==>
              queries[1] == Query(UpdatePasswordByUser, [P(VarChar, Str(hash(newPassword).value)), P(Int, lookup.value[0][0].value)])
    ensures resp.status == 200 <==> |queries| == 2 && update.Ok?
    ensures |queries| <= 2
  {
    if !Truthy(email) || !Truthy(newPassword) {
      return Response(400, "Email and new password are required"), [];
    }
    var serverError := Response(500, "Internal server error");
    queries := [Query(SelectUserIdN, [P(VarChar, email)])];
    if lookup.Err? {
      return serverError, queries;
    }
    if |lookup.value| == 0 {
      return Response(404, "User not found"), queries;
    }
    var userId := FirstValue(lookup.value);
    if userId.None? {
      return serverError, queries;
    }
    var hashed := hash(newPassword);
    if hashed.None? {
      return serverError, queries;
    }
    queries := queries + [Query(UpdatePasswordByUser, [P(VarChar, Str(hashed.value)), P(Int, userId.value)])];
    if update.Err? {
      return serverError, queries;
    }
    resp := Response(200, "Password updated successfully");
  }

  /** A code issued for a registered address is accepted with the looked-up
      user id at any time up to fifteen minutes later, and stays stored. */
  method ResetScenario(store: PasswordResetCodes, email: string, lookup: Result<seq<Row>>,
                       resetCode: string, issuedAt: int, verifiedAt: int)
    returns (resp: Response, userId: Option<Value>)
    requires email != "" && resetCode != ""
    requires CanIssue(lookup)
    requires issuedAt <= verifiedAt <= issuedAt + CodeLifetime
    modifies store
    ensures resp.status == 200 && userId == Some(lookup.value[0][0].value)
    ensures Str(email) in store.entries
  {
    var first, _ := VerifyEmail(store, Str(email), lookup, resetCode, issuedAt, true);
    resp, userId := VerifyOtp(store, Str(email), Str(resetCode), verifiedAt);
  }

  /** A Map compares array keys by identity: a code issued for the body
      `{"email": [address]}` is not found by a later request that sends an
      array with the same element, because each request body builds a new
      array. */
  method ArrayEmailScenario(email: string, lookup: Result<seq<Row>>, resetCode: string, now: int)
    returns (resp: Response, userId: Option<Value>, issued: bool)
    requires CanIssue(lookup)
    ensures issued
    ensures resp.status == 400 && userId == None
  {
    var store := new PasswordResetCodes();
    var first, _ := VerifyEmail(store, Arr(1, [Str(email)]), lookup, resetCode, now, true);
    issued := Arr(1, [Str(email)]) in store.entries;
    resp, userId := VerifyOtp(store, Arr(2, [Str(email)]), Str(resetCode), now);
  }
}

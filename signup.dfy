/** The sign-up flow shared by src/userRoutes/signupRoutes.js and
    src/routes/signupRoutes.js: `/pre-signup` stores the submitted form with a
    verification code under the e-mail value, `/complete-signup` checks the
    code and expiry and runs the registration script, and
    `/resend-verification-code` replaces the code. Both routers use the same
    `verificationCodes` map; they differ in the form they accept and in the
    registration script. */
module SignupFlow {
  import opened Js
  import opened Sql
  import opened Verification

  const SelectEmailExists := "SELECT 1 FROM user_profiles WHERE email = @param0"

  /** `DEFAULT_ROLE_ID` */
  const DefaultRoleId: int := 1

  /** `/pre-signup` (src/userRoutes/signupRoutes.js:11-87 and
      src/routes/signupRoutes.js:12-77): an address already in use is
      refused; otherwise the form is stored with the code and an expiry
      fifteen minutes from `now`, and the code is mailed. */
  method PreSignup(store: VerificationCodes, form: Applicant, lookup: Result<seq<Row>>,
                   code: string, now: int, mailSent: bool)
    returns (resp: Response, queries: seq<Query>)
    modifies store
    ensures queries == [Query(SelectEmailExists, [P(NVarChar, form.email)])]
    ensures lookup.Ok? && lookup.value != [] ==>
              resp == Response(409, "Email already in use") && store.entries == old(store.entries)
    ensures lookup.Ok? && lookup.value == [] ==>
              store.entries == old(store.entries)[form.email := TempRegData(form, code, now + CodeLifetime)]
    ensures lookup.Err? ==> resp.status == 500 && store.entries == old(store.entries)
    ensures resp.status == 200 <==> lookup.Ok? && lookup.value == [] && mailSent
  {
    var serverError := Response(500, "Server error during pre-registration");
    queries := [Query(SelectEmailExists, [P(NVarChar, form.email)])];
    if lookup.Err? {
      return serverError, queries;
    }
    if |lookup.value| > 0 {
      return Response(409, "Email already in use"), queries;
    }
    store.entries := store.entries[form.email := TempRegData(form, code, now + CodeLifetime)];
    if !mailSent {
      return serverError, queries;
    }
    resp := Response(200, "Verification code sent to your email");
  }

  /** The validation of `/complete-signup`: an entry exists for the address,
      its code is the submitted one, and its expiry has not passed (a request
      at the expiry instant itself is accepted). */
  predicate CodeAccepted(entries: map<Value, TempRegData>, email: Value, code: Value, now: int) {
    && email in entries
    && code == Str(entries[email].verificationCode)
    && now <= entries[email].codeExpiry
  }

  /** The hash of the stored password, trimmed, when the password is a string
      and hashing succeeds. */
  function RegistrationHash(entry: TempRegData, hash: Value -> Option<string>): Option<string> {
    match CallTrim(entry.form.password)
    case None => None
    case Some(t) => hash(Str(t))
  }

  /** `/complete-signup` for a given registration script and parameter list. */
  method CompleteSignup(store: VerificationCodes, email: Value, code: Value, now: int,
                        hash: Value -> Option<string>, script: string,
                        registration: (TempRegData, string, Value) -> seq<Param>, result: Result<seq<Row>>)
    returns (resp: Response, queries: seq<Query>, userId: Option<Value>)
    modifies store
    // a missing entry, a wrong code or a late request is refused and nothing changes
    ensures !CodeAccepted(old(store.entries), email, code, now) ==>
              resp == Response(400, "Invalid or expired verification code") && queries == [] &&
              store.entries == old(store.entries) && userId == None
    // otherwise the stored form is registered, and the entry is deleted exactly on success
    ensures CodeAccepted(old(store.entries), email, code, now) ==>
              && Registered(resp, queries, userId, old(store.entries)[email], email, hash, script, registration, result)
              && store.entries == if resp.status == 201 then old(store.entries) - {email} else old(store.entries)
  {
    userId := None;
    queries := [];
    if !CodeAccepted(store.entries, email, code, now) {
      return Response(400, "Invalid or expired verification code"), queries, userId;
    }
    var tempRegData := store.entries[email];
    resp, queries, userId := Register(tempRegData, email, hash, script, registration, result);
    if resp.status == 201 {
      // `verificationCodes.delete(email)`, reached only once the query succeeded
      store.entries := store.entries - {email};
    }
  }

  /** What `/complete-signup` answers once the code is accepted: a failed
      hash is a server error before any query; otherwise the one query is the
      registration script with its parameters, and the answer is 201 with the
      first value of the first row exactly when the query succeeds and
      returns one, a server error otherwise. */
  predicate Registered(resp: Response, queries: seq<Query>, userId: Option<Value>,
                       entry: TempRegData, email: Value, hash: Value -> Option<string>, script: string,
                       registration: (TempRegData, string, Value) -> seq<Param>, result: Result<seq<Row>>)
  {
    && (RegistrationHash(entry, hash).None? ==> resp.status == 500 && queries == [])
    && (RegistrationHash(entry, hash).Some? ==>
          queries == [Query(script, registration(entry, RegistrationHash(entry, hash).value, email))])
    && (resp.status == 201 <==>
          RegistrationHash(entry, hash).Some? && result.Ok? && FirstValue(result.value).Some?)
    && (resp.status == 201 ==> userId == FirstValue(result.value))
    && (resp.status != 201 ==> resp.status == 500 && userId == None)
  }

  /** The part of `/complete-signup` after the code is accepted: hash the
      stored password, run the registration script, and read the new user id
      from the first column of the first row. */
  method Register(entry: TempRegData, email: Value, hash: Value -> Option<string>, script: string,
                  registration: (TempRegData, string, Value) -> seq<Param>, result: Result<seq<Row>>)
    returns (resp: Response, queries: seq<Query>, userId: Option<Value>)
    ensures Registered(resp, queries, userId, entry, email, hash, script, registration, result)
  {
    userId := None;
    queries := [];
    var serverError := Response(500, "Server error during registration");
    var hashed := RegistrationHash(entry, hash);
    if hashed.None? {
      return serverError, queries, userId;
    }
    queries := [Query(script, registration(entry, hashed.value, email))];
    if result.Err? {
      return serverError, queries, userId;
    }
    var first := FirstValue(result.value);
    if first.None? {
      return serverError, queries, userId;
    }
    userId := first;
    resp := Response(201, "Registration completed successfully");
  }

  /** `/resend-verification-code`: only the code and the expiry of the pending
      entry are replaced; the submitted form is kept as it was. */
  method ResendVerificationCode(store: VerificationCodes, email: Value, code: string, now: int, mailSent: bool)
    returns (resp: Response)
    modifies store
    ensures email !in old(store.entries) ==> resp.status == 400 && store.entries == old(store.entries)
    ensures email in old(store.entries) ==>
              store.entries == old(store.entries)[email := old(store.entries)[email].(verificationCode := code, codeExpiry := now + CodeLifetime)]
    ensures email in old(store.entries) ==> store.entries[email].form == old(store.entries)[email].form
    ensures resp.status == 200 <==> email in old(store.entries) && mailSent
  {
    if email !in store.entries {
      return Response(400, "No pending registration found. Please start the signup process again.");
    }
    var tempRegData := store.entries[email];
    tempRegData := tempRegData.(verificationCode := code, codeExpiry := now + CodeLifetime);
    store.entries := store.entries[email := tempRegData];
    if !mailSent {
      return Response(500, "Server error");
    }
    resp := Response(200, "New verification code sent to your email");
  }
}

/** src/userRoutes/signupRoutes.js: the full form, with experience and address,
    and the fourteen-parameter registration script. */
module UserSignup {
  import opened Js
  import opened Sql
  import opened Verification
  import SignupFlow

  const RegistrationScript :=
    "BEGIN TRANSACTION; INSERT INTO user_credentials (username, role_id, password) VALUES (@param0, @param1, @param2); "
    + "DECLARE @newUserId INT = SCOPE_IDENTITY(); INSERT INTO user_address (region, province, city, barangay) "
    + "VALUES (@param3, @param4, @param5, @param6); DECLARE @newAddressId INT = SCOPE_IDENTITY(); "
    + "INSERT INTO user_profiles (user_id, address_id, firstname, lastname, birthdate, gender, email, mobile_number, "
    + "years_experience) VALUES (@newUserId, @newAddressId, @param7, @param8, @param9, @param10, @param11, @param12, "
    + "@param13); COMMIT TRANSACTION; SELECT @newUserId AS userId;"

  /** The column each placeholder of the script fills: `@param i` goes into
      `PlaceholderColumns[i]`. */
  const PlaceholderColumns: seq<string> :=
    ["username", "role_id", "password", "region", "province", "city", "barangay",
     "firstname", "lastname", "birthdate", "gender", "email", "mobile_number", "years_experience"]

  /** What each column should receive: the form field of that name, the
      default role, the new hash, and the e-mail of the request. */
  function ColumnParam(column: string, entry: TempRegData, hashed: string, email: Value): Param {
    var f := entry.form;
    match column
    case "username" => P(NVarChar, f.username)
    case "role_id" => P(Int, Num(SignupFlow.DefaultRoleId))
    case "password" => P(NVarChar, Str(hashed))
    case "region" => P(NVarChar, f.region)
    case "province" => P(NVarChar, f.province)
    case "city" => P(NVarChar, f.city)
    case "barangay" => P(NVarChar, f.barangay)
    case "firstname" => P(NVarChar, f.firstname)
    case "lastname" => P(NVarChar, f.lastname)
    case "birthdate" => Param(Date, DateOf(f.birthdate))
    case "gender" => P(NVarChar, f.gender)
    case "email" => P(NVarChar, email)
    case "mobile_number" => P(NVarChar, f.mobilenumber)
    case "years_experience" => P(Int, f.yearsOfExperience)
    case _ => P(NVarChar, Undefined)
  }

  /** `registrationParams`: fourteen entries, the i-th being what the column
      that `@param i` fills should receive. */
  function RegistrationParams(entry: TempRegData, hashed: string, email: Value): (ps: seq<Param>)
    ensures |ps| == |PlaceholderColumns| == 14
    ensures forall i :: 0 <= i < |ps| ==> ps[i] == ColumnParam(PlaceholderColumns[i], entry, hashed, email)
  {
    var f := entry.form;
    [ P(NVarChar, f.username),
      P(Int, Num(SignupFlow.DefaultRoleId)),
      P(NVarChar, Str(hashed)),
      P(NVarChar, f.region),
      P(NVarChar, f.province),
      P(NVarChar, f.city),
      P(NVarChar, f.barangay),
      P(NVarChar, f.firstname),
      P(NVarChar, f.lastname),
      Param(Date, DateOf(f.birthdate)),
      P(NVarChar, f.gender),
      P(NVarChar, email),
      P(NVarChar, f.mobilenumber),
      P(Int, f.yearsOfExperience) ]
  }

  /** The address columns and `years_experience` take the form's fields unchanged. */
  lemma AddressAndExperience(entry: TempRegData, hashed: string, email: Value)
    ensures var ps := RegistrationParams(entry, hashed, email);
      && ps[3] == P(NVarChar, entry.form.region) && ps[4] == P(NVarChar, entry.form.province)
      && ps[5] == P(NVarChar, entry.form.city) && ps[6] == P(NVarChar, entry.form.barangay)
      && ps[13] == P(Int, entry.form.yearsOfExperience)
  {
  }

  /** `POST /pre-signup` */
  method PreSignup(store: VerificationCodes, form: Applicant, lookup: Result<seq<Row>>,
                   code: string, now: int, mailSent: bool)
    returns (resp: Response, queries: seq<Query>)
    modifies store
    ensures lookup.Ok? && lookup.value != [] ==> resp.status == 409 && store.entries == old(store.entries)
    ensures lookup.Ok? && lookup.value == [] ==>
              store.entries == old(store.entries)[form.email := TempRegData(form, code, now + CodeLifetime)]
    ensures resp.status == 200 <==> lookup.Ok? && lookup.value == [] && mailSent
  {
    resp, queries := SignupFlow.PreSignup(store, form, lookup, code, now, mailSent);
  }

  /** `POST /complete-signup` */
  method CompleteSignup(store: VerificationCodes, email: Value, code: Value, now: int,
                        hash: Value -> Option<string>, result: Result<seq<Row>>)
    returns (resp: Response, queries: seq<Query>, userId: Option<Value>)
    modifies store
    ensures !SignupFlow.CodeAccepted(old(store.entries), email, code, now) ==>
              resp.status == 400 && queries == [] && store.entries == old(store.entries)
    ensures |queries| == 1 <==>
              SignupFlow.CodeAccepted(old(store.entries), email, code, now) &&
              SignupFlow.RegistrationHash(old(store.entries)[email], hash).Some?
    ensures |queries| == 1 ==>
              queries[0] == Query(RegistrationScript, RegistrationParams(old(store.entries)[email],
                                       SignupFlow.RegistrationHash(old(store.entries)[email], hash).value, email))
    ensures resp.status == 201 ==>
              |queries| == 1 && result.Ok? && userId == FirstValue(result.value) && store.entries == old(store.entries) - {email}
    ensures resp.status != 201 ==> store.entries == old(store.entries)
    ensures |queries| <= 1
  {
    resp, queries, userId := SignupFlow.CompleteSignup(store, email, code, now, hash, RegistrationScript,
                                                       RegistrationParams, result);
  }

  /** `POST /resend-verification-code` */
  method ResendVerificationCode(store: VerificationCodes, email: Value, code: string, now: int, mailSent: bool)
    returns (resp: Response)
    modifies store
    ensures email !in old(store.entries) ==> resp.status == 400 && store.entries == old(store.entries)
    ensures email in old(store.entries) ==>
              store.entries == old(store.entries)[email := old(store.entries)[email].(verificationCode := code, codeExpiry := now + CodeLifetime)]
  {
    resp := SignupFlow.ResendVerificationCode(store, email, code, now, mailSent);
  }
}

/** src/routes/signupRoutes.js: the short form, the local code generator and
    the nine-parameter registration script. */
module Signup {
  import opened Js
  import opened Sql
  import opened Verification
  import SignupFlow
  import UserSignup

  const RegistrationScript :=
    "BEGIN TRANSACTION; INSERT INTO user_credentials (username, role_id, password) VALUES (@param0, @param1, @param2); "
    + "DECLARE @newUserId INT = SCOPE_IDENTITY(); INSERT INTO user_profiles (user_id, firstname, lastname, birthdate, "
    + "gender, email, mobile_number) VALUES (@newUserId, @param3, @param4, @param5, @param6, @param7, @param8); "
    + "COMMIT TRANSACTION; SELECT @newUserId AS userId;"

  const PlaceholderColumns: seq<string> :=
    ["username", "role_id", "password", "firstname", "lastname", "birthdate", "gender", "email", "mobile_number"]

  /** `generateVerificationCode()`: `draw` stands for `Math.floor(Math.random() * 900000)`. */
  function GenerateVerificationCode(draw: nat): (code: string)
    requires draw < 900000
    ensures |code| == 6 && AllDigits(code) && code[0] != '0'
    ensures ParseIntString(code) == Num(100000 + draw)
  {
    var n := 100000 + draw;
    assert Pow10(5) == 100000 && Pow10(6) == 1000000;
    NatToStringLength(n, 5);
    ParseIntOfNatToString(n);
    NatToString(n)
  }

  /** Distinct draws give distinct codes. */
  lemma CodesDistinct(d1: nat, d2: nat)
    requires d1 < 900000 && d2 < 900000 && d1 != d2
    ensures GenerateVerificationCode(d1) != GenerateVerificationCode(d2)
  {
    NatToStringInjective(100000 + d1, 100000 + d2);
  }

  /** The form `/pre-signup` of this router reads: the experience and
      address fields stay `undefined`. */
  function ShortForm(username: Value, email: Value, password: Value, firstname: Value, lastname: Value,
                     birthdate: Value, gender: Value, mobilenumber: Value): (f: Applicant)
    ensures f.yearsOfExperience == f.region == f.province == f.city == f.barangay == Undefined
  {
    Applicant(username, email, password, firstname, lastname, birthdate, gender, mobilenumber,
              Undefined, Undefined, Undefined, Undefined, Undefined)
  }

  function ColumnParam(column: string, entry: TempRegData, hashed: string, email: Value): Param {
    var f := entry.form;
    match column
    case "username" => P(NVarChar, f.username)
    case "role_id" => P(Int, Num(SignupFlow.DefaultRoleId))
    case "password" => P(NVarChar, Str(hashed))
    case "firstname" => P(NVarChar, f.firstname)
    case "lastname" => P(NVarChar, f.lastname)
    case "birthdate" => Param(Date, DateOf(f.birthdate))
    case "gender" => P(NVarChar, f.gender)
    case "email" => P(NVarChar, email)
    case "mobile_number" => P(NVarChar, f.mobilenumber)
    case _ => P(NVarChar, Undefined)
  }

  /** `registrationParams`: nine entries, the i-th being what the column that
      `@param i` fills should receive. */
  function RegistrationParams(entry: TempRegData, hashed: string, email: Value): (ps: seq<Param>)
    ensures |ps| == |PlaceholderColumns| == 9
    ensures forall i :: 0 <= i < |ps| ==> ps[i] == ColumnParam(PlaceholderColumns[i], entry, hashed, email)
  {
    var f := entry.form;
    [ P(NVarChar, f.username),
      P(Int, Num(SignupFlow.DefaultRoleId)),
      P(NVarChar, Str(hashed)),
      P(NVarChar, f.firstname),
      P(NVarChar, f.lastname),
      Param(Date, DateOf(f.birthdate)),
      P(NVarChar, f.gender),
      P(NVarChar, email),
      P(NVarChar, f.mobilenumber) ]
  }

  /** `POST /pre-signup`: the code is generated from `draw`. */
  method PreSignup(store: VerificationCodes, username: Value, email: Value, password: Value, firstname: Value,
                   lastname: Value, birthdate: Value, gender: Value, mobilenumber: Value,
                   lookup: Result<seq<Row>>, draw: nat, now: int, mailSent: bool)
    returns (resp: Response, queries: seq<Query>)
    requires draw < 900000
    modifies store
    ensures lookup.Ok? && lookup.value != [] ==> resp.status == 409 && store.entries == old(store.entries)
    ensures lookup.Ok? && lookup.value == [] ==>
              && email in store.entries
              && store.entries == old(store.entries)[email := TempRegData(
                   ShortForm(username, email, password, firstname, lastname, birthdate, gender, mobilenumber),
                   GenerateVerificationCode(draw), now + CodeLifetime)]
              && |store.entries[email].verificationCode| == 6
    ensures resp.status == 200 <==> lookup.Ok? && lookup.value == [] && mailSent
  {
    var code := GenerateVerificationCode(draw);
    var form := ShortForm(username, email, password, firstname, lastname, birthdate, gender, mobilenumber);
    resp, queries := SignupFlow.PreSignup(store, form, lookup, code, now, mailSent);
  }

  /** `POST /complete-signup` */
  method CompleteSignup(store: VerificationCodes, email: Value, code: Value, now: int,
                        hash: Value -> Option<string>, result: Result<seq<Row>>)
    returns (resp: Response, queries: seq<Query>, userId: Option<Value>)
    modifies store
    ensures !SignupFlow.CodeAccepted(old(store.entries), email, code, now) ==>
              resp.status == 400 && queries == [] && store.entries == old(store.entries)
    ensures |queries| == 1 <==>
              SignupFlow.CodeAccepted(old(store.entries), email, code, now) &&
              SignupFlow.RegistrationHash(old(store.entries)[email], hash).Some?
    ensures |queries| == 1 ==>
              queries[0] == Query(RegistrationScript, RegistrationParams(old(store.entries)[email],
                                       SignupFlow.RegistrationHash(old(store.entries)[email], hash).value, email))
    ensures resp.status == 201 ==>
              |queries| == 1 && result.Ok? && userId == FirstValue(result.value) && store.entries == old(store.entries) - {email}
    ensures resp.status != 201 ==> store.entries == old(store.entries)
    ensures |queries| <= 1
  {
    resp, queries, userId := SignupFlow.CompleteSignup(store, email, code, now, hash, RegistrationScript,
                                                       RegistrationParams, result);
  }

  /** `POST /resend-verification-code`: the new code is generated from `draw`. */
  method ResendVerificationCode(store: VerificationCodes, email: Value, draw: nat, now: int, mailSent: bool)
    returns (resp: Response)
    requires draw < 900000
    modifies store
    ensures email !in old(store.entries) ==> resp.status == 400 && store.entries == old(store.entries)
    ensures email in old(store.entries) ==>
              store.entries == old(store.entries)[email := old(store.entries)[email].(
                verificationCode := GenerateVerificationCode(draw), codeExpiry := now + CodeLifetime)]
  {
    resp := SignupFlow.ResendVerificationCode(store, email, GenerateVerificationCode(draw), now, mailSent);
  }

  /** A registration begun here and completed by the other router: the shared
      map lets `/complete-signup` of src/userRoutes/signupRoutes.js accept the
      code, and its fourteen-parameter script then binds `undefined` for the
      experience and address columns. */
  method CrossRouterScenario(store: VerificationCodes, username: string, email: string, password: string,
                             draw: nat, issuedAt: int, completedAt: int,
                             hash: Value -> Option<string>, result: Result<seq<Row>>)
    returns (resp: Response, queries: seq<Query>)
    requires draw < 900000
    requires issuedAt <= completedAt <= issuedAt + CodeLifetime
    requires hash(Str(Trim(password))).Some?
    modifies store
    ensures |queries| == 1 && |queries[0].params| == 14
    ensures queries[0].params[3] == P(NVarChar, Undefined) && queries[0].params[13] == P(Int, Undefined)
  {
    var _, _ := PreSignup(store, Str(username), Str(email), Str(password), Undefined, Undefined, Undefined,
                          Undefined, Undefined, Ok([]), draw, issuedAt, true);
    var code := GenerateVerificationCode(draw);
    assert SignupFlow.CodeAccepted(store.entries, Str(email), Str(code), completedAt);
    var entry := store.entries[Str(email)];
    assert entry.form.region == entry.form.yearsOfExperience == Undefined;
    var ps := UserSignup.RegistrationParams(entry, hash(Str(Trim(password))).value, Str(email));
    UserSignup.AddressAndExperience(entry, hash(Str(Trim(password))).value, Str(email));
    var userId;
    resp, queries, userId := UserSignup.CompleteSignup(store, Str(email), Str(code), completedAt, hash, result);
    assert queries[0].params == ps;
  }
}

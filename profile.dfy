/** The profile routes of src/userRoutes/profileRoutes.js: `/fetch-profile`
    reads the first row keyed by column name, and `/update` builds an
    `UPDATE … SET` statement from the fields the request supplies, numbering
    its placeholders as it appends to the parameter list. */
module Profile {
  import opened Js
  import opened Sql
  import Seqs

  const SelectProfile :=
    "SELECT user_profiles_id, user_id, firstname, lastname, birthdate, gender, mobile_number, address_id, "
    + "email, profile_image, created_at, updated_at FROM user_profiles WHERE user_id = @param0"

  // ---------------------------------------------------------------- fetch

  /** The `data` object of a successful `/fetch-profile` response. */
  datatype ProfileData = ProfileData(
    firstname: Value, lastname: Value, email: Value, contactNumber: Value,
    birthdate: Value, gender: Value, image: Value)

  /** The value of column `name` in a row, as `userProfile[name]` reads it. */
  function Field(row: Row, name: string): Value {
    match LastNamed(row, name)
    case Some(v) => v
    case None => Undefined
  }

  /** The response data built from a row. */
  function ProfileOf(row: Row): ProfileData {
    ProfileData(Field(row, "firstname"), Field(row, "lastname"), Field(row, "email"),
                Field(row, "mobile_number"), Field(row, "birthdate"), Field(row, "gender"),
                Field(row, "profile_image"))
  }

  /** `GET /fetch-profile/:userId`: an empty result is 404; otherwise only the
      first row is read, each field being the last column of its name. */
  method FetchProfile(userId: string, result: Result<seq<Row>>)
    returns (resp: Response, query: Query, data: Option<ProfileData>)
    ensures query == Query(SelectProfile, [P(Int, ParseIntString(userId))])
    ensures result.Err? ==> resp == Response(500, "Failed to fetch user profile") && data == None
    ensures result.Ok? && result.value == [] ==> resp == Response(404, "User profile not found") && data == None
    ensures result.Ok? && result.value != [] ==> resp.status == 200 && data == Some(ProfileOf(result.value[0]))
  {
    query := Query(SelectProfile, [P(Int, ParseIntString(userId))]);
    if result.Err? {
      return Response(500, "Failed to fetch user profile"), query, None;
    }
    if |result.value| == 0 {
      return Response(404, "User profile not found"), query, None;
    }
    var profile := ShapeProfile(result.value[0]);
    data := Some(profile);
    resp := Response(200, "");
  }

  /** Keys the row by column name and picks the seven response fields. */
  method ShapeProfile(row: Row) returns (data: ProfileData)
    ensures data == ProfileOf(row)
  {
    var userProfile := KeyByColName(row);
    LookupIsField(userProfile, row);
    data := ProfileData(Lookup(userProfile, "firstname"), Lookup(userProfile, "lastname"),
                        Lookup(userProfile, "email"), Lookup(userProfile, "mobile_number"),
                        Lookup(userProfile, "birthdate"), Lookup(userProfile, "gender"),
                        Lookup(userProfile, "profile_image"));
  }

  /** Reading the dictionary built from a row is reading the row. */
  lemma LookupIsField(m: map<string, Value>, row: Row)
    requires forall k :: LastNamed(row, k) == (if k in m then Some(m[k]) else None)
    ensures forall name :: Lookup(m, name) == Field(row, name)
  {
    forall name
      ensures Lookup(m, name) == Field(row, name)
    {
      assert LastNamed(row, name) == (if name in m then Some(m[name]) else None);
    }
  }

  /** Columns the profile does not read do not affect it, whatever their values. */
  lemma {:induction false} ProfileIgnoresOtherColumns(row: Row, extra: Column)
    requires extra.colName !in {"firstname", "lastname", "email", "mobile_number", "birthdate", "gender", "profile_image"}
    ensures ProfileOf(row + [extra]) == ProfileOf(row)
  {
    var r := row + [extra];
    assert r[..|r| - 1] == row;
  }

  /** A later column overrides every earlier column of its name, whichever
      profile field that name feeds, and leaves the other fields alone. */
  lemma LaterColumnWins(row: Row, name: string, v: Value)
    ensures var p := ProfileOf(row + [Column(name, v)]);
      var q := ProfileOf(row);
      && p.firstname == (if name == "firstname" then v else q.firstname)
      && p.lastname == (if name == "lastname" then v else q.lastname)
      && p.email == (if name == "email" then v else q.email)
      && p.contactNumber == (if name == "mobile_number" then v else q.contactNumber)
      && p.birthdate == (if name == "birthdate" then v else q.birthdate)
      && p.gender == (if name == "gender" then v else q.gender)
      && p.image == (if name == "profile_image" then v else q.image)
  {
    var r := row + [Column(name, v)];
    assert r[..|r| - 1] == row;
  }

  // ---------------------------------------------------------------- update

  /** One item of the SET list: `column = @param<index>` or `column = GETDATE()`. */
  datatype SetItem = Assign(column: string, index: nat) | SetNow(column: string)

  /** A field `/update` may set: the column, the value the request gave, and
      the parameter bound for it when that value is truthy. */
  datatype Candidate = Candidate(column: string, given: Value, param: Param)

  /** The optional fields in the order the handler considers them. */
  function Candidates(firstname: Value, lastname: Value, birthdate: Value, contactNumber: Value, image: Value)
    : seq<Candidate>
  {
    [ Candidate("firstname", firstname, P(NVarChar, firstname)),
      Candidate("lastname", lastname, P(NVarChar, lastname)),
      Candidate("birthdate", birthdate, Param(Date, DateOf(birthdate))),
      Candidate("mobile_number", contactNumber, P(NVarChar, contactNumber)),
      Candidate("profile_image", image, P(NVarChar, image)) ]
  }

  /** The candidates whose value is truthy, in their original order. */
  function Provided(cs: seq<Candidate>): (r: seq<Candidate>)
    ensures |r| <= |cs|
    ensures forall k :: 0 <= k < |r| ==> Truthy(r[k].given)
  {
    if cs == [] then []
    else Provided(cs[..|cs| - 1]) + (if Truthy(cs[|cs| - 1].given) then [cs[|cs| - 1]] else [])
  }

  /** `Provided` keeps the order and is exact: a candidate is kept iff its value is truthy. */
  lemma {:induction false} ProvidedExact(cs: seq<Candidate>)
    ensures Seqs.Subseq(Provided(cs), cs)
    ensures forall c :: c in cs && Truthy(c.given) ==> c in Provided(cs)
    ensures forall c :: c in Provided(cs) ==> c in cs
    decreases |cs|
  {
    if cs != [] {
      var init := cs[..|cs| - 1];
      var last := cs[|cs| - 1];
      ProvidedExact(init);
      Seqs.SubseqSnoc(Provided(init), init, last, Truthy(last.given));
      assert cs == init + [last];
      Seqs.SubseqMembers(Provided(cs), cs);
    }
  }

  /** Placeholder numbering lines up: the k-th assignment names `@param(k+1)`
      and `params[k+1]` is the parameter of the k-th provided field. */
  predicate Lined(items: seq<SetItem>, params: seq<Param>, fs: seq<Candidate>) {
    && |items| == |fs|
    && |params| == |fs| + 1
    && forall k :: 0 <= k < |fs| ==> items[k] == Assign(fs[k].column, k + 1) && params[k + 1] == fs[k].param
  }

  /** One `if (field) { updateFields.push(…); params.push(…); paramIndex++ }` step. */
  lemma LinedStep(items: seq<SetItem>, params: seq<Param>, cs: seq<Candidate>, i: nat)
    requires i < |cs| && Lined(items, params, Provided(cs[..i]))
    ensures var c := cs[i];
      Lined(if Truthy(c.given) then items + [Assign(c.column, |params|)] else items,
            if Truthy(c.given) then params + [c.param] else params,
            Provided(cs[..i + 1]))
  {
    var c := cs[i];
    assert cs[..i + 1][..i] == cs[..i];
    assert cs[..i + 1][i] == c;
    assert Provided(cs[..i + 1]) == Provided(cs[..i]) + (if Truthy(c.given) then [c] else []);
    if Truthy(c.given) {
      LinedSnoc(items, params, Provided(cs[..i]), c);
    } else {
      assert Provided(cs[..i]) + [] == Provided(cs[..i]);
    }
  }

  /** Appending one assignment and its parameter keeps the numbering lined up. */
  lemma LinedSnoc(items: seq<SetItem>, params: seq<Param>, fs: seq<Candidate>, c: Candidate)
    requires Lined(items, params, fs)
    ensures Lined(items + [Assign(c.column, |params|)], params + [c.param], fs + [c])
  {
  }

  /** The state of the builder after considering the first `i` candidates. */
  predicate Built(items: seq<SetItem>, params: seq<Param>, paramIndex: nat, first: Param,
                  cs: seq<Candidate>, i: nat)
  {
    && i <= |cs|
    && Lined(items, params, Provided(cs[..i]))
    && params[0] == first
    && paramIndex == |params|
  }

  /** One `if (field) { updateFields.push(…); params.push(…); paramIndex++; }`
      block, for the candidate at position `i`. */
  method AppendIfProvided(items: seq<SetItem>, params: seq<Param>, paramIndex: nat, c: Candidate,
                          ghost first: Param, ghost cs: seq<Candidate>, ghost i: nat)
    returns (items': seq<SetItem>, params': seq<Param>, paramIndex': nat)
    requires i < |cs| && cs[i] == c && Built(items, params, paramIndex, first, cs, i)
    ensures Built(items', params', paramIndex', first, cs, i + 1)
  {
    items', params', paramIndex' := items, params, paramIndex;
    if Truthy(c.given) {
      items' := items' + [Assign(c.column, paramIndex')];
      params' := params' + [c.param];
      paramIndex' := paramIndex' + 1;
    }
    LinedStep(items, params, cs, i);
  }

  /** The SET list and the parameter list of `/update`: the user id first, then
      one parameter per truthy field in the order firstname, lastname,
      birthdate, mobile_number, profile_image, with `updated_at = GETDATE()`
      closing the list. */
  method BuildUpdate(userId: Value, firstname: Value, lastname: Value, birthdate: Value,
                     contactNumber: Value, image: Value)
    returns (updateFields: seq<SetItem>, params: seq<Param>, paramIndex: nat)
    ensures |params| >= 1 && params[0] == P(Int, ParseInt(userId))
    ensures paramIndex == |params|
    ensures var fs := Provided(Candidates(firstname, lastname, birthdate, contactNumber, image));
      && |updateFields| == |fs| + 1
      && Lined(updateFields[..|fs|], params, fs)
      && updateFields[|fs|] == SetNow("updated_at")
  {
    var cs := Candidates(firstname, lastname, birthdate, contactNumber, image);
    var first := P(Int, ParseInt(userId));
    updateFields, params, paramIndex := ConsiderEach(first, cs);
    BuiltAll(updateFields, params, paramIndex, first, cs);
    updateFields := updateFields + [SetNow("updated_at")];
  }

  /** The five `if (field) { … }` blocks of `/update`, one per candidate, after
      `params` starts out as `[userId]` and `paramIndex` as 1. */
  method ConsiderEach(first: Param, cs: seq<Candidate>)
    returns (items: seq<SetItem>, params: seq<Param>, paramIndex: nat)
    requires |cs| == 5
    ensures Built(items, params, paramIndex, first, cs, |cs|)
  {
    items := [];
    params := [first];
    paramIndex := 1;
    assert cs[..0] == [];
    items, params, paramIndex := AppendIfProvided(items, params, paramIndex, cs[0], first, cs, 0);
    items, params, paramIndex := AppendIfProvided(items, params, paramIndex, cs[1], first, cs, 1);
    items, params, paramIndex := AppendIfProvided(items, params, paramIndex, cs[2], first, cs, 2);
    items, params, paramIndex := AppendIfProvided(items, params, paramIndex, cs[3], first, cs, 3);
    items, params, paramIndex := AppendIfProvided(items, params, paramIndex, cs[4], first, cs, 4);
  }

  /** Once every candidate has been considered, the closing `updated_at`
      item goes after the lined-up assignments. */
  lemma BuiltAll(items: seq<SetItem>, params: seq<Param>, paramIndex: nat, first: Param, cs: seq<Candidate>)
    requires Built(items, params, paramIndex, first, cs, |cs|)
    ensures var fs := Provided(cs);
      && |params| >= 1 && params[0] == first && paramIndex == |params|
      && |items + [SetNow("updated_at")]| == |fs| + 1
      && Lined((items + [SetNow("updated_at")])[..|fs|], params, fs)
      && (items + [SetNow("updated_at")])[|fs|] == SetNow("updated_at")
  {
    assert cs[..|cs|] == cs;
    assert (items + [SetNow("updated_at")])[..|items|] == items;
  }

  /** Every placeholder the SET list names is in range, and the value bound to
      it is the one its column takes; `@param0` is left for the WHERE clause. */
  lemma PlaceholdersInRange(items: seq<SetItem>, params: seq<Param>, fs: seq<Candidate>)
    requires Lined(items, params, fs)
    ensures forall k :: 0 <= k < |items| ==>
              1 <= items[k].index < |params| && params[items[k].index] == fs[k].param && items[k].column == fs[k].column
    ensures forall j, k :: 0 <= j < k < |items| ==> items[j].index < items[k].index
  {
  }

  function RenderItem(item: SetItem): string {
    match item
    case Assign(column, index) => column + " = @param" + NatToString(index)
    case SetNow(column) => column + " = GETDATE()"
  }

  /** `updateFields.join(', ')` */
  function JoinItems(items: seq<SetItem>): string {
    if items == [] then ""
    else if |items| == 1 then RenderItem(items[0])
    else RenderItem(items[0]) + ", " + JoinItems(items[1..])
  }

  function UpdateStatement(items: seq<SetItem>): string {
    "UPDATE user_profiles SET " + JoinItems(items) + " WHERE user_id = @param0; SELECT @@ROWCOUNT as affected;"
  }

  /** The SET list is never empty, so the statement always has an assignment. */
  lemma SetListNonEmpty(items: seq<SetItem>)
    requires |items| >= 1
    ensures |JoinItems(items)| > 0
  {
    assert |RenderItem(items[0])| > 0;
  }

  /** `PUT /update` */
  method UpdateProfile(userId: Value, firstname: Value, lastname: Value, birthdate: Value,
                       contactNumber: Value, image: Value, result: Result<seq<Row>>)
    returns (resp: Response, queries: seq<Query>, ghost updateFields: seq<SetItem>)
    ensures !Truthy(userId) ==> resp == Response(400, "User ID is required") && queries == []
    // the statement is built from one assignment per truthy field, lined up
    // with its parameter, and the closing `updated_at = GETDATE()`
    ensures Truthy(userId) ==>
              |queries| == 1 && queries[0].statement == UpdateStatement(updateFields) &&
              var fs := Provided(Candidates(firstname, lastname, birthdate, contactNumber, image));
              && |updateFields| == |fs| + 1
              && Lined(updateFields[..|fs|], queries[0].params, fs)
              && updateFields[|fs|] == SetNow("updated_at")
    ensures Truthy(userId) ==>
              |queries| == 1 && |queries[0].params| >= 1 && queries[0].params[0] == P(Int, ParseInt(userId)) &&
              var fs := Provided(Candidates(firstname, lastname, birthdate, contactNumber, image));
              |queries[0].params| == |fs| + 1 &&
              forall k :: 0 <= k < |fs| ==> queries[0].params[k + 1] == fs[k].param
    ensures Truthy(userId) && result.Err? ==> resp == Response(500, "Failed to update profile")
    ensures Truthy(userId) && result.Ok? && FirstValue(result.value).None? ==>
              resp == Response(500, "Failed to update profile")
    // success iff the row count reads as a number greater than zero, otherwise 404
    ensures resp.status == 200 <==>
              Truthy(userId) && result.Ok? && FirstValue(result.value).Some? &&
              GreaterThanZero(FirstValue(result.value).value)
    ensures Truthy(userId) && result.Ok? && FirstValue(result.value).Some? &&
            !GreaterThanZero(FirstValue(result.value).value) ==>
              resp == Response(404, "User profile not found")
    ensures resp.status == 200 ==> resp.message == "Profile updated successfully"
  {
    if !Truthy(userId) {
      return Response(400, "User ID is required"), [], [];
    }
    var fields, params, paramIndex := BuildUpdate(userId, firstname, lastname, birthdate, contactNumber, image);
    updateFields := fields;
    queries := [Query(UpdateStatement(fields), params)];
    var failed := Response(500, "Failed to update profile");
    if result.Err? {
      return failed, queries, updateFields;
    }
    var rowsAffected := FirstValue(result.value);
    if rowsAffected.None? {
      return failed, queries, updateFields;
    }
    if GreaterThanZero(rowsAffected.value) {
      resp := Response(200, "Profile updated successfully");
    } else {
      resp := Response(404, "User profile not found");
    }
  }
}

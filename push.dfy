/** The admin push routes of src/adminRoutes/pushNotifications.js: `/notify`
    sends one message to the token stored for a user, `/broadcast` one message
    to every valid stored token. The Expo SDK's token test, its chunker and its
    send call are parameters. */
module Push {
  import opened Js
  import opened Sql
  import Seqs

  const SelectToken := "SELECT push_token FROM user_credentials WHERE user_id = @param0"
  const SelectAllTokens := "SELECT push_token FROM user_credentials WHERE push_token IS NOT NULL"

  /** `data || {}` */
  datatype Payload = Given(v: Value) | EmptyObject

  /** One Expo push message. */
  datatype Message = Message(to: Value, sound: string, title: string, subtitle: Value, body: Value, data: Payload)

  // ---------------------------------------------------------------- titles

  function UpperChar(c: char): (u: char)
    ensures 'a' <= c <= 'z' ==> 'A' <= u <= 'Z' && u as int - 'A' as int == c as int - 'a' as int
    ensures !('a' <= c <= 'z') ==> u == c
    ensures !('a' <= u <= 'z')
  {
    if 'a' <= c <= 'z' then (c as int - 32) as char else c
  }

  /** `s.charAt(0).toUpperCase() + s.slice(1)`, for ASCII letters. */
  function Capitalize(s: string): (r: string)
    ensures |r| == |s|
    ensures |s| > 0 ==> r[0] == UpperChar(s[0]) && r[1..] == s[1..]
  {
    if s == [] then [] else [UpperChar(s[0])] + s[1..]
  }

  /** Capitalising twice is capitalising once. */
  lemma CapitalizeIdempotent(s: string)
    ensures Capitalize(Capitalize(s)) == Capitalize(s)
  {
    if s != [] {
      var r := Capitalize(s);
      assert r[0] == UpperChar(s[0]);
      assert UpperChar(UpperChar(s[0])) == UpperChar(s[0]);
    }
  }

  /** The push title, `(data?.type || dflt)` capitalised; None where the chosen
      value is not a string and `charAt` throws. */
  function PushTitle(dataType: Value, dflt: string): (r: Option<string>)
    ensures !Truthy(dataType) ==> r == Some(Capitalize(dflt))
    ensures Truthy(dataType) ==> (r.Some? <==> dataType.Str?)
    ensures Truthy(dataType) && dataType.Str? ==> r == Some(Capitalize(dataType.s))
  {
    match Or(dataType, Str(dflt))
    case Str(s) => Some(Capitalize(s))
    case _ => None
  }

  // ---------------------------------------------------------------- sending

  /** What the `i`-th `sendPushNotificationsAsync` call returns: its tickets, or
      None where it throws. */
  type Sender = (nat, seq<Message>) -> Option<seq<Value>>

  /** The number of messages in chunks whose send threw. */
  function FailedOf(chunks: seq<seq<Message>>, send: Sender): nat {
    if chunks == [] then 0
    else
      var n := |chunks| - 1;
      FailedOf(chunks[..n], send) + (if send(n, chunks[n]).None? then |chunks[n]| else 0)
  }

  /** The number of messages in chunks that were delivered. */
  function DeliveredOf(chunks: seq<seq<Message>>, send: Sender): nat {
    if chunks == [] then 0
    else
      var n := |chunks| - 1;
      DeliveredOf(chunks[..n], send) + (if send(n, chunks[n]).Some? then |chunks[n]| else 0)
  }

  /** The tickets of the chunks that were delivered, in chunk order. */
  function TicketsOf(chunks: seq<seq<Message>>, send: Sender): seq<Value> {
    if chunks == [] then []
    else
      var n := |chunks| - 1;
      TicketsOf(chunks[..n], send) + (match send(n, chunks[n]) case Some(t) => t case None => [])
  }

  /** Every message is either counted as failed or as delivered. */
  lemma {:induction false} FailedPlusDelivered(chunks: seq<seq<Message>>, send: Sender)
    ensures FailedOf(chunks, send) + DeliveredOf(chunks, send) == Seqs.TotalLength(chunks)
    decreases |chunks|
  {
    if chunks != [] {
      var n := |chunks| - 1;
      FailedPlusDelivered(chunks[..n], send);
      assert chunks == chunks[..n] + [chunks[n]];
      Seqs.TotalLengthSnoc(chunks[..n], chunks[n]);
    }
  }

  /** When the chunks partition the messages, the success and failure counts
      add up to the number of messages, so neither exceeds it. */
  lemma CountsAddUp(messages: seq<Message>, chunks: seq<seq<Message>>, send: Sender)
    requires Seqs.Flatten(chunks) == messages
    ensures FailedOf(chunks, send) + DeliveredOf(chunks, send) == |messages|
    ensures FailedOf(chunks, send) <= |messages|
  {
    FailedPlusDelivered(chunks, send);
    Seqs.FlattenLength(chunks);
  }

  /** The `for (let chunk of chunks)` loop: a chunk whose send throws adds its
      length to the failures and no tickets. */
  method SendChunks(chunks: seq<seq<Message>>, send: Sender) returns (tickets: seq<Value>, failedDeliveries: nat)
    ensures tickets == TicketsOf(chunks, send)
    ensures failedDeliveries == FailedOf(chunks, send)
  {
    tickets := [];
    failedDeliveries := 0;
    for i := 0 to |chunks|
      invariant tickets == TicketsOf(chunks[..i], send)
      invariant failedDeliveries == FailedOf(chunks[..i], send)
    {
      assert chunks[..i + 1][..i] == chunks[..i];
      var ticketChunk := send(i, chunks[i]);
      if ticketChunk.Some? {
        tickets := tickets + ticketChunk.value;
      } else {
        failedDeliveries := failedDeliveries + |chunks[i]|;
      }
    }
    assert chunks[..|chunks|] == chunks;
  }

  // ---------------------------------------------------------------- notify

  datatype NotifyResult = NotifyResult(resp: Response, pushedToDevice: bool, queries: seq<Query>, messages: seq<Message>)

  /** `POST /notify`. `dataType` stands for `data?.type`. */
  method Notify(userId: Value, title: Value, body: Value, data: Value, dataType: Value,
                result: Result<seq<Row>>, isExpoPushToken: Value -> bool,
                chunk: seq<Message> -> seq<seq<Message>>, send: Sender)
    returns (r: NotifyResult, tickets: seq<Value>)
    ensures !Truthy(userId) ==> r.resp == Response(400, "User ID is required") && r.queries == []
    ensures Truthy(userId) ==> r.queries == [Query(SelectToken, [P(Int, userId)])]
    ensures Truthy(userId) && result.Ok? && (result.value == [] || (|result.value[0]| > 0 && !Truthy(result.value[0][0].value))) ==>
              r.resp.status == 404 && !r.pushedToDevice
    ensures Truthy(userId) && result.Ok? && FirstValue(result.value).Some? && Truthy(FirstValue(result.value).value) &&
            !isExpoPushToken(FirstValue(result.value).value) ==>
              r.resp.status == 400 && !r.pushedToDevice
    // success: exactly one message, to the stored token, with the capitalised title and the defaults
    ensures r.resp.status == 200 <==>
              && Truthy(userId) && result.Ok? && FirstValue(result.value).Some?
              && Truthy(FirstValue(result.value).value) && isExpoPushToken(FirstValue(result.value).value)
              && PushTitle(dataType, "General").Some?
    ensures r.resp.status == 200 ==>
              r.pushedToDevice &&
              r.messages == [Message(FirstValue(result.value).value, "default", PushTitle(dataType, "General").value,
                                     Or(title, Str("New Notification")), Or(body, Str("You have a new notification")),
                                     if Truthy(data) then Given(data) else EmptyObject)] &&
              tickets == TicketsOf(chunk(r.messages), send)
    ensures r.resp.status != 200 ==> !r.pushedToDevice && r.messages == [] && tickets == []
  {
    tickets := [];
    if !Truthy(userId) {
      return NotifyResult(Response(400, "User ID is required"), false, [], []), tickets;
    }
    var queries := [Query(SelectToken, [P(Int, userId)])];
    var failed := NotifyResult(Response(500, "Failed to send notification"), false, queries, []);
    if result.Err? {
      return failed, tickets;
    }
    var userResult: seq<Row> := result.value;
    if |userResult| == 0 {
      return NotifyResult(Response(404, "User not found or has no push token registered"), false, queries, []), tickets;
    }
    if |userResult[0]| == 0 {
      return failed, tickets;
    }
    if !Truthy(userResult[0][0].value) {
      return NotifyResult(Response(404, "User not found or has no push token registered"), false, queries, []), tickets;
    }
    var token := userResult[0][0].value;
    if !isExpoPushToken(token) {
      return NotifyResult(Response(400, "Invalid push token stored for user"), false, queries, []), tickets;
    }
    var notificationTitle := PushTitle(dataType, "General");
    if notificationTitle.None? {
      return failed, tickets;
    }
    var messages := [Message(token, "default", notificationTitle.value, Or(title, Str("New Notification")),
                             Or(body, Str("You have a new notification")),
                             if Truthy(data) then Given(data) else EmptyObject)];
    var failedDeliveries;
    tickets, failedDeliveries := SendChunks(chunk(messages), send);
    r := NotifyResult(Response(200, "Notification sent successfully"), true, queries, messages);
  }

  // ---------------------------------------------------------------- broadcast

  /** `usersResult.map(user => user[0].value)`; None where a row has no column. */
  function TokensOf(rows: seq<Row>): Option<seq<Value>> {
    if rows == [] then Some([])
    else if |rows[0]| == 0 then None
    else
      match TokensOf(rows[1..])
      case None => None
      case Some(rest) => Some([rows[0][0].value] + rest)
  }

  /** The tokens are read iff every row has a column, and then they are the
      rows' first values, one per row and in order. */
  lemma {:induction false} TokensOfColumns(rows: seq<Row>)
    ensures TokensOf(rows).Some? <==> forall i :: 0 <= i < |rows| ==> |rows[i]| > 0
    ensures TokensOf(rows).Some? ==>
              |TokensOf(rows).value| == |rows| &&
              forall i :: 0 <= i < |rows| ==> TokensOf(rows).value[i] == rows[i][0].value
    decreases |rows|
  {
    if rows != [] && |rows[0]| > 0 {
      TokensOfColumns(rows[1..]);
      if TokensOf(rows[1..]).Some? {
        forall i | 0 <= i < |rows|
          ensures TokensOf(rows).value[i] == rows[i][0].value
        {
          if i > 0 {
            assert rows[1..][i - 1] == rows[i];
          }
        }
      } else {
        var j :| 0 <= j < |rows[1..]| && |rows[1..][j]| == 0;
        assert rows[j + 1] == rows[1..][j];
      }
    }
  }

  /** `tokens.filter(token => token && Expo.isExpoPushToken(token))` */
  function ValidTokens(tokens: seq<Value>, isExpoPushToken: Value -> bool): (r: seq<Value>)
    ensures |r| <= |tokens|
    ensures forall k :: 0 <= k < |r| ==> Truthy(r[k]) && isExpoPushToken(r[k])
  {
    if tokens == [] then []
    else
      var n := |tokens| - 1;
      ValidTokens(tokens[..n], isExpoPushToken) +
      (if Truthy(tokens[n]) && isExpoPushToken(tokens[n]) then [tokens[n]] else [])
  }

  /** The valid tokens are exactly the truthy, valid ones, in their original order. */
  lemma {:induction false} ValidTokensExact(tokens: seq<Value>, isExpoPushToken: Value -> bool)
    ensures Seqs.Subseq(ValidTokens(tokens, isExpoPushToken), tokens)
    ensures forall t :: t in ValidTokens(tokens, isExpoPushToken) <==>
                        t in tokens && Truthy(t) && isExpoPushToken(t)
    decreases |tokens|
  {
    if tokens != [] {
      var n := |tokens| - 1;
      var init := tokens[..n];
      ValidTokensExact(init, isExpoPushToken);
      Seqs.SubseqSnoc(ValidTokens(init, isExpoPushToken), init, tokens[n], Truthy(tokens[n]) && isExpoPushToken(tokens[n]));
      assert tokens == init + [tokens[n]];
    }
  }

  /** A valid token is kept as often as it is stored, an invalid one never. */
  lemma {:induction false} ValidTokensCount(tokens: seq<Value>, isExpoPushToken: Value -> bool)
    ensures forall t :: multiset(ValidTokens(tokens, isExpoPushToken))[t] ==
                        if Truthy(t) && isExpoPushToken(t) then multiset(tokens)[t] else 0
    decreases |tokens|
  {
    if tokens != [] {
      var n := |tokens| - 1;
      var init := tokens[..n];
      ValidTokensCount(init, isExpoPushToken);
      assert tokens == init + [tokens[n]];
      assert multiset(tokens) == multiset(init) + multiset{tokens[n]};
    }
  }

  /** `validTokens.map(token => ({ … }))`: one message per token, in order. */
  function BroadcastMessages(tokens: seq<Value>, title: string, subtitle: Value, body: Value, data: Payload)
    : (ms: seq<Message>)
    ensures |ms| == |tokens|
    ensures forall i :: 0 <= i < |tokens| ==> ms[i] == Message(tokens[i], "default", title, subtitle, body, data)
  {
    if tokens == [] then []
    else [Message(tokens[0], "default", title, subtitle, body, data)] +
         BroadcastMessages(tokens[1..], title, subtitle, body, data)
  }

  /** The success message, naming both counts. */
  function SentMessage(successCount: int, tokenCount: nat): string {
    "Broadcast sent successfully to " + IntToString(successCount) + " of " + NatToString(tokenCount) + " users"
  }

  datatype BroadcastResult = BroadcastResult(
    resp: Response, messages: seq<Message>, tickets: seq<Value>,
    successCount: int, failedCount: nat, tokenCount: nat)

  /** `POST /broadcast`. `dataType` stands for `data?.type`. */
  method Broadcast(title: Value, body: Value, data: Value, dataType: Value, result: Result<seq<Row>>,
                   isExpoPushToken: Value -> bool, chunk: seq<Message> -> seq<seq<Message>>, send: Sender)
    returns (r: BroadcastResult, queries: seq<Query>)
    ensures queries == [Query(SelectAllTokens, [])]
    ensures result.Ok? && result.value == [] ==> r.resp == Response(404, "No users with push tokens found")
    ensures result.Ok? && TokensOf(result.value).Some? && result.value != [] &&
            ValidTokens(TokensOf(result.value).value, isExpoPushToken) == [] ==>
              r.resp == Response(400, "No valid push tokens found in database")
    ensures r.resp.status == 200 <==>
              && result.Ok? && result.value != [] && TokensOf(result.value).Some?
              && ValidTokens(TokensOf(result.value).value, isExpoPushToken) != []
              && PushTitle(dataType, "Broadcast").Some?
    ensures r.resp.status == 200 ==>
              BroadcastSent(r, ValidTokens(TokensOf(result.value).value, isExpoPushToken),
                            PushTitle(dataType, "Broadcast").value, title, body, data, chunk, send)
  {
    queries := [Query(SelectAllTokens, [])];
    var failed := BroadcastResult(Response(500, "Failed to send broadcast"), [], [], 0, 0, 0);
    var failure, validTokens := Recipients(result, isExpoPushToken, failed.resp);
    if failure.Some? {
      return BroadcastResult(failure.value, [], [], 0, 0, 0), queries;
    }
    var notificationTitle := PushTitle(dataType, "Broadcast");
    if notificationTitle.None? {
      return failed, queries;
    }
    r := SendBroadcast(validTokens, notificationTitle.value, title, body, data, chunk, send);
  }

  /** The first half of `/broadcast`: read the stored tokens and keep the
      valid ones. No row gives 404 and no valid token 400; a failed query or
      a row without columns is `serverError`. */
  method Recipients(result: Result<seq<Row>>, isExpoPushToken: Value -> bool, serverError: Response)
    returns (failure: Option<Response>, validTokens: seq<Value>)
    requires serverError.status != 200
    ensures failure.None? <==>
              && result.Ok? && result.value != [] && TokensOf(result.value).Some?
              && ValidTokens(TokensOf(result.value).value, isExpoPushToken) != []
    ensures failure.None? ==> validTokens == ValidTokens(TokensOf(result.value).value, isExpoPushToken)
    ensures failure.Some? ==> failure.value.status != 200
    ensures result.Err? ==> failure == Some(serverError)
    ensures result.Ok? && result.value == [] ==> failure == Some(Response(404, "No users with push tokens found"))
    ensures result.Ok? && result.value != [] && TokensOf(result.value).None? ==> failure == Some(serverError)
    ensures result.Ok? && TokensOf(result.value).Some? && result.value != [] &&
            ValidTokens(TokensOf(result.value).value, isExpoPushToken) == [] ==>
              failure == Some(Response(400, "No valid push tokens found in database"))
  {
    validTokens := [];
    if result.Err? {
      return Some(serverError), validTokens;
    }
    var usersResult := result.value;
    if |usersResult| == 0 {
      return Some(Response(404, "No users with push tokens found")), validTokens;
    }
    var tokens := TokensOf(usersResult);
    if tokens.None? {
      return Some(serverError), validTokens;
    }
    validTokens := ValidTokens(tokens.value, isExpoPushToken);
    if |validTokens| == 0 {
      return Some(Response(400, "No valid push tokens found in database")), validTokens;
    }
    failure := None;
  }

  /** What a successful `/broadcast` reports: one message per valid token,
      the tickets and the failures of sending them chunk by chunk, and
      `successCount = tokenCount - failedCount`; when the chunks partition
      the messages no more sends fail than there are tokens, so the success
      count is not negative. */
  predicate BroadcastSent(r: BroadcastResult, validTokens: seq<Value>, notificationTitle: string,
                          title: Value, body: Value, data: Value,
                          chunk: seq<Message> -> seq<seq<Message>>, send: Sender)
  {
    && r.resp.status == 200
    && r.tokenCount == |validTokens|
    && r.messages == BroadcastMessages(validTokens, notificationTitle, Or(title, Str("Broadcast Notification")),
                                       Or(body, Str("You have a new broadcast notification")),
                                       if Truthy(data) then Given(data) else EmptyObject)
    && r.failedCount == FailedOf(chunk(r.messages), send)
    && r.successCount == r.tokenCount - r.failedCount
    && r.resp.message == SentMessage(r.successCount, r.tokenCount)
    && r.tickets == TicketsOf(chunk(r.messages), send)
    && (Seqs.Flatten(chunk(r.messages)) == r.messages ==> r.failedCount <= r.tokenCount)
  }

  /** The sending half of `/broadcast`, once there are valid tokens and a
      title: one message per token, sent chunk by chunk, and the counts
      reported in the success message. */
  method SendBroadcast(validTokens: seq<Value>, notificationTitle: string, title: Value, body: Value, data: Value,
                       chunk: seq<Message> -> seq<seq<Message>>, send: Sender)
    returns (r: BroadcastResult)
    ensures BroadcastSent(r, validTokens, notificationTitle, title, body, data, chunk, send)
  {
    var messages := BroadcastMessages(validTokens, notificationTitle, Or(title, Str("Broadcast Notification")),
                                      Or(body, Str("You have a new broadcast notification")),
                                      if Truthy(data) then Given(data) else EmptyObject);
    var chunks := chunk(messages);
    var tickets, failedDeliveries := SendChunks(chunks, send);
    if Seqs.Flatten(chunks) == messages {
      CountsAddUp(messages, chunks, send);
    }
    var successCount := |validTokens| - failedDeliveries;
    r := BroadcastResult(Response(200, SentMessage(successCount, |validTokens|)), messages, tickets,
                         successCount, failedDeliveries, |validTokens|);
  }
}

/** The notification routes of src/userRoutes/notificationsRoutes.js: listing
    a user's notifications with per-field defaults, marking them read or
    unread, storing one, and deleting. */
module Notifications {
  import opened Js
  import opened Sql

  const SelectNotifications :=
    "SELECT notification_id, title, body, icon, icon_bg_color as iconBgColor, type, data, timestamp, [read] "
    + "FROM user_notifications WHERE user_id = @param0 ORDER BY timestamp DESC"
  const MarkAllStatement := "UPDATE user_notifications SET [read] = @param1 WHERE user_id = @param0"
  const MarkOneStatement := "UPDATE user_notifications SET [read] = @param1 WHERE notification_id = @param0"
  const InsertNotification :=
    "INSERT INTO user_notifications (user_id, title, body, icon, icon_bg_color, type, data) "
    + "VALUES (@param0, @param1, @param2, @param3, @param4, @param5, @param6)"
  const DeleteOneStatement := "DELETE FROM user_notifications WHERE notification_id = @param0"
  const DeleteAllStatement := "DELETE FROM user_notifications WHERE user_id = @param0"

  // ---------------------------------------------------------------- listing

  /** One element of the `/:userId` response. */
  datatype Notification = Notification(
    id: Value, title: Value, subtitle: Value, icon: Value, iconBgColor: Value,
    iconColor: string, kind: Value, read: bool)

  /** `row[name] ? row[name].value : dflt`: a present column gives its value,
      whatever that value is; an absent one gives the default. */
  function ColumnOr(row: Row, name: string, dflt: Value): Value {
    match LastNamed(row, name)
    case Some(v) => v
    case None => dflt
  }

  /** The element built from one row, or None where `row.notification_id.value`
      or `row.title.value` throws because the column is absent. */
  function NotificationOf(row: Row): (r: Option<Notification>)
    ensures r.Some? <==> LastNamed(row, "notification_id").Some? && LastNamed(row, "title").Some?
  {
    match (LastNamed(row, "notification_id"), LastNamed(row, "title"))
    case (Some(id), Some(title)) =>
      Some(Notification(
        id, title,
        ColumnOr(row, "body", Str("")),
        ColumnOr(row, "icon", Str("bell")),
        ColumnOr(row, "iconBgColor", Str("gray")),
        "white",
        ColumnOr(row, "type", Str("general")),
        LastNamed(row, "read") == Some(Bool(true))))
    case _ => None
  }

  /** Absent columns take their defaults and `iconColor` is always white. */
  lemma NotificationDefaults(row: Row)
    requires NotificationOf(row).Some?
    ensures var n := NotificationOf(row).value;
      && n.iconColor == "white"
      && (LastNamed(row, "body").None? ==> n.subtitle == Str(""))
      && (LastNamed(row, "icon").None? ==> n.icon == Str("bell"))
      && (LastNamed(row, "iconBgColor").None? ==> n.iconBgColor == Str("gray"))
      && (LastNamed(row, "type").None? ==> n.kind == Str("general"))
  {
  }

  /** A notification is read iff the last `read` column of its row holds the
      boolean `true` itself (a value of 1 or "true" does not count). */
  lemma NotificationRead(row: Row)
    requires NotificationOf(row).Some?
    ensures NotificationOf(row).value.read <==>
              exists i :: 0 <= i < |row| && row[i] == Column("read", Bool(true)) &&
                          forall j :: i < j < |row| ==> row[j].colName != "read"
  {
    if NotificationOf(row).value.read {
      LastNamedFinds(row, "read");
    }
    forall i | 0 <= i < |row| && row[i] == Column("read", Bool(true)) &&
               (forall j :: i < j < |row| ==> row[j].colName != "read")
      ensures NotificationOf(row).value.read
    {
      LastNamedIsLast(row, "read", i);
    }
  }

  /** A present column wins over the default even when its value is falsy:
      the test is on the column object, not its value. */
  lemma PresentFalsyBodyKept(row: Row)
    requires NotificationOf(row).Some?
    ensures NotificationOf(row + [Column("body", Null)]).value.subtitle == Null
  {
    var r := row + [Column("body", Null)];
    assert r[..|r| - 1] == row;
  }

  /** Builds one element: every column goes into a dictionary by name, then the
      fields are read from it. */
  method ShapeNotification(rowColumns: Row) returns (n: Option<Notification>)
    ensures n == NotificationOf(rowColumns)
  {
    var row := KeyByColName(rowColumns);
    if "notification_id" !in row || "title" !in row {
      assert LastNamed(rowColumns, "notification_id").None? || LastNamed(rowColumns, "title").None?;
      return None;
    }
    assert LastNamed(rowColumns, "read") == (if "read" in row then Some(row["read"]) else None);
    assert LastNamed(rowColumns, "body") == (if "body" in row then Some(row["body"]) else None);
    assert LastNamed(rowColumns, "icon") == (if "icon" in row then Some(row["icon"]) else None);
    assert LastNamed(rowColumns, "iconBgColor") == (if "iconBgColor" in row then Some(row["iconBgColor"]) else None);
    assert LastNamed(rowColumns, "type") == (if "type" in row then Some(row["type"]) else None);
    assert LastNamed(rowColumns, "notification_id") == Some(row["notification_id"]);
    assert LastNamed(rowColumns, "title") == Some(row["title"]);
    n := Some(Notification(
      row["notification_id"],
      row["title"],
      if "body" in row then row["body"] else Str(""),
      if "icon" in row then row["icon"] else Str("bell"),
      if "iconBgColor" in row then row["iconBgColor"] else Str("gray"),
      "white",
      if "type" in row then row["type"] else Str("general"),
      if "read" in row then row["read"] == Bool(true) else false));
  }

  /** `results.map(...)`: one element per row, in row order; a row that cannot
      be shaped throws, which the handler turns into a 500. */
  method ShapeAll(results: seq<Row>) returns (notifications: Option<seq<Notification>>)
    ensures notifications.Some? <==> forall i :: 0 <= i < |results| ==> NotificationOf(results[i]).Some?
    ensures notifications.Some? ==>
              |notifications.value| == |results| &&
              forall i :: 0 <= i < |results| ==> notifications.value[i] == NotificationOf(results[i]).value
  {
    var out: seq<Notification> := [];
    for i := 0 to |results|
      invariant |out| == i
      invariant forall k :: 0 <= k < i ==> NotificationOf(results[k]).Some? && out[k] == NotificationOf(results[k]).value
    {
      var n := ShapeNotification(results[i]);
      if n.None? {
        return None;
      }
      out := out + [n.value];
    }
    notifications := Some(out);
  }

  /** `GET /:userId` */
  method FetchNotifications(userIdParam: string, result: Result<seq<Row>>)
    returns (resp: Response, queries: seq<Query>, notifications: seq<Notification>)
    ensures ParseIntString(userIdParam) == NaN ==>
              resp == Response(400, "Invalid user ID") && queries == [] && notifications == []
    ensures ParseIntString(userIdParam) != NaN ==>
              queries == [Query(SelectNotifications, [P(Int, ParseIntString(userIdParam))])]
    ensures resp.status == 200 <==>
              ParseIntString(userIdParam) != NaN && result.Ok? &&
              forall i :: 0 <= i < |result.value| ==> NotificationOf(result.value[i]).Some?
    ensures resp.status == 200 ==>
              |notifications| == |result.value| &&
              forall i :: 0 <= i < |notifications| ==> notifications[i] == NotificationOf(result.value[i]).value
    ensures resp.status != 200 ==> notifications == []
  {
    notifications := [];
    var userId := ParseIntString(userIdParam);
    if userId == NaN {
      return Response(400, "Invalid user ID"), [], notifications;
    }
    queries := [Query(SelectNotifications, [P(Int, userId)])];
    var failed := Response(500, "Failed to fetch notifications");
    if result.Err? {
      return failed, queries, notifications;
    }
    var shaped := ShapeAll(result.value);
    if shaped.None? {
      return failed, queries, notifications;
    }
    notifications := shaped.value;
    resp := Response(200, "");
  }

  // ---------------------------------------------------------------- marking

  /** The bit `/notifications-all/:userId/:status` writes, or None for a status it refuses. */
  function ReadAllBit(status: string): (r: Option<int>)
    ensures r == Some(1) <==> status == "read-all"
    ensures r == Some(0) <==> status == "unread-all"
    ensures r.Some? ==> r == Some(1) || r == Some(0)
  {
    if status == "read-all" then Some(1)
    else if status == "unread-all" then Some(0)
    else None
  }

  /** The bit `/notifications-user/:notificationId/:status` writes, or None for a status it refuses. */
  function ReadOneBit(status: string): (r: Option<int>)
    ensures r == Some(1) <==> status == "read"
    ensures r == Some(0) <==> status == "unread"
    ensures r.Some? ==> r == Some(1) || r == Some(0)
  {
    if status == "read" then Some(1)
    else if status == "unread" then Some(0)
    else None
  }

  /** `PUT /notifications-all/:userId/:status`: the id is checked before the status. */
  method MarkAll(userIdParam: string, status: string, result: Result<seq<Row>>)
    returns (resp: Response, queries: seq<Query>)
    ensures ParseIntString(userIdParam) == NaN ==> resp == Response(400, "Invalid user ID") && queries == []
    ensures ParseIntString(userIdParam) != NaN && ReadAllBit(status).None? ==>
              resp == Response(400, "Invalid status parameter. Use read-all or unread-all") && queries == []
    ensures ParseIntString(userIdParam) != NaN && ReadAllBit(status).Some? ==>
              queries == [Query(MarkAllStatement, [P(Int, ParseIntString(userIdParam)),
                                                   P(Bit, Num(ReadAllBit(status).value))])]
    ensures resp.status == 200 <==> |queries| == 1 && result.Ok?
    ensures resp.status == 200 ==>
              resp.message == (if status == "read-all" then "All notifications marked as read"
                               else "All notifications marked as unread")
    ensures |queries| == 1 && result.Err? ==>
              resp == Response(500, "Failed to mark all notifications as " +
                                    (if status == "read-all" then "read" else "unread"))
  {
    var userId := ParseIntString(userIdParam);
    if userId == NaN {
      return Response(400, "Invalid user ID"), [];
    }
    if status != "read-all" && status != "unread-all" {
      return Response(400, "Invalid status parameter. Use read-all or unread-all"), [];
    }
    var readValue := if status == "read-all" then 1 else 0;
    queries := [Query(MarkAllStatement, [P(Int, userId), P(Bit, Num(readValue))])];
    if result.Err? {
      var word := if status == "read-all" then "read" else "unread";
      return Response(500, "Failed to mark all notifications as " + word), queries;
    }
    var message := if status == "read-all" then "All notifications marked as read" else "All notifications marked as unread";
    resp := Response(200, message);
  }

  /** `PUT /notifications-user/:notificationId/:status` */
  method MarkOne(notificationIdParam: string, status: string, result: Result<seq<Row>>)
    returns (resp: Response, queries: seq<Query>)
    ensures ParseIntString(notificationIdParam) == NaN ==>
              resp == Response(400, "Invalid notification ID") && queries == []
    ensures ParseIntString(notificationIdParam) != NaN && ReadOneBit(status).None? ==>
              resp == Response(400, "Invalid status parameter. Use read or unread") && queries == []
    ensures ParseIntString(notificationIdParam) != NaN && ReadOneBit(status).Some? ==>
              queries == [Query(MarkOneStatement, [P(Int, ParseIntString(notificationIdParam)),
                                                   P(Bit, Num(ReadOneBit(status).value))])]
    ensures resp.status == 200 <==> |queries| == 1 && result.Ok?
    ensures resp.status == 200 ==>
              resp.message == (if status == "read" then "Notification marked as read"
                               else "Notification marked as unread")
    ensures |queries| == 1 && result.Err? ==> resp == Response(500, "Failed to mark notification as " + status)
  {
    var notificationId := ParseIntString(notificationIdParam);
    if notificationId == NaN {
      return Response(400, "Invalid notification ID"), [];
    }
    if status != "read" && status != "unread" {
      return Response(400, "Invalid status parameter. Use read or unread"), [];
    }
    var readValue := if status == "read" then 1 else 0;
    queries := [Query(MarkOneStatement, [P(Int, notificationId), P(Bit, Num(readValue))])];
    if result.Err? {
      return Response(500, "Failed to mark notification as " + status), queries;
    }
    var message := if status == "read" then "Notification marked as read" else "Notification marked as unread";
    resp := Response(200, message);
  }

  // ---------------------------------------------------------------- storing

  /** The seven parameters of the insert, in placeholder order. */
  function StoreParams(userId: Value, title: Value, body: Value, data: Value, icon: Value,
                       iconBgColor: Value, kind: Value): (ps: seq<Param>)
    ensures |ps| == 7
    ensures ps[0] == P(Int, userId) && ps[1] == P(NVarChar, title)
    // a falsy optional field is replaced by its default; a truthy one is kept
    ensures ps[2] == P(NVarChar, if Truthy(body) then body else Str(""))
    ensures ps[3] == P(NVarChar, if Truthy(icon) then icon else Str("bell"))
    ensures ps[4] == P(NVarChar, if Truthy(iconBgColor) then iconBgColor else Str("gray"))
    ensures ps[5] == P(NVarChar, if Truthy(kind) then kind else Str("general"))
    ensures ps[6] == Param(NVarChar, if Truthy(data) then JsonOf(data) else Plain(Null))
    // so the icon, its colour and the type are never stored empty
    ensures forall i :: 3 <= i < 6 ==> ps[i].value.Plain? && Truthy(ps[i].value.v)
  {
    [ P(Int, userId),
      P(NVarChar, title),
      P(NVarChar, Or(body, Str(""))),
      P(NVarChar, Or(icon, Str("bell"))),
      P(NVarChar, Or(iconBgColor, Str("gray"))),
      P(NVarChar, Or(kind, Str("general"))),
      Param(NVarChar, if Truthy(data) then JsonOf(data) else Plain(Null)) ]
  }

  /** `POST /store-notification` */
  method StoreNotification(userId: Value, title: Value, body: Value, data: Value, icon: Value,
                           iconBgColor: Value, kind: Value, result: Result<seq<Row>>)
    returns (resp: Response, queries: seq<Query>)
    ensures !Truthy(userId) || !Truthy(title) ==>
              resp == Response(400, "User ID and title are required") && queries == []
    ensures Truthy(userId) && Truthy(title) ==>
              queries == [Query(InsertNotification, StoreParams(userId, title, body, data, icon, iconBgColor, kind))]
    ensures resp.status == 200 <==> Truthy(userId) && Truthy(title) && result.Ok?
  {
    if !Truthy(userId) || !Truthy(title) {
      return Response(400, "User ID and title are required"), [];
    }
    queries := [Query(InsertNotification, StoreParams(userId, title, body, data, icon, iconBgColor, kind))];
    if result.Err? {
      return Response(500, "Failed to store notification"), queries;
    }
    resp := Response(200, "Notification stored successfully");
  }

  // ---------------------------------------------------------------- deleting

  /** `DELETE /delete/:notificationId`: the route text is bound as it is, with no validation. */
  method DeleteNotification(notificationId: string, result: Result<seq<Row>>)
    returns (resp: Response, query: Query)
    ensures query == Query(DeleteOneStatement, [P(Int, Str(notificationId))])
    ensures resp.status == 200 <==> result.Ok?
    ensures resp.status == 500 <==> result.Err?
  {
    query := Query(DeleteOneStatement, [P(Int, Str(notificationId))]);
    if result.Err? {
      return Response(500, "Failed to delete notification"), query;
    }
    resp := Response(200, "Notification deleted");
  }

  /** `DELETE /delete-all/:userId/clear`: likewise unvalidated. */
  method DeleteAllNotifications(userId: string, result: Result<seq<Row>>)
    returns (resp: Response, query: Query)
    ensures query == Query(DeleteAllStatement, [P(Int, Str(userId))])
    ensures resp.status == 200 <==> result.Ok?
    ensures resp.status == 500 <==> result.Err?
  {
    query := Query(DeleteAllStatement, [P(Int, Str(userId))]);
    if result.Err? {
      return Response(500, "Failed to clear notifications"), query;
    }
    resp := Response(200, "All notifications cleared");
  }
}

/** The server end of the notification channel: which connections join
    which per-user group, what a pushed notification looks like on the
    wire, and the text of each kind of notification. */
module NotificationConsumer {
  import opened Common
  import NotificationSocket
  import Text

  datatype ScopeUser = Anonymous | Member(id: nat)

  /** The channel layer's groups: group name to channel names. */
  type Layer = map<string, set<string>>

  function GroupName(id: nat): string {
    "notifications_" + Text.NatToString(id)
  }

  /** Each user has a group of their own. */
  lemma GroupNamesDistinct(a: nat, b: nat)
    requires a != b
    ensures GroupName(a) != GroupName(b)
  {
    if GroupName(a) == GroupName(b) {
      assert Text.NatToString(a) == GroupName(a)[14..] == GroupName(b)[14..] == Text.NatToString(b);
      Text.NatToStringInjective(a, b);
    }
  }

  function GroupAdd(layer: Layer, group: string, channel: string): (r: Layer)
    ensures group in r && channel in r[group]
    ensures forall g :: g != group ==> (g in r <==> g in layer) && (g in layer ==> r[g] == layer[g])
  {
    layer[group := (if group in layer then layer[group] else {}) + {channel}]
  }

  function GroupDiscard(layer: Layer, group: string, channel: string): (r: Layer)
    ensures group in layer ==> group in r && r[group] == layer[group] - {channel}
    ensures group !in layer ==> r == layer
    ensures forall g :: g != group ==> (g in r <==> g in layer) && (g in layer ==> r[g] == layer[g])
  {
    if group in layer then layer[group := layer[group] - {channel}] else layer
  }

  /** One connection's attributes as `connect` leaves them. */
  datatype Connection = Connection(user: ScopeUser, groupName: Option<string>, accepted: bool, closed: bool)

  /** `connect`: an anonymous scope is closed without joining anything; a
      user's channel joins that user's group and is then accepted. */
  function ConnectStep(layer: Layer, user: ScopeUser, channel: string): (r: (Connection, Layer))
    ensures user.Anonymous? ==> r == (Connection(user, None, false, true), layer)
    ensures user.Member? ==> r.0 == Connection(user, Some(GroupName(user.id)), true, false)
    ensures user.Member? ==> r.1 == GroupAdd(layer, GroupName(user.id), channel)
  {
    if user.Anonymous? then (Connection(user, None, false, true), layer)
    else
      var g := GroupName(user.id);
      (Connection(user, Some(g), true, false), GroupAdd(layer, g, channel))
  }

  /** `disconnect`: only a user's connection leaves its group. */
  function DisconnectStep(layer: Layer, c: Connection, channel: string): (r: Layer)
    requires c.user.Member? ==> c.groupName.Some?
    ensures c.user.Anonymous? ==> r == layer
    ensures c.user.Member? ==> r == GroupDiscard(layer, c.groupName.value, channel)
  {
    if c.user.Anonymous? then layer else GroupDiscard(layer, c.groupName.value, channel)
  }

  /** A user's connection is in their group exactly while connected, and no
      other group sees it; an anonymous one never joins. */
  lemma ConnectThenDisconnect(layer: Layer, user: ScopeUser, channel: string)
    requires forall g :: g in layer ==> channel !in layer[g]
    ensures var (c, joined) := ConnectStep(layer, user, channel);
            && (user.Member? ==> channel in joined[GroupName(user.id)])
            && (forall g :: g in joined && (user.Anonymous? || g != GroupName(user.id)) ==> channel !in joined[g])
            && var left := DisconnectStep(joined, c, channel);
               forall g :: g in left ==> channel !in left[g]
  {
  }

  // ------------------------------------------------------------- messages

  datatype NotificationRecord = NotificationRecord(id: int, notificationType: string, sender: string,
                                                   groupName: Option<string>, isRead: bool, createdAt: string)

  /** What Python raises when `get_notification_message` reads the name of
      a group invitation's missing group. */
  const MissingGroupError: string := "AttributeError: 'NoneType' object has no attribute 'name'"

  /** `get_notification_message`: the text for each known kind; a group
      invitation without a group raises. */
  function NotificationMessage(n: NotificationRecord): (r: Result<string, string>)
    ensures r.Err? <==> n.notificationType == "group_invite" && n.groupName.None?
    ensures r.Err? ==> r.error == MissingGroupError
    ensures n.notificationType == "like_post" ==> r == Ok(n.sender + " liked your post")
    ensures n.notificationType == "like_comment" ==> r == Ok(n.sender + " liked your comment")
    ensures n.notificationType == "comment" ==> r == Ok(n.sender + " commented on your post")
    ensures n.notificationType == "follow" ==> r == Ok(n.sender + " started following you")
    ensures n.notificationType == "group_invite" && n.groupName.Some? ==>
              r == Ok(n.sender + " invited you to moderate " + n.groupName.value)
    ensures n.notificationType !in KnownTypes ==> r == Ok("New notification")
  {
    if n.notificationType == "like_post" then Ok(n.sender + " liked your post")
    else if n.notificationType == "like_comment" then Ok(n.sender + " liked your comment")
    else if n.notificationType == "comment" then Ok(n.sender + " commented on your post")
    else if n.notificationType == "follow" then Ok(n.sender + " started following you")
    else if n.notificationType == "group_invite" then
      if n.groupName.Some? then Ok(n.sender + " invited you to moderate " + n.groupName.value)
      else Err(MissingGroupError)
    else Ok("New notification")
  }

  const KnownTypes: set<string> := {"like_post", "like_comment", "comment", "follow", "group_invite"}

  /** A known kind's text opens with the sender's name. */
  lemma KnownMessagesNameSender(n: NotificationRecord)
    requires n.notificationType in KnownTypes
    ensures NotificationMessage(n).Ok? ==>
              var m := NotificationMessage(n).value;
              |n.sender| <= |m| && m[..|n.sender|] == n.sender
  {
  }

  /** `get_notification_data`: the record as the frame pushed to clients;
      `type` carries the notification's kind. The message's error is raised
      through it. */
  function NotificationData(n: NotificationRecord): (r: Result<NotificationSocket.Frame, string>)
    ensures r.Err? <==> NotificationMessage(n).Err?
    ensures r.Err? ==> r.error == MissingGroupError
    ensures r.Ok? ==> r.value.Keys == {"id", "type", "sender", "message", "is_read", "created_at"}
    ensures r.Ok? ==> r.value["type"] == JStr(n.notificationType) && r.value["message"] == JStr(NotificationMessage(n).value)
  {
    match NotificationMessage(n)
    case Err(e) => Err(e)
    case Ok(m) =>
      Ok(map["id" := JInt(n.id), "type" := JStr(n.notificationType), "sender" := JStr(n.sender),
             "message" := JStr(m), "is_read" := JBool(n.isRead), "created_at" := JStr(n.createdAt)])
  }

  /** `send_notification` as written: the event's notification goes out
      unchanged. */
  function SendNotificationAsWritten(notification: NotificationSocket.Frame): (f: NotificationSocket.Frame)
    ensures f == notification
  {
    notification
  }

  /** As written, a notification of any known kind reaches the client with a
      `type` the client ignores, so the client never delivers it. */
  lemma KnownNotificationDroppedAsWritten(n: NotificationRecord, c: NotificationSocket.Channel)
    requires n.notificationType in KnownTypes
    ensures NotificationData(n).Ok? ==>
              NotificationSocket.MessageStep(c, SendNotificationAsWritten(NotificationData(n).value)) == c
  {
  }

  /** The evidently intended envelope: tagged as a notification, with the
      kind moved to `notification_type`. */
  function SendNotification(notification: NotificationSocket.Frame): (f: NotificationSocket.Frame)
    ensures NotificationSocket.IsNotification(f)
    ensures "type" in notification ==> "notification_type" in f && f["notification_type"] == notification["type"]
    ensures forall k :: k in notification && k != "type" && k != "notification_type" ==> k in f && f[k] == notification[k]
  {
    var tagged := notification["type" := JStr("notification")];
    if "type" in notification then tagged["notification_type" := notification["type"]] else tagged
  }

  /** With the envelope, every pushed notification is delivered once, as
      sent. */
  lemma PushedNotificationDelivered(n: NotificationRecord, c: NotificationSocket.Channel)
    ensures NotificationData(n).Ok? ==>
              var f := SendNotification(NotificationData(n).value);
              NotificationSocket.MessageStep(c, f).delivered == c.delivered + [f]
  {
  }

  /** The consumer object: `connect`, `disconnect` and `send_notification`
      update its attributes, the layer's groups and what was sent. */
  class Consumer {
    const channelName: string
    var user: ScopeUser
    var groupName: Option<string>
    var accepted: bool
    var closed: bool
    var layer: Layer
    var outbox: seq<NotificationSocket.Frame>

    constructor(channelName: string, layer: Layer, user: ScopeUser)
      ensures this.channelName == channelName && this.layer == layer && this.user == user
      ensures groupName == None && !accepted && !closed && outbox == []
    {
      this.channelName := channelName;
      this.layer := layer;
      this.user := user;
      groupName, accepted, closed, outbox := None, false, false, [];
    }

    method Connect(scopeUser: ScopeUser)
      modifies this
      ensures var r := ConnectStep(old(layer), scopeUser, channelName);
              Connection(user, groupName, accepted, closed) == r.0 && layer == r.1
      ensures outbox == old(outbox)
    {
      user := scopeUser;
      if user.Anonymous? {
        groupName, accepted, closed := None, false, true;
      } else {
        groupName := Some(GroupName(user.id));
        layer := GroupAdd(layer, groupName.value, channelName);
        accepted, closed := true, false;
      }
    }

    method Disconnect()
      requires user.Member? ==> groupName.Some?
      modifies this
      ensures user == old(user) && groupName == old(groupName) && outbox == old(outbox)
      ensures accepted == old(accepted) && closed == old(closed)
      ensures layer == DisconnectStep(old(layer), Connection(user, groupName, accepted, closed), channelName)
    {
      if !user.Anonymous? {
        layer := GroupDiscard(layer, groupName.value, channelName);
      }
    }

    /** `send_notification` as written: the event's record is sent as it is. */
    method SendNotificationEvent(notification: NotificationSocket.Frame)
      modifies this
      ensures outbox == old(outbox) + [SendNotificationAsWritten(notification)]
      ensures layer == old(layer) && user == old(user) && groupName == old(groupName)
      ensures accepted == old(accepted) && closed == old(closed)
    {
      outbox := outbox + [SendNotificationAsWritten(notification)];
    }
  }
}

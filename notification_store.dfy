/** The notification provider's state: the list shown in the bell menu, the
    unread counter beside it, and the loading flag. */
module NotificationStore {
  import opened Common

  datatype Notification = Notification(id: int, message: string, isRead: bool)

  /** `notifs.filter(n => !n.is_read).length`. */
  function CountUnread(ns: seq<Notification>): (r: nat)
    ensures r <= |ns|
    ensures r == 0 <==> forall k :: 0 <= k < |ns| ==> ns[k].isRead
    ensures r == |ns| <==> forall k :: 0 <= k < |ns| ==> !ns[k].isRead
  {
    if ns == [] then 0
    else (if ns[0].isRead then 0 else 1) + CountUnread(ns[1..])
  }

  /** How many unread entries carry `id`. */
  function UnreadWithId(ns: seq<Notification>, id: int): (r: nat)
    ensures r <= CountUnread(ns)
  {
    if ns == [] then 0
    else (if ns[0].id == id && !ns[0].isRead then 1 else 0) + UnreadWithId(ns[1..], id)
  }

  /** `prev.map(n => n.id === id ? { ...n, is_read: true } : n)`. */
  function MarkRead(ns: seq<Notification>, id: int): (r: seq<Notification>)
    ensures |r| == |ns|
    ensures forall k :: 0 <= k < |ns| ==> r[k] == if ns[k].id == id then ns[k].(isRead := true) else ns[k]
  {
    if ns == [] then [] else [if ns[0].id == id then ns[0].(isRead := true) else ns[0]] + MarkRead(ns[1..], id)
  }

  /** `prev.map(n => ({ ...n, is_read: true }))`. */
  function MarkAll(ns: seq<Notification>): (r: seq<Notification>)
    ensures |r| == |ns|
    ensures forall k :: 0 <= k < |ns| ==> r[k] == ns[k].(isRead := true)
  {
    seq(|ns|, k requires 0 <= k < |ns| => ns[k].(isRead := true))
  }

  /** Marking one id read removes exactly its unread entries from the count. */
  lemma {:induction false} MarkReadCount(ns: seq<Notification>, id: int)
    ensures CountUnread(MarkRead(ns, id)) == CountUnread(ns) - UnreadWithId(ns, id)
  {
    if ns != [] {
      MarkReadCount(ns[1..], id);
      assert MarkRead(ns, id)[1..] == MarkRead(ns[1..], id);
    }
  }

  lemma MarkReadIdempotent(ns: seq<Notification>, id: int)
    ensures MarkRead(MarkRead(ns, id), id) == MarkRead(ns, id)
    ensures UnreadWithId(MarkRead(ns, id), id) == 0
  {
    MarkReadCount(MarkRead(ns, id), id);
    MarkReadCount(ns, id);
    assert forall k :: 0 <= k < |ns| ==> MarkRead(MarkRead(ns, id), id)[k] == MarkRead(ns, id)[k];
  }

  /** The view state of the provider. */
  datatype View = View(notifications: seq<Notification>, unreadCount: int, loading: bool)

  /** The counter agrees with the list. */
  predicate Consistent(v: View) {
    v.unreadCount == CountUnread(v.notifications)
  }

  function Initial(): (v: View)
    ensures Consistent(v) && v.loading
  {
    View([], 0, true)
  }

  /** `fetchNotifications`: on success the list is replaced and the counter
      recounted; either way loading ends. */
  function FetchStep(v: View, outcome: HttpOutcome<seq<Notification>>): (r: View)
    ensures !r.loading
    ensures outcome.Success? ==> r.notifications == outcome.data && Consistent(r)
    ensures !outcome.Success? ==> r == v.(loading := false)
  {
    match outcome
    case Success(data) => View(data, CountUnread(data), false)
    case _ => v.(loading := false)
  }

  /** A pushed frame is prepended and the counter goes up by one, whatever
      the frame says about itself. */
  function PushStep(v: View, n: Notification): (r: View)
    ensures r.notifications == [n] + v.notifications && r.unreadCount == v.unreadCount + 1
    ensures Consistent(v) ==> (Consistent(r) <==> !n.isRead)
  {
    View([n] + v.notifications, v.unreadCount + 1, v.loading)
  }

  /** `markAsRead` as written: after the server acknowledges, the entries with
      that id are marked and the counter goes down by one, unconditionally. */
  function MarkAsReadStep(v: View, id: int, acknowledged: bool): (r: View)
    ensures !acknowledged ==> r == v
    ensures acknowledged ==> r.notifications == MarkRead(v.notifications, id) && r.unreadCount == v.unreadCount - 1
  {
    if acknowledged then v.(notifications := MarkRead(v.notifications, id), unreadCount := v.unreadCount - 1) else v
  }

  /** The as-written step keeps the counter right only when exactly one unread
      entry carries the id. */
  lemma MarkAsReadConsistentExactlyWhenOneUnread(v: View, id: int)
    requires Consistent(v)
    ensures Consistent(MarkAsReadStep(v, id, true)) <==> UnreadWithId(v.notifications, id) == 1
  {
    MarkReadCount(v.notifications, id);
  }

  /** Marking an already read notification drives the counter to -1 while
      the list has no unread entry. */
  lemma MarkAsReadDrifts()
    ensures var v := View([Notification(1, "m", true)], 0, false);
            Consistent(v) && MarkAsReadStep(v, 1, true).unreadCount == -1
            && !Consistent(MarkAsReadStep(v, 1, true))
  {
    var ns := [Notification(1, "m", true)];
    assert CountUnread(ns) == 0;
    assert MarkRead(ns, 1) == ns;
  }

  /** The corrected step: the counter drops by the number of unread entries
      that were marked. */
  function MarkAsReadRecount(v: View, id: int, acknowledged: bool): (r: View)
    ensures !acknowledged ==> r == v
    ensures acknowledged ==> r.notifications == MarkRead(v.notifications, id)
    ensures Consistent(v) ==> Consistent(r) && r.unreadCount >= 0
  {
    MarkReadCount(v.notifications, id);
    if acknowledged then
      v.(notifications := MarkRead(v.notifications, id), unreadCount := v.unreadCount - UnreadWithId(v.notifications, id))
    else v
  }

  /** `markAllAsRead`: every entry read and the counter zero, which agrees
      with the list. */
  function MarkAllStep(v: View, acknowledged: bool): (r: View)
    ensures !acknowledged ==> r == v
    ensures acknowledged ==> r.notifications == MarkAll(v.notifications) && r.unreadCount == 0 && Consistent(r)
  {
    if acknowledged then v.(notifications := MarkAll(v.notifications), unreadCount := 0) else v
  }

  /** The provider's state cells. */
  class NotificationProvider {
    var notifications: seq<Notification>
    var unreadCount: int
    var loading: bool

    function State(): View
      reads this
    {
      View(notifications, unreadCount, loading)
    }

    constructor()
      ensures State() == Initial()
    {
      notifications := [];
      unreadCount := 0;
      loading := true;
    }

    method FetchNotifications(outcome: HttpOutcome<seq<Notification>>)
      modifies this
      ensures State() == FetchStep(old(State()), outcome)
    {
      if outcome.Success? {
        notifications := outcome.data;
        unreadCount := CountUnread(outcome.data);
      }
      loading := false;
    }

    method OnPush(n: Notification)
      modifies this
      ensures State() == PushStep(old(State()), n)
    {
      notifications := [n] + notifications;
      unreadCount := unreadCount + 1;
    }

    method MarkAsRead(id: int, acknowledged: bool)
      modifies this
      ensures State() == MarkAsReadStep(old(State()), id, acknowledged)
    {
      if acknowledged {
        notifications := MarkRead(notifications, id);
        unreadCount := unreadCount - 1;
      }
    }

    method MarkAllAsRead(acknowledged: bool)
      modifies this
      ensures State() == MarkAllStep(old(State()), acknowledged)
    {
      if acknowledged {
        notifications := MarkAll(notifications);
        unreadCount := 0;
      }
    }
  }
}

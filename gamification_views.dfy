/** The gamification endpoints: the leaderboard, the requester's badges,
    transactions and notifications, and marking notifications read. */
module GamificationViews {
  import opened Common
  import Sorting
  import Sequences

  type UserId = int

  datatype Account = Account(user: UserId, totalPoints: int)
  datatype EarnedBadge = EarnedBadge(user: UserId, badge: string, awardedAt: int)
  datatype PointsEntry = PointsEntry(user: UserId, amount: int, timestamp: int)
  datatype Notification = Notification(id: int, user: UserId, message: string, isRead: bool, createdAt: int)

  datatype Reply = Marked(code: int, notification: Notification) | NotFound | AllMarked(code: int, status: string)

  const LeaderboardSize: nat := 10

  function MostPointsFirst(a: Account): int { -a.totalPoints }

  /** `order_by('-total_points')[:10]`. */
  function Leaderboard(accounts: seq<Account>): seq<Account>
  {
    Sorting.Take(Sorting.SortBy(accounts, MostPointsFirst), LeaderboardSize)
  }

  /** At most ten accounts, best first, all real; when some are left out,
      none of them has more points than the last one shown. */
  lemma LeaderboardIsTopTen(accounts: seq<Account>)
    ensures var r := Leaderboard(accounts);
            && |r| == (if |accounts| < LeaderboardSize then |accounts| else LeaderboardSize)
            && (forall i, j :: 0 <= i < j < |r| ==> r[i].totalPoints >= r[j].totalPoints)
            && (forall k :: 0 <= k < |r| ==> r[k] in accounts)
            && (forall k :: 0 <= k < |accounts| && accounts[k] !in r ==> accounts[k].totalPoints <= r[|r| - 1].totalPoints)
  {
    var s := Sorting.SortBy(accounts, MostPointsFirst);
    var r := Leaderboard(accounts);
    Sorting.SortByKeepsElements(accounts, MostPointsFirst);
    forall k | 0 <= k < |accounts| && accounts[k] !in r
      ensures accounts[k].totalPoints <= r[|r| - 1].totalPoints
    {
      var j :| 0 <= j < |s| && s[j] == accounts[k];
      assert j >= |r|;
      assert MostPointsFirst(s[|r| - 1]) <= MostPointsFirst(s[j]);
    }
  }

  function OwnBadges(badges: seq<EarnedBadge>, user: UserId): seq<EarnedBadge> {
    Sequences.Where(badges, (b: EarnedBadge) => b.user == user)
  }

  function NewestEntryFirst(t: PointsEntry): int { -t.timestamp }
  function NewestNotificationFirst(n: Notification): int { -n.createdAt }

  /** The requester's transactions, newest first. */
  function OwnTransactions(entries: seq<PointsEntry>, user: UserId): seq<PointsEntry> {
    Sorting.SortBy(Sequences.Where(entries, (t: PointsEntry) => t.user == user), NewestEntryFirst)
  }

  /** The requester's notifications, newest first. */
  function OwnNotifications(ns: seq<Notification>, user: UserId): seq<Notification> {
    Sorting.SortBy(Sequences.Where(ns, (n: Notification) => n.user == user), NewestNotificationFirst)
  }

  lemma OwnListsAreOwn(badges: seq<EarnedBadge>, entries: seq<PointsEntry>, ns: seq<Notification>, user: UserId)
    ensures var b := OwnBadges(badges, user);
            && (forall k :: 0 <= k < |b| ==> b[k].user == user && b[k] in badges)
            && (forall k :: 0 <= k < |badges| && badges[k].user == user ==> badges[k] in b)
    ensures var t := OwnTransactions(entries, user);
            && (forall i, j :: 0 <= i < j < |t| ==> t[i].timestamp >= t[j].timestamp)
            && (forall k :: 0 <= k < |t| ==> t[k].user == user && t[k] in entries)
            && (forall k :: 0 <= k < |entries| && entries[k].user == user ==> entries[k] in t)
    ensures var n := OwnNotifications(ns, user);
            && (forall i, j :: 0 <= i < j < |n| ==> n[i].createdAt >= n[j].createdAt)
            && (forall k :: 0 <= k < |n| ==> n[k].user == user && n[k] in ns)
            && (forall k :: 0 <= k < |ns| && ns[k].user == user ==> ns[k] in n)
  {
    OwnTransactionsAreOwn(entries, user);
    OwnNotificationsAreOwn(ns, user);
  }

  lemma OwnTransactionsAreOwn(entries: seq<PointsEntry>, user: UserId)
    ensures var t := OwnTransactions(entries, user);
            && (forall i, j :: 0 <= i < j < |t| ==> t[i].timestamp >= t[j].timestamp)
            && (forall k :: 0 <= k < |t| ==> t[k].user == user && t[k] in entries)
            && (forall k :: 0 <= k < |entries| && entries[k].user == user ==> entries[k] in t)
  {
    var w := Sequences.Where(entries, (t: PointsEntry) => t.user == user);
    var r := Sorting.SortBy(w, NewestEntryFirst);
    Sorting.SortByKeepsElements(w, NewestEntryFirst);
    forall i, j | 0 <= i < j < |r|
      ensures r[i].timestamp >= r[j].timestamp
    {
      assert NewestEntryFirst(r[i]) <= NewestEntryFirst(r[j]);
    }
    forall k | 0 <= k < |r|
      ensures r[k].user == user && r[k] in entries
    {
      var m :| 0 <= m < |w| && w[m] == r[k];
    }
  }

  lemma OwnNotificationsAreOwn(ns: seq<Notification>, user: UserId)
    ensures var n := OwnNotifications(ns, user);
            && (forall i, j :: 0 <= i < j < |n| ==> n[i].createdAt >= n[j].createdAt)
            && (forall k :: 0 <= k < |n| ==> n[k].user == user && n[k] in ns)
            && (forall k :: 0 <= k < |ns| && ns[k].user == user ==> ns[k] in n)
  {
    var w := Sequences.Where(ns, (n: Notification) => n.user == user);
    var r := Sorting.SortBy(w, NewestNotificationFirst);
    Sorting.SortByKeepsElements(w, NewestNotificationFirst);
    forall i, j | 0 <= i < j < |r|
      ensures r[i].createdAt >= r[j].createdAt
    {
      assert NewestNotificationFirst(r[i]) <= NewestNotificationFirst(r[j]);
    }
    forall k | 0 <= k < |r|
      ensures r[k].user == user && r[k] in ns
    {
      var m :| 0 <= m < |w| && w[m] == r[k];
    }
  }

  predicate Mine(n: Notification, id: int, user: UserId) {
    n.id == id && n.user == user
  }

  predicate HasMine(ns: seq<Notification>, id: int, user: UserId) {
    exists k :: 0 <= k < |ns| && Mine(ns[k], id, user)
  }

  function FirstMine(ns: seq<Notification>, id: int, user: UserId): (r: Option<nat>)
    ensures r.None? <==> !HasMine(ns, id, user)
    ensures r.Some? ==> r.value < |ns| && Mine(ns[r.value], id, user)
  {
    if ns == [] then None
    else if Mine(ns[0], id, user) then Some(0)
    else
      var rest := FirstMine(ns[1..], id, user);
      if rest.Some? then Some(rest.value + 1)
      else
        assert !HasMine(ns, id, user) by {
          forall k | 0 <= k < |ns|
            ensures !Mine(ns[k], id, user)
          {
            if k > 0 {
              assert ns[k] == ns[1..][k - 1];
            }
          }
        }
        None
  }

  function ReadIf(ns: seq<Notification>, keep: Notification -> bool): (r: seq<Notification>)
    ensures |r| == |ns|
    ensures forall k :: 0 <= k < |ns| ==> r[k] == if keep(ns[k]) then ns[k].(isRead := true) else ns[k]
  {
    seq(|ns|, k requires 0 <= k < |ns| => if keep(ns[k]) then ns[k].(isRead := true) else ns[k])
  }

  /** `NotificationMarkAsReadView.update`: only the requester's own
      notification is found (404 otherwise), and it becomes read. */
  function MarkAsReadStep(ns: seq<Notification>, id: int, user: UserId): (r: (seq<Notification>, Reply))
    ensures !HasMine(ns, id, user) ==> r == (ns, NotFound)
    ensures HasMine(ns, id, user) ==> r.1.Marked? && r.1.code == 200 && Mine(r.1.notification, id, user) && r.1.notification.isRead
    ensures |r.0| == |ns|
    ensures forall k :: 0 <= k < |ns| ==> r.0[k] == if Mine(ns[k], id, user) then ns[k].(isRead := true) else ns[k]
  {
    if !HasMine(ns, id, user) then (ns, NotFound)
    else
      var updated := ReadIf(ns, (n: Notification) => Mine(n, id, user));
      (updated, Marked(200, updated[FirstMine(ns, id, user).value]))
  }

  /** Marking again changes nothing. */
  lemma MarkAsReadIdempotent(ns: seq<Notification>, id: int, user: UserId)
    ensures var once := MarkAsReadStep(ns, id, user).0;
            MarkAsReadStep(once, id, user).0 == once
  {
    var once := MarkAsReadStep(ns, id, user).0;
    if HasMine(ns, id, user) {
      var k :| 0 <= k < |ns| && Mine(ns[k], id, user);
      assert Mine(once[k], id, user);
    }
  }

  /** `NotificationMarkAllAsReadView.create`: the requester's unread
      notifications become read; nobody else's change. */
  function MarkAllStep(ns: seq<Notification>, user: UserId): (r: (seq<Notification>, Reply))
    ensures r.1 == AllMarked(200, "All notifications marked as read")
    ensures |r.0| == |ns|
    ensures forall k :: 0 <= k < |ns| ==> r.0[k] == if ns[k].user == user then ns[k].(isRead := true) else ns[k]
  {
    (ReadIf(ns, (n: Notification) => n.user == user && !n.isRead), AllMarked(200, "All notifications marked as read"))
  }

  /** Afterwards the requester has nothing unread. */
  lemma MarkAllLeavesNoneUnread(ns: seq<Notification>, user: UserId)
    ensures var r := MarkAllStep(ns, user).0;
            forall k :: 0 <= k < |r| && r[k].user == user ==> r[k].isRead
  {
  }

  class GamificationApi {
    var notifications: seq<Notification>

    constructor(ns: seq<Notification>)
      ensures notifications == ns
    {
      notifications := ns;
    }

    method MarkAsRead(id: int, user: UserId) returns (reply: Reply)
      modifies this
      ensures var r := MarkAsReadStep(old(notifications), id, user);
              notifications == r.0 && reply == r.1
    {
      var r := MarkAsReadStep(notifications, id, user);
      notifications := r.0;
      reply := r.1;
    }

    method MarkAllAsRead(user: UserId) returns (reply: Reply)
      modifies this
      ensures var r := MarkAllStep(old(notifications), user);
              notifications == r.0 && reply == r.1
    {
      var r := MarkAllStep(notifications, user);
      notifications := r.0;
      reply := r.1;
    }
  }
}

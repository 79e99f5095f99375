/** The points and badge bookkeeping run when a task, a sustainability
    action, a user badge or a user is saved: the points account, the
    transaction log, the badges held and the badge notifications. */
module GamificationSignals {
  import opened Common
  import Sequences

  type UserId = int

  datatype PointsSource = TaskCompletion | SustainabilityAction | Bonus

  datatype Transaction = Transaction(user: UserId, amount: int, source: PointsSource, referenceId: string)

  datatype Badge = Badge(id: string, name: string, pointsRequired: int)

  datatype UserBadge = UserBadge(user: UserId, badge: string)

  /** A notification row as the badge receiver writes it. */
  datatype Notice = Notice(user: UserId, message: string)

  /** The tables these receivers write: each user's `total_points`, the
      transactions, the user badges and the notifications, in creation order. */
  datatype Ledger = Ledger(totals: map<UserId, int>, transactions: seq<Transaction>, awards: seq<UserBadge>, notifications: seq<Notice>)

  /** The saved task: `pointsRewarded` is the `points_rewarded` attribute the
      receiver reads from the instance, when it has one, and `pointsProcessed`
      the flag it reads with a default of false and then sets. */
  datatype TaskInstance = TaskInstance(id: string, user: UserId, isCompleted: bool, pointsRewarded: Option<int>, pointsProcessed: bool)

  datatype ActionInstance = ActionInstance(id: string, user: UserId, pointsRewarded: Option<int>, pointsProcessed: bool)

  /** `unique_together = ('user', 'badge')`. */
  predicate Unique(awards: seq<UserBadge>) {
    forall i, j :: 0 <= i < j < |awards| ==> awards[i] != awards[j]
  }

  predicate DistinctIds(catalog: seq<Badge>) {
    forall i, j :: 0 <= i < j < |catalog| ==> catalog[i].id != catalog[j].id
  }

  function HeldBy(awards: seq<UserBadge>, user: UserId): set<string> {
    set k | 0 <= k < |awards| && awards[k].user == user :: awards[k].badge
  }

  function TotalOf(totals: map<UserId, int>, user: UserId): int {
    if user in totals then totals[user] else 0
  }

  /** `get_or_create` the account, add the amount, log a transaction. */
  function Credit(l: Ledger, user: UserId, amount: int, source: PointsSource, ref: string): (r: Ledger)
    ensures user in r.totals && r.totals[user] == TotalOf(l.totals, user) + amount
    ensures forall u :: u != user ==> (u in r.totals <==> u in l.totals) && TotalOf(r.totals, u) == TotalOf(l.totals, u)
    ensures r.transactions == l.transactions + [Transaction(user, amount, source, ref)]
    ensures r.awards == l.awards && r.notifications == l.notifications
  {
    l.(totals := l.totals[user := TotalOf(l.totals, user) + amount],
       transactions := l.transactions + [Transaction(user, amount, source, ref)])
  }

  // ----------------------------------------------------------------- badges

  predicate Qualifies(held: set<string>, total: int, b: Badge) {
    b.pointsRequired <= total && b.id !in held
  }

  /** The badge query: thresholds reached, excluding those already held. */
  function Eligible(catalog: seq<Badge>, held: set<string>, total: int): seq<Badge>
  {
    Sequences.Where(catalog, b => Qualifies(held, total, b))
  }

  function AwardsFor(user: UserId, bs: seq<Badge>): (r: seq<UserBadge>)
    ensures |r| == |bs|
    ensures forall k :: 0 <= k < |bs| ==> r[k] == UserBadge(user, bs[k].id)
  {
    seq(|bs|, k requires 0 <= k < |bs| => UserBadge(user, bs[k].id))
  }

  function BadgeMessage(name: string): string {
    "Congratulations! You've earned the '" + name + "' badge."
  }

  /** One notification per newly created user badge, as the receiver on
      `UserBadge` intends. */
  function BadgeNotices(user: UserId, bs: seq<Badge>): (r: seq<Notice>)
    ensures |r| == |bs|
    ensures forall k :: 0 <= k < |bs| ==> r[k] == Notice(user, BadgeMessage(bs[k].name))
  {
    seq(|bs|, k requires 0 <= k < |bs| => Notice(user, BadgeMessage(bs[k].name)))
  }

  /** `check_and_award_badges`, with the badge notification of each new
      award. */
  function AwardBadges(l: Ledger, catalog: seq<Badge>, user: UserId): Ledger
    requires user in l.totals
  {
    var e := Eligible(catalog, HeldBy(l.awards, user), l.totals[user]);
    l.(awards := l.awards + AwardsFor(user, e), notifications := l.notifications + BadgeNotices(user, e))
  }

  /** `check_and_award_badges` as the module is written: the receiver that
      would notify is bound to a name the user receiver later reuses, and
      signals hold their receivers weakly, so no notification is written. */
  function AwardBadgesAsWritten(l: Ledger, catalog: seq<Badge>, user: UserId): (r: Ledger)
    requires user in l.totals
    ensures r.awards == AwardBadges(l, catalog, user).awards
    ensures r.notifications == l.notifications && r.totals == l.totals && r.transactions == l.transactions
  {
    var e := Eligible(catalog, HeldBy(l.awards, user), l.totals[user]);
    l.(awards := l.awards + AwardsFor(user, e))
  }

  lemma HeldAfterAwards(awards: seq<UserBadge>, user: UserId, bs: seq<Badge>)
    ensures HeldBy(awards + AwardsFor(user, bs), user)
         == HeldBy(awards, user) + (set k | 0 <= k < |bs| :: bs[k].id)
  {
    var all := awards + AwardsFor(user, bs);
    forall id | id in HeldBy(all, user)
      ensures id in HeldBy(awards, user) + (set k | 0 <= k < |bs| :: bs[k].id)
    {
      var k :| 0 <= k < |all| && all[k].user == user && all[k].badge == id;
      if k >= |awards| {
        assert bs[k - |awards|].id == id;
      } else {
        assert awards[k] == all[k];
      }
    }
    forall id | id in HeldBy(awards, user) + (set k | 0 <= k < |bs| :: bs[k].id)
      ensures id in HeldBy(all, user)
    {
      if id in HeldBy(awards, user) {
        var k :| 0 <= k < |awards| && awards[k].user == user && awards[k].badge == id;
        assert all[k] == awards[k];
      } else {
        var k :| 0 <= k < |bs| && bs[k].id == id;
        assert all[|awards| + k] == UserBadge(user, id);
      }
    }
  }

  /** Afterwards the user holds every badge whose threshold the total
      reaches, and holds nothing new below it. */
  lemma AwardHoldsEveryReachedBadge(l: Ledger, catalog: seq<Badge>, user: UserId)
    requires user in l.totals
    ensures var after := HeldBy(AwardBadges(l, catalog, user).awards, user);
            && (forall k :: 0 <= k < |catalog| && catalog[k].pointsRequired <= l.totals[user] ==> catalog[k].id in after)
            && (forall id :: id in after && id !in HeldBy(l.awards, user) ==>
                  exists k :: 0 <= k < |catalog| && catalog[k].id == id && catalog[k].pointsRequired <= l.totals[user])
  {
    var held := HeldBy(l.awards, user);
    var e := Eligible(catalog, held, l.totals[user]);
    HeldAfterAwards(l.awards, user, e);
    forall id | id in HeldBy(AwardBadges(l, catalog, user).awards, user) && id !in held
      ensures exists k :: 0 <= k < |catalog| && catalog[k].id == id && catalog[k].pointsRequired <= l.totals[user]
    {
      var j :| 0 <= j < |e| && e[j].id == id;
      assert e[j] in catalog;
      var k :| 0 <= k < |catalog| && catalog[k] == e[j];
    }
  }

  lemma {:induction false} EligibleDistinct(catalog: seq<Badge>, held: set<string>, total: int)
    requires DistinctIds(catalog)
    ensures DistinctIds(Eligible(catalog, held, total))
    decreases |catalog|
  {
    if catalog != [] {
      var rest := catalog[1..];
      EligibleDistinct(rest, held, total);
      var e := Eligible(rest, held, total);
      forall k | 0 <= k < |e|
        ensures e[k].id != catalog[0].id
      {
        var j :| 0 <= j < |rest| && rest[j] == e[k];
        assert catalog[j + 1] == rest[j];
      }
    }
  }

  /** Awarding never creates a second `(user, badge)` row. */
  lemma AwardKeepsUnique(l: Ledger, catalog: seq<Badge>, user: UserId)
    requires user in l.totals && DistinctIds(catalog) && Unique(l.awards)
    ensures Unique(AwardBadges(l, catalog, user).awards)
  {
    var held := HeldBy(l.awards, user);
    var e := Eligible(catalog, held, l.totals[user]);
    EligibleDistinct(catalog, held, l.totals[user]);
    var all := l.awards + AwardsFor(user, e);
    forall i, j | 0 <= i < j < |all|
      ensures all[i] != all[j]
    {
      if j >= |l.awards| && i < |l.awards| {
        assert e[j - |l.awards|].id !in held;
        assert l.awards[i].user == user ==> l.awards[i].badge in held;
      }
    }
  }

  /** Every newly created user badge comes with exactly one notification
      naming it, addressed to its holder. */
  lemma OneNoticePerNewBadge(l: Ledger, catalog: seq<Badge>, user: UserId)
    requires user in l.totals
    ensures var r := AwardBadges(l, catalog, user);
            && |r.notifications| - |l.notifications| == |r.awards| - |l.awards|
            && r.notifications[..|l.notifications|] == l.notifications
            && (forall k :: |l.awards| <= k < |r.awards| ==> r.awards[k].user == user)
            && (forall k :: |l.notifications| <= k < |r.notifications| ==> r.notifications[k].user == user)
  {
  }

  /** Awarding again straight afterwards adds nothing. */
  lemma AwardIdempotent(l: Ledger, catalog: seq<Badge>, user: UserId)
    requires user in l.totals
    ensures AwardBadges(AwardBadges(l, catalog, user), catalog, user) == AwardBadges(l, catalog, user)
  {
    var r := AwardBadges(l, catalog, user);
    AwardHoldsEveryReachedBadge(l, catalog, user);
    var held := HeldBy(r.awards, user);
    Sequences.WhereNone(catalog, b => Qualifies(held, r.totals[user], b));
    assert r.awards + [] == r.awards;
    assert r.notifications + [] == r.notifications;
  }

  /** As written, awarding again straight afterwards adds nothing either. */
  lemma AwardIdempotentAsWritten(l: Ledger, catalog: seq<Badge>, user: UserId)
    requires user in l.totals
    ensures AwardBadgesAsWritten(AwardBadgesAsWritten(l, catalog, user), catalog, user) == AwardBadgesAsWritten(l, catalog, user)
  {
    var w := AwardBadgesAsWritten(l, catalog, user);
    var r := AwardBadges(l, catalog, user);
    AwardIdempotent(l, catalog, user);
    assert AwardBadges(w, catalog, user).awards == AwardBadges(r, catalog, user).awards;
  }

  /** As written, a user who earns a badge gets the badge but no
      notification. */
  lemma EarnedBadgeUnnoticedAsWritten()
    ensures var l := Ledger(map[7 := 100], [], [], []);
            var catalog := [Badge("b1", "Seedling", 50)];
            var r := AwardBadgesAsWritten(l, catalog, 7);
            r.awards == [UserBadge(7, "b1")] && r.notifications == []
  {
    var catalog := [Badge("b1", "Seedling", 50)];
    assert Eligible(catalog, {}, 100) == catalog;
  }

  // -------------------------------------------------------------- receivers

  /** What a receiver leaves behind: the updated tables and the instance, or
      an `AttributeError` raised before anything is written. */
  datatype Saved<T> = Saved(ledger: Ledger, instance: T) | MissingAttribute(name: string)

  predicate TaskFires(t: TaskInstance) {
    t.isCompleted && !t.pointsProcessed
  }

  /** The instance a task save hands the receiver, as backend/tasks/models.py
      declares it: no `points_rewarded` attribute. */
  function DeclaredTask(id: string, user: UserId, isCompleted: bool): TaskInstance {
    TaskInstance(id, user, isCompleted, None, false)
  }

  /** The `post_save` receiver on Task: a completed task not yet processed
      reads `points_rewarded` (raising when the instance has none), credits
      its owner once, awards badges as the module is written and is marked
      processed. */
  function TaskSaveStep(l: Ledger, catalog: seq<Badge>, t: TaskInstance): (r: Saved<TaskInstance>)
    ensures !TaskFires(t) ==> r == Saved(l, t)
    ensures TaskFires(t) && t.pointsRewarded.None? ==> r == MissingAttribute("points_rewarded")
    ensures TaskFires(t) && t.pointsRewarded.Some? ==>
              && r.Saved? && r.instance == t.(pointsProcessed := true)
              && TotalOf(r.ledger.totals, t.user) == TotalOf(l.totals, t.user) + t.pointsRewarded.value
              && (forall u :: u != t.user ==> TotalOf(r.ledger.totals, u) == TotalOf(l.totals, u))
              && r.ledger.transactions == l.transactions + [Transaction(t.user, t.pointsRewarded.value, TaskCompletion, t.id)]
              && r.ledger.awards == AwardBadges(Credit(l, t.user, t.pointsRewarded.value, TaskCompletion, t.id), catalog, t.user).awards
              && r.ledger.notifications == l.notifications
  {
    if !TaskFires(t) then Saved(l, t)
    else if t.pointsRewarded.None? then MissingAttribute("points_rewarded")
    else
      var c := Credit(l, t.user, t.pointsRewarded.value, TaskCompletion, t.id);
      Saved(AwardBadgesAsWritten(c, catalog, t.user), t.(pointsProcessed := true))
  }

  /** With the Task model as declared, completing a task raises. */
  lemma DeclaredTaskCompletionRaises(l: Ledger, catalog: seq<Badge>, id: string, user: UserId)
    ensures TaskSaveStep(l, catalog, DeclaredTask(id, user, true)).MissingAttribute?
    ensures TaskSaveStep(l, catalog, DeclaredTask(id, user, false)) == Saved(l, DeclaredTask(id, user, false))
  {
  }

  /** The receiver's own `instance.save()` re-enters it with the processed
      instance, which changes nothing. */
  lemma TaskResaveAddsNothing(l: Ledger, catalog: seq<Badge>, t: TaskInstance)
    requires TaskSaveStep(l, catalog, t).Saved?
    ensures var r := TaskSaveStep(l, catalog, t);
            TaskSaveStep(r.ledger, catalog, r.instance) == r
  {
  }

  /** The instance an action save hands the receiver, as
      backend/sustainability/models.py declares it: `points_earned`, but no
      `points_rewarded`. */
  function DeclaredAction(id: string, user: UserId): ActionInstance {
    ActionInstance(id, user, None, false)
  }

  /** The receiver on SustainabilityAction fires only for a newly created,
      unprocessed action. */
  function ActionSaveStep(l: Ledger, catalog: seq<Badge>, a: ActionInstance, created: bool): (r: Saved<ActionInstance>)
    ensures !(created && !a.pointsProcessed) ==> r == Saved(l, a)
    ensures created && !a.pointsProcessed && a.pointsRewarded.None? ==> r == MissingAttribute("points_rewarded")
    ensures created && !a.pointsProcessed && a.pointsRewarded.Some? ==>
              && r.Saved? && r.instance == a.(pointsProcessed := true)
              && TotalOf(r.ledger.totals, a.user) == TotalOf(l.totals, a.user) + a.pointsRewarded.value
              && (forall u :: u != a.user ==> TotalOf(r.ledger.totals, u) == TotalOf(l.totals, u))
              && r.ledger.transactions == l.transactions + [Transaction(a.user, a.pointsRewarded.value, SustainabilityAction, a.id)]
              && r.ledger.awards == AwardBadges(Credit(l, a.user, a.pointsRewarded.value, SustainabilityAction, a.id), catalog, a.user).awards
              && r.ledger.notifications == l.notifications
  {
    if !(created && !a.pointsProcessed) then Saved(l, a)
    else if a.pointsRewarded.None? then MissingAttribute("points_rewarded")
    else
      var c := Credit(l, a.user, a.pointsRewarded.value, SustainabilityAction, a.id);
      Saved(AwardBadgesAsWritten(c, catalog, a.user), a.(pointsProcessed := true))
  }

  /** With the SustainabilityAction model as declared, creating an action
      raises. */
  lemma DeclaredActionCreationRaises(l: Ledger, catalog: seq<Badge>, id: string, user: UserId)
    ensures ActionSaveStep(l, catalog, DeclaredAction(id, user), true).MissingAttribute?
  {
  }

  /** Points for an action are awarded once: any later save adds nothing. */
  lemma ActionAwardedOnce(l: Ledger, catalog: seq<Badge>, a: ActionInstance, created: bool, createdAgain: bool)
    requires ActionSaveStep(l, catalog, a, created).Saved? && created && !a.pointsProcessed
    ensures var r := ActionSaveStep(l, catalog, a, created);
            ActionSaveStep(r.ledger, catalog, r.instance, createdAgain) == r
  {
  }

  /** A completed task with an amount lifts its owner to every badge the new
      total reaches, and only to such badges. */
  lemma TaskSaveAwardsReachedBadges(l: Ledger, catalog: seq<Badge>, t: TaskInstance)
    requires TaskFires(t) && t.pointsRewarded.Some?
    ensures var r := TaskSaveStep(l, catalog, t);
            var total := TotalOf(l.totals, t.user) + t.pointsRewarded.value;
            var after := HeldBy(r.ledger.awards, t.user);
            && (forall k :: 0 <= k < |catalog| && catalog[k].pointsRequired <= total ==> catalog[k].id in after)
            && (forall id :: id in after && id !in HeldBy(l.awards, t.user) ==>
                  exists k :: 0 <= k < |catalog| && catalog[k].id == id && catalog[k].pointsRequired <= total)
  {
    var c := Credit(l, t.user, t.pointsRewarded.value, TaskCompletion, t.id);
    AwardHoldsEveryReachedBadge(c, catalog, t.user);
  }

  /** The receiver on User: a new user gets an account with no points. */
  function UserCreatedStep(l: Ledger, user: UserId, created: bool): (r: Ledger)
    requires created ==> user !in l.totals
    ensures created ==> user in r.totals && r.totals[user] == 0
    ensures !created ==> r == l
    ensures r.transactions == l.transactions && r.awards == l.awards && r.notifications == l.notifications
  {
    if created then l.(totals := l.totals[user := 0]) else l
  }

  lemma AwardSnoc(user: UserId, bs: seq<Badge>, i: nat)
    requires i < |bs|
    ensures AwardsFor(user, bs[..i + 1]) == AwardsFor(user, bs[..i]) + [UserBadge(user, bs[i].id)]
  {
  }

  /** The tables as objects the receivers update in place. */
  class PointsSignals {
    const catalog: seq<Badge>
    var totals: map<UserId, int>
    var transactions: seq<Transaction>
    var awards: seq<UserBadge>
    var notifications: seq<Notice>

    function State(): Ledger
      reads this
    {
      Ledger(totals, transactions, awards, notifications)
    }

    predicate Valid()
      reads this
    {
      DistinctIds(catalog) && Unique(awards)
    }

    constructor(badges: seq<Badge>)
      requires DistinctIds(badges)
      ensures catalog == badges && State() == Ledger(map[], [], [], []) && Valid()
    {
      catalog := badges;
      totals, transactions, awards, notifications := map[], [], [], [];
    }

    /** `check_and_award_badges`: one UserBadge per qualifying badge, in
      catalog order, and (as the module is written) no notification. */
    method CheckAndAwardBadges(user: UserId)
      requires user in totals && Valid()
      modifies this
      ensures State() == AwardBadgesAsWritten(old(State()), catalog, user) && Valid()
    {
      ghost var l0 := State();
      AwardKeepsUnique(l0, catalog, user);
      var badges := Eligible(catalog, HeldBy(awards, user), totals[user]);
      var created: seq<UserBadge> := [];
      var i := 0;
      while i < |badges|
        invariant 0 <= i <= |badges|
        invariant created == AwardsFor(user, badges[..i])
        modifies {}
      {
        AwardSnoc(user, badges, i);
        created := created + [UserBadge(user, badges[i].id)];
        i := i + 1;
      }
      assert badges[..i] == badges;
      awards := awards + created;
    }

    method OnTaskSaved(t: TaskInstance) returns (outcome: Saved<TaskInstance>)
      requires Valid()
      modifies this
      ensures outcome == TaskSaveStep(old(State()), catalog, t)
      ensures State() == (if outcome.Saved? then outcome.ledger else old(State()))
      ensures Valid()
    {
      outcome := Saved(State(), t);
      if t.isCompleted && !t.pointsProcessed {
        if t.pointsRewarded.None? {
          outcome := MissingAttribute("points_rewarded");
          return;
        }
        var points := t.pointsRewarded.value;
        totals := totals[t.user := TotalOf(totals, t.user) + points];
        transactions := transactions + [Transaction(t.user, points, TaskCompletion, t.id)];
        CheckAndAwardBadges(t.user);
        outcome := Saved(State(), t.(pointsProcessed := true));
      }
    }

    method OnSustainabilityActionSaved(a: ActionInstance, created: bool) returns (outcome: Saved<ActionInstance>)
      requires Valid()
      modifies this
      ensures outcome == ActionSaveStep(old(State()), catalog, a, created)
      ensures State() == (if outcome.Saved? then outcome.ledger else old(State()))
      ensures Valid()
    {
      outcome := Saved(State(), a);
      if created && !a.pointsProcessed {
        if a.pointsRewarded.None? {
          outcome := MissingAttribute("points_rewarded");
          return;
        }
        var points := a.pointsRewarded.value;
        totals := totals[a.user := TotalOf(totals, a.user) + points];
        transactions := transactions + [Transaction(a.user, points, SustainabilityAction, a.id)];
        CheckAndAwardBadges(a.user);
        outcome := Saved(State(), a.(pointsProcessed := true));
      }
    }

    method OnUserSaved(user: UserId, created: bool)
      requires created ==> user !in totals
      modifies this
      ensures State() == UserCreatedStep(old(State()), user, created)
    {
      if created {
        totals := totals[user := 0];
      }
    }
  }
}

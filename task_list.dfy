/** The TaskList component: completing a task, grouping tasks by day,
    ordering within a day and across days, and when the component fetches. */
module TaskListComponent {
  import opened Common
  import LocalStorage
  import Sorting
  import Sequences

  /** A task as the server serialises it; `dueDate` counts days. */
  datatype Task = Task(id: int, title: string, category: string, isCompleted: bool, dueDate: int)

  /** `tasks.map(task => task.id === id ? replacement : task)`. */
  function ReplaceTask(tasks: seq<Task>, id: int, replacement: Task): (r: seq<Task>)
    ensures |r| == |tasks|
    ensures forall k :: 0 <= k < |tasks| && tasks[k].id == id ==> r[k] == replacement
    ensures forall k :: 0 <= k < |tasks| && tasks[k].id != id ==> r[k] == tasks[k]
  {
    seq(|tasks|, k requires 0 <= k < |tasks| => if tasks[k].id == id then replacement else tasks[k])
  }

  /** Replacing by a task that keeps the id is idempotent, and a list with no
      task of that id is left as it is. */
  lemma ReplaceTaskIdempotent(tasks: seq<Task>, id: int, replacement: Task)
    requires replacement.id == id
    ensures ReplaceTask(ReplaceTask(tasks, id, replacement), id, replacement) == ReplaceTask(tasks, id, replacement)
    ensures (forall k :: 0 <= k < |tasks| ==> tasks[k].id != id) ==> ReplaceTask(tasks, id, replacement) == tasks
  {
  }

  /** What `handleToggleComplete` sends and what it leaves in the component. */
  datatype ToggleEffect = ToggleEffect(sentCompleted: bool, tasks: seq<Task>, error: Option<string>, forwarded: Option<Task>)

  function ToggleComplete(tasks: seq<Task>, taskId: int, isCompleted: bool, outcome: HttpOutcome<Task>): (e: ToggleEffect)
    ensures e.sentCompleted == !isCompleted
    ensures outcome.Success? ==>
      && e.tasks == ReplaceTask(tasks, taskId, outcome.data)
      && e.error == None && e.forwarded == Some(outcome.data)
    ensures !outcome.Success? ==>
      e.tasks == tasks && e.error == Some("Failed to update task") && e.forwarded == None
    ensures |e.tasks| == |tasks|
  {
    if outcome.Success? then ToggleEffect(!isCompleted, ReplaceTask(tasks, taskId, outcome.data), None, Some(outcome.data))
    else ToggleEffect(!isCompleted, tasks, Some("Failed to update task"), None)
  }

  // ---------------------------------------------------------------- grouping

  /** The days of the tasks, each once, in order of first occurrence. */
  function DistinctDates(tasks: seq<Task>): (r: seq<int>)
    ensures forall i, j :: 0 <= i < j < |r| ==> r[i] != r[j]
    ensures forall d :: d in r <==> exists k :: 0 <= k < |tasks| && tasks[k].dueDate == d
    ensures |r| <= |tasks|
  {
    if tasks == [] then []
    else
      var init := tasks[..|tasks| - 1];
      var d := DistinctDates(init);
      assert forall k :: 0 <= k < |init| ==> tasks[k] == init[k];
      if tasks[|tasks| - 1].dueDate in d then d else d + [tasks[|tasks| - 1].dueDate]
  }

  /** The tasks due on `date`, in input order. */
  function TasksOn(tasks: seq<Task>, date: int): (r: seq<Task>)
    ensures |r| <= |tasks|
    ensures forall t :: t in r <==> t in tasks && t.dueDate == date
  {
    if tasks == [] then []
    else
      var init := TasksOn(tasks[..|tasks| - 1], date);
      var last := tasks[|tasks| - 1];
      assert tasks == tasks[..|tasks| - 1] + [last];
      if last.dueDate == date then init + [last] else init
  }

  /** The `reduce` of the component: `keys` holds the group keys in insertion
      order (the order `Object.keys` reports them in) and `groups` the
      accumulated tasks of every key. A key is the weekday name joined with
      the due date; the weekday is a function of the date, so the date alone
      identifies the group. */
  method GroupByDay(tasks: seq<Task>) returns (keys: seq<int>, groups: map<int, seq<Task>>)
    ensures keys == DistinctDates(tasks)
    ensures forall d :: d in groups <==> d in keys
    ensures forall d :: d in groups ==> groups[d] == TasksOn(tasks, d)
  {
    keys, groups := [], map[];
    var i := 0;
    while i < |tasks|
      invariant 0 <= i <= |tasks|
      invariant keys == DistinctDates(tasks[..i])
      invariant GroupsOf(tasks[..i], keys, groups)
    {
      var t := tasks[i];
      ghost var prefix := tasks[..i];
      Sequences.TakeSnoc(tasks, i);
      SnocDates(prefix, t);
      if t.dueDate !in groups {
        AbsentDateHasNoTasks(prefix, t.dueDate);
        GroupsOfNewDate(prefix, t, keys, groups);
        keys := keys + [t.dueDate];
        groups := groups[t.dueDate := [t]];
      } else {
        GroupsOfKnownDate(prefix, t, keys, groups);
        groups := groups[t.dueDate := groups[t.dueDate] + [t]];
      }
      i := i + 1;
    }
    assert tasks[..i] == tasks;
  }

  /** `groups` has a group for exactly the dates in `keys`, holding the
      tasks of `prefix` due that day. */
  ghost predicate GroupsOf(prefix: seq<Task>, keys: seq<int>, groups: map<int, seq<Task>>) {
    && (forall d :: d in groups <==> d in keys)
    && (forall d :: d in groups ==> groups[d] == TasksOn(prefix, d))
  }

  /** A task with a new date opens a group holding just that task. */
  lemma GroupsOfNewDate(prefix: seq<Task>, t: Task, keys: seq<int>, groups: map<int, seq<Task>>)
    requires GroupsOf(prefix, keys, groups) && t.dueDate !in groups && TasksOn(prefix, t.dueDate) == []
    ensures GroupsOf(prefix + [t], keys + [t.dueDate], groups[t.dueDate := [t]])
  {
    var g := groups[t.dueDate := [t]];
    GroupsGrow(prefix, t, groups);
    assert g.Keys == groups.Keys + {t.dueDate};
    SameKeys(groups, g, keys, t.dueDate);
  }

  /** A task with a known date joins the end of that date's group. */
  lemma GroupsOfKnownDate(prefix: seq<Task>, t: Task, keys: seq<int>, groups: map<int, seq<Task>>)
    requires GroupsOf(prefix, keys, groups) && t.dueDate in groups
    ensures GroupsOf(prefix + [t], keys, groups[t.dueDate := groups[t.dueDate] + [t]])
  {
    var g := groups[t.dueDate := groups[t.dueDate] + [t]];
    GroupsGrow(prefix, t, groups);
    assert g.Keys == groups.Keys + {t.dueDate};
    SameKeys(groups, g, keys, t.dueDate);
  }

  /** Adding date `d` to the groups adds it to the keys too. */
  lemma SameKeys(groups: map<int, seq<Task>>, g: map<int, seq<Task>>, keys: seq<int>, d: int)
    requires (forall e :: e in groups <==> e in keys) && g.Keys == groups.Keys + {d}
    ensures d in groups ==> forall e :: e in g <==> e in keys
    ensures d !in groups ==> forall e :: e in g <==> e in keys + [d]
  {
  }

  /** The group of the task's date grows by the task (or opens with it);
      every other group keeps the tasks it has. */
  lemma GroupsGrow(prefix: seq<Task>, t: Task, groups: map<int, seq<Task>>)
    requires forall d :: d in groups ==> groups[d] == TasksOn(prefix, d)
    requires t.dueDate !in groups ==> TasksOn(prefix, t.dueDate) == []
    ensures var g := groups[t.dueDate := if t.dueDate in groups then groups[t.dueDate] + [t] else [t]];
            forall d :: d in g ==> g[d] == TasksOn(prefix + [t], d)
  {
    SnocTasksOn(prefix, t);
  }

  lemma SnocDates(prefix: seq<Task>, t: Task)
    ensures DistinctDates(prefix + [t]) ==
      if t.dueDate in DistinctDates(prefix) then DistinctDates(prefix) else DistinctDates(prefix) + [t.dueDate]
  {
    assert (prefix + [t])[..|prefix|] == prefix;
  }

  lemma SnocTasksOn(prefix: seq<Task>, t: Task)
    ensures forall d :: TasksOn(prefix + [t], d) == (if t.dueDate == d then TasksOn(prefix, d) + [t] else TasksOn(prefix, d))
  {
    assert (prefix + [t])[..|prefix|] == prefix;
  }

  lemma AbsentDateHasNoTasks(prefix: seq<Task>, d: int)
    requires d !in DistinctDates(prefix)
    ensures TasksOn(prefix, d) == []
  {
  }

  /** Every task lands in exactly one group: the one of its own due date. */
  lemma EachTaskInExactlyOneGroup(tasks: seq<Task>, t: Task, d: int)
    requires t in tasks
    ensures t.dueDate in DistinctDates(tasks)
    ensures t in TasksOn(tasks, d) <==> d == t.dueDate
  {
    var k :| 0 <= k < |tasks| && tasks[k] == t;
  }

  // ------------------------------------------------------- ordering in a day

  /** The comparator of the within-day sort. */
  function CompareCategory(a: Task, b: Task): (r: int)
    ensures r == -1 <==> a.category == "exercise" && b.category == "nutrition"
    ensures r == 1 <==> a.category == "nutrition" && b.category == "exercise"
  {
    if a.category == "exercise" && b.category == "nutrition" then -1
    else if a.category == "nutrition" && b.category == "exercise" then 1
    else 0
  }

  lemma CompareCategoryAntisymmetric(a: Task, b: Task)
    ensures CompareCategory(a, b) == -CompareCategory(b, a)
  {
  }

  /** With a third category the comparator is not a consistent order:
      "equal" is not transitive, so the engine may order such a day any way. */
  lemma ThirdCategoryBreaksComparator()
    ensures var ex := Task(1, "", "exercise", false, 0);
            var su := Task(2, "", "sustainability", false, 0);
            var nu := Task(3, "", "nutrition", false, 0);
            CompareCategory(ex, su) == 0 && CompareCategory(su, nu) == 0 && CompareCategory(ex, nu) == -1
  {
  }

  function Exercises(ts: seq<Task>): (r: seq<Task>)
    ensures forall t :: t in r <==> t in ts && t.category == "exercise"
    ensures multiset(r) <= multiset(ts)
  {
    if ts == [] then []
    else
      assert ts == [ts[0]] + ts[1..];
      (if ts[0].category == "exercise" then [ts[0]] else []) + Exercises(ts[1..])
  }

  function Others(ts: seq<Task>): (r: seq<Task>)
    ensures forall t :: t in r <==> t in ts && t.category != "exercise"
  {
    if ts == [] then []
    else
      assert ts == [ts[0]] + ts[1..];
      (if ts[0].category != "exercise" then [ts[0]] else []) + Others(ts[1..])
  }

  lemma {:induction false} SplitIsPermutation(ts: seq<Task>)
    ensures multiset(Exercises(ts) + Others(ts)) == multiset(ts)
  {
    if ts != [] {
      SplitIsPermutation(ts[1..]);
      assert ts == [ts[0]] + ts[1..];
    }
  }

  /** The order a stable sort with `CompareCategory` produces for a day whose
      tasks are exercise or nutrition: the exercises first, each part in input
      order. */
  function OrderWithinDay(ts: seq<Task>): seq<Task>
  {
    Exercises(ts) + Others(ts)
  }

  /** The day's order is a permutation of the day's tasks that the comparator
      accepts: no pair is out of order. */
  lemma OrderWithinDaySorted(ts: seq<Task>)
    ensures multiset(OrderWithinDay(ts)) == multiset(ts)
    ensures var r := OrderWithinDay(ts);
            forall i, j :: 0 <= i < j < |r| ==> CompareCategory(r[i], r[j]) <= 0
  {
    SplitIsPermutation(ts);
    var e, o := Exercises(ts), Others(ts);
    var r := e + o;
    forall i, j | 0 <= i < j < |r| ensures CompareCategory(r[i], r[j]) <= 0 {
      if i < |e| {
        assert r[i] in e;
      } else {
        assert r[j] in o && r[i] in o;
      }
    }
  }

  // ------------------------------------------------------ ordering of days

  function DateKey(d: int): int { d }

  /** `Object.keys(groupedTasks).sort(by date)`: the days in ascending order. */
  function SortedDays(keys: seq<int>): (r: seq<int>)
    ensures multiset(r) == multiset(keys)
    ensures forall i, j :: 0 <= i < j < |r| ==> r[i] <= r[j]
  {
    var r := Sorting.SortBy(keys, DateKey);
    assert forall i, j :: 0 <= i < j < |r| ==> DateKey(r[i]) <= DateKey(r[j]);
    r
  }

  // ----------------------------------------------------------------- fetching

  /** The effect runs a fetch only when no task list was handed in. */
  predicate ShouldFetch(initial: Option<seq<Task>>) {
    initial.None? || initial.value == []
  }

  /** `fetchTasks` of the component. It reads the storage key `token`, which no
      login writes; with no such key it fails before any request. */
  function FetchTasksError(st: LocalStorage.Store, outcome: HttpOutcome<seq<Task>>): (r: Result<seq<Task>, string>)
    ensures !LocalStorage.HasToken(st, "token") ==> r == Err("Failed to fetch tasks")
    ensures LocalStorage.HasToken(st, "token") && outcome.Success? ==> r == Ok(outcome.data)
    ensures r.Err? && r.error == "Tasks endpoint not found. Please contact support." <==>
            LocalStorage.HasToken(st, "token") && outcome.HttpError? && outcome.status == 404
  {
    if !LocalStorage.HasToken(st, "token") then Err("Failed to fetch tasks")
    else match outcome
      case Success(d) => Ok(d)
      case HttpError(status, _) =>
        Err(if status == 404 then "Tasks endpoint not found. Please contact support." else "Failed to fetch tasks")
      case NoResponse => Err("Failed to fetch tasks")
  }
}

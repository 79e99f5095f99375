/** Task endpoints: generating a weekly plan (which replaces the
    requester's tasks), listing and creating tasks, and ticking one off. */
module TaskViews {
  import opened Common
  import Sequences
  import Text
  import opened PlanGenerator

  /** A value of the request body: a JSON number (a whole one here) or a
      string, which is what a form field sends. */
  datatype Json = JsonNumber(n: int) | JsonString(s: string)

  /** A user's stored fitness input; the figures are kept as sent. */
  datatype FitnessInput = FitnessInput(weight: Json, height: Json, sex: Json, age: Json, goal: Json)

  datatype TaskDb = TaskDb(tasks: seq<Task>, inputs: map<UserId, FitnessInput>)

  datatype TaskReply = TaskList(code: int, tasks: seq<Task>) | OneTask(code: int, task: Task) | Error(code: int, error: string)

  /** The text of a caught KeyError: `Missing field: 'key'`. */
  function MissingField(key: string): string {
    "Missing field: '" + key + "'"
  }

  /** The first of `fields` the request lacks, in the order they are read. */
  function FirstMissing(data: map<string, Json>, fields: seq<string>): (r: Option<string>)
    ensures r.None? <==> forall k :: 0 <= k < |fields| ==> fields[k] in data
    ensures r.Some? ==> r.value !in data && exists k :: (0 <= k < |fields| && fields[k] == r.value
                                                        && forall j :: 0 <= j < k ==> fields[j] in data)
  {
    if fields == [] then None
    else if fields[0] !in data then Some(fields[0])
    else
      var rest := FirstMissing(data, fields[1..]);
      if rest.Some? then
        var k :| 0 <= k < |fields[1..]| && fields[1..][k] == rest.value && forall j :: 0 <= j < k ==> fields[1..][j] in data;
        assert fields[k + 1] == rest.value && forall j :: 0 <= j < k + 1 ==> fields[j] in data;
        rest
      else rest
  }

  const PlanFields: seq<string> := ["weight", "height", "sex", "age", "goal"]

  lemma PlanFieldsPresent(data: map<string, Json>)
    requires FirstMissing(data, PlanFields).None?
    ensures "weight" in data && "height" in data && "sex" in data && "age" in data && "goal" in data
  {
    assert PlanFields[0] == "weight" && PlanFields[1] == "height" && PlanFields[2] == "sex";
    assert PlanFields[3] == "age" && PlanFields[4] == "goal";
  }

  /** The input `update_or_create` is given, once all five fields are there. */
  function SentInput(data: map<string, Json>): FitnessInput
    requires FirstMissing(data, PlanFields).None?
  {
    PlanFieldsPresent(data);
    FitnessInput(data["weight"], data["height"], data["sex"], data["age"], data["goal"])
  }

  predicate AllDigits(s: string) {
    forall k :: 0 <= k < |s| ==> '0' <= s[k] <= '9'
  }

  /** `s` without one leading sign. */
  function Unsigned(s: string): (r: string)
    ensures |r| <= |s| && r == s[|s| - |r|..]
  {
    if |s| > 0 && (s[0] == '+' || s[0] == '-') then s[1..] else s
  }

  /** A string `int()` takes: an optional sign and one or more digits. */
  predicate IsIntText(s: string) {
    var u := Unsigned(s);
    u != [] && AllDigits(u)
  }

  /** A string `float()` takes: an optional sign, then digits with at most
      one point among them, and at least one digit. */
  predicate IsFloatText(s: string) {
    var u := Unsigned(s);
    IsIntText(s) || exists i :: 0 <= i < |u| && u[i] == '.' && |u| > 1 && AllDigits(u[..i]) && AllDigits(u[i + 1..])
  }

  /** Whether saving `v` into a `FloatField` (or, with `integral`, an
      `IntegerField`) converts it. */
  predicate Converts(v: Json, integral: bool) {
    match v
    case JsonNumber(_) => true
    case JsonString(s) => if integral then IsIntText(s) else IsFloatText(s)
  }

  /** The message Django raises for a figure it cannot convert. */
  function NotANumber(field: string, s: string): string {
    "Field '" + field + "' expected a number but got '" + s + "'."
  }

  /** The first figure, in the model's field order, that saving cannot
      convert; none when the input can be stored. */
  function SaveError(input: FitnessInput): (r: Option<string>)
    ensures r.None? <==> Converts(input.weight, false) && Converts(input.height, false) && Converts(input.age, true)
    ensures !Converts(input.weight, false) ==> r == Some(NotANumber("weight", input.weight.s))
    ensures Converts(input.weight, false) && !Converts(input.height, false) ==> r == Some(NotANumber("height", input.height.s))
    ensures Converts(input.weight, false) && Converts(input.height, false) && !Converts(input.age, true) ==>
              r == Some(NotANumber("age", input.age.s))
  {
    if !Converts(input.weight, false) then Some(NotANumber("weight", input.weight.s))
    else if !Converts(input.height, false) then Some(NotANumber("height", input.height.s))
    else if !Converts(input.age, true) then Some(NotANumber("age", input.age.s))
    else None
  }

  const CantMultiply := "can't multiply sequence by non-int of type 'float'"
  const CantConcatenate := "can only concatenate str (not \"float\") to str"
  const CantSubtract := "unsupported operand type(s) for -: 'float' and 'str'"

  /** The TypeError `10 * weight + 6.25 * height - 5 * age` raises when the
      figures read back from the saved input are still strings: `10 * s`
      repeats a string, `6.25 * s` cannot, a string plus a float cannot be
      added, and a float minus a string cannot be taken. */
  function BmrError(input: FitnessInput): (r: Option<string>)
    ensures r.None? <==> input.weight.JsonNumber? && input.height.JsonNumber? && input.age.JsonNumber?
    ensures input.height.JsonString? ==> r == Some(CantMultiply)
    ensures input.weight.JsonString? && input.height.JsonNumber? ==> r == Some(CantConcatenate)
    ensures input.weight.JsonNumber? && input.height.JsonNumber? && input.age.JsonString? ==> r == Some(CantSubtract)
  {
    if input.weight.JsonString? && input.height.JsonString? then Some(CantMultiply)
    else if input.weight.JsonString? then Some(CantConcatenate)
    else if input.height.JsonString? then Some(CantMultiply)
    else if input.age.JsonString? then Some(CantSubtract)
    else None
  }

  function OwnedBy(tasks: seq<Task>, user: UserId): seq<Task> {
    Sequences.Where(tasks, (t: Task) => t.user == user)
  }

  function NotOwnedBy(tasks: seq<Task>, user: UserId): seq<Task> {
    Sequences.Where(tasks, (t: Task) => t.user != user)
  }

  /** The plan for `goal`, or the KeyError an unknown goal raises (a number
      as the goal reads as its digits, unquoted). */
  function GoalStep(stored: TaskDb, user: UserId, goal: Json, grams: MealGrams, today: int, firstId: int): (TaskDb, TaskReply)
  {
    match goal
    case JsonNumber(n) => (stored, Error(400, "Missing field: " + Text.IntToString(n)))
    case JsonString(g) =>
      match Plan(user, g, grams, today, firstId)
      case Err(goal) => (stored, Error(400, MissingField(goal)))
      case Ok(plan) => (stored.(tasks := stored.tasks + plan), TaskList(201, plan))
  }

  /** `FitnessPlanView.post`: read the five fields; store the input (a figure
      that does not convert aborts the save and gives 500); delete the
      requester's tasks; then generate, which fails with 500 when a figure
      is still a string (with `grams` the gram figures of the meal titles
      and `firstId` the first fresh id). */
  function PostPlanStep(db: TaskDb, user: UserId, data: map<string, Json>, grams: MealGrams, today: int, firstId: int): (r: (TaskDb, TaskReply))
  {
    match FirstMissing(data, PlanFields)
    case Some(f) => (db, Error(400, MissingField(f)))
    case None =>
      var input := SentInput(data);
      match SaveError(input)
      case Some(e) => (db, Error(500, e))
      case None =>
        var stored := TaskDb(NotOwnedBy(db.tasks, user), db.inputs[user := input]);
        match BmrError(input)
        case Some(e) => (stored, Error(500, e))
        case None => GoalStep(stored, user, input.goal, grams, today, firstId)
  }

  /** `FitnessPlanView.post` as evidently intended: the figures that were
      saved are used as the numbers they were converted to. */
  function PostPlanStepCorrected(db: TaskDb, user: UserId, data: map<string, Json>, grams: MealGrams, today: int, firstId: int): (r: (TaskDb, TaskReply))
  {
    match FirstMissing(data, PlanFields)
    case Some(f) => (db, Error(400, MissingField(f)))
    case None =>
      var input := SentInput(data);
      match SaveError(input)
      case Some(e) => (db, Error(500, e))
      case None =>
        var stored := TaskDb(NotOwnedBy(db.tasks, user), db.inputs[user := input]);
        GoalStep(stored, user, input.goal, grams, today, firstId)
  }

  /** A missing field is caught before anything is written. */
  lemma MissingFieldWritesNothing(db: TaskDb, user: UserId, data: map<string, Json>, grams: MealGrams, today: int, firstId: int)
    requires FirstMissing(data, PlanFields).Some?
    ensures PostPlanStep(db, user, data, grams, today, firstId) == (db, Error(400, MissingField(FirstMissing(data, PlanFields).value)))
  {
  }

  /** A figure that does not convert aborts the save: 500 with Django's
      message, and nothing is written. */
  lemma UnconvertedFigureWritesNothing(db: TaskDb, user: UserId, data: map<string, Json>, grams: MealGrams, today: int, firstId: int)
    requires FirstMissing(data, PlanFields).None?
    requires SaveError(SentInput(data)).Some?
    ensures PostPlanStep(db, user, data, grams, today, firstId) == (db, Error(500, SaveError(SentInput(data)).value))
  {
  }

  lemma NoneLeftOwnedBy(tasks: seq<Task>, user: UserId)
    ensures OwnedBy(NotOwnedBy(tasks, user), user) == []
  {
    Sequences.WhereWhere(tasks, (t: Task) => t.user != user, (t: Task) => t.user == user, (t: Task) => false);
    Sequences.WhereNone(tasks, (t: Task) => false);
  }

  /** Once the input is saved, every other user's tasks are kept, and the
      requester's old tasks are gone even when generating then fails: with
      500 when a figure is still a string, with 400 when the goal is
      unknown. */
  lemma PlanRequestDeletesFirst(db: TaskDb, user: UserId, data: map<string, Json>, grams: MealGrams, today: int, firstId: int)
    requires FirstMissing(data, PlanFields).None?
    requires SaveError(SentInput(data)).None?
    ensures var (r, reply) := PostPlanStep(db, user, data, grams, today, firstId);
            var input := SentInput(data);
            && user in r.inputs && r.inputs[user] == input
            && (forall k :: 0 <= k < |db.tasks| && db.tasks[k].user != user ==> db.tasks[k] in r.tasks)
            && (BmrError(input).Some? ==> reply == Error(500, BmrError(input).value) && OwnedBy(r.tasks, user) == [])
            && (BmrError(input).None? && input.goal != JsonString("bulking") && input.goal != JsonString("dieting") ==>
                  reply.Error? && reply.code == 400 && OwnedBy(r.tasks, user) == [])
  {
    var input := SentInput(data);
    if input.goal.JsonString? {
      PlanShape(user, input.goal.s, grams, today, firstId);
    }
    NoneLeftOwnedBy(db.tasks, user);
  }

  /** A plan of the requester's, appended after their tasks were deleted,
      is all they own. */
  lemma PlanIsAllTheyOwn(stored: TaskDb, user: UserId, plan: seq<Task>, db: TaskDb)
    requires stored.tasks == NotOwnedBy(db.tasks, user)
    requires forall k :: 0 <= k < |plan| ==> plan[k].user == user
    ensures OwnedBy(stored.tasks + plan, user) == plan
  {
    NoneLeftOwnedBy(db.tasks, user);
    Sequences.WhereAppend(NotOwnedBy(db.tasks, user), plan, (t: Task) => t.user == user);
    Sequences.WhereAll(plan, (t: Task) => t.user == user);
  }

  /** With numbers for figures and a known goal the answer is 201 with the
      new plan, and the plan is all the requester now has. */
  lemma PlanReplacesTasks(db: TaskDb, user: UserId, data: map<string, Json>, grams: MealGrams, today: int, firstId: int)
    requires FirstMissing(data, PlanFields).None?
    requires BmrError(SentInput(data)).None?
    requires SentInput(data).goal == JsonString("bulking") || SentInput(data).goal == JsonString("dieting")
    ensures var (r, reply) := PostPlanStep(db, user, data, grams, today, firstId);
            reply.TaskList? && reply.code == 201 && |reply.tasks| == 33 && OwnedBy(r.tasks, user) == reply.tasks
  {
    var input := SentInput(data);
    PlanShape(user, input.goal.s, grams, today, firstId);
    var plan := Plan(user, input.goal.s, grams, today, firstId).value;
    PlanIsAllTheyOwn(TaskDb(NotOwnedBy(db.tasks, user), db.inputs[user := input]), user, plan, db);
  }

  /** As written, figures sent as numeric strings (what the fitness form
      sends) are saved, the requester's tasks are deleted, and the answer is
      500. */
  lemma FormFiguresFailAsWritten(db: TaskDb, user: UserId, data: map<string, Json>, grams: MealGrams, today: int, firstId: int)
    requires FirstMissing(data, PlanFields).None?
    requires SentInput(data).weight.JsonString? && SentInput(data).height.JsonString? && SentInput(data).age.JsonString?
    requires SaveError(SentInput(data)).None?
    ensures var (r, reply) := PostPlanStep(db, user, data, grams, today, firstId);
            reply == Error(500, CantMultiply) && OwnedBy(r.tasks, user) == [] && r.inputs[user] == SentInput(data)
  {
    NoneLeftOwnedBy(db.tasks, user);
  }

  /** As intended, the same request gets its plan. */
  lemma FormFiguresPlannedCorrected(db: TaskDb, user: UserId, data: map<string, Json>, grams: MealGrams, today: int, firstId: int)
    requires FirstMissing(data, PlanFields).None?
    requires SaveError(SentInput(data)).None?
    requires SentInput(data).goal == JsonString("bulking") || SentInput(data).goal == JsonString("dieting")
    ensures var (r, reply) := PostPlanStepCorrected(db, user, data, grams, today, firstId);
            reply.TaskList? && reply.code == 201 && |reply.tasks| == 33 && OwnedBy(r.tasks, user) == reply.tasks
            && r.inputs[user] == SentInput(data)
  {
    var input := SentInput(data);
    PlanShape(user, input.goal.s, grams, today, firstId);
    var plan := Plan(user, input.goal.s, grams, today, firstId).value;
    PlanIsAllTheyOwn(TaskDb(NotOwnedBy(db.tasks, user), db.inputs[user := input]), user, plan, db);
  }

  /** `TaskListView.get`. */
  function ListTasksStep(db: TaskDb, user: UserId): (r: TaskReply)
    ensures r.TaskList? && r.code == 200
    ensures forall k :: 0 <= k < |r.tasks| ==> r.tasks[k].user == user && r.tasks[k] in db.tasks
    ensures forall k :: 0 <= k < |db.tasks| && db.tasks[k].user == user ==> db.tasks[k] in r.tasks
  {
    TaskList(200, OwnedBy(db.tasks, user))
  }

  datatype TaskInput = TaskInput(title: Option<string>, category: Option<string>, dueDate: Option<int>)

  /** `TaskListView.post`: title, category and due date are required, in
      that order; the new task is open and belongs to the requester. */
  function CreateTaskStep(db: TaskDb, user: UserId, input: TaskInput, newId: int, now: int): (r: (TaskDb, TaskReply))
    ensures input.title.None? ==> r == (db, Error(400, MissingField("title")))
    ensures input.title.Some? && input.category.None? ==> r == (db, Error(400, MissingField("category")))
    ensures input.title.Some? && input.category.Some? && input.dueDate.None? ==> r == (db, Error(400, MissingField("due_date")))
    ensures input.title.Some? && input.category.Some? && input.dueDate.Some? ==>
              var t := Task(newId, user, input.title.value, input.category.value, false, input.dueDate.value, now);
              r == (db.(tasks := db.tasks + [t]), OneTask(201, t))
  {
    if input.title.None? then (db, Error(400, MissingField("title")))
    else if input.category.None? then (db, Error(400, MissingField("category")))
    else if input.dueDate.None? then (db, Error(400, MissingField("due_date")))
    else
      var t := Task(newId, user, input.title.value, input.category.value, false, input.dueDate.value, now);
      (db.(tasks := db.tasks + [t]), OneTask(201, t))
  }

  predicate Visible(t: Task, id: int, user: UserId) {
    t.id == id && t.user == user
  }

  predicate HasVisible(tasks: seq<Task>, id: int, user: UserId) {
    exists k :: 0 <= k < |tasks| && Visible(tasks[k], id, user)
  }

  function FirstVisible(tasks: seq<Task>, id: int, user: UserId): (r: Option<nat>)
    ensures r.None? <==> !HasVisible(tasks, id, user)
    ensures r.Some? ==> r.value < |tasks| && Visible(tasks[r.value], id, user)
  {
    if tasks == [] then None
    else if Visible(tasks[0], id, user) then Some(0)
    else
      var rest := FirstVisible(tasks[1..], id, user);
      if rest.Some? then Some(rest.value + 1)
      else
        assert !HasVisible(tasks, id, user) by {
          forall k | 0 <= k < |tasks|
            ensures !Visible(tasks[k], id, user)
          {
            if k > 0 {
              assert tasks[k] == tasks[1..][k - 1];
            }
          }
        }
        None
  }

  function SetCompleted(tasks: seq<Task>, id: int, user: UserId, value: Option<bool>): (r: seq<Task>)
    ensures |r| == |tasks|
  {
    seq(|tasks|, k requires 0 <= k < |tasks| =>
      if Visible(tasks[k], id, user) then tasks[k].(isCompleted := if value.Some? then value.value else tasks[k].isCompleted)
      else tasks[k])
  }

  /** `TaskUpdateView.patch`: only a task of the requester's is found; its
      completion flag takes the sent value or stays as it was. */
  function PatchTaskStep(db: TaskDb, user: UserId, id: int, isCompleted: Option<bool>): (r: (TaskDb, TaskReply))
    ensures !HasVisible(db.tasks, id, user) ==> r == (db, Error(404, "Task not found"))
    ensures HasVisible(db.tasks, id, user) ==> r.1.OneTask? && r.1.code == 200 && r.1.task.id == id
    ensures r.0.inputs == db.inputs && |r.0.tasks| == |db.tasks|
    ensures forall k :: 0 <= k < |db.tasks| ==>
              if Visible(db.tasks[k], id, user)
              then r.0.tasks[k] == db.tasks[k].(isCompleted := if isCompleted.Some? then isCompleted.value else db.tasks[k].isCompleted)
              else r.0.tasks[k] == db.tasks[k]
  {
    if !HasVisible(db.tasks, id, user) then (db, Error(404, "Task not found"))
    else
      var updated := SetCompleted(db.tasks, id, user, isCompleted);
      (db.(tasks := updated), OneTask(200, updated[FirstVisible(db.tasks, id, user).value]))
  }

  /** Sending the same patch twice is sending it once, and a patch without a
      value changes nothing. */
  lemma PatchIdempotent(db: TaskDb, user: UserId, id: int, isCompleted: Option<bool>)
    ensures PatchTaskStep(PatchTaskStep(db, user, id, isCompleted).0, user, id, isCompleted).0 == PatchTaskStep(db, user, id, isCompleted).0
    ensures isCompleted.None? ==> PatchTaskStep(db, user, id, isCompleted).0 == db
  {
    var once := PatchTaskStep(db, user, id, isCompleted).0;
    if HasVisible(db.tasks, id, user) {
      var k :| 0 <= k < |db.tasks| && Visible(db.tasks[k], id, user);
      assert Visible(once.tasks[k], id, user);
    }
    if isCompleted.None? {
      assert once.tasks == db.tasks;
    }
  }

  class TaskApi {
    var tasks: seq<Task>
    var inputs: map<UserId, FitnessInput>

    function State(): TaskDb
      reads this
    {
      TaskDb(tasks, inputs)
    }

    constructor()
      ensures State() == TaskDb([], map[])
    {
      tasks, inputs := [], map[];
    }

    method PostPlan(user: UserId, data: map<string, Json>, grams: MealGrams, today: int, firstId: int) returns (reply: TaskReply)
      modifies this
      ensures var r := PostPlanStep(old(State()), user, data, grams, today, firstId);
              State() == r.0 && reply == r.1
    {
      var missing := FirstMissing(data, PlanFields);
      if missing.Some? {
        return Error(400, MissingField(missing.value));
      }
      var input := SentInput(data);
      var saveError := SaveError(input);
      if saveError.Some? {
        return Error(500, saveError.value);
      }
      inputs := inputs[user := input];
      tasks := NotOwnedBy(tasks, user);
      var bmrError := BmrError(input);
      if bmrError.Some? {
        return Error(500, bmrError.value);
      }
      if input.goal.JsonNumber? {
        return Error(400, "Missing field: " + Text.IntToString(input.goal.n));
      }
      var plan := GenerateFitnessPlan(user, input.goal.s, grams, today, firstId);
      if plan.Err? {
        return Error(400, MissingField(plan.error));
      }
      tasks := tasks + plan.value;
      reply := TaskList(201, plan.value);
    }

    method ListTasks(user: UserId) returns (reply: TaskReply)
      ensures reply == ListTasksStep(State(), user)
    {
      reply := TaskList(200, OwnedBy(tasks, user));
    }

    method CreateTask(user: UserId, input: TaskInput, newId: int, now: int) returns (reply: TaskReply)
      modifies this
      ensures var r := CreateTaskStep(old(State()), user, input, newId, now);
              State() == r.0 && reply == r.1
    {
      var r := CreateTaskStep(State(), user, input, newId, now);
      tasks := r.0.tasks;
      reply := r.1;
    }

    method PatchTask(user: UserId, id: int, isCompleted: Option<bool>) returns (reply: TaskReply)
      modifies this
      ensures var r := PatchTaskStep(old(State()), user, id, isCompleted);
              State() == r.0 && reply == r.1
    {
      var r := PatchTaskStep(State(), user, id, isCompleted);
      tasks := r.0.tasks;
      reply := r.1;
    }
  }
}

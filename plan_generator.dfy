/** The weekly plan generator: five exercise tasks for the goal, then four
    meal tasks on each of seven days. Dates are day numbers. */
module PlanGenerator {
  import opened Common
  import Text
  import Sequences

  type UserId = int

  /** A row of the `Task` model. */
  datatype Task = Task(id: int, user: UserId, title: string, category: string, isCompleted: bool, dueDate: int, createdAt: int)

  /** The gram figures after `int(...)`: a third of the protein, a third of
      the carbohydrate and half of the fat. */
  datatype MealGrams = MealGrams(proteinThird: int, carbsThird: int, fatHalf: int)

  const ExerciseDays: nat := 5
  const MealDays: nat := 7
  const MealsPerDay: nat := 4
  const PlanSize: nat := ExerciseDays + MealDays * MealsPerDay

  /** `exercises[goal]`: `None` is the KeyError for any other goal. */
  function ExerciseTitles(goal: string): (r: Option<seq<string>>)
    ensures r.Some? <==> goal == "bulking" || goal == "dieting"
    ensures r.Some? ==> |r.value| == ExerciseDays
  {
    if goal == "bulking" then
      Some(["Strength: Squats, Deadlifts (3 sets)", "Strength: Bench Press, Rows (3 sets)", "Cardio: 20min cycling",
            "Strength: Pull-ups, Push-ups (3 sets)", "Cardio: 30min jogging"])
    else if goal == "dieting" then
      Some(["Cardio: Run 5km", "Light Weights: Full body (3 sets)", "Cardio: 30min cycling", "HIIT: 20min intervals",
            "Cardio: Walk 10km"])
    else None
  }

  function MealPlan(g: MealGrams): (r: seq<string>)
    ensures |r| == MealsPerDay
  {
    ["Eat " + Text.IntToString(g.proteinThird) + "g protein breakfast",
     "Eat " + Text.IntToString(g.carbsThird) + "g carbs lunch",
     "Eat " + Text.IntToString(g.proteinThird) + "g protein dinner",
     "Eat " + Text.IntToString(g.fatHalf) + "g fat snack"]
  }

  /** The plan `generate_fitness_plan` builds for a known goal; task `k`
      gets id `firstId + k`. */
  function PlanTasks(user: UserId, titles: seq<string>, meals: seq<string>, today: int, firstId: int): (r: seq<Task>)
    requires |titles| == ExerciseDays && |meals| == MealsPerDay
    ensures |r| == PlanSize
  {
    seq(PlanSize, k requires 0 <= k < PlanSize =>
      if k < ExerciseDays then Task(firstId + k, user, titles[k], "exercise", false, today + k, today)
      else Task(firstId + k, user, meals[(k - ExerciseDays) % MealsPerDay], "nutrition", false,
                today + (k - ExerciseDays) / MealsPerDay, today))
  }

  /** The generator's result: the plan, or the goal that raised KeyError. */
  function Plan(user: UserId, goal: string, grams: MealGrams, today: int, firstId: int): Result<seq<Task>, string>
  {
    match ExerciseTitles(goal)
    case None => Err(goal)
    case Some(titles) => Ok(PlanTasks(user, titles, MealPlan(grams), today, firstId))
  }

  /** `generate_fitness_plan`: the goal's exercise titles (the KeyError
      for any other goal), then the loops of `AddPlanTasks`. */
  method GenerateFitnessPlan(user: UserId, goal: string, grams: MealGrams, today: int, firstId: int)
    returns (r: Result<seq<Task>, string>)
    ensures r == Plan(user, goal, grams, today, firstId)
  {
    var exercises := ExerciseTitles(goal);
    if exercises.None? {
      return Err(goal);
    }
    var tasks := AddPlanTasks(user, exercises.value, MealPlan(grams), today, firstId);
    r := Ok(tasks);
  }

  /** The exercise loop, then the day-by-meal nested loop. */
  method AddPlanTasks(user: UserId, titles: seq<string>, meals: seq<string>, today: int, firstId: int)
    returns (tasks: seq<Task>)
    requires |titles| == ExerciseDays && |meals| == MealsPerDay
    ensures tasks == PlanTasks(user, titles, meals, today, firstId)
  {
    ghost var spec := PlanTasks(user, titles, meals, today, firstId);
    tasks := [];
    var i := 0;
    while i < |titles|
      invariant 0 <= i <= |titles|
      invariant tasks == spec[..i]
    {
      Sequences.TakeSnoc(spec, i);
      tasks := tasks + [Task(firstId + |tasks|, user, titles[i], "exercise", false, today + i, today)];
      i := i + 1;
    }
    var day := 0;
    while day < MealDays
      invariant 0 <= day <= MealDays
      invariant tasks == spec[..ExerciseDays + day * MealsPerDay]
    {
      var m := 0;
      while m < |meals|
        invariant 0 <= m <= |meals|
        invariant tasks == spec[..ExerciseDays + day * MealsPerDay + m]
      {
        ghost var k := ExerciseDays + day * MealsPerDay + m;
        MealSlot(day, m);
        Sequences.TakeSnoc(spec, k);
        tasks := tasks + [Task(firstId + |tasks|, user, meals[m], "nutrition", false, today + day, today)];
        m := m + 1;
      }
      day := day + 1;
    }
    assert tasks == spec[..PlanSize] == spec;
  }

  /** Meal `m` of day `day` sits at offset `day * 4 + m` past the exercises. */
  lemma MealSlot(day: nat, m: nat)
    requires m < MealsPerDay
    ensures (day * MealsPerDay + m) % MealsPerDay == m && (day * MealsPerDay + m) / MealsPerDay == day
  {
  }

  /** The plan's structure: 33 tasks, the five exercises of the goal in
      order on days 0..4, then the four meals in order on each of days 0..6;
      one owner, one creation date, all open, distinct ids. */
  lemma PlanShape(user: UserId, goal: string, grams: MealGrams, today: int, firstId: int)
    ensures Plan(user, goal, grams, today, firstId).Err? <==> goal != "bulking" && goal != "dieting"
    ensures Plan(user, goal, grams, today, firstId).Err? ==> Plan(user, goal, grams, today, firstId).error == goal
    ensures var r := Plan(user, goal, grams, today, firstId);
            r.Ok? ==>
              && |r.value| == 33
              && (forall i :: 0 <= i < 5 ==>
                    (r.value[i].title == ExerciseTitles(goal).value[i]
                     && r.value[i].category == "exercise" && r.value[i].dueDate == today + i))
              && (forall d, m :: 0 <= d < 7 && 0 <= m < 4 ==>
                    (r.value[5 + 4 * d + m].title == MealPlan(grams)[m]
                     && r.value[5 + 4 * d + m].category == "nutrition" && r.value[5 + 4 * d + m].dueDate == today + d))
              && (forall k :: 0 <= k < |r.value| ==>
                    (r.value[k].user == user && r.value[k].createdAt == today && !r.value[k].isCompleted))
              && (forall j, k :: 0 <= j < k < |r.value| ==> r.value[j].id != r.value[k].id)
  {
    var titles := ExerciseTitles(goal);
    if titles.Some? {
      PlanTasksShape(user, titles.value, MealPlan(grams), today, firstId);
    }
  }

  /** The structure of `PlanTasks` for any five titles and four meals. */
  lemma PlanTasksShape(user: UserId, titles: seq<string>, meals: seq<string>, today: int, firstId: int)
    requires |titles| == ExerciseDays && |meals| == MealsPerDay
    ensures var r := PlanTasks(user, titles, meals, today, firstId);
              && (forall i :: 0 <= i < 5 ==>
                    (r[i].title == titles[i] && r[i].category == "exercise" && r[i].dueDate == today + i))
              && (forall d, m :: 0 <= d < 7 && 0 <= m < 4 ==>
                    (r[5 + 4 * d + m].title == meals[m]
                     && r[5 + 4 * d + m].category == "nutrition" && r[5 + 4 * d + m].dueDate == today + d))
              && (forall k :: 0 <= k < |r| ==> (r[k].user == user && r[k].createdAt == today && !r[k].isCompleted))
              && (forall j, k :: 0 <= j < k < |r| ==> r[j].id != r[k].id)
  {
    var r := PlanTasks(user, titles, meals, today, firstId);
    forall d, m | 0 <= d < 7 && 0 <= m < 4
      ensures r[5 + 4 * d + m].title == meals[m]
      ensures r[5 + 4 * d + m].dueDate == today + d
    {
      MealSlot(d, m);
      assert d * MealsPerDay + m == 4 * d + m;
    }
  }
}

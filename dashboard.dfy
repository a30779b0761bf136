/**
 * GetUserDashboardInfo: what a user ate and trained today, next to the
 * targets. The log tables are read through their query filters, and the
 * included recipe or workout through its own filter, so a log whose recipe
 * or workout was soft-deleted drops out of the join.
 */
module Dashboard {
  import opened Wrappers
  import opened Calendar
  import opened ListMerge
  import opened ProductModel
  import opened UserModel
  import opened Models
  import opened DbContext
  import opened Schedule
  import opened LogStore
  import Recipes

  datatype DashboardRecipeInfo = DashboardRecipeInfo(
    recipeId: int,
    dateLogged: DateTime,
    name: string,
    calories: int,
    carbs: real,
    fats: real,
    protein: real)

  datatype DashboardWorkoutInfo = DashboardWorkoutInfo(
    workoutId: int,
    dateLogged: DateTime,
    name: string,
    caloriesBurned: real,
    timeTrained: int)

  datatype DashboardInfo = DashboardInfo(
    targetCalories: int,
    currentCalories: int,
    currentProteins: real,
    targetProteins: real,
    currentCarbs: real,
    targetCarbs: real,
    currentFats: real,
    targetFats: real,
    currentSugars: real,
    currentSodium: real,
    burnedCalories: real,
    timeSpentTraining: int,
    isRestDay: bool,
    isSuccess: bool,
    error: Option<string>,
    loggedRecipes: seq<DashboardRecipeInfo>,
    loggedWorkouts: seq<DashboardWorkoutInfo>)

  /** The response for a user id with no row: defaults, not successful, with the error text. */
  const UserNotFound := DashboardInfo(0, 0, 0.0, 0.0, 0.0, 0.0, 0.0, 0.0, 0.0, 0.0, 0.0, 0,
                                      false, false, Some("Could not find user."), [], [])

  datatype Nutrient = Carbs | Fats | Protein | Sodium | Sugar

  function Amount(p: Product, n: Nutrient): real {
    match n
    case Carbs => p.carbs
    case Fats => p.fats
    case Protein => p.protein
    case Sodium => p.sodium
    case Sugar => p.sugar
  }

  /** Σ quantity · Calories over a recipe's lines, in long arithmetic. */
  function RecipeCalories(lines: seq<Line<int>>, products: map<int, Product>): int
    requires LinesIn(lines, products)
  {
    if lines == [] then 0
    else lines[0].value * Calories(products[lines[0].id]) + RecipeCalories(lines[1..], products)
  }

  /** Σ quantity · amount of one nutrient over a recipe's lines. */
  function RecipeNutrient(lines: seq<Line<int>>, products: map<int, Product>, n: Nutrient): real
    requires LinesIn(lines, products)
  {
    if lines == [] then 0.0
    else lines[0].value as real * Amount(products[lines[0].id], n) + RecipeNutrient(lines[1..], products, n)
  }

  /** Eating one portion of each product gives the sum of the products' Calories. */
  lemma {:induction false} RecipeCaloriesOfSinglePortions(lines: seq<Line<int>>, products: map<int, Product>)
    requires LinesIn(lines, products)
    requires forall k :: 0 <= k < |lines| ==> lines[k].value == 1
    ensures RecipeCalories(lines, products) == Recipes.CaloriesSum(lines, products)
  {
    if lines != [] {
      RecipeCaloriesOfSinglePortions(lines[1..], products);
    }
  }

  /** Multiplying every quantity by c multiplies the calories by c. */
  lemma {:induction false} RecipeCaloriesScale(lines: seq<Line<int>>, products: map<int, Product>, c: int)
    requires LinesIn(lines, products)
    ensures LinesIn(Scaled(lines, c), products)
    ensures RecipeCalories(Scaled(lines, c), products) == c * RecipeCalories(lines, products)
  {
    var s := Scaled(lines, c);
    assert LinesIn(s, products) by {
      assert forall k :: 0 <= k < |s| ==> s[k].id == lines[k].id;
    }
    if lines != [] {
      assert s[1..] == Scaled(lines[1..], c);
      RecipeCaloriesScale(lines[1..], products, c);
      var v, k, rest := lines[0].value, Calories(products[lines[0].id]), RecipeCalories(lines[1..], products);
      assert RecipeCalories(s, products) == (c * v) * k + c * rest;
      ScaleStep(c, v, k, rest);
    }
  }

  lemma ScaleStep(c: int, v: int, k: int, rest: int)
    ensures (c * v) * k + c * rest == c * (v * k + rest)
  {
    assert (c * v) * k == c * (v * k);
  }

  /** The same lines with every quantity multiplied by c. */
  function Scaled(lines: seq<Line<int>>, c: int): (r: seq<Line<int>>)
    ensures |r| == |lines|
    ensures forall k :: 0 <= k < |r| ==> r[k] == Line(lines[k].id, c * lines[k].value)
  {
    seq(|lines|, k requires 0 <= k < |lines| => Line(lines[k].id, c * lines[k].value))
  }

  /** The dashboard's filter on a log row: not soft-deleted, the user's, logged on today's UTC date. */
  predicate LoggedToday(l: LogEntry, userId: string, now: DateTime) {
    LogVisible(l) && l.userId == userId && SameUtcDate(l.dateLogged, now)
  }

  predicate Counts(l: LogEntry, items: set<int>, userId: string, now: DateTime) {
    LoggedToday(l, userId, now) && l.itemId in items
  }

  /** The log rows the dashboard reads, in table order; `items` are the ids the inner join can reach. */
  function TodaysLogs(logs: seq<LogEntry>, items: set<int>, userId: string, now: DateTime): (r: seq<LogEntry>)
    ensures |r| <= |logs|
    ensures forall k :: 0 <= k < |r| ==> r[k] in logs && Counts(r[k], items, userId, now)
    ensures forall k :: 0 <= k < |logs| && Counts(logs[k], items, userId, now) ==> logs[k] in r
  {
    if logs == [] then []
    else
      var init := logs[..|logs| - 1];
      var last := logs[|logs| - 1];
      assert forall k :: 0 <= k < |logs| - 1 ==> logs[k] == init[k];
      var rest := TodaysLogs(init, items, userId, now);
      if Counts(last, items, userId, now) then rest + [last] else rest
  }

  lemma TodaysLogsSnoc(logs: seq<LogEntry>, l: LogEntry, items: set<int>, userId: string, now: DateTime)
    ensures TodaysLogs(logs + [l], items, userId, now) ==
              TodaysLogs(logs, items, userId, now) + (if Counts(l, items, userId, now) then [l] else [])
  {
    assert (logs + [l])[..|logs|] == logs;
  }

  /** Reading two stretches of a table is reading each in turn. */
  lemma {:induction false} TodaysLogsConcat(a: seq<LogEntry>, b: seq<LogEntry>, items: set<int>, userId: string, now: DateTime)
    ensures TodaysLogs(a + b, items, userId, now) == TodaysLogs(a, items, userId, now) + TodaysLogs(b, items, userId, now)
    decreases |b|
  {
    if b == [] {
      assert a + b == a;
    } else {
      var init := b[..|b| - 1];
      var last := b[|b| - 1];
      assert b == init + [last];
      assert a + b == (a + init) + [last];
      TodaysLogsConcat(a, init, items, userId, now);
      TodaysLogsSnoc(a + init, last, items, userId, now);
      TodaysLogsSnoc(init, last, items, userId, now);
    }
  }

  /** A user with no log rows reads none. */
  lemma {:induction false} NoLogsOfUser(logs: seq<LogEntry>, items: set<int>, userId: string, now: DateTime)
    requires forall k :: 0 <= k < |logs| ==> logs[k].userId != userId
    ensures TodaysLogs(logs, items, userId, now) == []
  {
    if logs != [] {
      NoLogsOfUser(logs[..|logs| - 1], items, userId, now);
    }
  }

  function VisibleRecipeIds(t: Tables): (ids: set<int>)
    ensures forall id :: id in ids <==> RecipeVisible(t, id)
  {
    set id | id in t.recipes && !t.recipes[id].deletion.isDeleted
  }

  function VisibleWorkoutIds(t: Tables): (ids: set<int>)
    ensures forall id :: id in ids <==> WorkoutVisible(t, id)
  {
    set id | id in t.workouts && !t.workouts[id].deletion.isDeleted
  }

  function TodaysRecipeLogs(t: Tables, userId: string, now: DateTime): seq<LogEntry> {
    TodaysLogs(t.usersRecipes, VisibleRecipeIds(t), userId, now)
  }

  function TodaysWorkoutLogs(t: Tables, userId: string, now: DateTime): seq<LogEntry> {
    TodaysLogs(t.usersWorkouts, VisibleWorkoutIds(t), userId, now)
  }

  /** Every log names a recipe whose lines all name products. */
  predicate RecipeLogsResolve(recipes: map<int, Recipe>, products: map<int, Product>, logs: seq<LogEntry>) {
    forall k :: 0 <= k < |logs| ==>
      logs[k].itemId in recipes && LinesIn(recipes[logs[k].itemId].productsQuantities, products)
  }

  predicate WorkoutLogsResolve(workouts: map<int, Workout>, logs: seq<LogEntry>) {
    forall k :: 0 <= k < |logs| ==> logs[k].itemId in workouts
  }

  lemma TodaysLogsResolve(t: Tables, userId: string, now: DateTime)
    requires Consistent(t)
    ensures RecipeLogsResolve(t.recipes, t.products, TodaysRecipeLogs(t, userId, now))
    ensures WorkoutLogsResolve(t.workouts, TodaysWorkoutLogs(t, userId, now))
  {
  }

  /** The row of LoggedRecipes for one log. */
  function RecipeSummary(recipes: map<int, Recipe>, products: map<int, Product>, l: LogEntry): (s: DashboardRecipeInfo)
    requires l.itemId in recipes && LinesIn(recipes[l.itemId].productsQuantities, products)
    ensures s.recipeId == l.itemId && s.dateLogged == l.dateLogged && s.name == recipes[l.itemId].name
  {
    var lines := recipes[l.itemId].productsQuantities;
    DashboardRecipeInfo(l.itemId, l.dateLogged, recipes[l.itemId].name, RecipeCalories(lines, products),
                        RecipeNutrient(lines, products, Carbs), RecipeNutrient(lines, products, Fats),
                        RecipeNutrient(lines, products, Protein))
  }

  function RecipeSummaries(recipes: map<int, Recipe>, products: map<int, Product>, logs: seq<LogEntry>): (r: seq<DashboardRecipeInfo>)
    requires RecipeLogsResolve(recipes, products, logs)
    ensures |r| == |logs|
    ensures forall k :: 0 <= k < |logs| ==> r[k] == RecipeSummary(recipes, products, logs[k])
  {
    seq(|logs|, k requires 0 <= k < |logs| => RecipeSummary(recipes, products, logs[k]))
  }

  /** The row of LoggedWorkouts for one log. */
  function WorkoutSummary(workouts: map<int, Workout>, l: LogEntry): (s: DashboardWorkoutInfo)
    requires l.itemId in workouts
    ensures s.workoutId == l.itemId && s.dateLogged == l.dateLogged && s.name == workouts[l.itemId].name
  {
    var w := workouts[l.itemId];
    DashboardWorkoutInfo(l.itemId, l.dateLogged, w.name, w.caloriesBurned, w.timeToFinish)
  }

  function WorkoutSummaries(workouts: map<int, Workout>, logs: seq<LogEntry>): (r: seq<DashboardWorkoutInfo>)
    requires WorkoutLogsResolve(workouts, logs)
    ensures |r| == |logs|
    ensures forall k :: 0 <= k < |logs| ==> r[k] == WorkoutSummary(workouts, logs[k])
  {
    seq(|logs|, k requires 0 <= k < |logs| => WorkoutSummary(workouts, logs[k]))
  }

  /** CurrentCalories: the logged recipes' calories, summed over the logs. */
  function EatenCalories(recipes: map<int, Recipe>, products: map<int, Product>, logs: seq<LogEntry>): int
    requires RecipeLogsResolve(recipes, products, logs)
  {
    if logs == [] then 0
    else
      var l := logs[|logs| - 1];
      EatenCalories(recipes, products, logs[..|logs| - 1]) + RecipeCalories(recipes[l.itemId].productsQuantities, products)
  }

  /** CurrentCarbs, CurrentFats, CurrentProteins, CurrentSodium and CurrentSugars. */
  function EatenNutrient(recipes: map<int, Recipe>, products: map<int, Product>, logs: seq<LogEntry>, n: Nutrient): real
    requires RecipeLogsResolve(recipes, products, logs)
  {
    if logs == [] then 0.0
    else
      var l := logs[|logs| - 1];
      EatenNutrient(recipes, products, logs[..|logs| - 1], n) + RecipeNutrient(recipes[l.itemId].productsQuantities, products, n)
  }

  function BurnedCalories(workouts: map<int, Workout>, logs: seq<LogEntry>): real
    requires WorkoutLogsResolve(workouts, logs)
  {
    if logs == [] then 0.0
    else BurnedCalories(workouts, logs[..|logs| - 1]) + workouts[logs[|logs| - 1].itemId].caloriesBurned
  }

  function TimeSpentTraining(workouts: map<int, Workout>, logs: seq<LogEntry>): int
    requires WorkoutLogsResolve(workouts, logs)
  {
    if logs == [] then 0
    else TimeSpentTraining(workouts, logs[..|logs| - 1]) + workouts[logs[|logs| - 1].itemId].timeToFinish
  }

  /** Column sums over the rows the response lists. */
  function ListedCalories(rows: seq<DashboardRecipeInfo>): int {
    if rows == [] then 0 else ListedCalories(rows[..|rows| - 1]) + rows[|rows| - 1].calories
  }

  function ListedCarbs(rows: seq<DashboardRecipeInfo>): real {
    if rows == [] then 0.0 else ListedCarbs(rows[..|rows| - 1]) + rows[|rows| - 1].carbs
  }

  function ListedFats(rows: seq<DashboardRecipeInfo>): real {
    if rows == [] then 0.0 else ListedFats(rows[..|rows| - 1]) + rows[|rows| - 1].fats
  }

  function ListedProtein(rows: seq<DashboardRecipeInfo>): real {
    if rows == [] then 0.0 else ListedProtein(rows[..|rows| - 1]) + rows[|rows| - 1].protein
  }

  function ListedBurned(rows: seq<DashboardWorkoutInfo>): real {
    if rows == [] then 0.0 else ListedBurned(rows[..|rows| - 1]) + rows[|rows| - 1].caloriesBurned
  }

  function ListedTime(rows: seq<DashboardWorkoutInfo>): int {
    if rows == [] then 0 else ListedTime(rows[..|rows| - 1]) + rows[|rows| - 1].timeTrained
  }

  /** The headline totals are the column sums of the listed recipes. */
  lemma {:induction false} RecipeTotalsMatchRows(recipes: map<int, Recipe>, products: map<int, Product>, logs: seq<LogEntry>)
    requires RecipeLogsResolve(recipes, products, logs)
    ensures EatenCalories(recipes, products, logs) == ListedCalories(RecipeSummaries(recipes, products, logs))
    ensures EatenNutrient(recipes, products, logs, Carbs) == ListedCarbs(RecipeSummaries(recipes, products, logs))
    ensures EatenNutrient(recipes, products, logs, Fats) == ListedFats(RecipeSummaries(recipes, products, logs))
    ensures EatenNutrient(recipes, products, logs, Protein) == ListedProtein(RecipeSummaries(recipes, products, logs))
  {
    if logs != [] {
      var init := logs[..|logs| - 1];
      assert RecipeSummaries(recipes, products, logs)[..|logs| - 1] == RecipeSummaries(recipes, products, init);
      RecipeTotalsMatchRows(recipes, products, init);
    }
  }

  /** The training totals are the column sums of the listed workouts. */
  lemma {:induction false} WorkoutTotalsMatchRows(workouts: map<int, Workout>, logs: seq<LogEntry>)
    requires WorkoutLogsResolve(workouts, logs)
    ensures BurnedCalories(workouts, logs) == ListedBurned(WorkoutSummaries(workouts, logs))
    ensures TimeSpentTraining(workouts, logs) == ListedTime(WorkoutSummaries(workouts, logs))
  {
    if logs != [] {
      var init := logs[..|logs| - 1];
      assert WorkoutSummaries(workouts, logs)[..|logs| - 1] == WorkoutSummaries(workouts, init);
      WorkoutTotalsMatchRows(workouts, init);
    }
  }

  /**
   * GetUserDashboardInfo at the instant `now`. None stands for the exception
   * int.Parse throws on a schedule piece that is not a number.
   */
  function GetUserDashboardInfo(t: Tables, userId: string, now: DateTime): (d: Option<DashboardInfo>)
    requires Consistent(t) && ValidDate(now)
    ensures userId !in t.users ==> d == Some(UserNotFound)
    ensures userId in t.users ==> (d.Some? <==> TrainingDays(t.users[userId].workoutSchedule).Some?)
    ensures userId in t.users && d.Some? ==>
              var u := t.users[userId];
              var v := d.value;
              && v.isSuccess && v.error == None
              && (v.isRestDay <==> CurrentDayNumber(WeekDay(now)) !in TrainingDays(u.workoutSchedule).value)
              && v.targetCalories == u.dailyCalorieGoal
              && v.targetProteins == u.targetProteins as real
              && v.targetCarbs == u.targetCarbs as real
              && v.targetFats == u.targetFats as real
              && |v.loggedRecipes| == |TodaysRecipeLogs(t, userId, now)|
              && |v.loggedWorkouts| == |TodaysWorkoutLogs(t, userId, now)|
              && v.currentCalories == ListedCalories(v.loggedRecipes)
              && v.currentCarbs == ListedCarbs(v.loggedRecipes)
              && v.currentFats == ListedFats(v.loggedRecipes)
              && v.currentProteins == ListedProtein(v.loggedRecipes)
              && v.burnedCalories == ListedBurned(v.loggedWorkouts)
              && v.timeSpentTraining == ListedTime(v.loggedWorkouts)
    ensures userId in t.users && d.Some? ==>
              var eaten := TodaysRecipeLogs(t, userId, now);
              var trained := TodaysWorkoutLogs(t, userId, now);
              && RecipeLogsResolve(t.recipes, t.products, eaten)
              && WorkoutLogsResolve(t.workouts, trained)
              && d.value.loggedRecipes == RecipeSummaries(t.recipes, t.products, eaten)
              && d.value.loggedWorkouts == WorkoutSummaries(t.workouts, trained)
              && d.value.currentSugars == EatenNutrient(t.recipes, t.products, eaten, Sugar)
              && d.value.currentSodium == EatenNutrient(t.recipes, t.products, eaten, Sodium)
  {
    if userId !in t.users then Some(UserNotFound)
    else
      var u := t.users[userId];
      match TrainingDays(u.workoutSchedule)
      case None => None
      case Some(days) =>
        TodaysLogsResolve(t, userId, now);
        var eaten := TodaysRecipeLogs(t, userId, now);
        var trained := TodaysWorkoutLogs(t, userId, now);
        RecipeTotalsMatchRows(t.recipes, t.products, eaten);
        WorkoutTotalsMatchRows(t.workouts, trained);
        Some(DashboardInfo(
          u.dailyCalorieGoal, EatenCalories(t.recipes, t.products, eaten),
          EatenNutrient(t.recipes, t.products, eaten, Protein), u.targetProteins as real,
          EatenNutrient(t.recipes, t.products, eaten, Carbs), u.targetCarbs as real,
          EatenNutrient(t.recipes, t.products, eaten, Fats), u.targetFats as real,
          EatenNutrient(t.recipes, t.products, eaten, Sugar), EatenNutrient(t.recipes, t.products, eaten, Sodium),
          BurnedCalories(t.workouts, trained), TimeSpentTraining(t.workouts, trained),
          CurrentDayNumber(WeekDay(now)) !in days, true, None,
          RecipeSummaries(t.recipes, t.products, eaten), WorkoutSummaries(t.workouts, trained)))
  }

  lemma {:induction false} EatenConcat(recipes: map<int, Recipe>, products: map<int, Product>, a: seq<LogEntry>, b: seq<LogEntry>)
    requires RecipeLogsResolve(recipes, products, a) && RecipeLogsResolve(recipes, products, b)
    ensures RecipeLogsResolve(recipes, products, a + b)
    ensures EatenCalories(recipes, products, a + b) == EatenCalories(recipes, products, a) + EatenCalories(recipes, products, b)
    decreases |b|
  {
    if b == [] {
      assert a + b == a;
    } else {
      var init := b[..|b| - 1];
      assert (a + b)[..|a + b| - 1] == a + init;
      EatenConcat(recipes, products, a, init);
    }
  }

  /** The fields of a successful dashboard, in terms of the logs it read. */
  lemma DashboardReads(t: Tables, userId: string, now: DateTime)
    requires Consistent(t) && ValidDate(now)
    requires userId in t.users && TrainingDays(t.users[userId].workoutSchedule).Some?
    ensures RecipeLogsResolve(t.recipes, t.products, TodaysRecipeLogs(t, userId, now))
    ensures WorkoutLogsResolve(t.workouts, TodaysWorkoutLogs(t, userId, now))
    ensures
      var v := GetUserDashboardInfo(t, userId, now).value;
      && v.loggedRecipes == RecipeSummaries(t.recipes, t.products, TodaysRecipeLogs(t, userId, now))
      && v.currentCalories == EatenCalories(t.recipes, t.products, TodaysRecipeLogs(t, userId, now))
      && v.loggedWorkouts == WorkoutSummaries(t.workouts, TodaysWorkoutLogs(t, userId, now))
      && v.burnedCalories == BurnedCalories(t.workouts, TodaysWorkoutLogs(t, userId, now))
      && v.timeSpentTraining == TimeSpentTraining(t.workouts, TodaysWorkoutLogs(t, userId, now))
  {
    TodaysLogsResolve(t, userId, now);
  }

  /** A recipe log for an existing user and recipe with a fresh key keeps the tables consistent. */
  lemma RecipeLogKeepsConsistent(t: Tables, userId: string, id: int, at: DateTime, userName: Option<string>)
    requires Consistent(t) && userId in t.users && id in t.recipes && KeyAbsent(t.usersRecipes, userId, id, at)
    ensures Consistent(t.(usersRecipes := t.usersRecipes + [NewLog(userId, id, at, userName)]))
  {
    var t2 := t.(usersRecipes := t.usersRecipes + [NewLog(userId, id, at, userName)]);
    AddKeepsKeysUnique(t.usersRecipes, userId, id, at, userName);
    assert forall i :: 0 <= i < |t.usersRecipes| ==> t2.usersRecipes[i] == t.usersRecipes[i];
  }

  lemma WorkoutLogKeepsConsistent(t: Tables, userId: string, id: int, at: DateTime, userName: Option<string>)
    requires Consistent(t) && userId in t.users && id in t.workouts && KeyAbsent(t.usersWorkouts, userId, id, at)
    ensures Consistent(t.(usersWorkouts := t.usersWorkouts + [NewLog(userId, id, at, userName)]))
  {
    var t2 := t.(usersWorkouts := t.usersWorkouts + [NewLog(userId, id, at, userName)]);
    AddKeepsKeysUnique(t.usersWorkouts, userId, id, at, userName);
    assert forall i :: 0 <= i < |t.usersWorkouts| ==> t2.usersWorkouts[i] == t.usersWorkouts[i];
  }

  /** Logging a visible recipe now adds its row and its calories to the user's dashboard, and nothing to training. */
  lemma LoggingRecipeAddsItsCalories(t: Tables, userId: string, id: int, now: DateTime, userName: Option<string>)
    requires Consistent(t) && ValidDate(now)
    requires userId in t.users && RecipeVisible(t, id) && KeyAbsent(t.usersRecipes, userId, id, now)
    requires TrainingDays(t.users[userId].workoutSchedule).Some?
    ensures Consistent(t.(usersRecipes := t.usersRecipes + [NewLog(userId, id, now, userName)]))
    ensures
      var before := GetUserDashboardInfo(t, userId, now).value;
      var after := GetUserDashboardInfo(t.(usersRecipes := t.usersRecipes + [NewLog(userId, id, now, userName)]), userId, now).value;
      && after.loggedRecipes == before.loggedRecipes + [RecipeSummary(t.recipes, t.products, NewLog(userId, id, now, userName))]
      && after.currentCalories == before.currentCalories + RecipeCalories(t.recipes[id].productsQuantities, t.products)
      && after.loggedWorkouts == before.loggedWorkouts
      && after.burnedCalories == before.burnedCalories
  {
    var l := NewLog(userId, id, now, userName);
    var t2 := t.(usersRecipes := t.usersRecipes + [l]);
    RecipeLogKeepsConsistent(t, userId, id, now, userName);
    TodaysLogsResolve(t, userId, now);
    RecipeLogAppended(t, userId, id, now, userName);
    DashboardReads(t, userId, now);
    DashboardReads(t2, userId, now);
  }

  /** What today's read sees once a recipe is logged now. */
  lemma RecipeLogAppended(t: Tables, userId: string, id: int, now: DateTime, userName: Option<string>)
    requires RecipeVisible(t, id) && LinesIn(t.recipes[id].productsQuantities, t.products)
    requires RecipeLogsResolve(t.recipes, t.products, TodaysRecipeLogs(t, userId, now))
    ensures
      var l := NewLog(userId, id, now, userName);
      var t2 := t.(usersRecipes := t.usersRecipes + [l]);
      var e := TodaysRecipeLogs(t, userId, now);
      && RecipeLogsResolve(t.recipes, t.products, e + [l])
      && TodaysRecipeLogs(t2, userId, now) == e + [l]
      && TodaysWorkoutLogs(t2, userId, now) == TodaysWorkoutLogs(t, userId, now)
      && RecipeSummaries(t.recipes, t.products, e + [l]) ==
           RecipeSummaries(t.recipes, t.products, e) + [RecipeSummary(t.recipes, t.products, l)]
      && EatenCalories(t.recipes, t.products, e + [l]) ==
           EatenCalories(t.recipes, t.products, e) + RecipeCalories(t.recipes[id].productsQuantities, t.products)
  {
    var l := NewLog(userId, id, now, userName);
    var t2 := t.(usersRecipes := t.usersRecipes + [l]);
    var e := TodaysRecipeLogs(t, userId, now);
    var el := e + [l];
    assert VisibleRecipeIds(t2) == VisibleRecipeIds(t);
    assert VisibleWorkoutIds(t2) == VisibleWorkoutIds(t);
    assert TodaysRecipeLogs(t2, userId, now) == el by {
      TodaysLogsSnoc(t.usersRecipes, l, VisibleRecipeIds(t), userId, now);
    }
    assert RecipeLogsResolve(t.recipes, t.products, el) by {
      assert forall k :: 0 <= k < |e| ==> el[k] == e[k];
    }
    assert RecipeSummaries(t.recipes, t.products, el) ==
           RecipeSummaries(t.recipes, t.products, e) + [RecipeSummary(t.recipes, t.products, l)];
    assert EatenCalories(t.recipes, t.products, el) ==
           EatenCalories(t.recipes, t.products, e) + RecipeCalories(t.recipes[id].productsQuantities, t.products) by {
      assert el[..|e|] == e;
    }
  }

  /** Another user's log leaves this user's dashboard as it was. */
  lemma OthersLogsDoNotCount(t: Tables, userId: string, other: string, id: int, now: DateTime, at: DateTime,
                             userName: Option<string>)
    requires Consistent(t) && ValidDate(now)
    requires userId in t.users && other != userId && other in t.users && id in t.recipes
    requires KeyAbsent(t.usersRecipes, other, id, at)
    ensures Consistent(t.(usersRecipes := t.usersRecipes + [NewLog(other, id, at, userName)]))
    ensures GetUserDashboardInfo(t.(usersRecipes := t.usersRecipes + [NewLog(other, id, at, userName)]), userId, now) ==
            GetUserDashboardInfo(t, userId, now)
  {
    var l := NewLog(other, id, at, userName);
    var t2 := t.(usersRecipes := t.usersRecipes + [l]);
    RecipeLogKeepsConsistent(t, other, id, at, userName);
    assert VisibleRecipeIds(t2) == VisibleRecipeIds(t);
    TodaysLogsSnoc(t.usersRecipes, l, VisibleRecipeIds(t), userId, now);
    assert TodaysRecipeLogs(t2, userId, now) == TodaysRecipeLogs(t, userId, now);
  }

  /** Soft-deleting one of today's logs takes its row and its calories off the dashboard. */
  lemma DeletingLoggedRecipeRemovesItsCalories(t: Tables, userId: string, i: int, now: DateTime, at: DateTime,
                                               userName: Option<string>)
    requires Consistent(t) && ValidDate(now)
    requires userId in t.users && TrainingDays(t.users[userId].workoutSchedule).Some?
    requires 0 <= i < |t.usersRecipes| && Counts(t.usersRecipes[i], VisibleRecipeIds(t), userId, now)
    ensures Consistent(t.(usersRecipes := t.usersRecipes[i := SoftDeletedLog(t.usersRecipes[i], userId, at, userName)]))
    ensures
      var before := GetUserDashboardInfo(t, userId, now).value;
      var after := GetUserDashboardInfo(
        t.(usersRecipes := t.usersRecipes[i := SoftDeletedLog(t.usersRecipes[i], userId, at, userName)]), userId, now).value;
      && |after.loggedRecipes| == |before.loggedRecipes| - 1
      && after.currentCalories ==
           before.currentCalories - RecipeCalories(t.recipes[t.usersRecipes[i].itemId].productsQuantities, t.products)
  {
    var logs := t.usersRecipes;
    var d := SoftDeletedLog(logs[i], userId, at, userName);
    var t2 := t.(usersRecipes := logs[i := d]);
    SoftDeleteKeepsKeysUnique(logs, i, userId, at, userName);
    assert Consistent(t2);
    TodaysLogsResolve(t, userId, now);
    TodaysLogsResolve(t2, userId, now);
    RecipeLogSoftDeleted(t, userId, i, now, at, userName);
    DashboardReads(t, userId, now);
    DashboardReads(t2, userId, now);
  }

  /** What today's read sees once one of the rows it counted is soft-deleted. */
  lemma RecipeLogSoftDeleted(t: Tables, userId: string, i: int, now: DateTime, at: DateTime, userName: Option<string>)
    requires 0 <= i < |t.usersRecipes| && Counts(t.usersRecipes[i], VisibleRecipeIds(t), userId, now)
    requires RecipeLogsResolve(t.recipes, t.products, TodaysRecipeLogs(t, userId, now))
    ensures
      var t2 := t.(usersRecipes := t.usersRecipes[i := SoftDeletedLog(t.usersRecipes[i], userId, at, userName)]);
      && RecipeLogsResolve(t.recipes, t.products, TodaysRecipeLogs(t2, userId, now))
      && |TodaysRecipeLogs(t2, userId, now)| == |TodaysRecipeLogs(t, userId, now)| - 1
      && EatenCalories(t.recipes, t.products, TodaysRecipeLogs(t2, userId, now)) ==
           EatenCalories(t.recipes, t.products, TodaysRecipeLogs(t, userId, now))
           - RecipeCalories(t.recipes[t.usersRecipes[i].itemId].productsQuantities, t.products)
  {
    var logs := t.usersRecipes;
    var l := logs[i];
    var d := SoftDeletedLog(l, userId, at, userName);
    var t2 := t.(usersRecipes := logs[i := d]);
    var items := VisibleRecipeIds(t);
    var fa, fb := SplitAround(logs, i, d, items, userId, now);
    assert VisibleRecipeIds(t2) == items;
    assert TodaysRecipeLogs(t2, userId, now) == fa + fb;
    assert RecipeLogsResolve(t.recipes, t.products, fa) && RecipeLogsResolve(t.recipes, t.products, fb) by {
      assert forall k :: 0 <= k < |fa| ==> fa[k] == TodaysRecipeLogs(t, userId, now)[k];
      assert forall k :: 0 <= k < |fb| ==> fb[k] == TodaysRecipeLogs(t, userId, now)[|fa| + 1 + k];
    }
    EatenConcat(t.recipes, t.products, fa + [l], fb);
    EatenConcat(t.recipes, t.products, fa, fb);
    assert (fa + [l])[..|fa|] == fa;
  }

  /** The logs today's read sees before and after row i changes to a row that does not count. */
  lemma SplitAround(logs: seq<LogEntry>, i: int, d: LogEntry, items: set<int>, userId: string, now: DateTime)
    returns (fa: seq<LogEntry>, fb: seq<LogEntry>)
    requires 0 <= i < |logs| && Counts(logs[i], items, userId, now) && !Counts(d, items, userId, now)
    ensures TodaysLogs(logs, items, userId, now) == fa + [logs[i]] + fb
    ensures TodaysLogs(logs[i := d], items, userId, now) == fa + fb
  {
    var l := logs[i];
    var a, b := logs[..i], logs[i + 1..];
    assert logs == a + [l] + b;
    assert logs[i := d] == a + [d] + b;
    TodaysLogsConcat(a + [l], b, items, userId, now);
    TodaysLogsConcat(a + [d], b, items, userId, now);
    TodaysLogsSnoc(a, l, items, userId, now);
    TodaysLogsSnoc(a, d, items, userId, now);
    fa, fb := TodaysLogs(a, items, userId, now), TodaysLogs(b, items, userId, now);
  }

  /** Once a recipe is soft-deleted its logs drop out of the dashboard's join. */
  lemma DeletedRecipeLeavesDashboard(t: Tables, userId: string, id: int, now: DateTime, at: DateTime,
                                     deleter: string, userName: Option<string>)
    requires Consistent(t) && ValidDate(now) && id in t.recipes
    requires userId in t.users && TrainingDays(t.users[userId].workoutSchedule).Some?
    ensures Consistent(t.(recipes := t.recipes[id := Recipes.SoftDeletedRecipe(t.recipes[id], deleter, at, userName)]))
    ensures
      var after := GetUserDashboardInfo(
        t.(recipes := t.recipes[id := Recipes.SoftDeletedRecipe(t.recipes[id], deleter, at, userName)]), userId, now).value;
      forall k :: 0 <= k < |after.loggedRecipes| ==> after.loggedRecipes[k].recipeId != id
  {
    var d := Recipes.SoftDeletedRecipe(t.recipes[id], deleter, at, userName);
    var t2 := t.(recipes := t.recipes[id := d]);
    RecipeRowReplaced(t, id, d);
    HiddenRecipeNotListed(t2, userId, id, now);
  }

  /** No row of the dashboard names a recipe the query filter hides. */
  lemma HiddenRecipeNotListed(t: Tables, userId: string, id: int, now: DateTime)
    requires Consistent(t) && ValidDate(now) && !RecipeVisible(t, id)
    requires userId in t.users && TrainingDays(t.users[userId].workoutSchedule).Some?
    ensures
      var rows := GetUserDashboardInfo(t, userId, now).value.loggedRecipes;
      forall k :: 0 <= k < |rows| ==> rows[k].recipeId != id
  {
    var e := TodaysRecipeLogs(t, userId, now);
    assert forall k :: 0 <= k < |e| ==> e[k].itemId != id by {
      assert id !in VisibleRecipeIds(t);
    }
    DashboardReads(t, userId, now);
    var rows := RecipeSummaries(t.recipes, t.products, e);
    assert forall k :: 0 <= k < |rows| ==> rows[k].recipeId != id;
  }

  /** A recipe row replaced by one with the same id and lines keeps the tables consistent. */
  lemma RecipeRowReplaced(t: Tables, id: int, d: Recipe)
    requires Consistent(t) && id in t.recipes
    requires d.id == id && d.productsQuantities == t.recipes[id].productsQuantities
    ensures Consistent(t.(recipes := t.recipes[id := d]))
  {
  }

  /** Logging a visible workout now adds its row, its burned calories and its time to the dashboard. */
  lemma LoggingWorkoutAddsItsTraining(t: Tables, userId: string, id: int, now: DateTime, userName: Option<string>)
    requires Consistent(t) && ValidDate(now)
    requires userId in t.users && WorkoutVisible(t, id) && KeyAbsent(t.usersWorkouts, userId, id, now)
    requires TrainingDays(t.users[userId].workoutSchedule).Some?
    ensures Consistent(t.(usersWorkouts := t.usersWorkouts + [NewLog(userId, id, now, userName)]))
    ensures
      var before := GetUserDashboardInfo(t, userId, now).value;
      var after := GetUserDashboardInfo(t.(usersWorkouts := t.usersWorkouts + [NewLog(userId, id, now, userName)]), userId, now).value;
      && after.loggedWorkouts == before.loggedWorkouts + [WorkoutSummary(t.workouts, NewLog(userId, id, now, userName))]
      && after.burnedCalories == before.burnedCalories + t.workouts[id].caloriesBurned
      && after.timeSpentTraining == before.timeSpentTraining + t.workouts[id].timeToFinish
      && after.loggedRecipes == before.loggedRecipes
      && after.currentCalories == before.currentCalories
  {
    var l := NewLog(userId, id, now, userName);
    var t2 := t.(usersWorkouts := t.usersWorkouts + [l]);
    WorkoutLogKeepsConsistent(t, userId, id, now, userName);
    TodaysLogsResolve(t, userId, now);
    WorkoutLogAppended(t, userId, id, now, userName);
    DashboardReads(t, userId, now);
    DashboardReads(t2, userId, now);
  }

  /** What today's read sees once a workout is logged now. */
  lemma WorkoutLogAppended(t: Tables, userId: string, id: int, now: DateTime, userName: Option<string>)
    requires WorkoutVisible(t, id)
    requires WorkoutLogsResolve(t.workouts, TodaysWorkoutLogs(t, userId, now))
    ensures
      var l := NewLog(userId, id, now, userName);
      var t2 := t.(usersWorkouts := t.usersWorkouts + [l]);
      var e := TodaysWorkoutLogs(t, userId, now);
      && WorkoutLogsResolve(t.workouts, e + [l])
      && TodaysWorkoutLogs(t2, userId, now) == e + [l]
      && TodaysRecipeLogs(t2, userId, now) == TodaysRecipeLogs(t, userId, now)
      && WorkoutSummaries(t.workouts, e + [l]) == WorkoutSummaries(t.workouts, e) + [WorkoutSummary(t.workouts, l)]
      && BurnedCalories(t.workouts, e + [l]) == BurnedCalories(t.workouts, e) + t.workouts[id].caloriesBurned
      && TimeSpentTraining(t.workouts, e + [l]) == TimeSpentTraining(t.workouts, e) + t.workouts[id].timeToFinish
  {
    var l := NewLog(userId, id, now, userName);
    var t2 := t.(usersWorkouts := t.usersWorkouts + [l]);
    var e := TodaysWorkoutLogs(t, userId, now);
    var el := e + [l];
    assert VisibleRecipeIds(t2) == VisibleRecipeIds(t);
    assert VisibleWorkoutIds(t2) == VisibleWorkoutIds(t);
    assert TodaysWorkoutLogs(t2, userId, now) == el by {
      TodaysLogsSnoc(t.usersWorkouts, l, VisibleWorkoutIds(t), userId, now);
    }
    assert WorkoutLogsResolve(t.workouts, el) by {
      assert forall k :: 0 <= k < |e| ==> el[k] == e[k];
    }
    assert WorkoutSummaries(t.workouts, el) == WorkoutSummaries(t.workouts, e) + [WorkoutSummary(t.workouts, l)];
    assert BurnedCalories(t.workouts, el) == BurnedCalories(t.workouts, e) + t.workouts[id].caloriesBurned by {
      assert el[..|e|] == e;
    }
    assert TimeSpentTraining(t.workouts, el) == TimeSpentTraining(t.workouts, e) + t.workouts[id].timeToFinish by {
      assert el[..|e|] == e;
    }
  }
}

/**
 * The database context: the tables, their keys and relationships, and the
 * query filters that hide soft-deleted rows.
 */
module DbContext {
  import opened Calendar
  import opened ListMerge
  import opened ProductModel
  import opened UserModel
  import opened Models

  /** A snapshot of every table the services use. */
  datatype Tables = Tables(
    users: map<string, User>,
    products: map<int, Product>,
    recipes: map<int, Recipe>,
    exercises: map<int, Exercise>,
    workouts: map<int, Workout>,
    usersRecipes: seq<LogEntry>,
    usersWorkouts: seq<LogEntry>)

  /** Two log rows with the same composite key (UserId, item id, DateLogged). */
  predicate SameKey(a: LogEntry, b: LogEntry) {
    a.userId == b.userId && a.itemId == b.itemId && a.dateLogged == b.dateLogged
  }

  predicate HasKey(l: LogEntry, userId: string, itemId: int, dateLogged: DateTime) {
    l.userId == userId && l.itemId == itemId && l.dateLogged == dateLogged
  }

  predicate UniqueLogKeys(logs: seq<LogEntry>) {
    forall i, j :: 0 <= i < j < |logs| ==> !SameKey(logs[i], logs[j])
  }

  /** No row of the log table has this key yet. */
  predicate KeyAbsent(logs: seq<LogEntry>, userId: string, itemId: int, dateLogged: DateTime) {
    forall i :: 0 <= i < |logs| ==> !HasKey(logs[i], userId, itemId, dateLogged)
  }

  /** Every line of a recipe refers to a product row. */
  predicate LinesIn(lines: seq<Line<int>>, products: map<int, Product>) {
    forall k :: 0 <= k < |lines| ==> lines[k].id in products
  }

  /** Every line of a workout refers to an exercise row. */
  predicate ExerciseLinesIn(lines: seq<Line<SetsReps>>, exercises: map<int, Exercise>) {
    forall k :: 0 <= k < |lines| ==> lines[k].id in exercises
  }

  /**
   * The keys and foreign keys the model builder declares: each keyed row is
   * stored under its id, join rows are unique per (owner, referenced id) and
   * refer to an existing product or exercise, log rows are unique per
   * composite key, and every log row refers to an existing user and an
   * existing (possibly soft-deleted) recipe or workout.
   */
  ghost predicate Consistent(t: Tables) {
    && (forall id :: id in t.users ==> t.users[id].id == id)
    && (forall id :: id in t.products ==> t.products[id].id == id)
    && (forall id :: id in t.recipes ==>
          t.recipes[id].id == id && UniqueIds(t.recipes[id].productsQuantities)
          && LinesIn(t.recipes[id].productsQuantities, t.products))
    && (forall id :: id in t.exercises ==> t.exercises[id].id == id)
    && (forall id :: id in t.workouts ==>
          t.workouts[id].id == id && UniqueIds(t.workouts[id].workoutsExercises)
          && ExerciseLinesIn(t.workouts[id].workoutsExercises, t.exercises))
    && UniqueLogKeys(t.usersRecipes)
    && UniqueLogKeys(t.usersWorkouts)
    && (forall i :: 0 <= i < |t.usersRecipes| ==>
          t.usersRecipes[i].userId in t.users && t.usersRecipes[i].itemId in t.recipes)
    && (forall i :: 0 <= i < |t.usersWorkouts| ==>
          t.usersWorkouts[i].userId in t.users && t.usersWorkouts[i].itemId in t.workouts)
  }

  /** The query filter of Recipes: only rows not soft-deleted are seen. */
  predicate RecipeVisible(t: Tables, id: int) {
    id in t.recipes && !t.recipes[id].deletion.isDeleted
  }

  /** The query filter of Workouts. */
  predicate WorkoutVisible(t: Tables, id: int) {
    id in t.workouts && !t.workouts[id].deletion.isDeleted
  }

  /** The query filter of UsersRecipes and UsersWorkouts. */
  predicate LogVisible(l: LogEntry) {
    !l.deletion.isDeleted
  }

  /** The context object the services share; each table is a field they reassign. */
  class FitnessAppDbContext {
    var users: map<string, User>
    var products: map<int, Product>
    var recipes: map<int, Recipe>
    var exercises: map<int, Exercise>
    var workouts: map<int, Workout>
    var usersRecipes: seq<LogEntry>
    var usersWorkouts: seq<LogEntry>

    constructor ()
      ensures Snapshot() == Tables(map[], map[], map[], map[], map[], [], [])
      ensures Valid()
    {
      users, products, recipes, exercises, workouts := map[], map[], map[], map[], map[];
      usersRecipes, usersWorkouts := [], [];
    }

    /** The current contents of every table. */
    function Snapshot(): Tables
      reads this
    {
      Tables(users, products, recipes, exercises, workouts, usersRecipes, usersWorkouts)
    }

    ghost predicate Valid()
      reads this
    {
      Consistent(Snapshot())
    }
  }
}

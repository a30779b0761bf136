/** Recipes, workouts, exercises and the two log tables. */
module Models {
  import opened Calendar
  import opened BaseEntities
  import opened ListMerge

  datatype Difficulty = Easy | Medium | Hard

  /** Enum.GetName of a difficulty. */
  function DifficultyName(d: Difficulty): (name: string)
    ensures |name| > 0
  {
    match d
    case Easy => "Easy"
    case Medium => "Medium"
    case Hard => "Hard"
  }

  /** Different difficulties have different names, so a listing shows which one a recipe has. */
  lemma DifficultyNameInjective(a: Difficulty, b: Difficulty)
    ensures DifficultyName(a) == DifficultyName(b) <==> a == b
  {
  }

  /** A recipe; its ProductsQuantities rows are lines from product id to quantity. */
  datatype Recipe = Recipe(
    id: int,
    name: string,
    timeToFinish: int,
    difficulty: Difficulty,
    photo: string,
    description: string,
    notesAndTips: string,
    productsQuantities: seq<Line<int>>,
    userId: string,
    audit: Audit,
    deletion: Deletion)

  /** The payload of a WorkoutExercise row. */
  datatype SetsReps = SetsReps(sets: int, repetitions: int)

  /** A workout; its WorkoutsExcercises rows are lines from exercise id to sets and repetitions. */
  datatype Workout = Workout(
    id: int,
    name: string,
    timeToFinish: int,
    difficulty: Difficulty,
    photo: string,
    description: string,
    workoutsExercises: seq<Line<SetsReps>>,
    caloriesBurned: real,
    userId: string,
    audit: Audit,
    deletion: Deletion)

  /** An exercise is a plain entity: no audit columns, no soft delete. */
  datatype Exercise = Exercise(id: int, name: string, description: string)

  /**
   * A row of UsersRecipes or UsersWorkouts: who logged which recipe or
   * workout, and when. (UserId, item id, DateLogged) is the row's key.
   */
  datatype LogEntry = LogEntry(userId: string, itemId: int, dateLogged: DateTime, audit: Audit, deletion: Deletion)
}

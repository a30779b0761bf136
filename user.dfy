/** The application user and the goals stored with it. */
module UserModel {
  import opened Numerics
  import opened Wrappers
  import opened Calendar
  import opened BaseEntities

  /** Gender; Male is the default of a new user. */
  datatype Gender = Male | Female

  /** The training goal is stored and returned, never interpreted: its numeric enum value is kept. */
  type TrainingType = int

  datatype User = User(
    id: string,
    userName: string,
    email: string,
    height: real,
    weight: real,
    trainingGoal: TrainingType,
    targetProteins: int,
    targetCarbs: int,
    targetFats: int,
    dailyCalorieGoal: int,
    gender: Gender,
    workoutSchedule: string,
    audit: Audit)

  /** WeeklyCalorieGoal: seven times the daily goal, in 64-bit arithmetic. */
  function WeeklyCalorieGoal(u: User): (w: int)
    ensures Int64Min <= w <= Int64Max
    ensures (7 * u.dailyCalorieGoal - w) % 0x1_0000_0000_0000_0000 == 0
  {
    Wrap64(u.dailyCalorieGoal * 7)
  }

  /** Without overflow the weekly goal is exactly a week of daily goals, hence a multiple of seven. */
  lemma WeeklyGoalIsSevenDays(u: User)
    requires Int64Min <= 7 * u.dailyCalorieGoal <= Int64Max
    ensures WeeklyCalorieGoal(u) == 7 * u.dailyCalorieGoal
    ensures WeeklyCalorieGoal(u) % 7 == 0
  {
  }

  /** The weekly goal follows the daily goal: it is derived, never stored. */
  lemma WeeklyGoalFollowsDailyGoal(u: User, goal: int)
    requires Int64Min <= 7 * goal <= Int64Max
    ensures WeeklyCalorieGoal(u.(dailyCalorieGoal := goal)) == 7 * goal
  {
  }

  /** A freshly constructed user with the given identity id: every property at its default. */
  function NewUser(id: string): (u: User)
    ensures u.id == id && u.gender == Male
    ensures u.dailyCalorieGoal == 0 && u.targetProteins == 0 && u.targetCarbs == 0 && u.targetFats == 0
    ensures u.audit == NewAudit
  {
    User(id, "", "", 0.0, 0.0, 0, 0, 0, 0, 0, Male, "", NewAudit)
  }
}

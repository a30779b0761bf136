/** The workout service: listing, details, create, update, soft delete, and logging workouts for a user. */
module Workouts {
  import opened Wrappers
  import opened Calendar
  import opened ChangeTracking
  import opened ListMerge
  import opened Models
  import opened DbContext
  import opened LogStore

  /** The create and update request: the workout's columns and its (exercise id, sets and repetitions) lines. */
  datatype WorkoutRequest = WorkoutRequest(
    name: string,
    description: string,
    timeToFinish: int,
    difficulty: Difficulty,
    photo: string,
    caloriesBurned: real,
    exercises: seq<Line<SetsReps>>)

  /** ExerciseInfoModel: one line of a workout joined with its exercise. */
  datatype ExerciseInfo = ExerciseInfo(id: int, name: string, description: string, sets: int, repetitions: int)

  datatype WorkoutListing = WorkoutListing(
    id: int,
    name: string,
    description: string,
    exercises: seq<ExerciseInfo>,
    timeToFinish: int,
    difficulty: string,
    caloriesBurned: real,
    photo: string,
    isMine: bool)

  function ExerciseLines(lines: seq<Line<SetsReps>>, exercises: map<int, Exercise>): (xs: seq<ExerciseInfo>)
    requires ExerciseLinesIn(lines, exercises)
    ensures |xs| == |lines|
    ensures forall k :: 0 <= k < |lines| ==>
              xs[k].id == lines[k].id && xs[k].name == exercises[lines[k].id].name
              && xs[k].description == exercises[lines[k].id].description
              && xs[k].sets == lines[k].value.sets && xs[k].repetitions == lines[k].value.repetitions
  {
    seq(|lines|, k requires 0 <= k < |lines| =>
      var e := exercises[lines[k].id];
      ExerciseInfo(lines[k].id, e.name, e.description, lines[k].value.sets, lines[k].value.repetitions))
  }

  function Listing(w: Workout, exercises: map<int, Exercise>, userId: Option<string>): (l: WorkoutListing)
    requires ExerciseLinesIn(w.workoutsExercises, exercises)
    ensures l.isMine <==> userId == Some(w.userId)
    ensures l.exercises == ExerciseLines(w.workoutsExercises, exercises)
    ensures l.id == w.id && l.name == w.name && l.caloriesBurned == w.caloriesBurned
    ensures l.difficulty == DifficultyName(w.difficulty) && l.timeToFinish == w.timeToFinish
    ensures l.description == w.description && l.photo == w.photo
  {
    WorkoutListing(w.id, w.name, w.description, ExerciseLines(w.workoutsExercises, exercises), w.timeToFinish,
                   DifficultyName(w.difficulty), w.caloriesBurned, w.photo, userId == Some(w.userId))
  }

  /** AllWorkouts, keyed by id (the order of the listing is not modelled): every workout the query filter lets through. */
  function AllWorkouts(t: Tables, userId: Option<string>): (m: map<int, WorkoutListing>)
    requires Consistent(t)
    ensures forall id :: id in m <==> WorkoutVisible(t, id)
    ensures forall id :: id in m ==> id in t.workouts && m[id] == Listing(t.workouts[id], t.exercises, userId)
  {
    map id | id in t.workouts && !t.workouts[id].deletion.isDeleted :: Listing(t.workouts[id], t.exercises, userId)
  }

  /** AllWorkoutsByNames: the id and name of every visible workout. */
  function AllWorkoutsByNames(t: Tables): (m: map<int, string>)
    ensures forall id :: id in m <==> WorkoutVisible(t, id)
    ensures forall id :: id in m ==> id in t.workouts && m[id] == t.workouts[id].name
  {
    map id | id in t.workouts && !t.workouts[id].deletion.isDeleted :: t.workouts[id].name
  }

  /** Details: the workout with this id, if the query filter lets it through; it has the listing's shape. */
  function Details(t: Tables, id: int, userId: Option<string>): (d: Option<WorkoutListing>)
    requires Consistent(t)
    ensures d.Some? <==> WorkoutVisible(t, id)
    ensures d.Some? ==> d.value == Listing(t.workouts[id], t.exercises, userId)
  {
    if WorkoutVisible(t, id) then Some(Listing(t.workouts[id], t.exercises, userId)) else None
  }

  /** The row Create inserts: the request's columns, burned calories and lines, owned by the user, stamped as created. */
  function NewWorkout(id: int, model: WorkoutRequest, userId: string, now: DateTime, userName: Option<string>): (w: Workout)
    ensures w.id == id && w.userId == userId && w.workoutsExercises == model.exercises
    ensures w.caloriesBurned == model.caloriesBurned
    ensures !w.deletion.isDeleted && w.audit == CreatedAudit(now, userName)
  {
    Workout(id, model.name, model.timeToFinish, model.difficulty, model.photo, model.description,
            model.exercises, model.caloriesBurned, userId, CreatedAudit(now, userName), BaseEntities.NotDeleted)
  }

  /** Whether the update assigns a column a different value, so that the workout is saved as Modified. */
  predicate ColumnsChange(w: Workout, model: WorkoutRequest, userId: string) {
    w.name != model.name || w.description != model.description || w.timeToFinish != model.timeToFinish
    || w.difficulty != model.difficulty || w.photo != model.photo || w.userId != userId
  }

  /** The workout after Update: the request's columns except the burned calories, the editor as owner, the merged lines. */
  function UpdatedWorkout(w: Workout, model: WorkoutRequest, userId: string, now: DateTime, userName: Option<string>): (u: Workout)
    ensures u.id == w.id && u.deletion == w.deletion && u.userId == userId
    ensures u.caloriesBurned == w.caloriesBurned
    ensures u.name == model.name && u.description == model.description && u.timeToFinish == model.timeToFinish
    ensures u.difficulty == model.difficulty && u.photo == model.photo
    ensures u.workoutsExercises == Merged(w.workoutsExercises, model.exercises)
    ensures u.audit == if ColumnsChange(w, model, userId) then ModifiedAudit(w.audit, now, userName) else w.audit
  {
    w.(name := model.name, description := model.description, timeToFinish := model.timeToFinish,
       difficulty := model.difficulty, photo := model.photo, userId := userId,
       workoutsExercises := Merged(w.workoutsExercises, model.exercises),
       audit := if ColumnsChange(w, model, userId) then ModifiedAudit(w.audit, now, userName) else w.audit)
  }

  /** The workout after Delete: flagged deleted by the user, then saved as an update. */
  function SoftDeletedWorkout(w: Workout, userId: string, now: DateTime, userName: Option<string>): (d: Workout)
    ensures d == w.(deletion := BaseEntities.Deletion(true, Some(now), Some(userId)),
                    audit := ModifiedAudit(w.audit, now, userName))
  {
    w.(deletion := BaseEntities.Deletion(true, Some(now), Some(userId)), audit := ModifiedAudit(w.audit, now, userName))
  }

  /** Create: inserts the workout with its lines under the id the database assigns and returns that id. */
  method Create(db: FitnessAppDbContext, model: WorkoutRequest, userId: string, newId: int,
                now: DateTime, userName: Option<string>) returns (id: int)
    requires db.Valid()
    requires newId !in db.workouts
    requires UniqueIds(model.exercises) && ExerciseLinesIn(model.exercises, db.exercises)
    modifies db`workouts
    ensures id == newId
    ensures db.Snapshot() == old(db.Snapshot()).(workouts := old(db.workouts)[newId := NewWorkout(newId, model, userId, now, userName)])
    ensures db.Valid()
  {
    db.workouts := db.workouts[newId := NewWorkout(newId, model, userId, now, userName)];
    id := newId;
  }

  /**
   * AddWorkoutToUser: logs a visible workout for an existing user at `now`.
   * A missing workout is reported with the message "Recipe Not Found.".
   */
  method AddWorkoutToUser(db: FitnessAppDbContext, id: int, userId: string, now: DateTime, userName: Option<string>)
    returns (r: Result)
    requires db.Valid()
    requires WorkoutVisible(db.Snapshot(), id) && userId in db.users ==> KeyAbsent(db.usersWorkouts, userId, id, now)
    modifies db`usersWorkouts
    ensures !WorkoutVisible(old(db.Snapshot()), id) ==>
              r == Failure("Recipe Not Found.") && db.Snapshot() == old(db.Snapshot())
    ensures WorkoutVisible(old(db.Snapshot()), id) && userId !in db.users ==>
              r == Failure("User Not Found.") && db.Snapshot() == old(db.Snapshot())
    ensures WorkoutVisible(old(db.Snapshot()), id) && userId in db.users ==>
              r == Success && db.usersWorkouts == old(db.usersWorkouts) + [NewLog(userId, id, now, userName)]
    ensures db.Valid()
  {
    if !WorkoutVisible(db.Snapshot(), id) {
      return Failure("Recipe Not Found.");
    }
    if userId !in db.users {
      return Failure("User Not Found.");
    }
    AddKeepsKeysUnique(db.usersWorkouts, userId, id, now, userName);
    db.usersWorkouts := db.usersWorkouts + [NewLog(userId, id, now, userName)];
    r := Success;
  }

  /** Delete: soft-deletes a visible workout on behalf of the user. */
  method Delete(db: FitnessAppDbContext, id: int, userId: string, now: DateTime, userName: Option<string>)
    returns (r: Result)
    requires db.Valid()
    modifies db`workouts
    ensures !WorkoutVisible(old(db.Snapshot()), id) ==>
              r == Failure("Workout Not Found.") && db.Snapshot() == old(db.Snapshot())
    ensures WorkoutVisible(old(db.Snapshot()), id) ==>
              r == Success && db.workouts == old(db.workouts)[id := SoftDeletedWorkout(old(db.workouts)[id], userId, now, userName)]
    ensures db.Valid()
  {
    if !WorkoutVisible(db.Snapshot(), id) {
      return Failure("Workout Not Found.");
    }
    db.workouts := db.workouts[id := SoftDeletedWorkout(db.workouts[id], userId, now, userName)];
    r := Success;
  }

  /** DeleteLoggedWorkout: soft-deletes the user's visible log of the workout at `dateLogged`. */
  method DeleteLoggedWorkout(db: FitnessAppDbContext, id: int, dateLogged: DateTime, userId: string,
                             now: DateTime, userName: Option<string>) returns (r: Result)
    requires db.Valid()
    modifies db`usersWorkouts
    ensures var i := FindVisibleLog(old(db.usersWorkouts), userId, id, dateLogged);
            && (i == -1 ==> r == Failure("Workout log Not Found.") && db.Snapshot() == old(db.Snapshot()))
            && (i >= 0 ==>
                  && r == Success
                  && db.usersWorkouts == old(db.usersWorkouts)[i := SoftDeletedLog(old(db.usersWorkouts)[i], userId, now, userName)])
    ensures db.Valid()
  {
    var i := FindVisibleLog(db.usersWorkouts, userId, id, dateLogged);
    if i == -1 {
      return Failure("Workout log Not Found.");
    }
    SoftDeleteKeepsKeysUnique(db.usersWorkouts, i, userId, now, userName);
    db.usersWorkouts := db.usersWorkouts[i := SoftDeletedLog(db.usersWorkouts[i], userId, now, userName)];
    r := Success;
  }

  /** Update: replaces the columns of a visible workout, except its burned calories, and synchronises its lines. */
  method Update(db: FitnessAppDbContext, id: int, userId: string, model: WorkoutRequest,
                now: DateTime, userName: Option<string>) returns (r: Result)
    requires db.Valid()
    requires WorkoutVisible(db.Snapshot(), id) ==> ExerciseLinesIn(model.exercises, db.exercises)
    modifies db`workouts
    ensures !WorkoutVisible(old(db.Snapshot()), id) ==>
              r == Failure("Workout Not Found.") && db.Snapshot() == old(db.Snapshot())
    ensures WorkoutVisible(old(db.Snapshot()), id) ==>
              r == Success && db.workouts == old(db.workouts)[id := UpdatedWorkout(old(db.workouts)[id], model, userId, now, userName)]
    ensures db.Valid()
  {
    if !WorkoutVisible(db.Snapshot(), id) {
      return Failure("Workout Not Found.");
    }
    var workout := db.workouts[id];
    var lines := MergeLines(workout.workoutsExercises, model.exercises);
    MergedUnique(workout.workoutsExercises, model.exercises);
    forall k | 0 <= k < |lines| ensures lines[k].id in db.exercises {
      MergedIds(workout.workoutsExercises, model.exercises, lines[k].id);
    }
    var audit := if ColumnsChange(workout, model, userId) then ModifiedAudit(workout.audit, now, userName) else workout.audit;
    db.workouts := db.workouts[id := workout.(name := model.name, description := model.description,
                                             timeToFinish := model.timeToFinish, difficulty := model.difficulty,
                                             photo := model.photo, userId := userId,
                                             workoutsExercises := lines, audit := audit)];
    r := Success;
  }

  /** A created workout is listed as the creator's, with one exercise line per requested line, in request order. */
  lemma CreatedWorkoutDetails(t: Tables, model: WorkoutRequest, userId: string, newId: int, now: DateTime,
                              userName: Option<string>)
    requires Consistent(t) && newId !in t.workouts
    requires UniqueIds(model.exercises) && ExerciseLinesIn(model.exercises, t.exercises)
    ensures var after := t.(workouts := t.workouts[newId := NewWorkout(newId, model, userId, now, userName)]);
            && Consistent(after)
            && WorkoutVisible(after, newId)
            && var d := Details(after, newId, Some(userId));
               && d.Some? && d.value.isMine && d.value.caloriesBurned == model.caloriesBurned
               && |d.value.exercises| == |model.exercises|
               && forall k :: 0 <= k < |model.exercises| ==>
                    d.value.exercises[k].id == model.exercises[k].id
                    && d.value.exercises[k].sets == model.exercises[k].value.sets
                    && d.value.exercises[k].repetitions == model.exercises[k].value.repetitions
  {
  }

  /** A deleted workout leaves every listing and its details; the others stay. */
  lemma DeletedWorkoutDisappears(t: Tables, id: int, userId: string, now: DateTime, userName: Option<string>,
                                 viewer: Option<string>)
    requires Consistent(t) && WorkoutVisible(t, id)
    ensures var after := t.(workouts := t.workouts[id := SoftDeletedWorkout(t.workouts[id], userId, now, userName)]);
            && Consistent(after)
            && AllWorkouts(after, viewer).Keys == AllWorkouts(t, viewer).Keys - {id}
            && AllWorkoutsByNames(after).Keys == AllWorkoutsByNames(t).Keys - {id}
            && Details(after, id, viewer) == None
  {
  }

  /** After an update the workout names exactly the requested exercises, each once, with the last requested sets and repetitions. */
  lemma UpdatedWorkoutLines(w: Workout, model: WorkoutRequest, userId: string, now: DateTime, userName: Option<string>,
                            exerciseId: int, k: int)
    requires UniqueIds(w.workoutsExercises)
    requires 0 <= k < |UpdatedWorkout(w, model, userId, now, userName).workoutsExercises|
    ensures var lines := UpdatedWorkout(w, model, userId, now, userName).workoutsExercises;
            && UniqueIds(lines)
            && (HasId(lines, exerciseId) <==> HasId(model.exercises, exerciseId))
            && HasId(model.exercises, lines[k].id)
            && lines[k].value == LastValue(model.exercises, lines[k].id)
  {
    MergedUnique(w.workoutsExercises, model.exercises);
    MergedIds(w.workoutsExercises, model.exercises, exerciseId);
    MergedValues(w.workoutsExercises, model.exercises, k);
  }
}

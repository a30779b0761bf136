/** The exercise service. Exercises are plain rows: a delete removes the row. */
module Exercises {
  import opened Wrappers
  import opened ListMerge
  import opened Models
  import opened DbContext

  /** The create and update request. */
  datatype ExerciseRequest = ExerciseRequest(name: string, description: string)

  /** AllExercises, keyed by id: every exercise row. */
  function AllExercises(exercises: map<int, Exercise>): (m: map<int, Exercise>)
    ensures m.Keys == exercises.Keys
    ensures forall id :: id in m ==> id in exercises && m[id] == Exercise(id, exercises[id].name, exercises[id].description)
  {
    map id | id in exercises :: Exercise(id, exercises[id].name, exercises[id].description)
  }

  /** AllExercisesByNames: the id and name of every exercise. */
  function AllExercisesByNames(exercises: map<int, Exercise>): (m: map<int, string>)
    ensures m.Keys == exercises.Keys
    ensures forall id :: id in m ==> id in exercises && m[id] == exercises[id].name
  {
    map id | id in exercises :: exercises[id].name
  }

  function Details(exercises: map<int, Exercise>, id: int): (d: Option<Exercise>)
    ensures d.Some? <==> id in exercises
    ensures d.Some? ==> d.value == Exercise(id, exercises[id].name, exercises[id].description)
  {
    if id in exercises then Some(Exercise(id, exercises[id].name, exercises[id].description)) else None
  }

  /** No workout line refers to the exercise. */
  predicate Unreferenced(t: Tables, id: int) {
    forall w :: w in t.workouts ==> !HasId(t.workouts[w].workoutsExercises, id)
  }

  /**
   * The workouts after the exercise row goes: WorkoutExercise.ExerciseId is a
   * required key with no delete behaviour configured, so the database
   * cascades the delete to that exercise's lines, in every workout, soft-deleted
   * or not. The workout rows themselves are not touched.
   */
  function CascadedWorkouts(workouts: map<int, Workout>, id: int): (m: map<int, Workout>)
    ensures m.Keys == workouts.Keys
    ensures forall w :: w in m ==> m[w].(workoutsExercises := workouts[w].workoutsExercises) == workouts[w]
    ensures forall w :: w in m ==> !HasId(m[w].workoutsExercises, id)
    ensures forall w, k :: w in m && 0 <= k < |m[w].workoutsExercises| ==>
              m[w].workoutsExercises[k] in workouts[w].workoutsExercises
    ensures forall w, k :: w in m && 0 <= k < |workouts[w].workoutsExercises| && workouts[w].workoutsExercises[k].id != id ==>
              workouts[w].workoutsExercises[k] in m[w].workoutsExercises
  {
    map w | w in workouts :: workouts[w].(workoutsExercises := WithoutId(workouts[w].workoutsExercises, id))
  }

  /** Removing an exercise together with its cascaded lines keeps the tables consistent. */
  lemma CascadeKeepsConsistent(t: Tables, id: int)
    requires Consistent(t) && id in t.exercises
    ensures var after := t.(exercises := t.exercises - {id}, workouts := CascadedWorkouts(t.workouts, id));
            && Consistent(after)
            && Unreferenced(after, id)
  {
    var ws := CascadedWorkouts(t.workouts, id);
    var es := t.exercises - {id};
    forall w | w in ws
      ensures ws[w].id == w && UniqueIds(ws[w].workoutsExercises) && ExerciseLinesIn(ws[w].workoutsExercises, es)
    {
      var lines := t.workouts[w].workoutsExercises;
      assert ws[w].workoutsExercises == WithoutId(lines, id);
      forall k | 0 <= k < |ws[w].workoutsExercises| ensures ws[w].workoutsExercises[k].id in es {
        var j :| 0 <= j < |lines| && lines[j] == ws[w].workoutsExercises[k];
      }
    }
  }

  method Create(db: FitnessAppDbContext, model: ExerciseRequest, newId: int) returns (id: int)
    requires db.Valid() && newId !in db.exercises
    modifies db`exercises
    ensures id == newId
    ensures db.Snapshot() == old(db.Snapshot()).(exercises := old(db.exercises)[newId := Exercise(newId, model.name, model.description)])
    ensures db.Valid()
  {
    db.exercises := db.exercises[newId := Exercise(newId, model.name, model.description)];
    id := newId;
  }

  /** Delete: removes the row; the hook leaves a plain entity's removal as it is, and the database cascades it to the workout lines. */
  method Delete(db: FitnessAppDbContext, id: int) returns (r: Result)
    requires db.Valid()
    modifies db`exercises, db`workouts
    ensures id !in old(db.exercises) ==> r == Failure("Exercise Not Found.") && db.Snapshot() == old(db.Snapshot())
    ensures id in old(db.exercises) ==>
              && r == Success
              && db.Snapshot() == old(db.Snapshot()).(exercises := old(db.exercises) - {id},
                                                      workouts := CascadedWorkouts(old(db.workouts), id))
    ensures db.Valid()
  {
    if id !in db.exercises {
      return Failure("Exercise Not Found.");
    }
    CascadeKeepsConsistent(db.Snapshot(), id);
    db.exercises := db.exercises - {id};
    db.workouts := CascadedWorkouts(db.workouts, id);
    r := Success;
  }

  method Update(db: FitnessAppDbContext, id: int, model: ExerciseRequest) returns (r: Result)
    requires db.Valid()
    modifies db`exercises
    ensures id !in old(db.exercises) ==> r == Failure("Exercise Not Found.") && db.Snapshot() == old(db.Snapshot())
    ensures id in old(db.exercises) ==>
              r == Success && db.exercises == old(db.exercises)[id := Exercise(id, model.name, model.description)]
    ensures db.Valid()
  {
    if id !in db.exercises {
      return Failure("Exercise Not Found.");
    }
    db.exercises := db.exercises[id := Exercise(id, model.name, model.description)];
    r := Success;
  }

  /** A deleted exercise is gone from every listing, and a second delete reports it missing. */
  lemma DeletedExerciseIsGone(exercises: map<int, Exercise>, id: int)
    requires id in exercises
    ensures AllExercises(exercises - {id}).Keys == AllExercises(exercises).Keys - {id}
    ensures Details(exercises - {id}, id) == None
  {
  }
}

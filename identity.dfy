/**
 * The identity service's account operations: registration, reading and
 * updating the personal information. The identity framework's UserManager
 * (validation, hashing, normalisation) is not part of this model: its
 * verdict on CreateAsync and UpdateAsync arrives as a parameter.
 */
module Identity {
  import opened Wrappers
  import opened Calendar
  import opened UserModel
  import opened ChangeTracking
  import opened DbContext
  import opened Schedule
  import opened MacroTargets
  import opened Dashboard

  datatype RegisterRequest = RegisterRequest(
    userName: string,
    email: string,
    height: real,
    weight: real,
    gender: Gender,
    trainingGoal: TrainingType,
    dailyCalorieGoal: int,
    workoutSchedule: seq<string>)

  datatype UpdatePersonalInfoRequest = UpdatePersonalInfoRequest(
    email: string,
    userName: string,
    height: real,
    weight: real,
    trainingGoal: TrainingType,
    dailyCalorieGoal: int,
    gender: Gender,
    workoutSchedule: seq<string>)

  datatype PersonalInfo = PersonalInfo(
    email: string,
    userName: string,
    gender: Gender,
    height: real,
    weight: real,
    trainingGoal: TrainingType,
    workoutSchedule: seq<string>,
    dailyCalorieGoal: int)

  /** IdentityResult, and the update's response without its token. */
  datatype Outcome = Outcome(isSuccess: bool, errors: seq<string>)

  /** A schedule as the forms send it: day pieces that are non-empty and hold no comma. */
  predicate WellFormedDays(days: seq<string>) {
    forall k :: 0 <= k < |days| ==> days[k] != "" && ',' !in days[k]
  }

  /** The user Register builds: the request's fields, the days joined with ',', the targets derived from the goal. */
  function RegisteredUser(id: string, model: RegisterRequest): (u: User)
    ensures u.id == id && u.userName == model.userName && u.email == model.email
    ensures u.height == model.height && u.weight == model.weight && u.gender == model.gender
    ensures u.trainingGoal == model.trainingGoal && u.dailyCalorieGoal == model.dailyCalorieGoal
    ensures u.workoutSchedule == Join(model.workoutSchedule, ',')
    ensures TargetsConsistent(u)
  {
    CalculateTargetMacros(NewUser(id).(
      email := model.email, userName := model.userName, dailyCalorieGoal := model.dailyCalorieGoal,
      workoutSchedule := Join(model.workoutSchedule, ','), gender := model.gender,
      height := model.height, weight := model.weight, trainingGoal := model.trainingGoal))
  }

  /**
   * Register. `newId` is the id the new identity user carries; `created`
   * and `errors` are CreateAsync's verdict. On success the row is saved, so
   * the context stamps its creation.
   */
  method Register(db: FitnessAppDbContext, model: RegisterRequest, newId: string, created: bool, errors: seq<string>,
                  now: DateTime, userName: Option<string>)
    returns (r: Outcome)
    requires db.Valid() && newId !in db.users
    modifies db`users
    ensures created ==>
              && r == Outcome(true, [])
              && db.users == old(db.users)[newId := RegisteredUser(newId, model).(audit := CreatedAudit(now, userName))]
    ensures !created ==> r == Outcome(false, errors) && db.users == old(db.users)
    ensures db.Valid()
  {
    if !created {
      return Outcome(false, errors);
    }
    db.users := db.users[newId := RegisteredUser(newId, model).(audit := CreatedAudit(now, userName))];
    r := Outcome(true, []);
  }

  /** GetUserPersonalInfo: the stored fields with the schedule split back into its pieces; None when no row has the id. */
  function GetUserPersonalInfo(t: Tables, userId: string): (info: Option<PersonalInfo>)
    ensures info.Some? <==> userId in t.users
    ensures info.Some? ==> info.value.workoutSchedule == SplitSchedule(t.users[userId].workoutSchedule)
    ensures info.Some? ==> info.value.dailyCalorieGoal == t.users[userId].dailyCalorieGoal
  {
    if userId !in t.users then None
    else
      var u := t.users[userId];
      Some(PersonalInfo(u.email, u.userName, u.gender, u.height, u.weight, u.trainingGoal,
                        SplitSchedule(u.workoutSchedule), u.dailyCalorieGoal))
  }

  /** The personal information a registration stores reads back as it was given. */
  lemma RegisteredInfoReadsBack(t: Tables, model: RegisterRequest, newId: string, now: DateTime, userName: Option<string>)
    requires WellFormedDays(model.workoutSchedule)
    ensures GetUserPersonalInfo(
              t.(users := t.users[newId := RegisteredUser(newId, model).(audit := CreatedAudit(now, userName))]), newId) ==
            Some(PersonalInfo(model.email, model.userName, model.gender, model.height, model.weight,
                              model.trainingGoal, model.workoutSchedule, model.dailyCalorieGoal))
  {
    ScheduleRoundTrip(model.workoutSchedule);
  }

  /** A new user has no logs, so the first dashboard shows nothing eaten or trained and the derived targets. */
  lemma NewUserStartsEmpty(t: Tables, model: RegisterRequest, newId: string, now: DateTime, at: DateTime,
                           userName: Option<string>)
    requires Consistent(t) && ValidDate(now) && newId !in t.users
    requires TrainingDays(Join(model.workoutSchedule, ',')).Some?
    ensures Consistent(t.(users := t.users[newId := RegisteredUser(newId, model).(audit := CreatedAudit(at, userName))]))
    ensures
      var d := GetUserDashboardInfo(
        t.(users := t.users[newId := RegisteredUser(newId, model).(audit := CreatedAudit(at, userName))]), newId, now);
      && d.Some? && d.value.isSuccess
      && d.value.loggedRecipes == [] && d.value.loggedWorkouts == []
      && d.value.currentCalories == 0 && d.value.burnedCalories == 0.0 && d.value.timeSpentTraining == 0
      && d.value.targetProteins == TargetProteins(model.dailyCalorieGoal) as real
      && d.value.targetFats == TargetFats(model.dailyCalorieGoal) as real
      && d.value.targetCarbs == TargetCarbs(model.dailyCalorieGoal) as real
  {
    var t2 := t.(users := t.users[newId := RegisteredUser(newId, model).(audit := CreatedAudit(at, userName))]);
    assert Consistent(t2);
    NoLogsOfUser(t2.usersRecipes, VisibleRecipeIds(t2), newId, now);
    NoLogsOfUser(t2.usersWorkouts, VisibleWorkoutIds(t2), newId, now);
    DashboardReads(t2, newId, now);
  }

  /**
   * The user after the update's assignments: the request's fields and joined
   * schedule; goal and targets are taken over and recalculated only when the
   * goal differs from the stored one.
   */
  function UpdatedUser(u: User, model: UpdatePersonalInfoRequest): (r: User)
    ensures r.id == u.id && r.audit == u.audit
    ensures r.userName == model.userName && r.email == model.email && r.gender == model.gender
    ensures r.height == model.height && r.weight == model.weight && r.trainingGoal == model.trainingGoal
    ensures r.workoutSchedule == Join(model.workoutSchedule, ',')
    ensures r.dailyCalorieGoal == model.dailyCalorieGoal
    ensures u.dailyCalorieGoal != model.dailyCalorieGoal ==> TargetsConsistent(r)
    ensures u.dailyCalorieGoal == model.dailyCalorieGoal ==>
              r.targetProteins == u.targetProteins && r.targetFats == u.targetFats && r.targetCarbs == u.targetCarbs
  {
    var v := u.(userName := model.userName, email := model.email, gender := model.gender, height := model.height,
                weight := model.weight, trainingGoal := model.trainingGoal,
                workoutSchedule := Join(model.workoutSchedule, ','));
    if u.dailyCalorieGoal != model.dailyCalorieGoal then
      CalculateTargetMacros(v.(dailyCalorieGoal := model.dailyCalorieGoal))
    else v
  }

  /** Targets that agree with the goal keep agreeing through any update. */
  lemma UpdateKeepsTargetsConsistent(u: User, model: UpdatePersonalInfoRequest)
    requires TargetsConsistent(u)
    ensures TargetsConsistent(UpdatedUser(u, model))
  {
  }

  /**
   * UpdateUserPersonalInfo. `updated` and `errors` are UpdateAsync's
   * verdict. None stands for the exception when no user has the id: the
   * lookup returns null and the first assignment dereferences it.
   */
  method UpdateUserPersonalInfo(db: FitnessAppDbContext, model: UpdatePersonalInfoRequest, userId: string,
                                updated: bool, errors: seq<string>, now: DateTime, userName: Option<string>)
    returns (r: Option<Outcome>)
    requires db.Valid()
    modifies db`users
    ensures userId !in old(db.users) ==> r == None && db.users == old(db.users)
    ensures userId in old(db.users) && !updated ==> r == Some(Outcome(false, errors)) && db.users == old(db.users)
    ensures userId in old(db.users) && updated ==>
              && r == Some(Outcome(true, []))
              && db.users == old(db.users)[userId := UpdatedUser(old(db.users)[userId], model).(
                            audit := ModifiedAudit(old(db.users)[userId].audit, now, userName))]
    ensures db.Valid()
  {
    if userId !in db.users {
      return None;
    }
    var u := UpdatedUser(db.users[userId], model);
    if !updated {
      return Some(Outcome(false, errors));
    }
    db.users := db.users[userId := u.(audit := ModifiedAudit(db.users[userId].audit, now, userName))];
    r := Some(Outcome(true, []));
  }

  /** After a successful update the personal information reads back as submitted. */
  lemma UpdatedInfoReadsBack(t: Tables, model: UpdatePersonalInfoRequest, userId: string, now: DateTime,
                             userName: Option<string>)
    requires userId in t.users && WellFormedDays(model.workoutSchedule)
    ensures GetUserPersonalInfo(
              t.(users := t.users[userId := UpdatedUser(t.users[userId], model).(
                                   audit := ModifiedAudit(t.users[userId].audit, now, userName))]), userId) ==
            Some(PersonalInfo(model.email, model.userName, model.gender, model.height, model.weight,
                              model.trainingGoal, model.workoutSchedule, model.dailyCalorieGoal))
  {
    ScheduleRoundTrip(model.workoutSchedule);
  }
}

/**
 * The macro targets derived from the daily calorie goal: 30% of it as
 * protein at 4 kcal/g, 20% as fat at 9 kcal/g, 50% as carbs at 4 kcal/g.
 * The product with the double factor is cast to long and then divided in
 * long arithmetic.
 */
module MacroTargets {
  import opened Numerics
  import opened UserModel

  function TargetProteins(goal: int): int {
    TruncDiv(Trunc(goal as real * 0.3), 4)
  }

  function TargetFats(goal: int): int {
    TruncDiv(Trunc(goal as real * 0.2), 9)
  }

  function TargetCarbs(goal: int): int {
    TruncDiv(Trunc(goal as real * 0.5), 4)
  }

  /** The user's targets are the ones its daily goal determines. */
  predicate TargetsConsistent(u: User) {
    && u.targetProteins == TargetProteins(u.dailyCalorieGoal)
    && u.targetFats == TargetFats(u.dailyCalorieGoal)
    && u.targetCarbs == TargetCarbs(u.dailyCalorieGoal)
  }

  /** CalculateTargetMacros: sets the three targets from the daily goal and nothing else. */
  function CalculateTargetMacros(u: User): (r: User)
    ensures TargetsConsistent(r)
    ensures r == u.(targetProteins := r.targetProteins, targetFats := r.targetFats, targetCarbs := r.targetCarbs)
  {
    u.(targetProteins := TargetProteins(u.dailyCalorieGoal),
       targetFats := TargetFats(u.dailyCalorieGoal),
       targetCarbs := TargetCarbs(u.dailyCalorieGoal))
  }

  /** For a non-negative integer n and a percentage p, the cast of n·p/100 is the integer quotient. */
  lemma TruncOfShare(n: int, p: int, factor: real)
    requires n >= 0 && 0 < p && factor == p as real / 100.0
    ensures Trunc(n as real * factor) == (p * n) / 100
  {
    var q := (p * n) / 100;
    var r := (p * n) % 100;
    assert p * n == 100 * q + r && 0 <= r < 100;
    assert n as real * factor == q as real + r as real / 100.0;
    FloorOfInt(q, n as real * factor);
  }

  /** For a non-negative goal the targets are plain integer arithmetic on the goal. */
  lemma TargetsOfNonNegativeGoal(goal: int)
    requires goal >= 0
    ensures TargetProteins(goal) == ((3 * goal) / 10) / 4
    ensures TargetFats(goal) == (goal / 5) / 9
    ensures TargetCarbs(goal) == (goal / 2) / 4
  {
    TruncOfShare(goal, 30, 0.3);
    TruncOfShare(goal, 20, 0.2);
    TruncOfShare(goal, 50, 0.5);
    assert (30 * goal) / 100 == (3 * goal) / 10;
    assert (20 * goal) / 100 == goal / 5;
    assert (50 * goal) / 100 == goal / 2;
  }

  /** A 2000 kcal goal gives 150 g protein, 44 g fat and 250 g carbs. */
  lemma TargetsFor2000()
    ensures TargetProteins(2000) == 150 && TargetFats(2000) == 44 && TargetCarbs(2000) == 250
  {
    TargetsOfNonNegativeGoal(2000);
  }

  /** The energy of the targets never exceeds the goal and falls short of it by at most 16 kcal. */
  lemma TargetEnergyWithinGoal(goal: int)
    requires goal >= 0
    ensures goal - 16 <= 4 * TargetProteins(goal) + 9 * TargetFats(goal) + 4 * TargetCarbs(goal) <= goal
  {
    TargetsOfNonNegativeGoal(goal);
    var a := (3 * goal) / 10;
    var b := goal / 5;
    var c := goal / 2;
    assert 10 * a <= 3 * goal < 10 * a + 10;
    assert 5 * b <= goal < 5 * b + 5;
    assert 2 * c <= goal < 2 * c + 2;
    assert a - 3 <= 4 * (a / 4) <= a;
    assert b - 8 <= 9 * (b / 9) <= b;
    assert c - 3 <= 4 * (c / 4) <= c;
  }

  /** Truncation toward zero makes the targets of a negative goal the negated targets of its absolute value. */
  lemma TargetsOfNegatedGoal(goal: int)
    ensures TargetProteins(-goal) == -TargetProteins(goal)
    ensures TargetFats(-goal) == -TargetFats(goal)
    ensures TargetCarbs(-goal) == -TargetCarbs(goal)
  {
    ProteinsOfNegatedGoal(goal);
    FatsOfNegatedGoal(goal);
    CarbsOfNegatedGoal(goal);
  }

  /** The per-macro halves of the symmetry: the share is negated before it is truncated and divided. */
  lemma ProteinsOfNegatedGoal(goal: int)
    ensures TargetProteins(-goal) == -TargetProteins(goal)
  {
    var x := goal as real * 0.3;
    assert (-goal) as real * 0.3 == -x;
    NegatedShare(x, 4);
  }

  lemma FatsOfNegatedGoal(goal: int)
    ensures TargetFats(-goal) == -TargetFats(goal)
  {
    var x := goal as real * 0.2;
    assert (-goal) as real * 0.2 == -x;
    NegatedShare(x, 9);
  }

  lemma CarbsOfNegatedGoal(goal: int)
    ensures TargetCarbs(-goal) == -TargetCarbs(goal)
  {
    var x := goal as real * 0.5;
    assert (-goal) as real * 0.5 == -x;
    NegatedShare(x, 4);
  }

  /** A share of a negated goal, truncated and divided, is the negated result for the goal. */
  lemma NegatedShare(x: real, kcalPerGram: int)
    requires kcalPerGram > 0
    ensures TruncDiv(Trunc(-x), kcalPerGram) == -TruncDiv(Trunc(x), kcalPerGram)
  {
    TruncNeg(x);
    TruncDivNeg(Trunc(x), kcalPerGram);
  }

  /** A non-negative goal never gives a negative target. */
  lemma TargetsNonNegative(goal: int)
    requires goal >= 0
    ensures 0 <= TargetProteins(goal) && 0 <= TargetFats(goal) && 0 <= TargetCarbs(goal)
  {
    TargetsOfNonNegativeGoal(goal);
  }
}

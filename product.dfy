/** A food product and its derived calorie count. */
module ProductModel {
  import opened Numerics
  import opened BaseEntities

  /** Nutrients per unit, in grams; the doubles are modelled as exact reals. */
  datatype Product = Product(
    id: int,
    name: string,
    carbs: real,
    sugar: real,
    fats: real,
    protein: real,
    sodium: real,
    audit: Audit,
    deletion: Deletion)

  /** The energy of the macros before the cast: 4 kcal per gram of carbs and protein, 9 per gram of fat. */
  function MacroEnergy(carbs: real, protein: real, fats: real): real {
    4.0 * carbs + 4.0 * protein + 9.0 * fats
  }

  /** The Calories property: the macro energy cast to long, which truncates toward zero. */
  function Calories(p: Product): (kcal: int)
    ensures MacroEnergy(p.carbs, p.protein, p.fats) >= 0.0 ==>
              kcal as real <= MacroEnergy(p.carbs, p.protein, p.fats) < kcal as real + 1.0
    ensures MacroEnergy(p.carbs, p.protein, p.fats) < 0.0 ==>
              kcal as real - 1.0 < MacroEnergy(p.carbs, p.protein, p.fats) <= kcal as real
  {
    Trunc(MacroEnergy(p.carbs, p.protein, p.fats))
  }

  predicate IsWhole(x: real) {
    x == x.Floor as real
  }

  /** With whole-gram macros no truncation happens: the count is the exact energy. */
  lemma CaloriesOfWholeGrams(p: Product)
    requires IsWhole(p.carbs) && IsWhole(p.protein) && IsWhole(p.fats)
    ensures Calories(p) as real == MacroEnergy(p.carbs, p.protein, p.fats)
    ensures Calories(p) == 4 * p.carbs.Floor + 4 * p.protein.Floor + 9 * p.fats.Floor
  {
    var n := 4 * p.carbs.Floor + 4 * p.protein.Floor + 9 * p.fats.Floor;
    assert MacroEnergy(p.carbs, p.protein, p.fats) == n as real;
    if n >= 0 {
      FloorOfInt(n, n as real);
    } else {
      FloorOfInt(-n, (-n) as real);
    }
  }

  /** Sugar and sodium do not enter the calorie count. */
  lemma CaloriesIgnoreSugarAndSodium(p: Product, sugar: real, sodium: real)
    ensures Calories(p.(sugar := sugar, sodium := sodium)) == Calories(p)
  {
  }

  /** A product without carbs, protein and fat has no calories, whatever its sugar and sodium. */
  lemma NoMacrosNoCalories(p: Product)
    requires p.carbs == 0.0 && p.protein == 0.0 && p.fats == 0.0
    ensures Calories(p) == 0
  {
    FloorOfInt(0, 0.0);
  }

  /** For non-negative macros, more of any macro never lowers the count. */
  lemma CaloriesMonotone(p: Product, q: Product)
    requires 0.0 <= p.carbs <= q.carbs && 0.0 <= p.protein <= q.protein && 0.0 <= p.fats <= q.fats
    ensures 0 <= Calories(p) <= Calories(q)
  {
    var x := MacroEnergy(p.carbs, p.protein, p.fats);
    var y := MacroEnergy(q.carbs, q.protein, q.fats);
    assert 0.0 <= x <= y;
    assert Calories(p) as real <= x <= y < Calories(q) as real + 1.0;
  }
}

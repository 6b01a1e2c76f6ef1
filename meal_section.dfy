/**
 * The per-section macro totals that the meal section component folds over
 * its meals (the same `meals.reduce` appears in the native and the web
 * component).
 */
module MealSection {
  import opened Base
  import opened Nutrition
  import opened MealStore

  datatype SectionTotals = SectionTotals(calories: real, protein: real, carbs: real, fats: real)

  /** The reducer's initial accumulator. */
  const Zero := SectionTotals(0.0, 0.0, 0.0, 0.0)

  /** The four summed fields, to state properties once for all of them. */
  datatype Macro = Calories | Protein | Carbs | Fats

  function Get(t: SectionTotals, k: Macro): real {
    match k
    case Calories => t.calories
    case Protein => t.protein
    case Carbs => t.carbs
    case Fats => t.fats
  }

  function FieldOf(t: Totals, k: Macro): Option<real> {
    match k
    case Calories => t.calories
    case Protein => t.protein
    case Carbs => t.carbs
    case Fats => t.fats
  }

  /** A meal with a total: its four fields, a missing one read as 0 (`x || 0`). */
  predicate HasTotal(m: Meal) {
    m.analysis.Some? && m.analysis.value.total.Some?
  }

  /** One step of the reducer. */
  function Step(acc: SectionTotals, m: Meal): SectionTotals {
    if HasTotal(m) then
      var t := m.analysis.value.total.value;
      SectionTotals(acc.calories + OrZero(t.calories), acc.protein + OrZero(t.protein),
                    acc.carbs + OrZero(t.carbs), acc.fats + OrZero(t.fats))
    else
      acc
  }

  /** `meals.reduce(step, acc)`, left to right. */
  function Reduce(meals: seq<Meal>, acc: SectionTotals): SectionTotals
    decreases |meals|
  {
    if meals == [] then acc else Reduce(meals[1..], Step(acc, meals[0]))
  }

  function SectionTotalsOf(meals: seq<Meal>): SectionTotals {
    Reduce(meals, Zero)
  }

  /** What one meal adds to field `k`: nothing without a total, 0 for a missing field. */
  function Contribution(m: Meal, k: Macro): real {
    if HasTotal(m) then OrZero(FieldOf(m.analysis.value.total.value, k)) else 0.0
  }

  /** Reference definition: the sum of one field over all meals. */
  function FieldSum(meals: seq<Meal>, k: Macro): real
    decreases |meals|
  {
    if meals == [] then 0.0 else Contribution(meals[0], k) + FieldSum(meals[1..], k)
  }

  // ----- Properties ----------------------------------------------------------------

  /** An empty section totals zero in every field. */
  lemma EmptySectionIsZero(k: Macro)
    ensures Get(SectionTotalsOf([]), k) == 0.0
  {
  }

  lemma StepAddsContribution(acc: SectionTotals, m: Meal, k: Macro)
    ensures Get(Step(acc, m), k) == Get(acc, k) + Contribution(m, k)
  {
  }

  lemma {:induction false} ReduceIsFieldSum(meals: seq<Meal>, acc: SectionTotals, k: Macro)
    ensures Get(Reduce(meals, acc), k) == Get(acc, k) + FieldSum(meals, k)
    decreases |meals|
  {
    if meals != [] {
      StepAddsContribution(acc, meals[0], k);
      ReduceIsFieldSum(meals[1..], Step(acc, meals[0]), k);
    }
  }

  /** Each section total is the sum of that field over the section's meals. */
  lemma TotalsAreFieldSums(meals: seq<Meal>, k: Macro)
    ensures Get(SectionTotalsOf(meals), k) == FieldSum(meals, k)
  {
    ReduceIsFieldSum(meals, Zero, k);
  }

  lemma {:induction false} ReduceAppend(meals: seq<Meal>, acc: SectionTotals, m: Meal)
    ensures Reduce(meals + [m], acc) == Step(Reduce(meals, acc), m)
    decreases |meals|
  {
    if meals == [] {
      assert meals + [m] == [m];
    } else {
      assert (meals + [m])[1..] == meals[1..] + [m];
      ReduceAppend(meals[1..], Step(acc, meals[0]), m);
    }
  }

  /** Appending a meal raises each total by exactly that meal's field. */
  lemma AppendAddsContribution(meals: seq<Meal>, m: Meal, k: Macro)
    ensures Get(SectionTotalsOf(meals + [m]), k) == Get(SectionTotalsOf(meals), k) + Contribution(m, k)
  {
    ReduceAppend(meals, Zero, m);
    StepAddsContribution(SectionTotalsOf(meals), m, k);
  }

  /** A meal without an analysis, or whose analysis has no total, changes no total. */
  lemma NoTotalContributesNothing(meals: seq<Meal>, m: Meal)
    requires !HasTotal(m)
    ensures SectionTotalsOf(meals + [m]) == SectionTotalsOf(meals)
  {
    ReduceAppend(meals, Zero, m);
  }

  /** A field missing from a meal's total adds 0 to that sum. */
  lemma MissingFieldAddsZero(meals: seq<Meal>, m: Meal, k: Macro)
    requires HasTotal(m) && FieldOf(m.analysis.value.total.value, k).None?
    ensures Get(SectionTotalsOf(meals + [m]), k) == Get(SectionTotalsOf(meals), k)
  {
    AppendAddsContribution(meals, m, k);
  }

  lemma {:induction false} FieldSumDependsOnFieldOnly(a: seq<Meal>, b: seq<Meal>, k: Macro)
    requires |a| == |b|
    requires forall i | 0 <= i < |a| :: Contribution(a[i], k) == Contribution(b[i], k)
    ensures FieldSum(a, k) == FieldSum(b, k)
    decreases |a|
  {
    if a != [] {
      FieldSumDependsOnFieldOnly(a[1..], b[1..], k);
    }
  }

  /**
   * The four sums are independent: two sections whose meals agree on field
   * `k` have the same total for `k`, whatever their other fields hold.
   */
  lemma TotalsIndependent(a: seq<Meal>, b: seq<Meal>, k: Macro)
    requires |a| == |b|
    requires forall i | 0 <= i < |a| :: Contribution(a[i], k) == Contribution(b[i], k)
    ensures Get(SectionTotalsOf(a), k) == Get(SectionTotalsOf(b), k)
  {
    FieldSumDependsOnFieldOnly(a, b, k);
    TotalsAreFieldSums(a, k);
    TotalsAreFieldSums(b, k);
  }

  /**
   * Replacing one meal by another that differs only in field `k` leaves the
   * other three totals unchanged.
   */
  lemma ChangingOneFieldChangesOnlyItsTotal(meals: seq<Meal>, i: nat, m: Meal, k: Macro)
    requires i < |meals|
    requires forall other: Macro | other != k :: Contribution(m, other) == Contribution(meals[i], other)
    ensures forall other: Macro | other != k ::
      Get(SectionTotalsOf(meals[i := m]), other) == Get(SectionTotalsOf(meals), other)
  {
    forall other: Macro | other != k
      ensures Get(SectionTotalsOf(meals[i := m]), other) == Get(SectionTotalsOf(meals), other)
    {
      TotalsIndependent(meals[i := m], meals, other);
    }
  }
}

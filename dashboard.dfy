/**
 * The two values components/Dashboard.tsx derives from today's log: the
 * field-wise totals (a `reduce` over the meals, left to right from all zeros) and
 * the calories still available, clamped at zero.
 */
module Dashboard {
  import opened Types
  import App

  datatype Totals = Totals(calories: real, protein: real, carbs: real, fat: real)

  const Zero: Totals := Totals(0.0, 0.0, 0.0, 0.0)

  /** The reducer's step: the accumulator plus one meal's four numbers. */
  function Accumulate(acc: Totals, m: Meal): Totals {
    Totals(acc.calories + m.calories, acc.protein + m.protein, acc.carbs + m.carbs, acc.fat + m.fat)
  }

  function Plus(a: Totals, b: Totals): Totals {
    Totals(a.calories + b.calories, a.protein + b.protein, a.carbs + b.carbs, a.fat + b.fat)
  }

  /**
   * The day's totals, folding the meals in from the left starting at all zeros:
   * no meals give zeros, and meals without negative numbers give no negative total.
   */
  function SumTotals(meals: seq<Meal>): (r: Totals)
    ensures meals == [] ==> r == Zero
    ensures (forall i :: 0 <= i < |meals| ==>
               meals[i].calories >= 0.0 && meals[i].protein >= 0.0 && meals[i].carbs >= 0.0 && meals[i].fat >= 0.0)
            ==> r.calories >= 0.0 && r.protein >= 0.0 && r.carbs >= 0.0 && r.fat >= 0.0
    decreases |meals|
  {
    if meals == [] then Zero
    else Accumulate(SumTotals(meals[..|meals| - 1]), meals[|meals| - 1])
  }

  function Amount(m: Meal, n: Nutrient): real {
    match n
    case Calories => m.calories
    case Protein => m.protein
    case Carbs => m.carbs
    case Fat => m.fat
  }

  /** Independent reference: the sum of one nutrient over the meals, taken from the front. */
  function FieldSum(meals: seq<Meal>, n: Nutrient): real {
    if meals == [] then 0.0 else Amount(meals[0], n) + FieldSum(meals[1..], n)
  }

  /** Totals of `meals + [m]` are the totals of `meals` plus m's own numbers. */
  lemma TotalsOfAppend(meals: seq<Meal>, m: Meal)
    ensures SumTotals(meals + [m]) == Plus(SumTotals(meals), Totals(m.calories, m.protein, m.carbs, m.fat))
  {
    assert (meals + [m])[..|meals|] == meals;
  }

  /** The totals of two lists of meals joined are the sum of their totals. */
  lemma {:induction false} TotalsOfConcat(a: seq<Meal>, b: seq<Meal>)
    ensures SumTotals(a + b) == Plus(SumTotals(a), SumTotals(b))
  {
    if b == [] {
      assert a + b == a;
    } else {
      var init, last := b[..|b| - 1], b[|b| - 1];
      assert a + b == (a + init) + [last];
      assert b == init + [last];
      TotalsOfAppend(a + init, last);
      TotalsOfAppend(init, last);
      TotalsOfConcat(a, init);
    }
  }

  /** Each total is the plain sum of that field over the day's meals; no meals give all zeros. */
  lemma {:induction false} TotalsAreFieldSums(meals: seq<Meal>)
    ensures SumTotals(meals) == Totals(FieldSum(meals, Calories), FieldSum(meals, Protein),
                                       FieldSum(meals, Carbs), FieldSum(meals, Fat))
    ensures meals == [] ==> SumTotals(meals) == Zero
  {
    if meals != [] {
      assert meals == [meals[0]] + meals[1..];
      TotalsOfConcat([meals[0]], meals[1..]);
      assert [meals[0]][..0] == [];
      TotalsAreFieldSums(meals[1..]);
    }
  }

  /** The calories still available today: the target minus what was eaten, never below zero. */
  function RemainingCalories(targetCalories: int, consumed: real): (r: real)
    ensures r >= 0.0
    ensures r == 0.0 <==> consumed >= targetCalories as real
    ensures consumed < targetCalories as real ==> r + consumed == targetCalories as real
  {
    if targetCalories as real - consumed > 0.0 then targetCalories as real - consumed else 0.0
  }

  /** Logging a meal today raises today's totals by exactly that meal's numbers. */
  lemma AddingMealRaisesTotals(s: AppState, todayKey: string, data: MealData, id: string, timestamp: int)
    ensures SumTotals(App.TodayLog(App.AddMeal(s, todayKey, data, id, timestamp), todayKey).meals)
         == Plus(SumTotals(App.TodayLog(s, todayKey).meals),
                 Totals(data.calories, data.protein, data.carbs, data.fat))
  {
    TotalsOfAppend(App.TodayLog(s, todayKey).meals, NewMeal(data, id, timestamp));
  }
}

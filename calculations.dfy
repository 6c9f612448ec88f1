/**
 * The goal calculator of scr/utils/calculations.ts: Mifflin-St Jeor basal
 * metabolic rate, an activity multiplier, a goal adjustment, a 1200 kcal floor
 * and a protein/fat/carbohydrate split. Arithmetic is exact; `Math.round` rounds
 * half up, which is `Floor(x + 0.5)`.
 */
module Calculations {
  import opened Types

  /** `Math.round`: the nearest integer, halves rounded up. */
  function Round(x: real): (r: int)
    ensures r as real - 0.5 <= x < r as real + 0.5
  {
    (x + 0.5).Floor
  }

  function Max(a: int, b: int): (r: int)
    ensures r >= a && r >= b && (r == a || r == b)
  {
    if a >= b then a else b
  }

  /** Everything of a profile except dietType and healthConditions. */
  datatype Goals = Goals(
    gender: Gender,
    age: real,
    height: real,
    weight: real,
    activityLevel: ActivityLevel,
    goal: Goal,
    targetCalories: int,
    targetProtein: int,
    targetCarbs: int,
    targetFat: int)

  /** The guard: any of age, height, weight not positive means incomplete data. */
  predicate BodyDataValid(age: real, height: real, weight: real) {
    age > 0.0 && height > 0.0 && weight > 0.0
  }

  /**
   * Mifflin-St Jeor: 10 w + 6.25 h - 5 a, then +5 for men and -161 for women;
   * the sex term keeps the result within [-161, +5] of the body-data part.
   */
  function Bmr(gender: Gender, age: real, height: real, weight: real): (r: real)
    ensures 10.0 * weight + 6.25 * height - 5.0 * age - 161.0 <= r <= 10.0 * weight + 6.25 * height - 5.0 * age + 5.0
  {
    var base := 10.0 * weight + 6.25 * height - 5.0 * age;
    if gender == Male then base + 5.0 else base - 161.0
  }

  /**
   * How the basal rate responds to each input: every kilogram adds 10 kcal,
   * every centimetre 6.25 kcal, every year takes 5 kcal away, and a man's rate is
   * 166 kcal above a woman's with the same body data.
   */
  lemma BmrResponds(gender: Gender, age: real, height: real, weight: real)
    ensures Bmr(gender, age, height, weight + 1.0) == Bmr(gender, age, height, weight) + 10.0
    ensures Bmr(gender, age, height + 1.0, weight) == Bmr(gender, age, height, weight) + 6.25
    ensures Bmr(gender, age + 1.0, height, weight) == Bmr(gender, age, height, weight) - 5.0
    ensures Bmr(Male, age, height, weight) == Bmr(Female, age, height, weight) + 166.0
  {
  }

  function GoalAdjustment(goal: Goal): real {
    match goal
    case Lose => -500.0
    case Gain => 300.0
    case Maintain => 0.0
  }

  /**
   * Energy expenditure (the basal rate times the activity multiplier) after the
   * goal adjustment, before rounding and the floor: 500 kcal less to lose weight,
   * 300 kcal more to gain it, unchanged to maintain it.
   */
  function AdjustedTdee(gender: Gender, age: real, height: real, weight: real,
                        activityLevel: ActivityLevel, goal: Goal): (r: real)
    ensures goal == Lose ==> r == Bmr(gender, age, height, weight) * Multiplier(activityLevel) - 500.0
    ensures goal == Maintain ==> r == Bmr(gender, age, height, weight) * Multiplier(activityLevel)
    ensures goal == Gain ==> r == Bmr(gender, age, height, weight) * Multiplier(activityLevel) + 300.0
  {
    Bmr(gender, age, height, weight) * Multiplier(activityLevel) + GoalAdjustment(goal)
  }

  function ProteinRatio(goal: Goal): real {
    if goal == Maintain then 1.8 else 2.0
  }

  const MinCalories: int := 1200

  /**
   * The adjusted expenditure rounded to whole kcal, raised to the 1200 kcal
   * floor: never under the floor, and the rounded value itself whenever that
   * reaches the floor.
   */
  function CalorieTarget(gender: Gender, age: real, height: real, weight: real,
                         activityLevel: ActivityLevel, goal: Goal): (r: int)
    ensures var rounded := Round(AdjustedTdee(gender, age, height, weight, activityLevel, goal));
            r >= MinCalories && r >= rounded && (r == MinCalories || r == rounded)
  {
    Max(MinCalories, Round(AdjustedTdee(gender, age, height, weight, activityLevel, goal)))
  }

  function CalculateGoals(gender: Gender, age: real, height: real, weight: real,
                          activityLevel: ActivityLevel, goal: Goal): (r: Goals)
    ensures r.gender == gender && r.age == age && r.height == height && r.weight == weight
    ensures r.activityLevel == activityLevel && r.goal == goal
    ensures !BodyDataValid(age, height, weight) ==>
      r.targetCalories == 0 && r.targetProtein == 0 && r.targetCarbs == 0 && r.targetFat == 0
    ensures BodyDataValid(age, height, weight) ==>
      r.targetCalories >= MinCalories && r.targetProtein >= 0 && r.targetCarbs >= 0 && r.targetFat > 0
  {
    if !BodyDataValid(age, height, weight) then
      Goals(gender, age, height, weight, activityLevel, goal, 0, 0, 0, 0)
    else
      var calories := CalorieTarget(gender, age, height, weight, activityLevel, goal);
      var protein := Round(weight * ProteinRatio(goal));
      var fat := Round(calories as real * 0.25 / 9.0);
      var carbs := Max(0, Round((calories - protein * 4 - fat * 9) as real / 4.0));
      Goals(gender, age, height, weight, activityLevel, goal, calories, protein, carbs, fat)
  }

  lemma RoundMonotone(x: real, y: real)
    requires x <= y
    ensures Round(x) <= Round(y)
  {
    var a, b := Round(x), Round(y);
    assert a as real - 0.5 <= x <= y < b as real + 0.5;
  }

  /**
   * For complete body data the calorie target is the adjusted energy expenditure
   * rounded to the nearest whole kcal, unless that falls under the 1200 kcal floor.
   */
  lemma CaloriesFollowAdjustedTdee(gender: Gender, age: real, height: real, weight: real,
                                   activityLevel: ActivityLevel, goal: Goal)
    requires BodyDataValid(age, height, weight)
    ensures var t := AdjustedTdee(gender, age, height, weight, activityLevel, goal);
            var c := CalculateGoals(gender, age, height, weight, activityLevel, goal).targetCalories;
            (t >= 1199.5 ==> t - 0.5 < c as real <= t + 0.5) &&
            (t < 1199.5 ==> c == MinCalories)
  {
  }

  /** With the same body data, losing never asks for more than maintaining, nor maintaining more than gaining. */
  lemma CaloriesOrderedByGoal(gender: Gender, age: real, height: real, weight: real,
                              activityLevel: ActivityLevel)
    ensures CalculateGoals(gender, age, height, weight, activityLevel, Lose).targetCalories
         <= CalculateGoals(gender, age, height, weight, activityLevel, Maintain).targetCalories
         <= CalculateGoals(gender, age, height, weight, activityLevel, Gain).targetCalories
  {
    if BodyDataValid(age, height, weight) {
      var lose := AdjustedTdee(gender, age, height, weight, activityLevel, Lose);
      var keep := AdjustedTdee(gender, age, height, weight, activityLevel, Maintain);
      var gain := AdjustedTdee(gender, age, height, weight, activityLevel, Gain);
      assert lose <= keep <= gain;
      RoundMonotone(lose, keep);
      RoundMonotone(keep, gain);
    }
  }

  /** Protein is weight times 1.8 g/kg when maintaining and 2.0 g/kg otherwise, to the nearest gram. */
  lemma ProteinFollowsWeight(gender: Gender, age: real, height: real, weight: real,
                             activityLevel: ActivityLevel, goal: Goal)
    requires BodyDataValid(age, height, weight)
    ensures var p := CalculateGoals(gender, age, height, weight, activityLevel, goal).targetProtein;
            var ratio := if goal == Maintain then 1.8 else 2.0;
            weight * ratio - 0.5 < p as real <= weight * ratio + 0.5
  {
  }

  /** Fat supplies a quarter of the calorie target at 9 kcal/g, to the nearest gram. */
  lemma FatIsQuarterOfCalories(gender: Gender, age: real, height: real, weight: real,
                               activityLevel: ActivityLevel, goal: Goal)
    requires BodyDataValid(age, height, weight)
    ensures var g := CalculateGoals(gender, age, height, weight, activityLevel, goal);
            g.targetCalories as real / 4.0 - 4.5 < (9 * g.targetFat) as real <= g.targetCalories as real / 4.0 + 4.5
  {
  }

  /**
   * Carbohydrates take whatever energy protein (4 kcal/g) and fat (9 kcal/g) leave:
   * when carbs are positive the three macros add up to the calorie target within
   * 2 kcal; carbs are clamped to zero only when protein and fat (nearly) use up the target.
   */
  lemma CarbsFillTheRemainder(gender: Gender, age: real, height: real, weight: real,
                              activityLevel: ActivityLevel, goal: Goal)
    requires BodyDataValid(age, height, weight)
    ensures var g := CalculateGoals(gender, age, height, weight, activityLevel, goal);
            var energy := 4 * g.targetProtein + 9 * g.targetFat + 4 * g.targetCarbs;
            (g.targetCarbs > 0 ==> g.targetCalories - 2 < energy <= g.targetCalories + 2) &&
            (g.targetCarbs == 0 ==> 4 * g.targetProtein + 9 * g.targetFat > g.targetCalories - 2)
  {
    var g := CalculateGoals(gender, age, height, weight, activityLevel, goal);
    var rest := g.targetCalories - g.targetProtein * 4 - g.targetFat * 9;
    var c := Round(rest as real / 4.0);
    assert c as real - 0.5 <= rest as real / 4.0 < c as real + 0.5;
    assert (4 * c - 2) as real <= rest as real < (4 * c + 2) as real;
  }

  /**
   * Protein and fat calories are NOT bounded by the calorie target: a heavy,
   * short, old person who wants to lose weight gets 600 g of protein (2400 kcal)
   * against a 2314 kcal target, and carbohydrates are clamped to zero.
   */
  lemma ProteinCanExceedCalorieTarget()
    ensures var g := CalculateGoals(Female, 100.0, 1.0, 300.0, Sedentary, Lose);
            g.targetCalories == 2314 && g.targetProtein == 600 && g.targetFat == 64 && g.targetCarbs == 0 &&
            4 * g.targetProtein + 9 * g.targetFat > g.targetCalories
  {
    assert AdjustedTdee(Female, 100.0, 1.0, 300.0, Sedentary, Lose) == 2314.3;
    assert Round(2314.3) == 2314;
    assert Round(600.0) == 600;
    assert Round(2314.0 * 0.25 / 9.0) == 64;
    assert Round((2314 - 2400 - 576) as real / 4.0) == -165;
  }

  /** Man, 30 years, 175 cm, 70 kg, moderate activity, maintaining: 2556 kcal, 126 g protein, 71 g fat, 353 g carbs. */
  lemma WorkedExample()
    ensures CalculateGoals(Male, 30.0, 175.0, 70.0, Moderate, Maintain)
         == Goals(Male, 30.0, 175.0, 70.0, Moderate, Maintain, 2556, 126, 353, 71)
  {
    assert Bmr(Male, 30.0, 175.0, 70.0) == 1648.75;
    assert AdjustedTdee(Male, 30.0, 175.0, 70.0, Moderate, Maintain) == 2555.5625;
    assert Round(2555.5625) == 2556;
    assert Round(70.0 * 1.8) == 126;
    assert Round(2556.0 * 0.25 / 9.0) == 71;
    assert Round((2556 - 504 - 639) as real / 4.0) == 353;
  }
}

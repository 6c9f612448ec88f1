/**
 * The application's data model: the enumerations and records of scr/types.ts.
 * Numbers the user or the inference service supplies are exact `real`s; the four
 * daily targets are `int`s, because the goal calculator only ever produces whole
 * numbers (zero, or a rounded value).
 */
module Types {

  datatype Option<T> = None | Some(value: T) {
    function GetOr(default: T): T {
      match this
      case Some(v) => v
      case None => default
    }
  }

  datatype Gender = Male | Female

  /** The enum's string value, as it appears in a serialised profile. */
  function GenderName(g: Gender): string {
    match g
    case Male => "MALE"
    case Female => "FEMALE"
  }

  /** Activity levels are numeric enum members: each one IS its multiplier. */
  datatype ActivityLevel = Sedentary | Light | Moderate | Active | VeryActive

  function Multiplier(a: ActivityLevel): real {
    match a
    case Sedentary => 1.2
    case Light => 1.375
    case Moderate => 1.55
    case Active => 1.725
    case VeryActive => 1.9
  }

  /** Declaration order of the activity levels, from least to most active. */
  function Rank(a: ActivityLevel): nat {
    match a
    case Sedentary => 0
    case Light => 1
    case Moderate => 2
    case Active => 3
    case VeryActive => 4
  }

  datatype Goal = Lose | Maintain | Gain

  /** The enum's string value; it is what the recipe prompt embeds. */
  function GoalName(g: Goal): string {
    match g
    case Lose => "LOSE"
    case Maintain => "MAINTAIN"
    case Gain => "GAIN"
  }

  datatype UserProfile = UserProfile(
    gender: Gender,
    age: real,
    height: real,
    weight: real,
    activityLevel: ActivityLevel,
    goal: Goal,
    dietType: string,
    healthConditions: seq<string>,
    targetCalories: int,
    targetProtein: int,
    targetCarbs: int,
    targetFat: int)

  /** The five nutritional fields of a meal: `Omit<Meal, 'id' | 'timestamp'>`. */
  datatype MealData = MealData(name: string, calories: real, protein: real, carbs: real, fat: real)

  /** The four numeric fields a meal carries. */
  datatype Nutrient = Calories | Protein | Carbs | Fat

  datatype Meal = Meal(
    id: string,
    name: string,
    calories: real,
    protein: real,
    carbs: real,
    fat: real,
    timestamp: int)

  datatype Recipe = Recipe(
    id: string,
    title: string,
    description: string,
    ingredients: seq<string>,
    steps: seq<string>,
    calories: real,
    protein: real,
    carbs: real,
    fat: real,
    time: string)

  /** A day's log carries a copy of its own date key beside the meals in entry order. */
  datatype DailyLog = DailyLog(date: string, meals: seq<Meal>)

  /**
   * One property of the `logs` record. The record is kept as a list of entries in
   * property order, which for date keys is insertion order.
   */
  datatype LogEntry = LogEntry(key: string, log: DailyLog)

  datatype AppState = AppState(
    profile: Option<UserProfile>,
    logs: seq<LogEntry>,
    streak: int,
    recommendedRecipes: seq<Recipe>)

  /** The nutritional fields of a stored meal. */
  function DataOf(m: Meal): (d: MealData)
    ensures d.name == m.name && d.calories == m.calories && d.protein == m.protein
    ensures d.carbs == m.carbs && d.fat == m.fat
  {
    MealData(m.name, m.calories, m.protein, m.carbs, m.fat)
  }

  /** `{ ...mealData, id, timestamp }`: a new meal built from the five fields. */
  function NewMeal(data: MealData, id: string, timestamp: int): (m: Meal)
    ensures DataOf(m) == data && m.id == id && m.timestamp == timestamp
  {
    Meal(id, data.name, data.calories, data.protein, data.carbs, data.fat, timestamp)
  }

  /** `{ ...m, ...mealData }`: the five fields replaced, id and timestamp kept. */
  function WithData(m: Meal, data: MealData): (r: Meal)
    ensures DataOf(r) == data && r.id == m.id && r.timestamp == m.timestamp
  {
    m.(name := data.name, calories := data.calories, protein := data.protein,
       carbs := data.carbs, fat := data.fat)
  }

  lemma ActivityMultipliersIncrease(a: ActivityLevel, b: ActivityLevel)
    ensures Rank(a) < Rank(b) <==> Multiplier(a) < Multiplier(b)
    ensures Multiplier(a) == Multiplier(b) <==> a == b
  {
  }

  lemma EnumerationsAreClosed(g: Gender, o: Goal)
    ensures g == Male || g == Female
    ensures o == Lose || o == Maintain || o == Gain
    ensures GenderName(g) != GenderName(if g == Male then Female else Male)
  {
  }

  /** A meal is exactly its five nutritional fields plus its id and timestamp. */
  lemma MealIsDataPlusIdentity(m: Meal)
    ensures NewMeal(DataOf(m), m.id, m.timestamp) == m
  {
  }
}

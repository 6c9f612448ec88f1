/**
 * The onboarding form of components/Onboarding.tsx. The pure parts (defaults,
 * step-1 validity, the health-condition toggle, the profile that submit emits)
 * are functions; the `step` counter and `formData` that the handlers update are
 * the fields of `OnboardingForm`.
 */
module Onboarding {
  import opened Types
  import Calculations
  import Forms

  /** The health-condition label that excludes every other one. */
  const NoneOfTheAbove: string := "Ninguna de las anteriores"

  const DefaultDiet: string := "Ninguna"

  /** The activity levels the form offers; the most active level is not among them. */
  const ActivityOptions: seq<ActivityLevel> := [Sedentary, Light, Moderate, Active]

  datatype FormData = FormData(
    gender: Gender,
    age: real,
    height: real,
    weight: real,
    activityLevel: ActivityLevel,
    goal: Goal,
    dietType: string,
    healthConditions: seq<string>)

  /**
   * `initialProfile?.field || default` for every field. Of the profile's values
   * only an empty diet label is falsy, so it alone falls back; a zero age,
   * height or weight falls back to the default 0, which is the same value.
   */
  function InitialFormData(initial: Option<UserProfile>): (fd: FormData)
    ensures initial.None? ==> fd == FormData(Male, 0.0, 0.0, 0.0, Moderate, Maintain, DefaultDiet, [])
    ensures initial.Some? ==>
      var p := initial.value;
      fd.gender == p.gender && fd.age == p.age && fd.height == p.height && fd.weight == p.weight &&
      fd.activityLevel == p.activityLevel && fd.goal == p.goal && fd.healthConditions == p.healthConditions &&
      fd.dietType == (if p.dietType == "" then DefaultDiet else p.dietType)
  {
    match initial
    case None => FormData(Male, 0.0, 0.0, 0.0, Moderate, Maintain, DefaultDiet, [])
    case Some(p) =>
      FormData(p.gender, p.age, p.height, p.weight, p.activityLevel, p.goal,
               if p.dietType == "" then DefaultDiet else p.dietType, p.healthConditions)
  }

  /** Step 1 may be left only with positive age, height and weight: exactly the calculator's guard. */
  predicate IsStep1Valid(fd: FormData)
    ensures IsStep1Valid(fd) <==> Calculations.BodyDataValid(fd.age, fd.height, fd.weight)
  {
    fd.age > 0.0 && fd.height > 0.0 && fd.weight > 0.0
  }

  /** The labels without any copy of `x`, the rest in their order. */
  function Without(xs: seq<string>, x: string): (r: seq<string>)
    ensures |r| <= |xs|
  {
    if xs == [] then []
    else (if xs[0] == x then [] else [xs[0]]) + Without(xs[1..], x)
  }

  /** Filtering removes every copy of the label, keeps every other label, and changes nothing if the label is absent. */
  lemma {:induction false} WithoutMembers(xs: seq<string>, x: string)
    ensures x !in Without(xs, x)
    ensures forall y :: y != x ==> (y in Without(xs, x) <==> y in xs)
    ensures x !in xs ==> Without(xs, x) == xs
  {
    if xs != [] {
      assert xs == [xs[0]] + xs[1..];
      WithoutMembers(xs[1..], x);
    }
  }

  lemma {:induction false} WithoutConcat(a: seq<string>, b: seq<string>, x: string)
    ensures Without(a + b, x) == Without(a, x) + Without(b, x)
  {
    if a == [] {
      assert a + b == b;
    } else {
      assert (a + b)[0] == a[0] && (a + b)[1..] == a[1..] + b;
      WithoutConcat(a[1..], b, x);
    }
  }

  /** Filtering out two labels gives the same list in either order. */
  lemma {:induction false} WithoutCommutes(xs: seq<string>, x: string, y: string)
    ensures Without(Without(xs, x), y) == Without(Without(xs, y), x)
  {
    if xs != [] {
      WithoutConcat(if xs[0] == x then [] else [xs[0]], Without(xs[1..], x), y);
      WithoutConcat(if xs[0] == y then [] else [xs[0]], Without(xs[1..], y), x);
      WithoutCommutes(xs[1..], x, y);
    }
  }

  /** The `toggleCondition` updater on the list of health conditions. */
  function ToggleCondition(conditions: seq<string>, c: string): (r: seq<string>)
    ensures c == NoneOfTheAbove ==> r == [NoneOfTheAbove]
    ensures c != NoneOfTheAbove ==> NoneOfTheAbove !in r
    ensures c != NoneOfTheAbove ==> (c in r <==> c !in conditions)
    ensures r == [NoneOfTheAbove] || NoneOfTheAbove !in r
    ensures c != NoneOfTheAbove && c !in conditions ==>
      |r| > 0 && r[|r| - 1] == c && r[..|r| - 1] == Without(conditions, NoneOfTheAbove)
  {
    if c == NoneOfTheAbove then [NoneOfTheAbove]
    else
      var filtered := Without(conditions, NoneOfTheAbove);
      WithoutMembers(conditions, NoneOfTheAbove);
      WithoutMembers(filtered, c);
      if c in filtered then Without(filtered, c) else filtered + [c]
  }

  /**
   * Toggling an ordinary label changes nothing about the other ordinary labels:
   * with the toggled label and the sentinel taken out, before and after are the
   * same list in the same order.
   */
  lemma ToggleKeepsOthersInOrder(conditions: seq<string>, c: string)
    requires c != NoneOfTheAbove
    ensures Without(ToggleCondition(conditions, c), c) == Without(Without(conditions, NoneOfTheAbove), c)
  {
    var filtered := Without(conditions, NoneOfTheAbove);
    WithoutMembers(conditions, NoneOfTheAbove);
    if c !in filtered {
      WithoutConcat(filtered, [c], c);
      assert Without([c], c) == [];
    } else {
      WithoutMembers(filtered, c);
      WithoutMembers(Without(filtered, c), c);
    }
  }

  /** Toggling a label that is absent from a list without the sentinel, twice, gives the list back. */
  lemma ToggleTwiceRestores(conditions: seq<string>, c: string)
    requires c != NoneOfTheAbove && c !in conditions && NoneOfTheAbove !in conditions
    ensures ToggleCondition(ToggleCondition(conditions, c), c) == conditions
  {
    var once := conditions + [c];
    WithoutMembers(conditions, NoneOfTheAbove);
    assert ToggleCondition(conditions, c) == once;
    WithoutMembers(once, NoneOfTheAbove);
    WithoutMembers(conditions, c);
    assert Without(once, NoneOfTheAbove) == once;
    WithoutConcat(conditions, [c], c);
    assert Without([c], c) == [];
  }

  /**
   * The profile `handleSubmit` hands to `onComplete`: none when step 1 is
   * invalid; otherwise the calculator's output on the form's body data plus the
   * form's diet and conditions.
   */
  function SubmittedProfile(fd: FormData): (r: Option<UserProfile>)
    ensures r.Some? <==> IsStep1Valid(fd)
    ensures r.Some? ==>
      var p := r.value;
      var g := Calculations.CalculateGoals(fd.gender, fd.age, fd.height, fd.weight, fd.activityLevel, fd.goal);
      p.targetCalories == g.targetCalories && p.targetProtein == g.targetProtein &&
      p.targetCarbs == g.targetCarbs && p.targetFat == g.targetFat &&
      p.gender == fd.gender && p.age == fd.age && p.height == fd.height && p.weight == fd.weight &&
      p.activityLevel == fd.activityLevel && p.goal == fd.goal &&
      p.dietType == fd.dietType && p.healthConditions == fd.healthConditions
    ensures r.Some? ==> r.value.targetCalories >= Calculations.MinCalories && r.value.targetCarbs >= 0
  {
    if !IsStep1Valid(fd) then None
    else
      var g := Calculations.CalculateGoals(fd.gender, fd.age, fd.height, fd.weight, fd.activityLevel, fd.goal);
      Some(UserProfile(g.gender, g.age, g.height, g.weight, g.activityLevel, g.goal,
                       fd.dietType, fd.healthConditions,
                       g.targetCalories, g.targetProtein, g.targetCarbs, g.targetFat))
  }

  /** The diet buttons of step 2. */
  const Diets: seq<string> := ["Ninguna", "Vegana", "Vegetariana", "Keto", "Paleo", "Mediterránea", "Sin Gluten"]

  class OnboardingForm {
    var step: int
    var formData: FormData

    /** The form shows one of its three steps. */
    predicate Valid()
      reads this
    {
      1 <= step <= 3
    }

    constructor (initial: Option<UserProfile>)
      ensures Valid() && step == 1 && formData == InitialFormData(initial)
    {
      step := 1;
      formData := InitialFormData(initial);
    }

    /** "Siguiente" on step 1 (disabled while the body data is invalid) or on step 2. */
    method NextStep()
      requires Valid() && step < 3
      requires step == 1 ==> IsStep1Valid(formData)
      modifies this
      ensures Valid() && step == old(step) + 1 && formData == old(formData)
    {
      step := step + 1;
    }

    /** "Atrás" on step 2 or 3. */
    method PrevStep()
      requires Valid() && step > 1
      modifies this
      ensures Valid() && step == old(step) - 1 && formData == old(formData)
    {
      step := step - 1;
    }

    method SelectGender(g: Gender)
      modifies this
      ensures formData == old(formData).(gender := g) && step == old(step)
    {
      formData := formData.(gender := g);
    }

    method ChangeAge(text: string, parsed: real)
      modifies this
      ensures formData == old(formData).(age := Forms.NumericField(text, parsed)) && step == old(step)
    {
      formData := formData.(age := Forms.NumericField(text, parsed));
    }

    method ChangeHeight(text: string, parsed: real)
      modifies this
      ensures formData == old(formData).(height := Forms.NumericField(text, parsed)) && step == old(step)
    {
      formData := formData.(height := Forms.NumericField(text, parsed));
    }

    method ChangeWeight(text: string, parsed: real)
      modifies this
      ensures formData == old(formData).(weight := Forms.NumericField(text, parsed)) && step == old(step)
    {
      formData := formData.(weight := Forms.NumericField(text, parsed));
    }

    /** One of the activity buttons; each carries one of the offered levels. */
    method SelectActivityLevel(a: ActivityLevel)
      requires a in ActivityOptions
      modifies this
      ensures formData == old(formData).(activityLevel := a) && step == old(step)
    {
      formData := formData.(activityLevel := a);
    }

    method SelectDiet(d: string)
      requires d in Diets
      modifies this
      ensures formData == old(formData).(dietType := d) && step == old(step)
    {
      formData := formData.(dietType := d);
    }

    method ToggleHealthCondition(c: string)
      modifies this
      ensures formData == old(formData).(healthConditions := ToggleCondition(old(formData).healthConditions, c))
      ensures step == old(step)
    {
      formData := formData.(healthConditions := ToggleCondition(formData.healthConditions, c));
    }

    /** `handleSubmit`: invalid body data sends the user back to step 1 and emits nothing. */
    method Submit() returns (emitted: Option<UserProfile>)
      requires Valid() && step == 3
      modifies this
      ensures Valid() && emitted == SubmittedProfile(old(formData)) && formData == old(formData)
      ensures emitted.None? ==> step == 1
      ensures emitted.Some? ==> step == old(step)
    {
      if !IsStep1Valid(formData) {
        step := 1;
        return None;
      }
      emitted := SubmittedProfile(formData);
    }
  }
}

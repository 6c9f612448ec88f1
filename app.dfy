/**
 * The application-state transitions of scr/App.tsx: every `setState(prev => ...)`
 * updater as a pure function from the previous state to the next one. The random
 * meal id, `Date.now()` and today's date key are parameters.
 *
 * The `logs` record is a list of entries in property order. Writing a key with
 * object spread (`{ ...prev.logs, [todayKey]: x }`) keeps an existing key where it
 * is and appends a new key at the end.
 */
module App {
  import opened Types

  /** The record's keys, in property order. */
  function Keys(logs: seq<LogEntry>): (ks: seq<string>)
    ensures |ks| == |logs|
    ensures forall i :: 0 <= i < |logs| ==> ks[i] == logs[i].key
  {
    if logs == [] then [] else [logs[0].key] + Keys(logs[1..])
  }

  /** The value stored under a key, or nothing when the key is absent. */
  function Find(logs: seq<LogEntry>, key: string): (r: Option<DailyLog>)
    ensures r.Some? <==> key in Keys(logs)
    ensures r.Some? ==> LogEntry(key, r.value) in logs
  {
    if logs == [] then None
    else if logs[0].key == key then Some(logs[0].log)
    else Find(logs[1..], key)
  }

  /** Every entry under `key` gets the new value; keys and their order stay as they are. */
  function Replace(logs: seq<LogEntry>, key: string, log: DailyLog): (r: seq<LogEntry>)
    ensures Keys(r) == Keys(logs)
    ensures forall i :: 0 <= i < |logs| ==> r[i] == if logs[i].key == key then LogEntry(key, log) else logs[i]
    ensures key in Keys(logs) ==> Find(r, key) == Some(log)
    ensures forall k :: k != key ==> Find(r, k) == Find(logs, k)
  {
    if logs == [] then []
    else [if logs[0].key == key then LogEntry(key, log) else logs[0]] + Replace(logs[1..], key, log)
  }

  /** Looking a key up after appending an entry at the end. */
  lemma {:induction false} FindAppend(logs: seq<LogEntry>, e: LogEntry, k: string)
    ensures Find(logs + [e], k) == if k in Keys(logs) then Find(logs, k)
                                  else if e.key == k then Some(e.log) else None
  {
    if logs != [] {
      assert (logs + [e])[0] == logs[0];
      assert (logs + [e])[1..] == logs[1..] + [e];
      assert Keys(logs)[0] == logs[0].key;
      assert Keys(logs[1..]) == Keys(logs)[1..];
      assert k in Keys(logs) <==> logs[0].key == k || k in Keys(logs[1..]);
      FindAppend(logs[1..], e, k);
    }
  }

  /** Appending an entry under a new key: that key finds it, other keys find what they found before. */
  lemma AppendNewKey(logs: seq<LogEntry>, key: string, log: DailyLog)
    requires key !in Keys(logs)
    ensures Find(logs + [LogEntry(key, log)], key) == Some(log)
    ensures forall k :: k != key ==> Find(logs + [LogEntry(key, log)], k) == Find(logs, k)
    ensures Keys(logs + [LogEntry(key, log)]) == Keys(logs) + [key]
  {
    var e := LogEntry(key, log);
    FindAppend(logs, e, key);
    forall k | k != key ensures Find(logs + [e], k) == Find(logs, k) {
      FindAppend(logs, e, k);
    }
    KeysAppend(logs, e);
  }

  lemma KeysAppend(logs: seq<LogEntry>, e: LogEntry)
    ensures Keys(logs + [e]) == Keys(logs) + [e.key]
  {
    var ks := Keys(logs + [e]);
    assert forall i :: 0 <= i < |logs| ==> ks[i] == logs[i].key;
  }

  /** Stores a log under a key: an existing key keeps its place and gets the new log, a new key goes last. */
  function Put(logs: seq<LogEntry>, key: string, log: DailyLog): (r: seq<LogEntry>)
    ensures Find(r, key) == Some(log)
    ensures forall k :: k != key ==> Find(r, k) == Find(logs, k)
    ensures Keys(r) == if key in Keys(logs) then Keys(logs) else Keys(logs) + [key]
  {
    if key in Keys(logs) then Replace(logs, key, log)
    else
      AppendNewKey(logs, key, log);
      logs + [LogEntry(key, log)]
  }

  /** No key occurs twice, as in a JavaScript object. */
  predicate KeysUnique(logs: seq<LogEntry>) {
    forall i, j :: 0 <= i < j < |logs| ==> logs[i].key != logs[j].key
  }

  /** A stored record: unique keys, and each day's log carries its own key as its date. */
  predicate WellFormed(logs: seq<LogEntry>) {
    KeysUnique(logs) && forall i :: 0 <= i < |logs| ==> logs[i].log.date == logs[i].key
  }

  lemma PutKeepsWellFormed(logs: seq<LogEntry>, key: string, log: DailyLog)
    requires WellFormed(logs) && log.date == key
    ensures WellFormed(Put(logs, key, log))
  {
    var r := Put(logs, key, log);
    var ks := Keys(r);
    if key !in Keys(logs) {
      assert r == logs + [LogEntry(key, log)];
    }
    forall i, j | 0 <= i < j < |r| ensures r[i].key != r[j].key {
      assert ks[i] == r[i].key && ks[j] == r[j].key;
    }
  }

  /** No two meals of one day share an id. */
  predicate IdsUnique(meals: seq<Meal>) {
    forall x, y :: 0 <= x < y < |meals| ==> meals[x].id != meals[y].id
  }

  /** No meal of one list shares its id with a meal of the other. */
  predicate IdsDisjoint(a: seq<Meal>, b: seq<Meal>) {
    forall m, n :: m in a && n in b ==> m.id != n.id
  }

  /**
   * Meal ids are unique across the whole record: within each day, and between
   * any two days. Edit and remove name a meal by its id alone, so this is what
   * makes them reach exactly one meal of the record.
   */
  predicate MealIdsUnique(logs: seq<LogEntry>) {
    (forall i :: 0 <= i < |logs| ==> IdsUnique(logs[i].log.meals)) &&
    (forall i, j :: 0 <= i < |logs| && 0 <= j < |logs| && i != j ==> IdsDisjoint(logs[i].log.meals, logs[j].log.meals))
  }

  /** An id that no meal of the record carries yet. */
  predicate FreshMealId(logs: seq<LogEntry>, id: string) {
    forall e, m :: e in logs && m in e.log.meals ==> m.id != id
  }

  lemma DisjointSymmetric(a: seq<Meal>, b: seq<Meal>)
    requires IdsDisjoint(a, b)
    ensures IdsDisjoint(b, a)
  {
  }

  /** Overwriting an existing day keeps meal ids unique when the new meals clash with no other day. */
  lemma ReplaceKeepsMealIdsUnique(logs: seq<LogEntry>, key: string, log: DailyLog)
    requires KeysUnique(logs) && MealIdsUnique(logs) && IdsUnique(log.meals)
    requires forall i :: 0 <= i < |logs| && logs[i].key != key ==> IdsDisjoint(logs[i].log.meals, log.meals)
    ensures MealIdsUnique(Replace(logs, key, log))
  {
    var r := Replace(logs, key, log);
    assert |r| == |Keys(r)| == |logs|;
    forall i | 0 <= i < |r| ensures IdsUnique(r[i].log.meals) {
      assert r[i] == logs[i] || r[i].log == log;
    }
    forall i, j | 0 <= i < |r| && 0 <= j < |r| && i != j ensures IdsDisjoint(r[i].log.meals, r[j].log.meals) {
      if logs[i].key == key {
        assert logs[j].key != key;
        DisjointSymmetric(logs[j].log.meals, log.meals);
      } else if logs[j].key != key {
        assert r[i] == logs[i] && r[j] == logs[j];
      }
    }
  }

  /** Appending a new day keeps meal ids unique when its meals clash with no other day. */
  lemma AppendKeepsMealIdsUnique(logs: seq<LogEntry>, key: string, log: DailyLog)
    requires MealIdsUnique(logs) && IdsUnique(log.meals)
    requires forall i :: 0 <= i < |logs| ==> IdsDisjoint(logs[i].log.meals, log.meals)
    ensures MealIdsUnique(logs + [LogEntry(key, log)])
  {
    var r := logs + [LogEntry(key, log)];
    assert forall i :: 0 <= i < |logs| ==> r[i] == logs[i];
    forall i, j | 0 <= i < |r| && 0 <= j < |r| && i != j ensures IdsDisjoint(r[i].log.meals, r[j].log.meals) {
      if i == |logs| {
        DisjointSymmetric(logs[j].log.meals, log.meals);
      }
    }
  }

  /**
   * Writing a day whose meals have unique ids, none shared with another day,
   * keeps meal ids unique across the record.
   */
  lemma PutKeepsMealIdsUnique(logs: seq<LogEntry>, key: string, log: DailyLog)
    requires KeysUnique(logs) && MealIdsUnique(logs) && IdsUnique(log.meals)
    requires forall i :: 0 <= i < |logs| && logs[i].key != key ==> IdsDisjoint(logs[i].log.meals, log.meals)
    ensures MealIdsUnique(Put(logs, key, log))
  {
    if key in Keys(logs) {
      ReplaceKeepsMealIdsUnique(logs, key, log);
    } else {
      assert forall i :: 0 <= i < |logs| ==> logs[i].key == Keys(logs)[i] != key;
      AppendKeepsMealIdsUnique(logs, key, log);
    }
  }

  /** Today's stored log sits at some position of the record; without one, today has no meals. */
  lemma TodayEntry(s: AppState, todayKey: string) returns (t: int)
    ensures Find(s.logs, todayKey).Some? ==> 0 <= t < |s.logs| && s.logs[t] == LogEntry(todayKey, TodayLog(s, todayKey))
    ensures Find(s.logs, todayKey).None? ==> TodayLog(s, todayKey).meals == [] && t == -1
  {
    t := -1;
    if Find(s.logs, todayKey).Some? {
      t :| 0 <= t < |s.logs| && s.logs[t] == LogEntry(todayKey, TodayLog(s, todayKey));
    }
  }

  /** A meal under an id the day does not use yet, and no other day uses, keeps the day's ids unique and apart. */
  lemma AppendFreshMealKeepsIds(meals: seq<Meal>, m: Meal, other: seq<Meal>)
    requires forall x :: 0 <= x < |meals| ==> meals[x].id != m.id
    ensures IdsUnique(meals) ==> IdsUnique(meals + [m])
    ensures IdsDisjoint(other, meals) && (forall n :: n in other ==> n.id != m.id) ==> IdsDisjoint(other, meals + [m])
  {
    var r := meals + [m];
    assert forall x :: 0 <= x < |meals| ==> r[x] == meals[x];
    if IdsDisjoint(other, meals) && (forall n :: n in other ==> n.id != m.id) {
      forall a, b | a in other && b in r ensures a.id != b.id {
        if b != m {
          var y :| 0 <= y < |r| && r[y] == b;
          assert meals[y] in meals;
        }
      }
    }
  }

  /** Adding a meal under an id no meal of the record carries keeps meal ids unique across the record. */
  lemma AddMealKeepsMealIdsUnique(s: AppState, todayKey: string, data: MealData, id: string, timestamp: int)
    requires WellFormed(s.logs) && MealIdsUnique(s.logs) && FreshMealId(s.logs, id)
    ensures MealIdsUnique(AddMeal(s, todayKey, data, id, timestamp).logs)
  {
    var today := TodayLog(s, todayKey);
    var m := NewMeal(data, id, timestamp);
    var t := TodayEntry(s, todayKey);
    forall x | 0 <= x < |today.meals| ensures today.meals[x].id != id {
      assert today.meals[x] in today.meals && s.logs[t] in s.logs;
    }
    AppendFreshMealKeepsIds(today.meals, m, []);
    forall i | 0 <= i < |s.logs| && s.logs[i].key != todayKey
      ensures IdsDisjoint(s.logs[i].log.meals, today.meals + [m])
    {
      assert s.logs[i] in s.logs;
      if t >= 0 {
        assert t != i;
        assert IdsDisjoint(s.logs[i].log.meals, s.logs[t].log.meals);
      }
      AppendFreshMealKeepsIds(today.meals, m, s.logs[i].log.meals);
    }
    PutKeepsMealIdsUnique(s.logs, todayKey, today.(meals := today.meals + [m]));
  }

  /** Editing keeps every id where it was: unique ids stay unique, and ids apart from another list stay apart. */
  lemma EditMealsKeepsIds(meals: seq<Meal>, mealId: string, data: MealData, other: seq<Meal>)
    ensures IdsUnique(meals) ==> IdsUnique(EditMeals(meals, mealId, data))
    ensures IdsDisjoint(other, meals) ==> IdsDisjoint(other, EditMeals(meals, mealId, data))
  {
    var edited := EditMeals(meals, mealId, data);
    assert forall x :: 0 <= x < |edited| ==> edited[x].id == meals[x].id;
    if IdsDisjoint(other, meals) {
      forall a, b | a in other && b in edited ensures a.id != b.id {
        var y :| 0 <= y < |edited| && edited[y] == b;
        assert meals[y] in meals;
      }
    }
  }

  /** Editing keeps every id where it was, so meal ids stay unique across the record. */
  lemma EditMealKeepsMealIdsUnique(s: AppState, todayKey: string, mealId: string, data: MealData)
    requires WellFormed(s.logs) && MealIdsUnique(s.logs)
    ensures MealIdsUnique(EditMeal(s, todayKey, mealId, data).logs)
  {
    var today := TodayLog(s, todayKey);
    var t := TodayEntry(s, todayKey);
    EditMealsKeepsIds(today.meals, mealId, data, []);
    forall i | 0 <= i < |s.logs| && s.logs[i].key != todayKey
      ensures IdsDisjoint(s.logs[i].log.meals, EditMeals(today.meals, mealId, data))
    {
      if t >= 0 {
        assert t != i;
        assert IdsDisjoint(s.logs[i].log.meals, s.logs[t].log.meals);
      }
      EditMealsKeepsIds(today.meals, mealId, data, s.logs[i].log.meals);
    }
    PutKeepsMealIdsUnique(s.logs, todayKey, today.(meals := EditMeals(today.meals, mealId, data)));
  }

  /** No meal left by the filter carries the removed id, nor an id that no meal had before. */
  lemma {:induction false} RemoveMealsIds(meals: seq<Meal>, mealId: string, id: string)
    ensures forall y :: 0 <= y < |RemoveMeals(meals, mealId)| ==> RemoveMeals(meals, mealId)[y].id != mealId
    ensures (forall x :: 0 <= x < |meals| ==> meals[x].id != id) ==>
            forall y :: 0 <= y < |RemoveMeals(meals, mealId)| ==> RemoveMeals(meals, mealId)[y].id != id
  {
    if meals != [] {
      RemoveMealsIds(meals[1..], mealId, id);
      var rest := RemoveMeals(meals[1..], mealId);
      if meals[0].id != mealId {
        var r := [meals[0]] + rest;
        assert forall y :: 1 <= y < |r| ==> r[y] == rest[y - 1];
      }
    }
  }

  /** Filtering a list that holds no meal with the id changes nothing. */
  lemma {:induction false} RemoveAbsentIdIsIdentity(meals: seq<Meal>, mealId: string)
    requires forall x :: 0 <= x < |meals| ==> meals[x].id != mealId
    ensures RemoveMeals(meals, mealId) == meals
  {
    if meals != [] {
      RemoveAbsentIdIsIdentity(meals[1..], mealId);
      assert meals == [meals[0]] + meals[1..];
    }
  }

  /** Filtering a day's meals keeps their ids unique. */
  lemma {:induction false} RemoveMealsKeepsIdsUnique(meals: seq<Meal>, mealId: string)
    requires IdsUnique(meals)
    ensures IdsUnique(RemoveMeals(meals, mealId))
  {
    if meals != [] {
      var tail := meals[1..];
      var rest := RemoveMeals(tail, mealId);
      assert IdsUnique(tail) by {
        assert forall x :: 0 <= x < |tail| ==> tail[x] == meals[x + 1];
      }
      RemoveMealsKeepsIdsUnique(tail, mealId);
      if meals[0].id != mealId {
        assert forall x :: 0 <= x < |tail| ==> tail[x].id != meals[0].id by {
          assert forall x :: 0 <= x < |tail| ==> tail[x] == meals[x + 1];
        }
        RemoveMealsIds(tail, mealId, meals[0].id);
        var r := [meals[0]] + rest;
        assert forall y :: 1 <= y < |r| ==> r[y] == rest[y - 1];
      }
    }
  }

  /** With unique ids, removing the id of a meal of the day removes that one meal and no other. */
  lemma {:induction false} RemoveUniqueIdDropsOne(meals: seq<Meal>, k: nat)
    requires IdsUnique(meals) && k < |meals|
    ensures |RemoveMeals(meals, meals[k].id)| == |meals| - 1
    ensures meals[k] !in RemoveMeals(meals, meals[k].id)
  {
    var id := meals[k].id;
    var tail := meals[1..];
    assert forall x :: 0 <= x < |tail| ==> tail[x] == meals[x + 1];
    RemoveMealsIds(meals, id, id);
    if k == 0 {
      RemoveAbsentIdIsIdentity(tail, id);
    } else {
      assert IdsUnique(tail);
      RemoveUniqueIdDropsOne(tail, k - 1);
    }
  }

  /** Removing a meal keeps meal ids unique across the record. */
  lemma RemoveMealKeepsMealIdsUnique(s: AppState, todayKey: string, mealId: string)
    requires WellFormed(s.logs) && MealIdsUnique(s.logs)
    ensures MealIdsUnique(RemoveMeal(s, todayKey, mealId).logs)
  {
    if Find(s.logs, todayKey).Some? {
      var today := TodayLog(s, todayKey);
      var meals := RemoveMeals(today.meals, mealId);
      var t := TodayEntry(s, todayKey);
      RemoveMealsKeepsIdsUnique(today.meals, mealId);
      RemoveMealsMembers(today.meals, mealId);
      forall i | 0 <= i < |s.logs| && s.logs[i].key != todayKey ensures IdsDisjoint(s.logs[i].log.meals, meals) {
        assert t != i;
        assert IdsDisjoint(s.logs[i].log.meals, s.logs[t].log.meals);
      }
      PutKeepsMealIdsUnique(s.logs, todayKey, today.(meals := meals));
    }
  }

  /** The state the app starts from when storage has nothing usable. */
  const DefaultState: AppState := AppState(None, [], 0, [])

  /**
   * The lazy initial state: a parsed saved state if there is one; an absent slot,
   * an empty slot and unparsable text all fall back to the empty default.
   */
  function InitialState(saved: Option<AppState>): (s: AppState)
    ensures saved.None? ==> s.profile.None? && s.logs == [] && s.streak == 0 && s.recommendedRecipes == []
    ensures saved.Some? ==> s == saved.value
  {
    saved.GetOr(DefaultState)
  }

  /** Today's log: the one stored under today's key, or an empty log for today when there is none. */
  function TodayLog(s: AppState, todayKey: string): (log: DailyLog)
    ensures Find(s.logs, todayKey).Some? ==> log == Find(s.logs, todayKey).value
    ensures Find(s.logs, todayKey).None? ==> log == DailyLog(todayKey, [])
  {
    Find(s.logs, todayKey).GetOr(DailyLog(todayKey, []))
  }

  /** The updater of `updateRecipes`: the whole recommendation list is replaced. */
  function ReplaceRecipes(s: AppState, recipes: seq<Recipe>): (r: AppState)
    ensures r.recommendedRecipes == recipes
    ensures r.profile == s.profile && r.logs == s.logs && r.streak == s.streak
  {
    s.(recommendedRecipes := recipes)
  }

  /** The updater of `handleProfileComplete`. */
  function SetProfile(s: AppState, profile: UserProfile): (r: AppState)
    ensures r.profile == Some(profile)
    ensures r.logs == s.logs && r.streak == s.streak && r.recommendedRecipes == s.recommendedRecipes
  {
    s.(profile := Some(profile))
  }

  /** The profile button's updater: clearing the profile sends the app back to onboarding. */
  function ClearProfile(s: AppState): (r: AppState)
    ensures r.profile.None?
    ensures r.logs == s.logs && r.streak == s.streak && r.recommendedRecipes == s.recommendedRecipes
  {
    s.(profile := None)
  }

  /** Every meal whose id matches gets the five new fields; the others are left alone. */
  function EditMeals(meals: seq<Meal>, mealId: string, data: MealData): (r: seq<Meal>)
    ensures |r| == |meals|
    ensures forall i :: 0 <= i < |meals| && meals[i].id == mealId ==> r[i] == WithData(meals[i], data)
    ensures forall i :: 0 <= i < |meals| && meals[i].id != mealId ==> r[i] == meals[i]
  {
    if meals == [] then []
    else [if meals[0].id == mealId then WithData(meals[0], data) else meals[0]]
         + EditMeals(meals[1..], mealId, data)
  }

  /** The day's meals without the ones carrying the given id, the rest in their order. */
  function RemoveMeals(meals: seq<Meal>, mealId: string): (r: seq<Meal>)
    ensures |r| <= |meals|
  {
    if meals == [] then []
    else (if meals[0].id == mealId then [] else [meals[0]]) + RemoveMeals(meals[1..], mealId)
  }

  /** The filter keeps exactly the meals with another id; with no meal under that id it changes nothing. */
  lemma {:induction false} RemoveMealsMembers(meals: seq<Meal>, mealId: string)
    ensures forall m :: m in RemoveMeals(meals, mealId) <==> m in meals && m.id != mealId
    ensures (forall m :: m in meals ==> m.id != mealId) ==> RemoveMeals(meals, mealId) == meals
  {
    if meals != [] {
      assert meals == [meals[0]] + meals[1..];
      RemoveMealsMembers(meals[1..], mealId);
    }
  }

  /** Filtering distributes over concatenation, so the kept meals stay in their order. */
  lemma {:induction false} RemoveMealsConcat(a: seq<Meal>, b: seq<Meal>, mealId: string)
    ensures RemoveMeals(a + b, mealId) == RemoveMeals(a, mealId) + RemoveMeals(b, mealId)
  {
    if a == [] {
      assert a + b == b;
    } else {
      var ab := a + b;
      var head: seq<Meal> := if a[0].id == mealId then [] else [a[0]];
      assert ab[0] == a[0] && ab[1..] == a[1..] + b;
      assert RemoveMeals(ab, mealId) == head + RemoveMeals(a[1..] + b, mealId);
      assert RemoveMeals(a, mealId) == head + RemoveMeals(a[1..], mealId);
      RemoveMealsConcat(a[1..], b, mealId);
      assert head + (RemoveMeals(a[1..], mealId) + RemoveMeals(b, mealId))
          == (head + RemoveMeals(a[1..], mealId)) + RemoveMeals(b, mealId);
    }
  }

  /** The adding branch of `handleSaveMeal`. */
  function AddMeal(s: AppState, todayKey: string, data: MealData, id: string, timestamp: int): (r: AppState)
    ensures r.profile == s.profile && r.streak == s.streak && r.recommendedRecipes == s.recommendedRecipes
    ensures Find(r.logs, todayKey) == Some(DailyLog(TodayLog(s, todayKey).date,
                                                     TodayLog(s, todayKey).meals + [NewMeal(data, id, timestamp)]))
    ensures forall k :: k != todayKey ==> Find(r.logs, k) == Find(s.logs, k)
    ensures Keys(r.logs) == if todayKey in Keys(s.logs) then Keys(s.logs) else Keys(s.logs) + [todayKey]
  {
    var today := TodayLog(s, todayKey);
    s.(logs := Put(s.logs, todayKey, today.(meals := today.meals + [NewMeal(data, id, timestamp)])))
  }

  /** The editing branch of `handleSaveMeal`: it writes today's entry even when it was absent. */
  function EditMeal(s: AppState, todayKey: string, mealId: string, data: MealData): (r: AppState)
    ensures r.profile == s.profile && r.streak == s.streak && r.recommendedRecipes == s.recommendedRecipes
    ensures Find(r.logs, todayKey) == Some(DailyLog(TodayLog(s, todayKey).date,
                                                     EditMeals(TodayLog(s, todayKey).meals, mealId, data)))
    ensures forall k :: k != todayKey ==> Find(r.logs, k) == Find(s.logs, k)
    ensures Keys(r.logs) == if todayKey in Keys(s.logs) then Keys(s.logs) else Keys(s.logs) + [todayKey]
  {
    var today := TodayLog(s, todayKey);
    s.(logs := Put(s.logs, todayKey, today.(meals := EditMeals(today.meals, mealId, data))))
  }

  /** `handleSaveMeal`: edit the meal being edited, if any, otherwise add a new one. */
  function SaveMeal(s: AppState, todayKey: string, editing: Option<Meal>, data: MealData,
                    freshId: string, now: int): (r: AppState)
    ensures editing.Some? ==> |TodayLog(r, todayKey).meals| == |TodayLog(s, todayKey).meals|
    ensures editing.None? ==> |TodayLog(r, todayKey).meals| == |TodayLog(s, todayKey).meals| + 1
  {
    if editing.Some? then EditMeal(s, todayKey, editing.value.id, data)
    else AddMeal(s, todayKey, data, freshId, now)
  }

  /** `handleRemoveMeal`: no log for today leaves the state as it is. */
  function RemoveMeal(s: AppState, todayKey: string, mealId: string): (r: AppState)
    ensures Find(s.logs, todayKey).None? ==> r == s
    ensures r.profile == s.profile && r.streak == s.streak && r.recommendedRecipes == s.recommendedRecipes
    ensures Find(s.logs, todayKey).Some? ==>
      Find(r.logs, todayKey) == Some(DailyLog(TodayLog(s, todayKey).date,
                                              RemoveMeals(TodayLog(s, todayKey).meals, mealId)))
    ensures forall k :: k != todayKey ==> Find(r.logs, k) == Find(s.logs, k)
    ensures Keys(r.logs) == Keys(s.logs)
  {
    match Find(s.logs, todayKey)
    case None => s
    case Some(today) => s.(logs := Put(s.logs, todayKey, today.(meals := RemoveMeals(today.meals, mealId))))
  }

  /** Editing keeps the day's meal count and every meal's id and timestamp. */
  lemma EditKeepsIdentities(s: AppState, todayKey: string, mealId: string, data: MealData)
    ensures var before := TodayLog(s, todayKey).meals;
            var after := TodayLog(EditMeal(s, todayKey, mealId, data), todayKey).meals;
            |after| == |before| &&
            forall i :: 0 <= i < |before| ==> after[i].id == before[i].id && after[i].timestamp == before[i].timestamp
  {
    var before := TodayLog(s, todayKey).meals;
    var after := TodayLog(EditMeal(s, todayKey, mealId, data), todayKey).meals;
    forall i | 0 <= i < |before|
      ensures after[i].id == before[i].id && after[i].timestamp == before[i].timestamp
    {
      if before[i].id == mealId {
        assert after[i] == WithData(before[i], data);
      }
    }
  }

  /** Editing an id that is not in today's list leaves the list as it was. */
  lemma EditUnknownIdIsNoOp(s: AppState, todayKey: string, mealId: string, data: MealData)
    requires forall m :: m in TodayLog(s, todayKey).meals ==> m.id != mealId
    ensures TodayLog(EditMeal(s, todayKey, mealId, data), todayKey).meals == TodayLog(s, todayKey).meals
  {
    var before := TodayLog(s, todayKey).meals;
    var after := EditMeals(before, mealId, data);
    forall i | 0 <= i < |before| ensures after[i] == before[i] {
      assert before[i] in before;
    }
  }

  /**
   * Adding a meal under an id not yet used today and then removing that id gives
   * back today's previous meal list; when today already had a log (and the record
   * is well formed) the whole state is restored.
   */
  lemma AddThenRemoveRestores(s: AppState, todayKey: string, data: MealData, id: string, timestamp: int)
    requires forall m :: m in TodayLog(s, todayKey).meals ==> m.id != id
    ensures var r := RemoveMeal(AddMeal(s, todayKey, data, id, timestamp), todayKey, id);
            TodayLog(r, todayKey).meals == TodayLog(s, todayKey).meals &&
            (Find(s.logs, todayKey).Some? && KeysUnique(s.logs) ==> r == s)
  {
    var today := TodayLog(s, todayKey);
    var m := NewMeal(data, id, timestamp);
    RemoveMealsConcat(today.meals, [m], id);
    RemoveMealsMembers(today.meals, id);
    assert RemoveMeals([m], id) == [];
    var r := RemoveMeal(AddMeal(s, todayKey, data, id, timestamp), todayKey, id);
    if Find(s.logs, todayKey).Some? && KeysUnique(s.logs) {
      PutTwice(s.logs, todayKey, today.(meals := today.meals + [m]), today);
      PutFoundIsIdentity(s.logs, todayKey);
    }
  }

  /** Overwriting a key twice is overwriting it once with the second value. */
  lemma {:induction false} ReplaceTwice(logs: seq<LogEntry>, key: string, a: DailyLog, b: DailyLog)
    ensures Replace(Replace(logs, key, a), key, b) == Replace(logs, key, b)
  {
    if logs != [] {
      var once := Replace(logs, key, a);
      assert once[1..] == Replace(logs[1..], key, a);
      ReplaceTwice(logs[1..], key, a, b);
    }
  }

  /** Overwriting the key of an entry appended under a new key only changes that last entry. */
  lemma {:induction false} ReplaceAppended(logs: seq<LogEntry>, key: string, a: DailyLog, b: DailyLog)
    requires forall i :: 0 <= i < |logs| ==> logs[i].key != key
    ensures Replace(logs + [LogEntry(key, a)], key, b) == logs + [LogEntry(key, b)]
  {
    if logs == [] {
      assert logs + [LogEntry(key, a)] == [LogEntry(key, a)];
    } else {
      var longer := logs + [LogEntry(key, a)];
      assert longer[0] == logs[0] && longer[1..] == logs[1..] + [LogEntry(key, a)];
      assert logs[0].key != key;
      assert Replace(longer, key, b) == [logs[0]] + Replace(longer[1..], key, b);
      ReplaceAppended(logs[1..], key, a, b);
      assert logs + [LogEntry(key, b)] == [logs[0]] + (logs[1..] + [LogEntry(key, b)]);
    }
  }

  /** A second write to the same key overrides the first. */
  lemma PutTwice(logs: seq<LogEntry>, key: string, a: DailyLog, b: DailyLog)
    ensures Put(Put(logs, key, a), key, b) == Put(logs, key, b)
  {
    var once := Put(logs, key, a);
    assert key in Keys(once);
    if key in Keys(logs) {
      ReplaceTwice(logs, key, a, b);
    } else {
      assert forall i :: 0 <= i < |logs| ==> Keys(logs)[i] == logs[i].key;
      ReplaceAppended(logs, key, a, b);
    }
  }

  /** Writing back the value a key already holds changes nothing, when keys are unique. */
  lemma PutFoundIsIdentity(logs: seq<LogEntry>, key: string)
    requires KeysUnique(logs) && Find(logs, key).Some?
    ensures Put(logs, key, Find(logs, key).value) == logs
  {
    var v := Find(logs, key).value;
    var j :| 0 <= j < |logs| && logs[j] == LogEntry(key, v);
    var r := Put(logs, key, v);
    forall i | 0 <= i < |logs| ensures r[i] == logs[i] {
      if logs[i].key == key {
        assert i == j;
      }
    }
  }

  /** Add, edit and remove keep the record well formed. */
  lemma TransitionsKeepWellFormed(s: AppState, todayKey: string, data: MealData, id: string, timestamp: int)
    requires WellFormed(s.logs)
    ensures WellFormed(AddMeal(s, todayKey, data, id, timestamp).logs)
    ensures WellFormed(EditMeal(s, todayKey, id, data).logs)
    ensures WellFormed(RemoveMeal(s, todayKey, id).logs)
  {
    var today := TodayLog(s, todayKey);
    if Find(s.logs, todayKey).Some? {
      var e := LogEntry(todayKey, today);
      assert e in s.logs;
      var i :| 0 <= i < |s.logs| && s.logs[i] == e;
      assert today.date == todayKey;
    }
    PutKeepsWellFormed(s.logs, todayKey, today.(meals := today.meals + [NewMeal(data, id, timestamp)]));
    PutKeepsWellFormed(s.logs, todayKey, today.(meals := EditMeals(today.meals, id, data)));
    PutKeepsWellFormed(s.logs, todayKey, today.(meals := RemoveMeals(today.meals, id)));
  }
}

/**
 * The derived views of components/History.tsx: the chart (log entries
 * sorted by date key, the last seven, each with its day's calories), the
 * achievement list (the last ten entries in record order, newest first) and the
 * classification of a day against the calorie target. Date keys are YYYY-MM-DD
 * strings and are compared lexicographically, character by character.
 */
module History {
  import opened Types
  import Dashboard

  function Min(a: int, b: int): int {
    if a <= b then a else b
  }

  /**
   * Lexicographic order on strings, the order the date keys are sorted in: a
   * prefix comes first, and a string never comes before its own proper prefix.
   */
  predicate LexLe(a: string, b: string)
    ensures a <= b ==> LexLe(a, b)
    ensures b < a ==> !LexLe(a, b)
    decreases |a|
  {
    if a == [] then true
    else if b == [] then false
    else if a[0] != b[0] then a[0] < b[0]
    else LexLe(a[1..], b[1..])
  }

  /** Otherwise the first position where the strings differ decides the order. */
  lemma {:induction false} LexLeAtFirstDifference(a: string, b: string, k: nat)
    requires k < |a| && k < |b| && a[..k] == b[..k] && a[k] != b[k]
    ensures LexLe(a, b) <==> a[k] < b[k]
    decreases k
  {
    if k > 0 {
      assert a[0] == a[..k][0] && b[0] == b[..k][0];
      assert a[1..][..k - 1] == a[..k][1..] && b[1..][..k - 1] == b[..k][1..];
      LexLeAtFirstDifference(a[1..], b[1..], k - 1);
    }
  }

  lemma {:induction false} LexLeTotal(a: string, b: string)
    ensures LexLe(a, b) || LexLe(b, a)
    decreases |a|
  {
    if a != [] && b != [] && a[0] == b[0] {
      LexLeTotal(a[1..], b[1..]);
    }
  }

  lemma {:induction false} LexLeTransitive(a: string, b: string, c: string)
    requires LexLe(a, b) && LexLe(b, c)
    ensures LexLe(a, c)
    decreases |a|
  {
    if a != [] && b != [] && c != [] && a[0] == b[0] && b[0] == c[0] {
      LexLeTransitive(a[1..], b[1..], c[1..]);
    }
  }

  lemma {:induction false} LexLeAntisymmetric(a: string, b: string)
    requires LexLe(a, b) && LexLe(b, a)
    ensures a == b
    decreases |a|
  {
    if a != [] && b != [] {
      LexLeAntisymmetric(a[1..], b[1..]);
      assert a == [a[0]] + a[1..];
      assert b == [b[0]] + b[1..];
    }
  }

  predicate SortedByDate(s: seq<LogEntry>) {
    forall i, j :: 0 <= i < j < |s| ==> LexLe(s[i].key, s[j].key)
  }

  /** Places one entry into a date-sorted list, before the first entry it does not follow. */
  function Insert(e: LogEntry, s: seq<LogEntry>): (r: seq<LogEntry>)
    ensures multiset(r) == multiset(s) + multiset{e}
  {
    if s == [] then [e]
    else if LexLe(e.key, s[0].key) then
      assert s == [s[0]] + s[1..];
      [e] + s
    else
      assert s == [s[0]] + s[1..];
      [s[0]] + Insert(e, s[1..])
  }

  /** An entry that precedes everything in a list precedes everything after an insertion that it also precedes. */
  lemma InsertedAllFollow(first: LogEntry, e: LogEntry, s: seq<LogEntry>)
    requires LexLe(first.key, e.key)
    requires forall k :: 0 <= k < |s| ==> LexLe(first.key, s[k].key)
    ensures forall x :: x in Insert(e, s) ==> LexLe(first.key, x.key)
  {
    var r := Insert(e, s);
    forall x | x in r ensures LexLe(first.key, x.key) {
      assert x in multiset(r);
      if x != e {
        assert x in multiset(s);
        var j :| 0 <= j < |s| && s[j] == x;
      }
    }
  }

  lemma {:induction false} InsertKeepsSorted(e: LogEntry, s: seq<LogEntry>)
    requires SortedByDate(s)
    ensures SortedByDate(Insert(e, s))
  {
    if s == [] {
    } else if LexLe(e.key, s[0].key) {
      var r := [e] + s;
      forall j | 1 <= j < |r| ensures LexLe(e.key, r[j].key) {
        if j > 1 {
          LexLeTransitive(e.key, s[0].key, s[j - 1].key);
        }
      }
    } else {
      var tail := s[1..];
      var rest := Insert(e, tail);
      InsertKeepsSorted(e, tail);
      LexLeTotal(e.key, s[0].key);
      assert forall k :: 0 <= k < |tail| ==> tail[k] == s[k + 1];
      InsertedAllFollow(s[0], e, tail);
      var r := [s[0]] + rest;
      assert r == Insert(e, s);
      forall i, j | 0 <= i < j < |r| ensures LexLe(r[i].key, r[j].key) {
        if i == 0 {
          assert r[j] == rest[j - 1];
        } else {
          assert r[i] == rest[i - 1] && r[j] == rest[j - 1];
        }
      }
    }
  }

  /** The log entries in ascending order of their date keys: the same entries, sorted. */
  function SortByDate(es: seq<LogEntry>): (r: seq<LogEntry>)
    ensures multiset(r) == multiset(es)
    ensures |r| == |es|
    ensures SortedByDate(r)
  {
    if es == [] then []
    else
      assert es == [es[0]] + es[1..];
      var sortedRest := SortByDate(es[1..]);
      InsertKeepsSorted(es[0], sortedRest);
      Insert(es[0], sortedRest)
  }

  /** In a date-sorted list, everything before a suffix comes no later than anything in it. */
  lemma SuffixHoldsLatest(sorted: seq<LogEntry>, start: nat)
    requires SortedByDate(sorted) && start <= |sorted|
    ensures forall e, c :: e in sorted && e !in sorted[start..] && c in sorted[start..] ==> LexLe(e.key, c.key)
  {
    var sel := sorted[start..];
    forall e, c | e in sorted && e !in sel && c in sel ensures LexLe(e.key, c.key) {
      var i :| 0 <= i < |sorted| && sorted[i] == e;
      var j :| 0 <= j < |sel| && sel[j] == c;
      assert sorted[start + j] == c;
      assert forall k :: start <= k < |sorted| ==> sorted[k] == sel[k - start];
      assert i < start;
    }
  }

  /** The same entries, in any order, have the same members. */
  lemma SameMultisetSameMembers(a: seq<LogEntry>, b: seq<LogEntry>)
    requires multiset(a) == multiset(b)
    ensures forall e :: e in a <==> e in b
  {
    forall e ensures e in a <==> e in b {
      assert e in a <==> e in multiset(a);
      assert e in b <==> e in multiset(b);
    }
  }

  /**
   * The last seven of the sorted entries: the (at most) seven latest logged
   * days, each taken from the record at most as often as it occurs there.
   */
  function WeekSelection(logs: seq<LogEntry>): (sel: seq<LogEntry>)
    ensures |sel| == Min(7, |logs|)
    ensures SortedByDate(sel)
    ensures multiset(sel) <= multiset(logs)
    ensures forall e :: e in sel ==> e in logs
    ensures forall e, c :: e in logs && e !in sel && c in sel ==> LexLe(e.key, c.key)
  {
    var sorted := SortByDate(logs);
    var start := |sorted| - Min(7, |sorted|);
    SameMultisetSameMembers(sorted, logs);
    SuffixHoldsLatest(sorted, start);
    assert sorted == sorted[..start] + sorted[start..];
    sorted[start..]
  }

  /**
   * A day's calories, summed over its meals from the left starting at 0: a day
   * without meals has 0, and meals without negative calories give no negative sum.
   */
  function DayCalories(meals: seq<Meal>): (r: real)
    ensures meals == [] ==> r == 0.0
    ensures (forall i :: 0 <= i < |meals| ==> meals[i].calories >= 0.0) ==> r >= 0.0
    decreases |meals|
  {
    if meals == [] then 0.0 else DayCalories(meals[..|meals| - 1]) + meals[|meals| - 1].calories
  }

  /** A day's calories in the history are the calorie total the dashboard shows for it. */
  lemma {:induction false} DayCaloriesIsDashboardTotal(meals: seq<Meal>)
    ensures DayCalories(meals) == Dashboard.SumTotals(meals).calories
    ensures DayCalories(meals) == Dashboard.FieldSum(meals, Calories)
    decreases |meals|
  {
    if meals != [] {
      DayCaloriesIsDashboardTotal(meals[..|meals| - 1]);
    }
    Dashboard.TotalsAreFieldSums(meals);
  }

  datatype ChartEntry = ChartEntry(fullDate: string, calories: real)

  /** The chart's data: one bar per selected day (the seven latest logged keys, not a calendar week), in ascending date order. */
  function ChartData(logs: seq<LogEntry>): (chart: seq<ChartEntry>)
    ensures |chart| == Min(7, |logs|)
    ensures forall i, j :: 0 <= i < j < |chart| ==> LexLe(chart[i].fullDate, chart[j].fullDate)
    ensures forall i :: 0 <= i < |chart| ==>
      chart[i].fullDate == WeekSelection(logs)[i].key &&
      LogEntry(chart[i].fullDate, WeekSelection(logs)[i].log) in logs &&
      chart[i].calories == DayCalories(WeekSelection(logs)[i].log.meals)
  {
    var sel := WeekSelection(logs);
    seq(|sel|, i requires 0 <= i < |sel| => ChartEntry(sel[i].key, DayCalories(sel[i].log.meals)))
  }

  /**
   * A bar is drawn in the warning colour when its calories exceed the target;
   * under a non-negative target that takes a positive amount of calories.
   */
  predicate OverTarget(calories: real, targetCalories: int)
    ensures targetCalories >= 0 && OverTarget(calories, targetCalories) ==> calories > 0.0
  {
    calories > targetCalories as real
  }

  function Reverse<T>(s: seq<T>): (r: seq<T>)
    ensures |r| == |s|
    ensures forall i :: 0 <= i < |s| ==> r[i] == s[|s| - 1 - i]
  {
    if s == [] then [] else Reverse(s[1..]) + [s[0]]
  }

  /** The achievement list: the last ten entries of the record, newest first. */
  function Achievements(logs: seq<LogEntry>): (r: seq<LogEntry>)
    ensures |r| == Min(10, |logs|)
    ensures forall i :: 0 <= i < |r| ==> r[i] == logs[|logs| - 1 - i]
  {
    Reverse(logs)[..Min(10, |logs|)]
  }

  /**
   * A day meets its target when something was eaten and no more than the target:
   * exactly the days with calories whose bar is not in the warning colour.
   */
  predicate IsSuccess(dayCals: real, targetCalories: int)
    ensures IsSuccess(dayCals, targetCalories) <==> dayCals > 0.0 && !OverTarget(dayCals, targetCalories)
  {
    dayCals <= targetCalories as real && dayCals > 0.0
  }

  function DayLabel(dayCals: real, targetCalories: int): (tag: string)
    ensures tag == "Cumplido" <==> IsSuccess(dayCals, targetCalories)
    ensures tag == "Sin Datos" <==> dayCals == 0.0
    ensures tag == "Excedido" <==> !IsSuccess(dayCals, targetCalories) && dayCals != 0.0
  {
    if IsSuccess(dayCals, targetCalories) then "Cumplido"
    else if dayCals == 0.0 then "Sin Datos"
    else "Excedido"
  }

  /**
   * A bar over the target is always labelled "Excedido" and a "Cumplido" day is
   * never over the target; a day with negative calories is "Excedido" although
   * it is under the target.
   */
  lemma LabelAgreesWithColour(dayCals: real, targetCalories: int)
    requires targetCalories >= 0
    ensures OverTarget(dayCals, targetCalories) ==> DayLabel(dayCals, targetCalories) == "Excedido"
    ensures DayLabel(dayCals, targetCalories) == "Cumplido" ==> !OverTarget(dayCals, targetCalories)
    ensures dayCals < 0.0 ==> DayLabel(dayCals, targetCalories) == "Excedido" && !OverTarget(dayCals, targetCalories)
  {
  }
}

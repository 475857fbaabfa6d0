// The course trend report: completed tasks are grouped by course and by
// period, each group keeps the sums of its success and focus scores and its
// size, and every course gets its groups' rounded averages, ordered by
// period key.
module CourseTrends {
  import opened Base
  import opened Types
  import opened Lists
  import opened Tally
  import opened Numeric
  import Text
  import Periods

  /** The tasks `aggregateCoursePerformance` starts from: completed, with a completion date. */
  predicate CompletedWithDate(t: Task)
  {
    t.status == Completed && TruthyText(t.completionDate)
  }

  /** The tasks the forEach keeps: a course and both scores present. */
  predicate Contributes(t: Task)
  {
    CompletedWithDate(t) && t.courseId != "" && t.successScore.Some? && t.focusScore.Some?
  }

  /** The period of a contributing task of course `c`, by the key `keyOf` gives its completion date. */
  function PeriodOf(keyOf: string -> string, c: string): Task -> Option<string>
  {
    (t: Task) => if Contributes(t) && t.courseId == c then Some(keyOf(t.completionDate.value)) else None
  }

  function SuccessOf(t: Task): int
  {
    if t.successScore.Some? then t.successScore.value else 0
  }

  function FocusOf(t: Task): int
  {
    if t.focusScore.Some? then t.focusScore.value else 0
  }

  /** A group's running sums and size. */
  datatype TrendSums = TrendSums(success: int, focus: int, count: nat)

  /** A point of a course's series: the period and the rounded average scores. */
  datatype TrendPoint = TrendPoint(period: string, successScore: int, focusScore: int)

  /** The sums of the group (course `c`, period `p`) over `s`. */
  function SumsOf(s: seq<Task>, keyOf: string -> string, c: string, p: string): TrendSums
  {
    TrendSums(SumWhere(s, PeriodOf(keyOf, c), SuccessOf, p), SumWhere(s, PeriodOf(keyOf, c), FocusOf, p), CountWhere(s, PeriodOf(keyOf, c), p))
  }

  function PointOf(s: seq<Task>, keyOf: string -> string, c: string, p: string): TrendPoint
  {
    var b := SumsOf(s, keyOf, c, p);
    TrendPoint(p, MeanOrZero(b.success, b.count), MeanOrZero(b.focus, b.count))
  }

  function PointsOf(s: seq<Task>, keyOf: string -> string, c: string, periods: seq<string>): (r: seq<TrendPoint>)
    ensures |r| == |periods| && forall i :: 0 <= i < |periods| ==> r[i] == PointOf(s, keyOf, c, periods[i])
  {
    if |periods| == 0 then []
    else PointsOf(s, keyOf, c, periods[..|periods| - 1]) + [PointOf(s, keyOf, c, periods[|periods| - 1])]
  }

  /** `a.period.localeCompare(b.period) <= 0`, on the code-unit order of the keys. */
  predicate PeriodNoLater(a: TrendPoint, b: TrendPoint)
  {
    Text.StrLe(a.period, b.period)
  }

  lemma PeriodOrderIsTotal()
    ensures IsTotalPreorder(PeriodNoLater)
  {
    forall a: TrendPoint, b: TrendPoint ensures PeriodNoLater(a, b) || PeriodNoLater(b, a) {
      Text.StrLeTotal(a.period, b.period);
    }
    forall a: TrendPoint, b: TrendPoint, c: TrendPoint | PeriodNoLater(a, b) && PeriodNoLater(b, c) ensures PeriodNoLater(a, c) {
      Text.StrLeTransitive(a.period, b.period, c.period);
    }
  }

  /** A course's series: its groups' points, in the order of their period keys. */
  function Series(s: seq<Task>, keyOf: string -> string, c: string): (r: seq<TrendPoint>)
    ensures SortedBy(r, PeriodNoLater)
    ensures multiset(r) == multiset(PointsOf(s, keyOf, c, FirstSeenKeys(s, PeriodOf(keyOf, c))))
  {
    PeriodOrderIsTotal();
    SortBy(PointsOf(s, keyOf, c, FirstSeenKeys(s, PeriodOf(keyOf, c))), PeriodNoLater)
  }

  /** A point is in a course's series exactly when its group has a task, and it holds that group's averages. */
  lemma SeriesMembers(s: seq<Task>, keyOf: string -> string, c: string)
    ensures forall pt :: pt in Series(s, keyOf, c) <==>
      CountWhere(s, PeriodOf(keyOf, c), pt.period) > 0 && pt == PointOf(s, keyOf, c, pt.period)
  {
    var keys := FirstSeenKeys(s, PeriodOf(keyOf, c));
    var unsorted := PointsOf(s, keyOf, c, keys);
    FirstSeenKeysAre(s, PeriodOf(keyOf, c));
    PermutationSameMembers(unsorted, Series(s, keyOf, c));
    forall pt ensures pt in unsorted <==> pt.period in keys && pt == PointOf(s, keyOf, c, pt.period) {
      if pt in unsorted {
        var k :| 0 <= k < |unsorted| && unsorted[k] == pt;
        assert keys[k] == pt.period;
      }
      if pt.period in keys && pt == PointOf(s, keyOf, c, pt.period) {
        var k :| 0 <= k < |keys| && keys[k] == pt.period;
        assert unsorted[k] == pt;
      }
    }
  }

  lemma PointsDistinct(s: seq<Task>, keyOf: string -> string, c: string)
    ensures Distinct(PointsOf(s, keyOf, c, FirstSeenKeys(s, PeriodOf(keyOf, c))))
  {
    var keys := FirstSeenKeys(s, PeriodOf(keyOf, c));
    var unsorted := PointsOf(s, keyOf, c, keys);
    FirstSeenKeysAre(s, PeriodOf(keyOf, c));
    forall i, j | 0 <= i < j < |unsorted| ensures unsorted[i] != unsorted[j] {
      assert unsorted[i].period == keys[i] && unsorted[j].period == keys[j];
    }
  }

  /** Each period occurs once in a series, and the keys increase strictly as text. */
  lemma SeriesStrict(s: seq<Task>, keyOf: string -> string, c: string)
    ensures var r := Series(s, keyOf, c);
      forall i, j :: 0 <= i < j < |r| ==> Text.StrLe(r[i].period, r[j].period) && r[i].period != r[j].period
  {
    var r := Series(s, keyOf, c);
    SeriesMembers(s, keyOf, c);
    PointsDistinct(s, keyOf, c);
    PermutationKeepsDistinct(PointsOf(s, keyOf, c, FirstSeenKeys(s, PeriodOf(keyOf, c))), r);
    forall i, j | 0 <= i < j < |r| ensures r[i].period != r[j].period {
      assert r[i] in r && r[j] in r;
      assert r[i] != r[j];
    }
  }

  /** A course without contributing tasks gets an empty series. */
  lemma SeriesEmpty(s: seq<Task>, keyOf: string -> string, c: string)
    requires forall t :: t in s ==> !(Contributes(t) && t.courseId == c)
    ensures Series(s, keyOf, c) == []
  {
    var keys := FirstSeenKeys(s, PeriodOf(keyOf, c));
    FirstSeenKeysAre(s, PeriodOf(keyOf, c));
    forall p ensures p !in keys {
      CountWherePositive(s, PeriodOf(keyOf, c), p);
      forall i | 0 <= i < |s| ensures PeriodOf(keyOf, c)(s[i]) != Some(p) {
        assert s[i] in s;
      }
    }
    EmptyWithoutMembers(keys);
  }

  /** With every score in [0, 100], every average in the series is in [0, 100]. */
  lemma SeriesBounds(s: seq<Task>, keyOf: string -> string, c: string)
    requires forall t :: t in s ==> 0 <= SuccessOf(t) <= 100 && 0 <= FocusOf(t) <= 100
    ensures forall pt :: pt in Series(s, keyOf, c) ==> 0 <= pt.successScore <= 100 && 0 <= pt.focusScore <= 100
  {
    SeriesMembers(s, keyOf, c);
    forall pt | pt in Series(s, keyOf, c) ensures 0 <= pt.successScore <= 100 && 0 <= pt.focusScore <= 100 {
      var p := pt.period;
      SumWhereBounds(s, PeriodOf(keyOf, c), SuccessOf, p, 0, 100);
      SumWhereBounds(s, PeriodOf(keyOf, c), FocusOf, p, 0, 100);
      var b := SumsOf(s, keyOf, c, p);
      RoundedMeanBounds(b.success, b.count, 0, 100);
      RoundedMeanBounds(b.focus, b.count, 0, 100);
    }
  }

  /**
   * With padded weekly or monthly keys the series runs in calendar order:
   * of two points, the earlier one's dates come before the later one's.
   */
  lemma SeriesFollowsCalendar(s: seq<Task>, p: Periods.Period, dateOf: string -> Periods.CalendarDate, c: string,
                              i: nat, j: nat, d1: Periods.CalendarDate, d2: Periods.CalendarDate)
    requires p != Periods.Daily && Periods.ValidDate(d1) && Periods.ValidDate(d2)
    requires var r := Series(s, Periods.GroupBy(p, dateOf), c);
      i < j < |r| && r[i].period == Periods.PeriodKey(p, d1) && r[j].period == Periods.PeriodKey(p, d2)
    ensures d1.year < d2.year || (d1.year == d2.year && Periods.IndexInYear(p, d1) < Periods.IndexInYear(p, d2))
  {
    SeriesStrict(s, Periods.GroupBy(p, dateOf), c);
    Periods.KeysFollowCalendar(p, d1, d2);
  }

  /** As written, week 10 of a year is shown before week 9. */
  lemma SeriesWeekTenBeforeNine(s: seq<Task>, dateOf: string -> Periods.CalendarDate, c: string, t9: Task, t10: Task)
    requires t9 in s && t10 in s && Contributes(t9) && Contributes(t10) && t9.courseId == c && t10.courseId == c
    requires var d9, d10 := dateOf(t9.completionDate.value), dateOf(t10.completionDate.value);
      d9.year == d10.year && Periods.WeekOfYear(d9) == 9 && Periods.WeekOfYear(d10) == 10
    ensures var r := Series(s, Periods.GroupByAsWritten(Periods.Weekly, dateOf), c);
      exists i, j :: 0 <= i < j < |r| && r[i].period == Periods.WeekKeyAsWritten(dateOf(t10.completionDate.value))
        && r[j].period == Periods.WeekKeyAsWritten(dateOf(t9.completionDate.value))
  {
    var keyOf := Periods.GroupByAsWritten(Periods.Weekly, dateOf);
    var k9, k10 := keyOf(t9.completionDate.value), keyOf(t10.completionDate.value);
    var r := Series(s, keyOf, c);
    Periods.UnpaddedWeeksMisorder(dateOf(t9.completionDate.value), dateOf(t10.completionDate.value));
    SeriesMembers(s, keyOf, c);
    forall t | t in s ensures (t == t9 ==> CountWhere(s, PeriodOf(keyOf, c), k9) > 0) && (t == t10 ==> CountWhere(s, PeriodOf(keyOf, c), k10) > 0) {
      var n :| 0 <= n < |s| && s[n] == t;
      CountWherePositive(s, PeriodOf(keyOf, c), k9);
      CountWherePositive(s, PeriodOf(keyOf, c), k10);
    }
    assert PointOf(s, keyOf, c, k9) in r && PointOf(s, keyOf, c, k10) in r;
    var a :| 0 <= a < |r| && r[a] == PointOf(s, keyOf, c, k10);
    var b :| 0 <= b < |r| && r[b] == PointOf(s, keyOf, c, k9);
    if b < a {
      assert false;
    }
    assert a != b;
  }

  /** What the forEach of `aggregateCoursePerformance` has built after walking `s`. */
  ghost predicate Aggregated(s: seq<Task>, keyOf: string -> string, result: map<string, map<string, TrendSums>>, periodOrder: map<string, seq<string>>)
  {
    SameGroups(result, periodOrder) && OrdersSeen(s, keyOf, periodOrder) && SumsRight(s, keyOf, result)
  }

  /** The sums and the period orders have the same courses and, per course, the same periods. */
  ghost predicate SameGroups(result: map<string, map<string, TrendSums>>, periodOrder: map<string, seq<string>>)
  {
    (forall c :: c in result <==> c in periodOrder)
    && (forall c, p :: c in result ==> (p in result[c] <==> p in periodOrder[c]))
  }

  /** Each course's periods, in the order they first appear in `s`. */
  ghost predicate OrdersSeen(s: seq<Task>, keyOf: string -> string, periodOrder: map<string, seq<string>>)
  {
    forall c :: FirstSeenKeys(s, PeriodOf(keyOf, c)) == if c in periodOrder then periodOrder[c] else []
  }

  /** Each group holds the sums of its tasks in `s`. */
  ghost predicate SumsRight(s: seq<Task>, keyOf: string -> string, result: map<string, map<string, TrendSums>>)
  {
    forall c, p :: c in result && p in result[c] ==> result[c][p] == SumsOf(s, keyOf, c, p)
  }

  /**
   * The forEach of `aggregateCoursePerformance`: `result[courseId][period]`
   * collects the sums, each course's periods kept in the order they first
   * appear.
   */
  method Aggregate(completed: seq<Task>, keyOf: string -> string)
    returns (result: map<string, map<string, TrendSums>>, periodOrder: map<string, seq<string>>)
    ensures Aggregated(completed, keyOf, result, periodOrder)
  {
    result := map[];
    periodOrder := map[];
    AggregatedEmpty(keyOf);
    assert completed[..0] == [];
    var i := 0;
    while i < |completed|
      invariant 0 <= i <= |completed|
      invariant Aggregated(completed[..i], keyOf, result, periodOrder)
    {
      var t := completed[i];
      assert completed[..i + 1] == completed[..i] + [t];
      var result', periodOrder' := Step(t, keyOf, result, periodOrder);
      AggregateStep(completed[..i], t, keyOf, result, periodOrder, result', periodOrder');
      result, periodOrder := result', periodOrder';
      i := i + 1;
    }
    assert completed[..i] == completed;
  }

  /** One task of the forEach: its sums go into `result[courseId][period]`. */
  method Step(t: Task, keyOf: string -> string, before: map<string, map<string, TrendSums>>, orderBefore: map<string, seq<string>>)
    returns (result: map<string, map<string, TrendSums>>, periodOrder: map<string, seq<string>>)
    ensures Stepped(t, keyOf, before, orderBefore, result, periodOrder)
  {
    result, periodOrder := before, orderBefore;
    if Contributes(t) {
      var c := t.courseId;
      var p := keyOf(t.completionDate.value);
      var row := if c in before then before[c] else map[];
      var order := if c in orderBefore then orderBefore[c] else [];
      var b := if p in row then row[p] else TrendSums(0, 0, 0);
      result := before[c := row[p := TrendSums(b.success + SuccessOf(t), b.focus + FocusOf(t), b.count + 1)]];
      periodOrder := orderBefore[c := if p in row then order else order + [p]];
    }
  }

  lemma AggregatedEmpty(keyOf: string -> string)
    ensures Aggregated([], keyOf, map[], map[])
  {
  }

  /** The state one step of the forEach leaves. */
  ghost predicate Stepped(t: Task, keyOf: string -> string,
                          before: map<string, map<string, TrendSums>>, orderBefore: map<string, seq<string>>,
                          result: map<string, map<string, TrendSums>>, periodOrder: map<string, seq<string>>)
  {
    if !Contributes(t) then result == before && periodOrder == orderBefore
    else
      var c, p := t.courseId, keyOf(t.completionDate.value);
      var row := if c in before then before[c] else map[];
      var order := if c in orderBefore then orderBefore[c] else [];
      var b := if p in row then row[p] else TrendSums(0, 0, 0);
      && result == before[c := row[p := TrendSums(b.success + SuccessOf(t), b.focus + FocusOf(t), b.count + 1)]]
      && periodOrder == orderBefore[c := if p in row then order else order + [p]]
  }

  /** One step of the forEach keeps the sums and period orders right. */
  lemma AggregateStep(prefix: seq<Task>, t: Task, keyOf: string -> string,
                      before: map<string, map<string, TrendSums>>, orderBefore: map<string, seq<string>>,
                      result: map<string, map<string, TrendSums>>, periodOrder: map<string, seq<string>>)
    requires Aggregated(prefix, keyOf, before, orderBefore)
    requires Stepped(t, keyOf, before, orderBefore, result, periodOrder)
    ensures Aggregated(prefix + [t], keyOf, result, periodOrder)
  {
    StepGroups(t, keyOf, before, orderBefore, result, periodOrder);
    StepOrders(prefix, t, keyOf, before, orderBefore, result, periodOrder);
    forall c, p | c in result && p in result[c] ensures result[c][p] == SumsOf(prefix + [t], keyOf, c, p) {
      if !(c in before && p in before[c]) {
        FirstSeenKeysAre(prefix, PeriodOf(keyOf, c));
      }
      StepSums(prefix, t, keyOf, before, result, c, p);
    }
  }

  lemma StepGroups(t: Task, keyOf: string -> string,
                   before: map<string, map<string, TrendSums>>, orderBefore: map<string, seq<string>>,
                   result: map<string, map<string, TrendSums>>, periodOrder: map<string, seq<string>>)
    requires SameGroups(before, orderBefore)
    requires Stepped(t, keyOf, before, orderBefore, result, periodOrder)
    ensures SameGroups(result, periodOrder)
  {
  }

  lemma StepOrders(prefix: seq<Task>, t: Task, keyOf: string -> string,
                   before: map<string, map<string, TrendSums>>, orderBefore: map<string, seq<string>>,
                   result: map<string, map<string, TrendSums>>, periodOrder: map<string, seq<string>>)
    requires Aggregated(prefix, keyOf, before, orderBefore)
    requires Stepped(t, keyOf, before, orderBefore, result, periodOrder)
    ensures OrdersSeen(prefix + [t], keyOf, periodOrder)
  {
    forall c ensures FirstSeenKeys(prefix + [t], PeriodOf(keyOf, c)) == if c in periodOrder then periodOrder[c] else [] {
      FirstSeenKeysSnoc(prefix, t, PeriodOf(keyOf, c));
    }
  }

  /** The group (c, p) after one step holds the sums over the walked list and the new task. */
  lemma StepSums(prefix: seq<Task>, t: Task, keyOf: string -> string,
                 before: map<string, map<string, TrendSums>>, result: map<string, map<string, TrendSums>>, c: string, p: string)
    requires c in before && p in before[c] ==> before[c][p] == SumsOf(prefix, keyOf, c, p)
    requires !(c in before && p in before[c]) ==> CountWhere(prefix, PeriodOf(keyOf, c), p) == 0
    requires Contributes(t) ==>
      var row := if t.courseId in before then before[t.courseId] else map[];
      var q := keyOf(t.completionDate.value);
      var b := if q in row then row[q] else TrendSums(0, 0, 0);
      result == before[t.courseId := row[q := TrendSums(b.success + SuccessOf(t), b.focus + FocusOf(t), b.count + 1)]]
    requires !Contributes(t) ==> result == before
    requires c in result && p in result[c]
    ensures result[c][p] == SumsOf(prefix + [t], keyOf, c, p)
  {
    WhereSnoc(prefix, t, PeriodOf(keyOf, c), SuccessOf, p);
    WhereSnoc(prefix, t, PeriodOf(keyOf, c), FocusOf, p);
    if !(c in before && p in before[c]) {
      SumWhereEmpty(prefix, PeriodOf(keyOf, c), SuccessOf, p);
      SumWhereEmpty(prefix, PeriodOf(keyOf, c), FocusOf, p);
    }
  }

  /**
   * `aggregateCoursePerformance`: the completed tasks with a date are
   * summed per course and period, and every course with a group gets its
   * series; a course without one is absent, and its series is empty.
   */
  method AggregateCoursePerformance(tasks: seq<Task>, keyOf: string -> string) returns (out: map<string, seq<TrendPoint>>)
    ensures forall c :: c in out ==> out[c] == Series(Filter(tasks, CompletedWithDate), keyOf, c)
    ensures forall c :: c !in out ==> Series(Filter(tasks, CompletedWithDate), keyOf, c) == []
  {
    var completed := Filter(tasks, CompletedWithDate);
    var result, periodOrder := Aggregate(completed, keyOf);
    out := SeriesByCourse(completed, keyOf, result, periodOrder);
  }

  /** The `Object.entries(result).forEach` that builds `out`, one course at a time. */
  method SeriesByCourse(completed: seq<Task>, keyOf: string -> string,
                        result: map<string, map<string, TrendSums>>, periodOrder: map<string, seq<string>>)
    returns (out: map<string, seq<TrendPoint>>)
    requires Aggregated(completed, keyOf, result, periodOrder)
    ensures forall c :: c in out <==> c in result
    ensures forall c :: c in out ==> out[c] == Series(completed, keyOf, c)
    ensures forall c :: c !in out ==> Series(completed, keyOf, c) == []
  {
    out := map[];
    var remaining := result.Keys;
    while remaining != {}
      invariant remaining <= result.Keys
      invariant forall c :: c in out <==> c in result && c !in remaining
      invariant forall c :: c in out ==> out[c] == Series(completed, keyOf, c)
      decreases remaining
    {
      var c :| c in remaining;
      var points := CourseSeries(completed, keyOf, result, periodOrder, c);
      out := out[c := points];
      remaining := remaining - {c};
    }
    forall c | c !in out ensures Series(completed, keyOf, c) == [] {
      AbsentCourseSeries(completed, keyOf, periodOrder, c);
    }
  }

  /** A course the walk never met has no periods, so an empty series. */
  lemma AbsentCourseSeries(completed: seq<Task>, keyOf: string -> string, periodOrder: map<string, seq<string>>, c: string)
    requires OrdersSeen(completed, keyOf, periodOrder) && c !in periodOrder
    ensures Series(completed, keyOf, c) == []
  {
    assert FirstSeenKeys(completed, PeriodOf(keyOf, c)) == [];
  }

  /** The data one course's chart gets: `dataByCourse[course.id] || []`. */
  function DataFor(out: map<string, seq<TrendPoint>>): Course -> seq<TrendPoint>
  {
    (course: Course) => if course.id in out then out[course.id] else []
  }

  /** The view: `courses.map`, every course of the list given its own series. */
  method CourseTrendSeries(tasks: seq<Task>, courses: seq<Course>, keyOf: string -> string) returns (series: seq<seq<TrendPoint>>)
    ensures |series| == |courses|
    ensures forall i :: 0 <= i < |courses| ==> series[i] == Series(Filter(tasks, CompletedWithDate), keyOf, courses[i].id)
  {
    var out := AggregateCoursePerformance(tasks, keyOf);
    series := MapSeq(courses, DataFor(out));
  }

  /** One course's entry of the view: its periods' points, sorted by period key. */
  method CourseSeries(completed: seq<Task>, keyOf: string -> string,
                      result: map<string, map<string, TrendSums>>, periodOrder: map<string, seq<string>>, c: string)
    returns (series: seq<TrendPoint>)
    requires Aggregated(completed, keyOf, result, periodOrder)
    ensures series == Series(completed, keyOf, c)
  {
    PeriodOrderIsTotal();
    var order := if c in periodOrder then periodOrder[c] else [];
    var row := if c in result then result[c] else map[];
    FirstSeenKeysAre(completed, PeriodOf(keyOf, c));
    var points := PointsFromSums(completed, keyOf, c, row, order);
    series := SortBy(points, PeriodNoLater);
  }

  /** The averages of one course's groups, in the order of `order`. */
  method PointsFromSums(completed: seq<Task>, keyOf: string -> string, c: string, row: map<string, TrendSums>, order: seq<string>)
    returns (points: seq<TrendPoint>)
    requires forall p :: p in order ==> p in row && row[p] == SumsOf(completed, keyOf, c, p) && row[p].count > 0
    ensures points == PointsOf(completed, keyOf, c, order)
  {
    points := [];
    var k := 0;
    while k < |order|
      invariant 0 <= k <= |order|
      invariant points == PointsOf(completed, keyOf, c, order[..k])
    {
      var p := order[k];
      var b: TrendSums := row[p];
      assert order[..k + 1] == order[..k] + [p];
      points := points + [TrendPoint(p, RoundDiv(b.success, b.count), RoundDiv(b.focus, b.count))];
      k := k + 1;
    }
    assert order[..k] == order;
  }
}

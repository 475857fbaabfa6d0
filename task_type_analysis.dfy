// The task type analysis: completed tasks with a completion date, a success
// score and a measured duration are grouped by period key and by task type;
// only the greatest period key is reported, as three rows (question solving,
// study, reading) of rounded average score and average minutes.
module TaskTypeAnalysis {
  import opened Base
  import opened Types
  import opened Lists
  import opened Tally
  import opened Numeric
  import Text
  import Periods

  /** The filter of the `useMemo`: completed, dated, scored and timed. */
  predicate Qualifies(t: Task)
  {
    t.status == Completed && TruthyText(t.completionDate) && t.successScore.Some? && t.actualDuration.Some?
  }

  /** The period key of a counted task. */
  function PeriodKeyOf(keyOf: string -> string): Task -> Option<string>
  {
    (t: Task) => if Qualifies(t) then Some(keyOf(t.completionDate.value)) else None
  }

  /** The (period key, task type) group of a counted task. */
  function TypeKeyOf(keyOf: string -> string): Task -> Option<(string, TaskType)>
  {
    (t: Task) => if Qualifies(t) then Some((keyOf(t.completionDate.value), t.taskType)) else None
  }

  function ScoreOf(t: Task): int
  {
    if t.successScore.Some? then t.successScore.value else 0
  }

  function DurationOf(t: Task): int
  {
    if t.actualDuration.Some? then t.actualDuration.value else 0
  }

  /** `{ totalScore, totalDuration, count }` of one group. */
  datatype TypeSums = TypeSums(score: int, duration: int, count: nat)

  /** A row of the result: the type's label, its average score and its average minutes. */
  datatype TypeRow = TypeRow(taskType: string, avgScore: int, avgDuration: int)

  /** `taskTypeLabels`, in its key order. */
  const TypeOrder: seq<TaskType> := [QuestionSolving, Study, Reading]

  function TypeLabel(ty: TaskType): string
  {
    match ty
    case QuestionSolving => "Soru Çözme"
    case Study => "Ders Çalışma"
    case Reading => "Kitap Okuma"
  }

  /** The sums of group (p, ty) over `s`. */
  function SumsOf(s: seq<Task>, keyOf: string -> string, p: string, ty: TaskType): TypeSums
  {
    TypeSums(SumWhere(s, TypeKeyOf(keyOf), ScoreOf, (p, ty)), SumWhere(s, TypeKeyOf(keyOf), DurationOf, (p, ty)),
             CountWhere(s, TypeKeyOf(keyOf), (p, ty)))
  }

  /** The row of type `ty` in period `p`: 0 and 0 for an empty group, else the rounded averages. */
  function RowOf(s: seq<Task>, keyOf: string -> string, p: string, ty: TaskType): TypeRow
  {
    var b := SumsOf(s, keyOf, p, ty);
    if b.count == 0 then TypeRow(TypeLabel(ty), 0, 0)
    else TypeRow(TypeLabel(ty), RoundDiv(b.score, b.count), RoundDiv(b.duration, b.count * 60))
  }

  /** `Object.keys(grouped).sort().pop()`: the last of the period keys in text order. */
  function LatestKey(s: seq<Task>, keyOf: string -> string): Option<string>
  {
    Periods.StrLeIsTotalPreorder();
    var sorted := SortBy(FirstSeenKeys(s, PeriodKeyOf(keyOf)), Text.StrLe);
    if |sorted| == 0 then None else Some(sorted[|sorted| - 1])
  }

  /** The result of the `useMemo` over the counted tasks `s`. */
  function Report(s: seq<Task>, keyOf: string -> string): seq<TypeRow>
  {
    RowsFor(s, keyOf, LatestKey(s, keyOf))
  }

  /** The three rows of period `last`, or none when there is no (non-empty) period. */
  function RowsFor(s: seq<Task>, keyOf: string -> string, last: Option<string>): seq<TypeRow>
  {
    if last.Some? && last.value != "" then
      [RowOf(s, keyOf, last.value, QuestionSolving), RowOf(s, keyOf, last.value, Study), RowOf(s, keyOf, last.value, Reading)]
    else []
  }

  /** Some counted task of `s` has the period key `k`. */
  ghost predicate KeyOfSome(s: seq<Task>, keyOf: string -> string, k: string)
  {
    exists t :: t in s && Qualifies(t) && keyOf(t.completionDate.value) == k
  }

  /** The walk collects exactly the period keys of the counted tasks. */
  lemma KeysPresent(s: seq<Task>, keyOf: string -> string, k: string)
    ensures k in FirstSeenKeys(s, PeriodKeyOf(keyOf)) <==> KeyOfSome(s, keyOf, k)
  {
    FirstSeenKeysAre(s, PeriodKeyOf(keyOf));
    CountWherePositive(s, PeriodKeyOf(keyOf), k);
    if KeyOfSome(s, keyOf, k) {
      var t :| t in s && Qualifies(t) && keyOf(t.completionDate.value) == k;
      var i :| 0 <= i < |s| && s[i] == t;
      assert PeriodKeyOf(keyOf)(s[i]) == Some(k);
    }
    if CountWhere(s, PeriodKeyOf(keyOf), k) > 0 {
      var i :| 0 <= i < |s| && PeriodKeyOf(keyOf)(s[i]) == Some(k);
      assert s[i] in s;
    }
  }

  /** The last element of a list sorted as text is its greatest. */
  lemma LastIsGreatest(sorted: seq<string>)
    requires |sorted| > 0 && SortedBy(sorted, Text.StrLe)
    ensures forall x :: x in sorted ==> Text.StrLe(x, sorted[|sorted| - 1])
  {
    forall x | x in sorted ensures Text.StrLe(x, sorted[|sorted| - 1]) {
      var k :| 0 <= k < |sorted| && sorted[k] == x;
      if k == |sorted| - 1 {
        Text.StrLeTotal(x, x);
      }
    }
  }

  /**
   * The reported period is the greatest key of a counted task, and there is
   * one exactly when some task is counted.
   */
  lemma LatestIsGreatest(s: seq<Task>, keyOf: string -> string)
    ensures LatestKey(s, keyOf).None? <==> forall t :: t in s ==> !Qualifies(t)
    ensures LatestKey(s, keyOf).Some? ==>
      KeyOfSome(s, keyOf, LatestKey(s, keyOf).value)
      && forall t :: t in s && Qualifies(t) ==> Text.StrLe(keyOf(t.completionDate.value), LatestKey(s, keyOf).value)
  {
    Periods.StrLeIsTotalPreorder();
    var keys := FirstSeenKeys(s, PeriodKeyOf(keyOf));
    var sorted := SortBy(keys, Text.StrLe);
    PermutationSameMembers(keys, sorted);
    forall t | t in s && Qualifies(t) ensures keyOf(t.completionDate.value) in sorted {
      KeysPresent(s, keyOf, keyOf(t.completionDate.value));
    }
    if |sorted| > 0 {
      KeysPresent(s, keyOf, sorted[|sorted| - 1]);
      LastIsGreatest(sorted);
    }
  }

  /**
   * With data there are three rows, in label order; without a (non-empty)
   * latest key there are none. A type without tasks in the period reads 0
   * and 0; otherwise the row holds the rounded averages of the group, the
   * duration in minutes.
   */
  lemma ReportRows(s: seq<Task>, keyOf: string -> string)
    ensures var r := Report(s, keyOf); var last := LatestKey(s, keyOf);
      (r == [] <==> last.None? || last.value == "")
      && (r != [] ==> |r| == 3 && forall i :: 0 <= i < 3 ==> r[i].taskType == TypeLabel(TypeOrder[i]))
      && (r != [] ==> forall i :: 0 <= i < 3 ==>
            var n := CountWhere(s, TypeKeyOf(keyOf), (last.value, TypeOrder[i]));
            (n == 0 ==> r[i].avgScore == 0 && r[i].avgDuration == 0)
            && (n > 0 ==>
              2 * n * r[i].avgScore - n <= 2 * SumWhere(s, TypeKeyOf(keyOf), ScoreOf, (last.value, TypeOrder[i])) < 2 * n * r[i].avgScore + n)
            && (n > 0 ==>
              var m := n * 60;
              2 * m * r[i].avgDuration - m <= 2 * SumWhere(s, TypeKeyOf(keyOf), DurationOf, (last.value, TypeOrder[i])) < 2 * m * r[i].avgDuration + m))
  {
    var last := LatestKey(s, keyOf);
    if last.Some? && last.value != "" {
      var r := Report(s, keyOf);
      forall i | 0 <= i < 3 ensures r[i] == RowOf(s, keyOf, last.value, TypeOrder[i]) {
      }
      forall i | 0 <= i < 3 ensures RowIsMean(s, keyOf, last.value, TypeOrder[i], r[i]) {
        RowOfIsMean(s, keyOf, last.value, TypeOrder[i]);
      }
    }
  }

  /**
   * `row` is the row of type `ty`: its label, and 0 and 0 for an empty group,
   * or else the mean score and the mean duration in minutes, each rounded to
   * the nearest whole number.
   */
  predicate RowIsMean(s: seq<Task>, keyOf: string -> string, p: string, ty: TaskType, row: TypeRow)
  {
    var n := CountWhere(s, TypeKeyOf(keyOf), (p, ty));
    var m := n * 60;
    row.taskType == TypeLabel(ty)
    && (n == 0 ==> row.avgScore == 0 && row.avgDuration == 0)
    && (n > 0 ==> 2 * n * row.avgScore - n <= 2 * SumWhere(s, TypeKeyOf(keyOf), ScoreOf, (p, ty)) < 2 * n * row.avgScore + n)
    && (n > 0 ==> 2 * m * row.avgDuration - m <= 2 * SumWhere(s, TypeKeyOf(keyOf), DurationOf, (p, ty)) < 2 * m * row.avgDuration + m)
  }

  lemma RowOfIsMean(s: seq<Task>, keyOf: string -> string, p: string, ty: TaskType)
    ensures RowIsMean(s, keyOf, p, ty, RowOf(s, keyOf, p, ty))
  {
  }

  /** With scores in [0, 100] and durations not negative, the averages are too. */
  lemma ReportBounds(s: seq<Task>, keyOf: string -> string)
    requires forall t :: t in s ==> 0 <= ScoreOf(t) <= 100 && 0 <= DurationOf(t)
    ensures forall row :: row in Report(s, keyOf) ==> 0 <= row.avgScore <= 100 && 0 <= row.avgDuration
  {
    var last := LatestKey(s, keyOf);
    assert Report(s, keyOf) == RowsFor(s, keyOf, last);
    if last.Some? && last.value != "" {
      RowBounds(s, keyOf, last.value, QuestionSolving);
      RowBounds(s, keyOf, last.value, Study);
      RowBounds(s, keyOf, last.value, Reading);
    }
  }

  lemma RowBounds(s: seq<Task>, keyOf: string -> string, p: string, ty: TaskType)
    requires forall t :: t in s ==> 0 <= ScoreOf(t) <= 100 && 0 <= DurationOf(t)
    ensures 0 <= RowOf(s, keyOf, p, ty).avgScore <= 100 && 0 <= RowOf(s, keyOf, p, ty).avgDuration
  {
    var b := SumsOf(s, keyOf, p, ty);
    if b.count > 0 {
      SumWhereBounds(s, TypeKeyOf(keyOf), ScoreOf, (p, ty), 0, 100);
      SumWhereNonNegative(s, TypeKeyOf(keyOf), DurationOf, (p, ty));
      RoundedMeanBounds(b.score, b.count, 0, 100);
    }
  }

  /** `latest` is a counted task no counted task's week or month comes after. */
  ghost predicate IsMostRecent(s: seq<Task>, p: Periods.Period, dateOf: string -> Periods.CalendarDate, latest: Task)
  {
    latest in s && Qualifies(latest)
    && forall t :: t in s && Qualifies(t) ==>
      var d, dl := dateOf(t.completionDate.value), dateOf(latest.completionDate.value);
      d.year < dl.year || (d.year == dl.year && Periods.IndexInYear(p, d) <= Periods.IndexInYear(p, dl))
  }

  /**
   * With padded weekly or monthly keys the reported period is the one of the
   * most recent counted task.
   */
  lemma LatestIsMostRecent(s: seq<Task>, p: Periods.Period, dateOf: string -> Periods.CalendarDate)
    requires p != Periods.Daily
    requires forall t :: t in s && Qualifies(t) ==> Periods.ValidDate(dateOf(t.completionDate.value))
    requires exists t :: t in s && Qualifies(t)
    ensures exists latest ::
      IsMostRecent(s, p, dateOf, latest) && LatestKey(s, Periods.GroupBy(p, dateOf)) == Some(Periods.PeriodKey(p, dateOf(latest.completionDate.value)))
  {
    var keyOf := Periods.GroupBy(p, dateOf);
    LatestIsGreatest(s, keyOf);
    var last := LatestKey(s, keyOf).value;
    var latest :| latest in s && Qualifies(latest) && keyOf(latest.completionDate.value) == last;
    assert last == Periods.PeriodKey(p, dateOf(latest.completionDate.value));
    forall t | t in s && Qualifies(t) ensures Text.StrLe(Periods.PeriodKey(p, dateOf(t.completionDate.value)), last) {
      assert keyOf(t.completionDate.value) == Periods.PeriodKey(p, dateOf(t.completionDate.value));
    }
    GreatestKeyIsMostRecent(s, p, dateOf, latest);
  }

  /** A counted task whose key no counted task's key exceeds is the most recent one. */
  lemma GreatestKeyIsMostRecent(s: seq<Task>, p: Periods.Period, dateOf: string -> Periods.CalendarDate, latest: Task)
    requires p != Periods.Daily
    requires forall t :: t in s && Qualifies(t) ==> Periods.ValidDate(dateOf(t.completionDate.value))
    requires latest in s && Qualifies(latest)
    requires forall t :: t in s && Qualifies(t) ==>
      Text.StrLe(Periods.PeriodKey(p, dateOf(t.completionDate.value)), Periods.PeriodKey(p, dateOf(latest.completionDate.value)))
    ensures IsMostRecent(s, p, dateOf, latest)
  {
    forall t | t in s && Qualifies(t)
      ensures var d, dl := dateOf(t.completionDate.value), dateOf(latest.completionDate.value);
        d.year < dl.year || (d.year == dl.year && Periods.IndexInYear(p, d) <= Periods.IndexInYear(p, dl))
    {
      Periods.KeysFollowCalendar(p, dateOf(t.completionDate.value), dateOf(latest.completionDate.value));
    }
  }

  /**
   * As written, with tasks in weeks 9 and 10 of one year and nothing later,
   * the analysis reports week 9.
   */
  lemma LatestPicksWeekNine(s: seq<Task>, dateOf: string -> Periods.CalendarDate, t9: Task, t10: Task)
    requires t9 in s && t10 in s && Qualifies(t9) && Qualifies(t10)
    requires var d9, d10 := dateOf(t9.completionDate.value), dateOf(t10.completionDate.value);
      d9.year == d10.year && Periods.WeekOfYear(d9) == 9 && Periods.WeekOfYear(d10) == 10
    requires forall t :: t in s && Qualifies(t) ==>
      var d := dateOf(t.completionDate.value);
      d.year == dateOf(t9.completionDate.value).year && 9 <= Periods.WeekOfYear(d) <= 10
    ensures LatestKey(s, Periods.GroupByAsWritten(Periods.Weekly, dateOf)) == Some(Periods.WeekKeyAsWritten(dateOf(t9.completionDate.value)))
  {
    var keyOf := Periods.GroupByAsWritten(Periods.Weekly, dateOf);
    var d9, d10 := dateOf(t9.completionDate.value), dateOf(t10.completionDate.value);
    var key9, key10 := Periods.WeekKeyAsWritten(d9), Periods.WeekKeyAsWritten(d10);
    LatestIsGreatest(s, keyOf);
    Periods.UnpaddedWeeksMisorder(d9, d10);
    var last := LatestKey(s, keyOf).value;
    var latest :| latest in s && Qualifies(latest) && keyOf(latest.completionDate.value) == last;
    var dl := dateOf(latest.completionDate.value);
    assert keyOf(latest.completionDate.value) == Periods.WeekKeyAsWritten(dl);
    assert keyOf(t9.completionDate.value) == key9;
    assert Text.StrLe(key9, last);
    assert last == key9 || last == key10 by {
      assert dl.year == d9.year;
      if Periods.WeekOfYear(dl) == 9 {
        Periods.SameWeekSameKey(dl, d9);
      } else {
        Periods.SameWeekSameKey(dl, d10);
      }
    }
    assert last != key10;
  }

  /** Every type's count in a period is at most the period's count. */
  lemma {:induction false} TypeCountBelowPeriod(s: seq<Task>, keyOf: string -> string, p: string, ty: TaskType)
    ensures CountWhere(s, TypeKeyOf(keyOf), (p, ty)) <= CountWhere(s, PeriodKeyOf(keyOf), p)
  {
    if |s| > 0 {
      TypeCountBelowPeriod(s[1..], keyOf, p, ty);
    }
  }

  /** What the forEach has built after walking `s`: the groups and the key order of `grouped`. */
  ghost predicate Grouped(s: seq<Task>, keyOf: string -> string, grouped: map<string, map<TaskType, TypeSums>>, order: seq<string>)
  {
    order == FirstSeenKeys(s, PeriodKeyOf(keyOf))
    && (forall p :: p in grouped <==> CountWhere(s, PeriodKeyOf(keyOf), p) > 0)
    && (forall p, ty :: p in grouped ==> (ty in grouped[p] <==> CountWhere(s, TypeKeyOf(keyOf), (p, ty)) > 0))
    && (forall p, ty :: p in grouped && ty in grouped[p] ==> grouped[p][ty] == SumsOf(s, keyOf, p, ty))
  }

  /** The state one step of the forEach leaves. */
  ghost predicate Stepped(t: Task, keyOf: string -> string,
                          before: map<string, map<TaskType, TypeSums>>, orderBefore: seq<string>,
                          after: map<string, map<TaskType, TypeSums>>, orderAfter: seq<string>)
  {
    if !Qualifies(t) then after == before && orderAfter == orderBefore
    else
      var p, ty := keyOf(t.completionDate.value), t.taskType;
      var row := if p in before then before[p] else map[];
      var b := if ty in row then row[ty] else TypeSums(0, 0, 0);
      && after == before[p := row[ty := TypeSums(b.score + ScoreOf(t), b.duration + DurationOf(t), b.count + 1)]]
      && orderAfter == if p in before then orderBefore else orderBefore + [p]
  }

  /** One task of the forEach: its score and duration go into `grouped[pKey][taskType]`. */
  method Step(t: Task, keyOf: string -> string, before: map<string, map<TaskType, TypeSums>>, orderBefore: seq<string>)
    returns (after: map<string, map<TaskType, TypeSums>>, orderAfter: seq<string>)
    ensures Stepped(t, keyOf, before, orderBefore, after, orderAfter)
  {
    after, orderAfter := before, orderBefore;
    if Qualifies(t) {
      var p := keyOf(t.completionDate.value);
      var ty := t.taskType;
      var row := if p in before then before[p] else map[];
      var b := if ty in row then row[ty] else TypeSums(0, 0, 0);
      after := before[p := row[ty := TypeSums(b.score + ScoreOf(t), b.duration + DurationOf(t), b.count + 1)]];
      orderAfter := if p in before then orderBefore else orderBefore + [p];
    }
  }

  lemma StepCounts(prefix: seq<Task>, t: Task, keyOf: string -> string,
                   before: map<string, map<TaskType, TypeSums>>, orderBefore: seq<string>,
                   after: map<string, map<TaskType, TypeSums>>, orderAfter: seq<string>, p: string, ty: TaskType)
    requires Grouped(prefix, keyOf, before, orderBefore)
    requires Stepped(t, keyOf, before, orderBefore, after, orderAfter)
    ensures p in after <==> CountWhere(prefix + [t], PeriodKeyOf(keyOf), p) > 0
    ensures p in after ==> (ty in after[p] <==> CountWhere(prefix + [t], TypeKeyOf(keyOf), (p, ty)) > 0)
  {
    WhereSnoc(prefix, t, PeriodKeyOf(keyOf), DurationOf, p);
    WhereSnoc(prefix, t, TypeKeyOf(keyOf), DurationOf, (p, ty));
    TypeCountBelowPeriod(prefix, keyOf, p, ty);
  }

  lemma StepSums(prefix: seq<Task>, t: Task, keyOf: string -> string,
                 before: map<string, map<TaskType, TypeSums>>, orderBefore: seq<string>,
                 after: map<string, map<TaskType, TypeSums>>, orderAfter: seq<string>, p: string, ty: TaskType)
    requires Grouped(prefix, keyOf, before, orderBefore)
    requires Stepped(t, keyOf, before, orderBefore, after, orderAfter)
    requires p in after && ty in after[p]
    ensures after[p][ty] == SumsOf(prefix + [t], keyOf, p, ty)
  {
    WhereSnoc(prefix, t, TypeKeyOf(keyOf), ScoreOf, (p, ty));
    WhereSnoc(prefix, t, TypeKeyOf(keyOf), DurationOf, (p, ty));
    if p !in before || ty !in before[p] {
      if p !in before {
        TypeCountBelowPeriod(prefix, keyOf, p, ty);
      }
      SumWhereEmpty(prefix, TypeKeyOf(keyOf), ScoreOf, (p, ty));
      SumWhereEmpty(prefix, TypeKeyOf(keyOf), DurationOf, (p, ty));
    }
  }

  /** One step of the forEach keeps the groups and the key order right. */
  lemma GroupStep(prefix: seq<Task>, t: Task, keyOf: string -> string,
                  before: map<string, map<TaskType, TypeSums>>, orderBefore: seq<string>,
                  after: map<string, map<TaskType, TypeSums>>, orderAfter: seq<string>)
    requires Grouped(prefix, keyOf, before, orderBefore)
    requires Stepped(t, keyOf, before, orderBefore, after, orderAfter)
    ensures Grouped(prefix + [t], keyOf, after, orderAfter)
  {
    FirstSeenKeysSnoc(prefix, t, PeriodKeyOf(keyOf));
    FirstSeenKeysAre(prefix, PeriodKeyOf(keyOf));
    forall p ensures p in after <==> CountWhere(prefix + [t], PeriodKeyOf(keyOf), p) > 0 {
      StepCounts(prefix, t, keyOf, before, orderBefore, after, orderAfter, p, QuestionSolving);
    }
    forall p, ty | p in after ensures ty in after[p] <==> CountWhere(prefix + [t], TypeKeyOf(keyOf), (p, ty)) > 0 {
      StepCounts(prefix, t, keyOf, before, orderBefore, after, orderAfter, p, ty);
    }
    forall p, ty | p in after && ty in after[p] ensures after[p][ty] == SumsOf(prefix + [t], keyOf, p, ty) {
      StepSums(prefix, t, keyOf, before, orderBefore, after, orderAfter, p, ty);
    }
  }

  lemma GroupedEmpty(keyOf: string -> string)
    ensures Grouped([], keyOf, map[], [])
  {
  }

  /** The forEach filling `grouped`, with the key order of the dictionary beside it. */
  method Group(filtered: seq<Task>, keyOf: string -> string)
    returns (grouped: map<string, map<TaskType, TypeSums>>, order: seq<string>)
    ensures Grouped(filtered, keyOf, grouped, order)
  {
    grouped, order := map[], [];
    GroupedEmpty(keyOf);
    assert filtered[..0] == [];
    var i := 0;
    while i < |filtered|
      invariant 0 <= i <= |filtered|
      invariant Grouped(filtered[..i], keyOf, grouped, order)
    {
      var t := filtered[i];
      assert filtered[..i + 1] == filtered[..i] + [t];
      var grouped', order' := Step(t, keyOf, grouped, order);
      GroupStep(filtered[..i], t, keyOf, grouped, order, grouped', order');
      grouped, order := grouped', order';
      i := i + 1;
    }
    assert filtered[..i] == filtered;
  }

  /** What the row loop reads from `grouped` at the reported period. */
  lemma GroupedRow(s: seq<Task>, keyOf: string -> string, grouped: map<string, map<TaskType, TypeSums>>, order: seq<string>,
                   last: string, ty: TaskType)
    requires Grouped(s, keyOf, grouped, order) && last in order
    ensures last in grouped
    ensures ty in grouped[last] ==>
      grouped[last][ty].count > 0
      && RowOf(s, keyOf, last, ty) == TypeRow(TypeLabel(ty), RoundDiv(grouped[last][ty].score, grouped[last][ty].count),
                                             RoundDiv(grouped[last][ty].duration, grouped[last][ty].count * 60))
    ensures ty !in grouped[last] ==> RowOf(s, keyOf, last, ty) == TypeRow(TypeLabel(ty), 0, 0)
  {
    FirstSeenKeysAre(s, PeriodKeyOf(keyOf));
  }

  /** The `for` loop over the types: one row each, read from `grouped[lastPeriod]`. */
  method RowsAt(filtered: seq<Task>, keyOf: string -> string, grouped: map<string, map<TaskType, TypeSums>>, order: seq<string>,
                last: string) returns (rows: seq<TypeRow>)
    requires Grouped(filtered, keyOf, grouped, order) && last in order
    ensures rows == [RowOf(filtered, keyOf, last, QuestionSolving), RowOf(filtered, keyOf, last, Study), RowOf(filtered, keyOf, last, Reading)]
  {
    GroupedRow(filtered, keyOf, grouped, order, last, QuestionSolving);
    rows := [];
    var j := 0;
    while j < |TypeOrder|
      invariant 0 <= j <= |TypeOrder|
      invariant |rows| == j
      invariant forall k :: 0 <= k < j ==> rows[k] == RowOf(filtered, keyOf, last, TypeOrder[k])
    {
      var ty := TypeOrder[j];
      GroupedRow(filtered, keyOf, grouped, order, last, ty);
      if ty in grouped[last] {
        var entry: TypeSums := grouped[last][ty];
        rows := rows + [TypeRow(TypeLabel(ty), RoundDiv(entry.score, entry.count), RoundDiv(entry.duration, entry.count * 60))];
      } else {
        rows := rows + [TypeRow(TypeLabel(ty), 0, 0)];
      }
      j := j + 1;
    }
  }

  /** The latest key is the last of the dictionary's keys once sorted. */
  lemma LatestFromOrder(s: seq<Task>, keyOf: string -> string, order: seq<string>)
    requires order == FirstSeenKeys(s, PeriodKeyOf(keyOf))
    ensures Lists.IsTotalPreorder(Text.StrLe)
    ensures var sorted := SortBy(order, Text.StrLe);
      LatestKey(s, keyOf) == if |sorted| == 0 then None else Some(sorted[|sorted| - 1])
    ensures forall k :: k in SortBy(order, Text.StrLe) ==> k in order
  {
    Periods.StrLeIsTotalPreorder();
    PermutationSameMembers(order, SortBy(order, Text.StrLe));
  }

  /** The `useMemo`: group, take the greatest period key and build one row per type. */
  method TaskTypeData(tasks: seq<Task>, keyOf: string -> string) returns (rows: seq<TypeRow>)
    ensures rows == Report(Filter(tasks, Qualifies), keyOf)
  {
    var filtered := Filter(tasks, Qualifies);
    var grouped, order := Group(filtered, keyOf);
    LatestFromOrder(filtered, keyOf, order);
    var sorted := SortBy(order, Text.StrLe);
    rows := [];
    if |sorted| > 0 && sorted[|sorted| - 1] != "" {
      rows := RowsAt(filtered, keyOf, grouped, order, sorted[|sorted| - 1]);
    }
  }
}

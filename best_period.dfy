// The most productive days and hours: completed, scored tasks with a
// completion time are bucketed by weekday (0 for Sunday) and by hour; each of
// the 7 weekday rows and 24 hour rows shows the bucket's size and its
// rounded average success score.
module BestPeriod {
  import opened Base
  import opened Types
  import opened Lists
  import opened Tally
  import opened Numeric
  import Text

  /** The filter of `completed`: completed, scored and with a (non-zero) completion time. */
  predicate Used(t: Task)
  {
    t.status == Completed && t.successScore.Some? && Truthy(t.completionTimestamp)
  }

  function ScoreOf(t: Task): int
  {
    if t.successScore.Some? then t.successScore.value else 0
  }

  /**
   * The bucket of a used task under `partOf`, the calendar reading of its
   * completion time (`getDay()` or `getHours()`).
   */
  function BucketOf(partOf: int -> int): Task -> Option<int>
  {
    (t: Task) => if Used(t) then Some(partOf(t.completionTimestamp.value)) else None
  }

  /** `WEEKDAYS`. */
  const Weekdays: seq<string> := ["Pazar", "Pazartesi", "Salı", "Çarşamba", "Perşembe", "Cuma", "Cumartesi"]

  /** `HOURS`: "0:00" to "23:00". */
  function HourLabels(): (r: seq<string>)
    ensures |r| == 24 && forall i :: 0 <= i < 24 ==> r[i] == Text.NatToString(i) + ":00"
  {
    seq(24, i requires 0 <= i < 24 => Text.NatToString(i) + ":00")
  }

  /** A chart row: its label, 'Başarı' (the rounded average) and 'Görev' (the bucket size). */
  datatype PeriodRow = PeriodRow(name: string, success: int, tasks: nat)

  function TasksOf(r: PeriodRow): int
  {
    r.tasks
  }

  /** The row of bucket `i`: its size and rounded average, or 0 and 0 when it is empty. */
  function RowFrom(title: string, stats: map<int, Bucket>, i: int): PeriodRow
  {
    if i in stats && stats[i].count > 0 then PeriodRow(title, RoundDiv(stats[i].sum, stats[i].count), stats[i].count)
    else PeriodRow(title, 0, 0)
  }

  /** `LABELS.map((name, i) => …)`. */
  function Rows(labels: seq<string>, stats: map<int, Bucket>): seq<PeriodRow>
  {
    seq(|labels|, i requires 0 <= i < |labels| => RowFrom(labels[i], stats, i))
  }

  /** The rows over the used tasks `s`, bucketed by `partOf`. */
  function ChartRows(s: seq<Task>, partOf: int -> int, labels: seq<string>): seq<PeriodRow>
  {
    Rows(labels, TallyOf(s, BucketOf(partOf), ScoreOf))
  }

  /** What the view shows: the empty state, or the two charts. */
  datatype View = NoData | Charts(weekdays: seq<PeriodRow>, hours: seq<PeriodRow>)

  /**
   * Row i carries label i, counts the tasks of bucket i and holds their
   * rounded average score, or 0 when there are none.
   */
  lemma ChartRowsMeaning(s: seq<Task>, partOf: int -> int, labels: seq<string>)
    ensures var r := ChartRows(s, partOf, labels);
      |r| == |labels|
      && forall i :: 0 <= i < |labels| ==>
        var n := CountWhere(s, BucketOf(partOf), i);
        r[i].name == labels[i] && r[i].tasks == n
        && (n == 0 ==> r[i].success == 0)
        && (n > 0 ==>
          2 * n * r[i].success - n <= 2 * SumWhere(s, BucketOf(partOf), ScoreOf, i) < 2 * n * r[i].success + n)
  {
    forall i | 0 <= i < |labels| {
      TallyAt(s, BucketOf(partOf), ScoreOf, i);
    }
  }

  /** When the calendar puts every task in one of the buckets, the 'Görev' column adds up to the number of used tasks. */
  lemma ChartCountsAddUp(s: seq<Task>, partOf: int -> int, labels: seq<string>)
    requires forall t :: t in s ==> Used(t) && 0 <= partOf(t.completionTimestamp.value) < |labels|
    ensures Total(ChartRows(s, partOf, labels), TasksOf) == |s|
  {
    ChartRowsMeaning(s, partOf, labels);
    TotalOfCounts(ChartRows(s, partOf, labels), TasksOf, s, BucketOf(partOf), 0);
    CountsBetweenAll(s, BucketOf(partOf), 0, |labels|);
  }

  /** With scores in [0, 100], every average in the charts is in [0, 100]. */
  lemma ChartRowsBounds(s: seq<Task>, partOf: int -> int, labels: seq<string>)
    requires forall t :: t in s ==> 0 <= ScoreOf(t) <= 100
    ensures forall row :: row in ChartRows(s, partOf, labels) ==> 0 <= row.success <= 100
  {
    ChartRowsMeaning(s, partOf, labels);
    forall i | 0 <= i < |labels| && CountWhere(s, BucketOf(partOf), i) > 0
      ensures 0 <= ChartRows(s, partOf, labels)[i].success <= 100
    {
      TallyAt(s, BucketOf(partOf), ScoreOf, i);
      SumWhereBounds(s, BucketOf(partOf), ScoreOf, i, 0, 100);
      RoundedMeanBounds(SumWhere(s, BucketOf(partOf), ScoreOf, i), CountWhere(s, BucketOf(partOf), i), 0, 100);
    }
  }

  /**
   * The component: accumulate `dayStats` and `hourStats` over the used
   * tasks, map them onto the 7 weekday and 24 hour rows, and show the empty
   * state when no task is used.
   */
  method BestPeriodView(tasks: seq<Task>, weekdayOf: int -> int, hourOf: int -> int) returns (v: View)
    ensures v.NoData? <==> forall t :: t in tasks ==> !Used(t)
    ensures v.Charts? ==>
      v.weekdays == ChartRows(Filter(tasks, Used), weekdayOf, Weekdays)
      && v.hours == ChartRows(Filter(tasks, Used), hourOf, HourLabels())
  {
    var completed := Filter(tasks, Used);
    var dayStats := Accumulate(completed, BucketOf(weekdayOf), ScoreOf);
    var weekdayData := Rows(Weekdays, dayStats);
    var hourStats := Accumulate(completed, BucketOf(hourOf), ScoreOf);
    var hourData := Rows(HourLabels(), hourStats);
    if |completed| == 0 {
      v := NoData;
    } else {
      assert completed[0] in tasks;
      v := Charts(weekdayData, hourData);
    }
  }
}

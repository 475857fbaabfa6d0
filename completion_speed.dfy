// Planned against actual time: twenty completed tasks with a measured
// duration, each with a shortened title, its planned minutes and its actual
// seconds rounded to whole minutes. As written the chart takes the end of
// the newest-first task list, the twenty oldest (`Data`); the view uses the
// twenty most recent (`RecentData`).
module CompletionSpeed {
  import opened Types
  import opened Lists
  import opened Numeric

  /** The filter of `completed`: completed, with a measured duration (the planned one is always a number here). */
  predicate Used(t: Task)
  {
    t.status == Completed && t.actualDuration.Some?
  }

  /** How many tasks the chart shows at most. */
  const Window: nat := 20

  /** `slice(-n)`: the last `n` elements, or all of them when there are fewer. */
  function LastN<T>(s: seq<T>, n: nat): (r: seq<T>)
    ensures |r| == if |s| < n then |s| else n
    ensures r == s[|s| - |r|..]
  {
    if |s| <= n then s else s[|s| - n..]
  }

  /** A title longer than 18 characters is cut to its first 15 and "...". */
  function ShortTitle(title: string): (r: string)
    ensures |r| <= 18
    ensures |title| <= 18 ==> r == title
    ensures |title| > 18 ==> r == title[..15] + "..."
  {
    if |title| > 18 then title[..15] + "..." else title
  }

  /** A bar of the chart: the title, 'Planlanan Süre' in minutes and 'Gerçek Süre' in whole minutes. */
  datatype SpeedRow = SpeedRow(title: string, planned: int, actual: int)

  function RowOf(t: Task): SpeedRow
  {
    SpeedRow(ShortTitle(t.title), t.plannedDuration, RoundDiv(if t.actualDuration.Some? then t.actualDuration.value else 0, 60))
  }

  /**
   * `data` as written: the bars of the last twenty used tasks. The store
   * puts every new task first, so these are the twenty oldest.
   */
  function Data(tasks: seq<Task>): seq<SpeedRow>
  {
    MapSeq(LastN(Filter(tasks, Used), Window), RowOf)
  }

  /** `slice(0, n)`: the first `n` elements, or all of them when there are fewer. */
  function FirstN<T>(s: seq<T>, n: nat): (r: seq<T>)
    ensures |r| == if |s| < n then |s| else n
    ensures r == s[..|r|]
  {
    if |s| <= n then s else s[..n]
  }

  /**
   * `data` as intended: the bars of the twenty most recent used tasks, most
   * recent first, which in the store's newest-first list are the first twenty.
   */
  function RecentData(tasks: seq<Task>): seq<SpeedRow>
  {
    MapSeq(FirstN(Filter(tasks, Used), Window), RowOf)
  }

  /** What the view shows: the empty state, or the chart of the most recent tasks. */
  datatype View = NoData | Chart(rows: seq<SpeedRow>)

  function SpeedView(tasks: seq<Task>): View
  {
    if |Filter(tasks, Used)| == 0 then NoData else Chart(RecentData(tasks))
  }

  /**
   * A bar keeps the planned minutes, rounds the actual seconds to the
   * nearest minute (halves up) and shows the shortened title.
   */
  lemma RowMeaning(t: Task)
    requires Used(t)
    ensures RowOf(t).title == ShortTitle(t.title) && RowOf(t).planned == t.plannedDuration
    ensures 120 * RowOf(t).actual - 60 <= 2 * t.actualDuration.value < 120 * RowOf(t).actual + 60
  {
  }

  /** The chart has min(20, n) bars for n used tasks: those of the last ones, in their order. */
  lemma DataIsLastWindow(tasks: seq<Task>)
    ensures var used, r := Filter(tasks, Used), Data(tasks);
      |r| == (if |used| < Window then |used| else Window)
      && forall i :: 0 <= i < |r| ==> Used(used[|used| - |r| + i]) && r[i] == RowOf(used[|used| - |r| + i])
  {
    var used := Filter(tasks, Used);
    var window := LastN(used, Window);
    var r := Data(tasks);
    forall i | 0 <= i < |r| ensures Used(used[|used| - |r| + i]) && r[i] == RowOf(used[|used| - |r| + i]) {
      assert window[i] == used[|used| - |r| + i];
    }
  }

  /** The empty state shows exactly when no task is used; otherwise the chart has at least one bar. */
  lemma EmptyExactlyWithoutData(tasks: seq<Task>)
    ensures SpeedView(tasks).NoData? <==> forall t :: t in tasks ==> !Used(t)
    ensures SpeedView(tasks).Chart? ==> |SpeedView(tasks).rows| >= 1
  {
    var used := Filter(tasks, Used);
    if |used| > 0 {
      assert used[0] in used;
    }
  }

  /** The window after one more element: the old window, without its first element when it was full, and the new one. */
  lemma LastNSnoc<T>(s: seq<T>, x: T, n: nat)
    requires n > 0
    ensures LastN(s + [x], n) == (if |LastN(s, n)| < n then LastN(s, n) else LastN(s, n)[1..]) + [x]
  {
    if |s| >= n {
      assert LastN(s, n) == s[|s| - n..];
      assert LastN(s + [x], n) == (s + [x])[|s| + 1 - n..];
      assert (s + [x])[|s| + 1 - n..] == s[|s| - n..][1..] + [x];
    } else {
      assert LastN(s, n) == s && LastN(s + [x], n) == s + [x];
    }
  }

  lemma MapSeqSnoc<A, B>(s: seq<A>, x: A, f: A -> B)
    ensures MapSeq(s + [x], f) == MapSeq(s, f) + [f(x)]
  {
  }

  lemma MapSeqTail<A, B>(s: seq<A>, f: A -> B)
    requires |s| > 0
    ensures MapSeq(s[1..], f) == MapSeq(s, f)[1..]
  {
  }

  /**
   * For a list kept oldest first, one more used task at the end becomes the
   * last bar and the oldest bar drops out once there are twenty. The store
   * keeps its list newest first instead (`NewTaskDroppedWhenFull`).
   */
  lemma NewTaskShownLast(tasks: seq<Task>, t: Task)
    requires Used(t)
    ensures var before, after := Data(tasks), Data(tasks + [t]);
      after == (if |before| < Window then before else before[1..]) + [RowOf(t)]
  {
    FilterAppend(tasks, [t], Used);
    assert Filter([t], Used) == [t];
    var used := Filter(tasks, Used);
    assert Filter(tasks + [t], Used) == used + [t];
    var window := LastN(used, Window);
    LastNSnoc(used, t, Window);
    var kept := if |window| < Window then window else window[1..];
    MapSeqSnoc(kept, t, RowOf);
    if |window| >= Window {
      MapSeqTail(window, RowOf);
    }
  }

  lemma MapSeqCons<A, B>(x: A, s: seq<A>, f: A -> B)
    ensures MapSeq([x] + s, f) == [f(x)] + MapSeq(s, f)
  {
  }

  /** A task put in front of the list, as the store adds it, is used in front of the used ones. */
  lemma FilterUsedCons(t: Task, tasks: seq<Task>)
    requires Used(t)
    ensures Filter([t] + tasks, Used) == [t] + Filter(tasks, Used)
  {
    assert ([t] + tasks)[1..] == tasks;
  }

  /**
   * As written: a new used task, which the store puts first, is charted only
   * while fewer than twenty tasks are; from then on the chart never changes.
   */
  lemma NewTaskDroppedWhenFull(tasks: seq<Task>, t: Task)
    requires Used(t)
    ensures Data([t] + tasks) == if |Filter(tasks, Used)| < Window then [RowOf(t)] + Data(tasks) else Data(tasks)
  {
    FilterUsedCons(t, tasks);
    var used := Filter(tasks, Used);
    if |used| < Window {
      assert LastN([t] + used, Window) == [t] + used;
      MapSeqCons(t, used, RowOf);
    } else {
      assert LastN([t] + used, Window) == ([t] + used)[|used| + 1 - Window..];
      assert ([t] + used)[|used| + 1 - Window..] == used[|used| - Window..];
    }
  }

  /**
   * As intended: a new used task becomes the first bar, and the oldest bar
   * drops out once there are twenty.
   */
  lemma NewTaskShownFirst(tasks: seq<Task>, t: Task)
    requires Used(t)
    ensures var before := RecentData(tasks);
      RecentData([t] + tasks) == [RowOf(t)] + (if |before| < Window then before else before[..Window - 1])
  {
    FilterUsedCons(t, tasks);
    var used := Filter(tasks, Used);
    var window := FirstN(used, Window);
    if |used| < Window {
      assert FirstN([t] + used, Window) == [t] + window;
      MapSeqCons(t, window, RowOf);
    } else {
      assert FirstN([t] + used, Window) == [t] + window[..Window - 1];
      MapSeqCons(t, window[..Window - 1], RowOf);
    }
  }

  /** The intended chart has min(20, n) bars for n used tasks: those of the first ones, in their order. */
  lemma RecentDataIsFirstWindow(tasks: seq<Task>)
    ensures var used, r := Filter(tasks, Used), RecentData(tasks);
      |r| == (if |used| < Window then |used| else Window)
      && forall i :: 0 <= i < |r| ==> Used(used[i]) && r[i] == RowOf(used[i])
  {
  }
}

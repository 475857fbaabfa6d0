// The parent's dashboard: the course, task and reward forms, the filtered
// and sorted task list, the durations shown on task cards, the topic
// analysis request and the check of its reply, the per-course comparison
// and success charts, the statistics of one course with its weekly
// accuracy, and the headline points card.
module ParentDashboard {
  import opened Base
  import opened Types
  import opened Lists
  import opened Tally
  import opened Numeric
  import Text
  import Session
  import Store
  import Scoring

  // ---------------------------------------------------------------- forms

  /** The course form: the trimmed name to add, when it is not blank. */
  function CourseFormName(name: string): (r: Option<string>)
    ensures r.Some? <==> !Text.IsBlank(name)
    ensures r.Some? ==> r.value != "" && !Text.IsSpace(r.value[0]) && !Text.IsSpace(r.value[|r.value| - 1])
    ensures r.Some? ==> exists i :: Text.OccursAt(name, r.value, i)
  {
    var trimmed := Text.Trim(name);
    if trimmed != "" then Some(trimmed) else None
  }

  /**
   * The task form. `dueDate` is `None` while the date field is empty; the
   * duration field drops leading zeros, so "0" reads as blank.
   */
  datatype TaskForm = TaskForm(
    title: string,
    dueDate: Option<int>,
    courseId: string,
    taskType: TaskType,
    plannedDuration: Session.NumberInput,
    questionCount: Session.NumberInput,
    bookTitle: string)

  /** `courses[0]?.id || ''`. */
  function FirstCourseId(courses: seq<Course>): string
  {
    if |courses| > 0 then courses[0].id else ""
  }

  /** The form as it opens and as it is reset after every added task. */
  function EmptyTaskForm(courses: seq<Course>): TaskForm
  {
    TaskForm("", None, FirstCourseId(courses), QuestionSolving, Session.Blank, Session.Blank, "")
  }

  /** The form's guard: a title that is not blank, a date, a course and a positive duration. */
  predicate TaskFormComplete(f: TaskForm)
  {
    !Text.IsBlank(f.title) && f.dueDate.Some? && f.courseId != ""
    && f.plannedDuration.Number? && f.plannedDuration.value > 0
  }

  /**
   * The task the form submits: the title as typed, the question count only
   * for question solving (`Number('')` being 0), the book title only for
   * reading.
   */
  function SubmitTaskForm(f: TaskForm): (r: Option<TaskDraft>)
    ensures r.Some? <==> TaskFormComplete(f)
    ensures r.Some? ==>
      r.value.title == f.title && r.value.courseId == f.courseId && r.value.taskType == f.taskType
      && r.value.plannedDuration > 0 && Some(r.value.dueDate) == f.dueDate && !r.value.isSelfAssigned
    ensures r.Some? ==> (r.value.questionCount.Some? <==> f.taskType == QuestionSolving)
    ensures r.Some? ==> (r.value.bookTitle.Some? <==> f.taskType == Reading)
  {
    if !TaskFormComplete(f) then None
    else
      Some(TaskDraft(
        f.courseId, f.title, f.taskType, f.plannedDuration.value, f.dueDate.value,
        if f.taskType == QuestionSolving then Some(Session.OrZero(f.questionCount)) else None,
        if f.taskType == Reading then Some(f.bookTitle) else None,
        false))
  }

  /** The reward form: the name as typed and a positive cost. */
  function SubmitRewardForm(name: string, cost: Session.NumberInput): (r: Option<(string, int)>)
    ensures r.Some? <==> !Text.IsBlank(name) && cost.Number? && cost.value > 0
    ensures r.Some? ==> r.value == (name, cost.value)
  {
    if Text.Trim(name) != "" && cost.Number? && cost.value > 0 then Some((name, cost.value)) else None
  }

  // ---------------------------------------------------------------- the task list

  datatype SortOrder = Newest | Oldest

  /** The sort button flips the order. */
  function ToggleOrder(o: SortOrder): (r: SortOrder)
    ensures r != o
  {
    if o == Newest then Oldest else Newest
  }

  predicate DueNoEarlier(a: Task, b: Task)
  {
    a.dueDate >= b.dueDate
  }

  predicate DueNoLater(a: Task, b: Task)
  {
    a.dueDate <= b.dueDate
  }

  /** The filters: a course (`None` for 'all') and a status (`None` for 'all'). */
  predicate TaskShown(course: Option<string>, status: Option<TaskStatus>, t: Task)
  {
    (course.None? || t.courseId == course.value) && (status.None? || t.status == status.value)
  }

  /**
   * The task list: exactly the tasks passing both filters, each as often as
   * in the task list, ordered by due date, latest first for 'newest'.
   */
  function FilteredAndSortedTasks(tasks: seq<Task>, course: Option<string>, status: Option<TaskStatus>, order: SortOrder): (r: seq<Task>)
    ensures forall t :: multiset(r)[t] == if TaskShown(course, status, t) then multiset(tasks)[t] else 0
    ensures order == Newest ==> SortedBy(r, DueNoEarlier)
    ensures order == Oldest ==> SortedBy(r, DueNoLater)
  {
    var byCourse := if course.Some? then Filter(tasks, (t: Task) => t.courseId == course.value) else tasks;
    var byStatus := if status.Some? then Filter(byCourse, (t: Task) => t.status == status.value) else byCourse;
    assert forall t :: multiset(byStatus)[t] == if TaskShown(course, status, t) then multiset(tasks)[t] else 0 by {
      forall t ensures multiset(byStatus)[t] == if TaskShown(course, status, t) then multiset(tasks)[t] else 0 {
        if course.Some? {
          FilterCount(tasks, (t: Task) => t.courseId == course.value, t);
        }
        if status.Some? {
          FilterCount(byCourse, (t: Task) => t.status == status.value, t);
        }
      }
    }
    assert IsTotalPreorder(DueNoEarlier) && IsTotalPreorder(DueNoLater);
    if order == Newest then SortBy(byStatus, DueNoEarlier) else SortBy(byStatus, DueNoLater)
  }

  // ---------------------------------------------------------------- durations on task cards

  /** `formatSeconds`: "<s> sn" under a minute, else "<minutes, rounded> dk". */
  function FormatSeconds(seconds: nat): (r: string)
    ensures |r| > 3
  {
    if seconds < 60 then Text.NatToString(seconds) + " sn"
    else Text.NatToString(RoundDiv(seconds, 60)) + " dk"
  }

  /**
   * The text reads back: under a minute as the exact seconds, otherwise as
   * minutes within half a minute of the duration.
   */
  lemma FormatSecondsReadsBack(seconds: nat)
    ensures var r := FormatSeconds(seconds);
      var n := Text.ParseDecimal(r[..|r| - 3]);
      (seconds < 60 ==> r[|r| - 3..] == " sn" && n == seconds)
      && (seconds >= 60 ==> r[|r| - 3..] == " dk" && 60 * n - 30 <= seconds < 60 * n + 30)
  {
    var r := FormatSeconds(seconds);
    if seconds < 60 {
      var d := Text.NatToString(seconds);
      assert r[..|r| - 3] == d && r[|r| - 3..] == " sn";
      Text.ParseNatToString(seconds);
    } else {
      var m := RoundDiv(seconds, 60);
      assert m >= 0;
      var d := Text.NatToString(m);
      assert r[..|r| - 3] == d && r[|r| - 3..] == " dk";
      Text.ParseNatToString(m);
    }
  }

  // ---------------------------------------------------------------- topic analysis

  const NotEnoughTasksMessage: string := "Konu analizi için en az 3 tamamlanmış görev gereklidir."
  const ReplyNotJsonMessage: string := "Yapay zeka yanıtı beklenen formatta değil (JSON parse hatası)."
  const ReplyBadFormatMessage: string := "Yapay zeka analizi beklenen formatta veri döndürmedi. Lütfen tekrar deneyin."
  const AnalysisFailedMessage: string := "Yapay zeka analizi sırasında bir hata oluştu."

  /** The completed tasks of the selected course that have a (non-zero) success score. */
  function TopicTasks(tasks: seq<Task>, courseId: string): (r: seq<Task>)
    ensures forall t :: t in r <==> t in tasks && t.courseId == courseId && t.status == Completed && Truthy(t.successScore)
  {
    Filter(tasks, (t: Task) => t.courseId == courseId && t.status == Completed && Truthy(t.successScore))
  }

  /** A parsed JSON value. */
  datatype Json =
    | JNull
    | JBool(b: bool)
    | JNumber(n: real)
    | JString(s: string)
    | JArray(items: seq<Json>)
    | JObject(fields: map<string, Json>)

  /** The model's reply: the call failed, or its text, parsed (`None` when JSON.parse rejects it). */
  datatype Reply = CallFailed | Answered(parsed: Option<Json>)

  /** A topic of the reply: its name, average score and number of tasks. */
  datatype Topic = Topic(name: string, averageScore: real, taskCount: real)

  /** An item of the reply that passes every check: a name that is not blank, a score in [0, 100], at least one task. */
  predicate ValidTopic(j: Json)
  {
    j.JObject?
    && "konu" in j.fields && j.fields["konu"].JString?
    && "ortalamaPuan" in j.fields && j.fields["ortalamaPuan"].JNumber?
    && "gorevSayisi" in j.fields && j.fields["gorevSayisi"].JNumber?
    && !Text.IsBlank(j.fields["konu"].s)
    && 0.0 <= j.fields["ortalamaPuan"].n <= 100.0
    && j.fields["gorevSayisi"].n >= 1.0
  }

  function TopicOf(j: Json): Topic
    requires ValidTopic(j)
  {
    Topic(j.fields["konu"].s, j.fields["ortalamaPuan"].n, j.fields["gorevSayisi"].n)
  }

  /**
   * `result.some(item => …)` over the items: the first item that fails
   * decides. Reading a field of `null` throws, which the surrounding
   * `catch` reports as a failed analysis; any other failing item is a
   * format error.
   */
  function CheckTopics(items: seq<Json>): (r: Result<seq<Topic>, string>)
    ensures r.Ok? <==> forall i :: 0 <= i < |items| ==> ValidTopic(items[i])
    ensures r.Ok? ==> |r.value| == |items| && forall i :: 0 <= i < |items| ==> r.value[i] == TopicOf(items[i])
    ensures r.Err? ==> r.error == AnalysisFailedMessage || r.error == ReplyBadFormatMessage
  {
    if |items| == 0 then Ok([])
    else if !ValidTopic(items[0]) then
      Err(if items[0].JNull? then AnalysisFailedMessage else ReplyBadFormatMessage)
    else
      match CheckTopics(items[1..])
      case Err(e) => Err(e)
      case Ok(rest) =>
        assert forall i :: 1 <= i < |items| ==> items[i] == items[1..][i - 1];
        Ok([TopicOf(items[0])] + rest)
  }

  /** The first failing item decides between the two errors. */
  lemma {:induction false} CheckTopicsFirstFailure(items: seq<Json>, k: nat)
    requires k < |items| && !ValidTopic(items[k])
    requires forall i :: 0 <= i < k ==> ValidTopic(items[i])
    ensures CheckTopics(items) == Err(if items[k].JNull? then AnalysisFailedMessage else ReplyBadFormatMessage)
  {
    if k > 0 {
      assert forall i :: 0 <= i < k - 1 ==> items[1..][i] == items[i + 1];
      CheckTopicsFirstFailure(items[1..], k - 1);
    }
  }

  /**
   * `handleAiTopicAnalysis` after the request: too few tasks stop it
   * before any call; then a failed call, a reply that is not JSON, a reply
   * that is not an array and a bad item each give their message.
   */
  function TopicAnalysis(tasks: seq<Task>, courseId: string, reply: Reply): (r: Result<seq<Topic>, string>)
    ensures |TopicTasks(tasks, courseId)| < 3 ==> r == Err(NotEnoughTasksMessage)
    ensures r.Ok? <==>
      |TopicTasks(tasks, courseId)| >= 3 && reply.Answered? && reply.parsed.Some?
      && reply.parsed.value.JArray? && forall i :: 0 <= i < |reply.parsed.value.items| ==> ValidTopic(reply.parsed.value.items[i])
    ensures |TopicTasks(tasks, courseId)| >= 3 && reply == Answered(None) ==> r == Err(ReplyNotJsonMessage)
    ensures |TopicTasks(tasks, courseId)| >= 3 && reply == CallFailed ==> r == Err(AnalysisFailedMessage)
  {
    if |TopicTasks(tasks, courseId)| < 3 then Err(NotEnoughTasksMessage)
    else
      match reply
      case CallFailed => Err(AnalysisFailedMessage)
      case Answered(None) => Err(ReplyNotJsonMessage)
      case Answered(Some(result)) =>
        if !result.JArray? then Err(ReplyBadFormatMessage)
        else CheckTopics(result.items)
  }

  /** A `null` item before any other bad item is reported as a failed analysis, not as a format error. */
  lemma NullItemReportsFailure(tasks: seq<Task>, courseId: string)
    requires |TopicTasks(tasks, courseId)| >= 3
    ensures var good := JObject(map["konu" := JString("Cebir"), "ortalamaPuan" := JNumber(80.0), "gorevSayisi" := JNumber(3.0)]);
      TopicAnalysis(tasks, courseId, Answered(Some(JArray([good, JNull, JString("x")])))) == Err(AnalysisFailedMessage)
      && TopicAnalysis(tasks, courseId, Answered(Some(JArray([good, JString("x"), JNull])))) == Err(ReplyBadFormatMessage)
  {
    var good := JObject(map["konu" := JString("Cebir"), "ortalamaPuan" := JNumber(80.0), "gorevSayisi" := JNumber(3.0)]);
    assert ValidTopic(good) by {
      assert !Text.IsSpace('C');
      assert !Text.IsSpace("Cebir"[0]);
    }
    CheckTopicsFirstFailure([good, JNull, JString("x")], 1);
    CheckTopicsFirstFailure([good, JString("x"), JNull], 1);
  }

  // ---------------------------------------------------------------- per-course comparison

  /** The course a task is counted for. */
  function CourseKey(t: Task): Option<string>
  {
    Some(t.courseId)
  }

  /** Tasks whose success score is pushed: those with a non-zero score. */
  function SuccessKey(t: Task): Option<string>
  {
    if Truthy(t.successScore) then Some(t.courseId) else None
  }

  function FocusKey(t: Task): Option<string>
  {
    if Truthy(t.focusScore) then Some(t.courseId) else None
  }

  function SuccessValue(t: Task): int
  {
    if t.successScore.Some? then t.successScore.value else 0
  }

  function FocusValue(t: Task): int
  {
    if t.focusScore.Some? then t.focusScore.value else 0
  }

  function One(t: Task): int
  {
    1
  }

  /** A bar group of the comparison chart: the course and its rounded average success and focus. */
  datatype ComparisonRow = ComparisonRow(name: string, success: int, focus: int)

  /** A course's bars over `tasks`: zero for a course without tasks, else the rounded means of the non-zero scores. */
  function ComparisonRowOf(tasks: seq<Task>, c: Course): ComparisonRow
  {
    if CountWhere(tasks, CourseKey, c.id) == 0 then ComparisonRow(c.name, 0, 0)
    else ComparisonRow(c.name,
      MeanOrZero(SumWhere(tasks, SuccessKey, SuccessValue, c.id), CountWhere(tasks, SuccessKey, c.id)),
      MeanOrZero(SumWhere(tasks, FocusKey, FocusValue, c.id), CountWhere(tasks, FocusKey, c.id)))
  }

  /** One course's bar group, read off the three accumulators. */
  method BarsOf(analyzed: seq<Task>, counts: map<string, Bucket>, success: map<string, Bucket>, focus: map<string, Bucket>, c: Course)
    returns (row: ComparisonRow)
    requires counts == TallyOf(analyzed, CourseKey, One)
    requires success == TallyOf(analyzed, SuccessKey, SuccessValue) && focus == TallyOf(analyzed, FocusKey, FocusValue)
    ensures row == ComparisonRowOf(analyzed, c)
  {
    TallyAt(analyzed, CourseKey, One, c.id);
    TallyAt(analyzed, SuccessKey, SuccessValue, c.id);
    TallyAt(analyzed, FocusKey, FocusValue, c.id);
    if c.id !in counts || counts[c.id].count == 0 {
      row := ComparisonRow(c.name, 0, 0);
    } else {
      var s := if c.id in success then MeanOrZero(success[c.id].sum, success[c.id].count) else 0;
      var f := if c.id in focus then MeanOrZero(focus[c.id].sum, focus[c.id].count) else 0;
      row := ComparisonRow(c.name, s, f);
    }
  }

  /**
   * `comparisonChartData`: the forEach fills the per-course lists and
   * counts, then one bar group per course is read off them. `analyzed` is
   * the task list of the selected period.
   */
  method ComparisonChartData(analyzed: seq<Task>, courses: seq<Course>) returns (rows: seq<ComparisonRow>)
    ensures |rows| == |courses|
    ensures forall i :: 0 <= i < |courses| ==> rows[i] == ComparisonRowOf(analyzed, courses[i])
  {
    var counts := Accumulate(analyzed, CourseKey, One);
    var success := Accumulate(analyzed, SuccessKey, SuccessValue);
    var focus := Accumulate(analyzed, FocusKey, FocusValue);
    rows := [];
    var i := 0;
    while i < |courses|
      invariant 0 <= i <= |courses|
      invariant |rows| == i
      invariant forall j :: 0 <= j < i ==> rows[j] == ComparisonRowOf(analyzed, courses[j])
    {
      var row := BarsOf(analyzed, counts, success, focus, courses[i]);
      rows := rows + [row];
      i := i + 1;
    }
  }

  /** Scores stored in [0, 100] give bars in [0, 100]. */
  lemma ComparisonRowBounds(tasks: seq<Task>, c: Course)
    requires forall t :: t in tasks ==> 0 <= SuccessValue(t) <= 100 && 0 <= FocusValue(t) <= 100
    ensures var row := ComparisonRowOf(tasks, c);
      0 <= row.success <= 100 && 0 <= row.focus <= 100
  {
    SumWhereBounds(tasks, SuccessKey, SuccessValue, c.id, 0, 100);
    SumWhereBounds(tasks, FocusKey, FocusValue, c.id, 0, 100);
    if CountWhere(tasks, SuccessKey, c.id) > 0 {
      RoundedMeanBounds(SumWhere(tasks, SuccessKey, SuccessValue, c.id), CountWhere(tasks, SuccessKey, c.id), 0, 100);
    }
    if CountWhere(tasks, FocusKey, c.id) > 0 {
      RoundedMeanBounds(SumWhere(tasks, FocusKey, FocusValue, c.id), CountWhere(tasks, FocusKey, c.id), 0, 100);
    }
  }

  // ---------------------------------------------------------------- overall success per course

  /** Completed tasks with a success score, zero included. */
  function ScoredKey(t: Task): Option<string>
  {
    if t.status == Completed && t.successScore.Some? then Some(t.courseId) else None
  }

  datatype SuccessRow = SuccessRow(name: string, rate: int)

  function SuccessRowOf(tasks: seq<Task>, c: Course): SuccessRow
  {
    SuccessRow(c.name, MeanOrZero(SumWhere(tasks, ScoredKey, SuccessValue, c.id), CountWhere(tasks, ScoredKey, c.id)))
  }

  predicate HigherRateOrSame(a: SuccessRow, b: SuccessRow)
  {
    a.rate >= b.rate
  }

  /**
   * `OverallSuccessChart`: one row per course with its rounded mean success
   * over its completed scored tasks, the highest first.
   */
  method OverallSuccessData(tasks: seq<Task>, courses: seq<Course>) returns (rows: seq<SuccessRow>)
    ensures |rows| == |courses|
    ensures SortedBy(rows, HigherRateOrSame)
    ensures forall r :: multiset(rows)[r] == multiset(SuccessRows(tasks, courses))[r]
  {
    var stats := Accumulate(tasks, ScoredKey, SuccessValue);
    var unsorted: seq<SuccessRow> := [];
    var i := 0;
    while i < |courses|
      invariant 0 <= i <= |courses|
      invariant unsorted == SuccessRows(tasks, courses[..i])
    {
      var c := courses[i];
      TallyAt(tasks, ScoredKey, SuccessValue, c.id);
      var rate := if c.id in stats && stats[c.id].count > 0 then RoundDiv(stats[c.id].sum, stats[c.id].count) else 0;
      assert courses[..i + 1] == courses[..i] + [c];
      SuccessRowsSnoc(tasks, courses[..i], c);
      unsorted := unsorted + [SuccessRow(c.name, rate)];
      i := i + 1;
    }
    assert courses[..i] == courses;
    assert IsTotalPreorder(HigherRateOrSame);
    rows := SortBy(unsorted, HigherRateOrSame);
  }

  /** The rows before sorting, in course order. */
  function SuccessRows(tasks: seq<Task>, courses: seq<Course>): (r: seq<SuccessRow>)
    ensures |r| == |courses| && forall i :: 0 <= i < |courses| ==> r[i] == SuccessRowOf(tasks, courses[i])
  {
    MapSeq(courses, (c: Course) => SuccessRowOf(tasks, c))
  }

  lemma SuccessRowsSnoc(tasks: seq<Task>, courses: seq<Course>, c: Course)
    ensures SuccessRows(tasks, courses + [c]) == SuccessRows(tasks, courses) + [SuccessRowOf(tasks, c)]
  {
  }

  /** Stored scores in [0, 100] give rates in [0, 100]. */
  lemma SuccessRowBounds(tasks: seq<Task>, c: Course)
    requires forall t :: t in tasks ==> 0 <= SuccessValue(t) <= 100
    ensures 0 <= SuccessRowOf(tasks, c).rate <= 100
  {
    SumWhereBounds(tasks, ScoredKey, SuccessValue, c.id, 0, 100);
    if CountWhere(tasks, ScoredKey, c.id) > 0 {
      RoundedMeanBounds(SumWhere(tasks, ScoredKey, SuccessValue, c.id), CountWhere(tasks, ScoredKey, c.id), 0, 100);
    }
  }

  // ---------------------------------------------------------------- one course's statistics

  function CorrectOrZero(t: Task): int
  {
    if t.correctCount.Some? then t.correctCount.value else 0
  }

  function IncorrectOrZero(t: Task): int
  {
    if t.incorrectCount.Some? then t.incorrectCount.value else 0
  }

  function DurationOrZero(t: Task): int
  {
    if t.actualDuration.Some? then t.actualDuration.value else 0
  }

  /** `Math.round(correct / (correct + incorrect) * 100)`, or 0 without answers. */
  function Percent(correct: int, incorrect: int): (r: int)
    ensures correct >= 0 && incorrect >= 0 ==> 0 <= r <= 100
    ensures correct >= 0 && incorrect >= 0 && correct + incorrect > 0 ==>
      2 * (correct + incorrect) * r - (correct + incorrect) <= 200 * correct < 2 * (correct + incorrect) * r + (correct + incorrect)
  {
    if correct >= 0 && incorrect >= 0 && correct + incorrect > 0 then
      RoundedMeanBounds(100 * correct, correct + incorrect, 0, 100);
      RoundDiv(100 * correct, correct + incorrect)
    else if correct + incorrect > 0 then RoundDiv(100 * correct, correct + incorrect)
    else 0
  }

  /** The four cards of the course view. */
  datatype CourseStats = CourseStats(successRate: int, minutes: int, completedCount: nat, pendingCount: nat)

  /** The tasks of one course. */
  function CourseTasks(tasks: seq<Task>, courseId: string): (r: seq<Task>)
    ensures forall t :: t in r <==> t in tasks && t.courseId == courseId
  {
    Filter(tasks, (t: Task) => t.courseId == courseId)
  }

  predicate IsPendingTask(t: Task)
  {
    t.status == Pending
  }

  /** The rounded success rate over the completed tasks' answers. */
  function CompletedAccuracy(completed: seq<Task>): (r: int)
    ensures (forall t :: t in completed ==> CorrectOrZero(t) >= 0 && IncorrectOrZero(t) >= 0) ==> 0 <= r <= 100
    ensures var c, n := Total(completed, CorrectOrZero), Total(completed, CorrectOrZero) + Total(completed, IncorrectOrZero);
      (n == 0 ==> r == 0)
      && ((forall t :: t in completed ==> CorrectOrZero(t) >= 0 && IncorrectOrZero(t) >= 0) && n > 0 ==>
            2 * n * r - n <= 200 * c < 2 * n * r + n)
  {
    if forall t :: t in completed ==> CorrectOrZero(t) >= 0 && IncorrectOrZero(t) >= 0 then
      TotalNonNegative(completed, CorrectOrZero);
      TotalNonNegative(completed, IncorrectOrZero);
      Percent(Total(completed, CorrectOrZero), Total(completed, IncorrectOrZero))
    else Percent(Total(completed, CorrectOrZero), Total(completed, IncorrectOrZero))
  }

  /**
   * `courseStats`: `None` when the selected course does not exist; else the
   * accuracy and the rounded minutes over its completed tasks and the
   * numbers of its completed and pending tasks, which add up to all of its
   * tasks.
   */
  function CourseStatsOf(tasks: seq<Task>, courses: seq<Course>, courseId: string): (r: Option<CourseStats>)
    ensures r.Some? <==> exists i :: 0 <= i < |courses| && courses[i].id == courseId
    ensures r.Some? ==> r.value.completedCount + r.value.pendingCount == |CourseTasks(tasks, courseId)|
    ensures r.Some? && (forall t :: t in tasks ==> CorrectOrZero(t) >= 0 && IncorrectOrZero(t) >= 0) ==> 0 <= r.value.successRate <= 100
    ensures r.Some? ==>
      var completed := Filter(CourseTasks(tasks, courseId), Store.IsCompleted);
      var seconds := Total(completed, DurationOrZero);
      && r.value.successRate == CompletedAccuracy(completed)
      && 60 * r.value.minutes - 30 <= seconds < 60 * r.value.minutes + 30
      && r.value.completedCount == |completed|
      && r.value.pendingCount == |Filter(CourseTasks(tasks, courseId), IsPendingTask)|
  {
    if Find(courses, (c: Course) => c.id == courseId).None? then None
    else
      var courseTasks := CourseTasks(tasks, courseId);
      var completed := Filter(courseTasks, Store.IsCompleted);
      var pending := Filter(courseTasks, IsPendingTask);
      FilterComplement(courseTasks, Store.IsCompleted, IsPendingTask);
      Some(CourseStats(
        CompletedAccuracy(completed),
        RoundDiv(Total(completed, DurationOrZero), 60),
        |completed|,
        |pending|))
  }

  // ---------------------------------------------------------------- weekly accuracy

  /** The label of a week, "Hafta <n>". */
  function WeekLabel(n: nat): string
  {
    "Hafta " + Text.NatToString(n)
  }

  /** `parseInt(label.split(' ')[1])` on a week label. */
  function WeekNumberOfLabel(text: string): nat
  {
    if |text| >= 6 then Text.ParseDecimal(text[6..]) else 0
  }

  /** Sorting by the number read back from the label sorts by week number. */
  lemma WeekLabelReadsBack(n: nat)
    ensures WeekNumberOfLabel(WeekLabel(n)) == n
  {
    assert WeekLabel(n)[6..] == Text.NatToString(n);
    Text.ParseNatToString(n);
  }

  datatype WeekRow = WeekRow(week: nat, accuracy: int)

  predicate WeekNoLater(a: WeekRow, b: WeekRow)
  {
    a.week <= b.week
  }

  /** A week's row: the accuracy over the week's answers. */
  function WeekRowOf(completed: seq<Task>, weekKey: Task -> Option<nat>, w: nat): WeekRow
  {
    WeekRow(w, Percent(SumWhere(completed, weekKey, CorrectOrZero, w), SumWhere(completed, weekKey, IncorrectOrZero, w)))
  }

  function WeekRowsOf(completed: seq<Task>, weekKey: Task -> Option<nat>, weeks: seq<nat>): (r: seq<WeekRow>)
    ensures |r| == |weeks| && forall i :: 0 <= i < |weeks| ==> r[i] == WeekRowOf(completed, weekKey, weeks[i])
  {
    if |weeks| == 0 then [] else WeekRowsOf(completed, weekKey, weeks[..|weeks| - 1]) + [WeekRowOf(completed, weekKey, weeks[|weeks| - 1])]
  }

  /**
   * The rows of the weekly chart: one per week, in week order. `weekKey`
   * gives a task's week number from its completion date (`None` for a task
   * without one).
   */
  function WeeklyRows(completed: seq<Task>, weekKey: Task -> Option<nat>): (r: seq<WeekRow>)
    ensures SortedBy(r, WeekNoLater)
    ensures multiset(r) == multiset(WeekRowsOf(completed, weekKey, FirstSeenKeys(completed, weekKey)))
  {
    assert IsTotalPreorder(WeekNoLater);
    SortBy(WeekRowsOf(completed, weekKey, FirstSeenKeys(completed, weekKey)), WeekNoLater)
  }

  /** The rows before sorting are those of distinct weeks. */
  lemma WeekRowsDistinct(completed: seq<Task>, weekKey: Task -> Option<nat>)
    ensures Distinct(WeekRowsOf(completed, weekKey, FirstSeenKeys(completed, weekKey)))
  {
    var keys := FirstSeenKeys(completed, weekKey);
    var unsorted := WeekRowsOf(completed, weekKey, keys);
    FirstSeenKeysAre(completed, weekKey);
    forall i, j | 0 <= i < j < |unsorted| ensures unsorted[i] != unsorted[j] {
      assert unsorted[i].week == keys[i] && unsorted[j].week == keys[j];
    }
  }

  /** A row is shown exactly when its week has a task and it holds that week's accuracy. */
  lemma WeeklyRowsMembers(completed: seq<Task>, weekKey: Task -> Option<nat>)
    ensures forall row :: row in WeeklyRows(completed, weekKey) <==>
      CountWhere(completed, weekKey, row.week) > 0 && row == WeekRowOf(completed, weekKey, row.week)
  {
    var keys := FirstSeenKeys(completed, weekKey);
    var unsorted := WeekRowsOf(completed, weekKey, keys);
    FirstSeenKeysAre(completed, weekKey);
    PermutationSameMembers(unsorted, WeeklyRows(completed, weekKey));
    forall row ensures row in unsorted <==> row.week in keys && row == WeekRowOf(completed, weekKey, row.week) {
      if row in unsorted {
        var k :| 0 <= k < |unsorted| && unsorted[k] == row;
        assert keys[k] == row.week;
      }
      if row.week in keys && row == WeekRowOf(completed, weekKey, row.week) {
        var k :| 0 <= k < |keys| && keys[k] == row.week;
        assert unsorted[k] == row;
      }
    }
  }

  /** Every row holds the accuracy of its own week. */
  lemma WeeklyRowsAccuracy(completed: seq<Task>, weekKey: Task -> Option<nat>)
    ensures var r := WeeklyRows(completed, weekKey);
      forall i :: 0 <= i < |r| ==> r[i] == WeekRowOf(completed, weekKey, r[i].week)
  {
    WeeklyRowsMembers(completed, weekKey);
    var r := WeeklyRows(completed, weekKey);
    forall i | 0 <= i < |r| ensures r[i] == WeekRowOf(completed, weekKey, r[i].week) {
      assert r[i] in r;
    }
  }

  /** The rows are strictly in week order: no week is shown twice. */
  lemma WeeklyRowsStrict(completed: seq<Task>, weekKey: Task -> Option<nat>)
    ensures var r := WeeklyRows(completed, weekKey);
      forall i, j :: 0 <= i < j < |r| ==> r[i].week < r[j].week
  {
    var r := WeeklyRows(completed, weekKey);
    WeeklyRowsAccuracy(completed, weekKey);
    WeekRowsDistinct(completed, weekKey);
    PermutationKeepsDistinct(WeekRowsOf(completed, weekKey, FirstSeenKeys(completed, weekKey)), r);
    forall i, j | 0 <= i < j < |r| ensures r[i].week < r[j].week {
      assert r[i].week <= r[j].week;
      assert r[i] != r[j];
    }
  }

  /** A week is shown exactly when one of the tasks falls in it. */
  lemma WeeklyRowsWeeks(completed: seq<Task>, weekKey: Task -> Option<nat>, w: nat)
    ensures var r := WeeklyRows(completed, weekKey);
      (exists i :: 0 <= i < |r| && r[i].week == w) <==> CountWhere(completed, weekKey, w) > 0
  {
    var r := WeeklyRows(completed, weekKey);
    WeeklyRowsMembers(completed, weekKey);
    if exists i :: 0 <= i < |r| && r[i].week == w {
      var i :| 0 <= i < |r| && r[i].week == w;
      assert r[i] in r;
    }
    if CountWhere(completed, weekKey, w) > 0 {
      var row := WeekRowOf(completed, weekKey, w);
      assert row in r;
      var i :| 0 <= i < |r| && r[i] == row;
    }
  }

  /** The forEach that fills `weeklyData`: per week, the correct and incorrect answer totals, with the weeks in first-seen order. */
  method TallyWeeks(completed: seq<Task>, weekKey: Task -> Option<nat>) returns (weekly: map<nat, (int, int)>, order: seq<nat>)
    ensures order == FirstSeenKeys(completed, weekKey)
    ensures forall w :: w in weekly <==> w in order
    ensures forall w :: w in weekly ==>
      weekly[w] == (SumWhere(completed, weekKey, CorrectOrZero, w), SumWhere(completed, weekKey, IncorrectOrZero, w))
  {
    weekly := map[];
    order := [];
    var i := 0;
    while i < |completed|
      invariant 0 <= i <= |completed|
      invariant order == FirstSeenKeys(completed[..i], weekKey)
      invariant forall w :: w in weekly <==> w in order
      invariant forall w :: w in weekly ==>
        weekly[w] == (SumWhere(completed[..i], weekKey, CorrectOrZero, w), SumWhere(completed[..i], weekKey, IncorrectOrZero, w))
    {
      var t := completed[i];
      var prefix := completed[..i];
      assert completed[..i + 1] == prefix + [t];
      FirstSeenKeysAre(prefix, weekKey);
      ghost var before := weekly;
      match weekKey(t) {
        case None =>
        case Some(w) =>
          if w !in weekly {
            weekly := weekly[w := (0, 0)];
            order := order + [w];
          }
          weekly := weekly[w := (weekly[w].0 + CorrectOrZero(t), weekly[w].1 + IncorrectOrZero(t))];
      }
      forall w | w in weekly
        ensures weekly[w] == (SumWhere(prefix + [t], weekKey, CorrectOrZero, w), SumWhere(prefix + [t], weekKey, IncorrectOrZero, w))
      {
        WhereSnoc(prefix, t, weekKey, CorrectOrZero, w);
        WhereSnoc(prefix, t, weekKey, IncorrectOrZero, w);
        if w !in before {
          SumWhereEmpty(prefix, weekKey, CorrectOrZero, w);
          SumWhereEmpty(prefix, weekKey, IncorrectOrZero, w);
        }
      }
      i := i + 1;
    }
    assert completed[..i] == completed;
  }

  /**
   * `weeklyPerformanceData`: the forEach fills the per-week sums of
   * correct and incorrect answers, then the entries become rows sorted by
   * week number.
   */
  method WeeklyPerformance(completed: seq<Task>, weekKey: Task -> Option<nat>) returns (rows: seq<WeekRow>)
    ensures rows == WeeklyRows(completed, weekKey)
  {
    var weekly, order := TallyWeeks(completed, weekKey);
    var entries: seq<WeekRow> := [];
    var j := 0;
    while j < |order|
      invariant 0 <= j <= |order|
      invariant entries == WeekRowsOf(completed, weekKey, order[..j])
    {
      var w := order[j];
      assert order[..j + 1] == order[..j] + [w];
      entries := entries + [WeekRow(w, Percent(weekly[w].0, weekly[w].1))];
      j := j + 1;
    }
    assert order[..j] == order;
    assert IsTotalPreorder(WeekNoLater);
    rows := SortBy(entries, WeekNoLater);
  }

  // ---------------------------------------------------------------- the points card

  /**
   * The property the points card reads. Tasks have no `points` field (the
   * awarded points are in `pointsAwarded`), so it is always undefined.
   */
  function PointsField(t: Task): Option<int>
  {
    None
  }

  function PointsFieldOrZero(t: Task): int
  {
    if PointsField(t).Some? then PointsField(t).value else 0
  }

  function PointsAwardedOrZero(t: Task): int
  {
    if t.pointsAwarded.Some? then t.pointsAwarded.value else 0
  }

  /** The card as written: the sum of `task.points || 0` over the completed tasks. */
  function TotalPointsAsWritten(tasks: seq<Task>): int
  {
    Total(Filter(tasks, Store.IsCompleted), PointsFieldOrZero)
  }

  /** The card as intended: the sum of the points awarded to the completed tasks. */
  function TotalPoints(tasks: seq<Task>): int
  {
    Total(Filter(tasks, Store.IsCompleted), PointsAwardedOrZero)
  }

  lemma {:induction false} TotalOfZeros(s: seq<Task>)
    ensures Total(s, PointsFieldOrZero) == 0
  {
    if |s| > 0 {
      TotalOfZeros(s[1..]);
    }
  }

  /** As written the card shows 0 whatever has been completed. */
  lemma TotalPointsAlwaysZero(tasks: seq<Task>)
    ensures TotalPointsAsWritten(tasks) == 0
  {
    TotalOfZeros(Filter(tasks, Store.IsCompleted));
  }

  /** A single completed task that was awarded points: the intended total shows them, the card shows 0. */
  lemma TotalPointsMissesAward(t: Task)
    requires t.status == Completed && t.pointsAwarded.Some? && t.pointsAwarded.value != 0
    ensures TotalPoints([t]) == t.pointsAwarded.value != TotalPointsAsWritten([t])
  {
    TotalPointsAlwaysZero([t]);
    assert Filter([t], Store.IsCompleted) == [t] by {
      assert Store.IsCompleted(t);
      assert [t][1..] == [];
    }
    assert Total([t], PointsAwardedOrZero) == PointsAwardedOrZero(t) + Total([t][1..], PointsAwardedOrZero);
    assert [t][1..] == [];
  }

  /** Total over the completed tasks, written per element so that single changes can be tracked. */
  function CompletedPoints(t: Task): int
  {
    if t.status == Completed then PointsAwardedOrZero(t) else 0
  }

  lemma {:induction false} TotalPointsPerTask(tasks: seq<Task>)
    ensures TotalPoints(tasks) == Total(tasks, CompletedPoints)
  {
    if |tasks| > 0 {
      TotalPointsPerTask(tasks[1..]);
      var rest := Filter(tasks[1..], Store.IsCompleted);
      if Store.IsCompleted(tasks[0]) {
        assert Filter(tasks, Store.IsCompleted) == [tasks[0]] + rest;
        assert ([tasks[0]] + rest)[1..] == rest;
      } else {
        assert Filter(tasks, Store.IsCompleted) == rest;
      }
    }
  }

  /**
   * Completing a pending task whose id no other task carries raises the
   * intended total by exactly the points added to the balance.
   */
  lemma CompletionRaisesTotalPoints(d: Store.AppData, taskId: string, data: CompletionData, today: string, now: int)
    requires Store.CanComplete(d.tasks, taskId)
    requires Store.UniqueTaskIds(d.tasks)
    requires Store.FindTask(d.tasks, taskId).Some? && Store.FindTask(d.tasks, taskId).value.status == Pending
    ensures var r := Store.CompleteTaskIn(d, taskId, data, today, now);
      TotalPoints(r.tasks) - TotalPoints(d.tasks) == r.successPoints - d.successPoints
  {
    var r := Store.CompleteTaskIn(d, taskId, data, today, now);
    var t := Store.FindTask(d.tasks, taskId).value;
    var k :| 0 <= k < |d.tasks| && d.tasks[k] == t;
    forall i | 0 <= i < |d.tasks| && i != k ensures r.tasks[i] == d.tasks[i] {
      assert d.tasks[i].id != taskId;
    }
    TotalChangeAt(d.tasks, r.tasks, k, CompletedPoints);
    TotalPointsPerTask(d.tasks);
    TotalPointsPerTask(r.tasks);
  }
}

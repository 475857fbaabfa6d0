// The application store: the persisted lists and the success points, the
// operations that change them, the badge check that follows every change
// of the task list, and the parent-lock state.
module Store {
  import opened Base
  import opened Types
  import opened Scoring
  import opened Lists
  import opened Tally
  import Numeric

  const ParentPassword: string := "1234"
  const WrongPasswordMessage: string := "Hatalı şifre. Lütfen tekrar deneyin."
  const BackupRejectedMessage: string := "Yedek dosyası eksik veya bozuk."
  const BackupUnreadableMessage: string := "Yedek dosyası okunamadı. Lütfen geçerli bir dosya seçin."
  const MathCourseName: string := "Matematik"
  const FirstStepBadge: Badge := Badge("b1", "İlk Adım", "İlk görevini tamamladın!")
  const BusyBeeBadge: Badge := Badge("b2", "Çalışkan Arı", "Bir günde 3 görev tamamladın.")
  const MathMonsterBadge: Badge := Badge("b3", "Matematik Canavarı", "10 Matematik görevini tamamladın.")

  /** The persisted part of the store; an exported backup holds exactly these fields. */
  datatype AppData = AppData(
    courses: seq<Course>,
    tasks: seq<Task>,
    performance: seq<PerformanceData>,
    rewards: seq<Reward>,
    badges: seq<Badge>,
    successPoints: int)

  /**
   * A parsed backup file. A list is `None` when the key is missing or
   * falsy; `successPoints` is `None` when it is not a number.
   */
  datatype Backup = Backup(
    courses: Option<seq<Course>>,
    tasks: Option<seq<Task>>,
    performance: Option<seq<PerformanceData>>,
    rewards: Option<seq<Reward>>,
    badges: Option<seq<Badge>>,
    successPoints: Option<int>)

  // ---------------------------------------------------------------- backup

  /** The object written by the export button. */
  function Export(d: AppData): Backup
  {
    Backup(Some(d.courses), Some(d.tasks), Some(d.performance), Some(d.rewards), Some(d.badges), Some(d.successPoints))
  }

  /** The import check: every list present and the points a number. */
  predicate BackupAccepted(b: Backup)
  {
    b.courses.Some? && b.tasks.Some? && b.performance.Some? && b.rewards.Some? && b.badges.Some? && b.successPoints.Some?
  }

  function Restore(b: Backup): (d: AppData)
    requires BackupAccepted(b)
    ensures Export(d) == b
  {
    AppData(b.courses.value, b.tasks.value, b.performance.value, b.rewards.value, b.badges.value, b.successPoints.value)
  }

  /** An exported backup is always accepted and restores exactly the exported data. */
  lemma ExportImportRoundTrip(d: AppData)
    ensures BackupAccepted(Export(d)) && Restore(Export(d)) == d
  {
  }

  // ---------------------------------------------------------------- courses

  /** `addCourse`: the new course goes first, its zeroed statistics row goes last. */
  function AddCourseTo(d: AppData, freshId: string, name: string): (r: AppData)
    ensures r.courses == [Course(freshId, name)] + d.courses
    ensures r.performance == d.performance + [PerformanceData(freshId, name, 0, 0, 0)]
    ensures r.tasks == d.tasks && r.rewards == d.rewards && r.badges == d.badges && r.successPoints == d.successPoints
  {
    d.(courses := [Course(freshId, name)] + d.courses,
       performance := d.performance + [PerformanceData(freshId, name, 0, 0, 0)])
  }

  /** The three filters of `confirmDeleteCourse`: what does not belong to course `courseId`. */
  function CourseKept(courseId: string): Course -> bool
  {
    (c: Course) => c.id != courseId
  }

  function TaskKept(courseId: string): Task -> bool
  {
    (t: Task) => t.courseId != courseId
  }

  function RowKept(courseId: string): PerformanceData -> bool
  {
    (p: PerformanceData) => p.courseId != courseId
  }

  /** `confirmDeleteCourse`: the course, its tasks and its statistics rows go together. */
  function RemoveCourse(d: AppData, courseId: string): AppData
  {
    d.(courses := Filter(d.courses, CourseKept(courseId)),
       tasks := Filter(d.tasks, TaskKept(courseId)),
       performance := Filter(d.performance, RowKept(courseId)))
  }

  /** Deleting a course leaves nothing that refers to it and keeps everything that refers to another course. */
  lemma RemoveCourseCascade(d: AppData, courseId: string)
    ensures var r := RemoveCourse(d, courseId);
      && (forall c :: c in r.courses <==> c in d.courses && c.id != courseId)
      && (forall t :: t in r.tasks <==> t in d.tasks && t.courseId != courseId)
      && (forall p :: p in r.performance <==> p in d.performance && p.courseId != courseId)
      && r.rewards == d.rewards && r.badges == d.badges && r.successPoints == d.successPoints
  {
  }

  /** The number of tasks removed with a course is the number the confirmation dialog announces. */
  lemma RemoveCourseTaskCount(d: AppData, courseId: string)
    ensures |RemoveCourse(d, courseId).tasks| == |d.tasks| - |Filter(d.tasks, (t: Task) => t.courseId == courseId)|
  {
    FilterComplement(d.tasks, (t: Task) => t.courseId == courseId, TaskKept(courseId));
  }

  // ---------------------------------------------------------------- tasks

  function FindTask(tasks: seq<Task>, id: string): Option<Task>
  {
    Find(tasks, (t: Task) => t.id == id)
  }

  /** The record `completeTask` writes over a task with the completed task's id. */
  function CompletedRecord(t: Task, data: CompletionData, o: Outcome, today: string, now: int): Task
    requires 0.0 <= o.success <= 100.0 && 0.0 <= o.focus <= 100.0
  {
    t.(status := Completed,
       actualDuration := Some(data.actualDuration),
       breakTime := Some(data.breakTime),
       pauseTime := Some(data.pauseTime),
       pagesRead := data.pagesRead,
       emptyCount := if data.emptyCountGiven then data.emptyCount else t.emptyCount,
       completionDate := Some(today),
       completionTimestamp := Some(now),
       correctCount := Some(o.answers.correct),
       incorrectCount := Some(o.answers.incorrect),
       successScore := StoredScore(o.success),
       focusScore := StoredScore(o.focus),
       pointsAwarded := Some(o.points))
  }

  /**
   * The statistics update of `completeTask`: for every task type except
   * reading, each row of the task's course gains the recorded answers and
   * the session's minutes, rounded.
   */
  function ApplyPerformance(perf: seq<PerformanceData>, t: Task, answers: Answers, actual: nat): (r: seq<PerformanceData>)
    ensures |r| == |perf|
    ensures t.taskType == Reading ==> r == perf
    ensures forall i :: 0 <= i < |perf| && perf[i].courseId != t.courseId ==> r[i] == perf[i]
    ensures t.taskType != Reading ==> forall i :: 0 <= i < |perf| && perf[i].courseId == t.courseId ==>
      && r[i].courseId == perf[i].courseId && r[i].courseName == perf[i].courseName
      && r[i].correct == perf[i].correct + answers.correct
      && r[i].incorrect == perf[i].incorrect + answers.incorrect
      && perf[i].timeSpent <= r[i].timeSpent
      && 60 * (r[i].timeSpent - perf[i].timeSpent) - 30 <= actual < 60 * (r[i].timeSpent - perf[i].timeSpent) + 30
  {
    if t.taskType == Reading then perf
    else MapSeq(perf, (p: PerformanceData) =>
      if p.courseId == t.courseId then
        p.(correct := p.correct + answers.correct,
           incorrect := p.incorrect + answers.incorrect,
           timeSpent := p.timeSpent + Numeric.RoundDiv(actual, 60))
      else p)
  }

  /** A task may be completed when it is unknown or when its planned duration is positive. */
  predicate CanComplete(tasks: seq<Task>, taskId: string)
  {
    FindTask(tasks, taskId).Some? ==> FindTask(tasks, taskId).value.plannedDuration > 0
  }

  /**
   * `completeTask`: an unknown id changes nothing; otherwise every task with
   * that id becomes completed with the scores of the first one, the points
   * grow by the points awarded and the course statistics are updated.
   */
  function CompleteTaskIn(d: AppData, taskId: string, data: CompletionData, today: string, now: int): (r: AppData)
    requires CanComplete(d.tasks, taskId)
    ensures FindTask(d.tasks, taskId).None? ==> r == d
    ensures r.courses == d.courses && r.rewards == d.rewards && r.badges == d.badges
    ensures |r.tasks| == |d.tasks|
    ensures forall i :: 0 <= i < |d.tasks| ==> r.tasks[i].id == d.tasks[i].id && r.tasks[i].courseId == d.tasks[i].courseId
    ensures forall i :: 0 <= i < |d.tasks| && d.tasks[i].id != taskId ==> r.tasks[i] == d.tasks[i]
    ensures forall i :: 0 <= i < |d.tasks| && d.tasks[i].id == taskId ==>
      r.tasks[i].status == Completed && r.tasks[i].completionDate == Some(today)
      && r.tasks[i].completionTimestamp == Some(now) && r.tasks[i].actualDuration == Some(data.actualDuration)
    ensures FindTask(d.tasks, taskId).Some? ==>
      var t := FindTask(d.tasks, taskId).value;
      var o := Evaluate(t, data);
      && r.successPoints == d.successPoints + o.points
      && r.successPoints >= d.successPoints + t.plannedDuration
      && r.performance == ApplyPerformance(d.performance, t, o.answers, data.actualDuration)
      && forall i :: 0 <= i < |d.tasks| && d.tasks[i].id == taskId ==>
           var x, y := d.tasks[i], r.tasks[i];
           && y.pointsAwarded == Some(o.points)
           && y.successScore == StoredScore(o.success) && y.focusScore == StoredScore(o.focus)
           && y.correctCount == Some(o.answers.correct) && y.incorrectCount == Some(o.answers.incorrect)
           && y.breakTime == Some(data.breakTime) && y.pauseTime == Some(data.pauseTime) && y.pagesRead == data.pagesRead
           && y.emptyCount == (if data.emptyCountGiven then data.emptyCount else x.emptyCount)
           && (y.title, y.taskType, y.plannedDuration, y.dueDate, y.questionCount, y.bookTitle, y.startTimestamp, y.isSelfAssigned)
              == (x.title, x.taskType, x.plannedDuration, x.dueDate, x.questionCount, x.bookTitle, x.startTimestamp, x.isSelfAssigned)
  {
    match FindTask(d.tasks, taskId)
    case None => d
    case Some(t) =>
      var o := Evaluate(t, data);
      d.(tasks := MapSeq(d.tasks, (x: Task) => if x.id == taskId then CompletedRecord(x, data, o, today, now) else x),
         successPoints := d.successPoints + o.points,
         performance := ApplyPerformance(d.performance, t, o.answers, data.actualDuration))
  }

  /** `updateTaskStatus`. */
  function SetStatusIn(tasks: seq<Task>, taskId: string, status: TaskStatus): (r: seq<Task>)
    ensures |r| == |tasks|
    ensures forall i :: 0 <= i < |tasks| ==> r[i] == if tasks[i].id == taskId then tasks[i].(status := status) else tasks[i]
  {
    MapSeq(tasks, (t: Task) => if t.id == taskId then t.(status := status) else t)
  }

  /** `startTask`: every task with the id gets the start time. */
  function StartIn(tasks: seq<Task>, taskId: string, now: int): (r: seq<Task>)
    ensures |r| == |tasks|
    ensures forall i :: 0 <= i < |tasks| ==> r[i] == if tasks[i].id == taskId then tasks[i].(startTimestamp := Some(now)) else tasks[i]
  {
    MapSeq(tasks, (t: Task) => if t.id == taskId then t.(startTimestamp := Some(now)) else t)
  }

  // ---------------------------------------------------------------- rewards

  function FindReward(rewards: seq<Reward>, id: string): Option<Reward>
  {
    Find(rewards, (r: Reward) => r.id == id)
  }

  /**
   * `claimReward`: the balance after a successful claim, or `None` when the
   * reward is unknown or too expensive (the error notice).
   */
  function ClaimedBalance(rewards: seq<Reward>, points: int, rewardId: string): (r: Option<int>)
    ensures r.Some? <==> FindReward(rewards, rewardId).Some? && points >= FindReward(rewards, rewardId).value.cost
    ensures r.Some? ==> r.value == points - FindReward(rewards, rewardId).value.cost && r.value >= 0
  {
    match FindReward(rewards, rewardId)
    case Some(reward) => if points >= reward.cost then Some(points - reward.cost) else None
    case None => None
  }

  // ---------------------------------------------------------------- badges

  predicate IsCompleted(t: Task)
  {
    t.status == Completed
  }

  /** A completed task whose first namesake in the previous list was not completed. */
  predicate IsNewlyCompleted(prev: seq<Task>, t: Task)
  {
    t.status == Completed && !(FindTask(prev, t.id).Some? && FindTask(prev, t.id).value.status == Completed)
  }

  /**
   * The day a completed task counts for: its completion date, when it has
   * one. The program normalises the date through `toISOString` first; the
   * stored completion date is already the day key, so it is used as it is.
   */
  function CompletionDay(t: Task): Option<string>
  {
    if TruthyText(t.completionDate) then Some(t.completionDate.value) else None
  }

  function One(t: Task): int
  {
    1
  }

  predicate HasBadge(badges: seq<Badge>, id: string)
  {
    exists i :: 0 <= i < |badges| && badges[i].id == id
  }

  /** Some day's count in the per-day tally of completed tasks reaches three. */
  predicate BusyDay(completed: seq<Task>)
  {
    var byDay := TallyOf(completed, CompletionDay, One);
    exists day :: day in byDay && byDay[day].count >= 3
  }

  /** The first course named "Matematik" has ten or more completed tasks. */
  predicate MathMastered(completed: seq<Task>, courses: seq<Course>)
  {
    match Find(courses, (c: Course) => c.name == MathCourseName)
    case None => false
    case Some(math) => |Filter(completed, (t: Task) => t.courseId == math.id)| >= 10
  }

  /** The badges the effect appends when some task has just been completed. */
  function AwardedBadges(badges: seq<Badge>, tasks: seq<Task>, courses: seq<Course>): seq<Badge>
  {
    var completed := Filter(tasks, IsCompleted);
    (if !HasBadge(badges, "b2") && BusyDay(completed) then [BusyBeeBadge] else [])
    + (if !HasBadge(badges, "b3") && MathMastered(completed, courses) then [MathMonsterBadge] else [])
  }

  /** The badge list after the effect that follows a change of the task list. */
  function BadgesAfter(prev: seq<Task>, tasks: seq<Task>, courses: seq<Course>, badges: seq<Badge>): seq<Badge>
  {
    if |Filter(tasks, (t: Task) => IsNewlyCompleted(prev, t))| > 0 then badges + AwardedBadges(badges, tasks, courses)
    else badges
  }

  /** The badge check itself, with the per-day count built by the forEach loop. */
  method CheckAndAwardBadges(badges: seq<Badge>, tasks: seq<Task>, courses: seq<Course>) returns (awarded: seq<Badge>)
    ensures awarded == AwardedBadges(badges, tasks, courses)
    ensures |awarded| <= 2
  {
    var completed := Filter(tasks, IsCompleted);
    awarded := [];
    if !HasBadge(badges, "b2") {
      var byDay := Accumulate(completed, CompletionDay, One);
      if exists day :: day in byDay && byDay[day].count >= 3 {
        awarded := awarded + [BusyBeeBadge];
      }
    }
    if !HasBadge(badges, "b3") {
      var math := Find(courses, (c: Course) => c.name == MathCourseName);
      if math.Some? {
        var mathDone := |Filter(completed, (t: Task) => t.courseId == math.value.id)|;
        if mathDone >= 10 {
          awarded := awarded + [MathMonsterBadge];
        }
      }
    }
  }

  predicate UniqueBadgeIds(badges: seq<Badge>)
  {
    forall i, j :: 0 <= i < j < |badges| ==> badges[i].id != badges[j].id
  }

  /** Badges are only ever added, and never twice. */
  lemma BadgesGrowUniquely(prev: seq<Task>, tasks: seq<Task>, courses: seq<Course>, badges: seq<Badge>)
    requires UniqueBadgeIds(badges)
    ensures var r := BadgesAfter(prev, tasks, courses, badges);
      UniqueBadgeIds(r) && |r| >= |badges| && r[..|badges|] == badges
  {
    var newly := Filter(tasks, (t: Task) => IsNewlyCompleted(prev, t));
    if |newly| > 0 {
      AwardedShape(badges, tasks, courses);
      AppendUniqueBadges(badges, AwardedBadges(badges, tasks, courses));
    }
  }

  lemma AwardedShape(badges: seq<Badge>, tasks: seq<Task>, courses: seq<Course>)
    ensures var added := AwardedBadges(badges, tasks, courses);
      && added in {[], [BusyBeeBadge], [MathMonsterBadge], [BusyBeeBadge, MathMonsterBadge]}
      && (BusyBeeBadge in added <==> !HasBadge(badges, "b2") && BusyDay(Filter(tasks, IsCompleted)))
      && (MathMonsterBadge in added <==> !HasBadge(badges, "b3") && MathMastered(Filter(tasks, IsCompleted), courses))
  {
    var completed := Filter(tasks, IsCompleted);
    var none: seq<Badge> := [];
    var a := if !HasBadge(badges, "b2") && BusyDay(completed) then [BusyBeeBadge] else none;
    var b := if !HasBadge(badges, "b3") && MathMastered(completed, courses) then [MathMonsterBadge] else none;
    assert AwardedBadges(badges, tasks, courses) == a + b;
    if a == none {
      assert a + b == b;
    } else if b == none {
      assert a + b == a;
    } else {
      assert a + b == [BusyBeeBadge, MathMonsterBadge];
    }
  }

  lemma AppendUniqueBadges(badges: seq<Badge>, added: seq<Badge>)
    requires UniqueBadgeIds(badges)
    requires added in {[], [BusyBeeBadge], [MathMonsterBadge], [BusyBeeBadge, MathMonsterBadge]}
    requires BusyBeeBadge in added ==> !HasBadge(badges, "b2")
    requires MathMonsterBadge in added ==> !HasBadge(badges, "b3")
    ensures UniqueBadgeIds(badges + added)
  {
  }

  predicate UniqueTaskIds(tasks: seq<Task>)
  {
    forall i, j :: 0 <= i < j < |tasks| ==> tasks[i].id != tasks[j].id
  }

  /**
   * With distinct task ids, running the effect again on an unchanged list
   * (the previous list now being the current one) awards nothing.
   */
  lemma BadgeEffectSettles(tasks: seq<Task>, courses: seq<Course>, badges: seq<Badge>)
    requires UniqueTaskIds(tasks)
    ensures BadgesAfter(tasks, tasks, courses, badges) == badges
  {
    var newly := Filter(tasks, (t: Task) => IsNewlyCompleted(tasks, t));
    forall t | t in tasks ensures !IsNewlyCompleted(tasks, t) {
      var i :| 0 <= i < |tasks| && tasks[i] == t;
      var k := FindIndex(tasks, (u: Task) => u.id == t.id);
      assert k.Some? && tasks[k.value] == t;
    }
    EmptyWithoutMembers(newly);
  }

  /**
   * "Çalışkan Arı" is awarded exactly when it is not yet held, a task has
   * just been completed and some day has three or more completed tasks
   * counted against it.
   */
  lemma BusyBeeAwardIff(prev: seq<Task>, tasks: seq<Task>, courses: seq<Course>, badges: seq<Badge>)
    requires !HasBadge(badges, "b2")
    ensures var completed := Filter(tasks, IsCompleted);
      HasBadge(BadgesAfter(prev, tasks, courses, badges), "b2")
      <==> |Filter(tasks, (t: Task) => IsNewlyCompleted(prev, t))| > 0
           && exists day :: CountWhere(completed, CompletionDay, day) >= 3
  {
    var completed := Filter(tasks, IsCompleted);
    BusyDayIff(completed);
    AwardedShape(badges, tasks, courses);
    var added := AwardedBadges(badges, tasks, courses);
    if |Filter(tasks, (t: Task) => IsNewlyCompleted(prev, t))| > 0 {
      BusyBeeAdded(badges, added);
    }
  }

  /** With "b2" not yet held, appending an award list holds "b2" exactly when the list holds the busy-bee badge. */
  lemma BusyBeeAdded(badges: seq<Badge>, added: seq<Badge>)
    requires !HasBadge(badges, "b2")
    requires added in {[], [BusyBeeBadge], [MathMonsterBadge], [BusyBeeBadge, MathMonsterBadge]}
    ensures HasBadge(badges + added, "b2") <==> BusyBeeBadge in added
  {
    var r := badges + added;
    if BusyBeeBadge in added {
      var k :| 0 <= k < |added| && added[k] == BusyBeeBadge;
      assert r[|badges| + k] == BusyBeeBadge;
    }
    if HasBadge(r, "b2") {
      var i :| 0 <= i < |r| && r[i].id == "b2";
      assert r[i] in added;
    }
  }

  /** The per-day tally has a day with three tasks exactly when some day has three tasks counted against it. */
  lemma BusyDayIff(completed: seq<Task>)
    ensures BusyDay(completed) <==> exists day :: CountWhere(completed, CompletionDay, day) >= 3
  {
    var byDay := TallyOf(completed, CompletionDay, One);
    if exists day :: CountWhere(completed, CompletionDay, day) >= 3 {
      var day :| CountWhere(completed, CompletionDay, day) >= 3;
      TallyAt(completed, CompletionDay, One, day);
    }
    if BusyDay(completed) {
      var day :| day in byDay && byDay[day].count >= 3;
      TallyAt(completed, CompletionDay, One, day);
    }
  }

  // ---------------------------------------------------------------- the store

  class TaskStore {
    var userType: UserType
    var courses: seq<Course>
    var tasks: seq<Task>
    var performance: seq<PerformanceData>
    var rewards: seq<Reward>
    var successPoints: int
    var badges: seq<Badge>
    var parentLocked: bool
    var loginError: Option<string>
    var importError: Option<string>
    var courseToDelete: Option<Course>
    /** The task list the badge effect last saw. */
    var prevTasks: seq<Task>

    function Data(): AppData
      reads this
    {
      AppData(courses, tasks, performance, rewards, badges, successPoints)
    }

    /** Everything outside the persisted data, which only the lock, import and delete dialogs change. */
    ghost function Session(): (UserType, bool, Option<string>, Option<string>, Option<Course>, seq<Task>)
      reads this
    {
      (userType, parentLocked, loginError, importError, courseToDelete, prevTasks)
    }

    /** A first start: empty lists, the starter badge, zero points, the parent view locked. */
    constructor()
      ensures Data() == AppData([], [], [], [], [FirstStepBadge], 0)
      ensures userType == Parent && parentLocked && loginError == None && importError == None
      ensures courseToDelete == None && prevTasks == []
    {
      userType := Parent;
      courses := [];
      tasks := [];
      performance := [];
      rewards := [];
      successPoints := 0;
      badges := [FirstStepBadge];
      parentLocked := true;
      loginError := None;
      importError := None;
      courseToDelete := None;
      prevTasks := [];
    }

    /** The parent password check. */
    method Unlock(password: string)
      modifies this
      ensures password == ParentPassword ==> !parentLocked && loginError == None
      ensures password != ParentPassword ==> parentLocked == old(parentLocked) && loginError == Some(WrongPasswordMessage)
      ensures Data() == old(Data()) && userType == old(userType)
      ensures importError == old(importError) && courseToDelete == old(courseToDelete) && prevTasks == old(prevTasks)
    {
      if password == ParentPassword {
        parentLocked := false;
        loginError := None;
      } else {
        loginError := Some(WrongPasswordMessage);
      }
    }

    /** Switching views; switching to the child view locks the parent view again. */
    method SwitchUserType(newType: UserType)
      modifies this
      ensures userType == newType
      ensures newType == Child ==> parentLocked && loginError == None
      ensures newType == Parent ==> parentLocked == old(parentLocked) && loginError == old(loginError)
      ensures Data() == old(Data())
      ensures importError == old(importError) && courseToDelete == old(courseToDelete) && prevTasks == old(prevTasks)
    {
      if newType == Child {
        parentLocked := true;
        loginError := None;
      }
      userType := newType;
    }

    /**
     * `handleImportData` on the file's text, given as its parsed value:
     * `None` when `JSON.parse` throws or yields `null` (reading a key of
     * `null` throws too), which the `catch` reports as unreadable.
     */
    method ImportData(parsed: Option<Backup>)
      modifies this
      ensures parsed.None? ==> Data() == old(Data()) && importError == Some(BackupUnreadableMessage)
      ensures parsed.Some? && BackupAccepted(parsed.value) ==> Data() == Restore(parsed.value) && importError == None
      ensures parsed.Some? && !BackupAccepted(parsed.value) ==> Data() == old(Data()) && importError == Some(BackupRejectedMessage)
      ensures (userType, parentLocked, loginError, courseToDelete, prevTasks)
           == (old(userType), old(parentLocked), old(loginError), old(courseToDelete), old(prevTasks))
    {
      importError := None;
      if parsed.None? {
        importError := Some(BackupUnreadableMessage);
        return;
      }
      var b := parsed.value;
      if !BackupAccepted(b) {
        importError := Some(BackupRejectedMessage);
        return;
      }
      courses := b.courses.value;
      tasks := b.tasks.value;
      performance := b.performance.value;
      rewards := b.rewards.value;
      badges := b.badges.value;
      successPoints := b.successPoints.value;
    }

    method AddCourse(freshId: string, name: string)
      modifies this
      ensures Data() == AddCourseTo(old(Data()), freshId, name)
      ensures Session() == old(Session())
    {
      courses := [Course(freshId, name)] + courses;
      performance := performance + [PerformanceData(freshId, name, 0, 0, 0)];
    }

    /** Asks for confirmation before deleting a course that exists. */
    method RequestDeleteCourse(courseId: string)
      modifies this
      ensures courseToDelete == match Find(courses, (c: Course) => c.id == courseId)
        case Some(c) => Some(c)
        case None => old(courseToDelete)
      ensures Data() == old(Data())
      ensures (userType, parentLocked, loginError, importError, prevTasks)
           == (old(userType), old(parentLocked), old(loginError), old(importError), old(prevTasks))
    {
      var course := Find(courses, (c: Course) => c.id == courseId);
      if course.Some? {
        courseToDelete := course;
      }
    }

    method CancelDeleteCourse()
      modifies this
      ensures courseToDelete == None
      ensures Data() == old(Data())
      ensures (userType, parentLocked, loginError, importError, prevTasks)
           == (old(userType), old(parentLocked), old(loginError), old(importError), old(prevTasks))
    {
      courseToDelete := None;
    }

    method ConfirmDeleteCourse()
      modifies this
      ensures old(courseToDelete).None? ==> Data() == old(Data()) && courseToDelete == None
      ensures old(courseToDelete).Some? ==> Data() == RemoveCourse(old(Data()), old(courseToDelete).value.id)
      ensures courseToDelete == None
      ensures (userType, parentLocked, loginError, importError, prevTasks)
           == (old(userType), old(parentLocked), old(loginError), old(importError), old(prevTasks))
    {
      if courseToDelete.Some? {
        var d := RemoveCourse(Data(), courseToDelete.value.id);
        courses, tasks, performance := d.courses, d.tasks, d.performance;
        courseToDelete := None;
      }
    }

    /** `addTask`: the new task, pending, goes first and is returned. */
    method AddTask(freshId: string, draft: TaskDraft) returns (t: Task)
      modifies this
      ensures t == NewTask(freshId, draft) && t.status == Pending
      ensures tasks == [t] + old(tasks)
      ensures Data() == old(Data()).(tasks := tasks)
      ensures Session() == old(Session())
    {
      t := NewTask(freshId, draft);
      tasks := [t] + tasks;
    }

    method DeleteTask(taskId: string)
      modifies this
      ensures tasks == Filter(old(tasks), (t: Task) => t.id != taskId)
      ensures Data() == old(Data()).(tasks := tasks)
      ensures Session() == old(Session())
    {
      tasks := Filter(tasks, (t: Task) => t.id != taskId);
    }

    method StartTask(taskId: string, now: int)
      modifies this
      ensures tasks == StartIn(old(tasks), taskId, now)
      ensures Data() == old(Data()).(tasks := tasks)
      ensures Session() == old(Session())
    {
      tasks := StartIn(tasks, taskId, now);
    }

    method UpdateTaskStatus(taskId: string, status: TaskStatus)
      modifies this
      ensures tasks == SetStatusIn(old(tasks), taskId, status)
      ensures Data() == old(Data()).(tasks := tasks)
      ensures Session() == old(Session())
    {
      tasks := SetStatusIn(tasks, taskId, status);
    }

    /** `completeTask`, `today` and `now` being the date and the clock at the call. */
    method CompleteTask(taskId: string, data: CompletionData, today: string, now: int)
      requires CanComplete(tasks, taskId)
      modifies this
      ensures Data() == CompleteTaskIn(old(Data()), taskId, data, today, now)
      ensures Session() == old(Session())
    {
      var d := CompleteTaskIn(Data(), taskId, data, today, now);
      tasks, successPoints, performance := d.tasks, d.successPoints, d.performance;
    }

    method AddReward(freshId: string, name: string, cost: int)
      modifies this
      ensures rewards == [Reward(freshId, name, cost)] + old(rewards)
      ensures Data() == old(Data()).(rewards := rewards)
      ensures Session() == old(Session())
    {
      rewards := [Reward(freshId, name, cost)] + rewards;
    }

    method DeleteReward(rewardId: string)
      modifies this
      ensures rewards == Filter(old(rewards), (r: Reward) => r.id != rewardId)
      ensures Data() == old(Data()).(rewards := rewards)
      ensures Session() == old(Session())
    {
      rewards := Filter(rewards, (r: Reward) => r.id != rewardId);
    }

    /** `claimReward`; `claimed` tells which notice is shown. */
    method ClaimReward(rewardId: string) returns (claimed: bool)
      modifies this
      ensures claimed == ClaimedBalance(old(rewards), old(successPoints), rewardId).Some?
      ensures claimed ==> successPoints == ClaimedBalance(old(rewards), old(successPoints), rewardId).value
      ensures Data() == old(Data()).(successPoints := successPoints)
      ensures !claimed ==> successPoints == old(successPoints)
      ensures Session() == old(Session())
    {
      var reward := FindReward(rewards, rewardId);
      if reward.Some? && successPoints >= reward.value.cost {
        successPoints := successPoints - reward.value.cost;
        claimed := true;
      } else {
        claimed := false;
      }
    }

    /** The effect that runs after every change of the task or course list. */
    method RunBadgeEffect()
      modifies this
      ensures badges == BadgesAfter(old(prevTasks), old(tasks), old(courses), old(badges))
      ensures prevTasks == tasks
      ensures Data() == old(Data()).(badges := badges)
      ensures (userType, parentLocked, loginError, importError, courseToDelete)
           == (old(userType), old(parentLocked), old(loginError), old(importError), old(courseToDelete))
    {
      var prev := prevTasks;
      var newly := Filter(tasks, (t: Task) => IsNewlyCompleted(prev, t));
      if |newly| > 0 {
        var awarded := CheckAndAwardBadges(badges, tasks, courses);
        if |awarded| > 0 {
          badges := badges + awarded;
        }
      }
      prevTasks := tasks;
    }
  }
}

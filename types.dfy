// The records of the study tracker: courses, tasks, per-course answer
// statistics, rewards, badges and what a finished session reports.
module Types {
  import opened Base

  datatype UserType = Parent | Child

  /** 'bekliyor' (waiting) or 'tamamlandı' (completed). */
  datatype TaskStatus = Pending | Completed

  /** 'soru çözme' (question solving), 'ders çalışma' (study), 'kitap okuma' (reading). */
  datatype TaskType = QuestionSolving | Study | Reading

  /** A course; its icon is presentation only and is not part of the model. */
  datatype Course = Course(id: string, name: string)

  /**
   * A task. Durations `plannedDuration` are minutes, the measured times are
   * seconds. `dueDate` is the time value of the task's due date (the
   * program stores a date string and orders tasks by its time value).
   * Optional fields are `None` where the program leaves them `undefined`.
   */
  datatype Task = Task(
    id: string,
    courseId: string,
    title: string,
    status: TaskStatus,
    taskType: TaskType,
    plannedDuration: int,
    dueDate: int,
    questionCount: Option<int>,
    bookTitle: Option<string>,
    pagesRead: Option<int>,
    actualDuration: Option<int>,
    breakTime: Option<int>,
    pauseTime: Option<int>,
    startTimestamp: Option<int>,
    completionDate: Option<string>,
    completionTimestamp: Option<int>,
    correctCount: Option<int>,
    incorrectCount: Option<int>,
    emptyCount: Option<int>,
    successScore: Option<int>,
    focusScore: Option<int>,
    pointsAwarded: Option<int>,
    isSelfAssigned: bool)

  /** What a caller of `addTask` provides: a task without id and status. */
  datatype TaskDraft = TaskDraft(
    courseId: string,
    title: string,
    taskType: TaskType,
    plannedDuration: int,
    dueDate: int,
    questionCount: Option<int>,
    bookTitle: Option<string>,
    isSelfAssigned: bool)

  /** Accumulated answers and study minutes of one course. */
  datatype PerformanceData = PerformanceData(courseId: string, courseName: string, correct: int, incorrect: int, timeSpent: int)

  datatype Reward = Reward(id: string, name: string, cost: int)

  datatype Badge = Badge(id: string, name: string, description: string)

  /**
   * What a finished session hands to `completeTask`. `emptyCountGiven`
   * records whether the `emptyCount` key is present at all: the task timer
   * always passes it (possibly `undefined`), the reading session never does,
   * and only a present key overwrites the task's own value.
   */
  datatype CompletionData = CompletionData(
    actualDuration: nat,
    breakTime: nat,
    pauseTime: nat,
    pagesRead: Option<int>,
    correctCount: Option<int>,
    incorrectCount: Option<int>,
    emptyCountGiven: bool,
    emptyCount: Option<int>)

  /** JavaScript truthiness of an optional number: defined and not zero. */
  predicate Truthy(n: Option<int>)
  {
    n.Some? && n.value != 0
  }

  /** JavaScript truthiness of an optional string: defined and not empty. */
  predicate TruthyText(s: Option<string>)
  {
    s.Some? && s.value != ""
  }

  function NewTask(id: string, d: TaskDraft): Task
  {
    Task(id, d.courseId, d.title, Pending, d.taskType, d.plannedDuration, d.dueDate,
         d.questionCount, d.bookTitle, None, None, None, None, None, None, None,
         None, None, None, None, None, None, d.isSelfAssigned)
  }
}

// The full-screen session for study and question-solving tasks: a
// three-second countdown, then a clock that counts work, break and pause
// seconds, the answer form for question-solving tasks, and completion.
// Every change of the counters or the phase is written to local storage,
// so that an interrupted session can be recovered.
module TaskTimer {
  import opened Base
  import opened Types
  import opened Session
  import Text
  import Scoring
  import Numeric

  /** The big clock: the seconds left of the plan, or, once over time, the seconds worked. */
  function ClockSeconds(planned: int, mainTime: nat): (r: nat)
    ensures mainTime > planned * 60 ==> r == mainTime
    ensures mainTime <= planned * 60 ==> r + mainTime == planned * 60
  {
    var plannedSeconds := planned * 60;
    var displayTime := if mainTime > plannedSeconds then mainTime else plannedSeconds - mainTime;
    AtLeastZero(displayTime)
  }

  /** `x < 0 ? 0 : x`. */
  function AtLeastZero(x: int): (r: nat)
    ensures x >= 0 ==> r == x
    ensures x < 0 ==> r == 0
  {
    if x < 0 then 0 else x
  }

  /** The clock as shown, `mm:ss`. */
  function ClockText(planned: int, mainTime: nat): string
  {
    Text.FormatTime(ClockSeconds(planned, mainTime))
  }

  /** The shown clock reads back as the remaining or the overtime seconds. */
  lemma ClockTextReadsBack(planned: int, mainTime: nat)
    ensures Text.ParseClock(ClockText(planned, mainTime)) == ClockSeconds(planned, mainTime)
  {
    Text.FormatTimeRoundTrip(ClockSeconds(planned, mainTime));
  }

  /** Finishing opens the answer form, rather than the confirmation, for these tasks. */
  predicate AsksForAnswers(t: Task)
  {
    t.taskType == QuestionSolving && Truthy(t.questionCount) && t.questionCount.value > 0
  }

  /**
   * The answer form is shown exactly for the tasks whose success score is
   * computed from the answers: for them it is the share of correct answers
   * scaled by the time modifier and clamped; for every other task the
   * success score is the focus score.
   */
  lemma AnswerFormIffAccuracyScore(t: Task, answers: Scoring.Answers, actual: nat, focus: real)
    requires t.plannedDuration > 0 && 0.0 <= focus <= 100.0
    ensures !AsksForAnswers(t) ==> Scoring.SuccessScore(t, answers, actual, focus) == focus
    ensures AsksForAnswers(t) ==>
      var accuracy := (answers.correct as real / t.questionCount.value as real) * 100.0;
      var ratio := actual as real / (t.plannedDuration * 60) as real;
      Scoring.SuccessScore(t, answers, actual, focus) == Numeric.Clamp100(accuracy * Scoring.TimeModifier(ratio))
  {
  }

  class Timer {
    const task: Task
    const storage: SnapshotStorage
    var mainTime: nat
    var breakTime: nat
    var pauseTime: nat
    var status: Phase
    var showCountdown: bool
    /** A one-second interval is scheduled. */
    var ticking: bool
    var showCompleteModal: bool
    var showAnalysisModal: bool
    var wasTaskDeleted: bool
    var correctInput: NumberInput
    var incorrectInput: NumberInput
    var emptyInput: NumberInput
    /** `onFinishSession` has been called: the dashboard has closed the session. */
    var closed: bool

    function State(): TimerState
      reads this
    {
      TimerState(mainTime, breakTime, pauseTime, status)
    }

    /** The snapshot in storage is the current state. */
    ghost predicate Persisted()
      reads this, storage
    {
      TimerKey(task.id) in storage.items && storage.items[TimerKey(task.id)] == Saved(State())
    }

    /**
     * While the session is open and its task exists, storage holds its
     * current state; a closed session has no interval running; at most one
     * dialog is open, and only over a paused clock, after the countdown.
     */
    ghost predicate Valid()
      reads this, storage
    {
      (!closed && !wasTaskDeleted ==> Persisted())
      && (closed ==> !ticking)
      && (showCountdown ==> !ticking)
      && (showCompleteModal || showAnalysisModal ==> status == Paused && !showCountdown)
      && !(showCompleteModal && showAnalysisModal)
    }

    /** The controls are on screen: no countdown, no dialog, no deletion notice. */
    predicate ControlsShown()
      reads this
    {
      !closed && !showCountdown && !wasTaskDeleted && !showCompleteModal && !showAnalysisModal
    }

    /**
     * Mounting the session: the counters come from the recovered snapshot or
     * start at zero; a fresh session starts with the countdown. The mount
     * runs the deletion check and then writes the snapshot.
     */
    constructor(task: Task, tasks: seq<Task>, storage: SnapshotStorage, initial: Option<TimerState>)
      modifies storage
      ensures this.task == task && this.storage == storage
      ensures State() == InitialState(initial)
      ensures showCountdown == initial.None? && ticking == initial.Some?
      ensures wasTaskDeleted == !(exists i :: 0 <= i < |tasks| && tasks[i].id == task.id)
      ensures !showCompleteModal && !showAnalysisModal && !closed
      ensures correctInput == Blank && incorrectInput == Blank && emptyInput == Blank
      ensures storage.items == old(storage.items)[TimerKey(task.id) := Saved(InitialState(initial))]
      ensures Valid()
    {
      this.task := task;
      this.storage := storage;
      var s := InitialState(initial);
      mainTime := s.mainTime;
      breakTime := s.breakTime;
      pauseTime := s.pauseTime;
      status := s.status;
      showCountdown := initial.None?;
      showCompleteModal := false;
      showAnalysisModal := false;
      correctInput := Blank;
      incorrectInput := Blank;
      emptyInput := Blank;
      closed := false;
      ticking := false;
      wasTaskDeleted := false;
      new;
      var exists_ := exists i :: 0 <= i < |tasks| && tasks[i].id == task.id;
      if !exists_ {
        storage.Remove(task.id);
        wasTaskDeleted := true;
      }
      storage.Save(task.id, State());
      ticking := !showCountdown;
    }

    /** The deletion check, run whenever the task list changes. */
    method ObserveTasks(tasks: seq<Task>)
      requires Valid()
      modifies this, storage
      ensures Valid()
      ensures (exists i :: 0 <= i < |tasks| && tasks[i].id == task.id) ==>
        wasTaskDeleted == old(wasTaskDeleted) && ticking == old(ticking) && storage.items == old(storage.items)
      ensures !(exists i :: 0 <= i < |tasks| && tasks[i].id == task.id) ==>
        wasTaskDeleted && !ticking && storage.items == old(storage.items) - {TimerKey(task.id)}
      ensures State() == old(State()) && closed == old(closed) && showCountdown == old(showCountdown)
      ensures showCompleteModal == old(showCompleteModal) && showAnalysisModal == old(showAnalysisModal)
    {
      if !(exists i :: 0 <= i < |tasks| && tasks[i].id == task.id) {
        ticking := false;
        storage.Remove(task.id);
        wasTaskDeleted := true;
      }
    }

    /** The countdown reaches zero: the interval effect starts ticking. */
    method FinishCountdown()
      requires Valid() && showCountdown && !closed
      modifies this
      ensures !showCountdown && ticking
      ensures State() == old(State()) && wasTaskDeleted == old(wasTaskDeleted) && closed == old(closed)
      ensures showCompleteModal == old(showCompleteModal) && showAnalysisModal == old(showAnalysisModal)
      ensures Valid()
    {
      showCountdown := false;
      ticking := true;
    }

    /** One firing of the interval, followed by the snapshot write. */
    method OnTick()
      requires Valid()
      modifies this, storage
      ensures old(ticking) ==> State() == Tick(old(State())) && storage.items == old(storage.items)[TimerKey(task.id) := Saved(State())]
      ensures !old(ticking) ==> State() == old(State()) && storage.items == old(storage.items)
      ensures ticking == old(ticking) && closed == old(closed) && wasTaskDeleted == old(wasTaskDeleted)
      ensures showCountdown == old(showCountdown)
      ensures showCompleteModal == old(showCompleteModal) && showAnalysisModal == old(showAnalysisModal)
      ensures Valid()
    {
      if ticking {
        var s := Tick(State());
        mainTime, breakTime, pauseTime := s.mainTime, s.breakTime, s.pauseTime;
        storage.Save(task.id, State());
      }
    }

    /**
     * `setStatus(p)`: the snapshot effect saves the new state, and the
     * interval effect, keyed on the status, starts a new interval when the
     * status changes and no countdown is shown, even after a deletion.
     */
    method SetPhase(p: Phase)
      requires Valid() && !closed && !showCompleteModal && !showAnalysisModal
      modifies this, storage
      ensures State() == old(State()).(status := p)
      ensures storage.items == old(storage.items)[TimerKey(task.id) := Saved(State())]
      ensures ticking == if p != old(status) then !showCountdown else old(ticking)
      ensures closed == old(closed) && wasTaskDeleted == old(wasTaskDeleted)
      ensures showCountdown == old(showCountdown)
      ensures showCompleteModal == old(showCompleteModal) && showAnalysisModal == old(showAnalysisModal)
      ensures Valid()
    {
      var changed := p != status;
      status := p;
      storage.Save(task.id, State());
      if changed {
        ticking := !showCountdown;
      }
    }

    /** "Durdur" / "Devam Et". */
    method PressPause()
      requires Valid() && ControlsShown()
      modifies this, storage
      ensures State() == old(State()).(status := PauseControl(old(status)))
      ensures storage.items == old(storage.items)[TimerKey(task.id) := Saved(State())]
      ensures ControlsShown() && ticking && Valid()
    {
      SetPhase(PauseControl(status));
    }

    /** "Mola Ver" / "Molayı Bitir". */
    method PressBreak()
      requires Valid() && ControlsShown()
      modifies this, storage
      ensures State() == old(State()).(status := BreakControl(old(status)))
      ensures storage.items == old(storage.items)[TimerKey(task.id) := Saved(State())]
      ensures ControlsShown() && ticking && Valid()
    {
      SetPhase(BreakControl(status));
    }

    /** "Bitir": pause, then ask for the answers or for confirmation. */
    method RequestFinish()
      requires Valid() && ControlsShown()
      modifies this, storage
      ensures State() == old(State()).(status := Paused)
      ensures showAnalysisModal == AsksForAnswers(task) && showCompleteModal == !AsksForAnswers(task)
      ensures storage.items == old(storage.items)[TimerKey(task.id) := Saved(State())]
      ensures ticking == (old(ticking) || old(status) != Paused)
      ensures !closed && !wasTaskDeleted && Valid()
    {
      SetPhase(Paused);
      if AsksForAnswers(task) {
        showAnalysisModal := true;
      } else {
        showCompleteModal := true;
      }
    }

    /** The answer form's check: the three numbers, blanks read as 0, add up to the question count. */
    static predicate AnswersAddUp(t: Task, correct: NumberInput, incorrect: NumberInput, empty: NumberInput)
    {
      t.questionCount.Some? && t.questionCount.value == OrZero(correct) + OrZero(incorrect) + OrZero(empty)
    }

    /** The answer form's submit: accepted when the three numbers add up to the question count. */
    method SubmitAnswers(correct: NumberInput, incorrect: NumberInput, empty: NumberInput) returns (accepted: bool)
      requires Valid() && showAnalysisModal && !closed
      modifies this
      ensures correctInput == correct && incorrectInput == incorrect && emptyInput == empty
      ensures accepted <==> AnswersAddUp(task, correct, incorrect, empty)
      ensures accepted ==> !showAnalysisModal && showCompleteModal
      ensures !accepted ==> showAnalysisModal == old(showAnalysisModal) && showCompleteModal == old(showCompleteModal)
      ensures State() == old(State()) && ticking == old(ticking) && closed == old(closed)
      ensures wasTaskDeleted == old(wasTaskDeleted) && showCountdown == old(showCountdown)
      ensures Valid()
    {
      accepted := AnswersAddUp(task, correct, incorrect, empty);
      if accepted {
        showAnalysisModal, showCompleteModal := false, true;
      }
      correctInput, incorrectInput, emptyInput := correct, incorrect, empty;
    }

    /** "Geri Dön" on the answer form: back to the paused clock. */
    method LeaveAnswers()
      requires Valid() && showAnalysisModal
      modifies this
      ensures !showAnalysisModal && showCompleteModal == old(showCompleteModal)
      ensures State() == old(State()) && ticking == old(ticking) && closed == old(closed)
      ensures wasTaskDeleted == old(wasTaskDeleted) && showCountdown == old(showCountdown)
      ensures Valid()
    {
      showAnalysisModal := false;
    }

    /**
     * "Geri Dön" on the confirmation: close it and run again. The status
     * leaves `paused`, so a new interval starts; the dialog stays usable
     * over the deletion notice, so this holds after a deletion too.
     */
    method LeaveConfirmation()
      requires Valid() && showCompleteModal && !closed
      modifies this, storage
      ensures !showCompleteModal && State() == old(State()).(status := Running)
      ensures storage.items == old(storage.items)[TimerKey(task.id) := Saved(State())]
      ensures ticking && !closed && wasTaskDeleted == old(wasTaskDeleted)
      ensures showAnalysisModal == old(showAnalysisModal) && showCountdown == old(showCountdown)
      ensures Valid()
    {
      showCompleteModal := false;
      SetPhase(Running);
    }

    /** What the confirmation hands to `completeTask`. */
    function Report(): (data: CompletionData)
      reads this
      ensures data.actualDuration == mainTime && data.breakTime == breakTime && data.pauseTime == pauseTime
      ensures data.pagesRead.None? && data.emptyCountGiven
      ensures task.taskType == QuestionSolving <==> data.correctCount.Some?
      ensures task.taskType == QuestionSolving <==> data.incorrectCount.Some?
      ensures task.taskType == QuestionSolving <==> data.emptyCount.Some?
    {
      var asked := task.taskType == QuestionSolving;
      CompletionData(mainTime, breakTime, pauseTime, None,
        if asked then Some(OrZero(correctInput)) else None,
        if asked then Some(OrZero(incorrectInput)) else None,
        true,
        if asked then Some(OrZero(emptyInput)) else None)
    }

    /** "Evet, Bitir": drop the snapshot, report the session and close. */
    method ConfirmCompletion() returns (data: CompletionData)
      requires Valid() && showCompleteModal && !closed
      modifies this, storage
      ensures data == old(Report())
      ensures storage.items == old(storage.items) - {TimerKey(task.id)}
      ensures closed && !ticking && State() == old(State())
      ensures Valid()
    {
      storage.Remove(task.id);
      data := Report();
      closed := true;
      ticking := false;
    }

    /** "Daha Sonra": close the session and keep the snapshot for later. */
    method ContinueLater()
      requires Valid() && ControlsShown()
      modifies this
      ensures closed && !ticking && State() == old(State())
      ensures Valid() && Persisted()
    {
      closed := true;
      ticking := false;
    }

    /** "Anladım" on the deletion notice. */
    method AcknowledgeDeletion()
      requires Valid() && wasTaskDeleted && !closed
      modifies this
      ensures closed && !ticking && State() == old(State())
      ensures Valid()
    {
      closed := true;
      ticking := false;
    }
  }

  /**
   * The task is deleted while the completion dialog is open and the child
   * then presses "Geri Dön": the clock runs again and the deleted task's
   * snapshot is written back, until "Anladım" closes the screen.
   */
  method BackAfterDeletion(t: Task, saved: TimerState) returns (deleted: bool, ticks: bool, snapshotBack: bool)
    requires !AsksForAnswers(t)
    ensures deleted && ticks && snapshotBack
  {
    var storage := new SnapshotStorage(map[]);
    assert [t][0].id == t.id;
    var timer := new Timer(t, [t], storage, Some(saved));
    timer.RequestFinish();
    timer.ObserveTasks([]);
    timer.LeaveConfirmation();
    deleted, ticks, snapshotBack := timer.wasTaskDeleted, timer.ticking, TimerKey(t.id) in storage.items;
  }

  /**
   * A question-solving session completed through the answer form records
   * the entered counts, and `completeTask` keeps exactly those answers.
   */
  lemma ReportedAnswersAreKept(t: Task, data: CompletionData)
    requires t.taskType == QuestionSolving && data.correctCount.Some? && data.incorrectCount.Some?
    ensures Scoring.RecordedAnswers(t, data) == Scoring.Answers(data.correctCount.value, data.incorrectCount.value)
  {
  }
}

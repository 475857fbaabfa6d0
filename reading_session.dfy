// The full-screen session for reading tasks: a clock counting reading,
// break and pause seconds with no countdown, and a completion dialog that
// asks for the number of pages read.
module ReadingSession {
  import opened Base
  import opened Types
  import opened Session
  import Scoring
  import Numeric

  /** The page count is accepted when the field holds a positive number. */
  predicate PagesAccepted(pages: NumberInput)
  {
    pages.Number? && pages.value > 0
  }

  class Reader {
    const task: Task
    const storage: SnapshotStorage
    var mainTime: nat
    var breakTime: nat
    var pauseTime: nat
    var status: Phase
    var ticking: bool
    var showCompleteModal: bool
    var pagesInput: NumberInput
    var wasTaskDeleted: bool
    var closed: bool

    function State(): TimerState
      reads this
    {
      TimerState(mainTime, breakTime, pauseTime, status)
    }

    ghost predicate Persisted()
      reads this, storage
    {
      TimerKey(task.id) in storage.items && storage.items[TimerKey(task.id)] == Saved(State())
    }

    /**
     * While the session is open and its task exists, storage holds its
     * current state; a closed session has no interval running; the pages
     * dialog is only open over a paused clock.
     */
    ghost predicate Valid()
      reads this, storage
    {
      (!closed && !wasTaskDeleted ==> Persisted()) && (closed ==> !ticking)
      && (showCompleteModal ==> status == Paused)
    }

    predicate ControlsShown()
      reads this
    {
      !closed && !wasTaskDeleted && !showCompleteModal
    }

    /** Mounting: counters from the recovered snapshot or zero, ticking at once. */
    constructor(task: Task, tasks: seq<Task>, storage: SnapshotStorage, initial: Option<TimerState>)
      modifies storage
      ensures this.task == task && this.storage == storage
      ensures State() == InitialState(initial) && ticking
      ensures wasTaskDeleted == !(exists i :: 0 <= i < |tasks| && tasks[i].id == task.id)
      ensures !showCompleteModal && pagesInput == Blank && !closed
      ensures storage.items == old(storage.items)[TimerKey(task.id) := Saved(InitialState(initial))]
      ensures Valid()
    {
      this.task := task;
      this.storage := storage;
      var s := InitialState(initial);
      mainTime := s.mainTime;
      breakTime := s.breakTime;
      pauseTime := s.pauseTime;
      status := s.status;
      showCompleteModal := false;
      pagesInput := Blank;
      closed := false;
      ticking := false;
      wasTaskDeleted := false;
      new;
      if !(exists i :: 0 <= i < |tasks| && tasks[i].id == task.id) {
        storage.Remove(task.id);
        wasTaskDeleted := true;
      }
      storage.Save(task.id, State());
      ticking := true;
    }

    /** The deletion check, run whenever the task list changes. */
    method ObserveTasks(tasks: seq<Task>)
      requires Valid()
      modifies this, storage
      ensures Valid()
      ensures (exists i :: 0 <= i < |tasks| && tasks[i].id == task.id) ==>
        wasTaskDeleted == old(wasTaskDeleted) && ticking == old(ticking) && storage.items == old(storage.items)
      ensures !(exists i :: 0 <= i < |tasks| && tasks[i].id == task.id) ==>
        wasTaskDeleted && !ticking && storage.items == old(storage.items) - {TimerKey(task.id)}
      ensures State() == old(State()) && closed == old(closed) && showCompleteModal == old(showCompleteModal)
    {
      if !(exists i :: 0 <= i < |tasks| && tasks[i].id == task.id) {
        ticking := false;
        storage.Remove(task.id);
        wasTaskDeleted := true;
      }
    }

    /** One firing of the interval, followed by the snapshot write. */
    method OnTick()
      requires Valid()
      modifies this, storage
      ensures old(ticking) ==> State() == Tick(old(State())) && storage.items == old(storage.items)[TimerKey(task.id) := Saved(State())]
      ensures !old(ticking) ==> State() == old(State()) && storage.items == old(storage.items)
      ensures ticking == old(ticking) && closed == old(closed) && wasTaskDeleted == old(wasTaskDeleted)
      ensures showCompleteModal == old(showCompleteModal)
      ensures Valid()
    {
      if ticking {
        var s := Tick(State());
        mainTime, breakTime, pauseTime := s.mainTime, s.breakTime, s.pauseTime;
        storage.Save(task.id, State());
      }
    }

    /**
     * `setStatus(p)`: the snapshot effect saves the new state, and the
     * interval effect, keyed on the status, starts a new interval when the
     * status changes, even after a deletion.
     */
    method SetPhase(p: Phase)
      requires Valid() && !closed && !showCompleteModal
      modifies this, storage
      ensures State() == old(State()).(status := p)
      ensures storage.items == old(storage.items)[TimerKey(task.id) := Saved(State())]
      ensures ticking == (old(ticking) || p != old(status))
      ensures closed == old(closed) && wasTaskDeleted == old(wasTaskDeleted)
      ensures showCompleteModal == old(showCompleteModal)
      ensures Valid()
    {
      var changed := p != status;
      status := p;
      storage.Save(task.id, State());
      if changed {
        ticking := true;
      }
    }

    /** "Durdur" / "Devam Et". */
    method PressPause()
      requires Valid() && ControlsShown()
      modifies this, storage
      ensures State() == old(State()).(status := PauseControl(old(status)))
      ensures storage.items == old(storage.items)[TimerKey(task.id) := Saved(State())]
      ensures ControlsShown() && ticking && Valid()
    {
      SetPhase(PauseControl(status));
    }

    /** "Mola Ver" / "Molayı Bitir". */
    method PressBreak()
      requires Valid() && ControlsShown()
      modifies this, storage
      ensures State() == old(State()).(status := BreakControl(old(status)))
      ensures storage.items == old(storage.items)[TimerKey(task.id) := Saved(State())]
      ensures ControlsShown() && ticking && Valid()
    {
      SetPhase(BreakControl(status));
    }

    /** "Bitir": pause and ask for the pages read. */
    method RequestFinish()
      requires Valid() && ControlsShown()
      modifies this, storage
      ensures State() == old(State()).(status := Paused) && showCompleteModal
      ensures storage.items == old(storage.items)[TimerKey(task.id) := Saved(State())]
      ensures ticking == (old(ticking) || old(status) != Paused)
      ensures !closed && !wasTaskDeleted && Valid()
    {
      SetPhase(Paused);
      showCompleteModal := true;
    }

    /**
     * "Geri Dön": close the dialog and read on. The status leaves `paused`,
     * so a new interval starts; the dialog stays usable over the deletion
     * notice, so this holds after a deletion too.
     */
    method LeaveConfirmation()
      requires Valid() && showCompleteModal && !closed
      modifies this, storage
      ensures !showCompleteModal && State() == old(State()).(status := Running)
      ensures storage.items == old(storage.items)[TimerKey(task.id) := Saved(State())]
      ensures ticking && !closed && wasTaskDeleted == old(wasTaskDeleted)
      ensures Valid()
    {
      showCompleteModal := false;
      SetPhase(Running);
    }

    /**
     * "Onayla": with a positive page count, drop the snapshot, report the
     * session and close; otherwise nothing changes but the notice.
     */
    method ConfirmCompletion(pages: NumberInput) returns (data: Option<CompletionData>)
      requires Valid() && showCompleteModal && !closed
      modifies this, storage
      ensures pagesInput == pages
      ensures PagesAccepted(pages) ==>
        && data == Some(CompletionData(old(mainTime), old(breakTime), old(pauseTime), Some(pages.value), None, None, false, None))
        && storage.items == old(storage.items) - {TimerKey(task.id)}
        && closed && !ticking
      ensures !PagesAccepted(pages) ==>
        data.None? && storage.items == old(storage.items) && !closed && ticking == old(ticking) && showCompleteModal
      ensures State() == old(State()) && wasTaskDeleted == old(wasTaskDeleted)
      ensures Valid()
    {
      pagesInput := pages;
      if PagesAccepted(pages) {
        storage.Remove(task.id);
        data := Some(CompletionData(mainTime, breakTime, pauseTime, Some(pages.value), None, None, false, None));
        closed := true;
        ticking := false;
      } else {
        data := None;
      }
    }

    /** "Anladım" on the deletion notice. */
    method AcknowledgeDeletion()
      requires Valid() && wasTaskDeleted && !closed
      modifies this
      ensures closed && !ticking && State() == old(State())
      ensures Valid()
    {
      closed := true;
      ticking := false;
    }
  }

  /**
   * The task is deleted while the pages dialog is open and the child then
   * presses "Geri Dön": the clock runs again and the deleted task's
   * snapshot is written back, until "Anladım" closes the screen.
   */
  method BackAfterDeletion(t: Task) returns (deleted: bool, ticks: bool, snapshotBack: bool)
    ensures deleted && ticks && snapshotBack
  {
    var storage := new SnapshotStorage(map[]);
    assert [t][0].id == t.id;
    var r := new Reader(t, [t], storage, None);
    r.RequestFinish();
    r.ObserveTasks([]);
    r.LeaveConfirmation();
    deleted, ticks, snapshotBack := r.wasTaskDeleted, r.ticking, TimerKey(t.id) in storage.items;
  }

  /**
   * A confirmed reading session earns its planned minutes, bonuses
   * included, plus one point per page: the pages are never lost.
   */
  lemma ReadingPointsCountPages(planned: int, success: real, focus: real, pages: int)
    requires planned >= 0 && pages > 0
    ensures Scoring.Points(planned, success, focus, Some(pages)) >= planned + pages
  {
    var raw := Scoring.RawPoints(planned, success, focus, Some(pages));
    assert raw >= (planned + pages) as real;
    Numeric.RoundWhole(planned + pages);
    Numeric.RoundMonotone((planned + pages) as real, raw);
  }
}

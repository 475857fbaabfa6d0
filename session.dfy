// What the task timer and the reading session share: the three counters
// and the phase of a running session, the snapshot they keep in local
// storage under "timerState_<task id>", and the controls of the phase.
module Session {
  import opened Base

  /** 'running', 'paused' or 'break'. */
  datatype Phase = Running | Paused | OnBreak

  /** A session snapshot: seconds worked, on break and paused, and the phase. */
  datatype TimerState = TimerState(mainTime: nat, breakTime: nat, pauseTime: nat, status: Phase)

  /** A value kept in local storage: a readable snapshot, or text JSON.parse rejects. */
  datatype Stored = Saved(state: TimerState) | Unreadable

  /** A number typed into a form field: empty, a number, or text that is not a number. */
  datatype NumberInput = Blank | Number(value: int) | NotANumber

  /** `Number(text) || 0`. */
  function OrZero(e: NumberInput): int
  {
    if e.Number? then e.value else 0
  }

  const KeyPrefix: string := "timerState_"

  function TimerKey(taskId: string): string
  {
    KeyPrefix + taskId
  }

  /** Distinct tasks never share a snapshot key. */
  lemma TimerKeyInjective(a: string, b: string)
    ensures TimerKey(a) == TimerKey(b) ==> a == b
  {
    if TimerKey(a) == TimerKey(b) {
      assert a == TimerKey(a)[|KeyPrefix|..];
      assert b == TimerKey(b)[|KeyPrefix|..];
    }
  }

  /** The state a session opens with: the recovered snapshot, or zero counters and running. */
  function InitialState(initial: Option<TimerState>): (s: TimerState)
    ensures initial.Some? ==> s == initial.value
    ensures initial.None? ==> s.mainTime + s.breakTime + s.pauseTime == 0 && s.status == Running
  {
    match initial
    case Some(t) => t
    case None => TimerState(0, 0, 0, Running)
  }

  /** One firing of the one-second interval: the counter of the current phase grows by one. */
  function Tick(s: TimerState): (r: TimerState)
    ensures r.status == s.status
    ensures r.mainTime + r.breakTime + r.pauseTime == s.mainTime + s.breakTime + s.pauseTime + 1
    ensures r.mainTime == s.mainTime + (if s.status == Running then 1 else 0)
    ensures r.breakTime == s.breakTime + (if s.status == OnBreak then 1 else 0)
    ensures r.pauseTime == s.pauseTime + (if s.status == Paused then 1 else 0)
  {
    match s.status
    case Running => s.(mainTime := s.mainTime + 1)
    case OnBreak => s.(breakTime := s.breakTime + 1)
    case Paused => s.(pauseTime := s.pauseTime + 1)
  }

  /** `n` seconds in one phase add `n` to that phase's counter and nothing else. */
  lemma {:induction false} TicksInPhase(s: TimerState, n: nat)
    ensures var r := Ticks(s, n);
      r.status == s.status
      && r.mainTime == s.mainTime + (if s.status == Running then n else 0)
      && r.breakTime == s.breakTime + (if s.status == OnBreak then n else 0)
      && r.pauseTime == s.pauseTime + (if s.status == Paused then n else 0)
  {
    if n > 0 {
      TicksInPhase(s, n - 1);
    }
  }

  function Ticks(s: TimerState, n: nat): TimerState
  {
    if n == 0 then s else Tick(Ticks(s, n - 1))
  }

  /** The left control: "Durdur" (pause) while running, "Devam Et" (resume) otherwise. */
  function PauseControl(p: Phase): (r: Phase)
    ensures r == Running <==> p != Running
    ensures r != OnBreak
  {
    if p == Running then Paused else Running
  }

  /** The break control: "Mola Ver" (take a break) unless on break, "Molayı Bitir" (end it) on break. */
  function BreakControl(p: Phase): (r: Phase)
    ensures r == OnBreak <==> p != OnBreak
    ensures r != Paused
  {
    if p != OnBreak then OnBreak else Running
  }

  /** Pressing the same control twice from the running phase returns to it. */
  lemma ControlsReturnToRunning(p: Phase)
    ensures PauseControl(PauseControl(Running)) == Running
    ensures BreakControl(BreakControl(Running)) == Running
    ensures BreakControl(BreakControl(p)) == Running || p == OnBreak
  {
  }

  /** Local storage, restricted to the snapshot entries. */
  class SnapshotStorage {
    var items: map<string, Stored>

    constructor(initial: map<string, Stored>)
      ensures items == initial
    {
      items := initial;
    }

    /** `localStorage.setItem(TimerKey(id), JSON.stringify(s))`. */
    method Save(taskId: string, s: TimerState)
      modifies this
      ensures items == old(items)[TimerKey(taskId) := Saved(s)]
    {
      items := items[TimerKey(taskId) := Saved(s)];
    }

    /** `localStorage.removeItem(TimerKey(id))`. */
    method Remove(taskId: string)
      modifies this
      ensures items == old(items) - {TimerKey(taskId)}
    {
      items := items - {TimerKey(taskId)};
    }
  }
}

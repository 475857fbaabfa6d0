// How a finished session is scored when `completeTask` runs: the focus
// score, the success score, the points awarded and the answer counts kept.
module Scoring {
  import opened Base
  import opened Numeric
  import opened Types

  datatype Answers = Answers(correct: int, incorrect: int)

  /** The scores of one completion; `success` and `focus` are the unrounded values. */
  datatype Outcome = Outcome(answers: Answers, success: real, focus: real, points: int)

  /** Answers are recorded only for question-solving tasks whose session reports both counts. */
  function RecordedAnswers(t: Task, data: CompletionData): (a: Answers)
    ensures a != Answers(0, 0) ==> t.taskType == QuestionSolving
  {
    if t.taskType == QuestionSolving && data.correctCount.Some? && data.incorrectCount.Some? then
      Answers(data.correctCount.value, data.incorrectCount.value)
    else Answers(0, 0)
  }

  /**
   * The focus score: 100, less half the share of the session spent on
   * breaks and pauses, less half the relative overtime, clamped to [0, 100];
   * 100 for an empty session.
   */
  function FocusScore(planned: int, actual: nat, breakTime: nat, pauseTime: nat): (r: real)
    requires planned > 0
    ensures 0.0 <= r <= 100.0
    ensures actual + breakTime + pauseTime == 0 ==> r == 100.0
  {
    var plannedSeconds := (planned * 60) as real;
    var total := actual + breakTime + pauseTime;
    if total > 0 then
      var distraction := (breakTime + pauseTime) as real / total as real;
      var score := 100.0 - distraction * 50.0;
      var score' := if actual as real > plannedSeconds then score - ((actual as real - plannedSeconds) / plannedSeconds) * 50.0 else score;
      Clamp100(score')
    else 100.0
  }

  /** A session earns full focus exactly when it had no break, no pause and no overtime. */
  lemma FocusPerfectIff(planned: int, actual: nat, breakTime: nat, pauseTime: nat)
    requires planned > 0
    ensures FocusScore(planned, actual, breakTime, pauseTime) == 100.0
            <==> breakTime + pauseTime == 0 && actual <= planned * 60
  {
    var total := actual + breakTime + pauseTime;
    if total > 0 && breakTime + pauseTime > 0 {
      var d := (breakTime + pauseTime) as real / total as real;
      assert d * total as real == (breakTime + pauseTime) as real;
      assert d > 0.0;
    }
    if total > 0 && breakTime + pauseTime == 0 && actual > planned * 60 {
      var ps := (planned * 60) as real;
      var o := (actual as real - ps) / ps;
      assert o * ps == actual as real - ps;
      assert o > 0.0;
    }
  }

  /** More break time never raises the focus score. */
  lemma FocusAntitoneInBreak(planned: int, actual: nat, b1: nat, b2: nat, pauseTime: nat)
    requires planned > 0 && b1 <= b2
    ensures FocusScore(planned, actual, b2, pauseTime) <= FocusScore(planned, actual, b1, pauseTime)
  {
    if actual + b1 + pauseTime > 0 {
      ShareMonotone(actual, b1 + pauseTime, b2 + pauseTime);
    }
  }

  /** The share of a session spent away grows with the time away. */
  lemma ShareMonotone(actual: nat, x1: nat, x2: nat)
    requires x1 <= x2 && actual + x1 > 0
    ensures x1 as real / (actual + x1) as real <= x2 as real / (actual + x2) as real
  {
    assert x1 * (actual + x2) <= x2 * (actual + x1) by {
      assert x1 * (actual + x2) == x1 * actual + x1 * x2;
      assert x2 * (actual + x1) == x2 * actual + x2 * x1;
      if actual > 0 {
        MulMono(actual, x1, x2);
      }
    }
    DivCrossMonotone(x1 as real, (actual + x1) as real, x2 as real, (actual + x2) as real);
  }

  lemma DivCrossMonotone(a: real, x: real, b: real, y: real)
    requires x > 0.0 && y > 0.0 && a * y <= b * x
    ensures a / x <= b / y
  {
    var p := a / x;
    var q := b / y;
    assert p * x == a && q * y == b;
    assert p * x * y <= q * y * x;
  }

  /** The success bonus or penalty for finishing at `ratio` times the planned time. */
  function TimeModifier(ratio: real): (m: real)
    ensures ratio >= 0.0 ==> m <= 1.1
    ensures m == 1.0 <==> ratio == 1.0
    ensures ratio < 1.0 ==> m > 1.0
    ensures ratio > 1.0 ==> m < 1.0
  {
    if ratio < 1.0 then 1.0 + (1.0 - ratio) * 0.1 else 1.0 - (ratio - 1.0) * 0.2
  }

  /** A slower session never earns a larger modifier. */
  lemma TimeModifierAntitone(r1: real, r2: real)
    requires r1 <= r2
    ensures TimeModifier(r2) <= TimeModifier(r1)
  {
  }

  /**
   * The success score: for a question-solving task with a positive question
   * count, the share of correct answers scaled by the time modifier and
   * clamped to [0, 100]; for every other task, the focus score.
   */
  function SuccessScore(t: Task, answers: Answers, actual: nat, focus: real): (r: real)
    requires t.plannedDuration > 0
    requires 0.0 <= focus <= 100.0
    ensures 0.0 <= r <= 100.0
    ensures !(t.taskType == QuestionSolving && Truthy(t.questionCount) && t.questionCount.value > 0) ==> r == focus
  {
    if t.taskType == QuestionSolving && Truthy(t.questionCount) && t.questionCount.value > 0 then
      var baseAccuracy := (answers.correct as real / t.questionCount.value as real) * 100.0;
      var timeRatio := actual as real / (t.plannedDuration * 60) as real;
      Clamp100(baseAccuracy * TimeModifier(timeRatio))
    else focus
  }

  /** The points of a completion before rounding: planned minutes, a 20% bonus for each score above 90, plus pages read. */
  function RawPoints(planned: int, success: real, focus: real, pagesRead: Option<int>): real
  {
    var p0 := planned as real;
    var p1 := if success > 90.0 then p0 * 1.2 else p0;
    var p2 := if focus > 90.0 then p1 * 1.2 else p1;
    if Truthy(pagesRead) && pagesRead.value > 0 then p2 + pagesRead.value as real else p2
  }

  function Points(planned: int, success: real, focus: real, pagesRead: Option<int>): (r: int)
    ensures planned >= 0 ==> r >= planned
  {
    var raw := RawPoints(planned, success, focus, pagesRead);
    RoundWhole(planned);
    assert planned >= 0 ==> Round(planned as real) <= Round(raw) by {
      if planned >= 0 {
        RoundMonotone(planned as real, raw);
      }
    }
    Round(raw)
  }

  /** Without a score above 90 and without pages, a completion earns exactly its planned minutes. */
  lemma PointsWithoutBonus(planned: int, success: real, focus: real, pagesRead: Option<int>)
    requires success <= 90.0 && focus <= 90.0
    requires !(Truthy(pagesRead) && pagesRead.value > 0)
    ensures Points(planned, success, focus, pagesRead) == planned
  {
    RoundWhole(planned);
  }

  /** A better success score never earns fewer points. */
  lemma PointsMonotoneInSuccess(planned: int, s1: real, s2: real, focus: real, pagesRead: Option<int>)
    requires planned >= 0 && s1 <= s2
    ensures Points(planned, s1, focus, pagesRead) <= Points(planned, s2, focus, pagesRead)
  {
    RoundMonotone(RawPoints(planned, s1, focus, pagesRead), RawPoints(planned, s2, focus, pagesRead));
  }

  /** Scores one completion of task `t` with the reported session data. */
  function Evaluate(t: Task, data: CompletionData): (o: Outcome)
    requires t.plannedDuration > 0
    ensures 0.0 <= o.success <= 100.0 && 0.0 <= o.focus <= 100.0
    ensures o.points >= t.plannedDuration
  {
    var answers := RecordedAnswers(t, data);
    var focus := FocusScore(t.plannedDuration, data.actualDuration, data.breakTime, data.pauseTime);
    var success := SuccessScore(t, answers, data.actualDuration, focus);
    Outcome(answers, success, focus, Points(t.plannedDuration, success, focus, data.pagesRead))
  }

  /** A score as stored on the task: rounded, and left undefined when it is zero. */
  function StoredScore(x: real): (r: Option<int>)
    requires 0.0 <= x <= 100.0
    ensures r.Some? <==> x != 0.0
    ensures r.Some? ==> 0 <= r.value <= 100
  {
    if x != 0.0 then
      RoundMonotone(0.0, x);
      RoundMonotone(x, 100.0);
      Some(Round(x))
    else None
  }

  /** A 30-minute study session finished on time without interruption earns 43 points (30 * 1.2 * 1.2, rounded). */
  lemma StudyOnTimeScenario(t: Task)
    requires t.taskType == Study && t.plannedDuration == 30
    ensures var o := Evaluate(t, CompletionData(1800, 0, 0, None, None, None, true, None));
            o.focus == 100.0 && o.success == 100.0 && o.points == 43
  {
    FocusPerfectIff(30, 1800, 0, 0);
  }

  /** 32 of 40 questions right in exactly the planned 20 minutes: success 80, focus 100, 24 points. */
  lemma QuestionsOnTimeScenario(t: Task)
    requires t.taskType == QuestionSolving && t.plannedDuration == 20 && t.questionCount == Some(40)
    ensures var o := Evaluate(t, CompletionData(1200, 0, 0, None, Some(32), Some(8), true, Some(0)));
            o.success == 80.0 && o.focus == 100.0 && o.points == 24
  {
    FocusPerfectIff(20, 1200, 0, 0);
  }
}

/** How slow steps, reads and the save may be: the exact bound under which no sweep fails a healthy training, for
    the step counts the service admits. */
module TimeoutBound {
  import opened Models
  import opened Heartbeat
  import opened ControlPlane
  import opened TrainingLoop
  import opened HeartbeatTiming

  /** The longest reporting interval, in steps, of a job the service admits. */
  const LONGEST_INTERVAL: nat := MAX_TRAINING_STEPS / PROGRESS_REPORTS

  /** The longest time between two writes: a whole interval, unless a minute passes before its last step. */
  function WorstGap(longest: nat): int {
    if AtMost(LONGEST_INTERVAL, longest) < MAX_BETWEEN_WRITES - 1 + longest then AtMost(LONGEST_INTERVAL, longest)
    else MAX_BETWEEN_WRITES - 1 + longest
  }

  /** Steps, reads or the save so slow that a healthy training can be failed: the heartbeat of the preparation runs out
      between two reads, that of the last write runs out during the save, or a read just before the latest possible
      write is followed by a sweep and the container lives long enough for it. */
  predicate TooSlow(longest: nat, readGap: nat, save: nat) {
    || readGap > INITIALIZING_TIMEOUT
    || save > TRAINING_TIMEOUT
    || (WorstGap(longest) - 1 + readGap > TRAINING_TIMEOUT
        && AtMost(MAX_TRAINING_STEPS - LONGEST_INTERVAL, longest) + save > TRAINING_TIMEOUT)
  }

  /** In plain numbers, when steps are long enough for a minute to pass within a reporting interval. */
  lemma TooSlowInNumbers(longest: nat, readGap: nat, save: nat)
    requires AtMost(99, longest) >= 60 * SECOND - 1 && readGap <= 300 * SECOND
    ensures TooSlow(longest, readGap, save)
      <==> save > 120 * SECOND || 60 * SECOND + longest + readGap > 120 * SECOND + 2
  {
    hide AtMost;
    OneMoreAtMost(LONGEST_INTERVAL - 1, longest);
    AtMostTwice(LONGEST_INTERVAL, longest);
    AtMostMonotone(3 * LONGEST_INTERVAL, MAX_TRAINING_STEPS - LONGEST_INTERVAL, longest);
  }

  lemma AtMostTwice(steps: nat, longest: nat)
    ensures AtMost(3 * steps, longest) == 3 * AtMost(steps, longest)
  {
  }

  // ---- within the bound ---------------------------------------------------------------------

  lemma AtMostMonotone(a: nat, b: nat, longest: nat)
    requires a <= b
    ensures AtMost(a, longest) <= AtMost(b, longest)
  {
    TimesMonotone(a, b, longest);
  }

  lemma IntervalIsBounded(totalSteps: nat)
    requires totalSteps <= MAX_TRAINING_STEPS
    ensures ProgressEvery(totalSteps) <= LONGEST_INTERVAL
    ensures totalSteps - ProgressEvery(totalSteps) <= MAX_TRAINING_STEPS - LONGEST_INTERVAL
  {
  }

  /** Two writes lie at most as far apart as their steps can. */
  lemma WriteDistance(t: Session, longest: nat, j: nat, k: nat)
    requires StepsWithin(t, longest) && j <= k < |Writes(t, t.totalSteps)|
    ensures var w := Writes(t, t.totalSteps);
      && w[j].step <= w[k].step <= t.totalSteps
      && w[k].updatedAt - w[j].updatedAt <= AtMost(w[k].step - w[j].step, longest)
  {
    hide Writes, AtMost;
    WritesReportSteps(t, t.totalSteps);
    var w := Writes(t, t.totalSteps);
    assert ReportsStep(t, w[j], t.totalSteps) && ReportsStep(t, w[k], t.totalSteps);
    StepsTake(t, longest, w[j].step, w[k].step);
  }

  lemma GapIsBounded(t: Session, longest: nat, k: nat)
    requires StepsWithin(t, longest) && t.totalSteps <= MAX_TRAINING_STEPS && k + 1 < |Writes(t, t.totalSteps)|
    ensures Writes(t, t.totalSteps)[k + 1].updatedAt - Writes(t, t.totalSteps)[k].updatedAt <= WorstGap(longest)
  {
    hide Writes, AtMost;
    var w := Writes(t, t.totalSteps);
    WriteGaps(t, longest, t.totalSteps);
    assert w[..k + 1] != [] && w[..k + 1][k] == w[k];
    WriteDistance(t, longest, k, k + 1);
    CadenceGaps(t, t.totalSteps);
    IntervalIsBounded(t.totalSteps);
    AtMostMonotone(w[k + 1].step - w[k].step, LONGEST_INTERVAL, longest);
  }

  /** A minute of steps so short that a whole training fits into two minutes is more than an interval. */
  lemma MinuteOfShortSteps(steps: nat, longest: nat)
    requires AtMost(MAX_TRAINING_STEPS - LONGEST_INTERVAL, longest) <= TRAINING_TIMEOUT
    requires AtMost(steps, longest) >= MAX_BETWEEN_WRITES
    ensures steps >= LONGEST_INTERVAL
  {
    if steps < LONGEST_INTERVAL {
      AtMostMonotone(steps, LONGEST_INTERVAL, longest);
    }
  }

  lemma FirstWriteIsLate(t: Session, longest: nat)
    requires StepsWithin(t, longest) && t.totalSteps <= MAX_TRAINING_STEPS && Writes(t, t.totalSteps) != []
    requires AtMost(MAX_TRAINING_STEPS - LONGEST_INTERVAL, longest) <= TRAINING_TIMEOUT
    ensures t.totalSteps - Writes(t, t.totalSteps)[0].step <= MAX_TRAINING_STEPS - LONGEST_INTERVAL
  {
    hide Writes, AtMost, ProgressEvery;
    var w := Writes(t, t.totalSteps);
    WritesReportSteps(t, t.totalSteps);
    assert ReportsStep(t, w[0], t.totalSteps);
    FirstWrite(t, t.totalSteps);
    StepsTake(t, longest, 0, w[0].step);
    IntervalIsBounded(t.totalSteps);
    if w[0].updatedAt - t.startedAt >= MAX_BETWEEN_WRITES {
      MinuteOfShortSteps(w[0].step, longest);
    }
  }

  /** The time from any write to the last one, when trainings are short. */
  lemma RestIsBounded(t: Session, longest: nat, k: nat)
    requires StepsWithin(t, longest) && t.totalSteps <= MAX_TRAINING_STEPS && k < |Writes(t, t.totalSteps)|
    requires AtMost(MAX_TRAINING_STEPS - LONGEST_INTERVAL, longest) <= TRAINING_TIMEOUT
    ensures var w := Writes(t, t.totalSteps);
      w[|w| - 1].updatedAt - w[k].updatedAt <= AtMost(MAX_TRAINING_STEPS - LONGEST_INTERVAL, longest)
  {
    hide Writes, AtMost;
    var w := Writes(t, t.totalSteps);
    FirstWriteIsLate(t, longest);
    WriteDistance(t, longest, 0, k);
    WriteDistance(t, longest, k, |w| - 1);
    AtMostMonotone(w[|w| - 1].step - w[k].step, MAX_TRAINING_STEPS - LONGEST_INTERVAL, longest);
  }

  lemma AdmittedLoopIsTimely(t: Session, longest: nat, readGap: nat, save: nat)
    requires StepsWithin(t, longest) && 0 < t.totalSteps <= MAX_TRAINING_STEPS && !TooSlow(longest, readGap, save)
    ensures Timely(Writes(t, t.totalSteps), readGap, save)
  {
    hide Writes, AtMost, WorstGap;
    var w := Writes(t, t.totalSteps);
    forall k: nat, read, at | SweepSees(w, k, read, at, readGap, save)
      ensures at - w[k].updatedAt <= TRAINING_TIMEOUT
    {
      if AtMost(MAX_TRAINING_STEPS - LONGEST_INTERVAL, longest) + save <= TRAINING_TIMEOUT {
        RestIsBounded(t, longest, k);
      } else if k < |w| - 1 {
        GapIsBounded(t, longest, k);
        assert read < w[k + 1].updatedAt;
      }
    }
  }

  // ---- at the bound -------------------------------------------------------------------------

  /** When step number `step` of the slowest session ends: one interval at once, one that takes as long as it can,
      and the rest as slowly as possible. */
  function SlowEnd(step: nat, longest: nat): Time {
    if step <= LONGEST_INTERVAL then 0
    else if step < 2 * LONGEST_INTERVAL then Capped(AtMost(step - LONGEST_INTERVAL, longest))
    else WorstGap(longest) + AtMost(step - 2 * LONGEST_INTERVAL, longest)
  }

  function Capped(elapsed: int): int {
    if elapsed < MAX_BETWEEN_WRITES then elapsed else MAX_BETWEEN_WRITES - 1
  }

  function SlowSession(longest: nat): Session {
    Session(MAX_TRAINING_STEPS, 0,
            seq(MAX_TRAINING_STEPS, (k: nat) => SlowEnd(k + 1, longest)),
            seq(MAX_TRAINING_STEPS, (k: nat) => 0.0))
  }

  lemma SlowStep(step: nat, longest: nat)
    ensures 0 <= SlowEnd(step + 1, longest) - SlowEnd(step, longest) <= longest
  {
    hide AtMost;
    OneMoreAtMost(0, longest);
    if step >= LONGEST_INTERVAL {
      OneMoreAtMost(step - LONGEST_INTERVAL, longest);
      AtMostMonotone(0, step - LONGEST_INTERVAL, longest);
    }
    if step >= 2 * LONGEST_INTERVAL {
      OneMoreAtMost(step - 2 * LONGEST_INTERVAL, longest);
    }
  }

  lemma SlowSteps(longest: nat)
    ensures StepsWithin(SlowSession(longest), longest)
  {
    hide SlowEnd;
    var t := SlowSession(longest);
    assert SlowEnd(0, longest) == 0 by {
      SlowEndsAtOnce(0, longest);
    }
    forall k | 0 <= k < |t.finished|
      ensures 0 <= t.finished[k] - Previous(t, k) <= longest
    {
      SlowStep(k, longest);
    }
  }

  lemma SlowEndsAtOnce(step: nat, longest: nat)
    requires step <= LONGEST_INTERVAL
    ensures SlowEnd(step, longest) == 0
  {
  }

  function SlowWrite(step: nat, longest: nat): Progress {
    Progress(step, MAX_TRAINING_STEPS, 0.0, SlowEnd(step, longest))
  }

  /** Its first write comes at once; the second as late as a write can come after another. */
  lemma {:induction false} SlowWrites(longest: nat, steps: nat)
    requires steps <= 2 * LONGEST_INTERVAL
    ensures Writes(SlowSession(longest), steps) ==
      if steps < LONGEST_INTERVAL then []
      else if steps < 2 * LONGEST_INTERVAL then [SlowWrite(LONGEST_INTERVAL, longest)]
      else [SlowWrite(LONGEST_INTERVAL, longest), SlowWrite(2 * LONGEST_INTERVAL, longest)]
  {
    hide Writes, AtMost, WorstGap;
    var t := SlowSession(longest);
    if steps == 0 {
      NoWrites(t);
    } else {
      SlowWrites(longest, steps - 1);
      OneMoreStep(t, steps);
      if steps > LONGEST_INTERVAL {
        OneMoreAtMost(0, longest);
        AtMostMonotone(0, steps - LONGEST_INTERVAL, longest);
      }
    }
  }

  lemma {:induction false} WritesOnlyGrow(t: Session, a: nat, b: nat)
    requires Complete(t) && a <= b <= t.totalSteps
    ensures Writes(t, a) <= Writes(t, b)
    decreases b
  {
    hide Writes, Due;
    if a < b {
      WritesOnlyGrow(t, a, b - 1);
      OneMoreStep(t, b);
    }
  }

  lemma {:induction false} SlowRest(longest: nat, a: nat, b: nat)
    requires a <= b
    ensures SlowEnd(a, longest) <= SlowEnd(b, longest)
    decreases b
  {
    hide SlowEnd;
    if a < b {
      SlowRest(longest, a, b - 1);
      SlowStep(b - 1, longest);
    }
  }

  /** Until the second write is due the file shows the first, and the last write comes long after. */
  lemma SlowFile(longest: nat, read: Time)
    requires 0 <= read < WorstGap(longest)
    ensures var w := Writes(SlowSession(longest), MAX_TRAINING_STEPS);
      && w != [] && w[0] == SlowWrite(LONGEST_INTERVAL, longest) && w[0].updatedAt == 0
      && Visible(w, read) == Some(w[0])
      && w[|w| - 1].updatedAt == SlowEnd(MAX_TRAINING_STEPS, longest)
  {
    hide Writes, SlowEnd, WorstGap;
    var t := SlowSession(longest);
    var w := Writes(t, MAX_TRAINING_STEPS);
    SlowWrites(longest, 2 * LONGEST_INTERVAL);
    WritesOnlyGrow(t, 2 * LONGEST_INTERVAL, MAX_TRAINING_STEPS);
    SlowEndsAtOnce(LONGEST_INTERVAL, longest);
    SlowSecond(longest);
    WritesReportSteps(t, MAX_TRAINING_STEPS);
    WritesEndWithTotal(t);
    forall k | 1 <= k < |w|
      ensures read < w[k].updatedAt && w[k].updatedAt == SlowEnd(w[k].step, longest)
    {
      assert ReportsStep(t, w[k], MAX_TRAINING_STEPS);
      assert k > 1 ==> w[1].step < w[k].step;
      SlowRest(longest, 2 * LONGEST_INTERVAL, w[k].step);
    }
    var k := VisibleIsLatest(w, read);
  }

  lemma SlowSecond(longest: nat)
    ensures SlowEnd(2 * LONGEST_INTERVAL, longest) == WorstGap(longest)
  {
    OneMoreAtMost(0, longest);
  }

  /** The slowest session and its save last longer than the timeout when any can. */
  lemma SlowEnough(longest: nat, save: nat)
    requires AtMost(MAX_TRAINING_STEPS - LONGEST_INTERVAL, longest) + save > TRAINING_TIMEOUT >= save
    ensures WorstGap(longest) > 0 && SlowEnd(MAX_TRAINING_STEPS, longest) + save > TRAINING_TIMEOUT
  {
  }

  // ---- a session that is over at once --------------------------------------------------------

  /** One step that takes no time. */
  const QUICK_SESSION: Session := Session(1, 0, [0], [0.0])

  lemma QuickFile(read: Time)
    requires 0 <= read
    ensures StepsWithin(QUICK_SESSION, 0)
    ensures Writes(QUICK_SESSION, 1) == [Progress(1, 1, 0.0, 0)]
    ensures Visible(Writes(QUICK_SESSION, 1), read) == Some(Progress(1, 1, 0.0, 0))
  {
    NoWrites(QUICK_SESSION);
    OneMoreStep(QUICK_SESSION, 1);
  }
}

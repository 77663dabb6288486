/** When the training container writes progress.json. */
module TrainingLoop {
  import opened Models

  const MAX_BETWEEN_WRITES: int := 60 * SECOND
  const PROGRESS_REPORTS: int := 200

  function ProgressEvery(totalSteps: nat): (every: nat)
    ensures every >= 1
  {
    if totalSteps / PROGRESS_REPORTS > 1 then totalSteps / PROGRESS_REPORTS else 1
  }

  predicate Cadence(step: int, totalSteps: nat) {
    step % ProgressEvery(totalSteps) == 0 || step == totalSteps
  }

  /** `finished[k]` and `losses[k]` are the moment and the loss of step k + 1; `startedAt` is when the loop began. */
  datatype Session = Session(totalSteps: nat, startedAt: Time, finished: seq<Time>, losses: seq<real>)

  predicate Complete(t: Session) {
    |t.finished| == t.totalSteps == |t.losses|
  }

  function LastWriteAt(t: Session, writes: seq<Progress>): Time {
    if writes == [] then t.startedAt else writes[|writes| - 1].updatedAt
  }

  predicate Due(t: Session, step: nat, now: Time, lastWriteAt: Time) {
    Cadence(step, t.totalSteps) || now - lastWriteAt >= MAX_BETWEEN_WRITES
  }

  /** What has been written once `steps` steps are done. */
  function Writes(t: Session, steps: nat): seq<Progress>
    requires Complete(t) && steps <= t.totalSteps
  {
    if steps == 0 then []
    else
      var before := Writes(t, steps - 1);
      var now := t.finished[steps - 1];
      if Due(t, steps, now, LastWriteAt(t, before))
        then before + [Progress(steps, t.totalSteps, t.losses[steps - 1], now)] else before
  }

  lemma NoWrites(t: Session)
    requires Complete(t)
    ensures Writes(t, 0) == []
  {
  }

  lemma OneMoreStep(t: Session, steps: nat)
    requires Complete(t) && 0 < steps <= t.totalSteps
    ensures var before, now := Writes(t, steps - 1), t.finished[steps - 1];
      Writes(t, steps) == if Due(t, steps, now, LastWriteAt(t, before))
                          then before + [Progress(steps, t.totalSteps, t.losses[steps - 1], now)] else before
  {
  }

  class ProgressFile {
    var content: Option<Progress>
    ghost var history: seq<Progress>

    constructor ()
      ensures content == None && history == []
    {
      content, history := None, [];
    }

    method Write(progress: Progress)
      modifies this
      ensures content == Some(progress) && history == old(history) + [progress]
    {
      content := Some(progress);
      history := history + [progress];
    }
  }

  method RunTrainingLoop(t: Session, file: ProgressFile)
    requires Complete(t)
    modifies file
    ensures file.history == old(file.history) + Writes(t, t.totalSteps)
    ensures t.totalSteps > 0 ==>
      file.content ==
        Some(Progress(t.totalSteps, t.totalSteps, t.losses[t.totalSteps - 1], t.finished[t.totalSteps - 1]))
  {
    var progressEvery := ProgressEvery(t.totalSteps);
    var lastWriteAt := t.startedAt;
    for step := 1 to t.totalSteps + 1
      invariant file.history == old(file.history) + Writes(t, step - 1)
      invariant lastWriteAt == LastWriteAt(t, Writes(t, step - 1))
      invariant step == t.totalSteps + 1 && t.totalSteps > 0 ==>
        file.content ==
          Some(Progress(t.totalSteps, t.totalSteps, t.losses[t.totalSteps - 1], t.finished[t.totalSteps - 1]))
    {
      var now := t.finished[step - 1];
      if step % progressEvery == 0 || step == t.totalSteps || now - lastWriteAt >= MAX_BETWEEN_WRITES {
        file.Write(Progress(step, t.totalSteps, t.losses[step - 1], now));
        lastWriteAt := now;
      }
    }
  }

  // ---- what is in the log -------------------------------------------------------------------

  ghost predicate ReportsStep(t: Session, p: Progress, steps: nat)
    requires Complete(t) && steps <= t.totalSteps
  {
    1 <= p.step <= steps && p == Progress(p.step, t.totalSteps, t.losses[p.step - 1], t.finished[p.step - 1])
  }

  ghost predicate StepsIncrease(writes: seq<Progress>) {
    forall i, j :: 0 <= i < j < |writes| ==> writes[i].step < writes[j].step
  }

  /** Every write reports a finished step with its loss and moment, and steps strictly increase. */
  lemma {:induction false} WritesReportSteps(t: Session, steps: nat)
    requires Complete(t) && steps <= t.totalSteps
    ensures forall j :: 0 <= j < |Writes(t, steps)| ==> ReportsStep(t, Writes(t, steps)[j], steps)
    ensures StepsIncrease(Writes(t, steps))
  {
    hide Cadence, ProgressEvery, Due;
    if steps > 0 {
      WritesReportSteps(t, steps - 1);
      var before, w := Writes(t, steps - 1), Writes(t, steps);
      assert before <= w;
      forall j | 0 <= j < |w|
        ensures ReportsStep(t, w[j], steps)
      {
        assert j < |before| ==> ReportsStep(t, before[j], steps - 1);
      }
      forall i, j | 0 <= i < j < |w|
        ensures w[i].step < w[j].step
      {
        assert ReportsStep(t, before[i], steps - 1) && before[i] == w[i];
      }
    }
  }

  /** A completed loop's last write is its last step. */
  lemma WritesEndWithTotal(t: Session)
    requires Complete(t) && t.totalSteps > 0
    ensures var w := Writes(t, t.totalSteps); w != [] && w[|w| - 1].step == t.totalSteps
  {
  }

  /** The clock does not go back and no step takes longer than `longest`. */
  ghost predicate StepsWithin(t: Session, longest: int) {
    && Complete(t)
    && forall k :: 0 <= k < |t.finished| ==> 0 <= t.finished[k] - Previous(t, k) <= longest
  }

  function Previous(t: Session, k: nat): Time
    requires k <= |t.finished|
  {
    if k == 0 then t.startedAt else t.finished[k - 1]
  }

  ghost predicate GapsBelow(t: Session, writes: seq<Progress>, bound: int) {
    forall j :: 0 <= j < |writes| ==> 0 <= writes[j].updatedAt - LastWriteAt(t, writes[..j]) < bound
  }

  lemma NoGaps(t: Session, bound: int)
    ensures GapsBelow(t, [], bound)
  {
  }

  lemma OneMoreGap(t: Session, writes: seq<Progress>, p: Progress, bound: int)
    requires GapsBelow(t, writes, bound) && 0 <= p.updatedAt - LastWriteAt(t, writes) < bound
    ensures GapsBelow(t, writes + [p], bound)
  {
    var longer := writes + [p];
    forall j | 0 <= j < |longer|
      ensures 0 <= longer[j].updatedAt - LastWriteAt(t, longer[..j]) < bound
    {
      assert longer[..j] == writes[..j];
      assert j == |writes| ==> writes[..j] == writes;
    }
  }

  /** Between two writes, and before the first, less than a minute and one step pass. */
  lemma {:induction false} WriteGaps(t: Session, longest: int, steps: nat)
    requires StepsWithin(t, longest) && steps <= t.totalSteps && 0 <= longest
    ensures GapsBelow(t, Writes(t, steps), MAX_BETWEEN_WRITES + longest)
    ensures 0 <= Previous(t, steps) - LastWriteAt(t, Writes(t, steps)) < MAX_BETWEEN_WRITES
  {
    hide Writes, GapsBelow, Cadence, ProgressEvery;
    if steps == 0 {
      NoWrites(t);
      NoGaps(t, MAX_BETWEEN_WRITES + longest);
    } else {
      WriteGaps(t, longest, steps - 1);
      OneMoreStep(t, steps);
      var before, now := Writes(t, steps - 1), t.finished[steps - 1];
      assert 0 <= now - Previous(t, steps - 1) <= longest;
      OneMoreGap(t, before, Progress(steps, t.totalSteps, t.losses[steps - 1], now), MAX_BETWEEN_WRITES + longest);
    }
  }

  // ---- how far apart writes can be ----------------------------------------------------------

  function LastWriteStep(writes: seq<Progress>): int {
    if writes == [] then 0 else writes[|writes| - 1].step
  }

  ghost predicate StepsApart(writes: seq<Progress>, bound: int) {
    forall j :: 0 <= j < |writes| - 1 ==> writes[j + 1].step - writes[j].step <= bound
  }

  lemma OneMoreRemainder(n: nat, d: nat)
    requires d >= 1
    ensures (n + 1) % d == 0 || (n + 1) % d == n % d + 1
    ensures n % d <= d - 1
  {
    var q, r := n / d, n % d;
    if r + 1 < d {
      Quotient(n + 1, q, r + 1, d);
    } else {
      Quotient(n + 1, q + 1, 0, d);
    }
  }

  /** Consecutive writes are at most one reporting interval apart. */
  lemma {:induction false} CadenceGaps(t: Session, steps: nat)
    requires Complete(t) && steps <= t.totalSteps
    ensures var w, every := Writes(t, steps), ProgressEvery(t.totalSteps);
      StepsApart(w, every) && 0 <= steps - LastWriteStep(w) <= steps % every
  {
    hide Writes, ProgressEvery;
    if steps == 0 {
      NoWrites(t);
    } else {
      CadenceGaps(t, steps - 1);
      OneMoreStep(t, steps);
      OneMoreRemainder(steps - 1, ProgressEvery(t.totalSteps));
    }
  }

  /** The longest that so many steps can take. */
  function AtMost(steps: nat, longest: nat): nat {
    steps * longest
  }

  lemma OneMoreAtMost(steps: nat, longest: nat)
    ensures AtMost(0, longest) == 0 && AtMost(steps + 1, longest) == AtMost(steps, longest) + longest
  {
  }

  lemma {:induction false} StepsTake(t: Session, longest: nat, a: nat, b: nat)
    requires StepsWithin(t, longest) && a <= b <= t.totalSteps
    ensures 0 <= Previous(t, b) - Previous(t, a) <= AtMost(b - a, longest)
    decreases b
  {
    hide AtMost;
    OneMoreAtMost(b - a, longest);
    if a < b {
      StepsTake(t, longest, a, b - 1);
      assert 0 <= t.finished[b - 1] - Previous(t, b - 1) <= longest;
      OneMoreAtMost(b - 1 - a, longest);
    }
  }

  /** The first write reports a full interval, the last step, or comes after a minute. */
  lemma {:induction false} FirstWrite(t: Session, steps: nat)
    requires Complete(t) && steps <= t.totalSteps
    ensures var w := Writes(t, steps);
      w != [] ==> ProgressEvery(t.totalSteps) <= w[0].step || w[0].step == t.totalSteps
                  || w[0].updatedAt - t.startedAt >= MAX_BETWEEN_WRITES
  {
    hide Writes, ProgressEvery;
    if steps == 0 {
      NoWrites(t);
    } else {
      FirstWrite(t, steps - 1);
      OneMoreStep(t, steps);
      MultipleIsNotLess(steps, ProgressEvery(t.totalSteps));
    }
  }

  lemma MultipleIsNotLess(n: nat, d: nat)
    requires n > 0 && d > 0
    ensures n % d == 0 ==> d <= n
  {
  }

  // ---- when exactly a step is written -------------------------------------------------------

  /** The interval is the largest of which two hundred fit into the training, and at least one step. */
  lemma IntervalExact(totalSteps: nat)
    ensures var every := ProgressEvery(totalSteps);
      && 1 <= every && totalSteps < 200 * (every + 1)
      && (every > 1 ==> 200 * every <= totalSteps)
      && (totalSteps < 400 ==> every == 1)
  {
  }

  /** A step is written exactly when its number is a multiple of the interval, it is the last, or a minute has passed
      since the last write. */
  lemma WrittenIff(t: Session, step: nat)
    requires Complete(t) && 1 <= step <= t.totalSteps
    ensures var before, now := Writes(t, step - 1), t.finished[step - 1];
      Writes(t, step) ==
        if step % ProgressEvery(t.totalSteps) == 0 || step == t.totalSteps
           || now - (if before == [] then t.startedAt else before[|before| - 1].updatedAt) >= 60 * SECOND
        then before + [Progress(step, t.totalSteps, t.losses[step - 1], now)]
        else before
  {
    hide Writes, ProgressEvery;
    OneMoreStep(t, step);
  }

  /** A training of fewer than 400 steps writes every step. */
  lemma {:induction false} ShortTrainingWritesAll(t: Session, steps: nat)
    requires Complete(t) && t.totalSteps < 400 && steps <= t.totalSteps
    ensures |Writes(t, steps)| == steps
    ensures forall k :: 0 <= k < steps ==> k < |Writes(t, steps)| && Writes(t, steps)[k].step == k + 1
  {
    hide Writes, ProgressEvery;
    if steps == 0 {
      NoWrites(t);
    } else {
      ShortTrainingWritesAll(t, steps - 1);
      IntervalExact(t.totalSteps);
      WrittenIff(t, steps);
    }
  }

  // ---- how many writes there are ------------------------------------------------------------

  function CadenceWrites(t: Session, writes: seq<Progress>): nat {
    if writes == [] then 0
    else CadenceWrites(t, writes[..|writes| - 1]) + if Cadence(writes[|writes| - 1].step, t.totalSteps) then 1 else 0
  }

  lemma CadenceOfNone(t: Session)
    ensures CadenceWrites(t, []) == 0
  {
  }

  lemma CadenceOfOneMore(t: Session, writes: seq<Progress>, p: Progress)
    ensures CadenceWrites(t, writes + [p]) == CadenceWrites(t, writes) + if Cadence(p.step, t.totalSteps) then 1 else 0
  {
    assert (writes + [p])[..|writes|] == writes;
  }

  lemma {:induction false} CadenceCount(t: Session, steps: nat)
    requires Complete(t) && steps <= t.totalSteps
    ensures var every := ProgressEvery(t.totalSteps);
      CadenceWrites(t, Writes(t, steps)) ==
        steps / every + if 0 < steps == t.totalSteps && steps % every != 0 then 1 else 0
  {
    hide Writes, CadenceWrites, ProgressEvery;
    CadenceOfNone(t);
    if steps == 0 {
      NoWrites(t);
    } else {
      CadenceCount(t, steps - 1);
      OneMoreMultiple(steps - 1, ProgressEvery(t.totalSteps));
      OneMoreStep(t, steps);
      var now := t.finished[steps - 1];
      CadenceOfOneMore(t, Writes(t, steps - 1), Progress(steps, t.totalSteps, t.losses[steps - 1], now));
    }
  }

  lemma OneMoreMultiple(n: nat, d: nat)
    requires d >= 1
    ensures (n + 1) / d == n / d + if (n + 1) % d == 0 then 1 else 0
  {
    var q, r := n / d, n % d;
    if r + 1 == d {
      Quotient(n + 1, q + 1, 0, d);
    } else {
      Quotient(n + 1, q, r + 1, d);
    }
  }

  lemma TimesMonotone(a: int, b: int, d: nat)
    requires a <= b
    ensures a * d <= b * d
  {
  }

  lemma Quotient(n: nat, q: nat, r: nat, d: nat)
    requires n == q * d + r && r < d
    ensures n / d == q && n % d == r
  {
    var p := n / d;
    if p < q {
      TimesMonotone(p + 1, q, d);
    } else if q < p {
      TimesMonotone(q + 1, p, d);
    }
  }

  lemma CadenceBound(totalSteps: nat)
    ensures totalSteps / ProgressEvery(totalSteps)
      + (if totalSteps % ProgressEvery(totalSteps) != 0 then 1 else 0) <= 399
  {
    var every := ProgressEvery(totalSteps);
    var reports := totalSteps / every;
    if every >= 2 && reports >= 300 {
      TimesMonotone(300, reports, every);
    }
  }

  function Minutes(k: int): int {
    MAX_BETWEEN_WRITES * k
  }

  /** Every write beyond the cadence accounts for a full minute. */
  ghost predicate MinutesCovered(t: Session, writes: seq<Progress>) {
    CadenceWrites(t, writes) <= |writes|
    && Minutes(|writes| - CadenceWrites(t, writes)) <= LastWriteAt(t, writes) - t.startedAt
  }

  lemma NothingCovered(t: Session)
    ensures MinutesCovered(t, [])
  {
    CadenceOfNone(t);
  }

  lemma OneMoreCovered(t: Session, writes: seq<Progress>, p: Progress)
    requires MinutesCovered(t, writes) && LastWriteAt(t, writes) <= p.updatedAt
    requires Cadence(p.step, t.totalSteps) || p.updatedAt - LastWriteAt(t, writes) >= MAX_BETWEEN_WRITES
    ensures MinutesCovered(t, writes + [p])
  {
    hide CadenceWrites, Cadence, Minutes;
    CadenceOfOneMore(t, writes, p);
    OneMoreMinute(|writes| - CadenceWrites(t, writes), t.startedAt, LastWriteAt(t, writes), p.updatedAt);
  }

  lemma {:induction false} TimedWrites(t: Session, longest: int, steps: nat)
    requires StepsWithin(t, longest) && steps <= t.totalSteps
    ensures MinutesCovered(t, Writes(t, steps)) && LastWriteAt(t, Writes(t, steps)) <= Previous(t, steps)
  {
    hide Writes, MinutesCovered, Cadence;
    if steps == 0 {
      NoWrites(t);
      NothingCovered(t);
    } else {
      TimedWrites(t, longest, steps - 1);
      OneMoreStep(t, steps);
      var before, now := Writes(t, steps - 1), t.finished[steps - 1];
      assert 0 <= now - Previous(t, steps - 1) <= longest;
      if Due(t, steps, now, LastWriteAt(t, before)) {
        OneMoreCovered(t, before, Progress(steps, t.totalSteps, t.losses[steps - 1], now));
      }
    }
  }

  lemma OneMoreMinute(minutes: int, from: Time, last: Time, now: Time)
    requires Minutes(minutes) <= last - from && last <= now
    ensures Minutes(minutes) <= now - from
    ensures now - last >= MAX_BETWEEN_WRITES ==> Minutes(minutes + 1) <= now - from
  {
  }

  lemma FullMinutes(k: int, elapsed: int)
    requires Minutes(k) <= elapsed
    ensures k <= elapsed / MAX_BETWEEN_WRITES
  {
  }

  lemma EnoughIntervals(totalSteps: nat, every: nat)
    requires 1 <= every && 200 <= totalSteps && (every > 1 ==> 200 * every <= totalSteps)
    ensures totalSteps / every >= 200
  {
    var q := totalSteps / every;
    if q < 200 {
      TimesMonotone(q + 1, 200, every);
    }
  }

  lemma {:induction false} CadenceWritesAreWrites(t: Session, writes: seq<Progress>)
    ensures CadenceWrites(t, writes) <= |writes|
  {
    if writes != [] {
      CadenceWritesAreWrites(t, writes[..|writes| - 1]);
    }
  }

  /** The other side: a training of at least 200 steps is reported at least 200 times. */
  lemma EnoughWrites(t: Session)
    requires Complete(t) && t.totalSteps >= 200
    ensures |Writes(t, t.totalSteps)| >= 200
  {
    hide Writes, CadenceWrites, ProgressEvery;
    CadenceCount(t, t.totalSteps);
    IntervalExact(t.totalSteps);
    EnoughIntervals(t.totalSteps, ProgressEvery(t.totalSteps));
    CadenceWritesAreWrites(t, Writes(t, t.totalSteps));
  }

  /** However long the training: at most 399 writes for the percentage and the last step, plus one for each full
      minute. */
  lemma WriteBudget(t: Session, longest: int)
    requires StepsWithin(t, longest) && t.totalSteps > 0
    ensures var w := Writes(t, t.totalSteps); var elapsed := t.finished[t.totalSteps - 1] - t.startedAt;
      && CadenceWrites(t, w) <= 399
      && |w| <= 399 + elapsed / (60 * SECOND)
  {
    hide Writes, CadenceWrites, Cadence, ProgressEvery, Due, Minutes;
    CadenceCount(t, t.totalSteps);
    CadenceBound(t.totalSteps);
    TimedWrites(t, longest, t.totalSteps);
    var w := Writes(t, t.totalSteps);
    FullMinutes(|w| - CadenceWrites(t, w), t.finished[t.totalSteps - 1] - t.startedAt);
  }
}

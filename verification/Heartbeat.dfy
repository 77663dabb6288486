/** Heartbeat and timeout rules. */
module Heartbeat {
  import opened Models

  const INITIALIZING_TIMEOUT: int := 300 * SECOND
  const TRAINING_TIMEOUT: int := 120 * SECOND

  function TimeoutForStatus(status: JobStatus): Option<int> {
    match status
    case Initializing => Some(INITIALIZING_TIMEOUT)
    case Training => Some(TRAINING_TIMEOUT)
    case _ => None
  }

  predicate IsTimedOut(status: JobStatus, heartbeatAt: Option<Time>, now: Time) {
    var threshold := TimeoutForStatus(status);
    threshold.Some? && heartbeatAt.Some? && now - heartbeatAt.value > threshold.value
  }

  predicate ProgressChanged(previous: Option<Progress>, current: Progress) {
    previous.None? || (previous.value.step, previous.value.loss) != (current.step, current.loss)
  }
}

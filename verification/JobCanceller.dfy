/** Two-phase cancellation: SIGTERM, a grace period of polls, SIGKILL. */
module JobCanceller {
  import opened Prelude
  import opened JobStates

  datatype Signal = SIGTERM | SIGKILL

  /** In milliseconds. */
  const POLL_INTERVAL := 100

  predicate StillRuns(status: Option<JobStatus>) {
    status.Some? && !IsTerminal(status.value)
  }

  /** What the successive reads return: `states(0)` is the first look, `clock(0)` the deadline's clock,
      and `states(i)`, `clock(i)` are those of the i-th poll. A sleep lasts at least one interval. */
  ghost predicate ClockAdvances(clock: nat -> int) {
    clock(0) <= clock(1) && forall i: nat | i >= 1 :: clock(i) + POLL_INTERVAL <= clock(i + 1)
  }

  lemma {:induction false} ClockMonotone(clock: nat -> int, i: nat, j: nat)
    requires ClockAdvances(clock) && 1 <= i <= j
    ensures clock(i) <= clock(j)
    decreases j
  {
    if i < j {
      ClockMonotone(clock, i, j - 1);
      assert clock(j - 1) + POLL_INTERVAL <= clock(j - 1 + 1);
    }
  }

  /** Every poll before the deadline sees the job still running. */
  ghost predicate OutlastsGrace(states: nat -> Option<JobStatus>, clock: nat -> int, deadline: int) {
    forall i: nat | i >= 1 && clock(i) < deadline :: StillRuns(states(i))
  }

  /** No signal for a job that is unknown or over. Otherwise one SIGTERM, and one SIGKILL after it
      exactly when every poll before the deadline saw the job still running. */
  method Cancel(states: nat -> Option<JobStatus>, clock: nat -> int, softWait: int) returns (sent: seq<Signal>)
    requires ClockAdvances(clock)
    ensures !StillRuns(states(0)) ==> sent == []
    ensures StillRuns(states(0)) ==>
      sent == if OutlastsGrace(states, clock, clock(0) + softWait) then [SIGTERM, SIGKILL] else [SIGTERM]
  {
    sent := [];
    var state := states(0);
    if state.None? { return; }
    if IsTerminal(state.value) { return; }
    sent := sent + [SIGTERM];
    var deadline := clock(0) + softWait;
    var i := 1;
    while clock(i) < deadline
      invariant i >= 1
      invariant forall k: nat | 1 <= k < i :: StillRuns(states(k))
      decreases deadline - clock(i)
    {
      var current := states(i);
      if current.None? || IsTerminal(current.value) { return; }
      i := i + 1;
    }
    forall k: nat | k >= 1 && clock(k) < deadline ensures StillRuns(states(k)) {
      if k >= i { ClockMonotone(clock, i, k); }
    }
    sent := sent + [SIGKILL];
  }

  /** The wait is bounded: poll n happens at least (n - 1) intervals after the first. */
  lemma {:induction false} PollsAreSpaced(clock: nat -> int, n: nat)
    requires ClockAdvances(clock) && n >= 1
    ensures clock(n) >= clock(0) + (n - 1) * POLL_INTERVAL
    decreases n
  {
    if n > 1 {
      PollsAreSpaced(clock, n - 1);
      assert clock(n - 1) + POLL_INTERVAL <= clock(n - 1 + 1);
    }
  }
}

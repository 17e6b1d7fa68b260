/** The resume-or-fail sweep over orphan jobs at worker startup. */
module JobRecovery {
  import opened Prelude
  import opened JobStates
  import opened Redis
  import opened JobPersistency
  import opened Agent

  const RECOVERY_LOCK := "agent:job_recovery:lock"
  const SWEEP_LIMIT := 10_000

  predicate IsOrphan(j: JobState) {
    j.status == STARTED || j.status == PENDING
  }

  predicate Eligible(reg: Registry, j: JobState) {
    j.name in reg && reg[j.name].resume && j.attempts < j.maxTry
  }

  function Resumed(j: JobState): JobState {
    j.(status := PENDING, dateStart := None, dateEnd := None, duration := None)
  }

  function GivenUp(reg: Registry, j: JobState, now: Time): JobState {
    var resume := if j.name in reg then Some(reg[j.name].resume) else None;
    Ended(j.(status := FAILURE, error := Some(Interrupted(resume, j.attempts, j.maxTry))), now)
  }

  /** The message of a resumed job. The record does not hold the eta of the first one. */
  function PublicationOf(j: JobState): Publication {
    Publication(j.jobId, j.name, j.payload, j.userUid, None)
  }

  function Locked(s: Store): Store {
    s.(keys := s.keys + {RECOVERY_LOCK})
  }

  /** What one turn of the sweep leaves of a listed state. */
  function Verdict(reg: Registry, j: JobState, now: Time): JobState {
    if !IsOrphan(j) then j else if Eligible(reg, j) then Resumed(j) else GivenUp(reg, j, now)
  }

  /** One turn of the sweep. The lock is deleted whether or not the job ever took one. */
  function ReconcileOne(s: Store, reg: Registry, j: JobState, now: Time): Store {
    if !IsOrphan(j) then s
    else
      var s' := Saved(s, Verdict(reg, j, now));
      if Eligible(reg, j) then s' else s'.(keys := s'.keys - {KeyOf(j)})
  }

  function Sweep(s: Store, reg: Registry, states: seq<JobState>, now: Time): Store {
    if states == [] then s
    else
      var last := |states| - 1;
      ReconcileOne(Sweep(s, reg, states[..last], now), reg, states[last], now)
  }

  /** The orphans of a listing whose eligibility is `eligible`, in sweep order. */
  function Chosen(reg: Registry, states: seq<JobState>, eligible: bool): seq<JobState> {
    if states == [] then []
    else
      var last := |states| - 1;
      Chosen(reg, states[..last], eligible) +
      if IsOrphan(states[last]) && Eligible(reg, states[last]) == eligible then [states[last]] else []
  }

  lemma ChosenOne(reg: Registry, j: JobState, eligible: bool)
    ensures Chosen(reg, [j], eligible) == if IsOrphan(j) && Eligible(reg, j) == eligible then [j] else []
  {
    assert [j][..0] == [];
    assert Chosen(reg, [j][..0], eligible) == [];
  }

  /** The states a sweep publishes again, and the ones it gives up. */
  function ToResume(reg: Registry, states: seq<JobState>): seq<JobState> {
    Chosen(reg, states, true)
  }

  function ToFail(reg: Registry, states: seq<JobState>): seq<JobState> {
    Chosen(reg, states, false)
  }

  function Publications(states: seq<JobState>): seq<Publication> {
    seq(|states|, i requires 0 <= i < |states| => PublicationOf(states[i]))
  }

  class JobRecovery {
    const agent: Agent
    const persistency: JobPersistency
    const cache: ClientRedis

    constructor (agent: Agent, persistency: JobPersistency, cache: ClientRedis)
      requires persistency.client == cache
      ensures this.agent == agent && this.persistency == persistency && this.cache == cache
    {
      this.agent, this.persistency, this.cache := agent, persistency, cache;
    }

    /** The body of the sweep's loop. */
    method Reconcile(listed: JobState, now: Time) returns (resumed: nat, failed: nat)
      requires persistency.client == cache
      modifies cache, agent`published
      ensures cache.View() == ReconcileOne(old(cache.View()), agent.jobHandlers, listed, now)
      ensures resumed == |ToResume(agent.jobHandlers, [listed])| && failed == |ToFail(agent.jobHandlers, [listed])|
      ensures agent.published == old(agent.published) + Publications(ToResume(agent.jobHandlers, [listed]))
    {
      resumed, failed := 0, 0;
      ChosenOne(agent.jobHandlers, listed, true);
      ChosenOne(agent.jobHandlers, listed, false);
      var state := listed;
      if state.status != STARTED && state.status != PENDING { return; }
      var registered := agent.GetJobHandler(state.name);
      var resume := registered.Some? && registered.value.resume;
      if registered.Some? && resume && state.attempts < state.maxTry {
        state := state.(status := PENDING);
        state := state.(dateStart := None, dateEnd := None, duration := None);
        persistency.Save(state);
        var _ := agent.CreateJob(state.name, state.payload, state.userUid, None, Some(state.jobId), "");
        resumed := 1;
      } else {
        state := state.(status := FAILURE);
        state := state.(error := Some(Interrupted(
          if registered.Some? then Some(resume) else None, state.attempts, state.maxTry)));
        state := Ended(state, now);
        persistency.Save(state);
        cache.DeleteKey(KeyOf(state));
        failed := 1;
      }
    }

    /** The sweep's loop over the listed states. */
    method ReconcileAll(states: seq<JobState>, now: Time) returns (resumed: nat, failed: nat)
      requires persistency.client == cache
      modifies cache, agent`published
      ensures cache.View() == Sweep(old(cache.View()), agent.jobHandlers, states, now)
      ensures resumed == |ToResume(agent.jobHandlers, states)| && failed == |ToFail(agent.jobHandlers, states)|
      ensures agent.published == old(agent.published) + Publications(ToResume(agent.jobHandlers, states))
    {
      resumed, failed := 0, 0;
      for i := 0 to |states|
        invariant cache.View() == Sweep(old(cache.View()), agent.jobHandlers, states[..i], now)
        invariant resumed == |ToResume(agent.jobHandlers, states[..i])|
        invariant failed == |ToFail(agent.jobHandlers, states[..i])|
        invariant agent.published == old(agent.published) + Publications(ToResume(agent.jobHandlers, states[..i]))
      {
        assert states[..i + 1][..i] == states[..i];
        var r, f := Reconcile(states[i], now);
        resumed, failed := resumed + r, failed + f;
      }
      assert states[..|states|] == states;
    }

    method ReconcileOrphans(now: Time) returns (resumed: nat, failed: nat)
      requires persistency.client == cache
      modifies cache, agent`published
      ensures old(RECOVERY_LOCK in cache.keys) ==>
        resumed == failed == 0 && cache.View() == old(cache.View()) && agent.published == old(agent.published)
      ensures old(RECOVERY_LOCK !in cache.keys) ==>
        var locked := Locked(old(cache.View()));
        var states := Listing(locked, PendingJobs, SWEEP_LIMIT);
        && cache.View() == Sweep(AfterListing(locked, PendingJobs, SWEEP_LIMIT), agent.jobHandlers, states, now)
        && resumed == |ToResume(agent.jobHandlers, states)|
        && failed == |ToFail(agent.jobHandlers, states)|
        && agent.published == old(agent.published) + Publications(ToResume(agent.jobHandlers, states))
    {
      var acquired := cache.SetIfAbsent(RECOVERY_LOCK);
      if !acquired {
        assert cache.keys == old(cache.keys);
        return 0, 0;
      }
      var states := persistency.ListPending(SWEEP_LIMIT);
      resumed, failed := ReconcileAll(states, now);
    }
  }
}

/** How often a job can run: what attempts and outstanding deliveries add up to over whole runs. */
module Attempts {
  import opened Prelude
  import opened JobStates
  import opened Redis
  import opened JobPersistency
  import opened Agent
  import opened JobRecovery
  import opened ClientAgent
  import opened AgentProtocol
  import opened ProtocolEffects

  // ---------- runs still allowed ----------

  function Share(m: Message, id: Id): nat {
    if m.jobId == id then m.left else 0
  }

  /** The runs all outstanding deliveries of a job still allow. */
  ghost function Budget(mail: map<nat, Message>, id: Id): nat
    decreases |mail|
  {
    if mail == map[] then 0
    else
      var t :| t in mail;
      Share(mail[t], id) + Budget(mail - {t}, id)
  }

  lemma {:induction false} BudgetSplits(mail: map<nat, Message>, t: nat, id: Id)
    requires t in mail
    ensures Budget(mail, id) == Share(mail[t], id) + Budget(mail - {t}, id)
    decreases |mail|
  {
    var u :| u in mail && Budget(mail, id) == Share(mail[u], id) + Budget(mail - {u}, id);
    if u != t {
      BudgetSplits(mail - {u}, t, id);
      BudgetSplits(mail - {t}, u, id);
      assert (mail - {u}) - {t} == (mail - {t}) - {u};
    }
  }

  lemma BudgetUpdate(mail: map<nat, Message>, t: nat, m: Message, id: Id)
    ensures Budget(mail[t := m], id) == Share(m, id) + Budget(mail - {t}, id)
    ensures t !in mail ==> Budget(mail - {t}, id) == Budget(mail, id)
    ensures t in mail ==> Budget(mail - {t}, id) == Budget(mail, id) - Share(mail[t], id)
  {
    BudgetSplits(mail[t := m], t, id);
    assert mail[t := m] - {t} == mail - {t};
    if t in mail { BudgetSplits(mail, t, id); } else { assert mail - {t} == mail; }
  }

  lemma {:induction false} NoDeliveryNoBudget(mail: map<nat, Message>, id: Id)
    requires forall t <- mail :: mail[t].jobId != id
    ensures Budget(mail, id) == 0
    decreases |mail|
  {
    if mail != map[] {
      var t :| t in mail;
      BudgetSplits(mail, t, id);
      NoDeliveryNoBudget(mail - {t}, id);
    }
  }

  // ---------- runs begun ----------

  function Begun(w: World, e: Event, id: Id): nat {
    if e.Signals? && e.tag in w.mail && e.sig.Begins? && w.mail[e.tag].jobId == id then 1 else 0
  }

  /** How many runs of the job begin in a run of the protocol. */
  function RunsBegun(reg: Registry, w: World, events: seq<Event>, id: Id): nat
    decreases events
  {
    if events == [] || !Enabled(reg, w, events[0]) then 0
    else Begun(w, events[0], id) + RunsBegun(reg, Apply(reg, w, events[0]), events[1..], id)
  }

  predicate IsResume(reg: Registry, w: World, e: Event, id: Id) {
    e.Recover? && Next(w, e.sweep).Some? &&
    var j := Next(w, e.sweep).value;
    j.jobId == id && IsOrphan(j) && Eligible(reg, j)
  }

  /** How many times sweeps publish the job again in a run. */
  function Resumes(reg: Registry, w: World, events: seq<Event>, id: Id): nat
    decreases events
  {
    if events == [] || !Enabled(reg, w, events[0]) then 0
    else
      (if IsResume(reg, w, events[0], id) then 1 else 0) + Resumes(reg, Apply(reg, w, events[0]), events[1..], id)
  }

  function Published(w: World, id: Id): nat {
    if id in w.ledger then w.ledger[id].publications else 0
  }

  function NameOf(w: World, id: Id): string {
    if id in w.ledger then w.ledger[id].name else ""
  }

  /** The delivery an event publishes. */
  function Posted(reg: Registry, w: World, e: Event): Option<Message>
    requires Enabled(reg, w, e)
  {
    match e
    case Enqueue(req, id, user, _, _, fault) =>
      var kwargs := Kwargs(user, Some(req.payload), None);
      if Gate(w.store, req, user).Some? || fault != NoFault then None
      else Some(Message(id, req.name, kwargs, RunsPerPublication(reg, req.name), Queued))
    case BeatFires(id, name, kwargs, _) => Some(Message(id, name, kwargs, RunsPerPublication(reg, name), Queued))
    case Recover(sweep, _, _) =>
      var j := Next(w, sweep).value;
      if IsOrphan(j) && Eligible(reg, j)
      then Some(Message(j.jobId, j.name, KwargsOf(j), RunsPerPublication(reg, j.name), Queued))
      else None
    case _ => None
  }

  lemma PostedIsNew(reg: Registry, w: World, e: Event)
    requires Enabled(reg, w, e) && Traced(w) && Posted(reg, w, e).Some?
    ensures var m, w' := Posted(reg, w, e).value, Apply(reg, w, e);
      && e.tag !in w.mail && w'.mail == w.mail[e.tag := m]
      && m.left == RunsPerPublication(reg, NameOf(w', m.jobId))
      && Published(w', m.jobId) == Published(w, m.jobId) + 1
      && (forall id | id != m.jobId :: Published(w', id) == Published(w, id) && NameOf(w', id) == NameOf(w, id))
  {
    if e.Recover? { NextIsTraced(w, e.sweep); }
  }

  /** The deliveries an event adds or uses up. */
  lemma BudgetAfter(reg: Registry, w: World, e: Event, id: Id)
    requires Enabled(reg, w, e) && Traced(w) && !e.Redeliver?
    ensures var b, b' := Budget(w.mail, id), Budget(Apply(reg, w, e).mail, id);
      b' + Begun(w, e, id) <= b +
        if Posted(reg, w, e).Some? && Posted(reg, w, e).value.jobId == id then Posted(reg, w, e).value.left else 0
  {
    if Posted(reg, w, e).Some? {
      PostedIsNew(reg, w, e);
      BudgetUpdate(w.mail, e.tag, Posted(reg, w, e).value, id);
    } else if e.Signals? {
      var moved := Moved(w.mail[e.tag], e.sig);
      BudgetUpdate(w.mail, e.tag, if moved.Some? then moved.value else w.mail[e.tag], id);
    } else if e.Lose? {
      BudgetUpdate(w.mail, e.tag, w.mail[e.tag], id);
    }
  }

  lemma NotPostedNotPublished(reg: Registry, w: World, e: Event, id: Id)
    requires Enabled(reg, w, e) && Traced(w)
    requires Posted(reg, w, e).None? || Posted(reg, w, e).value.jobId != id
    ensures Published(Apply(reg, w, e), id) == Published(w, id)
    ensures id in w.ledger ==> NameOf(Apply(reg, w, e), id) == NameOf(w, id)
  {
    if Posted(reg, w, e).Some? { PostedIsNew(reg, w, e); }
  }

  // ---------- conservation ----------

  /** With `begun` runs behind it, a job has no more runs before it than its publications allow. */
  ghost predicate Conserved(reg: Registry, w: World, id: Id, begun: nat) {
    begun + Budget(w.mail, id) <= RunsPerPublication(reg, NameOf(w, id)) * Published(w, id)
  }

  lemma EventConserves(reg: Registry, w: World, e: Event, id: Id, begun: nat)
    requires Enabled(reg, w, e) && Traced(w) && !e.Redeliver? && Conserved(reg, w, id, begun)
    ensures Conserved(reg, Apply(reg, w, e), id, begun + Begun(w, e, id))
  {
    var w' := Apply(reg, w, e);
    BudgetAfter(reg, w, e, id);
    LedgerGrows(reg, w, e);
    var runs, p := RunsPerPublication(reg, NameOf(w', id)), Published(w, id);
    if Posted(reg, w, e).Some? && Posted(reg, w, e).value.jobId == id {
      PostedIsNew(reg, w, e);
      if id in w.ledger { OneMore(runs, p); } else { OneMore(runs, 0); Zero(RunsPerPublication(reg, NameOf(w, id))); }
    } else {
      NotPostedNotPublished(reg, w, e, id);
      if id !in w.ledger { Zero(RunsPerPublication(reg, NameOf(w, id))); Zero(runs); }
    }
  }

  lemma OneMore(runs: nat, p: nat)
    ensures runs * (p + 1) == runs * p + runs
  {
  }

  lemma Zero(runs: nat)
    ensures runs * 0 == 0
  {
  }

  lemma {:induction false} RunConserves(reg: Registry, r: Rules, w: World, events: seq<Event>, id: Id, begun: nat)
    requires r.noRedelivery && Traced(w) && Follows(reg, r, w, events) && Conserved(reg, w, id, begun)
    ensures Run(reg, w, events).Some?
    ensures var w' := Run(reg, w, events).value;
      Conserved(reg, w', id, begun + RunsBegun(reg, w, events, id))
      && Published(w', id) <= Published(w, id) + Resumes(reg, w, events, id) + if id in w.ledger then 0 else 1
    decreases events
  {
    if events != [] {
      var e := events[0];
      EventKeepsTraced(reg, w, e);
      EventConserves(reg, w, e, id, begun);
      LedgerGrows(reg, w, e);
      PublishedOnlyByResume(reg, w, e, id);
      RunConserves(reg, r, Apply(reg, w, e), events[1..], id, begun + Begun(w, e, id));
    }
  }

  lemma PublishedOnlyByResume(reg: Registry, w: World, e: Event, id: Id)
    requires Enabled(reg, w, e) && Traced(w)
    ensures Published(Apply(reg, w, e), id) <= Published(w, id)
      + (if IsResume(reg, w, e, id) then 1 else 0)
      + (if id !in w.ledger && id in Apply(reg, w, e).ledger then 1 else 0)
  {
  }

  lemma MoreFactorMoreProduct(runs: nat, a: nat, b: nat)
    requires a <= b
    ensures runs * a <= runs * b
  {
  }

  /** The runs of a job that began, plus the runs its outstanding deliveries still allow, never exceed
      max(1, max_try) for the first publication and each resume, in any run without broker redelivery,
      stale listings and expired records included. */
  lemma AttemptConservation(reg: Registry, r: Rules, events: seq<Event>, w: World, id: Id)
    requires r.noRedelivery && Reaches(reg, r, events, w)
    requires id in w.ledger && w.ledger[id].name in reg
    ensures var maxTry := reg[w.ledger[id].name].maxTry;
      RunsBegun(reg, NOTHING, events, id) + Budget(w.mail, id)
        <= (if maxTry > 1 then maxTry else 1) * (1 + Resumes(reg, NOTHING, events, id))
  {
    NothingIsTraced();
    assert Conserved(reg, NOTHING, id, 0);
    RunConserves(reg, r, NOTHING, events, id, 0);
    MoreFactorMoreProduct(
      RunsPerPublication(reg, NameOf(w, id)), Published(w, id), 1 + Resumes(reg, NOTHING, events, id));
  }

  // ---------- what holds of a job's record and of every listing of it ----------

  ghost predicate AllStates(w: World, id: Id, p: JobState -> bool) {
    && (id in w.store.docs ==> p(w.store.docs[id]))
    && (forall sweep, i |
          sweep in w.sweeps && 0 <= i < |w.sweeps[sweep]| && w.sweeps[sweep][i].jobId == id ::
          p(w.sweeps[sweep][i]))
  }

  function AttemptsAtMost(n: int): JobState -> bool {
    (j: JobState) => j.attempts <= n
  }

  function LimitIs(maxTry: int): JobState -> bool {
    (j: JobState) => j.maxTry <= 0 || j.maxTry == maxTry
  }

  function NeverEligible(): JobState -> bool {
    (j: JobState) => j.maxTry <= 0
  }

  /** The state an event rewrites: the record, or what a sweep listed. */
  function Base(reg: Registry, w: World, e: Event): Option<JobState>
    requires Enabled(reg, w, e)
  {
    match e
    case Signals(tag, _) => Get(w.store, w.mail[tag].jobId)
    case Recover(sweep, _, _) => Next(w, sweep)
    case Look(id, _) => Get(w.store, id)
    case _ => None
  }

  /** The attempts and the limit an event writes. */
  lemma WrittenFrom(reg: Registry, w: World, e: Event)
    requires Enabled(reg, w, e) && Traced(w) && Written(reg, w, e).Some?
    ensures var j, base := Written(reg, w, e).value, Base(reg, w, e);
      && j.attempts == (if base.Some? then base.value.attempts else 0) + Begun(w, e, j.jobId)
      && j.maxTry == (if base.Some? then base.value.maxTry else if e.Enqueue? then e.req.maxTry else 0)
      && (base.Some? ==> base.value.jobId == j.jobId)
      && (base.Some? && !e.Recover? ==> IsCurrent(w, base.value))
      && (base.None? ==> j.jobId !in w.store.docs)
      && (e.Enqueue? ==> j.jobId == e.id && base.None?)
  {
    match e {
      case Enqueue(_, id, _, _, _, _) => assert RecordTraced(w, id);
      case Signals(tag, _) => assert MessageTraced(w, tag) && RecordTraced(w, w.mail[tag].jobId);
      case Recover(sweep, _, _) => NextIsTraced(w, sweep);
      case Look(id, _) => assert RecordTraced(w, id);
      case _ =>
    }
  }

  lemma BaseIsAState(reg: Registry, w: World, e: Event, id: Id, p: JobState -> bool)
    requires Enabled(reg, w, e) && Traced(w) && AllStates(w, id, p)
    requires Base(reg, w, e).Some? && Base(reg, w, e).value.jobId == id
    ensures p(Base(reg, w, e).value)
  {
    match e {
      case Signals(tag, _) => assert RecordTraced(w, w.mail[tag].jobId);
      case Recover(sweep, _, _) => assert w.sweeps[sweep][0].jobId == id;
      case Look(other, _) => assert RecordTraced(w, other);
    }
  }

  /** What holds of all states of a job, and of what an event writes of it, holds afterwards. */
  lemma EventKeepsStates(reg: Registry, w: World, e: Event, id: Id, p: JobState -> bool, q: JobState -> bool)
    requires Enabled(reg, w, e) && Traced(w) && AllStates(w, id, p) && forall j | p(j) :: q(j)
    requires Written(reg, w, e).Some? && Written(reg, w, e).value.jobId == id ==> q(Written(reg, w, e).value)
    ensures AllStates(Apply(reg, w, e), id, q)
  {
    var w' := Apply(reg, w, e);
    EventEffect(reg, w, e);
    assert RecordTraced(w, id);
    if e.ListOrphans? { ListedRecordsAreTraced(w, PendingJobs, SWEEP_LIMIT); }
    forall sweep, i | sweep in w'.sweeps && 0 <= i < |w'.sweeps[sweep]| && w'.sweeps[sweep][i].jobId == id
      ensures q(w'.sweeps[sweep][i])
    {
      if e.ListOrphans? && sweep == e.sweep {
        assert w'.sweeps[sweep][i] in Listing(w.store, PendingJobs, SWEEP_LIMIT);
      } else if e.Recover? && sweep == e.sweep {
        assert w'.sweeps[sweep][i] == w.sweeps[sweep][i + 1];
      }
    }
  }

  lemma UnknownHasNoStates(w: World, id: Id, p: JobState -> bool)
    requires Traced(w) && id !in w.ledger
    ensures AllStates(w, id, p)
  {
    assert RecordTraced(w, id);
    forall sweep, i | sweep in w.sweeps && 0 <= i < |w.sweeps[sweep]| ensures w.sweeps[sweep][i].jobId != id {
      assert SweepTraced(w, sweep) && w.sweeps[sweep][i] in w.sweeps[sweep];
    }
  }

  // ---------- recorded attempts ----------

  function AttemptsOf(w: World, id: Id): int {
    if id in w.store.docs then w.store.docs[id].attempts else 0
  }

  lemma EventKeepsAttemptsBelow(reg: Registry, w: World, e: Event, id: Id, n: nat)
    requires Enabled(reg, w, e) && Traced(w) && AllStates(w, id, AttemptsAtMost(n))
    ensures AllStates(Apply(reg, w, e), id, AttemptsAtMost(n + Begun(w, e, id)))
  {
    if Written(reg, w, e).Some? && Written(reg, w, e).value.jobId == id {
      WrittenFrom(reg, w, e);
      if Base(reg, w, e).Some? { BaseIsAState(reg, w, e, id, AttemptsAtMost(n)); }
    }
    EventKeepsStates(reg, w, e, id, AttemptsAtMost(n), AttemptsAtMost(n + Begun(w, e, id)));
  }

  /** Neither the record nor any listing ever claims more attempts than runs began, in any run at all. */
  lemma {:induction false} AttemptsNeverExceedRuns(reg: Registry, w: World, events: seq<Event>, id: Id, n: nat)
    requires Traced(w) && Run(reg, w, events).Some? && AllStates(w, id, AttemptsAtMost(n))
    ensures AllStates(Run(reg, w, events).value, id, AttemptsAtMost(n + RunsBegun(reg, w, events, id)))
    decreases events
  {
    if events != [] {
      EventKeepsTraced(reg, w, events[0]);
      EventKeepsAttemptsBelow(reg, w, events[0], id, n);
      AttemptsNeverExceedRuns(reg, Apply(reg, w, events[0]), events[1..], id, n + Begun(w, events[0], id));
    }
  }

  lemma EventCountsAttempts(reg: Registry, r: Rules, w: World, e: Event, id: Id)
    requires Enabled(reg, w, e) && Permits(r, w, e) && r.listingsCurrent && Traced(w) && e != Expire(id)
    ensures AttemptsOf(Apply(reg, w, e), id) == AttemptsOf(w, id) + Begun(w, e, id)
  {
    EventEffect(reg, w, e);
    assert RecordTraced(w, id);
    if Written(reg, w, e).Some? { WrittenFrom(reg, w, e); }
    if e.Signals? { assert MessageTraced(w, e.tag); }
  }

  /** Where listings are current and the job's record does not expire, it counts the runs exactly. */
  lemma {:induction false} AttemptsAreRuns(reg: Registry, r: Rules, w: World, events: seq<Event>, id: Id)
    requires r.listingsCurrent && Traced(w) && Follows(reg, r, w, events) && Expire(id) !in events
    ensures Run(reg, w, events).Some?
    ensures AttemptsOf(Run(reg, w, events).value, id) == AttemptsOf(w, id) + RunsBegun(reg, w, events, id)
    decreases events
  {
    if events != [] {
      assert events[0] in events;
      EventKeepsTraced(reg, w, events[0]);
      EventCountsAttempts(reg, r, w, events[0], id);
      AttemptsAreRuns(reg, r, Apply(reg, w, events[0]), events[1..], id);
    }
  }

  // ---------- the tighter bound ----------

  function LimitOf(reg: Registry, w: World, id: Id): int {
    if NameOf(w, id) in reg then reg[NameOf(w, id)].maxTry else 0
  }

  /** The limit in every state of the job is its handler's, or zero when the prerun hook made the record. */
  ghost predicate LimitKnown(reg: Registry, w: World, id: Id) {
    id in w.ledger && NameOf(w, id) in reg ==> AllStates(w, id, LimitIs(LimitOf(reg, w, id)))
  }

  ghost predicate Tight(reg: Registry, w: World, id: Id) {
    id in w.ledger && LimitOf(reg, w, id) >= 1 ==>
      && AttemptsOf(w, id) + Budget(w.mail, id) <= 2 * LimitOf(reg, w, id) - 1
      && AllStates(w, id, AttemptsAtMost(2 * LimitOf(reg, w, id) - 1))
  }

  lemma EventKeepsLimitKnown(reg: Registry, w: World, e: Event, id: Id)
    requires Enabled(reg, w, e) && Traced(w) && LimitKnown(reg, w, id)
    ensures LimitKnown(reg, Apply(reg, w, e), id)
  {
    var w' := Apply(reg, w, e);
    LedgerGrows(reg, w, e);
    if id in w'.ledger && NameOf(w', id) in reg {
      var p := LimitIs(LimitOf(reg, w', id));
      if id !in w.ledger { UnknownHasNoStates(w, id, p); }
      if Written(reg, w, e).Some? && Written(reg, w, e).value.jobId == id {
        WrittenFrom(reg, w, e);
        if Base(reg, w, e).Some? { BaseIsAState(reg, w, e, id, p); }
      }
      EventKeepsStates(reg, w, e, id, p, p);
    }
  }

  /** The event neither resumes nor gives up the job. */
  predicate LeavesToTheWorkers(w: World, e: Event, id: Id) {
    e.Recover? && Next(w, e.sweep).Some? && IsOrphan(Next(w, e.sweep).value) ==> Next(w, e.sweep).value.jobId != id
  }

  lemma AttemptsAfter(reg: Registry, w: World, e: Event, id: Id)
    requires Enabled(reg, w, e) && Traced(w) && LeavesToTheWorkers(w, e, id)
    ensures 0 <= AttemptsOf(w, id)
    ensures AttemptsOf(Apply(reg, w, e), id) <= AttemptsOf(w, id) + Begun(w, e, id)
  {
    EventEffect(reg, w, e);
    assert RecordTraced(w, id);
    if Written(reg, w, e).Some? { WrittenFrom(reg, w, e); }
    if e.Signals? { assert MessageTraced(w, e.tag); }
  }

  lemma NotOutstandingNoBudget(w: World, id: Id)
    requires !Outstanding(w, id)
    ensures Budget(w.mail, id) == 0
  {
    NoDeliveryNoBudget(w.mail, id);
  }

  lemma UnknownHasNoBudget(w: World, id: Id)
    requires Traced(w) && id !in w.ledger
    ensures Budget(w.mail, id) == 0
  {
    forall t | t in w.mail ensures w.mail[t].jobId != id { assert MessageTraced(w, t); }
    NoDeliveryNoBudget(w.mail, id);
  }

  /** A sweep that acts on a job without delivery leaves it room for one more publication at most. */
  lemma SweepKeepsSum(reg: Registry, w: World, e: Event, id: Id)
    requires Enabled(reg, w, e) && Traced(w) && !LeavesToTheWorkers(w, e, id) && !Outstanding(w, id)
    requires LimitKnown(reg, w, id) && Tight(reg, w, id) && LimitOf(reg, w, id) >= 1
    ensures var w' := Apply(reg, w, e);
      && LimitOf(reg, w', id) == LimitOf(reg, w, id)
      && AttemptsOf(w', id) + Budget(w'.mail, id) <= 2 * LimitOf(reg, w, id) - 1
  {
    var j, limit := Next(w, e.sweep).value, LimitOf(reg, w, id);
    EventEffect(reg, w, e);
    WrittenFrom(reg, w, e);
    NextIsTraced(w, e.sweep);
    NotOutstandingNoBudget(w, id);
    BudgetAfter(reg, w, e, id);
    BaseIsAState(reg, w, e, id, LimitIs(limit));
    BaseIsAState(reg, w, e, id, AttemptsAtMost(2 * limit - 1));
    assert AttemptsOf(Apply(reg, w, e), id) == j.attempts;
  }

  /** Any other event uses up a run for every attempt it counts, or publishes the job first. */
  lemma WorkersKeepSum(reg: Registry, w: World, e: Event, id: Id)
    requires Enabled(reg, w, e) && Traced(w) && LeavesToTheWorkers(w, e, id) && !e.Redeliver?
    requires Tight(reg, w, id)
    ensures var w' := Apply(reg, w, e);
      id in w'.ledger && LimitOf(reg, w', id) >= 1 ==>
        AttemptsOf(w', id) + Budget(w'.mail, id) <= 2 * LimitOf(reg, w', id) - 1
  {
    AttemptsAfter(reg, w, e, id);
    BudgetAfter(reg, w, e, id);
    LedgerGrows(reg, w, e);
    assert RecordTraced(w, id);
    if id !in w.ledger { UnknownHasNoBudget(w, id); }
    if Posted(reg, w, e).Some? && Posted(reg, w, e).value.jobId == id { PostedIsNew(reg, w, e); }
  }

  lemma EventKeepsStatesBelow(reg: Registry, w: World, e: Event, id: Id, most: int)
    requires Enabled(reg, w, e) && Traced(w) && AllStates(w, id, AttemptsAtMost(most))
    requires AttemptsOf(Apply(reg, w, e), id) <= most
    ensures AllStates(Apply(reg, w, e), id, AttemptsAtMost(most))
  {
    EventEffect(reg, w, e);
    EventKeepsStates(reg, w, e, id, AttemptsAtMost(most), AttemptsAtMost(most));
  }

  lemma EventKeepsTight(reg: Registry, w: World, e: Event, id: Id)
    requires Enabled(reg, w, e) && Traced(w) && !e.Redeliver?
    requires !LeavesToTheWorkers(w, e, id) ==> !Outstanding(w, id)
    requires LimitKnown(reg, w, id) && Tight(reg, w, id)
    ensures Tight(reg, Apply(reg, w, e), id)
  {
    var w' := Apply(reg, w, e);
    LedgerGrows(reg, w, e);
    if id in w'.ledger && LimitOf(reg, w', id) >= 1 {
      var most := 2 * LimitOf(reg, w', id) - 1;
      if LeavesToTheWorkers(w, e, id) { WorkersKeepSum(reg, w, e, id); } else { SweepKeepsSum(reg, w, e, id); }
      if id !in w.ledger { UnknownHasNoStates(w, id, AttemptsAtMost(most)); }
      EventKeepsStatesBelow(reg, w, e, id, most);
    }
  }

  lemma {:induction false} RunKeepsTight(reg: Registry, r: Rules, w: World, events: seq<Event>, id: Id)
    requires r.noRedelivery && r.resumeAfterLoss && Traced(w) && Follows(reg, r, w, events)
    requires LimitKnown(reg, w, id) && Tight(reg, w, id)
    ensures Run(reg, w, events).Some? && Traced(Run(reg, w, events).value)
    ensures Tight(reg, Run(reg, w, events).value, id)
    decreases events
  {
    if events != [] {
      EventKeepsTraced(reg, w, events[0]);
      EventKeepsLimitKnown(reg, w, events[0], id);
      EventKeepsTight(reg, w, events[0], id);
      RunKeepsTight(reg, r, Apply(reg, w, events[0]), events[1..], id);
    }
  }

  /** When the sweep only acts on jobs whose deliveries are lost, no record ever counts more than
      2 * max_try - 1 attempts, however many times the job is resumed. */
  lemma AttemptsBounded(reg: Registry, r: Rules, events: seq<Event>, w: World, id: Id)
    requires r.noRedelivery && r.resumeAfterLoss && Reaches(reg, r, events, w)
    requires id in w.ledger && w.ledger[id].name in reg && reg[w.ledger[id].name].maxTry >= 1
    ensures AttemptsOf(w, id) <= 2 * reg[w.ledger[id].name].maxTry - 1
  {
    NothingIsTraced();
    RunKeepsTight(reg, r, NOTHING, events, id);
  }

  /** When listings are current too and the record does not expire, that bounds the runs themselves. */
  lemma RunsBounded(reg: Registry, r: Rules, events: seq<Event>, w: World, id: Id)
    requires r.noRedelivery && r.resumeAfterLoss && r.listingsCurrent && Reaches(reg, r, events, w)
    requires id in w.ledger && w.ledger[id].name in reg && reg[w.ledger[id].name].maxTry >= 1
    requires Expire(id) !in events
    ensures RunsBegun(reg, NOTHING, events, id) <= 2 * reg[w.ledger[id].name].maxTry - 1
  {
    AttemptsBounded(reg, r, events, w, id);
    NothingIsTraced();
    AttemptsAreRuns(reg, r, NOTHING, events, id);
  }

  // ---------- the sweep stops resuming a job ----------

  /** The job starts at least once between two resumes, its record does not expire, and a sweep that acts
      on it acts on its current record. */
  ghost predicate StartsBetweenResumes(reg: Registry, w: World, events: seq<Event>, id: Id, started: bool)
    decreases events
  {
    events == [] ||
    var e := events[0];
    && Enabled(reg, w, e) && e != Expire(id)
    && (!LeavesToTheWorkers(w, e, id) ==> IsCurrent(w, Next(w, e.sweep).value))
    && (IsResume(reg, w, e, id) ==> started)
    && StartsBetweenResumes(reg, Apply(reg, w, e), events[1..], id,
         if IsResume(reg, w, e, id) then false else started || Begun(w, e, id) == 1)
  }

  /** What an event does to the measure `max_try - attempts` of a job. */
  lemma MeasureAfter(reg: Registry, w: World, e: Event, id: Id)
    requires Enabled(reg, w, e) && Traced(w) && id in w.store.docs && e != Expire(id)
    requires !LeavesToTheWorkers(w, e, id) ==> IsCurrent(w, Next(w, e.sweep).value)
    ensures var w' := Apply(reg, w, e);
      && id in w'.store.docs && w'.store.docs[id].maxTry == w.store.docs[id].maxTry
      && w'.store.docs[id].attempts == w.store.docs[id].attempts + Begun(w, e, id)
  {
    EventEffect(reg, w, e);
    assert RecordTraced(w, id);
    if Written(reg, w, e).Some? { WrittenFrom(reg, w, e); }
    if e.Signals? { assert MessageTraced(w, e.tag); }
  }

  /** Such a job is resumed at most max_try - attempts more times, then the sweep gives it up. */
  lemma {:induction false} ResumesAreBounded(reg: Registry, w: World, events: seq<Event>, id: Id, started: bool)
    requires Traced(w) && id in w.store.docs && StartsBetweenResumes(reg, w, events, id, started)
    ensures var left := w.store.docs[id].maxTry - w.store.docs[id].attempts - (if started then 0 else 1);
      Resumes(reg, w, events, id) <= if left > 0 then left else 0
    decreases events
  {
    if events != [] {
      var e := events[0];
      EventKeepsTraced(reg, w, e);
      MeasureAfter(reg, w, e, id);
      ResumesAreBounded(reg, Apply(reg, w, e), events[1..], id,
        if IsResume(reg, w, e, id) then false else started || Begun(w, e, id) == 1);
    }
  }

  // ---------- jobs the sweep never resumes ----------

  lemma EventKeepsNeverEligible(reg: Registry, w: World, e: Event, id: Id)
    requires Enabled(reg, w, e) && Traced(w) && id in w.ledger && AllStates(w, id, NeverEligible())
    ensures AllStates(Apply(reg, w, e), id, NeverEligible()) && id in Apply(reg, w, e).ledger
    ensures !IsResume(reg, w, e, id)
  {
    LedgerGrows(reg, w, e);
    if e.Recover? { NextIsTraced(w, e.sweep); }
    if Base(reg, w, e).Some? && Base(reg, w, e).value.jobId == id {
      BaseIsAState(reg, w, e, id, NeverEligible());
    }
    if Written(reg, w, e).Some? { WrittenFrom(reg, w, e); }
    EventKeepsStates(reg, w, e, id, NeverEligible(), NeverEligible());
  }

  /** A published job without record, or whose record the prerun hook made, is never resumed in any run,
      whatever it meets: later runs, retries, expiries, redeliveries, stale listings. A sweep that finds
      it an orphan gives it up. */
  lemma {:induction false} CreatedByPrerunNeverResumed(reg: Registry, w: World, events: seq<Event>, id: Id, now: Time)
    requires Traced(w) && id in w.ledger && AllStates(w, id, NeverEligible())
    ensures Resumes(reg, w, events, id) == 0
    ensures Run(reg, w, events).Some? && id in Run(reg, w, events).value.store.docs ==>
      var j := Run(reg, w, events).value.store.docs[id];
      IsOrphan(j) ==> Verdict(reg, j, now).status == FAILURE
    decreases events
  {
    if events == [] {
      assert RecordTraced(w, id);
    } else if Enabled(reg, w, events[0]) {
      EventKeepsTraced(reg, w, events[0]);
      EventKeepsNeverEligible(reg, w, events[0], id);
      CreatedByPrerunNeverResumed(reg, Apply(reg, w, events[0]), events[1..], id, now);
    }
  }

  /** So no job the scheduler fires is ever resumed. */
  lemma ScheduledNeverResumed(reg: Registry, w: World, id: Id, name: string, kwargs: Kwargs, tag: nat,
      events: seq<Event>)
    requires Traced(w) && Enabled(reg, w, BeatFires(id, name, kwargs, tag))
    ensures Resumes(reg, w, [BeatFires(id, name, kwargs, tag)] + events, id) == 0
  {
    var e := BeatFires(id, name, kwargs, tag);
    UnknownHasNoStates(w, id, NeverEligible());
    EventKeepsTraced(reg, w, e);
    EventKeepsStates(reg, w, e, id, NeverEligible(), NeverEligible());
    CreatedByPrerunNeverResumed(reg, Apply(reg, w, e), events, id, 0);
    assert ([e] + events)[1..] == events;
  }

  // ---------- jobs that were not declared resumable ----------

  /** A job whose name is not registered, or whose handler forbids it, is never published again in any run
      from any traced world. */
  lemma {:induction false} NotResumableNeverPublishedAgain(reg: Registry, w: World, events: seq<Event>, id: Id)
    requires Traced(w) && id in w.ledger && Run(reg, w, events).Some?
    requires w.ledger[id].name !in reg || !reg[w.ledger[id].name].resume
    ensures id in Run(reg, w, events).value.ledger
    ensures Run(reg, w, events).value.ledger[id].publications == w.ledger[id].publications
    decreases events
  {
    if events != [] {
      if events[0].Recover? { NextIsTraced(w, events[0].sweep); }
      LedgerGrows(reg, w, events[0]);
      EventKeepsTraced(reg, w, events[0]);
      NotResumableNeverPublishedAgain(reg, Apply(reg, w, events[0]), events[1..], id);
    }
  }

  /** What a turn of a sweep does to the orphan it has reached, in the handler's own terms: published once
      more and PENDING when its handler is resumable and attempts are left, else FAILURE, its key deleted
      and nothing published. */
  lemma TurnFollowsThePolicy(reg: Registry, w: World, sweep: nat, tag: nat, now: Time)
    requires Traced(w) && Enabled(reg, w, Recover(sweep, tag, now))
    ensures var j, w' := Next(w, sweep).value, Apply(reg, w, Recover(sweep, tag, now));
      var orphan := j.status == STARTED || j.status == PENDING;
      var resumable := j.name in reg && reg[j.name].resume && j.attempts < j.maxTry;
      && (orphan ==> j.jobId in w'.store.docs)
      && (orphan && resumable ==>
            && w'.store.docs[j.jobId].status == PENDING && w'.store.keys == w.store.keys
            && w'.mail.Keys == w.mail.Keys + {tag} && w'.mail[tag].jobId == j.jobId && w'.mail[tag].name == j.name
            && w'.mail[tag].kwargs.payload == Some(j.payload) && w'.mail[tag].kwargs.userUid == j.userUid
            && w'.ledger[j.jobId].publications == w.ledger[j.jobId].publications + 1)
      && (orphan && !resumable ==>
            && w'.store.docs[j.jobId].status == FAILURE
            && w'.store.keys == w.store.keys - {LockKey(j.name, j.userUid)}
            && w'.mail == w.mail && w'.ledger == w.ledger)
      && (!orphan ==> w'.store == w.store && w'.mail == w.mail && w'.ledger == w.ledger)
  {
    EventEffect(reg, w, Recover(sweep, tag, now));
  }

  // ---------- the bound is reached ----------

  /** The delivery runs n times, every run but the last asking for a retry. */
  predicate AreRetriedRuns(events: seq<Event>, tag: nat, n: nat, now: Time, reason: Option<string>) {
    && |events| == 2 * n - 1
    && forall i | 0 <= i < |events| ::
      events[i] == Signals(tag, if i % 2 == 0 then Begins(now) else AsksRetry(reason))
  }

  /** The events begin n runs of the job and leave its delivery in the state `last`. */
  ghost predicate RunsOut(reg: Registry, w: World, events: seq<Event>, tag: nat, last: Message, n: nat) {
    && Run(reg, w, events).Some?
    && RunsBegun(reg, w, events, last.jobId) == n
    && Run(reg, w, events).value.mail == w.mail[tag := last]
  }

  lemma OneMoreEvent(reg: Registry, w: World, e: Event, rest: seq<Event>, tag: nat, last: Message, n: nat)
    requires Enabled(reg, w, e) && RunsOut(reg, Apply(reg, w, e), rest, tag, last, n)
    requires Apply(reg, w, e).mail[tag := last] == w.mail[tag := last]
    ensures RunsOut(reg, w, [e] + rest, tag, last, n + Begun(w, e, last.jobId))
  {
    assert ([e] + rest)[1..] == rest;
  }

  lemma LastRun(reg: Registry, w: World, tag: nat, now: Time, reason: Option<string>) returns (events: seq<Event>)
    requires tag in w.mail && w.mail[tag].phase == Queued && w.mail[tag].left == 1 && w.mail[tag].name in reg
    ensures AreRetriedRuns(events, tag, 1, now, reason)
    ensures RunsOut(reg, w, events, tag, w.mail[tag].(left := 0, phase := Running), 1)
  {
    var e := Signals(tag, Begins(now));
    var last := w.mail[tag].(left := 0, phase := Running);
    var w' := Apply(reg, w, e);
    assert w'.mail == w.mail[tag := last];
    assert RunsOut(reg, w', [], tag, last, 0);
    OneMoreEvent(reg, w, e, [], tag, last, 0);
    events := [e] + [];
  }

  /** One run that asks for a retry: the delivery is queued again with one run less, and what runs out from
      there runs out from here with one run more. */
  lemma RunAndRetry(reg: Registry, w: World, tag: nat, now: Time, reason: Option<string>) returns (w': World)
    requires tag in w.mail && w.mail[tag].phase == Queued && w.mail[tag].left >= 2 && w.mail[tag].name in reg
    ensures w'.mail == w.mail[tag := w.mail[tag].(left := w.mail[tag].left - 1)]
    ensures var last, n := w.mail[tag].(left := 0, phase := Running), w.mail[tag].left - 1;
      forall rest | RunsOut(reg, w', rest, tag, last, n) ::
        RunsOut(reg, w, RetriedThen(tag, now, reason, rest), tag, last, n + 1)
  {
    var e, f := Signals(tag, Begins(now)), Signals(tag, AsksRetry(reason));
    var last, n := w.mail[tag].(left := 0, phase := Running), w.mail[tag].left - 1;
    var w1 := Apply(reg, w, e);
    w' := Apply(reg, w1, f);
    assert w1.mail[tag := last] == w.mail[tag := last] == w'.mail[tag := last];
    forall rest | RunsOut(reg, w', rest, tag, last, n)
      ensures RunsOut(reg, w, RetriedThen(tag, now, reason, rest), tag, last, n + 1)
    {
      OneMoreEvent(reg, w1, f, rest, tag, last, n);
      OneMoreEvent(reg, w, e, [f] + rest, tag, last, n);
      assert [e] + ([f] + rest) == RetriedThen(tag, now, reason, rest);
    }
  }

  function RetriedThen(tag: nat, now: Time, reason: Option<string>, rest: seq<Event>): seq<Event> {
    [Signals(tag, Begins(now)), Signals(tag, AsksRetry(reason))] + rest
  }

  lemma {:induction false} DeliveryRunsOut(reg: Registry, w: World, tag: nat, now: Time, reason: Option<string>)
    returns (events: seq<Event>)
    requires tag in w.mail && w.mail[tag].phase == Queued && w.mail[tag].left >= 1 && w.mail[tag].name in reg
    ensures AreRetriedRuns(events, tag, w.mail[tag].left, now, reason)
    ensures RunsOut(reg, w, events, tag, w.mail[tag].(left := 0, phase := Running), w.mail[tag].left)
    decreases w.mail[tag].left
  {
    if w.mail[tag].left == 1 {
      events := LastRun(reg, w, tag, now, reason);
    } else {
      var w' := RunAndRetry(reg, w, tag, now, reason);
      var rest := DeliveryRunsOut(reg, w', tag, now, reason);
      events := RetriedThen(tag, now, reason, rest);
    }
  }

  /** A job just published under a registered name, by an enqueue, the scheduler or a sweep, begins exactly
      max(1, max_try) runs when each of them asks for a retry as long as it may; after that no retry is left
      to ask for. */
  lemma EveryRetryIsUsed(reg: Registry, w: World, e: Event, now: Time, reason: Option<string>)
    returns (events: seq<Event>)
    requires Traced(w) && Enabled(reg, w, e) && Posted(reg, w, e).Some? && Posted(reg, w, e).value.name in reg
    ensures var m := Posted(reg, w, e).value;
      var runs: nat := if reg[m.name].maxTry > 1 then reg[m.name].maxTry else 1;
      && AreRetriedRuns(events, e.tag, runs, now, reason)
      && Run(reg, w, [e] + events).Some?
      && RunsBegun(reg, w, [e] + events, m.jobId) == runs
      && forall again :: !Enabled(reg, Run(reg, w, [e] + events).value, Signals(e.tag, AsksRetry(again)))
  {
    var m := Posted(reg, w, e).value;
    PostedIsNew(reg, w, e);
    var w' := Apply(reg, w, e);
    var last := m.(left := 0, phase := Running);
    events := DeliveryRunsOut(reg, w', e.tag, now, reason);
    assert w'.mail[e.tag := last] == w.mail[e.tag := last];
    OneMoreEvent(reg, w, e, events, e.tag, last, m.left);
  }
}

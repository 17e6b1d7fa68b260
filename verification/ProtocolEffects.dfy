/** What each event writes, frees and takes; and that records and deliveries stay traceable to their
    publication and the three indexes stay exact in every run, whatever the environment does. */
module ProtocolEffects {
  import opened Prelude
  import opened JobStates
  import opened Redis
  import opened JobPersistency
  import opened Agent
  import opened JobRecovery
  import opened RecoveryExact
  import opened ClientAgent
  import opened AgentProtocol

  // ---------- one signal ----------

  predicate Releases(sig: Signal) {
    !sig.Begins? && !sig.AsksRetry?
  }

  /** What a signal makes of a record that still exists. */
  function Rewritten(j: JobState, sig: Signal): JobState {
    match sig
    case Begins(now) => Started(j, now)
    case AsksRetry(reason) => j.(status := RETRY, error := AsError(reason))
    case Succeeds(retval, now) => Completed(j, CelerySuccess, retval, now)
    case FailureAndPostrun(cause, now) =>
      Completed(j.(status := FAILURE, error := AsError(cause)), CeleryFailure, None, now)
    case FailureOnly(cause) => j.(status := FAILURE, error := AsError(cause))
    case PostrunOnly(now) => Completed(j, CeleryFailure, None, now)
    case EndsOtherwise(now) => Completed(j, CeleryOther, None, now)
    case IsRevoked(now) => Ended(j, now).(status := CANCELED)
  }

  /** The record a signal saves. Only a beginning run creates one. */
  function SignalWrites(s: Store, m: Message, sig: Signal): Option<JobState> {
    if m.jobId in s.docs then Some(Rewritten(s.docs[m.jobId], sig))
    else if sig.Begins? then Some(Started(FreshState(m.jobId, m.name, Some(m.kwargs), sig.now), sig.now))
    else None
  }

  function SignalFrees(s: Store, m: Message, sig: Signal): set<string> {
    if m.jobId in s.docs && Releases(sig) && s.docs[m.jobId].maxConcurrent > 0 then {KeyOf(s.docs[m.jobId])} else {}
  }

  function WithRecord(docs: map<Id, JobState>, written: Option<JobState>): map<Id, JobState> {
    if written.Some? then docs[written.value.jobId := written.value] else docs
  }

  lemma FinishEffect(s: Store, j: JobState)
    ensures Finish(s, j).docs == s.docs[j.jobId := j]
    ensures Finish(s, j).zsets == Saved(s, j).zsets
    ensures Finish(s, j).keys == s.keys - (if j.maxConcurrent > 0 then {KeyOf(j)} else {})
  {
  }

  lemma SignalEffect(s: Store, m: Message, sig: Signal)
    requires m.jobId != "" && (m.jobId in s.docs ==> s.docs[m.jobId].jobId == m.jobId)
    ensures Signalled(s, m, sig).docs == WithRecord(s.docs, SignalWrites(s, m, sig))
    ensures Signalled(s, m, sig).keys == s.keys - SignalFrees(s, m, sig)
  {
    if m.jobId in s.docs && Releases(sig) {
      var j := s.docs[m.jobId];
      if sig.FailureAndPostrun? {
        var failed := j.(status := FAILURE, error := AsError(sig.cause));
        FinishEffect(s, failed);
        FinishEffect(Finish(s, failed), Rewritten(j, sig));
      } else {
        FinishEffect(s, Rewritten(j, sig));
      }
    }
  }

  lemma SignalKeepsConsistent(s: Store, m: Message, sig: Signal, own: map<Id, Ownership>)
    requires m.jobId != "" && Consistent(s, own)
    requires m.jobId in own && own[m.jobId] == Ownership(m.kwargs.userUid, m.kwargs.scheduleName)
    ensures Consistent(Signalled(s, m, sig), own)
  {
    var written := SignalWrites(s, m, sig);
    if written.Some? {
      var j := written.value;
      SaveKeepsConsistent(s, j, own);
      if sig.FailureAndPostrun? {
        var failed := s.docs[m.jobId].(status := FAILURE, error := AsError(sig.cause));
        var s1 := Finish(s, failed);
        FinishEffect(s, failed);
        SaveKeepsConsistent(s, failed, own);
        KeysDoNotMatter(Saved(s, failed), s1, own);
        FinishEffect(s1, j);
        SaveKeepsConsistent(s1, j, own);
        KeysDoNotMatter(Saved(s1, j), Signalled(s, m, sig), own);
      } else {
        if Releases(sig) { FinishEffect(s, j); }
        KeysDoNotMatter(Saved(s, j), Signalled(s, m, sig), own);
      }
    }
  }

  /** `j` with an outcome written over it: identity, counters, limits and payload are those of `j`. */
  predicate OnlyOutcomeChanged(j: JobState, k: JobState) {
    k == j.(status := k.status, dateEnd := k.dateEnd, duration := k.duration, result := k.result, error := k.error)
  }

  /** What a closing signal makes of the record: the terminal status it stands for, the end, the
      duration, the result and the error it reports, and nothing else. */
  lemma ClosingSignalRecordsTheOutcome(s: Store, m: Message, sig: Signal)
    requires m.jobId != "" && m.jobId in s.docs && s.docs[m.jobId].jobId == m.jobId
    requires Releases(sig) && !sig.EndsOtherwise?
    ensures var j := s.docs[m.jobId];
      && m.jobId in Signalled(s, m, sig).docs
      && var k := Signalled(s, m, sig).docs[m.jobId];
      && OnlyOutcomeChanged(j, k)
      && k.status == (if sig.Succeeds? then SUCCESS else if sig.IsRevoked? then CANCELED else FAILURE)
      && k.dateEnd == (if sig.FailureOnly? then j.dateEnd else Some(sig.now))
      && k.duration ==
           (if sig.FailureOnly? || j.dateStart.None? then j.duration else Some(sig.now - j.dateStart.value))
      && k.result == (if sig.Succeeds? && sig.retval.Some? then sig.retval else j.result)
      && k.error ==
           (if !sig.FailureOnly? && !sig.FailureAndPostrun? then j.error
            else if sig.cause.Some? then Some(Raised(sig.cause.value)) else None)
  {
    SignalEffect(s, m, sig);
  }

  /** What a beginning run and a retry make of the record: a start, now, and one more attempt; or the
      reason of the retry. Nothing else of it changes. */
  lemma OpenSignalRecordsTheRun(s: Store, m: Message, sig: Signal)
    requires m.jobId != "" && m.jobId in s.docs && s.docs[m.jobId].jobId == m.jobId
    requires !Releases(sig)
    ensures var j := s.docs[m.jobId];
      && m.jobId in Signalled(s, m, sig).docs
      && var k := Signalled(s, m, sig).docs[m.jobId];
      && k == j.(status := k.status, dateStart := k.dateStart, attempts := k.attempts, error := k.error)
      && (sig.Begins? ==>
            k.status == STARTED && k.dateStart == Some(sig.now) && k.attempts == j.attempts + 1 && k.error == j.error)
      && (sig.AsksRetry? ==>
            && k.status == RETRY && k.dateStart == j.dateStart && k.attempts == j.attempts
            && k.error == if sig.reason.Some? then Some(Raised(sig.reason.value)) else None)
  {
    SignalEffect(s, m, sig);
  }

  /** What a run without record creates: a record of the message, planned and started now on its first
      attempt, without lock, limit or timeout, so that no sweep resumes it and no look gives it up. */
  lemma RunWithoutRecordCreatesOne(s: Store, m: Message, now: Time)
    requires m.jobId != "" && m.jobId !in s.docs
    ensures var t := Signalled(s, m, Begins(now));
      && t.docs.Keys == s.docs.Keys + {m.jobId} && t.keys == s.keys
      && (forall id <- s.docs :: t.docs[id] == s.docs[id])
      && var k := t.docs[m.jobId];
      && k.jobId == m.jobId && k.name == m.name && k.userUid == m.kwargs.userUid
      && k.scheduleName == m.kwargs.scheduleName
      && k.payload == (if m.kwargs.payload.Some? && m.kwargs.payload.value != "" then m.kwargs.payload.value else "{}")
      && k.status == STARTED && k.attempts == 1 && k.datePlanned == now && k.dateStart == Some(now)
      && k.maxTry == 0 && k.softTimeout == 0 && k.maxConcurrent == 0
      && k.dateEnd.None? && k.duration.None? && k.result.None? && k.error.None?
  {
    SignalEffect(s, m, Begins(now));
  }

  /** A postrun in a state of neither success nor failure leaves the status as it was, with an end. */
  lemma UndecidedPostrunOnlyEnds(s: Store, m: Message, now: Time)
    requires m.jobId != "" && m.jobId in s.docs && s.docs[m.jobId].jobId == m.jobId
    ensures var j := s.docs[m.jobId];
      && m.jobId in Signalled(s, m, EndsOtherwise(now)).docs
      && var k := Signalled(s, m, EndsOtherwise(now)).docs[m.jobId];
      && k == j.(dateEnd := Some(now), duration := k.duration)
      && k.duration == if j.dateStart.Some? then Some(now - j.dateStart.value) else j.duration
  {
    SignalEffect(s, m, EndsOtherwise(now));
  }

  /** Hooks called for no job, or for one whose record is gone, leave the store alone; so does a prerun
      without task for a job without record, and a postrun that announces a retry. */
  lemma HooksLeaveUnknownJobsAlone(s: Store, id: Option<Id>, state: CeleryState, text: Option<string>,
      kwargs: Option<Kwargs>, now: Time)
    ensures id.None? || id.value == "" || id.value !in s.docs ==>
      Postrun(s, id, state, text, now) == Retried(s, id, text) == Failed(s, id, text) == Revoked(s, id, now) == s
    ensures id.None? || id.value !in s.docs ==> Prerun(s, id, None, kwargs, now) == s
    ensures id.None? ==> Prerun(s, id, text, kwargs, now) == s
    ensures Postrun(s, id, CeleryRetry, text, now) == s
  {
  }

  /** What the hooks promise of the signal that ends a run for good: the record is terminal and out of
      the pending index, the lock is released if the job took one, and nothing else moves. */
  lemma ClosingSignalClosesTheJob(s: Store, m: Message, sig: Signal, own: map<Id, Ownership>)
    requires m.jobId != "" && m.jobId in s.docs && Consistent(s, own)
    requires m.jobId in own && own[m.jobId] == Ownership(m.kwargs.userUid, m.kwargs.scheduleName)
    requires Releases(sig) && !sig.EndsOtherwise?
    ensures var s', j := Signalled(s, m, sig), s.docs[m.jobId];
      && s'.docs.Keys == s.docs.Keys && IsTerminal(s'.docs[m.jobId].status)
      && s'.docs[m.jobId].attempts == j.attempts && KeyOf(s'.docs[m.jobId]) == KeyOf(j)
      && m.jobId !in Zset(s', PendingJobs)
      && s'.keys == s.keys - (if j.maxConcurrent > 0 then {KeyOf(j)} else {})
      && forall id <- s.docs :: id != m.jobId ==> s'.docs[id] == s.docs[id]
  {
    SignalEffect(s, m, sig);
    SignalKeepsConsistent(s, m, sig, own);
    var s' := Signalled(s, m, sig);
    assert EntryExact(Zset(s', PendingJobs), s'.docs, own, PendingJobs, m.jobId);
  }

  /** A slot goes round: an admitted job takes its key, and the signal that closes it puts the keys back
      as they were, so the gate answers every request as it did before. */
  lemma SlotGoesRound(s: Store, req: Request, id: Id, user: Option<string>, now: Time, m: Message, sig: Signal)
    requires id != "" && m.jobId == id && Gate(s, req, user).None? && req.maxConcurrent == 1
    requires Releases(sig)
    ensures var held := Enqueued(s, req, id, user, now, NoFault);
      && held.keys == s.keys + {LockKey(req.name, user)}
      && Signalled(held, m, sig).keys == s.keys
      && Gate(Signalled(held, m, sig), req, user).None?
  {
    var held := Enqueued(s, req, id, user, now, NoFault);
    assert held.docs[id] == EnqueuedState(req, id, user, now);
    SignalEffect(held, m, sig);
    assert SignalFrees(held, m, sig) == {LockKey(req.name, user)};
    assert s.keys + {LockKey(req.name, user)} - {LockKey(req.name, user)} == s.keys;
  }

  /** A beginning run counts an attempt and a retry keeps the slot: both leave the job pending and every
      lock where it is. A run without record gets one that holds no lock and allows no resume. */
  lemma OpenSignalKeepsTheSlot(s: Store, m: Message, sig: Signal, own: map<Id, Ownership>)
    requires m.jobId != "" && Consistent(s, own)
    requires m.jobId in own && own[m.jobId] == Ownership(m.kwargs.userUid, m.kwargs.scheduleName)
    requires !Releases(sig) && (m.jobId in s.docs || sig.Begins?)
    ensures var s' := Signalled(s, m, sig);
      && m.jobId in s'.docs && s'.keys == s.keys
      && s'.docs[m.jobId].status == (if sig.Begins? then STARTED else RETRY)
      && m.jobId in Zset(s', PendingJobs) && Zset(s', PendingJobs)[m.jobId] == s'.docs[m.jobId].datePlanned
      && s'.docs[m.jobId].attempts ==
           (if m.jobId in s.docs then s.docs[m.jobId].attempts else 0) + (if sig.Begins? then 1 else 0)
      && (m.jobId !in s.docs ==> s'.docs[m.jobId].maxConcurrent == 0 && s'.docs[m.jobId].maxTry == 0)
  {
    SignalEffect(s, m, sig);
    SignalKeepsConsistent(s, m, sig, own);
    var s' := Signalled(s, m, sig);
    assert EntryExact(Zset(s', PendingJobs), s'.docs, own, PendingJobs, m.jobId);
  }

  // ---------- one event ----------

  /** The record an event saves. */
  function Written(reg: Registry, w: World, e: Event): Option<JobState>
    requires Enabled(reg, w, e)
  {
    match e
    case Enqueue(req, id, user, _, now, fault) =>
      if Gate(w.store, req, user).Some? || fault == SaveFails then None else Some(EnqueuedState(req, id, user, now))
    case Signals(tag, sig) => SignalWrites(w.store, w.mail[tag], sig)
    case Recover(sweep, _, now) =>
      var j := Next(w, sweep).value;
      if IsOrphan(j) then Some(Verdict(reg, j, now)) else None
    case Look(id, now) => if Flips(w.store, id, now) then Some(Seen(w.store.docs[id], now)) else None
    case _ => None
  }

  function Freed(reg: Registry, w: World, e: Event): set<string>
    requires Enabled(reg, w, e)
  {
    match e
    case Enqueue(req, _, user, _, _, fault) =>
      if Gate(w.store, req, user).None? && fault != NoFault && req.maxConcurrent > 0
      then {LockKey(req.name, user)} else {}
    case Signals(tag, sig) => SignalFrees(w.store, w.mail[tag], sig)
    case Recover(sweep, _, _) =>
      var j := Next(w, sweep).value;
      if IsOrphan(j) && !Eligible(reg, j) then {KeyOf(j)} else {}
    case Lapse(key) => {key}
    case _ => {}
  }

  function Taken(w: World, e: Event): set<string> {
    if e.Enqueue? && Gate(w.store, e.req, e.user).None? && e.req.maxConcurrent > 0
    then {LockKey(e.req.name, e.user)} else {}
  }

  function DocsAfter(reg: Registry, w: World, e: Event): map<Id, JobState>
    requires Enabled(reg, w, e)
  {
    if e.Expire? then w.store.docs - {e.id} else WithRecord(w.store.docs, Written(reg, w, e))
  }

  // ---------- traceability ----------

  /** The record is about a published job and carries its identity. */
  predicate StateTraced(ledger: map<Id, Entry>, j: JobState) {
    && j.jobId != "" && j.jobId in ledger && j.name == ledger[j.jobId].name && OwnerOf(j) == ledger[j.jobId].own
    && j.attempts >= 0 && (j.maxTry > 0 ==> j.scheduleName.None?)
  }

  ghost predicate RecordTraced(w: World, id: Id) {
    id in w.store.docs ==> w.store.docs[id].jobId == id && StateTraced(w.ledger, w.store.docs[id])
  }

  predicate ListingTraced(ledger: map<Id, Entry>, states: seq<JobState>) {
    forall j <- states :: StateTraced(ledger, j)
  }

  ghost predicate SweepTraced(w: World, sweep: nat) {
    sweep in w.sweeps ==> ListingTraced(w.ledger, w.sweeps[sweep])
  }

  ghost predicate MessageTraced(w: World, t: nat) {
    t in w.mail ==>
      var m := w.mail[t];
      && m.jobId != "" && m.jobId in w.ledger && m.name == w.ledger[m.jobId].name
      && Ownership(m.kwargs.userUid, m.kwargs.scheduleName) == w.ledger[m.jobId].own
  }

  /** Every record, every delivery and every listed record carries the name, user and schedule it was
      published with. */
  ghost predicate Traced(w: World) {
    && (forall id :: RecordTraced(w, id))
    && (forall t :: MessageTraced(w, t))
    && (forall sweep :: SweepTraced(w, sweep))
  }

  lemma NextIsTraced(w: World, sweep: nat)
    requires Traced(w) && Next(w, sweep).Some?
    ensures StateTraced(w.ledger, Next(w, sweep).value)
  {
    assert SweepTraced(w, sweep) && Next(w, sweep).value in w.sweeps[sweep];
  }

  /** The event writes one record at most, and moves the keys it takes and frees. */
  predicate HasEffect(reg: Registry, w: World, e: Event)
    requires Enabled(reg, w, e)
  {
    && Apply(reg, w, e).store.docs == DocsAfter(reg, w, e)
    && Apply(reg, w, e).store.keys == w.store.keys + Taken(w, e) - Freed(reg, w, e)
  }

  lemma SignalsEffect(reg: Registry, w: World, tag: nat, sig: Signal)
    requires Enabled(reg, w, Signals(tag, sig)) && Traced(w)
    ensures HasEffect(reg, w, Signals(tag, sig))
  {
    assert MessageTraced(w, tag) && RecordTraced(w, w.mail[tag].jobId);
    SignalEffect(w.store, w.mail[tag], sig);
  }

  lemma RecoverEffect(reg: Registry, w: World, sweep: nat, tag: nat, now: Time)
    requires Enabled(reg, w, Recover(sweep, tag, now)) && Traced(w)
    ensures HasEffect(reg, w, Recover(sweep, tag, now))
  {
    NextIsTraced(w, sweep);
    ReconcileOneEffect(w.store, reg, Next(w, sweep).value, now);
  }

  lemma EnqueueEffect(reg: Registry, w: World, e: Event)
    requires Enabled(reg, w, e) && e.Enqueue?
    ensures HasEffect(reg, w, e)
  {
    EnqueuedStore(w.store, e.req, e.id, e.user, e.now, e.fault);
  }

  lemma EnqueuedStore(s: Store, req: Request, id: Id, user: Option<string>, now: Time, fault: Fault)
    ensures var t, taken := Enqueued(s, req, id, user, now, fault), {LockKey(req.name, user)};
      if Gate(s, req, user).Some? then t == s
      else
        && t.docs == (if fault == SaveFails then s.docs else s.docs[id := EnqueuedState(req, id, user, now)])
        && t.keys == (if req.maxConcurrent <= 0 then s.keys else if fault == NoFault then s.keys + taken
                      else s.keys + taken - taken)
  {
  }

  lemma OtherEffect(reg: Registry, w: World, e: Event)
    requires Enabled(reg, w, e) && !e.Signals? && !e.Recover? && !e.Enqueue?
    ensures HasEffect(reg, w, e)
  {
  }

  /** The record, and the keys, every event leaves. */
  lemma EventEffect(reg: Registry, w: World, e: Event)
    requires Enabled(reg, w, e) && Traced(w)
    ensures Apply(reg, w, e).store.docs == DocsAfter(reg, w, e)
    ensures Apply(reg, w, e).store.keys == w.store.keys + Taken(w, e) - Freed(reg, w, e)
  {
    assert HasEffect(reg, w, e) by {
      if e.Signals? { SignalsEffect(reg, w, e.tag, e.sig); }
      else if e.Recover? { RecoverEffect(reg, w, e.sweep, e.tag, e.now); }
      else if e.Enqueue? { EnqueueEffect(reg, w, e); }
      else { OtherEffect(reg, w, e); }
    }
  }

  /** The record an event saves is about a published job and keeps its identity. */
  lemma WrittenIsTraced(reg: Registry, w: World, e: Event)
    requires Enabled(reg, w, e) && Traced(w) && Written(reg, w, e).Some?
    ensures StateTraced(Apply(reg, w, e).ledger, Written(reg, w, e).value)
  {
    match e {
      case Signals(tag, _) => assert MessageTraced(w, tag) && RecordTraced(w, w.mail[tag].jobId);
      case Recover(sweep, _, _) => NextIsTraced(w, sweep);
      case Look(id, _) => assert RecordTraced(w, id);
      case _ =>
    }
  }

  lemma LedgerGrows(reg: Registry, w: World, e: Event)
    requires Enabled(reg, w, e)
    ensures forall id <- w.ledger :: (
      && id in Apply(reg, w, e).ledger
      && Apply(reg, w, e).ledger[id].name == w.ledger[id].name
      && Apply(reg, w, e).ledger[id].own == w.ledger[id].own)
  {
  }

  lemma EventKeepsMessages(reg: Registry, w: World, e: Event)
    requires Enabled(reg, w, e) && Traced(w)
    ensures forall t :: MessageTraced(Apply(reg, w, e), t)
  {
    LedgerGrows(reg, w, e);
    forall t ensures MessageTraced(Apply(reg, w, e), t) {
      assert MessageTraced(w, t);
      match e {
        case Redeliver(tag, _) => assert MessageTraced(w, tag);
        case Recover(sweep, _, _) => NextIsTraced(w, sweep);
        case _ =>
      }
    }
  }

  lemma ListedRecordsAreTraced(w: World, k: ZKey, limit: int)
    requires Traced(w)
    ensures ListingTraced(w.ledger, Listing(w.store, k, limit))
    ensures forall j <- Listing(w.store, k, limit) :: IsCurrent(w, j)
  {
    var ids := Live(w.store.docs, RevRange(Zset(w.store, k), limit));
    forall j | j in Listing(w.store, k, limit) ensures StateTraced(w.ledger, j) && IsCurrent(w, j) {
      var i :| 0 <= i < |ids| && j == w.store.docs[ids[i]];
      assert ids[i] in ids && RecordTraced(w, ids[i]);
    }
  }

  lemma EventKeepsSweeps(reg: Registry, w: World, e: Event)
    requires Enabled(reg, w, e) && Traced(w)
    ensures forall sweep :: SweepTraced(Apply(reg, w, e), sweep)
  {
    LedgerGrows(reg, w, e);
    if e.ListOrphans? { ListedRecordsAreTraced(w, PendingJobs, SWEEP_LIMIT); }
    forall sweep ensures SweepTraced(Apply(reg, w, e), sweep) {
      assert SweepTraced(w, sweep);
      if e.Recover? && sweep == e.sweep {
        assert forall j <- w.sweeps[sweep][1..] :: j in w.sweeps[sweep];
      }
    }
  }

  lemma EventKeepsTraced(reg: Registry, w: World, e: Event)
    requires Enabled(reg, w, e) && Traced(w)
    ensures Traced(Apply(reg, w, e))
  {
    var w' := Apply(reg, w, e);
    EventEffect(reg, w, e);
    EventKeepsMessages(reg, w, e);
    EventKeepsSweeps(reg, w, e);
    LedgerGrows(reg, w, e);
    if Written(reg, w, e).Some? { WrittenIsTraced(reg, w, e); }
    forall id ensures RecordTraced(w', id) {
      assert RecordTraced(w, id);
    }
  }

  // ---------- the indexes ----------

  function Owners(w: World): map<Id, Ownership> {
    map id | id in w.ledger :: w.ledger[id].own
  }

  ghost predicate IndexesExact(w: World) {
    Consistent(w.store, Owners(w))
  }

  lemma MoreOwners(s: Store, own: map<Id, Ownership>, more: map<Id, Ownership>)
    requires Consistent(s, own) && forall id <- own :: id in more && more[id] == own[id]
    ensures Consistent(s, more)
  {
    forall k, id ensures EntryExact(Zset(s, k), s.docs, more, k, id) {
      assert EntryExact(Zset(s, k), s.docs, own, k, id);
    }
  }

  lemma EventKeepsIndexes(reg: Registry, w: World, e: Event)
    requires Enabled(reg, w, e) && Traced(w) && IndexesExact(w)
    ensures IndexesExact(Apply(reg, w, e))
  {
    var s, s', own := w.store, Apply(reg, w, e).store, Owners(Apply(reg, w, e));
    LedgerGrows(reg, w, e);
    MoreOwners(s, Owners(w), own);
    if e.Signals? {
      assert MessageTraced(w, e.tag);
      SignalKeepsConsistent(s, w.mail[e.tag], e.sig, own);
    } else if e.Expire? {
      StepKeepsConsistent(s, ExpireOp(e.id), own);
    } else if e.ListOrphans? {
      StepKeepsConsistent(s, ListOp(PendingJobs, SWEEP_LIMIT), own);
    } else {
      var written := Written(reg, w, e);
      EventSaves(reg, w, e);
      if written.Some? {
        WrittenIsTraced(reg, w, e);
        SaveKeepsConsistent(s, written.value, own);
        KeysDoNotMatter(Saved(s, written.value), s', own);
      } else {
        KeysDoNotMatter(s, s', own);
      }
    }
  }

  lemma EventSaves(reg: Registry, w: World, e: Event)
    requires Enabled(reg, w, e) && Traced(w) && !e.Signals? && !e.Expire? && !e.ListOrphans?
    ensures var s', written := Apply(reg, w, e).store, Written(reg, w, e);
      && s'.docs == WithRecord(w.store.docs, written)
      && s'.zsets == (if written.Some? then SavedZsets(w.store.zsets, written.value) else w.store.zsets)
  {
    if e.Recover? { NextIsTraced(w, e.sweep); }
  }

  /** Whatever signals arrive, in whatever order, with losses, redeliveries, expiries, sweeps and
      faults: a job never changes user or schedule, and a live document is always in exactly its own
      indexes. */
  lemma {:induction false} EveryRunKeepsIndexesExact(reg: Registry, w: World, events: seq<Event>)
    requires Traced(w) && IndexesExact(w)
    requires Run(reg, w, events).Some?
    ensures Traced(Run(reg, w, events).value) && IndexesExact(Run(reg, w, events).value)
    decreases events
  {
    if events != [] {
      EventKeepsTraced(reg, w, events[0]);
      EventKeepsIndexes(reg, w, events[0]);
      EveryRunKeepsIndexesExact(reg, Apply(reg, w, events[0]), events[1..]);
    }
  }

  lemma NothingIsTraced()
    ensures Traced(NOTHING) && IndexesExact(NOTHING)
  {
    forall k, id ensures EntryExact(Zset(NOTHING.store, k), NOTHING.store.docs, Owners(NOTHING), k, id) {}
  }

  // ---------- finished jobs ----------

  lemma SignalKeepsFinished(reg: Registry, w: World, tag: nat, sig: Signal, id: Id)
    requires Enabled(reg, w, Signals(tag, sig)) && Traced(w) && id in w.store.docs && !Outstanding(w, id)
    ensures var w' := Apply(reg, w, Signals(tag, sig));
      id in w'.store.docs && w'.store.docs[id] == w.store.docs[id] && !Outstanding(w', id)
  {
    EventEffect(reg, w, Signals(tag, sig));
    assert MessageTraced(w, tag) && RecordTraced(w, w.mail[tag].jobId);
  }

  lemma TurnKeepsFinished(reg: Registry, w: World, e: Event, id: Id)
    requires Enabled(reg, w, e) && e.Recover? && Traced(w) && !Outstanding(w, id)
    requires id in w.store.docs && IsTerminal(w.store.docs[id].status)
    requires IsOrphan(Next(w, e.sweep).value) ==> IsCurrent(w, Next(w, e.sweep).value)
    ensures var w' := Apply(reg, w, e);
      id in w'.store.docs && w'.store.docs[id] == w.store.docs[id] && !Outstanding(w', id)
  {
    EventEffect(reg, w, e);
    assert RecordTraced(w, id);
    NextIsTraced(w, e.sweep);
  }

  /** No event the rules allow but its own expiry changes the record of a finished job without delivery. */
  lemma QuietEventKeepsFinished(reg: Registry, r: Rules, w: World, e: Event, id: Id)
    requires Enabled(reg, w, e) && Permits(r, w, e) && r.listingsCurrent && Traced(w) && e != Expire(id)
    requires id in w.store.docs && IsTerminal(w.store.docs[id].status) && !Outstanding(w, id)
    ensures var w' := Apply(reg, w, e);
      id in w'.store.docs && w'.store.docs[id] == w.store.docs[id] && !Outstanding(w', id)
  {
    if e.Signals? {
      SignalKeepsFinished(reg, w, e.tag, e.sig, id);
    } else if e.Recover? {
      TurnKeepsFinished(reg, w, e, id);
    } else {
      EventEffect(reg, w, e);
      assert RecordTraced(w, id);
      if e.Look? { assert RecordTraced(w, e.id); }
    }
  }

  /** Once a job is over and its deliveries are gone, its record stays as it is, result included, through
      every sweep, listing, look and all that happens to other jobs, while listings are current and the
      record does not expire. */
  lemma {:induction false} FinishedJobsStay(reg: Registry, r: Rules, w: World, events: seq<Event>, id: Id)
    requires r.listingsCurrent && Traced(w) && Follows(reg, r, w, events) && Expire(id) !in events
    requires id in w.store.docs && IsTerminal(w.store.docs[id].status) && !Outstanding(w, id)
    ensures Run(reg, w, events).Some?
    ensures var w' := Run(reg, w, events).value;
      id in w'.store.docs && w'.store.docs[id] == w.store.docs[id] && !Outstanding(w', id)
    decreases events
  {
    if events != [] {
      assert events[0] in events;
      EventKeepsTraced(reg, w, events[0]);
      QuietEventKeepsFinished(reg, r, w, events[0], id);
      FinishedJobsStay(reg, r, Apply(reg, w, events[0]), events[1..], id);
    }
  }

  /** A turn on a listing the job has outlived is what can undo it: the result and the end are then those
      of the listing. */
  lemma StaleTurnForgetsTheResult(reg: Registry, w: World, sweep: nat, tag: nat, now: Time)
    requires Enabled(reg, w, Recover(sweep, tag, now)) && Traced(w)
    requires Next(w, sweep).value.status == STARTED || Next(w, sweep).value.status == PENDING
    ensures var j, docs := Next(w, sweep).value, Apply(reg, w, Recover(sweep, tag, now)).store.docs;
      && j.jobId in docs && docs[j.jobId].result == j.result && docs[j.jobId].attempts == j.attempts
      && docs[j.jobId].status in {PENDING, FAILURE}
  {
    NextIsTraced(w, sweep);
    EventEffect(reg, w, Recover(sweep, tag, now));
  }
}

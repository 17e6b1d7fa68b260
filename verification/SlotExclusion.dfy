/** One slot per scope: in every run that follows the rules, the lock-taking jobs of a scope never
    overlap, and the lock key exists exactly while one of them is active. */
module SlotExclusion {
  import opened Prelude
  import opened JobStates
  import opened JobPersistency
  import opened Agent
  import opened JobRecovery
  import opened ClientAgent
  import opened AgentProtocol
  import opened ProtocolEffects

  // ---------- the properties ----------

  /** At most one non-terminal lock-taking job per lock key. */
  ghost predicate AtMostOne(w: World) {
    forall a, b | Active(w, a) && Active(w, b) && KeyOf(w.store.docs[a]) == KeyOf(w.store.docs[b]) :: a == b
  }

  ghost predicate HasActive(w: World, key: string) {
    exists id <- w.store.docs :: Active(w, id) && KeyOf(w.store.docs[id]) == key
  }

  /** A lock key exists exactly while a lock-taking job of its scope is active. */
  ghost predicate LockIffActive(w: World) {
    forall key :: key in w.store.keys <==> HasActive(w, key)
  }

  // ---------- the invariants ----------

  ghost predicate OneDelivery(w: World) {
    forall t, u | t in w.mail && u in w.mail && w.mail[t].jobId == w.mail[u].jobId :: t == u
  }

  function MessageKey(m: Message): string {
    LockKey(m.name, m.kwargs.userUid)
  }

  /** Lock-taking records use gated keys and the others do not. */
  predicate RecordSeparated(gated: set<string>, w: World, id: Id) {
    id in w.store.docs ==> (w.store.docs[id].maxConcurrent > 0 <==> KeyOf(w.store.docs[id]) in gated)
  }

  /** A delivery for a gated key has its record. */
  predicate MessageSeparated(gated: set<string>, w: World, t: nat) {
    t in w.mail && MessageKey(w.mail[t]) in gated ==> w.mail[t].jobId in w.store.docs
  }

  ghost predicate Separated(gated: set<string>, w: World) {
    && (forall id :: RecordSeparated(gated, w, id))
    && (forall t :: MessageSeparated(gated, w, t))
  }

  ghost predicate HoldsItsLock(w: World, id: Id) {
    Busy(w, id) ==> KeyOf(w.store.docs[id]) in w.store.keys
  }

  ghost predicate NoRival(w: World, a: Id, b: Id) {
    Busy(w, a) && Busy(w, b) && KeyOf(w.store.docs[a]) == KeyOf(w.store.docs[b]) ==> a == b
  }

  ghost predicate Safe(gated: set<string>, w: World) {
    && Traced(w) && OneDelivery(w) && Separated(gated, w)
    && (forall id :: HoldsItsLock(w, id))
    && (forall a, b :: NoRival(w, a, b))
  }

  predicate DeliveryActive(w: World, t: nat) {
    t in w.mail && w.mail[t].jobId in w.store.docs && w.store.docs[w.mail[t].jobId].maxConcurrent > 0 ==>
      Active(w, w.mail[t].jobId)
  }

  /** With no zombie rewritten: a delivery of a lock-taking job means an active record, and every key
      is held. */
  ghost predicate Exact(gated: set<string>, w: World) {
    && (forall t :: DeliveryActive(w, t))
    && (forall key <- w.store.keys :: key in gated && HasActive(w, key))
  }

  /** All the rules but the one about zombies. */
  predicate Guarded(r: Rules) {
    r.scopesSeparate && r.publishSucceeds && r.failureAtomic && r.postrunDecides && r.noRedelivery
    && r.resumeAfterLoss && r.listingsCurrent && r.docsOutliveJobs && r.locksOutliveJobs
  }

  // ---------- each event keeps them ----------

  lemma MessageMatchesRecord(w: World, t: nat)
    requires Traced(w) && t in w.mail && w.mail[t].jobId in w.store.docs
    ensures MessageKey(w.mail[t]) == KeyOf(w.store.docs[w.mail[t].jobId])
  {
    assert MessageTraced(w, t) && RecordTraced(w, w.mail[t].jobId);
  }

  lemma EventKeepsOneDelivery(reg: Registry, r: Rules, w: World, e: Event)
    requires Enabled(reg, w, e) && Permits(r, w, e) && Guarded(r) && Traced(w) && OneDelivery(w)
    ensures OneDelivery(Apply(reg, w, e))
  {
    var w' := Apply(reg, w, e);
    forall t, u | t in w'.mail && u in w'.mail && w'.mail[t].jobId == w'.mail[u].jobId ensures t == u {
      assert MessageTraced(w, t) && MessageTraced(w, u);
      if e.Recover? {
        NextIsTraced(w, e.sweep);
        var id := Next(w, e.sweep).value.jobId;
        assert IsOrphan(Next(w, e.sweep).value) && t in w.mail ==> w.mail[t].jobId != id;
        assert IsOrphan(Next(w, e.sweep).value) && u in w.mail ==> w.mail[u].jobId != id;
      }
    }
  }

  lemma EventKeepsRecordSeparated(reg: Registry, r: Rules, w: World, e: Event, id: Id)
    requires Enabled(reg, w, e) && Permits(r, w, e) && Guarded(r) && Traced(w) && Separated(r.gated, w)
    ensures RecordSeparated(r.gated, Apply(reg, w, e), id)
  {
    EventEffect(reg, w, e);
    assert RecordSeparated(r.gated, w, id);
    match e {
      case Signals(tag, sig) =>
        assert MessageTraced(w, tag) && RecordTraced(w, w.mail[tag].jobId) && MessageSeparated(r.gated, w, tag);
      case Recover(sweep, _, _) =>
        NextIsTraced(w, sweep);
        assert RecordSeparated(r.gated, w, Next(w, sweep).value.jobId);
      case Look(other, _) =>
        assert RecordTraced(w, other);
      case _ =>
    }
  }

  lemma EventKeepsMessageSeparated(reg: Registry, r: Rules, w: World, e: Event, t: nat)
    requires Enabled(reg, w, e) && Permits(r, w, e) && Guarded(r) && Traced(w) && Separated(r.gated, w)
    ensures MessageSeparated(r.gated, Apply(reg, w, e), t)
  {
    EventEffect(reg, w, e);
    assert MessageSeparated(r.gated, w, t);
    if e.Expire? && t in w.mail && w.mail[t].jobId == e.id {
      MessageMatchesRecord(w, t);
      assert RecordSeparated(r.gated, w, e.id);
    }
  }

  lemma EventKeepsSeparated(reg: Registry, r: Rules, w: World, e: Event)
    requires Enabled(reg, w, e) && Permits(r, w, e) && Guarded(r) && Traced(w) && Separated(r.gated, w)
    ensures Separated(r.gated, Apply(reg, w, e))
  {
    forall id ensures RecordSeparated(r.gated, Apply(reg, w, e), id) { EventKeepsRecordSeparated(reg, r, w, e, id); }
    forall t ensures MessageSeparated(r.gated, Apply(reg, w, e), t) { EventKeepsMessageSeparated(reg, r, w, e, t); }
  }

  /** After a signal only jobs that were busy before are. */
  lemma BusyAfterSignal(reg: Registry, r: Rules, w: World, tag: nat, sig: Signal, id: Id)
    requires Enabled(reg, w, Signals(tag, sig)) && Safe(r.gated, w) && Busy(Apply(reg, w, Signals(tag, sig)), id)
    ensures Busy(w, id) && KeyOf(Apply(reg, w, Signals(tag, sig)).store.docs[id]) == KeyOf(w.store.docs[id])
  {
    EventEffect(reg, w, Signals(tag, sig));
    assert RecordTraced(w, id) && MessageTraced(w, tag) && RecordTraced(w, w.mail[tag].jobId);
  }

  /** A sweep makes no job busy that was not. */
  lemma BusyAfterRecover(reg: Registry, r: Rules, w: World, e: Event, id: Id)
    requires Enabled(reg, w, e) && Permits(r, w, e) && Guarded(r) && Safe(r.gated, w) && e.Recover?
    requires Busy(Apply(reg, w, e), id)
    ensures Busy(w, id) && KeyOf(Apply(reg, w, e).store.docs[id]) == KeyOf(w.store.docs[id])
  {
    EventEffect(reg, w, e);
    assert RecordTraced(w, id);
    NextIsTraced(w, e.sweep);
  }

  /** The only job an enqueue makes busy is the new one, whose key was free. */
  lemma BusyAfterEnqueue(reg: Registry, r: Rules, w: World, e: Event, id: Id)
    requires Enabled(reg, w, e) && Permits(r, w, e) && Guarded(r) && Safe(r.gated, w) && e.Enqueue?
    requires Busy(Apply(reg, w, e), id)
    ensures var key := KeyOf(Apply(reg, w, e).store.docs[id]);
      || (Busy(w, id) && key == KeyOf(w.store.docs[id]))
      || (id == e.id && id !in w.ledger && Taken(w, e) == {key} && key !in w.store.keys)
  {
    EventEffect(reg, w, e);
    assert RecordTraced(w, id) && RecordTraced(w, e.id);
  }

  lemma BusyAfterOther(reg: Registry, r: Rules, w: World, e: Event, id: Id)
    requires Enabled(reg, w, e) && Permits(r, w, e) && Guarded(r) && Safe(r.gated, w)
    requires !e.Signals? && !e.Recover? && !e.Enqueue? && Busy(Apply(reg, w, e), id)
    ensures Busy(w, id) && KeyOf(Apply(reg, w, e).store.docs[id]) == KeyOf(w.store.docs[id])
  {
    EventEffect(reg, w, e);
    assert RecordTraced(w, id);
    if e.Look? || e.BeatFires? { assert RecordTraced(w, e.id); }
  }

  /** Which lock-taking jobs are busy after an event: the new one, or ones that were busy before. */
  lemma BusyAfter(reg: Registry, r: Rules, w: World, e: Event, id: Id)
    requires Enabled(reg, w, e) && Permits(r, w, e) && Guarded(r) && Safe(r.gated, w)
    requires Busy(Apply(reg, w, e), id)
    ensures var key := KeyOf(Apply(reg, w, e).store.docs[id]);
      || (Busy(w, id) && KeyOf(w.store.docs[id]) in w.store.keys && key == KeyOf(w.store.docs[id]))
      || (e.Enqueue? && id == e.id && id !in w.ledger && Taken(w, e) == {key} && key !in w.store.keys)
  {
    assert HoldsItsLock(w, id);
    if e.Signals? {
      BusyAfterSignal(reg, r, w, e.tag, e.sig, id);
    } else if e.Recover? {
      BusyAfterRecover(reg, r, w, e, id);
    } else if e.Enqueue? {
      BusyAfterEnqueue(reg, r, w, e, id);
    } else {
      BusyAfterOther(reg, r, w, e, id);
    }
  }

  /** An event frees the key of no job that stays busy. */
  lemma FreedKeysAreFree(reg: Registry, r: Rules, w: World, e: Event, id: Id)
    requires Enabled(reg, w, e) && Permits(r, w, e) && Guarded(r) && Safe(r.gated, w)
    requires Busy(Apply(reg, w, e), id)
    ensures KeyOf(Apply(reg, w, e).store.docs[id]) !in Freed(reg, w, e)
  {
    EventEffect(reg, w, e);
    BusyAfter(reg, r, w, e, id);
    match e {
      case Signals(tag, sig) =>
        var other := w.mail[tag].jobId;
        assert MessageTraced(w, tag) && RecordTraced(w, other) && NoRival(w, other, id);
        assert RecordSeparated(r.gated, w, other) && RecordSeparated(r.gated, w, id);
      case Recover(sweep, _, _) =>
        NextIsTraced(w, sweep);
        var other := Next(w, sweep).value.jobId;
        assert RecordTraced(w, other) && NoRival(w, other, id);
        assert RecordSeparated(r.gated, w, other) && RecordSeparated(r.gated, w, id);
      case _ =>
    }
  }

  lemma EventKeepsSafe(reg: Registry, r: Rules, w: World, e: Event)
    requires Enabled(reg, w, e) && Permits(r, w, e) && Guarded(r) && Safe(r.gated, w)
    ensures Safe(r.gated, Apply(reg, w, e))
  {
    var w' := Apply(reg, w, e);
    EventKeepsTraced(reg, w, e);
    EventKeepsOneDelivery(reg, r, w, e);
    EventKeepsSeparated(reg, r, w, e);
    EventEffect(reg, w, e);
    forall id ensures HoldsItsLock(w', id) {
      if Busy(w', id) {
        BusyAfter(reg, r, w, e, id);
        FreedKeysAreFree(reg, r, w, e, id);
      }
    }
    forall a, b ensures NoRival(w', a, b) {
      if Busy(w', a) && Busy(w', b) {
        BusyAfter(reg, r, w, e, a);
        BusyAfter(reg, r, w, e, b);
        assert NoRival(w, a, b);
      }
    }
  }

  lemma SafeMeansAtMostOne(gated: set<string>, w: World)
    requires Safe(gated, w)
    ensures AtMostOne(w)
  {
    forall a, b | Active(w, a) && Active(w, b) && KeyOf(w.store.docs[a]) == KeyOf(w.store.docs[b]) ensures a == b {
      assert NoRival(w, a, b);
    }
  }

  lemma {:induction false} RunKeepsSafe(reg: Registry, r: Rules, w: World, events: seq<Event>)
    requires Guarded(r) && Safe(r.gated, w) && Follows(reg, r, w, events)
    ensures Run(reg, w, events).Some? && Safe(r.gated, Run(reg, w, events).value)
    decreases events
  {
    if events != [] {
      EventKeepsSafe(reg, r, w, events[0]);
      RunKeepsSafe(reg, r, Apply(reg, w, events[0]), events[1..]);
    }
  }

  lemma NothingIsSafe(gated: set<string>)
    ensures Safe(gated, NOTHING) && Exact(gated, NOTHING)
  {
    NothingIsTraced();
  }

  /** Slot exclusion, zombies or not: no scope ever has two active lock-taking jobs. */
  lemma SlotsExclude(reg: Registry, r: Rules, events: seq<Event>, w: World)
    requires Guarded(r) && Reaches(reg, r, events, w)
    ensures AtMostOne(w)
  {
    NothingIsSafe(r.gated);
    RunKeepsSafe(reg, r, NOTHING, events);
    SafeMeansAtMostOne(r.gated, w);
  }

  // ---------- the lock exists exactly while a job is active ----------

  lemma SignalKeepsDeliveryActive(reg: Registry, r: Rules, w: World, tag: nat, sig: Signal, t: nat)
    requires Enabled(reg, w, Signals(tag, sig)) && Permits(r, w, Signals(tag, sig)) && Guarded(r)
    requires Safe(r.gated, w) && Exact(r.gated, w)
    ensures DeliveryActive(Apply(reg, w, Signals(tag, sig)), t)
  {
    EventEffect(reg, w, Signals(tag, sig));
    assert MessageTraced(w, t) && DeliveryActive(w, t);
    assert MessageTraced(w, tag) && RecordTraced(w, w.mail[tag].jobId);
  }

  lemma RecoverKeepsDeliveryActive(reg: Registry, r: Rules, w: World, e: Event, t: nat)
    requires Enabled(reg, w, e) && Permits(r, w, e) && Guarded(r) && e.Recover?
    requires Safe(r.gated, w) && Exact(r.gated, w)
    ensures DeliveryActive(Apply(reg, w, e), t)
  {
    EventEffect(reg, w, e);
    assert MessageTraced(w, t) && DeliveryActive(w, t);
    NextIsTraced(w, e.sweep);
  }

  lemma EventKeepsDeliveryActive(reg: Registry, r: Rules, w: World, e: Event, t: nat)
    requires Enabled(reg, w, e) && Permits(r, w, e) && Guarded(r) && r.noZombies
    requires Safe(r.gated, w) && Exact(r.gated, w)
    ensures DeliveryActive(Apply(reg, w, e), t)
  {
    if e.Signals? {
      SignalKeepsDeliveryActive(reg, r, w, e.tag, e.sig, t);
    } else if e.Recover? {
      RecoverKeepsDeliveryActive(reg, r, w, e, t);
    } else {
      EventEffect(reg, w, e);
      assert MessageTraced(w, t) && DeliveryActive(w, t);
      if e.BeatFires? { assert RecordTraced(w, e.id); }
    }
  }

  lemma ActiveStaysAfterSignal(reg: Registry, r: Rules, w: World, tag: nat, sig: Signal, id: Id)
    requires Enabled(reg, w, Signals(tag, sig)) && Safe(r.gated, w)
    requires Active(w, id) && KeyOf(w.store.docs[id]) !in Freed(reg, w, Signals(tag, sig))
    ensures var w' := Apply(reg, w, Signals(tag, sig));
      Active(w', id) && KeyOf(w'.store.docs[id]) == KeyOf(w.store.docs[id])
  {
    EventEffect(reg, w, Signals(tag, sig));
    assert RecordTraced(w, id) && MessageTraced(w, tag) && RecordTraced(w, w.mail[tag].jobId);
  }

  /** The active job of a key stays active unless the event frees the key. */
  lemma ActiveStays(reg: Registry, r: Rules, w: World, e: Event, id: Id)
    requires Enabled(reg, w, e) && Permits(r, w, e) && Guarded(r) && r.noZombies && Safe(r.gated, w)
    requires Active(w, id) && KeyOf(w.store.docs[id]) !in Freed(reg, w, e)
    ensures Active(Apply(reg, w, e), id) && KeyOf(Apply(reg, w, e).store.docs[id]) == KeyOf(w.store.docs[id])
  {
    if e.Signals? {
      ActiveStaysAfterSignal(reg, r, w, e.tag, e.sig, id);
    } else {
      EventEffect(reg, w, e);
      assert RecordTraced(w, id);
      if e.Recover? { NextIsTraced(w, e.sweep); }
    }
  }

  lemma EventKeepsExact(reg: Registry, r: Rules, w: World, e: Event)
    requires Enabled(reg, w, e) && Permits(r, w, e) && Guarded(r) && r.noZombies
    requires Safe(r.gated, w) && Exact(r.gated, w)
    ensures Exact(r.gated, Apply(reg, w, e))
  {
    var w' := Apply(reg, w, e);
    EventEffect(reg, w, e);
    forall t ensures DeliveryActive(w', t) { EventKeepsDeliveryActive(reg, r, w, e, t); }
    forall key | key in w'.store.keys ensures key in r.gated && HasActive(w', key) {
      if key in w.store.keys {
        var id :| id in w.store.docs && Active(w, id) && KeyOf(w.store.docs[id]) == key;
        ActiveStays(reg, r, w, e, id);
      } else {
        assert Active(w', e.id);
      }
    }
  }

  lemma {:induction false} RunKeepsExact(reg: Registry, r: Rules, w: World, events: seq<Event>)
    requires Guarded(r) && r.noZombies && Safe(r.gated, w) && Exact(r.gated, w) && Follows(reg, r, w, events)
    ensures Run(reg, w, events).Some?
    ensures Safe(r.gated, Run(reg, w, events).value) && Exact(r.gated, Run(reg, w, events).value)
    decreases events
  {
    if events != [] {
      EventKeepsSafe(reg, r, w, events[0]);
      EventKeepsExact(reg, r, w, events[0]);
      RunKeepsExact(reg, r, Apply(reg, w, events[0]), events[1..]);
    }
  }

  /** When zombies are left alone too, a scope can be entered exactly when nobody is in it. */
  lemma LockExactness(reg: Registry, gated: set<string>, events: seq<Event>, w: World)
    requires Reaches(reg, AllRules(gated), events, w)
    ensures AtMostOne(w) && LockIffActive(w)
  {
    NothingIsSafe(gated);
    RunKeepsExact(reg, AllRules(gated), NOTHING, events);
    SafeMeansAtMostOne(gated, w);
    forall key ensures key in w.store.keys <==> HasActive(w, key) {
      if HasActive(w, key) {
        var id :| id in w.store.docs && Active(w, id) && KeyOf(w.store.docs[id]) == key;
        assert HoldsItsLock(w, id);
      }
    }
  }
}

/** The recovery sweep, said pointwise on the documents it found. */
module RecoveryExact {
  import opened Prelude
  import opened JobStates
  import opened Redis
  import opened JobPersistency
  import opened Agent
  import opened JobRecovery

  ghost predicate Distinct(states: seq<JobState>) {
    forall i, j | 0 <= i < j < |states| :: states[i].jobId != states[j].jobId
  }

  /** The states are the documents of different jobs. */
  ghost predicate ReadFrom(docs: map<Id, JobState>, states: seq<JobState>) {
    Distinct(states) && forall j <- states :: j.jobId in docs && docs[j.jobId] == j
  }

  function SweptDocs(docs: map<Id, JobState>, reg: Registry, states: seq<JobState>, now: Time): map<Id, JobState> {
    map id | id in docs :: if docs[id] in states then Verdict(reg, docs[id], now) else docs[id]
  }

  function ReleasedKeys(reg: Registry, states: seq<JobState>): set<string> {
    set j | j in states && IsOrphan(j) && !Eligible(reg, j) :: KeyOf(j)
  }

  lemma ReconcileOneEffect(s: Store, reg: Registry, j: JobState, now: Time)
    ensures var t := ReconcileOne(s, reg, j, now);
      && t.docs == (if IsOrphan(j) then s.docs[j.jobId := Verdict(reg, j, now)] else s.docs)
      && t.keys == s.keys - ReleasedKeys(reg, [j])
  {
    assert ReleasedKeys(reg, [j]) == if IsOrphan(j) && !Eligible(reg, j) then {KeyOf(j)} else {};
  }

  lemma ReleasedOneMore(reg: Registry, init: seq<JobState>, j: JobState)
    ensures ReleasedKeys(reg, init + [j]) == ReleasedKeys(reg, init) + ReleasedKeys(reg, [j])
  {
  }

  lemma {:induction false} SweepPointwise(s: Store, reg: Registry, states: seq<JobState>, now: Time)
    requires ReadFrom(s.docs, states)
    requires forall id <- s.docs :: s.docs[id].jobId == id
    ensures Sweep(s, reg, states, now).docs == SweptDocs(s.docs, reg, states, now)
    ensures Sweep(s, reg, states, now).keys == s.keys - ReleasedKeys(reg, states)
  {
    if states == [] {
      assert SweptDocs(s.docs, reg, [], now) == s.docs;
    } else {
      var init, j := states[..|states| - 1], states[|states| - 1];
      assert states == init + [j];
      SweepPointwise(s, reg, init, now);
      assert j in states && j !in init;
      SweptOneMore(s.docs, reg, init, j, now);
      ReleasedOneMore(reg, init, j);
      ReconcileOneEffect(Sweep(s, reg, init, now), reg, j, now);
    }
  }

  lemma SweptOneMore(docs: map<Id, JobState>, reg: Registry, init: seq<JobState>, j: JobState, now: Time)
    requires j.jobId in docs && docs[j.jobId] == j && j !in init
    requires forall id <- docs :: docs[id].jobId == id
    ensures SweptDocs(docs, reg, init + [j], now) ==
      if IsOrphan(j) then SweptDocs(docs, reg, init, now)[j.jobId := Verdict(reg, j, now)]
      else SweptDocs(docs, reg, init, now)
  {
  }

  lemma {:induction false} SweepKeepsConsistent(s: Store, own: map<Id, Ownership>, reg: Registry,
      states: seq<JobState>, now: Time)
    requires Consistent(s, own)
    requires forall j <- states :: j.jobId in own && own[j.jobId] == OwnerOf(j)
    ensures Consistent(Sweep(s, reg, states, now), own)
  {
    if states != [] {
      var init, j := states[..|states| - 1], states[|states| - 1];
      SweepKeepsConsistent(s, own, reg, init, now);
      var t := Sweep(s, reg, init, now);
      if IsOrphan(j) {
        SaveKeepsConsistent(t, Verdict(reg, j, now), own);
        KeysDoNotMatter(Saved(t, Verdict(reg, j, now)), ReconcileOne(t, reg, j, now), own);
      }
    }
  }

  lemma KeysDoNotMatter(s: Store, t: Store, own: map<Id, Ownership>)
    requires Consistent(s, own) && t.docs == s.docs && t.zsets == s.zsets
    ensures Consistent(t, own)
  {
    forall k, id ensures EntryExact(Zset(t, k), t.docs, own, k, id) {
      assert EntryExact(Zset(s, k), s.docs, own, k, id);
    }
  }

  // ---------- which states are resumed, which are given up ----------

  ghost predicate IsSelection(part: seq<JobState>, states: seq<JobState>, chosen: set<JobState>) {
    && Distinct(part)
    && (forall j <- part :: j in states)
    && (forall j :: j in part <==> j in chosen)
    && |part| == |chosen|
  }

  function ChosenSet(reg: Registry, states: seq<JobState>, eligible: bool): set<JobState> {
    set j | j in states && IsOrphan(j) && Eligible(reg, j) == eligible
  }

  lemma SelectionGrows(part: seq<JobState>, init: seq<JobState>, chosen: set<JobState>, j: JobState)
    requires IsSelection(part, init, chosen) && Distinct(init + [j])
    ensures IsSelection(part, init + [j], chosen)
    ensures IsSelection(part + [j], init + [j], chosen + {j})
  {
    var all := init + [j];
    forall i | 0 <= i < |part| ensures part[i].jobId != j.jobId {
      assert part[i] in part && part[i] in init;
      var k :| 0 <= k < |init| && init[k] == part[i];
      assert all[k] == part[i] && all[|init|] == j;
    }
    assert j !in chosen by { assert j in chosen ==> j in part; }
  }

  lemma {:induction false} SelectionIsExact(reg: Registry, states: seq<JobState>, eligible: bool)
    requires Distinct(states)
    ensures IsSelection(Chosen(reg, states, eligible), states, ChosenSet(reg, states, eligible))
  {
    if states != [] {
      var init, j := states[..|states| - 1], states[|states| - 1];
      assert states == init + [j];
      SelectionIsExact(reg, init, eligible);
      var part, chosen := Chosen(reg, init, eligible), ChosenSet(reg, init, eligible);
      SelectionGrows(part, init, chosen, j);
      if IsOrphan(j) && Eligible(reg, j) == eligible {
        assert ChosenSet(reg, states, eligible) == chosen + {j};
      } else {
        assert ChosenSet(reg, states, eligible) == chosen;
        assert part + [] == part;
      }
    }
  }

  // ---------- the listing shows every non-terminal job ----------

  lemma ShortIndexIsListedWhole(s: Store, own: map<Id, Ownership>, k: ZKey, limit: nat)
    requires Consistent(s, own) && |Zset(s, k)| <= limit
    ensures Listing(s, k, limit) == Newest(s.docs, k, 0)
  {
    var z := Zset(s, k);
    LiveSplit(z, s.docs, |z|);
    assert Ranking(z)[..|z|] == Ranking(z) && Ranking(z)[|z|..] == [];
    ConsistentLivePart(s, own, k);
    assert RevRange(z, limit) == Ranking(z) by { assert Span(limit, |z|) == |z|; }
    var m := Matching(s.docs, k);
    RankingMembers(m);
    assert Live(s.docs, Ranking(z)) == Ranking(m);
    assert RevRange(m, 0) == Ranking(m);
  }

  lemma WholeListing(docs: map<Id, JobState>, k: ZKey)
    requires forall id <- docs :: docs[id].jobId == id
    ensures ReadFrom(docs, Newest(docs, k, 0))
    ensures forall id <- docs :: docs[id] in Newest(docs, k, 0) <==> Belongs(docs[id], k)
  {
    var r, m := Newest(docs, k, 0), Matching(docs, k);
    RankingMembers(m);
    assert r == Documents(docs, Ranking(m));
    forall i, j | 0 <= i < j < |r| ensures r[i].jobId != r[j].jobId { NewestIsOrdered(docs, k, 0, i, j); }
    forall j | j in r ensures j.jobId in docs && docs[j.jobId] == j && Belongs(j, k) {
      var i :| 0 <= i < |r| && r[i] == j;
      NewestAt(docs, k, 0, i);
    }
    forall id | id in docs && Belongs(docs[id], k) ensures docs[id] in r {
      assert id in m && id in Ranking(m);
      var i :| 0 <= i < |Ranking(m)| && Ranking(m)[i] == id;
      assert r[i] == docs[id];
    }
  }

  // ---------- the theorem ----------

  /** The outcome `ReconcileOrphans` guarantees when it gets the lock. */
  function Listed(s: Store): seq<JobState> {
    Listing(Locked(s), PendingJobs, SWEEP_LIMIT)
  }

  function AfterSweep(s: Store, reg: Registry, now: Time): Store {
    Sweep(AfterListing(Locked(s), PendingJobs, SWEEP_LIMIT), reg, Listed(s), now)
  }

  function Orphans(docs: map<Id, JobState>): set<JobState> {
    set id | id in docs && IsOrphan(docs[id]) :: docs[id]
  }

  function KeysGivenUp(docs: map<Id, JobState>, reg: Registry): set<string> {
    set j | j in Orphans(docs) && !Eligible(reg, j) :: KeyOf(j)
  }

  /** Every job the sweep can see: it reads exactly the non-terminal documents, once each. */
  lemma ListedIsWhole(s: Store, own: map<Id, Ownership>)
    requires Consistent(s, own) && |Zset(s, PendingJobs)| <= SWEEP_LIMIT
    ensures ReadFrom(s.docs, Listed(s))
    ensures forall id <- s.docs :: s.docs[id] in Listed(s) <==> !IsTerminal(s.docs[id].status)
  {
    KeysDoNotMatter(s, Locked(s), own);
    ShortIndexIsListedWhole(Locked(s), own, PendingJobs, SWEEP_LIMIT);
    WholeListing(s.docs, PendingJobs);
  }

  lemma SweepStart(s: Store, own: map<Id, Ownership>)
    requires Consistent(s, own)
    ensures var t := AfterListing(Locked(s), PendingJobs, SWEEP_LIMIT);
      Consistent(t, own) && t.docs == s.docs && t.keys == s.keys + {RECOVERY_LOCK}
  {
    KeysDoNotMatter(s, Locked(s), own);
    StepKeepsConsistent(Locked(s), ListOp(PendingJobs, SWEEP_LIMIT), own);
  }

  /** Every STARTED or PENDING document gets its verdict, all other documents stay as they are, and none
      comes or goes. */
  lemma SweepDecidesEveryOrphan(s: Store, own: map<Id, Ownership>, reg: Registry, now: Time, id: Id)
    requires Consistent(s, own) && |Zset(s, PendingJobs)| <= SWEEP_LIMIT
    ensures var docs := AfterSweep(s, reg, now).docs;
      && (id in docs <==> id in s.docs)
      && (id in s.docs ==> docs[id] == Verdict(reg, s.docs[id], now))
  {
    var t := AfterListing(Locked(s), PendingJobs, SWEEP_LIMIT);
    ListedIsWhole(s, own);
    SweepStart(s, own);
    SweepPointwise(t, reg, Listed(s), now);
  }

  /** The sweep adds its own lock and removes exactly the keys of the jobs given up. */
  lemma SweepReleasesExactly(s: Store, own: map<Id, Ownership>, reg: Registry, now: Time)
    requires Consistent(s, own) && |Zset(s, PendingJobs)| <= SWEEP_LIMIT
    ensures AfterSweep(s, reg, now).keys == s.keys + {RECOVERY_LOCK} - KeysGivenUp(s.docs, reg)
  {
    var t := AfterListing(Locked(s), PendingJobs, SWEEP_LIMIT);
    var states := Listed(s);
    ListedIsWhole(s, own);
    SweepStart(s, own);
    SweepPointwise(t, reg, states, now);
    assert ReleasedKeys(reg, states) == KeysGivenUp(s.docs, reg);
  }

  /** The three indexes are exact again once the sweep is over: jobs given up left the pending one. */
  lemma SweepLeavesIndexesExact(s: Store, own: map<Id, Ownership>, reg: Registry, now: Time)
    requires Consistent(s, own) && |Zset(s, PendingJobs)| <= SWEEP_LIMIT
    ensures Consistent(AfterSweep(s, reg, now), own)
  {
    ListedIsWhole(s, own);
    SweepStart(s, own);
    SweepKeepsConsistent(AfterListing(Locked(s), PendingJobs, SWEEP_LIMIT), own, reg, Listed(s), now);
  }

  /** What a verdict means for one job. */
  lemma VerdictMeaning(reg: Registry, j: JobState, now: Time)
    ensures var v := Verdict(reg, j, now);
      && (!IsOrphan(j) ==> v == j)
      && (IsOrphan(j) ==> v.status == (if Eligible(reg, j) then PENDING else FAILURE))
      && v.attempts == j.attempts && v.maxTry == j.maxTry && v.payload == j.payload
      && v.jobId == j.jobId && v.name == j.name && OwnerOf(v) == OwnerOf(j) && v.datePlanned == j.datePlanned
      && (IsOrphan(j) && Eligible(reg, j) ==> v.dateStart.None? && v.dateEnd.None? && v.duration.None?)
      && (IsOrphan(j) && !Eligible(reg, j) ==> v.dateEnd == Some(now) && v.error.Some?)
  {
  }

  lemma OrphansSplit(docs: map<Id, JobState>, reg: Registry, states: seq<JobState>)
    requires ReadFrom(docs, states)
    requires forall id <- docs :: docs[id] in states <==> !IsTerminal(docs[id].status)
    ensures |ChosenSet(reg, states, true)| + |ChosenSet(reg, states, false)| == |Orphans(docs)|
  {
    var yes, no := ChosenSet(reg, states, true), ChosenSet(reg, states, false);
    assert yes + no == Orphans(docs);
    assert yes * no == {};
  }

  /** Each orphan is counted once, as resumed or as failed. */
  lemma SweepCounts(s: Store, own: map<Id, Ownership>, reg: Registry)
    requires Consistent(s, own) && |Zset(s, PendingJobs)| <= SWEEP_LIMIT
    ensures |ToResume(reg, Listed(s))| + |ToFail(reg, Listed(s))| == |Orphans(s.docs)|
  {
    ListedIsWhole(s, own);
    OrphansSplit(s.docs, reg, Listed(s));
    SelectionIsExact(reg, Listed(s), true);
    SelectionIsExact(reg, Listed(s), false);
  }

  /** A job is published exactly when it is an eligible orphan, under its own id, and only once. */
  lemma SweepPublishesOnce(s: Store, own: map<Id, Ownership>, reg: Registry, pubs: seq<Publication>)
    requires Consistent(s, own) && |Zset(s, PendingJobs)| <= SWEEP_LIMIT
    requires pubs == Publications(ToResume(reg, Listed(s)))
    ensures forall id :: (exists p <- pubs :: p.jobId == id) <==>
      id in s.docs && IsOrphan(s.docs[id]) && Eligible(reg, s.docs[id])
    ensures forall p <- pubs ::
      && p.jobId in s.docs && p.name == s.docs[p.jobId].name && p.payload == s.docs[p.jobId].payload
      && p.userUid == s.docs[p.jobId].userUid && p.eta.None?
    ensures forall i, j | 0 <= i < j < |pubs| :: pubs[i].jobId != pubs[j].jobId
  {
    var states := Listed(s);
    var resumed := ToResume(reg, states);
    ListedIsWhole(s, own);
    SelectionIsExact(reg, states, true);
    forall p | p in pubs
      ensures p.jobId in s.docs && p == PublicationOf(s.docs[p.jobId])
      ensures IsOrphan(s.docs[p.jobId]) && Eligible(reg, s.docs[p.jobId])
    {
      var i :| 0 <= i < |pubs| && pubs[i] == p;
      assert resumed[i] in resumed && resumed[i] in ChosenSet(reg, states, true);
    }
    forall id | id in s.docs && IsOrphan(s.docs[id]) && Eligible(reg, s.docs[id])
      ensures exists p <- pubs :: p.jobId == id
    {
      assert s.docs[id] in ChosenSet(reg, states, true) && s.docs[id] in resumed;
      var i :| 0 <= i < |resumed| && resumed[i] == s.docs[id];
      assert pubs[i] in pubs && pubs[i].jobId == id;
    }
  }

  /** The policy, said in the handler's own terms. A STARTED or PENDING job is published again, once and at
      once, and left PENDING, exactly when its name is registered as resumable and it has attempts left;
      any other such job ends FAILURE, unpublished, with its key deleted. Jobs in any other status are left
      alone. */
  lemma SweepFollowsThePolicy(s: Store, own: map<Id, Ownership>, reg: Registry, now: Time, id: Id,
      pubs: seq<Publication>)
    requires Consistent(s, own) && |Zset(s, PendingJobs)| <= SWEEP_LIMIT && id in s.docs
    requires pubs == Publications(ToResume(reg, Listed(s)))
    ensures var j, t := s.docs[id], AfterSweep(s, reg, now);
      var orphan := j.status == STARTED || j.status == PENDING;
      var resumable := j.name in reg && reg[j.name].resume && j.attempts < j.maxTry;
      && id in t.docs
      && ((exists p <- pubs :: p.jobId == id) <==> orphan && resumable)
      && (orphan && resumable ==>
            t.docs[id] == j.(status := PENDING, dateStart := None, dateEnd := None, duration := None))
      && (orphan && !resumable ==>
            && t.docs[id] == j.(status := FAILURE, dateEnd := Some(now), duration := t.docs[id].duration,
                                error := t.docs[id].error)
            && t.docs[id].duration == (if j.dateStart.Some? then Some(now - j.dateStart.value) else j.duration)
            && t.docs[id].error ==
                 Some(Interrupted(if j.name in reg then Some(reg[j.name].resume) else None, j.attempts, j.maxTry))
            && LockKey(j.name, j.userUid) !in t.keys && id !in Zset(t, PendingJobs))
      && (!orphan ==> t.docs[id] == j)
  {
    SweepDecidesEveryOrphan(s, own, reg, now, id);
    SweepPublishesOnce(s, own, reg, pubs);
    SweepReleasesExactly(s, own, reg, now);
    SweepLeavesIndexesExact(s, own, reg, now);
    var t := AfterSweep(s, reg, now);
    assert EntryExact(Zset(t, PendingJobs), t.docs, own, PendingJobs, id);
    var j := s.docs[id];
    if IsOrphan(j) && !Eligible(reg, j) { assert j in Orphans(s.docs) && KeyOf(j) in KeysGivenUp(s.docs, reg); }
  }

  predicate NewestFirst(states: seq<JobState>) {
    forall i, j | 0 <= i < j < |states| :: states[i].datePlanned >= states[j].datePlanned
  }

  lemma {:induction false} ChoosingKeepsOrder(reg: Registry, states: seq<JobState>, eligible: bool)
    requires NewestFirst(states)
    ensures NewestFirst(Chosen(reg, states, eligible))
    ensures forall j <- Chosen(reg, states, eligible) :: j in states
  {
    if states != [] {
      var init, last := states[..|states| - 1], states[|states| - 1];
      assert states == init + [last];
      ChoosingKeepsOrder(reg, init, eligible);
      forall j | j in Chosen(reg, init, eligible) ensures j.datePlanned >= last.datePlanned {
        var i :| 0 <= i < |init| && init[i] == j;
        assert states[i] == j && states[|states| - 1] == last;
      }
    }
  }

  /** The sweep takes its jobs, and publishes them, newest planned first. */
  lemma SweepGoesNewestFirst(s: Store, own: map<Id, Ownership>, reg: Registry)
    requires Consistent(s, own) && |Zset(s, PendingJobs)| <= SWEEP_LIMIT
    ensures NewestFirst(Listed(s)) && NewestFirst(ToResume(reg, Listed(s)))
  {
    KeysDoNotMatter(s, Locked(s), own);
    ShortIndexIsListedWhole(Locked(s), own, PendingJobs, SWEEP_LIMIT);
    var states := Listed(s);
    forall i, j | 0 <= i < j < |states| ensures states[i].datePlanned >= states[j].datePlanned {
      NewestIsOrdered(s.docs, PendingJobs, 0, i, j);
    }
    ChoosingKeepsOrder(reg, states, true);
  }

  // ---------- sweep after sweep ----------

  function Ids(states: seq<JobState>): set<Id> {
    set j | j in states :: j.jobId
  }

  lemma {:induction false} SweepAddsNoOthers(s: Store, reg: Registry, states: seq<JobState>, now: Time)
    ensures Zset(Sweep(s, reg, states, now), PendingJobs).Keys <= Zset(s, PendingJobs).Keys + Ids(states)
  {
    if states != [] {
      var init, j := states[..|states| - 1], states[|states| - 1];
      assert states == init + [j];
      SweepAddsNoOthers(s, reg, init, now);
      var t := Sweep(s, reg, init, now);
      SavedZset(t, Verdict(reg, j, now), PendingJobs);
      assert Ids(init) + {j.jobId} == Ids(states);
    }
  }

  lemma SubsetIsNoLarger<T>(a: set<T>, b: set<T>)
    requires a <= b
    ensures |a| <= |b|
  {
    assert b == a + (b - a);
  }

  /** A sweep never makes the pending index larger, so the next one still reads all of it. */
  lemma PendingDoesNotGrow(s: Store, own: map<Id, Ownership>, reg: Registry, now: Time)
    requires Consistent(s, own) && |Zset(s, PendingJobs)| <= SWEEP_LIMIT
    ensures |Zset(AfterSweep(s, reg, now), PendingJobs)| <= |Zset(s, PendingJobs)|
  {
    var t := AfterListing(Locked(s), PendingJobs, SWEEP_LIMIT);
    ListedIsWhole(s, own);
    SweepAddsNoOthers(t, reg, Listed(s), now);
    AfterListingZset(Locked(s), PendingJobs, SWEEP_LIMIT, PendingJobs);
    var before, after := Zset(s, PendingJobs).Keys, Zset(AfterSweep(s, reg, now), PendingJobs).Keys;
    forall id | id in Ids(Listed(s)) ensures id in before {
      assert EntryExact(Zset(s, PendingJobs), s.docs, own, PendingJobs, id);
    }
    SubsetIsNoLarger(after, before);
  }

  /** The sweep lock lapses before the next sweep. */
  function Unlocked(s: Store): Store {
    s.(keys := s.keys - {RECOVERY_LOCK})
  }

  function AfterSweeps(s: Store, reg: Registry, nows: seq<Time>): Store
    decreases nows
  {
    if nows == [] then s else AfterSweeps(AfterSweep(Unlocked(s), reg, nows[0]), reg, nows[1..])
  }

  /** Every one of the sweeps publishes the job. */
  ghost predicate ResumedByEach(s: Store, reg: Registry, nows: seq<Time>, id: Id)
    decreases nows
  {
    nows == [] ||
    (&& id in s.docs
     && PublicationOf(s.docs[id]) in Publications(ToResume(reg, Listed(Unlocked(s))))
     && ResumedByEach(AfterSweep(Unlocked(s), reg, nows[0]), reg, nows[1..], id))
  }

  lemma ResumedOnce(s: Store, own: map<Id, Ownership>, reg: Registry, now: Time, id: Id)
    requires Consistent(s, own) && |Zset(s, PendingJobs)| <= SWEEP_LIMIT
    requires id in s.docs && IsOrphan(s.docs[id]) && Eligible(reg, s.docs[id])
    ensures PublicationOf(s.docs[id]) in Publications(ToResume(reg, Listed(s)))
    ensures var t := AfterSweep(s, reg, now);
      && Consistent(t, own) && |Zset(t, PendingJobs)| <= SWEEP_LIMIT
      && id in t.docs && t.docs[id] == Resumed(s.docs[id])
  {
    SweepDecidesEveryOrphan(s, own, reg, now, id);
    SweepLeavesIndexesExact(s, own, reg, now);
    PendingDoesNotGrow(s, own, reg, now);
    var pubs := Publications(ToResume(reg, Listed(s)));
    SweepPublishesOnce(s, own, reg, pubs);
    assert s.docs[id].jobId == id;
    var p :| p in pubs && p.jobId == id;
  }

  /** An eligible orphan that never starts is published by every sweep, however many follow each other,
      and no sweep counts an attempt: it is never given up. */
  lemma {:induction false} NeverStartedAlwaysResumed(s: Store, own: map<Id, Ownership>, reg: Registry, nows: seq<Time>,
      id: Id)
    requires Consistent(s, own) && |Zset(s, PendingJobs)| <= SWEEP_LIMIT
    requires id in s.docs && IsOrphan(s.docs[id]) && Eligible(reg, s.docs[id])
    ensures ResumedByEach(s, reg, nows, id)
    ensures var t := AfterSweeps(s, reg, nows);
      && id in t.docs && IsOrphan(t.docs[id]) && Eligible(reg, t.docs[id])
      && t.docs[id].attempts == s.docs[id].attempts
    decreases nows
  {
    if nows != [] {
      KeysDoNotMatter(s, Unlocked(s), own);
      ResumedOnce(Unlocked(s), own, reg, nows[0], id);
      NeverStartedAlwaysResumed(AfterSweep(Unlocked(s), reg, nows[0]), own, reg, nows[1..], id);
    }
  }

  // ---------- the deletion without a max_concurrent check ----------

  /** A resumed job keeps its lock unless some job given up in the same sweep has the same key. */
  lemma ResumedJobKeepsItsLock(s: Store, own: map<Id, Ownership>, reg: Registry, now: Time, id: Id)
    requires Consistent(s, own) && |Zset(s, PendingJobs)| <= SWEEP_LIMIT
    requires id in s.docs && KeyOf(s.docs[id]) in s.keys
    ensures KeyOf(s.docs[id]) in AfterSweep(s, reg, now).keys <==>
      !exists j <- Orphans(s.docs) :: !Eligible(reg, j) && KeyOf(j) == KeyOf(s.docs[id])
  {
    SweepReleasesExactly(s, own, reg, now);
  }
}

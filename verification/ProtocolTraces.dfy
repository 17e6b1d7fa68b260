/** Each rule of the protocol is needed: without it, a concrete run puts two active jobs in one scope,
    or leaves a lock behind. */
module ProtocolTraces {
  import opened Prelude
  import opened JobStates
  import opened Redis
  import opened JobPersistency
  import opened Agent
  import opened JobRecovery
  import opened ClientAgent
  import opened AgentProtocol
  import opened ProtocolEffects
  import opened SlotExclusion
  import opened Attempts

  const JOB := "export"
  const BOB: Option<string> := Some("bob")
  const REG: Registry := map[JOB := Handler(1, true)]
  const ONE := Request(JOB, EMPTY_PAYLOAD, 1, 300, 1)
  const FREE := Request(JOB, EMPTY_PAYLOAD, 1, 300, 0)
  const KEY := LockKey(JOB, BOB)
  const RULES := AllRules({KEY})
  const A: Id := "a"
  const B: Id := "b"
  const C: Id := "c"

  lemma IdsDiffer()
    ensures A != B && A != C && B != C && A != "" && B != "" && C != ""
  {
    assert A[0] == 'a' && B[0] == 'b' && C[0] == 'c';
  }

  ghost predicate Breaks(r: Rules) {
    exists events, w :: Reaches(REG, r, events, w) && !AtMostOne(w)
  }

  ghost predicate Strands(r: Rules) {
    exists events, w :: Reaches(REG, r, events, w) && AtMostOne(w) && !LockIffActive(w)
  }

  lemma {:induction false} Append(reg: Registry, r: Rules, w0: World, events: seq<Event>, w: World, e: Event)
    requires Follows(reg, r, w0, events) && Run(reg, w0, events) == Some(w)
    requires Enabled(reg, w, e) && Permits(r, w, e)
    ensures Follows(reg, r, w0, events + [e]) && Run(reg, w0, events + [e]) == Some(Apply(reg, w, e))
    decreases events
  {
    if events == [] {
      assert [] + [e] == [e];
      assert [e][1..] == [];
    } else {
      Append(reg, r, Apply(reg, w0, events[0]), events[1..], w, e);
      assert (events + [e])[1..] == events[1..] + [e];
    }
  }

  ghost predicate NoSweep(events: seq<Event>) {
    forall e <- events :: !e.Recover?
  }

  /** One more step of a run that follows the rules. */
  lemma Then(r: Rules, events: seq<Event>, w: World, e: Event) returns (events': seq<Event>, w': World)
    requires Reaches(REG, r, events, w) && Traced(w) && Enabled(REG, w, e) && Permits(r, w, e)
    ensures w' == Apply(REG, w, e) && Reaches(REG, r, events', w') && Traced(w')
    ensures NoSweep(events) && !e.Recover? ==> NoSweep(events')
    ensures w'.store.docs == DocsAfter(REG, w, e)
    ensures w'.store.keys == w.store.keys + Taken(w, e) - Freed(REG, w, e)
    ensures !e.ListOrphans? && !e.Recover? ==> w'.sweeps == w.sweeps
  {
    Append(REG, r, NOTHING, events, w, e);
    EventKeepsTraced(REG, w, e);
    EventEffect(REG, w, e);
    events', w' := events + [e], Apply(REG, w, e);
  }

  lemma Start(r: Rules) returns (events: seq<Event>, w: World)
    ensures events == [] && w == NOTHING && Reaches(REG, r, events, w) && Traced(w)
  {
    NothingIsTraced();
    events, w := [], NOTHING;
  }

  // ---------- the steps the traces use, with the few facts they need ----------

  predicate Rec(w: World, id: Id, status: JobStatus, gate: int) {
    && id in w.store.docs && w.store.docs[id].status == status && w.store.docs[id].maxConcurrent == gate
    && w.store.docs[id].name == JOB && w.store.docs[id].userUid == BOB && w.store.docs[id].attempts >= 0
    && w.store.docs[id].maxTry <= 1
  }

  predicate Mail(w: World, tag: nat, id: Id, phase: Phase) {
    && tag in w.mail && w.mail[tag].jobId == id && w.mail[tag].phase == phase
    && w.mail[tag].left == (if phase == Queued then 1 else 0)
    && w.mail[tag].name == JOB && w.mail[tag].kwargs.userUid == BOB
  }

  ghost predicate OthersKept(w: World, w': World, id: Id, tag: nat) {
    && (forall other | other != id :: (other in w'.store.docs <==> other in w.store.docs)
          && (other in w.store.docs ==> w'.store.docs[other] == w.store.docs[other]))
    && (forall t: nat | t != tag :: (t in w'.mail <==> t in w.mail) && (t in w.mail ==> w'.mail[t] == w.mail[t]))
  }

  lemma Enters(r: Rules, es: seq<Event>, w: World, req: Request, id: Id, tag: nat) returns (es': seq<Event>, w': World)
    requires Reaches(REG, r, es, w) && Traced(w) && id != "" && id !in w.ledger && tag !in w.mail
    requires r.gated == {KEY} && ((req == ONE && KEY !in w.store.keys) || (req == FREE && !r.scopesSeparate))
    ensures NoSweep(es) ==> NoSweep(es')
    ensures Reaches(REG, r, es', w') && Traced(w') && OthersKept(w, w', id, tag)
    ensures Rec(w', id, PENDING, req.maxConcurrent) && w'.store.docs[id].attempts == 0
    ensures w'.sweeps == w.sweeps && w'.store.docs[id].datePlanned == 0
    ensures w'.store.docs[id].maxTry == 1 && Mail(w', tag, id, Queued)
    ensures w'.store.keys == w.store.keys + (if req == ONE then {KEY} else {})
    ensures w'.ledger.Keys == w.ledger.Keys + {id}
  {
    es', w' := Then(r, es, w, Enqueue(req, id, BOB, tag, 0, NoFault));
    assert RunsPerPublication(REG, JOB) == 1;
  }

  /** A signal for a job that has its record. */
  lemma Reports(r: Rules, es: seq<Event>, w: World, tag: nat, sig: Signal, id: Id, gate: int)
    returns (es': seq<Event>, w': World)
    requires Reaches(REG, r, es, w) && Traced(w) && tag in w.mail && w.mail[tag].jobId == id
    requires id in w.store.docs && Rec(w, id, w.store.docs[id].status, gate)
    requires Enabled(REG, w, Signals(tag, sig)) && Permits(r, w, Signals(tag, sig))
    requires sig.Begins? ==> Mail(w, tag, id, Queued)
    ensures w'.ledger == w.ledger && (NoSweep(es) ==> NoSweep(es'))
    ensures Reaches(REG, r, es', w') && Traced(w') && OthersKept(w, w', id, tag)
    ensures Rec(w', id, Rewritten(w.store.docs[id], sig).status, gate)
    ensures w'.store.docs[id].attempts == w.store.docs[id].attempts + if sig.Begins? then 1 else 0
    ensures w'.store.docs[id].maxTry == w.store.docs[id].maxTry
    ensures w'.sweeps == w.sweeps && w'.store.docs[id].datePlanned == w.store.docs[id].datePlanned
    ensures w'.store.keys == w.store.keys - (if Releases(sig) && gate > 0 then {KEY} else {})
    ensures sig.Begins? ==> Mail(w', tag, id, Running)
    ensures sig.FailureOnly? ==> tag in w'.mail && w'.mail[tag].jobId == id && w'.mail[tag].phase == Closing
    ensures !sig.Begins? && !sig.FailureOnly? && !sig.AsksRetry? ==> tag !in w'.mail
  {
    es', w' := Then(r, es, w, Signals(tag, sig));
    assert RecordTraced(w, id);
  }

  /** Any event that is neither an enqueue, a schedule nor a signal for a recorded job. */
  lemma Other(r: Rules, es: seq<Event>, w: World, e: Event) returns (es': seq<Event>, w': World)
    requires Reaches(REG, r, es, w) && Traced(w) && Enabled(REG, w, e) && Permits(r, w, e)
    requires !e.Enqueue? && !e.BeatFires? && !e.Signals?
    ensures w' == Apply(REG, w, e) && Reaches(REG, r, es', w') && Traced(w')
    ensures NoSweep(es) && !e.Recover? ==> NoSweep(es')
    ensures w'.ledger.Keys == w.ledger.Keys
    ensures w'.store.docs == DocsAfter(REG, w, e)
    ensures w'.store.keys == w.store.keys - Freed(REG, w, e)
  {
    es', w' := Then(r, es, w, e);
  }

  ghost predicate Path(r: Rules, es: seq<Event>, w: World) {
    r.gated == {KEY} && Reaches(REG, r, es, w) && Traced(w)
  }

  // ---------- what a sweep lists first ----------

  lemma TopIsListedFirst(s: Store, a: Id)
    requires IsTop(Zset(s, PendingJobs), a) && a in s.docs
    ensures Listing(s, PendingJobs, SWEEP_LIMIT) != [] && Listing(s, PendingJobs, SWEEP_LIMIT)[0] == s.docs[a]
  {
    var z := Zset(s, PendingJobs);
    TopUnique(z, Top(z), a);
    RankingMembers(z);
    var ids := RevRange(z, SWEEP_LIMIT);
    assert Ranking(z)[0] == a && |ids| >= 1 && ids[0] == a;
    assert Live(s.docs, ids) == [a] + Live(s.docs, ids[1..]);
  }

  /** Every published job has its record, and no other open one is planned later. */
  predicate Latest(w: World, a: Id) {
    && a in w.store.docs && !IsTerminal(w.store.docs[a].status)
    && forall x <- w.ledger :: x == a || (x in w.store.docs && (
         || IsTerminal(w.store.docs[x].status)
         || w.store.docs[x].datePlanned < w.store.docs[a].datePlanned
         || (w.store.docs[x].datePlanned == w.store.docs[a].datePlanned && LexLeq(x, a))))
  }

  lemma LatestIsTop(r: Rules, es: seq<Event>, w: World, a: Id)
    requires Reaches(REG, r, es, w) && Latest(w, a)
    ensures IsTop(Zset(w.store, PendingJobs), a)
  {
    NothingIsTraced();
    EveryRunKeepsIndexesExact(REG, NOTHING, es);
    var z := Zset(w.store, PendingJobs);
    assert EntryExact(z, w.store.docs, Owners(w), PendingJobs, a);
    LexTotal(a, a);
    forall x <- z ensures Above(z, a, x) {
      assert EntryExact(z, w.store.docs, Owners(w), PendingJobs, x);
    }
  }

  /** A sweep lists its orphans, the latest first. */
  lemma Lists(r: Rules, es: seq<Event>, w: World, a: Id) returns (es': seq<Event>, w': World)
    requires Path(r, es, w) && w.sweeps == map[] && Latest(w, a)
    ensures Path(r, es', w') && Next(w', 0) == Some(w.store.docs[a])
    ensures w'.store.docs == w.store.docs && w'.store.keys == w.store.keys
    ensures w'.mail == w.mail && w'.ledger == w.ledger
  {
    LatestIsTop(r, es, w, a);
    TopIsListedFirst(w.store, a);
    es', w' := Then(r, es, w, ListOrphans(0));
  }

  lemma TwoActive(w: World, a: Id, b: Id)
    requires a != b && Active(w, a) && Active(w, b) && KeyOf(w.store.docs[a]) == KeyOf(w.store.docs[b])
    ensures !AtMostOne(w)
  {
  }

  /** A is running and holds the lock. */
  lemma RunA(r: Rules) returns (es: seq<Event>, w: World)
    requires r.gated == {KEY}
    ensures Path(r, es, w) && NoSweep(es)
    ensures Rec(w, A, STARTED, 1) && Mail(w, 0, A, Running) && w.store.docs[A].attempts == 1
    ensures w.store.docs.Keys == {A} && w.mail.Keys == {0} && w.store.keys == {KEY} && w.ledger.Keys == {A}
    ensures w.sweeps == map[] && w.store.docs[A].datePlanned == 0
  {
    IdsDiffer();
    es, w := Start(r);
    es, w := Enters(r, es, w, ONE, A, 0);
    es, w := Reports(r, es, w, 0, Begins(1), A, 1);
  }

  /** One active job without its lock is enough: the next one gets in. */
  lemma LetIn(r: Rules, es: seq<Event>, w: World, a: Id, b: Id, tag: nat)
    requires Path(r, es, w) && Active(w, a) && KeyOf(w.store.docs[a]) == KEY && KEY !in w.store.keys
    requires b != "" && b !in w.ledger && tag !in w.mail && a != b
    ensures Breaks(r)
  {
    var es', w' := Enters(r, es, w, ONE, b, tag);
    TwoActive(w', a, b);
  }

  /** Two deliveries of A, one running: it finishes, B enters, and A runs again. */
  lemma SecondRun(r: Rules, es: seq<Event>, w: World)
    requires Path(r, es, w) && A in w.store.docs && Rec(w, A, w.store.docs[A].status, 1)
    requires Mail(w, 0, A, Running) && Mail(w, 1, A, Queued) && w.mail.Keys == {0, 1}
    requires w.store.keys == {KEY} && w.ledger.Keys == {A}
    ensures Breaks(r)
  {
    var es1, w1 := Reports(r, es, w, 0, Succeeds(None, 3), A, 1);
    RunsAgain(r, es1, w1);
  }

  lemma RunsAgain(r: Rules, es: seq<Event>, w: World)
    requires Path(r, es, w) && A in w.store.docs && Rec(w, A, w.store.docs[A].status, 1)
    requires Mail(w, 1, A, Queued) && w.mail.Keys == {1} && w.store.keys == {} && w.ledger.Keys == {A}
    ensures Breaks(r)
  {
    IdsDiffer();
    var es1, w1 := Enters(r, es, w, ONE, B, 2);
    var es2, w2 := Reports(r, es1, w1, 1, Begins(4), A, 1);
    TwoActive(w2, A, B);
  }

  /** A has no lock-taking record and no delivery, B holds the lock: giving A up frees it. */
  lemma GiveUpThenEnter(r: Rules, es: seq<Event>, w: World, a: Id, b: Id, c: Id, tag: nat)
    requires Path(r, es, w) && Rec(w, a, STARTED, 0) && w.store.docs[a].attempts > 0
    requires Active(w, b) && KeyOf(w.store.docs[b]) == KEY && w.store.keys == {KEY}
    requires !Outstanding(w, a) && a in w.ledger && tag !in w.mail && c != "" && c !in w.ledger && a != b && b != c
    requires w.sweeps == map[] && Latest(w, a)
    ensures Breaks(r)
  {
    var es1, w1 := Lists(r, es, w, a);
    assert RecordTraced(w1, a);
    var es2, w2 := Other(r, es1, w1, Recover(0, tag, 2));
    LetIn(r, es2, w2, b, c, tag);
  }

  // ---------- the traces ----------

  /** A failure signal and its postrun apart: the second release frees the successor's lock. */
  lemma SplitFailureBreaks()
    ensures Breaks(RULES.(failureAtomic := false))
  {
    var r := RULES.(failureAtomic := false);
    IdsDiffer();
    var es, w := RunA(r);
    var es1, w1 := Reports(r, es, w, 0, FailureOnly(None), A, 1);
    LatePostrun(r, es1, w1);
  }

  lemma LatePostrun(r: Rules, es: seq<Event>, w: World)
    requires Path(r, es, w) && !r.failureAtomic && Rec(w, A, FAILURE, 1) && w.store.keys == {} && w.ledger.Keys == {A}
    requires w.mail.Keys == {0} && w.mail[0].jobId == A && w.mail[0].phase == Closing
    ensures Breaks(r)
  {
    IdsDiffer();
    var es1, w1 := Enters(r, es, w, ONE, B, 1);
    SecondRelease(r, es1, w1);
  }

  lemma SecondRelease(r: Rules, es: seq<Event>, w: World)
    requires Path(r, es, w) && !r.failureAtomic && Rec(w, A, FAILURE, 1) && Rec(w, B, PENDING, 1)
    requires w.ledger.Keys == {A, B} && w.mail.Keys == {0, 1} && w.mail[0].jobId == A && w.mail[0].phase == Closing
    requires w.store.keys == {KEY}
    ensures Breaks(r)
  {
    IdsDiffer();
    var es1, w1 := Reports(r, es, w, 0, PostrunOnly(3), A, 1);
    LetIn(r, es1, w1, B, C, 2);
  }

  /** A postrun whose state is neither success, failure nor retry releases the lock of a job that
      stays STARTED. */
  lemma UndecidedPostrunBreaks()
    ensures Breaks(RULES.(postrunDecides := false))
  {
    var r := RULES.(postrunDecides := false);
    IdsDiffer();
    var es, w := RunA(r);
    var es1, w1 := Reports(r, es, w, 0, EndsOtherwise(2), A, 1);
    LetIn(r, es1, w1, A, B, 1);
  }

  /** A publication that fails after the save: the lock is given back, the PENDING record stays. */
  lemma FailedPublicationBreaks()
    ensures Breaks(RULES.(publishSucceeds := false))
  {
    var r := RULES.(publishSucceeds := false);
    IdsDiffer();
    var es, w := Start(r);
    var es1, w1 := Then(r, es, w, Enqueue(ONE, A, BOB, 0, 0, PublishFails));
    LetIn(r, es1, w1, A, B, 1);
  }

  /** A job without gate in the scope: when the sweep gives it up it frees the lock of the other. */
  lemma SharedScopeBreaks()
    ensures Breaks(RULES.(scopesSeparate := false))
  {
    var r := RULES.(scopesSeparate := false);
    IdsDiffer();
    var es, w := RunA(r);
    var es1, w1 := Enters(r, es, w, FREE, B, 1);
    UngatedRuns(r, es1, w1);
  }

  lemma UngatedRuns(r: Rules, es: seq<Event>, w: World)
    requires Path(r, es, w) && Rec(w, A, STARTED, 1) && Rec(w, B, PENDING, 0)
    requires w.store.keys == {KEY} && w.ledger.Keys == {A, B} && w.mail.Keys == {0, 1} && w.mail[0].jobId == A
    requires Mail(w, 1, B, Queued) && w.sweeps == map[]
    requires w.store.docs[A].datePlanned == w.store.docs[B].datePlanned == 0
    ensures Breaks(r)
  {
    IdsDiffer();
    var es1, w1 := Reports(r, es, w, 1, Begins(1), B, 0);
    UngatedIsGivenUp(r, es1, w1);
  }

  lemma UngatedIsGivenUp(r: Rules, es: seq<Event>, w: World)
    requires Path(r, es, w) && Rec(w, A, STARTED, 1) && Rec(w, B, STARTED, 0) && w.store.docs[B].attempts > 0
    requires w.store.keys == {KEY} && w.ledger.Keys == {A, B} && w.mail.Keys == {0, 1} && w.mail[0].jobId == A
    requires w.sweeps == map[] && w.store.docs[A].datePlanned == w.store.docs[B].datePlanned == 0
    ensures Breaks(r)
  {
    IdsDiffer();
    var es1, w1 := Other(r, es, w, Lose(1));
    assert LexLeq(A, B);
    assert !Outstanding(w1, B) by { assert forall t <- w1.mail :: t == 0; }
    GiveUpThenEnter(r, es1, w1, B, A, C, 1);
  }

  /** A sweep that resumes a job whose message is still with a worker: the second delivery runs
      without lock. */
  lemma ResumeWithMessageBreaks()
    ensures Breaks(RULES.(resumeAfterLoss := false))
  {
    var r := RULES.(resumeAfterLoss := false);
    IdsDiffer();
    var es, w := Start(r);
    var es1, w1 := Enters(r, es, w, ONE, A, 0);
    assert w1.mail.Keys == {0} && w1.store.keys == {KEY} && w1.sweeps == map[];
    ResumedWhileQueued(r, es1, w1);
  }

  lemma ResumedWhileQueued(r: Rules, es: seq<Event>, w: World)
    requires Path(r, es, w) && !r.resumeAfterLoss && Rec(w, A, PENDING, 1) && Mail(w, 0, A, Queued)
    requires w.store.docs[A].maxTry == 1 && w.store.docs[A].attempts == 0 && w.sweeps == map[]
    requires w.store.keys == {KEY} && w.ledger.Keys == {A} && w.mail.Keys == {0}
    ensures Breaks(r)
  {
    IdsDiffer();
    var es0, w0 := Lists(r, es, w, A);
    assert RecordTraced(w0, A);
    var es1, w1 := Other(r, es0, w0, Recover(0, 1, 1));
    assert Mail(w1, 1, A, Queued) by { assert RunsPerPublication(REG, JOB) == 1; }
    assert Rec(w1, A, PENDING, 1) && w1.mail.Keys == {0, 1};
    var es2, w2 := Reports(r, es1, w1, 0, Begins(2), A, 1);
    SecondRun(r, es2, w2);
  }

  /** A sweep that acts on a listing the job has outlived: the job succeeds, its successor enters, and
      the sweep saves the record as it was listed, PENDING, and publishes it. */
  lemma StaleListingBreaks()
    ensures Breaks(RULES.(listingsCurrent := false))
  {
    var r := RULES.(listingsCurrent := false);
    IdsDiffer();
    var es, w := Start(r);
    var es1, w1 := Enters(r, es, w, ONE, A, 0);
    var es2, w2 := Lists(r, es1, w1, A);
    ListedThenSucceeds(r, es2, w2, w1.store.docs[A]);
  }

  lemma ListedThenSucceeds(r: Rules, es: seq<Event>, w: World, j: JobState)
    requires Path(r, es, w) && !r.listingsCurrent && Rec(w, A, PENDING, 1) && Mail(w, 0, A, Queued)
    requires Next(w, 0) == Some(j) && j == w.store.docs[A] && j.attempts == 0 && j.maxTry == 1
    requires w.store.keys == {KEY} && w.ledger.Keys == {A} && w.mail.Keys == {0}
    ensures Breaks(r)
  {
    IdsDiffer();
    assert RecordTraced(w, A);
    var es1, w1 := Reports(r, es, w, 0, Begins(1), A, 1);
    var es2, w2 := Reports(r, es1, w1, 0, Succeeds(None, 2), A, 1);
    assert w2.mail.Keys == {};
    StaleListingIsSaved(r, es2, w2, j);
  }

  lemma StaleListingIsSaved(r: Rules, es: seq<Event>, w: World, j: JobState)
    requires Path(r, es, w) && !r.listingsCurrent && w.store.keys == {} && w.ledger.Keys == {A} && w.mail.Keys == {}
    requires Next(w, 0) == Some(j) && j.jobId == A && j.attempts == 0 && j.maxTry == 1 && j.maxConcurrent == 1
    requires j.name == JOB && j.userUid == BOB && j.status == PENDING
    ensures Breaks(r)
  {
    IdsDiffer();
    var es1, w1 := Enters(r, es, w, ONE, B, 1);
    assert !Outstanding(w1, A) by { assert forall t <- w1.mail :: t == 1; }
    StaleListingIsResumed(r, es1, w1, j);
  }

  lemma StaleListingIsResumed(r: Rules, es: seq<Event>, w: World, j: JobState)
    requires Path(r, es, w) && !r.listingsCurrent && !Outstanding(w, A) && A in w.ledger && 2 !in w.mail
    requires Next(w, 0) == Some(j) && j.jobId == A && j.attempts == 0 && j.maxTry == 1 && j.maxConcurrent == 1
    requires j.name == JOB && j.userUid == BOB && j.status == PENDING && Rec(w, B, PENDING, 1)
    ensures Breaks(r)
  {
    IdsDiffer();
    var es', w' := Other(r, es, w, Recover(0, 2, 3));
    assert w'.store.docs[A] == Verdict(REG, j, 3);
    TwoActive(w', A, B);
  }

  /** A redelivered message: the second run starts after the first released the lock. */
  lemma RedeliveryBreaks()
    ensures Breaks(RULES.(noRedelivery := false))
  {
    var r := RULES.(noRedelivery := false);
    var es, w := RunA(r);
    var es1, w1 := Other(r, es, w, Redeliver(0, 1));
    SecondRun(r, es1, w1);
  }

  /** A lock that lapses while its job is active. */
  lemma LapseBreaks()
    ensures Breaks(RULES.(locksOutliveJobs := false))
  {
    var r := RULES.(locksOutliveJobs := false);
    IdsDiffer();
    var es, w := RunA(r);
    var es1, w1 := Other(r, es, w, Lapse(KEY));
    LetIn(r, es1, w1, A, B, 1);
  }

  /** A record that expires while its job is active is created again without gate; giving that record
      up then frees the lock of another job. */
  lemma ExpiryBreaks()
    ensures Breaks(RULES.(docsOutliveJobs := false))
  {
    var r := RULES.(docsOutliveJobs := false);
    IdsDiffer();
    var es, w := Start(r);
    var es1, w1 := Enters(r, es, w, ONE, A, 0);
    RecordAndLockGone(r, es1, w1);
  }

  lemma RecordAndLockGone(r: Rules, es: seq<Event>, w: World)
    requires Path(r, es, w) && !r.docsOutliveJobs && w.store.docs.Keys == {A} && w.store.keys == {KEY}
    requires w.ledger.Keys == {A} && Mail(w, 0, A, Queued) && w.mail.Keys == {0} && w.sweeps == map[]
    ensures Breaks(r)
  {
    var es1, w1 := Other(r, es, w, Expire(A));
    assert w1.store.docs == map[];
    var es2, w2 := Other(r, es1, w1, Lapse(KEY));
    RunsWithoutRecord(r, es2, w2);
  }

  lemma RunsWithoutRecord(r: Rules, es: seq<Event>, w: World)
    requires Path(r, es, w) && w.store.docs == map[] && w.store.keys == {} && w.ledger.Keys == {A}
    requires Mail(w, 0, A, Queued) && w.mail.Keys == {0} && w.sweeps == map[]
    ensures Breaks(r)
  {
    IdsDiffer();
    var es1, w1 := Enters(r, es, w, ONE, B, 1);
    var es2, w2 := Then(r, es1, w1, Signals(0, Begins(1)));
    assert Rec(w2, A, STARTED, 0) && Rec(w2, B, PENDING, 1) && w2.ledger.Keys == {A, B} && w2.store.keys == {KEY};
    RecreatedIsGivenUp(r, es2, w2);
  }

  lemma RecreatedIsGivenUp(r: Rules, es: seq<Event>, w: World)
    requires Path(r, es, w) && Rec(w, A, STARTED, 0) && w.store.docs[A].attempts > 0 && Rec(w, B, PENDING, 1)
    requires w.ledger.Keys == {A, B} && w.store.keys == {KEY} && w.mail.Keys == {0, 1} && w.mail[1].jobId == B
    requires w.sweeps == map[] && w.store.docs[A].datePlanned > w.store.docs[B].datePlanned
    ensures Breaks(r)
  {
    IdsDiffer();
    var es1, w1 := Other(r, es, w, Lose(0));
    assert !Outstanding(w1, A) by { assert forall t <- w1.mail :: t == 1; }
    GiveUpThenEnter(r, es1, w1, A, B, C, 0);
  }

  /** Reading a zombie marks it FAILURE and leaves its lock: the scope stays shut with nobody in it. */
  lemma ZombieStrandsTheLock()
    ensures Strands(RULES.(noZombies := false))
  {
    var r := RULES.(noZombies := false);
    var es, w := Start(r);
    IdsDiffer();
    var es1, w1 := Then(r, es, w, Enqueue(ONE, A, BOB, 0, 0, NoFault));
    var j := EnqueuedState(ONE, A, BOB, 0);
    assert w1.store.docs == map[A := j];
    var es2, w2 := Then(r, es1, w1, Signals(0, Begins(1)));
    assert w2.store.docs == map[A := Started(j, 1)];
    assert Flips(w2.store, A, 1000);
    ZombieIsRead(r, es2, w2);
  }

  lemma ZombieIsRead(r: Rules, es: seq<Event>, w: World)
    requires Path(r, es, w) && Guarded(r) && !r.noZombies
    requires w.store.docs.Keys == {A} && w.store.docs[A].jobId == A && Flips(w.store, A, 1000) && KEY in w.store.keys
    ensures Strands(r)
  {
    var es', w' := Other(r, es, w, Look(A, 1000));
    assert w'.store.docs.Keys == {A} && w'.store.docs[A].status == FAILURE;
    assert KEY in w'.store.keys && !HasActive(w', KEY);
    SlotsExclude(REG, r, es', w');
  }

  // ---------- exactly which rules are needed ----------

  /** `r` promises no more than `t`. */
  predicate Relaxes(r: Rules, t: Rules) {
    && r.gated == t.gated
    && (r.scopesSeparate ==> t.scopesSeparate) && (r.publishSucceeds ==> t.publishSucceeds)
    && (r.failureAtomic ==> t.failureAtomic) && (r.postrunDecides ==> t.postrunDecides)
    && (r.noRedelivery ==> t.noRedelivery) && (r.resumeAfterLoss ==> t.resumeAfterLoss)
    && (r.listingsCurrent ==> t.listingsCurrent) && (r.docsOutliveJobs ==> t.docsOutliveJobs)
    && (r.locksOutliveJobs ==> t.locksOutliveJobs) && (r.noZombies ==> t.noZombies)
  }

  lemma {:induction false} RelaxedFollows(r: Rules, t: Rules, w: World, events: seq<Event>)
    requires Relaxes(r, t) && Follows(REG, t, w, events)
    ensures Follows(REG, r, w, events)
    decreases events
  {
    if events != [] {
      assert Permits(r, w, events[0]);
      RelaxedFollows(r, t, Apply(REG, w, events[0]), events[1..]);
    }
  }

  lemma RelaxedBreaks(r: Rules, t: Rules)
    requires Relaxes(r, t)
    ensures Breaks(t) ==> Breaks(r)
    ensures Inexact(t) ==> Inexact(r)
  {
    if Breaks(t) {
      var events, w :| Reaches(REG, t, events, w) && !AtMostOne(w);
      RelaxedFollows(r, t, NOTHING, events);
      assert Reaches(REG, r, events, w);
    }
    if Inexact(t) {
      var events, w :| Reaches(REG, t, events, w) && !(AtMostOne(w) && LockIffActive(w));
      RelaxedFollows(r, t, NOTHING, events);
      assert Reaches(REG, r, events, w);
    }
  }

  /** Some run that follows the rules ends with two active jobs in a scope, or with a lock that does not
      match them. */
  ghost predicate Inexact(r: Rules) {
    exists events, w :: Reaches(REG, r, events, w) && !(AtMostOne(w) && LockIffActive(w))
  }

  /** One rule set for each rule: that rule is dropped and all others hold. */
  lemma EveryRuleIsNeeded()
    ensures Breaks(RULES.(failureAtomic := false)) && Breaks(RULES.(postrunDecides := false))
    ensures Breaks(RULES.(publishSucceeds := false)) && Breaks(RULES.(scopesSeparate := false))
    ensures Breaks(RULES.(resumeAfterLoss := false)) && Breaks(RULES.(listingsCurrent := false))
    ensures Breaks(RULES.(noRedelivery := false)) && Breaks(RULES.(locksOutliveJobs := false))
    ensures Breaks(RULES.(docsOutliveJobs := false)) && Strands(RULES.(noZombies := false))
  {
    SplitFailureBreaks();
    UndecidedPostrunBreaks();
    FailedPublicationBreaks();
    SharedScopeBreaks();
    ResumeWithMessageBreaks();
    StaleListingBreaks();
    RedeliveryBreaks();
    LapseBreaks();
    ExpiryBreaks();
    ZombieStrandsTheLock();
  }

  /** The rule set with one missing rule that `r` relaxes. */
  function Missing(r: Rules): (t: Rules)
    requires r.gated == {KEY} && !Guarded(r)
    ensures Relaxes(r, t) && !Guarded(t)
  {
    if !r.scopesSeparate then RULES.(scopesSeparate := false)
    else if !r.publishSucceeds then RULES.(publishSucceeds := false)
    else if !r.failureAtomic then RULES.(failureAtomic := false)
    else if !r.postrunDecides then RULES.(postrunDecides := false)
    else if !r.noRedelivery then RULES.(noRedelivery := false)
    else if !r.resumeAfterLoss then RULES.(resumeAfterLoss := false)
    else if !r.listingsCurrent then RULES.(listingsCurrent := false)
    else if !r.docsOutliveJobs then RULES.(docsOutliveJobs := false)
    else RULES.(locksOutliveJobs := false)
  }

  /** Slot exclusion, exactly: for each of the rule sets over this scope, some run that follows it puts
      two active jobs in a scope if and only if a rule other than the one on zombies is missing. */
  lemma ExclusionNeedsExactly(r: Rules)
    requires r.gated == {KEY}
    ensures Breaks(r) <==> !Guarded(r)
  {
    if Guarded(r) {
      if events, w :| Reaches(REG, r, events, w) && !AtMostOne(w) { SlotsExclude(REG, r, events, w); }
    } else {
      EveryRuleIsNeeded();
      RelaxedBreaks(r, Missing(r));
    }
  }

  /** And locks match active jobs in every run that follows the rules if and only if no rule is missing. */
  lemma ExactnessNeedsExactly(r: Rules)
    requires r.gated == {KEY}
    ensures Inexact(r) <==> !(Guarded(r) && r.noZombies)
  {
    if !Guarded(r) {
      ExclusionNeedsExactly(r);
    } else if !r.noZombies {
      EveryRuleIsNeeded();
      RelaxedBreaks(r, RULES.(noZombies := false));
    } else {
      assert r == AllRules({KEY});
      if events, w :| Reaches(REG, r, events, w) && !(AtMostOne(w) && LockIffActive(w)) {
        LockExactness(REG, {KEY}, events, w);
      }
    }
  }

  /** Without the rule on redelivery attempts are not conserved either: two runs of a job that may
      run once and was never resumed. */
  lemma RedeliveryExceedsAttempts()
    ensures exists events, w ::
      && Reaches(REG, RULES.(noRedelivery := false), events, w) && A in w.store.docs
      && w.store.docs[A].attempts == 2 && RunsBegun(REG, NOTHING, events, A) >= 2
      && Resumes(REG, NOTHING, events, A) == 0
  {
    var r := RULES.(noRedelivery := false);
    var es, w := RunA(r);
    var es1, w1 := Other(r, es, w, Redeliver(0, 1));
    var es2, w2 := Reports(r, es1, w1, 1, Begins(4), A, 1);
    NoSweepNoResume(NOTHING, es2, A);
    NothingIsTraced();
    AttemptsNeverExceedRuns(REG, NOTHING, es2, A, 0);
  }

  lemma {:induction false} NoSweepNoResume(w: World, events: seq<Event>, id: Id)
    requires NoSweep(events)
    ensures Resumes(REG, w, events, id) == 0
    decreases events
  {
    if events != [] && Enabled(REG, w, events[0]) {
      assert !events[0].Recover?;
      NoSweepNoResume(Apply(REG, w, events[0]), events[1..], id);
    }
  }
}

/** JobState documents with a pending, a per-user and a per-schedule index. */
module JobPersistency {
  import opened Prelude
  import opened JobStates
  import opened Redis

  // ---------- what each operation does to the store ----------

  function SavedZsets(zs: Zsets, j: JobState): Zsets {
    var zs1 := if Truthy(j.userUid) then ZAdd(zs, UserJobs(j.userUid.value), j.jobId, j.datePlanned) else zs;
    var zs2 := if IsTerminal(j.status) then ZRemove(zs1, PendingJobs, {j.jobId})
               else ZAdd(zs1, PendingJobs, j.jobId, j.datePlanned);
    if Truthy(j.scheduleName) then ZAdd(zs2, ScheduleJobs(j.scheduleName.value), j.jobId, j.datePlanned) else zs2
  }

  function Saved(s: Store, j: JobState): Store {
    Store(s.docs[j.jobId := j], SavedZsets(s.zsets, j), s.keys)
  }

  function Get(s: Store, id: Id): Option<JobState> {
    if id in s.docs then Some(s.docs[id]) else None
  }

  function DeletedZsets(s: Store, id: Id): Zsets {
    var zs1 := ZRemove(s.zsets, PendingJobs, {id});
    if id !in s.docs then zs1
    else
      var j := s.docs[id];
      var zs2 := if Truthy(j.userUid) then ZRemove(zs1, UserJobs(j.userUid.value), {id}) else zs1;
      if Truthy(j.scheduleName) then ZRemove(zs2, ScheduleJobs(j.scheduleName.value), {id}) else zs2
  }

  function Deleted(s: Store, id: Id): Store {
    Store(s.docs - {id}, DeletedZsets(s, id), s.keys)
  }

  /** The document's time to live elapsed; no index is told. */
  function Expired(s: Store, id: Id): Store {
    s.(docs := s.docs - {id})
  }

  /** The ids that still have a document, in input order. */
  function Live(docs: map<Id, JobState>, ids: seq<Id>): (r: seq<Id>)
    ensures forall id <- r :: id in docs
  {
    if ids == [] then [] else (if ids[0] in docs then [ids[0]] else []) + Live(docs, ids[1..])
  }

  function Documents(docs: map<Id, JobState>, ids: seq<Id>): seq<JobState>
    requires forall id <- ids :: id in docs
  {
    seq(|ids|, i requires 0 <= i < |ids| => docs[ids[i]])
  }

  function Stale(docs: map<Id, JobState>, ids: seq<Id>): set<Id> {
    set id | id in ids && id !in docs
  }

  function Fetched(docs: map<Id, JobState>, ids: seq<Id>): seq<JobState> {
    Documents(docs, Live(docs, ids))
  }

  function Pruned(s: Store, k: ZKey, ids: seq<Id>): Store {
    if Stale(s.docs, ids) == {} then s else s.(zsets := ZRemove(s.zsets, k, Stale(s.docs, ids)))
  }

  function Listing(s: Store, k: ZKey, limit: int): seq<JobState> {
    Fetched(s.docs, RevRange(Zset(s, k), limit))
  }

  function AfterListing(s: Store, k: ZKey, limit: int): Store {
    Pruned(s, k, RevRange(Zset(s, k), limit))
  }

  lemma {:induction false} LiveAppend(docs: map<Id, JobState>, a: seq<Id>, b: seq<Id>)
    ensures Live(docs, a + b) == Live(docs, a) + Live(docs, b)
  {
    if a == [] {
      assert a + b == b;
    } else {
      LiveAppend(docs, a[1..], b);
      assert (a + b)[1..] == a[1..] + b;
    }
  }

  // ---------- the class ----------

  class JobPersistency {
    const client: ClientRedis

    constructor (client: ClientRedis)
      ensures this.client == client
    {
      this.client := client;
    }

    method Save(j: JobState)
      modifies client
      ensures client.View() == Saved(old(client.View()), j)
    {
      client.SetDocument(j.jobId, j);
      if Truthy(j.userUid) {
        client.ZsetAdd(UserJobs(j.userUid.value), j.jobId, j.datePlanned);
      }
      if IsTerminal(j.status) {
        client.ZsetRemove(PendingJobs, {j.jobId});
      } else {
        client.ZsetAdd(PendingJobs, j.jobId, j.datePlanned);
      }
      if Truthy(j.scheduleName) {
        client.ZsetAdd(ScheduleJobs(j.scheduleName.value), j.jobId, j.datePlanned);
      }
    }

    method Load(id: Id) returns (r: Option<JobState>)
      ensures r == Get(client.View(), id)
    {
      r := if id in client.docs then Some(client.docs[id]) else None;
    }

    method Delete(id: Id)
      modifies client
      ensures client.View() == Deleted(old(client.View()), id)
    {
      var state := Load(id);
      client.DeleteDocument(id);
      client.ZsetRemove(PendingJobs, {id});
      if state.Some? {
        if Truthy(state.value.userUid) {
          client.ZsetRemove(UserJobs(state.value.userUid.value), {id});
        }
        if Truthy(state.value.scheduleName) {
          client.ZsetRemove(ScheduleJobs(state.value.scheduleName.value), {id});
        }
      }
    }

    method FetchMany(k: ZKey, ids: seq<Id>) returns (result: seq<JobState>)
      modifies client
      ensures result == Fetched(old(client.docs), ids)
      ensures client.View() == Pruned(old(client.View()), k, ids)
    {
      result := [];
      var stale: set<Id> := {};
      ghost var docs := client.docs;
      for i := 0 to |ids|
        invariant client.View() == old(client.View())
        invariant result == Fetched(docs, ids[..i])
        invariant stale == Stale(docs, ids[..i])
      {
        LiveAppend(docs, ids[..i], [ids[i]]);
        assert ids[..i + 1] == ids[..i] + [ids[i]];
        var state := Load(ids[i]);
        if state.Some? {
          result := result + [state.value];
        } else {
          stale := stale + {ids[i]};
        }
      }
      assert ids[..|ids|] == ids;
      if stale != {} {
        client.ZsetRemove(k, stale);
      }
    }

    method ListIndex(k: ZKey, limit: int) returns (result: seq<JobState>)
      modifies client
      ensures result == Listing(old(client.View()), k, limit)
      ensures client.View() == AfterListing(old(client.View()), k, limit)
    {
      var ids := client.ZsetRevRange(k, limit);
      result := FetchMany(k, ids);
    }

    method ListPending(limit: int) returns (result: seq<JobState>)
      modifies client
      ensures result == Listing(old(client.View()), PendingJobs, limit)
      ensures client.View() == AfterListing(old(client.View()), PendingJobs, limit)
    {
      result := ListIndex(PendingJobs, limit);
    }

    method ListByUser(uid: string, limit: int) returns (result: seq<JobState>)
      modifies client
      ensures result == Listing(old(client.View()), UserJobs(uid), limit)
      ensures client.View() == AfterListing(old(client.View()), UserJobs(uid), limit)
    {
      result := ListIndex(UserJobs(uid), limit);
    }

    method ListBySchedule(schedule: string, limit: int) returns (result: seq<JobState>)
      modifies client
      ensures result == Listing(old(client.View()), ScheduleJobs(schedule), limit)
      ensures client.View() == AfterListing(old(client.View()), ScheduleJobs(schedule), limit)
    {
      result := ListIndex(ScheduleJobs(schedule), limit);
    }
  }

  // ---------- the indexes refine filters over the documents ----------

  /** Who a job belongs to: fixed for its whole life. */
  datatype Ownership = Ownership(user: Option<string>, schedule: Option<string>)

  function OwnerOf(j: JobState): Ownership {
    Ownership(j.userUid, j.scheduleName)
  }

  predicate OwnedUnder(o: Ownership, k: ZKey) {
    match k
    case PendingJobs => true
    case UserJobs(uid) => Truthy(o.user) && o.user.value == uid
    case ScheduleJobs(name) => Truthy(o.schedule) && o.schedule.value == name
  }

  /** The filter each index stands for, on documents alone. */
  predicate Belongs(j: JobState, k: ZKey) {
    OwnedUnder(OwnerOf(j), k) && (k == PendingJobs ==> !IsTerminal(j.status))
  }

  /** A live document is in exactly the indexes it belongs to, scored by its planned date. An entry
      without document can only sit in an index of the job's own user or schedule, or in pending. */
  ghost predicate EntryExact(z: Index, docs: map<Id, JobState>, own: map<Id, Ownership>, k: ZKey, id: Id) {
    && (id in docs ==>
          && (id in z <==> Belongs(docs[id], k))
          && (id in z ==> z[id] == docs[id].datePlanned))
    && (id in z ==> id in own && OwnedUnder(own[id], k))
  }

  ghost predicate Consistent(s: Store, own: map<Id, Ownership>) {
    && (forall id <- s.docs :: s.docs[id].jobId == id && id in own && own[id] == OwnerOf(s.docs[id]))
    && (forall k, id :: EntryExact(Zset(s, k), s.docs, own, k, id))
  }

  datatype StoreOp = SaveOp(state: JobState) | DeleteOp(id: Id) | ExpireOp(id: Id) | ListOp(k: ZKey, limit: int)

  function ApplyOp(s: Store, op: StoreOp): Store {
    match op
    case SaveOp(j) => Saved(s, j)
    case DeleteOp(id) => Deleted(s, id)
    case ExpireOp(id) => Expired(s, id)
    case ListOp(k, limit) => AfterListing(s, k, limit)
  }

  function ApplyOps(s: Store, ops: seq<StoreOp>): Store
    decreases ops
  {
    if ops == [] then s else ApplyOps(ApplyOp(s, ops[0]), ops[1..])
  }

  ghost predicate KeepsOwner(op: StoreOp, own: map<Id, Ownership>) {
    op.SaveOp? ==> op.state.jobId in own && own[op.state.jobId] == OwnerOf(op.state)
  }

  lemma SavedZset(s: Store, j: JobState, k: ZKey)
    ensures Zset(Saved(s, j), k) ==
      if Belongs(j, k) then Zset(s, k)[j.jobId := j.datePlanned]
      else if k == PendingJobs then Zset(s, k) - {j.jobId} else Zset(s, k)
  {
  }

  lemma SaveKeepsConsistent(s: Store, j: JobState, own: map<Id, Ownership>)
    requires Consistent(s, own) && j.jobId in own && own[j.jobId] == OwnerOf(j)
    ensures Consistent(Saved(s, j), own)
  {
    var s' := Saved(s, j);
    forall k, id ensures EntryExact(Zset(s', k), s'.docs, own, k, id) {
      SavedZset(s, j, k);
      assert EntryExact(Zset(s, k), s.docs, own, k, id);
    }
  }

  lemma DeletedZset(s: Store, id: Id, k: ZKey)
    ensures Zset(Deleted(s, id), k) ==
      if k == PendingJobs || (id in s.docs && OwnedUnder(OwnerOf(s.docs[id]), k)) then Zset(s, k) - {id}
      else Zset(s, k)
  {
  }

  /** Deleting a job undoes the save that created it: no document, no index entry, nothing else moved. */
  lemma DeleteUndoesSave(s: Store, j: JobState, k: ZKey)
    requires j.jobId !in s.docs && j.jobId !in Zset(s, k)
    ensures var t := Deleted(Saved(s, j), j.jobId);
      t.docs == s.docs && t.keys == s.keys && Zset(t, k) == Zset(s, k)
  {
    SavedZset(s, j, k);
    DeletedZset(Saved(s, j), j.jobId, k);
  }

  lemma AfterListingZset(s: Store, k: ZKey, limit: int, k': ZKey)
    ensures AfterListing(s, k, limit).docs == s.docs
    ensures Zset(AfterListing(s, k, limit), k') ==
      if k' == k then Zset(s, k) - Stale(s.docs, RevRange(Zset(s, k), limit)) else Zset(s, k')
  {
  }

  lemma StepKeepsConsistent(s: Store, op: StoreOp, own: map<Id, Ownership>)
    requires Consistent(s, own) && KeepsOwner(op, own)
    ensures Consistent(ApplyOp(s, op), own)
  {
    var s' := ApplyOp(s, op);
    if op.SaveOp? {
      SaveKeepsConsistent(s, op.state, own);
    } else {
      forall k, id ensures EntryExact(Zset(s', k), s'.docs, own, k, id) {
        assert EntryExact(Zset(s, k), s.docs, own, k, id);
        match op {
          case DeleteOp(d) => DeletedZset(s, d, k);
          case ListOp(l, limit) => AfterListingZset(s, l, limit, k);
          case _ =>
        }
      }
    }
  }

  /** Every sequence of saves, deletes, listings and expiries that never changes a job's user or
      schedule keeps the three indexes exact. */
  lemma {:induction false} RunKeepsConsistent(s: Store, ops: seq<StoreOp>, own: map<Id, Ownership>)
    requires Consistent(s, own)
    requires forall op <- ops :: KeepsOwner(op, own)
    ensures Consistent(ApplyOps(s, ops), own)
    decreases ops
  {
    if ops != [] {
      assert ops[0] in ops;
      StepKeepsConsistent(s, ops[0], own);
      RunKeepsConsistent(ApplyOp(s, ops[0]), ops[1..], own);
    }
  }

  /** The restriction is needed: re-saving a job under another user leaves it listed under the first. */
  lemma OwnerChangeLeavesAGhostEntry(s: Store, j: JobState, first: string, second: string)
    requires first != "" && second != "" && first != second
    ensures var s' := Saved(Saved(s, j.(userUid := Some(first))), j.(userUid := Some(second)));
      && j.jobId in Zset(s', UserJobs(first))
      && j.jobId in s'.docs
      && !Belongs(s'.docs[j.jobId], UserJobs(first))
  {
    var a, b := j.(userUid := Some(first)), j.(userUid := Some(second));
    SavedZset(s, a, UserJobs(first));
    SavedZset(Saved(s, a), b, UserJobs(first));
  }

  // ---------- listings refine filter-and-sort ----------

  /** The entries an index would hold if it were computed from the documents. */
  function Matching(docs: map<Id, JobState>, k: ZKey): Index {
    map id | id in docs && Belongs(docs[id], k) :: docs[id].datePlanned
  }

  /** Filter the documents, rank them newest planned first, keep the first `limit`. */
  function Newest(docs: map<Id, JobState>, k: ZKey, limit: int): seq<JobState> {
    var m := Matching(docs, k);
    RankingMembers(m);
    assert forall id <- RevRange(m, limit) :: id in Ranking(m);
    Documents(docs, RevRange(m, limit))
  }

  function LivePart(z: Index, docs: map<Id, JobState>): Index {
    map id | id in z && id in docs :: z[id]
  }

  lemma {:induction false} LiveRanking(z: Index, docs: map<Id, JobState>)
    ensures Live(docs, Ranking(z)) == Ranking(LivePart(z, docs))
    decreases |z|
  {
    if z == map[] {
      assert LivePart(z, docs) == map[];
    } else {
      var t := Top(z);
      var rest := z - {t};
      var part := LivePart(z, docs);
      LiveRanking(rest, docs);
      if t in docs {
        assert IsTop(part, t);
        TopUnique(part, Top(part), t);
        assert LivePart(rest, docs) == part - {t};
      } else {
        assert LivePart(rest, docs) == part;
      }
      assert Ranking(z) == [t] + Ranking(rest);
      LiveAppend(docs, [t], Ranking(rest));
      assert Live(docs, [t]) == if t in docs then [t] else [];
    }
  }

  lemma ConsistentLivePart(s: Store, own: map<Id, Ownership>, k: ZKey)
    requires Consistent(s, own)
    ensures LivePart(Zset(s, k), s.docs) == Matching(s.docs, k)
  {
    var z := Zset(s, k);
    var part, m := LivePart(z, s.docs), Matching(s.docs, k);
    forall id ensures (id in part <==> id in m) && (id in m ==> part[id] == m[id]) {
      assert EntryExact(z, s.docs, own, k, id);
    }
  }

  lemma {:induction false} LiveAll(docs: map<Id, JobState>, ids: seq<Id>)
    requires Stale(docs, ids) == {}
    ensures Live(docs, ids) == ids
  {
    if ids != [] {
      assert ids[0] !in Stale(docs, ids);
      assert Stale(docs, ids[1..]) <= Stale(docs, ids);
      LiveAll(docs, ids[1..]);
    }
  }

  lemma LiveParts(docs: map<Id, JobState>, ids: seq<Id>, n: nat)
    requires n <= |ids|
    ensures Live(docs, ids) == Live(docs, ids[..n]) + Live(docs, ids[n..])
  {
    LiveAppend(docs, ids[..n], ids[n..]);
    assert ids == ids[..n] + ids[n..];
  }

  lemma LiveSplit(z: Index, docs: map<Id, JobState>, n: nat)
    requires n <= |z|
    ensures |Ranking(z)| == |z|
    ensures Ranking(LivePart(z, docs)) == Live(docs, Ranking(z)[..n]) + Live(docs, Ranking(z)[n..])
  {
    RankingMembers(z);
    LiveRanking(z, docs);
    LiveParts(docs, Ranking(z), n);
  }

  lemma DocumentsPrefix(docs: map<Id, JobState>, a: seq<Id>, b: seq<Id>)
    requires a <= b && forall id <- b :: id in docs
    ensures (forall id <- a :: id in docs) && Documents(docs, a) <= Documents(docs, b)
  {
    assert forall id <- a :: id in b;
  }

  /** For every limit, a listing returns an initial piece of the filtered and sorted documents. */
  lemma ListingIsAPrefix(s: Store, own: map<Id, Ownership>, k: ZKey, limit: int)
    requires Consistent(s, own)
    ensures Listing(s, k, limit) <= Newest(s.docs, k, 0)
    ensures |Listing(s, k, limit)| <= Span(limit, |Zset(s, k)|)
  {
    var z := Zset(s, k);
    var n := Span(limit, |z|);
    var m := Matching(s.docs, k);
    LiveSplit(z, s.docs, n);
    ConsistentLivePart(s, own, k);
    RankingMembers(m);
    assert RevRange(m, 0) == Ranking(m);
    LiveNotLonger(s.docs, Ranking(z)[..n]);
    DocumentsPrefix(s.docs, Live(s.docs, Ranking(z)[..n]), Ranking(m));
  }

  lemma {:induction false} LiveNotLonger(docs: map<Id, JobState>, ids: seq<Id>)
    ensures |Live(docs, ids)| <= |ids|
  {
    if ids != [] { LiveNotLonger(docs, ids[1..]); }
  }

  function StaleEntries(s: Store, k: ZKey): set<Id> {
    set id | id in Zset(s, k) && id !in s.docs
  }

  /** A live window is the window of the live entries. */
  lemma HeadOfRanking(m: Index, head: seq<Id>, tail: seq<Id>, limit: nat, n: nat)
    requires Ranking(m) == head + tail && |head| == Span(limit, n) && |head| + |tail| <= n
    ensures RevRange(m, limit) == head
  {
    RankingMembers(m);
  }

  /** A listing that met no stale entry answers exactly. */
  lemma CleanListingIsExact(s: Store, own: map<Id, Ownership>, k: ZKey, limit: nat)
    requires Consistent(s, own)
    requires Stale(s.docs, RevRange(Zset(s, k), limit)) == {}
    ensures Listing(s, k, limit) == Newest(s.docs, k, limit)
  {
    var z := Zset(s, k);
    var n := Span(limit, |z|);
    var m := Matching(s.docs, k);
    LiveSplit(z, s.docs, n);
    RankingMembers(m);
    var head, tail := Ranking(z)[..n], Ranking(z)[n..];
    LiveAll(s.docs, head);
    ConsistentLivePart(s, own, k);
    LiveNotLonger(s.docs, tail);
    HeadOfRanking(m, head, Live(s.docs, tail), limit, |z|);
  }

  /** Each listing either answers exactly and changes nothing, or strictly shrinks the stale part. */
  lemma ListingAnswersOrPrunes(s: Store, own: map<Id, Ownership>, k: ZKey, limit: nat)
    requires Consistent(s, own)
    ensures
      || (AfterListing(s, k, limit) == s && Listing(s, k, limit) == Newest(s.docs, k, limit))
      || StaleEntries(AfterListing(s, k, limit), k) < StaleEntries(s, k)
  {
    var z := Zset(s, k);
    var gone := Stale(s.docs, RevRange(z, limit));
    if gone == {} {
      CleanListingIsExact(s, own, k, limit);
    } else {
      var id :| id in gone;
      RankingMembers(z);
      AfterListingZset(s, k, limit, k);
      assert id in StaleEntries(s, k) && id !in StaleEntries(AfterListing(s, k, limit), k);
    }
  }

  function AfterListings(s: Store, k: ZKey, limit: int, n: nat): Store
    decreases n
  {
    if n == 0 then s else AfterListings(AfterListing(s, k, limit), k, limit, n - 1)
  }

  lemma {:induction false} StationaryListings(s: Store, k: ZKey, limit: int, n: nat)
    requires AfterListing(s, k, limit) == s
    ensures AfterListings(s, k, limit, n) == s
    decreases n
  {
    if n > 0 { StationaryListings(s, k, limit, n - 1); }
  }

  lemma SubsetIsSmaller(a: set<Id>, b: set<Id>)
    requires a < b
    ensures |a| < |b|
  {
    assert b - a != {} by { assert b == a + (b - a); }
    var x :| x in b - a;
    assert a <= b - {x};
    var rest := (b - {x}) - a;
    assert b - {x} == a + rest;
    assert |b - {x}| == |a| + |rest|;
  }

  ghost predicate Settled(t: Store, docs: map<Id, JobState>, k: ZKey, limit: nat) {
    t.docs == docs && Listing(t, k, limit) == Newest(docs, k, limit)
  }

  lemma ListingStep(s: Store, own: map<Id, Ownership>, k: ZKey, limit: nat)
    requires Consistent(s, own)
    ensures Consistent(AfterListing(s, k, limit), own) && AfterListing(s, k, limit).docs == s.docs
    ensures
      || (AfterListing(s, k, limit) == s && Settled(s, s.docs, k, limit))
      || |StaleEntries(AfterListing(s, k, limit), k)| < |StaleEntries(s, k)|
  {
    StepKeepsConsistent(s, ListOp(k, limit), own);
    AfterListingZset(s, k, limit, k);
    ListingAnswersOrPrunes(s, own, k, limit);
    var before, after := StaleEntries(s, k), StaleEntries(AfterListing(s, k, limit), k);
    if after < before { SubsetIsSmaller(after, before); }
  }

  lemma SettledStill(s: Store, docs: map<Id, JobState>, k: ZKey, limit: nat, n: nat)
    requires AfterListing(s, k, limit) == s && Settled(s, docs, k, limit)
    ensures Settled(AfterListings(s, k, limit, n), docs, k, limit)
  {
    StationaryListings(s, k, limit, n);
  }

  lemma SettledLater(s: Store, docs: map<Id, JobState>, k: ZKey, limit: nat, n: nat)
    requires n > 0 && Settled(AfterListings(AfterListing(s, k, limit), k, limit, n - 1), docs, k, limit)
    ensures Settled(AfterListings(s, k, limit, n), docs, k, limit)
  {
    assert AfterListings(s, k, limit, n) == AfterListings(AfterListing(s, k, limit), k, limit, n - 1);
  }

  lemma ConvergenceStep(s: Store, own: map<Id, Ownership>, k: ZKey, limit: nat, n: nat)
    requires Consistent(s, own) && n >= |StaleEntries(s, k)|
    requires var s1 := AfterListing(s, k, limit);
      n > 0 && Consistent(s1, own) && n - 1 >= |StaleEntries(s1, k)| ==>
        Settled(AfterListings(s1, k, limit, n - 1), s1.docs, k, limit)
    ensures Settled(AfterListings(s, k, limit, n), s.docs, k, limit)
  {
    ListingStep(s, own, k, limit);
    if n > 0 && n - 1 >= |StaleEntries(AfterListing(s, k, limit), k)| {
      SettledLater(s, s.docs, k, limit, n);
    } else {
      SettledStill(s, s.docs, k, limit, n);
    }
  }

  /** With no writes in between, once there were as many listings as stale entries every further
      listing is exact. */
  lemma {:induction false} ListingConverges(s: Store, own: map<Id, Ownership>, k: ZKey, limit: nat, n: nat)
    requires Consistent(s, own)
    requires n >= |StaleEntries(s, k)|
    ensures Settled(AfterListings(s, k, limit, n), s.docs, k, limit)
    decreases n
  {
    var s1 := AfterListing(s, k, limit);
    if n > 0 && Consistent(s1, own) && n - 1 >= |StaleEntries(s1, k)| {
      ListingConverges(s1, own, k, limit, n - 1);
    }
    ConvergenceStep(s, own, k, limit, n);
  }

  lemma NewestSize(docs: map<Id, JobState>, k: ZKey, limit: nat)
    ensures |Newest(docs, k, limit)| ==
      if limit == 0 || limit > |Matching(docs, k)| then |Matching(docs, k)| else limit
  {
    RankingMembers(Matching(docs, k));
  }

  /** Position by position, a listing shows the ranked matching documents. */
  lemma NewestAt(docs: map<Id, JobState>, k: ZKey, limit: nat, i: nat)
    requires i < |Newest(docs, k, limit)|
    ensures i < |Ranking(Matching(docs, k))|
    ensures var id := Ranking(Matching(docs, k))[i];
      id in docs && Newest(docs, k, limit)[i] == docs[id] && Belongs(docs[id], k)
  {
    var m := Matching(docs, k);
    RankingMembers(m);
    assert Ranking(m)[i] in m;
  }

  /** What the exact answer is, said on documents alone: only matching jobs, newest planned first and
      none twice. */
  lemma NewestIsOrdered(docs: map<Id, JobState>, k: ZKey, limit: nat, a: nat, b: nat)
    requires forall id <- docs :: docs[id].jobId == id
    requires a < b < |Newest(docs, k, limit)|
    ensures var r := Newest(docs, k, limit);
      && Belongs(r[a], k) && Belongs(r[b], k)
      && r[a].jobId in docs && docs[r[a].jobId] == r[a]
      && r[a].jobId != r[b].jobId && r[a].datePlanned >= r[b].datePlanned
  {
    NewestAt(docs, k, limit, a);
    NewestAt(docs, k, limit, b);
    RankingDescends(Matching(docs, k));
    RankingDistinct(Matching(docs, k));
    var m := Matching(docs, k);
    assert Above(m, Ranking(m)[a], Ranking(m)[b]);
  }

  /** No matching job that was left out is newer than one that was returned. */
  lemma NewestLeavesOutOlder(docs: map<Id, JobState>, k: ZKey, limit: nat, i: nat, id: Id)
    requires i < |Newest(docs, k, limit)| && id in docs && Belongs(docs[id], k)
    requires docs[id] !in Newest(docs, k, limit)
    ensures Newest(docs, k, limit)[i].datePlanned >= docs[id].datePlanned
  {
    var m := Matching(docs, k);
    NewestAt(docs, k, limit, i);
    RankingMembers(m);
    RankingDescends(m);
    assert id in m && id in Ranking(m);
    var p :| 0 <= p < |Ranking(m)| && Ranking(m)[p] == id;
    if p < |Newest(docs, k, limit)| {
      NewestAt(docs, k, limit, p);
    }
    assert Above(m, Ranking(m)[i], Ranking(m)[p]);
  }
}

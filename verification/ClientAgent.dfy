/** The facade the web application uses: enqueue behind the concurrency gate, and the zombie check. */
module ClientAgent {
  import opened Prelude
  import opened JobStates
  import opened Redis
  import opened JobPersistency
  import opened Agent

  datatype Request = Request(name: string, payload: string, maxTry: int, softTimeout: int, maxConcurrent: int)

  /** Where an exception strikes between taking the lock and the end of the publication. */
  datatype Fault = NoFault | SaveFails | PublishFails

  datatype EnqueueError = ConcurrentLimit | NotImplemented | StoreError | BrokerError

  function EnqueuedState(req: Request, id: Id, user: Option<string>, now: Time): JobState {
    NewState(id, req.name, PENDING, user, now, req.payload)
      .(maxTry := req.maxTry, softTimeout := req.softTimeout, maxConcurrent := req.maxConcurrent)
  }

  /** The answer of the gate, before anything is written. */
  function Gate(s: Store, req: Request, user: Option<string>): Option<EnqueueError> {
    if req.maxConcurrent > 1 then Some(NotImplemented)
    else if req.maxConcurrent == 1 && LockKey(req.name, user) in s.keys then Some(ConcurrentLimit)
    else None
  }

  /** A passed gate: lock taken, state saved as far as the fault lets it, lock given back on a fault. */
  function Admitted(s: Store, req: Request, id: Id, user: Option<string>, now: Time, fault: Fault): Store {
    var key := LockKey(req.name, user);
    var locked := if req.maxConcurrent > 0 then s.(keys := s.keys + {key}) else s;
    var saved := if fault == SaveFails then locked else Saved(locked, EnqueuedState(req, id, user, now));
    if fault != NoFault && req.maxConcurrent > 0 then saved.(keys := saved.keys - {key}) else saved
  }

  function Enqueued(s: Store, req: Request, id: Id, user: Option<string>, now: Time, fault: Fault): Store {
    if Gate(s, req, user).Some? then s else Admitted(s, req, id, user, now, fault)
  }

  predicate IsZombie(j: JobState, now: Time) {
    j.dateStart.Some? && j.softTimeout > 0 && now - j.dateStart.value > 2 * j.softTimeout
  }

  /** What a reader is shown: a STARTED zombie shows as FAILURE. */
  function Seen(j: JobState, now: Time): JobState {
    if j.status == STARTED && IsZombie(j, now)
    then Ended(j.(status := FAILURE, error := Some(WorkerDisappeared)), now)
    else j
  }

  predicate Flips(s: Store, id: Id, now: Time) {
    id in s.docs && s.docs[id].status == STARTED && IsZombie(s.docs[id], now)
  }

  /** Reading a job: a STARTED zombie is rewritten to FAILURE. Its lock is left alone. */
  function Looked(s: Store, id: Id, now: Time): Store {
    if Flips(s, id, now)
    then Saved(s, Seen(s.docs[id], now))
    else s
  }

  /** When the gate lets a request through: never for more than one slot, for one slot exactly when the
      key is free, and always when no slot is asked for. */
  lemma GateMeaning(s: Store, req: Request, user: Option<string>)
    ensures Gate(s, req, user).None? <==>
      req.maxConcurrent <= 0 || (req.maxConcurrent == 1 && LockKey(req.name, user) !in s.keys)
    ensures Gate(s, req, user) == Some(NotImplemented) <==> req.maxConcurrent > 1
    ensures Gate(s, req, user) == Some(ConcurrentLimit) <==>
      req.maxConcurrent == 1 && LockKey(req.name, user) in s.keys
  {
  }

  /** What an admitted enqueue saves: a pending record of the request, planned for now, with nothing of a
      run in it, listed among the pending jobs. Every other record stays. */
  lemma EnqueueSavesTheRequest(s: Store, req: Request, id: Id, user: Option<string>, now: Time)
    requires Gate(s, req, user).None?
    ensures var t := Enqueued(s, req, id, user, now, NoFault);
      && t.docs.Keys == s.docs.Keys + {id}
      && (forall other <- s.docs :: other != id ==> t.docs[other] == s.docs[other])
      && var j := t.docs[id];
      && j.jobId == id && j.name == req.name && j.userUid == user && j.payload == req.payload
      && j.status == PENDING && j.datePlanned == now && j.attempts == 0
      && j.maxTry == req.maxTry && j.softTimeout == req.softTimeout && j.maxConcurrent == req.maxConcurrent
      && j.dateStart.None? && j.dateEnd.None? && j.duration.None? && j.result.None? && j.error.None?
      && j.scheduleName.None? && Zset(t, PendingJobs) == Zset(s, PendingJobs)[id := now]
  {
    var locked := if req.maxConcurrent > 0 then s.(keys := s.keys + {LockKey(req.name, user)}) else s;
    SavedZset(locked, EnqueuedState(req, id, user, now), PendingJobs);
  }

  /** A faulty enqueue leaves every lock as it was. When the save failed it leaves no trace at all; when
      the publication failed the PENDING record stays. */
  lemma FailedEnqueueGivesTheLockBack(s: Store, req: Request, id: Id, user: Option<string>, now: Time, fault: Fault)
    requires fault != NoFault
    ensures var t := Enqueued(s, req, id, user, now, fault);
      && t.keys == s.keys
      && (fault == SaveFails ==> t == s)
      && (fault == PublishFails && Gate(s, req, user).None? ==>
            id in t.docs && t.docs[id].status == PENDING && id in Zset(t, PendingJobs))
  {
    var key := LockKey(req.name, user);
    if Gate(s, req, user).None? && req.maxConcurrent > 0 {
      assert s.keys + {key} - {key} == s.keys;
    }
    var locked := if req.maxConcurrent > 0 then s.(keys := s.keys + {key}) else s;
    SavedZset(locked, EnqueuedState(req, id, user, now), PendingJobs);
  }

  /** An admitted enqueue shuts its scope, and no other: whatever follows it with the same key is refused,
      and a request of another key gets the answer it would have got before. */
  lemma AdmittedShutsItsScope(s: Store, req: Request, id: Id, user: Option<string>, now: Time, next: Request,
      nextUser: Option<string>)
    requires Gate(s, req, user).None? && req.maxConcurrent == 1
    ensures Gate(Enqueued(s, req, id, user, now, NoFault), next, nextUser) ==
      if next.maxConcurrent == 1 && LockKey(next.name, nextUser) == LockKey(req.name, user) then Some(ConcurrentLimit)
      else Gate(s, next, nextUser)
  {
  }

  /** A look rewrites at most the record it is asked for, frees no lock, takes a zombie out of the pending
      index, and leaves nothing for the next look to rewrite, however late it comes. */
  lemma LookSettles(s: Store, id: Id, now: Time, later: Time)
    requires id in s.docs ==> s.docs[id].jobId == id
    ensures var t := Looked(s, id, now);
      && t.keys == s.keys && t.docs.Keys == s.docs.Keys
      && (forall other <- s.docs :: other != id ==> t.docs[other] == s.docs[other])
      && (Flips(s, id, now) ==>
            t.docs[id].status == FAILURE && t.docs[id].dateEnd == Some(now)
            && id !in Zset(t, PendingJobs) && Looked(t, id, later) == t)
      && (!Flips(s, id, now) ==> t == s)
  {
    if Flips(s, id, now) {
      SavedZset(s, Seen(s.docs[id], now), PendingJobs);
    }
  }

  /** The moment from which a look gives a running job up: later than twice its timeout after its start.
      A job without start or timeout, and one that is not running, is never given up. */
  lemma LookRewritesFrom(s: Store, id: Id, now: Time)
    requires id in s.docs && s.docs[id].jobId == id
    ensures var j := s.docs[id];
      Looked(s, id, now).docs[id] != j <==>
        j.status == STARTED && j.dateStart.Some? && j.softTimeout > 0
        && now > j.dateStart.value + 2 * j.softTimeout
    ensures var j, k := s.docs[id], Looked(s, id, now).docs[id];
      k != j ==>
        && k == j.(status := k.status, error := k.error, dateEnd := k.dateEnd, duration := k.duration)
        && k.status == FAILURE && k.error == Some(WorkerDisappeared) && k.dateEnd == Some(now)
        && k.duration == Some(now - j.dateStart.value)
  {
  }

  class ClientAgent {
    const agent: Agent
    const persistency: JobPersistency
    const cache: ClientRedis

    constructor (agent: Agent, persistency: JobPersistency, cache: ClientRedis)
      requires persistency.client == cache
      ensures this.agent == agent && this.persistency == persistency && this.cache == cache
    {
      this.agent, this.persistency, this.cache := agent, persistency, cache;
    }

    method AcquireConcurrencyLock(req: Request, user: Option<string>) returns (refused: Option<EnqueueError>)
      modifies cache
      ensures refused == Gate(old(cache.View()), req, user)
      ensures cache.View() ==
        if refused.None? && req.maxConcurrent > 0
        then old(cache.View()).(keys := old(cache.keys) + {LockKey(req.name, user)})
        else old(cache.View())
    {
      if req.maxConcurrent <= 0 { return None; }
      if req.maxConcurrent > 1 { return Some(NotImplemented); }
      var acquired := cache.SetIfAbsent(LockKey(req.name, user));
      if !acquired {
        assert cache.keys == old(cache.keys);
        return Some(ConcurrentLimit);
      }
      return None;
    }

    method Enqueue(req: Request, id: Id, user: Option<string>, eta: Option<Time>, now: Time, fault: Fault)
      returns (r: Result<Id, EnqueueError>)
      requires persistency.client == cache
      modifies cache, agent`published
      ensures cache.View() == Enqueued(old(cache.View()), req, id, user, now, fault)
      ensures Gate(old(cache.View()), req, user).Some? ==>
        r == Err(Gate(old(cache.View()), req, user).value) && agent.published == old(agent.published)
      ensures Gate(old(cache.View()), req, user).None? ==>
        match fault
        case NoFault =>
          && r == Ok(id)
          && agent.published == old(agent.published) + [Publication(id, req.name, req.payload, user, eta)]
        case SaveFails => r == Err(StoreError) && agent.published == old(agent.published)
        case PublishFails => r == Err(BrokerError) && agent.published == old(agent.published)
    {
      var refused := AcquireConcurrencyLock(req, user);
      if refused.Some? { return Err(refused.value); }
      if fault != SaveFails {
        persistency.Save(EnqueuedState(req, id, user, now));
      }
      if fault == NoFault {
        var _ := agent.CreateJob(req.name, req.payload, user, eta, Some(id), "");
        return Ok(id);
      }
      if req.maxConcurrent > 0 {
        cache.DeleteKey(LockKey(req.name, user));
      }
      return Err(if fault == SaveFails then StoreError else BrokerError);
    }

    method Look(id: Id, now: Time) returns (r: Option<JobState>)
      requires persistency.client == cache
      modifies cache
      ensures cache.View() == Looked(old(cache.View()), id, now)
      ensures r.Some? <==> id in old(cache.docs)
      ensures r.Some? ==> r.value == Seen(old(cache.docs)[id], now)
      ensures r.Some? && r.value.jobId == id ==> r == Get(cache.View(), id)
    {
      r := persistency.Load(id);
      if r.Some? && r.value.status == STARTED && IsZombie(r.value, now) {
        var state := r.value.(status := FAILURE, error := Some(WorkerDisappeared));
        state := Ended(state, now);
        persistency.Save(state);
        r := Some(state);
      }
    }
  }
}

/** The Celery wrapper: handler registry, publication, and the five lifecycle hooks. */
module Agent {
  import opened Prelude
  import opened JobStates
  import opened Redis
  import opened JobPersistency

  /** What a Request class declares and the registry keeps. */
  datatype Handler = Handler(maxTry: int, resume: bool)

  type Registry = map<string, Handler>

  /** `max_retries`: the first attempt is not a retry. */
  function MaxRetries(maxTry: int): nat {
    if maxTry - 1 > 0 then maxTry - 1 else 0
  }

  /** The runs one publication allows: the first attempt and its retries. */
  function RunsPerPublication(reg: Registry, name: string): nat {
    1 + if name in reg then MaxRetries(reg[name].maxTry) else 0
  }

  /** A message: `eta` is the earliest time a worker may take it, none for at once. */
  datatype Publication = Publication(
    jobId: Id,
    name: string,
    payload: string,
    userUid: Option<string>,
    eta: Option<Time>)

  datatype CeleryState = CelerySuccess | CeleryFailure | CeleryRetry | CeleryOther

  /** The keyword arguments a message carries. */
  datatype Kwargs = Kwargs(userUid: Option<string>, payload: Option<string>, scheduleName: Option<string>)

  // ---------- what each hook does to the store ----------

  function Release(s: Store, j: JobState): Store {
    if j.maxConcurrent > 0 then s.(keys := s.keys - {KeyOf(j)}) else s
  }

  function Finish(s: Store, j: JobState): Store {
    Release(Saved(s, j), j)
  }

  function Lookup(s: Store, id: Option<Id>): Option<JobState> {
    if Truthy(id) then Get(s, id.value) else None
  }

  function FreshState(id: Id, task: string, kwargs: Option<Kwargs>, now: Time): JobState {
    var kw := if kwargs.Some? then kwargs.value else Kwargs(None, None, None);
    NewState(id, task, STARTED, kw.userUid, now, if Truthy(kw.payload) then kw.payload.value else EMPTY_PAYLOAD)
      .(scheduleName := kw.scheduleName)
  }

  function Started(j: JobState, now: Time): JobState {
    j.(status := STARTED, dateStart := Some(now), attempts := j.attempts + 1)
  }

  function Prerun(s: Store, id: Option<Id>, task: Option<string>, kwargs: Option<Kwargs>, now: Time): Store {
    if id.None? then s
    else match Get(s, id.value)
      case Some(j) => Saved(s, Started(j, now))
      case None =>
        if task.None? then s else Saved(s, Started(FreshState(id.value, task.value, kwargs, now), now))
  }

  function Completed(j: JobState, state: CeleryState, retval: Option<string>, now: Time): JobState {
    var e := Ended(j, now);
    match state
    case CelerySuccess => e.(status := SUCCESS, result := if retval.Some? then retval else e.result)
    case CeleryFailure => e.(status := FAILURE)
    case _ => e
  }

  function Postrun(s: Store, id: Option<Id>, state: CeleryState, retval: Option<string>, now: Time): Store {
    match Lookup(s, id)
    case None => s
    case Some(j) => if state == CeleryRetry then s else Finish(s, Completed(j, state, retval, now))
  }

  function AsError(text: Option<string>): Option<JobError> {
    if text.Some? then Some(Raised(text.value)) else None
  }

  function Retried(s: Store, id: Option<Id>, reason: Option<string>): Store {
    match Lookup(s, id)
    case None => s
    case Some(j) => Saved(s, j.(status := RETRY, error := AsError(reason)))
  }

  function Failed(s: Store, id: Option<Id>, cause: Option<string>): Store {
    match Lookup(s, id)
    case None => s
    case Some(j) => Finish(s, j.(status := FAILURE, error := AsError(cause)))
  }

  function Revoked(s: Store, id: Option<Id>, now: Time): Store {
    match Lookup(s, id)
    case None => s
    case Some(j) => Finish(s, Ended(j, now).(status := CANCELED))
  }

  class Agent {
    var jobHandlers: Registry
    var published: seq<Publication>

    constructor ()
      ensures jobHandlers == map[] && published == []
    {
      jobHandlers, published := map[], [];
    }

    method RegisterJobHandler(name: string, handler: Handler) returns (maxRetries: nat)
      modifies this
      ensures jobHandlers == old(jobHandlers)[name := handler] && published == old(published)
      ensures maxRetries == if handler.maxTry > 1 then handler.maxTry - 1 else 0
      ensures 1 + maxRetries == RunsPerPublication(jobHandlers, name)
    {
      jobHandlers := jobHandlers[name := handler];
      maxRetries := MaxRetries(handler.maxTry);
    }

    method GetJobHandler(name: string) returns (r: Option<Handler>)
      ensures r == if name in jobHandlers then Some(jobHandlers[name]) else None
    {
      r := if name in jobHandlers then Some(jobHandlers[name]) else None;
    }

    /** `generated` is the id Celery makes up when it is given none. */
    method CreateJob(name: string, payload: string, userUid: Option<string>, eta: Option<Time>, jobId: Option<Id>,
        generated: Id)
      returns (id: Id)
      modifies this`published
      ensures jobId.Some? ==> id == jobId.value
      ensures jobId.None? ==> id == generated
      ensures published == old(published) + [Publication(id, name, payload, userUid, eta)]
    {
      id := if jobId.Some? then jobId.value else generated;
      published := published + [Publication(id, name, payload, userUid, eta)];
    }
  }

  /** The closures `register_lifecycle_hooks` connects, over the store and cache it is given. */
  class LifecycleHooks {
    const persistency: JobPersistency
    const cache: ClientRedis

    constructor (persistency: JobPersistency, cache: ClientRedis)
      requires persistency.client == cache
      ensures this.persistency == persistency && this.cache == cache
    {
      this.persistency, this.cache := persistency, cache;
    }

    method ReleaseConcurrencyLock(j: JobState)
      modifies cache
      ensures cache.View() == Release(old(cache.View()), j)
    {
      if j.maxConcurrent > 0 {
        cache.DeleteKey(KeyOf(j));
      }
    }

    method LookupJob(id: Option<Id>) returns (r: Option<JobState>)
      requires persistency.client == cache
      ensures r == Lookup(cache.View(), id)
    {
      if Truthy(id) {
        r := persistency.Load(id.value);
      } else {
        r := None;
      }
    }

    method OnPrerun(id: Option<Id>, task: Option<string>, kwargs: Option<Kwargs>, now: Time)
      requires persistency.client == cache
      modifies cache
      ensures cache.View() == Prerun(old(cache.View()), id, task, kwargs, now)
    {
      if id.None? { return; }
      var found := persistency.Load(id.value);
      var state: JobState;
      if found.Some? {
        state := found.value;
      } else {
        if task.None? { return; }
        state := FreshState(id.value, task.value, kwargs, now);
      }
      state := state.(status := STARTED);
      state := state.(dateStart := Some(now));
      state := state.(attempts := state.attempts + 1);
      persistency.Save(state);
    }

    method OnPostrun(id: Option<Id>, state: CeleryState, retval: Option<string>, now: Time)
      requires persistency.client == cache
      modifies cache
      ensures cache.View() == Postrun(old(cache.View()), id, state, retval, now)
    {
      var found := LookupJob(id);
      if found.None? || state == CeleryRetry { return; }
      var current := Ended(found.value, now);
      if state == CelerySuccess {
        current := current.(status := SUCCESS);
        if retval.Some? { current := current.(result := retval); }
      } else if state == CeleryFailure {
        current := current.(status := FAILURE);
      }
      persistency.Save(current);
      ReleaseConcurrencyLock(current);
    }

    method OnRetry(id: Option<Id>, reason: Option<string>)
      requires persistency.client == cache
      modifies cache
      ensures cache.View() == Retried(old(cache.View()), id, reason)
    {
      var found := LookupJob(id);
      if found.None? { return; }
      persistency.Save(found.value.(status := RETRY, error := AsError(reason)));
    }

    method OnFailure(id: Option<Id>, cause: Option<string>)
      requires persistency.client == cache
      modifies cache
      ensures cache.View() == Failed(old(cache.View()), id, cause)
    {
      var found := LookupJob(id);
      if found.None? { return; }
      var current := found.value.(status := FAILURE, error := AsError(cause));
      persistency.Save(current);
      ReleaseConcurrencyLock(current);
    }

    method OnRevoked(id: Option<Id>, now: Time)
      requires persistency.client == cache
      modifies cache
      ensures cache.View() == Revoked(old(cache.View()), id, now)
    {
      var found := LookupJob(id);
      if found.None? { return; }
      var current := Ended(found.value, now).(status := CANCELED);
      persistency.Save(current);
      ReleaseConcurrencyLock(current);
    }
  }
}

/** The agent as a state machine: the store, the messages the broker and the workers hold, and the
    events that move them. The hooks, the gate and the sweep are the functions proved of the classes. */
module AgentProtocol {
  import opened Prelude
  import opened JobStates
  import opened Redis
  import opened JobPersistency
  import opened Agent
  import opened JobRecovery
  import opened ClientAgent

  /** Queued in the broker; running in a worker; failed, its postrun signal still to come. */
  datatype Phase = Queued | Running | Closing

  /** One delivery. `left` counts the runs it still allows, the one in progress not included. */
  datatype Message = Message(jobId: Id, name: string, kwargs: Kwargs, left: nat, phase: Phase)

  /** What was ever published under an id. */
  datatype Entry = Entry(name: string, own: Ownership, publications: nat)

  /** `sweeps` holds, for each recovery sweep under way, the records it listed and has yet to reconcile.
      Any number of sweeps may be under way: the sweep lock lapses while a long one still runs. */
  datatype World = World(
    store: Store,
    mail: map<nat, Message>,
    ledger: map<Id, Entry>,
    sweeps: map<nat, seq<JobState>>)

  /** What Celery reports of a delivery. `FailureAndPostrun` is a failure and its postrun as one step;
      the two signals can also come apart. */
  datatype Signal =
    | Begins(now: Time)
    | AsksRetry(reason: Option<string>)
    | Succeeds(retval: Option<string>, now: Time)
    | FailureAndPostrun(cause: Option<string>, now: Time)
    | FailureOnly(cause: Option<string>)
    | PostrunOnly(now: Time)
    | EndsOtherwise(now: Time)
    | IsRevoked(now: Time)

  datatype Event =
    | Enqueue(req: Request, id: Id, user: Option<string>, tag: nat, now: Time, fault: Fault)
    | BeatFires(id: Id, name: string, kwargs: Kwargs, tag: nat)
    | Signals(tag: nat, sig: Signal)
    | Lose(tag: nat)
    | Redeliver(tag: nat, copy: nat)
    | ListOrphans(sweep: nat)
    | Recover(sweep: nat, tag: nat, now: Time)
    | Expire(id: Id)
    | Lapse(key: string)
    | Look(id: Id, now: Time)

  const NOTHING := World(Store(map[], map[], {}), map[], map[], map[])

  ghost predicate Outstanding(w: World, id: Id) {
    exists t <- w.mail :: w.mail[t].jobId == id
  }

  /** A worker only runs names it registered, a run needs budget, and a retry leaves one. */
  predicate Due(reg: Registry, m: Message, sig: Signal) {
    match sig
    case Begins(_) => m.phase == Queued && m.left > 0 && m.name in reg
    case AsksRetry(_) => m.phase == Running && m.left > 0
    case PostrunOnly(_) => m.phase == Closing
    case IsRevoked(_) => m.phase == Queued || m.phase == Running
    case _ => m.phase == Running
  }

  /** What the hooks connected to a signal do to the store. */
  function Signalled(s: Store, m: Message, sig: Signal): Store {
    var id := Some(m.jobId);
    match sig
    case Begins(now) => Prerun(s, id, Some(m.name), Some(m.kwargs), now)
    case AsksRetry(reason) => Postrun(Retried(s, id, reason), id, CeleryRetry, None, 0)
    case Succeeds(retval, now) => Postrun(s, id, CelerySuccess, retval, now)
    case FailureAndPostrun(cause, now) => Postrun(Failed(s, id, cause), id, CeleryFailure, None, now)
    case FailureOnly(cause) => Failed(s, id, cause)
    case PostrunOnly(now) => Postrun(s, id, CeleryFailure, None, now)
    case EndsOtherwise(now) => Postrun(s, id, CeleryOther, None, now)
    case IsRevoked(now) => Revoked(s, id, now)
  }

  /** What becomes of the delivery itself. */
  function Moved(m: Message, sig: Signal): Option<Message> {
    match sig
    case Begins(_) => Some(m.(left := if m.left > 0 then m.left - 1 else 0, phase := Running))
    case AsksRetry(_) => Some(m.(phase := Queued))
    case FailureOnly(_) => Some(m.(left := 0, phase := Closing))
    case _ => None
  }

  /** The record a sweep reconciles next, as it was when the sweep listed it. */
  function Next(w: World, sweep: nat): Option<JobState> {
    if sweep in w.sweeps && w.sweeps[sweep] != [] then Some(w.sweeps[sweep][0]) else None
  }

  predicate IsCurrent(w: World, j: JobState) {
    j.jobId in w.store.docs && w.store.docs[j.jobId] == j
  }

  /** When an event can happen: ids are fresh uuids, tags name deliveries, signals follow the phases,
      a retry needs a run left, and a worker only runs names it registered. */
  predicate Enabled(reg: Registry, w: World, e: Event) {
    match e
    case Enqueue(req, id, _, tag, _, _) =>
      id != "" && id !in w.ledger && tag !in w.mail && (req.name in reg ==> reg[req.name].maxTry == req.maxTry)
    case BeatFires(id, _, _, tag) => id != "" && id !in w.ledger && tag !in w.mail
    case Signals(tag, sig) => tag in w.mail && Due(reg, w.mail[tag], sig)
    case Lose(tag) => tag in w.mail
    case Redeliver(tag, copy) => tag in w.mail && w.mail[tag].phase != Closing && copy !in w.mail
    case ListOrphans(sweep) => sweep !in w.sweeps
    case Recover(sweep, tag, _) =>
      Next(w, sweep).Some? && Next(w, sweep).value.jobId in w.ledger && tag !in w.mail
    case Expire(id) => id in w.store.docs
    case Lapse(key) => true
    case Look(_, _) => true
  }

  function KwargsOf(j: JobState): Kwargs {
    Kwargs(j.userUid, Some(j.payload), None)
  }

  function ApplyEnqueue(reg: Registry, w: World, req: Request, id: Id, user: Option<string>, tag: nat, now: Time,
      fault: Fault)
    : World
  {
    var store := Enqueued(w.store, req, id, user, now, fault);
    if Gate(w.store, req, user).Some? || fault == SaveFails then w.(store := store)
    else
      var entry := Entry(req.name, Ownership(user, None), if fault == NoFault then 1 else 0);
      var kwargs := Kwargs(user, Some(req.payload), None);
      var message := Message(id, req.name, kwargs, RunsPerPublication(reg, req.name), Queued);
      var mail := if fault == NoFault then w.mail[tag := message] else w.mail;
      w.(store := store, mail := mail, ledger := w.ledger[id := entry])
  }

  /** One turn of a sweep: it saves and publishes the record it listed, whatever became of it since. */
  function ApplyRecover(reg: Registry, w: World, sweep: nat, tag: nat, now: Time): World
    requires Next(w, sweep).Some? && Next(w, sweep).value.jobId in w.ledger
  {
    var j := Next(w, sweep).value;
    var w' := w.(store := ReconcileOne(w.store, reg, j, now), sweeps := w.sweeps[sweep := w.sweeps[sweep][1..]]);
    if IsOrphan(j) && Eligible(reg, j) then
      var message := Message(j.jobId, j.name, KwargsOf(j), RunsPerPublication(reg, j.name), Queued);
      var entry := w.ledger[j.jobId].(publications := w.ledger[j.jobId].publications + 1);
      w'.(mail := w.mail[tag := message], ledger := w.ledger[j.jobId := entry])
    else w'
  }

  function Apply(reg: Registry, w: World, e: Event): World
    requires Enabled(reg, w, e)
  {
    match e
    case Enqueue(req, id, user, tag, now, fault) => ApplyEnqueue(reg, w, req, id, user, tag, now, fault)
    case BeatFires(id, name, kwargs, tag) =>
      var message := Message(id, name, kwargs, RunsPerPublication(reg, name), Queued);
      w.(mail := w.mail[tag := message],
         ledger := w.ledger[id := Entry(name, Ownership(kwargs.userUid, kwargs.scheduleName), 1)])
    case Signals(tag, sig) =>
      var moved := Moved(w.mail[tag], sig);
      w.(store := Signalled(w.store, w.mail[tag], sig),
         mail := if moved.Some? then w.mail[tag := moved.value] else w.mail - {tag})
    case Lose(tag) => w.(mail := w.mail - {tag})
    case Redeliver(tag, copy) =>
      var m := w.mail[tag];
      w.(mail := w.mail[copy := m.(left := if m.phase == Running then m.left + 1 else m.left, phase := Queued)])
    case ListOrphans(sweep) =>
      w.(store := AfterListing(w.store, PendingJobs, SWEEP_LIMIT),
         sweeps := w.sweeps[sweep := Listing(w.store, PendingJobs, SWEEP_LIMIT)])
    case Recover(sweep, tag, now) => ApplyRecover(reg, w, sweep, tag, now)
    case Expire(id) => w.(store := Expired(w.store, id))
    case Lapse(key) => w.(store := w.store.(keys := w.store.keys - {key}))
    case Look(id, now) => w.(store := Looked(w.store, id, now))
  }

  // ---------- what the environment promises ----------

  /** Each flag rules out one way the world can misbehave. `gated` splits the lock keys: only jobs
      that take the lock may use a gated key. */
  datatype Rules = Rules(
    gated: set<string>,
    scopesSeparate: bool,
    publishSucceeds: bool,
    failureAtomic: bool,
    postrunDecides: bool,
    noRedelivery: bool,
    resumeAfterLoss: bool,
    listingsCurrent: bool,
    docsOutliveJobs: bool,
    locksOutliveJobs: bool,
    noZombies: bool)

  function AllRules(gated: set<string>): Rules {
    Rules(gated, true, true, true, true, true, true, true, true, true, true)
  }

  predicate Active(w: World, id: Id) {
    id in w.store.docs && w.store.docs[id].maxConcurrent > 0 && !IsTerminal(w.store.docs[id].status)
  }

  /** A lock-taking job that is not over: its record is not terminal, or a worker or the broker still
      holds a delivery of it. */
  ghost predicate Busy(w: World, id: Id) {
    id in w.store.docs && w.store.docs[id].maxConcurrent > 0 &&
    (!IsTerminal(w.store.docs[id].status) || Outstanding(w, id))
  }

  ghost predicate Holds(w: World, id: Id, key: string) {
    Busy(w, id) && KeyOf(w.store.docs[id]) == key
  }

  ghost predicate Permits(r: Rules, w: World, e: Event) {
    match e
    case Enqueue(req, _, user, _, _, fault) =>
      && (r.publishSucceeds ==> fault == NoFault)
      && (r.scopesSeparate ==> (req.maxConcurrent > 0 <==> LockKey(req.name, user) in r.gated))
    case BeatFires(_, name, kwargs, _) => r.scopesSeparate ==> LockKey(name, kwargs.userUid) !in r.gated
    case Signals(_, sig) =>
      && (r.failureAtomic ==> !sig.FailureOnly? && !sig.PostrunOnly?)
      && (r.postrunDecides ==> !sig.EndsOtherwise?)
    case Redeliver(_, _) => !r.noRedelivery
    case Recover(sweep, _, _) =>
      Next(w, sweep).Some? && IsOrphan(Next(w, sweep).value) ==>
        && (r.resumeAfterLoss ==> !Outstanding(w, Next(w, sweep).value.jobId))
        && (r.listingsCurrent ==> IsCurrent(w, Next(w, sweep).value))
    case Expire(id) => r.docsOutliveJobs ==> !Busy(w, id)
    case Lapse(key) => r.locksOutliveJobs ==> forall id <- w.store.docs :: !Holds(w, id, key)
    case Look(id, now) => r.noZombies ==> !Flips(w.store, id, now)
    case _ => true
  }

  function Run(reg: Registry, w: World, events: seq<Event>): Option<World>
    decreases events
  {
    if events == [] then Some(w)
    else if !Enabled(reg, w, events[0]) then None
    else Run(reg, Apply(reg, w, events[0]), events[1..])
  }

  /** Every event can happen when its turn comes, and the rules allow it. */
  ghost predicate Follows(reg: Registry, r: Rules, w: World, events: seq<Event>)
    decreases events
  {
    events == [] ||
    (Enabled(reg, w, events[0]) && Permits(r, w, events[0]) && Follows(reg, r, Apply(reg, w, events[0]), events[1..]))
  }

  /** The world at the end of a run that follows the rules. */
  ghost predicate Reaches(reg: Registry, r: Rules, events: seq<Event>, w: World) {
    Follows(reg, r, NOTHING, events) && Run(reg, NOTHING, events) == Some(w)
  }
}

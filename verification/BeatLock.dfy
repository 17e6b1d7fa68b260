/** The single-instance guard of the scheduler: a lock with a time to live, kept alive by a heartbeat. */
module BeatLock {
  import opened Prelude

  type Time = int
  type Pid = nat

  /** In milliseconds. */
  const TTL: Time := 60_000

  /** Redis treats an expired key as absent. */
  predicate Held(expiry: Option<Time>, now: Time) {
    expiry.Some? && now < expiry.value
  }

  class BeatKey {
    var expiry: Option<Time>

    constructor ()
      ensures expiry == None
    {
      expiry := None;
    }

    method SetIfAbsent(now: Time) returns (stored: bool)
      modifies this
      ensures stored == !Held(old(expiry), now)
      ensures expiry == if stored then Some(now + TTL) else old(expiry)
    {
      stored := !(expiry.Some? && now < expiry.value);
      if stored { expiry := Some(now + TTL); }
    }

    method Set(now: Time)
      modifies this
      ensures expiry == Some(now + TTL)
    {
      expiry := Some(now + TTL);
    }

    method Delete()
      modifies this
      ensures expiry == None
    {
      expiry := None;
    }
  }

  /** Successive lock writes less than the time to live apart. */
  ghost predicate Paced(start: Time, wakes: seq<Time>)
    decreases wakes
  {
    wakes == [] || (start <= wakes[0] < start + TTL && Paced(wakes[0], wakes[1..]))
  }

  function LastWrite(start: Time, wakes: seq<Time>): Time {
    if wakes == [] then start else wakes[|wakes| - 1]
  }

  /** The heartbeat thread: it wakes at the given times, until the stop event is set. */
  method RefreshLock(key: BeatKey, wakes: seq<Time>)
    modifies key
    ensures key.expiry == if wakes == [] then old(key.expiry) else Some(LastWrite(0, wakes) + TTL)
  {
    for i := 0 to |wakes|
      invariant key.expiry == if i == 0 then old(key.expiry) else Some(wakes[i - 1] + TTL)
    {
      key.Set(wakes[i]);
    }
  }

  /** `beat`, run with nobody else writing. */
  method Beat(key: BeatKey, now: Time, wakes: seq<Time>) returns (scheduled: bool)
    modifies key
    ensures scheduled == !Held(old(key.expiry), now)
    ensures key.expiry == if scheduled then None else old(key.expiry)
  {
    scheduled := key.SetIfAbsent(now);
    if !scheduled { return; }
    RefreshLock(key, wakes);
    key.Delete();
  }

  /** A paced heartbeat never lets the key lapse: every moment up to the last write plus the time to
      live is covered by a write. */
  lemma {:induction false} PacedHeartbeatCovers(start: Time, wakes: seq<Time>, t: Time)
    requires Paced(start, wakes) && start <= t < LastWrite(start, wakes) + TTL
    ensures exists write <- [start] + wakes :: write <= t < write + TTL
    decreases wakes
  {
    if wakes == [] || t < start + TTL {
      assert start in [start] + wakes;
    } else {
      assert LastWrite(wakes[0], wakes[1..]) == LastWrite(start, wakes);
      PacedHeartbeatCovers(wakes[0], wakes[1..], t);
      var write :| write in [wakes[0]] + wakes[1..] && write <= t < write + TTL;
      assert write in [start] + wakes;
    }
  }

  // ---------- any number of beat processes ----------

  /** A process between taking the lock and deleting it knows when it last wrote it. `Stopping` has
      left the scheduler but not yet deleted the key; the heartbeat of a `Finished` one may still write. */
  datatype Proc = Scheduling(lastWrite: Time) | Stopping(lastWrite: Time) | Finished | Refused | Crashed

  datatype World = World(now: Time, lock: Option<Time>, procs: map<Pid, Proc>)

  datatype Event =
    | Boot(p: Pid)
    | Heartbeat(p: Pid)
    | SchedulerReturns(p: Pid)
    | DeleteKey(p: Pid)
    | Crash(p: Pid)
    | Tick(d: nat)

  predicate IsHolder(w: World, p: Pid) {
    p in w.procs && (w.procs[p].Scheduling? || w.procs[p].Stopping?)
  }

  predicate Enabled(w: World, e: Event) {
    match e
    case Boot(p) => p !in w.procs
    case Heartbeat(p) => IsHolder(w, p) || (p in w.procs && w.procs[p].Finished?)
    case SchedulerReturns(p) => p in w.procs && w.procs[p].Scheduling?
    case DeleteKey(p) => p in w.procs && w.procs[p].Stopping?
    case Crash(p) => p in w.procs
    case Tick(_) => true
  }

  function Apply(w: World, e: Event): World
    requires Enabled(w, e)
  {
    match e
    case Boot(p) =>
      if Held(w.lock, w.now) then w.(procs := w.procs[p := Refused])
      else w.(lock := Some(w.now + TTL), procs := w.procs[p := Scheduling(w.now)])
    case Heartbeat(p) =>
      var proc := w.procs[p];
      w.(lock := Some(w.now + TTL),
         procs := w.procs[p := if proc.Finished? then Finished else proc.(lastWrite := w.now)])
    case SchedulerReturns(p) => w.(procs := w.procs[p := Stopping(w.procs[p].lastWrite)])
    case DeleteKey(p) => w.(lock := None, procs := w.procs[p := Finished])
    case Crash(p) => w.(procs := w.procs[p := Crashed])
    case Tick(d) => w.(now := w.now + d)
  }

  /** No holder, from taking the lock to deleting it, lets a full time to live pass since its last
      write. The lax form asks this of scheduling processes only. */
  ghost predicate InPace(w: World, lax: bool) {
    forall p | IsHolder(w, p) && (lax ==> w.procs[p].Scheduling?) :: w.now < w.procs[p].lastWrite + TTL
  }

  ghost predicate PacedRun(w: World, events: seq<Event>, lax: bool)
    decreases events
  {
    InPace(w, lax) &&
    (events == [] || (Enabled(w, events[0]) && PacedRun(Apply(w, events[0]), events[1..], lax)))
  }

  function Run(w: World, events: seq<Event>): Option<World>
    decreases events
  {
    if events == [] then Some(w)
    else if !Enabled(w, events[0]) then None
    else Run(Apply(w, events[0]), events[1..])
  }

  ghost predicate OneScheduler(w: World) {
    forall p, q | p in w.procs && q in w.procs && w.procs[p].Scheduling? && w.procs[q].Scheduling? :: p == q
  }

  /** At most one holder, and its last write still covers the key. */
  ghost predicate Guarded(w: World) {
    && (forall p, q | IsHolder(w, p) && IsHolder(w, q) :: p == q)
    && (forall p | IsHolder(w, p) ::
          && w.lock.Some? && w.lock.value >= w.procs[p].lastWrite + TTL
          && w.procs[p].lastWrite <= w.now)
  }

  lemma EventKeepsGuarded(w: World, e: Event)
    requires Enabled(w, e) && Guarded(w) && InPace(w, false)
    ensures Guarded(Apply(w, e))
  {
    var w' := Apply(w, e);
    forall p | IsHolder(w', p)
      ensures w'.lock.Some? && w'.lock.value >= w'.procs[p].lastWrite + TTL && w'.procs[p].lastWrite <= w'.now
    {
      if e.DeleteKey? { assert IsHolder(w, e.p) && IsHolder(w, p); }
    }
    forall p, q | IsHolder(w', p) && IsHolder(w', q) ensures p == q {
      assert e.Boot? || (IsHolder(w, p) && IsHolder(w, q));
      if e.Boot? {
        assert p == e.p || IsHolder(w, p);
        assert q == e.p || IsHolder(w, q);
      }
    }
  }

  lemma {:induction false} PacedRunKeepsGuarded(w: World, events: seq<Event>)
    requires Guarded(w) && PacedRun(w, events, false)
    ensures Run(w, events).Some? && Guarded(Run(w, events).value)
    decreases events
  {
    if events != [] {
      EventKeepsGuarded(w, events[0]);
      PacedRunKeepsGuarded(Apply(w, events[0]), events[1..]);
    }
  }

  /** Over any interleaving of any number of processes that keep the pace, no two schedule at once,
      crashes and late heartbeat writes included. */
  lemma SingleScheduler(start: Time, events: seq<Event>)
    requires PacedRun(World(start, None, map[]), events, false)
    ensures Run(World(start, None, map[]), events).Some?
    ensures OneScheduler(Run(World(start, None, map[]), events).value)
  {
    PacedRunKeepsGuarded(World(start, None, map[]), events);
  }

  lemma {:induction false} Append(w0: World, events: seq<Event>, lax: bool, w: World, e: Event)
    requires PacedRun(w0, events, lax) && Run(w0, events) == Some(w)
    requires Enabled(w, e) && InPace(Apply(w, e), lax)
    ensures PacedRun(w0, events + [e], lax) && Run(w0, events + [e]) == Some(Apply(w, e))
    decreases events
  {
    if events == [] {
      assert [] + [e] == [e] && [e][1..] == [];
    } else {
      Append(Apply(w0, events[0]), events[1..], lax, w, e);
      assert (events + [e])[1..] == events[1..] + [e];
    }
  }

  /** One more event of a run in the lax pace. */
  lemma Then(events: seq<Event>, w: World, e: Event) returns (events': seq<Event>, w': World)
    requires PacedRun(World(0, None, map[]), events, true) && Run(World(0, None, map[]), events) == Some(w)
    requires Enabled(w, e) && InPace(Apply(w, e), true)
    ensures PacedRun(World(0, None, map[]), events', true) && Run(World(0, None, map[]), events') == Some(w')
    ensures w' == Apply(w, e)
  {
    Append(World(0, None, map[]), events, true, w, e);
    events', w' := events + [e], Apply(w, e);
  }

  /** How long a holder may stall: a newcomer schedules beside it exactly when a full time to live has
      passed since its last write. */
  lemma StalledHeartbeatBreaks(w: World, p: Pid, q: Pid, d: nat)
    requires p in w.procs && w.procs[p].Scheduling? && w.lock == Some(w.procs[p].lastWrite + TTL)
    requires q !in w.procs
    ensures var w' := Apply(Apply(w, Tick(d)), Boot(q));
      && w'.procs[p].Scheduling?
      && (w'.procs[q].Scheduling? <==> w.now + d >= w.procs[p].lastWrite + TTL)
      && (OneScheduler(w') ==> w.now + d < w.procs[p].lastWrite + TTL)
  {
  }

  /** A first holder that stalls is such a run. */
  lemma FirstHolderStalls(start: Time, p: Pid, q: Pid, d: nat)
    requires p != q && d >= TTL
    ensures var events := [Boot(p), Tick(d), Boot(q)];
      Run(World(start, None, map[]), events).Some? && !OneScheduler(Run(World(start, None, map[]), events).value)
  {
    var w0 := World(start, None, map[]);
    var w1 := Apply(w0, Boot(p));
    StalledHeartbeatBreaks(w1, p, q, d);
    var w2 := Apply(w1, Tick(d));
    var events := [Boot(p), Tick(d), Boot(q)];
    assert events[1..][1..] == [Boot(q)] && [Boot(q)][1..] == [];
    assert Run(w2, [Boot(q)]) == Some(Apply(w2, Boot(q)));
    assert Run(w1, events[1..]) == Run(w2, [Boot(q)]);
  }

  lemma StopsButDoesNotDelete() returns (es: seq<Event>, w: World)
    ensures PacedRun(World(0, None, map[]), es, true) && Run(World(0, None, map[]), es) == Some(w)
    ensures w == World(TTL, Some(TTL), map[0 := Stopping(0)])
  {
    es, w := [], World(0, None, map[]);
    es, w := Then(es, w, Boot(0));
    es, w := Then(es, w, SchedulerReturns(0));
    es, w := Then(es, w, Tick(TTL));
  }

  /** The pace is needed up to the deletion, not only while scheduling: a holder that has left the
      scheduler but deletes late removes its successor's key. */
  lemma LateDeletionBreaks()
    ensures exists events, w ::
      PacedRun(World(0, None, map[]), events, true) && Run(World(0, None, map[]), events) == Some(w) && !OneScheduler(w)
  {
    var es, w := StopsButDoesNotDelete();
    var es1, w1 := Then(es, w, Boot(1));
    assert w1 == World(TTL, Some(2 * TTL), map[0 := Stopping(0), 1 := Scheduling(TTL)]);
    DeletesTheSuccessorsKey(es1, w1);
  }

  lemma DeletesTheSuccessorsKey(es: seq<Event>, w: World)
    requires PacedRun(World(0, None, map[]), es, true) && Run(World(0, None, map[]), es) == Some(w)
    requires w == World(TTL, Some(2 * TTL), map[0 := Stopping(0), 1 := Scheduling(TTL)])
    ensures exists events, w' ::
      && PacedRun(World(0, None, map[]), events, true) && Run(World(0, None, map[]), events) == Some(w')
      && !OneScheduler(w')
  {
    var es1, w1 := Then(es, w, DeleteKey(0));
    var es2, w2 := Then(es1, w1, Boot(2));
    assert w2.procs[1].Scheduling? && w2.procs[2].Scheduling?;
  }

  /** A heartbeat that lands after the deletion endangers nobody, but shuts newcomers out for the time
      to live. */
  lemma LateHeartbeatOnlyShutsOut(w: World, p: Pid, q: Pid, d: nat)
    requires p in w.procs && w.procs[p].Finished? && q !in w.procs && d < TTL
    ensures var w1 := Apply(Apply(w, Heartbeat(p)), Tick(d));
      (forall x :: IsHolder(w1, x) <==> IsHolder(w, x)) && Apply(w1, Boot(q)).procs[q] == Refused
  {
  }

  /** A crashed holder is replaced as soon as its last write has lapsed. */
  lemma CrashedHolderIsReplaced(w: World, p: Pid, q: Pid, d: nat)
    requires IsHolder(w, p) && w.lock == Some(w.procs[p].lastWrite + TTL) && p != q && q !in w.procs
    requires w.now + d >= w.procs[p].lastWrite + TTL
    ensures Apply(Apply(Apply(w, Crash(p)), Tick(d)), Boot(q)).procs[q] == Scheduling(w.now + d)
  {
  }
}

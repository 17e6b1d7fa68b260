/** The periodic sweep that emails due reminders, and how its windows tile time. */
module Reminders {
  import opened Prelude

  type Time = int

  /** In seconds. */
  const DEFAULT_WINDOW: Time := 60

  datatype Reminder = Reminder(eventKey: string, owner: Option<string>, triggerAt: Time)

  datatype Counts = Counts(total: nat, sent: nat, failed: nat)

  predicate Owned(r: Reminder) {
    r.owner.Some? && r.owner.value != ""
  }

  predicate IsDue(r: Reminder, start: Time, now: Time) {
    start < r.triggerAt <= now
  }

  function Due(active: seq<Reminder>, start: Time, now: Time): seq<Reminder> {
    if active == [] then []
    else if IsDue(active[0], start, now) then [active[0]] + Due(active[1..], start, now)
    else Due(active[1..], start, now)
  }

  /** The reminders whose owner is among `owners`. */
  function Of(rs: seq<Reminder>, owners: set<string>): seq<Reminder> {
    if rs == [] then []
    else if Owned(rs[0]) && rs[0].owner.value in owners then [rs[0]] + Of(rs[1..], owners)
    else Of(rs[1..], owners)
  }

  function OwnersOf(rs: seq<Reminder>): set<string> {
    set r | r in rs && Owned(r) :: r.owner.value
  }

  /** What the mail system answers: which owners' clients can be built, which messages go out. */
  datatype Mailer = Mailer(ready: set<string>, accepts: set<Reminder>)

  function Delivered(mailer: Mailer, rs: seq<Reminder>): nat {
    if rs == [] then 0
    else
      var goesOut := Owned(rs[0]) && rs[0].owner.value in mailer.ready && rs[0] in mailer.accepts;
      (if goesOut then 1 else 0) + Delivered(mailer, rs[1..])
  }

  // ---------- splitting by owner ----------

  lemma {:induction false} OfAppend(a: seq<Reminder>, b: seq<Reminder>, owners: set<string>)
    ensures Of(a + b, owners) == Of(a, owners) + Of(b, owners)
  {
    if a == [] {
      assert a + b == b;
    } else {
      OfAppend(a[1..], b, owners);
      var all, r := a + b, a[0];
      assert all[0] == r && all[1..] == a[1..] + b;
      var x, y := Of(a[1..], owners), Of(b, owners);
      assert [r] + (x + y) == [r] + x + y;
    }
  }

  lemma {:induction false} DeliveredAppend(mailer: Mailer, a: seq<Reminder>, b: seq<Reminder>)
    ensures Delivered(mailer, a + b) == Delivered(mailer, a) + Delivered(mailer, b)
  {
    if a == [] { assert a + b == b; } else {
      DeliveredAppend(mailer, a[1..], b);
      assert (a + b)[1..] == a[1..] + b;
    }
  }

  lemma {:induction false} OneMoreOwner(rs: seq<Reminder>, done: set<string>, o: string)
    requires o !in done
    ensures multiset(Of(rs, done + {o})) == multiset(Of(rs, done)) + multiset(Of(rs, {o}))
    ensures |Of(rs, done + {o})| == |Of(rs, done)| + |Of(rs, {o})|
  {
    if rs != [] { OneMoreOwner(rs[1..], done, o); }
  }

  lemma DeliveredCons(mailer: Mailer, r: Reminder, rs: seq<Reminder>)
    ensures Delivered(mailer, [r] + rs) == Delivered(mailer, [r]) + Delivered(mailer, rs)
  {
    DeliveredAppend(mailer, [r], rs);
  }

  lemma {:induction false} OneMoreOwnerDelivered(mailer: Mailer, rs: seq<Reminder>, done: set<string>, o: string)
    requires o !in done
    ensures Delivered(mailer, Of(rs, done + {o})) == Delivered(mailer, Of(rs, done)) + Delivered(mailer, Of(rs, {o}))
  {
    if rs != [] {
      OneMoreOwnerDelivered(mailer, rs[1..], done, o);
      if Owned(rs[0]) && rs[0].owner.value in done + {o} {
        DeliveredCons(mailer, rs[0], Of(rs[1..], done + {o}));
        DeliveredCons(mailer, rs[0], Of(rs[1..], done));
        DeliveredCons(mailer, rs[0], Of(rs[1..], {o}));
      }
    }
  }

  lemma {:induction false} NotReadyNotDelivered(mailer: Mailer, rs: seq<Reminder>, o: string)
    requires o !in mailer.ready
    ensures Delivered(mailer, Of(rs, {o})) == 0
  {
    if rs != [] {
      NotReadyNotDelivered(mailer, rs[1..], o);
      var rest := Of(rs[1..], {o});
      assert ([rs[0]] + rest)[1..] == rest;
    }
  }

  lemma {:induction false} OfNobody(rs: seq<Reminder>)
    ensures Of(rs, {}) == []
  {
    if rs != [] { OfNobody(rs[1..]); }
  }

  lemma {:induction false} OfAbsent(rs: seq<Reminder>, o: string)
    requires o !in OwnersOf(rs)
    ensures Of(rs, {o}) == []
  {
    if rs != [] {
      assert OwnersOf(rs[1..]) <= OwnersOf(rs);
      OfAbsent(rs[1..], o);
    }
  }

  lemma {:induction false} AllOf(rs: seq<Reminder>, o: string)
    ensures forall r <- Of(rs, {o}) :: Owned(r) && r.owner.value == o
  {
    if rs != [] { AllOf(rs[1..], o); }
  }

  lemma DeliveredIsGrouped(mailer: Mailer, before: seq<Reminder>, group: seq<Reminder>, due: seq<Reminder>, o: string)
    requires group == Of(due, {o})
    ensures Delivered(mailer, before + group) == Delivered(mailer, before) + Delivered(mailer, Of(due, {o}))
  {
    DeliveredAppend(mailer, before, group);
  }

  /** The positions of the reminders whose owner's client could be built and accepted the message. */
  function Accepted(mailer: Mailer, rs: seq<Reminder>): set<nat> {
    set i: nat | i < |rs| && rs[i].owner.Some? && rs[i].owner.value in mailer.ready && rs[i] in mailer.accepts
  }

  lemma AcceptedSnoc(mailer: Mailer, init: seq<Reminder>, r: Reminder)
    requires Owned(r)
    ensures |Accepted(mailer, init + [r])| == |Accepted(mailer, init)| + Delivered(mailer, [r])
  {
    var all := init + [r];
    var before, after := Accepted(mailer, init), Accepted(mailer, all);
    forall i | 0 <= i < |init| ensures i in after <==> i in before { assert all[i] == init[i]; }
    assert all[|init|] == r && |init| !in before;
    if |init| in after { assert after == before + {|init|}; } else { assert after == before; }
  }

  lemma {:induction false} DeliveredIsCount(mailer: Mailer, rs: seq<Reminder>)
    requires forall r <- rs :: Owned(r)
    ensures Delivered(mailer, rs) == |Accepted(mailer, rs)|
  {
    if rs == [] {
      assert Accepted(mailer, rs) == {};
    } else {
      var init, r := rs[..|rs| - 1], rs[|rs| - 1];
      assert rs == init + [r];
      DeliveredIsCount(mailer, init);
      DeliveredAppend(mailer, init, [r]);
      AcceptedSnoc(mailer, init, r);
    }
  }

  // ---------- the sweep ----------

  class ReminderAgent {
    /** The watermark in the cache; absent on the first run and once its time to live is over. */
    var lastRun: Option<Time>

    constructor ()
      ensures lastRun == None
    {
      lastRun := None;
    }

    method ReadReminderLastRun(now: Time) returns (start: Time)
      ensures start == WindowStart(lastRun, now)
    {
      if lastRun.Some? { return lastRun.value; }
      return now - DEFAULT_WINDOW;
    }

    method GroupByOwner(due: seq<Reminder>) returns (byOwner: map<string, seq<Reminder>>)
      ensures byOwner.Keys == OwnersOf(due)
      ensures forall o <- byOwner :: byOwner[o] == Of(due, {o})
    {
      byOwner := map[];
      for i := 0 to |due|
        invariant byOwner.Keys == OwnersOf(due[..i])
        invariant forall o <- byOwner :: byOwner[o] == Of(due[..i], {o})
      {
        var r := due[i];
        assert due[..i + 1] == due[..i] + [r];
        forall o
          ensures Of(due[..i] + [r], {o}) == Of(due[..i], {o}) + if Owned(r) && r.owner.value == o then [r] else []
        {
          OfAppend(due[..i], [r], {o});
        }
        if Owned(r) {
          var o := r.owner.value;
          if o !in byOwner { OfAbsent(due[..i], o); }
          byOwner := byOwner[o := (if o in byOwner then byOwner[o] else []) + [r]];
        }
      }
      assert due[..|due|] == due;
    }

    /** The sends of one owner, best effort. */
    method SendAll(mailer: Mailer, o: string, rs: seq<Reminder>) returns (sent: nat, failed: nat)
      requires forall r <- rs :: Owned(r) && r.owner.value == o
      requires o in mailer.ready
      ensures sent == Delivered(mailer, rs) && sent + failed == |rs|
    {
      sent, failed := 0, 0;
      for i := 0 to |rs|
        invariant sent == Delivered(mailer, rs[..i]) && sent + failed == i
      {
        assert rs[..i + 1] == rs[..i] + [rs[i]];
        DeliveredAppend(mailer, rs[..i], [rs[i]]);
        if rs[i] in mailer.accepts { sent := sent + 1; } else { failed := failed + 1; }
      }
      assert rs[..|rs|] == rs;
    }

    /** `attempted` lists the reminders that were sent or counted as failed. */
    method SendDueEmailReminders(now: Time, active: seq<Reminder>, mailer: Mailer)
      returns (counts: Counts, attempted: seq<Reminder>)
      modifies this
      ensures lastRun == Some(now)
      ensures var due := Due(active, WindowStart(old(lastRun), now), now);
        && counts.total == |due|
        && counts.sent == Delivered(mailer, Of(due, OwnersOf(due)))
        && counts.sent + counts.failed == |Of(due, OwnersOf(due))| == |attempted|
        && (forall r <- attempted :: r.owner.Some? && r.owner.value != "")
        && counts.sent == |Accepted(mailer, attempted)|
        && multiset(attempted) == multiset(Of(due, OwnersOf(due)))
    {
      var start := ReadReminderLastRun(now);
      var due := Due(active, start, now);
      var byOwner := GroupByOwner(due);
      var sent: nat, failed: nat := 0, 0;
      attempted := [];
      var todo := byOwner.Keys;
      OfNobody(due);
      assert OwnersOf(due) - todo == {};
      while todo != {}
        invariant todo <= OwnersOf(due)
        invariant sent == Delivered(mailer, Of(due, OwnersOf(due) - todo))
        invariant sent + failed == |Of(due, OwnersOf(due) - todo)| == |attempted|
        invariant forall r <- attempted :: Owned(r)
        invariant sent == Delivered(mailer, attempted)
        invariant multiset(attempted) == multiset(Of(due, OwnersOf(due) - todo))
        decreases todo
      {
        var o :| o in todo;
        OneMoreOwner(due, OwnersOf(due) - todo, o);
        OneMoreOwnerDelivered(mailer, due, OwnersOf(due) - todo, o);
        assert OwnersOf(due) - todo + {o} == OwnersOf(due) - (todo - {o});
        AllOf(due, o);
        if o in mailer.ready {
          var s, f := SendAll(mailer, o, byOwner[o]);
          sent, failed := sent + s, failed + f;
        } else {
          NotReadyNotDelivered(mailer, due, o);
          failed := failed + |byOwner[o]|;
        }
        DeliveredIsGrouped(mailer, attempted, byOwner[o], due, o);
        attempted := attempted + byOwner[o];
        todo := todo - {o};
      }
      assert OwnersOf(due) - {} == OwnersOf(due);
      DeliveredIsCount(mailer, attempted);
      counts := Counts(|due|, sent, failed);
      lastRun := Some(now);
    }
  }

  function WindowStart(lastRun: Option<Time>, now: Time): Time {
    if lastRun.Some? then lastRun.value else now - DEFAULT_WINDOW
  }

  // ---------- the windows tile time ----------

  /** A sweep, with what the reminder query returned. An interrupted one never wrote the watermark. */
  datatype Sweep = Sweep(now: Time, active: seq<Reminder>, completed: bool)

  function MarkAfter(mark: Option<Time>, s: Sweep): Option<Time> {
    if s.completed then Some(s.now) else mark
  }

  function AttemptsIn(mark: Option<Time>, s: Sweep, r: Reminder): nat {
    var due := Due(s.active, WindowStart(mark, s.now), s.now);
    multiset(Of(due, OwnersOf(due)))[r]
  }

  /** How often the completed sweeps of a run attempt a reminder. */
  function Attempts(mark: Option<Time>, sweeps: seq<Sweep>, r: Reminder): nat
    decreases sweeps
  {
    if sweeps == [] then 0
    else
      var here := if sweeps[0].completed then AttemptsIn(mark, sweeps[0], r) else 0;
      here + Attempts(MarkAfter(mark, sweeps[0]), sweeps[1..], r)
  }

  /** Sweeps at increasing times, none before the watermark. */
  predicate Increasing(from: Option<Time>, sweeps: seq<Sweep>)
    decreases sweeps
  {
    sweeps == [] || ((from.Some? ==> from.value <= sweeps[0].now) && Increasing(Some(sweeps[0].now), sweeps[1..]))
  }

  /** The query shows the reminder, once, whenever it triggers in the window. */
  predicate QueryShows(mark: Option<Time>, sweeps: seq<Sweep>, r: Reminder)
    decreases sweeps
  {
    sweeps == [] ||
    (var s := sweeps[0];
     && (IsDue(r, WindowStart(mark, s.now), s.now) ==> multiset(s.active)[r] == 1)
     && QueryShows(MarkAfter(mark, s), sweeps[1..], r))
  }

  /** Where the first completed sweep's window starts, and the time of the last completed one. */
  function Covered(mark: Option<Time>, sweeps: seq<Sweep>): Option<(Time, Time)>
    decreases sweeps
  {
    if sweeps == [] then None
    else
      var s := sweeps[0];
      var rest := Covered(MarkAfter(mark, s), sweeps[1..]);
      if !s.completed then rest
      else Some((WindowStart(mark, s.now), if rest.Some? then rest.value.1 else s.now))
  }

  lemma {:induction false} DueCount(active: seq<Reminder>, start: Time, now: Time, r: Reminder)
    ensures multiset(Due(active, start, now))[r] == if IsDue(r, start, now) then multiset(active)[r] else 0
  {
    if active != [] {
      DueCount(active[1..], start, now, r);
      assert active == [active[0]] + active[1..];
    }
  }

  lemma {:induction false} OfCount(rs: seq<Reminder>, owners: set<string>, r: Reminder)
    ensures multiset(Of(rs, owners))[r] == if Owned(r) && r.owner.value in owners then multiset(rs)[r] else 0
  {
    if rs != [] {
      OfCount(rs[1..], owners, r);
      assert rs == [rs[0]] + rs[1..];
    }
  }

  /** An owned reminder is attempted in a sweep as often as the query shows it, when it is due. */
  lemma AttemptsInWindow(mark: Option<Time>, s: Sweep, r: Reminder)
    requires Owned(r)
    ensures AttemptsIn(mark, s, r) == if IsDue(r, WindowStart(mark, s.now), s.now) then multiset(s.active)[r] else 0
  {
    var due := Due(s.active, WindowStart(mark, s.now), s.now);
    DueCount(s.active, WindowStart(mark, s.now), s.now, r);
    OfCount(due, OwnersOf(due), r);
    if r !in due { assert multiset(due)[r] == 0; } else { assert r.owner.value in OwnersOf(due); }
  }

  lemma {:induction false} LaterMarksCoverLater(mark: Time, sweeps: seq<Sweep>, from: Time)
    requires Increasing(Some(from), sweeps) && mark <= from
    ensures var c := Covered(Some(mark), sweeps);
      c.Some? ==> c.value.0 == mark <= c.value.1
    decreases sweeps
  {
    if sweeps != [] {
      LaterMarksCoverLater(if sweeps[0].completed then sweeps[0].now else mark, sweeps[1..], sweeps[0].now);
    }
  }

  /** Over any sweeps at increasing times whose watermark stays in the cache, every owned reminder that
      triggers after the first completed window starts and up to the last completed sweep is attempted
      in exactly one completed sweep, and no other reminder in any. */
  lemma {:induction false} EveryReminderOnce(mark: Option<Time>, sweeps: seq<Sweep>, r: Reminder)
    requires Increasing(mark, sweeps) && QueryShows(mark, sweeps, r) && Owned(r)
    ensures Attempts(mark, sweeps, r) ==
      var c := Covered(mark, sweeps);
      if c.Some? && c.value.0 < r.triggerAt <= c.value.1 then 1 else 0
    decreases sweeps
  {
    if sweeps != [] {
      var s := sweeps[0];
      AttemptsInWindow(mark, s, r);
      if s.completed {
        LaterMarksCoverLater(s.now, sweeps[1..], s.now);
        EveryReminderOnce(Some(s.now), sweeps[1..], r);
      } else {
        IncreasingFromEarlier(mark, s.now, sweeps[1..]);
        EveryReminderOnce(mark, sweeps[1..], r);
      }
    }
  }

  lemma IncreasingFromEarlier(mark: Option<Time>, from: Time, sweeps: seq<Sweep>)
    requires Increasing(Some(from), sweeps) && (mark.Some? ==> mark.value <= from)
    ensures Increasing(mark, sweeps)
  {
  }

  /** When the watermark has expired, what triggered between it and the default window is lost. */
  lemma ExpiredWatermarkLoses(last: Time, s: Sweep, r: Reminder)
    requires Owned(r) && s.completed && multiset(s.active)[r] == 1
    requires last < r.triggerAt <= s.now
    ensures Attempts(Some(last), [s], r) == 1
    ensures Attempts(None, [s], r) == 1 <==> s.now - 60 < r.triggerAt
  {
    AttemptsInWindow(Some(last), s, r);
    AttemptsInWindow(None, s, r);
    assert [s][1..] == [];
    assert Attempts(Some(s.now), [], r) == 0;
  }

  /** A reminder without owner is counted as due and never mailed, in any run. */
  lemma {:induction false} UnownedIsNeverMailed(mark: Option<Time>, sweeps: seq<Sweep>, r: Reminder)
    requires r.owner.None? || r.owner.value == ""
    ensures Attempts(mark, sweeps, r) == 0
    decreases sweeps
  {
    if sweeps != [] {
      var s := sweeps[0];
      var due := Due(s.active, WindowStart(mark, s.now), s.now);
      OfCount(due, OwnersOf(due), r);
      UnownedIsNeverMailed(MarkAfter(mark, s), sweeps[1..], r);
    }
  }
}

/** Delivery of a pending mail once its undo window is over. */
module UndoSend {
  import opened Prelude

  datatype Pending = Payload(mail: string) | Corrupt

  /** Where an execution is cut short: before the send, by the send itself, between the send and the
      deletion of the entry, or nowhere. Bookkeeping failures after the send are swallowed. */
  datatype Course = StopsBeforeSend | SendFails | StopsAfterSend | Finishes

  datatype Status = Sent | SkippedCancelled | SkippedCorrupt | Raised

  /** The pending entry in the cache, and how many times the mail went out. */
  datatype Outbox = Outbox(entry: Option<Pending>, sends: nat)

  function Executed(o: Outbox, course: Course): Outbox {
    match o.entry
    case None => o
    case Some(Corrupt) => o.(entry := None)
    case Some(Payload(_)) =>
      match course
      case StopsBeforeSend => o
      case SendFails => o
      case StopsAfterSend => o.(sends := o.sends + 1)
      case Finishes => Outbox(None, o.sends + 1)
  }

  class UndoSendJob {
    var outbox: Outbox

    constructor (entry: Option<Pending>)
      ensures outbox == Outbox(entry, 0)
    {
      outbox := Outbox(entry, 0);
    }

    method Process(course: Course) returns (status: Status)
      modifies this
      ensures outbox == Executed(old(outbox), course)
      ensures old(outbox.entry).None? ==> status == SkippedCancelled
      ensures old(outbox.entry) == Some(Corrupt) ==> status == SkippedCorrupt
      ensures old(outbox.entry).Some? && old(outbox.entry).value.Payload? ==>
        status == if course == Finishes then Sent else Raised
    {
      var raw := outbox.entry;
      if raw.None? { return SkippedCancelled; }
      if raw.value.Corrupt? {
        outbox := outbox.(entry := None);
        return SkippedCorrupt;
      }
      if course == StopsBeforeSend { return Raised; }
      if course == SendFails { return Raised; }
      outbox := outbox.(sends := outbox.sends + 1);
      if course == StopsAfterSend { return Raised; }
      outbox := outbox.(entry := None);
      return Sent;
    }
  }

  /** Executions one after the other, and the entry vanishing: cancelled by the user or expired. */
  datatype Event = Execution(course: Course) | EntryVanishes

  function Apply(o: Outbox, e: Event): Outbox {
    match e
    case Execution(course) => Executed(o, course)
    case EntryVanishes => o.(entry := None)
  }

  function Run(o: Outbox, events: seq<Event>): Outbox
    decreases events
  {
    if events == [] then o else Run(Apply(o, events[0]), events[1..])
  }

  /** The executions cut short after their send. */
  function CutShort(events: seq<Event>): nat {
    if events == [] then 0 else (if events[0] == Execution(StopsAfterSend) then 1 else 0) + CutShort(events[1..])
  }

  /** The mail goes out at most once more than executions are cut short between send and deletion; it
      never goes out once the entry is gone; and while the entry is there every send was one of those. */
  lemma {:induction false} DoubleSendsAreBounded(o: Outbox, events: seq<Event>)
    ensures var o' := Run(o, events);
      && o.sends <= o'.sends <= o.sends + CutShort(events) + (if o'.entry.None? && o.entry.Some? then 1 else 0)
      && (o.entry.None? ==> o' == o)
      && (o'.entry.Some? ==> o.entry == o'.entry)
      && (o'.entry.Some? && o'.entry.value.Payload? ==> o'.sends == o.sends + CutShort(events))
    decreases events
  {
    if events != [] { DoubleSendsAreBounded(Apply(o, events[0]), events[1..]); }
  }

  /** With no execution cut short after its send, no number of retries sends twice; and a retry that
      finishes with the entry still there has sent exactly once. */
  lemma NoCrashNoDoubleSend(entry: Pending, events: seq<Event>)
    requires CutShort(events) == 0
    ensures Run(Outbox(Some(entry), 0), events).sends <= 1
    ensures entry.Payload? && Run(Outbox(Some(entry), 0), events).entry.Some? ==>
      Run(Outbox(Some(entry), 0), events + [Execution(Finishes)]) == Outbox(None, 1)
  {
    DoubleSendsAreBounded(Outbox(Some(entry), 0), events);
    RunAppend(Outbox(Some(entry), 0), events, Execution(Finishes));
  }

  lemma {:induction false} RunAppend(o: Outbox, events: seq<Event>, e: Event)
    ensures Run(o, events + [e]) == Apply(Run(o, events), e)
    decreases events
  {
    if events == [] {
      assert [] + [e] == [e] && [e][1..] == [];
    } else {
      RunAppend(Apply(o, events[0]), events[1..], e);
      assert (events + [e])[1..] == events[1..] + [e];
    }
  }

  /** The bound is reached: n crashes after the send and a retry that finishes send n + 1 times. */
  lemma {:induction false} EveryCrashCanResend(mail: string, n: nat)
    ensures var events := seq(n, _ => Execution(StopsAfterSend)) + [Execution(Finishes)];
      Run(Outbox(Some(Payload(mail)), 0), events).sends == n + 1
  {
    var crashes := seq(n, _ => Execution(StopsAfterSend));
    CrashesOnly(Outbox(Some(Payload(mail)), 0), n);
    RunAppend(Outbox(Some(Payload(mail)), 0), crashes, Execution(Finishes));
  }

  lemma {:induction false} CrashesOnly(o: Outbox, n: nat)
    requires o.entry.Some? && o.entry.value.Payload?
    ensures Run(o, seq(n, _ => Execution(StopsAfterSend))) == o.(sends := o.sends + n)
    decreases n
  {
    var crashes := seq(n, _ => Execution(StopsAfterSend));
    if n > 0 {
      CrashesOnly(Apply(o, crashes[0]), n - 1);
      assert crashes[1..] == seq(n - 1, _ => Execution(StopsAfterSend));
    }
  }

  /** A pending mail stays pending, unchanged, through any executions that fail or are cut short, and only
      through those: finishing, cancelling and expiry remove it. */
  lemma {:induction false} OnlyFinishingRemoves(o: Outbox, events: seq<Event>)
    requires o.entry.Some? && o.entry.value.Payload?
    ensures Run(o, events).entry == o.entry <==> Execution(Finishes) !in events && EntryVanishes !in events
    decreases events
  {
    if events != [] {
      assert events == [events[0]] + events[1..];
      if events[0] == Execution(Finishes) || events[0] == EntryVanishes {
        DoubleSendsAreBounded(Apply(o, events[0]), events[1..]);
      } else {
        OnlyFinishingRemoves(Apply(o, events[0]), events[1..]);
      }
    }
  }

  /** A corrupt entry is never sent; the first execution that finds it removes it. */
  lemma {:induction false} CorruptIsNeverSent(o: Outbox, events: seq<Event>)
    requires o.entry == Some(Corrupt)
    ensures Run(o, events).sends == o.sends
    ensures Run(o, events).entry == if events == [] then o.entry else None
    decreases events
  {
    if events != [] { DoubleSendsAreBounded(Apply(o, events[0]), events[1..]); }
  }
}

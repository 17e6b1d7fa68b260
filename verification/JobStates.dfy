/** The JobState record, its statuses, and the lock key derived from its identity. */
module JobStates {
  import opened Prelude

  type Id = string
  type Time = int

  datatype JobStatus = PENDING | STARTED | SUCCESS | FAILURE | RETRY | CANCELED

  predicate IsTerminal(status: JobStatus) {
    status in {SUCCESS, FAILURE, CANCELED}
  }

  /** The text of an exception, or the message the recovery sweep composes. */
  datatype JobError =
    | Raised(text: string)
    | Interrupted(resume: Option<bool>, attempts: int, maxTry: int)
    | WorkerDisappeared

  datatype JobState = JobState(
    jobId: Id,
    name: string,
    status: JobStatus,
    userUid: Option<string>,
    datePlanned: Time,
    dateStart: Option<Time>,
    dateEnd: Option<Time>,
    duration: Option<int>,
    attempts: int,
    maxTry: int,
    softTimeout: int,
    maxConcurrent: int,
    payload: string,
    result: Option<string>,
    error: Option<JobError>,
    scheduleName: Option<string>)

  const EMPTY_PAYLOAD := "{}"

  /** A record as the dataclass defaults leave it. */
  function NewState(id: Id, name: string, status: JobStatus, user: Option<string>, planned: Time, payload: string)
    : JobState
  {
    JobState(id, name, status, user, planned, None, None, None, 0, 0, 0, 0, payload, None, None, None)
  }

  /** `date_end = now`, and the duration when the start is known. */
  function Ended(s: JobState, now: Time): JobState {
    s.(dateEnd := Some(now), duration := if s.dateStart.Some? then Some(now - s.dateStart.value) else s.duration)
  }

  const LOCK_PREFIX := "agent:concurrency:"

  function Scope(user: Option<string>): string {
    if Truthy(user) then user.value else "_global"
  }

  function LockKey(name: string, user: Option<string>): string {
    LOCK_PREFIX + name + ":" + Scope(user)
  }

  function KeyOf(s: JobState): string {
    LockKey(s.name, s.userUid)
  }

  /** One name, a colon and more is the start of the other. */
  predicate Extends(n1: string, n2: string) {
    n1 + ":" <= n2
  }

  /** `name:scope` splits back at its colon unless one name extends the other. */
  lemma KeySplits(n1: string, s1: string, n2: string, s2: string)
    requires n1 + ":" + s1 == n2 + ":" + s2 && |n1| <= |n2|
    ensures n1 == n2 || Extends(n1, n2)
    ensures n1 == n2 ==> s1 == s2
  {
    var left, right := n1 + ":" + s1, n2 + ":" + s2;
    assert n1 == left[..|n1|] && n2 == right[..|n2|];
    assert s1 == left[|n1| + 1..] && s2 == right[|n2| + 1..];
    if |n1| < |n2| {
      assert n1 + ":" == left[..|n1| + 1] == right[..|n1| + 1] == n2[..|n1| + 1];
    }
  }

  lemma KeyIsPrefixed(name: string, user: Option<string>)
    ensures LockKey(name, user)[|LOCK_PREFIX|..] == name + ":" + Scope(user)
  {
    assert LockKey(name, user) == LOCK_PREFIX + (name + ":" + Scope(user));
  }

  /** Two jobs neither of whose names extends the other's share a lock key exactly when they share name
      and scope. */
  lemma LockKeySeparatesScopes(n1: string, u1: Option<string>, n2: string, u2: Option<string>)
    requires !Extends(n1, n2) && !Extends(n2, n1)
    ensures LockKey(n1, u1) == LockKey(n2, u2) <==> n1 == n2 && Scope(u1) == Scope(u2)
  {
    KeyIsPrefixed(n1, u1);
    KeyIsPrefixed(n2, u2);
    if LockKey(n1, u1) == LockKey(n2, u2) {
      if |n1| <= |n2| {
        KeySplits(n1, Scope(u1), n2, Scope(u2));
      } else {
        KeySplits(n2, Scope(u2), n1, Scope(u1));
      }
    }
  }

  /** Different users of one job never share a key. System jobs share one key, which is also that of a
      user who is called "_global". */
  lemma UsersAreSeparate(name: string, user: string, other: Option<string>)
    requires user != ""
    ensures LockKey(name, Some(user)) == LockKey(name, other) <==>
      other == Some(user) || ((other.None? || other.value == "") && user == "_global")
    ensures LockKey(name, Some(user)) == "agent:concurrency:" + name + ":" + user
    ensures LockKey(name, None) == LockKey(name, Some("")) == "agent:concurrency:" + name + ":_global"
  {
    KeyIsPrefixed(name, Some(user));
    KeyIsPrefixed(name, other);
    if LockKey(name, Some(user)) == LockKey(name, other) {
      KeySplits(name, Scope(Some(user)), name, Scope(other));
    }
  }

  /** That restriction is exact: two different names share a key for some users if and only if one
      extends the other. */
  lemma NamesCollideWhenOneExtends(n1: string, n2: string)
    requires n1 != n2
    ensures (exists u1, u2 :: Truthy(u1) && Truthy(u2) && LockKey(n1, u1) == LockKey(n2, u2))
      <==> Extends(n1, n2) || Extends(n2, n1)
  {
    if u1, u2 :| Truthy(u1) && Truthy(u2) && LockKey(n1, u1) == LockKey(n2, u2) {
      if !Extends(n1, n2) && !Extends(n2, n1) { LockKeySeparatesScopes(n1, u1, n2, u2); }
    }
    if Extends(n1, n2) { ExtendedNameCollides(n1, n2, "bob"); }
    if Extends(n2, n1) { ExtendedNameCollides(n2, n1, "bob"); }
  }

  /** Every user of the longer name collides with some user of the shorter one. */
  lemma ExtendedNameCollides(n1: string, n2: string, user: string)
    requires Extends(n1, n2) && user != ""
    ensures var other := n2[|n1| + 1..] + ":" + user;
      other != "" && LockKey(n1, Some(other)) == LockKey(n2, Some(user))
  {
    var rest := n2[|n1| + 1..];
    assert n2 == n1 + ":" + rest;
    assert n1 + ":" + (rest + ":" + user) == n2 + ":" + user;
    assert LockKey(n1, Some(rest + ":" + user)) == LOCK_PREFIX + (n1 + ":" + (rest + ":" + user));
    assert LockKey(n2, Some(user)) == LOCK_PREFIX + (n2 + ":" + user);
  }
}

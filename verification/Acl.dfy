/** The ACL table behind all resource sharing, and the calendar rights stored in it. */
module Acl {
  import opened Prelude

  /** A rights blob: share levels by visibility class, and flags. */
  datatype Rights = Rights(levels: map<string, string>, flags: map<string, bool>)

  datatype Slot = Slot(kind: string, key: string, user: string)

  datatype Row = Row(slot: Slot, owner: string, rights: Rights)

  // ---------- the table ----------

  /** SELECT ... LIMIT 1. */
  function First(rows: seq<Row>, s: Slot): Option<Row> {
    if rows == [] then None else if rows[0].slot == s then Some(rows[0]) else First(rows[1..], s)
  }

  predicate OnKey(r: Row, kind: string, key: string) {
    r.slot.kind == kind && r.slot.key == key
  }

  /** UPDATE ... SET rights: every matching row; the other columns, owner included, stay. */
  function WithRights(rows: seq<Row>, s: Slot, rights: Rights): seq<Row> {
    if rows == [] then []
    else [if rows[0].slot == s then rows[0].(rights := rights) else rows[0]] + WithRights(rows[1..], s, rights)
  }

  /** DELETE of one slot, and of a whole resource. */
  function WithoutSlot(rows: seq<Row>, s: Slot): seq<Row> {
    if rows == [] then []
    else if rows[0].slot == s then WithoutSlot(rows[1..], s)
    else [rows[0]] + WithoutSlot(rows[1..], s)
  }

  function WithoutKey(rows: seq<Row>, kind: string, key: string): seq<Row> {
    if rows == [] then []
    else if OnKey(rows[0], kind, key) then WithoutKey(rows[1..], kind, key)
    else [rows[0]] + WithoutKey(rows[1..], kind, key)
  }

  function RowsOnKey(rows: seq<Row>, kind: string, key: string): seq<Row> {
    if rows == [] then [] else (if OnKey(rows[0], kind, key) then [rows[0]] else []) + RowsOnKey(rows[1..], kind, key)
  }

  function CountOf(rows: seq<Row>, s: Slot): nat {
    if rows == [] then 0 else (if rows[0].slot == s then 1 else 0) + CountOf(rows[1..], s)
  }

  function Upserted(rows: seq<Row>, r: Row): seq<Row> {
    if First(rows, r.slot).None? then rows + [r] else WithRights(rows, r.slot, r.rights)
  }

  lemma {:induction false} FirstMeansCounted(rows: seq<Row>, s: Slot)
    ensures First(rows, s).Some? <==> CountOf(rows, s) > 0
    ensures First(rows, s).Some? ==> First(rows, s).value in rows && First(rows, s).value.slot == s
  {
    if rows != [] { FirstMeansCounted(rows[1..], s); }
  }

  /** Deleting a slot leaves none of its rows and every other slot as it was. */
  lemma {:induction false} RemoveSlotRows(rows: seq<Row>, t: Slot, s: Slot)
    ensures CountOf(WithoutSlot(rows, t), s) == if s == t then 0 else CountOf(rows, s)
    ensures First(WithoutSlot(rows, t), s) == if s == t then None else First(rows, s)
  {
    if rows != [] { RemoveSlotRows(rows[1..], t, s); }
  }

  lemma {:induction false} DeletedRows(rows: seq<Row>, s: Slot)
    ensures |WithoutSlot(rows, s)| + CountOf(rows, s) == |rows|
  {
    if rows != [] { DeletedRows(rows[1..], s); }
  }

  class RepositoryAcl {
    var rows: seq<Row>

    constructor ()
      ensures rows == []
    {
      rows := [];
    }

    method FindOne(s: Slot) returns (r: Option<Row>)
      ensures r == First(rows, s)
    {
      for i := 0 to |rows|
        invariant First(rows, s) == First(rows[i..], s)
      {
        if rows[i].slot == s { return Some(rows[i]); }
      }
      return None;
    }

    method FindAllForKey(kind: string, key: string) returns (r: seq<Row>)
      ensures r == RowsOnKey(rows, kind, key)
    {
      r := RowsOnKey(rows, kind, key);
    }

    method Upsert(r: Row)
      modifies this
      ensures rows == Upserted(old(rows), r)
    {
      var existing := FindOne(r.slot);
      if existing.None? {
        rows := rows + [r];
        return;
      }
      var updated := CountOf(rows, r.slot);
      rows := WithRights(rows, r.slot, r.rights);
      if updated == 0 {
        FirstMeansCounted(old(rows), r.slot);
        assert false;
      }
    }

    method Delete(s: Slot) returns (deleted: nat)
      modifies this
      ensures rows == WithoutSlot(old(rows), s)
      ensures forall t :: First(rows, t) == if t == s then None else First(old(rows), t)
      ensures deleted == |old(rows)| - |rows|
      ensures deleted == 0 <==> First(old(rows), s).None?
    {
      forall t ensures First(WithoutSlot(rows, s), t) == if t == s then None else First(rows, t) {
        RemoveSlotRows(rows, s, t);
      }
      DeletedRows(rows, s);
      FirstMeansCounted(rows, s);
      deleted := CountOf(rows, s);
      rows := WithoutSlot(rows, s);
    }

    method DeleteAllForKey(kind: string, key: string)
      modifies this
      ensures rows == WithoutKey(old(rows), kind, key)
    {
      rows := WithoutKey(rows, kind, key);
    }
  }

  // ---------- grants and their history ----------

  datatype Op =
    | Add(slot: Slot, owner: string, rights: Rights)
    | Update(slot: Slot, rights: Rights)
    | Remove(slot: Slot)
    | RemoveAll(kind: string, key: string)

  datatype ShareError = CannotShareWithSelf | ShareNotFound

  function Refusal(rows: seq<Row>, op: Op): Option<ShareError> {
    match op
    case Add(s, owner, _) => if s.user == owner then Some(CannotShareWithSelf) else None
    case Update(s, _) => if First(rows, s).None? then Some(ShareNotFound) else None
    case _ => None
  }

  function ApplyOp(rows: seq<Row>, op: Op): seq<Row> {
    if Refusal(rows, op).Some? then rows
    else match op
      case Add(s, owner, rights) => Upserted(rows, Row(s, owner, rights))
      case Update(s, rights) => Upserted(rows, First(rows, s).value.(rights := rights))
      case Remove(s) => WithoutSlot(rows, s)
      case RemoveAll(kind, key) => WithoutKey(rows, kind, key)
  }

  function Table(ops: seq<Op>): seq<Row> {
    if ops == [] then [] else ApplyOp(Table(ops[..|ops| - 1]), ops[|ops| - 1])
  }

  /** What the history says: the latest grant on the slot that was not revoked since, and the owner
      named by the first grant of that unbroken stretch. */
  datatype Grant = Grant(owner: string, rights: Rights)

  function Latest(ops: seq<Op>, s: Slot): Option<Grant> {
    if ops == [] then None
    else
      var before := Latest(ops[..|ops| - 1], s);
      match ops[|ops| - 1]
      case Add(t, owner, rights) =>
        if t == s && t.user != owner then Some(Grant(if before.Some? then before.value.owner else owner, rights))
        else before
      case Update(t, rights) =>
        if t == s && before.Some? then Some(before.value.(rights := rights)) else before
      case Remove(t) => if t == s then None else before
      case RemoveAll(kind, key) => if s.kind == kind && s.key == key then None else before
  }

  /** `Share`, with the rights of `ShareCalendar`. */
  class Share {
    const kind: string
    const repo: RepositoryAcl

    constructor (kind: string, repo: RepositoryAcl)
      ensures this.kind == kind && this.repo == repo
    {
      this.kind, this.repo := kind, repo;
    }

    method CheckPermissions(user: string, key: string, action: Action, visibility: Visibility) returns (allowed: bool)
      ensures allowed == Allows(repo.rows, Slot(kind, key, user), action, visibility)
    {
      var entry := repo.FindOne(Slot(kind, key, user));
      if entry.None? { return false; }
      return Satisfies(entry.value.rights, action, visibility);
    }

    method AddPermissions(user: string, key: string, owner: string, rights: Rights)
      returns (refused: Option<ShareError>)
      modifies repo
      ensures refused == if user == owner then Some(CannotShareWithSelf) else None
      ensures repo.rows == ApplyOp(old(repo.rows), Add(Slot(kind, key, user), owner, rights))
    {
      if user == owner { return Some(CannotShareWithSelf); }
      repo.Upsert(Row(Slot(kind, key, user), owner, rights));
      return None;
    }

    method UpdatePermissions(user: string, key: string, rights: Rights) returns (refused: Option<ShareError>)
      modifies repo
      ensures refused == if First(old(repo.rows), Slot(kind, key, user)).None? then Some(ShareNotFound) else None
      ensures repo.rows == ApplyOp(old(repo.rows), Update(Slot(kind, key, user), rights))
    {
      var existing := repo.FindOne(Slot(kind, key, user));
      if existing.None? { return Some(ShareNotFound); }
      repo.Upsert(existing.value.(rights := rights));
      return None;
    }

    method RemovePermissions(user: string, key: string)
      modifies repo
      ensures repo.rows == ApplyOp(old(repo.rows), Remove(Slot(kind, key, user)))
    {
      var _ := repo.Delete(Slot(kind, key, user));
    }

    method RemoveAllPermissionsForKey(key: string)
      modifies repo
      ensures repo.rows == ApplyOp(old(repo.rows), RemoveAll(kind, key))
    {
      repo.DeleteAllForKey(kind, key);
    }

    /** `ShareCalendar.get_user_or_anyone`. */
    method GetUserOrAnyone(user: string, owner: string, key: string) returns (r: Option<Row>)
      ensures r == Resolved(repo.rows, kind, key, user, owner)
    {
      r := repo.FindOne(Slot(kind, key, user));
      if r.Some? { return; }
      var userDomain, ownerDomain := DomainOf(user), DomainOf(owner);
      if !(userDomain.Some? && userDomain.value != "") || userDomain != ownerDomain { return None; }
      r := repo.FindOne(Slot(kind, key, ANYONE));
    }
  }

  // ---------- the table is the history ----------

  lemma {:induction false} AppendRow(rows: seq<Row>, r: Row, s: Slot)
    ensures First(rows + [r], s) ==
      if First(rows, s).Some? then First(rows, s) else if r.slot == s then Some(r) else None
    ensures CountOf(rows + [r], s) == CountOf(rows, s) + if r.slot == s then 1 else 0
  {
    if rows == [] {
      assert rows + [r] == [r];
    } else {
      AppendRow(rows[1..], r, s);
      assert (rows + [r])[1..] == rows[1..] + [r];
    }
  }

  lemma {:induction false} UpdateRows(rows: seq<Row>, t: Slot, rights: Rights, s: Slot)
    ensures CountOf(WithRights(rows, t, rights), s) == CountOf(rows, s)
    ensures First(WithRights(rows, t, rights), s) ==
      if s == t && First(rows, s).Some? then Some(First(rows, s).value.(rights := rights)) else First(rows, s)
  {
    if rows != [] { UpdateRows(rows[1..], t, rights, s); }
  }

  lemma {:induction false} RemoveKeyRows(rows: seq<Row>, kind: string, key: string, s: Slot)
    ensures CountOf(WithoutKey(rows, kind, key), s) == if s.kind == kind && s.key == key then 0 else CountOf(rows, s)
    ensures First(WithoutKey(rows, kind, key), s) == if s.kind == kind && s.key == key then None else First(rows, s)
  {
    if rows != [] { RemoveKeyRows(rows[1..], kind, key, s); }
  }

  function GrantIn(rows: seq<Row>, s: Slot): Option<Grant> {
    if First(rows, s).Some? then Some(Grant(First(rows, s).value.owner, First(rows, s).value.rights)) else None
  }

  /** Under any history by one writer there is at most one row per slot, no owner is its own grantee,
      and each slot holds exactly the latest unrevoked grant. */
  lemma {:induction false} TableIsHistory(ops: seq<Op>, s: Slot)
    ensures CountOf(Table(ops), s) <= 1
    ensures GrantIn(Table(ops), s) == Latest(ops, s)
    ensures Latest(ops, s).Some? ==> Latest(ops, s).value.owner != s.user
  {
    if ops != [] {
      var init, op := ops[..|ops| - 1], ops[|ops| - 1];
      TableIsHistory(init, s);
      var rows := Table(init);
      FirstMeansCounted(rows, s);
      match op {
        case Add(t, owner, rights) =>
          TableIsHistory(init, t);
          FirstMeansCounted(rows, t);
          AppendRow(rows, Row(t, owner, rights), s);
          UpdateRows(rows, t, rights, s);
        case Update(t, rights) =>
          FirstMeansCounted(rows, t);
          UpdateRows(rows, t, rights, s);
        case Remove(t) => RemoveSlotRows(rows, t, s);
        case RemoveAll(kind, key) => RemoveKeyRows(rows, kind, key, s);
      }
    }
  }

  lemma {:induction false} RowsOnKeyMembers(rows: seq<Row>, kind: string, key: string, r: Row)
    ensures r in RowsOnKey(rows, kind, key) <==> r in rows && OnKey(r, kind, key)
  {
    if rows != [] { RowsOnKeyMembers(rows[1..], kind, key, r); }
  }

  lemma {:induction false} OnlyRowIsFirst(rows: seq<Row>, r: Row)
    requires CountOf(rows, r.slot) <= 1
    ensures r in rows <==> First(rows, r.slot) == Some(r)
  {
    FirstMeansCounted(rows, r.slot);
    if rows != [] {
      FirstMeansCounted(rows[1..], r.slot);
      OnlyRowIsFirst(rows[1..], r);
    }
  }

  /** The permissions listed for a resource are the latest unrevoked grants on it, one per user. */
  lemma ListedForKeyAreLatest(ops: seq<Op>, kind: string, key: string, r: Row)
    ensures r in RowsOnKey(Table(ops), kind, key) <==>
      OnKey(r, kind, key) && Latest(ops, r.slot) == Some(Grant(r.owner, r.rights))
  {
    TableIsHistory(ops, r.slot);
    RowsOnKeyMembers(Table(ops), kind, key, r);
    OnlyRowIsFirst(Table(ops), r);
    FirstMeansCounted(Table(ops), r.slot);
  }

  predicate Concerns(op: Op, s: Slot) {
    match op
    case Add(t, _, _) => t == s
    case Update(t, _) => t == s
    case Remove(t) => t == s
    case RemoveAll(kind, key) => s.kind == kind && s.key == key
  }

  /** An operation leaves every slot it does not concern exactly as it was, other types and keys included. */
  lemma OtherSlotsUntouched(ops: seq<Op>, op: Op, s: Slot)
    requires !Concerns(op, s)
    ensures First(Table(ops + [op]), s) == First(Table(ops), s)
  {
    assert (ops + [op])[..|ops|] == ops;
    var rows := Table(ops);
    match op {
      case Add(t, owner, rights) =>
        AppendRow(rows, Row(t, owner, rights), s);
        UpdateRows(rows, t, rights, s);
      case Update(t, rights) =>
        FirstMeansCounted(rows, t);
        UpdateRows(rows, t, rights, s);
      case Remove(t) => RemoveSlotRows(rows, t, s);
      case RemoveAll(kind, key) => RemoveKeyRows(rows, kind, key, s);
    }
  }

  // ---------- calendar rights ----------

  datatype Level = NONE | VIEW_DATETIME | VIEW_ALL | RESPOND | MODIFY_IF_ORG | MODIFY

  datatype Action = VIEW | RESPOND | MODIFY | CREATE | DELETE

  datatype Visibility = UNDEFINED | PUBLIC | PRIVATE | CONFIDENTIAL

  function Rank(l: Level): nat {
    match l
    case NONE => 0
    case VIEW_DATETIME => 1
    case VIEW_ALL => 2
    case RESPOND => 3
    case MODIFY_IF_ORG => 4
    case MODIFY => 5
  }

  function ParseLevel(text: string): Level {
    if text == "view-date-time" then VIEW_DATETIME
    else if text == "view-all" then VIEW_ALL
    else if text == "respond-to" then Level.RESPOND
    else if text == "modify" then Level.MODIFY
    else NONE
  }

  function ClassOf(v: Visibility): string {
    match v
    case CONFIDENTIAL => "confidential"
    case PRIVATE => "private"
    case _ => "public"
  }

  function LevelFor(rights: Rights, v: Visibility): Level {
    ParseLevel(if ClassOf(v) in rights.levels then rights.levels[ClassOf(v)] else "none")
  }

  predicate Flag(rights: Rights, name: string) {
    name in rights.flags && rights.flags[name]
  }

  predicate Satisfies(rights: Rights, action: Action, v: Visibility) {
    match action
    case CREATE => Flag(rights, "can_create_objects")
    case DELETE => Flag(rights, "can_erase_objects")
    case VIEW => Rank(LevelFor(rights, v)) >= Rank(VIEW_DATETIME)
    case RESPOND => Rank(LevelFor(rights, v)) >= Rank(Level.RESPOND)
    case MODIFY => Rank(LevelFor(rights, v)) >= Rank(Level.MODIFY)
  }

  predicate Allows(rows: seq<Row>, s: Slot, action: Action, v: Visibility) {
    First(rows, s).Some? && Satisfies(First(rows, s).value.rights, action, v)
  }

  /** A check answers as the latest unrevoked grant would, and denies when there is none. */
  lemma CheckAnswersHistory(ops: seq<Op>, s: Slot, action: Action, v: Visibility)
    ensures Allows(Table(ops), s, action, v) <==>
      Latest(ops, s).Some? && Satisfies(Latest(ops, s).value.rights, action, v)
  {
    TableIsHistory(ops, s);
  }

  /** Creating and erasing objects go by their own flag of the latest grant alone; an absent flag is a no. */
  lemma FlagsDecide(ops: seq<Op>, s: Slot, v: Visibility)
    ensures Allows(Table(ops), s, CREATE, v) <==>
      && Latest(ops, s).Some? && "can_create_objects" in Latest(ops, s).value.rights.flags
      && Latest(ops, s).value.rights.flags["can_create_objects"]
    ensures Allows(Table(ops), s, DELETE, v) <==>
      && Latest(ops, s).Some? && "can_erase_objects" in Latest(ops, s).value.rights.flags
      && Latest(ops, s).value.rights.flags["can_erase_objects"]
  {
    TableIsHistory(ops, s);
  }

  lemma LevelOfText(text: string)
    ensures Rank(ParseLevel(text)) >= 1 <==> text in {"view-date-time", "view-all", "respond-to", "modify"}
    ensures Rank(ParseLevel(text)) >= 3 <==> text in {"respond-to", "modify"}
    ensures Rank(ParseLevel(text)) >= 5 <==> text == "modify"
  {
  }

  /** Viewing, responding and modifying go by the text the latest grant stores for the event's own class
      alone: "view-date-time" and "view-all" allow to view, "respond-to" to respond too, "modify" all three;
      "none", an unknown text and no text at all allow nothing. */
  lemma TextsDecide(ops: seq<Op>, s: Slot, v: Visibility, class_: string)
    requires class_ == if v == CONFIDENTIAL then "confidential" else if v == PRIVATE then "private" else "public"
    ensures var stored := Latest(ops, s).Some? && class_ in Latest(ops, s).value.rights.levels;
      var text := if stored then Latest(ops, s).value.rights.levels[class_] else "";
      && (Allows(Table(ops), s, VIEW, v) <==> text in {"view-date-time", "view-all", "respond-to", "modify"})
      && (Allows(Table(ops), s, Action.RESPOND, v) <==> text in {"respond-to", "modify"})
      && (Allows(Table(ops), s, Action.MODIFY, v) <==> text == "modify")
  {
    TableIsHistory(ops, s);
    var stored := Latest(ops, s).Some? && class_ in Latest(ops, s).value.rights.levels;
    LevelOfText(if stored then Latest(ops, s).value.rights.levels[class_] else "none");
  }

  /** In any table: who may modify may respond, and who may respond may view. */
  lemma PermissionsNest(rows: seq<Row>, s: Slot, v: Visibility)
    ensures Allows(rows, s, Action.MODIFY, v) ==> Allows(rows, s, Action.RESPOND, v)
    ensures Allows(rows, s, Action.RESPOND, v) ==> Allows(rows, s, VIEW, v)
  {
  }

  /** Granting again under another owner changes the rights but never the recorded owner. */
  lemma SecondGrantKeepsOwner(ops: seq<Op>, s: Slot, owner: string, rights: Rights)
    requires Latest(ops, s).Some? && owner != s.user
    ensures GrantIn(Table(ops + [Add(s, owner, rights)]), s) == Some(Grant(Latest(ops, s).value.owner, rights))
  {
    TableIsHistory(ops + [Add(s, owner, rights)], s);
    assert (ops + [Add(s, owner, rights)])[..|ops|] == ops;
  }

  // ---------- "anyone" entries ----------

  const ANYONE := "<default>"

  function Split(s: string, c: char): seq<string> {
    if s == "" then [""]
    else
      var rest := Split(s[1..], c);
      if s[0] == c then [""] + rest else [[s[0]] + rest[0]] + rest[1..]
  }

  function DomainOf(mail: string): Option<string> {
    var parts := Split(mail, '@');
    if '@' in mail && |parts| == 2 then Some(parts[1]) else None
  }

  function Resolved(rows: seq<Row>, kind: string, key: string, user: string, owner: string): Option<Row> {
    if First(rows, Slot(kind, key, user)).Some? then First(rows, Slot(kind, key, user))
    else if Truthy(DomainOf(user)) && DomainOf(user) == DomainOf(owner) then First(rows, Slot(kind, key, ANYONE))
    else None
  }

  lemma {:induction false} SplitOnce(a: string, b: string, c: char)
    requires c !in a
    ensures Split(a + [c] + b, c) == [a] + Split(b, c)
  {
    if a == "" {
      assert a + [c] + b == [c] + b;
    } else {
      assert (a + [c] + b)[1..] == a[1..] + [c] + b;
      SplitOnce(a[1..], b, c);
      assert a == [a[0]] + a[1..];
    }
  }

  lemma {:induction false} SplitNever(a: string, c: char)
    ensures c !in a <==> |Split(a, c)| == 1
    ensures c !in a ==> Split(a, c) == [a]
  {
    if a != "" {
      SplitNever(a[1..], c);
      assert a == [a[0]] + a[1..];
    }
  }

  /** An address has a domain exactly when it holds one `@`: the part after it. */
  lemma DomainIsAfterTheOnlyAt(mail: string, domain: string)
    ensures DomainOf(mail) == Some(domain) <==>
      exists local: string :: mail == local + "@" + domain && '@' !in local && '@' !in domain
  {
    if local: string :| mail == local + "@" + domain && '@' !in local && '@' !in domain {
      SplitOnce(local, domain, '@');
      SplitNever(domain, '@');
      assert mail[|local|] == '@';
    }
    if DomainOf(mail) == Some(domain) {
      var i := FirstAt(mail);
      var local, rest := mail[..i], mail[i + 1..];
      assert mail == local + "@" + rest;
      SplitOnce(local, rest, '@');
      SplitNever(rest, '@');
      assert rest == domain;
    }
  }

  function FirstAt(mail: string): (i: nat)
    requires '@' in mail
    ensures i < |mail| && mail[i] == '@' && '@' !in mail[..i]
  {
    if mail[0] == '@' then 0
    else
      assert mail == [mail[0]] + mail[1..];
      1 + FirstAt(mail[1..])
  }

  /** Over any history, an own grant always wins. A user without one is given what "anyone" was granted
      exactly when there is such a grant and both are of the same domain, which is not empty. */
  lemma AnyoneMeansTheOwnersDomain(ops: seq<Op>, kind: string, key: string, user: string, owner: string)
    ensures var r, own := Resolved(Table(ops), kind, key, user, owner), Latest(ops, Slot(kind, key, user));
      var anyone := Latest(ops, Slot(kind, key, ANYONE));
      && (own.Some? ==> r.Some? && Grant(r.value.owner, r.value.rights) == own.value)
      && (own.None? ==> (r.Some? <==> Truthy(DomainOf(user)) && DomainOf(user) == DomainOf(owner) && anyone.Some?))
      && (own.None? && r.Some? ==> Grant(r.value.owner, r.value.rights) == anyone.value)
  {
    TableIsHistory(ops, Slot(kind, key, user));
    TableIsHistory(ops, Slot(kind, key, ANYONE));
  }
}

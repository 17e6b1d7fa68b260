/** The JSON merge patch of the settings store, against the MergePatch function of RFC 7386. */
module MergePatch {
  import opened Prelude

  /** A JSON document. Neither the code nor the RFC looks inside a list. */
  datatype Json = Null | Scalar(text: string) | List(items: seq<Json>) | Object(fields: map<string, Json>)

  const EMPTY := Object(map[])

  function At(j: Json, key: string): Option<Json>
    requires j.Object?
  {
    if key in j.fields then Some(j.fields[key]) else None
  }

  // ---------- what the code computes ----------

  /** A non-null scalar or list lands on an object of the resource, at any depth: the code raises. */
  predicate Conflict(p: Json, r: Json)
    decreases p
  {
    !p.Null? && r.Object? &&
    (!p.Object? || exists k <- p.fields :: k in r.fields && Conflict(p.fields[k], r.fields[k]))
  }

  predicate Lands(p: Json, r: Option<Json>) {
    r.Some? ==> !Conflict(p, r.value)
  }

  /** What is left at a key when the patch value `p` lands on `r`; `None` when the key is gone. */
  function Landed(p: Json, r: Option<Json>): Option<Json>
    requires Lands(p, r)
    decreases p, 2
  {
    if p.Null? then None
    else if r.Some? then
      if p.Object? && r.value.Object? then Some(Merge(p, r.value)) else Some(p)
    else if p.Object? then
      var m := Merge(p, EMPTY);
      if m.fields == map[] then None else Some(m)
    else Some(p)
  }

  function After(p: Json, r: Json, k: string): Option<Json>
    requires p.Object? && r.Object? && !Conflict(p, r)
    decreases p, 0
  {
    if k in p.fields then Landed(p.fields[k], At(r, k)) else At(r, k)
  }

  function Merge(p: Json, r: Json): (m: Json)
    requires p.Object? && r.Object? && !Conflict(p, r)
    ensures m.Object?
    decreases p, 1
  {
    Object(map k | k in p.fields.Keys + r.fields.Keys && After(p, r, k).Some? :: After(p, r, k).value)
  }

  lemma MergeAt(p: Json, r: Json, k: string)
    requires p.Object? && r.Object? && !Conflict(p, r)
    ensures At(Merge(p, r), k) == After(p, r, k)
  {
  }

  lemma SameFields(a: Json, b: Json)
    requires a.Object? && b.Object? && forall k :: At(a, k) == At(b, k)
    ensures a == b
  {
    forall k ensures k in a.fields <==> k in b.fields { assert At(a, k) == At(b, k); }
    forall k | k in a.fields ensures a.fields[k] == b.fields[k] { assert At(a, k) == At(b, k); }
    assert a.fields == b.fields;
  }

  // ---------- the loop ----------

  /** What an exception leaves: each key holds its old value, its merged value, or an object that is
      itself partly merged. */
  ghost predicate PartlyMerged(p: Json, r: Json, res: Json)
    decreases p
  {
    p.Object? && r.Object? && res.Object? && forall k :: KeyPartlyMerged(p, r, res, k)
  }

  ghost predicate KeyPartlyMerged(p: Json, r: Json, res: Json, k: string)
    requires p.Object? && r.Object? && res.Object?
    decreases p, 0
  {
    || At(res, k) == At(r, k)
    || (k in p.fields && Lands(p.fields[k], At(r, k)) && At(res, k) == Landed(p.fields[k], At(r, k)))
    || (k in p.fields && k in r.fields && k in res.fields && PartlyMerged(p.fields[k], r.fields[k], res.fields[k]))
  }

  /** `merge_patch`: the keys are taken in any order. `ok` is false when it raises. */
  method MergePatch(patch: Json, resource: Json) returns (ok: bool, res: Json)
    requires patch.Object? && resource.Object?
    ensures ok <==> !Conflict(patch, resource)
    ensures ok ==> res == Merge(patch, resource)
    ensures !ok ==> PartlyMerged(patch, resource, res)
    decreases patch
  {
    res := resource;
    var todo := patch.fields.Keys;
    while todo != {}
      invariant todo <= patch.fields.Keys && res.Object?
      invariant forall k | k !in patch.fields || k in todo :: At(res, k) == At(resource, k)
      invariant forall k | k in patch.fields && k !in todo ::
        Lands(patch.fields[k], At(resource, k)) && At(res, k) == Landed(patch.fields[k], At(resource, k))
      decreases todo
    {
      var key :| key in todo;
      var value := patch.fields[key];
      assert At(res, key) == At(resource, key);
      if value.Null? {
        res := Object(res.fields - {key});
      } else if key in res.fields {
        if res.fields[key].Object? {
          if value.Object? {
            var fine, inner := MergePatch(value, res.fields[key]);
            res := Object(res.fields[key := inner]);
            if !fine { return false, res; }
          } else {
            assert Conflict(value, resource.fields[key]);
            return false, res;
          }
        } else {
          res := Object(res.fields[key := value]);
        }
      } else if value.Object? {
        var fine, added := MergePatch(value, EMPTY);
        if added.fields != map[] {
          res := Object(res.fields[key := added]);
        }
      } else {
        res := Object(res.fields[key := value]);
      }
      todo := todo - {key};
    }
    forall k ensures At(res, k) == After(patch, resource, k) {}
    forall k ensures At(res, k) == At(Merge(patch, resource), k) { MergeAt(patch, resource, k); }
    SameFields(res, Merge(patch, resource));
    return true, res;
  }

  // ---------- RFC 7386, section 2 ----------

  function RfcPatch(target: Option<Json>, patch: Json): (t: Json)
    ensures patch.Object? ==> t.Object?
    decreases patch
  {
    if !patch.Object? then patch
    else
      var base := if target.Some? && target.value.Object? then target.value else EMPTY;
      Object(map k | k in patch.fields.Keys + base.fields.Keys && !(k in patch.fields && patch.fields[k].Null?) ::
        if k in patch.fields then RfcPatch(At(base, k), patch.fields[k]) else base.fields[k])
  }

  predicate NoNulls(p: Json) {
    !p.Null? && (p.Object? ==> forall k <- p.fields :: NoNulls(p.fields[k]))
  }

  /** No object is empty once the nulls are removed. */
  predicate NoHollow(p: Json) {
    p.Object? ==>
      && (exists k <- p.fields :: !p.fields[k].Null?)
      && (forall k <- p.fields :: NoHollow(p.fields[k]))
  }

  /** Where the code follows the RFC: objects land on objects only; an object landing on a null, a
      scalar or a list holds no null; an object landing on an absent key holds no hollow object. */
  predicate FollowsRfc(p: Json, r: Option<Json>)
    decreases p
  {
    if p.Null? then true
    else if r.None? then NoHollow(p)
    else if !r.value.Object? then NoNulls(p)
    else p.Object? && forall k <- p.fields :: FollowsRfc(p.fields[k], At(r.value, k))
  }

  lemma RfcFieldwise(p: Json, r: Option<Json>, k: string)
    requires p.Object?
    ensures var base := if r.Some? && r.value.Object? then r.value else EMPTY;
      At(RfcPatch(r, p), k) ==
        if k !in p.fields then At(base, k)
        else if p.fields[k].Null? then None
        else Some(RfcPatch(At(base, k), p.fields[k]))
  {
  }

  /** The RFC's patch of a non-object is the patch without its nulls: the patch itself if it has none. */
  lemma {:induction false} RfcOnNonObject(p: Json, r: Option<Json>)
    requires !p.Null? && (r.Some? ==> !r.value.Object?)
    ensures RfcPatch(r, p) == p <==> NoNulls(p)
    decreases p
  {
    if p.Object? {
      forall k
        ensures At(RfcPatch(r, p), k) ==
          if k !in p.fields || p.fields[k].Null? then None else Some(RfcPatch(None, p.fields[k]))
      {
        RfcFieldwise(p, r, k);
      }
      forall k | k in p.fields && !p.fields[k].Null?
        ensures RfcPatch(None, p.fields[k]) == p.fields[k] <==> NoNulls(p.fields[k])
      {
        RfcOnNonObject(p.fields[k], None);
      }
      if NoNulls(p) {
        forall k ensures At(RfcPatch(r, p), k) == At(p, k) {
          if k in p.fields { assert NoNulls(p.fields[k]); }
        }
        SameFields(RfcPatch(r, p), p);
      } else {
        var k :| k in p.fields && !NoNulls(p.fields[k]);
        assert At(RfcPatch(r, p), k) != At(p, k);
      }
    }
  }

  lemma {:induction false} LandedFollowsRfc(p: Json, r: Option<Json>)
    requires !p.Null?
    ensures (Lands(p, r) && Landed(p, r) == Some(RfcPatch(r, p))) <==> FollowsRfc(p, r)
    decreases p, 1
  {
    if r.Some? && !r.value.Object? {
      RfcOnNonObject(p, r);
    } else if p.Object? && r.Some? {
      ObjectFollowsRfc(p, r.value);
    } else if p.Object? {
      HollowFollowsRfc(p);
    }
  }

  /** `merge_patch` raises nothing and computes the RFC's result exactly when `FollowsRfc` holds. */
  lemma {:induction false} ObjectFollowsRfc(p: Json, r: Json)
    requires p.Object? && r.Object?
    ensures (!Conflict(p, r) && Merge(p, r) == RfcPatch(Some(r), p)) <==> FollowsRfc(p, Some(r))
    decreases p, 0
  {
    forall k | k in p.fields
      ensures (Lands(p.fields[k], At(r, k)) && Landed(p.fields[k], At(r, k)) == At(RfcPatch(Some(r), p), k))
        <==> FollowsRfc(p.fields[k], At(r, k))
    {
      RfcFieldwise(p, Some(r), k);
      if !p.fields[k].Null? { LandedFollowsRfc(p.fields[k], At(r, k)); }
    }
    if FollowsRfc(p, Some(r)) {
      forall k ensures At(Merge(p, r), k) == At(RfcPatch(Some(r), p), k) {
        MergeAt(p, r, k);
        RfcFieldwise(p, Some(r), k);
      }
      SameFields(Merge(p, r), RfcPatch(Some(r), p));
    } else if !Conflict(p, r) {
      var k :| k in p.fields && !FollowsRfc(p.fields[k], At(r, k));
      MergeAt(p, r, k);
    }
  }

  /** The case of an absent key: the code drops what the RFC would leave as an empty object. */
  lemma {:induction false} HollowFollowsRfc(p: Json)
    requires p.Object?
    ensures Landed(p, None) == Some(RfcPatch(None, p)) <==> NoHollow(p)
    decreases p, 0
  {
    forall k | k in p.fields && !p.fields[k].Null?
      ensures Landed(p.fields[k], None) == Some(RfcPatch(None, p.fields[k])) <==> NoHollow(p.fields[k])
    {
      LandedFollowsRfc(p.fields[k], None);
    }
    var m, rfc := Merge(p, EMPTY), RfcPatch(None, p);
    forall k ensures At(m, k) == After(p, EMPTY, k) { MergeAt(p, EMPTY, k); }
    forall k
      ensures At(rfc, k) ==
        if k !in p.fields || p.fields[k].Null? then None else Some(RfcPatch(None, p.fields[k]))
    {
      RfcFieldwise(p, None, k);
    }
    if NoHollow(p) {
      forall k ensures At(m, k) == At(rfc, k) {
        if k in p.fields && !p.fields[k].Null? {
          assert NoHollow(p.fields[k]);
          assert At(m, k) == Landed(p.fields[k], None);
          assert At(rfc, k) == Some(RfcPatch(None, p.fields[k]));
        } else {
          assert At(m, k) == After(p, EMPTY, k) == None;
        }
      }
      SameFields(m, rfc);
      var k :| k in p.fields && !p.fields[k].Null?;
      assert At(rfc, k).Some?;
    } else if exists h :: h in p.fields && !NoHollow(p.fields[h]) {
      var h :| h in p.fields && !NoHollow(p.fields[h]);
      assert At(m, h) == After(p, EMPTY, h) != At(rfc, h);
    } else {
      forall k ensures At(m, k) == None {
        if k in p.fields { assert NoHollow(p.fields[k]) && p.fields[k].Null?; }
        assert At(m, k) == After(p, EMPTY, k) == None;
      }
      SameFields(m, EMPTY);
    }
  }

  /** Each of the three conditions is needed: a value on an object raises; a null survives where the RFC
      drops it; an empty object is dropped where the RFC keeps it. */
  lemma RfcConditionsAreNeeded(k: string, n: string, v: Json)
    requires v.Scalar? || v.List?
    ensures Conflict(Object(map[k := v]), Object(map[k := EMPTY]))
    ensures var p, r := Object(map[k := Object(map[n := Null])]), Object(map[k := v]);
      !Conflict(p, r) && Merge(p, r) == p && RfcPatch(Some(r), p) == Object(map[k := EMPTY])
    ensures var p := Object(map[k := Object(map[n := Null])]);
      !Conflict(p, EMPTY) && Merge(p, EMPTY) == EMPTY && RfcPatch(Some(EMPTY), p) == Object(map[k := EMPTY])
  {
    var p, r := Object(map[k := Object(map[n := Null])]), Object(map[k := v]);
    var hollow := Object(map[n := Null]);
    assert !Conflict(p.fields[k], r.fields[k]);
    assert RfcPatch(Some(v), hollow) == EMPTY && RfcPatch(None, hollow) == EMPTY;
    forall x ensures At(Merge(p, r), x) == At(p, x) && At(RfcPatch(Some(r), p), x) == At(Object(map[k := EMPTY]), x) {
      MergeAt(p, r, x);
      RfcFieldwise(p, Some(r), x);
    }
    SameFields(Merge(p, r), p);
    SameFields(RfcPatch(Some(r), p), Object(map[k := EMPTY]));
    assert After(hollow, EMPTY, n) == None;
    assert Merge(hollow, EMPTY) == EMPTY;
    forall x
      ensures At(Merge(p, EMPTY), x) == None
      ensures At(RfcPatch(Some(EMPTY), p), x) == At(Object(map[k := EMPTY]), x)
    {
      MergeAt(p, EMPTY, x);
      RfcFieldwise(p, Some(EMPTY), x);
    }
    SameFields(Merge(p, EMPTY), EMPTY);
    SameFields(RfcPatch(Some(EMPTY), p), Object(map[k := EMPTY]));
  }

  // ---------- merging into nothing ----------

  /** A document holds something when it is a scalar or a list, or an object in which something does. */
  predicate HoldsSomething(p: Json) {
    !p.Null? && (p.Object? ==> exists k <- p.fields :: HoldsSomething(p.fields[k]))
  }

  /** The patch without nulls and without objects that hold nothing. */
  function Prune(p: Json): (q: Json)
    ensures p.Object? <==> q.Object?
  {
    if p.Object? then Object(map k | k in p.fields && HoldsSomething(p.fields[k]) :: Prune(p.fields[k])) else p
  }

  /** Merging into nothing prunes. */
  lemma {:induction false} MergeIntoNothing(p: Json)
    requires p.Object?
    ensures Merge(p, EMPTY) == Prune(p)
  {
    forall k | k in p.fields ensures Landed(p.fields[k], None) == At(Prune(p), k) {
      var v := p.fields[k];
      if v.Object? {
        MergeIntoNothing(v);
        PruneEmptyIffHollow(v);
      }
    }
    forall k ensures At(Merge(p, EMPTY), k) == At(Prune(p), k) { MergeAt(p, EMPTY, k); }
    SameFields(Merge(p, EMPTY), Prune(p));
  }

  lemma PruneEmptyIffHollow(p: Json)
    requires p.Object?
    ensures Prune(p).fields == map[] <==> !HoldsSomething(p)
  {
    if HoldsSomething(p) {
      var k :| k in p.fields && HoldsSomething(p.fields[k]);
      assert k in Prune(p).fields;
    }
  }

  lemma {:induction false} PruneKeepsSomething(p: Json)
    requires HoldsSomething(p)
    ensures HoldsSomething(Prune(p))
  {
    if p.Object? {
      var k :| k in p.fields && HoldsSomething(p.fields[k]);
      PruneKeepsSomething(p.fields[k]);
      assert k in Prune(p).fields && HoldsSomething(Prune(p).fields[k]);
    }
  }

  /** Pruning twice is pruning once. */
  lemma {:induction false} PruneIdempotent(p: Json)
    ensures Prune(Prune(p)) == Prune(p)
  {
    if p.Object? {
      forall k ensures At(Prune(Prune(p)), k) == At(Prune(p), k) {
        if k in Prune(p).fields {
          PruneKeepsSomething(p.fields[k]);
          PruneIdempotent(p.fields[k]);
        }
      }
      SameFields(Prune(Prune(p)), Prune(p));
    }
  }

  // ---------- the same patch twice ----------

  /** No null sits inside an object that lands on a null, a scalar or a list. */
  predicate Settles(p: Json, r: Option<Json>)
    decreases p
  {
    p.Object? && r.Some? ==>
      if r.value.Object? then forall k <- p.fields :: Settles(p.fields[k], At(r.value, k)) else NoNulls(p)
  }

  /** What is left at a key never makes the same patch raise. */
  lemma {:induction false} LandsAgain(p: Json, r: Option<Json>)
    requires Lands(p, r)
    ensures Lands(p, Landed(p, r))
    decreases p, 1
  {
    if p.Object? && r.Some? && !r.value.Object? {
      NoConflictWithItself(p);
    } else if p.Object? {
      MergeLandsAgain(p, if r.Some? then r.value else EMPTY);
    }
  }

  lemma {:induction false} NoConflictWithItself(p: Json)
    ensures !Conflict(p, p)
  {
    if p.Object? {
      forall k | k in p.fields ensures !Conflict(p.fields[k], p.fields[k]) { NoConflictWithItself(p.fields[k]); }
    }
  }

  /** Applying a patch a second time never raises. */
  lemma {:induction false} MergeLandsAgain(p: Json, r: Json)
    requires p.Object? && r.Object? && !Conflict(p, r)
    ensures !Conflict(p, Merge(p, r))
    decreases p, 0
  {
    forall k | k in p.fields && k in Merge(p, r).fields ensures !Conflict(p.fields[k], Merge(p, r).fields[k]) {
      MergeAt(p, r, k);
      LandsAgain(p.fields[k], At(r, k));
    }
  }

  /** A patch merged into itself is itself exactly when it holds no null. */
  lemma {:induction false} MergeWithItself(p: Json)
    requires p.Object?
    ensures !Conflict(p, p)
    ensures Merge(p, p) == p <==> NoNulls(p)
  {
    NoConflictWithItself(p);
    forall k | k in p.fields ensures Landed(p.fields[k], At(p, k)) == At(p, k) <==> NoNulls(p.fields[k]) {
      if p.fields[k].Object? { MergeWithItself(p.fields[k]); }
    }
    if NoNulls(p) {
      forall k ensures At(Merge(p, p), k) == At(p, k) { MergeAt(p, p, k); }
      SameFields(Merge(p, p), p);
    } else {
      var k :| k in p.fields && !NoNulls(p.fields[k]);
      MergeAt(p, p, k);
    }
  }

  lemma {:induction false} LandedTwice(p: Json, r: Option<Json>)
    requires Lands(p, r)
    ensures Lands(p, Landed(p, r))
    ensures Landed(p, Landed(p, r)) == Landed(p, r) <==> Settles(p, r)
    decreases p, 1
  {
    LandsAgain(p, r);
    if p.Object? && r.Some? && !r.value.Object? {
      MergeWithItself(p);
    } else if p.Object? && r.Some? {
      PatchTwice(p, r.value);
    } else if p.Object? {
      PatchTwice(p, EMPTY);
      assert Settles(p, Some(EMPTY));
    }
  }

  /** The same patch twice equals the patch once exactly when no null sits inside an object that lands
      on a null, a scalar or a list. */
  lemma {:induction false} PatchTwice(p: Json, r: Json)
    requires p.Object? && r.Object? && !Conflict(p, r)
    ensures !Conflict(p, Merge(p, r))
    ensures Merge(p, Merge(p, r)) == Merge(p, r) <==> Settles(p, Some(r))
    decreases p, 0
  {
    var m := Merge(p, r);
    MergeLandsAgain(p, r);
    forall k ensures At(m, k) == After(p, r, k) && At(Merge(p, m), k) == After(p, m, k) {
      MergeAt(p, r, k);
      MergeAt(p, m, k);
    }
    forall k | k in p.fields ensures At(Merge(p, m), k) == At(m, k) <==> Settles(p.fields[k], At(r, k)) {
      LandedTwice(p.fields[k], At(r, k));
    }
    if Settles(p, Some(r)) {
      forall k ensures At(Merge(p, m), k) == At(m, k) {}
      SameFields(Merge(p, m), m);
    } else {
      var k :| k in p.fields && !Settles(p.fields[k], At(r, k));
      assert At(Merge(p, m), k) != At(m, k);
    }
  }

  // ---------- paths the patch does not mention ----------

  function Lookup(j: Json, path: seq<string>): Option<Json> {
    if path == [] then Some(j)
    else if j.Object? && path[0] in j.fields then Lookup(j.fields[path[0]], path[1..])
    else None
  }

  /** The patch reaches no key on the way to the end of the path. */
  predicate Unmentioned(p: Json, path: seq<string>)
    decreases path
  {
    p.Object? && path != [] && (path[0] in p.fields ==> Unmentioned(p.fields[path[0]], path[1..]))
  }

  /** A path the patch does not mention keeps its value, or its absence. */
  lemma {:induction false} UnmentionedIsKept(p: Json, r: Json, path: seq<string>)
    requires p.Object? && r.Object? && !Conflict(p, r) && Unmentioned(p, path)
    ensures Lookup(Merge(p, r), path) == Lookup(r, path)
    decreases path
  {
    var k, rest := path[0], path[1..];
    MergeAt(p, r, k);
    if k in p.fields {
      var v := p.fields[k];
      if k !in r.fields {
        UnmentionedIsKept(v, EMPTY, rest);
      } else if r.fields[k].Object? {
        UnmentionedIsKept(v, r.fields[k], rest);
      } else {
        UnmentionedIsAbsent(v, rest);
      }
    }
  }

  lemma {:induction false} UnmentionedIsAbsent(p: Json, path: seq<string>)
    requires Unmentioned(p, path)
    ensures Lookup(p, path) == None
    decreases path
  {
    if path[0] in p.fields { UnmentionedIsAbsent(p.fields[path[0]], path[1..]); }
  }

  // ---------- path by path ----------

  predicate IsValue(j: Json) {
    j.Scalar? || j.List?
  }

  /** At this path the patch has a scalar or a list and the resource an object. */
  predicate Clashes(p: Json, r: Json, path: seq<string>) {
    && Lookup(p, path).Some? && IsValue(Lookup(p, path).value)
    && Lookup(r, path).Some? && Lookup(r, path).value.Object?
  }

  /** The merge raises exactly when at some path a scalar or a list meets an object. */
  lemma {:induction false} ConflictIsAClash(p: Json, r: Json)
    ensures Conflict(p, r) <==> exists path :: Clashes(p, r, path)
  {
    if Conflict(p, r) { ConflictHasAPath(p, r); }
    if path :| Clashes(p, r, path) { ClashConflicts(p, r, path); }
  }

  lemma {:induction false} ConflictHasAPath(p: Json, r: Json)
    requires Conflict(p, r)
    ensures exists path :: Clashes(p, r, path)
  {
    if p.Object? {
      var k :| k in p.fields && k in r.fields && Conflict(p.fields[k], r.fields[k]);
      ConflictHasAPath(p.fields[k], r.fields[k]);
      var rest :| Clashes(p.fields[k], r.fields[k], rest);
      var path := [k] + rest;
      assert path[1..] == rest;
      assert Clashes(p, r, path);
    } else {
      assert Clashes(p, r, []);
    }
  }

  lemma {:induction false} ClashConflicts(p: Json, r: Json, path: seq<string>)
    requires Clashes(p, r, path)
    ensures Conflict(p, r)
    decreases path
  {
    if path != [] { ClashConflicts(p.fields[path[0]], r.fields[path[0]], path[1..]); }
  }

  /** A value that is no object stands above the end of the path. */
  predicate InTheWay(r: Json, path: seq<string>)
    decreases path
  {
    path != [] && (!r.Object? || (path[0] in r.fields && InTheWay(r.fields[path[0]], path[1..])))
  }

  /** Wherever the patch holds a scalar or a list, so does the result. */
  lemma {:induction false} ValuesArrive(p: Json, r: Json, path: seq<string>)
    requires p.Object? && r.Object? && !Conflict(p, r)
    requires Lookup(p, path).Some? && IsValue(Lookup(p, path).value)
    ensures Lookup(Merge(p, r), path) == Lookup(p, path)
    decreases path
  {
    var k, rest := path[0], path[1..];
    MergeAt(p, r, k);
    var v := p.fields[k];
    if v.Object? {
      if k !in r.fields {
        ValuesArrive(v, EMPTY, rest);
      } else if r.fields[k].Object? {
        ValuesArrive(v, r.fields[k], rest);
      }
    }
  }

  /** Wherever the patch holds a null the result holds nothing, except below a value of the resource that
      an object of the patch replaces: there the null stays. */
  lemma {:induction false} NullsRemove(p: Json, r: Json, path: seq<string>)
    requires p.Object? && r.Object? && !Conflict(p, r) && Lookup(p, path) == Some(Null)
    ensures Lookup(Merge(p, r), path) == if InTheWay(r, path) then Some(Null) else None
    decreases path
  {
    var k, rest := path[0], path[1..];
    MergeAt(p, r, k);
    var v := p.fields[k];
    if v.Object? {
      if k !in r.fields {
        NullsRemove(v, EMPTY, rest);
        NothingInTheWay(rest);
      } else if r.fields[k].Object? {
        NullsRemove(v, r.fields[k], rest);
      }
    }
  }

  lemma NothingInTheWay(path: seq<string>)
    ensures !InTheWay(EMPTY, path)
  {
  }

  /** An object of the patch that lands on a null, a scalar or a list takes its place unchanged, nulls and
      empty objects included. */
  lemma {:induction false} ObjectsReplaceValues(p: Json, r: Json, path: seq<string>)
    requires p.Object? && r.Object? && !Conflict(p, r)
    requires Lookup(p, path).Some? && Lookup(p, path).value.Object?
    requires Lookup(r, path).Some? && !Lookup(r, path).value.Object?
    ensures Lookup(Merge(p, r), path) == Lookup(p, path)
    decreases path
  {
    var k, rest := path[0], path[1..];
    MergeAt(p, r, k);
    if rest != [] { ObjectsReplaceValues(p.fields[k], r.fields[k], rest); }
  }
}

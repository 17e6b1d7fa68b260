/** Which settings come from where: the provenance labels, and their agreement with the merge. */
module Provenance {
  import opened Prelude
  import opened MergePatch

  datatype Origin = Label(text: string) | Node(fields: map<string, Origin>)

  const DEFAULT := "default"

  /** The settings hold an object wherever they touch an object of the default; otherwise the code raises. */
  predicate Fits(new_: Json, def: Json)
    decreases new_
  {
    new_.Object? && def.Object? &&
    forall k <- def.fields :: def.fields[k].Object? && k in new_.fields ==> Fits(new_.fields[k], def.fields[k])
  }

  /** The label of one key, or the labels below it. */
  function OriginAt(name: string, new_: Json, def: Json, k: string): Option<Origin>
    requires Fits(new_, def)
    decreases new_, 0
  {
    if k in def.fields then
      if def.fields[k].Object? then
        if k in new_.fields then Some(OriginOf(name, new_.fields[k], def.fields[k]))
        else Some(Node(map s | s in def.fields[k].fields :: Label(DEFAULT)))
      else Some(Label(if k in new_.fields && new_.fields[k] != def.fields[k] then name else DEFAULT))
    else if k in new_.fields then
      if new_.fields[k].Object? then Some(OriginOf(name, new_.fields[k], EMPTY)) else Some(Label(name))
    else None
  }

  function OriginOf(name: string, new_: Json, def: Json): (o: Origin)
    requires Fits(new_, def)
    ensures o.Node?
    decreases new_, 1
  {
    Node(map k | k in new_.fields.Keys + def.fields.Keys && OriginAt(name, new_, def, k).Some? ::
      OriginAt(name, new_, def, k).value)
  }

  /** `set_origin_from_settings`: the keys are taken in any order. `ok` is false when it raises. */
  method SetOriginFromSettings(name: string, new_: Json, def: Json) returns (ok: bool, origin: Origin)
    requires def.Object?
    ensures ok <==> Fits(new_, def)
    ensures ok ==> origin == OriginOf(name, new_, def)
    decreases new_
  {
    origin := Node(map[]);
    if !new_.Object? { return false, origin; }
    var rest := new_.fields;
    var labels: map<string, Origin> := map[];
    var todo := def.fields.Keys;
    while todo != {}
      invariant todo <= def.fields.Keys && labels.Keys == def.fields.Keys - todo
      invariant rest == new_.fields - (def.fields.Keys - todo)
      invariant forall k | k in labels ::
        k in new_.fields && def.fields[k].Object? ==> Fits(new_.fields[k], def.fields[k])
      invariant Fits(new_, def) ==> forall k | k in labels :: OriginAt(name, new_, def, k) == Some(labels[k])
      decreases todo
    {
      var key :| key in todo;
      var value := def.fields[key];
      if value.Object? {
        if key in rest {
          var fine, inner := SetOriginFromSettings(name, rest[key], value);
          if !fine { return false, Node(labels); }
          labels := labels[key := inner];
          rest := rest - {key};
        } else {
          labels := labels[key := Node(map s | s in value.fields :: Label(DEFAULT))];
        }
      } else {
        if key in rest {
          labels := labels[key := if rest[key] != value then Label(name) else Label(DEFAULT)];
          rest := rest - {key};
        } else {
          labels := labels[key := Label(DEFAULT)];
        }
      }
      todo := todo - {key};
    }
    assert Fits(new_, def);
    todo := rest.Keys;
    while todo != {}
      invariant todo <= rest.Keys && labels.Keys == def.fields.Keys + (rest.Keys - todo)
      invariant forall k | k in labels :: OriginAt(name, new_, def, k) == Some(labels[k])
      decreases todo
    {
      var key :| key in todo;
      if rest[key].Object? {
        var _, inner := SetOriginFromSettings(name, rest[key], EMPTY);
        labels := labels[key := inner];
      } else {
        labels := labels[key := Label(name)];
      }
      todo := todo - {key};
    }
    assert labels == OriginOf(name, new_, def).fields;
    return true, Node(labels);
  }

  // ---------- agreement with the merge ----------

  lemma {:induction false} FittingSettingsMerge(new_: Json, def: Json)
    requires Fits(new_, def)
    ensures !Conflict(new_, def)
    decreases new_
  {
    forall k | k in new_.fields && k in def.fields ensures !Conflict(new_.fields[k], def.fields[k]) {
      if def.fields[k].Object? { FittingSettingsMerge(new_.fields[k], def.fields[k]); }
    }
  }

  /** The path, or a key on the way to it, carries the label. */
  predicate LabelledAt(o: Origin, path: seq<string>, name: string)
    decreases path
  {
    match o
    case Label(text) => text == name
    case Node(fields) => path != [] && path[0] in fields && LabelledAt(fields[path[0]], path[1..], name)
  }

  /** A leaf of the default carries the settings' label exactly when merging the settings onto the
      default changes or removes it, except a null leaf that the settings also set to null. */
  lemma {:induction false} LabelsMatchMerge(name: string, new_: Json, def: Json, path: seq<string>)
    requires Fits(new_, def) && name != DEFAULT
    requires Lookup(def, path).Some? && !Lookup(def, path).value.Object?
    ensures !Conflict(new_, def)
    ensures (LabelledAt(OriginOf(name, new_, def), path, name) <==> Lookup(Merge(new_, def), path) != Lookup(def, path))
      <==> !(Lookup(def, path) == Some(Null) && Lookup(new_, path) == Some(Null))
    decreases path
  {
    FittingSettingsMerge(new_, def);
    var k, rest := path[0], path[1..];
    MergeAt(new_, def, k);
    var o := OriginOf(name, new_, def);
    assert OriginAt(name, new_, def, k).Some? && k in new_.fields.Keys + def.fields.Keys;
    assert k in o.fields && Some(o.fields[k]) == OriginAt(name, new_, def, k);
    if def.fields[k].Object? {
      assert rest != [];
      if k in new_.fields {
        LabelsMatchMerge(name, new_.fields[k], def.fields[k], rest);
      } else {
        assert rest[0] in def.fields[k].fields;
        assert !LabelledAt(o.fields[k], rest, name);
      }
    } else {
      assert rest == [];
    }
  }

  ghost predicate NowhereLabelled(o: Origin, name: string) {
    match o
    case Label(text) => text != name
    case Node(fields) => forall k <- fields :: NowhereLabelled(fields[k], name)
  }

  lemma {:induction false} FitsItself(d: Json)
    requires d.Object?
    ensures Fits(d, d)
  {
    forall k | k in d.fields && d.fields[k].Object? ensures Fits(d.fields[k], d.fields[k]) { FitsItself(d.fields[k]); }
  }

  /** Comparing the default with itself labels nothing with the settings' name. */
  lemma {:induction false} DefaultAgainstItself(name: string, d: Json)
    requires d.Object? && name != DEFAULT
    ensures Fits(d, d) && NowhereLabelled(OriginOf(name, d, d), name)
  {
    FitsItself(d);
    var o := OriginOf(name, d, d);
    forall k | k in o.fields ensures NowhereLabelled(o.fields[k], name) {
      assert Some(o.fields[k]) == OriginAt(name, d, d, k);
      if d.fields[k].Object? { DefaultAgainstItself(name, d.fields[k]); }
    }
  }

  /** A leaf of the default is labelled either with the settings' name or as "default". */
  lemma {:induction false} DefaultLeavesAreLabelled(name: string, new_: Json, def: Json, path: seq<string>)
    requires Fits(new_, def) && name != DEFAULT
    requires Lookup(def, path).Some? && !Lookup(def, path).value.Object?
    ensures LabelledAt(OriginOf(name, new_, def), path, "default") <==>
      !LabelledAt(OriginOf(name, new_, def), path, name)
    decreases path
  {
    var k, rest := path[0], path[1..];
    var o := OriginOf(name, new_, def);
    assert OriginAt(name, new_, def, k).Some? && k in new_.fields.Keys + def.fields.Keys;
    assert k in o.fields && Some(o.fields[k]) == OriginAt(name, new_, def, k);
    if def.fields[k].Object? {
      assert rest != [];
      if k in new_.fields {
        DefaultLeavesAreLabelled(name, new_.fields[k], def.fields[k], rest);
      } else {
        assert rest[0] in def.fields[k].fields && o.fields[k].fields[rest[0]] == Label(DEFAULT);
        assert LabelledAt(o.fields[k], rest, "default") && !LabelledAt(o.fields[k], rest, name);
      }
    }
  }

  /** What only the settings hold is labelled with their name, leaf by leaf. */
  lemma {:induction false} AddedLeavesAreNamed(name: string, new_: Json, def: Json, path: seq<string>)
    requires Fits(new_, def)
    requires Lookup(new_, path).Some? && !Lookup(new_, path).value.Object? && Lookup(def, path).None?
    ensures LabelledAt(OriginOf(name, new_, def), path, name)
    decreases path
  {
    var k, rest := path[0], path[1..];
    var o := OriginOf(name, new_, def);
    assert OriginAt(name, new_, def, k).Some? && k in new_.fields.Keys + def.fields.Keys;
    assert k in o.fields && Some(o.fields[k]) == OriginAt(name, new_, def, k);
    if k !in def.fields && new_.fields[k].Object? {
      AddedLeavesAreNamed(name, new_.fields[k], EMPTY, rest);
    } else if k in def.fields && def.fields[k].Object? {
      AddedLeavesAreNamed(name, new_.fields[k], def.fields[k], rest);
    }
  }

  /** Nothing carries any other label, and what neither side holds carries none. */
  lemma {:induction false} OnlyTwoLabels(name: string, new_: Json, def: Json, path: seq<string>, text: string)
    requires Fits(new_, def) && LabelledAt(OriginOf(name, new_, def), path, text)
    ensures text == name || text == "default"
    ensures path != [] && (path[0] in new_.fields || path[0] in def.fields)
    decreases path
  {
    var k, rest := path[0], path[1..];
    var o := OriginOf(name, new_, def);
    assert Some(o.fields[k]) == OriginAt(name, new_, def, k);
    if k in new_.fields && new_.fields[k].Object? && (k !in def.fields || def.fields[k].Object?) {
      OnlyTwoLabels(name, new_.fields[k], if k in def.fields then def.fields[k] else EMPTY, rest, text);
    } else if o.fields[k].Node? {
      assert rest != [] && LabelledAt(o.fields[k].fields[rest[0]], rest[1..], text);
    }
  }

  // ---------- the shape of the labels ----------

  function OriginLookup(o: Origin, path: seq<string>): Option<Origin> {
    if path == [] then Some(o)
    else if o.Node? && path[0] in o.fields then OriginLookup(o.fields[path[0]], path[1..])
    else None
  }

  /** The settings reach the object that holds the end of the path. */
  predicate Reaches(new_: Json, path: seq<string>)
    decreases path
  {
    new_.Object? && path != [] &&
    (|path| > 1 ==> path[0] in new_.fields && Reaches(new_.fields[path[0]], path[1..]))
  }

  lemma OriginDescends(name: string, new_: Json, def: Json, path: seq<string>)
    requires Fits(new_, def) && |path| > 1 && path[0] in new_.fields && path[0] in def.fields
    requires def.fields[path[0]].Object?
    ensures OriginLookup(OriginOf(name, new_, def), path) ==
      OriginLookup(OriginOf(name, new_.fields[path[0]], def.fields[path[0]]), path[1..])
  {
    assert OriginAt(name, new_, def, path[0]).Some? && path[0] in new_.fields.Keys + def.fields.Keys;
  }

  lemma OriginHere(name: string, new_: Json, def: Json, k: string)
    requires Fits(new_, def) && k in def.fields
    ensures OriginLookup(OriginOf(name, new_, def), [k]) == OriginAt(name, new_, def, k)
  {
    assert OriginAt(name, new_, def, k).Some? && k in new_.fields.Keys + def.fields.Keys;
    assert [k][1..] == [];
  }

  /** Where the settings reach a section of the default, each of its leaves carries its own label: the
      settings' name exactly when they hold another value there. */
  lemma {:induction false} LabelsSitOnLeaves(name: string, new_: Json, def: Json, path: seq<string>)
    requires Fits(new_, def) && Reaches(new_, path)
    requires Lookup(def, path).Some? && !Lookup(def, path).value.Object?
    ensures var changed := Lookup(new_, path).Some? && Lookup(new_, path) != Lookup(def, path);
      OriginLookup(OriginOf(name, new_, def), path) == Some(Label(if changed then name else "default"))
    decreases path
  {
    var k := path[0];
    if |path| > 1 {
      OriginDescends(name, new_, def, path);
      LabelsSitOnLeaves(name, new_.fields[k], def.fields[k], path[1..]);
    } else {
      assert path == [k] && path[1..] == [];
      OriginHere(name, new_, def, k);
    }
  }

  /** A section of the default that the settings leave out is labelled key by key, one level deep; one they
      hold as well has the keys of both. */
  lemma {:induction false} SectionsAreSpreadOut(name: string, new_: Json, def: Json, path: seq<string>)
    requires Fits(new_, def) && Reaches(new_, path)
    requires Lookup(def, path).Some? && Lookup(def, path).value.Object?
    ensures var section, origin := Lookup(def, path).value, OriginLookup(OriginOf(name, new_, def), path);
      && origin.Some? && origin.value.Node?
      && (Lookup(new_, path).None? ==>
            && origin.value.fields.Keys == section.fields.Keys
            && forall s <- section.fields :: origin.value.fields[s] == Label("default"))
      && (Lookup(new_, path).Some? ==>
            && Lookup(new_, path).value.Object?
            && origin.value.fields.Keys == section.fields.Keys + Lookup(new_, path).value.fields.Keys)
    decreases path
  {
    var k := path[0];
    if |path| > 1 {
      OriginDescends(name, new_, def, path);
      SectionsAreSpreadOut(name, new_.fields[k], def.fields[k], path[1..]);
    } else {
      assert path == [k] && path[1..] == [];
      OriginHere(name, new_, def, k);
      assert Lookup(def, path) == Some(def.fields[k]);
      if k in new_.fields {
        assert Lookup(new_, path) == Some(new_.fields[k]);
        OriginKeys(name, new_.fields[k], def.fields[k]);
      } else {
        assert OriginAt(name, new_, def, k).value.fields.Keys == def.fields[k].fields.Keys;
      }
    }
  }

  lemma OriginKeys(name: string, new_: Json, def: Json)
    requires Fits(new_, def)
    ensures OriginOf(name, new_, def).fields.Keys == new_.fields.Keys + def.fields.Keys
  {
    forall k | k in new_.fields.Keys + def.fields.Keys ensures OriginAt(name, new_, def, k).Some? {}
  }
}

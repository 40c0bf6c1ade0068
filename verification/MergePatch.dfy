/** Provisioning: the merge patch from the previous template to the wanted one, and what applying it does. */
module MergePatch {
  import opened Base

  /** A JSON value; a scalar is a boolean, a number or a string, by its text. */
  datatype Json = Null | Scalar(text: string) | Arr(items: seq<Json>) | Obj(fields: map<string, Json>)

  /** Everything wanted is there: each field of an object, each item of an array of the same length. */
  predicate Subset(desired: Json, live: Json)
    decreases desired
  {
    match desired
    case Obj(fields) => forall k :: k in fields ==> live.Obj? && k in live.fields && Subset(fields[k], live.fields[k])
    case Arr(items) => live.Arr? && |items| == |live.items| && forall i :: 0 <= i < |items| ==>
        Subset(items[i], live.items[i])
    case _ => desired == live
  }

  /** The patch: the wanted value, with a null for each field the previous object had and the wanted one lacks. */
  function Patch(previous: Json, desired: Json): Json
    decreases desired
  {
    if previous.Obj? && desired.Obj? then
      var had, wants := previous.fields, desired.fields;
      Obj(map k | k in wants.Keys + had.Keys ::
            if k !in wants then Null else if k in had then Patch(had[k], wants[k]) else wants[k])
    else desired
  }

  function Field(j: Json, k: string): Option<Json> {
    if j.Obj? && k in j.fields then Some(j.fields[k]) else None
  }

  function OrNull(o: Option<Json>): Json {
    if o.Some? then o.value else Null
  }

  /** Section 2 of RFC 7396: a patch that is an object removes its null fields and merges the others, into an
      empty object when the target is none; any other patch replaces the target. */
  function Apply(target: Json, patch: Json): Json
    decreases patch
  {
    if patch.Obj? then
      var base: map<string, Json> := if target.Obj? then target.fields else map[];
      Obj(map k | k in base.Keys + patch.fields.Keys && !(k in patch.fields && patch.fields[k].Null?) ::
            if k in patch.fields then Apply(OrNull(Field(target, k)), patch.fields[k]) else base[k])
    else patch
  }

  /** The source's loop: the wanted object, then one entry per field of the previous one. */
  method MergePatch(previous: Json, desired: Json) returns (patch: Json)
    ensures patch == Patch(previous, desired)
    decreases desired
  {
    if !previous.Obj? || !desired.Obj? {
      return desired;
    }
    hide Patch, Partly, Entry;
    var had, wants := previous.fields, desired.fields;
    var fields := wants;
    var keys := had.Keys;
    NoneYet(had, wants);
    while keys != {}
      invariant keys <= had.Keys && Partly(had, wants, keys, fields)
      decreases |keys|
    {
      var key :| key in keys;
      var value := Null;
      if key in wants {
        value := MergePatch(had[key], wants[key]);
      }
      NextEntry(had, wants, keys, fields, key);
      fields := fields[key := value];
      keys := keys - {key};
    }
    patch := Obj(fields);
    PatchEntries(previous, desired, fields);
  }

  /** The patch with the previous fields among `keys` still to do. */
  ghost predicate Partly(had: map<string, Json>, wants: map<string, Json>, keys: set<string>,
                         fields: map<string, Json>) {
    && (forall k :: k in fields <==> k in wants || (k in had && k !in keys))
    && (forall k :: k in fields ==> fields[k] == if k in had && k !in keys then Entry(had, wants, k) else wants[k])
  }

  lemma NoneYet(had: map<string, Json>, wants: map<string, Json>)
    ensures Partly(had, wants, had.Keys, wants)
  {
  }

  lemma NextEntry(had: map<string, Json>, wants: map<string, Json>, keys: set<string>, fields: map<string, Json>,
                  key: string)
    requires Partly(had, wants, keys, fields) && key in keys && keys <= had.Keys
    ensures key in wants ==> Partly(had, wants, keys - {key}, fields[key := Patch(had[key], wants[key])])
    ensures key !in wants ==> Partly(had, wants, keys - {key}, fields[key := Null])
  {
    hide Patch;
  }

  function Entry(had: map<string, Json>, wants: map<string, Json>, k: string): Json {
    if k in had && k in wants then Patch(had[k], wants[k]) else Null
  }

  lemma PatchEntries(previous: Json, desired: Json, fields: map<string, Json>)
    requires previous.Obj? && desired.Obj? && Partly(previous.fields, desired.fields, {}, fields)
    ensures Patch(previous, desired) == Obj(fields)
  {
    assert Patch(previous, desired).fields == fields;
  }

  // ---- one field at a time -----------------------------------------------------------------------------

  /** What applying the patch leaves. */
  function Result(live: Json, previous: Json, desired: Json): Json {
    Apply(live, Patch(previous, desired))
  }

  lemma FieldOfResult(live: Json, previous: Json, desired: Json, k: string)
    requires desired.Obj?
    ensures Result(live, previous, desired).Obj?
    ensures Field(Result(live, previous, desired), k) ==
            if k in desired.fields then
              if desired.fields[k].Null? then None
              else Some(Result(OrNull(Field(live, k)), OrNull(Field(previous, k)), desired.fields[k]))
            else if Field(previous, k).Some? then None
            else Field(live, k)
  {
    var patch := Patch(previous, desired);
    if k in desired.fields {
      assert patch.fields[k] == Patch(OrNull(Field(previous, k)), desired.fields[k]);
    }
  }

  /** No object holds a null field; what an array holds does not matter. */
  predicate NoNullFields(j: Json)
    decreases j
  {
    j.Obj? ==> forall k :: k in j.fields ==> !j.fields[k].Null? && NoNullFields(j.fields[k])
  }

  lemma {:induction false} SubsetOfItself(j: Json)
    ensures Subset(j, j)
    decreases j
  {
    match j
    case Obj(fields) =>
      forall k | k in fields ensures Subset(fields[k], fields[k]) {
        SubsetOfItself(fields[k]);
      }
    case Arr(items) =>
      forall i | 0 <= i < |items| ensures Subset(items[i], items[i]) {
        SubsetOfItself(items[i]);
      }
    case _ =>
  }

  /** Whatever is live, the patched object holds everything wanted, so the next pass writes nothing, if and
      only if the wanted object has no null field, which a merge patch reads as a removal. */
  lemma {:induction false} PatchConvergesExactly(live: Json, previous: Json, desired: Json)
    ensures Subset(desired, Result(live, previous, desired)) <==> NoNullFields(desired)
    decreases desired
  {
    hide Patch, Apply, Result;
    if desired.Obj? {
      var after := Result(live, previous, desired);
      assert after.Obj? by {
        FieldOfResult(live, previous, desired, "");
      }
      forall k | k in desired.fields
        ensures (Field(after, k).Some? && Subset(desired.fields[k], after.fields[k])) <==>
                (!desired.fields[k].Null? && NoNullFields(desired.fields[k]))
      {
        FieldOfResult(live, previous, desired, k);
        PatchConvergesExactly(OrNull(Field(live, k)), OrNull(Field(previous, k)), desired.fields[k]);
      }
      forall k | k in desired.fields
        ensures (k in after.fields && Subset(desired.fields[k], after.fields[k])) <==>
                (!desired.fields[k].Null? && NoNullFields(desired.fields[k]))
      {
        assert Field(after, k).Some? <==> k in after.fields;
      }
    } else {
      SubsetOfItself(desired);
      ReplacesWhole(live, previous, desired);
    }
  }

  lemma ReplacesWhole(live: Json, previous: Json, desired: Json)
    requires !desired.Obj?
    ensures Result(live, previous, desired) == desired
  {
  }

  // ---- path by path --------------------------------------------------------------------------------------

  /** The value at a path of field names. */
  function At(j: Json, path: seq<string>): Option<Json> {
    if path == [] then Some(j)
    else
      var next := Field(j, path[0]);
      if next.Some? then At(next.value, path[1..]) else None
  }

  lemma AtNull(path: seq<string>)
    requires path != []
    ensures At(Null, path).None?
  {
  }

  /** Below an object the wanted value has: a field it lacks is removed if the previous template set it, and
      else is as it was live; and a wanted value that is no object stands as wanted. */
  lemma {:induction false} PatchedPathByPath(live: Json, previous: Json, desired: Json, path: seq<string>, k: string)
    requires NoNullFields(desired) && At(desired, path).Some?
    ensures var wanted := At(desired, path).value;
            if !wanted.Obj? then At(Result(live, previous, desired), path) == Some(wanted)
            else k !in wanted.fields ==>
              At(Result(live, previous, desired), path + [k]) ==
              if At(previous, path + [k]).Some? then None else At(live, path + [k])
    decreases |path|
  {
    hide Patch, Apply, Result;
    var after := Result(live, previous, desired);
    if path == [] {
      assert path + [k] == [k] && [k][1..] == [];
      if desired.Obj? {
        FieldOfResult(live, previous, desired, k);
        OneField(after, k);
        OneField(previous, k);
        OneField(live, k);
      } else {
        ReplacesWhole(live, previous, desired);
      }
    } else {
      var f := path[0];
      FieldOfResult(live, previous, desired, f);
      assert (path + [k])[1..] == path[1..] + [k] && (path + [k])[0] == f;
      PatchedPathByPath(OrNull(Field(live, f)), OrNull(Field(previous, f)), desired.fields[f], path[1..], k);
      Descend(live, path + [k]);
      Descend(previous, path + [k]);
    }
  }

  lemma OneField(j: Json, k: string)
    ensures At(j, [k]) == Field(j, k)
  {
    assert [k][1..] == [];
  }

  /** A longer path goes on from the field, or from nothing. */
  lemma Descend(j: Json, path: seq<string>)
    requires |path| > 1
    ensures At(j, path) == At(OrNull(Field(j, path[0])), path[1..])
  {
    AtNull(path[1..]);
  }

  // ---- what counts as already there --------------------------------------------------------------------------

  datatype Place = Key(name: string) | Index(at: nat)

  function Within(j: Json, step: Place): Option<Json> {
    match step
    case Key(k) => if j.Obj? && k in j.fields then Some(j.fields[k]) else None
    case Index(i) => if j.Arr? && i < |j.items| then Some(j.items[i]) else None
  }

  /** The value down a way through fields and items. */
  function Down(j: Json, way: seq<Place>): Option<Json> {
    if way == [] then Some(j)
    else
      var next := Within(j, way[0]);
      if next.Some? then Down(next.value, way[1..]) else None
  }

  /** Where the wanted value has something, the live one does: an array as long, and a scalar or null the same. */
  ghost predicate Meets(desired: Json, live: Json, way: seq<Place>) {
    var wanted, there := Down(desired, way), Down(live, way);
    wanted.Some? ==>
      && there.Some?
      && (wanted.value.Arr? ==> there.value.Arr? && |there.value.items| == |wanted.value.items|)
      && (!wanted.value.Arr? && !wanted.value.Obj? ==> there == wanted)
  }

  lemma Below(desired: Json, live: Json, step: Place, way: seq<Place>)
    requires Within(desired, step).Some? && Within(live, step).Some?
    ensures Meets(desired, live, [step] + way) <==> Meets(Within(desired, step).value, Within(live, step).value, way)
  {
    assert ([step] + way)[1..] == way;
  }

  lemma JustBelow(j: Json, step: Place)
    ensures Down(j, [step]) == Within(j, step)
  {
    assert [step][1..] == [];
  }

  /** A live object needs no patch exactly when it meets the wanted one everywhere; what else it holds in its
      objects does not matter. */
  lemma {:induction false} SubsetEverywhere(desired: Json, live: Json)
    ensures Subset(desired, live) <==> forall way :: Meets(desired, live, way)
    decreases desired
  {
    hide Meets;
    if Subset(desired, live) {
      forall way ensures Meets(desired, live, way) {
        SubsetMeets(desired, live, way);
      }
    }
    if forall way :: Meets(desired, live, way) {
      MeetsIsSubset(desired, live);
    }
  }

  lemma {:induction false} SubsetMeets(desired: Json, live: Json, way: seq<Place>)
    requires Subset(desired, live)
    ensures Meets(desired, live, way)
    decreases |way|
  {
    if way != [] && Within(desired, way[0]).Some? {
      assert Within(live, way[0]).Some?;
      SubsetMeets(Within(desired, way[0]).value, Within(live, way[0]).value, way[1..]);
      Below(desired, live, way[0], way[1..]);
      assert way == [way[0]] + way[1..];
    }
  }

  lemma {:induction false} MeetsIsSubset(desired: Json, live: Json)
    requires forall way :: Meets(desired, live, way)
    ensures Subset(desired, live)
    decreases desired
  {
    hide Down;
    match desired
    case Obj(fields) =>
      forall k | k in fields ensures live.Obj? && k in live.fields && Subset(fields[k], live.fields[k]) {
        InsideMeets(desired, live, Key(k));
        MeetsIsSubset(fields[k], live.fields[k]);
      }
    case Arr(items) =>
      assert live.Arr? && |live.items| == |items| by {
        MeetsHere(desired, live);
      }
      forall i | 0 <= i < |items| ensures Subset(items[i], live.items[i]) {
        InsideMeets(desired, live, Index(i));
        MeetsIsSubset(items[i], live.items[i]);
      }
    case _ => MeetsHere(desired, live);
  }

  lemma MeetsHere(desired: Json, live: Json)
    requires Meets(desired, live, [])
    ensures desired.Arr? ==> live.Arr? && |live.items| == |desired.items|
    ensures !desired.Arr? && !desired.Obj? ==> live == desired
  {
  }

  lemma InsideMeets(desired: Json, live: Json, step: Place)
    requires Within(desired, step).Some? && forall way :: Meets(desired, live, way)
    ensures Within(live, step).Some?
    ensures forall way :: Meets(Within(desired, step).value, Within(live, step).value, way)
  {
    JustBelow(desired, step);
    JustBelow(live, step);
    assert Meets(desired, live, [step]);
    forall way ensures Meets(Within(desired, step).value, Within(live, step).value, way) {
      Below(desired, live, step, way);
    }
  }
}

/** Copying owned fields between dynamically typed Kubernetes objects (internal/helpers/managers/unstructured.go). */
module Unstructured {
  /** A decoded JSON value; everything but an object is opaque. */
  datatype Value = Object(members: map<string, Value>) | Other(text: string)

  class Resource {
    var fields: map<string, Value>

    constructor (fields: map<string, Value>)
      ensures this.fields == fields
    {
      this.fields := fields;
    }
  }

  /** The owned fields: those listed that the source holds as objects. */
  predicate Owned(from: map<string, Value>, names: seq<string>, f: string) {
    f in names && f in from && from[f].Object?
  }

  /** What the target must become: the owned fields as in the source, everything else as it was. */
  function Merged(from: map<string, Value>, to: map<string, Value>, names: seq<string>): map<string, Value> {
    map f | f in to.Keys + from.Keys && (f in to || Owned(from, names, f)) ::
      if Owned(from, names, f) then from[f] else to[f]
  }

  /** One more name merges one more field. */
  lemma MergedStep(from: map<string, Value>, to: map<string, Value>, names: seq<string>, f: string)
    ensures Merged(from, to, names + [f]) ==
            if f in from && from[f].Object? then Merged(from, to, names)[f := from[f]] else Merged(from, to, names)
  {
    var more := Merged(from, to, names + [f]);
    var less := Merged(from, to, names);
    if f in from && from[f].Object? {
      assert more == less[f := from[f]];
    } else {
      assert more == less;
    }
  }

  /** Merging changes a target exactly when some owned field differs there or is missing. */
  lemma MergedChanges(from: map<string, Value>, to: map<string, Value>, names: seq<string>)
    ensures Merged(from, to, names) != to <==> exists f :: Owned(from, names, f) && (f !in to || to[f] != from[f])
  {
    if forall f :: Owned(from, names, f) ==> f in to && to[f] == from[f] {
      assert Merged(from, to, names) == to;
    } else {
      var f :| Owned(from, names, f) && (f !in to || to[f] != from[f]);
      assert f in Merged(from, to, names) && Merged(from, to, names)[f] == from[f];
    }
  }

  /** Merging again changes nothing, so a second copy reports false. */
  lemma MergedTwice(from: map<string, Value>, to: map<string, Value>, names: seq<string>)
    ensures Merged(from, Merged(from, to, names), names) == Merged(from, to, names)
  {
    MergedChanges(from, Merged(from, to, names), names);
  }

  method CopyUnstructuredField(from: Resource, to: Resource, name: string) returns (updated: bool)
    modifies to
    ensures to.fields == Merged(old(from.fields), old(to.fields), [name])
    ensures updated <==> to.fields != old(to.fields)
  {
    ghost var source, target := from.fields, to.fields;
    MergedStep(source, target, [], name);
    assert Merged(source, target, []) == target;
    assert [] + [name] == [name];
    if name !in from.fields || !from.fields[name].Object? {
      return false;
    }
    var value := from.fields[name];
    if name !in to.fields || !to.fields[name].Object? {
      to.fields := to.fields[name := value];
      return true;
    }
    updated := value != to.fields[name];
    if updated {
      to.fields := to.fields[name := value];
    }
    assert to.fields == target[name := value];
  }

  /** Reports true exactly when the target changed; two resources may be the same object. */
  method CopyUnstructuredSpec(from: Resource, to: Resource, names: seq<string>) returns (updated: bool)
    modifies to
    ensures to.fields == Merged(old(from.fields), old(to.fields), names)
    ensures updated <==> to.fields != old(to.fields)
  {
    ghost var source, target := from.fields, to.fields;
    updated := false;
    assert Merged(source, target, []) == target;
    for i := 0 to |names|
      invariant from.fields == source
      invariant to.fields == Merged(source, target, names[..i])
      invariant updated <==> to.fields != target
    {
      ghost var before := to.fields;
      MergedStep(source, target, names[..i], names[i]);
      assert names[..i] + [names[i]] == names[..i + 1];
      FieldMerged(source, before, names[i]);
      StaysChanged(source, target, names[..i], names[i]);
      var changed := CopyUnstructuredField(from, to, names[i]);
      if changed {
        updated := true;
      }
    }
    assert names[..|names|] == names;
  }

  lemma FieldMerged(from: map<string, Value>, to: map<string, Value>, f: string)
    ensures Merged(from, to, [f]) == if f in from && from[f].Object? then to[f := from[f]] else to
  {
    MergedStep(from, to, [], f);
    assert Merged(from, to, []) == to && [] + [f] == [f];
  }

  /** A merge of more names never goes back to the target it started from. */
  lemma StaysChanged(from: map<string, Value>, to: map<string, Value>, names: seq<string>, f: string)
    ensures var less, more := Merged(from, to, names), Merged(from, to, names + [f]);
            more != to <==> less != to || more != less
  {
    MergedChanges(from, to, names);
    MergedChanges(from, to, names + [f]);
    var less, more := Merged(from, to, names), Merged(from, to, names + [f]);
    if less != to {
      var g :| Owned(from, names, g) && (g !in to || to[g] != from[g]);
      assert Owned(from, names + [f], g);
    }
  }

  /** The update of a child: only top-level "labels" and "spec" are copied, so metadata is never touched. */
  method CopyUnstructuredFields(from: Resource, to: Resource) returns (updated: bool)
    modifies to
    ensures to.fields == Merged(old(from.fields), old(to.fields), ["labels", "spec"])
    ensures updated <==> to.fields != old(to.fields)
    ensures forall f :: f !in ["labels", "spec"] ==> (f in to.fields <==> f in old(to.fields))
    ensures forall f :: f !in ["labels", "spec"] && f in to.fields ==> to.fields[f] == old(to.fields)[f]
  {
    updated := CopyUnstructuredSpec(from, to, ["labels", "spec"]);
  }
}

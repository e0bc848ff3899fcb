/**
 * Values held in the project store and in the metadata file, and the nested
 * dictionary update applied when a project's metadata is loaded
 * (deep_update in apps/motionscope/main.py).
 */
module Values {
  import opened Optional

  /** What the metadata file decodes to, plus the opaque recording handle. */
  datatype Value =
    | Null
    | Bool(b: bool)
    | Int(i: int)
    | Str(s: string)
    | List(items: seq<Value>)
    | Dict(entries: map<string, Value>)
    | Recording(frames: nat)  // only the handle's len() is used by the core

  /** Python truthiness; a recording handle is an ordinary object, hence true. */
  predicate Truthy(v: Value)
  {
    match v
    case Null => false
    case Bool(b) => b
    case Int(i) => i != 0
    case Str(s) => s != []
    case List(items) => items != []
    case Dict(entries) => entries != map[]
    case Recording(_) => true
  }

  /** dict.get(k): None when the key is missing. */
  function Get(m: map<string, Value>, k: string): Value
  {
    if k in m then m[k] else Null
  }

  /**
   * The value deep_update(d1, d2) leaves behind: when both sides are
   * dictionaries they are merged key by key, otherwise d2 wins outright.
   */
  function Merge(d1: Value, d2: Value): Value
    decreases d2
  {
    if d1.Dict? && d2.Dict? then
      Dict(map k | k in d1.entries.Keys + d2.entries.Keys ::
             if k in d2.entries then Merge(Get(d1.entries, k), d2.entries[k]) else d1.entries[k])
    else
      d2
  }

  /**
   * deep_update: walks the keys of d2 and replaces each d1[k] by the deep
   * update of d1.get(k) with d2[k]. Dictionaries are values here, so the
   * merged dictionary is returned rather than updated in place.
   */
  method DeepUpdate(d1: Value, d2: Value) returns (r: Value)
    ensures r == Merge(d1, d2)
    decreases d2
  {
    if d1.Dict? && d2.Dict? {
      var entries := d1.entries;
      var pending := d2.entries.Keys;
      while pending != {}
        invariant pending <= d2.entries.Keys
        invariant entries.Keys == d1.entries.Keys + (d2.entries.Keys - pending)
        invariant forall k :: k in entries ==>
          entries[k] == if k in d2.entries && k !in pending then Merge(Get(d1.entries, k), d2.entries[k])
                        else d1.entries[k]
        decreases pending
      {
        var k :| k in pending;
        var v := DeepUpdate(Get(entries, k), d2.entries[k]);
        entries := entries[k := v];
        pending := pending - {k};
      }
      r := Dict(entries);
    } else {
      r := d2;
    }
  }

  /** Follows a path of dictionary keys; None when the path leaves the dictionaries. */
  function At(v: Value, path: seq<string>): Option<Value>
    decreases |path|
  {
    if path == [] then Some(v)
    else if v.Dict? && path[0] in v.entries then At(v.entries[path[0]], path[1..])
    else None
  }

  /** The path ends at a key that some dictionary of v along the path lacks. */
  predicate MissingAt(v: Value, path: seq<string>)
    decreases |path|
  {
    path != [] && v.Dict? && (path[0] !in v.entries || MissingAt(v.entries[path[0]], path[1..]))
  }

  /** A leaf of d2 (anything but a dictionary) is found, unchanged, at the same path of the merge. */
  lemma {:induction false} MergeKeepsLeavesOfD2(d1: Value, d2: Value, path: seq<string>, x: Value)
    requires At(d2, path) == Some(x) && !x.Dict?
    ensures At(Merge(d1, d2), path) == Some(x)
    decreases |path|
  {
    if path != [] {
      var k := path[0];
      if d1.Dict? {
        MergeKeepsLeavesOfD2(Get(d1.entries, k), d2.entries[k], path[1..], x);
      }
    }
  }

  /** What d1 holds under a path that d2 does not reach survives the merge. */
  lemma {:induction false} MergeKeepsUntouchedOfD1(d1: Value, d2: Value, path: seq<string>, x: Value)
    requires At(d1, path) == Some(x) && MissingAt(d2, path)
    ensures At(Merge(d1, d2), path) == Some(x)
    decreases |path|
  {
    var k := path[0];
    if k in d2.entries {
      MergeKeepsUntouchedOfD1(d1.entries[k], d2.entries[k], path[1..], x);
    }
  }

  /** The merge invents nothing: each of its leaves is a leaf of d2 or of d1 at the same path. */
  lemma {:induction false} MergeLeavesComeFromInputs(d1: Value, d2: Value, path: seq<string>, x: Value)
    requires At(Merge(d1, d2), path) == Some(x) && !x.Dict?
    ensures At(d2, path) == Some(x) || At(d1, path) == Some(x)
    decreases |path|
  {
    if path != [] && d1.Dict? && d2.Dict? {
      var k := path[0];
      if k in d2.entries {
        MergeLeavesComeFromInputs(Get(d1.entries, k), d2.entries[k], path[1..], x);
      }
    }
  }

  /** Loading the same metadata twice leaves the store as loading it once. */
  lemma {:induction false} MergeIdempotent(d1: Value, d2: Value)
    ensures Merge(Merge(d1, d2), d2) == Merge(d1, d2)
    decreases d2
  {
    if d1.Dict? && d2.Dict? {
      var m := Merge(d1, d2);
      var mm := Merge(m, d2);
      forall k | k in d2.entries
        ensures Merge(Get(m.entries, k), d2.entries[k]) == Get(m.entries, k)
      {
        MergeIdempotent(Get(d1.entries, k), d2.entries[k]);
      }
      assert mm.entries == m.entries;
    } else {
      MergeWithItself(d2);
    }
  }

  /** Updating a dictionary with itself changes nothing. */
  lemma {:induction false} MergeWithItself(d: Value)
    ensures Merge(d, d) == d
    decreases d
  {
    if d.Dict? {
      forall k | k in d.entries
        ensures Merge(Get(d.entries, k), d.entries[k]) == d.entries[k]
      {
        MergeWithItself(d.entries[k]);
      }
      assert Merge(d, d).entries == d.entries;
    }
  }
}

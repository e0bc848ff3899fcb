/**
 * A Python dict with string keys, keeping insertion order: the file menu
 * (file_options_map in apps/motionscope/main.py) is one, and its key order
 * decides which entry a menu index selects.
 */
module OrderedDict {
  import opened Optional

  datatype Entry<V> = Entry(key: string, value: V)

  /** list(d.keys()) */
  function Keys<V>(d: seq<Entry<V>>): (ks: seq<string>)
    ensures |ks| == |d|
    ensures forall i :: 0 <= i < |d| ==> ks[i] == d[i].key
  {
    if d == [] then [] else [d[0].key] + Keys(d[1..])
  }

  /** list(d.values()) */
  function Items<V>(d: seq<Entry<V>>): (vs: seq<V>)
  {
    seq(|d|, i requires 0 <= i < |d| => d[i].value)
  }

  /** A dict never holds a key twice. */
  predicate Distinct<V>(d: seq<Entry<V>>)
  {
    forall i, j :: 0 <= i < j < |d| ==> d[i].key != d[j].key
  }

  /** d.get(k) */
  function Lookup<V>(d: seq<Entry<V>>, k: string): (r: Option<V>)
  {
    if d == [] then None else if d[0].key == k then Some(d[0].value) else Lookup(d[1..], k)
  }

  /** A key is found exactly when it is among the dict's keys. */
  lemma {:induction false} LookupKeys<V>(d: seq<Entry<V>>, k: string)
    ensures Lookup(d, k).Some? <==> k in Keys(d)
    decreases |d|
  {
    if d != [] {
      LookupKeys(d[1..], k);
      assert Keys(d) == [d[0].key] + Keys(d[1..]);
    }
  }

  /** In a dict, the value found under a key is that key's entry. */
  lemma {:induction false} LookupAt<V>(d: seq<Entry<V>>, i: nat)
    requires Distinct(d) && i < |d|
    ensures Lookup(d, d[i].key) == Some(d[i].value)
    decreases i
  {
    if i > 0 {
      assert d[0].key != d[i].key;
      assert d[1..][i - 1] == d[i];
      LookupAt(d[1..], i - 1);
    }
  }

  /** The entries of d other than k's, in their order. */
  function Remove<V>(d: seq<Entry<V>>, k: string): (r: seq<Entry<V>>)
    ensures Lookup(r, k) == None
    ensures forall i :: 0 <= i < |r| ==> r[i] in d && r[i].key != k
    ensures forall i :: 0 <= i < |d| && d[i].key != k ==> d[i] in r
  {
    if d == [] then []
    else if d[0].key == k then Remove(d[1..], k)
    else [d[0]] + Remove(d[1..], k)
  }

  /** Removing a key keeps a dict's keys distinct. */
  lemma {:induction false} RemoveDistinct<V>(d: seq<Entry<V>>, k: string)
    requires Distinct(d)
    ensures Distinct(Remove(d, k))
    decreases |d|
  {
    if d != [] {
      RemoveDistinct(d[1..], k);
    }
  }

  /** Removing from a dict with a known first entry. */
  lemma RemoveCons<V>(e: Entry<V>, d: seq<Entry<V>>, k: string)
    ensures Remove([e] + d, k) == if e.key == k then Remove(d, k) else [e] + Remove(d, k)
  {
    assert ([e] + d)[1..] == d;
  }

  /** Removing a key that is not there changes nothing. */
  lemma {:induction false} RemoveAbsent<V>(d: seq<Entry<V>>, k: string)
    requires Lookup(d, k) == None
    ensures Remove(d, k) == d
    decreases |d|
  {
    if d != [] {
      RemoveAbsent(d[1..], k);
      assert [d[0]] + d[1..] == d;
    }
  }

  /** Removing one key leaves what every other key finds. */
  lemma {:induction false} LookupRemove<V>(d: seq<Entry<V>>, k: string, other: string)
    requires other != k
    ensures Lookup(Remove(d, k), other) == Lookup(d, other)
    decreases |d|
  {
    if d != [] {
      LookupRemove(d[1..], k, other);
    }
  }

  /** `del d[k]`: None stands for the KeyError raised when k is missing. */
  function Delete<V>(d: seq<Entry<V>>, k: string): (r: Option<seq<Entry<V>>>)
    ensures r.None? <==> Lookup(d, k) == None
    ensures r.Some? ==> r.value == Remove(d, k)
  {
    if Lookup(d, k).Some? then Some(Remove(d, k)) else None
  }

  /** `d[k] = v`: an existing key keeps its place, a new one goes last. */
  function Put<V>(d: seq<Entry<V>>, k: string, v: V): seq<Entry<V>>
  {
    if d == [] then [Entry(k, v)]
    else if d[0].key == k then [Entry(k, v)] + d[1..]
    else [d[0]] + Put(d[1..], k, v)
  }

  /** `d[k] = v` with a new key appends the entry. */
  lemma {:induction false} PutNew<V>(d: seq<Entry<V>>, k: string, v: V)
    requires forall i :: 0 <= i < |d| ==> d[i].key != k
    ensures Put(d, k, v) == d + [Entry(k, v)]
    decreases |d|
  {
    if d != [] {
      PutNew(d[1..], k, v);
      assert [d[0]] + (d[1..] + [Entry(k, v)]) == d + [Entry(k, v)];
    }
  }

  /** `{**a, **b}`: a's entries, overwritten or followed by b's. */
  function Update<V>(a: seq<Entry<V>>, b: seq<Entry<V>>): seq<Entry<V>>
    decreases |b|
  {
    if b == [] then a else Update(Put(a, b[0].key, b[0].value), b[1..])
  }

  /** When no key of b is in a, `{**a, **b}` is a followed by b. */
  lemma {:induction false} UpdateDisjoint<V>(a: seq<Entry<V>>, b: seq<Entry<V>>)
    requires Distinct(b)
    requires forall i, j :: 0 <= i < |a| && 0 <= j < |b| ==> a[i].key != b[j].key
    ensures Update(a, b) == a + b
    decreases |b|
  {
    if b != [] {
      var a' := a + [b[0]];
      PutNew(a, b[0].key, b[0].value);
      var rest := b[1..];
      assert forall i, j :: 0 <= i < |a'| && 0 <= j < |rest| ==> a'[i].key != rest[j].key by {
        forall i, j | 0 <= i < |a'| && 0 <= j < |rest| ensures a'[i].key != rest[j].key {
          assert rest[j] == b[j + 1];
          if i < |a| { assert a'[i] == a[i]; } else { assert a'[i] == b[0]; }
        }
      }
      UpdateDisjoint(a', rest);
      assert a' + rest == a + b;
    }
  }
}

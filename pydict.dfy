/**
  Python's `dict` with string keys, kept as a sequence of (key, value)
  pairs so that insertion order (which the console relies on when it
  lists a record's fields) is part of the value. Assigning to an existing
  key keeps its position; a new key goes to the end.
 */
module PyDict {
  import opened Wrappers

  type Dict<V> = seq<(string, V)>

  function Keys<V>(d: Dict<V>): (ks: seq<string>)
    ensures |ks| == |d|
    ensures forall i :: 0 <= i < |d| ==> ks[i] == d[i].0
  {
    if d == [] then [] else [d[0].0] + Keys(d[1..])
  }

  /** No key occurs twice, as in every Python dict. */
  predicate Unique<V>(d: Dict<V>) {
    forall i, j :: 0 <= i < j < |d| ==> d[i].0 != d[j].0
  }

  predicate HasKey<V>(d: Dict<V>, k: string) {
    k in Keys(d)
  }

  /** The position of key `k`, if present. */
  function Find<V>(d: Dict<V>, k: string): (r: Option<nat>)
    ensures r.Some? ==> r.value < |d| && d[r.value].0 == k
    ensures r.Some? ==> forall j :: 0 <= j < r.value ==> d[j].0 != k
    ensures r.None? <==> !HasKey(d, k)
  {
    if d == [] then None
    else if d[0].0 == k then Some(0)
    else match Find(d[1..], k)
      case None => None
      case Some(i) => Some(i + 1)
  }

  /** `d.get(k)`, with `None` for a missing key. */
  function Get<V>(d: Dict<V>, k: string): (r: Option<V>)
    ensures r.Some? <==> HasKey(d, k)
  {
    match Find(d, k)
    case None => None
    case Some(i) => Some(d[i].1)
  }

  /** `d.get(k, default)`. */
  function GetOr<V>(d: Dict<V>, k: string, default: V): V {
    match Get(d, k)
    case None => default
    case Some(v) => v
  }

  /** `d[k] = v`. */
  function Put<V>(d: Dict<V>, k: string, v: V): (r: Dict<V>)
    ensures Get(r, k) == Some(v)
    ensures forall k' :: k' != k ==> Get(r, k') == Get(d, k')
    ensures HasKey(d, k) ==> Keys(r) == Keys(d)
    ensures !HasKey(d, k) ==> Keys(r) == Keys(d) + [k]
    ensures Unique(d) ==> Unique(r)
  {
    match Find(d, k)
    case None =>
      PutNew(d, k, v);
      d + [(k, v)]
    case Some(i) =>
      PutExisting(d, k, v, i);
      d[i := (k, v)]
  }

  /** Assigning a new key appends its entry. */
  lemma {:induction false} PutNew<V>(d: Dict<V>, k: string, v: V)
    requires !HasKey(d, k)
    ensures var r := d + [(k, v)];
      && Get(r, k) == Some(v)
      && (forall k' :: k' != k ==> Get(r, k') == Get(d, k'))
      && Keys(r) == Keys(d) + [k]
      && (Unique(d) ==> Unique(r))
  {
    var r := d + [(k, v)];
    forall k' | k' != k
      ensures Get(r, k') == Get(d, k')
    {
      FindAppend(d, k', (k, v));
    }
    FindAppend(d, k, (k, v));
    AppendKeys(d, (k, v));
    if Unique(d) {
      AppendUnique(d, (k, v));
    }
  }

  lemma {:induction false} AppendKeys<V>(d: Dict<V>, e: (string, V))
    ensures Keys(d + [e]) == Keys(d) + [e.0]
  {
    assert Keys(d + [e]) == Keys(d) + [e.0];
  }

  lemma {:induction false} AppendUnique<V>(d: Dict<V>, e: (string, V))
    requires Unique(d) && !HasKey(d, e.0)
    ensures Unique(d + [e])
  {
    var r := d + [e];
    forall a, b | 0 <= a < b < |r|
      ensures r[a].0 != r[b].0
    {
      if b == |d| {
        assert Keys(d)[a] == r[a].0;
      }
    }
  }

  /** Assigning an existing key replaces the value at its position. */
  lemma {:induction false} PutExisting<V>(d: Dict<V>, k: string, v: V, i: nat)
    requires Find(d, k) == Some(i)
    ensures var r := d[i := (k, v)];
      && Get(r, k) == Some(v)
      && (forall k' :: k' != k ==> Get(r, k') == Get(d, k'))
      && Keys(r) == Keys(d)
      && (Unique(d) ==> Unique(r))
  {
    var r := d[i := (k, v)];
    forall k' | k' != k
      ensures Get(r, k') == Get(d, k')
    {
      FindUpdate(d, k', i, (k, v));
    }
    FindUpdate(d, k, i, (k, v));
    assert Keys(r) == Keys(d);
  }

  lemma {:induction false} FindAppend<V>(d: Dict<V>, k: string, e: (string, V))
    ensures Find(d + [e], k) == if HasKey(d, k) then Find(d, k) else if e.0 == k then Some(|d|) else None
  {
    if d != [] {
      assert (d + [e])[1..] == d[1..] + [e];
      FindAppend(d[1..], k, e);
      assert Keys(d) == [d[0].0] + Keys(d[1..]);
    }
  }

  lemma {:induction false} FindUpdate<V>(d: Dict<V>, k: string, i: nat, e: (string, V))
    requires i < |d| && d[i].0 == e.0
    ensures Find(d[i := e], k) == Find(d, k)
  {
    if i > 0 {
      assert d[i := e][1..] == d[1..][i - 1 := e];
      FindUpdate(d[1..], k, i - 1, e);
    }
  }

  lemma {:induction false} GetCons<V>(e: (string, V), t: Dict<V>, k: string)
    ensures Get([e] + t, k) == if e.0 == k then Some(e.1) else Get(t, k)
    ensures HasKey([e] + t, k) <==> e.0 == k || HasKey(t, k)
  {
    assert ([e] + t)[1..] == t;
    assert Keys([e] + t) == [e.0] + Keys(t);
  }

  /** In a dict without repeated keys, looking up the key of entry `i` gives entry `i`'s value. */
  lemma {:induction false} GetUnique<V>(d: Dict<V>, i: nat)
    requires Unique(d) && i < |d|
    ensures Get(d, d[i].0) == Some(d[i].1)
  {
    assert Keys(d)[i] == d[i].0;
  }

  /** Lookups in a two-entry dict literal with distinct keys. */
  lemma {:induction false} Lookup2<V>(k0: string, k1: string, v0: V, v1: V)
    requires k0 != k1
    ensures var d := [(k0, v0), (k1, v1)];
      && Keys(d) == [k0, k1] && Unique(d) && Get(d, k0) == Some(v0) && Get(d, k1) == Some(v1)
  {
    var d := [(k0, v0), (k1, v1)];
    var ks := [k0, k1];
    assert forall i :: 0 <= i < |d| ==> d[i].0 == ks[i];
    DistinctKeys(d, ks);
    assert d[0].1 == v0 && d[1].1 == v1;
  }

  /** Lookups in a five-entry dict literal with distinct keys. */
  lemma {:induction false} Lookup5<V>(k0: string, k1: string, k2: string, k3: string, k4: string, v0: V, v1: V, v2: V, v3: V, v4: V)
    requires k0 != k1 && k0 != k2 && k0 != k3 && k0 != k4 && k1 != k2 && k1 != k3 && k1 != k4 && k2 != k3 && k2 != k4 && k3 != k4
    ensures var d := [(k0, v0), (k1, v1), (k2, v2), (k3, v3), (k4, v4)];
      && Keys(d) == [k0, k1, k2, k3, k4] && Unique(d)
      && Get(d, k0) == Some(v0) && Get(d, k1) == Some(v1) && Get(d, k2) == Some(v2) && Get(d, k3) == Some(v3) && Get(d, k4) == Some(v4)
  {
    var d := [(k0, v0), (k1, v1), (k2, v2), (k3, v3), (k4, v4)];
    var ks := [k0, k1, k2, k3, k4];
    assert forall i :: 0 <= i < |d| ==> d[i].0 == ks[i];
    assert forall i, j :: 0 <= i < j < |ks| ==> ks[i] != ks[j];
    DistinctKeys(d, ks);
    assert d[0].1 == v0 && d[1].1 == v1 && d[2].1 == v2 && d[3].1 == v3 && d[4].1 == v4;
  }

  /** A dict whose i-th key is `ks[i]`, for keys that are all different: its keys, and a lookup of each. */
  lemma {:induction false} DistinctKeys<V>(d: Dict<V>, ks: seq<string>)
    requires |d| == |ks| && forall i :: 0 <= i < |d| ==> d[i].0 == ks[i]
    requires forall i, j :: 0 <= i < j < |ks| ==> ks[i] != ks[j]
    ensures Keys(d) == ks && Unique(d)
    ensures forall i :: 0 <= i < |d| ==> Get(d, ks[i]) == Some(d[i].1)
  {
    forall i | 0 <= i < |d|
      ensures Get(d, ks[i]) == Some(d[i].1)
    {
      GetUnique(d, i);
    }
  }

  /** Lookups in a six-entry dict literal with distinct keys. */
  lemma {:induction false} Lookup6<V>(k0: string, k1: string, k2: string, k3: string, k4: string, k5: string, v0: V, v1: V, v2: V, v3: V, v4: V, v5: V)
    requires k0 != k1 && k0 != k2 && k0 != k3 && k0 != k4 && k0 != k5 && k1 != k2 && k1 != k3 && k1 != k4 && k1 != k5
    requires k2 != k3 && k2 != k4 && k2 != k5 && k3 != k4 && k3 != k5 && k4 != k5
    ensures var d := [(k0, v0), (k1, v1), (k2, v2), (k3, v3), (k4, v4), (k5, v5)];
      && Keys(d) == [k0, k1, k2, k3, k4, k5] && Unique(d)
      && Get(d, k0) == Some(v0) && Get(d, k1) == Some(v1) && Get(d, k2) == Some(v2)
      && Get(d, k3) == Some(v3) && Get(d, k4) == Some(v4) && Get(d, k5) == Some(v5)
  {
    var d := [(k0, v0), (k1, v1), (k2, v2), (k3, v3), (k4, v4), (k5, v5)];
    var ks := [k0, k1, k2, k3, k4, k5];
    assert forall i :: 0 <= i < |d| ==> d[i].0 == ks[i];
    assert forall i, j :: 0 <= i < j < |ks| ==> ks[i] != ks[j];
    DistinctKeys(d, ks);
    assert d[0].1 == v0 && d[1].1 == v1 && d[2].1 == v2 && d[3].1 == v3 && d[4].1 == v4 && d[5].1 == v5;
  }

  /** `d.pop(k, None)`: removes the entry for `k`, if any. */
  function Pop<V>(d: Dict<V>, k: string): (r: Dict<V>)
    requires Unique(d)
    ensures !HasKey(r, k)
    ensures forall k' :: k' != k ==> Get(r, k') == Get(d, k')
    ensures Unique(r)
    ensures !HasKey(d, k) ==> r == d
  {
    if d == [] then []
    else if d[0].0 == k then
      PopHead(d, k);
      d[1..]
    else
      var t := Pop(d[1..], k);
      PopCons(d, k, t);
      [d[0]] + t
  }

  /** Removing the first entry's key leaves the rest, in which the key does not occur. */
  lemma {:induction false} PopHead<V>(d: Dict<V>, k: string)
    requires Unique(d) && d != [] && d[0].0 == k
    ensures !HasKey(d[1..], k) && Unique(d[1..]) && HasKey(d, k)
    ensures forall k' :: k' != k ==> Get(d[1..], k') == Get(d, k')
  {
    assert d == [d[0]] + d[1..];
    assert !HasKey(d[1..], k) by {
      forall j | 0 <= j < |d| - 1
        ensures Keys(d[1..])[j] != k
      {
        assert d[1..][j] == d[j + 1];
      }
    }
    forall k' | k' != k
      ensures Get(d[1..], k') == Get(d, k')
    {
      GetCons(d[0], d[1..], k');
    }
    GetCons(d[0], d[1..], k);
  }

  /** Removing a key other than the first entry's keeps that entry in front of the rest with the key removed. */
  lemma {:induction false} PopCons<V>(d: Dict<V>, k: string, t: Dict<V>)
    requires Unique(d) && d != [] && d[0].0 != k
    requires !HasKey(t, k) && Unique(t)
    requires forall k' :: k' != k ==> Get(t, k') == Get(d[1..], k')
    requires !HasKey(d[1..], k) ==> t == d[1..]
    ensures var r := [d[0]] + t;
      && !HasKey(r, k) && Unique(r)
      && (forall k' :: k' != k ==> Get(r, k') == Get(d, k'))
      && (!HasKey(d, k) ==> r == d)
  {
    assert d == [d[0]] + d[1..];
    var r := [d[0]] + t;
    forall k' | k' != k
      ensures Get(r, k') == Get(d, k')
    {
      GetCons(d[0], d[1..], k');
      GetCons(d[0], t, k');
    }
    GetCons(d[0], t, k);
    GetCons(d[0], d[1..], k);
    assert Unique(r) by {
      forall j | 0 < j < |r| ensures r[0].0 != r[j].0 {
        assert HasKey(t, r[j].0) by { assert Keys(t)[j - 1] == r[j].0; }
        assert Get(d[1..], r[j].0).Some?;
        assert HasKey(d[1..], r[j].0);
        var m := Find(d[1..], r[j].0).value;
        assert d[m + 1].0 == r[j].0;
      }
    }
  }
}

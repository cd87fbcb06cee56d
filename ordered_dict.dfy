/** Python's insertion-ordered `dict` with string keys: a sequence of distinct
    keys in first-insertion order and a map from key to value. */
module OrderedDict {
  import opened Wrappers

  datatype Dict<V> = Dict(keys: seq<string>, items: map<string, V>)

  predicate Distinct<T(==)>(s: seq<T>)
  {
    forall i, j :: 0 <= i < j < |s| ==> s[i] != s[j]
  }

  ghost predicate WellFormed<V>(d: Dict<V>)
  {
    Distinct(d.keys) && forall k :: k in d.items <==> k in d.keys
  }

  /** A dictionary as Python keeps it: every key once, in insertion order. */
  type Table<V> = d: Dict<V> | WellFormed(d) witness Dict([], map[])

  function Empty<V>(): Table<V>
  {
    Dict([], map[])
  }

  /** `d[k] = v`: a new key goes to the end; an existing key keeps its place
      and only its value changes. */
  function Put<V>(d: Table<V>, k: string, v: V): Table<V>
  {
    if k in d.items then Dict(d.keys, d.items[k := v])
    else Dict(d.keys + [k], d.items[k := v])
  }

  /** Position of the first occurrence of `x` in `s`. */
  function IndexOf<T(==)>(s: seq<T>, x: T): (i: nat)
    requires x in s
    ensures i < |s| && s[i] == x && x !in s[..i]
  {
    if s[0] == x then 0 else IndexOf(s[1..], x) + 1
  }

  /** In a sequence without repetitions, an element's position is its first occurrence. */
  lemma IndexOfDistinct<T>(s: seq<T>, i: nat)
    requires Distinct(s) && i < |s|
    ensures IndexOf(s, s[i]) == i
  {
    var j := IndexOf(s, s[i]);
  }

  /** Writing a key never moves any key already present. */
  lemma {:induction false} PutKeepsPositions<V>(d: Table<V>, k: string, v: V, other: string)
    requires other in d.items
    ensures other in Put(d, k, v).keys
    ensures IndexOf(Put(d, k, v).keys, other) == IndexOf(d.keys, other)
  {
    var r := Put(d, k, v);
    var i := IndexOf(d.keys, other);
    assert r.keys[..|d.keys|] == d.keys;
    assert r.keys[..i] == d.keys[..i];
    IndexOfDistinct(d.keys, i);
    IndexOfDistinct(r.keys, i);
  }

  /** `list(OrderedDict.fromkeys(s))`: the elements of `s` with repetitions
      removed, each at its first occurrence. */
  function Dedup<T(==,!new)>(s: seq<T>): (r: seq<T>)
    ensures Distinct(r)
    ensures forall x :: x in r <==> x in s
  {
    if s == [] then []
    else
      var r := Dedup(s[..|s| - 1]);
      var x := s[|s| - 1];
      assert forall y :: y in s <==> y in s[..|s| - 1] || y == x;
      if x in r then r else r + [x]
  }

  /** Removing repetitions keeps first-occurrence order. */
  lemma {:induction false} DedupOrder<T(!new)>(s: seq<T>, i: nat, j: nat)
    requires i < j < |Dedup(s)|
    ensures IndexOf(s, Dedup(s)[i]) < IndexOf(s, Dedup(s)[j])
  {
    var p := s[..|s| - 1];
    var x := s[|s| - 1];
    var r := Dedup(p);
    assert forall y :: y in p ==> IndexOf(s, y) == IndexOf(p, y) by {
      forall y | y in p ensures IndexOf(s, y) == IndexOf(p, y) {
        IndexOfPrefix(p, [x], y);
        assert s == p + [x];
      }
    }
    if x in r {
      DedupOrder(p, i, j);
    } else if j < |r| {
      DedupOrder(p, i, j);
    } else {
      assert Dedup(s)[j] == x && x !in p;
      assert Dedup(s)[i] == r[i] && r[i] in p;
      assert IndexOf(s, x) == |p| by { assert s[|p|] == x; assert x !in s[..|p|]; IndexOfUnique(s, x, |p|); }
    }
  }

  lemma IndexOfPrefix<T>(p: seq<T>, q: seq<T>, y: T)
    requires y in p
    ensures IndexOf(p + q, y) == IndexOf(p, y)
  {
    var i := IndexOf(p, y);
    assert (p + q)[..i] == p[..i];
    IndexOfUnique(p + q, y, i);
  }

  lemma IndexOfUnique<T>(s: seq<T>, y: T, i: nat)
    requires i < |s| && s[i] == y && y !in s[..i]
    ensures IndexOf(s, y) == i
  {
    var j := IndexOf(s, y);
  }

  /** A sequence without repetitions is its own de-duplication. */
  lemma {:induction false} DedupOfDistinct<T(!new)>(s: seq<T>)
    requires Distinct(s)
    ensures Dedup(s) == s
  {
    if s != [] {
      var p := s[..|s| - 1];
      DedupOfDistinct(p);
      assert s[|s| - 1] !in p;
      assert p + [s[|s| - 1]] == s;
    }
  }

  /** Registering keys one after another: the keys end up as the
      de-duplicated sequence of registered names. */
  lemma PutKeysDedup<V>(d: Table<V>, names: seq<string>, k: string, v: V)
    requires d.keys == Dedup(names)
    ensures Put(d, k, v).keys == Dedup(names + [k])
  {
    assert (names + [k])[..|names|] == names;
  }

  /** The keys `key` gives the values, in order. */
  function KeysOf<V>(vs: seq<V>, key: V -> string): (r: seq<string>)
    ensures |r| == |vs| && forall j :: 0 <= j < |vs| ==> r[j] == key(vs[j])
  {
    seq(|vs|, j requires 0 <= j < |vs| => key(vs[j]))
  }

  /** The last value whose key is `k`. */
  function LastWith<V>(vs: seq<V>, key: V -> string, k: string): (r: Option<V>)
    ensures r.None? <==> forall j :: 0 <= j < |vs| ==> key(vs[j]) != k
    ensures r.Some? ==> key(r.value) == k
  {
    if vs == [] then None
    else if key(vs[|vs| - 1]) == k then Some(vs[|vs| - 1])
    else LastWith(vs[..|vs| - 1], key, k)
  }

  /** `d[key(v)] = v` for each value in turn. */
  function PutAll<V>(d: Table<V>, vs: seq<V>, key: V -> string): Table<V>
  {
    if vs == [] then d
    else Put(PutAll(d, vs[..|vs| - 1], key), key(vs[|vs| - 1]), vs[|vs| - 1])
  }

  /** After writing values one after another, a key holds the last value
      written under it, or its old value when none was. */
  lemma {:induction false} PutAllItems<V>(d: Table<V>, vs: seq<V>, key: V -> string, k: string)
    ensures k in PutAll(d, vs, key).items <==> k in d.items || LastWith(vs, key, k).Some?
    ensures LastWith(vs, key, k).Some? ==> PutAll(d, vs, key).items[k] == LastWith(vs, key, k).value
    ensures k in d.items && LastWith(vs, key, k).None? ==> PutAll(d, vs, key).items[k] == d.items[k]
  {
    if vs != [] {
      PutAllItems(d, vs[..|vs| - 1], key, k);
    }
  }

  /** Writing values one after another: the keys are the old keys followed by
      the new ones, each at its first occurrence. */
  lemma {:induction false} PutAllKeys<V>(d: Table<V>, vs: seq<V>, key: V -> string)
    ensures PutAll(d, vs, key).keys == Dedup(d.keys + KeysOf(vs, key))
  {
    if vs == [] {
      DedupOfDistinct(d.keys);
      assert d.keys + KeysOf(vs, key) == d.keys;
    } else {
      var init := vs[..|vs| - 1];
      var v := vs[|vs| - 1];
      PutAllKeys(d, init, key);
      PutKeysDedup(PutAll(d, init, key), d.keys + KeysOf(init, key), key(v), v);
      assert d.keys + KeysOf(init, key) + [key(v)] == d.keys + KeysOf(vs, key);
    }
  }

  /** A value that no later value shares its key with is the last one under that key. */
  lemma {:induction false} LastWithAt<V>(vs: seq<V>, key: V -> string, j: nat)
    requires j < |vs|
    requires forall m :: j < m < |vs| ==> key(vs[m]) != key(vs[j])
    ensures LastWith(vs, key, key(vs[j])) == Some(vs[j])
  {
    if j < |vs| - 1 {
      LastWithAt(vs[..|vs| - 1], key, j);
    }
  }

  /** With distinct keys, the last value under a key is the only one. */
  lemma LastOfDistinct<V>(vs: seq<V>, key: V -> string, j: nat)
    requires j < |vs| && Distinct(KeysOf(vs, key))
    ensures LastWith(vs, key, key(vs[j])) == Some(vs[j])
  {
    var ks := KeysOf(vs, key);
    assert forall m :: j < m < |vs| ==> ks[m] != ks[j];
    LastWithAt(vs, key, j);
  }

  /** The table with the values under its first `i` keys replaced, in key
      order, by the first `i` of `vals`; the keys stay as they are. */
  function SetFirst<V>(d: Table<V>, vals: seq<V>, i: nat): (r: Table<V>)
    requires i <= |d.keys| == |vals|
    ensures r.keys == d.keys
  {
    if i == 0 then d
    else Dict(d.keys, SetFirst(d, vals, i - 1).items[d.keys[i - 1] := vals[i - 1]])
  }

  /** The `j`-th key holds the `j`-th new value when `j < i`, its old value otherwise. */
  lemma {:induction false} SetFirstAt<V>(d: Table<V>, vals: seq<V>, i: nat, j: nat)
    requires i <= |d.keys| == |vals| && j < |d.keys|
    ensures SetFirst(d, vals, i).items[d.keys[j]] == if j < i then vals[j] else d.items[d.keys[j]]
  {
    if i > 0 && j != i - 1 {
      assert d.keys[j] != d.keys[i - 1];
      SetFirstAt(d, vals, i - 1, j);
    }
  }

  /** Writing one more value after a run of writes. */
  lemma PutAllSnoc<V>(d: Table<V>, vs: seq<V>, v: V, key: V -> string)
    ensures PutAll(d, vs + [v], key) == Put(PutAll(d, vs, key), key(v), v)
  {
    assert (vs + [v])[..|vs|] == vs;
  }

  /** Two runs of writes one after the other are one run of all the writes. */
  lemma {:induction false} PutAllConcat<V>(d: Table<V>, us: seq<V>, vs: seq<V>, key: V -> string)
    ensures PutAll(PutAll(d, us, key), vs, key) == PutAll(d, us + vs, key)
  {
    if vs == [] {
      assert us + vs == us;
    } else {
      var init := vs[..|vs| - 1];
      var v := vs[|vs| - 1];
      var t := PutAll(d, us, key);
      assert vs == init + [v];
      PutAllSnoc(t, init, v, key);
      PutAllConcat(d, us, init, key);
      assert us + vs == (us + init) + [v];
      PutAllSnoc(d, us + init, v, key);
    }
  }
}

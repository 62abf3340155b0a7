/** The effect of each cache call the producer makes, stated over the entries
    of the cache as the `java.util.Map` and `java.util.concurrent.ConcurrentMap`
    contracts define them (Hazelcast's `IMap` follows both). */
module MapContract {
  import opened Objects

  type Entries = map<Obj, Obj>

  /** `get(k)`: the mapped value, or null when `k` has no mapping. */
  function Get(m: Entries, k: Obj): (r: Obj)
    ensures (k in m && r == m[k]) || (k !in m && r == Null)
  {
    if k in m then m[k] else Null
  }

  /** `put(k, v)`: afterwards `k` maps to `v`; every other entry is as before. */
  function Put(m: Entries, k: Obj, v: Obj): (r: Entries)
    ensures r.Keys == m.Keys + {k} && r[k] == v
    ensures forall j :: j in m && j != k ==> r[j] == m[j]
  {
    m[k := v]
  }

  /** `remove(k)`: `k` loses its mapping; every other entry is kept. */
  function Remove(m: Entries, k: Obj): (r: Entries)
    ensures r.Keys == m.Keys - {k}
    ensures forall j :: j in r ==> r[j] == m[j]
    ensures k !in m ==> r == m
  {
    m - {k}
  }

  /** `getAll(keys)`: the entries whose key was asked for; keys without a
      mapping are left out of the answer. */
  function GetAll(m: Entries, keys: set<Obj>): (r: Entries)
    ensures r.Keys == keys * m.Keys
    ensures forall j :: j in r ==> r[j] == m[j]
  {
    map j | j in keys && j in m :: m[j]
  }

  /** `replace(k, v)`: sets `k` to `v` only when `k` already has a mapping;
      never adds a key. */
  function Replace(m: Entries, k: Obj, v: Obj): (r: Entries)
    ensures r.Keys == m.Keys
    ensures k in m ==> r[k] == v
    ensures forall j :: j in m && j != k ==> r[j] == m[j]
  {
    if k in m then m[k := v] else m
  }

  /** `replace(k, expected, v)`: sets `k` to `v` only when `k` is currently
      mapped to `expected`; otherwise nothing changes. */
  function ReplaceIf(m: Entries, k: Obj, expected: Obj, v: Obj): (r: Entries)
    ensures r.Keys == m.Keys
    ensures k in m ==> r[k] == (if m[k] == expected then v else m[k])
    ensures forall j :: j in m && j != k ==> r[j] == m[j]
  {
    if k in m && m[k] == expected then m[k := v] else m
  }

  /** `values(predicate)`: the entries whose key and value the predicate
      accepts; the values of these entries make up the answer. */
  function Select(m: Entries, accepts: (Obj, Obj) -> bool): (r: Entries)
    ensures r.Keys <= m.Keys
    ensures forall j :: j in m ==> (j in r <==> accepts(j, m[j]))
    ensures forall j :: j in r ==> r[j] == m[j]
  {
    map j | j in m && accepts(j, m[j]) :: m[j]
  }

  /** The keys that `m` maps to `v`. */
  ghost function KeysOf(m: Entries, v: Obj): (r: set<Obj>)
    ensures forall k :: k in r <==> k in m && m[k] == v
  {
    set k | k in m && m[k] == v
  }

  /** Taking key `k` out of `m` takes it out of the keys of its own value
      and of no other value's. */
  lemma KeysOfRemove(m: Entries, k: Obj, v: Obj)
    requires k in m
    ensures |KeysOf(m, v)| == |KeysOf(m - {k}, v)| + (if m[k] == v then 1 else 0)
  {
    if m[k] == v {
      assert KeysOf(m, v) == KeysOf(m - {k}, v) + {k};
    } else {
      assert KeysOf(m, v) == KeysOf(m - {k}, v);
    }
  }

  /** A value is among the values of `m` exactly when some key maps to it. */
  lemma KeysOfNonEmpty(m: Entries, v: Obj)
    ensures |KeysOf(m, v)| > 0 <==> v in m.Values
  {
    if v in m.Values {
      var j :| j in m && m[j] == v;
      assert j in KeysOf(m, v);
    }
  }

  /** The values of `m` as the collection `values()` hands out: one element
      per entry, so a value stored under two keys appears twice. */
  ghost function ValueBag(m: Entries): (b: multiset<Obj>)
    ensures |b| == |m|
    ensures forall v :: b[v] == |KeysOf(m, v)|
    ensures forall v :: v in b <==> v in m.Values
    decreases |m|
  {
    var b :=
      if m == map[] then
        assert forall v :: KeysOf(m, v) == {};
        multiset{}
      else
        var k :| k in m;
        var rest := m - {k};
        assert rest.Keys == m.Keys - {k};
        forall v ensures |KeysOf(m, v)| == |KeysOf(rest, v)| + (if m[k] == v then 1 else 0) {
          KeysOfRemove(m, k, v);
        }
        multiset{m[k]} + ValueBag(rest);
    forall v ensures |KeysOf(m, v)| > 0 <==> v in m.Values {
      KeysOfNonEmpty(m, v);
    }
    b
  }

  /** Removing a key twice leaves the map as removing it once. */
  lemma RemoveIdempotent(m: Entries, k: Obj)
    ensures Remove(Remove(m, k), k) == Remove(m, k)
  {
  }

  /** A conditional replace changes the map exactly when the key is mapped to
      the expected value and the new value differs from it. */
  lemma ReplaceIfChangesIff(m: Entries, k: Obj, expected: Obj, v: Obj)
    ensures ReplaceIf(m, k, expected, v) != m <==> k in m && m[k] == expected && v != expected
  {
  }

  /** A predicate that accepts every entry selects the whole map. */
  lemma SelectEverything(m: Entries, accepts: (Obj, Obj) -> bool)
    requires forall j :: j in m ==> accepts(j, m[j])
    ensures Select(m, accepts) == m
  {
  }
}

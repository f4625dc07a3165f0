/** Insertion-ordered maps with the semantics of a Python `dict`: assigning
    to a present key keeps its position, assigning to a new key appends it,
    and `pop` removes the key and keeps the order of the others. */
module OrderedMaps {

  datatype OMap<K(==,!new), V> = OMap(keys: seq<K>, entries: map<K, V>) {

    /** The key order lists every key of the map exactly once. */
    ghost predicate Valid() {
      && (forall i, j :: 0 <= i < j < |keys| ==> keys[i] != keys[j])
      && (forall k :: k in entries <==> k in keys)
    }

    /** `d[k] = v` */
    function Put(k: K, v: V): (r: OMap<K, V>)
      requires Valid()
      ensures r.Valid()
      ensures r.entries == entries[k := v]
      ensures k in entries ==> r.keys == keys
      ensures k !in entries ==> r.keys == keys + [k]
    {
      if k in entries then OMap(keys, entries[k := v]) else OMap(keys + [k], entries[k := v])
    }

    /** `d.items()`: the entries in key order. */
    function Items(): (r: seq<(K, V)>)
      ensures forall i :: 0 <= i < |r| ==> r[i].0 in entries && r[i].1 == entries[r[i].0]
      ensures Valid() ==> |r| == |keys| && forall i :: 0 <= i < |r| ==> r[i].0 == keys[i]
    {
      ItemsOf(keys, entries)
    }

    /** `d.pop(k, None)` */
    function Remove(k: K): (r: OMap<K, V>)
      requires Valid()
      ensures r.Valid()
      ensures r.entries == entries - {k}
      ensures r.keys == Without(keys, k)
    {
      WithoutProps(keys, k);
      OMap(Without(keys, k), entries - {k})
    }
  }

  function Empty<K(==,!new), V>(): (r: OMap<K, V>)
    ensures r.Valid() && r.keys == [] && r.entries == map[]
  {
    OMap([], map[])
  }

  /** The entries of `m` listed in the order of `ks`. */
  function ItemsOf<K(==,!new), V>(ks: seq<K>, m: map<K, V>): (r: seq<(K, V)>)
    ensures forall i :: 0 <= i < |r| ==> r[i].0 in m && r[i].1 == m[r[i].0]
    ensures (forall k :: k in ks ==> k in m) ==> |r| == |ks| && forall i :: 0 <= i < |r| ==> r[i].0 == ks[i]
  {
    if ks == [] then []
    else
      var rest := ItemsOf(ks[1..], m);
      assert forall k :: k in ks[1..] ==> k in ks;
      if ks[0] in m then [(ks[0], m[ks[0]])] + rest else rest
  }

  /** `s` with every occurrence of `k` taken out, the rest in order. */
  function Without<K(==,!new)>(s: seq<K>, k: K): seq<K> {
    if s == [] then []
    else if s[0] == k then Without(s[1..], k)
    else [s[0]] + Without(s[1..], k)
  }

  lemma {:induction false} WithoutProps<K(!new)>(s: seq<K>, k: K)
    ensures forall x :: x in Without(s, k) <==> x in s && x != k
    ensures (forall i, j :: 0 <= i < j < |s| ==> s[i] != s[j]) ==>
              forall i, j :: 0 <= i < j < |Without(s, k)| ==> Without(s, k)[i] != Without(s, k)[j]
  {
    if s != [] {
      WithoutProps(s[1..], k);
      if (forall i, j :: 0 <= i < j < |s| ==> s[i] != s[j]) {
        assert forall i, j :: 0 <= i < j < |s[1..]| ==> s[1..][i] != s[1..][j] by {
          forall i, j | 0 <= i < j < |s[1..]| ensures s[1..][i] != s[1..][j] {
            assert s[1..][i] == s[i + 1] && s[1..][j] == s[j + 1];
          }
        }
        assert s[0] !in s[1..] by {
          forall i | 0 <= i < |s[1..]| ensures s[1..][i] != s[0] {
            assert s[1..][i] == s[i + 1];
          }
        }
      }
    }
  }
}

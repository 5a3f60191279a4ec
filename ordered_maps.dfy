/**
 * A JavaScript `Map` with string keys: a finite map that also remembers the order in which keys were
 * first inserted, since `forEach`, `values()` and `Array.from` all follow that order.
 */
module OrderedMaps {
  import opened Common
  import Seqs

  datatype OMap<V> = OMap(keys: seq<string>, m: map<string, V>) {

    /** The key order lists each key of the map exactly once. */
    ghost predicate Valid() {
      && (forall i, j :: 0 <= i < j < |keys| ==> keys[i] != keys[j])
      && (forall k :: k in m <==> k in keys)
    }

    /** `map.get(k)`. */
    function Get(k: string): (r: Option<V>)
      ensures r.Some? <==> k in m
      ensures r.Some? ==> r.value == m[k]
    {
      if k in m then Some(m[k]) else None
    }

    /** `map.set(k, v)`: a new key goes last, an existing key keeps its place. */
    function Set(k: string, v: V): (r: OMap<V>)
      requires Valid()
      ensures r.Valid()
      ensures r.m == m[k := v]
      ensures r.keys == if k in m then keys else keys + [k]
    {
      OMap(if k in m then keys else keys + [k], m[k := v])
    }

    /** `map.delete(k)`: reports whether `k` was present; the other keys keep their order. */
    function Delete(k: string): (r: (OMap<V>, bool))
      requires Valid()
      ensures r.0.Valid()
      ensures r.1 <==> k in m
      ensures r.0.m == m - {k}
      ensures r.0.keys == Seqs.Filter(keys, x => x != k)
    {
      var ks := Seqs.Filter(keys, x => x != k);
      Seqs.FilterIsSubsequence(keys, x => x != k);
      SubsequenceDistinct(ks, keys);
      (OMap(ks, m - {k}), k in m)
    }

    /** `Array.from(map.values())`. */
    function Values(): (r: seq<V>)
      requires Valid()
      ensures |r| == |keys|
      ensures forall i :: 0 <= i < |keys| ==> r[i] == m[keys[i]]
    {
      seq(|keys|, i requires 0 <= i < |keys| && Valid() => m[keys[i]])
    }
  }

  function Empty<V>(): (r: OMap<V>)
    ensures r.Valid() && r.keys == [] && r.m == map[]
  {
    OMap([], map[])
  }

  lemma {:induction false} SubsequenceDistinct(r: seq<string>, s: seq<string>)
    requires Seqs.IsSubsequence(r, s)
    requires forall i, j :: 0 <= i < j < |s| ==> s[i] != s[j]
    ensures forall i, j :: 0 <= i < j < |r| ==> r[i] != r[j]
  {
    if r != [] && s != [] {
      if r[0] == s[0] {
        SubsequenceDistinct(r[1..], s[1..]);
        SubsequenceElements(r[1..], s[1..]);
        forall j | 0 < j < |r| ensures r[0] != r[j] {
          assert r[j] == r[1..][j - 1];
          assert r[j] in s[1..];
          var q :| 0 <= q < |s[1..]| && s[1..][q] == r[j];
          assert s[q + 1] == r[j];
        }
      } else {
        SubsequenceDistinct(r, s[1..]);
      }
    }
  }

  lemma {:induction false} SubsequenceElements(r: seq<string>, s: seq<string>)
    requires Seqs.IsSubsequence(r, s)
    ensures forall x :: x in r ==> x in s
  {
    if r != [] && s != [] {
      if r[0] == s[0] {
        SubsequenceElements(r[1..], s[1..]);
        forall x | x in r ensures x in s {
          if x != r[0] {
            assert x in r[1..];
          }
        }
      } else {
        SubsequenceElements(r, s[1..]);
      }
    }
  }

  /** Setting one key leaves every other key's value unchanged. */
  lemma SetOthersUnchanged<V>(om: OMap<V>, k: string, v: V, other: string)
    requires om.Valid() && other != k
    ensures om.Set(k, v).Get(other) == om.Get(other)
  {
  }
}

/**
 * An insertion-ordered map: the iteration order of a JavaScript `Map` and of the
 * string keys of a plain object. `keys` lists every key once, in insertion order;
 * overwriting an existing key keeps its position.
 */
module OrderedMaps {

  datatype OMap<K(==, !new), V> = OMap(keys: seq<K>, entries: map<K, V>) {

    ghost predicate Valid() {
      && Distinct(keys)
      && (forall k :: k in entries <==> k in keys)
    }

    function Size(): nat {
      |keys|
    }

    /** `m.set(k, v)` / `obj[k] = v`. */
    function Put(k: K, v: V): (r: OMap<K, V>)
      ensures Valid() ==> r.Valid()
      ensures r.entries == entries[k := v]
      ensures k in entries ==> r.keys == keys
      ensures k !in entries ==> r.keys == keys + [k]
    {
      if k in entries then OMap(keys, entries[k := v])
      else
        DistinctSnoc(keys, k);
        OMap(keys + [k], entries[k := v])
    }
  }

  function Empty<K(==, !new), V>(): (r: OMap<K, V>)
    ensures r.Valid() && r.Size() == 0
  {
    OMap([], map[])
  }

  function Single<K(==, !new), V>(k: K, v: V): (r: OMap<K, V>)
    ensures r.Valid() && r.keys == [k] && r.entries == map[k := v]
  {
    OMap([k], map[k := v])
  }

  /** No element occurs twice. Stated on `At` so that it is only applied where a proof asks for it. */
  ghost predicate Distinct<K>(s: seq<K>) {
    forall i, j :: 0 <= i < j < |s| ==> At(s, i) != At(s, j)
  }

  /** `s[i]`, under a name of its own. */
  ghost function At<K>(s: seq<K>, i: int): K
    requires 0 <= i < |s|
  {
    s[i]
  }

  lemma DistinctIndices<K>(s: seq<K>)
    requires Distinct(s)
    ensures forall i, j :: 0 <= i < j < |s| ==> s[i] != s[j]
  {
    forall i, j | 0 <= i < j < |s|
      ensures s[i] != s[j]
    {
      assert At(s, i) != At(s, j);
    }
  }

  lemma IndicesDistinct<K>(s: seq<K>)
    requires forall i, j :: 0 <= i < j < |s| ==> s[i] != s[j]
    ensures Distinct(s)
  {
  }

  /** Appending an element not yet present keeps a sequence without repetitions. */
  lemma DistinctSnoc<K>(s: seq<K>, x: K)
    ensures Distinct(s) && x !in s ==> Distinct(s + [x])
  {
    if Distinct(s) && x !in s {
      DistinctIndices(s);
      IndicesDistinct(s + [x]);
    }
  }

  /** The two parts of a sequence without repetitions have none and share no element. */
  lemma DistinctParts<K>(a: seq<K>, b: seq<K>)
    requires Distinct(a + b)
    ensures Distinct(a) && Distinct(b)
    ensures forall x :: x in a ==> x !in b
  {
    DistinctIndices(a + b);
    assert forall i :: 0 <= i < |a| ==> (a + b)[i] == a[i];
    assert forall j :: 0 <= j < |b| ==> (a + b)[|a| + j] == b[j];
    IndicesDistinct(a);
    IndicesDistinct(b);
  }

  /** A sequence without repetitions has as many distinct elements as it is long. */
  lemma {:induction false} DistinctCard<K>(s: seq<K>)
    requires Distinct(s)
    ensures |set i | 0 <= i < |s| :: s[i]| == |s|
  {
    if |s| > 0 {
      var t := s[..|s| - 1];
      assert t + [s[|s| - 1]] == s;
      DistinctParts(t, [s[|s| - 1]]);
      DistinctCard(t);
      var st := set i | 0 <= i < |t| :: t[i];
      var ss := set i | 0 <= i < |s| :: s[i];
      assert ss == st + {s[|s| - 1]};
      assert s[|s| - 1] !in st by {
        forall i | 0 <= i < |t| ensures t[i] != s[|s| - 1] {
          assert t[i] in t;
        }
      }
    }
  }
}

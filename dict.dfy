/**
 * Python's insertion-ordered `dict`, as the proxy handler uses it for its
 * outgoing header dictionary and for the decoded JSON request object: an
 * ordered sequence of (key, value) entries whose keys are pairwise distinct.
 *
 * `d[k] = v` replaces the value of an existing key where it stands and
 * appends a new key at the end; `Assign` is that statement, `Get` is
 * `d.get(k)`.
 */
module PyDict {

  datatype Option<+T> = None | Some(value: T)

  type Entries<V> = seq<(string, V)>

  /** The keys of `d` in insertion order. */
  function KeysOf<V>(d: Entries<V>): (ks: seq<string>)
    ensures |ks| == |d|
    ensures forall i :: 0 <= i < |d| ==> ks[i] == d[i].0
  {
    if d == [] then [] else [d[0].0] + KeysOf(d[1..])
  }

  /** No key occurs twice: the invariant every Python dict keeps. */
  predicate DistinctKeys<V>(d: Entries<V>) {
    forall i, j :: 0 <= i < j < |d| ==> d[i].0 != d[j].0
  }

  /** `d.get(k)`: the value stored under `k`, if any. */
  function Get<V>(d: Entries<V>, k: string): (r: Option<V>)
    ensures r.Some? <==> k in KeysOf(d)
    ensures r.Some? ==> exists i :: 0 <= i < |d| && d[i] == (k, r.value)
  {
    if d == [] then None
    else if d[0].0 == k then Some(d[0].1)
    else Get(d[1..], k)
  }

  /** `d[k] = v`. */
  function Assign<V>(d: Entries<V>, k: string, v: V): (r: Entries<V>)
    ensures Get(r, k) == Some(v)
    ensures k in KeysOf(d) ==> KeysOf(r) == KeysOf(d)
    ensures k !in KeysOf(d) ==> KeysOf(r) == KeysOf(d) + [k]
  {
    if d == [] then [(k, v)]
    else if d[0].0 == k then [(k, v)] + d[1..]
    else [d[0]] + Assign(d[1..], k, v)
  }

  /** Assigning one key leaves the value of every other key as it was. */
  lemma {:induction false} AssignKeepsOthers<V>(d: Entries<V>, k: string, v: V, other: string)
    requires other != k
    ensures Get(Assign(d, k, v), other) == Get(d, other)
  {
    if d != [] && d[0].0 != k {
      AssignKeepsOthers(d[1..], k, v, other);
    }
  }

  /**
   * Entry by entry: an existing key keeps its position with the new value,
   * every other entry is unchanged; an absent key goes last.
   */
  lemma {:induction false} AssignEntries<V>(d: Entries<V>, k: string, v: V)
    requires DistinctKeys(d)
    ensures k in KeysOf(d) ==>
      && |Assign(d, k, v)| == |d|
      && forall i :: 0 <= i < |d| ==> Assign(d, k, v)[i] == (if d[i].0 == k then (k, v) else d[i])
    ensures k !in KeysOf(d) ==> Assign(d, k, v) == d + [(k, v)]
  {
    if k in KeysOf(d) {
      AssignReplaces(d, k, v);
    } else {
      AssignAppends(d, k, v);
    }
  }

  /** An absent key is appended. */
  lemma {:induction false} AssignAppends<V>(d: Entries<V>, k: string, v: V)
    requires k !in KeysOf(d)
    ensures Assign(d, k, v) == d + [(k, v)]
  {
    if d != [] {
      assert KeysOf(d) == [d[0].0] + KeysOf(d[1..]);
      AssignAppends(d[1..], k, v);
    }
  }

  /** A present key is replaced where it stands. */
  lemma {:induction false} AssignReplaces<V>(d: Entries<V>, k: string, v: V)
    requires DistinctKeys(d) && k in KeysOf(d)
    ensures |Assign(d, k, v)| == |d|
    ensures forall i :: 0 <= i < |d| ==> Assign(d, k, v)[i] == (if d[i].0 == k then (k, v) else d[i])
  {
    if d[0].0 != k {
      assert KeysOf(d) == [d[0].0] + KeysOf(d[1..]);
      assert DistinctKeys(d[1..]);
      AssignReplaces(d[1..], k, v);
    } else {
      forall i | 0 < i < |d| ensures d[i].0 != k {
        assert d[0].0 != d[i].0;
      }
    }
  }

  /** Assignment keeps the keys distinct. */
  lemma AssignKeepsDistinct<V>(d: Entries<V>, k: string, v: V)
    requires DistinctKeys(d)
    ensures DistinctKeys(Assign(d, k, v))
  {
    AssignEntries(d, k, v);
    var r, ks := Assign(d, k, v), KeysOf(d);
    if k !in ks {
      forall i | 0 <= i < |d| ensures r[i].0 != k {
        assert ks[i] == d[i].0;
      }
    }
  }
}

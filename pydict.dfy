/** A Python `dict` as an insertion-ordered association list: assigning to a key that is
    already present replaces its value in place, a new key is appended at the end, and
    iteration over the keys follows insertion order. */
module PyDict {
  import opened Text

  type Dict<K, V> = seq<(K, V)>

  function Keys<K, V>(d: Dict<K, V>): (r: seq<K>)
    ensures |r| == |d| && forall i :: 0 <= i < |d| ==> r[i] == d[i].0
  {
    if d == [] then [] else [d[0].0] + Keys(d[1..])
  }

  /** `d.get(k)`: the value of the first entry with key `k`. */
  function Get<K(==), V>(d: Dict<K, V>, k: K): (r: Option<V>)
    ensures r.None? <==> k !in Keys(d)
  {
    if d == [] then None
    else if d[0].0 == k then Some(d[0].1)
    else Get(d[1..], k)
  }

  /** `d[k] = v`: an existing key keeps its place, a new key goes last. */
  function Set<K(==), V>(d: Dict<K, V>, k: K, v: V): (r: Dict<K, V>)
    ensures Keys(r) == if k in Keys(d) then Keys(d) else Keys(d) + [k]
  {
    if d == [] then [(k, v)]
    else if d[0].0 == k then
      assert ([(k, v)] + d[1..])[1..] == d[1..];
      [(k, v)] + d[1..]
    else
      var rest := Set(d[1..], k, v);
      assert ([d[0]] + rest)[1..] == rest;
      [d[0]] + rest
  }

  /** After `d[k] = v`, `k` reads `v` and every other key reads what it read before. */
  lemma {:induction false} GetSet<K, V>(d: Dict<K, V>, k: K, v: V, k': K)
    ensures Get(Set(d, k, v), k') == if k' == k then Some(v) else Get(d, k')
  {
    if d != [] && d[0].0 != k {
      GetSet(d[1..], k, v, k');
      assert ([d[0]] + Set(d[1..], k, v))[1..] == Set(d[1..], k, v);
    }
  }

  /** Assigning a key twice leaves only the second value. */
  lemma {:induction false} SetTwice<K, V>(d: Dict<K, V>, k: K, v: V, w: V)
    ensures Set(Set(d, k, v), k, w) == Set(d, k, w)
  {
    if d != [] && d[0].0 != k {
      SetTwice(d[1..], k, v, w);
      assert ([d[0]] + Set(d[1..], k, v))[1..] == Set(d[1..], k, v);
    }
  }
}

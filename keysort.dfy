/** Python's `sorted(files, key=...)` with integer keys, computed before sorting: a
    stable insertion sort on (key, name) pairs. */
module KeySort {

  type Keyed = (int, string)

  /** Keys never decrease along `xs`. */
  predicate Ascending(xs: seq<Keyed>) {
    forall i, j :: 0 <= i < j < |xs| ==> xs[i].0 <= xs[j].0
  }

  /** Puts `x` after every element of `xs` whose key is not above its own. */
  function Insert(xs: seq<Keyed>, x: Keyed): (r: seq<Keyed>)
    ensures |r| == |xs| + 1
  {
    if xs == [] then [x]
    else if xs[|xs| - 1].0 <= x.0 then xs + [x]
    else Insert(xs[..|xs| - 1], x) + [xs[|xs| - 1]]
  }

  /** The pairs of `xs` ordered by key; equal keys keep their order. */
  function Sort(xs: seq<Keyed>): (r: seq<Keyed>)
    ensures |r| == |xs|
  {
    if xs == [] then [] else Insert(Sort(xs[..|xs| - 1]), xs[|xs| - 1])
  }

  /** `Insert(xs, x)` holds the pairs of `xs` and `x`, each as often. */
  lemma {:induction false} InsertKeeps(xs: seq<Keyed>, x: Keyed)
    ensures multiset(Insert(xs, x)) == multiset(xs) + multiset{x}
    decreases |xs|
  {
    if xs != [] && xs[|xs| - 1].0 > x.0 {
      var init, last := xs[..|xs| - 1], xs[|xs| - 1];
      InsertKeeps(init, x);
      assert xs == init + [last];
    }
  }

  /** Inserting into ascending pairs keeps them ascending; the last key becomes the
      larger of `x`'s key and the old last key. */
  lemma {:induction false} InsertAscending(xs: seq<Keyed>, x: Keyed)
    requires Ascending(xs)
    ensures Ascending(Insert(xs, x))
    ensures var r := Insert(xs, x);
      r[|r| - 1].0 == (if xs == [] || xs[|xs| - 1].0 <= x.0 then x.0 else xs[|xs| - 1].0)
    decreases |xs|
  {
    if xs != [] && xs[|xs| - 1].0 > x.0 {
      var init, last := xs[..|xs| - 1], xs[|xs| - 1];
      InsertAscending(init, x);
      var head := Insert(init, x);
      InsertKeeps(init, x);
      forall k | 0 <= k < |head| ensures head[k].0 <= last.0 {
        assert head[k] in multiset(head);
        if head[k] in multiset(init) {
          var j :| 0 <= j < |init| && init[j] == head[k];
          assert init[j] == xs[j];
        }
      }
    }
  }

  /** `Sort` puts the keys in ascending order. */
  lemma {:induction false} SortAscending(xs: seq<Keyed>)
    ensures Ascending(Sort(xs))
    decreases |xs|
  {
    if xs != [] {
      SortAscending(xs[..|xs| - 1]);
      InsertAscending(Sort(xs[..|xs| - 1]), xs[|xs| - 1]);
    }
  }

  /** `Sort` rearranges `xs`: the same pairs, each as often. */
  lemma {:induction false} SortPermutes(xs: seq<Keyed>)
    ensures multiset(Sort(xs)) == multiset(xs)
    decreases |xs|
  {
    if xs != [] {
      var init := xs[..|xs| - 1];
      SortPermutes(init);
      InsertKeeps(Sort(init), xs[|xs| - 1]);
      assert xs == init + [xs[|xs| - 1]];
    }
  }
}

/**
 * Row filtering, as a queryset `.filter(...)` / `.delete()` does on a table
 * kept as a sequence, and two facts about tables kept as maps.
 */
module Collections {

  function Filter<T(!new)>(s: seq<T>, keep: T -> bool): (r: seq<T>)
    ensures |r| <= |s|
    ensures forall x :: x in r <==> x in s && keep(x)
  {
    if s == [] then []
    else if keep(s[0]) then [s[0]] + Filter(s[1..], keep)
    else Filter(s[1..], keep)
  }

  /** Filtering keeps exactly the rows that pass, in their original order; nothing that fails survives. */
  lemma {:induction false} FilterAll<T(!new)>(s: seq<T>, keep: T -> bool)
    requires forall x :: x in s ==> keep(x)
    ensures Filter(s, keep) == s
  {
    if s != [] {
      assert forall x :: x in s[1..] ==> x in s;
      FilterAll(s[1..], keep);
    }
  }

  /** Filtering distributes over concatenation. */
  lemma {:induction false} FilterAppend<T(!new)>(s: seq<T>, t: seq<T>, keep: T -> bool)
    ensures Filter(s + t, keep) == Filter(s, keep) + Filter(t, keep)
  {
    if s == [] {
      assert s + t == t;
    } else {
      assert (s + t)[1..] == s[1..] + t;
      FilterAppend(s[1..], t, keep);
    }
  }

  /** Splitting a table by a condition: the rows kept and the rows deleted add up to the whole. */
  lemma {:induction false} FilterCountsComplement<T(!new)>(s: seq<T>, keep: T -> bool, drop: T -> bool)
    requires forall x :: keep(x) == !drop(x)
    ensures |Filter(s, keep)| + |Filter(s, drop)| == |s|
  {
    if s != [] {
      FilterCountsComplement(s[1..], keep, drop);
    }
  }

  /**
   * Saving a row twice leaves the second value. Plain map algebra with no
   * counterpart in the system; calling it explicitly keeps the proofs of
   * methods that save a row twice within budget.
   */
  lemma OverwriteTwice<K, V>(m: map<K, V>, k: K, a: V, b: V)
    ensures m[k := a][k := b] == m[k := b]
  {
  }

  /**
   * Writing one row is adding a one-row table. Plain map algebra, used
   * only to keep proofs that mix the two forms cheap.
   */
  lemma UpdateIsUnion<K, V>(m: map<K, V>, k: K, v: V)
    ensures m[k := v] == m + map[k := v]
  {
  }
}

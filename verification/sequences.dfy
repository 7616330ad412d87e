/**
  Sequence helpers with the semantics of the engine's dynamic array:
  `RemoveSingle` removes the first occurrence of a value only, and
  `Newest` keeps the most recently appended elements.
 */
module Sequences {

  /**
    Reference meaning of "remove one occurrence": `r` is `xs` with the
    element at the first occurrence of `x` cut out, or `xs` itself when
    `x` does not occur.
   */
  predicate RemovedOnce<T(==)>(xs: seq<T>, x: T, r: seq<T>) {
    if x in xs then
      exists i :: 0 <= i < |xs| && xs[i] == x && x !in xs[..i] && r == xs[..i] + xs[i + 1..]
    else r == xs
  }

  /** Removes the first occurrence of `x`, keeping the order of the rest. */
  function RemoveSingle<T(==)>(xs: seq<T>, x: T): (r: seq<T>)
    ensures multiset(r) == multiset(xs) - multiset{x}
    ensures |r| == if x in xs then |xs| - 1 else |xs|
    ensures x !in xs ==> r == xs
  {
    if |xs| == 0 then xs
    else
      assert xs == [xs[0]] + xs[1..];
      if xs[0] == x then xs[1..] else [xs[0]] + RemoveSingle(xs[1..], x)
  }

  /** Cutting out position `j + 1` of `xs` is cutting out position `j` of its tail. */
  lemma SpliceCons<T>(xs: seq<T>, j: nat)
    requires j + 1 < |xs|
    ensures xs[..j + 1] + xs[j + 2..] == [xs[0]] + (xs[1..][..j] + xs[1..][j + 1..])
  {
    assert xs[..j + 1] == [xs[0]] + xs[1..][..j];
    assert xs[j + 2..] == xs[1..][j + 1..];
  }

  /** One step of the splice reading: a head other than `x` is kept in front. */
  lemma RemovedOnceCons<T>(xs: seq<T>, x: T, r: seq<T>)
    requires |xs| > 0 && xs[0] != x
    requires RemovedOnce(xs[1..], x, r)
    ensures RemovedOnce(xs, x, [xs[0]] + r)
  {
    var tail := xs[1..];
    if x in tail {
      var j :| 0 <= j < |tail| && tail[j] == x && x !in tail[..j] && r == tail[..j] + tail[j + 1..];
      SpliceCons(xs, j);
      assert xs[..j + 1] == [xs[0]] + tail[..j];
      // the witness for `xs` is one position further on
      assert xs[j + 1] == x && x !in xs[..j + 1] && [xs[0]] + r == xs[..j + 1] + xs[j + 2..];
    } else {
      assert xs == [xs[0]] + tail;
    }
  }

  /** Splicing out the element at `i` takes one copy of it away and keeps every other count. */
  lemma SpliceCount<T>(xs: seq<T>, i: nat)
    requires i < |xs|
    ensures multiset(xs[..i] + xs[i + 1..]) == multiset(xs) - multiset{xs[i]}
  {
    var before, after := xs[..i], xs[i + 1..];
    assert xs == before + [xs[i]] + after;
    assert multiset(xs) == multiset(before) + multiset{xs[i]} + multiset(after);
  }

  /** `RemovedOnce` takes one copy of `x` away and keeps every other count. */
  lemma RemovedOnceCount<T>(xs: seq<T>, x: T, r: seq<T>)
    requires RemovedOnce(xs, x, r)
    ensures multiset(r) == multiset(xs) - multiset{x}
  {
    if x in xs {
      var i :| 0 <= i < |xs| && xs[i] == x && x !in xs[..i] && r == xs[..i] + xs[i + 1..];
      SpliceCount(xs, i);
    } else {
      assert multiset(xs)[x] == 0;
      assert multiset(xs) - multiset{x} == multiset(xs);
    }
  }

  /** `RemoveSingle` agrees with the splice-at-first-occurrence reading. */
  lemma {:induction false} RemoveSingleSplices<T>(xs: seq<T>, x: T)
    ensures RemovedOnce(xs, x, RemoveSingle(xs, x))
  {
    if |xs| == 0 {
    } else if xs[0] == x {
      // the witness is position 0
      assert xs[..0] == [] && RemoveSingle(xs, x) == xs[..0] + xs[1..];
    } else {
      RemoveSingleSplices(xs[1..], x);
      RemovedOnceCons(xs, x, RemoveSingle(xs[1..], x));
    }
  }

  lemma ConcatAssoc<T>(a: seq<T>, b: seq<T>, c: seq<T>)
    ensures a + b + c == a + (b + c)
  {
  }

  /** The last `n` elements of `xs`, or all of them when there are fewer. */
  function Newest<T>(xs: seq<T>, n: nat): (r: seq<T>)
    ensures |r| == if |xs| <= n then |xs| else n
    ensures r == xs[|xs| - |r|..]
  {
    if |xs| <= n then xs else xs[|xs| - n..]
  }

  /** Trimming to the newest `n` before appending more loses nothing that trimming afterwards keeps. */
  lemma NewestAbsorbs<T>(a: seq<T>, b: seq<T>, n: nat)
    ensures Newest(Newest(a, n) + b, n) == Newest(a + b, n)
  {
    var k := |Newest(a, n)|;
    assert (a + b)[|a| - k..] == Newest(a, n) + b;
  }
}

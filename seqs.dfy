/** Generic sequence helpers shared by the analysers: JavaScript's `slice`,
    `reduce` sums, `Math.max`/`Math.min` over a spread array, `filter(...).length`
    and `[...new Set(xs)]`. */
module Seqs {

  /** `xs.slice(0, n)`: the first n elements, or all of them when there are fewer. */
  function Take<T>(xs: seq<T>, n: nat): (r: seq<T>)
    ensures |r| == if |xs| <= n then |xs| else n
    ensures r == xs[..|r|]
  {
    if |xs| <= n then xs else xs[..n]
  }

  /** `xs.slice(-n)` for n > 0: the last n elements, or all of them when there are fewer. */
  function TakeLast<T>(xs: seq<T>, n: nat): (r: seq<T>)
    ensures |r| == if |xs| <= n then |xs| else n
    ensures r == xs[|xs| - |r|..]
  {
    if |xs| <= n then xs else xs[|xs| - n..]
  }

  /** A non-empty sequence is its prefix followed by its last element. */
  lemma SplitLast<T>(xs: seq<T>)
    requires xs != []
    ensures xs == xs[..|xs| - 1] + [xs[|xs| - 1]]
  {
  }

  /** The sum of a sequence, accumulated left to right as `reduce((a, b) => a + b, 0)` does. */
  function Sum(xs: seq<int>): int
  {
    if xs == [] then 0 else Sum(xs[..|xs| - 1]) + xs[|xs| - 1]
  }

  lemma SumAppend(xs: seq<int>, ys: seq<int>)
    ensures Sum(xs + ys) == Sum(xs) + Sum(ys)
    decreases |ys|
  {
    if ys == [] {
      assert xs + ys == xs;
    } else {
      assert (xs + ys)[..|xs + ys| - 1] == xs + ys[..|ys| - 1];
      SumAppend(xs, ys[..|ys| - 1]);
    }
  }

  /** Termwise bounds bound the sum. */
  lemma {:induction false} SumBounds(xs: seq<int>, lo: int, hi: int)
    requires forall i :: 0 <= i < |xs| ==> lo <= xs[i] <= hi
    ensures |xs| * lo <= Sum(xs) <= |xs| * hi
  {
    if xs != [] {
      var init := xs[..|xs| - 1];
      SumBounds(init, lo, hi);
      assert |xs| * lo == |init| * lo + lo && |xs| * hi == |init| * hi + hi;
    }
  }

  /** A total between n * lo and n * hi has its mean between lo and hi. */
  lemma MeanBounds(total: int, n: int, lo: int, hi: int)
    requires n > 0 && n * lo <= total <= n * hi
    ensures lo as real <= total as real / n as real <= hi as real
  {
    assert (n * lo) as real == n as real * lo as real;
    assert (n * hi) as real == n as real * hi as real;
  }

  /** `Math.max(...xs)` for a non-empty xs. */
  function Max(xs: seq<int>): (m: int)
    requires xs != []
    ensures m in xs
    ensures forall i :: 0 <= i < |xs| ==> xs[i] <= m
  {
    if |xs| == 1 then xs[0]
    else
      var rest := Max(xs[1..]);
      assert forall i :: 1 <= i < |xs| ==> xs[i] == xs[1..][i - 1];
      if xs[0] >= rest then xs[0] else rest
  }

  /** `Math.min(...xs)` for a non-empty xs. */
  function Min(xs: seq<int>): (m: int)
    requires xs != []
    ensures m in xs
    ensures forall i :: 0 <= i < |xs| ==> m <= xs[i]
  {
    if |xs| == 1 then xs[0]
    else
      var rest := Min(xs[1..]);
      assert forall i :: 1 <= i < |xs| ==> xs[i] == xs[1..][i - 1];
      if xs[0] <= rest then xs[0] else rest
  }

  /** How many elements equal x: `xs.filter(v => v === x).length`. */
  function Count<T(==)>(xs: seq<T>, x: T): nat
  {
    if xs == [] then 0 else Count(xs[..|xs| - 1], x) + (if xs[|xs| - 1] == x then 1 else 0)
  }

  predicate NoDuplicates<T(==)>(xs: seq<T>)
  {
    forall i, j :: 0 <= i < j < |xs| ==> xs[i] != xs[j]
  }

  /** In a duplicate-free sequence every element occurs exactly once. */
  lemma {:induction false} DistinctOnce<T>(a: seq<T>)
    requires NoDuplicates(a)
    ensures forall x :: multiset(a)[x] == if x in a then 1 else 0
  {
    if a != [] {
      var init := a[..|a| - 1];
      assert a == init + [a[|a| - 1]];
      assert forall p, q :: 0 <= p < q < |init| ==> init[p] == a[p] && init[q] == a[q];
      DistinctOnce(init);
      assert a[|a| - 1] !in init;
    }
  }

  /** Two duplicate-free sequences with the same elements are permutations
      of each other. */
  lemma DistinctPermutation<T>(a: seq<T>, b: seq<T>)
    requires NoDuplicates(a) && NoDuplicates(b)
    requires forall x :: x in a <==> x in b
    ensures multiset(a) == multiset(b)
  {
    DistinctOnce(a);
    DistinctOnce(b);
    assert forall x :: multiset(a)[x] == multiset(b)[x];
  }

  /** `[...new Set(xs)]`: the distinct elements in order of first appearance. */
  function Dedupe<T(==)>(xs: seq<T>): seq<T>
  {
    if xs == [] then []
    else
      var d := Dedupe(xs[..|xs| - 1]);
      if xs[|xs| - 1] in d then d else d + [xs[|xs| - 1]]
  }

  /** A set keeps each value once, and keeps every value it was given. */
  lemma {:induction false} DedupeSpec<T>(xs: seq<T>)
    ensures NoDuplicates(Dedupe(xs))
    ensures forall x :: x in Dedupe(xs) <==> x in xs
  {
    if xs != [] {
      var init := xs[..|xs| - 1];
      DedupeSpec(init);
      assert forall x :: x in xs <==> x in init || x == xs[|xs| - 1];
    }
  }

  /** One more value: it goes last when it is new, and changes nothing otherwise. */
  lemma DedupeSnoc<T>(xs: seq<T>, x: T)
    ensures x !in xs ==> Dedupe(xs + [x]) == Dedupe(xs) + [x]
    ensures x in xs ==> Dedupe(xs + [x]) == Dedupe(xs)
  {
    assert (xs + [x])[..|xs|] == xs;
    DedupeSpec(xs);
  }

  /** Adding values that are already present changes nothing; a new value goes last. */
  lemma {:induction false} DedupeAppend<T>(xs: seq<T>, ys: seq<T>)
    ensures forall y :: y in ys ==> y in Dedupe(xs + ys)
    ensures (forall y :: y in ys ==> y in xs) ==> Dedupe(xs + ys) == Dedupe(xs)
    decreases |ys|
  {
    if ys == [] {
      assert xs + ys == xs;
    } else {
      var ys' := ys[..|ys| - 1];
      assert (xs + ys)[..|xs + ys| - 1] == xs + ys';
      DedupeAppend(xs, ys');
      DedupeSpec(xs + ys);
      assert ys[|ys| - 1] in xs + ys;
      forall y | y in ys ensures y in Dedupe(xs + ys) {
        assert y in xs + ys;
      }
      if forall y :: y in ys ==> y in xs {
        DedupeSpec(xs);
        DedupeSpec(xs + ys');
        assert ys[|ys| - 1] in xs;
        assert ys[|ys| - 1] in xs + ys';
      }
    }
  }

  /** `Math.floor(rnd * n)` for a draw 0 <= rnd < 1 of `Math.random()`. */
  function PickIndex(n: nat, rnd: real): (i: nat)
    requires n > 0 && 0.0 <= rnd < 1.0
    ensures i < n
  {
    assert 0.0 <= rnd * n as real < n as real by {
      assert n as real - rnd * n as real == (1.0 - rnd) * n as real;
    }
    (rnd * n as real).Floor
  }

  /** `xs[Math.floor(Math.random() * xs.length)]`: always one of the elements. */
  function Pick<T>(xs: seq<T>, rnd: real): (r: T)
    requires xs != [] && 0.0 <= rnd < 1.0
    ensures r in xs
  {
    xs[PickIndex(|xs|, rnd)]
  }
}

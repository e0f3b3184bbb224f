/**
 * The in-place Fisher–Yates shuffle of the quest list. The calls to
 * `Math.random()` are an input: `draws[k]` is the value the k-th call
 * returns, a number in [0, 1).
 */
module FisherYates {

  /** `Math.floor(r * (i + 1))`: the swap partner of position `i`, always in [0, i]. */
  function SwapIndex(r: real, i: nat): (j: nat)
    requires 0.0 <= r < 1.0
    ensures j <= i
  {
    var bound := (i + 1) as real;
    var x := r * bound;
    assert 0.0 <= x by {
      assert 0.0 <= r && 0.0 < bound;
    }
    ScaleBelow(r, bound);
    assert x.Floor as real <= x;
    assert x.Floor < i + 1;
    x.Floor
  }

  /** Scaling a positive number by a factor below one makes it smaller. */
  lemma ScaleBelow(r: real, b: real)
    requires 0.0 <= r < 1.0 && 0.0 < b
    ensures r * b < b
  {
    assert b - r * b == (1.0 - r) * b;
  }

  /** `perm` lists each index of a sequence of length `n` exactly once. */
  predicate IsPermutation(perm: seq<nat>, n: nat) {
    && |perm| == n
    && (forall k :: 0 <= k < n ==> perm[k] < n)
    && (forall a, b :: 0 <= a < b < n ==> perm[a] != perm[b])
  }

  /** `draws` holds a value in [0, 1) for every call to `Math.random()`. */
  predicate ValidDraws(draws: seq<real>) {
    forall k :: 0 <= k < |draws| ==> 0.0 <= draws[k] < 1.0
  }

  /** `[a[i], a[j]] = [a[j], a[i]]`. */
  function Swap<T>(s: seq<T>, i: nat, j: nat): (r: seq<T>)
    requires i < |s| && j < |s|
    ensures |r| == |s| && r[i] == s[j] && r[j] == s[i]
    ensures forall k :: 0 <= k < |s| && k != i && k != j ==> r[k] == s[k]
    ensures multiset(r) == multiset(s)
  {
    s[i := s[j]][j := s[i]]
  }

  /** Swapping two entries of a permutation gives a permutation. */
  lemma SwapKeepsPermutation(perm: seq<nat>, n: nat, i: nat, j: nat)
    requires IsPermutation(perm, n) && i < n && j < n
    ensures IsPermutation(Swap(perm, i, j), n)
  {
    var q := Swap(perm, i, j);
    forall a, b | 0 <= a < b < n
      ensures q[a] != q[b]
    {
      var a' := if a == i then j else if a == j then i else a;
      var b' := if b == i then j else if b == j then i else b;
      assert q[a] == perm[a'] && q[b] == perm[b'] && a' != b';
      if a' < b' {
        assert perm[a'] != perm[b'];
      } else {
        assert perm[b'] != perm[a'];
      }
    }
  }

  /**
   * `for (i = n - 1; i > 0; i--) swap(a[i], a[floor(random() * (i + 1))])`.
   * The result is a rearrangement of the input: the same length, the same
   * elements with the same multiplicities, and (the ghost `perm`) each
   * output position holding the input element at a distinct position.
   */
  method Shuffle<T(==)>(xs: seq<T>, draws: seq<real>) returns (ys: seq<T>, ghost perm: seq<nat>)
    requires |xs| <= |draws| + 1
    requires ValidDraws(draws)
    ensures |ys| == |xs|
    ensures multiset(ys) == multiset(xs)
    ensures IsPermutation(perm, |xs|)
    ensures forall k :: 0 <= k < |ys| ==> ys[k] == xs[perm[k]]
  {
    ys := xs;
    perm := seq(|xs|, k => k);
    var i := |xs| - 1;
    while i > 0
      invariant i < |xs|
      invariant |ys| == |xs|
      invariant multiset(ys) == multiset(xs)
      invariant IsPermutation(perm, |xs|)
      invariant forall k :: 0 <= k < |ys| ==> ys[k] == xs[perm[k]]
      decreases i
    {
      var j := SwapIndex(draws[|xs| - 1 - i], i);
      SwapKeepsPermutation(perm, |xs|, i, j);
      ys := Swap(ys, i, j);
      perm := Swap(perm, i, j);
      i := i - 1;
    }
  }
}

/**
 * The two collection operations the task list relies on: the order-preserving selection that a
 * LINQ `Where` followed by a `foreach` performs, and `Collection<T>.Remove`, which removes the first
 * element equal to its argument (`IndexOf` followed by `RemoveAt`).
 */
module Sequences {

  /** The elements of `xs` at the positions where `mask` is true, in their original order. */
  function Keep<T>(xs: seq<T>, mask: seq<bool>): (r: seq<T>)
    requires |mask| == |xs|
    ensures |r| <= |xs|
    decreases |xs|
  {
    if |xs| == 0 then []
    else Keep(xs[..|xs| - 1], mask[..|xs| - 1]) + (if mask[|xs| - 1] then [xs[|xs| - 1]] else [])
  }

  /** Extending both prefixes by one position adds that element exactly when its bit is set. */
  lemma KeepPrefixStep<T>(xs: seq<T>, mask: seq<bool>, i: nat)
    requires |mask| == |xs| && i < |xs|
    ensures Keep(xs[..i + 1], mask[..i + 1]) == Keep(xs[..i], mask[..i]) + (if mask[i] then [xs[i]] else [])
  {
    assert xs[..i + 1][..i] == xs[..i] && mask[..i + 1][..i] == mask[..i];
  }

  /** The positions where `mask` is true, in increasing order: exactly those, each once. */
  function KeptIndices(mask: seq<bool>): (idx: seq<nat>)
    ensures forall k :: 0 <= k < |idx| ==> idx[k] < |mask| && mask[idx[k]]
    ensures forall j, k :: 0 <= j < k < |idx| ==> idx[j] < idx[k]
    ensures forall i :: 0 <= i < |mask| && mask[i] ==> i in idx
    decreases |mask|
  {
    if |mask| == 0 then []
    else KeptIndices(mask[..|mask| - 1]) + (if mask[|mask| - 1] then [|mask| - 1] else [])
  }

  /** `Keep` picks, in order, exactly the elements at the kept positions. */
  lemma {:induction false} KeepAtKeptIndices<T>(xs: seq<T>, mask: seq<bool>)
    requires |mask| == |xs|
    ensures |Keep(xs, mask)| == |KeptIndices(mask)|
    ensures forall k :: 0 <= k < |Keep(xs, mask)| ==> Keep(xs, mask)[k] == xs[KeptIndices(mask)[k]]
    decreases |xs|
  {
    if |xs| > 0 {
      var n := |xs| - 1;
      KeepAtKeptIndices(xs[..n], mask[..n]);
    }
  }

  /** An element is kept exactly when it stands at some position whose mask bit is set. */
  lemma {:induction false} KeepMember<T>(xs: seq<T>, mask: seq<bool>, x: T)
    requires |mask| == |xs|
    ensures x in Keep(xs, mask) <==> exists i :: 0 <= i < |xs| && mask[i] && xs[i] == x
    decreases |xs|
  {
    if |xs| > 0 {
      var n := |xs| - 1;
      KeepMember(xs[..n], mask[..n], x);
      if x in Keep(xs, mask) && x !in Keep(xs[..n], mask[..n]) {
        assert mask[n] && xs[n] == x;
      }
      if exists i :: 0 <= i < |xs| && mask[i] && xs[i] == x {
        var i :| 0 <= i < |xs| && mask[i] && xs[i] == x;
        if i < n {
          assert xs[..n][i] == x && mask[..n][i];
        }
      }
    }
  }

  /** Only elements of `xs` are kept. */
  lemma {:induction false} KeepSubset<T>(xs: seq<T>, mask: seq<bool>, x: T)
    requires |mask| == |xs|
    requires x !in xs
    ensures x !in Keep(xs, mask)
    decreases |xs|
  {
    if |xs| > 0 {
      var n := |xs| - 1;
      assert x !in xs[..n];
      KeepSubset(xs[..n], mask[..n], x);
    }
  }

  /** A mask that keeps everything keeps the sequence as it is. */
  lemma {:induction false} KeepAll<T>(xs: seq<T>, mask: seq<bool>)
    requires |mask| == |xs|
    requires forall i :: 0 <= i < |mask| ==> mask[i]
    ensures Keep(xs, mask) == xs
    decreases |xs|
  {
    if |xs| > 0 {
      var n := |xs| - 1;
      KeepAll(xs[..n], mask[..n]);
      assert xs[..n] + [xs[n]] == xs;
    }
  }

  /** `Collection<T>.IndexOf`: the first position holding `x`, or -1 when there is none. */
  function IndexOf<T(==)>(xs: seq<T>, x: T): (i: int)
    ensures -1 <= i < |xs|
    ensures i == -1 <==> x !in xs
    ensures 0 <= i ==> xs[i] == x && forall k :: 0 <= k < i ==> xs[k] != x
    decreases |xs|
  {
    if |xs| == 0 then -1
    else if xs[0] == x then 0
    else
      var j := IndexOf(xs[1..], x);
      if j < 0 then -1 else j + 1
  }

  /**
   * `Collection<T>.Remove`: drops the first element equal to `x`; the elements before it stay in
   * place and those after it move up by one. Without an occurrence nothing changes.
   */
  function Remove<T(==)>(xs: seq<T>, x: T): (r: seq<T>)
    ensures x !in xs ==> r == xs
    ensures x in xs ==> |r| == |xs| - 1
  {
    var i := IndexOf(xs, x);
    if i < 0 then xs else xs[..i] + xs[i + 1..]
  }

  /** The survivors of `Remove` keep their relative order: position k holds the k-th survivor. */
  lemma RemoveKeepsOrder<T>(xs: seq<T>, x: T)
    requires x in xs
    ensures forall k :: 0 <= k < IndexOf(xs, x) ==> Remove(xs, x)[k] == xs[k]
    ensures forall k :: IndexOf(xs, x) <= k < |xs| - 1 ==> Remove(xs, x)[k] == xs[k + 1]
  {
    var i := IndexOf(xs, x);
    var before, after := xs[..i], xs[i + 1..];
    assert Remove(xs, x) == before + after;
  }

  /** `Remove` takes exactly one copy of `x` out of the collection: adding it back restores the contents. */
  lemma RemoveMultiset<T>(xs: seq<T>, x: T)
    ensures x in xs ==> multiset(xs) == multiset(Remove(xs, x)) + multiset{x}
  {
    var i := IndexOf(xs, x);
    if i >= 0 {
      var before, after := xs[..i], xs[i + 1..];
      assert xs == before + [x] + after;
      assert Remove(xs, x) == before + after;
    }
  }

  /** In a sequence without duplicates, the removed element is gone afterwards. */
  lemma RemoveDistinct<T>(xs: seq<T>, x: T)
    requires forall i, j :: 0 <= i < j < |xs| ==> xs[i] != xs[j]
    ensures x !in Remove(xs, x)
  {
  }
}

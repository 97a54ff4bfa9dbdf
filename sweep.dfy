/**
 * The index structure of the two-sided sweep `handleCentralizedEffect`:
 * floor(n/2) steps to the left of the selection, n - 1 - floor(n/2) steps to
 * the right, then the selected item itself.
 */
module Sweep {
  import opened Ring

  /** Ring indices the left loop reaches: n - floor(n/2) .. n - 1 (step i = n - rel). */
  predicate SweptLeft(n: nat, rel: nat)
  {
    rel >= n - FloorCenter(n)
  }

  /** Ring indices the right loop reaches: 1 .. n - 1 - floor(n/2) (step i = rel). */
  predicate SweptRight(n: nat, rel: nat)
  {
    0 < rel < n - FloorCenter(n)
  }

  /**
   * The `position` the sweep writes for the item at ring index rel:
   * `center - i` on the left, `center + i` on the right, `center` for the
   * selected item. It is the ring index rotated by floor(n/2).
   */
  function SweepPosition(n: nat, rel: nat): (p: nat)
    requires rel < n
    ensures p < n
    ensures p == rel + FloorCenter(n) || p + n == rel + FloorCenter(n)
    ensures p == FloorCenter(n) <==> rel == 0
  {
    var center := FloorCenter(n);
    if rel == 0 then center
    else if SweptRight(n, rel) then center + rel
    else center - (n - rel)
  }

  /** The positions a sweep writes, in absolute order, form a permutation of 0 .. n - 1. */
  lemma {:induction false} SweepPositionsPermutation(n: nat, selected: nat)
    requires selected < n
    ensures IsPermutationOfRange(seq(n, k requires 0 <= k < n => SweepPosition(n, RingIndex(n, selected, k))))
    ensures SweepPosition(n, RingIndex(n, selected, selected)) == FloorCenter(n)
  {
    var s := seq(n, k requires 0 <= k < n => SweepPosition(n, RingIndex(n, selected, k)));
    var center := FloorCenter(n);
    forall k, l | 0 <= k < l < n
      ensures s[k] != s[l]
    {
      RingIndexInjective(n, selected, k, l);
    }
    forall p | 0 <= p < n
      ensures p in s
    {
      var rel := if p >= center then p - center else p + n - center;
      var i := RingAbsolute(n, selected, rel);
      assert s[i] == p;
    }
  }

  /**
   * The absolute indices in the order the sweep visits them: the left loop,
   * the right loop, then the selected item.
   */
  function SweepOrder(n: nat, selected: nat): (order: seq<nat>)
    requires selected < n
    ensures |order| == n
  {
    seq(n, t requires 0 <= t < n => SweepVisit(n, selected, t))
  }

  /** The t-th item the sweep visits. */
  function SweepVisit(n: nat, selected: nat, t: nat): (i: nat)
    requires selected < n && t < n
    ensures i < n && RingIndex(n, selected, i) == SweepOrderRing(n, t)
  {
    var center := FloorCenter(n);
    if t < center then LeftNeighbour(n, selected, t + 1)
    else if t < n - 1 then RightNeighbour(n, selected, t - center + 1)
    else selected
  }

  /** The ring index of the t-th item the sweep visits. */
  function SweepOrderRing(n: nat, t: nat): (rel: nat)
    requires t < n
    ensures rel < n
  {
    var center := FloorCenter(n);
    if t < center then n - 1 - t
    else if t < n - 1 then t - center + 1
    else 0
  }

  /** The items the left loop visits, step 1 first. */
  function LeftOrder(n: nat, selected: nat): (order: seq<nat>)
    requires selected < n
    ensures |order| == FloorCenter(n)
  {
    seq(FloorCenter(n), t requires 0 <= t < FloorCenter(n) => LeftNeighbour(n, selected, t + 1))
  }

  /** The items the right loop visits, step 1 first. */
  function RightOrder(n: nat, selected: nat): (order: seq<nat>)
    requires selected < n
    ensures |order| == n - 1 - FloorCenter(n)
  {
    seq(n - 1 - FloorCenter(n), t requires 0 <= t < n - 1 - FloorCenter(n) => RightNeighbour(n, selected, t + 1))
  }

  /** The sweep's order is what the left loop visits, then the right loop, then the selected item. */
  lemma SweepOrderSplit(n: nat, selected: nat)
    requires selected < n
    ensures SweepOrder(n, selected) == LeftOrder(n, selected) + RightOrder(n, selected) + [selected]
  {
    var order, left, right := SweepOrder(n, selected), LeftOrder(n, selected), RightOrder(n, selected);
    var joined := left + right + [selected];
    var center := FloorCenter(n);
    forall t | 0 <= t < n
      ensures order[t] == joined[t]
    {
      if t < center {
        assert joined[t] == left[t];
      } else if t < n - 1 {
        assert joined[t] == right[t - center];
      } else {
        assert joined[t] == selected;
      }
    }
  }

  /**
   * Every item is visited exactly once: floor(n/2) on the left, then
   * n - 1 - floor(n/2) on the right, the selected item last; a single item
   * is the only one visited and neither loop runs.
   */
  lemma {:induction false} SweepVisitsEachOnce(n: nat, selected: nat)
    requires selected < n
    ensures IsPermutationOfRange(SweepOrder(n, selected))
    ensures forall t :: 0 <= t < n ==> RingIndex(n, selected, SweepOrder(n, selected)[t]) == SweepOrderRing(n, t)
    ensures forall t :: 0 <= t < FloorCenter(n) ==> SweptLeft(n, RingIndex(n, selected, SweepOrder(n, selected)[t]))
    ensures forall t :: FloorCenter(n) <= t < n - 1 ==> SweptRight(n, RingIndex(n, selected, SweepOrder(n, selected)[t]))
    ensures SweepOrder(n, selected)[n - 1] == selected
    ensures n == 1 ==> SweepOrder(n, selected) == [selected]
  {
    var order := SweepOrder(n, selected);
    var center := FloorCenter(n);
    forall k, l | 0 <= k < l < n
      ensures order[k] != order[l]
    {
      assert SweepOrderRing(n, k) != SweepOrderRing(n, l);
    }
    forall a | 0 <= a < n
      ensures a in order
    {
      var rel := RingIndex(n, selected, a);
      var t := if rel == 0 then n - 1 else if rel < n - center then rel + center - 1 else n - 1 - rel;
      assert SweepOrderRing(n, t) == rel;
      RingIndexInjective(n, selected, order[t], a);
    }
    if n == 1 {
      assert order == [selected];
    }
  }
}

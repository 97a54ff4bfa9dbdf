/**
 * Wrap-around index arithmetic of the stack. Every layout pass measures an
 * item's distance from the selected item along the ring of n items, and the
 * effects pick one of two centre conventions.
 */
module Ring {

  /** `Math.abs` on integers. */
  function Abs(x: int): (a: nat)
    ensures a == x || a == -x
  {
    if x < 0 then -x else x
  }

  /** `Math.floor(n / 2)`: the centre slot of the symmetric layouts. */
  function FloorCenter(n: nat): (c: nat)
    ensures 2 * c <= n < 2 * c + 2
  {
    n / 2
  }

  /** `Math.ceil(n / 2)`: the centre of PeekaBoo and Coverflow, the row length of SideGrid. */
  function CeilCenter(n: nat): (c: nat)
    ensures n <= 2 * c < n + 2
  {
    (n + 1) / 2
  }

  /**
   * The ring-relative index of absolute index i: `i - selectedIndex`, plus n
   * when that is negative. It is the distance, walking right and wrapping,
   * from the selected item to item i.
   */
  function RingIndex(n: nat, selected: nat, i: nat): (r: nat)
    requires selected < n && i < n
    ensures r < n
    ensures r == 0 <==> i == selected
    ensures (selected + r == i) || (selected + r == i + n)
  {
    var d := i - selected;
    if d < 0 then n + d else d
  }

  /** The absolute index at ring distance r from the selected item. */
  function RingAbsolute(n: nat, selected: nat, r: nat): (i: nat)
    requires selected < n && r < n
    ensures i < n && RingIndex(n, selected, i) == r
  {
    if selected + r < n then selected + r else selected + r - n
  }

  /** RingAbsolute undoes RingIndex: no two items share a ring index. */
  lemma RingRoundTrip(n: nat, selected: nat, i: nat)
    requires selected < n && i < n
    ensures RingAbsolute(n, selected, RingIndex(n, selected, i)) == i
  {
  }

  lemma RingIndexInjective(n: nat, selected: nat, i: nat, j: nat)
    requires selected < n && i < n && j < n
    ensures RingIndex(n, selected, i) == RingIndex(n, selected, j) <==> i == j
  {
    RingRoundTrip(n, selected, i);
    RingRoundTrip(n, selected, j);
  }

  /** s lists every number of 0 .. |s| - 1 exactly once. */
  ghost predicate IsPermutationOfRange(s: seq<int>)
  {
    && (forall k :: 0 <= k < |s| ==> 0 <= s[k] < |s|)
    && (forall k, l :: 0 <= k < l < |s| ==> s[k] != s[l])
    && (forall r :: 0 <= r < |s| ==> r in s)
  }

  /** The ring indices of items 0 .. n - 1, in absolute order. */
  function RingIndices(n: nat, selected: nat): (s: seq<nat>)
    requires selected < n
    ensures |s| == n
  {
    seq(n, k requires 0 <= k < n => RingIndex(n, selected, k))
  }

  /** For a fixed selection, the ring index is a bijection from 0 .. n - 1 onto itself. */
  lemma {:induction false} RingIndicesPermutation(n: nat, selected: nat)
    requires selected < n
    ensures IsPermutationOfRange(RingIndices(n, selected))
  {
    var s := RingIndices(n, selected);
    forall k, l | 0 <= k < l < n
      ensures s[k] != s[l]
    {
      RingIndexInjective(n, selected, k, l);
    }
    forall r | 0 <= r < n
      ensures r in s
    {
      var i := RingAbsolute(n, selected, r);
      assert s[i] == r;
    }
  }

  /**
   * The item i steps left of the selection, found as in the sweep:
   * `selectedIndex - i`, plus n once when negative.
   */
  function LeftNeighbour(n: nat, selected: nat, i: nat): (pos: nat)
    requires selected < n && 1 <= i < n
    ensures pos < n && RingIndex(n, selected, pos) == n - i
  {
    var p := selected - i;
    if p < 0 then n + p else p
  }

  /**
   * The item i steps right of the selection, found as in the sweep:
   * `selectedIndex + i`, minus n once when it reaches n.
   */
  function RightNeighbour(n: nat, selected: nat, i: nat): (pos: nat)
    requires selected < n && 1 <= i < n
    ensures pos < n && RingIndex(n, selected, pos) == i
  {
    var p := selected + i;
    if p >= n then p - n else p
  }
}

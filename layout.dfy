/**
 * What each layout pass of the component does to each element: the net
 * style writes it receives and the `position` it is given, as functions of
 * the effect, the item count, the selection and the host size.
 */
module Layout {
  import opened Ring
  import opened Sweep
  import opened Styles
  import opened Effects

  datatype Option<T> = None | Some(value: T)

  /** One element of the stack: its fixed absolute index and its last written position. */
  datatype EffectItem = EffectItem(index: nat, position: int)

  /** What a pass does to one element: net style writes, and the position written, if any. */
  datatype ItemUpdate = ItemUpdate(style: Descriptor, position: Option<int>)

  /** The element as it is after the pass wrote position pos (or left it alone). */
  function Placed(item: EffectItem, pos: Option<int>): (item': EffectItem)
    ensures item'.index == item.index
    ensures pos.Some? ==> item'.position == pos.value
    ensures pos.None? ==> item' == item
  {
    match pos
    case Some(p) => item.(position := p)
    case None => item
  }

  /**
   * `handleCentralizedEffect(activate)` on item k: the left loop's step
   * i = n - rel, the right loop's step i = rel, or the selected item, which
   * gets the resting centre style and, when activating, the active centre
   * style on top (its rank is `null`, which the arithmetic reads as 0).
   */
  function SweepUpdate(effect: StackEffect, n: nat, selected: nat, k: nat, activate: bool): ItemUpdate
    requires selected < n && k < n
  {
    var rel := RingIndex(n, selected, k);
    var style :=
      if rel == 0 then
        DeactiveStyle(effect, selected, CenterSide, selected)
        + (if activate then ActiveStyle(effect, 0, CenterSide, n, NoCell) else map[])
      else
        SideStyle(effect, activate, SweepRank(n, rel), if SweptRight(n, rel) then RightSide else LeftSide, n, selected);
    ItemUpdate(style, Some(SweepPosition(n, rel)))
  }

  /** The loop step at which the sweep reaches ring index rel: rel on the right, n - rel on the left. */
  function SweepRank(n: nat, rel: nat): nat
    requires rel < n
  {
    if SweptRight(n, rel) then rel else n - rel
  }

  /** The style call a sweep step makes. */
  function SideStyle(effect: StackEffect, activate: bool, rank: int, side: Side, n: nat, selected: nat): Descriptor
  {
    if activate then ActiveStyle(effect, rank, side, n, NoCell) else DeactiveStyle(effect, rank, side, selected)
  }

  /** Where active() puts item k: by the two-sided sweep, by its ring index, or not at all. */
  predicate PlacedByRing(effect: StackEffect)
  {
    effect !in {Fanout, SideSlide, PreviewGrid}
  }

  /** The rank and side active() passes to setActiveStyle for an item at ring index rel. */
  datatype Placement = Placement(rank: int, side: Side)

  function RingPlacement(effect: StackEffect, n: nat, rel: nat): Placement
    requires PlacedByRing(effect)
  {
    match effect
    case SimpleSpread =>
      var center := FloorCenter(n);
      if rel < center then Placement(center - rel, LeftSide)
      else if rel > center then Placement(rel - center, RightSide)
      else Placement(0, CenterSide)
    case RandomRotation =>
      if rel == 0 then Placement(0, CenterSide)
      else Placement(rel, if rel % 2 == 1 then LeftSide else RightSide)
    case SideGrid =>
      Placement(-1, if rel < CeilCenter(n) then TopSide else BottomSide)
    case PeekaBoo =>
      var center := CeilCenter(n);
      if rel == 0 then Placement(0, CenterSide)
      else Placement(Abs(center - rel), if rel < center then LeftSide else RightSide)
    case Queue =>
      Placement(rel, CenterSide)
    // the rank rule `Math.abs(n - rel - 1)` shared by the remaining five effects
    case Fan => Placement(Abs(n - rel - 1), CenterSide)
    case ElasticSpread => Placement(Abs(n - rel - 1), CenterSide)
    case VerticalSpread => Placement(Abs(n - rel - 1), CenterSide)
    case Leaflet => Placement(Abs(n - rel - 1), CenterSide)
    case Coverflow => Placement(Abs(n - rel - 1), CenterSide)
  }

  /** The cell active() passes: SideGrid's geometry, unused by the other effects. */
  function RingCell(effect: StackEffect, host: HostSize, n: nat, rel: nat): GridCell
  {
    if effect == SideGrid then GridCellFor(host, n, rel) else NoCell
  }

  /** `active()` on item k. */
  function ActiveUpdate(effect: StackEffect, n: nat, selected: nat, host: HostSize, k: nat): ItemUpdate
    requires selected < n && k < n
  {
    if effect == Fanout || effect == SideSlide then SweepUpdate(effect, n, selected, k, true)
    else if effect == PreviewGrid then ItemUpdate(map[], None)
    else RingUpdate(effect, n, selected, host, k)
  }

  /**
   * `active()` on item k of an effect placed by ring index: the rank and
   * side RingPlacement gives for its ring index rel, and position rel.
   */
  function RingUpdate(effect: StackEffect, n: nat, selected: nat, host: HostSize, k: nat): ItemUpdate
    requires selected < n && k < n && PlacedByRing(effect)
  {
    var rel := RingIndex(n, selected, k);
    var placement := RingPlacement(effect, n, rel);
    ItemUpdate(ActiveStyle(effect, placement.rank, placement.side, n, RingCell(effect, host, n, rel)), Some(rel))
  }

  /** For the effects placed by ring index, active() is RingUpdate. */
  lemma RingActiveUpdate(effect: StackEffect, n: nat, selected: nat, host: HostSize, k: nat)
    requires selected < n && k < n && PlacedByRing(effect)
    ensures ActiveUpdate(effect, n, selected, host, k) == RingUpdate(effect, n, selected, host, k)
  {
  }

  /** RingUpdate on an item whose placement is known, for an effect without grid cells. */
  lemma RingActiveAt(effect: StackEffect, n: nat, selected: nat, host: HostSize, k: nat, rank: int, side: Side)
    requires selected < n && k < n && PlacedByRing(effect) && effect != SideGrid
    requires RingPlacement(effect, n, RingIndex(n, selected, k)) == Placement(rank, side)
    ensures RingUpdate(effect, n, selected, host, k).style == ActiveStyle(effect, rank, side, n, NoCell)
    ensures RingUpdate(effect, n, selected, host, k).position == Some(RingIndex(n, selected, k))
  {
  }

  /** `deactive()` on item k. */
  function DeactiveUpdate(effect: StackEffect, n: nat, selected: nat, k: nat): ItemUpdate
    requires selected < n && k < n
  {
    match effect
    case SideSlide => SweepUpdate(effect, n, selected, k, false)
    case PreviewGrid => ItemUpdate(map[], None)
    case _ => ItemUpdate(DeactiveStyle(effect, k, NoSide, selected), None)
  }

  /** `initialize()` on item k. */
  function InitialUpdate(effect: StackEffect, n: nat, selected: nat, k: nat): ItemUpdate
    requires selected < n && k < n
  {
    match effect
    case Fanout => ItemUpdate(map[ZIndex := Number(if selected == k then 99 else 0)], None)
    case SideGrid => ItemUpdate(map[ZIndex := Number(if selected == k then 99 else 0)], None)
    case SimpleSpread => ItemUpdate(map[ZIndex := Number(99 - k)], None)
    case RandomRotation => ItemUpdate(map[ZIndex := Number(99 - k)], None)
    case Queue => ItemUpdate(map[ZIndex := Number(99 - k)], None)
    case ElasticSpread => ItemUpdate(map[ZIndex := Number(99 - k)], None)
    case VerticalSpread => ItemUpdate(map[ZIndex := Number(99 - k)], None)
    case SideSlide => SweepUpdate(effect, n, selected, k, false)
    case PeekaBoo => ItemUpdate(DeactiveStyle(effect, k, NoSide, selected), None)
    case Fan => ItemUpdate(DeactiveStyle(effect, k, NoSide, selected), None)
    case PreviewGrid => ItemUpdate(map[], None)
    case Leaflet => ItemUpdate(PerspectiveItemStyle(n, k, [RotateX(0)]), None)
    case Coverflow => ItemUpdate(PerspectiveItemStyle(n, k, [RotateY(0), Scale(1.0)]), None)
  }

  /** The element writes of initialize() for Leaflet and Coverflow. */
  function PerspectiveItemStyle(n: nat, k: nat, transform: seq<TransformFn>): Descriptor
  {
    map[
      ZIndex := Number(Abs(n - k - 1)),
      TransformStyle := Text("preserve-3d"),
      TransformOrigin := Text("top center"),
      Transform := Transformed(transform)]
  }

  /** The host-element writes of initialize(): a 1600px perspective for the 3-D effects. */
  function InitialHostStyle(effect: StackEffect): (d: Descriptor)
    ensures effect in {Leaflet, Coverflow} <==> Perspective in d
    ensures Perspective in d ==> d[Perspective] == Length(1600)
  {
    if effect == Leaflet || effect == Coverflow then map[Perspective := Length(1600)] else map[]
  }

  function ActivePlan(effect: StackEffect, n: nat, selected: nat, host: HostSize): (plan: seq<ItemUpdate>)
    requires selected < n
    ensures |plan| == n
  {
    seq(n, k requires 0 <= k < n => ActiveUpdate(effect, n, selected, host, k))
  }

  function DeactivePlan(effect: StackEffect, n: nat, selected: nat): (plan: seq<ItemUpdate>)
    requires selected < n
    ensures |plan| == n
  {
    seq(n, k requires 0 <= k < n => DeactiveUpdate(effect, n, selected, k))
  }

  function InitialPlan(effect: StackEffect, n: nat, selected: nat): (plan: seq<ItemUpdate>)
    requires selected < n
    ensures |plan| == n
  {
    seq(n, k requires 0 <= k < n => InitialUpdate(effect, n, selected, k))
  }

  function SweepPlan(effect: StackEffect, n: nat, selected: nat, activate: bool): (plan: seq<ItemUpdate>)
    requires selected < n
    ensures |plan| == n
  {
    seq(n, k requires 0 <= k < n => SweepUpdate(effect, n, selected, k, activate))
  }

  /** Opening Fanout or SideSlide is the activating sweep and nothing else. */
  lemma ActiveSweepPlan(effect: StackEffect, n: nat, selected: nat, host: HostSize)
    requires selected < n && effect in {Fanout, SideSlide}
    ensures ActivePlan(effect, n, selected, host) == SweepPlan(effect, n, selected, true)
  {
  }

  /** Closing SideSlide is the resting sweep and nothing else. */
  lemma DeactiveSweepPlan(n: nat, selected: nat)
    requires selected < n
    ensures DeactivePlan(SideSlide, n, selected) == SweepPlan(SideSlide, n, selected, false)
  {
  }

  /** Initializing SideSlide is the resting sweep and nothing else. */
  lemma InitialSweepPlan(n: nat, selected: nat)
    requires selected < n
    ensures InitialPlan(SideSlide, n, selected) == SweepPlan(SideSlide, n, selected, false)
  {
  }

  /** Entry k of a plan, named so that what is known about the entries is used only where one is named. */
  function PlanAt(plan: seq<ItemUpdate>, k: nat): ItemUpdate
    requires k < |plan|
  {
    plan[k]
  }

  /**
   * plan is target, entry by entry; an entry is looked up in target only
   * where PlanAt names it, which keeps the per-item style rules out of the
   * reasoning about the loops of a pass.
   */
  ghost predicate Follows(plan: seq<ItemUpdate>, target: seq<ItemUpdate>)
  {
    && |plan| == |target|
    && forall k {:trigger PlanAt(plan, k)} :: 0 <= k < |plan| ==> PlanAt(plan, k) == target[k]
  }

  lemma FollowsItself(plan: seq<ItemUpdate>)
    ensures Follows(plan, plan)
  {
  }

  /** Every element's styles after the pass. */
  function Restyled(styles: seq<StyleMap>, plan: seq<ItemUpdate>): (styles': seq<StyleMap>)
    requires |styles| == |plan|
    ensures |styles'| == |styles|
  {
    seq(|styles|, k requires 0 <= k < |styles| => Apply(styles[k], plan[k].style))
  }

  /** Every element after the pass. */
  function Replaced(items: seq<EffectItem>, plan: seq<ItemUpdate>): (items': seq<EffectItem>)
    requires |items| == |plan|
    ensures |items'| == |items|
  {
    seq(|items|, k requires 0 <= k < |items| => Placed(items[k], plan[k].position))
  }

  /** The plan entry of the item that step i of the left or the right loop reaches. */
  lemma SweepStepEntry(plan: seq<ItemUpdate>, effect: StackEffect, n: nat, selected: nat, activate: bool, k: nat, i: nat, side: Side)
    requires selected < n && k < n && Follows(plan, SweepPlan(effect, n, selected, activate))
    requires side == LeftSide ==> 1 <= i <= n / 2 && RingIndex(n, selected, k) == n - i
    requires side == RightSide ==> 1 <= i < n - n / 2 && RingIndex(n, selected, k) == i
    requires side == LeftSide || side == RightSide
    ensures plan[k].style == SideStyle(effect, activate, i, side, n, selected)
    ensures plan[k].position == Some(if side == LeftSide then n / 2 - i else n / 2 + i)
  {
    var rel := RingIndex(n, selected, k);
    assert rel != 0 && SweepRank(n, rel) == i;
    assert PlanAt(plan, k) == SweepUpdate(effect, n, selected, k, activate);
  }

  /** The plan entry of the selected item, which the sweep reaches last. */
  lemma SweepSelectedEntry(plan: seq<ItemUpdate>, effect: StackEffect, n: nat, selected: nat, activate: bool)
    requires selected < n && Follows(plan, SweepPlan(effect, n, selected, activate))
    ensures plan[selected].style ==
      DeactiveStyle(effect, selected, CenterSide, selected) + (if activate then ActiveStyle(effect, 0, CenterSide, n, NoCell) else map[])
    ensures plan[selected].position == Some(n / 2)
  {
    assert PlanAt(plan, selected) == SweepUpdate(effect, n, selected, selected, activate);
  }

  /** A pass that wrote each element's styles and positions as the plan says. */
  lemma PassResult(styles: seq<StyleMap>, styles': seq<StyleMap>, items: seq<EffectItem>, items': seq<EffectItem>, plan: seq<ItemUpdate>)
    requires |styles| == |styles'| == |items| == |items'| == |plan|
    requires forall k :: 0 <= k < |plan| ==> styles'[k] == Apply(styles[k], plan[k].style)
    requires forall k :: 0 <= k < |plan| ==> items'[k] == Placed(items[k], plan[k].position)
    ensures styles' == Restyled(styles, plan) && items' == Replaced(items, plan)
  {
  }

  /** The ring indices lo .. hi - 1. */
  function RingSpan(lo: nat, hi: nat): (span: set<nat>)
    ensures forall r: nat :: r in span <==> lo <= r < hi
    decreases hi - lo
  {
    if hi <= lo then {} else RingSpan(lo, hi - 1) + {hi - 1}
  }

  /**
   * Part of a pass is done: the elements whose ring index is in done have
   * received their update, every other element is as it was.
   */
  ghost predicate PassedOver(styles0: seq<StyleMap>, styles: seq<StyleMap>, items0: seq<EffectItem>, items: seq<EffectItem>,
                             plan: seq<ItemUpdate>, selected: nat, done: set<nat>)
  {
    && |styles0| == |styles| == |items0| == |items| == |plan|
    && selected < |plan|
    && forall k :: 0 <= k < |plan| ==>
         if RingIndex(|plan|, selected, k) in done then
           styles[k] == Apply(styles0[k], plan[k].style) && items[k] == Placed(items0[k], plan[k].position)
         else
           styles[k] == styles0[k] && items[k] == items0[k]
  }

  /** Updating one more element, not yet done, adds its ring index to the done part. */
  lemma PassOneMore(styles0: seq<StyleMap>, styles: seq<StyleMap>, styles': seq<StyleMap>,
                    items0: seq<EffectItem>, items: seq<EffectItem>, items': seq<EffectItem>,
                    plan: seq<ItemUpdate>, selected: nat, done: set<nat>, pos: nat)
    requires PassedOver(styles0, styles, items0, items, plan, selected, done)
    requires pos < |plan| && RingIndex(|plan|, selected, pos) !in done
    requires styles' == styles[pos := Apply(styles[pos], plan[pos].style)]
    requires items' == items[pos := Placed(items[pos], plan[pos].position)]
    ensures PassedOver(styles0, styles', items0, items', plan, selected, done + {RingIndex(|plan|, selected, pos)})
  {
    var n := |plan|;
    forall k | 0 <= k < n && k != pos
      ensures RingIndex(n, selected, k) != RingIndex(n, selected, pos)
    {
      RingIndexInjective(n, selected, k, pos);
    }
  }

  /** A pass that has done every ring index has done the whole plan. */
  lemma PassComplete(styles0: seq<StyleMap>, styles: seq<StyleMap>, items0: seq<EffectItem>, items: seq<EffectItem>,
                     plan: seq<ItemUpdate>, selected: nat, done: set<nat>)
    requires PassedOver(styles0, styles, items0, items, plan, selected, done)
    requires forall r :: 0 <= r < |plan| ==> r in done
    ensures styles == Restyled(styles0, plan) && items == Replaced(items0, plan)
  {
    PassResult(styles0, styles, items0, items, plan);
  }

  /** The position each element is left with by a pass that writes every position. */
  function PlannedPositions(plan: seq<ItemUpdate>): seq<int>
  {
    seq(|plan|, k requires 0 <= k < |plan| => if plan[k].position.Some? then plan[k].position.value else -1)
  }
}

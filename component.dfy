/**
 * The component state that drives the layout passes: the discovered
 * elements (whose `position` each pass rewrites), the selection, the
 * activation flag, and the inline styles the renderer holds for every
 * element and for the host element.
 */
module Component {
  import opened Ring
  import opened Sweep
  import opened Styles
  import opened Effects
  import opened Layout

  class StackEffectsComponent {
    const effect: StackEffect
    const host: HostSize
    const elements: array<EffectItem>
    var selectedIndex: nat
    var isActive: bool
    var styles: seq<StyleMap>
    var hostStyles: StyleMap

    ghost predicate Valid()
      reads this, elements
    {
      && 1 <= elements.Length
      && |styles| == elements.Length
      && selectedIndex < elements.Length
      && (forall k :: 0 <= k < elements.Length ==> elements[k].index == k)
    }

    /**
     * The state once the n `.nse-item` elements have been discovered: item i
     * has index i and position i, nothing is selected but item 0, and the
     * stack is idle.
     */
    constructor (effect: StackEffect, n: nat, host: HostSize)
      requires 1 <= n
      ensures Valid() && fresh(elements)
      ensures this.effect == effect && this.host == host && elements.Length == n
      ensures forall k :: 0 <= k < n ==> elements[k] == EffectItem(k, k)
      ensures selectedIndex == 0 && !isActive
      ensures forall k :: 0 <= k < n ==> styles[k] == map[]
      ensures hostStyles == map[]
    {
      this.effect := effect;
      this.host := host;
      elements := new EffectItem[n](k => EffectItem(k, k));
      selectedIndex := 0;
      isActive := false;
      styles := seq(n, k => map[]);
      hostStyles := map[];
    }

    /** The renderer carries out the writes d on element k. */
    method Restyle(k: nat, d: Descriptor)
      requires Valid() && k < elements.Length
      modifies this`styles
      ensures Valid()
      ensures styles == old(styles)[k := Apply(old(styles)[k], d)]
    {
      styles := styles[k := Apply(styles[k], d)];
    }

    /** `setActiveStyle(elements[k].element, rank, side, cell)`. */
    method SetActiveStyle(k: nat, rank: int, side: Side, cell: GridCell)
      requires Valid() && k < elements.Length
      modifies this`styles
      ensures Valid()
      ensures styles == old(styles)[k := Apply(old(styles)[k], ActiveStyle(effect, rank, side, elements.Length, cell))]
    {
      Restyle(k, ActiveStyle(effect, rank, side, elements.Length, cell));
    }

    /** `setDeactiveStyle(elements[k].element, index, side)`. */
    method SetDeactiveStyle(k: nat, index: int, side: Side)
      requires Valid() && k < elements.Length
      modifies this`styles
      ensures Valid()
      ensures styles == old(styles)[k := Apply(old(styles)[k], DeactiveStyle(effect, index, side, selectedIndex))]
    {
      Restyle(k, DeactiveStyle(effect, index, side, selectedIndex));
    }

    /** `elements[k].position = position`. */
    method Place(k: nat, position: int)
      requires Valid() && k < elements.Length
      modifies elements
      ensures Valid()
      ensures elements[..] == old(elements[..])[k := old(elements[k]).(position := position)]
    {
      elements[k] := elements[k].(position := position);
    }

    /**
     * The forEach callback of `active()` for the effects that place items by
     * ring index: the ring index, then the rank and side to style it with.
     */
    method ActiveAt(j: nat, ghost plan: seq<ItemUpdate>)
      requires Valid() && j < elements.Length
      requires PlacedByRing(effect) && Follows(plan, ActivePlan(effect, elements.Length, selectedIndex, host))
      modifies this`styles, elements
      ensures Valid()
      ensures styles == old(styles)[j := Apply(old(styles)[j], plan[j].style)]
      ensures elements[..] == old(elements[..])[j := Placed(old(elements[j]), plan[j].position)]
    {
      var n := elements.Length;
      var index: int := j - selectedIndex;
      if index < 0 {
        index := n + index;
      }
      var rank, side, cell := RingStyling(index);
      assert index == RingIndex(n, selectedIndex, j);
      SetActiveStyle(j, rank, side, cell);
      Place(j, index);
      assert PlanAt(plan, j) == ActivePlan(effect, n, selectedIndex, host)[j] == ActiveUpdate(effect, n, selectedIndex, host, j);
    }

    /**
     * The rank, side and cell the forEach callback of `active()` chooses for
     * ring index `index`: the callback's own switch, proved to agree with
     * RingPlacement and RingCell, which the layout lemmas are stated over.
     */
    method RingStyling(index: nat) returns (rank: int, side: Side, cell: GridCell)
      requires Valid() && index < elements.Length && PlacedByRing(effect)
      ensures Placement(rank, side) == RingPlacement(effect, elements.Length, index)
      ensures cell == RingCell(effect, host, elements.Length, index)
    {
      var n := elements.Length;
      rank, side, cell := 0, CenterSide, NoCell;
      match effect {
        case SimpleSpread =>
          var center := n / 2;
          if index < center {
            rank, side := center - index, LeftSide;
          } else if index > center {
            rank, side := index - center, RightSide;
          }
        case RandomRotation =>
          if index != 0 {
            rank, side := index, if index % 2 == 1 then LeftSide else RightSide;
          }
        case SideGrid =>
          var rows := (n + 1) / 2;
          cell := GridCellFor(host, n, index);
          rank, side := -1, if index < rows then TopSide else BottomSide;
        case PeekaBoo =>
          var center := (n + 1) / 2;
          if index != 0 {
            rank, side := Abs(center - index), if index < center then LeftSide else RightSide;
          }
        case Queue =>
          rank := index;
        case Fan | ElasticSpread | VerticalSpread | Leaflet | Coverflow =>
          rank := Abs(n - index - 1);
      }
    }

    /** The forEach loop of `active()` for the effects that place items by ring index. */
    method ActivePass(ghost plan: seq<ItemUpdate>)
      requires Valid() && PlacedByRing(effect) && Follows(plan, ActivePlan(effect, elements.Length, selectedIndex, host))
      modifies this`styles, elements
      ensures Valid()
      ensures styles == Restyled(old(styles), plan)
      ensures elements[..] == Replaced(old(elements[..]), plan)
    {
      var n := elements.Length;
      for j := 0 to n
        invariant Valid()
        invariant forall k :: 0 <= k < j ==>
          styles[k] == Apply(old(styles)[k], plan[k].style) && elements[k] == Placed(old(elements[k]), plan[k].position)
        invariant forall k :: j <= k < n ==> styles[k] == old(styles)[k] && elements[k] == old(elements[k])
      {
        ActiveAt(j, plan);
      }
      PassResult(old(styles), styles, old(elements[..]), elements[..], plan);
    }

    /**
     * `handleCentralizedEffect(activate)`: steps 1 .. floor(n/2) to the left
     * of the selection, steps 1 .. n - 1 - floor(n/2) to the right, each
     * position found with one wrap correction, then the selected item.
     * `visited` records the items in the order they are styled.
     */
    method HandleCentralizedEffect(activate: bool) returns (ghost visited: seq<nat>)
      requires Valid()
      modifies this`styles, elements
      ensures Valid()
      ensures styles == Restyled(old(styles), SweepPlan(effect, elements.Length, selectedIndex, activate))
      ensures elements[..] == Replaced(old(elements[..]), SweepPlan(effect, elements.Length, selectedIndex, activate))
      ensures visited == SweepOrder(elements.Length, selectedIndex)
    {
      var n, sel := elements.Length, selectedIndex;
      ghost var plan := SweepPlan(effect, n, sel, activate);
      FollowsItself(plan);
      ghost var styles0, items0 := styles, elements[..];
      ghost var left := SweepLeft(activate, plan, styles0, items0);
      ghost var right := SweepRight(activate, plan, styles0, items0);
      ghost var styles2, items2 := styles, elements[..];
      SweepSelected(activate, plan);
      ghost var done := RingSpan(n - n / 2, n) + RingSpan(1, n - n / 2);
      PassOneMore(styles0, styles2, styles, items0, items2, elements[..], plan, sel, done, sel);
      PassComplete(styles0, styles, items0, elements[..], plan, sel, done + {0});
      visited := left + right + [sel];
      SweepOrderSplit(n, sel);
    }

    /** The left loop of the sweep: steps 1 .. floor(n/2), at `selectedIndex - i` with one wrap. */
    method SweepLeft(activate: bool, ghost plan: seq<ItemUpdate>, ghost styles0: seq<StyleMap>, ghost items0: seq<EffectItem>)
      returns (ghost visited: seq<nat>)
      requires Valid() && Follows(plan, SweepPlan(effect, elements.Length, selectedIndex, activate))
      requires PassedOver(styles0, styles, items0, elements[..], plan, selectedIndex, {})
      modifies this`styles, elements
      ensures Valid()
      ensures PassedOver(styles0, styles, items0, elements[..], plan, selectedIndex, RingSpan(elements.Length - elements.Length / 2, elements.Length))
      ensures visited == LeftOrder(elements.Length, selectedIndex)
    {
      var n, sel := elements.Length, selectedIndex;
      var center := n / 2;
      visited := [];
      for i := 1 to center + 1
        invariant Valid()
        invariant visited == LeftOrder(n, sel)[..i - 1]
        invariant PassedOver(styles0, styles, items0, elements[..], plan, sel, RingSpan(n - i + 1, n))
      {
        var pos := SweepLeftStep(i, activate, plan, styles0, items0);
        visited := visited + [pos];
      }
    }

    /** Step i of the left loop: item `selectedIndex - i`, wrapped once, is styled and placed. */
    method SweepLeftStep(i: nat, activate: bool, ghost plan: seq<ItemUpdate>, ghost styles0: seq<StyleMap>, ghost items0: seq<EffectItem>)
      returns (pos: nat)
      requires Valid() && Follows(plan, SweepPlan(effect, elements.Length, selectedIndex, activate))
      requires 1 <= i <= elements.Length / 2
      requires PassedOver(styles0, styles, items0, elements[..], plan, selectedIndex, RingSpan(elements.Length - i + 1, elements.Length))
      modifies this`styles, elements
      ensures Valid()
      ensures pos == LeftNeighbour(elements.Length, selectedIndex, i)
      ensures PassedOver(styles0, styles, items0, elements[..], plan, selectedIndex, RingSpan(elements.Length - i, elements.Length))
    {
      var n := elements.Length;
      var index: int := selectedIndex - i;
      if index < 0 {
        index := n + index;
      }
      pos := index;
      assert pos == LeftNeighbour(n, selectedIndex, i);
      ghost var styles1, items1 := styles, elements[..];
      SweepStep(pos, i, LeftSide, activate, plan);
      PassOneMore(styles0, styles1, styles, items0, items1, elements[..], plan, selectedIndex, RingSpan(n - i + 1, n), pos);
      assert RingSpan(n - i + 1, n) + {n - i} == RingSpan(n - i, n);
    }

    /** The right loop of the sweep: steps 1 .. n - 1 - floor(n/2), at `selectedIndex + i` with one wrap. */
    method SweepRight(activate: bool, ghost plan: seq<ItemUpdate>, ghost styles0: seq<StyleMap>, ghost items0: seq<EffectItem>)
      returns (ghost visited: seq<nat>)
      requires Valid() && Follows(plan, SweepPlan(effect, elements.Length, selectedIndex, activate))
      requires PassedOver(styles0, styles, items0, elements[..], plan, selectedIndex, RingSpan(elements.Length - elements.Length / 2, elements.Length))
      modifies this`styles, elements
      ensures Valid()
      ensures PassedOver(styles0, styles, items0, elements[..], plan, selectedIndex,
        RingSpan(elements.Length - elements.Length / 2, elements.Length) + RingSpan(1, elements.Length - elements.Length / 2))
      ensures visited == RightOrder(elements.Length, selectedIndex)
    {
      var n, sel := elements.Length, selectedIndex;
      var center := n / 2;
      visited := [];
      for i := 1 to n - center
        invariant Valid()
        invariant visited == RightOrder(n, sel)[..i - 1]
        invariant PassedOver(styles0, styles, items0, elements[..], plan, sel, RingSpan(n - center, n) + RingSpan(1, i))
      {
        var pos := SweepRightStep(i, activate, plan, styles0, items0);
        visited := visited + [pos];
      }
    }

    /** Step i of the right loop: item `selectedIndex + i`, wrapped once, is styled and placed. */
    method SweepRightStep(i: nat, activate: bool, ghost plan: seq<ItemUpdate>, ghost styles0: seq<StyleMap>, ghost items0: seq<EffectItem>)
      returns (pos: nat)
      requires Valid() && Follows(plan, SweepPlan(effect, elements.Length, selectedIndex, activate))
      requires 1 <= i < elements.Length - elements.Length / 2
      requires PassedOver(styles0, styles, items0, elements[..], plan, selectedIndex,
        RingSpan(elements.Length - elements.Length / 2, elements.Length) + RingSpan(1, i))
      modifies this`styles, elements
      ensures Valid()
      ensures pos == RightNeighbour(elements.Length, selectedIndex, i)
      ensures PassedOver(styles0, styles, items0, elements[..], plan, selectedIndex,
        RingSpan(elements.Length - elements.Length / 2, elements.Length) + RingSpan(1, i + 1))
    {
      var n := elements.Length;
      var index := selectedIndex + i;
      if index >= n {
        index := index - n;
      }
      pos := index;
      assert pos == RightNeighbour(n, selectedIndex, i);
      ghost var styles1, items1 := styles, elements[..];
      SweepStep(pos, i, RightSide, activate, plan);
      ghost var done := RingSpan(n - n / 2, n) + RingSpan(1, i);
      PassOneMore(styles0, styles1, styles, items0, items1, elements[..], plan, selectedIndex, done, pos);
      assert done + {i} == RingSpan(n - n / 2, n) + RingSpan(1, i + 1);
    }

    /**
     * One step of the sweep: item pos, reached at step i of the left or the
     * right loop, gets position `center - i` or `center + i` and the style of
     * rank i on that side.
     */
    method SweepStep(pos: nat, i: nat, side: Side, activate: bool, ghost plan: seq<ItemUpdate>)
      requires Valid() && pos < elements.Length
      requires Follows(plan, SweepPlan(effect, elements.Length, selectedIndex, activate))
      requires side == LeftSide || side == RightSide
      requires side == LeftSide ==> 1 <= i <= elements.Length / 2 && RingIndex(elements.Length, selectedIndex, pos) == elements.Length - i
      requires side == RightSide ==> 1 <= i < elements.Length - elements.Length / 2 && RingIndex(elements.Length, selectedIndex, pos) == i
      modifies this`styles, elements
      ensures Valid()
      ensures styles == old(styles)[pos := Apply(old(styles)[pos], plan[pos].style)]
      ensures elements[..] == old(elements[..])[pos := Placed(old(elements[pos]), plan[pos].position)]
    {
      var center := elements.Length / 2;
      SweepStepEntry(plan, effect, elements.Length, selectedIndex, activate, pos, i, side);
      Place(pos, if side == LeftSide then center - i else center + i);
      if activate {
        SetActiveStyle(pos, i, side, NoCell);
      } else {
        SetDeactiveStyle(pos, i, side);
      }
    }

    /**
     * The last step of the sweep: the selected item gets position `center`,
     * the resting centre style and, when activating, the active centre style.
     */
    method SweepSelected(activate: bool, ghost plan: seq<ItemUpdate>)
      requires Valid() && Follows(plan, SweepPlan(effect, elements.Length, selectedIndex, activate))
      modifies this`styles, elements
      ensures Valid()
      ensures styles == old(styles)[selectedIndex := Apply(old(styles)[selectedIndex], plan[selectedIndex].style)]
      ensures elements[..] == old(elements[..])[selectedIndex := Placed(old(elements[selectedIndex]), plan[selectedIndex].position)]
    {
      SweepSelectedEntry(plan, effect, elements.Length, selectedIndex, activate);
      var n, selected := elements.Length, selectedIndex;
      ghost var before := styles[selected];
      Place(selected, n / 2);
      SetDeactiveStyle(selected, selected, CenterSide);
      ghost var rest := DeactiveStyle(effect, selected, CenterSide, selected);
      if activate {
        // the source passes `null` as the rank here
        SetActiveStyle(selected, 0, CenterSide, NoCell);
        ApplyThen(before, rest, ActiveStyle(effect, 0, CenterSide, n, NoCell));
      } else {
        assert rest + map[] == rest;
      }
    }

    /** `active()`: the expanded layout of the effect. */
    method Active()
      requires Valid()
      modifies this`styles, elements
      ensures Valid()
      ensures styles == Restyled(old(styles), ActivePlan(effect, elements.Length, selectedIndex, host))
      ensures elements[..] == Replaced(old(elements[..]), ActivePlan(effect, elements.Length, selectedIndex, host))
    {
      var n := elements.Length;
      match effect {
        case Fanout | SideSlide =>
          ghost var visited := HandleCentralizedEffect(true);
          ActiveSweepPlan(effect, n, selectedIndex, host);
        case PreviewGrid =>
          Untouched(ActivePlan(effect, n, selectedIndex, host));
        case SimpleSpread | RandomRotation | SideGrid | PeekaBoo | Queue | Fan | ElasticSpread | VerticalSpread | Leaflet | Coverflow =>
          FollowsItself(ActivePlan(effect, n, selectedIndex, host));
          ActivePass(ActivePlan(effect, n, selectedIndex, host));
      }
    }

    /** A pass that writes nothing leaves every element as it was. */
    lemma Untouched(plan: seq<ItemUpdate>)
      requires Valid() && |plan| == elements.Length
      requires forall k :: 0 <= k < |plan| ==> plan[k] == ItemUpdate(map[], None)
      ensures styles == Restyled(styles, plan) && elements[..] == Replaced(elements[..], plan)
    {
      forall k | 0 <= k < |plan|
        ensures Apply(styles[k], plan[k].style) == styles[k]
      {
        ApplyNothing(styles[k]);
      }
      PassResult(styles, styles, elements[..], elements[..], plan);
    }

    /** `deactive()`: the resting layout of the effect. */
    method Deactive()
      requires Valid()
      modifies this`styles, elements
      ensures Valid()
      ensures styles == Restyled(old(styles), DeactivePlan(effect, elements.Length, selectedIndex))
      ensures elements[..] == Replaced(old(elements[..]), DeactivePlan(effect, elements.Length, selectedIndex))
    {
      var n := elements.Length;
      match effect {
        case SideSlide =>
          ghost var visited := HandleCentralizedEffect(false);
          DeactiveSweepPlan(n, selectedIndex);
        case PreviewGrid =>
          Untouched(DeactivePlan(effect, n, selectedIndex));
        case Fanout | SimpleSpread | RandomRotation | SideGrid | PeekaBoo | Queue | Fan | ElasticSpread | VerticalSpread | Leaflet | Coverflow =>
          FollowsItself(DeactivePlan(effect, n, selectedIndex));
          DeactivePass(DeactivePlan(effect, n, selectedIndex));
      }
    }

    /** The forEach loop of `deactive()`: every item gets the resting style for its absolute index. */
    method DeactivePass(ghost plan: seq<ItemUpdate>)
      requires Valid() && effect != SideSlide && effect != PreviewGrid
      requires Follows(plan, DeactivePlan(effect, elements.Length, selectedIndex))
      modifies this`styles
      ensures Valid()
      ensures styles == Restyled(old(styles), plan)
      ensures elements[..] == Replaced(old(elements[..]), plan)
    {
      var n := elements.Length;
      for j := 0 to n
        invariant Valid()
        invariant forall k :: 0 <= k < j ==> styles[k] == Apply(old(styles)[k], plan[k].style)
        invariant forall k :: j <= k < n ==> styles[k] == old(styles)[k]
      {
        DeactiveAt(j, plan);
      }
      forall k | 0 <= k < n
        ensures plan[k].position.None?
      {
        assert PlanAt(plan, k) == DeactivePlan(effect, n, selectedIndex)[k];
      }
      PassResult(old(styles), styles, elements[..], elements[..], plan);
    }

    /** The forEach callback of `deactive()`. */
    method DeactiveAt(j: nat, ghost plan: seq<ItemUpdate>)
      requires Valid() && j < elements.Length && effect != SideSlide && effect != PreviewGrid
      requires Follows(plan, DeactivePlan(effect, elements.Length, selectedIndex))
      modifies this`styles
      ensures Valid()
      ensures styles == old(styles)[j := Apply(old(styles)[j], plan[j].style)]
    {
      SetDeactiveStyle(j, j, NoSide);
      assert PlanAt(plan, j) == DeactivePlan(effect, elements.Length, selectedIndex)[j];
    }

    /** `initialize()`: the starting z-order and, for the 3-D effects, the host perspective. */
    method Initialize()
      requires Valid()
      modifies this`styles, this`hostStyles, elements
      ensures Valid()
      ensures styles == Restyled(old(styles), InitialPlan(effect, elements.Length, selectedIndex))
      ensures elements[..] == Replaced(old(elements[..]), InitialPlan(effect, elements.Length, selectedIndex))
      ensures hostStyles == Apply(old(hostStyles), InitialHostStyle(effect))
    {
      InitializeHost();
      InitializeItems();
    }

    /** The host-element part of `initialize()`: a 1600px perspective for Leaflet and Coverflow. */
    method InitializeHost()
      modifies this`hostStyles
      ensures hostStyles == Apply(old(hostStyles), InitialHostStyle(effect))
    {
      if effect == Leaflet || effect == Coverflow {
        hostStyles := Apply(hostStyles, map[Perspective := Length(1600)]);
      } else {
        ApplyNothing(hostStyles);
      }
    }

    /** The element part of `initialize()`. */
    method InitializeItems()
      requires Valid()
      modifies this`styles, elements
      ensures Valid()
      ensures styles == Restyled(old(styles), InitialPlan(effect, elements.Length, selectedIndex))
      ensures elements[..] == Replaced(old(elements[..]), InitialPlan(effect, elements.Length, selectedIndex))
    {
      var n := elements.Length;
      match effect {
        case SideSlide =>
          ghost var visited := HandleCentralizedEffect(false);
          InitialSweepPlan(n, selectedIndex);
        case PreviewGrid =>
          // the source computes each ring index here and writes nothing
          Untouched(InitialPlan(effect, n, selectedIndex));
        case Fanout | SimpleSpread | RandomRotation | SideGrid | PeekaBoo | Queue | Fan | ElasticSpread | VerticalSpread | Leaflet | Coverflow =>
          FollowsItself(InitialPlan(effect, n, selectedIndex));
          InitializePass(InitialPlan(effect, n, selectedIndex));
      }
    }

    /** The forEach loop of `initialize()` for the effects that style items one by one. */
    method InitializePass(ghost plan: seq<ItemUpdate>)
      requires Valid() && effect != SideSlide && effect != PreviewGrid
      requires Follows(plan, InitialPlan(effect, elements.Length, selectedIndex))
      modifies this`styles
      ensures Valid()
      ensures styles == Restyled(old(styles), plan)
      ensures elements[..] == Replaced(old(elements[..]), plan)
    {
      var n := elements.Length;
      for j := 0 to n
        invariant Valid()
        invariant forall k :: 0 <= k < j ==> styles[k] == Apply(old(styles)[k], plan[k].style)
        invariant forall k :: j <= k < n ==> styles[k] == old(styles)[k]
      {
        InitializeAt(j, plan);
      }
      forall k | 0 <= k < n
        ensures plan[k].position.None?
      {
        assert PlanAt(plan, k) == InitialPlan(effect, n, selectedIndex)[k];
      }
      PassResult(old(styles), styles, elements[..], elements[..], plan);
    }

    /** The forEach callback of `initialize()` for the effects that style items one by one. */
    method InitializeAt(j: nat, ghost plan: seq<ItemUpdate>)
      requires Valid() && j < elements.Length
      requires effect != SideSlide && effect != PreviewGrid
      requires Follows(plan, InitialPlan(effect, elements.Length, selectedIndex))
      modifies this`styles
      ensures Valid()
      ensures styles == old(styles)[j := Apply(old(styles)[j], plan[j].style)]
    {
      assert PlanAt(plan, j) == InitialPlan(effect, elements.Length, selectedIndex)[j];
      var n := elements.Length;
      match effect {
        case Fanout | SideGrid =>
          Restyle(j, map[ZIndex := Number(if selectedIndex == j then 99 else 0)]);
        case SimpleSpread | RandomRotation | Queue | ElasticSpread | VerticalSpread =>
          Restyle(j, map[ZIndex := Number(99 - j)]);
        case PeekaBoo | Fan =>
          SetDeactiveStyle(j, j, NoSide);
        case Leaflet =>
          Restyle(j, PerspectiveItemStyle(n, j, [RotateX(0)]));
        case Coverflow =>
          Restyle(j, PerspectiveItemStyle(n, j, [RotateY(0), Scale(1.0)]));
      }
    }

    /**
     * `selectItem(index)`: the selection moves and the active layout runs,
     * whether or not the stack is active.
     */
    method SelectItem(index: nat)
      requires Valid() && index < elements.Length
      modifies this`selectedIndex, this`styles, elements
      ensures Valid()
      ensures selectedIndex == index && isActive == old(isActive)
      ensures styles == Restyled(old(styles), ActivePlan(effect, elements.Length, index, host))
      ensures elements[..] == Replaced(old(elements[..]), ActivePlan(effect, elements.Length, index, host))
    {
      selectedIndex := index;
      Active();
    }

    /** The subscriber of the activation stream, given one delivered status. */
    method OnActiveChange(status: bool)
      requires Valid()
      modifies this`isActive, this`styles, elements
      ensures Valid()
      ensures isActive == status
      ensures styles == Restyled(old(styles),
        if status then ActivePlan(effect, elements.Length, selectedIndex, host)
        else DeactivePlan(effect, elements.Length, selectedIndex))
      ensures elements[..] == Replaced(old(elements[..]),
        if status then ActivePlan(effect, elements.Length, selectedIndex, host)
        else DeactivePlan(effect, elements.Length, selectedIndex))
    {
      isActive := status;
      if status {
        Active();
      } else {
        Deactive();
      }
    }
  }
}

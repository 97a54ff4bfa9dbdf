/**
 * What the layout passes promise, effect by effect: where each item goes
 * and how it is stacked when the stack opens (`active()`) and when it
 * closes (`deactive()`), stated over the per-item updates of Layout.
 */
module LayoutProperties {
  import opened Ring
  import opened Sweep
  import opened Styles
  import opened Effects
  import opened Layout

  /** d writes op to property p. */
  predicate Sets(d: Descriptor, p: Prop, op: StyleOp)
  {
    p in d && d[p] == op
  }

  /** The z-index d writes, when it writes a number. */
  function ZOf(d: Descriptor): int
  {
    if ZIndex in d && d[ZIndex].SetStyle? && d[ZIndex].value.Num? then d[ZIndex].value.num else -1
  }

  // ---------------------------------------------------------------- Fanout

  /**
   * Fanout, opening: the item the left loop reaches at step r = n - rel is
   * moved 100r px left and 20r px down, turned -10r degrees, stacked at
   * 90 - r and given position floor(n/2) - r.
   */
  lemma FanoutLeftRank(n: nat, selected: nat, host: HostSize, k: nat)
    requires selected < n && k < n && SweptLeft(n, RingIndex(n, selected, k))
    ensures var r, u := n - RingIndex(n, selected, k), ActiveUpdate(Fanout, n, selected, host, k);
      && Sets(u.style, Left, Length(-100 * r))
      && Sets(u.style, Top, Length(20 * r))
      && Sets(u.style, ZIndex, Number(90 - r))
      && Sets(u.style, Transform, Transformed([Rotate(-10 * r)]))
      && u.position == Some(FloorCenter(n) - r)
  {
    var rel := RingIndex(n, selected, k);
    assert SweepRank(n, rel) == n - rel;
    assert ActiveUpdate(Fanout, n, selected, host, k).style == ActiveStyle(Fanout, n - rel, LeftSide, n, NoCell);
  }

  /** Fanout, opening: the right side mirrors the left, with rank r = rel and position floor(n/2) + r. */
  lemma FanoutRightRank(n: nat, selected: nat, host: HostSize, k: nat)
    requires selected < n && k < n && SweptRight(n, RingIndex(n, selected, k))
    ensures var r, u := RingIndex(n, selected, k), ActiveUpdate(Fanout, n, selected, host, k);
      && Sets(u.style, Left, Length(100 * r))
      && Sets(u.style, Top, Length(20 * r))
      && Sets(u.style, ZIndex, Number(90 - r))
      && Sets(u.style, Transform, Transformed([Rotate(10 * r)]))
      && u.position == Some(FloorCenter(n) + r)
  {
    var rel := RingIndex(n, selected, k);
    assert SweepRank(n, rel) == rel;
    assert ActiveUpdate(Fanout, n, selected, host, k).style == ActiveStyle(Fanout, rel, RightSide, n, NoCell);
  }

  /**
   * Fanout, opening: the selected item keeps the resting centre (left and
   * top 0, z-index 99, opacity 1), is turned by 0 degrees and is placed at
   * floor(n/2).
   */
  lemma FanoutSelected(n: nat, selected: nat, host: HostSize)
    requires selected < n
    ensures var u := ActiveUpdate(Fanout, n, selected, host, selected);
      && Sets(u.style, Left, Length(0))
      && Sets(u.style, Top, Length(0))
      && Sets(u.style, ZIndex, Number(99))
      && Sets(u.style, Opacity, Number(1))
      && Sets(u.style, Transform, Transformed([Rotate(0)]))
      && u.position == Some(FloorCenter(n))
  {
    var rest, active := DeactiveStyle(Fanout, selected, CenterSide, selected), ActiveStyle(Fanout, 0, CenterSide, n, NoCell);
    assert ActiveUpdate(Fanout, n, selected, host, selected).style == rest + active;
    assert active == map[BoxShadow := Text(ActiveShadow), Opacity := Number(1), Transform := Transformed([Rotate(0)])];
  }

  /**
   * Fanout never scales an item while open: the transform it writes is a
   * single rotation, because the `scale(0.9)` prefix is lost to operator
   * precedence.
   */
  lemma FanoutNeverScales(n: nat, selected: nat, host: HostSize, k: nat)
    requires selected < n && k < n
    ensures var u := ActiveUpdate(Fanout, n, selected, host, k);
      Transform in u.style && u.style[Transform].SetStyle? && u.style[Transform].value.Transforms?
      && |u.style[Transform].value.fns| == 1
      && !u.style[Transform].value.fns[0].Scale?
  {
    var rel := RingIndex(n, selected, k);
    if rel == 0 {
      FanoutSelected(n, selected, host);
    } else if SweptRight(n, rel) {
      FanoutRightRank(n, selected, host, k);
    } else {
      FanoutLeftRank(n, selected, host, k);
    }
  }

  // ---------------------------------------------------------------- SideSlide

  /**
   * SideSlide, opening: rank r on either side is shrunk to 1 - 0.15r,
   * moved 50r px outwards and stacked at 90 - r, all fully opaque; the
   * selected item is shrunk to 0.9 at z-index 99.
   */
  lemma SideSlideActiveLayout(n: nat, selected: nat, host: HostSize, k: nat)
    requires selected < n && k < n
    ensures var rel, u := RingIndex(n, selected, k), ActiveUpdate(SideSlide, n, selected, host, k);
      var r := SweepRank(n, rel);
      rel != 0 ==>
        && Sets(u.style, Transform, Transformed([Scale(1.0 - 0.15 * r as real)]))
        && Sets(u.style, Left, Length(if SweptRight(n, rel) then 50 * r else -50 * r))
        && Sets(u.style, ZIndex, Number(90 - r))
        && Sets(u.style, Opacity, Number(1))
    ensures var u := ActiveUpdate(SideSlide, n, selected, host, k);
      k == selected ==>
        && Sets(u.style, Transform, Transformed([Scale(0.9)]))
        && Sets(u.style, ZIndex, Number(99))
        && Sets(u.style, Left, Length(0))
        && Sets(u.style, Opacity, Number(1))
  {
  }

  /**
   * SideSlide, closing: rank r is shrunk to 1 - 0.35r, moved 100r px
   * outwards and hidden; the selected item returns to full size, opaque,
   * on top, at left 0; positions are those of the opening sweep.
   */
  lemma SideSlideDeactiveLayout(n: nat, selected: nat, host: HostSize, k: nat)
    requires selected < n && k < n
    ensures var rel, u := RingIndex(n, selected, k), DeactiveUpdate(SideSlide, n, selected, k);
      var r := SweepRank(n, rel);
      rel != 0 ==>
        && Sets(u.style, Transform, Transformed([Scale(1.0 - r as real * 0.35)]))
        && Sets(u.style, Left, Length(if SweptRight(n, rel) then 100 * r else -100 * r))
        && Sets(u.style, Opacity, Number(0))
    ensures var u := DeactiveUpdate(SideSlide, n, selected, k);
      k == selected ==>
        && Sets(u.style, Transform, Transformed([Scale(1.0)]))
        && Sets(u.style, ZIndex, Number(99))
        && Sets(u.style, Opacity, Number(1))
        && Sets(u.style, Left, Length(0))
    ensures DeactiveUpdate(SideSlide, n, selected, k).position == ActiveUpdate(SideSlide, n, selected, host, k).position
    ensures Sets(DeactiveUpdate(SideSlide, n, selected, k).style, BoxShadow, RemoveStyle)
  {
  }

  // ---------------------------------------------------------------- ring-placed effects

  /** Every effect that places items by ring index writes the ring index as the position. */
  lemma RingPositions(effect: StackEffect, n: nat, selected: nat, host: HostSize, k: nat)
    requires selected < n && k < n && PlacedByRing(effect)
    ensures ActiveUpdate(effect, n, selected, host, k).position == Some(RingIndex(n, selected, k))
    ensures Sets(ActiveUpdate(effect, n, selected, host, k).style, BoxShadow, Text(ActiveShadow))
    ensures Sets(ActiveUpdate(effect, n, selected, host, k).style, Opacity, Number(1))
  {
    RingActiveUpdate(effect, n, selected, host, k);
  }

  /**
   * Queue, opening: the item at ring index rel is lifted 20·rel px,
   * shrunk to 0.9 - 0.08·rel and stacked at 99 - rel, so the selected item
   * is in front at full height.
   */
  lemma QueueActiveLayout(n: nat, selected: nat, host: HostSize, k: nat)
    requires selected < n && k < n
    ensures var rel, u := RingIndex(n, selected, k), RingUpdate(Queue, n, selected, host, k);
      && Sets(u.style, Top, Length(-20 * rel))
      && Sets(u.style, ZIndex, Number(99 - rel))
      && Sets(u.style, Transform, Transformed([Scale(0.9 - 0.08 * rel as real)]))
      && u.position == Some(rel)
  {
    var rel := RingIndex(n, selected, k);
    assert RingPlacement(Queue, n, rel) == Placement(rel, CenterSide);
  }

  /** Four queued items with item 1 selected: tops -60, 0, -20, -40 px and z-indices 96, 99, 98, 97. */
  lemma QueueScenario(host: HostSize)
    ensures var plan := ActivePlan(Queue, 4, 1, host);
      && Sets(plan[0].style, Top, Length(-60)) && Sets(plan[0].style, ZIndex, Number(96))
      && Sets(plan[1].style, Top, Length(0)) && Sets(plan[1].style, ZIndex, Number(99))
      && Sets(plan[2].style, Top, Length(-20)) && Sets(plan[2].style, ZIndex, Number(98))
      && Sets(plan[3].style, Top, Length(-40)) && Sets(plan[3].style, ZIndex, Number(97))
  {
    forall k | 0 <= k < 4
      ensures ActivePlan(Queue, 4, 1, host)[k] == RingUpdate(Queue, 4, 1, host, k)
    {
      RingActiveUpdate(Queue, 4, 1, host, k);
    }
    assert RingIndex(4, 1, 0) == 3 && RingIndex(4, 1, 1) == 0;
    assert RingIndex(4, 1, 2) == 1 && RingIndex(4, 1, 3) == 2;
    QueueActiveLayout(4, 1, host, 0);
    QueueActiveLayout(4, 1, host, 1);
    QueueActiveLayout(4, 1, host, 2);
    QueueActiveLayout(4, 1, host, 3);
  }

  /** The five effects whose rank is `n - rel - 1`. */
  predicate RankRule(effect: StackEffect)
  {
    effect in {Fan, ElasticSpread, VerticalSpread, Leaflet, Coverflow}
  }

  /** Under the rank rule the item at ring index rel is styled with rank n - 1 - rel at the centre. */
  lemma RankRuleUpdate(effect: StackEffect, n: nat, selected: nat, host: HostSize, k: nat)
    requires selected < n && k < n && RankRule(effect)
    ensures var rel := RingIndex(n, selected, k);
      RingUpdate(effect, n, selected, host, k) == ItemUpdate(ActiveStyle(effect, n - 1 - rel, CenterSide, n, NoCell), Some(rel))
  {
    var rel := RingIndex(n, selected, k);
    assert RingPlacement(effect, n, rel) == Placement(n - 1 - rel, CenterSide);
  }

  /**
   * Fan, opening: rank n - 1 - rel is the z-index, every item turns
   * 5 degrees per rank about its top-left corner, and the delay digits
   * are rel, so the selected item gets a delay of 0 s and turns first.
   */
  lemma FanActiveLayout(n: nat, selected: nat, host: HostSize, k: nat)
    requires selected < n && k < n
    ensures var rel, u := RingIndex(n, selected, k), RingUpdate(Fan, n, selected, host, k);
      && Sets(u.style, ZIndex, Number(n - 1 - rel))
      && Sets(u.style, Transform, Transformed([Rotate(5 * (n - 1 - rel))]))
      && Sets(u.style, TransformOrigin, Text("top left"))
      && Sets(u.style, TransitionDelay, SetStyle(DotSeconds(rel)))
      && u.position == Some(rel)
  {
    RankRuleUpdate(Fan, n, selected, host, k);
  }

  /** ElasticSpread, opening: rank n - 1 - rel is the z-index and each rank drops the item 35 px. */
  lemma ElasticSpreadActiveLayout(n: nat, selected: nat, host: HostSize, k: nat)
    requires selected < n && k < n
    ensures var rel, u := RingIndex(n, selected, k), RingUpdate(ElasticSpread, n, selected, host, k);
      && Sets(u.style, ZIndex, Number(n - 1 - rel))
      && Sets(u.style, Top, Length(35 * (n - 1 - rel)))
      && u.position == Some(rel)
  {
    RankRuleUpdate(ElasticSpread, n, selected, host, k);
  }

  /** VerticalSpread, opening: rank n - 1 - rel is the z-index, 30 px per rank down, delay digits rel. */
  lemma VerticalSpreadActiveLayout(n: nat, selected: nat, host: HostSize, k: nat)
    requires selected < n && k < n
    ensures var rel, u := RingIndex(n, selected, k), RingUpdate(VerticalSpread, n, selected, host, k);
      && Sets(u.style, ZIndex, Number(n - 1 - rel))
      && Sets(u.style, Top, Length(30 * (n - 1 - rel)))
      && Sets(u.style, TransitionDelay, SetStyle(DotSeconds(rel)))
      && u.position == Some(rel)
  {
    RankRuleUpdate(VerticalSpread, n, selected, host, k);
  }

  /**
   * Leaflet, opening: rank n - 1 - rel is the z-index; the item of rank 0,
   * the one just before the selection, stays flat, and every other rank
   * tilts back 15 + 10·rank degrees; delay digits rel.
   */
  lemma LeafletActiveLayout(n: nat, selected: nat, host: HostSize, k: nat)
    requires selected < n && k < n
    ensures var rel, u := RingIndex(n, selected, k), RingUpdate(Leaflet, n, selected, host, k);
      && Sets(u.style, ZIndex, Number(n - 1 - rel))
      && Sets(u.style, Transform, Transformed([RotateX(if rel == n - 1 then 0 else 15 + 10 * (n - 1 - rel))]))
      && Sets(u.style, TransitionDelay, SetStyle(DotSeconds(rel)))
      && u.position == Some(rel)
  {
    RankRuleUpdate(Leaflet, n, selected, host, k);
  }

  /**
   * Coverflow, opening: rank n - 1 - rel is the z-index, every item is
   * turned -45 degrees about the vertical axis at 0.9 scale, and shifted
   * (ceil(n/2) - rank)·50 px.
   */
  lemma CoverflowActiveLayout(n: nat, selected: nat, host: HostSize, k: nat)
    requires selected < n && k < n
    ensures var rel, u := RingIndex(n, selected, k), RingUpdate(Coverflow, n, selected, host, k);
      && Sets(u.style, ZIndex, Number(n - 1 - rel))
      && Sets(u.style, Transform, Transformed([RotateY(-45), Scale(0.9)]))
      && Sets(u.style, Left, Length((CeilCenter(n) - (n - 1 - rel)) * 50))
      && u.position == Some(rel)
  {
    RankRuleUpdate(Coverflow, n, selected, host, k);
  }

  /**
   * The rank rule shared by the five effects: the item at ring index rel
   * is stacked at n - 1 - rel, so the selected item is on top with n - 1.
   */
  lemma RankRuleZ(effect: StackEffect, n: nat, selected: nat, host: HostSize, k: nat)
    requires selected < n && k < n && RankRule(effect)
    ensures ZOf(RingUpdate(effect, n, selected, host, k).style) == n - 1 - RingIndex(n, selected, k)
    ensures k == selected ==> ZOf(RingUpdate(effect, n, selected, host, k).style) == n - 1
  {
    match effect {
      case Fan => FanActiveLayout(n, selected, host, k);
      case ElasticSpread => ElasticSpreadActiveLayout(n, selected, host, k);
      case VerticalSpread => VerticalSpreadActiveLayout(n, selected, host, k);
      case Leaflet => LeafletActiveLayout(n, selected, host, k);
      case Coverflow => CoverflowActiveLayout(n, selected, host, k);
    }
  }

  /**
   * Under the rank rule the opening z-indices are 0 .. n - 1, each once,
   * and the selected item holds the top one.
   */
  lemma {:induction false} RankRuleZOrder(effect: StackEffect, n: nat, selected: nat, host: HostSize)
    requires selected < n && RankRule(effect)
    ensures var z := seq(n, k requires 0 <= k < n => ZOf(RingUpdate(effect, n, selected, host, k).style));
      IsPermutationOfRange(z) && z[selected] == n - 1
  {
    var z := seq(n, k requires 0 <= k < n => ZOf(RingUpdate(effect, n, selected, host, k).style));
    var rings := RingIndices(n, selected);
    RingIndicesPermutation(n, selected);
    forall k | 0 <= k < n
      ensures z[k] == n - 1 - rings[k]
    {
      RankRuleZ(effect, n, selected, host, k);
    }
    forall k, l | 0 <= k < l < n
      ensures z[k] != z[l]
    {
      assert rings[k] != rings[l];
    }
    forall r | 0 <= r < n
      ensures r in z
    {
      assert n - 1 - r in rings;
      var k :| 0 <= k < n && rings[k] == n - 1 - r;
      assert z[k] == r;
    }
    RankRuleZ(effect, n, selected, host, selected);
  }

  /**
   * SimpleSpread, opening, with c = floor(n/2): ring indices below c go
   * left by rank c - rel (25 px per rank, down, stacked above 50), those
   * above c go right by rank rel - c (up, stacked below 50), and the item
   * at ring index c gets the centre slot (0, 0) at z-index 50.
   */
  lemma SimpleSpreadActiveLayout(n: nat, selected: nat, host: HostSize, k: nat)
    requires selected < n && k < n
    ensures var rel, u, c := RingIndex(n, selected, k), RingUpdate(SimpleSpread, n, selected, host, k), FloorCenter(n);
      && (rel < c ==>
            Sets(u.style, Left, Length(-25 * (c - rel))) && Sets(u.style, Top, Length(25 * (c - rel)))
            && Sets(u.style, ZIndex, Number(50 + (c - rel))))
      && (rel > c ==>
            Sets(u.style, Left, Length(25 * (rel - c))) && Sets(u.style, Top, Length(-25 * (rel - c)))
            && Sets(u.style, ZIndex, Number(50 - (rel - c))))
      && (rel == c ==>
            Sets(u.style, Left, Length(0)) && Sets(u.style, Top, Length(0)) && Sets(u.style, ZIndex, Number(50)))
  {
    var rel, c := RingIndex(n, selected, k), FloorCenter(n);
    if rel < c {
      assert RingPlacement(SimpleSpread, n, rel) == Placement(c - rel, LeftSide);
    } else if rel > c {
      assert RingPlacement(SimpleSpread, n, rel) == Placement(rel - c, RightSide);
    } else {
      assert RingPlacement(SimpleSpread, n, rel) == Placement(0, CenterSide);
    }
  }

  /**
   * RandomRotation, opening: the selected item sits at (30, 30) px,
   * unrotated, on top; every other item is stacked at 99 - rel and turned
   * 5·rel degrees, clockwise for odd ring indices and anticlockwise for even.
   */
  lemma RandomRotationActiveLayout(n: nat, selected: nat, host: HostSize, k: nat)
    requires selected < n && k < n
    ensures var rel, u := RingIndex(n, selected, k), RingUpdate(RandomRotation, n, selected, host, k);
      && (rel == 0 ==>
            Sets(u.style, Left, Length(30)) && Sets(u.style, Top, Length(30))
            && Sets(u.style, ZIndex, Number(99)) && Sets(u.style, Transform, Transformed([Rotate(0)])))
      && (rel != 0 ==>
            Sets(u.style, ZIndex, Number(99 - rel)) && Sets(u.style, Left, Length(0)) && Sets(u.style, Top, Length(0))
            && Sets(u.style, Transform, Transformed([Rotate(if rel % 2 == 1 then 5 * rel else -5 * rel)])))
  {
    var rel := RingIndex(n, selected, k);
    if rel == 0 {
      assert RingPlacement(RandomRotation, n, rel) == Placement(0, CenterSide);
    } else if rel % 2 == 1 {
      assert RingPlacement(RandomRotation, n, rel) == Placement(rel, LeftSide);
    } else {
      assert RingPlacement(RandomRotation, n, rel) == Placement(rel, RightSide);
    }
  }

  /**
   * PeekaBoo, opening, with c = ceil(n/2): the selected item is shrunk to
   * 0.9 about its bottom centre at (0, 0), on top; the others are halved, turned
   * 30 degrees and moved 80 px per rank |c - rel| to the left (below c,
   * stacked above 90) or to the right (from c on, stacked at or below 90,
   * exactly 90 at rel = c), 50 px up.
   */
  lemma PeekaBooActiveLayout(n: nat, selected: nat, host: HostSize, k: nat)
    requires selected < n && k < n
    ensures var rel, u, c := RingIndex(n, selected, k), RingUpdate(PeekaBoo, n, selected, host, k), CeilCenter(n);
      && (rel == 0 ==>
            Sets(u.style, Transform, Transformed([Scale(0.9)])) && Sets(u.style, ZIndex, Number(99))
            && Sets(u.style, TransformOrigin, Text("bottom center")) && Sets(u.style, Left, Length(0))
            && Sets(u.style, Top, Length(0)))
      && (0 < rel < c ==>
            Sets(u.style, Transform, Transformed([Scale(0.5), Rotate(-30 * (c - rel))]))
            && Sets(u.style, Left, Length(-80 * (c - rel))) && Sets(u.style, ZIndex, Number(90 + (c - rel)))
            && Sets(u.style, Top, Length(-50)) && Sets(u.style, TransformOrigin, RemoveStyle))
      && (rel >= c && rel != 0 ==>
            Sets(u.style, Transform, Transformed([Scale(0.5), Rotate(30 * (rel - c))]))
            && Sets(u.style, Left, Length(80 * (rel - c))) && Sets(u.style, ZIndex, Number(90 - (rel - c)))
            && Sets(u.style, Top, Length(-50)) && Sets(u.style, TransformOrigin, RemoveStyle))
  {
    var rel, c := RingIndex(n, selected, k), CeilCenter(n);
    if rel == 0 {
      PeekaBooSelected(n, selected, host, k);
    } else if rel < c {
      PeekaBooLeft(n, selected, host, k);
    } else {
      PeekaBooRight(n, selected, host, k);
    }
  }

  lemma PeekaBooSelected(n: nat, selected: nat, host: HostSize, k: nat)
    requires selected < n && k < n && RingIndex(n, selected, k) == 0
    ensures var u := RingUpdate(PeekaBoo, n, selected, host, k);
      Sets(u.style, Transform, Transformed([Scale(0.9)])) && Sets(u.style, ZIndex, Number(99))
      && Sets(u.style, TransformOrigin, Text("bottom center")) && Sets(u.style, Left, Length(0))
      && Sets(u.style, Top, Length(0))
  {
    RingActiveAt(PeekaBoo, n, selected, host, k, 0, CenterSide);
    PeekaBooStyle(0, CenterSide, n);
  }

  lemma PeekaBooLeft(n: nat, selected: nat, host: HostSize, k: nat)
    requires selected < n && k < n && 0 < RingIndex(n, selected, k) < CeilCenter(n)
    ensures var rel, u, c := RingIndex(n, selected, k), RingUpdate(PeekaBoo, n, selected, host, k), CeilCenter(n);
      Sets(u.style, Transform, Transformed([Scale(0.5), Rotate(-30 * (c - rel))]))
      && Sets(u.style, Left, Length(-80 * (c - rel))) && Sets(u.style, ZIndex, Number(90 + (c - rel)))
      && Sets(u.style, Top, Length(-50)) && Sets(u.style, TransformOrigin, RemoveStyle)
  {
    var rel, c := RingIndex(n, selected, k), CeilCenter(n);
    RingActiveAt(PeekaBoo, n, selected, host, k, c - rel, LeftSide);
    PeekaBooStyle(c - rel, LeftSide, n);
  }

  lemma PeekaBooRight(n: nat, selected: nat, host: HostSize, k: nat)
    requires selected < n && k < n && RingIndex(n, selected, k) != 0 && RingIndex(n, selected, k) >= CeilCenter(n)
    ensures var rel, u, c := RingIndex(n, selected, k), RingUpdate(PeekaBoo, n, selected, host, k), CeilCenter(n);
      Sets(u.style, Transform, Transformed([Scale(0.5), Rotate(30 * (rel - c))]))
      && Sets(u.style, Left, Length(80 * (rel - c))) && Sets(u.style, ZIndex, Number(90 - (rel - c)))
      && Sets(u.style, Top, Length(-50)) && Sets(u.style, TransformOrigin, RemoveStyle)
  {
    var rel, c := RingIndex(n, selected, k), CeilCenter(n);
    RingActiveAt(PeekaBoo, n, selected, host, k, rel - c, RightSide);
    PeekaBooStyle(rel - c, RightSide, n);
  }

  /** PeekaBoo's active style for a rank and a side. */
  lemma PeekaBooStyle(rank: int, side: Side, n: nat)
    requires side in {LeftSide, RightSide, CenterSide}
    ensures var d := ActiveStyle(PeekaBoo, rank, side, n, NoCell);
      && (side == CenterSide ==>
            Sets(d, Transform, Transformed([Scale(0.9)])) && Sets(d, ZIndex, Number(99))
            && Sets(d, TransformOrigin, Text("bottom center")) && Sets(d, Left, Length(0))
            && Sets(d, Top, Length(0)))
      && (side != CenterSide ==>
            Sets(d, Transform, Transformed([Scale(0.5), Rotate(if side == LeftSide then -30 * rank else 30 * rank)]))
            && Sets(d, Left, Length(if side == LeftSide then -80 * rank else 80 * rank))
            && Sets(d, ZIndex, Number(if side == LeftSide then 90 + rank else 90 - rank))
            && Sets(d, Top, Length(-50)) && Sets(d, TransformOrigin, RemoveStyle))
  {
  }

  /**
   * SideGrid, opening: ring indices below ceil(n/2) fill the top row and
   * the rest the bottom row, one cell height plus 4 px lower; every cell
   * is half the host, less the margin, in each direction.
   */
  lemma SideGridActiveLayout(n: nat, selected: nat, host: HostSize, k: nat)
    requires selected < n && k < n
    ensures var rel, u := RingIndex(n, selected, k), RingUpdate(SideGrid, n, selected, host, k);
      var cell := GridCellFor(host, n, rel);
      && (rel < CeilCenter(n) ==> Sets(u.style, Top, Length(0)))
      && (rel >= CeilCenter(n) ==> Sets(u.style, Top, SetStyle(Px(cell.height + 4.0))))
      && Sets(u.style, Width, SetStyle(Px((host.width as real - 8.0) / 2.0)))
      && Sets(u.style, Height, SetStyle(Px((host.height as real - 8.0) / 2.0)))
      && Sets(u.style, Left, SetStyle(Px(cell.left)))
  {
    var rel := RingIndex(n, selected, k);
    assert RingPlacement(SideGrid, n, rel).side == if rel < CeilCenter(n) then TopSide else BottomSide;
  }

  /**
   * SideGrid's columns: the two rows share their columns, neighbours in a
   * row are one cell plus the margin apart, and the row of ceil(n/2) cells
   * with its gaps is centred in the host and then shifted left by the margin.
   */
  lemma SideGridColumns(host: HostSize, n: nat, rel: nat)
    ensures var c := CeilCenter(n);
      rel < c ==> GridCellFor(host, n, rel).left == GridCellFor(host, n, rel + c).left
    ensures var cell, next := GridCellFor(host, n, rel), GridCellFor(host, n, rel + 1);
      rel + 1 < CeilCenter(n) ==> next.left - cell.left == cell.width + GridMargin as real
    ensures var c, first := CeilCenter(n) as real, GridCellFor(host, n, 0);
      2.0 * (first.left + GridMargin as real) + c * first.width + (c - 1.0) * GridMargin as real == host.width as real
  {
  }

  /**
   * Opening places every item exactly once: the positions written form a
   * permutation of 0 .. n - 1, with the selected item at 0 for the effects
   * placed by ring index and at floor(n/2) for the sweeping ones.
   */
  lemma {:induction false} ActivePositionsPermutation(effect: StackEffect, n: nat, selected: nat, host: HostSize)
    requires selected < n && effect != PreviewGrid
    ensures IsPermutationOfRange(PlannedPositions(ActivePlan(effect, n, selected, host)))
    ensures PlannedPositions(ActivePlan(effect, n, selected, host))[selected]
      == if PlacedByRing(effect) then 0 else FloorCenter(n)
  {
    var positions := PlannedPositions(ActivePlan(effect, n, selected, host));
    if PlacedByRing(effect) {
      RingIndicesPermutation(n, selected);
      forall k | 0 <= k < n
        ensures positions[k] == RingIndices(n, selected)[k]
      {
        RingPositions(effect, n, selected, host, k);
      }
      assert positions == RingIndices(n, selected);
    } else {
      SweepPositionsPermutation(n, selected);
      assert positions == seq(n, k requires 0 <= k < n => SweepPosition(n, RingIndex(n, selected, k)));
    }
  }

  // ---------------------------------------------------------------- closing

  /** The effects whose resting z-index is 99 for the selected item and 99 - index otherwise. */
  predicate RestsBelowSelection(effect: StackEffect)
  {
    effect in {Queue, Fan, ElasticSpread, VerticalSpread, Leaflet, Coverflow, PeekaBoo}
  }

  /**
   * Closing removes the shadow for every effect but PreviewGrid, which
   * writes nothing. For PeekaBoo, Queue, Fan, ElasticSpread, VerticalSpread,
   * Leaflet and Coverflow the selected item rests at z-index 99 and every
   * other item at 99 minus its absolute index; for Fanout and SideGrid the
   * selected item rests at 99 and every other at 0, and Fanout also hides
   * the others. Only SideSlide moves items. SimpleSpread and RandomRotation
   * write no z-index (see RestingOrigin).
   */
  lemma DeactiveZOrder(effect: StackEffect, n: nat, selected: nat, k: nat)
    requires selected < n && k < n
    ensures effect != PreviewGrid ==> Sets(DeactiveUpdate(effect, n, selected, k).style, BoxShadow, RemoveStyle)
    ensures RestsBelowSelection(effect) ==>
      Sets(DeactiveUpdate(effect, n, selected, k).style, ZIndex, Number(if k == selected then 99 else 99 - k))
    ensures effect in {Fanout, SideGrid} ==>
      Sets(DeactiveUpdate(effect, n, selected, k).style, ZIndex, Number(if k == selected then 99 else 0))
    ensures effect == Fanout ==>
      Sets(DeactiveUpdate(effect, n, selected, k).style, Opacity, Number(if k == selected then 1 else 0))
    ensures effect != SideSlide ==> DeactiveUpdate(effect, n, selected, k).position.None?
  {
    var u := DeactiveUpdate(effect, n, selected, k);
    if effect == SideSlide {
      var rel := RingIndex(n, selected, k);
      if rel == 0 {
        assert u.style == DeactiveStyle(SideSlide, selected, CenterSide, selected) + map[];
      } else {
        assert u.style == DeactiveStyle(SideSlide, SweepRank(n, rel), if SweptRight(n, rel) then RightSide else LeftSide, selected);
      }
    } else if effect != PreviewGrid {
      assert u.style == DeactiveStyle(effect, k, NoSide, selected);
    }
  }

  /** Closing an item of an effect that restyles item by item: the shadow goes, then the effect's resting writes. */
  lemma ClosingStyle(effect: StackEffect, n: nat, selected: nat, k: nat)
    requires selected < n && k < n && effect != SideSlide && effect != PreviewGrid
    ensures DeactiveUpdate(effect, n, selected, k) == ItemUpdate(map[BoxShadow := RemoveStyle] + RestingGeometry(effect, k, NoSide, selected), None)
  {
  }

  /**
   * Closing Fanout, SimpleSpread, RandomRotation and SideGrid brings every
   * item back to the top-left corner, unscaled or at full host size.
   * SimpleSpread and RandomRotation write no z-index, so the opening
   * stacking order stays.
   */
  lemma RestingOrigin(effect: StackEffect, n: nat, selected: nat, k: nat)
    requires selected < n && k < n
    ensures var d := DeactiveUpdate(effect, n, selected, k).style;
      effect in {Fanout, SimpleSpread, RandomRotation} ==>
        Sets(d, Top, Length(0)) && Sets(d, Left, Length(0)) && Sets(d, Transform, Transformed([Scale(1.0)]))
    ensures effect in {SimpleSpread, RandomRotation} ==> ZIndex !in DeactiveUpdate(effect, n, selected, k).style
    ensures var d := DeactiveUpdate(effect, n, selected, k).style;
      effect == SideGrid ==>
        && Sets(d, Width, Text("100%")) && Sets(d, Height, Text("100%"))
        && Sets(d, Left, Length(0)) && Sets(d, Top, Length(0))
  {
    if effect in {Fanout, SimpleSpread, RandomRotation, SideGrid} {
      ClosingStyle(effect, n, selected, k);
    }
  }

  /**
   * Closing PeekaBoo: the selected item returns to full size about its
   * bottom centre; every other item shrinks to a tenth at the top, and its
   * transform origin is removed.
   */
  lemma RestingPeekaBoo(n: nat, selected: nat, k: nat)
    requires selected < n && k < n
    ensures var d := DeactiveUpdate(PeekaBoo, n, selected, k).style;
      k == selected ==>
        Sets(d, Transform, Transformed([Scale(1.0)])) && Sets(d, TransformOrigin, Text("bottom center"))
    ensures var d := DeactiveUpdate(PeekaBoo, n, selected, k).style;
      k != selected ==>
        && Sets(d, Transform, Transformed([Scale(0.1)])) && Sets(d, Top, Length(0))
        && Sets(d, TransformOrigin, RemoveStyle)
  {
    ClosingStyle(PeekaBoo, n, selected, k);
  }

  /**
   * Closing Queue, Fan, ElasticSpread and VerticalSpread: the item returns
   * to the top, unscaled or unturned, with the effect's resting transition.
   */
  lemma RestingStack(effect: StackEffect, n: nat, selected: nat, k: nat)
    requires selected < n && k < n
    ensures var d := DeactiveUpdate(effect, n, selected, k).style;
      effect == Queue ==> Sets(d, Transform, Transformed([Scale(1.0)])) && Sets(d, Top, Length(0))
    ensures var d := DeactiveUpdate(effect, n, selected, k).style;
      effect == Fan ==>
        && Sets(d, TransformOrigin, Text("top left")) && Sets(d, Transform, Transformed([Rotate(0)]))
        && Sets(d, Transition, Text("transform .3s"))
    ensures var d := DeactiveUpdate(effect, n, selected, k).style;
      effect == ElasticSpread ==> Sets(d, Transition, Text("all .3s")) && Sets(d, Top, Length(0))
    ensures var d := DeactiveUpdate(effect, n, selected, k).style;
      effect == VerticalSpread ==> Sets(d, TransitionDelay, Text("0s")) && Sets(d, Top, Length(0))
  {
    if effect in {Queue, Fan, ElasticSpread, VerticalSpread} {
      ClosingStyle(effect, n, selected, k);
    }
  }

  /**
   * Closing Leaflet and Coverflow turns every item back flat (Coverflow
   * also unscaled at left 0); closing PreviewGrid writes nothing.
   */
  lemma RestingFlat(effect: StackEffect, n: nat, selected: nat, k: nat)
    requires selected < n && k < n
    ensures var d := DeactiveUpdate(effect, n, selected, k).style;
      effect == Leaflet ==> Sets(d, Transform, Transformed([RotateX(0)])) && Sets(d, TransitionDelay, Text("0s"))
    ensures var d := DeactiveUpdate(effect, n, selected, k).style;
      effect == Coverflow ==> Sets(d, Transform, Transformed([RotateY(0), Scale(1.0)])) && Sets(d, Left, Length(0))
    ensures effect == PreviewGrid ==> DeactiveUpdate(effect, n, selected, k) == ItemUpdate(map[], None)
  {
    if effect in {Leaflet, Coverflow} {
      ClosingStyle(effect, n, selected, k);
    }
  }

  /**
   * Under the 99 - index rule the item at absolute index 0 rests at
   * z-index 99 too, level with the selected item, whenever the selection
   * is elsewhere: only Fanout and SideGrid keep 99 for the selection alone.
   */
  lemma RestingZTie(effect: StackEffect, n: nat, selected: nat)
    requires selected < n
    ensures RestsBelowSelection(effect) ==>
      ZOf(DeactiveUpdate(effect, n, selected, 0).style) == 99 == ZOf(DeactiveUpdate(effect, n, selected, selected).style)
    ensures effect in {Fanout, SideGrid} ==>
      forall k :: 0 <= k < n ==> (ZOf(DeactiveUpdate(effect, n, selected, k).style) == 99 <==> k == selected)
  {
    DeactiveZOrder(effect, n, selected, 0);
    DeactiveZOrder(effect, n, selected, selected);
    forall k | 0 <= k < n
      ensures effect in {Fanout, SideGrid} ==> (ZOf(DeactiveUpdate(effect, n, selected, k).style) == 99 <==> k == selected)
    {
      DeactiveZOrder(effect, n, selected, k);
    }
  }

  // ---------------------------------------------------------------- initialising

  /**
   * The starting layout: PeekaBoo, Fan and SideSlide start at their resting
   * layout; Fanout and SideGrid start at their resting z-index; the 3-D
   * effects stack item k at n - 1 - k and the remaining ones at 99 - k,
   * writing the z-index alone. Only SideSlide moves items.
   */
  lemma InitialLayout(effect: StackEffect, n: nat, selected: nat, k: nat)
    requires selected < n && k < n
    ensures effect in {PeekaBoo, Fan, SideSlide} ==> InitialUpdate(effect, n, selected, k) == DeactiveUpdate(effect, n, selected, k)
    ensures effect in {Fanout, SideGrid} ==>
      && ZOf(InitialUpdate(effect, n, selected, k).style) == ZOf(DeactiveUpdate(effect, n, selected, k).style)
      && InitialUpdate(effect, n, selected, k).style.Keys == {ZIndex}
    ensures effect in {SimpleSpread, RandomRotation, Queue, ElasticSpread, VerticalSpread} ==>
      && ZOf(InitialUpdate(effect, n, selected, k).style) == 99 - k
      && InitialUpdate(effect, n, selected, k).style.Keys == {ZIndex}
    ensures effect in {Leaflet, Coverflow} ==>
      && ZOf(InitialUpdate(effect, n, selected, k).style) == n - 1 - k
      && Sets(InitialUpdate(effect, n, selected, k).style, TransformStyle, Text("preserve-3d"))
      && Sets(InitialUpdate(effect, n, selected, k).style, TransformOrigin, Text("top center"))
      && Transform in InitialUpdate(effect, n, selected, k).style
      && Transform in DeactiveUpdate(effect, n, selected, k).style
      && InitialUpdate(effect, n, selected, k).style[Transform] == DeactiveUpdate(effect, n, selected, k).style[Transform]
      && InitialUpdate(effect, n, selected, k).style.Keys == {ZIndex, TransformStyle, TransformOrigin, Transform}
    ensures effect == Leaflet ==> Sets(InitialUpdate(effect, n, selected, k).style, Transform, Transformed([RotateX(0)]))
    ensures effect == Coverflow ==> Sets(InitialUpdate(effect, n, selected, k).style, Transform, Transformed([RotateY(0), Scale(1.0)]))
    ensures effect == PreviewGrid ==> InitialUpdate(effect, n, selected, k) == ItemUpdate(map[], None)
    ensures effect != SideSlide ==> InitialUpdate(effect, n, selected, k).position.None?
  {
    if effect in {Fanout, SideGrid} {
      DeactiveZOrder(effect, n, selected, k);
    } else if effect in {Leaflet, Coverflow} {
      ClosingStyle(effect, n, selected, k);
    }
  }

  /**
   * PreviewGrid has no case in any of the three passes: opening, closing
   * and initialising all leave every item exactly as it was.
   */
  lemma PreviewGridUntouched(n: nat, selected: nat, host: HostSize, k: nat)
    requires selected < n && k < n
    ensures InitialUpdate(PreviewGrid, n, selected, k) == ItemUpdate(map[], None)
    ensures ActiveUpdate(PreviewGrid, n, selected, host, k) == ItemUpdate(map[], None)
    ensures DeactiveUpdate(PreviewGrid, n, selected, k) == ItemUpdate(map[], None)
  {
  }

  /**
   * Running the same pass twice leaves what running it once leaves: every
   * write of a pass is a plain overwrite.
   */
  lemma RestyledIdempotent(styles: seq<StyleMap>, items: seq<EffectItem>, plan: seq<ItemUpdate>)
    requires |styles| == |plan| == |items|
    ensures Restyled(Restyled(styles, plan), plan) == Restyled(styles, plan)
    ensures Replaced(Replaced(items, plan), plan) == Replaced(items, plan)
  {
    forall k | 0 <= k < |plan|
      ensures Apply(Apply(styles[k], plan[k].style), plan[k].style) == Apply(styles[k], plan[k].style)
    {
      ApplyIdempotent(styles[k], plan[k].style);
    }
  }
}

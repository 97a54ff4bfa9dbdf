/**
 * The per-effect style rules `setActiveStyle` and `setDeactiveStyle`: given
 * the effect, a rank (or absolute index), a side, the item count and the
 * selection, the writes the renderer receives for one element.
 */
module Effects {
  import opened Ring
  import opened Styles

  /** The stack effects the component offers. */
  datatype StackEffect =
    | Fanout | SimpleSpread | RandomRotation | SideSlide | SideGrid | PeekaBoo
    | Queue | Fan | ElasticSpread | VerticalSpread | Leaflet | Coverflow | PreviewGrid

  /**
   * The `d` argument of the style rules. NoSide is the argument left out,
   * as the forEach passes do.
   */
  datatype Side = LeftSide | RightSide | CenterSide | TopSide | BottomSide | NoSide

  /** SideGrid's cell `p`: width, height and left offset in pixels. */
  datatype GridCell = GridCell(width: real, height: real, left: real)

  /** The cell passed by every effect other than SideGrid, which ignore it. */
  const NoCell := GridCell(0.0, 0.0, 0.0)

  /** The measured `offsetWidth` / `offsetHeight` of the host element. */
  datatype HostSize = HostSize(width: int, height: int)

  const GridMargin: int := 8

  const ActiveShadow := "0px 7px 17px 3px #0000006b"

  /**
   * SideGrid's geometry for the item at ring index rel: two rows of
   * ceil(n/2) cells of half the host size less the margin, centred
   * horizontally; ring indices below ceil(n/2) fill the top row.
   */
  function GridCellFor(host: HostSize, n: nat, rel: nat): (cell: GridCell)
    ensures 2.0 * cell.width == host.width as real - GridMargin as real
    ensures 2.0 * cell.height == host.height as real - GridMargin as real
  {
    var margin := GridMargin as real;
    var width := (host.width as real - margin) / 2.0;
    var height := (host.height as real - margin) / 2.0;
    var rows := CeilCenter(n);
    var total := rows as real * width + (rows as real - 1.0) * margin;
    var left := host.width as real / 2.0 - total / 2.0;
    var column := if rel < rows then rel else rel - rows;
    GridCell(width, height, left + (width + margin) * column as real - margin)
  }

  /**
   * `setActiveStyle(item, rank, side, p)`: a shadow and full opacity for
   * every effect, then the effect's own geometry.
   */
  function ActiveStyle(effect: StackEffect, rank: int, side: Side, n: nat, cell: GridCell): (d: Descriptor)
    ensures BoxShadow in d && d[BoxShadow] == Text(ActiveShadow)
    ensures Opacity in d && d[Opacity] == Number(1)
  {
    map[BoxShadow := Text(ActiveShadow), Opacity := Number(1)] + ActiveGeometry(effect, rank, side, n, cell)
  }

  /** The effect-specific part of setActiveStyle: the switch on the effect. */
  function ActiveGeometry(effect: StackEffect, rank: int, side: Side, n: nat, cell: GridCell): Descriptor
  {
    match effect
    case Fanout => FanoutActive(rank, side)
    case SimpleSpread => SimpleSpreadActive(rank, side)
    case RandomRotation => RandomRotationActive(rank, side)
    case SideSlide => SideSlideActive(rank, side)
    case SideGrid => SideGridActive(side, cell)
    case PeekaBoo => PeekaBooActive(rank, side)
    case Queue => QueueActive(rank)
    case Fan => FanActive(rank, n)
    case ElasticSpread => ElasticSpreadActive(rank)
    case VerticalSpread => VerticalSpreadActive(rank, n)
    case Leaflet => LeafletActive(rank, n)
    case Coverflow => CoverflowActive(rank, n)
    case PreviewGrid => map[]
  }

  /**
   * Fanout: `'scale(0.9)' + d !== 'center'` compares the concatenation,
   * which is never 'center', so the transform is the rotation alone; the
   * centre stops after the transform.
   */
  function FanoutActive(rank: int, side: Side): Descriptor
  {
    var turn := map[Transform := Transformed([Rotate(if side == LeftSide then -rank * 10 else rank * 10)])];
    if side == CenterSide then turn
    else turn + map[
      Left := Length(if side == LeftSide then -rank * 100 else rank * 100),
      Top := Length(rank * 20),
      ZIndex := Number(90 - rank)]
  }

  function SimpleSpreadActive(rank: int, side: Side): Descriptor
  {
    if side == CenterSide then map[Left := Length(0), Top := Length(0), ZIndex := Number(50)]
    else map[
      Left := Length(if side == LeftSide then -rank * 25 else rank * 25),
      Top := Length(if side == LeftSide then rank * 25 else rank * -25),
      ZIndex := Number(50 + (if side == LeftSide then rank else -rank))]
  }

  function RandomRotationActive(rank: int, side: Side): Descriptor
  {
    if side == CenterSide then
      map[Left := Length(30), Top := Length(30), ZIndex := Number(99), Transform := Transformed([Rotate(0)])]
    else map[
      Transform := Transformed([Rotate(if side == LeftSide then rank * 5 else -rank * 5)]),
      ZIndex := Number(99 - rank),
      Left := Length(0),
      Top := Length(0)]
  }

  /** SideSlide: opacity is written again, and the centre stops after its three writes. */
  function SideSlideActive(rank: int, side: Side): Descriptor
  {
    if side == CenterSide then
      map[Opacity := Number(1), Transform := Transformed([Scale(0.9)]), ZIndex := Number(99), Left := Length(0)]
    else map[
      Opacity := Number(1),
      Transform := Transformed([Scale(1.0 - 0.15 * rank as real)]),
      Left := Length(if side == LeftSide then -rank * 50 else rank * 50),
      ZIndex := Number(90 - rank)]
  }

  function SideGridActive(side: Side, cell: GridCell): Descriptor
  {
    map[
      Width := SetStyle(Px(cell.width)),
      Height := SetStyle(Px(cell.height)),
      Left := SetStyle(Px(cell.left)),
      Top := if side == TopSide then Length(0) else SetStyle(Px(cell.height + 4.0))]
  }

  function PeekaBooActive(rank: int, side: Side): Descriptor
  {
    if side == CenterSide then map[
      Transform := Transformed([Scale(0.9)]),
      Left := Length(0),
      ZIndex := Number(99),
      Top := Length(0),
      TransformOrigin := Text("bottom center")]
    else map[
      Transform := Transformed([Scale(0.5), Rotate(if side == LeftSide then -rank * 30 else rank * 30)]),
      Left := Length(if side == LeftSide then -rank * 80 else rank * 80),
      Top := Length(-50),
      ZIndex := Number(if side == LeftSide then 90 + rank else 90 - rank),
      TransformOrigin := RemoveStyle]
  }

  function QueueActive(rank: int): Descriptor
  {
    map[ZIndex := Number(99 - rank), Transform := Transformed([Scale(0.9 - 0.08 * rank as real)]), Top := Length(-rank * 20)]
  }

  function FanActive(rank: int, n: nat): Descriptor
  {
    map[
      ZIndex := Number(rank),
      TransformOrigin := Text("top left"),
      Transform := Transformed([Rotate(rank * 5)]),
      TransitionDelay := SetStyle(DotSeconds(n - 1 - rank))]
  }

  /** ElasticSpread: the second phase, scheduled with setTimeout, is not part of this call's writes. */
  function ElasticSpreadActive(rank: int): Descriptor
  {
    map[ZIndex := Number(rank), Top := Length(rank * 35)]
  }

  function VerticalSpreadActive(rank: int, n: nat): Descriptor
  {
    map[ZIndex := Number(rank), TransitionDelay := SetStyle(DotSeconds(n - 1 - rank)), Top := Length(rank * 30)]
  }

  function LeafletActive(rank: int, n: nat): Descriptor
  {
    map[
      ZIndex := Number(rank),
      Transform := Transformed([RotateX(if rank != 0 then 15 + rank * 10 else 0)]),
      TransitionDelay := SetStyle(DotSeconds(n - 1 - rank))]
  }

  /** Coverflow: the left offset is 50 px per step between ceil(n/2) and the rank. */
  function CoverflowActive(rank: int, n: nat): Descriptor
  {
    map[
      ZIndex := Number(rank),
      Transform := Transformed([RotateY(-45), Scale(0.9)]),
      Left := Length((CeilCenter(n) - rank) * 50)]
  }

  /** The resting z-index `index === selectedIndex ? 99 : 99 - index`. */
  function RestingZ(index: int, selected: int): (z: int)
    ensures index == selected ==> z == 99
    ensures index != selected ==> z == 99 - index
  {
    if index == selected then 99 else 99 - index
  }

  /**
   * `setDeactiveStyle(item, index, side)`: the shadow is removed for every
   * effect, then the effect's resting geometry.
   */
  function DeactiveStyle(effect: StackEffect, index: int, side: Side, selected: int): (d: Descriptor)
    ensures BoxShadow in d && d[BoxShadow] == RemoveStyle
  {
    map[BoxShadow := RemoveStyle] + RestingGeometry(effect, index, side, selected)
  }

  /** The effect-specific part of setDeactiveStyle: the switch on the effect. */
  function RestingGeometry(effect: StackEffect, index: int, side: Side, selected: int): Descriptor
  {
    match effect
    case Fanout => FanoutResting(index, selected)
    case SimpleSpread => Flattened()
    case RandomRotation => Flattened()
    case SideSlide => SideSlideResting(index, side)
    case SideGrid => SideGridResting(index, selected)
    case PeekaBoo => PeekaBooResting(index, selected)
    case Queue => QueueResting(index, selected)
    case Fan => FanResting(index, selected)
    case ElasticSpread => ElasticSpreadResting(index, selected)
    case VerticalSpread => VerticalSpreadResting(index, selected)
    case Leaflet => LeafletResting(index, selected)
    case Coverflow => CoverflowResting(index, selected)
    case PreviewGrid => map[]
  }

  /** Fanout: only the selected item stays visible, on top. */
  function FanoutResting(index: int, selected: int): Descriptor
  {
    map[
      Top := Length(0),
      Left := Length(0),
      Transform := Transformed([Scale(1.0)]),
      ZIndex := Number(if index == selected then 99 else 0),
      Opacity := Number(if index == selected then 1 else 0)]
  }

  /** SimpleSpread and RandomRotation: back to the origin, unscaled. */
  function Flattened(): Descriptor
  {
    map[Top := Length(0), Left := Length(0), Transform := Transformed([Scale(1.0)])]
  }

  function SideSlideResting(index: int, side: Side): Descriptor
  {
    if side == CenterSide then
      map[Transform := Transformed([Scale(1.0)]), Opacity := Number(1), ZIndex := Number(99), Left := Length(0)]
    else map[
      Transform := Transformed([Scale(1.0 - index as real * 0.35)]),
      Left := Length(if side == LeftSide then -index * 100 else index * 100),
      Opacity := Number(0)]
  }

  function SideGridResting(index: int, selected: int): Descriptor
  {
    map[
      ZIndex := Number(if index == selected then 99 else 0),
      Width := Text("100%"),
      Height := Text("100%"),
      Left := Length(0),
      Top := Length(0)]
  }

  function PeekaBooResting(index: int, selected: int): Descriptor
  {
    if selected == index then
      map[Transform := Transformed([Scale(1.0)]), TransformOrigin := Text("bottom center"), ZIndex := Number(99)]
    else map[
      Transform := Transformed([Scale(0.1)]),
      Top := Length(0),
      ZIndex := Number(99 - index),
      TransformOrigin := RemoveStyle]
  }

  function QueueResting(index: int, selected: int): Descriptor
  {
    map[ZIndex := Number(RestingZ(index, selected)), Transform := Transformed([Scale(1.0)]), Top := Length(0)]
  }

  function FanResting(index: int, selected: int): Descriptor
  {
    map[
      TransformOrigin := Text("top left"),
      ZIndex := Number(RestingZ(index, selected)),
      Transform := Transformed([Rotate(0)]),
      Transition := Text("transform .3s")]
  }

  function ElasticSpreadResting(index: int, selected: int): Descriptor
  {
    map[ZIndex := Number(RestingZ(index, selected)), Transition := Text("all .3s"), Top := Length(0)]
  }

  function VerticalSpreadResting(index: int, selected: int): Descriptor
  {
    map[ZIndex := Number(RestingZ(index, selected)), TransitionDelay := Text("0s"), Top := Length(0)]
  }

  function LeafletResting(index: int, selected: int): Descriptor
  {
    map[ZIndex := Number(RestingZ(index, selected)), Transform := Transformed([RotateX(0)]), TransitionDelay := Text("0s")]
  }

  function CoverflowResting(index: int, selected: int): Descriptor
  {
    map[ZIndex := Number(RestingZ(index, selected)), Transform := Transformed([RotateY(0), Scale(1.0)]), Left := Length(0)]
  }
}

/**
 * The renderer as a style store. Each element carries a map from CSS
 * property to value; `setStyle` writes a property and `removeStyle` deletes
 * it. What one `setActiveStyle` / `setDeactiveStyle` call writes is a
 * Descriptor: for each property it touches, the last operation on it.
 */
module Styles {

  /** The CSS properties the component writes. */
  datatype Prop =
    | BoxShadow | Opacity | Transform | TransformOrigin | TransformStyle
    | Left | Top | ZIndex | Width | Height | Transition | TransitionDelay | Perspective

  /** One function of a CSS transform list. */
  datatype TransformFn = Scale(factor: real) | Rotate(deg: int) | RotateX(xdeg: int) | RotateY(ydeg: int)

  datatype Value =
    | Px(px: real)                       // a length in pixels (a bare 0 is the length 0)
    | Num(num: int)                      // a plain number: z-index, opacity
    | Transforms(fns: seq<TransformFn>)  // a transform list, left to right
    | DotSeconds(digits: int)            // the text `.<digits>s` used for transition delays
    | Css(text: string)                  // fixed CSS text

  datatype StyleOp = SetStyle(value: Value) | RemoveStyle

  /** The inline styles of one element. */
  type StyleMap = map<Prop, Value>

  /** The net writes of one styling call. */
  type Descriptor = map<Prop, StyleOp>

  function Length(px: int): StyleOp
  {
    SetStyle(Px(px as real))
  }

  function Number(x: int): StyleOp
  {
    SetStyle(Num(x))
  }

  function Transformed(fns: seq<TransformFn>): StyleOp
  {
    SetStyle(Transforms(fns))
  }

  function Text(s: string): StyleOp
  {
    SetStyle(Css(s))
  }

  /**
   * The element's styles after the renderer carries out d: every property d
   * sets holds its new value, every property d removes is gone, and every
   * other property is as it was.
   */
  function Apply(m: StyleMap, d: Descriptor): (m': StyleMap)
    ensures forall p :: p in d && d[p].SetStyle? ==> p in m' && m'[p] == d[p].value
    ensures forall p :: p in d && d[p].RemoveStyle? ==> p !in m'
    ensures forall p :: p !in d ==> (p in m' <==> p in m) && (p in m ==> m'[p] == m[p])
  {
    map p | p in m.Keys + d.Keys && !(p in d && d[p].RemoveStyle?) :: if p in d then d[p].value else m[p]
  }

  /** Carrying out d1 and then d2 is carrying out their overlay, in which d2's writes win. */
  lemma ApplyThen(m: StyleMap, d1: Descriptor, d2: Descriptor)
    ensures Apply(Apply(m, d1), d2) == Apply(m, d1 + d2)
  {
    var lhs, rhs := Apply(Apply(m, d1), d2), Apply(m, d1 + d2);
    assert forall p :: p in lhs <==> p in rhs;
  }

  /** Carrying out the same writes twice leaves what carrying them out once leaves. */
  lemma ApplyIdempotent(m: StyleMap, d: Descriptor)
    ensures Apply(Apply(m, d), d) == Apply(m, d)
  {
    ApplyThen(m, d, d);
    assert d + d == d;
  }

  /** A call that writes nothing leaves the styles as they were. */
  lemma ApplyNothing(m: StyleMap)
    ensures Apply(m, map[]) == m
  {
    assert forall p :: p in Apply(m, map[]) <==> p in m;
  }
}

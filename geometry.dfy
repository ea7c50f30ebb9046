/**
 * Frames on the plane (`CGRect`, with `real` for `CGFloat`) and the
 * edge accessors (named as `CGRect` names them) and the setters that the
 * toast takes from the ManualLayout library. Each setter moves the origin
 * along one axis and keeps the size.
 */
module Geometry {

  datatype Rect = Rect(x: real, y: real, width: real, height: real)

  function MinX(r: Rect): real { r.x }
  function MinY(r: Rect): real { r.y }
  function MaxX(r: Rect): real { r.x + r.width }
  function MaxY(r: Rect): real { r.y + r.height }
  function MidX(r: Rect): real { r.x + r.width / 2.0 }

  predicate SameSize(a: Rect, b: Rect) {
    a.width == b.width && a.height == b.height
  }

  /** `top = v` */
  function WithTop(r: Rect, v: real): (q: Rect)
    ensures MinY(q) == v && MinX(q) == MinX(r) && SameSize(q, r)
  {
    r.(y := v)
  }

  /** `left = v` */
  function WithLeft(r: Rect, v: real): (q: Rect)
    ensures MinX(q) == v && MinY(q) == MinY(r) && SameSize(q, r)
  {
    r.(x := v)
  }

  /** `right = v`: the maximum x becomes `v`. */
  function WithRight(r: Rect, v: real): (q: Rect)
    ensures MaxX(q) == v && MinY(q) == MinY(r) && SameSize(q, r)
  {
    r.(x := v - r.width)
  }

  /** `bottom = v`: the maximum y becomes `v`. */
  function WithBottom(r: Rect, v: real): (q: Rect)
    ensures MaxY(q) == v && MinX(q) == MinX(r) && SameSize(q, r)
  {
    r.(y := v - r.height)
  }

  /** `centerX = v` */
  function WithCenterX(r: Rect, v: real): (q: Rect)
    ensures MidX(q) == v && MinY(q) == MinY(r) && SameSize(q, r)
  {
    r.(x := v - r.width / 2.0)
  }
}

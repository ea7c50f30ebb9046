/**
 * The six anchors a toast can be presented at, and the frame each one
 * gives the toast against its host. Following the code, the host's
 * `right` and `bottom` are those of its frame (origin plus size), its
 * `width` that of its frame too.
 */
module Positions {
  import opened Geometry

  datatype Position =
    | Top(insets: real)
    | TopLeft(insets: real)
    | TopRight(insets: real)
    | Bottom(insets: real)
    | BottomLeft(insets: real)
    | BottomRight(insets: real)

  /** The position `switch` of `presentOnView`: two edge setters per anchor. */
  function Layout(frame: Rect, host: Rect, p: Position): (r: Rect)
    ensures SameSize(r, frame)
    ensures p.Top? ==> MinY(r) == p.insets && MidX(r) == host.width / 2.0
    ensures p.TopLeft? ==> MinY(r) == p.insets && MinX(r) == p.insets
    ensures p.TopRight? ==> MinY(r) == p.insets && MaxX(r) == MaxX(host) - p.insets
    ensures p.Bottom? ==> MaxY(r) == MaxY(host) - p.insets && MidX(r) == host.width / 2.0
    ensures p.BottomLeft? ==> MaxY(r) == MaxY(host) - p.insets && MinX(r) == p.insets
    ensures p.BottomRight? ==> MaxY(r) == MaxY(host) - p.insets && MaxX(r) == MaxX(host) - p.insets
  {
    match p
    case Top(insets) => WithCenterX(WithTop(frame, insets), host.width / 2.0)
    case TopLeft(insets) => WithLeft(WithTop(frame, insets), insets)
    case TopRight(insets) => WithRight(WithTop(frame, insets), MaxX(host) - insets)
    case Bottom(insets) => WithCenterX(WithBottom(frame, MaxY(host) - insets), host.width / 2.0)
    case BottomLeft(insets) => WithLeft(WithBottom(frame, MaxY(host) - insets), insets)
    case BottomRight(insets) => WithRight(WithBottom(frame, MaxY(host) - insets), MaxX(host) - insets)
  }

  /** The old origin plays no part: only the toast's size and the host decide where it goes. */
  lemma LayoutIgnoresOrigin(a: Rect, b: Rect, host: Rect, p: Position)
    requires SameSize(a, b)
    ensures Layout(a, host, p) == Layout(b, host, p)
  {
  }

  /** Laying out an already laid-out toast again moves it no further. */
  lemma LayoutIdempotent(frame: Rect, host: Rect, p: Position)
    ensures Layout(Layout(frame, host, p), host, p) == Layout(frame, host, p)
  {
    LayoutIgnoresOrigin(Layout(frame, host, p), frame, host, p);
  }

  /**
   * For a host at the origin, a toast that fits with its insets on both
   * axes (and a non-negative inset) lies wholly inside the host.
   */
  lemma LayoutInsideHost(frame: Rect, host: Rect, p: Position)
    requires host.x == 0.0 && host.y == 0.0
    requires p.insets >= 0.0 && frame.width >= 0.0 && frame.height >= 0.0
    requires frame.width + 2.0 * p.insets <= host.width
    requires frame.height + 2.0 * p.insets <= host.height
    ensures var r := Layout(frame, host, p);
      0.0 <= MinX(r) && MaxX(r) <= host.width && 0.0 <= MinY(r) && MaxY(r) <= host.height
  {
  }

  /** An 800 by 140 toast at the bottom of a 1920 by 1080 screen with inset 20. */
  lemma ExampleBottomOfScreen()
    ensures var r := Layout(Rect(0.0, 0.0, 800.0, 140.0), Rect(0.0, 0.0, 1920.0, 1080.0), Bottom(20.0));
      MaxY(r) == 1060.0 && MidX(r) == 960.0 && r == Rect(560.0, 920.0, 800.0, 140.0)
  {
  }
}

/**
 * The toast's style: every field optional, and the resolution of unset
 * fields to fixed defaults at presentation time.
 */
module Styles {
  import opened Wrappers
  import opened AttributedStrings
  import opened Positions

  const DEFAULT_POSITION: Position := Bottom(20.0)
  const DEFAULT_DURATION: real := 3.0
  const GRAY: Color := Color("gray")
  const WHITE: Color := Color("white")
  const DEFAULT_CORNER_RADIUS: real := 10.0

  /** `TVOSToastStyle`; `EmptyStyle()` is its `init()`. */
  datatype Style = Style(
    position: Option<Position>,
    duration: Option<real>,
    backgroundColor: Option<Color>,
    cornerRadius: Option<real>,
    font: Option<Font>,
    textColor: Option<Color>)

  /** The style with every field set, as `presentOnView` uses it. */
  datatype ResolvedStyle = ResolvedStyle(
    position: Position,
    duration: real,
    backgroundColor: Color,
    cornerRadius: real,
    font: Font,
    textColor: Color)

  function EmptyStyle(): Style {
    Style(None, None, None, None, None, None)
  }

  /** A style with every field set to the given values. */
  function Explicit(r: ResolvedStyle): Style {
    Style(Some(r.position), Some(r.duration), Some(r.backgroundColor),
          Some(r.cornerRadius), Some(r.font), Some(r.textColor))
  }

  /**
   * The six `??` of `presentOnView`. `headline` is the platform's preferred
   * font for the headline text style.
   */
  function Resolve(s: Style, headline: Font): (r: ResolvedStyle)
    ensures s.position.Some? ==> r.position == s.position.value
    ensures s.position.None? ==> r.position == DEFAULT_POSITION
    ensures s.duration.Some? ==> r.duration == s.duration.value
    ensures s.duration.None? ==> r.duration == DEFAULT_DURATION
    ensures s.backgroundColor.Some? ==> r.backgroundColor == s.backgroundColor.value
    ensures s.backgroundColor.None? ==> r.backgroundColor == GRAY
    ensures s.cornerRadius.Some? ==> r.cornerRadius == s.cornerRadius.value
    ensures s.cornerRadius.None? ==> r.cornerRadius == DEFAULT_CORNER_RADIUS
    ensures s.font.Some? ==> r.font == s.font.value
    ensures s.font.None? ==> r.font == headline
    ensures s.textColor.Some? ==> r.textColor == s.textColor.value
    ensures s.textColor.None? ==> r.textColor == WHITE
  {
    ResolvedStyle(
      s.position.GetOr(DEFAULT_POSITION),
      s.duration.GetOr(DEFAULT_DURATION),
      s.backgroundColor.GetOr(GRAY),
      s.cornerRadius.GetOr(DEFAULT_CORNER_RADIUS),
      s.font.GetOr(headline),
      s.textColor.GetOr(WHITE))
  }

  /** A style left at `init()` resolves to the defaults of `presentOnView`. */
  lemma ResolveEmpty(headline: Font)
    ensures Resolve(EmptyStyle(), headline)
         == ResolvedStyle(Bottom(20.0), 3.0, Color("gray"), 10.0, headline, Color("white"))
  {
  }

  /** A style with every field set resolves to exactly those values, whatever the platform font. */
  lemma ResolveExplicit(r: ResolvedStyle, headline: Font)
    ensures Resolve(Explicit(r), headline) == r
  {
  }

  /** Resolving is idempotent: resolving the resolved style again gives it back. */
  lemma ResolveIdempotent(s: Style, headline: Font, other: Font)
    ensures Resolve(Explicit(Resolve(s, headline)), other) == Resolve(s, headline)
  {
    ResolveExplicit(Resolve(s, headline), other);
  }
}

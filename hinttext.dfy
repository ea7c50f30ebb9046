/**
 * Hint text: an ordered list of elements composed into one attributed
 * string. A string becomes a text run in the caller's font and colour, a
 * remote button becomes its glyph sized to the font, and an element of
 * any other type is skipped.
 */
module HintTexts {
  import opened Wrappers
  import opened Geometry
  import opened AttributedStrings
  import opened RemoteButtons

  /** An element of the `[Any]` list, by the runtime type the builder tests for. */
  datatype Element = Text(text: string) | Button(kind: RemoteButtonType) | Other

  /** How much larger than the font's point size a glyph is drawn. */
  const GLYPH_PADDING: real := 30.0

  /** The glyph's bounds for a font: a square `pointSize + 30` wide, lowered by a quarter of its side. */
  function GlyphBounds(pointSize: real): (r: Rect)
    ensures r.x == 0.0 && r.width == r.height == pointSize + GLYPH_PADDING
    ensures r.y * 4.0 == -r.height
  {
    var size := pointSize + GLYPH_PADDING;
    Rect(0.0, -size / 4.0, size, size)
  }

  /** What one element adds to the result. */
  function Contribution(e: Element, font: Font, color: Color): AttributedString {
    match e
    case Text(t) => FromText(t, font, color)
    case Button(k) => AttributedStringOf(k, Some(GlyphBounds(font.pointSize)))
    case Other => []
  }

  /** The specification of `buildAttributedString(font:textColor:)`. */
  function Build(elements: seq<Element>, font: Font, color: Color): AttributedString {
    if elements == [] then []
    else Contribution(elements[0], font, color) + Build(elements[1..], font, color)
  }

  /** The elements that contribute, in order. */
  function Kept(elements: seq<Element>): (k: seq<Element>)
    ensures forall e :: e in k ==> !e.Other?
  {
    if elements == [] then []
    else if elements[0].Other? then Kept(elements[1..])
    else [elements[0]] + Kept(elements[1..])
  }

  /** The single fragment a string or a button element becomes. */
  function FragmentFor(e: Element, font: Font, color: Color): Fragment
    requires !e.Other?
  {
    match e
    case Text(t) => TextRun(t, font, color)
    case Button(k) => Attachment(ImageName(k), Some(GlyphBounds(font.pointSize)))
  }

  lemma {:induction false} BuildAppend(a: seq<Element>, b: seq<Element>, font: Font, color: Color)
    ensures Build(a + b, font, color) == Build(a, font, color) + Build(b, font, color)
  {
    if a == [] {
      assert a + b == b;
    } else {
      assert (a + b)[1..] == a[1..] + b;
      BuildAppend(a[1..], b, font, color);
    }
  }

  lemma BuildSingle(e: Element, font: Font, color: Color)
    ensures Build([e], font, color) == Contribution(e, font, color)
  {
    assert [e][1..] == [];
  }

  /**
   * The result is one fragment per string or button element, in order:
   * the k-th fragment is the one the k-th contributing element becomes.
   */
  lemma {:induction false} BuildExact(elements: seq<Element>, font: Font, color: Color)
    ensures |Build(elements, font, color)| == |Kept(elements)|
    ensures forall k :: 0 <= k < |Kept(elements)| ==>
      Build(elements, font, color)[k] == FragmentFor(Kept(elements)[k], font, color)
  {
    if elements != [] {
      BuildExact(elements[1..], font, color);
      var e := elements[0];
      if !e.Other? {
        assert Contribution(e, font, color) == [FragmentFor(e, font, color)];
      }
    }
  }

  /** Elements of any other type contribute nothing: removing them changes nothing. */
  lemma {:induction false} BuildSkipsOther(elements: seq<Element>, font: Font, color: Color)
    ensures Build(elements, font, color) == Build(Kept(elements), font, color)
  {
    if elements != [] {
      BuildSkipsOther(elements[1..], font, color);
      if !elements[0].Other? {
        var k := [elements[0]] + Kept(elements[1..]);
        assert k[0] == elements[0] && k[1..] == Kept(elements[1..]);
      }
    }
  }

  /** Text runs carry the caller's font and colour; glyphs name a button and use the glyph bounds. */
  lemma {:induction false} BuildStyled(elements: seq<Element>, font: Font, color: Color, f: Fragment)
    requires f in Build(elements, font, color)
    ensures f.TextRun? ==> f.font == font && f.color == color
    ensures f.Attachment? ==>
      f.bounds == Some(GlyphBounds(font.pointSize)) && ButtonForImageName(f.imageName).Some?
  {
    if f !in Contribution(elements[0], font, color) {
      BuildStyled(elements[1..], font, color, f);
    }
  }

  /** The hint "Press [Menu] to exit" in a 20-point font. */
  lemma ExamplePressMenuToExit(font: Font, color: Color)
    requires font.pointSize == 20.0
    ensures Build([Text("Press "), Button(MenuWhite), Text(" to exit")], font, color) == [
      TextRun("Press ", font, color),
      Attachment("tvosToastMenuWhite.png", Some(Rect(0.0, -12.5, 50.0, 50.0))),
      TextRun(" to exit", font, color)]
  {
    var es := [Text("Press "), Button(MenuWhite), Text(" to exit")];
    assert GlyphBounds(font.pointSize) == Rect(0.0, -12.5, 50.0, 50.0);
    assert ImageName(MenuWhite) == "tvosToastMenuWhite.png";
    BuildSingle(es[0], font, color);
    BuildSingle(es[1], font, color);
    BuildSingle(es[2], font, color);
    BuildAppend([es[0]], [es[1]], font, color);
    BuildAppend([es[0], es[1]], [es[2]], font, color);
    assert es == [es[0], es[1]] + [es[2]] && [es[0], es[1]] == [es[0]] + [es[1]];
  }

  /** `TVOSToastHintText`. */
  class HintText {
    var elements: seq<Element>

    /** `init(elements:)` */
    constructor (elements: seq<Element>)
      ensures this.elements == elements
    {
      this.elements := elements;
    }

    /** `buildAttributedString(font:textColor:)`: appends each element's fragment to a buffer. */
    method BuildAttributedString(font: Font, textColor: Color) returns (r: AttributedString)
      ensures r == Build(elements, font, textColor)
    {
      var buffer: AttributedString := [];
      for i := 0 to |elements|
        invariant buffer == Build(elements[..i], font, textColor)
      {
        var element := elements[i];
        var piece: AttributedString := [];
        match element {
          case Text(text) =>
            piece := FromText(text, font, textColor);
          case Button(kind) =>
            var size := font.pointSize + 30.0;
            assert Rect(0.0, -size / 4.0, size, size) == GlyphBounds(font.pointSize);
            piece := AttributedStringOf(kind, Some(Rect(0.0, -size / 4.0, size, size)));
          case Other =>
        }
        BuildAppend(elements[..i], [element], font, textColor);
        BuildSingle(element, font, textColor);
        buffer := buffer + piece;
        assert elements[..i + 1] == elements[..i] + [element];
      }
      assert elements[..|elements|] == elements;
      r := buffer;
    }
  }
}

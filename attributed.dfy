/**
 * Rich text as an immutable sequence of fragments, and the convenience
 * initialisers the toast adds to `NSAttributedString`.
 *
 * Fonts and colours are opaque tokens (a font carries its point size).
 * An image attachment is known by its image name; `None` bounds mean the
 * image keeps its natural size. The length of a rich text is the length of
 * its plain text in UTF-16 code units, in which an attachment stands for one
 * object-replacement character.
 */
module AttributedStrings {
  import opened Wrappers
  import opened Geometry

  datatype FontFace = Named(name: string) | System
  datatype Font = Font(face: FontFace, pointSize: real)
  datatype Color = Color(name: string)

  /** The character an attachment occupies in the plain text. */
  const OBJECT_REPLACEMENT: char := '￼'

  datatype Fragment =
    | TextRun(text: string, font: Font, color: Color)
    | Attachment(imageName: string, bounds: Option<Rect>)

  type AttributedString = seq<Fragment>

  function FragmentText(f: Fragment): string {
    match f
    case TextRun(t, _, _) => t
    case Attachment(_, _) => [OBJECT_REPLACEMENT]
  }

  /** The `string` of an attributed string. */
  function PlainText(s: AttributedString): string {
    if s == [] then [] else FragmentText(s[0]) + PlainText(s[1..])
  }

  /** UTF-16 code units of one character: a surrogate pair above U+FFFF. */
  function Utf16Units(c: char): nat {
    if c as int > 0xFFFF then 2 else 1
  }

  /** The length of a string as `NSString` counts it, in UTF-16 code units. */
  function Utf16Length(t: string): nat {
    if t == [] then 0 else Utf16Units(t[0]) + Utf16Length(t[1..])
  }

  /** `NSAttributedString.length` */
  function Length(s: AttributedString): nat {
    Utf16Length(PlainText(s))
  }

  lemma {:induction false} Utf16LengthAppend(a: string, b: string)
    ensures Utf16Length(a + b) == Utf16Length(a) + Utf16Length(b)
  {
    if a == [] {
      assert a + b == b;
    } else {
      assert (a + b)[1..] == a[1..] + b;
      Utf16LengthAppend(a[1..], b);
    }
  }

  /**
   * Every character takes one or two code units, and exactly one when
   * all lie in the Basic Multilingual Plane.
   */
  lemma {:induction false} Utf16LengthBounds(t: string)
    ensures |t| <= Utf16Length(t) <= 2 * |t|
    ensures (forall i :: 0 <= i < |t| ==> t[i] as int <= 0xFFFF) ==> Utf16Length(t) == |t|
  {
    if t != [] {
      Utf16LengthBounds(t[1..]);
      if forall i :: 0 <= i < |t| ==> t[i] as int <= 0xFFFF {
        assert forall i :: 0 <= i < |t[1..]| ==> t[1..][i] == t[i + 1];
      }
    }
  }

  // ------------------------------------------------------------------
  // Single-fragment initialisers

  /** `init(text:font:color:)`: one text run carrying exactly the font and colour. */
  function FromText(text: string, font: Font, color: Color): (r: AttributedString)
    ensures |r| == 1 && PlainText(r) == text
    ensures forall f :: f in r ==> f.TextRun? && f.font == font && f.color == color
  {
    [TextRun(text, font, color)]
  }

  /**
   * `UIFont(name:size:) ?? UIFont.systemFont(ofSize:)`: the named font when
   * it is among the `available` ones, otherwise the system font; the size
   * is kept either way.
   */
  function ResolveFont(name: string, size: real, available: set<string>): (f: Font)
    ensures f.pointSize == size
    ensures f.face == Named(name) <==> name in available
    ensures f.face == System <==> name !in available
  {
    if name in available then Font(Named(name), size) else Font(System, size)
  }

  /** An emoji outside the Basic Multilingual Plane is two code units long. */
  lemma ExampleEmojiLength(font: Font, color: Color)
    ensures Length(FromText("\U{1F600}", font, color)) == 2
  {
  }

  /** `init(text:fontName:fontSize:color:)`: never fails. */
  function FromFontName(text: string, fontName: string, fontSize: real, color: Color,
                        available: set<string>): (r: AttributedString)
    ensures |r| == 1 && PlainText(r) == text
    ensures forall f :: f in r ==>
      && f.TextRun? && f.color == color && f.font.pointSize == fontSize
      && (f.font.face == Named(fontName) <==> fontName in available)
      && (f.font.face == System <==> fontName !in available)
  {
    FromText(text, ResolveFont(fontName, fontSize, available), color)
  }

  /** `init(imageName:bounds:bundle:)`: an attachment alone, one character long. */
  function FromImage(imageName: string, bounds: Option<Rect>): (r: AttributedString)
    ensures |r| == 1 && Length(r) == 1
    ensures forall f :: f in r ==> f.Attachment? && f.imageName == imageName && f.bounds == bounds
  {
    var r := [Attachment(imageName, bounds)];
    assert PlainText(r) == FragmentText(r[0]) + PlainText([]);
    assert Utf16Length([OBJECT_REPLACEMENT]) == Utf16Units(OBJECT_REPLACEMENT) + Utf16Length([]);
    r
  }

  // ------------------------------------------------------------------
  // Concatenation

  /** The fragments of `parts`, in argument order. */
  function Flatten(parts: seq<AttributedString>): (r: AttributedString)
    ensures |parts| == 1 ==> r == parts[0]
  {
    if parts == [] then [] else parts[0] + Flatten(parts[1..])
  }

  function TotalLength(parts: seq<AttributedString>): nat {
    if parts == [] then 0 else Length(parts[0]) + TotalLength(parts[1..])
  }

  /** `init(attributedStrings:)`: appends every argument to a mutable buffer. */
  method Concatenate(parts: seq<AttributedString>) returns (r: AttributedString)
    ensures r == Flatten(parts)
  {
    var buffer: AttributedString := [];
    for i := 0 to |parts|
      invariant buffer == Flatten(parts[..i])
    {
      FlattenAppend(parts[..i], [parts[i]]);
      assert parts[..i + 1] == parts[..i] + [parts[i]];
      buffer := buffer + parts[i];
    }
    assert parts[..|parts|] == parts;
    r := buffer;
  }

  lemma {:induction false} FlattenAppend(a: seq<AttributedString>, b: seq<AttributedString>)
    ensures Flatten(a + b) == Flatten(a) + Flatten(b)
  {
    if a == [] {
      assert a + b == b;
    } else {
      assert (a + b)[1..] == a[1..] + b;
      FlattenAppend(a[1..], b);
    }
  }

  lemma {:induction false} PlainTextAppend(a: AttributedString, b: AttributedString)
    ensures PlainText(a + b) == PlainText(a) + PlainText(b)
  {
    if a == [] {
      assert a + b == b;
    } else {
      assert (a + b)[1..] == a[1..] + b;
      PlainTextAppend(a[1..], b);
    }
  }

  /** The length of a concatenation is the sum of the lengths of its arguments. */
  lemma {:induction false} FlattenLength(parts: seq<AttributedString>)
    ensures Length(Flatten(parts)) == TotalLength(parts)
  {
    if parts != [] {
      PlainTextAppend(parts[0], Flatten(parts[1..]));
      Utf16LengthAppend(PlainText(parts[0]), PlainText(Flatten(parts[1..])));
      FlattenLength(parts[1..]);
    }
  }

  /** A fragment is in the concatenation exactly when it is in one of the arguments. */
  lemma {:induction false} FlattenFragments(parts: seq<AttributedString>, f: Fragment)
    ensures f in Flatten(parts) <==> exists j :: 0 <= j < |parts| && f in parts[j]
  {
    if parts != [] {
      FlattenFragments(parts[1..], f);
      if f in Flatten(parts[1..]) {
        var j :| 0 <= j < |parts[1..]| && f in parts[1..][j];
        assert f in parts[j + 1];
      }
      if exists j :: 0 <= j < |parts| && f in parts[j] {
        var j :| 0 <= j < |parts| && f in parts[j];
        if j > 0 {
          assert f in parts[1..][j - 1];
        }
      }
    }
  }

  /**
   * Splitting the argument list at any point and concatenating twice
   * gives the same result: `[A, B, C]` is `[[A, B] concatenated, C]`.
   */
  lemma ConcatenateRegroup(parts: seq<AttributedString>, k: nat)
    requires k <= |parts|
    ensures Flatten([Flatten(parts[..k])] + parts[k..]) == Flatten(parts)
  {
    var rest := parts[k..];
    assert ([Flatten(parts[..k])] + rest)[1..] == rest;
    FlattenAppend(parts[..k], rest);
    assert parts[..k] + rest == parts;
  }
}

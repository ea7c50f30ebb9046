/**
 * The catalog of Siri Remote button glyphs: ten cases, each backed by a
 * string raw value equal to its case name, each naming one bundled image.
 */
module RemoteButtons {
  import opened Wrappers
  import opened Geometry
  import opened AttributedStrings

  datatype RemoteButtonType =
    | MenuBlack | MenuWhite
    | ScreenBlack | ScreenWhite
    | PlayPauseBlack | PlayPauseWhite
    | SiriBlack | SiriWhite
    | VolumeWhite | VolumeBlack

  /** Every case, in declaration order. */
  const ALL_BUTTONS: seq<RemoteButtonType> := [
    MenuBlack, MenuWhite, ScreenBlack, ScreenWhite, PlayPauseBlack,
    PlayPauseWhite, SiriBlack, SiriWhite, VolumeWhite, VolumeBlack]

  const IMAGE_PREFIX: string := "tvosToast"
  const IMAGE_SUFFIX: string := ".png"

  /** `rawValue` */
  function RawValue(b: RemoteButtonType): string {
    match b
    case MenuBlack => "MenuBlack"
    case MenuWhite => "MenuWhite"
    case ScreenBlack => "ScreenBlack"
    case ScreenWhite => "ScreenWhite"
    case PlayPauseBlack => "PlayPauseBlack"
    case PlayPauseWhite => "PlayPauseWhite"
    case SiriBlack => "SiriBlack"
    case SiriWhite => "SiriWhite"
    case VolumeWhite => "VolumeWhite"
    case VolumeBlack => "VolumeBlack"
  }

  /** `init?(rawValue:)`, which Swift derives for an enum backed by `String`. */
  function FromRawValue(s: string): Option<RemoteButtonType> {
    if s == "MenuBlack" then Some(MenuBlack)
    else if s == "MenuWhite" then Some(MenuWhite)
    else if s == "ScreenBlack" then Some(ScreenBlack)
    else if s == "ScreenWhite" then Some(ScreenWhite)
    else if s == "PlayPauseBlack" then Some(PlayPauseBlack)
    else if s == "PlayPauseWhite" then Some(PlayPauseWhite)
    else if s == "SiriBlack" then Some(SiriBlack)
    else if s == "SiriWhite" then Some(SiriWhite)
    else if s == "VolumeWhite" then Some(VolumeWhite)
    else if s == "VolumeBlack" then Some(VolumeBlack)
    else None
  }

  lemma RawValueRoundTrip(b: RemoteButtonType)
    ensures FromRawValue(RawValue(b)) == Some(b)
  {
  }

  /** A raw value is accepted back exactly when it is the case's own. */
  lemma FromRawValueExact(s: string, b: RemoteButtonType)
    ensures FromRawValue(s) == Some(b) <==> RawValue(b) == s
  {
  }

  /** The image a name identifies, if it follows the catalog's naming scheme. */
  function ButtonForImageName(name: string): Option<RemoteButtonType> {
    var p, q := |IMAGE_PREFIX|, |IMAGE_SUFFIX|;
    if |name| >= p + q && name[..p] == IMAGE_PREFIX && name[|name| - q..] == IMAGE_SUFFIX
    then FromRawValue(name[p..|name| - q])
    else None
  }

  /** `getImageName()`: the prefix, the raw value and the extension. */
  function ImageName(b: RemoteButtonType): (name: string)
    ensures |name| == |IMAGE_PREFIX| + |RawValue(b)| + |IMAGE_SUFFIX|
    ensures ButtonForImageName(name) == Some(b)
  {
    var raw := RawValue(b);
    var name := IMAGE_PREFIX + raw + IMAGE_SUFFIX;
    assert name[..|IMAGE_PREFIX|] == IMAGE_PREFIX;
    assert name[|name| - |IMAGE_SUFFIX|..] == IMAGE_SUFFIX;
    assert name[|IMAGE_PREFIX|..|name| - |IMAGE_SUFFIX|] == raw;
    RawValueRoundTrip(b);
    name
  }

  /** Two buttons share an image name only if they are the same button. */
  lemma ImageNameInjective(a: RemoteButtonType, b: RemoteButtonType)
    ensures ImageName(a) == ImageName(b) ==> a == b
  {
  }

  /** The position of a case in the declaration order. */
  function Ordinal(b: RemoteButtonType): nat {
    match b
    case MenuBlack => 0
    case MenuWhite => 1
    case ScreenBlack => 2
    case ScreenWhite => 3
    case PlayPauseBlack => 4
    case PlayPauseWhite => 5
    case SiriBlack => 6
    case SiriWhite => 7
    case VolumeWhite => 8
    case VolumeBlack => 9
  }

  /** Every case is in the catalog, at its ordinal. */
  lemma CatalogComplete(b: RemoteButtonType)
    ensures Ordinal(b) < |ALL_BUTTONS| && ALL_BUTTONS[Ordinal(b)] == b
  {
  }

  lemma CatalogOrdinal(i: nat)
    requires i < |ALL_BUTTONS|
    ensures Ordinal(ALL_BUTTONS[i]) == i
  {
  }

  /** The ten catalog entries have ten distinct image names. */
  lemma CatalogNamesDistinct(i: nat, j: nat)
    requires i < j < |ALL_BUTTONS|
    ensures ImageName(ALL_BUTTONS[i]) != ImageName(ALL_BUTTONS[j])
  {
    CatalogOrdinal(i);
    CatalogOrdinal(j);
    ImageNameInjective(ALL_BUTTONS[i], ALL_BUTTONS[j]);
  }

  /** `getAttributedString(bounds:)`: the button's image alone. */
  function AttributedStringOf(b: RemoteButtonType, bounds: Option<Rect>): (r: AttributedString)
    ensures |r| == 1 && Length(r) == 1
    ensures forall f :: f in r ==>
      f.Attachment? && f.bounds == bounds && ButtonForImageName(f.imageName) == Some(b)
  {
    FromImage(ImageName(b), bounds)
  }
}

# TVOSToast in Dafny

A model of the toast view of TVOSToast: a transient overlay for tvOS that
shows plain text, attributed text or hint text mixing strings with Siri
Remote button glyphs, anchored at one of six screen positions, that fades
in, waits for its duration, fades out and removes itself from its host.

The model follows `TVOSToast/TVOSToast.swift` section by section:

- `AttributedStrings` (attributed.dfy): an attributed string is a sequence
  of fragments, each a text run (text, font, colour) or an image attachment
  (image name, optional bounds). The four `NSAttributedString` convenience
  initialisers; concatenation is a method with a loop proved equal to
  `Flatten`, with its length, membership and regrouping lemmas. Lengths
  count UTF-16 code units, as `NSString` does: a character above U+FFFF
  counts two, an attachment one.
- `RemoteButtons` (buttons.dfy): the ten `TVOSToastRemoteButtonType` cases,
  their raw values, Swift's derived `init?(rawValue:)`, the image name
  `"tvosToast" + rawValue + ".png"` and the glyph string. The image name is
  proved to determine the button, so the ten names are distinct.
- `HintTexts` (hinttext.dfy): the element list as
  `Text | Button | Other`, the glyph bounds `(0, -size/4, size, size)` with
  `size = pointSize + 30`, the recursive specification `Build`, and the
  `TVOSToastHintText` class whose `BuildAttributedString` loop is proved
  equal to it. Lemmas: one fragment per string or button element, in
  order; other elements contribute nothing; styling of every fragment.
- `Positions` (position.dfy) and `Geometry` (geometry.dfy): the six anchors
  and the frame arithmetic of the position `switch`, over the ManualLayout
  setters (each moves the origin and keeps the size).
- `Styles` (style.dfy): `TVOSToastStyle` with optional fields and the
  default resolution of `presentOnView`.
- `Toasts` (toast.dfy): content selection by priority, the `TVOSToast`
  class with its configuration, label, frame, alpha, host and lifecycle
  phase, and `presentOnView` with the two animation completions as
  explicit methods. A ghost history of snapshots (phase, alpha, attached)
  is kept a prefix of the lifecycle constructed, attached at alpha 0,
  fading in, fading out, removed.

Platform services become parameters: the set of installed font names for
`UIFont(name:size:)`, and the preferred headline font for
`UIFont.preferredFont(forTextStyle:)`. Fonts and colours are opaque
tokens (a font carries its point size); images are known by name; `real`
stands for `CGFloat` and `TimeInterval`.

Three points of `TVOSToast/TVOSToast.swift` shape the model:

- The fade-out is started inside the fade-in's completion with
  `delay: duration` (lines 252-254), so its delay counts from the end of
  the fade-in, not from the start of the presentation.
- `getAttributedString()` without bounds leaves the image at its natural
  size (lines 41-43 and 74); nothing forces a caller to supply bounds.
- The host's `right` and `bottom` are those of its frame (its origin plus
  its size), while `centerX` uses half of its width (lines 225, 231, 233).
  The two agree with the host's own coordinate space only when the host's
  origin is zero; `Positions.LayoutInsideHost` is stated for that case.

## Model

| member | source | states |
|---|---|---|
| AttributedStrings.Utf16LengthBounds | TVOSToast/TVOSToast.swift:30-35 | a string's length counts one or two UTF-16 code units per character, exactly one each inside the Basic Multilingual Plane |
| AttributedStrings.ExampleEmojiLength | TVOSToast/TVOSToast.swift:30-35 | a run holding one emoji above U+FFFF has length 2 |
| AttributedStrings.FromText | TVOSToast/TVOSToast.swift:30-36 | one text run whose plain text is the given text and which carries exactly the given font and colour |
| AttributedStrings.ResolveFont | TVOSToast/TVOSToast.swift:26 | the named font when it is installed, otherwise the system font; the requested size either way, never a failure |
| AttributedStrings.FromFontName | TVOSToast/TVOSToast.swift:25-28 | one text run with the given text, colour and size, in the named font exactly when it is installed and in the system font otherwise |
| AttributedStrings.FromImage | TVOSToast/TVOSToast.swift:38-45 | a single attachment, one character long, with the given image name; it has the given bounds when supplied and none (natural size) otherwise |
| AttributedStrings.Flatten | TVOSToast/TVOSToast.swift:47-53 | the fragments of the arguments in argument order; a single argument is returned as it is |
| AttributedStrings.Concatenate | TVOSToast/TVOSToast.swift:47-53 | the loop appending every argument to a buffer yields exactly the arguments' fragments in argument order (`Flatten`) |
| AttributedStrings.FlattenAppend | TVOSToast/TVOSToast.swift:47-53 | concatenating two argument lists one after the other is concatenating their results |
| AttributedStrings.PlainTextAppend | TVOSToast/TVOSToast.swift:50 | the text of an appended string is the text of the buffer followed by the text appended |
| AttributedStrings.FlattenLength | TVOSToast/TVOSToast.swift:47-53 | the length of the concatenation is the sum of the lengths of the arguments |
| AttributedStrings.FlattenFragments | TVOSToast/TVOSToast.swift:47-53 | a fragment is in the concatenation if and only if it is in one of the arguments |
| AttributedStrings.ConcatenateRegroup | TVOSToast/TVOSToast.swift:47-53 | splitting the argument list at any point and concatenating twice gives the same result |
| RemoteButtons.RawValue | TVOSToast/TVOSToast.swift:58-68 | each case's raw value is its own name |
| RemoteButtons.RawValueRoundTrip | TVOSToast/TVOSToast.swift:58-68 | each case's raw value converts back to that case |
| RemoteButtons.FromRawValueExact | TVOSToast/TVOSToast.swift:58-68 | a string converts to a case if and only if it is that case's raw value |
| RemoteButtons.ImageName | TVOSToast/TVOSToast.swift:70-72 | the image name is prefix, raw value and extension in length, and reading the name back yields the button |
| RemoteButtons.ImageNameInjective | TVOSToast/TVOSToast.swift:58-72 | two buttons with the same image name are the same button |
| RemoteButtons.CatalogComplete | TVOSToast/TVOSToast.swift:58-68 | the ten-entry catalog contains every case |
| RemoteButtons.CatalogNamesDistinct | TVOSToast/TVOSToast.swift:58-72 | the ten catalog entries have pairwise distinct image names |
| RemoteButtons.AttributedStringOf | TVOSToast/TVOSToast.swift:74-76 | a single attachment, one character long, that names exactly this button's image and has the given bounds |
| HintTexts.GlyphBounds | TVOSToast/TVOSToast.swift:95-101 | the glyph is a square of side pointSize + 30 at x = 0, lowered by a quarter of its side |
| HintTexts.Build | TVOSToast/TVOSToast.swift:89-105 | the fragments of the elements, each string or button contributing its own and any other element nothing, in order |
| HintTexts.BuildAppend | TVOSToast/TVOSToast.swift:89-105 | building a list made of two parts is building each part and concatenating, in order |
| HintTexts.BuildExact | TVOSToast/TVOSToast.swift:89-105 | the result has one fragment per string or button element, and its k-th fragment is the one the k-th such element becomes |
| HintTexts.BuildSkipsOther | TVOSToast/TVOSToast.swift:91-103 | elements of any other type contribute nothing: dropping them leaves the result unchanged |
| HintTexts.BuildStyled | TVOSToast/TVOSToast.swift:92-101 | every text run has the given font and colour; every attachment names a button image and has the glyph bounds for the font |
| HintTexts.ExamplePressMenuToExit | TVOSToast/TVOSToast.swift:89-105 | "Press ", MenuWhite, " to exit" at 20 points gives three fragments, the glyph 50 by 50 at y = -12.5 |
| HintTexts.HintText.constructor | TVOSToast/TVOSToast.swift:85-87 | the hint text holds exactly the given elements |
| HintTexts.HintText.BuildAttributedString | TVOSToast/TVOSToast.swift:89-105 | the loop appending each element's fragment yields `Build` of the elements |
| Geometry.WithTop | TVOSToast/TVOSToast.swift:224 | `top = v` puts the minimum y at v and keeps x and the size |
| Geometry.WithLeft | TVOSToast/TVOSToast.swift:228 | `left = v` puts the minimum x at v and keeps y and the size |
| Geometry.WithRight | TVOSToast/TVOSToast.swift:231 | `right = v` puts the maximum x at v and keeps y and the size |
| Geometry.WithBottom | TVOSToast/TVOSToast.swift:233 | `bottom = v` puts the maximum y at v and keeps x and the size |
| Geometry.WithCenterX | TVOSToast/TVOSToast.swift:225 | `centerX = v` puts the mid x at v and keeps y and the size |
| Positions.Layout | TVOSToast/TVOSToast.swift:222-241 | the size is kept; per anchor the two edge equations hold (Top: y = insets, mid x = host width / 2; TopLeft: y = x = insets; TopRight: y = insets, max x = host right - insets; Bottom: max y = host bottom - insets, mid x = host width / 2; BottomLeft: max y = host bottom - insets, x = insets; BottomRight: max y = host bottom - insets, max x = host right - insets) |
| Positions.LayoutIgnoresOrigin | TVOSToast/TVOSToast.swift:222-241 | the toast's previous origin has no effect on where it is placed |
| Positions.LayoutIdempotent | TVOSToast/TVOSToast.swift:222-241 | laying out a laid-out toast again does not move it |
| Positions.LayoutInsideHost | TVOSToast/TVOSToast.swift:222-241 | for a host at the origin and a toast that fits with its insets, the toast lies inside the host |
| Positions.ExampleBottomOfScreen | TVOSToast/TVOSToast.swift:233-234 | an 800 by 140 toast at Bottom(20) on 1920 by 1080 has bottom 1060 and mid x 960 |
| Styles.EmptyStyle | TVOSToast/TVOSToast.swift:132-139 | `init()` leaves all six fields unset |
| Styles.Resolve | TVOSToast/TVOSToast.swift:192-197 | each set field is returned unchanged; each unset one becomes Bottom(20), 3, gray, 10, the headline font, white |
| Styles.ResolveEmpty | TVOSToast/TVOSToast.swift:132-139 | a style left at `init()` resolves to exactly the defaults |
| Styles.ResolveExplicit | TVOSToast/TVOSToast.swift:192-197 | a style with every field set resolves to those values whatever the platform font |
| Styles.ResolveIdempotent | TVOSToast/TVOSToast.swift:192-197 | resolving an already resolved style gives it back |
| Toasts.ShowContent | TVOSToast/TVOSToast.swift:206-214 | hint text, if set, is shown built in the resolved font and colour; else attributed text verbatim; else plain text with the resolved font and colour; else the label is unchanged |
| Toasts.HintTextWins | TVOSToast/TVOSToast.swift:206-207 | once hint text is set, attributed and plain text make no difference |
| Toasts.AttributedTextWinsOverText | TVOSToast/TVOSToast.swift:208-209 | without hint text, set attributed text is shown verbatim and plain text makes no difference |
| Toasts.StyleAppliedOnlyToPlainText | TVOSToast/TVOSToast.swift:206-214 | only the plain-text branch changes the label's own font and colour |
| Toasts.LifecycleOrdered | TVOSToast/TVOSToast.swift:200-264 | the lifecycle visits its phases strictly in order, the toast is attached at alpha 0, and it is removed only after fading out |
| Toasts.ValidHistory | TVOSToast/TVOSToast.swift:199-264 | in every reachable state the history is the lifecycle up to the current phase, and the toast is attached exactly from `addSubview` until `removeFromSuperview` |
| Toasts.Toast.constructor | TVOSToast/TVOSToast.swift:160-163 | a new toast has the given frame, the empty style, no content, alpha 1, no host, and is in the constructed phase |
| Toasts.Toast.WithStyle | TVOSToast/TVOSToast.swift:165-169 | as the plain constructor, with the given style |
| Toasts.Toast.Present | TVOSToast/TVOSToast.swift:189-265 | from the constructed phase: resolved background and corner radius, label as `ShowContent`, custom content added, frame as `Layout` against the host, attached to the host, alpha 1 and fading in, duration kept for the fade-out; history extended by attach-at-alpha-0 then fade-in |
| Toasts.Toast.Attach | TVOSToast/TVOSToast.swift:199-203 | background and corner radius applied, alpha 0, then attached to the host |
| Toasts.Toast.SetupText | TVOSToast/TVOSToast.swift:205-214 | the label becomes `ShowContent` of the hint, attributed and plain text |
| Toasts.Toast.SetupCustomContent | TVOSToast/TVOSToast.swift:216-219 | custom content, if set, is added to the content view, independently of the text |
| Toasts.Toast.SetupPosition | TVOSToast/TVOSToast.swift:221-241 | the frame becomes `Layout` of the old frame against the host at the anchor |
| Toasts.Toast.StartFadeIn | TVOSToast/TVOSToast.swift:244-251 | alpha becomes 1 and the resolved duration is kept for the completion |
| Toasts.Toast.FadeInCompleted | TVOSToast/TVOSToast.swift:252-260 | only from fade-in: the fade-out starts, alpha 0, with the resolved duration as its delay, still attached |
| Toasts.Toast.FadeOutCompleted | TVOSToast/TVOSToast.swift:261-263 | only from fade-out: the toast is removed from its host and the lifecycle ends |
| Toasts.PresentToast | TVOSToast/TVOSToast.swift:16-18 | presenting from a controller presents on its root view: attached, fading in, laid out against that view |

## Left out

- `TVOSToast/ViewController.swift` is not part of this model: it only wires a gesture recogniser to three example presentations.
- `init?(coder:)` (decoding a toast from an archive) is not modelled.
- UIKit internals: real fonts, colours and images, `Bundle` lookup, attachment rendering, label text layout, `numberOfLines` and `textAlignment`, and the frames `commonInit` gives its two subviews.
- The label's property interplay in UIKit (assigning `attributedText` also changing `text`, `font` and `textColor`) is not modelled; the label records the content and the font and colour that `presentOnView` assigns.
- `NSAttributedString` merges adjacent runs with equal attributes and keeps no run for empty text; the model keeps every fragment as appended, empty text runs included, so `HintTexts.BuildExact` counts one fragment for an empty string element. Lengths and plain texts agree either way.
- `mutableCopy()` at the end of `buildAttributedString` copies a value; in a value model it has no effect.
- Animation timing: the 0.3 s durations, spring damping, initial velocity, animation options and display refresh. Only the order of the phases and the fade-out delay are modelled; the completions are explicit calls.
- The `finished` flag of both completions is accepted and ignored, as in the code.
- Presenting a toast twice, or after removal, is unguarded in the code; `Toasts.Toast.Present` requires the constructed phase instead.
- The host's own list of subviews is not modelled; attachment is the toast's `superview`.
- Toasts.PresentToast: states the phase, host, alpha, style and frame after presentation, not the rest of `Toasts.Toast.Present`'s postcondition, because the wrapper adds nothing to it.

/**
 * The toast view: its configuration, the content and frame it takes on
 * at presentation, and the lifecycle of its animations.
 *
 * The animation completions are explicit calls (`FadeInCompleted`,
 * `FadeOutCompleted`) that the platform makes when each animation ends.
 * A ghost history records every phase the toast enters, with its alpha and
 * whether it is attached to a host at that moment.
 */
module Toasts {
  import opened Wrappers
  import opened Geometry
  import opened AttributedStrings
  import opened HintTexts
  import opened Positions
  import opened Styles

  /** A caller's custom content view, known only by identity. */
  datatype ViewRef = ViewRef(id: nat)

  /** What `textLabel` shows. */
  datatype LabelContent =
    | NoContent
    | PlainContent(text: string)
    | RichContent(attributed: AttributedString)

  /** The state of `textLabel` that presentation sets; `None` is the label's own default. */
  datatype Label = Label(content: LabelContent, font: Option<Font>, textColor: Option<Color>)

  /**
   * The label after content selection: hint text, if set, wins over
   * attributed text, which wins over plain text; with none set the label
   * is left as it was.
   */
  function ShowContent(shown: Label, hint: Option<seq<Element>>, attributed: Option<AttributedString>,
                       text: Option<string>, font: Font, color: Color): (l: Label)
    ensures hint.Some? ==> l == shown.(content := RichContent(Build(hint.value, font, color)))
    ensures hint.None? && attributed.Some? ==> l == shown.(content := RichContent(attributed.value))
    ensures hint.None? && attributed.None? && text.Some? ==>
      l == Label(PlainContent(text.value), Some(font), Some(color))
    ensures hint.None? && attributed.None? && text.None? ==> l == shown
  {
    if hint.Some? then shown.(content := RichContent(Build(hint.value, font, color)))
    else if attributed.Some? then shown.(content := RichContent(attributed.value))
    else if text.Some? then shown.(content := PlainContent(text.value), textColor := Some(color), font := Some(font))
    else shown
  }

  /** Once hint text is set, neither attributed nor plain text makes any difference. */
  lemma HintTextWins(shown: Label, hint: seq<Element>, a1: Option<AttributedString>, t1: Option<string>,
                     a2: Option<AttributedString>, t2: Option<string>, font: Font, color: Color)
    ensures ShowContent(shown, Some(hint), a1, t1, font, color) == ShowContent(shown, Some(hint), a2, t2, font, color)
  {
  }

  /** Without hint text, set attributed text makes plain text irrelevant, and is shown verbatim. */
  lemma AttributedTextWinsOverText(shown: Label, a: AttributedString, t1: Option<string>, t2: Option<string>,
                                   font: Font, color: Color)
    ensures ShowContent(shown, None, Some(a), t1, font, color) == ShowContent(shown, None, Some(a), t2, font, color)
    ensures ShowContent(shown, None, Some(a), t1, font, color).content == RichContent(a)
  {
  }

  /** Only plain text sets the label's own font and colour; the other sources leave them alone. */
  lemma StyleAppliedOnlyToPlainText(shown: Label, hint: Option<seq<Element>>, a: Option<AttributedString>,
                                    t: Option<string>, font: Font, color: Color)
    requires hint.Some? || a.Some?
    ensures var l := ShowContent(shown, hint, a, t, font, color);
      l.font == shown.font && l.textColor == shown.textColor
  {
  }

  // ------------------------------------------------------------------
  // Lifecycle

  datatype Phase = Constructed | Attached | FadingIn | FadingOut | Removed

  /** How many phases after construction `p` is. */
  function Stage(p: Phase): (n: nat)
    ensures n <= 4
  {
    match p
    case Constructed => 0
    case Attached => 1
    case FadingIn => 2
    case FadingOut => 3
    case Removed => 4
  }

  datatype Snapshot = Snapshot(phase: Phase, alpha: real, attached: bool)

  /**
   * The phases a presented toast goes through, in order: attached to the
   * host while fully transparent, faded in, faded out, removed.
   */
  const LIFECYCLE: seq<Snapshot> := [
    Snapshot(Attached, 0.0, true),
    Snapshot(FadingIn, 1.0, true),
    Snapshot(FadingOut, 0.0, true),
    Snapshot(Removed, 0.0, false)]

  /**
   * The lifecycle visits the phases strictly in order, the toast is
   * transparent whenever it is attached outside fade-in, and it is never
   * removed before it has faded out.
   */
  lemma LifecycleOrdered(i: nat, j: nat)
    requires i < j < |LIFECYCLE|
    ensures Stage(LIFECYCLE[i].phase) < Stage(LIFECYCLE[j].phase)
    ensures LIFECYCLE[j].phase == Removed ==> exists k :: i <= k < j && LIFECYCLE[k].phase == FadingOut
    ensures LIFECYCLE[i].phase == Attached ==> LIFECYCLE[i].alpha == 0.0 && LIFECYCLE[i].attached
  {
    if LIFECYCLE[j].phase == Removed {
      assert LIFECYCLE[2].phase == FadingOut;
    }
  }

  /** The host view a toast is presented on; only its frame matters here. */
  class HostView {
    var frame: Rect

    constructor (frame: Rect)
      ensures this.frame == frame
    {
      this.frame := frame;
    }
  }

  /** `TVOSToast` */
  class Toast {
    // configuration, set by the caller before presentation
    var style: Style
    var customContent: Option<ViewRef>
    var text: Option<string>
    var attributedText: Option<AttributedString>
    var hintText: HintText?

    // the subviews made by `commonInit`
    var contentSubviews: seq<ViewRef>
    var textLabel: Label

    // the view's own state
    var frame: Rect
    var backgroundColor: Option<Color>
    var cornerRadius: real
    var alpha: real
    var superview: HostView?

    // the animation sequence
    var phase: Phase
    /** The resolved duration, captured by the fade-in completion. */
    var capturedDuration: real
    /** The delay the fade-out animation was started with. */
    var fadeOutDelay: Option<real>
    ghost var history: seq<Snapshot>

    /**
     * The history is the prefix of the lifecycle up to the current phase,
     * and alpha, attachment and the fade-out delay are those of the phase.
     */
    ghost predicate Valid()
      reads this`history, this`phase, this`alpha, this`superview, this`fadeOutDelay, this`capturedDuration
    {
      && |history| == Stage(phase) && history <= LIFECYCLE
      && match phase
         case Constructed => superview == null && fadeOutDelay.None?
         case Attached => alpha == 0.0 && superview != null && fadeOutDelay.None?
         case FadingIn => alpha == 1.0 && superview != null && fadeOutDelay.None?
         case FadingOut => alpha == 0.0 && superview != null && fadeOutDelay == Some(capturedDuration)
         case Removed => alpha == 0.0 && superview == null && fadeOutDelay == Some(capturedDuration)
    }

    /** The hint text's elements, if hint text is set. */
    function HintElements(): (h: Option<seq<Element>>)
      reads this`hintText, hintText
      ensures h.Some? <==> hintText != null
      ensures hintText != null ==> h.value == hintText.elements
    {
      if hintText == null then None else Some(hintText.elements)
    }

    /** `init(frame:)` */
    constructor (frame: Rect)
      ensures Valid() && phase == Constructed && superview == null
      ensures this.frame == frame && style == EmptyStyle()
      ensures customContent.None? && text.None? && attributedText.None? && hintText == null
      ensures contentSubviews == [] && textLabel == Label(NoContent, None, None)
      ensures backgroundColor.None? && cornerRadius == 0.0 && alpha == 1.0
    {
      this.style := EmptyStyle();
      this.customContent, this.text, this.attributedText, this.hintText := None, None, None, null;
      this.contentSubviews, this.textLabel := [], Label(NoContent, None, None);
      this.frame, this.backgroundColor, this.cornerRadius, this.alpha := frame, None, 0.0, 1.0;
      this.superview := null;
      this.phase, this.capturedDuration, this.fadeOutDelay := Constructed, 0.0, None;
      this.history := [];
    }

    /** `init(frame:style:)` */
    constructor WithStyle(frame: Rect, style: Style)
      ensures Valid() && phase == Constructed && superview == null
      ensures this.frame == frame && this.style == style
      ensures customContent.None? && text.None? && attributedText.None? && hintText == null
      ensures contentSubviews == [] && textLabel == Label(NoContent, None, None)
      ensures backgroundColor.None? && cornerRadius == 0.0 && alpha == 1.0
    {
      this.style := style;
      this.customContent, this.text, this.attributedText, this.hintText := None, None, None, null;
      this.contentSubviews, this.textLabel := [], Label(NoContent, None, None);
      this.frame, this.backgroundColor, this.cornerRadius, this.alpha := frame, None, 0.0, 1.0;
      this.superview := null;
      this.phase, this.capturedDuration, this.fadeOutDelay := Constructed, 0.0, None;
      this.history := [];
    }

    /**
     * `presentOnView(view:)`: resolves the style, attaches the toast to
     * `host` fully transparent, fills in its content, lays it out at its
     * anchor and starts the fade-in. `headline` is the platform's preferred
     * headline font.
     */
    method Present(host: HostView, headline: Font)
      requires Valid() && phase == Constructed
      modifies this`backgroundColor, this`cornerRadius, this`alpha, this`superview, this`textLabel,
               this`contentSubviews, this`frame, this`phase, this`capturedDuration, this`history
      ensures Valid()
      ensures var rs := Resolve(style, headline);
        && backgroundColor == Some(rs.backgroundColor) && cornerRadius == rs.cornerRadius
        && textLabel == ShowContent(old(textLabel), old(HintElements()), attributedText, text, rs.font, rs.textColor)
        && frame == Layout(old(frame), host.frame, rs.position)
        && capturedDuration == rs.duration
      ensures contentSubviews == old(contentSubviews) + (if customContent.Some? then [customContent.value] else [])
      ensures superview == host && alpha == 1.0 && phase == FadingIn && fadeOutDelay.None?
      ensures history == old(history) + [Snapshot(Attached, 0.0, true), Snapshot(FadingIn, 1.0, true)]
    {
      // get style
      var resolved := Resolve(style, headline);
      var position, duration, font, textColor := resolved.position, resolved.duration, resolved.font, resolved.textColor;

      // setup style, then attach
      Attach(host, resolved.backgroundColor, resolved.cornerRadius);

      // setup text
      SetupText(font, textColor);

      // setup custom content
      SetupCustomContent();

      // setup position
      SetupPosition(host, position);

      // animate toast
      StartFadeIn(duration);
    }

    /** The "setup style" step of `presentOnView`, ending with `view.addSubview(self)` at alpha 0. */
    method Attach(host: HostView, background: Color, radius: real)
      requires Valid() && phase == Constructed
      modifies this`backgroundColor, this`cornerRadius, this`alpha, this`superview, this`phase, this`history
      ensures Valid()
      ensures backgroundColor == Some(background) && cornerRadius == radius
      ensures alpha == 0.0 && superview == host && phase == Attached
      ensures history == old(history) + [Snapshot(Attached, 0.0, true)]
    {
      backgroundColor := Some(background);
      cornerRadius := radius;
      alpha := 0.0;
      superview := host;
      phase := Attached;
      history := history + [Snapshot(phase, alpha, superview != null)];
    }

    /** The first animation of `presentOnView`: alpha to 1; its completion keeps `duration`. */
    method StartFadeIn(duration: real)
      requires Valid() && phase == Attached
      modifies this`alpha, this`phase, this`capturedDuration, this`history
      ensures Valid()
      ensures alpha == 1.0 && phase == FadingIn && capturedDuration == duration
      ensures superview == old(superview) && fadeOutDelay.None?
      ensures history == old(history) + [Snapshot(FadingIn, 1.0, true)]
    {
      alpha := 1.0;
      phase := FadingIn;
      capturedDuration := duration;
      history := history + [Snapshot(phase, alpha, superview != null)];
    }

    /** The "setup custom content" step of `presentOnView`. */
    method SetupCustomContent()
      modifies this`contentSubviews
      ensures contentSubviews == old(contentSubviews) + (if customContent.Some? then [customContent.value] else [])
    {
      if customContent.Some? {
        contentSubviews := contentSubviews + [customContent.value];
      }
    }

    /** The "setup text" step of `presentOnView`: content selection by priority. */
    method SetupText(font: Font, textColor: Color)
      modifies this`textLabel
      ensures textLabel == ShowContent(old(textLabel), old(HintElements()), attributedText, text, font, textColor)
    {
      if hintText != null {
        var built := hintText.BuildAttributedString(font, textColor);
        textLabel := textLabel.(content := RichContent(built));
      } else if attributedText.Some? {
        textLabel := textLabel.(content := RichContent(attributedText.value));
      } else if text.Some? {
        textLabel := textLabel.(content := PlainContent(text.value));
        textLabel := textLabel.(textColor := Some(textColor));
        textLabel := textLabel.(font := Some(font));
      }
    }

    /** The "setup position" step of `presentOnView`: two edge setters per anchor. */
    method SetupPosition(host: HostView, position: Position)
      modifies this`frame
      ensures frame == Layout(old(frame), host.frame, position)
    {
      match position {
        case Top(insets) =>
          frame := WithTop(frame, insets);
          frame := WithCenterX(frame, host.frame.width / 2.0);
        case TopLeft(insets) =>
          frame := WithTop(frame, insets);
          frame := WithLeft(frame, insets);
        case TopRight(insets) =>
          frame := WithTop(frame, insets);
          frame := WithRight(frame, MaxX(host.frame) - insets);
        case Bottom(insets) =>
          frame := WithBottom(frame, MaxY(host.frame) - insets);
          frame := WithCenterX(frame, host.frame.width / 2.0);
        case BottomLeft(insets) =>
          frame := WithBottom(frame, MaxY(host.frame) - insets);
          frame := WithLeft(frame, insets);
        case BottomRight(insets) =>
          frame := WithBottom(frame, MaxY(host.frame) - insets);
          frame := WithRight(frame, MaxX(host.frame) - insets);
      }
    }

    /**
     * The fade-in's completion: starts the fade-out to alpha 0, delayed by
     * the resolved duration. `finished` is ignored, as in the source.
     */
    method FadeInCompleted(finished: bool)
      requires Valid() && phase == FadingIn
      modifies this`alpha, this`phase, this`fadeOutDelay, this`history
      ensures Valid()
      ensures alpha == 0.0 && phase == FadingOut && fadeOutDelay == Some(capturedDuration)
      ensures superview == old(superview) && superview != null
      ensures history == old(history) + [Snapshot(FadingOut, 0.0, true)]
    {
      fadeOutDelay := Some(capturedDuration);
      alpha := 0.0;
      phase := FadingOut;
      history := history + [Snapshot(phase, alpha, superview != null)];
    }

    /** The fade-out's completion: `removeFromSuperview()`. `finished` is ignored. */
    method FadeOutCompleted(finished: bool)
      requires Valid() && phase == FadingOut
      modifies this`superview, this`phase, this`history
      ensures Valid()
      ensures superview == null && phase == Removed && alpha == 0.0
      ensures history == old(history) + [Snapshot(Removed, 0.0, false)]
    {
      superview := null;
      phase := Removed;
      history := history + [Snapshot(phase, alpha, superview != null)];
    }
  }

  /**
   * In every valid state the history is the lifecycle up to the current
   * phase, a removed toast has been through all of it, and the toast is
   * attached exactly between attachment and removal.
   */
  lemma ValidHistory(t: Toast)
    requires t.Valid()
    ensures t.history == LIFECYCLE[..Stage(t.phase)]
    ensures t.phase == Removed ==> t.history == LIFECYCLE
    ensures t.superview != null <==> t.phase in {Attached, FadingIn, FadingOut}
  {
  }

  /** `UIViewController.presentToast(toast:)`: presents on the controller's root view. */
  method PresentToast(view: HostView, toast: Toast, headline: Font)
    requires toast.Valid() && toast.phase == Constructed
    modifies toast
    ensures toast.Valid() && toast.phase == FadingIn && toast.superview == view && toast.alpha == 1.0
    ensures toast.style == old(toast.style)
    ensures toast.frame == Layout(old(toast.frame), view.frame, Resolve(toast.style, headline).position)
  {
    toast.Present(view, headline);
  }
}

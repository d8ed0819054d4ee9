/**
 * The panel of buttons. A click on a template part sets the panel's result
 * and raises Click, or raises HelpRequest or ExpandDetails. After the box is
 * rendered, the default button is focused: the part the requested default
 * names if it is visible, otherwise a default computed from the button set.
 */
module ButtonsPanel {
  import opened Wrappers
  import opened Enums
  import Strings

  const SingleOKPart := "PART_SingleOKButton"
  const OKPart := "PART_OKButton"
  const YesPart := "PART_YesButton"
  const YesToAllPart := "PART_YesToAllButton"
  const NoPart := "PART_NoButton"
  const NoToAllPart := "PART_NoToAllButton"
  const RetryPart := "PART_RetryButton"
  const IgnorePart := "PART_IgnoreButton"
  const CancelPart := "PART_CancelButton"
  const AbortPart := "PART_AbortButton"
  const HelpPart := "PART_HelpButton"
  const TryAgainPart := "PART_TryAgainButton"
  const ContinuePart := "PART_ContinueButton"
  /** The toggle of the details expander. */
  const HeaderSitePart := "HeaderSite"

  /** What a click on the part with a given name does. */
  datatype ClickEffect = Pressed(result: MessageBoxResult) | HelpRequested | DetailsToggled | NoEffect

  /** The routed events the panel raises. */
  datatype PanelEvent = Click | HelpRequest | ExpandDetails

  /** The parts whose click yields result `r`. */
  function PartsFor(r: MessageBoxResult): set<string> {
    match r
    case OK => {SingleOKPart, OKPart}
    case Yes => {YesPart}
    case YesToAll => {YesToAllPart}
    case No => {NoPart}
    case NoToAll => {NoToAllPart}
    case Retry => {RetryPart, TryAgainPart}
    case Ignore => {IgnorePart}
    case Cancel => {CancelPart}
    case Abort => {AbortPart}
    case Continue => {ContinuePart}
    case None => {}
  }

  /** The click table, case by case. */
  function ClickOutcome(name: string): (e: ClickEffect)
    ensures e.Pressed? ==> e.result != MessageBoxResult.None && name in PartsFor(e.result)
    ensures e == HelpRequested <==> name == HelpPart
    ensures e == DetailsToggled <==> name == HeaderSitePart
  {
    if name == SingleOKPart then Pressed(MessageBoxResult.OK)
    else if name == OKPart then Pressed(MessageBoxResult.OK)
    else if name == YesPart then Pressed(Yes)
    else if name == YesToAllPart then Pressed(YesToAll)
    else if name == NoPart then Pressed(No)
    else if name == NoToAllPart then Pressed(NoToAll)
    else if name == RetryPart then Pressed(Retry)
    else if name == IgnorePart then Pressed(Ignore)
    else if name == CancelPart then Pressed(Cancel)
    else if name == AbortPart then Pressed(Abort)
    else if name == TryAgainPart then Pressed(Retry)
    else if name == ContinuePart then Pressed(Continue)
    else if name == HelpPart then HelpRequested
    else if name == HeaderSitePart then DetailsToggled
    else NoEffect
  }

  /** Clicking a part yields `r` exactly when it is one of `r`'s parts; no part yields None. */
  lemma ClickOutcomeMatchesParts(name: string, r: MessageBoxResult)
    ensures ClickOutcome(name) == Pressed(r) <==> name in PartsFor(r)
    ensures ClickOutcome(name) != Pressed(MessageBoxResult.None)
  {
  }

  /** The part the computed default focuses for each button set. */
  function DefaultPart(b: MessageBoxButtons): (p: string)
    ensures ClickOutcome(p).Pressed?
    ensures p == SingleOKPart <==> b == MessageBoxButtons.OK
  {
    match b
    case OK => SingleOKPart
    case OKCancel => OKPart
    case RetryCancel => RetryPart
    case AbortRetryIgnore => RetryPart
    case YesNo => YesPart
    case YesNoCancel => YesPart
    case CancelTryAgainContinue => TryAgainPart
  }

  /** Clicking the computed default part yields one of the results of the button set. */
  lemma DefaultPartBelongsToButtons(b: MessageBoxButtons)
    ensures ClickOutcome(DefaultPart(b)).Pressed?
    ensures ClickOutcome(DefaultPart(b)).result in ButtonResults(b)
  {
  }

  /**
   * The part a requested default button asks for first; None when the
   * default is computed. OK means the single OK button only for the OK set;
   * Retry asks for Try Again first.
   */
  function RequestedPart(d: MessageBoxResult, b: MessageBoxButtons): (p: Option<string>)
    ensures p.None? <==> d == MessageBoxResult.None
    ensures p.Some? ==> p.value in PartsFor(d)
  {
    match d
    case Abort => Some(AbortPart)
    case Cancel => Some(CancelPart)
    case Ignore => Some(IgnorePart)
    case No => Some(NoPart)
    case None => Option.None
    case Continue => Some(ContinuePart)
    case OK => Some(if b == MessageBoxButtons.OK then SingleOKPart else OKPart)
    case Retry => Some(TryAgainPart)
    case Yes => Some(YesPart)
    case YesToAll => Some(YesToAllPart)
    case NoToAll => Some(NoToAllPart)
  }

  /** The part a requested default asks for is one that, clicked, yields that very result. */
  lemma RequestedPartClicksBack(d: MessageBoxResult, b: MessageBoxButtons)
    requires d != MessageBoxResult.None
    ensures RequestedPart(d, b).Some?
    ensures ClickOutcome(RequestedPart(d, b).value) == Pressed(d)
    ensures d == MessageBoxResult.OK ==> (RequestedPart(d, b).value == SingleOKPart <==> b == MessageBoxButtons.OK)
  {
  }

  /**
   * The part `SetDefaultButtonNamed(name)` hands on to, through
   * `CalculateDefaultButton`, when `name` is not visible; none when the part is
   * focused directly. `SetDefaultButtonNamed` focuses that part and measures its
   * recursion by it.
   */
  function NextCall(name: string, b: MessageBoxButtons, visible: set<string>): Option<string> {
    if name in visible then Option.None else Some(DefaultPart(b))
  }

  /**
   * Without a visible requested part and a visible default part, the fallback
   * never stops: `SetDefaultButtonNamed` hands on to the default part, and the
   * call for the default part hands on to itself.
   */
  lemma FallbackLoopsWhenDefaultHidden(name: string, b: MessageBoxButtons, visible: set<string>)
    requires name !in visible && DefaultPart(b) !in visible
    ensures NextCall(name, b, visible) == Some(DefaultPart(b))
    ensures NextCall(DefaultPart(b), b, visible) == Some(DefaultPart(b))
  {
  }

  /** The focus calls one attempt to focus `name` makes, and whether it reported success. */
  datatype Attempt = Attempt(focuses: seq<string>, hit: bool)

  function TryFocus(name: string, b: MessageBoxButtons, visible: set<string>): (a: Attempt)
    requires name in visible || DefaultPart(b) in visible
    ensures a.hit <==> name in visible
    ensures |a.focuses| == 1 && a.focuses[0] in visible
  {
    if name in visible then Attempt([name], true) else Attempt([DefaultPart(b)], false)
  }

  /** The default button can be resolved without endless fallback. */
  predicate CanResolve(d: MessageBoxResult, b: MessageBoxButtons, visible: set<string>) {
    DefaultPart(b) in visible || (RequestedPart(d, b).Some? && RequestedPart(d, b).value in visible)
  }

  /** The focus calls resolving the default button makes, in order. */
  function DefaultButtonFocus(d: MessageBoxResult, b: MessageBoxButtons, visible: set<string>): (f: seq<string>)
    requires CanResolve(d, b, visible)
    ensures 1 <= |f| <= 2
    ensures |f| == 2 ==> d == Retry && f[0] == DefaultPart(b)
    ensures f[|f| - 1] in visible
  {
    match RequestedPart(d, b)
    case None => [DefaultPart(b)]
    case Some(p) =>
      var first := TryFocus(p, b, visible);
      if d == Retry && !first.hit then first.focuses + TryFocus(RetryPart, b, visible).focuses
      else first.focuses
  }

  /** Resolution always ends focused on a visible part, and every part it focuses is visible. */
  lemma FocusEndsOnVisiblePart(d: MessageBoxResult, b: MessageBoxButtons, visible: set<string>)
    requires CanResolve(d, b, visible)
    ensures 1 <= |DefaultButtonFocus(d, b, visible)| <= 2
    ensures forall i :: 0 <= i < |DefaultButtonFocus(d, b, visible)| ==> DefaultButtonFocus(d, b, visible)[i] in visible
  {
  }

  /**
   * Where resolution ends: a visible requested part wins; Retry falls back to
   * the Retry part before the computed default; otherwise the computed default.
   */
  lemma FocusTarget(d: MessageBoxResult, b: MessageBoxButtons, visible: set<string>)
    requires CanResolve(d, b, visible)
    ensures var f := DefaultButtonFocus(d, b, visible);
      && (d == MessageBoxResult.None ==> f == [DefaultPart(b)])
      && (RequestedPart(d, b).Some? && RequestedPart(d, b).value in visible ==> f == [RequestedPart(d, b).value])
      && (d == Retry && TryAgainPart !in visible ==> f == [DefaultPart(b), if RetryPart in visible then RetryPart else DefaultPart(b)])
      && (d != Retry && RequestedPart(d, b).Some? && RequestedPart(d, b).value !in visible ==> f == [DefaultPart(b)])
  {
  }

  /** The part that resolution leaves focused, clicked, yields the requested result, or a result of the set. */
  lemma FocusedPartResult(d: MessageBoxResult, b: MessageBoxButtons, visible: set<string>)
    requires CanResolve(d, b, visible)
    ensures var f := DefaultButtonFocus(d, b, visible);
      var effect := ClickOutcome(f[|f| - 1]);
      effect.Pressed? && (effect.result == d || effect.result in ButtonResults(b))
  {
    FocusTarget(d, b, visible);
    DefaultPartBelongsToButtons(b);
    if d != MessageBoxResult.None {
      RequestedPartClicksBack(d, b);
    }
  }

  class MessageBoxButtonsPanel {
    var result: MessageBoxResult
    var buttons: MessageBoxButtons
    var defaultButton: MessageBoxResult
    var strings: Strings.MessageBoxStrings?
    var showHelpButton: bool
    var showYesToAllButton: bool
    var showNoToAllButton: bool
    var showDoNotShowAgainCheckBox: bool
    var isDoNotShowAgainChecked: bool
    var showDetails: bool
    /** The names of the template parts that are currently visible. */
    var visibleParts: set<string>
    /** The events raised so far, oldest first. */
    var raised: seq<PanelEvent>
    /** Every keyboard-focus call made so far, oldest first; the last one holds the focus. */
    var focusLog: seq<string>

    /** The dependency-property defaults. */
    constructor (visible: set<string>)
      ensures result == MessageBoxResult.None && buttons == MessageBoxButtons.OK && defaultButton == MessageBoxResult.None
      ensures strings == null
      ensures !showHelpButton && !showYesToAllButton && !showNoToAllButton
      ensures !showDoNotShowAgainCheckBox && !isDoNotShowAgainChecked && !showDetails
      ensures visibleParts == visible && raised == [] && focusLog == []
    {
      result := MessageBoxResult.None;
      buttons := MessageBoxButtons.OK;
      defaultButton := MessageBoxResult.None;
      strings := null;
      showHelpButton, showYesToAllButton, showNoToAllButton := false, false, false;
      showDoNotShowAgainCheckBox, isDoNotShowAgainChecked, showDetails := false, false, false;
      visibleParts := visible;
      raised, focusLog := [], [];
    }

    /**
     * A click on the part `name`: a result part sets Result and raises Click
     * once; Help and the details header raise their event and leave Result
     * alone; any other name changes nothing.
     */
    method OnMessageBoxButtonClick(name: string)
      modifies this`result, this`raised
      ensures ClickOutcome(name).Pressed? ==> result == ClickOutcome(name).result && raised == old(raised) + [Click]
      ensures ClickOutcome(name) == HelpRequested ==> result == old(result) && raised == old(raised) + [HelpRequest]
      ensures ClickOutcome(name) == DetailsToggled ==> result == old(result) && raised == old(raised) + [ExpandDetails]
      ensures ClickOutcome(name) == NoEffect ==> result == old(result) && raised == old(raised)
    {
      if name == SingleOKPart {
        result := MessageBoxResult.OK;
      } else if name == OKPart {
        result := MessageBoxResult.OK;
      } else if name == YesPart {
        result := Yes;
      } else if name == YesToAllPart {
        result := YesToAll;
      } else if name == NoPart {
        result := No;
      } else if name == NoToAllPart {
        result := NoToAll;
      } else if name == RetryPart {
        result := Retry;
      } else if name == IgnorePart {
        result := Ignore;
      } else if name == CancelPart {
        result := Cancel;
      } else if name == AbortPart {
        result := Abort;
      } else if name == TryAgainPart {
        result := Retry;
      } else if name == ContinuePart {
        result := Continue;
      } else if name == HelpPart {
        raised := raised + [HelpRequest];
        return;
      } else if name == HeaderSitePart {
        raised := raised + [ExpandDetails];
        return;
      } else {
        return;
      }
      raised := raised + [Click];
    }

    /** Focuses the requested default button, falling back to the computed one. */
    method SetDefaultButton()
      requires CanResolve(defaultButton, buttons, visibleParts)
      modifies this`focusLog
      ensures focusLog == old(focusLog) + DefaultButtonFocus(defaultButton, buttons, visibleParts)
    {
      match defaultButton {
        case Abort => var _ := SetDefaultButtonNamed(AbortPart);
        case Cancel => var _ := SetDefaultButtonNamed(CancelPart);
        case Ignore => var _ := SetDefaultButtonNamed(IgnorePart);
        case No => var _ := SetDefaultButtonNamed(NoPart);
        case None => CalculateDefaultButton();
        case Continue => var _ := SetDefaultButtonNamed(ContinuePart);
        case OK => var _ := SetDefaultButtonNamed(if buttons == MessageBoxButtons.OK then SingleOKPart else OKPart);
        case Retry =>
          var hit := SetDefaultButtonNamed(TryAgainPart);
          if !hit {
            var _ := SetDefaultButtonNamed(RetryPart);
          }
        case Yes => var _ := SetDefaultButtonNamed(YesPart);
        case YesToAll => var _ := SetDefaultButtonNamed(YesToAllPart);
        case NoToAll => var _ := SetDefaultButtonNamed(NoToAllPart);
      }
    }

    /** Focuses the part computed from the button set. */
    method CalculateDefaultButton()
      requires DefaultPart(buttons) in visibleParts
      modifies this`focusLog
      ensures focusLog == old(focusLog) + [DefaultPart(buttons)]
      decreases 1
    {
      match buttons {
        case OK => var _ := SetDefaultButtonNamed(SingleOKPart);
        case OKCancel => var _ := SetDefaultButtonNamed(OKPart);
        case RetryCancel => var _ := SetDefaultButtonNamed(RetryPart);
        case AbortRetryIgnore => var _ := SetDefaultButtonNamed(RetryPart);
        case YesNo => var _ := SetDefaultButtonNamed(YesPart);
        case YesNoCancel => var _ := SetDefaultButtonNamed(YesPart);
        case CancelTryAgainContinue => var _ := SetDefaultButtonNamed(TryAgainPart);
      }
    }

    /**
     * Focuses `name` and reports true when that part is visible; otherwise
     * focuses the computed default and reports false. The two methods call
     * each other; the precondition is exactly what makes that terminate.
     */
    method SetDefaultButtonNamed(name: string) returns (hit: bool)
      requires name in visibleParts || DefaultPart(buttons) in visibleParts
      modifies this`focusLog
      ensures hit == TryFocus(name, buttons, visibleParts).hit
      ensures focusLog == old(focusLog) + TryFocus(name, buttons, visibleParts).focuses
      ensures NextCall(name, buttons, visibleParts).Some? ==> focusLog == old(focusLog) + [NextCall(name, buttons, visibleParts).value]
      decreases if NextCall(name, buttons, visibleParts).None? then 0 else 2
    {
      if name in visibleParts {
        focusLog := focusLog + [name];
        return true;
      }
      CalculateDefaultButton();
      return false;
    }
  }
}

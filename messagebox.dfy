/**
 * The static entry point. Every overload of `Show` fills in the arguments it
 * lacks and ends in the full `Show`, which rejects null options, builds the
 * window, applies the window options, shows the window modally and turns the
 * way it was left into a result.
 */
module MessageBox {
  import opened Wrappers
  import opened Wpf
  import opened Text
  import opened Enums
  import opened Options
  import opened Window

  /**
   * What `Show` throws: null options, or the framework's `ArgumentException`
   * for a window size limit whose value it rejects.
   */
  datatype ShowError = ArgumentNullException(paramName: string) | ArgumentException(property: LimitProperty)

  /**
   * How the modal dialog ends: a button of the panel is clicked, with the
   * result the panel reports, or the window is closed some other way (the
   * title bar, Alt+F4, Escape).
   */
  datatype Dismissal = ByButton(panelResult: MessageBoxResult) | WithoutButton

  /**
   * A dismissal the window lets through: a close without a button is vetoed
   * for the sets without a cancel choice, and a button always reports one of
   * the results its parts stand for, never None.
   */
  predicate CanDismiss(b: MessageBoxButtons, d: Dismissal) {
    && (d.ByButton? ==> d.panelResult != MessageBoxResult.None)
    && (d.ByButton? || !ClosingVetoed(false, b))
  }

  /** The result when the dialog is left without a button: OK for the OK set, Cancel for every other. */
  function Fallback(b: MessageBoxButtons): (r: MessageBoxResult)
    ensures r == MessageBoxResult.OK <==> b == MessageBoxButtons.OK
    ensures r == MessageBoxResult.OK || r == MessageBoxResult.Cancel
  {
    if b == MessageBoxButtons.OK then MessageBoxResult.OK else MessageBoxResult.Cancel
  }

  /**
   * A window can be left without a button exactly when that gives a result
   * one of its buttons could have given.
   */
  lemma FallbackOnTheButtons(b: MessageBoxButtons)
    ensures Fallback(b) in ButtonResults(b) <==> !ClosingVetoed(false, b)
  {
  }

  /** What `Show` returns for a dismissal. */
  function Outcome(b: MessageBoxButtons, d: Dismissal): (r: MessageBoxResult)
    requires CanDismiss(b, d)
    ensures d.ByButton? ==> r == d.panelResult
    ensures d.WithoutButton? ==> r == Fallback(b) && r in ButtonResults(b)
  {
    FallbackOnTheButtons(b);
    match d
    case ByButton(result) => result
    case WithoutButton => Fallback(b)
  }

  /**
   * The window options as `SetWindowOptions` leaves them on a window: the
   * normalised startup location, Left and Top from the position when Manual,
   * and the resize mode, taskbar flag, limits and sizing of the options.
   */
  predicate WindowOptionsApplied(box: MessageBoxWindow, wo: WindowOptionsContainer)
    reads box`startupLocation, box`owner, box`left, box`top, box`resizeMode, box`showInTaskbar
    reads box`minWidth, box`maxWidth, box`minHeight, box`maxHeight, box`sizeToContent, box`snapsToDevicePixels, wo
  {
    && box.startupLocation == EffectiveStartupLocation(wo.startupLocation, box.owner.Some?)
    && (box.startupLocation == WindowStartupLocation.Manual ==> box.left == Px(wo.position.x) && box.top == Px(wo.position.y))
    && box.resizeMode == wo.resizeMode && box.showInTaskbar == wo.showInTaskbar
    && box.minWidth == wo.minWidth && box.maxWidth == wo.maxWidth
    && box.minHeight == wo.minHeight && box.maxHeight == wo.maxHeight
    && box.sizeToContent == WidthAndHeight && box.snapsToDevicePixels
  }

  /** The chrome of a window whose title bar was set up once: exactly what the title-bar plan calls for. */
  predicate TitleBarSetUp(box: MessageBoxWindow, wo: WindowOptionsContainer)
    reads box`buttons, box`systemMenuDisabled, box`icon, box`minimizeDisabled, box`maximizeDisabled, box`closeButtonDisabled, wo
  {
    var plan := PlanTitleBar(wo.showSystemMenu, wo.icon, wo.resizeMode, box.buttons);
    && box.systemMenuDisabled == plan.disableSystemMenu
    && box.icon == plan.applyIcon
    && box.minimizeDisabled == plan.disableMinimize
    && box.maximizeDisabled == plan.disableMaximize
    && box.closeButtonDisabled == plan.disableClose
  }

  /**
   * The window the full `Show` creates, with the window options applied,
   * before it is shown; `rejected` is the limit whose value the framework
   * refused, where applying the options threw.
   */
  method NewBox(owner: Option<WindowRef>, messageBoxText: NullableString, caption: NullableString, buttons: MessageBoxButtons,
                icon: MessageBoxImages, defaultButton: MessageBoxResult, options: MessageBoxOptions)
    returns (box: MessageBoxWindow, rejected: Option<LimitProperty>)
    ensures fresh(box)
    ensures && box.owner == owner && box.message == messageBoxText && box.title == caption.GetOr("")
            && box.buttons == buttons && box.image == icon && box.defaultButton == defaultButton
            && box.options == options
    ensures !box.closeByButtons && box.dialogResult == Option.None && !box.closeButtonDisabled
    ensures !box.systemMenuDisabled && !box.minimizeDisabled && !box.maximizeDisabled && box.icon == Option.None
    ensures !box.closed
    ensures rejected == options.windowOptions.Rejected()
    ensures rejected.None? ==> WindowOptionsApplied(box, options.windowOptions)
  {
    box := new MessageBoxWindow(owner, messageBoxText, caption.GetOr(""), buttons, icon, defaultButton, options);
    rejected := box.SetWindowOptions(options.windowOptions);
  }

  /** Once the window has a handle its title bar is set up: a fresh window gets exactly the planned chrome. */
  method SetUpTitleBar(box: MessageBoxWindow)
    requires box.options != null
    requires !box.systemMenuDisabled && !box.minimizeDisabled && !box.maximizeDisabled && !box.closeButtonDisabled
    requires box.icon == Option.None
    modifies box`icon, box`systemMenuDisabled, box`minimizeDisabled, box`maximizeDisabled, box`closeButtonDisabled
    ensures TitleBarSetUp(box, box.options.windowOptions)
  {
    box.SetTitleBarItems();
  }

  /**
   * `ShowDialog`: the title bar is set up once the window has a handle, then
   * the window stays open until it is left as `dismissal` says.
   */
  method ShowDialog(box: MessageBoxWindow, dismissal: Dismissal)
    requires box.options != null && CanDismiss(box.buttons, dismissal)
    requires !box.closeByButtons && box.dialogResult == Option.None
    requires !box.systemMenuDisabled && !box.minimizeDisabled && !box.maximizeDisabled && !box.closeButtonDisabled
    requires box.icon == Option.None
    modifies box`icon, box`systemMenuDisabled, box`minimizeDisabled, box`maximizeDisabled, box`closeButtonDisabled
    modifies box`result, box`closeByButtons, box`dialogResult, box`closed
    ensures box.closed
    ensures box.dialogResult == Some(true) <==> dismissal.ByButton?
    ensures dismissal.ByButton? ==> box.result == dismissal.panelResult
    ensures TitleBarSetUp(box, box.options.windowOptions)
  {
    SetUpTitleBar(box);
    match dismissal {
      case ByButton(panelResult) =>
        box.OnButtonClick(panelResult);
      case WithoutButton =>
        box.Close();
    }
  }

  /**
   * The window built from the arguments and the options. When the framework
   * rejects a limit the window is never shown. Otherwise it is shown modally
   * and left as `dismissal` says: it carries the arguments, the applied window
   * options and the planned chrome, and it ends closed.
   */
  method Present(owner: Option<WindowRef>, messageBoxText: NullableString, caption: NullableString, buttons: MessageBoxButtons,
                icon: MessageBoxImages, defaultButton: MessageBoxResult, options: MessageBoxOptions, dismissal: Dismissal)
    returns (box: MessageBoxWindow, rejected: Option<LimitProperty>)
    requires CanDismiss(buttons, dismissal)
    ensures && box.owner == owner && box.message == messageBoxText && box.title == caption.GetOr("")
            && box.buttons == buttons && box.image == icon && box.defaultButton == defaultButton
            && box.options == options
    ensures rejected == options.windowOptions.Rejected()
    ensures rejected.Some? ==> !box.closed && box.dialogResult == Option.None
    ensures rejected.None? ==>
              && box.closed
              && WindowOptionsApplied(box, options.windowOptions)
              && TitleBarSetUp(box, options.windowOptions)
              && (box.dialogResult == Some(true) <==> dismissal.ByButton?)
              && (dismissal.ByButton? ==> box.result == dismissal.panelResult)
  {
    box, rejected := NewBox(owner, messageBoxText, caption, buttons, icon, defaultButton, options);
    if rejected.None? {
      ShowDialog(box, dismissal);
    }
  }

  /**
   * The full `Show`. Null options throw before any window exists. Otherwise the
   * window gets the arguments (a null caption becomes the empty title) and the
   * window options; a limit the framework rejects throws before the window is
   * shown. Otherwise the window sets up its title bar when its source is
   * initialized and is left as `dismissal` says; the result is the window's,
   * which is the panel's when a button closed it, and the fallback otherwise.
   */
  method Show(owner: Option<WindowRef>, messageBoxText: NullableString, caption: NullableString, buttons: MessageBoxButtons,
              icon: MessageBoxImages, defaultButton: MessageBoxResult, options: MessageBoxOptions?, dismissal: Dismissal)
    returns (r: Result<MessageBoxResult, ShowError>, box: MessageBoxWindow?)
    requires options != null ==> CanDismiss(buttons, dismissal)
    ensures options == null <==> box == null
    ensures options == null ==> r == Failure(ArgumentNullException("options"))
    ensures box != null ==>
              && box.owner == owner && box.message == messageBoxText && box.title == caption.GetOr("")
              && box.buttons == buttons && box.image == icon && box.defaultButton == defaultButton
              && box.options == options
    ensures options != null && options.windowOptions.Rejected().Some? ==>
              && r == Failure(ArgumentException(options.windowOptions.Rejected().value))
              && !box.closed && box.dialogResult == Option.None
    ensures options != null && options.windowOptions.Rejected().None? ==>
              && r == Success(Outcome(buttons, dismissal))
              && box.closed
              && WindowOptionsApplied(box, options.windowOptions)
              && TitleBarSetUp(box, options.windowOptions)
              && (box.dialogResult == Some(true) <==> dismissal.ByButton?)
              && (dismissal.ByButton? ==> r == Success(box.result))
  {
    if options == null {
      return Failure(ArgumentNullException("options")), null;
    }

    var w, rejected := Present(owner, messageBoxText, caption, buttons, icon, defaultButton, options, dismissal);
    box := w;
    if rejected.Some? {
      return Failure(ArgumentException(rejected.value)), box;
    }

    if w.dialogResult == Some(true) {
      r := Success(w.result);
    } else {
      r := Success(if buttons == MessageBoxButtons.OK then MessageBoxResult.OK else MessageBoxResult.Cancel);
    }
  }

  /**
   * A call to one of the overloads: `None` for an argument it does not take.
   * An owner, when given, may itself be null, and so may the options.
   */
  datatype ShowCall = ShowCall(
    owner: Option<Option<WindowRef>>,
    messageBoxText: NullableString,
    caption: Option<NullableString>,
    buttons: Option<MessageBoxButtons>,
    icon: Option<MessageBoxImages>,
    defaultButton: Option<MessageBoxResult>,
    options: Option<MessageBoxOptions?>)
  {
    /**
     * The overloads that exist: caption, buttons, icon and default button are
     * taken as a prefix of that order; owner and options are free.
     */
    predicate IsOverload() {
      && (caption.None? ==> buttons.None?)
      && (buttons.None? ==> icon.None?)
      && (icon.None? ==> defaultButton.None?)
    }
  }

  /**
   * An overload: the missing arguments default to no owner, the empty caption,
   * the OK set, no icon, OK as the default button and new options, whose
   * limits the framework always accepts.
   */
  method ShowOverload(call: ShowCall, dismissal: Dismissal) returns (r: Result<MessageBoxResult, ShowError>, box: MessageBoxWindow?)
    requires call.IsOverload()
    requires call.options != Some(null) ==> CanDismiss(call.buttons.GetOr(MessageBoxButtons.OK), dismissal)
    ensures call.options == Some(null) ==> r == Failure(ArgumentNullException("options")) && box == null
    ensures call.options != Some(null) ==>
              && box != null && box.options != null
              && (box.options.windowOptions.Rejected().None? ==> r == Success(Outcome(call.buttons.GetOr(MessageBoxButtons.OK), dismissal)))
              && (box.options.windowOptions.Rejected().Some? ==>
                    r == Failure(ArgumentException(box.options.windowOptions.Rejected().value)))
              && box.owner == call.owner.GetOr(Option.None)
              && box.message == call.messageBoxText
              && box.title == call.caption.GetOr(Some("")).GetOr("")
              && box.buttons == call.buttons.GetOr(MessageBoxButtons.OK)
              && box.image == call.icon.GetOr(MessageBoxImages.None)
              && box.defaultButton == call.defaultButton.GetOr(MessageBoxResult.OK)
              && (call.options.Some? ==> box.options == call.options.value)
    ensures call.options.None? ==> r.Success? && box.options != null && fresh(box.options) && box.options.Defaults()
  {
    var options: MessageBoxOptions?;
    if call.options.Some? {
      options := call.options.value;
    } else {
      options := new MessageBoxOptions();
      DefaultLimitsAccepted(options.windowOptions);
    }
    r, box := Show(call.owner.GetOr(Option.None), call.messageBoxText, call.caption.GetOr(Some("")),
                   call.buttons.GetOr(MessageBoxButtons.OK), call.icon.GetOr(MessageBoxImages.None),
                   call.defaultButton.GetOr(MessageBoxResult.OK), options, dismissal);
  }

  /**
   * The one-argument overload closed without a button gives OK, and a close
   * without a button is never vetoed for it.
   */
  lemma TextOnlyDefaultsToOK(messageBoxText: NullableString)
    ensures var call := ShowCall(Option.None, messageBoxText, Option.None, Option.None, Option.None, Option.None, Option.None);
      && call.IsOverload()
      && CanDismiss(call.buttons.GetOr(MessageBoxButtons.OK), WithoutButton)
      && Outcome(call.buttons.GetOr(MessageBoxButtons.OK), WithoutButton) == MessageBoxResult.OK
  {
  }
}

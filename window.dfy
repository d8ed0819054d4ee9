/**
 * The dialog window: it takes the panel's result when a button is clicked,
 * vetoes other ways of closing for the two sets without a cancel choice,
 * handles Escape and Ctrl+C, toggles the details pane (saving and restoring
 * its size limits), normalises its startup location, and decides which
 * pieces of title-bar chrome to disable.
 */
module Window {
  import opened Wrappers
  import opened Wpf
  import opened Text
  import opened Enums
  import opened Options
  import Strings
  import CF = CopyFormatter

  /** Closing is cancelled when no button started it and the set has no cancel choice. */
  predicate ClosingVetoed(closeByButtons: bool, b: MessageBoxButtons)
    ensures ClosingVetoed(closeByButtons, b) ==> !closeByButtons && MessageBoxResult.Cancel !in ButtonResults(b)
  {
    !closeByButtons && (b == MessageBoxButtons.YesNo || b == MessageBoxButtons.AbortRetryIgnore)
  }

  /** Escape asks the window to close, except for the two sets without a cancel choice. */
  predicate EscapeCloses(b: MessageBoxButtons)
    ensures !EscapeCloses(b) ==> MessageBoxResult.Cancel !in ButtonResults(b)
    ensures EscapeCloses(b) <==> !ClosingVetoed(false, b)
  {
    !(b == MessageBoxButtons.AbortRetryIgnore || b == MessageBoxButtons.YesNo)
  }

  /** What the title bar setup does: the native calls it makes and the icon it applies. */
  datatype TitleBarPlan = TitleBarPlan(
    disableSystemMenu: bool,
    applyIcon: Option<ImageSourceRef>,
    disableMinimize: bool,
    disableMaximize: bool,
    disableClose: bool)

  /**
   * The title-bar decision table: each field is one rule of the setup, and the
   * table itself is what the setup promises; `CloseDecisionsAgree` checks it
   * against the closing and Escape rules, and `SetTitleBarItems` carries it out.
   */
  function PlanTitleBar(showSystemMenu: bool, icon: Option<ImageSourceRef>, resizeMode: ResizeMode, b: MessageBoxButtons): (p: TitleBarPlan)
    ensures p.disableSystemMenu <==> !showSystemMenu
    ensures p.applyIcon.Some? <==> showSystemMenu && icon.Some?
    ensures p.applyIcon.Some? ==> p.applyIcon == icon
    ensures p.disableMinimize <==> resizeMode == NoResize
    ensures p.disableMaximize <==> resizeMode == NoResize
    ensures p.disableClose <==> b == MessageBoxButtons.YesNo || b == MessageBoxButtons.AbortRetryIgnore
  {
    TitleBarPlan(
      !showSystemMenu,
      if showSystemMenu then icon else Option.None,
      resizeMode == NoResize,
      resizeMode == NoResize,
      b == MessageBoxButtons.YesNo || b == MessageBoxButtons.AbortRetryIgnore)
  }

  /**
   * The three places that single out YesNo and AbortRetryIgnore agree: the
   * close button is disabled exactly when a close not started by a button is
   * vetoed, and exactly when Escape does not close.
   */
  lemma CloseDecisionsAgree(b: MessageBoxButtons, showSystemMenu: bool, icon: Option<ImageSourceRef>, resizeMode: ResizeMode)
    ensures PlanTitleBar(showSystemMenu, icon, resizeMode, b).disableClose <==> ClosingVetoed(false, b)
    ensures ClosingVetoed(false, b) <==> !EscapeCloses(b)
    ensures !ClosingVetoed(true, b)
  {
  }

  /** The startup location the window gets: CenterOwner without an owner becomes CenterScreen. */
  function EffectiveStartupLocation(requested: WindowStartupLocation, hasOwner: bool): (r: WindowStartupLocation)
    ensures r == CenterOwner ==> hasOwner
    ensures r != requested ==> requested == CenterOwner && !hasOwner && r == CenterScreen
    ensures r == WindowStartupLocation.Manual <==> requested == WindowStartupLocation.Manual
  {
    if !hasOwner && requested == CenterOwner then CenterScreen else requested
  }

  /** Normalising twice changes nothing more. */
  lemma StartupLocationIdempotent(requested: WindowStartupLocation, hasOwner: bool)
    ensures EffectiveStartupLocation(EffectiveStartupLocation(requested, hasOwner), hasOwner) == EffectiveStartupLocation(requested, hasOwner)
  {
  }

  /** The size limits, the size and the resize mode that the details toggle touches. */
  datatype Geometry = Geometry(
    minWidth: Dim, maxWidth: Dim, width: Dim,
    minHeight: Dim, maxHeight: Dim, height: Dim,
    resizeMode: ResizeMode)

  /** The details pane state: whether it is open, the geometry, and the sizes saved on opening. */
  datatype DetailsState = DetailsState(expanded: bool, geometry: Geometry, oldMinSize: Size, oldMaxSize: Size, oldSize: Size)

  /** The option values the details toggle reads. */
  datatype DetailLimits = DetailLimits(
    detailedMinWidth: Dim, detailedMaxWidth: Dim,
    detailedMinHeight: Dim, detailedMaxHeight: Dim,
    detailedResizeMode: ResizeMode, resizeMode: ResizeMode)

  {
    /** The detailed limit the framework rejects when the details open, if any. */
    function Rejected(): Option<LimitProperty> {
      RejectedLimit(detailedMinWidth, detailedMaxWidth, detailedMinHeight, detailedMaxHeight)
    }
  }

  function LimitsOf(wo: WindowOptionsContainer): DetailLimits
    reads wo
  {
    DetailLimits(wo.detailedMinWidth, wo.detailedMaxWidth, wo.detailedMinHeight, wo.detailedMaxHeight,
                 wo.detailedResizeMode, wo.resizeMode)
  }

  /**
   * One click of the details toggle. Opening saves the limits and the size and
   * applies the detailed limits and resize mode; closing restores what was saved
   * and the normal resize mode from the options.
   */
  function ToggleDetails(s: DetailsState, o: DetailLimits): (t: DetailsState)
    ensures t.expanded == !s.expanded
    ensures t.expanded ==> t.geometry.width == s.geometry.width && t.geometry.height == s.geometry.height
    ensures t.expanded ==> t.oldMinSize == Size(s.geometry.minWidth, s.geometry.minHeight)
    ensures t.expanded ==> t.oldMaxSize == Size(s.geometry.maxWidth, s.geometry.maxHeight)
    ensures t.expanded ==> t.oldSize == Size(s.geometry.width, s.geometry.height)
    ensures t.expanded ==> t.geometry.minWidth == o.detailedMinWidth && t.geometry.maxWidth == o.detailedMaxWidth
    ensures t.expanded ==> t.geometry.minHeight == o.detailedMinHeight && t.geometry.maxHeight == o.detailedMaxHeight
    ensures t.expanded ==> t.geometry.resizeMode == o.detailedResizeMode
    ensures !t.expanded ==> t.geometry == Geometry(s.oldMinSize.width, s.oldMaxSize.width, s.oldSize.width,
                                                   s.oldMinSize.height, s.oldMaxSize.height, s.oldSize.height, o.resizeMode)
    ensures !t.expanded ==> t.oldMinSize == s.oldMinSize && t.oldMaxSize == s.oldMaxSize && t.oldSize == s.oldSize
  {
    var g := s.geometry;
    if !s.expanded then
      DetailsState(true,
        Geometry(o.detailedMinWidth, o.detailedMaxWidth, g.width, o.detailedMinHeight, o.detailedMaxHeight, g.height, o.detailedResizeMode),
        Size(g.minWidth, g.minHeight), Size(g.maxWidth, g.maxHeight), Size(g.width, g.height))
    else
      DetailsState(false,
        Geometry(s.oldMinSize.width, s.oldMaxSize.width, s.oldSize.width, s.oldMinSize.height, s.oldMaxSize.height, s.oldSize.height, o.resizeMode),
        s.oldMinSize, s.oldMaxSize, s.oldSize)
  }

  /**
   * Expanding and then collapsing gives back every limit and the size as they
   * were before the expand, and the resize mode of the options; so when the
   * window had the options' resize mode, the geometry is exactly restored.
   */
  lemma ExpandThenCollapseRestores(s: DetailsState, o: DetailLimits)
    requires !s.expanded
    ensures var t := ToggleDetails(ToggleDetails(s, o), o);
      && !t.expanded
      && t.geometry == s.geometry.(resizeMode := o.resizeMode)
      && (s.geometry.resizeMode == o.resizeMode ==> t.geometry == s.geometry)
  {
  }

  /**
   * Whatever size the user gives the window while the details are open,
   * collapsing brings back the size and limits from before the expand.
   */
  lemma ResizeWhileExpandedIsUndone(s: DetailsState, o: DetailLimits, width: Dim, height: Dim)
    requires !s.expanded
    ensures var e := ToggleDetails(s, o);
      var t := ToggleDetails(e.(geometry := e.geometry.(width := width, height := height)), o);
      !t.expanded && t.geometry == s.geometry.(resizeMode := o.resizeMode)
  {
  }

  /** What Ctrl+C hands to the copy formatter. */
  datatype CopyRequest = CopyRequest(
    formatter: CopyFormatter, title: string, message: NullableString, details: NullableString,
    buttons: MessageBoxButtons, image: MessageBoxImages, strings: Strings.MessageBoxStrings?)

  class MessageBoxWindow {
    // the message box's own properties
    var isDetailsExpanded: bool
    var message: NullableString
    var image: MessageBoxImages
    var buttons: MessageBoxButtons
    var defaultButton: MessageBoxResult
    var result: MessageBoxResult
    var options: MessageBoxOptions?
    var closeByButtons: bool
    var oldMinSize: Size
    var oldMaxSize: Size
    var oldSize: Size

    // the framework window's properties
    var owner: Option<WindowRef>
    var title: string
    var startupLocation: WindowStartupLocation
    var left: Dim
    var top: Dim
    var resizeMode: ResizeMode
    var showInTaskbar: bool
    var minWidth: Dim
    var maxWidth: Dim
    var width: Dim
    var minHeight: Dim
    var maxHeight: Dim
    var height: Dim
    var sizeToContent: SizeToContent
    var snapsToDevicePixels: bool
    var icon: Option<ImageSourceRef>
    var dialogResult: Option<bool>
    var closed: bool

    // the native chrome calls made so far
    var systemMenuDisabled: bool
    var minimizeDisabled: bool
    var maximizeDisabled: bool
    var closeButtonDisabled: bool

    /**
     * A window built with an object initializer: the given owner, message,
     * title, buttons, image, default button and options; the C# defaults for
     * the box's other properties and the framework's window defaults.
     */
    constructor (owner: Option<WindowRef>, message: NullableString, title: string, buttons: MessageBoxButtons,
                 image: MessageBoxImages, defaultButton: MessageBoxResult, options: MessageBoxOptions?)
      ensures !isDetailsExpanded && !closeByButtons && !closed && dialogResult == Option.None
      ensures result == MessageBoxResult.None
      ensures this.owner == owner && this.message == message && this.title == title && this.buttons == buttons
      ensures this.image == image && this.defaultButton == defaultButton && this.options == options
      ensures !systemMenuDisabled && !minimizeDisabled && !maximizeDisabled && !closeButtonDisabled && icon == Option.None
      ensures LimitsValid()
    {
      isDetailsExpanded := false;
      this.message := message;
      this.image := image;
      this.buttons := buttons;
      this.defaultButton := defaultButton;
      result := MessageBoxResult.None;
      this.options := options;
      closeByButtons := false;
      oldMinSize, oldMaxSize, oldSize := Size(Px(0.0), Px(0.0)), Size(Px(0.0), Px(0.0)), Size(Px(0.0), Px(0.0));
      this.owner := owner;
      this.title := title;
      startupLocation := WindowStartupLocation.Manual;
      left, top := NaN, NaN;
      resizeMode := CanResize;
      showInTaskbar := true;
      minWidth, maxWidth, width := Px(0.0), PositiveInfinity, NaN;
      minHeight, maxHeight, height := Px(0.0), PositiveInfinity, NaN;
      sizeToContent := SizeToContent.Manual;
      snapsToDevicePixels := false;
      icon := Option.None;
      dialogResult := Option.None;
      closed := false;
      systemMenuDisabled, minimizeDisabled, maximizeDisabled, closeButtonDisabled := false, false, false, false;
    }

    /**
     * The framework keeps every size property valid, since a setter given an
     * invalid value throws instead of storing it; the sizes saved by the
     * details toggle were read from those properties.
     */
    predicate LimitsValid()
      reads this`minWidth, this`maxWidth, this`width, this`minHeight, this`maxHeight, this`height
      reads this`oldMinSize, this`oldMaxSize, this`oldSize
    {
      && ValidMinimum(minWidth) && ValidMaximum(maxWidth) && ValidSize(width)
      && ValidMinimum(minHeight) && ValidMaximum(maxHeight) && ValidSize(height)
      && ValidMinimum(oldMinSize.width) && ValidMaximum(oldMaxSize.width) && ValidSize(oldSize.width)
      && ValidMinimum(oldMinSize.height) && ValidMaximum(oldMaxSize.height) && ValidSize(oldSize.height)
    }

    function CurrentGeometry(): Geometry
      reads this
    {
      Geometry(minWidth, maxWidth, width, minHeight, maxHeight, height, resizeMode)
    }

    function Details(): DetailsState
      reads this
    {
      DetailsState(isDetailsExpanded, CurrentGeometry(), oldMinSize, oldMaxSize, oldSize)
    }

    /**
     * The details toggle. Opening assigns the detailed limits, which the
     * framework may reject: the assignments then stop at the rejected limit
     * with an `ArgumentException` (`rejected`), after the flag has flipped and
     * the sizes were saved. Closing restores saved values, which are valid.
     */
    method OnExpandDetailsClick() returns (rejected: Option<LimitProperty>)
      requires options != null && LimitsValid()
      modifies this`isDetailsExpanded, this`oldMinSize, this`oldMaxSize, this`oldSize
      modifies this`minWidth, this`maxWidth, this`width, this`minHeight, this`maxHeight, this`height, this`resizeMode
      ensures LimitsValid()
      ensures rejected == if old(isDetailsExpanded) then Option.None else LimitsOf(options.windowOptions).Rejected()
      ensures rejected.None? ==> Details() == ToggleDetails(old(Details()), LimitsOf(options.windowOptions))
      ensures var t := ToggleDetails(old(Details()), LimitsOf(options.windowOptions));
        && isDetailsExpanded == t.expanded
        && oldMinSize == t.oldMinSize && oldMaxSize == t.oldMaxSize && oldSize == t.oldSize
        && width == t.geometry.width && height == t.geometry.height
        && minWidth == (if AssignedBefore(MinWidthProperty, rejected) then t.geometry.minWidth else old(minWidth))
        && maxWidth == (if AssignedBefore(MaxWidthProperty, rejected) then t.geometry.maxWidth else old(maxWidth))
        && minHeight == (if AssignedBefore(MinHeightProperty, rejected) then t.geometry.minHeight else old(minHeight))
        && maxHeight == (if AssignedBefore(MaxHeightProperty, rejected) then t.geometry.maxHeight else old(maxHeight))
        && resizeMode == (if rejected.None? then t.geometry.resizeMode else old(resizeMode))
    {
      var o := LimitsOf(options.windowOptions);
      isDetailsExpanded := !isDetailsExpanded;
      if isDetailsExpanded {
        rejected := OpenDetails(o);
      } else {
        rejected := Option.None;
        minWidth := oldMinSize.width;
        maxWidth := oldMaxSize.width;
        width := oldSize.width;
        minHeight := oldMinSize.height;
        maxHeight := oldMaxSize.height;
        height := oldSize.height;

        resizeMode := o.resizeMode;
      }
    }

    /**
     * Opening the details: the limits and the size are saved, then the
     * detailed limits are assigned in order until one is rejected, and the
     * detailed resize mode is set when none is.
     */
    method OpenDetails(o: DetailLimits) returns (rejected: Option<LimitProperty>)
      requires LimitsValid()
      modifies this`oldMinSize, this`oldMaxSize, this`oldSize
      modifies this`minWidth, this`maxWidth, this`minHeight, this`maxHeight, this`resizeMode
      ensures LimitsValid()
      ensures rejected == o.Rejected()
      ensures oldMinSize == Size(old(minWidth), old(minHeight)) && oldMaxSize == Size(old(maxWidth), old(maxHeight))
      ensures oldSize == Size(width, height)
      ensures minWidth == if AssignedBefore(MinWidthProperty, rejected) then o.detailedMinWidth else old(minWidth)
      ensures maxWidth == if AssignedBefore(MaxWidthProperty, rejected) then o.detailedMaxWidth else old(maxWidth)
      ensures minHeight == if AssignedBefore(MinHeightProperty, rejected) then o.detailedMinHeight else old(minHeight)
      ensures maxHeight == if AssignedBefore(MaxHeightProperty, rejected) then o.detailedMaxHeight else old(maxHeight)
      ensures resizeMode == if rejected.None? then o.detailedResizeMode else old(resizeMode)
    {
      oldMinSize := Size(minWidth, minHeight);
      oldMaxSize := Size(maxWidth, maxHeight);
      oldSize := Size(width, height);
      rejected := o.Rejected();

      if !ValidMinimum(o.detailedMinWidth) { return; }
      minWidth := o.detailedMinWidth;
      if !ValidMaximum(o.detailedMaxWidth) { return; }
      maxWidth := o.detailedMaxWidth;
      if !ValidMinimum(o.detailedMinHeight) { return; }
      minHeight := o.detailedMinHeight;
      if !ValidMaximum(o.detailedMaxHeight) { return; }
      maxHeight := o.detailedMaxHeight;

      resizeMode := o.detailedResizeMode;
    }

    /**
     * The panel's Click: the window takes the panel's result, notes that a
     * button closes it and sets the dialog result, which closes the window.
     */
    method OnButtonClick(panelResult: MessageBoxResult)
      modifies this`result, this`closeByButtons, this`dialogResult, this`closed
      ensures result == panelResult && closeByButtons && dialogResult == Some(true) && closed
    {
      result := panelResult;
      closeByButtons := true;
      dialogResult := Some(true);
      Close();
    }

    /** The panel's HelpRequest: the callback from the options is invoked, when there is one. */
    method OnHelpRequestClick() returns (invoked: Option<CallbackRef>)
      requires options != null
      ensures invoked == options.helpRequestCallback
    {
      invoked := options.helpRequestCallback;
    }

    /** Whether a request to close is cancelled. */
    method OnClosing() returns (cancel: bool)
      ensures cancel <==> ClosingVetoed(closeByButtons, buttons)
    {
      cancel := false;
      if !closeByButtons && (buttons == MessageBoxButtons.YesNo || buttons == MessageBoxButtons.AbortRetryIgnore) {
        cancel := true;
      }
    }

    /** A request to close: the window closes unless the request is cancelled. */
    method Close()
      modifies this`closed
      ensures closed <==> old(closed) || !ClosingVetoed(closeByButtons, buttons)
    {
      var cancel := OnClosing();
      if !cancel {
        closed := true;
      }
    }

    /**
     * A key press. Ctrl+C hands the box's content to the copy formatter when
     * there is one; Escape closes the window unless the set has no cancel choice.
     */
    method OnPreviewKeyDown(key: Key, modifiers: set<ModifierKey>) returns (copy: Option<CopyRequest>)
      requires options != null
      modifies this`closed
      ensures copy.Some? <==> key == C && modifiers == {Control} && options.messageCopyFormatter.Some?
      ensures copy.Some? ==> copy.value == CopyRequest(options.messageCopyFormatter.value, title, message,
                                                      options.detailsText, buttons, image, options.strings)
      ensures closed <==> old(closed) || (key == Escape && EscapeCloses(buttons))
    {
      copy := Option.None;
      if key == C && modifiers == {Control} && options.messageCopyFormatter.Some? {
        copy := Some(CopyRequest(options.messageCopyFormatter.value, title, message,
                                 options.detailsText, buttons, image, options.strings));
      }

      if key != Escape {
        return;
      }

      if buttons == MessageBoxButtons.AbortRetryIgnore || buttons == MessageBoxButtons.YesNo {
        return;
      }

      Close();
    }

    /**
     * A key press with the default formatter in place: Ctrl+C hands the box's
     * title, message, details, buttons, image and strings to `Copy`, whose text
     * (or exception) is the result. A custom formatter's behaviour is not
     * modelled, so it copies nothing here.
     */
    method CopyOnKeyDown(key: Key, modifiers: set<ModifierKey>, sys: Strings.Caption -> string)
      returns (copied: Option<Result<string, CF.Exception>>)
      requires options != null
      modifies this`closed
      ensures copied.Some? <==> key == C && modifiers == {Control} && options.messageCopyFormatter == Some(DefaultMessageCopyFormatter)
      ensures copied.Some? && (options.strings != null || buttons == CancelTryAgainContinue) ==>
                copied.value == Success(CF.Joined(CF.CopyLines(Some(title), message, options.detailsText,
                                                               if buttons == CancelTryAgainContinue then []
                                                               else options.strings.Labels(CF.ButtonCaptions(buttons), sys))))
      ensures copied.Some? && options.strings == null && buttons != CancelTryAgainContinue ==>
                copied.value == Failure(CF.NullReferenceException)
      ensures closed <==> old(closed) || (key == Escape && EscapeCloses(buttons))
    {
      var request := OnPreviewKeyDown(key, modifiers);
      copied := Option.None;
      if request.Some? && request.value.formatter == DefaultMessageCopyFormatter {
        var q := request.value;
        var text := CF.Copy(Some(q.title), q.message, q.details, q.buttons, q.image, q.strings, sys);
        copied := Some(text);
      }
    }

    /** Disables the chrome the options and the button set call for. */
    method SetTitleBarItems()
      requires options != null
      modifies this`icon, this`systemMenuDisabled, this`minimizeDisabled, this`maximizeDisabled, this`closeButtonDisabled
      ensures var wo := options.windowOptions;
        var plan := PlanTitleBar(wo.showSystemMenu, wo.icon, wo.resizeMode, buttons);
        && systemMenuDisabled == (old(systemMenuDisabled) || plan.disableSystemMenu)
        && icon == (if plan.applyIcon.Some? then plan.applyIcon else old(icon))
        && minimizeDisabled == (old(minimizeDisabled) || plan.disableMinimize)
        && maximizeDisabled == (old(maximizeDisabled) || plan.disableMaximize)
        && closeButtonDisabled == (old(closeButtonDisabled) || plan.disableClose)
    {
      var wo := options.windowOptions;
      if !wo.showSystemMenu {
        systemMenuDisabled := true;
      } else if wo.icon.Some? {
        icon := wo.icon;
      }

      if wo.resizeMode == NoResize {
        minimizeDisabled := true;
        maximizeDisabled := true;
      }

      if buttons == MessageBoxButtons.YesNo || buttons == MessageBoxButtons.AbortRetryIgnore {
        closeButtonDisabled := true;
      }
    }

    /**
     * Applies the window options: location, resizing, taskbar and limits. The
     * framework may reject a limit: the assignments then stop there with an
     * `ArgumentException` (`rejected`), and the sizing is never set.
     */
    method SetWindowOptions(wo: WindowOptionsContainer) returns (rejected: Option<LimitProperty>)
      requires LimitsValid()
      modifies this`startupLocation, this`left, this`top, this`resizeMode, this`showInTaskbar
      modifies this`minWidth, this`maxWidth, this`minHeight, this`maxHeight, this`sizeToContent, this`snapsToDevicePixels
      ensures LimitsValid()
      ensures rejected == wo.Rejected()
      ensures startupLocation == EffectiveStartupLocation(wo.startupLocation, owner.Some?)
      ensures startupLocation == WindowStartupLocation.Manual ==> left == Px(wo.position.x) && top == Px(wo.position.y)
      ensures startupLocation != WindowStartupLocation.Manual ==> left == old(left) && top == old(top)
      ensures resizeMode == wo.resizeMode && showInTaskbar == wo.showInTaskbar
      ensures minWidth == if AssignedBefore(MinWidthProperty, rejected) then wo.minWidth else old(minWidth)
      ensures maxWidth == if AssignedBefore(MaxWidthProperty, rejected) then wo.maxWidth else old(maxWidth)
      ensures minHeight == if AssignedBefore(MinHeightProperty, rejected) then wo.minHeight else old(minHeight)
      ensures maxHeight == if AssignedBefore(MaxHeightProperty, rejected) then wo.maxHeight else old(maxHeight)
      ensures rejected.None? ==> sizeToContent == WidthAndHeight && snapsToDevicePixels
      ensures rejected.Some? ==> sizeToContent == old(sizeToContent) && snapsToDevicePixels == old(snapsToDevicePixels)
    {
      SetLocation(wo);

      resizeMode := wo.resizeMode;
      showInTaskbar := wo.showInTaskbar;

      rejected := SetLimits(wo);
    }

    /** The first part of `SetWindowOptions`: the normalised startup location, and the position when it is Manual. */
    method SetLocation(wo: WindowOptionsContainer)
      modifies this`startupLocation, this`left, this`top
      ensures startupLocation == EffectiveStartupLocation(wo.startupLocation, owner.Some?)
      ensures startupLocation == WindowStartupLocation.Manual ==> left == Px(wo.position.x) && top == Px(wo.position.y)
      ensures startupLocation != WindowStartupLocation.Manual ==> left == old(left) && top == old(top)
    {
      startupLocation := wo.startupLocation;
      if owner.None? && wo.startupLocation == CenterOwner {
        startupLocation := CenterScreen;
      }
      if startupLocation == WindowStartupLocation.Manual {
        left := Px(wo.position.x);
        top := Px(wo.position.y);
      }
    }

    /** The last part of `SetWindowOptions`: the four limits in order, then the sizing. */
    method SetLimits(wo: WindowOptionsContainer) returns (rejected: Option<LimitProperty>)
      requires LimitsValid()
      modifies this`minWidth, this`maxWidth, this`minHeight, this`maxHeight, this`sizeToContent, this`snapsToDevicePixels
      ensures LimitsValid()
      ensures rejected == wo.Rejected()
      ensures minWidth == if AssignedBefore(MinWidthProperty, rejected) then wo.minWidth else old(minWidth)
      ensures maxWidth == if AssignedBefore(MaxWidthProperty, rejected) then wo.maxWidth else old(maxWidth)
      ensures minHeight == if AssignedBefore(MinHeightProperty, rejected) then wo.minHeight else old(minHeight)
      ensures maxHeight == if AssignedBefore(MaxHeightProperty, rejected) then wo.maxHeight else old(maxHeight)
      ensures rejected.None? ==> sizeToContent == WidthAndHeight && snapsToDevicePixels
      ensures rejected.Some? ==> sizeToContent == old(sizeToContent) && snapsToDevicePixels == old(snapsToDevicePixels)
    {
      rejected := wo.Rejected();
      if !ValidMinimum(wo.minWidth) { return; }
      minWidth := wo.minWidth;
      if !ValidMaximum(wo.maxWidth) { return; }
      maxWidth := wo.maxWidth;
      if !ValidMinimum(wo.minHeight) { return; }
      minHeight := wo.minHeight;
      if !ValidMaximum(wo.maxHeight) { return; }
      maxHeight := wo.maxHeight;

      sizeToContent := WidthAndHeight;
      snapsToDevicePixels := true;
    }
  }
}

/**
 * The additional options a caller can pass: behaviour flags, the copy
 * formatter, the captions, and two containers for window settings and styles
 * that are created once and can not be replaced.
 */
module Options {
  import opened Wrappers
  import opened Wpf
  import opened Text
  import opened Strings

  /** The Ctrl+C handler: the library's default formatter or one the caller supplies. */
  datatype CopyFormatter = DefaultMessageCopyFormatter | CustomFormatter(id: nat)

  /** Default window limits. */
  const DefaultMinWidth: real := 249.0
  const DefaultMaxWidth: real := 494.0
  const DefaultMinHeight: real := 172.0
  const DefaultDetailedMinHeight: real := 350.0

  class WindowOptionsContainer {
    var theme: WindowTheme
    var showSystemMenu: bool
    var icon: Option<ImageSourceRef>
    var startupLocation: WindowStartupLocation
    var showInTaskbar: bool
    var resizeMode: ResizeMode
    var position: Point
    var minWidth: Dim
    var maxWidth: Dim
    var minHeight: Dim
    var maxHeight: Dim
    var detailedMinWidth: Dim
    var detailedMaxWidth: Dim
    var detailedMinHeight: Dim
    var detailedMaxHeight: Dim
    var detailedResizeMode: ResizeMode

    /** Every minimum lies at or below its maximum, collapsed and expanded. */
    predicate LimitsOrdered()
      reads this
    {
      AtMost(minWidth, maxWidth) && AtMost(minHeight, maxHeight)
      && AtMost(detailedMinWidth, detailedMaxWidth) && AtMost(detailedMinHeight, detailedMaxHeight)
    }

    /** The limit the framework rejects when these options are applied to a window, if any. */
    function Rejected(): Option<LimitProperty>
      reads this
    {
      RejectedLimit(minWidth, maxWidth, minHeight, maxHeight)
    }

    /** The property initializers: CenterOwner, NoResize twice, no system menu, not in the taskbar, Light, no icon, and the default limits. */
    predicate Defaults()
      reads this
    {
      && theme == Light && !showSystemMenu && icon == Option.None
      && startupLocation == CenterOwner && !showInTaskbar
      && resizeMode == NoResize && detailedResizeMode == NoResize
      && position == Point(0.0, 0.0)
      && minWidth == detailedMinWidth == Px(DefaultMinWidth)
      && maxWidth == detailedMaxWidth == Px(DefaultMaxWidth)
      && minHeight == Px(DefaultMinHeight) && detailedMinHeight == Px(DefaultDetailedMinHeight)
      && maxHeight == detailedMaxHeight == PositiveInfinity
    }

    constructor ()
      ensures Defaults()
      ensures LimitsOrdered()
    {
      theme := Light;
      showSystemMenu := false;
      icon := Option.None;
      startupLocation := CenterOwner;
      showInTaskbar := false;
      resizeMode := NoResize;
      position := Point(0.0, 0.0);
      minWidth := Px(DefaultMinWidth);
      maxWidth := Px(DefaultMaxWidth);
      minHeight := Px(DefaultMinHeight);
      maxHeight := PositiveInfinity;
      detailedMinWidth := Px(DefaultMinWidth);
      detailedMaxWidth := Px(DefaultMaxWidth);
      detailedMinHeight := Px(DefaultDetailedMinHeight);
      detailedMaxHeight := PositiveInfinity;
      detailedResizeMode := NoResize;
    }
  }

  /**
   * The default limits are all accepted by the framework, collapsed and
   * expanded: a box shown with default window options never throws for them.
   */
  lemma DefaultLimitsAccepted(wo: WindowOptionsContainer)
    requires wo.Defaults()
    ensures wo.Rejected() == Option.None
    ensures RejectedLimit(wo.detailedMinWidth, wo.detailedMaxWidth, wo.detailedMinHeight, wo.detailedMaxHeight) == Option.None
  {
  }

  class StylesContainer {
    var imageStyle: Option<StyleRef>
    var scrollViewerStyle: Option<StyleRef>
    var textStyle: Option<StyleRef>
    var buttonsPanelStyle: Option<StyleRef>
    var buttonStyle: Option<StyleRef>
    var checkBoxStyle: Option<StyleRef>
    var expanderStyle: Option<StyleRef>
    var detailsPresenterStyle: Option<StyleRef>
    var theme: Option<WindowTheme>

    /** No style in any slot, and the Light theme. */
    predicate Defaults()
      reads this
    {
      && imageStyle == scrollViewerStyle == textStyle == buttonsPanelStyle == Option.None
      && buttonStyle == checkBoxStyle == expanderStyle == detailsPresenterStyle == Option.None
      && theme == Some(Light)
    }

    constructor ()
      ensures Defaults()
    {
      imageStyle, scrollViewerStyle, textStyle, buttonsPanelStyle := Option.None, Option.None, Option.None, Option.None;
      buttonStyle, checkBoxStyle, expanderStyle, detailsPresenterStyle := Option.None, Option.None, Option.None, Option.None;
      theme := Some(Light);
    }
  }

  class MessageBoxOptions {
    /** Created by the constructor; there is no setter, so they are never null and never replaced. */
    const windowOptions: WindowOptionsContainer
    const styles: StylesContainer

    var messageCopyFormatter: Option<CopyFormatter>
    var strings: MessageBoxStrings?
    var showHelpButton: bool
    var helpRequestCallback: Option<CallbackRef>
    var showYesToAllButton: bool
    var showNoToAllButton: bool
    var showDetails: bool
    var showDoNotShowAgainCheckBox: bool
    var isDoNotShowAgainChecked: bool
    var detailsText: NullableString

    /**
     * The state a new options object starts in: default window settings and
     * styles, the default copy formatter, strings without overrides, every flag
     * false, no callback and no details.
     */
    predicate Defaults()
      reads this, windowOptions, styles, strings
    {
      && windowOptions.Defaults() && styles.Defaults()
      && messageCopyFormatter == Some(DefaultMessageCopyFormatter)
      && strings != null && (forall c :: strings.Stored(c) == Option.None)
      && !showHelpButton && !showYesToAllButton && !showNoToAllButton
      && !showDoNotShowAgainCheckBox && !isDoNotShowAgainChecked && !showDetails
      && helpRequestCallback == Option.None && detailsText == Option.None
    }

    constructor ()
      ensures fresh(windowOptions) && fresh(styles) && fresh(strings)
      ensures Defaults()
      ensures windowOptions.LimitsOrdered()
    {
      windowOptions := new WindowOptionsContainer();
      styles := new StylesContainer();
      messageCopyFormatter := Some(DefaultMessageCopyFormatter);
      strings := new MessageBoxStrings();
      showHelpButton := false;
      helpRequestCallback := Option.None;
      showYesToAllButton := false;
      showNoToAllButton := false;
      showDoNotShowAgainCheckBox := false;
      isDoNotShowAgainChecked := false;
      showDetails := false;
      detailsText := Option.None;
    }
  }
}

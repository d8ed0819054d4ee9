# OneCore.Net.WPF.MessageBoxes in Dafny

A model of the decision logic inside the WPF message box of
OneCore.Net.WPF.MessageBoxes, with proofs about it. The library shows a
configurable message box window through `MessageBox.Show`. Beneath the WPF
plumbing sit a few small rules, and those are what this project models:

- the button panel maps a clicked template part to a `MessageBoxResult` or to a
  Help or Details event, and focuses the default button with a fallback when the
  requested part is hidden;
- the window takes the panel's result, vetoes closing and Escape for the two
  button sets without a cancel choice, toggles the details pane (saving and
  restoring its size limits), normalises the startup location, applies the
  window options and decides which pieces of title-bar chrome to disable;
- `Show` rejects null options, builds the window and maps the way the dialog
  ended to a result, and its overloads fill in default arguments;
- the default Ctrl+C formatter lays out title, message, button captions and
  details between separator lines;
- the caption strings prefer a non-blank override and otherwise fall back to the
  system text (with `&` access keys turned into `_`) or to built-in literals;
- the icon control maps the icon enum, aliases included, to a system icon;
- the options objects and their constructor defaults.

One Dafny module per source file, plus `Wrappers` (Option and Result), `Text`
(the .NET string operations used), `Wpf` (framework value types) and `Enums`
(the three public enums). Classes whose properties the source updates in place
(`MessageBoxButtonsPanel`, `MessageBoxWindow`, `MessageBoxStrings`,
`MessageBoxImage`, the options containers) are Dafny classes. The decision
tables beside them are functions, connected to the methods by their contracts.

Modelling choices:

- A nullable C# string is `Option<string>`; `Environment.NewLine` is `"\r\n"`.
- A window `double` is `Dim`: a finite number of pixels, positive infinity or
  NaN. These values are only copied, never computed. The framework validates
  them when they are set: a minimum must be finite and at least zero, a
  maximum at least zero (infinity allowed), a width or height NaN or finite
  and at least zero. Setting a limit to anything else throws
  `ArgumentException`. The model reports that as the rejected limit
  (`RejectedLimit`), and the window's own properties always hold valid values
  (`LimitsValid`).
- The operating system's caption lookup is a function parameter `sys`.
- Which template parts are visible is a set of part names. Keyboard focus is the
  log of focus calls, and the last entry holds the focus.
- The native title-bar calls are boolean fields recording that they were made.
- The modal `ShowDialog` loop is a parameter saying how the dialog ends: a panel
  button was clicked, or the window was closed another way.
- The copy formatter's `StringBuilder` is the list of lines appended to it. Its
  text is those lines, each followed by a line break.

## Model

| member | source | states |
|---|---|---|
| Enums.ButtonsFromValue | OneCore.Net.WPF.MessageBoxes/MessageBoxButtons.cs:14-49 | the member with a given value, if any: defined exactly on 0..6, and its value is the one asked for |
| Enums.ImagesFromValue | OneCore.Net.WPF.MessageBoxes/MessageBoxImages.cs:14-59 | the icon with a given value: defined exactly on 0, 16, 32, 48, 64 |
| Enums.ValuesRoundTrip | OneCore.Net.WPF.MessageBoxes/MessageBoxButtons.cs:19-49 | reading a member's value back gives the member (values are distinct), for button sets and icons |
| Enums.AliasValues | OneCore.Net.WPF.MessageBoxes/MessageBoxImages.cs:24-59 | Error and Hand are 16 like Stop, Exclamation is 48 like Warning, Asterisk is 64 like Information |
| Enums.ButtonResults | OneCore.Net.WPF.MessageBoxes/MessageBoxButtons.cs:16-49 | the results a set's buttons give, as the set's documentation names them: never None, one to three results |
| Text.ReplaceChar | OneCore.Net.WPF.MessageBoxes/MessageBoxStrings.cs:177 | same length; each character `from` becomes `to`, every other character stays in place |
| Text.Without | OneCore.Net.WPF.MessageBoxes/DefaultMessageCopyFormatter.cs:75 | the removed character does not occur in the result; nothing is added; a string without it is unchanged |
| Text.ReplaceCharRemovesFrom | OneCore.Net.WPF.MessageBoxes/MessageBoxStrings.cs:177 | after replacing `&` by `_`, no `&` is left |
| Text.WithoutLength | OneCore.Net.WPF.MessageBoxes/DefaultMessageCopyFormatter.cs:75 | the result is shorter by exactly the number of occurrences removed |
| Text.WithoutIdempotent | OneCore.Net.WPF.MessageBoxes/DefaultMessageCopyFormatter.cs:75 | removing a character twice equals removing it once |
| Text.WithoutAppend | OneCore.Net.WPF.MessageBoxes/DefaultMessageCopyFormatter.cs:75 | removal distributes over concatenation |
| Text.ReplaceThenDrop | OneCore.Net.WPF.MessageBoxes/DefaultMessageCopyFormatter.cs:75 | when `to` does not occur, turning `from` into `to` and then dropping `to` equals dropping `from` |
| Strings.Load | OneCore.Net.WPF.MessageBoxes/MessageBoxStrings.cs:172-178 | a non-blank override is returned as is; otherwise the system text with every `&` turned into `_`, so no `&` remains |
| Strings.LoadCustom | OneCore.Net.WPF.MessageBoxes/MessageBoxStrings.cs:180-200 | a non-blank override is returned as is |
| Strings.WhitespaceOverrideIsIgnored | OneCore.Net.WPF.MessageBoxes/MessageBoxStrings.cs:172-183 | a whitespace-only override gives exactly what no override gives, for both loaders |
| Strings.CustomFallbacks | OneCore.Net.WPF.MessageBoxes/MessageBoxStrings.cs:185-196 | the five built-in literals "Y_es to All", "N_o to All", "_Don't show this message again", "_Show Details", "_Hide Details" |
| Strings.UnknownIdIsEmpty | OneCore.Net.WPF.MessageBoxes/MessageBoxStrings.cs:185-199 | without an override the result is empty exactly when the id is none of the five |
| Strings.MessageBoxStrings.constructor | OneCore.Net.WPF.MessageBoxes/MessageBoxStrings.cs:21-35 | a new object has no override for any caption |
| Strings.MessageBoxStrings.Get | OneCore.Net.WPF.MessageBoxes/MessageBoxStrings.cs:40-178 | a property getter: the stored override if not blank; otherwise a standard caption is its system text with every `&` turned into `_` (so no `&` remains), and a custom caption is its non-empty literal |
| Strings.MessageBoxStrings.Labels | OneCore.Net.WPF.MessageBoxes/DefaultMessageCopyFormatter.cs:53-68 | the getters of a list of captions, pointwise and in order |
| Strings.MessageBoxStrings.Set | OneCore.Net.WPF.MessageBoxes/MessageBoxStrings.cs:40-170 | a property setter writes its own backing field and leaves every other caption unchanged |
| Image.IconFor | OneCore.Net.WPF.MessageBoxes/MessageBoxImage.cs:68-92 | every icon value except None selects a system icon |
| Image.IconForAliases | OneCore.Net.WPF.MessageBoxes/MessageBoxImage.cs:72-87 | Error and Hand select the error icon, Exclamation the warning icon, Asterisk the information icon; two values select the same icon exactly when they are equal |
| Image.MessageBoxImage.constructor | OneCore.Net.WPF.MessageBoxes/MessageBoxImage.cs:26-33 | Image defaults to None and the bitmap to null |
| Image.MessageBoxImage.SetImage | OneCore.Net.WPF.MessageBoxes/MessageBoxImage.cs:26-66 | assigning Image runs the change handler only when the value changes; a known icon then replaces the bitmap |
| Image.MessageBoxImage.OnImageChanged | OneCore.Net.WPF.MessageBoxes/MessageBoxImage.cs:68-92 | the bitmap becomes the selected icon, or stays as it was for None |
| Options.WindowOptionsContainer.constructor | OneCore.Net.WPF.MessageBoxes/MessageBoxOptions.cs:108-126 | the window defaults (CenterOwner, NoResize twice, no system menu, not in the taskbar, Light, no icon, 249/494/172/350 and infinite limits) and minimums at or below maximums, all stated by `Defaults` |
| Options.DefaultLimitsAccepted | OneCore.Net.WPF.MessageBoxes/MessageBoxOptions.cs:108-126 | the default limits, collapsed and expanded, are all values the framework accepts |
| Options.StylesContainer.constructor | OneCore.Net.WPF.MessageBoxes/MessageBoxOptions.cs:229-240 | every style slot is null and the theme is Light, as `Defaults` states |
| Options.MessageBoxOptions.constructor | OneCore.Net.WPF.MessageBoxes/MessageBoxOptions.cs:24-40 | fresh containers holding their own defaults, the default copy formatter, non-null strings without overrides, every flag false, no callback and no details, as `Defaults` states |
| ButtonsPanel.ClickOutcome | OneCore.Net.WPF.MessageBoxes/MessageBoxButtonsPanel.cs:244-290 | a result part yields a result other than None, and is one of that result's parts; Help is exactly the help part, the details toggle exactly the header site |
| ButtonsPanel.ClickOutcomeMatchesParts | OneCore.Net.WPF.MessageBoxes/MessageBoxButtonsPanel.cs:241-293 | a part yields a result exactly when it is one of that result's parts (OK: single OK and OK; Retry: Retry and Try Again); no part yields None |
| ButtonsPanel.DefaultPart | OneCore.Net.WPF.MessageBoxes/MessageBoxButtonsPanel.cs:336-357 | the computed default part is a result part, and it is the single OK part exactly for the OK set |
| ButtonsPanel.DefaultPartBelongsToButtons | OneCore.Net.WPF.MessageBoxes/MessageBoxButtonsPanel.cs:336-358 | the computed default part of every set is a result button of that set |
| ButtonsPanel.RequestedPart | OneCore.Net.WPF.MessageBoxes/MessageBoxButtonsPanel.cs:297-333 | a part is requested exactly when the default button is not None, and it is one of the parts of the requested result |
| ButtonsPanel.RequestedPartClicksBack | OneCore.Net.WPF.MessageBoxes/MessageBoxButtonsPanel.cs:295-334 | the part a requested default asks for first yields that same result when clicked; for OK it is the single OK part exactly for the OK set |
| ButtonsPanel.FallbackLoopsWhenDefaultHidden | OneCore.Net.WPF.MessageBoxes/MessageBoxButtonsPanel.cs:360-371 | when neither the named part nor the computed default part is visible, the fallback calls itself with the same part again, without end: `NextCall`, the part `SetDefaultButtonNamed` focuses and hands on, returns that same part |
| ButtonsPanel.TryFocus | OneCore.Net.WPF.MessageBoxes/MessageBoxButtonsPanel.cs:360-371 | one attempt reports success exactly when the named part is visible, and makes one focus call, on a visible part |
| ButtonsPanel.DefaultButtonFocus | OneCore.Net.WPF.MessageBoxes/MessageBoxButtonsPanel.cs:295-371 | one or two focus calls, two only for Retry with the computed default first, and the last one on a visible part |
| ButtonsPanel.FocusEndsOnVisiblePart | OneCore.Net.WPF.MessageBoxes/MessageBoxButtonsPanel.cs:295-371 | resolving the default makes one or two focus calls, all on visible parts |
| ButtonsPanel.FocusTarget | OneCore.Net.WPF.MessageBoxes/MessageBoxButtonsPanel.cs:295-371 | None focuses the computed default; a visible requested part is focused; Retry without Try Again focuses the computed default and then Retry if visible; any other hidden request focuses the computed default |
| ButtonsPanel.FocusedPartResult | OneCore.Net.WPF.MessageBoxes/MessageBoxButtonsPanel.cs:295-358 | the part left focused, when clicked, yields the requested result or a result of the button set |
| ButtonsPanel.MessageBoxButtonsPanel.constructor | OneCore.Net.WPF.MessageBoxes/MessageBoxButtonsPanel.cs:40-95 | the dependency-property defaults: Result None, Buttons OK, DefaultButton None, no strings, every flag false |
| ButtonsPanel.MessageBoxButtonsPanel.OnMessageBoxButtonClick | OneCore.Net.WPF.MessageBoxes/MessageBoxButtonsPanel.cs:241-293 | a result part sets Result and raises Click once; Help and HeaderSite raise their event and leave Result alone; other names change nothing |
| ButtonsPanel.MessageBoxButtonsPanel.SetDefaultButton | OneCore.Net.WPF.MessageBoxes/MessageBoxButtonsPanel.cs:295-334 | the focus calls made are exactly those of the default-button resolution |
| ButtonsPanel.MessageBoxButtonsPanel.CalculateDefaultButton | OneCore.Net.WPF.MessageBoxes/MessageBoxButtonsPanel.cs:336-358 | focuses the computed default part of the set, once |
| ButtonsPanel.MessageBoxButtonsPanel.SetDefaultButtonNamed | OneCore.Net.WPF.MessageBoxes/MessageBoxButtonsPanel.cs:360-371 | returns true and focuses the part exactly when it is visible; otherwise focuses the computed default and returns false; whenever it hands on a part, that part (`NextCall`) is the one appended to the focus log; terminates under its precondition |
| Window.ClosingVetoed | OneCore.Net.WPF.MessageBoxes/MessageBoxWindow.xaml.cs:200 | a vetoed close was not started by a button, and the set has no Cancel result |
| Window.EscapeCloses | OneCore.Net.WPF.MessageBoxes/MessageBoxWindow.xaml.cs:221 | Escape closes exactly when a close without a button is not vetoed; a set where it does not has no Cancel result |
| Wpf.RejectedLimit | OneCore.Net.WPF.MessageBoxes/MessageBoxWindow.xaml.cs:265-268 | assigning MinWidth, MaxWidth, MinHeight and MaxHeight in that order stops at the first value the framework rejects: None exactly when all four are valid, and each limit exactly when it is the first invalid one |
| Window.PlanTitleBar | OneCore.Net.WPF.MessageBoxes/MessageBoxWindow.xaml.cs:234-249 | system menu disabled exactly without ShowSystemMenu, else a non-null icon applied; minimize and maximize disabled exactly for NoResize; close disabled exactly for YesNo and AbortRetryIgnore |
| Window.CloseDecisionsAgree | OneCore.Net.WPF.MessageBoxes/MessageBoxWindow.xaml.cs:198-249 | the disabled close button, the closing veto and the ignored Escape single out the same two sets; a button-initiated close is never vetoed |
| Window.EffectiveStartupLocation | OneCore.Net.WPF.MessageBoxes/MessageBoxWindow.xaml.cs:253-255 | CenterOwner only with an owner; the only change is CenterOwner to CenterScreen without an owner; Manual stays Manual |
| Window.StartupLocationIdempotent | OneCore.Net.WPF.MessageBoxes/MessageBoxWindow.xaml.cs:253-255 | normalising twice equals normalising once |
| Window.ToggleDetails | OneCore.Net.WPF.MessageBoxes/MessageBoxWindow.xaml.cs:104-139 | expanding saves the limits and size and applies the detailed limits and resize mode; collapsing sets every limit and the size to the saved ones, keeps them saved, and restores the options' resize mode |
| Window.ExpandThenCollapseRestores | OneCore.Net.WPF.MessageBoxes/MessageBoxWindow.xaml.cs:114-137 | expand then collapse returns every limit and the size to their values before, and the resize mode to the options'; exactly the old geometry when that was the window's resize mode |
| Window.ResizeWhileExpandedIsUndone | OneCore.Net.WPF.MessageBoxes/MessageBoxWindow.xaml.cs:114-137 | whatever size the window is given while expanded, collapsing brings back the size and limits from before the expand |
| Window.MessageBoxWindow.constructor | OneCore.Net.WPF.MessageBoxes/MessageBox.cs:316-325 | the object initializer's owner, message, title, buttons, image, default button and options; Result None, not closed, no dialog result, no chrome disabled; every size property holds a valid value |
| Window.MessageBoxWindow.OnExpandDetailsClick | OneCore.Net.WPF.MessageBoxes/MessageBoxWindow.xaml.cs:104-139 | opening the details rejects exactly the first invalid detailed limit, and closing rejects none; without a rejection the details state becomes the toggle of its old state under the options' limits; with one, the flag has flipped and the sizes are saved, the limits before the rejected one are assigned, the rest and the resize mode are unchanged; the size properties stay valid |
| Window.MessageBoxWindow.OnButtonClick | OneCore.Net.WPF.MessageBoxes/MessageBoxWindow.xaml.cs:141-148 | takes the panel's result, marks the close as button-initiated, sets the dialog result to true, and the window closes |
| Window.MessageBoxWindow.OnHelpRequestClick | OneCore.Net.WPF.MessageBoxes/MessageBoxWindow.xaml.cs:150-153 | the callback invoked is the options' callback, none when null |
| Window.MessageBoxWindow.OnClosing | OneCore.Net.WPF.MessageBoxes/MessageBoxWindow.xaml.cs:198-204 | closing is cancelled exactly when not button-initiated and the set is YesNo or AbortRetryIgnore |
| Window.MessageBoxWindow.Close | OneCore.Net.WPF.MessageBoxes/MessageBoxWindow.xaml.cs:198-204 | the window is closed afterwards exactly when it was already closed or the close is not vetoed |
| Window.MessageBoxWindow.CopyOnKeyDown | OneCore.Net.WPF.MessageBoxes/MessageBoxWindow.xaml.cs:211-225 | with the default formatter, Ctrl+C (and only Ctrl+C) yields exactly the text `Copy` builds from the window's title, message, details, buttons and strings, or the null-reference exception when the strings are null; Escape closes as in `OnPreviewKeyDown` |
| Window.MessageBoxWindow.OnPreviewKeyDown | OneCore.Net.WPF.MessageBoxes/MessageBoxWindow.xaml.cs:211-225 | Ctrl+C hands (title, message, details, buttons, image, strings) to the formatter exactly when there is one; the window closes exactly on Escape for sets other than YesNo and AbortRetryIgnore |
| Window.MessageBoxWindow.SetTitleBarItems | OneCore.Net.WPF.MessageBoxes/MessageBoxWindow.xaml.cs:234-249 | the native calls made and the icon applied are those of the title-bar plan |
| Window.MessageBoxWindow.SetWindowOptions | OneCore.Net.WPF.MessageBoxes/MessageBoxWindow.xaml.cs:251-271 | normalised startup location; Left and Top from Position exactly when Manual; resize mode and taskbar from the options; the limits assigned in order up to the first one the framework rejects, which is reported; size to content and device-pixel snapping only when none is rejected; the size properties stay valid |
| CopyFormatter.ButtonCaptions | OneCore.Net.WPF.MessageBoxes/DefaultMessageCopyFormatter.cs:48-71 | the captions of the button line in order; none exactly for CancelTryAgainContinue, which has no case |
| CopyFormatter.GetString | OneCore.Net.WPF.MessageBoxes/DefaultMessageCopyFormatter.cs:73-76 | no `_` is left, the length drops by the number of `_`, and a caption without `_` is unchanged |
| CopyFormatter.GetStringIdempotent | OneCore.Net.WPF.MessageBoxes/DefaultMessageCopyFormatter.cs:73-76 | applying it twice equals applying it once |
| CopyFormatter.ButtonLine | OneCore.Net.WPF.MessageBoxes/DefaultMessageCopyFormatter.cs:50-70 | the button line contains no `_` |
| CopyFormatter.JoinedAppend | OneCore.Net.WPF.MessageBoxes/DefaultMessageCopyFormatter.cs:31-45 | the text of two runs of appended lines is the concatenation of their texts |
| CopyFormatter.CopyLines | OneCore.Net.WPF.MessageBoxes/DefaultMessageCopyFormatter.cs:31-43 | six lines, one more with a button line and two more with details; the first and the last are separators |
| CopyFormatter.CopyText | OneCore.Net.WPF.MessageBoxes/DefaultMessageCopyFormatter.cs:29-46 | the copied text written out: separator, title, separator, message, separator, the button line if any, separator, then details and a separator if not blank, each followed by a line break |
| CopyFormatter.CopyLayout | OneCore.Net.WPF.MessageBoxes/DefaultMessageCopyFormatter.cs:29-46 | separator, title, separator, message, separator, the button line if any, separator, then details and a separator exactly when the details are not null or whitespace; a null title or message is an empty line |
| CopyFormatter.NoButtonLineForCancelTryAgainContinue | OneCore.Net.WPF.MessageBoxes/DefaultMessageCopyFormatter.cs:48-71 | CancelTryAgainContinue has no button line, so two separators are adjacent |
| CopyFormatter.ButtonLineOfThree | OneCore.Net.WPF.MessageBoxes/DefaultMessageCopyFormatter.cs:50-70 | one, two and three captions give each caption without markers followed by three spaces, in order |
| CopyFormatter.AbortRetryIgnoreLine | OneCore.Net.WPF.MessageBoxes/DefaultMessageCopyFormatter.cs:67-69 | with the system texts "&Abort", "&Retry", "&Ignore" and no overrides, the line is "Abort   Retry   Ignore   " |
| CopyFormatter.CopiedCaption | OneCore.Net.WPF.MessageBoxes/DefaultMessageCopyFormatter.cs:73-76 | a standard caption without override (and without `_` in its system text) appears as its system text with the `&` markers dropped |
| CopyFormatter.MarkedSystemText | OneCore.Net.WPF.MessageBoxes/DefaultMessageCopyFormatter.cs:73-76 | a system text that is `&` followed by a name appears as just the name |
| CopyFormatter.MarkedAbortRetryIgnore | OneCore.Net.WPF.MessageBoxes/DefaultMessageCopyFormatter.cs:67-69 | with marked system texts and no overrides, the Abort/Retry/Ignore line lists the three names, each followed by three spaces |
| CopyFormatter.AppendButtons | OneCore.Net.WPF.MessageBoxes/DefaultMessageCopyFormatter.cs:48-71 | appends the one button line of the set's captions; appends nothing for CancelTryAgainContinue; a null strings object throws |
| CopyFormatter.Copy | OneCore.Net.WPF.MessageBoxes/DefaultMessageCopyFormatter.cs:29-46 | the text is the joined layout lines; the icon plays no part; a null strings object throws unless the set has no button line |
| MessageBox.Fallback | OneCore.Net.WPF.MessageBoxes/MessageBox.cs:333 | OK exactly for the OK set, Cancel otherwise |
| MessageBox.FallbackOnTheButtons | OneCore.Net.WPF.MessageBoxes/MessageBox.cs:329-333 | the fallback result is one of the set's buttons exactly when a close without a button is not vetoed |
| MessageBox.Outcome | OneCore.Net.WPF.MessageBoxes/MessageBox.cs:329-333 | a button dismissal returns the panel's result; any other dismissal returns the fallback, which is a result of the set |
| MessageBox.NewBox | OneCore.Net.WPF.MessageBoxes/MessageBox.cs:316-327 | a fresh window carrying the arguments (a null caption becomes the empty title), no chrome disabled yet, the limit the framework rejects, if any, reported; without one, every window option applied: startup location, position when Manual, resize mode, taskbar, limits, size to content, pixel snapping |
| MessageBox.ShowDialog | OneCore.Net.WPF.MessageBoxes/MessageBoxWindow.xaml.cs:159-164 | the title bar of the fresh window gets exactly the planned system menu, icon, minimize, maximize and close chrome; the window ends closed, the dialog result is true exactly for a button dismissal, and the result is the button's |
| MessageBox.SetUpTitleBar | OneCore.Net.WPF.MessageBoxes/MessageBoxWindow.xaml.cs:234-249 | a window with no chrome disabled gets exactly the chrome the title-bar plan calls for |
| MessageBox.Present | OneCore.Net.WPF.MessageBoxes/MessageBox.cs:316-329 | the window carries the arguments; when a limit is rejected it is never shown; otherwise it has the applied window options and the planned chrome, ends closed, and has the dialog result and result of the dismissal |
| MessageBox.Show | OneCore.Net.WPF.MessageBoxes/MessageBox.cs:311-334 | null options throw ArgumentNullException("options") and create no window; a rejected limit throws ArgumentException for that limit before the window is shown; otherwise the window carries the arguments, options, applied window options and planned chrome, and the result is the window's result after a button, else OK for the OK set and Cancel for the others |
| MessageBox.ShowOverload | OneCore.Net.WPF.MessageBoxes/MessageBox.cs:60-297 | omitted arguments become no owner, empty caption, OK set, no icon and OK default; the message is passed through unchanged; an omitted options argument becomes a fresh options object with every constructor default, and then the call never throws; given options whose limits the framework rejects make it throw ArgumentException for the first rejected limit |
| MessageBox.TextOnlyDefaultsToOK | OneCore.Net.WPF.MessageBoxes/MessageBox.cs:60-63 | `Show(text)` is an overload, its close without a button is allowed, and that close gives OK |

## Left out

- Win32 interop (`DisableSystemMenu`, `DisableMinimizeButton`, `DisableMaximizeButton`, the close-button message hook, `User32`): foreign native calls; the model records only the decision to make each call.
- `ShowDialog`'s message loop and real keyboard focus belong to the WPF runtime; the dialog's end is a parameter and focus is a log of focus calls.
- MessageBox.Show: takes only dismissals that end the dialog. For YesNo and AbortRetryIgnore a close without a button is vetoed and the real dialog keeps waiting, so such a dismissal is excluded by the precondition instead of being modelled as an unbounded wait.
- MessageBox.Present: its window-options and chrome conclusions describe the window as it is set up; the modelled dialog runs no handler between setup and dismissal, so the details toggle, the content-rendered width adjustment and the user's dragging or resizing, which change position, size and limits in the real dialog, are not reflected in the final state. For the same reason an `ArgumentException` that the details toggle raises for an invalid detailed limit while the dialog is open (see `OnExpandDetailsClick`) is not part of its outcome.
- MessageBox.Show: the same as `Present` for its window-options and chrome conclusions.
- MessageBox.ShowOverload: carries the same precondition on the dismissal as `Show`.
- ButtonsPanel.MessageBoxButtonsPanel.SetDefaultButton: requires that the requested or the computed default part is visible. Without that, the source's fallback recursion never ends (`FallbackLoopsWhenDefaultHidden` shows the loop). The visible parts come from a XAML template that is not part of this model, so no concrete input can be named.
- Styling and theming (`HandleLoaded`, `TryApplyStyle`, `TakeStyles`, `SetTheme`, `SystemThemeProvider`, `ThemeManager`): visual-tree and theme lookups in code that is not part of this model.
- The width adjustment in `OnContentRendered` (`Measure` and the `panelWidth + 40` limits): floating-point layout arithmetic over a measured size.
- `SetCancelButton`, called when the content is rendered, is not part of this model.
- `Clipboard.SetText`: `Copy` returns the text instead.
- `SystemTexts.GetString` is the parameter `sys`; `IconToImage` and `SystemIcons` are the abstract `SystemIcon` kinds.
- The grid row heights the details toggle sets (`UpperArea`, `LowerArea`) and the `PropertyChanged` notifications: layout and data-binding plumbing.
- `IMessageBoxWrapper`, `MessageBoxWrapper` and `IMessageCopyFormatter`: only signatures or one-line forwarding. A custom copy formatter is an opaque reference whose behaviour is not modelled.
- Dependency-property registration, routed events, template parts and the style-holder controls (`MessageBoxButton`, `MessageBoxCheckBox`, `MessageBoxExpander`, `MessageBoxScrollViewer`, `MessageBoxText`, `MessageBoxDetailsPresenter`): framework registration without behaviour.
- C# enum variables can hold values outside their named members, and the `switch` statements then fall through doing nothing. The datatypes here hold only the named members; `ButtonsFromValue` and `ImagesFromValue` show which values are named.
- The help callback is returned rather than invoked, because its code is the caller's.

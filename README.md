# Material title pane, modelled in Dafny

This project models the non-drawing core of `MaterialTitlePaneUI`. That class is the title bar that the Material look and feel for Swing puts at the top of a decorated `JRootPane`. The model covers:

- what each window decoration style installs: the actions, the buttons and the active caption colours;
- the window-state machine `setState(state, updateRegardless)`, which keeps the actions, the toggle button and the mounted buttons in line with the host frame's extended state;
- the Close, Iconify, Maximize and Restore commands, as 32-bit masks over the recorded state;
- attaching to and detaching from the host window, the focus listener and the property-change dispatch;
- the layout: the pane's height and sizes, and where the buttons go from the trailing edge inward, mirrored for right-to-left;
- the part of painting that is arithmetic: the colour triple and where the title starts and how wide it may be.

Files:

- `options.dfy`: an `Option` type.
- `styles.dfy` (module `Styles`): decoration styles, the actions and buttons each style creates, and the colour tokens (`determineColors`).
- `window_bits.dfy` (module `WindowBits`): the `java.awt.Frame` extended-state bits (ICONIFIED = 1, MAXIMIZED_BOTH = 6) and the three masks the commands request.
- `host.dfy` (module `Host`): the host window as a value record; its title, its system icon, and the property names the pane reacts to.
- `geometry.dfy` (module `Geometry`): `TitlePaneLayout` and the title offset and clip width.
- `title_pane.dfy` (module `TitlePaneUI`): the class `TitlePane`, whose methods update its fields in place as the Java object does.

The fields that `setState` owns are read together as one `Owned` value. `StateEffect` says what one call does to that value. `TitlePane.SetState` is proved to have exactly that effect. The lemmas beside `StateEffect` prove what the state machine promises:

- the committed state is in line with the window, except for the Iconify flag on a frame, which a frame never re-enables;
- it is a no-op when untracked or unchanged;
- an unforced repeat changes nothing;
- a forced repeat changes nothing on a frame;
- when the frame is not iconified, the toggle offers the command that flips the maximized bits.

The host window is modelled as a record with these fields:

- its kind: frame, dialog or other;
- `extendedState`, `resizable`, `showing`, `active` and `leftToRight`;
- `width` and `insetsRight`;
- the title and the icon images.

Requests the pane makes of the window are appended to a `requests` log. These are `setExtendedState` and dispatching `WINDOW_CLOSING`.

The code makes three choices worth noting:

- `setState` does nothing at all when no window is bound or the style is not a frame. In that case `myState` is not committed either.
- The listener objects stay created after `uninstallListeners`. Only their registration ends.
- A frame's toggle button starts out bound to the Restore action while showing the maximize icon.

## Model

| member | source | states |
|---|---|---|
| Styles.ActionsFor | src/main/java/mdlaf/components/titlepane/MaterialTitlePaneUI.java:267-274 | Close exists for every style but NONE; Iconify, Restore and Maximize exist exactly for FRAME |
| Styles.ButtonsFor | src/main/java/mdlaf/components/titlepane/MaterialTitlePaneUI.java:324-338 | the close button exists for every style but NONE; the iconify and toggle buttons exactly for FRAME |
| Styles.InstalledCounts | src/main/java/mdlaf/components/titlepane/MaterialTitlePaneUI.java:144-166 | a frame gets four actions and three buttons, each dialog style one of each, NONE nothing |
| Styles.DetermineColors | src/main/java/mdlaf/components/titlepane/MaterialTitlePaneUI.java:177-225 | every style but the file chooser takes its family's background, foreground and shadow; the file chooser takes the question background as its shadow; only non-dialog styles take the activeCaption tokens; the active background is never an inactive token |
| Styles.ThemeKeys | src/main/java/mdlaf/components/titlepane/MaterialTitlePaneUI.java:177-225 | the theme keys behind the table: activeCaption keys for a frame and the default branch, the error keys for information, the question background as the file chooser's shadow |
| Styles.ColorQuirks | src/main/java/mdlaf/components/titlepane/MaterialTitlePaneUI.java:194-222 | information uses the error tokens; plain and colour chooser use the question tokens; the file chooser differs from the question tokens only in its shadow; the default branch equals FRAME |
| Styles.PaintColors | src/main/java/mdlaf/components/titlepane/MaterialTitlePaneUI.java:462-478 | a selected window paints with the style's active triple, an unselected one with the shared inactive triple, which is never the active one |
| WindowBits.Iconified | src/main/java/mdlaf/components/titlepane/MaterialTitlePaneUI.java:239-244 | the requested mask has the iconified bit set and every other bit kept |
| WindowBits.Maximized | src/main/java/mdlaf/components/titlepane/MaterialTitlePaneUI.java:246-251 | the requested mask has both maximized bits set and every other bit kept |
| WindowBits.Restored | src/main/java/mdlaf/components/titlepane/MaterialTitlePaneUI.java:253-265 | an iconified state loses only its iconified bit; any other state loses only its two maximized bits |
| WindowBits.RestoreUndoesIconify | src/main/java/mdlaf/components/titlepane/MaterialTitlePaneUI.java:239-265 | Restore after Iconify gives back a state that was not iconified |
| WindowBits.RestoreUndoesMaximize | src/main/java/mdlaf/components/titlepane/MaterialTitlePaneUI.java:246-265 | Restore after Maximize gives back a state that was neither iconified nor maximized |
| WindowBits.RestorePrefersIconified | src/main/java/mdlaf/components/titlepane/MaterialTitlePaneUI.java:260-264 | restoring iconified-and-maximized (7) gives maximized-both (6), which is still maximized |
| Host.TitleOf | src/main/java/mdlaf/components/titlepane/MaterialTitlePaneUI.java:442-451 | a frame's or a dialog's title; no title without a window or for any other window |
| Host.SystemIconOf | src/main/java/mdlaf/components/titlepane/MaterialTitlePaneUI.java:685-704 | an icon exactly when a window with at least one icon image is bound, and then the first image |
| Host.ParseKey | src/main/java/mdlaf/components/titlepane/MaterialTitlePaneUI.java:659-683 | a recognised property name is the name of the key it is parsed to |
| Host.ParseKeyName | src/main/java/mdlaf/components/titlepane/MaterialTitlePaneUI.java:663-677 | each of the five property names the handler tests is recognised as its own key |
| Host.IgnoredNames | src/main/java/mdlaf/components/titlepane/MaterialTitlePaneUI.java:659-683 | a name is ignored exactly when it is none of the five property names |
| Geometry.ComputeHeight | src/main/java/mdlaf/components/titlepane/MaterialTitlePaneUI.java:588-598 | the height is the larger of font height + 7 and the 16-pixel icon height of a frame (0 otherwise) |
| Geometry.PreferredLayoutSize | src/main/java/mdlaf/components/titlepane/MaterialTitlePaneUI.java:578-582 | the preferred size is exactly (h, h) for the computed height h, so it is square and at least font height + 7 |
| Geometry.MinimumLayoutSize | src/main/java/mdlaf/components/titlepane/MaterialTitlePaneUI.java:584-586 | the minimum size equals the preferred size |
| Geometry.ButtonSize | src/main/java/mdlaf/components/titlepane/MaterialTitlePaneUI.java:612-618 | every button takes the close icon's size, or 16 by 16 without a close button or icon |
| Geometry.Gap | src/main/java/mdlaf/components/titlepane/MaterialTitlePaneUI.java:627-649 | the spacing before each button is positive: 4 for close, 10 for the toggle, 2 for iconify |
| Geometry.PlacedButtons | src/main/java/mdlaf/components/titlepane/MaterialTitlePaneUI.java:629-655 | at most three buttons are placed, and close is among them exactly when the style is decorated |
| Geometry.PlacementOrder | src/main/java/mdlaf/components/titlepane/MaterialTitlePaneUI.java:629-655 | the layout places close first whenever it exists, then the toggle only if mounted and maximize-both is supported, then a mounted iconify button last; each button at most once and only buttons the style creates |
| Geometry.CursorStep | src/main/java/mdlaf/components/titlepane/MaterialTitlePaneUI.java:626-654 | each placement moves the cursor inward by the button's spacing, places the button there and, right to left, steps past it |
| Geometry.SlotsMirror | src/main/java/mdlaf/components/titlepane/MaterialTitlePaneUI.java:621-654 | right-to-left x equals the pane width minus the left-to-right x minus the button width |
| Geometry.SlotStep | src/main/java/mdlaf/components/titlepane/MaterialTitlePaneUI.java:638-653 | each placed button sits its spacing plus one button width inward of the previous one |
| Geometry.SlotsInOrder | src/main/java/mdlaf/components/titlepane/MaterialTitlePaneUI.java:626-654 | placed buttons never overlap: each later one lies wholly inward of every earlier one |
| Geometry.ExampleLayout | src/main/java/mdlaf/components/titlepane/MaterialTitlePaneUI.java:600-656 | a 300-pixel frame pane with 16-pixel buttons places close, toggle and iconify at 280, 254, 236 left to right and at 4, 30, 48 right to left |
| Geometry.TitleXOffset | src/main/java/mdlaf/components/titlepane/MaterialTitlePaneUI.java:488-492 | the title starts 5 pixels from the leading edge, or 26 in a frame, measured from the right edge when right to left |
| Geometry.TitleOffsetMirrors | src/main/java/mdlaf/components/titlepane/MaterialTitlePaneUI.java:488-492 | the title starts 5 pixels in, 26 in a frame, and the right-to-left offset mirrors the left-to-right one |
| Geometry.TitleClipWidth | src/main/java/mdlaf/components/titlepane/MaterialTitlePaneUI.java:503-520 | left to right the title ends 4 pixels before the iconify button, or before the window's right inset less 2 when that button's x is 0; right to left it ends 4 pixels past the button's far side |
| Geometry.TitleClearsButtons | src/main/java/mdlaf/components/titlepane/MaterialTitlePaneUI.java:488-520 | with the iconify button mounted and laid out at a nonzero x (left to right; at any x right to left), the clipped title keeps 4 pixels clear of every placed button in either direction |
| Geometry.TitleOverlapsAtZero | src/main/java/mdlaf/components/titlepane/MaterialTitlePaneUI.java:503-513 | in a 64-pixel frame pane and window with 16-pixel buttons, iconify is laid out at x 0, the clip falls back to the window edge, and the title (from 26, width 32) runs across the toggle and close buttons |
| TitlePaneUI.BorderAfter | src/main/java/mdlaf/components/titlepane/MaterialTitlePaneUI.java:371-375 | the border is kept or removed; an application border, a frame that is not maximized, or one not showing keeps it; a maximized, showing frame never keeps a look-and-feel border |
| TitlePaneUI.AttachState | src/main/java/mdlaf/components/titlepane/MaterialTitlePaneUI.java:126-130 | a frame's extended state is applied on attach; any other window gets a state that is neither maximized nor iconified |
| TitlePaneUI.StateEffect | src/main/java/mdlaf/components/titlepane/MaterialTitlePaneUI.java:359-421 | either nothing changes or the state is committed; a changed state means a frame-style pane is attached and Close is enabled; relayout and repaint counts never decrease |
| TitlePaneUI.ChangeSyncs | src/main/java/mdlaf/components/titlepane/MaterialTitlePaneUI.java:359-420 | a state change that goes through commits the state, enables Close and sets the actions, the toggle and the mounted buttons to match the window kind and whether the state is maximized |
| TitlePaneUI.UntrackedKeeps | src/main/java/mdlaf/components/titlepane/MaterialTitlePaneUI.java:359-365 | with no window, a non-frame style, or an unforced call with the recorded state, setState changes nothing, myState included |
| TitlePaneUI.FixedKeepsIconify | src/main/java/mdlaf/components/titlepane/MaterialTitlePaneUI.java:399-407 | on a frame that is not resizable, the iconify action's enabled flag and the iconify button's mounting are unchanged |
| TitlePaneUI.FrameKeepsIconifyEnabled | src/main/java/mdlaf/components/titlepane/MaterialTitlePaneUI.java:368-407 | on a frame, setState never changes the Iconify action's enabled flag, in either the resizable or the fixed branch |
| TitlePaneUI.IconifyStaysDisabled | src/main/java/mdlaf/components/titlepane/MaterialTitlePaneUI.java:381-417 | after a non-frame window disabled Iconify, a resizable frame mounts the iconify button again but leaves its action disabled |
| TitlePaneUI.ReapplyKeeps | src/main/java/mdlaf/components/titlepane/MaterialTitlePaneUI.java:362-365 | after any call, an unforced call with the same state changes nothing |
| TitlePaneUI.ForcedReapply | src/main/java/mdlaf/components/titlepane/MaterialTitlePaneUI.java:359-420 | forcing the same state again changes nothing on a frame, and only adds one relayout and repaint on another window |
| TitlePaneUI.ToggleFlips | src/main/java/mdlaf/components/titlepane/MaterialTitlePaneUI.java:381-390 | on a resizable frame that is not iconified, the toggle's action is enabled, is Maximize exactly when the state is not maximized, and its command flips the maximized bits |
| TitlePaneUI.TitlePane.OnlyInstalled | src/main/java/mdlaf/components/titlepane/MaterialTitlePaneUI.java:144-166 | under the invariant only actions and buttons the style creates are enabled or mounted |
| TitlePaneUI.TitlePane.constructor | src/main/java/mdlaf/components/titlepane/MaterialTitlePaneUI.java:69-79 | myState starts at -1 with no window; the actions, the buttons and the active colours are those of the style; a frame's toggle is bound to Restore with the maximize icon |
| TitlePaneUI.TitlePane.InstallSubcomponents | src/main/java/mdlaf/components/titlepane/MaterialTitlePaneUI.java:144-166 | an action is enabled exactly when the style creates it, and the mounted buttons are exactly those the style creates |
| TitlePaneUI.TitlePane.GetFrame | src/main/java/mdlaf/components/titlepane/MaterialTitlePaneUI.java:429-436 | the bound window exactly when it is a frame |
| TitlePaneUI.TitlePane.SetState | src/main/java/mdlaf/components/titlepane/MaterialTitlePaneUI.java:359-421 | the owned fields become StateEffect of their old value, and the pane's invariant is kept |
| TitlePaneUI.TitlePane.ApplyToResizable | src/main/java/mdlaf/components/titlepane/MaterialTitlePaneUI.java:371-419 | a maximized state enables Restore and binds the toggle to Restore with the minimize icon; otherwise Maximize and the maximize icon; both buttons are mounted with one relayout and repaint if either was missing; the border is dropped when the frame is maximized and showing and the border is not the application's; Close is enabled and the state committed |
| TitlePaneUI.TitlePane.MountFrameButtons | src/main/java/mdlaf/components/titlepane/MaterialTitlePaneUI.java:391-397 | the toggle and iconify buttons end up mounted, with one relayout and repaint exactly when either was missing |
| TitlePaneUI.TitlePane.ApplyToFixed | src/main/java/mdlaf/components/titlepane/MaterialTitlePaneUI.java:399-419 | Maximize and Restore are disabled and the toggle is unmounted, with one relayout and repaint exactly when it was mounted; the border rule applies; Close is enabled and the state committed |
| TitlePaneUI.TitlePane.ApplyToNonFrame | src/main/java/mdlaf/components/titlepane/MaterialTitlePaneUI.java:408-419 | Maximize, Restore and Iconify are disabled, the toggle and iconify buttons are unmounted, one relayout and repaint, Close is enabled and the state committed |
| TitlePaneUI.TitlePane.UpdateToggleButton | src/main/java/mdlaf/components/titlepane/MaterialTitlePaneUI.java:423-427 | the toggle is rebound to the given action and icon |
| TitlePaneUI.TitlePane.Close | src/main/java/mdlaf/components/titlepane/MaterialTitlePaneUI.java:231-237 | one WINDOW_CLOSING request exactly when a window is bound |
| TitlePaneUI.TitlePane.Iconify | src/main/java/mdlaf/components/titlepane/MaterialTitlePaneUI.java:239-244 | a request for the recorded state with the iconified bit exactly when a frame is bound |
| TitlePaneUI.TitlePane.Maximize | src/main/java/mdlaf/components/titlepane/MaterialTitlePaneUI.java:246-251 | a request for the recorded state with both maximized bits exactly when a frame is bound |
| TitlePaneUI.TitlePane.Restore | src/main/java/mdlaf/components/titlepane/MaterialTitlePaneUI.java:253-265 | a request for the restored mask exactly when a frame is bound |
| TitlePaneUI.TitlePane.PerformAction | src/main/java/mdlaf/components/titlepane/MaterialTitlePaneUI.java:528-569 | each action runs its own command; only a frame has the three frame actions |
| TitlePaneUI.TitlePane.SetActive | src/main/java/mdlaf/components/titlepane/MaterialTitlePaneUI.java:344-353 | every button's paintActive takes the new value and the root pane repaints once |
| TitlePaneUI.TitlePane.UpdateSystemIcon | src/main/java/mdlaf/components/titlepane/MaterialTitlePaneUI.java:685-704 | the system icon becomes the bound window's first icon image, or none |
| TitlePaneUI.TitlePane.UninstallListeners | src/main/java/mdlaf/components/titlepane/MaterialTitlePaneUI.java:96-101 | the listeners are unregistered when a window is bound, and their objects stay |
| TitlePaneUI.TitlePane.InstallListeners | src/main/java/mdlaf/components/titlepane/MaterialTitlePaneUI.java:87-94 | with a window bound both listeners are created and registered; without one nothing changes |
| TitlePaneUI.TitlePane.AddNotify | src/main/java/mdlaf/components/titlepane/MaterialTitlePaneUI.java:119-135 | binds the ancestor window; with one, applies its extended state (0 for a non-frame) unforced, follows its focus, registers the listeners and takes its icon; without one, the previous window's listeners are unregistered and the binding is cleared, and nothing else changes |
| TitlePaneUI.TitlePane.Attach | src/main/java/mdlaf/components/titlepane/MaterialTitlePaneUI.java:125-134 | the state applied on attach is the frame's extended state, or 0 for any other window, followed by focus, listeners and icon |
| TitlePaneUI.TitlePane.FollowWindow | src/main/java/mdlaf/components/titlepane/MaterialTitlePaneUI.java:131-133 | focus, listeners and icon follow the bound window, and setState's fields are untouched |
| TitlePaneUI.TitlePane.RemoveNotify | src/main/java/mdlaf/components/titlepane/MaterialTitlePaneUI.java:137-142 | the listeners are unregistered and the window unbound |
| TitlePaneUI.TitlePane.Uninstall | src/main/java/mdlaf/components/titlepane/MaterialTitlePaneUI.java:81-85 | as removeNotify, and no button stays mounted |
| TitlePaneUI.TitlePane.WindowActivation | src/main/java/mdlaf/components/titlepane/MaterialTitlePaneUI.java:706-714 | activation and deactivation set paintActive and repaint the root pane, and the window now reports the new focus, so the next paint uses the matching colour triple |
| TitlePaneUI.TitlePane.PropertyChange | src/main/java/mdlaf/components/titlepane/MaterialTitlePaneUI.java:659-683 | "resizable" and "state" force setState with a frame's extended state, and "resizable" also repaints the root pane; "title" repaints; "componentOrientation" relayouts and repaints; "iconImage" retakes the icon and relayouts and repaints; any other name changes nothing, and so does "resizable" or "state" on a window that is not a frame, apart from the root repaint for "resizable"; the host is the same window, so its kind does not change |
| TitlePaneUI.TitlePane.HandleChange | src/main/java/mdlaf/components/titlepane/MaterialTitlePaneUI.java:663-681 | the same dispatch on the parsed key, including that "resizable" and "state" on a window that is not a frame neither relayout nor repaint the pane |
| TitlePaneUI.TitlePane.RefreshView | src/main/java/mdlaf/components/titlepane/MaterialTitlePaneUI.java:672-681 | the title, orientation and icon-image branches, and that they leave setState's fields alone |
| TitlePaneUI.TitlePane.ReapplyFrameState | src/main/java/mdlaf/components/titlepane/MaterialTitlePaneUI.java:663-671 | a bound frame's state is forced through setState, nothing happens on another window, and "resizable" repaints the root pane |
| TitlePaneUI.TitlePane.LayoutContainer | src/main/java/mdlaf/components/titlepane/MaterialTitlePaneUI.java:600-656 | each placed button gets the bounds of its slot, at y 3 with the shared button size, and buttons not placed keep their bounds |
| TitlePaneUI.TitlePane.PlaceButton | src/main/java/mdlaf/components/titlepane/MaterialTitlePaneUI.java:628-653 | one cursor step: move in by the spacing, set the bounds, and step past the button right to left |
| TitlePaneUI.TitlePane.LeftToRight | src/main/java/mdlaf/components/titlepane/MaterialTitlePaneUI.java:459-461 | the orientation is the attached window's, or the root pane's without a window |
| TitlePaneUI.TitlePane.PaintComponent | src/main/java/mdlaf/components/titlepane/MaterialTitlePaneUI.java:453-520 | a bound frame's state is applied unforced first; the colour triple follows the window's focus; the title offset and clip width are those of TitleXOffset and TitleClipWidth, measured against a mounted iconify button; there is a width exactly when there is a title |

## Left out

- Drawing is not modelled: filling the background, the shadow lines, anti-aliasing and drawing the string. Fonts are also left out: `FontMetrics`, `getClippedString` and `stringWidth`. The font height is a parameter of the height functions.
- Theme lookups through `UIManager` are not modelled. Colours are token names, icons are two symbols, and the close icon's size is a constructor parameter. The action labels and the title font are not modelled.
- `Toolkit.isFrameStateSupported(MAXIMIZED_BOTH)` is not modelled; it is a boolean parameter of `LayoutContainer`.
- Listener objects, registration and event delivery are flags only: created and registered. `getWindowAncestor` is the parameter of `AddNotify`, and the host's record is a parameter of `PropertyChange`.
- Button presentation is not modelled: `JButtonNoMouseHoverNative`, `createButton`'s flags, background colours, `initMaterialButtonClose` and `setText(null)`.
- The unused menu (`createMenu`, `addMenuItems`) and `updateUI`'s icon reloading are not modelled.
- Requests sent to the window are logged. The host record does not change in response; the host reports its new state back through `PropertyChange`.
- The order of children within the container is not modelled; only which buttons are mounted.
- Geometry.TitleClearsButtons: left to right, it holds only when the iconify button's x is not 0. The code takes x 0 as "no bounds" and cannot tell it from a button laid out at the very left edge of a narrow pane. In that case the title is clipped at the window edge and can run across the other buttons (Geometry.TitleOverlapsAtZero). The model keeps the code's behaviour.
- TitlePaneUI.SyncedTo: does not cover the Iconify action's enabled flag on a frame, because the code never re-enables it there. A pane that was once attached to a window that is not a frame keeps Iconify disabled after it is attached to a frame (TitlePaneUI.IconifyStaysDisabled). The model reproduces this.
- TitlePaneUI.TitlePane.SetActive: requires a decorated style. With style NONE the code would dereference a close button that was never created.
- TitlePaneUI.TitlePane.PerformAction: requires an action the style created, since no other action object exists.
- TitlePaneUI.TitlePane.LayoutContainer: the geometry is on unbounded integers and does not model 32-bit overflow of Java `int`. The same holds for Geometry.ComputeHeight (`fontHeight + 7`), Geometry.TitleXOffset, Geometry.TitleClipWidth and TitlePaneUI.TitlePane.PaintComponent.
- TitlePaneUI.TitlePane.PaintComponent: reads the window's extended state, width, right inset and title as last reported: on attach, on a property change, or, for focus, on an activation event. The code queries the live window at each paint. It also does not model that the right-to-left branch moves the offset by the clipped string's width, which needs `FontMetrics`.
- The shared `paintActive` field stands for the client property of every created button, since `setActive` always sets them all together.
- `setState(int)` is `SetState` with `updateRegardless` false.
- The root pane's border has three cases. It is absent, supplied by the look and feel, or set by the application. Only the last is kept when a showing frame is maximized.

/**
 * The title pane itself: the object whose fields the window-state machine,
 * the attach/detach protocol, the event handlers and the layout update in place.
 */
module TitlePaneUI {
  import opened Options
  import opened Styles
  import opened WindowBits
  import opened Host
  import opened Geometry

  /** The action and icon the toggle button currently carries. */
  datatype ToggleBinding = ToggleBinding(action: Action, icon: ToggleIcon)

  /** The root pane's border: none, a look-and-feel supplied one, or one the application set. */
  datatype Border = NoBorder | ResourceBorder | CustomBorder

  /** What the pane asks of its host window. */
  datatype WindowRequest = WindowClosing | SetExtendedState(state: bv32)

  /** What one paint pass decides: the colour triple, where the title starts and the width it is clipped to. */
  datatype PaintPlan = PaintPlan(colors: ColorTriple, titleX: int, titleWidth: Option<int>)

  /** setState's border rule: a maximized, showing frame drops the border unless the application set it. */
  function BorderAfter(border: Border, frameMaximized: bool, showing: bool): (r: Border)
    ensures r == border || r == NoBorder
    ensures border == CustomBorder || !frameMaximized || !showing ==> r == border
    ensures frameMaximized && showing ==> r != ResourceBorder
  {
    if frameMaximized && border != CustomBorder && showing then NoBorder else border
  }

  /** The first extended state the pane applies when it is attached to a window. */
  function AttachState(w: Window): (r: bv32)
    ensures w.IsFrame() ==> r == w.extendedState
    ensures !w.IsFrame() ==> !IsMaximized(r) && !IsIconified(r)
  {
    if w.IsFrame() then w.extendedState else NORMAL
  }

  /**
   * The fields setState owns, read together: the applied state, the root
   * border, the toggle's binding, the four enabled flags, the mounted flags of
   * the two frame buttons, and the relayout and repaint counts.
   */
  datatype Owned = Owned(
    myState: bv32, rootBorder: Border, toggle: Option<ToggleBinding>,
    closeEnabled: bool, iconifyEnabled: bool, restoreEnabled: bool, maximizeEnabled: bool,
    iconifyMounted: bool, toggleMounted: bool, revalidations: nat, repaints: nat)

  /** Window state is tracked only by a frame-style pane attached to some window. */
  predicate Tracks(style: DecorationStyle, window: Option<Window>) {
    window.Some? && style == Frame
  }

  /** The toggle of a resizable frame offers Restore when maximized and Maximize otherwise. */
  function ToggleFor(maximized: bool): ToggleBinding {
    if maximized then ToggleBinding(RestoreAction, MinimizeIcon) else ToggleBinding(MaximizeAction, MaximizeIcon)
  }

  /**
   * setState on a resizable frame: the border goes when the frame is maximized
   * and showing (unless the application set it), Restore and Maximize are
   * enabled by whether the state is maximized, the toggle follows, and the
   * toggle and iconify buttons are mounted, with one relayout and repaint when
   * either was missing.
   */
  function ResizableEffect(before: Owned, state: bv32, showing: bool): Owned {
    var max := IsMaximized(state);
    var added := if before.toggleMounted && before.iconifyMounted then 0 else 1;
    before.(myState := state, rootBorder := BorderAfter(before.rootBorder, max, showing),
            closeEnabled := true, restoreEnabled := max, maximizeEnabled := !max,
            toggle := Some(ToggleFor(max)), toggleMounted := true, iconifyMounted := true,
            revalidations := before.revalidations + added, repaints := before.repaints + added)
  }

  /**
   * setState on a frame that is not resizable: Maximize and Restore are
   * disabled and the toggle leaves, with one relayout and repaint when it was
   * mounted.
   */
  function FixedEffect(before: Owned, state: bv32, showing: bool): Owned {
    var removed := if before.toggleMounted then 1 else 0;
    before.(myState := state, rootBorder := BorderAfter(before.rootBorder, IsMaximized(state), showing),
            closeEnabled := true, restoreEnabled := false, maximizeEnabled := false,
            toggleMounted := false,
            revalidations := before.revalidations + removed, repaints := before.repaints + removed)
  }

  /**
   * setState on a window that is not a frame: the three frame actions are
   * disabled, their buttons leave, and the pane always relayouts and repaints.
   */
  function NonFrameEffect(before: Owned, state: bv32): Owned {
    before.(myState := state, closeEnabled := true, iconifyEnabled := false,
            restoreEnabled := false, maximizeEnabled := false,
            toggleMounted := false, iconifyMounted := false,
            revalidations := before.revalidations + 1, repaints := before.repaints + 1)
  }

  /**
   * The effect of setState(state, updateRegardless) on the fields it owns,
   * judged against the window the pane is attached to: nothing changes unless
   * a frame-style pane is attached and the state is new or the update is
   * forced; otherwise the branch for the kind of window applies.
   */
  function StateEffect(style: DecorationStyle, window: Option<Window>, before: Owned,
                       state: bv32, updateRegardless: bool): (r: Owned)
    ensures r == before || r.myState == state
    ensures r.myState != before.myState ==> Tracks(style, window) && r.closeEnabled
    ensures r.revalidations >= before.revalidations && r.repaints >= before.repaints
  {
    if !Tracks(style, window) || (before.myState == state && !updateRegardless) then before
    else if window.value.IsFrame() && window.value.resizable then
      ResizableEffect(before, state, window.value.showing)
    else if window.value.IsFrame() then FixedEffect(before, state, window.value.showing)
    else NonFrameEffect(before, state)
  }

  /** What a committed state change leaves behind, for the window the pane is attached to. */
  predicate SyncedTo(w: Window, o: Owned, state: bv32) {
    var max := IsMaximized(state);
    && o.myState == state
    && o.closeEnabled
    && (w.IsFrame() && w.resizable ==>
          o.restoreEnabled == max && o.maximizeEnabled == !max && o.toggle == Some(ToggleFor(max))
          && o.toggleMounted && o.iconifyMounted)
    && (w.IsFrame() && !w.resizable ==> !o.restoreEnabled && !o.maximizeEnabled && !o.toggleMounted)
    && (!w.IsFrame() ==>
          !o.restoreEnabled && !o.maximizeEnabled && !o.iconifyEnabled && !o.toggleMounted && !o.iconifyMounted)
  }

  /** A state change that goes through leaves the fields in line with the new state. */
  lemma ChangeSyncs(style: DecorationStyle, w: Window, before: Owned, state: bv32, updateRegardless: bool)
    requires style == Frame && (before.myState != state || updateRegardless)
    ensures SyncedTo(w, StateEffect(style, Some(w), before, state, updateRegardless), state)
  {
  }

  /**
   * Without a window, or for a pane that is not frame-style, setState changes
   * nothing, not even the recorded state; neither does an unforced call with
   * the state already recorded.
   */
  lemma UntrackedKeeps(style: DecorationStyle, window: Option<Window>, before: Owned, state: bv32,
                       updateRegardless: bool)
    requires !Tracks(style, window) || (before.myState == state && !updateRegardless)
    ensures StateEffect(style, window, before, state, updateRegardless) == before
  {
  }

  /** On a frame that is not resizable, setState leaves the iconify action and button as they were. */
  lemma FixedKeepsIconify(w: Window, before: Owned, state: bv32, updateRegardless: bool)
    requires w.IsFrame() && !w.resizable
    ensures var after := StateEffect(Frame, Some(w), before, state, updateRegardless);
      after.iconifyEnabled == before.iconifyEnabled && after.iconifyMounted == before.iconifyMounted
  {
  }

  /**
   * On any frame, setState never touches the Iconify action's enabled flag:
   * once the window-is-not-a-frame branch has disabled it, a later frame
   * mounts the iconify button again but leaves its action disabled.
   */
  lemma FrameKeepsIconifyEnabled(w: Window, before: Owned, state: bv32, updateRegardless: bool)
    requires w.IsFrame()
    ensures StateEffect(Frame, Some(w), before, state, updateRegardless).iconifyEnabled == before.iconifyEnabled
  {
  }

  /** A dialog then a resizable frame: the iconify button comes back mounted with its action disabled. */
  lemma IconifyStaysDisabled(dialog: Window, frame: Window, before: Owned)
    requires !dialog.IsFrame() && frame.IsFrame() && frame.resizable && before.myState != NORMAL
    ensures var first := StateEffect(Frame, Some(dialog), before, NORMAL, false);
      var second := StateEffect(Frame, Some(frame), first, MAXIMIZED_BOTH, false);
      second.iconifyMounted && !second.iconifyEnabled
  {
  }

  /** Applying the same state again without forcing it changes nothing. */
  lemma ReapplyKeeps(style: DecorationStyle, window: Option<Window>, before: Owned, state: bv32,
                     updateRegardless: bool)
    ensures var after := StateEffect(style, window, before, state, updateRegardless);
      StateEffect(style, window, after, state, false) == after
  {
  }

  /**
   * Once a state change has gone through, forcing the same state again on a
   * frame changes nothing (the border rule is idempotent and no button is
   * added or removed the second time); on a window that is not a frame it
   * only requests another relayout and repaint.
   */
  lemma ForcedReapply(style: DecorationStyle, w: Window, before: Owned, state: bv32, updateRegardless: bool)
    requires Tracks(style, Some(w)) && (before.myState != state || updateRegardless)
    ensures var after := StateEffect(style, Some(w), before, state, updateRegardless);
      var again := StateEffect(style, Some(w), after, state, true);
      && (w.IsFrame() ==> again == after)
      && (!w.IsFrame() ==> again == after.(revalidations := after.revalidations + 1, repaints := after.repaints + 1))
  {
  }

  /**
   * On a resizable frame in line with a state that is not iconified, the
   * toggle's action is enabled and the command it runs flips the maximized
   * bits: Maximize when the frame is not maximized, Restore when it is.
   */
  lemma ToggleFlips(w: Window, o: Owned, state: bv32)
    requires w.IsFrame() && w.resizable && SyncedTo(w, o, state) && !IsIconified(state)
    ensures o.toggle.Some?
    ensures o.toggle.value.action == MaximizeAction ==> o.maximizeEnabled && Maximized(state) != state
    ensures o.toggle.value.action == RestoreAction ==> o.restoreEnabled && !IsMaximized(Restored(state))
    ensures o.toggle.value.action == MaximizeAction <==> !IsMaximized(state)
  {
  }

  class TitlePane {
    /** The root pane's decoration style, fixed for the pane's lifetime. */
    const style: DecorationStyle
    /** The size of the close icon the theme supplied, if any. */
    const closeIcon: Option<Size>
    /** The colours of the active caption. */
    const activeColors: ColorTriple

    /** The last window state applied (myState). */
    var myState: bv32
    /** The window the pane is attached to, as it last reported itself: on attach, a property change or a focus change. */
    var myWindow: Option<Window>
    /** The enabled flags of the four actions; an action the style does not create stays disabled. */
    var closeEnabled: bool
    var iconifyEnabled: bool
    var restoreEnabled: bool
    var maximizeEnabled: bool
    /** The toggle button's action and icon, for a frame. */
    var toggle: Option<ToggleBinding>
    /** Which buttons are currently children of the pane. */
    var closeMounted: bool
    var iconifyMounted: bool
    var toggleMounted: bool
    /** The "paintActive" client property, which every created button carries with the same value. */
    var paintActive: bool
    /** The bounds the layout last gave each button. */
    var closeBounds: Rect
    var iconifyBounds: Rect
    var toggleBounds: Rect
    var systemIcon: Option<Image>
    /** The two listener fields are set (they stay set after detaching). */
    var listenersCreated: bool
    /** The listeners are registered on the attached window. */
    var listenersRegistered: bool
    var rootBorder: Border
    /** How many revalidate and repaint requests the pane has made of itself, and repaints of its root pane. */
    var revalidations: nat
    var repaints: nat
    var rootRepaints: nat
    /** The requests sent to host windows, oldest first. */
    var requests: seq<WindowRequest>

    /** The enabled flag of an action. */
    function Enabled(a: Action): bool
      reads this
    {
      match a
      case CloseAction => closeEnabled
      case IconifyAction => iconifyEnabled
      case RestoreAction => restoreEnabled
      case MaximizeAction => maximizeEnabled
    }

    /** The buttons that are currently children of the pane. */
    function Mounted(): set<Button>
      reads this
    {
      (if closeMounted then {CloseButton} else {})
      + (if iconifyMounted then {IconifyButton} else {})
      + (if toggleMounted then {ToggleButton} else {})
    }

    /** The bounds of a button. */
    function BoundsOf(b: Button): Rect
      reads this
    {
      match b
      case CloseButton => closeBounds
      case IconifyButton => iconifyBounds
      case ToggleButton => toggleBounds
    }

    /**
     * The pane's object invariant: what the style installed is still all there
     * is, close is enabled exactly when it exists, the toggle is only ever
     * mounted with the iconify button, and the listeners are registered exactly
     * while a window is attached.
     */
    ghost predicate Valid()
      reads this
    {
      Shape() && Binding()
    }

    ghost predicate Shape()
      reads this
    {
      && activeColors == DetermineColors(style)
      && (closeEnabled <==> style != NoDecoration)
      && (iconifyEnabled || restoreEnabled || maximizeEnabled ==> style == Frame)
      && (closeMounted ==> style != NoDecoration)
      && (iconifyMounted || toggleMounted ==> style == Frame)
      && (toggleMounted ==> iconifyMounted)
      && (toggle.Some? <==> style == Frame)
    }

    ghost predicate Binding()
      reads this
    {
      && (listenersRegistered <==> myWindow.Some?)
      && (listenersRegistered ==> listenersCreated)
      && (myWindow.Some? ==> style != NoDecoration)
    }

    /** Under the invariant only the actions and buttons the style creates can be enabled or mounted. */
    lemma OnlyInstalled()
      requires Shape()
      ensures forall a :: Enabled(a) ==> a in ActionsFor(style)
      ensures Mounted() <= ButtonsFor(style)
    {
    }

    /** Construction: the style decides the actions and buttons created and mounted, and the active colours. */
    constructor (style: DecorationStyle, closeIcon: Option<Size>, rootBorder: Border)
      ensures Valid()
      ensures this.style == style && this.closeIcon == closeIcon && this.rootBorder == rootBorder
      ensures myState == UNKNOWN_STATE && myWindow.None?
      ensures forall a :: Enabled(a) <==> a in ActionsFor(style)
      ensures Mounted() == ButtonsFor(style)
      ensures style == Frame ==> toggle == Some(ToggleBinding(RestoreAction, MaximizeIcon))
      ensures paintActive && forall b :: BoundsOf(b) == EMPTY_RECT
      ensures systemIcon.None? && !listenersCreated && !listenersRegistered
      ensures revalidations == 0 && repaints == 0 && rootRepaints == 0 && requests == []
    {
      this.style := style;
      this.closeIcon := closeIcon;
      activeColors := DetermineColors(style);
      this.rootBorder := rootBorder;
      myState := UNKNOWN_STATE;
      myWindow := None;
      paintActive := true;
      closeBounds, iconifyBounds, toggleBounds := EMPTY_RECT, EMPTY_RECT, EMPTY_RECT;
      systemIcon := None;
      listenersCreated, listenersRegistered := false, false;
      revalidations, repaints, rootRepaints := 0, 0, 0;
      requests := [];
      new;
      InstallSubcomponents();
    }

    /**
     * installSubcomponents with createActions and createButtons: a frame gets
     * four actions and three mounted buttons, a dialog the close action and
     * button, any other style nothing.
     */
    method InstallSubcomponents()
      modifies this`closeEnabled, this`iconifyEnabled, this`restoreEnabled, this`maximizeEnabled
      modifies this`toggle, this`closeMounted, this`iconifyMounted, this`toggleMounted
      ensures closeEnabled == closeMounted == (style != NoDecoration)
      ensures iconifyEnabled == restoreEnabled == maximizeEnabled == (style == Frame)
      ensures iconifyMounted == toggleMounted == (style == Frame)
      ensures toggle == if style == Frame then Some(ToggleBinding(RestoreAction, MaximizeIcon)) else None
      ensures forall a :: Enabled(a) <==> a in ActionsFor(style)
      ensures Mounted() == ButtonsFor(style)
    {
      if style == Frame {
        closeEnabled, iconifyEnabled, restoreEnabled, maximizeEnabled := true, true, true, true;
        // The toggle starts out bound to the Restore action while showing the maximize icon.
        toggle := Some(ToggleBinding(RestoreAction, MaximizeIcon));
        iconifyMounted, toggleMounted, closeMounted := true, true, true;
      } else if IsDialog(style) {
        closeEnabled, iconifyEnabled, restoreEnabled, maximizeEnabled := true, false, false, false;
        toggle := None;
        iconifyMounted, toggleMounted, closeMounted := false, false, true;
      } else {
        closeEnabled, iconifyEnabled, restoreEnabled, maximizeEnabled := false, false, false, false;
        toggle := None;
        iconifyMounted, toggleMounted, closeMounted := false, false, false;
      }
    }

    /** The attached window when it is a frame. */
    function GetFrame(): (f: Option<Window>)
      reads this
      ensures f.Some? <==> myWindow.Some? && myWindow.value.IsFrame()
      ensures f.Some? ==> f == myWindow
    {
      if myWindow.Some? && myWindow.value.IsFrame() then myWindow else None
    }

    /** The fields setState owns, as one value. */
    function StateFields(): Owned
      reads this`myState, this`rootBorder, this`toggle, this`closeEnabled, this`iconifyEnabled
      reads this`restoreEnabled, this`maximizeEnabled, this`iconifyMounted, this`toggleMounted
      reads this`revalidations, this`repaints
    {
      Owned(myState, rootBorder, toggle, closeEnabled, iconifyEnabled, restoreEnabled, maximizeEnabled,
            iconifyMounted, toggleMounted, revalidations, repaints)
    }

    /** setState: bring actions, toggle and children in line with a window state. */
    method SetState(state: bv32, updateRegardless: bool)
      requires Shape()
      modifies this`myState, this`rootBorder, this`toggle, this`closeEnabled, this`iconifyEnabled
      modifies this`restoreEnabled, this`maximizeEnabled, this`iconifyMounted, this`toggleMounted
      modifies this`revalidations, this`repaints
      ensures Shape()
      ensures StateFields() == StateEffect(style, myWindow, old(StateFields()), state, updateRegardless)
    {
      if !(myWindow.Some? && style == Frame) {
        return;
      }
      if myState == state && !updateRegardless {
        return;
      }
      var frame := GetFrame();
      if frame.Some? {
        if frame.value.resizable {
          ApplyToResizable(state);
        } else {
          ApplyToFixed(state);
        }
      } else {
        // Attached to a window that is not a frame.
        ApplyToNonFrame(state);
      }
    }

    /** The branch of setState for a resizable frame. */
    method ApplyToResizable(state: bv32)
      requires Tracks(style, myWindow) && myWindow.value.IsFrame() && myWindow.value.resizable
      modifies this`myState, this`rootBorder, this`toggle, this`closeEnabled
      modifies this`restoreEnabled, this`maximizeEnabled, this`iconifyMounted, this`toggleMounted
      modifies this`revalidations, this`repaints
      ensures var max := IsMaximized(state);
        && myState == state && rootBorder == BorderAfter(old(rootBorder), max, myWindow.value.showing)
        && closeEnabled && restoreEnabled == max && maximizeEnabled == !max
        && toggle == Some(ToggleFor(max)) && toggleMounted && iconifyMounted
        && revalidations == old(revalidations) + (if old(toggleMounted) && old(iconifyMounted) then 0 else 1)
        && repaints == old(repaints) + (if old(toggleMounted) && old(iconifyMounted) then 0 else 1)
    {
      var max := IsMaximized(state);
      if max && rootBorder != CustomBorder && myWindow.value.showing {
        rootBorder := NoBorder;
      }
      if max {
        UpdateToggleButton(RestoreAction, MinimizeIcon);
        maximizeEnabled := false;
        restoreEnabled := true;
      } else {
        UpdateToggleButton(MaximizeAction, MaximizeIcon);
        maximizeEnabled := true;
        restoreEnabled := false;
      }
      MountFrameButtons();
      closeEnabled := true;
      myState := state;
    }

    /** Put back a toggle or iconify button that is not mounted, with one relayout and repaint. */
    method MountFrameButtons()
      modifies this`iconifyMounted, this`toggleMounted, this`revalidations, this`repaints
      ensures toggleMounted && iconifyMounted
      ensures revalidations == old(revalidations) + (if old(toggleMounted) && old(iconifyMounted) then 0 else 1)
      ensures repaints == old(repaints) + (if old(toggleMounted) && old(iconifyMounted) then 0 else 1)
    {
      if !toggleMounted || !iconifyMounted {
        toggleMounted := true;
        iconifyMounted := true;
        revalidations := revalidations + 1;
        repaints := repaints + 1;
      }
    }

    /** The branch of setState for a frame that is not resizable. */
    method ApplyToFixed(state: bv32)
      requires Tracks(style, myWindow) && myWindow.value.IsFrame() && !myWindow.value.resizable
      modifies this`myState, this`rootBorder, this`closeEnabled, this`restoreEnabled, this`maximizeEnabled
      modifies this`toggleMounted, this`revalidations, this`repaints
      ensures && myState == state
        && rootBorder == BorderAfter(old(rootBorder), IsMaximized(state), myWindow.value.showing)
        && closeEnabled && !restoreEnabled && !maximizeEnabled && !toggleMounted
        && revalidations == old(revalidations) + (if old(toggleMounted) then 1 else 0)
        && repaints == old(repaints) + (if old(toggleMounted) then 1 else 0)
    {
      var max := IsMaximized(state);
      if max && rootBorder != CustomBorder && myWindow.value.showing {
        rootBorder := NoBorder;
      }
      maximizeEnabled := false;
      restoreEnabled := false;
      if toggleMounted {
        toggleMounted := false;
        revalidations := revalidations + 1;
        repaints := repaints + 1;
      }
      closeEnabled := true;
      myState := state;
    }

    /** The branch of setState for a window that is not a frame. */
    method ApplyToNonFrame(state: bv32)
      requires Tracks(style, myWindow) && !myWindow.value.IsFrame()
      modifies this`myState, this`closeEnabled, this`iconifyEnabled, this`restoreEnabled, this`maximizeEnabled
      modifies this`iconifyMounted, this`toggleMounted, this`revalidations, this`repaints
      ensures && myState == state
        && closeEnabled && !iconifyEnabled && !restoreEnabled && !maximizeEnabled
        && !toggleMounted && !iconifyMounted
        && revalidations == old(revalidations) + 1 && repaints == old(repaints) + 1
    {
      maximizeEnabled := false;
      restoreEnabled := false;
      iconifyEnabled := false;
      toggleMounted := false;
      iconifyMounted := false;
      revalidations := revalidations + 1;
      repaints := repaints + 1;
      closeEnabled := true;
      myState := state;
    }

    /** Rebind the toggle button to an action and icon. */
    method UpdateToggleButton(action: Action, icon: ToggleIcon)
      requires style == Frame
      modifies this`toggle
      ensures toggle == Some(ToggleBinding(action, icon))
    {
      toggle := Some(ToggleBinding(action, icon));
    }

    /** Close: ask the attached window to close; nothing happens without a window. */
    method Close()
      modifies this`requests
      ensures requests == old(requests) + (if myWindow.Some? then [WindowClosing] else [])
    {
      if myWindow.Some? {
        requests := requests + [WindowClosing];
      }
    }

    /** Iconify: ask an attached frame for the recorded state with the iconified bit set. */
    method Iconify()
      modifies this`requests
      ensures requests == old(requests) + (if GetFrame().Some? then [SetExtendedState(Iconified(myState))] else [])
    {
      var frame := GetFrame();
      if frame.Some? {
        requests := requests + [SetExtendedState(Iconified(myState))];
      }
    }

    /** Maximize: ask an attached frame for the recorded state with both maximized bits set. */
    method Maximize()
      modifies this`requests
      ensures requests == old(requests) + (if GetFrame().Some? then [SetExtendedState(Maximized(myState))] else [])
    {
      var frame := GetFrame();
      if frame.Some? {
        requests := requests + [SetExtendedState(Maximized(myState))];
      }
    }

    /** Restore: ask an attached frame to leave the iconified state, or else the maximized one. */
    method Restore()
      modifies this`requests
      ensures requests == old(requests) + (if GetFrame().Some? then [SetExtendedState(Restored(myState))] else [])
    {
      var frame := GetFrame();
      if frame.None? {
        return;
      }
      requests := requests + [SetExtendedState(Restored(myState))];
    }

    /** actionPerformed of the four actions: each runs its window command. */
    method PerformAction(action: Action)
      requires Valid() && action in ActionsFor(style)
      modifies this`requests
      ensures action == CloseAction ==>
        requests == old(requests) + (if myWindow.Some? then [WindowClosing] else [])
      ensures action != CloseAction ==> style == Frame
      ensures action != CloseAction ==>
        var next := match action
          case IconifyAction => Iconified(myState)
          case MaximizeAction => Maximized(myState)
          case _ => Restored(myState);
        requests == old(requests) + (if GetFrame().Some? then [SetExtendedState(next)] else [])
    {
      match action
      case CloseAction => Close();
      case IconifyAction => Iconify();
      case RestoreAction => Restore();
      case MaximizeAction => Maximize();
    }

    /** setActive: every button's paintActive property follows the window's focus, and the root pane repaints. */
    method SetActive(active: bool)
      requires style != NoDecoration
      modifies this`paintActive, this`rootRepaints
      ensures paintActive == active
      ensures rootRepaints == old(rootRepaints) + 1
    {
      paintActive := active;
      rootRepaints := rootRepaints + 1;
    }

    /** updateSystemIcon: the first icon image of the attached window, if any. */
    method UpdateSystemIcon()
      modifies this`systemIcon
      ensures systemIcon == SystemIconOf(myWindow)
    {
      if myWindow.None? {
        systemIcon := None;
        return;
      }
      var icons := myWindow.value.icons;
      if |icons| == 0 {
        systemIcon := None;
      } else if |icons| == 1 {
        systemIcon := Some(icons[0]);
      } else {
        systemIcon := Some(icons[0]);
      }
    }

    /** Unregister the listeners from the attached window; their fields stay set. */
    method UninstallListeners()
      modifies this`listenersRegistered
      ensures listenersRegistered == (old(listenersRegistered) && myWindow.None?)
    {
      if myWindow.Some? {
        listenersRegistered := false;
      }
    }

    /** Create both listeners and register them on the attached window. */
    method InstallListeners()
      modifies this`listenersCreated, this`listenersRegistered
      ensures myWindow.Some? ==> listenersCreated && listenersRegistered
      ensures myWindow.None? ==>
        listenersCreated == old(listenersCreated) && listenersRegistered == old(listenersRegistered)
    {
      if myWindow.Some? {
        listenersCreated := true;
        listenersRegistered := true;
      }
    }

    /**
     * addNotify: attach to the window the pane now sits in (if any), apply that
     * window's state, follow its focus, listen to it and take its icon.
     */
    method AddNotify(ancestor: Option<Window>)
      requires Valid()
      requires ancestor.Some? ==> style != NoDecoration
      modifies this`listenersCreated, this`listenersRegistered, this`myWindow, this`paintActive
      modifies this`rootRepaints, this`systemIcon
      modifies this`myState, this`rootBorder, this`toggle, this`closeEnabled, this`iconifyEnabled
      modifies this`restoreEnabled, this`maximizeEnabled, this`iconifyMounted, this`toggleMounted
      modifies this`revalidations, this`repaints
      ensures Valid()
      ensures myWindow == ancestor
      ensures listenersRegistered == ancestor.Some?
      ensures listenersCreated == (old(listenersCreated) || ancestor.Some?)
      ensures ancestor.Some? ==>
        StateFields() == StateEffect(style, ancestor, old(StateFields()), AttachState(ancestor.value), false)
      ensures ancestor.Some? ==> paintActive == ancestor.value.active
      ensures ancestor.Some? ==> rootRepaints == old(rootRepaints) + 1 && systemIcon == SystemIconOf(ancestor)
      ensures ancestor.None? ==> StateFields() == old(StateFields())
      ensures ancestor.None? ==> unchanged(this`rootRepaints, this`paintActive, this`systemIcon)
    {
      UninstallListeners();
      myWindow := ancestor;
      if myWindow.Some? {
        Attach();
      }
    }

    /** The body of addNotify once a window is found: apply its state, follow its focus, listen, take its icon. */
    method Attach()
      requires Shape() && myWindow.Some? && style != NoDecoration
      modifies this`listenersCreated, this`listenersRegistered, this`paintActive, this`rootRepaints, this`systemIcon
      modifies this`myState, this`rootBorder, this`toggle, this`closeEnabled, this`iconifyEnabled
      modifies this`restoreEnabled, this`maximizeEnabled, this`iconifyMounted, this`toggleMounted
      modifies this`revalidations, this`repaints
      ensures Shape()
      ensures StateFields() == StateEffect(style, myWindow, old(StateFields()), AttachState(myWindow.value), false)
      ensures paintActive == myWindow.value.active && rootRepaints == old(rootRepaints) + 1
      ensures listenersCreated && listenersRegistered && systemIcon == SystemIconOf(myWindow)
    {
      if myWindow.value.IsFrame() {
        SetState(myWindow.value.extendedState, false);
      } else {
        SetState(NORMAL, false);
      }
      FollowWindow();
    }

    /** The rest of addNotify once the state is applied: focus, listeners, icon. */
    method FollowWindow()
      requires myWindow.Some? && style != NoDecoration
      modifies this`paintActive, this`rootRepaints, this`listenersCreated, this`listenersRegistered
      modifies this`systemIcon
      ensures paintActive == myWindow.value.active && rootRepaints == old(rootRepaints) + 1
      ensures listenersCreated && listenersRegistered && systemIcon == SystemIconOf(myWindow)
      ensures unchanged(this`myState, this`rootBorder, this`toggle, this`closeEnabled, this`iconifyEnabled)
      ensures unchanged(this`restoreEnabled, this`maximizeEnabled, this`iconifyMounted, this`toggleMounted)
      ensures unchanged(this`revalidations, this`repaints)
    {
      SetActive(myWindow.value.active);
      InstallListeners();
      UpdateSystemIcon();
    }

    /** removeNotify: stop listening and forget the window; the listener fields stay set. */
    method RemoveNotify()
      requires Valid()
      modifies this`listenersRegistered, this`myWindow
      ensures Valid()
      ensures myWindow.None? && !listenersRegistered
    {
      UninstallListeners();
      myWindow := None;
    }

    /** uninstall: as removeNotify, and every button leaves the pane. */
    method Uninstall()
      requires Valid()
      modifies this`listenersRegistered, this`myWindow, this`closeMounted, this`iconifyMounted, this`toggleMounted
      ensures Valid()
      ensures myWindow.None? && !listenersRegistered && Mounted() == {}
    {
      UninstallListeners();
      myWindow := None;
      closeMounted, iconifyMounted, toggleMounted := false, false, false;
    }

    /**
     * The window listener: activation and deactivation set the buttons'
     * paintActive, and the window now reports the new focus.
     */
    method WindowActivation(activated: bool)
      requires Valid() && listenersRegistered
      modifies this`paintActive, this`rootRepaints, this`myWindow
      ensures Valid()
      ensures myWindow == Some(old(myWindow).value.(active := activated))
      ensures paintActive == activated
      ensures rootRepaints == old(rootRepaints) + 1
    {
      myWindow := Some(myWindow.value.(active := activated));
      SetActive(activated);
    }

    /**
     * The property-change listener. `host` is the attached window as it reports
     * itself when the change is delivered, so it is of the same kind. A change of "resizable" or "state"
     * reapplies the frame's state unconditionally; "title" repaints,
     * "componentOrientation" relayouts and repaints, "iconImage" also retakes the
     * system icon; every other name is ignored.
     */
    method PropertyChange(name: string, host: Window)
      requires Valid() && listenersRegistered
      requires host.kind == myWindow.value.kind
      modifies this`myWindow, this`rootRepaints, this`systemIcon
      modifies this`myState, this`rootBorder, this`toggle, this`closeEnabled, this`iconifyEnabled
      modifies this`restoreEnabled, this`maximizeEnabled, this`iconifyMounted, this`toggleMounted
      modifies this`revalidations, this`repaints
      ensures Valid()
      ensures myWindow == Some(host)
      ensures var key := ParseKey(name);
        (key == Some(ResizableKey) || key == Some(StateKey)) && host.IsFrame()
        ==> StateFields() == StateEffect(style, Some(host), old(StateFields()), host.extendedState, true)
      ensures var key := ParseKey(name);
        !((key == Some(ResizableKey) || key == Some(StateKey)) && host.IsFrame())
        ==> unchanged(this`myState, this`rootBorder, this`toggle, this`closeEnabled, this`iconifyEnabled)
            && unchanged(this`restoreEnabled, this`maximizeEnabled, this`iconifyMounted, this`toggleMounted)
      ensures rootRepaints == old(rootRepaints) + (if ParseKey(name) == Some(ResizableKey) then 1 else 0)
      ensures ParseKey(name) == Some(TitleKey) ==>
        revalidations == old(revalidations) && repaints == old(repaints) + 1
      ensures ParseKey(name) == Some(OrientationKey) || ParseKey(name) == Some(IconImageKey) ==>
        revalidations == old(revalidations) + 1 && repaints == old(repaints) + 1
      ensures ParseKey(name).None? ==> revalidations == old(revalidations) && repaints == old(repaints)
      ensures var key := ParseKey(name);
        (key == Some(ResizableKey) || key == Some(StateKey)) && !host.IsFrame()
        ==> revalidations == old(revalidations) && repaints == old(repaints)
      ensures systemIcon == if ParseKey(name) == Some(IconImageKey) then SystemIconOf(Some(host)) else old(systemIcon)
    {
      HandleChange(ParseKey(name), host);
    }

    /** The property-change listener once the property's name is classified. */
    method HandleChange(key: Option<PropertyKey>, host: Window)
      requires Valid() && listenersRegistered
      requires host.kind == myWindow.value.kind
      modifies this`myWindow, this`rootRepaints, this`systemIcon
      modifies this`myState, this`rootBorder, this`toggle, this`closeEnabled, this`iconifyEnabled
      modifies this`restoreEnabled, this`maximizeEnabled, this`iconifyMounted, this`toggleMounted
      modifies this`revalidations, this`repaints
      ensures Valid()
      ensures myWindow == Some(host)
      ensures (key == Some(ResizableKey) || key == Some(StateKey)) && host.IsFrame()
        ==> StateFields() == StateEffect(style, Some(host), old(StateFields()), host.extendedState, true)
      ensures !((key == Some(ResizableKey) || key == Some(StateKey)) && host.IsFrame())
        ==> unchanged(this`myState, this`rootBorder, this`toggle, this`closeEnabled, this`iconifyEnabled)
            && unchanged(this`restoreEnabled, this`maximizeEnabled, this`iconifyMounted, this`toggleMounted)
      ensures rootRepaints == old(rootRepaints) + (if key == Some(ResizableKey) then 1 else 0)
      ensures key == Some(TitleKey) ==>
        revalidations == old(revalidations) && repaints == old(repaints) + 1
      ensures key == Some(OrientationKey) || key == Some(IconImageKey) ==>
        revalidations == old(revalidations) + 1 && repaints == old(repaints) + 1
      ensures key.None? ==> revalidations == old(revalidations) && repaints == old(repaints)
      ensures systemIcon == if key == Some(IconImageKey) then SystemIconOf(Some(host)) else old(systemIcon)
      ensures (key == Some(ResizableKey) || key == Some(StateKey)) && !host.IsFrame()
        ==> revalidations == old(revalidations) && repaints == old(repaints)
    {
      if key == Some(ResizableKey) || key == Some(StateKey) {
        ReapplyFrameState(key == Some(ResizableKey), host);
      } else {
        RefreshView(key, host);
      }
    }

    /**
     * The other branches of the property-change listener: "title" repaints,
     * "componentOrientation" relayouts and repaints, "iconImage" retakes the
     * system icon and relayouts and repaints; any other name does nothing but
     * take the window as it reports itself.
     */
    method RefreshView(key: Option<PropertyKey>, host: Window)
      requires key != Some(ResizableKey) && key != Some(StateKey)
      modifies this`myWindow, this`revalidations, this`repaints, this`systemIcon
      ensures myWindow == Some(host)
      ensures key == Some(TitleKey) ==> revalidations == old(revalidations) && repaints == old(repaints) + 1
      ensures key == Some(OrientationKey) || key == Some(IconImageKey) ==>
        revalidations == old(revalidations) + 1 && repaints == old(repaints) + 1
      ensures key.None? ==> revalidations == old(revalidations) && repaints == old(repaints)
      ensures systemIcon == if key == Some(IconImageKey) then SystemIconOf(Some(host)) else old(systemIcon)
      ensures unchanged(this`myState, this`rootBorder, this`toggle, this`closeEnabled, this`iconifyEnabled)
      ensures unchanged(this`restoreEnabled, this`maximizeEnabled, this`iconifyMounted, this`toggleMounted)
    {
      myWindow := Some(host);
      if key == Some(TitleKey) {
        repaints := repaints + 1;
      } else if key == Some(OrientationKey) {
        revalidations := revalidations + 1;
        repaints := repaints + 1;
      } else if key == Some(IconImageKey) {
        UpdateSystemIcon();
        revalidations := revalidations + 1;
        repaints := repaints + 1;
      }
    }

    /**
     * The "resizable" and "state" branch of the property-change listener, with
     * the window as it reports itself: reapply a frame's state unconditionally,
     * and repaint the root pane after a change of "resizable".
     */
    method ReapplyFrameState(resized: bool, host: Window)
      requires Shape()
      modifies this`myWindow, this`rootRepaints
      modifies this`myState, this`rootBorder, this`toggle, this`closeEnabled, this`iconifyEnabled
      modifies this`restoreEnabled, this`maximizeEnabled, this`iconifyMounted, this`toggleMounted
      modifies this`revalidations, this`repaints
      ensures Shape()
      ensures myWindow == Some(host)
      ensures host.IsFrame() ==>
        StateFields() == StateEffect(style, myWindow, old(StateFields()), host.extendedState, true)
      ensures !host.IsFrame() ==>
        unchanged(this`myState, this`rootBorder, this`toggle, this`closeEnabled, this`iconifyEnabled)
        && unchanged(this`restoreEnabled, this`maximizeEnabled, this`iconifyMounted, this`toggleMounted)
        && unchanged(this`revalidations, this`repaints)
      ensures rootRepaints == old(rootRepaints) + (if resized then 1 else 0)
    {
      myWindow := Some(host);
      var frame := GetFrame();
      if frame.Some? {
        SetState(frame.value.extendedState, true);
      }
      ghost var applied := StateFields();
      if resized {
        rootRepaints := rootRepaints + 1;
      }
      assert StateFields() == applied;
    }

    /** The orientation the pane follows: its window's, or the root pane's when unattached. */
    function LeftToRight(rootLeftToRight: bool): (r: bool)
      reads this
      ensures myWindow.None? ==> r == rootLeftToRight
      ensures myWindow.Some? ==> r == myWindow.value.leftToRight
    {
      if myWindow.None? then rootLeftToRight else myWindow.value.leftToRight
    }

    /**
     * layoutContainer: walk a cursor in from the trailing edge, placing close,
     * then (for a frame) a mounted toggle when maximizing both ways is
     * supported, then a mounted iconify button.
     */
    method LayoutContainer(paneWidth: int, rootLeftToRight: bool, maxBothSupported: bool)
      modifies this`closeBounds, this`iconifyBounds, this`toggleBounds
      ensures var p := PlacedButtons(style, toggleMounted, iconifyMounted, maxBothSupported);
        var size := ButtonSize(style, closeIcon);
        var leftToRight := LeftToRight(rootLeftToRight);
        && (CloseButton in p ==>
              closeBounds == Rect(SlotX(leftToRight, paneWidth, size.width, p, 0), BUTTON_Y, size.width, size.height))
        && (ToggleButton in p ==>
              toggleBounds == Rect(SlotX(leftToRight, paneWidth, size.width, p, 1), BUTTON_Y, size.width, size.height))
        && (IconifyButton in p ==>
              iconifyBounds == Rect(SlotX(leftToRight, paneWidth, size.width, p, |p| - 1), BUTTON_Y, size.width, size.height))
      ensures forall b :: b !in PlacedButtons(style, toggleMounted, iconifyMounted, maxBothSupported) ==>
        BoundsOf(b) == old(BoundsOf(b))
    {
      var leftToRight := LeftToRight(rootLeftToRight);
      var w := paneWidth;
      // The close icon's size, or 16 by 16 without a close button or icon.
      var size := ButtonSize(style, closeIcon);
      var buttonWidth, buttonHeight := size.width, size.height;
      ghost var p := PlacedButtons(style, toggleMounted, iconifyMounted, maxBothSupported);
      ghost var placed := 0;

      var x := if leftToRight then w else 0;
      if style != NoDecoration {
        CursorStep(leftToRight, w, buttonWidth, p, 0);
        x := PlaceButton(CloseButton, x, Gap(CloseButton), leftToRight, buttonWidth, buttonHeight);
        placed := 1;
      }
      if style == Frame {
        if maxBothSupported && toggleMounted {
          CursorStep(leftToRight, w, buttonWidth, p, 1);
          x := PlaceButton(ToggleButton, x, Gap(ToggleButton), leftToRight, buttonWidth, buttonHeight);
          placed := 2;
        }
        if iconifyMounted {
          CursorStep(leftToRight, w, buttonWidth, p, placed);
          x := PlaceButton(IconifyButton, x, Gap(IconifyButton), leftToRight, buttonWidth, buttonHeight);
          placed := placed + 1;
        }
      }
    }

    /**
     * One step of the layout cursor: move inward by the spacing, give the button
     * its bounds there, and, right to left, step past the button.
     */
    method PlaceButton(b: Button, x: int, spacing: int, leftToRight: bool, buttonWidth: int, buttonHeight: int)
      returns (next: int)
      modifies this`closeBounds, this`iconifyBounds, this`toggleBounds
      ensures var at := if leftToRight then x - spacing - buttonWidth else x + spacing;
        && BoundsOf(b) == Rect(at, BUTTON_Y, buttonWidth, buttonHeight)
        && next == if leftToRight then at else at + buttonWidth
      ensures forall c :: c != b ==> BoundsOf(c) == old(BoundsOf(c))
    {
      next := x + if leftToRight then -spacing - buttonWidth else spacing;
      var bounds := Rect(next, BUTTON_Y, buttonWidth, buttonHeight);
      match b {
        case CloseButton => closeBounds := bounds;
        case IconifyButton => iconifyBounds := bounds;
        case ToggleButton => toggleBounds := bounds;
      }
      if !leftToRight {
        next := next + buttonWidth;
      }
    }

    /**
     * The non-drawing part of paintComponent: resynchronize with an attached
     * frame's state, pick the colour triple by the window's focus, and compute
     * where the title starts and the width it is clipped to.
     */
    method PaintComponent(paneWidth: int, rootLeftToRight: bool) returns (plan: PaintPlan)
      requires Valid()
      modifies this`myState, this`rootBorder, this`toggle, this`closeEnabled, this`iconifyEnabled
      modifies this`restoreEnabled, this`maximizeEnabled, this`iconifyMounted, this`toggleMounted
      modifies this`revalidations, this`repaints
      ensures Valid()
      ensures old(GetFrame()).Some? ==>
        StateFields() == StateEffect(style, myWindow, old(StateFields()), myWindow.value.extendedState, false)
      ensures old(GetFrame()).None? ==> StateFields() == old(StateFields())
      ensures plan.colors == PaintColors(style, myWindow.None? || myWindow.value.active)
      ensures plan.titleX == TitleXOffset(LeftToRight(rootLeftToRight), paneWidth, style)
      ensures TitleOf(myWindow).None? <==> plan.titleWidth.None?
      ensures plan.titleWidth.Some? ==>
        var iconify := if iconifyMounted then iconifyBounds else EMPTY_RECT;
        plan.titleWidth.value == TitleClipWidth(LeftToRight(rootLeftToRight), plan.titleX, iconify,
                                                myWindow.value.width, myWindow.value.insetsRight)
    {
      var frame := GetFrame();
      if frame.Some? {
        SetState(frame.value.extendedState, false);
      }
      var leftToRight := LeftToRight(rootLeftToRight);
      var isSelected := if myWindow.None? then true else myWindow.value.active;
      var colors := if isSelected then activeColors else INACTIVE_COLORS;
      var xOffset := if leftToRight then 5 else paneWidth - 5;
      if style == Frame {
        xOffset := xOffset + if leftToRight then IMAGE_WIDTH + 5 else -IMAGE_WIDTH - 5;
      }
      var title := TitleOf(myWindow);
      var titleWidth := None;
      if title.Some? {
        var rect := EMPTY_RECT;
        if iconifyMounted {
          rect := iconifyBounds;
        }
        var window := myWindow.value;
        if leftToRight {
          if rect.x == 0 {
            rect := rect.(x := window.width - window.insetsRight - 2);
          }
          titleWidth := Some(rect.x - xOffset - 4);
        } else {
          titleWidth := Some(xOffset - rect.x - rect.width - 4);
        }
      }
      plan := PaintPlan(colors, xOffset, titleWidth);
    }
  }
}

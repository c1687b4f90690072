/**
 * The host window as the title pane queries it, and the pure lookups the pane
 * makes on it: its title, its system icon, and the property names it reacts to.
 */
module Host {
  import opened Options

  /** An opaque handle to one of the window's icon images. */
  type Image = nat

  /** A frame (which has an extended state and a title), a dialog (title only), or another window. */
  datatype WindowKind = FrameWindow | DialogWindow | OtherWindow

  /** What the pane can ask of its host window at a given moment. */
  datatype Window = Window(
    kind: WindowKind,
    extendedState: bv32,
    resizable: bool,
    showing: bool,
    active: bool,
    leftToRight: bool,
    width: int,
    insetsRight: int,
    title: Option<string>,
    icons: seq<Image>)
  {
    predicate IsFrame() {
      kind == FrameWindow
    }
  }

  /** The title shown: that of a frame or a dialog; no title for any other window or without a window. */
  function TitleOf(window: Option<Window>): (r: Option<string>)
    ensures window.None? || window.value.kind == OtherWindow ==> r.None?
    ensures window.Some? && window.value.kind != OtherWindow ==> r == window.value.title
  {
    match window
    case None => None
    case Some(w) =>
      match w.kind
      case FrameWindow => w.title
      case DialogWindow => w.title
      case OtherWindow => None
  }

  /** The system icon: the window's first icon image, or none without a window or without images. */
  function SystemIconOf(window: Option<Window>): (r: Option<Image>)
    ensures r.Some? <==> window.Some? && |window.value.icons| > 0
    ensures r.Some? ==> r.value == window.value.icons[0]
  {
    if window.None? then None
    else if |window.value.icons| == 0 then None
    else if |window.value.icons| == 1 then Some(window.value.icons[0])
    else Some(window.value.icons[0])
  }

  /** The window properties whose change the pane reacts to. */
  datatype PropertyKey = ResizableKey | StateKey | TitleKey | OrientationKey | IconImageKey

  /** The property name under which the window reports each change. */
  function KeyName(key: PropertyKey): string {
    match key
    case ResizableKey => "resizable"
    case StateKey => "state"
    case TitleKey => "title"
    case OrientationKey => "componentOrientation"
    case IconImageKey => "iconImage"
  }

  /** The dispatch of the property-change handler: a recognised name, or none for a name it ignores. */
  function ParseKey(name: string): (r: Option<PropertyKey>)
    ensures r.Some? ==> KeyName(r.value) == name
  {
    if name == "resizable" then Some(ResizableKey)
    else if name == "state" then Some(StateKey)
    else if name == "title" then Some(TitleKey)
    else if name == "componentOrientation" then Some(OrientationKey)
    else if name == "iconImage" then Some(IconImageKey)
    else None
  }

  /** Every recognised name is parsed back to its key, and exactly the five names are recognised. */
  lemma ParseKeyName(key: PropertyKey)
    ensures ParseKey(KeyName(key)) == Some(key)
  {
  }

  lemma IgnoredNames(name: string)
    ensures ParseKey(name).None? <==> forall key :: KeyName(key) != name
  {
    if ParseKey(name).None? {
      forall key ensures KeyName(key) != name {
        ParseKeyName(key);
      }
    }
  }
}

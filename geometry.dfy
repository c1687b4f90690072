/**
 * The title pane's layout arithmetic: its height and reported sizes, where the
 * buttons go (from the trailing edge inward, mirrored for right-to-left), and
 * where the title text starts and how wide it may be.
 */
module Geometry {
  import opened Options
  import opened Styles

  const IMAGE_WIDTH: int := 16
  const IMAGE_HEIGHT: int := 16
  /** Every button is placed 3 pixels below the top of the pane. */
  const BUTTON_Y: int := 3

  datatype Size = Size(width: int, height: int)
  datatype Rect = Rect(x: int, y: int, width: int, height: int)

  /** The bounds a component has before it is ever laid out. */
  const EMPTY_RECT := Rect(0, 0, 0, 0)

  /** The pane's height: the font's line height plus 7, but at least the icon height for a frame. */
  function ComputeHeight(fontHeight: int, style: DecorationStyle): (h: int)
    ensures h >= fontHeight + 7
    ensures h >= if style == Frame then IMAGE_HEIGHT else 0
    ensures h == fontHeight + 7 || h == (if style == Frame then IMAGE_HEIGHT else 0)
  {
    var textHeight := fontHeight + 7;
    var iconHeight := if style == Frame then IMAGE_HEIGHT else 0;
    if textHeight >= iconHeight then textHeight else iconHeight
  }

  /** The preferred size is square: both sides are the computed height. */
  function PreferredLayoutSize(fontHeight: int, style: DecorationStyle): (d: Size)
    ensures d.width == d.height == ComputeHeight(fontHeight, style)
    ensures d.height >= fontHeight + 7
    ensures style == Frame ==> d.height >= IMAGE_HEIGHT
  {
    var height := ComputeHeight(fontHeight, style);
    Size(height, height)
  }

  /** The minimum size is the preferred size. */
  function MinimumLayoutSize(fontHeight: int, style: DecorationStyle): (d: Size)
    ensures d == PreferredLayoutSize(fontHeight, style)
  {
    PreferredLayoutSize(fontHeight, style)
  }

  /** Every button takes the close button's icon size, or 16 by 16 when there is no close button or no icon. */
  function ButtonSize(style: DecorationStyle, closeIcon: Option<Size>): (r: Size)
    ensures style == NoDecoration || closeIcon.None? ==> r == Size(IMAGE_WIDTH, IMAGE_HEIGHT)
    ensures style != NoDecoration && closeIcon.Some? ==> r == closeIcon.value
  {
    if style != NoDecoration && closeIcon.Some? then closeIcon.value else Size(IMAGE_WIDTH, IMAGE_HEIGHT)
  }

  /** The gap left before each button: 4 at the edge for close, 10 before the toggle, 2 before iconify. */
  function Gap(b: Button): (g: int)
    ensures g > 0
  {
    match b
    case CloseButton => 4
    case ToggleButton => 10
    case IconifyButton => 2
  }

  /**
   * The buttons the layout places, in placement order from the trailing edge:
   * close whenever it exists (mounted or not), then the toggle for a frame when
   * it is mounted and the platform supports maximizing both ways, then iconify
   * for a frame when it is mounted.
   */
  function PlacedButtons(style: DecorationStyle, toggleMounted: bool, iconifyMounted: bool, maxBothSupported: bool)
    : (r: seq<Button>)
    ensures |r| <= 3
    ensures CloseButton in r <==> style != NoDecoration
  {
    var toggle := style == Frame && maxBothSupported && toggleMounted;
    var iconify := style == Frame && iconifyMounted;
    if style == NoDecoration then []
    else if toggle && iconify then [CloseButton, ToggleButton, IconifyButton]
    else if toggle then [CloseButton, ToggleButton]
    else if iconify then [CloseButton, IconifyButton]
    else [CloseButton]
  }

  /**
   * The layout places only buttons the style creates, each at most once, close
   * first whenever it exists, the toggle only when it is mounted and maximizing
   * both ways is supported, and a mounted iconify button last.
   */
  lemma PlacementOrder(style: DecorationStyle, toggleMounted: bool, iconifyMounted: bool, maxBothSupported: bool)
    ensures var p := PlacedButtons(style, toggleMounted, iconifyMounted, maxBothSupported);
      && (|p| > 0 <==> style != NoDecoration)
      && (p != [] ==> p[0] == CloseButton)
      && (forall i :: 0 <= i < |p| ==> p[i] in ButtonsFor(style))
      && (forall i, j :: 0 <= i < j < |p| ==> p[i] != p[j])
      && (ToggleButton in p <==> style == Frame && maxBothSupported && toggleMounted)
      && (IconifyButton in p <==> style == Frame && iconifyMounted)
      && (IconifyButton in p ==> p[|p| - 1] == IconifyButton)
  {
  }

  /**
   * The distance from the trailing edge to the near side of the k-th placed
   * button: the gaps before the first k + 1 buttons plus the widths of the
   * first k.
   */
  function Lead(placed: seq<Button>, buttonWidth: int, k: nat): int
    requires k < |placed|
  {
    if k == 0 then Gap(placed[0])
    else Lead(placed, buttonWidth, k - 1) + buttonWidth + Gap(placed[k])
  }

  /** The x coordinate of the k-th placed button in a pane of the given width. */
  function SlotX(leftToRight: bool, width: int, buttonWidth: int, placed: seq<Button>, k: nat): int
    requires k < |placed|
  {
    var lead := Lead(placed, buttonWidth, k);
    if leftToRight then width - lead - buttonWidth else lead
  }

  /**
   * Where the layout cursor stands after n placements: the trailing edge at
   * first, then the near side of the last placed button left to right, or its
   * far side right to left.
   */
  function Cursor(leftToRight: bool, width: int, buttonWidth: int, placed: seq<Button>, n: nat): int
    requires n <= |placed|
  {
    if n == 0 then (if leftToRight then width else 0)
    else if leftToRight then SlotX(true, width, buttonWidth, placed, n - 1)
    else SlotX(false, width, buttonWidth, placed, n - 1) + buttonWidth
  }

  /** Each placement moves the cursor inward by the button's gap and puts the button there. */
  lemma CursorStep(leftToRight: bool, width: int, buttonWidth: int, placed: seq<Button>, n: nat)
    requires n < |placed|
    ensures var c := Cursor(leftToRight, width, buttonWidth, placed, n);
      var at := if leftToRight then c - Gap(placed[n]) - buttonWidth else c + Gap(placed[n]);
      && SlotX(leftToRight, width, buttonWidth, placed, n) == at
      && Cursor(leftToRight, width, buttonWidth, placed, n + 1) == if leftToRight then at else at + buttonWidth
  {
  }

  /** Right-to-left placement is the mirror image of left-to-right placement. */
  lemma SlotsMirror(width: int, buttonWidth: int, placed: seq<Button>, k: nat)
    requires k < |placed|
    ensures SlotX(false, width, buttonWidth, placed, k) == width - SlotX(true, width, buttonWidth, placed, k) - buttonWidth
  {
  }

  /** Each placed button sits exactly its gap inward of the previous one. */
  lemma SlotStep(width: int, buttonWidth: int, placed: seq<Button>, k: nat)
    requires 0 < k < |placed|
    ensures SlotX(true, width, buttonWidth, placed, k) + buttonWidth + Gap(placed[k])
         == SlotX(true, width, buttonWidth, placed, k - 1)
    ensures SlotX(false, width, buttonWidth, placed, k)
         == SlotX(false, width, buttonWidth, placed, k - 1) + buttonWidth + Gap(placed[k])
  {
  }

  /** Placed buttons never overlap: each later one lies wholly inward of every earlier one. */
  lemma {:induction false} SlotsInOrder(width: int, buttonWidth: int, placed: seq<Button>, i: nat, j: nat)
    requires buttonWidth >= 0
    requires i < j < |placed|
    ensures SlotX(true, width, buttonWidth, placed, j) + buttonWidth < SlotX(true, width, buttonWidth, placed, i)
    ensures SlotX(false, width, buttonWidth, placed, i) + buttonWidth < SlotX(false, width, buttonWidth, placed, j)
  {
    SlotStep(width, buttonWidth, placed, j);
    if i < j - 1 {
      SlotsInOrder(width, buttonWidth, placed, i, j - 1);
    }
  }

  /** A 300-pixel frame pane with 16-pixel buttons puts close, toggle and iconify at 280, 254 and 236, or 4, 30 and 48 mirrored. */
  lemma ExampleLayout()
    ensures var p := PlacedButtons(Frame, true, true, true);
      && p == [CloseButton, ToggleButton, IconifyButton]
      && SlotX(true, 300, 16, p, 0) == 280 && SlotX(true, 300, 16, p, 1) == 254 && SlotX(true, 300, 16, p, 2) == 236
      && SlotX(false, 300, 16, p, 0) == 4 && SlotX(false, 300, 16, p, 1) == 30 && SlotX(false, 300, 16, p, 2) == 48
  {
    var p := PlacedButtons(Frame, true, true, true);
    assert p == [CloseButton, ToggleButton, IconifyButton];
  }

  /** Where the title text starts: 5 from the leading edge, plus room for a 16-pixel icon and 5 more in a frame. */
  function TitleXOffset(leftToRight: bool, width: int, style: DecorationStyle): (x: int)
    ensures var lead := if style == Frame then 5 + IMAGE_WIDTH + 5 else 5;
      x == if leftToRight then lead else width - lead
  {
    var x := if leftToRight then 5 else width - 5;
    if style == Frame then (if leftToRight then x + IMAGE_WIDTH + 5 else x - IMAGE_WIDTH - 5) else x
  }

  lemma TitleOffsetMirrors(width: int, style: DecorationStyle)
    ensures TitleXOffset(false, width, style) == width - TitleXOffset(true, width, style)
    ensures TitleXOffset(true, width, style) == if style == Frame then 5 + IMAGE_WIDTH + 5 else 5
  {
  }

  /**
   * The width the title may be clipped to, measured against the iconify
   * button's bounds only. Left to right, the text ends 4 pixels before that
   * button, or before the window's right inset less 2 when the button's x is 0;
   * right to left, it ends 4 pixels after the button's far side.
   */
  function TitleClipWidth(leftToRight: bool, xOffset: int, iconify: Rect, windowWidth: int, insetsRight: int): (w: int)
    ensures leftToRight && iconify.x != 0 ==> xOffset + w + 4 == iconify.x
    ensures leftToRight && iconify.x == 0 ==> xOffset + w + 4 == windowWidth - insetsRight - 2
    ensures !leftToRight ==> xOffset - w - 4 == iconify.x + iconify.width
  {
    if leftToRight then
      var edge := if iconify.x == 0 then windowWidth - insetsRight - 2 else iconify.x;
      edge - xOffset - 4
    else
      xOffset - iconify.x - iconify.width - 4
  }

  /**
   * When the iconify button is mounted on a frame and laid out at a nonzero x
   * (left to right; any x right to left), the clipped title keeps 4 pixels
   * clear of every placed button, in either direction.
   */
  lemma TitleClearsButtons(width: int, bw: int, bh: int, toggleMounted: bool, maxBothSupported: bool,
                           leftToRight: bool, windowWidth: int, insetsRight: int, k: nat)
    requires bw >= 0
    requires k < |PlacedButtons(Frame, toggleMounted, true, maxBothSupported)|
    requires var p := PlacedButtons(Frame, toggleMounted, true, maxBothSupported);
      leftToRight ==> SlotX(true, width, bw, p, |p| - 1) != 0
    ensures var p := PlacedButtons(Frame, toggleMounted, true, maxBothSupported);
      var last := |p| - 1;
      var iconify := Rect(SlotX(leftToRight, width, bw, p, last), BUTTON_Y, bw, bh);
      var x := TitleXOffset(leftToRight, width, Frame);
      var w := TitleClipWidth(leftToRight, x, iconify, windowWidth, insetsRight);
      if leftToRight then x + w + 4 <= SlotX(true, width, bw, p, k)
      else SlotX(false, width, bw, p, k) + bw <= x - w - 4
  {
    var p := PlacedButtons(Frame, toggleMounted, true, maxBothSupported);
    if k < |p| - 1 {
      SlotsInOrder(width, bw, p, k, |p| - 1);
    }
  }

  /**
   * The clip cannot tell an iconify button laid out at x 0 from one with no
   * bounds: in a 64-pixel frame pane and window with 16-pixel buttons, iconify
   * sits at 0, so the title is clipped at the window's edge instead, and from
   * x 26 with width 32 it runs across the toggle (18 to 34) and close (44 to 60).
   */
  lemma TitleOverlapsAtZero()
    ensures var p := PlacedButtons(Frame, true, true, true);
      var iconify := Rect(SlotX(true, 64, 16, p, 2), BUTTON_Y, 16, 16);
      var x := TitleXOffset(true, 64, Frame);
      var w := TitleClipWidth(true, x, iconify, 64, 0);
      && SlotX(true, 64, 16, p, 0) == 44 && SlotX(true, 64, 16, p, 1) == 18 && iconify.x == 0
      && x == 26 && w == 32
      && x + w > SlotX(true, 64, 16, p, 1) && x + w > SlotX(true, 64, 16, p, 0)
  {
    var p := PlacedButtons(Frame, true, true, true);
    assert p == [CloseButton, ToggleButton, IconifyButton];
  }
}

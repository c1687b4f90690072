/**
 * Decoration styles and what each one installs: the actions, the buttons and
 * the colour tokens of the active caption.
 */
module Styles {

  /** The window decoration styles of a root pane (JRootPane.NONE .. WARNING_DIALOG). */
  datatype DecorationStyle =
    | NoDecoration
    | Frame
    | PlainDialog
    | InformationDialog
    | ErrorDialog
    | ColorChooserDialog
    | FileChooserDialog
    | QuestionDialog
    | WarningDialog

  /** The seven dialog styles, which get a close button only. */
  predicate IsDialog(style: DecorationStyle) {
    match style
    case PlainDialog | InformationDialog | ErrorDialog | ColorChooserDialog
       | FileChooserDialog | QuestionDialog | WarningDialog => true
    case NoDecoration | Frame => false
  }

  /** The four commands of the title pane (CloseAction, IconifyAction, RestoreAction, MaximizeAction). */
  datatype Action = CloseAction | IconifyAction | RestoreAction | MaximizeAction

  /** The three buttons a title pane can own. */
  datatype Button = CloseButton | IconifyButton | ToggleButton

  /** The two icons the toggle button alternates between. */
  datatype ToggleIcon = MaximizeIcon | MinimizeIcon

  /** The actions created for a style: all four for a frame, Close for a dialog, none otherwise. */
  function ActionsFor(style: DecorationStyle): (r: set<Action>)
    ensures CloseAction in r <==> style != NoDecoration
    ensures IconifyAction in r <==> style == Frame
    ensures RestoreAction in r <==> style == Frame
    ensures MaximizeAction in r <==> style == Frame
  {
    if style == Frame then {CloseAction, IconifyAction, RestoreAction, MaximizeAction}
    else if IsDialog(style) then {CloseAction}
    else {}
  }

  /** The buttons created (and mounted at construction) for a style. */
  function ButtonsFor(style: DecorationStyle): (r: set<Button>)
    ensures CloseButton in r <==> style != NoDecoration
    ensures IconifyButton in r <==> style == Frame
    ensures ToggleButton in r <==> style == Frame
  {
    if style == Frame then {IconifyButton, ToggleButton, CloseButton}
    else if IsDialog(style) then {CloseButton}
    else {}
  }

  /** Exactly four actions and three buttons for a frame, one of each for a dialog, none otherwise. */
  lemma InstalledCounts(style: DecorationStyle)
    ensures |ActionsFor(style)| == if style == Frame then 4 else if IsDialog(style) then 1 else 0
    ensures |ButtonsFor(style)| == if style == Frame then 3 else if IsDialog(style) then 1 else 0
  {
    if style == Frame {
      assert ActionsFor(style) == {CloseAction} + {IconifyAction} + {RestoreAction} + {MaximizeAction};
      assert ButtonsFor(style) == {IconifyButton} + {ToggleButton} + {CloseButton};
    }
  }

  /** The colour families of the theme, and the three roles each family gives a colour for. */
  datatype Palette = CaptionPalette | ErrorPalette | QuestionPalette | WarningPalette | InactivePalette
  datatype Role = Background | Foreground | Shadow

  /** One colour entry of the theme, named by its family and role. */
  datatype ColorToken = ColorToken(palette: Palette, role: Role)

  /** The theme key a colour entry is looked up under. */
  function TokenKey(t: ColorToken): string {
    match t
    case ColorToken(CaptionPalette, Background) => "Material.activeCaption"
    case ColorToken(CaptionPalette, Foreground) => "Material.activeCaptionText"
    case ColorToken(CaptionPalette, Shadow) => "Material.activeCaptionBorder"
    case ColorToken(InactivePalette, Background) => "Material.inactiveCaption"
    case ColorToken(InactivePalette, Foreground) => "Material.inactiveCaptionText"
    case ColorToken(InactivePalette, Shadow) => "Material.inactiveCaptionBorder"
    case ColorToken(ErrorPalette, Background) => "OptionPane.errorDialog.titlePane.background"
    case ColorToken(ErrorPalette, Foreground) => "OptionPane.errorDialog.titlePane.foreground"
    case ColorToken(ErrorPalette, Shadow) => "OptionPane.errorDialog.titlePane.shadow"
    case ColorToken(QuestionPalette, Background) => "OptionPane.questionDialog.titlePane.background"
    case ColorToken(QuestionPalette, Foreground) => "OptionPane.questionDialog.titlePane.foreground"
    case ColorToken(QuestionPalette, Shadow) => "OptionPane.questionDialog.titlePane.shadow"
    case ColorToken(WarningPalette, Background) => "OptionPane.warningDialog.titlePane.background"
    case ColorToken(WarningPalette, Foreground) => "OptionPane.warningDialog.titlePane.foreground"
    case ColorToken(WarningPalette, Shadow) => "OptionPane.warningDialog.titlePane.shadow"
  }

  /** The background, foreground and shadow entries a caption is painted with. */
  datatype ColorTriple = ColorTriple(background: ColorToken, foreground: ColorToken, shadow: ColorToken)

  /** A family's own triple. */
  function PaletteTokens(p: Palette): (r: ColorTriple)
    ensures r.background.palette == r.foreground.palette == r.shadow.palette == p
    ensures r.background.role == Background && r.foreground.role == Foreground && r.shadow.role == Shadow
  {
    ColorTriple(ColorToken(p, Background), ColorToken(p, Foreground), ColorToken(p, Shadow))
  }

  /** The colours of the active caption, chosen per style. */
  function DetermineColors(style: DecorationStyle): (r: ColorTriple)
    ensures style != FileChooserDialog ==> r == PaletteTokens(PaletteOf(style))
    ensures style == FileChooserDialog ==> r == PaletteTokens(QuestionPalette).(shadow := r.background)
    ensures !IsDialog(style) <==> r == PaletteTokens(CaptionPalette)
    ensures r.shadow == r.background <==> style == FileChooserDialog
    ensures r.background.palette != InactivePalette
  {
    match style
    case Frame =>
      PaletteTokens(CaptionPalette)
    case ErrorDialog =>
      PaletteTokens(ErrorPalette)
    case QuestionDialog =>
      PaletteTokens(QuestionPalette)
    case ColorChooserDialog =>
      PaletteTokens(QuestionPalette)
    case FileChooserDialog =>
      // The file chooser's shadow is the question family's background, not its shadow.
      var background := ColorToken(QuestionPalette, Background);
      ColorTriple(background, ColorToken(QuestionPalette, Foreground), background)
    case WarningDialog =>
      PaletteTokens(WarningPalette)
    case PlainDialog =>
      PaletteTokens(QuestionPalette)
    case InformationDialog =>
      PaletteTokens(ErrorPalette)
    case NoDecoration =>
      PaletteTokens(CaptionPalette)
  }

  /** Which family each style borrows; information dialogs borrow the error family. */
  function PaletteOf(style: DecorationStyle): Palette {
    match style
    case Frame | NoDecoration => CaptionPalette
    case ErrorDialog | InformationDialog => ErrorPalette
    case QuestionDialog | PlainDialog | ColorChooserDialog | FileChooserDialog => QuestionPalette
    case WarningDialog => WarningPalette
  }

  /** The quirks of the colour table: information uses the error tokens, plain and the choosers use the question tokens. */
  lemma ColorQuirks()
    ensures DetermineColors(InformationDialog) == DetermineColors(ErrorDialog)
    ensures DetermineColors(PlainDialog) == DetermineColors(QuestionDialog)
    ensures DetermineColors(ColorChooserDialog) == DetermineColors(QuestionDialog)
    ensures DetermineColors(FileChooserDialog).background == DetermineColors(QuestionDialog).background
    ensures DetermineColors(FileChooserDialog).foreground == DetermineColors(QuestionDialog).foreground
    ensures DetermineColors(FileChooserDialog).shadow != DetermineColors(QuestionDialog).shadow
    ensures DetermineColors(NoDecoration) == DetermineColors(Frame)
  {
  }

  /**
   * The theme keys behind the table: a frame and an undecorated pane use the
   * active caption keys, an information dialog the error dialog's keys, and
   * the file chooser paints its shadow with the question dialog's background key.
   */
  lemma ThemeKeys()
    ensures TokenKey(DetermineColors(Frame).background) == "Material.activeCaption"
    ensures TokenKey(DetermineColors(Frame).foreground) == "Material.activeCaptionText"
    ensures TokenKey(DetermineColors(Frame).shadow) == "Material.activeCaptionBorder"
    ensures TokenKey(DetermineColors(NoDecoration).background) == "Material.activeCaption"
    ensures TokenKey(DetermineColors(InformationDialog).background) == "OptionPane.errorDialog.titlePane.background"
    ensures TokenKey(DetermineColors(FileChooserDialog).shadow) == "OptionPane.questionDialog.titlePane.background"
    ensures TokenKey(DetermineColors(WarningDialog).shadow) == "OptionPane.warningDialog.titlePane.shadow"
  {
  }

  /** The caption colours used while the window is not active, shared by every style. */
  const INACTIVE_COLORS := PaletteTokens(InactivePalette)

  /** The triple the painter uses: the style's active triple when selected, the shared inactive one otherwise. */
  function PaintColors(style: DecorationStyle, selected: bool): (r: ColorTriple)
    ensures selected ==> r == DetermineColors(style)
    ensures !selected ==> r == INACTIVE_COLORS && r != DetermineColors(style)
  {
    if selected then DetermineColors(style) else INACTIVE_COLORS
  }
}

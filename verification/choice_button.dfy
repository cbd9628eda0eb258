/**
 * The segmented choice button: a bordered face over a lip, a nine-slot palette indexed
 * by role (background, foreground, border) and state (normal, selected, disabled), the
 * palette's merge and factories, and the lip/border arithmetic of its draw pass.
 */
module ChoiceButton {
  import opened ColorModel
  import opened Canvas

  datatype ChoiceButtonColors = ChoiceButtonColors(
    background: Color,
    foreground: Color,
    border: Color,
    selectedBackground: Color,
    selectedForeground: Color,
    selectedBorder: Color,
    disabledBackground: Color,
    disabledForeground: Color,
    disabledBorder: Color)

  function Slots(c: ChoiceButtonColors): (s: seq<Color>)
    ensures |s| == 9
  {
    [c.background, c.foreground, c.border,
     c.selectedBackground, c.selectedForeground, c.selectedBorder,
     c.disabledBackground, c.disabledForeground, c.disabledBorder]
  }

  lemma SlotsInjective(a: ChoiceButtonColors, b: ChoiceButtonColors)
    ensures Slots(a) == Slots(b) <==> a == b
  {
  }

  // ---- The palette as a table of roles by states ----

  datatype ChoiceState = Normal | Selected | Disabled

  datatype Role = BackgroundRole | ForegroundRole | BorderRole

  /** The precedence disabled > selected > normal. */
  function StateOf(selected: bool, enabled: bool): (s: ChoiceState)
    ensures s == Disabled <==> !enabled
    ensures s == Selected <==> enabled && selected
  {
    if !enabled then Disabled else if selected then Selected else Normal
  }

  /** The palette read as a role-by-state table. */
  function Slot(c: ChoiceButtonColors, role: Role, state: ChoiceState): Color {
    match (role, state)
    case (BackgroundRole, Normal) => c.background
    case (BackgroundRole, Selected) => c.selectedBackground
    case (BackgroundRole, Disabled) => c.disabledBackground
    case (ForegroundRole, Normal) => c.foreground
    case (ForegroundRole, Selected) => c.selectedForeground
    case (ForegroundRole, Disabled) => c.disabledForeground
    case (BorderRole, Normal) => c.border
    case (BorderRole, Selected) => c.selectedBorder
    case (BorderRole, Disabled) => c.disabledBorder
  }

  // ---- State-to-colour selection, as the widget performs it ----

  function BackgroundColor(c: ChoiceButtonColors, selected: bool, enabled: bool): (r: Color)
    ensures r == Slot(c, BackgroundRole, StateOf(selected, enabled))
  {
    if !enabled then c.disabledBackground
    else if selected then c.selectedBackground
    else c.background
  }

  /** The disabled branch returns the SELECTED foreground: a disabled button looks selected in its text colour. */
  function ForegroundColor(c: ChoiceButtonColors, selected: bool, enabled: bool): (r: Color)
    ensures r == Slot(c, ForegroundRole, if StateOf(selected, enabled) == Disabled then Selected else StateOf(selected, enabled))
    ensures r == (if !enabled || selected then c.selectedForeground else c.foreground)
  {
    if !enabled then c.selectedForeground
    else if selected then c.selectedForeground
    else c.foreground
  }

  function BorderColor(c: ChoiceButtonColors, selected: bool, enabled: bool): (r: Color)
    ensures r == Slot(c, BorderRole, StateOf(selected, enabled))
  {
    if !enabled then c.disabledBorder
    else if selected then c.selectedBorder
    else c.border
  }

  /** `ChoiceButtonColors.equals`: slot-wise over all nine colours. */
  function Equals(a: ChoiceButtonColors, b: ChoiceButtonColors): (r: bool)
    ensures r <==> a == b
    ensures r <==> Slots(a) == Slots(b)
  {
    SlotsInjective(a, b);
    && a.background == b.background
    && a.foreground == b.foreground
    && a.border == b.border
    && a.selectedBackground == b.selectedBackground
    && a.selectedForeground == b.selectedForeground
    && a.selectedBorder == b.selectedBorder
    && a.disabledBackground == b.disabledBackground
    && a.disabledForeground == b.disabledForeground
    && a.disabledBorder == b.disabledBorder
  }

  /** `ChoiceButtonColors.withDefaultsFrom`: slot-wise `takeOrElse` over the nine slots. */
  function WithDefaultsFrom(c: ChoiceButtonColors, defaults: ChoiceButtonColors): (r: ChoiceButtonColors)
    ensures Slots(r) == MergeSlots(Slots(c), Slots(defaults))
  {
    ChoiceButtonColors(
      TakeOrElse(c.background, defaults.background),
      TakeOrElse(c.foreground, defaults.foreground),
      TakeOrElse(c.border, defaults.border),
      TakeOrElse(c.selectedBackground, defaults.selectedBackground),
      TakeOrElse(c.selectedForeground, defaults.selectedForeground),
      TakeOrElse(c.selectedBorder, defaults.selectedBorder),
      TakeOrElse(c.disabledBackground, defaults.disabledBackground),
      TakeOrElse(c.disabledForeground, defaults.disabledForeground),
      TakeOrElse(c.disabledBorder, defaults.disabledBorder))
  }

  // ---- Factories ----

  const DarkDefaults: ChoiceButtonColors := ChoiceButtonColors(
    Argb(0xFF13_1F22), Argb(0xFFF1_F7FB), Argb(0xFF37_464F),
    Argb(0xFF20_2F36), Argb(0xFF1C_B0F6), Argb(0xFF3F_85A7),
    Argb(0xFF20_2F36), Argb(0xFF52_656D), Argb(0xFF37_464F))

  const LightDefaults: ChoiceButtonColors := ChoiceButtonColors(
    Argb(0xFFFF_FFFD), Argb(0xFF4B_4B4B), Argb(0xFFE5_E5E5),
    Argb(0xFFDD_F4FF), Argb(0xFF1C_B0F6), Argb(0xFF84_D8FF),
    Argb(0xFFF7_F7F7), Argb(0xFFAF_AFAF), Argb(0xFFE5_E5E5))

  function DefaultsFor(darkTheme: bool): ChoiceButtonColors {
    if darkTheme then DarkDefaults else LightDefaults
  }

  function DarkChoiceButtonColors(
    background: Color := Unspecified, foreground: Color := Unspecified, border: Color := Unspecified,
    selectedBackground: Color := Unspecified, selectedForeground: Color := Unspecified,
    selectedBorder: Color := Unspecified, disabledBackground: Color := Unspecified,
    disabledForeground: Color := Unspecified, disabledBorder: Color := Unspecified): (r: ChoiceButtonColors)
    ensures r == WithDefaultsFrom(ChoiceButtonColors(background, foreground, border, selectedBackground, selectedForeground, selectedBorder, disabledBackground, disabledForeground, disabledBorder), DarkDefaults)
  {
    ChoiceButtonColors(
      TakeOrElse(background, Argb(0xFF13_1F22)),
      TakeOrElse(foreground, Argb(0xFFF1_F7FB)),
      TakeOrElse(border, Argb(0xFF37_464F)),
      TakeOrElse(selectedBackground, Argb(0xFF20_2F36)),
      TakeOrElse(selectedForeground, Argb(0xFF1C_B0F6)),
      TakeOrElse(selectedBorder, Argb(0xFF3F_85A7)),
      TakeOrElse(disabledBackground, Argb(0xFF20_2F36)),
      TakeOrElse(disabledForeground, Argb(0xFF52_656D)),
      TakeOrElse(disabledBorder, Argb(0xFF37_464F)))
  }

  function LightChoiceButtonColors(
    background: Color := Unspecified, foreground: Color := Unspecified, border: Color := Unspecified,
    selectedBackground: Color := Unspecified, selectedForeground: Color := Unspecified,
    selectedBorder: Color := Unspecified, disabledBackground: Color := Unspecified,
    disabledForeground: Color := Unspecified, disabledBorder: Color := Unspecified): (r: ChoiceButtonColors)
    ensures r == WithDefaultsFrom(ChoiceButtonColors(background, foreground, border, selectedBackground, selectedForeground, selectedBorder, disabledBackground, disabledForeground, disabledBorder), LightDefaults)
  {
    ChoiceButtonColors(
      TakeOrElse(background, Argb(0xFFFF_FFFD)),
      TakeOrElse(foreground, Argb(0xFF4B_4B4B)),
      TakeOrElse(border, Argb(0xFFE5_E5E5)),
      TakeOrElse(selectedBackground, Argb(0xFFDD_F4FF)),
      TakeOrElse(selectedForeground, Argb(0xFF1C_B0F6)),
      TakeOrElse(selectedBorder, Argb(0xFF84_D8FF)),
      TakeOrElse(disabledBackground, Argb(0xFFF7_F7F7)),
      TakeOrElse(disabledForeground, Argb(0xFFAF_AFAF)),
      TakeOrElse(disabledBorder, Argb(0xFFE5_E5E5)))
  }

  /**
   * `choiceButtonColors(darkTheme, background, foreground, lip, disabledBackground,
   * disabledForeground, disabledLip)`. The six arguments are passed POSITIONALLY to a
   * nine-parameter factory, so they land in the first six slots: `lip` becomes the
   * border, and the three "disabled" arguments become the selected background,
   * selected foreground and selected border. The disabled slots keep the theme's constants.
   */
  function ChoiceButtonColorsFor(
    darkTheme: bool,
    background: Color := Unspecified, foreground: Color := Unspecified, lip: Color := Unspecified,
    disabledBackground: Color := Unspecified, disabledForeground: Color := Unspecified,
    disabledLip: Color := Unspecified): (r: ChoiceButtonColors)
    ensures r.background == TakeOrElse(background, DefaultsFor(darkTheme).background)
    ensures r.foreground == TakeOrElse(foreground, DefaultsFor(darkTheme).foreground)
    ensures r.border == TakeOrElse(lip, DefaultsFor(darkTheme).border)
    ensures r.selectedBackground == TakeOrElse(disabledBackground, DefaultsFor(darkTheme).selectedBackground)
    ensures r.selectedForeground == TakeOrElse(disabledForeground, DefaultsFor(darkTheme).selectedForeground)
    ensures r.selectedBorder == TakeOrElse(disabledLip, DefaultsFor(darkTheme).selectedBorder)
    ensures r.disabledBackground == DefaultsFor(darkTheme).disabledBackground
    ensures r.disabledForeground == DefaultsFor(darkTheme).disabledForeground
    ensures r.disabledBorder == DefaultsFor(darkTheme).disabledBorder
  {
    if darkTheme then
      DarkChoiceButtonColors(background, foreground, lip, disabledBackground, disabledForeground, disabledLip)
    else
      LightChoiceButtonColors(background, foreground, lip, disabledBackground, disabledForeground, disabledLip)
  }

  /** The composable nine-argument `choiceButtonColors(...)`, with `isSystemInDarkTheme()` as a parameter: every argument reaches its own slot. */
  function ChoiceButtonColorsForSystem(
    isSystemInDarkTheme: bool,
    background: Color := Unspecified, foreground: Color := Unspecified, border: Color := Unspecified,
    selectedBackground: Color := Unspecified, selectedForeground: Color := Unspecified,
    selectedBorder: Color := Unspecified, disabledBackground: Color := Unspecified,
    disabledForeground: Color := Unspecified, disabledBorder: Color := Unspecified): (r: ChoiceButtonColors)
    ensures r == WithDefaultsFrom(ChoiceButtonColors(background, foreground, border, selectedBackground, selectedForeground, selectedBorder, disabledBackground, disabledForeground, disabledBorder), DefaultsFor(isSystemInDarkTheme))
    ensures AllSpecified(Slots(r))
  {
    MergeTotal(Slots(ChoiceButtonColors(background, foreground, border, selectedBackground, selectedForeground, selectedBorder, disabledBackground, disabledForeground, disabledBorder)), Slots(DefaultsFor(isSystemInDarkTheme)));
    if isSystemInDarkTheme then
      DarkChoiceButtonColors(background, foreground, border, selectedBackground, selectedForeground,
                             selectedBorder, disabledBackground, disabledForeground, disabledBorder)
    else
      LightChoiceButtonColors(background, foreground, border, selectedBackground, selectedForeground,
                              selectedBorder, disabledBackground, disabledForeground, disabledBorder)
  }

  // ---- Lip, border and press arithmetic ----

  /** The theme's choice-button metrics, in pixels. */
  datatype ChoiceButtonMetrics = ChoiceButtonMetrics(lipSize: real, borderSize: real, cornerRadius: real)

  const LipCheckMessage: string := "The lip must be at least as big as the border"

  predicate LipCoversBorder(m: ChoiceButtonMetrics) {
    m.lipSize - m.borderSize >= 0.0
  }

  /** The lip as drawn: it disappears while the button is pressed. */
  function DrawnLipSize(pressed: bool, m: ChoiceButtonMetrics): real {
    if pressed then 0.0 else m.lipSize
  }

  /** The extra vertical padding that moves the content onto the lip when pressed. */
  function LipPadding(pressed: bool, m: ChoiceButtonMetrics): (p: Padding)
    ensures PaddingSum(p) == m.lipSize - m.borderSize
    ensures pressed ==> p == Padding(m.lipSize - m.borderSize, 0.0)
    ensures !pressed ==> p == Padding(0.0, m.lipSize - m.borderSize)
  {
    var lipContentPadding := m.lipSize - m.borderSize;
    Padding(if pressed then lipContentPadding else 0.0, if pressed then 0.0 else lipContentPadding)
  }

  function Max(a: real, b: real): (r: real)
    ensures r >= a && r >= b && (r == a || r == b)
  {
    if a >= b then a else b
  }

  /** The face, drawn over the border rectangle so that only a border-wide frame and the lip remain visible. */
  function BackgroundBounds(pressed: bool, m: ChoiceButtonMetrics, size: Size): (b: Bounds)
    ensures b.x == m.borderSize && b.y == m.borderSize
    ensures Right(b) == size.width - m.borderSize
    ensures Bottom(b) == size.height - Max(DrawnLipSize(pressed, m), m.borderSize)
  {
    var borderWidth := m.borderSize;
    Bounds(borderWidth, borderWidth, size.width - 2.0 * borderWidth,
           size.height - borderWidth - Max(DrawnLipSize(pressed, m), borderWidth))
  }

  /** What one draw pass of `ChoiceButton` produces. */
  datatype ChoiceButtonFrame = ChoiceButtonFrame(
    border: DrawOp, face: DrawOp, contentInsets: Insets, foreground: Color)

  /**
   * `ChoiceButton`: the lip check, then the border rectangle and the face over it, the
   * content inset by the border on every side plus the lip padding above or below it,
   * and the foreground colour.
   */
  function DrawChoiceButton(selected: bool, enabled: bool, pressed: bool, colors: ChoiceButtonColors,
                            m: ChoiceButtonMetrics, size: Size): (r: Checked<ChoiceButtonFrame>)
    ensures r.CheckFailed? <==> !LipCoversBorder(m)
    ensures r.CheckFailed? ==> r.message == LipCheckMessage
    ensures r.Drawn? ==>
      && r.value.border == FillRoundRect(BorderColor(colors, selected, enabled), FullBounds(size), m.cornerRadius)
      && r.value.face == FillRoundRect(BackgroundColor(colors, selected, enabled),
                                       BackgroundBounds(pressed, m, size), m.cornerRadius - m.borderSize)
      && r.value.contentInsets.start == m.borderSize && r.value.contentInsets.end == m.borderSize
      && r.value.contentInsets.top == m.borderSize + LipPadding(pressed, m).top
      && r.value.contentInsets.bottom == m.borderSize + LipPadding(pressed, m).bottom
      && r.value.foreground == ForegroundColor(colors, selected, enabled)
  {
    if !LipCoversBorder(m) then CheckFailed(LipCheckMessage)
    else
      var lip := LipPadding(pressed, m);
      Drawn(ChoiceButtonFrame(
        FillRoundRect(BorderColor(colors, selected, enabled), FullBounds(size), m.cornerRadius),
        FillRoundRect(BackgroundColor(colors, selected, enabled),
                      BackgroundBounds(pressed, m, size), m.cornerRadius - m.borderSize),
        Insets(m.borderSize, m.borderSize + lip.top, m.borderSize, m.borderSize + lip.bottom),
        ForegroundColor(colors, selected, enabled)))
  }

  // ---- Properties ----

  /** Disabled wins over selected for the background and the border, whatever the selection. */
  lemma DisabledOverridesSelected(c: ChoiceButtonColors, selected: bool)
    ensures BackgroundColor(c, selected, false) == c.disabledBackground
    ensures BorderColor(c, selected, false) == c.disabledBorder
    ensures BackgroundColor(c, true, true) == c.selectedBackground
    ensures BorderColor(c, true, true) == c.selectedBorder
  {
  }

  /** The disabled foreground slot is never read: changing it changes no resolved foreground. */
  lemma DisabledForegroundUnused(c: ChoiceButtonColors, x: Color, selected: bool, enabled: bool)
    ensures ForegroundColor(c.(disabledForeground := x), selected, enabled) == ForegroundColor(c, selected, enabled)
  {
  }

  /** The foreground agrees with the precedence disabled > selected > normal exactly when the button is enabled or the two slots coincide. */
  lemma ForegroundFollowsPrecedenceIff(c: ChoiceButtonColors, selected: bool, enabled: bool)
    ensures ForegroundColor(c, selected, enabled) == Slot(c, ForegroundRole, StateOf(selected, enabled))
        <==> enabled || c.selectedForeground == c.disabledForeground
  {
  }

  /** In the shipped palettes a disabled button's text uses the selected blue, not the grey meant for it. */
  lemma DisabledTextIsSelectedBlue(darkTheme: bool, selected: bool)
    ensures ForegroundColor(DefaultsFor(darkTheme), selected, false) == Argb(0xFF1C_B0F6)
    ensures ForegroundColor(DefaultsFor(darkTheme), selected, false) != DefaultsFor(darkTheme).disabledForeground
  {
  }

  /** Caller-supplied "disabled" colours in the theme overload never reach the disabled state. */
  lemma PositionalOverloadIgnoresDisabledArguments(darkTheme: bool, db: Color, df: Color, dl: Color, selected: bool)
    ensures var r := ChoiceButtonColorsFor(darkTheme, disabledBackground := db, disabledForeground := df, disabledLip := dl);
      && BackgroundColor(r, selected, false) == DefaultsFor(darkTheme).disabledBackground
      && BorderColor(r, selected, false) == DefaultsFor(darkTheme).disabledBorder
      && (db.Argb? ==> BackgroundColor(r, true, true) == db)
  {
  }

  lemma WithDefaultsIdempotent(c: ChoiceButtonColors, defaults: ChoiceButtonColors)
    ensures WithDefaultsFrom(WithDefaultsFrom(c, defaults), defaults) == WithDefaultsFrom(c, defaults)
  {
  }

  /** Specified own slots are never overwritten; fully specified defaults give a fully specified palette. */
  lemma WithDefaultsLeftBiasedAndTotal(c: ChoiceButtonColors, defaults: ChoiceButtonColors)
    ensures forall i :: 0 <= i < 9 && Slots(c)[i].Argb? ==> Slots(WithDefaultsFrom(c, defaults))[i] == Slots(c)[i]
    ensures AllSpecified(Slots(defaults)) ==> AllSpecified(Slots(WithDefaultsFrom(c, defaults)))
  {
  }

  /** Resolving any role in any state commutes with the merge. */
  lemma ResolutionCommutesWithMerge(c: ChoiceButtonColors, defaults: ChoiceButtonColors, role: Role, state: ChoiceState)
    ensures Slot(WithDefaultsFrom(c, defaults), role, state) == TakeOrElse(Slot(c, role, state), Slot(defaults, role, state))
  {
  }

  /** Pressing moves the content down by the lip's excess over the border; the total inset is unchanged. */
  lemma PressMovesContent(m: ChoiceButtonMetrics)
    ensures LipPadding(true, m).top - LipPadding(false, m).top == m.lipSize - m.borderSize
    ensures PaddingSum(LipPadding(true, m)) == PaddingSum(LipPadding(false, m))
    ensures DrawnLipSize(true, m) == 0.0
  {
  }

  /**
   * Whenever the check passes and the border is non-negative, the face's bottom edge is
   * the content's bottom edge, pressed or not; pressed, the face is `H - 2b` tall.
   */
  lemma FaceMeetsContentBottom(selected: bool, enabled: bool, pressed: bool,
                                                  colors: ChoiceButtonColors, m: ChoiceButtonMetrics, size: Size)
    requires LipCoversBorder(m) && m.borderSize >= 0.0
    ensures var f := DrawChoiceButton(selected, enabled, pressed, colors, m, size).value;
      && Bottom(f.face.bounds) == size.height - f.contentInsets.bottom
      && (pressed ==> f.face.bounds.height == size.height - 2.0 * m.borderSize)
      && (!pressed ==> f.face.bounds.height == size.height - m.borderSize - m.lipSize)
  {
  }

  /** The face's left and right edges are the content's, so the content sits inside the visible border frame. */
  lemma FaceMeetsContentSides(selected: bool, enabled: bool, pressed: bool,
                              colors: ChoiceButtonColors, m: ChoiceButtonMetrics, size: Size)
    requires LipCoversBorder(m)
    ensures var f := DrawChoiceButton(selected, enabled, pressed, colors, m, size).value;
      && f.face.bounds.x == f.contentInsets.start
      && Right(f.face.bounds) == size.width - f.contentInsets.end
  {
  }
}

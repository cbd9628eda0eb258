/**
 * The app palette: three base colours plus the indication, button and progress-bar
 * palettes, the dark and light palette builders with their fallbacks, and the blue
 * theme, which differs from the default palette only in its button.
 */
module ThemeColors {
  import opened ColorModel
  import opened Indication
  import Canvas
  import Button
  import ProgressBar

  datatype Colors = Colors(
    windowBackground: Color,
    foreground: Color,
    accent: Color,
    indication: IndicationColors,
    button: Button.ButtonColors,
    progressBar: ProgressBar.ProgressBarColors)

  function BaseSlots(c: Colors): (s: seq<Color>)
    ensures |s| == 3
  {
    [c.windowBackground, c.foreground, c.accent]
  }

  /** Dark fallbacks for window background, foreground and accent. */
  const DarkBase: seq<Color> := [Argb(0xFF15_2021), Argb(0xFFF2_F7FA), Argb(0xFF55_C9F4)]

  /** Light fallbacks for window background, foreground and accent. */
  const LightBase: seq<Color> := [Argb(0xFFFF_FFFF), Argb(0xFF4B_4B4B), Argb(0xFF58_CC02)]

  /**
   * `darkColors(...)`. The indication palette's default comes from `indicationColors`,
   * which is not part of this model, so the caller always supplies it by name. The progress-bar
   * default is built by the `darkTheme` overload, whose (unspecified) arguments are
   * named background, foreground and lip.
   */
  function DarkColors(
    windowBackground: Color := Unspecified, foreground: Color := Unspecified, accent: Color := Unspecified,
    indication: IndicationColors,
    button: Button.ButtonColors := Button.ButtonColorsFor(darkTheme := true),
    progressBar: ProgressBar.ProgressBarColors := ProgressBar.ProgressBarColorsFor(darkTheme := true)): (r: Colors)
    ensures BaseSlots(r) == MergeSlots([windowBackground, foreground, accent], DarkBase)
    ensures AllSpecified(BaseSlots(r))
    ensures r.indication == indication && r.button == button && r.progressBar == progressBar
  {
    Colors(
      TakeOrElse(windowBackground, Argb(0xFF15_2021)),
      TakeOrElse(foreground, Argb(0xFFF2_F7FA)),
      TakeOrElse(accent, Argb(0xFF55_C9F4)),
      indication,
      button,
      progressBar)
  }

  /** `lightColors(...)`, with the same conventions as `DarkColors`. */
  function LightColors(
    windowBackground: Color := Unspecified, foreground: Color := Unspecified, accent: Color := Unspecified,
    indication: IndicationColors,
    button: Button.ButtonColors := Button.ButtonColorsFor(darkTheme := false),
    progressBar: ProgressBar.ProgressBarColors := ProgressBar.ProgressBarColorsFor(darkTheme := false)): (r: Colors)
    ensures BaseSlots(r) == MergeSlots([windowBackground, foreground, accent], LightBase)
    ensures AllSpecified(BaseSlots(r))
    ensures r.indication == indication && r.button == button && r.progressBar == progressBar
  {
    Colors(
      TakeOrElse(windowBackground, Argb(0xFFFF_FFFF)),
      TakeOrElse(foreground, Argb(0xFF4B_4B4B)),
      TakeOrElse(accent, Argb(0xFF58_CC02)),
      indication,
      button,
      progressBar)
  }

  /** `DarkColorPalette` / `LightColorPalette`: the builders with every default taken. */
  function DefaultPalette(darkTheme: bool, indication: IndicationColors): (r: Colors)
    ensures BaseSlots(r) == (if darkTheme then DarkBase else LightBase)
    ensures r.button == (if darkTheme then Button.DarkDefaults else Button.LightDefaults)
    ensures r.progressBar == (if darkTheme then ProgressBar.DarkDefaults else ProgressBar.LightDefaults)
  {
    if darkTheme then DarkColors(indication := indication) else LightColors(indication := indication)
  }

  /** The blue button's lip, shared by both themes. */
  const BlueLip: Color := Argb(0xFF24_A3D3)

  /** `blueThemeColors(darkTheme)`: the default palette with a blue button. */
  function BlueThemeColors(darkTheme: bool, indication: IndicationColors): (r: Colors)
    ensures r.button.background == (if darkTheme then Argb(0xFF2A_BAF0) else Argb(0xFF55_C9F4))
    ensures r.button.lip == BlueLip
  {
    if darkTheme then
      DarkColors(indication := indication,
        button := Button.ButtonColorsFor(darkTheme := true, background := Argb(0xFF2A_BAF0), lip := BlueLip))
    else
      LightColors(indication := indication,
        button := Button.ButtonColorsFor(darkTheme := false, background := Argb(0xFF55_C9F4), lip := BlueLip))
  }

  /** Apart from its button, the blue theme is the default palette of the same theme. */
  lemma BlueThemeOnlyChangesButton(darkTheme: bool, indication: IndicationColors)
    ensures BlueThemeColors(darkTheme, indication)
         == DefaultPalette(darkTheme, indication).(button := BlueThemeColors(darkTheme, indication).button)
  {
  }

  /** The blue button keeps the theme's foreground and disabled colours. */
  lemma BlueButtonKeepsOtherSlots(darkTheme: bool, indication: IndicationColors)
    ensures var b := BlueThemeColors(darkTheme, indication).button;
      var d := if darkTheme then Button.DarkDefaults else Button.LightDefaults;
      && b.foreground == d.foreground
      && b.disabledBackground == d.disabledBackground
      && b.disabledForeground == d.disabledForeground
      && b.disabledLip == d.disabledLip
      && b == d.(background := b.background, lip := BlueLip)
  {
  }

  /** An enabled `Button` with default colours shows the blue face and lip under the blue theme. */
  lemma BlueThemeButtonAppearance(darkTheme: bool, indication: IndicationColors, pressed: bool,
                                                     m: Button.ButtonMetrics, size: Canvas.Size)
    ensures var f := Button.DrawButton(true, pressed, Button.UnspecifiedButtonColors,
                                       BlueThemeColors(darkTheme, indication).button, m, size);
      && f.face.color == BlueThemeColors(darkTheme, indication).button.background
      && f.behind.color == BlueLip
  {
  }
}

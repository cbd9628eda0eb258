/**
 * The lipped button: its six-slot palette (normal and disabled background, foreground
 * and lip), the palette's merge with the theme's defaults, its factories, and the
 * press effect, which moves the face down onto the lip by swapping two paddings.
 */
module Button {
  import opened ColorModel
  import opened Canvas

  datatype ButtonColors = ButtonColors(
    background: Color,
    foreground: Color,
    lip: Color,
    disabledBackground: Color,
    disabledForeground: Color,
    disabledLip: Color)

  /** The caller-facing default: every slot deferred to the theme. */
  const UnspecifiedButtonColors: ButtonColors :=
    ButtonColors(Unspecified, Unspecified, Unspecified, Unspecified, Unspecified, Unspecified)

  function Slots(c: ButtonColors): (s: seq<Color>)
    ensures |s| == 6
  {
    [c.background, c.foreground, c.lip, c.disabledBackground, c.disabledForeground, c.disabledLip]
  }

  lemma SlotsInjective(a: ButtonColors, b: ButtonColors)
    ensures Slots(a) == Slots(b) <==> a == b
  {
  }

  // ---- State-to-colour selection ----

  function BackgroundColor(c: ButtonColors, enabled: bool): (r: Color)
    ensures enabled ==> r == c.background
    ensures !enabled ==> r == c.disabledBackground
  {
    if enabled then c.background else c.disabledBackground
  }

  function ForegroundColor(c: ButtonColors, enabled: bool): (r: Color)
    ensures enabled ==> r == c.foreground
    ensures !enabled ==> r == c.disabledForeground
  {
    if enabled then c.foreground else c.disabledForeground
  }

  function LipColor(c: ButtonColors, enabled: bool): (r: Color)
    ensures enabled ==> r == c.lip
    ensures !enabled ==> r == c.disabledLip
  {
    if enabled then c.lip else c.disabledLip
  }

  /** `ButtonColors.equals`: two palettes are equal when all six slots are. */
  function Equals(a: ButtonColors, b: ButtonColors): (r: bool)
    ensures r <==> a == b
    ensures r <==> Slots(a) == Slots(b)
  {
    SlotsInjective(a, b);
    && a.background == b.background
    && a.foreground == b.foreground
    && a.lip == b.lip
    && a.disabledBackground == b.disabledBackground
    && a.disabledForeground == b.disabledForeground
    && a.disabledLip == b.disabledLip
  }

  /** `ButtonColors.withDefaultsFrom`: slot-wise `takeOrElse` over the six slots. */
  function WithDefaultsFrom(c: ButtonColors, defaults: ButtonColors): (r: ButtonColors)
    ensures Slots(r) == MergeSlots(Slots(c), Slots(defaults))
  {
    ButtonColors(
      TakeOrElse(c.background, defaults.background),
      TakeOrElse(c.foreground, defaults.foreground),
      TakeOrElse(c.lip, defaults.lip),
      TakeOrElse(c.disabledBackground, defaults.disabledBackground),
      TakeOrElse(c.disabledForeground, defaults.disabledForeground),
      TakeOrElse(c.disabledLip, defaults.disabledLip))
  }

  // ---- Factories ----

  const DarkDefaults: ButtonColors := ButtonColors(
    Argb(0xFF99_E439), Argb(0xFF15_2021), Argb(0xFF7D_C937),
    Argb(0xFF38_474E), Argb(0xFF55_666C), Argb(0xFF38_474E))

  const LightDefaults: ButtonColors := ButtonColors(
    Argb(0xFF60_E509), White, Argb(0xFF5E_BB05),
    Argb(0xFFE5_E5E5), Argb(0xFFAF_AFAF), Argb(0xFFE5_E5E5))

  function DarkButtonColors(
    background: Color := Unspecified, foreground: Color := Unspecified, lip: Color := Unspecified,
    disabledBackground: Color := Unspecified, disabledForeground: Color := Unspecified,
    disabledLip: Color := Unspecified): (r: ButtonColors)
    ensures r == WithDefaultsFrom(
      ButtonColors(background, foreground, lip, disabledBackground, disabledForeground, disabledLip), DarkDefaults)
  {
    ButtonColors(
      TakeOrElse(background, Argb(0xFF99_E439)),
      TakeOrElse(foreground, Argb(0xFF15_2021)),
      TakeOrElse(lip, Argb(0xFF7D_C937)),
      TakeOrElse(disabledBackground, Argb(0xFF38_474E)),
      TakeOrElse(disabledForeground, Argb(0xFF55_666C)),
      TakeOrElse(disabledLip, Argb(0xFF38_474E)))
  }

  function LightButtonColors(
    background: Color := Unspecified, foreground: Color := Unspecified, lip: Color := Unspecified,
    disabledBackground: Color := Unspecified, disabledForeground: Color := Unspecified,
    disabledLip: Color := Unspecified): (r: ButtonColors)
    ensures r == WithDefaultsFrom(
      ButtonColors(background, foreground, lip, disabledBackground, disabledForeground, disabledLip), LightDefaults)
  {
    ButtonColors(
      TakeOrElse(background, Argb(0xFF60_E509)),
      TakeOrElse(foreground, White),
      TakeOrElse(lip, Argb(0xFF5E_BB05)),
      TakeOrElse(disabledBackground, Argb(0xFFE5_E5E5)),
      TakeOrElse(disabledForeground, Argb(0xFFAF_AFAF)),
      TakeOrElse(disabledLip, Argb(0xFFE5_E5E5)))
  }

  /** `buttonColors(darkTheme, ...)`: the theme flag picks the dark or the light factory. */
  function ButtonColorsFor(
    darkTheme: bool,
    background: Color := Unspecified, foreground: Color := Unspecified, lip: Color := Unspecified,
    disabledBackground: Color := Unspecified, disabledForeground: Color := Unspecified,
    disabledLip: Color := Unspecified): (r: ButtonColors)
    ensures r == WithDefaultsFrom(
      ButtonColors(background, foreground, lip, disabledBackground, disabledForeground, disabledLip),
      if darkTheme then DarkDefaults else LightDefaults)
    ensures AllSpecified(Slots(r))
  {
    MergeTotal(Slots(ButtonColors(background, foreground, lip, disabledBackground, disabledForeground, disabledLip)),
               Slots(if darkTheme then DarkDefaults else LightDefaults));
    if darkTheme then
      DarkButtonColors(background, foreground, lip, disabledBackground, disabledForeground, disabledLip)
    else
      LightButtonColors(background, foreground, lip, disabledBackground, disabledForeground, disabledLip)
  }

  /** The composable `buttonColors(...)`, with `isSystemInDarkTheme()` as a parameter. */
  function ButtonColorsForSystem(
    isSystemInDarkTheme: bool,
    background: Color := Unspecified, foreground: Color := Unspecified, lip: Color := Unspecified,
    disabledBackground: Color := Unspecified, disabledForeground: Color := Unspecified,
    disabledLip: Color := Unspecified): (r: ButtonColors)
    ensures r == ButtonColorsFor(isSystemInDarkTheme, background, foreground, lip,
                                 disabledBackground, disabledForeground, disabledLip)
  {
    if isSystemInDarkTheme then
      DarkButtonColors(background, foreground, lip, disabledBackground, disabledForeground, disabledLip)
    else
      LightButtonColors(background, foreground, lip, disabledBackground, disabledForeground, disabledLip)
  }

  // ---- Press effect and drawing ----

  /** The theme's button metrics, in pixels. */
  datatype ButtonMetrics = ButtonMetrics(lipSize: real, lipSizePressed: real, cornerRadius: real)

  /** Released: the face sits `lipSizePressed` from the top, `lipSize` above the bottom; pressing swaps the two. */
  function ButtonPadding(pressed: bool, m: ButtonMetrics): (p: Padding)
    ensures PaddingSum(p) == m.lipSize + m.lipSizePressed
    ensures pressed ==> p == Padding(m.lipSize, m.lipSizePressed)
    ensures !pressed ==> p == Padding(m.lipSizePressed, m.lipSize)
  {
    var lipSize := if pressed then m.lipSizePressed else m.lipSize;
    var topPadding := if pressed then m.lipSize else m.lipSizePressed;
    Padding(topPadding, lipSize)
  }

  /** The lip, drawn behind the face from `lipSize` down to the bottom, always with the released lip size. */
  function LipBounds(m: ButtonMetrics, size: Size): (b: Bounds)
    ensures b.x == 0.0 && b.width == size.width
    ensures b.y == m.lipSize && Bottom(b) == size.height
  {
    Bounds(0.0, m.lipSize, size.width, size.height - m.lipSize)
  }

  /** What one draw pass of `Button` produces. */
  datatype ButtonFrame = ButtonFrame(behind: DrawOp, padding: Padding, face: DrawOp, foreground: Color)

  /**
   * `Button`: the caller's colours are merged over the theme's button palette, the lip is
   * drawn behind, and the face (the content row, which fills the padded box) is filled
   * with the background colour.
   */
  function DrawButton(enabled: bool, pressed: bool, colors: ButtonColors, themeButton: ButtonColors,
                      m: ButtonMetrics, size: Size): (f: ButtonFrame)
    ensures var merged := WithDefaultsFrom(colors, themeButton);
      && f.behind == FillRoundRect(LipColor(merged, enabled), LipBounds(m, size), m.cornerRadius)
      && f.face.FillRoundRect? && f.face.color == BackgroundColor(merged, enabled)
      && f.foreground == ForegroundColor(merged, enabled)
    ensures f.padding == ButtonPadding(pressed, m)
    ensures f.face.bounds.y == f.padding.top && Bottom(f.face.bounds) == size.height - f.padding.bottom
  {
    var buttonColors := WithDefaultsFrom(colors, themeButton);
    var padding := ButtonPadding(pressed, m);
    ButtonFrame(
      FillRoundRect(LipColor(buttonColors, enabled), LipBounds(m, size), m.cornerRadius),
      padding,
      FillRoundRect(BackgroundColor(buttonColors, enabled),
                    Bounds(0.0, padding.top, size.width, size.height - padding.top - padding.bottom),
                    m.cornerRadius),
      ForegroundColor(buttonColors, enabled))
  }

  // ---- Properties ----

  /** The unspecified palette is a left identity of the merge: `Button` with default colours shows the theme's palette. */
  lemma UnspecifiedIsIdentity(defaults: ButtonColors)
    ensures WithDefaultsFrom(UnspecifiedButtonColors, defaults) == defaults
  {
  }

  lemma WithDefaultsIdempotent(c: ButtonColors, defaults: ButtonColors)
    ensures WithDefaultsFrom(WithDefaultsFrom(c, defaults), defaults) == WithDefaultsFrom(c, defaults)
  {
  }

  /** Layering three palettes does not depend on grouping. */
  lemma WithDefaultsAssociative(a: ButtonColors, b: ButtonColors, c: ButtonColors)
    ensures WithDefaultsFrom(WithDefaultsFrom(a, b), c) == WithDefaultsFrom(a, WithDefaultsFrom(b, c))
  {
  }

  /** Specified own slots are never overwritten; fully specified defaults give a fully specified palette. */
  lemma WithDefaultsLeftBiasedAndTotal(c: ButtonColors, defaults: ButtonColors)
    ensures forall i :: 0 <= i < 6 && Slots(c)[i].Argb? ==> Slots(WithDefaultsFrom(c, defaults))[i] == Slots(c)[i]
    ensures AllSpecified(Slots(defaults)) ==> AllSpecified(Slots(WithDefaultsFrom(c, defaults)))
  {
  }

  /** Resolving a state commutes with the merge: the merged palette's colour is the caller's, else the theme's. */
  lemma ResolutionCommutesWithMerge(c: ButtonColors, defaults: ButtonColors, enabled: bool)
    ensures BackgroundColor(WithDefaultsFrom(c, defaults), enabled) == TakeOrElse(BackgroundColor(c, enabled), BackgroundColor(defaults, enabled))
    ensures ForegroundColor(WithDefaultsFrom(c, defaults), enabled) == TakeOrElse(ForegroundColor(c, enabled), ForegroundColor(defaults, enabled))
    ensures LipColor(WithDefaultsFrom(c, defaults), enabled) == TakeOrElse(LipColor(c, enabled), LipColor(defaults, enabled))
  {
  }

  /** A factory's output is already complete: feeding it back through the same factory changes nothing. */
  lemma FactoryIdempotent(darkTheme: bool, c: ButtonColors)
    ensures var once := ButtonColorsFor(darkTheme, c.background, c.foreground, c.lip,
                                        c.disabledBackground, c.disabledForeground, c.disabledLip);
      ButtonColorsFor(darkTheme, once.background, once.foreground, once.lip,
                      once.disabledBackground, once.disabledForeground, once.disabledLip) == once
  {
  }

  /** With no overrides the factories yield exactly the hard-coded palettes. */
  lemma FactoryDefaults()
    ensures ButtonColorsFor(true) == DarkDefaults
    ensures ButtonColorsFor(false) == LightDefaults
  {
  }

  /** Pressing moves the face down by `lipSize - lipSizePressed` without changing its height. */
  lemma PressShiftsFace(enabled: bool, colors: ButtonColors, themeButton: ButtonColors, m: ButtonMetrics, size: Size)
    ensures var up := DrawButton(enabled, false, colors, themeButton, m, size).face.bounds;
      var down := DrawButton(enabled, true, colors, themeButton, m, size).face.bounds;
      && down.y - up.y == m.lipSize - m.lipSizePressed
      && Bottom(down) - Bottom(up) == m.lipSize - m.lipSizePressed
      && down.height == up.height
  {
  }

  /** The lip visible below the face is exactly the current state's lip size, and the lip rectangle ignores the press. */
  lemma VisibleLipMatchesState(enabled: bool, pressed: bool, colors: ButtonColors, themeButton: ButtonColors, m: ButtonMetrics, size: Size)
    ensures var f := DrawButton(enabled, pressed, colors, themeButton, m, size);
      && Bottom(f.behind.bounds) - Bottom(f.face.bounds) == (if pressed then m.lipSizePressed else m.lipSize)
      && f.behind == DrawButton(enabled, !pressed, colors, themeButton, m, size).behind
  {
  }
}

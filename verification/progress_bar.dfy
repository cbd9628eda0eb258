/**
 * The progress bar widget: the range check on the progress value, the geometry of the
 * filled bar and of its "shine" highlight, and the bar's palette with its light and
 * dark factories.
 */
module ProgressBar {
  import opened ColorModel
  import opened Canvas

  const ProgressRangeMessage: string := "Progress must be in the [0f, 1f] range (inclusive)"

  /** `progress in 0f..1f`. */
  predicate InProgressRange(p: real) {
    0.0 <= p <= 1.0
  }

  /** The highlight's corner radius is a tuned 3/20 of the track height. */
  function HighlightCornerRadius(trackHeight: real): (hr: real)
    ensures 20.0 * hr == 3.0 * trackHeight
  {
    trackHeight * 3.0 / 20.0
  }

  /**
   * `updateProgressBounds`: the filled bar for `progress` on a track of size `track`.
   * In left-to-right layout the bar bleeds `cornerRadius` past the start so that its
   * rounded start cap is clipped away; in right-to-left layout it grows from the right.
   */
  function ProgressBounds(progress: real, track: Size, dir: LayoutDirection, cornerRadius: real): (b: Bounds)
    ensures IsEmpty(track) ==> b == ZeroBounds
    ensures !IsEmpty(track) ==> b.y == 0.0 && b.height == track.height
    ensures !IsEmpty(track) ==> b.width - cornerRadius == progress * track.width
    ensures !IsEmpty(track) && dir == Ltr ==> b.x == -cornerRadius && Right(b) == progress * track.width
    ensures !IsEmpty(track) && dir == Rtl ==> b.x == (1.0 - progress) * track.width && Right(b) == track.width + cornerRadius
  {
    if IsEmpty(track) then ZeroBounds
    else
      var width := track.width;
      var barStart := if dir == Ltr then -cornerRadius else (1.0 - progress) * width;
      var progressWidth := progress * width + cornerRadius;
      Bounds(barStart, 0.0, progressWidth, track.height)
  }

  /** `progressBounds.size.isEmpty() || progressBounds.size.width < margin * 2`. */
  predicate HighlightCollapses(bar: Bounds, margin: real) {
    IsEmpty(SizeOf(bar)) || bar.width < margin * 2.0
  }

  /**
   * `updateHighlightBounds`: the shine drawn inside the bar. It is inset by
   * `margin + progressCornerRadius` from the bar's start and by `margin` from its end,
   * and it sits on the upper half of the bar: its bottom edge is the bar's midline.
   */
  function HighlightBounds(bar: Bounds, progressCornerRadius: real, highlightCornerRadius: real, margin: real): (h: Bounds)
    ensures HighlightCollapses(bar, margin) ==> h == ZeroBounds
    ensures !HighlightCollapses(bar, margin) ==>
      && h.x == bar.x + margin + progressCornerRadius
      && Right(h) == Right(bar) - margin
      && h.height == 2.0 * highlightCornerRadius
      && Bottom(h) == bar.y + bar.height / 2.0
  {
    if HighlightCollapses(bar, margin) then ZeroBounds
    else
      var halfHeight := bar.height / 2.0;
      var highlightBarHeight := highlightCornerRadius * 2.0;
      Bounds(bar.x + margin + progressCornerRadius,
             bar.y + halfHeight - highlightBarHeight,
             bar.width - margin * 2.0 - progressCornerRadius,
             highlightBarHeight)
  }

  datatype ProgressBarColors = ProgressBarColors(bar: Color, barHighlight: Color, track: Color)

  function Slots(c: ProgressBarColors): (s: seq<Color>)
    ensures |s| == 3
  {
    [c.bar, c.barHighlight, c.track]
  }

  /** `ProgressBarColors.withDefaultsFrom`: the slot-wise merge over the three colours. */
  function WithDefaultsFrom(c: ProgressBarColors, defaults: ProgressBarColors): (r: ProgressBarColors)
    ensures Slots(r) == MergeSlots(Slots(c), Slots(defaults))
  {
    ProgressBarColors(
      TakeOrElse(c.bar, defaults.bar),
      TakeOrElse(c.barHighlight, defaults.barHighlight),
      TakeOrElse(c.track, defaults.track))
  }

  /** The hard-coded dark palette, i.e. what the dark factory yields with no overrides. */
  const DarkDefaults: ProgressBarColors := ProgressBarColors(Argb(0xFF99_E439), Argb(0xFFAD_EA61), Argb(0xFF38_474E))

  /** The hard-coded light palette. */
  const LightDefaults: ProgressBarColors := ProgressBarColors(Argb(0xFF60_E509), Argb(0xFF80_EB3A), Argb(0xFFE5_E5E5))

  function DarkProgressBarColors(bar: Color := Unspecified, barHighlight: Color := Unspecified, track: Color := Unspecified): (r: ProgressBarColors)
    ensures AllSpecified(Slots(r))
    ensures r == WithDefaultsFrom(ProgressBarColors(bar, barHighlight, track), DarkDefaults)
  {
    ProgressBarColors(
      TakeOrElse(bar, Argb(0xFF99_E439)),
      TakeOrElse(barHighlight, Argb(0xFFAD_EA61)),
      TakeOrElse(track, Argb(0xFF38_474E)))
  }

  function LightProgressBarColors(bar: Color := Unspecified, barHighlight: Color := Unspecified, track: Color := Unspecified): (r: ProgressBarColors)
    ensures AllSpecified(Slots(r))
    ensures r == WithDefaultsFrom(ProgressBarColors(bar, barHighlight, track), LightDefaults)
  {
    ProgressBarColors(
      TakeOrElse(bar, Argb(0xFF60_E509)),
      TakeOrElse(barHighlight, Argb(0xFF80_EB3A)),
      TakeOrElse(track, Argb(0xFFE5_E5E5)))
  }

  /**
   * `progressBarColors(darkTheme, background, foreground, lip)`: the parameters carry
   * button-style names but are passed positionally as bar, highlight and track.
   */
  function ProgressBarColorsFor(darkTheme: bool, background: Color := Unspecified, foreground: Color := Unspecified, lip: Color := Unspecified): (r: ProgressBarColors)
    ensures r == WithDefaultsFrom(ProgressBarColors(background, foreground, lip), if darkTheme then DarkDefaults else LightDefaults)
  {
    if darkTheme then DarkProgressBarColors(background, foreground, lip)
    else LightProgressBarColors(background, foreground, lip)
  }

  /** The composable `progressBarColors(bar, barHighlight, track)`, with the system theme as a parameter. */
  function ProgressBarColorsForSystem(isSystemInDarkTheme: bool, bar: Color := Unspecified, barHighlight: Color := Unspecified, track: Color := Unspecified): (r: ProgressBarColors)
    ensures r == ProgressBarColorsFor(isSystemInDarkTheme, bar, barHighlight, track)
    ensures Slots(r) == MergeSlots([bar, barHighlight, track], Slots(if isSystemInDarkTheme then DarkDefaults else LightDefaults))
  {
    if isSystemInDarkTheme then DarkProgressBarColors(bar, barHighlight, track)
    else LightProgressBarColors(bar, barHighlight, track)
  }

  /**
   * The draw pass of `ProgressBar`: the range check on the requested progress, then the
   * track, the bar and the highlight, in that order. The bar follows the animated
   * progress, which an external animator produces.
   */
  function DrawProgressBar(
    progress: real, animatedProgress: real, track: Size, dir: LayoutDirection,
    colors: ProgressBarColors, cornerRadius: real, highlightMargin: real): (r: Checked<seq<DrawOp>>)
    ensures r.CheckFailed? <==> !InProgressRange(progress)
    ensures r.CheckFailed? ==> r.message == ProgressRangeMessage
    ensures r.Drawn? ==>
      var bar := ProgressBounds(animatedProgress, track, dir, cornerRadius);
      && |r.value| == 3
      && r.value[0] == FillRect(colors.track, FullBounds(track))
      && r.value[1] == FillRoundRect(colors.bar, bar, cornerRadius)
      && r.value[2].FillRoundRect? && r.value[2].color == colors.barHighlight
      && 20.0 * r.value[2].cornerRadius == 3.0 * track.height
      && r.value[2].bounds == HighlightBounds(bar, cornerRadius, r.value[2].cornerRadius, highlightMargin)
  {
    if !InProgressRange(progress) then CheckFailed(ProgressRangeMessage)
    else
      var bar := ProgressBounds(animatedProgress, track, dir, cornerRadius);
      var hr := HighlightCornerRadius(track.height);
      var highlight := HighlightBounds(bar, cornerRadius, hr, highlightMargin);
      Drawn([FillRect(colors.track, FullBounds(track)),
             FillRoundRect(colors.bar, bar, cornerRadius),
             FillRoundRect(colors.barHighlight, highlight, hr)])
  }

  // ---- Properties of the geometry ----

  /**
   * At progress 0 the bar is still as wide as the corner radius, but it lies wholly
   * outside the track, beyond its start edge, where the track's clip hides it.
   */
  lemma EmptyProgressOutsideTrack(track: Size, dir: LayoutDirection, cornerRadius: real)
    requires !IsEmpty(track)
    ensures ProgressBounds(0.0, track, dir, cornerRadius).width == cornerRadius
    ensures Right(ProgressBounds(0.0, track, Ltr, cornerRadius)) == 0.0
    ensures ProgressBounds(0.0, track, Rtl, cornerRadius).x == track.width
  {
  }

  /** At progress 1 the left-to-right bar ends exactly at the track's right edge. */
  lemma FullProgressReachesEnd(track: Size, cornerRadius: real)
    requires !IsEmpty(track)
    ensures Right(ProgressBounds(1.0, track, Ltr, cornerRadius)) == track.width
  {
  }

  /** The right-to-left bar is the left-to-right bar mirrored about the track's centre. */
  lemma RtlMirrorsLtr(progress: real, track: Size, cornerRadius: real)
    requires !IsEmpty(track)
    ensures ProgressBounds(progress, track, Rtl, cornerRadius)
         == MirrorX(ProgressBounds(progress, track, Ltr, cornerRadius), track.width)
  {
  }

  lemma MulNonNegative(a: real, b: real)
    requires a >= 0.0 && b >= 0.0
    ensures a * b >= 0.0
  {
  }

  /** More progress never yields a narrower bar. */
  lemma WidthMonotonic(p1: real, p2: real, track: Size, dir: LayoutDirection, cornerRadius: real)
    requires p1 <= p2
    ensures ProgressBounds(p1, track, dir, cornerRadius).width <= ProgressBounds(p2, track, dir, cornerRadius).width
  {
    if !IsEmpty(track) {
      MulNonNegative(p2 - p1, track.width);
      assert p2 * track.width - p1 * track.width == (p2 - p1) * track.width;
    }
  }

  /**
   * With the tuned 3/20 radius the highlight occupies the band from one fifth of the
   * bar's height down to its midline: inside the bar, but not centred on it.
   */
  lemma HighlightBandInsideBar(bar: Bounds, progressCornerRadius: real, margin: real)
    requires !HighlightCollapses(bar, margin)
    ensures var h := HighlightBounds(bar, progressCornerRadius, HighlightCornerRadius(bar.height), margin);
      && 5.0 * (h.y - bar.y) == bar.height
      && bar.y < h.y && Bottom(h) < Bottom(bar)
      && h.y + h.height / 2.0 != bar.y + bar.height / 2.0
  {
  }

  /** The highlight never extends past the bar's end, and starts after its start when the insets are non-negative. */
  lemma HighlightWithinBarHorizontally(bar: Bounds, progressCornerRadius: real, highlightCornerRadius: real, margin: real)
    requires !HighlightCollapses(bar, margin)
    requires margin >= 0.0 && progressCornerRadius >= 0.0
    ensures var h := HighlightBounds(bar, progressCornerRadius, highlightCornerRadius, margin);
      bar.x <= h.x && Right(h) <= Right(bar)
  {
  }

  /**
   * The collapse guard ignores the corner radius: the highlight is drawn with a
   * negative width exactly when the bar is at least `2 * margin` but less than
   * `2 * margin + progressCornerRadius` wide.
   */
  lemma HighlightWidthNegativeIff(bar: Bounds, progressCornerRadius: real, highlightCornerRadius: real, margin: real)
    requires !IsEmpty(SizeOf(bar))
    ensures var h := HighlightBounds(bar, progressCornerRadius, highlightCornerRadius, margin);
      h.width < 0.0 <==> margin * 2.0 <= bar.width < margin * 2.0 + progressCornerRadius
  {
  }

  /** For instance: an empty left-to-right bar with radius 16 and margin 8 gets a highlight 16 pixels wide the wrong way. */
  lemma HighlightNegativeAtZeroProgress()
    ensures var bar := ProgressBounds(0.0, Size(200.0, 16.0), Ltr, 16.0);
      && bar == Bounds(-16.0, 0.0, 16.0, 16.0)
      && HighlightBounds(bar, 16.0, HighlightCornerRadius(16.0), 8.0).width == -16.0
  {
  }

  /** Left-to-right, the highlight's end is the filled fraction of the track less the margin. */
  lemma LtrHighlightEnd(progress: real, track: Size, cornerRadius: real, margin: real)
    requires !IsEmpty(track)
    requires !HighlightCollapses(ProgressBounds(progress, track, Ltr, cornerRadius), margin)
    ensures var bar := ProgressBounds(progress, track, Ltr, cornerRadius);
      var h := HighlightBounds(bar, cornerRadius, HighlightCornerRadius(track.height), margin);
      h.x == margin && Right(h) == progress * track.width - margin
  {
  }

  /** The worked example: progress 0.5 on a 200 x 16 track with radius 16 gives a bar at (-16, 0) of size 116 x 16. */
  lemma WorkedExample()
    ensures ProgressBounds(0.5, Size(200.0, 16.0), Ltr, 16.0) == Bounds(-16.0, 0.0, 116.0, 16.0)
  {
  }

  // ---- Properties of the palette ----

  lemma SlotsInjective(a: ProgressBarColors, b: ProgressBarColors)
    ensures Slots(a) == Slots(b) <==> a == b
  {
  }

  /** Merging the same defaults again is a no-op. */
  lemma WithDefaultsIdempotent(c: ProgressBarColors, defaults: ProgressBarColors)
    ensures WithDefaultsFrom(WithDefaultsFrom(c, defaults), defaults) == WithDefaultsFrom(c, defaults)
  {
  }

  /** Specified own slots survive the merge; fully specified defaults make the result fully specified. */
  lemma WithDefaultsLeftBiasedAndTotal(c: ProgressBarColors, defaults: ProgressBarColors)
    ensures forall i :: 0 <= i < 3 && Slots(c)[i].Argb? ==> Slots(WithDefaultsFrom(c, defaults))[i] == Slots(c)[i]
    ensures AllSpecified(Slots(defaults)) ==> AllSpecified(Slots(WithDefaultsFrom(c, defaults)))
  {
  }
}

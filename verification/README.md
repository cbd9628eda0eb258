# Custom theme playground: widget geometry and palette algebra in Dafny

This project models the logic of a small Android design-system demo: its hand-drawn
widgets (a lipped button, a segmented choice button, an animated progress bar), its
custom press/hover/focus indication, its layered colour palettes, and the demo
screen's progress stepping. Every operation is a pure, total Dafny function over
immutable values, except the demo screen's repeated click, which is a method with a loop. Colours are `Unspecified | Argb(bv32)`. Lengths are `real` pixels,
with density conversion already applied.

Modules, one per source component:

- `ColorModel` (color_model.dfy) defines the colour type and Compose's `takeOrElse`.
  It also defines the slot-wise merge behind every `withDefaultsFrom`. The merge's laws
  are proved once, over slot sequences: identity, idempotence, associativity, left bias
  and totality. Each palette's `withDefaultsFrom` is specified as this merge on the
  palette's `Slots` view (its colours listed in declaration order). The same laws are
  then stated once more per palette.
- `Canvas` (canvas.dfy) holds the shared vocabulary: sizes, bounds, layout direction,
  draw commands, paddings and `Checked<T>`. `Checked<T>` models Kotlin's
  `check(...)`, which either lets the widget draw or fails with the check's message.
- `ProgressBar`, `Button` and `ChoiceButton` model the three widgets. Each draw pass
  is a function from the flags, metrics and size to the draw commands it issues.
- `Indication` models the overlay chosen by `MyIndication`.
- `ThemeColors` models the palette builders of `Colors.kt` and the blue theme.
- `DemoScreen` models the progress step in the demo screen's button handler.
  It proves that the step keeps the progress bar's range check satisfied.

Kotlin default and named arguments map onto Dafny default parameters (`:=`), and
positional calls stay positional. The model therefore reproduces two quirks of the code
as written:

- **Choice-button disabled foreground.** `ChoiceButtonColors.foregroundColor` returns
  `selectedForeground` when the button is disabled. The `disabledForeground` slot is
  never read (`DisabledForegroundUnused`). In both shipped palettes a disabled button's
  text is therefore the selected blue (`DisabledTextIsSelectedBlue`).
- **Positional arguments in `choiceButtonColors(darkTheme, ...)`.** This overload passes
  its six arguments positionally to a nine-slot factory. `lip` lands in `border`, and
  the three "disabled" arguments land in the three selected slots. The disabled slots
  always keep the theme's constants
  (`ChoiceButtonColorsFor`, `PositionalOverloadIgnoresDisabledArguments`).

Other observations the proofs make precise:

- At progress 0 the bar is still as wide as its corner radius, but it lies entirely
  outside the track, just before the start edge. It spans `[-r, 0]` left to right and
  `[W, W + r]` right to left. The track is clipped (ProgressBar.kt:56), so nothing of it
  shows (`EmptyProgressOutsideTrack`).
- The highlight's bottom edge lies on the bar's midline, so the highlight is not
  vertically centred. With the 3/20 radius it spans from one fifth of the bar's height
  down to the middle.
- The highlight's collapse guard compares the bar width with `2 * margin` but ignores
  the corner radius. So the highlight gets a negative width exactly when the bar is
  between `2 * margin` and `2 * margin + radius` wide (`HighlightWidthNegativeIff`).
  One example is progress 0 with radius 16 and margin 8 (`HighlightNegativeAtZeroProgress`).
- The indication's focus stroke width is the metric's raw dp number, used as pixels.

## Model

| member | source | states |
|---|---|---|
| ColorModel.TakeOrElse | app/src/main/kotlin/dev/sebastiano/customthemeplayground/widgets/Button.kt:161 | The result is specified iff either input is. A specified first colour always wins. The result is one of the two inputs. |
| ColorModel.MergeSlots | app/src/main/kotlin/dev/sebastiano/customthemeplayground/widgets/Button.kt:160-167 | The slot-wise merge keeps the length, and each slot is the own slot if specified, else the default's slot. |
| ColorModel.MergeKeepsSpecified | app/src/main/kotlin/dev/sebastiano/customthemeplayground/widgets/Button.kt:160-167 | A specified own slot is never overwritten by the defaults. |
| ColorModel.MergeUnspecifiedLeft | app/src/main/kotlin/dev/sebastiano/customthemeplayground/widgets/Button.kt:103-110 | An all-unspecified override layer yields exactly the defaults. |
| ColorModel.MergeUnspecifiedRight | app/src/main/kotlin/dev/sebastiano/customthemeplayground/widgets/Button.kt:160-167 | All-unspecified defaults leave the override layer unchanged. |
| ColorModel.MergeIdempotent | app/src/main/kotlin/dev/sebastiano/customthemeplayground/widgets/Button.kt:160-167 | Merging the same defaults twice equals merging once. |
| ColorModel.MergeAssociative | app/src/main/kotlin/dev/sebastiano/customthemeplayground/widgets/Button.kt:160-167 | Layered merges do not depend on grouping. |
| ColorModel.MergeTotal | app/src/main/kotlin/dev/sebastiano/customthemeplayground/widgets/ChoiceButton.kt:155-165 | Fully specified defaults make the merge fully specified, whatever the override layer. |
| ColorModel.MergeFullyOverridden | app/src/main/kotlin/dev/sebastiano/customthemeplayground/widgets/ChoiceButton.kt:155-165 | A fully specified override layer ignores the defaults. |
| Canvas.MirrorX | app/src/main/kotlin/dev/sebastiano/customthemeplayground/widgets/ProgressBar.kt:104 | Reflection about the track's centre swaps the distances to the two track ends and keeps the size. |
| ProgressBar.HighlightCornerRadius | app/src/main/kotlin/dev/sebastiano/customthemeplayground/widgets/ProgressBar.kt:74 | The highlight radius is 3/20 of the track height. |
| ProgressBar.ProgressBounds | app/src/main/kotlin/dev/sebastiano/customthemeplayground/widgets/ProgressBar.kt:88-112 | An empty track gives zero bounds. Otherwise the bar is track-high at y = 0 and its width exceeds progress·W by the radius. LTR: it starts at −r and its right edge is progress·W. RTL: it starts at (1−p)·W and its right edge is W + r. |
| ProgressBar.HighlightBounds | app/src/main/kotlin/dev/sebastiano/customthemeplayground/widgets/ProgressBar.kt:114-142 | The highlight collapses to zero bounds when the bar is empty or narrower than 2·margin. Otherwise it starts margin + r after the bar's start and ends margin before the bar's end. Its height is 2·hr and its bottom edge is the bar's midline. |
| ProgressBar.WithDefaultsFrom | app/src/main/kotlin/dev/sebastiano/customthemeplayground/widgets/ProgressBar.kt:179-183 | The slots of the result are the slot-wise merge of own and default slots. |
| ProgressBar.DarkProgressBarColors | app/src/main/kotlin/dev/sebastiano/customthemeplayground/widgets/ProgressBar.kt:208-216 | The result is fully specified and equals the overrides merged over the dark constants (bar 0xFF99E439, highlight 0xFFADEA61, track 0xFF38474E). |
| ProgressBar.LightProgressBarColors | app/src/main/kotlin/dev/sebastiano/customthemeplayground/widgets/ProgressBar.kt:218-226 | The result is fully specified and equals the overrides merged over the light constants (0xFF60E509, 0xFF80EB3A, 0xFFE5E5E5). |
| ProgressBar.ProgressBarColorsFor | app/src/main/kotlin/dev/sebastiano/customthemeplayground/widgets/ProgressBar.kt:186-195 | The theme flag selects the dark or light constants. The arguments named background, foreground and lip land in bar, highlight and track. |
| ProgressBar.ProgressBarColorsForSystem | app/src/main/kotlin/dev/sebastiano/customthemeplayground/widgets/ProgressBar.kt:197-206 | The system-theme overload agrees with the flag overload, and each argument is merged over its own slot. |
| ProgressBar.DrawProgressBar | app/src/main/kotlin/dev/sebastiano/customthemeplayground/widgets/ProgressBar.kt:39-86 | The draw fails with the range message iff progress is outside [0, 1]. Otherwise it draws, in order: the track over the full area, the bar at the animated progress, and the highlight in its colour with a radius of 3/20 of the height. |
| ProgressBar.EmptyProgressOutsideTrack | app/src/main/kotlin/dev/sebastiano/customthemeplayground/widgets/ProgressBar.kt:56-109 | On a non-empty track, progress 0 still gives a bar as wide as the corner radius, but it lies outside the clipped track: it ends at x = 0 left to right and starts at x = W right to left. |
| ProgressBar.FullProgressReachesEnd | app/src/main/kotlin/dev/sebastiano/customthemeplayground/widgets/ProgressBar.kt:101-109 | At progress 1 the LTR bar's right edge is the track's right edge. |
| ProgressBar.RtlMirrorsLtr | app/src/main/kotlin/dev/sebastiano/customthemeplayground/widgets/ProgressBar.kt:103-105 | The RTL bar is the LTR bar mirrored about W/2. |
| ProgressBar.WidthMonotonic | app/src/main/kotlin/dev/sebastiano/customthemeplayground/widgets/ProgressBar.kt:105 | The bar width is non-decreasing in progress, for every direction and track. |
| ProgressBar.HighlightBandInsideBar | app/src/main/kotlin/dev/sebastiano/customthemeplayground/widgets/ProgressBar.kt:129-140 | With hr = 3H/20 the highlight's top is one fifth of the way down the bar. It lies strictly inside the bar vertically, and its centre is not the bar's centre. |
| ProgressBar.HighlightWithinBarHorizontally | app/src/main/kotlin/dev/sebastiano/customthemeplayground/widgets/ProgressBar.kt:133-139 | With non-negative margin and radius, the highlight starts no earlier than the bar and ends no later. |
| ProgressBar.HighlightWidthNegativeIff | app/src/main/kotlin/dev/sebastiano/customthemeplayground/widgets/ProgressBar.kt:121-138 | On a non-empty bar the highlight width is negative iff 2·margin ≤ barWidth < 2·margin + r. |
| ProgressBar.HighlightNegativeAtZeroProgress | app/src/main/kotlin/dev/sebastiano/customthemeplayground/widgets/ProgressBar.kt:101-138 | Example: progress 0, track 200×16, r = 16, margin = 8 gives the bar (−16, 0, 16, 16) and a highlight of width −16. |
| ProgressBar.LtrHighlightEnd | app/src/main/kotlin/dev/sebastiano/customthemeplayground/widgets/ProgressBar.kt:101-139 | LTR, when the highlight is drawn it starts at x = margin and ends at progress·W − margin. |
| ProgressBar.WorkedExample | app/src/main/kotlin/dev/sebastiano/customthemeplayground/widgets/ProgressBar.kt:101-109 | Progress 0.5 on a 200×16 track with r = 16 gives the bar (−16, 0, 116, 16). |
| ProgressBar.WithDefaultsIdempotent | app/src/main/kotlin/dev/sebastiano/customthemeplayground/widgets/ProgressBar.kt:179-183 | Merging the same defaults again changes nothing. |
| ProgressBar.WithDefaultsLeftBiasedAndTotal | app/src/main/kotlin/dev/sebastiano/customthemeplayground/widgets/ProgressBar.kt:179-183 | Specified own slots survive. Fully specified defaults give a fully specified result. |
| Button.BackgroundColor | app/src/main/kotlin/dev/sebastiano/customthemeplayground/widgets/Button.kt:122-124 | Enabled picks background; disabled picks disabledBackground. |
| Button.ForegroundColor | app/src/main/kotlin/dev/sebastiano/customthemeplayground/widgets/Button.kt:126-128 | Enabled picks foreground; disabled picks disabledForeground. |
| Button.LipColor | app/src/main/kotlin/dev/sebastiano/customthemeplayground/widgets/Button.kt:130-132 | Enabled picks lip; disabled picks disabledLip. |
| Button.Equals | app/src/main/kotlin/dev/sebastiano/customthemeplayground/widgets/Button.kt:134-148 | Slot-wise equality over the six colours holds iff the palettes are equal, iff their slot sequences are equal. |
| Button.WithDefaultsFrom | app/src/main/kotlin/dev/sebastiano/customthemeplayground/widgets/Button.kt:160-167 | The slots of the result are the slot-wise merge of own and default slots. |
| Button.DarkButtonColors | app/src/main/kotlin/dev/sebastiano/customthemeplayground/widgets/Button.kt:198-212 | Each slot is the caller's colour if specified, else the dark constant (background 0xFF99E439, ...). |
| Button.LightButtonColors | app/src/main/kotlin/dev/sebastiano/customthemeplayground/widgets/Button.kt:214-228 | Each slot is the caller's colour if specified, else the light constant (background 0xFF60E509, foreground white, ...). |
| Button.ButtonColorsFor | app/src/main/kotlin/dev/sebastiano/customthemeplayground/widgets/Button.kt:170-182 | The flag selects dark or light. The result is fully specified and is the arguments merged over that theme's constants. |
| Button.ButtonColorsForSystem | app/src/main/kotlin/dev/sebastiano/customthemeplayground/widgets/Button.kt:184-196 | The system-theme overload agrees with the flag overload. |
| Button.ButtonPadding | app/src/main/kotlin/dev/sebastiano/customthemeplayground/widgets/Button.kt:56-58 | Released: top = lipSizePressed, bottom = lipSize. Pressed: the two swap. The sum is always lipSize + lipSizePressed. |
| Button.LipBounds | app/src/main/kotlin/dev/sebastiano/customthemeplayground/widgets/Button.kt:72-78 | The lip spans the full width from y = lipSize to the bottom. |
| Button.DrawButton | app/src/main/kotlin/dev/sebastiano/customthemeplayground/widgets/Button.kt:41-101 | The caller's colours are merged over the theme's button palette. The lip is drawn behind in the state's lip colour. The face is filled in the state's background colour between the paddings, and the content foreground is the state's foreground. |
| Button.UnspecifiedIsIdentity | app/src/main/kotlin/dev/sebastiano/customthemeplayground/widgets/Button.kt:103-110 | unspecifiedButtonColors merged over any defaults yields those defaults. |
| Button.WithDefaultsIdempotent | app/src/main/kotlin/dev/sebastiano/customthemeplayground/widgets/Button.kt:160-167 | x.wdf(d).wdf(d) == x.wdf(d). |
| Button.WithDefaultsAssociative | app/src/main/kotlin/dev/sebastiano/customthemeplayground/widgets/Button.kt:160-167 | (a.wdf(b)).wdf(c) == a.wdf(b.wdf(c)). |
| Button.WithDefaultsLeftBiasedAndTotal | app/src/main/kotlin/dev/sebastiano/customthemeplayground/widgets/Button.kt:160-167 | Specified own slots are never overwritten. Fully specified defaults give a fully specified result. |
| Button.ResolutionCommutesWithMerge | app/src/main/kotlin/dev/sebastiano/customthemeplayground/widgets/Button.kt:122-132 | The merged palette's resolved colour is the caller's resolved colour, else the theme's. |
| Button.FactoryIdempotent | app/src/main/kotlin/dev/sebastiano/customthemeplayground/widgets/Button.kt:170-182 | Feeding a factory result back through the same factory changes nothing. |
| Button.FactoryDefaults | app/src/main/kotlin/dev/sebastiano/customthemeplayground/widgets/Button.kt:198-228 | With no overrides the factories yield exactly the hard-coded palettes. |
| Button.PressShiftsFace | app/src/main/kotlin/dev/sebastiano/customthemeplayground/widgets/Button.kt:56-81 | Pressing moves the face down by lipSize − lipSizePressed and keeps its height. |
| Button.VisibleLipMatchesState | app/src/main/kotlin/dev/sebastiano/customthemeplayground/widgets/Button.kt:56-81 | The lip visible below the face equals the state's lip size, and the lip rectangle does not depend on the press. |
| ChoiceButton.StateOf | app/src/main/kotlin/dev/sebastiano/customthemeplayground/widgets/ChoiceButton.kt:132-137 | Disabled iff not enabled; selected iff enabled and selected. |
| ChoiceButton.BackgroundColor | app/src/main/kotlin/dev/sebastiano/customthemeplayground/widgets/ChoiceButton.kt:131-137 | The result is the background slot of the precedence state (disabled > selected > normal). |
| ChoiceButton.ForegroundColor | app/src/main/kotlin/dev/sebastiano/customthemeplayground/widgets/ChoiceButton.kt:139-145 | The result is selectedForeground when disabled or selected, and foreground otherwise. |
| ChoiceButton.BorderColor | app/src/main/kotlin/dev/sebastiano/customthemeplayground/widgets/ChoiceButton.kt:147-153 | The result is the border slot of the precedence state. |
| ChoiceButton.Equals | app/src/main/kotlin/dev/sebastiano/customthemeplayground/widgets/ChoiceButton.kt:167-184 | Slot-wise equality over nine colours holds iff the palettes are equal. |
| ChoiceButton.WithDefaultsFrom | app/src/main/kotlin/dev/sebastiano/customthemeplayground/widgets/ChoiceButton.kt:155-165 | The slots of the result are the slot-wise merge over all nine slots. |
| ChoiceButton.DarkChoiceButtonColors | app/src/main/kotlin/dev/sebastiano/customthemeplayground/widgets/ChoiceButton.kt:251-271 | Each slot is the caller's colour if specified, else the dark constant (background 0xFF131F22, ...). |
| ChoiceButton.LightChoiceButtonColors | app/src/main/kotlin/dev/sebastiano/customthemeplayground/widgets/ChoiceButton.kt:273-293 | Each slot is the caller's colour if specified, else the light constant (background 0xFFFFFFFD, ...). |
| ChoiceButton.ChoiceButtonColorsFor | app/src/main/kotlin/dev/sebastiano/customthemeplayground/widgets/ChoiceButton.kt:200-212 | Positional mismatch: lip goes to border, and disabledBackground/Foreground/Lip go to the selected slots. The disabled slots are always the theme's constants. |
| ChoiceButton.ChoiceButtonColorsForSystem | app/src/main/kotlin/dev/sebastiano/customthemeplayground/widgets/ChoiceButton.kt:214-249 | Each of the nine arguments is merged over its own slot of the theme's constants, and the result is fully specified. |
| ChoiceButton.LipPadding | app/src/main/kotlin/dev/sebastiano/customthemeplayground/widgets/ChoiceButton.kt:68-102 | Pressed: top = lip − border and bottom = 0. Released: the two swap. The sum is always lip − border. |
| ChoiceButton.BackgroundBounds | app/src/main/kotlin/dev/sebastiano/customthemeplayground/widgets/ChoiceButton.kt:94-98 | The face starts at (b, b), ends b before the right edge, and ends max(drawnLip, b) above the bottom. |
| ChoiceButton.DrawChoiceButton | app/src/main/kotlin/dev/sebastiano/customthemeplayground/widgets/ChoiceButton.kt:50-116 | The draw fails with the lip message iff lip < border. Otherwise: the border rect fills the area, the face is drawn with inner radius r − b, the content is inset by b on the left and right and by b plus the lip padding at the top and bottom, and the foreground is resolved. |
| ChoiceButton.DisabledOverridesSelected | app/src/main/kotlin/dev/sebastiano/customthemeplayground/widgets/ChoiceButton.kt:131-153 | Disabled beats selected for background and border; selected beats normal. |
| ChoiceButton.DisabledForegroundUnused | app/src/main/kotlin/dev/sebastiano/customthemeplayground/widgets/ChoiceButton.kt:139-145 | Changing disabledForeground changes no resolved foreground. |
| ChoiceButton.ForegroundFollowsPrecedenceIff | app/src/main/kotlin/dev/sebastiano/customthemeplayground/widgets/ChoiceButton.kt:139-145 | The foreground follows disabled > selected > normal iff enabled or selectedForeground == disabledForeground. |
| ChoiceButton.DisabledTextIsSelectedBlue | app/src/main/kotlin/dev/sebastiano/customthemeplayground/widgets/ChoiceButton.kt:262-293 | In both shipped palettes a disabled button's foreground is 0xFF1CB0F6, not the disabled grey. |
| ChoiceButton.PositionalOverloadIgnoresDisabledArguments | app/src/main/kotlin/dev/sebastiano/customthemeplayground/widgets/ChoiceButton.kt:200-212 | Caller "disabled" colours never reach the disabled state. A specified disabledBackground shows up as the selected background. |
| ChoiceButton.WithDefaultsIdempotent | app/src/main/kotlin/dev/sebastiano/customthemeplayground/widgets/ChoiceButton.kt:155-165 | Merging the same defaults again changes nothing. |
| ChoiceButton.WithDefaultsLeftBiasedAndTotal | app/src/main/kotlin/dev/sebastiano/customthemeplayground/widgets/ChoiceButton.kt:155-165 | Specified own slots survive. Fully specified defaults give a fully specified result. |
| ChoiceButton.ResolutionCommutesWithMerge | app/src/main/kotlin/dev/sebastiano/customthemeplayground/widgets/ChoiceButton.kt:131-165 | For every role and state, resolving the merged palette is the caller's slot, else the default's. |
| ChoiceButton.PressMovesContent | app/src/main/kotlin/dev/sebastiano/customthemeplayground/widgets/ChoiceButton.kt:68-102 | Pressing moves the content down by lip − border, keeps the total inset, and draws no lip. |
| ChoiceButton.FaceMeetsContentSides | app/src/main/kotlin/dev/sebastiano/customthemeplayground/widgets/ChoiceButton.kt:94-101 | When the check passes, the face's left and right edges are the content's, so the content sits inside the border frame. |
| ChoiceButton.FaceMeetsContentBottom | app/src/main/kotlin/dev/sebastiano/customthemeplayground/widgets/ChoiceButton.kt:94-102 | When the check passes and b ≥ 0, the face's bottom edge is the content's bottom edge. The face is H − 2b tall when pressed and H − b − lip when released. |
| Indication.FirstActive | app/src/main/kotlin/dev/sebastiano/customthemeplayground/ui/theme/MyIndication.kt:30-36 | At most one command is produced. None are produced iff no candidate is active; otherwise the command is the first active candidate's. |
| Indication.DrawIndication | app/src/main/kotlin/dev/sebastiano/customthemeplayground/ui/theme/MyIndication.kt:28-37 | The content is drawn first, and at most one overlay follows. There is none iff all flags are false. Every overlay covers the full area: a pressed fill, else a hovered fill, else a focused stroke of the given width. |
| Indication.DrawIndicationIsFirstActive | app/src/main/kotlin/dev/sebastiano/customthemeplayground/ui/theme/MyIndication.kt:28-37 | The draw equals the content followed by the first active candidate in pressed > hovered > focused order. |
| Indication.PressedMasksHoverAndFocus | app/src/main/kotlin/dev/sebastiano/customthemeplayground/ui/theme/MyIndication.kt:30-31 | While pressed, the hovered and focused flags do not affect the drawing. |
| Indication.HoverMasksFocus | app/src/main/kotlin/dev/sebastiano/customthemeplayground/ui/theme/MyIndication.kt:32-33 | While hovered, the focused flag does not affect the drawing. |
| ThemeColors.DarkColors | app/src/main/kotlin/dev/sebastiano/customthemeplayground/ui/theme/Colors.kt:45-59 | The base colours are the arguments merged over 0xFF152021 / 0xFFF2F7FA / 0xFF55C9F4 and are fully specified. Indication, button and progress-bar palettes pass through unchanged. |
| ThemeColors.LightColors | app/src/main/kotlin/dev/sebastiano/customthemeplayground/ui/theme/Colors.kt:61-75 | The same, with fallbacks 0xFFFFFFFF / 0xFF4B4B4B / 0xFF58CC02. |
| ThemeColors.DefaultPalette | app/src/main/kotlin/dev/sebastiano/customthemeplayground/ui/theme/Colors.kt:79-81 | The default palettes carry the theme's base constants and the theme's default button and progress-bar palettes. |
| ThemeColors.BlueThemeColors | app/src/main/kotlin/dev/sebastiano/customthemeplayground/ui/theme/Colors.kt:27-43 | The button background is 0xFF2ABAF0 (dark) or 0xFF55C9F4 (light), and the lip is 0xFF24A3D3. |
| ThemeColors.BlueThemeOnlyChangesButton | app/src/main/kotlin/dev/sebastiano/customthemeplayground/ui/theme/Colors.kt:27-43 | Apart from the button, the blue theme equals the default palette of the same theme. |
| ThemeColors.BlueButtonKeepsOtherSlots | app/src/main/kotlin/dev/sebastiano/customthemeplayground/ui/theme/Colors.kt:27-43 | The blue button is the theme's default button with only background and lip replaced. |
| ThemeColors.BlueThemeButtonAppearance | app/src/main/kotlin/dev/sebastiano/customthemeplayground/ui/theme/Colors.kt:27-43 | An enabled Button with unspecified colours under the blue theme shows the blue face and the blue lip. |
| DemoScreen.NextProgress | app/src/main/kotlin/dev/sebastiano/customthemeplayground/MainActivity.kt:100 | The step keeps [0, 1]. Below 1 it strictly increases by at most 0.1 and reaches 1 iff p ≥ 0.9. At or above 1 it resets to 0. |
| DemoScreen.ClicksStayInRange | app/src/main/kotlin/dev/sebastiano/customthemeplayground/MainActivity.kt:100 | Any number of clicks from a valid progress stays in [0, 1]. |
| DemoScreen.ClicksFromZero | app/src/main/kotlin/dev/sebastiano/customthemeplayground/MainActivity.kt:100 | From 0, after k ≤ 10 clicks the progress is exactly k/10. |
| DemoScreen.FullAfterTenEmptyAfterEleven | app/src/main/kotlin/dev/sebastiano/customthemeplayground/MainActivity.kt:100 | Ten clicks from 0 reach 1, and the eleventh resets to 0. |
| DemoScreen.ClicksCompose | app/src/main/kotlin/dev/sebastiano/customthemeplayground/MainActivity.kt:100 | a clicks followed by b clicks equal a + b clicks. |
| DemoScreen.ClicksPeriodic | app/src/main/kotlin/dev/sebastiano/customthemeplayground/MainActivity.kt:100 | From 0 the progress sequence has period 11. |
| DemoScreen.Click | app/src/main/kotlin/dev/sebastiano/customthemeplayground/MainActivity.kt:99-102 | Running n clicks yields the n-fold step and stays in range from a valid start. |
| DemoScreen.ScreenNeverFailsCheck | app/src/main/kotlin/dev/sebastiano/customthemeplayground/MainActivity.kt:100 | The progress bar fed by the demo screen never fails its range check. |

## Left out

- Compose runtime machinery is not modelled: `remember`, `State`, `derivedStateOf`, `rememberUpdatedState`, `mutableStateOf`, composition locals and the theme accessors. Their values become plain parameters; for example, the theme's button palette is passed to `Button.DrawButton`.
- Actual rendering is not modelled. Clipping, `progressSemantics`, `defaultMinSize`, and the `selectable`/`clickable` modifiers are out; only the numbers and colours handed to the draw calls are modelled.
- The caller-supplied `contentPadding` of both buttons is omitted: it is an inset the caller chooses, added after the modelled paddings.
- `Button.DrawButton`: the face bounds assume the content row fills the padded box, as `propagateMinConstraints` makes it do at minimum size. A wider row, laid out by the toolkit, is not modelled.
- `animateFloatAsState` is an external animator. The animated progress is an input to `ProgressBar.DrawProgressBar`.
- IEEE single-precision arithmetic and dp-to-px conversion are out: lengths are exact reals in pixels. In particular, the demo screen's 0.1f steps are exact tenths here.
- The `Log.e` calls are side effects with no bearing on the results.
- The metric values (lip sizes, border size, corner radii, highlight margin) are not defined in Metrics.kt, so they are parameters.
- `indicationColors(darkTheme)` is not part of this model. Its result is passed to the palette builders as a parameter.
- The composable `blueThemeColors()` only reads `isSystemInDarkTheme()` and delegates. The `darkTheme` overload it calls is modelled.
- `MyIndication.rememberUpdatedInstance` only collects the interaction flags and reads theme values. Those values are the parameters of `Indication.DrawIndication`.
- `ChoiceButton` reads `MyTheme.colors.choiceButton`, which the `Colors` class does not declare. The choice-button palette is therefore a parameter of `ChoiceButton.DrawChoiceButton`.
- Theme selection (`MyDesignSystemTheme`), fonts, typography, `ImageButton`, the activity's lifecycle and system-bar code, `hashCode` implementations, and all previews are out.

/**
 * The app's custom indication: after the content, at most one overlay over the whole
 * component, chosen by precedence pressed > hovered > focused.
 */
module Indication {
  import opened ColorModel
  import opened Canvas

  /** The theme's indication palette. */
  datatype IndicationColors = IndicationColors(pressed: Color, hovered: Color, focused: Color)

  /** The interaction source's three observed flags at draw time. */
  datatype Interaction = Interaction(pressed: bool, hovered: bool, focused: bool)

  /** An overlay candidate: drawn when its flag is set and no earlier candidate's was. */
  datatype Candidate = Candidate(active: bool, op: DrawOp)

  /** Reference reading of the precedence: the first active candidate's drawing, if any. */
  function FirstActive(cs: seq<Candidate>): (ops: seq<DrawOp>)
    ensures |ops| <= 1
    ensures |ops| == 0 <==> forall k :: 0 <= k < |cs| ==> !cs[k].active
    ensures |ops| == 1 ==>
      exists k :: 0 <= k < |cs| && cs[k].active && ops[0] == cs[k].op && (forall j :: 0 <= j < k ==> !cs[j].active)
  {
    if |cs| == 0 then []
    else if cs[0].active then [cs[0].op]
    else FirstActive(cs[1..])
  }

  /** The candidates in precedence order. */
  function Candidates(i: Interaction, colors: IndicationColors, focusedStrokeWidth: real, size: Size): seq<Candidate> {
    [Candidate(i.pressed, FillRect(colors.pressed, FullBounds(size))),
     Candidate(i.hovered, FillRect(colors.hovered, FullBounds(size))),
     Candidate(i.focused, StrokeRect(colors.focused, FullBounds(size), focusedStrokeWidth))]
  }

  /**
   * `MyIndicationInstance.drawIndication`: the content first, then the pressed fill, else
   * the hovered fill, else the focused outline. The stroke width is the metric's raw
   * dp number, used as pixels without conversion.
   */
  function DrawIndication(i: Interaction, colors: IndicationColors, focusedStrokeWidth: real, size: Size): (ops: seq<DrawOp>)
    ensures 1 <= |ops| <= 2 && ops[0] == DrawContent
    ensures |ops| == 1 <==> !i.pressed && !i.hovered && !i.focused
    ensures forall k :: 1 <= k < |ops| ==> ops[k] != DrawContent && ops[k].bounds == FullBounds(size)
    ensures i.pressed ==> ops[1] == FillRect(colors.pressed, FullBounds(size))
    ensures !i.pressed && i.hovered ==> ops[1] == FillRect(colors.hovered, FullBounds(size))
    ensures !i.pressed && !i.hovered && i.focused ==> ops[1] == StrokeRect(colors.focused, FullBounds(size), focusedStrokeWidth)
  {
    [DrawContent] +
    if i.pressed then [FillRect(colors.pressed, FullBounds(size))]
    else if i.hovered then [FillRect(colors.hovered, FullBounds(size))]
    else if i.focused then [StrokeRect(colors.focused, FullBounds(size), focusedStrokeWidth)]
    else []
  }

  /** The if-chain is exactly "first active candidate in precedence order". */
  lemma {:induction false} DrawIndicationIsFirstActive(i: Interaction, colors: IndicationColors, w: real, size: Size)
    ensures DrawIndication(i, colors, w, size) == [DrawContent] + FirstActive(Candidates(i, colors, w, size))
  {
    var cs := Candidates(i, colors, w, size);
    assert cs[1..] == [cs[1], cs[2]];
    assert cs[2..] == [cs[2]];
    assert cs[1..][1..] == cs[2..];
    assert cs[2..][1..] == [];
  }

  /** A higher-priority flag masks every lower one. */
  lemma PressedMasksHoverAndFocus(i: Interaction, colors: IndicationColors, w: real, size: Size, h: bool, f: bool)
    requires i.pressed
    ensures DrawIndication(i.(hovered := h, focused := f), colors, w, size) == DrawIndication(i, colors, w, size)
  {
  }

  lemma HoverMasksFocus(i: Interaction, colors: IndicationColors, w: real, size: Size, f: bool)
    requires i.hovered
    ensures DrawIndication(i.(focused := f), colors, w, size) == DrawIndication(i, colors, w, size)
  {
  }
}

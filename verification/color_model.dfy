/**
 * Colours as the design system sees them: either a concrete 32-bit ARGB value or the
 * "unspecified" sentinel, which every palette uses to mean "fall back to a default".
 * The palette override algebra (`takeOrElse` applied slot by slot) is defined here
 * once, over sequences of slots, and every palette record lifts it through its slots.
 */
module ColorModel {

  datatype Color = Unspecified | Argb(argb: bv32)

  /** Compose's `Color.White`. */
  const White: Color := Argb(0xFFFF_FFFF)

  /** `c.takeOrElse { d }`: keep `c` when it is specified, otherwise use `d`. */
  function TakeOrElse(c: Color, d: Color): (r: Color)
    ensures r.Argb? <==> c.Argb? || d.Argb?
    ensures c.Argb? ==> r == c
    ensures r == c || r == d
  {
    if c.Argb? then c else d
  }

  predicate AllSpecified(s: seq<Color>) {
    forall i :: 0 <= i < |s| ==> s[i].Argb?
  }

  predicate AllUnspecified(s: seq<Color>) {
    forall i :: 0 <= i < |s| ==> s[i] == Unspecified
  }

  /** Slot-wise `takeOrElse`: the override layer `own` on top of `defaults`. */
  function MergeSlots(own: seq<Color>, defaults: seq<Color>): (r: seq<Color>)
    requires |own| == |defaults|
    ensures |r| == |own|
    ensures forall i :: 0 <= i < |r| ==> r[i] == TakeOrElse(own[i], defaults[i])
  {
    if |own| == 0 then []
    else [TakeOrElse(own[0], defaults[0])] + MergeSlots(own[1..], defaults[1..])
  }

  /** A specified slot of the override layer is never overwritten. */
  lemma MergeKeepsSpecified(own: seq<Color>, defaults: seq<Color>, i: int)
    requires |own| == |defaults| && 0 <= i < |own|
    requires own[i].Argb?
    ensures MergeSlots(own, defaults)[i] == own[i]
  {
  }

  /** An all-unspecified override layer is a left identity. */
  lemma MergeUnspecifiedLeft(own: seq<Color>, defaults: seq<Color>)
    requires |own| == |defaults| && AllUnspecified(own)
    ensures MergeSlots(own, defaults) == defaults
  {
  }

  /** An all-unspecified default layer is a right identity. */
  lemma MergeUnspecifiedRight(own: seq<Color>, defaults: seq<Color>)
    requires |own| == |defaults| && AllUnspecified(defaults)
    ensures MergeSlots(own, defaults) == own
  {
  }

  /** Merging the same defaults twice changes nothing. */
  lemma MergeIdempotent(own: seq<Color>, defaults: seq<Color>)
    requires |own| == |defaults|
    ensures MergeSlots(MergeSlots(own, defaults), defaults) == MergeSlots(own, defaults)
  {
  }

  /** Layers can be grouped either way: the merge is associative. */
  lemma MergeAssociative(a: seq<Color>, b: seq<Color>, c: seq<Color>)
    requires |a| == |b| == |c|
    ensures MergeSlots(MergeSlots(a, b), c) == MergeSlots(a, MergeSlots(b, c))
  {
  }

  /** Fully specified defaults give a fully specified result, whatever the override layer. */
  lemma MergeTotal(own: seq<Color>, defaults: seq<Color>)
    requires |own| == |defaults| && AllSpecified(defaults)
    ensures AllSpecified(MergeSlots(own, defaults))
  {
  }

  /** A fully specified override layer ignores the defaults entirely. */
  lemma MergeFullyOverridden(own: seq<Color>, defaults: seq<Color>)
    requires |own| == |defaults| && AllSpecified(own)
    ensures MergeSlots(own, defaults) == own
  {
  }
}

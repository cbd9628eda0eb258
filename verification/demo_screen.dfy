/**
 * The demo screen's button handler: each click advances the progress by a tenth,
 * clamped at 1, and a click at (or past) 1 starts over from 0.
 */
module DemoScreen {
  import opened ProgressBar
  import opened Canvas

  /** The progress the click handler stores: `if (p < 1) (p + 0.1).coerceAtMost(1) else 0`. */
  function NextProgress(p: real): (q: real)
    ensures InProgressRange(p) ==> InProgressRange(q)
    ensures p < 1.0 ==> p < q <= 1.0 && q - p <= 0.1
    ensures p < 1.0 ==> (q == 1.0 <==> p >= 0.9)
    ensures p >= 1.0 ==> q == 0.0
  {
    if p < 1.0 then
      var stepped := p + 0.1;
      if stepped <= 1.0 then stepped else 1.0
    else 0.0
  }

  /** The progress after `n` clicks starting from `p`. */
  function ProgressAfter(p: real, n: nat): real {
    if n == 0 then p else NextProgress(ProgressAfter(p, n - 1))
  }

  /** Clicks started from a valid progress never leave the progress bar's range. */
  lemma {:induction false} ClicksStayInRange(p: real, n: nat)
    requires InProgressRange(p)
    ensures InProgressRange(ProgressAfter(p, n))
  {
    if n > 0 {
      ClicksStayInRange(p, n - 1);
    }
  }

  /** From 0, the k-th click (k up to 10) shows exactly k tenths. */
  lemma {:induction false} ClicksFromZero(k: nat)
    requires k <= 10
    ensures ProgressAfter(0.0, k) == k as real / 10.0
  {
    if k > 0 {
      ClicksFromZero(k - 1);
    }
  }

  /** The tenth click fills the bar and the eleventh empties it. */
  lemma FullAfterTenEmptyAfterEleven()
    ensures ProgressAfter(0.0, 10) == 1.0
    ensures ProgressAfter(0.0, 11) == 0.0
  {
  }

  /** Clicks compose: `a` clicks then `b` clicks are `a + b` clicks. */
  lemma {:induction false} ClicksCompose(p: real, a: nat, b: nat)
    ensures ProgressAfter(ProgressAfter(p, a), b) == ProgressAfter(p, a + b)
  {
    if b > 0 {
      ClicksCompose(p, a, b - 1);
    }
  }

  /** The screen cycles through its states with period 11. */
  lemma {:induction false} ClicksPeriodic(n: nat)
    ensures ProgressAfter(0.0, n + 11) == ProgressAfter(0.0, n)
  {
    FullAfterTenEmptyAfterEleven();
    ClicksCompose(0.0, 11, n);
  }

  /**
   * Runs `n` clicks from `p0`, as the screen would: the result is the n-fold step and,
   * starting from a valid progress, it still passes the progress bar's range check.
   */
  method Click(p0: real, n: nat) returns (p: real)
    ensures p == ProgressAfter(p0, n)
    ensures InProgressRange(p0) ==> InProgressRange(p)
  {
    p := p0;
    var i := 0;
    while i < n
      invariant 0 <= i <= n
      invariant p == ProgressAfter(p0, i)
      invariant InProgressRange(p0) ==> InProgressRange(p)
    {
      p := NextProgress(p);
      i := i + 1;
    }
  }

  /** Whatever the number of clicks, the screen's progress bar never fails its check. */
  lemma {:induction false} ScreenNeverFailsCheck(n: nat, animated: real, track: Size, dir: LayoutDirection,
                                                 colors: ProgressBarColors, cornerRadius: real, margin: real)
    ensures DrawProgressBar(ProgressAfter(0.0, n), animated, track, dir, colors, cornerRadius, margin).Drawn?
  {
    ClicksStayInRange(0.0, n);
  }
}

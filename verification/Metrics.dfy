/** The risk metric of the back-tester that needs an argument: the one-pass maximum
    drawdown, proved against its quadratic definition. */
module Metrics {

  ghost predicate Positive(nav: seq<real>) {
    forall i | 0 <= i < |nav| :: nav[i] > 0.0
  }

  /** The relative loss of a position opened on day i and valued on day j: what it adds to the
      position, as a share of it, makes the value on day j. */
  function Loss(nav: seq<real>, i: nat, j: nat): (loss: real)
    requires i < |nav| && j < |nav| && nav[i] > 0.0
    ensures nav[i] + loss * nav[i] == nav[j]
  {
    nav[j] / nav[i] - 1.0
  }

  /** `p` is the first of the days before day n with the largest value. */
  ghost predicate FirstPeak(nav: seq<real>, n: nat, p: nat)
  {
    && p < n <= |nav|
    && (forall i | 0 <= i < n :: nav[i] <= nav[p])
    && (forall i | 0 <= i < p :: nav[i] < nav[p])
  }

  /** Every loss between two days in order that ends before day n is at least `bound`. */
  ghost predicate NoLossBelow(nav: seq<real>, n: nat, bound: real)
    requires Positive(nav) && n <= |nav|
  {
    forall i, j {:trigger Loss(nav, i, j)} | 0 <= i <= j < n :: Loss(nav, i, j) >= bound
  }

  /** Every loss between two days in order that ends before day n is above `bound`. */
  ghost predicate AllLossesAbove(nav: seq<real>, n: nat, bound: real)
    requires Positive(nav) && n <= |nav|
  {
    forall i, j {:trigger Loss(nav, i, j)} | 0 <= i <= j < n :: Loss(nav, i, j) > bound
  }

  lemma DivideByLarger(value: real, small: real, large: real)
    requires value > 0.0 && 0.0 < small <= large
    ensures value / large <= value / small
  {
    assert value / large * large == value;
    assert value / small * small == value;
  }

  /** A position opened at the running peak loses at least as much as one opened on any
      other day so far. */
  lemma PeakLosesMost(nav: seq<real>, j: nat, p: nat)
    requires Positive(nav) && FirstPeak(nav, j + 1, p)
    ensures forall i {:trigger Loss(nav, i, j)} | 0 <= i <= j :: Loss(nav, p, j) <= Loss(nav, i, j)
  {
    forall i | 0 <= i <= j
      ensures Loss(nav, p, j) <= Loss(nav, i, j)
    {
      DivideByLarger(nav[j], nav[i], nav[p]);
    }
  }

  /** One more day: the worst loss so far becomes the smaller of itself and the loss from the
      running peak. */
  lemma ExtendByOneDay(nav: seq<real>, n: nat, p: nat, maxDd: real)
    requires Positive(nav) && n < |nav| && FirstPeak(nav, n + 1, p) && NoLossBelow(nav, n, maxDd)
    ensures NoLossBelow(nav, n + 1, if Loss(nav, p, n) < maxDd then Loss(nav, p, n) else maxDd)
    ensures Loss(nav, p, n) < maxDd ==> AllLossesAbove(nav, n, Loss(nav, p, n))
  {
    PeakLosesMost(nav, n, p);
  }

  lemma {:induction false} NoLossWithinADay(nav: seq<real>, i: nat)
    requires Positive(nav) && i < |nav|
    ensures Loss(nav, i, i) == 0.0
  {}

  /** `max_drawdown`: the worst loss between any two days in order, and the days it runs
      between. Fewer than two values give (0, 0, 0). */
  method MaxDrawdown(nav: seq<real>) returns (maxDd: real, start: nat, end: nat)
    requires Positive(nav)
    ensures |nav| < 2 ==> maxDd == 0.0 && start == 0 && end == 0
    // the loss reported is the one between the two days reported, in order
    ensures |nav| > 0 ==> start <= end < |nav| && maxDd == Loss(nav, start, end)
    // no two days in order lose more
    ensures NoLossBelow(nav, |nav|, maxDd)
    // the start is the first day of the running maximum, and the end the first day of the loss
    ensures |nav| > 0 ==> FirstPeak(nav, end + 1, start) && AllLossesAbove(nav, end, maxDd)
  {
    if nav != [] {
      NoLossWithinADay(nav, 0);
    }
    if |nav| < 2 {
      return 0.0, 0, 0;
    }
    var peak, peakIdx := nav[0], 0;
    maxDd, start, end := 0.0, 0, 0;
    for i := 0 to |nav|
      invariant 0 <= peakIdx < |nav| && peak == nav[peakIdx]
      invariant if i == 0 then peakIdx == 0 else FirstPeak(nav, i, peakIdx)
      invariant end == 0 || end < i
      invariant FirstPeak(nav, end + 1, start)
      invariant maxDd == Loss(nav, start, end)
      invariant NoLossBelow(nav, i, maxDd) && AllLossesAbove(nav, end, maxDd)
    {
      var val := nav[i];
      if val > peak {
        peak, peakIdx := val, i;
      }
      var dd := val / peak - 1.0;
      ExtendByOneDay(nav, i, peakIdx, maxDd);
      if dd < maxDd {
        maxDd, start, end := dd, peakIdx, i;
      }
    }
  }
}

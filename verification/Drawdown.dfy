/** backend/backtest/metrics.py: the deepest fall of an equity curve below its earlier peak. */
module Drawdown {
  import opened Prelude

  /** Equity after the first `i` results; the curve starts at zero. */
  function Equity(pnls: seq<real>, i: nat): real
    requires i <= |pnls|
  {
    Sum(pnls[..i])
  }

  /** `d` bounds every decline from an earlier point of the curve to a later one, and one decline reaches it. */
  ghost predicate IsWorstDecline(pnls: seq<real>, d: real) {
    && (forall i, j :: 0 <= i <= j <= |pnls| ==> Equity(pnls, i) - Equity(pnls, j) <= d)
    && (exists i, j :: 0 <= i <= j <= |pnls| && Equity(pnls, i) - Equity(pnls, j) == d)
  }

  lemma WorstDeclineIsUnique(pnls: seq<real>, d: real, e: real)
    requires IsWorstDecline(pnls, d) && IsWorstDecline(pnls, e)
    ensures d == e
  {
    var i, j :| 0 <= i <= j <= |pnls| && Equity(pnls, i) - Equity(pnls, j) == d;
    var k, l :| 0 <= k <= l <= |pnls| && Equity(pnls, k) - Equity(pnls, l) == e;
  }

  /** `d` is the worst decline among the first `n` results. */
  ghost predicate WorstUpTo(pnls: seq<real>, n: nat, d: real)
    requires n <= |pnls|
  {
    && (forall i, j :: 0 <= i <= j <= n ==> Equity(pnls, i) - Equity(pnls, j) <= d)
    && (exists i, j :: 0 <= i <= j <= n && Equity(pnls, i) - Equity(pnls, j) == d)
  }

  ghost predicate PeakUpTo(pnls: seq<real>, n: nat, peak: real)
    requires n <= |pnls|
  {
    && (forall i :: 0 <= i <= n ==> Equity(pnls, i) <= peak)
    && (exists i :: 0 <= i <= n && Equity(pnls, i) == peak)
  }

  lemma WorstStep(pnls: seq<real>, n: nat, d: real, peak: real)
    requires n < |pnls| && WorstUpTo(pnls, n, d) && PeakUpTo(pnls, n + 1, peak)
    ensures WorstUpTo(pnls, n + 1, Max(d, peak - Equity(pnls, n + 1)))
  {
    hide Equity;
    var i, j :| 0 <= i <= j <= n && Equity(pnls, i) - Equity(pnls, j) == d;
    var top :| 0 <= top <= n + 1 && Equity(pnls, top) == peak;
    var worst := Max(d, peak - Equity(pnls, n + 1));
    if worst == d {
      assert Equity(pnls, i) - Equity(pnls, j) == worst;
    } else {
      assert Equity(pnls, top) - Equity(pnls, n + 1) == worst;
    }
  }

  lemma PeakStep(pnls: seq<real>, n: nat, peak: real)
    requires n < |pnls| && PeakUpTo(pnls, n, peak)
    ensures PeakUpTo(pnls, n + 1, Max(peak, Equity(pnls, n + 1)))
  {
    hide Equity;
    var top :| 0 <= top <= n && Equity(pnls, top) == peak;
    assert Equity(pnls, n + 1) == Equity(pnls, n + 1);
  }

  method CalculateMaxDrawdown(pnls: seq<real>) returns (maxDrawdown: real)
    ensures IsWorstDecline(pnls, maxDrawdown)
    ensures maxDrawdown >= 0.0
  {
    hide Equity, PeakUpTo, WorstUpTo, IsWorstDecline;
    StartIsFlat(pnls);
    var equityCurve, peakEquity := 0.0, 0.0;
    maxDrawdown := 0.0;
    for n := 0 to |pnls|
      invariant equityCurve == Equity(pnls, n)
      invariant PeakUpTo(pnls, n, peakEquity)
      invariant WorstUpTo(pnls, n, maxDrawdown) && maxDrawdown >= 0.0
    {
      EquityStep(pnls, n);
      equityCurve := equityCurve + pnls[n];
      PeakStep(pnls, n, peakEquity);
      peakEquity := Max(peakEquity, equityCurve);
      WorstStep(pnls, n, maxDrawdown, peakEquity);
      maxDrawdown := Max(maxDrawdown, peakEquity - equityCurve);
    }
    WholeCurve(pnls, maxDrawdown);
  }

  lemma StartIsFlat(pnls: seq<real>)
    ensures Equity(pnls, 0) == 0.0
    ensures PeakUpTo(pnls, 0, 0.0) && WorstUpTo(pnls, 0, 0.0)
  {
  }

  lemma WholeCurve(pnls: seq<real>, d: real)
    requires WorstUpTo(pnls, |pnls|, d)
    ensures IsWorstDecline(pnls, d)
  {
    hide Equity;
  }

  lemma EquityStep(pnls: seq<real>, n: nat)
    requires n < |pnls|
    ensures Equity(pnls, n + 1) == Equity(pnls, n) + pnls[n]
  {
    assert pnls[..n + 1] == pnls[..n] + [pnls[n]];
    SumSnoc(pnls[..n], pnls[n]);
  }

  /** A contiguous stretch of trades never falls further than the whole run does. */
  lemma StretchFallsNoFurther(pnls: seq<real>, lo: nat, hi: nat, part: real, whole: real)
    requires lo <= hi <= |pnls|
    requires IsWorstDecline(pnls[lo..hi], part) && IsWorstDecline(pnls, whole)
    ensures part <= whole
  {
    var i, j :| 0 <= i <= j <= hi - lo && Equity(pnls[lo..hi], i) - Equity(pnls[lo..hi], j) == part;
    forall k | 0 <= k <= hi - lo
      ensures Equity(pnls, lo + k) == Equity(pnls, lo) + Equity(pnls[lo..hi], k)
    {
      assert pnls[..lo + k] == pnls[..lo] + pnls[lo..hi][..k];
      SumConcat(pnls[..lo], pnls[lo..hi][..k]);
    }
    assert Equity(pnls, lo + i) - Equity(pnls, lo + j) <= whole;
  }
}

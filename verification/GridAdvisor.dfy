/** backend/grid_engine/grid_advisor.py: a price range and a number of levels from recent volatility. */
module GridAdvisor {
  import opened Prelude
  import opened Grid

  datatype AdvisorCandle = AdvisorCandle(high: real, low: real, close: real)

  datatype AdvisorError = TooFewCandles | LowerBoundNotPositive | EmptyRange

  // ----- volatility -----

  /** The largest of the candle's span and the distances of its ends from the close before it. */
  function TrueRange(current: AdvisorCandle, previousClose: real): (r: real)
    ensures r >= 0.0
    ensures r >= current.high - current.low
    ensures -r <= current.high - previousClose <= r && -r <= current.low - previousClose <= r
    ensures r in {current.high - current.low, current.high - previousClose, previousClose - current.high,
                  current.low - previousClose, previousClose - current.low}
  {
    Max(current.high - current.low, Max(Abs(current.high - previousClose), Abs(current.low - previousClose)))
  }

  /** Sum of the true ranges of the candles lo .. hi (exclusive). */
  function RangeSum(candles: seq<AdvisorCandle>, lo: int, hi: int): (r: real)
    requires 1 <= lo <= hi <= |candles|
    ensures r >= 0.0
    decreases hi
  {
    if lo == hi then 0.0
    else RangeSum(candles, lo, hi - 1) + TrueRange(candles[hi - 1], candles[hi - 2].close)
  }

  function Atr(candles: seq<AdvisorCandle>, period: int): real
    requires 1 <= period < |candles|
  {
    RangeSum(candles, |candles| - period, |candles|) / period as real
  }

  lemma {:induction false} RangeSumIsSum(candles: seq<AdvisorCandle>, lo: int, n: nat)
    requires 1 <= lo && lo + n <= |candles|
    ensures RangeSum(candles, lo, lo + n)
         == Sum(seq(n, i requires 0 <= i < n => TrueRange(candles[lo + i], candles[lo + i - 1].close)))
  {
    hide TrueRange;
    if n > 0 {
      RangeSumIsSum(candles, lo, n - 1);
      var front := seq(n - 1, i requires 0 <= i < n - 1 => TrueRange(candles[lo + i], candles[lo + i - 1].close));
      var last := TrueRange(candles[lo + n - 1], candles[lo + n - 2].close);
      assert seq(n, i requires 0 <= i < n => TrueRange(candles[lo + i], candles[lo + i - 1].close)) == front + [last];
      SumSnoc(front, last);
    }
  }

  lemma AtrIsTheMean(candles: seq<AdvisorCandle>, period: int)
    requires 1 <= period < |candles|
    ensures
      var first := |candles| - period;
      Atr(candles, period) * period as real
        == Sum(seq(period, i requires 0 <= i < period => TrueRange(candles[first + i], candles[first + i - 1].close)))
  {
    hide TrueRange, RangeSum, Sum;
    RangeSumIsSum(candles, |candles| - period, period);
  }

  /** The mean true range of the last `period` candles. */
  method CalculateAtr(candles: seq<AdvisorCandle>, period: int) returns (atr: real)
    requires 1 <= period < |candles|
    ensures atr == Atr(candles, period) && atr >= 0.0
  {
    hide TrueRange;
    var start, total := |candles| - period, 0.0;
    for index := start to |candles|
      invariant total == RangeSum(candles, start, index)
    {
      total := total + TrueRange(candles[index], candles[index - 1].close);
    }
    QuotientIsNonNegative(total, period as real);
    atr := total / period as real;
  }

  lemma QuotientIsNonNegative(x: real, y: real)
    requires x >= 0.0 && y > 0.0
    ensures x / y >= 0.0
  {
  }

  // ----- the level search -----

  /** Relative step of n levels over a price range. */
  function RelativeStep(pMin: real, pMax: real, n: int): real
    requires n != 0 && pMin != 0.0
  {
    (pMax - pMin) / n as real / pMin
  }

  /** Relative step of n levels spread over price +- half. */
  function StepPct(price: real, half: real, n: int): real
    requires n != 0 && price != half
  {
    RelativeStep(price - half, price + half, n)
  }

  const NUDGE := 1.000000000001

  function TargetSpan(n: int, minStepPct: real): real {
    minStepPct * NUDGE * n as real
  }

  function MinimumHalfRange(price: real, n: int, minStepPct: real): real
    requires 2.0 + TargetSpan(n, minStepPct) != 0.0
  {
    TargetSpan(n, minStepPct) * price / (2.0 + TargetSpan(n, minStepPct))
  }

  function LevelCap(target: int): (r: int)
    ensures r >= 4 && r >= target && (r == 4 || r == target)
  {
    if target > 4 then target else 4
  }

  /** `n` is the most levels of the allowed range 4 .. cap whose step on the volatility range is wide enough, or
      4 when none is. */
  ghost predicate MostLevels(n: int, price: real, half: real, minStepPct: real, cap: int)
    requires price != half
  {
    && 4 <= n <= cap
    && (n > 4 ==> StepPct(price, half, n) >= minStepPct)
    && (forall k :: n < k <= cap ==> StepPct(price, half, k) < minStepPct)
  }

  /** The suggested grid: the volatility range when some level count meets the step on it, and otherwise a range
      widened until four levels do. */
  ghost predicate Suggested(c: GridConfig, price: real, half: real, minStepPct: real, target: int)
    requires price > half
  {
    && MostLevels(c.nLevels, price, half, minStepPct, LevelCap(target))
    && (StepPct(price, half, c.nLevels) >= minStepPct ==> c.pMin == price - half && c.pMax == price + half)
    && (StepPct(price, half, c.nLevels) < minStepPct ==>
        && c.nLevels == 4 && c.pMin < price - half && c.pMax > price + half
        && c.pMin + c.pMax == 2.0 * price
        && c.pMax - c.pMin == minStepPct * 1.000000000001 * 4.0 * c.pMin)
    && c.pMin > 0.0
    && RelativeStep(c.pMin, c.pMax, c.nLevels) >= minStepPct
  }

  method SuggestGrid(candles: seq<AdvisorCandle>, capital: real, minStepPct: real, target: int, period: int, multiplier: real)
    returns (result: Result<GridConfig, AdvisorError>)
    requires period >= 1 && (multiplier >= 0.0 || minStepPct > 0.0)
    ensures |candles| < period + 1 <==> result == Err(TooFewCandles)
    ensures |candles| >= period + 1 ==>
              var price, half := candles[|candles| - 1].close, multiplier * Atr(candles, period);
              && (price - half <= 0.0 <==> result == Err(LowerBoundNotPositive))
              && (price - half > 0.0 ==>
                  ((half == 0.0 && minStepPct <= 0.0) || (half < 0.0 && price <= 0.0) <==> result == Err(EmptyRange)))
              && (result.Ok? ==>
                  && price > half && result.value.pMin < result.value.pMax
                  && Suggested(result.value, price, half, minStepPct, target)
                  && result.value.pMax - result.value.pMin >= minStepPct * result.value.nLevels as real * result.value.pMin
                  && result.value.capital == capital && result.value.minLot == 0.0 && result.value.fee == 0.001)
  {
    hide RelativeStep, Atr, MinimumHalfRange, TargetSpan;
    if |candles| < period + 1 {
      return Err(TooFewCandles);
    }
    var atr := CalculateAtr(candles, period);
    var price := candles[|candles| - 1].close;
    var half := multiplier * atr;
    ghost var narrow := half;
    if multiplier >= 0.0 {
      ProductIsNonNegative(multiplier, atr);
    }
    var pMin, pMax := price - half, price + half;
    if pMin <= 0.0 {
      return Err(LowerBoundNotPositive);
    }
    var n := LevelCap(target);
    while n > 4 && RelativeStep(pMin, pMax, n) < minStepPct
      invariant 4 <= n <= LevelCap(target)
      invariant forall k :: n < k <= LevelCap(target) ==> StepPct(price, half, k) < minStepPct
    {
      n := n - 1;
    }
    if RelativeStep(pMin, pMax, n) < minStepPct {
      Widening(price, half, n, minStepPct);
      half := MinimumHalfRange(price, n, minStepPct);
      pMin, pMax := price - half, price + half;
    } else if half <= 0.0 {
      NoPositiveStep(price, half, n);
    }
    if pMax <= pMin {
      return Err(EmptyRange);
    }
    assert narrow == multiplier * Atr(candles, period);
    assert n > 4 ==> StepPct(price, narrow, n) >= minStepPct;
    assert StepPct(price, narrow, n) >= minStepPct ==> pMin == price - narrow && pMax == price + narrow;
    assert StepPct(price, narrow, n) < minStepPct ==> pMin < price - narrow && pMax > price + narrow;
    assert RelativeStep(pMin, pMax, n) >= minStepPct;
    assert Suggested(GridConfig(pMin, pMax, n, capital, 0.001, 0.0), price, narrow, minStepPct, target);
    PlainStep(pMin, pMax, n, minStepPct);
    return Ok(GridConfig(pMin, pMax, n, capital, 0.001, 0.0));
  }

  /** A relative step is the width over the number of levels, over the lower bound. */
  lemma PlainStep(pMin: real, pMax: real, n: int, step: real)
    requires n > 0 && pMin > 0.0
    ensures RelativeStep(pMin, pMax, n) >= step <==> pMax - pMin >= step * n as real * pMin
  {
    var r, count := RelativeStep(pMin, pMax, n), n as real;
    assert (pMax - pMin) / count * count == pMax - pMin;
    assert r * pMin == (pMax - pMin) / count;
    assert r * pMin * count == pMax - pMin;
    var base := count * pMin;
    assert base > 0.0;
    assert (r - step) * base == (pMax - pMin) - step * count * pMin;
    SignOfProduct(r - step, base);
  }

  lemma SignOfProduct(x: real, y: real)
    requires y > 0.0
    ensures x >= 0.0 <==> x * y >= 0.0
  {
  }

  /** Without a positive range there is no positive step. */
  lemma NoPositiveStep(price: real, half: real, n: int)
    requires n > 0 && price - half > 0.0 && half <= 0.0
    ensures StepPct(price, half, n) <= 0.0 && (half < 0.0 ==> StepPct(price, half, n) < 0.0)
  {
    var low, width := price - half, (price + half) - (price - half);
    assert width == -(-2.0 * half);
    Negated(-2.0 * half, n as real);
    var step := width / n as real;
    assert step <= 0.0 && (half < 0.0 ==> step < 0.0);
    assert step == -(-step);
    Negated(-step, low);
  }

  lemma Negated(x: real, y: real)
    requires x >= 0.0 && y > 0.0
    ensures -x / y <= 0.0 && (x > 0.0 ==> -x / y < 0.0)
  {
    assert -x / y == -(x / y);
  }

  /** What the widening does for any range that is too tight, an inverted one included. */
  lemma Widening(price: real, half: real, n: int, minStepPct: real)
    requires n >= 4 && price - half > 0.0 && (half >= 0.0 || minStepPct > 0.0)
    requires StepPct(price, half, n) < minStepPct
    ensures minStepPct > 0.0 && 2.0 + TargetSpan(n, minStepPct) > 0.0
    ensures
      var wide := MinimumHalfRange(price, n, minStepPct);
      if half < 0.0 && price <= 0.0 then wide <= 0.0
      else
        && wide > half && wide > 0.0 && price - wide > 0.0
        && StepPct(price, wide, n) >= minStepPct && 2.0 * wide == minStepPct * NUDGE * n as real * (price - wide)
  {
    hide RelativeStep, MinimumHalfRange, TargetSpan;
    if half >= 0.0 {
      WideningMeetsTheStep(price, half, n, minStepPct);
    } else if price > 0.0 {
      NoPositiveStep(price, 0.0, n);
      WideningMeetsTheStep(price, 0.0, n, minStepPct);
    } else {
      NoWidening(price, n, minStepPct);
    }
  }

  lemma NoWidening(price: real, n: int, minStepPct: real)
    requires n >= 4 && minStepPct > 0.0 && price <= 0.0
    ensures 2.0 + TargetSpan(n, minStepPct) > 0.0 && MinimumHalfRange(price, n, minStepPct) <= 0.0
  {
    var span := TargetSpan(n, minStepPct);
    ProductIsNonNegative(minStepPct * NUDGE, n as real);
    assert span >= 0.0;
    ProductIsNonNegative(span, -price);
    assert MinimumHalfRange(price, n, minStepPct) == -(span * -price) / (2.0 + span);
    Negated(span * -price, 2.0 + span);
  }

  // ----- the nonlinear facts behind the widening -----

  /** When n levels are too tight on price +- half, the minimum half range is larger, keeps the lower bound
      positive, and gives exactly the nudged target step. */
  lemma WideningMeetsTheStep(price: real, half: real, n: int, minStepPct: real)
    requires n >= 4 && half >= 0.0 && price - half > 0.0
    requires StepPct(price, half, n) < minStepPct
    ensures minStepPct > 0.0 && 2.0 + TargetSpan(n, minStepPct) > 0.0
    ensures
      var wide := MinimumHalfRange(price, n, minStepPct);
      && wide > half && price - wide > 0.0
      && StepPct(price, wide, n) >= minStepPct && 2.0 * wide == minStepPct * NUDGE * n as real * (price - wide)
  {
    var count, low := n as real, price - half;
    var q := 2.0 * half / count;
    QuotientIsNonNegative(2.0 * half, count);
    assert StepPct(price, half, n) == q / low;
    QuotientBound(q, low, minStepPct);
    assert q * count == 2.0 * half;
    TooTight(price, half, count, q, minStepPct, minStepPct * NUDGE);
    WideEnough(price, half, n, minStepPct);
  }

  lemma WideEnough(price: real, half: real, n: int, minStepPct: real)
    requires n >= 4 && half >= 0.0 && price - half > 0.0 && minStepPct > 0.0
    requires half * (2.0 + minStepPct * NUDGE * n as real) < minStepPct * NUDGE * n as real * price
    ensures 2.0 + TargetSpan(n, minStepPct) > 0.0
    ensures
      var wide := MinimumHalfRange(price, n, minStepPct);
      && wide > half && price - wide > 0.0
      && StepPct(price, wide, n) >= minStepPct && 2.0 * wide == minStepPct * NUDGE * n as real * (price - wide)
  {
    var count, target := n as real, minStepPct * NUDGE;
    assert target >= minStepPct;
    assert target * count > 0.0;
    Widened(price, half, target * count);
    StepOfWidened(price, count, target, target * count * price / (2.0 + target * count));
  }

  lemma QuotientBound(q: real, low: real, bound: real)
    requires low > 0.0 && q >= 0.0 && q / low < bound
    ensures bound > 0.0 && q < bound * low
  {
    var r := q / low;
    assert r * low == q;
    assert (bound - r) * low > 0.0;
    QuotientIsNonNegative(q, low);
  }

  /** Too tight a step bounds the half range from above. */
  lemma TooTight(price: real, half: real, count: real, q: real, step: real, target: real)
    requires count > 0.0 && q * count == 2.0 * half && q < step * (price - half) && 0.0 < step <= target && price - half > 0.0
    ensures half * (2.0 + target * count) < target * count * price
  {
    var low := price - half;
    assert step * low <= target * low;
    assert q * count < target * low * count;
    assert target * low * count == target * count * price - target * count * half;
  }

  lemma Widened(price: real, half: real, x: real)
    requires x > 0.0 && half >= 0.0 && price > half && half * (2.0 + x) < x * price
    ensures x * price / (2.0 + x) > half && price - x * price / (2.0 + x) > 0.0
  {
    var d := 2.0 + x;
    var wide := x * price / d;
    assert wide * d == x * price;
    PositiveFactor(wide - half, d);
    PositiveFactor(price - wide, d);
  }

  lemma PositiveFactor(a: real, d: real)
    requires d > 0.0 && a * d > 0.0
    ensures a > 0.0
  {
  }

  lemma StepOfWidened(price: real, count: real, target: real, wide: real)
    requires count > 0.0 && target > 0.0 && price - wide > 0.0
    requires wide == target * count * price / (2.0 + target * count)
    ensures ((price + wide) - (price - wide)) / count / (price - wide) == target
    ensures 2.0 * wide == target * count * (price - wide)
  {
    var x := target * count;
    assert x > 0.0;
    var d := 2.0 + x;
    assert wide * d == x * price;
    var low := price - wide;
    assert 2.0 * wide == x * low;
    assert 2.0 * wide == target * low * count;
    Cancel(2.0 * wide, target * low, count);
    Cancel(target * low, target, low);
  }

  lemma Cancel(product: real, x: real, y: real)
    requires y > 0.0 && product == x * y
    ensures product / y == x
  {
  }
}

/** What one simulated execution promises: where it exits, what it costs, and how little of the future it
    depends on. */
module SimulationLaws {
  import opened Prelude
  import opened Market
  import opened Simulation

  function Window(cfg: SimConfig, future: seq<Candle>): seq<Candle> {
    future[..Min(cfg.maxHold, |future|)]
  }

  /** Candle `hold - 1` is the first of the hold window to touch either level. */
  ghost predicate FirstTouchedAfter(cfg: SimConfig, d: Direction, p: Prepared, future: seq<Candle>, hold: nat) {
    var window := Window(cfg, future);
    && 1 <= hold <= |window|
    && Touches(d, p, window[hold - 1])
    && forall j :: 0 <= j < hold - 1 ==> !Touches(d, p, window[j])
  }

  /** A prepared position leaves at the first touching candle, the stop winning ties, and otherwise times out at
      the end of the window. */
  lemma ExitsAtFirstTouch(cfg: SimConfig, d: Direction, p: Prepared, future: seq<Candle>, step: int, draws: nat)
    requires future != []
    ensures
      var r := Exit(cfg, d, p, future, step, draws).0;
      var window := Window(cfg, future);
      && !r.skipped && r.closedAtStep == step + r.holdCandles
      && (r.exitReason == TimedOut <==> forall j :: 0 <= j < |window| ==> !Touches(d, p, window[j]))
      && (r.exitReason == TimedOut ==> r.holdCandles == |window|)
      && (r.exitReason != TimedOut ==> FirstTouchedAfter(cfg, d, p, future, r.holdCandles))
      && (r.exitReason == StopHit <==>
          FirstTouchedAfter(cfg, d, p, future, r.holdCandles) && TouchesStop(d, p, window[r.holdCandles - 1]))
      && (r.ambiguous <==>
          r.exitReason == StopHit && TouchesTarget(d, p, window[r.holdCandles - 1]))
  {
    var window := Window(cfg, future);
    var i := FirstTouch(d, p, window);
    if i < |window| {
      assert Touches(d, p, window[i]);
      assert FirstTouchedAfter(cfg, d, p, future, i + 1);
    }
  }

  // ----- money -----

  /** The price level an exit aims at before slippage or spread. */
  function RawExit(cfg: SimConfig, d: Direction, p: Prepared, future: seq<Candle>, r: SimResult): real
    requires future != []
    requires r.exitReason == StopHit ==> 1 <= r.holdCandles <= |future|
  {
    match r.exitReason
    case StopHit => StopExitPrice(p.stop, future[r.holdCandles - 1].open, d)
    case TargetHit => p.target
    case _ => future[TimeoutCandle(cfg, future)].close
  }

  function Frictionless(d: Direction, rawEntry: real, rawExit: real, qty: real): real {
    if d.Long? then (rawExit - rawEntry) * qty else (rawEntry - rawExit) * qty
  }

  /** Neither fill is better than the raw price it is derived from. */
  predicate FillsAreNoBetter(d: Direction, rawEntry: real, rawExit: real, r: SimResult) {
    if d.Long? then r.entryPrice >= rawEntry && r.exitPrice <= rawExit
    else r.entryPrice <= rawEntry && r.exitPrice >= rawExit
  }

  /** Every exit is the standard booking of some exit price derived from `RawExit`. */
  lemma ExitIsBooked(cfg: SimConfig, d: Direction, p: Prepared, future: seq<Candle>, step: int, draws: nat) returns (exitFee: real)
    requires future != []
    ensures
      var r := Exit(cfg, d, p, future, step, draws).0;
      && r.holdCandles <= |future|
      && (r.exitReason == StopHit ==> 1 <= r.holdCandles)
      && (exists isMaker :: r.exitPrice == ExitPrice(cfg, d, r.exitReason, RawExit(cfg, d, p, future, r), isMaker))
      && r == BuildResult(d, p, RawExit(cfg, d, p, future, r), r.exitPrice, exitFee, r.exitReason, r.holdCandles, step, r.ambiguous)
  {
    var window := Window(cfg, future);
    var i := FirstTouch(d, p, window);
    var r := Exit(cfg, d, p, future, step, draws).0;
    var (isMaker, _) := Draw(cfg.maker, draws);
    assert i < |window| ==> window[i] == future[i];
    assert r.exitPrice == ExitPrice(cfg, d, r.exitReason, RawExit(cfg, d, p, future, r), isMaker);
    exitFee := if r.exitReason == TargetHit then FeeRate(cfg, isMaker) else cfg.takerFee;
  }

  function ExitPrice(cfg: SimConfig, d: Direction, reason: ExitReason, rawExit: real, isMaker: bool): real {
    if reason == TargetHit then ApplySpread(rawExit, ExitSide(d), HalfSpread(cfg, isMaker))
    else ApplySlippage(cfg, rawExit, d)
  }

  lemma BookedFields(d: Direction, p: Prepared, rawExit: real, exit: real, exitFee: real, reason: ExitReason, hold: nat, step: int, ambiguous: bool)
    ensures
      var r := BuildResult(d, p, rawExit, exit, exitFee, reason, hold, step, ambiguous);
      r.qty == p.qty && r.entryPrice == p.entry && r.exitPrice == exit
  {
  }

  lemma BookingGap(d: Direction, p: Prepared, rawExit: real, exit: real, exitFee: real, reason: ExitReason, hold: nat, step: int, ambiguous: bool)
    requires p.qty > 0.0
    ensures
      var r := BuildResult(d, p, rawExit, exit, exitFee, reason, hold, step, ambiguous);
      && r.realizedPnl + r.slippage * r.qty >= Frictionless(d, p.rawEntry, rawExit, p.qty)
      && (r.realizedPnl + r.slippage * r.qty == Frictionless(d, p.rawEntry, rawExit, p.qty)
          <==> FillsAreNoBetter(d, p.rawEntry, rawExit, r))
  {
    var slippage := Abs(p.entry - p.rawEntry) + Abs(exit - rawExit);
    var gained := if d.Long? then exit - p.entry else p.entry - exit;
    var wanted := if d.Long? then rawExit - p.rawEntry else p.rawEntry - rawExit;
    Distribute(gained, slippage, wanted, p.qty);
  }

  lemma Distribute(a: real, b: real, c: real, q: real)
    requires q > 0.0
    ensures a * q + b * q == c * q <==> a + b == c
    ensures a + b >= c ==> a * q + b * q >= c * q
  {
    assert a * q + b * q - c * q == (a + b - c) * q;
    if a + b - c > 0.0 {
      assert (a + b - c) * q > 0.0;
    } else if a + b - c < 0.0 {
      assert (c - a - b) * q > 0.0;
    }
  }

  /** Booked profit plus booked slippage is never less than the frictionless profit, and equals it exactly when no
      fill improves on its raw price. */
  lemma SlippageExplainsTheGap(cfg: SimConfig, d: Direction, p: Prepared, future: seq<Candle>, step: int, draws: nat)
    requires future != [] && p.qty > 0.0
    ensures
      var r := Exit(cfg, d, p, future, step, draws).0;
      && (r.exitReason == StopHit ==> 1 <= r.holdCandles <= |future|)
      && var rawExit := RawExit(cfg, d, p, future, r);
      && r.realizedPnl + r.slippage * r.qty >= Frictionless(d, p.rawEntry, rawExit, p.qty)
      && (r.realizedPnl + r.slippage * r.qty == Frictionless(d, p.rawEntry, rawExit, p.qty)
          <==> FillsAreNoBetter(d, p.rawEntry, rawExit, r))
  {
    hide Exit, BuildResult, Frictionless, RawExit, FillsAreNoBetter;
    var exitFee := ExitIsBooked(cfg, d, p, future, step, draws);
    var r := Exit(cfg, d, p, future, step, draws).0;
    BookingGap(d, p, RawExit(cfg, d, p, future, r), r.exitPrice, exitFee, r.exitReason, r.holdCandles, step, r.ambiguous);
  }

  /** With non-negative prices and costs every fill is no better than its raw price, so the identity holds. */
  lemma ExecutedFillsAreNoBetter(cfg: SimConfig, s: Signal, future: seq<Candle>, step: int, draws: nat)
    requires future != [] && cfg.spreadBps >= 0.0 && cfg.slippageBps >= 0.0
    requires s.entry >= 0.0 && s.stop >= 0.0 && s.target >= 0.0
    requires forall c :: c in future ==> c.open >= 0.0 && c.close >= 0.0
    requires Prepare(cfg, s, future, step, draws).0.Ready?
    ensures
      var (preparation, draws1) := Prepare(cfg, s, future, step, draws);
      var p := preparation.prepared;
      var r := Exit(cfg, s.direction, p, future, step, draws1).0;
      && p.qty > 0.0
      && (r.exitReason == StopHit ==> 1 <= r.holdCandles <= |future|)
      && FillsAreNoBetter(s.direction, p.rawEntry, RawExit(cfg, s.direction, p, future, r), r)
      && r.realizedPnl + r.slippage * r.qty
         == Frictionless(s.direction, p.rawEntry, RawExit(cfg, s.direction, p, future, r), p.qty)
  {
    hide Exit, BuildResult, ExitPrice, EntryPrice, Quantity, SpotSkip, Frictionless, StopExitPrice;
    var (preparation, draws1) := Prepare(cfg, s, future, step, draws);
    var p := preparation.prepared;
    var exitFee := ExitIsBooked(cfg, s.direction, p, future, step, draws1);
    var r := Exit(cfg, s.direction, p, future, step, draws1).0;
    var rawExit := RawExit(cfg, s.direction, p, future, r);
    RawExitIsNonNegative(cfg, s.direction, p, future, r);
    var (isMaker, _) := Draw(cfg.maker, draws);
    EntryIsNoBetter(cfg, s.direction, p.rawEntry, isMaker);
    var exitMaker :| r.exitPrice == ExitPrice(cfg, s.direction, r.exitReason, rawExit, exitMaker);
    ExitIsNoBetter(cfg, s.direction, r.exitReason, rawExit, exitMaker);
    PreparedRisk(cfg, s, future, step, draws);
    assert r.qty == p.qty && r.entryPrice == p.entry by {
      BookedFields(s.direction, p, rawExit, r.exitPrice, exitFee, r.exitReason, r.holdCandles, step, r.ambiguous);
    }
    BookingGap(s.direction, p, rawExit, r.exitPrice, exitFee, r.exitReason, r.holdCandles, step, r.ambiguous);
  }

  lemma RawExitIsNonNegative(cfg: SimConfig, d: Direction, p: Prepared, future: seq<Candle>, r: SimResult)
    requires future != [] && p.stop >= 0.0 && p.target >= 0.0
    requires forall c :: c in future ==> c.open >= 0.0 && c.close >= 0.0
    requires r.exitReason == StopHit ==> 1 <= r.holdCandles <= |future|
    ensures RawExit(cfg, d, p, future, r) >= 0.0
  {
  }

  lemma EntryIsNoBetter(cfg: SimConfig, d: Direction, rawEntry: real, isMaker: bool)
    requires cfg.spreadBps >= 0.0 && rawEntry >= 0.0
    ensures if d.Long? then EntryPrice(cfg, d, rawEntry, isMaker) >= rawEntry
            else EntryPrice(cfg, d, rawEntry, isMaker) <= rawEntry
  {
    MoveIsNonNegative(rawEntry, HalfSpread(cfg, isMaker));
  }

  lemma ExitIsNoBetter(cfg: SimConfig, d: Direction, reason: ExitReason, rawExit: real, isMaker: bool)
    requires cfg.spreadBps >= 0.0 && cfg.slippageBps >= 0.0 && rawExit >= 0.0
    ensures if d.Long? then ExitPrice(cfg, d, reason, rawExit, isMaker) <= rawExit
            else ExitPrice(cfg, d, reason, rawExit, isMaker) >= rawExit
  {
    MoveIsNonNegative(rawExit, HalfSpread(cfg, isMaker));
    MoveIsNonNegative(rawExit, cfg.slippageBps);
  }

  lemma MoveIsNonNegative(price: real, bps: real)
    requires price >= 0.0 && bps >= 0.0
    ensures price * bps / 10000.0 >= 0.0
  {
    assert price * bps >= 0.0;
  }

  /** A position stopped without a gap on the losing side of its entry loses the risked amount and the stop
      slippage, no more and no less. */
  lemma StopLosesTheRiskedAmount(cfg: SimConfig, s: Signal, future: seq<Candle>, step: int, draws: nat)
    requires future != []
    requires Prepare(cfg, s, future, step, draws).0.Ready?
    ensures
      var (preparation, draws1) := Prepare(cfg, s, future, step, draws);
      var p := preparation.prepared;
      var r := Exit(cfg, s.direction, p, future, step, draws1).0;
      && (r.exitReason == StopHit ==> 1 <= r.holdCandles <= |future|)
      && (r.exitReason == StopHit && RawExit(cfg, s.direction, p, future, r) == s.stop
          && (if s.direction.Long? then p.entry > s.stop else p.entry < s.stop)
          ==> r.realizedPnl == -cfg.riskAmount - s.stop * cfg.slippageBps / 10000.0 * r.qty)
  {
    hide Exit, Prepare;
    var (preparation, draws1) := Prepare(cfg, s, future, step, draws);
    var p := preparation.prepared;
    PreparedRisk(cfg, s, future, step, draws);
    var exitFee := ExitIsBooked(cfg, s.direction, p, future, step, draws1);
    var r := Exit(cfg, s.direction, p, future, step, draws1).0;
    if r.exitReason == StopHit && RawExit(cfg, s.direction, p, future, r) == s.stop
       && (if s.direction.Long? then p.entry > s.stop else p.entry < s.stop)
    {
      BookedStopLoss(cfg, s.direction, p, s.stop, exitFee, r.holdCandles, step, r.ambiguous);
    }
  }

  lemma PreparedRisk(cfg: SimConfig, s: Signal, future: seq<Candle>, step: int, draws: nat)
    requires future != []
    requires Prepare(cfg, s, future, step, draws).0.Ready?
    ensures
      var p := Prepare(cfg, s, future, step, draws).0.prepared;
      p.qty > 0.0 && Abs(p.entry - s.stop) * p.qty == cfg.riskAmount && p.stop == s.stop
  {
    var p := Prepare(cfg, s, future, step, draws).0.prepared;
    var risk := Abs(p.entry - s.stop);
    assert p.qty == Quantity(cfg, p.entry, s.stop);
    assert risk != 0.0;
    assert risk * (cfg.riskAmount / risk) == cfg.riskAmount;
  }

  lemma BookedStopLoss(cfg: SimConfig, d: Direction, p: Prepared, stop: real, exitFee: real, hold: nat, step: int, ambiguous: bool)
    requires p.qty > 0.0 && Abs(p.entry - stop) * p.qty == cfg.riskAmount
    requires if d.Long? then p.entry > stop else p.entry < stop
    ensures
      var r := BuildResult(d, p, stop, ApplySlippage(cfg, stop, d), exitFee, StopHit, hold, step, ambiguous);
      r.realizedPnl == -cfg.riskAmount - stop * cfg.slippageBps / 10000.0 * p.qty
  {
    var risk, move := Abs(p.entry - stop), stop * cfg.slippageBps / 10000.0;
    assert (-risk - move) * p.qty == -(risk * p.qty) - move * p.qty;
  }

  // ----- time -----

  /** An execution closes between its own step and the last candle; a skipped one never leaves its step. */
  lemma ClosesWithinTheData(cfg: SimConfig, s: Signal, future: seq<Candle>, step: int, draws: nat)
    ensures
      var r := Execute(cfg, s, future, step, draws).0;
      && step <= r.closedAtStep <= step + |future|
      && (r.skipped ==> r.closedAtStep == step)
  {
    if future != [] {
      var (preparation, draws1) := Prepare(cfg, s, future, step, draws);
      if preparation.Ready? {
        var _ := ExitIsBooked(cfg, s.direction, preparation.prepared, future, step, draws1);
        ExitsAtFirstTouch(cfg, s.direction, preparation.prepared, future, step, draws1);
      }
    }
  }

  /** Without a drawn maker fill the generator plays no part. */
  lemma DrawsAreIrrelevant(cfg: SimConfig, s: Signal, future: seq<Candle>, step: int, k1: nat, k2: nat)
    requires !cfg.maker.DrawnMaker?
    ensures Execute(cfg, s, future, step, k1).0 == Execute(cfg, s, future, step, k2).0
  {
  }

  /** Two futures share their first `m` candles, and neither ends there unless they are the same future. */
  ghost predicate AgreeOn(f1: seq<Candle>, f2: seq<Candle>, m: nat) {
    f1 == f2 || (1 <= m < |f1| && m < |f2| && f1[..m] == f2[..m])
  }

  /** An execution that closes within the shared candles is the same in both futures; otherwise it is still open
      after them in both. */
  lemma ExecutionIsCausal(cfg: SimConfig, s: Signal, f1: seq<Candle>, f2: seq<Candle>, step: int, draws: nat, m: nat)
    requires cfg.maxHold >= 1
    requires AgreeOn(f1, f2, m)
    ensures
      var (r1, k1) := Execute(cfg, s, f1, step, draws);
      var (r2, k2) := Execute(cfg, s, f2, step, draws);
      || (r1 == r2 && k1 == k2)
      || (!r1.skipped && !r2.skipped && r1.closedAtStep > step + m && r2.closedAtStep > step + m)
  {
    if f1 != f2 {
      assert f1[0] == f1[..m][0] == f2[..m][0] == f2[0];
      var (preparation, draws1) := Prepare(cfg, s, f1, step, draws);
      assert Prepare(cfg, s, f2, step, draws) == (preparation, draws1);
      if preparation.Ready? {
        ExitIsCausal(cfg, s.direction, preparation.prepared, f1, f2, step, draws1, m);
      }
    }
  }

  lemma ExitIsCausal(cfg: SimConfig, d: Direction, p: Prepared, f1: seq<Candle>, f2: seq<Candle>, step: int, draws: nat, m: nat)
    requires cfg.maxHold >= 1
    requires 1 <= m < |f1| && m < |f2| && f1[..m] == f2[..m]
    ensures
      var (r1, k1) := Exit(cfg, d, p, f1, step, draws);
      var (r2, k2) := Exit(cfg, d, p, f2, step, draws);
      || (r1 == r2 && k1 == k2)
      || (!r1.skipped && !r2.skipped && r1.closedAtStep > step + m && r2.closedAtStep > step + m)
  {
    hide ExitOn, TimeoutResult, BuildResult;
    var w1, w2 := Window(cfg, f1), Window(cfg, f2);
    if cfg.maxHold <= m {
      assert w1 == f1[..m][..cfg.maxHold] == f2[..m][..cfg.maxHold] == w2;
      TimeoutIsCausal(cfg, d, p, f1, f2, step, m);
    } else {
      assert w1[..m] == f1[..m] == f2[..m] == w2[..m];
      FirstTouchOnSharedPrefix(d, p, w1, w2, m);
      if FirstTouch(d, p, w1) >= m {
        var _ := ExitIsBooked(cfg, d, p, f1, step, draws);
        var _ := ExitIsBooked(cfg, d, p, f2, step, draws);
        ExitsAtFirstTouch(cfg, d, p, f1, step, draws);
        ExitsAtFirstTouch(cfg, d, p, f2, step, draws);
      }
    }
  }

  lemma TimeoutIsCausal(cfg: SimConfig, d: Direction, p: Prepared, f1: seq<Candle>, f2: seq<Candle>, step: int, m: nat)
    requires 1 <= cfg.maxHold <= m
    requires m < |f1| && m < |f2| && f1[..m] == f2[..m]
    ensures TimeoutResult(cfg, d, p, f1, step) == TimeoutResult(cfg, d, p, f2, step)
  {
    hide BuildResult, ApplySlippage;
    assert f1[..m][cfg.maxHold - 1] == f2[..m][cfg.maxHold - 1];
  }

  lemma FirstTouchOnSharedPrefix(d: Direction, p: Prepared, w1: seq<Candle>, w2: seq<Candle>, m: nat)
    requires m <= |w1| && m <= |w2| && w1[..m] == w2[..m]
    ensures
      var i1, i2 := FirstTouch(d, p, w1), FirstTouch(d, p, w2);
      || (i1 == i2 < m && w1[i1] == w2[i2])
      || (i1 >= m && i2 >= m)
  {
    forall j | 0 <= j < m
      ensures w1[j] == w2[j]
    {
      assert w1[..m][j] == w2[..m][j];
    }
  }

  /** With a hold limit of zero causality fails: the timeout price is the close of the very last candle,
      whatever lies between. */
  lemma ZeroHoldReadsTheLastCandle(cfg: SimConfig, d: Direction, p: Prepared, future: seq<Candle>, step: int, draws: nat)
    requires future != [] && cfg.maxHold == 0
    ensures
      var r := Exit(cfg, d, p, future, step, draws).0;
      && r.closedAtStep == step && r.exitReason == TimedOut
      && r.exitPrice == ApplySlippage(cfg, future[|future| - 1].close, d)
  {
    assert Window(cfg, future) == [];
  }
}

/** One simulated execution in plain arithmetic of the configuration, the signal and the candles that follow it. */
module ExecutionArithmetic {
  import opened Prelude
  import opened Market
  import opened Simulation
  import opened SimulationLaws

  // ----- fills -----

  /** Whether the fill with this number is a maker fill. */
  predicate FillsAsMaker(cfg: SimConfig, fill: nat) {
    cfg.maker.AlwaysMaker? || (cfg.maker.DrawnMaker? && cfg.maker.oracle(fill))
  }

  /** Only a random fill uses a number up. */
  function NextFill(cfg: SimConfig, fill: nat): nat {
    if cfg.maker.DrawnMaker? then fill + 1 else fill
  }

  /** A price moved by so many basis points against a buyer or a seller. */
  function Against(raw: real, bps: real, buying: bool): real {
    if buying then raw + raw * bps / 10000.0 else raw - raw * bps / 10000.0
  }

  /** A maker fill pays no spread, any other half of it. */
  function SpreadOf(cfg: SimConfig, maker: bool): real {
    if maker then 0.0 else cfg.spreadBps / 2.0
  }

  function RateOf(cfg: SimConfig, maker: bool): real {
    if maker then cfg.makerFee else cfg.takerFee
  }

  function Distance(x: real, y: real): real {
    if x >= y then x - y else y - x
  }

  // ----- exits -----

  predicate HitsStop(s: Signal, c: Candle) {
    (s.direction == Long && c.low <= s.stop) || (s.direction == Short && s.stop <= c.high)
  }

  predicate HitsTarget(s: Signal, c: Candle) {
    (s.direction == Long && s.target <= c.high) || (s.direction == Short && c.low <= s.target)
  }

  predicate Hits(s: Signal, c: Candle) {
    HitsStop(s, c) || HitsTarget(s, c)
  }

  /** Candle `k` is the first of the held candles to hit either level. */
  ghost predicate FirstHit(cfg: SimConfig, s: Signal, future: seq<Candle>, k: nat) {
    k < cfg.maxHold && k < |future| && Hits(s, future[k]) && forall j :: 0 <= j < k ==> !Hits(s, future[j])
  }

  ghost predicate NeverHits(cfg: SimConfig, s: Signal, future: seq<Candle>) {
    forall j :: 0 <= j < cfg.maxHold && j < |future| ==> !Hits(s, future[j])
  }

  /** The money of a round trip: profit by direction, both fees, both price concessions. */
  predicate RoundTrip(s: Signal, r: SimResult, rawEntry: real, entryFee: real, rawExit: real, exitFee: real) {
    && r.realizedPnl == (if s.direction == Long then (r.exitPrice - r.entryPrice) * r.qty else (r.entryPrice - r.exitPrice) * r.qty)
    && r.feesPaid == r.entryPrice * r.qty * entryFee + r.exitPrice * r.qty * exitFee
    && r.slippage == Distance(r.entryPrice, rawEntry) + Distance(r.exitPrice, rawExit)
  }

  /** A stop fills at the lower of its level and the candle's open for a long, at the higher for a short, less slippage, as a taker. */
  predicate LeavesByStop(cfg: SimConfig, s: Signal, c: Candle, r: SimResult, rawEntry: real, entryFee: real) {
    var raw := if s.direction == Long then (if c.open < s.stop then c.open else s.stop)
               else (if c.open > s.stop then c.open else s.stop);
    && r.exitReason == StopHit && (r.ambiguous <==> HitsTarget(s, c))
    && r.exitPrice == Against(raw, cfg.slippageBps, s.direction == Short)
    && RoundTrip(s, r, rawEntry, entryFee, raw, cfg.takerFee)
  }

  /** A target fills at its level, as a maker or across half the spread. */
  predicate LeavesByTarget(cfg: SimConfig, s: Signal, r: SimResult, rawEntry: real, entryFee: real, maker: bool) {
    && r.exitReason == TargetHit && !r.ambiguous
    && r.exitPrice == Against(s.target, SpreadOf(cfg, maker), s.direction == Short)
    && RoundTrip(s, r, rawEntry, entryFee, s.target, RateOf(cfg, maker))
  }

  /** A time-out fills at the close of the last held candle, less slippage, as a taker. */
  predicate LeavesByTimeout(cfg: SimConfig, s: Signal, future: seq<Candle>, r: SimResult, rawEntry: real, entryFee: real)
    requires future != []
  {
    var held := if cfg.maxHold < |future| then cfg.maxHold else |future|;
    var raw := if held >= 1 then future[held - 1].close else future[|future| - 1].close;
    && r.exitReason == TimedOut && !r.ambiguous && r.holdCandles == held
    && r.exitPrice == Against(raw, cfg.slippageBps, s.direction == Short)
    && RoundTrip(s, r, rawEntry, entryFee, raw, cfg.takerFee)
  }

  /** A position that was bought: when and how it leaves. */
  ghost predicate Traded(cfg: SimConfig, s: Signal, future: seq<Candle>, step: int, r: SimResult,
                         rawEntry: real, entryFee: real, fill: nat, next: nat)
    requires future != []
  {
    && !r.skipped && r.closedAtStep == step + r.holdCandles
    && if NeverHits(cfg, s, future) then LeavesByTimeout(cfg, s, future, r, rawEntry, entryFee) && next == fill
       else
         && 1 <= r.holdCandles && FirstHit(cfg, s, future, r.holdCandles - 1)
         && var c := future[r.holdCandles - 1];
            if HitsStop(s, c) then LeavesByStop(cfg, s, c, r, rawEntry, entryFee) && next == fill
            else LeavesByTarget(cfg, s, r, rawEntry, entryFee, FillsAsMaker(cfg, fill)) && next == NextFill(cfg, fill)
  }

  /** Nothing was bought. */
  predicate Untraded(r: SimResult, price: real, step: int, reason: ExitReason, skipped: bool) {
    r == SimResult(0.0, 0.0, 0.0, reason, 0, 0.0, step, price, price, skipped, false)
  }

  /** The whole of an execution: refusal, entry at the signal's price or the next open, size by risk, skips, exit. */
  ghost predicate IsExecution(cfg: SimConfig, s: Signal, future: seq<Candle>, step: int, fill: nat, r: SimResult, next: nat) {
    if cfg.market == Spot && s.direction == Short then Untraded(r, s.entry, step, RejectedShort, true) && next == fill
    else if future == [] then Untraded(r, s.entry, step, TimedOut, false) && next == fill
    else
      var maker, after := FillsAsMaker(cfg, fill), NextFill(cfg, fill);
      var rawEntry := if cfg.oneBarDelay then future[0].open else s.entry;
      var entry := Against(rawEntry, SpreadOf(cfg, maker), s.direction == Long);
      var risk := Distance(entry, s.stop);
      var qty := if risk == 0.0 then 0.0 else cfg.riskAmount / risk;
      if qty <= 0.0 then Untraded(r, entry, step, TimedOut, false) && next == after
      else if cfg.market == Spot && entry * qty < cfg.minNotional(s.symbol) then
        Untraded(r, entry, step, BelowMinNotional, true) && next == after
      else if cfg.market == Spot && entry * qty > cfg.equity then
        Untraded(r, entry, step, InsufficientCapital, true) && next == after
      else
        r.entryPrice == entry && r.qty == qty && Traded(cfg, s, future, step, r, rawEntry, RateOf(cfg, maker), after, next)
  }

  // ----- the simulator does exactly that -----

  /** The position a signal is given, when it is given one. */
  lemma PreparedPlainly(cfg: SimConfig, s: Signal, future: seq<Candle>, step: int, fill: nat)
    requires future != []
    ensures
      var maker, after := FillsAsMaker(cfg, fill), NextFill(cfg, fill);
      var rawEntry := if cfg.oneBarDelay then future[0].open else s.entry;
      var entry := Against(rawEntry, SpreadOf(cfg, maker), s.direction == Long);
      var risk := Distance(entry, s.stop);
      var qty := if risk == 0.0 then 0.0 else cfg.riskAmount / risk;
      Prepare(cfg, s, future, step, fill) == (
        if qty <= 0.0 then Finished(SimResult(0.0, 0.0, 0.0, TimedOut, 0, 0.0, step, entry, entry, false, false))
        else if cfg.market == Spot && entry * qty < cfg.minNotional(s.symbol) then
          Finished(SimResult(0.0, 0.0, 0.0, BelowMinNotional, 0, 0.0, step, entry, entry, true, false))
        else if cfg.market == Spot && entry * qty > cfg.equity then
          Finished(SimResult(0.0, 0.0, 0.0, InsufficientCapital, 0, 0.0, step, entry, entry, true, false))
        else Ready(Prepared(rawEntry, entry, RateOf(cfg, maker), s.stop, s.target, qty)), after)
  {
    hide EntryPrice, Quantity, Against, Distance, FeeRate, RateOf, SpreadOf, SpotSkip;
    var maker := FillsAsMaker(cfg, fill);
    var rawEntry := if cfg.oneBarDelay then future[0].open else s.entry;
    var entry := EntryPrice(cfg, s.direction, rawEntry, maker);
    assert Draw(cfg.maker, fill) == (maker, NextFill(cfg, fill));
    EntryPlainly(cfg, s.direction, rawEntry, maker);
    SizePlainly(cfg, entry, s.stop);
    SkipPlainly(cfg, s.symbol, entry, Quantity(cfg, entry, s.stop));
    assert Prepare(cfg, s, future, step, fill) == (PrepareAs(cfg, s, rawEntry, step, maker), NextFill(cfg, fill));
  }

  lemma SkipPlainly(cfg: SimConfig, symbol: string, entry: real, qty: real)
    ensures
      SpotSkip(cfg, symbol, entry, qty) ==
        if cfg.market == Spot && entry * qty < cfg.minNotional(symbol) then Some(BelowMinNotional)
        else if cfg.market == Spot && entry * qty > cfg.equity then Some(InsufficientCapital)
        else None
  {
  }

  lemma EntryPlainly(cfg: SimConfig, d: Direction, rawEntry: real, maker: bool)
    ensures EntryPrice(cfg, d, rawEntry, maker) == Against(rawEntry, SpreadOf(cfg, maker), d == Long)
    ensures FeeRate(cfg, maker) == RateOf(cfg, maker)
  {
  }

  lemma SizePlainly(cfg: SimConfig, entry: real, stop: real)
    ensures
      var risk := Distance(entry, stop);
      Quantity(cfg, entry, stop) == if risk == 0.0 then 0.0 else cfg.riskAmount / risk
  {
    assert Abs(entry - stop) == Distance(entry, stop);
  }

  lemma BookedPlainly(s: Signal, p: Prepared, rawExit: real, exit: real, exitFee: real, reason: ExitReason, hold: nat,
                      step: int, ambiguous: bool)
    requires p.qty > 0.0
    ensures
      var r := BuildResult(s.direction, p, rawExit, exit, exitFee, reason, hold, step, ambiguous);
      && RoundTrip(s, r, p.rawEntry, p.entryFee, rawExit, exitFee)
      && r.exitReason == reason && r.holdCandles == hold && r.qty == p.qty && r.closedAtStep == step + hold
      && r.entryPrice == p.entry && r.exitPrice == exit && !r.skipped && r.ambiguous == ambiguous
  {
  }

  lemma TouchesPlainly(s: Signal, p: Prepared, c: Candle)
    requires p.stop == s.stop && p.target == s.target
    ensures TouchesStop(s.direction, p, c) == HitsStop(s, c) && TouchesTarget(s.direction, p, c) == HitsTarget(s, c)
  {
  }

  /** A prepared position leaves as stated. */
  lemma ExitPlainly(cfg: SimConfig, s: Signal, p: Prepared, future: seq<Candle>, step: int, fill: nat)
    requires future != [] && p.qty > 0.0 && p.stop == s.stop && p.target == s.target
    ensures
      var (r, next) := Exit(cfg, s.direction, p, future, step, fill);
      r.entryPrice == p.entry && r.qty == p.qty && Traded(cfg, s, future, step, r, p.rawEntry, p.entryFee, fill, next)
  {
    hide BuildResult, RoundTrip, TouchesStop, TouchesTarget, HitsStop, HitsTarget;
    var window := future[..Min(cfg.maxHold, |future|)];
    var i := FirstTouch(s.direction, p, window);
    forall j | 0 <= j < |window|
      ensures Touches(s.direction, p, window[j]) == Hits(s, future[j])
    {
      TouchesPlainly(s, p, window[j]);
    }
    if i == |window| {
      var raw := future[TimeoutCandle(cfg, future)].close;
      BookedPlainly(s, p, raw, ApplySlippage(cfg, raw, s.direction), cfg.takerFee, TimedOut, |window|, step, false);
    } else {
      TouchesPlainly(s, p, window[i]);
      assert FirstHit(cfg, s, future, i);
      StopPlainly(cfg, s, p, window[i], i + 1, step);
      TargetPlainly(cfg, s, p, i + 1, step, FillsAsMaker(cfg, fill));
    }
  }

  lemma StopPlainly(cfg: SimConfig, s: Signal, p: Prepared, c: Candle, hold: nat, step: int)
    requires p.qty > 0.0 && p.stop == s.stop && p.target == s.target
    ensures
      var r := StopResult(cfg, s.direction, p, c.open, hold, step, TouchesTarget(s.direction, p, c));
      && LeavesByStop(cfg, s, c, r, p.rawEntry, p.entryFee)
      && r.holdCandles == hold && r.qty == p.qty && r.closedAtStep == step + hold && r.entryPrice == p.entry && !r.skipped
  {
    hide BuildResult, RoundTrip;
    var raw := StopExitPrice(p.stop, c.open, s.direction);
    TouchesPlainly(s, p, c);
    BookedPlainly(s, p, raw, ApplySlippage(cfg, raw, s.direction), cfg.takerFee, StopHit, hold, step, TouchesTarget(s.direction, p, c));
  }

  lemma TargetPlainly(cfg: SimConfig, s: Signal, p: Prepared, hold: nat, step: int, maker: bool)
    requires p.qty > 0.0 && p.stop == s.stop && p.target == s.target
    ensures
      var r := TargetResult(cfg, s.direction, p, hold, step, maker);
      && LeavesByTarget(cfg, s, r, p.rawEntry, p.entryFee, maker)
      && r.holdCandles == hold && r.qty == p.qty && r.closedAtStep == step + hold && r.entryPrice == p.entry && !r.skipped
  {
    hide BuildResult, RoundTrip;
    var exit := ApplySpread(p.target, ExitSide(s.direction), HalfSpread(cfg, maker));
    BookedPlainly(s, p, p.target, exit, FeeRate(cfg, maker), TargetHit, hold, step, false);
  }

  /** Every execution is the plain one: refusals, entry price, size, skips, exit candle, exit price, profit, fees and slippage. */
  lemma ExecutionIsPlain(cfg: SimConfig, s: Signal, future: seq<Candle>, step: int, fill: nat)
    ensures
      var (r, next) := Execute(cfg, s, future, step, fill);
      IsExecution(cfg, s, future, step, fill, r, next)
  {
    hide Prepare, Exit, Traded, Against, Distance;
    if future != [] {
      PreparedPlainly(cfg, s, future, step, fill);
      var (preparation, after) := Prepare(cfg, s, future, step, fill);
      if preparation.Ready? {
        ExitPlainly(cfg, s, preparation.prepared, future, step, after);
      }
    }
  }
}

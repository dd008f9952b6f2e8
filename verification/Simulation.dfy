/** backend/backtest/simulation_execution_service.py: one signal against the candles that follow it. */
module Simulation {
  import opened Prelude
  import opened Market

  datatype MarketMode = Spot | Derivatives

  datatype Side = Buy | Sell

  /** A probability of at most 0, of at least 1, or one that consumes a draw of the seeded generator per fill. */
  datatype MakerFill = NeverMaker | AlwaysMaker | DrawnMaker(oracle: nat -> bool)

  datatype SimConfig = SimConfig(
    maxHold: nat,
    riskAmount: real,
    makerFee: real,
    takerFee: real,
    maker: MakerFill,
    spreadBps: real,
    slippageBps: real,
    oneBarDelay: bool,
    market: MarketMode,
    equity: real,
    minNotional: string -> real)

  /** The three skip reasons stand for the three boolean flags of a skipped result. */
  datatype ExitReason = StopHit | TargetHit | TimedOut | RejectedShort | BelowMinNotional | InsufficientCapital

  datatype SimResult = SimResult(
    realizedPnl: real,
    feesPaid: real,
    slippage: real,
    exitReason: ExitReason,
    holdCandles: nat,
    qty: real,
    closedAtStep: int,
    entryPrice: real,
    exitPrice: real,
    skipped: bool,
    ambiguous: bool)

  datatype Prepared = Prepared(
    rawEntry: real, entry: real, entryFee: real, stop: real, target: real, qty: real)

  datatype Preparation = Ready(prepared: Prepared) | Finished(result: SimResult)

  // ----- prices -----

  function EntrySide(d: Direction): Side {
    if d.Long? then Buy else Sell
  }

  function ExitSide(d: Direction): Side {
    if d.Long? then Sell else Buy
  }

  function ApplySpread(price: real, side: Side, bps: real): real {
    var move := price * bps / 10000.0;
    if side.Buy? then price + move else price - move
  }

  function ApplySlippage(cfg: SimConfig, price: real, d: Direction): real {
    var move := price * cfg.slippageBps / 10000.0;
    if d.Long? then price - move else price + move
  }

  function StopExitPrice(stop: real, candleOpen: real, d: Direction): real {
    if d.Long? && candleOpen < stop then candleOpen
    else if d.Short? && candleOpen > stop then candleOpen
    else stop
  }

  function Draw(maker: MakerFill, draws: nat): (bool, nat) {
    match maker
    case NeverMaker => (false, draws)
    case AlwaysMaker => (true, draws)
    case DrawnMaker(oracle) => (oracle(draws), draws + 1)
  }

  function HalfSpread(cfg: SimConfig, isMaker: bool): real {
    if isMaker then 0.0 else cfg.spreadBps / 2.0
  }

  function FeeRate(cfg: SimConfig, isMaker: bool): real {
    if isMaker then cfg.makerFee else cfg.takerFee
  }

  function RealizedPnl(d: Direction, entry: real, exit: real, qty: real): real {
    if qty <= 0.0 then 0.0 else if d.Long? then (exit - entry) * qty else (entry - exit) * qty
  }

  function Fees(entry: real, exit: real, qty: real, entryFee: real, exitFee: real): real {
    if qty <= 0.0 then 0.0 else entry * qty * entryFee + exit * qty * exitFee
  }

  // ----- results -----

  function SkippedResult(price: real, step: int, reason: ExitReason): SimResult {
    SimResult(0.0, 0.0, 0.0, reason, 0, 0.0, step, price, price, true, false)
  }

  function EmptyResult(price: real, step: int): SimResult {
    SimResult(0.0, 0.0, 0.0, TimedOut, 0, 0.0, step, price, price, false, false)
  }

  function BuildResult(d: Direction, p: Prepared, rawExit: real, exit: real, exitFee: real,
                       reason: ExitReason, hold: nat, step: int, ambiguous: bool): SimResult
  {
    SimResult(
      RealizedPnl(d, p.entry, exit, p.qty),
      Fees(p.entry, exit, p.qty, p.entryFee, exitFee),
      Abs(p.entry - p.rawEntry) + Abs(exit - rawExit),
      reason, hold, p.qty, step + hold, p.entry, exit, false, ambiguous)
  }

  function StopResult(cfg: SimConfig, d: Direction, p: Prepared, candleOpen: real, hold: nat, step: int, ambiguous: bool): SimResult {
    var rawExit := StopExitPrice(p.stop, candleOpen, d);
    BuildResult(d, p, rawExit, ApplySlippage(cfg, rawExit, d), cfg.takerFee, StopHit, hold, step, ambiguous)
  }

  function TargetResult(cfg: SimConfig, d: Direction, p: Prepared, hold: nat, step: int, isMaker: bool): SimResult {
    var exit := ApplySpread(p.target, ExitSide(d), HalfSpread(cfg, isMaker));
    BuildResult(d, p, p.target, exit, FeeRate(cfg, isMaker), TargetHit, hold, step, false)
  }

  /** With a hold limit of zero the source indexes the last future candle. */
  function TimeoutCandle(cfg: SimConfig, future: seq<Candle>): nat
    requires future != []
  {
    var hold := Min(cfg.maxHold, |future|);
    if hold == 0 then |future| - 1 else hold - 1
  }

  function TimeoutResult(cfg: SimConfig, d: Direction, p: Prepared, future: seq<Candle>, step: int): SimResult
    requires future != []
  {
    var rawExit := future[TimeoutCandle(cfg, future)].close;
    BuildResult(d, p, rawExit, ApplySlippage(cfg, rawExit, d), cfg.takerFee, TimedOut,
                Min(cfg.maxHold, |future|), step, false)
  }

  // ----- the scan -----

  predicate TouchesStop(d: Direction, p: Prepared, c: Candle) {
    if d.Long? then c.low <= p.stop else c.high >= p.stop
  }

  predicate TouchesTarget(d: Direction, p: Prepared, c: Candle) {
    if d.Long? then c.high >= p.target else c.low <= p.target
  }

  predicate Touches(d: Direction, p: Prepared, c: Candle) {
    TouchesStop(d, p, c) || TouchesTarget(d, p, c)
  }

  /** Index of the first candle that touches the stop or the target, or the length when none does. */
  function FirstTouch(d: Direction, p: Prepared, candles: seq<Candle>): (i: nat)
    ensures i <= |candles|
    ensures i < |candles| ==> Touches(d, p, candles[i])
    ensures forall j :: 0 <= j < i ==> !Touches(d, p, candles[j])
  {
    if candles == [] || Touches(d, p, candles[0]) then 0 else 1 + FirstTouch(d, p, candles[1..])
  }

  lemma FirstTouchUnique(d: Direction, p: Prepared, candles: seq<Candle>, i: nat)
    requires i <= |candles|
    requires i < |candles| ==> Touches(d, p, candles[i])
    requires forall j :: 0 <= j < i ==> !Touches(d, p, candles[j])
    ensures FirstTouch(d, p, candles) == i
  {
  }

  function RawEntry(cfg: SimConfig, s: Signal, future: seq<Candle>): real
    requires future != []
  {
    if cfg.oneBarDelay then future[0].open else s.entry
  }

  function EntryPrice(cfg: SimConfig, d: Direction, rawEntry: real, isMaker: bool): real {
    ApplySpread(rawEntry, EntrySide(d), HalfSpread(cfg, isMaker))
  }

  function Quantity(cfg: SimConfig, entry: real, stop: real): real {
    var risk := Abs(entry - stop);
    if risk != 0.0 then cfg.riskAmount / risk else 0.0
  }

  function SpotSkip(cfg: SimConfig, symbol: string, entry: real, qty: real): Option<ExitReason> {
    var notional := entry * qty;
    if !cfg.market.Spot? then None
    else if notional < cfg.minNotional(symbol) then Some(BelowMinNotional)
    else if notional > cfg.equity then Some(InsufficientCapital)
    else None
  }

  function PrepareAs(cfg: SimConfig, s: Signal, rawEntry: real, step: int, isMaker: bool): Preparation {
    var entry := EntryPrice(cfg, s.direction, rawEntry, isMaker);
    var qty := Quantity(cfg, entry, s.stop);
    if qty <= 0.0 then
      Finished(EmptyResult(entry, step))
    else
      match SpotSkip(cfg, s.symbol, entry, qty)
      case Some(reason) => Finished(SkippedResult(entry, step, reason))
      case None => Ready(Prepared(rawEntry, entry, FeeRate(cfg, isMaker), s.stop, s.target, qty))
  }

  function Prepare(cfg: SimConfig, s: Signal, future: seq<Candle>, step: int, draws: nat): (Preparation, nat)
    requires future != []
  {
    var (isMaker, draws1) := Draw(cfg.maker, draws);
    (PrepareAs(cfg, s, RawEntry(cfg, s, future), step, isMaker), draws1)
  }

  /** The exit on a touching candle: the stop wins ties and takes the taker fee; a target fill may be a maker fill. */
  function ExitOn(cfg: SimConfig, d: Direction, p: Prepared, c: Candle, hold: nat, step: int, draws: nat): (SimResult, nat) {
    if TouchesStop(d, p, c) then
      (StopResult(cfg, d, p, c.open, hold, step, TouchesTarget(d, p, c)), draws)
    else
      var (isMaker, draws1) := Draw(cfg.maker, draws);
      (TargetResult(cfg, d, p, hold, step, isMaker), draws1)
  }

  /** The exit of a prepared position, in terms of the first touching candle inside the hold window. */
  function Exit(cfg: SimConfig, d: Direction, p: Prepared, future: seq<Candle>, step: int, draws: nat): (SimResult, nat)
    requires future != []
  {
    var window := future[..Min(cfg.maxHold, |future|)];
    var i := FirstTouch(d, p, window);
    if i == |window| then
      (TimeoutResult(cfg, d, p, future, step), draws)
    else
      ExitOn(cfg, d, p, window[i], i + 1, step, draws)
  }

  function Execute(cfg: SimConfig, s: Signal, future: seq<Candle>, step: int, draws: nat): (SimResult, nat) {
    if cfg.market.Spot? && s.direction.Short? then
      (SkippedResult(s.entry, step, RejectedShort), draws)
    else if future == [] then
      (EmptyResult(s.entry, step), draws)
    else
      var (preparation, draws1) := Prepare(cfg, s, future, step, draws);
      match preparation
      case Finished(result) => (result, draws1)
      case Ready(p) => Exit(cfg, s.direction, p, future, step, draws1)
  }

  /** The service: its only mutable state is the seeded generator, modelled as a count of draws taken. */
  class SimulationExecutionService {
    const cfg: SimConfig
    var draws: nat

    constructor (cfg: SimConfig)
      ensures this.cfg == cfg && draws == 0
    {
      this.cfg := cfg;
      draws := 0;
    }

    method MakerFill() returns (isMaker: bool)
      modifies this
      ensures (isMaker, draws) == Draw(cfg.maker, old(draws))
    {
      match cfg.maker
      case NeverMaker => return false;
      case AlwaysMaker => return true;
      case DrawnMaker(oracle) =>
        isMaker := oracle(draws);
        draws := draws + 1;
    }

    method PrepareExecution(s: Signal, future: seq<Candle>, step: int) returns (preparation: Preparation)
      requires future != []
      modifies this
      ensures (preparation, draws) == Prepare(cfg, s, future, step, old(draws))
    {
      var rawEntry := RawEntry(cfg, s, future);
      var isMaker := MakerFill();
      var entry := EntryPrice(cfg, s.direction, rawEntry, isMaker);
      var qty := Quantity(cfg, entry, s.stop);
      if qty <= 0.0 {
        return Finished(EmptyResult(entry, step));
      }
      var spotSkip := SpotSkip(cfg, s.symbol, entry, qty);
      if spotSkip.Some? {
        return Finished(SkippedResult(entry, step, spotSkip.value));
      }
      return Ready(Prepared(rawEntry, entry, FeeRate(cfg, isMaker), s.stop, s.target, qty));
    }

    method ExecuteReplaySignal(s: Signal, future: seq<Candle>, step: int) returns (result: SimResult)
      modifies this
      ensures (result, draws) == Execute(cfg, s, future, step, old(draws))
    {
      if cfg.market.Spot? && s.direction.Short? {
        return SkippedResult(s.entry, step, RejectedShort);
      }
      if future == [] {
        return EmptyResult(s.entry, step);
      }
      var preparation := PrepareExecution(s, future, step);
      if preparation.Finished? {
        return preparation.result;
      }
      var p := preparation.prepared;
      var window := future[..Min(cfg.maxHold, |future|)];
      for index := 0 to |window|
        invariant draws == Prepare(cfg, s, future, step, old(draws)).1
        invariant forall j :: 0 <= j < index ==> !Touches(s.direction, p, window[j])
      {
        var candle := window[index];
        var stopHit := TouchesStop(s.direction, p, candle);
        var targetHit := TouchesTarget(s.direction, p, candle);
        if stopHit || targetHit {
          FirstTouchUnique(s.direction, p, window, index);
          if stopHit {
            return StopResult(cfg, s.direction, p, candle.open, index + 1, step, targetHit);
          }
          var isMaker := MakerFill();
          return TargetResult(cfg, s.direction, p, index + 1, step, isMaker);
        }
      }
      FirstTouchUnique(s.direction, p, window, |window|);
      return TimeoutResult(cfg, s.direction, p, future, step);
    }
  }
}

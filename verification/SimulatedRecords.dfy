/** The records of a replay that executes through the simulator, in plain arithmetic of the candles and the signal. */
module SimulatedRecords {
  import opened Prelude
  import opened Market
  import opened Simulation
  import opened Replay
  import opened ReplayHistory
  import opened ReplayLaws
  import opened ReplayRecords
  import opened SimulatedReplay
  import opened ExecutionArithmetic

  lemma SimulatorServes(required: pos, strategy: seq<Candle> -> Option<Signal>, cfg: SimConfig, lim: Limits,
                        s: Signal, future: seq<Candle>, step: int, fill: nat, r: SimResult)
    ensures
      var u := SimSetup(required, strategy, cfg, lim);
      && u.required == required && u.strategy == strategy && u.limits == lim
      && u.service(s, future, step, fill) == Execute(cfg, s, future, step, fill)
      && u.view(r) == SimView(r)
  {
    hide Execute, SimView;
  }

  /** Whatever a step of a simulated replay executes is the plain execution of its own signal on the candles after it,
      with the fills numbered through the run. */
  lemma RecordsAreExecutions(required: pos, strategy: seq<Candle> -> Option<Signal>, cfg: SimConfig, lim: Limits,
                             candles: seq<Candle>, start: int, end: int, t: int)
    requires required - 1 <= start <= t < end <= |candles|
    ensures
      var u := SimSetup(required, strategy, cfg, lim);
      var records := Run(u, candles, start, end).1;
      var window := candles[t - required + 1..t + 1];
      var fill, next := Run(u, candles, start, t).0.draws, Run(u, candles, start, t + 1).0.draws;
      && |records| == end - start
      && records[t - start].snapshot == window && records[t - start].signal == strategy(window)
      && (records[t - start].execution.Some? ==>
          && strategy(window).Some?
          && IsExecution(cfg, strategy(window).value, candles[t + 1..], t, fill, records[t - start].execution.value, next))
  {
    hide Run, Execute, IsExecution, SimSetup;
    var u := SimSetup(required, strategy, cfg, lim);
    SimSetupFields(required, strategy, cfg, lim);
    SimulatorServes(required, strategy, cfg, lim, Signal("", Long, 0.0, 0.0, 0.0), [], 0, 0, SkippedResult(0.0, 0, TimedOut));
    RecordsAreTheLoop(u, candles, start, end, t);
    var record := Run(u, candles, start, end).1[t - start];
    if record.execution.Some? {
      var s, fill := record.signal.value, Run(u, candles, start, t).0.draws;
      SimulatorServes(required, strategy, cfg, lim, s, candles[t + 1..], t, fill, record.execution.value);
      ExecutionIsPlain(cfg, s, candles[t + 1..], t, fill);
    }
  }

  /** An open position of a simulated replay stands at the fill of its execution (at the signal's entry when that fill
      was at zero) until the step its execution closes. */
  lemma PositionsAreExecutions(required: pos, strategy: seq<Candle> -> Option<Signal>, cfg: SimConfig, lim: Limits,
                               candles: seq<Candle>, start: int, end: int, symbol: string)
    requires required - 1 <= start <= end <= |candles|
    requires symbol in Run(SimSetup(required, strategy, cfg, lim), candles, start, end).0.portfolio.open
    ensures
      var (m, records) := Run(SimSetup(required, strategy, cfg, lim), candles, start, end);
      var position := m.portfolio.open[symbol];
      && |records| == end - start && start <= position.openedAtStep < end
      && var record := records[position.openedAtStep - start];
         && record.signal.Some? && record.execution.Some? && !record.execution.value.skipped
         && position == OpenPosition(
              symbol, record.signal.value.direction,
              if record.execution.value.entryPrice == 0.0 then record.signal.value.entry else record.execution.value.entryPrice,
              record.signal.value.stop, record.signal.value.target, position.openedAtStep, record.execution.value.closedAtStep)
  {
    hide Run;
    var u := SimSetup(required, strategy, cfg, lim);
    OpenPositionsAreTheirRecords(u, candles, start, end, symbol);
    var position := Run(u, candles, start, end).0.portfolio.open[symbol];
    RecordsAreTheLoop(u, candles, start, end, position.openedAtStep);
  }
}

/** What slippage and spread cost a whole replay: the totals the gate reports against the raw prices of the records. */
module ReplayCosts {
  import opened Prelude
  import opened Market
  import opened Simulation
  import opened SimulationLaws
  import opened Replay
  import opened SimulatedReplay
  import opened NoLookAhead
  import opened Gate

  // ----- one execution at its raw prices -----

  /** The position a signal asks for, at the size it was given. */
  function Asked(cfg: SimConfig, s: Signal, future: seq<Candle>, r: SimResult): Prepared
    requires future != []
  {
    Prepared(RawEntry(cfg, s, future), r.entryPrice, 0.0, s.stop, s.target, r.qty)
  }

  /** A stop is hit by a candle the position was held for. */
  predicate ExitsInData(future: seq<Candle>, r: SimResult) {
    future != [] && (r.exitReason == StopHit ==> 1 <= r.holdCandles <= |future|)
  }

  /** The profit at the raw entry and raw exit prices; nothing for a position that was never prepared. */
  function FrictionlessOf(cfg: SimConfig, s: Signal, future: seq<Candle>, r: SimResult): real {
    if ExitsInData(future, r) then
      var p := Asked(cfg, s, future, r);
      Frictionless(s.direction, p.rawEntry, RawExit(cfg, s.direction, p, future, r), r.qty)
    else 0.0
  }

  /** Neither fill is better than its raw price; a position that was never prepared has no fills. */
  predicate FairlyFilled(cfg: SimConfig, s: Signal, future: seq<Candle>, r: SimResult) {
    r.qty > 0.0 && ExitsInData(future, r) ==>
      var p := Asked(cfg, s, future, r);
      FillsAreNoBetter(s.direction, p.rawEntry, RawExit(cfg, s.direction, p, future, r), r)
  }

  function Booked(r: SimResult): real {
    r.realizedPnl + r.slippage * r.qty
  }

  lemma ExecutionGap(cfg: SimConfig, s: Signal, future: seq<Candle>, step: int, draws: nat)
    ensures
      var r := Execute(cfg, s, future, step, draws).0;
      !r.skipped ==>
        && Booked(r) >= FrictionlessOf(cfg, s, future, r)
        && (Booked(r) == FrictionlessOf(cfg, s, future, r) <==> FairlyFilled(cfg, s, future, r))
  {
    hide Exit, RawExit, Frictionless, FillsAreNoBetter, RawEntry, Quantity, EntryPrice;
    var r := Execute(cfg, s, future, step, draws).0;
    if !r.skipped && future != [] {
      var (preparation, draws1) := Prepare(cfg, s, future, step, draws);
      if preparation.Ready? {
        PreparedGap(cfg, s, future, step, draws);
      } else {
        NothingBought(cfg, s, future, r);
      }
    }
  }

  lemma NothingBought(cfg: SimConfig, s: Signal, future: seq<Candle>, r: SimResult)
    requires r.qty == 0.0
    ensures FrictionlessOf(cfg, s, future, r) == 0.0
  {
    hide RawExit, RawEntry;
  }

  lemma PreparedGap(cfg: SimConfig, s: Signal, future: seq<Candle>, step: int, draws: nat)
    requires future != [] && Prepare(cfg, s, future, step, draws).0.Ready?
    ensures
      var (preparation, draws1) := Prepare(cfg, s, future, step, draws);
      var r := Exit(cfg, s.direction, preparation.prepared, future, step, draws1).0;
      && Booked(r) >= FrictionlessOf(cfg, s, future, r)
      && (Booked(r) == FrictionlessOf(cfg, s, future, r) <==> FairlyFilled(cfg, s, future, r))
  {
    hide Exit, Frictionless, FillsAreNoBetter, RawEntry, Quantity, EntryPrice;
    var (preparation, draws1) := Prepare(cfg, s, future, step, draws);
    var p := preparation.prepared;
    PreparedRisk(cfg, s, future, step, draws);
    SlippageExplainsTheGap(cfg, s.direction, p, future, step, draws1);
    ExitKeepsSize(cfg, s.direction, p, future, step, draws1);
  }

  lemma ExitKeepsSize(cfg: SimConfig, d: Direction, p: Prepared, future: seq<Candle>, step: int, draws: nat)
    requires future != []
    ensures Exit(cfg, d, p, future, step, draws).0.qty == p.qty
  {
  }

  // ----- the records of a run -----

  predicate Counts(record: StepRecord<SimResult>) {
    record.execution.Some? && !record.execution.value.skipped
  }

  function RecordFrictionless(cfg: SimConfig, candles: seq<Candle>, record: StepRecord<SimResult>): real {
    if Counts(record) && record.signal.Some? && 0 <= record.step < |candles| then
      FrictionlessOf(cfg, record.signal.value, candles[record.step + 1..], record.execution.value)
    else 0.0
  }

  predicate RecordFair(cfg: SimConfig, candles: seq<Candle>, record: StepRecord<SimResult>) {
    Counts(record) && record.signal.Some? && 0 <= record.step < |candles| ==>
      FairlyFilled(cfg, record.signal.value, candles[record.step + 1..], record.execution.value)
  }

  /** What the executed signals of the records would have made at raw prices. */
  function FrictionlessTotal(cfg: SimConfig, candles: seq<Candle>, records: seq<StepRecord<SimResult>>): real {
    SumBy(records, (record: StepRecord<SimResult>) => RecordFrictionless(cfg, candles, record))
  }

  /** What one step adds to the totals. */
  lemma StepGap(required: pos, strategy: seq<Candle> -> Option<Signal>, cfg: SimConfig, lim: Limits,
                candles: seq<Candle>, t: int, m: Machine)
    requires required - 1 <= t < |candles|
    ensures
      var record := StepOnce(SimSetup(required, strategy, cfg, lim), candles, m, t).1;
      if Counts(record) then
        && Booked(record.execution.value) >= RecordFrictionless(cfg, candles, record)
        && (Booked(record.execution.value) == RecordFrictionless(cfg, candles, record) <==> RecordFair(cfg, candles, record))
      else
        RecordFrictionless(cfg, candles, record) == 0.0 && RecordFair(cfg, candles, record)
  {
    hide Execute, StepOnce, Settled, CanExecute, Track, FrictionlessOf, FairlyFilled, Booked, SimSetup;
    SimSetupFields(required, strategy, cfg, lim);
    SimStepForm(required, strategy, cfg, lim, candles, t, m);
    var record := StepOnce(SimSetup(required, strategy, cfg, lim), candles, m, t).1;
    if record.signal.Some? {
      ExecutionGap(cfg, record.signal.value, candles[t + 1..], t, m.draws);
    }
  }

  /** How the totals grow by one record. */
  lemma TotalsSnoc(cfg: SimConfig, candles: seq<Candle>, before: seq<StepRecord<SimResult>>, record: StepRecord<SimResult>)
    ensures
      var rs, longer := Executed(Executions(before)), Executed(Executions(before + [record]));
      && FrictionlessTotal(cfg, candles, before + [record])
         == FrictionlessTotal(cfg, candles, before) + RecordFrictionless(cfg, candles, record)
      && TotalPnl(longer) + SlippagePaid(longer)
         == TotalPnl(rs) + SlippagePaid(rs) + (if Counts(record) then Booked(record.execution.value) else 0.0)
  {
    hide Executed, Executions, RecordFrictionless;
    var rs := Executed(Executions(before));
    ExecutionsSnoc(before, record);
    SumBySnoc(before, record, (r: StepRecord<SimResult>) => RecordFrictionless(cfg, candles, r));
    if record.execution.Some? {
      var r := record.execution.value;
      ExecutedSnoc(Executions(before), r);
      SumBySnoc(rs, r, (x: SimResult) => x.realizedPnl);
      SumBySnoc(rs, r, (x: SimResult) => x.slippage * x.qty);
      assert r.skipped ==> rs + [] == rs;
    } else {
      assert Executions(before) + [] == Executions(before);
    }
  }

  // ----- main results -----

  /** Over any replay, total result plus slippage paid is never less than the frictionless total of the executed
      signals, and equals it exactly when no fill of any record is better than its raw price. */
  lemma {:induction false} SlippageBoundsTheTotal(required: pos, strategy: seq<Candle> -> Option<Signal>, cfg: SimConfig,
                                                  lim: Limits, candles: seq<Candle>, start: int, end: int)
    requires required - 1 <= start <= end <= |candles|
    ensures
      var records := Run(SimSetup(required, strategy, cfg, lim), candles, start, end).1;
      var rs := Executed(Executions(records));
      && TotalPnl(rs) + SlippagePaid(rs) >= FrictionlessTotal(cfg, candles, records)
      && (TotalPnl(rs) + SlippagePaid(rs) == FrictionlessTotal(cfg, candles, records)
          <==> forall record :: record in records ==> RecordFair(cfg, candles, record))
    decreases end
  {
    hide StepOnce, SimSetup, RecordFair, RecordFrictionless, Booked, Counts, FrictionlessTotal, TotalPnl, SlippagePaid;
    hide Executed, Executions;
    SimSetupFields(required, strategy, cfg, lim);
    var u := SimSetup(required, strategy, cfg, lim);
    if start < end {
      SlippageBoundsTheTotal(required, strategy, cfg, lim, candles, start, end - 1);
      var (m, before) := Run(u, candles, start, end - 1);
      var (m', record) := StepOnce(u, candles, m, end - 1);
      assert Run(u, candles, start, end) == (m', before + [record]);
      StepGap(required, strategy, cfg, lim, candles, end - 1, m);
      TotalsSnoc(cfg, candles, before, record);
    } else {
      NothingRun(cfg, candles);
      assert Run(u, candles, start, start).1 == [];
    }
  }

  lemma NothingRun(cfg: SimConfig, candles: seq<Candle>)
    ensures TotalPnl(Executed(Executions([]))) + SlippagePaid(Executed(Executions([]))) == FrictionlessTotal(cfg, candles, []) == 0.0
  {
  }

  predicate NonNegative(s: Signal) {
    s.entry >= 0.0 && s.stop >= 0.0 && s.target >= 0.0
  }

  lemma StepIsFair(required: pos, strategy: seq<Candle> -> Option<Signal>, cfg: SimConfig, lim: Limits,
                   candles: seq<Candle>, t: int, m: Machine)
    requires required - 1 <= t < |candles| && cfg.spreadBps >= 0.0 && cfg.slippageBps >= 0.0
    requires forall c :: c in candles ==> c.open >= 0.0 && c.close >= 0.0
    requires
      var signal := strategy(Snapshot(SimSetup(required, strategy, cfg, lim), candles, t));
      signal.Some? ==> NonNegative(signal.value)
    ensures RecordFair(cfg, candles, StepOnce(SimSetup(required, strategy, cfg, lim), candles, m, t).1)
  {
    hide Execute, StepOnce, Settled, CanExecute, Track, FairlyFilled, SimSetup;
    SimSetupFields(required, strategy, cfg, lim);
    SimStepForm(required, strategy, cfg, lim, candles, t, m);
    var record := StepOnce(SimSetup(required, strategy, cfg, lim), candles, m, t).1;
    if record.signal.Some? {
      ExecutionIsFair(cfg, record.signal.value, candles[t + 1..], t, m.draws);
    }
  }

  lemma ExecutionIsFair(cfg: SimConfig, s: Signal, future: seq<Candle>, step: int, draws: nat)
    requires NonNegative(s) && cfg.spreadBps >= 0.0 && cfg.slippageBps >= 0.0
    requires forall c :: c in future ==> c.open >= 0.0 && c.close >= 0.0
    ensures FairlyFilled(cfg, s, future, Execute(cfg, s, future, step, draws).0)
  {
    hide Exit, FillsAreNoBetter, RawEntry, Quantity, EntryPrice;
    if future != [] && Prepare(cfg, s, future, step, draws).0.Ready? {
      ExecutedFillsAreNoBetter(cfg, s, future, step, draws);
    }
  }

  /** With non-negative costs and prices the executed results of a replay and the slippage paid add up to what the
      same signals would have made at their raw prices. */
  lemma SlippageExplainsTheTotal(required: pos, strategy: seq<Candle> -> Option<Signal>, cfg: SimConfig, lim: Limits,
                                 candles: seq<Candle>, start: int, end: int)
    requires required - 1 <= start <= end <= |candles| && cfg.spreadBps >= 0.0 && cfg.slippageBps >= 0.0
    requires forall c :: c in candles ==> c.open >= 0.0 && c.close >= 0.0
    requires
      forall t :: start <= t < end ==>
        var signal := strategy(Snapshot(SimSetup(required, strategy, cfg, lim), candles, t));
        signal.Some? ==> NonNegative(signal.value)
    ensures
      var records := Run(SimSetup(required, strategy, cfg, lim), candles, start, end).1;
      var rs := Executed(Executions(records));
      TotalPnl(rs) + SlippagePaid(rs) == FrictionlessTotal(cfg, candles, records)
  {
    hide StepOnce, SimSetup, RecordFair, RecordFrictionless, FrictionlessTotal, TotalPnl, SlippagePaid, Executed, Executions;
    SlippageBoundsTheTotal(required, strategy, cfg, lim, candles, start, end);
    RecordsAreFair(required, strategy, cfg, lim, candles, start, end);
  }

  lemma {:induction false} RecordsAreFair(required: pos, strategy: seq<Candle> -> Option<Signal>, cfg: SimConfig,
                                          lim: Limits, candles: seq<Candle>, start: int, end: int)
    requires required - 1 <= start <= end <= |candles| && cfg.spreadBps >= 0.0 && cfg.slippageBps >= 0.0
    requires forall c :: c in candles ==> c.open >= 0.0 && c.close >= 0.0
    requires
      forall t :: start <= t < end ==>
        var signal := strategy(Snapshot(SimSetup(required, strategy, cfg, lim), candles, t));
        signal.Some? ==> NonNegative(signal.value)
    ensures
      forall record :: record in Run(SimSetup(required, strategy, cfg, lim), candles, start, end).1 ==>
        RecordFair(cfg, candles, record)
    decreases end
  {
    hide StepOnce, SimSetup, RecordFair, Snapshot;
    SimSetupFields(required, strategy, cfg, lim);
    var u := SimSetup(required, strategy, cfg, lim);
    if start < end {
      RecordsAreFair(required, strategy, cfg, lim, candles, start, end - 1);
      var (m, before) := Run(u, candles, start, end - 1);
      var (m', record) := StepOnce(u, candles, m, end - 1);
      assert Run(u, candles, start, end) == (m', before + [record]);
      StepIsFair(required, strategy, cfg, lim, candles, end - 1, m);
    }
  }
}

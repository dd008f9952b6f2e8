/** A replay that executes through the simulator: it always drains, and it never looks ahead. */
module SimulatedReplay {
  import opened Prelude
  import opened Market
  import opened Simulation
  import opened SimulationLaws
  import opened Replay
  import opened ReplayHistory
  import opened ReplayLaws

  function SimView(r: SimResult): ExecutionView {
    ExecutionView(!r.skipped, Some(r.closedAtStep), Some(r.holdCandles), Some(r.realizedPnl), Some(r.feesPaid), Some(r.entryPrice))
  }

  function SimSetup(required: pos, strategy: seq<Candle> -> Option<Signal>, cfg: SimConfig, lim: Limits): Setup<SimResult> {
    Setup(required, strategy, (s, future, step, draws) => Execute(cfg, s, future, step, draws), SimView, lim)
  }

  // ----- drain -----

  /** The executions of the records, as the gate receives them. */
  function Executions(records: seq<StepRecord<SimResult>>): seq<SimResult> {
    if records == [] then []
    else
      var r := records[|records| - 1];
      Executions(records[..|records| - 1]) + (if r.execution.Some? then [r.execution.value] else [])
  }

  function Executed(results: seq<SimResult>): seq<SimResult> {
    if results == [] then []
    else
      var r := results[|results| - 1];
      Executed(results[..|results| - 1]) + (if r.skipped then [] else [r])
  }

  lemma ExecutedSnoc(results: seq<SimResult>, r: SimResult)
    ensures Executed(results + [r]) == Executed(results) + (if r.skipped then [] else [r])
  {
    assert (results + [r])[..|results|] == results;
  }

  lemma ExecutionsSnoc(records: seq<StepRecord<SimResult>>, r: StepRecord<SimResult>)
    ensures Executions(records + [r]) == Executions(records) + (if r.execution.Some? then [r.execution.value] else [])
  {
    assert (records + [r])[..|records|] == records;
  }

  /** Entry and execution describe the same trade. */
  ghost predicate Books(e: Entry, r: SimResult) {
    && !r.skipped
    && e.closure.closeStep == r.closedAtStep
    && e.closure.netPnl == Some(r.realizedPnl - r.feesPaid)
  }

  lemma SimStep(required: pos, strategy: seq<Candle> -> Option<Signal>, cfg: SimConfig, lim: Limits,
                candles: seq<Candle>, m: Machine, t: int)
    requires required - 1 <= t < |candles|
    ensures
      var u := SimSetup(required, strategy, cfg, lim);
      var record := StepOnce(u, candles, m, t).1;
      var e := EntryOf(u, record);
      && (e.Some? <==> record.execution.Some? && !record.execution.value.skipped)
      && (record.execution.Some? ==> t <= record.execution.value.closedAtStep < |candles|)
      && (e.Some? ==> Books(e.value, record.execution.value) && t <= Settle(e.value) == record.execution.value.closedAtStep)
  {
    hide Execute, Settled, CanExecute, Track;
    var u := SimSetup(required, strategy, cfg, lim);
    var signal := strategy(Snapshot(u, candles, t));
    if signal.Some? {
      ClosesWithinTheData(cfg, signal.value, candles[t + 1..], t, m.draws);
    }
  }

  /** The entries of a simulated run are its executed results, trade by trade, and every one settles inside the
      data. */
  lemma {:induction false} HistoryIsTheExecutions(required: pos, strategy: seq<Candle> -> Option<Signal>, cfg: SimConfig, lim: Limits,
                                                  candles: seq<Candle>, start: int, end: int)
    requires required - 1 <= start <= end <= |candles|
    ensures
      var u := SimSetup(required, strategy, cfg, lim);
      var es := History(u, candles, start, end);
      var results := Executed(Executions(Run(u, candles, start, end).1));
      && |es| == |results|
      && (forall i :: 0 <= i < |es| ==>
            && Books(es[i], results[i])
            && 0 <= es[i].openStep <= Settle(es[i]) == results[i].closedAtStep < |candles|)
    decreases end
  {
    hide StepOnce, EntryOf, Books, Settle, SimSetup, Entries, Executed, Executions;
    SimSetupFields(required, strategy, cfg, lim);
    var u := SimSetup(required, strategy, cfg, lim);
    if start < end {
      HistoryIsTheExecutions(required, strategy, cfg, lim, candles, start, end - 1);
      var (m, before) := Run(u, candles, start, end - 1);
      SimStep(required, strategy, cfg, lim, candles, m, end - 1);
      var (m', record) := StepOnce(u, candles, m, end - 1);
      assert Run(u, candles, start, end) == (m', before + [record]);
      EntriesSnoc(u, before, record);
      ExecutionsSnoc(before, record);
      if record.execution.Some? {
        ExecutedSnoc(Executions(before), record.execution.value);
      } else {
        assert Executions(before) + [] == Executions(before);
      }
      StepOpensNow(u, candles, m, end - 1);
    } else {
      EmptyRun(u, candles, start);
    }
  }

  lemma StepOpensNow<R>(u: Setup<R>, candles: seq<Candle>, m: Machine, t: int)
    requires InRange(u, candles, t)
    ensures
      var e := EntryOf(u, StepOnce(u, candles, m, t).1);
      e.Some? ==> e.value.openStep == t && e.value.openStep <= Settle(e.value)
  {
    hide Settled, Track, CanExecute;
  }

  lemma EmptyRun(u: Setup<SimResult>, candles: seq<Candle>, start: int)
    requires u.required - 1 <= start <= |candles|
    ensures Run(u, candles, start, start).1 == []
    ensures Entries(u, []) == [] && Executions([]) == [] && Executed([]) == []
  {
  }

  /** A simulated replay that runs to the end of the data ends with nothing open and nothing pending, and its daily
      counters add up to the executed trades. */
  lemma ReplayDrains(required: pos, strategy: seq<Candle> -> Option<Signal>, cfg: SimConfig, lim: Limits,
                     candles: seq<Candle>, start: int)
    requires required - 1 <= start <= |candles|
    ensures
      var u := SimSetup(required, strategy, cfg, lim);
      var (m, records) := Run(u, candles, start, |candles|);
      && m.portfolio.open == map[]
      && m.portfolio.due == map[]
      && MapSum(m.portfolio.dailyTrades) == |Executed(Executions(records))|
      && forall r :: r in Executed(Executions(records)) ==> 0 <= r.closedAtStep < |candles|
  {
    hide Run, Executed, Executions, MapSum, SimSetup;
    var u := SimSetup(required, strategy, cfg, lim);
    SimSetupFields(required, strategy, cfg, lim);
    var t := |candles| - 1;
    var p, es := Run(u, candles, start, |candles|).0.portfolio, History(u, candles, start, |candles|);
    var results := Executed(Executions(Run(u, candles, start, |candles|).1));
    HistoryIsTheExecutions(required, strategy, cfg, lim, candles, start, |candles|);
    SettledLeavesNothing(u, candles, start);
    ExecutionsAreConserved(u, candles, start, |candles|);
    forall r | r in results
      ensures 0 <= r.closedAtStep < |candles|
    {
      var i :| 0 <= i < |results| && results[i] == r;
      assert Books(es[i], r);
    }
  }

  lemma SimSetupFields(required: pos, strategy: seq<Candle> -> Option<Signal>, cfg: SimConfig, lim: Limits)
    ensures SimSetup(required, strategy, cfg, lim).required == required
    ensures SimSetup(required, strategy, cfg, lim).limits == lim
  {
  }

  lemma SettledLeavesNothing<R>(u: Setup<R>, candles: seq<Candle>, start: int)
    requires u.required - 1 <= start <= |candles|
    requires forall i :: 0 <= i < |History(u, candles, start, |candles|)| ==>
               Settle(History(u, candles, start, |candles|)[i]) < |candles|
    ensures
      var p := Run(u, candles, start, |candles|).0.portfolio;
      p.open == map[] && p.due == map[]
  {
    hide Run;
    var p, es, t := Run(u, candles, start, |candles|).0.portfolio, History(u, candles, start, |candles|), |candles| - 1;
    RunAgreesWithItsRecords(u, candles, start, |candles|);
    forall s
      ensures s !in p.open
    {
      OpenSetIff(es, t, s);
    }
    forall k
      ensures k !in p.due
    {
      if k in p.due {
        DueAtIff(es, k, p.due[k][0]);
      }
    }
  }
}

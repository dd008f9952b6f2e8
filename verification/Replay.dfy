/** backend/backtest/replay_runner.py: the portfolio machine that walks over history one candle at a time. */
module Replay {
  import opened Prelude
  import opened Market

  type pos = n: int | 1 <= n witness 1

  /** What the runner reads from any execution service's result; absent fields are None. */
  datatype ExecutionView = ExecutionView(
    executed: bool,
    closedAtStep: Option<int>,
    holdCandles: Option<int>,
    realizedPnl: Option<real>,
    feesPaid: Option<real>,
    entryPrice: Option<real>)

  datatype Limits = Limits(maxOpen: int, maxPerDay: int, cooldown: int, hardPause: int)

  datatype OpenPosition = OpenPosition(
    symbol: string, direction: Direction, entryPrice: real, stopPrice: real, targetPrice: real,
    openedAtStep: int, plannedCloseStep: int)

  datatype Closure = Closure(symbol: string, closeStep: int, entryDate: Date, netPnl: Option<real>)

  /** The mutable portfolio record together with the calendar of scheduled closures. */
  datatype Portfolio = Portfolio(
    open: map<string, OpenPosition>,
    cooldownUntil: map<string, int>,
    dailyTrades: map<Date, int>,
    losses: int,
    halted: bool,
    date: Option<Date>,
    due: map<int, seq<Closure>>)

  const EMPTY_PORTFOLIO := Portfolio(map[], map[], map[], 0, false, None, map[])

  function Get<K>(m: map<K, int>, k: K, default: int): int {
    if k in m then m[k] else default
  }

  // ----- transitions -----

  function ResetDaily(p: Portfolio, date: Date): Portfolio {
    if p.date == Some(date) then p else p.(date := Some(date), losses := 0, halted := false)
  }

  /** Closing a position frees its symbol, starts its cooldown and counts on its entry date. */
  function Release(p: Portfolio, c: Closure, lim: Limits): Portfolio {
    p.(open := p.open - {c.symbol},
       cooldownUntil := p.cooldownUntil[c.symbol := c.closeStep + lim.cooldown],
       dailyTrades := p.dailyTrades[c.entryDate := Get(p.dailyTrades, c.entryDate, 0) + 1])
  }

  /** A loss lengthens the streak and may halt the session; a win ends it; zero and unknown results change nothing. */
  function CountResult(p: Portfolio, netPnl: Option<real>, lim: Limits): Portfolio {
    if netPnl.Some? && netPnl.value < 0.0 then
      p.(losses := p.losses + 1, halted := p.halted || p.losses + 1 >= lim.hardPause)
    else if netPnl.Some? && netPnl.value > 0.0 then p.(losses := 0)
    else p
  }

  function RecordClosed(p: Portfolio, c: Closure, lim: Limits): Portfolio {
    CountResult(Release(p, c, lim), c.netPnl, lim)
  }

  function RecordAll(p: Portfolio, cs: seq<Closure>, lim: Limits): Portfolio {
    if cs == [] then p else RecordClosed(RecordAll(p, cs[..|cs| - 1], lim), cs[|cs| - 1], lim)
  }

  function ApplyDue(p: Portfolio, step: int, lim: Limits): Portfolio {
    if step in p.due then RecordAll(p.(due := p.due - {step}), p.due[step], lim) else p
  }

  predicate CanExecute(p: Portfolio, symbol: string, step: int, date: Date, lim: Limits) {
    && !p.halted
    && symbol !in p.open
    && |p.open| < lim.maxOpen
    && step > Get(p.cooldownUntil, symbol, -1)
    && Get(p.dailyTrades, date, 0) < lim.maxPerDay
  }

  function ResolveCloseStep(v: ExecutionView, step: int): int {
    match v.closedAtStep
    case Some(close) => close
    case None => if v.holdCandles.Some? then step + v.holdCandles.value else step
  }

  function NetTradePnl(v: ExecutionView): Option<real> {
    match v.realizedPnl
    case None => None
    case Some(pnl) => Some(if v.feesPaid.Some? then pnl - v.feesPaid.value else pnl)
  }

  /** A missing or zero execution price falls back to the signal's entry. */
  function TrackedEntryPrice(s: Signal, v: ExecutionView): real {
    if v.entryPrice.Some? && v.entryPrice.value != 0.0 then v.entryPrice.value else s.entry
  }

  function ClosureOf(s: Signal, v: ExecutionView, step: int, date: Date): Closure {
    Closure(s.symbol, ResolveCloseStep(v, step), date, NetTradePnl(v))
  }

  function Track(p: Portfolio, s: Signal, v: ExecutionView, step: int, date: Date, lim: Limits): Portfolio {
    if !v.executed then p
    else
      var c := ClosureOf(s, v, step, date);
      var q := p.(open := p.open[s.symbol :=
        OpenPosition(s.symbol, s.direction, TrackedEntryPrice(s, v), s.stop, s.target, step, c.closeStep)]);
      if c.closeStep <= step then RecordClosed(q, c, lim)
      else q.(due := q.due[c.closeStep := (if c.closeStep in q.due then q.due[c.closeStep] else []) + [c]])
  }

  // ----- the run -----

  /** A strategy is a pure function of the candle window; a service may look at all later candles. */
  datatype Setup<!R> = Setup(
    required: pos,
    strategy: seq<Candle> -> Option<Signal>,
    service: (Signal, seq<Candle>, int, nat) -> (R, nat),
    view: R -> ExecutionView,
    limits: Limits)

  datatype StepRecord<+R> = StepRecord(step: int, snapshot: seq<Candle>, signal: Option<Signal>, execution: Option<R>)

  datatype Machine = Machine(portfolio: Portfolio, draws: nat)

  predicate InRange<R>(u: Setup<R>, candles: seq<Candle>, step: int) {
    u.required - 1 <= step < |candles|
  }

  function Snapshot<R>(u: Setup<R>, candles: seq<Candle>, step: int): (window: seq<Candle>)
    requires InRange(u, candles, step)
    ensures |window| == u.required && window[|window| - 1] == candles[step]
  {
    candles[step - u.required + 1..step + 1]
  }

  function DateAt(candles: seq<Candle>, step: int): Date
    requires 0 <= step < |candles|
  {
    candles[step].openedAt.date
  }

  /** The portfolio a step decides with: the day turned over and the closures due now booked. */
  function Settled(p: Portfolio, candles: seq<Candle>, step: int, lim: Limits): Portfolio
    requires 0 <= step < |candles|
  {
    ApplyDue(ResetDaily(p, DateAt(candles, step)), step, lim)
  }

  function StepOnce<R>(u: Setup<R>, candles: seq<Candle>, m: Machine, step: int): (Machine, StepRecord<R>)
    requires InRange(u, candles, step)
  {
    var date := DateAt(candles, step);
    var p := Settled(m.portfolio, candles, step, u.limits);
    var window := Snapshot(u, candles, step);
    var signal := u.strategy(window);
    if signal.Some? && CanExecute(p, signal.value.symbol, step, date, u.limits) then
      var (execution, draws) := u.service(signal.value, candles[step + 1..], step, m.draws);
      (Machine(Track(p, signal.value, u.view(execution), step, date, u.limits), draws),
       StepRecord(step, window, signal, Some(execution)))
    else
      (Machine(p, m.draws), StepRecord(step, window, signal, None))
  }

  /** The machine and the records after the steps `start .. end` (exclusive). */
  function Run<R>(u: Setup<R>, candles: seq<Candle>, start: int, end: int): (Machine, seq<StepRecord<R>>)
    requires u.required - 1 <= start <= end <= |candles|
    decreases end
  {
    if start == end then (Machine(EMPTY_PORTFOLIO, 0), [])
    else
      var (m, records) := Run(u, candles, start, end - 1);
      var (m', record) := StepOnce(u, candles, m, end - 1);
      (m', records + [record])
  }

  datatype ReplayError = TooFewCandles | StartTooEarly | EndBeforeStart | EndBeyondData | NegativeBound

  /** First step and the step after the last. */
  datatype StepBounds = StepBounds(start: int, end: int)

  /** The step range of a candle request, or the error it is refused with. */
  function StepRange(required: pos, count: nat, startStep: Option<int>, endStep: Option<int>): Result<StepBounds, ReplayError> {
    var start := if startStep.Some? then startStep.value else required - 1;
    var end := if endStep.Some? then endStep.value else count;
    if (startStep.Some? && start < 0) || (endStep.Some? && end < 0) then Err(NegativeBound)
    else if count < required then Err(TooFewCandles)
    else if start < required - 1 then Err(StartTooEarly)
    else if end < start then Err(EndBeforeStart)
    else if end > count then Err(EndBeyondData)
    else Ok(StepBounds(start, end))
  }

  /** Which requests are served, and which error the others get: negative bounds first, then too little data, then
      each end. */
  lemma StepRangeIsValid(required: pos, count: nat, startStep: Option<int>, endStep: Option<int>)
    ensures
      var range := StepRange(required, count, startStep, endStep);
      var first := if startStep.Some? then startStep.value else required - 1;
      var last := if endStep.Some? then endStep.value else count;
      && (range.Ok? <==> required - 1 <= first <= last <= count && required <= count)
      && (range.Ok? ==> range.value == StepBounds(first, last))
      && (range == Err(NegativeBound) <==>
            (startStep.Some? && startStep.value < 0) || (endStep.Some? && endStep.value < 0))
      && (range == Err(TooFewCandles) <==> range != Err(NegativeBound) && count < required)
      && (range == Err(StartTooEarly) <==> range != Err(NegativeBound) && first < required - 1 && required <= count)
      && (range == Err(EndBeforeStart) <==>
            range != Err(NegativeBound) && required <= count && required - 1 <= first && last < first)
      && (range == Err(EndBeyondData) <==>
            range != Err(NegativeBound) && required <= count && required - 1 <= first <= last && count < last)
  {
  }

  // ----- the runner, in its own imperative form -----

  class ReplayPortfolioState {
    var open: map<string, OpenPosition>
    var cooldownUntil: map<string, int>
    var dailyTrades: map<Date, int>
    var losses: int
    var halted: bool
    var date: Option<Date>
    var due: map<int, seq<Closure>>

    constructor ()
      ensures View() == EMPTY_PORTFOLIO
    {
      open, cooldownUntil, dailyTrades, due := map[], map[], map[], map[];
      losses, halted, date := 0, false, None;
    }

    function View(): Portfolio
      reads this
    {
      Portfolio(open, cooldownUntil, dailyTrades, losses, halted, date, due)
    }

    method ResetDailyCircuitBreaker(today: Date)
      modifies this
      ensures View() == ResetDaily(old(View()), today)
    {
      if date == Some(today) {
        return;
      }
      date := Some(today);
      losses := 0;
      halted := false;
    }

    method RecordClosedTrade(c: Closure, lim: Limits)
      modifies this
      ensures View() == RecordClosed(old(View()), c, lim)
    {
      open := open - {c.symbol};
      cooldownUntil := cooldownUntil[c.symbol := c.closeStep + lim.cooldown];
      dailyTrades := dailyTrades[c.entryDate := Get(dailyTrades, c.entryDate, 0) + 1];
      if c.netPnl == None {
        return;
      }
      if c.netPnl.value < 0.0 {
        losses := losses + 1;
        if losses >= lim.hardPause {
          halted := true;
        }
        return;
      }
      if c.netPnl.value > 0.0 {
        losses := 0;
      }
    }

    method ApplyScheduledClosures(step: int, lim: Limits)
      modifies this
      ensures View() == ApplyDue(old(View()), step, lim)
    {
      if step !in due {
        return;
      }
      var closures := due[step];
      due := due - {step};
      ghost var p := View();
      for i := 0 to |closures|
        invariant View() == RecordAll(p, closures[..i], lim)
      {
        RecordClosedTrade(closures[i], lim);
        assert closures[..i + 1][..i] == closures[..i];
      }
      assert closures[..|closures|] == closures;
    }

    method TrackExecution(s: Signal, v: ExecutionView, step: int, entryDate: Date, lim: Limits)
      modifies this
      ensures View() == Track(old(View()), s, v, step, entryDate, lim)
    {
      if !v.executed {
        return;
      }
      var closeStep := ResolveCloseStep(v, step);
      open := open[s.symbol :=
        OpenPosition(s.symbol, s.direction, TrackedEntryPrice(s, v), s.stop, s.target, step, closeStep)];
      var closure := Closure(s.symbol, closeStep, entryDate, NetTradePnl(v));
      if closeStep <= step {
        RecordClosedTrade(closure, lim);
        return;
      }
      if closeStep !in due {
        due := due[closeStep := []];
      }
      due := due[closeStep := due[closeStep] + [closure]];
      assert View() == Track(old(View()), s, v, step, entryDate, lim);
    }
  }

  class HistoricalReplayRunner<R> {
    const u: Setup<R>

    constructor (u: Setup<R>)
      ensures this.u == u
    {
      this.u := u;
    }

    /** The body of the replay loop: turn the day, settle, ask the strategy, execute and track. */
    method ReplayStep(state: ReplayPortfolioState, candles: seq<Candle>, step: int, draws: nat)
      returns (record: StepRecord<R>, draws': nat)
      requires InRange(u, candles, step)
      modifies state
      ensures (Machine(state.View(), draws'), record) == StepOnce(u, candles, Machine(old(state.View()), draws), step)
      ensures record.step == step && record.snapshot == candles[step - u.required + 1..step + 1]
      ensures record.signal == u.strategy(candles[step - u.required + 1..step + 1])
    {
      var window := Snapshot(u, candles, step);
      var date := window[|window| - 1].openedAt.date;
      state.ResetDailyCircuitBreaker(date);
      state.ApplyScheduledClosures(step, u.limits);
      var signal := u.strategy(window);
      var execution: Option<R> := None;
      draws' := draws;
      if signal.Some? && CanExecute(state.View(), signal.value.symbol, step, date, u.limits) {
        var served := u.service(signal.value, candles[step + 1..], step, draws);
        var outcome := served.0;
        draws' := served.1;
        execution := Some(outcome);
        state.TrackExecution(signal.value, u.view(outcome), step, date, u.limits);
      }
      record := StepRecord(step, window, signal, execution);
    }

    method Replay(candles: seq<Candle>, startStep: Option<int>, endStep: Option<int>)
      returns (result: Result<seq<StepRecord<R>>, ReplayError>)
      ensures
        var range := StepRange(u.required, |candles|, startStep, endStep);
        result == if range.Err? then Err(range.error) else Ok(Run(u, candles, range.value.start, range.value.end).1)
      ensures result.Ok? ==>
        var first := if startStep.Some? then startStep.value else u.required - 1;
        forall k :: 0 <= k < |result.value| ==>
          && result.value[k].step == first + k
          && 0 <= first + k - u.required + 1 <= first + k < |candles|
          && result.value[k].snapshot == candles[first + k - u.required + 1..first + k + 1]
    {
      hide StepOnce, StepRange;
      StepRangeIsValid(u.required, |candles|, startStep, endStep);
      var range := StepRange(u.required, |candles|, startStep, endStep);
      if range.Err? {
        return Err(range.error);
      }
      var StepBounds(start, end) := range.value;
      var records: seq<StepRecord<R>> := [];
      var state := new ReplayPortfolioState();
      var draws: nat := 0;
      var step := start;
      while step < end
        invariant start <= step <= end
        invariant fresh(state)
        invariant (Machine(state.View(), draws), records) == Run(u, candles, start, step)
        invariant |records| == step - start
        invariant forall k :: 0 <= k < |records| ==>
          records[k].step == start + k && records[k].snapshot == candles[start + k - u.required + 1..start + k + 1]
      {
        var record;
        record, draws := ReplayStep(state, candles, step, draws);
        records := records + [record];
        step := step + 1;
      }
      return Ok(records);
    }
  }
}

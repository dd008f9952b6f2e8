/** Why the no-look-ahead theorem asks what it asks: dropping any one of its conditions lets a decision depend on later
    candles. */
module LookAheadLimits {
  import opened Prelude
  import opened Market
  import opened Simulation
  import opened SimulationLaws
  import opened Replay
  import opened SimulatedReplay
  import opened NoLookAhead

  // ----- two steps of a replay, the first of which enters -----

  function Always(signal: Signal): seq<Candle> -> Option<Signal> {
    window => Some(signal)
  }

  /** The run from the step before last to the last step before n, unfolded. */
  lemma TwoSteps(strategy: seq<Candle> -> Option<Signal>, cfg: SimConfig, lim: Limits, candles: seq<Candle>, n: int)
    requires 2 <= n <= |candles|
    ensures
      var u := SimSetup(1, strategy, cfg, lim);
      var (m1, r1) := StepOnce(u, candles, Machine(EMPTY_PORTFOLIO, 0), n - 2);
      var r2 := StepOnce(u, candles, m1, n - 1).1;
      Run(u, candles, n - 2, n).1 == [r1, r2]
  {
    hide StepOnce, SimSetup;
    SimSetupFields(1, strategy, cfg, lim);
    var u := SimSetup(1, strategy, cfg, lim);
    var (m1, r1) := StepOnce(u, candles, Machine(EMPTY_PORTFOLIO, 0), n - 2);
    var r2 := StepOnce(u, candles, m1, n - 1).1;
    assert Run(u, candles, n - 2, n - 2) == (Machine(EMPTY_PORTFOLIO, 0), []);
    assert [] + [r1] == [r1];
    assert Run(u, candles, n - 2, n - 1) == (m1, [r1]);
    assert [r1] + [r2] == [r1, r2];
  }

  lemma SingleWindow(strategy: seq<Candle> -> Option<Signal>, cfg: SimConfig, lim: Limits, candles: seq<Candle>, t: int)
    requires 0 <= t < |candles|
    ensures Snapshot(SimSetup(1, strategy, cfg, lim), candles, t) == [candles[t]]
  {
  }

  /** Nothing hinders the first entry of a replay. */
  lemma FirstEntry(candles: seq<Candle>, t: int, symbol: string, lim: Limits)
    requires 0 <= t < |candles| && lim.maxOpen == 1 && lim.maxPerDay == 10
    ensures
      var p := Settled(EMPTY_PORTFOLIO, candles, t, lim);
      p == EMPTY_PORTFOLIO.(date := Some(DateAt(candles, t))) && CanExecute(p, symbol, t, DateAt(candles, t), lim)
  {
  }

  // ----- data that ends at the shared candles -----

  function Beneath(x: real): (y: real)
    ensures y < x
  {
    if x > 0.0 then x / 2.0 else x - 1.0
  }

  function Above(x: real): (y: real)
    ensures y > x
  {
    if x > 0.0 then x * 2.0 else 1.0
  }

  function CostFree(maxHold: nat): SimConfig {
    SimConfig(maxHold, 1.0, 0.0, 0.0, NeverMaker, 0.0, 0.0, false, Derivatives, 0.0, symbol => 0.0)
  }

  /** Stop and target lie outside the candle, so the candle touches neither. */
  function Wide(symbol: string, candle: Candle): Signal {
    Signal(symbol, Long, Beneath(candle.low) + 1.0, Beneath(candle.low), Above(candle.high))
  }

  /** Wants another symbol on the given candle than on any other. */
  function SwitchAt(candle: Candle): seq<Candle> -> Option<Signal> {
    window => Some(Wide(if window == [candle] then "B" else "A", candle))
  }

  /** Reentering one symbol on the step it closes at takes a negative cooldown, which the runner does not refuse. */
  function CutLimits(twins: bool): Limits {
    Limits(1, 10, if twins then -1 else 0, 5)
  }

  lemma CostFreePrepares(maxHold: nat, s: Signal, future: seq<Candle>, step: int)
    requires future != [] && s.direction == Long && s.entry == s.stop + 1.0
    ensures Prepare(CostFree(maxHold), s, future, step, 0) == (Ready(Prepared(s.entry, s.entry, 0.0, s.stop, s.target, 1.0)), 0)
  {
    assert EntryPrice(CostFree(maxHold), Long, s.entry, false) == s.entry;
    assert Quantity(CostFree(maxHold), s.entry, s.stop) == 1.0;
  }

  /** The position times out on the first candle when there is no other, and is still held there otherwise. */
  lemma WideExecution(symbol: string, future: seq<Candle>, step: int)
    requires future != []
    ensures
      var r := Execute(CostFree(2), Wide(symbol, future[0]), future, step, 0).0;
      !r.skipped && r.closedAtStep == step + (if |future| == 1 then 1 else 2)
  {
    var s := Wide(symbol, future[0]);
    var p := Prepared(s.entry, s.entry, 0.0, s.stop, s.target, 1.0);
    CostFreePrepares(2, s, future, step);
    ExitsAtFirstTouch(CostFree(2), Long, p, future, step, 0);
    assert !Touches(Long, p, Window(CostFree(2), future)[0]);
    hide Prepare, Exit;
  }

  /** The portfolio after an entry at step t that closes later. */
  lemma EntryOpens(s: Signal, r: SimResult, t: int, d: Date, lim: Limits)
    requires !r.skipped && r.closedAtStep > t
    ensures
      var p := Track(EMPTY_PORTFOLIO.(date := Some(d)), s, SimView(r), t, d, lim);
      var c := Closure(s.symbol, r.closedAtStep, d, Some(r.realizedPnl - r.feesPaid));
      HoldsOne(p, c)
  {
    assert [] + [Closure(s.symbol, r.closedAtStep, d, Some(r.realizedPnl - r.feesPaid))]
        == [Closure(s.symbol, r.closedAtStep, d, Some(r.realizedPnl - r.feesPaid))];
  }

  /** A position is held, due at `c.closeStep`, and nothing has been booked. */
  ghost predicate HoldsOne(p: Portfolio, c: Closure) {
    && p.open.Keys == {c.symbol} && p.due == map[c.closeStep := [c]] && p.date.Some?
    && p == EMPTY_PORTFOLIO.(date := p.date, open := p.open, due := p.due)
  }

  lemma NewDayHoldsOne(p: Portfolio, c: Closure, d: Date)
    requires HoldsOne(p, c)
    ensures HoldsOne(ResetDaily(p, d), c) && ResetDaily(p, d).date == Some(d)
  {
  }

  /** On the step it is due the position leaves, and only its cooldown and its count remain. */
  lemma DueLeaves(q: Portfolio, c: Closure, t: int, symbol: string, d: Date, lim: Limits)
    requires HoldsOne(q, c) && c.closeStep == t && t >= 1
    requires lim.maxOpen == 1 && lim.maxPerDay == 10 && lim.hardPause == 5 && (symbol == c.symbol ==> lim.cooldown == -1)
    ensures CanExecute(ApplyDue(q, t, lim), symbol, t, d, lim)
  {
    var q1 := q.(due := q.due - {t});
    assert [c][..0] == [];
    assert RecordAll(q1, [c], lim) == RecordClosed(q1, c, lim);
    assert q1.open - {c.symbol} == map[];
  }

  /** At the next step the position is gone when it was due there, and occupies the only place otherwise. */
  lemma NextStepDecides(p: Portfolio, candles: seq<Candle>, t: int, c: Closure, symbol: string, lim: Limits)
    requires 1 <= t < |candles| && HoldsOne(p, c) && c.closeStep >= t
    requires lim.maxOpen == 1 && lim.maxPerDay == 10 && lim.hardPause == 5 && (symbol == c.symbol ==> lim.cooldown == -1)
    ensures CanExecute(Settled(p, candles, t, lim), symbol, t, DateAt(candles, t), lim) <==> c.closeStep == t
  {
    hide RecordAll, ResetDaily;
    var d := DateAt(candles, t);
    var q := ResetDaily(p, d);
    NewDayHoldsOne(p, c, d);
    if c.closeStep == t {
      DueLeaves(q, c, t, symbol, d, lim);
    } else {
      assert |q.open| == |q.open.Keys| == 1;
    }
  }

  lemma CutRun(candles: seq<Candle>, n: int)
    requires 2 <= n <= |candles|
    ensures
      var u := SimSetup(1, SwitchAt(candles[n - 1]), CostFree(2), CutLimits(candles[n - 2] == candles[n - 1]));
      var records := Run(u, candles, n - 2, n).1;
      |records| == 2 && (records[1].execution.Some? <==> |candles| == n)
  {
    hide Execute, StepOnce, SimSetup, CanExecute, Settled, Track, Run, Snapshot, Wide, CostFree;
    var last, twins := candles[n - 1], candles[n - 2] == candles[n - 1];
    var strategy, cfg, lim := SwitchAt(last), CostFree(2), CutLimits(twins);
    SimSetupFields(1, strategy, cfg, lim);
    TwoSteps(strategy, cfg, lim, candles, n);
    SingleWindow(strategy, cfg, lim, candles, n - 2);
    SingleWindow(strategy, cfg, lim, candles, n - 1);
    assert [candles[n - 2]] == [last] <==> twins by { OneCandle(candles[n - 2], last); }
    var s := Wide(if twins then "B" else "A", last);
    assert s.symbol == if twins then "B" else "A" by { WideSymbol(if twins then "B" else "A", last); }
    WideSymbol("B", last);
    SimStepForm(1, strategy, cfg, lim, candles, n - 2, Machine(EMPTY_PORTFOLIO, 0));
    FirstEntry(candles, n - 2, s.symbol, lim);
    WideExecution(s.symbol, candles[n - 1..], n - 2);
    var d := DateAt(candles, n - 2);
    var (r, draws) := Execute(cfg, s, candles[n - 1..], n - 2, 0);
    EntryOpens(s, r, n - 2, d, lim);
    var p := Track(EMPTY_PORTFOLIO.(date := Some(d)), s, SimView(r), n - 2, d, lim);
    SimStepForm(1, strategy, cfg, lim, candles, n - 1, Machine(p, draws));
    NextStepDecides(p, candles, n - 1, Closure(s.symbol, r.closedAtStep, d, Some(r.realizedPnl - r.feesPaid)), "B", lim);
  }

  lemma OneCandle(x: Candle, y: Candle)
    ensures [x] == [y] <==> x == y
  {
    assert [x] == [y] ==> [x][0] == [y][0];
  }

  lemma WideSymbol(symbol: string, candle: Candle)
    ensures Wide(symbol, candle).symbol == symbol
  {
  }

  /** A history that stops at candle n closes its position there, which frees the place one step early: whenever
      exactly one of two histories stops at their n shared candles, some strategy enters at step n - 1 on the one
      that stops and not on the other. */
  lemma EndOfDataIsVisible(a: seq<Candle>, b: seq<Candle>, n: int)
    requires 2 <= n == |a| < |b| && a[..n] == b[..n]
    ensures
      var u := SimSetup(1, SwitchAt(a[n - 1]), CostFree(2), CutLimits(a[n - 2] == a[n - 1]));
      var ra, rb := Run(u, a, n - 2, n).1, Run(u, b, n - 2, n).1;
      |ra| == |rb| == 2 && ra[1].execution.Some? && rb[1].execution.None?
  {
    hide Run, SimSetup;
    assert a[n - 1] == a[..n][n - 1] == b[..n][n - 1] == b[n - 1];
    assert a[n - 2] == a[..n][n - 2] == b[..n][n - 2] == b[n - 2];
    CutRun(a, n);
    CutRun(b, n);
  }

  /** The settings under which the theorem promises that step t is decided alike. */
  ghost predicate DecidedAlike(required: pos, strategy: seq<Candle> -> Option<Signal>, cfg: SimConfig, lim: Limits,
                               a: seq<Candle>, b: seq<Candle>, n: int, start: int, t: int)
    requires n <= |a| && n <= |b|
  {
    cfg.maxHold >= 1 && (cfg.maker.DrawnMaker? ==> lim.maxOpen <= 1) && required - 1 <= start <= t < n ==>
      var u := SimSetup(required, strategy, cfg, lim);
      var ra, rb := Run(u, a, start, n).1, Run(u, b, start, n).1;
      |ra| == |rb| == n - start && SeenAlike(ra[t - start], rb[t - start], n)
  }

  /** Two histories with the same first n candles are decided alike up to n by every replay exactly when they are
      the same or both go on. */
  lemma SharedPastIsExact(a: seq<Candle>, b: seq<Candle>, n: int)
    requires 2 <= n <= |a| && n <= |b| && a[..n] == b[..n]
    ensures SharedPast(a, b, n) <==>
            forall required: pos, strategy, cfg, lim, start, t :: DecidedAlike(required, strategy, cfg, lim, a, b, n, start, t)
  {
    hide Run, SimSetup, SeenAlike, CutLimits, SwitchAt;
    if SharedPast(a, b, n) {
      forall required: pos, strategy, cfg, lim, start, t ensures DecidedAlike(required, strategy, cfg, lim, a, b, n, start, t) {
        if cfg.maxHold >= 1 && (cfg.maker.DrawnMaker? ==> lim.maxOpen <= 1) && required - 1 <= start <= t < n {
          DecisionsDoNotSeeTheFuture(required, strategy, cfg, lim, a, b, start, n, n, n, t);
        }
      }
    } else if |a| == n {
      CutIsToldApart(a, b, n);
    } else {
      CutIsToldApart(b, a, n);
      AlikeIsSymmetric(1, SwitchAt(b[n - 1]), CostFree(2), CutLimits(b[n - 2] == b[n - 1]), a, b, n, n - 2, n - 1);
    }
  }

  lemma CutIsToldApart(a: seq<Candle>, b: seq<Candle>, n: int)
    requires 2 <= n == |a| < |b| && a[..n] == b[..n]
    ensures !DecidedAlike(1, SwitchAt(a[n - 1]), CostFree(2), CutLimits(a[n - 2] == a[n - 1]), a, b, n, n - 2, n - 1)
  {
    hide Run, SimSetup, CutLimits, SwitchAt;
    EndOfDataIsVisible(a, b, n);
  }

  lemma AlikeIsSymmetric(required: pos, strategy: seq<Candle> -> Option<Signal>, cfg: SimConfig, lim: Limits,
                         a: seq<Candle>, b: seq<Candle>, n: int, start: int, t: int)
    requires n <= |a| && n <= |b|
    ensures DecidedAlike(required, strategy, cfg, lim, a, b, n, start, t) ==> DecidedAlike(required, strategy, cfg, lim, b, a, n, start, t)
  {
    hide Run, SimSetup;
  }

  // ----- a hold limit of zero -----

  /** Bought between two prices: it gains at the higher and loses at the lower. */
  function Between(low: real, high: real): Signal {
    Signal("A", Long, (low + high) / 2.0, (low + high) / 2.0 - 1.0, (low + high) / 2.0 + 1.0)
  }

  const HALT_ON_LOSS := Limits(1, 10, 0, 1)

  lemma ZeroHoldExecution(s: Signal, future: seq<Candle>, step: int)
    requires future != [] && s.direction == Long && s.entry == s.stop + 1.0
    ensures
      var r := Execute(CostFree(0), s, future, step, 0).0;
      && !r.skipped && r.closedAtStep == step
      && r.realizedPnl - r.feesPaid == future[|future| - 1].close - s.entry
  {
    CostFreePrepares(0, s, future, step);
    var p := Prepared(s.entry, s.entry, 0.0, s.stop, s.target, 1.0);
    ZeroHoldReadsTheLastCandle(CostFree(0), Long, p, future, step, 0);
    ZeroHoldResult(p, future, step);
    hide Prepare;
  }

  lemma ZeroHoldResult(p: Prepared, future: seq<Candle>, step: int)
    requires future != [] && p.qty == 1.0 && p.entryFee == 0.0
    ensures
      var r := Exit(CostFree(0), Long, p, future, step, 0).0;
      !r.skipped && r.realizedPnl - r.feesPaid == future[|future| - 1].close - p.entry
  {
    var close := future[|future| - 1].close;
    assert ApplySlippage(CostFree(0), close, Long) == close;
  }

  /** A position that closes on its own step leaves its result behind and nothing else that hinders the next step. */
  lemma ClosedAtOnce(s: Signal, r: SimResult, candles: seq<Candle>, t: int)
    requires 0 <= t && t + 1 < |candles| && !r.skipped && r.closedAtStep == t
    requires r.realizedPnl - r.feesPaid != 0.0 && DateAt(candles, t) == DateAt(candles, t + 1)
    ensures
      var d := DateAt(candles, t);
      var p := Track(EMPTY_PORTFOLIO.(date := Some(d)), s, SimView(r), t, d, HALT_ON_LOSS);
      CanExecute(Settled(p, candles, t + 1, HALT_ON_LOSS), s.symbol, t + 1, d, HALT_ON_LOSS) <==> r.realizedPnl - r.feesPaid > 0.0
  {
    var d := DateAt(candles, t);
    var p := Track(EMPTY_PORTFOLIO.(date := Some(d)), s, SimView(r), t, d, HALT_ON_LOSS);
    assert p.open == map[] && p.due == map[];
    assert Settled(p, candles, t + 1, HALT_ON_LOSS) == p;
  }

  lemma ZeroHoldRun(candles: seq<Candle>, n: int, s: Signal)
    requires 2 <= n <= |candles| && DateAt(candles, n - 2) == DateAt(candles, n - 1)
    requires s.direction == Long && s.entry == s.stop + 1.0 && candles[|candles| - 1].close != s.entry
    ensures
      var records := Run(SimSetup(1, Always(s), CostFree(0), HALT_ON_LOSS), candles, n - 2, n).1;
      |records| == 2 && (records[1].execution.Some? <==> candles[|candles| - 1].close > s.entry)
  {
    hide Execute, StepOnce, SimSetup, CanExecute, Settled, Track, Run, Snapshot, CostFree;
    var strategy, cfg, lim := Always(s), CostFree(0), HALT_ON_LOSS;
    SimSetupFields(1, strategy, cfg, lim);
    TwoSteps(strategy, cfg, lim, candles, n);
    SimStepForm(1, strategy, cfg, lim, candles, n - 2, Machine(EMPTY_PORTFOLIO, 0));
    FirstEntry(candles, n - 2, s.symbol, lim);
    ZeroHoldExecution(s, candles[n - 1..], n - 2);
    var d := DateAt(candles, n - 2);
    var (r, draws) := Execute(cfg, s, candles[n - 1..], n - 2, 0);
    var p := Track(EMPTY_PORTFOLIO.(date := Some(d)), s, SimView(r), n - 2, d, lim);
    SimStepForm(1, strategy, cfg, lim, candles, n - 1, Machine(p, draws));
    ClosedAtOnce(s, r, candles, n - 2);
  }

  /** With a hold limit of zero the very last close of the history decides whether a day goes on: two histories
      that share n candles, both go on, and end at different closes are decided differently at step n - 1 by some
      strategy. */
  lemma ZeroHoldSeesTheEnd(a: seq<Candle>, b: seq<Candle>, n: int)
    requires 2 <= n <= |a| && n <= |b| && a[..n] == b[..n] && DateAt(a, n - 2) == DateAt(a, n - 1)
    requires a[|a| - 1].close < b[|b| - 1].close
    ensures
      var u := SimSetup(1, Always(Between(a[|a| - 1].close, b[|b| - 1].close)), CostFree(0), HALT_ON_LOSS);
      var ra, rb := Run(u, a, n - 2, n).1, Run(u, b, n - 2, n).1;
      |ra| == |rb| == 2 && ra[1].execution.None? && rb[1].execution.Some?
  {
    hide Run, SimSetup;
    assert a[n - 1] == a[..n][n - 1] == b[..n][n - 1] == b[n - 1];
    assert a[n - 2] == a[..n][n - 2] == b[..n][n - 2] == b[n - 2];
    var s := Between(a[|a| - 1].close, b[|b| - 1].close);
    ZeroHoldRun(a, n, s);
    ZeroHoldRun(b, n, s);
  }

  // ----- random maker fills -----

  const DAY := Date(2024, 1, 1)

  function Quiet(tag: real): Candle {
    Candle(Moment(DAY, 0), tag, 100.0, 100.0, 100.0)
  }

  function Spike(high: real, low: real): Candle {
    Candle(Moment(DAY, 0), 100.0, high, low, 100.0)
  }

  function BuyOf(symbol: string): Signal {
    Signal(symbol, Long, 100.0, 50.0, 200.0)
  }

  /** A new symbol on each of the first three candles. */
  function Caller(window: seq<Candle>): Option<Signal> {
    if window == [Quiet(1.0)] then Some(BuyOf("A"))
    else if window == [Quiet(2.0)] then Some(BuyOf("B"))
    else Some(BuyOf("C"))
  }

  /** The second draw is a maker fill, all others are taker fills. */
  function Costly(): SimConfig {
    SimConfig(5, 5100.0, 0.0, 0.0, DrawnMaker(k => k == 1), 200.0, 0.0, false, Spot, 10150.0, symbol => 5.0)
  }

  const TWO_PLACES := Limits(2, 10, 0, 5)

  const BOUGHT := Prepared(100.0, 101.0, 0.0, 50.0, 200.0, 100.0)

  /** A fill at the taker price is affordable, a fill at the maker price is not. */
  lemma DrawnFill(symbol: string, future: seq<Candle>, step: int, draws: nat)
    requires future != []
    ensures Prepare(Costly(), BuyOf(symbol), future, step, draws)
         == (if draws == 1 then Finished(SkippedResult(100.0, step, InsufficientCapital)) else Ready(BOUGHT), draws + 1)
  {
    assert EntryPrice(Costly(), Long, 100.0, false) == 101.0;
    assert EntryPrice(Costly(), Long, 100.0, true) == 100.0;
    assert Quantity(Costly(), 101.0, 50.0) == 100.0;
    assert Quantity(Costly(), 100.0, 50.0) == 102.0;
  }

  /** Quiet candles and then a spike through the target or the stop. */
  predicate EndsInSpike(future: seq<Candle>, up: bool) {
    && 1 <= |future| <= 3 && future[|future| - 1] == (if up then Spike(200.0, 100.0) else Spike(100.0, 50.0))
    && forall i :: 0 <= i < |future| - 1 ==> future[i].high == 100.0 && future[i].low == 100.0
  }

  /** The exit waits for the spike, and draws again only for a target. */
  lemma SpikeExit(future: seq<Candle>, up: bool, step: int, draws: nat)
    requires EndsInSpike(future, up)
    ensures
      var (r, k) := Exit(Costly(), Long, BOUGHT, future, step, draws);
      !r.skipped && r.closedAtStep == step + |future| && k == if up then draws + 1 else draws
  {
    assert future[..Min(5, |future|)] == future;
    FirstTouchUnique(Long, BOUGHT, future, |future| - 1);
    ExitsAtFirstTouch(Costly(), Long, BOUGHT, future, step, draws);
    hide FirstTouch, StopResult, TargetResult, TimeoutResult;
  }

  lemma DrawnExecution(symbol: string, future: seq<Candle>, up: bool, step: int, draws: nat)
    requires EndsInSpike(future, up)
    ensures
      var (r, k) := Execute(Costly(), BuyOf(symbol), future, step, draws);
      && (r.skipped <==> draws == 1)
      && (!r.skipped ==> r.closedAtStep == step + |future| && k == if up then draws + 2 else draws + 1)
  {
    hide Prepare, Exit;
    DrawnFill(symbol, future, step, draws);
    SpikeExit(future, up, step, draws + 1);
  }

  /** Positions under the given symbols, all closing on step 3, and nothing booked yet. */
  ghost predicate Holding(p: Portfolio, names: set<string>) {
    && p.open.Keys == names && p == EMPTY_PORTFOLIO.(date := Some(DAY), open := p.open, due := p.due)
    && forall k :: k in p.due ==> k == 3
  }

  lemma HoldingDecides(p: Portfolio, names: set<string>, candles: seq<Candle>, t: int, symbol: string)
    requires Holding(p, names) && 0 <= t < |candles| && t < 3 && DateAt(candles, t) == DAY
    ensures Settled(p, candles, t, TWO_PLACES) == p
    ensures CanExecute(p, symbol, t, DAY, TWO_PLACES) <==> symbol !in names && |names| < 2
  {
    assert |p.open| == |p.open.Keys|;
  }

  lemma HoldingGrows(p: Portfolio, names: set<string>, s: Signal, r: SimResult, t: int)
    requires Holding(p, names) && t < 3 && (!r.skipped ==> r.closedAtStep == 3)
    ensures Holding(Track(p, s, SimView(r), t, DAY, TWO_PLACES), if r.skipped then names else names + {s.symbol})
  {
    var q := Track(p, s, SimView(r), t, DAY, TWO_PLACES);
    if !r.skipped { assert q.open.Keys == names + {s.symbol}; }
  }

  lemma DayBreaks(candles: seq<Candle>)
    requires candles != [] && DateAt(candles, 0) == DAY
    ensures Holding(Settled(EMPTY_PORTFOLIO, candles, 0, TWO_PLACES), {})
    ensures CanExecute(Settled(EMPTY_PORTFOLIO, candles, 0, TWO_PLACES), "A", 0, DAY, TWO_PLACES)
  {
  }

  function UpOrDown(up: bool): seq<Candle> {
    [Quiet(1.0), Quiet(2.0), Quiet(3.0), if up then Spike(200.0, 100.0) else Spike(100.0, 50.0)]
  }

  lemma ThreeSteps(u: Setup<SimResult>, candles: seq<Candle>)
    requires u.required == 1 && |candles| >= 3
    ensures
      var (m1, r1) := StepOnce(u, candles, Machine(EMPTY_PORTFOLIO, 0), 0);
      var (m2, r2) := StepOnce(u, candles, m1, 1);
      var r3 := StepOnce(u, candles, m2, 2).1;
      Run(u, candles, 0, 3).1 == [r1, r2, r3]
  {
    hide StepOnce;
    var (m1, r1) := StepOnce(u, candles, Machine(EMPTY_PORTFOLIO, 0), 0);
    var (m2, r2) := StepOnce(u, candles, m1, 1);
    var r3 := StepOnce(u, candles, m2, 2).1;
    assert Run(u, candles, 0, 0) == (Machine(EMPTY_PORTFOLIO, 0), []);
    assert [] + [r1] == [r1];
    assert Run(u, candles, 0, 1) == (m1, [r1]);
    assert [r1] + [r2] == [r1, r2];
    assert Run(u, candles, 0, 2) == (m2, [r1, r2]);
    assert [r1, r2] + [r3] == [r1, r2, r3];
  }

  /** Symbols, dates and futures along the history. */
  lemma AlongTheWay(up: bool)
    ensures
      var c := UpOrDown(up);
      && |c| == 4 && (forall t :: 0 <= t < 4 ==> DateAt(c, t) == DAY)
      && Caller([c[0]]) == Some(BuyOf("A")) && Caller([c[1]]) == Some(BuyOf("B")) && Caller([c[2]]) == Some(BuyOf("C"))
      && EndsInSpike(c[1..], up) && |c[1..]| == 3 && EndsInSpike(c[2..], up) && |c[2..]| == 2
  {
    var c := UpOrDown(up);
    assert [c[0]][0] == Quiet(1.0);
    assert [c[1]][0] == Quiet(2.0) && [Quiet(1.0)][0] == Quiet(1.0);
    assert [c[2]][0] == Quiet(3.0) && [Quiet(2.0)][0] == Quiet(2.0);
  }

  lemma SpikeRun(up: bool)
    ensures
      var records := Run(SimSetup(1, Caller, Costly(), TWO_PLACES), UpOrDown(up), 0, 3).1;
      |records| == 3 && (records[2].execution.Some? <==> !up)
  {
    hide Execute, StepOnce, SimSetup, CanExecute, Settled, Track, Run, Snapshot, Costly, Caller, UpOrDown, EndsInSpike, Holding;
    var c, cfg, lim := UpOrDown(up), Costly(), TWO_PLACES;
    SimSetupFields(1, Caller, cfg, lim);
    var u := SimSetup(1, Caller, cfg, lim);
    AlongTheWay(up);
    ThreeSteps(u, c);
    SingleWindow(Caller, cfg, lim, c, 0);
    SingleWindow(Caller, cfg, lim, c, 1);
    SingleWindow(Caller, cfg, lim, c, 2);
    var p0 := Settled(EMPTY_PORTFOLIO, c, 0, lim);
    DayBreaks(c);
    SimStepForm(1, Caller, cfg, lim, c, 0, Machine(EMPTY_PORTFOLIO, 0));
    DrawnExecution("A", c[1..], up, 0, 0);
    var (ra, ka) := Execute(cfg, BuyOf("A"), c[1..], 0, 0);
    HoldingGrows(p0, {}, BuyOf("A"), ra, 0);
    var p1 := Track(p0, BuyOf("A"), SimView(ra), 0, DAY, lim);
    assert {} + {"A"} == {"A"};
    HoldingDecides(p1, {"A"}, c, 1, "B");
    SimStepForm(1, Caller, cfg, lim, c, 1, Machine(p1, ka));
    DrawnExecution("B", c[2..], up, 1, ka);
    var (rb, kb) := Execute(cfg, BuyOf("B"), c[2..], 1, ka);
    HoldingGrows(p1, {"A"}, BuyOf("B"), rb, 1);
    var p2 := Track(p1, BuyOf("B"), SimView(rb), 1, DAY, lim);
    var held := if rb.skipped then {"A"} else {"A"} + {"B"};
    assert "A" != "B" && "C" !in held && |held| == if rb.skipped then 1 else 2;
    HoldingDecides(p2, held, c, 2, "C");
    SimStepForm(1, Caller, cfg, lim, c, 2, Machine(p2, kb));
  }

  /** Random maker fills and two places: two histories that share three candles and both go on are decided
      differently at the third. Whether the first position will leave by target or by stop decides which draw the
      second entry meets, hence whether it takes the second place. */
  lemma LaterOutcomesShiftTheGenerator()
    ensures
      var a, b := UpOrDown(true), UpOrDown(false);
      var u := SimSetup(1, Caller, Costly(), TWO_PLACES);
      var ra, rb := Run(u, a, 0, 3).1, Run(u, b, 0, 3).1;
      && SharedPast(a, b, 3) && Costly().maxHold >= 1
      && |ra| == |rb| == 3 && ra[2].execution.None? && rb[2].execution.Some?
  {
    hide Run, SimSetup, Caller;
    SpikeRun(true);
    SpikeRun(false);
    assert UpOrDown(true)[..3] == [Quiet(1.0), Quiet(2.0), Quiet(3.0)] == UpOrDown(false)[..3];
  }
}

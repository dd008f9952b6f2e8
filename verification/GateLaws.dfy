/** Conservation over months, and what the order of closes adds. */
module GateLaws {
  import opened Prelude
  import opened Market
  import opened Drawdown
  import opened Simulation
  import opened Replay
  import opened ReplayHistory
  import opened ReplayLaws
  import opened SimulatedReplay
  import opened Gate

  // ----- the monthly points partition the resolved trades -----

  function Trades(points: seq<MonthlyPoint>): nat {
    if points == [] then 0 else Trades(points[..|points| - 1]) + points[|points| - 1].trades
  }

  function Profit(points: seq<MonthlyPoint>): real {
    if points == [] then 0.0 else Profit(points[..|points| - 1]) + points[|points| - 1].pnl
  }

  function MonthsOf(points: seq<MonthlyPoint>): set<Month> {
    set p | p in points :: p.month
  }

  /** The executions that fall in a set of months. */
  function Within(candles: seq<Candle>, rs: seq<SimResult>, months: set<Month>): seq<SimResult> {
    if rs == [] then []
    else
      var r := rs[|rs| - 1];
      Within(candles, rs[..|rs| - 1], months) + (if Resolved(candles, r) && MonthOf(candles, r) in months then [r] else [])
  }

  lemma {:induction false} WithinAddsMonth(candles: seq<Candle>, rs: seq<SimResult>, months: set<Month>, m: Month)
    requires m !in months
    ensures |Within(candles, rs, months + {m})| == |Within(candles, rs, months)| + |InMonth(candles, rs, m)|
    ensures Sum(NetPnls(Within(candles, rs, months + {m})))
         == Sum(NetPnls(Within(candles, rs, months))) + Sum(NetPnls(InMonth(candles, rs, m)))
  {
    if rs != [] {
      var front, r := rs[..|rs| - 1], rs[|rs| - 1];
      WithinAddsMonth(candles, front, months, m);
      if Resolved(candles, r) && MonthOf(candles, r) in months + {m} {
        PnlSnoc(Within(candles, front, months + {m}), r);
        PnlSnoc(Within(candles, front, months), r);
        PnlSnoc(InMonth(candles, front, m), r);
      }
      assert Within(candles, front, months) + [] == Within(candles, front, months);
      assert InMonth(candles, front, m) + [] == InMonth(candles, front, m);
      assert Within(candles, front, months + {m}) + [] == Within(candles, front, months + {m});
    }
  }

  lemma PnlSnoc(rs: seq<SimResult>, r: SimResult)
    ensures Sum(NetPnls(rs + [r])) == Sum(NetPnls(rs)) + (r.realizedPnl - r.feesPaid)
  {
    NetPnlsSnoc(rs, r);
    SumSnoc(NetPnls(rs), r.realizedPnl - r.feesPaid);
  }

  lemma {:induction false} NoMonthsNoTrades(candles: seq<Candle>, rs: seq<SimResult>)
    ensures Within(candles, rs, {}) == []
  {
    if rs != [] {
      NoMonthsNoTrades(candles, rs[..|rs| - 1]);
    }
  }

  lemma {:induction false} EveryMonthIsAll(candles: seq<Candle>, rs: seq<SimResult>, months: set<Month>)
    requires forall r :: r in rs && Resolved(candles, r) ==> MonthOf(candles, r) in months
    ensures Within(candles, rs, months) == AllResolved(candles, rs)
  {
    if rs != [] {
      EveryMonthIsAll(candles, rs[..|rs| - 1], months);
    }
  }

  lemma {:induction false} ResolvedHasMonth(candles: seq<Candle>, rs: seq<SimResult>, r: SimResult)
    requires r in rs && Resolved(candles, r)
    ensures InMonth(candles, rs, MonthOf(candles, r)) != []
  {
    if r != rs[|rs| - 1] {
      ResolvedHasMonth(candles, rs[..|rs| - 1], r);
    }
  }

  lemma {:induction false} PointsCover(candles: seq<Candle>, rs: seq<SimResult>, points: seq<MonthlyPoint>)
    requires forall i :: 0 <= i < |points| ==> PointOf(points[i], InMonth(candles, rs, points[i].month))
    requires forall i, j :: 0 <= i < j < |points| ==> Before(points[i].month, points[j].month)
    ensures Trades(points) == |Within(candles, rs, MonthsOf(points))|
    ensures Profit(points) == Sum(NetPnls(Within(candles, rs, MonthsOf(points))))
  {
    hide PointOf, Within, InMonth, NetPnls, Sum, MonthsOf;
    if points == [] {
      NoPointsNoTrades(candles, rs);
    } else {
      var front, p := points[..|points| - 1], points[|points| - 1];
      assert forall i :: 0 <= i < |front| ==> front[i] == points[i];
      PointsCover(candles, rs, front);
      LastMonthIsNew(points);
      PointFigures(p, InMonth(candles, rs, p.month));
      WithinAddsMonth(candles, rs, MonthsOf(front), p.month);
    }
  }

  lemma NoPointsNoTrades(candles: seq<Candle>, rs: seq<SimResult>)
    ensures Within(candles, rs, MonthsOf([])) == [] && Sum(NetPnls([])) == 0.0
  {
    NoMonthsNoTrades(candles, rs);
    assert MonthsOf([]) == {};
    assert NetPnls([]) == [];
  }

  lemma LastMonthIsNew(points: seq<MonthlyPoint>)
    requires points != []
    requires forall i, j :: 0 <= i < j < |points| ==> Before(points[i].month, points[j].month)
    ensures
      var front, p := points[..|points| - 1], points[|points| - 1];
      p.month !in MonthsOf(front) && MonthsOf(points) == MonthsOf(front) + {p.month}
  {
    var front, p := points[..|points| - 1], points[|points| - 1];
    assert points == front + [p];
    assert MonthsOf(points) == MonthsOf(front) + {p.month};
  }

  lemma PointFigures(p: MonthlyPoint, rs: seq<SimResult>)
    requires PointOf(p, rs)
    ensures p.trades == |rs| && p.pnl == Sum(NetPnls(rs))
  {
    hide IsWorstDecline;
  }

  /** The points returned for a run account for every resolved trade exactly once, by number and by result. */
  lemma MonthsPartitionTheTrades(candles: seq<Candle>, rs: seq<SimResult>, points: seq<MonthlyPoint>, byMonth: map<Month, seq<SimResult>>)
    requires forall m :: m in byMonth <==> InMonth(candles, rs, m) != []
    requires forall m :: m in byMonth ==> byMonth[m] == InMonth(candles, rs, m)
    requires Listed(points, byMonth.Keys, byMonth)
    ensures Trades(points) == |AllResolved(candles, rs)|
    ensures Profit(points) == Sum(NetPnls(AllResolved(candles, rs)))
  {
    hide PointOf;
    PointsCover(candles, rs, points);
    forall r | r in rs && Resolved(candles, r)
      ensures MonthOf(candles, r) in MonthsOf(points)
    {
      ResolvedHasMonth(candles, rs, r);
    }
    EveryMonthIsAll(candles, rs, MonthsOf(points));
  }

  lemma {:induction false} AllInRangeIsAll(candles: seq<Candle>, rs: seq<SimResult>)
    requires forall r :: r in rs ==> Resolved(candles, r)
    ensures AllResolved(candles, rs) == rs
  {
    if rs != [] {
      var front, last := rs[..|rs| - 1], rs[|rs| - 1];
      assert rs == front + [last];
      assert last in rs;
      AllInRangeIsAll(candles, front);
    }
  }

  /** After a simulated replay over the whole data no trade is dropped from the months: their counts add up to the
      closed trades, which the runner's daily counters also add up to. */
  lemma NoTradeIsDropped(required: pos, strategy: seq<Candle> -> Option<Signal>, cfg: SimConfig, lim: Limits,
                         candles: seq<Candle>, start: int, points: seq<MonthlyPoint>, byMonth: map<Month, seq<SimResult>>)
    requires required - 1 <= start <= |candles|
    requires
      var rs := Executed(Executions(Run(SimSetup(required, strategy, cfg, lim), candles, start, |candles|).1));
      && (forall m :: m in byMonth <==> InMonth(candles, rs, m) != [])
      && (forall m :: m in byMonth ==> byMonth[m] == InMonth(candles, rs, m))
      && Listed(points, byMonth.Keys, byMonth)
    ensures
      var (m, records) := Run(SimSetup(required, strategy, cfg, lim), candles, start, |candles|);
      var rs := Executed(Executions(records));
      && |AllResolved(candles, rs)| == |rs|
      && Trades(points) == |rs| == MapSum(m.portfolio.dailyTrades)
      && Profit(points) == Sum(NetPnls(rs))
  {
    hide Run, Executed, Executions, MapSum, Listed;
    var rs := Executed(Executions(Run(SimSetup(required, strategy, cfg, lim), candles, start, |candles|).1));
    ReplayDrains(required, strategy, cfg, lim, candles, start);
    AllInRangeIsAll(candles, rs);
    MonthsPartitionTheTrades(candles, rs, points, byMonth);
  }

  // ----- drawdown by month -----

  /** Months never go backwards from one execution to the next. */
  ghost predicate MonthOrdered(candles: seq<Candle>, rs: seq<SimResult>) {
    && (forall i :: 0 <= i < |rs| ==> Resolved(candles, rs[i]))
    && (forall i, j :: 0 <= i < j < |rs| ==> !Before(MonthOf(candles, rs[j]), MonthOf(candles, rs[i])))
  }

  lemma {:induction false} MonthIsAStretch(candles: seq<Candle>, rs: seq<SimResult>, m: Month) returns (lo: nat, hi: nat)
    requires MonthOrdered(candles, rs)
    ensures lo <= hi <= |rs| && InMonth(candles, rs, m) == rs[lo..hi]
    ensures forall i :: 0 <= i < lo ==> Before(MonthOf(candles, rs[i]), m)
    ensures forall i :: hi <= i < |rs| ==> Before(m, MonthOf(candles, rs[i]))
  {
    if rs == [] {
      lo, hi := 0, 0;
    } else {
      var front, r := rs[..|rs| - 1], rs[|rs| - 1];
      assert forall i :: 0 <= i < |front| ==> front[i] == rs[i];
      lo, hi := MonthIsAStretch(candles, front, m);
      assert front[lo..hi] == rs[lo..hi];
      Trichotomy(MonthOf(candles, r), m);
      if MonthOf(candles, r) == m {
        assert hi == |front|;
        assert rs[lo..|rs|] == front[lo..hi] + [r];
        hi := |rs|;
      } else if Before(MonthOf(candles, r), m) {
        assert lo == hi == |front| by {
          forall i | 0 <= i < |front|
            ensures Before(MonthOf(candles, front[i]), m)
          {
            Trichotomy(MonthOf(candles, front[i]), MonthOf(candles, r));
          }
          if lo < hi {
            assert front[lo] in front[lo..hi];
            InMonthIsMonth(candles, front, m, front[lo]);
          }
        }
        lo, hi := |rs|, |rs|;
        assert InMonth(candles, rs, m) == [];
      }
    }
  }

  lemma {:induction false} InMonthIsMonth(candles: seq<Candle>, rs: seq<SimResult>, m: Month, r: SimResult)
    requires r in InMonth(candles, rs, m)
    ensures Resolved(candles, r) && MonthOf(candles, r) == m
  {
    if rs != [] && r in InMonth(candles, rs[..|rs| - 1], m) {
      InMonthIsMonth(candles, rs[..|rs| - 1], m, r);
    }
  }

  /** When executions come in month order, no month falls further than the whole run. */
  lemma MonthFallsNoFurther(candles: seq<Candle>, rs: seq<SimResult>, p: MonthlyPoint, whole: real)
    requires MonthOrdered(candles, rs)
    requires PointOf(p, InMonth(candles, rs, p.month)) && IsWorstDecline(NetPnls(rs), whole)
    ensures p.maxDrawdown <= whole
  {
    hide IsWorstDecline;
    var lo, hi := MonthIsAStretch(candles, rs, p.month);
    assert NetPnls(rs[lo..hi]) == NetPnls(rs)[lo..hi];
    StretchFallsNoFurther(NetPnls(rs), lo, hi, p.maxDrawdown, whole);
  }

  // ----- one position at a time closes in order -----

  ghost predicate OneByOne(es: seq<Entry>) {
    forall i, j :: 0 <= i < j < |es| ==> Settle(es[i]) <= es[j].openStep
  }

  lemma {:induction false} NoneOpen(es: seq<Entry>, t: int)
    requires CountOpen(es, t) == 0
    ensures forall i :: 0 <= i < |es| ==> Settle(es[i]) <= t
  {
    if es != [] {
      var front := es[..|es| - 1];
      NoneOpen(front, t);
      assert forall i :: 0 <= i < |front| ==> front[i] == es[i];
    }
  }

  lemma {:induction false} SinglePositionIsSequential<R>(u: Setup<R>, candles: seq<Candle>, start: int, end: int)
    requires u.required - 1 <= start <= end <= |candles| && u.limits.maxOpen <= 1
    ensures OneByOne(History(u, candles, start, end))
    decreases end
  {
    hide History, CountOpen;
    if start < end {
      SinglePositionIsSequential(u, candles, start, end - 1);
      var e := HistoryStep(u, candles, start, end - 1);
      var es := History(u, candles, start, end - 1);
      if e.Some? {
        NoneOpen(es, end - 1);
      } else {
        assert es + [] == es;
      }
    } else {
      EmptyHistory(u, candles, start);
    }
  }

  lemma EmptyHistory<R>(u: Setup<R>, candles: seq<Candle>, start: int)
    requires u.required - 1 <= start <= |candles|
    ensures History(u, candles, start, start) == []
  {
  }

  ghost predicate CandlesInOrder(candles: seq<Candle>) {
    forall i, j :: 0 <= i < j < |candles| ==>
      var d, e := candles[i].openedAt.date, candles[j].openedAt.date;
      !Before(Month(e.year, e.month), Month(d.year, d.month))
  }

  /** With one position at a time, as the gate replays, every month's drawdown is bounded by the overall one. */
  lemma GateMonthsFallNoFurther(required: pos, strategy: seq<Candle> -> Option<Signal>, cfg: SimConfig, lim: Limits,
                                candles: seq<Candle>, start: int, p: MonthlyPoint, whole: real)
    requires required - 1 <= start <= |candles| && lim.maxOpen <= 1 && CandlesInOrder(candles)
    requires
      var rs := Executed(Executions(Run(SimSetup(required, strategy, cfg, lim), candles, start, |candles|).1));
      PointOf(p, InMonth(candles, rs, p.month)) && IsWorstDecline(NetPnls(rs), whole)
    ensures p.maxDrawdown <= whole
  {
    hide Run, Executed, Executions, SimSetup, IsWorstDecline, History, PointOf;
    SimSetupFields(required, strategy, cfg, lim);
    var u := SimSetup(required, strategy, cfg, lim);
    var rs := Executed(Executions(Run(u, candles, start, |candles|).1));
    var es := History(u, candles, start, |candles|);
    HistoryIsTheExecutions(required, strategy, cfg, lim, candles, start, |candles|);
    SinglePositionIsSequential(u, candles, start, |candles|);
    ClosesInOrder(candles, es, rs);
    MonthFallsNoFurther(candles, rs, p, whole);
  }

  lemma ClosesInOrder(candles: seq<Candle>, es: seq<Entry>, rs: seq<SimResult>)
    requires |es| == |rs| && OneByOne(es) && CandlesInOrder(candles)
    requires forall i :: 0 <= i < |es| ==> 0 <= es[i].openStep <= Settle(es[i]) == rs[i].closedAtStep < |candles|
    ensures MonthOrdered(candles, rs)
  {
    forall i, j | 0 <= i < j < |rs|
      ensures !Before(MonthOf(candles, rs[j]), MonthOf(candles, rs[i]))
    {
      assert rs[i].closedAtStep == Settle(es[i]) <= es[j].openStep <= Settle(es[j]) == rs[j].closedAtStep;
    }
  }
}

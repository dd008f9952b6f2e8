/** backend/backtest/gate.py: the figures a backtest is judged by, and their split over calendar months. */
module Gate {
  import opened Prelude
  import opened Market
  import opened Drawdown
  import opened Simulation
  import opened SimulatedReplay

  datatype Month = Month(year: int, month: int)

  /** Order of the "%Y-%m" keys. */
  predicate Before(a: Month, b: Month) {
    a.year < b.year || (a.year == b.year && a.month < b.month)
  }

  predicate CalendarMonth(m: Month) {
    1 <= m.month <= 12
  }

  /** A ratio over a loss of zero is infinite when something was won and undefined otherwise. */
  datatype Ratio = Undefined | Infinite | Finite(value: real)

  datatype Metrics = Metrics(
    closedTrades: nat,
    winningTrades: nat,
    grossProfit: real,
    grossLoss: real,
    winRate: Option<real>,
    expectancy: Option<real>,
    profitFactor: Ratio,
    maxDrawdown: real,
    maxDrawdownPct: Option<real>,
    totalPnl: real,
    netPnl: real,
    feesPaid: real,
    slippagePaid: real)

  datatype MonthlyPoint = MonthlyPoint(
    month: Month, pnl: real, trades: nat, grossProfit: real, grossLoss: real, winRate: Option<real>, profitFactor: Ratio,
    maxDrawdown: real, maxDrawdownPct: Option<real>)

  // ----- sums over executions -----

  function NetPnls(rs: seq<SimResult>): seq<real> {
    seq(|rs|, i requires 0 <= i < |rs| => rs[i].realizedPnl - rs[i].feesPaid)
  }

  function Gains(pnls: seq<real>): real {
    if pnls == [] then 0.0
    else Gains(pnls[..|pnls| - 1]) + (if pnls[|pnls| - 1] > 0.0 then pnls[|pnls| - 1] else 0.0)
  }

  function Losses(pnls: seq<real>): real {
    if pnls == [] then 0.0
    else Losses(pnls[..|pnls| - 1]) + (if pnls[|pnls| - 1] < 0.0 then -pnls[|pnls| - 1] else 0.0)
  }

  function Wins(pnls: seq<real>): nat {
    if pnls == [] then 0 else Wins(pnls[..|pnls| - 1]) + (if pnls[|pnls| - 1] > 0.0 then 1 else 0)
  }

  function TotalPnl(rs: seq<SimResult>): real {
    SumBy(rs, (r: SimResult) => r.realizedPnl)
  }

  function FeesPaid(rs: seq<SimResult>): real {
    SumBy(rs, (r: SimResult) => r.feesPaid)
  }

  function SlippagePaid(rs: seq<SimResult>): real {
    SumBy(rs, (r: SimResult) => r.slippage * r.qty)
  }

  /** Nothing is divided by a loss of zero. */
  function ProfitFactor(gains: real, losses: real): (q: Ratio)
    ensures q.Finite? <==> losses != 0.0
    ensures q.Finite? ==> q.value * losses == gains
    ensures q == Infinite <==> losses == 0.0 && gains != 0.0
  {
    if losses == 0.0 then (if gains == 0.0 then Undefined else Infinite) else Finite(gains / losses)
  }

  /** A quotient that is left out when its base is not positive. */
  function Share(amount: real, base: real): (q: Option<real>)
    ensures q.Some? <==> base > 0.0
    ensures q.Some? ==> q.value * base == amount
  {
    if base > 0.0 then Some(amount / base) else None
  }

  predicate IsShare(q: Option<real>, amount: real, base: real) {
    (q.Some? <==> base > 0.0) && (q.Some? ==> q.value * base == amount)
  }

  method CalculateMetrics(executions: seq<SimResult>, equity: real) returns (m: Metrics)
    ensures
      var kept := Executed(executions);
      && m.closedTrades == |kept|
      && m.winningTrades == |set i | 0 <= i < |kept| && kept[i].realizedPnl > kept[i].feesPaid|
      && m.grossProfit == SumBy(kept, (r: SimResult) => if r.realizedPnl > r.feesPaid then r.realizedPnl - r.feesPaid else 0.0)
      && m.grossLoss == SumBy(kept, (r: SimResult) => if r.realizedPnl < r.feesPaid then r.feesPaid - r.realizedPnl else 0.0)
      && m.totalPnl == SumBy(kept, (r: SimResult) => r.realizedPnl)
      && m.feesPaid == SumBy(kept, (r: SimResult) => r.feesPaid)
      && m.slippagePaid == SumBy(kept, (r: SimResult) => r.slippage * r.qty)
      && m.grossProfit - m.grossLoss == m.netPnl == m.totalPnl - m.feesPaid
    ensures IsShare(m.winRate, m.winningTrades as real, m.closedTrades as real)
    ensures IsShare(m.expectancy, m.netPnl, m.closedTrades as real)
    ensures IsWorstDecline(NetPnls(Executed(executions)), m.maxDrawdown)
    ensures IsShare(m.maxDrawdownPct, m.maxDrawdown, equity)
    ensures m.grossLoss >= 0.0 && (m.profitFactor.Finite? <==> m.grossLoss > 0.0)
    ensures m.profitFactor.Finite? ==> m.profitFactor.value * m.grossLoss == m.grossProfit
    ensures m.profitFactor == Infinite <==> m.grossLoss == 0.0 && m.grossProfit > 0.0
  {
    hide Sum, Gains, Losses, Wins, NetPnls, Executed, IsWorstDecline, TotalPnl, FeesPaid, SlippagePaid, ProfitFactor, Share;
    hide SumBy;
    MetricsBalance(executions);
    FiguresAreSums(Executed(executions));
    GainsMinusLosses(NetPnls(Executed(executions)));
    var kept := Executed(executions);
    var pnls := NetPnls(kept);
    var drawdown := CalculateMaxDrawdown(pnls);
    var net, trades := Sum(pnls), |kept| as real;
    m := Metrics(|kept|, Wins(pnls), Gains(pnls), Losses(pnls), Share(Wins(pnls) as real, trades), Share(net, trades),
                 ProfitFactor(Gains(pnls), Losses(pnls)), drawdown, Share(drawdown, equity),
                 TotalPnl(kept), net, FeesPaid(kept), SlippagePaid(kept));
  }

  lemma {:induction false} GainsMinusLosses(pnls: seq<real>)
    ensures Gains(pnls) - Losses(pnls) == Sum(pnls)
    ensures Gains(pnls) >= 0.0 && Losses(pnls) >= 0.0
    ensures Gains(pnls) == 0.0 <==> Wins(pnls) == 0
    ensures Wins(pnls) <= |pnls|
  {
    if pnls != [] {
      GainsMinusLosses(pnls[..|pnls| - 1]);
    }
  }

  lemma NetPnlsSnoc(rs: seq<SimResult>, r: SimResult)
    ensures NetPnls(rs + [r]) == NetPnls(rs) + [r.realizedPnl - r.feesPaid]
  {
  }

  lemma {:induction false} NetIsTotalMinusFees(rs: seq<SimResult>)
    ensures Sum(NetPnls(rs)) == TotalPnl(rs) - FeesPaid(rs)
  {
    if rs != [] {
      var front, r := rs[..|rs| - 1], rs[|rs| - 1];
      NetIsTotalMinusFees(front);
      assert rs == front + [r];
      NetPnlsSnoc(front, r);
      SumSnoc(NetPnls(front), r.realizedPnl - r.feesPaid);
    }
  }

  /** A result wins by what it makes beyond its fees and loses by what it falls short of them. */
  lemma {:induction false} FiguresAreSums(rs: seq<SimResult>)
    ensures Gains(NetPnls(rs)) == SumBy(rs, (r: SimResult) => if r.realizedPnl > r.feesPaid then r.realizedPnl - r.feesPaid else 0.0)
    ensures Losses(NetPnls(rs)) == SumBy(rs, (r: SimResult) => if r.realizedPnl < r.feesPaid then r.feesPaid - r.realizedPnl else 0.0)
    ensures Wins(NetPnls(rs)) == |set i | 0 <= i < |rs| && rs[i].realizedPnl > rs[i].feesPaid|
    ensures TotalPnl(rs) == SumBy(rs, (r: SimResult) => r.realizedPnl)
    ensures FeesPaid(rs) == SumBy(rs, (r: SimResult) => r.feesPaid)
    ensures SlippagePaid(rs) == SumBy(rs, (r: SimResult) => r.slippage * r.qty)
  {
    if rs != [] {
      var front, r := rs[..|rs| - 1], rs[|rs| - 1];
      FiguresAreSums(front);
      assert rs == front + [r];
      NetPnlsSnoc(front, r);
      var pnls := NetPnls(front);
      assert (pnls + [r.realizedPnl - r.feesPaid])[..|pnls|] == pnls;
      WinsSnoc(front, r);
    }
  }

  lemma WinsSnoc(rs: seq<SimResult>, r: SimResult)
    ensures |set i | 0 <= i < |rs + [r]| && (rs + [r])[i].realizedPnl > (rs + [r])[i].feesPaid|
         == |set i | 0 <= i < |rs| && rs[i].realizedPnl > rs[i].feesPaid| + (if r.realizedPnl > r.feesPaid then 1 else 0)
  {
    var longer := rs + [r];
    var before := set i | 0 <= i < |rs| && rs[i].realizedPnl > rs[i].feesPaid;
    assert (set i | 0 <= i < |longer| && longer[i].realizedPnl > longer[i].feesPaid)
        == before + if r.realizedPnl > r.feesPaid then {|rs|} else {};
  }

  /** Gross profit less gross loss is the net result, and so is the total result less fees. */
  lemma MetricsBalance(executions: seq<SimResult>)
    ensures
      var kept := Executed(executions);
      && Gains(NetPnls(kept)) - Losses(NetPnls(kept)) == Sum(NetPnls(kept))
      && Sum(NetPnls(kept)) == TotalPnl(kept) - FeesPaid(kept)
  {
    GainsMinusLosses(NetPnls(Executed(executions)));
    NetIsTotalMinusFees(Executed(executions));
  }

  // ----- months -----

  predicate Resolved(candles: seq<Candle>, r: SimResult) {
    0 <= r.closedAtStep < |candles|
  }

  function MonthOf(candles: seq<Candle>, r: SimResult): Month
    requires Resolved(candles, r)
  {
    var d := candles[r.closedAtStep].openedAt.date;
    Month(d.year, d.month)
  }

  function InMonth(candles: seq<Candle>, rs: seq<SimResult>, month: Month): seq<SimResult> {
    if rs == [] then []
    else
      var r := rs[|rs| - 1];
      InMonth(candles, rs[..|rs| - 1], month) + (if Resolved(candles, r) && MonthOf(candles, r) == month then [r] else [])
  }

  function AllResolved(candles: seq<Candle>, rs: seq<SimResult>): seq<SimResult> {
    if rs == [] then []
    else AllResolved(candles, rs[..|rs| - 1]) + (if Resolved(candles, rs[|rs| - 1]) then [rs[|rs| - 1]] else [])
  }

  /** A month holds, in order, the results whose closing candle was opened in it by the calendar; the resolved ones
      are those whose closing candle exists. */
  lemma MonthIsByCalendar(candles: seq<Candle>, rs: seq<SimResult>, r: SimResult, month: Month)
    ensures InMonth(candles, [], month) == [] && AllResolved(candles, []) == []
    ensures InMonth(candles, rs + [r], month) == InMonth(candles, rs, month) +
              if 0 <= r.closedAtStep < |candles| && candles[r.closedAtStep].openedAt.date.year == month.year
                 && candles[r.closedAtStep].openedAt.date.month == month.month then [r] else []
    ensures AllResolved(candles, rs + [r]) == AllResolved(candles, rs) +
              if 0 <= r.closedAtStep < |candles| then [r] else []
  {
    assert (rs + [r])[..|rs|] == rs;
  }

  /** The dictionary pass: each month keeps its executions in order, and only unresolved ones are dropped. */
  method GroupByMonth(candles: seq<Candle>, executions: seq<SimResult>)
    returns (byMonth: map<Month, seq<SimResult>>, unresolved: nat)
    ensures forall m :: m in byMonth <==> InMonth(candles, executions, m) != []
    ensures forall m :: m in byMonth ==> byMonth[m] == InMonth(candles, executions, m)
    ensures unresolved == |executions| - |AllResolved(candles, executions)|
  {
    hide MonthOf;
    byMonth, unresolved := map[], 0;
    for i := 0 to |executions|
      invariant forall m :: m in byMonth <==> InMonth(candles, executions[..i], m) != []
      invariant forall m :: m in byMonth ==> byMonth[m] == InMonth(candles, executions[..i], m)
      invariant unresolved == i - |AllResolved(candles, executions[..i])|
    {
      var r := executions[i];
      assert executions[..i + 1][..i] == executions[..i];
      if !Resolved(candles, r) {
        unresolved := unresolved + 1;
      } else {
        var month := MonthOf(candles, r);
        var soFar := if month in byMonth then byMonth[month] else [];
        byMonth := byMonth[month := soFar + [r]];
      }
    }
    assert executions[..|executions|] == executions;
  }

  ghost predicate PointOf(p: MonthlyPoint, rs: seq<SimResult>) {
    && p.pnl == Sum(NetPnls(rs)) && p.trades == |rs|
    && p.grossProfit == Gains(NetPnls(rs)) && p.grossLoss == Losses(NetPnls(rs))
    && p.profitFactor == ProfitFactor(p.grossProfit, p.grossLoss)
    && IsShare(p.winRate, Wins(NetPnls(rs)) as real, |rs| as real)
    && IsWorstDecline(NetPnls(rs), p.maxDrawdown)
  }

  method BuildMonthlyPoint(month: Month, rs: seq<SimResult>, equity: real) returns (p: MonthlyPoint)
    ensures PointOf(p, rs) && p.month == month
    ensures IsShare(p.maxDrawdownPct, p.maxDrawdown, equity)
    ensures p.grossProfit - p.grossLoss == p.pnl == TotalPnl(rs) - FeesPaid(rs)
    ensures p.grossProfit == SumBy(rs, (r: SimResult) => if r.realizedPnl > r.feesPaid then r.realizedPnl - r.feesPaid else 0.0)
    ensures p.profitFactor.Finite? ==> p.profitFactor.value * p.grossLoss == p.grossProfit
    ensures p.profitFactor.Finite? <==> p.grossLoss > 0.0
    ensures p.profitFactor == Infinite <==> p.grossLoss == 0.0 && p.grossProfit > 0.0
  {
    hide SumBy, TotalPnl, FeesPaid;
    FiguresAreSums(rs);
    GainsMinusLosses(NetPnls(rs));
    NetIsTotalMinusFees(rs);
    hide Sum, Gains, Losses, Wins, NetPnls, IsWorstDecline, ProfitFactor, Share;
    var pnls := NetPnls(rs);
    var drawdown := CalculateMaxDrawdown(pnls);
    p := MonthlyPoint(month, Sum(pnls), |rs|, Gains(pnls), Losses(pnls), Share(Wins(pnls) as real, |rs| as real),
                      ProfitFactor(Gains(pnls), Losses(pnls)), drawdown, Share(drawdown, equity));
  }

  lemma Trichotomy(a: Month, b: Month)
    ensures Before(a, b) || a == b || Before(b, a)
  {
    if a.year == b.year && a.month == b.month {
      assert a == b;
    }
  }

  /** The first month of a non-empty set in calendar order. */
  method FirstMonth(months: set<Month>) returns (first: Month)
    requires months != {}
    ensures first in months && forall m :: m in months ==> m == first || Before(first, m)
  {
    first :| first in months;
    var rest := months - {first};
    while rest != {}
      invariant rest <= months && first in months
      invariant forall m :: m in months - rest ==> m == first || Before(first, m)
      decreases rest
    {
      var m :| m in rest;
      Trichotomy(m, first);
      assert months - (rest - {m}) == months - rest + {m};
      if Before(m, first) {
        first := m;
      }
      rest := rest - {m};
    }
  }

  ghost predicate Listed(points: seq<MonthlyPoint>, months: set<Month>, byMonth: map<Month, seq<SimResult>>) {
    && (forall i :: 0 <= i < |points| ==> points[i].month in months)
    && (forall m :: m in months ==> exists i :: 0 <= i < |points| && points[i].month == m)
    && (forall i :: 0 <= i < |points| && points[i].month in byMonth ==> PointOf(points[i], byMonth[points[i].month]))
    && (forall i, j :: 0 <= i < j < |points| ==> Before(points[i].month, points[j].month))
  }

  predicate Ahead(p: MonthlyPoint, q: MonthlyPoint, most: bool) {
    if most then p.pnl > q.pnl else p.pnl < q.pnl
  }

  /** The earliest of the points that no other point is ahead of. */
  ghost predicate IsExtreme(points: seq<MonthlyPoint>, extreme: Option<MonthlyPoint>, most: bool) {
    match extreme
    case None => points == []
    case Some(p) =>
      exists k :: 0 <= k < |points| && points[k] == p
                  && (forall i :: 0 <= i < |points| ==> !Ahead(points[i], p, most))
                  && (forall i :: 0 <= i < k ==> Ahead(p, points[i], most))
  }

  method ExtremeMonth(points: seq<MonthlyPoint>, most: bool) returns (extreme: Option<MonthlyPoint>)
    ensures IsExtreme(points, extreme, most)
  {
    if points == [] {
      return None;
    }
    var k := 0;
    for n := 1 to |points|
      invariant 0 <= k < n <= |points|
      invariant forall i :: 0 <= i < n ==> !Ahead(points[i], points[k], most)
      invariant forall i :: 0 <= i < k ==> Ahead(points[k], points[i], most)
    {
      if Ahead(points[n], points[k], most) {
        k := n;
      }
    }
    return Some(points[k]);
  }

  /** One point per month in which a trade closed, in calendar order, and the best and worst of them. */
  method BuildMonthlyPnl(candles: seq<Candle>, executions: seq<SimResult>, equity: real)
    returns (points: seq<MonthlyPoint>, best: Option<MonthlyPoint>, worst: Option<MonthlyPoint>, unresolved: nat,
             ghost byMonth: map<Month, seq<SimResult>>)
    ensures forall m :: m in byMonth <==> InMonth(candles, executions, m) != []
    ensures forall m :: m in byMonth ==> byMonth[m] == InMonth(candles, executions, m)
    ensures Listed(points, byMonth.Keys, byMonth)
    ensures forall p :: p in points ==> IsShare(p.maxDrawdownPct, p.maxDrawdown, equity)
    ensures forall i, j :: 0 <= i < j < |points| ==>
              points[i].month.year * 12 + points[i].month.month < points[j].month.year * 12 + points[j].month.month
              || !CalendarMonth(points[i].month) || !CalendarMonth(points[j].month)
    ensures best.Some? == worst.Some? == (points != [])
    ensures best.Some? ==> best.value in points && worst.value in points
    ensures best.Some? ==> forall p :: p in points ==> worst.value.pnl <= p.pnl <= best.value.pnl
    ensures IsExtreme(points, best, true) && IsExtreme(points, worst, false)
    ensures unresolved == |executions| - |AllResolved(candles, executions)|
  {
    hide PointOf, IsShare, IsExtreme, InMonth, AllResolved;
    var groups;
    groups, unresolved := GroupByMonth(candles, executions);
    byMonth := groups;
    points := [];
    var rest := groups.Keys;
    while rest != {}
      invariant rest <= groups.Keys
      invariant Listed(points, groups.Keys - rest, groups)
      invariant forall i, m :: 0 <= i < |points| && m in rest ==> Before(points[i].month, m)
      invariant forall p :: p in points ==> IsShare(p.maxDrawdownPct, p.maxDrawdown, equity)
      decreases rest
    {
      var month := FirstMonth(rest);
      var p := BuildMonthlyPoint(month, groups[month], equity);
      ListedSnoc(points, groups.Keys - rest, groups, p);
      points := points + [p];
      rest := rest - {month};
      assert groups.Keys - rest == groups.Keys - (rest + {month}) + {month};
    }
    assert groups.Keys - {} == groups.Keys;
    best := ExtremeMonth(points, true);
    worst := ExtremeMonth(points, false);
    ExtremesBound(points, best, worst);
  }

  lemma ExtremesBound(points: seq<MonthlyPoint>, best: Option<MonthlyPoint>, worst: Option<MonthlyPoint>)
    requires IsExtreme(points, best, true) && IsExtreme(points, worst, false)
    ensures best.Some? == worst.Some? == (points != [])
    ensures best.Some? ==> best.value in points && worst.value in points
    ensures best.Some? ==> forall p :: p in points ==> worst.value.pnl <= p.pnl <= best.value.pnl
  {
    forall p | p in points && best.Some? && worst.Some?
      ensures worst.value.pnl <= p.pnl <= best.value.pnl
    {
      var i :| 0 <= i < |points| && points[i] == p;
      assert !Ahead(points[i], best.value, true) && !Ahead(points[i], worst.value, false);
    }
  }

  lemma ListedSnoc(points: seq<MonthlyPoint>, months: set<Month>, byMonth: map<Month, seq<SimResult>>, p: MonthlyPoint)
    requires Listed(points, months, byMonth)
    requires p.month in byMonth ==> PointOf(p, byMonth[p.month])
    requires forall i :: 0 <= i < |points| ==> Before(points[i].month, p.month)
    ensures Listed(points + [p], months + {p.month}, byMonth)
  {
    hide PointOf;
    var longer := points + [p];
    forall m | m in months + {p.month}
      ensures exists i :: 0 <= i < |longer| && longer[i].month == m
    {
      if m == p.month {
        assert longer[|points|].month == m;
      } else {
        var i :| 0 <= i < |points| && points[i].month == m;
        assert longer[i].month == m;
      }
    }
  }
}

/** Every result is booked exactly once: over any run, the daily statistics are the totals of the recorded rows. */
module OutcomeLaws {
  import opened Prelude
  import opened Journal
  import opened JournalRows
  import opened Transactions

  // ----- counting and summing over rows -----

  function Count(ts: seq<Trade>, p: Trade -> bool): nat {
    if ts == [] then 0 else Count(ts[..|ts| - 1], p) + (if p(ts[|ts| - 1]) then 1 else 0)
  }

  lemma {:induction false} CountUpdate(ts: seq<Trade>, i: nat, t: Trade, p: Trade -> bool)
    requires i < |ts|
    ensures Count(ts[i := t], p) == Count(ts, p) - (if p(ts[i]) then 1 else 0) + (if p(t) then 1 else 0)
  {
    var n := |ts| - 1;
    if i < n {
      CountUpdate(ts[..n], i, t, p);
      assert ts[i := t][..n] == ts[..n][i := t];
    } else {
      assert ts[i := t][..n] == ts[..n];
    }
  }

  lemma Snoc(ts: seq<Trade>, t: Trade, p: Trade -> bool)
    ensures Count(ts + [t], p) == Count(ts, p) + (if p(t) then 1 else 0)
  {
    assert (ts + [t])[..|ts|] == ts;
  }

  // ----- what the rows say about a day -----

  predicate BookedOn(t: Trade, d: int) {
    t.status == PnlRecorded && t.closedAt.Some? && Day(t.closedAt.value) == d
  }

  function Pnl(t: Trade): real {
    if t.realized.Some? then t.realized.value.pnl else 0.0
  }

  function WinAt(d: int): Trade -> bool {
    (t: Trade) => BookedOn(t, d) && Pnl(t) >= 0.0
  }

  function LossAt(d: int): Trade -> bool {
    (t: Trade) => BookedOn(t, d) && Pnl(t) < 0.0
  }

  function WinFor(d: int, symbol: string): Trade -> bool {
    (t: Trade) => t.terms.symbol == symbol && BookedOn(t, d) && Pnl(t) >= 0.0
  }

  function LossFor(d: int, symbol: string): Trade -> bool {
    (t: Trade) => t.terms.symbol == symbol && BookedOn(t, d) && Pnl(t) < 0.0
  }

  function PnlAt(d: int): Trade -> real {
    (t: Trade) => if BookedOn(t, d) then Pnl(t) else 0.0
  }

  /** The fraction of equity a losing trade cost, when its equity at entry is known. */
  function Lost(t: Trade): real {
    if t.realized.Some? && t.realized.value.pnl < 0.0 then Abs(Or0(t.realized.value.pct)) else 0.0
  }

  function LostAt(d: int): Trade -> real {
    (t: Trade) => if BookedOn(t, d) then Lost(t) else 0.0
  }

  function SymbolWins(stat: DailyStat): map<string, int> {
    map s | s in stat.symbols :: stat.symbols[s].wins
  }

  function SymbolLosses(stat: DailyStat): map<string, int> {
    map s | s in stat.symbols :: stat.symbols[s].losses
  }

  /** A result is present exactly on recorded rows, which also carry their closing time. */
  ghost predicate Recorded(w: World) {
    forall t :: t in w.trades ==>
      && (t.status == PnlRecorded <==> t.realized.Some?)
      && (t.status == PnlRecorded ==>
          && t.closedAt.Some? && t.closedAt.value <= w.now && TimesHeld(t)
          && t.realized == WithResult(t, Or0(t.avgExit)).realized)
  }

  ghost predicate DayTotals(ts: seq<Trade>, d: int, stat: DailyStat) {
    && stat.wins == Count(ts, WinAt(d)) && stat.losses == Count(ts, LossAt(d))
    && stat.gross == SumBy(ts, PnlAt(d)) && stat.net == stat.gross - stat.fees
    && Or0(stat.lossPct) == SumBy(ts, LostAt(d))
    && stat.wins + stat.losses <= stat.total
  }

  ghost predicate SymbolTotals(ts: seq<Trade>, d: int, stat: DailyStat) {
    && (forall s :: SymbolOn(stat, s).wins == Count(ts, WinFor(d, s)) && SymbolOn(stat, s).losses == Count(ts, LossFor(d, s)))
    && MapSum(SymbolWins(stat)) == stat.wins && MapSum(SymbolLosses(stat)) == stat.losses
  }

  /** The daily row agrees with the recorded rows. */
  ghost predicate DayBalances(w: World, d: int) {
    DayTotals(w.trades, d, StatOn(w, d)) && SymbolTotals(w.trades, d, StatOn(w, d))
  }

  ghost predicate Balanced(w: World) {
    forall d :: DayBalances(w, d)
  }

  // ----- one step -----

  /** Rows that agree on result, status and closing time count the same. */
  lemma SameResultCountsTheSame(t: Trade, u: Trade, d: int, s: string)
    requires SameResult(t, u) && (t.status == PnlRecorded <==> u.status == PnlRecorded)
    ensures WinAt(d)(t) == WinAt(d)(u) && LossAt(d)(t) == LossAt(d)(u) && PnlAt(d)(t) == PnlAt(d)(u) && LostAt(d)(t) == LostAt(d)(u)
    ensures WinFor(d, s)(t) == WinFor(d, s)(u) && LossFor(d, s)(t) == LossFor(d, s)(u)
  {
  }

  lemma TouchingBalances(w: World, v: World, id: nat, d: int)
    requires Touches(w, v, id) && DayBalances(w, d)
    ensures DayBalances(v, d)
  {
    hide Count, SumBy, WinAt, LossAt, WinFor, LossFor, PnlAt, LostAt, MapSum, Chronicled;
    var t, u := w.trades[id], v.trades[id];
    SameResultCountsTheSame(t, u, d, "");
    CountUpdate(w.trades, id, u, WinAt(d));
    CountUpdate(w.trades, id, u, LossAt(d));
    SumByUpdate(w.trades, id, u, PnlAt(d));
    SumByUpdate(w.trades, id, u, LostAt(d));
    forall s ensures Count(v.trades, WinFor(d, s)) == Count(w.trades, WinFor(d, s))
             ensures Count(v.trades, LossFor(d, s)) == Count(w.trades, LossFor(d, s)) {
      SameResultCountsTheSame(t, u, d, s);
      CountUpdate(w.trades, id, u, WinFor(d, s));
      CountUpdate(w.trades, id, u, LossFor(d, s));
    }
  }

  /** A row that just got its result counts nothing before and exactly its own result after, on today's row. */
  lemma SettlingBalances(w: World, v: World, id: nat, d: int)
    requires Settles(w, v, id) && Recorded(w) && DayBalances(w, d)
    ensures DayBalances(v, d)
  {
    hide Count, SumBy, MapSum, Chronicled, RealizedPnl, PnlRatio;
    var t, u := w.trades[id], v.trades[id];
    CountUpdate(w.trades, id, u, WinAt(d));
    CountUpdate(w.trades, id, u, LossAt(d));
    SumByUpdate(w.trades, id, u, PnlAt(d));
    SumByUpdate(w.trades, id, u, LostAt(d));
    SettlingBalancesSymbols(w, v, id, d);
  }

  lemma SettlingBalancesSymbols(w: World, v: World, id: nat, d: int)
    requires Settles(w, v, id) && Recorded(w) && SymbolTotals(w.trades, d, StatOn(w, d))
    ensures SymbolTotals(v.trades, d, StatOn(v, d))
  {
    hide Count, SumBy, MapSum, Chronicled, RealizedPnl, PnlRatio;
    var t, u := w.trades[id], v.trades[id];
    var before, after := StatOn(w, d), StatOn(v, d);
    forall s ensures SymbolOn(after, s).wins == Count(v.trades, WinFor(d, s))
             ensures SymbolOn(after, s).losses == Count(v.trades, LossFor(d, s)) {
      assert SymbolOn(before, s).wins == Count(w.trades, WinFor(d, s));
      assert SymbolOn(before, s).losses == Count(w.trades, LossFor(d, s));
      CountUpdate(w.trades, id, u, WinFor(d, s));
      CountUpdate(w.trades, id, u, LossFor(d, s));
    }
    if d == Today(w) {
      OutcomeUpdatesSymbols(before, u, u.realized.value);
    }
  }

  lemma OutcomeUpdatesSymbols(stat: DailyStat, t: Trade, realized: Realized)
    requires MapSum(SymbolWins(stat)) == stat.wins && MapSum(SymbolLosses(stat)) == stat.losses
    ensures var after := Outcome(stat, t, realized);
            MapSum(SymbolWins(after)) == after.wins && MapSum(SymbolLosses(after)) == after.losses
  {
    hide MapSum;
    var after, s := Outcome(stat, t, realized), t.terms.symbol;
    MapSumUpdate(SymbolWins(stat), s, after.symbols[s].wins);
    MapSumUpdate(SymbolLosses(stat), s, after.symbols[s].losses);
    assert SymbolWins(after) == SymbolWins(stat)[s := after.symbols[s].wins];
    assert SymbolLosses(after) == SymbolLosses(stat)[s := after.symbols[s].losses];
  }

  lemma OpeningBalances(w: World, v: World, signal: nat, d: int)
    requires Opens(w, v, signal) && DayBalances(w, d)
    ensures DayBalances(v, d)
  {
    hide Count, SumBy, MapSum, Chronicled;
    var u := v.trades[|w.trades|];
    Snoc(w.trades, u, WinAt(d));
    Snoc(w.trades, u, LossAt(d));
    SumBySnoc(w.trades, u, PnlAt(d));
    SumBySnoc(w.trades, u, LostAt(d));
    forall s ensures Count(v.trades, WinFor(d, s)) == Count(w.trades, WinFor(d, s))
             ensures Count(v.trades, LossFor(d, s)) == Count(w.trades, LossFor(d, s)) {
      Snoc(w.trades, u, WinFor(d, s));
      Snoc(w.trades, u, LossFor(d, s));
    }
  }

  lemma SafetyBalances(w: World, v: World, d: int)
    requires SafetyOnly(w, v) && DayBalances(w, d)
    ensures DayBalances(v, d)
  {
    hide Count, SumBy, MapSum;
    assert SymbolWins(StatOn(v, d)) == SymbolWins(StatOn(w, d));
    assert SymbolLosses(StatOn(v, d)) == SymbolLosses(StatOn(w, d));
  }

  // ----- every run -----

  ghost predicate Booked(w: World) {
    Recorded(w) && Balanced(w) && Chronicled(w)
  }

  lemma SubmitStaysBooked(cfg: Settings, w: World, fingerprint: string, r: Request, ex: Exchange)
    requires Booked(w)
    ensures Booked(OnSubmit(cfg, w, fingerprint, r, ex))
  {
    hide Replayed, ExecuteOrder, Admit, DayBalances, Opens, SafetyOnly, Touches, Chronicled, Recorded;
    var (seen, answered) := Replayed(w, fingerprint, ex.replayLookup);
    ReplayedStaysBooked(w, fingerprint, ex.replayLookup);
    if !answered {
      var renewed := Renew(seen, fingerprint);
      SameBooks(seen, renewed);
      ExecuteStaysBooked(cfg, renewed, |seen.signals|, r, ex);
      var done := ExecuteOrder(cfg, renewed, |seen.signals|, r, ex).0;
      SameBooks(done, OnSubmit(cfg, w, fingerprint, r, ex));
    }
  }

  lemma SameBooks(w: World, v: World)
    requires Booked(w) && v == w.(submissions := v.submissions, signals := v.signals)
    ensures Booked(v)
  {
    hide Count, SumBy, MapSum, Rebuilt, DayTotals, SymbolTotals;
    forall d ensures DayBalances(v, d) {
      assert DayBalances(w, d);
    }
  }

  lemma TouchStaysBooked(w: World, v: World, id: nat)
    requires Booked(w) && Touches(w, v, id)
    ensures Booked(v)
  {
    hide DayBalances, Rebuilt;
    forall d ensures DayBalances(v, d) {
      assert DayBalances(w, d);
      TouchingBalances(w, v, id, d);
    }
  }

  lemma SettlingStaysBooked(w: World, v: World, id: nat)
    requires Booked(w) && Settles(w, v, id)
    ensures Booked(v)
  {
    hide DayBalances, Rebuilt, Outcome, Gain, PnlRatio;
    forall d ensures DayBalances(v, d) {
      assert DayBalances(w, d);
      SettlingBalances(w, v, id, d);
    }
  }

  lemma SafetyStaysBooked(w: World, v: World)
    requires Booked(w) && SafetyOnly(w, v)
    ensures Booked(v)
  {
    hide DayBalances, Rebuilt;
    forall d ensures DayBalances(v, d) {
      assert DayBalances(w, d);
      SafetyBalances(w, v, d);
    }
  }

  lemma OpeningStaysBooked(w: World, v: World, signal: nat)
    requires Booked(w) && Opens(w, v, signal)
    ensures Booked(v)
  {
    hide DayBalances, Rebuilt;
    forall d ensures DayBalances(v, d) {
      assert DayBalances(w, d);
      OpeningBalances(w, v, signal, d);
    }
  }

  lemma ReplayedStaysBooked(w: World, fingerprint: string, lookup: Lookup)
    requires Booked(w)
    ensures Booked(Replayed(w, fingerprint, lookup).0)
  {
    hide Booked, TradeFor, ReconcileUnknown;
    if fingerprint in w.submissions {
      var id := TradeFor(w, w.submissions[fingerprint]);
      if id < |w.trades| && w.trades[id].status == OrderPendingUnknown {
        ReconcileUnknownTouches(w, id, lookup);
        TouchStaysBooked(w, ReconcileUnknown(w, id, lookup), id);
      }
    }
  }

  lemma ExecuteStaysBooked(cfg: Settings, w: World, signal: nat, r: Request, ex: Exchange)
    requires Booked(w)
    ensures Booked(ExecuteOrder(cfg, w, signal, r, ex).0)
  {
    hide *;
    ExecuteShape(cfg, w, signal, r, ex);
    var (v, verdict) := ExecuteOrder(cfg, w, signal, r, ex);
    var (a, admits) := Admit(cfg, w, signal, ex);
    SafetyStaysBooked(w, a);
    if verdict != NothingKept { OpeningStaysBooked(a, v, signal); }
  }

  lemma StepStaysBooked(cfg: Settings, w: World, cmd: Command)
    requires Booked(w)
    ensures Booked(Apply(cfg, w, cmd))
  {
    hide Booked, OnSubmit, Touches, Settles, SafetyOnly;
    if cmd.Submit? {
      SubmitStaysBooked(cfg, w, cmd.fingerprint, cmd.request, cmd.exchange);
    } else {
      var id := StepShape(cfg, w, cmd);
      var v := Apply(cfg, w, cmd);
      if OnSafety(cmd) { SafetyStaysBooked(w, v); }
      else if Touches(w, v, id) { TouchStaysBooked(w, v, id); }
      else if v != w { SettlingStaysBooked(w, v, id); }
    }
  }

  lemma {:induction false} RunsStayBooked(cfg: Settings, cmds: seq<Command>)
    ensures Booked(Run(cfg, GENESIS, cmds))
  {
    if cmds == [] {
      assert Statuses([]) == [];
      forall d ensures DayBalances(GENESIS, d) {
        assert SymbolWins(NO_TRADES) == map[] && SymbolLosses(NO_TRADES) == map[];
      }
    } else {
      hide Booked, Apply;
      RunsStayBooked(cfg, cmds[..|cmds| - 1]);
      StepStaysBooked(cfg, Run(cfg, GENESIS, cmds[..|cmds| - 1]), cmds[|cmds| - 1]);
    }
  }

  // ----- main results -----

  /** After any run, in any order and with any repetition of events, every daily row totals exactly the trades
      recorded on that day. */
  lemma ResultsAreBookedExactlyOnce(cfg: Settings, cmds: seq<Command>, d: int, symbol: string)
    ensures var w := Run(cfg, GENESIS, cmds);
            var stat := StatOn(w, d);
            && stat.wins == Count(w.trades, WinAt(d)) && stat.losses == Count(w.trades, LossAt(d))
            && stat.gross == SumBy(w.trades, PnlAt(d)) && stat.net == stat.gross - stat.fees
            && Or0(stat.lossPct) == SumBy(w.trades, LostAt(d))
            && stat.wins + stat.losses <= stat.total
            && SymbolOn(stat, symbol).wins == Count(w.trades, WinFor(d, symbol))
            && SymbolOn(stat, symbol).losses == Count(w.trades, LossFor(d, symbol))
            && MapSum(SymbolWins(stat)) == stat.wins && MapSum(SymbolLosses(stat)) == stat.losses
  {
    hide Run, Count, SumBy, MapSum, Recorded, Chronicled;
    RunsStayBooked(cfg, cmds);
    assert DayBalances(Run(cfg, GENESIS, cmds), d);
  }

  // ----- the days together -----

  function RecordedWithin(days: set<int>): Trade -> bool {
    (t: Trade) => t.status == PnlRecorded && t.closedAt.Some? && Day(t.closedAt.value) in days
  }

  function ResultsPerDay(stats: map<int, DailyStat>): map<int, int> {
    map d | d in stats :: stats[d].wins + stats[d].losses
  }

  lemma {:induction false} OneDayMore(ts: seq<Trade>, days: set<int>, d: int)
    requires d in days
    ensures Count(ts, RecordedWithin(days)) ==
            Count(ts, RecordedWithin(days - {d})) + Count(ts, WinAt(d)) + Count(ts, LossAt(d))
  {
    if ts != [] { OneDayMore(ts[..|ts| - 1], days, d); }
  }

  lemma {:induction false} NoDayNoTrade(ts: seq<Trade>)
    ensures Count(ts, RecordedWithin({})) == 0
  {
    if ts != [] { NoDayNoTrade(ts[..|ts| - 1]); }
  }

  lemma HasSomeDay(results: map<int, int>)
    ensures results == map[] || exists d :: d in results
  {
    if forall d :: d !in results { assert results.Keys == {}; }
  }

  lemma {:induction false} DaysAddUp(ts: seq<Trade>, results: map<int, int>)
    requires forall d :: d in results ==> results[d] == Count(ts, WinAt(d)) + Count(ts, LossAt(d))
    ensures MapSum(results) == Count(ts, RecordedWithin(results.Keys))
    decreases |results|
  {
    if results == map[] {
      NoDayNoTrade(ts);
    } else {
      hide MapSum;
      HasSomeDay(results);
      var d :| d in results;
      MapSumRemove(results, d);
      MapShrinks(results, d);
      DaysAddUp(ts, results - {d});
      OneDayMore(ts, results.Keys, d);
      assert (results - {d}).Keys == results.Keys - {d};
    }
  }

  lemma {:induction false} SameCount(ts: seq<Trade>, p: Trade -> bool, q: Trade -> bool)
    requires forall t :: t in ts ==> p(t) == q(t)
    ensures Count(ts, p) == Count(ts, q)
  {
    if ts != [] { SameCount(ts[..|ts| - 1], p, q); }
  }

  lemma {:induction false} CountedIsThere(ts: seq<Trade>, p: Trade -> bool, t: Trade)
    requires t in ts && p(t)
    ensures Count(ts, p) > 0
  {
    if t != ts[|ts| - 1] { CountedIsThere(ts[..|ts| - 1], p, t); }
  }

  /** Winning and losing trades summed over all daily rows are exactly the recorded trades. */
  lemma DaysSumToTheRecordedTrades(cfg: Settings, cmds: seq<Command>)
    ensures var w := Run(cfg, GENESIS, cmds);
            MapSum(ResultsPerDay(w.stats)) == Count(w.trades, (t: Trade) => t.status == PnlRecorded)
  {
    hide Run, MapSum, Count, WithResult, SymbolTotals, Chronicled;
    RunsStayBooked(cfg, cmds);
    var w := Run(cfg, GENESIS, cmds);
    forall d | d in w.stats ensures ResultsPerDay(w.stats)[d] == Count(w.trades, WinAt(d)) + Count(w.trades, LossAt(d)) {
      assert DayBalances(w, d);
    }
    DaysAddUp(w.trades, ResultsPerDay(w.stats));
    assert ResultsPerDay(w.stats).Keys == w.stats.Keys;
    forall t | t in w.trades ensures RecordedWithin(w.stats.Keys)(t) == (t.status == PnlRecorded) {
      if t.status == PnlRecorded {
        var d := Day(t.closedAt.value);
        assert DayBalances(w, d);
        CountedIsThere(w.trades, if Pnl(t) >= 0.0 then WinAt(d) else LossAt(d), t);
      }
    }
    SameCount(w.trades, RecordedWithin(w.stats.Keys), (t: Trade) => t.status == PnlRecorded);
  }

  /** A trade has a result exactly when it is recorded. A long has gained its exit less its entry on its size, a short
      the opposite; the entry is the average fill or else the ordered price, the size the filled quantity or else the
      ordered one. Both ratios give the gain back when multiplied by equity and amount risked, and are there exactly
      when these are known and not zero. */
  lemma ResultsFollowFromTheRows(cfg: Settings, cmds: seq<Command>, id: nat)
    requires id < |Run(cfg, GENESIS, cmds).trades|
    ensures
      var t := Run(cfg, GENESIS, cmds).trades[id];
      && (t.status == PnlRecorded <==> t.realized.Some?)
      && (t.realized.Some? && t.openedAt.Some? && t.closedAt.Some? ==> t.heldFor == Some(t.closedAt.value - t.openedAt.value))
      && (t.realized.Some? ==> t.closedAt.Some?)
      && (t.realized.Some? ==> ResultOf(t))
  {
    hide Run, Booked, WithResult, ResultOf;
    RunsStayBooked(cfg, cmds);
    RecordedRow(Run(cfg, GENESIS, cmds), id);
    var t := Run(cfg, GENESIS, cmds).trades[id];
    if t.realized.Some? {
      ResultPlainly(t);
      ResultRow(t, Or0(t.avgExit));
    }
  }

  lemma RecordedRow(w: World, id: nat)
    requires Booked(w) && id < |w.trades|
    ensures
      var t := w.trades[id];
      && (t.status == PnlRecorded <==> t.realized.Some?)
      && (t.status == PnlRecorded ==>
          && t.closedAt.Some? && TimesHeld(t) && t.realized == WithResult(t, Or0(t.avgExit)).realized)
  {
    hide Balanced, Chronicled, WithResult;
    assert w.trades[id] in w.trades;
  }

  /** A recorded trade is frozen: no later event, reconciliation, close request or reset changes anything but
      its fees. */
  lemma StepFreezesResults(cfg: Settings, w: World, cmd: Command, id: nat)
    requires id < |w.trades| && w.trades[id].status == PnlRecorded
    ensures id < |Apply(cfg, w, cmd).trades| && Frozen(w.trades[id], Apply(cfg, w, cmd).trades[id])
  {
    hide OnSubmit, Chronicled, Outcome, Opens;
    if cmd.Submit? {
      SubmitKeepsRow(cfg, w, cmd.fingerprint, cmd.request, cmd.exchange, id);
    } else {
      hide Apply;
      var k := StepShape(cfg, w, cmd);
    }
  }

  lemma ReplayedKeepsOthers(w: World, fingerprint: string, lookup: Lookup, id: nat)
    requires id < |w.trades| && w.trades[id].status != OrderPendingUnknown
    ensures var seen := Replayed(w, fingerprint, lookup).0;
            |seen.trades| == |w.trades| && seen.trades[id] == w.trades[id]
  {
    hide TradeFor, LookupStatus;
  }

  /** A submission rewrites no existing row but one whose fate is still unknown. */
  lemma SubmitKeepsRow(cfg: Settings, w: World, fingerprint: string, r: Request, ex: Exchange, id: nat)
    requires id < |w.trades| && w.trades[id].status != OrderPendingUnknown
    ensures id < |OnSubmit(cfg, w, fingerprint, r, ex).trades| && OnSubmit(cfg, w, fingerprint, r, ex).trades[id] == w.trades[id]
  {
    hide Replayed, ExecuteOrder, Admit, Chronicled;
    var (seen, answered) := Replayed(w, fingerprint, ex.replayLookup);
    ReplayedKeepsOthers(w, fingerprint, ex.replayLookup, id);
    if !answered { ExecuteShape(cfg, Renew(seen, fingerprint), |seen.signals|, r, ex); }
  }

  lemma OtherRowsStay(w: World, v: World, id: nat, i: nat)
    requires v == w || Touches(w, v, id) || Settles(w, v, id)
    requires i < |w.trades| && i != id
    ensures i < |v.trades| && v.trades[i] == w.trades[i]
  {
    hide Chronicled, Outcome, RealizedPnl, PnlRatio;
  }

  lemma {:induction false} RecordedTradesAreFinal(cfg: Settings, w: World, cmds: seq<Command>, id: nat)
    requires id < |w.trades| && w.trades[id].status == PnlRecorded
    ensures id < |Run(cfg, w, cmds).trades| && Frozen(w.trades[id], Run(cfg, w, cmds).trades[id])
  {
    hide Apply;
    if cmds != [] {
      RecordedTradesAreFinal(cfg, w, cmds[..|cmds| - 1], id);
      StepFreezesResults(cfg, Run(cfg, w, cmds[..|cmds| - 1]), cmds[|cmds| - 1], id);
    }
  }

  // ----- the event log -----

  function Recordings(events: seq<TradeEvent>, id: nat): nat {
    if events == [] then 0
    else
      var e := events[|events| - 1];
      Recordings(events[..|events| - 1], id) + (if e.trade == id && e.to == PnlRecorded then 1 else 0)
  }

  lemma {:induction false} RebuiltCountsRecordings(events: seq<TradeEvent>, id: nat)
    requires Rebuilt(events).Some? && forall e :: e in events ==> e.from != Some(PnlRecorded)
    ensures var s := Rebuilt(events).value;
            Recordings(events, id) == if id < |s| && s[id] == PnlRecorded then 1 else 0
  {
    if events != [] {
      RebuiltCountsRecordings(events[..|events| - 1], id);
      assert events[|events| - 1] in events;
    }
  }

  /** The append-only log rebuilds the status of every row, and holds exactly one recording for each recorded
      trade and none for others. */
  lemma LogRebuildsTheRows(cfg: Settings, cmds: seq<Command>, id: nat)
    ensures var w := Run(cfg, GENESIS, cmds);
            && Rebuilt(w.events) == Some(Statuses(w.trades))
            && Recordings(w.events, id) == (if id < |w.trades| && w.trades[id].status == PnlRecorded then 1 else 0)
  {
    hide Run, Recorded, Balanced;
    RunsStayBooked(cfg, cmds);
    RebuiltCountsRecordings(Run(cfg, GENESIS, cmds).events, id);
  }
}

/** Where rows come from and what a day's streak counts, over every run. */
module DayLaws {
  import opened Prelude
  import opened Journal
  import opened JournalRows
  import opened Transactions
  import opened Guards
  import opened SubmissionLaws

  // ----- every row was ordered by a submission -----

  /** The terms a request and its plan fix for a row of this signal created at this time. */
  ghost predicate Ordered(terms: Terms, signal: nat, createdAt: int, r: Request, plan: Plan) {
    && plan.Sized?
    && terms.signalId == signal && terms.createdAt == createdAt && terms.market == Spot
    && terms.symbol == r.symbol && terms.direction == r.direction
    && terms.entryPrice == Some(r.entry) && terms.stopPrice == Some(r.stop) && terms.targetPrice == Some(r.target)
    && terms.equity == Some(plan.equity) && terms.riskAmount == Some(plan.riskAmount) && terms.qty == Some(plan.qty)
  }

  /** What a submission does to rows and signals: none or one row, of a signal of its own. */
  lemma SubmissionOrders(cfg: Settings, w: World, fingerprint: string, r: Request, ex: Exchange)
    ensures
      var v := Apply(cfg, w, Submit(fingerprint, r, ex));
      && v.now == w.now
      && (v.signals == w.signals || v.signals == w.signals + [fingerprint])
      && (|v.trades| == |w.trades| || |v.trades| == |w.trades| + 1)
      && (forall i :: 0 <= i < |w.trades| ==> v.trades[i].terms == w.trades[i].terms)
      && (|v.trades| > |w.trades| ==>
            && v.signals == w.signals + [fingerprint]
            && Ordered(v.trades[|w.trades|].terms, |w.signals|, w.now, r, ex.plan))
  {
    hide Apply, AnsweredAs, Admitted, SentAs;
    var v := Apply(cfg, w, Submit(fingerprint, r, ex));
    var k := SubmissionIsPlain(cfg, w, fingerprint, r, ex);
    AnsweringKeepsTerms(w, fingerprint, ex.replayLookup, k.seen, k.answered, k.row);
    if !k.answered {
      var signal := |w.signals|;
      var renewed := k.seen.(signals := w.signals + [fingerprint],
                             submissions := w.submissions[fingerprint := Submission(Some(signal), None)]);
      GuardedKeepsTables(cfg, renewed, k.guarded, signal, ex, k.admits, k.passes);
      if k.admits && k.verdict != NothingKept {
        SentKeepsTables(cfg, k.guarded, signal, r, ex, k.sent, k.verdict);
        SendingOrders(cfg, k.guarded, signal, r, ex, k.sent, k.verdict);
      }
    }
  }

  lemma AnsweringKeepsTerms(w: World, fingerprint: string, lookup: Lookup, seen: World, answered: bool, row: nat)
    requires AnsweredAs(w, fingerprint, lookup, seen, answered, row)
    ensures |seen.trades| == |w.trades| && seen.now == w.now && seen.signals == w.signals
    ensures forall i :: 0 <= i < |w.trades| ==> seen.trades[i].terms == w.trades[i].terms
    ensures seen.stats == w.stats && seen.safety == w.safety
    ensures forall i :: 0 <= i < |w.trades| ==> (seen.trades[i].status == PnlRecorded <==> w.trades[i].status == PnlRecorded)
  {
  }

  lemma SendingOrders(cfg: Settings, a: World, signal: nat, r: Request, ex: Exchange, v: World, verdict: Verdict)
    requires ex.plan.Sized? && SentAs(cfg, a, signal, r, ex, v, verdict) && verdict != NothingKept
    ensures |v.trades| == |a.trades| + 1 && v.trades[..|a.trades|] == a.trades
    ensures Ordered(v.trades[|a.trades|].terms, signal, a.now, r, ex.plan) && v.trades[|a.trades|].status != PnlRecorded
    ensures v.stats == a.stats[a.now / 86400 := DayRow(a, a.now / 86400).(total := DayRow(a, a.now / 86400).total + 1)]
  {
    hide Trail;
  }

  /** Over any run, row `i` is the one created by command `k`, a submission with a sized plan: its terms are the
      request's and the plan's, its signal is the submission's own, and its time is when it ran. */
  lemma {:induction false} RowsComeFromSubmissions(cfg: Settings, cmds: seq<Command>, i: nat) returns (k: nat)
    requires i < |Run(cfg, GENESIS, cmds).trades|
    ensures k < |cmds| && cmds[k].Submit?
    ensures |Run(cfg, GENESIS, cmds[..k]).trades| == i
    ensures
      var w, before := Run(cfg, GENESIS, cmds), Run(cfg, GENESIS, cmds[..k]);
      && Ordered(w.trades[i].terms, |before.signals|, before.now, cmds[k].request, cmds[k].exchange.plan)
      && |before.signals| < |w.signals| && w.signals[|before.signals|] == cmds[k].fingerprint
  {
    hide Apply, Ordered;
    var front, cmd := cmds[..|cmds| - 1], cmds[|cmds| - 1];
    var w := Run(cfg, GENESIS, front);
    if cmd.Submit? {
      SubmissionOrders(cfg, w, cmd.fingerprint, cmd.request, cmd.exchange);
    } else {
      StepKeepsTerms(cfg, w, cmd);
    }
    if i < |w.trades| {
      k := RowsComeFromSubmissions(cfg, front, i);
      assert front[..k] == cmds[..k];
    } else {
      k := |front|;
      assert cmds[..k] == front;
    }
  }

  // ----- marks of a day -----

  /** What moves a streak: a trade won, a trade lost, each with the fees known then, or the streak forgiven. */
  datatype Mark = Won(symbol: string, fee: real) | Lost(symbol: string, fee: real) | Forgiven

  /** The first row that has just been recorded, or the number of rows. */
  function NewlyRecorded(before: seq<Trade>, after: seq<Trade>): (i: nat)
    requires |before| <= |after|
    ensures i <= |before|
    ensures i < |before| ==> before[i].status != PnlRecorded && after[i].status == PnlRecorded
    ensures forall j :: 0 <= j < i ==> before[j].status == PnlRecorded || after[j].status != PnlRecorded
  {
    if before == [] then 0
    else if before[0].status != PnlRecorded && after[0].status == PnlRecorded then 0
    else 1 + NewlyRecorded(before[1..], after[1..])
  }

  /** A command forgives the streak that led to the pause: by lifting an expired cooldown, or by resetting a pause that
      came from a streak. */
  predicate Forgives(w: World, v: World, cmd: Command) {
    || (CooldownOver(w) && (cmd.Poll? || cmd.Activate? || (cmd.Submit? && |v.signals| > |w.signals|)))
    || (cmd.Reset? && w.safety.pause in {Some(Cooldown), Some(HardLossStreak)})
  }

  /** The mark a command leaves on day `d`. */
  function MarksOf(w: World, v: World, cmd: Command, d: int): seq<Mark>
    requires |w.trades| <= |v.trades|
  {
    var i := NewlyRecorded(w.trades, v.trades);
    if i < |w.trades| then
      var t := v.trades[i];
      if t.closedAt.Some? && t.closedAt.value / 86400 == d && t.realized.Some? then
        [if t.realized.value.pnl < 0.0 then Lost(t.terms.symbol, Amount(t.feePaid)) else Won(t.terms.symbol, Amount(t.feePaid))]
      else []
    else if Forgives(w, v, cmd) && PauseDay(w) == d then [Forgiven]
    else []
  }

  /** Length of the run of losses the marks end with. */
  function TrailingLosses(marks: seq<Mark>): (n: nat)
    ensures n <= |marks| && (forall i :: |marks| - n <= i < |marks| ==> marks[i].Lost?)
    ensures n < |marks| ==> !marks[|marks| - n - 1].Lost?
  {
    if marks == [] || !marks[|marks| - 1].Lost? then 0 else 1 + TrailingLosses(marks[..|marks| - 1])
  }

  /** The marks of one symbol; forgiving touches no symbol. */
  function OfSymbol(marks: seq<Mark>, symbol: string): seq<Mark> {
    if marks == [] then []
    else
      var m := marks[|marks| - 1];
      OfSymbol(marks[..|marks| - 1], symbol) + if m != Forgiven && m.symbol == symbol then [m] else []
  }

  function FeesOf(marks: seq<Mark>): real {
    SumBy(marks, (m: Mark) => if m == Forgiven then 0.0 else m.fee)
  }

  function StreakOf(row: DailyStat, symbol: string): int {
    if symbol in row.symbols then row.symbols[symbol].streak else 0
  }

  /** A day's row after marks: total streak, streak of a symbol, fees. */
  ghost predicate Follows(row: DailyStat, marks: seq<Mark>, symbol: string) {
    && row.streak == TrailingLosses(marks)
    && StreakOf(row, symbol) == TrailingLosses(OfSymbol(marks, symbol))
    && row.fees == FeesOf(marks)
  }

  lemma TrailingSnoc(marks: seq<Mark>, m: Mark)
    ensures TrailingLosses(marks + [m]) == if m.Lost? then TrailingLosses(marks) + 1 else 0
  {
    assert (marks + [m])[..|marks|] == marks;
  }

  lemma OfSymbolSnoc(marks: seq<Mark>, m: Mark, symbol: string)
    ensures OfSymbol(marks + [m], symbol) == OfSymbol(marks, symbol) + if m != Forgiven && m.symbol == symbol then [m] else []
  {
    assert (marks + [m])[..|marks|] == marks;
  }

  lemma FollowsResult(before: DailyStat, after: DailyStat, t: Trade, marks: seq<Mark>, symbol: string)
    requires t.realized.Some? && TakesIn(before, after, t) && Follows(before, marks, symbol)
    ensures Follows(after, marks + [if t.realized.value.pnl < 0.0 then Lost(t.terms.symbol, Amount(t.feePaid))
                                    else Won(t.terms.symbol, Amount(t.feePaid))], symbol)
  {
    hide OfSymbol, TrailingLosses, SumBy;
    var m := if t.realized.value.pnl < 0.0 then Lost(t.terms.symbol, Amount(t.feePaid)) else Won(t.terms.symbol, Amount(t.feePaid));
    TrailingSnoc(marks, m);
    OfSymbolSnoc(marks, m, symbol);
    TrailingSnoc(OfSymbol(marks, symbol), m);
    SumBySnoc(marks, m, (m: Mark) => if m == Forgiven then 0.0 else m.fee);
    assert OfSymbol(marks, symbol) + [] == OfSymbol(marks, symbol);
  }

  lemma FollowsForgiveness(before: DailyStat, marks: seq<Mark>, symbol: string)
    requires Follows(before, marks, symbol)
    ensures Follows(before.(streak := 0), marks + [Forgiven], symbol)
  {
    hide OfSymbol, TrailingLosses, SumBy;
    TrailingSnoc(marks, Forgiven);
    OfSymbolSnoc(marks, Forgiven, symbol);
    SumBySnoc(marks, Forgiven, (m: Mark) => if m == Forgiven then 0.0 else m.fee);
    assert OfSymbol(marks, symbol) + [] == OfSymbol(marks, symbol);
  }

  /** Same streaks and fees. */
  predicate SameStreaks(a: DailyStat, b: DailyStat) {
    a.streak == b.streak && a.symbols == b.symbols && a.fees == b.fees
  }

  lemma SameStreaksFollow(a: DailyStat, b: DailyStat, marks: seq<Mark>, symbol: string)
    requires SameStreaks(a, b) && Follows(a, marks, symbol)
    ensures Follows(b, marks, symbol) && marks + [] == marks
  {
  }

  lemma {:induction false} NothingRecorded(before: seq<Trade>, after: seq<Trade>)
    requires |before| <= |after|
    requires forall i :: 0 <= i < |before| && after[i].status == PnlRecorded ==> before[i].status == PnlRecorded
    ensures NewlyRecorded(before, after) == |before|
  {
  }

  lemma OneRecorded(before: seq<Trade>, after: seq<Trade>, id: nat)
    requires id < |before| == |after| && after == before[id := after[id]]
    requires before[id].status != PnlRecorded && after[id].status == PnlRecorded
    ensures NewlyRecorded(before, after) == id
  {
    var i := NewlyRecorded(before, after);
    assert forall j :: 0 <= j < |before| && j != id ==> after[j] == before[j];
  }

  // ----- one command -----

  lemma SettlingFollows(w: World, v: World, id: nat, cmd: Command, d: int, symbol: string, marks: seq<Mark>)
    requires Settles(w, v, id) && !cmd.Submit? && Follows(DayRow(w, d), marks, symbol)
    ensures |v.trades| == |w.trades|
    ensures Follows(DayRow(v, d), marks + MarksOf(w, v, cmd, d), symbol)
  {
    hide Chronicled, Outcome, Follows, TakesIn, WithResult, NewlyRecorded, DayRow;
    var t, today := v.trades[id], w.now / 86400;
    assert t.realized.Some? by { ResultExists(t); }
    OneRecorded(w.trades, v.trades, id);
    DayPlainly(w, today);
    OutcomePlainly(DayRow(w, today), t);
    RowMoved(w, v, today, Outcome(DayRow(w, today), t, t.realized.value), d);
    if d == today {
      FollowsResult(DayRow(w, d), DayRow(v, d), t, marks, symbol);
    } else {
      assert marks + [] == marks;
    }
  }

  lemma ResultExists(t: Trade)
    requires t.realized == WithResult(t, Or0(t.avgExit)).realized
    ensures t.realized.Some?
  {
  }

  lemma RowMoved(w: World, v: World, day: int, row: DailyStat, d: int)
    requires v.stats == w.stats[day := row]
    ensures DayRow(v, d) == if d == day then row else DayRow(w, d)
  {
  }

  lemma QuietFollows(w: World, v: World, cmd: Command, d: int, symbol: string, marks: seq<Mark>)
    requires |v.trades| >= |w.trades| && !Forgives(w, v, cmd) && SameStreaks(DayRow(w, d), DayRow(v, d))
    requires forall i :: 0 <= i < |w.trades| && v.trades[i].status == PnlRecorded ==> w.trades[i].status == PnlRecorded
    requires Follows(DayRow(w, d), marks, symbol)
    ensures Follows(DayRow(v, d), marks + MarksOf(w, v, cmd, d), symbol)
  {
    hide Follows, NewlyRecorded;
    NothingRecorded(w.trades, v.trades);
    SameStreaksFollow(DayRow(w, d), DayRow(v, d), marks, symbol);
  }

  /** `u` is the state once the streak is forgiven; what follows keeps streaks. */
  lemma ForgivingFollows(w: World, u: World, v: World, cmd: Command, d: int, symbol: string, marks: seq<Mark>)
    requires |v.trades| >= |w.trades| && Forgives(w, v, cmd)
    requires forall i :: 0 <= i < |w.trades| && v.trades[i].status == PnlRecorded ==> w.trades[i].status == PnlRecorded
    requires u.stats == StreakForgiven(w) && SameStreaks(DayRow(u, d), DayRow(v, d))
    requires Follows(DayRow(w, d), marks, symbol)
    ensures Follows(DayRow(v, d), marks + MarksOf(w, v, cmd, d), symbol)
  {
    hide Follows, NewlyRecorded, DayRow, SameStreaks;
    NothingRecorded(w.trades, v.trades);
    RowMoved(w, u, PauseDay(w), DayRow(w, PauseDay(w)).(streak := 0), d);
    if d == PauseDay(w) {
      FollowsForgiveness(DayRow(w, d), marks, symbol);
      SameStreaksFollow(DayRow(u, d), DayRow(v, d), marks + [Forgiven], symbol);
    } else {
      SameStreaksFollow(DayRow(u, d), DayRow(v, d), marks, symbol);
    }
  }

  lemma SafetyFollows(cfg: Settings, w: World, cmd: Command, d: int, symbol: string, marks: seq<Mark>)
    requires OnSafety(cmd) && Follows(DayRow(w, d), marks, symbol)
    ensures var v := Apply(cfg, w, cmd); |v.trades| == |w.trades| && Follows(DayRow(v, d), marks + MarksOf(w, v, cmd, d), symbol)
  {
    hide Follows, MarksOf, Apply;
    SafetyCommandsArePlain(cfg, w, if cmd.Tick? then cmd.seconds else 0);
    var v := Apply(cfg, w, cmd);
    if Forgives(w, v, cmd) {
      ForgivingFollows(w, w.(stats := StreakForgiven(w)), v, cmd, d, symbol, marks);
    } else {
      QuietFollows(w, v, cmd, d, symbol, marks);
    }
  }

  /** The guards forgive what an expired cooldown led to, and otherwise keep every streak. */
  lemma GuardingStreaks(cfg: Settings, w: World, a: World, signal: nat, ex: Exchange, admits: bool, passes: bool, d: int)
    requires Admitted(cfg, w, a, signal, ex, admits, passes)
    ensures SameStreaks(DayRow(Current(w), d), DayRow(a, d)) && a.trades == w.trades && a.now == w.now
  {
    hide WeekLoss, Current;
    CurrentPlainly(w);
  }

  lemma SendingStreaks(cfg: Settings, a: World, signal: nat, r: Request, ex: Exchange, v: World, verdict: Verdict, d: int)
    requires ex.plan.Sized? && SentAs(cfg, a, signal, r, ex, v, verdict) && verdict != NothingKept
    ensures SameStreaks(DayRow(a, d), DayRow(v, d))
    ensures |v.trades| == |a.trades| + 1 && v.trades[..|a.trades|] == a.trades
  {
    hide SentAs, DayRow;
    SendingOrders(cfg, a, signal, r, ex, v, verdict);
    RowMoved(a, v, a.now / 86400, DayRow(a, a.now / 86400).(total := DayRow(a, a.now / 86400).total + 1), d);
  }

  lemma SubmissionFollows(cfg: Settings, w: World, fingerprint: string, r: Request, ex: Exchange, d: int, symbol: string, marks: seq<Mark>)
    requires Follows(DayRow(w, d), marks, symbol)
    ensures
      var cmd := Submit(fingerprint, r, ex);
      var v := Apply(cfg, w, cmd);
      |v.trades| >= |w.trades| && Follows(DayRow(v, d), marks + MarksOf(w, v, cmd, d), symbol)
  {
    hide Apply, AnsweredAs, Admitted, SentAs, Follows, MarksOf, DayRow, SameStreaks;
    var cmd := Submit(fingerprint, r, ex);
    var v := Apply(cfg, w, cmd);
    var k := SubmissionIsPlain(cfg, w, fingerprint, r, ex);
    AnsweringKeepsTerms(w, fingerprint, ex.replayLookup, k.seen, k.answered, k.row);
    if k.answered {
      StatsDecide(w, v, d);
      QuietFollows(w, v, cmd, d, symbol, marks);
    } else {
      var signal := |w.signals|;
      var renewed := k.seen.(signals := w.signals + [fingerprint],
                             submissions := w.submissions[fingerprint := Submission(Some(signal), None)]);
      GuardingStreaks(cfg, renewed, k.guarded, signal, ex, k.admits, k.passes, d);
      GuardedKeepsTables(cfg, renewed, k.guarded, signal, ex, k.admits, k.passes);
      if k.admits && k.verdict != NothingKept {
        SendingStreaks(cfg, k.guarded, signal, r, ex, k.sent, k.verdict, d);
        SentKeepsTables(cfg, k.guarded, signal, r, ex, k.sent, k.verdict);
        StatsDecide(k.sent, v, d);
        assert forall i :: 0 <= i < |w.trades| ==> v.trades[i] == v.trades[..|w.trades|][i];
      }
      assert v.signals == w.signals + [fingerprint];
      StreaksChain(DayRow(Current(renewed), d), DayRow(k.guarded, d), DayRow(v, d));
      SameGuards(w, renewed, d);
      if CooldownOver(w) {
        ForgivingFollows(w, Current(renewed), v, cmd, d, symbol, marks);
      } else {
        QuietFollows(w, v, cmd, d, symbol, marks);
      }
    }
  }

  lemma StatsDecide(w: World, v: World, d: int)
    requires v.stats == w.stats
    ensures DayRow(v, d) == DayRow(w, d) && SameStreaks(DayRow(w, d), DayRow(v, d))
  {
  }

  lemma StreaksChain(a: DailyStat, b: DailyStat, c: DailyStat)
    requires SameStreaks(a, b) && (b == c || SameStreaks(b, c))
    ensures SameStreaks(a, c)
  {
  }

  lemma SameGuards(w: World, v: World, d: int)
    requires v.stats == w.stats && v.safety == w.safety && v.now == w.now
    ensures CooldownOver(v) == CooldownOver(w)
    ensures CooldownOver(w) ==> Current(v).stats == StreakForgiven(w)
    ensures !CooldownOver(w) ==> Current(v) == v && DayRow(v, d) == DayRow(w, d)
  {
  }

  lemma StepFollows(cfg: Settings, w: World, cmd: Command, d: int, symbol: string, marks: seq<Mark>)
    requires Follows(DayRow(w, d), marks, symbol)
    ensures
      var v := Apply(cfg, w, cmd);
      |v.trades| >= |w.trades| && Follows(DayRow(v, d), marks + MarksOf(w, v, cmd, d), symbol)
  {
    hide Apply, Follows, MarksOf, Chronicled, DayRow, SameStreaks;
    if cmd.Submit? {
      SubmissionFollows(cfg, w, cmd.fingerprint, cmd.request, cmd.exchange, d, symbol, marks);
    } else if OnSafety(cmd) {
      SafetyFollows(cfg, w, cmd, d, symbol, marks);
    } else {
      var v := Apply(cfg, w, cmd);
      var id := StepShape(cfg, w, cmd);
      if v != w && Settles(w, v, id) {
        SettlingFollows(w, v, id, cmd, d, symbol, marks);
      } else {
        StatsDecide(w, v, d);
        QuietFollows(w, v, cmd, d, symbol, marks);
      }
    }
  }

  // ----- every run -----

  ghost function Marks(cfg: Settings, cmds: seq<Command>, d: int): seq<Mark> {
    if cmds == [] then []
    else
      var front, cmd := cmds[..|cmds| - 1], cmds[|cmds| - 1];
      var w, v := Run(cfg, GENESIS, front), Run(cfg, GENESIS, cmds);
      Marks(cfg, front, d) + if |w.trades| <= |v.trades| then MarksOf(w, v, cmd, d) else []
  }

  /** Over any run a day's streak is its trailing run of losses since the last win or forgiveness, a symbol's streak its
      own trailing run of losses, and the day's fees those known when its trades were recorded. */
  lemma {:induction false} StreaksAreTrailingLosses(cfg: Settings, cmds: seq<Command>, d: int, symbol: string)
    ensures
      var row, marks := DayRow(Run(cfg, GENESIS, cmds), d), Marks(cfg, cmds, d);
      && row.streak == TrailingLosses(marks)
      && (if symbol in row.symbols then row.symbols[symbol].streak else 0) == TrailingLosses(OfSymbol(marks, symbol))
      && row.fees == FeesOf(marks)
  {
    hide Apply, MarksOf;
    if cmds != [] {
      var front, cmd := cmds[..|cmds| - 1], cmds[|cmds| - 1];
      StreaksAreTrailingLosses(cfg, front, d, symbol);
      StepFollows(cfg, Run(cfg, GENESIS, front), cmd, d, symbol, Marks(cfg, front, d));
    }
  }
}

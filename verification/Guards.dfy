/** The safety state and the submission of a request, each as an equation between the stored state before and after:
    which pause a limit sets, what a reset lifts, when a request is answered or admitted, and the row it creates. */
module Guards {
  import opened Prelude
  import opened Journal
  import opened Transactions

  const BLANK_DAY := DailyStat(0, 0, 0, 0, 0.0, 0.0, 0.0, None, map[], false)

  function DayRow(w: World, d: int): DailyStat {
    if d in w.stats then w.stats[d] else BLANK_DAY
  }

  // ----- pauses -----

  predicate CooldownOver(w: World) {
    w.safety.pause == Some(Cooldown) && w.safety.cooldownUntil.Some? && w.safety.cooldownUntil.value <= w.now
  }

  /** The day whose streak led to the pause: the day it was set, today when none was. */
  function PauseDay(w: World): int {
    (if w.safety.triggeredAt.Some? then w.safety.triggeredAt.value else w.now) / 86400
  }

  function StreakForgiven(w: World): map<int, DailyStat> {
    w.stats[PauseDay(w) := DayRow(w, PauseDay(w)).(streak := 0)]
  }

  /** The state once an expired cooldown has been lifted. */
  function Current(w: World): World {
    if CooldownOver(w) then
      w.(stats := StreakForgiven(w), safety := Safety(w.safety.killed, None, None, false, w.safety.triggeredAt))
    else w
  }

  /** Polling lifts an expired cooldown with the streak of its day; activating sets the switch unless it is set; a
      reset clears switch and pause, and the streak of a pause that came from one. */
  lemma SafetyCommandsArePlain(cfg: Settings, w: World, seconds: nat)
    ensures Apply(cfg, w, Poll) == Current(w)
    ensures Apply(cfg, w, Activate) ==
              if w.safety.killed then Current(w)
              else Current(w).(safety := Current(w).safety.(killed := true, triggeredAt := Some(w.now)))
    ensures Apply(cfg, w, Reset) ==
              w.(stats := if w.safety.pause in {Some(Cooldown), Some(HardLossStreak)} then StreakForgiven(w) else w.stats,
                 safety := Safety(false, None, None, false, w.safety.triggeredAt))
    ensures Apply(cfg, w, Tick(seconds)) == w.(now := w.now + seconds)
  {
  }

  // ----- the circuit breaker -----

  function DayLoss(w: World, d: int): real {
    Amount(DayRow(w, d).lossPct)
  }

  /** The losses of today and the six days before it. */
  function WeekLoss(w: World): real {
    var d := w.now / 86400;
    DayLoss(w, d) + DayLoss(w, d - 1) + DayLoss(w, d - 2) + DayLoss(w, d - 3) + DayLoss(w, d - 4) + DayLoss(w, d - 5) + DayLoss(w, d - 6)
  }

  lemma WeekPlainly(w: World)
    ensures LossOver(w, Today(w), 7) == WeekLoss(w)
  {
    hide StatOn, DayRow;
    var d := w.now / 86400;
    forall k
      ensures LossOn(w, k) == DayLoss(w, k)
    {
      assert StatOn(w, k) == DayRow(w, k) by { DayPlainly(w, k); }
    }
    assert LossOver(w, d, 1) == LossOver(w, d, 0) + DayLoss(w, d);
    assert LossOver(w, d, 2) == LossOver(w, d, 1) + DayLoss(w, d - 1);
    assert LossOver(w, d, 3) == LossOver(w, d, 2) + DayLoss(w, d - 2);
    assert LossOver(w, d, 4) == LossOver(w, d, 3) + DayLoss(w, d - 3);
    assert LossOver(w, d, 5) == LossOver(w, d, 4) + DayLoss(w, d - 4);
    assert LossOver(w, d, 6) == LossOver(w, d, 5) + DayLoss(w, d - 5);
    assert LossOver(w, d, 7) == LossOver(w, d, 6) + DayLoss(w, d - 6);
  }

  lemma DayPlainly(w: World, d: int)
    ensures StatOn(w, d) == DayRow(w, d)
  {
  }

  /** The state `w` under a pause set now. */
  function Paused(w: World, reason: PauseReason, manual: bool, until: Option<int>): World {
    w.(safety := Safety(w.safety.killed, Some(reason), until, manual, Some(w.now)))
  }

  /** The breaker's verdict: a standing pause and a full day refuse and set nothing; the day's loss, the week's loss
      and a long streak set a pause only a reset lifts; a shorter streak sets a cooldown that ends by itself. */
  ghost predicate Checked(cfg: Settings, w: World, v: World, passes: bool) {
    var u, today := Current(w), w.now / 86400;
    var row := DayRow(u, today);
    if u.safety.pause.Some? || row.total >= cfg.maxPerDay then v == u && !passes
    else if row.lossPct.Some? && row.lossPct.value >= cfg.dailyLimit then
      v == Paused(u, DailyLoss, true, None).(stats := u.stats[today := row.(tripped := true)]) && !passes
    else if WeekLoss(u) >= cfg.weeklyLimit then v == Paused(u, WeeklyLoss, true, None) && !passes
    else if row.streak >= cfg.hardLosses then v == Paused(u, HardLossStreak, true, None) && !passes
    else if row.streak >= cfg.softLosses then
      v == Paused(u, Cooldown, false, Some(w.now + cfg.cooldownSeconds)) && !passes
    else v == u && passes
  }

  lemma CurrentPlainly(w: World)
    ensures ClearPauseIfExpired(w) == Current(w)
    ensures Current(Current(w)) == Current(w) && Current(w).now == w.now && Current(w).trades == w.trades
  {
  }

  lemma CheckIsPlain(cfg: Settings, w: World)
    ensures var (v, passes) := Check(cfg, w); Checked(cfg, w, v, passes)
  {
    hide LossOver, Current, ClearPauseIfExpired, WeekLoss, StatOn, DayRow;
    CurrentPlainly(w);
    WeekPlainly(Current(w));
    DayPlainly(Current(w), w.now / 86400);
  }

  // ----- admission -----

  /** The executor's guards: kill switch, breaker, no row under way for the signal, a sized plan, and room for another
      open position. */
  ghost predicate Admitted(cfg: Settings, w: World, a: World, signal: nat, ex: Exchange, admits: bool, passes: bool) {
    if w.safety.killed then a == Current(w) && !admits
    else
      && Checked(cfg, w, a, passes)
      && (admits <==>
          && passes && ex.plan != Refuse
          && |set i | 0 <= i < |w.trades| && w.trades[i].status == PositionOpen| < cfg.maxOpen
          && forall i :: 0 <= i < |w.trades| && w.trades[i].terms.signalId == signal ==>
               w.trades[i].status in {OrderRejected, OrderCancelled, PositionClosed, CloseFailed, PnlRecorded})
  }

  lemma {:induction false} OpenPlainly(trades: seq<Trade>)
    ensures CountOpen(trades) == |set i | 0 <= i < |trades| && trades[i].status == PositionOpen|
  {
    if trades != [] {
      OpenPlainly(trades[..|trades| - 1]);
      OpenSetSnoc(trades);
    }
  }

  lemma OpenSetSnoc(trades: seq<Trade>)
    requires trades != []
    ensures
      var front := trades[..|trades| - 1];
      |set i | 0 <= i < |trades| && trades[i].status == PositionOpen|
        == |set i | 0 <= i < |front| && front[i].status == PositionOpen| + if trades[|trades| - 1].status == PositionOpen then 1 else 0
  {
    hide CountOpen;
    var front := trades[..|trades| - 1];
    var before := set i | 0 <= i < |front| && front[i].status == PositionOpen;
    assert (set i | 0 <= i < |trades| && trades[i].status == PositionOpen)
        == before + if trades[|trades| - 1].status == PositionOpen then {|front|} else {};
  }

  lemma CheckedTwice(cfg: Settings, w: World, v: World, passes: bool)
    requires Checked(cfg, Current(w), v, passes)
    ensures Checked(cfg, w, v, passes) && v.trades == w.trades
  {
    hide Current, WeekLoss, DayRow;
    CurrentPlainly(w);
  }

  lemma AdmissionIsPlain(cfg: Settings, w: World, signal: nat, ex: Exchange) returns (passes: bool)
    ensures var (a, admits) := Admit(cfg, w, signal, ex); Admitted(cfg, w, a, signal, ex, admits, passes)
  {
    hide Check, Checked, Current, ClearPauseIfExpired, CountOpen;
    CurrentPlainly(w);
    SwitchStays(w);
    CheckIsPlain(cfg, Current(w));
    var (v, p) := Check(cfg, Current(w));
    CheckedTwice(cfg, w, v, p);
    OpenPlainly(w.trades);
    passes := p;
  }

  lemma SwitchStays(w: World)
    ensures Current(w).safety.killed == w.safety.killed
  {
  }

  // ----- a repeated request -----

  /** The row that answers for a submission: the one it names, or the latest of its signal. */
  ghost predicate AnswersFor(w: World, s: Submission, id: nat) {
    if s.tradeId.Some? && s.tradeId.value < |w.trades| then id == s.tradeId.value
    else
      && id <= |w.trades|
      && (id < |w.trades| ==> s.signalId == Some(w.trades[id].terms.signalId))
      && forall i :: 0 <= i < |w.trades| && (id == |w.trades| || id < i) ==> s.signalId != Some(w.trades[i].terms.signalId)
  }

  predicate Over(s: Status) {
    s in {OrderRejected, OrderCancelled, PositionClosed, CloseFailed, PnlRecorded}
  }

  /** A repeated request is answered by its row while that is not over; a row of unknown fate is looked up first. */
  ghost predicate AnsweredAs(w: World, fingerprint: string, lookup: Lookup, seen: World, answered: bool, id: nat) {
    if fingerprint !in w.submissions then seen == w && !answered
    else
      && AnswersFor(w, w.submissions[fingerprint], id)
      && if id >= |w.trades| || Over(w.trades[id].status) then seen == w && !answered
         else
           var t := w.trades[id];
           if t.status != OrderPendingUnknown || !lookup.Found? || t.orderLink == None then seen == w && answered
           else
             var s := if Reported(lookup.remote) == None then OrderPendingUnknown else Reported(lookup.remote).value;
             seen == Rewritten(w, id, t.(status := s), [s]) && (answered <==> !Over(s))
  }

  lemma {:induction false} LatestOfSignal(trades: seq<Trade>, signal: nat)
    ensures var id := TradeOfSignal(trades, signal);
            forall i :: id < i < |trades| ==> trades[i].terms.signalId != signal
  {
    if trades != [] && trades[|trades| - 1].terms.signalId != signal {
      var front := trades[..|trades| - 1];
      LatestOfSignal(front, signal);
      assert forall i :: 0 <= i < |front| ==> front[i] == trades[i];
    }
  }

  lemma ReplayIsPlain(w: World, fingerprint: string, lookup: Lookup) returns (id: nat)
    ensures var (seen, answered) := Replayed(w, fingerprint, lookup); AnsweredAs(w, fingerprint, lookup, seen, answered, id)
  {
    hide Transition, Rewritten;
    id := 0;
    if fingerprint in w.submissions {
      var s := w.submissions[fingerprint];
      id := TradeFor(w, s);
      if s.signalId.Some? {
        LatestOfSignal(w.trades, s.signalId.value);
      }
      if id < |w.trades| && lookup.Found? {
        TransitionRewrites(w, id, LookupStatus(lookup.remote));
        RowOf(w, id, w.trades[id].(status := LookupStatus(lookup.remote)), [LookupStatus(lookup.remote)]);
      }
    }
  }

  // ----- the row a request creates and what is sent -----

  /** A new row in the columns of the request and the plan. */
  function Fresh(w: World, signal: nat, r: Request, plan: Plan, orderType: Option<OrderType>, link: nat, status: Status): Trade
    requires plan.Sized?
  {
    Trade(Terms(signal, w.now, r.symbol, r.direction, Spot, Some(plan.equity), Some(plan.riskAmount), Some(r.entry),
                Some(r.stop), Some(r.target), Some(plan.qty)),
          status, orderType, Some(link), None, None, None, None, None, None, None, None, None, None, None, None)
  }

  /** State `a` with the row appended, counted on today's row and logged along its way. */
  function Appended(a: World, t: Trade, through: seq<Status>): World {
    var today, n := a.now / 86400, |a.trades|;
    a.(trades := a.trades + [t],
       stats := a.stats[today := DayRow(a, today).(total := DayRow(a, today).total + 1)],
       events := a.events + [TradeEvent(n, None, RiskCalculated)] + Trail(n, RiskCalculated, through))
  }

  /** The row and what the exchange's replies make of it: a market order when takers are allowed or after a refused
      post-only attempt, and that attempt again under a new id; else a limit order. */
  ghost predicate SentAs(cfg: Settings, a: World, signal: nat, r: Request, ex: Exchange, v: World, verdict: Verdict)
    requires ex.plan.Sized?
  {
    var n, again := |a.trades|, cfg.orderMode == MakerPreferred && ex.first == RefusedBy(true);
    var sent := if cfg.orderMode == TakerAllowed || again then MarketOrder else LimitOrder;
    var link := if again then a.links + 1 else a.links;
    var row := (kind: OrderType, s: Status) => Fresh(a, signal, r, ex.plan, Some(kind), link, s);
    if cfg.shadow then
      && verdict == Returned
      && v == Appended(a, Fresh(a, signal, r, ex.plan, None, a.links, OrderSubmitted), [OrderSubmitted]).(links := a.links + 1)
    else
      match if again then ex.second else ex.first
      case Accepted =>
        && verdict == Returned
        && v == Appended(a, row(sent, OrderSubmitted), [SafetyChecked, OrderSubmitted]).(
                  links := link + 1, placed := a.placed + [Placement(EntryOrder(sent), n, link)])
      case RefusedBy(_) =>
        && verdict == RaisedAfterCommit
        && v == Appended(a, row(LimitOrder, OrderRejected), [SafetyChecked, OrderRejected]).(links := link + 1)
      case NoAnswer =>
        var s := if ex.submitLookup.Found? && Reported(ex.submitLookup.remote).Some? then Reported(ex.submitLookup.remote).value
                 else OrderPendingUnknown;
        && verdict == Returned
        && v == Appended(a, row(LimitOrder, s), [SafetyChecked, OrderPendingUnknown, s]).(links := link + 1)
      case Broken => verdict == NothingKept
  }

  /** An appended row with further ids and placements beside it. */
  function Beside(a: World, t: Trade, through: seq<Status>, links: nat, placed: seq<Placement>): World {
    Appended(a, t, through).(links := links, placed := placed)
  }

  lemma AppendedMoves(a: World, t: Trade, through: seq<Status>, s: Status, links: nat, placed: seq<Placement>)
    requires t.status == if through == [] then RiskCalculated else through[|through| - 1]
    ensures |Beside(a, t, through, links, placed).trades| == |a.trades| + 1
    ensures Transition(Beside(a, t, through, links, placed), |a.trades|, s) == Beside(a, t.(status := s), through + [s], links, placed)
  {
    hide Trail, Transition;
    var n, b := |a.trades|, Beside(a, t, through, links, placed);
    assert b.trades[n] == t;
    TransitionRewrites(b, n, s);
    TrailSnoc(n, RiskCalculated, through, s);
    assert (a.trades + [t])[n := t.(status := s)] == a.trades + [t.(status := s)];
    var made := a.events + [TradeEvent(n, None, RiskCalculated)];
    var trail, last := Trail(n, RiskCalculated, through), Trail(n, t.status, [s]);
    assert made + trail + last == made + (trail + last);
  }

  lemma AppendedPut(a: World, t: Trade, through: seq<Status>, u: Trade, links: nat, placed: seq<Placement>)
    ensures |Beside(a, t, through, links, placed).trades| == |a.trades| + 1
    ensures Beside(a, t, through, links, placed).trades[|a.trades|] == t
    ensures Put(Beside(a, t, through, links, placed), |a.trades|, u) == Beside(a, u, through, links, placed)
  {
    assert (a.trades + [t])[|a.trades| := u] == a.trades + [u];
  }

  lemma CreatedPlainly(a: World, signal: nat, r: Request, plan: Plan)
    requires plan.Sized?
    ensures CreateTrade(a, signal, r, plan) == Beside(a, Fresh(a, signal, r, plan, None, a.links, RiskCalculated), [], a.links + 1, a.placed)
  {
    var n := |a.trades|;
    DayPlainly(a, a.now / 86400);
    assert a.events + [TradeEvent(n, None, RiskCalculated)] + [] == a.events + [TradeEvent(n, None, RiskCalculated)];
  }

  lemma BesidePlainly(a: World, t: Trade, through: seq<Status>, links: nat, placed: seq<Placement>)
    ensures Beside(a, t, through, links, placed) == Appended(a, t, through).(links := links, placed := placed)
    ensures Beside(a, t, through, links, a.placed) == Appended(a, t, through).(links := links)
  {
  }

  /** One attempt, by the reply it meets. */
  ghost predicate AttemptedAs(a: World, t: Trade, links: nat, sent: OrderType, reply: Reply, lookup: Lookup, v: World, verdict: Verdict) {
    match reply
    case Accepted =>
      && verdict == Returned && t.orderLink.Some?
      && v == Appended(a, t.(orderType := Some(sent), status := OrderSubmitted), [SafetyChecked, OrderSubmitted]).(
                links := links, placed := a.placed + [Placement(EntryOrder(sent), |a.trades|, t.orderLink.value)])
    case RefusedBy(_) =>
      verdict == RaisedAfterCommit && v == Appended(a, t.(status := OrderRejected), [SafetyChecked, OrderRejected]).(links := links)
    case NoAnswer =>
      var s := if lookup.Found? && Reported(lookup.remote).Some? then Reported(lookup.remote).value else OrderPendingUnknown;
      verdict == Returned && v == Appended(a, t.(status := s), [SafetyChecked, OrderPendingUnknown, s]).(links := links)
    case Broken => verdict == NothingKept
  }

  /** One placement of the entry order of the appended row. */
  lemma PlacePlainly(a: World, t: Trade, links: nat, sent: OrderType, reply: Reply, lookup: Lookup)
    requires t.status == SafetyChecked && t.orderLink.Some?
    ensures |Beside(a, t, [SafetyChecked], links, a.placed).trades| == |a.trades| + 1
    ensures Beside(a, t, [SafetyChecked], links, a.placed).trades[|a.trades|] == t
    ensures Beside(a, t, [SafetyChecked], links, a.placed).links == links
    ensures
      var (v, verdict) := Place(Beside(a, t, [SafetyChecked], links, a.placed), |a.trades|, sent, reply, lookup);
      AttemptedAs(a, t, links, sent, reply, lookup, v, verdict)
  {
    hide Transition, Appended, Trail, Put, Beside;
    AppendedPut(a, t, [SafetyChecked], t.(orderType := Some(sent)), links, a.placed);
    BesidePlaced(a, t, [SafetyChecked], links, a.placed, a.placed);
    match reply
    case Accepted =>
      var marked := t.(orderType := Some(sent));
      var more := a.placed + [Placement(EntryOrder(sent), |a.trades|, t.orderLink.value)];
      BesidePlaced(a, marked, [SafetyChecked], links, a.placed, more);
      AppendedMoves(a, marked, [SafetyChecked], OrderSubmitted, links, more);
      assert [SafetyChecked] + [OrderSubmitted] == [SafetyChecked, OrderSubmitted];
      BesidePlainly(a, marked.(status := OrderSubmitted), [SafetyChecked, OrderSubmitted], links, more);
    case RefusedBy(_) =>
      AppendedMoves(a, t, [SafetyChecked], OrderRejected, links, a.placed);
      assert [SafetyChecked] + [OrderRejected] == [SafetyChecked, OrderRejected];
      BesidePlainly(a, t.(status := OrderRejected), [SafetyChecked, OrderRejected], links, a.placed);
    case NoAnswer =>
      var s := if lookup.Found? && Reported(lookup.remote).Some? then Reported(lookup.remote).value else OrderPendingUnknown;
      UnansweredPlainly(a, t, links, lookup);
      BesidePlainly(a, t.(status := s), [SafetyChecked, OrderPendingUnknown, s], links, a.placed);
    case Broken =>
  }

  lemma BesidePlaced(a: World, t: Trade, through: seq<Status>, links: nat, placed: seq<Placement>, more: seq<Placement>)
    ensures Beside(a, t, through, links, placed).(placed := more) == Beside(a, t, through, links, more)
    ensures Beside(a, t, through, links, placed).placed == placed && Beside(a, t, through, links, placed).links == links
  {
  }

  lemma UnansweredPlainly(a: World, t: Trade, links: nat, lookup: Lookup)
    requires t.status == SafetyChecked && t.orderLink.Some?
    ensures |Beside(a, t, [SafetyChecked], links, a.placed).trades| == |a.trades| + 1
    ensures
      var s := if lookup.Found? && Reported(lookup.remote).Some? then Reported(lookup.remote).value else OrderPendingUnknown;
      Unanswered(Beside(a, t, [SafetyChecked], links, a.placed), |a.trades|, lookup)
        == Beside(a, t.(status := s), [SafetyChecked, OrderPendingUnknown, s], links, a.placed)
  {
    hide Transition, Appended, Beside, Trail;
    var s := if lookup.Found? && Reported(lookup.remote).Some? then Reported(lookup.remote).value else OrderPendingUnknown;
    var waiting := t.(status := OrderPendingUnknown);
    AppendedMoves(a, t, [SafetyChecked], OrderPendingUnknown, links, a.placed);
    assert [SafetyChecked] + [OrderPendingUnknown] == [SafetyChecked, OrderPendingUnknown];
    AppendedPut(a, waiting, [SafetyChecked, OrderPendingUnknown], waiting, links, a.placed);
    AppendedMoves(a, waiting, [SafetyChecked, OrderPendingUnknown], s, links, a.placed);
    assert [SafetyChecked, OrderPendingUnknown] + [s] == [SafetyChecked, OrderPendingUnknown, s];
    if !lookup.Found? {
      StayingPut(a, waiting, links);
    }
  }

  lemma StayingPut(a: World, t: Trade, links: nat)
    ensures Beside(a, t, [SafetyChecked, OrderPendingUnknown, OrderPendingUnknown], links, a.placed)
         == Beside(a, t, [SafetyChecked, OrderPendingUnknown], links, a.placed)
  {
    var n := |a.trades|;
    var longer := [SafetyChecked, OrderPendingUnknown, OrderPendingUnknown];
    assert longer[..2] == [SafetyChecked, OrderPendingUnknown];
    assert Trail(n, RiskCalculated, longer) == Trail(n, RiskCalculated, longer[..2]) + [];
  }

  /** The row is complete and waits as a limit order when the executor starts to send it. */
  lemma PreparedPlainly(a: World, signal: nat, r: Request, plan: Plan)
    requires plan.Sized?
    ensures |CreateTrade(a, signal, r, plan).trades| == |a.trades| + 1
    ensures CreateTrade(a, signal, r, plan).trades[|a.trades|].orderLink.Some?
    ensures
      var n, created := |a.trades|, CreateTrade(a, signal, r, plan);
      var checked := Transition(created, n, SafetyChecked);
      && Transition(created, n, OrderSubmitted)
           == Beside(a, Fresh(a, signal, r, plan, None, a.links, OrderSubmitted), [OrderSubmitted], a.links + 1, a.placed)
      && Put(checked, n, checked.trades[n].(orderType := Some(LimitOrder)))
           == Beside(a, Fresh(a, signal, r, plan, Some(LimitOrder), a.links, SafetyChecked), [SafetyChecked], a.links + 1, a.placed)
  {
    hide Transition, CreateTrade, Put, Trail, Beside;
    var t := Fresh(a, signal, r, plan, None, a.links, RiskCalculated);
    CreatedPlainly(a, signal, r, plan);
    AppendedMoves(a, t, [], OrderSubmitted, a.links + 1, a.placed);
    AppendedMoves(a, t, [], SafetyChecked, a.links + 1, a.placed);
    assert [] + [OrderSubmitted] == [OrderSubmitted] && [] + [SafetyChecked] == [SafetyChecked];
    AppendedPut(a, t, [], t, a.links + 1, a.placed);
    var checked := t.(status := SafetyChecked);
    AppendedPut(a, checked, [SafetyChecked], checked.(orderType := Some(LimitOrder)), a.links + 1, a.placed);
  }

  lemma SendingIsPlain(cfg: Settings, a: World, signal: nat, r: Request, ex: Exchange)
    requires ex.plan.Sized?
    ensures |CreateTrade(a, signal, r, ex.plan).trades| == |a.trades| + 1
    ensures CreateTrade(a, signal, r, ex.plan).trades[|a.trades|].orderLink.Some?
    ensures
      var (v, verdict) := Dispatch(cfg, CreateTrade(a, signal, r, ex.plan), |a.trades|, ex);
      SentAs(cfg, a, signal, r, ex, v, verdict)
  {
    hide Transition, Place, CreateTrade, Put, Beside, Appended, Reported;
    PreparedPlainly(a, signal, r, ex.plan);
    if cfg.shadow {
      BesidePlainly(a, Fresh(a, signal, r, ex.plan, None, a.links, OrderSubmitted), [OrderSubmitted], a.links + 1, a.placed);
    } else {
      var limit := Fresh(a, signal, r, ex.plan, Some(LimitOrder), a.links, SafetyChecked);
      var renewed := limit.(orderLink := Some(a.links + 1));
      PlacePlainly(a, limit, a.links + 1, MarketOrder, ex.first, ex.submitLookup);
      PlacePlainly(a, limit, a.links + 1, LimitOrder, ex.first, ex.submitLookup);
      PlacePlainly(a, renewed, a.links + 2, MarketOrder, ex.second, ex.submitLookup);
      RenumberedPlainly(a, limit, renewed);
    }
  }

  lemma RenumberedPlainly(a: World, t: Trade, u: Trade)
    ensures |Beside(a, t, [SafetyChecked], a.links + 1, a.placed).trades| == |a.trades| + 1
    ensures Put(TakeLink(Beside(a, t, [SafetyChecked], a.links + 1, a.placed)), |a.trades|, u)
         == Beside(a, u, [SafetyChecked], a.links + 2, a.placed)
  {
    AppendedPut(a, t, [SafetyChecked], u, a.links + 2, a.placed);
  }

  // ----- a submission as a whole -----

  /** The stages a submission goes through: answered from a row, admitted, sent. */
  datatype Course = Course(row: nat, seen: World, answered: bool, guarded: World, passes: bool, admits: bool, sent: World, verdict: Verdict)

  /** A request is answered by its row, or takes a new signal, passes the guards and is sent; the submission learns its
      row when the executor returns and the process survives; a broken sending leaves what the guards wrote. */
  ghost predicate SubmittedAs(cfg: Settings, w: World, v: World, fingerprint: string, r: Request, ex: Exchange, k: Course) {
    var signal := |w.signals|;
    && AnsweredAs(w, fingerprint, ex.replayLookup, k.seen, k.answered, k.row)
    && if k.answered then v == k.seen
       else
         var renewed := k.seen.(signals := w.signals + [fingerprint],
                                submissions := w.submissions[fingerprint := Submission(Some(signal), None)]);
         && Admitted(cfg, renewed, k.guarded, signal, ex, k.admits, k.passes)
         && if !k.admits || !ex.plan.Sized? then v == k.guarded
            else
              && SentAs(cfg, k.guarded, signal, r, ex, k.sent, k.verdict)
              && v == if k.verdict == NothingKept then k.guarded
                      else if k.verdict == Returned && !ex.crash then
                        k.sent.(submissions := w.submissions[fingerprint := Submission(Some(signal), Some(|w.trades|))])
                      else k.sent
  }

  lemma SeenPlainly(w: World, fingerprint: string, lookup: Lookup)
    ensures
      var seen := Replayed(w, fingerprint, lookup).0;
      seen.signals == w.signals && seen.submissions == w.submissions && |seen.trades| == |w.trades| && seen.now == w.now
  {
    hide TradeFor, LookupStatus;
  }

  lemma SentKeepsTables(cfg: Settings, a: World, signal: nat, r: Request, ex: Exchange, v: World, verdict: Verdict)
    requires ex.plan.Sized? && SentAs(cfg, a, signal, r, ex, v, verdict) && verdict != NothingKept
    ensures v.submissions == a.submissions && v.signals == a.signals && v.now == a.now && v.safety == a.safety
  {
    hide Trail, Fresh;
  }

  lemma GuardedKeepsTables(cfg: Settings, w: World, a: World, signal: nat, ex: Exchange, admits: bool, passes: bool)
    requires Admitted(cfg, w, a, signal, ex, admits, passes)
    ensures a.submissions == w.submissions && a.signals == w.signals && a.trades == w.trades && a.now == w.now
    ensures admits ==> ex.plan.Sized?
  {
    hide WeekLoss;
  }

  lemma SubmissionIsPlain(cfg: Settings, w: World, fingerprint: string, r: Request, ex: Exchange) returns (k: Course)
    ensures SubmittedAs(cfg, w, Apply(cfg, w, Submit(fingerprint, r, ex)), fingerprint, r, ex, k)
  {
    hide Replayed, Admit, Dispatch, AnsweredAs, Admitted, SentAs, CreateTrade;
    var (seen, answered) := Replayed(w, fingerprint, ex.replayLookup);
    var row := ReplayIsPlain(w, fingerprint, ex.replayLookup);
    SeenPlainly(w, fingerprint, ex.replayLookup);
    var signal := |seen.signals|;
    var renewed := Renew(seen, fingerprint);
    var passes := AdmissionIsPlain(cfg, renewed, signal, ex);
    var (a, admits) := Admit(cfg, renewed, signal, ex);
    GuardedKeepsTables(cfg, renewed, a, signal, ex, admits, passes);
    k := Course(row, seen, answered, a, passes, admits, a, NothingKept);
    if admits {
      SendingIsPlain(cfg, a, signal, r, ex);
      var (sent, verdict) := Dispatch(cfg, CreateTrade(a, signal, r, ex.plan), |a.trades|, ex);
      k := k.(sent := sent, verdict := verdict);
      if verdict != NothingKept {
        SentKeepsTables(cfg, a, signal, r, ex, sent, verdict);
      }
      var m := w.submissions;
      assert m[fingerprint := Submission(Some(signal), None)][fingerprint := Submission(Some(signal), Some(|w.trades|))]
          == m[fingerprint := Submission(Some(signal), Some(|w.trades|))];
    }
  }
}

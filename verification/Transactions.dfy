/** Each transaction of the lifecycle as one equation between the stored state before and after it: which columns of
    the row it writes, what it adds to the log, the placements and the ids, and what it leaves alone. */
module Transactions {
  import opened Prelude
  import opened Journal

  // ----- vocabulary -----

  function Amount(a: Option<real>): real {
    if a == None then 0.0 else a.value
  }

  /** An absent or zero amount is not known. */
  function Known(a: Option<real>, otherwise: real): real {
    if a == None || a == Some(0.0) then otherwise else a.value
  }

  /** Log entries of a row that passes through these statuses in turn; staying put leaves none. */
  function Trail(id: nat, from: Status, through: seq<Status>): seq<TradeEvent> {
    if through == [] then []
    else Trail(id, from, through[..|through| - 1]) +
         var last := if |through| == 1 then from else through[|through| - 2];
         if through[|through| - 1] == last then [] else [TradeEvent(id, Some(last), through[|through| - 1])]
  }

  /** The state with row `id` rewritten and its passage logged, all else the same. */
  function Rewritten(w: World, id: nat, t: Trade, through: seq<Status>): World
    requires id < |w.trades|
  {
    w.(trades := w.trades[id := t], events := w.events + Trail(id, w.trades[id].status, through))
  }

  // ----- building blocks -----

  lemma TransitionRewrites(w: World, id: nat, s: Status)
    requires id < |w.trades|
    ensures Transition(w, id, s) == Rewritten(w, id, w.trades[id].(status := s), [s])
  {
    var from := w.trades[id].status;
    assert [s][..0] == [];
    assert Trail(id, from, [s]) == if s == from then [] else [TradeEvent(id, Some(from), s)];
    if s == from {
      assert w.trades[id := w.trades[id]] == w.trades && w.events + [] == w.events;
    }
  }

  lemma PutRewrites(w: World, id: nat, t: Trade)
    requires id < |w.trades|
    ensures Put(w, id, t) == Rewritten(w, id, t, [])
  {
    assert w.events + [] == w.events;
  }

  lemma TrailSnoc(id: nat, from: Status, through: seq<Status>, s: Status)
    ensures
      var last := if through == [] then from else through[|through| - 1];
      Trail(id, from, through + [s]) == Trail(id, from, through) + Trail(id, last, [s])
  {
    var longer := through + [s];
    assert longer[..|longer| - 1] == through && longer[|longer| - 1] == s;
    assert [s][..0] == [];
  }

  /** A rewriting that ends in status `s` followed by a transition. */
  lemma ThenTransition(w: World, id: nat, t: Trade, through: seq<Status>, s: Status)
    requires id < |w.trades| && t.status == if through == [] then w.trades[id].status else through[|through| - 1]
    ensures Transition(Rewritten(w, id, t, through), id, s) == Rewritten(w, id, t.(status := s), through + [s])
  {
    hide Trail, Transition;
    var u := Rewritten(w, id, t, through);
    TransitionRewrites(u, id, s);
    TrailSnoc(id, w.trades[id].status, through, s);
    assert w.trades[id := t][id := t.(status := s)] == w.trades[id := t.(status := s)];
    var from := w.trades[id].status;
    assert (w.events + Trail(id, from, through)) + Trail(id, t.status, [s]) == w.events + (Trail(id, from, through) + Trail(id, t.status, [s]));
  }

  lemma ThenPut(w: World, id: nat, t: Trade, through: seq<Status>, u: Trade)
    requires id < |w.trades|
    ensures Put(Rewritten(w, id, t, through), id, u) == Rewritten(w, id, u, through)
  {
    assert w.trades[id := t][id := u] == w.trades[id := u];
  }

  // ----- protective orders -----

  /** What asking for protection does to a row, and whether the position may open. Only a spot market entry needs it;
      a refused stop is answered by the kill switch and an emergency close. */
  ghost predicate Protected(cfg: Settings, w: World, v: World, id: nat, data: OrderData, ready: bool)
    requires id < |w.trades|
  {
    var t := w.trades[id];
    if !cfg.hasClient then v == w && !ready
    else if t.terms.market != Spot || t.orderType != Some(MarketOrder) then v == w && ready
    else if Known(t.filledQty, Amount(t.terms.qty)) == 0.0 || t.terms.stopPrice == None then v == w && !ready
    else if t.stopLink == None && !data.stopOk then
      var s := if data.closeOk then ClosePending else CloseFailed;
      && !ready
      && v == Rewritten(w, id, t.(closeLink := Some(w.links + 1), exitReason := Some(KillSwitchExit), status := s), [s]).(
           safety := w.safety.(killed := true, triggeredAt := Some(w.now)),
           links := w.links + 2,
           placed := w.placed + if data.closeOk then [Placement(CloseOrder, id, w.links + 1)] else [])
    else
      var stops, takes := t.stopLink == None, t.terms.targetPrice.Some? && t.tpLink == None;
      var second := if stops then w.links + 1 else w.links;
      && ready
      && v == w.(
           trades := w.trades[id := t.(stopLink := if stops then Some(w.links) else t.stopLink,
                                       tpLink := if takes && data.tpOk then Some(second) else t.tpLink)],
           links := w.links + (if stops then 1 else 0) + (if takes then 1 else 0),
           placed := w.placed + (if stops then [Placement(StopOrder, id, w.links)] else [])
                              + (if takes && data.tpOk then [Placement(TakeProfitOrder, id, second)] else []))
  }

  lemma SizesAgree(t: Trade)
    ensures Or0(Or(t.filledQty, t.terms.qty)) == Known(t.filledQty, Amount(t.terms.qty))
  {
  }

  lemma FailurePlainly(w: World, id: nat, closeOk: bool)
    requires id < |w.trades|
    ensures
      var s := if closeOk then ClosePending else CloseFailed;
      StopFailure(TakeLink(w), id, closeOk) ==
        Rewritten(w, id, w.trades[id].(closeLink := Some(w.links + 1), exitReason := Some(KillSwitchExit), status := s), [s]).(
          safety := w.safety.(killed := true, triggeredAt := Some(w.now)),
          links := w.links + 2,
          placed := w.placed + if closeOk then [Placement(CloseOrder, id, w.links + 1)] else [])
  {
    hide Transition, Trail;
    var t := w.trades[id].(closeLink := Some(w.links + 1), exitReason := Some(KillSwitchExit));
    var v := w.(links := w.links + 2, safety := w.safety.(killed := true, triggeredAt := Some(w.now)));
    var u := Put(v, id, t);
    var s := if closeOk then ClosePending else CloseFailed;
    var a := if closeOk then AcceptOrder(u, CloseOrder, id, w.links + 1) else u;
    assert StopFailure(TakeLink(w), id, closeOk) == Transition(a, id, s);
    TransitionRewrites(a, id, s);
    assert w.trades[id := t][id := t.(status := s)] == w.trades[id := t.(status := s)];
    assert w.placed + [] == w.placed;
  }

  lemma ArmingPlainly(w: World, id: nat, tpOk: bool)
    requires id < |w.trades|
    ensures
      var t := w.trades[id];
      var stops, takes := t.stopLink == None, t.terms.targetPrice.Some? && t.tpLink == None;
      var second := if stops then w.links + 1 else w.links;
      ArmTakeProfit(if stops then ArmStop(w, id) else w, id, tpOk) == w.(
        trades := w.trades[id := t.(stopLink := if stops then Some(w.links) else t.stopLink,
                                    tpLink := if takes && tpOk then Some(second) else t.tpLink)],
        links := w.links + (if stops then 1 else 0) + (if takes then 1 else 0),
        placed := w.placed + (if stops then [Placement(StopOrder, id, w.links)] else [])
                           + (if takes && tpOk then [Placement(TakeProfitOrder, id, second)] else []))
  {
    var t := w.trades[id];
    var armed := t.(stopLink := Some(w.links));
    assert w.trades[id := t] == w.trades;
    assert w.trades[id := armed][id := armed.(tpLink := Some(w.links + 1))] == w.trades[id := armed.(tpLink := Some(w.links + 1))];
    assert w.placed + [] == w.placed;
    assert (w.placed + [Placement(StopOrder, id, w.links)]) + [] == w.placed + [Placement(StopOrder, id, w.links)];
  }

  lemma ProtectionIsPlain(cfg: Settings, w: World, id: nat, data: OrderData)
    requires id < |w.trades|
    ensures var (v, ready) := EnsureProtection(cfg, w, id, data); Protected(cfg, w, v, id, data, ready)
  {
    hide StopFailure, ArmTakeProfit, ArmStop, Rewritten, Known, Amount, Or, Or0;
    SizesAgree(w.trades[id]);
    FailurePlainly(w, id, data.closeOk);
    ArmingPlainly(w, id, data.tpOk);
  }

  /** The missing-protection sweep acts on a filled spot market row, confirmed or open, that lacks a stop or a wanted
      take-profit. */
  lemma SweepIsPlain(cfg: Settings, w: World, id: nat, data: OrderData)
    ensures
      var v := Apply(cfg, w, ReconcileProtection(id, data));
      if id < |w.trades| && cfg.hasClient && w.trades[id].terms.market == Spot
         && w.trades[id].orderType == Some(MarketOrder)
         && (w.trades[id].status == OrderConfirmed || w.trades[id].status == PositionOpen)
         && w.trades[id].filledQty != None && w.trades[id].filledQty != Some(0.0)
         && (w.trades[id].stopLink == None || (w.trades[id].terms.targetPrice != None && w.trades[id].tpLink == None))
      then Protected(cfg, w, v, id, data, true) || Protected(cfg, w, v, id, data, false)
      else v == w
  {
    hide EnsureProtection, Protected;
    if id < |w.trades| {
      ProtectionIsPlain(cfg, w, id, data);
    }
  }

  // ----- entry updates -----

  /** The status an exchange report stands for. */
  function Reported(remote: Remote): Option<Status> {
    if remote == Filled then Some(OrderConfirmed)
    else if remote == Rejected then Some(OrderRejected)
    else if remote == Cancelled then Some(OrderCancelled)
    else if remote == PartiallyFilled then Some(OrderPartiallyFilled)
    else None
  }

  predicate IsExitOrder(t: Trade, link: nat) {
    Some(link) in [t.closeLink, t.stopLink, t.tpLink]
  }

  /** A row that an entry report cannot move any more. */
  predicate PastEntry(t: Trade, remote: Remote) {
    || t.status in {PositionOpen, ClosePending, PositionClosed, CloseFailed, PnlRecorded}
    || (t.status == OrderConfirmed && remote == PartiallyFilled)
  }

  /** The row as a report of a fill leaves it. */
  function Bought(t: Trade, data: OrderData, now: int): Trade {
    t.(status := OrderConfirmed, openedAt := Some(now),
       avgFill := if data.avgPrice == None then t.avgFill else data.avgPrice,
       filledQty := if data.cumQty == None then t.filledQty else data.cumQty)
  }

  /** An entry report: nothing, a status, or a fill; a complete fill asks for protection and opens the position when
      it is in place. `p` is the state after protection. */
  ghost predicate EntryUpdated(cfg: Settings, w: World, v: World, id: nat, data: OrderData, p: World, ready: bool)
    requires id < |w.trades|
  {
    var t := w.trades[id];
    if data.remote == Other || PastEntry(t, data.remote) then v == w
    else if data.remote != Filled then
      var s := Reported(data.remote).value;
      v == Rewritten(w, id, t.(status := s), [s])
    else
      var bought := Rewritten(w, id, Bought(t, data, w.now), [OrderConfirmed]);
      if !data.fully then v == bought
      else
        && Protected(cfg, bought, p, id, data, ready) && |p.trades| == |w.trades|
        && v == if ready then Rewritten(p, id, p.trades[id].(status := PositionOpen), [PositionOpen]) else p
  }

  lemma FillPlainly(cfg: Settings, w: World, id: nat, data: OrderData) returns (p: World, ready: bool)
    requires id < |w.trades|
    ensures |p.trades| == |w.trades|
    ensures
      var bought := Rewritten(w, id, Bought(w.trades[id], data, w.now), [OrderConfirmed]);
      EntryFilled(cfg, w, id, data) ==
        if !data.fully then bought
        else if ready then Rewritten(p, id, p.trades[id].(status := PositionOpen), [PositionOpen]) else p
    ensures Protected(cfg, Rewritten(w, id, Bought(w.trades[id], data, w.now), [OrderConfirmed]), p, id, data, ready)
  {
    hide EnsureProtection, Transition, Rewritten, Protected;
    var t := w.trades[id];
    var f := t.(avgFill := if data.avgPrice.Some? then data.avgPrice else t.avgFill,
                filledQty := if data.cumQty.Some? then data.cumQty else t.filledQty);
    var confirmed := Transition(Put(w, id, f), id, OrderConfirmed);
    PutRewrites(w, id, f);
    ThenTransition(w, id, f, [], OrderConfirmed);
    assert [] + [OrderConfirmed] == [OrderConfirmed];
    assert confirmed == Rewritten(w, id, f.(status := OrderConfirmed), [OrderConfirmed]);
    RowOf(w, id, f.(status := OrderConfirmed), [OrderConfirmed]);
    ThenPut(w, id, f.(status := OrderConfirmed), [OrderConfirmed], Bought(t, data, w.now));
    var bought := Put(confirmed, id, confirmed.trades[id].(openedAt := Some(w.now)));
    assert bought == Rewritten(w, id, Bought(t, data, w.now), [OrderConfirmed]);
    RowOf(w, id, Bought(t, data, w.now), [OrderConfirmed]);
    ProtectionIsPlain(cfg, bought, id, data);
    p, ready := EnsureProtection(cfg, bought, id, data).0, EnsureProtection(cfg, bought, id, data).1;
    TransitionRewrites(p, id, PositionOpen);
  }

  lemma RowOf(w: World, id: nat, t: Trade, through: seq<Status>)
    requires id < |w.trades|
    ensures |Rewritten(w, id, t, through).trades| == |w.trades| && Rewritten(w, id, t, through).trades[id] == t
  {
  }

  lemma EntryUpdateIsPlain(cfg: Settings, w: World, id: nat, link: nat, data: OrderData) returns (p: World, ready: bool)
    requires id < |w.trades| && !IsExitOrder(w.trades[id], link)
    ensures EntryUpdated(cfg, w, ApplyOrderUpdate(cfg, w, id, link, data), id, data, p, ready)
  {
    hide EntryFilled, ProtectiveFilled, Transition, Rewritten, Protected, Bought;
    p, ready := FillPlainly(cfg, w, id, data);
    if Reported(data.remote).Some? {
      TransitionRewrites(w, id, Reported(data.remote).value);
    }
  }

  // ----- exit updates and results -----

  /** The result of a trade closed at its exit price. A long gains its exit less its entry on its size, a short the
      opposite; the entry is the average fill or else the ordered price, the size the filled quantity or else the
      ordered one. Both ratios give the gain back when multiplied by equity and by the amount risked, and are there
      exactly when these are known and not zero. */
  ghost predicate ResultIs(terms: Terms, avgFill: Option<real>, filledQty: Option<real>, avgExit: Option<real>, r: Realized) {
    var ordered := if terms.entryPrice.Some? then terms.entryPrice.value else 0.0;
    var entry := if avgFill.Some? && avgFill.value != 0.0 then avgFill.value else ordered;
    var planned := if terms.qty.Some? then terms.qty.value else 0.0;
    var size := if filledQty.Some? && filledQty.value != 0.0 then filledQty.value else planned;
    var exit := if avgExit.Some? then avgExit.value else 0.0;
    var equity, risked := terms.equity, terms.riskAmount;
    && (terms.direction == Long ==> r.pnl == (exit - entry) * size)
    && (terms.direction == Short ==> r.pnl == (entry - exit) * size)
    && (r.pct.Some? <==> equity.Some? && equity.value != 0.0) && (r.pct.Some? ==> r.pct.value * equity.value == r.pnl)
    && (r.inR.Some? <==> risked.Some? && risked.value != 0.0) && (r.inR.Some? ==> r.inR.value * risked.value == r.pnl)
  }

  ghost predicate ResultOf(t: Trade) {
    t.realized.Some? && ResultIs(t.terms, t.avgFill, t.filledQty, t.avgExit, t.realized.value)
  }

  /** How a day's row takes a result in. */
  ghost predicate TakesIn(before: DailyStat, after: DailyStat, t: Trade)
    requires t.realized.Some?
  {
    var pnl, pct, fee, symbol := t.realized.value.pnl, t.realized.value.pct, Amount(t.feePaid), t.terms.symbol;
    var past := if symbol in before.symbols then before.symbols[symbol] else SymbolStat(0, 0, 0);
    var lost := pnl < 0.0;
    && after.total == (if before.total > before.wins + before.losses then before.total else before.total + 1)
    && after.gross == before.gross + pnl && after.fees == before.fees + fee && after.net == before.net + pnl - fee
    && after.tripped == before.tripped
    && after.wins == before.wins + (if lost then 0 else 1)
    && after.losses == before.losses + (if lost then 1 else 0)
    && after.streak == (if lost then before.streak + 1 else 0)
    && after.lossPct == (if lost && pct.Some? then Some(Amount(before.lossPct) + if pct.value < 0.0 then -pct.value else pct.value)
                         else before.lossPct)
    && after.symbols == before.symbols[symbol :=
         SymbolStat(past.wins + if lost then 0 else 1, past.losses + if lost then 1 else 0, if lost then past.streak + 1 else 0)]
  }

  /** Row `id` ends recorded as `t`, and the row of the day takes its result in. */
  ghost predicate Settled(w: World, v: World, id: nat, t: Trade, through: seq<Status>)
    requires id < |w.trades|
  {
    var today := w.now / 86400;
    var before := if today in w.stats then w.stats[today] else DailyStat(0, 0, 0, 0, 0.0, 0.0, 0.0, None, map[], false);
    && ResultOf(t)
    && today in v.stats && TakesIn(before, v.stats[today], t)
    && v == Rewritten(w, id, t, through).(stats := w.stats[today := v.stats[today]])
  }

  lemma RatioPlainly(pnl: real, base: Option<real>)
    ensures PnlRatio(pnl, base).Some? <==> base != None && base != Some(0.0)
    ensures PnlRatio(pnl, base).Some? ==> PnlRatio(pnl, base).value * base.value == pnl
  {
  }

  lemma PricesPlainly(t: Trade)
    ensures
      var ordered := if t.terms.entryPrice.Some? then t.terms.entryPrice.value else 0.0;
      Or0(Or(t.avgFill, t.terms.entryPrice)) == if t.avgFill.Some? && t.avgFill.value != 0.0 then t.avgFill.value else ordered
    ensures
      var planned := if t.terms.qty.Some? then t.terms.qty.value else 0.0;
      Or0(Or(t.filledQty, t.terms.qty)) == if t.filledQty.Some? && t.filledQty.value != 0.0 then t.filledQty.value else planned
    ensures Or0(t.avgExit) == if t.avgExit.Some? then t.avgExit.value else 0.0
  {
  }

  lemma GainPlainly(direction: Direction, entry: real, exit: real, size: real)
    ensures direction == Long ==> Gain(direction, entry, exit, size) == (exit - entry) * size
    ensures direction == Short ==> Gain(direction, entry, exit, size) == (entry - exit) * size
  {
  }

  lemma ResultPlainly(t: Trade)
    ensures ResultOf(WithResult(t, Or0(t.avgExit)))
  {
    hide PnlRatio, Or, Or0, Gain;
    PricesPlainly(t);
    GainPlainly(t.terms.direction, Or0(Or(t.avgFill, t.terms.entryPrice)), Or0(t.avgExit), Or0(Or(t.filledQty, t.terms.qty)));
    var pnl := RealizedPnl(t, Or0(t.avgExit));
    RatioPlainly(pnl, t.terms.equity);
    RatioPlainly(pnl, t.terms.riskAmount);
  }

  lemma OutcomePlainly(before: DailyStat, t: Trade)
    requires t.realized.Some?
    ensures TakesIn(before, Outcome(before, t, t.realized.value), t)
  {
  }

  /** The last writes of every way to settle: the result of `t`, its status, the row of the day. */
  lemma RecordingPlainly(w: World, closed: World, id: nat, t0: Trade, t: Trade, through: seq<Status>)
    requires id < |w.trades| && closed == Rewritten(w, id, t0, through) && t.closedAt == Some(w.now)
    requires t.status == if through == [] then w.trades[id].status else through[|through| - 1]
    ensures
      var u := Put(closed, id, WithResult(t, Or0(t.avgExit)));
      var v := ApplyOutcome(Transition(u, id, PnlRecorded), id);
      && Settled(w, v, id, t.(realized := v.trades[id].realized, status := PnlRecorded), through + [PnlRecorded])
      && |v.trades| == |w.trades|
  {
    hide Transition, WithResult, Outcome, ResultOf, TakesIn;
    var r := WithResult(t, Or0(t.avgExit));
    ResultRow(t, Or0(t.avgExit));
    ThenPut(w, id, t0, through, r);
    ThenTransition(w, id, r, through, PnlRecorded);
    var recorded := r.(status := PnlRecorded);
    RowOf(w, id, recorded, through + [PnlRecorded]);
    ResultPlainly(t);
    ResultIgnoresStatus(r);
    OutcomePlainly(StatOn(w, w.now / 86400), recorded);
  }

  lemma ResultRow(t: Trade, exit: real)
    ensures WithResult(t, exit) == t.(realized := WithResult(t, exit).realized)
  {
  }

  lemma ResultIgnoresStatus(t: Trade)
    requires ResultOf(t)
    ensures ResultOf(t.(status := PnlRecorded))
  {
    hide ResultIs;
  }

  /** An exit report on the close order, the stop or the take-profit. */
  ghost predicate ExitUpdated(w: World, v: World, id: nat, link: nat, data: OrderData)
    requires id < |w.trades|
  {
    var t := w.trades[id];
    if data.remote == Other || t.status == PnlRecorded then v == w
    else if data.remote == Filled then
      && |v.trades| == |w.trades|
      && var reason := if t.stopLink == Some(link) then SlHit else if t.tpLink == Some(link) then TpHit
                       else if t.exitReason == None then Manual else t.exitReason.value;
         Settled(w, v, id,
                 t.(status := PnlRecorded, avgExit := Some(Amount(data.avgPrice)), closedAt := Some(w.now),
                    heldFor := if t.openedAt == None then t.heldFor else Some(w.now - t.openedAt.value),
                    exitReason := Some(reason), realized := v.trades[id].realized),
                 [OrderConfirmed, PositionClosed, PnlRecorded])
    else if data.remote == PartiallyFilled then
      v == Rewritten(w, id, t.(status := OrderPartiallyFilled), [OrderPartiallyFilled])
    else
      v == Rewritten(w, id, t.(status := CloseFailed), [Reported(data.remote).value, CloseFailed])
  }

  lemma ExitFillPlainly(w: World, id: nat, link: nat, data: OrderData)
    requires id < |w.trades| && data.remote == Filled && w.trades[id].status != PnlRecorded
    ensures ExitUpdated(w, ProtectiveFilled(w, id, link, data), id, link, data)
  {
    hide Transition, WithResult, Settled, Rewritten, ApplyOutcome;
    var t := w.trades[id];
    var exit := Or0(data.avgPrice);
    var confirmed := Transition(w, id, OrderConfirmed);
    var t1 := t.(status := OrderConfirmed);
    TransitionRewrites(w, id, OrderConfirmed);
    RowOf(w, id, t1, [OrderConfirmed]);
    var t2 := t1.(avgExit := Some(exit));
    var exited := Put(confirmed, id, t2);
    ThenPut(w, id, t1, [OrderConfirmed], t2);
    ThenTransition(w, id, t2, [OrderConfirmed], PositionClosed);
    assert [OrderConfirmed] + [PositionClosed] == [OrderConfirmed, PositionClosed];
    var t3 := t2.(status := PositionClosed);
    RowOf(w, id, t3, [OrderConfirmed, PositionClosed]);
    var reason := if t.stopLink == Some(link) then SlHit else if t.tpLink == Some(link) then TpHit
                  else if t.exitReason == None then Manual else t.exitReason.value;
    var t4 := t3.(closedAt := Some(w.now), heldFor := if t.openedAt == None then t.heldFor else Some(w.now - t.openedAt.value),
                  exitReason := Some(reason));
    var closed := Transition(exited, id, PositionClosed);
    assert ClosedAt(closed.trades[id], w.now).(exitReason := Some(ExitReasonFor(t, link))) == t4;
    RecordingPlainly(w, closed, id, t3, t4, [OrderConfirmed, PositionClosed]);
    assert [OrderConfirmed, PositionClosed] + [PnlRecorded] == [OrderConfirmed, PositionClosed, PnlRecorded];
  }

  lemma ExitUpdateIsPlain(cfg: Settings, w: World, id: nat, link: nat, data: OrderData)
    requires id < |w.trades| && IsExitOrder(w.trades[id], link)
    ensures ExitUpdated(w, ApplyOrderUpdate(cfg, w, id, link, data), id, link, data)
  {
    hide ProtectiveFilled, Transition, Rewritten, Settled, Trail;
    if data.remote == Filled && w.trades[id].status != PnlRecorded {
      ExitFillPlainly(w, id, link, data);
    } else if Reported(data.remote).Some? {
      var t, s := w.trades[id], Reported(data.remote).value;
      TransitionRewrites(w, id, s);
      RowOf(w, id, t.(status := s), [s]);
      ThenTransition(w, id, t.(status := s), [s], CloseFailed);
      assert [s] + [CloseFailed] == [s, CloseFailed];
    }
  }

  // ----- which row an order report or a reconciliation concerns -----

  /** An order report moves the row that carries its id, as an exit or as an entry; an unknown id moves nothing. */
  lemma OrderEventIsPlain(cfg: Settings, w: World, link: nat, data: OrderData) returns (id: nat, p: World, ready: bool)
    ensures
      var v := Apply(cfg, w, OrderEvent(link, data));
      && id <= |w.trades|
      && (forall i :: 0 <= i < id ==> Some(link) !in [w.trades[i].orderLink, w.trades[i].closeLink, w.trades[i].stopLink, w.trades[i].tpLink])
      && if id == |w.trades| then v == w
         else
           && Some(link) in [w.trades[id].orderLink, w.trades[id].closeLink, w.trades[id].stopLink, w.trades[id].tpLink]
           && if IsExitOrder(w.trades[id], link) then ExitUpdated(w, v, id, link, data)
              else EntryUpdated(cfg, w, v, id, data, p, ready)
  {
    hide ApplyOrderUpdate, ExitUpdated, EntryUpdated;
    id := FindByLink(w.trades, link);
    p, ready := w, false;
    FirstWithLink(w.trades, link);
    if id < |w.trades| {
      if IsExitOrder(w.trades[id], link) {
        ExitUpdateIsPlain(cfg, w, id, link, data);
      } else {
        p, ready := EntryUpdateIsPlain(cfg, w, id, link, data);
      }
    }
  }

  lemma {:induction false} FirstWithLink(trades: seq<Trade>, link: nat)
    ensures forall i :: 0 <= i < FindByLink(trades, link) ==> !HasLink(trades[i], link)
  {
    if trades != [] {
      var front := trades[..|trades| - 1];
      FirstWithLink(front, link);
      assert forall i :: 0 <= i < |front| ==> front[i] == trades[i];
    }
  }

  /** A reconciliation applies the exchange's answer to the close order of a closing row, or to the entry order of a
      row that was submitted or whose fate is unknown; other rows and missing answers are left alone. */
  lemma ReconcileIsPlain(cfg: Settings, w: World, id: nat, answer: Option<OrderData>) returns (p: World, ready: bool)
    ensures
      var v := Apply(cfg, w, Reconcile(id, answer));
      if id < |w.trades| && answer.Some? && w.trades[id].status == ClosePending && w.trades[id].closeLink.Some? then
        ExitUpdated(w, v, id, w.trades[id].closeLink.value, answer.value)
      else if id < |w.trades| && answer.Some? && w.trades[id].status in {OrderSubmitted, OrderPendingUnknown}
              && w.trades[id].orderLink.Some? then
        if IsExitOrder(w.trades[id], w.trades[id].orderLink.value) then
          ExitUpdated(w, v, id, w.trades[id].orderLink.value, answer.value)
        else EntryUpdated(cfg, w, v, id, answer.value, p, ready)
      else v == w
  {
    hide ApplyOrderUpdate, ExitUpdated, EntryUpdated;
    p, ready := w, false;
    if id < |w.trades| && answer.Some? && TrackedLink(w.trades[id]).Some? {
      var link := TrackedLink(w.trades[id]).value;
      if IsExitOrder(w.trades[id], link) {
        ExitUpdateIsPlain(cfg, w, id, link, answer.value);
      } else {
        p, ready := EntryUpdateIsPlain(cfg, w, id, link, answer.value);
      }
    }
  }

  // ----- closing -----

  /** Without an exchange the exit price is the level the reason names, or else the target, the entry, the stop. */
  function PaperExit(t: Trade, reason: ExitReason): Option<real> {
    if reason == SlHit && t.terms.stopPrice != None then t.terms.stopPrice
    else if reason == TpHit && t.terms.targetPrice != None then t.terms.targetPrice
    else if t.terms.targetPrice != None && t.terms.targetPrice != Some(0.0) then t.terms.targetPrice
    else if t.terms.entryPrice != None && t.terms.entryPrice != Some(0.0) then t.terms.entryPrice
    else t.terms.stopPrice
  }

  /** A close request on an open, partly filled or failed row waits for the exchange under a fresh id, is settled on
      paper in shadow mode, or leaves nothing behind when the exchange refuses it. */
  ghost predicate CloseRequested(cfg: Settings, w: World, v: World, id: nat, reason: ExitReason, accepted: bool) {
    if id >= |w.trades| || w.trades[id].status !in {PositionOpen, OrderPartiallyFilled, CloseFailed} then v == w
    else
      var t, numbered := w.trades[id], w.(links := w.links + 1);
      if cfg.shadow then
        && |v.trades| == |w.trades|
        && Settled(numbered, v, id,
                   t.(status := PnlRecorded, closeLink := Some(w.links), exitReason := Some(reason), closedAt := Some(w.now),
                      avgExit := PaperExit(t, reason),
                      heldFor := if t.openedAt == None then t.heldFor else Some(w.now - t.openedAt.value),
                      realized := v.trades[id].realized),
                   [ClosePending, PnlRecorded])
      else if accepted then
        v == Rewritten(numbered, id, t.(status := ClosePending, closeLink := Some(w.links), exitReason := Some(reason)), [ClosePending]).(
               placed := w.placed + [Placement(CloseOrder, id, w.links)])
      else v == w
  }

  lemma CloseIsPlain(cfg: Settings, w: World, id: nat, reason: ExitReason, accepted: bool)
    ensures CloseRequested(cfg, w, Apply(cfg, w, Close(id, reason, accepted)), id, reason, accepted)
  {
    hide Transition, Rewritten, Settled, WithResult, ApplyOutcome, ShadowExit, PaperExit;
    if id < |w.trades| && CloseRetryable(w.trades[id].status) {
      var t, numbered := w.trades[id], w.(links := w.links + 1);
      var c := t.(closeLink := Some(w.links), exitReason := Some(reason));
      var pending := ClosePendingFor(w, id, reason);
      PutRewrites(numbered, id, c);
      ThenTransition(numbered, id, c, [], ClosePending);
      assert [] + [ClosePending] == [ClosePending];
      var waiting := c.(status := ClosePending);
      assert pending == Rewritten(numbered, id, waiting, [ClosePending]);
      RowOf(numbered, id, waiting, [ClosePending]);
      RewritingPlaces(numbered, id, waiting, [ClosePending]);
      if cfg.shadow {
        PaperExitPlainly(waiting, t, reason);
        var exit := PaperExit(t, reason);
        var closed := ClosedAt(waiting, w.now).(avgExit := exit);
        RecordingPlainly(numbered, pending, id, waiting, closed, [ClosePending]);
        assert [ClosePending] + [PnlRecorded] == [ClosePending, PnlRecorded];
      }
    }
  }

  lemma RewritingPlaces(w: World, id: nat, t: Trade, through: seq<Status>)
    requires id < |w.trades|
    ensures Rewritten(w, id, t, through).placed == w.placed && Rewritten(w, id, t, through).now == w.now
  {
  }

  lemma PaperExitPlainly(waiting: Trade, t: Trade, reason: ExitReason)
    requires waiting.terms == t.terms
    ensures ShadowExit(waiting, reason) == PaperExit(t, reason)
  {
  }

  /** A fee is added to what the row that carries the id has paid. */
  lemma FeeIsPlain(cfg: Settings, w: World, link: nat, fee: real) returns (id: nat)
    ensures
      && id <= |w.trades|
      && (forall i :: 0 <= i < id ==> Some(link) !in [w.trades[i].orderLink, w.trades[i].closeLink, w.trades[i].stopLink, w.trades[i].tpLink])
      && if id == |w.trades| then Apply(cfg, w, Fee(link, fee)) == w
         else
           && Some(link) in [w.trades[id].orderLink, w.trades[id].closeLink, w.trades[id].stopLink, w.trades[id].tpLink]
           && Apply(cfg, w, Fee(link, fee)) ==
                w.(trades := w.trades[id := w.trades[id].(feePaid := Some(Amount(w.trades[id].feePaid) + fee))])
  {
    id := FindByLink(w.trades, link);
    FirstWithLink(w.trades, link);
  }
}

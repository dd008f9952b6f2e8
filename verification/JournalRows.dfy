/** What each command does to the row it concerns: the shape of a step that records no result, and of one that
    does. */
module JournalRows {
  import opened Prelude
  import opened Journal

  // ----- the event log -----

  /** The statuses an event log leads to, one per row; None when it does not fit together. */
  function Rebuilt(events: seq<TradeEvent>): Option<seq<Status>> {
    if events == [] then Some([])
    else
      var before, e := Rebuilt(events[..|events| - 1]), events[|events| - 1];
      if before == None then None
      else if e.from == None then
        if e.trade == |before.value| then Some(before.value + [e.to]) else None
      else if e.trade < |before.value| && before.value[e.trade] == e.from.value && e.to != e.from.value then
        Some(before.value[e.trade := e.to])
      else None
  }

  function Statuses(trades: seq<Trade>): (s: seq<Status>)
    ensures |s| == |trades| && forall i :: 0 <= i < |s| ==> s[i] == trades[i].status
  {
    seq(|trades|, i requires 0 <= i < |trades| => trades[i].status)
  }

  /** The log rebuilds exactly the status column, and never leaves PnlRecorded. */
  ghost predicate Chronicled(w: World) {
    && Rebuilt(w.events) == Some(Statuses(w.trades))
    && forall e :: e in w.events ==> e.from != Some(PnlRecorded)
  }

  lemma TransitionIsChronicled(w: World, id: nat, s: Status)
    requires Chronicled(w) && id < |w.trades| && w.trades[id].status != PnlRecorded
    ensures Chronicled(Transition(w, id, s))
  {
    var v := Transition(w, id, s);
    if v != w {
      assert v.events[..|w.events|] == w.events;
      assert Statuses(v.trades) == Statuses(w.trades)[id := s];
    }
  }

  lemma SameStatusesAreChronicled(w: World, v: World)
    requires Chronicled(w) && v.events == w.events && Statuses(v.trades) == Statuses(w.trades)
    ensures Chronicled(v)
  {
  }

  // ----- steps that record no result -----

  predicate SameResult(t: Trade, u: Trade) {
    t.terms == u.terms && t.realized == u.realized && t.closedAt == u.closedAt
  }

  /** A recorded row changes in nothing but the fees still coming in. */
  predicate Frozen(t: Trade, u: Trade) {
    t.status == PnlRecorded ==> u == t.(feePaid := u.feePaid)
  }

  /** Only row `id` changes, it keeps its result, the log follows it, and at most the kill switch moves beside it. */
  ghost predicate Touches(w: World, v: World, id: nat) {
    && id < |w.trades| && |v.trades| == |w.trades| && v.trades == w.trades[id := v.trades[id]]
    && SameResult(w.trades[id], v.trades[id])
    && (v.trades[id].status == PnlRecorded ==> w.trades[id].status == PnlRecorded)
    && Frozen(w.trades[id], v.trades[id])
    && v.stats == w.stats && v.now == w.now && v.submissions == w.submissions && v.signals == w.signals
    && (v.safety == w.safety || v.safety == ActivateKill(w).safety)
    && (Chronicled(w) ==> Chronicled(v))
  }

  lemma TouchesTrans(w: World, u: World, v: World, id: nat)
    requires Touches(w, u, id) && Touches(u, v, id)
    ensures Touches(w, v, id)
  {
    hide Chronicled;
    assert w.trades[id := u.trades[id]][id := v.trades[id]] == w.trades[id := v.trades[id]];
  }

  lemma PutTouches(w: World, id: nat, t: Trade)
    requires id < |w.trades| && SameResult(w.trades[id], t) && t.status == w.trades[id].status && Frozen(w.trades[id], t)
    ensures Touches(w, Put(w, id, t), id)
  {
    assert Statuses(Put(w, id, t).trades) == Statuses(w.trades);
  }

  lemma TransitionTouches(w: World, id: nat, s: Status)
    requires id < |w.trades| && w.trades[id].status != PnlRecorded && s != PnlRecorded
    ensures Touches(w, Transition(w, id, s), id) && Transition(w, id, s).trades[id] == w.trades[id].(status := s)
  {
    hide Chronicled;
    if Chronicled(w) { TransitionIsChronicled(w, id, s); }
    assert w.trades[id := w.trades[id]] == w.trades;
  }

  /** Client order ids, placements and the safety row are not part of any trade row. */
  lemma SidelinesTouch(w: World, v: World, id: nat)
    requires id < |w.trades| && v == w.(links := v.links, placed := v.placed, safety := v.safety)
    requires v.safety == w.safety || v.safety == ActivateKill(w).safety
    ensures Touches(w, v, id)
  {
    assert w.trades[id := w.trades[id]] == w.trades;
  }

  lemma ArmStopTouches(w: World, id: nat)
    requires id < |w.trades| && w.trades[id].status != PnlRecorded
    ensures Touches(w, ArmStop(w, id), id) && ArmStop(w, id).trades[id].status == w.trades[id].status
  {
    hide Touches;
    var t := w.trades[id].(stopLink := Some(w.links));
    SidelinesTouch(w, TakeLink(w), id);
    PutTouches(TakeLink(w), id, t);
    SidelinesTouch(Put(TakeLink(w), id, t), ArmStop(w, id), id);
    TouchesTrans(w, TakeLink(w), Put(TakeLink(w), id, t), id);
    TouchesTrans(w, Put(TakeLink(w), id, t), ArmStop(w, id), id);
  }

  lemma ArmTakeProfitTouches(w: World, id: nat, tpOk: bool)
    requires id < |w.trades| && w.trades[id].status != PnlRecorded
    ensures Touches(w, ArmTakeProfit(w, id, tpOk), id)
  {
    hide Touches;
    var t := w.trades[id].(tpLink := Some(w.links));
    SidelinesTouch(w, w, id);
    SidelinesTouch(w, TakeLink(w), id);
    PutTouches(TakeLink(w), id, t);
    var u := Put(TakeLink(w), id, t);
    SidelinesTouch(u, AcceptOrder(u, TakeProfitOrder, id, w.links), id);
    TouchesTrans(w, TakeLink(w), u, id);
    TouchesTrans(w, u, AcceptOrder(u, TakeProfitOrder, id, w.links), id);
  }

  lemma StopFailureTouches(w: World, id: nat, closeOk: bool)
    requires id < |w.trades| && w.trades[id].status != PnlRecorded
    ensures Touches(w, StopFailure(w, id, closeOk), id)
  {
    hide Transition, Touches;
    var link := w.links;
    var v := TakeLink(ActivateKill(w));
    var t := v.trades[id].(closeLink := Some(link), exitReason := Some(KillSwitchExit));
    var u := Put(v, id, t);
    SidelinesTouch(w, v, id);
    PutTouches(v, id, t);
    TouchesTrans(w, v, u, id);
    var a := if closeOk then AcceptOrder(u, CloseOrder, id, link) else u;
    var s := if closeOk then ClosePending else CloseFailed;
    SidelinesTouch(u, a, id);
    TouchesTrans(w, u, a, id);
    TransitionTouches(a, id, s);
    TouchesTrans(w, a, Transition(a, id, s), id);
  }

  lemma EnsureProtectionTouches(cfg: Settings, w: World, id: nat, data: OrderData)
    requires id < |w.trades| && w.trades[id].status != PnlRecorded
    ensures Touches(w, EnsureProtection(cfg, w, id, data).0, id)
  {
    hide StopFailure, ArmStop, ArmTakeProfit, Touches;
    SidelinesTouch(w, w, id);
    if w.trades[id].stopLink == None {
      SidelinesTouch(w, TakeLink(w), id);
      StopFailureTouches(TakeLink(w), id, data.closeOk);
      TouchesTrans(w, TakeLink(w), StopFailure(TakeLink(w), id, data.closeOk), id);
      ArmStopTouches(w, id);
      var a := ArmStop(w, id);
      ArmTakeProfitTouches(a, id, data.tpOk);
      TouchesTrans(w, a, ArmTakeProfit(a, id, data.tpOk), id);
    } else {
      ArmTakeProfitTouches(w, id, data.tpOk);
    }
  }

  lemma EntryFilledTouches(cfg: Settings, w: World, id: nat, data: OrderData)
    requires id < |w.trades| && w.trades[id].status != PnlRecorded
    ensures Touches(w, EntryFilled(cfg, w, id, data), id)
  {
    hide EnsureProtection, Transition, Chronicled;
    var t := w.trades[id];
    var f := t.(avgFill := if data.avgPrice.Some? then data.avgPrice else t.avgFill,
                filledQty := if data.cumQty.Some? then data.cumQty else t.filledQty);
    var filled := Put(w, id, f);
    PutTouches(w, id, f);
    var confirmed := Transition(filled, id, OrderConfirmed);
    TransitionTouches(filled, id, OrderConfirmed);
    var s := confirmed.trades[id].(openedAt := Some(w.now));
    PutTouches(confirmed, id, s);
    var stamped := Put(confirmed, id, s);
    TouchesTrans(w, filled, confirmed, id);
    TouchesTrans(w, confirmed, stamped, id);
    EnsureProtectionTouches(cfg, stamped, id, data);
    var v := EnsureProtection(cfg, stamped, id, data).0;
    TouchesTrans(w, stamped, v, id);
    TransitionTouches(v, id, PositionOpen);
    TouchesTrans(w, v, Transition(v, id, PositionOpen), id);
  }

  lemma ReconcileUnknownTouches(w: World, id: nat, lookup: Lookup)
    requires id < |w.trades| && w.trades[id].status != PnlRecorded
    ensures Touches(w, ReconcileUnknown(w, id, lookup), id)
  {
    hide Transition, Touches;
    SidelinesTouch(w, w, id);
    if lookup.Found? { TransitionTouches(w, id, LookupStatus(lookup.remote)); }
  }

  lemma PlaceTouches(w: World, id: nat, sent: OrderType, reply: Reply, lookup: Lookup)
    requires id < |w.trades| && w.trades[id].orderLink.Some? && w.trades[id].status != PnlRecorded
    ensures Touches(w, Place(w, id, sent, reply, lookup).0, id)
  {
    hide Transition, Chronicled, ReconcileUnknown;
    SidelinesTouch(w, w, id);
    TransitionTouches(w, id, OrderRejected);
    TransitionTouches(w, id, OrderPendingUnknown);
    var p := Transition(w, id, OrderPendingUnknown);
    ReconcileUnknownTouches(p, id, lookup);
    TouchesTrans(w, p, ReconcileUnknown(p, id, lookup), id);
    var t := w.trades[id].(orderType := Some(sent));
    var v := Put(w, id, t);
    PutTouches(w, id, t);
    var a := AcceptOrder(v, EntryOrder(sent), id, w.trades[id].orderLink.value);
    SidelinesTouch(v, a, id);
    TouchesTrans(w, v, a, id);
    TransitionTouches(a, id, OrderSubmitted);
    TouchesTrans(w, a, Transition(a, id, OrderSubmitted), id);
  }

  lemma DispatchTouches(cfg: Settings, w: World, id: nat, ex: Exchange)
    requires id < |w.trades| && w.trades[id].orderLink.Some? && w.trades[id].status != PnlRecorded
    ensures Touches(w, Dispatch(cfg, w, id, ex).0, id)
  {
    hide Transition, Chronicled, Place;
    TransitionTouches(w, id, OrderSubmitted);
    TransitionTouches(w, id, SafetyChecked);
    var c := Transition(w, id, SafetyChecked);
    var t := c.trades[id].(orderType := Some(LimitOrder));
    PutTouches(c, id, t);
    var u := Put(c, id, t);
    TouchesTrans(w, c, u, id);
    PlaceTouches(u, id, MarketOrder, ex.first, ex.submitLookup);
    TouchesTrans(w, u, Place(u, id, MarketOrder, ex.first, ex.submitLookup).0, id);
    PlaceTouches(u, id, LimitOrder, ex.first, ex.submitLookup);
    TouchesTrans(w, u, Place(u, id, LimitOrder, ex.first, ex.submitLookup).0, id);
    var s := u.trades[id].(orderLink := Some(u.links));
    SidelinesTouch(u, TakeLink(u), id);
    PutTouches(TakeLink(u), id, s);
    var m := Put(TakeLink(u), id, s);
    TouchesTrans(u, TakeLink(u), m, id);
    TouchesTrans(w, u, m, id);
    PlaceTouches(m, id, MarketOrder, ex.second, ex.submitLookup);
    TouchesTrans(w, m, Place(m, id, MarketOrder, ex.second, ex.submitLookup).0, id);
  }

  // ----- steps that record a result -----

  /** When both times are known the row carries the seconds in between. */
  predicate TimesHeld(t: Trade) {
    t.openedAt.Some? && t.closedAt.Some? ==> t.heldFor == Some(t.closedAt.value - t.openedAt.value)
  }

  /** Row `id` gets its result, computed from its own columns, and the day's statistics take it in, both exactly
      here. */
  ghost predicate Settles(w: World, v: World, id: nat) {
    && id < |w.trades| && |v.trades| == |w.trades| && v.trades == w.trades[id := v.trades[id]]
    && v.trades[id].terms == w.trades[id].terms
    && w.trades[id].status != PnlRecorded && v.trades[id].status == PnlRecorded
    && v.trades[id].closedAt == Some(w.now) && TimesHeld(v.trades[id])
    && v.trades[id].realized == WithResult(v.trades[id], Or0(v.trades[id].avgExit)).realized
    && v.stats == w.stats[Today(w) := Outcome(StatOn(w, Today(w)), v.trades[id], v.trades[id].realized.value)]
    && v.safety == w.safety && v.now == w.now && v.submissions == w.submissions && v.signals == w.signals
    && (Chronicled(w) ==> Chronicled(v))
  }

  /** The last three writes of both ways to settle: the result, the status, the statistics. */
  lemma RecordingSettles(w: World, u: World, id: nat, t: Trade, exit: Option<real>)
    requires Touches(w, u, id) && u.safety == w.safety && u.trades[id].status != PnlRecorded
    requires t.status == u.trades[id].status && t.terms == u.trades[id].terms
    requires t.closedAt == Some(w.now) && TimesHeld(t) && t.avgExit == exit
    ensures Settles(w, ApplyOutcome(Transition(Put(u, id, WithResult(t, Or0(exit))), id, PnlRecorded), id), id)
  {
    hide Chronicled, Outcome, PnlRatio, Gain;
    var p := Put(u, id, WithResult(t, Or0(exit)));
    assert Statuses(p.trades) == Statuses(u.trades);
    if Chronicled(u) {
      SameStatusesAreChronicled(u, p);
      TransitionIsChronicled(p, id, PnlRecorded);
    }
    var r := Transition(p, id, PnlRecorded);
    var v := ApplyOutcome(r, id);
    if Chronicled(r) { SameStatusesAreChronicled(r, v); }
    assert w.trades[id := u.trades[id]][id := p.trades[id]][id := r.trades[id]] == w.trades[id := r.trades[id]];
  }

  lemma ProtectiveFilledSettles(w: World, id: nat, link: nat, data: OrderData)
    requires id < |w.trades| && w.trades[id].status != PnlRecorded
    ensures Settles(w, ProtectiveFilled(w, id, link, data), id)
  {
    hide Transition, ApplyOutcome, Settles, Chronicled, RealizedPnl, WithResult;
    var exit := Or0(data.avgPrice);
    var confirmed := Transition(w, id, OrderConfirmed);
    TransitionTouches(w, id, OrderConfirmed);
    var x := confirmed.trades[id].(avgExit := Some(exit));
    PutTouches(confirmed, id, x);
    var exited := Put(confirmed, id, x);
    TouchesTrans(w, confirmed, exited, id);
    var closed := Transition(exited, id, PositionClosed);
    TransitionTouches(exited, id, PositionClosed);
    TouchesTrans(w, exited, closed, id);
    TransitionKeepsSafety(w, id, OrderConfirmed);
    TransitionKeepsSafety(exited, id, PositionClosed);
    var t := ClosedAt(closed.trades[id], w.now).(exitReason := Some(ExitReasonFor(w.trades[id], link)));
    RecordingSettles(w, closed, id, t, Some(exit));
  }

  lemma TransitionKeepsSafety(w: World, id: nat, s: Status)
    requires id < |w.trades|
    ensures Transition(w, id, s).safety == w.safety
  {
  }

  lemma ShadowCloseSettles(w: World, id: nat, reason: ExitReason)
    requires id < |w.trades| && CloseRetryable(w.trades[id].status)
    ensures Settles(w, ShadowClose(ClosePendingFor(w, id, reason), id, reason), id)
  {
    hide Transition, ApplyOutcome, Settles, Chronicled, RealizedPnl, WithResult, ShadowExit;
    var link := w.links;
    var c := w.trades[id].(closeLink := Some(link), exitReason := Some(reason));
    SidelinesTouch(w, TakeLink(w), id);
    PutTouches(TakeLink(w), id, c);
    var p := Put(TakeLink(w), id, c);
    TouchesTrans(w, TakeLink(w), p, id);
    var pending := Transition(p, id, ClosePending);
    TransitionTouches(p, id, ClosePending);
    TransitionKeepsSafety(p, id, ClosePending);
    TouchesTrans(w, p, pending, id);
    var exit := ShadowExit(pending.trades[id], reason);
    RecordingSettles(w, pending, id, ClosedAt(pending.trades[id], w.now).(avgExit := exit), exit);
  }

  /** An order update either records no result or settles the trade. */
  lemma OrderUpdateStep(cfg: Settings, w: World, id: nat, link: nat, data: OrderData)
    requires id < |w.trades|
    ensures var v := ApplyOrderUpdate(cfg, w, id, link, data); Touches(w, v, id) || Settles(w, v, id)
  {
    hide EntryFilled, ProtectiveFilled, Transition, Touches, Settles;
    SidelinesTouch(w, w, id);
    if w.trades[id].status != PnlRecorded && RemoteStatus(data.remote).Some? {
      var s := RemoteStatus(data.remote).value;
      EntryFilledTouches(cfg, w, id, data);
      ProtectiveFilledSettles(w, id, link, data);
      TransitionTouches(w, id, s);
      var failed := Transition(w, id, s);
      TransitionTouches(failed, id, CloseFailed);
      TouchesTrans(w, failed, Transition(failed, id, CloseFailed), id);
    }
  }

  lemma CloseStep(cfg: Settings, w: World, id: nat, reason: ExitReason, accepted: bool)
    ensures var v := OnClose(cfg, w, id, reason, accepted); v == w || Touches(w, v, id) || Settles(w, v, id)
  {
    hide Transition, Touches, Settles, ShadowClose;
    if id < |w.trades| && CloseRetryable(w.trades[id].status) {
      ShadowCloseSettles(w, id, reason);
      var c := w.trades[id].(closeLink := Some(w.links), exitReason := Some(reason));
      SidelinesTouch(w, TakeLink(w), id);
      PutTouches(TakeLink(w), id, c);
      var p := Put(TakeLink(w), id, c);
      TouchesTrans(w, TakeLink(w), p, id);
      var pending := Transition(p, id, ClosePending);
      TransitionTouches(p, id, ClosePending);
      TouchesTrans(w, p, pending, id);
      SidelinesTouch(pending, AcceptOrder(pending, CloseOrder, id, w.links), id);
      TouchesTrans(w, pending, AcceptOrder(pending, CloseOrder, id, w.links), id);
    }
  }

  // ----- steps on the safety state -----

  /** Only the clock, the safety row and the streak and trip marks of daily rows change. */
  ghost predicate SafetyOnly(w: World, v: World) {
    && v == w.(now := v.now, stats := v.stats, safety := v.safety) && w.now <= v.now
    && forall d :: StatOn(v, d) == StatOn(w, d).(streak := StatOn(v, d).streak, tripped := StatOn(v, d).tripped)
  }

  lemma SafetyOnlyTrans(w: World, u: World, v: World)
    requires SafetyOnly(w, u) && SafetyOnly(u, v)
    ensures SafetyOnly(w, v)
  {
  }

  lemma CheckIsSafetyOnly(cfg: Settings, w: World)
    ensures SafetyOnly(w, Check(cfg, w).0)
  {
    hide LossOver, ClearPauseIfExpired;
    var u := ClearPauseIfExpired(w);
    SafetyCommands(w, 0);
    assert SafetyOnly(u, Check(cfg, w).0);
    SafetyOnlyTrans(w, u, Check(cfg, w).0);
  }

  lemma AdmitIsSafetyOnly(cfg: Settings, w: World, signal: nat, ex: Exchange)
    ensures SafetyOnly(w, Admit(cfg, w, signal, ex).0)
  {
    hide Check, InProgress, CountOpen, ClearPauseIfExpired, SafetyOnly;
    var u := ClearPauseIfExpired(w);
    SafetyCommands(w, 0);
    CheckIsSafetyOnly(cfg, u);
    SafetyOnlyTrans(w, u, Check(cfg, u).0);
  }

  lemma SafetyCommands(w: World, seconds: nat)
    ensures SafetyOnly(w, w) && SafetyOnly(w, w.(now := w.now + seconds))
    ensures SafetyOnly(w, OnActivate(w)) && SafetyOnly(w, ResetSafety(w)) && SafetyOnly(w, ClearPauseIfExpired(w))
  {
  }

  // ----- every command but a submission -----

  /** Commands on the safety state and the clock. */
  predicate OnSafety(cmd: Command) {
    cmd.Activate? || cmd.Reset? || cmd.Poll? || cmd.Tick?
  }

  /** A command that submits nothing moves the safety state only, or touches or settles at most one row. */
  lemma StepShape(cfg: Settings, w: World, cmd: Command) returns (id: nat)
    requires !cmd.Submit?
    ensures var v := Apply(cfg, w, cmd);
            if OnSafety(cmd) then SafetyOnly(w, v) else v == w || Touches(w, v, id) || Settles(w, v, id)
  {
    hide ApplyOrderUpdate, OnClose, EnsureProtection, Touches, Settles, SafetyOnly, OnActivate, ResetSafety, ClearPauseIfExpired;
    id := 0;
    SafetyCommands(w, if cmd.Tick? then cmd.seconds else 0);
    match cmd
    case OrderEvent(link, data) =>
      id := FindByLink(w.trades, link);
      if id < |w.trades| { OrderUpdateStep(cfg, w, id, link, data); }
    case Reconcile(trade, answer) =>
      id := trade;
      if trade < |w.trades| && TrackedLink(w.trades[trade]).Some? && answer.Some? {
        OrderUpdateStep(cfg, w, id, TrackedLink(w.trades[id]).value, answer.value);
      }
    case ReconcileProtection(trade, data) =>
      id := trade;
      if trade < |w.trades| && MissesProtection(w.trades[trade]) { EnsureProtectionTouches(cfg, w, id, data); }
    case Close(trade, reason, accepted) =>
      id := trade;
      CloseStep(cfg, w, id, reason, accepted);
    case Fee(link, fee) =>
      id := FindByLink(w.trades, link);
      if id < |w.trades| { PutTouches(w, id, w.trades[id].(feePaid := Some(Or0(w.trades[id].feePaid) + fee))); }
    case _ =>
  }

  // ----- a submission -----

  /** One row is created, counted on its day, and sent; everything else stays. */
  ghost predicate Opens(w: World, v: World, signal: nat) {
    && |v.trades| == |w.trades| + 1 && v.trades == w.trades + [v.trades[|w.trades|]]
    && v.trades[|w.trades|].terms.signalId == signal && v.trades[|w.trades|].terms.createdAt == w.now
    && v.trades[|w.trades|].status != PnlRecorded
    && v.trades[|w.trades|].realized == None && v.trades[|w.trades|].closedAt == None
    && v.stats == w.stats[Today(w) := StatOn(w, Today(w)).(total := StatOn(w, Today(w)).total + 1)]
    && v.now == w.now && v.submissions == w.submissions && v.signals == w.signals
    && (v.safety == w.safety || v.safety == ActivateKill(w).safety)
    && (Chronicled(w) ==> Chronicled(v))
  }

  lemma CreationOpens(w: World, signal: nat, r: Request, plan: Plan)
    requires plan.Sized?
    ensures Opens(w, CreateTrade(w, signal, r, plan), signal)
    ensures CreateTrade(w, signal, r, plan).trades[|w.trades|].orderLink.Some?
  {
    var v := CreateTrade(w, signal, r, plan);
    if Chronicled(w) {
      assert v.events[..|w.events|] == w.events;
      assert Statuses(v.trades) == Statuses(w.trades) + [RiskCalculated];
    }
  }

  lemma OpensThenTouches(w: World, u: World, v: World, signal: nat)
    requires Opens(w, u, signal) && Touches(u, v, |w.trades|)
    ensures Opens(w, v, signal)
  {
    hide Chronicled;
    assert v.trades[..|w.trades|] == w.trades;
    assert v.trades == v.trades[..|w.trades|] + [v.trades[|w.trades|]];
  }

  /** The executor either keeps nothing beyond the guards' own writes, or opens exactly one row on top of them. */
  lemma ExecuteShape(cfg: Settings, w: World, signal: nat, r: Request, ex: Exchange)
    ensures var (v, verdict) := ExecuteOrder(cfg, w, signal, r, ex);
            var (a, admits) := Admit(cfg, w, signal, ex);
            && SafetyOnly(w, a)
            && (verdict == NothingKept ==> v == a)
            && (verdict != NothingKept ==> admits && Opens(a, v, signal))
  {
    hide Admit, CreateTrade, Dispatch, SafetyOnly;
    AdmitIsSafetyOnly(cfg, w, signal, ex);
    var (a, admits) := Admit(cfg, w, signal, ex);
    if admits {
      assert ex.plan.Sized?;
      var c := CreateTrade(a, signal, r, ex.plan);
      CreationOpens(a, signal, r, ex.plan);
      DispatchTouches(cfg, c, |a.trades|, ex);
      OpensThenTouches(a, c, Dispatch(cfg, c, |a.trades|, ex).0, signal);
    }
  }
}

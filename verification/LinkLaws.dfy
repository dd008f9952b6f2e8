/** Client order ids: over every run an id belongs to at most one order of one trade, so an event finds at most
    one row. */
module LinkLaws {
  import opened Prelude
  import opened Journal
  import opened JournalRows

  predicate Below(o: Option<nat>, n: nat) {
    o.Some? ==> o.value < n
  }

  predicate Apart(o: Option<nat>, p: Option<nat>) {
    o.Some? ==> o != p
  }

  /** The row's ids were handed out already, and no two of its orders share one. */
  predicate Fits(t: Trade, n: nat) {
    && Below(t.orderLink, n) && Below(t.closeLink, n) && Below(t.stopLink, n) && Below(t.tpLink, n)
    && Apart(t.orderLink, t.closeLink) && Apart(t.orderLink, t.stopLink) && Apart(t.orderLink, t.tpLink)
    && Apart(t.closeLink, t.stopLink) && Apart(t.closeLink, t.tpLink) && Apart(t.stopLink, t.tpLink)
  }

  ghost predicate Linked(w: World) {
    && (forall i :: 0 <= i < |w.trades| ==> Fits(w.trades[i], w.links))
    && (forall i, j, link :: 0 <= i < |w.trades| && 0 <= j < |w.trades| && HasLink(w.trades[i], link) && HasLink(w.trades[j], link) ==> i == j)
  }

  predicate SameLinks(t: Trade, u: Trade) {
    t.orderLink == u.orderLink && t.closeLink == u.closeLink && t.stopLink == u.stopLink && t.tpLink == u.tpLink
  }

  // ----- single writes -----

  /** A step on one row that keeps its ids, or replaces one of them by the next fresh id. */
  lemma RowStaysLinked(w: World, v: World, id: nat)
    requires Linked(w) && id < |w.trades| && |v.trades| == |w.trades| && v.trades == w.trades[id := v.trades[id]]
    requires w.links <= v.links && Fits(v.trades[id], v.links)
    requires forall link :: HasLink(v.trades[id], link) ==> HasLink(w.trades[id], link) || link == w.links
    ensures Linked(v)
  {
    forall i, link | 0 <= i < |v.trades| && i != id && HasLink(v.trades[i], link) ensures !HasLink(v.trades[id], link) {
      assert Fits(w.trades[i], w.links) && HasLink(w.trades[i], link);
    }
  }

  lemma SameLinksStayLinked(w: World, v: World, id: nat)
    requires Linked(w) && id < |w.trades| && |v.trades| == |w.trades| && v.trades == w.trades[id := v.trades[id]]
    requires w.links <= v.links && SameLinks(w.trades[id], v.trades[id])
    ensures Linked(v)
  {
    assert Fits(w.trades[id], w.links);
    RowStaysLinked(w, v, id);
  }

  lemma NoRowStaysLinked(w: World, v: World)
    requires Linked(w) && v.trades == w.trades && w.links <= v.links
    ensures Linked(v)
  {
    forall i | 0 <= i < |v.trades| ensures Fits(v.trades[i], v.links) {
      assert Fits(w.trades[i], w.links);
    }
  }

  lemma TransitionStaysLinked(w: World, id: nat, s: Status)
    requires Linked(w) && id < |w.trades|
    ensures Linked(Transition(w, id, s))
  {
    hide Linked;
    if Transition(w, id, s) != w { SameLinksStayLinked(w, Transition(w, id, s), id); }
  }

  // ----- the functions that hand out ids -----

  lemma StopFailureStaysLinked(w: World, id: nat, closeOk: bool)
    requires Linked(w) && id < |w.trades|
    ensures Linked(StopFailure(w, id, closeOk))
  {
    hide Linked, Transition;
    var v := TakeLink(ActivateKill(w));
    var u := Put(v, id, v.trades[id].(closeLink := Some(w.links), exitReason := Some(KillSwitchExit)));
    FitsOf(w, id);
    RowStaysLinked(w, u, id);
    var a := if closeOk then AcceptOrder(u, CloseOrder, id, w.links) else u;
    NoRowStaysLinked(u, a);
    TransitionStaysLinked(a, id, if closeOk then ClosePending else CloseFailed);
  }

  lemma FitsOf(w: World, id: nat)
    requires Linked(w) && id < |w.trades|
    ensures Fits(w.trades[id], w.links)
  {
  }

  lemma ProtectionStaysLinked(cfg: Settings, w: World, id: nat, data: OrderData)
    requires Linked(w) && id < |w.trades|
    ensures Linked(EnsureProtection(cfg, w, id, data).0)
  {
    hide Linked, StopFailure, ArmStop, ArmTakeProfit;
    NoRowStaysLinked(w, TakeLink(w));
    StopFailureStaysLinked(TakeLink(w), id, data.closeOk);
    ArmStopStaysLinked(w, id);
    ArmTakeProfitStaysLinked(w, id, data.tpOk);
    ArmTakeProfitStaysLinked(ArmStop(w, id), id, data.tpOk);
  }

  lemma ArmStopStaysLinked(w: World, id: nat)
    requires Linked(w) && id < |w.trades|
    ensures Linked(ArmStop(w, id))
  {
    hide Linked;
    FitsOf(w, id);
    RowStaysLinked(w, ArmStop(w, id), id);
  }

  lemma ArmTakeProfitStaysLinked(w: World, id: nat, tpOk: bool)
    requires Linked(w) && id < |w.trades|
    ensures Linked(ArmTakeProfit(w, id, tpOk))
  {
    hide Linked;
    FitsOf(w, id);
    var v := ArmTakeProfit(w, id, tpOk);
    if v.trades == w.trades { NoRowStaysLinked(w, v); } else { RowStaysLinked(w, v, id); }
  }

  lemma ClosePendingStaysLinked(w: World, id: nat, reason: ExitReason)
    requires Linked(w) && id < |w.trades|
    ensures Linked(ClosePendingFor(w, id, reason))
  {
    hide Linked, Transition;
    FitsOf(w, id);
    var p := Put(TakeLink(w), id, w.trades[id].(closeLink := Some(w.links), exitReason := Some(reason)));
    RowStaysLinked(w, p, id);
    TransitionStaysLinked(p, id, ClosePending);
  }

  // ----- the others -----

  lemma ResultStaysLinked(w: World, id: nat, t: Trade, exit: real)
    requires Linked(w) && id < |w.trades| && SameLinks(w.trades[id], t)
    ensures Linked(ApplyOutcome(Transition(Put(w, id, WithResult(t, exit)), id, PnlRecorded), id))
  {
    hide Linked, Outcome, RealizedPnl, PnlRatio;
    var p := Put(w, id, WithResult(t, exit));
    SameLinksStayLinked(w, p, id);
    TransitionStaysLinked(p, id, PnlRecorded);
    NoRowStaysLinked(Transition(p, id, PnlRecorded), ApplyOutcome(Transition(p, id, PnlRecorded), id));
  }

  lemma EntryFilledStaysLinked(cfg: Settings, w: World, id: nat, data: OrderData)
    requires Linked(w) && id < |w.trades|
    ensures Linked(EntryFilled(cfg, w, id, data))
  {
    hide Linked, EnsureProtection, Transition;
    var t := w.trades[id];
    var filled := Put(w, id, t.(
      avgFill := if data.avgPrice.Some? then data.avgPrice else t.avgFill,
      filledQty := if data.cumQty.Some? then data.cumQty else t.filledQty));
    SameLinksStayLinked(w, filled, id);
    var confirmed := Transition(filled, id, OrderConfirmed);
    TransitionStaysLinked(filled, id, OrderConfirmed);
    var stamped := Put(confirmed, id, confirmed.trades[id].(openedAt := Some(w.now)));
    SameLinksStayLinked(confirmed, stamped, id);
    ProtectionStaysLinked(cfg, stamped, id, data);
    TransitionStaysLinked(EnsureProtection(cfg, stamped, id, data).0, id, PositionOpen);
  }

  lemma ProtectiveFilledStaysLinked(w: World, id: nat, link: nat, data: OrderData)
    requires Linked(w) && id < |w.trades|
    ensures Linked(ProtectiveFilled(w, id, link, data))
  {
    hide Linked, ApplyOutcome, WithResult, Transition;
    var confirmed := Transition(w, id, OrderConfirmed);
    TransitionStaysLinked(w, id, OrderConfirmed);
    var exited := Put(confirmed, id, confirmed.trades[id].(avgExit := Some(Or0(data.avgPrice))));
    SameLinksStayLinked(confirmed, exited, id);
    var closed := Transition(exited, id, PositionClosed);
    TransitionStaysLinked(exited, id, PositionClosed);
    ResultStaysLinked(closed, id,
      ClosedAt(closed.trades[id], w.now).(exitReason := Some(ExitReasonFor(w.trades[id], link))), Or0(data.avgPrice));
  }

  lemma OrderUpdateStaysLinked(cfg: Settings, w: World, id: nat, link: nat, data: OrderData)
    requires Linked(w) && id < |w.trades|
    ensures Linked(ApplyOrderUpdate(cfg, w, id, link, data))
  {
    hide Linked, EntryFilled, ProtectiveFilled, Transition;
    if RemoteStatus(data.remote).Some? {
      var s := RemoteStatus(data.remote).value;
      EntryFilledStaysLinked(cfg, w, id, data);
      ProtectiveFilledStaysLinked(w, id, link, data);
      TransitionStaysLinked(w, id, s);
      TransitionStaysLinked(Transition(w, id, s), id, CloseFailed);
    }
  }

  lemma CloseStaysLinked(cfg: Settings, w: World, id: nat, reason: ExitReason, accepted: bool)
    requires Linked(w)
    ensures Linked(OnClose(cfg, w, id, reason, accepted))
  {
    hide Linked, ClosePendingFor, ApplyOutcome, WithResult, ShadowExit, Transition;
    if id < |w.trades| {
      ClosePendingStaysLinked(w, id, reason);
      var pending := ClosePendingFor(w, id, reason);
      NoRowStaysLinked(pending, AcceptOrder(pending, CloseOrder, id, w.links));
      var exit := ShadowExit(pending.trades[id], reason);
      ResultStaysLinked(pending, id, ClosedAt(pending.trades[id], pending.now).(avgExit := exit), Or0(exit));
    }
  }

  lemma FeeStaysLinked(w: World, link: nat, fee: real)
    requires Linked(w)
    ensures Linked(OnFee(w, link, fee))
  {
    hide Linked;
    var id := FindByLink(w.trades, link);
    if id < |w.trades| { SameLinksStayLinked(w, OnFee(w, link, fee), id); }
  }

  // ----- submissions -----

  lemma CreationStaysLinked(w: World, signal: nat, r: Request, plan: Plan)
    requires Linked(w) && plan.Sized?
    ensures Linked(CreateTrade(w, signal, r, plan))
  {
    var v := CreateTrade(w, signal, r, plan);
    forall i | 0 <= i < |w.trades| ensures Fits(v.trades[i], v.links) && !HasLink(v.trades[i], w.links) {
      assert Fits(w.trades[i], w.links);
    }
  }

  lemma PlaceStaysLinked(w: World, id: nat, sent: OrderType, reply: Reply, lookup: Lookup)
    requires Linked(w) && id < |w.trades| && w.trades[id].orderLink.Some?
    ensures Linked(Place(w, id, sent, reply, lookup).0)
  {
    hide Linked, Transition;
    match reply
    case Accepted =>
      var v := Put(w, id, w.trades[id].(orderType := Some(sent)));
      var a := AcceptOrder(v, EntryOrder(sent), id, w.trades[id].orderLink.value);
      SameLinksStayLinked(w, a, id);
      TransitionStaysLinked(a, id, OrderSubmitted);
    case RefusedBy(_) => TransitionStaysLinked(w, id, OrderRejected);
    case NoAnswer =>
      TransitionStaysLinked(w, id, OrderPendingUnknown);
      if lookup.Found? { TransitionStaysLinked(Transition(w, id, OrderPendingUnknown), id, LookupStatus(lookup.remote)); }
    case Broken =>
  }

  lemma DispatchStaysLinked(cfg: Settings, w: World, id: nat, ex: Exchange)
    requires Linked(w) && id < |w.trades| && w.trades[id].orderLink.Some?
    ensures Linked(Dispatch(cfg, w, id, ex).0)
  {
    hide Linked, Place, Transition;
    TransitionStaysLinked(w, id, OrderSubmitted);
    TransitionStaysLinked(w, id, SafetyChecked);
    TransitionKeepsOrderLink(w, id, SafetyChecked);
    var c := Transition(w, id, SafetyChecked);
    var u := Put(c, id, c.trades[id].(orderType := Some(LimitOrder)));
    SameLinksStayLinked(c, u, id);
    PlaceStaysLinked(u, id, MarketOrder, ex.first, ex.submitLookup);
    PlaceStaysLinked(u, id, LimitOrder, ex.first, ex.submitLookup);
    var m := Put(TakeLink(u), id, u.trades[id].(orderLink := Some(u.links)));
    FitsOf(u, id);
    RowStaysLinked(u, m, id);
    PlaceStaysLinked(m, id, MarketOrder, ex.second, ex.submitLookup);
  }

  lemma TransitionKeepsOrderLink(w: World, id: nat, s: Status)
    requires id < |w.trades|
    ensures Transition(w, id, s).trades[id].orderLink == w.trades[id].orderLink
  {
  }

  lemma ExecuteStaysLinked(cfg: Settings, w: World, signal: nat, r: Request, ex: Exchange)
    requires Linked(w)
    ensures Linked(ExecuteOrder(cfg, w, signal, r, ex).0)
  {
    hide Linked, CreateTrade, Dispatch, Admit;
    var (a, admits) := Admit(cfg, w, signal, ex);
    AdmitIsSafetyOnly(cfg, w, signal, ex);
    NoRowStaysLinked(w, a);
    if admits {
      CreationStaysLinked(a, signal, r, ex.plan);
      CreationOpens(a, signal, r, ex.plan);
      DispatchStaysLinked(cfg, CreateTrade(a, signal, r, ex.plan), |a.trades|, ex);
    }
  }

  lemma SubmitStaysLinked(cfg: Settings, w: World, fingerprint: string, r: Request, ex: Exchange)
    requires Linked(w)
    ensures Linked(OnSubmit(cfg, w, fingerprint, r, ex))
  {
    hide Linked, Replayed, ExecuteOrder;
    var (seen, answered) := Replayed(w, fingerprint, ex.replayLookup);
    ReplayedStaysLinked(w, fingerprint, ex.replayLookup);
    if !answered {
      var u, signal := Renew(seen, fingerprint), |seen.signals|;
      NoRowStaysLinked(seen, u);
      ExecuteStaysLinked(cfg, u, signal, r, ex);
      NoRowStaysLinked(ExecuteOrder(cfg, u, signal, r, ex).0, OnSubmit(cfg, w, fingerprint, r, ex));
    }
  }

  lemma ReplayedStaysLinked(w: World, fingerprint: string, lookup: Lookup)
    requires Linked(w)
    ensures Linked(Replayed(w, fingerprint, lookup).0)
  {
    hide Linked, TradeFor, Transition;
    if fingerprint in w.submissions {
      var id := TradeFor(w, w.submissions[fingerprint]);
      if id < |w.trades| && lookup.Found? { TransitionStaysLinked(w, id, LookupStatus(lookup.remote)); }
    }
  }

  // ----- every run -----

  lemma StepStaysLinked(cfg: Settings, w: World, cmd: Command)
    requires Linked(w)
    ensures Linked(Apply(cfg, w, cmd))
  {
    hide Linked, OnSubmit, ApplyOrderUpdate, OnClose, EnsureProtection, OnFee, OnActivate, ResetSafety, ClearPauseIfExpired;
    match cmd
    case Submit(fingerprint, request, exchange) => SubmitStaysLinked(cfg, w, fingerprint, request, exchange);
    case OrderEvent(link, data) =>
      var id := FindByLink(w.trades, link);
      if id < |w.trades| { OrderUpdateStaysLinked(cfg, w, id, link, data); }
    case Reconcile(trade, answer) =>
      if trade < |w.trades| && TrackedLink(w.trades[trade]).Some? && answer.Some? {
        OrderUpdateStaysLinked(cfg, w, trade, TrackedLink(w.trades[trade]).value, answer.value);
      }
    case ReconcileProtection(trade, data) =>
      if trade < |w.trades| { ProtectionStaysLinked(cfg, w, trade, data); }
    case Close(trade, reason, accepted) => CloseStaysLinked(cfg, w, trade, reason, accepted);
    case Fee(link, fee) => FeeStaysLinked(w, link, fee);
    case Tick(seconds) => SafetyCommands(w, seconds); NoRowStaysLinked(w, Apply(cfg, w, cmd));
    case _ => SafetyCommands(w, 0); NoRowStaysLinked(w, Apply(cfg, w, cmd));
  }

  lemma {:induction false} RunsStayLinked(cfg: Settings, cmds: seq<Command>)
    ensures Linked(Run(cfg, GENESIS, cmds))
  {
    hide Apply;
    if cmds != [] {
      RunsStayLinked(cfg, cmds[..|cmds| - 1]);
      StepStaysLinked(cfg, Run(cfg, GENESIS, cmds[..|cmds| - 1]), cmds[|cmds| - 1]);
    }
  }

  /** An order event concerns at most one row and plays at most one part in it, so the lookup by id is never
      ambiguous. */
  lemma EventsFindOneOrder(cfg: Settings, cmds: seq<Command>, link: nat, i: nat)
    requires i < |Run(cfg, GENESIS, cmds).trades| && HasLink(Run(cfg, GENESIS, cmds).trades[i], link)
    ensures var w := Run(cfg, GENESIS, cmds);
            var t := w.trades[i];
            && FindByLink(w.trades, link) == i
            && (t.orderLink == Some(link) ==> !Protective(t, link))
            && (t.stopLink == Some(link) ==> t.tpLink != Some(link) && t.closeLink != Some(link))
            && (t.tpLink == Some(link) ==> t.closeLink != Some(link))
  {
    hide Run;
    RunsStayLinked(cfg, cmds);
    FitsOf(Run(cfg, GENESIS, cmds), i);
    var k := FindByLink(Run(cfg, GENESIS, cmds).trades, link);
  }
}

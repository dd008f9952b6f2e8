/** Protective orders: which open positions carry a stop, how many are ever placed, and what a failed stop leads
    to. */
module StopLaws {
  import opened Prelude
  import opened Journal
  import opened JournalRows
  import opened AdmissionLaws
  import opened OutcomeLaws

  /** Client order ids of the acknowledged placements of one kind for one trade. */
  function PlacedLinks(placed: seq<Placement>, kind: OrderKind, id: nat): seq<nat> {
    if placed == [] then []
    else
      var p := placed[|placed| - 1];
      PlacedLinks(placed[..|placed| - 1], kind, id) + (if p.kind == kind && p.trade == id then [p.link] else [])
  }

  lemma PlacedSnoc(placed: seq<Placement>, p: Placement, kind: OrderKind, id: nat)
    ensures PlacedLinks(placed + [p], kind, id) ==
            PlacedLinks(placed, kind, id) + (if p.kind == kind && p.trade == id then [p.link] else [])
  {
    assert (placed + [p])[..|placed|] == placed;
  }

  function AsSeq(o: Option<nat>): seq<nat> {
    if o.Some? then [o.value] else []
  }

  const MARKET_ENTRY := EntryOrder(MarketOrder)

  /** The entry's id when the row says it went out as a market order. */
  function MarketEntry(t: Trade): Option<nat> {
    if t.orderType == Some(MarketOrder) then t.orderLink else None
  }

  /** The row's protective ids are exactly the acknowledged placements, and an open market position on spot
      carries a stop. */
  ghost predicate ShieldedRow(placed: seq<Placement>, id: nat, t: Trade) {
    && t.orderLink.Some? && t.terms.market == Spot
    && PlacedLinks(placed, StopOrder, id) == AsSeq(t.stopLink)
    && PlacedLinks(placed, TakeProfitOrder, id) == AsSeq(t.tpLink)
    && PlacedLinks(placed, MARKET_ENTRY, id) == AsSeq(MarketEntry(t))
    && (t.stopLink.Some? ==> NeedsSpotProtection(t))
    && (t.status == PositionOpen && NeedsSpotProtection(t) ==> t.stopLink.Some?)
  }

  ghost predicate Shielded(w: World) {
    && (forall id: nat :: id < |w.trades| ==> ShieldedRow(w.placed, id, w.trades[id]))
    && (forall p :: p in w.placed ==> p.trade < |w.trades|)
  }

  lemma ShieldOf(w: World, id: nat)
    requires Shielded(w) && id < |w.trades|
    ensures w.trades[id].orderLink.Some? && (w.trades[id].stopLink.Some? ==> NeedsSpotProtection(w.trades[id]))
  {
    hide PlacedLinks;
    assert ShieldedRow(w.placed, id, w.trades[id]);
  }

  // ----- single writes -----

  predicate SameShield(t: Trade, u: Trade) {
    && t.terms == u.terms && u.orderLink.Some? && MarketEntry(t) == MarketEntry(u)
    && t.stopLink == u.stopLink && t.tpLink == u.tpLink && (u.stopLink.Some? ==> NeedsSpotProtection(u))
    && (u.status == PositionOpen ==> t.status == PositionOpen || (NeedsSpotProtection(u) ==> u.stopLink.Some?))
  }

  lemma RowStaysShielded(w: World, v: World, id: nat)
    requires Shielded(w) && id < |w.trades| && |v.trades| == |w.trades| && v.trades == w.trades[id := v.trades[id]]
    requires SameShield(w.trades[id], v.trades[id]) && v.placed == w.placed
    ensures Shielded(v)
  {
    hide PlacedLinks;
    forall k: nat | k < |v.trades| ensures ShieldedRow(v.placed, k, v.trades[k]) {
      assert ShieldedRow(w.placed, k, w.trades[k]);
    }
  }

  /** Appending a placement for row `id`, with that row rewritten to match. */
  lemma PlacingStaysShielded(w: World, v: World, id: nat, p: Placement)
    requires Shielded(w) && id < |w.trades| && |v.trades| == |w.trades| && v.trades == w.trades[id := v.trades[id]]
    requires p.trade == id && v.placed == w.placed + [p]
    requires ShieldedRow(v.placed, id, v.trades[id])
    ensures Shielded(v)
  {
    forall k: nat | k < |v.trades| ensures ShieldedRow(v.placed, k, v.trades[k]) {
      assert ShieldedRow(w.placed, k, w.trades[k]);
      PlacedSnoc(w.placed, p, StopOrder, k);
      PlacedSnoc(w.placed, p, TakeProfitOrder, k);
      PlacedSnoc(w.placed, p, MARKET_ENTRY, k);
    }
  }

  /** A close order protects nothing and is not an entry. */
  lemma CloseOrderStaysShielded(w: World, id: nat, link: nat)
    requires Shielded(w) && id < |w.trades|
    ensures Shielded(AcceptOrder(w, CloseOrder, id, link))
  {
    hide PlacedLinks;
    var p := Placement(CloseOrder, id, link);
    PlacedSnoc(w.placed, p, StopOrder, id);
    PlacedSnoc(w.placed, p, TakeProfitOrder, id);
    PlacedSnoc(w.placed, p, MARKET_ENTRY, id);
    assert ShieldedRow(w.placed, id, w.trades[id]);
    assert w.trades == w.trades[id := w.trades[id]];
    PlacingStaysShielded(w, AcceptOrder(w, CloseOrder, id, link), id, p);
  }

  lemma TransitionStaysShielded(w: World, id: nat, s: Status)
    requires Shielded(w) && id < |w.trades|
    requires s == PositionOpen && NeedsSpotProtection(w.trades[id]) ==> w.trades[id].stopLink.Some?
    ensures Shielded(Transition(w, id, s))
  {
    hide Shielded;
    ShieldOf(w, id);
    if Transition(w, id, s) != w { RowStaysShielded(w, Transition(w, id, s), id); }
  }

  // ----- protection -----

  lemma ArmStopStaysShielded(w: World, id: nat)
    requires Shielded(w) && id < |w.trades| && NeedsSpotProtection(w.trades[id]) && w.trades[id].stopLink == None
    ensures Shielded(ArmStop(w, id))
  {
    hide PlacedLinks;
    var v, p := ArmStop(w, id), Placement(StopOrder, id, w.links);
    assert ShieldedRow(w.placed, id, w.trades[id]);
    PlacedSnoc(w.placed, p, StopOrder, id);
    PlacedSnoc(w.placed, p, TakeProfitOrder, id);
    PlacedSnoc(w.placed, p, MARKET_ENTRY, id);
    PlacingStaysShielded(w, v, id, p);
  }

  lemma ArmTakeProfitStaysShielded(w: World, id: nat, tpOk: bool)
    requires Shielded(w) && id < |w.trades|
    ensures Shielded(ArmTakeProfit(w, id, tpOk))
  {
    hide PlacedLinks;
    var v, p := ArmTakeProfit(w, id, tpOk), Placement(TakeProfitOrder, id, w.links);
    assert ShieldedRow(w.placed, id, w.trades[id]);
    PlacedSnoc(w.placed, p, StopOrder, id);
    PlacedSnoc(w.placed, p, TakeProfitOrder, id);
    PlacedSnoc(w.placed, p, MARKET_ENTRY, id);
    if v.placed != w.placed { PlacingStaysShielded(w, v, id, p); }
  }

  lemma StopFailureStaysShielded(w: World, id: nat, closeOk: bool)
    requires Shielded(w) && id < |w.trades|
    ensures Shielded(StopFailure(w, id, closeOk))
  {
    hide Shielded, Transition;
    ShieldOf(w, id);
    var v := TakeLink(ActivateKill(w));
    var u := Put(v, id, v.trades[id].(closeLink := Some(w.links), exitReason := Some(KillSwitchExit)));
    RowStaysShielded(w, u, id);
    CloseOrderStaysShielded(u, id, w.links);
    TransitionStaysShielded(AcceptOrder(u, CloseOrder, id, w.links), id, ClosePending);
    TransitionStaysShielded(u, id, CloseFailed);
  }

  /** Protection is ready only when the position needs none or its stop is armed. */
  lemma ProtectionStaysShielded(cfg: Settings, w: World, id: nat, data: OrderData)
    requires Shielded(w) && id < |w.trades|
    ensures var (v, ready) := EnsureProtection(cfg, w, id, data);
            && Shielded(v)
            && (ready ==> v.trades[id].terms == w.trades[id].terms && v.trades[id].orderType == w.trades[id].orderType)
            && (ready && NeedsSpotProtection(v.trades[id]) ==> v.trades[id].stopLink.Some?)
  {
    hide Shielded, StopFailure;
    ShieldOf(w, id);
    var t := w.trades[id];
    if t.stopLink == None && !data.stopOk {
      assert Shielded(TakeLink(w)) by { RowStaysShielded(w, TakeLink(w), id); }
      StopFailureStaysShielded(TakeLink(w), id, data.closeOk);
    } else if NeedsSpotProtection(t) {
      if t.stopLink == None { ArmStopStaysShielded(w, id); }
      ArmTakeProfitStaysShielded(if t.stopLink == None then ArmStop(w, id) else w, id, data.tpOk);
    }
  }

  // ----- order updates, closes and fees -----

  lemma EntryFilledStaysShielded(cfg: Settings, w: World, id: nat, data: OrderData)
    requires Shielded(w) && id < |w.trades|
    ensures Shielded(EntryFilled(cfg, w, id, data))
  {
    hide Shielded, EnsureProtection, Transition;
    ShieldOf(w, id);
    var t := w.trades[id];
    var filled := Put(w, id, t.(
      avgFill := if data.avgPrice.Some? then data.avgPrice else t.avgFill,
      filledQty := if data.cumQty.Some? then data.cumQty else t.filledQty));
    RowStaysShielded(w, filled, id);
    var confirmed := Transition(filled, id, OrderConfirmed);
    TransitionStaysShielded(filled, id, OrderConfirmed);
    ShieldOf(confirmed, id);
    var stamped := Put(confirmed, id, confirmed.trades[id].(openedAt := Some(w.now)));
    RowStaysShielded(confirmed, stamped, id);
    ProtectionStaysShielded(cfg, stamped, id, data);
    var (v, ready) := EnsureProtection(cfg, stamped, id, data);
    if ready { TransitionStaysShielded(v, id, PositionOpen); }
  }

  lemma ResultStaysShielded(w: World, id: nat, t: Trade, exit: real)
    requires Shielded(w) && id < |w.trades| && t.status != PositionOpen && SameShield(w.trades[id], t)
    ensures Shielded(ApplyOutcome(Transition(Put(w, id, WithResult(t, exit)), id, PnlRecorded), id))
  {
    hide Shielded, Outcome, RealizedPnl, PnlRatio;
    RowStaysShielded(w, Put(w, id, WithResult(t, exit)), id);
    var r := Transition(Put(w, id, WithResult(t, exit)), id, PnlRecorded);
    TransitionStaysShielded(Put(w, id, WithResult(t, exit)), id, PnlRecorded);
    ShieldOf(r, id);
    RowStaysShielded(r, ApplyOutcome(r, id), id);
  }

  lemma ProtectiveFilledStaysShielded(w: World, id: nat, link: nat, data: OrderData)
    requires Shielded(w) && id < |w.trades|
    ensures Shielded(ProtectiveFilled(w, id, link, data))
  {
    hide Shielded, ApplyOutcome, WithResult, Transition;
    var confirmed := Transition(w, id, OrderConfirmed);
    TransitionStaysShielded(w, id, OrderConfirmed);
    ShieldOf(confirmed, id);
    var exited := Put(confirmed, id, confirmed.trades[id].(avgExit := Some(Or0(data.avgPrice))));
    RowStaysShielded(confirmed, exited, id);
    var closed := Transition(exited, id, PositionClosed);
    TransitionStaysShielded(exited, id, PositionClosed);
    ShieldOf(closed, id);
    TransitionSetsStatus(exited, id, PositionClosed);
    ResultStaysShielded(closed, id,
      ClosedAt(closed.trades[id], w.now).(exitReason := Some(ExitReasonFor(w.trades[id], link))), Or0(data.avgPrice));
  }

  lemma TransitionSetsStatus(w: World, id: nat, s: Status)
    requires id < |w.trades|
    ensures Transition(w, id, s).trades[id].status == s
  {
  }

  lemma OrderUpdateStaysShielded(cfg: Settings, w: World, id: nat, link: nat, data: OrderData)
    requires Shielded(w) && id < |w.trades|
    ensures Shielded(ApplyOrderUpdate(cfg, w, id, link, data))
  {
    hide Shielded, EntryFilled, ProtectiveFilled, Transition;
    if RemoteStatus(data.remote).Some? {
      var s := RemoteStatus(data.remote).value;
      EntryFilledStaysShielded(cfg, w, id, data);
      ProtectiveFilledStaysShielded(w, id, link, data);
      TransitionStaysShielded(w, id, s);
      TransitionStaysShielded(Transition(w, id, s), id, CloseFailed);
    }
  }

  lemma CloseStaysShielded(cfg: Settings, w: World, id: nat, reason: ExitReason, accepted: bool)
    requires Shielded(w)
    ensures Shielded(OnClose(cfg, w, id, reason, accepted))
  {
    hide Shielded, Transition, ApplyOutcome, WithResult, ShadowExit;
    if id < |w.trades| {
      ShieldOf(w, id);
      var p := Put(TakeLink(w), id, w.trades[id].(closeLink := Some(w.links), exitReason := Some(reason)));
      RowStaysShielded(w, p, id);
      var pending := Transition(p, id, ClosePending);
      TransitionStaysShielded(p, id, ClosePending);
      TransitionSetsStatus(p, id, ClosePending);
      ShieldOf(pending, id);
      CloseOrderStaysShielded(pending, id, w.links);
      var exit := ShadowExit(pending.trades[id], reason);
      ResultStaysShielded(pending, id, ClosedAt(pending.trades[id], pending.now).(avgExit := exit), Or0(exit));
    }
  }

  lemma FeeStaysShielded(w: World, link: nat, fee: real)
    requires Shielded(w)
    ensures Shielded(OnFee(w, link, fee))
  {
    hide Shielded;
    var id := FindByLink(w.trades, link);
    if id < |w.trades| {
      ShieldOf(w, id);
      RowStaysShielded(w, OnFee(w, link, fee), id);
    }
  }

  // ----- submissions -----

  lemma {:induction false} NothingPlacedYet(placed: seq<Placement>, kind: OrderKind, id: nat)
    requires forall p :: p in placed ==> p.trade != id
    ensures PlacedLinks(placed, kind, id) == []
  {
    if placed != [] {
      NothingPlacedYet(placed[..|placed| - 1], kind, id);
      assert placed[|placed| - 1] in placed;
    }
  }

  lemma CreationStaysShielded(w: World, signal: nat, r: Request, plan: Plan)
    requires Shielded(w) && plan.Sized?
    ensures Shielded(CreateTrade(w, signal, r, plan))
  {
    hide PlacedLinks;
    var v, n := CreateTrade(w, signal, r, plan), |w.trades|;
    NothingPlacedYet(w.placed, StopOrder, n);
    NothingPlacedYet(w.placed, TakeProfitOrder, n);
    NothingPlacedYet(w.placed, MARKET_ENTRY, n);
    forall k: nat | k < |v.trades| ensures ShieldedRow(v.placed, k, v.trades[k]) {
      if k < n { assert ShieldedRow(w.placed, k, w.trades[k]); }
    }
  }

  predicate Unsent(t: Trade) {
    t.orderLink.Some? && t.stopLink == None && t.tpLink == None && t.orderType != Some(MarketOrder) && t.status != PositionOpen
  }

  lemma PlaceStaysShielded(w: World, id: nat, sent: OrderType, reply: Reply, lookup: Lookup)
    requires Shielded(w) && id < |w.trades| && Unsent(w.trades[id])
    ensures Shielded(Place(w, id, sent, reply, lookup).0)
  {
    hide Shielded, Transition;
    match reply
    case Accepted =>
      var v := Put(w, id, w.trades[id].(orderType := Some(sent)));
      var a := AcceptOrder(v, EntryOrder(sent), id, w.trades[id].orderLink.value);
      EntryStaysShielded(w, id, sent);
      TransitionStaysShielded(a, id, OrderSubmitted);
    case RefusedBy(_) => TransitionStaysShielded(w, id, OrderRejected);
    case NoAnswer =>
      TransitionStaysShielded(w, id, OrderPendingUnknown);
      var p := Transition(w, id, OrderPendingUnknown);
      if lookup.Found? { TransitionStaysShielded(p, id, LookupStatus(lookup.remote)); }
    case Broken =>
  }

  lemma EntryStaysShielded(w: World, id: nat, sent: OrderType)
    requires Shielded(w) && id < |w.trades| && Unsent(w.trades[id])
    ensures Shielded(AcceptOrder(Put(w, id, w.trades[id].(orderType := Some(sent))), EntryOrder(sent), id, w.trades[id].orderLink.value))
  {
    hide PlacedLinks;
    var p := Placement(EntryOrder(sent), id, w.trades[id].orderLink.value);
    assert ShieldedRow(w.placed, id, w.trades[id]);
    PlacedSnoc(w.placed, p, StopOrder, id);
    PlacedSnoc(w.placed, p, TakeProfitOrder, id);
    PlacedSnoc(w.placed, p, MARKET_ENTRY, id);
    PlacingStaysShielded(w, AcceptOrder(Put(w, id, w.trades[id].(orderType := Some(sent))), EntryOrder(sent), id, w.trades[id].orderLink.value), id, p);
  }

  lemma DispatchStaysShielded(cfg: Settings, w: World, id: nat, ex: Exchange)
    requires Shielded(w) && id < |w.trades| && Unsent(w.trades[id])
    ensures Shielded(Dispatch(cfg, w, id, ex).0)
  {
    hide Shielded, Place;
    TransitionStaysShielded(w, id, OrderSubmitted);
    TransitionStaysShielded(w, id, SafetyChecked);
    var c := Transition(w, id, SafetyChecked);
    var u := Put(c, id, c.trades[id].(orderType := Some(LimitOrder)));
    RowStaysShielded(c, u, id);
    PlaceStaysShielded(u, id, MarketOrder, ex.first, ex.submitLookup);
    PlaceStaysShielded(u, id, LimitOrder, ex.first, ex.submitLookup);
    var m := Put(TakeLink(u), id, u.trades[id].(orderLink := Some(u.links)));
    RowStaysShielded(u, m, id);
    PlaceStaysShielded(m, id, MarketOrder, ex.second, ex.submitLookup);
  }

  lemma SameRowsStayShielded(w: World, v: World)
    requires Shielded(w) && v.trades == w.trades && v.placed == w.placed
    ensures Shielded(v)
  {
    hide ShieldedRow;
  }

  lemma SubmitStaysShielded(cfg: Settings, w: World, fingerprint: string, r: Request, ex: Exchange)
    requires Shielded(w)
    ensures Shielded(OnSubmit(cfg, w, fingerprint, r, ex))
  {
    hide Shielded, Replayed, ExecuteOrder;
    var (seen, answered) := Replayed(w, fingerprint, ex.replayLookup);
    ReplayedStaysShielded(w, fingerprint, ex.replayLookup);
    if !answered {
      var u, signal := Renew(seen, fingerprint), |seen.signals|;
      SameRowsStayShielded(seen, u);
      ExecuteStaysShielded(cfg, u, signal, r, ex);
      SameRowsStayShielded(ExecuteOrder(cfg, u, signal, r, ex).0, OnSubmit(cfg, w, fingerprint, r, ex));
    }
  }

  lemma ExecuteStaysShielded(cfg: Settings, w: World, signal: nat, r: Request, ex: Exchange)
    requires Shielded(w)
    ensures Shielded(ExecuteOrder(cfg, w, signal, r, ex).0)
  {
    hide Shielded, CreateTrade, Dispatch, Admit;
    var (a, admits) := Admit(cfg, w, signal, ex);
    AdmitIsSafetyOnly(cfg, w, signal, ex);
    SameRowsStayShielded(w, a);
    if admits {
      CreationStaysShielded(a, signal, r, ex.plan);
      var c := CreateTrade(a, signal, r, ex.plan);
      CreationIsUnsent(a, signal, r, ex.plan);
      DispatchStaysShielded(cfg, c, |a.trades|, ex);
    }
  }

  lemma CreationIsUnsent(w: World, signal: nat, r: Request, plan: Plan)
    requires plan.Sized?
    ensures |CreateTrade(w, signal, r, plan).trades| == |w.trades| + 1
    ensures Unsent(CreateTrade(w, signal, r, plan).trades[|w.trades|])
  {
  }

  lemma ReplayedStaysShielded(w: World, fingerprint: string, lookup: Lookup)
    requires Shielded(w)
    ensures Shielded(Replayed(w, fingerprint, lookup).0)
  {
    hide Shielded, TradeFor, Transition;
    if fingerprint in w.submissions {
      var id := TradeFor(w, w.submissions[fingerprint]);
      if id < |w.trades| && lookup.Found? { TransitionStaysShielded(w, id, LookupStatus(lookup.remote)); }
    }
  }

  // ----- every run -----

  lemma StepStaysShielded(cfg: Settings, w: World, cmd: Command)
    requires Shielded(w)
    ensures Shielded(Apply(cfg, w, cmd))
  {
    hide Shielded, OnSubmit, ApplyOrderUpdate, OnClose, EnsureProtection, OnFee, OnActivate, ResetSafety, ClearPauseIfExpired;
    match cmd
    case Submit(fingerprint, request, exchange) => SubmitStaysShielded(cfg, w, fingerprint, request, exchange);
    case OrderEvent(link, data) =>
      var id := FindByLink(w.trades, link);
      if id < |w.trades| { OrderUpdateStaysShielded(cfg, w, id, link, data); }
    case Reconcile(trade, answer) =>
      if trade < |w.trades| && TrackedLink(w.trades[trade]).Some? && answer.Some? {
        OrderUpdateStaysShielded(cfg, w, trade, TrackedLink(w.trades[trade]).value, answer.value);
      }
    case ReconcileProtection(trade, data) =>
      if trade < |w.trades| { ProtectionStaysShielded(cfg, w, trade, data); }
    case Close(trade, reason, accepted) => CloseStaysShielded(cfg, w, trade, reason, accepted);
    case Fee(link, fee) => FeeStaysShielded(w, link, fee);
    case Tick(seconds) => SafetyCommands(w, seconds); SameRowsStayShielded(w, Apply(cfg, w, cmd));
    case _ => SafetyCommands(w, 0); SameRowsStayShielded(w, Apply(cfg, w, cmd));
  }

  lemma {:induction false} RunsStayShielded(cfg: Settings, cmds: seq<Command>)
    ensures Shielded(Run(cfg, GENESIS, cmds))
  {
    hide Apply;
    if cmds != [] {
      RunsStayShielded(cfg, cmds[..|cmds| - 1]);
      StepStaysShielded(cfg, Run(cfg, GENESIS, cmds[..|cmds| - 1]), cmds[|cmds| - 1]);
    }
  }

  // ----- main results -----

  /** Over any run a trade has at most one stop and one take-profit placed, namely the ones its row names; and an open
      position carries a stop exactly when its market entry was acknowledged. */
  lemma StopsGuardOpenPositions(cfg: Settings, cmds: seq<Command>, id: nat)
    requires id < |Run(cfg, GENESIS, cmds).trades|
    ensures var w := Run(cfg, GENESIS, cmds);
            var t := w.trades[id];
            && PlacedLinks(w.placed, StopOrder, id) == AsSeq(t.stopLink)
            && PlacedLinks(w.placed, TakeProfitOrder, id) == AsSeq(t.tpLink)
            && |PlacedLinks(w.placed, MARKET_ENTRY, id)| <= 1
            && (t.status == PositionOpen && NeedsSpotProtection(t) ==> t.stopLink.Some?)
            && (t.status == PositionOpen ==> (t.stopLink.Some? <==> PlacedLinks(w.placed, MARKET_ENTRY, id) != []))
  {
    hide Run, PlacedLinks;
    RunsStayShielded(cfg, cmds);
    var w := Run(cfg, GENESIS, cmds);
    assert ShieldedRow(w.placed, id, w.trades[id]);
  }

  /** The engine tries to arm a stop for this row, and the exchange refuses it. */
  predicate RefusesStop(cfg: Settings, t: Trade, data: OrderData) {
    && cfg.hasClient && NeedsSpotProtection(t) && t.stopLink == None && t.terms.stopPrice.Some?
    && Or0(Or(t.filledQty, t.terms.qty)) != 0.0 && !data.stopOk
  }

  /** The row as a fill report leaves it before protection. */
  function Reported(t: Trade, data: OrderData): Trade {
    t.(avgFill := if data.avgPrice.Some? then data.avgPrice else t.avgFill,
       filledQty := if data.cumQty.Some? then data.cumQty else t.filledQty)
  }

  /** The events whose handling arms a stop: a full entry fill, reported or looked up, and the
      missing-protection sweep. */
  predicate LosesStop(cfg: Settings, w: World, cmd: Command, id: nat) {
    id < |w.trades| &&
    match cmd
    case OrderEvent(link, data) => id == FindByLink(w.trades, link) && EntryLosesStop(cfg, w.trades[id], link, data)
    case Reconcile(trade, answer) =>
      trade == id && answer.Some? && TrackedLink(w.trades[id]).Some?
      && EntryLosesStop(cfg, w.trades[id], TrackedLink(w.trades[id]).value, answer.value)
    case ReconcileProtection(trade, data) =>
      trade == id && MissesProtection(w.trades[id]) && RefusesStop(cfg, w.trades[id], data)
    case _ => false
  }

  predicate EntryLosesStop(cfg: Settings, t: Trade, link: nat, data: OrderData) {
    && data.remote == Filled && data.fully && !Protective(t, link) && !IgnoresEntryUpdate(t, OrderConfirmed)
    && RefusesStop(cfg, Reported(t, data), data)
  }

  /** The emergency close is under way or has failed, and the kill switch is on. */
  predicate EmergencyClosed(v: World, id: nat, closeOk: bool) {
    && id < |v.trades| && v.safety.killed
    && v.trades[id].status == (if closeOk then ClosePending else CloseFailed)
    && v.trades[id].stopLink == None && v.trades[id].closeLink.Some? && v.trades[id].exitReason == Some(KillSwitchExit)
  }

  lemma RefusedStopCloses(cfg: Settings, w: World, id: nat, data: OrderData)
    requires id < |w.trades| && RefusesStop(cfg, w.trades[id], data)
    ensures var (v, ready) := EnsureProtection(cfg, w, id, data);
            !ready && EmergencyClosed(v, id, data.closeOk)
  {
  }

  lemma EntryRefusalCloses(cfg: Settings, w: World, id: nat, link: nat, data: OrderData)
    requires id < |w.trades| && EntryLosesStop(cfg, w.trades[id], link, data)
    ensures EmergencyClosed(ApplyOrderUpdate(cfg, w, id, link, data), id, data.closeOk)
  {
    hide EnsureProtection, EmergencyClosed;
    var filled := Put(w, id, Reported(w.trades[id], data));
    var confirmed := Transition(filled, id, OrderConfirmed);
    var stamped := Put(confirmed, id, confirmed.trades[id].(openedAt := Some(w.now)));
    RefusedStopCloses(cfg, stamped, id, data);
  }

  /** A stop that cannot be armed leaves the position closing (or failed to close) under the kill switch, and then
      no trade is created whatever happens until a reset. */
  lemma FailedStopHaltsTrading(cfg: Settings, w: World, cmd: Command, id: nat, later: seq<Command>)
    requires LosesStop(cfg, w, cmd, id) && NoReset(later)
    ensures var v := Apply(cfg, w, cmd);
            && (EmergencyClosed(v, id, true) || EmergencyClosed(v, id, false))
            && Run(cfg, v, later).safety.killed && |Run(cfg, v, later).trades| == |v.trades|
  {
    hide ApplyOrderUpdate, EnsureProtection, Run;
    match cmd {
      case OrderEvent(link, data) => EntryRefusalCloses(cfg, w, id, link, data);
      case Reconcile(_, answer) => EntryRefusalCloses(cfg, w, id, TrackedLink(w.trades[id]).value, answer.value);
      case ReconcileProtection(_, data) => RefusedStopCloses(cfg, w, id, data);
      case _ =>
    }
    HaltsLastUntilReset(cfg, Apply(cfg, w, cmd), later);
  }

  lemma NoProtectionNeeded(cfg: Settings, w: World, id: nat, data: OrderData)
    requires id < |w.trades| && cfg.hasClient && !NeedsSpotProtection(w.trades[id])
    ensures EnsureProtection(cfg, w, id, data) == (w, true)
  {
  }

  lemma UnmarkedEntryFilled(cfg: Settings, w: World, id: nat, data: OrderData)
    requires id < |w.trades| && cfg.hasClient && !NeedsSpotProtection(w.trades[id]) && data.fully
    ensures var v := EntryFilled(cfg, w, id, data);
            && v.trades[id].status == PositionOpen && v.trades[id].stopLink == w.trades[id].stopLink
            && v.placed == w.placed && v.safety == w.safety
  {
    hide EnsureProtection;
    var filled := Put(w, id, Reported(w.trades[id], data));
    var confirmed := Transition(filled, id, OrderConfirmed);
    var stamped := Put(confirmed, id, confirmed.trades[id].(openedAt := Some(w.now)));
    NoProtectionNeeded(cfg, stamped, id, data);
  }

  /** A full fill of an entry not marked as a market order opens the position without placing anything. */
  lemma UnmarkedFillPlacesNothing(cfg: Settings, w: World, id: nat, link: nat, data: OrderData)
    requires id < |w.trades| && cfg.hasClient && !NeedsSpotProtection(w.trades[id])
    requires !Protective(w.trades[id], link) && !IgnoresEntryUpdate(w.trades[id], OrderConfirmed)
    requires data.remote == Filled && data.fully
    ensures var v := ApplyOrderUpdate(cfg, w, id, link, data);
            && v.trades[id].status == PositionOpen && v.trades[id].stopLink == w.trades[id].stopLink
            && v.placed == w.placed && v.safety == w.safety && |v.trades| == |w.trades|
  {
    hide ProtectiveFilled, EntryFilled, IgnoresEntryUpdate, Protective;
    UnmarkedEntryFilled(cfg, w, id, data);
  }

  /** A market entry whose answer is lost stays marked as a limit order. */
  lemma LostAnswerLeavesLimit(cfg: Settings, w: World, id: nat, ex: Exchange)
    requires id < |w.trades| && w.trades[id].orderLink.Some?
    requires !cfg.shadow && cfg.orderMode == TakerAllowed && ex.first == NoAnswer && !ex.submitLookup.Found?
    ensures var v := Dispatch(cfg, w, id, ex).0;
            && v.trades == w.trades[id := w.trades[id].(orderType := Some(LimitOrder), status := OrderPendingUnknown)]
            && v.placed == w.placed && v.safety == w.safety && Dispatch(cfg, w, id, ex).1 == Returned
  {
  }

  predicate LosesAnswer(cfg: Settings, ex: Exchange) {
    && !cfg.shadow && cfg.orderMode == TakerAllowed && cfg.hasClient && cfg.maxOpen > 0 && cfg.maxPerDay > 0
    && cfg.weeklyLimit > 0.0 && cfg.softLosses > 0 && cfg.hardLosses > 0
    && ex.plan.Sized? && ex.first == NoAnswer && ex.submitLookup == Unreachable
  }

  lemma SubmittedWithoutAnswer(cfg: Settings, r: Request, ex: Exchange) returns (u: World)
    requires LosesAnswer(cfg, ex)
    ensures u == OnSubmit(cfg, GENESIS, "s", r, ex)
    ensures u.trades == [NewTrade(GENESIS, 0, r, ex.plan).(orderType := Some(LimitOrder), status := OrderPendingUnknown)]
    ensures u.placed == [] && u.safety == NO_PAUSE
  {
    hide Dispatch, Admit, LossOver;
    var n := Renew(GENESIS, "s");
    NoLossYet(n, 0, 7);
    GuardsPassExactlyWhenClear(cfg, n, 0, ex);
    LostAnswerLeavesLimit(cfg, CreateTrade(n, 0, r, ex.plan), 0, ex);
    u := OnSubmit(cfg, GENESIS, "s", r, ex);
  }

  /** So market entries can open positions that carry no stop: one submission with a lost answer, then its fill. */
  lemma LostAnswerOpensUnprotected(cfg: Settings, r: Request, fill: OrderData, ex: Exchange)
    requires LosesAnswer(cfg, ex) && fill.remote == Filled && fill.fully
    ensures var w := Run(cfg, GENESIS, [Submit("s", r, ex), OrderEvent(0, fill)]);
            && |w.trades| == 1 && w.trades[0].status == PositionOpen && w.trades[0].stopLink == None
            && w.placed == [] && !w.safety.killed
  {
    hide OnSubmit, ApplyOrderUpdate;
    var cmds := [Submit("s", r, ex), OrderEvent(0, fill)];
    assert cmds[..1] == [cmds[0]] && cmds[..1][..0] == [];
    var u := SubmittedWithoutAnswer(cfg, r, ex);
    assert Run(cfg, GENESIS, cmds[..1]) == u;
    assert FindByLink(u.trades, 0) == 0;
    UnmarkedFillPlacesNothing(cfg, u, 0, 0, fill);
  }

  /** Confirmed by a status lookup, hence without a filled quantity. */
  predicate Stranded(t: Trade) {
    t.status == OrderConfirmed && t.filledQty == None
  }

  /** Apart from fees, only an order event moves a trade that a lookup confirmed. */
  lemma StrandedOverStep(cfg: Settings, w: World, cmd: Command, id: nat)
    requires id < |w.trades| && Stranded(w.trades[id]) && !cmd.OrderEvent?
    ensures var v := Apply(cfg, w, cmd); id < |v.trades| && v.trades[id] == w.trades[id].(feePaid := v.trades[id].feePaid)
  {
    hide OnSubmit, Settles, Touches, EnsureProtection, ApplyOrderUpdate, OnClose;
    match cmd
    case Submit(fingerprint, request, exchange) => SubmitKeepsRow(cfg, w, fingerprint, request, exchange, id);
    case Reconcile(trade, answer) => OtherRowReconciled(cfg, w, cmd, id);
    case ReconcileProtection(trade, data) => OtherRowReconciled(cfg, w, cmd, id);
    case Close(trade, reason, accepted) => OtherRowReconciled(cfg, w, cmd, id);
    case _ =>
  }

  lemma OtherRowReconciled(cfg: Settings, w: World, cmd: Command, id: nat)
    requires id < |w.trades| && Stranded(w.trades[id])
    requires cmd.Reconcile? || cmd.ReconcileProtection? || cmd.Close?
    ensures var v := Apply(cfg, w, cmd); id < |v.trades| && v.trades[id] == w.trades[id]
  {
    hide EnsureProtection, ApplyOrderUpdate, ClosePendingFor, ShadowClose, Chronicled, Outcome;
    match cmd
    case Reconcile(trade, answer) =>
      if trade < |w.trades| && TrackedLink(w.trades[trade]).Some? && answer.Some? {
        OrderUpdateStep(cfg, w, trade, TrackedLink(w.trades[trade]).value, answer.value);
      }
    case ReconcileProtection(trade, data) =>
      if trade < |w.trades| && MissesProtection(w.trades[trade]) { EnsureProtectionTouches(cfg, w, trade, data); }
    case Close(trade, reason, accepted) =>
      if trade < |w.trades| && CloseRetryable(w.trades[trade].status) { CloseStep(cfg, w, trade, reason, accepted); }
  }

  /** A lost answer followed by a lookup that says "filled" leaves the trade confirmed without a quantity: no
      reconciliation, sweep, close request or resubmission ever opens, protects or closes it; only a further order
      event can. */
  lemma {:induction false} LookupConfirmedTradesWait(cfg: Settings, w: World, cmds: seq<Command>, id: nat)
    requires id < |w.trades| && Stranded(w.trades[id]) && forall c :: c in cmds ==> !c.OrderEvent?
    ensures var v := Run(cfg, w, cmds); id < |v.trades| && v.trades[id] == w.trades[id].(feePaid := v.trades[id].feePaid)
  {
    hide Apply;
    if cmds != [] {
      LookupConfirmedTradesWait(cfg, w, cmds[..|cmds| - 1], id);
      StrandedOverStep(cfg, Run(cfg, w, cmds[..|cmds| - 1]), cmds[|cmds| - 1], id);
    }
  }

  // ----- how a trade gets there -----

  /** A step leaves a row with an unknown fate only if it had one already, and fills nothing of it. */
  predicate StaysUnknown(t: Trade, u: Trade) {
    u.status == OrderPendingUnknown ==> t.status == OrderPendingUnknown && u.filledQty == t.filledQty
  }

  lemma ProtectionLeavesUnknown(cfg: Settings, w: World, id: nat, data: OrderData)
    requires id < |w.trades|
    ensures StaysUnknown(w.trades[id], EnsureProtection(cfg, w, id, data).0.trades[id])
  {
  }

  lemma EntryFilledIsKnown(cfg: Settings, w: World, id: nat, data: OrderData)
    requires id < |w.trades|
    ensures EntryFilled(cfg, w, id, data).trades[id].status != OrderPendingUnknown
  {
    hide EnsureProtection;
    var filled := Put(w, id, Reported(w.trades[id], data));
    var confirmed := Transition(filled, id, OrderConfirmed);
    var stamped := Put(confirmed, id, confirmed.trades[id].(openedAt := Some(w.now)));
    ProtectionLeavesUnknown(cfg, stamped, id, data);
  }

  lemma UpdateLeavesUnknown(cfg: Settings, w: World, id: nat, link: nat, data: OrderData)
    requires id < |w.trades|
    ensures StaysUnknown(w.trades[id], ApplyOrderUpdate(cfg, w, id, link, data).trades[id])
  {
    hide EntryFilled, ProtectiveFilled, Protective, IgnoresEntryUpdate, Chronicled, Outcome, WithResult;
    EntryFilledIsKnown(cfg, w, id, data);
    if w.trades[id].status != PnlRecorded { ProtectiveFilledSettles(w, id, link, data); }
  }

  lemma CloseLeavesUnknown(cfg: Settings, w: World, id: nat, reason: ExitReason, accepted: bool)
    requires id < |w.trades|
    ensures |OnClose(cfg, w, id, reason, accepted).trades| == |w.trades|
    ensures StaysUnknown(w.trades[id], OnClose(cfg, w, id, reason, accepted).trades[id])
  {
    hide ShadowExit, WithResult, Outcome;
  }

  /** No command but a submission makes a trade's fate unknown. */
  lemma StepLeavesUnknown(cfg: Settings, w: World, cmd: Command, i: nat)
    requires !cmd.Submit? && i < |w.trades|
    ensures i < |Apply(cfg, w, cmd).trades| && StaysUnknown(w.trades[i], Apply(cfg, w, cmd).trades[i])
  {
    hide Touches, Settles, EnsureProtection, ApplyOrderUpdate, OnClose, StaysUnknown;
    assert forall t: Trade :: StaysUnknown(t, t) by { UnknownItself(); }
    match cmd
    case OrderEvent(link, data) =>
      var id := FindByLink(w.trades, link);
      if id < |w.trades| {
        OrderUpdateStep(cfg, w, id, link, data);
        UpdateLeavesUnknown(cfg, w, id, link, data);
        if i != id { OtherRowsStay(w, Apply(cfg, w, cmd), id, i); }
      }
    case Reconcile(trade, answer) =>
      if trade < |w.trades| && TrackedLink(w.trades[trade]).Some? && answer.Some? {
        var link := TrackedLink(w.trades[trade]).value;
        OrderUpdateStep(cfg, w, trade, link, answer.value);
        UpdateLeavesUnknown(cfg, w, trade, link, answer.value);
        if i != trade { OtherRowsStay(w, Apply(cfg, w, cmd), trade, i); }
      }
    case ReconcileProtection(trade, data) =>
      if trade < |w.trades| && MissesProtection(w.trades[trade]) {
        EnsureProtectionTouches(cfg, w, trade, data);
        ProtectionLeavesUnknown(cfg, w, trade, data);
        if i != trade { OtherRowsStay(w, Apply(cfg, w, cmd), trade, i); }
      }
    case Close(trade, reason, accepted) =>
      CloseStep(cfg, w, trade, reason, accepted);
      if trade < |w.trades| { CloseLeavesUnknown(cfg, w, trade, reason, accepted); }
      if i != trade { OtherRowsStay(w, Apply(cfg, w, cmd), trade, i); }
    case Fee(link, fee) => FeeLeavesUnknown(w, link, fee, i);
    case _ =>
  }

  lemma UnknownItself()
    ensures forall t: Trade :: StaysUnknown(t, t)
  {
  }

  lemma FeeLeavesUnknown(w: World, link: nat, fee: real, i: nat)
    requires i < |w.trades|
    ensures |OnFee(w, link, fee).trades| == |w.trades| && StaysUnknown(w.trades[i], OnFee(w, link, fee).trades[i])
  {
  }

  lemma PlaceFillsNothing(w: World, id: nat, sent: OrderType, reply: Reply, lookup: Lookup)
    requires id < |w.trades| && w.trades[id].orderLink.Some?
    ensures var v := Place(w, id, sent, reply, lookup).0;
            |v.trades| == |w.trades| && v.trades[id].filledQty == w.trades[id].filledQty
  {
    hide LookupStatus;
  }

  lemma DispatchFillsNothing(cfg: Settings, w: World, id: nat, ex: Exchange)
    requires id < |w.trades| && w.trades[id].orderLink.Some?
    ensures var v := Dispatch(cfg, w, id, ex).0;
            |v.trades| == |w.trades| && v.trades[id].filledQty == w.trades[id].filledQty
  {
    hide Place;
    var c := Transition(w, id, SafetyChecked);
    var u := Put(c, id, c.trades[id].(orderType := Some(LimitOrder)));
    PlaceFillsNothing(u, id, MarketOrder, ex.first, ex.submitLookup);
    PlaceFillsNothing(u, id, LimitOrder, ex.first, ex.submitLookup);
    var m := Put(TakeLink(u), id, u.trades[id].(orderLink := Some(u.links)));
    PlaceFillsNothing(m, id, MarketOrder, ex.second, ex.submitLookup);
  }

  /** A submission adds at most one row, without a filled quantity, and of the others changes only the status of
      unknown ones. */
  lemma SubmissionFillsNothing(cfg: Settings, w: World, fingerprint: string, r: Request, ex: Exchange, i: nat)
    ensures var v := OnSubmit(cfg, w, fingerprint, r, ex);
            && |w.trades| <= |v.trades| <= |w.trades| + 1
            && (i < |w.trades| ==>
                && v.trades[i] == w.trades[i].(status := v.trades[i].status)
                && (v.trades[i].status != w.trades[i].status ==> w.trades[i].status == OrderPendingUnknown))
            && (|w.trades| <= i < |v.trades| ==> v.trades[i].filledQty == None)
  {
    hide Replayed, CreateTrade, Dispatch, Admit, Chronicled;
    var (seen, answered) := Replayed(w, fingerprint, ex.replayLookup);
    ReplayedFillsNothing(w, fingerprint, ex.replayLookup, i);
    if !answered {
      var u, signal := Renew(seen, fingerprint), |seen.signals|;
      ExecuteShape(cfg, u, signal, r, ex);
      var (a, admits) := Admit(cfg, u, signal, ex);
      if admits {
        CreationIsUnsent(a, signal, r, ex.plan);
        CreationOpens(a, signal, r, ex.plan);
        CreationFillsNothing(a, signal, r, ex.plan);
        DispatchFillsNothing(cfg, CreateTrade(a, signal, r, ex.plan), |a.trades|, ex);
      }
    }
  }

  lemma CreationFillsNothing(w: World, signal: nat, r: Request, plan: Plan)
    requires plan.Sized?
    ensures |CreateTrade(w, signal, r, plan).trades| == |w.trades| + 1
    ensures CreateTrade(w, signal, r, plan).trades[|w.trades|].filledQty == None
  {
  }

  lemma ReplayedFillsNothing(w: World, fingerprint: string, lookup: Lookup, i: nat)
    ensures var seen := Replayed(w, fingerprint, lookup).0;
            && |seen.trades| == |w.trades|
            && (i < |w.trades| ==>
                && seen.trades[i] == w.trades[i].(status := seen.trades[i].status)
                && (seen.trades[i].status != w.trades[i].status ==> w.trades[i].status == OrderPendingUnknown))
  {
    hide TradeFor, LookupStatus;
  }

  /** Over every run a trade whose fate is unknown has no filled quantity. */
  lemma {:induction false} UnknownTradesAreUnfilled(cfg: Settings, cmds: seq<Command>, i: nat)
    requires i < |Run(cfg, GENESIS, cmds).trades|
    ensures var t := Run(cfg, GENESIS, cmds).trades[i]; t.status == OrderPendingUnknown ==> t.filledQty == None
  {
    hide Apply;
    if cmds != [] {
      var w, cmd := Run(cfg, GENESIS, cmds[..|cmds| - 1]), cmds[|cmds| - 1];
      if i < |w.trades| { UnknownTradesAreUnfilled(cfg, cmds[..|cmds| - 1], i); }
      UnfilledOverStep(cfg, w, cmd, i);
    }
  }

  lemma UnfilledOverStep(cfg: Settings, w: World, cmd: Command, i: nat)
    requires i < |w.trades| && w.trades[i].status == OrderPendingUnknown ==> w.trades[i].filledQty == None
    requires i < |Apply(cfg, w, cmd).trades|
    ensures var t := Apply(cfg, w, cmd).trades[i]; t.status == OrderPendingUnknown ==> t.filledQty == None
  {
    hide OnSubmit, Touches, Settles, SafetyOnly, Chronicled;
    if cmd.Submit? {
      SubmissionFillsNothing(cfg, w, cmd.fingerprint, cmd.request, cmd.exchange, i);
    } else {
      StepKeepsLength(cfg, w, cmd);
      StepLeavesUnknown(cfg, w, cmd, i);
    }
  }

  lemma StepKeepsLength(cfg: Settings, w: World, cmd: Command)
    requires !cmd.Submit?
    ensures |Apply(cfg, w, cmd).trades| == |w.trades|
  {
    hide Apply, Chronicled, Outcome;
    var id := StepShape(cfg, w, cmd);
  }

  /** Whatever run precedes it, every trade that a submission finds confirmed by a lookup is stranded. */
  lemma LookupConfirmationsStrand(cfg: Settings, cmds: seq<Command>, fingerprint: string, r: Request, ex: Exchange, i: nat)
    ensures var w := Run(cfg, GENESIS, cmds);
            var v := OnSubmit(cfg, w, fingerprint, r, ex);
            i < |v.trades| && v.trades[i].status == OrderConfirmed && (i < |w.trades| ==> w.trades[i].status != OrderConfirmed)
            ==> Stranded(v.trades[i])
  {
    hide Run, OnSubmit;
    var w := Run(cfg, GENESIS, cmds);
    SubmissionFillsNothing(cfg, w, fingerprint, r, ex, i);
    if i < |w.trades| { UnknownTradesAreUnfilled(cfg, cmds, i); }
  }

  /** It happens: the answer to the first entry is lost and the lookup finds it filled. */
  lemma LostAnswerFoundFilledIsStranded(cfg: Settings, r: Request, ex: Exchange)
    requires !cfg.shadow && cfg.orderMode == TakerAllowed && cfg.maxOpen > 0 && cfg.maxPerDay > 0
    requires cfg.weeklyLimit > 0.0 && cfg.softLosses > 0 && cfg.hardLosses > 0
    requires ex.plan.Sized? && ex.first == NoAnswer && ex.submitLookup == Found(Filled)
    ensures var w := Run(cfg, GENESIS, [Submit("s", r, ex)]); |w.trades| == 1 && Stranded(w.trades[0])
  {
    hide Dispatch, Admit, LossOver;
    var cmds := [Submit("s", r, ex)];
    assert cmds[..0] == [];
    var n := Renew(GENESIS, "s");
    NoLossYet(n, 0, 7);
    GuardsPassExactlyWhenClear(cfg, n, 0, ex);
    FoundFilledIsConfirmed(cfg, CreateTrade(n, 0, r, ex.plan), 0, ex);
  }

  lemma FoundFilledIsConfirmed(cfg: Settings, w: World, id: nat, ex: Exchange)
    requires id < |w.trades| && w.trades[id].orderLink.Some?
    requires !cfg.shadow && cfg.orderMode == TakerAllowed && ex.first == NoAnswer && ex.submitLookup == Found(Filled)
    ensures var (v, verdict) := Dispatch(cfg, w, id, ex);
            && v.trades == w.trades[id := w.trades[id].(orderType := Some(LimitOrder), status := OrderConfirmed)]
            && verdict == Returned
  {
  }
}

/** The trade lifecycle as one transition system: trade rows, daily statistics, the safety row, submissions and
    the placements the exchange acknowledged. Each command is one transaction; replies of the exchange are
    parameters of the command. */
module Journal {
  import opened Prelude

  // ----- rows -----

  datatype Status =
    | RiskCalculated | SafetyChecked | OrderSubmitted | OrderPendingUnknown | OrderConfirmed | OrderRejected
    | OrderCancelled | OrderPartiallyFilled | PositionOpen | ClosePending | PositionClosed | CloseFailed | PnlRecorded

  datatype Direction = Long | Short

  datatype MarketType = Spot | SpotMargin | Linear

  datatype OrderType = LimitOrder | MarketOrder

  datatype ExitReason = TpHit | SlHit | Manual | KillSwitchExit

  /** The columns fixed when a row is created. */
  datatype Terms = Terms(
    signalId: nat, createdAt: int, symbol: string, direction: Direction, market: MarketType,
    equity: Option<real>, riskAmount: Option<real>, entryPrice: Option<real>, stopPrice: Option<real>,
    targetPrice: Option<real>, qty: Option<real>)

  /** The three columns written together when a trade's result is known. */
  datatype Realized = Realized(pnl: real, pct: Option<real>, inR: Option<real>)

  datatype Trade = Trade(
    terms: Terms, status: Status, orderType: Option<OrderType>,
    orderLink: Option<nat>, closeLink: Option<nat>, stopLink: Option<nat>, tpLink: Option<nat>,
    avgFill: Option<real>, filledQty: Option<real>, feePaid: Option<real>, openedAt: Option<int>,
    avgExit: Option<real>, exitReason: Option<ExitReason>, realized: Option<Realized>, closedAt: Option<int>,
    heldFor: Option<int>)

  /** `from` is None for the creation event. */
  datatype TradeEvent = TradeEvent(trade: nat, from: Option<Status>, to: Status)

  datatype SymbolStat = SymbolStat(wins: nat, losses: nat, streak: nat)

  datatype DailyStat = DailyStat(
    total: nat, wins: nat, losses: nat, streak: nat, gross: real, fees: real, net: real,
    lossPct: Option<real>, symbols: map<string, SymbolStat>, tripped: bool)

  datatype PauseReason = DailyLoss | WeeklyLoss | Cooldown | HardLossStreak

  datatype Safety = Safety(
    killed: bool, pause: Option<PauseReason>, cooldownUntil: Option<int>, manualReset: bool, triggeredAt: Option<int>)

  datatype Submission = Submission(signalId: Option<nat>, tradeId: Option<nat>)

  datatype OrderKind = EntryOrder(orderType: OrderType) | CloseOrder | StopOrder | TakeProfitOrder

  /** An order whose acceptance the exchange acknowledged. */
  datatype Placement = Placement(kind: OrderKind, trade: nat, link: nat)

  /** `signals` lists the fingerprint each signal row was created for; `links` counts the client order ids
      handed out. */
  datatype World = World(
    now: int, trades: seq<Trade>, stats: map<int, DailyStat>, safety: Safety,
    submissions: map<string, Submission>, signals: seq<string>, links: nat,
    events: seq<TradeEvent>, placed: seq<Placement>)

  datatype OrderMode = TakerAllowed | MakerOnly | MakerPreferred

  datatype Settings = Settings(
    shadow: bool, orderMode: OrderMode, hasClient: bool, maxOpen: int, maxPerDay: int,
    dailyLimit: real, weeklyLimit: real, softLosses: int, hardLosses: int, cooldownSeconds: int)

  const NO_PAUSE := Safety(false, None, None, false, None)

  const GENESIS := World(0, [], map[], NO_PAUSE, map[], [], 0, [], [])

  const NO_TRADES := DailyStat(0, 0, 0, 0, 0.0, 0.0, 0.0, None, map[], false)

  // ----- commands -----

  datatype Request = Request(symbol: string, direction: Direction, entry: real, stop: real, target: real)

  /** Sizing, reward ratio, exchange constraints, balances and exposure either refuse a request or size it. */
  datatype Plan = Refuse | Sized(equity: real, riskAmount: real, qty: real)

  /** An order placement is acknowledged, refused, unanswered, or breaks the transaction. */
  datatype Reply = Accepted | RefusedBy(postOnly: bool) | NoAnswer | Broken

  datatype Remote = Filled | Rejected | Cancelled | PartiallyFilled | Other

  datatype Lookup = Unreachable | Missing | Found(remote: Remote)

  /** `crash` loses the process after the executor's commit and before the submission learns its trade. */
  datatype Exchange = Exchange(plan: Plan, first: Reply, second: Reply, replayLookup: Lookup, submitLookup: Lookup, crash: bool)

  /** An order update, with the exchange's answers to the protective orders it may trigger. */
  datatype OrderData = OrderData(
    remote: Remote, fully: bool, avgPrice: Option<real>, cumQty: Option<real>, stopOk: bool, tpOk: bool, closeOk: bool)

  datatype Command =
    | Submit(fingerprint: string, request: Request, exchange: Exchange)
    | OrderEvent(link: nat, data: OrderData)
    | Reconcile(trade: nat, answer: Option<OrderData>)
    | ReconcileProtection(trade: nat, data: OrderData)
    | Close(trade: nat, reason: ExitReason, accepted: bool)
    | Fee(link: nat, fee: real)
    | Activate
    | Reset
    | Poll
    | Tick(seconds: nat)

  // ----- small readings -----

  function Day(t: int): int {
    t / 86400
  }

  function Today(w: World): int {
    Day(w.now)
  }

  function StatOn(w: World, d: int): DailyStat {
    if d in w.stats then w.stats[d] else NO_TRADES
  }

  function LossOn(w: World, d: int): real {
    if StatOn(w, d).lossPct.Some? then StatOn(w, d).lossPct.value else 0.0
  }

  function LossOver(w: World, d: int, days: nat): real {
    if days == 0 then 0.0 else LossOver(w, d, days - 1) + LossOn(w, d - (days - 1))
  }

  /** The source's `a or b`: an absent or zero amount gives way. */
  function Or(a: Option<real>, b: Option<real>): Option<real> {
    if a.Some? && a.value != 0.0 then a else b
  }

  function Or0(a: Option<real>): real {
    if a.Some? then a.value else 0.0
  }

  predicate Terminal(s: Status) {
    s == OrderRejected || s == OrderCancelled || s == PositionClosed || s == CloseFailed || s == PnlRecorded
  }

  predicate CloseRetryable(s: Status) {
    s == PositionOpen || s == OrderPartiallyFilled || s == CloseFailed
  }

  function RemoteStatus(r: Remote): Option<Status> {
    match r
    case Filled => Some(OrderConfirmed)
    case Rejected => Some(OrderRejected)
    case Cancelled => Some(OrderCancelled)
    case PartiallyFilled => Some(OrderPartiallyFilled)
    case Other => None
  }

  predicate HasLink(t: Trade, link: nat) {
    t.orderLink == Some(link) || t.closeLink == Some(link) || t.stopLink == Some(link) || t.tpLink == Some(link)
  }

  /** Index of the row carrying a client order id, or the number of rows. */
  function FindByLink(trades: seq<Trade>, link: nat): (i: nat)
    ensures i <= |trades|
    ensures i < |trades| ==> HasLink(trades[i], link)
    ensures i == |trades| <==> forall j :: 0 <= j < |trades| ==> !HasLink(trades[j], link)
  {
    if trades == [] then 0
    else
      var front := FindByLink(trades[..|trades| - 1], link);
      if front < |trades| - 1 then front
      else if HasLink(trades[|trades| - 1], link) then |trades| - 1
      else |trades|
  }

  // ----- store (backend/trade_journal/store.py) -----

  function Put(w: World, id: nat, t: Trade): World
    requires id < |w.trades|
  {
    w.(trades := w.trades[id := t])
  }

  function Transition(w: World, id: nat, s: Status): (v: World)
    requires id < |w.trades|
    ensures |v.trades| == |w.trades|
  {
    if w.trades[id].status == s then w
    else Put(w, id, w.trades[id].(status := s)).(events := w.events + [TradeEvent(id, Some(w.trades[id].status), s)])
  }

  function Gain(direction: Direction, entry: real, exit: real, qty: real): real {
    if direction == Long then (exit - entry) * qty else (entry - exit) * qty
  }

  function RealizedPnl(t: Trade, exit: real): real {
    Gain(t.terms.direction, Or0(Or(t.avgFill, t.terms.entryPrice)), exit, Or0(Or(t.filledQty, t.terms.qty)))
  }

  /** A ratio to an amount that may be absent or zero. */
  function PnlRatio(pnl: real, base: Option<real>): Option<real> {
    if base.Some? && base.value != 0.0 then Some(pnl / base.value) else None
  }

  function SymbolOn(stat: DailyStat, symbol: string): SymbolStat {
    if symbol in stat.symbols then stat.symbols[symbol] else SymbolStat(0, 0, 0)
  }

  function Outcome(stat: DailyStat, t: Trade, realized: Realized): DailyStat {
    var pnl, fee := realized.pnl, Or0(t.feePaid);
    var sym := SymbolOn(stat, t.terms.symbol);
    var counted := stat.(
      total := if stat.total <= stat.wins + stat.losses then stat.total + 1 else stat.total,
      gross := stat.gross + pnl, fees := stat.fees + fee, net := stat.net + (pnl - fee));
    if pnl < 0.0 then
      counted.(
        losses := stat.losses + 1, streak := stat.streak + 1,
        lossPct := if realized.pct.Some? then Some(Or0(stat.lossPct) + Abs(realized.pct.value)) else stat.lossPct,
        symbols := stat.symbols[t.terms.symbol := SymbolStat(sym.wins, sym.losses + 1, sym.streak + 1)])
    else
      counted.(
        wins := stat.wins + 1, streak := 0,
        symbols := stat.symbols[t.terms.symbol := SymbolStat(sym.wins + 1, sym.losses, 0)])
  }

  function ApplyOutcome(w: World, id: nat): World
    requires id < |w.trades| && w.trades[id].realized.Some?
  {
    var t := w.trades[id];
    var d := Day(if t.closedAt.Some? then t.closedAt.value else w.now);
    w.(stats := w.stats[d := Outcome(StatOn(w, d), t, t.realized.value)])
  }

  function SetPause(w: World, reason: PauseReason, manual: bool, until: Option<int>): World {
    w.(safety := w.safety.(pause := Some(reason), manualReset := manual, cooldownUntil := until, triggeredAt := Some(w.now)))
  }

  function ActivateKill(w: World): World {
    w.(safety := w.safety.(killed := true, triggeredAt := Some(w.now)))
  }

  function StreakDate(w: World): int {
    if w.safety.triggeredAt.Some? then Day(w.safety.triggeredAt.value) else Today(w)
  }

  function ClearStreak(w: World): World {
    var d := StreakDate(w);
    w.(stats := w.stats[d := StatOn(w, d).(streak := 0)])
  }

  predicate CooldownExpired(w: World) {
    w.safety.pause == Some(Cooldown) && w.safety.cooldownUntil.Some? && w.safety.cooldownUntil.value <= w.now
  }

  function ClearPauseIfExpired(w: World): World {
    if CooldownExpired(w) then
      var v := ClearStreak(w);
      v.(safety := v.safety.(pause := None, cooldownUntil := None, manualReset := false))
    else w
  }

  function ResetSafety(w: World): World {
    var v := if w.safety.pause == Some(Cooldown) || w.safety.pause == Some(HardLossStreak) then ClearStreak(w) else w;
    v.(safety := v.safety.(killed := false, pause := None, cooldownUntil := None, manualReset := false))
  }

  // ----- circuit breaker (backend/safety_guard/circuit_breaker.py) -----

  /** Whether the breaker lets an order through, and the pause it may have set. */
  function Check(cfg: Settings, w0: World): (World, bool) {
    var w := ClearPauseIfExpired(w0);
    var stat := StatOn(w, Today(w));
    if w.safety.pause.Some? then (w, false)
    else if stat.total >= cfg.maxPerDay then (w, false)
    else if stat.lossPct.Some? && stat.lossPct.value >= cfg.dailyLimit then
      (SetPause(w.(stats := w.stats[Today(w) := stat.(tripped := true)]), DailyLoss, true, None), false)
    else if LossOver(w, Today(w), 7) >= cfg.weeklyLimit then (SetPause(w, WeeklyLoss, true, None), false)
    else if stat.streak >= cfg.hardLosses then (SetPause(w, HardLossStreak, true, None), false)
    else if stat.streak >= cfg.softLosses then (SetPause(w, Cooldown, false, Some(w.now + cfg.cooldownSeconds)), false)
    else (w, true)
  }

  // ----- protection (backend/exchange_sync/engine.py) -----

  function TakeLink(w: World): World {
    w.(links := w.links + 1)
  }

  function AcceptOrder(w: World, kind: OrderKind, id: nat, link: nat): World {
    w.(placed := w.placed + [Placement(kind, id, link)])
  }

  predicate NeedsSpotProtection(t: Trade) {
    t.terms.market == Spot && t.orderType == Some(MarketOrder)
  }

  /** A stop that could not be armed trips the kill switch and closes the position at once. */
  function StopFailure(w: World, id: nat, closeOk: bool): (v: World)
    requires id < |w.trades|
    ensures |v.trades| == |w.trades|
  {
    var link := w.links;
    var v := TakeLink(ActivateKill(w));
    var u := Put(v, id, v.trades[id].(closeLink := Some(link), exitReason := Some(KillSwitchExit)));
    if closeOk then Transition(AcceptOrder(u, CloseOrder, id, link), id, ClosePending)
    else Transition(u, id, CloseFailed)
  }

  function ArmTakeProfit(w: World, id: nat, tpOk: bool): (v: World)
    requires id < |w.trades|
    ensures |v.trades| == |w.trades|
  {
    var t, link := w.trades[id], w.links;
    if t.terms.targetPrice == None || t.tpLink.Some? then w
    else if !tpOk then TakeLink(w)
    else AcceptOrder(Put(TakeLink(w), id, t.(tpLink := Some(link))), TakeProfitOrder, id, link)
  }

  function ArmStop(w: World, id: nat): (v: World)
    requires id < |w.trades|
    ensures |v.trades| == |w.trades|
  {
    var link := w.links;
    AcceptOrder(Put(TakeLink(w), id, w.trades[id].(stopLink := Some(link))), StopOrder, id, link)
  }

  function EnsureProtection(cfg: Settings, w: World, id: nat, data: OrderData): (r: (World, bool))
    requires id < |w.trades|
    ensures |r.0.trades| == |w.trades|
  {
    var t := w.trades[id];
    if !cfg.hasClient then (w, false)
    else if !NeedsSpotProtection(t) then (w, true)
    else if Or0(Or(t.filledQty, t.terms.qty)) == 0.0 || t.terms.stopPrice == None then (w, false)
    else if t.stopLink == None && !data.stopOk then (StopFailure(TakeLink(w), id, data.closeOk), false)
    else (ArmTakeProfit(if t.stopLink == None then ArmStop(w, id) else w, id, data.tpOk), true)
  }

  // ----- order updates (backend/exchange_sync/engine.py) -----

  predicate IgnoresEntryUpdate(t: Trade, s: Status) {
    || t.status == PositionOpen || t.status == ClosePending || t.status == PositionClosed
    || t.status == CloseFailed || t.status == PnlRecorded
    || (t.status == OrderConfirmed && s == OrderPartiallyFilled)
  }

  predicate Protective(t: Trade, link: nat) {
    t.closeLink == Some(link) || t.stopLink == Some(link) || t.tpLink == Some(link)
  }

  function ExitReasonFor(t: Trade, link: nat): ExitReason {
    if t.stopLink == Some(link) then SlHit
    else if t.tpLink == Some(link) then TpHit
    else if t.exitReason == None then Manual
    else t.exitReason.value
  }

  function WithResult(t: Trade, exit: real): (u: Trade)
    ensures u.realized.Some?
  {
    var pnl := RealizedPnl(t, exit);
    t.(realized := Some(Realized(pnl, PnlRatio(pnl, t.terms.equity), PnlRatio(pnl, t.terms.riskAmount))))
  }

  /** Closing time and, when the opening time is known, the seconds in between. */
  function ClosedAt(t: Trade, now: int): Trade {
    t.(closedAt := Some(now), heldFor := if t.openedAt.Some? then Some(now - t.openedAt.value) else t.heldFor)
  }

  function EntryFilled(cfg: Settings, w: World, id: nat, data: OrderData): (v: World)
    requires id < |w.trades|
    ensures |v.trades| == |w.trades|
  {
    var t := w.trades[id];
    var filled := Put(w, id, t.(
      avgFill := if data.avgPrice.Some? then data.avgPrice else t.avgFill,
      filledQty := if data.cumQty.Some? then data.cumQty else t.filledQty));
    var confirmed := Transition(filled, id, OrderConfirmed);
    var stamped := Put(confirmed, id, confirmed.trades[id].(openedAt := Some(w.now)));
    if !data.fully then stamped
    else
      var (v, ready) := EnsureProtection(cfg, stamped, id, data);
      if ready then Transition(v, id, PositionOpen) else v
  }

  function ProtectiveFilled(w: World, id: nat, link: nat, data: OrderData): (v: World)
    requires id < |w.trades|
    ensures |v.trades| == |w.trades|
  {
    var exit := Or0(data.avgPrice);
    var confirmed := Transition(w, id, OrderConfirmed);
    var exited := Put(confirmed, id, confirmed.trades[id].(avgExit := Some(exit)));
    var closed := Transition(exited, id, PositionClosed);
    var t := ClosedAt(closed.trades[id], w.now).(exitReason := Some(ExitReasonFor(w.trades[id], link)));
    var recorded := Transition(Put(closed, id, WithResult(t, exit)), id, PnlRecorded);
    ApplyOutcome(recorded, id)
  }

  function ApplyOrderUpdate(cfg: Settings, w: World, id: nat, link: nat, data: OrderData): (v: World)
    requires id < |w.trades|
    ensures |v.trades| == |w.trades|
  {
    var t, status := w.trades[id], RemoteStatus(data.remote);
    if status == None then w
    else if Protective(t, link) then
      if t.status == PnlRecorded then w
      else if status == Some(OrderConfirmed) then ProtectiveFilled(w, id, link, data)
      else if status == Some(OrderPartiallyFilled) then Transition(w, id, OrderPartiallyFilled)
      else Transition(Transition(w, id, status.value), id, CloseFailed)
    else if IgnoresEntryUpdate(t, status.value) then w
    else if status == Some(OrderConfirmed) then EntryFilled(cfg, w, id, data)
    else Transition(w, id, status.value)
  }

  function OnOrderEvent(cfg: Settings, w: World, link: nat, data: OrderData): World {
    var id := FindByLink(w.trades, link);
    if id == |w.trades| then w else ApplyOrderUpdate(cfg, w, id, link, data)
  }

  function TrackedLink(t: Trade): Option<nat> {
    if t.status == ClosePending then t.closeLink
    else if t.status == OrderSubmitted || t.status == OrderPendingUnknown then t.orderLink
    else None
  }

  function OnReconcile(cfg: Settings, w: World, id: nat, answer: Option<OrderData>): World {
    if id >= |w.trades| || TrackedLink(w.trades[id]) == None || answer == None then w
    else ApplyOrderUpdate(cfg, w, id, TrackedLink(w.trades[id]).value, answer.value)
  }

  predicate MissesProtection(t: Trade) {
    && NeedsSpotProtection(t)
    && (t.status == OrderConfirmed || t.status == PositionOpen)
    && Or0(t.filledQty) != 0.0
    && (t.stopLink == None || (t.terms.targetPrice.Some? && t.tpLink == None))
  }

  function OnReconcileProtection(cfg: Settings, w: World, id: nat, data: OrderData): World {
    if id < |w.trades| && cfg.hasClient && MissesProtection(w.trades[id])
    then EnsureProtection(cfg, w, id, data).0 else w
  }

  // ----- closing (backend/position_manager/service.py) -----

  function ShadowExit(t: Trade, reason: ExitReason): Option<real> {
    if reason == SlHit && t.terms.stopPrice.Some? then t.terms.stopPrice
    else if reason == TpHit && t.terms.targetPrice.Some? then t.terms.targetPrice
    else Or(t.terms.targetPrice, Or(t.terms.entryPrice, t.terms.stopPrice))
  }

  function ClosePendingFor(w: World, id: nat, reason: ExitReason): (v: World)
    requires id < |w.trades|
    ensures |v.trades| == |w.trades|
  {
    Transition(Put(TakeLink(w), id, w.trades[id].(closeLink := Some(w.links), exitReason := Some(reason))), id, ClosePending)
  }

  /** Without an exchange the position closes at once, at a price taken from the trade itself. */
  function ShadowClose(w: World, id: nat, reason: ExitReason): World
    requires id < |w.trades|
  {
    var exit := ShadowExit(w.trades[id], reason);
    var t := ClosedAt(w.trades[id], w.now).(avgExit := exit);
    ApplyOutcome(Transition(Put(w, id, WithResult(t, Or0(exit))), id, PnlRecorded), id)
  }

  function OnClose(cfg: Settings, w: World, id: nat, reason: ExitReason, accepted: bool): World {
    if id >= |w.trades| || !CloseRetryable(w.trades[id].status) then w
    else
      var pending := ClosePendingFor(w, id, reason);
      if cfg.shadow then ShadowClose(pending, id, reason)
      else if accepted then AcceptOrder(pending, CloseOrder, id, w.links)
      else w
  }

  function OnFee(w: World, link: nat, fee: real): World {
    var id := FindByLink(w.trades, link);
    if id == |w.trades| then w
    else Put(w, id, w.trades[id].(feePaid := Some(Or0(w.trades[id].feePaid) + fee)))
  }

  // ----- submission (backend/order_executor/executor.py, backend/signal_execution/service.py) -----

  function LookupStatus(r: Remote): Status {
    match RemoteStatus(r)
    case Some(s) => s
    case None => OrderPendingUnknown
  }

  function ReconcileUnknown(w: World, id: nat, lookup: Lookup): (v: World)
    requires id < |w.trades|
    ensures |v.trades| == |w.trades|
  {
    if lookup.Found? && w.trades[id].orderLink.Some? then Transition(w, id, LookupStatus(lookup.remote)) else w
  }

  function CountOpen(trades: seq<Trade>): nat {
    if trades == [] then 0
    else CountOpen(trades[..|trades| - 1]) + (if trades[|trades| - 1].status == PositionOpen then 1 else 0)
  }

  predicate InProgress(trades: seq<Trade>, signal: nat) {
    exists i :: 0 <= i < |trades| && trades[i].terms.signalId == signal && !Terminal(trades[i].status)
  }

  function NewTrade(w: World, signal: nat, r: Request, plan: Plan): (t: Trade)
    requires plan.Sized?
    ensures t.orderLink.Some?
  {
    Trade(Terms(signal, w.now, r.symbol, r.direction, Spot, Some(plan.equity), Some(plan.riskAmount),
                Some(r.entry), Some(r.stop), Some(r.target), Some(plan.qty)),
          RiskCalculated, None, Some(w.links), None, None, None, None, None, None, None, None, None, None, None, None)
  }

  /** The trade row, its creation event and the day's counter. */
  function CreateTrade(w: World, signal: nat, r: Request, plan: Plan): World
    requires plan.Sized?
  {
    var stat := StatOn(w, Today(w));
    TakeLink(w).(
      trades := w.trades + [NewTrade(w, signal, r, plan)],
      events := w.events + [TradeEvent(|w.trades|, None, RiskCalculated)],
      stats := w.stats[Today(w) := stat.(total := stat.total + 1)])
  }

  function Submitted(w: World, id: nat, orderType: OrderType): World
    requires id < |w.trades| && w.trades[id].orderLink.Some?
  {
    var v := Put(w, id, w.trades[id].(orderType := Some(orderType)));
    Transition(AcceptOrder(v, EntryOrder(orderType), id, w.trades[id].orderLink.value), id, OrderSubmitted)
  }

  /** No reply: the row keeps the order type written before the call, and one status lookup follows. */
  function Unanswered(w: World, id: nat, lookup: Lookup): World
    requires id < |w.trades|
  {
    ReconcileUnknown(Transition(w, id, OrderPendingUnknown), id, lookup)
  }

  /** How the executor leaves: with its trade, with an error after committing the trade, or with an error and
      nothing kept. */
  datatype Verdict = Returned | RaisedAfterCommit | NothingKept

  /** A single placement of the entry order. */
  function Place(w: World, id: nat, sent: OrderType, reply: Reply, lookup: Lookup): (World, Verdict)
    requires id < |w.trades| && w.trades[id].orderLink.Some?
  {
    match reply
    case Accepted => (Submitted(w, id, sent), Returned)
    case RefusedBy(_) => (Transition(w, id, OrderRejected), RaisedAfterCommit)
    case NoAnswer => (Unanswered(w, id, lookup), Returned)
    case Broken => (w, NothingKept)
  }

  function SubmitOrder(cfg: Settings, w: World, id: nat, ex: Exchange): (World, Verdict)
    requires id < |w.trades| && w.trades[id].orderLink.Some?
  {
    if cfg.orderMode == TakerAllowed then Place(w, id, MarketOrder, ex.first, ex.submitLookup)
    else if cfg.orderMode == MakerPreferred && ex.first == RefusedBy(true) then
      var link := w.links;
      Place(Put(TakeLink(w), id, w.trades[id].(orderLink := Some(link))), id, MarketOrder, ex.second, ex.submitLookup)
    else Place(w, id, LimitOrder, ex.first, ex.submitLookup)
  }

  /** The executor's guards, in order; the flag says whether a trade may be created. */
  function Admit(cfg: Settings, w: World, signal: nat, ex: Exchange): (r: (World, bool))
    ensures r.1 ==> ex.plan.Sized?
  {
    var w1 := ClearPauseIfExpired(w);
    if w1.safety.killed then (w1, false)
    else
      var (w2, passes) := Check(cfg, w1);
      (w2, passes && !InProgress(w2.trades, signal) && ex.plan.Sized? && CountOpen(w2.trades) < cfg.maxOpen)
  }

  /** What becomes of a trade just created: a logged shadow order, or a submission to the exchange. */
  function Dispatch(cfg: Settings, w: World, id: nat, ex: Exchange): (World, Verdict)
    requires id < |w.trades| && w.trades[id].orderLink.Some?
  {
    if cfg.shadow then (Transition(w, id, OrderSubmitted), Returned)
    else
      var checked := Transition(w, id, SafetyChecked);
      SubmitOrder(cfg, Put(checked, id, checked.trades[id].(orderType := Some(LimitOrder))), id, ex)
  }

  function ExecuteOrder(cfg: Settings, w: World, signal: nat, r: Request, ex: Exchange): (World, Verdict) {
    var (admitted, admits) := Admit(cfg, w, signal, ex);
    if !admits then (admitted, NothingKept)
    else
      var (sent, verdict) := Dispatch(cfg, CreateTrade(admitted, signal, r, ex.plan), |admitted.trades|, ex);
      (if verdict == NothingKept then admitted else sent, verdict)
  }

  /** Latest trade of a signal, or the number of rows. */
  function TradeOfSignal(trades: seq<Trade>, signal: nat): (i: nat)
    ensures i <= |trades|
    ensures i < |trades| ==> trades[i].terms.signalId == signal
    ensures i == |trades| <==> forall j :: 0 <= j < |trades| ==> trades[j].terms.signalId != signal
  {
    if trades == [] then 0
    else if trades[|trades| - 1].terms.signalId == signal then |trades| - 1
    else
      var i := TradeOfSignal(trades[..|trades| - 1], signal);
      if i < |trades| - 1 then i else |trades|
  }

  /** The trade a submission stands for: by trade id, and otherwise by its signal. */
  function TradeFor(w: World, s: Submission): (i: nat)
    ensures i <= |w.trades|
  {
    if s.tradeId.Some? && s.tradeId.value < |w.trades| then s.tradeId.value
    else if s.signalId == None then |w.trades|
    else TradeOfSignal(w.trades, s.signalId.value)
  }

  /** The trade a repeated request is answered with, after a status lookup when its fate is unknown. */
  function Replayed(w: World, fingerprint: string, lookup: Lookup): (World, bool) {
    if fingerprint !in w.submissions then (w, false)
    else
      var id := TradeFor(w, w.submissions[fingerprint]);
      if id == |w.trades| || Terminal(w.trades[id].status) then (w, false)
      else if w.trades[id].status == OrderPendingUnknown then
        var v := ReconcileUnknown(w, id, lookup);
        (v, !Terminal(v.trades[id].status))
      else (w, true)
  }

  /** The submission moves on to a new signal row. */
  function Renew(w: World, fingerprint: string): World {
    w.(signals := w.signals + [fingerprint],
       submissions := w.submissions[fingerprint := Submission(Some(|w.signals|), None)])
  }

  function OnSubmit(cfg: Settings, w: World, fingerprint: string, r: Request, ex: Exchange): World {
    var (seen, answered) := Replayed(w, fingerprint, ex.replayLookup);
    if answered then seen
    else
      var signal := |seen.signals|;
      var (done, verdict) := ExecuteOrder(cfg, Renew(seen, fingerprint), signal, r, ex);
      if verdict == Returned && !ex.crash then
        done.(submissions := done.submissions[fingerprint := Submission(Some(signal), Some(|seen.trades|))])
      else done
  }

  // ----- kill switch (backend/safety_guard/kill_switch.py) -----

  function OnActivate(w: World): World {
    var v := ClearPauseIfExpired(w);
    if v.safety.killed then v else ActivateKill(v)
  }

  function Apply(cfg: Settings, w: World, cmd: Command): World {
    match cmd
    case Submit(fingerprint, request, exchange) => OnSubmit(cfg, w, fingerprint, request, exchange)
    case OrderEvent(link, data) => OnOrderEvent(cfg, w, link, data)
    case Reconcile(trade, answer) => OnReconcile(cfg, w, trade, answer)
    case ReconcileProtection(trade, data) => OnReconcileProtection(cfg, w, trade, data)
    case Close(trade, reason, accepted) => OnClose(cfg, w, trade, reason, accepted)
    case Fee(link, fee) => OnFee(w, link, fee)
    case Activate => OnActivate(w)
    case Reset => ResetSafety(w)
    case Poll => ClearPauseIfExpired(w)
    case Tick(seconds) => w.(now := w.now + seconds)
  }

  function Run(cfg: Settings, w: World, cmds: seq<Command>): World {
    if cmds == [] then w else Apply(cfg, Run(cfg, w, cmds[..|cmds| - 1]), cmds[|cmds| - 1])
  }
}

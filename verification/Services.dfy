/** The services of the live system, written as they update the database: every method is tied to the transition
    it makes on the whole stored state. */
module Services {
  import opened Prelude
  import opened Journal

  /** The database session: one field per table, the clock, the id generator, and what the exchange acknowledged. */
  class TradeJournalStore {
    var now: int
    var trades: seq<Trade>
    var stats: map<int, DailyStat>
    var safety: Safety
    var submissions: map<string, Submission>
    var signals: seq<string>
    var links: nat
    var events: seq<TradeEvent>
    var placed: seq<Placement>

    function View(): World
      reads this
    {
      World(now, trades, stats, safety, submissions, signals, links, events, placed)
    }

    constructor ()
      ensures View() == GENESIS
    {
      now, trades, stats, safety := 0, [], map[], NO_PAUSE;
      submissions, signals, links, events, placed := map[], [], 0, [], [];
    }

    /** The session's rollback to what was last committed. */
    method Rollback(committed: World)
      modifies this
      ensures View() == committed
    {
      now, trades, stats, safety := committed.now, committed.trades, committed.stats, committed.safety;
      submissions, signals, links := committed.submissions, committed.signals, committed.links;
      events, placed := committed.events, committed.placed;
    }

    method TransitionTradeStatus(id: nat, newStatus: Status) returns (changed: bool)
      requires id < |trades|
      modifies this`trades, this`events
      ensures View() == Transition(old(View()), id, newStatus)
      ensures changed <==> old(trades[id].status) != newStatus
    {
      var previous := trades[id].status;
      if previous == newStatus { return false; }
      trades := trades[id := trades[id].(status := newStatus)];
      events := events + [TradeEvent(id, Some(previous), newStatus)];
      return true;
    }

    method ApplyTradeOutcomeAnalytics(id: nat)
      requires id < |trades| && trades[id].realized.Some?
      modifies this`stats
      ensures View() == ApplyOutcome(old(View()), id)
    {
      hide Outcome;
      var trade := trades[id];
      var date := Day(if trade.closedAt.Some? then trade.closedAt.value else now);
      var stat := BookResult(StatOn(View(), date), trade, trade.realized.value);
      stats := stats[date := stat];
    }

    /** One result on a daily row, column by column. */
    static method BookResult(before: DailyStat, trade: Trade, realized: Realized) returns (stat: DailyStat)
      ensures stat == Outcome(before, trade, realized)
    {
      stat := before;
      var pnl, fee := realized.pnl, Or0(trade.feePaid);
      if stat.total <= stat.wins + stat.losses {
        stat := stat.(total := stat.total + 1);
      }
      stat := stat.(gross := stat.gross + pnl);
      stat := stat.(fees := stat.fees + fee);
      stat := stat.(net := stat.net + (pnl - fee));
      if pnl < 0.0 {
        stat := stat.(losses := stat.losses + 1, streak := stat.streak + 1);
        if realized.pct.Some? {
          stat := stat.(lossPct := Some(Or0(stat.lossPct) + Abs(realized.pct.value)));
        }
        stat := UpdateSymbolStats(trade.terms.symbol, stat, false);
      } else {
        stat := stat.(wins := stat.wins + 1, streak := 0);
        stat := UpdateSymbolStats(trade.terms.symbol, stat, true);
      }
    }

    static method UpdateSymbolStats(symbol: string, stat: DailyStat, isWin: bool) returns (updated: DailyStat)
      ensures var before := SymbolOn(stat, symbol);
              var after := if isWin then SymbolStat(before.wins + 1, before.losses, 0)
                           else SymbolStat(before.wins, before.losses + 1, before.streak + 1);
              updated == stat.(symbols := stat.symbols[symbol := after])
    {
      var row := SymbolOn(stat, symbol);
      if isWin {
        row := row.(wins := row.wins + 1, streak := 0);
      } else {
        row := row.(losses := row.losses + 1, streak := row.streak + 1);
      }
      updated := stat.(symbols := stat.symbols[symbol := row]);
    }

    /** The writes that end every closing: the result, the status, the day's statistics. */
    method RecordResult(id: nat, trade: Trade, exit: real)
      requires id < |trades|
      modifies this
      ensures View() == ApplyOutcome(Transition(Put(old(View()), id, WithResult(trade, exit)), id, PnlRecorded), id)
    {
      hide ApplyOutcome, RealizedPnl, PnlRatio;
      var pnl := RealizedPnl(trade, exit);
      var result := Realized(pnl, PnlRatio(pnl, trade.terms.equity), PnlRatio(pnl, trade.terms.riskAmount));
      trades := trades[id := trade.(realized := Some(result))];
      var _ := TransitionTradeStatus(id, PnlRecorded);
      ApplyTradeOutcomeAnalytics(id);
    }

    method ActivateKillSwitch()
      modifies this`safety
      ensures View() == ActivateKill(old(View()))
    {
      safety := safety.(killed := true);
      safety := safety.(triggeredAt := Some(now));
    }

    method PauseTrading(reason: PauseReason, manual: bool, until: Option<int>)
      modifies this`safety
      ensures View() == SetPause(old(View()), reason, manual, until)
    {
      safety := safety.(pause := Some(reason));
      safety := safety.(manualReset := manual);
      safety := safety.(cooldownUntil := until);
      safety := safety.(triggeredAt := Some(now));
    }

    method ResetConsecutiveLosses(date: int)
      modifies this`stats
      ensures stats == old(stats)[date := StatOn(old(View()), date).(streak := 0)]
    {
      stats := stats[date := StatOn(View(), date).(streak := 0)];
    }

    method ClearPauseWhenExpired()
      modifies this`stats, this`safety
      ensures View() == ClearPauseIfExpired(old(View()))
    {
      if safety.pause == Some(Cooldown) && safety.cooldownUntil.Some? && safety.cooldownUntil.value <= now {
        ResetConsecutiveLosses(StreakDate(View()));
        safety := safety.(pause := None, cooldownUntil := None, manualReset := false);
      }
    }

    method ResetSafetyState(resetConsecutiveLosses: bool)
      modifies this`stats, this`safety
      ensures safety == old(safety).(killed := false, pause := None, cooldownUntil := None, manualReset := false)
      ensures stats == if resetConsecutiveLosses then old(ClearStreak(View()).stats) else old(stats)
    {
      if resetConsecutiveLosses { ResetConsecutiveLosses(StreakDate(View())); }
      safety := safety.(killed := false);
      safety := safety.(pause := None, cooldownUntil := None, manualReset := false);
    }

    method IncrementDailyTradeCount()
      modifies this`stats
      ensures stats == old(stats)[Day(now) := StatOn(old(View()), Day(now)).(total := StatOn(old(View()), Day(now)).total + 1)]
    {
      var stat := StatOn(View(), Day(now));
      stats := stats[Day(now) := stat.(total := stat.total + 1)];
    }

    method AddExecutionFee(link: nat, fee: real) returns (found: bool)
      modifies this`trades
      ensures View() == OnFee(old(View()), link, fee)
      ensures found <==> exists t :: t in old(trades) && HasLink(t, link)
    {
      var id := FindByLink(trades, link);
      if id == |trades| { return false; }
      assert trades[id] in trades;
      trades := trades[id := trades[id].(feePaid := Some(Or0(trades[id].feePaid) + fee))];
      return true;
    }

    /** A fresh client order id. */
    method GenerateOrderLinkId() returns (link: nat)
      modifies this`links
      ensures link == old(links) && links == old(links) + 1
    {
      link := links;
      links := links + 1;
    }
  }

  class CircuitBreaker {
    const store: TradeJournalStore

    constructor (store: TradeJournalStore)
      ensures this.store == store
    {
      this.store := store;
    }

    /** Passes only when no pause, cap or limit stands; otherwise it may set the pause it found due. */
    method CheckLimits(cfg: Settings) returns (passes: bool)
      modifies store
      ensures (store.View(), passes) == Check(cfg, old(store.View()))
    {
      store.ClearPauseWhenExpired();
      var today := Day(store.now);
      var stat := StatOn(store.View(), today);
      if store.safety.pause.Some? { return false; }
      if stat.total >= cfg.maxPerDay { return false; }
      if stat.lossPct.Some? && stat.lossPct.value >= cfg.dailyLimit {
        store.stats := store.stats[today := stat.(tripped := true)];
        store.PauseTrading(DailyLoss, true, None);
        return false;
      }
      if LossOver(store.View(), today, 7) >= cfg.weeklyLimit {
        store.PauseTrading(WeeklyLoss, true, None);
        return false;
      }
      if stat.streak >= cfg.hardLosses {
        store.PauseTrading(HardLossStreak, true, None);
        return false;
      }
      if stat.streak >= cfg.softLosses {
        store.PauseTrading(Cooldown, false, Some(store.now + cfg.cooldownSeconds));
        return false;
      }
      return true;
    }
  }

  class KillSwitch {
    const store: TradeJournalStore

    constructor (store: TradeJournalStore)
      ensures this.store == store
    {
      this.store := store;
    }

    method IsActive() returns (active: bool)
      modifies store
      ensures store.View() == ClearPauseIfExpired(old(store.View())) && active == store.safety.killed
    {
      store.ClearPauseWhenExpired();
      active := store.safety.killed;
    }

    method ActivateSwitch()
      modifies store
      ensures store.View() == OnActivate(old(store.View()))
    {
      var active := IsActive();
      if !active { store.ActivateKillSwitch(); }
    }

    method ResetSwitch()
      modifies store
      ensures store.View() == ResetSafety(old(store.View()))
    {
      store.ResetSafetyState(store.safety.pause == Some(Cooldown) || store.safety.pause == Some(HardLossStreak));
    }
  }

  /** One single-row step per answer, row by row. */
  function Sweep(answers: seq<OrderData>): (steps: seq<Command>)
    ensures |steps| == |answers| && forall i :: 0 <= i < |answers| ==> steps[i] == ReconcileProtection(i, answers[i])
  {
    seq(|answers|, i requires 0 <= i < |answers| => ReconcileProtection(i, answers[i]))
  }

  lemma SweepStep(cfg: Settings, w: World, answers: seq<OrderData>, id: nat)
    requires id < |answers|
    ensures Run(cfg, w, Sweep(answers)[..id + 1]) ==
            OnReconcileProtection(cfg, Run(cfg, w, Sweep(answers)[..id]), id, answers[id])
  {
    hide OnReconcileProtection;
    assert Sweep(answers)[..id + 1][..id] == Sweep(answers)[..id];
  }

  class ExchangeSyncEngine {
    const store: TradeJournalStore
    const cfg: Settings

    constructor (store: TradeJournalStore, cfg: Settings)
      ensures this.store == store && this.cfg == cfg
    {
      this.store := store;
      this.cfg := cfg;
    }

    /** Kill switch, then an emergency market close. */
    method HandleStopLossSubmissionFailure(id: nat, closeOk: bool)
      requires id < |store.trades|
      modifies store
      ensures store.View() == StopFailure(old(store.View()), id, closeOk)
    {
      store.ActivateKillSwitch();
      var link := store.GenerateOrderLinkId();
      store.trades := store.trades[id := store.trades[id].(closeLink := Some(link), exitReason := Some(KillSwitchExit))];
      if closeOk {
        store.placed := store.placed + [Placement(CloseOrder, id, link)];
        var _ := store.TransitionTradeStatus(id, ClosePending);
      } else {
        var _ := store.TransitionTradeStatus(id, CloseFailed);
      }
    }

    method EnsureSpotMarketProtection(id: nat, data: OrderData) returns (ready: bool)
      requires id < |store.trades|
      modifies store
      ensures (store.View(), ready) == EnsureProtection(cfg, old(store.View()), id, data)
    {
      hide StopFailure;
      if !cfg.hasClient { return false; }
      var trade := store.trades[id];
      if trade.terms.market != Spot || trade.orderType != Some(MarketOrder) { return true; }
      if Or0(Or(trade.filledQty, trade.terms.qty)) == 0.0 || trade.terms.stopPrice == None { return false; }
      if trade.stopLink == None {
        var link := store.GenerateOrderLinkId();
        if !data.stopOk {
          HandleStopLossSubmissionFailure(id, data.closeOk);
          return false;
        }
        store.placed := store.placed + [Placement(StopOrder, id, link)];
        store.trades := store.trades[id := trade.(stopLink := Some(link))];
      }
      if trade.terms.targetPrice.Some? && trade.tpLink == None {
        var link := store.GenerateOrderLinkId();
        if !data.tpOk { return true; }
        store.placed := store.placed + [Placement(TakeProfitOrder, id, link)];
        store.trades := store.trades[id := store.trades[id].(tpLink := Some(link))];
      }
      return true;
    }

    method ConfirmEntry(id: nat, data: OrderData)
      requires id < |store.trades|
      modifies store
      ensures store.View() == EntryFilled(cfg, old(store.View()), id, data)
    {
      var trade := store.trades[id];
      if data.avgPrice.Some? { trade := trade.(avgFill := data.avgPrice); }
      if data.cumQty.Some? { trade := trade.(filledQty := data.cumQty); }
      store.trades := store.trades[id := trade];
      var _ := store.TransitionTradeStatus(id, OrderConfirmed);
      store.trades := store.trades[id := store.trades[id].(openedAt := Some(store.now))];
      if data.fully {
        var ready := EnsureSpotMarketProtection(id, data);
        if ready { var _ := store.TransitionTradeStatus(id, PositionOpen); }
      }
    }

    method ConfirmExit(id: nat, link: nat, data: OrderData)
      requires id < |store.trades|
      modifies store
      ensures store.View() == ProtectiveFilled(old(store.View()), id, link, data)
    {
      hide ApplyOutcome, WithResult, Transition, ClosedAt;
      var entered := store.trades[id];
      var _ := store.TransitionTradeStatus(id, OrderConfirmed);
      var exit := Or0(data.avgPrice);
      store.trades := store.trades[id := store.trades[id].(avgExit := Some(exit))];
      var _ := store.TransitionTradeStatus(id, PositionClosed);
      var reason := entered.exitReason;
      if entered.stopLink == Some(link) {
        reason := Some(SlHit);
      } else if entered.tpLink == Some(link) {
        reason := Some(TpHit);
      } else if reason == None {
        reason := Some(Manual);
      }
      var trade := ClosedAt(store.trades[id], store.now).(exitReason := reason);
      store.RecordResult(id, trade, exit);
    }

    method ApplyUpdate(id: nat, link: nat, data: OrderData)
      requires id < |store.trades|
      modifies store
      ensures store.View() == ApplyOrderUpdate(cfg, old(store.View()), id, link, data)
    {
      var status := RemoteStatus(data.remote);
      if status == None { return; }
      var trade := store.trades[id];
      var protective := trade.closeLink == Some(link) || trade.stopLink == Some(link) || trade.tpLink == Some(link);
      if !protective && IgnoresEntryUpdate(trade, status.value) { return; }
      if protective && trade.status == PnlRecorded { return; }
      if status == Some(OrderConfirmed) && !protective {
        ConfirmEntry(id, data);
      } else if protective && status == Some(OrderConfirmed) {
        ConfirmExit(id, link, data);
      } else if protective && (status == Some(OrderRejected) || status == Some(OrderCancelled)) {
        var _ := store.TransitionTradeStatus(id, status.value);
        var _ := store.TransitionTradeStatus(id, CloseFailed);
      } else {
        var _ := store.TransitionTradeStatus(id, status.value);
      }
    }

    method ProcessOrder(link: nat, data: OrderData)
      modifies store
      ensures store.View() == OnOrderEvent(cfg, old(store.View()), link, data)
    {
      var id := FindByLink(store.trades, link);
      if id < |store.trades| { ApplyUpdate(id, link, data); }
    }

    method ReconcileTrade(id: nat, answer: Option<OrderData>)
      modifies store
      ensures store.View() == OnReconcile(cfg, old(store.View()), id, answer)
    {
      if id < |store.trades| {
        var tracked := TrackedLink(store.trades[id]);
        if tracked.Some? && answer.Some? { ApplyUpdate(id, tracked.value, answer.value); }
      }
    }

    /** One row of the sweep. */
    method ProtectTrade(id: nat, data: OrderData)
      modifies store
      ensures store.View() == OnReconcileProtection(cfg, old(store.View()), id, data)
    {
      if cfg.hasClient && id < |store.trades| && MissesProtection(store.trades[id]) {
        var _ := EnsureSpotMarketProtection(id, data);
      }
    }

    /** The sweep over all rows, with the exchange's answers row by row: it is the run of its single steps. */
    method ReconcileMissingProtectionOrders(answers: seq<OrderData>)
      modifies store
      ensures store.View() == Run(cfg, old(store.View()), Sweep(answers))
    {
      ghost var before := store.View();
      assert Sweep(answers)[..0] == [];
      for id := 0 to |answers|
        invariant store.View() == Run(cfg, before, Sweep(answers)[..id])
      {
        ProtectTrade(id, answers[id]);
        SweepStep(cfg, before, answers, id);
      }
      assert Sweep(answers)[..|answers|] == Sweep(answers);
    }
  }

  class PositionManagerService {
    const store: TradeJournalStore
    const cfg: Settings

    constructor (store: TradeJournalStore, cfg: Settings)
      ensures this.store == store && this.cfg == cfg
    {
      this.store := store;
      this.cfg := cfg;
    }

    method PrepareClose(id: nat, reason: ExitReason) returns (link: nat)
      requires id < |store.trades|
      modifies store
      ensures store.View() == ClosePendingFor(old(store.View()), id, reason)
      ensures link == old(store.links)
    {
      link := store.GenerateOrderLinkId();
      store.trades := store.trades[id := store.trades[id].(closeLink := Some(link), exitReason := Some(reason))];
      var _ := store.TransitionTradeStatus(id, ClosePending);
    }

    /** Fails, leaving nothing behind, when the trade is not open or the exchange does not take the close order. */
    method CloseTrade(id: nat, reason: ExitReason, accepted: bool) returns (closed: bool)
      modifies store
      ensures store.View() == OnClose(cfg, old(store.View()), id, reason, accepted)
      ensures closed <==> id < |old(store.trades)| && CloseRetryable(old(store.trades)[id].status) && (cfg.shadow || accepted)
    {
      hide ApplyOutcome, WithResult, ShadowExit, Transition, ClosePendingFor, ClosedAt;
      var committed := store.View();
      if id >= |store.trades| || !CloseRetryable(store.trades[id].status) { return false; }
      var link := PrepareClose(id, reason);
      if cfg.shadow {
        var exit := ShadowExit(store.trades[id], reason);
        var trade := ClosedAt(store.trades[id], store.now).(avgExit := exit);
        store.RecordResult(id, trade, Or0(exit));
        return true;
      }
      if !accepted {
        store.Rollback(committed);
        return false;
      }
      store.placed := store.placed + [Placement(CloseOrder, id, link)];
      return true;
    }
  }

  class OrderExecutor {
    const store: TradeJournalStore
    const cfg: Settings

    constructor (store: TradeJournalStore, cfg: Settings)
      ensures this.store == store && this.cfg == cfg
    {
      this.store := store;
      this.cfg := cfg;
    }

    method ReconcilePendingUnknown(id: nat, lookup: Lookup)
      requires id < |store.trades|
      modifies store
      ensures store.View() == ReconcileUnknown(old(store.View()), id, lookup)
    {
      if store.trades[id].orderLink == None || !lookup.Found? { return; }
      var _ := store.TransitionTradeStatus(id, LookupStatus(lookup.remote));
    }

    method PlaceOrder(id: nat, sent: OrderType, reply: Reply, lookup: Lookup) returns (verdict: Verdict)
      requires id < |store.trades| && store.trades[id].orderLink.Some?
      modifies store
      ensures (store.View(), verdict) == Place(old(store.View()), id, sent, reply, lookup)
    {
      match reply
      case Accepted =>
        store.placed := store.placed + [Placement(EntryOrder(sent), id, store.trades[id].orderLink.value)];
        store.trades := store.trades[id := store.trades[id].(orderType := Some(sent))];
        var _ := store.TransitionTradeStatus(id, OrderSubmitted);
        verdict := Returned;
      case RefusedBy(_) =>
        var _ := store.TransitionTradeStatus(id, OrderRejected);
        verdict := RaisedAfterCommit;
      case NoAnswer =>
        var _ := store.TransitionTradeStatus(id, OrderPendingUnknown);
        ReconcilePendingUnknown(id, lookup);
        verdict := Returned;
      case Broken =>
        verdict := NothingKept;
    }

    method SubmitEntry(id: nat, ex: Exchange) returns (verdict: Verdict)
      requires id < |store.trades| && store.trades[id].orderLink.Some?
      modifies store
      ensures (store.View(), verdict) == SubmitOrder(cfg, old(store.View()), id, ex)
    {
      if cfg.orderMode == TakerAllowed {
        verdict := PlaceOrder(id, MarketOrder, ex.first, ex.submitLookup);
      } else if cfg.orderMode == MakerPreferred && ex.first == RefusedBy(true) {
        var link := store.GenerateOrderLinkId();
        store.trades := store.trades[id := store.trades[id].(orderLink := Some(link))];
        verdict := PlaceOrder(id, MarketOrder, ex.second, ex.submitLookup);
      } else {
        verdict := PlaceOrder(id, LimitOrder, ex.first, ex.submitLookup);
      }
    }

    method RecordTradeCreated(signal: nat, r: Request, plan: Plan) returns (id: nat)
      requires plan.Sized?
      modifies store
      ensures store.View() == CreateTrade(old(store.View()), signal, r, plan)
      ensures id == |old(store.trades)|
    {
      id := |store.trades|;
      var trade := NewTrade(store.View(), signal, r, plan);
      var _ := store.GenerateOrderLinkId();
      store.trades := store.trades + [trade];
      store.events := store.events + [TradeEvent(id, None, RiskCalculated)];
      store.IncrementDailyTradeCount();
    }

    /** The guards, the new row, and its submission; a broken submission rolls back to what the guards committed. */
    method Execute(signal: nat, r: Request, ex: Exchange) returns (verdict: Verdict)
      modifies store
      ensures (store.View(), verdict) == ExecuteOrder(cfg, old(store.View()), signal, r, ex)
    {
      hide Check, ClearPauseIfExpired, InProgress, CountOpen, SubmitOrder, NewTrade;
      var killSwitch := new KillSwitch(store);
      var active := killSwitch.IsActive();
      if active { return NothingKept; }
      var breaker := new CircuitBreaker(store);
      var passes := breaker.CheckLimits(cfg);
      if !passes { return NothingKept; }
      if InProgress(store.trades, signal) { return NothingKept; }
      if ex.plan.Refuse? || CountOpen(store.trades) >= cfg.maxOpen { return NothingKept; }
      var committed := store.View();
      var id := RecordTradeCreated(signal, r, ex.plan);
      if cfg.shadow {
        var _ := store.TransitionTradeStatus(id, OrderSubmitted);
        return Returned;
      }
      var _ := store.TransitionTradeStatus(id, SafetyChecked);
      store.trades := store.trades[id := store.trades[id].(orderType := Some(LimitOrder))];
      verdict := SubmitEntry(id, ex);
      if verdict == NothingKept { store.Rollback(committed); }
    }
  }

  class ExecutionService {
    const store: TradeJournalStore
    const cfg: Settings

    constructor (store: TradeJournalStore, cfg: Settings)
      ensures this.store == store && this.cfg == cfg
    {
      this.store := store;
      this.cfg := cfg;
    }

    /** Answers from the trade the fingerprint already has, or runs the executor for a new signal. */
    method ExecuteSignal(fingerprint: string, r: Request, ex: Exchange) returns (replayed: bool)
      modifies store
      ensures store.View() == OnSubmit(cfg, old(store.View()), fingerprint, r, ex)
      ensures replayed == Replayed(old(store.View()), fingerprint, ex.replayLookup).1
    {
      hide ExecuteOrder, TradeFor, LookupStatus;
      var executor := new OrderExecutor(store, cfg);
      if fingerprint in store.submissions {
        var id := TradeFor(store.View(), store.submissions[fingerprint]);
        if id < |store.trades| && !Terminal(store.trades[id].status) {
          if store.trades[id].status == OrderPendingUnknown {
            executor.ReconcilePendingUnknown(id, ex.replayLookup);
          }
          if !Terminal(store.trades[id].status) { return true; }
        }
      }
      var signal, row := |store.signals|, |store.trades|;
      store.signals := store.signals + [fingerprint];
      store.submissions := store.submissions[fingerprint := Submission(Some(signal), None)];
      var verdict := executor.Execute(signal, r, ex);
      if verdict == Returned && !ex.crash {
        store.submissions := store.submissions[fingerprint := Submission(Some(signal), Some(row))];
      }
      return false;
    }
  }
}

/** When a trade may be created: daily counts, loss limits, pauses and the kill switch over every run. */
module AdmissionLaws {
  import opened Prelude
  import opened Journal
  import opened JournalRows
  import opened OutcomeLaws

  function MadeOn(d: int): Trade -> bool {
    (t: Trade) => Day(t.terms.createdAt) == d
  }

  predicate LimitHit(cfg: Settings, w: World, d: int) {
    StatOn(w, d).lossPct.Some? && StatOn(w, d).lossPct.value >= cfg.dailyLimit
  }

  /** The pause is in force at time `now`: every pause but an expired cooldown. */
  predicate Pauses(s: Safety, now: int) {
    s.pause.Some? && !(s.pause == Some(Cooldown) && s.cooldownUntil.Some? && s.cooldownUntil.value <= now)
  }

  // ----- what the guards check -----

  /** The executor's guards pass exactly when nothing blocks: kill switch, pause, the four limits, the signal,
      the plan, the open positions. */
  lemma GuardsPassExactlyWhenClear(cfg: Settings, w: World, signal: nat, ex: Exchange)
    ensures var (a, admits) := Admit(cfg, w, signal, ex);
            var today := StatOn(ClearPauseIfExpired(w), Today(w));
            && (admits <==>
                && !w.safety.killed && !Pauses(w.safety, w.now)
                && today.total < cfg.maxPerDay && !LimitHit(cfg, w, Today(w))
                && LossOver(w, Today(w), 7) < cfg.weeklyLimit
                && today.streak < cfg.hardLosses && today.streak < cfg.softLosses
                && !InProgress(w.trades, signal) && ex.plan.Sized? && CountOpen(w.trades) < cfg.maxOpen)
            && (admits ==> a == ClearPauseIfExpired(w))
  {
    hide LossOver, InProgress, CountOpen;
    var u := ClearPauseIfExpired(w);
    assert ClearPauseIfExpired(u) == u;
    ClearingKeepsLosses(w, Today(w), 7);
    assert StatOn(u, Today(w)).lossPct == StatOn(w, Today(w)).lossPct;
  }

  lemma {:induction false} ClearingKeepsLosses(w: World, d: int, days: nat)
    ensures LossOver(ClearPauseIfExpired(w), d, days) == LossOver(w, d, days)
  {
    if days > 0 {
      ClearingKeepsLosses(w, d, days - 1);
      assert StatOn(ClearPauseIfExpired(w), d - (days - 1)).lossPct == StatOn(w, d - (days - 1)).lossPct;
    }
  }

  lemma {:induction false} NoLossYet(w: World, d: int, days: nat)
    requires forall k :: StatOn(w, k).lossPct == None
    ensures LossOver(w, d, days) == 0.0
  {
    if days > 0 { NoLossYet(w, d, days - 1); }
  }

  // ----- one step -----

  /** What a step does to a day: counts and losses only grow, and no loss moves on any day but today. */
  ghost predicate Grows(w: World, v: World, d: int) {
    && w.now <= v.now
    && (d != Today(w) ==> StatOn(v, d).lossPct == StatOn(w, d).lossPct)
    && StatOn(w, d).total <= StatOn(v, d).total
    && (StatOn(w, d).lossPct.Some? ==>
        StatOn(v, d).lossPct.Some? && StatOn(w, d).lossPct.value <= StatOn(v, d).lossPct.value)
  }

  lemma RowStepGrows(w: World, v: World, id: nat, d: int)
    requires Touches(w, v, id) || Settles(w, v, id)
    ensures Grows(w, v, d) && Count(v.trades, MadeOn(d)) == Count(w.trades, MadeOn(d))
  {
    hide Count, Chronicled, RealizedPnl, PnlRatio;
    CountUpdate(w.trades, id, v.trades[id], MadeOn(d));
  }

  lemma OpeningGrows(w: World, v: World, signal: nat, d: int)
    requires Opens(w, v, signal)
    ensures Grows(w, v, d)
    ensures Count(v.trades, MadeOn(d)) == Count(w.trades, MadeOn(d)) + (if d == Today(w) then 1 else 0)
    ensures d == Today(w) ==> StatOn(v, d).total == StatOn(w, d).total + 1
  {
    hide Count, Chronicled;
    Snoc(w.trades, v.trades[|w.trades|], MadeOn(d));
  }

  /** Of all commands only a submission creates a trade, only today, and only past every guard. */
  lemma StepGrows(cfg: Settings, w: World, cmd: Command, d: int)
    ensures var v := Apply(cfg, w, cmd);
            && Grows(w, v, d)
            && (Count(v.trades, MadeOn(d)) == Count(w.trades, MadeOn(d))
                || (d == Today(w) && StatOn(w, d).total < cfg.maxPerDay && !LimitHit(cfg, w, d)
                    && Count(v.trades, MadeOn(d)) == Count(w.trades, MadeOn(d)) + 1
                    && StatOn(v, d).total == StatOn(w, d).total + 1))
  {
    hide OnSubmit, Count, Touches, Settles, MadeOn;
    if cmd.Submit? {
      SubmitGrows(cfg, w, cmd.fingerprint, cmd.request, cmd.exchange, d);
    } else {
      hide Apply;
      var id := StepShape(cfg, w, cmd);
      var v := Apply(cfg, w, cmd);
      if !OnSafety(cmd) && v != w { RowStepGrows(w, v, id, d); }
    }
  }

  lemma SubmitGrows(cfg: Settings, w: World, fingerprint: string, r: Request, ex: Exchange, d: int)
    ensures var v := OnSubmit(cfg, w, fingerprint, r, ex);
            && Grows(w, v, d)
            && (Count(v.trades, MadeOn(d)) == Count(w.trades, MadeOn(d))
                || (d == Today(w) && StatOn(w, d).total < cfg.maxPerDay && !LimitHit(cfg, w, d)
                    && Count(v.trades, MadeOn(d)) == Count(w.trades, MadeOn(d)) + 1
                    && StatOn(v, d).total == StatOn(w, d).total + 1))
  {
    hide Replayed, ExecuteOrder, Admit, Count, MadeOn, Opens, LossOver, InProgress, CountOpen;
    var (seen, answered) := Replayed(w, fingerprint, ex.replayLookup);
    ReplayedTouches(w, fingerprint, ex.replayLookup, d);
    if !answered {
      var u, signal := Renew(seen, fingerprint), |seen.signals|;
      ExecuteShape(cfg, u, signal, r, ex);
      GuardsPassExactlyWhenClear(cfg, u, signal, ex);
      var (v, verdict) := ExecuteOrder(cfg, u, signal, r, ex);
      if verdict != NothingKept { OpeningGrows(Admit(cfg, u, signal, ex).0, v, signal, d); }
    }
  }

  lemma ReplayedTouches(w: World, fingerprint: string, lookup: Lookup, d: int)
    ensures var seen := Replayed(w, fingerprint, lookup).0;
            && seen == w.(trades := seen.trades, events := seen.events) && |seen.trades| == |w.trades|
            && Count(seen.trades, MadeOn(d)) == Count(w.trades, MadeOn(d))
  {
    hide Count, TradeFor, LookupStatus;
    if fingerprint in w.submissions {
      var id := TradeFor(w, w.submissions[fingerprint]);
      if id < |w.trades| && w.trades[id].status == OrderPendingUnknown {
        CountUpdate(w.trades, id, ReconcileUnknown(w, id, lookup).trades[id], MadeOn(d));
      }
    }
  }

  // ----- main results: daily bounds -----

  /** Whatever happens, no day sees more trades created than the daily cap, and the daily counter covers them all. */
  lemma {:induction false} DailyCreationsAreBounded(cfg: Settings, cmds: seq<Command>, d: int)
    ensures var w := Run(cfg, GENESIS, cmds);
            && Count(w.trades, MadeOn(d)) <= StatOn(w, d).total
            && (Count(w.trades, MadeOn(d)) <= cfg.maxPerDay || Count(w.trades, MadeOn(d)) == 0)
  {
    hide Apply, MadeOn;
    if cmds != [] {
      DailyCreationsAreBounded(cfg, cmds[..|cmds| - 1], d);
      StepGrows(cfg, Run(cfg, GENESIS, cmds[..|cmds| - 1]), cmds[|cmds| - 1], d);
    }
  }

  /** Once a day's loss has reached the limit it stays reached, and no trade is created that day any more,
      whatever resets happen. */
  lemma {:induction false} LossLimitEndsTheDay(cfg: Settings, w: World, cmds: seq<Command>, d: int)
    requires LimitHit(cfg, w, d)
    ensures LimitHit(cfg, Run(cfg, w, cmds), d)
    ensures Count(Run(cfg, w, cmds).trades, MadeOn(d)) == Count(w.trades, MadeOn(d))
  {
    hide Apply, MadeOn, Count;
    if cmds != [] {
      LossLimitEndsTheDay(cfg, w, cmds[..|cmds| - 1], d);
      StepGrows(cfg, Run(cfg, w, cmds[..|cmds| - 1]), cmds[|cmds| - 1], d);
    }
  }

  // ----- the weekly sum -----

  /** The sum of the loss column over all daily rows dated `first` or later. */
  ghost function LossSince(stats: map<int, DailyStat>, first: int): real
    decreases |stats|
  {
    if exists d :: d in stats then
      var d :| d in stats;
      assert |stats - {d}| < |stats| by { RowTaken(stats, d); }
      LossSince(stats - {d}, first) + LossFrom(stats[d], d, first)
    else 0.0
  }

  function LossFrom(stat: DailyStat, d: int, first: int): real {
    if d >= first then Or0(stat.lossPct) else 0.0
  }

  lemma RowTaken(stats: map<int, DailyStat>, d: int)
    requires d in stats
    ensures |stats - {d}| == |stats| - 1
  {
    assert (stats - {d}).Keys == stats.Keys - {d};
    assert |stats.Keys| == |stats| && |(stats - {d}).Keys| == |stats - {d}|;
  }

  lemma {:induction false} LossSinceTake(stats: map<int, DailyStat>, first: int, d: int)
    requires d in stats
    ensures LossSince(stats, first) == LossSince(stats - {d}, first) + LossFrom(stats[d], d, first)
    decreases |stats|
  {
    var k :| k in stats && LossSince(stats, first) == LossSince(stats - {k}, first) + LossFrom(stats[k], k, first);
    if k != d {
      RowTaken(stats, k);
      RowTaken(stats, d);
      LossSinceTake(stats - {k}, first, d);
      LossSinceTake(stats - {d}, first, k);
      assert stats - {k} - {d} == stats - {d} - {k};
    }
  }

  /** Two first days give the same sum when no row tells them apart. */
  lemma {:induction false} SameLossSince(stats: map<int, DailyStat>, first: int, other: int)
    requires forall d :: d in stats ==> LossFrom(stats[d], d, first) == LossFrom(stats[d], d, other)
    ensures LossSince(stats, first) == LossSince(stats, other)
    decreases |stats|
  {
    if exists d :: d in stats {
      var d :| d in stats && LossSince(stats, first) == LossSince(stats - {d}, first) + LossFrom(stats[d], d, first);
      RowTaken(stats, d);
      LossSinceTake(stats, other, d);
      SameLossSince(stats - {d}, first, other);
    }
  }

  lemma OneDayEarlier(w: World, first: int)
    ensures LossSince(w.stats, first) == LossOn(w, first) + LossSince(w.stats, first + 1)
  {
    if first in w.stats {
      LossSinceTake(w.stats, first, first);
      LossSinceTake(w.stats, first + 1, first);
      SameLossSince(w.stats - {first}, first, first + 1);
    } else {
      SameLossSince(w.stats, first, first + 1);
    }
  }

  lemma {:induction false} WindowOfDays(w: World, d: int, days: nat)
    ensures LossSince(w.stats, d - days + 1) == LossOver(w, d, days) + LossSince(w.stats, d + 1)
  {
    if days > 0 {
      WindowOfDays(w, d, days - 1);
      OneDayEarlier(w, d - days + 1);
    }
  }

  lemma {:induction false} NothingLater(stats: map<int, DailyStat>, first: int)
    requires forall d :: d in stats ==> LossFrom(stats[d], d, first) == 0.0
    ensures LossSince(stats, first) == 0.0
    decreases |stats|
  {
    if exists d :: d in stats {
      var d :| d in stats && LossSince(stats, first) == LossSince(stats - {d}, first) + LossFrom(stats[d], d, first);
      RowTaken(stats, d);
      NothingLater(stats - {d}, first);
    }
  }

  lemma {:induction false} NoLossInTheFuture(cfg: Settings, cmds: seq<Command>, d: int)
    requires d > Today(Run(cfg, GENESIS, cmds))
    ensures StatOn(Run(cfg, GENESIS, cmds), d).lossPct == None
  {
    hide Apply, MadeOn, Count;
    if cmds != [] {
      StepGrows(cfg, Run(cfg, GENESIS, cmds[..|cmds| - 1]), cmds[|cmds| - 1], d);
      NoLossInTheFuture(cfg, cmds[..|cmds| - 1], d);
    }
  }

  /** Over every run the sum of all daily rows from six days back on, with no upper date, is the sum of the last
      seven days. */
  lemma WeeklySumIsSevenDays(cfg: Settings, cmds: seq<Command>)
    ensures var w := Run(cfg, GENESIS, cmds); LossSince(w.stats, Today(w) - 6) == LossOver(w, Today(w), 7)
  {
    hide Run;
    var w := Run(cfg, GENESIS, cmds);
    forall d | d in w.stats ensures LossFrom(w.stats[d], d, Today(w) + 1) == 0.0 {
      if d > Today(w) { NoLossInTheFuture(cfg, cmds, d); }
    }
    NothingLater(w.stats, Today(w) + 1);
    WindowOfDays(w, Today(w), 7);
  }

  // ----- main results: halts -----

  /** Kill switch and pauses over one step without a reset. */
  ghost predicate Holds(w: World, v: World) {
    && (w.safety.killed ==> v.safety.killed)
    && (Pauses(w.safety, v.now) ==> v.safety.pause == w.safety.pause && v.safety.cooldownUntil == w.safety.cooldownUntil)
    && (w.safety.killed || Pauses(w.safety, v.now) ==> |v.trades| == |w.trades|)
    && w.now <= v.now
  }

  lemma StepHolds(cfg: Settings, w: World, cmd: Command)
    requires !cmd.Reset?
    ensures Holds(w, Apply(cfg, w, cmd))
  {
    hide OnSubmit, Chronicled, ApplyOrderUpdate, OnClose, EnsureProtection, Outcome;
    if cmd.Submit? {
      SubmitHolds(cfg, w, cmd.fingerprint, cmd.request, cmd.exchange);
    } else {
      var id := StepShape(cfg, w, cmd);
    }
  }

  lemma SubmitHolds(cfg: Settings, w: World, fingerprint: string, r: Request, ex: Exchange)
    ensures Holds(w, OnSubmit(cfg, w, fingerprint, r, ex))
  {
    hide Replayed, ExecuteOrder, Admit, Chronicled, LossOver, InProgress, CountOpen;
    var (seen, answered) := Replayed(w, fingerprint, ex.replayLookup);
    ReplayedTouches(w, fingerprint, ex.replayLookup, 0);
    if !answered {
      var u, signal := Renew(seen, fingerprint), |seen.signals|;
      ExecuteShape(cfg, u, signal, r, ex);
      GuardsPassExactlyWhenClear(cfg, u, signal, ex);
      AdmitHolds(cfg, u, signal, ex);
    }
  }

  lemma AdmitHolds(cfg: Settings, w: World, signal: nat, ex: Exchange)
    ensures var a := Admit(cfg, w, signal, ex).0;
            && (w.safety.killed ==> a.safety.killed)
            && (Pauses(w.safety, w.now) ==> a.safety.pause == w.safety.pause && a.safety.cooldownUntil == w.safety.cooldownUntil)
  {
    hide LossOver, InProgress, CountOpen;
  }

  predicate NoReset(cmds: seq<Command>) {
    forall c :: c in cmds ==> !c.Reset?
  }

  /** The kill switch, a loss pause and an unexpired cooldown stay in force until a reset, and as long as they
      do no trade is created. */
  lemma {:induction false} HaltsLastUntilReset(cfg: Settings, w: World, cmds: seq<Command>)
    requires NoReset(cmds)
    ensures var v := Run(cfg, w, cmds);
            && (w.safety.killed ==> v.safety.killed)
            && (Pauses(w.safety, v.now) ==> v.safety.pause == w.safety.pause && v.safety.cooldownUntil == w.safety.cooldownUntil)
            && (w.safety.killed || Pauses(w.safety, v.now) ==> |v.trades| == |w.trades|)
            && w.now <= v.now
  {
    hide Apply;
    if cmds != [] {
      HaltsLastUntilReset(cfg, w, cmds[..|cmds| - 1]);
      StepHolds(cfg, Run(cfg, w, cmds[..|cmds| - 1]), cmds[|cmds| - 1]);
    }
  }
}

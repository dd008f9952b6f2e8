/** Repeated requests: one live trade per fingerprint, whatever is lost between the executor's commit and the
    submission's. */
module SubmissionLaws {
  import opened Prelude
  import opened Journal
  import opened JournalRows
  import opened AdmissionLaws
  import opened StopLaws
  import opened OutcomeLaws

  function FingerprintOf(w: World, i: nat): string
    requires i < |w.trades| && w.trades[i].terms.signalId < |w.signals|
  {
    w.signals[w.trades[i].terms.signalId]
  }

  /** The trade belongs to its fingerprint's latest signal. */
  predicate IsCurrent(w: World, i: nat)
    requires i < |w.trades| && w.trades[i].terms.signalId < |w.signals|
  {
    && FingerprintOf(w, i) in w.submissions
    && w.submissions[FingerprintOf(w, i)].signalId == Some(w.trades[i].terms.signalId)
  }

  /** A submission points at a signal of its own fingerprint, and its trade, when known, is that signal's. */
  ghost predicate PointsHome(w: World, f: string)
    requires f in w.submissions
  {
    var s := w.submissions[f];
    && s.signalId.Some? && s.signalId.value < |w.signals| && w.signals[s.signalId.value] == f
    && (s.tradeId.Some? ==> s.tradeId.value < |w.trades| && w.trades[s.tradeId.value].terms.signalId == s.signalId.value)
  }

  /** Every signal has at most one trade, and every fingerprint a submission pointing home. */
  ghost predicate Indexed(w: World) {
    && (forall i :: 0 <= i < |w.trades| ==> w.trades[i].terms.signalId < |w.signals|)
    && (forall i, j :: 0 <= i < j < |w.trades| ==> w.trades[i].terms.signalId != w.trades[j].terms.signalId)
    && (forall f :: f in w.submissions ==> PointsHome(w, f))
    && (forall s :: 0 <= s < |w.signals| ==> w.signals[s] in w.submissions)
  }

  /** Only a trade of the latest signal is live. */
  ghost predicate OnlyCurrentLives(w: World) {
    forall i :: 0 <= i < |w.trades| && w.trades[i].terms.signalId < |w.signals| && !Terminal(w.trades[i].status) ==> IsCurrent(w, i)
  }

  // ----- the index over one step -----

  /** Steps that keep the terms of every row keep the index. */
  predicate SameTerms(w: World, v: World) {
    && |v.trades| == |w.trades| && v.submissions == w.submissions && v.signals == w.signals
    && forall i :: 0 <= i < |w.trades| ==> v.trades[i].terms == w.trades[i].terms
  }

  lemma SameTermsStayIndexed(w: World, v: World)
    requires Indexed(w) && SameTerms(w, v)
    ensures Indexed(v)
  {
    forall f | f in v.submissions ensures PointsHome(v, f) {
      assert PointsHome(w, f);
    }
  }

  lemma StepKeepsTerms(cfg: Settings, w: World, cmd: Command)
    requires !cmd.Submit?
    ensures SameTerms(w, Apply(cfg, w, cmd))
  {
    hide Apply, Chronicled, Outcome;
    var id := StepShape(cfg, w, cmd);
  }

  lemma ReplayedKeepsTerms(w: World, fingerprint: string, lookup: Lookup)
    ensures SameTerms(w, Replayed(w, fingerprint, lookup).0)
  {
    hide TradeFor, LookupStatus;
  }

  lemma RenewStaysIndexed(w: World, fingerprint: string)
    requires Indexed(w)
    ensures Indexed(Renew(w, fingerprint))
  {
    var v := Renew(w, fingerprint);
    forall f | f in v.submissions ensures PointsHome(v, f) {
      if f != fingerprint { assert PointsHome(w, f); }
    }
  }

  lemma OpeningStaysIndexed(w: World, v: World, signal: nat)
    requires Indexed(w) && Opens(w, v, signal) && signal < |w.signals|
    requires forall i :: 0 <= i < |w.trades| ==> w.trades[i].terms.signalId != signal
    ensures Indexed(v)
  {
    hide Chronicled;
    forall f | f in v.submissions ensures PointsHome(v, f) {
      assert PointsHome(w, f);
    }
  }

  lemma SettledSubmissionStaysIndexed(w: World, fingerprint: string, signal: nat, trade: nat)
    requires Indexed(w) && signal < |w.signals| && w.signals[signal] == fingerprint
    requires trade < |w.trades| && w.trades[trade].terms.signalId == signal
    ensures Indexed(w.(submissions := w.submissions[fingerprint := Submission(Some(signal), Some(trade))]))
  {
    var v := w.(submissions := w.submissions[fingerprint := Submission(Some(signal), Some(trade))]);
    forall f | f in v.submissions ensures PointsHome(v, f) {
      if f != fingerprint { assert PointsHome(w, f); }
    }
  }

  /** What a submission that is not answered from an existing trade does to rows and index. */
  lemma ExecutedStaysIndexed(cfg: Settings, w: World, fingerprint: string, r: Request, ex: Exchange)
    requires Indexed(w)
    ensures var signal := |w.signals|;
            var (v, verdict) := ExecuteOrder(cfg, Renew(w, fingerprint), signal, r, ex);
            && Indexed(v) && |w.trades| <= |v.trades| <= |w.trades| + 1 && v.trades[..|w.trades|] == w.trades
            && (|v.trades| > |w.trades| ==> v.trades[|w.trades|].terms.signalId == signal)
            && (verdict == Returned ==> |v.trades| > |w.trades|)
            && v.signals == w.signals + [fingerprint]
            && v.submissions == w.submissions[fingerprint := Submission(Some(signal), None)]
  {
    hide Indexed, ExecuteOrder, Admit, Chronicled;
    var u, signal := Renew(w, fingerprint), |w.signals|;
    RenewStaysIndexed(w, fingerprint);
    ExecuteShape(cfg, u, signal, r, ex);
    var a := Admit(cfg, u, signal, ex).0;
    SameTermsStayIndexed(u, a);
    var (v, verdict) := ExecuteOrder(cfg, u, signal, r, ex);
    if verdict != NothingKept {
      FreshSignal(w);
      OpeningStaysIndexed(a, v, signal);
    }
  }

  lemma FreshSignal(w: World)
    requires Indexed(w)
    ensures forall i :: 0 <= i < |w.trades| ==> w.trades[i].terms.signalId != |w.signals|
  {
  }

  lemma SubmitStaysIndexed(cfg: Settings, w: World, fingerprint: string, r: Request, ex: Exchange)
    requires Indexed(w)
    ensures Indexed(OnSubmit(cfg, w, fingerprint, r, ex))
  {
    hide Indexed, Replayed, ExecuteOrder;
    var (seen, answered) := Replayed(w, fingerprint, ex.replayLookup);
    ReplayedKeepsTerms(w, fingerprint, ex.replayLookup);
    SameTermsStayIndexed(w, seen);
    if !answered {
      ExecutedStaysIndexed(cfg, seen, fingerprint, r, ex);
      var (v, verdict) := ExecuteOrder(cfg, Renew(seen, fingerprint), |seen.signals|, r, ex);
      if verdict == Returned { SettledSubmissionStaysIndexed(v, fingerprint, |seen.signals|, |seen.trades|); }
    }
  }

  lemma StepStaysIndexed(cfg: Settings, w: World, cmd: Command)
    requires Indexed(w)
    ensures Indexed(Apply(cfg, w, cmd))
  {
    hide Indexed, OnSubmit, SameTerms;
    if cmd.Submit? {
      SubmitStaysIndexed(cfg, w, cmd.fingerprint, cmd.request, cmd.exchange);
    } else {
      StepKeepsTerms(cfg, w, cmd);
      SameTermsStayIndexed(w, Apply(cfg, w, cmd));
    }
  }

  lemma {:induction false} RunsStayIndexed(cfg: Settings, cmds: seq<Command>)
    ensures Indexed(Run(cfg, GENESIS, cmds))
  {
    hide Apply;
    if cmds != [] {
      RunsStayIndexed(cfg, cmds[..|cmds| - 1]);
      StepStaysIndexed(cfg, Run(cfg, GENESIS, cmds[..|cmds| - 1]), cmds[|cmds| - 1]);
    }
  }

  // ----- the lookup finds the live trade -----

  /** Whether by trade id or, after a crash, by signal id, the lookup lands on a trade exactly when it is the
      one of the latest signal. */
  lemma LookupFindsExactlyTheCurrentTrade(w: World, i: nat)
    requires Indexed(w) && i < |w.trades|
    ensures FingerprintOf(w, i) in w.submissions
    ensures TradeFor(w, w.submissions[FingerprintOf(w, i)]) == i <==> IsCurrent(w, i)
  {
    var f := FingerprintOf(w, i);
    assert PointsHome(w, f);
  }

  /** While its trade is live and its fate known, a repeated request changes nothing, whatever the exchange
      would answer. */
  lemma RepeatIsAnswered(cfg: Settings, w: World, i: nat, r: Request, ex: Exchange)
    requires Indexed(w) && i < |w.trades| && IsCurrent(w, i)
    requires !Terminal(w.trades[i].status) && w.trades[i].status != OrderPendingUnknown
    ensures OnSubmit(cfg, w, FingerprintOf(w, i), r, ex) == w
  {
    hide ExecuteOrder, TradeFor, Indexed;
    LookupFindsExactlyTheCurrentTrade(w, i);
  }

  // ----- one live trade per fingerprint -----

  /** The trade is over and its fingerprint has moved on to a later signal. */
  predicate Superseded(w: World, i: nat) {
    i < |w.trades| && w.trades[i].terms.signalId < |w.signals| && Terminal(w.trades[i].status) && !IsCurrent(w, i)
  }

  /** An order update that brings a terminal row back to life: a partial fill of any of its orders, or a fill of
      its cancelled or rejected entry, unless that fill ends in a failed emergency close. */
  predicate UpdateRevives(cfg: Settings, t: Trade, link: nat, data: OrderData) {
    if Protective(t, link) then data.remote == PartiallyFilled && t.status != PnlRecorded
    else
      && (t.status == OrderCancelled || t.status == OrderRejected)
      && (data.remote == PartiallyFilled ||
          (data.remote == Filled && !(data.fully && RefusesStop(cfg, Reported(t, data), data) && !data.closeOk)))
  }

  /** The commands that revive a superseded trade: such an order event, or an accepted retry of a failed close. */
  predicate Revives(cfg: Settings, w: World, cmd: Command) {
    match cmd
    case OrderEvent(link, data) =>
      var id := FindByLink(w.trades, link);
      Superseded(w, id) && UpdateRevives(cfg, w.trades[id], link, data)
    case Close(trade, reason, accepted) =>
      Superseded(w, trade) && w.trades[trade].status == CloseFailed && !cfg.shadow && accepted
    case _ => false
  }

  /** No superseded trade leaves the terminal statuses in this step. */
  ghost predicate NoRevival(w: World, v: World) {
    forall i: nat :: Superseded(w, i) && i < |v.trades| ==> Terminal(v.trades[i].status)
  }

  lemma RefusalOutcome(cfg: Settings, w: World, id: nat, data: OrderData)
    requires id < |w.trades| && (w.trades[id].status == OrderConfirmed)
    ensures var (v, ready) := EnsureProtection(cfg, w, id, data);
            Terminal(v.trades[id].status) <==> RefusesStop(cfg, w.trades[id], data) && !data.closeOk
    ensures var (v, ready) := EnsureProtection(cfg, w, id, data);
            ready ==> !Terminal(v.trades[id].status)
  {
  }

  lemma EntryFillOutcome(cfg: Settings, w: World, id: nat, data: OrderData)
    requires id < |w.trades|
    ensures Terminal(EntryFilled(cfg, w, id, data).trades[id].status) <==>
            data.fully && RefusesStop(cfg, Reported(w.trades[id], data), data) && !data.closeOk
  {
    hide EnsureProtection;
    var filled := Put(w, id, Reported(w.trades[id], data));
    var confirmed := Transition(filled, id, OrderConfirmed);
    var stamped := Put(confirmed, id, confirmed.trades[id].(openedAt := Some(w.now)));
    RefusalOutcome(cfg, stamped, id, data);
  }

  lemma EntryUpdateOutcome(cfg: Settings, w: World, id: nat, link: nat, data: OrderData)
    requires id < |w.trades| && Terminal(w.trades[id].status) && !Protective(w.trades[id], link)
    ensures Terminal(ApplyOrderUpdate(cfg, w, id, link, data).trades[id].status) <==> !UpdateRevives(cfg, w.trades[id], link, data)
  {
    hide EntryFilled, ProtectiveFilled, RefusesStop, Reported, Protective;
    EntryFillOutcome(cfg, w, id, data);
  }

  lemma ProtectiveUpdateOutcome(cfg: Settings, w: World, id: nat, link: nat, data: OrderData)
    requires id < |w.trades| && Terminal(w.trades[id].status) && Protective(w.trades[id], link)
    ensures Terminal(ApplyOrderUpdate(cfg, w, id, link, data).trades[id].status) <==> !UpdateRevives(cfg, w.trades[id], link, data)
  {
    hide EntryFilled, ProtectiveFilled, RefusesStop, Reported, Protective, Chronicled, Outcome, WithResult;
    if w.trades[id].status != PnlRecorded { ProtectiveFilledSettles(w, id, link, data); }
  }

  /** An order update leaves a terminal row terminal exactly when it is not one of the reviving ones. */
  lemma UpdateOutcome(cfg: Settings, w: World, id: nat, link: nat, data: OrderData)
    requires id < |w.trades| && Terminal(w.trades[id].status)
    ensures Terminal(ApplyOrderUpdate(cfg, w, id, link, data).trades[id].status) <==> !UpdateRevives(cfg, w.trades[id], link, data)
  {
    hide ApplyOrderUpdate, UpdateRevives, Protective;
    if Protective(w.trades[id], link) { ProtectiveUpdateOutcome(cfg, w, id, link, data); }
    else { EntryUpdateOutcome(cfg, w, id, link, data); }
  }

  lemma CloseOutcome(cfg: Settings, w: World, id: nat, reason: ExitReason, accepted: bool)
    requires id < |w.trades| && Terminal(w.trades[id].status)
    ensures Terminal(OnClose(cfg, w, id, reason, accepted).trades[id].status) <==>
            !(w.trades[id].status == CloseFailed && !cfg.shadow && accepted)
  {
    hide ShadowClose;
    if CloseRetryable(w.trades[id].status) { ShadowCloseSettles(w, id, reason); }
  }
  lemma EventRevival(cfg: Settings, w: World, link: nat, data: OrderData)
    ensures NoRevival(w, OnOrderEvent(cfg, w, link, data)) <==> !Revives(cfg, w, OrderEvent(link, data))
  {
    hide ApplyOrderUpdate, UpdateRevives, IsCurrent, Touches, Settles;
    var id := FindByLink(w.trades, link);
    if id < |w.trades| {
      var v := ApplyOrderUpdate(cfg, w, id, link, data);
      OrderUpdateStep(cfg, w, id, link, data);
      forall i: nat | Superseded(w, i) && i != id ensures Terminal(v.trades[i].status) {
        OtherRowsStay(w, v, id, i);
      }
      if Superseded(w, id) { UpdateOutcome(cfg, w, id, link, data); }
    }
  }

  lemma CloseRevival(cfg: Settings, w: World, id: nat, reason: ExitReason, accepted: bool)
    ensures NoRevival(w, OnClose(cfg, w, id, reason, accepted)) <==> !Revives(cfg, w, Close(id, reason, accepted))
  {
    hide OnClose, IsCurrent, Touches, Settles;
    var v := OnClose(cfg, w, id, reason, accepted);
    CloseStep(cfg, w, id, reason, accepted);
    CloseKeepsLength(cfg, w, id, reason, accepted);
    forall i: nat | Superseded(w, i) && i != id ensures Terminal(v.trades[i].status) {
      OtherRowsStay(w, v, id, i);
    }
    if Superseded(w, id) { CloseOutcome(cfg, w, id, reason, accepted); }
  }

  lemma CloseKeepsLength(cfg: Settings, w: World, id: nat, reason: ExitReason, accepted: bool)
    ensures |OnClose(cfg, w, id, reason, accepted).trades| == |w.trades|
  {
    hide ShadowExit, WithResult, Outcome;
  }

  /** Superseded trades stay over in a step exactly when its command is none of the reviving ones. */
  lemma RevivalIsByCommand(cfg: Settings, w: World, cmd: Command)
    ensures NoRevival(w, Apply(cfg, w, cmd)) <==> !Revives(cfg, w, cmd)
  {
    hide OnSubmit, OnOrderEvent, OnClose, EnsureProtection, ApplyOrderUpdate, IsCurrent, NoRevival;
    match cmd
    case OrderEvent(link, data) => EventRevival(cfg, w, link, data);
    case Close(trade, reason, accepted) => CloseRevival(cfg, w, trade, reason, accepted);
    case _ => OtherCommandsReviveNothing(cfg, w, cmd);
  }

  lemma OtherCommandsReviveNothing(cfg: Settings, w: World, cmd: Command)
    requires !cmd.OrderEvent? && !cmd.Close?
    ensures NoRevival(w, Apply(cfg, w, cmd))
  {
    hide Apply, IsCurrent;
    forall i: nat | Superseded(w, i) && i < |Apply(cfg, w, cmd).trades| ensures Terminal(Apply(cfg, w, cmd).trades[i].status) {
      TerminalRowStays(cfg, w, cmd, i);
    }
  }

  lemma TerminalRowStays(cfg: Settings, w: World, cmd: Command, i: nat)
    requires !cmd.OrderEvent? && !cmd.Close? && i < |w.trades| && Terminal(w.trades[i].status)
    ensures i < |Apply(cfg, w, cmd).trades| && Apply(cfg, w, cmd).trades[i].status == w.trades[i].status
  {
    hide OnSubmit, EnsureProtection, ApplyOrderUpdate, Touches, Settles;
    match cmd
    case Submit(fingerprint, request, exchange) => SubmitKeepsRow(cfg, w, fingerprint, request, exchange, i);
    case Reconcile(trade, answer) =>
      if i != trade && OnReconcile(cfg, w, trade, answer) != w {
        OrderUpdateStep(cfg, w, trade, TrackedLink(w.trades[trade]).value, answer.value);
        OtherRowsStay(w, Apply(cfg, w, cmd), trade, i);
      }
    case ReconcileProtection(trade, data) =>
      if i != trade && OnReconcileProtection(cfg, w, trade, data) != w {
        EnsureProtectionTouches(cfg, w, trade, data);
        OtherRowsStay(w, Apply(cfg, w, cmd), trade, i);
      }
    case _ =>
  }

  /** A run none of whose commands revives a superseded trade. */
  ghost predicate NeverRevives(cfg: Settings, cmds: seq<Command>) {
    forall k :: 0 <= k < |cmds| ==> !Revives(cfg, Run(cfg, GENESIS, cmds[..k]), cmds[k])
  }

  lemma RowStepKeepsOnlyCurrent(cfg: Settings, w: World, cmd: Command)
    requires !cmd.Submit? && Indexed(w) && OnlyCurrentLives(w) && NoRevival(w, Apply(cfg, w, cmd))
    ensures OnlyCurrentLives(Apply(cfg, w, cmd))
  {
    hide Apply, PointsHome;
    StepKeepsTerms(cfg, w, cmd);
    var v := Apply(cfg, w, cmd);
    forall i | 0 <= i < |v.trades| && v.trades[i].terms.signalId < |v.signals| && !Terminal(v.trades[i].status)
      ensures IsCurrent(v, i) {
      assert !Superseded(w, i);
      assert IsCurrent(w, i);
    }
  }

  lemma ReplayedKeepsOnlyCurrent(w: World, fingerprint: string, lookup: Lookup)
    requires Indexed(w) && OnlyCurrentLives(w)
    ensures OnlyCurrentLives(Replayed(w, fingerprint, lookup).0)
  {
    hide TradeFor, LookupStatus, PointsHome;
    var v := Replayed(w, fingerprint, lookup).0;
    ReplayedKeepsTerms(w, fingerprint, lookup);
    forall i | 0 <= i < |v.trades| && v.trades[i].terms.signalId < |v.signals| && !Terminal(v.trades[i].status)
      ensures IsCurrent(v, i) {
      assert IsCurrent(w, i);
    }
  }

  /** A request not answered from a trade finds every trade of its fingerprint terminal. */
  lemma UnansweredMeansAllTerminal(w: World, fingerprint: string, lookup: Lookup, i: nat)
    requires Indexed(w) && OnlyCurrentLives(w) && !Replayed(w, fingerprint, lookup).1
    requires i < |w.trades| && FingerprintOf(w, i) == fingerprint
    ensures var seen := Replayed(w, fingerprint, lookup).0; i < |seen.trades| && Terminal(seen.trades[i].status)
  {
    hide PointsHome, LookupStatus;
    if !Terminal(w.trades[i].status) { LookupFindsExactlyTheCurrentTrade(w, i); }
  }

  lemma SubmitKeepsOnlyCurrent(cfg: Settings, w: World, fingerprint: string, r: Request, ex: Exchange)
    requires Indexed(w) && OnlyCurrentLives(w)
    ensures OnlyCurrentLives(OnSubmit(cfg, w, fingerprint, r, ex))
  {
    hide Replayed, ExecuteOrder, PointsHome;
    var (seen, answered) := Replayed(w, fingerprint, ex.replayLookup);
    ReplayedKeepsTerms(w, fingerprint, ex.replayLookup);
    ReplayedKeepsOnlyCurrent(w, fingerprint, ex.replayLookup);
    if !answered {
      SameTermsStayIndexed(w, seen);
      ExecutedStaysIndexed(cfg, seen, fingerprint, r, ex);
      var u := ExecuteOrder(cfg, Renew(seen, fingerprint), |seen.signals|, r, ex).0;
      var v := OnSubmit(cfg, w, fingerprint, r, ex);
      forall i | 0 <= i < |v.trades| && v.trades[i].terms.signalId < |v.signals| && !Terminal(v.trades[i].status)
        ensures IsCurrent(v, i) {
        if i < |seen.trades| {
          assert u.trades[i] == u.trades[..|seen.trades|][i];
          assert IsCurrent(seen, i);
          if FingerprintOf(w, i) == fingerprint { UnansweredMeansAllTerminal(w, fingerprint, ex.replayLookup, i); }
        }
      }
    }
  }

  lemma {:induction false} OnlyCurrentTradesLive(cfg: Settings, cmds: seq<Command>)
    requires NeverRevives(cfg, cmds)
    ensures OnlyCurrentLives(Run(cfg, GENESIS, cmds))
  {
    if cmds != [] {
      hide Apply, OnlyCurrentLives, NoRevival, Revives;
      var n := |cmds| - 1;
      var w, cmd := Run(cfg, GENESIS, cmds[..n]), cmds[n];
      assert forall k :: 0 <= k < n ==> cmds[..n][..k] == cmds[..k];
      RevivalIsByCommand(cfg, w, cmd);
      OnlyCurrentTradesLive(cfg, cmds[..n]);
      RunsStayIndexed(cfg, cmds[..n]);
      if cmd.Submit? {
        SubmitKeepsOnlyCurrent(cfg, w, cmd.fingerprint, cmd.request, cmd.exchange);
        assert Apply(cfg, w, cmd) == OnSubmit(cfg, w, cmd.fingerprint, cmd.request, cmd.exchange) by { ApplySubmit(cfg, w, cmd); }
      } else {
        RowStepKeepsOnlyCurrent(cfg, w, cmd);
      }
    }
  }

  lemma ApplySubmit(cfg: Settings, w: World, cmd: Command)
    requires cmd.Submit?
    ensures Apply(cfg, w, cmd) == OnSubmit(cfg, w, cmd.fingerprint, cmd.request, cmd.exchange)
  {
  }

  /** In every run without a reviving command, crashes included, a fingerprint has at most one live trade. */
  lemma OneLiveTradePerFingerprint(cfg: Settings, cmds: seq<Command>, i: nat, j: nat)
    requires NeverRevives(cfg, cmds)
    requires var w := Run(cfg, GENESIS, cmds);
             && i < |w.trades| && j < |w.trades|
             && w.trades[i].terms.signalId < |w.signals| && w.trades[j].terms.signalId < |w.signals|
             && FingerprintOf(w, i) == FingerprintOf(w, j)
             && !Terminal(w.trades[i].status) && !Terminal(w.trades[j].status)
    ensures i == j
  {
    hide Run, NeverRevives, PointsHome;
    OnlyCurrentTradesLive(cfg, cmds);
    RunsStayIndexed(cfg, cmds);
    var w := Run(cfg, GENESIS, cmds);
    assert IsCurrent(w, i) && IsCurrent(w, j);
  }

  // ----- the condition is needed -----

  /** The lookup no longer leads to a revived trade: after a reviving command it is live beside whatever its
      fingerprint's submission points at, and the next request that creates a trade creates it beside the live
      one. */
  lemma RevivalLetsASecondIn(cfg: Settings, w: World, cmd: Command, r: Request, ex: Exchange) returns (i: nat)
    requires Indexed(w) && Revives(cfg, w, cmd)
    ensures var v := Apply(cfg, w, cmd);
            && i < |v.trades| && v.trades[i].terms.signalId < |v.signals|
            && !Terminal(v.trades[i].status) && !IsCurrent(v, i)
            && FingerprintOf(v, i) in v.submissions && TradeFor(v, v.submissions[FingerprintOf(v, i)]) != i
            && var x := OnSubmit(cfg, v, FingerprintOf(v, i), r, ex);
               |x.trades| > |v.trades| ==>
                 && x.trades[i] == v.trades[i]
                 && x.trades[i].terms.signalId < |x.signals| && x.trades[|v.trades|].terms.signalId < |x.signals|
                 && FingerprintOf(x, i) == FingerprintOf(x, |v.trades|)
  {
    hide Apply, OnSubmit, PointsHome, UpdateRevives, TradeFor;
    RevivalIsByCommand(cfg, w, cmd);
    StepKeepsTerms(cfg, w, cmd);
    var v := Apply(cfg, w, cmd);
    var k: nat :| Superseded(w, k) && k < |v.trades| && !Terminal(v.trades[k].status);
    i := k;
    StepLeavesUnknown(cfg, w, cmd, i);
    SameTermsStayIndexed(w, v);
    LookupFindsExactlyTheCurrentTrade(v, i);
    SubmitKeepsRow(cfg, v, FingerprintOf(v, i), r, ex, i);
    SecondIsOfTheFingerprint(cfg, v, FingerprintOf(v, i), r, ex);
  }

  lemma SecondIsOfTheFingerprint(cfg: Settings, w: World, fingerprint: string, r: Request, ex: Exchange)
    requires Indexed(w)
    ensures var x := OnSubmit(cfg, w, fingerprint, r, ex);
            && w.signals <= x.signals
            && (|x.trades| > |w.trades| ==>
                x.trades[|w.trades|].terms.signalId < |x.signals| && FingerprintOf(x, |w.trades|) == fingerprint)
  {
    hide Indexed, Replayed, ExecuteOrder;
    var (seen, answered) := Replayed(w, fingerprint, ex.replayLookup);
    ReplayedKeepsTerms(w, fingerprint, ex.replayLookup);
    SameTermsStayIndexed(w, seen);
    if !answered { ExecutedStaysIndexed(cfg, seen, fingerprint, r, ex); }
  }

  lemma AcceptedDispatch(cfg: Settings, w: World, id: nat, ex: Exchange)
    requires id < |w.trades| && w.trades[id].orderLink.Some?
    requires !cfg.shadow && cfg.orderMode == MakerOnly && ex.first == Accepted
    ensures var (v, verdict) := Dispatch(cfg, w, id, ex);
            && v.trades == w.trades[id := w.trades[id].(orderType := Some(LimitOrder), status := OrderSubmitted)]
            && v.links == w.links && v.safety == w.safety && verdict == Returned
  {
  }

  /** A request that passes the guards and is acknowledged adds one submitted row carrying the next client order
      id. */
  lemma AcceptedSubmission(cfg: Settings, w: World, fingerprint: string, r: Request, ex: Exchange)
    requires !cfg.shadow && cfg.orderMode == MakerOnly && ex.first == Accepted && !ex.crash
    requires Replayed(w, fingerprint, ex.replayLookup) == (w, false) && w.safety.pause == None
    requires Admit(cfg, Renew(w, fingerprint), |w.signals|, ex).1
    ensures var v := OnSubmit(cfg, w, fingerprint, r, ex);
            && |v.trades| == |w.trades| + 1 && v.trades == w.trades + [v.trades[|w.trades|]]
            && v.trades[|w.trades|] ==
               NewTrade(w, |w.signals|, r, ex.plan).(orderType := Some(LimitOrder), status := OrderSubmitted)
            && v.links == w.links + 1 && v.signals == w.signals + [fingerprint] && v.now == w.now && v.safety == w.safety
            && v.stats == w.stats[Today(w) := StatOn(w, Today(w)).(total := StatOn(w, Today(w)).total + 1)]
            && v.submissions == w.submissions[fingerprint := Submission(Some(|w.signals|), Some(|w.trades|))]
  {
    hide Replayed, Dispatch, Admit, LossOver, InProgress, CountOpen;
    var u, signal := Renew(w, fingerprint), |w.signals|;
    GuardsPassExactlyWhenClear(cfg, u, signal, ex);
    var c := CreateTrade(u, signal, r, ex.plan);
    AcceptedDispatch(cfg, c, |u.trades|, ex);
    DispatchTouches(cfg, c, |u.trades|, ex);
  }

  /** Neither a cancelled nor a merely submitted entry ignores an event saying it was cancelled or partially
      filled. */
  lemma EntryEventApplies(cfg: Settings, w: World, id: nat, link: nat, data: OrderData)
    requires id < |w.trades| && !Protective(w.trades[id], link)
    requires w.trades[id].status == OrderSubmitted || w.trades[id].status == OrderCancelled
    requires data.remote == Cancelled || data.remote == PartiallyFilled
    ensures ApplyOrderUpdate(cfg, w, id, link, data) == Transition(w, id, RemoteStatus(data.remote).value)
  {
  }

  predicate Trading(cfg: Settings, ex: Exchange) {
    && !cfg.shadow && cfg.orderMode == MakerOnly && cfg.maxOpen > 0 && cfg.maxPerDay > 1 && cfg.dailyLimit > 0.0
    && cfg.weeklyLimit > 0.0 && cfg.softLosses > 0 && cfg.hardLosses > 0
    && ex.plan.Sized? && ex.first == Accepted && !ex.crash
  }

  /** The world after the first submission and its cancellation. */
  lemma SubmittedThenCancelled(cfg: Settings, request: Request, ex: Exchange, cancel: OrderData) returns (w: World)
    requires Trading(cfg, ex) && cancel.remote == Cancelled
    ensures w == Run(cfg, GENESIS, [Submit("s", request, ex), OrderEvent(0, cancel)])
    ensures w.trades == [NewTrade(GENESIS, 0, request, ex.plan).(orderType := Some(LimitOrder), status := OrderCancelled)]
    ensures w.links == 1 && w.signals == ["s"] && w.now == 0 && w.safety == NO_PAUSE
    ensures w.stats == map[0 := NO_TRADES.(total := 1)] && w.submissions == map["s" := Submission(Some(0), Some(0))]
  {
    hide Admit, LossOver, OnSubmit, ApplyOrderUpdate;
    var cmds := [Submit("s", request, ex), OrderEvent(0, cancel)];
    assert cmds[..1] == [cmds[0]] && cmds[..1][..0] == [];
    var n := Renew(GENESIS, "s");
    NoLossYet(n, 0, 7);
    GuardsPassExactlyWhenClear(cfg, n, 0, ex);
    AcceptedSubmission(cfg, GENESIS, "s", request, ex);
    var w1 := OnSubmit(cfg, GENESIS, "s", request, ex);
    assert Run(cfg, GENESIS, cmds[..1]) == w1;
    assert FindByLink(w1.trades, 0) == 0;
    EntryEventApplies(cfg, w1, 0, 0, cancel);
    w := Transition(w1, 0, OrderCancelled);
  }

  /** The same request again: its first trade is cancelled, so a second row is created, and the first id still
      leads to row 0. */
  lemma SubmittedAgain(cfg: Settings, w: World, request: Request, ex: Exchange)
    requires Trading(cfg, ex)
    requires w.trades == [NewTrade(GENESIS, 0, request, ex.plan).(orderType := Some(LimitOrder), status := OrderCancelled)]
    requires w.links == 1 && w.signals == ["s"] && w.now == 0 && w.safety == NO_PAUSE
    requires w.stats == map[0 := NO_TRADES.(total := 1)] && w.submissions == map["s" := Submission(Some(0), Some(0))]
    ensures var v := OnSubmit(cfg, w, "s", request, ex);
            && |v.trades| == 2 && v.trades[0] == w.trades[0] && v.signals == ["s", "s"]
            && v.trades[1].status == OrderSubmitted && v.trades[1].terms.signalId == 1
            && FindByLink(v.trades, 0) == 0
  {
    hide Admit, LossOver, OnSubmit;
    var n := Renew(w, "s");
    NoLossYet(n, 0, 7);
    GuardsPassExactlyWhenClear(cfg, n, 1, ex);
    AcceptedSubmission(cfg, w, "s", request, ex);
  }

  /** Cancelled, submitted again, then a late partial fill of the first order: two live trades for one fingerprint. */
  lemma LateFillDoublesUp(cfg: Settings, request: Request, ex: Exchange, cancel: OrderData, late: OrderData)
    requires Trading(cfg, ex) && cancel.remote == Cancelled && late.remote == PartiallyFilled
    ensures var w := Run(cfg, GENESIS, [Submit("s", request, ex), OrderEvent(0, cancel), Submit("s", request, ex), OrderEvent(0, late)]);
            && |w.trades| == 2 && w.trades[0].terms.signalId < |w.signals| && w.trades[1].terms.signalId < |w.signals|
            && FingerprintOf(w, 0) == FingerprintOf(w, 1)
            && !Terminal(w.trades[0].status) && !Terminal(w.trades[1].status)
  {
    hide Admit, LossOver, OnSubmit, ApplyOrderUpdate;
    var cmds := [Submit("s", request, ex), OrderEvent(0, cancel), Submit("s", request, ex), OrderEvent(0, late)];
    assert cmds[..3][..2] == [cmds[0], cmds[1]] && cmds[..3] == cmds[..2] + [cmds[2]];
    var w2 := SubmittedThenCancelled(cfg, request, ex, cancel);
    SubmittedAgain(cfg, w2, request, ex);
    var w3 := OnSubmit(cfg, w2, "s", request, ex);
    assert Run(cfg, GENESIS, cmds[..3]) == w3;
    EntryEventApplies(cfg, w3, 0, 0, late);
  }
}

/** The simulator reads the whole future to price an exit, yet no decision of a replay depends on candles after
    its step. */
module NoLookAhead {
  import opened Prelude
  import opened Market
  import opened Simulation
  import opened SimulationLaws
  import opened Replay
  import opened ReplayHistory
  import opened ReplayLaws
  import opened SimulatedReplay

  /** Two histories share their first n candles, and neither ends there unless they are the same history. */
  ghost predicate SharedPast(a: seq<Candle>, b: seq<Candle>, n: int) {
    && 0 <= n <= |a| && n <= |b|
    && a[..n] == b[..n]
    && (a == b || (n < |a| && n < |b|))
  }

  /** Two records show the same market, signal and decision; an outcome already known before candle n is the
      same too. */
  ghost predicate SeenAlike(r: StepRecord<SimResult>, s: StepRecord<SimResult>, n: int) {
    && r.step == s.step && r.snapshot == s.snapshot && r.signal == s.signal
    && (r.execution.Some? <==> s.execution.Some?)
    && (r.execution.Some? && r.step + 1 < n ==> OutcomeAlike(r.execution.value, s.execution.value, n))
  }

  ghost predicate OutcomeAlike(r: SimResult, s: SimResult, n: int) {
    r == s || (!r.skipped && !s.skipped && r.closedAtStep >= n && s.closedAtStep >= n)
  }

  // ----- portfolios that differ only beyond step n -----

  ghost predicate Twins(p: Portfolio, q: Portfolio, n: int) {
    && p.open.Keys == q.open.Keys
    && p.cooldownUntil == q.cooldownUntil
    && p.dailyTrades == q.dailyTrades
    && p.losses == q.losses && p.halted == q.halted && p.date == q.date
    && (forall k :: k < n ==> (k in p.due <==> k in q.due))
    && (forall k :: k < n && k in p.due ==> p.due[k] == q.due[k])
  }

  lemma TwinsDecideAlike(p: Portfolio, q: Portfolio, n: int, symbol: string, t: int, d: Date, lim: Limits)
    requires Twins(p, q, n)
    ensures CanExecute(p, symbol, t, d, lim) == CanExecute(q, symbol, t, d, lim)
  {
    assert |p.open| == |p.open.Keys| == |q.open.Keys| == |q.open|;
  }

  lemma TwinsReleaseAlike(p: Portfolio, q: Portfolio, n: int, c: Closure, lim: Limits)
    requires Twins(p, q, n)
    ensures Twins(Release(p, c, lim), Release(q, c, lim), n)
  {
    var p1, q1 := Release(p, c, lim), Release(q, c, lim);
    assert p1.open.Keys == p.open.Keys - {c.symbol};
    assert q1.open.Keys == q.open.Keys - {c.symbol};
  }

  lemma TwinsCountAlike(p: Portfolio, q: Portfolio, n: int, netPnl: Option<real>, lim: Limits)
    requires Twins(p, q, n)
    ensures Twins(CountResult(p, netPnl, lim), CountResult(q, netPnl, lim), n)
  {
  }

  lemma TwinsCloseAlike(p: Portfolio, q: Portfolio, n: int, c: Closure, lim: Limits)
    requires Twins(p, q, n)
    ensures Twins(RecordClosed(p, c, lim), RecordClosed(q, c, lim), n)
  {
    hide Twins, Release, CountResult;
    TwinsReleaseAlike(p, q, n, c, lim);
    TwinsCountAlike(Release(p, c, lim), Release(q, c, lim), n, c.netPnl, lim);
  }

  lemma {:induction false} TwinsBookAlike(p: Portfolio, q: Portfolio, n: int, cs: seq<Closure>, lim: Limits)
    requires Twins(p, q, n)
    ensures Twins(RecordAll(p, cs, lim), RecordAll(q, cs, lim), n)
  {
    if cs != [] {
      TwinsBookAlike(p, q, n, cs[..|cs| - 1], lim);
      TwinsCloseAlike(RecordAll(p, cs[..|cs| - 1], lim), RecordAll(q, cs[..|cs| - 1], lim), n, cs[|cs| - 1], lim);
    }
  }

  lemma TwinsSettleAlike(p: Portfolio, q: Portfolio, a: seq<Candle>, b: seq<Candle>, n: int, t: int, lim: Limits)
    requires Twins(p, q, n) && SharedPast(a, b, n) && 0 <= t < n
    ensures DateAt(a, t) == DateAt(b, t)
    ensures Twins(Settled(p, a, t, lim), Settled(q, b, t, lim), n)
  {
    hide RecordAll;
    assert a[t] == a[..n][t] == b[..n][t] == b[t];
    var d := DateAt(a, t);
    var p1, q1 := ResetDaily(p, d), ResetDaily(q, d);
    assert Twins(p1, q1, n);
    if t in p1.due {
      var p2, q2 := p1.(due := p1.due - {t}), q1.(due := q1.due - {t});
      assert Twins(p2, q2, n);
      TwinsBookAlike(p2, q2, n, p1.due[t], lim);
    }
  }

  lemma TwinsTrackSame(p: Portfolio, q: Portfolio, n: int, s: Signal, v: ExecutionView, t: int, d: Date, lim: Limits)
    requires Twins(p, q, n)
    ensures Twins(Track(p, s, v, t, d, lim), Track(q, s, v, t, d, lim), n)
  {
    if v.executed {
      var c := ClosureOf(s, v, t, d);
      var position := OpenPosition(s.symbol, s.direction, TrackedEntryPrice(s, v), s.stop, s.target, t, c.closeStep);
      var p1, q1 := p.(open := p.open[s.symbol := position]), q.(open := q.open[s.symbol := position]);
      assert Twins(p1, q1, n);
      TwinsCloseAlike(p1, q1, n, c, lim);
    }
  }

  lemma TwinsTrackBeyond(p: Portfolio, q: Portfolio, n: int, s: Signal, v: ExecutionView, w: ExecutionView, t: int, d: Date, lim: Limits)
    requires Twins(p, q, n) && v.executed && w.executed && t < n
    requires ResolveCloseStep(v, t) >= n && ResolveCloseStep(w, t) >= n
    ensures Twins(Track(p, s, v, t, d, lim), Track(q, s, w, t, d, lim), n)
  {
  }

  // ----- the seeded generator -----

  ghost predicate NothingDueBefore(p: Portfolio, n: int) {
    forall k :: k in p.due ==> k >= n
  }

  /** Either the generators are in step, or they are never consulted, or no entry can happen before step n. */
  ghost predicate Synced(cfg: SimConfig, lim: Limits, p: Portfolio, draws: nat, draws': nat, n: int) {
    || draws == draws'
    || !cfg.maker.DrawnMaker?
    || (lim.maxOpen <= 1 && p.open != map[] && NothingDueBefore(p, n))
  }

  lemma FrozenStaysFrozen(p: Portfolio, a: seq<Candle>, t: int, n: int, lim: Limits, symbol: string)
    requires 0 <= t < |a| && t < n && lim.maxOpen <= 1 && p.open != map[] && NothingDueBefore(p, n)
    ensures
      var q := Settled(p, a, t, lim);
      q.open == p.open && q.due == p.due && !CanExecute(q, symbol, t, DateAt(a, t), lim)
  {
    assert |p.open| > 0;
  }

  lemma DueMeansOpen(es: seq<Entry>, t: int, k: int)
    requires k > t && DueAt(es, k) != []
    ensures OpenSet(es, t) != {}
  {
    var c := DueAt(es, k)[0];
    DueAtIff(es, k, c);
    OpenSetIff(es, t, c.symbol);
  }

  /** With nothing open nothing is pending. */
  lemma IdleMeansNothingDue<R>(u: Setup<R>, candles: seq<Candle>, start: int, t: int)
    requires u.required - 1 <= start <= t < |candles|
    ensures
      var p := Settled(Run(u, candles, start, t).0.portfolio, candles, t, u.limits);
      p.open == map[] ==> p.due == map[]
  {
    hide Run, Settled, RecordAll;
    var (m, records) := Run(u, candles, start, t);
    var es := Entries(u, records);
    RunAgreesWithItsRecords(u, candles, start, t);
    NoEntriesAtStart(u, records);
    TurnAgrees(m.portfolio, es, candles, start, t, u.limits);
    var p := Settled(m.portfolio, candles, t, u.limits);
    if p.open == map[] {
      forall k
        ensures k !in p.due
      {
        if k in p.due {
          DueMeansOpen(es, t, k);
        }
      }
    }
  }

  // ----- one step, and the run -----

  lemma SnapshotsAgree(u: Setup<SimResult>, a: seq<Candle>, b: seq<Candle>, n: int, t: int)
    requires SharedPast(a, b, n) && u.required - 1 <= t < n
    ensures Snapshot(u, a, t) == Snapshot(u, b, t)
  {
    var x, y := Snapshot(u, a, t), Snapshot(u, b, t);
    forall i | 0 <= i < u.required ensures x[i] == y[i] {
      var k := t - u.required + 1 + i;
      assert x[i] == a[k] == a[..n][k] && y[i] == b[k] == b[..n][k];
    }
  }

  lemma StepsAlike(required: pos, strategy: seq<Candle> -> Option<Signal>, cfg: SimConfig, lim: Limits,
                   a: seq<Candle>, b: seq<Candle>, n: int, t: int, m: Machine, m': Machine)
    requires cfg.maxHold >= 1 && (cfg.maker.DrawnMaker? ==> lim.maxOpen <= 1)
    requires SharedPast(a, b, n) && required - 1 <= t < n
    requires Twins(m.portfolio, m'.portfolio, n) && Synced(cfg, lim, m.portfolio, m.draws, m'.draws, n)
    requires
      var p := Settled(m.portfolio, a, t, lim);
      p.open == map[] ==> p.due == map[]
    ensures
      var u := SimSetup(required, strategy, cfg, lim);
      var (ma, ra) := StepOnce(u, a, m, t);
      var (mb, rb) := StepOnce(u, b, m', t);
      && SeenAlike(ra, rb, n)
      && (t + 1 < n ==> Twins(ma.portfolio, mb.portfolio, n) && Synced(cfg, lim, ma.portfolio, ma.draws, mb.draws, n))
  {
    hide StepOnce, Settled, CanExecute, Track, Twins, Execute, SimSetup;
    SimSetupFields(required, strategy, cfg, lim);
    var u := SimSetup(required, strategy, cfg, lim);
    var p, q := Settled(m.portfolio, a, t, lim), Settled(m'.portfolio, b, t, lim);
    TwinsSettleAlike(m.portfolio, m'.portfolio, a, b, n, t, lim);
    SnapshotsAgree(u, a, b, n, t);
    var signal := strategy(Snapshot(u, a, t));
    var symbol, d := if signal.Some? then signal.value.symbol else "", DateAt(a, t);
    TwinsDecideAlike(p, q, n, symbol, t, d, lim);
    SimStepForm(required, strategy, cfg, lim, a, t, m);
    SimStepForm(required, strategy, cfg, lim, b, t, m');
    if lim.maxOpen <= 1 && m.portfolio.open != map[] && NothingDueBefore(m.portfolio, n) {
      FrozenStaysFrozen(m.portfolio, a, t, n, lim, symbol);
    } else if signal.Some? && CanExecute(p, symbol, t, d, lim) && t + 1 < n {
      EntriesAlike(cfg, lim, a, b, n, t, signal.value, d, p, q, m.draws, m'.draws);
    }
  }

  /** A simulated step in full: what it settles, decides and tracks. */
  lemma SimStepForm(required: pos, strategy: seq<Candle> -> Option<Signal>, cfg: SimConfig, lim: Limits,
                    candles: seq<Candle>, t: int, m: Machine)
    requires required - 1 <= t < |candles|
    ensures
      var u := SimSetup(required, strategy, cfg, lim);
      var window := Snapshot(u, candles, t);
      var signal := strategy(window);
      var p, d := Settled(m.portfolio, candles, t, lim), DateAt(candles, t);
      var (m', record) := StepOnce(u, candles, m, t);
      && record.step == t && record.snapshot == window && record.signal == signal
      && if signal.Some? && CanExecute(p, signal.value.symbol, t, d, lim) then
           var (r, draws) := Execute(cfg, signal.value, candles[t + 1..], t, m.draws);
           record.execution == Some(r) && m' == Machine(Track(p, signal.value, SimView(r), t, d, lim), draws)
         else
           record.execution == None && m' == Machine(p, m.draws)
  {
    hide Settled, CanExecute, Track, Execute, SimView;
  }

  lemma EntriesAlike(cfg: SimConfig, lim: Limits, a: seq<Candle>, b: seq<Candle>, n: int, t: int, s: Signal, d: Date,
                     p: Portfolio, q: Portfolio, draws: nat, draws': nat)
    requires cfg.maxHold >= 1 && (cfg.maker.DrawnMaker? ==> lim.maxOpen <= 1)
    requires SharedPast(a, b, n) && 0 <= t && t + 1 < n
    requires Twins(p, q, n) && (draws == draws' || !cfg.maker.DrawnMaker?)
    requires CanExecute(p, s.symbol, t, d, lim) && (p.open == map[] ==> p.due == map[])
    ensures
      var (r1, k1) := Execute(cfg, s, a[t + 1..], t, draws);
      var (r2, k2) := Execute(cfg, s, b[t + 1..], t, draws');
      var p1, q1 := Track(p, s, SimView(r1), t, d, lim), Track(q, s, SimView(r2), t, d, lim);
      OutcomeAlike(r1, r2, n) && Twins(p1, q1, n) && Synced(cfg, lim, p1, k1, k2, n)
  {
    hide Execute, Track, Twins;
    var m := n - 1 - t;
    var f1, f2 := a[t + 1..], b[t + 1..];
    assert AgreeOn(f1, f2, m) by {
      assert f1[..m] == a[..n][t + 1..] == b[..n][t + 1..] == f2[..m];
    }
    var (r1, k1) := Execute(cfg, s, f1, t, draws);
    var (r2, k2) := Execute(cfg, s, f2, t, draws');
    ExecutionIsCausal(cfg, s, f1, f2, t, draws, m);
    if !cfg.maker.DrawnMaker? {
      DrawsAreIrrelevant(cfg, s, f2, t, draws, draws');
    }
    if r1 == r2 && (k1 == k2 || !cfg.maker.DrawnMaker?) {
      TwinsTrackSame(p, q, n, s, SimView(r1), t, d, lim);
    } else {
      TwinsTrackBeyond(p, q, n, s, SimView(r1), SimView(r2), t, d, lim);
      TrackFreezes(cfg, lim, p, s, r1, t, d, n);
    }
  }

  lemma TrackFreezes(cfg: SimConfig, lim: Limits, p: Portfolio, s: Signal, r: SimResult, t: int, d: Date, n: int)
    requires !r.skipped && r.closedAtStep >= n > t
    requires CanExecute(p, s.symbol, t, d, lim) && (p.open == map[] ==> p.due == map[])
    ensures
      var p1 := Track(p, s, SimView(r), t, d, lim);
      lim.maxOpen <= 1 ==> p1.open != map[] && NothingDueBefore(p1, n)
  {
    if lim.maxOpen <= 1 {
      assert |p.open| == 0;
      assert p.open == map[];
      var p1 := Track(p, s, SimView(r), t, d, lim);
      assert s.symbol in p1.open;
    }
  }

  lemma {:induction false} RunsAlike(required: pos, strategy: seq<Candle> -> Option<Signal>, cfg: SimConfig, lim: Limits,
                                     a: seq<Candle>, b: seq<Candle>, start: int, n: int, t: int)
    requires cfg.maxHold >= 1 && (cfg.maker.DrawnMaker? ==> lim.maxOpen <= 1)
    requires SharedPast(a, b, n) && required - 1 <= start <= t <= n
    ensures
      var u := SimSetup(required, strategy, cfg, lim);
      var (m, records) := Run(u, a, start, t);
      var (m', records') := Run(u, b, start, t);
      && |records| == |records'| == t - start
      && (forall i :: 0 <= i < |records| ==> SeenAlike(records[i], records'[i], n))
      && (t < n ==> Twins(m.portfolio, m'.portfolio, n) && Synced(cfg, lim, m.portfolio, m.draws, m'.draws, n))
    decreases t
  {
    hide StepOnce, SeenAlike, Twins, Synced, Settled, SimSetup;
    SimSetupFields(required, strategy, cfg, lim);
    var u := SimSetup(required, strategy, cfg, lim);
    if start < t {
      RunsAlike(required, strategy, cfg, lim, a, b, start, n, t - 1);
      IdleMeansNothingDue(u, a, start, t - 1);
      var (m, before) := Run(u, a, start, t - 1);
      var (m', before') := Run(u, b, start, t - 1);
      StepsAlike(required, strategy, cfg, lim, a, b, n, t - 1, m, m');
    } else {
      assert Twins(EMPTY_PORTFOLIO, EMPTY_PORTFOLIO, n) by {
        TwinsReflexive(n);
      }
      assert Synced(cfg, lim, EMPTY_PORTFOLIO, 0, 0, n) by {
        SyncedStart(cfg, lim, n);
      }
    }
  }

  lemma TwinsReflexive(n: int)
    ensures Twins(EMPTY_PORTFOLIO, EMPTY_PORTFOLIO, n)
  {
  }

  lemma SyncedStart(cfg: SimConfig, lim: Limits, n: int)
    ensures Synced(cfg, lim, EMPTY_PORTFOLIO, 0, 0, n)
  {
  }

  /** Histories that share their first n candles get the same signal and the same decision at every step before n,
      for every strategy, however far each replay runs on. Maker fills may even be random as long as one position
      is open at a time. */
  lemma DecisionsDoNotSeeTheFuture(required: pos, strategy: seq<Candle> -> Option<Signal>, cfg: SimConfig, lim: Limits,
                                   a: seq<Candle>, b: seq<Candle>, start: int, n: int, endA: int, endB: int, t: int)
    requires cfg.maxHold >= 1 && (cfg.maker.DrawnMaker? ==> lim.maxOpen <= 1)
    requires SharedPast(a, b, n)
    requires required - 1 <= start <= t < n <= endA <= |a| && n <= endB <= |b|
    ensures
      var u := SimSetup(required, strategy, cfg, lim);
      var ra, rb := Run(u, a, start, endA).1, Run(u, b, start, endB).1;
      |ra| == endA - start && |rb| == endB - start && SeenAlike(ra[t - start], rb[t - start], n)
  {
    hide Run, SeenAlike, SimSetup;
    SimSetupFields(required, strategy, cfg, lim);
    var u := SimSetup(required, strategy, cfg, lim);
    RunsAlike(required, strategy, cfg, lim, a, b, start, n, n);
    RunPrefix(u, a, start, n, endA);
    RunPrefix(u, b, start, n, endB);
    var ra, rb := Run(u, a, start, endA).1, Run(u, b, start, endB).1;
    assert ra[t - start] == ra[..n - start][t - start];
    assert rb[t - start] == rb[..n - start][t - start];
  }
}

/** The replay machine forgets nothing and invents nothing: its state at any step is a function of the entries
    listed in the run's own records.  Everything here speaks of that list. */
module ReplayHistory {
  import opened Prelude
  import opened Market
  import opened Replay

  /** An executed record: the step it was opened at and the closure it was booked with. */
  datatype Entry = Entry(openStep: int, closure: Closure)

  /** The step whose turn books the closure: the entry step itself when the reported close is not later. */
  function Settle(e: Entry): int {
    if e.closure.closeStep <= e.openStep then e.openStep else e.closure.closeStep
  }

  function EntryOf<R>(u: Setup<R>, r: StepRecord<R>): Option<Entry> {
    if r.execution.Some? && r.signal.Some? && r.snapshot != [] && u.view(r.execution.value).executed then
      Some(Entry(r.step, ClosureOf(r.signal.value, u.view(r.execution.value), r.step,
                                   r.snapshot[|r.snapshot| - 1].openedAt.date)))
    else None
  }

  function Entries<R>(u: Setup<R>, records: seq<StepRecord<R>>): seq<Entry> {
    if records == [] then []
    else
      var e := EntryOf(u, records[|records| - 1]);
      Entries(u, records[..|records| - 1]) + (if e.Some? then [e.value] else [])
  }

  lemma EntriesSnoc<R>(u: Setup<R>, records: seq<StepRecord<R>>, r: StepRecord<R>)
    ensures Entries(u, records + [r])
         == Entries(u, records) + (if EntryOf(u, r).Some? then [EntryOf(u, r).value] else [])
  {
    assert (records + [r])[..|records|] == records;
  }

  // ----- what the list of entries says at the end of step t -----

  function OpenSet(es: seq<Entry>, t: int): set<string> {
    if es == [] then {}
    else
      var e := es[|es| - 1];
      OpenSet(es[..|es| - 1], t) + (if Settle(e) > t then {e.closure.symbol} else {})
  }

  function CountOpen(es: seq<Entry>, t: int): nat {
    if es == [] then 0
    else CountOpen(es[..|es| - 1], t) + (if Settle(es[|es| - 1]) > t then 1 else 0)
  }

  function CountSettled(es: seq<Entry>, d: Date, t: int): nat {
    if es == [] then 0
    else
      var e := es[|es| - 1];
      CountSettled(es[..|es| - 1], d, t) + (if e.closure.entryDate == d && Settle(e) <= t then 1 else 0)
  }

  /** The closures booked by the turn of step k, in order of entry. */
  function DueAt(es: seq<Entry>, k: int): seq<Closure> {
    if es == [] then []
    else
      var e := es[|es| - 1];
      DueAt(es[..|es| - 1], k) + (if Settle(e) == k then [e.closure] else [])
  }

  /** Reported close of the latest settled entry in a symbol. */
  function LastClose(es: seq<Entry>, symbol: string, t: int): Option<int> {
    if es == [] then None
    else
      var e := es[|es| - 1];
      if e.closure.symbol == symbol && Settle(e) <= t then Some(e.closure.closeStep)
      else LastClose(es[..|es| - 1], symbol, t)
  }

  function Pnls(cs: seq<Closure>): seq<Option<real>> {
    if cs == [] then [] else Pnls(cs[..|cs| - 1]) + [cs[|cs| - 1].netPnl]
  }

  /** Results booked since the day of step t began, in booking order. */
  function DayLog(candles: seq<Candle>, start: int, es: seq<Entry>, t: int): seq<Option<real>>
    requires 0 <= start && t < |candles|
    decreases t - start, 1
  {
    if t < start then [] else Carried(candles, start, es, t) + Pnls(DueAt(es, t))
  }

  /** The part of the day's log that step t inherits from the step before it. */
  function Carried(candles: seq<Candle>, start: int, es: seq<Entry>, t: int): seq<Option<real>>
    requires 0 <= start <= t < |candles|
    decreases t - start, 0
  {
    if t > start && DateAt(candles, t) == DateAt(candles, t - 1) then DayLog(candles, start, es, t - 1) else []
  }

  predicate IsLoss(pnl: Option<real>) {
    pnl.Some? && pnl.value < 0.0
  }

  /** Length of the trailing run of losses, looking through unknown and zero results. */
  function Trailing(log: seq<Option<real>>): nat {
    if log == [] then 0
    else
      var last, front := log[|log| - 1], log[..|log| - 1];
      if IsLoss(last) then 1 + Trailing(front)
      else if last.Some? && last.value > 0.0 then 0
      else Trailing(front)
  }

  /** At some point of the day a loss brought the run to the threshold. */
  ghost predicate StreakReached(log: seq<Option<real>>, threshold: int) {
    exists n :: 0 < n <= |log| && IsLoss(log[n - 1]) && Trailing(log[..n]) >= threshold
  }

  ghost predicate Ordered(es: seq<Entry>, t: int) {
    && (forall i :: 0 <= i < |es| ==> es[i].openStep <= t)
    && (forall i, j :: 0 <= i < j < |es| ==> es[i].openStep < es[j].openStep)
  }

  /** Two entries in one symbol occupy disjoint step intervals, and the later one waits out the cooldown. */
  ghost predicate Spaced(es: seq<Entry>, cooldown: int) {
    forall i, j :: 0 <= i < j < |es| && es[i].closure.symbol == es[j].closure.symbol ==>
      Settle(es[i]) <= es[j].openStep && es[i].closure.closeStep + cooldown < es[j].openStep
  }

  // ----- membership facts -----

  lemma {:induction false} OpenSetIff(es: seq<Entry>, t: int, symbol: string)
    ensures symbol in OpenSet(es, t) <==>
            exists i :: 0 <= i < |es| && es[i].closure.symbol == symbol && Settle(es[i]) > t
  {
    if es != [] {
      var front := es[..|es| - 1];
      OpenSetIff(front, t, symbol);
      if i :| 0 <= i < |front| && front[i].closure.symbol == symbol && Settle(front[i]) > t {
        assert es[i] == front[i];
      }
      if i :| 0 <= i < |es| && es[i].closure.symbol == symbol && Settle(es[i]) > t {
        assert i < |front| ==> es[i] == front[i];
      }
    }
  }

  lemma {:induction false} DueAtIff(es: seq<Entry>, k: int, c: Closure)
    ensures c in DueAt(es, k) <==> exists i :: 0 <= i < |es| && es[i].closure == c && Settle(es[i]) == k
  {
    if es != [] {
      var front := es[..|es| - 1];
      DueAtIff(front, k, c);
      if i :| 0 <= i < |front| && front[i].closure == c && Settle(front[i]) == k {
        assert es[i] == front[i];
      }
      if i :| 0 <= i < |es| && es[i].closure == c && Settle(es[i]) == k {
        assert i < |front| ==> es[i] == front[i];
      }
    }
  }

  /** Open entries are in different symbols, so counting entries and counting symbols agree. */
  lemma {:induction false} OpenSetSize(es: seq<Entry>, t: int, cooldown: int)
    requires Ordered(es, t) && Spaced(es, cooldown)
    ensures |OpenSet(es, t)| == CountOpen(es, t)
  {
    if es != [] {
      var front, e := es[..|es| - 1], es[|es| - 1];
      OpenSetSize(front, t, cooldown);
      if Settle(e) > t {
        OpenSetIff(front, t, e.closure.symbol);
        assert forall i :: 0 <= i < |front| ==> front[i] == es[i];
      }
    }
  }

  // ----- booking a batch of closures -----

  function Symbols(cs: seq<Closure>): set<string> {
    set c | c in cs :: c.symbol
  }

  function CountDate(cs: seq<Closure>, d: Date): nat {
    if cs == [] then 0
    else CountDate(cs[..|cs| - 1], d) + (if cs[|cs| - 1].entryDate == d then 1 else 0)
  }

  lemma ClosureEffect(p: Portfolio, c: Closure, lim: Limits)
    ensures
      var q := RecordClosed(p, c, lim);
      && q.open == p.open - {c.symbol}
      && q.due == p.due && q.date == p.date
      && q.dailyTrades == p.dailyTrades[c.entryDate := Get(p.dailyTrades, c.entryDate, 0) + 1]
      && q.cooldownUntil == p.cooldownUntil[c.symbol := c.closeStep + lim.cooldown]
  {
  }

  lemma {:induction false} BatchCloses(p: Portfolio, cs: seq<Closure>, lim: Limits)
    ensures
      var q := RecordAll(p, cs, lim);
      q.open == p.open - Symbols(cs) && q.due == p.due && q.date == p.date
  {
    if cs != [] {
      var front, c := cs[..|cs| - 1], cs[|cs| - 1];
      BatchCloses(p, front, lim);
      ClosureEffect(RecordAll(p, front, lim), c, lim);
      assert cs == front + [c];
      assert Symbols(cs) == Symbols(front) + {c.symbol};
      assert p.open - Symbols(cs) == p.open - Symbols(front) - {c.symbol};
    }
  }

  lemma {:induction false} BatchCounts(p: Portfolio, cs: seq<Closure>, lim: Limits, d: Date)
    ensures
      var q := RecordAll(p, cs, lim);
      && Get(q.dailyTrades, d, 0) == Get(p.dailyTrades, d, 0) + CountDate(cs, d)
      && (d in q.dailyTrades <==> d in p.dailyTrades || CountDate(cs, d) > 0)
  {
    if cs != [] {
      var front, c := cs[..|cs| - 1], cs[|cs| - 1];
      BatchCounts(p, front, lim, d);
      ClosureEffect(RecordAll(p, front, lim), c, lim);
    }
  }

  lemma {:induction false} BatchCooldowns(p: Portfolio, cs: seq<Closure>, lim: Limits, t: int, s: string)
    requires forall c :: c in cs ==> c.closeStep == t
    ensures
      var q := RecordAll(p, cs, lim);
      && (s in q.cooldownUntil <==> s in p.cooldownUntil || s in Symbols(cs))
      && (s in q.cooldownUntil ==>
          q.cooldownUntil[s] == if s in Symbols(cs) then t + lim.cooldown else p.cooldownUntil[s])
  {
    if cs != [] {
      var front, c := cs[..|cs| - 1], cs[|cs| - 1];
      BatchCooldowns(p, front, lim, t, s);
      ClosureEffect(RecordAll(p, front, lim), c, lim);
      assert cs == front + [c];
      assert Symbols(cs) == Symbols(front) + {c.symbol};
    }
  }

  ghost predicate StreakAgrees(p: Portfolio, log: seq<Option<real>>, threshold: int) {
    p.losses == Trailing(log) && (p.halted <==> StreakReached(log, threshold))
  }

  lemma StreakStep(p: Portfolio, log: seq<Option<real>>, c: Closure, lim: Limits)
    requires StreakAgrees(p, log, lim.hardPause)
    ensures StreakAgrees(RecordClosed(p, c, lim), log + [c.netPnl], lim.hardPause)
  {
    var longer := log + [c.netPnl];
    assert longer[..|log|] == log && longer[..|longer|] == longer;
    if n :| 0 < n <= |log| && IsLoss(log[n - 1]) && Trailing(log[..n]) >= lim.hardPause {
      assert longer[..n] == log[..n] && longer[n - 1] == log[n - 1];
    }
    if n :| 0 < n <= |longer| && IsLoss(longer[n - 1]) && Trailing(longer[..n]) >= lim.hardPause {
      if n <= |log| {
        assert longer[..n] == log[..n] && longer[n - 1] == log[n - 1];
      }
    }
  }

  lemma {:induction false} StreakBatch(p: Portfolio, log: seq<Option<real>>, cs: seq<Closure>, lim: Limits)
    requires StreakAgrees(p, log, lim.hardPause)
    ensures StreakAgrees(RecordAll(p, cs, lim), log + Pnls(cs), lim.hardPause)
  {
    if cs == [] {
      assert log + Pnls(cs) == log;
    } else {
      var front, c := cs[..|cs| - 1], cs[|cs| - 1];
      StreakBatch(p, log, front, lim);
      StreakStep(RecordAll(p, front, lim), log + Pnls(front), c, lim);
      assert log + Pnls(cs) == log + Pnls(front) + [c.netPnl];
    }
  }

  // ----- agreement of the machine with its history -----

  ghost predicate OpenAgrees(p: Portfolio, es: seq<Entry>, t: int) {
    && p.open.Keys == OpenSet(es, t)
    && forall i :: 0 <= i < |es| && Settle(es[i]) > t ==>
         && es[i].closure.symbol in p.open
         && p.open[es[i].closure.symbol].openedAtStep == es[i].openStep
         && p.open[es[i].closure.symbol].plannedCloseStep == Settle(es[i]) == es[i].closure.closeStep
  }

  ghost predicate DueAgrees(p: Portfolio, es: seq<Entry>, t: int) {
    && (forall k :: k in p.due <==> k > t && DueAt(es, k) != [])
    && (forall k :: k in p.due ==> p.due[k] == DueAt(es, k))
  }

  ghost predicate DailyAgrees(p: Portfolio, es: seq<Entry>, t: int) {
    && (forall d :: Get(p.dailyTrades, d, 0) == CountSettled(es, d, t))
    && (forall d :: d in p.dailyTrades <==> CountSettled(es, d, t) > 0)
  }

  ghost predicate CooldownAgrees(p: Portfolio, es: seq<Entry>, t: int, cooldown: int) {
    && (forall s :: s in p.cooldownUntil <==> LastClose(es, s, t).Some?)
    && (forall s :: s in p.cooldownUntil ==> p.cooldownUntil[s] == LastClose(es, s, t).value + cooldown)
  }

  ghost predicate Agrees(p: Portfolio, es: seq<Entry>, candles: seq<Candle>, start: int, t: int, lim: Limits)
    requires 0 <= start && t < |candles|
  {
    && Spaced(es, lim.cooldown)
    && OpenAgrees(p, es, t)
    && DueAgrees(p, es, t)
    && DailyAgrees(p, es, t)
    && CooldownAgrees(p, es, t, lim.cooldown)
    && StreakAgrees(p, DayLog(candles, start, es, t), lim.hardPause)
  }

  // ----- one turn: the day resets and the due closures are booked -----

  lemma DueSymbolsLeave(es: seq<Entry>, t: int, cooldown: int)
    requires Ordered(es, t - 1) && Spaced(es, cooldown)
    ensures OpenSet(es, t) == OpenSet(es, t - 1) - Symbols(DueAt(es, t))
    ensures forall c :: c in DueAt(es, t) ==> c.closeStep == t
  {
    forall s
      ensures s in OpenSet(es, t) <==> s in OpenSet(es, t - 1) && s !in Symbols(DueAt(es, t))
    {
      OpenSetIff(es, t, s);
      OpenSetIff(es, t - 1, s);
      if s in Symbols(DueAt(es, t)) {
        var c :| c in DueAt(es, t) && c.symbol == s;
        DueAtIff(es, t, c);
      } else if s in OpenSet(es, t - 1) {
        var i :| 0 <= i < |es| && es[i].closure.symbol == s && Settle(es[i]) > t - 1;
        DueAtIff(es, t, es[i].closure);
      }
    }
    forall c | c in DueAt(es, t)
      ensures c.closeStep == t
    {
      DueAtIff(es, t, c);
    }
  }

  lemma CountDateSnoc(cs: seq<Closure>, c: Closure, d: Date)
    ensures CountDate(cs + [c], d) == CountDate(cs, d) + (if c.entryDate == d then 1 else 0)
  {
    assert (cs + [c])[..|cs|] == cs;
  }

  lemma {:induction false} SettledCountGrows(es: seq<Entry>, d: Date, t: int)
    ensures CountSettled(es, d, t) == CountSettled(es, d, t - 1) + CountDate(DueAt(es, t), d)
  {
    if es != [] {
      var front, e := es[..|es| - 1], es[|es| - 1];
      SettledCountGrows(front, d, t);
      CountDateSnoc(DueAt(front, t), e.closure, d);
      assert DueAt(front, t) + [] == DueAt(front, t);
    }
  }

  lemma {:induction false} LastCloseMoves(es: seq<Entry>, s: string, t: int, cooldown: int)
    requires Ordered(es, t - 1) && Spaced(es, cooldown)
    ensures LastClose(es, s, t) == if s in Symbols(DueAt(es, t)) then Some(t) else LastClose(es, s, t - 1)
  {
    if es != [] {
      var front, e := es[..|es| - 1], es[|es| - 1];
      LastCloseMoves(front, s, t, cooldown);
      if e.closure.symbol == s && Settle(e) < t && s in Symbols(DueAt(es, t)) {
        var c :| c in DueAt(es, t) && c.symbol == s;
        DueAtIff(es, t, c);
        assert false;
      }
      if Settle(e) == t {
        assert Symbols(DueAt(es, t)) == Symbols(DueAt(front, t)) + {e.closure.symbol};
      }
    }
  }

  lemma TurnBooksDue(p: Portfolio, es: seq<Entry>, candles: seq<Candle>, t: int, lim: Limits)
    requires 0 <= t < |candles|
    requires DueAgrees(p, es, t - 1)
    ensures
      var p1 := ResetDaily(p, DateAt(candles, t));
      Settled(p, candles, t, lim) == RecordAll(p1.(due := p1.due - {t}), DueAt(es, t), lim)
  {
    var p1 := ResetDaily(p, DateAt(candles, t));
    assert p1.due == p.due;
    if t !in p.due {
      assert p.due - {t} == p.due;
      assert DueAt(es, t) == [];
    }
  }

  lemma TurnOpenAgrees(p: Portfolio, q: Portfolio, es: seq<Entry>, t: int, lim: Limits)
    requires Ordered(es, t - 1) && Spaced(es, lim.cooldown) && OpenAgrees(p, es, t - 1)
    requires q.open == p.open - Symbols(DueAt(es, t))
    ensures OpenAgrees(q, es, t)
  {
    DueSymbolsLeave(es, t, lim.cooldown);
    assert q.open.Keys == p.open.Keys - Symbols(DueAt(es, t));
    forall i | 0 <= i < |es| && Settle(es[i]) > t
      ensures es[i].closure.symbol in OpenSet(es, t)
    {
      OpenSetIff(es, t, es[i].closure.symbol);
    }
  }

  lemma TurnAgrees(p: Portfolio, es: seq<Entry>, candles: seq<Candle>, start: int, t: int, lim: Limits)
    requires 0 <= start <= t < |candles|
    requires Ordered(es, t - 1) && Agrees(p, es, candles, start, t - 1, lim)
    requires if t == start then p.date == None && es == [] else p.date == Some(DateAt(candles, t - 1))
    ensures Agrees(Settled(p, candles, t, lim), es, candles, start, t, lim)
    ensures Settled(p, candles, t, lim).date == Some(DateAt(candles, t))
  {
    hide Settled, RecordAll, OpenAgrees, StreakAgrees, DueAt, Symbols, CountSettled, LastClose;
    var due := DueAt(es, t);
    var p1 := ResetDaily(p, DateAt(candles, t));
    var p2 := p1.(due := p1.due - {t});
    var q := Settled(p, candles, t, lim);
    TurnBooksDue(p, es, candles, t, lim);
    BatchCloses(p2, due, lim);
    TurnOpenAgrees(p, q, es, t, lim);
    DueSymbolsLeave(es, t, lim.cooldown);
    assert DailyAgrees(q, es, t) by {
      forall d
        ensures Get(q.dailyTrades, d, 0) == CountSettled(es, d, t)
        ensures d in q.dailyTrades <==> CountSettled(es, d, t) > 0
      {
        SettledCountGrows(es, d, t);
        BatchCounts(p2, due, lim, d);
      }
    }
    assert CooldownAgrees(q, es, t, lim.cooldown) by {
      forall s
        ensures s in q.cooldownUntil <==> LastClose(es, s, t).Some?
        ensures s in q.cooldownUntil ==> q.cooldownUntil[s] == LastClose(es, s, t).value + lim.cooldown
      {
        LastCloseMoves(es, s, t, lim.cooldown);
        BatchCooldowns(p2, due, lim, t, s);
      }
    }
    TurnStreakAgrees(p, es, candles, start, t, lim);
  }

  lemma TurnStreakAgrees(p: Portfolio, es: seq<Entry>, candles: seq<Candle>, start: int, t: int, lim: Limits)
    requires 0 <= start <= t < |candles|
    requires DueAgrees(p, es, t - 1) && StreakAgrees(p, DayLog(candles, start, es, t - 1), lim.hardPause)
    requires if t == start then p.date == None && es == [] else p.date == Some(DateAt(candles, t - 1))
    ensures StreakAgrees(Settled(p, candles, t, lim), DayLog(candles, start, es, t), lim.hardPause)
  {
    var p1 := ResetDaily(p, DateAt(candles, t));
    var p2 := p1.(due := p1.due - {t});
    TurnBooksDue(p, es, candles, t, lim);
    StreakBatch(p2, Carried(candles, start, es, t), DueAt(es, t), lim);
  }

  // ----- one entry -----

  lemma EntrySnoc(es: seq<Entry>, e: Entry, t: int, d: Date, s: string)
    ensures DueAt(es + [e], t) == DueAt(es, t) + (if Settle(e) == t then [e.closure] else [])
    ensures OpenSet(es + [e], t) == OpenSet(es, t) + (if Settle(e) > t then {e.closure.symbol} else {})
    ensures CountSettled(es + [e], d, t)
         == CountSettled(es, d, t) + (if e.closure.entryDate == d && Settle(e) <= t then 1 else 0)
    ensures LastClose(es + [e], s, t)
         == (if e.closure.symbol == s && Settle(e) <= t then Some(e.closure.closeStep) else LastClose(es, s, t))
  {
    assert (es + [e])[..|es|] == es;
  }

  lemma {:induction false} EntryChangesNothingBefore(candles: seq<Candle>, start: int, es: seq<Entry>, e: Entry, t: int)
    requires 0 <= start && t < |candles| && t < Settle(e)
    ensures DayLog(candles, start, es + [e], t) == DayLog(candles, start, es, t)
    decreases t - start
  {
    if t >= start {
      EntrySnoc(es, e, t, e.closure.entryDate, e.closure.symbol);
      assert DueAt(es + [e], t) == DueAt(es, t);
      EntryChangesNothingBefore(candles, start, es, e, t - 1);
    }
  }

  lemma {:induction false} CooldownCovers(es: seq<Entry>, s: string, t: int, cooldown: int)
    requires Ordered(es, t - 1) && Spaced(es, cooldown)
    requires s !in OpenSet(es, t)
    requires LastClose(es, s, t).Some? ==> t > LastClose(es, s, t).value + cooldown
    ensures forall i :: 0 <= i < |es| && es[i].closure.symbol == s ==>
              Settle(es[i]) <= t && es[i].closure.closeStep + cooldown < t
  {
    if es != [] {
      var front, e := es[..|es| - 1], es[|es| - 1];
      assert forall i :: 0 <= i < |front| ==> front[i] == es[i];
      forall i | 0 <= i < |es| && es[i].closure.symbol == s
        ensures Settle(es[i]) <= t
      {
        OpenSetIff(es, t, s);
      }
      if e.closure.symbol != s {
        CooldownCovers(front, s, t, cooldown);
      }
    }
  }

  lemma EntryOpenAgrees(p: Portfolio, q: Portfolio, es: seq<Entry>, e: Entry, t: int)
    requires OpenAgrees(p, es, t) && e.closure.symbol !in p.open && e.openStep == t
    requires if Settle(e) == t then q.open == p.open
             else q.open.Keys == p.open.Keys + {e.closure.symbol}
                  && q.open[e.closure.symbol].openedAtStep == t
                  && q.open[e.closure.symbol].plannedCloseStep == e.closure.closeStep
                  && forall s :: s in p.open ==> q.open[s] == p.open[s]
    ensures OpenAgrees(q, es + [e], t)
  {
    EntrySnoc(es, e, t, e.closure.entryDate, e.closure.symbol);
    forall i | 0 <= i < |es| && Settle(es[i]) > t
      ensures es[i].closure.symbol != e.closure.symbol
    {
      OpenSetIff(es, t, es[i].closure.symbol);
    }
  }

  lemma EntryDueAgrees(p: Portfolio, q: Portfolio, es: seq<Entry>, e: Entry, t: int)
    requires DueAgrees(p, es, t) && Settle(e) >= t
    requires q.due == if Settle(e) == t then p.due
                      else p.due[Settle(e) := (if Settle(e) in p.due then p.due[Settle(e)] else []) + [e.closure]]
    ensures DueAgrees(q, es + [e], t)
  {
    forall k
      ensures k in q.due <==> k > t && DueAt(es + [e], k) != []
      ensures k in q.due ==> q.due[k] == DueAt(es + [e], k)
    {
      EntrySnoc(es, e, k, e.closure.entryDate, e.closure.symbol);
    }
  }

  lemma EntryCountsAgree(p: Portfolio, q: Portfolio, es: seq<Entry>, e: Entry, t: int, cooldown: int)
    requires DailyAgrees(p, es, t) && CooldownAgrees(p, es, t, cooldown)
    requires q.dailyTrades == if Settle(e) > t then p.dailyTrades
                              else p.dailyTrades[e.closure.entryDate := Get(p.dailyTrades, e.closure.entryDate, 0) + 1]
    requires q.cooldownUntil == if Settle(e) > t then p.cooldownUntil
                                else p.cooldownUntil[e.closure.symbol := e.closure.closeStep + cooldown]
    ensures DailyAgrees(q, es + [e], t) && CooldownAgrees(q, es + [e], t, cooldown)
  {
    forall d
      ensures Get(q.dailyTrades, d, 0) == CountSettled(es + [e], d, t)
      ensures d in q.dailyTrades <==> CountSettled(es + [e], d, t) > 0
    {
      EntrySnoc(es, e, t, d, e.closure.symbol);
    }
    forall s
      ensures s in q.cooldownUntil <==> LastClose(es + [e], s, t).Some?
      ensures s in q.cooldownUntil ==> q.cooldownUntil[s] == LastClose(es + [e], s, t).value + cooldown
    {
      EntrySnoc(es, e, t, e.closure.entryDate, s);
    }
  }

  /** Tracking an execution, field by field. */
  lemma TrackEffect(p: Portfolio, s: Signal, v: ExecutionView, t: int, d: Date, lim: Limits)
    requires v.executed && s.symbol !in p.open
    ensures
      var e := Entry(t, ClosureOf(s, v, t, d));
      var q := Track(p, s, v, t, d, lim);
      && q.date == p.date
      && (if Settle(e) == t then
            && q.open == p.open
            && q.due == p.due
            && q.dailyTrades == p.dailyTrades[e.closure.entryDate := Get(p.dailyTrades, e.closure.entryDate, 0) + 1]
            && q.cooldownUntil == p.cooldownUntil[e.closure.symbol := e.closure.closeStep + lim.cooldown]
          else
            && Settle(e) == e.closure.closeStep > t
            && q.open.Keys == p.open.Keys + {s.symbol}
            && q.open[s.symbol].openedAtStep == t && q.open[s.symbol].plannedCloseStep == e.closure.closeStep
            && (forall x :: x in p.open ==> q.open[x] == p.open[x])
            && q.due == p.due[Settle(e) := (if Settle(e) in p.due then p.due[Settle(e)] else []) + [e.closure]]
            && q.dailyTrades == p.dailyTrades && q.cooldownUntil == p.cooldownUntil)
  {
    var c := ClosureOf(s, v, t, d);
    if c.closeStep <= t {
      var entered := p.(open := p.open[s.symbol :=
        OpenPosition(s.symbol, s.direction, TrackedEntryPrice(s, v), s.stop, s.target, t, c.closeStep)]);
      ClosureEffect(entered, c, lim);
      assert entered.open - {s.symbol} == p.open;
    }
  }

  lemma TrackStreak(p: Portfolio, s: Signal, v: ExecutionView, t: int, d: Date, lim: Limits, log: seq<Option<real>>)
    requires v.executed && StreakAgrees(p, log, lim.hardPause)
    ensures
      var e := Entry(t, ClosureOf(s, v, t, d));
      StreakAgrees(Track(p, s, v, t, d, lim), log + (if Settle(e) == t then [e.closure.netPnl] else []), lim.hardPause)
  {
    var c := ClosureOf(s, v, t, d);
    if c.closeStep <= t {
      var entered := p.(open := p.open[s.symbol :=
        OpenPosition(s.symbol, s.direction, TrackedEntryPrice(s, v), s.stop, s.target, t, c.closeStep)]);
      StreakStep(entered, log, c, lim);
    } else {
      assert log + [] == log;
    }
  }

  lemma EntryPositionsAgree(p: Portfolio, es: seq<Entry>, t: int, d: Date, lim: Limits, s: Signal, v: ExecutionView)
    requires Ordered(es, t - 1) && Spaced(es, lim.cooldown) && OpenAgrees(p, es, t) && DueAgrees(p, es, t)
    requires CooldownAgrees(p, es, t, lim.cooldown)
    requires s.symbol !in p.open && t > Get(p.cooldownUntil, s.symbol, -1) && v.executed
    ensures
      var e := Entry(t, ClosureOf(s, v, t, d));
      var q := Track(p, s, v, t, d, lim);
      && q.date == p.date
      && Spaced(es + [e], lim.cooldown) && OpenAgrees(q, es + [e], t) && DueAgrees(q, es + [e], t)
  {
    var e := Entry(t, ClosureOf(s, v, t, d));
    var q := Track(p, s, v, t, d, lim);
    TrackEffect(p, s, v, t, d, lim);
    EntryIsSpaced(p, es, e, t, lim);
    EntryOpenAgrees(p, q, es, e, t);
    EntryDueAgrees(p, q, es, e, t);
  }

  lemma EntryBooksAgree(p: Portfolio, es: seq<Entry>, t: int, d: Date, lim: Limits, s: Signal, v: ExecutionView)
    requires DailyAgrees(p, es, t) && CooldownAgrees(p, es, t, lim.cooldown)
    requires s.symbol !in p.open && v.executed
    ensures
      var e := Entry(t, ClosureOf(s, v, t, d));
      var q := Track(p, s, v, t, d, lim);
      DailyAgrees(q, es + [e], t) && CooldownAgrees(q, es + [e], t, lim.cooldown)
  {
    TrackEffect(p, s, v, t, d, lim);
    EntryCountsAgree(p, Track(p, s, v, t, d, lim), es, Entry(t, ClosureOf(s, v, t, d)), t, lim.cooldown);
  }

  lemma EntryAgrees(p: Portfolio, es: seq<Entry>, candles: seq<Candle>, start: int, t: int, lim: Limits,
                    s: Signal, v: ExecutionView)
    requires 0 <= start <= t < |candles|
    requires Ordered(es, t - 1) && Agrees(p, es, candles, start, t, lim)
    requires CanExecute(p, s.symbol, t, DateAt(candles, t), lim) && v.executed
    ensures
      var e := Entry(t, ClosureOf(s, v, t, DateAt(candles, t)));
      var q := Track(p, s, v, t, DateAt(candles, t), lim);
      Agrees(q, es + [e], candles, start, t, lim) && q.date == p.date
  {
    var d := DateAt(candles, t);
    EntryPositionsAgree(p, es, t, d, lim, s, v);
    EntryBooksAgree(p, es, t, d, lim, s, v);
    TrackStreak(p, s, v, t, d, lim, DayLog(candles, start, es, t));
    EntryExtendsDayLog(candles, start, es, Entry(t, ClosureOf(s, v, t, d)), t);
  }

  lemma EntryIsSpaced(p: Portfolio, es: seq<Entry>, e: Entry, t: int, lim: Limits)
    requires Ordered(es, t - 1) && Spaced(es, lim.cooldown) && e.openStep == t
    requires OpenAgrees(p, es, t) && CooldownAgrees(p, es, t, lim.cooldown)
    requires e.closure.symbol !in p.open && t > Get(p.cooldownUntil, e.closure.symbol, -1)
    ensures Spaced(es + [e], lim.cooldown)
  {
    CooldownCovers(es, e.closure.symbol, t, lim.cooldown);
  }

  lemma EntryExtendsDayLog(candles: seq<Candle>, start: int, es: seq<Entry>, e: Entry, t: int)
    requires 0 <= start <= t < |candles| && Settle(e) >= t
    ensures DayLog(candles, start, es + [e], t)
         == DayLog(candles, start, es, t) + (if Settle(e) == t then [e.closure.netPnl] else [])
  {
    hide DueAt, Pnls, OpenSet, CountSettled, LastClose;
    EntrySnoc(es, e, t, e.closure.entryDate, e.closure.symbol);
    PnlsSnoc(DueAt(es, t), e.closure);
    if t > start {
      EntryChangesNothingBefore(candles, start, es, e, t - 1);
    }
    var carried, pnls := Carried(candles, start, es, t), Pnls(DueAt(es, t));
    assert Carried(candles, start, es + [e], t) == carried by {
      hide DayLog;
    }
    if Settle(e) == t {
      assert DayLog(candles, start, es + [e], t) == carried + (pnls + [e.closure.netPnl]);
    } else {
      assert DueAt(es, t) + [] == DueAt(es, t);
      assert carried + pnls + [] == carried + pnls;
    }
  }

  lemma PnlsSnoc(cs: seq<Closure>, c: Closure)
    ensures Pnls(cs + [c]) == Pnls(cs) + [c.netPnl]
  {
    assert (cs + [c])[..|cs|] == cs;
  }

  // ----- the whole run -----

  /** What the records say about the turn of step t, before any entry at t. */
  ghost predicate AdmittedByHistory(es: seq<Entry>, candles: seq<Candle>, start: int, symbol: string, t: int, lim: Limits)
    requires 0 <= start <= t < |candles|
  {
    && !StreakReached(DayLog(candles, start, es, t), lim.hardPause)
    && symbol !in OpenSet(es, t)
    && CountOpen(es, t) < lim.maxOpen
    && (LastClose(es, symbol, t).Some? ==> t > LastClose(es, symbol, t).value + lim.cooldown)
    && CountSettled(es, DateAt(candles, t), t) < lim.maxPerDay
  }

  lemma HistoryDecides(p: Portfolio, es: seq<Entry>, candles: seq<Candle>, start: int, symbol: string, t: int, lim: Limits)
    requires 0 <= start <= t < |candles|
    requires Ordered(es, t - 1) && Agrees(p, es, candles, start, t, lim)
    ensures CanExecute(p, symbol, t, DateAt(candles, t), lim) <==> AdmittedByHistory(es, candles, start, symbol, t, lim)
  {
    OpenSetSize(es, t, lim.cooldown);
    assert |p.open| == |p.open.Keys|;
  }

  /** One step, without the agreement: either nothing is entered or one execution is tracked. */
  lemma StepShape<R>(u: Setup<R>, candles: seq<Candle>, t: int, m: Machine) returns (s: Signal, v: ExecutionView)
    requires InRange(u, candles, t)
    ensures
      var p := Settled(m.portfolio, candles, t, u.limits);
      var d := DateAt(candles, t);
      var (m', record) := StepOnce(u, candles, m, t);
      && (EntryOf(u, record).None? ==> m'.portfolio == p)
      && (EntryOf(u, record).Some? ==>
          && CanExecute(p, s.symbol, t, d, u.limits) && v.executed
          && EntryOf(u, record) == Some(Entry(t, ClosureOf(s, v, t, d)))
          && m'.portfolio == Track(p, s, v, t, d, u.limits))
  {
    var (m', record) := StepOnce(u, candles, m, t);
    if EntryOf(u, record).Some? {
      s, v := record.signal.value, u.view(record.execution.value);
    } else {
      s, v := *, *;
    }
  }

  lemma StepAgrees<R>(u: Setup<R>, candles: seq<Candle>, start: int, t: int, m: Machine, es: seq<Entry>)
    requires u.required - 1 <= start <= t < |candles|
    requires Ordered(es, t - 1) && Agrees(m.portfolio, es, candles, start, t - 1, u.limits)
    requires m.portfolio.date == if t == start then None else Some(DateAt(candles, t - 1))
    requires t == start ==> es == []
    ensures
      var (m', record) := StepOnce(u, candles, m, t);
      var e := EntryOf(u, record);
      var es' := es + (if e.Some? then [e.value] else []);
      && Ordered(es', t)
      && Agrees(m'.portfolio, es', candles, start, t, u.limits)
      && m'.portfolio.date == Some(DateAt(candles, t))
  {
    hide Settled, StepOnce, Track, CanExecute, Spaced, OpenAgrees, DueAgrees, DailyAgrees, CooldownAgrees, StreakAgrees;
    TurnAgrees(m.portfolio, es, candles, start, t, u.limits);
    var s, v := StepShape(u, candles, t, m);
    var (m', record) := StepOnce(u, candles, m, t);
    if EntryOf(u, record).Some? {
      EntryAgrees(Settled(m.portfolio, candles, t, u.limits), es, candles, start, t, u.limits, s, v);
    } else {
      assert es + [] == es;
    }
  }

  /** After any number of steps the machine is exactly what the entries in its records say it is. */
  lemma {:induction false} RunAgreesWithItsRecords<R>(u: Setup<R>, candles: seq<Candle>, start: int, end: int)
    requires u.required - 1 <= start <= end <= |candles|
    ensures
      var (m, records) := Run(u, candles, start, end);
      && |records| == end - start
      && Ordered(Entries(u, records), end - 1)
      && Agrees(m.portfolio, Entries(u, records), candles, start, end - 1, u.limits)
      && m.portfolio.date == if end == start then None else Some(DateAt(candles, end - 1))
    decreases end
  {
    hide Agrees, StepOnce, EntryOf, Entries;
    if start < end {
      RunAgreesWithItsRecords(u, candles, start, end - 1);
      var (m, records) := Run(u, candles, start, end - 1);
      var (m', record) := StepOnce(u, candles, m, end - 1);
      assert Run(u, candles, start, end) == (m', records + [record]);
      NoEntriesAtStart(u, records);
      StepAgrees(u, candles, start, end - 1, m, Entries(u, records));
      EntriesSnoc(u, records, record);
    } else {
      NothingRecordedYet(u, candles, start);
    }
  }

  lemma NoEntriesAtStart<R>(u: Setup<R>, records: seq<StepRecord<R>>)
    ensures records == [] ==> Entries(u, records) == []
  {
  }

  lemma NothingRecordedYet<R>(u: Setup<R>, candles: seq<Candle>, start: int)
    requires u.required - 1 <= start <= |candles|
    ensures
      var (m, records) := Run(u, candles, start, start);
      && Entries(u, records) == []
      && Agrees(m.portfolio, [], candles, start, start - 1, u.limits)
      && m.portfolio.date == None
  {
  }
}

/** Laws of whole replays, for any strategy and any execution service. */
module ReplayLaws {
  import opened Prelude
  import opened Market
  import opened Replay
  import opened ReplayHistory

  /** Cutting a run short yields exactly the first records of the longer run. */
  lemma {:induction false} RunPrefix<R>(u: Setup<R>, candles: seq<Candle>, start: int, t: int, end: int)
    requires u.required - 1 <= start <= t <= end <= |candles|
    ensures |Run(u, candles, start, end).1| == end - start
    ensures Run(u, candles, start, end).1[..t - start] == Run(u, candles, start, t).1
    decreases end
  {
    hide StepOnce;
    if start < end {
      RunPrefix(u, candles, start, if t == end then end - 1 else t, end - 1);
    }
    if t < end {
      assert Run(u, candles, start, end).1[..t - start] == Run(u, candles, start, end - 1).1[..t - start];
    } else {
      var records := Run(u, candles, start, end).1;
      assert records[..|records|] == records;
    }
  }

  /** The entries of the run up to, and not including, step t. */
  function History<R>(u: Setup<R>, candles: seq<Candle>, start: int, t: int): seq<Entry>
    requires u.required - 1 <= start <= t <= |candles|
  {
    Entries(u, Run(u, candles, start, t).1)
  }

  /** A step executes exactly when its signal exists and the earlier records leave room for it. */
  lemma AdmissionIsDecidedByTheRecords<R>(u: Setup<R>, candles: seq<Candle>, start: int, end: int, t: int)
    requires u.required - 1 <= start <= t < end <= |candles|
    ensures
      var records := Run(u, candles, start, end).1;
      var window := candles[t - u.required + 1..t + 1];
      var signal := u.strategy(window);
      && |records| == end - start
      && records[t - start].step == t
      && records[t - start].snapshot == window
      && records[t - start].signal == signal
      && (records[t - start].execution.Some? <==>
          signal.Some?
          && AdmittedByHistory(History(u, candles, start, t), candles, start, signal.value.symbol, t, u.limits))
  {
    var records := Run(u, candles, start, end).1;
    var (m, before) := Run(u, candles, start, t);
    RunPrefix(u, candles, start, t, end);
    RecordIsStep(u, candles, start, end, t);
    RunAgreesWithItsRecords(u, candles, start, t);
    AdmissionAtStep(u, candles, start, t, m, before);
  }

  lemma RecordIsStep<R>(u: Setup<R>, candles: seq<Candle>, start: int, end: int, t: int)
    requires u.required - 1 <= start <= t < end <= |candles|
    ensures
      var records := Run(u, candles, start, end).1;
      && |records| == end - start
      && records[t - start] == StepOnce(u, candles, Run(u, candles, start, t).0, t).1
  {
    hide StepOnce;
    RunPrefix(u, candles, start, t + 1, end);
    RunPrefix(u, candles, start, t, t);
    var records := Run(u, candles, start, end).1;
    var short := Run(u, candles, start, t + 1).1;
    assert records[t - start] == records[..t + 1 - start][t - start] == short[t - start];
  }

  lemma AdmissionAtStep<R>(u: Setup<R>, candles: seq<Candle>, start: int, t: int, m: Machine, before: seq<StepRecord<R>>)
    requires u.required - 1 <= start <= t < |candles|
    requires Ordered(Entries(u, before), t - 1)
    requires Agrees(m.portfolio, Entries(u, before), candles, start, t - 1, u.limits)
    requires m.portfolio.date == if t == start then None else Some(DateAt(candles, t - 1))
    requires t == start ==> before == []
    ensures
      var record := StepOnce(u, candles, m, t).1;
      var signal := u.strategy(Snapshot(u, candles, t));
      && record.step == t && record.snapshot == Snapshot(u, candles, t) && record.signal == signal
      && (record.execution.Some? <==>
          signal.Some? && AdmittedByHistory(Entries(u, before), candles, start, signal.value.symbol, t, u.limits))
  {
    hide Settled, Track, AdmittedByHistory, Agrees, CanExecute;
    var es := Entries(u, before);
    var p := Settled(m.portfolio, candles, t, u.limits);
    TurnAgrees(m.portfolio, es, candles, start, t, u.limits);
    var signal := u.strategy(Snapshot(u, candles, t));
    if signal.Some? {
      HistoryDecides(p, es, candles, start, signal.value.symbol, t, u.limits);
    }
  }

  /** Positions in one symbol never overlap, and each entry is strictly later than the previous close plus the
      cooldown. */
  lemma PositionsAreSpaced<R>(u: Setup<R>, candles: seq<Candle>, start: int, end: int)
    requires u.required - 1 <= start <= end <= |candles|
    ensures
      var es := History(u, candles, start, end);
      forall i, j :: 0 <= i < j < |es| && es[i].closure.symbol == es[j].closure.symbol ==>
        && es[i].openStep <= Settle(es[i]) <= es[j].openStep
        && es[i].openStep < es[j].openStep
        && es[i].closure.closeStep + u.limits.cooldown < es[j].openStep
  {
    RunAgreesWithItsRecords(u, candles, start, end);
  }

  // ----- the two indexes of open positions -----

  /** The pending closures of a symbol, over the whole calendar. */
  ghost predicate PendingAt(p: Portfolio, symbol: string, k: int, n: int) {
    k in p.due && 0 <= n < |p.due[k]| && p.due[k][n].symbol == symbol
  }

  lemma {:induction false} DueIndex(es: seq<Entry>, k: int, i: int) returns (n: int)
    requires 0 <= i < |es| && Settle(es[i]) == k
    ensures 0 <= n < |DueAt(es, k)| && DueAt(es, k)[n] == es[i].closure
  {
    var front := es[..|es| - 1];
    if i == |es| - 1 {
      n := |DueAt(front, k)|;
    } else {
      assert front[i] == es[i];
      n := DueIndex(front, k, i);
    }
  }

  lemma {:induction false} DueSymbolsDistinct(es: seq<Entry>, t: int, k: int, cooldown: int)
    requires Ordered(es, t) && Spaced(es, cooldown) && k > t
    ensures forall a, b :: 0 <= a < b < |DueAt(es, k)| ==> DueAt(es, k)[a].symbol != DueAt(es, k)[b].symbol
  {
    if es != [] {
      var front, e := es[..|es| - 1], es[|es| - 1];
      DueSymbolsDistinct(front, t, k, cooldown);
      if Settle(e) == k {
        forall a | 0 <= a < |DueAt(front, k)|
          ensures DueAt(front, k)[a].symbol != e.closure.symbol
        {
          DueAtIff(front, k, DueAt(front, k)[a]);
          var i :| 0 <= i < |front| && front[i].closure == DueAt(front, k)[a] && Settle(front[i]) == k;
          assert front[i] == es[i];
        }
      }
    }
  }

  /** A symbol is open exactly when one closure is pending for it; that closure is keyed by the planned close,
      after the current step. */
  lemma IndexesAgree<R>(u: Setup<R>, candles: seq<Candle>, start: int, end: int, symbol: string)
    requires u.required - 1 <= start <= end <= |candles|
    ensures
      var p := Run(u, candles, start, end).0.portfolio;
      && (symbol in p.open <==> exists k, n :: PendingAt(p, symbol, k, n))
      && (forall k, n :: PendingAt(p, symbol, k, n) ==>
            && symbol in p.open
            && k == p.open[symbol].plannedCloseStep == p.due[k][n].closeStep
            && k > end - 1)
      && (forall k, n, k', n' :: PendingAt(p, symbol, k, n) && PendingAt(p, symbol, k', n') ==> k == k' && n == n')
  {
    hide Run;
    var (m, records) := Run(u, candles, start, end);
    var p, es, t := m.portfolio, Entries(u, records), end - 1;
    RunAgreesWithItsRecords(u, candles, start, end);
    if symbol in p.open {
      OpenSetIff(es, t, symbol);
      var i :| 0 <= i < |es| && es[i].closure.symbol == symbol && Settle(es[i]) > t;
      var n := DueIndex(es, Settle(es[i]), i);
      assert PendingAt(p, symbol, Settle(es[i]), n);
    }
    forall k, n | PendingAt(p, symbol, k, n)
      ensures symbol in p.open && k == p.open[symbol].plannedCloseStep == p.due[k][n].closeStep && k > t
    {
      DueAtIff(es, k, p.due[k][n]);
    }
    forall k, n, k', n' | PendingAt(p, symbol, k, n) && PendingAt(p, symbol, k', n')
      ensures k == k' && n == n'
    {
      DueSymbolsDistinct(es, t, k, u.limits.cooldown);
    }
  }

  // ----- capacity -----

  function CountOpenOn(es: seq<Entry>, d: Date, t: int): nat {
    if es == [] then 0
    else
      var e := es[|es| - 1];
      CountOpenOn(es[..|es| - 1], d, t) + (if e.closure.entryDate == d && Settle(e) > t then 1 else 0)
  }

  function CountOn(es: seq<Entry>, d: Date): nat {
    if es == [] then 0
    else CountOn(es[..|es| - 1], d) + (if es[|es| - 1].closure.entryDate == d then 1 else 0)
  }

  /** Entries of a date are the settled ones plus the ones still open, and those are at most all open ones. */
  lemma {:induction false} DateCountSplits(es: seq<Entry>, d: Date, t: int)
    ensures CountOn(es, d) == CountSettled(es, d, t) + CountOpenOn(es, d, t)
    ensures CountOpenOn(es, d, t) <= CountOpen(es, t)
  {
    if es != [] {
      DateCountSplits(es[..|es| - 1], d, t);
    }
  }

  /** One step adds at most one entry, dated by its own candle, and only below both capacities. */
  lemma HistoryStep<R>(u: Setup<R>, candles: seq<Candle>, start: int, t: int) returns (e: Option<Entry>)
    requires u.required - 1 <= start <= t < |candles|
    ensures
      var es := History(u, candles, start, t);
      && History(u, candles, start, t + 1) == es + (if e.Some? then [e.value] else [])
      && (e.Some? ==>
          && e.value.openStep == t && e.value.closure.entryDate == DateAt(candles, t)
          && CountOpen(es, t) < u.limits.maxOpen
          && CountSettled(es, DateAt(candles, t), t) < u.limits.maxPerDay)
  {
    hide Agrees, Entries, StepOnce, EntryOf, StreakReached;
    var (m, before) := Run(u, candles, start, t);
    RunAgreesWithItsRecords(u, candles, start, t);
    NoEntriesAtStart(u, before);
    AdmissionAtStep(u, candles, start, t, m, before);
    var (m', record) := StepOnce(u, candles, m, t);
    assert Run(u, candles, start, t + 1) == (m', before + [record]);
    EntriesSnoc(u, before, record);
    EntryOfRecord(u, record, candles, t);
    e := EntryOf(u, record);
  }

  lemma EntryOfRecord<R>(u: Setup<R>, r: StepRecord<R>, candles: seq<Candle>, t: int)
    requires InRange(u, candles, t) && r.step == t && r.snapshot == Snapshot(u, candles, t)
    ensures EntryOf(u, r).Some? ==>
              && r.execution.Some?
              && EntryOf(u, r).value.openStep == t
              && EntryOf(u, r).value.closure.entryDate == DateAt(candles, t)
  {
  }

  lemma HistoryAgrees<R>(u: Setup<R>, candles: seq<Candle>, start: int, t: int)
    requires u.required - 1 <= start <= t <= |candles|
    ensures
      var p, es := Run(u, candles, start, t).0.portfolio, History(u, candles, start, t);
      && Ordered(es, t - 1)
      && |p.open| == CountOpen(es, t - 1)
      && DueAgrees(p, es, t - 1)
      && (forall d :: Get(p.dailyTrades, d, 0) == CountSettled(es, d, t - 1))
      && (forall d :: d in p.dailyTrades <==> CountSettled(es, d, t - 1) > 0)
  {
    hide Run, Entries;
    RunAgreesWithItsRecords(u, candles, start, t);
    OpenCounter(Run(u, candles, start, t).0.portfolio, History(u, candles, start, t), candles, start, t - 1, u.limits);
  }

  predicate WithinCaps(es: seq<Entry>, t: int, d: Date, lim: Limits) {
    && (CountOn(es, d) > 0 ==> CountOn(es, d) <= lim.maxPerDay + lim.maxOpen - 1)
    && (CountOpen(es, t) > 0 ==> CountOpen(es, t) <= lim.maxOpen)
  }

  lemma EntryKeepsCaps(es: seq<Entry>, e: Entry, t: int, d: Date, lim: Limits)
    requires WithinCaps(es, t, d, lim)
    requires CountOpen(es, t) < lim.maxOpen && CountSettled(es, e.closure.entryDate, t) < lim.maxPerDay
    ensures WithinCaps(es + [e], t, d, lim)
  {
    assert (es + [e])[..|es|] == es;
    DateCountSplits(es, d, t);
  }

  lemma {:induction false} HistoryIsCapped<R>(u: Setup<R>, candles: seq<Candle>, start: int, end: int, d: Date)
    requires u.required - 1 <= start <= end <= |candles|
    ensures WithinCaps(History(u, candles, start, end), end - 1, d, u.limits)
    decreases end
  {
    hide WithinCaps, History, CountOpen, CountSettled;
    if start < end {
      HistoryIsCapped(u, candles, start, end - 1, d);
      var e := HistoryStep(u, candles, start, end - 1);
      var es := History(u, candles, start, end - 1);
      QuietStepKeepsCaps(es, end - 2, d, u.limits);
      if e.Some? {
        EntryKeepsCaps(es, e.value, end - 1, d, u.limits);
      } else {
        assert es + [] == es;
      }
    } else {
      EmptyHistoryIsCapped(u, candles, start, d);
    }
  }

  lemma QuietStepKeepsCaps(es: seq<Entry>, t: int, d: Date, lim: Limits)
    requires WithinCaps(es, t, d, lim)
    ensures WithinCaps(es, t + 1, d, lim)
  {
    OpenCountShrinks(es, t + 1);
  }

  lemma EmptyHistoryIsCapped<R>(u: Setup<R>, candles: seq<Candle>, start: int, d: Date)
    requires u.required - 1 <= start <= |candles|
    ensures WithinCaps(History(u, candles, start, start), start - 1, d, u.limits)
  {
  }

  // ----- the calendar of pending closures, by entry date -----

  /** Pending closures whose entry is dated `d`, over the whole calendar. */
  ghost function PendingOn(due: map<int, seq<Closure>>, d: Date): int {
    MapSum(DatedCounts(due, d))
  }

  function DatedCounts(due: map<int, seq<Closure>>, d: Date): map<int, int> {
    map k | k in due :: CountDate(due[k], d)
  }

  function LateKeys(es: seq<Entry>, t: int): set<int> {
    if es == [] then {}
    else LateKeys(es[..|es| - 1], t) + (if Settle(es[|es| - 1]) > t then {Settle(es[|es| - 1])} else {})
  }

  function LateCounts(es: seq<Entry>, d: Date, t: int): map<int, int> {
    map k | k in LateKeys(es, t) :: CountDate(DueAt(es, k), d)
  }

  lemma {:induction false} LateKeysIff(es: seq<Entry>, t: int, k: int)
    ensures k in LateKeys(es, t) <==> k > t && DueAt(es, k) != []
  {
    if es != [] {
      LateKeysIff(es[..|es| - 1], t, k);
    }
  }

  /** One more entry changes the counts at most at its own settlement step. */
  lemma LateCountsStep(front: seq<Entry>, e: Entry, d: Date, t: int)
    ensures
      var before, after := LateCounts(front, d, t), LateCounts(front + [e], d, t);
      var k := Settle(e);
      after == if k > t then before[k := CountDate(DueAt(front, k), d) + (if e.closure.entryDate == d then 1 else 0)] else before
    ensures Settle(e) > t && Settle(e) !in LateCounts(front, d, t) ==> DueAt(front, Settle(e)) == []
  {
    hide CountDate, LateKeys;
    var es, k := front + [e], Settle(e);
    LateKeysSnoc(front, e, t);
    LateKeysIff(front, t, k);
    CountDateSnoc(DueAt(front, k), e.closure, d);
    forall j ensures DueAt(es, j) == if j == k then DueAt(front, j) + [e.closure] else DueAt(front, j) {
      DueAtSnoc(front, e, j);
    }
    hide DueAt;
  }

  lemma LateKeysSnoc(front: seq<Entry>, e: Entry, t: int)
    ensures LateKeys(front + [e], t) == LateKeys(front, t) + (if Settle(e) > t then {Settle(e)} else {})
  {
    assert (front + [e])[..|front|] == front;
  }

  lemma DueAtSnoc(front: seq<Entry>, e: Entry, j: int)
    ensures DueAt(front + [e], j) == if j == Settle(e) then DueAt(front, j) + [e.closure] else DueAt(front, j)
  {
    assert (front + [e])[..|front|] == front;
    assert DueAt(front, j) + [] == DueAt(front, j);
  }

  lemma {:induction false} LateCountsAddUp(es: seq<Entry>, d: Date, t: int)
    ensures MapSum(LateCounts(es, d, t)) == CountOpenOn(es, d, t)
  {
    hide MapSum, LateCounts, DueAt;
    if es == [] {
      NothingSums(LateCounts(es, d, t)) by { NoLateCounts(d, t); }
    } else {
      var front, e := es[..|es| - 1], es[|es| - 1];
      assert es == front + [e];
      LateCountsAddUp(front, d, t);
      LateCountsStep(front, e, d, t);
      var counts, k := LateCounts(front, d, t), Settle(e);
      MapSumUpdate(counts, k, CountDate(DueAt(front, k), d) + (if e.closure.entryDate == d then 1 else 0));
      LateCountAt(front, d, t, k);
    }
  }

  lemma NoLateCounts(d: Date, t: int)
    ensures LateCounts([], d, t) == map[]
  {
  }

  lemma LateCountAt(es: seq<Entry>, d: Date, t: int, k: int)
    ensures k in LateCounts(es, d, t) ==> LateCounts(es, d, t)[k] == CountDate(DueAt(es, k), d)
  {
  }

  lemma NothingSums(counts: map<int, int>)
    requires counts == map[]
    ensures MapSum(counts) == 0
  {
  }

  /** The calendar holds exactly the unsettled entries of each date. */
  lemma CalendarCountsOpenEntries(p: Portfolio, es: seq<Entry>, d: Date, t: int)
    requires DueAgrees(p, es, t)
    ensures PendingOn(p.due, d) == CountOpenOn(es, d, t)
  {
    hide MapSum, CountDate, DueAt, LateKeys;
    LateCountsAddUp(es, d, t);
    forall k ensures k in p.due <==> k in LateKeys(es, t) {
      LateKeysIff(es, t, k);
    }
    assert DatedCounts(p.due, d) == LateCounts(es, d, t);
  }

  /** The entries of a date always split into the machine's daily counter and its pending closures, and their
      number is bounded. */
  lemma DailyEntriesAreBounded<R>(u: Setup<R>, candles: seq<Candle>, start: int, end: int, d: Date)
    requires u.required - 1 <= start <= end <= |candles|
    ensures
      var p, es := Run(u, candles, start, end).0.portfolio, History(u, candles, start, end);
      && CountOn(es, d) == Get(p.dailyTrades, d, 0) + PendingOn(p.due, d)
      && (CountOn(es, d) > 0 ==> CountOn(es, d) <= u.limits.maxPerDay + u.limits.maxOpen - 1)
  {
    hide History, Run, DueAgrees, PendingOn;
    HistoryAgrees(u, candles, start, end);
    DateCountSplits(History(u, candles, start, end), d, end - 1);
    HistoryIsCapped(u, candles, start, end, d);
    CalendarCountsOpenEntries(Run(u, candles, start, end).0.portfolio, History(u, candles, start, end), d, end - 1);
  }

  /** No more positions are ever open than the limit allows. */
  lemma OpenPositionsAreBounded<R>(u: Setup<R>, candles: seq<Candle>, start: int, end: int)
    requires u.required - 1 <= start <= end <= |candles|
    ensures
      var p := Run(u, candles, start, end).0.portfolio;
      p.open != map[] ==> |p.open| <= u.limits.maxOpen
  {
    hide History;
    HistoryAgrees(u, candles, start, end);
    HistoryIsCapped(u, candles, start, end, Date(0, 0, 0));
  }

  lemma OpenCounter(p: Portfolio, es: seq<Entry>, candles: seq<Candle>, start: int, t: int, lim: Limits)
    requires 0 <= start && t < |candles| && Ordered(es, t) && Agrees(p, es, candles, start, t, lim)
    ensures |p.open| == CountOpen(es, t)
  {
    OpenSetSize(es, t, lim.cooldown);
    assert |p.open.Keys| == |p.open|;
  }

  lemma {:induction false} OpenCountShrinks(es: seq<Entry>, t: int)
    ensures CountOpen(es, t) <= CountOpen(es, t - 1)
  {
    if es != [] {
      OpenCountShrinks(es[..|es| - 1], t);
    }
  }

  // ----- the loss-streak halt -----

  lemma StreakPersists(log: seq<Option<real>>, more: seq<Option<real>>, threshold: int)
    requires StreakReached(log, threshold)
    ensures StreakReached(log + more, threshold)
  {
    var n :| 0 < n <= |log| && IsLoss(log[n - 1]) && Trailing(log[..n]) >= threshold;
    assert (log + more)[..n] == log[..n] && (log + more)[n - 1] == log[n - 1];
  }

  /** What was booked by step t0 of a day is still at the head of the day's log at a later step of that day. */
  lemma {:induction false} DayLogGrows(candles: seq<Candle>, start: int, es: seq<Entry>, t0: int, t: int) returns (more: seq<Option<real>>)
    requires 0 <= start <= t0 <= t < |candles|
    requires forall k :: t0 <= k <= t ==> DateAt(candles, k) == DateAt(candles, t0)
    ensures DayLog(candles, start, es, t) == DayLog(candles, start, es, t0) + more
    decreases t
  {
    if t == t0 {
      more := [];
    } else {
      var rest := DayLogGrows(candles, start, es, t0, t - 1);
      more := rest + Pnls(DueAt(es, t));
      DayLogStep(candles, start, es, t);
      var head, due := DayLog(candles, start, es, t0), Pnls(DueAt(es, t));
      hide DayLog, Pnls, DueAt;
      assert (head + rest) + due == head + (rest + due);
    }
  }

  lemma DayLogStep(candles: seq<Candle>, start: int, es: seq<Entry>, t: int)
    requires 0 <= start < t < |candles| && DateAt(candles, t) == DateAt(candles, t - 1)
    ensures DayLog(candles, start, es, t) == DayLog(candles, start, es, t - 1) + Pnls(DueAt(es, t))
  {
  }

  /** Later entries do not rewrite what earlier steps booked. */
  lemma {:induction false} BookedLogIsFinal<R>(u: Setup<R>, candles: seq<Candle>, start: int, t: int, end: int)
    requires u.required - 1 <= start <= t <= end <= |candles|
    ensures DayLog(candles, start, History(u, candles, start, end), t - 1)
         == DayLog(candles, start, History(u, candles, start, t), t - 1)
    decreases end
  {
    hide DayLog, History;
    if t < end {
      BookedLogIsFinal(u, candles, start, t, end - 1);
      var e := HistoryStep(u, candles, start, end - 1);
      var es := History(u, candles, start, end - 1);
      if e.Some? {
        EntryChangesNothingBefore(candles, start, es, e.value, t - 1);
      } else {
        assert es + [] == es;
      }
    }
  }

  /** Once the results booked on a day contain a full losing streak, nothing is entered again before the date changes,
      even if a later closure wins. */
  lemma HaltLastsUntilTheDateChanges<R>(u: Setup<R>, candles: seq<Candle>, start: int, end: int, t0: int, t: int)
    requires u.required - 1 <= start <= t0 < t < end <= |candles|
    requires forall k :: t0 <= k <= t ==> DateAt(candles, k) == DateAt(candles, t0)
    requires StreakReached(DayLog(candles, start, History(u, candles, start, end), t0), u.limits.hardPause)
    ensures |Run(u, candles, start, end).1| == end - start
    ensures Run(u, candles, start, end).1[t - start].execution == None
  {
    hide DayLog, StreakReached, StepOnce, Entries, OpenSet, Run;
    var records := Run(u, candles, start, end).1;
    RunPrefix(u, candles, start, t, end);
    BookedLogIsFinal(u, candles, start, t0 + 1, end);
    BookedLogIsFinal(u, candles, start, t0 + 1, t);
    var before := History(u, candles, start, t);
    var more := DayLogGrows(candles, start, before, t0, t);
    StreakPersists(DayLog(candles, start, before, t0), more, u.limits.hardPause);
    AdmissionIsDecidedByTheRecords(u, candles, start, end, t);
  }

  // ----- conservation -----

  function CountAllSettled(es: seq<Entry>, t: int): nat {
    if es == [] then 0
    else CountAllSettled(es[..|es| - 1], t) + (if Settle(es[|es| - 1]) <= t then 1 else 0)
  }

  function DailyMap(es: seq<Entry>, t: int): map<Date, int> {
    if es == [] then map[]
    else
      var e, m := es[|es| - 1], DailyMap(es[..|es| - 1], t);
      if Settle(e) <= t then m[e.closure.entryDate := Get(m, e.closure.entryDate, 0) + 1] else m
  }

  lemma {:induction false} DailyMapTotals(es: seq<Entry>, t: int)
    ensures MapSum(DailyMap(es, t)) == CountAllSettled(es, t) == |es| - CountOpen(es, t)
    ensures forall d :: Get(DailyMap(es, t), d, 0) == CountSettled(es, d, t)
    ensures forall d :: d in DailyMap(es, t) <==> CountSettled(es, d, t) > 0
  {
    if es != [] {
      var front, e := es[..|es| - 1], es[|es| - 1];
      DailyMapTotals(front, t);
      var m := DailyMap(front, t);
      MapSumUpdate(m, e.closure.entryDate, Get(m, e.closure.entryDate, 0) + 1);
    }
  }

  /** No execution is lost or counted twice: the daily counters and the open positions add up to the executed
      steps. */
  lemma ExecutionsAreConserved<R>(u: Setup<R>, candles: seq<Candle>, start: int, end: int)
    requires u.required - 1 <= start <= end <= |candles|
    ensures
      var p := Run(u, candles, start, end).0.portfolio;
      MapSum(p.dailyTrades) + |p.open| == |History(u, candles, start, end)|
  {
    hide Run, History, MapSum, CountSettled, DailyMap, CountOpen, Ordered;
    var p, es := Run(u, candles, start, end).0.portfolio, History(u, candles, start, end);
    HistoryAgrees(u, candles, start, end);
    DailyMapTotals(es, end - 1);
    forall d | d in p.dailyTrades
      ensures p.dailyTrades[d] == CountSettled(es, d, end - 1)
    {
      assert Get(p.dailyTrades, d, 0) == CountSettled(es, d, end - 1);
    }
    var daily := DailyMap(es, end - 1);
    forall d | d in daily
      ensures daily[d] == CountSettled(es, d, end - 1)
    {
      assert Get(daily, d, 0) == CountSettled(es, d, end - 1);
    }
    assert p.dailyTrades == daily;
  }
}

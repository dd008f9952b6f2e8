/** What the records of a replay say, in terms of the candles, the strategy and the service alone. */
module ReplayRecords {
  import opened Prelude
  import opened Market
  import opened Replay
  import opened ReplayHistory
  import opened ReplayLaws

  /** Every record of every run: the strategy is shown the required number of candles that end with the step's own,
      the service the candles after it; fills are numbered through from zero. */
  lemma RecordsAreTheLoop<R>(u: Setup<R>, candles: seq<Candle>, start: int, end: int, t: int)
    requires u.required - 1 <= start <= t < end <= |candles|
    ensures
      var records := Run(u, candles, start, end).1;
      var window := candles[t - u.required + 1..t + 1];
      var fill, next := Run(u, candles, start, t).0.draws, Run(u, candles, start, t + 1).0.draws;
      && |records| == end - start
      && records[t - start].step == t
      && records[t - start].snapshot == window
      && records[t - start].signal == u.strategy(window)
      && (t == start ==> fill == 0)
      && Run(u, candles, start, t + 1).0.portfolio.date == Some(candles[t].openedAt.date)
      && (records[t - start].execution.None? ==> next == fill)
      && (records[t - start].execution.Some? ==>
          && u.strategy(window).Some?
          && u.service(u.strategy(window).value, candles[t + 1..], t, fill) == (records[t - start].execution.value, next))
  {
    hide Settled, CanExecute, Track, Agrees, Ordered;
    RecordIsStep(u, candles, start, end, t);
    var m := Run(u, candles, start, t).0;
    assert Run(u, candles, start, t + 1).0 == StepOnce(u, candles, m, t).0;
    RunAgreesWithItsRecords(u, candles, start, t + 1);
  }

  /** Each step adds its execution to the entries, with the close, the day and the net result it reports, or nothing. */
  lemma EntriesAreTheExecutions<R>(u: Setup<R>, candles: seq<Candle>, start: int, t: int)
    requires u.required - 1 <= start <= t < |candles|
    ensures |Run(u, candles, start, t + 1).1| == t + 1 - start
    ensures
      var record := Run(u, candles, start, t + 1).1[t - start];
      && History(u, candles, start, start) == []
      && (record.execution.Some? ==> record.signal.Some?)
      && History(u, candles, start, t + 1) == History(u, candles, start, t) +
           if record.execution.None? || !u.view(record.execution.value).executed then []
           else
             var v := u.view(record.execution.value);
             var close := if v.closedAtStep.Some? then v.closedAtStep.value
                          else if v.holdCandles.Some? then t + v.holdCandles.value
                          else t;
             var net := if v.realizedPnl.None? then None
                        else Some(v.realizedPnl.value - if v.feesPaid.Some? then v.feesPaid.value else 0.0);
             [Entry(t, Closure(record.signal.value.symbol, close, candles[t].openedAt.date, net))]
  {
    hide Settled, CanExecute, Track, StepOnce, Snapshot, Entries;
    RunPrefix(u, candles, start, t, t + 1);
    RecordsAreTheLoop(u, candles, start, t + 1, t);
    var before, records := Run(u, candles, start, t).1, Run(u, candles, start, t + 1).1;
    var record := records[t - start];
    assert records == before + [record];
    EntriesSnoc(u, before, record);
    assert History(u, candles, start, start) == [] by {
      NothingRecordedYet(u, candles, start);
    }
  }

  /** What an open position must look like, given the record that opened it. */
  ghost predicate OpenedBy<R>(u: Setup<R>, position: OpenPosition, record: StepRecord<R>) {
    && record.signal.Some? && record.execution.Some?
    && var s, v := record.signal.value, u.view(record.execution.value);
       && v.executed
       && position.symbol == s.symbol && position.direction == s.direction
       && position.stopPrice == s.stop && position.targetPrice == s.target
       && position.openedAtStep == record.step
       && position.entryPrice == (if v.entryPrice == None || v.entryPrice == Some(0.0) then s.entry else v.entryPrice.value)
       && position.plannedCloseStep ==
            (if v.closedAtStep.Some? then v.closedAtStep.value
             else if v.holdCandles.Some? then record.step + v.holdCandles.value
             else record.step)
  }

  /** Every open position carries the terms of the record that opened it. */
  lemma {:induction false} OpenPositionsAreTheirRecords<R>(u: Setup<R>, candles: seq<Candle>, start: int, end: int, symbol: string)
    requires u.required - 1 <= start <= end <= |candles|
    requires symbol in Run(u, candles, start, end).0.portfolio.open
    ensures
      var (m, records) := Run(u, candles, start, end);
      var position := m.portfolio.open[symbol];
      && |records| == end - start
      && position.symbol == symbol
      && start <= position.openedAtStep < end
      && OpenedBy(u, position, records[position.openedAtStep - start])
    decreases end
  {
    hide StepOnce, OpenedBy;
    if start == end {
      assert false;
    } else {
      var t := end - 1;
      var (m, before) := Run(u, candles, start, t);
      RunPrefix(u, candles, start, t, end);
      RecordsAreTheLoop(u, candles, start, end, t);
      StepOpens(u, candles, m, t, symbol);
      if symbol in m.portfolio.open && StepOnce(u, candles, m, t).0.portfolio.open[symbol] == m.portfolio.open[symbol] {
        OpenPositionsAreTheirRecords(u, candles, start, t, symbol);
        var records := Run(u, candles, start, end).1;
        var k := m.portfolio.open[symbol].openedAtStep - start;
        assert before[k] == records[..t - start][k] == records[k];
      }
    }
  }

  /** A position open after a step was open before it or is the one the step's record opens. */
  lemma StepOpens<R>(u: Setup<R>, candles: seq<Candle>, m: Machine, t: int, symbol: string)
    requires InRange(u, candles, t)
    requires symbol in StepOnce(u, candles, m, t).0.portfolio.open
    ensures
      var (m', record) := StepOnce(u, candles, m, t);
      var position := m'.portfolio.open[symbol];
      || (symbol in m.portfolio.open && position == m.portfolio.open[symbol])
      || (position.symbol == symbol && position.openedAtStep == t && record.step == t && OpenedBy(u, position, record))
  {
    hide CanExecute, Settled, Track;
    var p := Settled(m.portfolio, candles, t, u.limits);
    SettlingOpensNothing(m.portfolio, candles, t, u.limits);
    var record := StepOnce(u, candles, m, t).1;
    if record.execution.Some? {
      TrackingOpens(u, p, record, DateAt(candles, t), symbol);
    }
  }

  lemma SettlingOpensNothing(p: Portfolio, candles: seq<Candle>, t: int, lim: Limits)
    requires 0 <= t < |candles|
    ensures forall x :: x in Settled(p, candles, t, lim).open ==> x in p.open && Settled(p, candles, t, lim).open[x] == p.open[x]
  {
    var q := ResetDaily(p, DateAt(candles, t));
    if t in q.due {
      BatchCloses(q.(due := q.due - {t}), q.due[t], lim);
    }
  }

  lemma TrackingOpens<R>(u: Setup<R>, p: Portfolio, record: StepRecord<R>, d: Date, symbol: string)
    requires record.signal.Some? && record.execution.Some?
    ensures
      var q := Track(p, record.signal.value, u.view(record.execution.value), record.step, d, u.limits);
      symbol in q.open ==>
        || (symbol in p.open && q.open[symbol] == p.open[symbol])
        || (symbol == q.open[symbol].symbol && q.open[symbol].openedAtStep == record.step && OpenedBy(u, q.open[symbol], record))
  {
  }
}

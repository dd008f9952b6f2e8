/** Backward paging of candles (backend/backtest/datasets.py, backend/market_data/bybit_spot.py) against a paged
    server. */
module Paging {
  import opened Prelude

  /** A candle with its opening time in milliseconds. */
  datatype Kline = Kline(time: int, open: real, high: real, low: real, close: real, volume: real)

  const BATCH := 1000

  ghost predicate Increasing(ks: seq<Kline>) {
    forall i, j :: 0 <= i < j < |ks| ==> ks[i].time < ks[j].time
  }

  function CountUpTo(history: seq<Kline>, end: Option<int>): (n: nat)
    ensures n <= |history|
  {
    if end == None then |history|
    else if history == [] then 0
    else if history[|history| - 1].time <= end.value then |history|
    else CountUpTo(history[..|history| - 1], end)
  }

  /** The server's answer: the last `limit` candles at or before `end`. */
  function Page(history: seq<Kline>, limit: nat, end: Option<int>): seq<Kline> {
    var n := CountUpTo(history, end);
    history[if n < limit then 0 else n - limit..n]
  }

  /** The last n candles of a history, or all of it when it is shorter. */
  function Suffix(history: seq<Kline>, n: int): seq<Kline> {
    if n <= 0 then [] else if |history| <= n then history else history[|history| - n..]
  }

  class KlineServer {
    const history: seq<Kline>

    constructor (history: seq<Kline>)
      ensures this.history == history
    {
      this.history := history;
    }

    /** Callers may rely on which candles a page holds, not on their order; this server sends the newest first. */
    method GetKlines(limit: nat, end: Option<int>) returns (batch: seq<Kline>)
      ensures multiset(batch) == multiset(Page(history, limit, end))
    {
      var page := Page(history, limit, end);
      batch := [];
      for i := 0 to |page|
        invariant multiset(batch) == multiset(page[..i])
      {
        batch := [page[i]] + batch;
        assert page[..i + 1] == page[..i] + [page[i]];
      }
      assert page[..|page|] == page;
    }
  }

  // ----- sorting and de-duplication -----

  function Insert(k: Kline, ks: seq<Kline>): seq<Kline> {
    if ks == [] || k.time <= ks[0].time then [k] + ks else [ks[0]] + Insert(k, ks[1..])
  }

  function SortByTime(ks: seq<Kline>): seq<Kline> {
    if ks == [] then [] else Insert(ks[0], SortByTime(ks[1..]))
  }

  ghost predicate NonDecreasing(ks: seq<Kline>) {
    forall i, j :: 0 <= i < j < |ks| ==> ks[i].time <= ks[j].time
  }

  lemma {:induction false} InsertSorts(k: Kline, ks: seq<Kline>)
    requires NonDecreasing(ks)
    ensures NonDecreasing(Insert(k, ks)) && multiset(Insert(k, ks)) == multiset(ks) + multiset{k}
  {
    if ks == [] || k.time <= ks[0].time {
    } else {
      var head, tail := ks[0], ks[1..];
      InsertSorts(k, tail);
      assert ks == [head] + tail;
      HeadStaysFirst(head, tail, k, Insert(k, tail));
    }
  }

  lemma HeadStaysFirst(head: Kline, tail: seq<Kline>, k: Kline, rest: seq<Kline>)
    requires NonDecreasing([head] + tail) && head.time < k.time && multiset(rest) == multiset(tail) + multiset{k}
    ensures forall j :: 0 <= j < |rest| ==> head.time <= rest[j].time
  {
    forall j | 0 <= j < |rest| ensures head.time <= rest[j].time {
      assert rest[j] in multiset(rest);
      if rest[j] != k {
        assert rest[j] in multiset(tail);
        assert rest[j] in tail;
        var i :| 0 <= i < |tail| && tail[i] == rest[j];
        assert ([head] + tail)[i + 1] == tail[i] && ([head] + tail)[0] == head;
      }
    }
  }

  lemma {:induction false} SortSorts(ks: seq<Kline>)
    ensures NonDecreasing(SortByTime(ks)) && multiset(SortByTime(ks)) == multiset(ks)
  {
    if ks != [] {
      SortSorts(ks[1..]);
      InsertSorts(ks[0], SortByTime(ks[1..]));
      assert ks == [ks[0]] + ks[1..];
    }
  }

  /** Only one ordering of the same candles is sorted when no two share a time. */
  lemma {:induction false} SortedIsUnique(a: seq<Kline>, b: seq<Kline>)
    requires Increasing(a) && NonDecreasing(b) && multiset(a) == multiset(b)
    ensures a == b
  {
    SameLength(a, b);
    if a != [] {
      HeadsAgree(a, b);
      TailOf(a);
      TailOf(b);
      SortedIsUnique(a[1..], b[1..]);
    }
  }

  lemma TailOf(ks: seq<Kline>)
    requires ks != []
    ensures ks == [ks[0]] + ks[1..] && multiset(ks[1..]) == multiset(ks) - multiset{ks[0]}
  {
    assert ks == [ks[0]] + ks[1..];
  }

  lemma SameLength(a: seq<Kline>, b: seq<Kline>)
    requires multiset(a) == multiset(b)
    ensures |a| == |b|
  {
    assert |multiset(a)| == |a| && |multiset(b)| == |b|;
  }

  lemma HeadsAgree(a: seq<Kline>, b: seq<Kline>)
    requires Increasing(a) && NonDecreasing(b) && multiset(a) == multiset(b) && a != [] && b != []
    ensures a[0] == b[0]
  {
    assert a[0] in multiset(b) && b[0] in multiset(a);
    var i :| 0 <= i < |a| && a[i] == b[0];
    var j :| 0 <= j < |b| && b[j] == a[0];
  }

  lemma PageSorts(batch: seq<Kline>, page: seq<Kline>)
    requires Increasing(page) && multiset(batch) == multiset(page)
    ensures SortByTime(batch) == page && |batch| == |page|
  {
    SortSorts(batch);
    SortedIsUnique(page, SortByTime(batch));
    SameLength(batch, page);
  }

  /** Later candles replace earlier ones of the same time. */
  method Deduplicate(ks: seq<Kline>) returns (byTime: map<int, Kline>)
    ensures forall t :: t in byTime <==> exists i :: 0 <= i < |ks| && ks[i].time == t
    ensures forall t :: t in byTime ==> byTime[t] in ks && byTime[t].time == t
  {
    byTime := map[];
    for i := 0 to |ks|
      invariant forall t :: t in byTime <==> exists j :: 0 <= j < i && ks[j].time == t
      invariant forall t :: t in byTime ==> byTime[t] in ks && byTime[t].time == t
    {
      byTime := byTime[ks[i].time := ks[i]];
    }
  }

  method SortedValues(byTime: map<int, Kline>) returns (ks: seq<Kline>)
    requires forall t :: t in byTime ==> byTime[t].time == t
    ensures Increasing(ks) && |ks| == |byTime|
    ensures forall k :: k in ks <==> k.time in byTime && byTime[k.time] == k
  {
    ks := [];
    var rest := byTime.Keys;
    while rest != {}
      invariant rest <= byTime.Keys && Increasing(ks) && |ks| + |rest| == |byTime.Keys|
      invariant forall k :: k in ks <==> k.time in byTime.Keys - rest && byTime[k.time] == k
      invariant forall i, t :: 0 <= i < |ks| && t in rest ==> ks[i].time < t
      decreases rest
    {
      var first := Least(rest);
      ks := ks + [byTime[first]];
      rest := rest - {first};
    }
    assert |byTime.Keys| == |byTime|;
  }

  method Least(times: set<int>) returns (first: int)
    requires times != {}
    ensures first in times && forall t :: t in times ==> first <= t
  {
    HasMember(times);
    first :| first in times;
    var rest := times - {first};
    while rest != {}
      invariant rest <= times && first in times
      invariant forall t :: t in times && t !in rest ==> first <= t
      decreases rest
    {
      HasMember(rest);
      var t :| t in rest;
      if t < first {
        first := t;
      }
      rest := rest - {t};
    }
  }

  lemma HasMember(times: set<int>)
    ensures times == {} || exists t :: t in times
  {
    if forall t :: t !in times {
      assert times == {};
    }
  }

  /** De-duplicating and sorting pages that together hold a stretch of history gives back that stretch. */
  lemma CollectedIsTheStretch(stretch: seq<Kline>, collected: seq<Kline>, byTime: map<int, Kline>, ks: seq<Kline>)
    requires Increasing(stretch) && multiset(collected) == multiset(stretch)
    requires forall t :: t in byTime <==> exists i :: 0 <= i < |collected| && collected[i].time == t
    requires forall t :: t in byTime ==> byTime[t] in collected && byTime[t].time == t
    requires Increasing(ks) && forall k :: k in ks <==> k.time in byTime && byTime[k.time] == k
    ensures ks == stretch
  {
    forall k
      ensures k in ks <==> k in stretch
    {
      if k in ks {
        assert k in multiset(collected);
      }
      if k in stretch {
        assert k in multiset(collected);
        var i :| 0 <= i < |collected| && collected[i] == k;
        assert collected[i].time == k.time;
        var twin := byTime[k.time];
        assert twin in multiset(collected);
        assert twin in stretch;
      }
    }
    IncreasingIsUnique(ks, stretch);
  }

  lemma {:induction false} IncreasingIsUnique(a: seq<Kline>, b: seq<Kline>)
    requires Increasing(a) && Increasing(b) && forall k :: k in a <==> k in b
    ensures a == b
  {
    assert a != [] ==> a[0] in a;
    assert b != [] ==> b[0] in b;
    if a != [] && b != [] {
      assert a[0] in b && b[0] in a;
      var i :| 0 <= i < |b| && b[i] == a[0];
      var j :| 0 <= j < |a| && a[j] == b[0];
      assert a[0] == b[0];
      forall k
        ensures k in a[1..] <==> k in b[1..]
      {
        TailMembers(a, k);
        TailMembers(b, k);
      }
      IncreasingIsUnique(a[1..], b[1..]);
    }
  }

  lemma TailMembers(a: seq<Kline>, k: Kline)
    requires Increasing(a) && a != []
    ensures k in a[1..] <==> k in a && k != a[0]
  {
    assert a == [a[0]] + a[1..];
  }

  // ----- the cursor -----

  /** Everything from index lo on has been read; the cursor points just before it. */
  predicate CursorAt(history: seq<Kline>, lo: nat, end: Option<int>) {
    lo <= |history| && end == if lo == |history| then None else Some(history[lo].time - 1)
  }

  lemma {:induction false} CountBeforeCursor(history: seq<Kline>, lo: nat, end: Option<int>)
    requires Increasing(history) && CursorAt(history, lo, end)
    ensures CountUpTo(history, end) == lo
  {
    if lo < |history| {
      var front := history[..|history| - 1];
      if history[|history| - 1].time <= end.value {
        assert false;
      }
      if lo == |front| {
        assert forall i :: 0 <= i < |front| ==> front[i].time <= end.value;
      } else {
        CountBeforeCursor(front, lo, end);
      }
    }
  }

  /** The next page is the stretch just before the cursor, and it is short only when it reaches the start of
      history. */
  lemma NextPage(history: seq<Kline>, lo: nat, end: Option<int>, limit: nat)
    requires Increasing(history) && CursorAt(history, lo, end)
    ensures
      var next := if lo < limit then 0 else lo - limit;
      Page(history, limit, end) == history[next..lo] && Increasing(history[next..lo])
  {
    CountBeforeCursor(history, lo, end);
  }

  lemma StretchIncreases(history: seq<Kline>, lo: nat)
    requires Increasing(history) && lo <= |history|
    ensures Increasing(history[lo..])
  {
  }

  /** The collected pages hold exactly the candles from index lo on. */
  ghost predicate Covers(history: seq<Kline>, collected: seq<Kline>, lo: nat) {
    && lo <= |history| && |collected| == |history| - lo
    && multiset(collected) == multiset(history[lo..])
  }

  lemma NothingCoveredYet(history: seq<Kline>)
    ensures Covers(history, [], |history|)
  {
  }

  /** The dictionary and sort that both readers finish with. */
  method Assemble(collected: seq<Kline>, ghost history: seq<Kline>, ghost lo: nat) returns (ks: seq<Kline>)
    requires Increasing(history) && Covers(history, collected, lo)
    ensures ks == history[lo..]
  {
    var byTime := Deduplicate(collected);
    ks := SortedValues(byTime);
    StretchIncreases(history, lo);
    CollectedIsTheStretch(history[lo..], collected, byTime, ks);
  }

  function NextLo(lo: nat, limit: nat): nat {
    if lo < limit then 0 else lo - limit
  }

  /** One round of either reader: what is collected, where the cursor lands, and when a page is short. */
  lemma ReadPage(history: seq<Kline>, collected: seq<Kline>, lo: nat, end: Option<int>, limit: nat, batch: seq<Kline>)
    requires Increasing(history) && CursorAt(history, lo, end)
    requires Covers(history, collected, lo)
    requires multiset(batch) == multiset(Page(history, limit, end))
    ensures
      var ordered, next := SortByTime(batch), NextLo(lo, limit);
      && |ordered| == |batch| == lo - next
      && Covers(history, collected + ordered, next)
      && (batch != [] ==> CursorAt(history, next, Some(ordered[0].time - 1)))
  {
    hide Page, SortByTime, CountUpTo, Increasing, Covers;
    var next := NextLo(lo, limit);
    NextPage(history, lo, end, limit);
    PageSorts(batch, history[next..lo]);
    assert SortByTime(batch) == history[next..lo];
    CoversMore(history, collected, lo, next);
  }

  lemma CoversMore(history: seq<Kline>, collected: seq<Kline>, lo: nat, next: nat)
    requires Covers(history, collected, lo) && next <= lo
    ensures Covers(history, collected + history[next..lo], next)
  {
    assert history[next..] == history[next..lo] + history[lo..];
    assert multiset(collected + history[next..lo]) == multiset(history[next..lo]) + multiset(history[lo..]);
  }

  /** A page shorter than the smaller of the batch size and what is still missing afterwards was not full. */
  lemma ShortPageEndsHistory(lo: nat, limit: nat, total: int, read: nat)
    requires read < total && limit == Min(BATCH, total - read)
    requires lo - NextLo(lo, limit) < Min(BATCH, total - (read + (lo - NextLo(lo, limit))))
    ensures NextLo(lo, limit) == 0
  {
  }

  // ----- the two readers -----

  /** datasets.py: the page is short-circuited against what is still missing after it has been added. */
  method FetchCandles(server: KlineServer, total: int) returns (result: seq<Kline>)
    requires Increasing(server.history)
    ensures total <= 0 ==> result == []
    ensures 0 < total <= |server.history| ==> result == server.history[|server.history| - total..]
    ensures total > |server.history| ==> result == server.history
  {
    hide Increasing, Page, SortByTime, CountUpTo, Insert, Covers;
    NothingCoveredYet(server.history);
    var candles: seq<Kline> := [];
    var end: Option<int> := None;
    ghost var lo: nat := |server.history|;
    while |candles| < total
      invariant CursorAt(server.history, lo, end)
      invariant Covers(server.history, candles, lo) && |candles| == |server.history| - lo
      invariant |candles| <= total || candles == []
      decreases lo
    {
      ghost var read := |candles|;
      var limit := Min(BATCH, total - |candles|);
      var batch := server.GetKlines(limit, end);
      ReadPage(server.history, candles, lo, end, limit, batch);
      if batch == [] {
        break;
      }
      var ordered := SortByTime(batch);
      candles := candles + ordered;
      end := Some(ordered[0].time - 1);
      if |batch| < Min(BATCH, total - |candles|) {
        ShortPageEndsHistory(lo, limit, total, read);
        lo := 0;
        break;
      }
      lo := NextLo(lo, limit);
    }
    var ks := Assemble(candles, server.history, lo);
    result := Suffix(ks, total);
  }

  datatype SnapshotError = NonPositiveLimit | TooFew(returned: nat)

  /** bybit_spot.py: the same walk, refusing to answer with fewer candles than asked for. */
  method GetSnapshot(server: KlineServer, limit: int) returns (result: Result<seq<Kline>, SnapshotError>)
    requires Increasing(server.history)
    ensures result == if limit <= 0 then Err(NonPositiveLimit)
                      else if |server.history| < limit then Err(TooFew(|server.history|))
                      else Ok(server.history[|server.history| - limit..])
  {
    if limit <= 0 {
      return Err(NonPositiveLimit);
    }
    hide Increasing, Page, SortByTime, CountUpTo, Insert, Covers;
    NothingCoveredYet(server.history);
    var klines: seq<Kline> := [];
    var end: Option<int> := None;
    ghost var lo: nat := |server.history|;
    while |klines| < limit
      invariant CursorAt(server.history, lo, end)
      invariant Covers(server.history, klines, lo) && |klines| == |server.history| - lo <= limit
      decreases lo
    {
      var batchLimit := Min(BATCH, limit - |klines|);
      var batch := server.GetKlines(batchLimit, end);
      ReadPage(server.history, klines, lo, end, batchLimit, batch);
      if batch == [] {
        break;
      }
      var ordered := SortByTime(batch);
      klines := klines + ordered;
      end := Some(ordered[0].time - 1);
      lo := NextLo(lo, batchLimit);
      if |batch| < batchLimit {
        break;
      }
    }
    var ks := Assemble(klines, server.history, lo);
    if |ks| < limit {
      return Err(TooFew(|ks|));
    }
    return Ok(Suffix(ks, limit));
  }
}

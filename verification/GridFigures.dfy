/** The backtest's slots, snapshots and report figures in terms of the configuration and the candles. */
module GridFigures {
  import opened Prelude
  import opened Grid
  import opened GridThreshold
  import opened GridLedger

  // ----- slots -----

  /** Fill prices follow from the buys and sales made. */
  ghost predicate FillsMatch(slots: seq<Slot>) {
    forall i :: 0 <= i < |slots| ==>
      && slots[i].buyFill == (if BuysMade(slots[i]) > 0 then slots[i].buyPrice else 0.0)
      && slots[i].sellFill == (if slots[i].cycles > 0 then slots[i].sellPrice else 0.0)
  }

  lemma BuyPassFills(c: Config, st: State, candle: GridCandle)
    requires FillsMatch(st.slots)
    ensures FillsMatch(BuyPass(c, st, candle, |st.slots|).slots)
  {
    forall i | 0 <= i < |st.slots|
      ensures BuyPass(c, st, candle, |st.slots|).slots[i] == if Buys(st.slots[i], candle) then AfterBuy(st.slots[i]) else st.slots[i]
    {
      BuyPassSlot(c, st, candle, |st.slots|, i);
    }
  }

  lemma SellPassFills(c: Config, st: State, candle: GridCandle)
    requires FillsMatch(st.slots)
    ensures FillsMatch(SellPass(c, st, candle, |st.slots|).slots)
  {
    hide CycleGross, SellFee;
    forall i | 0 <= i < |st.slots|
      ensures SellPass(c, st, candle, |st.slots|).slots[i] == if Sells(st.slots[i], candle) then AfterSell(c, st.slots[i]) else st.slots[i]
    {
      SellPassSlot(c, st, candle, |st.slots|, i);
    }
  }

  lemma InitialFills(c: Config, start: real)
    requires Priced(c)
    ensures FillsMatch(Initial(c, start, Levels(c)).slots)
  {
    hide BuyPrice, SellPrice, UnitsAt;
    forall i | 0 <= i < Levels(c)
      ensures Initial(c, start, Levels(c)).slots[i] == FreshSlot(c, i, start)
    {
      InitialSlot(c, start, Levels(c), i);
    }
  }

  lemma {:induction false} RunFills(c: Config, start: real, candles: seq<GridCandle>)
    requires Priced(c)
    ensures FillsMatch(RunFrom(c, start, candles).slots)
  {
    hide FillsMatch, BuyPass, SellPass, Initial;
    if candles == [] {
      InitialFills(c, start);
    } else {
      var front, candle := candles[..|candles| - 1], candles[|candles| - 1];
      RunFills(c, start, front);
      var st := RunFrom(c, start, front);
      BuyPassFills(c, st, candle);
      SellPassFills(c, BuyPass(c, st, candle, |st.slots|), candle);
    }
  }

  /** A level's prices lie evenly between the two bounds, the sale one step above the purchase. */
  lemma LevelPrices(c: Config, i: nat)
    requires i < Levels(c)
    ensures c.nLevels > 0
    ensures BuyPrice(c, i) == c.pMin + i as real * ((c.pMax - c.pMin) / c.nLevels as real)
    ensures SellPrice(c, i) == c.pMin + (i + 1) as real * ((c.pMax - c.pMin) / c.nLevels as real)
    ensures SellPrice(c, i) > BuyPrice(c, i)
  {
    var step := (c.pMax - c.pMin) / c.nLevels as real;
    assert (i + 1) as real * step == i as real * step + step;
    assert step > 0.0;
  }

  /** A level is sized by an equal share of the capital, rounded down to whole lots when lots are set. */
  lemma LevelSize(c: Config, price: real) returns (lots: int)
    requires c.nLevels > 0 && price != 0.0
    ensures c.minLot == 0.0 ==> UnitsAt(c, price) * price * c.nLevels as real == c.capital
    ensures c.minLot != 0.0 ==> UnitsAt(c, price) == lots as real * c.minLot
    ensures c.minLot > 0.0 ==> UnitsAt(c, price) <= c.capital / c.nLevels as real / price < UnitsAt(c, price) + c.minLot
  {
    var n, share := c.nLevels as real, c.capital / c.nLevels as real / price;
    lots := if c.minLot != 0.0 then (share / c.minLot).Floor else 0;
    if c.minLot == 0.0 {
      assert share * price == c.capital / n;
      assert share * price * n == c.capital;
    } else if c.minLot > 0.0 {
      FloorBounds(share, c.minLot);
    }
  }

  lemma FloorBounds(x: real, lot: real)
    requires lot > 0.0
    ensures (x / lot).Floor as real * lot <= x < (x / lot).Floor as real * lot + lot
  {
    assert x / lot * lot == x;
    LotsBound(x, x / lot, (x / lot).Floor as real, lot);
  }

  lemma LotsBound(x: real, q: real, f: real, lot: real)
    requires lot > 0.0 && f <= q < f + 1.0 && q * lot == x
    ensures f * lot <= x < f * lot + lot
  {
    Scale(lot, f, q);
    var rest := f + 1.0 - q;
    assert rest * lot > 0.0;
    calc {
      rest * lot;
      f * lot + lot - q * lot;
      f * lot + lot - x;
    }
  }

  /** Every slot of a backtest is its level run on its own from the first open: prices, size, status, cycles and last
      fills. */
  lemma BacktestIsItsLevels(c: Config, candles: seq<GridCandle>, i: nat) returns (lots: int)
    requires Priced(c) && i < Levels(c)
    ensures c.nLevels > 0 && |RunGrid(c, candles).slots| == c.nLevels
    ensures
      var s := RunGrid(c, candles).slots[i];
      var start := if candles == [] then c.pMin else candles[0].open;
      var step := (c.pMax - c.pMin) / c.nLevels as real;
      var buy, sell := c.pMin + i as real * step, c.pMin + (i + 1) as real * step;
      var alone := Alone(buy, sell, start, candles);
      && s.level == i && s.buyPrice == buy && s.sellPrice == sell
      && s.status == (if alone.holding then WaitingSell else WaitingBuy)
      && s.cycles == alone.sells
      && s.buyFill == (if alone.buys > 0 then buy else 0.0)
      && s.sellFill == (if alone.sells > 0 then sell else 0.0)
    ensures
      var s := RunGrid(c, candles).slots[i];
      && s.buyPrice != 0.0
      && (c.minLot == 0.0 ==> s.units * s.buyPrice * c.nLevels as real == c.capital)
      && (c.minLot != 0.0 ==> s.units == lots as real * c.minLot)
      && (c.minLot > 0.0 ==> s.units <= c.capital / c.nLevels as real / s.buyPrice < s.units + c.minLot)
  {
    hide RunFrom, BuyPrice, SellPrice, UnitsAt;
    var start := StartPrice(c, candles);
    GridIsAThreshold(c, start, candles);
    SlotsRunAlone(c, start, candles, i);
    RunFills(c, start, candles);
    LevelPrices(c, i);
    BuysFollowSells(BuyPrice(c, i), SellPrice(c, i), start, candles);
    lots := LevelSize(c, BuyPrice(c, i));
  }

  // ----- snapshots -----

  lemma {:induction false} InventorySums(slots: seq<Slot>, price: real)
    ensures InventoryCost(slots) == SumBy(slots, (s: Slot) => if s.status == WaitingSell then s.units * s.buyPrice else 0.0)
    ensures InventoryCost(slots) - InventoryValue(slots, price)
         == SumBy(slots, (s: Slot) => if s.status == WaitingSell then s.units * (s.buyPrice - price) else 0.0)
    ensures CountBuying(slots) == |set i | 0 <= i < |slots| && slots[i].status == WaitingBuy|
  {
    if slots != [] {
      var front, s := slots[..|slots| - 1], slots[|slots| - 1];
      InventorySums(front, price);
      var before := set i | 0 <= i < |front| && front[i].status == WaitingBuy;
      assert (set i | 0 <= i < |slots| && slots[i].status == WaitingBuy)
          == before + if s.status == WaitingBuy then {|front|} else {};
    }
  }

  /** The snapshot of a candle shows the slots as that candle left them: the cost of what is held, its fall below
      cost at the close and the number of levels waiting to buy. */
  lemma {:induction false} SnapshotsAreOfTheirCandles(c: Config, start: real, candles: seq<GridCandle>, t: nat)
    requires Priced(c) && t < |candles|
    ensures |RunFrom(c, start, candles).snapshots| == |candles|
    ensures
      var slots := RunFrom(c, start, candles[..t + 1]).slots;
      var snapshot := RunFrom(c, start, candles).snapshots[t];
      var fall := SumBy(slots, (s: Slot) => if s.status == WaitingSell then s.units * (s.buyPrice - candles[t].close) else 0.0);
      && snapshot.openTime == candles[t].openTime && snapshot.close == candles[t].close
      && snapshot.inventory == SumBy(slots, (s: Slot) => if s.status == WaitingSell then s.units * s.buyPrice else 0.0)
      && snapshot.loss == (if fall > 0.0 then fall else 0.0)
      && snapshot.activeBuys == |set i | 0 <= i < |slots| && slots[i].status == WaitingBuy|
      && (t == |candles| - 1 ==> RunFrom(c, start, candles).inventory == snapshot.inventory)
  {
    hide BuyPass, SellPass, InventoryCost, InventoryValue, CountBuying, SumBy;
    SnapshotCloses(c, start, candles);
    var front, candle := candles[..|candles| - 1], candles[|candles| - 1];
    var before := RunFrom(c, start, front);
    var bought := BuyPass(c, before, candle, |before.slots|);
    var sold := SellPass(c, bought, candle, |bought.slots|);
    SnapshotCloses(c, start, front);
    BuyPassSnapshots(c, before, candle, |before.slots|);
    SellPassSnapshots(c, bought, candle, |bought.slots|);
    if t < |front| {
      SnapshotsAreOfTheirCandles(c, start, front, t);
      assert front[..t + 1] == candles[..t + 1];
    } else {
      assert candles[..t + 1] == candles;
      InventorySums(sold.slots, candle.close);
    }
  }

  // ----- the report -----

  /** The reported drawdown is the largest snapshot loss and the utilization the part of the candles with a level
      waiting to buy, both in percent of their base. */
  lemma {:induction false} ReportFigures(snapshots: seq<Snapshot>)
    ensures forall i :: 0 <= i < |snapshots| ==> snapshots[i].loss <= MaxLoss(snapshots)
    ensures snapshots == [] ==> MaxLoss(snapshots) == 0.0
    ensures snapshots != [] ==> exists i :: 0 <= i < |snapshots| && snapshots[i].loss == MaxLoss(snapshots)
    ensures ActiveCandles(snapshots) == |set i | 0 <= i < |snapshots| && snapshots[i].activeBuys >= 1|
  {
    if snapshots != [] {
      var front, last := snapshots[..|snapshots| - 1], snapshots[|snapshots| - 1];
      ReportFigures(front);
      var before := set i | 0 <= i < |front| && front[i].activeBuys >= 1;
      assert (set i | 0 <= i < |snapshots| && snapshots[i].activeBuys >= 1)
          == before + if last.activeBuys >= 1 then {|front|} else {};
      if front != [] {
        var i :| 0 <= i < |front| && front[i].loss == MaxLoss(front);
        assert snapshots[i].loss == MaxLoss(front);
      }
      assert snapshots[|front|].loss == last.loss;
    }
  }

  lemma PercentageOf(x: real, y: real)
    ensures y == 0.0 ==> Percentage(x, y) == 0.0
    ensures Percentage(x, y) * y == if y == 0.0 then 0.0 else 100.0 * x
  {
    if y != 0.0 {
      assert x / y * y == x;
    }
  }
}

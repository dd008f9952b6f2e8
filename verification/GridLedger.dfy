/** Money in the grid: closed forms of the totals, independence of the slots, and the capital bound. */
module GridLedger {
  import opened Prelude
  import opened Grid
  import opened GridThreshold

  // ----- closed forms -----

  /** Buys a slot has made: one per finished cycle and one more while it holds. */
  function BuysMade(s: Slot): nat {
    s.cycles + (if s.status == WaitingSell then 1 else 0)
  }

  function EarnedGross(s: Slot): real {
    s.cycles as real * CycleGross(s)
  }

  function PaidFees(c: Config, s: Slot): real {
    BuysMade(s) as real * BuyFee(c, s) + s.cycles as real * SellFee(c, s)
  }

  function GrossOf(): Slot -> real {
    (s: Slot) => EarnedGross(s)
  }

  function FeesOf(c: Config): Slot -> real {
    (s: Slot) => PaidFees(c, s)
  }

  function RealizedOf(): Slot -> real {
    (s: Slot) => s.realized
  }

  function BuyFeesOf(c: Config): Slot -> real {
    (s: Slot) => BuysMade(s) as real * BuyFee(c, s)
  }

  /** The running totals are functions of the slots alone, whatever the candles were. */
  ghost predicate Balanced(c: Config, st: State) {
    && st.gross == SumBy(st.slots, GrossOf())
    && st.fees == SumBy(st.slots, FeesOf(c))
    && forall i :: 0 <= i < |st.slots| ==> RealizedMatches(c, st.slots[i])
  }

  predicate RealizedMatches(c: Config, s: Slot) {
    s.realized == s.cycles as real * (CycleGross(s) - SellFee(c, s))
  }

  lemma BuyMovesOneFee(c: Config, s: Slot)
    requires s.status == WaitingBuy
    ensures PaidFees(c, AfterBuy(s)) == PaidFees(c, s) + BuyFee(c, s)
    ensures EarnedGross(AfterBuy(s)) == EarnedGross(s)
    ensures RealizedMatches(c, s) ==> RealizedMatches(c, AfterBuy(s))
  {
    var t, fee, sell := AfterBuy(s), BuyFee(c, s), SellFee(c, s);
    assert BuyFee(c, t) == fee && SellFee(c, t) == sell && CycleGross(t) == CycleGross(s);
    OneMore(s.cycles, fee);
  }

  lemma SellClosesOneCycle(c: Config, s: Slot)
    requires s.status == WaitingSell
    ensures PaidFees(c, AfterSell(c, s)) == PaidFees(c, s) + SellFee(c, s)
    ensures EarnedGross(AfterSell(c, s)) == EarnedGross(s) + CycleGross(s)
    ensures RealizedMatches(c, s) ==> RealizedMatches(c, AfterSell(c, s))
  {
    var t, fee, sell := AfterSell(c, s), BuyFee(c, s), SellFee(c, s);
    assert BuyFee(c, t) == fee && SellFee(c, t) == sell && CycleGross(t) == CycleGross(s);
    OneMore(s.cycles, sell);
    OneMore(s.cycles, CycleGross(s));
    OneMore(s.cycles, CycleGross(s) - sell);
  }

  lemma OneMore(n: nat, x: real)
    ensures (n + 1) as real * x == n as real * x + x
  {
  }

  lemma BuySlotBalances(c: Config, st: State, candle: GridCandle, i: nat)
    requires i < |st.slots| && Balanced(c, st)
    ensures Balanced(c, BuySlot(c, st, candle, i))
  {
    hide PaidFees, EarnedGross, RealizedMatches, BuyFee, AfterBuy;
    var s := st.slots[i];
    if Buys(s, candle) {
      BuyMovesOneFee(c, s);
      SumByUpdate(st.slots, i, AfterBuy(s), FeesOf(c));
      SumByUpdate(st.slots, i, AfterBuy(s), GrossOf());
    }
  }

  lemma SellSlotBalances(c: Config, st: State, candle: GridCandle, i: nat)
    requires i < |st.slots| && Balanced(c, st)
    ensures Balanced(c, SellSlot(c, st, candle, i))
  {
    hide PaidFees, EarnedGross, RealizedMatches, SellFee, CycleGross, AfterSell;
    var s := st.slots[i];
    if Sells(s, candle) {
      SellClosesOneCycle(c, s);
      SumByUpdate(st.slots, i, AfterSell(c, s), FeesOf(c));
      SumByUpdate(st.slots, i, AfterSell(c, s), GrossOf());
    }
  }

  lemma {:induction false} BuyPassBalances(c: Config, st: State, candle: GridCandle, n: nat)
    requires n <= |st.slots| && Balanced(c, st)
    ensures Balanced(c, BuyPass(c, st, candle, n))
  {
    hide Balanced, BuySlot;
    if n > 0 {
      BuyPassBalances(c, st, candle, n - 1);
      BuySlotBalances(c, BuyPass(c, st, candle, n - 1), candle, n - 1);
    }
  }

  lemma {:induction false} SellPassBalances(c: Config, st: State, candle: GridCandle, n: nat)
    requires n <= |st.slots| && Balanced(c, st)
    ensures Balanced(c, SellPass(c, st, candle, n))
  {
    hide Balanced, SellSlot;
    if n > 0 {
      SellPassBalances(c, st, candle, n - 1);
      SellSlotBalances(c, SellPass(c, st, candle, n - 1), candle, n - 1);
    }
  }

  lemma FreshSlotIsPaid(c: Config, i: nat, start: real)
    requires i < Levels(c) && BuyPrice(c, i) != 0.0
    ensures
      var s := FreshSlot(c, i, start);
      && PaidFees(c, s) == (if s.status == WaitingSell then BuyFee(c, s) else 0.0)
      && EarnedGross(s) == 0.0 && RealizedMatches(c, s)
  {
    hide BuyFee, SellFee, CycleGross, UnitsAt;
    var s := FreshSlot(c, i, start);
    assert s.cycles == 0;
  }

  /** A slot added with exactly its fee paid. */
  lemma AddedSlotBalances(c: Config, st: State, s: Slot)
    requires Balanced(c, st) && EarnedGross(s) == 0.0 && RealizedMatches(c, s)
    ensures Balanced(c, st.(slots := st.slots + [s], fees := st.fees + PaidFees(c, s)))
  {
    hide PaidFees, EarnedGross, RealizedMatches, SumBy;
    SumBySnoc(st.slots, s, FeesOf(c));
    SumBySnoc(st.slots, s, GrossOf());
  }

  lemma NoSlotsBalance(c: Config)
    ensures Balanced(c, State([], 0.0, 0.0, 0.0, []))
  {
  }

  lemma {:induction false} InitialBalances(c: Config, start: real, n: nat)
    requires n <= Levels(c) && Priced(c)
    ensures Balanced(c, Initial(c, start, n))
  {
    hide Balanced, FreshSlot, PaidFees, EarnedGross, RealizedMatches, BuyFee;
    if n > 0 {
      InitialBalances(c, start, n - 1);
      FreshSlotIsPaid(c, n - 1, start);
      AddedSlotBalances(c, Initial(c, start, n - 1), FreshSlot(c, n - 1, start));
    } else {
      NoSlotsBalance(c);
    }
  }

  lemma {:induction false} RunBalances(c: Config, start: real, candles: seq<GridCandle>)
    requires Priced(c)
    ensures Balanced(c, RunFrom(c, start, candles))
  {
    hide BuyPass, SellPass, Initial;
    if candles == [] {
      InitialBalances(c, start, Levels(c));
    } else {
      var front, candle := candles[..|candles| - 1], candles[|candles| - 1];
      RunBalances(c, start, front);
      var st := RunFrom(c, start, front);
      BuyPassBalances(c, st, candle, |st.slots|);
      var bought := BuyPass(c, st, candle, |st.slots|);
      SellPassBalances(c, bought, candle, |bought.slots|);
    }
  }

  lemma SlotFigures(c: Config, s: Slot)
    ensures EarnedGross(s) == s.cycles as real * s.units * (s.sellPrice - s.buyPrice)
    ensures PaidFees(c, s) == c.fee * s.units * (BuysMade(s) as real * s.buyPrice + s.cycles as real * s.sellPrice)
    ensures RealizedMatches(c, s) ==> s.realized == s.cycles as real * s.units * (s.sellPrice - s.buyPrice - c.fee * s.sellPrice)
  {
    var n, b, u := s.cycles as real, BuysMade(s) as real, s.units;
    assert PaidFees(c, s) == b * (u * s.buyPrice * c.fee) + n * (u * s.sellPrice * c.fee);
    assert b * (u * s.buyPrice * c.fee) == c.fee * u * (b * s.buyPrice);
    assert n * (u * s.sellPrice * c.fee) == c.fee * u * (n * s.sellPrice);
    if RealizedMatches(c, s) {
      assert CycleGross(s) - SellFee(c, s) == u * (s.sellPrice - s.buyPrice - c.fee * s.sellPrice);
    }
  }

  lemma {:induction false} SlotTotals(c: Config, slots: seq<Slot>)
    ensures SumBy(slots, GrossOf()) == SumBy(slots, (s: Slot) => s.cycles as real * s.units * (s.sellPrice - s.buyPrice))
    ensures SumBy(slots, FeesOf(c)) == SumBy(slots, (s: Slot) => c.fee * s.units *
              ((s.cycles + if s.status == WaitingSell then 1 else 0) as real * s.buyPrice + s.cycles as real * s.sellPrice))
  {
    hide EarnedGross, PaidFees;
    if slots != [] {
      SlotTotals(c, slots[..|slots| - 1]);
      SlotFigures(c, slots[|slots| - 1]);
    }
  }

  /** After any candles: gross profit is the price gap of every finished cycle, fees are charged on the value of
      every buy and every sale, and a slot has realized the gaps of its cycles less the fees of their sales. */
  lemma LedgerIsClosed(c: Config, start: real, candles: seq<GridCandle>)
    requires Priced(c)
    ensures
      var st := RunFrom(c, start, candles);
      && st.gross == SumBy(st.slots, (s: Slot) => s.cycles as real * s.units * (s.sellPrice - s.buyPrice))
      && st.fees == SumBy(st.slots, (s: Slot) => c.fee * s.units *
           ((s.cycles + if s.status == WaitingSell then 1 else 0) as real * s.buyPrice + s.cycles as real * s.sellPrice))
      && forall i :: 0 <= i < |st.slots| ==>
           var s := st.slots[i];
           s.realized == s.cycles as real * s.units * (s.sellPrice - s.buyPrice - c.fee * s.sellPrice)
  {
    hide RunFrom, SumBy, RealizedMatches;
    RunBalances(c, start, candles);
    var slots := RunFrom(c, start, candles).slots;
    SlotTotals(c, slots);
    forall i | 0 <= i < |slots|
      ensures
        var s := slots[i];
        s.realized == s.cycles as real * s.units * (s.sellPrice - s.buyPrice - c.fee * s.sellPrice)
    {
      SlotFigures(c, slots[i]);
    }
  }

  lemma {:induction false} NetSplits(c: Config, slots: seq<Slot>)
    requires forall i :: 0 <= i < |slots| ==> RealizedMatches(c, slots[i])
    ensures SumBy(slots, GrossOf()) - SumBy(slots, FeesOf(c)) == SumBy(slots, RealizedOf()) - SumBy(slots, BuyFeesOf(c))
  {
    if slots != [] {
      var front, s := slots[..|slots| - 1], slots[|slots| - 1];
      NetSplits(c, front);
      SlotNet(c, s);
    }
  }

  lemma SlotNet(c: Config, s: Slot)
    requires RealizedMatches(c, s)
    ensures EarnedGross(s) - PaidFees(c, s) == s.realized - BuysMade(s) as real * BuyFee(c, s)
  {
    var n, g, f := s.cycles as real, CycleGross(s), SellFee(c, s);
    assert n * (g - f) == n * g - n * f;
  }

  /** The net result is what the slots have realized less the fees of every buy, including those still held. */
  lemma NetPnlIsRealizedLessBuyFees(c: Config, start: real, candles: seq<GridCandle>)
    requires Priced(c)
    ensures
      var st := RunFrom(c, start, candles);
      st.gross - st.fees == SumBy(st.slots, (s: Slot) => s.realized)
        - SumBy(st.slots, (s: Slot) => (s.cycles + if s.status == WaitingSell then 1 else 0) as real * c.fee * s.units * s.buyPrice)
  {
    RunBalances(c, start, candles);
    NetSplits(c, RunFrom(c, start, candles).slots);
    BuyFeeTotals(c, RunFrom(c, start, candles).slots);
  }

  lemma {:induction false} BuyFeeTotals(c: Config, slots: seq<Slot>)
    ensures SumBy(slots, RealizedOf()) == SumBy(slots, (s: Slot) => s.realized)
    ensures SumBy(slots, BuyFeesOf(c)) == SumBy(slots, (s: Slot) =>
              (s.cycles + if s.status == WaitingSell then 1 else 0) as real * c.fee * s.units * s.buyPrice)
  {
    if slots != [] {
      BuyFeeTotals(c, slots[..|slots| - 1]);
      var s := slots[|slots| - 1];
      var b := BuysMade(s) as real;
      assert b * (s.units * s.buyPrice * c.fee) == b * c.fee * s.units * s.buyPrice;
    }
  }

  // ----- a grid is a product of one-slot automata -----

  datatype Automaton = Automaton(holding: bool, buys: nat, sells: nat)

  /** One level on its own: buy when the low reaches its price, then sell when the high of the same or a later
      candle does. */
  function Alone(buy: real, sell: real, start: real, candles: seq<GridCandle>): Automaton {
    if candles == [] then
      if buy >= start then Automaton(true, 1, 0) else Automaton(false, 0, 0)
    else
      var a, candle := Alone(buy, sell, start, candles[..|candles| - 1]), candles[|candles| - 1];
      var b := if !a.holding && candle.low <= buy then a.(holding := true, buys := a.buys + 1) else a;
      if b.holding && candle.high >= sell then b.(holding := false, sells := b.sells + 1) else b
  }

  lemma {:induction false} BuysFollowSells(buy: real, sell: real, start: real, candles: seq<GridCandle>)
    ensures
      var a := Alone(buy, sell, start, candles);
      a.buys == a.sells + (if a.holding then 1 else 0)
  {
    if candles != [] {
      BuysFollowSells(buy, sell, start, candles[..|candles| - 1]);
    }
  }

  /** No slot influences another: each one's status, cycles and buys are those of its level running alone. */
  lemma {:induction false} SlotsRunAlone(c: Config, start: real, candles: seq<GridCandle>, i: nat)
    requires Priced(c) && i < Levels(c)
    ensures
      var slots := RunFrom(c, start, candles).slots;
      var a := Alone(BuyPrice(c, i), SellPrice(c, i), start, candles);
      && |slots| == Levels(c)
      && slots[i].status == (if a.holding then WaitingSell else WaitingBuy)
      && slots[i].cycles == a.sells
      && BuysMade(slots[i]) == a.buys
  {
    GridIsAThreshold(c, start, candles);
    BuysFollowSells(BuyPrice(c, i), SellPrice(c, i), start, candles);
    hide BuyPrice, SellPrice, Threshold, UnitsAt, BuyPass, SellPass, Initial, SplitAt;
    if candles == [] {
      InitialSlot(c, start, Levels(c), i);
    } else {
      var front, candle := candles[..|candles| - 1], candles[|candles| - 1];
      SlotsRunAlone(c, start, front, i);
      GridIsAThreshold(c, start, front);
      var st := RunFrom(c, start, front);
      BuyPassSlot(c, st, candle, |st.slots|, i);
      var bought := BuyPass(c, st, candle, |st.slots|);
      SellPassSlot(c, bought, candle, |bought.slots|, i);
    }
  }

  // ----- capital -----

  /** A long-only grid over positive prices with non-negative capital and lot size. */
  ghost predicate Funded(c: Config) {
    c.pMin > 0.0 && c.capital >= 0.0 && c.minLot >= 0.0 && c.nLevels > 0
  }

  lemma FundedIsPriced(c: Config)
    requires Funded(c)
    ensures Priced(c) && forall i :: 0 <= i < Levels(c) ==> BuyPrice(c, i) > 0.0
  {
    forall i | 0 <= i < Levels(c)
      ensures BuyPrice(c, i) > 0.0
    {
      if i > 0 {
        PricesRise(c, 0, i);
      }
    }
  }

  /** Flooring to whole lots never spends more than the level's share. */
  lemma UnitsFit(c: Config, price: real)
    requires Funded(c) && price > 0.0
    ensures UnitsAt(c, price) >= 0.0 && price * UnitsAt(c, price) <= CapitalPerLevel(c)
  {
    var share := CapitalPerLevel(c);
    assert share >= 0.0;
    var raw := share / price;
    assert price * raw == share && raw >= 0.0;
    if c.minLot != 0.0 {
      FloorFits(raw, c.minLot);
      assert price * UnitsAt(c, price) <= price * raw by {
        Scale(price, UnitsAt(c, price), raw);
      }
    }
  }

  lemma FloorFits(raw: real, lot: real)
    requires raw >= 0.0 && lot > 0.0
    ensures 0.0 <= (raw / lot).Floor as real * lot <= raw
  {
    var q := raw / lot;
    assert q * lot == raw && q >= 0.0;
    Scale(lot, q.Floor as real, q);
    assert q.Floor as real >= 0.0;
  }

  lemma Scale(k: real, x: real, y: real)
    requires k > 0.0 && x <= y
    ensures k * x <= k * y && x * k <= y * k
  {
    assert k * (y - x) >= 0.0;
  }

  lemma {:induction false} CostIsShared(slots: seq<Slot>, share: real, close: real)
    requires share >= 0.0
    requires forall i :: 0 <= i < |slots| ==> slots[i].units >= 0.0 && 0.0 <= slots[i].buyPrice * slots[i].units <= share
    ensures 0.0 <= InventoryCost(slots) <= |slots| as real * share
    ensures close >= 0.0 ==> InventoryValue(slots, close) >= 0.0
  {
    if slots != [] {
      var front, s := slots[..|slots| - 1], slots[|slots| - 1];
      assert forall i :: 0 <= i < |front| ==> front[i] == slots[i];
      CostIsShared(front, share, close);
      assert |slots| as real * share == |front| as real * share + share;
      if close >= 0.0 {
        assert close * s.units >= 0.0;
      }
    }
  }

  lemma InventoryIsFunded(c: Config, slots: seq<Slot>, close: real)
    requires Funded(c) && Priced(c) && Laid(c, slots)
    ensures 0.0 <= InventoryCost(slots) <= c.capital
    ensures close >= 0.0 ==> InventoryValue(slots, close) >= 0.0
  {
    hide BuyPrice, SellPrice, UnitsAt, CapitalPerLevel, InventoryCost, InventoryValue;
    FundedIsPriced(c);
    var share := CapitalPerLevel(c);
    SharesAddUp(c);
    forall i | 0 <= i < |slots|
      ensures slots[i].units >= 0.0 && 0.0 <= slots[i].buyPrice * slots[i].units <= share
    {
      UnitsFit(c, BuyPrice(c, i));
      ProductIsNonNegative(BuyPrice(c, i), UnitsAt(c, BuyPrice(c, i)));
    }
    CostIsShared(slots, share, close);
  }

  lemma SharesAddUp(c: Config)
    requires Funded(c)
    ensures CapitalPerLevel(c) >= 0.0 && Levels(c) as real * CapitalPerLevel(c) == c.capital
  {
  }

  ghost predicate SnapshotsFunded(c: Config, snapshots: seq<Snapshot>) {
    forall i :: 0 <= i < |snapshots| ==>
      && 0.0 <= snapshots[i].inventory <= c.capital
      && 0.0 <= snapshots[i].loss
      && (snapshots[i].close >= 0.0 ==> snapshots[i].loss <= snapshots[i].inventory)
      && snapshots[i].activeBuys <= Levels(c)
  }

  /** At every candle the money tied up in unsold slots is within the grid's capital, and so is the paper loss. */
  lemma {:induction false} CapitalIsNeverExceeded(c: Config, start: real, candles: seq<GridCandle>)
    requires Funded(c) && Priced(c)
    ensures |RunFrom(c, start, candles).snapshots| == |candles|
    ensures SnapshotsFunded(c, RunFrom(c, start, candles).snapshots)
    ensures 0.0 <= InventoryCost(RunFrom(c, start, candles).slots) <= c.capital
  {
    hide BuyPass, SellPass, Initial, InventoryCost, InventoryValue, Laid, SplitAt, CountBuying;
    GridIsAThreshold(c, start, candles);
    var st := RunFrom(c, start, candles);
    InventoryIsFunded(c, st.slots, 0.0);
    if candles != [] {
      var front, candle := candles[..|candles| - 1], candles[|candles| - 1];
      CapitalIsNeverExceeded(c, start, front);
      var before := RunFrom(c, start, front);
      BuyPassSnapshots(c, before, candle, |before.slots|);
      var bought := BuyPass(c, before, candle, |before.slots|);
      SellPassSnapshots(c, bought, candle, |bought.slots|);
      InventoryIsFunded(c, st.slots, candle.close);
      SplitCount(st.slots, Threshold(c, start, candles));
      SplitWithin(c, st.slots, Threshold(c, start, candles));
    }
  }

  lemma SplitWithin(c: Config, slots: seq<Slot>, k: nat)
    requires Priced(c) && Laid(c, slots) && SplitAt(slots, k)
    ensures k <= Levels(c)
  {
  }

  lemma {:induction false} BuyPassSnapshots(c: Config, st: State, candle: GridCandle, n: nat)
    requires n <= |st.slots|
    ensures BuyPass(c, st, candle, n).snapshots == st.snapshots
  {
    if n > 0 {
      BuyPassSnapshots(c, st, candle, n - 1);
    }
  }

  lemma {:induction false} SellPassSnapshots(c: Config, st: State, candle: GridCandle, n: nat)
    requires n <= |st.slots|
    ensures SellPass(c, st, candle, n).snapshots == st.snapshots
  {
    if n > 0 {
      SellPassSnapshots(c, st, candle, n - 1);
    }
  }

  // ----- the two percentages of the report (grid_metrics.py) -----

  function MaxLoss(snapshots: seq<Snapshot>): real {
    if snapshots == [] then 0.0
    else if |snapshots| == 1 then snapshots[0].loss
    else Max(MaxLoss(snapshots[..|snapshots| - 1]), snapshots[|snapshots| - 1].loss)
  }

  function ActiveCandles(snapshots: seq<Snapshot>): nat {
    if snapshots == [] then 0
    else ActiveCandles(snapshots[..|snapshots| - 1]) + (if snapshots[|snapshots| - 1].activeBuys >= 1 then 1 else 0)
  }

  function Percentage(numerator: real, denominator: real): real {
    if denominator == 0.0 then 0.0 else numerator / denominator * 100.0
  }

  lemma PercentageInRange(x: real, y: real)
    requires 0.0 <= x <= y
    ensures 0.0 <= Percentage(x, y) <= 100.0
  {
    if y != 0.0 {
      var q := x / y;
      assert q * y == x;
    }
  }

  lemma {:induction false} LossIsFunded(c: Config, snapshots: seq<Snapshot>)
    requires c.capital >= 0.0 && SnapshotsFunded(c, snapshots)
    requires forall i :: 0 <= i < |snapshots| ==> snapshots[i].close >= 0.0
    ensures 0.0 <= MaxLoss(snapshots) <= c.capital && ActiveCandles(snapshots) <= |snapshots|
  {
    if snapshots != [] {
      var front := snapshots[..|snapshots| - 1];
      assert forall i :: 0 <= i < |front| ==> front[i] == snapshots[i];
      LossIsFunded(c, front);
    }
  }

  /** For non-negative closes the reported drawdown and utilization are genuine percentages. */
  lemma ReportIsInRange(c: Config, start: real, candles: seq<GridCandle>)
    requires Funded(c) && Priced(c)
    requires forall i :: 0 <= i < |candles| ==> candles[i].close >= 0.0
    ensures
      var snapshots := RunFrom(c, start, candles).snapshots;
      && 0.0 <= Percentage(MaxLoss(snapshots), c.capital) <= 100.0
      && 0.0 <= Percentage(ActiveCandles(snapshots) as real, |snapshots| as real) <= 100.0
  {
    hide RunFrom, MaxLoss, ActiveCandles, Percentage;
    CapitalIsNeverExceeded(c, start, candles);
    SnapshotCloses(c, start, candles);
    var snapshots := RunFrom(c, start, candles).snapshots;
    LossIsFunded(c, snapshots);
    PercentageInRange(MaxLoss(snapshots), c.capital);
    PercentageInRange(ActiveCandles(snapshots) as real, |snapshots| as real);
  }

  lemma {:induction false} SnapshotCloses(c: Config, start: real, candles: seq<GridCandle>)
    requires Priced(c)
    ensures |RunFrom(c, start, candles).snapshots| == |candles|
    ensures forall i :: 0 <= i < |candles| ==> RunFrom(c, start, candles).snapshots[i].close == candles[i].close
  {
    if candles != [] {
      var front, candle := candles[..|candles| - 1], candles[|candles| - 1];
      SnapshotCloses(c, start, front);
      var before := RunFrom(c, start, front);
      BuyPassSnapshots(c, before, candle, |before.slots|);
      var bought := BuyPass(c, before, candle, |before.slots|);
      SellPassSnapshots(c, bought, candle, |bought.slots|);
      assert forall i :: 0 <= i < |front| ==> front[i] == candles[i];
    }
  }
}

/** backend/grid_engine/grid_config.py, grid_state.py and grid_backtester.py: buy and sell slots driven by candles. */
module Grid {
  import opened Prelude

  datatype GridConfig = GridConfig(
    pMin: real, pMax: real, nLevels: int, capital: real, fee: real, minLot: real)

  /** A configuration that passed its own construction check. */
  type Config = c: GridConfig | c.pMin < c.pMax witness GridConfig(1.0, 2.0, 1, 0.0, 0.0, 0.0)

  datatype Status = WaitingBuy | Holding | WaitingSell

  datatype Slot = Slot(
    level: nat, buyPrice: real, sellPrice: real, units: real, status: Status,
    buyFill: real, sellFill: real, cycles: nat, realized: real)

  datatype GridCandle = GridCandle(openTime: int, open: real, high: real, low: real, close: real)

  datatype Snapshot = Snapshot(openTime: int, close: real, inventory: real, loss: real, activeBuys: nat)

  datatype State = State(
    slots: seq<Slot>, fees: real, gross: real, inventory: real, snapshots: seq<Snapshot>)

  // ----- prices -----

  function Levels(c: Config): nat {
    if c.nLevels <= 0 then 0 else c.nLevels
  }

  function Step(c: Config): real
    requires c.nLevels != 0
  {
    (c.pMax - c.pMin) / c.nLevels as real
  }

  function CapitalPerLevel(c: Config): real
    requires c.nLevels != 0
  {
    c.capital / c.nLevels as real
  }

  function BuyPrice(c: Config, i: nat): real
    requires i < Levels(c)
  {
    c.pMin + i as real * Step(c)
  }

  function SellPrice(c: Config, i: nat): real
    requires i < Levels(c)
  {
    BuyPrice(c, i) + Step(c)
  }

  /** No level sits at price zero; sizing such a level divides by zero in the source. */
  ghost predicate Priced(c: Config) {
    forall i :: 0 <= i < Levels(c) ==> BuyPrice(c, i) != 0.0
  }

  function UnitsAt(c: Config, price: real): real
    requires c.nLevels != 0 && price != 0.0
  {
    var raw := CapitalPerLevel(c) / price;
    if c.minLot == 0.0 then raw else (raw / c.minLot).Floor as real * c.minLot
  }

  // ----- one slot -----

  function FreshSlot(c: Config, i: nat, start: real): Slot
    requires i < Levels(c) && BuyPrice(c, i) != 0.0
  {
    var buy := BuyPrice(c, i);
    var held := buy >= start;
    Slot(i, buy, SellPrice(c, i), UnitsAt(c, buy),
         if held then WaitingSell else WaitingBuy, if held then buy else 0.0, 0.0, 0, 0.0)
  }

  function BuyFee(c: Config, s: Slot): real {
    s.units * s.buyPrice * c.fee
  }

  function SellFee(c: Config, s: Slot): real {
    s.units * s.sellPrice * c.fee
  }

  function CycleGross(s: Slot): real {
    s.units * (s.sellPrice - s.buyPrice)
  }

  predicate Buys(s: Slot, candle: GridCandle) {
    s.status == WaitingBuy && candle.low <= s.buyPrice
  }

  predicate Sells(s: Slot, candle: GridCandle) {
    s.status == WaitingSell && candle.high >= s.sellPrice
  }

  function AfterBuy(s: Slot): Slot {
    s.(status := WaitingSell, buyFill := s.buyPrice)
  }

  function AfterSell(c: Config, s: Slot): Slot {
    s.(status := WaitingBuy, sellFill := s.sellPrice, cycles := s.cycles + 1,
       realized := s.realized + (CycleGross(s) - SellFee(c, s)))
  }

  // ----- passes over the slots, left to right -----

  function BuySlot(c: Config, st: State, candle: GridCandle, i: nat): State
    requires i < |st.slots|
  {
    var s := st.slots[i];
    if Buys(s, candle) then st.(slots := st.slots[i := AfterBuy(s)], fees := st.fees + BuyFee(c, s)) else st
  }

  function SellSlot(c: Config, st: State, candle: GridCandle, i: nat): State
    requires i < |st.slots|
  {
    var s := st.slots[i];
    if Sells(s, candle) then
      st.(slots := st.slots[i := AfterSell(c, s)], gross := st.gross + CycleGross(s), fees := st.fees + SellFee(c, s))
    else st
  }

  function BuyPass(c: Config, st: State, candle: GridCandle, n: nat): (r: State)
    requires n <= |st.slots|
    ensures |r.slots| == |st.slots|
  {
    if n == 0 then st else BuySlot(c, BuyPass(c, st, candle, n - 1), candle, n - 1)
  }

  function SellPass(c: Config, st: State, candle: GridCandle, n: nat): (r: State)
    requires n <= |st.slots|
    ensures |r.slots| == |st.slots|
  {
    if n == 0 then st else SellSlot(c, SellPass(c, st, candle, n - 1), candle, n - 1)
  }

  /** Cost of the bought and unsold slots. */
  function InventoryCost(slots: seq<Slot>): real {
    if slots == [] then 0.0
    else
      var s := slots[|slots| - 1];
      InventoryCost(slots[..|slots| - 1]) + (if s.status == WaitingSell then s.buyPrice * s.units else 0.0)
  }

  function InventoryValue(slots: seq<Slot>, price: real): real {
    if slots == [] then 0.0
    else
      var s := slots[|slots| - 1];
      InventoryValue(slots[..|slots| - 1], price) + (if s.status == WaitingSell then price * s.units else 0.0)
  }

  function CountBuying(slots: seq<Slot>): nat {
    if slots == [] then 0
    else CountBuying(slots[..|slots| - 1]) + (if slots[|slots| - 1].status == WaitingBuy then 1 else 0)
  }

  function Record(st: State, candle: GridCandle): State {
    var cost := InventoryCost(st.slots);
    var loss := Max(0.0, cost - InventoryValue(st.slots, candle.close));
    st.(inventory := cost,
        snapshots := st.snapshots + [Snapshot(candle.openTime, candle.close, cost, loss, CountBuying(st.slots))])
  }

  function StartPrice(c: Config, candles: seq<GridCandle>): real {
    if candles != [] then candles[0].open else c.pMin
  }

  function Initial(c: Config, start: real, n: nat): (r: State)
    requires n <= Levels(c) && Priced(c)
    ensures |r.slots| == n && r.snapshots == []
  {
    if n == 0 then State([], 0.0, 0.0, 0.0, [])
    else
      var st := Initial(c, start, n - 1);
      var s := FreshSlot(c, n - 1, start);
      st.(slots := st.slots + [s], fees := if s.status == WaitingSell then st.fees + BuyFee(c, s) else st.fees)
  }

  function StepCandle(c: Config, st: State, candle: GridCandle): State {
    var bought := BuyPass(c, st, candle, |st.slots|);
    Record(SellPass(c, bought, candle, |bought.slots|), candle)
  }

  function RunFrom(c: Config, start: real, candles: seq<GridCandle>): State
    requires Priced(c)
  {
    if candles == [] then Initial(c, start, Levels(c))
    else StepCandle(c, RunFrom(c, start, candles[..|candles| - 1]), candles[|candles| - 1])
  }

  function RunGrid(c: Config, candles: seq<GridCandle>): State
    requires Priced(c)
  {
    RunFrom(c, StartPrice(c, candles), candles)
  }

  // ----- the backtester, in its own imperative form -----

  class GridState {
    const config: Config
    var slots: seq<Slot>
    var totalFeesPaid: real
    var totalGrossProfit: real
    var unrealizedInventory: real
    var candleSnapshots: seq<Snapshot>

    constructor (config: Config)
      ensures this.config == config && View() == State([], 0.0, 0.0, 0.0, [])
    {
      this.config := config;
      slots, candleSnapshots := [], [];
      totalFeesPaid, totalGrossProfit, unrealizedInventory := 0.0, 0.0, 0.0;
    }

    function View(): State
      reads this
    {
      State(slots, totalFeesPaid, totalGrossProfit, unrealizedInventory, candleSnapshots)
    }

    method AddSlots(start: real)
      requires Priced(config) && View() == State([], 0.0, 0.0, 0.0, [])
      modifies this
      ensures View() == Initial(config, start, Levels(config))
    {
      for level := 0 to Levels(config)
        invariant View() == Initial(config, start, level)
      {
        var slot := FreshSlot(config, level, start);
        if slot.status == WaitingSell {
          totalFeesPaid := totalFeesPaid + BuyFee(config, slot);
        }
        slots := slots + [slot];
      }
    }

    method ProcessBuyFills(candle: GridCandle)
      modifies this
      ensures View() == BuyPass(config, old(View()), candle, |old(slots)|)
    {
      ghost var before := View();
      for i := 0 to |slots|
        invariant |slots| == |before.slots|
        invariant View() == BuyPass(config, before, candle, i)
      {
        var slot := slots[i];
        if slot.status != WaitingBuy || candle.low > slot.buyPrice {
          continue;
        }
        slots := slots[i := AfterBuy(slot)];
        totalFeesPaid := totalFeesPaid + BuyFee(config, slot);
      }
    }

    method ProcessSellFills(candle: GridCandle)
      modifies this
      ensures View() == SellPass(config, old(View()), candle, |old(slots)|)
    {
      ghost var before := View();
      for i := 0 to |slots|
        invariant |slots| == |before.slots|
        invariant View() == SellPass(config, before, candle, i)
      {
        var slot := slots[i];
        if slot.status != WaitingSell || candle.high < slot.sellPrice {
          continue;
        }
        slots := slots[i := AfterSell(config, slot)];
        totalGrossProfit := totalGrossProfit + CycleGross(slot);
        totalFeesPaid := totalFeesPaid + SellFee(config, slot);
      }
    }

    method RecordSnapshot(candle: GridCandle)
      modifies this
      ensures View() == Record(old(View()), candle)
    {
      var cost, value, active := 0.0, 0.0, 0;
      for i := 0 to |slots|
        invariant View() == old(View())
        invariant cost == InventoryCost(slots[..i])
        invariant value == InventoryValue(slots[..i], candle.close)
        invariant active == CountBuying(slots[..i])
      {
        var slot := slots[i];
        assert slots[..i + 1][..i] == slots[..i];
        if slot.status == WaitingSell {
          cost := cost + slot.buyPrice * slot.units;
          value := value + candle.close * slot.units;
        }
        if slot.status == WaitingBuy {
          active := active + 1;
        }
      }
      assert slots[..|slots|] == slots;
      unrealizedInventory := cost;
      candleSnapshots := candleSnapshots + [Snapshot(candle.openTime, candle.close, cost, Max(0.0, cost - value), active)];
    }
  }

  method RunGridBacktest(config: Config, candles: seq<GridCandle>) returns (state: GridState)
    requires Priced(config)
    ensures fresh(state) && state.config == config
    ensures state.View() == RunGrid(config, candles)
  {
    state := new GridState(config);
    state.AddSlots(StartPrice(config, candles));
    for i := 0 to |candles|
      invariant state.config == config && fresh(state)
      invariant state.View() == RunFrom(config, StartPrice(config, candles), candles[..i])
    {
      assert candles[..i + 1][..i] == candles[..i];
      state.ProcessBuyFills(candles[i]);
      state.ProcessSellFills(candles[i]);
      state.RecordSnapshot(candles[i]);
    }
    assert candles[..|candles|] == candles;
  }
}

/** The slots of a grid collapse to one integer: how many of the lowest levels are waiting to buy. */
module GridThreshold {
  import opened Prelude
  import opened Grid

  // ----- prices rise with the level -----

  lemma PricesRise(c: Config, i: nat, j: nat)
    requires i < j < Levels(c)
    ensures BuyPrice(c, i) < BuyPrice(c, j) && SellPrice(c, i) < SellPrice(c, j)
  {
    var step := Step(c);
    assert step > 0.0;
    assert j as real * step == i as real * step + (j - i) as real * step;
    assert (j - i) as real * step > 0.0;
  }

  /** Number of the first n levels that buy strictly below a price. */
  function BuysBelow(c: Config, price: real, n: nat): nat
    requires n <= Levels(c)
  {
    if n == 0 then 0 else BuysBelow(c, price, n - 1) + (if BuyPrice(c, n - 1) < price then 1 else 0)
  }

  /** Number of the first n levels that sell at or below a price. */
  function SellsUpTo(c: Config, price: real, n: nat): nat
    requires n <= Levels(c)
  {
    if n == 0 then 0 else SellsUpTo(c, price, n - 1) + (if SellPrice(c, n - 1) <= price then 1 else 0)
  }

  lemma {:induction false} BuysBelowIsAPrefix(c: Config, price: real, n: nat, i: nat)
    requires i < n <= Levels(c)
    ensures BuysBelow(c, price, n) <= n
    ensures i < BuysBelow(c, price, n) <==> BuyPrice(c, i) < price
  {
    hide BuyPrice;
    if i < n - 1 {
      BuysBelowIsAPrefix(c, price, n - 1, i);
      PricesRise(c, i, n - 1);
      if BuyPrice(c, n - 1) < price {
        BuysBelowIsAPrefix(c, price, n - 1, n - 2);
        PricesRise(c, n - 2, n - 1);
      }
    } else if n > 1 {
      BuysBelowIsAPrefix(c, price, n - 1, n - 2);
      PricesRise(c, n - 2, n - 1);
    }
  }

  lemma {:induction false} SellsUpToIsAPrefix(c: Config, price: real, n: nat, i: nat)
    requires i < n <= Levels(c)
    ensures SellsUpTo(c, price, n) <= n
    ensures i < SellsUpTo(c, price, n) <==> SellPrice(c, i) <= price
  {
    hide SellPrice;
    if i < n - 1 {
      SellsUpToIsAPrefix(c, price, n - 1, i);
      PricesRise(c, i, n - 1);
      if SellPrice(c, n - 1) <= price {
        SellsUpToIsAPrefix(c, price, n - 1, n - 2);
        PricesRise(c, n - 2, n - 1);
      }
    } else if n > 1 {
      SellsUpToIsAPrefix(c, price, n - 1, n - 2);
      PricesRise(c, n - 2, n - 1);
    }
  }

  // ----- the threshold machine -----

  function MaxOf(a: nat, b: nat): nat {
    if a < b then b else a
  }

  function MinOf(a: nat, b: nat): nat {
    if a < b then a else b
  }

  function ThresholdAfterBuys(c: Config, k: nat, candle: GridCandle): nat {
    MinOf(k, BuysBelow(c, candle.low, Levels(c)))
  }

  function ThresholdStep(c: Config, k: nat, candle: GridCandle): nat {
    MaxOf(ThresholdAfterBuys(c, k, candle), SellsUpTo(c, candle.high, Levels(c)))
  }

  function Threshold(c: Config, start: real, candles: seq<GridCandle>): nat {
    if candles == [] then BuysBelow(c, start, Levels(c))
    else ThresholdStep(c, Threshold(c, start, candles[..|candles| - 1]), candles[|candles| - 1])
  }

  /** Levels crossed upwards by the threshold, candle by candle. */
  function Crossings(c: Config, start: real, candles: seq<GridCandle>): nat {
    if candles == [] then 0
    else
      var front, candle := candles[..|candles| - 1], candles[|candles| - 1];
      var k := Threshold(c, start, front);
      Crossings(c, start, front) + (ThresholdStep(c, k, candle) - ThresholdAfterBuys(c, k, candle))
  }

  // ----- what a pass does to each slot -----

  lemma {:induction false} BuyPassSlot(c: Config, st: State, candle: GridCandle, n: nat, i: nat)
    requires i < |st.slots| && n <= |st.slots|
    ensures BuyPass(c, st, candle, n).slots[i]
         == if i < n && Buys(st.slots[i], candle) then AfterBuy(st.slots[i]) else st.slots[i]
  {
    if n > 0 {
      BuyPassSlot(c, st, candle, n - 1, i);
      BuyPassSlot(c, st, candle, n - 1, n - 1);
    }
  }

  lemma {:induction false} SellPassSlot(c: Config, st: State, candle: GridCandle, n: nat, i: nat)
    requires i < |st.slots| && n <= |st.slots|
    ensures SellPass(c, st, candle, n).slots[i]
         == if i < n && Sells(st.slots[i], candle) then AfterSell(c, st.slots[i]) else st.slots[i]
  {
    if n > 0 {
      SellPassSlot(c, st, candle, n - 1, i);
      SellPassSlot(c, st, candle, n - 1, n - 1);
    }
  }

  // ----- every reachable state -----

  /** Slot i still carries the prices and size the configuration gives level i. */
  ghost predicate Laid(c: Config, slots: seq<Slot>)
    requires Priced(c)
  {
    && |slots| == Levels(c)
    && forall i :: 0 <= i < |slots| ==>
         && slots[i].level == i
         && slots[i].buyPrice == BuyPrice(c, i) && slots[i].sellPrice == SellPrice(c, i)
         && slots[i].units == UnitsAt(c, BuyPrice(c, i))
  }

  /** The first k slots wait to buy and all later ones wait to sell. */
  ghost predicate SplitAt(slots: seq<Slot>, k: nat) {
    && k <= |slots|
    && forall i :: 0 <= i < |slots| ==> slots[i].status == if i < k then WaitingBuy else WaitingSell
  }

  lemma {:induction false} InitialSlot(c: Config, start: real, n: nat, i: nat)
    requires i < n <= Levels(c) && Priced(c)
    ensures Initial(c, start, n).slots[i] == FreshSlot(c, i, start)
  {
    if i < n - 1 {
      InitialSlot(c, start, n - 1, i);
    }
  }

  lemma InitialIsSplit(c: Config, start: real)
    requires Priced(c)
    ensures Laid(c, Initial(c, start, Levels(c)).slots)
    ensures SplitAt(Initial(c, start, Levels(c)).slots, BuysBelow(c, start, Levels(c)))
  {
    var n := Levels(c);
    var slots := Initial(c, start, n).slots;
    if n > 0 {
      BuysBelowIsAPrefix(c, start, n, 0);
    }
    forall i | 0 <= i < n
      ensures slots[i] == FreshSlot(c, i, start)
      ensures i < BuysBelow(c, start, n) <==> BuyPrice(c, i) < start
    {
      InitialSlot(c, start, n, i);
      BuysBelowIsAPrefix(c, start, n, i);
    }
  }

  lemma BuysLowerTheThreshold(c: Config, st: State, k: nat, candle: GridCandle)
    requires Priced(c) && Laid(c, st.slots) && SplitAt(st.slots, k)
    ensures
      var bought := BuyPass(c, st, candle, |st.slots|);
      Laid(c, bought.slots) && SplitAt(bought.slots, ThresholdAfterBuys(c, k, candle))
  {
    hide BuyPrice, SellPrice, UnitsAt;
    var n := |st.slots|;
    var bought := BuyPass(c, st, candle, n);
    forall i | 0 <= i < n
      ensures bought.slots[i] == if Buys(st.slots[i], candle) then AfterBuy(st.slots[i]) else st.slots[i]
      ensures i < BuysBelow(c, candle.low, n) <==> st.slots[i].buyPrice < candle.low
    {
      BuyPassSlot(c, st, candle, n, i);
      BuysBelowIsAPrefix(c, candle.low, n, i);
    }
  }

  lemma SellsRaiseTheThreshold(c: Config, st: State, k: nat, candle: GridCandle)
    requires Priced(c) && Laid(c, st.slots) && SplitAt(st.slots, k)
    ensures
      var sold := SellPass(c, st, candle, |st.slots|);
      Laid(c, sold.slots) && SplitAt(sold.slots, MaxOf(k, SellsUpTo(c, candle.high, Levels(c))))
  {
    hide BuyPrice, SellPrice, UnitsAt, SellPass;
    var n := |st.slots|;
    var sold := SellPass(c, st, candle, n);
    if n > 0 {
      SellsUpToIsAPrefix(c, candle.high, n, 0);
    }
    forall i | 0 <= i < n
      ensures sold.slots[i] == if Sells(st.slots[i], candle) then AfterSell(c, st.slots[i]) else st.slots[i]
      ensures i < SellsUpTo(c, candle.high, n) <==> st.slots[i].sellPrice <= candle.high
    {
      SellPassSlot(c, st, candle, n, i);
      SellsUpToIsAPrefix(c, candle.high, n, i);
    }
  }

  /** For any candles, the slots are split at the threshold machine's value: the loops over slots refine one
      integer. */
  lemma {:induction false} GridIsAThreshold(c: Config, start: real, candles: seq<GridCandle>)
    requires Priced(c)
    ensures Laid(c, RunFrom(c, start, candles).slots)
    ensures SplitAt(RunFrom(c, start, candles).slots, Threshold(c, start, candles))
  {
    hide Laid, SplitAt, BuyPass, SellPass, Initial;
    if candles == [] {
      InitialIsSplit(c, start);
    } else {
      var front, candle := candles[..|candles| - 1], candles[|candles| - 1];
      GridIsAThreshold(c, start, front);
      var st := RunFrom(c, start, front);
      BuysLowerTheThreshold(c, st, Threshold(c, start, front), candle);
      SellsRaiseTheThreshold(c, BuyPass(c, st, candle, |st.slots|), ThresholdAfterBuys(c, Threshold(c, start, front), candle), candle);
    }
  }

  lemma {:induction false} SplitCount(slots: seq<Slot>, k: nat)
    requires SplitAt(slots, k)
    ensures CountBuying(slots) == k
  {
    if slots != [] {
      var front := slots[..|slots| - 1];
      SplitCount(front, MinOf(k, |front|));
    }
  }

  // ----- completed cycles -----

  function CompletedCycles(slots: seq<Slot>): nat {
    if slots == [] then 0 else CompletedCycles(slots[..|slots| - 1]) + slots[|slots| - 1].cycles
  }

  lemma {:induction false} CyclesUpdate(slots: seq<Slot>, i: nat, s: Slot)
    requires i < |slots|
    ensures CompletedCycles(slots[i := s]) == CompletedCycles(slots) - slots[i].cycles + s.cycles
  {
    var front := slots[..|slots| - 1];
    if i == |slots| - 1 {
      assert slots[i := s][..|slots| - 1] == front;
    } else {
      CyclesUpdate(front, i, s);
      assert slots[i := s][..|slots| - 1] == front[i := s];
    }
  }

  lemma {:induction false} BuyPassCycles(c: Config, st: State, candle: GridCandle, n: nat)
    requires n <= |st.slots|
    ensures CompletedCycles(BuyPass(c, st, candle, n).slots) == CompletedCycles(st.slots)
  {
    if n > 0 {
      BuyPassCycles(c, st, candle, n - 1);
      var before := BuyPass(c, st, candle, n - 1);
      CyclesUpdate(before.slots, n - 1, AfterBuy(before.slots[n - 1]));
    }
  }

  lemma SellStepCycles(c: Config, st: State, candle: GridCandle, n: nat)
    requires n < |st.slots|
    ensures CompletedCycles(SellPass(c, st, candle, n + 1).slots)
         == CompletedCycles(SellPass(c, st, candle, n).slots) + (if Sells(st.slots[n], candle) then 1 else 0)
  {
    hide CompletedCycles;
    var before := SellPass(c, st, candle, n);
    SellPassSlot(c, st, candle, n, n);
    CyclesUpdate(before.slots, n, AfterSell(c, before.slots[n]));
  }

  lemma {:induction false} SellPassCycles(c: Config, st: State, k: nat, candle: GridCandle, n: nat)
    requires Priced(c) && Laid(c, st.slots) && SplitAt(st.slots, k) && n <= |st.slots|
    ensures CompletedCycles(SellPass(c, st, candle, n).slots)
         == CompletedCycles(st.slots) + (MaxOf(MinOf(k, n), MinOf(n, SellsUpTo(c, candle.high, Levels(c)))) - MinOf(k, n))
  {
    hide Laid, SplitAt, CompletedCycles, SellsUpTo, Sells;
    if n > 0 {
      SellPassCycles(c, st, k, candle, n - 1);
      SellStepCycles(c, st, candle, n - 1);
      SellsBetween(c, st.slots, k, candle, n - 1);
    }
  }

  lemma SellsBetween(c: Config, slots: seq<Slot>, k: nat, candle: GridCandle, i: nat)
    requires Priced(c) && Laid(c, slots) && SplitAt(slots, k) && i < |slots|
    ensures Sells(slots[i], candle) <==> k <= i < SellsUpTo(c, candle.high, Levels(c))
  {
    SellsUpToIsAPrefix(c, candle.high, Levels(c), i);
  }

  lemma {:induction false} InitialCycles(c: Config, start: real, n: nat)
    requires n <= Levels(c) && Priced(c)
    ensures CompletedCycles(Initial(c, start, n).slots) == 0
  {
    if n > 0 {
      InitialCycles(c, start, n - 1);
      var slots := Initial(c, start, n).slots;
      assert slots[..n - 1] == Initial(c, start, n - 1).slots;
    }
  }

  /** The completed cycles are the upward crossings of the threshold, and the orders waiting to buy are the
      threshold itself. */
  lemma {:induction false} CyclesAreCrossings(c: Config, start: real, candles: seq<GridCandle>)
    requires Priced(c)
    ensures CompletedCycles(RunFrom(c, start, candles).slots) == Crossings(c, start, candles)
    ensures CountBuying(RunFrom(c, start, candles).slots) == Threshold(c, start, candles)
  {
    hide BuyPass, SellPass, Initial, CompletedCycles, BuysBelow, SellsUpTo;
    GridIsAThreshold(c, start, candles);
    SplitCount(RunFrom(c, start, candles).slots, Threshold(c, start, candles));
    if candles == [] {
      InitialCycles(c, start, Levels(c));
    } else {
      var front, candle := candles[..|candles| - 1], candles[|candles| - 1];
      CyclesAreCrossings(c, start, front);
      GridIsAThreshold(c, start, front);
      var st, k := RunFrom(c, start, front), Threshold(c, start, front);
      var n := |st.slots|;
      BuysLowerTheThreshold(c, st, k, candle);
      BuyPassCycles(c, st, candle, n);
      SellPassCycles(c, BuyPass(c, st, candle, n), ThresholdAfterBuys(c, k, candle), candle, n);
      SellsRaiseTheThreshold(c, BuyPass(c, st, candle, n), ThresholdAfterBuys(c, k, candle), candle);
    }
  }
}

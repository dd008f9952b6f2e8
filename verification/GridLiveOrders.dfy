/** What a live session orders and earns, in terms of its level share and the prices of its rows. */
module GridLiveOrders {
  import opened Prelude
  import opened GridLive
  import opened GridLiveLaws

  /** Every accepted order has its row's price for its side and the row's share as quantity. */
  ghost predicate OrdersPriced(g: Session) {
    forall k :: 0 <= k < |g.placed| ==>
      var o := g.placed[k];
      && o.slot < |g.slots| && g.slots[o.slot].buyPrice != 0.0
      && o.price == (if o.side == Buy then g.slots[o.slot].buyPrice else g.slots[o.slot].sellPrice)
      && o.qty == g.perLevel / g.slots[o.slot].buyPrice
  }

  /** Same rows as far as the prices go, same share. */
  ghost predicate SamePrices(g: Session, h: Session) {
    && |h.slots| == |g.slots| && h.perLevel == g.perLevel
    && forall i :: 0 <= i < |g.slots| ==>
         h.slots[i].buyPrice == g.slots[i].buyPrice && h.slots[i].sellPrice == g.slots[i].sellPrice
  }

  lemma StartSlotPrices(g: Session, price: real, i: nat)
    requires OrdersPriced(g) && i < |g.slots| && g.slots[i].buyPrice != 0.0
    ensures OrdersPriced(StartSlot(g, price, i)) && SamePrices(g, StartSlot(g, price, i))
  {
  }

  lemma {:induction false} StartToPrices(g: Session, price: real, n: nat)
    requires OrdersPriced(g) && Priced(g) && n <= |g.slots|
    ensures OrdersPriced(StartTo(g, price, n)) && SamePrices(g, StartTo(g, price, n))
  {
    hide OrdersPriced, StartSlot;
    if n > 0 {
      StartToPrices(g, price, n - 1);
      StartSlotPrices(StartTo(g, price, n - 1), price, n - 1);
    }
  }

  lemma FillPrices(g: Session, id: nat, side: Side, accepted: bool)
    requires OrdersPriced(g) && Sound(g)
    ensures OrdersPriced(Filled(g, id, side, accepted)) && SamePrices(g, Filled(g, id, side, accepted))
  {
    var i := SlotFor(g.slots, id);
    if i < |g.slots| {
      assert Priced1(g, g.slots[i]);
    }
  }

  lemma StepPrices(g: Session, cmd: Command)
    requires OrdersPriced(g) && Sound(g) && Priced(g)
    ensures OrdersPriced(Apply(g, cmd)) && SamePrices(g, Apply(g, cmd))
  {
    hide Sound, StartTo, Started, Filled;
    match cmd
    case Start(price, failsAt) =>
      StartedPrices(g, price, failsAt);
    case Fill(id, side, accepted) =>
      FillPrices(g, id, side, accepted);
    case _ =>
  }

  lemma StartedPrices(g: Session, price: real, failsAt: Option<nat>)
    requires OrdersPriced(g) && Priced(g)
    ensures OrdersPriced(Started(g, price, failsAt)) && SamePrices(g, Started(g, price, failsAt))
  {
    var n := if failsAt.Some? && failsAt.value < |g.slots| then failsAt.value else |g.slots|;
    StartToPrices(g, price, n);
    StatusAndRowsFree(StartTo(g, price, n), Active, StartTo(g, price, n).slots);
    StatusAndRowsFree(StartTo(g, price, n), g.status, g.slots);
  }

  /** Orders are judged by the prices of the rows alone. */
  lemma StatusAndRowsFree(g: Session, status: SessionStatus, rows: seq<SlotRow>)
    requires OrdersPriced(g) && SamePrices(g, g.(slots := rows))
    ensures OrdersPriced(g.(slots := rows, status := status))
  {
  }

  lemma {:induction false} RunPrices(g: Session, cmds: seq<Command>)
    requires OrdersPriced(g) && Sound(g) && Priced(g) && Legal(g, cmds)
    ensures OrdersPriced(After(g, cmds)) && SamePrices(g, After(g, cmds))
    decreases cmds
  {
    hide OrdersPriced, Sound, Apply;
    if cmds != [] {
      StepPrices(g, cmds[0]);
      ApplyKeepsSound(g, cmds[0]);
      RunPrices(Apply(g, cmds[0]), cmds[1..]);
    }
  }

  /** From a new session, over any run: a row keeps its prices, its orders buy at the one and sell at the other, each
      for the level's share of capital, its live orders are such orders, and it has earned the price gap on that
      share once per cycle. */
  lemma OrdersAndProfitsArePriced(g: Session, cmds: seq<Command>)
    requires Fresh(g) && Priced(g) && Legal(g, cmds)
    ensures
      var h := After(g, cmds);
      && |h.slots| == |g.slots|
      && (forall k :: 0 <= k < |h.placed| ==> h.placed[k].slot < |g.slots|)
      && (forall k :: 0 <= k < |h.placed| && h.placed[k].side == Buy ==>
            h.placed[k].price == g.slots[h.placed[k].slot].buyPrice)
      && (forall k :: 0 <= k < |h.placed| && h.placed[k].side == Sell ==>
            h.placed[k].price == g.slots[h.placed[k].slot].sellPrice)
      && (forall k :: 0 <= k < |h.placed| ==> h.placed[k].qty == g.perLevel / g.slots[h.placed[k].slot].buyPrice)
    ensures forall i :: 0 <= i < |g.slots| ==>
      var h, buy, sell := After(g, cmds), g.slots[i].buyPrice, g.slots[i].sellPrice;
      var s, share := h.slots[i], g.perLevel / buy;
      && s.buyPrice == buy && s.sellPrice == sell
      && (s.buyOrder.Some? ==> s.buyOrder.value < |h.placed| && h.placed[s.buyOrder.value] == Order(Buy, i, buy, share))
      && (s.sellOrder.Some? ==> s.sellOrder.value < |h.placed| && h.placed[s.sellOrder.value] == Order(Sell, i, sell, share))
      && s.realized == s.cycles as real * (sell - buy) * share
  {
    hide Sound, After, Legal, Wired, Priced1, Counted, OrdersPriced, SamePrices;
    var h := After(g, cmds);
    FreshIsSound(g);
    FreshHasNoOrders(g);
    RunsKeepSound(g, cmds);
    RunPrices(g, cmds);
    PlainOrders(g, h);
    forall i | 0 <= i < |g.slots|
      ensures
        var s, buy, sell := h.slots[i], g.slots[i].buyPrice, g.slots[i].sellPrice;
        var share := g.perLevel / buy;
        && s.buyPrice == buy && s.sellPrice == sell
        && (s.buyOrder.Some? ==> s.buyOrder.value < |h.placed| && h.placed[s.buyOrder.value] == Order(Buy, i, buy, share))
        && (s.sellOrder.Some? ==> s.sellOrder.value < |h.placed| && h.placed[s.sellOrder.value] == Order(Sell, i, sell, share))
        && s.realized == s.cycles as real * (sell - buy) * share
    {
      PlainRow(g, h, i);
    }
  }

  lemma FreshHasNoOrders(g: Session)
    requires Fresh(g)
    ensures OrdersPriced(g)
  {
  }

  lemma PlainOrders(g: Session, h: Session)
    requires OrdersPriced(h) && SamePrices(g, h)
    ensures forall k :: 0 <= k < |h.placed| ==>
      var o := h.placed[k];
      && o.slot < |g.slots| && g.slots[o.slot].buyPrice != 0.0
      && o.price == (if o.side == Buy then g.slots[o.slot].buyPrice else g.slots[o.slot].sellPrice)
      && o.qty == g.perLevel / g.slots[o.slot].buyPrice
  {
  }

  lemma PlainRow(g: Session, h: Session, i: nat)
    requires OrdersPriced(h) && SamePrices(g, h) && Sound(h) && i < |h.slots| && g.slots[i].buyPrice != 0.0
    ensures
      var s, buy, sell := h.slots[i], g.slots[i].buyPrice, g.slots[i].sellPrice;
      var share := g.perLevel / buy;
      && s.buyPrice == buy && s.sellPrice == sell
      && (s.buyOrder.Some? ==> s.buyOrder.value < |h.placed| && h.placed[s.buyOrder.value] == Order(Buy, i, buy, share))
      && (s.sellOrder.Some? ==> s.sellOrder.value < |h.placed| && h.placed[s.sellOrder.value] == Order(Sell, i, sell, share))
      && s.realized == s.cycles as real * (sell - buy) * share
  {
    assert Wired(h, i) && Priced1(h, h.slots[i]);
    hide Sound, Counted, Priced1, CycleProfit, OrdersPriced;
    EarnedBySize(h, h.slots[i]);
    LiveOrdersPlain(g, h, i);
  }

  lemma LiveOrdersPlain(g: Session, h: Session, i: nat)
    requires OrdersPriced(h) && SamePrices(g, h) && i < |h.slots| && Wired(h, i)
    requires g.slots[i].buyPrice != 0.0
    ensures
      var s, share := h.slots[i], g.perLevel / g.slots[i].buyPrice;
      && (s.buyOrder.Some? ==> s.buyOrder.value < |h.placed| && h.placed[s.buyOrder.value] == Order(Buy, i, g.slots[i].buyPrice, share))
      && (s.sellOrder.Some? ==> s.sellOrder.value < |h.placed| && h.placed[s.sellOrder.value] == Order(Sell, i, g.slots[i].sellPrice, share))
  {
    hide OrdersPriced, SamePrices;
    var s := h.slots[i];
    if s.buyOrder.Some? {
      PlainOrder(g, h, s.buyOrder.value);
    }
    if s.sellOrder.Some? {
      PlainOrder(g, h, s.sellOrder.value);
    }
  }

  lemma PlainOrder(g: Session, h: Session, k: nat)
    requires OrdersPriced(h) && SamePrices(g, h) && k < |h.placed|
    ensures
      var o := h.placed[k];
      && o.slot < |g.slots| && g.slots[o.slot].buyPrice != 0.0
      && o == Order(o.side, o.slot, if o.side == Buy then g.slots[o.slot].buyPrice else g.slots[o.slot].sellPrice,
                    g.perLevel / g.slots[o.slot].buyPrice)
  {
  }

  lemma EarnedBySize(g: Session, s: SlotRow)
    requires Priced1(g, s)
    ensures s.realized == s.cycles as real * (s.sellPrice - s.buyPrice) * (g.perLevel / s.buyPrice)
  {
    if s.units.Some? {
      assert s.cycles as real * ((s.sellPrice - s.buyPrice) * s.units.value)
          == s.cycles as real * (s.sellPrice - s.buyPrice) * s.units.value;
    }
  }

  // ----- one command -----

  /** Whether a start at this price arms row s with a buy order. */
  predicate Arms(s: SlotRow, price: real) {
    s.buyPrice < price && s.status == WaitingBuy && s.buyOrder == None
  }

  /** How a start treats one row: sized, marked by its price, armed or left with the order it had. */
  ghost predicate RowStarted(g: Session, h: Session, price: real, i: nat)
    requires i < |g.slots| && |h.slots| == |g.slots| && g.slots[i].buyPrice != 0.0
  {
    var s, t, share := g.slots[i], h.slots[i], g.perLevel / g.slots[i].buyPrice;
    && t == s.(units := Some(share), status := (if s.buyPrice >= price then WaitingSell else s.status), buyOrder := t.buyOrder)
    && (!Arms(s, price) ==> t.buyOrder == s.buyOrder)
    && (Arms(s, price) ==>
          && t.buyOrder.Some? && |g.placed| <= t.buyOrder.value < |h.placed|
          && h.placed[t.buyOrder.value] == Order(Buy, i, s.buyPrice, share))
  }

  function ArmedBelow(g: Session, price: real, n: nat): set<nat>
    requires n <= |g.slots|
  {
    set j: nat | j < n && Arms(g.slots[j], price)
  }

  lemma {:induction false} StartToPointwise(g: Session, price: real, n: nat)
    requires Priced(g) && n <= |g.slots|
    ensures
      var h := StartTo(g, price, n);
      && g.placed <= h.placed
      && |h.placed| == |g.placed| + |ArmedBelow(g, price, n)|
      && (forall i :: n <= i < |g.slots| ==> h.slots[i] == g.slots[i])
      && (forall i :: 0 <= i < n ==> RowStarted(g, h, price, i))
  {
    hide RowStarted, ArmedBelow, StartSlot, Arms;
    if n > 0 {
      StartToPointwise(g, price, n - 1);
      var before := StartTo(g, price, n - 1);
      var h := StartTo(g, price, n);
      StartSlotRow(g, before, price, n - 1);
      forall i | 0 <= i < n - 1
        ensures RowStarted(g, h, price, i)
      {
        RowKept(g, before, h, price, i);
      }
      ArmedGrows(g, price, n);
    } else {
      NoneArmed(g, price);
    }
  }

  lemma NoneArmed(g: Session, price: real)
    ensures ArmedBelow(g, price, 0) == {}
  {
  }

  lemma ArmedGrows(g: Session, price: real, n: nat)
    requires 0 < n <= |g.slots|
    ensures |ArmedBelow(g, price, n)| == |ArmedBelow(g, price, n - 1)| + (if Arms(g.slots[n - 1], price) then 1 else 0)
  {
    assert ArmedBelow(g, price, n) == ArmedBelow(g, price, n - 1) + if Arms(g.slots[n - 1], price) then {n - 1} else {};
  }

  lemma RowKept(g: Session, before: Session, h: Session, price: real, i: nat)
    requires i < |g.slots| == |before.slots| == |h.slots| && g.slots[i].buyPrice != 0.0
    requires RowStarted(g, before, price, i) && h.slots[i] == before.slots[i] && before.placed <= h.placed
    ensures RowStarted(g, h, price, i)
  {
  }

  lemma StartSlotRow(g: Session, before: Session, price: real, i: nat)
    requires i < |g.slots| == |before.slots| && before.perLevel == g.perLevel && before.slots[i] == g.slots[i]
    requires g.placed <= before.placed && g.slots[i].buyPrice != 0.0
    ensures
      var h := StartSlot(before, price, i);
      && |h.slots| == |g.slots| && before.placed <= h.placed && g.placed <= h.placed
      && |h.placed| == |before.placed| + (if Arms(g.slots[i], price) then 1 else 0)
      && (forall j :: 0 <= j < |g.slots| && j != i ==> h.slots[j] == before.slots[j])
      && RowStarted(g, h, price, i)
  {
  }

  /** A start of an inactive session either goes through and treats every row by its own price, or loses the exchange
      and leaves rows and status as they were while the orders accepted so far remain. */
  lemma StartIsPointwise(g: Session, price: real, failsAt: Option<nat>, i: nat)
    requires Priced(g) && g.status != Active && i < |g.slots|
    ensures
      var h := Started(g, price, failsAt);
      var reached := if failsAt.Some? && failsAt.value < |g.slots| then failsAt.value else |g.slots|;
      && h.perLevel == g.perLevel && |h.slots| == |g.slots| && g.placed <= h.placed
      && |h.placed| == |g.placed| + |set j: nat | j < reached &&
           g.slots[j].buyPrice < price && g.slots[j].status == WaitingBuy && g.slots[j].buyOrder == None|
      && (reached < |g.slots| ==> h.status == g.status && h.slots == g.slots)
      && (reached == |g.slots| ==>
            && h.status == Active
            && var s, t, share := g.slots[i], h.slots[i], g.perLevel / g.slots[i].buyPrice;
                 && t == s.(units := Some(share), status := (if s.buyPrice >= price then WaitingSell else s.status), buyOrder := t.buyOrder)
                 && if s.buyPrice < price && s.status == WaitingBuy && s.buyOrder == None
                    then t.buyOrder.Some? && |g.placed| <= t.buyOrder.value < |h.placed|
                         && h.placed[t.buyOrder.value] == Order(Buy, i, s.buyPrice, share)
                    else t.buyOrder == s.buyOrder)
  {
    hide StartTo;
    var reached := if failsAt.Some? && failsAt.value < |g.slots| then failsAt.value else |g.slots|;
    StartToPointwise(g, price, reached);
    assert ArmedBelow(g, price, reached)
        == (set j: nat | j < reached && g.slots[j].buyPrice < price && g.slots[j].status == WaitingBuy && g.slots[j].buyOrder == None);
    if reached == |g.slots| {
      assert RowStarted(g, StartTo(g, price, reached), price, i);
    }
  }

  /** An accepted replacement turns the row around: a bought row offers its units at the selling price, a sold one
      counts a cycle, books the price gap on its units and bids again; a refused one and an unknown id change
      nothing. */
  lemma FillTurnsTheRow(g: Session, id: nat, side: Side, i: nat)
    requires Sound(g) && i < |g.slots| && (g.slots[i].buyOrder == Some(id) || g.slots[i].sellOrder == Some(id))
    ensures Filled(g, id, side, false) == g
    ensures g.slots[i].units.Some?
    ensures
      var s, h := g.slots[i], Filled(g, id, side, true);
      && h == g.(slots := h.slots, placed := h.placed)
      && h.placed == g.placed +
           [if side == Buy then Order(Sell, i, s.sellPrice, s.units.value) else Order(Buy, i, s.buyPrice, s.units.value)]
      && |h.slots| == |g.slots| && h.slots == g.slots[i := h.slots[i]]
      && (side == Buy ==>
            h.slots[i] == s.(status := WaitingSell, buyOrder := None, sellOrder := Some(|g.placed|)))
      && (side == Sell ==>
            h.slots[i] == s.(status := WaitingBuy, sellOrder := None, buyOrder := Some(|g.placed|), cycles := s.cycles + 1,
                             realized := s.realized + (s.sellPrice - s.buyPrice) * s.units.value))
  {
    hide Filled, AfterBuyFill, AfterSellFill, Sound, SlotFor, UnitsOr0;
    OnlyRow(g, id, i);
    FilledRow(g, id, side, i);
    TurnedRow(g.slots[i], |g.placed|);
    RefusedFill(g, id, side);
  }

  lemma OnlyRow(g: Session, id: nat, i: nat)
    requires Sound(g) && i < |g.slots| && (g.slots[i].buyOrder == Some(id) || g.slots[i].sellOrder == Some(id))
    ensures SlotFor(g.slots, id) == i && g.slots[i].units.Some?
  {
    assert Carries(g.slots[i], id);
    LookupIsUnambiguous(g, i, SlotFor(g.slots, id), id);
    assert Priced1(g, g.slots[i]);
  }

  lemma RefusedFill(g: Session, id: nat, side: Side)
    ensures Filled(g, id, side, false) == g
  {
  }

  lemma FilledRow(g: Session, id: nat, side: Side, i: nat)
    requires i < |g.slots| && SlotFor(g.slots, id) == i
    ensures
      var s, h := g.slots[i], Filled(g, id, side, true);
      && h == g.(slots := h.slots, placed := h.placed)
      && h.placed == g.placed +
           [if side == Buy then Order(Sell, i, s.sellPrice, UnitsOr0(s)) else Order(Buy, i, s.buyPrice, UnitsOr0(s))]
      && |h.slots| == |g.slots| && h.slots == g.slots[i := h.slots[i]]
      && h.slots[i] == if side == Buy then AfterBuyFill(s, |g.placed|) else AfterSellFill(s, |g.placed|)
  {
    hide AfterBuyFill, AfterSellFill, UnitsOr0, SlotFor;
  }

  lemma TurnedRow(s: SlotRow, order: nat)
    requires s.units.Some?
    ensures UnitsOr0(s) == s.units.value
    ensures AfterBuyFill(s, order) == s.(status := WaitingSell, buyOrder := None, sellOrder := Some(order))
    ensures AfterSellFill(s, order) ==
              s.(status := WaitingBuy, sellOrder := None, buyOrder := Some(order), cycles := s.cycles + 1,
                 realized := s.realized + (s.sellPrice - s.buyPrice) * s.units.value)
  {
  }

  lemma UnknownFillIsIgnored(g: Session, id: nat, side: Side, accepted: bool)
    requires forall i :: 0 <= i < |g.slots| ==> g.slots[i].buyOrder != Some(id) && g.slots[i].sellOrder != Some(id)
    ensures Filled(g, id, side, accepted) == g
  {
  }

  /** The other commands move the session's status alone; a breakout is declared when every one of some rows waits to
      buy, and an active session is not started again. */
  lemma ControlsMoveTheStatus(g: Session, price: real, failsAt: Option<nat>)
    requires Priced(g)
    ensures g.status == Active ==> Apply(g, Start(price, failsAt)) == g
    ensures Apply(g, Stop) == Session(Stopped, g.perLevel, g.slots, g.placed)
    ensures Apply(g, Pause) == Session(Paused, g.perLevel, g.slots, g.placed)
    ensures Apply(g, Breakout) ==
              if |g.slots| > 0 && (forall i :: 0 <= i < |g.slots| ==> g.slots[i].status == WaitingBuy)
              then Session(WaitingReentry, g.perLevel, g.slots, g.placed) else g
  {
  }
}

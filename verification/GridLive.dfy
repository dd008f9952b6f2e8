/** backend/grid_engine/grid_ws_handler.py and grid_runner.py: a live grid session driven by fill events. */
module GridLive {
  import opened Prelude

  datatype Side = Buy | Sell

  datatype SessionStatus = Active | Paused | Stopped | WaitingReentry

  datatype SlotStatus = WaitingBuy | WaitingSell

  /** A slot row; order ids index the exchange's list of accepted orders. */
  datatype SlotRow = SlotRow(
    buyPrice: real, sellPrice: real, units: Option<real>, status: SlotStatus,
    buyOrder: Option<nat>, sellOrder: Option<nat>, cycles: nat, realized: real)

  /** An order the exchange accepted, and the slot it was placed for. */
  datatype Order = Order(side: Side, slot: nat, price: real, qty: real)

  datatype Session = Session(status: SessionStatus, perLevel: real, slots: seq<SlotRow>, placed: seq<Order>)

  /** Everything that can happen to a session. A start may lose the exchange before slot `failsAt`; a fill's
      replacement order may be refused. Both roll the rows back. */
  datatype Command =
    | Start(price: real, failsAt: Option<nat>)
    | Stop
    | Pause
    | Breakout
    | Fill(id: nat, side: Side, accepted: bool)

  function UnitsOr0(s: SlotRow): real {
    if s.units.Some? then s.units.value else 0.0
  }

  function CycleProfit(s: SlotRow): real {
    (s.sellPrice - s.buyPrice) * UnitsOr0(s)
  }

  // ----- transitions -----

  /** Start reaches slot i: the row is resized, and armed with a buy order when it waits below the price without
      one. */
  function StartSlot(g: Session, price: real, i: nat): Session
    requires i < |g.slots| && g.slots[i].buyPrice != 0.0
  {
    var units := g.perLevel / g.slots[i].buyPrice;
    var s := g.slots[i].(units := Some(units));
    if s.buyPrice >= price then
      g.(slots := g.slots[i := s.(status := WaitingSell)])
    else if s.status == WaitingBuy && s.buyOrder == None then
      g.(slots := g.slots[i := s.(buyOrder := Some(|g.placed|))], placed := g.placed + [Order(Buy, i, s.buyPrice, units)])
    else
      g.(slots := g.slots[i := s])
  }

  ghost predicate Priced(g: Session) {
    forall i :: 0 <= i < |g.slots| ==> g.slots[i].buyPrice != 0.0
  }

  function StartTo(g: Session, price: real, n: nat): (r: Session)
    requires Priced(g) && n <= |g.slots|
    ensures |r.slots| == |g.slots| && r.perLevel == g.perLevel && r.status == g.status
    ensures forall i :: 0 <= i < |g.slots| ==>
              r.slots[i].buyPrice == g.slots[i].buyPrice && r.slots[i].sellPrice == g.slots[i].sellPrice
  {
    if n == 0 then g else StartSlot(StartTo(g, price, n - 1), price, n - 1)
  }

  function Started(g: Session, price: real, failsAt: Option<nat>): Session
    requires Priced(g)
  {
    if g.status == Active then g
    else if failsAt.Some? && failsAt.value < |g.slots| then
      g.(placed := StartTo(g, price, failsAt.value).placed)
    else
      StartTo(g, price, |g.slots|).(status := Active)
  }

  predicate Carries(s: SlotRow, id: nat) {
    s.buyOrder == Some(id) || s.sellOrder == Some(id)
  }

  /** The slot a live order id belongs to; |slots| when there is none. */
  function SlotFor(slots: seq<SlotRow>, id: nat): (i: nat)
    ensures i <= |slots|
    ensures i < |slots| ==> Carries(slots[i], id)
    ensures i == |slots| <==> forall j :: 0 <= j < |slots| ==> !Carries(slots[j], id)
  {
    if slots == [] then 0
    else if Carries(slots[0], id) then 0
    else
      var rest := SlotFor(slots[1..], id);
      assert forall j :: 0 <= j < |slots| - 1 ==> slots[1..][j] == slots[j + 1];
      1 + rest
  }

  function AfterBuyFill(s: SlotRow, order: nat): SlotRow {
    s.(status := WaitingSell, buyOrder := None, sellOrder := Some(order))
  }

  function AfterSellFill(s: SlotRow, order: nat): SlotRow {
    s.(status := WaitingBuy, sellOrder := None, buyOrder := Some(order), cycles := s.cycles + 1,
       realized := s.realized + CycleProfit(s))
  }

  function Filled(g: Session, id: nat, side: Side, accepted: bool): Session {
    var i := SlotFor(g.slots, id);
    if i == |g.slots| || !accepted then g
    else
      var s, order := g.slots[i], |g.placed|;
      if side == Buy then
        g.(slots := g.slots[i := AfterBuyFill(s, order)],
           placed := g.placed + [Order(Sell, i, s.sellPrice, UnitsOr0(s))])
      else
        g.(slots := g.slots[i := AfterSellFill(s, order)],
           placed := g.placed + [Order(Buy, i, s.buyPrice, UnitsOr0(s))])
  }

  function Apply(g: Session, cmd: Command): Session
    requires Priced(g)
  {
    match cmd
    case Start(price, failsAt) => Started(g, price, failsAt)
    case Stop => g.(status := Stopped)
    case Pause => g.(status := Paused)
    case Breakout =>
      if g.slots != [] && (forall i :: 0 <= i < |g.slots| ==> g.slots[i].status == WaitingBuy)
      then g.(status := WaitingReentry) else g
    case Fill(id, side, accepted) => Filled(g, id, side, accepted)
  }

  // ----- the runner and handler, in imperative form -----

  class LiveGrid {
    const perLevel: real
    var status: SessionStatus
    var slots: seq<SlotRow>
    var placed: seq<Order>

    constructor (perLevel: real, slots: seq<SlotRow>)
      ensures View() == Session(Paused, perLevel, slots, [])
    {
      this.perLevel := perLevel;
      this.slots := slots;
      status := Paused;
      placed := [];
    }

    function View(): Session
      reads this
    {
      Session(status, perLevel, slots, placed)
    }

    /** The exchange accepts a limit order under a fresh id. */
    method PlaceLimit(side: Side, slot: nat, price: real, qty: real) returns (id: nat)
      modifies this
      ensures id == |old(placed)| && placed == old(placed) + [Order(side, slot, price, qty)]
      ensures slots == old(slots) && status == old(status)
    {
      id := |placed|;
      placed := placed + [Order(side, slot, price, qty)];
    }

    method StartSession(price: real, failsAt: Option<nat>) returns (started: bool)
      requires Priced(View())
      modifies this
      ensures View() == Started(old(View()), price, failsAt)
      ensures started ==> old(status) != Active && status == Active
    {
      if status == Active {
        return false;
      }
      var rows := slots;
      ghost var before := View();
      var i := 0;
      while i < |slots| && Some(i) != failsAt
        invariant i <= |slots| == |before.slots| && status == before.status
        invariant failsAt.Some? && failsAt.value < |before.slots| ==> i <= failsAt.value
        invariant View() == StartTo(before, price, i)
      {
        var units := perLevel / slots[i].buyPrice;
        slots := slots[i := slots[i].(units := Some(units))];
        if slots[i].buyPrice >= price {
          slots := slots[i := slots[i].(status := WaitingSell)];
        } else if slots[i].status == WaitingBuy && slots[i].buyOrder == None {
          var id := PlaceLimit(Buy, i, slots[i].buyPrice, units);
          slots := slots[i := slots[i].(buyOrder := Some(id))];
        }
        i := i + 1;
      }
      if i < |slots| {
        slots := rows;
        return false;
      }
      status := Active;
      return true;
    }

    method StopSession()
      requires Priced(View())
      modifies this`status
      ensures View() == Apply(old(View()), Stop)
    {
      status := Stopped;
    }

    method PauseSession()
      requires Priced(View())
      modifies this`status
      ensures View() == Apply(old(View()), Pause)
    {
      status := Paused;
    }

    method HandleOrderFill(id: nat, side: Side, accepted: bool)
      modifies this
      ensures View() == Filled(old(View()), id, side, accepted)
    {
      var i := SlotFor(slots, id);
      if i == |slots| || !accepted {
        return;
      }
      var slot := slots[i];
      if side == Buy {
        var order := PlaceLimit(Sell, i, slot.sellPrice, UnitsOr0(slot));
        slots := slots[i := slot.(status := WaitingSell, buyOrder := None, sellOrder := Some(order))];
      } else {
        var order := PlaceLimit(Buy, i, slot.buyPrice, UnitsOr0(slot));
        var profit := CycleProfit(slot);
        slot := slot.(status := WaitingBuy, sellOrder := None, buyOrder := Some(order));
        slot := slot.(cycles := slot.cycles + 1);
        slot := slot.(realized := slot.realized + profit);
        slots := slots[i := slot];
      }
    }
  }
}

/** Exactly-once handling of fills over every interleaving of starts, pauses, stops and (repeated) fill events. */
module GridLiveLaws {
  import opened Prelude
  import opened GridLive

  /** The exchange reports a fill with the side the order was placed with. */
  predicate SideConsistent(g: Session, cmd: Command) {
    cmd.Fill? && cmd.id < |g.placed| ==> cmd.side == g.placed[cmd.id].side
  }

  /** A slot's live ids refer to its own accepted orders of the right side, and never to both sides at once. */
  ghost predicate Wired(g: Session, i: nat)
    requires i < |g.slots|
  {
    var s := g.slots[i];
    && (s.buyOrder.Some? ==>
        s.buyOrder.value < |g.placed| && g.placed[s.buyOrder.value].side == Buy && g.placed[s.buyOrder.value].slot == i)
    && (s.sellOrder.Some? ==>
        s.sellOrder.value < |g.placed| && g.placed[s.sellOrder.value].side == Sell && g.placed[s.sellOrder.value].slot == i)
    && (s.buyOrder == None || s.sellOrder == None)
    && (s.status == WaitingBuy ==> s.sellOrder == None)
  }

  /** Before its first start a slot has traded nothing; afterwards its size is the level's share and its profit
      is one spread per cycle. */
  ghost predicate Priced1(g: Session, s: SlotRow) {
    && s.buyPrice != 0.0
    && (s.units == None ==> s.cycles == 0 && s.realized == 0.0 && s.buyOrder == None && s.sellOrder == None)
    && (s.units.Some? ==> s.units.value == g.perLevel / s.buyPrice)
    && s.realized == s.cycles as real * CycleProfit(s)
  }

  /** Accepted sell orders of a slot. */
  function SellsPlaced(placed: seq<Order>, i: nat): nat {
    if placed == [] then 0
    else
      var o := placed[|placed| - 1];
      SellsPlaced(placed[..|placed| - 1], i) + (if o.side == Sell && o.slot == i then 1 else 0)
  }

  /** Every accepted sell order of a slot is either its live one or was filled by exactly one cycle. */
  ghost predicate Counted(g: Session, i: nat)
    requires i < |g.slots|
  {
    SellsPlaced(g.placed, i) == g.slots[i].cycles + (if g.slots[i].sellOrder.Some? then 1 else 0)
  }

  ghost predicate Sound(g: Session) {
    forall i :: 0 <= i < |g.slots| ==> Wired(g, i) && Priced1(g, g.slots[i]) && Counted(g, i)
  }

  lemma SoundIsPriced(g: Session)
    requires Sound(g)
    ensures Priced(g)
  {
  }

  lemma SellsSnoc(placed: seq<Order>, o: Order, i: nat)
    ensures SellsPlaced(placed + [o], i) == SellsPlaced(placed, i) + (if o.side == Sell && o.slot == i then 1 else 0)
  {
    assert (placed + [o])[..|placed|] == placed;
  }

  // ----- consequences of soundness -----

  /** Live ids are distinct across slots, so the order lookup never finds two rows. */
  lemma LookupIsUnambiguous(g: Session, i: nat, j: nat, id: nat)
    requires Sound(g) && i < |g.slots| && j < |g.slots|
    requires Carries(g.slots[i], id) && Carries(g.slots[j], id)
    ensures i == j
  {
    assert Wired(g, i) && Wired(g, j);
  }

  // ----- preservation -----

  lemma OtherSlotKept(g: Session, h: Session, i: nat)
    requires i < |g.slots| && |h.slots| == |g.slots| && h.slots[i] == g.slots[i] && h.perLevel == g.perLevel
    requires g.placed <= h.placed
    requires Wired(g, i) && Priced1(g, g.slots[i]) && Counted(g, i)
    requires SellsPlaced(h.placed, i) == SellsPlaced(g.placed, i)
    ensures Wired(h, i) && Priced1(h, h.slots[i]) && Counted(h, i)
  {
  }

  lemma StartSlotKeepsSound(g: Session, price: real, i: nat)
    requires Sound(g) && i < |g.slots| && g.slots[i].buyPrice != 0.0
    ensures Sound(StartSlot(g, price, i))
    ensures |StartSlot(g, price, i).slots| == |g.slots| && g.placed <= StartSlot(g, price, i).placed
  {
    var h := StartSlot(g, price, i);
    assert Wired(g, i) && Priced1(g, g.slots[i]) && Counted(g, i);
    forall j | 0 <= j < |h.slots|
      ensures Wired(h, j) && Priced1(h, h.slots[j]) && Counted(h, j)
    {
      if |h.placed| > |g.placed| {
        SellsSnoc(g.placed, h.placed[|g.placed|], j);
      }
      if j != i {
        OtherSlotKept(g, h, j);
      } else {
        StartedSlotPriced(g, h, i);
      }
    }
  }

  lemma StartedSlotPriced(g: Session, h: Session, i: nat)
    requires i < |g.slots| && |h.slots| == |g.slots| && h.perLevel == g.perLevel
    requires Priced1(g, g.slots[i])
    requires
      var s, t := g.slots[i], h.slots[i];
      && t.units == Some(g.perLevel / s.buyPrice)
      && t.buyPrice == s.buyPrice && t.sellPrice == s.sellPrice && t.cycles == s.cycles && t.realized == s.realized
    ensures Priced1(h, h.slots[i])
  {
    if g.slots[i].units == None {
      assert h.slots[i].cycles as real == 0.0;
    }
  }

  lemma {:induction false} StartToKeepsSound(g: Session, price: real, n: nat)
    requires Sound(g) && Priced(g) && n <= |g.slots|
    ensures Sound(StartTo(g, price, n)) && g.placed <= StartTo(g, price, n).placed
    ensures forall i :: 0 <= i < |g.slots| ==> SellsPlaced(StartTo(g, price, n).placed, i) == SellsPlaced(g.placed, i)
  {
    hide Sound, StartSlot, SellsPlaced;
    if n > 0 {
      StartToKeepsSound(g, price, n - 1);
      var h := StartTo(g, price, n - 1);
      StartSlotKeepsSound(h, price, n - 1);
      forall i | 0 <= i < |g.slots|
        ensures SellsPlaced(StartTo(g, price, n).placed, i) == SellsPlaced(g.placed, i)
      {
        StartPlacesNoSell(h, price, n - 1, i);
      }
    }
  }

  lemma StartPlacesNoSell(g: Session, price: real, n: nat, i: nat)
    requires n < |g.slots| && g.slots[n].buyPrice != 0.0
    ensures SellsPlaced(StartSlot(g, price, n).placed, i) == SellsPlaced(g.placed, i)
  {
    var h := StartSlot(g, price, n);
    if |h.placed| > |g.placed| {
      SellsSnoc(g.placed, h.placed[|g.placed|], i);
    }
  }

  lemma FillKeepsSound(g: Session, id: nat, side: Side, accepted: bool)
    requires Sound(g) && SideConsistent(g, Fill(id, side, accepted))
    ensures Sound(Filled(g, id, side, accepted))
  {
    var h := Filled(g, id, side, accepted);
    var i := SlotFor(g.slots, id);
    if h != g {
      assert Wired(g, i) && Priced1(g, g.slots[i]) && Counted(g, i);
      forall j | 0 <= j < |h.slots|
        ensures Wired(h, j) && Priced1(h, h.slots[j]) && Counted(h, j)
      {
        SellsSnoc(g.placed, h.placed[|g.placed|], j);
        if j != i {
          OtherSlotKept(g, h, j);
        } else {
          FilledSlotPriced(g, h, i, side);
        }
      }
    }
  }

  lemma FilledSlotPriced(g: Session, h: Session, i: nat, side: Side)
    requires i < |g.slots| && |h.slots| == |g.slots| && h.perLevel == g.perLevel
    requires Priced1(g, g.slots[i]) && (g.slots[i].buyOrder.Some? || g.slots[i].sellOrder.Some?)
    requires exists order :: h.slots[i] == if side == Buy then AfterBuyFill(g.slots[i], order) else AfterSellFill(g.slots[i], order)
    ensures Priced1(h, h.slots[i])
  {
    var n, x := g.slots[i].cycles, CycleProfit(g.slots[i]);
    assert (n + 1) as real * x == n as real * x + x;
  }

  lemma ApplyKeepsSound(g: Session, cmd: Command)
    requires Sound(g) && Priced(g) && SideConsistent(g, cmd)
    ensures Sound(Apply(g, cmd)) && Priced(Apply(g, cmd))
    ensures |Apply(g, cmd).slots| == |g.slots|
  {
    match cmd
    case Start(price, failsAt) =>
      StartToKeepsSound(g, price, if failsAt.Some? && failsAt.value < |g.slots| then failsAt.value else |g.slots|);
      StartedIsSound(g, price, failsAt);
    case Fill(id, side, accepted) =>
      FillKeepsSound(g, id, side, accepted);
      SoundIsPriced(Filled(g, id, side, accepted));
    case _ =>
      var h := Apply(g, cmd);
      assert forall i :: 0 <= i < |h.slots| ==> Wired(g, i) && Priced1(g, g.slots[i]) && Counted(g, i);
  }

  lemma StartedIsSound(g: Session, price: real, failsAt: Option<nat>)
    requires Sound(g) && Priced(g)
    requires
      var n := if failsAt.Some? && failsAt.value < |g.slots| then failsAt.value else |g.slots|;
      var h := StartTo(g, price, n);
      && Sound(h) && g.placed <= h.placed
      && forall i :: 0 <= i < |g.slots| ==> SellsPlaced(h.placed, i) == SellsPlaced(g.placed, i)
    ensures Sound(Started(g, price, failsAt)) && |Started(g, price, failsAt).slots| == |g.slots|
  {
    var r := Started(g, price, failsAt);
    var n := if failsAt.Some? && failsAt.value < |g.slots| then failsAt.value else |g.slots|;
    var h := StartTo(g, price, n);
    if g.status != Active {
      forall i | 0 <= i < |r.slots|
        ensures Wired(r, i) && Priced1(r, r.slots[i]) && Counted(r, i)
      {
        if n < |g.slots| {
          assert Wired(g, i) && Priced1(g, g.slots[i]) && Counted(g, i);
        } else {
          assert Wired(h, i) && Priced1(h, h.slots[i]) && Counted(h, i);
        }
      }
    }
  }

  // ----- runs -----

  /** A new session: rows created waiting to buy, nothing sized, nothing placed. */
  ghost predicate Fresh(g: Session) {
    && g.placed == []
    && forall i :: 0 <= i < |g.slots| ==>
         var s := g.slots[i];
         && s.buyPrice != 0.0 && s.status == WaitingBuy && s.units == None
         && s.buyOrder == None && s.sellOrder == None && s.cycles == 0 && s.realized == 0.0
  }

  ghost predicate Legal(g: Session, cmds: seq<Command>)
    requires Priced(g)
    decreases cmds
  {
    cmds != [] ==>
      && SideConsistent(g, cmds[0])
      && Priced(Apply(g, cmds[0]))
      && Legal(Apply(g, cmds[0]), cmds[1..])
  }

  ghost function After(g: Session, cmds: seq<Command>): Session
    requires Priced(g) && Legal(g, cmds)
    decreases cmds
  {
    if cmds == [] then g else After(Apply(g, cmds[0]), cmds[1..])
  }

  lemma {:induction false} RunsKeepSound(g: Session, cmds: seq<Command>)
    requires Sound(g) && Priced(g) && Legal(g, cmds)
    ensures Sound(After(g, cmds)) && |After(g, cmds).slots| == |g.slots|
    decreases cmds
  {
    if cmds != [] {
      ApplyKeepsSound(g, cmds[0]);
      RunsKeepSound(Apply(g, cmds[0]), cmds[1..]);
    }
  }

  lemma FreshIsSound(g: Session)
    requires Fresh(g)
    ensures Sound(g) && Priced(g)
  {
    forall i | 0 <= i < |g.slots|
      ensures Wired(g, i) && Priced1(g, g.slots[i]) && Counted(g, i)
    {
      assert g.slots[i].cycles as real == 0.0;
    }
  }

  /** From a new session, over any run: no slot holds two live orders, a slot waiting to buy holds no sell order,
      live ids are distinct, each cycle is one filled sell order, and the profit is one spread per cycle. */
  lemma FillsAreHandledExactlyOnce(g: Session, cmds: seq<Command>)
    requires Fresh(g) && Priced(g) && Legal(g, cmds)
    ensures
      var h := After(g, cmds);
      && |h.slots| == |g.slots|
      && (forall i :: 0 <= i < |h.slots| ==>
            var s := h.slots[i];
            && (s.buyOrder == None || s.sellOrder == None)
            && (s.status == WaitingBuy ==> s.sellOrder == None)
            && s.cycles + (if s.sellOrder.Some? then 1 else 0) == SellsPlaced(h.placed, i)
            && s.realized == s.cycles as real * CycleProfit(s))
      && (forall i, j, id :: 0 <= i < j < |h.slots| && Carries(h.slots[i], id) ==> !Carries(h.slots[j], id))
  {
    FreshIsSound(g);
    RunsKeepSound(g, cmds);
    var h := After(g, cmds);
    forall i | 0 <= i < |h.slots|
      ensures Wired(h, i) && Priced1(h, h.slots[i]) && Counted(h, i)
    {
    }
    forall i, j, id | 0 <= i < j < |h.slots| && Carries(h.slots[i], id)
      ensures !Carries(h.slots[j], id)
    {
      if Carries(h.slots[j], id) {
        LookupIsUnambiguous(h, i, j, id);
      }
    }
  }

  // ----- a handled fill is never handled again -----

  /** The id was handed out and no slot carries it any more. */
  ghost predicate Retired(g: Session, id: nat) {
    id < |g.placed| && forall i :: 0 <= i < |g.slots| ==> !Carries(g.slots[i], id)
  }

  /** Handling the fill of a live order retires its id. */
  lemma HandledIsRetired(g: Session, id: nat, side: Side)
    requires Sound(g) && SideConsistent(g, Fill(id, side, true)) && SlotFor(g.slots, id) < |g.slots|
    ensures Retired(Filled(g, id, side, true), id)
  {
    var i := SlotFor(g.slots, id);
    var h := Filled(g, id, side, true);
    assert Wired(g, i);
    forall j | 0 <= j < |h.slots|
      ensures !Carries(h.slots[j], id)
    {
      if j != i && Carries(h.slots[j], id) {
        LookupIsUnambiguous(g, i, j, id);
      }
    }
  }

  lemma {:induction false} StartKeepsRetired(g: Session, price: real, n: nat, id: nat)
    requires Priced(g) && n <= |g.slots| && Retired(g, id)
    ensures Retired(StartTo(g, price, n), id)
  {
    if n > 0 {
      StartKeepsRetired(g, price, n - 1, id);
    }
  }

  lemma StepKeepsRetired(g: Session, cmd: Command, id: nat)
    requires Priced(g) && Retired(g, id)
    ensures Retired(Apply(g, cmd), id)
  {
    match cmd
    case Start(price, failsAt) =>
      StartKeepsRetired(g, price, |g.slots|, id);
      if failsAt.Some? && failsAt.value < |g.slots| {
        StartKeepsRetired(g, price, failsAt.value, id);
      }
    case _ =>
  }

  lemma {:induction false} RunKeepsRetired(g: Session, cmds: seq<Command>, id: nat)
    requires Priced(g) && Legal(g, cmds) && Retired(g, id)
    ensures Retired(After(g, cmds), id)
    decreases cmds
  {
    if cmds != [] {
      StepKeepsRetired(g, cmds[0], id);
      RunKeepsRetired(Apply(g, cmds[0]), cmds[1..], id);
    }
  }

  /** Once the fill of a live order has been handled, delivering it again changes nothing, whatever starts, stops,
      pauses and fills have come in between and whatever side the repetition names. */
  lemma DuplicateFillIsIgnored(g: Session, id: nat, side: Side, cmds: seq<Command>, repeated: Side, again: bool)
    requires Sound(g) && SideConsistent(g, Fill(id, side, true)) && SlotFor(g.slots, id) < |g.slots|
    requires Priced(Filled(g, id, side, true)) && Legal(Filled(g, id, side, true), cmds)
    ensures
      var h := After(Filled(g, id, side, true), cmds);
      Filled(h, id, repeated, again) == h
  {
    HandledIsRetired(g, id, side);
    RunKeepsRetired(Filled(g, id, side, true), cmds, id);
  }

  // ----- a slot above the price is never armed -----

  predicate Unarmed(s: SlotRow) {
    s.status == WaitingSell && s.buyOrder == None && s.sellOrder == None
  }

  lemma {:induction false} StartNeverArms(g: Session, price: real, n: nat, i: nat)
    requires Priced(g) && n <= |g.slots| && i < |g.slots| && Unarmed(g.slots[i])
    ensures
      var s := StartTo(g, price, n).slots[i];
      Unarmed(s) && s.cycles == g.slots[i].cycles && s.realized == g.slots[i].realized
  {
    if n > 0 {
      StartNeverArms(g, price, n - 1, i);
    }
  }

  /** Start marks a slot at or above the price as waiting to sell without placing a sell order. If it had no buy
      order either, nothing that happens afterwards makes it trade. */
  lemma {:induction false} UnarmedSlotNeverTrades(g: Session, cmds: seq<Command>, i: nat)
    requires Priced(g) && Legal(g, cmds) && i < |g.slots| && Unarmed(g.slots[i])
    ensures |After(g, cmds).slots| == |g.slots|
    ensures
      var s := After(g, cmds).slots[i];
      Unarmed(s) && s.cycles == g.slots[i].cycles && s.realized == g.slots[i].realized
    decreases cmds
  {
    if cmds != [] {
      var h := Apply(g, cmds[0]);
      match cmds[0] {
        case Start(price, failsAt) =>
          StartNeverArms(g, price, |g.slots|, i);
        case _ =>
      }
      assert |h.slots| == |g.slots| && Unarmed(h.slots[i]);
      UnarmedSlotNeverTrades(h, cmds[1..], i);
    }
  }

  /** A first start leaves a slot unarmed exactly when it goes through and the slot is at or above the price. */
  lemma FirstStartLeavesHighSlotsUnarmed(g: Session, price: real, failsAt: Option<nat>, i: nat)
    requires Fresh(g) && Priced(g) && i < |g.slots| && g.status != Active
    ensures
      var h := Started(g, price, failsAt);
      && |h.slots| == |g.slots|
      && (Unarmed(h.slots[i]) <==> g.slots[i].buyPrice >= price && (failsAt.Some? ==> failsAt.value >= |g.slots|))
  {
    SlotAfterStart(g, price, |g.slots|, i);
  }

  lemma {:induction false} SlotAfterStart(g: Session, price: real, n: nat, i: nat)
    requires Priced(g) && i < |g.slots| && n <= |g.slots|
    ensures i >= n ==> StartTo(g, price, n).slots[i] == g.slots[i]
    ensures i < n && g.slots[i].buyPrice >= price ==>
              StartTo(g, price, n).slots[i]
              == g.slots[i].(units := Some(g.perLevel / g.slots[i].buyPrice), status := WaitingSell)
    ensures i < n && g.slots[i].buyPrice < price ==> StartTo(g, price, n).slots[i].status == g.slots[i].status
  {
    if n > 0 {
      SlotAfterStart(g, price, n - 1, i);
    }
  }
}

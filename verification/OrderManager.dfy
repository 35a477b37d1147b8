/** The order manager (internal/engine/manager.go), its map replaced and extended in place
    around the adapter's calls. */
module OrderManager {
  import opened Common
  import opened OrderProtocol
  import opened MockExchange

  /** The cancel calls that go through when `ids` are tried from turn t on. */
  function CancelsRecorded(script: Script, t: nat, pair: string, ids: seq<OrderId>): seq<(string, OrderId)> {
    if ids == [] then []
    else
      var n := |ids| - 1;
      CancelsRecorded(script, t, pair, ids[..n]) + if TurnAt(script, t + n).err.None? then [(pair, ids[n])] else []
  }

  class OrderManager {
    const adapter: Adapter
    const pair: string
    /** Ids up to here were issued before this manager was built. */
    ghost const base: nat

    var openOrders: map<OrderId, ManagedOrder>

    ghost function Abs(): World
      reads this, adapter
    {
      World(adapter.Abs(), openOrders)
    }

    ghost predicate Valid()
      reads this, adapter
    {
      NoOrphans(base, Abs())
    }

    constructor (adapter: Adapter, pair: string)
      requires forall id :: id in adapter.orders ==> id <= adapter.orderSeq
      ensures Valid() && Fresh(Abs())
      ensures this.adapter == adapter && this.pair == pair && base == adapter.orderSeq
    {
      this.adapter, this.pair, this.base := adapter, pair, adapter.orderSeq;
      openOrders := map[];
    }

    /** Cancels what is tracked, in the order `ids`; what is tracked does not change. */
    method CancelTracked() returns (firstErr: Option<Error>, ghost ids: seq<OrderId>)
      requires Valid()
      modifies adapter
      ensures Enumerates(ids, openOrders.Keys)
      ensures Cancelled(adapter.Abs(), firstErr) == CancelEach(adapter.script, old(adapter.Abs()), ids)
      ensures adapter.cancelCalls
              == old(adapter.cancelCalls) + CancelsRecorded(adapter.script, old(adapter.clock), pair, ids)
      ensures adapter.placeCalls == old(adapter.placeCalls)
    {
      var remaining := openOrders.Keys;
      firstErr, ids := None, [];
      while remaining != {}
        invariant remaining <= openOrders.Keys
        invariant Enumerates(ids, openOrders.Keys - remaining)
        invariant Cancelled(adapter.Abs(), firstErr) == CancelEach(adapter.script, old(adapter.Abs()), ids)
        invariant adapter.cancelCalls
            == old(adapter.cancelCalls) + CancelsRecorded(adapter.script, old(adapter.clock), pair, ids)
        invariant adapter.clock == old(adapter.clock) + |ids|
        invariant adapter.placeCalls == old(adapter.placeCalls)
        decreases remaining
      {
        var id :| id in remaining;
        var err := adapter.CancelOrder(pair, id);
        if err.Some? && firstErr.None? {
          firstErr := err;
        }
        assert (ids + [id])[..|ids|] == ids;
        ids, remaining := ids + [id], remaining - {id};
      }
      assert openOrders.Keys - remaining == openOrders.Keys;
    }

    /** A Reconcile call is the protocol step Exec. */
    method Reconcile(quotes: seq<LayerQuote>) returns (err: Option<Error>, ghost ids: seq<OrderId>)
      requires Valid()
      modifies this, adapter
      ensures Valid()
      ensures Enumerates(ids, old(openOrders.Keys))
      ensures (Abs(), err) == Exec(adapter.script, pair, old(Abs()), Op.Reconcile(quotes), ids)
    {
      hide NoOrphans, Enumerates, CancelEach, PlaceEach, Plan, Place;
      err, ids := CancelTracked();
      ghost var cleared := adapter.Abs();
      ExecKeepsNoOrphans(adapter.script, pair, base, old(Abs()), Op.Reconcile(quotes), ids);
      if err.Some? {
        return;
      }
      openOrders := map[];
      ghost var plan := Plan(pair, quotes);
      NothingPlaced(adapter.script, cleared, plan[..0]);
      for i := 0 to |quotes|
        invariant err == None
        invariant Placed(adapter.Abs(), openOrders, None) == PlaceEach(adapter.script, cleared, plan[..2 * i])
      {
        var q := quotes[i];
        PlanAt(pair, quotes, i);
        for s := 0 to 2
          invariant err == None
          invariant Placed(adapter.Abs(), openOrders, None) == PlaceEach(adapter.script, cleared, plan[..2 * i + s])
        {
          var side := if s == 0 then Buy else Sell;
          var price := q.bidPrice;
          if side == Sell {
            price := q.askPrice;
          }
          PlacesNext(adapter.script, cleared, plan, 2 * i + s);
          var result := adapter.PlaceLimitOrder(pair, side, price, q.size);
          if result.Err? {
            err := Some(result.error);
            StopsHere(adapter.script, cleared, plan, 2 * i + s + 1);
            return;
          }
          openOrders := openOrders[result.value := ManagedOrder(q.layer, Order(pair, side, price, q.size))];
        }
      }
      assert plan[..2 * |quotes|] == plan;
    }

    method CancelAll() returns (err: Option<Error>, ghost ids: seq<OrderId>)
      requires Valid()
      modifies adapter
      ensures Valid()
      ensures Enumerates(ids, old(openOrders.Keys))
      ensures (Abs(), err) == Exec(adapter.script, pair, old(Abs()), Op.CancelAll, ids)
    {
      err, ids := CancelTracked();
      ExecKeepsNoOrphans(adapter.script, pair, base, old(Abs()), Op.CancelAll, ids);
    }

    /** An upper bound on how many of this manager's orders are live. */
    method OpenOrderCount() returns (n: nat)
      requires Valid()
      ensures n == |openOrders| && |MyLive(base, adapter.Abs())| <= n
    {
      n := |openOrders|;
      SubsetSize(MyLive(base, adapter.Abs()).Keys, openOrders.Keys);
    }
  }

  lemma NothingPlaced(script: Script, v: Venue, none: seq<ManagedOrder>)
    requires none == []
    ensures PlaceEach(script, v, none) == Placed(v, map[], None)
  {
  }

  /** One turn of the placement loop. */
  lemma PlacesNext(script: Script, v: Venue, plan: seq<ManagedOrder>, n: nat)
    requires n < |plan| && PlaceEach(script, v, plan[..n]).err.None?
    ensures var before := PlaceEach(script, v, plan[..n]);
            var (v1, r) := Place(script, before.venue, plan[n].order);
            PlaceEach(script, v, plan[..n + 1]) ==
            if r.Ok? then Placed(v1, before.tracked[r.value := plan[n]], None)
            else Placed(v1, before.tracked, Some(r.error))
  {
    assert plan[..n + 1][..n] == plan[..n];
  }

  /** Once the placement loop has failed, the rest of the plan is not tried. */
  lemma {:induction false} StopsHere(script: Script, v: Venue, plan: seq<ManagedOrder>, n: nat)
    requires n <= |plan| && PlaceEach(script, v, plan[..n]).err.Some?
    ensures PlaceEach(script, v, plan) == PlaceEach(script, v, plan[..n])
    decreases |plan| - n
  {
    if n == |plan| {
      assert plan[..n] == plan;
    } else {
      assert plan[..n + 1][..n] == plan[..n];
      StopsHere(script, v, plan, n + 1);
    }
  }
}

/** The in-memory exchange (pkg/exchange/mock/mock.go), updated in place. */
module MockExchange {
  import opened Common
  import opened OrderProtocol

  class Adapter {
    /** What happens around each call: ForcePlaceErr and ForceCancelErr being set and cleared
        between calls, and market fills. */
    const script: Script

    var orders: map<OrderId, Order>
    var orderSeq: nat
    var placeCalls: seq<Order>
    var cancelCalls: seq<(string, OrderId)>
    var clock: nat

    ghost function Abs(): Venue
      reads this
    {
      Venue(orders, orderSeq, clock)
    }

    constructor (script: Script)
      ensures this.script == script
      ensures Abs() == Venue(map[], 0, 0) && placeCalls == [] && cancelCalls == []
    {
      this.script := script;
      orders, orderSeq, placeCalls, cancelCalls, clock := map[], 0, [], [], 0;
    }

    /** The fills of this turn happen, and the call learns whether it is to fail. */
    method NextTurn() returns (err: Option<Error>)
      modifies this
      ensures Abs() == Turned(script, old(Abs())) && err == TurnAt(script, old(clock)).err
      ensures placeCalls == old(placeCalls) && cancelCalls == old(cancelCalls)
    {
      var turn := TurnAt(script, clock);
      orders := orders - turn.fills;
      err := turn.err;
      clock := clock + 1;
    }

    method PlaceLimitOrder(symbol: string, side: Side, price: real, qty: real) returns (r: Result<OrderId, Error>)
      modifies this
      ensures (Abs(), r) == Place(script, old(Abs()), Order(symbol, side, price, qty))
      ensures placeCalls == old(placeCalls) + if r.Ok? then [Order(symbol, side, price, qty)] else []
      ensures cancelCalls == old(cancelCalls)
    {
      var err := NextTurn();
      if err.Some? {
        return Err(err.value);
      }
      orderSeq := orderSeq + 1;
      var order := Order(symbol, side, price, qty);
      orders := orders[orderSeq := order];
      placeCalls := placeCalls + [order];
      r := Ok(orderSeq);
    }

    method CancelOrder(symbol: string, id: OrderId) returns (err: Option<Error>)
      modifies this
      ensures (Abs(), err) == Cancel(script, old(Abs()), id)
      ensures cancelCalls == old(cancelCalls) + if err.None? then [(symbol, id)] else []
      ensures placeCalls == old(placeCalls)
    {
      err := NextTurn();
      if err.None? {
        orders := orders - {id};
        cancelCalls := cancelCalls + [(symbol, id)];
      }
    }

    method OpenOrderCount() returns (n: nat)
      ensures n == |Abs().live|
    {
      n := |orders|;
    }
  }
}

/**
 * The cancel-all-then-place protocol of the order manager (internal/engine/manager.go) against the
 * in-memory exchange (pkg/exchange/mock/mock.go), on values: what each call does, and what every run keeps.
 * The classes in MockExchange and OrderManager are proved to do exactly this.
 */
module OrderProtocol {
  import opened Common

  type OrderId = nat  // n stands for the exchange id "MOCK-n"

  datatype Error = AdapterError(code: int)

  datatype Side = Buy | Sell

  datatype Order = Order(symbol: string, side: Side, price: real, qty: real)

  datatype LayerQuote = LayerQuote(layer: int, bidPrice: real, askPrice: real, size: real)

  datatype ManagedOrder = ManagedOrder(layer: int, order: Order)

  /** What the outside world does around one adapter call: the orders that fill just before it, and whether it fails. */
  datatype Turn = Turn(fills: set<OrderId>, err: Option<Error>)

  /** The turns of a run by call number, and quiet turns after the last one: every finite
      pattern of failures and fills. */
  type Script = seq<Turn>

  function TurnAt(script: Script, t: nat): Turn {
    if t < |script| then script[t] else Turn({}, None)
  }

  /** The exchange: its live orders, the last id issued, and the number of adapter calls so far. */
  datatype Venue = Venue(live: map<OrderId, Order>, orderSeq: nat, clock: nat)

  // ---- The exchange ----

  function Turned(script: Script, v: Venue): Venue {
    v.(live := v.live - TurnAt(script, v.clock).fills, clock := v.clock + 1)
  }

  function Place(script: Script, v: Venue, order: Order): (Venue, Result<OrderId, Error>) {
    var v1 := Turned(script, v);
    match TurnAt(script, v.clock).err
    case Some(e) => (v1, Err(e))
    case None =>
      var id := v.orderSeq + 1;
      (v1.(live := v1.live[id := order], orderSeq := id), Ok(id))
  }

  function Cancel(script: Script, v: Venue, id: OrderId): (Venue, Option<Error>) {
    var v1 := Turned(script, v);
    match TurnAt(script, v.clock).err
    case Some(e) => (v1, Some(e))
    case None => (v1.(live := v1.live - {id}), None)
  }

  // ---- The manager ----

  /** Exchange and manager together; `base` ids were issued before this manager was built. */
  datatype World = World(venue: Venue, tracked: map<OrderId, ManagedOrder>)

  datatype Cancelled = Cancelled(venue: Venue, firstErr: Option<Error>)

  /** cancelAll over the tracked ids in the order `ids`: every id is tried, the first error is kept. */
  function CancelEach(script: Script, v: Venue, ids: seq<OrderId>): Cancelled {
    if ids == [] then Cancelled(v, None)
    else
      var before := CancelEach(script, v, ids[..|ids| - 1]);
      var (v1, e) := Cancel(script, before.venue, ids[|ids| - 1]);
      Cancelled(v1, if before.firstErr.Some? then before.firstErr else e)
  }

  /** The orders Reconcile wants, in the order it places them: bid then ask, layer by layer. */
  function Plan(symbol: string, quotes: seq<LayerQuote>): (plan: seq<ManagedOrder>)
    ensures |plan| == 2 * |quotes|
  {
    if quotes == [] then []
    else
      var q := quotes[|quotes| - 1];
      Plan(symbol, quotes[..|quotes| - 1]) + [
        ManagedOrder(q.layer, Order(symbol, Buy, q.bidPrice, q.size)),
        ManagedOrder(q.layer, Order(symbol, Sell, q.askPrice, q.size))]
  }

  datatype Placed = Placed(venue: Venue, tracked: map<OrderId, ManagedOrder>, err: Option<Error>)

  /** The placement loop over the plan, stopping at the first failure. */
  function PlaceEach(script: Script, v: Venue, plan: seq<ManagedOrder>): Placed {
    if plan == [] then Placed(v, map[], None)
    else
      var before := PlaceEach(script, v, plan[..|plan| - 1]);
      if before.err.Some? then before
      else
        var next := plan[|plan| - 1];
        var (v1, r) := Place(script, before.venue, next.order);
        match r
        case Err(e) => Placed(v1, before.tracked, Some(e))
        case Ok(id) => Placed(v1, before.tracked[id := next], None)
  }

  datatype Op = Reconcile(quotes: seq<LayerQuote>) | CancelAll

  /** One public call of the manager, cancelling in the order `ids`. */
  function Exec(script: Script, symbol: string, w: World, op: Op, ids: seq<OrderId>): (World, Option<Error>) {
    var c := CancelEach(script, w.venue, ids);
    if op.CancelAll? || c.firstErr.Some? then (World(c.venue, w.tracked), c.firstErr)
    else
      var p := PlaceEach(script, c.venue, Plan(symbol, op.quotes));
      (World(p.venue, p.tracked), p.err)
  }

  // ---- Runs ----

  /** A call together with the order in which it ranged over the tracked map. */
  datatype Call = Call(op: Op, ids: seq<OrderId>)

  function After(script: Script, symbol: string, start: World, calls: seq<Call>): World {
    if calls == [] then start
    else
      var last := calls[|calls| - 1];
      Exec(script, symbol, After(script, symbol, start, calls[..|calls| - 1]), last.op, last.ids).0
  }

  /** Every call ranged over exactly the ids tracked at that point. */
  ghost predicate ValidCalls(script: Script, symbol: string, start: World, calls: seq<Call>) {
    calls == [] ||
    var before := calls[..|calls| - 1];
    && ValidCalls(script, symbol, start, before)
    && Enumerates(calls[|calls| - 1].ids, After(script, symbol, start, before).tracked.Keys)
  }

  /** A manager just built on an exchange whose ids up to orderSeq belong to others. */
  predicate Fresh(w: World) {
    w.tracked == map[] && forall id :: id in w.venue.live ==> id <= w.venue.orderSeq
  }

  /** The orders of the manager (ids above base) that are live. */
  function MyLive(base: nat, v: Venue): map<OrderId, Order> {
    map id | id in v.live && id > base :: v.live[id]
  }

  /** No order is orphaned: every live order of this manager is tracked, with the very terms that are live. */
  predicate NoOrphans(base: nat, w: World) {
    && base <= w.venue.orderSeq
    && (forall id :: id in w.venue.live ==> id <= w.venue.orderSeq)
    && (forall id :: id in w.tracked ==> base < id <= w.venue.orderSeq)
    && (forall id :: id in w.venue.live && id > base ==> id in w.tracked && w.tracked[id].order == w.venue.live[id])
  }

  /** Turns [lo, hi) of the script all let the call through. */
  predicate NoErrors(script: Script, lo: nat, hi: nat) {
    forall t :: lo <= t < hi ==> TurnAt(script, t).err.None?
  }

  /** Everything filled in the turns [lo, hi). */
  function Fills(script: Script, lo: nat, hi: nat): set<OrderId> {
    if lo >= hi then {} else Fills(script, lo, hi - 1) + TurnAt(script, hi - 1).fills
  }

  // ---- cancelAll ----

  /** What trying each of `ids` once, a turn each, makes of the live orders: an order whose cancel goes through is gone,
      whatever failed before, and one whose only cancel fails stays, with its terms, until it fills. */
  ghost predicate TriedEach(script: Script, v: Venue, ids: seq<OrderId>, v': Venue) {
    && (forall i :: 0 <= i < |ids| && TurnAt(script, v.clock + i).err.None? ==> Lookup(v'.live, ids[i]) == None)
    && (NoDuplicates(ids) ==>
          forall i :: 0 <= i < |ids| && TurnAt(script, v.clock + i).err.Some? ==>
            Lookup(v'.live, ids[i]) ==
            if ids[i] in Fills(script, v.clock, v.clock + |ids|) then None else Lookup(v.live, ids[i]))
  }

  lemma {:induction false} EachIsTried(script: Script, v: Venue, ids: seq<OrderId>)
    ensures TriedEach(script, v, ids, CancelEach(script, v, ids).venue)
  {
    forall i | 0 <= i < |ids|
      ensures TurnAt(script, v.clock + i).err.None? ==> Lookup(CancelEach(script, v, ids).venue.live, ids[i]) == None
      ensures NoDuplicates(ids) && TurnAt(script, v.clock + i).err.Some? ==>
                Lookup(CancelEach(script, v, ids).venue.live, ids[i]) ==
                if ids[i] in Fills(script, v.clock, v.clock + |ids|) then None else Lookup(v.live, ids[i])
    {
      if TurnAt(script, v.clock + i).err.None? {
        SuccessfulCancel(script, v, ids, i);
      } else if NoDuplicates(ids) {
        FailedCancel(script, v, ids, i);
      }
    }
  }

  lemma {:induction false} SuccessfulCancel(script: Script, v: Venue, ids: seq<OrderId>, i: nat)
    requires i < |ids| && TurnAt(script, v.clock + i).err.None?
    ensures Lookup(CancelEach(script, v, ids).venue.live, ids[i]) == None
  {
    var n := |ids| - 1;
    CancelEachErrors(script, v, ids[..n]);
    if i < n {
      SuccessfulCancel(script, v, ids[..n], i);
    }
  }

  lemma {:induction false} FailedCancel(script: Script, v: Venue, ids: seq<OrderId>, i: nat)
    requires NoDuplicates(ids) && i < |ids| && TurnAt(script, v.clock + i).err.Some?
    ensures Lookup(CancelEach(script, v, ids).venue.live, ids[i]) ==
            if ids[i] in Fills(script, v.clock, v.clock + |ids|) then None else Lookup(v.live, ids[i])
  {
    hide Cancel, NoErrors, Lookup;
    var n := |ids| - 1;
    CancelEachErrors(script, v, ids[..n]);
    CancelLookup(script, CancelEach(script, v, ids[..n]).venue, ids[n], ids[i]);
    if i < n {
      FailedCancel(script, v, ids[..n], i);
      assert ids[n] != ids[i];
    } else {
      assert ids[i] !in ids[..n];
      UntriedLookup(script, v, ids[..n], ids[i]);
    }
  }

  lemma CancelLookup(script: Script, v: Venue, tried: OrderId, id: OrderId)
    ensures var gone := id in TurnAt(script, v.clock).fills || (id == tried && TurnAt(script, v.clock).err.None?);
            Lookup(Cancel(script, v, tried).0.live, id) == if gone then None else Lookup(v.live, id)
  {
  }

  lemma UntriedLookup(script: Script, v: Venue, ids: seq<OrderId>, id: OrderId)
    requires id !in ids
    ensures Lookup(CancelEach(script, v, ids).venue.live, id) ==
            if id in Fills(script, v.clock, v.clock + |ids|) then None else Lookup(v.live, id)
  {
    CancelEachLive(script, v, ids);
    hide CancelEach, Fills;
  }

  /** Every id is tried once; nothing else is touched but by fills; the result is the error of the first call that
      failed, and without one no id of the list is live any more. */
  lemma CancelEachOutcome(script: Script, v: Venue, ids: seq<OrderId>)
    ensures var c := CancelEach(script, v, ids);
            var hi := v.clock + |ids|;
            && c.venue.clock == hi && c.venue.orderSeq == v.orderSeq
            && (forall id :: id in c.venue.live ==> id in v.live && c.venue.live[id] == v.live[id])
            && (forall id :: id !in ids ==> (id in c.venue.live <==> id in v.live && id !in Fills(script, v.clock, hi)))
            && (c.firstErr.None? <==> NoErrors(script, v.clock, hi))
            && (c.firstErr.Some? ==> exists t ::
                  v.clock <= t < hi && NoErrors(script, v.clock, t) && TurnAt(script, t).err == c.firstErr)
            && (c.firstErr.None? ==> forall id :: id in ids ==> id !in c.venue.live)
            && TriedEach(script, v, ids, c.venue)
  {
    CancelEachErrors(script, v, ids);
    CancelEachLive(script, v, ids);
    EachIsTried(script, v, ids);
    hide CancelEach, NoErrors, Fills, TriedEach;
  }

  lemma {:induction false} CancelEachErrors(script: Script, v: Venue, ids: seq<OrderId>)
    ensures var c := CancelEach(script, v, ids);
            var hi := v.clock + |ids|;
            && c.venue.clock == hi && c.venue.orderSeq == v.orderSeq
            && (c.firstErr.None? <==> NoErrors(script, v.clock, hi))
            && (c.firstErr.Some? ==> exists t ::
                  v.clock <= t < hi && NoErrors(script, v.clock, t) && TurnAt(script, t).err == c.firstErr)
  {
    if ids != [] {
      var n := |ids| - 1;
      CancelEachErrors(script, v, ids[..n]);
      var c, c' := CancelEach(script, v, ids[..n]), CancelEach(script, v, ids);
      var mid := v.clock + n;
      if c.firstErr.None? && TurnAt(script, mid).err.Some? {
        assert NoErrors(script, v.clock, mid) && TurnAt(script, mid).err == c'.firstErr;
      }
    }
  }

  lemma {:induction false} CancelEachLive(script: Script, v: Venue, ids: seq<OrderId>)
    ensures var c := CancelEach(script, v, ids);
            && c.venue.clock == v.clock + |ids|
            && (forall id :: id in c.venue.live ==> id in v.live && c.venue.live[id] == v.live[id])
            && (forall id :: id !in ids ==>
                    (id in c.venue.live <==> id in v.live && id !in Fills(script, v.clock, v.clock + |ids|)))
            && (c.firstErr.None? ==> forall id :: id in ids ==> id !in c.venue.live)
  {
    if ids != [] {
      var n := |ids| - 1;
      CancelEachLive(script, v, ids[..n]);
      assert ids == ids[..n] + [ids[n]];
    }
  }

  // ---- Placement ----

  /** The tracked map that placing `plan` from id `first` leaves: consecutive ids onto consecutive plan entries. */
  function Numbered(first: nat, plan: seq<ManagedOrder>): map<OrderId, ManagedOrder> {
    if plan == [] then map[]
    else
      var n := |plan| - 1;
      Numbered(first, plan[..n])[first + n := plan[n]]
  }

  lemma {:induction false} NumberedAt(first: nat, plan: seq<ManagedOrder>)
    ensures forall id :: id in Numbered(first, plan) <==> first <= id < first + |plan|
    ensures forall id :: id in Numbered(first, plan) ==> Numbered(first, plan)[id] == plan[id - first]
  {
    if plan != [] {
      NumberedAt(first, plan[..|plan| - 1]);
    }
  }

  /** How many of the `n` calls starting at turn t go through before the first failure. */
  function Successes(script: Script, t: nat, n: nat): (k: nat)
    ensures k <= n && (k < n ==> TurnAt(script, t + k).err.Some?)
  {
    if n == 0 then 0
    else
      var k := Successes(script, t, n - 1);
      if k == n - 1 && TurnAt(script, t + k).err.None? then n else k
  }

  lemma {:induction false} SuccessesFirst(script: Script, t: nat, n: nat)
    ensures NoErrors(script, t, t + Successes(script, t, n))
    ensures NoErrors(script, t, t + n) ==> Successes(script, t, n) == n
  {
    if n > 0 {
      SuccessesFirst(script, t, n - 1);
    }
  }

  function Lookup(live: map<OrderId, Order>, id: OrderId): Option<Order> {
    if id in live then Some(live[id]) else None
  }

  /** What is live under `id` at turn hi when exactly the orders `placed` went through from venue v on, one a turn:
      an older order unless filled since, a placed one unless filled after its own placement, and nothing else. */
  function LiveAt(script: Script, v: Venue, placed: seq<ManagedOrder>, hi: nat, id: OrderId): Option<Order> {
    var i := id - v.orderSeq - 1;
    if i < 0 then if id in Fills(script, v.clock, hi) then None else Lookup(v.live, id)
    else if i < |placed| && id !in Fills(script, v.clock + i + 1, hi) then Some(placed[i].order)
    else None
  }

  /** Exactly the first k orders of the plan are placed and tracked, k being the number of calls before the first
      failure, and the error is the one that call met; the exchange holds what LiveAt says. */
  lemma {:induction false} PlaceEachOutcome(script: Script, v: Venue, plan: seq<ManagedOrder>)
    requires forall id :: id in v.live ==> id <= v.orderSeq
    ensures var p := PlaceEach(script, v, plan);
            var k := Successes(script, v.clock, |plan|);
            && p.venue.clock == v.clock + (if k < |plan| then k + 1 else k)
            && p.venue.orderSeq == v.orderSeq + k
            && p.tracked == Numbered(v.orderSeq + 1, plan[..k])
            && p.err == (if k < |plan| then TurnAt(script, v.clock + k).err else None)
            && forall id: OrderId :: Lookup(p.venue.live, id) == LiveAt(script, v, plan[..k], p.venue.clock, id)
  {
    PlaceEachCounts(script, v, plan);
    forall id: OrderId
      ensures Lookup(PlaceEach(script, v, plan).venue.live, id)
           == LiveAt(script, v, plan[..Successes(script, v.clock, |plan|)], PlaceEach(script, v, plan).venue.clock, id)
    {
      PlaceEachLive(script, v, plan, id);
    }
  }

  lemma {:induction false} PlaceEachCounts(script: Script, v: Venue, plan: seq<ManagedOrder>)
    ensures var p := PlaceEach(script, v, plan);
            var k := Successes(script, v.clock, |plan|);
            && p.venue.clock == v.clock + (if k < |plan| then k + 1 else k)
            && p.venue.orderSeq == v.orderSeq + k
            && p.tracked == Numbered(v.orderSeq + 1, plan[..k])
            && p.err == if k < |plan| then TurnAt(script, v.clock + k).err else None
  {
    hide Fills, NoErrors, Place, Turned;
    if plan != [] {
      var n := |plan| - 1;
      PlaceEachCounts(script, v, plan[..n]);
      PlaceResult(script, PlaceEach(script, v, plan[..n]).venue, plan[n].order);
      var k := Successes(script, v.clock, n);
      assert plan[..n][..k] == plan[..k];
      assert plan[..n + 1] == plan;
      if k == n {
        var r := Place(script, PlaceEach(script, v, plan[..n]).venue, plan[n].order).1;
        assert PlaceEach(script, v, plan).err == if r.Ok? then None else Some(r.error);
      }
    }
  }

  lemma PlaceResult(script: Script, v: Venue, order: Order)
    ensures var (v', r) := Place(script, v, order);
            && v'.clock == v.clock + 1
            && (r.Ok? <==> TurnAt(script, v.clock).err.None?)
            && (r.Ok? ==> r == Ok(v.orderSeq + 1) && v'.orderSeq == v.orderSeq + 1)
            && (r.Err? ==> r == Err(TurnAt(script, v.clock).err.value) && v'.orderSeq == v.orderSeq)
  {
  }

  lemma {:induction false} PlaceEachLive(script: Script, v: Venue, plan: seq<ManagedOrder>, id: OrderId)
    requires id in v.live ==> id <= v.orderSeq
    ensures var p := PlaceEach(script, v, plan);
            Lookup(p.venue.live, id) == LiveAt(script, v, plan[..Successes(script, v.clock, |plan|)], p.venue.clock, id)
  {
    hide NoErrors, Place, TurnAt, Numbered;
    if plan != [] {
      var n := |plan| - 1;
      PlaceEachCounts(script, v, plan[..n]);
      PlaceEachLive(script, v, plan[..n], id);
      var p, k := PlaceEach(script, v, plan[..n]), Successes(script, v.clock, n);
      assert plan[..n][..k] == plan[..k];
      if k == n {
        assert plan[..n] + [plan[n]] == plan[..n + 1];
        PlaceNextLive(script, v, plan[..n], p.venue, plan[n].order, plan[n].layer, id);
        PlaceResult(script, p.venue, plan[n].order);
      }
    }
  }

  lemma PlaceNextLive(script: Script, v: Venue, placed: seq<ManagedOrder>, now: Venue, order: Order, layer: int,
                      id: OrderId)
    requires now.clock == v.clock + |placed| && now.orderSeq == v.orderSeq + |placed|
    requires Lookup(now.live, id) == LiveAt(script, v, placed, now.clock, id)
    ensures var (next, r) := Place(script, now, order);
            Lookup(next.live, id) ==
            LiveAt(script, v, if r.Ok? then placed + [ManagedOrder(layer, order)] else placed, next.clock, id)
  {
    var i := id - v.orderSeq - 1;
    var lo := v.clock + if i < 0 then 0 else i + 1;
    if lo <= now.clock {
      assert Fills(script, lo, now.clock + 1) == Fills(script, lo, now.clock) + TurnAt(script, now.clock).fills;
    }
  }

  lemma {:induction false} FillsSplit(script: Script, lo: nat, mid: nat, hi: nat)
    requires lo <= mid <= hi
    ensures Fills(script, lo, hi) == Fills(script, lo, mid) + Fills(script, mid, hi)
  {
    if mid < hi {
      FillsSplit(script, lo, mid, hi - 1);
    }
  }

  // ---- One call ----

  /** The plan is in bijection with quote index x side: entry 2i is the bid of quote i and entry 2i+1 its ask, each with
      the quote's size. */
  lemma {:induction false} PlanAt(symbol: string, quotes: seq<LayerQuote>, i: nat)
    requires i < |quotes|
    ensures var plan, q := Plan(symbol, quotes), quotes[i];
            && plan[2 * i] == ManagedOrder(q.layer, Order(symbol, Buy, q.bidPrice, q.size))
            && plan[2 * i + 1] == ManagedOrder(q.layer, Order(symbol, Sell, q.askPrice, q.size))
  {
    if i < |quotes| - 1 {
      PlanAt(symbol, quotes[..|quotes| - 1], i);
    }
  }

  /** The live orders that correspond one to one to `Numbered(first, plan)`. */
  function OrdersFrom(first: nat, plan: seq<ManagedOrder>): map<OrderId, Order> {
    var m := Numbered(first, plan);
    map id | id in m :: m[id].order
  }

  /** A manager that is entitled to call: its world is sound and it ranges over exactly its tracked ids. */
  ghost predicate CanCall(base: nat, w: World, ids: seq<OrderId>) {
    NoOrphans(base, w) && Enumerates(ids, w.tracked.Keys)
  }

  /** When a cancel fails nothing is placed or forgotten; when all succeed none of the manager's orders is live. */
  lemma CancelPhase(script: Script, base: nat, w: World, ids: seq<OrderId>)
    requires CanCall(base, w, ids)
    ensures var c := CancelEach(script, w.venue, ids);
            && base <= c.venue.orderSeq == w.venue.orderSeq && c.venue.clock == w.venue.clock + |ids|
            && NoOrphans(base, World(c.venue, w.tracked))
            && (c.firstErr.None? <==> NoErrors(script, w.venue.clock, c.venue.clock))
            && (c.firstErr.None? ==> MyLive(base, c.venue) == map[])
  {
    CancelEachOutcome(script, w.venue, ids);
  }

  /** The state in which Reconcile starts placing, when every cancel went through. */
  function Cleared(script: Script, w: World, ids: seq<OrderId>): Venue {
    CancelEach(script, w.venue, ids).venue
  }

  lemma ReconcileTracked(script: Script, symbol: string, base: nat, w: World, quotes: seq<LayerQuote>,
                         ids: seq<OrderId>)
    requires CanCall(base, w, ids)
    requires NoErrors(script, w.venue.clock, w.venue.clock + |ids|)
    ensures var (w', err) := Exec(script, symbol, w, Reconcile(quotes), ids);
            var plan, v := Plan(symbol, quotes), Cleared(script, w, ids);
            var k := Successes(script, v.clock, |plan|);
            && v.clock == w.venue.clock + |ids| && base <= v.orderSeq == w.venue.orderSeq
            && w' == World(PlaceEach(script, v, plan).venue, Numbered(v.orderSeq + 1, plan[..k]))
            && w'.venue.clock == v.clock + (if k < |plan| then k + 1 else k)
            && w'.venue.orderSeq == v.orderSeq + k
            && err == if k < |plan| then TurnAt(script, v.clock + k).err else None
  {
    hide CanCall, NoOrphans, Enumerates, PlaceEach, Numbered, Successes, Plan, NoErrors, MyLive;
    CancelPhase(script, base, w, ids);
    PlaceEachCounts(script, Cleared(script, w, ids), Plan(symbol, quotes));
  }

  lemma ReconcileLive(script: Script, symbol: string, base: nat, w: World, quotes: seq<LayerQuote>, ids: seq<OrderId>,
                      id: OrderId)
    requires CanCall(base, w, ids) && id > base
    requires NoErrors(script, w.venue.clock, w.venue.clock + |ids|)
    ensures var plan, v := Plan(symbol, quotes), Cleared(script, w, ids);
            var w' := PlaceEach(script, v, plan).venue;
            var i := id - v.orderSeq - 1;
            Lookup(w'.live, id) ==
            if 0 <= i < Successes(script, v.clock, |plan|) && id !in Fills(script, v.clock + i + 1, w'.clock)
            then Some(plan[i].order) else None
  {
    hide Enumerates, Exec, CancelEach, PlaceEach, Numbered, Successes, Plan, NoErrors, Fills;
    CancelPhase(script, base, w, ids);
    var v := Cleared(script, w, ids);
    assert id !in MyLive(base, v);
    PlaceEachLive(script, v, Plan(symbol, quotes), id);
  }

  lemma NoLaterFills(script: Script, lo: nat, hi: nat)
    requires Fills(script, lo, hi) == {}
    ensures forall t: nat :: lo <= t ==> Fills(script, t, hi) == {}
  {
    forall t: nat | lo <= t <= hi
      ensures Fills(script, t, hi) == {}
    {
      FillsSplit(script, lo, t, hi);
    }
  }

  /** Above base, the first k orders of the plan are live from id `first` on, unless filled since their placement, and
      nothing else is. */
  ghost predicate PlacedFrom(script: Script, base: nat, v: Venue, t: nat, first: nat, plan: seq<ManagedOrder>, k: nat)
    requires k <= |plan|
  {
    forall id: OrderId :: id > base ==>
      var i := id - first;
      Lookup(v.live, id) == if 0 <= i < k && id !in Fills(script, t + i + 1, v.clock) then Some(plan[i].order) else None
  }

  /** Reconcile, exactly. If every cancel goes through and the first k placements do (and no more), the tracked map
      holds the first k planned orders under fresh ids and nothing else, each with the terms it has at the exchange,
      where it is live unless filled since. Without fills during the placements those k orders are exactly the manager's
      live orders. */
  lemma ReconcileOutcome(script: Script, symbol: string, base: nat, w: World, quotes: seq<LayerQuote>,
                         ids: seq<OrderId>)
    requires CanCall(base, w, ids)
    requires NoErrors(script, w.venue.clock, w.venue.clock + |ids|)
    ensures var (w', err) := Exec(script, symbol, w, Reconcile(quotes), ids);
            var t, first, plan := w.venue.clock + |ids|, w.venue.orderSeq + 1, Plan(symbol, quotes);
            var k := Successes(script, t, |plan|);
            && w'.tracked == Numbered(first, plan[..k])
            && err == (if k < |plan| then TurnAt(script, t + k).err else None)
            && MyLive(base, w'.venue).Keys <= w'.tracked.Keys
            && PlacedFrom(script, base, w'.venue, t, first, plan, k)
            && (Fills(script, t, w'.venue.clock) == {} ==> MyLive(base, w'.venue) == OrdersFrom(first, plan[..k]))
            && NoOrphans(base, w')
  {
    hide Exec, CancelEach, Cleared, PlaceEach, Successes, Plan, NoErrors, Numbered;
    hide Lookup, OrdersFrom, MyLive, PlacedFrom, CanCall, NoOrphans;
    ReconcileTracked(script, symbol, base, w, quotes, ids);
    ReconcilePlaced(script, symbol, base, w, quotes, ids);
    OlderIdsOnly(script, symbol, base, w, quotes, ids);
    var w' := Exec(script, symbol, w, Reconcile(quotes), ids).0;
    var t, first, plan := w.venue.clock + |ids|, w.venue.orderSeq + 1, Plan(symbol, quotes);
    OutcomeOfPlaced(script, base, w', t, first, plan, Successes(script, t, |plan|));
  }

  lemma ReconcilePlaced(script: Script, symbol: string, base: nat, w: World, quotes: seq<LayerQuote>, ids: seq<OrderId>)
    requires CanCall(base, w, ids)
    requires NoErrors(script, w.venue.clock, w.venue.clock + |ids|)
    ensures var t, plan := w.venue.clock + |ids|, Plan(symbol, quotes);
            var v', first := Exec(script, symbol, w, Reconcile(quotes), ids).0.venue, w.venue.orderSeq + 1;
            PlacedFrom(script, base, v', t, first, plan, Successes(script, t, |plan|))
  {
    hide Exec, CancelEach, PlaceEach, Successes, Plan, NoErrors, Numbered, Enumerates, NoOrphans, Fills, Lookup;
    ReconcileTracked(script, symbol, base, w, quotes, ids);
    var v, first := Exec(script, symbol, w, Reconcile(quotes), ids).0.venue, w.venue.orderSeq + 1;
    var t, plan := w.venue.clock + |ids|, Plan(symbol, quotes);
    forall id: OrderId | id > base
      ensures var i := id - first;
              Lookup(v.live, id) ==
              if 0 <= i < Successes(script, t, |plan|) && id !in Fills(script, t + i + 1, v.clock)
              then Some(plan[i].order) else None
    {
      ReconcileLive(script, symbol, base, w, quotes, ids, id);
    }
  }

  lemma OutcomeOfPlaced(script: Script, base: nat, w: World, t: nat, first: nat, plan: seq<ManagedOrder>, k: nat)
    requires k <= |plan| && base < first && w.venue.orderSeq == first - 1 + k
    requires w.tracked == Numbered(first, plan[..k])
    requires PlacedFrom(script, base, w.venue, t, first, plan, k)
    requires forall id :: id in w.venue.live ==> id <= w.venue.orderSeq
    ensures MyLive(base, w.venue).Keys <= w.tracked.Keys
    ensures Fills(script, t, w.venue.clock) == {} ==> MyLive(base, w.venue) == OrdersFrom(first, plan[..k])
    ensures NoOrphans(base, w)
  {
    hide Fills, Lookup, Numbered, MyLive;
    NumberedAt(first, plan[..k]);
    LiveFromLookup(base, w.venue, w.tracked);
    if Fills(script, t, w.venue.clock) == {} {
      NoLaterFills(script, t, w.venue.clock);
      AllLive(base, w.venue, first, plan[..k]);
    }
  }

  lemma AllLive(base: nat, v: Venue, first: nat, plan: seq<ManagedOrder>)
    requires base < first
    requires forall id: OrderId :: id > base ==>
               Lookup(v.live, id) == var i := id - first; if 0 <= i < |plan| then Some(plan[i].order) else None
    ensures MyLive(base, v) == OrdersFrom(first, plan)
  {
    NumberedAt(first, plan);
    forall id: OrderId
      ensures id in MyLive(base, v) <==> id in OrdersFrom(first, plan)
      ensures id in MyLive(base, v) ==> MyLive(base, v)[id] == OrdersFrom(first, plan)[id]
    {
      assert id > base ==>
          Lookup(v.live, id) == var i := id - first; if 0 <= i < |plan| then Some(plan[i].order) else None;
    }
  }

  lemma OlderIdsOnly(script: Script, symbol: string, base: nat, w: World, quotes: seq<LayerQuote>, ids: seq<OrderId>)
    requires CanCall(base, w, ids)
    requires NoErrors(script, w.venue.clock, w.venue.clock + |ids|)
    ensures var w' := Exec(script, symbol, w, Reconcile(quotes), ids).0;
            forall id :: id in w'.venue.live ==> id <= w'.venue.orderSeq
  {
    ReconcileTracked(script, symbol, base, w, quotes, ids);
    var w' := Exec(script, symbol, w, Reconcile(quotes), ids).0;
    forall id | id in w'.venue.live
      ensures id <= w'.venue.orderSeq
    {
      if id > base {
        ReconcileLive(script, symbol, base, w, quotes, ids, id);
      }
    }
  }

  lemma LiveFromLookup(base: nat, v: Venue, tracked: map<OrderId, ManagedOrder>)
    requires forall id: OrderId :: id > base && Lookup(v.live, id).Some? ==>
               id in tracked && Lookup(v.live, id) == Some(tracked[id].order)
    ensures forall id :: id in v.live && id > base ==> id in tracked && tracked[id].order == v.live[id]
    ensures MyLive(base, v).Keys <= tracked.Keys
  {
    forall id | id in v.live && id > base
      ensures id in tracked && tracked[id].order == v.live[id]
    {
      assert Lookup(v.live, id).Some?;
    }
  }

  /** CancelAll never changes what is tracked, so OpenOrderCount is the same after it; when it reports success nothing
      of the manager is live. */
  lemma CancelAllOutcome(script: Script, symbol: string, base: nat, w: World, ids: seq<OrderId>)
    requires CanCall(base, w, ids)
    ensures var (w', err) := Exec(script, symbol, w, CancelAll, ids);
            && w'.tracked == w.tracked
            && (err.None? <==> NoErrors(script, w.venue.clock, w.venue.clock + |w.tracked|))
            && (err.None? ==> MyLive(base, w'.venue) == map[])
            && NoOrphans(base, w')
            && NoDuplicates(ids) && TriedEach(script, w.venue, ids, w'.venue)
  {
    CancelPhase(script, base, w, ids);
    EachIsTried(script, w.venue, ids);
    EnumerationLength(ids, w.tracked.Keys);
    hide TriedEach, Fills, CancelEach;
  }

  lemma {:induction false} EnumerationLength<T(!new)>(xs: seq<T>, s: set<T>)
    requires Enumerates(xs, s)
    ensures |xs| == |s|
  {
    if xs == [] {
      assert s == {};
    } else {
      var n := |xs| - 1;
      assert xs == xs[..n] + [xs[n]];
      forall x ensures x in xs[..n] <==> x in s - {xs[n]} {
        if x in xs[..n] { var i :| 0 <= i < n && xs[i] == x; }
      }
      EnumerationLength(xs[..n], s - {xs[n]});
    }
  }

  /** When some cancel fails, Reconcile reports the first failure, places nothing and forgets nothing: the next call
      retries every id. */
  lemma ReconcileBlocked(script: Script, symbol: string, base: nat, w: World, quotes: seq<LayerQuote>,
                         ids: seq<OrderId>)
    requires CanCall(base, w, ids)
    requires !NoErrors(script, w.venue.clock, w.venue.clock + |ids|)
    ensures var (w', err) := Exec(script, symbol, w, Reconcile(quotes), ids);
            && w'.tracked == w.tracked && w'.venue.orderSeq == w.venue.orderSeq
            && err.Some?
            && (exists t :: w.venue.clock <= t < w.venue.clock + |ids| && NoErrors(script, w.venue.clock, t)
                  && TurnAt(script, t).err == err)
            && (forall id :: id in w'.venue.live ==> id in w.venue.live && w'.venue.live[id] == w.venue.live[id])
            && NoDuplicates(ids) && TriedEach(script, w.venue, ids, w'.venue)
  {
    CancelEachOutcome(script, w.venue, ids);
    hide TriedEach, Fills, CancelEach;
  }

  // ---- Every run ----

  lemma ExecKeepsNoOrphans(script: Script, symbol: string, base: nat, w: World, op: Op, ids: seq<OrderId>)
    requires CanCall(base, w, ids)
    ensures NoOrphans(base, Exec(script, symbol, w, op, ids).0)
  {
    CancelPhase(script, base, w, ids);
    if op.Reconcile? && CancelEach(script, w.venue, ids).firstErr.None? {
      ReconcileOutcome(script, symbol, base, w, op.quotes, ids);
    }
  }

  lemma LastCall(script: Script, symbol: string, start: World, calls: seq<Call>, c: Call)
    requires ValidCalls(script, symbol, start, calls + [c])
    ensures ValidCalls(script, symbol, start, calls)
    ensures Enumerates(c.ids, After(script, symbol, start, calls).tracked.Keys)
    ensures After(script, symbol, start, calls + [c])
            == Exec(script, symbol, After(script, symbol, start, calls), c.op, c.ids).0
  {
    assert (calls + [c])[..|calls|] == calls;
  }

  /** Over every sequence of Reconcile and CancelAll calls, whatever fails or fills, no order of the manager is live
      without being tracked. */
  lemma {:induction false} RunKeepsNoOrphans(script: Script, symbol: string, start: World, calls: seq<Call>)
    requires Fresh(start) && ValidCalls(script, symbol, start, calls)
    ensures NoOrphans(start.venue.orderSeq, After(script, symbol, start, calls))
  {
    if calls != [] {
      var n := |calls| - 1;
      RunKeepsNoOrphans(script, symbol, start, calls[..n]);
      ExecKeepsNoOrphans(script, symbol, start.venue.orderSeq, After(script, symbol, start, calls[..n]), calls[n].op,
          calls[n].ids);
    }
  }

  /** OpenOrderCount bounds the number of the manager's live orders from above, in every state of every run. */
  lemma OpenOrderCountBoundsLive(script: Script, symbol: string, start: World, calls: seq<Call>)
    requires Fresh(start) && ValidCalls(script, symbol, start, calls)
    ensures var w := After(script, symbol, start, calls);
            |MyLive(start.venue.orderSeq, w.venue)| <= |w.tracked|
  {
    RunKeepsNoOrphans(script, symbol, start, calls);
    var w := After(script, symbol, start, calls);
    SubsetSize(MyLive(start.venue.orderSeq, w.venue).Keys, w.tracked.Keys);
  }

  lemma {:induction false} SubsetSize<T>(a: set<T>, b: set<T>)
    requires a <= b
    ensures |a| <= |b|
  {
    if a != {} {
      var x :| x in a;
      SubsetSize(a - {x}, b - {x});
    }
  }

  /** Orders that were on the exchange before the manager are never cancelled by it: they stay, with their terms, until
      they fill. */
  lemma {:induction false} RunLeavesOthersAlone(script: Script, symbol: string, start: World, calls: seq<Call>,
                                                id: OrderId)
    requires Fresh(start) && ValidCalls(script, symbol, start, calls)
    requires id <= start.venue.orderSeq
    ensures var w := After(script, symbol, start, calls);
            && start.venue.clock <= w.venue.clock
            && Lookup(w.venue.live, id) ==
               if id in Fills(script, start.venue.clock, w.venue.clock) then None else Lookup(start.venue.live, id)
  {
    if calls != [] {
      var n := |calls| - 1;
      RunKeepsNoOrphans(script, symbol, start, calls[..n]);
      RunLeavesOthersAlone(script, symbol, start, calls[..n], id);
      CallLeavesOthersAlone(script, symbol, start.venue.orderSeq, After(script, symbol, start, calls[..n]), calls[n].op,
          calls[n].ids, id);
      var w0, w, w' := start.venue, After(script, symbol, start, calls[..n]).venue,
          After(script, symbol, start, calls).venue;
      FillsSplit(script, w0.clock, w.clock, w'.clock);
    }
  }

  lemma CallLeavesOthersAlone(script: Script, symbol: string, base: nat, w: World, op: Op, ids: seq<OrderId>,
                              id: OrderId)
    requires CanCall(base, w, ids) && id <= base
    ensures var w' := Exec(script, symbol, w, op, ids).0;
            && w.venue.clock <= w'.venue.clock
            && Lookup(w'.venue.live, id) ==
               if id in Fills(script, w.venue.clock, w'.venue.clock) then None else Lookup(w.venue.live, id)
  {
    hide PlaceEach, CancelEach, Successes, Plan, Numbered, NoErrors;
    CancelPhase(script, base, w, ids);
    CancelEachOutcome(script, w.venue, ids);
    var c := CancelEach(script, w.venue, ids);
    if op.Reconcile? && c.firstErr.None? {
      PlaceEachOutcome(script, c.venue, Plan(symbol, op.quotes));
      var w' := Exec(script, symbol, w, op, ids).0;
      FillsSplit(script, w.venue.clock, c.venue.clock, w'.venue.clock);
    }
  }

  // ---- History independence ----

  /** Every entry of m1 is in m2, moved by the distance from first1 to first2. */
  ghost predicate Shifted<V(!new)>(m1: map<OrderId, V>, first1: nat, m2: map<OrderId, V>, first2: nat) {
    forall id :: id in m1 ==>
      && id >= first1
      && id - first1 + first2 in m2
      && m2[id - first1 + first2] == m1[id]
  }

  /** The two maps differ only in where their ids start. */
  ghost predicate SameUpToShift<V(!new)>(m1: map<OrderId, V>, first1: nat, m2: map<OrderId, V>, first2: nat) {
    Shifted(m1, first1, m2, first2) && Shifted(m2, first2, m1, first1)
  }

  /** Whatever two managers have been through, on whatever exchanges, one Reconcile with the same quotes that meets no
      adapter error leaves both tracking the same orders up to the shift between their exchange ids, and holding each
      live unless it has filled since its placement; when nothing fills during the placements, their live orders are the
      same up to that shift too. Orders may fill while they are being cancelled. */
  lemma HistoryIndependent(symbol: string, quotes: seq<LayerQuote>,
                           script1: Script, start1: World, calls1: seq<Call>, ids1: seq<OrderId>,
                           script2: Script, start2: World, calls2: seq<Call>, ids2: seq<OrderId>)
    requires CleanLastCall(symbol, quotes, script1, start1, calls1, ids1)
    requires CleanLastCall(symbol, quotes, script2, start2, calls2, ids2)
    ensures var w1 := After(script1, symbol, start1, calls1 + [Call(Reconcile(quotes), ids1)]);
            var w2 := After(script2, symbol, start2, calls2 + [Call(Reconcile(quotes), ids2)]);
            var v1, v2 := After(script1, symbol, start1, calls1).venue, After(script2, symbol, start2, calls2).venue;
            var first1, first2 := v1.orderSeq + 1, v2.orderSeq + 1;
            var t1, t2 := v1.clock + |ids1|, v2.clock + |ids2|;
            var base1, base2 := start1.venue.orderSeq, start2.venue.orderSeq;
            var plan := Plan(symbol, quotes);
            && SameUpToShift(w1.tracked, first1, w2.tracked, first2)
            && PlacedFrom(script1, base1, w1.venue, t1, first1, plan, |plan|)
            && PlacedFrom(script2, base2, w2.venue, t2, first2, plan, |plan|)
            && (Fills(script1, t1, w1.venue.clock) == {} && Fills(script2, t2, w2.venue.clock) == {} ==>
                  SameUpToShift(MyLive(base1, w1.venue), first1, MyLive(base2, w2.venue), first2))
  {
    hide After, ValidCalls, CleanLastCall, Plan, Numbered, OrdersFrom, MyLive, Exec, Fills, PlacedFrom, SameUpToShift;
    CleanReconcile(symbol, quotes, script1, start1, calls1, ids1);
    CleanReconcile(symbol, quotes, script2, start2, calls2, ids2);
    var first1 := After(script1, symbol, start1, calls1).venue.orderSeq + 1;
    var first2 := After(script2, symbol, start2, calls2).venue.orderSeq + 1;
    PlansShift(first1, first2, Plan(symbol, quotes));
  }

  lemma PlansShift(first1: nat, first2: nat, plan: seq<ManagedOrder>)
    ensures SameUpToShift(Numbered(first1, plan), first1, Numbered(first2, plan), first2)
    ensures SameUpToShift(OrdersFrom(first1, plan), first1, OrdersFrom(first2, plan), first2)
  {
    hide Numbered;
    NumberedAt(first1, plan);
    NumberedAt(first2, plan);
  }

  /** The last call of the run is a Reconcile that meets no adapter error; fills are unrestricted. */
  ghost predicate CleanLastCall(symbol: string, quotes: seq<LayerQuote>, script: Script, start: World,
                                calls: seq<Call>, ids: seq<OrderId>) {
    && Fresh(start)
    && ValidCalls(script, symbol, start, calls + [Call(Reconcile(quotes), ids)])
    && var t := After(script, symbol, start, calls).venue.clock;
       NoErrors(script, t, t + |ids| + 2 * |quotes|)
  }

  /** The last call of a run, when it is a Reconcile without adapter error, tracks exactly the plan; what is live is
      settled by the fills since each placement, and is exactly the plan when there are none. */
  lemma CleanReconcile(symbol: string, quotes: seq<LayerQuote>, script: Script, start: World, calls: seq<Call>,
                       ids: seq<OrderId>)
    requires CleanLastCall(symbol, quotes, script, start, calls, ids)
    ensures var w' := After(script, symbol, start, calls + [Call(Reconcile(quotes), ids)]);
            var v, base, plan := After(script, symbol, start, calls).venue, start.venue.orderSeq, Plan(symbol, quotes);
            var t, first := v.clock + |ids|, v.orderSeq + 1;
            && w'.tracked == Numbered(first, plan)
            && PlacedFrom(script, base, w'.venue, t, first, plan, |plan|)
            && (Fills(script, t, w'.venue.clock) == {} ==> MyLive(base, w'.venue) == OrdersFrom(first, plan))
  {
    hide After, ValidCalls, Plan, Numbered, OrdersFrom, MyLive, Exec;
    hide NoErrors, NoOrphans, Enumerates, Fills, PlacedFrom;
    LastCall(script, symbol, start, calls, Call(Reconcile(quotes), ids));
    RunKeepsNoOrphans(script, symbol, start, calls);
    CleanCall(script, symbol, start.venue.orderSeq, After(script, symbol, start, calls), quotes, ids);
  }

  lemma CleanCall(script: Script, symbol: string, base: nat, w: World, quotes: seq<LayerQuote>, ids: seq<OrderId>)
    requires CanCall(base, w, ids)
    requires NoErrors(script, w.venue.clock, w.venue.clock + |ids| + 2 * |quotes|)
    ensures var (w', err) := Exec(script, symbol, w, Reconcile(quotes), ids);
            var t, first, plan := w.venue.clock + |ids|, w.venue.orderSeq + 1, Plan(symbol, quotes);
            && err == None
            && w'.tracked == Numbered(first, plan)
            && PlacedFrom(script, base, w'.venue, t, first, plan, |plan|)
            && (Fills(script, t, w'.venue.clock) == {} ==> MyLive(base, w'.venue) == OrdersFrom(first, plan))
  {
    var plan, t := Plan(symbol, quotes), w.venue.clock + |ids|;
    assert NoErrors(script, w.venue.clock, t) && NoErrors(script, t, t + |plan|);
    hide PlaceEach, CancelEach, Numbered, Enumerates, MyLive, Exec, Fills;
    hide PlacedFrom, NoOrphans, CanCall, NoErrors, Successes, OrdersFrom;
    ReconcileOutcome(script, symbol, base, w, quotes, ids);
    SuccessesFirst(script, t, |plan|);
    assert plan[..|plan|] == plan;
  }
}

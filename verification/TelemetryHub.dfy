/**
 * The hub's own code (internal/telemetry/hub.go), its map, counter and channels updated in place.
 * Each call here runs without interference and is proved to be a path of the step system in Hub, so what HubProofs
 * says of every run covers it; the step system is what adds the interleavings.
 */
module TelemetryHub {
  import opened Common
  import opened Hub
  import opened HubPaths
  import opened HubProofs

  // ---- The steps of each call ----

  /** Unsubscribing c, up to the look at the length that follows the n-th event drained. */
  function DrainedSteps(c: SubId, n: nat): seq<Label> {
    if n == 0 then [Delete(c), CheckLen(c)] else DrainedSteps(c, n - 1) + [Drain(c), CheckLen(c)]
  }

  /** Unsubscribing c with n events buffered. */
  function UnsubscribeSteps(c: SubId, n: nat): seq<Label> {
    DrainedSteps(c, n) + [Close(c)]
  }

  /** Dispatching one event to the subscriptions copied in the order `subs`, up to the n-th turn. */
  function SentSteps(subs: seq<SubId>, n: nat): seq<Label> {
    if n == 0 then [Pull, Snapshot(subs)] else SentSteps(subs, n - 1) + [SendNext]
  }

  function DispatchSteps(subs: seq<SubId>): seq<Label> {
    SentSteps(subs, |subs|) + [LoopDone]
  }

  lemma DrainedNext(c: SubId, n: nat)
    ensures DrainedSteps(c, n) + [Drain(c)] + [CheckLen(c)] == DrainedSteps(c, n + 1)
    ensures [Delete(c)] + [CheckLen(c)] == DrainedSteps(c, 0)
  {
  }

  lemma SentNext(subs: seq<SubId>, n: nat)
    ensures SentSteps(subs, n) + [SendNext] == SentSteps(subs, n + 1)
    ensures [Pull] + [Snapshot(subs)] == SentSteps(subs, 0)
  {
  }

  datatype Channel = Channel(buf: seq<EventId>, closed: bool)

  /** What the dispatcher copies of a subscriber: its channel, by id, and its filter. */
  datatype Subscription = Subscription(id: SubId, filter: set<BotId>)

  function IdsOf(subs: seq<Subscription>): seq<SubId> {
    if subs == [] then [] else IdsOf(subs[..|subs| - 1]) + [subs[|subs| - 1].id]
  }

  lemma {:induction false} IdsAt(subs: seq<Subscription>)
    ensures |IdsOf(subs)| == |subs|
    ensures forall i :: 0 <= i < |subs| ==> IdsOf(subs)[i] == subs[i].id
  {
    if subs != [] {
      IdsAt(subs[..|subs| - 1]);
    }
  }

  /** The filter map built from the requested bot ids. */
  method FilterOf(botIDs: seq<BotId>) returns (filter: set<BotId>)
    ensures forall b :: b in filter <==> b in botIDs
  {
    filter := {};
    for i := 0 to |botIDs|
      invariant forall b :: b in filter <==> b in botIDs[..i]
    {
      assert botIDs[..i + 1] == botIDs[..i] + [botIDs[i]];
      filter := filter + {botIDs[i]};
    }
    assert botIDs[..|botIDs|] == botIDs;
  }

  class TelemetryHub {
    var inbound: seq<BotId>
    var subscribers: map<SubId, set<BotId>>  // filter by id; the channel of id c is channels[c]
    var nextID: nat
    var channels: seq<Channel>
    var pulled: nat  // names the next event; the source passes events themselves
    ghost var model: State

    ghost predicate Valid()
      reads this
    {
      && DispatcherOk(model) && SubscribersOk(model)
      && inbound == model.published[model.pulled..] && pulled == model.pulled
      && subscribers.Keys == model.registered
      && nextID == |model.chans| == |channels|
      && (forall c :: c in subscribers ==> subscribers[c] == model.chans[c].filter)
      && (forall c :: 0 <= c < |channels| ==>
            channels[c].buf == model.chans[c].buf && (channels[c].closed <==> model.chans[c].phase == Closed))
    }

    constructor ()
      ensures Valid() && model == INIT
    {
      inbound, subscribers, nextID, channels, pulled := [], map[], 0, [], 0;
      model := INIT;
    }

    /** Take one step of the model along a path from `start`. */
    ghost method Extend(start: State, labels: seq<Label>, l: Label) returns (longer: seq<Label>)
      requires DispatcherOk(model) && SubscribersOk(model)
      requires Path(start, labels, model) && Enabled(model, l)
      modifies `model
      ensures model == Next(old(model), l) && longer == labels + [l] && Path(start, longer, model)
      ensures DispatcherOk(model) && SubscribersOk(model)
    {
      PathStep(start, labels, model, l);
      StepKeepsDispatcher(model, l);
      StepKeepsSubscribers(model, l);
      model, longer := Next(model, l), labels + [l];
    }

    /** A producer's send on the inbound channel, which blocks while 256 events are buffered. */
    method Publish(bot: BotId)
      requires Valid() && !model.panicked && |inbound| < 256
      modifies this
      ensures Valid() && Path(old(model), [Label.Publish(bot)], model)
      ensures inbound == old(inbound) + [bot] && channels == old(channels) && subscribers == old(subscribers)
    {
      hide Path;
      EmptyPath(model);
      ghost var labels := Extend(model, [], Label.Publish(bot));
      assert labels == [Label.Publish(bot)];
      inbound := inbound + [bot];
    }

    method Subscribe(botIDs: seq<BotId>) returns (c: SubId)
      requires Valid() && !model.panicked
      modifies this
      ensures Valid() && Path(old(model), [Label.Subscribe(botIDs)], model)
      ensures c == old(nextID) && c !in old(subscribers)
      ensures c in subscribers && subscribers == old(subscribers)[c := subscribers[c]]
      ensures forall b :: b in subscribers[c] <==> b in botIDs
      ensures channels == old(channels) + [Channel([], false)] && inbound == old(inbound)
    {
      var filter := FilterOf(botIDs);
      hide Path;
      EmptyPath(model);
      ghost var labels := Extend(model, [], Label.Subscribe(botIDs));
      assert labels == [Label.Subscribe(botIDs)];
      c := nextID;
      nextID := nextID + 1;
      subscribers := subscribers[c := filter];
      channels := channels + [Channel([], false)];
      assert filter == set b | b in botIDs;
    }

    /** A subscriber's receive, which blocks while nothing is buffered. */
    method Receive(c: SubId) returns (e: EventId)
      requires Valid() && !model.panicked && c < |channels| && channels[c].buf != []
      modifies this
      ensures Valid() && Path(old(model), [Label.Receive(c)], model)
      ensures e == old(channels[c].buf[0])
      ensures channels == old(channels)[c := old(channels)[c].(buf := old(channels)[c].buf[1..])]
      ensures inbound == old(inbound) && subscribers == old(subscribers)
    {
      hide Path;
      EmptyPath(model);
      ghost var labels := Extend(model, [], Label.Receive(c));
      assert labels == [Label.Receive(c)];
      e := channels[c].buf[0];
      channels := channels[c := channels[c].(buf := channels[c].buf[1..])];
    }

    /** The locked section of unsubscribe. */
    method RemoveSubscription(c: SubId) returns (ghost labels: seq<Label>)
      requires Valid() && !model.panicked && c in subscribers
      modifies this
      ensures Valid() && !model.panicked && Path(old(model), labels, model)
      ensures labels == [Delete(c)]
      ensures c !in subscribers && c < |channels| && channels[c] == old(channels[c])
      ensures model.chans[c].phase == Draining
    {
      hide Path, Passes;
      EmptyPath(model);
      labels := Extend(model, [], Delete(c));
      hide DispatcherOk, SubscribersOk;
      subscribers := subscribers - {c};
    }

    /** The condition of the drain loop: is anything buffered? */
    method MoreBuffered(ghost start: State, ghost labels: seq<Label>, c: SubId)
      returns (yes: bool, ghost longer: seq<Label>)
      requires Valid() && !model.panicked && c !in subscribers && Path(start, labels, model)
      requires c < |channels| && model.chans[c].phase == Draining
      modifies `model
      ensures Valid() && !model.panicked && Path(start, longer, model)
      ensures longer == labels + [CheckLen(c)]
      ensures yes <==> |channels[c].buf| > 0
      ensures model.chans[c].phase == if yes then Receiving else Closing
    {
      hide Path, Passes;
      longer := Extend(start, labels, CheckLen(c));
      hide DispatcherOk, SubscribersOk;
      yes := |channels[c].buf| > 0;
    }

    method DrainOne(ghost start: State, ghost labels: seq<Label>, c: SubId) returns (ghost longer: seq<Label>)
      requires Valid() && !model.panicked && c !in subscribers && Path(start, labels, model)
      requires c < |channels| && model.chans[c].phase == Receiving && channels[c].buf != []
      modifies this
      ensures Valid() && !model.panicked && c !in subscribers && Path(start, longer, model)
      ensures longer == labels + [Label.Drain(c)]
      ensures c < |channels| && channels[c] == old(channels[c]).(buf := old(channels[c].buf[1..]))
      ensures model.chans[c].phase == Draining
    {
      hide Path, Passes;
      longer := Extend(start, labels, Label.Drain(c));
      hide DispatcherOk, SubscribersOk;
      channels := channels[c := channels[c].(buf := channels[c].buf[1..])];
    }

    /** The unsubscribe function of a live subscriber: out of the map, drain until empty, close. */
    method Unsubscribe(c: SubId) returns (ghost labels: seq<Label>)
      requires Valid() && !model.panicked && c in subscribers
      modifies this
      ensures Valid() && Path(old(model), labels, model)
      ensures old(c < |channels|) && labels == UnsubscribeSteps(c, old(|channels[c].buf|))
      ensures c !in subscribers && c < |channels| && channels[c] == Channel([], true)
    {
      OpenWhileRegistered(model, c);
      hide Path, DispatcherOk, SubscribersOk, Next, DrainedSteps, Valid;
      DrainedNext(c, 0);
      labels := RemoveSubscription(c);
      var yes;
      yes, labels := MoreBuffered(old(model), labels, c);
      ghost var drained := 0;
      while yes
        invariant Valid() && !model.panicked && c < |channels| && c !in subscribers
        invariant Path(old(model), labels, model)
        invariant labels == DrainedSteps(c, drained)
        invariant drained + |channels[c].buf| == |old(channels)[c].buf|
        invariant yes <==> |channels[c].buf| > 0
        invariant model.chans[c].phase == if yes then Receiving else Closing
        decreases |channels[c].buf|
      {
        DrainedNext(c, drained);
        drained := drained + 1;
        labels := DrainOne(old(model), labels, c);
        yes, labels := MoreBuffered(old(model), labels, c);
      }
      labels := CloseChannel(old(model), labels, c);
    }

    method CloseChannel(ghost start: State, ghost labels: seq<Label>, c: SubId) returns (ghost longer: seq<Label>)
      requires Valid() && !model.panicked && c !in subscribers && Path(start, labels, model)
      requires c < |channels| && model.chans[c].phase == Closing
      modifies this
      ensures Valid() && Path(start, longer, model) && c !in subscribers
      ensures longer == labels + [Label.Close(c)]
      ensures c < |channels| && channels[c] == old(channels[c]).(closed := true)
    {
      hide Path, Passes;
      longer := Extend(start, labels, Label.Close(c));
      hide DispatcherOk, SubscribersOk;
      channels := channels[c := channels[c].(closed := true)];
    }

    /** The dispatcher's copy of the subscription map, in whatever order ranging over it yields. */
    method CopySubscriptions() returns (subs: seq<Subscription>)
      ensures Enumerates(IdsOf(subs), subscribers.Keys)
      ensures forall sub :: sub in subs ==> sub.id in subscribers && sub.filter == subscribers[sub.id]
    {
      hide Enumerates;
      var remaining := subscribers.Keys;
      subs := [];
      EnumerateNone<SubId>();
      assert subscribers.Keys - remaining == {};
      while remaining != {}
        invariant remaining <= subscribers.Keys
        invariant Enumerates(IdsOf(subs), subscribers.Keys - remaining)
        invariant forall sub :: sub in subs ==> sub.id in subscribers && sub.filter == subscribers[sub.id]
        decreases remaining
      {
        var c :| c in remaining;
        EnumerateOneMore(IdsOf(subs), subscribers.Keys - remaining, c);
        assert subscribers.Keys - remaining + {c} == subscribers.Keys - (remaining - {c});
        var sub := Subscription(c, subscribers[c]);
        assert (subs + [sub])[..|subs|] == subs;
        subs, remaining := subs + [sub], remaining - {c};
      }
      assert subscribers.Keys - remaining == subscribers.Keys;
    }

    /** Pull: the dispatcher takes the oldest buffered event. */
    method PullEvent() returns (ghost labels: seq<Label>, bot: BotId, event: EventId)
      requires Valid() && !model.panicked && model.dispatcher.Waiting? && inbound != []
      modifies this
      ensures Valid() && !model.panicked && Path(old(model), labels, model)
      ensures labels == [Pull]
      ensures model.dispatcher == Took(event) && event < |model.published| && model.published[event] == bot
      ensures inbound == old(inbound)[1..] && subscribers == old(subscribers)
    {
      hide Path, Passes, Considered, NewChan;
      EmptyPath(model);
      labels := Extend(model, [], Pull);
      hide DispatcherOk, SubscribersOk;
      bot, event := inbound[0], pulled;
      inbound, pulled := inbound[1..], pulled + 1;
    }

    /** A copied subscription of the hub: its subscriber may have left since. */
    ghost predicate Copied(sub: Subscription)
      reads this
    {
      sub.id < |channels| == |model.chans| && sub.filter == model.chans[sub.id].filter
    }

    /** A send to it now would be one on a closed channel. */
    ghost predicate Deadly(sub: Subscription, bot: BotId)
      requires Copied(sub)
      reads this
    {
      channels[sub.id].closed && Passes(sub.filter, bot)
    }

    /** The locked section of the dispatcher. */
    method TakeSnapshot(ghost start: State, ghost labels: seq<Label>, event: EventId)
      returns (subs: seq<Subscription>, ghost longer: seq<Label>)
      requires Valid() && !model.panicked && model.dispatcher == Took(event) && Path(start, labels, model)
      modifies `model
      ensures Valid() && !model.panicked && Path(start, longer, model)
      ensures longer == labels + [Snapshot(IdsOf(subs))]
      ensures model.dispatcher == Sending(event, IdsOf(subs)) && model.published == old(model.published)
      ensures Enumerates(IdsOf(subs), subscribers.Keys)
      ensures forall sub :: sub in subs ==> Copied(sub) && !channels[sub.id].closed
    {
      hide Path, Passes, Considered, NewChan, Enumerates;
      subs := CopySubscriptions();
      longer := Extend(start, labels, Snapshot(IdsOf(subs)));
      hide DispatcherOk;
    }

    /** The end of the send loop. */
    ghost method FinishLoop(start: State, labels: seq<Label>) returns (longer: seq<Label>)
      requires Valid() && !model.panicked && Path(start, labels, model)
      requires model.dispatcher.Sending? && model.dispatcher.todo == []
      modifies `model
      ensures Valid() && !model.panicked && Path(start, longer, model)
      ensures longer == labels + [LoopDone]
      ensures model.dispatcher.Waiting?
    {
      hide Path, Passes, Considered, NewChan;
      longer := Extend(start, labels, LoopDone);
      hide DispatcherOk, SubscribersOk;
    }

    /** One turn of the send loop: skip, send, or drop when the buffer is full. Sending on a closed channel panics. */
    method Turn(ghost start: State, ghost labels: seq<Label>, sub: Subscription, event: EventId, bot: BotId)
      returns (panics: bool, ghost longer: seq<Label>)
      requires Valid() && !model.panicked && Copied(sub) && Path(start, labels, model)
      requires model.dispatcher.Sending? && model.dispatcher.event == event
      requires model.dispatcher.todo != [] && model.dispatcher.todo[0] == sub.id
      requires event < |model.published| && model.published[event] == bot
      modifies this
      ensures Valid() && Path(start, longer, model) && longer == labels + [SendNext]
      ensures panics == model.panicked == old(Deadly(sub, bot))
      ensures !panics ==> model.dispatcher == Sending(event, old(model.dispatcher.todo)[1..])
      ensures |channels| == old(|channels|)
      ensures forall d :: 0 <= d < |channels| && d != sub.id ==> channels[d] == old(channels)[d]
      ensures var ch, asked := old(channels)[sub.id], sub.filter == {} || bot in sub.filter;
              channels[sub.id] == if asked && !ch.closed && |ch.buf| < 64 then ch.(buf := ch.buf + [event]) else ch
      ensures model.published == old(model.published)
      ensures subscribers == old(subscribers) && inbound == old(inbound)
      ensures forall other :: old(Copied(other)) ==> Copied(other) && (Deadly(other, bot) <==> old(Deadly(other, bot)))
    {
      hide Path, DispatcherOk, SubscribersOk, Next;
      TurnEffect(model, sub.id, bot);
      longer := Extend(start, labels, SendNext);
      if |sub.filter| > 0 && bot !in sub.filter {
        return false, longer;
      }
      if channels[sub.id].closed {
        return true, longer;
      }
      if |channels[sub.id].buf| < SUBSCRIBER_CAPACITY {
        channels := channels[sub.id := channels[sub.id].(buf := channels[sub.id].buf + [event])];
      }
      panics := false;
    }

    /** The send loop over the copied subscriptions, with nobody interfering in it: n turns, all of them unless one
        panics, which is the first that meets a closed channel whose filter takes the event. */
    method SendToAll(ghost start: State, ghost labels: seq<Label>, subs: seq<Subscription>, event: EventId, bot: BotId)
      returns (panics: bool, ghost n: nat, ghost longer: seq<Label>)
      requires Valid() && !model.panicked && Path(start, labels, model)
      requires model.dispatcher == Sending(event, IdsOf(subs)) && labels == SentSteps(IdsOf(subs), 0)
      requires event < |model.published| && model.published[event] == bot
      requires forall i :: 0 <= i < |subs| ==> Copied(subs[i])
      modifies this
      ensures Valid() && Path(start, longer, model)
      ensures n <= |subs| && longer == SentSteps(IdsOf(subs), n)
      ensures panics == model.panicked
      ensures if panics then n > 0 && old(Deadly(subs[n - 1], bot))
              else n == |subs| && model.dispatcher == Sending(event, [])
      ensures forall i :: 0 <= i < (if panics then n - 1 else n) ==> !old(Deadly(subs[i], bot))
      ensures subscribers == old(subscribers) && inbound == old(inbound)
    {
      IdsAt(subs);
      hide Path, SentSteps, Valid, IdsOf, Copied, Deadly;
      longer, n := labels, 0;
      for i := 0 to |subs|
        invariant Valid() && Path(start, longer, model) && !model.panicked
        invariant n == i && longer == SentSteps(IdsOf(subs), n)
        invariant model.dispatcher == Sending(event, IdsOf(subs)[i..])
        invariant event < |model.published| && model.published[event] == bot
        invariant subscribers == old(subscribers) && inbound == old(inbound)
        invariant forall j :: 0 <= j < |subs| ==>
            Copied(subs[j]) && (Deadly(subs[j], bot) <==> old(Deadly(subs[j], bot)))
        invariant forall j :: 0 <= j < i ==> !old(Deadly(subs[j], bot))
      {
        SentNext(IdsOf(subs), i);
        panics, longer := Turn(start, longer, subs[i], event, bot);
        n := i + 1;
        if panics {
          return;
        }
        assert IdsOf(subs)[i..][1..] == IdsOf(subs)[i + 1..];
      }
      panics := false;
    }

    /** One round of the dispatch loop: take an event, copy the subscriptions in any order, try each matching channel
        once. Run without interference it finishes without panic. */
    method Dispatch() returns (ghost labels: seq<Label>, ghost subs: seq<SubId>)
      requires Valid() && !model.panicked && model.dispatcher.Waiting? && inbound != []
      modifies this
      ensures Valid() && Path(old(model), labels, model)
      ensures Enumerates(subs, old(subscribers.Keys)) && labels == DispatchSteps(subs)
      ensures !model.panicked && model.dispatcher.Waiting? && inbound == old(inbound)[1..]
    {
      hide Path, SentSteps, Valid;
      var bot, event, copied, panics;
      ghost var n;
      labels, bot, event := PullEvent();
      copied, labels := TakeSnapshot(old(model), labels, event);
      SentNext(IdsOf(copied), 0);
      IdsAt(copied);
      panics, n, labels := SendToAll(old(model), labels, copied, event, bot);
      labels := FinishLoop(old(model), labels);
      subs := IdsOf(copied);
    }
  }

  /** What one turn of c changes: at most its buffer, and where the dispatcher is. */
  lemma TurnEffect(s: State, c: SubId, bot: BotId)
    requires Enabled(s, SendNext) && s.dispatcher.todo[0] == c && s.published[s.dispatcher.event] == bot
    ensures var s', e, ch := Next(s, SendNext), s.dispatcher.event, s.chans[c];
            && s'.published == s.published && s'.pulled == s.pulled && s'.registered == s.registered
            && (s'.panicked <==> ch.phase == Closed && Passes(ch.filter, bot))
            && |s'.chans| == |s.chans|
            && (forall d :: 0 <= d < |s.chans| ==>
                  && s'.chans[d].filter == s.chans[d].filter && s'.chans[d].phase == s.chans[d].phase
                  && (d != c ==> s'.chans[d].buf == s.chans[d].buf))
            && (var sent := Passes(ch.filter, bot) && |ch.buf| < SUBSCRIBER_CAPACITY && !s'.panicked;
                s'.chans[c].buf == if sent then ch.buf + [e] else ch.buf)
            && (!s'.panicked ==> s'.dispatcher == Sending(e, s.dispatcher.todo[1..]))
  {
  }

  lemma OpenWhileRegistered(s: State, c: SubId)
    requires SubscribersOk(s) && c in s.registered
    ensures c < |s.chans| && s.chans[c].phase == Live
  {
  }
}

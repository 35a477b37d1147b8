/**
 * The telemetry fan-out broker (internal/telemetry/hub.go) as a step system: producers, one dispatcher, subscribers and
 * unsubscribing handlers interleave freely, each step being one channel operation or one locked section.
 * Events are named by their position in the order in which the inbound channel accepted them.
 */
module Hub {
  import opened Common

  type EventId = nat
  type SubId = nat

  const INBOUND_CAPACITY: nat := 256
  const SUBSCRIBER_CAPACITY: nat := 64

  /** Unsubscribing: out of the map, then a loop that looks at the length and receives, then close. */
  datatype Phase = Live | Draining | Receiving | Closing | Closed

  /** One turn of the send loop for one subscriber: the event, whether it was sent, and
      how many were buffered before. */
  datatype Attempt = Attempt(event: EventId, sent: bool, buffered: nat)

  /** A subscriber channel with its history: `since` is the number of snapshots taken before Subscribe, `seen` the end
      of the events considered for it, `log` every attempt, `taken` all that left the buffer, `received` what the
      consumer got. */
  datatype Chan = Chan(filter: set<BotId>, buf: seq<EventId>, phase: Phase,
                       since: nat, seen: nat, log: seq<Attempt>, taken: seq<EventId>, received: seq<EventId>)

  /** The dispatcher: waiting, holding an event before its snapshot, or sending it to the rest of a snapshot. */
  datatype Dispatcher = Waiting | Took(event: EventId) | Sending(event: EventId, todo: seq<SubId>)

  /** `published` is everything the inbound channel ever accepted, by bot id; its first `pulled` events have been taken
      out of it. */
  datatype State = State(published: seq<BotId>, pulled: nat, snapshots: nat, dispatcher: Dispatcher,
                         chans: seq<Chan>, registered: set<SubId>, panicked: bool)

  const INIT := State([], 0, 0, Waiting, [], {}, false)

  datatype Label =
    | Publish(bot: BotId)
    | Subscribe(botIDs: seq<BotId>)
    | Pull
    | Snapshot(order: seq<SubId>)
    | SendNext
    | LoopDone
    | Receive(c: SubId)
    | Delete(c: SubId)
    | CheckLen(c: SubId)
    | Drain(c: SubId)
    | Close(c: SubId)

  /** An empty filter lets every bot through. */
  predicate Passes(filter: set<BotId>, bot: BotId) { filter == {} || bot in filter }

  ghost predicate Enabled(s: State, l: Label) {
    && !s.panicked
    && match l
       case Publish(_) => |s.published| - s.pulled < INBOUND_CAPACITY
       case Subscribe(_) => true
       case Pull => s.dispatcher.Waiting? && s.pulled < |s.published|
       case Snapshot(order) => s.dispatcher.Took? && Enumerates(order, s.registered)
       case SendNext =>
         && s.dispatcher.Sending? && s.dispatcher.todo != []
         && s.dispatcher.todo[0] < |s.chans| && s.dispatcher.event < |s.published|
       case LoopDone => s.dispatcher.Sending? && s.dispatcher.todo == []
       case Receive(c) => c < |s.chans| && s.chans[c].buf != []
       case Delete(c) => c < |s.chans| && s.chans[c].phase == Live
       case CheckLen(c) => c < |s.chans| && s.chans[c].phase == Draining
       case Drain(c) => c < |s.chans| && s.chans[c].phase == Receiving && s.chans[c].buf != []
       case Close(c) => c < |s.chans| && s.chans[c].phase == Closing
  }

  function NewChan(botIDs: seq<BotId>, snapshots: nat): Chan {
    Chan(set b | b in botIDs, [], Live, snapshots, snapshots, [], [], [])
  }

  /** The select with default on a channel that is open: send if there is room, else drop. */
  function Offer(c: Chan, e: EventId): Chan {
    var room := |c.buf| < SUBSCRIBER_CAPACITY;
    c.(buf := if room then c.buf + [e] else c.buf, seen := e + 1, log := c.log + [Attempt(e, room, |c.buf|)])
  }

  /** The dispatcher's turn for one subscriber. */
  function Considered(c: Chan, e: EventId, bot: BotId): Chan {
    if Passes(c.filter, bot) then Offer(c, e) else c.(seen := e + 1)
  }

  function Next(s: State, l: Label): State
    requires Enabled(s, l)
  {
    match l
    case Publish(bot) => s.(published := s.published + [bot])
    case Subscribe(botIDs) =>
      s.(chans := s.chans + [NewChan(botIDs, s.snapshots)], registered := s.registered + {|s.chans|})
    case Pull => s.(dispatcher := Took(s.pulled), pulled := s.pulled + 1)
    case Snapshot(order) => s.(dispatcher := Sending(s.dispatcher.event, order), snapshots := s.snapshots + 1)
    case SendNext =>
      var Sending(e, todo) := s.dispatcher;
      var c := todo[0];
      if s.chans[c].phase == Closed && Passes(s.chans[c].filter, s.published[e]) then s.(panicked := true)
      else s.(dispatcher := Sending(e, todo[1..]), chans := s.chans[c := Considered(s.chans[c], e, s.published[e])])
    case LoopDone => s.(dispatcher := Waiting)
    case Receive(c) =>
      var ch := s.chans[c];
      var ch' := ch.(buf := ch.buf[1..], taken := ch.taken + [ch.buf[0]], received := ch.received + [ch.buf[0]]);
      s.(chans := s.chans[c := ch'])
    case Delete(c) => s.(registered := s.registered - {c}, chans := s.chans[c := s.chans[c].(phase := Draining)])
    case CheckLen(c) =>
      var next := if s.chans[c].buf == [] then Closing else Receiving;
      s.(chans := s.chans[c := s.chans[c].(phase := next)])
    case Drain(c) =>
      var ch := s.chans[c];
      s.(chans := s.chans[c := ch.(phase := Draining, buf := ch.buf[1..], taken := ch.taken + [ch.buf[0]])])
    case Close(c) => s.(chans := s.chans[c := s.chans[c].(phase := Closed)])
  }

  // ---- Runs ----

  datatype Run = Run(states: seq<State>, labels: seq<Label>)

  ghost predicate StepAt(run: Run, k: nat)
    requires k < |run.labels| && |run.states| == |run.labels| + 1
  {
    Enabled(run.states[k], run.labels[k]) && run.states[k + 1] == Next(run.states[k], run.labels[k])
  }

  ghost predicate ValidRun(run: Run) {
    && |run.states| == |run.labels| + 1
    && run.states[0] == INIT
    && forall k {:trigger StepAt(run, k)} :: 0 <= k < |run.labels| ==> StepAt(run, k)
  }

  // ---- What a subscriber should see ----

  /** The events of [lo, hi) that pass the filter, in order: the reference stream. */
  function Filtered(published: seq<BotId>, filter: set<BotId>, lo: nat, hi: nat): seq<EventId>
    requires hi <= |published|
  {
    if lo >= hi then []
    else
      var before := Filtered(published, filter, lo, hi - 1);
      if Passes(filter, published[hi - 1]) then before + [hi - 1] else before
  }

  function EventsOf(log: seq<Attempt>): seq<EventId> {
    if log == [] then [] else EventsOf(log[..|log| - 1]) + [log[|log| - 1].event]
  }

  /** The attempts that put their event into the buffer. */
  function SentOf(log: seq<Attempt>): seq<EventId> {
    if log == [] then []
    else
      var before, last := SentOf(log[..|log| - 1]), log[|log| - 1];
      if last.sent then before + [last.event] else before
  }

  /** The attempts that dropped their event. */
  function DroppedOf(log: seq<Attempt>): seq<EventId> {
    if log == [] then []
    else
      var before, last := DroppedOf(log[..|log| - 1]), log[|log| - 1];
      if last.sent then before else before + [last.event]
  }

  predicate StrictlyIncreasing(es: seq<EventId>) {
    forall i, j :: 0 <= i < j < |es| ==> es[i] < es[j]
  }

  // ---- The invariant of one channel ----

  /** Every event considered since Subscribe that passes the filter was attempted once, in order; what was sent
      is what was taken out plus what is buffered; the buffer is within its capacity and every drop met a full
      one; what the consumer got and is still to get is strictly ordered; and until unsubscribing only the
      consumer has taken anything out. */
  ghost predicate ChanOk(published: seq<BotId>, c: Chan) {
    && c.since <= c.seen <= |published|
    && EventsOf(c.log) == Filtered(published, c.filter, c.since, c.seen)
    && c.taken + c.buf == SentOf(c.log)
    && |c.buf| <= SUBSCRIBER_CAPACITY
    && (forall i :: 0 <= i < |c.log| ==>
            (c.log[i].sent <==> c.log[i].buffered < SUBSCRIBER_CAPACITY) && c.log[i].buffered <= SUBSCRIBER_CAPACITY)
    && StrictlyIncreasing(c.received + c.buf)
    && (forall e :: e in c.received + c.buf ==> e in SentOf(c.log))
    && (c.phase == Live ==> c.received == c.taken)
  }

  lemma IncreasingAppend(es: seq<EventId>, e: EventId)
    requires StrictlyIncreasing(es) && forall x :: x in es ==> x < e
    ensures StrictlyIncreasing(es + [e])
  {
    assert forall i :: 0 <= i < |es| ==> es[i] in es;
  }

  lemma NothingIncreasing()
    ensures StrictlyIncreasing([])
  {
  }

  lemma {:induction false} FilteredFacts(published: seq<BotId>, filter: set<BotId>, lo: nat, hi: nat)
    requires hi <= |published|
    ensures var f := Filtered(published, filter, lo, hi);
            && StrictlyIncreasing(f)
            && forall e :: e in f <==> lo <= e < hi && Passes(filter, published[e])
  {
    hide Passes, StrictlyIncreasing;
    if lo < hi {
      FilteredFacts(published, filter, lo, hi - 1);
      IncreasingAppend(Filtered(published, filter, lo, hi - 1), hi - 1);
    } else {
      NothingIncreasing();
    }
  }

  lemma FilteredNext(published: seq<BotId>, filter: set<BotId>, lo: nat, hi: nat)
    requires lo <= hi < |published|
    ensures Filtered(published, filter, lo, hi + 1)
         == Filtered(published, filter, lo, hi) + if Passes(filter, published[hi]) then [hi] else []
  {
  }

  lemma {:induction false} FilteredOfMore(published: seq<BotId>, bot: BotId, filter: set<BotId>, lo: nat, hi: nat)
    requires hi <= |published|
    ensures Filtered(published + [bot], filter, lo, hi) == Filtered(published, filter, lo, hi)
  {
    if lo < hi {
      FilteredOfMore(published, bot, filter, lo, hi - 1);
    }
  }

  lemma LogGrows(log: seq<Attempt>, a: Attempt)
    ensures EventsOf(log + [a]) == EventsOf(log) + [a.event]
    ensures SentOf(log + [a]) == SentOf(log) + if a.sent then [a.event] else []
    ensures DroppedOf(log + [a]) == DroppedOf(log) + if a.sent then [] else [a.event]
  {
    assert (log + [a])[..|log|] == log;
  }

  lemma {:induction false} LogSplits(log: seq<Attempt>)
    ensures |EventsOf(log)| == |log| == |SentOf(log)| + |DroppedOf(log)|
    ensures forall e :: e in EventsOf(log) <==> e in SentOf(log) || e in DroppedOf(log)
    ensures DroppedOf(log) == [] <==> forall i :: 0 <= i < |log| ==> log[i].sent
    ensures DroppedOf(log) == [] ==> SentOf(log) == EventsOf(log)
  {
    if log != [] {
      var n := |log| - 1;
      LogSplits(log[..n]);
      assert log == log[..n] + [log[n]];
      LogGrows(log[..n], log[n]);
      if DroppedOf(log) == [] {
        forall i | 0 <= i < |log| ensures log[i].sent {
          if i < n { assert log[..n][i].sent; }
        }
      }
    }
  }

  lemma OfferKeepsOk(published: seq<BotId>, c: Chan, e: EventId)
    requires ChanOk(published, c) && c.seen == e < |published| && c.since <= e
    ensures ChanOk(published, Considered(c, e, published[e]))
  {
    hide Filtered, EventsOf, SentOf, DroppedOf;
    FilteredNext(published, c.filter, c.since, e);
    if Passes(c.filter, published[e]) {
      var room := |c.buf| < SUBSCRIBER_CAPACITY;
      LogGrows(c.log, Attempt(e, room, |c.buf|));
      if room {
        assert c.taken + (c.buf + [e]) == (c.taken + c.buf) + [e];
        assert c.received + (c.buf + [e]) == (c.received + c.buf) + [e];
        SentBefore(published, c, e);
        IncreasingAppend(c.received + c.buf, e);
      }
    }
  }

  lemma SentBefore(published: seq<BotId>, c: Chan, e: EventId)
    requires ChanOk(published, c) && c.seen == e
    ensures forall x :: x in c.received + c.buf ==> c.since <= x < e && Passes(c.filter, published[x])
  {
    LogSplits(c.log);
    FilteredFacts(published, c.filter, c.since, e);
  }

  lemma TakeKeepsOk(published: seq<BotId>, c: Chan, received: bool, phase: Phase)
    requires ChanOk(published, c) && c.buf != []
    requires if received then phase == c.phase else phase != Live
    ensures ChanOk(published, c.(phase := phase, buf := c.buf[1..], taken := c.taken + [c.buf[0]],
                                 received := if received then c.received + [c.buf[0]] else c.received))
  {
    assert c.taken + [c.buf[0]] + c.buf[1..] == c.taken + c.buf;
    var all := c.received + c.buf;
    if received {
      assert c.received + [c.buf[0]] + c.buf[1..] == all;
    } else {
      var rest := c.received + c.buf[1..];
      var n := |c.received|;
      assert forall i :: 0 <= i < |rest| ==> rest[i] == all[if i < n then i else i + 1];
    }
  }

  // ---- The invariant of the hub ----

  /** Subscriber c is still to have its turn for the event being sent. */
  predicate Pending(s: State, c: SubId) { s.dispatcher.Sending? && c in s.dispatcher.todo }

  ghost predicate DispatcherOk(s: State) {
    && s.pulled <= |s.published| && |s.published| - s.pulled <= INBOUND_CAPACITY
    && match s.dispatcher
       case Waiting => s.snapshots == s.pulled
       case Took(e) => s.snapshots == e && s.pulled == e + 1
       case Sending(e, todo) =>
         && s.snapshots == s.pulled == e + 1
         && NoDuplicates(todo) && forall c :: c in todo ==> c < |s.chans|
  }

  ghost predicate SubscribersOk(s: State) {
    && (forall c :: c in s.registered <==> 0 <= c < |s.chans| && s.chans[c].phase == Live)
    && (forall c :: 0 <= c < |s.chans| ==>
            s.chans[c].seen <= s.snapshots && (Pending(s, c) ==> s.chans[c].seen == s.dispatcher.event))
    && (forall c :: c in s.registered && !Pending(s, c) ==> s.chans[c].seen == s.snapshots)
  }

  ghost predicate ChansOk(s: State) {
    forall c :: 0 <= c < |s.chans| ==> ChanOk(s.published, s.chans[c])
  }

  ghost predicate Inv(s: State) { DispatcherOk(s) && SubscribersOk(s) && ChansOk(s) }
}

/** What every run of the telemetry hub keeps. */
module HubProofs {
  import opened Common
  import opened Hub

  // ---- The invariant is kept by every step ----

  lemma StepKeepsDispatcher(s: State, l: Label)
    requires DispatcherOk(s) && SubscribersOk(s) && Enabled(s, l)
    ensures DispatcherOk(Next(s, l))
  {
    hide Passes, Offer, NewChan;
    if l.SendNext? {
      var todo := s.dispatcher.todo;
      assert forall c :: c in todo[1..] ==> c in todo;
    }
  }

  lemma StepKeepsSubscribers(s: State, l: Label)
    requires DispatcherOk(s) && SubscribersOk(s) && Enabled(s, l)
    ensures SubscribersOk(Next(s, l))
  {
    if l.SendNext? {
      SendKeepsSubscribers(s);
    } else {
      OtherStepsKeepSubscribers(s, l);
    }
  }

  lemma OtherStepsKeepSubscribers(s: State, l: Label)
    requires DispatcherOk(s) && SubscribersOk(s) && Enabled(s, l) && !l.SendNext?
    ensures SubscribersOk(Next(s, l))
  {
    hide Passes, Considered, Offer;
  }

  lemma SendKeepsSubscribers(s: State)
    requires DispatcherOk(s) && SubscribersOk(s) && Enabled(s, SendNext)
    ensures SubscribersOk(Next(s, SendNext))
  {
    hide Passes, NewChan;
    var todo := s.dispatcher.todo;
    assert todo == [todo[0]] + todo[1..];
    assert todo[0] !in todo[1..];
  }

  lemma StepKeepsChans(s: State, l: Label)
    requires DispatcherOk(s) && SubscribersOk(s) && ChansOk(s) && Enabled(s, l)
    ensures ChansOk(Next(s, l))
  {
    hide Filtered, EventsOf, SentOf, DroppedOf, Passes, StrictlyIncreasing;
    var s' := Next(s, l);
    forall c | 0 <= c < |s'.chans|
      ensures ChanOk(s'.published, s'.chans[c])
    {
      ChanStep(s, l, c);
    }
  }

  lemma NewChanOk(published: seq<BotId>, botIDs: seq<BotId>, snapshots: nat)
    requires snapshots <= |published|
    ensures ChanOk(published, NewChan(botIDs, snapshots))
  {
  }

  lemma ChanStep(s: State, l: Label, c: SubId)
    requires DispatcherOk(s) && SubscribersOk(s) && ChansOk(s) && Enabled(s, l) && c < |Next(s, l).chans|
    ensures ChanOk(Next(s, l).published, Next(s, l).chans[c])
  {
    hide Filtered, EventsOf, SentOf, DroppedOf, Passes, StrictlyIncreasing, Considered;
    match l
    case Subscribe(botIDs) => NewChanOk(s.published, botIDs, s.snapshots);
    case Publish(bot) => FilteredOfMore(s.published, bot, s.chans[c].filter, s.chans[c].since, s.chans[c].seen);
    case SendNext => if c == s.dispatcher.todo[0] { OfferKeepsOk(s.published, s.chans[c], s.dispatcher.event); }
    case Receive(r) => if c == r { TakeKeepsOk(s.published, s.chans[c], true, s.chans[c].phase); }
    case Drain(r) => if c == r { TakeKeepsOk(s.published, s.chans[c], false, Draining); }
    case _ =>
  }

  lemma {:induction false} InvAlways(run: Run, k: nat)
    requires ValidRun(run) && k < |run.states|
    ensures Inv(run.states[k])
  {
    if k > 0 {
      InvAlways(run, k - 1);
      assert StepAt(run, k - 1);
      StepKeepsDispatcher(run.states[k - 1], run.labels[k - 1]);
      StepKeepsSubscribers(run.states[k - 1], run.labels[k - 1]);
      StepKeepsChans(run.states[k - 1], run.labels[k - 1]);
    }
  }

  // ---- Delivery ----

  /** Whatever a subscriber has received, followed by what is buffered for it, is strictly ordered and
      so free of duplicates, and consists of accepted events that pass its filter and whose snapshot
      was taken after its Subscribe. */
  lemma DeliveredInOrder(run: Run, k: nat, c: SubId)
    requires ValidRun(run) && k < |run.states| && c < |run.states[k].chans|
    ensures var s, ch := run.states[k], run.states[k].chans[c];
            && |ch.buf| <= 64
            && StrictlyIncreasing(ch.received + ch.buf)
            && forall e :: e in ch.received + ch.buf ==>
                  ch.since <= e < s.snapshots <= |s.published| && Passes(ch.filter, s.published[e])
  {
    InvAlways(run, k);
    var s, ch := run.states[k], run.states[k].chans[c];
    assert ChanOk(s.published, ch);
    SentBefore(s.published, ch, ch.seen);
  }

  /** For every channel, also after its subscriber has left: the events considered for it since Subscribe that pass its
      filter were each attempted once, in order, and were taken out, are still buffered, or were dropped on a buffer of
      exactly 64. */
  lemma ChannelAccounting(run: Run, k: nat, c: SubId)
    requires ValidRun(run) && k < |run.states| && c < |run.states[k].chans|
    ensures var s, ch := run.states[k], run.states[k].chans[c];
            && ch.since <= ch.seen <= |s.published|
            && EventsOf(ch.log) == Filtered(s.published, ch.filter, ch.since, ch.seen)
            && ch.taken + ch.buf == SentOf(ch.log)
            && |EventsOf(ch.log)| == |ch.taken| + |ch.buf| + |DroppedOf(ch.log)|
            && |ch.buf| <= 64
            && (forall i :: 0 <= i < |ch.log| && !ch.log[i].sent ==> ch.log[i].buffered == 64)
            && (DroppedOf(ch.log) == [] ==> ch.taken + ch.buf == Filtered(s.published, ch.filter, ch.since, ch.seen))
            && (ch.phase == Live ==> ch.received == ch.taken)
  {
    InvAlways(run, k);
    var s, ch := run.states[k], run.states[k].chans[c];
    assert ChanOk(s.published, ch);
    LogSplits(ch.log);
    assert |SentOf(ch.log)| == |ch.taken + ch.buf|;
  }

  /** Until it unsubscribes, every event dispatched for a subscriber since its Subscribe that passes its filter was
      attempted exactly once, in order; it was either sent, and is received or still buffered, or dropped, and then the
      buffer held exactly 64. `seen` says how far dispatch has come for it: to the last snapshot, or, while its turn in
      the current snapshot is pending, to the event before. */
  lemma Accounting(run: Run, k: nat, c: SubId)
    requires ValidRun(run) && k < |run.states| && c in run.states[k].registered
    ensures c < |run.states[k].chans|
    ensures var s, ch := run.states[k], run.states[k].chans[c];
            && ch.since <= ch.seen <= |s.published|
            && ch.seen == (if Pending(s, c) then s.dispatcher.event else s.snapshots)
            && EventsOf(ch.log) == Filtered(s.published, ch.filter, ch.since, ch.seen)
            && |EventsOf(ch.log)| == |ch.received| + |ch.buf| + |DroppedOf(ch.log)|
            && ch.received + ch.buf == SentOf(ch.log)
            && (forall i :: 0 <= i < |ch.log| && !ch.log[i].sent ==> ch.log[i].buffered == 64)
            && (DroppedOf(ch.log) == [] ==> ch.received + ch.buf == Filtered(s.published, ch.filter, ch.since, ch.seen))
  {
    hide EventsOf, SentOf, DroppedOf, Filtered;
    InvAlways(run, k);
    ChannelAccounting(run, k, c);
  }

  /** In every state up to k the buffer of c, if it exists, has room. */
  ghost predicate NeverFull(run: Run, k: nat, c: SubId)
    requires k < |run.states|
  {
    forall m {:trigger run.states[m]} :: 0 <= m <= k && c < |run.states[m].chans| ==>
        |run.states[m].chans[c].buf| < 64
  }

  lemma {:induction false} NoDropsWithRoom(run: Run, k: nat, c: SubId)
    requires ValidRun(run) && k < |run.states| && NeverFull(run, k, c) && c < |run.states[k].chans|
    ensures DroppedOf(run.states[k].chans[c].log) == []
  {
    if k > 0 {
      assert StepAt(run, k - 1);
      var s := run.states[k - 1];
      assert NeverFull(run, k - 1, c);
      if c < |s.chans| {
        NoDropsWithRoom(run, k - 1, c);
        var event := if s.dispatcher.Sending? then s.dispatcher.event else 0;
        LogGrows(s.chans[c].log, Attempt(event, true, |s.chans[c].buf|));
      }
    }
  }

  /** A subscriber whose buffer never reaches 64 has got, or has buffered, exactly the filtered stream dispatched since
      it subscribed: nothing missing, nothing reordered. */
  lemma ExactStream(run: Run, k: nat, c: SubId)
    requires ValidRun(run) && k < |run.states| && c in run.states[k].registered && NeverFull(run, k, c)
    ensures c < |run.states[k].chans|
    ensures var s, ch := run.states[k], run.states[k].chans[c];
            && ch.seen == (if Pending(s, c) then s.dispatcher.event else s.snapshots) <= |s.published|
            && ch.received + ch.buf == Filtered(s.published, ch.filter, ch.since, ch.seen)
  {
    Accounting(run, k, c);
    NoDropsWithRoom(run, k, c);
  }

  // ---- What `since` means ----

  lemma {:induction false} SnapshotsGrow(run: Run, i: nat, j: nat)
    requires ValidRun(run) && i <= j < |run.states|
    ensures run.states[i].snapshots <= run.states[j].snapshots
    ensures |run.states[i].chans| <= |run.states[j].chans|
    ensures forall c :: 0 <= c < |run.states[i].chans| ==>
              && run.states[i].chans[c].since == run.states[j].chans[c].since
              && run.states[i].chans[c].filter == run.states[j].chans[c].filter
  {
    if i < j {
      SnapshotsGrow(run, i, j - 1);
      assert StepAt(run, j - 1);
    }
  }

  /** Subscriber c subscribes at step m and event e is snapshotted at step n: e counts as after `since` iff its snapshot
      comes later. */
  lemma SinceMeansAfterSubscribe(run: Run, m: nat, n: nat, k: nat, c: SubId, e: EventId)
    requires ValidRun(run) && m < k < |run.states| && n < |run.labels|
    requires run.labels[m].Subscribe? && c == |run.states[m].chans|
    requires run.labels[n].Snapshot? && run.states[n].dispatcher.Took? && run.states[n].dispatcher.event == e
    ensures c < |run.states[k].chans|
    ensures e >= run.states[k].chans[c].since <==> n > m
  {
    assert StepAt(run, m) && StepAt(run, n);
    InvAlways(run, n);
    SnapshotsGrow(run, m + 1, k);
    if n > m {
      SnapshotsGrow(run, m, n);
    } else {
      SnapshotsGrow(run, n + 1, m);
    }
  }

  /** The filter of a subscriber is, for good, the set of bot ids it asked for. */
  lemma FilterIsAskedFor(run: Run, m: nat, k: nat, c: SubId)
    requires ValidRun(run) && m < k < |run.states|
    requires run.labels[m].Subscribe? && c == |run.states[m].chans|
    ensures c < |run.states[k].chans|
    ensures forall b :: b in run.states[k].chans[c].filter <==> b in run.labels[m].botIDs
  {
    assert StepAt(run, m);
    SnapshotsGrow(run, m + 1, k);
  }

  /** A subscriber is offered, since its Subscribe, exactly the events of the bots it asked for, of every bot if it
      asked for none, and gets no others. */
  lemma OfferedWhatItAskedFor(run: Run, m: nat, k: nat, c: SubId)
    requires ValidRun(run) && m < k < |run.states|
    requires run.labels[m].Subscribe? && c == |run.states[m].chans|
    ensures c < |run.states[k].chans|
    ensures var s, ch, botIDs := run.states[k], run.states[k].chans[c], run.labels[m].botIDs;
            && ch.since == run.states[m].snapshots && ch.seen <= |s.published|
            && (forall e :: e in EventsOf(ch.log) <==>
                    ch.since <= e < ch.seen && (botIDs == [] || s.published[e] in botIDs))
            && (forall e :: e in ch.received + ch.buf ==>
                  ch.since <= e < |s.published| && (botIDs == [] || s.published[e] in botIDs))
  {
    FilterIsAskedFor(run, m, k, c);
    assert StepAt(run, m);
    SnapshotsGrow(run, m + 1, k);
    var s, ch, botIDs := run.states[k], run.states[k].chans[c], run.labels[m].botIDs;
    ChannelAccounting(run, k, c);
    DeliveredInOrder(run, k, c);
    FilteredFacts(s.published, ch.filter, ch.since, ch.seen);
    NobodyAskedFor(ch.filter, botIDs);
    hide EventsOf, SentOf, DroppedOf, Filtered, StrictlyIncreasing;
  }

  lemma NobodyAskedFor(filter: set<BotId>, botIDs: seq<BotId>)
    requires forall b :: b in filter <==> b in botIDs
    ensures forall bot :: Passes(filter, bot) <==> botIDs == [] || bot in botIDs
  {
    if botIDs != [] {
      assert botIDs[0] in filter;
    } else {
      assert filter == {};
    }
  }

  // ---- The inbound channel ----

  /** The bots of the events that were published, in order. */
  function PublishedBy(labels: seq<Label>): seq<BotId> {
    if labels == [] then []
    else
      var before, l := PublishedBy(labels[..|labels| - 1]), labels[|labels| - 1];
      if l.Publish? then before + [l.bot] else before
  }

  /** The inbound channel accepts every published event, in order, and nothing else; it never holds more than 256, and a
      producer waits iff it holds that many. */
  lemma {:induction false} InboundIsPublished(run: Run, k: nat, bot: BotId)
    requires ValidRun(run) && k < |run.states|
    ensures var s := run.states[k];
            && s.published == PublishedBy(run.labels[..k])
            && s.pulled <= |s.published| <= s.pulled + 256
            && (!s.panicked ==> (Enabled(s, Publish(bot)) <==> |s.published| - s.pulled < 256))
  {
    InvAlways(run, k);
    if k > 0 {
      InboundIsPublished(run, k - 1, bot);
      assert StepAt(run, k - 1);
      assert run.labels[..k][..k - 1] == run.labels[..k - 1];
    }
  }

  // ---- Sending on a closed channel ----

  /** The dispatcher never waits on a subscriber: its turn is possible in every reachable state of a send loop, whatever
      the buffers hold. */
  lemma TurnAlwaysPossible(run: Run, k: nat)
    requires ValidRun(run) && k < |run.states|
    requires run.states[k].dispatcher.Sending? && !run.states[k].panicked
    ensures Enabled(run.states[k], if run.states[k].dispatcher.todo == [] then LoopDone else SendNext)
  {
    InvAlways(run, k);
    var s := run.states[k];
    if s.dispatcher.todo != [] {
      assert s.dispatcher.todo[0] in s.dispatcher.todo;
    }
  }

  function Turns(labels: seq<Label>): nat {
    if labels == [] then 0 else Turns(labels[..|labels| - 1]) + if labels[|labels| - 1] == SendNext then 1 else 0
  }

  /** The send loop entered with snapshot `order` at step k0 is still the current one in state k. */
  ghost predicate InLoop(run: Run, k0: nat, k: nat, order: seq<SubId>)
    requires ValidRun(run)
  {
    && k0 < k < |run.states|
    && run.labels[k0] == Snapshot(order)
    && forall m {:trigger run.labels[m]} :: k0 < m < k ==> run.labels[m] != LoopDone
  }

  /** Absent a panic, an event is finished after exactly one turn per snapshotted subscriber, whatever everybody else
      does in between. */
  lemma {:induction false} OneTurnPerSubscriber(run: Run, k0: nat, k: nat, order: seq<SubId>)
    requires ValidRun(run) && InLoop(run, k0, k, order) && !run.states[k].panicked
    ensures var n := Turns(run.labels[k0 + 1..k]);
            && n <= |order|
            && run.states[k0].dispatcher.Took?
            && run.states[k].dispatcher == Sending(run.states[k0].dispatcher.event, order[n..])
  {
    assert StepAt(run, k0) && StepAt(run, k - 1);
    if k == k0 + 1 {
      assert order[0..] == order;
    } else {
      OneTurnPerSubscriber(run, k0, k - 1, order);
      assert run.labels[k - 1] != LoopDone;
      assert run.labels[k0 + 1..k][..k - k0 - 2] == run.labels[k0 + 1..k - 1];
    }
  }

  /** Subscriber c, of the snapshot at k0 and with a filter that passes its event, is closed at some step after it
      and before step m, which is its own turn. */
  ghost predicate ClosedBeforeTurn(run: Run, k0: nat, m: nat, c: SubId)
    requires ValidRun(run) && m < |run.labels|
  {
    var s := run.states[m];
    && run.labels[m] == SendNext
    && s.dispatcher.Sending? && s.dispatcher.todo != [] && s.dispatcher.todo[0] == c
    && c < |s.chans| && s.dispatcher.event < |s.published| && Passes(s.chans[c].filter, s.published[s.dispatcher.event])
    && exists j :: k0 < j < m && run.labels[j] == Close(c)
  }

  lemma {:induction false} ClosedByClose(run: Run, i: nat, j: nat, c: SubId)
    requires ValidRun(run) && i <= j < |run.states| && c < |run.states[i].chans|
    ensures c < |run.states[j].chans|
    ensures run.states[i].chans[c].phase == Closed ==> run.states[j].chans[c].phase == Closed
    ensures run.states[i].chans[c].phase != Closed ==>
              (run.states[j].chans[c].phase == Closed <==> exists m :: i <= m < j && run.labels[m] == Close(c))
  {
    if i < j {
      ClosedByClose(run, i, j - 1, c);
      assert StepAt(run, j - 1);
      var s := run.states[j - 1];
      if s.chans[c].phase != Closed && run.labels[j - 1] == Close(c) {
        assert exists m :: i <= m < j && run.labels[m] == Close(c);
      }
    }
  }

  /** In the loop that began with the snapshot at k0, the dispatcher's turn at step m sends on a closed channel, and
      panics, iff the subscriber whose turn it is was closed between the snapshot and that turn and its filter passes
      the event. */
  lemma TurnPanicsIff(run: Run, k0: nat, m: nat, order: seq<SubId>)
    requires ValidRun(run) && InLoop(run, k0, m, order) && m < |run.labels| && run.labels[m] == SendNext
    ensures run.states[m + 1].panicked <==> exists c :: c in order && ClosedBeforeTurn(run, k0, m, c)
  {
    assert StepAt(run, m) && StepAt(run, k0);
    InvAlways(run, k0);
    InvAlways(run, m);
    OneTurnPerSubscriber(run, k0, m, order);
    var s := run.states[m];
    var n := Turns(run.labels[k0 + 1..m]);
    var c := s.dispatcher.todo[0];
    assert c == order[n] && c in order;
    assert c in run.states[k0].registered;
    ClosedByClose(run, k0, m, c);
    assert run.labels[k0] != Close(c);
    if run.states[m + 1].panicked {
      assert ClosedBeforeTurn(run, k0, m, c);
    }
  }

  /** A panic can only come from a turn of the send loop. */
  lemma {:induction false} PanicComesFromTurn(run: Run, k: nat)
    requires ValidRun(run) && k < |run.states| && run.states[k].panicked
    ensures k > 0 && k == |run.labels| && run.labels[k - 1] == SendNext && !run.states[k - 1].panicked
  {
    assert StepAt(run, k - 1);
    if k < |run.labels| {
      RunningBeforeStep(run, k);
      assert false;
    }
  }

  lemma RunningBeforeStep(run: Run, k: nat)
    requires ValidRun(run) && k < |run.labels|
    ensures !run.states[k].panicked
  {
    assert StepAt(run, k);
  }

  lemma {:induction false} LoopEntry(run: Run, k: nat) returns (k0: nat, order: seq<SubId>)
    requires ValidRun(run) && k < |run.states| && run.states[k].dispatcher.Sending? && !run.states[k].panicked
    ensures InLoop(run, k0, k, order)
  {
    assert k > 0 && StepAt(run, k - 1);
    if run.labels[k - 1].Snapshot? {
      k0, order := k - 1, run.labels[k - 1].order;
    } else {
      k0, order := LoopEntry(run, k - 1);
      assert run.labels[k - 1] != LoopDone;
    }
  }

  /** The dispatcher sends on a closed channel in a run iff, in some send loop of it, some snapshotted subscriber whose
      filter passes the event is closed before its turn and its turn comes. */
  lemma PanicIff(run: Run)
    requires ValidRun(run)
    ensures run.states[|run.labels|].panicked <==>
            exists k0: nat, m: nat, order, c ::
                m < |run.labels| && InLoop(run, k0, m, order) && c in order && ClosedBeforeTurn(run, k0, m, c)
  {
    var last := |run.labels|;
    if run.states[last].panicked {
      PanicComesFromTurn(run, last);
      assert StepAt(run, last - 1);
      var k0, order := LoopEntry(run, last - 1);
      TurnPanicsIff(run, k0, last - 1, order);
    }
    forall k0: nat, m: nat, order, c | m < |run.labels| && InLoop(run, k0, m, order) && c in order
        && ClosedBeforeTurn(run, k0, m, c)
      ensures run.states[last].panicked
    {
      TurnPanicsIff(run, k0, m, order);
      if m + 1 < last {
        RunningBeforeStep(run, m + 1);
        assert false;
      }
    }
  }

  /** Once a pending subscriber whose filter passes the current event is closed, the loop cannot finish: from then on
      either its turn is still pending or the dispatcher has panicked. */
  lemma {:induction false} DoomedOnceClosed(run: Run, j: nat, k: nat, c: SubId)
    requires ValidRun(run) && j < k < |run.states| && run.labels[j] == Close(c)
    requires Pending(run.states[j], c)
    requires run.states[j].dispatcher.event < |run.states[j].published| && c < |run.states[j].chans|
    requires Passes(run.states[j].chans[c].filter, run.states[j].published[run.states[j].dispatcher.event])
    ensures || run.states[k].panicked
            || (Pending(run.states[k], c) && run.states[k].dispatcher.event == run.states[j].dispatcher.event)
  {
    assert StepAt(run, j) && StepAt(run, k - 1);
    if j + 1 < k {
      DoomedOnceClosed(run, j, k - 1, c);
      ClosedByClose(run, j + 1, k - 1, c);
      SnapshotsGrow(run, j, k - 1);
      PublishedGrows(run, j, k - 1);
      assert !run.states[k - 1].panicked;
      var todo := run.states[k - 1].dispatcher.todo;
      if todo[0] != c {
        assert todo == [todo[0]] + todo[1..];
      }
    }
  }

  lemma {:induction false} PublishedGrows(run: Run, i: nat, j: nat)
    requires ValidRun(run) && i <= j < |run.states|
    ensures run.states[i].published <= run.states[j].published
  {
    if i < j {
      PublishedGrows(run, i, j - 1);
      assert StepAt(run, j - 1);
    }
  }

  /** A run in which no close completes while a send loop is under way never sends on a closed channel. The code does
      not enforce this. */
  lemma SafeWithoutCloseInLoop(run: Run)
    requires ValidRun(run)
    requires forall k :: 0 <= k < |run.labels| && run.labels[k].Close? ==> !run.states[k].dispatcher.Sending?
    ensures !run.states[|run.labels|].panicked
  {
    if run.states[|run.labels|].panicked {
      PanicIff(run);
      var k0: nat, m: nat, order, c :|
          m < |run.labels| && InLoop(run, k0, m, order) && c in order && ClosedBeforeTurn(run, k0, m, c);
      var j :| k0 < j < m && run.labels[j] == Close(c);
      assert InLoop(run, k0, j, order);
      assert StepAt(run, j);
      OneTurnPerSubscriber(run, k0, j, order);
      assert false;
    }
  }
}

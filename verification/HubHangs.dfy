/**
 * Unsubscribing from the telemetry hub (internal/telemetry/hub.go) drains the channel with a blocking receive.
 * This says exactly when an unsubscribe can still come to its close, and when it hangs for good.
 */
module HubHangs {
  import opened Common
  import opened Hub
  import opened HubPaths
  import opened HubProofs

  /** The event being sent passes the filter of d. */
  predicate Matches(s: State, d: SubId) {
    && s.dispatcher.Sending? && s.dispatcher.event < |s.published|
    && d < |s.chans| && Passes(s.chans[d].filter, s.published[s.dispatcher.event])
  }

  /** The dispatcher panics at the turn of d. */
  predicate Fatal(s: State, d: SubId) { Matches(s, d) && s.chans[d].phase == Closed }

  /** The i-th turn to come is one of c, for an event that c takes, and no turn before it panics. */
  ghost predicate RefillsAt(s: State, c: SubId, i: nat) {
    && s.dispatcher.Sending? && i < |s.dispatcher.todo| && s.dispatcher.todo[i] == c
    && Matches(s, c)
    && forall j :: 0 <= j < i ==> !Fatal(s, s.dispatcher.todo[j])
  }

  ghost predicate CanRefill(s: State, c: SubId) {
    exists i: nat :: RefillsAt(s, c, i)
  }

  /** The unsubscribe of c waits in its drain loop with nothing buffered, and the send loop under way cannot help it. */
  ghost predicate Stuck(s: State, c: SubId) {
    c < |s.chans| && s.chans[c].phase == Receiving && s.chans[c].buf == [] && !CanRefill(s, c)
  }

  /** Some continuation closes c. */
  ghost predicate CanClose(s: State, c: SubId) {
    exists labels, s' :: Path(s, labels, s') && IsClosed(s', c)
  }

  predicate IsClosed(s: State, c: SubId) { c < |s.chans| && s.chans[c].phase == Closed }

  // ---- Once stuck, stuck for good ----

  lemma StuckStep(s: State, l: Label, c: SubId)
    requires DispatcherOk(s) && SubscribersOk(s) && Enabled(s, l) && Stuck(s, c)
    ensures Stuck(Next(s, l), c)
  {
    StuckChannelStays(s, l, c);
    hide DispatcherOk, SubscribersOk, Enabled, Next, RefillsAt;
    forall i: nat
      ensures !RefillsAt(Next(s, l), c, i)
    {
      if RefillsAt(Next(s, l), c, i) {
        RefillWasPossible(s, l, c, i);
        assert false;
      }
    }
  }

  lemma StuckChannelStays(s: State, l: Label, c: SubId)
    requires DispatcherOk(s) && Enabled(s, l) && Stuck(s, c)
    ensures c < |Next(s, l).chans| && Next(s, l).chans[c].phase == Receiving && Next(s, l).chans[c].buf == []
  {
    hide Passes, NewChan, Offer;
    if l.SendNext? && s.dispatcher.todo[0] == c {
      assert !RefillsAt(s, c, 0);
    }
  }

  lemma RefillWasPossible(s: State, l: Label, c: SubId, i: nat)
    requires DispatcherOk(s) && SubscribersOk(s) && Enabled(s, l)
    requires c < |s.chans| && s.chans[c].phase == Receiving
    requires RefillsAt(Next(s, l), c, i)
    ensures CanRefill(s, c)
  {
    hide Passes, NewChan;
    var s' := Next(s, l);
    if l.SendNext? && !s'.panicked {
      var todo := s.dispatcher.todo;
      assert forall j :: 0 <= j < |todo| - 1 ==> todo[1..][j] == todo[j + 1];
      forall j | 0 <= j < i + 1
        ensures !Fatal(s, todo[j])
      {
        if j > 0 { assert !Fatal(s', s'.dispatcher.todo[j - 1]); }
      }
      assert RefillsAt(s, c, i + 1);
    } else if l.Snapshot? {
      assert false;
    } else {
      forall j | 0 <= j < i
        ensures !Fatal(s, s.dispatcher.todo[j])
      {
        assert !Fatal(s', s'.dispatcher.todo[j]);
      }
      assert RefillsAt(s, c, i);
    }
  }

  /** A stuck unsubscribe hangs for good: whatever anybody does, c is never closed. */
  lemma {:induction false} StuckForever(run: Run, i: nat, j: nat, c: SubId)
    requires ValidRun(run) && i <= j < |run.states| && Stuck(run.states[i], c)
    ensures Stuck(run.states[j], c)
  {
    hide Stuck, ChansOk;
    if i < j {
      StuckForever(run, i, j - 1, c);
      InvAlways(run, j - 1);
      assert StepAt(run, j - 1);
      StuckStep(run.states[j - 1], run.labels[j - 1], c);
    }
  }

  lemma {:induction false} StuckAlongPath(s: State, labels: seq<Label>, s': State, c: SubId)
    requires DispatcherOk(s) && SubscribersOk(s) && Stuck(s, c) && Path(s, labels, s')
    ensures DispatcherOk(s') && SubscribersOk(s') && Stuck(s', c)
  {
    hide Stuck, DispatcherOk, SubscribersOk, Next, Enabled;
    if labels != [] {
      var n := |labels| - 1;
      var mid := Follow(s, labels[..n]).value;
      StuckAlongPath(s, labels[..n], mid, c);
      StepKeepsDispatcher(mid, labels[n]);
      StepKeepsSubscribers(mid, labels[n]);
      StuckStep(mid, labels[n], c);
    }
  }

  // ---- Not stuck, a close can still come ----

  lemma CloseDraining(start: State, labels: seq<Label>, s: State, c: SubId) returns (longer: seq<Label>, s': State)
    requires Path(start, labels, s) && !s.panicked && c < |s.chans| && s.chans[c].phase == Draining
    ensures Path(start, longer, s') && IsClosed(s', c)
    decreases |s.chans[c].buf|, 1
  {
    hide Path;
    longer, s' := Then(start, labels, s, CheckLen(c));
    if s.chans[c].buf == [] {
      longer, s' := Then(start, longer, s', Close(c));
    } else {
      longer, s' := CloseReceiving(start, longer, s', c);
    }
  }

  lemma CloseReceiving(start: State, labels: seq<Label>, s: State, c: SubId) returns (longer: seq<Label>, s': State)
    requires Path(start, labels, s) && !s.panicked && c < |s.chans|
    requires s.chans[c].phase == Receiving && s.chans[c].buf != []
    ensures Path(start, longer, s') && IsClosed(s', c)
    decreases |s.chans[c].buf|, 0
  {
    hide Path;
    longer, s' := Then(start, labels, s, Drain(c));
    longer, s' := CloseDraining(start, longer, s', c);
  }

  /** The turns up to the one of c put an event into its buffer. */
  lemma {:induction false} Refill(start: State, labels: seq<Label>, s: State, c: SubId, i: nat)
    returns (longer: seq<Label>, s': State)
    requires Path(start, labels, s) && !s.panicked && DispatcherOk(s) && SubscribersOk(s)
    requires c < |s.chans| && s.chans[c].phase == Receiving && s.chans[c].buf == []
    requires RefillsAt(s, c, i)
    ensures Path(start, longer, s') && !s'.panicked && c < |s'.chans|
    ensures s'.chans[c].phase == Receiving && s'.chans[c].buf != []
    decreases i
  {
    hide Path;
    TurnTowardsRefill(s, c, i);
    longer, s' := Then(start, labels, s, SendNext);
    if i > 0 {
      StepKeepsDispatcher(s, SendNext);
      StepKeepsSubscribers(s, SendNext);
      longer, s' := Refill(start, longer, s', c, i - 1);
    }
  }

  lemma TurnTowardsRefill(s: State, c: SubId, i: nat)
    requires !s.panicked && DispatcherOk(s)
    requires c < |s.chans| && s.chans[c].phase == Receiving && s.chans[c].buf == []
    requires RefillsAt(s, c, i)
    ensures Enabled(s, SendNext)
    ensures var s' := Next(s, SendNext);
            && !s'.panicked && c < |s'.chans| && s'.chans[c].phase == Receiving
            && if i == 0 then s'.chans[c].buf != [] else s'.chans[c].buf == [] && RefillsAt(s', c, i - 1)
  {
    hide Passes;
    var todo := s.dispatcher.todo;
    assert todo[0] in todo;
    if i > 0 {
      assert !Fatal(s, todo[0]);
      var s' := Next(s, SendNext);
      assert forall j :: 0 <= j < |todo| - 1 ==> todo[1..][j] == todo[j + 1];
      forall j | 0 <= j < i - 1
        ensures !Fatal(s', s'.dispatcher.todo[j])
      {
        assert !Fatal(s, todo[j + 1]);
      }
    }
  }

  lemma CloseUnlessStuck(s: State, c: SubId) returns (labels: seq<Label>, s': State)
    requires DispatcherOk(s) && SubscribersOk(s) && !s.panicked && c < |s.chans| && !Stuck(s, c)
    ensures Path(s, labels, s') && IsClosed(s', c)
  {
    EmptyPath(s);
    hide Path, DispatcherOk, SubscribersOk, RefillsAt;
    labels, s' := [], s;
    match s.chans[c].phase
    case Closed =>
    case Closing => labels, s' := Then(s, labels, s, Close(c));
    case Draining => labels, s' := CloseDraining(s, labels, s, c);
    case Live =>
      labels, s' := Then(s, labels, s, Delete(c));
      labels, s' := CloseDraining(s, labels, s', c);
    case Receiving =>
      if s.chans[c].buf == [] {
        var i: nat :| RefillsAt(s, c, i);
        labels, s' := Refill(s, labels, s, c, i);
      }
      labels, s' := CloseReceiving(s, labels, s', c);
  }

  /** In every reachable state before a panic, c can still be closed iff its unsubscribe is not stuck: not waiting with
      an empty buffer, or about to be sent an event that it takes, with no panic before. */
  lemma CanCloseIff(run: Run, k: nat, c: SubId)
    requires ValidRun(run) && k < |run.states| && !run.states[k].panicked && c < |run.states[k].chans|
    ensures CanClose(run.states[k], c) <==> !Stuck(run.states[k], c)
  {
    InvAlways(run, k);
    hide ChansOk, Path, DispatcherOk, SubscribersOk;
    var s := run.states[k];
    if Stuck(s, c) {
      forall labels, s' | Path(s, labels, s')
        ensures !IsClosed(s', c)
      {
        StuckAlongPath(s, labels, s', c);
      }
    } else {
      var labels, s' := CloseUnlessStuck(s, c);
      assert Path(s, labels, s') && IsClosed(s', c);
    }
  }

  // ---- How to get stuck, and how not to ----

  /** A drain loop is left waiting on an empty buffer only by a consumer that received between the look at the length
      and the receive. */
  lemma {:induction false} StuckByReceive(run: Run, k: nat, c: SubId) returns (m: nat)
    requires ValidRun(run) && k < |run.states| && c < |run.states[k].chans|
    requires run.states[k].chans[c].phase == Receiving && run.states[k].chans[c].buf == []
    ensures m < k && run.labels[m] == Receive(c)
    ensures c < |run.states[m].chans| && run.states[m].chans[c].phase == Receiving
    ensures forall i :: m < i <= k ==>
              && c < |run.states[i].chans|
              && run.states[i].chans[c].phase == Receiving
              && run.states[i].chans[c].buf == []
  {
    assert StepAt(run, k - 1);
    if run.labels[k - 1] == Receive(c) {
      m := k - 1;
    } else {
      m := StuckByReceive(run, k - 1, c);
    }
  }

  /** The rule for a caller: as long as no consumer receives from c while its drain loop waits, the loop never waits on
      an empty buffer, and c can always still be closed. */
  lemma ClosableWithoutReceive(run: Run, k: nat, c: SubId)
    requires ValidRun(run) && k < |run.states| && !run.states[k].panicked && c < |run.states[k].chans|
    requires forall m :: 0 <= m < k && c < |run.states[m].chans| && run.states[m].chans[c].phase == Receiving ==>
               run.labels[m] != Receive(c)
    ensures !(run.states[k].chans[c].phase == Receiving && run.states[k].chans[c].buf == [])
    ensures CanClose(run.states[k], c)
  {
    if run.states[k].chans[c].phase == Receiving && run.states[k].chans[c].buf == [] {
      var m := StuckByReceive(run, k, c);
      assert false;
    }
    CanCloseIff(run, k, c);
  }

  /** A consumer that receives between the drain loop's look at the length and its receive
      leaves unsubscribe hanging. */
  lemma StuckReachable(bot: BotId) returns (run: Run)
    ensures ValidRun(run) && Stuck(run.states[|run.labels|], 0)
  {
    hide Path;
    var labels, s := OneEventDelivered(bot);
    labels, s := Then(INIT, labels, s, Delete(0));
    labels, s := Then(INIT, labels, s, CheckLen(0));
    labels, s := Then(INIT, labels, s, Label.Receive(0));
    run := PathIsRun(labels, s);
  }

  lemma OneEventDelivered(bot: BotId) returns (labels: seq<Label>, s: State)
    ensures s == State([bot], 1, 1, Waiting, [Chan({}, [0], Live, 0, 1, [Attempt(0, true, 0)], [], [])], {0}, false)
    ensures Path(INIT, labels, s)
  {
    hide Path;
    labels, s := OneEventUnderWay(bot);
    labels, s := Then(INIT, labels, s, SendNext);
    assert s.chans[0].buf == [0] && s.chans[0].log == [Attempt(0, true, 0)];
    assert s.chans == [s.chans[0]];
    labels, s := Then(INIT, labels, s, LoopDone);
  }
}

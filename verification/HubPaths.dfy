/** Finite paths of the telemetry hub's step system, and the runs that show what can happen. */
module HubPaths {
  import opened Common
  import opened Hub

  /** The state that the steps `labels` lead to from s, if each is enabled in its turn. */
  ghost function Follow(s: State, labels: seq<Label>): Option<State> {
    if labels == [] then Some(s)
    else
      var mid, l := Follow(s, labels[..|labels| - 1]), labels[|labels| - 1];
      if mid.Some? && Enabled(mid.value, l) then Some(Next(mid.value, l)) else None
  }

  ghost predicate Path(s: State, labels: seq<Label>, s': State) { Follow(s, labels) == Some(s') }

  lemma EmptyPath(s: State)
    ensures Path(s, [], s)
  {
  }

  lemma PathStep(s: State, labels: seq<Label>, mid: State, l: Label)
    requires Path(s, labels, mid) && Enabled(mid, l)
    ensures Path(s, labels + [l], Next(mid, l))
  {
    assert (labels + [l])[..|labels|] == labels;
  }

  /** One more step of a path. */
  lemma Then(start: State, labels: seq<Label>, s: State, l: Label) returns (longer: seq<Label>, s': State)
    requires Path(start, labels, s) && Enabled(s, l)
    ensures longer == labels + [l] && s' == Next(s, l) && Path(start, longer, s')
  {
    PathStep(start, labels, s, l);
    longer, s' := labels + [l], Next(s, l);
  }

  /** A path from the empty hub is a run of the step system, so everything proved of runs holds along it. */
  lemma {:induction false} PathIsRun(labels: seq<Label>, s: State) returns (run: Run)
    requires Path(INIT, labels, s)
    ensures ValidRun(run) && run.labels == labels && run.states[|labels|] == s
  {
    if labels == [] {
      run := Run([INIT], []);
    } else {
      var n := |labels| - 1;
      var before := PathIsRun(labels[..n], Follow(INIT, labels[..n]).value);
      run := Run(before.states + [s], labels);
      assert labels == before.labels + [labels[n]];
      forall k | 0 <= k < |run.labels|
        ensures StepAt(run, k)
      {
        assert k < n ==> StepAt(before, k);
      }
    }
  }

  /** One event accepted, one subscriber to everything, and the event snapshotted for it. */
  lemma OneEventUnderWay(bot: BotId) returns (labels: seq<Label>, s: State)
    ensures s == State([bot], 1, 1, Sending(0, [0]), [Chan({}, [], Live, 0, 0, [], [], [])], {0}, false)
    ensures Path(INIT, labels, s)
  {
    EmptyPath(INIT);
    hide Path;
    labels, s := Then(INIT, [], INIT, Publish(bot));
    labels, s := Then(INIT, labels, s, Subscribe([]));
    assert s.chans[0].filter == {};
    labels, s := Then(INIT, labels, s, Pull);
    labels, s := Then(INIT, labels, s, Snapshot([0]));
  }

  /** Unsubscribing between the snapshot and the dispatcher's turn: the dispatcher does send on a closed channel. */
  lemma PanicReachable(bot: BotId) returns (run: Run)
    ensures ValidRun(run) && run.states[|run.labels|].panicked
  {
    hide Path;
    var labels, s := OneEventUnderWay(bot);
    labels, s := Then(INIT, labels, s, Delete(0));
    labels, s := Then(INIT, labels, s, CheckLen(0));
    labels, s := Then(INIT, labels, s, Label.Close(0));
    labels, s := Then(INIT, labels, s, SendNext);
    run := PathIsRun(labels, s);
  }
}

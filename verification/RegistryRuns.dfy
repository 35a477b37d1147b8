/**
 * The registry under concurrent callers (internal/orchestrator/orchestrator.go, internal/worker/worker.go), as a step
 * system. A step is what one caller does under one lock: insert or delete in a shard, look an entry up, move a worker,
 * visit one shard of a scan, clear one shard. Steps of different callers interleave freely.
 */
module RegistryRuns {
  import opened Common
  import opened Workers
  import opened Fnv
  import opened Sharding

  type Handle = nat  // a *entry: the k-th worker ever created
  type Thread = nat

  /** What a caller holds between two of its locked sections. */
  datatype Local =
    | Idle
    | Holding(id: BotId, handle: Handle, target: WorkerState)
    | Scanning(next: nat, ids: seq<BotId>)
    | Clearing(next: nat)

  /** The life of one worker: every state it has been in; the last one is current. */
  datatype Life = Life(botID: BotId, path: seq<WorkerState>)

  datatype Sys = Sys(shards: seq<map<BotId, Handle>>, workers: seq<Life>, threads: map<Thread, Local>)

  datatype Label =
    | Start(id: BotId, factoryOk: bool)
    | Stop(id: BotId)
    | Lookup(t: Thread, id: BotId, target: WorkerState)
    | Move(t: Thread)
    | ScanBegin(t: Thread)
    | ScanShard(t: Thread, order: seq<BotId>)
    | ScanEnd(t: Thread)
    | ClearBegin(t: Thread)
    | ClearShard(t: Thread)
    | ClearEnd(t: Thread)

  predicate IsInit(s: Sys) {
    && |s.shards| == SHARDS && (forall i :: 0 <= i < SHARDS ==> s.shards[i] == map[])
    && s.workers == [] && s.threads == map[]
  }

  function LocalOf(s: Sys, t: Thread): Local { if t in s.threads then s.threads[t] else Idle }

  function With(s: Sys, t: Thread, l: Local): Sys { s.(threads := s.threads[t := l]) }

  predicate Registered(s: Sys, id: BotId) { Bucket(id) < |s.shards| && id in s.shards[Bucket(id)] }

  function HandleOf(s: Sys, id: BotId): Handle
    requires Registered(s, id)
  {
    s.shards[Bucket(id)][id]
  }

  function Current(w: Life): WorkerState { if w.path == [] then Normal else w.path[|w.path| - 1] }

  ghost predicate Enabled(s: Sys, l: Label) {
    match l
    case Start(_, _) => true
    case Stop(_) => true
    case Lookup(t, _, _) => LocalOf(s, t).Idle?
    case Move(t) => LocalOf(s, t).Holding?
    case ScanBegin(t) => LocalOf(s, t).Idle?
    case ScanShard(t, order) =>
      LocalOf(s, t).Scanning? && LocalOf(s, t).next < |s.shards| && Enumerates(order, s.shards[LocalOf(s, t).next].Keys)
    case ScanEnd(t) => LocalOf(s, t).Scanning? && LocalOf(s, t).next == |s.shards|
    case ClearBegin(t) => LocalOf(s, t).Idle?
    case ClearShard(t) => LocalOf(s, t).Clearing? && LocalOf(s, t).next < |s.shards|
    case ClearEnd(t) => LocalOf(s, t).Clearing? && LocalOf(s, t).next == |s.shards|
  }

  function Step(s: Sys, l: Label): Sys {
    match l
    case Start(id, ok) =>
      var b := Bucket(id);
      if b >= |s.shards| || id in s.shards[b] || !ok then s
      else
        var shard: map<BotId, Handle> := s.shards[b][id := |s.workers|];
        s.(shards := s.shards[b := shard], workers := s.workers + [Life(id, [Normal])])
    case Stop(id) =>
      if Registered(s, id) then s.(shards := s.shards[Bucket(id) := s.shards[Bucket(id)] - {id}]) else s
    case Lookup(t, id, target) =>
      if Registered(s, id) then With(s, t, Holding(id, HandleOf(s, id), target)) else s
    case Move(t) =>
      var loc := LocalOf(s, t);
      if loc.Holding? then With(Moved(s, loc.handle, loc.target), t, Idle) else s
    case ScanBegin(t) => With(s, t, Scanning(0, []))
    case ScanShard(t, order) =>
      var loc := LocalOf(s, t);
      if loc.Scanning? then With(s, t, Scanning(loc.next + 1, loc.ids + order)) else s
    case ScanEnd(t) => With(s, t, Idle)
    case ClearBegin(t) => With(s, t, Clearing(0))
    case ClearShard(t) =>
      var loc := LocalOf(s, t);
      if loc.Clearing? && loc.next < |s.shards|
      then With(s.(shards := s.shards[loc.next := map[]]), t, Clearing(loc.next + 1)) else s
    case ClearEnd(t) => With(s, t, Idle)
  }

  /** Worker.Transition through a handle: along a valid edge, or no effect. */
  function Moved(s: Sys, h: Handle, target: WorkerState): Sys {
    if h < |s.workers| && ValidEdge(Current(s.workers[h]), target)
    then s.(workers := s.workers[h := s.workers[h].(path := s.workers[h].path + [target])])
    else s
  }

  // ---- Runs ----

  datatype Run = Run(states: seq<Sys>, labels: seq<Label>)

  ghost predicate StepAt(run: Run, k: nat)
    requires k < |run.labels| && |run.states| == |run.labels| + 1
  {
    Enabled(run.states[k], run.labels[k]) && run.states[k + 1] == Step(run.states[k], run.labels[k])
  }

  ghost predicate ValidRun(run: Run) {
    && |run.states| == |run.labels| + 1
    && IsInit(run.states[0])
    && forall k {:trigger StepAt(run, k)} :: 0 <= k < |run.labels| ==> StepAt(run, k)
  }

  // ---- What every state keeps ----

  /** A path of the state machine that starts in Normal. */
  predicate ValidPath(path: seq<WorkerState>) {
    && path != [] && path[0] == Normal
    && forall i :: 0 < i < |path| ==> ValidEdge(path[i - 1], path[i])
  }

  /** An entry of shard i is there by its hash, and leads to a worker of its id. */
  predicate EntrySound(s: Sys, i: nat, id: BotId)
    requires i < |s.shards| && id in s.shards[i]
  {
    var h := s.shards[i][id];
    Bucket(id) == i && h < |s.workers| && s.workers[h].botID == id
  }

  ghost predicate ShardsSound(s: Sys) {
    && |s.shards| == SHARDS
    && forall i, id :: 0 <= i < SHARDS && id in s.shards[i] ==> EntrySound(s, i, id)
  }

  ghost predicate HandlesSound(s: Sys) {
    forall t :: t in s.threads && s.threads[t].Holding? ==>
      s.threads[t].handle < |s.workers| && s.workers[s.threads[t].handle].botID == s.threads[t].id
  }

  ghost predicate PathsValid(s: Sys) {
    forall h :: 0 <= h < |s.workers| ==> ValidPath(s.workers[h].path)
  }

  ghost predicate Inv(s: Sys) { ShardsSound(s) && HandlesSound(s) && PathsValid(s) }

  /** Workers are only added, and keep their bot id and their past. */
  lemma StepKeepsWorkers(s: Sys, l: Label)
    ensures var s' := Step(s, l);
            && |s.workers| <= |s'.workers|
            && forall h :: 0 <= h < |s.workers| ==>
                 s'.workers[h].botID == s.workers[h].botID && s.workers[h].path <= s'.workers[h].path
  {
    hide Bucket, ValidEdge;
  }

  /** Only Start puts an entry into a shard, and then for a fresh worker of that id, in the shard of that id. */
  lemma EntryOrigin(s: Sys, l: Label, i: nat, id: BotId)
    requires |s.shards| == SHARDS
    ensures |Step(s, l).shards| == SHARDS
    ensures i < SHARDS && id in Step(s, l).shards[i] ==>
              var h := Step(s, l).shards[i][id];
              || (id in s.shards[i] && s.shards[i][id] == h)
              || (l == Start(id, true) && i == Bucket(id) && h == |s.workers|
                  && Step(s, l).workers == s.workers + [Life(id, [Normal])])
  {
    hide Bucket, ValidEdge;
  }

  lemma StepKeepsShards(s: Sys, l: Label)
    requires ShardsSound(s)
    ensures ShardsSound(Step(s, l))
  {
    hide Step, Bucket;
    StepKeepsWorkers(s, l);
    EntryOrigin(s, l, SHARDS, []);
    var s' := Step(s, l);
    forall i, id | 0 <= i < SHARDS && id in s'.shards[i]
      ensures EntrySound(s', i, id)
    {
      EntryOrigin(s, l, i, id);
      if id in s.shards[i] {
        assert EntrySound(s, i, id);
      }
    }
  }

  lemma StepKeepsHandles(s: Sys, l: Label)
    requires ShardsSound(s) && HandlesSound(s) && Enabled(s, l)
    ensures HandlesSound(Step(s, l))
  {
    hide Bucket, ValidEdge;
    StepKeepsWorkers(s, l);
  }

  lemma StepKeepsPaths(s: Sys, l: Label)
    requires PathsValid(s)
    ensures PathsValid(Step(s, l))
  {
    hide Bucket, ValidEdge;
  }

  lemma {:induction false} InvAlways(run: Run, k: nat)
    requires ValidRun(run) && k < |run.states|
    ensures Inv(run.states[k])
  {
    if k > 0 {
      InvAlways(run, k - 1);
      assert StepAt(run, k - 1);
      StepKeepsShards(run.states[k - 1], run.labels[k - 1]);
      StepKeepsHandles(run.states[k - 1], run.labels[k - 1]);
      StepKeepsPaths(run.states[k - 1], run.labels[k - 1]);
    }
  }

  /** Every worker that ever existed has only moved along valid edges, from Normal. */
  lemma HistoriesAreValidPaths(run: Run, k: nat, h: Handle)
    requires ValidRun(run) && k < |run.states| && h < |run.states[k].workers|
    ensures ValidPath(run.states[k].workers[h].path)
  {
    InvAlways(run, k);
  }

  // ---- One plain map ----

  /** What a step does to the single map from bot id to worker that the shards stand for. */
  function PlainNext(plain: map<BotId, Handle>, s: Sys, l: Label): map<BotId, Handle> {
    match l
    case Start(id, ok) => if id in plain || !ok then plain else plain[id := |s.workers|]
    case Stop(id) => plain - {id}
    case ClearShard(t) =>
      var loc := LocalOf(s, t);
      if loc.Clearing? then map id | id in plain && Bucket(id) != loc.next :: plain[id] else plain
    case _ => plain
  }

  /** Under any interleaving the shards act as one plain map: lookups read it, Start and Stop update it, and clearing a
      shard removes its ids. */
  lemma StepRefinesPlainMap(s: Sys, l: Label, plain: map<BotId, Handle>)
    requires Sharded(s.shards, plain) && Enabled(s, l)
    ensures forall id :: Registered(s, id) <==> id in plain
    ensures forall id :: Registered(s, id) ==> HandleOf(s, id) == plain[id]
    ensures Sharded(Step(s, l).shards, PlainNext(plain, s, l))
  {
    PlainLookups(s, plain);
    hide Sharded, Bucket, Step, HandleOf;
    match l
    case Start(id, _) => StartIsPut(s, id, l, plain);
    case Stop(id) => StopIsDelete(s, id, plain);
    case ClearShard(t) => ClearIsRestriction(s, t, plain);
    case _ => ShardsUntouched(s, l);
  }

  /** The plain map that the steps of a run make of an empty one. */
  function PlainAt(run: Run, k: nat): map<BotId, Handle>
    requires k <= |run.labels| < |run.states|
  {
    if k == 0 then map[] else PlainNext(PlainAt(run, k - 1), run.states[k - 1], run.labels[k - 1])
  }

  /** In every state of every run, under any interleaving, the shards are that plain map, and lookups read it. */
  lemma {:induction false} RunRefinesPlainMap(run: Run, k: nat)
    requires ValidRun(run) && k < |run.states|
    ensures var s, plain := run.states[k], PlainAt(run, k);
            && Sharded(s.shards, plain)
            && (forall id :: Registered(s, id) <==> id in plain)
            && (forall id :: Registered(s, id) ==> HandleOf(s, id) == plain[id])
  {
    if k > 0 {
      RunRefinesPlainMap(run, k - 1);
      assert StepAt(run, k - 1);
      StepRefinesPlainMap(run.states[k - 1], run.labels[k - 1], PlainAt(run, k - 1));
    }
    PlainLookups(run.states[k], PlainAt(run, k));
  }

  /** The state of every registered bot: what the registry class calls its View. */
  function ViewOf(plain: map<BotId, Handle>, workers: seq<Life>): map<BotId, WorkerState> {
    map id | id in plain && plain[id] < |workers| :: Current(workers[plain[id]])
  }

  /** Made without interference, the steps of StartBot, StopBot, PauseBot and ResumeBot do to the View what the methods
      of the registry class promise. */
  lemma UndisturbedCalls(s: Sys, plain: map<BotId, Handle>, t: Thread, id: BotId, ok: bool, target: WorkerState)
    requires Inv(s) && Sharded(s.shards, plain) && LocalOf(s, t).Idle?
    ensures var view := ViewOf(plain, s.workers);
            && ViewOf(PlainNext(plain, s, Start(id, ok)), Step(s, Start(id, ok)).workers)
               == (if id in plain || !ok then view else view[id := Normal])
            && ViewOf(PlainNext(plain, s, Stop(id)), Step(s, Stop(id)).workers) == view - {id}
            && ViewOf(plain, Step(Step(s, Lookup(t, id, target)), Move(t)).workers)
               == (if id in plain && ValidEdge(view[id], target) then view[id := target] else view)
  {
    HandlesOf(s, plain);
    StartView(s, plain, id, ok);
    StopView(s, plain, id);
    TransitionView(s, plain, t, id, target);
  }

  lemma HandlesOf(s: Sys, plain: map<BotId, Handle>)
    requires Inv(s) && Sharded(s.shards, plain)
    ensures forall id :: id in plain ==> plain[id] < |s.workers| && s.workers[plain[id]].botID == id
    ensures forall id :: id in ViewOf(plain, s.workers) <==> id in plain
  {
    hide Bucket, PathsValid, HandlesSound;
  }

  lemma StartView(s: Sys, plain: map<BotId, Handle>, id: BotId, ok: bool)
    requires Sharded(s.shards, plain)
    requires forall id :: id in plain ==> plain[id] < |s.workers|
    ensures ViewOf(PlainNext(plain, s, Start(id, ok)), Step(s, Start(id, ok)).workers)
         == if id in plain || !ok then ViewOf(plain, s.workers) else ViewOf(plain, s.workers)[id := Normal]
  {
    PlainLookups(s, plain);
    assert Registered(s, id) <==> id in plain;
    hide Sharded, Bucket;
    StartWorkers(s, id, ok);
    hide Step;
  }

  lemma StartWorkers(s: Sys, id: BotId, ok: bool)
    requires |s.shards| == SHARDS
    ensures Step(s, Start(id, ok)).workers ==
            if Registered(s, id) || !ok then s.workers else s.workers + [Life(id, [Normal])]
  {
    hide Bucket;
  }

  lemma StopView(s: Sys, plain: map<BotId, Handle>, id: BotId)
    ensures ViewOf(PlainNext(plain, s, Stop(id)), Step(s, Stop(id)).workers) == ViewOf(plain, s.workers) - {id}
  {
    hide Bucket;
  }

  lemma TransitionView(s: Sys, plain: map<BotId, Handle>, t: Thread, id: BotId, target: WorkerState)
    requires Sharded(s.shards, plain) && LocalOf(s, t).Idle?
    requires forall id :: id in plain ==> plain[id] < |s.workers| && s.workers[plain[id]].botID == id
    ensures var view := ViewOf(plain, s.workers);
            ViewOf(plain, Step(Step(s, Lookup(t, id, target)), Move(t)).workers)
            == if id in plain && ValidEdge(view[id], target) then view[id := target] else view
  {
    PlainLookups(s, plain);
    hide Step, Sharded, Bucket, ValidEdge, Moved, ViewOf, Registered;
    assert Registered(s, id) <==> id in plain;
    TransitionWorkers(s, t, id, target);
    if id in plain {
      MovedView(s, plain, id, target);
    }
  }

  lemma MovedView(s: Sys, plain: map<BotId, Handle>, id: BotId, target: WorkerState)
    requires id in plain
    requires forall id :: id in plain ==> plain[id] < |s.workers| && s.workers[plain[id]].botID == id
    ensures var view := ViewOf(plain, s.workers);
            && id in view
            && ViewOf(plain, Moved(s, plain[id], target).workers)
               == if ValidEdge(view[id], target) then view[id := target] else view
  {
    hide ValidEdge;
  }

  lemma TransitionWorkers(s: Sys, t: Thread, id: BotId, target: WorkerState)
    requires LocalOf(s, t).Idle?
    ensures Step(Step(s, Lookup(t, id, target)), Move(t)).workers
         == if Registered(s, id) then Moved(s, HandleOf(s, id), target).workers else s.workers
  {
    hide Bucket, Registered, HandleOf, ValidEdge;
  }

  lemma ShardsUntouched(s: Sys, l: Label)
    requires !l.Start? && !l.Stop? && !l.ClearShard?
    ensures Step(s, l).shards == s.shards
  {
  }

  lemma StartIsPut(s: Sys, id: BotId, l: Label, plain: map<BotId, Handle>)
    requires Sharded(s.shards, plain) && l.Start? && l.id == id
    ensures Sharded(Step(s, l).shards, PlainNext(plain, s, l))
  {
    PlainLookups(s, plain);
    hide Sharded, Bucket;
    assert Registered(s, id) <==> id in plain;
    ShardHolds(s.shards, plain, 0);
    ShardedPut(s.shards, plain, id, |s.workers|);
  }

  lemma StopIsDelete(s: Sys, id: BotId, plain: map<BotId, Handle>)
    requires Sharded(s.shards, plain)
    ensures Sharded(Step(s, Stop(id)).shards, PlainNext(plain, s, Stop(id)))
  {
    PlainLookups(s, plain);
    hide Sharded, Bucket;
    assert Registered(s, id) <==> id in plain;
    if id in plain {
      ShardedDelete(s.shards, plain, id);
    } else {
      assert plain - {id} == plain;
    }
  }

  lemma ClearIsRestriction(s: Sys, t: Thread, plain: map<BotId, Handle>)
    requires Sharded(s.shards, plain) && LocalOf(s, t).Clearing? && LocalOf(s, t).next < |s.shards|
    ensures Sharded(Step(s, ClearShard(t)).shards, PlainNext(plain, s, ClearShard(t)))
  {
    hide Sharded, Bucket;
    var i := LocalOf(s, t).next;
    ShardHolds(s.shards, plain, 0);
    ShardedClear(s.shards, plain, i);
    assert PlainNext(plain, s, ClearShard(t)) == plain - s.shards[i].Keys;
  }

  lemma PlainLookups(s: Sys, plain: map<BotId, Handle>)
    requires Sharded(s.shards, plain)
    ensures forall id :: Registered(s, id) <==> id in plain
    ensures forall id :: Registered(s, id) ==> HandleOf(s, id) == plain[id]
  {
    hide Bucket;
  }

  // ---- Old handles ----

  ghost predicate InRegistry(s: Sys, h: Handle) {
    exists id :: Registered(s, id) && HandleOf(s, id) == h
  }

  /** Handles are issued once: a worker that has left the registry never comes back. */
  lemma {:induction false} RetiredForGood(run: Run, i: nat, j: nat, h: Handle)
    requires ValidRun(run) && i <= j < |run.states|
    requires h < |run.states[i].workers| && !InRegistry(run.states[i], h)
    ensures |run.states[i].workers| <= |run.states[j].workers| && !InRegistry(run.states[j], h)
  {
    if i < j {
      RetiredForGood(run, i, j - 1, h);
      InvAlways(run, j - 1);
      assert StepAt(run, j - 1);
      StepRetires(run.states[j - 1], run.labels[j - 1], h);
    }
  }

  lemma StepRetires(s: Sys, l: Label, h: Handle)
    requires Inv(s) && h < |s.workers| && !InRegistry(s, h)
    ensures |s.workers| <= |Step(s, l).workers| && !InRegistry(Step(s, l), h)
  {
    hide Bucket, ValidEdge;
    var s' := Step(s, l);
    forall id | Registered(s', id)
      ensures HandleOf(s', id) != h
    {
      if Registered(s, id) && HandleOf(s, id) == HandleOf(s', id) {
        assert InRegistry(s, HandleOf(s, id));
      }
    }
  }

  /** Moving through a handle touches that worker and no other, and leaves the registry as it is. */
  lemma MoveTouchesOneWorker(s: Sys, t: Thread)
    requires LocalOf(s, t).Holding?
    ensures var s', h := Step(s, Move(t)), LocalOf(s, t).handle;
            && s'.shards == s.shards && |s'.workers| == |s.workers|
            && (forall k :: 0 <= k < |s.workers| && k != h ==> s'.workers[k] == s.workers[k])
            && (h < |s.workers| ==>
                  s'.workers[h].path == s.workers[h].path +
                    if ValidEdge(Current(s.workers[h]), LocalOf(s, t).target) then [LocalOf(s, t).target] else [])
  {
  }

  /** A caller looks `id` up at step i; at some later moment j the id is not registered; it moves its worker at step k.
      Whatever has been started under the same id in between, no worker registered at k is altered. */
  lemma StaleHandleHarmless(run: Run, i: nat, j: nat, k: nat, t: Thread, id: BotId, target: WorkerState)
    requires ValidRun(run) && i < j <= k < |run.labels|
    requires run.labels[i] == Lookup(t, id, target) && Registered(run.states[i], id)
    requires !Registered(run.states[j], id)
    requires run.labels[k] == Move(t) && LocalOf(run.states[k], t) == LocalOf(run.states[i + 1], t)
    ensures run.states[k + 1].shards == run.states[k].shards
    ensures forall id' :: Registered(run.states[k], id') ==>
              var h := HandleOf(run.states[k], id');
              && h < |run.states[k].workers| == |run.states[k + 1].workers|
              && run.states[k + 1].workers[h] == run.states[k].workers[h]
  {
    hide Bucket, ValidEdge;
    var h := HandleOf(run.states[i], id);
    assert StepAt(run, i) && StepAt(run, k);
    InvAlways(run, i);
    InvAlways(run, j);
    InvAlways(run, k);
    WorkersStay(run, i, j, h);
    assert !InRegistry(run.states[j], h);
    RetiredForGood(run, j, k, h);
    MoveTouchesOneWorker(run.states[k], t);
    forall id' | Registered(run.states[k], id')
      ensures HandleOf(run.states[k], id') != h
    {
      assert InRegistry(run.states[k], HandleOf(run.states[k], id'));
    }
  }

  /** Workers keep their bot id and their past. */
  lemma {:induction false} WorkersStay(run: Run, i: nat, j: nat, h: Handle)
    requires ValidRun(run) && i <= j < |run.states| && h < |run.states[i].workers|
    ensures h < |run.states[j].workers|
    ensures run.states[j].workers[h].botID == run.states[i].workers[h].botID
    ensures run.states[i].workers[h].path <= run.states[j].workers[h].path
  {
    if i < j {
      WorkersStay(run, i, j - 1, h);
      assert StepAt(run, j - 1);
      StepKeepsWorkers(run.states[j - 1], run.labels[j - 1]);
    }
  }

  // ---- Paused means no orders ----

  /** Label l moves worker h to `target`, successfully. */
  predicate MovesTo(s: Sys, l: Label, h: Handle, target: WorkerState) {
    && l.Move? && h < |s.workers|
    && var loc := LocalOf(s, l.t);
       loc.Holding? && loc.handle == h && loc.target == target && ValidEdge(Current(s.workers[h]), target)
  }

  /** From a successful pause until the next successful move to Normal, the worker may not place orders. */
  lemma {:induction false} NoOrdersWhilePaused(run: Run, h: Handle, i: nat, j: nat)
    requires ValidRun(run) && i < j < |run.states|
    requires MovesTo(run.states[i], run.labels[i], h, Pause)
    requires forall k :: i < k < j ==> !MovesTo(run.states[k], run.labels[k], h, Normal)
    ensures h < |run.states[j].workers| && !MayPlaceOrders(Current(run.states[j].workers[h]))
  {
    assert StepAt(run, j - 1);
    if i + 1 < j {
      NoOrdersWhilePaused(run, h, i, j - 1);
      assert !MovesTo(run.states[j - 1], run.labels[j - 1], h, Normal);
    }
  }

  /** Worker h was paused at a step before k, and has not been moved to Normal since. */
  ghost predicate PausedAt(run: Run, h: Handle, k: nat)
    requires k < |run.states| == |run.labels| + 1
  {
    exists i: nat {:trigger run.labels[i]} :: i < k
      && MovesTo(run.states[i], run.labels[i], h, Pause)
      && forall j {:trigger run.labels[j]} :: i < j < k ==> !MovesTo(run.states[j], run.labels[j], h, Normal)
  }

  /** A worker may place orders exactly unless it was paused and has not been moved to Normal since. */
  lemma {:induction false} MayPlaceOrdersIff(run: Run, h: Handle, k: nat)
    requires ValidRun(run) && k < |run.states| && h < |run.states[k].workers|
    ensures MayPlaceOrders(Current(run.states[k].workers[h])) <==> !PausedAt(run, h, k)
    ensures MayPlaceOrders(Current(run.states[k].workers[h])) <==> Current(run.states[k].workers[h]) in {Normal, Slow}
  {
    if k > 0 {
      var s, l := run.states[k - 1], run.labels[k - 1];
      assert StepAt(run, k - 1);
      InvAlways(run, k - 1);
      if h < |s.workers| {
        MayPlaceOrdersIff(run, h, k - 1);
        PausedNext(run, h, k);
        OneMove(s, l, h);
      } else {
        NeverMoved(run, h, k);
      }
    }
  }

  /** What one step does to the state of worker h. */
  lemma OneMove(s: Sys, l: Label, h: Handle)
    requires h < |s.workers|
    ensures h < |Step(s, l).workers|
    ensures var before, after := Current(s.workers[h]), Current(Step(s, l).workers[h]);
            if MovesTo(s, l, h, Normal) then after == Normal
            else if MovesTo(s, l, h, Slow) then after == Slow && before == Normal
            else if MovesTo(s, l, h, Pause) then after == Pause
            else after == before
  {
    hide Bucket;
  }

  lemma PausedNext(run: Run, h: Handle, k: nat)
    requires 0 < k < |run.states| == |run.labels| + 1
    ensures var s, l := run.states[k - 1], run.labels[k - 1];
            PausedAt(run, h, k) <==>
            MovesTo(s, l, h, Pause) || (PausedAt(run, h, k - 1) && !MovesTo(s, l, h, Normal))
  {
    hide MovesTo;
    var s, l := run.states[k - 1], run.labels[k - 1];
    if PausedAt(run, h, k - 1) && !MovesTo(s, l, h, Normal) {
      var i: nat :| i < k - 1 && MovesTo(run.states[i], run.labels[i], h, Pause)
        && forall j {:trigger run.labels[j]} :: i < j < k - 1 ==> !MovesTo(run.states[j], run.labels[j], h, Normal);
      assert forall j {:trigger run.labels[j]} :: i < j < k ==> !MovesTo(run.states[j], run.labels[j], h, Normal);
    }
  }

  /** A worker just created was never paused, and is in Normal. */
  lemma NeverMoved(run: Run, h: Handle, k: nat)
    requires ValidRun(run) && 0 < k < |run.states|
    requires |run.states[k - 1].workers| <= h < |run.states[k].workers|
    ensures !PausedAt(run, h, k) && Current(run.states[k].workers[h]) == Normal
  {
    hide Bucket, ValidEdge;
    assert StepAt(run, k - 1);
    forall i: nat | i < k
      ensures !MovesTo(run.states[i], run.labels[i], h, Pause)
    {
      WorkersOnlyAdded(run, i, k - 1);
    }
  }

  lemma {:induction false} WorkersOnlyAdded(run: Run, i: nat, j: nat)
    requires ValidRun(run) && i <= j < |run.states|
    ensures |run.states[i].workers| <= |run.states[j].workers|
  {
    if i < j {
      WorkersOnlyAdded(run, i, j - 1);
      assert StepAt(run, j - 1);
      StepKeepsWorkers(run.states[j - 1], run.labels[j - 1]);
    }
  }

  // ---- Scans ----

  /** Caller t has been in one scan since state b, at least until state k. */
  ghost predicate ScanningSince(run: Run, t: Thread, b: nat, k: nat)
    requires ValidRun(run) && b <= k < |run.states|
  {
    && LocalOf(run.states[b], t) == Scanning(0, [])
    && forall m {:trigger run.labels[m]} :: b <= m < k ==> run.labels[m] != ScanEnd(t)
  }

  ghost predicate EverIn(run: Run, b: nat, k: nat, id: BotId)
    requires k < |run.states|
  {
    exists m :: b <= m <= k && Registered(run.states[m], id)
  }

  ghost predicate AlwaysIn(run: Run, b: nat, k: nat, id: BotId)
    requires k < |run.states|
  {
    forall m :: b <= m <= k ==> Registered(run.states[m], id)
  }

  /** What a scan that began in state b has collected when state k is reached. */
  ghost predicate ScanSoFar(run: Run, t: Thread, b: nat, k: nat)
    requires b <= k < |run.states|
  {
    var loc := LocalOf(run.states[k], t);
    && loc.Scanning? && loc.next <= SHARDS
    && NoDuplicates(loc.ids)
    && (forall id :: id in loc.ids ==> Bucket(id) < loc.next && EverIn(run, b, k, id))
    && (forall id :: Bucket(id) < loc.next && AlwaysIn(run, b, k, id) ==> id in loc.ids)
  }

  lemma {:induction false} ScanInvariant(run: Run, t: Thread, b: nat, k: nat)
    requires ValidRun(run) && b <= k < |run.states| && ScanningSince(run, t, b, k)
    ensures ScanSoFar(run, t, b, k)
  {
    hide Bucket;
    InvAlways(run, k);
    if b < k {
      ScanInvariant(run, t, b, k - 1);
      InvAlways(run, k - 1);
      assert StepAt(run, k - 1);
      assert run.labels[k - 1] != ScanEnd(t);
      ScanStep(run, t, b, k);
    }
  }

  lemma ScanStep(run: Run, t: Thread, b: nat, k: nat)
    requires b < k < |run.states| && |run.states| == |run.labels| + 1
    requires Inv(run.states[k - 1]) && StepAt(run, k - 1) && run.labels[k - 1] != ScanEnd(t)
    requires ScanSoFar(run, t, b, k - 1)
    ensures ScanSoFar(run, t, b, k)
  {
    hide Bucket, ValidEdge;
    var s, s', l := run.states[k - 1], run.states[k], run.labels[k - 1];
    var loc := LocalOf(s, t);
    forall id
      ensures EverIn(run, b, k - 1, id) ==> EverIn(run, b, k, id)
      ensures AlwaysIn(run, b, k, id) ==> AlwaysIn(run, b, k - 1, id) && Registered(s, id)
    {
    }
    if l.ScanShard? && l.t == t {
      assert LocalOf(s', t) == Scanning(loc.next + 1, loc.ids + l.order);
      forall id | id in l.order
        ensures Bucket(id) == loc.next && EverIn(run, b, k, id) && id !in loc.ids
      {
        assert Registered(s, id);
      }
      forall id | Bucket(id) < loc.next + 1 && AlwaysIn(run, b, k, id)
        ensures id in loc.ids + l.order
      {
        assert AlwaysIn(run, b, k - 1, id) && Registered(s, id);
      }
      AppendNoDuplicates(loc.ids, l.order);
    } else {
      assert LocalOf(s', t) == loc;
    }
  }

  lemma AppendNoDuplicates<T>(a: seq<T>, b: seq<T>)
    requires NoDuplicates(a) && NoDuplicates(b) && forall x :: x in b ==> x !in a
    ensures NoDuplicates(a + b)
  {
    var c := a + b;
    forall i, j | 0 <= i < j < |c|
      ensures c[i] != c[j]
    {
      if i < |a| <= j {
        assert c[j] in b;
      }
    }
  }

  /** ActiveBotIDs under concurrent Start, Stop and StopAll: when the scan is complete its result has no
      duplicates, contains every id that was registered throughout the call, and only ids that were
      registered at some moment of it. */
  lemma ActiveBotIDsConsistent(run: Run, t: Thread, b: nat, k: nat)
    requires ValidRun(run) && b <= k < |run.labels| && ScanningSince(run, t, b, k)
    requires run.labels[k] == ScanEnd(t)
    ensures LocalOf(run.states[k], t).Scanning? && LocalOf(run.states[k], t).next == SHARDS
    ensures var ids := LocalOf(run.states[k], t).ids;
            && NoDuplicates(ids)
            && (forall id :: AlwaysIn(run, b, k, id) ==> id in ids)
            && (forall id :: id in ids ==> EverIn(run, b, k, id))
  {
    hide Bucket;
    ScanInvariant(run, t, b, k);
    InvAlways(run, k);
    assert StepAt(run, k);
  }

  // ---- StopAll ----

  ghost predicate ClearingSince(run: Run, t: Thread, b: nat, k: nat)
    requires ValidRun(run) && b <= k < |run.states|
  {
    && LocalOf(run.states[b], t) == Clearing(0)
    && forall m {:trigger run.labels[m]} :: b <= m < k ==> run.labels[m] != ClearEnd(t)
  }

  /** `id` was started at a step in [b, k) at which t had already cleared its shard. */
  ghost predicate StartedBehind(run: Run, t: Thread, b: nat, k: nat, id: BotId)
    requires k <= |run.labels| < |run.states|
  {
    exists m :: b <= m < k && run.labels[m] == Start(id, true) && !Registered(run.states[m], id)
             && LocalOf(run.states[m], t).Clearing? && Bucket(id) < LocalOf(run.states[m], t).next
  }

  lemma {:induction false} ClearInvariant(run: Run, t: Thread, b: nat, k: nat)
    requires ValidRun(run) && b <= k < |run.states| && ClearingSince(run, t, b, k)
    ensures var loc := LocalOf(run.states[k], t);
            && loc.Clearing? && loc.next <= SHARDS
            && forall id :: Registered(run.states[k], id) && Bucket(id) < loc.next ==> StartedBehind(run, t, b, k, id)
  {
    hide Bucket, ValidEdge;
    if b < k {
      ClearInvariant(run, t, b, k - 1);
      InvAlways(run, k - 1);
      assert StepAt(run, k - 1);
      var s, s', l := run.states[k - 1], run.states[k], run.labels[k - 1];
      assert l != ClearEnd(t);
      var loc := LocalOf(s, t);
      forall id | Registered(s', id) && Bucket(id) < LocalOf(s', t).next
        ensures StartedBehind(run, t, b, k, id)
      {
        if Registered(s, id) && Bucket(id) < loc.next {
          assert StartedBehind(run, t, b, k - 1, id);
        } else {
          assert l == Start(id, true);
        }
      }
    }
  }

  /** An id still registered when StopAll ends was started, during the call, after its own shard had been cleared. */
  lemma SurvivorsStartedLate(run: Run, t: Thread, b: nat, k: nat, id: BotId)
    requires ValidRun(run) && b <= k < |run.labels| && ClearingSince(run, t, b, k)
    requires run.labels[k] == ClearEnd(t)
    requires Registered(run.states[k], id)
    ensures StartedBehind(run, t, b, k, id)
  {
    hide Bucket;
    ClearInvariant(run, t, b, k);
    InvAlways(run, k);
    assert StepAt(run, k);
  }

  /** Label l takes `id` out of its shard, or would. */
  predicate Removes(s: Sys, l: Label, id: BotId) {
    || l == Stop(id)
    || (l.ClearShard? && LocalOf(s, l.t).Clearing? && LocalOf(s, l.t).next == Bucket(id))
  }

  /** `id` was started at step m, at which t had already cleared its shard, and nothing takes it out before state k. */
  ghost predicate StartedToStay(run: Run, t: Thread, m: nat, k: nat, id: BotId)
    requires m < k <= |run.labels| < |run.states|
  {
    && run.labels[m] == Start(id, true) && !Registered(run.states[m], id)
    && LocalOf(run.states[m], t).Clearing? && Bucket(id) < LocalOf(run.states[m], t).next
    && forall j {:trigger run.labels[j]} :: m < j < k ==> !Removes(run.states[j], run.labels[j], id)
  }

  /** Of the ids whose shards t has cleared, exactly those are registered that were started behind
      it and not taken out again. */
  lemma {:induction false} BehindSweepIff(run: Run, t: Thread, b: nat, k: nat, id: BotId)
    requires ValidRun(run) && b <= k < |run.states| && ClearingSince(run, t, b, k)
    requires LocalOf(run.states[k], t).Clearing? && Bucket(id) < LocalOf(run.states[k], t).next
    ensures Registered(run.states[k], id) <==> exists m :: b <= m < k && StartedToStay(run, t, m, k, id)
  {
    if Registered(run.states[k], id) {
      var m := StartOfSurvivor(run, t, b, k, id);
    }
    forall m | b <= m < k && StartedToStay(run, t, m, k, id)
      ensures Registered(run.states[k], id)
    {
      StaysUntilRemoved(run, t, m, k, id);
    }
  }

  lemma {:induction false} StartOfSurvivor(run: Run, t: Thread, b: nat, k: nat, id: BotId) returns (m: nat)
    requires ValidRun(run) && b <= k < |run.states| && ClearingSince(run, t, b, k)
    requires LocalOf(run.states[k], t).Clearing? && Bucket(id) < LocalOf(run.states[k], t).next
    requires Registered(run.states[k], id)
    ensures b <= m < k && StartedToStay(run, t, m, k, id)
  {
    hide Bucket, Step, StepAt, Enabled, Inv, Registered, Removes, StartedToStay;
    ClearingBefore(run, t, b, k);
    SurvivorStep(run.states[k - 1], run.labels[k - 1], t, id);
    hide ClearingSince;
    if Registered(run.states[k - 1], id) && Bucket(id) < LocalOf(run.states[k - 1], t).next {
      m := StartOfSurvivor(run, t, b, k - 1, id);
      StaysOneMore(run, t, m, k, id);
    } else {
      m := k - 1;
      StartedJustNow(run, t, m, id);
    }
  }

  lemma ClearingBefore(run: Run, t: Thread, b: nat, k: nat)
    requires ValidRun(run) && b <= k < |run.states| && ClearingSince(run, t, b, k)
    requires LocalOf(run.states[k], t) != Clearing(0)
    ensures b < k && ClearingSince(run, t, b, k - 1) && LocalOf(run.states[k - 1], t).Clearing?
    ensures run.labels[k - 1] != ClearEnd(t) && Inv(run.states[k - 1])
    ensures Enabled(run.states[k - 1], run.labels[k - 1]) && run.states[k] == Step(run.states[k - 1], run.labels[k - 1])
  {
    hide Bucket, Inv;
    ClearInvariant(run, t, b, k - 1);
    InvAlways(run, k - 1);
    assert StepAt(run, k - 1);
  }

  lemma StaysOneMore(run: Run, t: Thread, m: nat, k: nat, id: BotId)
    requires m + 1 < k <= |run.labels| < |run.states|
    requires StartedToStay(run, t, m, k - 1, id) && !Removes(run.states[k - 1], run.labels[k - 1], id)
    ensures StartedToStay(run, t, m, k, id)
  {
    hide Bucket, Removes;
  }

  lemma StartedJustNow(run: Run, t: Thread, m: nat, id: BotId)
    requires m < |run.labels| < |run.states|
    requires run.labels[m] == Start(id, true) && !Registered(run.states[m], id)
    requires LocalOf(run.states[m], t).Clearing? && Bucket(id) < LocalOf(run.states[m], t).next
    ensures StartedToStay(run, t, m, m + 1, id)
  {
    hide Bucket;
  }

  /** One step before an id is registered behind the sweep, it was so already and was not taken out, or it was started
      just now. */
  lemma SurvivorStep(s: Sys, l: Label, t: Thread, id: BotId)
    requires Inv(s) && Enabled(s, l) && LocalOf(s, t).Clearing? && l != ClearEnd(t)
    requires var s' := Step(s, l);
             LocalOf(s', t).Clearing? && Bucket(id) < LocalOf(s', t).next && Registered(s', id)
    ensures if Registered(s, id) && Bucket(id) < LocalOf(s, t).next then !Removes(s, l, id)
            else l == Start(id, true) && !Registered(s, id) && Bucket(id) < LocalOf(s, t).next
  {
    hide Bucket, ValidEdge, PathsValid, HandlesSound;
  }

  lemma {:induction false} StaysUntilRemoved(run: Run, t: Thread, m: nat, k: nat, id: BotId)
    requires ValidRun(run) && m < k < |run.states| && StartedToStay(run, t, m, k, id)
    ensures Registered(run.states[k], id)
  {
    hide Bucket, ValidEdge;
    InvAlways(run, k - 1);
    assert StepAt(run, k - 1);
    if m + 1 < k {
      StaysUntilRemoved(run, t, m, k - 1, id);
      assert !Removes(run.states[k - 1], run.labels[k - 1], id);
    }
  }

  /** An id is registered when StopAll ends iff it was started during the call, behind the
      sweep, and not taken out again. */
  lemma SurvivorsIff(run: Run, t: Thread, b: nat, k: nat, id: BotId)
    requires ValidRun(run) && b <= k < |run.labels| && ClearingSince(run, t, b, k)
    requires run.labels[k] == ClearEnd(t)
    ensures Registered(run.states[k], id) <==> exists m :: b <= m < k && StartedToStay(run, t, m, k, id)
  {
    InvAlways(run, k);
    assert StepAt(run, k);
    BehindSweepIff(run, t, b, k, id);
  }

  lemma ExtendRun(run: Run, l: Label) returns (longer: Run)
    requires ValidRun(run) && Enabled(run.states[|run.labels|], l)
    ensures ValidRun(longer) && longer.labels == run.labels + [l]
    ensures longer.states == run.states + [Step(run.states[|run.labels|], l)]
  {
    longer := Run(run.states + [Step(run.states[|run.labels|], l)], run.labels + [l]);
    forall k | 0 <= k < |longer.labels|
      ensures StepAt(longer, k)
    {
      assert k < |run.labels| ==> StepAt(run, k);
    }
  }

  /** A StopAll that has cleared n shards of an empty registry. */
  lemma {:induction false} SweepRun(t: Thread, n: nat) returns (run: Run)
    requires n <= SHARDS
    ensures ValidRun(run) && |run.labels| == n + 1
    ensures LocalOf(run.states[1], t) == Clearing(0) && LocalOf(run.states[n + 1], t) == Clearing(n)
    ensures var shards := run.states[n + 1].shards;
            |shards| == SHARDS && forall i :: 0 <= i < SHARDS ==> shards[i] == map[]
    ensures forall l :: l in run.labels ==> l == ClearBegin(t) || l == ClearShard(t)
  {
    hide Bucket;
    if n == 0 {
      run := Run([Sys(seq(SHARDS, i => map[]), [], map[])], []);
      run := ExtendRun(run, ClearBegin(t));
    } else {
      var before := SweepRun(t, n - 1);
      run := ExtendRun(before, ClearShard(t));
    }
  }

  /** Any id can survive a StopAll: start it after its shard was cleared. */
  lemma SurvivorReachable(t: Thread, id: BotId) returns (run: Run, k: nat)
    ensures ValidRun(run) && 1 <= k < |run.labels| && ClearingSince(run, t, 1, k)
    ensures run.labels[k] == ClearEnd(t) && Registered(run.states[k + 1], id)
  {
    hide Bucket;
    var sweep := SweepRun(t, SHARDS);
    run := ExtendRun(sweep, Start(id, true));
    k := |run.labels|;
    var n := |sweep.labels|;
    assert Registered(run.states[k], id);
    run := ExtendRun(run, ClearEnd(t));
    forall m | 1 <= m < k
      ensures run.labels[m] != ClearEnd(t)
    {
      assert m < n ==> run.labels[m] in sweep.labels;
    }
  }
}

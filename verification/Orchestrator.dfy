/**
 * The bot registry (internal/orchestrator/orchestrator.go): 16 shard maps updated in place.
 * `Plain` is the single map from bot id to entry that the shards implement; every operation is specified on it alone.
 */
module Orchestrator {
  import opened Common
  import opened Workers
  import opened Fnv
  import opened Sharding

  datatype BotConfig = BotConfig(botID: BotId, settings: int)

  datatype RegistryError = AlreadyRunning | AdapterFailed(code: int) | NotFound | BadTransition

  /** The exchange adapter of a bot, known by its number only. */
  type AdapterRef = int

  datatype Entry = Entry(w: Worker, adapter: AdapterRef)

  datatype BotState = Running | Throttled | Paused

  function ReportedState(s: WorkerState): BotState {
    match s
    case Normal => Running
    case Slow => Throttled
    case Pause => Paused
  }

  type Factory = BotConfig -> Result<AdapterRef, int>

  /** Every entry holds a worker of its own id and the adapter made from the config that the bot was started with. */
  ghost predicate EntriesSound(factory: Factory, plain: map<BotId, Entry>, started: map<BotId, BotConfig>) {
    && started.Keys == plain.Keys
    && forall id :: id in plain ==>
         && plain[id].w.botID == id == started[id].botID
         && factory(started[id]) == Ok(plain[id].adapter)
  }

  lemma PutKeepsSound(factory: Factory, plain: map<BotId, Entry>, started: map<BotId, BotConfig>, cfg: BotConfig,
                      e: Entry)
    requires EntriesSound(factory, plain, started)
    requires e.w.botID == cfg.botID && factory(cfg) == Ok(e.adapter)
    ensures EntriesSound(factory, plain[cfg.botID := e], started[cfg.botID := cfg])
  {
  }

  lemma DeleteKeepsSound(factory: Factory, plain: map<BotId, Entry>, started: map<BotId, BotConfig>, id: BotId)
    requires EntriesSound(factory, plain, started)
    ensures EntriesSound(factory, plain - {id}, started - {id})
  {
  }

  lemma WorkersDiffer(factory: Factory, plain: map<BotId, Entry>, started: map<BotId, BotConfig>, a: BotId)
    requires EntriesSound(factory, plain, started) && a in plain
    ensures forall b :: b in plain && b != a ==> plain[b].w != plain[a].w
  {
  }

  class Orchestrator {
    const factory: Factory
    var shards: seq<map<BotId, Entry>>

    ghost var Plain: map<BotId, Entry>
    /** The config with which each registered bot was started: its adapter was made from it. */
    ghost var started: map<BotId, BotConfig>

    ghost predicate Valid()
      reads this
    {
      && Sharded(shards, Plain)
      && EntriesSound(factory, Plain, started)
    }

    ghost function Workers(): set<Worker>
      reads this
    {
      set id | id in Plain :: Plain[id].w
    }

    /** The state of every registered bot. */
    ghost function View(): (v: map<BotId, WorkerState>)
      reads this, Workers()
      ensures v.Keys == Plain.Keys
    {
      map id | id in Plain :: Plain[id].w.state
    }

    constructor (factory: Factory)
      ensures Valid() && this.factory == factory
      ensures Plain == map[] && View() == map[] && started == map[]
    {
      this.factory := factory;
      shards := seq(SHARDS, i => map[]);
      Plain, started := map[], map[];
    }

    /** Registers a fresh worker in Normal, unless the id is taken or the factory fails; then nothing changes. */
    method StartBot(cfg: BotConfig) returns (err: Option<RegistryError>)
      requires Valid()
      modifies this
      ensures Valid()
      ensures err == if cfg.botID in old(Plain) then Some(AlreadyRunning)
                     else if factory(cfg).Err? then Some(AdapterFailed(factory(cfg).error)) else None
      ensures err.Some? ==> Plain == old(Plain) && View() == old(View()) && started == old(started)
      ensures err.None? ==>
                && cfg.botID in Plain && fresh(Plain[cfg.botID].w)
                && Plain == old(Plain)[cfg.botID := Plain[cfg.botID]]
                && Plain[cfg.botID].adapter == factory(cfg).value
      ensures err.None? ==> View() == old(View())[cfg.botID := Normal] && started == old(started)[cfg.botID := cfg]
    {
      hide Bucket, Sharded, EntriesSound;
      var b := BucketOf(cfg.botID);
      ShardHolds(shards, Plain, b);
      if cfg.botID in shards[b] {
        return Some(AlreadyRunning);
      }
      var made := factory(cfg);
      if made.Err? {
        return Some(AdapterFailed(made.error));
      }
      var w := new Worker(cfg.botID);
      var e := Entry(w, made.value);
      ShardedPut(shards, Plain, cfg.botID, e);
      PutKeepsSound(factory, Plain, started, cfg, e);
      shards := shards[b := shards[b][cfg.botID := e]];
      Plain, started := Plain[cfg.botID := e], started[cfg.botID := cfg];
      err := None;
    }

    method StopBot(botID: BotId) returns (err: Option<RegistryError>)
      requires Valid()
      modifies this
      ensures Valid()
      ensures err == if botID in old(Plain) then None else Some(NotFound)
      ensures Plain == old(Plain) - {botID}
      ensures View() == if err.None? then old(View()) - {botID} else old(View())
      ensures started == if err.None? then old(started) - {botID} else old(started)
    {
      hide Bucket, Sharded;
      var b := BucketOf(botID);
      ShardHolds(shards, Plain, b);
      if botID !in shards[b] {
        return Some(NotFound);
      }
      ShardedDelete(shards, Plain, botID);
      DeleteKeepsSound(factory, Plain, started, botID);
      shards := shards[b := shards[b] - {botID}];
      Plain, started := Plain - {botID}, started - {botID};
      err := None;
    }

    method Get(botID: BotId) returns (r: Result<Entry, RegistryError>)
      requires Valid()
      ensures r == if botID in Plain then Ok(Plain[botID]) else Err(NotFound)
    {
      hide Bucket, Sharded;
      var b := BucketOf(botID);
      ShardHolds(shards, Plain, b);
      if botID !in shards[b] {
        return Err(NotFound);
      }
      r := Ok(shards[b][botID]);
    }

    /** Moves one bot along a valid edge; every other bot keeps its state. */
    method TransitionBot(botID: BotId, next: WorkerState) returns (err: Option<RegistryError>)
      requires Valid()
      modifies Workers()
      ensures Valid() && Plain == old(Plain)
      ensures err == if botID !in old(View()) then Some(NotFound)
                     else if ValidEdge(old(View())[botID], next) then None else Some(BadTransition)
      ensures View() == if err.None? then old(View())[botID := next] else old(View())
    {
      hide Bucket, Sharded, ValidEdge, EntriesSound;
      var e := Get(botID);
      if e.Err? {
        return Some(e.error);
      }
      var bad := e.value.w.Transition(next);
      WorkersDiffer(factory, Plain, started, botID);
      err := if bad.Some? then Some(BadTransition) else None;
    }

    method PauseBot(botID: BotId) returns (err: Option<RegistryError>)
      requires Valid()
      modifies Workers()
      ensures Valid() && Plain == old(Plain)
      ensures err == if botID !in old(View()) then Some(NotFound)
                     else if old(View())[botID] != Pause then None else Some(BadTransition)
      ensures View() == if err.None? then old(View())[botID := Pause] else old(View())
    {
      err := TransitionBot(botID, Pause);
    }

    /** Succeeds from Slow as well as from Pause. */
    method ResumeBot(botID: BotId) returns (err: Option<RegistryError>)
      requires Valid()
      modifies Workers()
      ensures Valid() && Plain == old(Plain)
      ensures err == if botID !in old(View()) then Some(NotFound)
                     else if old(View())[botID] != Normal then None else Some(BadTransition)
      ensures View() == if err.None? then old(View())[botID := Normal] else old(View())
    {
      err := TransitionBot(botID, Normal);
    }

    method BotState(botID: BotId) returns (r: Result<BotState, RegistryError>)
      requires Valid()
      ensures r == if botID in View() then Ok(ReportedState(View()[botID])) else Err(NotFound)
      ensures r.Ok? ==>
                && (r.value == Paused <==> View()[botID] == Pause)
                && (r.value == Throttled <==> View()[botID] == Slow)
                && (r.value == Running <==> View()[botID] == Normal)
    {
      var e := Get(botID);
      if e.Err? {
        return Err(e.error);
      }
      var s := e.value.w.State();
      r := Ok(if s == Slow then Throttled else if s == Pause then Paused else Running);
    }

    method Adapter(botID: BotId) returns (r: Result<AdapterRef, RegistryError>)
      requires Valid()
      ensures r == if botID in Plain then Ok(Plain[botID].adapter) else Err(NotFound)
    {
      var e := Get(botID);
      r := if e.Err? then Err(e.error) else Ok(e.value.adapter);
    }

    /** Every registered id exactly once. */
    method ActiveBotIDs() returns (ids: seq<BotId>)
      requires Valid()
      ensures Enumerates(ids, Plain.Keys)
    {
      hide Bucket, Sharded;
      ids := [];
      for i := 0 to SHARDS
        invariant Enumerates(ids, set id | id in Plain && Bucket(id) < i)
      {
        ShardHolds(shards, Plain, i);
        var remaining := shards[i].Keys;
        while remaining != {}
          invariant remaining <= shards[i].Keys
          invariant Enumerates(ids, (set id | id in Plain && Bucket(id) <= i) - remaining)
        {
          var id :| id in remaining;
          ids, remaining := ids + [id], remaining - {id};
        }
      }
    }

    /** Empties the registry, shard by shard. */
    method StopAll()
      requires Valid()
      modifies this
      ensures Valid() && Plain == map[] && View() == map[]
    {
      hide Bucket, Sharded, EntriesSound;
      for i := 0 to SHARDS
        invariant Valid()
        invariant forall id :: id in Plain ==> Bucket(id) >= i
      {
        ShardHolds(shards, Plain, i);
        var remaining := shards[i].Keys;
        while remaining != {}
          invariant Valid() && |shards| == SHARDS
          invariant shards[i].Keys == remaining
          invariant forall id :: id in Plain ==> Bucket(id) >= i
          invariant forall id :: id in Plain && Bucket(id) == i ==> id in remaining
        {
          var id :| id in remaining;
          ShardHolds(shards, Plain, i);
          ShardedDelete(shards, Plain, id);
          DeleteKeepsSound(factory, Plain, started, id);
          shards := shards[i := shards[i] - {id}];
          Plain, started := Plain - {id}, started - {id};
          remaining := remaining - {id};
        }
      }
      assert forall id :: id in Plain ==> Bucket(id) < SHARDS;
    }
  }
}

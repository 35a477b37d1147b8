/** Sixteen shard maps standing for one plain map. */
module Sharding {
  import opened Common
  import opened Fnv

  /** Every id is stored in the shard its hash names and nowhere else, so that the shards together are `plain`. */
  ghost predicate Sharded<V>(shards: seq<map<BotId, V>>, plain: map<BotId, V>) {
    && |shards| == SHARDS
    && (forall id :: id in plain ==> id in shards[Bucket(id)] && shards[Bucket(id)][id] == plain[id])
    && (forall i, id :: 0 <= i < SHARDS && id in shards[i] ==> id in plain && Bucket(id) == i)
  }

  /** The plain map is determined by the shards. */
  lemma ShardedUnique<V>(shards: seq<map<BotId, V>>, plain: map<BotId, V>, plain': map<BotId, V>)
    requires Sharded(shards, plain) && Sharded(shards, plain')
    ensures plain == plain'
  {
    hide Bucket;
    assert forall id :: id in plain <==> id in plain';
  }

  lemma ShardedPut<V>(shards: seq<map<BotId, V>>, plain: map<BotId, V>, id: BotId, v: V)
    requires Sharded(shards, plain)
    ensures Sharded(shards[Bucket(id) := shards[Bucket(id)][id := v]], plain[id := v])
  {
    hide Bucket;
  }

  lemma ShardedDelete<V>(shards: seq<map<BotId, V>>, plain: map<BotId, V>, id: BotId)
    requires Sharded(shards, plain)
    ensures Sharded(shards[Bucket(id) := shards[Bucket(id)] - {id}], plain - {id})
  {
    hide Bucket;
  }

  /** What one shard holds is the part of the plain map that hashes to it. */
  lemma ShardHolds<V>(shards: seq<map<BotId, V>>, plain: map<BotId, V>, i: nat)
    requires Sharded(shards, plain) && i < SHARDS
    ensures |shards| == SHARDS
    ensures forall id :: id in shards[i] <==> id in plain && Bucket(id) == i
    ensures forall id :: id in shards[i] ==> shards[i][id] == plain[id]
  {
    hide Bucket;
    assert forall id :: id in shards[i] ==> Bucket(id) == i;
  }

  lemma ShardedClear<V>(shards: seq<map<BotId, V>>, plain: map<BotId, V>, i: nat)
    requires Sharded(shards, plain) && i < SHARDS
    ensures Sharded(shards[i := map[]], plain - shards[i].Keys)
    ensures forall id :: id in plain - shards[i].Keys <==> id in plain && Bucket(id) != i
  {
    hide Bucket;
    ShardHolds(shards, plain, i);
    var shards', plain' := shards[i := map[]], plain - shards[i].Keys;
    forall id | id in plain'
      ensures id in shards'[Bucket(id)] && shards'[Bucket(id)][id] == plain'[id]
    {
      assert shards'[Bucket(id)] == shards[Bucket(id)];
    }
  }
}

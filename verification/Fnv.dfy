/** Shard selection (internal/orchestrator/orchestrator.go): 32-bit FNV-1a, reduced modulo the 16 shards. */
module Fnv {
  import opened Common

  const SHARDS: nat := 16

  /** One round: xor the byte in, then multiply by the FNV prime, wrapping at 32 bits. */
  function Mix(h: bv32, b: bv8): bv32 { (h ^ (b as bv32)) * 16777619 }

  /** The wrapping 32-bit FNV-1a hash. */
  function Hash(id: BotId): bv32 {
    if id == [] then 2166136261 else Mix(Hash(id[..|id| - 1]), id[|id| - 1])
  }

  lemma HashNext(id: BotId, k: nat)
    requires k < |id|
    ensures Hash(id[..k + 1]) == Mix(Hash(id[..k]), id[k])
  {
    assert id[..k + 1][..k] == id[..k];
  }

  function Bucket(id: BotId): (i: nat)
    ensures i < SHARDS
  {
    (Hash(id) % 16) as nat
  }

  /** The loop of bucket. */
  method BucketOf(id: BotId) returns (i: nat)
    ensures i == Bucket(id)
  {
    var h: bv32 := 2166136261;
    assert h == Hash(id[..0]);
    hide Hash;
    for k := 0 to |id|
      invariant h == Hash(id[..k])
    {
      HashNext(id, k);
      h := Mix(h, id[k]);
    }
    assert id[..|id|] == id;
    i := (h % 16) as nat;
  }

  /** The published test values of 32-bit FNV-1a for the empty string, "a" and "fo". */
  lemma KnownHashes()
    ensures Hash([]) == 0x811C9DC5
    ensures Hash([97]) == 0xE40C292C
    ensures Hash([102, 111]) == 0x6222E842
  {
    assert [97][..0] == [];
    assert [102, 111][..1] == [102] && [102][..0] == [];
    assert Hash([97]) == Mix(Hash([]), 97);
    assert Hash([102]) == Mix(Hash([]), 102);
    assert Hash([102, 111]) == Mix(Hash([102]), 111);
  }

  function LowNibble(b: bv8): bv32 { (b as bv32) & 15 }

  /** A hash of four bits that looks only at low nibbles: start at 5, xor, times 3 modulo 16. */
  function NibbleHash(id: BotId): bv32 {
    if id == [] then 5
    else
      var n := |id| - 1;
      ((NibbleHash(id[..n]) ^ LowNibble(id[n])) * 3) & 15
  }

  lemma NibbleStep(h: bv32, b: bv32)
    ensures ((h ^ b) * 16777619) & 15 == (((h & 15) ^ (b & 15)) * 3) & 15
  {
  }

  lemma ModIsMask(h: bv32)
    ensures h % 16 == h & 15
  {
  }

  /** The shard of an id is its nibble hash: 28 of the 32 bits of FNV-1a, and the high nibble
      of every byte, do not matter. */
  lemma {:induction false} BucketIsNibbleHash(id: BotId)
    ensures Hash(id) & 15 == NibbleHash(id)
    ensures NibbleHash(id) < 16 && Bucket(id) == NibbleHash(id) as nat
  {
    ModIsMask(Hash(id));
    if id != [] {
      var n := |id| - 1;
      BucketIsNibbleHash(id[..n]);
      NibbleStep(Hash(id[..n]), id[n] as bv32);
    }
  }

  /** After any fixed prefix, two last bytes share a shard iff they share their low nibble ... */
  lemma LastNibbleInjective(prefix: BotId, a: bv8, b: bv8)
    ensures Bucket(prefix + [a]) == Bucket(prefix + [b]) <==> LowNibble(a) == LowNibble(b)
  {
    LastByte(prefix, a);
    LastByte(prefix, b);
    BucketIsNibbleHash(prefix);
    TripleIsInjective(NibbleHash(prefix), LowNibble(a), LowNibble(b));
  }

  /** ... and every shard is reached by some last byte. */
  lemma LastNibbleSurjective(prefix: BotId, i: bv32)
    requires i < 16
    ensures exists a :: Bucket(prefix + [a]) == i as nat
  {
    BucketIsNibbleHash(prefix);
    var a := SuitableByte(NibbleHash(prefix), i);
    SuitableByteHits(NibbleHash(prefix), i);
    LastByte(prefix, a);
    assert Bucket(prefix + [a]) == i as nat;
  }

  lemma LastByte(prefix: BotId, a: bv8)
    ensures (((NibbleHash(prefix) ^ LowNibble(a)) * 3) & 15) < 16
    ensures Bucket(prefix + [a]) == (((NibbleHash(prefix) ^ LowNibble(a)) * 3) & 15) as nat
  {
    assert (prefix + [a])[..|prefix|] == prefix;
    BucketIsNibbleHash(prefix + [a]);
  }

  lemma TripleIsInjective(p: bv32, a: bv32, b: bv32)
    requires p < 16 && a < 16 && b < 16
    ensures ((p ^ a) * 3) & 15 == ((p ^ b) * 3) & 15 ==> a == b
  {
  }

  /** 3 * 11 == 1 modulo 16. */
  function SuitableByte(p: bv32, i: bv32): bv8 {
    (((i * 11) ^ p) & 15) as bv8
  }

  lemma SuitableByteHits(p: bv32, i: bv32)
    requires p < 16 && i < 16
    ensures ((p ^ LowNibble(SuitableByte(p, i))) * 3) & 15 == i
  {
  }
}

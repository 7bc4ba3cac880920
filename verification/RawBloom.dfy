/**
 The external bloom crate: a bit vector, the hash functions that index it and its byte form; and the
 one piece of double arithmetic that growth depends on.
 */
module RawBloom {
  import opened Platform

  /** The 32 bytes that key the hash functions; byte strings are strings of one character per byte. */
  type Seed = s: string | |s| == 32 witness seq(32, _ => '0')

  /** A bitmap of `bytes` bytes, a whole number as the crate allocates it; `ones` are the bits that are set. */
  datatype Bitmap = Bitmap(seed: Seed, hashes: nat, bytes: pos, ones: set<nat>)

  /** Every bit that is set has its place in the bitmap. */
  ghost predicate BitsInRange(b: Bitmap) {
    forall x :: x in b.ones ==> x < 8 * b.bytes
  }

  type Bloom = b: Bitmap | BitsInRange(b) witness Bitmap(seq(32, _ => '0'), 0, 1, {})

  /**
   What this model does not look into: the crate's hashing, sizing and serialisation, and
   `tightened(fpRate, n, t)`, the double that `fp_rate * tightening_ratio.powi(n)` rounds to.
   Results about growth hold for every such function, so they do not depend on how it rounds.
   */
  datatype Env = Env(
    tightened: (Rate, int, Rate) -> real,
    hash: (Seed, string, nat) -> nat,
    bitmapBytes: (int, real) -> pos,
    hashCount: (int, real) -> pos,
    bloomBytes: nat,
    toBytes: Bloom -> string,
    fromBytes: string -> Option<Bloom>
  )

  /** Reading back the bytes that a bloom was written as gives that bloom. */
  ghost predicate FaithfulBytes(env: Env) {
    forall b: Bloom :: env.fromBytes(env.toBytes(b)) == Some(b)
  }

  /** The rate of sub-filter `n` before the test against the smallest double; `x * t.powi(0)` is exactly `x`. */
  function RawRate(env: Env, fpRate: Rate, n: int, tightening: Rate): real {
    if n == 0 then fpRate else env.tightened(fpRate, n, tightening)
  }

  /** `BloomObject::calculate_fp_rate`. */
  function CalculateFpRate(env: Env, fpRate: Rate, n: int, tightening: Rate): Result<real> {
    var x := RawRate(env, fpRate, n, tightening);
    if x > MIN_POSITIVE then Ok(x) else Err(FalsePositiveReachesZero)
  }

  function NewBloom(env: Env, capacity: int, rate: real, seed: Seed): Bloom {
    Bitmap(seed, env.hashCount(capacity, rate), env.bitmapBytes(capacity, rate), {})
  }

  function Positions(env: Env, b: Bloom, item: string): (places: set<nat>)
    ensures forall x :: x in places ==> x < 8 * b.bytes
  {
    set k | 0 <= k < b.hashes :: env.hash(b.seed, item, k) % (8 * b.bytes)
  }

  predicate Check(env: Env, b: Bloom, item: string) {
    Positions(env, b, item) <= b.ones
  }

  function SetItem(env: Env, b: Bloom, item: string): (r: Bloom)
    ensures r.seed == b.seed && r.hashes == b.hashes && r.bytes == b.bytes
    ensures Check(env, r, item)
    ensures forall other :: Check(env, b, other) ==> Check(env, r, other)
  {
    var r: Bloom := b.(ones := b.ones + Positions(env, b, item));
    assert forall other :: Positions(env, r, other) == Positions(env, b, other);
    r
  }

  /** Checking and setting, bit by bit: an item has one bit for each hash function. */
  lemma BitByBit(env: Env, b: Bloom, item: string, x: nat)
    ensures Check(env, b, item) <==> forall k :: 0 <= k < b.hashes ==> env.hash(b.seed, item, k) % (8 * b.bytes) in b.ones
    ensures x in SetItem(env, b, item).ones <==>
            x in b.ones || exists k :: 0 <= k < b.hashes && env.hash(b.seed, item, k) % (8 * b.bytes) == x
  {
    forall k | 0 <= k < b.hashes ensures env.hash(b.seed, item, k) % (8 * b.bytes) in Positions(env, b, item) {
    }
  }
}

/**
 Blooms can be written as bytes and read back: one way of doing so, which spells out the numbers in unary
 and the bits one by one. So there are environments that are faithful in the sense of `FaithfulBytes`.
 */
module BloomsAsBytes {
  import opened Platform
  import opened RawBloom

  function Bits(b: Bloom): string {
    seq(8 * b.bytes, i => if i in b.ones then '1' else '0')
  }

  function Write(b: Bloom): string {
    b.seed + seq(b.hashes, _ => 'h') + seq(b.bytes, _ => 'b') + Bits(b)
  }

  function Read(s: string): Option<Bloom> {
    if |s| < 32 then None else
    var rest := s[32..];
    var hashes, bytes := multiset(rest)['h'], multiset(rest)['b'];
    if bytes == 0 || |rest| != hashes + bytes + 8 * bytes then None else
    var bits := rest[hashes + bytes..];
    var b: Bloom := Bitmap(s[..32], hashes, bytes, set i | 0 <= i < |bits| && bits[i] == '1');
    Some(b)
  }

  lemma {:induction false} Repeated(n: nat, c: char)
    ensures multiset(seq(n, _ => c)) == multiset{}[c := n]
  {
    if n > 0 {
      Repeated(n - 1, c);
      assert seq(n, _ => c) == seq(n - 1, _ => c) + [c];
    }
  }

  lemma CountsOf(b: Bloom)
    ensures var rest := seq(b.hashes, _ => 'h') + seq(b.bytes, _ => 'b') + Bits(b);
            multiset(rest)['h'] == b.hashes && multiset(rest)['b'] == b.bytes
  {
    Repeated(b.hashes, 'h');
    Repeated(b.bytes, 'b');
    assert 'h' !in multiset(Bits(b)) && 'b' !in multiset(Bits(b));
  }

  lemma ReadsBack(b: Bloom)
    ensures Read(Write(b)) == Some(b)
  {
    var rest := seq(b.hashes, _ => 'h') + seq(b.bytes, _ => 'b') + Bits(b);
    assert Write(b) == b.seed + rest;
    assert Write(b)[32..] == rest && Write(b)[..32] == b.seed;
    CountsOf(b);
    assert rest[b.hashes + b.bytes..] == Bits(b);
    assert (set i | 0 <= i < |Bits(b)| && Bits(b)[i] == '1') == b.ones;
  }

  /** Any environment can be given a faithful byte form. */
  lemma BytesCanBeFaithful(env: Env)
    ensures FaithfulBytes(env.(toBytes := Write, fromBytes := Read))
  {
    forall b: Bloom ensures Read(Write(b)) == Some(b) {
      ReadsBack(b);
    }
  }
}

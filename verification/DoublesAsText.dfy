/**
 Doubles can be written as text and read back: one way of doing so, which prints the significand and the
 exponent as one decimal number. So there are codecs that are faithful in the sense of `FaithfulText`.
 */
module DoublesAsText {
  import opened Platform
  import opened Decimal
  import opened Commands

  /** A significand and the number of times it is to be halved. */
  datatype Scaled = Scaled(significand: nat, halvings: nat)

  function ScaledFrom(x: real, doubled: nat): (s: Scaled)
    requires doubled <= 1074 && x > 0.0 && Representable(x, doubled)
    ensures s.halvings <= 1074 - doubled
    decreases 1074 - doubled
  {
    if x == x.Floor as real && x.Floor < 0x20_0000_0000_0000 then Scaled(x.Floor, 0)
    else var s := ScaledFrom(2.0 * x, doubled + 1); Scaled(s.significand, s.halvings + 1)
  }

  function Halved(x: real, n: nat): real {
    if n == 0 then x else Halved(x, n - 1) / 2.0
  }

  lemma {:induction false} ScaledIsExact(x: real, doubled: nat)
    requires doubled <= 1074 && x > 0.0 && Representable(x, doubled)
    ensures var s := ScaledFrom(x, doubled); Halved(s.significand as real, s.halvings) == x
    decreases 1074 - doubled
  {
    if !(x == x.Floor as real && x.Floor < 0x20_0000_0000_0000) {
      ScaledIsExact(2.0 * x, doubled + 1);
    }
  }

  function ShowRate(r: Rate): string {
    var s := ScaledFrom(r, 0);
    Show(s.significand * 1075 + s.halvings)
  }

  function ReadNumber(s: string): Option<F64> {
    match ReadDigits(s)
    case None => None
    case Some(n) =>
      var x := Halved((n / 1075) as real, n % 1075);
      if 0.0 < x < 1.0 && !Representable(x, 0) then Some(NotFinite) else Some(Finite(x))
  }

  function PlainCodec(): Codec {
    Codec(s => s, ShowRate, ReadNumber)
  }

  /** Faithful text is possible: this codec is an instance of what the results about replication ask for. */
  lemma TextCanBeFaithful()
    ensures FaithfulText(PlainCodec())
  {
    forall r: Rate ensures ReadNumber(ShowRate(r)) == Some(Finite(r)) {
      var s := ScaledFrom(r, 0);
      ScaledIsExact(r, 0);
      ValueOfShown(s.significand * 1075 + s.halvings);
      assert (s.significand * 1075 + s.halvings) / 1075 == s.significand;
    }
  }
}

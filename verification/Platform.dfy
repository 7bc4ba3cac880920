/** Machine integers, error rates and the result types shared by every other module. */
module Platform {

  datatype Option<+T> = None | Some(value: T)

  /** The errors that commands, growth and simulation can answer with. */
  datatype Error =
    | NonScalingFilterFull
    | MaxNumScalingFilters
    | ExceedsMaxBloomSize
    | FalsePositiveReachesZero
    | BadCapacity
    | CapacityLargerThanZero
    | ValidateScaleToExceedsMaxSize
    | ValidateScaleToFalsePositiveInvalid
    | NonScalingAndValidateScaleTo
    | ErrorRateRange
    | BadErrorRate
    | TighteningRatioRange
    | BadTighteningRatio
    | BadExpansion
    | InvalidSeed
    | UnknownArgument
    | WrongArity
    | NotFound
    | ItemExistsError
    | GenericError

  datatype Result<+T> = Ok(value: T) | Err(error: Error)

  type pos = n: int | 1 <= n witness 1
  type U32 = n: int | 0 <= n <= 0xffff_ffff
  type U64 = n: int | 0 <= n < 0x1_0000_0000_0000_0000

  const I32_MAX: int := 0x7fff_ffff
  const U32_MAX: U32 := 0xffff_ffff
  const I64_MAX: int := 0x7fff_ffff_ffff_ffff

  /** `n as i32`: truncation to 32 bits, read as two's complement. */
  function AsI32(n: int): (r: int)
    ensures 0 <= n <= I32_MAX ==> r == n
  {
    if 0 <= n <= I32_MAX then n else
    var low := n % 0x1_0000_0000;
    if low > I32_MAX then low - 0x1_0000_0000 else low
  }

  /** `n as u32`. */
  function AsU32(n: int): (r: U32)
    ensures 0 <= n <= U32_MAX ==> r == n
  {
    n % 0x1_0000_0000
  }

  /** `n as i64` for an unsigned 64-bit `n`. */
  function AsI64(n: int): (r: int)
    ensures 0 <= n <= I64_MAX ==> r == n
  {
    var low := n % 0x1_0000_0000_0000_0000;
    if low > I64_MAX then low - 0x1_0000_0000_0000_0000 else low
  }

  /** `n as u64`. */
  function AsU64(n: int): (r: U64)
    ensures 0 <= n <= I64_MAX ==> r == n
  {
    n % 0x1_0000_0000_0000_0000
  }

  /** Casting keeps a number up to a multiple of the width, and brings it into range. */
  lemma CastsWrapAround(n: int)
    ensures (AsI32(n) - n) % 0x1_0000_0000 == 0 && -I32_MAX - 1 <= AsI32(n) <= I32_MAX
    ensures (AsU32(n) - n) % 0x1_0000_0000 == 0 && 0 <= AsU32(n) <= U32_MAX
    ensures (AsI64(n) - n) % 0x1_0000_0000_0000_0000 == 0 && -I64_MAX - 1 <= AsI64(n) <= I64_MAX
    ensures (AsU64(n) - n) % 0x1_0000_0000_0000_0000 == 0
  {
  }

  function Max(a: int, b: int): int { if a < b then b else a }

  /** Doubling `x`, but no more than 1074 times, makes it a whole number of at most 53 bits. */
  predicate Representable(x: real, doubled: nat)
    requires doubled <= 1074
    decreases 1074 - doubled
  {
    (x == x.Floor as real && x.Floor < 0x20_0000_0000_0000) || (doubled < 1074 && Representable(2.0 * x, doubled + 1))
  }

  /**
   A double. Strictly between 0.0 and 1.0 these are exactly the representable numbers; beyond, where
   nothing depends on a number but that it is beyond, any number will do.
   */
  type Double = x: real | 0.0 < x < 1.0 ==> Representable(x, 0) witness 0.0

  function Half(): (r: Double)
    ensures r == 0.5
  {
    assert Representable(1.0, 1) by { assert 1.0.Floor == 1; }
    0.5
  }

  /** What text or a stream can give where a double is expected. */
  datatype F64 = Finite(r: Double) | NotFinite {
    /** The test that both the error rate and the tightening ratio have to pass. */
    predicate InUnitInterval() {
      Finite? && 0.0 < r < 1.0
    }
  }

  /** A false positive rate or tightening ratio: a double strictly between the configured bounds 0.0 and 1.0. */
  type Rate = r: Double | 0.0 < r < 1.0 witness Half()

  function Pow(x: real, n: nat): (r: real)
    ensures 0.0 < x ==> 0.0 < r
  {
    if n == 0 then 1.0 else x * Pow(x, n - 1)
  }

  /** `f64::MIN_POSITIVE`, the smallest positive normal double: 2 to the power -1022. */
  const MIN_POSITIVE: real := Pow(0.5, 1022)

  /** The powers of a half are positive, and from the second on less than a half. */
  lemma {:induction false} HalvesAreSmall(n: nat)
    requires n >= 2
    ensures 0.0 < Pow(0.5, n) < 0.5
  {
    if n == 2 {
      assert Pow(0.5, 1) == 0.5 * Pow(0.5, 0);
    } else {
      HalvesAreSmall(n - 1);
    }
  }
}

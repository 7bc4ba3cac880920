/**
 Objects simple enough to follow by hand, for the lemmas that show a property to fail: one hash function,
 and sub-filters that hold one item each. Every one is reached by operations.
 */
module SmallObjects {
  import opened Platform
  import opened RawBloom
  import opened Vectors
  import opened ScalingObject
  import opened Simulator
  import opened BatchAdd

  /** How many bytes a bitmap has, and whether rates all stay at the first one or are tightened exactly. */
  datatype Kind = Kind(bytes: pos, steady: bool)

  /** The smallest bitmaps there are. */
  function Small(): Kind { Kind(1, false) }

  /** Bitmaps with a bit for as many items as there can be sub-filters. */
  function Wide(): Kind { Kind(0x1000_0000, true) }

  /** An item is hashed to its length. */
  ghost function EnvOf(k: Kind): Env {
    Env((f: Rate, n, t: Rate) => if n < 0 || k.steady then f else f * Pow(t, n), (s, i, h) => |i|,
        (c, r) => k.bytes, (c, r) => 1, 0, b => "", s => None)
  }

  /** Sub-filters that all have a capacity of 1. */
  ghost function PlanFor(k: Kind): Plan { Plan(EnvOf(k), 1, Half(), Half(), 1) }

  function SmallSeed(): Seed { seq(32, _ => 'x') }

  /** A sub-filter that holds one item of the given length. */
  function Holding(k: Kind, length: nat): Filter
    requires length < 8 * k.bytes
  {
    Filter(Bitmap(SmallSeed(), 1, k.bytes, {length}), 1, 1)
  }

  /** `n` full sub-filters, holding items of lengths 0 to `n - 1`. */
  function Row(k: Kind, n: nat, vecCap: nat): Object
    requires n <= 8 * k.bytes
  {
    Object(1, Half(), Half(), true, seq(n, i requires 0 <= i < n => Holding(k, i)), vecCap)
  }

  function Empty(k: Kind): Object {
    Object(1, Half(), Half(), true, [Filter(Bitmap(SmallSeed(), 1, k.bytes, {}), 0, 1)], 1)
  }

  /** An item of the given length. */
  function ItemOf(length: nat): string { seq(length, _ => 'a') }

  /** There is a bit for each of `n` items, and the rates of `n` sub-filters are above the smallest double. */
  ghost predicate Lasts(k: Kind, n: nat) {
    n <= 8 * k.bytes && forall i :: 0 <= i < n ==> PlanFor(k).RateAt(i) > MIN_POSITIVE
  }

  // ---------- the plan ----------

  lemma {:induction false} HalvesDecrease(m: nat, n: nat)
    requires m < n
    ensures 0.0 < Pow(0.5, n) < Pow(0.5, m)
  {
    if m < n - 1 {
      HalvesDecrease(m, n - 1);
    }
  }

  lemma SmallRates(i: nat)
    requires i < 100
    ensures PlanFor(Small()).RateAt(i) > MIN_POSITIVE
  {
    HalvesDecrease(i + 1, 1022);
    assert Pow(0.5, i + 1) == 0.5 * Pow(0.5, i);
  }

  lemma SmallLasts(n: nat)
    requires n <= 8
    ensures Lasts(Small(), n)
  {
    forall i | 0 <= i < n ensures PlanFor(Small()).RateAt(i) > MIN_POSITIVE {
      SmallRates(i);
    }
  }

  lemma WideLasts(n: nat)
    requires n <= I32_MAX + 1
    ensures Lasts(Wide(), n)
  {
    HalvesAreSmall(1022);
  }

  lemma SmallTotals(n: nat)
    ensures var p := PlanFor(Small()); p.CapAt(n) == 1 && p.Total(n) == n && p.Bytes(n) == 25 * n
  {
    TotalOfEqualFilters(PlanFor(Small()), n);
    BytesOfEqualFilters(Small(), n);
  }

  lemma {:induction false} BytesOfEqualFilters(k: Kind, n: nat)
    ensures PlanFor(k).Bytes(n) == (FILTER_BYTES + k.bytes) * n
  {
    var width := FILTER_BYTES + k.bytes;
    assert n > 0 ==> PlanFor(k).Bytes(n) == PlanFor(k).Bytes(n - 1) + width;
    assert n == 0 ==> PlanFor(k).Bytes(n) == 0;
    hide *;
    if n > 0 {
      BytesOfEqualFilters(k, n - 1);
      Distributes(width, n);
    }
  }

  lemma Distributes(width: nat, n: pos)
    ensures width * n == width * (n - 1) + width
  {
  }

  lemma SmallVectors(n: nat)
    ensures 2 <= n <= 4 ==> VecCapFor(n) == 4
    ensures 5 <= n <= 8 ==> VecCapFor(n) == 8
  {
    assert IsPowerOfTwo(2) && IsPowerOfTwo(4) && IsPowerOfTwo(8);
    if 2 <= n <= 4 { NextPowerUnique(4, 4); }
    if 5 <= n <= 8 { NextPowerUnique(n, 8); }
  }

  lemma {:induction false} VectorsGrow(m: nat, n: nat)
    requires m <= n
    ensures VecCapFor(m) <= VecCapFor(n)
  {
    if m < n {
      VectorsGrow(m, n - 1);
      if n > 1 { PushFollowsFormula(n - 1); }
    }
  }

  lemma {:induction false} BytesIncrease(p: Plan, m: nat, n: nat)
    requires m <= n
    ensures p.Bytes(m) <= p.Bytes(n)
  {
    if m < n {
      BytesIncrease(p, m, n - 1);
    }
  }

  // ---------- the objects ----------

  lemma RowIsGrown(k: Kind, n: nat, vecCap: nat)
    requires 1 <= n <= I32_MAX && Lasts(k, n)
    ensures var env, o, p := EnvOf(k), Row(k, n, vecCap), PlanFor(k);
            && Grown(env, o) && PlanOf(env, o) == p
            && Cardinality(o) == Capacity(o) == n && MemoryUsage(env, o) == ObjectSize(vecCap) + p.Bytes(n)
  {
    var env, o, p := EnvOf(k), Row(k, n, vecCap), PlanFor(k);
    forall i | 0 <= i < n ensures FilterFollowsPlan(env, o, i) && FilterOccupancy(o, i) {
      TotalOfEqualFilters(p, i);
      assert p.RateAt(i) > MIN_POSITIVE;
    }
    GrownTotals(env, o);
    TotalOfEqualFilters(p, n - 1);
    TotalOfEqualFilters(p, n);
  }

  lemma PlaceOf(k: Kind, b: Bloom, item: string)
    requires b.hashes == 1 && b.bytes == k.bytes && |item| < 8 * k.bytes
    ensures Positions(EnvOf(k), b, item) == {|item|}
  {
    var size := 8 * b.bytes;
    Remainder(|item|, size);
    assert EnvOf(k).hash(b.seed, item, 0) == |item|;
    hide EnvOf;
    assert |item| in Positions(EnvOf(k), b, item);
  }

  lemma Remainder(n: nat, size: pos)
    requires n < size
    ensures n % size == n
  {
  }

  lemma NothingFound(k: Kind, b: Bloom, item: string)
    requires b.hashes == 1 && b.bytes == k.bytes && |item| < 8 * k.bytes && |item| !in b.ones
    ensures !Check(EnvOf(k), b, item)
  {
    PlaceOf(k, b, item);
    assert |item| in Positions(EnvOf(k), b, item);
  }

  /** An item of another length is not found. */
  lemma NotInRow(k: Kind, n: nat, vecCap: nat, item: string)
    requires n <= |item| < 8 * k.bytes
    ensures !ItemExists(EnvOf(k), Row(k, n, vecCap), item)
  {
    forall i | 0 <= i < n ensures !Check(EnvOf(k), Row(k, n, vecCap).filters[i].bloom, item) {
      NothingFound(k, Holding(k, i).bloom, item);
    }
  }

  lemma Inserted(k: Kind, f: Filter, item: string)
    requires f == Filter(Bitmap(SmallSeed(), 1, k.bytes, {}), 0, 1) && |item| < 8 * k.bytes
    ensures Insert(EnvOf(k), f, item) == Holding(k, |item|)
  {
    PlaceOf(k, f.bloom, item);
  }

  // ---------- reaching them ----------

  lemma CreatesEmpty(k: Kind, limit: nat)
    requires limit >= OBJECT_BYTES + BOX_BYTES + FILTER_BYTES + k.bytes
    ensures NewReserved(EnvOf(k), limit, Half(), Half(), 1, 1, SmallSeed(), true, true) == Ok(Empty(k))
  {
  }

  lemma FirstAdd(k: Kind, limit: nat)
    ensures AddItem(EnvOf(k), limit, Empty(k), ItemOf(0), true) == AddOutcome(Row(k, 1, 1), Ok(1))
  {
    var o := Empty(k);
    NothingFound(k, o.filters[0].bloom, ItemOf(0));
    assert !ItemExists(EnvOf(k), o, ItemOf(0));
    Inserted(k, o.filters[0], ItemOf(0));
    assert FilledIn(EnvOf(k), o, ItemOf(0)).filters == [Holding(k, 0)];
  }

  /** Scaling out a row makes it one longer. */
  lemma RowScalesOut(k: Kind, n: nat, vecCap: nat)
    requires 1 <= n < 8 * k.bytes
    ensures ScaledOut(EnvOf(k), Row(k, n, vecCap), PlanFor(k).RateAt(n), 1, ItemOf(n)) == Row(k, n + 1, GrowVec(vecCap, n))
  {
    var env, o, rate := EnvOf(k), Row(k, n, vecCap), PlanFor(k).RateAt(n);
    Inserted(k, NewFilter(env, rate, 1, SmallSeed()), ItemOf(n));
    assert ScaledOut(env, o, rate, 1, ItemOf(n)).filters == Row(k, n + 1, GrowVec(vecCap, n)).filters;
  }

  lemma NextAdd(k: Kind, limit: nat, n: nat, vecCap: nat)
    requires 1 <= n < I32_MAX && n < 8 * k.bytes && Lasts(k, n + 1)
    requires ObjectSize(vecCap) + PlanFor(k).Bytes(n + 1) <= limit
    ensures AddItem(EnvOf(k), limit, Row(k, n, vecCap), ItemOf(n), true) ==
            AddOutcome(Row(k, n + 1, GrowVec(vecCap, n)), Ok(1))
  {
    var env, o, item, p := EnvOf(k), Row(k, n, vecCap), ItemOf(n), PlanFor(k);
    NotInRow(k, n, vecCap, item);
    assert p.RateAt(n) > MIN_POSITIVE;
    RowIsGrown(k, n, vecCap);
    assert p.Bytes(n + 1) == p.Bytes(n) + (FILTER_BYTES + k.bytes);
    RowScalesOut(k, n, vecCap);
    assert o.filters[n - 1].numItems == o.filters[n - 1].capacity == 1 && AsI32(n) == n;
    hide Grown;
    hide ScaledOut;
    hide MIN_POSITIVE;
    hide ItemExists;
    hide MemoryUsage;
    hide GrowVec;
  }

  /** BF.ADD of an item of each length from `i` on, under the limit. */
  function Adds(limit: nat, i: nat, n: nat): seq<AddOp>
    requires i <= n
    decreases n - i
  {
    if i == n then [] else [AddOp(ItemOf(i), true, true, limit)] + Adds(limit, i + 1, n)
  }

  lemma {:induction false} RunFromRow(k: Kind, limit: nat, i: nat, n: nat)
    requires 1 <= i <= n <= I32_MAX && Lasts(k, n)
    requires ObjectSize(VecCapFor(n)) + PlanFor(k).Bytes(n) <= limit
    ensures Run(EnvOf(k), Row(k, i, VecCapFor(i)), Adds(limit, i, n)) == Row(k, n, VecCapFor(n))
    decreases n - i
  {
    hide AddItem;
    hide Row;
    hide EnvOf;
    hide VecCapFor;
    if i < n {
      VectorsGrow(i, n);
      BytesIncrease(PlanFor(k), i + 1, n);
      NextAdd(k, limit, i, VecCapFor(i));
      PushFollowsFormula(i);
      RunFromRow(k, limit, i + 1, n);
    }
  }

  /** Creation and `n` BF.ADDs lead to a row of `n` sub-filters. */
  lemma RowIsReached(k: Kind, limit: nat, n: nat)
    requires 1 <= n <= I32_MAX && Lasts(k, n)
    requires ObjectSize(VecCapFor(n)) + PlanFor(k).Bytes(n) <= limit
    ensures NewReserved(EnvOf(k), limit, Half(), Half(), 1, 1, SmallSeed(), true, true) == Ok(Empty(k))
    ensures Run(EnvOf(k), Empty(k), Adds(limit, 0, n)) == Row(k, n, VecCapFor(n))
  {
    VectorsGrow(1, n);
    BytesIncrease(PlanFor(k), 1, n);
    BytesOfEqualFilters(k, 1);
    CreatesEmpty(k, limit);
    FirstAdd(k, limit);
    RunFromRow(k, limit, 1, n);
  }

  // ---------- batches on them ----------

  /** As long as every iteration completes, the simulation goes on until it reaches the target. */
  lemma {:induction false} Simulated(k: Kind, limit: nat, target: pos, i: nat)
    requires i <= target && forall j :: i <= j < target ==> StepAt(PlanFor(k), limit, j) == Continue
    ensures SimulateFrom(PlanFor(k), limit, target, i) == Ok(target)
    decreases target - i
  {
    TotalOfEqualFilters(PlanFor(k), i);
    hide PlanFor;
    hide StepAt;
    if i < target {
      Simulated(k, limit, target, i + 1);
    }
  }

  /** Two items of lengths that are not in a row yet are new. */
  lemma TwoNewItems(k: Kind, n: nat, vecCap: nat)
    requires n + 1 < 8 * k.bytes
    ensures var flags := NewFlags(EnvOf(k), Row(k, n, vecCap), [ItemOf(n), ItemOf(n + 1)]);
            flags == [true, true] && CountTrue(flags) == 2
  {
    var o, items := Row(k, n, vecCap), [ItemOf(n), ItemOf(n + 1)];
    NotInRow(k, n, vecCap, items[0]);
    NotInRow(k, n, vecCap, items[1]);
    hide ItemExists;
    assert |items[0]| != |items[1]|;
    assert IsNew(EnvOf(k), o, items, 0) && IsNew(EnvOf(k), o, items, 1);
    assert [true, true][..1] == [true] && [true][..0] == [];
  }

  /** Validation accepts two more items for a row if the simulation completes that many iterations. */
  lemma AcceptsTwo(k: Kind, limit: nat, n: nat, vecCap: nat)
    requires 1 <= n <= I32_MAX && n + 1 < 8 * k.bytes && Lasts(k, n)
    requires forall j :: 0 <= j < n + 2 ==> StepAt(PlanFor(k), limit, j) == Continue
    ensures var env, o, items := EnvOf(k), Row(k, n, vecCap), [ItemOf(n), ItemOf(n + 1)];
            && HasFirst(o) && CountTrue(NewFlags(env, o, items)) == 2 && ValidateAddItems(env, limit, o, 2) == None
  {
    TwoNewItems(k, n, vecCap);
    RowIsGrown(k, n, vecCap);
    Simulated(k, limit, n + 2, 0);
  }

  // ---------- a running total that does not fit ----------

  /** Two equal sub-filters of 2 to the 62 items each, whose total is one more than 64 bits can hold. */
  lemma TotalCanOverflow() returns (p: Plan, limit: nat)
    ensures p.start <= I64_MAX && StepAt(p, limit, 0) == Continue && StepAt(p, limit, 1) == Continue
    ensures p.Total(2) == I64_MAX + 1
  {
    p, limit := PlanFor(Small()).(start := 0x4000_0000_0000_0000), 1000;
    TotalOfEqualFilters(p, 0);
    TotalOfEqualFilters(p, 1);
    TotalOfEqualFilters(p, 2);
    assert p.Bytes(0) == 0 && p.Bytes(1) == 25 && p.Bytes(2) == 50;
    SmallRates(0);
    SmallRates(1);
    assert p.RateAt(0) == PlanFor(Small()).RateAt(0) && p.RateAt(1) == PlanFor(Small()).RateAt(1);
    SmallVectors(2);
  }
}

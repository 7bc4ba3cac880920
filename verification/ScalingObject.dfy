/**
 The scaling bloom object as a value: its sub-filters, what each operation makes of it, and the
 shape that every run of operations gives it.
 */
module ScalingObject {
  import opened Platform
  import opened RawBloom
  import opened Vectors

  /** Sizes on a 64-bit target: the object, one sub-filter and one box pointing at a sub-filter. */
  const OBJECT_BYTES: nat := 48
  const FILTER_BYTES: nat := 24
  const BOX_BYTES: nat := 8

  /** `configs::FIXED_SEED`. */
  function FixedSeed(): Seed {
    [89 as char, 15 as char, 245 as char, 34 as char, 234 as char, 120 as char, 17 as char, 218 as char,
     167 as char, 20 as char, 216 as char, 9 as char, 59 as char, 62 as char, 123 as char, 217 as char,
     29 as char, 137 as char, 138 as char, 115 as char, 62 as char, 152 as char, 136 as char, 135 as char,
     48 as char, 127 as char, 151 as char, 205 as char, 40 as char, 7 as char, 51 as char, 131 as char]
  }

  datatype Filter = Filter(bloom: Bloom, numItems: int, capacity: int)

  datatype Object = Object(
    expansion: U32,
    fpRate: Rate,
    tightening: Rate,
    seedRandom: bool,
    filters: seq<Filter>,
    vecCap: nat
  )

  // ---------- sums over sub-filters ----------

  function FilterBytes(env: Env, f: Filter): (r: int)
    ensures r >= FILTER_BYTES
  {
    FILTER_BYTES + env.bloomBytes + f.bloom.bytes
  }

  function ItemsIn(fs: seq<Filter>): int {
    if fs == [] then 0 else ItemsIn(fs[..|fs| - 1]) + fs[|fs| - 1].numItems
  }

  function CapacityIn(fs: seq<Filter>): int {
    if fs == [] then 0 else CapacityIn(fs[..|fs| - 1]) + fs[|fs| - 1].capacity
  }

  function BytesIn(env: Env, fs: seq<Filter>): (r: nat) {
    if fs == [] then 0 else BytesIn(env, fs[..|fs| - 1]) + FilterBytes(env, fs[|fs| - 1])
  }

  function Cardinality(o: Object): int { ItemsIn(o.filters) }
  function Capacity(o: Object): int { CapacityIn(o.filters) }

  /** `BloomObject::compute_size`. */
  function ObjectSize(vecCap: nat): nat { OBJECT_BYTES + vecCap * BOX_BYTES }

  /** `BloomFilter::compute_size`. */
  function FilterSize(env: Env, capacity: int, rate: real): nat {
    FILTER_BYTES + env.bloomBytes + env.bitmapBytes(capacity, rate)
  }

  function MemoryUsage(env: Env, o: Object): nat {
    ObjectSize(o.vecCap) + BytesIn(env, o.filters)
  }

  // ---------- operations ----------

  function NewFilter(env: Env, rate: real, capacity: int, seed: Seed): Filter {
    Filter(NewBloom(env, capacity, rate, seed), 0, capacity)
  }

  function Insert(env: Env, f: Filter, item: string): Filter {
    Filter(SetItem(env, f.bloom, item), f.numItems + 1, f.capacity)
  }

  /** `BloomObject::new_reserved`; `seed` is the fixed, the given or the freshly drawn one. */
  function NewReserved(env: Env, limit: nat, fpRate: Rate, tightening: Rate, capacity: pos, expansion: U32,
                       seed: Seed, seedRandom: bool, validate: bool): Result<Object>
  {
    if validate && OBJECT_BYTES + BOX_BYTES + FilterSize(env, capacity, fpRate) > limit then
      Err(ExceedsMaxBloomSize)
    else
      Ok(Object(expansion, fpRate, tightening, seedRandom, [NewFilter(env, fpRate, capacity, seed)], 1))
  }

  predicate ItemExists(env: Env, o: Object, item: string) {
    exists i :: 0 <= i < |o.filters| && Check(env, o.filters[i].bloom, item)
  }

  /** The object with one more sub-filter, which holds `item`. */
  function ScaledOut(env: Env, o: Object, rate: real, capacity: int, item: string): Object
    requires o.filters != []
  {
    var added := NewFilter(env, rate, capacity, o.filters[0].bloom.seed);
    o.(filters := o.filters + [Insert(env, added, item)], vecCap := GrowVec(o.vecCap, |o.filters|))
  }

  /** The object with `item` put in its last sub-filter. */
  function FilledIn(env: Env, o: Object, item: string): Object
    requires o.filters != []
  {
    var n := |o.filters|;
    o.(filters := o.filters[..n - 1] + [Insert(env, o.filters[n - 1], item)])
  }

  datatype AddOutcome = AddOutcome(after: Object, reply: Result<int>)

  /** `BloomObject::add_item_unchecked`. */
  function AddUnchecked(env: Env, limit: nat, o: Object, item: string, validate: bool): AddOutcome {
    var n := |o.filters|;
    if n == 0 then AddOutcome(o, Ok(0)) else
    var last := o.filters[n - 1];
    if last.numItems < last.capacity then AddOutcome(FilledIn(env, o, item), Ok(1))
    else if o.expansion == 0 then AddOutcome(o, Err(NonScalingFilterFull))
    else if AsI32(n) == I32_MAX then AddOutcome(o, Err(MaxNumScalingFilters))
    else match CalculateFpRate(env, o.fpRate, AsI32(n), o.tightening)
    case Err(e) => AddOutcome(o, Err(e))
    case Ok(rate) =>
      var capacity := last.capacity * o.expansion;
      if capacity > I64_MAX then AddOutcome(o, Err(BadCapacity))
      else if validate && MemoryUsage(env, o) + FilterSize(env, capacity, rate) > limit then
        AddOutcome(o, Err(ExceedsMaxBloomSize))
      else AddOutcome(ScaledOut(env, o, rate, capacity, item), Ok(1))
  }

  /** `BloomObject::add_item`. */
  function AddItem(env: Env, limit: nat, o: Object, item: string, validate: bool): AddOutcome {
    if ItemExists(env, o, item) then AddOutcome(o, Ok(0)) else AddUnchecked(env, limit, o, item, validate)
  }

  // ---------- the plan of growth ----------

  /** The capacity of the sub-filter at index `i`. */
  function CapacityAt(start: nat, expansion: nat, i: nat): nat {
    if i == 0 then start else CapacityAt(start, expansion, i - 1) * expansion
  }

  function PlannedCapacity(start: nat, expansion: nat, n: nat): nat {
    if n == 0 then 0 else PlannedCapacity(start, expansion, n - 1) + CapacityAt(start, expansion, n - 1)
  }

  /** Everything that decides how an object grows, fixed when it is created. */
  datatype Plan = Plan(env: Env, start: pos, fpRate: Rate, tightening: Rate, expansion: U32) {
    function CapAt(i: nat): nat { CapacityAt(start, expansion, i) }
    function RateAt(i: nat): real { RawRate(env, fpRate, AsI32(i), tightening) }
    function SizeAt(i: nat): nat { FilterSize(env, CapAt(i), RateAt(i)) }
    function Total(n: nat): nat { PlannedCapacity(start, expansion, n) }
    function Bytes(n: nat): nat { if n == 0 then 0 else Bytes(n - 1) + SizeAt(n - 1) }
  }

  function PlanOf(env: Env, o: Object): Plan
    requires o.filters != [] && o.filters[0].capacity >= 1
  {
    Plan(env, o.filters[0].capacity, o.fpRate, o.tightening, o.expansion)
  }

  // ---------- the invariant ----------

  /** Sub-filter `i` has the capacity, seed, bitmap size and rate that the plan gives it. */
  ghost predicate FilterFollowsPlan(env: Env, o: Object, i: nat)
    requires i < |o.filters| && o.filters[0].capacity >= 1
  {
    var p, f := PlanOf(env, o), o.filters[i];
    && f.capacity == p.CapAt(i) && 1 <= f.capacity <= I64_MAX
    && f.bloom.seed == o.filters[0].bloom.seed
    && f.bloom.bytes == env.bitmapBytes(p.CapAt(i), p.RateAt(i))
    && f.bloom.hashes == env.hashCount(p.CapAt(i), p.RateAt(i))
    && (i > 0 ==> p.RateAt(i) > MIN_POSITIVE)
  }

  /** All sub-filters but the last are full; the last is non-empty if scaling created it. */
  ghost predicate FilterOccupancy(o: Object, i: nat)
    requires i < |o.filters|
  {
    var f := o.filters[i];
    && (i < |o.filters| - 1 ==> f.numItems == f.capacity)
    && (i == |o.filters| - 1 ==> (if i > 0 then 1 else 0) <= f.numItems <= f.capacity)
  }

  /** The shape of every object that creation and adds can produce, whatever its vector's capacity. */
  ghost predicate Grown(env: Env, o: Object) {
    && 1 <= |o.filters| <= I32_MAX && o.filters[0].capacity >= 1
    && (o.expansion == 0 ==> |o.filters| == 1)
    && (forall i :: 0 <= i < |o.filters| ==> FilterFollowsPlan(env, o, i))
    && (forall i :: 0 <= i < |o.filters| ==> FilterOccupancy(o, i))
  }

  /** The vector has only been pushed to, never shrunk by defragmentation. */
  ghost predicate Unshrunk(o: Object) {
    o.vecCap == VecCapFor(|o.filters|)
  }

  /** Every scale-out passed the size check: the one made when sub-filter `i` was about to be added. */
  ghost predicate SizeChecked(env: Env, limit: nat, o: Object)
    requires Grown(env, o)
  {
    forall i :: 0 <= i < |o.filters| ==> CheckedAt(PlanOf(env, o), limit, i)
  }

  ghost predicate CheckedAt(p: Plan, limit: nat, i: nat) {
    ObjectSize(VecCapFor(i)) + p.Bytes(i + 1) <= limit
  }

  ghost predicate SameSeed(o: Object, o': Object)
    requires o.filters != [] && o'.filters != []
  {
    o'.filters[0].bloom.seed == o.filters[0].bloom.seed && o'.seedRandom == o.seedRandom
  }

  // ---------- proofs about sums ----------

  lemma SumsOfPush(env: Env, fs: seq<Filter>, f: Filter)
    ensures ItemsIn(fs + [f]) == ItemsIn(fs) + f.numItems
    ensures CapacityIn(fs + [f]) == CapacityIn(fs) + f.capacity
    ensures BytesIn(env, fs + [f]) == BytesIn(env, fs) + FilterBytes(env, f)
  {
    assert (fs + [f])[..|fs|] == fs;
  }

  /** A prefix of a grown object's sub-filters holds exactly what the plan says. */
  lemma {:induction false} SumsFollowPlan(env: Env, o: Object, k: nat)
    requires Grown(env, o) && k <= |o.filters|
    ensures CapacityIn(o.filters[..k]) == PlanOf(env, o).Total(k)
    ensures BytesIn(env, o.filters[..k]) == PlanOf(env, o).Bytes(k)
    ensures k < |o.filters| ==> ItemsIn(o.filters[..k]) == PlanOf(env, o).Total(k)
  {
    hide CapacityAt;
    if k > 0 {
      SumsFollowPlan(env, o, k - 1);
      assert FilterFollowsPlan(env, o, k - 1) && FilterOccupancy(o, k - 1);
      assert o.filters[..k] == o.filters[..k - 1] + [o.filters[k - 1]];
      SumsOfPush(env, o.filters[..k - 1], o.filters[k - 1]);
    }
  }

  /** Memory, capacity and cardinality of a grown object, read off its plan and its last sub-filter. */
  lemma GrownTotals(env: Env, o: Object)
    requires Grown(env, o)
    ensures var n, p := |o.filters|, PlanOf(env, o);
            && Capacity(o) == p.Total(n)
            && MemoryUsage(env, o) == ObjectSize(o.vecCap) + p.Bytes(n)
            && Cardinality(o) == p.Total(n - 1) + o.filters[n - 1].numItems
            && 0 <= Cardinality(o) <= Capacity(o)
  {
    hide CapacityAt;
    var n := |o.filters|;
    SumsFollowPlan(env, o, n);
    SumsFollowPlan(env, o, n - 1);
    assert o.filters[..n] == o.filters;
    assert FilterFollowsPlan(env, o, n - 1) && FilterOccupancy(o, n - 1);
    SumsOfPush(env, o.filters[..n - 1], o.filters[n - 1]);
    assert o.filters == o.filters[..n - 1] + [o.filters[n - 1]];
  }

  // ---------- growth keeps the invariant ----------

  lemma CreationIsGrown(env: Env, limit: nat, fpRate: Rate, tightening: Rate, capacity: pos, expansion: U32,
                        seed: Seed, seedRandom: bool, validate: bool)
    requires capacity <= I64_MAX
    ensures var r := NewReserved(env, limit, fpRate, tightening, capacity, expansion, seed, seedRandom, validate);
            r.Ok? ==> && Grown(env, r.value) && Unshrunk(r.value) && Cardinality(r.value) == 0
                      && Capacity(r.value) == capacity
                      && (validate ==> SizeChecked(env, limit, r.value))
  {
    var r := NewReserved(env, limit, fpRate, tightening, capacity, expansion, seed, seedRandom, validate);
    if r.Ok? {
      var o := r.value;
      assert PlanOf(env, o).RateAt(0) == fpRate;
      assert FilterFollowsPlan(env, o, 0);
      assert Grown(env, o);
      GrownTotals(env, o);
      assert PlanOf(env, o).Total(1) == capacity by { assert PlanOf(env, o).Total(0) == 0; }
      assert PlanOf(env, o).Bytes(1) == PlanOf(env, o).SizeAt(0) by { assert PlanOf(env, o).Bytes(0) == 0; }
    }
  }

  lemma FilledInKeepsShape(env: Env, o: Object, item: string)
    requires Grown(env, o) && o.filters[|o.filters| - 1].numItems < o.filters[|o.filters| - 1].capacity
    ensures Grown(env, FilledIn(env, o, item)) && PlanOf(env, FilledIn(env, o, item)) == PlanOf(env, o)
    ensures SameSeed(o, FilledIn(env, o, item))
  {
    hide CapacityAt;
    var n, o' := |o.filters|, FilledIn(env, o, item);
    forall i | 0 <= i < n ensures FilterFollowsPlan(env, o', i) && FilterOccupancy(o', i) {
      assert FilterFollowsPlan(env, o, i) && FilterOccupancy(o, i);
    }
  }

  lemma FilledInIsGrown(env: Env, o: Object, item: string)
    requires Grown(env, o) && o.filters[|o.filters| - 1].numItems < o.filters[|o.filters| - 1].capacity
    ensures Grown(env, FilledIn(env, o, item))
    ensures Cardinality(FilledIn(env, o, item)) == Cardinality(o) + 1
    ensures PlanOf(env, FilledIn(env, o, item)) == PlanOf(env, o) && SameSeed(o, FilledIn(env, o, item))
    ensures Unshrunk(o) ==> Unshrunk(FilledIn(env, o, item))
  {
    FilledInKeepsShape(env, o, item);
    hide Grown;
    var n := |o.filters|;
    var before, last := o.filters[..n - 1], o.filters[n - 1];
    assert o.filters == before + [last];
    SumsOfPush(env, before, last);
    SumsOfPush(env, before, Insert(env, last, item));
  }

  lemma AtLeastOne(a: int, b: int)
    requires a >= 1 && b >= 1
    ensures a * b >= 1
  {
  }

  /** The capacity `add_item_unchecked` computes for the next sub-filter is the planned one. */
  lemma NextCapacity(env: Env, o: Object)
    requires Grown(env, o)
    ensures var n, p := |o.filters|, PlanOf(env, o);
            && p.CapAt(n) == o.filters[n - 1].capacity * o.expansion
            && (o.expansion > 0 ==> p.CapAt(n) >= 1)
  {
    var n, p := |o.filters|, PlanOf(env, o);
    assert FilterFollowsPlan(env, o, n - 1);
    assert p.CapAt(n) == p.CapAt(n - 1) * o.expansion;
    var capacity, expansion := o.filters[n - 1].capacity, o.expansion;
    assert capacity == p.CapAt(n - 1) >= 1;
    hide *;
    if expansion > 0 { AtLeastOne(capacity, expansion); }
  }

  /** Another sub-filter can be pushed onto `o`, as its plan wants it. */
  ghost predicate CanScaleOut(env: Env, o: Object)
    requires Grown(env, o)
  {
    var n, p := |o.filters|, PlanOf(env, o);
    && o.expansion > 0 && n < I32_MAX && o.filters[n - 1].numItems == o.filters[n - 1].capacity
    && p.RateAt(n) > MIN_POSITIVE && p.CapAt(n) <= I64_MAX
  }

  lemma ScaledOutKeepsShape(env: Env, o: Object, item: string)
    requires Grown(env, o) && CanScaleOut(env, o)
    ensures var n, p := |o.filters|, PlanOf(env, o);
            var o' := ScaledOut(env, o, p.RateAt(n), p.CapAt(n), item);
            Grown(env, o') && PlanOf(env, o') == p && SameSeed(o, o')
  {
    hide CapacityAt;
    var n, p := |o.filters|, PlanOf(env, o);
    var o' := ScaledOut(env, o, p.RateAt(n), p.CapAt(n), item);
    NextCapacity(env, o);
    assert FilterOccupancy(o, n - 1);
    forall i | 0 <= i < n + 1 ensures FilterFollowsPlan(env, o', i) && FilterOccupancy(o', i) {
      if i < n {
        assert FilterFollowsPlan(env, o, i) && FilterOccupancy(o, i);
        assert o'.filters[i] == o.filters[i];
      }
    }
  }

  lemma ScaledOutHoldsOneMore(env: Env, o: Object, rate: real, capacity: int, item: string)
    requires o.filters != []
    ensures Cardinality(ScaledOut(env, o, rate, capacity, item)) == Cardinality(o) + 1
  {
    SumsOfPush(env, o.filters, Insert(env, NewFilter(env, rate, capacity, o.filters[0].bloom.seed), item));
  }

  lemma ScaledOutIsGrown(env: Env, o: Object, item: string)
    requires Grown(env, o) && CanScaleOut(env, o)
    ensures var n, p := |o.filters|, PlanOf(env, o);
            var o' := ScaledOut(env, o, p.RateAt(n), p.CapAt(n), item);
            && Grown(env, o') && PlanOf(env, o') == p && SameSeed(o, o')
            && Cardinality(o') == Cardinality(o) + 1
            && (Unshrunk(o) ==> Unshrunk(o'))
  {
    var n, p := |o.filters|, PlanOf(env, o);
    ScaledOutKeepsShape(env, o, item);
    ScaledOutHoldsOneMore(env, o, p.RateAt(n), p.CapAt(n), item);
    UnshrunkAfterPush(o, ScaledOut(env, o, p.RateAt(n), p.CapAt(n), item));
    hide Grown;
    hide Cardinality;
    hide Unshrunk;
    hide CanScaleOut;
  }

  lemma UnshrunkAfterPush(o: Object, o': Object)
    requires o.filters != []
    requires |o'.filters| == |o.filters| + 1 && o'.vecCap == GrowVec(o.vecCap, |o.filters|)
    ensures Unshrunk(o) ==> Unshrunk(o')
  {
    PushFollowsFormula(|o.filters|);
  }

  /** The three ways `add_item_unchecked` can go for a grown object. */
  lemma AddCases(env: Env, limit: nat, o: Object, item: string, validate: bool)
    requires Grown(env, o)
    ensures var n, p, r := |o.filters|, PlanOf(env, o), AddUnchecked(env, limit, o, item, validate);
            if o.filters[n - 1].numItems < o.filters[n - 1].capacity then r == AddOutcome(FilledIn(env, o, item), Ok(1))
            else if r.reply.Ok?
            then CanScaleOut(env, o) && r == AddOutcome(ScaledOut(env, o, p.RateAt(n), p.CapAt(n), item), Ok(1))
            else r.after == o
  {
    assert FilterOccupancy(o, |o.filters| - 1);
    NextCapacity(env, o);
    hide CapacityAt;
    hide FilledIn;
    hide ScaledOut;
    hide MemoryUsage;
    hide FilterSize;
  }

  /** What one `add_item_unchecked` does to a grown object: nothing on an error, one more item otherwise. */
  lemma AddUncheckedKeepsGrown(env: Env, limit: nat, o: Object, item: string, validate: bool)
    requires Grown(env, o)
    ensures var r := AddUnchecked(env, limit, o, item, validate);
            && Grown(env, r.after) && PlanOf(env, r.after) == PlanOf(env, o)
            && SameSeed(o, r.after)
            && (Unshrunk(o) ==> Unshrunk(r.after))
            && (r.reply.Err? ==> r.after == o)
            && (r.reply.Ok? ==> r.reply.value == 1 && Cardinality(r.after) == Cardinality(o) + 1)
  {
    AddCases(env, limit, o, item, validate);
    if o.filters[|o.filters| - 1].numItems < o.filters[|o.filters| - 1].capacity {
      FilledInIsGrown(env, o, item);
    } else if AddUnchecked(env, limit, o, item, validate).reply.Ok? {
      ScaledOutIsGrown(env, o, item);
    }
    hide AddUnchecked;
    hide FilledIn;
    hide ScaledOut;
    hide Grown;
    hide Unshrunk;
    hide Cardinality;
    hide CapacityAt;
  }

  /** A validated add makes no more than one sub-filter, and only one whose size has been checked. */
  lemma ScaleOutIsChecked(env: Env, limit: nat, o: Object, item: string)
    requires Grown(env, o) && Unshrunk(o)
    ensures var n, n' := |o.filters|, |AddUnchecked(env, limit, o, item, true).after.filters|;
            n' == n || (n' == n + 1 && CheckedAt(PlanOf(env, o), limit, n))
  {
    hide CapacityAt;
    hide VecCapFor;
    hide AsI32;
    var n, p := |o.filters|, PlanOf(env, o);
    NextCapacity(env, o);
    GrownTotals(env, o);
    assert p.Bytes(n + 1) == p.Bytes(n) + p.SizeAt(n);
    hide Grown;
    hide Cardinality;
    hide Capacity;
  }

  /** With validation on, an unshrunk object stays one whose every scale-out was checked. */
  lemma AddUncheckedKeepsSizeChecked(env: Env, limit: nat, o: Object, item: string)
    requires Grown(env, o) && Unshrunk(o) && SizeChecked(env, limit, o)
    ensures var r := AddUnchecked(env, limit, o, item, true);
            Grown(env, r.after) && SizeChecked(env, limit, r.after)
  {
    AddUncheckedKeepsGrown(env, limit, o, item, true);
    ScaleOutIsChecked(env, limit, o, item);
    hide AddUnchecked;
    hide Grown;
    hide CheckedAt;
  }

  /** An added item is found, and nothing that was found before is lost. */
  lemma AddUncheckedRemembers(env: Env, limit: nat, o: Object, item: string, validate: bool, other: string)
    requires o.filters != []
    ensures var r := AddUnchecked(env, limit, o, item, validate);
            && (r.reply.Ok? ==> ItemExists(env, r.after, item))
            && (ItemExists(env, o, other) ==> ItemExists(env, r.after, other))
  {
    var r, n := AddUnchecked(env, limit, o, item, validate), |o.filters|;
    if r.reply.Ok? {
      var k := |r.after.filters| - 1;
      assert Check(env, r.after.filters[k].bloom, item);
    }
    if i :| 0 <= i < n && Check(env, o.filters[i].bloom, other) {
      assert Check(env, r.after.filters[i].bloom, other);
    }
  }

  // ---------- whole runs of adds ----------

  /** One add: BF.ADD looks the item up first; the limit may change between adds. */
  datatype AddOp = AddOp(item: string, lookup: bool, validate: bool, limit: nat)

  function Apply(env: Env, o: Object, op: AddOp): AddOutcome {
    if op.lookup then AddItem(env, op.limit, o, op.item, op.validate)
    else AddUnchecked(env, op.limit, o, op.item, op.validate)
  }

  function Run(env: Env, o: Object, ops: seq<AddOp>): Object
    decreases |ops|
  {
    if ops == [] then o else Run(env, Apply(env, o, ops[0]).after, ops[1..])
  }

  /** How many of the adds answered `Ok(1)`. */
  function AddedBy(env: Env, o: Object, ops: seq<AddOp>): nat
    decreases |ops|
  {
    if ops == [] then 0 else
    var r := Apply(env, o, ops[0]);
    (if r.reply == Ok(1) then 1 else 0) + AddedBy(env, r.after, ops[1..])
  }

  lemma ApplyKeepsGrown(env: Env, o: Object, op: AddOp)
    requires Grown(env, o) && Unshrunk(o)
    ensures var r := Apply(env, o, op);
            && Grown(env, r.after) && Unshrunk(r.after) && PlanOf(env, r.after) == PlanOf(env, o)
            && SameSeed(o, r.after)
            && Cardinality(r.after) == Cardinality(o) + (if r.reply == Ok(1) then 1 else 0)
  {
    AddUncheckedKeepsGrown(env, op.limit, o, op.item, op.validate);
  }

  lemma {:induction false} RunKeepsGrown(env: Env, o: Object, ops: seq<AddOp>)
    requires Grown(env, o) && Unshrunk(o)
    ensures var o' := Run(env, o, ops);
            && Grown(env, o') && Unshrunk(o') && PlanOf(env, o') == PlanOf(env, o)
            && SameSeed(o, o')
            && Cardinality(o') == Cardinality(o) + AddedBy(env, o, ops)
    decreases |ops|
  {
    if ops != [] {
      var op := ops[0];
      ApplyKeepsGrown(env, o, op);
      var r := Apply(env, o, op);
      RunKeepsGrown(env, r.after, ops[1..]);
    }
  }

  lemma {:induction false} RunKeepsSizeChecked(env: Env, limit: nat, o: Object, ops: seq<AddOp>)
    requires Grown(env, o) && Unshrunk(o) && SizeChecked(env, limit, o)
    requires forall op :: op in ops ==> op.validate && op.limit == limit
    ensures Grown(env, Run(env, o, ops)) && SizeChecked(env, limit, Run(env, o, ops))
    decreases |ops|
  {
    hide CapacityAt;
    if ops != [] {
      var op := ops[0];
      ApplyKeepsGrown(env, o, op);
      AddUncheckedKeepsSizeChecked(env, limit, o, op.item);
      RunKeepsSizeChecked(env, limit, Apply(env, o, op).after, ops[1..]);
    }
  }

  function IntPow(b: nat, e: nat): nat { if e == 0 then 1 else IntPow(b, e - 1) * b }

  lemma {:induction false} CapacityAtIsPower(start: nat, expansion: nat, i: nat)
    ensures CapacityAt(start, expansion, i) == start * IntPow(expansion, i)
  {
    if i > 0 {
      CapacityAtIsPower(start, expansion, i - 1);
    }
  }

  /** The shape described by start capacity, expansion and seed alone. */
  ghost predicate HasShape(o: Object, start: nat, expansion: nat, seed: Seed) {
    var n := |o.filters|;
    && n >= 1 && o.vecCap == PushedCapacity(n)
    && (forall i :: 0 <= i < n ==> o.filters[i].capacity == start * IntPow(expansion, i))
    && (forall i :: 0 <= i < n ==> o.filters[i].bloom.seed == seed)
    && (forall i :: 0 <= i < n - 1 ==> o.filters[i].numItems == o.filters[i].capacity)
    && (n > 1 ==> o.filters[n - 1].numItems >= 1)
  }

  lemma GrownHasShape(env: Env, o: Object)
    requires Grown(env, o) && Unshrunk(o)
    ensures HasShape(o, o.filters[0].capacity, o.expansion, o.filters[0].bloom.seed)
  {
    forall i | 0 <= i < |o.filters|
      ensures o.filters[i].capacity == o.filters[0].capacity * IntPow(o.expansion, i)
      ensures o.filters[i].bloom.seed == o.filters[0].bloom.seed
    {
      assert FilterFollowsPlan(env, o, i);
      CapacityAtIsPower(o.filters[0].capacity, o.expansion, i);
    }
    forall i | 0 <= i < |o.filters|
      ensures i < |o.filters| - 1 ==> o.filters[i].numItems == o.filters[i].capacity
      ensures i == |o.filters| - 1 && i > 0 ==> o.filters[i].numItems >= 1
    {
      assert FilterOccupancy(o, i);
    }
    PushedCapacityClosedForm(|o.filters|);
  }

  /**
   The shape of every object that creation followed by any adds, under any limits, can produce:
   sub-filter `i` has capacity `start * expansion^i`, all but the last are full, a last sub-filter
   made by scaling is not empty, all share one seed, and the cardinality counts the `Ok(1)` replies.
   */
  lemma ShapeOfEveryRun(env: Env, limit: nat, fpRate: Rate, tightening: Rate, start: pos, expansion: U32,
                        seed: Seed, seedRandom: bool, validate: bool, o: Object, ops: seq<AddOp>)
    requires start <= I64_MAX
    requires NewReserved(env, limit, fpRate, tightening, start, expansion, seed, seedRandom, validate) == Ok(o)
    ensures var o' := Run(env, o, ops);
            && HasShape(o', start, expansion, seed)
            && Cardinality(o') == AddedBy(env, o, ops) <= Capacity(o')
  {
    CreationIsGrown(env, limit, fpRate, tightening, start, expansion, seed, seedRandom, validate);
    RunKeepsGrown(env, o, ops);
    GrownHasShape(env, Run(env, o, ops));
    GrownTotals(env, Run(env, o, ops));
  }
}

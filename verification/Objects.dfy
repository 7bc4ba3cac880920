/**
 The scaling bloom object as the module keeps it: an object updated in place, whose every change is
 booked on the global counters. Each method is tied to the value-level operation it performs.
 */
module Objects {
  import opened Platform
  import opened RawBloom
  import opened Vectors
  import opened ScalingObject
  import opened Simulator
  import opened BatchAdd
  import opened Accounting
  import opened Lifecycle

  /** Remembers whether a counter has ever been decremented below zero, where the real one would wrap around. */
  class Alarm {
    ghost var wentBelowZero: bool
  }

  /** The global counters. Only decrements can set off the alarm, and only they modify it. */
  class Metrics {
    const alarm: Alarm
    var numObjects: int
    var totalMemoryBytes: int
    var numFilters: int
    var numItems: int
    var totalCapacity: int

    function View(): Counters
      reads this
    {
      Counters(numObjects, totalMemoryBytes, numFilters, numItems, totalCapacity)
    }

    constructor ()
      ensures View() == ZERO && fresh(alarm) && !alarm.wentBelowZero
    {
      alarm := new Alarm;
      numObjects, totalMemoryBytes, numFilters, numItems, totalCapacity := 0, 0, 0, 0, 0;
      new;
      alarm.wentBelowZero := false;
    }

    ghost predicate Rings()
      reads this, alarm
    {
      alarm.wentBelowZero || !NonNegative(View())
    }

    /** `bloom_filter_incr_metrics_on_new_create`, with the items a restored sub-filter brings. */
    method FilterCreated(env: Env, f: Filter)
      modifies this
      ensures View() == Plus(old(View()), FilterCounters(env, f))
    {
      numFilters := numFilters + 1;
      totalMemoryBytes := totalMemoryBytes + FilterBytes(env, f);
      totalCapacity := totalCapacity + f.capacity;
      numItems := numItems + f.numItems;
    }

    /** `Drop for BloomFilter`. */
    method FilterDropped(env: Env, f: Filter)
      modifies this, alarm
      ensures View() == Minus(old(View()), FilterCounters(env, f))
      ensures alarm.wentBelowZero == (old(alarm.wentBelowZero) || !NonNegative(View()))
    {
      numFilters := numFilters - 1;
      totalMemoryBytes := totalMemoryBytes - FilterBytes(env, f);
      numItems := numItems - f.numItems;
      totalCapacity := totalCapacity - f.capacity;
      alarm.wentBelowZero := Rings();
    }

    method ItemAdded()
      modifies this
      ensures View() == Plus(old(View()), Counters(0, 0, 0, 1, 0))
    {
      numItems := numItems + 1;
    }

    /** The vector was reallocated: `growth` more bytes of boxes. */
    method VectorGrown(growth: int)
      modifies this
      ensures View() == Plus(old(View()), Counters(0, growth, 0, 0, 0))
    {
      totalMemoryBytes := totalMemoryBytes + growth;
    }

    /** `decrement_metrics_on_defrag`: `freed` bytes of boxes less. */
    method VectorShrunk(freed: int)
      modifies this, alarm
      ensures View() == Minus(old(View()), Counters(0, freed, 0, 0, 0))
      ensures alarm.wentBelowZero == (old(alarm.wentBelowZero) || !NonNegative(View()))
    {
      totalMemoryBytes := totalMemoryBytes - freed;
      alarm.wentBelowZero := Rings();
    }

    /** `bloom_object_incr_metrics_on_new_create`. */
    method ObjectCreated(vecCap: nat)
      modifies this
      ensures View() == Plus(old(View()), Counters(1, ObjectSize(vecCap), 0, 0, 0))
    {
      numObjects := numObjects + 1;
      totalMemoryBytes := totalMemoryBytes + ObjectSize(vecCap);
    }

    /** `Drop for BloomObject`, before its sub-filters are dropped. */
    method ObjectDropped(vecCap: nat)
      modifies this, alarm
      ensures View() == Minus(old(View()), Counters(1, ObjectSize(vecCap), 0, 0, 0))
      ensures alarm.wentBelowZero == (old(alarm.wentBelowZero) || !NonNegative(View()))
    {
      totalMemoryBytes := totalMemoryBytes - ObjectSize(vecCap);
      numObjects := numObjects - 1;
      alarm.wentBelowZero := Rings();
    }
  }

  class BloomFilter {
    var bloom: Bloom
    var numItems: int
    const capacity: int

    function View(): Filter
      reads this
    {
      Filter(bloom, numItems, capacity)
    }

    constructor (bloom: Bloom, numItems: int, capacity: int)
      ensures View() == Filter(bloom, numItems, capacity)
    {
      this.bloom, this.numItems, this.capacity := bloom, numItems, capacity;
    }

    /** `set`, and the count that goes with it. */
    method Add(env: Env, item: string)
      modifies this
      ensures View() == Insert(env, old(View()), item)
    {
      bloom := SetItem(env, bloom, item);
      numItems := numItems + 1;
    }
  }

  /** `with_fixed_seed` and `with_random_seed`: an empty sub-filter, counted. */
  method CreateFilter(env: Env, rate: real, capacity: int, seed: Seed, m: Metrics) returns (f: BloomFilter)
    modifies m
    ensures fresh(f) && f.View() == NewFilter(env, rate, capacity, seed)
    ensures m.View() == Plus(old(m.View()), FilterCounters(env, f.View()))
  {
    f := new BloomFilter(NewBloom(env, capacity, rate, seed), 0, capacity);
    m.FilterCreated(env, f.View());
  }

  /** A new sub-filter that has been given its first item. */
  method CreateFilterWith(env: Env, rate: real, capacity: int, seed: Seed, item: string, m: Metrics) returns (f: BloomFilter)
    modifies m
    ensures fresh(f) && f.View() == Insert(env, NewFilter(env, rate, capacity, seed), item)
    ensures m.View() == Plus(Plus(old(m.View()), FilterCounters(env, NewFilter(env, rate, capacity, seed))), Counters(0, 0, 0, 1, 0))
  {
    hide NewFilter;
    hide Insert;
    hide FilterCounters;
    f := CreateFilter(env, rate, capacity, seed, m);
    f.Add(env, item);
    m.ItemAdded();
  }

  ghost predicate Distinct(fs: seq<BloomFilter>) {
    forall i, j :: 0 <= i < j < |fs| ==> fs[i] != fs[j]
  }

  /** The sub-filters `fs` hold the values `vs`. */
  ghost predicate Hold(fs: seq<BloomFilter>, vs: seq<Filter>)
    reads fs
  {
    |fs| == |vs| && forall i :: 0 <= i < |fs| ==> fs[i].View() == vs[i]
  }

  /** All sub-filters there now were there before or are new. */
  twostate predicate Owned(before: seq<BloomFilter>, new now: seq<BloomFilter>) {
    forall i :: 0 <= i < |now| ==> now[i] in before || fresh(now[i])
  }

  /** The counters have followed an object from `o` to `o'`. */
  ghost predicate Booked(env: Env, before: Counters, o: Object, after: Counters, o': Object) {
    after == Plus(Minus(before, ObjectCounters(env, o)), ObjectCounters(env, o'))
  }

  class BloomObject {
    const expansion: U32
    const fpRate: Rate
    const tightening: Rate
    const seedRandom: bool
    var filters: seq<BloomFilter>
    var vecCap: nat

    /** The object as a value. */
    ghost var value: Object

    ghost predicate Valid()
      reads this, filters
    {
      && Distinct(filters) && Hold(filters, value.filters) && |filters| <= vecCap
      && value == Object(expansion, fpRate, tightening, seedRandom, value.filters, vecCap)
    }

    constructor (expansion: U32, fpRate: Rate, tightening: Rate, seedRandom: bool, filters: seq<BloomFilter>,
                 vecCap: nat, ghost vs: seq<Filter>)
      requires Distinct(filters) && Hold(filters, vs) && |filters| <= vecCap
      ensures Valid() && this.filters == filters
      ensures value == Object(expansion, fpRate, tightening, seedRandom, vs, vecCap)
    {
      this.expansion, this.fpRate, this.tightening, this.seedRandom := expansion, fpRate, tightening, seedRandom;
      this.filters, this.vecCap := filters, vecCap;
      value := Object(expansion, fpRate, tightening, seedRandom, vs, vecCap);
    }

    // ---------- queries ----------

    /** `cardinality`. */
    method Cardinality() returns (n: int)
      requires Valid()
      ensures n == ScalingObject.Cardinality(value)
    {
      n := 0;
      for i := 0 to |filters|
        invariant n == ItemsIn(value.filters[..i])
      {
        n := n + filters[i].numItems;
        assert value.filters[..i + 1][..i] == value.filters[..i];
      }
      assert value.filters[..|filters|] == value.filters;
    }

    /** `capacity`. */
    method Capacity() returns (n: int)
      requires Valid()
      ensures n == ScalingObject.Capacity(value)
    {
      n := 0;
      for i := 0 to |filters|
        invariant n == CapacityIn(value.filters[..i])
      {
        n := n + filters[i].capacity;
        assert value.filters[..i + 1][..i] == value.filters[..i];
      }
      assert value.filters[..|filters|] == value.filters;
    }

    /** `memory_usage`. */
    method MemoryUsage(env: Env) returns (n: nat)
      requires Valid()
      ensures n == ScalingObject.MemoryUsage(env, value)
    {
      n := ObjectSize(vecCap);
      for i := 0 to |filters|
        invariant n == ObjectSize(vecCap) + BytesIn(env, value.filters[..i])
      {
        n := n + FilterBytes(env, filters[i].View());
        assert value.filters[..i + 1][..i] == value.filters[..i];
      }
      assert value.filters[..|filters|] == value.filters;
    }

    /** `item_exists`. */
    method ItemExists(env: Env, item: string) returns (found: bool)
      requires Valid()
      ensures found == ScalingObject.ItemExists(env, value, item)
      ensures found <==> exists k :: 0 <= k < |value.filters| && Check(env, value.filters[k].bloom, item)
    {
      found := false;
      for i := 0 to |filters|
        invariant !found
        invariant forall k :: 0 <= k < i ==> !Check(env, value.filters[k].bloom, item)
      {
        if Check(env, filters[i].bloom, item) {
          return true;
        }
      }
    }

    /** `validate_add_items`. */
    method ValidateAddItems(env: Env, limit: nat, count: nat) returns (e: Option<Error>)
      requires Valid() && HasFirst(value)
      ensures e == BatchAdd.ValidateAddItems(env, limit, value, count)
    {
      hide MaxScaledCapacity;
      if count == 0 { return None; }
      var capacity := Capacity();
      var cardinality := Cardinality();
      if capacity - cardinality >= count { return None; }
      if expansion == 0 { return Some(NonScalingFilterFull); }
      var r := CalculateMaxScaledCapacity(env, limit, filters[0].capacity, fpRate, cardinality + count, tightening, expansion);
      match r {
        case Ok(_) => e := None;
        case Err(ValidateScaleToExceedsMaxSize) => e := Some(ExceedsMaxBloomSize);
        case Err(ValidateScaleToFalsePositiveInvalid) => e := Some(FalsePositiveReachesZero);
        case Err(other) => e := Some(other);
      }
    }

    // ---------- adding ----------

    /** The last sub-filter takes the item. */
    method AddToLast(env: Env, item: string)
      requires Valid() && filters != []
      modifies `value, filters[|filters| - 1]
      ensures Valid() && value == FilledIn(env, old(value), item)
    {
      hide Insert;
      filters[|filters| - 1].Add(env, item);
      value := FilledIn(env, value, item);
    }

    /** The last sub-filter takes the item, which is counted. */
    method FillLast(env: Env, item: string, m: Metrics)
      requires Valid() && filters != []
      modifies this, filters, m
      ensures Valid() && filters == old(filters)
      ensures value == FilledIn(env, old(value), item)
      ensures Booked(env, old(m.View()), old(value), m.View(), value)
    {
      CountersOfFill(env, value, item);
      hide ObjectCounters;
      hide FilledIn;
      AddToLast(env, item);
      m.ItemAdded();
    }

    /** `Vec::push`, which reallocates a full vector. */
    method Push(f: BloomFilter)
      requires Valid() && f !in filters
      modifies this
      ensures Valid() && filters == old(filters) + [f]
      ensures value == old(value).(filters := old(value).filters + [f.View()], vecCap := GrowVec(old(vecCap), |old(filters)|))
    {
      vecCap := GrowVec(vecCap, |filters|);
      filters := filters + [f];
      value := value.(filters := value.filters + [f.View()], vecCap := vecCap);
    }

    /** A new sub-filter with the seed of the first takes the item and is pushed onto the vector. */
    method ScaleOut(env: Env, newFpRate: real, newCapacity: int, item: string, m: Metrics)
      requires Valid() && filters != []
      modifies this, m
      ensures Valid() && Owned(old(filters), filters)
      ensures value == ScaledOut(env, old(value), newFpRate, newCapacity, item)
      ensures Booked(env, old(m.View()), old(value), m.View(), value)
    {
      CountersOfScaleOut(env, value, newFpRate, newCapacity, item);
      hide NewFilter;
      hide Insert;
      hide ObjectCounters;
      hide FilterCounters;
      var added := CreateFilterWith(env, newFpRate, newCapacity, filters[0].bloom.seed, item, m);
      var memoryBefore := ObjectSize(vecCap);
      Push(added);
      m.VectorGrown(ObjectSize(vecCap) - memoryBefore);
    }

    /** `add_item_unchecked`. */
    method AddItemUnchecked(env: Env, limit: nat, item: string, validate: bool, m: Metrics) returns (r: Result<int>)
      requires Valid()
      modifies this, filters, m
      ensures Valid() && Owned(old(filters), filters)
      ensures AddOutcome(value, r) == AddUnchecked(env, limit, old(value), item, validate)
      ensures Booked(env, old(m.View()), old(value), m.View(), value)
    {
      hide FilledIn;
      hide ScaledOut;
      hide ObjectCounters;
      hide AsI32;
      hide CalculateFpRate;
      var n := |filters|;
      if n == 0 { return Ok(0); }
      var last := filters[n - 1];
      if last.numItems < last.capacity {
        FillLast(env, item, m);
        return Ok(1);
      }
      if expansion == 0 { return Err(NonScalingFilterFull); }
      if AsI32(n) == I32_MAX { return Err(MaxNumScalingFilters); }
      var newFpRate;
      match CalculateFpRate(env, fpRate, AsI32(n), tightening) {
        case Ok(rate) => newFpRate := rate;
        case Err(e) => return Err(e);
      }
      var newCapacity := last.capacity * expansion;
      if newCapacity > I64_MAX { return Err(BadCapacity); }
      if validate {
        var bytes := MemoryUsage(env);
        if bytes + FilterSize(env, newCapacity, newFpRate) > limit { return Err(ExceedsMaxBloomSize); }
      }
      ScaleOut(env, newFpRate, newCapacity, item, m);
      return Ok(1);
    }

    /** `add_item`. */
    method AddItem(env: Env, limit: nat, item: string, validate: bool, m: Metrics) returns (r: Result<int>)
      requires Valid()
      modifies this, filters, m
      ensures Valid() && Owned(old(filters), filters)
      ensures AddOutcome(value, r) == ScalingObject.AddItem(env, limit, old(value), item, validate)
      ensures Booked(env, old(m.View()), old(value), m.View(), value)
    {
      hide AddUnchecked;
      hide ObjectCounters;
      hide ScalingObject.ItemExists;
      var found := ItemExists(env, item);
      if found { return Ok(0); }
      r := AddItemUnchecked(env, limit, item, validate, m);
    }

    // ---------- the end of an object ----------

    /**
     Dropping an object takes back everything it was counted with. If it was counted at all, no counter
     goes below zero on the way.
     */
    method Drop(env: Env, m: Metrics)
      requires Valid()
      modifies m, m.alarm
      ensures m.View() == Minus(old(m.View()), ObjectCounters(env, value))
      ensures NoneNegative(value.filters) && Included(env, old(m.View()), value) ==>
                m.alarm.wentBelowZero == old(m.alarm.wentBelowZero)
    {
      CountersOfObject(env, value);
      if NoneNegative(value.filters) { SumsAreNonNegative(env, value.filters); }
      hide ObjectCounters;
      hide FiltersCounters;
      m.ObjectDropped(vecCap);
      DropFilters(env, filters, value.filters, m);
    }

    // ---------- defragmentation ----------

    /**
     One slice of defragmentation. The server lets it visit `slices` sub-filters; `moves(i)` tells
     whether sub-filter `i` is given a new place. Each visited sub-filter is taken out of the vector,
     its bloom is swapped for the placeholder and back, and it is put in again; after the last one
     the vector is cut down to size.
     */
    method Defrag(env: Env, enabled: bool, start: nat, slices: nat, moves: nat -> bool, placeholder: Placeholder,
                  m: Metrics) returns (reply: int, cursor: nat)
      requires Valid() && placeholder.bloom.Some?
      modifies this, filters, placeholder, m, m.alarm
      ensures Valid() && Owned(old(filters), filters) && placeholder.bloom == old(placeholder.bloom)
      ensures var n := |old(value).filters|;
              if !enabled then cursor == start && reply == 0 && value == old(value)
              else if start + slices < n then cursor == start + slices && reply == 1 && value == old(value)
              else cursor == Max(start, n) && reply == 0 && value == old(value).(vecCap := n)
      ensures Booked(env, old(m.View()), old(value), m.View(), value)
      ensures NoneNegative(old(value).filters) && Included(env, old(m.View()), old(value)) ==>
                m.alarm.wentBelowZero == old(m.alarm.wentBelowZero)
    {
      hide ObjectCounters;
      cursor := start;
      if !enabled { return 0, cursor; }
      assert |filters| == |value.filters|;
      hide Hold;
      hide Distinct;
      CursorAdvances(|filters|, start, slices);
      cursor := VisitFilters(start, slices, moves, placeholder);
      if cursor < |filters| { return 1, cursor; }
      Shrink(env, m);
      return 0, cursor;
    }

    /** The vector is cut down to its sub-filters, and the counter to what it still takes. */
    method Shrink(env: Env, m: Metrics)
      requires Valid()
      modifies this, m, m.alarm
      ensures Valid() && filters == old(filters) && value == old(value).(vecCap := |filters|)
      ensures Booked(env, old(m.View()), old(value), m.View(), value)
      ensures NoneNegative(old(value).filters) && Included(env, old(m.View()), old(value)) ==>
                m.alarm.wentBelowZero == old(m.alarm.wentBelowZero)
    {
      CountersOfShrink(env, value);
      if NoneNegative(value.filters) && Included(env, m.View(), value) { StillIncluded(env, m.View(), value); }
      hide ObjectCounters;
      hide Included;
      var capacityBefore := vecCap;
      vecCap := |filters|;
      value := value.(vecCap := |filters|);
      m.VectorShrunk((capacityBefore - |filters|) * BOX_BYTES);
    }

    method VisitFilters(start: nat, slices: nat, moves: nat -> bool, placeholder: Placeholder) returns (cursor: nat)
      requires Valid() && placeholder.bloom.Some?
      modifies this, filters, placeholder
      ensures Valid() && value == old(value)
      ensures Owned(old(filters), filters) && |filters| == |old(filters)|
      ensures placeholder.bloom == old(placeholder.bloom)
      ensures cursor == CursorAfter(|filters|, start, slices)
    {
      assert |filters| == |value.filters|;
      hide Hold;
      hide Distinct;
      cursor := start;
      var left: nat := slices;
      while left > 0 && cursor < |filters|
        invariant Valid() && value == old(value) && |filters| == |old(filters)|
        invariant forall i :: 0 <= i < |filters| ==> filters[i] == old(filters)[i] || fresh(filters[i])
        invariant placeholder.bloom == old(placeholder.bloom)
        invariant CursorAfter(|filters|, cursor, left) == CursorAfter(|filters|, start, slices)
        decreases left
      {
        VisitFilter(cursor, moves(cursor), placeholder);
        cursor := cursor + 1;
        left := left - 1;
      }
    }

    method VisitFilter(i: nat, moved: bool, placeholder: Placeholder)
      requires Valid() && i < |filters| && placeholder.bloom.Some?
      modifies this, filters[i], placeholder
      ensures Valid() && value == old(value)
      ensures |filters| == |old(filters)| && filters == old(filters)[i := filters[i]]
      ensures filters[i] == old(filters)[i] || fresh(filters[i])
      ensures placeholder.bloom == old(placeholder.bloom)
    {
      ghost var before := filters;
      var f := filters[i];
      filters := filters[..i] + filters[i + 1..];
      f := DefragFilter(f, moved, placeholder);
      filters := filters[..i] + [f] + filters[i..];
      assert filters == before[i := f];
    }
  }

  /**
   A sub-filter at its new place, if it was given one. Its bloom makes way for the placeholder while it
   is reallocated, and then the two change places again.
   */
  method DefragFilter(f: BloomFilter, moved: bool, placeholder: Placeholder) returns (g: BloomFilter)
    requires placeholder.bloom.Some?
    modifies f, placeholder
    ensures (g == f || fresh(g)) && g.View() == old(f.View())
    ensures placeholder.bloom == old(placeholder.bloom)
  {
    g := f;
    if moved {
      g := new BloomFilter(f.bloom, f.numItems, f.capacity);
    }
    var inner := g.bloom;
    g.bloom := placeholder.bloom.value;
    placeholder.bloom := None;
    var standIn := g.bloom;
    g.bloom := inner;
    placeholder.bloom := Some(standIn);
  }

  /** The bloom that stands in for one that is being moved. */
  class Placeholder {
    var bloom: Option<Bloom>

    constructor (b: Bloom)
      ensures bloom == Some(b)
    {
      bloom := Some(b);
    }
  }

  /** What the counters are after one more of the sub-filters has been dropped. */
  lemma OneMoreDropped(env: Env, c: Counters, vs: seq<Filter>, i: nat)
    requires i < |vs|
    ensures Minus(Minus(c, FiltersCounters(env, vs[..i])), FilterCounters(env, vs[i])) == Minus(c, FiltersCounters(env, vs[..i + 1]))
    ensures NoneNegative(vs) && NonNegative(Minus(c, FiltersCounters(env, vs))) ==>
              NonNegative(Minus(c, FiltersCounters(env, vs[..i + 1])))
  {
    assert vs[..i + 1] == vs[..i] + [vs[i]];
    CountersOfPush(env, vs[..i], vs[i]);
    if NoneNegative(vs) { PrefixCountsLess(env, vs, i + 1); }
    hide FilterCounters;
  }

  method DropFilters(env: Env, fs: seq<BloomFilter>, ghost vs: seq<Filter>, m: Metrics)
    requires Hold(fs, vs)
    modifies m, m.alarm
    ensures m.View() == Minus(old(m.View()), FiltersCounters(env, vs))
    ensures NoneNegative(vs) && NonNegative(Minus(old(m.View()), FiltersCounters(env, vs))) ==>
              m.alarm.wentBelowZero == old(m.alarm.wentBelowZero)
  {
    hide FilterCounters;
    hide FiltersCounters;
    hide NonNegative;
    CountersOfNone(env);
    assert vs[..0] == [];
    for i := 0 to |fs|
      invariant m.View() == Minus(old(m.View()), FiltersCounters(env, vs[..i]))
      invariant NoneNegative(vs) && NonNegative(Minus(old(m.View()), FiltersCounters(env, vs))) ==>
                  m.alarm.wentBelowZero == old(m.alarm.wentBelowZero)
    {
      OneMoreDropped(env, old(m.View()), vs, i);
      m.FilterDropped(env, fs[i].View());
    }
    assert vs[..|fs|] == vs;
  }

  /** `BloomFilter::from_existing`: one more sub-filter as it was stored or copied, counted with its items. */
  method RestoreFilter(env: Env, fs: seq<BloomFilter>, ghost vs: seq<Filter>, bloom: Bloom, numItems: int, capacity: int,
                       m: Metrics) returns (all: seq<BloomFilter>)
    requires Hold(fs, vs) && Distinct(fs)
    modifies m
    ensures var v := Filter(bloom, numItems, capacity);
            && |all| == |fs| + 1 && all == fs + [all[|fs|]] && fresh(all[|fs|])
            && Hold(all, vs + [v]) && Distinct(all)
            && m.View() == Plus(Minus(old(m.View()), FiltersCounters(env, vs)), FiltersCounters(env, vs + [v]))
  {
    CountersOfPush(env, vs, Filter(bloom, numItems, capacity));
    hide FilterCounters;
    var f := new BloomFilter(bloom, numItems, capacity);
    m.FilterCreated(env, f.View());
    all := fs + [f];
  }

  /** `BloomObject::from_existing`: an object made of restored sub-filters. */
  method RestoreObject(env: Env, expansion: U32, fpRate: Rate, tightening: Rate, seedRandom: bool,
                       filters: seq<BloomFilter>, vecCap: nat, ghost vs: seq<Filter>, m: Metrics) returns (o: BloomObject)
    requires Hold(filters, vs) && Distinct(filters) && |filters| <= vecCap
    modifies m
    ensures fresh(o) && o.filters == filters && o.Valid()
    ensures o.value == Object(expansion, fpRate, tightening, seedRandom, vs, vecCap)
    ensures m.View() == Plus(Minus(old(m.View()), FiltersCounters(env, vs)), ObjectCounters(env, o.value))
  {
    o := new BloomObject(expansion, fpRate, tightening, seedRandom, filters, vecCap, vs);
    CountersOfObject(env, o.value);
    m.ObjectCreated(vecCap);
  }

  /** `new_reserved`. */
  method CreateReserved(env: Env, limit: nat, fpRate: Rate, tightening: Rate, capacity: pos, expansion: U32,
                        seed: Seed, seedRandom: bool, validate: bool, m: Metrics) returns (r: Result<BloomObject>)
    modifies m
    ensures var spec := NewReserved(env, limit, fpRate, tightening, capacity, expansion, seed, seedRandom, validate);
            && (r.Err? <==> spec.Err?)
            && (r.Err? ==> r.error == spec.error && m.View() == old(m.View()))
            && (r.Ok? ==> && fresh(r.value) && fresh(r.value.filters) && r.value.Valid() && r.value.value == spec.value
                          && m.View() == Plus(old(m.View()), ObjectCounters(env, spec.value)))
  {
    if validate && OBJECT_BYTES + BOX_BYTES + FilterSize(env, capacity, fpRate) > limit {
      return Err(ExceedsMaxBloomSize);
    }
    ghost var o := NewReserved(env, limit, fpRate, tightening, capacity, expansion, seed, seedRandom, validate).value;
    CountersOfObject(env, o);
    CountersOfPush(env, [], o.filters[0]);
    assert [] + o.filters == o.filters;
    hide ObjectCounters;
    hide FilterCounters;
    var f := CreateFilter(env, fpRate, capacity, seed, m);
    var made := new BloomObject(expansion, fpRate, tightening, seedRandom, [f], 1, o.filters);
    m.ObjectCreated(1);
    return Ok(made);
  }
}

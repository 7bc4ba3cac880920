/** The five global counters, and what live objects contribute to them. */
module Accounting {
  import opened Platform
  import opened RawBloom
  import opened Vectors
  import opened ScalingObject

  datatype Counters = Counters(objects: int, memory: int, filters: int, items: int, capacity: int)

  const ZERO := Counters(0, 0, 0, 0, 0)

  function Plus(a: Counters, b: Counters): Counters {
    Counters(a.objects + b.objects, a.memory + b.memory, a.filters + b.filters, a.items + b.items, a.capacity + b.capacity)
  }

  function Minus(a: Counters, b: Counters): Counters {
    Counters(a.objects - b.objects, a.memory - b.memory, a.filters - b.filters, a.items - b.items, a.capacity - b.capacity)
  }

  lemma PlusZero(x: Counters)
    ensures Plus(x, ZERO) == x
  {
  }

  function FilterCounters(env: Env, f: Filter): Counters {
    Counters(0, FilterBytes(env, f), 1, f.numItems, f.capacity)
  }

  function FiltersCounters(env: Env, fs: seq<Filter>): Counters {
    Counters(0, BytesIn(env, fs), |fs|, ItemsIn(fs), CapacityIn(fs))
  }

  /** One object, its memory, its sub-filters, its items and its capacity. */
  function ObjectCounters(env: Env, o: Object): Counters {
    Counters(1, MemoryUsage(env, o), |o.filters|, Cardinality(o), Capacity(o))
  }

  lemma CountersOfNone(env: Env)
    ensures FiltersCounters(env, []) == ZERO
  {
  }

  /** An object's counters are its own and those of its sub-filters. */
  lemma CountersOfObject(env: Env, o: Object)
    ensures ObjectCounters(env, o) == Plus(Counters(1, ObjectSize(o.vecCap), 0, 0, 0), FiltersCounters(env, o.filters))
  {
  }

  lemma CountersOfPush(env: Env, fs: seq<Filter>, f: Filter)
    ensures FiltersCounters(env, fs + [f]) == Plus(FiltersCounters(env, fs), FilterCounters(env, f))
  {
    SumsOfPush(env, fs, f);
  }

  lemma CountersOfFill(env: Env, o: Object, item: string)
    requires o.filters != []
    ensures ObjectCounters(env, FilledIn(env, o, item)) == Plus(ObjectCounters(env, o), Counters(0, 0, 0, 1, 0))
  {
    var n := |o.filters|;
    var before, last := o.filters[..n - 1], o.filters[n - 1];
    assert o.filters == before + [last];
    CountersOfPush(env, before, last);
    CountersOfPush(env, before, Insert(env, last, item));
  }

  /** Scaling out books a sub-filter, its item, and what reallocating the vector adds. */
  lemma CountersOfScaleOut(env: Env, o: Object, rate: real, capacity: int, item: string)
    requires o.filters != []
    ensures var added := NewFilter(env, rate, capacity, o.filters[0].bloom.seed);
            var growth := ObjectSize(GrowVec(o.vecCap, |o.filters|)) - ObjectSize(o.vecCap);
            && growth >= 0
            && ObjectCounters(env, ScaledOut(env, o, rate, capacity, item)) ==
               Plus(Plus(ObjectCounters(env, o), FilterCounters(env, added)), Counters(0, growth, 0, 1, 0))
  {
    CountersOfPush(env, o.filters, Insert(env, NewFilter(env, rate, capacity, o.filters[0].bloom.seed), item));
  }

  /** Cutting the vector down frees the boxes beyond its sub-filters. */
  lemma CountersOfShrink(env: Env, o: Object)
    ensures ObjectCounters(env, o.(vecCap := |o.filters|)) ==
            Plus(ObjectCounters(env, o), Counters(0, -((o.vecCap - |o.filters|) * BOX_BYTES), 0, 0, 0))
  {
  }

  /** What all objects of a keyspace contribute together. */
  ghost function Total(env: Env, keys: map<string, Object>): Counters {
    if keys == map[] then ZERO else
    var k :| k in keys;
    Plus(ObjectCounters(env, keys[k]), Total(env, keys - {k}))
  }

  lemma PlusExchanges(a: Counters, b: Counters, c: Counters)
    ensures Plus(a, Plus(b, c)) == Plus(b, Plus(a, c))
  {
  }

  /** The contribution of any one key can be singled out. */
  lemma {:induction false} TotalSplit(env: Env, keys: map<string, Object>, key: string)
    requires key in keys
    ensures Total(env, keys) == Plus(ObjectCounters(env, keys[key]), Total(env, keys - {key}))
    decreases |keys|
  {
    hide ObjectCounters;
    var k :| k in keys && Total(env, keys) == Plus(ObjectCounters(env, keys[k]), Total(env, keys - {k}));
    if k != key {
      TotalSplit(env, keys - {k}, key);
      TotalSplit(env, keys - {key}, k);
      var rest := keys - {k} - {key};
      assert rest == keys - {key} - {k};
      assert Total(env, keys - {k}) == Plus(ObjectCounters(env, keys[key]), Total(env, rest));
      assert Total(env, keys - {key}) == Plus(ObjectCounters(env, keys[k]), Total(env, rest));
      PlusExchanges(ObjectCounters(env, keys[k]), ObjectCounters(env, keys[key]), Total(env, rest));
    }
  }

  ghost predicate NonNegative(c: Counters) {
    c.objects >= 0 && c.memory >= 0 && c.filters >= 0 && c.items >= 0 && c.capacity >= 0
  }

  /** The counters of a keyspace in plain numbers: nothing for no key, and what one more object adds to each. */
  lemma TotalAddsUp(env: Env, keys: map<string, Object>, key: string, o: Object)
    requires key !in keys
    ensures Total(env, map[]) == Counters(0, 0, 0, 0, 0)
    ensures var a, b := Total(env, keys), Total(env, keys[key := o]);
            && b.objects == a.objects + 1
            && b.memory == a.memory + OBJECT_BYTES + o.vecCap * BOX_BYTES + BytesIn(env, o.filters)
            && b.filters == a.filters + |o.filters|
            && b.items == a.items + ItemsIn(o.filters)
            && b.capacity == a.capacity + CapacityIn(o.filters)
  {
    TotalSplit(env, keys[key := o], key);
    assert keys[key := o] - {key} == keys;
  }

  /** The counters have followed a change under one key: an update, a creation, a drop, or nothing. */
  ghost predicate Followed(env: Env, c: Counters, before: Option<Object>, c': Counters, after: Option<Object>) {
    match (before, after)
    case (Some(o), Some(o')) => c' == Plus(Minus(c, ObjectCounters(env, o)), ObjectCounters(env, o'))
    case (None, Some(o')) => c' == Plus(c, ObjectCounters(env, o'))
    case (Some(o), None) => c' == Minus(c, ObjectCounters(env, o))
    case (None, None) => c' == c
  }

  /** Counters that have followed a change under one key equal the total again. */
  lemma TotalFollows(env: Env, keys: map<string, Object>, keys': map<string, Object>, key: string, c: Counters, c': Counters)
    requires keys' - {key} == keys - {key} && c == Total(env, keys)
    requires Followed(env, c, Lookup(keys, key), c', Lookup(keys', key))
    ensures c' == Total(env, keys')
  {
    hide ObjectCounters;
    var rest := keys - {key};
    if key in keys { TotalSplit(env, keys, key); } else { assert keys == rest; }
    if key in keys' { TotalSplit(env, keys', key); } else { assert keys' == rest; }
  }

  function Lookup(keys: map<string, Object>, key: string): Option<Object> {
    if key in keys then Some(keys[key]) else None
  }

  // ---------- no counter below zero ----------

  /** No sub-filter counts less than nothing. */
  ghost predicate NoneNegative(fs: seq<Filter>) {
    forall i :: 0 <= i < |fs| ==> fs[i].numItems >= 0 && fs[i].capacity >= 0
  }

  /** The counters include what `o` contributes. */
  ghost predicate Included(env: Env, c: Counters, o: Object) {
    NonNegative(Minus(c, ObjectCounters(env, o)))
  }

  lemma {:induction false} SumsAreNonNegative(env: Env, fs: seq<Filter>)
    requires NoneNegative(fs)
    ensures NonNegative(FiltersCounters(env, fs))
  {
    if fs != [] {
      SumsAreNonNegative(env, fs[..|fs| - 1]);
    }
  }

  /** What the first few sub-filters contribute is no more than what all of them do. */
  lemma {:induction false} PrefixCountsLess(env: Env, fs: seq<Filter>, i: nat)
    requires i <= |fs| && NoneNegative(fs)
    ensures NonNegative(Minus(FiltersCounters(env, fs), FiltersCounters(env, fs[..i])))
  {
    if i == |fs| {
      assert fs[..i] == fs;
    } else {
      var n := |fs| - 1;
      assert fs[..n][..i] == fs[..i] && fs == fs[..n] + [fs[n]];
      PrefixCountsLess(env, fs[..n], i);
      CountersOfPush(env, fs[..n], fs[n]);
    }
  }

  ghost predicate NoneNegativeKeys(keys: map<string, Object>) {
    forall k :: k in keys ==> NoneNegative(keys[k].filters)
  }

  lemma {:induction false} TotalIsNonNegative(env: Env, keys: map<string, Object>)
    requires NoneNegativeKeys(keys)
    ensures NonNegative(Total(env, keys))
    decreases |keys|
  {
    if keys != map[] {
      var k :| k in keys;
      TotalSplit(env, keys, k);
      hide Total;
      SumsAreNonNegative(env, keys[k].filters);
      TotalIsNonNegative(env, keys - {k});
    }
  }

  /** Shrinking the vector of an object that the counters include takes no counter below zero. */
  lemma StillIncluded(env: Env, c: Counters, o: Object)
    requires NoneNegative(o.filters) && Included(env, c, o)
    ensures NonNegative(Minus(c, Counters(0, (o.vecCap - |o.filters|) * BOX_BYTES, 0, 0, 0)))
  {
    SumsAreNonNegative(env, o.filters);
  }

  /** The total includes every object. */
  lemma TotalIncludes(env: Env, keys: map<string, Object>, key: string)
    requires NoneNegativeKeys(keys) && key in keys
    ensures Included(env, Total(env, keys), keys[key])
  {
    TotalSplit(env, keys, key);
    TotalIsNonNegative(env, keys - {key});
    hide Total;
    hide ObjectCounters;
  }
}

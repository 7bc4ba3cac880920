/** Copying, saving and loading objects in place, with the counters that go with it. */
module Storage {
  import opened Platform
  import opened RawBloom
  import opened Vectors
  import opened ScalingObject
  import opened Accounting
  import opened Objects
  import opened Rdb
  import Lifecycle

  /** An RDB stream: saving appends to it, loading consumes it from the front. */
  class Stream {
    var tokens: seq<Token>

    constructor (tokens: seq<Token>)
      ensures this.tokens == tokens
    {
      this.tokens := tokens;
    }

    method Put(t: Token)
      modifies this
      ensures tokens == old(tokens) + [t]
    {
      tokens := tokens + [t];
    }

    /** The next token if it is of the expected kind; otherwise nothing is consumed. */
    method TakeUnsigned() returns (r: Option<U64>)
      modifies this
      ensures if old(tokens) != [] && old(tokens)[0].Unsigned?
              then r == Some(old(tokens)[0].u) && tokens == old(tokens)[1..]
              else r == None && tokens == old(tokens)
    {
      if tokens == [] || !tokens[0].Unsigned? { return None; }
      r := Some(tokens[0].u);
      tokens := tokens[1..];
    }

    method TakeDouble() returns (r: Option<F64>)
      modifies this
      ensures if old(tokens) != [] && old(tokens)[0].Double?
              then r == Some(old(tokens)[0].d) && tokens == old(tokens)[1..]
              else r == None && tokens == old(tokens)
    {
      if tokens == [] || !tokens[0].Double? { return None; }
      r := Some(tokens[0].d);
      tokens := tokens[1..];
    }

    method TakeBuffer() returns (r: Option<string>)
      modifies this
      ensures if old(tokens) != [] && old(tokens)[0].Buffer?
              then r == Some(old(tokens)[0].bytes) && tokens == old(tokens)[1..]
              else r == None && tokens == old(tokens)
    {
      if tokens == [] || !tokens[0].Buffer? { return None; }
      r := Some(tokens[0].bytes);
      tokens := tokens[1..];
    }
  }

  // ---------- saving ----------

  method PutFilter(env: Env, f: BloomFilter, last: bool, rdb: Stream)
    modifies rdb
    ensures rdb.tokens == old(rdb.tokens) + FilterTokens(env, f.View(), last)
  {
    rdb.Put(Unsigned(AsU64(f.capacity)));
    if last {
      rdb.Put(Unsigned(AsU64(f.numItems)));
    }
    rdb.Put(Buffer(env.toBytes(f.bloom)));
  }

  method PutHeader(o: BloomObject, rdb: Stream)
    requires o.Valid()
    modifies rdb
    ensures rdb.tokens == old(rdb.tokens) + HeaderTokens(o.value)
  {
    rdb.Put(Unsigned(AsU64(|o.filters|)));
    rdb.Put(Unsigned(o.expansion));
    rdb.Put(Double(Finite(o.fpRate)));
    rdb.Put(Double(Finite(o.tightening)));
    rdb.Put(Unsigned(if o.seedRandom then 1 else 0));
  }

  lemma Regroup(a: seq<Token>, b: seq<Token>, c: seq<Token>)
    ensures (a + b) + c == a + (b + c)
  {
  }

  /** `bloom_rdb_save`. */
  method SaveToRdb(env: Env, o: BloomObject, rdb: Stream)
    requires o.Valid()
    modifies rdb
    ensures rdb.tokens == old(rdb.tokens) + SaveTokens(env, o.value)
  {
    ghost var fs := o.value.filters;
    ghost var all := old(rdb.tokens) + SaveTokens(env, o.value);
    PutHeader(o, rdb);
    Regroup(old(rdb.tokens), HeaderTokens(o.value), TokensFrom(env, fs, 0));
    hide HeaderTokens;
    hide FilterTokens;
    for i := 0 to |o.filters|
      invariant o.Valid() && o.value.filters == fs
      invariant rdb.tokens + TokensFrom(env, fs, i) == all
    {
      Regroup(rdb.tokens, FilterTokens(env, fs[i], i == |fs| - 1), TokensFrom(env, fs, i + 1));
      PutFilter(env, o.filters[i], i == |o.filters| - 1, rdb);
    }
    assert rdb.tokens + [] == rdb.tokens;
  }

  // ---------- loading ----------

  method ReadHeader(rdb: Stream) returns (h: Option<Header>)
    modifies rdb
    ensures h == LoadHeader(old(rdb.tokens))
    ensures h.Some? ==> rdb.tokens == old(rdb.tokens)[5..]
  {
    ghost var ts := rdb.tokens;
    var numFilters := rdb.TakeUnsigned();
    if numFilters == None { return None; }
    var expansion := rdb.TakeUnsigned();
    if expansion == None { return None; }
    var fpRate := rdb.TakeDouble();
    if fpRate == None || !fpRate.value.InUnitInterval() { return None; }
    var tightening := rdb.TakeDouble();
    if tightening == None || !tightening.value.InUnitInterval() { return None; }
    var seedRandom := rdb.TakeUnsigned();
    if seedRandom == None || numFilters.value == 0 { return None; }
    return Some(Header(numFilters.value, AsU32(expansion.value), fpRate.value.r, tightening.value.r, seedRandom.value == 1));
  }

  /** The reads and checks of one pass of the loading loop. */
  method ReadFilter(env: Env, limit: nat, h: Header, i: nat, vecCap: nat, bytes: nat, rdb: Stream) returns (r: FilterRead)
    modifies rdb
    ensures r == LoadFilter(env, limit, h, old(rdb.tokens), i, vecCap, bytes)
    ensures r.Read? ==> rdb.tokens == r.rest
  {
    hide CalculateFpRate;
    hide FixedSeed;
    var capacity := rdb.TakeUnsigned();
    if capacity == None || capacity.value == 0 { return BadFilter; }
    var newFpRate;
    match CalculateFpRate(env, h.fpRate, AsI32(i), h.tightening) {
      case Ok(rate) => newFpRate := rate;
      case Err(_) => return BadFilter;
    }
    var size := FilterSize(env, capacity.value, newFpRate);
    if ObjectSize(vecCap) + bytes + size > limit { return BadFilter; }
    var numItems := capacity.value;
    if i == h.numFilters - 1 {
      var stored := rdb.TakeUnsigned();
      if stored == None { return BadFilter; }
      numItems := stored.value;
    }
    if numItems > capacity.value { return BadFilter; }
    var bitmap := rdb.TakeBuffer();
    if bitmap == None { return BadFilter; }
    match env.fromBytes(bitmap.value) {
      case None => return BadBitmap;
      case Some(bloom) =>
        var f := Filter(bloom, AsI64(numItems), AsI64(capacity.value));
        if !h.seedRandom && bloom.seed != FixedSeed() { return BadSeed(f); }
        return Read(f, size, rdb.tokens);
    }
  }

  /** Loading failed, panicked on a bitmap, or made an object. */
  datatype LoadOutcome = NotLoaded | Aborted | Restored(o: BloomObject)

  /**
   `load_from_rdb`. Sub-filters are counted as they are made; if a later one is refused, those made so
   far are dropped again, so a load that gives up leaves the counters as they were. As long as the stream
   holds no number beyond the signed range, no counter goes below zero on the way.
   */
  method LoadObject(env: Env, limit: nat, encver: int, rdb: Stream, m: Metrics) returns (r: LoadOutcome)
    modifies rdb, m, m.alarm
    ensures var spec := LoadFromRdb(env, limit, encver, old(rdb.tokens));
            && (spec.Rejected? <==> r.NotLoaded?) && (spec.Panicked? <==> r.Aborted?)
            && (r.NotLoaded? ==> m.View() == old(m.View()))
            && (r.Restored? ==> && fresh(r.o) && fresh(r.o.filters) && r.o.Valid() && r.o.value == spec.loaded
                                && m.View() == Plus(old(m.View()), ObjectCounters(env, spec.loaded)))
    ensures NonNegative(old(m.View())) && SignedTokens(old(rdb.tokens)) ==>
              m.alarm.wentBelowZero == old(m.alarm.wentBelowZero)
  {
    if encver > ENCODING_VERSION { return NotLoaded; }
    var header := ReadHeader(rdb);
    if header == None { return NotLoaded; }
    hide LoadFilters;
    hide ObjectCounters;
    r := LoadFilterObjects(env, limit, header.value, rdb, m);
  }

  /** The loading loop, and the object made of what it read. */
  method LoadFilterObjects(env: Env, limit: nat, h: Header, rdb: Stream, m: Metrics) returns (r: LoadOutcome)
    modifies rdb, m, m.alarm
    ensures var spec := LoadFilters(env, limit, h, old(rdb.tokens), [], 1, 0);
            && (spec.Rejected? <==> r.NotLoaded?) && (spec.Panicked? <==> r.Aborted?)
            && (r.NotLoaded? ==> m.View() == old(m.View()))
            && (r.Restored? ==> && fresh(r.o) && fresh(r.o.filters) && r.o.Valid() && r.o.value == spec.loaded
                                && m.View() == Plus(old(m.View()), ObjectCounters(env, spec.loaded)))
    ensures NonNegative(old(m.View())) && SignedTokens(old(rdb.tokens)) ==>
              m.alarm.wentBelowZero == old(m.alarm.wentBelowZero)
  {
    hide FiltersCounters;
    hide ObjectCounters;
    hide LoadFilters;
    var status, filters, vecCap, vs := LoadLoop(env, limit, h, rdb, m);
    if status.GaveUp? { return NotLoaded; }
    if status.Panic? { return Aborted; }
    var o := RestoreObject(env, h.expansion, h.fpRate, h.tightening, h.seedRandom, filters, vecCap, vs, m);
    return Restored(o);
  }

  /** A stream of signed numbers gives sub-filters that count nothing negative. */
  lemma SignedFilter(env: Env, limit: nat, h: Header, ts: seq<Token>, i: nat, vecCap: nat, bytes: nat)
    requires SignedTokens(ts)
    ensures var r := LoadFilter(env, limit, h, ts, i, vecCap, bytes);
            && (r.Read? ==> r.filter.numItems >= 0 && r.filter.capacity >= 0 && SignedTokens(r.rest))
            && (r.BadSeed? ==> r.refused.numItems >= 0 && r.refused.capacity >= 0)
  {
    hide CalculateFpRate;
    hide FixedSeed;
  }

  lemma NothingHeld()
    ensures Hold([], []) && Distinct([])
  {
  }

  datatype LoadStatus = Complete | GaveUp | Panic

  /**
   The loading loop after some passes: `fs` are the sub-filters made so far, with the values `vs`; what is
   left of the stream leads to `spec`; and the counters have moved from `base` by what was made.
   */
  ghost predicate Underway(env: Env, limit: nat, h: Header, ts: seq<Token>, fs: seq<BloomFilter>, vs: seq<Filter>,
                           vecCap: nat, bytes: nat, spec: LoadResult, base: Counters, now: Counters)
    reads fs
  {
    && Hold(fs, vs) && Distinct(fs) && |vs| == |fs| <= vecCap && |vs| <= h.numFilters
    && LoadFilters(env, limit, h, ts, vs, vecCap, bytes) == spec
    && now == Plus(base, FiltersCounters(env, vs))
  }

  /** A sub-filter that has just been made and counted is dropped for its seed, and then those before it are. */
  method RefuseFilter(env: Env, fs: seq<BloomFilter>, ghost vs: seq<Filter>, f: Filter, m: Metrics)
    requires Hold(fs, vs) && Distinct(fs)
    modifies m, m.alarm
    ensures m.View() == Minus(old(m.View()), FiltersCounters(env, vs))
    ensures NoneNegative(vs + [f]) && NonNegative(Minus(old(m.View()), FiltersCounters(env, vs))) ==>
              m.alarm.wentBelowZero == old(m.alarm.wentBelowZero)
  {
    CountersOfPush(env, vs, f);
    if NoneNegative(vs + [f]) {
      assert forall i :: 0 <= i < |vs| ==> vs[i] == (vs + [f])[i];
      SumsAreNonNegative(env, vs);
    }
    hide FiltersCounters;
    hide FilterCounters;
    var all := RestoreFilter(env, fs, vs, f.bloom, f.numItems, f.capacity, m);
    m.FilterDropped(env, all[|fs|].View());
    DropFilters(env, fs, vs, m);
  }

  /** One pass of the loading loop: one more sub-filter, or none at all any more. */
  method LoadNext(env: Env, limit: nat, h: Header, vecCap: nat, bytes: nat, fs: seq<BloomFilter>, ghost vs: seq<Filter>,
                  rdb: Stream, ghost spec: LoadResult, ghost base: Counters, m: Metrics)
    returns (status: LoadStatus, all: seq<BloomFilter>, size: nat, ghost vs': seq<Filter>)
    requires Underway(env, limit, h, rdb.tokens, fs, vs, vecCap, bytes, spec, base, m.View()) && |fs| < h.numFilters
    modifies rdb, m, m.alarm
    ensures NonNegative(base) && NoneNegative(vs) && SignedTokens(old(rdb.tokens)) ==>
              m.alarm.wentBelowZero == old(m.alarm.wentBelowZero)
    ensures SignedTokens(old(rdb.tokens)) && NoneNegative(vs) && status.Complete? ==>
              SignedTokens(rdb.tokens) && NoneNegative(vs')
    ensures match status
            case GaveUp => spec == Rejected && m.View() == base
            case Panic => spec == Panicked
            case Complete =>
              && |all| == |fs| + 1 && all == fs + [all[|fs|]] && fresh(all[|fs|])
              && Underway(env, limit, h, rdb.tokens, all, vs', GrowVec(vecCap, |fs|), bytes + size, spec, base, m.View())
  {
    hide FiltersCounters;
    hide LoadFilter;
    hide Distinct;
    LoadFiltersStep(env, limit, h, rdb.tokens, vs, vecCap, bytes);
    if SignedTokens(rdb.tokens) { SignedFilter(env, limit, h, rdb.tokens, |fs|, vecCap, bytes); }
    hide LoadFilters;
    hide SignedTokens;
    var read := ReadFilter(env, limit, h, |fs|, vecCap, bytes, rdb);
    status, all, size, vs' := Complete, fs, 0, vs;
    match read {
      case BadFilter =>
        DropFilters(env, fs, vs, m);
        status := GaveUp;
      case BadBitmap =>
        status := Panic;
      case BadSeed(f) =>
        RefuseFilter(env, fs, vs, f, m);
        status := GaveUp;
      case Read(f, s, rest) =>
        size, vs' := s, vs + [f];
        all := RestoreFilter(env, fs, vs, f.bloom, f.numItems, f.capacity, m);
    }
  }

  lemma NothingLoaded(env: Env, limit: nat, h: Header, ts: seq<Token>, base: Counters)
    ensures Underway(env, limit, h, ts, [], [], 1, 0, LoadFilters(env, limit, h, ts, [], 1, 0), base, base)
    ensures NoneNegative([])
  {
    CountersOfNone(env);
    PlusZero(base);
    NothingHeld();
  }

  /** When as many sub-filters are made as were announced, the object is there. */
  lemma AllLoaded(env: Env, limit: nat, h: Header, ts: seq<Token>, fs: seq<BloomFilter>, vs: seq<Filter>, vecCap: nat,
                  bytes: nat, spec: LoadResult, base: Counters, now: Counters)
    requires Underway(env, limit, h, ts, fs, vs, vecCap, bytes, spec, base, now) && |fs| == h.numFilters
    ensures spec == Loaded(Object(h.expansion, h.fpRate, h.tightening, h.seedRandom, vs, vecCap))
    ensures Hold(fs, vs) && Distinct(fs) && |fs| <= vecCap && now == Plus(base, FiltersCounters(env, vs))
  {
    LoadFiltersEnd(env, limit, h, ts, vs, vecCap, bytes);
    hide LoadFilters;
    hide FiltersCounters;
  }

  method LoadLoop(env: Env, limit: nat, h: Header, rdb: Stream, m: Metrics)
    returns (status: LoadStatus, filters: seq<BloomFilter>, vecCap: nat, ghost vs: seq<Filter>)
    modifies rdb, m, m.alarm
    ensures NonNegative(old(m.View())) && SignedTokens(old(rdb.tokens)) ==>
              m.alarm.wentBelowZero == old(m.alarm.wentBelowZero)
    ensures LoadFilters(env, limit, h, old(rdb.tokens), [], 1, 0) ==
            (if status.GaveUp? then Rejected
             else if status.Panic? then Panicked
             else Loaded(Object(h.expansion, h.fpRate, h.tightening, h.seedRandom, vs, vecCap)))
    ensures status.GaveUp? ==> m.View() == old(m.View())
    ensures status.Complete? ==>
              && m.View() == Plus(old(m.View()), FiltersCounters(env, vs))
              && Hold(filters, vs) && Distinct(filters) && |filters| <= vecCap && fresh(filters)
  {
    ghost var spec := LoadFilters(env, limit, h, rdb.tokens, [], 1, 0);
    NothingLoaded(env, limit, h, rdb.tokens, m.View());
    hide FiltersCounters;
    hide LoadFilters;
    hide Underway;
    hide Hold;
    hide Distinct;
    hide Plus;
    hide GrowVec;
    hide SignedTokens;
    ghost var signed := NonNegative(m.View()) && SignedTokens(rdb.tokens);
    hide NonNegative;
    hide NoneNegative;
    status, filters, vecCap, vs := Complete, [], 1, [];
    var bytes: nat := 0;
    while |filters| < h.numFilters
      invariant status == Complete && |filters| <= h.numFilters && fresh(filters)
      invariant Underway(env, limit, h, rdb.tokens, filters, vs, vecCap, bytes, spec, old(m.View()), m.View())
      invariant signed ==> && SignedTokens(rdb.tokens) && NoneNegative(vs)
                           && m.alarm.wentBelowZero == old(m.alarm.wentBelowZero)
      decreases h.numFilters - |filters|
    {
      var size;
      status, filters, size, vs := LoadNext(env, limit, h, vecCap, bytes, filters, vs, rdb, spec, old(m.View()), m);
      if status != Complete { return; }
      vecCap, bytes := GrowVec(vecCap, |filters| - 1), bytes + size;
    }
    AllLoaded(env, limit, h, rdb.tokens, filters, vs, vecCap, bytes, spec, old(m.View()), m.View());
  }

  lemma LoadFiltersStep(env: Env, limit: nat, h: Header, ts: seq<Token>, fs: seq<Filter>, vecCap: nat, bytes: nat)
    requires |fs| < h.numFilters
    ensures var r := LoadFilter(env, limit, h, ts, |fs|, vecCap, bytes);
            LoadFilters(env, limit, h, ts, fs, vecCap, bytes) ==
            if r.BadFilter? || r.BadSeed? then Rejected
            else if r.BadBitmap? then Panicked
            else LoadFilters(env, limit, h, r.rest, fs + [r.filter], GrowVec(vecCap, |fs|), bytes + r.size)
  {
    hide LoadFilter;
  }

  lemma LoadFiltersEnd(env: Env, limit: nat, h: Header, ts: seq<Token>, fs: seq<Filter>, vecCap: nat, bytes: nat)
    requires |fs| == h.numFilters
    ensures LoadFilters(env, limit, h, ts, fs, vecCap, bytes) ==
            Loaded(Object(h.expansion, h.fpRate, h.tightening, h.seedRandom, fs, vecCap))
  {
  }

  // ---------- copying ----------

  lemma {:induction false} FailedPrefixFails(env: Env, fs: seq<Filter>, k: nat)
    requires k <= |fs| && Lifecycle.CopyFilters(env, fs[..k]) == None
    ensures Lifecycle.CopyFilters(env, fs) == None
  {
    if k == |fs| {
      assert fs[..k] == fs;
    } else {
      assert fs[..|fs| - 1][..k] == fs[..k];
      FailedPrefixFails(env, fs[..|fs| - 1], k);
    }
  }

  /** The copying loop after `i` passes: `fs` are the copies so far, with the values `vs`, and are counted. */
  ghost predicate Copied(env: Env, source: seq<Filter>, i: nat, fs: seq<BloomFilter>, vs: seq<Filter>, base: Counters,
                         now: Counters)
    requires i <= |source|
    reads fs
  {
    && |fs| == i && Hold(fs, vs) && Distinct(fs)
    && Lifecycle.CopyFilters(env, source[..i]) == Some(vs)
    && now == Plus(base, FiltersCounters(env, vs))
  }

  lemma NothingCopied(env: Env, source: seq<Filter>, base: Counters)
    ensures Copied(env, source, 0, [], [], base, base)
  {
    assert source[..0] == [];
    CountersOfNone(env);
    PlusZero(base);
    NothingHeld();
  }

  lemma CopyStep(env: Env, fs: seq<Filter>, i: nat)
    requires i < |fs| && Lifecycle.CopyFilters(env, fs[..i]).Some?
    ensures var before, bloom := Lifecycle.CopyFilters(env, fs[..i]).value, env.fromBytes(env.toBytes(fs[i].bloom));
            Lifecycle.CopyFilters(env, fs[..i + 1]) ==
            if bloom.Some? then Some(before + [fs[i].(bloom := bloom.value)]) else None
  {
    assert fs[..i + 1][..i] == fs[..i];
  }

  /** `BloomFilter::create_copy_from` for sub-filter `i`, and its place after those copied so far. */
  method CopyNext(env: Env, ghost source: seq<Filter>, i: nat, f: BloomFilter, fs: seq<BloomFilter>, ghost vs: seq<Filter>,
                  ghost base: Counters, m: Metrics)
    returns (all: Option<seq<BloomFilter>>, ghost vs': seq<Filter>)
    requires i < |source| && f.View() == source[i] && Copied(env, source, i, fs, vs, base, m.View())
    modifies m
    ensures match all
            case None => Lifecycle.CopyFilters(env, source) == None
            case Some(copies) =>
              && |copies| == |fs| + 1 && copies == fs + [copies[|fs|]] && fresh(copies[|fs|])
              && Copied(env, source, i + 1, copies, vs', base, m.View())
  {
    hide FiltersCounters;
    CopyStep(env, source, i);
    vs' := vs;
    match env.fromBytes(env.toBytes(f.bloom)) {
      case None =>
        FailedPrefixFails(env, source, i + 1);
        all := None;
      case Some(bloom) =>
        hide Lifecycle.CopyFilters;
        vs' := vs + [source[i].(bloom := bloom)];
        var copies := RestoreFilter(env, fs, vs, bloom, f.numItems, f.capacity, m);
        all := Some(copies);
    }
  }

  /** The loop over the sub-filters; nothing if the bytes of some bloom were not read back. */
  method CopyLoop(env: Env, from: BloomObject, m: Metrics) returns (copies: Option<seq<BloomFilter>>, ghost vs: seq<Filter>)
    requires from.Valid()
    modifies m
    ensures match copies
            case None => Lifecycle.CopyFilters(env, from.value.filters) == None
            case Some(fs) =>
              && fresh(fs)
              && Copied(env, from.value.filters, |from.value.filters|, fs, vs, old(m.View()), m.View())
  {
    ghost var source := from.value.filters;
    NothingCopied(env, source, m.View());
    hide Lifecycle.CopyFilters;
    hide Copied;
    var fs: seq<BloomFilter> := [];
    vs := [];
    for i := 0 to |from.filters|
      invariant |fs| == i && fresh(fs) && |from.filters| == |source|
      invariant Copied(env, source, i, fs, vs, old(m.View()), m.View())
    {
      var all;
      all, vs := CopyNext(env, source, i, from.filters[i], fs, vs, old(m.View()), m);
      if all == None { return None, vs; }
      fs := all.value;
    }
    copies := Some(fs);
  }

  /** `create_copy_from`; no object means that the bytes of some bloom were not read back. */
  method CopyObject(env: Env, from: BloomObject, m: Metrics) returns (r: Option<BloomObject>)
    requires from.Valid()
    modifies m
    ensures r == None <==> Lifecycle.CopyObject(env, from.value) == None
    ensures r.Some? ==> && fresh(r.value) && fresh(r.value.filters) && r.value.Valid()
                        && Some(r.value.value) == Lifecycle.CopyObject(env, from.value)
                        && m.View() == Plus(old(m.View()), ObjectCounters(env, r.value.value))
  {
    hide ObjectCounters;
    hide FiltersCounters;
    hide Lifecycle.CopyFilters;
    var copies, vs := CopyLoop(env, from, m);
    if copies == None { return None; }
    assert from.value.filters[..|from.value.filters|] == from.value.filters;
    assert |vs| == |from.filters| <= from.vecCap;
    var o := RestoreObject(env, from.expansion, from.fpRate, from.tightening, from.seedRandom, copies.value, from.vecCap, vs, m);
    return Some(o);
  }
}

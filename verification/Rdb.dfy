/**
 Saving an object to an RDB stream and loading it back. The saved form leaves out the number of items
 of every sub-filter but the last, and loading repeats the size checks that growth made.
 */
module Rdb {
  import opened Platform
  import opened RawBloom
  import opened Vectors
  import opened ScalingObject

  const ENCODING_VERSION: int := 1

  datatype Token = Unsigned(u: U64) | Double(d: F64) | Buffer(bytes: string)

  // ---------- saving ----------

  function FilterTokens(env: Env, f: Filter, last: bool): seq<Token> {
    [Unsigned(AsU64(f.capacity))]
    + (if last then [Unsigned(AsU64(f.numItems))] else [])
    + [Buffer(env.toBytes(f.bloom))]
  }

  /** The tokens of the sub-filters from index `i` on. */
  function TokensFrom(env: Env, fs: seq<Filter>, i: nat): seq<Token>
    requires i <= |fs|
    decreases |fs| - i
  {
    if i == |fs| then [] else FilterTokens(env, fs[i], i == |fs| - 1) + TokensFrom(env, fs, i + 1)
  }

  function HeaderTokens(o: Object): seq<Token> {
    [Unsigned(AsU64(|o.filters|)), Unsigned(o.expansion), Double(Finite(o.fpRate)), Double(Finite(o.tightening)),
     Unsigned(if o.seedRandom then 1 else 0)]
  }

  /** `bloom_rdb_save`. */
  function SaveTokens(env: Env, o: Object): seq<Token> {
    HeaderTokens(o) + TokensFrom(env, o.filters, 0)
  }

  // ---------- loading ----------

  /** A load gives up, panics on bytes that are no bloom, or yields an object. */
  datatype LoadResult = Rejected | Panicked | Loaded(loaded: Object)

  datatype Header = Header(numFilters: U64, expansion: U32, fpRate: Rate, tightening: Rate, seedRandom: bool)

  function LoadHeader(ts: seq<Token>): Option<Header> {
    if |ts| < 5 || !ts[0].Unsigned? || !ts[1].Unsigned? || !ts[2].Double? || !ts[3].Double? || !ts[4].Unsigned?
    then None
    else if !ts[2].d.InUnitInterval() || !ts[3].d.InUnitInterval() || ts[0].u == 0 then None
    else Some(Header(ts[0].u, AsU32(ts[1].u), ts[2].d.r, ts[3].d.r, ts[4].u == 1))
  }

  /** A sub-filter that is refused for its seed has been made, and counted, before it is. */
  datatype FilterRead =
    | BadFilter
    | BadBitmap
    | BadSeed(refused: Filter)
    | Read(filter: Filter, size: nat, rest: seq<Token>)

  /** One pass of the loading loop: sub-filter `i`, given the vector capacity and the bytes so far. */
  function LoadFilter(env: Env, limit: nat, h: Header, ts: seq<Token>, i: nat, vecCap: nat, bytes: nat): FilterRead {
    if ts == [] || !ts[0].Unsigned? || ts[0].u == 0 then BadFilter else
    var capacity := ts[0].u;
    match CalculateFpRate(env, h.fpRate, AsI32(i), h.tightening)
    case Err(_) => BadFilter
    case Ok(rate) =>
      var size := FilterSize(env, capacity, rate);
      if ObjectSize(vecCap) + bytes + size > limit then BadFilter else
      var last := i == h.numFilters - 1;
      if last && (|ts| < 2 || !ts[1].Unsigned?) then BadFilter else
      var numItems := if last then ts[1].u else capacity;
      var rest := ts[if last then 2 else 1..];
      if numItems > capacity || rest == [] || !rest[0].Buffer? then BadFilter else
      match env.fromBytes(rest[0].bytes)
      case None => BadBitmap
      case Some(bloom) =>
        var f := Filter(bloom, AsI64(numItems), AsI64(capacity));
        if !h.seedRandom && bloom.seed != FixedSeed() then BadSeed(f) else Read(f, size, rest[1..])
  }

  function LoadFilters(env: Env, limit: nat, h: Header, ts: seq<Token>, fs: seq<Filter>, vecCap: nat,
                       bytes: nat): LoadResult
    requires |fs| <= h.numFilters
    decreases h.numFilters - |fs|
  {
    if |fs| == h.numFilters then
      Loaded(Object(h.expansion, h.fpRate, h.tightening, h.seedRandom, fs, vecCap))
    else
      match LoadFilter(env, limit, h, ts, |fs|, vecCap, bytes)
      case BadFilter => Rejected
      case BadSeed(_) => Rejected
      case BadBitmap => Panicked
      case Read(f, size, rest) =>
        LoadFilters(env, limit, h, rest, fs + [f], GrowVec(vecCap, |fs|), bytes + size)
  }

  /** `load_from_rdb`. */
  function LoadFromRdb(env: Env, limit: nat, encver: int, ts: seq<Token>): LoadResult {
    if encver > ENCODING_VERSION then Rejected else
    match LoadHeader(ts)
    case None => Rejected
    case Some(h) => LoadFilters(env, limit, h, ts[5..], [], 1, 0)
  }

  // ---------- the round trip ----------

  /** What loading checks that saving did not: the first rate, the seed and the size of every prefix. */
  ghost predicate Reloadable(env: Env, limit: nat, o: Object)
    requires Grown(env, o)
  {
    && o.fpRate > MIN_POSITIVE
    && (o.seedRandom || o.filters[0].bloom.seed == FixedSeed())
    && SizeChecked(env, limit, o)
  }

  function HeaderOf(o: Object): Header
    requires 1 <= |o.filters| < 0x1_0000_0000_0000_0000
  {
    Header(|o.filters|, o.expansion, o.fpRate, o.tightening, o.seedRandom)
  }

  ghost predicate AcceptedAt(env: Env, limit: nat, o: Object, i: nat)
    requires Grown(env, o) && i < |o.filters|
  {
    var p := PlanOf(env, o);
    p.RateAt(i) > MIN_POSITIVE && CheckedAt(p, limit, i) && (o.seedRandom || o.filters[0].bloom.seed == FixedSeed())
  }

  /** The saved tokens of a sub-filter, read from the front: its numbers fit, its bitmap reads back. */
  lemma SavedFilterTokens(env: Env, o: Object, i: nat)
    requires Grown(env, o) && FaithfulBytes(env) && i < |o.filters|
    ensures var ts, f, last := TokensFrom(env, o.filters, i), o.filters[i], i == |o.filters| - 1;
            && 1 <= f.capacity <= I64_MAX && f.numItems <= f.capacity && f.bloom.seed == o.filters[0].bloom.seed
            && |ts| >= (if last then 3 else 2) && ts[0] == Unsigned(f.capacity)
            && (last ==> f.numItems >= 0 && ts[1] == Unsigned(f.numItems)) && (!last ==> f.numItems == f.capacity)
            && var rest := ts[if last then 2 else 1..];
            && rest[0].Buffer? && env.fromBytes(rest[0].bytes) == Some(f.bloom)
            && rest[1..] == TokensFrom(env, o.filters, i + 1)
  {
    hide CapacityAt;
    assert FilterFollowsPlan(env, o, i) && FilterOccupancy(o, i);
    var ts, f := TokensFrom(env, o.filters, i), o.filters[i];
    var last := i == |o.filters| - 1;
    assert ts == FilterTokens(env, f, last) + TokensFrom(env, o.filters, i + 1);
    assert env.fromBytes(env.toBytes(f.bloom)) == Some(f.bloom);
  }

  /** Reading back sub-filter `i` gives it as it was, number of items included, if loading accepts it. */
  lemma LoadSavedFilter(env: Env, limit: nat, o: Object, i: nat)
    requires Grown(env, o) && FaithfulBytes(env) && i < |o.filters|
    ensures var r := LoadFilter(env, limit, HeaderOf(o), TokensFrom(env, o.filters, i), i, VecCapFor(i), PlanOf(env, o).Bytes(i));
            if AcceptedAt(env, limit, o, i)
            then r == Read(o.filters[i], PlanOf(env, o).SizeAt(i), TokensFrom(env, o.filters, i + 1))
            else r.BadFilter? || r.BadSeed?
  {
    hide CapacityAt;
    hide VecCapFor;
    hide FixedSeed;
    SavedFilterTokens(env, o, i);
    assert o.filters[i].capacity == PlanOf(env, o).CapAt(i) by { assert FilterFollowsPlan(env, o, i); }
    assert PlanOf(env, o).Bytes(i + 1) == PlanOf(env, o).Bytes(i) + PlanOf(env, o).SizeAt(i);
    hide TokensFrom;
    hide Grown;
  }

  lemma {:induction false} LoadSavedFilters(env: Env, limit: nat, o: Object, i: nat)
    requires Grown(env, o) && FaithfulBytes(env) && i <= |o.filters|
    requires forall k :: 0 <= k < i ==> AcceptedAt(env, limit, o, k)
    ensures LoadFilters(env, limit, HeaderOf(o), TokensFrom(env, o.filters, i), o.filters[..i], VecCapFor(i),
                        PlanOf(env, o).Bytes(i)) ==
            if forall k :: 0 <= k < |o.filters| ==> AcceptedAt(env, limit, o, k)
            then Loaded(o.(vecCap := VecCapFor(|o.filters|)))
            else Rejected
    decreases |o.filters| - i
  {
    hide CapacityAt;
    hide LoadFilter;
    hide VecCapFor;
    hide GrowVec;
    hide Grown;
    hide AcceptedAt;
    hide TokensFrom;
    if i == |o.filters| {
      assert o.filters[..i] == o.filters;
    } else {
      LoadSavedFilter(env, limit, o, i);
      if AcceptedAt(env, limit, o, i) {
        assert o.filters[..i] + [o.filters[i]] == o.filters[..i + 1];
        PushAtLoad(i);
        assert PlanOf(env, o).Bytes(i + 1) == PlanOf(env, o).Bytes(i) + PlanOf(env, o).SizeAt(i);
        LoadSavedFilters(env, limit, o, i + 1);
      }
    }
  }

  /** Loading starts from a vector of capacity 1, as creation does. */
  lemma PushAtLoad(n: nat)
    ensures GrowVec(VecCapFor(n), n) == VecCapFor(n + 1)
  {
    if n > 0 {
      PushFollowsFormula(n);
    }
  }

  /**
   The round trip of any grown object, exactly: loading what was saved gives the object back, with
   its vector as pushing would have left it, if and only if its first rate is above the smallest
   double, its seed is random or the fixed one, and every scale-out respected the limit.
   */
  lemma RoundTrip(env: Env, limit: nat, o: Object)
    requires Grown(env, o) && FaithfulBytes(env)
    ensures LoadFromRdb(env, limit, ENCODING_VERSION, SaveTokens(env, o)) ==
            if Reloadable(env, limit, o) then Loaded(o.(vecCap := VecCapFor(|o.filters|))) else Rejected
  {
    hide CapacityAt;
    hide LoadFilters;
    var ts := SaveTokens(env, o);
    assert LoadHeader(ts) == Some(HeaderOf(o));
    assert ts[5..] == TokensFrom(env, o.filters, 0);
    assert o.filters[..0] == [] && PlanOf(env, o).Bytes(0) == 0 && VecCapFor(0) == 1;
    LoadSavedFilters(env, limit, o, 0);
    ReloadableMeansAccepted(env, limit, o);
  }

  lemma ReloadableMeansAccepted(env: Env, limit: nat, o: Object)
    requires Grown(env, o)
    ensures Reloadable(env, limit, o) <==> forall i :: 0 <= i < |o.filters| ==> AcceptedAt(env, limit, o, i)
  {
    hide CapacityAt;
    forall i | 0 <= i < |o.filters|
      ensures Reloadable(env, limit, o) ==> AcceptedAt(env, limit, o, i)
      ensures AcceptedAt(env, limit, o, i) ==> CheckedAt(PlanOf(env, o), limit, i)
    {
      assert FilterFollowsPlan(env, o, i);
    }
    if forall i :: 0 <= i < |o.filters| ==> AcceptedAt(env, limit, o, i) {
      assert AcceptedAt(env, limit, o, 0);
    }
  }

  /** Every object that creation and validated adds produce under one limit survives saving and loading unchanged. */
  lemma RoundTripOfEveryRun(env: Env, limit: nat, p: Plan, seed: Seed, seedRandom: bool, o: Object, ops: seq<AddOp>)
    requires p.env == env && p.start <= I64_MAX && FaithfulBytes(env)
    requires NewReserved(env, limit, p.fpRate, p.tightening, p.start, p.expansion, seed, seedRandom, true) == Ok(o)
    requires forall op :: op in ops ==> op.validate && op.limit == limit
    requires seedRandom || seed == FixedSeed()
    ensures var o' := Run(env, o, ops);
            LoadFromRdb(env, limit, ENCODING_VERSION, SaveTokens(env, o')) ==
            if p.fpRate > MIN_POSITIVE then Loaded(o') else Rejected
  {
    hide CapacityAt;
    hide Grown;
    CreationIsGrown(env, limit, p.fpRate, p.tightening, p.start, p.expansion, seed, seedRandom, true);
    RunKeepsGrown(env, o, ops);
    RunKeepsSizeChecked(env, limit, o, ops);
    RoundTrip(env, limit, Run(env, o, ops));
  }

  // ---------- any stream ----------

  /** The bytes that loading accounts for in sub-filters `fs`, whatever their bitmaps. */
  function AccountedBytes(env: Env, h: Header, fs: seq<Filter>): nat {
    if fs == [] then 0 else
    var n := |fs| - 1;
    AccountedBytes(env, h, fs[..n])
    + FilterSize(env, AsU64(fs[n].capacity), RawRate(env, h.fpRate, AsI32(n), h.tightening))
  }

  /** No number in the stream is read back as negative. */
  ghost predicate SignedTokens(ts: seq<Token>) {
    forall i :: 0 <= i < |ts| && ts[i].Unsigned? ==> ts[i].u <= I64_MAX
  }

  /**
   What loading establishes for sub-filter `i`: in the unsigned numbers of the stream whatever these
   are, and in signed ones when the stream holds nothing beyond their range.
   */
  ghost predicate SoundFilter(env: Env, limit: nat, h: Header, fs: seq<Filter>, i: nat, signed: bool)
    requires i < |fs|
  {
    var f := fs[i];
    && 1 <= AsU64(f.capacity) && AsU64(f.numItems) <= AsU64(f.capacity)
    && (signed ==> 1 <= f.capacity <= I64_MAX && 0 <= f.numItems <= f.capacity)
    && (i < h.numFilters - 1 ==> f.numItems == f.capacity)
    && (h.seedRandom || f.bloom.seed == FixedSeed())
    && RawRate(env, h.fpRate, AsI32(i), h.tightening) > MIN_POSITIVE
    && ObjectSize(VecCapFor(i)) + AccountedBytes(env, h, fs[..i + 1]) <= limit
  }

  ghost predicate SoundFilters(env: Env, limit: nat, h: Header, fs: seq<Filter>, signed: bool) {
    forall i :: 0 <= i < |fs| ==> SoundFilter(env, limit, h, fs, i, signed)
  }

  /** Reading a 64-bit number as signed and back loses nothing. */
  lemma SignedAndBack(u: U64)
    ensures AsU64(AsI64(u)) == u
  {
  }

  /** One more sub-filter takes nothing from those before. */
  lemma EarlierStaysSound(env: Env, limit: nat, h: Header, fs: seq<Filter>, f: Filter, i: nat, signed: bool)
    requires i < |fs| && SoundFilter(env, limit, h, fs, i, signed)
    ensures SoundFilter(env, limit, h, fs + [f], i, signed)
  {
    hide VecCapFor;
    hide AsI64;
    hide AsU64;
    hide AsI32;
    hide FixedSeed;
    hide AccountedBytes;
    hide RawRate;
    assert (fs + [f])[..i + 1] == fs[..i + 1];
  }

  /** The sub-filter read last is sound, and accounted for. */
  lemma LatestIsSound(env: Env, limit: nat, h: Header, ts: seq<Token>, fs: seq<Filter>, signed: bool)
    requires |fs| < h.numFilters && (signed ==> SignedTokens(ts))
    ensures var r := LoadFilter(env, limit, h, ts, |fs|, VecCapFor(|fs|), AccountedBytes(env, h, fs));
            r.Read? ==> && SoundFilter(env, limit, h, fs + [r.filter], |fs|, signed)
                        && r.size + AccountedBytes(env, h, fs) == AccountedBytes(env, h, fs + [r.filter])
  {
    hide VecCapFor;
    hide AsI64;
    hide AsU64;
    hide AsI32;
    hide FixedSeed;
    var r := LoadFilter(env, limit, h, ts, |fs|, VecCapFor(|fs|), AccountedBytes(env, h, fs));
    if r.Read? {
      var all := fs + [r.filter];
      assert all[..|fs|] == fs && all[..|fs| + 1] == all;
      SignedAndBack(ts[0].u);
      if |fs| == h.numFilters - 1 { SignedAndBack(ts[1].u); }
    }
  }

  /** What is left of the stream is shorter, and no less signed. */
  lemma RestOfStream(env: Env, limit: nat, h: Header, ts: seq<Token>, i: nat, vecCap: nat, bytes: nat)
    ensures var r := LoadFilter(env, limit, h, ts, i, vecCap, bytes);
            r.Read? ==> |r.rest| < |ts| && (SignedTokens(ts) ==> SignedTokens(r.rest))
  {
    hide CalculateFpRate;
    hide FixedSeed;
  }

  lemma ReadFilterIsSound(env: Env, limit: nat, h: Header, ts: seq<Token>, fs: seq<Filter>, signed: bool)
    requires |fs| < h.numFilters && SoundFilters(env, limit, h, fs, signed) && (signed ==> SignedTokens(ts))
    ensures var r := LoadFilter(env, limit, h, ts, |fs|, VecCapFor(|fs|), AccountedBytes(env, h, fs));
            r.Read? ==> && SoundFilters(env, limit, h, fs + [r.filter], signed)
                        && r.size + AccountedBytes(env, h, fs) == AccountedBytes(env, h, fs + [r.filter])
                        && (signed ==> SignedTokens(r.rest))
                        && |r.rest| < |ts|
  {
    var r := LoadFilter(env, limit, h, ts, |fs|, VecCapFor(|fs|), AccountedBytes(env, h, fs));
    LatestIsSound(env, limit, h, ts, fs, signed);
    RestOfStream(env, limit, h, ts, |fs|, VecCapFor(|fs|), AccountedBytes(env, h, fs));
    hide LoadFilter;
    hide SoundFilter;
    hide VecCapFor;
    hide AccountedBytes;
    hide SignedTokens;
    if r.Read? {
      forall i | 0 <= i < |fs| + 1 ensures SoundFilter(env, limit, h, fs + [r.filter], i, signed) {
        if i < |fs| { EarlierStaysSound(env, limit, h, fs, r.filter, i, signed); }
      }
    }
  }

  lemma {:induction false} LoadedFiltersAreSound(env: Env, limit: nat, h: Header, ts: seq<Token>, fs: seq<Filter>,
                                                 signed: bool)
    requires |fs| <= h.numFilters && SoundFilters(env, limit, h, fs, signed) && (signed ==> SignedTokens(ts))
    ensures var r := LoadFilters(env, limit, h, ts, fs, VecCapFor(|fs|), AccountedBytes(env, h, fs));
            r.Loaded? ==>
              && |r.loaded.filters| == h.numFilters
              && SoundFilters(env, limit, h, r.loaded.filters, signed)
              && r.loaded == Object(h.expansion, h.fpRate, h.tightening, h.seedRandom, r.loaded.filters,
                                    VecCapFor(h.numFilters))
    decreases h.numFilters - |fs|
  {
    hide VecCapFor;
    hide SoundFilters;
    hide AccountedBytes;
    hide LoadFilter;
    hide SignedTokens;
    hide GrowVec;
    if |fs| < h.numFilters {
      var r := LoadFilter(env, limit, h, ts, |fs|, VecCapFor(|fs|), AccountedBytes(env, h, fs));
      ReadFilterIsSound(env, limit, h, ts, fs, signed);
      if r.Read? {
        PushAtLoad(|fs|);
        LoadedFiltersAreSound(env, limit, h, r.rest, fs + [r.filter], signed);
      }
    }
  }

  /**
   Loading any stream at all gives up, panics on a bitmap that is not one, or yields an object with
   as many sub-filters as announced, at least one, each of them sound: a rate above the smallest
   double, no more items than capacity, full unless it is the last, and every prefix within the limit.
   */
  lemma LoadOfAnyStream(env: Env, limit: nat, encver: int, ts: seq<Token>)
    ensures var r := LoadFromRdb(env, limit, encver, ts);
            r.Loaded? ==>
              && encver <= ENCODING_VERSION && LoadHeader(ts).Some?
              && var h, o := LoadHeader(ts).value, r.loaded;
              && |o.filters| == h.numFilters >= 1
              && SoundFilters(env, limit, h, o.filters, SignedTokens(ts))
              && o == Object(h.expansion, h.fpRate, h.tightening, h.seedRandom, o.filters, VecCapFor(|o.filters|))
  {
    if LoadHeader(ts).Some? {
      LoadedFiltersAreSound(env, limit, LoadHeader(ts).value, ts[5..], [], SignedTokens(ts));
    }
  }
}

/**
 What loading makes of any stream, exactly: the token format position by position, and the checks that
 every sub-filter has to pass.
 */
module Streams {
  import opened Platform
  import opened RawBloom
  import opened Vectors
  import opened ScalingObject
  import opened Rdb

  // ---------- the format ----------

  /** The bytes at token `at` are those of a bloom. */
  predicate HoldsBloom(env: Env, ts: seq<Token>, at: nat, b: Bloom) {
    at < |ts| && ts[at].Buffer? && env.fromBytes(ts[at].bytes) == Some(b)
  }

  predicate HoldsNumber(ts: seq<Token>, at: nat, n: int) {
    at < |ts| && ts[at].Unsigned? && AsI64(ts[at].u) == n
  }

  /**
   The tokens of sub-filter `i` of `n` are those of `f`: its capacity, its number of items if it is the
   last one, as otherwise it is full, and its bloom.
   */
  predicate HoldsFilter(env: Env, ts: seq<Token>, n: int, i: nat, f: Filter) {
    && HoldsNumber(ts, 2 * i, f.capacity)
    && if i == n - 1 then HoldsNumber(ts, 2 * i + 1, f.numItems) && HoldsBloom(env, ts, 2 * i + 2, f.bloom)
       else f.numItems == f.capacity && HoldsBloom(env, ts, 2 * i + 1, f.bloom)
  }

  /** The header is that of `o`. */
  predicate HoldsHeader(ts: seq<Token>, o: Object) {
    && |ts| >= 5 && ts[0] == Unsigned(AsU64(|o.filters|)) && 1 <= |o.filters| < 0x1_0000_0000_0000_0000
    && ts[1].Unsigned? && AsU32(ts[1].u) == o.expansion
    && ts[2] == Double(Finite(o.fpRate)) && ts[3] == Double(Finite(o.tightening))
    && ts[4].Unsigned? && (o.seedRandom <==> ts[4].u == 1)
  }

  lemma {:induction false} SavedFilterAt(env: Env, fs: seq<Filter>, i: nat, j: nat)
    requires i <= j < |fs|
    ensures var ts, at, last := TokensFrom(env, fs, i), 2 * (j - i), j == |fs| - 1;
            && |ts| == 2 * (|fs| - i) + 1 && ts[at] == Unsigned(AsU64(fs[j].capacity))
            && (last ==> ts[at + 1] == Unsigned(AsU64(fs[j].numItems)))
            && ts[if last then at + 2 else at + 1] == Buffer(env.toBytes(fs[j].bloom))
    decreases j - i
  {
    hide AsU64;
    var rest := TokensFrom(env, fs, i + 1);
    if i < j {
      SavedFilterAt(env, fs, i + 1, j);
      assert forall k :: 2 <= k < |TokensFrom(env, fs, i)| ==> TokensFrom(env, fs, i)[k] == rest[k - 2];
    } else {
      LengthOfTokens(env, fs, i + 1);
    }
  }

  lemma {:induction false} LengthOfTokens(env: Env, fs: seq<Filter>, i: nat)
    requires i <= |fs|
    ensures |TokensFrom(env, fs, i)| == if i == |fs| then 0 else 2 * (|fs| - i) + 1
    decreases |fs| - i
  {
    hide AsU64;
    if i < |fs| { LengthOfTokens(env, fs, i + 1); }
  }

  /** What is saved, token by token: five numbers, then two for every sub-filter and one more for the last. */
  lemma SavedFormat(env: Env, o: Object, i: nat)
    requires i < |o.filters| < 0x1_0000_0000_0000_0000
    ensures var ts, n, f := SaveTokens(env, o), |o.filters|, o.filters[i];
            && |ts| == 5 + 2 * n + 1
            && ts[0] == Unsigned(n) && ts[1] == Unsigned(o.expansion)
            && ts[2] == Double(Finite(o.fpRate)) && ts[3] == Double(Finite(o.tightening))
            && ts[4] == Unsigned(if o.seedRandom then 1 else 0)
            && ts[5 + 2 * i] == Unsigned(AsU64(f.capacity))
            && (i == n - 1 ==> ts[5 + 2 * i + 1] == Unsigned(AsU64(f.numItems)))
            && ts[5 + 2 * i + if i == n - 1 then 2 else 1] == Buffer(env.toBytes(f.bloom))
  {
    SavedFilterAt(env, o.filters, 0, i);
    hide TokensFrom;
    assert SaveTokens(env, o)[5..] == TokensFrom(env, o.filters, 0);
  }

  // ---------- the checks ----------

  /** The numbers, the rate, the size and the seed of a sub-filter are as loading wants them. */
  predicate Passes(env: Env, limit: nat, h: Header, i: nat, f: Filter, vecCap: nat, bytes: nat) {
    && 1 <= AsU64(f.capacity) && AsU64(f.numItems) <= AsU64(f.capacity)
    && RawRate(env, h.fpRate, AsI32(i), h.tightening) > MIN_POSITIVE
    && ObjectSize(vecCap) + bytes + FilterSize(env, AsU64(f.capacity), RawRate(env, h.fpRate, AsI32(i), h.tightening)) <= limit
    && (h.seedRandom || f.bloom.seed == FixedSeed())
  }

  /** One pass of the loop reads `f` if and only if its tokens are there and it passes the checks. */
  lemma OneFilterIsLoaded(env: Env, limit: nat, h: Header, ts: seq<Token>, i: nat, vecCap: nat, bytes: nat, f: Filter)
    requires 2 * i <= |ts| && i < h.numFilters
    ensures var r := LoadFilter(env, limit, h, ts[2 * i..], i, vecCap, bytes);
            && (r.Read? && r.filter == f <==>
                  HoldsFilter(env, ts, h.numFilters, i, f) && Passes(env, limit, h, i, f, vecCap, bytes))
            && (r.Read? && i < h.numFilters - 1 ==> 2 * i + 2 <= |ts| && r.rest == ts[2 * (i + 1)..])
            && (r.Read? && r.filter == f ==>
                  r.size == FilterSize(env, AsU64(f.capacity), RawRate(env, h.fpRate, AsI32(i), h.tightening)))
  {
    hide AsI32;
    hide AsI64;
    hide AsU64;
    hide FixedSeed;
    hide FilterSize;
    hide RawRate;
    var rest := ts[2 * i..];
    if rest != [] && rest[0].Unsigned? { SignedAndBack(rest[0].u); }
    if |rest| >= 2 && rest[1].Unsigned? { SignedAndBack(rest[1].u); }
  }

  // ---------- the whole stream ----------

  /** Sub-filter `i` of `fs` stands in the stream and passes, with the ones before it already loaded. */
  predicate Accepted(env: Env, limit: nat, h: Header, ts: seq<Token>, fs: seq<Filter>, i: nat)
    requires i < |fs|
  {
    && HoldsFilter(env, ts, h.numFilters, i, fs[i])
    && Passes(env, limit, h, i, fs[i], VecCapFor(i), AccountedBytes(env, h, fs[..i]))
  }

  lemma AccountsOneMore(env: Env, h: Header, fs: seq<Filter>, i: nat)
    requires i < |fs|
    ensures AccountedBytes(env, h, fs[..i + 1]) ==
            AccountedBytes(env, h, fs[..i])
            + FilterSize(env, AsU64(fs[i].capacity), RawRate(env, h.fpRate, AsI32(i), h.tightening))
  {
    assert fs[..i + 1][..i] == fs[..i];
  }

  /** Loading never drops what it has read. */
  lemma {:induction false} LoadingExtends(env: Env, limit: nat, h: Header, ts: seq<Token>, fs: seq<Filter>, vecCap: nat,
                                          bytes: nat)
    requires |fs| <= h.numFilters
    ensures var r := LoadFilters(env, limit, h, ts, fs, vecCap, bytes);
            r.Loaded? ==> |fs| <= |r.loaded.filters| && r.loaded.filters[..|fs|] == fs
    decreases h.numFilters - |fs|
  {
    hide LoadFilter;
    hide GrowVec;
    if |fs| < h.numFilters {
      var r := LoadFilter(env, limit, h, ts, |fs|, vecCap, bytes);
      if r.Read? {
        LoadingExtends(env, limit, h, r.rest, fs + [r.filter], GrowVec(vecCap, |fs|), bytes + r.size);
        assert (fs + [r.filter])[..|fs|] == fs;
      }
    }
  }

  /** From sub-filter `i` on, the rest of `all` is loaded if and only if each of its sub-filters is accepted. */
  lemma {:induction false} RestIsLoaded(env: Env, limit: nat, h: Header, ts: seq<Token>, all: seq<Filter>, i: nat)
    requires |all| == h.numFilters && i < |all| && 2 * i <= |ts|
    ensures LoadFilters(env, limit, h, ts[2 * i..], all[..i], VecCapFor(i), AccountedBytes(env, h, all[..i])) ==
            Loaded(Object(h.expansion, h.fpRate, h.tightening, h.seedRandom, all, VecCapFor(|all|))) <==>
            forall j :: i <= j < |all| ==> Accepted(env, limit, h, ts, all, j)
    decreases |all| - i
  {
    hide LoadFilter;
    hide GrowVec;
    hide VecCapFor;
    hide HoldsFilter;
    hide Passes;
    hide AccountedBytes;
    hide FilterSize;
    var r := LoadFilter(env, limit, h, ts[2 * i..], i, VecCapFor(i), AccountedBytes(env, h, all[..i]));
    OneFilterIsLoaded(env, limit, h, ts, i, VecCapFor(i), AccountedBytes(env, h, all[..i]), all[i]);
    assert Accepted(env, limit, h, ts, all, i) <==> r.Read? && r.filter == all[i];
    hide Accepted;
    AccountsOneMore(env, h, all, i);
    PushAtLoad(i);
    assert all[..i] + [all[i]] == all[..i + 1];
    if r.Read? {
      LoadingExtends(env, limit, h, r.rest, all[..i] + [r.filter], GrowVec(VecCapFor(i), i),
                     AccountedBytes(env, h, all[..i]) + r.size);
      if r.filter == all[i] {
        if i + 1 < |all| {
          RestIsLoaded(env, limit, h, ts, all, i + 1);
        } else {
          assert all[..|all|] == all;
        }
      } else {
        assert all[..i + 1][i] == all[i] && (all[..i] + [r.filter])[i] == r.filter;
      }
    }
  }

  lemma HeaderIsLoaded(ts: seq<Token>, o: Object)
    requires 1 <= |o.filters| < 0x1_0000_0000_0000_0000
    ensures LoadHeader(ts) == Some(HeaderOf(o)) <==> HoldsHeader(ts, o)
  {
  }

  /**
   Exactly what loading accepts: a stream is loaded as `o` if and only if its version is known, its header is
   that of `o`, and every sub-filter of `o` stands in it and passes the checks. What follows is not looked at.
   The vector of `o` is as pushing leaves it.
   */
  lemma LoadsExactly(env: Env, limit: nat, encver: int, ts: seq<Token>, o: Object)
    ensures LoadFromRdb(env, limit, encver, ts) == Loaded(o) <==>
            && encver <= 1 && HoldsHeader(ts, o) && o.vecCap == VecCapFor(|o.filters|)
            && forall i :: 0 <= i < |o.filters| ==> Accepted(env, limit, HeaderOf(o), ts[5..], o.filters, i)
  {
    hide VecCapFor;
    hide Accepted;
    hide LoadFilters;
    hide LoadHeader;
    if 1 <= |o.filters| < 0x1_0000_0000_0000_0000 {
      HeaderIsLoaded(ts, o);
      if HoldsHeader(ts, o) {
        StartsEmpty(env, HeaderOf(o), ts[5..], o.filters);
        RestIsLoaded(env, limit, HeaderOf(o), ts[5..], o.filters, 0);
      }
    }
    LoadOfAnyStream(env, limit, encver, ts);
    hide SoundFilters;
    hide SignedTokens;
  }

  lemma StartsEmpty(env: Env, h: Header, ts: seq<Token>, fs: seq<Filter>)
    ensures fs[..0] == [] && ts[0..] == ts && VecCapFor(0) == 1 && AccountedBytes(env, h, fs[..0]) == 0
  {
  }

  // ---------- bytes that are no bloom ----------

  /** Sub-filter `i` stands in the stream but for bytes that are no bloom, and the checks made before are passed. */
  predicate BreaksAt(env: Env, limit: nat, h: Header, ts: seq<Token>, i: nat, vecCap: nat, bytes: nat) {
    var at := if i == h.numFilters - 1 then 2 * i + 2 else 2 * i + 1;
    var rate := RawRate(env, h.fpRate, AsI32(i), h.tightening);
    && at < |ts| && ts[at].Buffer? && env.fromBytes(ts[at].bytes) == None
    && ts[2 * i].Unsigned? && ts[2 * i].u >= 1
    && (i == h.numFilters - 1 ==> ts[2 * i + 1].Unsigned? && ts[2 * i + 1].u <= ts[2 * i].u)
    && rate > MIN_POSITIVE && ObjectSize(vecCap) + bytes + FilterSize(env, ts[2 * i].u, rate) <= limit
  }

  lemma OneFilterBreaks(env: Env, limit: nat, h: Header, ts: seq<Token>, i: nat, vecCap: nat, bytes: nat)
    requires 2 * i <= |ts| && i < h.numFilters
    ensures LoadFilter(env, limit, h, ts[2 * i..], i, vecCap, bytes) == BadBitmap <==>
            BreaksAt(env, limit, h, ts, i, vecCap, bytes)
  {
    hide AsI32;
    hide FixedSeed;
    hide FilterSize;
    hide RawRate;
  }

  /** Loading from sub-filter `i` on: `all` are sub-filters it reads there, and then it breaks. */
  lemma {:induction false} BreaksAfter(env: Env, limit: nat, h: Header, ts: seq<Token>, all: seq<Filter>, i: nat)
    requires i <= |all| < h.numFilters && 2 * i <= |ts|
    requires forall j :: i <= j < |all| ==> Accepted(env, limit, h, ts, all, j)
    requires BreaksAt(env, limit, h, ts, |all|, VecCapFor(|all|), AccountedBytes(env, h, all))
    ensures LoadFilters(env, limit, h, ts[2 * i..], all[..i], VecCapFor(i), AccountedBytes(env, h, all[..i])) == Panicked
    decreases |all| - i
  {
    hide LoadFilter;
    hide GrowVec;
    hide VecCapFor;
    hide HoldsFilter;
    hide Passes;
    hide AccountedBytes;
    hide FilterSize;
    hide BreaksAt;
    if i == |all| {
      assert all[..i] == all;
      OneFilterBreaks(env, limit, h, ts, i, VecCapFor(i), AccountedBytes(env, h, all));
    } else {
      OneFilterIsLoaded(env, limit, h, ts, i, VecCapFor(i), AccountedBytes(env, h, all[..i]), all[i]);
      assert Accepted(env, limit, h, ts, all, i);
      hide Accepted;
      AccountsOneMore(env, h, all, i);
      PushAtLoad(i);
      assert all[..i] + [all[i]] == all[..i + 1];
      BreaksAfter(env, limit, h, ts, all, i + 1);
    }
  }

  /** Loading reads `fs`, and then it breaks. */
  ghost predicate BreaksBehind(env: Env, limit: nat, h: Header, ts: seq<Token>, fs: seq<Filter>) {
    && |fs| < h.numFilters && (forall j :: 0 <= j < |fs| ==> Accepted(env, limit, h, ts, fs, j))
    && BreaksAt(env, limit, h, ts, |fs|, VecCapFor(|fs|), AccountedBytes(env, h, fs))
  }

  lemma AcceptsOneMore(env: Env, limit: nat, h: Header, ts: seq<Token>, fs: seq<Filter>, f: Filter)
    requires forall j :: 0 <= j < |fs| ==> Accepted(env, limit, h, ts, fs, j)
    requires HoldsFilter(env, ts, h.numFilters, |fs|, f)
    requires Passes(env, limit, h, |fs|, f, VecCapFor(|fs|), AccountedBytes(env, h, fs))
    ensures forall j :: 0 <= j < |fs| + 1 ==> Accepted(env, limit, h, ts, fs + [f], j)
  {
    hide HoldsFilter;
    hide Passes;
    hide AccountedBytes;
    hide VecCapFor;
    forall j | 0 <= j < |fs| + 1 ensures Accepted(env, limit, h, ts, fs + [f], j) {
      if j < |fs| { assert Accepted(env, limit, h, ts, fs, j); }
      assert (fs + [f])[..j] == fs[..j];
      assert fs[..|fs|] == fs;
    }
  }

  /** If loading breaks after reading `fs`, it reads some more sub-filters and breaks behind them. */
  lemma {:induction false} WhereItBreaks(env: Env, limit: nat, h: Header, ts: seq<Token>, fs: seq<Filter>)
    returns (all: seq<Filter>)
    requires |fs| <= h.numFilters && 2 * |fs| <= |ts| && forall j :: 0 <= j < |fs| ==> Accepted(env, limit, h, ts, fs, j)
    requires LoadFilters(env, limit, h, ts[2 * |fs|..], fs, VecCapFor(|fs|), AccountedBytes(env, h, fs)) == Panicked
    ensures BreaksBehind(env, limit, h, ts, all)
    decreases h.numFilters - |fs|
  {
    hide LoadFilter;
    hide GrowVec;
    hide VecCapFor;
    hide HoldsFilter;
    hide Passes;
    hide Accepted;
    hide AccountedBytes;
    hide FilterSize;
    hide BreaksAt;
    var i := |fs|;
    var r := LoadFilter(env, limit, h, ts[2 * i..], i, VecCapFor(i), AccountedBytes(env, h, fs));
    OneFilterBreaks(env, limit, h, ts, i, VecCapFor(i), AccountedBytes(env, h, fs));
    all := fs;
    if r.Read? {
      OneFilterIsLoaded(env, limit, h, ts, i, VecCapFor(i), AccountedBytes(env, h, fs), r.filter);
      AcceptsOneMore(env, limit, h, ts, fs, r.filter);
      var more := fs + [r.filter];
      assert more[..i] == fs && more[..i + 1] == more && more[i] == r.filter;
      AccountsOneMore(env, h, more, i);
      PushAtLoad(i);
      all := WhereItBreaks(env, limit, h, ts, more);
    }
  }

  /** The module panics exactly on a stream that breaks behind some sub-filters, none or more, that it has read. */
  lemma PanicsExactly(env: Env, limit: nat, encver: int, ts: seq<Token>)
    ensures LoadFromRdb(env, limit, encver, ts) == Panicked <==>
            && encver <= 1 && LoadHeader(ts).Some?
            && exists fs :: BreaksBehind(env, limit, LoadHeader(ts).value, ts[5..], fs)
  {
    hide VecCapFor;
    hide Accepted;
    hide LoadFilters;
    hide BreaksAt;
    if LoadHeader(ts).Some? {
      var h, body := LoadHeader(ts).value, ts[5..];
      hide LoadHeader;
      if LoadFilters(env, limit, h, body, [], 1, 0) == Panicked {
        StartsEmpty(env, h, body, []);
        var fs := WhereItBreaks(env, limit, h, body, []);
      }
      if fs :| BreaksBehind(env, limit, h, body, fs) {
        StartsEmpty(env, h, body, fs);
        BreaksAfter(env, limit, h, body, fs, 0);
      }
    }
  }
}

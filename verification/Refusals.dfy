/**
 What the simulation refuses although growth would not: how far adds really get, told without the
 simulation, and the targets on which the two disagree.
 */
module Refusals {
  import opened Platform
  import opened RawBloom
  import opened Vectors
  import opened ScalingObject
  import opened Simulator
  import opened BatchAdd
  import opened AdvertisedMaximum
  import opened SmallObjects

  // ---------- how far adds get ----------

  /** A validated scale-out to sub-filter `j`, on an object that has never been shrunk, goes through. */
  predicate GrowthAccepts(p: Plan, limit: nat, j: nat) {
    && j < I32_MAX && p.RateAt(j) > MIN_POSITIVE && p.CapAt(j) <= I64_MAX
    && ObjectSize(VecCapFor(j)) + p.Bytes(j + 1) <= limit
  }

  /** Every scale-out that `target` items need goes through. */
  ghost predicate GrowthReaches(p: Plan, limit: nat, target: int) {
    forall j :: 1 <= j && p.Total(j) < target ==> GrowthAccepts(p, limit, j)
  }

  lemma ReplyWhenFull(env: Env, limit: nat, o: Object, item: string)
    requires Grown(env, o) && Unshrunk(o) && o.expansion > 0 && Cardinality(o) == Capacity(o)
    ensures AddUnchecked(env, limit, o, item, true).reply.Ok? <==> GrowthAccepts(PlanOf(env, o), limit, |o.filters|)
  {
    hide CapacityAt;
    hide VecCapFor;
    var n, p := |o.filters|, PlanOf(env, o);
    FullMeansLastFull(env, o);
    NextCapacity(env, o);
    GrownTotals(env, o);
    assert p.Bytes(n + 1) == p.Bytes(n) + p.SizeAt(n);
    hide Grown;
    hide Cardinality;
    hide Capacity;
  }

  /** No prefix of the plan holds exactly as many items as a grown object that is not full. */
  lemma NotAtABoundary(env: Env, o: Object, j: nat)
    requires Grown(env, o) && o.expansion > 0 && Cardinality(o) < Capacity(o) && j >= 1
    ensures PlanOf(env, o).Total(j) != Cardinality(o)
  {
    hide CapacityAt;
    var n, p := |o.filters|, PlanOf(env, o);
    GrownTotals(env, o);
    assert FilterOccupancy(o, n - 1);
    if j < n {
      TotalsIncrease(p, j, n - 1);
    } else {
      TotalsIncrease(p, n, j);
    }
  }

  /** One more item needs another scale-out only if the object is full. */
  lemma ReachesOneMore(env: Env, limit: nat, o: Object)
    requires Grown(env, o) && o.expansion > 0 && GrowthReaches(PlanOf(env, o), limit, Cardinality(o))
    ensures GrowthReaches(PlanOf(env, o), limit, Cardinality(o) + 1) <==>
            Cardinality(o) < Capacity(o) || GrowthAccepts(PlanOf(env, o), limit, |o.filters|)
  {
    var n, p := |o.filters|, PlanOf(env, o);
    CapacityCoversCardinality(env, o);
    assert p.expansion == o.expansion;
    hide GrowthAccepts;
    hide Grown;
    hide CapacityAt;
    forall j | 1 <= j && p.Total(j) == Cardinality(o) ensures Cardinality(o) == Capacity(o) && j == n {
      if Cardinality(o) < Capacity(o) { NotAtABoundary(env, o, j); }
      if j < n { TotalsStrictlyIncrease(p, j, n); }
      if n < j { TotalsStrictlyIncrease(p, n, j); }
    }
  }

  /** Adding items one by one to an empty object succeeds exactly as far as growth reaches. */
  lemma {:induction false} AddAllReaches(env: Env, limit: nat, o: Object, items: seq<string>, k: nat)
    requires Grown(env, o) && Unshrunk(o) && o.expansion > 0 && Cardinality(o) == 0 && k <= |items|
    ensures var r := AddAll(env, limit, o, items, true, k);
            && Grown(env, r.after) && Unshrunk(r.after) && PlanOf(env, r.after) == PlanOf(env, o)
            && (r.reply.Ok? <==> GrowthReaches(PlanOf(env, o), limit, k))
            && (r.reply.Ok? ==> Cardinality(r.after) == k)
  {
    hide CapacityAt;
    hide GrowthAccepts;
    hide AddUnchecked;
    hide Grown;
    hide Unshrunk;
    hide Cardinality;
    hide Capacity;
    if k > 0 {
      AddAllReaches(env, limit, o, items, k - 1);
      var before := AddAll(env, limit, o, items, true, k - 1);
      if before.reply.Ok? {
        SamePlanSameExpansion(env, o, before.after);
        OneMoreReaches(env, limit, before.after, items[k - 1]);
      }
    }
  }

  lemma SamePlanSameExpansion(env: Env, o: Object, o': Object)
    requires Grown(env, o) && Grown(env, o') && PlanOf(env, o') == PlanOf(env, o)
    ensures o'.expansion == o.expansion
  {
    assert PlanOf(env, o').expansion == o'.expansion;
  }

  lemma OneMoreReaches(env: Env, limit: nat, o: Object, item: string)
    requires Grown(env, o) && Unshrunk(o) && o.expansion > 0 && GrowthReaches(PlanOf(env, o), limit, Cardinality(o))
    ensures var r := AddUnchecked(env, limit, o, item, true);
            && Grown(env, r.after) && Unshrunk(r.after) && PlanOf(env, r.after) == PlanOf(env, o)
            && (r.reply.Ok? <==> GrowthReaches(PlanOf(env, o), limit, Cardinality(o) + 1))
            && (r.reply.Ok? ==> r.reply.value == 1 && Cardinality(r.after) == Cardinality(o) + 1)
  {
    AddUncheckedKeepsGrown(env, limit, o, item, true);
    CapacityCoversCardinality(env, o);
    ReachesOneMore(env, limit, o);
    if Cardinality(o) == Capacity(o) {
      ReplyWhenFull(env, limit, o, item);
    } else {
      FullMeansLastFull(env, o);
      assert AddUnchecked(env, limit, o, item, true).reply == Ok(1);
    }
    hide AddUnchecked;
    hide Grown;
    hide Unshrunk;
    hide GrowthReaches;
    hide GrowthAccepts;
    hide Cardinality;
    hide Capacity;
    hide CapacityAt;
  }

  // ---------- targets that are refused though they would be reached ----------

  /** Up to where the simulation stopped, growth goes along, as far as the count of sub-filters allows. */
  lemma GrowthFollowsSimulation(p: Plan, limit: nat, j: nat)
    requires 1 <= j < StopIndex(p, limit)
    ensures GrowthAccepts(p, limit, j) <==> j < I32_MAX
  {
    assert StepAt(p, limit, j - 1) == Continue && StepAt(p, limit, j) == Continue;
    PushFollowsFormula(j);
    hide CapacityAt;
    hide VecCapFor;
  }

  /** Where the simulation stopped, growth goes on over an overflow yet to come, and where only the vector was too large. */
  lemma GrowthAtTheStop(p: Plan, limit: nat)
    requires StopIndex(p, limit) >= 1
    ensures var n := StopIndex(p, limit);
            GrowthAccepts(p, limit, n) <==>
            n < I32_MAX && p.RateAt(n) > MIN_POSITIVE
            && (StepAt(p, limit, n) == CapacityOverflow || OnlyTheVectorIsTooLarge(p, limit, n))
  {
    var n := StopIndex(p, limit);
    assert StepAt(p, limit, n - 1) == Continue;
    PushFollowsFormula(n);
    hide CapacityAt;
    hide VecCapFor;
  }

  /** After an overflow there is no sub-filter to go on with. */
  lemma NextIsNotReached(p: Plan, limit: nat)
    ensures var n := StopIndex(p, limit); StepAt(p, limit, n) == CapacityOverflow ==> !GrowthAccepts(p, limit, n + 1)
  {
    hide CapacityAt;
  }

  /** What can have stopped the simulation where growth goes on. */
  ghost predicate StoppedEarly(p: Plan, limit: nat) {
    var n := StopIndex(p, limit);
    || n == 0
    || (n < I32_MAX && p.RateAt(n) > MIN_POSITIVE
        && (StepAt(p, limit, n) == CapacityOverflow || OnlyTheVectorIsTooLarge(p, limit, n)))
  }

  /** Growth beyond the stop, where one more sub-filter is enough. */
  lemma ReachesOneBeyondStop(p: Plan, limit: nat, target: int)
    requires var n := StopIndex(p, limit); p.Total(n) < target <= p.Total(n + 1)
    ensures GrowthReaches(p, limit, target) <==> StoppedEarly(p, limit)
  {
    var n := StopIndex(p, limit);
    if n >= 1 { GrowthAtTheStop(p, limit); }
    hide StepAt;
    hide CapacityAt;
    hide OnlyTheVectorIsTooLarge;
    forall j | 1 <= j && p.Total(j) < target ensures j <= n && (j < n ==> (GrowthAccepts(p, limit, j) <==> j < I32_MAX)) {
      if n < j { TotalsIncrease(p, n + 1, j); } else if j < n { GrowthFollowsSimulation(p, limit, j); }
    }
    hide GrowthAccepts;
  }

  /** Growth beyond the stop at all. */
  lemma ReachesBeyondStop(p: Plan, limit: nat, target: int)
    requires p.Total(StopIndex(p, limit)) < target && GrowthReaches(p, limit, target)
    ensures var n := StopIndex(p, limit);
            && StoppedEarly(p, limit)
            && (StepAt(p, limit, n) == CapacityOverflow ==> target <= p.Total(n + 1))
  {
    var n := StopIndex(p, limit);
    if n >= 1 {
      assert GrowthAccepts(p, limit, n);
      GrowthAtTheStop(p, limit);
    }
    NextIsNotReached(p, limit);
    hide StepAt;
    hide CapacityAt;
    hide GrowthAccepts;
    assert p.Total(n + 1) < target ==> GrowthAccepts(p, limit, n + 1);
  }

  /**
   A target that the simulation refuses, for an object that could be created. Adds reach it if and only if
   every scale-out it needs goes through. Then the simulation was stopped by one of three things: a first
   rate that is not above the smallest double; a capacity that would overflow after the last sub-filter
   needed; or nothing but the reallocated vector being too large. Where the sub-filter it stopped at is
   the last one needed, that is also enough.
   */
  lemma RefusedThoughReachable(p: Plan, limit: nat, seed: Seed, seedRandom: bool, o: Object, items: seq<string>)
    requires p.start <= I64_MAX && p.expansion > 0 && Created(p, limit, seed, seedRandom) == Ok(o)
    requires MaxScaledCapacity(p, limit, |items|).Err?
    ensures var n, reached := StopIndex(p, limit), AddAll(p.env, limit, o, items, true, |items|).reply.Ok?;
            && (reached <==> GrowthReaches(p, limit, |items|))
            && (reached ==> || (n == 0 && StepAt(p, limit, 0) == RateTooSmall)
                            || (StepAt(p, limit, n) == CapacityOverflow && |items| <= p.Total(n + 1))
                            || OnlyTheVectorIsTooLarge(p, limit, n))
            && (|items| <= p.Total(n + 1) ==> (reached <==> StoppedEarly(p, limit)))
  {
    var n, target := StopIndex(p, limit), |items|;
    var m := SimulateFromMeaning(p, limit, target, 0);
    CreatedIsEmpty(p, limit, seed, seedRandom, o);
    AddAllReaches(p.env, limit, o, items, target);
    if GrowthReaches(p, limit, target) { ReachesBeyondStop(p, limit, target); }
    if target <= p.Total(n + 1) { ReachesOneBeyondStop(p, limit, target); }
    hide AddFirst;
    hide Created;
    hide Grown;
    hide SimulateFrom;
    hide GrowthReaches;
    hide OnlyTheVectorIsTooLarge;
    hide CapacityAt;
    hide StepAt;
  }

  lemma CreatedIsEmpty(p: Plan, limit: nat, seed: Seed, seedRandom: bool, o: Object)
    requires p.start <= I64_MAX && Created(p, limit, seed, seedRandom) == Ok(o)
    ensures Grown(p.env, o) && Unshrunk(o) && Cardinality(o) == 0 && PlanOf(p.env, o) == p && o.expansion == p.expansion
    ensures StepAt(p, limit, 0) != TooLarge
  {
    CreationIsGrown(p.env, limit, p.fpRate, p.tightening, p.start, p.expansion, seed, seedRandom, true);
    assert p.Bytes(1) == FilterSize(p.env, p.start, p.fpRate) by { assert p.Bytes(0) == 0; }
  }

  // ---------- one that is refused ----------

  /** 2 to the 32 items in the first sub-filter, and an expansion whose product with it no longer fits. */
  ghost function SteepPlan(): Plan {
    PlanFor(Small()).(start := 0x1_0000_0000, expansion := 0xffff_ffff)
  }

  lemma SteepStop()
    ensures var p := SteepPlan();
            && StopIndex(p, 110) == 0 && StepAt(p, 110, 0) == CapacityOverflow
            && p.Total(0) == 0 && p.Total(1) == 0x1_0000_0000
  {
    var p := SteepPlan();
    assert p.Total(0) == 0 && p.CapAt(0) == 0x1_0000_0000 && p.CapAt(1) == 0x1_0000_0000 * 0xffff_ffff;
    SmallRates(0);
    assert p.RateAt(0) == PlanFor(Small()).RateAt(0);
    assert p.Bytes(0) == 0 && p.Bytes(1) == 25;
    assert StepAt(p, 110, 0) == CapacityOverflow;
  }

  /**
   An object that can be created and that takes 2 to the 32 items, while VALIDATESCALETO 1 and BF.INFO's
   maximum are both answered with BadCapacity: the capacity that overflows is one that nobody asked for.
   */
  lemma OverflowRefusesOne(items: seq<string>) returns (p: Plan, limit: nat, o: Object)
    requires |items| == 0x1_0000_0000
    ensures p.start <= I64_MAX && Created(p, limit, SmallSeed(), true) == Ok(o)
    ensures MaxScaledCapacity(p, limit, 1) == Err(BadCapacity) && MaxScaledCapacity(p, limit, -1) == Err(BadCapacity)
    ensures AddAll(p.env, limit, o, items, true, |items|).reply.Ok?
  {
    p, limit := SteepPlan(), 110;
    SteepStop();
    var m := SimulateFromMeaning(p, limit, 1, 0);
    m := SimulateFromMeaning(p, limit, |items|, 0);
    SimulateToTheEnd(p, limit, 0);
    o := Created(p, limit, SmallSeed(), true).value;
    hide SteepPlan;
    hide StepAt;
    RefusedThoughReachable(p, limit, SmallSeed(), true, o, items);
  }
}

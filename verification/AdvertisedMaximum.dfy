/**
 The capacity that BF.INFO advertises as the maximum: it can be reached, and no multi-item command that
 needs another sub-filter goes past it. A single-item BF.ADD can, exactly when the vector of sub-filters
 has to be reallocated and the reallocated part is what does not fit, or when the maximum is 0.
 */
module AdvertisedMaximum {
  import opened Platform
  import opened RawBloom
  import opened Vectors
  import opened ScalingObject
  import opened Simulator
  import opened BatchAdd
  import opened SmallObjects

  lemma {:induction false} TotalsStrictlyIncrease(p: Plan, m: nat, n: nat)
    requires m < n && p.expansion > 0
    ensures p.Total(m) < p.Total(n)
  {
    CapacitiesPositive(p, n - 1);
    if m < n - 1 {
      TotalsStrictlyIncrease(p, m, n - 1);
    }
  }

  lemma {:induction false} CapacitiesPositive(p: Plan, i: nat)
    requires p.expansion > 0
    ensures p.CapAt(i) >= 1
  {
    if i > 0 {
      CapacitiesPositive(p, i - 1);
    }
  }

  /**
   Validation accepts `count` more items exactly when they fit in the capacity at hand or do not take
   the cardinality past the advertised maximum.
   */
  lemma ValidationThreshold(env: Env, limit: nat, o: Object, max: int, count: nat)
    requires Grown(env, o) && o.expansion > 0
    requires MaxScaledCapacity(PlanOf(env, o), limit, -1) == Ok(max)
    ensures ValidateAddItems(env, limit, o, count) == None <==>
            count == 0 || Cardinality(o) + count <= Capacity(o) || Cardinality(o) + count <= max
  {
    GrownTotals(env, o);
    if count > 0 {
      var m := ExactThreshold(PlanOf(env, o), limit, max, Cardinality(o) + count);
    }
  }

  /** An add without a look-up for every item of `items` in turn. */
  function AddAll(env: Env, limit: nat, o: Object, items: seq<string>, validate: bool, k: nat): BatchOutcome
    requires k <= |items|
  {
    AddFirst(env, limit, o, items, seq(|items|, _ => true), validate, k)
  }

  lemma {:induction false} CountOfAllTrue(n: nat)
    ensures CountTrue(seq(n, _ => true)) == n
  {
    if n > 0 {
      CountOfAllTrue(n - 1);
      assert seq(n, _ => true)[..n - 1] == seq(n - 1, _ => true);
    }
  }

  /** Adding items one by one to an empty object that has room for all of them. */
  lemma AddAllWithRoom(env: Env, limit: nat, o: Object, items: seq<string>, validate: bool, k: nat, m: nat)
    requires Grown(env, o) && Unshrunk(o) && Cardinality(o) == 0 && k <= |items|
    requires Room(env, limit, o, |items|, m)
    ensures var r := AddAll(env, limit, o, items, validate, k);
            && Grown(env, r.after) && Unshrunk(r.after) && PlanOf(env, r.after) == PlanOf(env, o)
            && (r.reply.Ok? <==> k <= PlanOf(env, o).Total(I32_MAX))
            && (r.reply.Ok? ==> r.reply.value == seq(k, _ => 1) && Cardinality(r.after) == k)
  {
    AllTrue(|items|, k);
    RoomForFewer(env, limit, o, |items|, k, m);
    hide CountTrue;
    hide OnesAndZeros;
    hide Room;
    hide CapacityAt;
    PrefixAdvances(env, limit, o, items, seq(|items|, _ => true), validate, k, m);
    var r := AddAll(env, limit, o, items, validate, k);
    hide AddFirst;
    AdvancedIsUnshrunk(env, limit, o, validate, r.after);
    hide ScaleOutFits;
    hide Grown;
    StopsAtFilterLimit(env, limit, o, validate, k, m, r.after, r.reply.Err?);
  }

  lemma AllTrue(n: nat, k: nat)
    requires k <= n
    ensures var flags := seq(n, _ => true);
            CountTrue(flags) == n && CountTrue(flags[..k]) == k && OnesAndZeros(flags[..k]) == seq(k, _ => 1)
  {
    CountOfAllTrue(n);
    CountOfAllTrue(k);
    assert seq(n, _ => true)[..k] == seq(k, _ => true);
  }

  lemma RoomForFewer(env: Env, limit: nat, o: Object, target: int, fewer: int, m: nat)
    requires HasFirst(o) && Room(env, limit, o, target, m) && fewer <= target
    ensures Room(env, limit, o, fewer, m)
  {
  }

  /** What creation under the limit makes of a plan. */
  function Created(p: Plan, limit: nat, seed: Seed, seedRandom: bool): Result<Object> {
    NewReserved(p.env, limit, p.fpRate, p.tightening, p.start, p.expansion, seed, seedRandom, true)
  }

  /** The simulation that has answered `max` leaves room for that many items in a created object. */
  lemma CreatedWithRoom(p: Plan, limit: nat, seed: Seed, seedRandom: bool, max: nat)
    requires p.start <= I64_MAX && p.expansion > 0 && MaxScaledCapacity(p, limit, -1) == Ok(max)
    ensures var r := Created(p, limit, seed, seedRandom);
            && (max > 0 ==> r.Ok?)
            && (r.Ok? ==> && Grown(p.env, r.value) && Unshrunk(r.value) && Cardinality(r.value) == 0
                          && PlanOf(p.env, r.value) == p && Room(p.env, limit, r.value, max, StopIndex(p, limit)))
  {
    SimulateToTheEnd(p, limit, 0);
    assert p.Total(0) == 0;
    if max > 0 {
      assert StepAt(p, limit, 0) == Continue;
      assert p.Bytes(1) == FilterSize(p.env, p.start, p.fpRate) by { assert p.Bytes(0) == 0; }
    }
    CreationIsGrown(p.env, limit, p.fpRate, p.tightening, p.start, p.expansion, seed, seedRandom, true);
  }

  /**
   The advertised maximum is attainable: unless it is 0 the object can be created, and then any `max`
   items can be added one after the other, as far as the largest number of sub-filters allows, which
   the simulation does not count. After `k` of them the cardinality is `k`, one more item validates
   exactly while `k < max`, and the advertised maximum is still `max`.
   */
  lemma MaximumIsAttainable(p: Plan, limit: nat, seed: Seed, seedRandom: bool, max: nat, items: seq<string>,
                            validate: bool, k: nat)
    requires p.start <= I64_MAX && p.expansion > 0
    requires MaxScaledCapacity(p, limit, -1) == Ok(max) && |items| == max && k <= max
    ensures var created := Created(p, limit, seed, seedRandom);
            && (max > 0 ==> created.Ok?)
            && (created.Ok? ==>
                  var r := AddAll(p.env, limit, created.value, items, validate, k);
                  && (r.reply.Ok? <==> k <= p.Total(I32_MAX))
                  && (r.reply.Ok? ==> && r.reply.value == seq(k, _ => 1) && Grown(p.env, r.after)
                                      && Cardinality(r.after) == k
                                      && MaxScaledCapacity(PlanOf(p.env, r.after), limit, -1) == Ok(max)
                                      && (max > 0 ==> Capacity(r.after) <= max
                                                      && (ValidateAddItems(p.env, limit, r.after, 1) == None <==> k < max))))
  {
    hide CapacityAt;
    var env := p.env;
    CreatedWithRoom(p, limit, seed, seedRandom, max);
    if Created(p, limit, seed, seedRandom).Ok? {
      var o := Created(p, limit, seed, seedRandom).value;
      hide NewReserved;
      AddAllWithRoom(env, limit, o, items, validate, k, StopIndex(p, limit));
      var r := AddAll(env, limit, o, items, validate, k);
      hide AddFirst;
      if r.reply.Ok? && max > 0 {
        ValidationThreshold(env, limit, r.after, max, 1);
        CapacityCoversCardinality(env, r.after);
        StaysBelowMaximum(env, limit, r.after, max);
      }
    }
  }

  /** The sub-filters needed for at most `max` items are among those of the simulation. */
  lemma StaysBelowMaximum(env: Env, limit: nat, o: Object, max: int)
    requires Grown(env, o) && o.expansion > 0 && Cardinality(o) <= max && max > 0
    requires MaxScaledCapacity(PlanOf(env, o), limit, -1) == Ok(max)
    ensures |o.filters| <= StopIndex(PlanOf(env, o), limit) && Capacity(o) <= max
  {
    var n, p := |o.filters|, PlanOf(env, o);
    var stop := StopIndex(p, limit);
    SimulateToTheEnd(p, limit, 0);
    GrownTotals(env, o);
    assert FilterOccupancy(o, n - 1);
    assert p.Total(0) == 0;
    if n > stop {
      TotalsIncrease(p, stop, n - 1);
    } else {
      TotalsIncrease(p, n, stop);
    }
  }

  // ---------- beyond the maximum ----------

  /** The simulation counts sub-filter `n` as too large only because of the vector's reallocation. */
  predicate OnlyTheVectorIsTooLarge(p: Plan, limit: nat, n: nat) {
    ObjectSize(VecCapFor(n)) + p.Bytes(n + 1) <= limit < ObjectSize(VecCapFor(n + 1)) + p.Bytes(n + 1)
  }

  /**
   One more BF.ADD at the advertised maximum. An item that is found is answered with 0 as always. Any
   other goes through exactly when the maximum is 0, or when the simulation was stopped by the limit and
   yet the size test of the scale-out, which still counts the vector before it is reallocated, passes.
   A multi-item command for one new item is refused unless the maximum is 0.
   */
  lemma BeyondTheMaximum(env: Env, limit: nat, o: Object, max: int, item: string)
    requires Grown(env, o) && Unshrunk(o) && o.expansion > 0
    requires MaxScaledCapacity(PlanOf(env, o), limit, -1) == Ok(max) && Cardinality(o) == max
    ensures var n, p := |o.filters|, PlanOf(env, o);
            && AddItem(env, limit, o, item, true).reply ==
               (if ItemExists(env, o, item) then Ok(0)
                else if max == 0 then Ok(1)
                else if n == I32_MAX then Err(MaxNumScalingFilters)
                else if p.RateAt(n) <= MIN_POSITIVE then Err(FalsePositiveReachesZero)
                else if OnlyTheVectorIsTooLarge(p, limit, n) then Ok(1)
                else Err(ExceedsMaxBloomSize))
            && (ValidateAddItems(env, limit, o, 1) == None <==> max == 0)
  {
    hide CapacityAt;
    hide ItemExists;
    GrownTotals(env, o);
    if max == 0 {
      EmptyTakesAnItem(env, limit, o, item);
    } else {
      ReplyAtMaximum(env, limit, o, max, item);
      AtTheMaximum(env, limit, o, max);
      ValidationThreshold(env, limit, o, max, 1);
    }
    hide AddUnchecked;
    hide Grown;
  }

  /** The same without the look-up, where the maximum is not 0. */
  lemma ReplyAtMaximum(env: Env, limit: nat, o: Object, max: int, item: string)
    requires Grown(env, o) && Unshrunk(o) && o.expansion > 0
    requires MaxScaledCapacity(PlanOf(env, o), limit, -1) == Ok(max) && Cardinality(o) == max > 0
    ensures var n, p := |o.filters|, PlanOf(env, o);
            && n == StopIndex(p, limit)
            && AddUnchecked(env, limit, o, item, true).reply ==
               (if n == I32_MAX then Err(MaxNumScalingFilters)
                else if p.RateAt(n) <= MIN_POSITIVE then Err(FalsePositiveReachesZero)
                else if OnlyTheVectorIsTooLarge(p, limit, n) then Ok(1)
                else Err(ExceedsMaxBloomSize))
  {
    hide CapacityAt;
    hide VecCapFor;
    var n, p := |o.filters|, PlanOf(env, o);
    AtTheMaximum(env, limit, o, max);
    assert p.Bytes(n + 1) == p.Bytes(n) + p.SizeAt(n);
    GrownTotals(env, o);
    NextCapacity(env, o);
    hide Grown;
    hide Cardinality;
    hide Capacity;
    hide MaxScaledCapacity;
  }

  lemma EmptyTakesAnItem(env: Env, limit: nat, o: Object, item: string)
    requires Grown(env, o) && Cardinality(o) == 0
    ensures |o.filters| == 1 && AddUnchecked(env, limit, o, item, true).reply == Ok(1)
    ensures ValidateAddItems(env, limit, o, 1) == None
  {
    hide CapacityAt;
    var n, p := |o.filters|, PlanOf(env, o);
    GrownTotals(env, o);
    assert FilterOccupancy(o, n - 1) && FilterFollowsPlan(env, o, n - 1);
    FullMeansLastFull(env, o);
  }

  /** At the advertised maximum the object is full and its next sub-filter is where the simulation stopped. */
  lemma AtTheMaximum(env: Env, limit: nat, o: Object, max: int)
    requires Grown(env, o) && Unshrunk(o) && o.expansion > 0
    requires MaxScaledCapacity(PlanOf(env, o), limit, -1) == Ok(max) && max > 0 && Cardinality(o) == max
    ensures var n, p := |o.filters|, PlanOf(env, o);
            && n == StopIndex(p, limit)
            && o.filters[n - 1].numItems == o.filters[n - 1].capacity
            && p.CapAt(n) <= I64_MAX
            && StepAt(p, limit, n) in {RateTooSmall, TooLarge}
            && Capacity(o) == max
  {
    hide CapacityAt;
    var n, p := |o.filters|, PlanOf(env, o);
    StaysBelowMaximum(env, limit, o, max);
    SimulateToTheEnd(p, limit, 0);
    GrownTotals(env, o);
    if n < StopIndex(p, limit) {
      TotalsStrictlyIncrease(p, n, StopIndex(p, limit));
    }
    FullMeansLastFull(env, o);
    assert StepAt(p, limit, n - 1) == Continue;
  }

  // ---------- whole runs ----------

  /** What decides, before the object is even created, whether adds can pass the advertised maximum. */
  ghost predicate Passable(p: Plan, limit: nat) {
    var n := StopIndex(p, limit);
    n == 0 || (n < I32_MAX && p.RateAt(n) > MIN_POSITIVE && OnlyTheVectorIsTooLarge(p, limit, n))
  }

  predicate ValidatedUnder(ops: seq<AddOp>, limit: nat) {
    forall i :: 0 <= i < |ops| ==> ops[i].validate && ops[i].limit == limit
  }

  /** Unless the maximum can be passed, an object at or below it stays there. */
  lemma {:induction false} RunStaysBelow(env: Env, limit: nat, o: Object, max: int, ops: seq<AddOp>)
    requires Grown(env, o) && Unshrunk(o) && o.expansion > 0 && ValidatedUnder(ops, limit)
    requires MaxScaledCapacity(PlanOf(env, o), limit, -1) == Ok(max) && Cardinality(o) <= max
    requires !Passable(PlanOf(env, o), limit)
    ensures Cardinality(Run(env, o, ops)) <= max
    decreases |ops|
  {
    hide Passable;
    hide Grown;
    hide Unshrunk;
    hide AddItem;
    hide AddUnchecked;
    if ops != [] {
      assert ValidatedUnder(ops[1..], limit);
      var r := Apply(env, o, ops[0]);
      ApplyKeepsGrown(env, o, ops[0]);
      if Cardinality(o) == max { StaysAtMaximum(env, limit, o, max, ops[0]); }
      RunStaysBelow(env, limit, r.after, max, ops[1..]);
    }
  }

  lemma StaysAtMaximum(env: Env, limit: nat, o: Object, max: int, op: AddOp)
    requires Grown(env, o) && Unshrunk(o) && o.expansion > 0 && op.validate && op.limit == limit
    requires MaxScaledCapacity(PlanOf(env, o), limit, -1) == Ok(max) && Cardinality(o) == max
    requires !Passable(PlanOf(env, o), limit)
    ensures Apply(env, o, op).reply != Ok(1)
  {
    var p := PlanOf(env, o);
    SimulateToTheEnd(p, limit, 0);
    assert p.Total(0) == 0;
    CapacityCoversCardinality(env, o);
    if max == 0 {
      TotalsStrictlyIncrease(p, 0, StopIndex(p, limit));
    } else if max > 0 {
      ReplyAtMaximum(env, limit, o, max, op.item);
    } else {
      GrownTotals(env, o);
    }
    hide AddUnchecked;
    hide Grown;
    hide ItemExists;
  }

  /** BF.ADDs of items that are each not found when their turn comes. */
  ghost predicate NewAtTheirTurn(env: Env, limit: nat, o: Object, ops: seq<AddOp>)
    decreases |ops|
  {
    ops != [] ==>
      && ops[0] == AddOp(ops[0].item, true, true, limit) && !ItemExists(env, o, ops[0].item)
      && NewAtTheirTurn(env, limit, Apply(env, o, ops[0]).after, ops[1..])
  }

  /** An object that is on its way to a maximum that can be passed. */
  ghost predicate OnTheWay(env: Env, limit: nat, o: Object, max: int) {
    && Grown(env, o) && Unshrunk(o) && o.expansion > 0
    && MaxScaledCapacity(PlanOf(env, o), limit, -1) == Ok(max) && Passable(PlanOf(env, o), limit)
  }

  lemma GoesOn(env: Env, limit: nat, o: Object, max: int, op: AddOp)
    requires OnTheWay(env, limit, o, max) && Cardinality(o) <= max
    requires op == AddOp(op.item, true, true, limit) && !ItemExists(env, o, op.item)
    ensures var o' := Apply(env, o, op).after;
            OnTheWay(env, limit, o', max) && Cardinality(o') == Cardinality(o) + 1
  {
    hide AddUnchecked;
    hide ItemExists;
    if Cardinality(o) < max {
      GrowsToMaximum(env, limit, o, max, op.item);
    } else {
      PassesAtMaximum(env, limit, o, max, op.item);
    }
    hide Passable;
    hide MaxScaledCapacity;
    ApplyKeepsGrown(env, o, op);
    hide Grown;
    hide Unshrunk;
    hide Cardinality;
    var o' := Apply(env, o, op).after;
    assert PlanOf(env, o') == PlanOf(env, o);
    assert o'.expansion == PlanOf(env, o').expansion;
  }

  /** If it can, BF.ADDs of new items pass it. */
  lemma {:induction false} RunPasses(env: Env, limit: nat, o: Object, max: int, ops: seq<AddOp>)
    requires OnTheWay(env, limit, o, max) && Cardinality(o) + |ops| == max + 1 && NewAtTheirTurn(env, limit, o, ops)
    ensures Cardinality(Run(env, o, ops)) == max + 1
    decreases |ops|
  {
    hide OnTheWay;
    hide Apply;
    hide Cardinality;
    hide ItemExists;
    if ops != [] {
      GoesOn(env, limit, o, max, ops[0]);
      RunPasses(env, limit, Apply(env, o, ops[0]).after, max, ops[1..]);
    }
  }

  lemma GrowsToMaximum(env: Env, limit: nat, o: Object, max: int, item: string)
    requires OnTheWay(env, limit, o, max) && Cardinality(o) < max
    ensures AddUnchecked(env, limit, o, item, true).reply == Ok(1)
  {
    hide CapacityAt;
    var n, p, stop := |o.filters|, PlanOf(env, o), StopIndex(PlanOf(env, o), limit);
    SimulateToTheEnd(p, limit, 0);
    assert p.Total(0) == 0;
    CapacityCoversCardinality(env, o);
    if stop <= n { TotalsIncrease(p, stop, n); }
    ReplyWithRoom(env, limit, o, item, true, max, stop);
    if Cardinality(o) == Capacity(o) { UnshrunkFits(env, limit, o, true, max, stop, n); }
    hide AddUnchecked;
    hide Grown;
  }

  lemma PassesAtMaximum(env: Env, limit: nat, o: Object, max: int, item: string)
    requires OnTheWay(env, limit, o, max) && Cardinality(o) == max
    ensures AddUnchecked(env, limit, o, item, true).reply == Ok(1)
  {
    GrownTotals(env, o);
    if max == 0 {
      EmptyTakesAnItem(env, limit, o, item);
    } else {
      ReplyAtMaximum(env, limit, o, max, item);
    }
    hide AddUnchecked;
    hide Grown;
  }

  lemma {:induction false} NewIsValidated(env: Env, limit: nat, o: Object, ops: seq<AddOp>)
    requires NewAtTheirTurn(env, limit, o, ops)
    ensures ValidatedUnder(ops, limit)
    decreases |ops|
  {
    hide Apply;
    if ops != [] {
      NewIsValidated(env, limit, Apply(env, o, ops[0]).after, ops[1..]);
      assert forall i :: 0 < i < |ops| ==> ops[i] == ops[1..][i - 1];
    }
  }

  /**
   The advertised maximum as a promise about whole runs on a created object. If its simulation stopped for
   another reason than the reallocated vector, and not before the first sub-filter, no run of validated
   adds ever passes it. Otherwise every run of `max + 1` BF.ADDs of new items does.
   */
  lemma MaximumIsNeverPassed(p: Plan, limit: nat, seed: Seed, seedRandom: bool, o: Object, max: nat, ops: seq<AddOp>)
    requires p.start <= I64_MAX && p.expansion > 0 && MaxScaledCapacity(p, limit, -1) == Ok(max)
    requires Created(p, limit, seed, seedRandom) == Ok(o)
    ensures !Passable(p, limit) && ValidatedUnder(ops, limit) ==> Cardinality(Run(p.env, o, ops)) <= max
    ensures NewAtTheirTurn(p.env, limit, o, ops) && |ops| == max + 1 ==>
              (Cardinality(Run(p.env, o, ops)) > max <==> Passable(p, limit))
  {
    hide CapacityAt;
    hide Passable;
    CreatedWithRoom(p, limit, seed, seedRandom, max);
    hide NewReserved;
    hide NewAtTheirTurn;
    if NewAtTheirTurn(p.env, limit, o, ops) { NewIsValidated(p.env, limit, o, ops); }
    if !Passable(p, limit) && ValidatedUnder(ops, limit) {
      RunStaysBelow(p.env, limit, o, max, ops);
    } else if NewAtTheirTurn(p.env, limit, o, ops) && |ops| == max + 1 {
      RunPasses(p.env, limit, o, max, ops);
    }
  }

  // ---------- the memory that validated growth can take ----------

  /** Validated growth passes the limit by no more than what reallocating the vector adds. */
  lemma MemoryBound(env: Env, limit: nat, o: Object)
    requires Grown(env, o) && Unshrunk(o) && SizeChecked(env, limit, o)
    ensures var n := |o.filters|;
            MemoryUsage(env, o) <= limit + BOX_BYTES * (VecCapFor(n) - VecCapFor(n - 1))
    ensures |o.filters| == 1 ==> MemoryUsage(env, o) <= limit
  {
    GrownTotals(env, o);
    assert CheckedAt(PlanOf(env, o), limit, |o.filters| - 1);
  }

  /** The bound for every run of validated adds on a freshly created object. */
  lemma MemoryBoundOfEveryRun(env: Env, limit: nat, p: Plan, seed: Seed, seedRandom: bool, o: Object, ops: seq<AddOp>)
    requires p.env == env && p.start <= I64_MAX
    requires NewReserved(env, limit, p.fpRate, p.tightening, p.start, p.expansion, seed, seedRandom, true) == Ok(o)
    requires forall op :: op in ops ==> op.validate && op.limit == limit
    ensures var o', n := Run(env, o, ops), |Run(env, o, ops).filters|;
            n >= 1 && MemoryUsage(env, o') <= limit + BOX_BYTES * (VecCapFor(n) - VecCapFor(n - 1))
  {
    CreationIsGrown(env, limit, p.fpRate, p.tightening, p.start, p.expansion, seed, seedRandom, true);
    RunKeepsGrown(env, o, ops);
    RunKeepsSizeChecked(env, limit, o, ops);
    MemoryBound(env, limit, Run(env, o, ops));
  }

  // ---------- objects that pass their maximum ----------

  /** Under 110 bytes the simulation stops after one small sub-filter. */
  lemma SmallSimulation()
    ensures MaxScaledCapacity(PlanFor(Small()), 110, -1) == Ok(1)
  {
    var p := PlanFor(Small());
    SmallTotals(0);
    SmallTotals(1);
    SmallTotals(2);
    SmallVectors(2);
    SmallRates(0);
    SmallRates(1);
    assert StepAt(p, 110, 0) == Continue && StepAt(p, 110, 1) == TooLarge;
    hide PlanFor;
    assert SimulateFrom(p, 110, -1, 1) == Ok(1);
  }

  /**
   A created object at its advertised maximum that a second, validated BF.ADD of a new item takes past
   it and past the memory limit: there is room for a second sub-filter, but not for the vector of four
   boxes that holds it.
   */
  lemma MaximumCanBePassed() returns (p: Plan, limit: nat, o: Object, max: nat)
    ensures Created(p, limit, SmallSeed(), true) == Ok(o) && MaxScaledCapacity(p, limit, -1) == Ok(max)
    ensures var first := AddItem(p.env, limit, o, ItemOf(0), true);
            var second := AddItem(p.env, limit, first.after, ItemOf(1), true);
            && first.reply == Ok(1) && Cardinality(first.after) == max
            && second.reply == Ok(1) && Cardinality(second.after) > max && MemoryUsage(p.env, second.after) > limit
  {
    p, limit, max, o := PlanFor(Small()), 110, 1, Empty(Small());
    SmallSimulation();
    CreatesEmpty(Small(), limit);
    FirstAdd(Small(), limit);
    SmallLasts(2);
    SmallTotals(2);
    NextAdd(Small(), limit, 1, 1);
    RowIsGrown(Small(), 1, 1);
    RowIsGrown(Small(), 2, 4);
    hide Empty;
    hide Row;
    hide AddItem;
  }

  lemma {:induction false} PowersAreDoubles(n: nat, doubled: nat)
    requires doubled + n <= 1074
    ensures Representable(Pow(0.5, n), doubled)
  {
    if n == 0 {
      assert 1.0.Floor == 1;
    } else {
      PowersAreDoubles(n - 1, doubled + 1);
      assert 2.0 * Pow(0.5, n) == Pow(0.5, n - 1);
    }
  }

  /** The smallest normal double, as a rate. */
  ghost function SmallestRate(): (r: Rate)
    ensures r == MIN_POSITIVE
  {
    PowersAreDoubles(1022, 0);
    HalvesAreSmall(1022);
    MIN_POSITIVE
  }

  /**
   With an error rate that is not above the smallest normal double, BF.INFO advertises a maximum of 0
   for an object that has been created and that BF.ADD adds an item to.
   */
  lemma MaximumOfZeroIsPassed() returns (p: Plan, limit: nat, o: Object)
    ensures p.fpRate <= MIN_POSITIVE && Created(p, limit, SmallSeed(), true) == Ok(o)
    ensures MaxScaledCapacity(p, limit, -1) == Ok(0)
    ensures var r := AddItem(p.env, limit, o, ItemOf(0), true); r.reply == Ok(1) && Cardinality(r.after) == 1
  {
    p, limit := PlanFor(Small()).(fpRate := SmallestRate()), 110;
    assert p.Total(0) == 0;
    assert StepAt(p, limit, 0) == RateTooSmall;
    o := Created(p, limit, SmallSeed(), true).value;
    assert o == Empty(Small()).(fpRate := p.fpRate);
    CreatedWithRoom(p, limit, SmallSeed(), true, 0);
    EmptyTakesAnItem(p.env, limit, o, ItemOf(0));
    NothingFound(Small(), o.filters[0].bloom, ItemOf(0));
    AddUncheckedKeepsGrown(p.env, limit, o, ItemOf(0), true);
  }
}

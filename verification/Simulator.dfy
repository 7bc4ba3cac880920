/**
 The simulation of scale-out: what it computes, when it stops, and how it relates to an object that
 really grows.
 */
module Simulator {
  import opened Platform
  import opened RawBloom
  import opened Vectors
  import opened ScalingObject

  datatype Verdict = Continue | RateTooSmall | TooLarge | CapacityOverflow

  /** The size the simulation compares with the limit before it accepts sub-filter `i`. */
  function SimulatedSize(p: Plan, i: nat): nat {
    ObjectSize(VecCapFor(i + 1)) + p.Bytes(i + 1)
  }

  /** One iteration of the simulation, which considers sub-filter `i`. */
  function StepAt(p: Plan, limit: nat, i: nat): Verdict {
    if p.RateAt(i) <= MIN_POSITIVE then RateTooSmall
    else if SimulatedSize(p, i) > limit then TooLarge
    else if p.CapAt(i + 1) > I64_MAX then CapacityOverflow
    else Continue
  }

  function StopError(v: Verdict): Error
    requires v != Continue
  {
    match v
    case RateTooSmall => ValidateScaleToFalsePositiveInvalid
    case TooLarge => ValidateScaleToExceedsMaxSize
    case CapacityOverflow => BadCapacity
  }

  /** The simulation from iteration `i` on; a `target` of -1 asks for the largest reachable capacity. */
  function SimulateFrom(p: Plan, limit: nat, target: int, i: nat): Result<int>
    decreases limit - p.Bytes(i)
  {
    if p.Total(i) >= target && target != -1 then Ok(p.Total(i)) else
    var v := StepAt(p, limit, i);
    if v == Continue then SimulateFrom(p, limit, target, i + 1)
    else if target == -1 && v != CapacityOverflow then Ok(p.Total(i))
    else Err(StopError(v))
  }

  function MaxScaledCapacity(p: Plan, limit: nat, target: int): Result<int> {
    SimulateFrom(p, limit, target, 0)
  }

  /**
   `BloomObject::calculate_max_scaled_capacity`: four accumulators and a loop. It ends in both modes
   because every completed iteration adds at least one sub-filter's fixed bytes to the memory in use.
   */
  method CalculateMaxScaledCapacity(env: Env, limit: nat, capacity: pos, fpRate: Rate, validateScaleTo: int,
                                    tightening: Rate, expansion: U32) returns (r: Result<int>)
    ensures r == MaxScaledCapacity(Plan(env, capacity, fpRate, tightening, expansion), limit, validateScaleTo)
  {
    ghost var p := Plan(env, capacity, fpRate, tightening, expansion);
    hide NextPowerOfTwo;
    hide AsI32;
    var currFilterCapacity := capacity as nat;
    var currTotalCapacity := 0;
    var currNumFilters := 0;
    var filtersMemoryUsage := 0;
    while currTotalCapacity < validateScaleTo || validateScaleTo == -1
      invariant currNumFilters >= 0 && currFilterCapacity == p.CapAt(currNumFilters)
      invariant currTotalCapacity == p.Total(currNumFilters)
      invariant filtersMemoryUsage == p.Bytes(currNumFilters)
      invariant SimulateFrom(p, limit, validateScaleTo, currNumFilters) == MaxScaledCapacity(p, limit, validateScaleTo)
      decreases limit - filtersMemoryUsage
    {
      var currFpRate;
      match CalculateFpRate(env, fpRate, AsI32(currNumFilters), tightening) {
        case Ok(rate) =>
          currFpRate := rate;
        case Err(_) =>
          if validateScaleTo == -1 {
            return Ok(currTotalCapacity);
          }
          return Err(ValidateScaleToFalsePositiveInvalid);
      }
      var currFilterSize := FilterSize(env, currFilterCapacity, currFpRate);
      var vecCap := if currNumFilters == 0 then 1 else NextPowerOfTwo(Max(4, currNumFilters + 1));
      var currObjectSize := ObjectSize(vecCap) + filtersMemoryUsage + currFilterSize;
      assert currObjectSize == SimulatedSize(p, currNumFilters);
      if currObjectSize > limit {
        if validateScaleTo == -1 {
          return Ok(currTotalCapacity);
        }
        return Err(ValidateScaleToExceedsMaxSize);
      }
      filtersMemoryUsage := filtersMemoryUsage + currFilterSize;
      currTotalCapacity := currTotalCapacity + currFilterCapacity;
      if currFilterCapacity * expansion > I64_MAX {
        return Err(BadCapacity);
      }
      currFilterCapacity := currFilterCapacity * expansion;
      currNumFilters := currNumFilters + 1;
    }
    return Ok(currTotalCapacity);
  }

  // ---------- where the simulation stops ----------

  /** A completed iteration adds at least the fixed bytes of a sub-filter, and stays within the limit. */
  lemma StepsAddBytes(p: Plan, limit: nat, i: nat)
    requires StepAt(p, limit, i) == Continue
    ensures p.Bytes(i) + FILTER_BYTES <= p.Bytes(i + 1) <= limit
  {
  }

  ghost function StopFrom(p: Plan, limit: nat, i: nat): nat
    decreases limit - p.Bytes(i)
  {
    if StepAt(p, limit, i) == Continue then StepsAddBytes(p, limit, i); StopFrom(p, limit, i + 1) else i
  }

  lemma {:induction false} StopsThere(p: Plan, limit: nat, i: nat)
    ensures var n := StopFrom(p, limit, i);
            i <= n && StepAt(p, limit, n) != Continue && forall k :: i <= k < n ==> StepAt(p, limit, k) == Continue
    decreases limit - p.Bytes(i)
  {
    hide CapacityAt;
    hide RawRate;
    hide FilterSize;
    hide VecCapFor;
    if StepAt(p, limit, i) == Continue {
      StepsAddBytes(p, limit, i);
      StopsThere(p, limit, i + 1);
    }
  }

  /** The first iteration that does not complete. */
  ghost function StopIndex(p: Plan, limit: nat): (n: nat)
    ensures StepAt(p, limit, n) != Continue
    ensures forall k :: 0 <= k < n ==> StepAt(p, limit, k) == Continue
  {
    StopsThere(p, limit, 0);
    StopFrom(p, limit, 0)
  }

  lemma {:induction false} TotalsIncrease(p: Plan, m: nat, n: nat)
    requires m <= n
    ensures p.Total(m) <= p.Total(n)
  {
    if m < n {
      TotalsIncrease(p, m, n - 1);
    }
  }

  /** `Total(m)` is the least sum of the first few capacities that reaches `target`. */
  ghost predicate LeastReaching(p: Plan, target: int, m: nat) {
    p.Total(m) >= target && forall k :: 0 <= k < m ==> p.Total(k) < target
  }

  lemma {:induction false} SimulateFromMeaning(p: Plan, limit: nat, target: int, i: nat) returns (m: nat)
    requires i <= StopIndex(p, limit) && target != -1
    requires forall k :: 0 <= k < i ==> p.Total(k) < target
    ensures var stop := StopIndex(p, limit);
            if p.Total(stop) >= target
            then m <= stop && LeastReaching(p, target, m) && SimulateFrom(p, limit, target, i) == Ok(p.Total(m))
            else SimulateFrom(p, limit, target, i) == Err(StopError(StepAt(p, limit, stop)))
    decreases StopIndex(p, limit) - i
  {
    hide CapacityAt;
    hide RawRate;
    hide FilterSize;
    hide VecCapFor;
    m := i;
    if p.Total(i) >= target {
      TotalsIncrease(p, i, StopIndex(p, limit));
    } else if i < StopIndex(p, limit) {
      m := SimulateFromMeaning(p, limit, target, i + 1);
    }
  }

  lemma {:induction false} SimulateToTheEnd(p: Plan, limit: nat, i: nat)
    requires i <= StopIndex(p, limit)
    ensures var stop := StopIndex(p, limit);
            SimulateFrom(p, limit, -1, i) ==
            if StepAt(p, limit, stop) == CapacityOverflow then Err(BadCapacity) else Ok(p.Total(stop))
    decreases StopIndex(p, limit) - i
  {
    hide CapacityAt;
    hide RawRate;
    hide FilterSize;
    hide VecCapFor;
    if i < StopIndex(p, limit) {
      SimulateToTheEnd(p, limit, i + 1);
    }
  }

  /**
   The exact threshold: once mode -1 has answered `Ok(max)`, every target from 1 to `max` is answered
   with the least reachable total that covers it, and every larger one with the error that stopped
   the mode -1 run, which is the memory error or the false positive error.
   */
  lemma ExactThreshold(p: Plan, limit: nat, max: int, target: int) returns (m: nat)
    requires MaxScaledCapacity(p, limit, -1) == Ok(max) && target >= 1
    ensures target <= max ==> && m <= StopIndex(p, limit) && LeastReaching(p, target, m)
                              && MaxScaledCapacity(p, limit, target) == Ok(p.Total(m))
    ensures target > max ==> && MaxScaledCapacity(p, limit, target) == Err(StopError(StepAt(p, limit, StopIndex(p, limit))))
                             && MaxScaledCapacity(p, limit, target).error in
                                {ValidateScaleToExceedsMaxSize, ValidateScaleToFalsePositiveInvalid}
  {
    SimulateToTheEnd(p, limit, 0);
    m := SimulateFromMeaning(p, limit, target, 0);
  }

  /** Whatever the mode, an accepted target is reached by sub-filters that all passed the simulation. */
  lemma AcceptedTargetIsReached(p: Plan, limit: nat, target: int) returns (m: nat)
    requires target != -1 && MaxScaledCapacity(p, limit, target).Ok?
    ensures m <= StopIndex(p, limit) && p.Total(m) >= target
    ensures MaxScaledCapacity(p, limit, target) == Ok(p.Total(m))
  {
    m := SimulateFromMeaning(p, limit, target, 0);
  }

  // ---------- 64-bit totals ----------

  /** With an expansion of at least 2 all sub-filters so far hold less than the next one alone. */
  lemma {:induction false} TotalBelowNextCapacity(p: Plan, n: nat)
    requires p.expansion >= 2
    ensures p.Total(n) < p.CapAt(n)
  {
    if n > 0 {
      TotalBelowNextCapacity(p, n - 1);
      AtLeastDoubles(p.CapAt(n - 1), p.expansion);
    }
  }

  lemma AtLeastDoubles(capacity: nat, expansion: nat)
    requires expansion >= 2
    ensures capacity * expansion >= 2 * capacity
  {
  }

  /** With an expansion of 1 all sub-filters are alike. */
  lemma {:induction false} TotalOfEqualFilters(p: Plan, n: nat)
    requires p.expansion == 1
    ensures p.CapAt(n) == p.start && p.Total(n) == p.start * n
  {
    if n > 0 {
      TotalOfEqualFilters(p, n - 1);
    }
  }

  /**
   The running total of a completed iteration, which is added up without a check of its own: it fits in
   64 bits if and only if the object expands by at least 2, or its equal sub-filters are few enough.
   */
  lemma TotalFits(p: Plan, limit: nat, i: nat)
    requires p.expansion > 0 && StepAt(p, limit, i) == Continue
    ensures p.Total(i + 1) <= I64_MAX <==> p.expansion >= 2 || p.start * (i + 1) <= I64_MAX
    ensures p.expansion >= 2 ==> p.Total(i + 1) < p.CapAt(i + 1)
  {
    if p.expansion >= 2 {
      TotalBelowNextCapacity(p, i + 1);
    } else {
      TotalOfEqualFilters(p, i + 1);
    }
  }

  // ---------- the simulation and the object that really grows ----------

  /** The size the simulation computed for index `n - 1` is the memory of the object with `n` sub-filters. */
  lemma SimulatedSizeIsMemoryUsage(env: Env, o: Object)
    requires Grown(env, o) && Unshrunk(o)
    ensures MemoryUsage(env, o) == SimulatedSize(PlanOf(env, o), |o.filters| - 1)
  {
    GrownTotals(env, o);
  }

  /** Why a scale-out that the simulation accepted is refused to an object with `n` sub-filters. */
  function StopReason(n: nat): Error {
    if n == I32_MAX then MaxNumScalingFilters else ExceedsMaxBloomSize
  }

  /**
   A full, grown object, with a vector of any capacity, whose next sub-filter passed the simulation:
   the tightening check and the capacity multiplication accept it. What can still refuse it is the
   count of sub-filters, and with validation the size with the vector as it really is.
   */
  lemma SimulatedStepWithAnyVector(env: Env, limit: nat, o: Object, item: string, validate: bool)
    requires Grown(env, o) && o.expansion > 0 && Cardinality(o) == Capacity(o)
    requires var n, p := |o.filters|, PlanOf(env, o);
             StepAt(p, limit, n - 1) == Continue && StepAt(p, limit, n) in {Continue, CapacityOverflow}
    ensures var n, p := |o.filters|, PlanOf(env, o);
            AddUnchecked(env, limit, o, item, validate).reply ==
            if n < I32_MAX && (validate ==> ObjectSize(o.vecCap) + p.Bytes(n + 1) <= limit) then Ok(1)
            else Err(StopReason(n))
  {
    hide CapacityAt;
    hide VecCapFor;
    var n, p := |o.filters|, PlanOf(env, o);
    FullMeansLastFull(env, o);
    NextCapacity(env, o);
    GrownTotals(env, o);
    assert p.Bytes(n + 1) == p.Bytes(n) + p.SizeAt(n);
    hide Grown;
    hide Cardinality;
    hide Capacity;
  }

  /**
   If the vector has never been shrunk, the size check is no obstacle either: the scale-out goes
   through for any item, with or without validation, and the memory it then has is the size the
   simulation computed.
   */
  lemma SimulatedStepSucceeds(env: Env, limit: nat, o: Object, item: string, validate: bool)
    requires Grown(env, o) && Unshrunk(o) && o.expansion > 0 && |o.filters| < I32_MAX
    requires Cardinality(o) == Capacity(o)
    requires var n, p := |o.filters|, PlanOf(env, o);
             StepAt(p, limit, n - 1) == Continue && StepAt(p, limit, n) in {Continue, CapacityOverflow}
    ensures var r := AddUnchecked(env, limit, o, item, validate);
            && r.reply == Ok(1)
            && |r.after.filters| == |o.filters| + 1
            && MemoryUsage(env, r.after) == SimulatedSize(PlanOf(env, o), |o.filters|)
  {
    hide CapacityAt;
    hide VecCapFor;
    hide AsI32;
    hide RawRate;
    hide FilterSize;
    var n, p := |o.filters|, PlanOf(env, o);
    var r := AddUnchecked(env, limit, o, item, validate);
    PushFollowsFormula(n);
    SimulatedStepWithAnyVector(env, limit, o, item, validate);
    FullMeansLastFull(env, o);
    AddUncheckedKeepsGrown(env, limit, o, item, validate);
    SimulatedSizeIsMemoryUsage(env, r.after);
  }

  /** An object without room left has its last sub-filter full. */
  lemma FullMeansLastFull(env: Env, o: Object)
    requires Grown(env, o)
    ensures Cardinality(o) == Capacity(o) <==>
            o.filters[|o.filters| - 1].numItems == o.filters[|o.filters| - 1].capacity
    ensures Capacity(o) - Cardinality(o) == o.filters[|o.filters| - 1].capacity - o.filters[|o.filters| - 1].numItems
  {
    var n, p := |o.filters|, PlanOf(env, o);
    GrownTotals(env, o);
    assert FilterFollowsPlan(env, o, n - 1);
    assert p.Total(n) == p.Total(n - 1) + p.CapAt(n - 1);
  }
}

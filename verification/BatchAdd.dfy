/** Adding many items in one command: validation up front, then adds that must not fail. */
module BatchAdd {
  import opened Platform
  import opened RawBloom
  import opened Vectors
  import opened ScalingObject
  import opened Simulator

  /** The expectation of `starting_capacity` and `seed`: there is a first sub-filter. */
  predicate HasFirst(o: Object) {
    o.filters != [] && o.filters[0].capacity >= 1
  }

  /** `BloomObject::validate_add_items`: nothing, or the error that adding `count` new items would meet. */
  function ValidateAddItems(env: Env, limit: nat, o: Object, count: nat): Option<Error>
    requires HasFirst(o)
  {
    if count == 0 then None
    else if Capacity(o) - Cardinality(o) >= count then None
    else if o.expansion == 0 then Some(NonScalingFilterFull)
    else match MaxScaledCapacity(PlanOf(env, o), limit, Cardinality(o) + count)
    case Ok(_) => None
    case Err(ValidateScaleToExceedsMaxSize) => Some(ExceedsMaxBloomSize)
    case Err(ValidateScaleToFalsePositiveInvalid) => Some(FalsePositiveReachesZero)
    case Err(other) => Some(other)
  }

  /** Item `i` is the first of its kind in the command and is not found in the object before it. */
  predicate IsNew(env: Env, o: Object, items: seq<string>, i: nat)
    requires i < |items|
  {
    items[i] !in items[..i] && !ItemExists(env, o, items[i])
  }

  function NewFlags(env: Env, o: Object, items: seq<string>): seq<bool> {
    seq(|items|, i requires 0 <= i < |items| => IsNew(env, o, items, i))
  }

  function CountTrue(flags: seq<bool>): (n: nat)
    ensures n <= |flags|
  {
    if flags == [] then 0
    else CountTrue(flags[..|flags| - 1]) + (if flags[|flags| - 1] then 1 else 0)
  }

  datatype BatchOutcome = BatchOutcome(after: Object, reply: Result<seq<int>>, added: bool)

  /** The first `k` items of a command, those flagged added without a look-up; an error ends it. */
  function AddFirst(env: Env, limit: nat, o: Object, items: seq<string>, flags: seq<bool>, validate: bool,
                    k: nat): BatchOutcome
    requires |flags| == |items| && k <= |items|
  {
    if k == 0 then BatchOutcome(o, Ok([]), false) else
    var before := AddFirst(env, limit, o, items, flags, validate, k - 1);
    if before.reply.Err? then before
    else if !flags[k - 1] then before.(reply := Ok(before.reply.value + [0]))
    else
      var r := AddUnchecked(env, limit, before.after, items[k - 1], validate);
      match r.reply
      case Err(e) => BatchOutcome(r.after, Err(e), before.added)
      case Ok(v) => BatchOutcome(r.after, Ok(before.reply.value + [v]), before.added || v == 1)
  }

  /** The multi-item branch of `handle_bloom_add`. */
  function HandleMulti(env: Env, limit: nat, o: Object, items: seq<string>, validate: bool): BatchOutcome
    requires HasFirst(o)
  {
    var flags := NewFlags(env, o, items);
    match ValidateAddItems(env, limit, o, CountTrue(flags))
    case Some(e) => BatchOutcome(o, Err(e), false)
    case None => AddFirst(env, limit, o, items, flags, validate, |items|)
  }

  lemma AddUncheckedKeepsFirst(env: Env, limit: nat, o: Object, item: string, validate: bool)
    requires HasFirst(o)
    ensures HasFirst(AddUnchecked(env, limit, o, item, validate).after)
  {
  }

  lemma {:induction false} AddFirstKeepsFirst(env: Env, limit: nat, o: Object, items: seq<string>, flags: seq<bool>,
                                              validate: bool, k: nat)
    requires HasFirst(o) && |flags| == |items| && k <= |items|
    ensures HasFirst(AddFirst(env, limit, o, items, flags, validate, k).after)
  {
    hide AddUnchecked;
    if k > 0 {
      AddFirstKeepsFirst(env, limit, o, items, flags, validate, k - 1);
      var before := AddFirst(env, limit, o, items, flags, validate, k - 1);
      AddUncheckedKeepsFirst(env, limit, before.after, items[k - 1], validate);
    }
  }

  // ---------- room for a target cardinality ----------

  /** Either the sub-filters at hand or the first `m` of the simulation hold `target` items. */
  ghost predicate Room(env: Env, limit: nat, o: Object, target: int, m: nat)
    requires HasFirst(o)
  {
    var p := PlanOf(env, o);
    target <= Capacity(o) || (o.expansion > 0 && m <= StopIndex(p, limit) && p.Total(m) >= target)
  }

  lemma ValidationMeansRoom(env: Env, limit: nat, o: Object, count: nat) returns (m: nat)
    requires Grown(env, o) && ValidateAddItems(env, limit, o, count) == None
    ensures Room(env, limit, o, Cardinality(o) + count, m)
  {
    m := 0;
    GrownTotals(env, o);
    if Capacity(o) - Cardinality(o) < count {
      m := AcceptedTargetIsReached(PlanOf(env, o), limit, Cardinality(o) + count);
    }
  }

  lemma CapacityNeverShrinks(env: Env, limit: nat, o: Object, item: string, validate: bool)
    requires Grown(env, o)
    ensures Capacity(AddUnchecked(env, limit, o, item, validate).after) >= Capacity(o)
  {
    hide CapacityAt;
    var o' := AddUnchecked(env, limit, o, item, validate).after;
    AddUncheckedKeepsGrown(env, limit, o, item, validate);
    GrownTotals(env, o);
    GrownTotals(env, o');
    TotalsIncrease(PlanOf(env, o), |o.filters|, |o'.filters|);
  }

  /** A full object with room for more has its next sub-filter accepted by the simulation. */
  lemma NextStepSimulated(env: Env, limit: nat, o: Object, target: int, m: nat)
    requires Grown(env, o) && Cardinality(o) == Capacity(o) < target && Room(env, limit, o, target, m)
    ensures o.expansion > 0
    ensures StepAt(PlanOf(env, o), limit, |o.filters| - 1) == Continue
    ensures StepAt(PlanOf(env, o), limit, |o.filters|) == Continue
  {
    GrownTotals(env, o);
    if m <= |o.filters| { TotalsIncrease(PlanOf(env, o), m, |o.filters|); }
  }

  /** If an add succeeds both with and without size validation, it does the same. */
  lemma ValidationOnlyRejects(env: Env, limit: nat, o: Object, item: string, validate: bool)
    requires AddUnchecked(env, limit, o, item, validate).reply.Ok?
    requires AddUnchecked(env, limit, o, item, !validate).reply.Ok?
    ensures AddUnchecked(env, limit, o, item, validate) == AddUnchecked(env, limit, o, item, !validate)
  {
    hide CalculateFpRate;
    hide AsI32;
    hide FilledIn;
    hide ScaledOut;
  }

  // ---------- adding with any vector ----------

  /**
   What stands between an object and its sub-filter `j` once the simulation has accepted it: the count of
   sub-filters, and with validation the size with the vector that pushing from capacity `vecCap` at `n`
   sub-filters has led to.
   */
  predicate ScaleOutFits(p: Plan, limit: nat, vecCap: nat, n: nat, validate: bool, j: nat) {
    j < I32_MAX && (validate ==> ObjectSize(PushedFrom(vecCap, n, j)) + p.Bytes(j + 1) <= limit)
  }

  /** `o'` is what some adds have made of `o`, each sub-filter they added having fitted. */
  ghost predicate Advanced(env: Env, limit: nat, o: Object, validate: bool, o': Object)
    requires Grown(env, o)
  {
    var n, n', p := |o.filters|, |o'.filters|, PlanOf(env, o);
    && Grown(env, o') && PlanOf(env, o') == p && SameSeed(o, o')
    && n <= n' && o'.vecCap == PushedFrom(o.vecCap, n, n')
    && Cardinality(o) <= Cardinality(o') && (Cardinality(o') == Cardinality(o) ==> o' == o)
    && forall j :: n <= j < n' ==> ScaleOutFits(p, limit, o.vecCap, n, validate, j)
  }

  /** An add that succeeds fills the last sub-filter or pushes one more onto the vector. */
  lemma VectorAfterAdd(env: Env, limit: nat, o: Object, item: string, validate: bool)
    requires o.filters != []
    ensures var r, n := AddUnchecked(env, limit, o, item, validate), |o.filters|;
            r.reply.Ok? ==> if o.filters[n - 1].numItems < o.filters[n - 1].capacity
                            then |r.after.filters| == n && r.after.vecCap == o.vecCap
                            else |r.after.filters| == n + 1 && r.after.vecCap == GrowVec(o.vecCap, n)
  {
    hide CalculateFpRate;
    hide AsI32;
    hide GrowVec;
  }

  /** The reply to one more add while there is room: only a scale-out that does not fit refuses it. */
  lemma ReplyWithRoom(env: Env, limit: nat, o: Object, item: string, validate: bool, target: int, m: nat)
    requires Grown(env, o) && Cardinality(o) < target && Room(env, limit, o, target, m)
    ensures var n, p := |o.filters|, PlanOf(env, o);
            AddUnchecked(env, limit, o, item, validate).reply ==
            if Cardinality(o) < Capacity(o)
               || (n < I32_MAX && (validate ==> ObjectSize(o.vecCap) + p.Bytes(n + 1) <= limit)) then Ok(1)
            else Err(StopReason(n))
  {
    hide CapacityAt;
    FullMeansLastFull(env, o);
    GrownTotals(env, o);
    if Cardinality(o) == Capacity(o) {
      NextStepSimulated(env, limit, o, target, m);
      hide Room;
      SimulatedStepWithAnyVector(env, limit, o, item, validate);
    }
  }

  lemma AdvancesByOne(env: Env, limit: nat, o: Object, validate: bool, now: Object, next: Object)
    requires Grown(env, o) && Advanced(env, limit, o, validate, now)
    requires Grown(env, next) && PlanOf(env, next) == PlanOf(env, now) && SameSeed(now, next)
    requires Cardinality(next) > Cardinality(now)
    requires var n := |now.filters|;
             || (|next.filters| == n && next.vecCap == now.vecCap)
             || (|next.filters| == n + 1 && next.vecCap == GrowVec(now.vecCap, n)
                 && ScaleOutFits(PlanOf(env, o), limit, o.vecCap, |o.filters|, validate, n))
    ensures Advanced(env, limit, o, validate, next)
  {
    hide Grown;
    hide GrowVec;
    hide ScaleOutFits;
    hide Cardinality;
  }

  /** One more add to an object that has advanced from `o`, while there is room. */
  lemma OneMoreAdvances(env: Env, limit: nat, o: Object, now: Object, item: string, validate: bool, target: int, m: nat)
    requires Grown(env, o) && Advanced(env, limit, o, validate, now)
    requires Cardinality(now) < target && Room(env, limit, now, target, m)
    ensures var r, n, p := AddUnchecked(env, limit, now, item, validate), |now.filters|, PlanOf(env, o);
            if Cardinality(now) < Capacity(now) || ScaleOutFits(p, limit, o.vecCap, |o.filters|, validate, n)
            then && r.reply == Ok(1) && Advanced(env, limit, o, validate, r.after)
                 && Cardinality(r.after) == Cardinality(now) + 1 && Room(env, limit, r.after, target, m)
            else r == AddOutcome(now, Err(StopReason(n)))
  {
    var r := AddUnchecked(env, limit, now, item, validate);
    ReplyWithRoom(env, limit, now, item, validate, target, m);
    VectorAfterAdd(env, limit, now, item, validate);
    AddUncheckedKeepsGrown(env, limit, now, item, validate);
    CapacityNeverShrinks(env, limit, now, item, validate);
    FullMeansLastFull(env, now);
    CapacityCoversCardinality(env, now);
    assert r.reply.Ok? ==> Room(env, limit, r.after, target, m) by {
      assert PlanOf(env, r.after).expansion == now.expansion;
      hide AddUnchecked;
      hide Grown;
    }
    hide Room;
    hide AddUnchecked;
    hide Grown;
    hide Cardinality;
    hide Capacity;
    hide StopReason;
    hide GrowVec;
    if r.reply.Ok? {
      AdvancesByOne(env, limit, o, validate, now, r.after);
    }
  }

  lemma CapacityCoversCardinality(env: Env, o: Object)
    requires Grown(env, o)
    ensures Cardinality(o) <= Capacity(o) == PlanOf(env, o).Total(|o.filters|)
  {
    GrownTotals(env, o);
  }

  // ---------- the batch ----------

  lemma CountOfPrefix(flags: seq<bool>, k: nat)
    requires k < |flags|
    ensures CountTrue(flags[..k + 1]) == CountTrue(flags[..k]) + (if flags[k] then 1 else 0)
  {
    assert flags[..k + 1][..k] == flags[..k];
  }

  lemma {:induction false} CountOfPrefixGrows(flags: seq<bool>, k: nat, n: nat)
    requires k <= n <= |flags|
    ensures CountTrue(flags[..k]) <= CountTrue(flags[..n])
  {
    if k < n {
      CountOfPrefix(flags, n - 1);
      CountOfPrefixGrows(flags, k, n - 1);
    }
  }

  function OnesAndZeros(flags: seq<bool>): seq<int> {
    seq(|flags|, i requires 0 <= i < |flags| => if flags[i] then 1 else 0)
  }

  lemma OnesOfPrefix(flags: seq<bool>, k: nat)
    requires k < |flags|
    ensures OnesAndZeros(flags[..k + 1]) == OnesAndZeros(flags[..k]) + [if flags[k] then 1 else 0]
  {
  }

  /**
   Adding the first `k` items of a batch for which there is room. It goes through, or it stops at the
   first scale-out that does not fit, with everything before it done.
   */
  lemma {:induction false} PrefixAdvances(env: Env, limit: nat, o: Object, items: seq<string>, flags: seq<bool>,
                                          validate: bool, k: nat, m: nat)
    requires Grown(env, o) && |flags| == |items| && k <= |items|
    requires Room(env, limit, o, Cardinality(o) + CountTrue(flags), m)
    ensures var r, target := AddFirst(env, limit, o, items, flags, validate, k), Cardinality(o) + CountTrue(flags[..k]);
            && Advanced(env, limit, o, validate, r.after)
            && (r.added <==> Cardinality(r.after) > Cardinality(o))
            && Room(env, limit, r.after, Cardinality(o) + CountTrue(flags), m)
            && (r.reply.Ok? ==> r.reply.value == OnesAndZeros(flags[..k]) && Cardinality(r.after) == target)
            && (r.reply.Err? ==>
                  && Cardinality(r.after) == Capacity(r.after) < target
                  && r.reply.error == StopReason(|r.after.filters|)
                  && !ScaleOutFits(PlanOf(env, o), limit, o.vecCap, |o.filters|, validate, |r.after.filters|))
  {
    hide CapacityAt;
    hide Grown;
    hide AddUnchecked;
    hide Room;
    hide Cardinality;
    hide Capacity;
    hide ScaleOutFits;
    hide StopReason;
    if k == 0 {
      assert OnesAndZeros(flags[..0]) == [];
    } else {
      PrefixAdvances(env, limit, o, items, flags, validate, k - 1, m);
      CountOfPrefix(flags, k - 1);
      OnesOfPrefix(flags, k - 1);
      hide OnesAndZeros;
      var before := AddFirst(env, limit, o, items, flags, validate, k - 1);
      assert Cardinality(o) <= Cardinality(before.after);
      assert Cardinality(before.after) <= Capacity(before.after) by { CapacityCoversCardinality(env, before.after); }
      hide PlanOf;
      hide Advanced;
      if flags[k - 1] && before.reply.Ok? {
        CountOfPrefixGrows(flags, k, |flags|);
        assert flags[..|flags|] == flags;
        hide CountTrue;
        OneMoreAdvances(env, limit, o, before.after, items[k - 1], validate, Cardinality(o) + CountTrue(flags), m);
      }
    }
  }

  /** Every item of an accepted prefix is found afterwards, and so is whatever was found before. */
  lemma {:induction false} PrefixRemembers(env: Env, limit: nat, o: Object, items: seq<string>, flags: seq<bool>,
                                           validate: bool, k: nat, other: string)
    requires o.filters != [] && |flags| == |items| && k <= |items|
    ensures var r := AddFirst(env, limit, o, items, flags, validate, k);
            && r.after.filters != []
            && (ItemExists(env, o, other) ==> ItemExists(env, r.after, other))
            && (r.reply.Ok? ==> forall i :: 0 <= i < k && flags[i] ==> ItemExists(env, r.after, items[i]))
  {
    hide ItemExists;
    if k > 0 {
      PrefixRemembers(env, limit, o, items, flags, validate, k - 1, other);
      var before := AddFirst(env, limit, o, items, flags, validate, k - 1);
      AddUncheckedRemembers(env, limit, before.after, items[k - 1], validate, other);
      forall i | 0 <= i < k - 1 && flags[i] && before.reply.Ok?
        ensures ItemExists(env, AddFirst(env, limit, o, items, flags, validate, k).after, items[i])
      {
        AddUncheckedRemembers(env, limit, before.after, items[k - 1], validate, items[i]);
      }
    }
  }

  /**
   A batch on an object with a vector of any capacity. Refused by validation, it changes nothing. Once
   accepted, it goes through if and only if every sub-filter that its new items reach fits; otherwise
   it stops half-way, at the first one that does not, with all items up to there added.
   */
  lemma BatchWithAnyVector(env: Env, limit: nat, o: Object, items: seq<string>, validate: bool)
    requires Grown(env, o)
    ensures var r, flags := HandleMulti(env, limit, o, items, validate), NewFlags(env, o, items);
            var n, p, target := |o.filters|, PlanOf(env, o), Cardinality(o) + CountTrue(flags);
            var refused := ValidateAddItems(env, limit, o, CountTrue(flags));
            if refused.Some? then r == BatchOutcome(o, Err(refused.value), false) else
            && (r.reply.Ok? <==>
                  forall j :: n <= j && p.Total(j) < target ==> ScaleOutFits(p, limit, o.vecCap, n, validate, j))
            && Advanced(env, limit, o, validate, r.after) && (r.added <==> Cardinality(r.after) > Cardinality(o))
            && (r.reply.Ok? ==> && r.reply.value == OnesAndZeros(flags) && Cardinality(r.after) == target
                                && forall item :: item in items ==> ItemExists(env, r.after, item))
            && (r.reply.Err? ==> && Cardinality(r.after) == Capacity(r.after) < target
                                 && r.reply.error == StopReason(|r.after.filters|)
                                 && !ScaleOutFits(p, limit, o.vecCap, n, validate, |r.after.filters|))
  {
    hide CapacityAt;
    var flags, n, p := NewFlags(env, o, items), |o.filters|, PlanOf(env, o);
    if ValidateAddItems(env, limit, o, CountTrue(flags)) == None {
      var m := ValidationMeansRoom(env, limit, o, CountTrue(flags));
      PrefixAdvances(env, limit, o, items, flags, validate, |items|, m);
      assert flags[..|items|] == flags;
      AllItemsRemembered(env, limit, o, items, validate);
      var r := HandleMulti(env, limit, o, items, validate);
      CapacityCoversCardinality(env, r.after);
      hide ScaleOutFits;
      hide Grown;
      hide StopReason;
      forall j | r.reply.Ok? && n <= j && p.Total(j) < Cardinality(r.after)
        ensures ScaleOutFits(p, limit, o.vecCap, n, validate, j)
      {
        if |r.after.filters| <= j { TotalsIncrease(p, |r.after.filters|, j); }
      }
    }
  }

  // ---------- batches on an object that has never been shrunk ----------

  /** Without defragmentation only the count of sub-filters can stop what the simulation accepted. */
  lemma UnshrunkFits(env: Env, limit: nat, o: Object, validate: bool, target: int, m: nat, j: nat)
    requires Grown(env, o) && Unshrunk(o) && Room(env, limit, o, target, m)
    requires |o.filters| <= j && PlanOf(env, o).Total(j) < target
    ensures ScaleOutFits(PlanOf(env, o), limit, o.vecCap, |o.filters|, validate, j) <==> j < I32_MAX
  {
    hide CapacityAt;
    var n, p := |o.filters|, PlanOf(env, o);
    CapacityCoversCardinality(env, o);
    TotalsIncrease(p, n, j);
    if m <= j { TotalsIncrease(p, m, j); }
    assert StepAt(p, limit, j) == Continue;
    PushedFromFormula(n, j);
    PushFollowsFormula(j);
  }

  /** An object that has advanced without being shrunk has its vector as pushing from creation leaves it. */
  lemma AdvancedIsUnshrunk(env: Env, limit: nat, o: Object, validate: bool, o': Object)
    requires Grown(env, o) && Unshrunk(o) && Advanced(env, limit, o, validate, o')
    ensures Grown(env, o') && Unshrunk(o') && PlanOf(env, o') == PlanOf(env, o)
  {
    PushedFromFormula(|o.filters|, |o'.filters|);
  }

  /** Then each add is the same with and without size validation. */
  lemma SameWithoutValidation(env: Env, limit: nat, o: Object, item: string, validate: bool, target: int, m: nat)
    requires Grown(env, o) && Unshrunk(o) && Cardinality(o) < target && Room(env, limit, o, target, m)
    ensures AddUnchecked(env, limit, o, item, validate) == AddUnchecked(env, limit, o, item, !validate)
  {
    hide CapacityAt;
    var n := |o.filters|;
    ReplyWithRoom(env, limit, o, item, validate, target, m);
    ReplyWithRoom(env, limit, o, item, !validate, target, m);
    CapacityCoversCardinality(env, o);
    if Cardinality(o) == Capacity(o) { UnshrunkFits(env, limit, o, true, target, m, n); }
    AddUncheckedKeepsGrown(env, limit, o, item, validate);
    AddUncheckedKeepsGrown(env, limit, o, item, !validate);
    if AddUnchecked(env, limit, o, item, validate).reply.Ok? {
      ValidationOnlyRejects(env, limit, o, item, validate);
    }
    hide AddUnchecked;
    hide Grown;
  }

  lemma {:induction false} PrefixWithoutValidation(env: Env, limit: nat, o: Object, items: seq<string>, flags: seq<bool>,
                                                   validate: bool, k: nat, m: nat)
    requires Grown(env, o) && Unshrunk(o) && |flags| == |items| && k <= |items|
    requires Room(env, limit, o, Cardinality(o) + CountTrue(flags), m)
    ensures AddFirst(env, limit, o, items, flags, validate, k) == AddFirst(env, limit, o, items, flags, !validate, k)
  {
    hide CapacityAt;
    hide Grown;
    hide AddUnchecked;
    hide Room;
    hide Cardinality;
    hide Unshrunk;
    if k > 0 {
      PrefixWithoutValidation(env, limit, o, items, flags, validate, k - 1, m);
      var before := AddFirst(env, limit, o, items, flags, validate, k - 1);
      if flags[k - 1] && before.reply.Ok? {
        PrefixAdvances(env, limit, o, items, flags, validate, k - 1, m);
        AdvancedIsUnshrunk(env, limit, o, validate, before.after);
        CountOfPrefix(flags, k - 1);
        CountOfPrefixGrows(flags, k, |flags|);
        assert flags[..|flags|] == flags;
        hide Advanced;
        SameWithoutValidation(env, limit, before.after, items[k - 1], validate, Cardinality(o) + CountTrue(flags), m);
      }
    }
  }

  /** So a batch comes out the same with and without size validation. */
  lemma BatchWithoutValidation(env: Env, limit: nat, o: Object, items: seq<string>, validate: bool)
    requires Grown(env, o) && Unshrunk(o)
    ensures HandleMulti(env, limit, o, items, validate) == HandleMulti(env, limit, o, items, !validate)
  {
    var flags := NewFlags(env, o, items);
    assert HasFirst(o) && |flags| == |items|;
    hide NewFlags;
    hide ValidateAddItems;
    hide Grown;
    hide Unshrunk;
    hide Room;
    if ValidateAddItems(env, limit, o, CountTrue(flags)) == None {
      var m := ValidationMeansRoom(env, limit, o, CountTrue(flags));
      PrefixWithoutValidation(env, limit, o, items, flags, validate, |items|, m);
    }
  }

  /**
   A batch is all or nothing. It is refused when validation refuses it, and then nothing has changed.
   Otherwise, as long as its items need no more than the largest number of sub-filters, which the
   simulation does not count, every flagged add answers 1 and every other item 0, the cardinality rises
   by the number of ones, and every item of the command is found afterwards: the branch for an add that
   fails after validation is never taken. Skipping the size validation changes nothing in any case.
   */
  lemma BatchIsAtomic(env: Env, limit: nat, o: Object, items: seq<string>, validate: bool)
    requires Grown(env, o) && Unshrunk(o)
    ensures var r, flags := HandleMulti(env, limit, o, items, validate), NewFlags(env, o, items);
            var refused, target := ValidateAddItems(env, limit, o, CountTrue(flags)), Cardinality(o) + CountTrue(flags);
            && (r.reply.Err? <==> refused.Some? || target > PlanOf(env, o).Total(I32_MAX))
            && (refused.Some? ==> r == BatchOutcome(o, Err(refused.value), false))
            && (refused == None && r.reply.Err? ==> && r.reply.error == MaxNumScalingFilters
                                                    && Cardinality(r.after) == PlanOf(env, o).Total(I32_MAX) < target)
            && (r.reply.Ok? ==> && r.reply.value == OnesAndZeros(flags)
                                && Cardinality(r.after) == target
                                && forall item :: item in items ==> ItemExists(env, r.after, item))
            && (r.added <==> Cardinality(r.after) > Cardinality(o)) && (!r.added ==> r.after == o)
            && Grown(env, r.after) && Unshrunk(r.after) && PlanOf(env, r.after) == PlanOf(env, o)
            && HandleMulti(env, limit, o, items, !validate) == r
  {
    hide CapacityAt;
    var flags, n, p := NewFlags(env, o, items), |o.filters|, PlanOf(env, o);
    BatchWithAnyVector(env, limit, o, items, validate);
    BatchWithoutValidation(env, limit, o, items, validate);
    hide HandleMulti;
    hide NewFlags;
    hide ItemExists;
    hide ScaleOutFits;
    hide ValidateAddItems;
    if ValidateAddItems(env, limit, o, CountTrue(flags)) == None {
      var r, target := HandleMulti(env, limit, o, items, validate), Cardinality(o) + CountTrue(flags);
      var m := ValidationMeansRoom(env, limit, o, CountTrue(flags));
      AdvancedIsUnshrunk(env, limit, o, validate, r.after);
      CapacityCoversCardinality(env, r.after);
      StopsAtFilterLimit(env, limit, o, validate, target, m, r.after, r.reply.Err?);
      hide Room;
      hide Grown;
    }
  }

  /** Where a batch that validation accepted stops: nowhere, or with the largest number of sub-filters. */
  lemma StopsAtFilterLimit(env: Env, limit: nat, o: Object, validate: bool, target: int, m: nat, o': Object, stopped: bool)
    requires Grown(env, o) && Unshrunk(o) && Room(env, limit, o, target, m) && Advanced(env, limit, o, validate, o')
    requires if stopped then && Cardinality(o') == Capacity(o') < target
                             && !ScaleOutFits(PlanOf(env, o), limit, o.vecCap, |o.filters|, validate, |o'.filters|)
             else Cardinality(o') == target
    ensures stopped <==> target > PlanOf(env, o).Total(I32_MAX)
    ensures stopped ==> |o'.filters| == I32_MAX
  {
    hide CapacityAt;
    hide ScaleOutFits;
    var p, n' := PlanOf(env, o), |o'.filters|;
    CapacityCoversCardinality(env, o');
    if stopped {
      UnshrunkFits(env, limit, o, validate, target, m, n');
    } else {
      TotalsIncrease(p, n', I32_MAX);
    }
  }

  /** In an accepted batch an item that was not flagged was there before or comes earlier in the command. */
  lemma AllItemsRemembered(env: Env, limit: nat, o: Object, items: seq<string>, validate: bool)
    requires HasFirst(o)
    ensures var flags := NewFlags(env, o, items);
            var r := AddFirst(env, limit, o, items, flags, validate, |items|);
            r.reply.Ok? ==> forall item :: item in items ==> ItemExists(env, r.after, item)
  {
    var flags := NewFlags(env, o, items);
    var r := AddFirst(env, limit, o, items, flags, validate, |items|);
    hide ItemExists;
    if r.reply.Ok? {
      forall item | item in items ensures ItemExists(env, r.after, item) {
        PrefixRemembers(env, limit, o, items, flags, validate, |items|, item);
        var i := FirstIndexOf(items, item);
        assert flags[i] == IsNew(env, o, items, i);
      }
    }
  }

  lemma FirstIndexOf(items: seq<string>, item: string) returns (i: nat)
    requires item in items
    ensures i < |items| && items[i] == item && item !in items[..i]
  {
    i := 0;
    while items[i] != item
      invariant 0 <= i < |items| && item !in items[..i] && item in items[i..]
      decreases |items| - i
    {
      i := i + 1;
    }
  }
}

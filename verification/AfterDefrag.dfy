/**
 Batches on an object whose vector was cut down by defragmentation and has grown since. Its capacity is
 then not the one the simulation counts with. `BatchWithAnyVector` says exactly when a batch that
 validation accepted stops half-way; here is one that does, and what becomes of a replica.
 */
module AfterDefrag {
  import opened Platform
  import opened RawBloom
  import opened Vectors
  import opened ScalingObject
  import opened Simulator
  import opened BatchAdd
  import opened Lifecycle
  import opened SmallObjects

  // ---------- a replica with another vector ----------

  /** The same object but for the capacity of its vector, which the digest does not cover. */
  ghost predicate SameButVector(a: Object, b: Object) {
    b == a.(vecCap := b.vecCap)
  }

  /** What passes validation on one side is done alike on a side that does not validate. */
  lemma AddReplaysButVector(env: Env, limit: nat, a: Object, b: Object, item: string)
    requires SameButVector(a, b) && AddUnchecked(env, limit, a, item, true).reply.Ok?
    ensures var ra, rb := AddUnchecked(env, limit, a, item, true), AddUnchecked(env, limit, b, item, false);
            ra.reply == rb.reply && SameButVector(ra.after, rb.after)
  {
    hide CalculateFpRate;
    hide AsI32;
    hide NewFilter;
    hide Insert;
  }

  lemma {:induction false} PrefixReplaysButVector(env: Env, limit: nat, a: Object, b: Object, items: seq<string>,
                                                  flags: seq<bool>, k: nat)
    requires SameButVector(a, b) && |flags| == |items| && k <= |items|
    requires AddFirst(env, limit, a, items, flags, true, k).reply.Ok?
    ensures var ra, rb := AddFirst(env, limit, a, items, flags, true, k), AddFirst(env, limit, b, items, flags, false, k);
            ra.reply == rb.reply && SameButVector(ra.after, rb.after)
  {
    hide AddUnchecked;
    hide SameButVector;
    if k > 0 {
      PrefixReplaysButVector(env, limit, a, b, items, flags, k - 1);
      var before := AddFirst(env, limit, a, items, flags, true, k - 1);
      if flags[k - 1] {
        AddReplaysButVector(env, limit, before.after, AddFirst(env, limit, b, items, flags, false, k - 1).after, items[k - 1]);
      }
    } else {
      assert SameButVector(a, b);
    }
  }

  lemma SameFlags(env: Env, o: Object, replica: Object, items: seq<string>)
    requires replica.filters == o.filters
    ensures NewFlags(env, replica, items) == NewFlags(env, o, items)
  {
    forall item ensures ItemExists(env, replica, item) == ItemExists(env, o, item) {
      SameBloomsSameItems(env, o, replica, item);
    }
  }

  /** Without size validation only the largest number of sub-filters stops what validation accepted. */
  lemma UnvalidatedTakesAll(env: Env, limit: nat, o: Object, items: seq<string>)
    requires Grown(env, o)
    requires ValidateAddItems(env, limit, o, CountTrue(NewFlags(env, o, items))) == None
    requires Cardinality(o) + CountTrue(NewFlags(env, o, items)) <= PlanOf(env, o).Total(I32_MAX)
    ensures var r := HandleMulti(env, limit, o, items, false);
            r.reply.Ok? && Cardinality(r.after) == Cardinality(o) + CountTrue(NewFlags(env, o, items))
  {
    hide CapacityAt;
    var p, target := PlanOf(env, o), Cardinality(o) + CountTrue(NewFlags(env, o, items));
    BatchWithAnyVector(env, limit, o, items, false);
    hide Grown;
    hide NewFlags;
    hide Advanced;
    forall j | p.Total(j) < target ensures ScaleOutFits(p, limit, o.vecCap, |o.filters|, false, j) {
      if I32_MAX <= j { TotalsIncrease(p, I32_MAX, j); }
    }
  }

  lemma BatchReplaysButVector(env: Env, limit: nat, a: Object, b: Object, items: seq<string>)
    requires HasFirst(a) && SameButVector(a, b) && HandleMulti(env, limit, a, items, true).reply.Ok?
    requires ValidateAddItems(env, limit, b, CountTrue(NewFlags(env, b, items))) == None
    ensures SameButVector(HandleMulti(env, limit, a, items, true).after, HandleMulti(env, limit, b, items, false).after)
  {
    SameFlags(env, a, b, items);
    var flags := NewFlags(env, a, items);
    assert |flags| == |items|;
    hide NewFlags;
    hide AddFirst;
    hide ValidateAddItems;
    PrefixReplaysButVector(env, limit, a, b, items, flags, |items|);
  }

  /**
   A batch on a defragmented primary and its verbatim replay, without size validation, on a replica with
   the same object in another vector: the replica adds every item. The two stay the same if and only if
   every sub-filter that the items reach fits with the primary's vector as it will be.
   */
  lemma PartialBatchDiverges(env: Env, limit: nat, o: Object, replica: Object, items: seq<string>)
    requires Grown(env, o) && SameButVector(o, replica)
    requires ValidateAddItems(env, limit, o, CountTrue(NewFlags(env, o, items))) == None
    requires Cardinality(o) + CountTrue(NewFlags(env, o, items)) <= PlanOf(env, o).Total(I32_MAX)
    ensures HasFirst(replica)
    ensures var p, r := HandleMulti(env, limit, o, items, true), HandleMulti(env, limit, replica, items, false);
            var n, plan, target := |o.filters|, PlanOf(env, o), Cardinality(o) + CountTrue(NewFlags(env, o, items));
            && r.reply.Ok? && Cardinality(r.after) == target
            && (SameButVector(p.after, r.after) <==> p.reply.Ok?)
            && (SameButVector(p.after, r.after) <==>
                  forall j :: n <= j && plan.Total(j) < target ==> ScaleOutFits(plan, limit, o.vecCap, n, true, j))
  {
    hide CapacityAt;
    ReshapedVectorKeepsGrown(env, o, replica.vecCap);
    SameFlags(env, o, replica, items);
    UnvalidatedTakesAll(env, limit, replica, items);
    BatchWithAnyVector(env, limit, o, items, true);
    if HandleMulti(env, limit, o, items, true).reply.Ok? { BatchReplaysButVector(env, limit, o, replica, items); }
    hide HandleMulti;
    hide ValidateAddItems;
    hide Grown;
    hide NewFlags;
    hide Advanced;
    hide StopReason;
    hide ScaleOutFits;
    hide ItemExists;
  }

  // ---------- a batch that stops half-way ----------

  lemma SmallTotalAtLimit()
    ensures PlanFor(Small()).Total(I32_MAX) == I32_MAX
  {
    SmallTotals(I32_MAX);
  }

  /** Of five sub-filters that two items are added to, the batch can only have stopped at six. */
  lemma StopsAfterOne(env: Env, limit: nat, o: Object, o': Object)
    requires env == EnvOf(Small()) && o == Row(Small(), 5, 5) && Grown(env, o) && Advanced(env, limit, o, true, o')
    requires Capacity(o') == Cardinality(o') < 7 && PlanOf(env, o) == PlanFor(Small())
    requires ScaleOutFits(PlanFor(Small()), limit, 5, 5, true, 5)
    requires !ScaleOutFits(PlanFor(Small()), limit, 5, 5, true, |o'.filters|)
    ensures |o'.filters| == Cardinality(o') == 6
  {
    CapacityCoversCardinality(env, o');
    SmallTotals(|o'.filters|);
    hide ScaleOutFits;
  }

  /** Seven small sub-filters pass the simulation under 290 bytes, so two more are accepted after five. */
  lemma SevenAccepted()
    ensures var env, o, items := EnvOf(Small()), Row(Small(), 5, 5), [ItemOf(5), ItemOf(6)];
            && Grown(env, o) && HasFirst(o) && Cardinality(o) == 5 && PlanOf(env, o) == PlanFor(Small())
            && CountTrue(NewFlags(env, o, items)) == 2 && ValidateAddItems(env, 290, o, 2) == None
  {
    forall j | 0 <= j < 7 ensures StepAt(PlanFor(Small()), 290, j) == Continue {
      SmallRates(j);
      SmallTotals(j + 1);
      SmallVectors(j + 1);
    }
    SmallLasts(5);
    AcceptsTwo(Small(), 290, 5, 5);
    RowIsGrown(Small(), 5, 5);
  }

  /** Under 290 bytes the sixth small sub-filter fits, and the seventh does not. */
  lemma SixthFitsSeventhNot()
    ensures ScaleOutFits(PlanFor(Small()), 290, 5, 5, true, 5) && !ScaleOutFits(PlanFor(Small()), 290, 5, 5, true, 6)
    ensures PlanFor(Small()).Total(6) == 6
  {
    SmallTotals(6);
    SmallTotals(7);
    assert PushedFrom(5, 5, 5) == 5 && PushedFrom(5, 5, 6) == GrowVec(PushedFrom(5, 5, 5), 5) == 10;
  }

  /** The batch on five sub-filters in a vector of five boxes. */
  lemma StopsHalfWay()
    ensures HasFirst(Row(Small(), 5, 5))
    ensures var r := HandleMulti(EnvOf(Small()), 290, Row(Small(), 5, 5), [ItemOf(5), ItemOf(6)], true);
            r.reply == Err(ExceedsMaxBloomSize) && r.added && Cardinality(r.after) == 6
  {
    var env, o, items := EnvOf(Small()), Row(Small(), 5, 5), [ItemOf(5), ItemOf(6)];
    SevenAccepted();
    SixthFitsSeventhNot();
    hide PlanFor;
    hide NewFlags;
    hide ScaleOutFits;
    hide Row;
    hide Grown;
    hide ItemExists;
    hide CapacityAt;
    BatchWithAnyVector(env, 290, o, items, true);
    StopsAfterOne(env, 290, o, HandleMulti(env, 290, o, items, true).after);
  }

  /**
   Creation, five BF.ADDs, a full defragmentation, then a command with two new items that validation
   accepts: the first is added, the second is refused because the vector now has ten boxes where the
   simulation counted eight. A replica that was never defragmented adds both.
   */
  lemma ShrunkBatchCanBePartial() returns (env: Env, limit: nat, created: Object, o: Object, items: seq<string>)
    ensures NewReserved(env, limit, Half(), Half(), 1, 1, SmallSeed(), true, true) == Ok(created)
    ensures var grown := Run(env, created, Adds(limit, 0, 5));
            o == Defragmented(grown, |grown.filters|) && HasFirst(grown) && HasFirst(o) && |items| == 2
            && ValidateAddItems(env, limit, o, CountTrue(NewFlags(env, o, items))) == None
            && var r := HandleMulti(env, limit, o, items, true);
            && r.reply == Err(ExceedsMaxBloomSize) && r.added && Cardinality(r.after) == Cardinality(o) + 1
            && var replica := HandleMulti(env, limit, grown, items, false);
            && replica.reply.Ok? && Cardinality(replica.after) == Cardinality(o) + 2
  {
    env, limit, created, o, items := EnvOf(Small()), 290, Empty(Small()), Row(Small(), 5, 5), [ItemOf(5), ItemOf(6)];
    SmallVectors(5);
    SmallLasts(5);
    SmallTotals(5);
    RowIsReached(Small(), limit, 5);
    SevenAccepted();
    StopsHalfWay();
    SmallTotalAtLimit();
    hide PlanFor;
    hide EnvOf;
    hide Run;
    hide NewReserved;
    hide NewFlags;
    PartialBatchDiverges(env, limit, o, Row(Small(), 5, 8), items);
  }
}

/**
 The largest number of sub-filters, which growth respects and the simulation does not count: a batch that
 validation accepts and that stops there, on an object that BF.ADDs lead to.
 */
module FilterLimit {
  import opened Platform
  import opened RawBloom
  import opened Vectors
  import opened ScalingObject
  import opened Simulator
  import opened BatchAdd
  import opened SmallObjects

  /** As many sub-filters as there can be, and one more, pass the simulation under the largest memory limit. */
  lemma WideStep(j: nat)
    requires j <= I32_MAX
    ensures StepAt(PlanFor(Wide()), I64_MAX, j) == Continue
  {
    WideLasts(j + 1);
    BytesOfEqualFilters(Wide(), j + 1);
    TotalOfEqualFilters(PlanFor(Wide()), j + 1);
    assert VecCapFor(j + 1) <= 2 * (j + 4);
    hide VecCapFor;
  }

  /**
   Creation and 2^31 - 2 BF.ADDs of new items, then a command with two more that validation accepts: the
   first is added, the second is refused because there can be no more sub-filters.
   */
  lemma FilterLimitCutsBatch() returns (env: Env, limit: nat, created: Object, o: Object, items: seq<string>)
    ensures limit <= I64_MAX
    ensures NewReserved(env, limit, Half(), Half(), 1, 1, SmallSeed(), true, true) == Ok(created)
    ensures o == Run(env, created, Adds(limit, 0, I32_MAX - 1)) && HasFirst(o) && |items| == 2
    ensures ValidateAddItems(env, limit, o, CountTrue(NewFlags(env, o, items))) == None
    ensures var r := HandleMulti(env, limit, o, items, true);
            r.reply == Err(MaxNumScalingFilters) && r.added && Cardinality(r.after) == Cardinality(o) + 1
  {
    var n := I32_MAX - 1;
    env, limit, created, o := EnvOf(Wide()), I64_MAX, Empty(Wide()), Row(Wide(), n, VecCapFor(n));
    items := [ItemOf(n), ItemOf(n + 1)];
    WideLasts(n);
    WideStep(n - 1);
    VectorsGrow(n, n);
    RowIsReached(Wide(), limit, n);
    forall j | 0 <= j < n + 2 ensures StepAt(PlanFor(Wide()), limit, j) == Continue { WideStep(j); }
    AcceptsTwo(Wide(), limit, n, VecCapFor(n));
    RowIsGrown(Wide(), n, VecCapFor(n));
    TotalOfEqualFilters(PlanFor(Wide()), I32_MAX);
    hide PlanFor;
    hide EnvOf;
    hide Row;
    hide Run;
    hide NewReserved;
    hide NewFlags;
    hide VecCapFor;
    hide StepAt;
    BatchIsAtomic(env, limit, o, items, true);
  }
}

/**
 What adding answers, told by the sub-filters, the plan and the numbers of an object: which items count as
 new, what is refused and with which error.
 */
module Replies {
  import opened Platform
  import opened RawBloom
  import opened Vectors
  import opened ScalingObject
  import opened Simulator
  import opened BatchAdd

  /** Some sub-filter takes the item for one of its own. */
  ghost predicate SomeFilterFinds(env: Env, o: Object, item: string) {
    exists k :: 0 <= k < |o.filters| && Check(env, o.filters[k].bloom, item)
  }

  lemma FoundInSomeFilter(env: Env, o: Object, item: string)
    ensures ItemExists(env, o, item) <==> SomeFilterFinds(env, o, item)
  {
  }

  // ---------- one item ----------

  /** The answer to one item, branch by branch in the order of the source, and what becomes of the object. */
  ghost predicate SingleAnswer(env: Env, limit: nat, o: Object, item: string, validate: bool, reply: Result<int>, after: Object)
    requires Grown(env, o)
  {
    var n, p := |o.filters|, PlanOf(env, o);
    && reply == (if SomeFilterFinds(env, o, item) then Ok(0)
                 else if Cardinality(o) < Capacity(o) then Ok(1)
                 else if o.expansion == 0 then Err(NonScalingFilterFull)
                 else if n == I32_MAX then Err(MaxNumScalingFilters)
                 else if p.RateAt(n) <= MIN_POSITIVE then Err(FalsePositiveReachesZero)
                 else if p.CapAt(n) > I64_MAX then Err(BadCapacity)
                 else if validate && ObjectSize(o.vecCap) + p.Bytes(n + 1) > limit then Err(ExceedsMaxBloomSize)
                 else Ok(1))
    && (reply != Ok(1) ==> after == o)
    && (reply == Ok(1) ==> && Grown(env, after) && PlanOf(env, after) == p && SomeFilterFinds(env, after, item)
                           && Cardinality(after) == Cardinality(o) + 1)
  }

  lemma SingleIsAnswered(env: Env, limit: nat, o: Object, item: string, validate: bool)
    requires Grown(env, o)
    ensures var r := AddItem(env, limit, o, item, validate);
            SingleAnswer(env, limit, o, item, validate, r.reply, r.after)
  {
    hide CapacityAt;
    var n, p := |o.filters|, PlanOf(env, o);
    AddUncheckedKeepsGrown(env, limit, o, item, validate);
    AddUncheckedRemembers(env, limit, o, item, validate, item);
    UncheckedReply(env, limit, o, item, validate);
    hide AddUnchecked;
    hide Grown;
    hide Cardinality;
    hide Capacity;
  }

  lemma UncheckedReply(env: Env, limit: nat, o: Object, item: string, validate: bool)
    requires Grown(env, o)
    ensures var n, p := |o.filters|, PlanOf(env, o);
            AddUnchecked(env, limit, o, item, validate).reply ==
            if Cardinality(o) < Capacity(o) then Ok(1)
            else if o.expansion == 0 then Err(NonScalingFilterFull)
            else if n == I32_MAX then Err(MaxNumScalingFilters)
            else if p.RateAt(n) <= MIN_POSITIVE then Err(FalsePositiveReachesZero)
            else if p.CapAt(n) > I64_MAX then Err(BadCapacity)
            else if validate && ObjectSize(o.vecCap) + p.Bytes(n + 1) > limit then Err(ExceedsMaxBloomSize)
            else Ok(1)
  {
    hide CapacityAt;
    hide VecCapFor;
    var n, p := |o.filters|, PlanOf(env, o);
    FullMeansLastFull(env, o);
    NextCapacity(env, o);
    GrownTotals(env, o);
    assert p.Bytes(n + 1) == p.Bytes(n) + p.SizeAt(n);
    hide Grown;
    hide Cardinality;
    hide Capacity;
  }

  // ---------- the items of a batch that are new ----------

  /** The different items of a command that no sub-filter finds. */
  ghost function NewItems(env: Env, o: Object, items: seq<string>): set<string> {
    set s | s in items && !SomeFilterFinds(env, o, s)
  }

  lemma NewItemsOfPrefix(env: Env, o: Object, items: seq<string>, k: nat)
    requires k < |items|
    ensures NewItems(env, o, items[..k + 1]) ==
            NewItems(env, o, items[..k]) + (if SomeFilterFinds(env, o, items[k]) then {} else {items[k]})
    ensures items[k] in NewItems(env, o, items[..k]) <==> items[k] in items[..k] && !SomeFilterFinds(env, o, items[k])
  {
    assert items[..k + 1] == items[..k] + [items[k]];
  }

  /** The flags mark the first occurrences of items that no sub-filter finds, and are as many as those items. */
  lemma FlagsOfNew(env: Env, o: Object, items: seq<string>, i: nat)
    requires i < |items|
    ensures NewFlags(env, o, items)[i] <==> items[i] !in items[..i] && !SomeFilterFinds(env, o, items[i])
  {
  }

  lemma NoNewItems(env: Env, o: Object)
    ensures NewItems(env, o, []) == {}
  {
  }

  /** One more item counts as new exactly if the set of new items grows. */
  lemma NewItemsGrow(env: Env, o: Object, items: seq<string>, k: nat)
    requires k < |items|
    ensures |NewItems(env, o, items[..k + 1])| ==
            |NewItems(env, o, items[..k])|
            + if items[k] !in items[..k] && !SomeFilterFinds(env, o, items[k]) then 1 else 0
  {
    hide SomeFilterFinds;
    NewItemsOfPrefix(env, o, items, k);
    hide NewItems;
    var before := NewItems(env, o, items[..k]);
    if items[k] in before { assert before + {items[k]} == before; }
    assert before + {} == before;
  }

  ghost predicate MarksNew(env: Env, o: Object, items: seq<string>, flags: seq<bool>) {
    && |flags| == |items|
    && forall i :: 0 <= i < |items| ==> (flags[i] <==> items[i] !in items[..i] && !SomeFilterFinds(env, o, items[i]))
  }

  lemma {:induction false} CountOfNewPrefix(env: Env, o: Object, items: seq<string>, flags: seq<bool>, k: nat)
    requires MarksNew(env, o, items, flags) && k <= |items|
    ensures CountTrue(flags[..k]) == |NewItems(env, o, items[..k])|
  {
    hide NewItems;
    hide SomeFilterFinds;
    if k == 0 {
      assert flags[..0] == [] && items[..0] == [];
      NoNewItems(env, o);
    } else {
      NewItemsGrow(env, o, items, k - 1);
      assert flags[k - 1] <==> items[k - 1] !in items[..k - 1] && !SomeFilterFinds(env, o, items[k - 1]);
      CountOfPrefix(flags, k - 1);
      hide *;
      CountOfNewPrefix(env, o, items, flags, k - 1);
    }
  }

  lemma FlagsMarkNew(env: Env, o: Object, items: seq<string>)
    ensures MarksNew(env, o, items, NewFlags(env, o, items))
  {
    forall i | 0 <= i < |items|
      ensures NewFlags(env, o, items)[i] <==> items[i] !in items[..i] && !SomeFilterFinds(env, o, items[i])
    {
      FlagsOfNew(env, o, items, i);
    }
  }

  lemma CountOfNew(env: Env, o: Object, items: seq<string>)
    ensures CountTrue(NewFlags(env, o, items)) == |NewItems(env, o, items)|
  {
    var flags := NewFlags(env, o, items);
    FlagsMarkNew(env, o, items);
    assert items[..|items|] == items && flags[..|items|] == flags;
    CountOfNewPrefix(env, o, items, flags, |items|);
  }

  /**
   The answer to a batch that goes through: 1 for the first occurrence of an item that no sub-filter finds,
   0 for every other item; and the cardinality rises by the number of different items that were not found.
   */
  ghost predicate TellsNewItems(env: Env, o: Object, items: seq<string>, ns: seq<int>, after: Object) {
    && |ns| == |items|
    && (forall i :: 0 <= i < |items| ==>
          ns[i] == if items[i] !in items[..i] && !SomeFilterFinds(env, o, items[i]) then 1 else 0)
    && Cardinality(after) == Cardinality(o) + |NewItems(env, o, items)|
    && forall item :: item in items ==> SomeFilterFinds(env, after, item)
  }

  /** A batch that does not go through answers with an error. */
  lemma BatchReply(env: Env, limit: nat, o: Object, items: seq<string>, validate: bool)
    requires Grown(env, o)
    ensures var r := HandleMulti(env, limit, o, items, validate);
            r.reply.Ok? ==> TellsNewItems(env, o, items, r.reply.value, r.after)
  {
    BatchWithAnyVector(env, limit, o, items, validate);
    CountOfNew(env, o, items);
    var r, flags := HandleMulti(env, limit, o, items, validate), NewFlags(env, o, items);
    FlagsMarkNew(env, o, items);
    hide HandleMulti;
    hide NewFlags;
    hide NewItems;
    hide Grown;
    hide Advanced;
    hide ScaleOutFits;
    hide CountTrue;
    hide Cardinality;
    hide ItemExists;
    hide SomeFilterFinds;
    if r.reply.Ok? {
      assert |OnesAndZeros(flags)| == |items|;
      forall item | item in items ensures SomeFilterFinds(env, r.after, item) { FoundInSomeFilter(env, r.after, item); }
    }
  }

  // ---------- what validation refuses ----------

  /** A non-scaling object takes exactly as many new items as it has places left. */
  lemma NonScalingVerdict(env: Env, limit: nat, o: Object, count: nat)
    requires Grown(env, o) && o.expansion == 0
    ensures ValidateAddItems(env, limit, o, count) ==
            if count == 0 || Cardinality(o) + count <= Capacity(o) then None else Some(NonScalingFilterFull)
  {
  }

  lemma NonScalingBatch(env: Env, limit: nat, o: Object, items: seq<string>, validate: bool)
    requires Grown(env, o) && o.expansion == 0
    ensures var r := HandleMulti(env, limit, o, items, validate);
            if |NewItems(env, o, items)| <= Capacity(o) - Cardinality(o) then r.reply.Ok?
            else r == BatchOutcome(o, Err(NonScalingFilterFull), false)
  {
    hide CapacityAt;
    var count, p := |NewItems(env, o, items)|, PlanOf(env, o);
    CountOfNew(env, o, items);
    NonScalingVerdict(env, limit, o, count);
    BatchWithAnyVector(env, limit, o, items, validate);
    CapacityCoversCardinality(env, o);
    assert |o.filters| == 1;
    hide HandleMulti;
    hide NewFlags;
    hide NewItems;
    hide Grown;
    hide Advanced;
    forall j | 1 <= j ensures p.Total(j) >= Capacity(o) { TotalsIncrease(p, 1, j); }
  }

  /** The simulation has nothing against sub-filter `j`. */
  predicate Unobjectionable(p: Plan, limit: nat, j: nat) {
    && p.RateAt(j) > MIN_POSITIVE
    && ObjectSize(VecCapFor(j + 1)) + p.Bytes(j + 1) <= limit
    && p.CapAt(j + 1) <= I64_MAX
  }

  /** What it has against the first one to which it objects. */
  function Objection(p: Plan, limit: nat, j: nat): Error {
    if p.RateAt(j) <= MIN_POSITIVE then FalsePositiveReachesZero
    else if ObjectSize(VecCapFor(j + 1)) + p.Bytes(j + 1) > limit then ExceedsMaxBloomSize
    else BadCapacity
  }

  /** The first sub-filter to which the simulation objects. */
  ghost predicate FirstObjection(p: Plan, limit: nat, k: nat) {
    !Unobjectionable(p, limit, k) && forall j :: 0 <= j < k ==> Unobjectionable(p, limit, j)
  }

  lemma CompletesUnobjected(p: Plan, limit: nat, j: nat)
    ensures StepAt(p, limit, j) == Continue <==> Unobjectionable(p, limit, j)
    ensures !Unobjectionable(p, limit, j) ==>
              StopError(StepAt(p, limit, j)) ==
              match Objection(p, limit, j)
              case FalsePositiveReachesZero => ValidateScaleToFalsePositiveInvalid
              case ExceedsMaxBloomSize => ValidateScaleToExceedsMaxSize
              case _ => BadCapacity
  {
    hide CapacityAt;
    hide VecCapFor;
    hide RawRate;
    hide FilterSize;
  }

  lemma StopIsFirstObjection(p: Plan, limit: nat, k: nat)
    requires FirstObjection(p, limit, k)
    ensures StopIndex(p, limit) == k
  {
    var n := StopIndex(p, limit);
    CompletesUnobjected(p, limit, n);
    CompletesUnobjected(p, limit, k);
    hide StepAt;
    hide Unobjectionable;
  }

  lemma ThereIsAnObjection(p: Plan, limit: nat) returns (k: nat)
    ensures FirstObjection(p, limit, k)
  {
    k := StopIndex(p, limit);
    CompletesUnobjected(p, limit, k);
    hide StepAt;
    hide Unobjectionable;
    forall j | 0 <= j < k ensures Unobjectionable(p, limit, j) { CompletesUnobjected(p, limit, j); }
  }

  /**
   The simulation's verdict on a target, told by its objections: it accepts exactly if it has none to any
   sub-filter that the target needs, and otherwise answers with what it has against the first.
   */
  lemma VerdictOnTarget(p: Plan, limit: nat, target: int, k: nat)
    requires target != -1 && FirstObjection(p, limit, k)
    ensures MaxScaledCapacity(p, limit, target).Ok? <==> p.Total(k) >= target
    ensures p.Total(k) < target ==>
              MaxScaledCapacity(p, limit, target) ==
              Err(match Objection(p, limit, k)
                  case FalsePositiveReachesZero => ValidateScaleToFalsePositiveInvalid
                  case ExceedsMaxBloomSize => ValidateScaleToExceedsMaxSize
                  case _ => BadCapacity)
  {
    StopIsFirstObjection(p, limit, k);
    CompletesUnobjected(p, limit, k);
    var m := SimulateFromMeaning(p, limit, target, 0);
    if p.Total(k) >= target { TotalsIncrease(p, m, k); }
    hide SimulateFrom;
    hide StepAt;
    hide Unobjectionable;
    hide Objection;
    hide CapacityAt;
  }

  /** The same for the batch of a scaling object that needs more than the capacity at hand. */
  lemma ScalingVerdict(env: Env, limit: nat, o: Object, count: nat, k: nat)
    requires Grown(env, o) && o.expansion > 0 && FirstObjection(PlanOf(env, o), limit, k)
    ensures var p := PlanOf(env, o);
            ValidateAddItems(env, limit, o, count) ==
            if count == 0 || Cardinality(o) + count <= Capacity(o) || Cardinality(o) + count <= p.Total(k) then None
            else Some(Objection(p, limit, k))
  {
    hide CapacityAt;
    hide VecCapFor;
    hide RawRate;
    hide FilterSize;
    CapacityCoversCardinality(env, o);
    GrownTotals(env, o);
    if count > 0 { VerdictOnTarget(PlanOf(env, o), limit, Cardinality(o) + count, k); }
    hide MaxScaledCapacity;
    hide Grown;
    hide Cardinality;
    hide Capacity;
  }

  /** Every sub-filter that must be made for the target fits in. */
  ghost predicate AllFit(env: Env, limit: nat, o: Object, target: int, validate: bool)
    requires HasFirst(o)
  {
    var n, p := |o.filters|, PlanOf(env, o);
    forall j :: n <= j && p.Total(j) < target ==> ScaleOutFits(p, limit, o.vecCap, n, validate, j)
  }

  /** The batch goes through exactly if all fits; otherwise it stops, with one of two errors. */
  ghost predicate GoesAsFar(env: Env, limit: nat, o: Object, target: int, validate: bool, reply: Result<seq<int>>, after: Object)
    requires HasFirst(o)
  {
    if AllFit(env, limit, o, target, validate) then reply.Ok?
    else && Cardinality(after) < target
         && reply == Err(if |after.filters| == I32_MAX then MaxNumScalingFilters else ExceedsMaxBloomSize)
  }

  /** Adding follows the plan of the object; without new items nothing has changed. */
  ghost predicate KeepsGrowing(env: Env, o: Object, after: Object)
    requires Grown(env, o)
  {
    && Grown(env, after) && PlanOf(env, after) == PlanOf(env, o)
    && Cardinality(o) <= Cardinality(after) && (Cardinality(after) == Cardinality(o) ==> after == o)
  }

  /**
   The answer to a batch and what becomes of the object, `k` being the first sub-filter to which the
   simulation objects. Refused by validation the batch changes nothing. Otherwise it goes through if and
   only if every sub-filter it reaches fits.
   */
  ghost predicate BatchAnswer(env: Env, limit: nat, o: Object, items: seq<string>, validate: bool, k: nat,
                              reply: Result<seq<int>>, after: Object)
    requires Grown(env, o)
  {
    var p, target := PlanOf(env, o), Cardinality(o) + |NewItems(env, o, items)|;
    && FirstObjection(p, limit, k)
    && (if target > Capacity(o) && (o.expansion == 0 || target > p.Total(k))
        then reply == Err(if o.expansion == 0 then NonScalingFilterFull else Objection(p, limit, k)) && after == o
        else GoesAsFar(env, limit, o, target, validate, reply, after))
    && (reply.Ok? ==> TellsNewItems(env, o, items, reply.value, after))
    && KeepsGrowing(env, o, after)
  }

  /** The verdict of validation on any batch. */
  lemma VerdictOnBatch(env: Env, limit: nat, o: Object, count: nat, k: nat)
    requires Grown(env, o) && FirstObjection(PlanOf(env, o), limit, k)
    ensures var p, target := PlanOf(env, o), Cardinality(o) + count;
            ValidateAddItems(env, limit, o, count) ==
            if target > Capacity(o) && (o.expansion == 0 || target > p.Total(k))
            then Some(if o.expansion == 0 then NonScalingFilterFull else Objection(p, limit, k)) else None
  {
    CapacityCoversCardinality(env, o);
    hide ValidateAddItems;
    hide Objection;
    hide Grown;
    hide Cardinality;
    hide Capacity;
    hide CapacityAt;
    if o.expansion > 0 { ScalingVerdict(env, limit, o, count, k); } else { NonScalingVerdict(env, limit, o, count); }
  }

  /** A batch that validation accepts. */
  lemma AcceptedBatch(env: Env, limit: nat, o: Object, items: seq<string>, validate: bool)
    requires Grown(env, o) && ValidateAddItems(env, limit, o, |NewItems(env, o, items)|) == None
    ensures var r, target := HandleMulti(env, limit, o, items, validate), Cardinality(o) + |NewItems(env, o, items)|;
            && GoesAsFar(env, limit, o, target, validate, r.reply, r.after)
            && KeepsGrowing(env, o, r.after) && (r.added <==> Cardinality(r.after) > Cardinality(o))
  {
    CountOfNew(env, o, items);
    var flags := NewFlags(env, o, items);
    hide NewFlags;
    hide NewItems;
    BatchWithAnyVector(env, limit, o, items, validate);
    hide HandleMulti;
    hide ValidateAddItems;
    hide ItemExists;
    hide ScaleOutFits;
    hide Grown;
    hide Cardinality;
    hide Capacity;
    hide CapacityAt;
  }

  /** A batch that validation refuses. */
  lemma RefusedBatch(env: Env, limit: nat, o: Object, items: seq<string>, validate: bool)
    requires Grown(env, o) && ValidateAddItems(env, limit, o, |NewItems(env, o, items)|).Some?
    ensures HandleMulti(env, limit, o, items, validate) ==
            BatchOutcome(o, Err(ValidateAddItems(env, limit, o, |NewItems(env, o, items)|).value), false)
    ensures KeepsGrowing(env, o, o)
  {
    CountOfNew(env, o, items);
    hide ValidateAddItems;
    hide AddFirst;
  }

  lemma BatchIsAnswered(env: Env, limit: nat, o: Object, items: seq<string>, validate: bool) returns (k: nat)
    requires Grown(env, o)
    ensures var r := HandleMulti(env, limit, o, items, validate);
            && BatchAnswer(env, limit, o, items, validate, k, r.reply, r.after)
            && (r.added <==> Cardinality(r.after) > Cardinality(o))
  {
    k := ThereIsAnObjection(PlanOf(env, o), limit);
    VerdictOnBatch(env, limit, o, |NewItems(env, o, items)|, k);
    BatchReply(env, limit, o, items, validate);
    assert HasFirst(o);
    hide HandleMulti;
    hide ValidateAddItems;
    hide FirstObjection;
    hide Objection;
    hide TellsNewItems;
    hide GoesAsFar;
    hide KeepsGrowing;
    hide Grown;
    hide Cardinality;
    hide Capacity;
    hide NewItems;
    if ValidateAddItems(env, limit, o, |NewItems(env, o, items)|).Some? {
      RefusedBatch(env, limit, o, items, validate);
    } else {
      AcceptedBatch(env, limit, o, items, validate);
    }
  }
}

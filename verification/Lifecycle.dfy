/**
 Everything that can happen to a live object: adds, multi-item adds, COPY, saving and loading, and
 defragmentation in slices. An item that was acknowledged once is found ever after.
 */
module Lifecycle {
  import opened Platform
  import opened RawBloom
  import opened Vectors
  import opened ScalingObject
  import opened BatchAdd
  import opened Rdb

  // ---------- copying ----------

  /** Copying goes through the byte form of every bitmap; bytes that are no bloom are a panic, here `None`. */
  function CopyFilters(env: Env, fs: seq<Filter>): Option<seq<Filter>> {
    if fs == [] then Some([]) else
    var n := |fs| - 1;
    match (CopyFilters(env, fs[..n]), env.fromBytes(env.toBytes(fs[n].bloom)))
    case (Some(before), Some(bloom)) => Some(before + [fs[n].(bloom := bloom)])
    case (_, _) => None
  }

  /** `create_copy_from`: the vector is created with the capacity of the original's. */
  function CopyObject(env: Env, o: Object): Option<Object> {
    match CopyFilters(env, o.filters)
    case Some(fs) => Some(o.(filters := fs))
    case None => None
  }

  lemma {:induction false} CopiedFiltersAreEqual(env: Env, fs: seq<Filter>)
    requires FaithfulBytes(env)
    ensures CopyFilters(env, fs) == Some(fs)
  {
    if fs != [] {
      CopiedFiltersAreEqual(env, fs[..|fs| - 1]);
      assert fs == fs[..|fs| - 1] + [fs[|fs| - 1]];
    }
  }

  /** A copy equals the original in every field. */
  lemma CopyIsEqual(env: Env, o: Object)
    requires FaithfulBytes(env)
    ensures CopyObject(env, o) == Some(o)
  {
    CopiedFiltersAreEqual(env, o.filters);
  }

  /** The bytes of sub-filter `i` are those of a bloom. */
  predicate CanBeCopied(env: Env, f: Filter) {
    env.fromBytes(env.toBytes(f.bloom)).Some?
  }

  lemma {:induction false} CopiedOneByOne(env: Env, fs: seq<Filter>)
    ensures CopyFilters(env, fs).Some? <==> forall i :: 0 <= i < |fs| ==> CanBeCopied(env, fs[i])
    ensures CopyFilters(env, fs).Some? ==>
              && |CopyFilters(env, fs).value| == |fs|
              && forall i :: 0 <= i < |fs| ==>
                   CopyFilters(env, fs).value[i] == fs[i].(bloom := env.fromBytes(env.toBytes(fs[i].bloom)).value)
  {
    if fs != [] {
      CopiedOneByOne(env, fs[..|fs| - 1]);
    }
  }

  /**
   Whatever the byte form does: a copy is made if and only if the bytes of every bloom are those of a bloom,
   and then it has what was read back from them and is otherwise equal to the original.
   */
  lemma CopyExactly(env: Env, o: Object)
    ensures var r := CopyObject(env, o);
            && (r.Some? <==> forall i :: 0 <= i < |o.filters| ==> CanBeCopied(env, o.filters[i]))
            && (r.Some? ==>
                  && r.value == o.(filters := r.value.filters) && |r.value.filters| == |o.filters|
                  && forall i :: 0 <= i < |o.filters| ==>
                       r.value.filters[i] == o.filters[i].(bloom := env.fromBytes(env.toBytes(o.filters[i].bloom)).value))
  {
    CopiedOneByOne(env, o.filters);
  }

  // ---------- defragmentation ----------

  /** Where one call leaves the cursor when it has time for `slices` sub-filters. */
  function CursorAfter(numFilters: nat, cursor: nat, slices: nat): nat
    decreases slices
  {
    if cursor < numFilters && slices > 0 then CursorAfter(numFilters, cursor + 1, slices - 1) else cursor
  }

  /** What a call that ends at `cursor` leaves: the same sub-filters, in a shrunk vector once all are done. */
  function Defragmented(o: Object, cursor: nat): Object {
    if cursor < |o.filters| then o else o.(vecCap := |o.filters|)
  }

  /** The return value: 1 as long as some sub-filters have not been visited. */
  function DefragReply(o: Object, cursor: nat): int {
    if cursor < |o.filters| then 1 else 0
  }

  lemma {:induction false} CursorAdvances(numFilters: nat, cursor: nat, slices: nat)
    ensures CursorAfter(numFilters, cursor, slices) ==
            if cursor >= numFilters then cursor else if cursor + slices < numFilters then cursor + slices else numFilters
    decreases slices
  {
    if cursor < numFilters && slices > 0 {
      CursorAdvances(numFilters, cursor + 1, slices - 1);
    }
  }

  /**
   One call, in plain numbers: from a cursor within the vector it visits as many sub-filters as it has time
   for. If some are left, it answers 1 and leaves the object alone; otherwise it answers 0 and cuts the
   vector down to its sub-filters.
   */
  lemma DefragSlice(o: Object, cursor: nat, slices: nat)
    requires cursor <= |o.filters|
    ensures var end := CursorAfter(|o.filters|, cursor, slices);
            if cursor + slices < |o.filters|
            then end == cursor + slices && DefragReply(o, end) == 1 && Defragmented(o, end) == o
            else end == |o.filters| && DefragReply(o, end) == 0 && Defragmented(o, end) == o.(vecCap := |o.filters|)
  {
    CursorAdvances(|o.filters|, cursor, slices);
  }

  /** The cursor after a series of calls, each starting where the one before stopped. */
  function CursorAfterCalls(numFilters: nat, cursor: nat, budgets: seq<nat>): nat
    decreases |budgets|
  {
    if budgets == [] then cursor
    else CursorAfterCalls(numFilters, CursorAfter(numFilters, cursor, budgets[0]), budgets[1..])
  }

  function SumOf(budgets: seq<nat>): nat {
    if budgets == [] then 0 else budgets[0] + SumOf(budgets[1..])
  }

  lemma {:induction false} CallsAdvance(numFilters: nat, cursor: nat, budgets: seq<nat>)
    requires cursor <= numFilters
    ensures CursorAfterCalls(numFilters, cursor, budgets) ==
            if cursor + SumOf(budgets) < numFilters then cursor + SumOf(budgets) else numFilters
    decreases |budgets|
  {
    if budgets != [] {
      CursorAdvances(numFilters, cursor, budgets[0]);
      CallsAdvance(numFilters, CursorAfter(numFilters, cursor, budgets[0]), budgets[1..]);
    }
  }

  lemma {:induction false} SumOfOnes(budgets: seq<nat>)
    requires forall i :: 0 <= i < |budgets| ==> budgets[i] >= 1
    ensures SumOf(budgets) >= |budgets|
  {
    if budgets != [] {
      SumOfOnes(budgets[1..]);
    }
  }

  /**
   A series of calls ends with the answer 0 if and only if together they had time for all sub-filters that
   were left, and with 1 otherwise. Calls with time for at least one sub-filter each are at most as many as
   there are sub-filters left.
   */
  lemma DefragFinishes(o: Object, cursor: nat, budgets: seq<nat>)
    requires cursor <= |o.filters|
    ensures DefragReply(o, CursorAfterCalls(|o.filters|, cursor, budgets)) ==
            if cursor + SumOf(budgets) >= |o.filters| then 0 else 1
    ensures (forall i :: 0 <= i < |budgets| ==> budgets[i] >= 1) && cursor + |budgets| >= |o.filters| ==>
              DefragReply(o, CursorAfterCalls(|o.filters|, cursor, budgets)) == 0
  {
    CallsAdvance(|o.filters|, cursor, budgets);
    if forall i :: 0 <= i < |budgets| ==> budgets[i] >= 1 { SumOfOnes(budgets); }
  }

  /** The capacity of the vector plays no part in the shape. */
  lemma ReshapedVectorKeepsGrown(env: Env, o: Object, vecCap: nat)
    requires Grown(env, o)
    ensures Grown(env, o.(vecCap := vecCap))
  {
    hide CapacityAt;
    var o' := o.(vecCap := vecCap);
    forall i | 0 <= i < |o.filters| ensures FilterFollowsPlan(env, o', i) && FilterOccupancy(o', i) {
      assert FilterFollowsPlan(env, o, i) && FilterOccupancy(o, i);
    }
  }

  // ---------- whole lives ----------

  datatype Step =
    | Add(op: AddOp)
    | MultiAdd(items: seq<string>, validate: bool, limit: nat)
    | Copy
    | Reload(limit: nat)
    | Defrag(cursor: nat)

  /** The object a step leaves, or the copy or reloaded object it makes; `None` when loading fails. */
  function Take(env: Env, o: Object, step: Step): Option<Object>
    requires HasFirst(o)
  {
    match step
    case Add(op) => Some(Apply(env, o, op).after)
    case MultiAdd(items, validate, limit) => Some(HandleMulti(env, limit, o, items, validate).after)
    case Copy => CopyObject(env, o)
    case Reload(limit) =>
      (match LoadFromRdb(env, limit, ENCODING_VERSION, SaveTokens(env, o))
       case Loaded(o') => Some(o')
       case _ => None)
    case Defrag(cursor) => Some(Defragmented(o, cursor))
  }

  /** The step answered `Ok(0)` or `Ok(1)` for `item`. */
  ghost predicate Acknowledges(env: Env, o: Object, step: Step, item: string)
    requires HasFirst(o)
  {
    match step
    case Add(op) => item == op.item && Apply(env, o, op).reply.Ok?
    case MultiAdd(items, validate, limit) => item in items && HandleMulti(env, limit, o, items, validate).reply.Ok?
    case _ => false
  }

  ghost predicate Leads(env: Env, o: Object, steps: seq<Step>, o': Object)
    requires HasFirst(o)
    decreases |steps|
  {
    if steps == [] then o' == o else
    var next := Take(env, o, steps[0]);
    next.Some? && HasFirst(next.value) && Leads(env, next.value, steps[1..], o')
  }

  /** Adding a prefix of a batch keeps the shape, even when it ends in an error. */
  lemma {:induction false} PrefixKeepsGrown(env: Env, limit: nat, o: Object, items: seq<string>, flags: seq<bool>,
                                            validate: bool, k: nat)
    requires Grown(env, o) && |flags| == |items| && k <= |items|
    ensures Grown(env, AddFirst(env, limit, o, items, flags, validate, k).after)
  {
    hide CapacityAt;
    hide Grown;
    hide AddUnchecked;
    if k > 0 {
      PrefixKeepsGrown(env, limit, o, items, flags, validate, k - 1);
      var before := AddFirst(env, limit, o, items, flags, validate, k - 1);
      AddUncheckedKeepsGrown(env, limit, before.after, items[k - 1], validate);
    }
  }

  lemma SameBloomsSameItems(env: Env, o: Object, o': Object, item: string)
    requires o'.filters == o.filters
    ensures ItemExists(env, o', item) == ItemExists(env, o, item)
  {
  }

  /** Every step keeps the shape and whatever was found; an acknowledged item is found after it. */
  lemma StepRemembers(env: Env, o: Object, step: Step, item: string)
    requires Grown(env, o) && FaithfulBytes(env)
    ensures var next := Take(env, o, step);
            && (next.Some? ==> Grown(env, next.value))
            && (next.Some? && ItemExists(env, o, item) ==> ItemExists(env, next.value, item))
            && (Acknowledges(env, o, step, item) ==> next.Some? && ItemExists(env, next.value, item))
  {
    hide CapacityAt;
    hide AddUnchecked;
    hide LoadFilters;
    match step
    case Add(op) =>
      AddUncheckedKeepsGrown(env, op.limit, o, op.item, op.validate);
      AddUncheckedRemembers(env, op.limit, o, op.item, op.validate, item);
    case MultiAdd(items, validate, limit) =>
      PrefixKeepsGrown(env, limit, o, items, NewFlags(env, o, items), validate, |items|);
      PrefixRemembers(env, limit, o, items, NewFlags(env, o, items), validate, |items|, item);
      AllItemsRemembered(env, limit, o, items, validate);
    case Copy =>
      CopyIsEqual(env, o);
    case Reload(limit) =>
      RoundTrip(env, limit, o);
      ReshapedVectorKeepsGrown(env, o, VecCapFor(|o.filters|));
      SameBloomsSameItems(env, o, o.(vecCap := VecCapFor(|o.filters|)), item);
    case Defrag(cursor) =>
      ReshapedVectorKeepsGrown(env, o, |o.filters|);
      SameBloomsSameItems(env, o, Defragmented(o, cursor), item);
  }

  lemma GrownHasFirst(env: Env, o: Object)
    requires Grown(env, o)
    ensures HasFirst(o)
  {
  }

  lemma {:induction false} FoundStaysFound(env: Env, o: Object, steps: seq<Step>, o': Object, item: string)
    requires Grown(env, o) && FaithfulBytes(env) && ItemExists(env, o, item) && Leads(env, o, steps, o')
    ensures Grown(env, o') && ItemExists(env, o', item)
    decreases |steps|
  {
    GrownHasFirst(env, o);
    hide Grown;
    hide Take;
    hide ItemExists;
    if steps != [] {
      StepRemembers(env, o, steps[0], item);
      FoundStaysFound(env, Take(env, o, steps[0]).value, steps[1..], o', item);
    }
  }

  /**
   No false negatives, ever: once an add has answered 0 or 1 for an item, the item is found in every
   state that any further adds, multi-item adds, copies, reloads and defragmentation slices lead to.
   */
  lemma NoFalseNegatives(env: Env, o: Object, step: Step, later: seq<Step>, o': Object, item: string)
    requires Grown(env, o) && FaithfulBytes(env)
    requires Acknowledges(env, o, step, item)
    requires Leads(env, o, [step] + later, o')
    ensures ItemExists(env, o', item)
  {
    GrownHasFirst(env, o);
    hide Grown;
    hide Take;
    hide ItemExists;
    hide Acknowledges;
    assert ([step] + later)[1..] == later;
    StepRemembers(env, o, step, item);
    FoundStaysFound(env, Take(env, o, step).value, later, o', item);
  }
}

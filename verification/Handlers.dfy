/** The loops of the command handlers: adding a batch, reading options, writing the logged command. */
module Handlers {
  import opened Platform
  import opened RawBloom
  import opened ScalingObject
  import opened BatchAdd
  import opened Replies
  import opened Accounting
  import opened Objects
  import opened Decimal
  import opened Commands

  // ---------- adding a batch ----------

  lemma {:induction false} ErrorSticks(env: Env, limit: nat, o: Object, items: seq<string>, flags: seq<bool>,
                                       validate: bool, k: nat, n: nat)
    requires |flags| == |items| && k <= n <= |items|
    requires AddFirst(env, limit, o, items, flags, validate, k).reply.Err?
    ensures AddFirst(env, limit, o, items, flags, validate, n) == AddFirst(env, limit, o, items, flags, validate, k)
  {
    if k < n {
      ErrorSticks(env, limit, o, items, flags, validate, k, n - 1);
    }
  }

  lemma BookedTwice(env: Env, c0: Counters, o0: Object, c1: Counters, o1: Object, c2: Counters, o2: Object)
    requires Booked(env, c0, o0, c1, o1) && Booked(env, c1, o1, c2, o2)
    ensures Booked(env, c0, o0, c2, o2)
  {
    hide ObjectCounters;
  }

  /** The first loop: which items are new, and how many. */
  method FlagNewItems(env: Env, bf: BloomObject, items: seq<string>) returns (isNew: seq<bool>, newItemCount: nat)
    requires bf.Valid()
    ensures |isNew| == |items|
    ensures isNew == NewFlags(env, bf.value, items) && newItemCount == CountTrue(isNew)
    ensures forall i :: 0 <= i < |items| ==>
              (isNew[i] <==> items[i] !in items[..i] && !SomeFilterFinds(env, bf.value, items[i]))
    ensures newItemCount == |NewItems(env, bf.value, items)|
  {
    hide NewItems;
    hide SomeFilterFinds;
    var seen: set<string> := {};
    isNew, newItemCount := [], 0;
    for i := 0 to |items|
      invariant seen == set s | s in items[..i]
      invariant |isNew| == i && forall k :: 0 <= k < i ==> isNew[k] == IsNew(env, bf.value, items, k)
      invariant newItemCount == CountTrue(isNew)
    {
      var first := items[i] !in seen;
      seen := seen + {items[i]};
      if first {
        var found := bf.ItemExists(env, items[i]);
        first := !found;
      }
      if first {
        newItemCount := newItemCount + 1;
      }
      isNew := isNew + [first];
      assert isNew[..i + 1][..i] == isNew[..i];
      assert items[..i + 1] == items[..i] + [items[i]];
    }
    assert isNew == NewFlags(env, bf.value, items);
    hide *;
    CountOfNew(env, bf.value, items);
    FlagsMarkNew(env, bf.value, items);
  }

  /** The multi-item branch of `handle_bloom_add`. */
  method HandleBatch(env: Env, limit: nat, bf: BloomObject, items: seq<string>, validate: bool, m: Metrics)
    returns (reply: Result<seq<int>>, added: bool)
    requires bf.Valid() && HasFirst(bf.value)
    modifies bf, bf.filters, m
    ensures bf.Valid() && Owned(old(bf.filters), bf.filters)
    ensures BatchOutcome(bf.value, reply, added) == HandleMulti(env, limit, old(bf.value), items, validate)
    ensures Booked(env, old(m.View()), old(bf.value), m.View(), bf.value)
  {
    hide ObjectCounters;
    hide AddUnchecked;
    hide BatchAdd.ValidateAddItems;
    hide NewFlags;
    var isNew, newItemCount := FlagNewItems(env, bf, items);
    var refused := bf.ValidateAddItems(env, limit, newItemCount);
    if refused.Some? { return Err(refused.value), false; }
    reply, added := AddFlagged(env, limit, bf, items, isNew, validate, m);
  }

  /** The second loop: add what is new, answer 0 for the rest. */
  method AddFlagged(env: Env, limit: nat, bf: BloomObject, items: seq<string>, isNew: seq<bool>, validate: bool, m: Metrics)
    returns (reply: Result<seq<int>>, added: bool)
    requires bf.Valid() && |isNew| == |items|
    modifies bf, bf.filters, m
    ensures bf.Valid() && Owned(old(bf.filters), bf.filters)
    ensures BatchOutcome(bf.value, reply, added) == AddFirst(env, limit, old(bf.value), items, isNew, validate, |items|)
    ensures Booked(env, old(m.View()), old(bf.value), m.View(), bf.value)
  {
    hide ObjectCounters;
    hide AddUnchecked;
    ghost var o := bf.value;
    var result: seq<int> := [];
    added := false;
    for i := 0 to |items|
      invariant bf.Valid() && Owned(old(bf.filters), bf.filters)
      invariant BatchOutcome(bf.value, Ok(result), added) == AddFirst(env, limit, o, items, isNew, validate, i)
      invariant Booked(env, old(m.View()), o, m.View(), bf.value)
    {
      if isNew[i] {
        ghost var c, v := m.View(), bf.value;
        var r := bf.AddItemUnchecked(env, limit, items[i], validate, m);
        BookedTwice(env, old(m.View()), o, c, v, m.View(), bf.value);
        match r {
          case Ok(n) =>
            if n == 1 { added := true; }
            result := result + [n];
          case Err(e) =>
            ErrorSticks(env, limit, o, items, isNew, validate, i + 1, |items|);
            return Err(e), added;
        }
      } else {
        result := result + [0];
      }
    }
    return Ok(result), added;
  }

  /** `handle_bloom_add`. */
  method HandleBloomAdd(env: Env, limit: nat, bf: BloomObject, items: seq<string>, multi: bool, validate: bool, m: Metrics)
    returns (reply: Reply, added: bool)
    requires bf.Valid() && HasFirst(bf.value) && (!multi ==> items != [])
    modifies bf, bf.filters, m
    ensures bf.Valid() && Owned(old(bf.filters), bf.filters)
    ensures Handled(bf.value, reply, added) == HandleAdd(env, limit, old(bf.value), items, multi, validate)
    ensures Booked(env, old(m.View()), old(bf.value), m.View(), bf.value)
  {
    hide ObjectCounters;
    hide HandleMulti;
    hide ScalingObject.AddItem;
    if multi {
      var r, any := HandleBatch(env, limit, bf, items, validate, m);
      return if r.Ok? then Numbers(r.value) else Fail(r.error), any;
    } else {
      var r := bf.AddItem(env, limit, items[0], validate, m);
      return if r.Ok? then Number(r.value) else Fail(r.error), r == Ok(1);
    }
  }

  // ---------- reading the arguments of BF.INSERT ----------

  /** The option loop, which advances `idx` and overwrites the options it meets. */
  method ReadInsertArgs(codec: Codec, cfg: Config, args: seq<string>) returns (r: Result<Parsed>)
    ensures r == ParseInsert(codec, cfg, args)
  {
    if |args| < 2 { return Err(WrongArity); }
    hide ReadOption;
    var idx := 2;
    var options := Defaults(cfg);
    hide Defaults;
    var itemsProvided := false;
    while idx < |args|
      invariant 2 <= idx <= |args| && !itemsProvided
      invariant ParseFrom(codec, args, idx, options) == ParseFrom(codec, args, 2, Defaults(cfg))
      decreases |args| - idx
    {
      if codec.upper(args[idx]) == "ITEMS" {
        if idx + 1 == |args| { return Err(WrongArity); }
        return Ok(Parsed(options, idx + 1, true));
      }
      match ReadOption(codec, args, idx, options) {
        case Err(e) => return Err(e);
        case Ok(read) => options, idx := read.options, read.next;
      }
    }
    return Ok(Parsed(options, idx, false));
  }

  // ---------- writing the log ----------

  /** The creation branch of `replicate_and_notify_events`, which pushes the arguments one after the other. */
  method WriteCreation(codec: Codec, key: string, bf: BloomObject, items: seq<string>) returns (cmd: seq<string>)
    requires bf.Valid() && HasFirst(bf.value)
    ensures cmd == CreationArgs(codec, key, bf.value, items)
  {
    hide Show;
    hide ShowSigned;
    var capacity := bf.Capacity();
    cmd := ["BF.INSERT", key, "CAPACITY", ShowSigned(capacity), "ERROR", codec.showRate(bf.fpRate),
            "TIGHTENING", codec.showRate(bf.tightening), "SEED", bf.filters[0].bloom.seed];
    if bf.expansion == 0 {
      cmd := cmd + ["NONSCALING"];
    } else {
      cmd := cmd + ["EXPANSION", Show(bf.expansion)];
    }
    ghost var options := cmd;
    if items != [] {
      cmd := cmd + ["ITEMS"];
    }
    ghost var prefix := cmd;
    for i := 0 to |items|
      invariant cmd == prefix + items[..i]
    {
      cmd := cmd + [items[i]];
    }
    assert items[..|items|] == items;
    assert cmd == options + (if items == [] then [] else ["ITEMS"] + items);
  }
}

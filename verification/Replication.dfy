/**
 Replication: the primary executes commands and writes a log, a replica with other defaults replays
 the log. The log is such that the replica ends up with the same objects.
 */
module Replication {
  import opened Platform
  import opened RawBloom
  import opened ScalingObject
  import opened Simulator
  import opened BatchAdd
  import opened Decimal
  import opened Commands

  // ---------- the printed creation command is read back exactly ----------

  /** The options that the printed command spells out. */
  function SpelledOut(o: Object): Options
    requires HasFirst(o) && 1 <= Capacity(o) <= I64_MAX
  {
    var seed := o.filters[0].bloom.seed;
    Options(o.fpRate, o.tightening, Capacity(o), o.expansion, Some(seed), seed != FixedSeed(), None, false)
  }

  /** Reading one keyword and its value from the middle of a command. */
  lemma ReadPair(codec: Codec, args: seq<string>, idx: nat, o: Options, word: string)
    requires FaithfulText(codec) && idx + 1 < |args| && args[idx] == word
    requires word in {"CAPACITY", "ERROR", "TIGHTENING", "SEED", "EXPANSION"}
    ensures var r := ReadValue(codec, word, args[idx + 1], o, idx + 2);
            r.Ok? ==> ParseFrom(codec, args, idx, o) == ParseFrom(codec, args, idx + 2, r.value.options)
  {
    assert word in PRINTED_KEYWORDS;
    hide ReadValue;
  }

  lemma ReadSwitch(codec: Codec, args: seq<string>, idx: nat, o: Options)
    requires FaithfulText(codec) && idx < |args| && args[idx] == "NONSCALING"
    ensures ParseFrom(codec, args, idx, o) == ParseFrom(codec, args, idx + 1, o.(expansion := 0))
  {
    assert "NONSCALING" in PRINTED_KEYWORDS;
  }

  /** After the options come the items, untouched, or nothing at all. */
  lemma ReadItems(codec: Codec, args: seq<string>, idx: nat, o: Options, items: seq<string>)
    requires FaithfulText(codec) && idx <= |args|
    requires args[idx..] == (if items == [] then [] else ["ITEMS"] + items)
    ensures var at := if items == [] then idx else idx + 1;
            && at <= |args| && args[at..] == items
            && ParseFrom(codec, args, idx, o) == Ok(Parsed(o, at, items != []))
            && (items != [] ==> at < |args|)
  {
    if items != [] {
      assert args[idx] == args[idx..][0] == "ITEMS";
      assert "ITEMS" in PRINTED_KEYWORDS;
      assert args[idx + 1..] == args[idx..][1..];
    }
  }

  /**
   Print then parse: whatever the defaults of the node that reads it, the printed creation command
   yields exactly the printed properties and items, for any bytes in seed and items, including items
   that are spelled like options. The seed counts as random exactly when it is not the fixed one.
   */
  lemma PrintThenParse(codec: Codec, cfg: Config, key: string, o: Object, items: seq<string>)
    requires FaithfulText(codec) && HasFirst(o) && 1 <= Capacity(o) <= I64_MAX
    ensures var args := CreationArgs(codec, key, o, items);
            var r := ParseInsert(codec, cfg, args);
            && args[1] == key
            && r.Ok? && r.value.options == SpelledOut(o)
            && args[r.value.itemsAt..] == items && r.value.itemsProvided == (items != [])
  {
    var args := CreationArgs(codec, key, o, items);
    var tail := if o.expansion == 0 then 11 else 12;
    assert args[tail..] == if items == [] then [] else ["ITEMS"] + items;
    ReadPrintedOptions(codec, cfg, key, o, items);
    ReadItems(codec, args, tail, SpelledOut(o), items);
  }

  /** The printed options, position by position. */
  lemma PrintedArgs(codec: Codec, key: string, o: Object, items: seq<string>)
    requires HasFirst(o)
    ensures var a := CreationArgs(codec, key, o, items);
            && |a| >= 11
            && a[2] == "CAPACITY" && a[3] == ShowSigned(Capacity(o))
            && a[4] == "ERROR" && a[5] == codec.showRate(o.fpRate)
            && a[6] == "TIGHTENING" && a[7] == codec.showRate(o.tightening)
            && a[8] == "SEED" && a[9] == o.filters[0].bloom.seed
            && (o.expansion == 0 ==> a[10] == "NONSCALING")
            && (o.expansion > 0 ==> |a| >= 12 && a[10] == "EXPANSION" && a[11] == Show(o.expansion))
  {
    hide Show;
    hide ShowSigned;
  }

  lemma ReadPrintedOptions(codec: Codec, cfg: Config, key: string, o: Object, items: seq<string>)
    requires FaithfulText(codec) && HasFirst(o) && 1 <= Capacity(o) <= I64_MAX
    ensures var args := CreationArgs(codec, key, o, items);
            ParseFrom(codec, args, 2, Defaults(cfg)) ==
            ParseFrom(codec, args, if o.expansion == 0 then 11 else 12, SpelledOut(o))
  {
    var args := CreationArgs(codec, key, o, items);
    PrintedArgs(codec, key, o, items);
    hide CreationArgs;
    hide FixedSeed;
    hide Show;
    hide ShowSigned;
    hide ReadI64;
    hide ReadU32;
    hide Capacity;
    var capacity, seed := Capacity(o), o.filters[0].bloom.seed;
    var o0 := Defaults(cfg);
    var o1 := o0.(capacity := capacity);
    var o2 := o1.(fpRate := o.fpRate);
    var o3 := o2.(tightening := o.tightening);
    var o4 := o3.(seed := Some(seed), seedRandom := seed != FixedSeed());
    var o5 := o4.(expansion := o.expansion);
    hide ParseFrom;
    assert ReadValue(codec, "CAPACITY", args[3], o0, 4) == Ok(OptionRead(o1, 4)) by { SignedReadBack(capacity); }
    assert ReadValue(codec, "ERROR", args[5], o1, 6) == Ok(OptionRead(o2, 6));
    assert ReadValue(codec, "TIGHTENING", args[7], o2, 8) == Ok(OptionRead(o3, 8));
    assert ReadValue(codec, "SEED", args[9], o3, 10) == Ok(OptionRead(o4, 10));
    if o.expansion == 0 {
      ReadSwitch(codec, args, 10, o4);
    } else {
      assert ReadValue(codec, "EXPANSION", args[11], o4, 12) == Ok(OptionRead(o5, 12)) by { ReadBack(o.expansion); }
      ReadPair(codec, args, 10, o4, "EXPANSION");
    }
    hide ReadValue;
    ReadPair(codec, args, 2, o0, "CAPACITY");
    ReadPair(codec, args, 4, o1, "ERROR");
    ReadPair(codec, args, 6, o2, "TIGHTENING");
    ReadPair(codec, args, 8, o3, "SEED");
  }

  /** Every object was grown by creation and adds alone. */
  ghost predicate KeysGrown(env: Env, keys: Keyspace) {
    forall k :: k in keys ==> Grown(env, keys[k]) && Unshrunk(keys[k])
  }

  lemma GrownKeysAreLive(env: Env, keys: Keyspace)
    requires KeysGrown(env, keys)
    ensures LiveKeys(keys)
  {
  }

  lemma KeysGrownUpdate(env: Env, keys: Keyspace, key: string, o: Object)
    requires KeysGrown(env, keys) && Grown(env, o) && Unshrunk(o)
    ensures KeysGrown(env, keys[key := o])
  {
  }

  // ---------- replaying adds ----------

  /** An add that succeeds under size validation succeeds without it. */
  lemma SucceedsUnvalidated(env: Env, limit: nat, o: Object, item: string)
    requires AddUnchecked(env, limit, o, item, true).reply.Ok?
    ensures AddUnchecked(env, limit, o, item, false).reply.Ok?
  {
    hide CalculateFpRate;
    hide AsI32;
  }

  /** A batch on `o` passes validation and yet goes beyond the largest number of sub-filters, which that does not count. */
  ghost predicate CrossesFilterLimit(env: Env, limit: nat, o: Object, items: seq<string>)
    requires HasFirst(o)
  {
    var count, total := CountTrue(NewFlags(env, o, items)), PlanOf(env, o).Total(I32_MAX);
    ValidateAddItems(env, limit, o, count) == None && Cardinality(o) < total < Cardinality(o) + count
  }

  /**
   Adds to an existing object: without an addition nothing changes; with one, a replica that skips
   size validation does exactly the same. That comes with an error only at the limit of sub-filters.
   */
  lemma AddsReplay(env: Env, limit: nat, o: Object, items: seq<string>, multi: bool, validate: bool)
    requires Grown(env, o) && Unshrunk(o) && (!multi ==> items != [])
    ensures var h := HandleAdd(env, limit, o, items, multi, validate);
            && Grown(env, h.after) && Unshrunk(h.after)
            && (!h.added ==> h.after == o)
            && (h.added ==> Cardinality(h.after) > Cardinality(o))
            && (h.added && h.reply.Fail? <==> multi && CrossesFilterLimit(env, limit, o, items))
            && (multi || h.added ==> HandleAdd(env, limit, o, items, multi, false) == h)
  {
    hide CapacityAt;
    if multi {
      hide HandleMulti;
      hide NewFlags;
      BatchIsAtomic(env, limit, o, items, validate);
    } else {
      AddUncheckedKeepsGrown(env, limit, o, items[0], validate);
      if validate && AddUnchecked(env, limit, o, items[0], true).reply.Ok? {
        SucceedsUnvalidated(env, limit, o, items[0]);
        ValidationOnlyRejects(env, limit, o, items[0], true);
      }
    }
  }

  /** On a new object adding one item is the same as a command that adds many and has one. */
  lemma FirstItemReplays(env: Env, limit: nat, o: Object, item: string, validate: bool)
    requires |o.filters| == 1 && o.filters[0].numItems == 0 && o.filters[0].capacity >= 1
    ensures var one, many := HandleAdd(env, limit, o, [item], false, validate), HandleAdd(env, limit, o, [item], true, false);
            one.after == many.after && !one.reply.Fail? && !many.reply.Fail?
  {
    var flags := NewFlags(env, o, [item]);
    assert flags == [!ItemExists(env, o, item)];
    assert CountTrue(flags) == if flags[0] then 1 else 0 by { assert flags[..0] == []; }
    SumsOfPush(env, [], o.filters[0]);
    assert o.filters == [] + [o.filters[0]];
    var before := AddFirst(env, limit, o, [item], flags, false, 0);
    assert AddUnchecked(env, limit, o, item, validate) == AddUnchecked(env, limit, o, item, false);
  }

  // ---------- replaying a creation ----------

  ghost predicate Replica(primary: Context, replica: Context) {
    replica.mustObey && replica.limit == primary.limit
  }

  /**
   A created object is recreated from its printed properties exactly if its seed is marked as random
   just when it differs from the fixed seed; every other property always comes through.
   */
  lemma CreationReplays(env: Env, primary: Context, replica: Context, options: Options, o: Object)
    requires Create(env, primary, options) == Ok(o) && Replica(primary, replica)
    ensures HasFirst(o) && 1 <= Capacity(o) <= I64_MAX
    ensures Create(env, replica, SpelledOut(o)).Ok?
    ensures Create(env, replica, SpelledOut(o)) == Ok(o) <==> (o.seedRandom <==> o.filters[0].bloom.seed != FixedSeed())
    ensures Grown(env, o) && Unshrunk(o) && |o.filters| == 1 && o.filters[0].numItems == 0
  {
    CreationIsGrown(env, primary.limit, options.fpRate, options.tightening, options.capacity, options.expansion,
                    if options.seed.Some? then options.seed.value else primary.drawn, options.seedRandom, !primary.mustObey);
  }

  /** The options a node can create an object from mark a given seed correctly, and a drawn one as random. */
  ghost predicate SeedMarked(o: Options) {
    if o.seed.Some? then o.seedRandom <==> o.seed.value != FixedSeed() else o.seedRandom
  }

  /** Reading arguments marks seeds as `SeedMarked` says. */
  lemma {:induction false} ParsedSeedsAreMarked(codec: Codec, args: seq<string>, idx: nat, o: Options)
    requires idx <= |args| && SeedMarked(o)
    ensures var r := ParseFrom(codec, args, idx, o); r.Ok? ==> SeedMarked(r.value.options)
    decreases |args| - idx
  {
    if idx < |args| && codec.upper(args[idx]) != "ITEMS" {
      var read := ReadOption(codec, args, idx, o);
      if read.Ok? {
        assert SeedMarked(read.value.options);
        ParsedSeedsAreMarked(codec, args, read.value.next, read.value.options);
      }
    }
  }

  // ---------- verbatim commands and other defaults ----------

  /** What two nodes agree on after reading the same options over different defaults. */
  ghost predicate Agree(a: Options, b: Options) {
    && a.scaleTo == b.scaleTo && a.nocreate == b.nocreate
    && (a.expansion == b.expansion || b.expansion != 0)
  }

  ghost predicate AgreeButExpansion(a: Options, b: Options) {
    a.scaleTo == b.scaleTo && a.nocreate == b.nocreate
  }

  lemma ValueAgrees(codec: Codec, word: string, value: string, a: Options, b: Options, next: nat)
    requires AgreeButExpansion(a, b)
    ensures var ra, rb := ReadValue(codec, word, value, a, next), ReadValue(codec, word, value, b, next);
            && (ra.Ok? <==> rb.Ok?)
            && (ra.Ok? ==> && ra.value.next == rb.value.next
                           && AgreeButExpansion(ra.value.options, rb.value.options)
                           && (Agree(a, b) ==> Agree(ra.value.options, rb.value.options)))
  {
    hide ReadRate;
    hide ReadCapacity;
    hide ReadExpansion;
    hide FixedSeed;
  }

  lemma OptionAgrees(codec: Codec, args: seq<string>, idx: nat, a: Options, b: Options)
    requires idx < |args| && AgreeButExpansion(a, b)
    ensures var ra, rb := ReadOption(codec, args, idx, a), ReadOption(codec, args, idx, b);
            && (ra.Ok? <==> rb.Ok?)
            && (ra.Ok? ==> && ra.value.next == rb.value.next
                           && AgreeButExpansion(ra.value.options, rb.value.options)
                           && (Agree(a, b) ==> Agree(ra.value.options, rb.value.options)))
  {
    if idx < |args| - 1 { ValueAgrees(codec, codec.upper(args[idx]), args[idx + 1], a, b, idx + 2); }
    hide ReadValue;
  }

  /** The defaults decide neither whether arguments can be read nor where the items start. */
  lemma {:induction false} ParsingAgrees(codec: Codec, args: seq<string>, idx: nat, a: Options, b: Options)
    requires idx <= |args| && AgreeButExpansion(a, b)
    ensures var ra, rb := ParseFrom(codec, args, idx, a), ParseFrom(codec, args, idx, b);
            && (ra.Ok? <==> rb.Ok?)
            && (ra.Ok? ==> && ra.value.itemsAt == rb.value.itemsAt
                           && ra.value.itemsProvided == rb.value.itemsProvided
                           && AgreeButExpansion(ra.value.options, rb.value.options)
                           && (Agree(a, b) ==> Agree(ra.value.options, rb.value.options)))
    decreases |args| - idx
  {
    if idx < |args| && codec.upper(args[idx]) != "ITEMS" {
      OptionAgrees(codec, args, idx, a, b);
      var ra, rb := ReadOption(codec, args, idx, a), ReadOption(codec, args, idx, b);
      hide ReadOption;
      hide Agree;
      hide AgreeButExpansion;
      if ra.Ok? {
        ParsingAgrees(codec, args, ra.value.next, ra.value.options, rb.value.options);
      }
    }
  }

  /** The replica reads VALIDATESCALETO together with no expansion, which it refuses. */
  ghost predicate RefusesScaleTo(codec: Codec, replica: Context, args: seq<string>) {
    var r := ParseInsert(codec, replica.cfg, args);
    r.Ok? && r.value.options.scaleTo.Some? && r.value.options.expansion == 0
  }

  /** BF.INSERT on an object that is there already. */
  lemma InsertOnExisting(env: Env, codec: Codec, ctx: Context, keys: Keyspace, args: seq<string>)
    requires LiveKeys(keys) && |args| >= 2 && args[1] in keys
    ensures var e, r := Exec(env, codec, ctx, keys, InsertItems(args)), ParseInsert(codec, ctx.cfg, args);
            if r.Err? then e == Effect(keys, Fail(r.error), None)
            else if CheckScaleTo(env, ctx, r.value.options).Some?
            then e == Effect(keys, Fail(CheckScaleTo(env, ctx, r.value.options).value), None)
            else var h := HandleAdd(env, ctx.limit, keys[args[1]], args[r.value.itemsAt..], true, !ctx.mustObey);
                 e == Effect(keys[args[1] := h.after], h.reply, if h.added then Some(InsertItems(args)) else None)
  {
    hide ParseInsert;
    hide CheckScaleTo;
    hide HandleAdd;
    hide Create;
    hide CreationArgs;
  }

  /**
   A BF.INSERT that is logged verbatim, exactly: replaying it gives the replica the primary's object
   if and only if it does not use VALIDATESCALETO while the replica's default expansion, left in
   force by the arguments, is 0.
   */
  lemma VerbatimInsertReplays(env: Env, codec: Codec, primary: Context, replica: Context, keys: Keyspace,
                              args: seq<string>)
    requires KeysGrown(env, keys) && Replica(primary, replica)
    requires Exec(env, codec, primary, keys, InsertItems(args)).log == Some(InsertItems(args))
    requires |args| >= 2 && args[1] in keys
    ensures LiveKeys(keys)
    ensures var e, r := Exec(env, codec, primary, keys, InsertItems(args)), Exec(env, codec, replica, keys, InsertItems(args));
            && KeysGrown(env, e.keys)
            && (RefusesScaleTo(codec, replica, args) ==> r.keys == keys != e.keys && r.reply.Fail?)
            && (!RefusesScaleTo(codec, replica, args) ==> r.keys == e.keys && r.reply == e.reply)
  {
    GrownKeysAreLive(env, keys);
    ParsingAgrees(codec, args, 2, Defaults(primary.cfg), Defaults(replica.cfg));
    InsertOnExisting(env, codec, primary, keys, args);
    InsertOnExisting(env, codec, replica, keys, args);
    var p := ParseInsert(codec, primary.cfg, args);
    hide ParseFrom;
    hide Exec;
    hide Grown;
    hide Defaults;
    hide MaxScaledCapacity;
    hide CrossesFilterLimit;
    var key, items := args[1], args[p.value.itemsAt..];
    AddsReplay(env, primary.limit, keys[key], items, true, !primary.mustObey);
    hide HandleAdd;
    var h := HandleAdd(env, primary.limit, keys[key], items, true, !primary.mustObey);
    KeysGrownUpdate(env, keys, key, h.after);
    hide KeysGrown;
    hide LiveKeys;
    hide ParseInsert;
    hide Cardinality;
    assert keys[key := h.after][key] != keys[key];
  }

  // ---------- one step ----------

  /** Executing the logged creation command on the replica: the same object, and an error only if the primary had one. */
  lemma LoggedCreationReplays(env: Env, codec: Codec, primary: Context, replica: Context, keys: Keyspace, key: string,
                              options: Options, o: Object, items: seq<string>, multi: bool)
    requires KeysGrown(env, keys) && Replica(primary, replica)
    requires FaithfulText(codec) && SeedMarked(options) && primary.drawn != FixedSeed()
    requires key !in keys && Create(env, primary, options) == Ok(o) && (!multi ==> |items| == 1)
    ensures HasFirst(o) && LiveKeys(keys)
    ensures var h := HandleAdd(env, primary.limit, o, items, multi, !primary.mustObey);
            var r := Exec(env, codec, replica, keys, InsertItems(CreationArgs(codec, key, o, items)));
            && Grown(env, h.after) && Unshrunk(h.after)
            && r.keys == keys[key := h.after]
            && (r.reply.Fail? <==> h.reply.Fail?)
  {
    hide CapacityAt;
    GrownKeysAreLive(env, keys);
    CreationReplays(env, primary, replica, options, o);
    AddsReplay(env, primary.limit, o, items, multi, !primary.mustObey);
    if !multi {
      assert items == [items[0]];
      FirstItemReplays(env, primary.limit, o, items[0], !primary.mustObey);
    }
    PrintThenParse(codec, replica.cfg, key, o, items);
    hide ParseInsert;
    hide HandleAdd;
    hide CreationArgs;
    hide Create;
    hide Grown;
  }

  datatype Event = Event(command: Command, primary: Context, replica: Context)

  /**
   A command on a primary and the circumstances of its replay: the same memory limit; a seed that, if
   drawn, is not the fixed one; and no VALIDATESCALETO that the replica alone refuses because its
   default expansion is 0.
   */
  ghost predicate Admissible(codec: Codec, ev: Event) {
    && Replica(ev.primary, ev.replica) && ev.primary.drawn != FixedSeed()
    && (ev.command.InsertItems? && RefusesScaleTo(codec, ev.replica, ev.command.args) ==>
          RefusesScaleTo(codec, ev.primary, ev.command.args))
  }

  /** What one command and its replay do, from a common keyspace. */
  ghost predicate ReplaysWell(env: Env, codec: Codec, replica: Context, keys: Keyspace, e: Effect)
    requires LiveKeys(keys)
  {
    && KeysGrown(env, e.keys)
    && (e.log == None ==> e.keys == keys)
    && (e.log.Some? ==> var r := Exec(env, codec, replica, keys, e.log.value);
                        r.keys == e.keys && (r.reply.Fail? <==> e.reply.Fail?))
  }

  /** Adding to an existing object, which is logged verbatim or not at all. */
  lemma ExistingReplays(env: Env, codec: Codec, primary: Context, replica: Context, keys: Keyspace, key: string,
                        options: Options, items: seq<string>, multi: bool, original: Command)
    requires KeysGrown(env, keys) && Replica(primary, replica)
    requires key in keys && (!multi ==> |items| == 1)
    ensures LiveKeys(keys)
    ensures var e := AddOrCreate(env, codec, primary, keys, key, options, items, multi, original);
            && KeysGrown(env, e.keys)
            && (e.log == None ==> e.keys == keys)
            && (e.log.Some? ==> && e.log.value == original
                                && HandleAdd(env, replica.limit, keys[key], items, multi, false)
                                   == Handled(e.keys[key], e.reply, true)
                                && e.keys == keys[key := e.keys[key]])
  {
    hide CapacityAt;
    hide FixedSeed;
    hide CreationArgs;
    hide Create;
    hide Defaults;
    hide CrossesFilterLimit;
    GrownKeysAreLive(env, keys);
    AddsReplay(env, primary.limit, keys[key], items, multi, !primary.mustObey);
    var h := HandleAdd(env, primary.limit, keys[key], items, multi, !primary.mustObey);
    KeysGrownUpdate(env, keys, key, h.after);
    hide HandleAdd;
    hide Grown;
    hide KeysGrown;
    hide LiveKeys;
    hide Cardinality;
    assert !h.added ==> keys[key := h.after] == keys;
  }

  /** Adding to an object that has to be created first, which is logged as its creation. */
  lemma MissingReplays(env: Env, codec: Codec, primary: Context, replica: Context, keys: Keyspace, key: string,
                       options: Options, items: seq<string>, multi: bool, original: Command)
    requires KeysGrown(env, keys) && Replica(primary, replica)
    requires FaithfulText(codec) && SeedMarked(options) && primary.drawn != FixedSeed()
    requires key !in keys && (!multi ==> |items| == 1)
    ensures LiveKeys(keys)
    ensures ReplaysWell(env, codec, replica, keys, AddOrCreate(env, codec, primary, keys, key, options, items, multi, original))
  {
    hide CapacityAt;
    hide FixedSeed;
    hide HandleAdd;
    GrownKeysAreLive(env, keys);
    var e := AddOrCreate(env, codec, primary, keys, key, options, items, multi, original);
    if Create(env, primary, options).Ok? {
      var o := Create(env, primary, options).value;
      LoggedCreationReplays(env, codec, primary, replica, keys, key, options, o, items, multi);
      KeysGrownUpdate(env, keys, key, HandleAdd(env, primary.limit, o, items, multi, !primary.mustObey).after);
      hide Create;
      hide Exec;
      hide CreationArgs;
      hide Grown;
      hide KeysGrown;
      hide LiveKeys;
      assert key in e.keys;
    }
  }

  lemma AddReplays(env: Env, codec: Codec, primary: Context, replica: Context, keys: Keyspace, args: seq<string>,
                   multi: bool)
    requires KeysGrown(env, keys) && Replica(primary, replica)
    requires FaithfulText(codec) && primary.drawn != FixedSeed()
    ensures LiveKeys(keys) && ReplaysWell(env, codec, replica, keys, ExecAdd(env, codec, primary, keys, args, multi))
  {
    hide Grown;
    GrownKeysAreLive(env, keys);
    if |args| >= 3 && (multi || |args| == 3) {
      var original := if multi then AddMany(args) else AddOne(args);
      if args[1] in keys {
        ExistingReplays(env, codec, primary, replica, keys, args[1], Defaults(primary.cfg), args[2..], multi, original);
        var e := ExecAdd(env, codec, primary, keys, args, multi);
        hide HandleAdd;
        assert e.log.Some? ==> Exec(env, codec, replica, keys, original).keys == e.keys;
      } else {
        MissingReplays(env, codec, primary, replica, keys, args[1], Defaults(primary.cfg), args[2..], multi, original);
      }
    }
  }

  lemma InsertReplays(env: Env, codec: Codec, primary: Context, replica: Context, keys: Keyspace, args: seq<string>)
    requires KeysGrown(env, keys) && FaithfulText(codec)
    requires Admissible(codec, Event(InsertItems(args), primary, replica))
    ensures LiveKeys(keys) && ReplaysWell(env, codec, replica, keys, ExecInsert(env, codec, primary, keys, args))
  {
    hide Grown;
    GrownKeysAreLive(env, keys);
    var parsed, e := ParseInsert(codec, primary.cfg, args), ExecInsert(env, codec, primary, keys, args);
    if parsed.Ok? {
      ParsedSeedsAreMarked(codec, args, 2, Defaults(primary.cfg));
      var p := parsed.value;
      var items := args[p.itemsAt..];
      hide ParseFrom;
      if args[1] in keys {
        ExistingReplays(env, codec, primary, replica, keys, args[1], p.options, items, true, InsertItems(args));
        if e.log.Some? {
          VerbatimInsertReplays(env, codec, primary, replica, keys, args);
        }
      } else {
        MissingReplays(env, codec, primary, replica, keys, args[1], p.options, items, true, InsertItems(args));
      }
    }
  }

  /** What a logged BF.RESERVE did. */
  lemma ReserveEffect(env: Env, codec: Codec, ctx: Context, keys: Keyspace, args: seq<string>) returns (options: Options)
    requires ExecReserve(env, codec, ctx, keys, args).log.Some?
    ensures SeedMarked(options) && |args| >= 4 && args[1] !in keys
    ensures var created := Create(env, ctx, options);
            && created.Ok? && HasFirst(created.value)
            && ExecReserve(env, codec, ctx, keys, args) ==
               Effect(keys[args[1] := created.value], Done, Some(InsertItems(CreationArgs(codec, args[1], created.value, []))))
  {
    hide FixedSeed;
    hide CreationArgs;
    ReservedSeedsAreMarked(codec, ctx.cfg, args);
    options := ParseReserve(codec, ctx.cfg, args).value;
    hide ParseReserve;
  }

  lemma ReserveReplays(env: Env, codec: Codec, primary: Context, replica: Context, keys: Keyspace, args: seq<string>)
    requires KeysGrown(env, keys) && FaithfulText(codec)
    requires Admissible(codec, Event(Reserve(args), primary, replica))
    ensures LiveKeys(keys) && ReplaysWell(env, codec, replica, keys, ExecReserve(env, codec, primary, keys, args))
  {
    hide FixedSeed;
    GrownKeysAreLive(env, keys);
    if ExecReserve(env, codec, primary, keys, args).log.Some? {
      var options := ReserveEffect(env, codec, primary, keys, args);
      var o := Create(env, primary, options).value;
      LoggedCreationReplays(env, codec, primary, replica, keys, args[1], options, o, [], true);
      NoItemsNoChange(env, primary.limit, o, !primary.mustObey);
      KeysGrownUpdate(env, keys, args[1], o);
      hide HandleAdd;
      hide CreationArgs;
      hide Create;
      hide Exec;
      hide ExecReserve;
      hide Grown;
      hide KeysGrown;
      hide LiveKeys;
    }
  }

  lemma ReservedSeedsAreMarked(codec: Codec, cfg: Config, args: seq<string>)
    requires 4 <= |args| <= 6 && ParseReserve(codec, cfg, args).Ok?
    ensures SeedMarked(ParseReserve(codec, cfg, args).value)
  {
    hide ReadRate;
    hide ReadCapacity;
    hide ReadExpansion;
  }

  lemma NoItemsNoChange(env: Env, limit: nat, o: Object, validate: bool)
    requires HasFirst(o)
    ensures HandleAdd(env, limit, o, [], true, validate) == Handled(o, Numbers([]), false)
  {
    assert NewFlags(env, o, []) == [];
  }

  /** One command of the primary and the replay of what it logged leave the two nodes equal. */
  lemma StepReplays(env: Env, codec: Codec, keys: Keyspace, ev: Event)
    requires KeysGrown(env, keys) && FaithfulText(codec) && Admissible(codec, ev)
    ensures LiveKeys(keys) && ReplaysWell(env, codec, ev.replica, keys, Exec(env, codec, ev.primary, keys, ev.command))
  {
    GrownKeysAreLive(env, keys);
    match ev.command
    case AddOne(args) => AddReplays(env, codec, ev.primary, ev.replica, keys, args, false);
    case AddMany(args) => AddReplays(env, codec, ev.primary, ev.replica, keys, args, true);
    case Reserve(args) => ReserveReplays(env, codec, ev.primary, ev.replica, keys, args);
    case InsertItems(args) => InsertReplays(env, codec, ev.primary, ev.replica, keys, args);
    case Delete(key) => hide Grown; assert key !in keys ==> keys - {key} == keys;
  }

  // ---------- whole runs ----------

  /** A logged command, and what surrounds its replay. */
  datatype LogEntry = LogEntry(command: Command, replica: Context)

  datatype PrimaryRun = PrimaryRun(keys: Keyspace, log: seq<LogEntry>)

  function RunPrimary(env: Env, codec: Codec, keys: Keyspace, events: seq<Event>): PrimaryRun
    requires LiveKeys(keys)
    decreases |events|
  {
    if events == [] then PrimaryRun(keys, []) else
    var ev := events[0];
    var e := Exec(env, codec, ev.primary, keys, ev.command);
    ExecKeepsLive(env, codec, ev.primary, keys, ev.command);
    var rest := RunPrimary(env, codec, e.keys, events[1..]);
    PrimaryRun(rest.keys, (if e.log.Some? then [LogEntry(e.log.value, ev.replica)] else []) + rest.log)
  }

  function Replay(env: Env, codec: Codec, keys: Keyspace, log: seq<LogEntry>): Keyspace
    requires LiveKeys(keys)
    decreases |log|
  {
    if log == [] then keys else
    ExecKeepsLive(env, codec, log[0].replica, keys, log[0].command);
    Replay(env, codec, Exec(env, codec, log[0].replica, keys, log[0].command).keys, log[1..])
  }

  lemma {:induction false} ReplayFollows(env: Env, codec: Codec, keys: Keyspace, events: seq<Event>)
    requires KeysGrown(env, keys) && FaithfulText(codec)
    requires forall ev :: ev in events ==> Admissible(codec, ev)
    ensures LiveKeys(keys)
    ensures var run := RunPrimary(env, codec, keys, events);
            KeysGrown(env, run.keys) && Replay(env, codec, keys, run.log) == run.keys
    decreases |events|
  {
    hide KeysGrown;
    hide Exec;
    hide Admissible;
    GrownKeysAreLive(env, keys);
    if events != [] {
      var ev := events[0];
      StepReplays(env, codec, keys, ev);
      var e := Exec(env, codec, ev.primary, keys, ev.command);
      ReplayFollows(env, codec, e.keys, events[1..]);
      var rest := RunPrimary(env, codec, e.keys, events[1..]);
      if e.log.Some? {
        assert ([LogEntry(e.log.value, ev.replica)] + rest.log)[1..] == rest.log;
      } else {
        assert [] + rest.log == rest.log;
      }
    }
  }

  /**
   Replica convergence: for every run of BF.RESERVE, BF.ADD, BF.MADD, BF.INSERT and DEL on a primary,
   with any arguments and under any changes of configuration on either side, replaying the log on an
   empty replica gives an equal object under every key, in every field. This includes creations whose
   batch of items was rejected.
   */
  lemma ReplicaConverges(env: Env, codec: Codec, events: seq<Event>)
    requires FaithfulText(codec) && forall ev :: ev in events ==> Admissible(codec, ev)
    ensures var run := RunPrimary(env, codec, map[], events);
            Replay(env, codec, map[], run.log) == run.keys
  {
    ReplayFollows(env, codec, map[], events);
  }
}

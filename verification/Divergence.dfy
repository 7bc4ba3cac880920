/**
 Where replication does not do what one would expect: commands that are logged although they were
 answered with an error, and nodes that differ in what their configuration must not differ in.
 */
module Divergence {
  import opened Platform
  import opened RawBloom
  import opened ScalingObject
  import opened Simulator
  import opened BatchAdd
  import opened Replies
  import opened Effects
  import opened AdvertisedMaximum
  import opened Decimal
  import opened Commands
  import opened Replication
  import opened SmallObjects
  import opened DoublesAsText

  // ---------- logged errors ----------

  function ItemSet(items: seq<string>): set<string> { set s | s in items }

  /** More different items than a new object with these options can take. */
  ghost predicate TooManyForNew(env: Env, limit: nat, options: Options, items: seq<string>) {
    var p, count := Plan(env, options.capacity, options.fpRate, options.tightening, options.expansion), |ItemSet(items)|;
    && count > options.capacity
    && (options.expansion == 0 || MaxScaledCapacity(p, limit, count).Err? || count > p.Total(I32_MAX))
  }

  /** The batch of items is answered with an error, and yet the command is logged. */
  ghost predicate BatchLogsError(env: Env, ctx: Context, keys: Keyspace, key: string, options: Options, items: seq<string>)
    requires LiveKeys(keys)
  {
    if key in keys then CrossesFilterLimit(env, ctx.limit, keys[key], items)
    else Create(env, ctx, options).Ok? && TooManyForNew(env, ctx.limit, options, items)
  }

  /** What can be told before the command is executed: it will be answered with an error and be logged. */
  ghost predicate LogsError(env: Env, codec: Codec, ctx: Context, keys: Keyspace, c: Command)
    requires LiveKeys(keys)
  {
    match c
    case AddMany(args) => |args| >= 3 && BatchLogsError(env, ctx, keys, args[1], Defaults(ctx.cfg), args[2..])
    case InsertItems(args) =>
      var parsed := ParseInsert(codec, ctx.cfg, args);
      && parsed.Ok? && CheckScaleTo(env, ctx, parsed.value.options) == None
      && (args[1] in keys || !parsed.value.options.nocreate)
      && BatchLogsError(env, ctx, keys, args[1], parsed.value.options, args[parsed.value.itemsAt..])
    case _ => false
  }

  /** In a new object every item is new on its first occurrence. */
  lemma NewItemsOfNewObject(env: Env, ctx: Context, options: Options, items: seq<string>)
    requires Create(env, ctx, options).Ok?
    ensures CountTrue(NewFlags(env, Create(env, ctx, options).value, items)) == |ItemSet(items)|
  {
    var o := Create(env, ctx, options).value;
    CountOfNew(env, o, items);
    forall item ensures !SomeFilterFinds(env, o, item) {
      EmptyFindsNothing(env, o.filters[0], item);
    }
    assert NewItems(env, o, items) == ItemSet(items);
  }

  /** What is known of an object that has just been created. */
  lemma NewObject(env: Env, ctx: Context, options: Options)
    requires Create(env, ctx, options).Ok?
    ensures var o := Create(env, ctx, options).value;
            && Grown(env, o) && Unshrunk(o) && Cardinality(o) == 0 && Capacity(o) == options.capacity
            && PlanOf(env, o) == Plan(env, options.capacity, options.fpRate, options.tightening, options.expansion)
            && |o.filters| == 1 && o.filters[0].numItems == 0
  {
    CreationIsGrown(env, ctx.limit, options.fpRate, options.tightening, options.capacity, options.expansion,
                    if options.seed.Some? then options.seed.value else ctx.drawn, options.seedRandom, !ctx.mustObey);
  }

  /** The first sub-filters, up to the largest number of them, hold at least what the first one holds. */
  lemma TotalCoversFirst(env: Env, o: Object)
    requires Grown(env, o)
    ensures Capacity(o) <= PlanOf(env, o).Total(I32_MAX)
  {
    CapacityCoversCardinality(env, o);
    TotalsIncrease(PlanOf(env, o), |o.filters|, I32_MAX);
  }

  /** A batch on a new object fails exactly if it has more different items than the object can take. */
  lemma BatchOnNewObject(env: Env, ctx: Context, options: Options, items: seq<string>)
    requires Create(env, ctx, options).Ok?
    ensures HasFirst(Create(env, ctx, options).value)
    ensures var o := Create(env, ctx, options).value;
            HandleAdd(env, ctx.limit, o, items, true, !ctx.mustObey).reply.Fail? <==> TooManyForNew(env, ctx.limit, options, items)
  {
    hide CapacityAt;
    var o := Create(env, ctx, options).value;
    NewObject(env, ctx, options);
    NewItemsOfNewObject(env, ctx, options, items);
    BatchIsAtomic(env, ctx.limit, o, items, !ctx.mustObey);
    TotalCoversFirst(env, o);
    assert PlanOf(env, o).expansion == o.expansion;
    hide Create;
    hide HandleMulti;
    hide NewFlags;
    hide MaxScaledCapacity;
    hide ItemSet;
    hide Grown;
  }

  /** The common end of the commands that add: which errors of a batch are logged. */
  lemma BatchErrors(env: Env, codec: Codec, ctx: Context, keys: Keyspace, key: string, options: Options,
                    items: seq<string>, original: Command)
    requires KeysGrown(env, keys)
    ensures LiveKeys(keys)
    ensures var e := AddOrCreate(env, codec, ctx, keys, key, options, items, true, original);
            e.log.Some? && e.reply.Fail? <==> BatchLogsError(env, ctx, keys, key, options, items)
  {
    GrownKeysAreLive(env, keys);
    if key in keys {
      AddsReplay(env, ctx.limit, keys[key], items, true, !ctx.mustObey);
      hide HandleAdd;
    } else if Create(env, ctx, options).Ok? {
      BatchOnNewObject(env, ctx, options, items);
      hide HandleAdd;
      hide TooManyForNew;
    }
  }

  /** A single item is never logged with an error. */
  lemma SingleErrors(env: Env, codec: Codec, ctx: Context, keys: Keyspace, key: string, options: Options, item: string,
                     original: Command)
    requires KeysGrown(env, keys)
    ensures LiveKeys(keys)
    ensures var e := AddOrCreate(env, codec, ctx, keys, key, options, [item], false, original);
            !(e.log.Some? && e.reply.Fail?)
  {
    GrownKeysAreLive(env, keys);
    if key in keys {
      AddsReplay(env, ctx.limit, keys[key], [item], false, !ctx.mustObey);
      hide HandleAdd;
    } else if Create(env, ctx, options).Ok? {
      NewObject(env, ctx, options);
      FirstItemReplays(env, ctx.limit, Create(env, ctx, options).value, item, !ctx.mustObey);
      hide HandleAdd;
    }
  }

  /**
   The commands that are logged although they are answered with an error, exactly: those that create an
   object and bring more different items than it can take; and, out of reach for any memory there is,
   those that stop at the largest number of sub-filters.
   */
  lemma LoggedErrors(env: Env, codec: Codec, ctx: Context, keys: Keyspace, c: Command)
    requires KeysGrown(env, keys)
    ensures LiveKeys(keys)
    ensures var e := Exec(env, codec, ctx, keys, c);
            e.log.Some? && e.reply.Fail? <==> LogsError(env, codec, ctx, keys, c)
  {
    GrownKeysAreLive(env, keys);
    hide AddOrCreate;
    hide BatchLogsError;
    hide KeysGrown;
    match c
    case AddOne(args) =>
      if |args| == 3 {
        assert args[2..] == [args[2]];
        SingleErrors(env, codec, ctx, keys, args[1], Defaults(ctx.cfg), args[2], c);
      }
    case AddMany(args) =>
      if |args| >= 3 { BatchErrors(env, codec, ctx, keys, args[1], Defaults(ctx.cfg), args[2..], c); }
    case Reserve(args) =>
    case InsertItems(args) =>
      var parsed := ParseInsert(codec, ctx.cfg, args);
      if parsed.Ok? {
        hide ParseFrom;
        BatchErrors(env, codec, ctx, keys, args[1], parsed.value.options, args[parsed.value.itemsAt..], c);
      }
    case Delete(key) =>
  }

  // ---------- unequal memory limits ----------

  lemma RefusalsAreNotTheFilterLimit(env: Env, limit: nat, o: Object, count: nat)
    requires HasFirst(o)
    ensures ValidateAddItems(env, limit, o, count) != Some(MaxNumScalingFilters)
  {
    if o.expansion > 0 && Cardinality(o) + count != -1 {
      StopsWithAStopError(PlanOf(env, o), limit, Cardinality(o) + count, 0);
    } else if o.expansion > 0 {
      StopsWithAStopError(PlanOf(env, o), limit, -1, 0);
    }
  }

  lemma {:induction false} StopsWithAStopError(p: Plan, limit: nat, target: int, i: nat)
    ensures var r := SimulateFrom(p, limit, target, i);
            r.Err? ==> r.error in {ValidateScaleToExceedsMaxSize, ValidateScaleToFalsePositiveInvalid, BadCapacity}
    decreases limit - p.Bytes(i)
  {
    if (p.Total(i) < target || target == -1) && StepAt(p, limit, i) == Continue {
      StopsWithAStopError(p, limit, target, i + 1);
    }
  }

  /** Without size validation the limit plays no part in adding. */
  lemma {:induction false} LimitIsIgnored(env: Env, limit: nat, limit': nat, o: Object, items: seq<string>,
                                          flags: seq<bool>, k: nat)
    requires |flags| == |items| && k <= |items|
    ensures AddFirst(env, limit, o, items, flags, false, k) == AddFirst(env, limit', o, items, flags, false, k)
  {
    if k > 0 {
      LimitIsIgnored(env, limit, limit', o, items, flags, k - 1);
      assert forall b, item :: AddUnchecked(env, limit, b, item, false) == AddUnchecked(env, limit', b, item, false);
      hide AddUnchecked;
    }
  }

  /**
   A batch and its replay on a node with another memory limit: they come out the same if and only if the
   two limits lead to the same verdict of validation, which a replica does not skip.
   */
  lemma UnequalLimits(env: Env, limit: nat, limit': nat, o: Object, items: seq<string>, validate: bool)
    requires Grown(env, o) && Unshrunk(o)
    ensures var count := CountTrue(NewFlags(env, o, items));
            HandleMulti(env, limit', o, items, false) == HandleMulti(env, limit, o, items, validate) <==>
            ValidateAddItems(env, limit', o, count) == ValidateAddItems(env, limit, o, count)
  {
    hide CapacityAt;
    var flags := NewFlags(env, o, items);
    BatchIsAtomic(env, limit, o, items, validate);
    BatchIsAtomic(env, limit', o, items, false);
    RefusalsAreNotTheFilterLimit(env, limit, o, CountTrue(flags));
    RefusalsAreNotTheFilterLimit(env, limit', o, CountTrue(flags));
    LimitIsIgnored(env, limit, limit', o, items, flags, |items|);
    hide ValidateAddItems;
    hide AddFirst;
    hide NewFlags;
    hide Grown;
    hide Unshrunk;
    hide ItemExists;
  }

  /** One new item for a row of one small sub-filter: there is room for it under 200 bytes, but not under 110. */
  lemma VerdictsDiffer()
    ensures var env, o := EnvOf(Small()), Row(Small(), 1, 1);
            && Grown(env, o) && Unshrunk(o) && CountTrue(NewFlags(env, o, [ItemOf(1)])) == 1
            && ValidateAddItems(env, 200, o, 1) == None && ValidateAddItems(env, 110, o, 1) == Some(ExceedsMaxBloomSize)
  {
    var env, o, p, items := EnvOf(Small()), Row(Small(), 1, 1), PlanFor(Small()), [ItemOf(1)];
    SmallLasts(1);
    RowIsGrown(Small(), 1, 1);
    NotInRow(Small(), 1, 1, ItemOf(1));
    assert NewFlags(env, o, items) == [true] by { assert IsNew(env, o, items, 0); }
    assert CountTrue([true]) == 1 by { assert [true][..0] == []; }
    hide NewFlags;
    hide ItemExists;
    hide Row;
    SmallSteps();
    Simulated(Small(), 200, 2, 0);
    SmallTotals(0);
    SmallTotals(1);
    hide PlanFor;
    hide StepAt;
    assert SimulateFrom(p, 110, 2, 1) == Err(ValidateScaleToExceedsMaxSize);
  }

  lemma SmallSteps()
    ensures var p := PlanFor(Small());
            && StepAt(p, 200, 0) == StepAt(p, 200, 1) == Continue
            && StepAt(p, 110, 0) == Continue && StepAt(p, 110, 1) == TooLarge
  {
    SmallTotals(1);
    SmallTotals(2);
    SmallVectors(2);
    SmallRates(0);
    SmallRates(1);
  }

  /**
   A primary under 200 bytes and a replica under 110 hold the same object, which creation and one BF.ADD
   have made under either limit. A batch of one new item goes through on the primary and not on the replica.
   */
  lemma LimitsCanDisagree() returns (env: Env, created: Object, o: Object, items: seq<string>)
    ensures forall limit :: limit in {110, 200} ==>
              && NewReserved(env, limit, Half(), Half(), 1, 1, SmallSeed(), true, true) == Ok(created)
              && AddItem(env, limit, created, ItemOf(0), true) == AddOutcome(o, Ok(1))
    ensures HasFirst(o) && HandleMulti(env, 200, o, items, true) != HandleMulti(env, 110, o, items, false)
  {
    env, created, o, items := EnvOf(Small()), Empty(Small()), Row(Small(), 1, 1), [ItemOf(1)];
    VerdictsDiffer();
    CreatesEmpty(Small(), 110);
    CreatesEmpty(Small(), 200);
    FirstAdd(Small(), 110);
    FirstAdd(Small(), 200);
    hide EnvOf;
    hide Empty;
    hide Row;
    hide NewReserved;
    hide AddItem;
    hide ValidateAddItems;
    hide HandleMulti;
    UnequalLimits(env, 200, 110, o, items, true);
  }

  // ---------- commands that show it ----------

  /** A node with the small objects' properties as defaults, under 110 bytes. */
  ghost function SmallContext(expansion: U32, mustObey: bool): Context {
    Context(110, Config(Half(), Half(), 1, expansion, true), SmallSeed(), mustObey)
  }

  lemma SmallSeedIsNotFixed()
    ensures SmallSeed() != FixedSeed()
  {
    assert SmallSeed()[0] == 'x' && FixedSeed()[0] == 89 as char;
  }

  /** BF.INSERT with CAPACITY 1, NONSCALING and two items. */
  ghost function OverfullInsert(): seq<string> {
    CreationArgs(PlainCodec(), "key", Empty(Small()).(expansion := 0), [ItemOf(0), ItemOf(1)])
  }

  /** The object it creates, as it spells out the options. */
  lemma OverfullObject()
    ensures var o := Empty(Small()).(expansion := 0);
            && HasFirst(o) && Capacity(o) == 1
            && SpelledOut(o) == Options(Half(), Half(), 1, 0, Some(SmallSeed()), true, None, false)
  {
    var o := Empty(Small()).(expansion := 0);
    SumsOfPush(EnvOf(Small()), [], o.filters[0]);
    assert [] + o.filters == o.filters;
    SmallSeedIsNotFixed();
    hide FixedSeed;
  }

  lemma OverfullIsTooMany()
    ensures var options := Options(Half(), Half(), 1, 0, Some(SmallSeed()), true, None, false);
            && Create(EnvOf(Small()), SmallContext(1, false), options).Ok?
            && TooManyForNew(EnvOf(Small()), 110, options, [ItemOf(0), ItemOf(1)])
  {
    var items := [ItemOf(0), ItemOf(1)];
    assert ItemSet(items) == {ItemOf(0), ItemOf(1)} && |ItemOf(0)| != |ItemOf(1)|;
  }

  lemma OverfullLogsError()
    ensures LiveKeys(map[])
    ensures LogsError(EnvOf(Small()), PlainCodec(), SmallContext(1, false), map[], InsertItems(OverfullInsert()))
  {
    var codec, ctx, o := PlainCodec(), SmallContext(1, false), Empty(Small()).(expansion := 0);
    TextCanBeFaithful();
    OverfullObject();
    OverfullIsTooMany();
    hide SmallSeed;
    hide PlainCodec;
    hide CreationArgs;
    hide Empty;
    hide TooManyForNew;
    hide Create;
    hide ItemOf;
    hide ParseInsert;
    PrintThenParse(codec, ctx.cfg, "key", o, [ItemOf(0), ItemOf(1)]);
  }

  /** It creates the object, is answered with an error, and is logged; the replica answers with an error, too. */
  lemma RejectedCreationIsLogged()
    ensures KeysGrown(EnvOf(Small()), map[]) && LiveKeys(map[])
    ensures var e := Exec(EnvOf(Small()), PlainCodec(), SmallContext(1, false), map[], InsertItems(OverfullInsert()));
            && e.reply.Fail? && e.log.Some?
            && var r := Exec(EnvOf(Small()), PlainCodec(), SmallContext(7, true), map[], e.log.value);
            r.reply.Fail? && r.keys == e.keys
  {
    var env, codec, ctx, c := EnvOf(Small()), PlainCodec(), SmallContext(1, false), InsertItems(OverfullInsert());
    TextCanBeFaithful();
    SmallSeedIsNotFixed();
    OverfullLogsError();
    InsertWithoutScaleTo();
    hide Exec;
    hide LogsError;
    hide PlainCodec;
    hide OverfullInsert;
    hide FixedSeed;
    LoggedErrors(env, codec, ctx, map[], c);
    StepReplays(env, codec, map[], Event(c, ctx, SmallContext(7, true)));
  }

  lemma InsertWithoutScaleTo()
    ensures !RefusesScaleTo(PlainCodec(), SmallContext(7, true), OverfullInsert())
  {
    TextCanBeFaithful();
    OverfullObject();
    hide PlainCodec;
    hide CreationArgs;
    hide Empty;
    hide ParseInsert;
    PrintThenParse(PlainCodec(), SmallContext(7, true).cfg, "key", Empty(Small()).(expansion := 0), [ItemOf(0), ItemOf(1)]);
  }

  /** BF.INSERT with VALIDATESCALETO 1 and one item. */
  ghost function ScaleToInsert(): seq<string> {
    ["BF.INSERT", "key", "VALIDATESCALETO", Show(1), "ITEMS", ItemOf(0)]
  }

  lemma ScaleToInsertIsRead(cfg: Config)
    ensures ParseInsert(PlainCodec(), cfg, ScaleToInsert()) == Ok(Parsed(Defaults(cfg).(scaleTo := Some(1)), 5, true))
    ensures ScaleToInsert()[5..] == [ItemOf(0)]
  {
    var codec, args, o := PlainCodec(), ScaleToInsert(), Defaults(cfg);
    ReadBack(1);
    assert ReadOption(codec, args, 2, o) == Ok(OptionRead(o.(scaleTo := Some(1)), 4));
    hide ReadOption;
    hide Defaults;
    assert ParseFrom(codec, args, 4, o.(scaleTo := Some(1))) == Ok(Parsed(o.(scaleTo := Some(1)), 5, true));
  }

  lemma EmptyObjectIsGrown()
    ensures var env, o := EnvOf(Small()), Empty(Small()); Grown(env, o) && Unshrunk(o) && Cardinality(o) == 0 && Capacity(o) == 1
  {
    CreatesEmpty(Small(), 110);
    CreationIsGrown(EnvOf(Small()), 110, Half(), Half(), 1, 1, SmallSeed(), true, true);
  }

  /** The empty object takes a batch of one item. */
  lemma EmptyTakesOne()
    ensures HasFirst(Empty(Small())) && HandleMulti(EnvOf(Small()), 110, Empty(Small()), [ItemOf(0)], true).added
  {
    var env, o, items := EnvOf(Small()), Empty(Small()), [ItemOf(0)];
    EmptyObjectIsGrown();
    NothingFound(Small(), o.filters[0].bloom, ItemOf(0));
    assert NewFlags(env, o, items) == [true] by { assert IsNew(env, o, items, 0); }
    assert CountTrue([true]) == 1 by { assert [true][..0] == []; }
    hide Empty;
    hide EnvOf;
    hide NewFlags;
    hide ItemExists;
    BatchIsAtomic(env, 110, o, items, true);
    TotalCoversFirst(env, o);
  }

  lemma ScaleToIsAccepted()
    ensures var ctx := SmallContext(1, false); CheckScaleTo(EnvOf(Small()), ctx, Defaults(ctx.cfg).(scaleTo := Some(1))) == None
  {
    SmallSimulation();
    var m := ExactThreshold(PlanFor(Small()), 110, 1, 1);
  }

  /** On an empty object that may grow, a primary accepts it, adds the item and logs the command as it is. */
  lemma ScaleToInsertIsLogged()
    ensures KeysGrown(EnvOf(Small()), map["key" := Empty(Small())]) && LiveKeys(map["key" := Empty(Small())])
    ensures Exec(EnvOf(Small()), PlainCodec(), SmallContext(1, false), map["key" := Empty(Small())], InsertItems(ScaleToInsert())).log
            == Some(InsertItems(ScaleToInsert()))
  {
    ScaleToInsertIsRead(SmallContext(1, false).cfg);
    ScaleToIsAccepted();
    EmptyObjectIsGrown();
    EmptyTakesOne();
    hide CheckScaleTo;
    hide ParseInsert;
    hide HandleMulti;
    hide Create;
    hide Empty;
    hide EnvOf;
    hide PlainCodec;
    hide Defaults;
    hide Grown;
    hide CreationArgs;
  }

  /** A replica whose default expansion is 0 refuses it, and is left without the item. */
  lemma ScaleToInsertDiverges()
    ensures LiveKeys(map["key" := Empty(Small())])
    ensures var keys, c := map["key" := Empty(Small())], InsertItems(ScaleToInsert());
            var e := Exec(EnvOf(Small()), PlainCodec(), SmallContext(1, false), keys, c);
            && e.log == Some(c)
            && var r := Exec(EnvOf(Small()), PlainCodec(), SmallContext(0, true), keys, e.log.value);
            r.reply.Fail? && r.keys == keys != e.keys
  {
    var keys, args := map["key" := Empty(Small())], ScaleToInsert();
    ScaleToInsertIsLogged();
    ScaleToInsertIsRead(SmallContext(0, true).cfg);
    assert RefusesScaleTo(PlainCodec(), SmallContext(0, true), args);
    assert "key" in keys && args[1] == "key" && |args| >= 2;
    hide RefusesScaleTo;
    hide Exec;
    hide ScaleToInsert;
    hide PlainCodec;
    hide EnvOf;
    hide Empty;
    hide KeysGrown;
    hide LiveKeys;
    VerbatimInsertReplays(EnvOf(Small()), PlainCodec(), SmallContext(1, false), SmallContext(0, true), keys, args);
  }
}

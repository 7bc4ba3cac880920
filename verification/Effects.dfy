/**
 What the write commands do to a keyspace, told by their arguments and the fields of the configuration:
 the object that is created, the reply, what is left alone and what is logged.
 */
module Effects {
  import opened Platform
  import opened RawBloom
  import opened ScalingObject
  import opened Simulator
  import opened BatchAdd
  import opened Replies
  import opened Commands
  import opened Arguments
  import opened Replication

  // ---------- adding to an object ----------

  /** The reply of an adding command and what becomes of the object it adds to. */
  ghost predicate Answer(env: Env, limit: nat, o: Object, items: seq<string>, multi: bool, validate: bool, k: nat,
                         reply: Reply, after: Object)
    requires Grown(env, o) && (!multi ==> items != [])
  {
    if multi then
      && (reply.Numbers? || reply.Fail?)
      && BatchAnswer(env, limit, o, items, validate, k, if reply.Numbers? then Ok(reply.ns) else Err(reply.error), after)
    else
      && (reply.Number? || reply.Fail?)
      && SingleAnswer(env, limit, o, items[0], validate, if reply.Number? then Ok(reply.n) else Err(reply.error), after)
  }

  lemma HandledIsAnswered(env: Env, limit: nat, o: Object, items: seq<string>, multi: bool, validate: bool)
    returns (k: nat)
    requires Grown(env, o) && (!multi ==> items != [])
    ensures HasFirst(o)
    ensures var h := HandleAdd(env, limit, o, items, multi, validate);
            && Answer(env, limit, o, items, multi, validate, k, h.reply, h.after)
            && (h.added <==> Cardinality(h.after) > Cardinality(o))
  {
    assert HasFirst(o);
    hide HandleMulti;
    hide AddItem;
    hide BatchAnswer;
    hide SomeFilterFinds;
    hide Grown;
    hide Cardinality;
    hide Capacity;
    k := 0;
    if multi {
      k := BatchIsAnswered(env, limit, o, items, validate);
    } else {
      SingleIsAnswered(env, limit, o, items[0], validate);
      AddedMeansOneMore(env, limit, o, items[0], validate);
      hide SingleAnswer;
    }
  }

  lemma AddedMeansOneMore(env: Env, limit: nat, o: Object, item: string, validate: bool)
    requires Grown(env, o)
    ensures var r := AddItem(env, limit, o, item, validate); r.reply == Ok(1) <==> Cardinality(r.after) > Cardinality(o)
  {
    SingleIsAnswered(env, limit, o, item, validate);
    hide AddItem;
    hide SomeFilterFinds;
    hide Grown;
    hide Cardinality;
    hide Capacity;
  }

  /** Adding to the object that is there; the command is logged as it came if the object holds more than before. */
  ghost predicate AddsToExisting(env: Env, ctx: Context, keys: Keyspace, key: string, items: seq<string>, multi: bool,
                                 original: Command, k: nat, e: Effect)
    requires key in keys && Grown(env, keys[key]) && (!multi ==> items != [])
  {
    && key in e.keys && e.keys == keys[key := e.keys[key]]
    && Answer(env, ctx.limit, keys[key], items, multi, !ctx.mustObey, k, e.reply, e.keys[key])
    && e.log == if Cardinality(e.keys[key]) > Cardinality(keys[key]) then Some(original) else None
  }

  // ---------- creating an object ----------

  /** An object that has just been made: it grows by the plan, and finds nothing. */
  ghost predicate JustMade(env: Env, o: Object, p: Plan, seed: Seed, seedRandom: bool) {
    && Grown(env, o) && Unshrunk(o) && PlanOf(env, o) == p
    && o.filters[0].bloom.seed == seed && o.seedRandom == seedRandom
    && Cardinality(o) == 0 && Capacity(o) == p.start
    && forall item :: !SomeFilterFinds(env, o, item)
  }

  /** The object with its first sub-filter is beyond the limit, and the limit matters. */
  predicate OverTheLimit(env: Env, ctx: Context, p: Plan) {
    && !ctx.mustObey
    && OBJECT_BYTES + BOX_BYTES + FILTER_BYTES + env.bloomBytes + env.bitmapBytes(p.start, p.fpRate) > ctx.limit
  }

  /** What is logged is a BF.INSERT that any node, whatever its configuration, reads as this creation and these items. */
  ghost predicate LogsCreation(codec: Codec, other: Config, log: Option<Command>, key: string, p: Plan, seed: Seed,
                               items: seq<string>)
  {
    && log.Some? && log.value.InsertItems?
    && var args := log.value.args;
    var r := ParseInsert(codec, other, args);
    && r.Ok? && args[0] == "BF.INSERT" && args[1] == key && args[r.value.itemsAt..] == items
    && p.start <= I64_MAX
    && r.value.options == Options(p.fpRate, p.tightening, p.start, p.expansion, Some(seed), seed != FixedSeed(), None, false)
  }

  /** Creating the object and adding to it, or refusing to create it. */
  ghost predicate CreatesAndAdds(env: Env, codec: Codec, other: Config, ctx: Context, keys: Keyspace, key: string, p: Plan,
                                 seed: Seed, seedRandom: bool, items: seq<string>, multi: bool, made: Object, k: nat,
                                 e: Effect)
    requires !multi ==> items != []
  {
    if OverTheLimit(env, ctx, p) then e == Effect(keys, Fail(ExceedsMaxBloomSize), None) else
    && JustMade(env, made, p, seed, seedRandom)
    && key in e.keys && e.keys == keys[key := e.keys[key]]
    && Answer(env, ctx.limit, made, items, multi, !ctx.mustObey, k, e.reply, e.keys[key])
    && LogsCreation(codec, other, e.log, key, p, seed, items)
  }

  function WantedPlan(env: Env, o: Options): Plan {
    Plan(env, o.capacity, o.fpRate, o.tightening, o.expansion)
  }

  function WantedSeed(ctx: Context, o: Options): Seed {
    if o.seed.Some? then o.seed.value else ctx.drawn
  }

  lemma EmptyFindsNothing(env: Env, f: Filter, item: string)
    requires f.bloom.hashes >= 1 && f.bloom.ones == {}
    ensures !Check(env, f.bloom, item)
  {
    assert env.hash(f.bloom.seed, item, 0) % (8 * f.bloom.bytes) in Positions(env, f.bloom, item);
  }

  lemma CreatedIsJustMade(env: Env, ctx: Context, o: Options)
    ensures var r := Create(env, ctx, o);
            if OverTheLimit(env, ctx, WantedPlan(env, o)) then r == Err(ExceedsMaxBloomSize)
            else r.Ok? && JustMade(env, r.value, WantedPlan(env, o), WantedSeed(ctx, o), o.seedRandom)
  {
    CreationIsGrown(env, ctx.limit, o.fpRate, o.tightening, o.capacity, o.expansion, WantedSeed(ctx, o), o.seedRandom,
                    !ctx.mustObey);
    hide Grown;
    hide Unshrunk;
    hide Cardinality;
    hide Capacity;
    hide Check;
    var r := Create(env, ctx, o);
    if r.Ok? {
      forall item ensures !SomeFilterFinds(env, r.value, item) {
        EmptyFindsNothing(env, r.value.filters[0], item);
      }
    }
  }

  lemma CreationIsLogged(env: Env, codec: Codec, other: Config, key: string, o: Object, p: Plan, seed: Seed,
                         seedRandom: bool, items: seq<string>)
    requires FaithfulText(codec) && JustMade(env, o, p, seed, seedRandom) && p.start <= I64_MAX
    ensures HasFirst(o) && LogsCreation(codec, other, Some(InsertItems(CreationArgs(codec, key, o, items))), key, p, seed, items)
  {
    PrintThenParse(codec, other, key, o, items);
    assert CreationArgs(codec, key, o, items)[0] == "BF.INSERT";
    hide CreationArgs;
    hide ParseInsert;
    hide FixedSeed;
    hide Capacity;
  }

  lemma ExistingEffect(env: Env, codec: Codec, ctx: Context, keys: Keyspace, key: string, options: Options,
                       items: seq<string>, multi: bool, original: Command)
    returns (k: nat)
    requires LiveKeys(keys) && key in keys && Grown(env, keys[key]) && (!multi ==> items != [])
    ensures AddsToExisting(env, ctx, keys, key, items, multi, original, k,
                           AddOrCreate(env, codec, ctx, keys, key, options, items, multi, original))
  {
    hide HandleAdd;
    hide Answer;
    hide Grown;
    hide Cardinality;
    k := HandledIsAnswered(env, ctx.limit, keys[key], items, multi, !ctx.mustObey);
  }

  lemma CreationEffect(env: Env, codec: Codec, other: Config, ctx: Context, keys: Keyspace, key: string, options: Options,
                       items: seq<string>, multi: bool, original: Command)
    returns (made: Object, k: nat)
    requires FaithfulText(codec) && LiveKeys(keys) && key !in keys && (!multi ==> items != [])
    ensures CreatesAndAdds(env, codec, other, ctx, keys, key, WantedPlan(env, options), WantedSeed(ctx, options),
                           options.seedRandom, items, multi, made, k,
                           AddOrCreate(env, codec, ctx, keys, key, options, items, multi, original))
  {
    hide HandleAdd;
    hide Answer;
    hide CreationArgs;
    hide LogsCreation;
    hide Grown;
    hide Cardinality;
    CreatedIsJustMade(env, ctx, options);
    var r := Create(env, ctx, options);
    hide Create;
    made, k := *, 0;
    if r.Ok? {
      made := r.value;
      k := HandledIsAnswered(env, ctx.limit, made, items, multi, !ctx.mustObey);
      CreationIsLogged(env, codec, other, key, made, WantedPlan(env, options), WantedSeed(ctx, options), options.seedRandom,
                       items);
    }
  }

  // ---------- BF.ADD and BF.MADD ----------

  /** What an adding command does, on a key that is there and on one that is missing. */
  ghost predicate AddsOrCreates(env: Env, codec: Codec, other: Config, ctx: Context, keys: Keyspace, key: string, p: Plan,
                                seed: Seed, seedRandom: bool, items: seq<string>, multi: bool, original: Command,
                                made: Object, k: nat, e: Effect)
    requires (key in keys ==> Grown(env, keys[key])) && (!multi ==> items != [])
  {
    if key in keys then AddsToExisting(env, ctx, keys, key, items, multi, original, k, e)
    else CreatesAndAdds(env, codec, other, ctx, keys, key, p, seed, seedRandom, items, multi, made, k, e)
  }

  /** The common end of the adding commands. */
  lemma AddOrCreateEffect(env: Env, codec: Codec, other: Config, ctx: Context, keys: Keyspace, key: string, options: Options,
                          items: seq<string>, multi: bool, original: Command)
    returns (made: Object, k: nat)
    requires FaithfulText(codec) && LiveKeys(keys) && (key in keys ==> Grown(env, keys[key])) && (!multi ==> items != [])
    ensures AddsOrCreates(env, codec, other, ctx, keys, key, WantedPlan(env, options), WantedSeed(ctx, options),
                          options.seedRandom, items, multi, original, made, k,
                          AddOrCreate(env, codec, ctx, keys, key, options, items, multi, original))
  {
    hide AddOrCreate;
    hide AddsToExisting;
    hide CreatesAndAdds;
    made := *;
    if key in keys {
      k := ExistingEffect(env, codec, ctx, keys, key, options, items, multi, original);
    } else {
      made, k := CreationEffect(env, codec, other, ctx, keys, key, options, items, multi, original);
    }
  }

  /**
   BF.ADD and BF.MADD: on a missing key they create what the configuration says, seeded with the drawn seed
   if it asks for random ones and with the fixed one otherwise.
   */
  lemma AddEffect(env: Env, codec: Codec, other: Config, ctx: Context, keys: Keyspace, args: seq<string>, multi: bool)
    returns (made: Object, k: nat)
    requires FaithfulText(codec) && LiveKeys(keys)
    requires |args| >= 2 && args[1] in keys ==> Grown(env, keys[args[1]])
    ensures var cfg, c := ctx.cfg, if multi then AddMany(args) else AddOne(args);
            var e := Exec(env, codec, ctx, keys, c);
            if |args| < 3 || (!multi && |args| > 3) then e == Effect(keys, Fail(WrongArity), None)
            else AddsOrCreates(env, codec, other, ctx, keys, args[1],
                               Plan(env, cfg.capacity, cfg.fpRate, cfg.tightening, cfg.expansion),
                               if cfg.randomSeed then ctx.drawn else FixedSeed(), cfg.randomSeed, args[2..], multi, c, made, k, e)
  {
    made, k := *, 0;
    hide AddOrCreate;
    hide AddsOrCreates;
    hide Grown;
    hide FixedSeed;
    if |args| >= 3 && (multi || |args| == 3) {
      made, k := AddOrCreateEffect(env, codec, other, ctx, keys, args[1], Defaults(ctx.cfg), args[2..], multi,
                                   if multi then AddMany(args) else AddOne(args));
    }
  }

  /** BF.ADD on a missing key, if the object is within the limit: the answer is 1, and the object holds the item alone. */
  lemma AddToMissing(env: Env, codec: Codec, ctx: Context, keys: Keyspace, name: string, key: string, item: string)
    requires FaithfulText(codec) && LiveKeys(keys) && key !in keys
    requires !OverTheLimit(env, ctx, Plan(env, ctx.cfg.capacity, ctx.cfg.fpRate, ctx.cfg.tightening, ctx.cfg.expansion))
    ensures var e := Exec(env, codec, ctx, keys, AddOne([name, key, item]));
            && e.reply == Number(1) && key in e.keys && e.log.Some?
            && Cardinality(e.keys[key]) == 1 && SomeFilterFinds(env, e.keys[key], item)
  {
    var made, k := AddEffect(env, codec, ctx.cfg, ctx, keys, [name, key, item], false);
    hide Exec;
    hide Grown;
    hide Cardinality;
    hide Capacity;
    hide SomeFilterFinds;
    hide LogsCreation;
  }

  /** BF.MADD on a missing key: as long as its different items fit the first sub-filter, each is new once. */
  lemma BatchToMissing(env: Env, codec: Codec, ctx: Context, keys: Keyspace, name: string, key: string, items: seq<string>)
    requires FaithfulText(codec) && LiveKeys(keys) && key !in keys && items != []
    requires !OverTheLimit(env, ctx, Plan(env, ctx.cfg.capacity, ctx.cfg.fpRate, ctx.cfg.tightening, ctx.cfg.expansion))
    requires |set s | s in items| <= ctx.cfg.capacity
    ensures var e := Exec(env, codec, ctx, keys, AddMany([name, key] + items));
            && e.reply.Numbers? && |e.reply.ns| == |items|
            && (forall i :: 0 <= i < |items| ==> e.reply.ns[i] == if items[i] in items[..i] then 0 else 1)
            && key in e.keys && Cardinality(e.keys[key]) == |set s | s in items|
  {
    var args := [name, key] + items;
    assert args[2..] == items;
    var made, k := AddEffect(env, codec, ctx.cfg, ctx, keys, args, true);
    hide Exec;
    hide Grown;
    hide Cardinality;
    hide Capacity;
    hide BatchAnswer;
    hide LogsCreation;
    hide FixedSeed;
    var e := Exec(env, codec, ctx, keys, AddMany(args));
    EmptyTakesBatch(env, ctx.limit, made, items, !ctx.mustObey, k,
                    if e.reply.Numbers? then Ok(e.reply.ns) else Err(e.reply.error), e.keys[key]);
  }

  lemma EmptyTakesBatch(env: Env, limit: nat, o: Object, items: seq<string>, validate: bool, k: nat,
                        reply: Result<seq<int>>, after: Object)
    requires Grown(env, o) && BatchAnswer(env, limit, o, items, validate, k, reply, after)
    requires Cardinality(o) == 0 && (forall item :: !SomeFilterFinds(env, o, item)) && |set s | s in items| <= Capacity(o)
    ensures reply.Ok? && |reply.value| == |items|
    ensures forall i :: 0 <= i < |items| ==> reply.value[i] == if items[i] in items[..i] then 0 else 1
    ensures Cardinality(after) == |set s | s in items|
  {
    assert NewItems(env, o, items) == set s | s in items;
    FitsFirst(env, limit, o, |NewItems(env, o, items)|, validate);
    hide AllFit;
    hide Grown;
    hide Cardinality;
    hide Capacity;
    hide SomeFilterFinds;
    hide NewItems;
    hide FirstObjection;
  }

  lemma FitsFirst(env: Env, limit: nat, o: Object, target: int, validate: bool)
    requires Grown(env, o) && target <= Capacity(o)
    ensures HasFirst(o) && AllFit(env, limit, o, target, validate)
  {
    CapacityCoversCardinality(env, o);
    var n, p := |o.filters|, PlanOf(env, o);
    forall j | n <= j ensures p.Total(j) >= target { TotalsIncrease(p, n, j); }
  }

  // ---------- BF.INSERT ----------

  /** How VALIDATESCALETO names what the simulation objects to. */
  function ScaleToError(objection: Error): Error {
    match objection
    case FalsePositiveReachesZero => ValidateScaleToFalsePositiveInvalid
    case ExceedsMaxBloomSize => ValidateScaleToExceedsMaxSize
    case other => other
  }

  /** What VALIDATESCALETO has against the options, `j` being the first sub-filter the simulation objects to. */
  function ScaleToRefusal(ctx: Context, p: Plan, scaleTo: Option<int>, j: nat): Option<Error> {
    if scaleTo == None then None
    else if p.expansion == 0 then Some(NonScalingAndValidateScaleTo)
    else if ctx.mustObey || scaleTo.value <= p.Total(j) then None
    else Some(ScaleToError(Objection(p, ctx.limit, j)))
  }

  lemma ScaleToIsChecked(env: Env, ctx: Context, o: Options, j: nat)
    requires FirstObjection(WantedPlan(env, o), ctx.limit, j) && o.scaleTo != Some(-1)
    ensures CheckScaleTo(env, ctx, o) == ScaleToRefusal(ctx, WantedPlan(env, o), o.scaleTo, j)
  {
    hide MaxScaledCapacity;
    hide FirstObjection;
    hide CapacityAt;
    hide RawRate;
    hide FilterSize;
    if o.scaleTo.Some? { VerdictOnTarget(WantedPlan(env, o), ctx.limit, o.scaleTo.value, j); }
  }

  /** A target is a capacity. */
  lemma {:induction false} TargetsArePositive(o: Options, all: seq<Spelled>)
    requires o.scaleTo.Some? ==> o.scaleTo.value >= 1
    ensures Chosen(o, all).scaleTo.Some? ==> Chosen(o, all).scaleTo.value >= 1
    decreases |all|
  {
    if all != [] {
      TargetsArePositive(With(o, all[0].choice), all[1..]);
    }
  }

  /**
   BF.INSERT spelled from any options and any items: refused by VALIDATESCALETO or NOCREATE it does nothing;
   otherwise it adds, on a missing key to an object made as the options over the configuration say.
   */
  lemma InsertEffect(env: Env, codec: Codec, other: Config, ctx: Context, keys: Keyspace, name: string, key: string,
                     all: seq<Spelled>, word: string, items: seq<string>)
    returns (made: Object, k: nat, j: nat)
    requires FaithfulText(codec) && LiveKeys(keys) && (key in keys ==> Grown(env, keys[key]))
    requires AllSay(codec, all) && (items != [] ==> codec.upper(word) == "ITEMS")
    ensures var args := InsertArgs(name, key, all, if items == [] then [] else [word] + items);
            var e := Exec(env, codec, ctx, keys, InsertItems(args));
            var o := Chosen(Configured(ctx.cfg), all);
            var p := Plan(env, o.capacity, o.fpRate, o.tightening, o.expansion);
            && FirstObjection(p, ctx.limit, j)
            && if ScaleToRefusal(ctx, p, o.scaleTo, j).Some?
               then e == Effect(keys, Fail(ScaleToRefusal(ctx, p, o.scaleTo, j).value), None)
               else if key !in keys && o.nocreate then e == Effect(keys, Fail(NotFound), None)
               else AddsOrCreates(env, codec, other, ctx, keys, key, p, if o.seed.Some? then o.seed.value else ctx.drawn,
                                  o.seedRandom, items, true, InsertItems(args), made, k, e)
  {
    var args := InsertArgs(name, key, all, if items == [] then [] else [word] + items);
    var o := Chosen(Configured(ctx.cfg), all);
    InsertIsReadBack(codec, ctx.cfg, name, key, all, word, items);
    TargetsArePositive(Configured(ctx.cfg), all);
    hide Chosen;
    hide Configured;
    j := ThereIsAnObjection(WantedPlan(env, o), ctx.limit);
    ScaleToIsChecked(env, ctx, o, j);
    made, k := AddOrCreateEffect(env, codec, other, ctx, keys, key, o, items, true, InsertItems(args));
    hide InsertArgs;
    hide ParseInsert;
    hide CheckScaleTo;
    hide ScaleToRefusal;
    hide FirstObjection;
    hide AddOrCreate;
    hide AddsOrCreates;
    hide Grown;
  }

  /** Without options it creates what the configuration says. */
  lemma PlainInsertEffect(env: Env, codec: Codec, other: Config, ctx: Context, keys: Keyspace, name: string, key: string,
                          word: string, items: seq<string>)
    returns (made: Object, k: nat)
    requires FaithfulText(codec) && LiveKeys(keys) && (key in keys ==> Grown(env, keys[key]))
    requires items != [] ==> codec.upper(word) == "ITEMS"
    ensures var cfg, c := ctx.cfg, InsertItems([name, key] + (if items == [] then [] else [word] + items));
            AddsOrCreates(env, codec, other, ctx, keys, key, Plan(env, cfg.capacity, cfg.fpRate, cfg.tightening, cfg.expansion),
                          if cfg.randomSeed then ctx.drawn else FixedSeed(), cfg.randomSeed, items, true, c, made, k,
                          Exec(env, codec, ctx, keys, c))
  {
    var j;
    made, k, j := InsertEffect(env, codec, other, ctx, keys, name, key, [], word, items);
    assert InsertArgs(name, key, [], if items == [] then [] else [word] + items)
           == [name, key] + (if items == [] then [] else [word] + items);
    hide Exec;
    hide AddsOrCreates;
    hide FirstObjection;
    hide FixedSeed;
    hide Grown;
  }

  lemma {:induction false} NoCreateSticks(o: Options, all: seq<Spelled>)
    requires o.nocreate || exists i :: 0 <= i < |all| && all[i].choice == NoCreate
    ensures Chosen(o, all).nocreate
    decreases |all|
  {
    if all != [] {
      var next := With(o, all[0].choice);
      if !next.nocreate {
        var i :| 0 <= i < |all| && all[i].choice == NoCreate;
        assert all[1..][i - 1].choice == NoCreate;
      }
      NoCreateSticks(next, all[1..]);
    }
  }

  /** Arguments that are refused do nothing. */
  lemma RefusedInsert(env: Env, codec: Codec, ctx: Context, keys: Keyspace, args: seq<string>)
    requires LiveKeys(keys) && ParseInsert(codec, ctx.cfg, args).Err?
    ensures Exec(env, codec, ctx, keys, InsertItems(args)) == Effect(keys, Fail(ParseInsert(codec, ctx.cfg, args).error), None)
  {
    hide ParseInsert;
  }

  /** Any options and then a faulty one, or the keyword for the items without an item after it. */
  lemma FaultyInsert(env: Env, codec: Codec, ctx: Context, keys: Keyspace, name: string, key: string, all: seq<Spelled>,
                     rest: seq<string>, error: Error)
    requires LiveKeys(keys) && AllSay(codec, all)
    requires Faulty(codec, rest, error) || (|rest| == 1 && codec.upper(rest[0]) == "ITEMS" && error == WrongArity)
    ensures Exec(env, codec, ctx, keys, InsertItems(InsertArgs(name, key, all, rest))) == Effect(keys, Fail(error), None)
  {
    hide Exec;
    hide InsertArgs;
    hide ParseInsert;
    if Faulty(codec, rest, error) {
      FaultIsAnswered(codec, ctx.cfg, name, key, all, rest, error);
    } else {
      assert rest == [rest[0]];
      ItemsAreRequired(codec, ctx.cfg, name, key, all, rest[0]);
    }
    RefusedInsert(env, codec, ctx, keys, InsertArgs(name, key, all, rest));
  }

  lemma NotCreated(env: Env, codec: Codec, ctx: Context, keys: Keyspace, args: seq<string>, p: Parsed)
    requires LiveKeys(keys) && |args| >= 2 && args[1] !in keys
    requires ParseInsert(codec, ctx.cfg, args) == Ok(p) && p.options.nocreate
    ensures var e := Exec(env, codec, ctx, keys, InsertItems(args));
            e.keys == keys && e.log == None && e.reply.Fail? && (p.options.scaleTo == None ==> e.reply == Fail(NotFound))
  {
    hide ParseInsert;
    hide AddOrCreate;
    hide MaxScaledCapacity;
  }

  /**
   With NOCREATE among the options and the key missing, nothing is created or logged, whatever follows; and
   if that is well-formed and no option is VALIDATESCALETO, the error is that the key was not found.
   */
  lemma NoCreateCreatesNothing(env: Env, codec: Codec, ctx: Context, keys: Keyspace, name: string, key: string,
                               all: seq<Spelled>, i: nat, rest: seq<string>)
    requires LiveKeys(keys) && key !in keys && AllSay(codec, all) && i < |all| && all[i].choice == NoCreate
    requires rest == [] || codec.upper(rest[0]) == "ITEMS" || exists e :: Faulty(codec, rest, e)
    ensures var e := Exec(env, codec, ctx, keys, InsertItems(InsertArgs(name, key, all, rest)));
            && e.keys == keys && e.log == None && e.reply.Fail?
            && (Silent(all, Target) && (rest == [] || (codec.upper(rest[0]) == "ITEMS" && |rest| > 1)) ==>
                  e.reply == Fail(NotFound))
  {
    var args, o := InsertArgs(name, key, all, rest), Configured(ctx.cfg);
    if rest == [] || (codec.upper(rest[0]) == "ITEMS" && |rest| > 1) {
      var word, items := if rest == [] then "" else rest[0], if rest == [] then [] else rest[1..];
      assert rest == if items == [] then [] else [word] + items;
      InsertIsReadBack(codec, ctx.cfg, name, key, all, word, items);
      NoCreateSticks(o, all);
      if Silent(all, Target) { SilentLeavesAlone(o, all, Target); }
      hide *;
      NotCreated(env, codec, ctx, keys, args, ParseInsert(codec, ctx.cfg, args).value);
    } else {
      var error :| Faulty(codec, rest, error) || (|rest| == 1 && codec.upper(rest[0]) == "ITEMS" && error == WrongArity);
      hide *;
      FaultyInsert(env, codec, ctx, keys, name, key, all, rest, error);
    }
  }

  // ---------- BF.RESERVE ----------

  /**
   BF.RESERVE on a free key makes an empty object of the rate, the capacity and the expansion it asks for, or
   else the configured one, and the configured tightening and seed; on a taken key it does nothing.
   */
  lemma ReserveEffect(env: Env, codec: Codec, other: Config, ctx: Context, keys: Keyspace, args: seq<string>, rate: Rate,
                      n: StartCapacity, x: U32)
    requires FaithfulText(codec) && LiveKeys(keys) && Asks(codec, ctx.cfg, args, rate, n, x)
    ensures var e, key, cfg := Exec(env, codec, ctx, keys, Reserve(args)), args[1], ctx.cfg;
            var p, seed := Plan(env, n, rate, cfg.tightening, x), if cfg.randomSeed then ctx.drawn else FixedSeed();
            if key in keys then e == Effect(keys, Fail(ItemExistsError), None)
            else if OverTheLimit(env, ctx, p) then e == Effect(keys, Fail(ExceedsMaxBloomSize), None)
            else && e.reply == Done && key in e.keys && e.keys == keys[key := e.keys[key]]
                 && JustMade(env, e.keys[key], p, seed, cfg.randomSeed)
                 && LogsCreation(codec, other, e.log, key, p, seed, [])
  {
    AskedIsRead(codec, ctx.cfg, args, rate, n, x);
    hide ParseReserve;
    hide FixedSeed;
    var o := Configured(ctx.cfg).(fpRate := rate, capacity := n, expansion := x);
    CreatedIsJustMade(env, ctx, o);
    var r := Create(env, ctx, o);
    hide Create;
    hide CreationArgs;
    hide LogsCreation;
    if r.Ok? { CreationIsLogged(env, codec, other, args[1], r.value, WantedPlan(env, o), WantedSeed(ctx, o), o.seedRandom, []); }
    hide JustMade;
  }

  /** Arguments with which something is wrong do nothing. */
  lemma FaultyReserve(env: Env, codec: Codec, ctx: Context, keys: Keyspace, args: seq<string>, error: Error)
    requires LiveKeys(keys) && ReserveFault(codec, args, error)
    ensures Exec(env, codec, ctx, keys, Reserve(args)) == Effect(keys, Fail(error), None)
  {
    if 4 <= |args| <= 6 { ReserveFaultIsRead(codec, ctx.cfg, args, error); }
    hide ParseReserve;
    hide RateFault;
    hide CapacityFault;
    hide ExpansionFault;
  }

  // ---------- adding twice ----------

  /** BF.ADD of an item that is found answers 0 and does nothing. */
  lemma AddOfFound(env: Env, codec: Codec, ctx: Context, keys: Keyspace, name: string, key: string, item: string)
    requires FaithfulText(codec) && LiveKeys(keys) && key in keys && Grown(env, keys[key])
    requires SomeFilterFinds(env, keys[key], item)
    ensures Exec(env, codec, ctx, keys, AddOne([name, key, item])) == Effect(keys, Number(0), None)
  {
    var made, k := AddEffect(env, codec, ctx.cfg, ctx, keys, [name, key, item], false);
    hide Exec;
    hide Grown;
    hide Cardinality;
    hide Capacity;
    hide SomeFilterFinds;
    hide FixedSeed;
    var e := Exec(env, codec, ctx, keys, AddOne([name, key, item]));
    assert e.keys == keys;
  }

  /** After BF.ADD has answered with a number, the object under the key holds the item. */
  lemma AnsweredIsFound(env: Env, codec: Codec, ctx: Context, keys: Keyspace, name: string, key: string, item: string)
    requires FaithfulText(codec) && LiveKeys(keys) && (key in keys ==> Grown(env, keys[key]))
    requires Exec(env, codec, ctx, keys, AddOne([name, key, item])).reply.Number?
    ensures var e := Exec(env, codec, ctx, keys, AddOne([name, key, item]));
            key in e.keys && Grown(env, e.keys[key]) && SomeFilterFinds(env, e.keys[key], item)
  {
    var made, k := AddEffect(env, codec, ctx.cfg, ctx, keys, [name, key, item], false);
    hide Exec;
    hide Grown;
    hide Cardinality;
    hide Capacity;
    hide SomeFilterFinds;
    hide LogsCreation;
    hide FixedSeed;
  }

  /** An item that BF.ADD has just answered for is answered with 0 by the next BF.ADD, which does nothing. */
  lemma AddTwice(env: Env, codec: Codec, ctx: Context, ctx': Context, keys: Keyspace, name: string, key: string, item: string)
    requires FaithfulText(codec) && LiveKeys(keys) && (key in keys ==> Grown(env, keys[key]))
    ensures var e := Exec(env, codec, ctx, keys, AddOne([name, key, item]));
            e.reply.Number? ==>
              LiveKeys(e.keys) && Exec(env, codec, ctx', e.keys, AddOne([name, key, item])) == Effect(e.keys, Number(0), None)
  {
    hide Exec;
    hide LiveKeys;
    var e := Exec(env, codec, ctx, keys, AddOne([name, key, item]));
    if e.reply.Number? {
      AnsweredIsFound(env, codec, ctx, keys, name, key, item);
      ExecKeepsLive(env, codec, ctx, keys, AddOne([name, key, item]));
      AddOfFound(env, codec, ctx', e.keys, name, key, item);
    }
  }
}

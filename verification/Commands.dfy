/**
 The write commands on a keyspace: how their arguments are read, what they do, and the command that is
 written to the replication log.
 */
module Commands {
  import opened Platform
  import opened RawBloom
  import opened ScalingObject
  import opened Simulator
  import opened BatchAdd
  import opened Decimal

  /** Text handling that is not modelled: upper-casing of arguments and doubles as text. */
  datatype Codec = Codec(upper: string -> string, showRate: Rate -> string, readRate: string -> Option<F64>)

  const PRINTED_KEYWORDS: set<string> :=
    {"CAPACITY", "ERROR", "TIGHTENING", "SEED", "NONSCALING", "EXPANSION", "ITEMS"}

  /** Upper-casing leaves upper-case keywords alone, and a printed rate is read back as it was. */
  ghost predicate FaithfulText(codec: Codec) {
    && (forall w :: w in PRINTED_KEYWORDS ==> codec.upper(w) == w)
    && (forall r: Rate :: codec.readRate(codec.showRate(r)) == Some(Finite(r)))
  }

  type StartCapacity = n: int | 1 <= n <= 0x7fff_ffff_ffff_ffff witness 1

  /** The module's configuration, which every node sets for itself. */
  datatype Config = Config(fpRate: Rate, tightening: Rate, capacity: StartCapacity, expansion: U32, randomSeed: bool)

  /** The properties a new object is created with; no seed means one is drawn. */
  datatype Options = Options(
    fpRate: Rate,
    tightening: Rate,
    capacity: StartCapacity,
    expansion: U32,
    seed: Option<Seed>,
    seedRandom: bool,
    scaleTo: Option<int>,
    nocreate: bool
  )

  function Defaults(cfg: Config): Options {
    Options(cfg.fpRate, cfg.tightening, cfg.capacity, cfg.expansion,
            if cfg.randomSeed then None else Some(FixedSeed()), cfg.randomSeed, None, false)
  }

  // ---------- reading arguments ----------

  function ReadRate(codec: Codec, s: string, bad: Error, range: Error): Result<Rate> {
    match codec.readRate(s)
    case None => Err(bad)
    case Some(d) => if d.InUnitInterval() then Ok(d.r) else Err(range)
  }

  function ReadCapacity(s: string): Result<StartCapacity> {
    match ReadI64(s)
    case None => Err(BadCapacity)
    case Some(n) => if 1 <= n then Ok(n) else if n == 0 then Err(CapacityLargerThanZero) else Err(BadCapacity)
  }

  function ReadExpansion(s: string): Result<U32> {
    match ReadU32(s)
    case None => Err(BadExpansion)
    case Some(n) => if 1 <= n then Ok(n) else Err(BadExpansion)
  }

  datatype OptionRead = OptionRead(options: Options, next: nat)

  /** One round of the option loop of BF.INSERT: the option at `idx`, with its value if it takes one. */
  function ReadOption(codec: Codec, args: seq<string>, idx: nat, o: Options): (r: Result<OptionRead>)
    requires idx < |args|
    ensures r.Ok? ==> idx < r.value.next <= |args|
  {
    var word := codec.upper(args[idx]);
    if word == "NOCREATE" then Ok(OptionRead(o.(nocreate := true), idx + 1))
    else if word == "NONSCALING" then Ok(OptionRead(o.(expansion := 0), idx + 1))
    else if word !in {"ERROR", "TIGHTENING", "CAPACITY", "SEED", "EXPANSION", "VALIDATESCALETO"} then
      Err(UnknownArgument)
    else if idx >= |args| - 1 then Err(WrongArity)
    else ReadValue(codec, word, args[idx + 1], o, idx + 2)
  }

  function ReadValue(codec: Codec, word: string, value: string, o: Options, next: nat): (r: Result<OptionRead>)
    ensures r.Ok? ==> r.value.next == next
  {
    if word == "ERROR" then
      match ReadRate(codec, value, BadErrorRate, ErrorRateRange)
      case Ok(r) => Ok(OptionRead(o.(fpRate := r), next))
      case Err(e) => Err(e)
    else if word == "TIGHTENING" then
      match ReadRate(codec, value, BadTighteningRatio, TighteningRatioRange)
      case Ok(r) => Ok(OptionRead(o.(tightening := r), next))
      case Err(e) => Err(e)
    else if word == "CAPACITY" then
      match ReadCapacity(value)
      case Ok(n) => Ok(OptionRead(o.(capacity := n), next))
      case Err(e) => Err(e)
    else if word == "SEED" then
      if |value| == 32 then Ok(OptionRead(o.(seed := Some(value), seedRandom := value != FixedSeed()), next))
      else Err(InvalidSeed)
    else if word == "EXPANSION" then
      match ReadExpansion(value)
      case Ok(n) => Ok(OptionRead(o.(expansion := n), next))
      case Err(e) => Err(e)
    else
      match ReadCapacity(value)
      case Ok(n) => Ok(OptionRead(o.(scaleTo := Some(n)), next))
      case Err(e) => Err(e)
  }

  /** The options, where the items start, and whether the keyword ITEMS was there. */
  datatype Parsed = Parsed(options: Options, itemsAt: nat, itemsProvided: bool)

  /** The option loop from argument `idx` on; the keyword ITEMS ends it. */
  function ParseFrom(codec: Codec, args: seq<string>, idx: nat, o: Options): (r: Result<Parsed>)
    requires idx <= |args|
    ensures r.Ok? ==> r.value.itemsAt <= |args|
    decreases |args| - idx
  {
    if idx == |args| then Ok(Parsed(o, idx, false))
    else if codec.upper(args[idx]) == "ITEMS" then Ok(Parsed(o, idx + 1, true))
    else
      match ReadOption(codec, args, idx, o)
      case Err(e) => Err(e)
      case Ok(read) => ParseFrom(codec, args, read.next, read.options)
  }

  /** The arguments of BF.INSERT, up to and including the check that ITEMS is followed by an item. */
  function ParseInsert(codec: Codec, cfg: Config, args: seq<string>): (r: Result<Parsed>)
    ensures r.Ok? ==> |args| >= 2 && r.value.itemsAt <= |args|
  {
    if |args| < 2 then Err(WrongArity) else
    match ParseFrom(codec, args, 2, Defaults(cfg))
    case Err(e) => Err(e)
    case Ok(p) => if p.itemsAt == |args| && p.itemsProvided then Err(WrongArity) else Ok(p)
  }

  // ---------- writing the log ----------

  /** The BF.INSERT that recreates a new object with exactly its properties and then adds `items`. */
  function CreationArgs(codec: Codec, key: string, o: Object, items: seq<string>): seq<string>
    requires HasFirst(o)
  {
    ["BF.INSERT", key, "CAPACITY", ShowSigned(Capacity(o)), "ERROR", codec.showRate(o.fpRate),
     "TIGHTENING", codec.showRate(o.tightening), "SEED", o.filters[0].bloom.seed]
    + (if o.expansion == 0 then ["NONSCALING"] else ["EXPANSION", Show(o.expansion)])
    + (if items == [] then [] else ["ITEMS"] + items)
  }

  // ---------- executing ----------

  type Keyspace = map<string, Object>

  ghost predicate LiveKeys(keys: Keyspace) {
    forall k :: k in keys ==> HasFirst(keys[k])
  }

  /** What surrounds one command: the memory limit, the configuration, a seed in case one is drawn. */
  datatype Context = Context(limit: nat, cfg: Config, drawn: Seed, mustObey: bool)

  datatype Reply = Number(n: int) | Numbers(ns: seq<int>) | Done | Fail(error: Error)

  /** A write command with its arguments, the command's own name first. */
  datatype Command =
    | AddOne(args: seq<string>)
    | AddMany(args: seq<string>)
    | Reserve(args: seq<string>)
    | InsertItems(args: seq<string>)
    | Delete(key: string)

  datatype Effect = Effect(keys: Keyspace, reply: Reply, log: Option<Command>)

  datatype Handled = Handled(after: Object, reply: Reply, added: bool)

  /** `handle_bloom_add`. */
  function HandleAdd(env: Env, limit: nat, o: Object, items: seq<string>, multi: bool, validate: bool): Handled
    requires HasFirst(o) && (!multi ==> items != [])
  {
    if multi then
      var r := HandleMulti(env, limit, o, items, validate);
      Handled(r.after, if r.reply.Ok? then Numbers(r.reply.value) else Fail(r.reply.error), r.added)
    else
      var r := AddItem(env, limit, o, items[0], validate);
      Handled(r.after, if r.reply.Ok? then Number(r.reply.value) else Fail(r.reply.error), r.reply == Ok(1))
  }

  function Create(env: Env, ctx: Context, o: Options): Result<Object> {
    NewReserved(env, ctx.limit, o.fpRate, o.tightening, o.capacity, o.expansion,
                if o.seed.Some? then o.seed.value else ctx.drawn, o.seedRandom, !ctx.mustObey)
  }

  /** Adding to the object under `key`, or to a new one; `original` is the command as it was received. */
  function AddOrCreate(env: Env, codec: Codec, ctx: Context, keys: Keyspace, key: string, options: Options,
                       items: seq<string>, multi: bool, original: Command): Effect
    requires LiveKeys(keys) && (!multi ==> items != [])
  {
    if key in keys then
      var h := HandleAdd(env, ctx.limit, keys[key], items, multi, !ctx.mustObey);
      Effect(keys[key := h.after], h.reply, if h.added then Some(original) else None)
    else
      match Create(env, ctx, options)
      case Err(e) => Effect(keys, Fail(e), None)
      case Ok(o) =>
        var h := HandleAdd(env, ctx.limit, o, items, multi, !ctx.mustObey);
        Effect(keys[key := h.after], h.reply, Some(InsertItems(CreationArgs(codec, key, o, items))))
  }

  /** BF.ADD and BF.MADD. */
  function ExecAdd(env: Env, codec: Codec, ctx: Context, keys: Keyspace, args: seq<string>, multi: bool): Effect
    requires LiveKeys(keys)
  {
    if (!multi && |args| != 3) || |args| < 3 then Effect(keys, Fail(WrongArity), None)
    else AddOrCreate(env, codec, ctx, keys, args[1], Defaults(ctx.cfg), args[2..], multi,
                     if multi then AddMany(args) else AddOne(args))
  }

  /** The arguments of BF.RESERVE. */
  function ParseReserve(codec: Codec, cfg: Config, args: seq<string>): Result<Options>
    requires 4 <= |args| <= 6
  {
    match ReadRate(codec, args[2], BadErrorRate, ErrorRateRange)
    case Err(e) => Err(e)
    case Ok(fpRate) =>
      match ReadCapacity(args[3])
      case Err(e) => Err(e)
      case Ok(capacity) =>
        var o := Defaults(cfg).(fpRate := fpRate, capacity := capacity);
        if |args| == 4 then Ok(o)
        else if |args| == 5 && codec.upper(args[4]) == "NONSCALING" then Ok(o.(expansion := 0))
        else if |args| == 6 && codec.upper(args[4]) == "EXPANSION" then
          match ReadExpansion(args[5])
          case Err(e) => Err(e)
          case Ok(n) => Ok(o.(expansion := n))
        else Err(GenericError)
  }

  function ExecReserve(env: Env, codec: Codec, ctx: Context, keys: Keyspace, args: seq<string>): Effect {
    if !(4 <= |args| <= 6) then Effect(keys, Fail(WrongArity), None) else
    match ParseReserve(codec, ctx.cfg, args)
    case Err(e) => Effect(keys, Fail(e), None)
    case Ok(options) =>
      if args[1] in keys then Effect(keys, Fail(ItemExistsError), None) else
      match Create(env, ctx, options)
      case Err(e) => Effect(keys, Fail(e), None)
      case Ok(o) => Effect(keys[args[1] := o], Done, Some(InsertItems(CreationArgs(codec, args[1], o, []))))
  }

  /** The VALIDATESCALETO checks of BF.INSERT; the simulation is skipped for replicated commands. */
  function CheckScaleTo(env: Env, ctx: Context, o: Options): Option<Error> {
    if o.scaleTo == None then None
    else if o.expansion == 0 then Some(NonScalingAndValidateScaleTo)
    else if ctx.mustObey then None
    else
      match MaxScaledCapacity(Plan(env, o.capacity, o.fpRate, o.tightening, o.expansion), ctx.limit, o.scaleTo.value)
      case Ok(_) => None
      case Err(e) => Some(e)
  }

  function ExecInsert(env: Env, codec: Codec, ctx: Context, keys: Keyspace, args: seq<string>): Effect
    requires LiveKeys(keys)
  {
    match ParseInsert(codec, ctx.cfg, args)
    case Err(e) => Effect(keys, Fail(e), None)
    case Ok(p) =>
      match CheckScaleTo(env, ctx, p.options)
      case Some(e) => Effect(keys, Fail(e), None)
      case None =>
        if args[1] !in keys && p.options.nocreate then Effect(keys, Fail(NotFound), None)
        else AddOrCreate(env, codec, ctx, keys, args[1], p.options, args[p.itemsAt..], true, InsertItems(args))
  }

  function Exec(env: Env, codec: Codec, ctx: Context, keys: Keyspace, c: Command): Effect
    requires LiveKeys(keys)
  {
    match c
    case AddOne(args) => ExecAdd(env, codec, ctx, keys, args, false)
    case AddMany(args) => ExecAdd(env, codec, ctx, keys, args, true)
    case Reserve(args) => ExecReserve(env, codec, ctx, keys, args)
    case InsertItems(args) => ExecInsert(env, codec, ctx, keys, args)
    case Delete(key) => Effect(keys - {key}, Done, if key in keys then Some(c) else None)
  }

  lemma HandleAddKeepsFirst(env: Env, limit: nat, o: Object, items: seq<string>, multi: bool, validate: bool)
    requires HasFirst(o) && (!multi ==> items != [])
    ensures HasFirst(HandleAdd(env, limit, o, items, multi, validate).after)
  {
    if multi {
      AddFirstKeepsFirst(env, limit, o, items, NewFlags(env, o, items), validate, |items|);
    } else {
      AddUncheckedKeepsFirst(env, limit, o, items[0], validate);
    }
  }

  /** Commands leave a keyspace of live objects. */
  lemma ExecKeepsLive(env: Env, codec: Codec, ctx: Context, keys: Keyspace, c: Command)
    requires LiveKeys(keys)
    ensures LiveKeys(Exec(env, codec, ctx, keys, c).keys)
  {
    match c
    case AddOne(args) => ExecAddKeepsLive(env, codec, ctx, keys, args, false);
    case AddMany(args) => ExecAddKeepsLive(env, codec, ctx, keys, args, true);
    case Reserve(args) =>
    case InsertItems(args) =>
      var parsed := ParseInsert(codec, ctx.cfg, args);
      if parsed.Ok? {
        var p := parsed.value;
        hide ParseInsert;
        AddOrCreateKeepsLive(env, codec, ctx, keys, args[1], p.options, args[p.itemsAt..], true, c);
      }
    case Delete(key) =>
  }

  lemma ExecAddKeepsLive(env: Env, codec: Codec, ctx: Context, keys: Keyspace, args: seq<string>, multi: bool)
    requires LiveKeys(keys)
    ensures LiveKeys(ExecAdd(env, codec, ctx, keys, args, multi).keys)
  {
    if |args| >= 3 {
      AddOrCreateKeepsLive(env, codec, ctx, keys, args[1], Defaults(ctx.cfg), args[2..], multi,
                           if multi then AddMany(args) else AddOne(args));
    }
  }

  lemma AddOrCreateKeepsLive(env: Env, codec: Codec, ctx: Context, keys: Keyspace, key: string, options: Options,
                             items: seq<string>, multi: bool, original: Command)
    requires LiveKeys(keys) && (!multi ==> items != [])
    ensures LiveKeys(AddOrCreate(env, codec, ctx, keys, key, options, items, multi, original).keys)
  {
    if key in keys {
      HandleAddKeepsFirst(env, ctx.limit, keys[key], items, multi, !ctx.mustObey);
    } else if Create(env, ctx, options).Ok? {
      HandleAddKeepsFirst(env, ctx.limit, Create(env, ctx, options).value, items, multi, !ctx.mustObey);
    }
  }
}

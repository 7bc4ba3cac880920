/**
 Everything that can happen to the keyspace of a node, as values: what each operation makes of it, and
 that it changes the object under one key alone.
 */
module Conservation {
  import opened Platform
  import opened RawBloom
  import opened Vectors
  import opened ScalingObject
  import opened BatchAdd
  import opened Accounting
  import opened Rdb
  import opened Lifecycle
  import opened Commands

  /** What can happen to a node: a command, COPY to a free key, restoring a key, a slice of defragmentation. */
  datatype Operation =
    | Execute(ctx: Context, command: Command)
    | CopyKey(source: string, target: string)
    | RestoreKey(key: string, limit: nat, encver: int, tokens: seq<Token>)
    | DefragKey(key: string, enabled: bool, start: nat, slices: nat, moves: nat -> bool)

  /** The one key whose object an operation can change. */
  function TouchedKey(op: Operation): string {
    match op
    case Execute(_, Delete(key)) => key
    case Execute(_, c) => if |c.args| >= 2 then c.args[1] else ""
    case CopyKey(_, target) => target
    case RestoreKey(key, _, _, _) => key
    case DefragKey(key, _, _, _, _) => key
  }

  /** What the operation makes of the keyspace; nothing if the module panics on bytes that are no bloom. */
  function KeysAfter(env: Env, codec: Codec, keys: Keyspace, op: Operation): Option<Keyspace>
    requires LiveKeys(keys)
  {
    match op
    case Execute(ctx, c) => Some(Exec(env, codec, ctx, keys, c).keys)
    case CopyKey(source, target) =>
      if source !in keys || target in keys then Some(keys) else
      (match CopyObject(env, keys[source])
       case Some(o) => Some(keys[target := o])
       case None => None)
    case RestoreKey(key, limit, encver, tokens) =>
      if key in keys then Some(keys) else
      (match LoadFromRdb(env, limit, encver, tokens)
       case Loaded(o) => Some(keys[key := o])
       case Rejected => Some(keys)
       case Panicked => None)
    case DefragKey(key, enabled, start, slices, _) =>
      if key !in keys then Some(keys) else
      var o := keys[key];
      Some(keys[key := if enabled then Defragmented(o, CursorAfter(|o.filters|, start, slices)) else o])
  }

  // ---------- objects that no operation can make negative ----------

  /** No sub-filter counts less than nothing, and there is a first one. */
  ghost predicate Healthy(o: Object) {
    HasFirst(o) && NoneNegative(o.filters)
  }

  ghost predicate HealthyKeys(keys: Keyspace) {
    forall k :: k in keys ==> Healthy(keys[k])
  }

  lemma HealthyUpdate(keys: Keyspace, key: string, o: Object)
    requires HealthyKeys(keys) && Healthy(o)
    ensures HealthyKeys(keys[key := o])
  {
  }

  lemma AddKeepsHealthy(env: Env, limit: nat, o: Object, item: string, validate: bool)
    requires Healthy(o)
    ensures Healthy(AddUnchecked(env, limit, o, item, validate).after)
  {
    hide MemoryUsage;
    var last := o.filters[|o.filters| - 1];
    Products(last.capacity, o.expansion);
  }

  lemma Products(a: nat, b: nat)
    ensures a * b >= 0
  {
  }

  lemma {:induction false} BatchKeepsHealthy(env: Env, limit: nat, o: Object, items: seq<string>, flags: seq<bool>,
                                             validate: bool, k: nat)
    requires Healthy(o) && |flags| == |items| && k <= |items|
    ensures Healthy(AddFirst(env, limit, o, items, flags, validate, k).after)
  {
    hide AddUnchecked;
    hide Healthy;
    if k > 0 {
      BatchKeepsHealthy(env, limit, o, items, flags, validate, k - 1);
      var before := AddFirst(env, limit, o, items, flags, validate, k - 1);
      AddKeepsHealthy(env, limit, before.after, items[k - 1], validate);
    }
  }

  lemma HandleKeepsHealthy(env: Env, limit: nat, o: Object, items: seq<string>, multi: bool, validate: bool)
    requires Healthy(o) && (!multi ==> items != [])
    ensures Healthy(HandleAdd(env, limit, o, items, multi, validate).after)
  {
    hide AddUnchecked;
    if multi {
      BatchKeepsHealthy(env, limit, o, items, NewFlags(env, o, items), validate, |items|);
    } else {
      AddKeepsHealthy(env, limit, o, items[0], validate);
    }
  }

  lemma AddOrCreateKeepsHealthy(env: Env, codec: Codec, ctx: Context, keys: Keyspace, key: string, options: Options,
                                items: seq<string>, multi: bool, original: Command)
    requires HealthyKeys(keys) && LiveKeys(keys) && (!multi ==> items != [])
    ensures HealthyKeys(AddOrCreate(env, codec, ctx, keys, key, options, items, multi, original).keys)
  {
    if key in keys {
      HandleKeepsHealthy(env, ctx.limit, keys[key], items, multi, !ctx.mustObey);
      hide HandleAdd;
    } else if Create(env, ctx, options).Ok? {
      HandleKeepsHealthy(env, ctx.limit, Create(env, ctx, options).value, items, multi, !ctx.mustObey);
      hide HandleAdd;
    }
  }

  lemma ExecKeepsHealthy(env: Env, codec: Codec, ctx: Context, keys: Keyspace, c: Command)
    requires HealthyKeys(keys) && LiveKeys(keys)
    ensures HealthyKeys(Exec(env, codec, ctx, keys, c).keys)
  {
    hide AddOrCreate;
    hide ParseReserve;
    match c
    case AddOne(args) =>
      if |args| == 3 {
        AddOrCreateKeepsHealthy(env, codec, ctx, keys, args[1], Defaults(ctx.cfg), args[2..], false, c);
      }
    case AddMany(args) =>
      if |args| >= 3 {
        AddOrCreateKeepsHealthy(env, codec, ctx, keys, args[1], Defaults(ctx.cfg), args[2..], true, c);
      }
    case Reserve(args) =>
    case InsertItems(args) =>
      var parsed := ParseInsert(codec, ctx.cfg, args);
      if parsed.Ok? {
        hide ParseFrom;
        AddOrCreateKeepsHealthy(env, codec, ctx, keys, args[1], parsed.value.options, args[parsed.value.itemsAt..], true, c);
      }
    case Delete(key) =>
  }

  /** A restored object is healthy if no number in its stream is beyond the signed range. */
  lemma LoadedIsHealthy(env: Env, limit: nat, encver: int, tokens: seq<Token>)
    requires SignedTokens(tokens) && LoadFromRdb(env, limit, encver, tokens).Loaded?
    ensures Healthy(LoadFromRdb(env, limit, encver, tokens).loaded)
  {
    LoadOfAnyStream(env, limit, encver, tokens);
    var o := LoadFromRdb(env, limit, encver, tokens).loaded;
    hide LoadFromRdb;
    forall i | 0 <= i < |o.filters| ensures o.filters[i].numItems >= 0 && o.filters[i].capacity >= 1 {
      assert SoundFilter(env, limit, LoadHeader(tokens).value, o.filters, i, true);
    }
  }

  /** No number in a restored stream is beyond the signed range. */
  ghost predicate Signed(op: Operation) {
    op.RestoreKey? ==> SignedTokens(op.tokens)
  }

  lemma ExecTouchesOneKey(env: Env, codec: Codec, ctx: Context, keys: Keyspace, c: Command)
    requires LiveKeys(keys)
    ensures var key := TouchedKey(Execute(ctx, c));
            Exec(env, codec, ctx, keys, c).keys - {key} == keys - {key}
  {
    hide HandleAdd;
    hide Create;
    hide CreationArgs;
    hide ParseReserve;
    hide ParseFrom;
    hide CheckScaleTo;
    hide FixedSeed;
  }

  /** Every operation leaves all keys but the touched one alone, and all objects healthy. */
  lemma OneKeyIsTouched(env: Env, codec: Codec, keys: Keyspace, op: Operation)
    requires HealthyKeys(keys) && LiveKeys(keys) && Signed(op)
    ensures var after := KeysAfter(env, codec, keys, op);
            after.Some? ==> && after.value - {TouchedKey(op)} == keys - {TouchedKey(op)}
                            && HealthyKeys(after.value) && LiveKeys(after.value)
  {
    hide CapacityAt;
    match op
    case Execute(ctx, c) =>
      ExecKeepsHealthy(env, codec, ctx, keys, c);
      ExecTouchesOneKey(env, codec, ctx, keys, c);
      hide Exec;
    case CopyKey(source, target) =>
      if source in keys && CopyObject(env, keys[source]).Some? { CopiedOneByOne(env, keys[source].filters); }
      hide CopyFilters;
    case RestoreKey(key, limit, encver, tokens) =>
      if LoadFromRdb(env, limit, encver, tokens).Loaded? {
        LoadedIsHealthy(env, limit, encver, tokens);
        hide LoadFromRdb;
      }
    case DefragKey(key, enabled, start, slices, moves) =>
  }

  /** What a run of operations makes of the keyspace, if the module survives it. */
  function KeysAfterAll(env: Env, codec: Codec, keys: Keyspace, ops: seq<Operation>): Option<Keyspace>
    requires HealthyKeys(keys) && LiveKeys(keys)
    requires forall i :: 0 <= i < |ops| ==> Signed(ops[i])
    decreases |ops|
  {
    if ops == [] then Some(keys) else
    OneKeyIsTouched(env, codec, keys, ops[0]);
    match KeysAfter(env, codec, keys, ops[0])
    case None => None
    case Some(next) => KeysAfterAll(env, codec, next, ops[1..])
  }

  // ---------- when there is no panic ----------

  /** Every buffer of the stream is the byte form of some bloom. */
  ghost predicate BitmapsParse(env: Env, tokens: seq<Token>) {
    forall i :: 0 <= i < |tokens| && tokens[i].Buffer? ==> env.fromBytes(tokens[i].bytes).Some?
  }

  lemma {:induction false} BitmapsThatParseLoad(env: Env, limit: nat, h: Header, ts: seq<Token>, fs: seq<Filter>,
                                                vecCap: nat, bytes: nat)
    requires BitmapsParse(env, ts) && |fs| <= h.numFilters
    ensures !LoadFilters(env, limit, h, ts, fs, vecCap, bytes).Panicked?
    decreases h.numFilters - |fs|
  {
    hide CalculateFpRate;
    if |fs| < h.numFilters {
      var r := LoadFilter(env, limit, h, ts, |fs|, vecCap, bytes);
      assert !r.BadBitmap? && (r.Read? ==> BitmapsParse(env, r.rest));
      hide LoadFilter;
      hide BitmapsParse;
      if r.Read? {
        BitmapsThatParseLoad(env, limit, h, r.rest, fs + [r.filter], GrowVec(vecCap, |fs|), bytes + r.size);
      }
    }
  }

  /** With a faithful byte form, the module survives every run that restores nothing but blooms. */
  lemma {:induction false} RunSurvives(env: Env, codec: Codec, keys: Keyspace, ops: seq<Operation>)
    requires HealthyKeys(keys) && LiveKeys(keys) && FaithfulBytes(env)
    requires forall i :: 0 <= i < |ops| ==> Signed(ops[i])
    requires forall i :: 0 <= i < |ops| && ops[i].RestoreKey? ==> BitmapsParse(env, ops[i].tokens)
    ensures KeysAfterAll(env, codec, keys, ops).Some?
    decreases |ops|
  {
    if ops != [] {
      OperationSurvives(env, codec, keys, ops[0]);
      OneKeyIsTouched(env, codec, keys, ops[0]);
      hide KeysAfter;
      hide FaithfulBytes;
      hide HealthyKeys;
      hide LiveKeys;
      hide Signed;
      hide BitmapsParse;
      RunSurvives(env, codec, KeysAfter(env, codec, keys, ops[0]).value, ops[1..]);
    }
  }

  lemma OperationSurvives(env: Env, codec: Codec, keys: Keyspace, op: Operation)
    requires LiveKeys(keys) && FaithfulBytes(env) && (op.RestoreKey? ==> BitmapsParse(env, op.tokens))
    ensures KeysAfter(env, codec, keys, op).Some?
  {
    hide Exec;
    match op
    case Execute(ctx, c) =>
    case CopyKey(source, target) =>
      if source in keys { CopyIsEqual(env, keys[source]); }
    case RestoreKey(key, limit, encver, tokens) =>
      if LoadHeader(tokens).Some? {
        BitmapsThatParseLoad(env, limit, LoadHeader(tokens).value, tokens[5..], [], 1, 0);
      }
      hide LoadFilters;
    case DefragKey(key, enabled, start, slices, moves) =>
  }

  /** While the object under a key is dropped, sub-filter by sub-filter, no counter goes below zero. */
  lemma DropNeverUnderflows(env: Env, keys: Keyspace, key: string, i: nat)
    requires HealthyKeys(keys) && key in keys && i <= |keys[key].filters|
    ensures var o := keys[key];
            NonNegative(Minus(Minus(Total(env, keys), Counters(1, ObjectSize(o.vecCap), 0, 0, 0)),
                              FiltersCounters(env, o.filters[..i])))
  {
    var o := keys[key];
    TotalIncludes(env, keys, key);
    CountersOfObject(env, o);
    PrefixCountsLess(env, o.filters, i);
    hide Total;
    hide FiltersCounters;
    hide ObjectCounters;
  }
}

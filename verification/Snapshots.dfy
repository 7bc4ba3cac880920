/**
 A replica that starts from a snapshot: every object of the primary is saved, loaded under the same memory
 limit, and the rest of the log is replayed on what was loaded.
 */
module Snapshots {
  import opened Platform
  import opened RawBloom
  import opened ScalingObject
  import opened BatchAdd
  import opened AdvertisedMaximum
  import opened Rdb
  import opened Commands
  import opened Replication
  import opened SmallObjects
  import opened BloomsAsBytes

  type Snapshot = map<string, seq<Token>>

  function SaveAll(env: Env, keys: Keyspace): Snapshot {
    map k | k in keys :: SaveTokens(env, keys[k])
  }

  /** Loading stops at the first object that is not accepted. */
  function LoadAll(env: Env, limit: nat, saved: Snapshot): Option<Keyspace> {
    if forall k :: k in saved ==> LoadFromRdb(env, limit, ENCODING_VERSION, saved[k]).Loaded?
    then Some(map k | k in saved :: LoadFromRdb(env, limit, ENCODING_VERSION, saved[k]).loaded)
    else None
  }

  // ---------- objects that can be saved and loaded ----------

  /** What growth under one limit gives every object: all that loading checks but the first rate. */
  ghost predicate Saveable(env: Env, limit: nat, o: Object) {
    && Grown(env, o) && Unshrunk(o) && SizeChecked(env, limit, o)
    && (o.seedRandom || o.filters[0].bloom.seed == FixedSeed())
  }

  ghost predicate KeysSaveable(env: Env, limit: nat, keys: Keyspace) {
    forall k :: k in keys ==> Saveable(env, limit, keys[k])
  }

  lemma SaveableReloads(env: Env, limit: nat, o: Object)
    requires Saveable(env, limit, o) && FaithfulBytes(env)
    ensures LoadFromRdb(env, limit, ENCODING_VERSION, SaveTokens(env, o)) ==
            if o.fpRate > MIN_POSITIVE then Loaded(o) else Rejected
  {
    RoundTrip(env, limit, o);
    hide LoadFromRdb;
    hide Grown;
    hide SizeChecked;
    hide FixedSeed;
  }

  /** A whole keyspace is loaded back as it was if and only if every rate is above the smallest double. */
  lemma SnapshotRoundTrip(env: Env, limit: nat, keys: Keyspace)
    requires KeysSaveable(env, limit, keys) && FaithfulBytes(env)
    ensures LoadAll(env, limit, SaveAll(env, keys)) ==
            if forall k :: k in keys ==> keys[k].fpRate > MIN_POSITIVE then Some(keys) else None
  {
    forall k | k in keys
      ensures LoadFromRdb(env, limit, ENCODING_VERSION, SaveTokens(env, keys[k])) ==
              if keys[k].fpRate > MIN_POSITIVE then Loaded(keys[k]) else Rejected
    {
      SaveableReloads(env, limit, keys[k]);
    }
    hide KeysSaveable;
    hide FaithfulBytes;
    hide LoadFromRdb;
    hide SaveTokens;
    LoadsEach(env, limit, keys, SaveAll(env, keys));
  }

  lemma LoadsEach(env: Env, limit: nat, keys: Keyspace, saved: Snapshot)
    requires saved.Keys == keys.Keys
    requires forall k :: k in keys ==> LoadFromRdb(env, limit, ENCODING_VERSION, saved[k]) ==
                                       if keys[k].fpRate > MIN_POSITIVE then Loaded(keys[k]) else Rejected
    ensures LoadAll(env, limit, saved) ==
            if forall k :: k in keys ==> keys[k].fpRate > MIN_POSITIVE then Some(keys) else None
  {
    hide LoadFromRdb;
    if forall k :: k in keys ==> keys[k].fpRate > MIN_POSITIVE {
      assert forall k :: k in saved ==> LoadFromRdb(env, limit, ENCODING_VERSION, saved[k]) == Loaded(keys[k]);
      assert LoadAll(env, limit, saved).value == keys;
    } else {
      var k :| k in keys && keys[k].fpRate <= MIN_POSITIVE;
      assert k in saved && LoadFromRdb(env, limit, ENCODING_VERSION, saved[k]) == Rejected;
    }
  }

  // ---------- commands keep them so ----------

  lemma AddKeepsSaveable(env: Env, limit: nat, o: Object, item: string)
    requires Saveable(env, limit, o)
    ensures Saveable(env, limit, AddUnchecked(env, limit, o, item, true).after)
  {
    AddUncheckedKeepsGrown(env, limit, o, item, true);
    AddUncheckedKeepsSizeChecked(env, limit, o, item);
    hide AddUnchecked;
    hide Grown;
    hide SizeChecked;
    hide FixedSeed;
    hide Unshrunk;
  }

  lemma {:induction false} BatchKeepsSaveable(env: Env, limit: nat, o: Object, items: seq<string>, flags: seq<bool>, k: nat)
    requires Saveable(env, limit, o) && |flags| == |items| && k <= |items|
    ensures Saveable(env, limit, AddFirst(env, limit, o, items, flags, true, k).after)
  {
    hide AddUnchecked;
    hide Saveable;
    if k > 0 {
      BatchKeepsSaveable(env, limit, o, items, flags, k - 1);
      AddKeepsSaveable(env, limit, AddFirst(env, limit, o, items, flags, true, k - 1).after, items[k - 1]);
    }
  }

  lemma HandleKeepsSaveable(env: Env, limit: nat, o: Object, items: seq<string>, multi: bool)
    requires Saveable(env, limit, o) && (!multi ==> items != [])
    ensures HasFirst(o) && Saveable(env, limit, HandleAdd(env, limit, o, items, multi, true).after)
  {
    assert HasFirst(o);
    hide AddUnchecked;
    hide Saveable;
    if multi {
      BatchKeepsSaveable(env, limit, o, items, NewFlags(env, o, items), |items|);
    } else {
      AddKeepsSaveable(env, limit, o, items[0]);
    }
  }

  /** A node that validates sizes against the limit. */
  predicate Validates(ctx: Context, limit: nat) {
    !ctx.mustObey && ctx.limit == limit
  }

  lemma CreatedIsSaveable(env: Env, ctx: Context, options: Options)
    requires Validates(ctx, ctx.limit) && SeedMarked(options) && Create(env, ctx, options).Ok?
    ensures Saveable(env, ctx.limit, Create(env, ctx, options).value)
  {
    CreationIsGrown(env, ctx.limit, options.fpRate, options.tightening, options.capacity, options.expansion,
                    if options.seed.Some? then options.seed.value else ctx.drawn, options.seedRandom, true);
    hide Grown;
    hide SizeChecked;
    hide FixedSeed;
  }

  lemma SaveableUpdate(env: Env, limit: nat, keys: Keyspace, key: string, o: Object)
    requires KeysSaveable(env, limit, keys) && Saveable(env, limit, o)
    ensures KeysSaveable(env, limit, keys[key := o])
  {
    hide Saveable;
  }

  lemma SaveableKeysAreGrown(env: Env, limit: nat, keys: Keyspace)
    requires KeysSaveable(env, limit, keys)
    ensures KeysGrown(env, keys) && LiveKeys(keys)
  {
    hide SizeChecked;
    hide FixedSeed;
    forall k | k in keys ensures Grown(env, keys[k]) && Unshrunk(keys[k]) && HasFirst(keys[k]) {
      assert Saveable(env, limit, keys[k]);
    }
  }

  lemma AddOrCreateKeepsSaveable(env: Env, codec: Codec, ctx: Context, keys: Keyspace, key: string, options: Options,
                                 items: seq<string>, multi: bool, original: Command)
    requires KeysSaveable(env, ctx.limit, keys) && Validates(ctx, ctx.limit) && SeedMarked(options)
    requires !multi ==> items != []
    ensures LiveKeys(keys)
    ensures KeysSaveable(env, ctx.limit, AddOrCreate(env, codec, ctx, keys, key, options, items, multi, original).keys)
  {
    SaveableKeysAreGrown(env, ctx.limit, keys);
    if key in keys {
      HandleKeepsSaveable(env, ctx.limit, keys[key], items, multi);
      SaveableUpdate(env, ctx.limit, keys, key, HandleAdd(env, ctx.limit, keys[key], items, multi, true).after);
    } else if Create(env, ctx, options).Ok? {
      var o := Create(env, ctx, options).value;
      CreatedIsSaveable(env, ctx, options);
      HandleKeepsSaveable(env, ctx.limit, o, items, multi);
      SaveableUpdate(env, ctx.limit, keys, key, HandleAdd(env, ctx.limit, o, items, multi, true).after);
    }
    hide HandleAdd;
    hide Create;
    hide CreationArgs;
    hide Saveable;
    hide KeysSaveable;
  }

  lemma ExecKeepsSaveable(env: Env, codec: Codec, ctx: Context, keys: Keyspace, c: Command)
    requires KeysSaveable(env, ctx.limit, keys) && Validates(ctx, ctx.limit)
    ensures LiveKeys(keys) && KeysSaveable(env, ctx.limit, Exec(env, codec, ctx, keys, c).keys)
  {
    SaveableKeysAreGrown(env, ctx.limit, keys);
    hide AddOrCreate;
    hide Saveable;
    hide ParseReserve;
    match c
    case AddOne(args) =>
      if |args| == 3 {
        AddOrCreateKeepsSaveable(env, codec, ctx, keys, args[1], Defaults(ctx.cfg), args[2..], false, c);
      }
    case AddMany(args) =>
      if |args| >= 3 {
        AddOrCreateKeepsSaveable(env, codec, ctx, keys, args[1], Defaults(ctx.cfg), args[2..], true, c);
      }
    case Reserve(args) =>
      if 4 <= |args| <= 6 && ParseReserve(codec, ctx.cfg, args).Ok? {
        var options := ParseReserve(codec, ctx.cfg, args).value;
        ReservedSeedsAreMarked(codec, ctx.cfg, args);
        if Create(env, ctx, options).Ok? {
          CreatedIsSaveable(env, ctx, options);
          SaveableUpdate(env, ctx.limit, keys, args[1], Create(env, ctx, options).value);
        }
        hide Create;
      }
    case InsertItems(args) =>
      var parsed := ParseInsert(codec, ctx.cfg, args);
      if parsed.Ok? {
        ParsedSeedsAreMarked(codec, args, 2, Defaults(ctx.cfg));
        hide ParseFrom;
        AddOrCreateKeepsSaveable(env, codec, ctx, keys, args[1], parsed.value.options, args[parsed.value.itemsAt..], true, c);
      }
    case Delete(key) =>
  }

  lemma {:induction false} RunKeepsSaveable(env: Env, codec: Codec, limit: nat, keys: Keyspace, events: seq<Event>)
    requires KeysSaveable(env, limit, keys) && LiveKeys(keys)
    requires forall i :: 0 <= i < |events| ==> Validates(events[i].primary, limit)
    ensures KeysSaveable(env, limit, RunPrimary(env, codec, keys, events).keys)
    decreases |events|
  {
    hide Exec;
    hide Saveable;
    hide KeysSaveable;
    if events != [] {
      var ev := events[0];
      ExecKeepsSaveable(env, codec, ev.primary, keys, ev.command);
      ExecKeepsLive(env, codec, ev.primary, keys, ev.command);
      RunKeepsSaveable(env, codec, limit, Exec(env, codec, ev.primary, keys, ev.command).keys, events[1..]);
    }
  }

  /**
   Convergence from a snapshot taken anywhere in a run: after any commands that the primary executes under
   one memory limit, the snapshot loads if and only if every error rate is above the smallest double, and
   then gives the primary's keyspace; replaying the log of all that follows keeps the two equal.
   */
  lemma SnapshotConverges(env: Env, codec: Codec, limit: nat, first: seq<Event>, second: seq<Event>)
    requires FaithfulText(codec) && FaithfulBytes(env)
    requires forall i :: 0 <= i < |first| ==> Validates(first[i].primary, limit)
    requires forall ev :: ev in second ==> Admissible(codec, ev)
    ensures var keys := RunPrimary(env, codec, map[], first).keys;
            var loaded := LoadAll(env, limit, SaveAll(env, keys));
            && LiveKeys(keys)
            && (loaded.Some? <==> forall k :: k in keys ==> keys[k].fpRate > MIN_POSITIVE)
            && (loaded.Some? ==>
                  var rest := RunPrimary(env, codec, keys, second);
                  loaded.value == keys && Replay(env, codec, loaded.value, rest.log) == rest.keys)
  {
    var keys := RunPrimary(env, codec, map[], first).keys;
    RunKeepsSaveable(env, codec, limit, map[], first);
    SaveableKeysAreGrown(env, limit, keys);
    hide KeysSaveable;
    hide KeysGrown;
    hide LiveKeys;
    hide FaithfulText;
    hide FaithfulBytes;
    hide Admissible;
    hide LoadAll;
    hide MIN_POSITIVE;
    SnapshotRoundTrip(env, limit, keys);
    ReplayFollows(env, codec, keys, second);
  }

  // ---------- an object that cannot be loaded ----------

  /** An object that is created with the smallest normal double as its error rate, is saved, and is not loaded. */
  lemma CreatedButNotLoaded() returns (env: Env, p: Plan, limit: nat, o: Object)
    ensures FaithfulBytes(env) && p.env == env && Created(p, limit, SmallSeed(), true) == Ok(o)
    ensures LoadFromRdb(env, limit, ENCODING_VERSION, SaveTokens(env, o)) == Rejected
  {
    env := EnvOf(Small()).(toBytes := Write, fromBytes := BloomsAsBytes.Read);
    p, limit := Plan(env, 1, SmallestRate(), Half(), 1), 110;
    BytesCanBeFaithful(EnvOf(Small()));
    o := Created(p, limit, SmallSeed(), true).value;
    assert Run(env, o, []) == o;
    hide FaithfulBytes;
    RoundTripOfEveryRun(env, limit, p, SmallSeed(), true, o, []);
  }
}

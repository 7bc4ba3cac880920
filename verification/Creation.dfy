/** What creating commands promise: BF.RESERVE its properties, VALIDATESCALETO its capacity. */
module Creation {
  import opened Platform
  import opened RawBloom
  import opened ScalingObject
  import opened Simulator
  import opened BatchAdd
  import opened AdvertisedMaximum
  import opened Decimal
  import opened Commands

  /** The arguments of a BF.RESERVE for the given properties. */
  function ReserveArgs(codec: Codec, key: string, fpRate: Rate, capacity: StartCapacity, expansion: U32): seq<string> {
    ["BF.RESERVE", key, codec.showRate(fpRate), Show(capacity)]
    + (if expansion == 0 then ["NONSCALING"] else ["EXPANSION", Show(expansion)])
  }

  /**
   BF.RESERVE makes the object it was asked for: on a free key, and unless the limit forbids it, an
   empty object that grows by exactly the given rate, capacity and expansion and the configured
   tightening; on a taken key it changes nothing.
   */
  lemma ReserveAsAsked(env: Env, codec: Codec, ctx: Context, keys: Keyspace, key: string, fpRate: Rate,
                       capacity: StartCapacity, expansion: U32)
    requires FaithfulText(codec)
    ensures var e := ExecReserve(env, codec, ctx, keys, ReserveArgs(codec, key, fpRate, capacity, expansion));
            && (key in keys ==> e == Effect(keys, Fail(ItemExistsError), None))
            && (key !in keys && e.reply.Fail? ==> && !ctx.mustObey && e == Effect(keys, Fail(ExceedsMaxBloomSize), None)
                                                  && OBJECT_BYTES + BOX_BYTES + FilterSize(env, capacity, fpRate) > ctx.limit)
            && (key !in keys && !e.reply.Fail? ==>
                  && e.reply == Done && key in e.keys && e.keys == keys[key := e.keys[key]]
                  && var o := e.keys[key];
                  && Grown(env, o) && Unshrunk(o) && Cardinality(o) == 0
                  && PlanOf(env, o) == Plan(env, capacity, fpRate, ctx.cfg.tightening, expansion))
  {
    var args := ReserveArgs(codec, key, fpRate, capacity, expansion);
    assert {"NONSCALING", "EXPANSION"} <= PRINTED_KEYWORDS;
    assert ParseReserve(codec, ctx.cfg, args) ==
           Ok(Defaults(ctx.cfg).(fpRate := fpRate, capacity := capacity, expansion := expansion)) by {
      ReadBack(capacity);
      ReadBack(expansion);
    }
    hide ParseReserve;
    hide FixedSeed;
    var options := Defaults(ctx.cfg).(fpRate := fpRate, capacity := capacity, expansion := expansion);
    CreationIsGrown(env, ctx.limit, fpRate, ctx.cfg.tightening, capacity, expansion,
                    if options.seed.Some? then options.seed.value else ctx.drawn, options.seedRandom, !ctx.mustObey);
  }

  /**
   What VALIDATESCALETO promises: if a BF.INSERT with it is accepted, the object can be created, and then
   any `scaleTo` items can be added to it without an error, as far as the largest number of sub-filters
   allows. After `k` of them, a multi-item command for all the others still validates.
   */
  lemma ScaleToIsKept(env: Env, ctx: Context, options: Options, items: seq<string>, validate: bool, k: nat)
    requires !ctx.mustObey && options.scaleTo == Some(|items|) && CheckScaleTo(env, ctx, options) == None
    requires 1 <= |items| && k <= |items|
    ensures var created := Create(env, ctx, options);
            && created.Ok? && HasFirst(created.value)
            && var r := AddAll(env, ctx.limit, created.value, items, validate, k);
            && (r.reply.Ok? <==> k <= PlanOf(env, created.value).Total(I32_MAX))
            && (r.reply.Ok? ==> && r.reply.value == seq(k, _ => 1) && Cardinality(r.after) == k
                                && HasFirst(r.after) && ValidateAddItems(env, ctx.limit, r.after, |items| - k) == None)
  {
    hide CapacityAt;
    var m := CreatedForTarget(env, ctx, options, |items|);
    var o := Create(env, ctx, options).value;
    hide Create;
    hide CheckScaleTo;
    hide Room;
    AddAllWithRoom(env, ctx.limit, o, items, validate, k, m);
    hide AddFirst;
    RemainderValidates(env, ctx.limit, AddAll(env, ctx.limit, o, items, validate, k).after, |items|);
  }

  /** What is missing to a target that the simulation accepts still validates. */
  lemma RemainderValidates(env: Env, limit: nat, o: Object, target: nat)
    requires Grown(env, o) && PlanOf(env, o).expansion > 0 && MaxScaledCapacity(PlanOf(env, o), limit, target).Ok?
    ensures Cardinality(o) <= target ==> ValidateAddItems(env, limit, o, target - Cardinality(o)) == None
  {
    hide MaxScaledCapacity;
    hide CapacityAt;
    assert PlanOf(env, o).expansion == o.expansion;
  }

  /** The simulation that accepted the target leaves room for it in the object that is created. */
  lemma CreatedForTarget(env: Env, ctx: Context, options: Options, target: pos) returns (m: nat)
    requires !ctx.mustObey && options.scaleTo == Some(target) && CheckScaleTo(env, ctx, options) == None
    ensures var r := Create(env, ctx, options);
            && r.Ok? && Grown(env, r.value) && Unshrunk(r.value) && Cardinality(r.value) == 0
            && Room(env, ctx.limit, r.value, target, m)
            && PlanOf(env, r.value).expansion > 0
            && MaxScaledCapacity(PlanOf(env, r.value), ctx.limit, target).Ok?
  {
    var p := Plan(env, options.capacity, options.fpRate, options.tightening, options.expansion);
    m := AcceptedTargetIsReached(p, ctx.limit, target);
    assert p.Total(0) == 0;
    assert StepAt(p, ctx.limit, 0) == Continue;
    assert p.Bytes(1) == FilterSize(env, p.start, p.fpRate) by { assert p.Bytes(0) == 0; }
    CreationIsGrown(env, ctx.limit, options.fpRate, options.tightening, options.capacity, options.expansion,
                    if options.seed.Some? then options.seed.value else ctx.drawn, options.seedRandom, true);
    assert Create(env, ctx, options).Ok? ==> PlanOf(env, Create(env, ctx, options).value) == p;
  }
}

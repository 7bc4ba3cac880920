/**
 A node: the keyspace of objects updated in place, the global counters, and the operations on them. Each
 does to the keyspace what its value-level form says, and keeps the counters equal to what the live
 objects add up to.
 */
module Server {
  import opened Platform
  import opened RawBloom
  import opened ScalingObject
  import opened Simulator
  import opened BatchAdd
  import opened Accounting
  import opened Objects
  import opened Rdb
  import opened Commands
  import opened Handlers
  import opened Conservation
  import Lifecycle
  import Storage

  /** `o` holds the value `v` and is made of nothing but `parts`. */
  ghost predicate Holds(o: BloomObject, v: Object, parts: set<object>)
    reads parts
  {
    && o in parts && (forall i :: 0 <= i < |o.filters| ==> o.filters[i] in parts)
    && o.Valid() && o.value == v
  }

  ghost function PartsOf(o: BloomObject): set<object>
    reads o
  {
    {o} + set f: BloomFilter | f in o.filters
  }

  /** Nothing is part of two of them, and all are within `all`. */
  ghost predicate Apart(parts: map<string, set<object>>, all: set<object>) {
    && (forall k :: k in parts ==> parts[k] <= all)
    && (forall j, k :: j in parts && k in parts && j != k ==> parts[j] !! parts[k])
  }

  /** The parts under `key` may become `now`, which is theirs so far or new. */
  ghost predicate CanBecome(parts: map<string, set<object>>, all: set<object>, key: string, now: set<object>) {
    forall x :: x in now && x in all ==> key in parts && x in parts[key]
  }

  lemma StaysApart(parts: map<string, set<object>>, all: set<object>, key: string, now: set<object>)
    requires Apart(parts, all) && CanBecome(parts, all, key, now)
    ensures Apart(parts[key := now], all + now)
  {
    forall k | k in parts && k != key ensures parts[k] !! now {
      assert forall x :: x in parts[k] && x in now ==> key in parts && parts[k] !! parts[key];
    }
  }

  /** `handle_bloom_add` on an object made of `parts`, which may come to be made of more. */
  method AddWithin(env: Env, limit: nat, o: BloomObject, ghost v: Object, ghost parts: set<object>, items: seq<string>,
                   multi: bool, validate: bool, m: Metrics) returns (reply: Reply, added: bool, ghost now: set<object>)
    requires Holds(o, v, parts) && m !in parts && HasFirst(v) && (!multi ==> items != [])
    modifies parts, m
    ensures var h := HandleAdd(env, limit, v, items, multi, validate);
            && Holds(o, h.after, now) && reply == h.reply && added == h.added
            && Booked(env, old(m.View()), v, m.View(), h.after)
    ensures parts <= now && fresh(now - parts)
  {
    hide HandleAdd;
    hide ObjectCounters;
    reply, added := HandleBloomAdd(env, limit, o, items, multi, validate, m);
    now := parts + PartsOf(o);
  }

  /** A slice of defragmentation on an object made of `parts`. */
  method DefragWithin(env: Env, o: BloomObject, ghost v: Object, ghost parts: set<object>, enabled: bool, start: nat,
                      slices: nat, moves: nat -> bool, placeholder: Placeholder, m: Metrics)
    returns (reply: int, cursor: nat, ghost now: set<object>)
    requires Holds(o, v, parts) && {m, m.alarm, placeholder} !! parts && placeholder.bloom.Some?
    requires NoneNegative(v.filters) && Included(env, m.View(), v)
    modifies parts, placeholder, m, m.alarm
    ensures var n := |v.filters|;
            var v' := if enabled && start + slices >= n then v.(vecCap := n) else v;
            && (if !enabled then cursor == start && reply == 0
                else if start + slices < n then cursor == start + slices && reply == 1
                else cursor == Max(start, n) && reply == 0)
            && Holds(o, v', now) && Booked(env, old(m.View()), v, m.View(), v')
    ensures parts <= now && fresh(now - parts)
    ensures placeholder.bloom == old(placeholder.bloom) && m.alarm.wentBelowZero == old(m.alarm.wentBelowZero)
  {
    hide ObjectCounters;
    hide Included;
    reply, cursor := o.Defrag(env, enabled, start, slices, moves, placeholder, m);
    now := parts + PartsOf(o);
  }

  /** Dropping an object that was counted. */
  method DropWithin(env: Env, o: BloomObject, ghost v: Object, ghost parts: set<object>, m: Metrics)
    requires Holds(o, v, parts) && NoneNegative(v.filters) && Included(env, m.View(), v)
    modifies m, m.alarm
    ensures m.View() == Minus(old(m.View()), ObjectCounters(env, v))
    ensures m.alarm.wentBelowZero == old(m.alarm.wentBelowZero)
  {
    hide ObjectCounters;
    hide Included;
    o.Drop(env, m);
  }

  /** Copying an object; without a copy the module has panicked on the bytes of some bloom. */
  method CopyWithin(env: Env, from: BloomObject, ghost v: Object, ghost parts: set<object>, m: Metrics)
    returns (o: BloomObject?, ghost now: set<object>)
    requires Holds(from, v, parts)
    modifies m
    ensures match Lifecycle.CopyObject(env, v)
            case None => o == null
            case Some(copy) =>
              && o != null && fresh(now) && Holds(o, copy, now)
              && m.View() == Plus(old(m.View()), ObjectCounters(env, copy))
  {
    hide ObjectCounters;
    hide Lifecycle.CopyObject;
    var copy := Storage.CopyObject(env, from, m);
    o, now := null, {};
    if copy.Some? {
      o, now := copy.value, PartsOf(copy.value);
    }
  }

  /** Loading a stream: an object, or none and nothing changed, unless the module panics on a bitmap. */
  method LoadFrom(env: Env, limit: nat, encver: int, tokens: seq<Token>, m: Metrics)
    returns (alive: bool, o: BloomObject?, ghost now: set<object>)
    requires SignedTokens(tokens) && NonNegative(m.View())
    modifies m, m.alarm
    ensures m.alarm.wentBelowZero == old(m.alarm.wentBelowZero)
    ensures match LoadFromRdb(env, limit, encver, tokens)
            case Panicked => !alive
            case Rejected => alive && o == null && m.View() == old(m.View())
            case Loaded(v) => && alive && o != null && fresh(now) && Holds(o, v, now)
                              && m.View() == Plus(old(m.View()), ObjectCounters(env, v))
  {
    hide ObjectCounters;
    hide LoadFromRdb;
    var rdb := new Storage.Stream(tokens);
    var loaded := Storage.LoadObject(env, limit, encver, rdb, m);
    alive, o, now := !loaded.Aborted?, null, {};
    if loaded.Restored? {
      o, now := loaded.o, PartsOf(loaded.o);
    }
  }

  lemma CreatedThenUpdated(env: Env, c0: Counters, o1: Object, c1: Counters, o2: Object, c2: Counters)
    requires c1 == Plus(c0, ObjectCounters(env, o1)) && Booked(env, c1, o1, c2, o2)
    ensures c2 == Plus(c0, ObjectCounters(env, o2))
  {
    hide ObjectCounters;
  }

  /** Creating an object with the given options; no seed means that the drawn one is used. */
  method CreateObject(env: Env, ctx: Context, o: Options, m: Metrics) returns (r: Result<BloomObject>, ghost now: set<object>)
    modifies m
    ensures var spec := Create(env, ctx, o);
            && (r.Err? <==> spec.Err?)
            && (r.Err? ==> r.error == spec.error && m.View() == old(m.View()))
            && (r.Ok? ==> && fresh(now) && Holds(r.value, spec.value, now) && HasFirst(spec.value)
                          && m.View() == Plus(old(m.View()), ObjectCounters(env, spec.value)))
  {
    hide ObjectCounters;
    var seed := if o.seed.Some? then o.seed.value else ctx.drawn;
    r := CreateReserved(env, ctx.limit, o.fpRate, o.tightening, o.capacity, o.expansion, seed, o.seedRandom, !ctx.mustObey, m);
    now := {};
    if r.Ok? { now := PartsOf(r.value); }
  }

  /** The command that is logged for an object under the key it is going to have. */
  method LogCreation(codec: Codec, key: string, o: BloomObject, ghost v: Object, ghost parts: set<object>, items: seq<string>)
    returns (log: Command)
    requires Holds(o, v, parts) && HasFirst(v)
    ensures log == InsertItems(CreationArgs(codec, key, v, items))
  {
    hide CreationArgs;
    var cmd := WriteCreation(codec, key, o, items);
    log := InsertItems(cmd);
  }

  /** Creating an object for a key that has none, and adding the first items to it. */
  method CreateAndAdd(env: Env, codec: Codec, ctx: Context, key: string, options: Options, items: seq<string>, multi: bool,
                      m: Metrics)
    returns (o: BloomObject?, reply: Reply, log: Option<Command>, ghost now: set<object>)
    requires !multi ==> items != []
    modifies m
    ensures match Create(env, ctx, options)
            case Err(e) => o == null && reply == Fail(e) && log == None && m.View() == old(m.View())
            case Ok(v) =>
              && o != null && HasFirst(v) && fresh(now)
              && var h := HandleAdd(env, ctx.limit, v, items, multi, !ctx.mustObey);
              && Holds(o, h.after, now) && reply == h.reply && log == Some(InsertItems(CreationArgs(codec, key, v, items)))
              && m.View() == Plus(old(m.View()), ObjectCounters(env, h.after))
  {
    hide Create;
    hide Holds;
    hide HandleAdd;
    hide ObjectCounters;
    hide CreationArgs;
    o, log, now := null, None, {};
    var created, parts := CreateObject(env, ctx, options, m);
    if created.Err? { reply := Fail(created.error); return; }
    ghost var v, c1 := Create(env, ctx, options).value, m.View();
    var cmd := LogCreation(codec, key, created.value, v, parts, items);
    var added;
    reply, added, now := AddWithin(env, ctx.limit, created.value, v, parts, items, multi, !ctx.mustObey, m);
    CreatedThenUpdated(env, old(m.View()), v, c1, HandleAdd(env, ctx.limit, v, items, multi, !ctx.mustObey).after, m.View());
    o, log := created.value, Some(cmd);
  }

  /** What is on record about the objects of a node: their values, what each is made of, and all of that together. */
  datatype Record = Record(keys: Keyspace, parts: map<string, set<object>>, all: set<object>)

  class Node {
    const env: Env
    const codec: Codec
    const metrics: Metrics
    const placeholder: Placeholder
    var objects: map<string, BloomObject>
    ghost var record: Record

    /** A node with no keys. `b` is the bloom that stands in for those that are being moved. */
    constructor (env: Env, codec: Codec, b: Bloom)
      ensures this.env == env && this.codec == codec && record == Record(map[], map[], {})
      ensures fresh(metrics) && fresh(metrics.alarm) && fresh(placeholder)
      ensures Sound() && Counted() && placeholder.bloom.Some? && !metrics.alarm.wentBelowZero
    {
      this.env, this.codec := env, codec;
      metrics := new Metrics();
      placeholder := new Placeholder(b);
      objects, record := map[], Record(map[], map[], {});
    }

    /** The node, its counters and its placeholder are not among `objs`. */
    ghost predicate OwnPartsAreNotIn(objs: set<object>) {
      this !in objs && metrics !in objs && metrics.alarm !in objs && placeholder !in objs
    }

    /** Objects under different keys share nothing. */
    ghost predicate Separate()
      reads this
    {
      && objects.Keys == record.keys.Keys == record.parts.Keys
      && Apart(record.parts, record.all) && OwnPartsAreNotIn(record.all)
    }

    ghost predicate HoldsUnder(k: string)
      reads this, record.all
    {
      && k in objects && k in record.keys && k in record.parts && record.parts[k] <= record.all
      && Holds(objects[k], record.keys[k], record.parts[k])
    }

    /** The objects in place hold the values on record. */
    ghost predicate Sound()
      reads this, record.all
    {
      Separate() && forall k :: k in record.keys ==> HoldsUnder(k)
    }

    ghost predicate Counted()
      reads this, metrics
    {
      metrics.View() == Total(env, record.keys)
    }

    /**
     In every state between operations: the objects hold the values on record, the counters equal what the
     objects add up to, and none of them has ever been below zero.
     */
    ghost predicate Valid()
      reads this, record.all, metrics, metrics.alarm, placeholder
    {
      && Sound() && Counted() && !metrics.alarm.wentBelowZero
      && HealthyKeys(record.keys) && placeholder.bloom.Some?
    }

    /** An operation on the object under `key` leaves the others as they were. */
    twostate lemma OthersHold(key: string)
      requires old(Sound()) && key in record.keys && unchanged(this)
      requires forall x :: x in record.all && x !in record.parts[key] ==> unchanged(x)
      ensures forall k :: k in record.keys && k != key ==> HoldsUnder(k)
    {
    }

    /** An object that the record still says the same about, and that has not changed, is held as before. */
    twostate lemma StillUnder(k: string)
      requires old(HoldsUnder(k)) && k in objects && objects[k] == old(objects)[k]
      requires k in record.keys && record.keys[k] == old(record).keys[k]
      requires k in record.parts && record.parts[k] == old(record).parts[k] && record.parts[k] <= record.all
      requires unchanged(old(record).parts[k])
      ensures HoldsUnder(k)
    {
    }

    /** Takes note of the value and the parts of the object under `key`, which may have come there just now. */
    ghost method Settle(key: string, v: Object, now: set<object>)
      requires objects.Keys == record.keys.Keys + {key} && record.keys.Keys == record.parts.Keys
      requires Apart(record.parts, record.all) && CanBecome(record.parts, record.all, key, now)
      requires OwnPartsAreNotIn(record.all) && OwnPartsAreNotIn(now)
      requires forall k :: k in record.keys && k != key ==> HoldsUnder(k)
      requires Holds(objects[key], v, now)
      modifies this`record
      ensures Sound()
      ensures record == Record(old(record).keys[key := v], old(record).parts[key := now], old(record).all + now)
    {
      StaysApart(record.parts, record.all, key, now);
      hide CanBecome;
      hide Apart;
      hide Holds;
      record := Record(record.keys[key := v], record.parts[key := now], record.all + now);
      assert Separate();
      hide Separate;
      forall k | k in record.keys && k != key ensures HoldsUnder(k) {
        StillUnder(k);
      }
    }

    /** Puts a new object under a key that is free. */
    method Install(key: string, o: BloomObject, ghost v: Object, ghost now: set<object>)
      requires Sound() && key !in objects && Holds(o, v, now)
      requires now !! record.all && OwnPartsAreNotIn(now)
      requires metrics.View() == Plus(Total(env, record.keys), ObjectCounters(env, v))
      modifies this`objects, this`record
      ensures Sound() && Counted()
      ensures record.keys == old(record).keys[key := v] && record.all == old(record).all + now
    {
      hide ObjectCounters;
      hide Total;
      hide Holds;
      hide Apart;
      TotalFollows(env, record.keys, record.keys[key := v], key, Total(env, record.keys), metrics.View());
      objects := objects[key := o];
      forall k | k in record.keys && k != key ensures HoldsUnder(k) {
        assert old(HoldsUnder(k));
      }
      Settle(key, v, now);
    }

    /** Takes the object away from a key. */
    method Remove(key: string)
      requires Sound() && key in objects
      requires metrics.View() == Minus(Total(env, record.keys), ObjectCounters(env, record.keys[key]))
      modifies this`objects, this`record
      ensures Sound() && Counted()
      ensures record.keys == old(record).keys - {key} && record.all == old(record).all
    {
      hide ObjectCounters;
      hide Total;
      hide Holds;
      TotalFollows(env, record.keys, record.keys - {key}, key, Total(env, record.keys), metrics.View());
      objects := objects - {key};
      record := Record(record.keys - {key}, record.parts - {key}, record.all);
      assert Separate();
      hide Apart;
      forall k | k in record.keys ensures HoldsUnder(k) {
        assert old(HoldsUnder(k));
      }
    }

    /** Adding to the object under `key`. */
    method AddTo(limit: nat, key: string, items: seq<string>, multi: bool, validate: bool) returns (reply: Reply, added: bool)
      requires Sound() && Counted() && key in record.keys && HasFirst(record.keys[key]) && (!multi ==> items != [])
      modifies this`record, record.all, metrics
      ensures Sound() && Counted() && fresh(record.all - old(record.all))
      ensures var h := HandleAdd(env, limit, old(record.keys[key]), items, multi, validate);
              record.keys == old(record.keys)[key := h.after] && reply == h.reply && added == h.added
    {
      hide HandleAdd;
      hide ObjectCounters;
      hide Total;
      hide Holds;
      hide Apart;
      assert HoldsUnder(key);
      assert record.keys.Keys + {key} == record.keys.Keys;
      ghost var v, now := record.keys[key], {};
      reply, added, now := AddWithin(env, limit, objects[key], v, record.parts[key], items, multi, validate, metrics);
      OthersHold(key);
      Settle(key, HandleAdd(env, limit, v, items, multi, validate).after, now);
      TotalFollows(env, old(record.keys), record.keys, key, old(metrics.View()), metrics.View());
    }

    /** The common end of BF.ADD, BF.MADD and BF.INSERT. */
    method AddOrCreateObject(ctx: Context, key: string, options: Options, items: seq<string>, multi: bool, original: Command)
      returns (reply: Reply, log: Option<Command>)
      requires Sound() && Counted() && LiveKeys(record.keys) && (!multi ==> items != [])
      modifies this`objects, this`record, record.all, metrics
      ensures Sound() && Counted() && fresh(record.all - old(record.all))
      ensures Effect(record.keys, reply, log) ==
              AddOrCreate(env, codec, ctx, old(record.keys), key, options, items, multi, original)
    {
      hide HandleAdd;
      hide ObjectCounters;
      hide Total;
      hide Holds;
      hide Apart;
      hide Create;
      hide CreationArgs;
      if key in objects {
        var added;
        reply, added := AddTo(ctx.limit, key, items, multi, !ctx.mustObey);
        log := if added then Some(original) else None;
        return;
      }
      var o;
      ghost var now;
      o, reply, log, now := CreateAndAdd(env, codec, ctx, key, options, items, multi, metrics);
      if o != null {
        Install(key, o, HandleAdd(env, ctx.limit, Create(env, ctx, options).value, items, multi, !ctx.mustObey).after, now);
      }
    }

    /** The counters of a valid node are not negative, and they include every object. */
    lemma CountersOfValid()
      requires Valid()
      ensures metrics.View() == Total(env, record.keys) && NonNegative(metrics.View()) && LiveKeys(record.keys)
      ensures forall k :: k in record.keys ==>
                NoneNegative(record.keys[k].filters) && Included(env, metrics.View(), record.keys[k])
    {
      hide Total;
      hide ObjectCounters;
      TotalIsNonNegative(env, record.keys);
      forall k | k in record.keys ensures Included(env, metrics.View(), record.keys[k]) {
        TotalIncludes(env, record.keys, k);
      }
    }

    // ---------- commands ----------

    /** BF.ADD and BF.MADD. */
    method BloomFilterAddValue(ctx: Context, args: seq<string>, multi: bool) returns (reply: Reply, log: Option<Command>)
      requires Valid()
      modifies this`objects, this`record, record.all, metrics
      ensures Valid() && fresh(record.all - old(record.all)) && LiveKeys(old(record.keys))
      ensures Effect(record.keys, reply, log) == ExecAdd(env, codec, ctx, old(record.keys), args, multi)
    {
      hide AddOrCreate;
      hide Holds;
      hide Apart;
      hide Total;
      ExecKeepsHealthy(env, codec, ctx, record.keys, if multi then AddMany(args) else AddOne(args));
      hide HealthyKeys;
      if (!multi && |args| != 3) || |args| < 3 { return Fail(WrongArity), None; }
      reply, log := AddOrCreateObject(ctx, args[1], Defaults(ctx.cfg), args[2..], multi,
                                      if multi then AddMany(args) else AddOne(args));
    }

    /** BF.RESERVE. */
    method BloomFilterReserve(ctx: Context, args: seq<string>) returns (reply: Reply, log: Option<Command>)
      requires Valid()
      modifies this`objects, this`record, metrics
      ensures Valid() && fresh(record.all - old(record.all))
      ensures Effect(record.keys, reply, log) == ExecReserve(env, codec, ctx, old(record.keys), args)
    {
      hide Create;
      hide CreationArgs;
      hide ParseReserve;
      hide Holds;
      hide Apart;
      hide Total;
      hide ObjectCounters;
      ExecKeepsHealthy(env, codec, ctx, record.keys, Reserve(args));
      hide HealthyKeys;
      if !(4 <= |args| <= 6) { return Fail(WrongArity), None; }
      var parsed := ParseReserve(codec, ctx.cfg, args);
      if parsed.Err? { return Fail(parsed.error), None; }
      if args[1] in objects { return Fail(ItemExistsError), None; }
      var created, now := CreateObject(env, ctx, parsed.value, metrics);
      if created.Err? { return Fail(created.error), None; }
      ghost var v := Create(env, ctx, parsed.value).value;
      var cmd := LogCreation(codec, args[1], created.value, v, now, []);
      Install(args[1], created.value, v, now);
      return Done, Some(cmd);
    }

    /** BF.INSERT. */
    method BloomFilterInsert(ctx: Context, args: seq<string>) returns (reply: Reply, log: Option<Command>)
      requires Valid()
      modifies this`objects, this`record, record.all, metrics
      ensures Valid() && fresh(record.all - old(record.all)) && LiveKeys(old(record.keys))
      ensures Effect(record.keys, reply, log) == ExecInsert(env, codec, ctx, old(record.keys), args)
    {
      hide AddOrCreate;
      hide MaxScaledCapacity;
      hide Holds;
      hide Apart;
      hide Total;
      ExecKeepsHealthy(env, codec, ctx, record.keys, InsertItems(args));
      hide HealthyKeys;
      var parsed := ReadInsertArgs(codec, ctx.cfg, args);
      hide ParseInsert;
      if parsed.Err? { return Fail(parsed.error), None; }
      var o := parsed.value.options;
      if o.scaleTo.Some? {
        if o.expansion == 0 { return Fail(NonScalingAndValidateScaleTo), None; }
        if !ctx.mustObey {
          var r := CalculateMaxScaledCapacity(env, ctx.limit, o.capacity, o.fpRate, o.scaleTo.value, o.tightening, o.expansion);
          if r.Err? { return Fail(r.error), None; }
        }
      }
      if args[1] !in objects && o.nocreate { return Fail(NotFound), None; }
      reply, log := AddOrCreateObject(ctx, args[1], o, args[parsed.value.itemsAt..], true, InsertItems(args));
    }

    /** DEL, which drops the object. */
    method DeleteKey(key: string) returns (reply: Reply, log: Option<Command>)
      requires Valid()
      modifies this`objects, this`record, metrics, metrics.alarm
      ensures Valid() && record.all == old(record.all)
      ensures reply == Done && log == (if key in old(record.keys) then Some(Delete(key)) else None)
      ensures record.keys == old(record.keys) - {key}
    {
      hide Holds;
      hide Apart;
      hide Total;
      hide ObjectCounters;
      CountersOfValid();
      if key !in objects {
        assert record.keys - {key} == record.keys;
        return Done, None;
      }
      assert HoldsUnder(key);
      DropWithin(env, objects[key], record.keys[key], record.parts[key], metrics);
      Remove(key);
      return Done, Some(Delete(key));
    }

    // ---------- copying, restoring and defragmenting ----------

    /** COPY to a free key. */
    method CopyKey(source: string, target: string) returns (alive: bool)
      requires Valid()
      modifies this`objects, this`record, metrics
      ensures LiveKeys(old(record.keys)) && fresh(record.all - old(record.all))
      ensures match KeysAfter(env, codec, old(record.keys), Operation.CopyKey(source, target))
              case None => !alive
              case Some(after) => alive && Valid() && record.keys == after
      ensures FaithfulBytes(env) ==>
                && alive
                && record.keys == if source in old(record.keys) && target !in old(record.keys)
                                  then old(record.keys)[target := old(record.keys)[source]] else old(record.keys)
    {
      hide Holds;
      hide Apart;
      hide Total;
      hide ObjectCounters;
      CountersOfValid();
      OneKeyIsTouched(env, codec, record.keys, Operation.CopyKey(source, target));
      if FaithfulBytes(env) && source in record.keys { Lifecycle.CopyIsEqual(env, record.keys[source]); }
      hide FaithfulBytes;
      hide HealthyKeys;
      hide Lifecycle.CopyObject;
      if source !in objects || target in objects { return true; }
      assert HoldsUnder(source);
      ghost var v := record.keys[source];
      var o;
      ghost var now;
      o, now := CopyWithin(env, objects[source], v, record.parts[source], metrics);
      if o == null { return false; }
      Install(target, o, Lifecycle.CopyObject(env, v).value, now);
      return true;
    }

    /** Loading an object from a stream to a free key. */
    method RestoreKey(key: string, limit: nat, encver: int, tokens: seq<Token>) returns (alive: bool)
      requires Valid() && SignedTokens(tokens)
      modifies this`objects, this`record, metrics, metrics.alarm
      ensures LiveKeys(old(record.keys)) && fresh(record.all - old(record.all))
      ensures match KeysAfter(env, codec, old(record.keys), Operation.RestoreKey(key, limit, encver, tokens))
              case None => !alive
              case Some(after) => alive && Valid() && record.keys == after
      ensures if key in old(record.keys) then alive && record.keys == old(record.keys) else
              match LoadFromRdb(env, limit, encver, tokens)
              case Loaded(o) => alive && record.keys == old(record.keys)[key := o]
              case Rejected => alive && record.keys == old(record.keys)
              case Panicked => !alive
    {
      hide Holds;
      hide Apart;
      hide Total;
      hide ObjectCounters;
      hide LoadFromRdb;
      CountersOfValid();
      OneKeyIsTouched(env, codec, record.keys, Operation.RestoreKey(key, limit, encver, tokens));
      hide HealthyKeys;
      hide SignedTokens;
      if key in objects { return true; }
      var o;
      ghost var now;
      alive, o, now := LoadFrom(env, limit, encver, tokens, metrics);
      if alive && o != null {
        Install(key, o, LoadFromRdb(env, limit, encver, tokens).loaded, now);
      }
    }

    /** One slice of defragmentation. */
    method DefragKey(key: string, enabled: bool, start: nat, slices: nat, moves: nat -> bool) returns (reply: int, cursor: nat)
      requires Valid() && key in record.keys
      modifies this`record, record.all, metrics, metrics.alarm, placeholder
      ensures Valid() && fresh(record.all - old(record.all))
      ensures var v := old(record.keys)[key];
              var n := |v.filters|;
              && (if !enabled then cursor == start && reply == 0
                  else if start + slices < n then cursor == start + slices && reply == 1
                  else cursor == Max(start, n) && reply == 0)
              && record.keys == old(record.keys)[key := if enabled && start + slices >= n then v.(vecCap := n) else v]
    {
      hide Holds;
      hide Apart;
      hide Total;
      hide ObjectCounters;
      CountersOfValid();
      hide Included;
      assert HoldsUnder(key);
      assert record.keys.Keys + {key} == record.keys.Keys;
      ghost var v, now := record.keys[key], {};
      ghost var v' := if enabled && start + slices >= |v.filters| then v.(vecCap := |v.filters|) else v;
      HealthyUpdate(record.keys, key, v');
      hide HealthyKeys;
      reply, cursor, now :=
        DefragWithin(env, objects[key], v, record.parts[key], enabled, start, slices, moves, placeholder, metrics);
      OthersHold(key);
      Settle(key, v', now);
      TotalFollows(env, old(record.keys), record.keys, key, old(metrics.View()), metrics.View());
    }

    // ---------- whole runs ----------

    method Execute(ctx: Context, c: Command) returns (reply: Reply, log: Option<Command>)
      requires Valid()
      modifies this`objects, this`record, record.all, metrics, metrics.alarm
      ensures Valid() && fresh(record.all - old(record.all)) && LiveKeys(old(record.keys))
      ensures Effect(record.keys, reply, log) == Exec(env, codec, ctx, old(record.keys), c)
    {
      hide ExecAdd;
      hide ExecReserve;
      hide ExecInsert;
      CountersOfValid();
      hide Valid;
      match c {
        case AddOne(args) => reply, log := BloomFilterAddValue(ctx, args, false);
        case AddMany(args) => reply, log := BloomFilterAddValue(ctx, args, true);
        case Reserve(args) => reply, log := BloomFilterReserve(ctx, args);
        case InsertItems(args) => reply, log := BloomFilterInsert(ctx, args);
        case Delete(key) => reply, log := DeleteKey(key);
      }
    }

    /** Any one operation; `alive` tells whether the module has survived it. */
    method Perform(op: Operation) returns (alive: bool)
      requires Valid() && Signed(op)
      modifies this`objects, this`record, record.all, metrics, metrics.alarm, placeholder
      ensures LiveKeys(old(record.keys)) && fresh(record.all - old(record.all))
      ensures match KeysAfter(env, codec, old(record.keys), op)
              case None => !alive
              case Some(after) => alive && Valid() && record.keys == after
    {
      hide Exec;
      assert Separate();
      CountersOfValid();
      hide Valid;
      hide Total;
      alive := true;
      match op {
        case Execute(ctx, c) =>
          var reply, log := Execute(ctx, c);
        case CopyKey(source, target) =>
          hide KeysAfter;
          alive := CopyKey(source, target);
        case RestoreKey(key, limit, encver, tokens) =>
          hide KeysAfter;
          alive := RestoreKey(key, limit, encver, tokens);
        case DefragKey(key, enabled, start, slices, moves) =>
          if key in objects {
            Lifecycle.CursorAdvances(|record.keys[key].filters|, start, slices);
            var reply, cursor := DefragKey(key, enabled, start, slices, moves);
          }
      }
    }

    /**
     Counter conservation: after any run of commands, copies, restores (accepted or rejected),
     defragmentation slices and deletions that the module survives, the five counters equal the number of
     live objects and the sums of their filters, items, capacities and memory; none is negative, or has
     been at any decrement.
     */
    method PerformAll(ops: seq<Operation>) returns (alive: bool)
      requires Valid() && forall i :: 0 <= i < |ops| ==> Signed(ops[i])
      modifies this`objects, this`record, record.all, metrics, metrics.alarm, placeholder
      ensures LiveKeys(old(record.keys)) && HealthyKeys(old(record.keys))
      ensures match KeysAfterAll(env, codec, old(record.keys), ops)
              case None => !alive
              case Some(after) =>
                && alive && Valid() && record.keys == after
                && metrics.View() == Total(env, record.keys) && NonNegative(metrics.View()) && !metrics.alarm.wentBelowZero
    {
      hide KeysAfter;
      hide Signed;
      CountersOfValid();
      ghost var before := record.keys;
      var left := ops;
      alive := true;
      while left != []
        invariant alive && Valid() && LiveKeys(record.keys) && fresh(record.all - old(record.all))
        invariant forall i :: 0 <= i < |left| ==> Signed(left[i])
        invariant KeysAfterAll(env, codec, record.keys, left) == KeysAfterAll(env, codec, before, ops)
        decreases |left|
      {
        hide Sound;
        hide Total;
        alive := Perform(left[0]);
        if !alive { return; }
        CountersOfValid();
        left := left[1..];
      }
      CountersOfValid();
    }
  }

  /** The same for a node that starts empty, with all counters at zero. */
  method CountersAreConserved(env: Env, codec: Codec, b: Bloom, ops: seq<Operation>) returns (node: Node, alive: bool)
    requires forall i :: 0 <= i < |ops| ==> Signed(ops[i])
    ensures match KeysAfterAll(env, codec, map[], ops)
            case None => !alive
            case Some(after) =>
              && alive && node.Valid() && node.record.keys == after
              && node.metrics.View() == Total(env, after) && NonNegative(node.metrics.View())
              && !node.metrics.alarm.wentBelowZero
  {
    hide Signed;
    node := new Node(env, codec, b);
    alive := node.PerformAll(ops);
  }
}

/**
 The arguments of the commands as a client spells them: options in any order and number, keywords in any
 case, values in any form that reads as them. What each spelling means, and how everything else is answered.
 */
module Arguments {
  import opened Platform
  import opened RawBloom
  import opened ScalingObject
  import opened Decimal
  import opened Commands

  // ---------- the options of BF.INSERT ----------

  datatype Choice =
    | ErrorRate(r: Rate)
    | Tightening(t: Rate)
    | StartsWith(n: StartCapacity)
    | Seeded(seed: Seed)
    | NoCreate
    | NonScaling
    | Expansion(x: U32)
    | ScalesTo(n: StartCapacity)

  /** A choice with the keyword and the text that spell it; a choice without a value has no use for the text. */
  datatype Spelled = Spelled(choice: Choice, word: string, text: string)

  predicate Says(codec: Codec, s: Spelled) {
    match s.choice
    case ErrorRate(r) => codec.upper(s.word) == "ERROR" && codec.readRate(s.text) == Some(Finite(r))
    case Tightening(t) => codec.upper(s.word) == "TIGHTENING" && codec.readRate(s.text) == Some(Finite(t))
    case StartsWith(n) => codec.upper(s.word) == "CAPACITY" && ReadI64(s.text) == Some(n)
    case Seeded(seed) => codec.upper(s.word) == "SEED" && s.text == seed
    case NoCreate => codec.upper(s.word) == "NOCREATE"
    case NonScaling => codec.upper(s.word) == "NONSCALING"
    case Expansion(x) => codec.upper(s.word) == "EXPANSION" && ReadU32(s.text) == Some(x) && x >= 1
    case ScalesTo(n) => codec.upper(s.word) == "VALIDATESCALETO" && ReadI64(s.text) == Some(n)
  }

  predicate AllSay(codec: Codec, all: seq<Spelled>) {
    forall i :: 0 <= i < |all| ==> Says(codec, all[i])
  }

  function Words(s: Spelled): seq<string> {
    if s.choice.NoCreate? || s.choice.NonScaling? then [s.word] else [s.word, s.text]
  }

  function Spell(all: seq<Spelled>): seq<string> {
    if all == [] then [] else Words(all[0]) + Spell(all[1..])
  }

  /** The options once a choice has been made; it decides one thing and leaves the rest alone. */
  function With(o: Options, c: Choice): Options {
    match c
    case ErrorRate(r) => o.(fpRate := r)
    case Tightening(t) => o.(tightening := t)
    case StartsWith(n) => o.(capacity := n)
    case Seeded(seed) => o.(seed := Some(seed), seedRandom := seed != FixedSeed())
    case NoCreate => o.(nocreate := true)
    case NonScaling => o.(expansion := 0)
    case Expansion(x) => o.(expansion := x)
    case ScalesTo(n) => o.(scaleTo := Some(n))
  }

  /** All choices made in turn, so that a later one overrides an earlier one. */
  function Chosen(o: Options, all: seq<Spelled>): Options
    decreases |all|
  {
    if all == [] then o else Chosen(With(o, all[0].choice), all[1..])
  }

  /** What an option is about; later options about the same thing override earlier ones. */
  datatype Aspect = Precision | Ratio | Start | Keying | Existence | Growth | Target

  function AspectOf(c: Choice): Aspect {
    match c
    case ErrorRate(_) => Precision
    case Tightening(_) => Ratio
    case StartsWith(_) => Start
    case Seeded(_) => Keying
    case NoCreate => Existence
    case NonScaling => Growth
    case Expansion(_) => Growth
    case ScalesTo(_) => Target
  }

  /** The options are as the choice wants them. */
  predicate Shows(o: Options, c: Choice) {
    match c
    case ErrorRate(r) => o.fpRate == r
    case Tightening(t) => o.tightening == t
    case StartsWith(n) => o.capacity == n
    case Seeded(seed) => o.seed == Some(seed) && (o.seedRandom <==> seed != FixedSeed())
    case NoCreate => o.nocreate
    case NonScaling => o.expansion == 0
    case Expansion(x) => o.expansion == x
    case ScalesTo(n) => o.scaleTo == Some(n)
  }

  predicate Same(o: Options, o': Options, a: Aspect) {
    match a
    case Precision => o.fpRate == o'.fpRate
    case Ratio => o.tightening == o'.tightening
    case Start => o.capacity == o'.capacity
    case Keying => o.seed == o'.seed && o.seedRandom == o'.seedRandom
    case Existence => o.nocreate == o'.nocreate
    case Growth => o.expansion == o'.expansion
    case Target => o.scaleTo == o'.scaleTo
  }

  /** None of the choices is about `a`. */
  predicate Silent(all: seq<Spelled>, a: Aspect) {
    forall i :: 0 <= i < |all| ==> AspectOf(all[i].choice) != a
  }

  /** What the choices do not speak of is left as it was. */
  lemma {:induction false} SilentLeavesAlone(o: Options, all: seq<Spelled>, a: Aspect)
    requires Silent(all, a)
    ensures Same(o, Chosen(o, all), a)
    decreases |all|
  {
    if all != [] {
      assert AspectOf(all[0].choice) != a;
      assert Same(o, With(o, all[0].choice), a);
      hide With;
      SilentLeavesAlone(With(o, all[0].choice), all[1..], a);
    }
  }

  /** The last choice about something decides it. */
  lemma {:induction false} LastChoiceDecides(o: Options, all: seq<Spelled>, i: nat)
    requires i < |all| && Silent(all[i + 1..], AspectOf(all[i].choice))
    ensures Shows(Chosen(o, all), all[i].choice)
    decreases |all|
  {
    var next, c := With(o, all[0].choice), all[i].choice;
    if i == 0 {
      SilentLeavesAlone(next, all[1..], AspectOf(c));
      assert Shows(next, c);
      hide With;
      hide FixedSeed;
    } else {
      assert all[1..][i..] == all[i + 1..];
      LastChoiceDecides(next, all[1..], i - 1);
    }
  }

  /** What a node's configuration says before any choice is made. */
  function Configured(cfg: Config): Options {
    if cfg.randomSeed
    then Options(cfg.fpRate, cfg.tightening, cfg.capacity, cfg.expansion, None, true, None, false)
    else Options(cfg.fpRate, cfg.tightening, cfg.capacity, cfg.expansion, Some(FixedSeed()), false, None, false)
  }

  lemma OneIsRead(codec: Codec, args: seq<string>, idx: nat, o: Options, s: Spelled)
    requires Says(codec, s) && idx + |Words(s)| <= |args| && args[idx..idx + |Words(s)|] == Words(s)
    ensures ParseFrom(codec, args, idx, o) == ParseFrom(codec, args, idx + |Words(s)|, With(o, s.choice))
  {
    hide FixedSeed;
    hide ReadI64;
    hide ReadU32;
    assert args[idx] == args[idx..idx + |Words(s)|][0] == s.word;
    if |Words(s)| == 2 { assert args[idx + 1] == args[idx..idx + |Words(s)|][1] == s.text; }
  }

  lemma {:induction false} AllAreRead(codec: Codec, args: seq<string>, idx: nat, o: Options, all: seq<Spelled>)
    requires AllSay(codec, all) && idx + |Spell(all)| <= |args| && args[idx..idx + |Spell(all)|] == Spell(all)
    ensures ParseFrom(codec, args, idx, o) == ParseFrom(codec, args, idx + |Spell(all)|, Chosen(o, all))
    decreases |all|
  {
    hide ParseFrom;
    hide With;
    hide Words;
    hide Says;
    if all != [] {
      var n, k := |Words(all[0])|, |Spell(all)|;
      assert Says(codec, all[0]);
      assert args[idx..idx + n] == args[idx..idx + k][..n] == Words(all[0]);
      OneIsRead(codec, args, idx, o, all[0]);
      assert args[idx + n..idx + k] == args[idx..idx + k][n..] == Spell(all[1..]);
      AllAreRead(codec, args, idx + n, With(o, all[0].choice), all[1..]);
    }
  }

  /** A BF.INSERT with these options, and with what follows them. */
  function InsertArgs(name: string, key: string, all: seq<Spelled>, rest: seq<string>): seq<string> {
    [name, key] + Spell(all) + rest
  }

  lemma OptionsAreRead(codec: Codec, cfg: Config, name: string, key: string, all: seq<Spelled>, rest: seq<string>)
    requires AllSay(codec, all)
    ensures var args, at := InsertArgs(name, key, all, rest), 2 + |Spell(all)|;
            && |args| == at + |rest| && args[1] == key && args[at..] == rest
            && ParseFrom(codec, args, 2, Defaults(cfg)) == ParseFrom(codec, args, at, Chosen(Configured(cfg), all))
  {
    var args := InsertArgs(name, key, all, rest);
    assert Defaults(cfg) == Configured(cfg);
    assert args[2..2 + |Spell(all)|] == Spell(all);
    AllAreRead(codec, args, 2, Configured(cfg), all);
  }

  /**
   A BF.INSERT spelled from any options, in any order and number, with any items or none: it is read as
   exactly those choices over the configuration, and as exactly those items.
   */
  lemma InsertIsReadBack(codec: Codec, cfg: Config, name: string, key: string, all: seq<Spelled>, word: string,
                         items: seq<string>)
    requires AllSay(codec, all) && (items != [] ==> codec.upper(word) == "ITEMS")
    ensures var args := InsertArgs(name, key, all, if items == [] then [] else [word] + items);
            var r := ParseInsert(codec, cfg, args);
            && args[1] == key && r.Ok? && r.value.options == Chosen(Configured(cfg), all)
            && args[r.value.itemsAt..] == items && r.value.itemsProvided == (items != [])
  {
    var rest := if items == [] then [] else [word] + items;
    var args, at := InsertArgs(name, key, all, rest), 2 + |Spell(all)|;
    OptionsAreRead(codec, cfg, name, key, all, rest);
    hide InsertArgs;
    hide Configured;
    hide Defaults;
    if items != [] {
      assert args[at] == args[at..][0] == word;
      assert args[at + 1..] == args[at..][1..] == items;
    }
  }

  /** The keyword for the items without an item after it. */
  lemma ItemsAreRequired(codec: Codec, cfg: Config, name: string, key: string, all: seq<Spelled>, word: string)
    requires AllSay(codec, all) && codec.upper(word) == "ITEMS"
    ensures ParseInsert(codec, cfg, InsertArgs(name, key, all, [word])) == Err(WrongArity)
  {
    var args, at := InsertArgs(name, key, all, [word]), 2 + |Spell(all)|;
    OptionsAreRead(codec, cfg, name, key, all, [word]);
    assert args[at] == args[at..][0] == word;
  }

  // ---------- arguments that are refused ----------

  const KEYWORDS: set<string> :=
    {"ERROR", "TIGHTENING", "CAPACITY", "SEED", "NOCREATE", "NONSCALING", "EXPANSION", "VALIDATESCALETO", "ITEMS"}

  const BARE_KEYWORDS: set<string> := {"NOCREATE", "NONSCALING", "ITEMS"}

  /** Text that should be a rate: unreadable, or not strictly between 0 and 1. */
  predicate RateFault(codec: Codec, text: string, unreadable: Error, beyond: Error, e: Error) {
    match codec.readRate(text)
    case None => e == unreadable
    case Some(d) => e == beyond && !d.InUnitInterval()
  }

  /** Text that should be a capacity: 0 has an error of its own. */
  predicate CapacityFault(text: string, e: Error) {
    match ReadI64(text)
    case None => e == BadCapacity
    case Some(n) => if n == 0 then e == CapacityLargerThanZero else n < 0 && e == BadCapacity
  }

  predicate ExpansionFault(text: string, e: Error) {
    e == BadExpansion && (ReadU32(text) == None || ReadU32(text) == Some(0))
  }

  /** What is wrong with the option that the arguments start with. */
  predicate Faulty(codec: Codec, rest: seq<string>, e: Error) {
    rest != [] &&
    var word := codec.upper(rest[0]);
    if word !in KEYWORDS then e == UnknownArgument
    else if word in BARE_KEYWORDS then false
    else if |rest| == 1 then e == WrongArity
    else if word == "ERROR" then RateFault(codec, rest[1], BadErrorRate, ErrorRateRange, e)
    else if word == "TIGHTENING" then RateFault(codec, rest[1], BadTighteningRatio, TighteningRatioRange, e)
    else if word == "SEED" then |rest[1]| != 32 && e == InvalidSeed
    else if word == "EXPANSION" then ExpansionFault(rest[1], e)
    else CapacityFault(rest[1], e)
  }

  lemma FaultyValue(codec: Codec, rest: seq<string>, o: Options, next: nat, e: Error)
    requires |rest| > 1 && Faulty(codec, rest, e) && codec.upper(rest[0]) in KEYWORDS
    ensures ReadValue(codec, codec.upper(rest[0]), rest[1], o, next) == Err(e)
  {
    hide FixedSeed;
    hide ReadI64;
    hide ReadU32;
  }

  lemma FaultIsRead(codec: Codec, args: seq<string>, idx: nat, o: Options, rest: seq<string>, e: Error)
    requires idx <= |args| && args[idx..] == rest && Faulty(codec, rest, e)
    ensures ParseFrom(codec, args, idx, o) == Err(e)
  {
    hide RateFault;
    hide CapacityFault;
    hide ExpansionFault;
    hide ReadValue;
    assert args[idx] == args[idx..][0] == rest[0] && |args| == idx + |rest|;
    if |rest| > 1 && codec.upper(rest[0]) in KEYWORDS {
      assert args[idx + 1] == args[idx..][1] == rest[1];
      FaultyValue(codec, rest, o, idx + 2, e);
    }
  }

  /** The first faulty option decides the answer, whatever comes after it. */
  lemma FaultIsAnswered(codec: Codec, cfg: Config, name: string, key: string, all: seq<Spelled>, rest: seq<string>, e: Error)
    requires AllSay(codec, all) && Faulty(codec, rest, e)
    ensures ParseInsert(codec, cfg, InsertArgs(name, key, all, rest)) == Err(e)
  {
    OptionsAreRead(codec, cfg, name, key, all, rest);
    hide InsertArgs;
    hide Faulty;
    hide Configured;
    FaultIsRead(codec, InsertArgs(name, key, all, rest), 2 + |Spell(all)|, Chosen(Configured(cfg), all), rest, e);
  }

  /** The option that the arguments start with spells a choice, or it is faulty. */
  predicate SpellsOrFaults(codec: Codec, rest: seq<string>, s: Spelled, e: Error) {
    Faulty(codec, rest, e) || (Says(codec, s) && |Words(s)| <= |rest| && rest[..|Words(s)|] == Words(s))
  }

  lemma RateOrFault(codec: Codec, rest: seq<string>) returns (s: Spelled, e: Error)
    requires |rest| > 1 && codec.upper(rest[0]) in {"ERROR", "TIGHTENING"}
    ensures SpellsOrFaults(codec, rest, s, e)
  {
    var word, rate := codec.upper(rest[0]), codec.readRate(rest[1]);
    s, e := Spelled(NoCreate, rest[0], rest[1]), if word == "ERROR" then BadErrorRate else BadTighteningRatio;
    if rate.Some? && rate.value.InUnitInterval() {
      var r: Rate := rate.value.r;
      s := s.(choice := if word == "ERROR" then ErrorRate(r) else Tightening(r));
    } else if rate.Some? {
      e := if word == "ERROR" then ErrorRateRange else TighteningRatioRange;
    }
  }

  lemma NumberOrFault(codec: Codec, rest: seq<string>) returns (s: Spelled, e: Error)
    requires |rest| > 1 && codec.upper(rest[0]) in {"CAPACITY", "VALIDATESCALETO"}
    ensures SpellsOrFaults(codec, rest, s, e)
  {
    var word, read := codec.upper(rest[0]), ReadI64(rest[1]);
    Read64InRange(rest[1]);
    hide ReadI64;
    s, e := Spelled(NoCreate, rest[0], rest[1]), if read == Some(0) then CapacityLargerThanZero else BadCapacity;
    if read.Some? && 1 <= read.value {
      s := s.(choice := if word == "CAPACITY" then StartsWith(read.value) else ScalesTo(read.value));
    }
  }

  lemma SeedOrExpansionOrFault(codec: Codec, rest: seq<string>) returns (s: Spelled, e: Error)
    requires |rest| > 1 && codec.upper(rest[0]) in {"SEED", "EXPANSION"}
    ensures SpellsOrFaults(codec, rest, s, e)
  {
    var read := ReadU32(rest[1]);
    hide ReadU32;
    s, e := Spelled(NoCreate, rest[0], rest[1]), BadExpansion;
    if codec.upper(rest[0]) == "SEED" {
      e := InvalidSeed;
      if |rest[1]| == 32 { s := s.(choice := Seeded(rest[1])); }
    } else if read.Some? && read.value >= 1 {
      s := s.(choice := Expansion(read.value));
    }
  }

  lemma SpelledOrFaulty(codec: Codec, rest: seq<string>) returns (s: Spelled, e: Error)
    requires rest != [] && codec.upper(rest[0]) != "ITEMS"
    ensures SpellsOrFaults(codec, rest, s, e)
  {
    var word := codec.upper(rest[0]);
    if word == "NOCREATE" || word == "NONSCALING" {
      s, e := Spelled(if word == "NOCREATE" then NoCreate else NonScaling, rest[0], ""), GenericError;
    } else if word !in KEYWORDS || |rest| == 1 {
      s, e := Spelled(NoCreate, "", ""), if word !in KEYWORDS then UnknownArgument else WrongArity;
    } else if word in {"ERROR", "TIGHTENING"} {
      s, e := RateOrFault(codec, rest);
    } else if word in {"CAPACITY", "VALIDATESCALETO"} {
      s, e := NumberOrFault(codec, rest);
    } else {
      s, e := SeedOrExpansionOrFault(codec, rest);
    }
  }

  lemma Read64InRange(text: string)
    ensures ReadI64(text).Some? ==> ReadI64(text).value <= I64_MAX
  {
  }

  /**
   Every list of arguments is one of those above: options that spell choices, and then nothing, the keyword
   for the items, or a faulty option.
   */
  lemma {:induction false} EveryArgumentList(codec: Codec, args: seq<string>)
    returns (all: seq<Spelled>, rest: seq<string>, e: Error)
    ensures AllSay(codec, all) && args == Spell(all) + rest
    ensures rest == [] || codec.upper(rest[0]) == "ITEMS" || Faulty(codec, rest, e)
    decreases |args|
  {
    all, rest, e := [], args, UnknownArgument;
    if args != [] && codec.upper(args[0]) != "ITEMS" {
      var s;
      s, e := SpelledOrFaulty(codec, args);
      if !Faulty(codec, args, e) {
        hide Faulty;
        hide Says;
        var more;
        var n := |Words(s)|;
        assert n >= 1;
        more, rest, e := EveryArgumentList(codec, args[n..]);
        all := [s] + more;
        assert all[1..] == more;
        assert args == args[..n] + args[n..];
      }
    }
  }

  // ---------- the arguments of BF.RESERVE ----------

  /** The arguments ask for this rate, this capacity and this expansion, the configured one if they name none. */
  predicate Asks(codec: Codec, cfg: Config, args: seq<string>, rate: Rate, n: StartCapacity, x: U32) {
    && 4 <= |args| <= 6
    && codec.readRate(args[2]) == Some(Finite(rate)) && ReadI64(args[3]) == Some(n)
    && (|args| == 4 ==> x == cfg.expansion)
    && (|args| == 5 ==> codec.upper(args[4]) == "NONSCALING" && x == 0)
    && (|args| == 6 ==> codec.upper(args[4]) == "EXPANSION" && ReadU32(args[5]) == Some(x) && x >= 1)
  }

  /** The first thing that is wrong with the arguments, and its error. */
  predicate ReserveFault(codec: Codec, args: seq<string>, e: Error) {
    if !(4 <= |args| <= 6) then e == WrongArity
    else if codec.readRate(args[2]) == None || !codec.readRate(args[2]).value.InUnitInterval() then
      RateFault(codec, args[2], BadErrorRate, ErrorRateRange, e)
    else if ReadI64(args[3]) == None || ReadI64(args[3]).value < 1 then CapacityFault(args[3], e)
    else if |args| == 6 && codec.upper(args[4]) == "EXPANSION" then ExpansionFault(args[5], e)
    else e == GenericError && |args| > 4 && !(|args| == 5 && codec.upper(args[4]) == "NONSCALING")
  }

  /** What is asked for is read, over the configuration. */
  lemma AskedIsRead(codec: Codec, cfg: Config, args: seq<string>, rate: Rate, n: StartCapacity, x: U32)
    requires Asks(codec, cfg, args, rate, n, x)
    ensures ParseReserve(codec, cfg, args) == Ok(Configured(cfg).(fpRate := rate, capacity := n, expansion := x))
  {
    hide FixedSeed;
    hide ReadI64;
    hide ReadU32;
  }

  lemma ReserveFaultIsRead(codec: Codec, cfg: Config, args: seq<string>, e: Error)
    requires ReserveFault(codec, args, e) && 4 <= |args| <= 6
    ensures ParseReserve(codec, cfg, args) == Err(e)
  {
    hide Defaults;
    hide ReadI64;
    hide ReadU32;
  }

  /** Every list of arguments asks for something, or something is wrong with it. */
  lemma AskedOrFaulty(codec: Codec, cfg: Config, args: seq<string>) returns (rate: Rate, n: StartCapacity, x: U32, e: Error)
    ensures Asks(codec, cfg, args, rate, n, x) || ReserveFault(codec, args, e)
  {
    rate, n, x, e := Half(), 1, cfg.expansion, WrongArity;
    if 4 <= |args| <= 6 {
      var r, capacity := codec.readRate(args[2]), ReadI64(args[3]);
      Read64InRange(args[3]);
      hide ReadI64;
      hide ReadU32;
      if r == None || !r.value.InUnitInterval() {
        e := if r == None then BadErrorRate else ErrorRateRange;
      } else if capacity == None || capacity.value < 1 {
        e := if capacity == Some(0) then CapacityLargerThanZero else BadCapacity;
      } else {
        rate, n := r.value.r, capacity.value;
        x, e := AskedExpansion(codec, cfg, args);
      }
    }
  }

  lemma AskedExpansion(codec: Codec, cfg: Config, args: seq<string>) returns (x: U32, e: Error)
    requires 4 <= |args| <= 6
    ensures || (|args| == 4 && x == cfg.expansion)
            || (|args| == 5 && codec.upper(args[4]) == "NONSCALING" && x == 0)
            || (|args| == 6 && codec.upper(args[4]) == "EXPANSION" && ReadU32(args[5]) == Some(x) && x >= 1)
            || (if |args| == 6 && codec.upper(args[4]) == "EXPANSION" then ExpansionFault(args[5], e)
                else e == GenericError && |args| > 4 && !(|args| == 5 && codec.upper(args[4]) == "NONSCALING"))
  {
    x, e := if |args| == 4 then cfg.expansion else 0, GenericError;
    if |args| == 6 && codec.upper(args[4]) == "EXPANSION" {
      var read := ReadU32(args[5]);
      e := BadExpansion;
      if read.Some? && read.value >= 1 { x := read.value; }
    }
  }
}

# Valkey-Bloom: a verified model of its scaling bloom filters

Valkey-Bloom adds a bloom filter type to Valkey. A `BloomObject` is a growing vector of sub-filters: each
new one is `expansion` times larger than the one before, and its error rate is tightened by
`tightening_ratio`. Several parts of the module restate this growth and have to agree:

- the object that grows (`add_item_unchecked`) and the simulation that predicts it
  (`calculate_max_scaled_capacity`), on which batch validation and BF.INFO rely;
- the primary, which logs what it created as a BF.INSERT, and the replica that reads that command back;
- `bloom_rdb_save`, which leaves out most item counts, and `load_from_rdb`, which recovers them;
- five global counters, moved by hand at every creation, add, scale-out, copy, load, defragmentation and drop.

## How the project is laid out

| file | content |
|---|---|
| Platform.dfy | machine integers and their casts, rates, errors |
| RawBloom.dfy | the external bloom crate: bits, hashing, byte form; the rate of sub-filter n |
| Vectors.dfy | how the vector of sub-filters grows, and the closed form of its capacity |
| ScalingObject.dfy | the object as a value: its operations, the plan it grows by, its invariant, whole runs |
| Simulator.dfy | the scale-out simulation as a loop, its meaning, its relation to the object |
| BatchAdd.dfy | validate, then add: the multi-item command |
| Replies.dfy | what adding answers, told by sub-filters, plan and numbers: which items are new, what is refused and why |
| AdvertisedMaximum.dfy | what the maximum capacity in BF.INFO is worth, and the memory bound |
| AfterDefrag.dfy | batches on an object whose vector was cut down, on a primary and on its replica |
| ErrorRates.dfy | the error-rate budget |
| Rdb.dfy | the RDB stream: round trip, and loading of arbitrary streams |
| Streams.dfy | the token format, and exactly which streams are loaded as what, or make the module panic |
| Lifecycle.dfy | COPY, defragmentation, and no false negatives over an object's whole life |
| Decimal.dfy, Commands.dfy | arguments as text, and what each write command does to a keyspace |
| Arguments.dfy | arguments as a client spells them: what each spelling means, how everything else is answered |
| Effects.dfy | what each write command does to a keyspace, told by its arguments and the configuration |
| Creation.dfy | what BF.RESERVE and VALIDATESCALETO promise |
| Refusals.dfy | how far adds get without asking the simulation, and what it refuses too early |
| FilterLimit.dfy | a batch that stops at the largest number of sub-filters |
| Replication.dfy | print/parse round trip, replay of single commands, convergence of whole runs |
| Snapshots.dfy | a replica that starts from a snapshot instead of the whole log |
| Divergence.dfy | which errors are logged, and what unequal nodes do |
| SmallObjects.dfy | objects that are simple enough to follow by hand, for the properties that fail |
| DoublesAsText.dfy, BloomsAsBytes.dfy | instances of what is assumed about text and bytes |
| Accounting.dfy, Conservation.dfy | the counters, and everything that can happen to a keyspace |
| Objects.dfy, Storage.dfy, Handlers.dfy | the classes and methods that update objects and counters in place, each tied to its value-level form |
| Server.dfy | a node: its keyspace of objects, its counters, every operation on them, and conservation over whole runs |

Operations exist twice on purpose. The methods on the classes `BloomObject`, `BloomFilter`, `Metrics`,
`Stream`, `Placeholder` and `Node` follow the source statement by statement; each promises that the value
afterwards is what a function of the value before says, and that the counters moved by exactly the
difference. The lemmas are about those functions. What clients see of them is stated a second time without
their names: the replies (Replies.dfy), the arguments (Arguments.dfy), the effects of commands (Effects.dfy)
and the saved form (Streams.dfy).

## Assumptions

- Rates and tightening ratios are doubles: the type `Rate` holds exactly the doubles strictly between 0
  and 1, as real numbers with at most 53 significant bits.
- `Env` holds what is not visible in this repository: the crate's hash function, bitmap size, number of
  hashes (at least one), struct size and byte form (of bitmaps whose bits are all in range), and the double that `fp_rate * tightening_ratio.powi(n)`
  rounds to. Nothing else is assumed about these, except where a lemma says so: `FaithfulBytes` (bytes of a
  bloom read back as that bloom) for COPY and RDB, which `BytesCanBeFaithful` shows to be possible, and
  `RoundedWithin` (a relative rounding error above the smallest normal double) for the error budget only.
- A new bitmap occupies exactly the bytes the crate's size function announces, as `number_of_bytes` and
  `compute_size` (src/bloom/utils.rs:732-743) rely on.
- `Codec` holds upper-casing and doubles as text; `FaithfulText` says that upper-case keywords are left
  alone and that a printed rate is read back unchanged, which `TextCanBeFaithful` shows to be possible.
  Whole numbers are printed and parsed in the model.
- Byte strings are strings with one character per byte. Struct sizes are those of a 64-bit target.

## Where the code does not do what one would expect

- BF.INFO's maximum capacity is documented as the largest size that can be reached without an error
  (src/bloom/utils.rs:544-546). The simulation counts the vector after reallocation, the scale-out before
  it, so a single BF.ADD can go past the maximum and past the memory limit; and if the error rate is not
  above the smallest normal double, the maximum is 0 and yet items can be added. `BeyondTheMaximum` gives
  the reply to every BF.ADD at the maximum, `MaximumIsNeverPassed` the exact condition for runs of BF.ADDs,
  `MaximumCanBePassed` and `MaximumOfZeroIsPassed` are instances, `MemoryBound` says how far it can go.
- After defragmentation has cut the vector down, it regrows to other capacities than the simulation
  counts with, and a validated batch can stop half-way: `BatchWithAnyVector` gives the exact condition,
  `ShrunkBatchCanBePartial` a run that ends so. The replica then adds what the primary did not:
  `PartialBatchDiverges`.
- The simulation does not count sub-filters, of which there can be no more than 2^31 - 1. A batch that goes
  beyond stops there: `BatchIsAtomic` says exactly when, `FilterLimitCutsBatch` gives a run that ends so.
  That takes at least 48 GiB of memory.
- The simulation tests the product that gives the next capacity even if no further sub-filter is needed.
  So VALIDATESCALETO 1 and BF.INFO can answer BadCapacity for an object that can be created and filled:
  `OverflowRefusesOne`. `RefusedThoughReachable` says which refused targets adds would reach.
- The comment on `replicate_and_notify_events` (src/bloom/command_handler.rs:108-110) says that items
  that triggered errors are not replicated. A creation whose batch was rejected is replicated with all
  its items, and the replica answers it with the same error: `LoggedErrors` says exactly which commands
  are logged with an error, `RejectedCreationIsLogged` shows one.
- A BF.INSERT with VALIDATESCALETO that only adds items is replicated verbatim and refused by a replica
  whose default expansion is 0: `VerbatimInsertReplays` says exactly when, `ScaleToInsertDiverges` shows it.
- Batches are validated on replicas, too, against their own memory limit: `UnequalLimits`, shown by
  `LimitsCanDisagree`.
- An object created with a rate not above the smallest normal double can be saved but not loaded:
  `RoundTripOfEveryRun`, shown by `CreatedButNotLoaded`.
- With an expansion of 1 the simulation's running total can exceed 64 bits: `TotalFits` says exactly when,
  `TotalCanOverflow` shows it.

## Model

| member | source | states |
|---|---|---|
| Platform.CastsWrapAround | src/bloom/data_type.rs:113-161 | each cast brings a number into its range, and changes it by a multiple of the width |
| Vectors.PushFollowsFormula | src/bloom/utils.rs:592-598 | one push takes the simulation's formula for the vector capacity from n to n+1 |
| Vectors.PushedCapacityClosedForm | src/bloom/utils.rs:592-598 | a vector created with one element and pushed to length n has capacity 1, or the next power of two of max(4, n) |
| RawBloom.SetItem | src/bloom/utils.rs:745-751 | setting an item makes its check true and never makes another check false |
| RawBloom.BitByBit | src/bloom/utils.rs:745-751 | checking and setting bit by bit, one bit for each hash function |
| ScalingObject.GrownTotals | src/bloom/utils.rs:179-185 | cardinality, capacity and memory of any grown object, read off its plan of growth and its last sub-filter |
| ScalingObject.CreationIsGrown | src/bloom/utils.rs:104-139 | a new object satisfies the invariant, is empty, and has been checked against the limit |
| ScalingObject.AddUncheckedKeepsGrown | src/bloom/utils.rs:351-412 | an add keeps the invariant; on an error nothing changes, otherwise it answers 1 and the cardinality rises by one |
| ScalingObject.AddUncheckedKeepsSizeChecked | src/bloom/utils.rs:384-388 | with validation, every sub-filter ever added has passed the size check |
| ScalingObject.AddUncheckedRemembers | src/bloom/utils.rs:351-412 | the added item is found and nothing found before is lost |
| ScalingObject.ShapeOfEveryRun | src/bloom/utils.rs:356-409 | after any run of adds: capacity of sub-filter i is start times expansion^i, all but the last are full, a scaled last one is not empty, one seed, cardinality counts the replies of 1 and stays within capacity |
| Vectors.PushedAfterShrink | src/wrapper/bloom_callback.rs:296-321 | a vector cut down to its n elements and pushed to again has n times the least power of two that is enough |
| ErrorRates.ErrorBudget | src/bloom/utils.rs:428-437 | with rates computed up to a relative rounding error: those of any grown object sum to less than fp_rate / (1 - tightening), give or take that error, stay above the smallest normal double, and strictly decrease unless the tightening is lost in the rounding |
| Simulator.CalculateMaxScaledCapacity | src/bloom/utils.rs:564-620 | the loop over four accumulators ends in both modes and computes what `MaxScaledCapacity` specifies |
| Simulator.SimulateToTheEnd | src/bloom/utils.rs:575-619 | mode -1 answers the total of all completed iterations, or BadCapacity if a multiplication overflowed |
| Simulator.SimulateFromMeaning | src/bloom/utils.rs:575-619 | a target is answered with the least reachable total that covers it, or with the error that stopped the run |
| Simulator.ExactThreshold | src/bloom/utils.rs:575-619 | once mode -1 answers M, targets 1 to M succeed with the least sufficient total, all larger ones fail with the error that stopped mode -1 |
| Simulator.TotalFits | src/bloom/utils.rs:606-616 | the running total of a completed iteration fits in 64 bits if and only if the expansion is at least 2 or the equal sub-filters are few enough |
| SmallObjects.TotalCanOverflow | src/bloom/utils.rs:609 | a simulation whose total exceeds 64 bits after two accepted iterations |
| Simulator.SimulatedSizeIsMemoryUsage | src/bloom/utils.rs:588-600 | the size computed for index n-1 is the memory of the real object with n sub-filters |
| Simulator.SimulatedStepWithAnyVector | src/bloom/utils.rs:370-388 | with a vector of any capacity, a step the simulation accepts can be refused only for the count of sub-filters or, with validation, the size with the real vector |
| Simulator.SimulatedStepSucceeds | src/bloom/utils.rs:375-401 | if the vector was never shrunk, the step passes the rate, multiplication and size checks of the real scale-out, with or without validation, and the memory is the simulated size |
| BatchAdd.ValidationMeansRoom | src/bloom/utils.rs:313-338 | accepted validation means the sub-filters at hand or simulated ones hold the whole batch |
| BatchAdd.OneMoreAdvances | src/bloom/utils.rs:351-412 | while there is room, the next add succeeds exactly if there is capacity left or the next sub-filter fits, and otherwise changes nothing |
| BatchAdd.BatchWithAnyVector | src/bloom/command_handler.rs:53-79 | a batch that validation accepted goes through if and only if every sub-filter its new items reach fits with the vector as it will be; otherwise it stops at the first that does not, with the items before it added |
| BatchAdd.BatchWithoutValidation | src/bloom/command_handler.rs:63 | without shrinking, size validation makes no difference to a batch |
| BatchAdd.BatchIsAtomic | src/bloom/command_handler.rs:31-80 | a batch is refused by validation with nothing changed, or stops at the largest number of sub-filters, exactly when its target is beyond what they hold; otherwise it answers 1 exactly at first occurrences of absent items, cardinality rises by their number, all items are found |
| Replies.SingleIsAnswered | src/bloom/utils.rs:342-412 | the answer to one item and the object after it: 0 if some sub-filter finds it, 1 if a place is left, otherwise the error of the first check that fails, or 1 |
| Replies.BatchReply | src/bloom/command_handler.rs:41-80 | a batch that goes through answers 1 exactly at first occurrences of items that no sub-filter finds and 0 elsewhere; the cardinality rises by the number of different such items |
| Replies.NonScalingVerdict | src/bloom/utils.rs:317-323 | a non-scaling object accepts exactly as many new items as it has places left |
| Replies.NonScalingBatch | src/bloom/command_handler.rs:53-79 | a batch on a non-scaling object goes through if and only if its different absent items number at most the places left, and changes nothing otherwise |
| Replies.VerdictOnTarget | src/bloom/utils.rs:575-619 | a target is accepted if and only if the sub-filters before the first one the simulation objects to hold it; otherwise the error says which objection came first |
| Replies.ScalingVerdict | src/bloom/utils.rs:324-338 | the same for the batch of a scaling object |
| Replies.BatchIsAnswered | src/bloom/command_handler.rs:31-80 | the answer to any batch on any grown object: refused with the error of validation and nothing changed, or carried through exactly if every sub-filter it reaches fits, or cut short with one of two errors |
| AdvertisedMaximum.ValidationThreshold | src/bloom/utils.rs:313-338 | validation accepts a batch exactly if it fits the capacity at hand or stays within the advertised maximum |
| AdvertisedMaximum.MaximumIsAttainable | src/bloom/command_handler.rs:771-785 | if mode -1 answers M, the object can be created (unless M is 0) and the first k of any M adds succeed if and only if k is within what the largest number of sub-filters holds; the cardinality is then k, one more validates exactly while k < M, and the maximum is still M |
| AdvertisedMaximum.BeyondTheMaximum | src/bloom/utils.rs:342-388 | the reply to any BF.ADD at the maximum, exactly: 0 for an item that is found, 1 if the maximum is 0 or only the reallocated vector does not fit, otherwise which error |
| AdvertisedMaximum.MaximumIsNeverPassed | src/bloom/utils.rs:544-548 | if the simulation stopped after the first sub-filter and for another reason than the reallocated vector, no run of validated adds on a created object passes the maximum M; a run of M + 1 BF.ADDs of items that are new at their turn passes it if and only if that is not so |
| AdvertisedMaximum.MaximumCanBePassed | src/bloom/utils.rs:202-205 | a created object whose second BF.ADD of a new item goes past the maximum and past the limit |
| AdvertisedMaximum.MaximumOfZeroIsPassed | src/bloom/utils.rs:582-587 | a created object with an advertised maximum of 0 that BF.ADD adds an item to |
| AdvertisedMaximum.MemoryBound | src/bloom/utils.rs:179-215 | validated growth exceeds the limit by no more than what reallocating the vector adds, and not at all with one sub-filter |
| AdvertisedMaximum.MemoryBoundOfEveryRun | src/bloom/utils.rs:385-406 | the bound for every run of validated adds |
| FilterLimit.FilterLimitCutsBatch | src/bloom/utils.rs:370-372 | creation, 2^31 - 2 BF.ADDs, and a validated batch of two that stops after its first item |
| Refusals.AddAllReaches | src/bloom/utils.rs:366-388 | adding items one by one to a new object succeeds if and only if every scale-out they need passes the count, rate, multiplication and size checks |
| Refusals.RefusedThoughReachable | src/bloom/utils.rs:575-618 | a target that the simulation refuses is reached by adds only if it was stopped by the first rate, by an overflow after the last sub-filter needed, or by the reallocated vector alone; where one more sub-filter is enough, if and only if |
| Refusals.OverflowRefusesOne | src/bloom/utils.rs:610-616 | an object that can be created and takes 2^32 items, for which a target of 1 and mode -1 both answer BadCapacity |
| AfterDefrag.PartialBatchDiverges | src/bloom/command_handler.rs:184-186 | a verbatim replay on a replica with another vector adds every item; the two objects stay the same if and only if every sub-filter the items reach fits with the primary's vector |
| AfterDefrag.ShrunkBatchCanBePartial | src/bloom/command_handler.rs:70-73 | creation, five BF.ADDs, a full defragmentation, and a validated batch of two that stops after its first item |
| Rdb.LoadSavedFilter | src/bloom/data_type.rs:104-159 | reading back one saved sub-filter gives it with its item count, exactly if loading's checks hold |
| Rdb.RoundTrip | src/wrapper/bloom_callback.rs:27-50 | loading a saved object gives it back if and only if its rate, seed and every prefix size pass |
| Rdb.RoundTripOfEveryRun | src/bloom/data_type.rs:99-167 | every object grown by validated adds under one limit is loaded back equal in every field, if its rate is above the smallest double |
| Streams.SavedFormat | src/wrapper/bloom_callback.rs:27-50 | the saved tokens one by one: five of the header, then capacity and bytes of every sub-filter, with the item count of the last one in between |
| Streams.LoadsExactly | src/bloom/data_type.rs:61-168 | a stream is loaded as a given object if and only if its version is known, its header and sub-filters stand in it token by token, and every sub-filter passes the checks on numbers, rate, size and seed |
| Streams.PanicsExactly | src/bloom/utils.rs:677-696 | loading panics if and only if bytes that are no bloom follow sub-filters that were read, where everything checked before them is in order |
| Rdb.LoadOfAnyStream | src/bloom/data_type.rs:61-168 | any stream gives nothing, a panic, or an object of the announced length whose sub-filters are sound and whose every prefix respects the limit |
| Snapshots.CreatedButNotLoaded | src/bloom/data_type.rs:113-121 | with a faithful byte form, an object that can be created and saved and that loading rejects |
| Lifecycle.CopyIsEqual | src/bloom/utils.rs:161-176 | a copy equals the original in every field |
| Lifecycle.CopyExactly | src/bloom/utils.rs:161-176 | whatever the byte form does: a copy is made if and only if the bytes of every bloom read back, and then has these blooms and is otherwise equal |
| Lifecycle.CursorAdvances | src/wrapper/bloom_callback.rs:235-289 | the cursor advances by exactly as many sub-filters as there was time for, or to the end |
| Lifecycle.DefragSlice | src/wrapper/bloom_callback.rs:235-331 | a slice that leaves sub-filters unvisited answers 1 and leaves the object alone; any other answers 0 and cuts the vector to its sub-filters |
| Lifecycle.DefragFinishes | src/wrapper/bloom_callback.rs:288-293 | a series of calls ends with 0 if and only if together they had time for all sub-filters that were left, otherwise with 1; calls with time for at least one each are at most as many as those |
| Lifecycle.StepRemembers | src/bloom/utils.rs:234-236 | adds, batches, copies, reloads and defragmentation keep the shape and everything found; acknowledged items are found |
| Lifecycle.NoFalseNegatives | src/bloom/utils.rs:342-412 | an item once answered with 0 or 1 is found in every later state |
| Decimal.ReadBack | src/bloom/command_handler.rs:552-561 | numbers in range are parsed as they were printed |
| Decimal.DigitsAreRead | src/bloom/command_handler.rs:394-402 | digits with an optional sign are read as the number they spell, exactly if it is in range |
| Decimal.OnlyDigitsAreRead | src/bloom/command_handler.rs:416-421 | nothing else is read as a number |
| Decimal.DecimalPlaces | src/bloom/command_handler.rs:122-183 | the number that digits spell: each place counts ten times the next |
| Arguments.InsertIsReadBack | src/bloom/command_handler.rs:480-626 | a BF.INSERT spelled from any options in any order, number and case, with any items or none, is read as exactly these choices over the configuration and exactly these items |
| Arguments.SilentLeavesAlone | src/bloom/command_handler.rs:488-505 | what no option speaks of stays as configured |
| Arguments.LastChoiceDecides | src/bloom/command_handler.rs:506-626 | the last option about something decides it, NOCREATE and VALIDATESCALETO included |
| Arguments.FaultIsAnswered | src/bloom/command_handler.rs:506-611 | the first faulty option decides the error: unknown, without a value, unreadable, out of range, zero, or a seed that is not 32 bytes long |
| Arguments.ItemsAreRequired | src/bloom/command_handler.rs:612-626 | the keyword for the items without an item after it is an arity error |
| Arguments.EveryArgumentList | src/bloom/command_handler.rs:506-626 | every list of arguments is options that spell choices followed by nothing, the items or a faulty option |
| Arguments.AskedIsRead | src/bloom/command_handler.rs:382-427 | a BF.RESERVE is read as the rate, capacity and expansion it asks for, over the configuration |
| Arguments.AskedOrFaulty | src/bloom/command_handler.rs:374-427 | every BF.RESERVE asks for something, or something is wrong with it |
| Effects.AddEffect | src/bloom/command_handler.rs:196-300 | BF.ADD and BF.MADD: on a key that is there, the replies of `Replies` and the command logged as it came if the cardinality rose; on a missing key, an object of the configured capacity, rates, expansion and seed is made, unless its size is over the limit, and logged as a BF.INSERT that every node reads as this creation and these items |
| Effects.AddToMissing | src/bloom/command_handler.rs:244-299 | BF.ADD on a missing key answers 1, and the object holds the item alone |
| Effects.BatchToMissing | src/bloom/command_handler.rs:244-299 | BF.MADD on a missing key: every different item is answered 1 once and counted once, as long as they fit the first sub-filter |
| Effects.AddOfFound | src/bloom/command_handler.rs:81-91 | BF.ADD of an item that is found answers 0, changes nothing and logs nothing |
| Effects.AddTwice | src/bloom/command_handler.rs:81-91 | whatever BF.ADD has answered a number for, it answers 0 for the next time |
| Effects.InsertEffect | src/bloom/command_handler.rs:480-730 | BF.INSERT spelled from any options and items: refused by VALIDATESCALETO with the error of the first objection, refused by NOCREATE, or the effect of adding, with a new object made as the options over the configuration say |
| Effects.PlainInsertEffect | src/bloom/command_handler.rs:488-505 | BF.INSERT without options creates what the configuration says |
| Effects.NoCreateCreatesNothing | src/bloom/command_handler.rs:577-579 | with NOCREATE anywhere among the options and the key missing nothing is created or logged, whatever follows; well-formed arguments without VALIDATESCALETO are answered that the key was not found |
| Effects.FaultyInsert | src/bloom/command_handler.rs:506-626 | refused arguments do nothing but answer with their error |
| Effects.ReserveEffect | src/bloom/command_handler.rs:428-476 | BF.RESERVE in each of its three forms: the empty object asked for, over the configuration, or refused because the key is taken or the size over the limit |
| Effects.FaultyReserve | src/bloom/command_handler.rs:374-427 | refused arguments do nothing but answer with their error |
| Creation.ReserveAsAsked | src/bloom/command_handler.rs:373-477 | BF.RESERVE creates an empty object with exactly the asked rate, capacity and expansion, or changes nothing |
| Creation.ScaleToIsKept | src/bloom/command_handler.rs:627-651 | an accepted VALIDATESCALETO s means the object can be created and takes any s new items without an error, one by one or in commands |
| Replication.PrintThenParse | src/bloom/command_handler.rs:122-183 | the printed creation command is parsed into exactly the printed properties and items under any defaults, for any seed and item bytes |
| Replication.ReadItems | src/bloom/command_handler.rs:612-616 | what follows ITEMS is taken as it is, and no items print as no keyword |
| Replication.ParsingAgrees | src/bloom/command_handler.rs:506-626 | a node's defaults decide neither whether arguments are accepted nor where the items start |
| Replication.CreationReplays | src/bloom/command_handler.rs:570-575 | a created object is recreated equal if and only if its seed is marked random just when it is not the fixed one |
| Replication.AddsReplay | src/bloom/command_handler.rs:187-188 | without an addition nothing changed; with one, replaying without validation gives the same object and reply, which is an error only at the limit of sub-filters |
| Replication.LoggedCreationReplays | src/bloom/command_handler.rs:683-728 | replaying the logged creation gives the primary's object, including when its batch was rejected |
| Replication.VerbatimInsertReplays | src/bloom/command_handler.rs:627-651 | a verbatim BF.INSERT replays to the same object if and only if the replica does not refuse its VALIDATESCALETO |
| Replication.StepReplays | src/bloom/command_handler.rs:115-193 | one command and the replay of its log entry leave both nodes equal, and answer with an error both or neither |
| Replication.ReplicaConverges | src/bloom/command_handler.rs:115-193 | for every run of write commands under any configurations, replaying the log gives equal objects in every field |
| Snapshots.SnapshotRoundTrip | src/wrapper/bloom_callback.rs:27-64 | a keyspace grown under one limit is saved and loaded back as it was, if and only if every rate is above the smallest double |
| Snapshots.SnapshotConverges | src/bloom/data_type.rs:99-167 | a snapshot taken anywhere in a run under one memory limit loads if and only if every rate is above the smallest double; a replica that starts from it and replays the rest of the log ends with equal objects in every field |
| Divergence.LoggedErrors | src/bloom/command_handler.rs:104-112 | a command is logged although it was answered with an error, exactly if it creates an object and brings more different items than that can take, or crosses the limit of sub-filters |
| Divergence.RejectedCreationIsLogged | src/bloom/command_handler.rs:706-724 | a BF.INSERT with NONSCALING, CAPACITY 1 and two items is logged, and fails on both nodes |
| Divergence.UnequalLimits | src/bloom/utils.rs:308-338 | a batch and its replay under another memory limit come out the same if and only if both limits lead to the same verdict of validation |
| Divergence.LimitsCanDisagree | src/bloom/utils.rs:322-338 | a batch on an object that BF.ADD has made, accepted under 200 bytes and refused under 110 |
| Divergence.ScaleToInsertDiverges | src/bloom/command_handler.rs:631-636 | a BF.INSERT with VALIDATESCALETO that a primary executes and logs, and a replica refuses |
| Accounting.TotalAddsUp | src/bloom/utils.rs:440-455 | what one more object adds to each of the five counters, in plain numbers |
| Conservation.OneKeyIsTouched | src/bloom/command_handler.rs:196-300 | every operation leaves all objects but one alone |
| Conservation.RunSurvives | src/bloom/utils.rs:677-696 | with a faithful byte form the module survives every run that restores nothing but blooms |
| Conservation.DropNeverUnderflows | src/bloom/utils.rs:754-774 | while an object is dropped piece by piece no counter goes below zero |
| Objects.BloomObject.Cardinality | src/bloom/utils.rs:239-245 | the loop returns the specified sum |
| Objects.BloomObject.Capacity | src/bloom/utils.rs:248-255 | the loop returns the specified sum |
| Objects.BloomObject.MemoryUsage | src/bloom/utils.rs:179-190 | the loop returns the specified size |
| Objects.BloomObject.ItemExists | src/bloom/utils.rs:234-236 | found exactly if the check of some sub-filter is true |
| Objects.BloomObject.ValidateAddItems | src/bloom/utils.rs:313-338 | the decision and error of the specification |
| Objects.BloomObject.AddItemUnchecked | src/bloom/utils.rs:351-412 | in place: the specified object and reply, counters moved by the difference |
| Objects.BloomObject.AddItem | src/bloom/utils.rs:342-347 | in place: looked up first, then added |
| Objects.BloomObject.Drop | src/bloom/utils.rs:754-774 | takes everything the object was counted with off the counters, and no counter of a counted object goes below zero on the way |
| Objects.BloomObject.Defrag | src/wrapper/bloom_callback.rs:214-331 | for any time budget and any moves: same sub-filters and contents, placeholder restored, cursor, reply and final vector as specified, memory counter down by exactly the freed boxes and not below zero; 1 and the object as it was while sub-filters are left, 0 and a vector of its sub-filters when none are |
| Objects.CreateReserved | src/bloom/utils.rs:104-139 | a new, counted object, or the error with the counters unchanged |
| Storage.SaveToRdb | src/wrapper/bloom_callback.rs:27-50 | appends exactly the specified tokens |
| Storage.LoadObject | src/bloom/data_type.rs:61-168 | the specified outcome; a load that gives up leaves the counters as they were, and takes none below zero on the way; a sub-filter refused for its seed is counted and dropped again |
| Storage.CopyObject | src/bloom/utils.rs:161-176 | a new, counted object with the specified value |
| Handlers.FlagNewItems | src/bloom/command_handler.rs:41-52 | flags exactly the first occurrences of items that no sub-filter finds, and counts the different ones |
| Handlers.HandleBloomAdd | src/bloom/command_handler.rs:21-92 | both branches in place: the specified object, reply and success flag, counters moved by the difference |
| Handlers.ReadInsertArgs | src/bloom/command_handler.rs:480-626 | the option loop computes the specified parse |
| Handlers.WriteCreation | src/bloom/command_handler.rs:122-183 | the pushed arguments are the specified creation command |
| Server.Node.BloomFilterAddValue | src/bloom/command_handler.rs:196-300 | BF.ADD and BF.MADD on a node: keyspace, reply and log entry of the specification, all other objects untouched, counters equal to the live objects |
| Server.Node.BloomFilterReserve | src/bloom/command_handler.rs:373-477 | BF.RESERVE likewise |
| Server.Node.BloomFilterInsert | src/bloom/command_handler.rs:480-730 | BF.INSERT likewise, with the VALIDATESCALETO and NOCREATE checks |
| Server.Node.DeleteKey | src/wrapper/bloom_callback.rs:104-106 | freeing an object takes it off the counters, none of which goes below zero |
| Server.Node.CopyKey | src/wrapper/bloom_callback.rs:117-126 | COPY to a free key puts an object there that is equal to the source's in every field, and counts it |
| Server.Node.RestoreKey | src/wrapper/bloom_callback.rs:53-64 | a load puts the loaded object under a free key, changes nothing if it is rejected or the key is taken, or is not survived |
| Server.Node.DefragKey | src/wrapper/bloom_callback.rs:214-331 | a slice of defragmentation on a node: contents kept; the cursor moves by the slices there was time for, the reply is 1 while sub-filters are left and 0 when none are, and then the vector is cut |
| Server.Node.PerformAll | src/bloom/utils.rs:440-455 | a run of operations is survived exactly if it has no panic; then the keyspace is the specified one, the five counters equal what the live objects add up to, none is negative, and none was below zero after any decrement |
| Server.CountersAreConserved | src/metrics.rs:6-11 | the same from an empty node with all counters at zero |

## Left out

- Simulator.CalculateMaxScaledCapacity: the running total is an unbounded number, as are the sums that `capacity` and `cardinality` return; `TotalFits` says exactly when the machine's total is the same.
- Rdb.LoadOfAnyStream: states that capacities and counts are positive only for streams without numbers beyond the signed 64-bit range, which the casts read as negative; otherwise it speaks of the unsigned numbers.
- Replication.ReplicaConverges: assumes equal memory limits, that a drawn seed is not the fixed one, no VALIDATESCALETO that the replica alone refuses, and no defragmentation. `UnequalLimits`, `CreationReplays`, `VerbatimInsertReplays` and `PartialBatchDiverges` say what a single command does otherwise.
- Server.Node.RestoreKey: covers streams without numbers beyond the signed 64-bit range; what has been loaded before a panic is not followed any further.
- Server.Node.PerformAll: covers restores as `RestoreKey` does.
- Server.CountersAreConserved: covers restores as `RestoreKey` does.
- Sizes in bytes are unbounded numbers; a wrap-around of 64-bit sums in `compute_size` is not modelled.
- Keys of other types than bloom objects (WrongType) do not occur, and COPY and RESTORE onto an existing key are refused before they reach the module.
- BF.LOAD, `encode_object` and `decode_object` (bincode is not part of this model).
- BF.EXISTS, BF.MEXISTS, BF.CARD and the rest of BF.INFO, which only read what is modelled.
- Keyspace notifications, logging, ACLs, and the locks and atomic orderings around configuration and counters.
- The allocator calls of defragmentation and its hit and miss counters; a moved sub-filter is a new object with the same contents.

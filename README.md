# screeps-legacy core, modelled in Dafny

This project models the core of a Screeps bot. It runs once per game tick and
decides what the colony's transporters, labs, towers and links do. The
models cover:

- The logistics request network: the registry of input and output requests,
  the amount each target can give or take, transporter availability and
  predicted carry, buffer detours, rates and their memo, and the preference
  lists handed to the stable matcher.
- The position codecs and grid helpers of the utilities file: `room@XxY`
  strings, `x + 50·y` packing, the direction-compressed position path, the
  Van der Corput sequence, map-area iteration, best-option selection, the
  single-room cost matrix and the reaction recipe table.
- The kernel's scheduling arithmetic: interval, throttle and bucket gating,
  per-process CPU statistics, the emergency brake and the logger memo.
- The tick-stamped cache, the rolling ×10 statistics history, and the
  key/value store packed into two banks of raw memory segments.
- The link network's energy accounting and the room's link classification.
- The military situation grid, target priorities and the tower target.
- Tower falloff, creep body cost, walkability and the bay-extension memo.
- The enemy-strength classifier and the rampart check.
- The room-level A* search.
- The lab reaction chooser.
- The settings store and the per-operation statistics ledger.

One Dafny module per source file. Game objects and memory records that the
source changes in place are classes with `modifies` clauses. Values that
the source only reads are datatypes. Engine reads (`Game.time`,
`Game.cpu`, the bucket, `RawMemory`, room finds, ranges, exits, intel) are
parameters. Loops that update variables step by step are `while` loops
with invariants, proved against a function that states what the loop
computes. Two loops that only compute a value are the recursive functions
that state them: the `for...of` of `getBestOption` is `Utilities.BestOption`,
and the nested `_.each` of `getReactionRecipes` is `Utilities.Recipes`. The
properties of the source are proved about those functions as lemmas.

Modules (files):

| module | file | source |
|---|---|---|
| `Common` | common.dfy | ordered JS objects (`Dict`), truthiness, decimal numerals, `Clamp`, `Ceil` |
| `Logistics` | logistics_network.dfy | src/logistics/LogisticsNetwork.ts |
| `Positions` | positions.dfy | src/utils/utilities.ts (position codecs) |
| `EvenSequence` | even_sequence.dfy | src/utils/utilities.ts (`generateEvenSequence`) |
| `Utilities` | utilities.dfy | src/utils/utilities.ts (the rest of the core) |
| `Hivemind` | hivemind.dfy | src/hivemind.ts |
| `Cache` | cache.dfy | src/cache.ts |
| `Stats` | stats.dfy | src/stats.ts |
| `SegmentedMemory` | segmented_memory.dfy | src/segmented-memory.ts |
| `Links` | link_network.dfy | src/link-network.ts |
| `RoomStructures` | room_structures.dfy | src/prototypes/room.structures.ts |
| `Military` | military.dfy | src/manager/military.ts |
| `Structures` | structure.dfy | src/prototypes/structure.ts |
| `RoomDefense` | room_defense.dfy | src/room-defense.ts |
| `RoomPathfinding` | room_pathfinding.dfy | src/prototypes/room.pathfinding.ts |
| `Reactions` | reactions.dfy | src/process/rooms/process.rooms.owned.labs.reactions.ts |
| `SettingsManager` | settings_manager.dfy | src/settings-manager.ts |
| `Operation` | operation.dfy | src/operation/operation.ts, src/operation/room.ts |

## Model

| member | source | states |
|---|---|---|
| Cache.Refreshed | src/cache.ts:58-68 | The bins after `inObject`: the key is present and is the only key added. A missing or expired bin is replaced by the generator's data, stamped with `maxAge` and the current tick; the generator is given the previous bin. A live bin leaves the whole map unchanged. Every other bin is kept. |
| Cache.SameTickHit | src/cache.ts:60-70 | With `maxAge ≥ 0`, a second `inObject` for the same key in the same tick returns the same bins, so a different generator is not used. |
| Cache.InObject | src/cache.ts:52-71 | `inObject` creates `_cache` when missing, leaves it equal to `Refreshed`, and returns the bin's data. When the bin was live, that data is the stored data. |
| Cache.Collected | src/cache.ts:80-88 | A key survives garbage collection iff it was present and `time − created < 2·maxAge`; survivors keep their bins. |
| Cache.CollectIdempotent | src/cache.ts:80-88 | Collecting twice in the same tick removes nothing more. |
| Cache.CollectGarbage | src/cache.ts:80-88 | `collectGarbage` on the given holder, or on the heap cache when none is given, leaves exactly the `Collected` bins. A holder without `_cache` is unchanged. |
| Cache.RemoveEntry | src/cache.ts:99-104 | `removeEntry` deletes only the given key, on the heap cache when no holder is given, and does nothing without `_cache`. |
| Common.DecimalRoundTrip | src/logistics/LogisticsNetwork.ts:147-149 | Reading back the decimal string of a request index gives the index. |
| Common.NatToStringInjective | src/logistics/LogisticsNetwork.ts:147-149 | Different request indices get different id strings. |
| Hivemind.Effects | src/hivemind.ts:55-72 | The `priorityEffects` table has entries exactly for the four priorities. Each entry has `0 ≤ stopAt ≤ throttleAt`, and ALWAYS has both at 0. |
| Hivemind.ThrottleMultiplier | src/hivemind.ts:371-389 | The multiplier is 99999 when `bucket ≤ stopAt`. Above that, and with CPU used below the tick limit, it is at least 1. With a full-enough bucket and CPU used at most half the limit, it is `max(cpuUsage, 1)`. |
| Hivemind.IntervalPassed | src/hivemind.ts:348-358 | `hasIntervalPassed(0, s)` is true iff the tick differs from `s`. For any other interval it is false while `time − start < interval`. |
| Hivemind.UnthrottledInterval | src/hivemind.ts:348-389 | With no throttling in force (bucket above both levels, CPU used at most half the limit, average usage at most 1), a positive interval has passed iff `time − start ≥ interval`. |
| Hivemind.Bound | src/hivemind.ts:320-321 | An option resolved as `options.x` or else `table.x` (JS `or`): an explicit truthy value wins; 0 or a missing value falls through to the table. |
| Hivemind.StopLevel | src/hivemind.ts:319-320 | The effective `stopAt`: a truthy explicit value wins. Otherwise it is the table entry of the priority (`options.priority` or DEFAULT), which is never negative. |
| Hivemind.ThrottleLevel | src/hivemind.ts:319-321 | The effective `throttleAt`: a truthy explicit value wins, otherwise the priority's table entry. |
| Hivemind.Decide | src/hivemind.ts:323-330 | The branches once the options are resolved. It runs only above the stop level. Above it, interval 0 or priority ALWAYS always runs. Any other run needs the interval to have elapsed since the last run. |
| Hivemind.AllowedToRunAsWritten | src/hivemind.ts:316-331 | `isProcessAllowedToRun` as written, where the JS `or` default reads an interval of 0 as 1. It errs exactly when the effective stop or throttle level cannot be resolved. At or below the effective stop level (explicit, else the priority table's) it is false. Above it, priority ALWAYS runs. Otherwise the result is `hasIntervalPassed` at the effective levels. |
| Hivemind.IntervalZeroRefused | src/hivemind.ts:318-327 | As written, a process asking for interval 0 whose last run is the current tick is refused. |
| Hivemind.AllowedToRun | src/hivemind.ts:316-331 | The corrected reading, which keeps an explicit interval of 0. It errs exactly when a level cannot be resolved, which is when the priority has no table entry and a level is not given explicitly. At or below the effective stop level it is false. Above it, interval 0 or priority ALWAYS runs. Otherwise the result is `hasIntervalPassed` at the effective levels, so it is false while a positive interval has not elapsed. |
| Hivemind.IntervalZeroRuns | src/hivemind.ts:326-327 | With the interval kept, the process of `IntervalZeroRefused` runs. |
| Hivemind.AllowedToRunAgrees | src/hivemind.ts:316-331 | The two readings agree on every input except an explicit interval of 0. |
| Hivemind.AverageCpu | src/hivemind.ts:275 | The CPU moving average: the first sample is taken as is, and later ones move the average by 1% of the difference. |
| Hivemind.Kernel.constructor | src/hivemind.ts:90-135 | A kernel with fresh memory at the start of a tick: the load is this tick's bucket and CPU ratio, the parent process is "root", no brake is pulled, and there are no process statistics and no loggers. |
| Hivemind.Kernel.IsProcessAllowedToRun | src/hivemind.ts:316-331 | The kernel's decision on its own bucket and the process's last run, with the code as written (interval `options.interval or 1`). It is false at or below the effective stop level. Above it, priority ALWAYS runs. Otherwise the result is `hasIntervalPassed` at the effective levels. It agrees with the corrected reading on every interval except an explicit 0. |
| Hivemind.Kernel.InitializeProcessStats | src/hivemind.ts:292-302 | Returns the stored record when there is one and changes nothing. Otherwise it stores and returns a fresh `{lastRun: 0, cpu: 0, lastCpu: 0}` under the id. No other kernel state changes. |
| Hivemind.Kernel.PullEmergencyBrake | src/hivemind.ts:234-253 | True iff CPU used exceeds 85% of the tick limit. Only the first braking process's id is recorded. |
| Hivemind.Kernel.TimeProcess | src/hivemind.ts:265-281 | `lastRun` becomes the tick, and the parent id is saved on the stats and restored on the kernel. The CPU average is updated. `lastCpu` accumulates within a tick and restarts on a new one. |
| Hivemind.Kernel.Log | src/hivemind.ts:402-407 | A repeated (category, channel) returns the same logger and changes nothing. A new pair gets a fresh logger with that channel and category. Every existing logger is kept. |
| Links.Place | src/link-network.ts:34-44 | A link below its desired level is underfull by `level − energy > 0`, and one above it is overfull by `energy − level > 0`. At the level it is neither. |
| Links.Add | src/link-network.ts:25-49 | `addLink` appends the link and adds its energy and capacity. A numeric level adds to both `minEnergy` and `maxEnergy` and files the link as `Place` says. A missing level files it as neutral, adding its capacity to `maxEnergy` only. |
| Links.AddConsistent | src/link-network.ts:25-49 | Adding keeps the totals equal to the sums over the links, and keeps `minEnergy ≤ maxEnergy`. |
| Links.Level | src/link-network.ts:57-89 | The wrappers' levels: in-links 0, out-links capacity, in/out-links half the capacity, neutral links none. |
| Links.RolePlacement | src/link-network.ts:67-89 | With `0 ≤ energy ≤ capacity`, an in-link is never underfull and an out-link never overfull. An in/out-link is underfull iff below half its capacity. |
| Links.LinkNetwork.AddLink | src/link-network.ts:25-49 | The network's state after `addLink` is `Add` of the state before. |
| Links.LinkNetwork.AddNeutralLink | src/link-network.ts:57-59 | `addLink(link, null)`. |
| Links.LinkNetwork.AddInLink | src/link-network.ts:67-69 | `addLink(link, 0)`. |
| Links.LinkNetwork.AddOutLink | src/link-network.ts:77-79 | `addLink(link, energyCapacity)`. |
| Links.LinkNetwork.AddInOutLink | src/link-network.ts:87-89 | `addLink(link, energyCapacity / 2)`. |
| Military.With | src/manager/military.ts:40-46 | Replacing one of the four grids of the situation report leaves the other three unchanged. |
| Military.Asserted | src/manager/military.ts:226-234 | Off the 50×50 board, or for a non-positive amount, the grid is unchanged. Otherwise exactly the cell (x, y) grows by the amount. |
| Military.AssertionsCommute | src/manager/military.ts:226-234 | Two assertions give the same grid in either order. |
| Military.AssertionRead | src/manager/military.ts:226-255 | `getMilitaryAssertion` after `addMilitaryAssertion` reads the old sum plus the amount at that cell and kind, and the old sum everywhere else. |
| Military.MilitaryValueNonNegative | src/manager/military.ts:355-367 | A body whose parts all have non-negative hits has a non-negative military value. |
| Military.Creep.GetMilitaryValue | src/manager/military.ts:355-367 | The loop returns `MilitaryValue`: the sum over parts of `(0.1 + 0.9·hits/100)·bodyPartValues[type]`, with unlisted types worth 0. |
| Military.PriorityPositive | src/manager/military.ts:268-270 | A priority is assigned iff our damage exceeds their healing. For a creep with value it is then positive. |
| Military.TowerTarget | src/manager/military.ts:280-293 | A chosen index is a creep with a positive priority. |
| Military.TowerTargetIsFirstHighest | src/manager/military.ts:280-293 | There is no target iff no priority is positive. Otherwise the target's priority is positive, no other is higher, and every earlier creep's is strictly lower. |
| Military.Room.ResetSitRep | src/manager/military.ts:40-46 | The situation report is four empty grids, and every assertion then reads 0. |
| Military.Room.AddMilitaryAssertion | src/manager/military.ts:226-234 | The report after the call replaces the grid of the given kind with `Asserted`, and nothing else changes. |
| Military.Room.AssertTargetPriorities | src/manager/military.ts:260-272 | Every hostile creep whose tile has our damage above their healing gets `value·(damage − healing)`. Every other creep keeps its priority. |
| Military.Room.GetTowerTarget | src/manager/military.ts:280-293 | Returns the creep `TowerTarget` picks from the current priorities, or null when it picks none. |
| Operation.StatChange | src/operation/operation.ts:74-84 | The record after `recordStatChange`: `currentTick` is the tick. `statTicks` grows by one only on a new tick. `stats[t]` is the old value (0 when missing) plus the amount. Other stats and fields are unchanged, and only `t` is added to the keys. |
| Operation.SameTickCountsOnce | src/operation/operation.ts:75-80 | Two changes in one tick count that tick once. |
| Operation.CostThenGainCancels | src/operation/operation.ts:66-72 | A resource cost followed by an equal gain in the same tick restores the stat. |
| Operation.Created | src/operation/operation.ts:24-38 | The record the constructor leaves: type "default", `lastActive` the tick, and stats present. An existing record's room, tick counters, stats and termination flag are kept. A new record is otherwise empty. |
| Operation.Operation.constructor | src/operation/operation.ts:24-38 | Memory holds `Created` under the name, other operations are untouched, and the room is restored from memory when set. |
| Operation.Operation.Room | src/operation/room.ts:4-7 | A room operation is created like any other, then its type becomes "room". The object takes a truthy `roomName` over from memory, and every other operation's record is unchanged. |
| Operation.Operation.GetType | src/operation/operation.ts:40-42 | The stored type, or "default" when it is missing or empty. |
| Operation.Operation.SetRoom | src/operation/operation.ts:44-51 | Memory and the field both hold the room, and `getRoom()` returns it. |
| Operation.Operation.Terminate | src/operation/operation.ts:53-56 | Only `shouldTerminate` is set, to true. |
| Operation.Operation.RecordStatChange | src/operation/operation.ts:74-84 | The operation's record becomes `StatChange` of the old one. |
| Operation.Operation.AddCpuCost | src/operation/operation.ts:62-64 | Records +amount under "cpu". Every other operation's record is unchanged. |
| Operation.Operation.AddResourceCost | src/operation/operation.ts:66-68 | Records −amount under the resource type. Every other operation's record is unchanged. |
| Operation.Operation.AddResourceGain | src/operation/operation.ts:70-72 | Records +amount under the resource type. Every other operation's record is unchanged. |
| Logistics.OutputAmount | src/logistics/LogisticsNetwork.ts:247-292 | `getOutputAmount`: 'all' on a target without a store gives 0, and a dropped resource gives its amount. For well-formed targets the amount is non-negative and at most the sum of the store. |
| Logistics.InputAmount | src/logistics/LogisticsNetwork.ts:207-245 | `getInputAmount`: a store structure's free space is `storeCapacity − sum(store)`. Energy-only structures, labs, nukers and power spawns give the free space of the matching slot. Anything else gives 0, and well-formed targets never give a negative amount. |
| Logistics.OutputType | src/logistics/LogisticsNetwork.ts:169-173 | The type changes only from 'all' to energy, on a store or tombstone. It does so whenever the store holds energy only. |
| Logistics.Legs | src/logistics/LogisticsNetwork.ts:303-318 | The accumulated legs are non-negative and end at the last stop, or at the start when there are none. |
| Logistics.LegsStep | src/logistics/LogisticsNetwork.ts:305-308 | One leg adds `ceil(1.1·range)` and moves to the stop. |
| Logistics.WalkLegs | src/logistics/LogisticsNetwork.ts:303-318 | The loop over the manifest returns `Legs`. |
| Logistics.Availability | src/logistics/LogisticsNetwork.ts:296-326 | An idle transporter gives `(0, pos)`. With a known ETA the ticks are at least the ETA, and never negative otherwise. The position is the last stop walked: the manifest's last entry, or the start when nothing is walked. |
| Logistics.RequestOptions.FillDefaults | src/logistics/LogisticsNetwork.ts:130-134 | `_.defaults`: a missing type becomes energy, a missing multiplier 1, a missing rate 0. The amount is untouched. |
| Logistics.PredictedAmount | src/logistics/LogisticsNetwork.ts:413-443 | An input prediction is non-negative and, with non-negative influx, capped by the store or energy capacity. An output prediction is at most 0. A store output is floored at `−storeCapacity`, while the energy-structure output, because of `Math.min`, is at most `outflux − energyCapacity`. |
| Logistics.PredictedInputAtMostGrowth | src/logistics/LogisticsNetwork.ts:421-431 | An input prediction never exceeds `max(amount + dAmountdt·eta, 0)`. |
| Logistics.BumpFacts | src/logistics/LogisticsNetwork.ts:376-381 | Adding to one carried type clamps it into `[0, room]` and leaves every other type alone. |
| Logistics.SpreadAllFacts | src/logistics/LogisticsNetwork.ts:365-374 | Spreading over the target's store types clamps each into `[0, room]` and leaves every other type alone. |
| Logistics.PredictCarryFacts | src/logistics/LogisticsNetwork.ts:356-383 | The predicted carry: every touched type lies in `[0, capacity − sum(carry)]`, and untouched types are unchanged. |
| Logistics.Choices | src/logistics/LogisticsNetwork.ts:451-540 | `bufferChoices` is empty iff the amount is 0 or it is an input of type 'all'. Otherwise the first choice goes straight to the target, arriving at the computed time. An input moves `min(amount, carried)` and an output `min(−amount, free space)`. One detour follows per buffer, through that buffer, unless the direct route suffices. |
| Logistics.BestRate | src/logistics/LogisticsNetwork.ts:551-552 | `_.max` of the rates: none for no choices, otherwise the rate of some choice, and no choice rates higher. |
| Logistics.BeforeTotal | src/logistics/LogisticsNetwork.ts:560-570 | The sort key (descending rate, then input position) orders any two distinct entries. |
| Logistics.BeforeTransitive | src/logistics/LogisticsNetwork.ts:560-570 | The sort key is transitive. |
| Logistics.InsertPos | src/logistics/LogisticsNetwork.ts:560-570 | The insertion point comes after every entry that sorts before the new one and before the first entry that sorts after it. |
| Logistics.InsertByRate | src/logistics/LogisticsNetwork.ts:560-570 | Inserting keeps the order sorted and adds exactly the new index. |
| Logistics.InsertByRateAt | src/logistics/LogisticsNetwork.ts:560-570 | Insertion splices the new index in at `InsertPos`. |
| Logistics.InsertSorted | src/logistics/LogisticsNetwork.ts:560-570 | Splicing at `InsertPos` keeps the order sorted. |
| Logistics.SortFirst | src/logistics/LogisticsNetwork.ts:560-570 | Sorting the first n entries gives each index below n once, in sorted order. |
| Logistics.StableOrder | src/logistics/LogisticsNetwork.ts:560-570 | `_.sortBy` by negated rate: every index once, by non-increasing rate, ties in input order. A missing rate sorts last. |
| Logistics.Arrange | src/logistics/LogisticsNetwork.ts:560-570 | Arranging picks the items in the given order. |
| Logistics.ArrangeConcat | src/logistics/LogisticsNetwork.ts:560-570 | Arranging by two orders joined is joining the two arrangements. |
| Logistics.ArrangeInsert | src/logistics/LogisticsNetwork.ts:560-570 | Splicing an index into the order adds exactly that item to the arrangement. |
| Logistics.SortFirstPermutes | src/logistics/LogisticsNetwork.ts:560-570 | Sorting the first n items is a permutation of them. |
| Logistics.SortFirstStep | src/logistics/LogisticsNetwork.ts:560-570 | One more item keeps the permutation. |
| Logistics.TakeOneMore | src/logistics/LogisticsNetwork.ts:560-570 | A prefix one longer holds one more item. |
| Logistics.PermutationStep | src/logistics/LogisticsNetwork.ts:560-570 | Splicing the next index into a permutation of a prefix gives a permutation of the longer prefix. |
| Logistics.ArrangeIsPermutation | src/logistics/LogisticsNetwork.ts:560-570 | The sorted preference list is a permutation of its input. |
| Logistics.FindById | src/logistics/LogisticsNetwork.ts:691 | `_.find` by id returns a request with that id, and returns none only when no request has it. |
| Logistics.FindOwnId | src/logistics/LogisticsNetwork.ts:691 | With distinct ids, finding a request's own id returns it. |
| Logistics.IdsOf | src/logistics/LogisticsNetwork.ts:684 | The ids of the requests, in order. |
| Logistics.NamesOf | src/logistics/LogisticsNetwork.ts:688 | The names of the transporters, in order. |
| Logistics.Resolve | src/logistics/LogisticsNetwork.ts:691 | `_.mapValues` over the matching keeps its keys and resolves each id to a request with that id. |
| Logistics.RanksAllAdd | src/logistics/LogisticsNetwork.ts:683-689 | Adding one more complete ranking keeps every key's ranking complete. |
| Logistics.NameSetGrow | src/logistics/LogisticsNetwork.ts:683-685 | The names seen grow by one per transporter. |
| Logistics.IdSetGrow | src/logistics/LogisticsNetwork.ts:687-689 | The ids seen grow by one per request. |
| Logistics.IdsPermuted | src/logistics/LogisticsNetwork.ts:684 | A transporter's ranking of ids lists every request id once. |
| Logistics.NamesPermuted | src/logistics/LogisticsNetwork.ts:688 | A request's ranking of names lists every transporter name once. |
| Logistics.PlanRoutes | src/logistics/LogisticsNetwork.ts:467-539 | The route list built by the loops is `Choices`. |
| Logistics.CollectInputDetours | src/logistics/LogisticsNetwork.ts:486-495 | The input loop over the buffers builds the input detours. |
| Logistics.CollectOutputDetours | src/logistics/LogisticsNetwork.ts:511-521 | The output loop over the buffers builds the output detours. |
| Logistics.ApplyCarryPrediction | src/logistics/LogisticsNetwork.ts:356-383 | The transporter's carry map is updated in place to the predicted carry. |
| Logistics.MineralRunExtend | src/logistics/LogisticsNetwork.ts:196-205 | Appending the next mineral's request keeps the run shape: each request negates its predecessor's amount and rate. |
| Logistics.MineralStep | src/logistics/LogisticsNetwork.ts:197-203 | One more mineral held in a positive amount keeps the progress invariant. |
| Logistics.RunStep | src/logistics/LogisticsNetwork.ts:197-203 | One more mineral extends the run of requests. |
| Logistics.OptionsStep | src/logistics/LogisticsNetwork.ts:201-202 | After one more mineral, the shared options and the target index follow the last request. |
| Logistics.MineralsFoldProgress | src/logistics/LogisticsNetwork.ts:196-205 | After any run of minerals: one request per mineral, in order. The first negates the caller's amount, or the first mineral's stock when unset. Each later one flips the sign again, and the index points at the last. |
| Logistics.MineralsInFacts | src/logistics/LogisticsNetwork.ts:197-200 | The minerals visited are store keys other than energy, held in a positive amount. |
| Logistics.LogisticsNetwork.constructor | src/logistics/LogisticsNetwork.ts:92-110 | The buffers are the storage and terminal that exist. The registry, index, caches and matching memo start empty. |
| Logistics.LogisticsNetwork.Refresh | src/logistics/LogisticsNetwork.ts:112-122 | `refresh` empties the requests, the index, all three caches and the matching memo. |
| Logistics.LogisticsNetwork.IdsDistinct | src/logistics/LogisticsNetwork.ts:147-182 | Request ids are distinct. |
| Logistics.LogisticsNetwork.FindRegistered | src/logistics/LogisticsNetwork.ts:147-149 | The request with id "i" is request i. |
| Logistics.LogisticsNetwork.Register | src/logistics/LogisticsNetwork.ts:147-157 | Appends a request whose id is the old length, and points the target at it. Caches and matching memo are unchanged. |
| Logistics.LogisticsNetwork.RequestInput | src/logistics/LogisticsNetwork.ts:129-158 | Fills the defaults into the caller's options. Outside the colony room, or for 'all', nothing is registered. Otherwise an unset or 0 amount becomes `getInputAmount`, and the request is appended with id = old length and indexed. |
| Logistics.LogisticsNetwork.RequestOutput | src/logistics/LogisticsNetwork.ts:163-191 | Fills the defaults and converts 'all' as `OutputType` says. An unset or 0 amount becomes `getOutputAmount`. Amount and rate are negated in the caller's options, and that request is appended and indexed. |
| Logistics.LogisticsNetwork.RequestOutputMinerals | src/logistics/LogisticsNetwork.ts:196-205 | The registry, index and shared options end as the fold of one `requestOutput` per mineral over the same options object. |
| Logistics.LogisticsNetwork.OutputMineral | src/logistics/LogisticsNetwork.ts:200-203 | One loop step: `requestOutput` for that mineral through the shared options. |
| Logistics.LogisticsNetwork.ComputeNextAvailability | src/logistics/LogisticsNetwork.ts:296-326 | Returns `Availability` of the transporter's position and task. |
| Logistics.LogisticsNetwork.NextAvailability | src/logistics/LogisticsNetwork.ts:331-336 | Returns `Availability`, stored in the cache under the transporter's name. Nothing else changes. |
| Logistics.LogisticsNetwork.TargetingTransporters | src/logistics/LogisticsNetwork.ts:338-344 | Exactly the live transporters named in `targetedBy`, except the excluded one. |
| Logistics.LogisticsNetwork.PredictedRequestAmount | src/logistics/LogisticsNetwork.ts:403-444 | `PredictedAmount` at the arrival time, with the other targeting transporters' influx and outflux. When no availability is given, it is cached. |
| Logistics.LogisticsNetwork.FirstRequestIgnored | src/logistics/LogisticsNetwork.ts:352-353 | A task on the target of request 0 predicts the current carry, because index 0 is falsy. |
| Logistics.LogisticsNetwork.CarryPredictionServes | src/logistics/LogisticsNetwork.ts:354-383 | A task on the target of request i > 0 predicts `PredictCarry` with the negated predicted amount and the free capacity. |
| Logistics.LogisticsNetwork.ComputePredictedTransporterCarry | src/logistics/LogisticsNetwork.ts:349-388 | Returns the prediction. The transporter's own carry map is changed in place to it, except on the 'all' error, which returns `{energy: 0}`. |
| Logistics.LogisticsNetwork.PredictedTransporterCarry | src/logistics/LogisticsNetwork.ts:393-398 | A cached prediction is returned and nothing changes. Otherwise the computed one is cached and returned. |
| Logistics.LogisticsNetwork.BufferChoices | src/logistics/LogisticsNetwork.ts:451-540 | `Choices` for the predicted amount, the availability and the carry: the current carry when the task targets the request, the predicted one otherwise. |
| Logistics.LogisticsNetwork.ResourceChangeRate | src/logistics/LogisticsNetwork.ts:545-555 | A truthy cached rate is returned and nothing changes. Otherwise `BestRate` of `bufferChoices` is computed and stored for that (request, transporter) pair only, so every truthy rate in the memo is kept. |
| Logistics.LogisticsNetwork.FreshRate | src/logistics/LogisticsNetwork.ts:550-552 | The rate computed on a cache miss is `BestRate` of the choices. |
| Logistics.LogisticsNetwork.RatesOf | src/logistics/LogisticsNetwork.ts:570 | The cached rates of the requests for one transporter, in order. |
| Logistics.LogisticsNetwork.RatesAcross | src/logistics/LogisticsNetwork.ts:562 | The cached rates of one request across the transporters, in order. |
| Logistics.RatesFor | src/logistics/LogisticsNetwork.ts:570 | The rates of one transporter read from a rate memo, one per request, in request order. |
| Logistics.RatesAcrossIn | src/logistics/LogisticsNetwork.ts:562 | The rates for one request read from a rate memo, one per transporter, in order. |
| Logistics.TransportersRankedStep | src/logistics/LogisticsNetwork.ts:683-685 | Ranking one more transporter keeps the earlier rankings, since only its own rates changed. |
| Logistics.RequestsRankedStep | src/logistics/LogisticsNetwork.ts:687-689 | Ranking one more request keeps the earlier rankings, since request ids are distinct and only its own rates changed. |
| Logistics.LogisticsNetwork.TransporterPreferences | src/logistics/LogisticsNetwork.ts:568-571 | The requests stably sorted by non-increasing rate: a permutation of the requests. Only this transporter's rates in the memo change, and no truthy rate changes. |
| Logistics.LogisticsNetwork.RequestPreferences | src/logistics/LogisticsNetwork.ts:560-563 | The transporters stably sorted by non-increasing rate: a permutation of them. Only this request's rates in the memo change, and no truthy rate changes. |
| Logistics.LogisticsNetwork.AllTransporterPreferences | src/logistics/LogisticsNetwork.ts:682-685 | Every transporter ranks every request id exactly once. Each list is `TransporterRanking` under the rate memo as it stands at the end: best rate first, ties in registration order. |
| Logistics.LogisticsNetwork.AllRequestPreferences | src/logistics/LogisticsNetwork.ts:686-689 | Every request ranks every transporter name exactly once. Each list is `RequestRanking` under the final rate memo: best rate first, ties in the transporters' order. |
| Logistics.LogisticsNetwork.StableMatching | src/logistics/LogisticsNetwork.ts:681-693 | The result is the matcher's answer, ids resolved to requests, for the rate-ordered lists. The transporters rank by the memo after their pass, and the requests by the final memo. The memo only fills in, so truthy rates agree across both passes. |
| Logistics.LogisticsNetwork.Matching | src/logistics/LogisticsNetwork.ts:671-676 | Computed once per refresh: a memoised matching is returned unchanged. Otherwise a stable matching over the rate-ordered preference lists is computed and memoised. |
| Logistics.LogisticsNetwork.InvalidateCache | src/logistics/LogisticsNetwork.ts:576-580 | Deletes the transporter's availability and carry entries and exactly that pair's rate. Without a rate row for the request the source throws; this is reported as `thrown` and the rates are kept. |
| Positions.EncodePosition | src/utils/utilities.ts:465-469 | A missing position encodes to nothing, and any position encodes to a string. |
| Positions.LastIndexOf | src/utils/utilities.ts:486 | The greedy `(.*)@` of the pattern splits at the last `@`: the index found holds the character and none follows it, and there is none when the character is absent. |
| Positions.MatchAfter | src/utils/utilities.ts:486 | After the `@`, a match is digits, `x`, digits, with the room name free of line terminators (`.` does not match them). |
| Positions.MatchPosition | src/utils/utilities.ts:486 | A match of `^(.*)@(\d*)x(\d*)$` gives groups that rebuild the string exactly: room name without line terminators, then `@`, digits, `x`, digits. |
| Positions.MatchShape | src/utils/utilities.ts:486 | A string built as `room@XxY`, where X holds no `@` or `x`, matches iff the room has no line terminator and X and Y are digit strings; the groups are then exactly those parts. |
| Positions.MatchAtLast | src/utils/utilities.ts:486 | The greedy `(.*)` group ends at the last `@`, so a room part followed by `@` and a text without `@` is split there. |
| Positions.MatchAfterShape | src/utils/utilities.ts:486 | After the `@`, the first `x` separates the two digit groups, and the text matches exactly when both are digits and the room part has no line terminator. |
| Positions.MatchComplete | src/utils/utilities.ts:486 | Every string of the encoded shape matches, giving back its parts. |
| Positions.ParseDigits | src/utils/utilities.ts:489 | `parseInt` of a digit string is NaN exactly for the empty string. |
| Positions.DecodePosition | src/utils/utilities.ts:483-493 | An empty or missing input decodes to nothing. A decoded position comes from a match of the pattern and carries its room group. |
| Positions.PositionRoundTrip | src/utils/utilities.ts:465-493 | Decoding an encoded position with non-negative integer coordinates and a room name without line terminators gives the position back. |
| Positions.NegativeNotDecoded | src/utils/utilities.ts:465-493 | A negative coordinate encodes with a `-` that the digit groups reject, so it decodes to nothing. |
| Positions.Rem50 | src/utils/utilities.ts:512-518 | JavaScript `% 50`: the remainder has the dividend's sign, and equals Euclidean `% 50` for non-negative input. |
| Positions.SerializeCoords | src/utils/utilities.ts:495-501 | A number without a room name, and `[coords, roomName]` with a truthy one. |
| Positions.DeserializeCoords | src/utils/utilities.ts:503-521 | A number or pair unpacks to `(coords % 50, floor(coords / 50))`. A string gives coordinates exactly when it decodes. Any other indexable value gives `NaN` for both, and `null` or `undefined` is an error. |
| Positions.CoordsRoundTrip | src/utils/utilities.ts:495-521 | For `0 ≤ x < 50` and `y ≥ 0`, unpacking the packed coordinates gives `{x, y}` back, with or without a room name. |
| Positions.SerializePosition | src/utils/utilities.ts:523-525 | The room name is stored iff it differs from the fixed room and is not empty. |
| Positions.DeserializePosition | src/utils/utilities.ts:527-546 | A string is decoded. A number takes the fixed room and a pair its own room. Anything else gives null. |
| Positions.PositionPackRoundTrip | src/utils/utilities.ts:523-546 | Packing and unpacking against the same fixed room gives the position back, for `0 ≤ x < 50`, `y ≥ 0` and a named room. |
| Positions.Code | src/utils/utilities.ts:570-586 | Direction constants are 1 to 8. |
| Positions.DirectionOf | src/utils/utilities.ts:570-586 | The `directions` table has a direction exactly for the eight king moves, and its `xOffsets`/`yOffsets` (548-568) give the move back. |
| Positions.StepFor | src/utils/utilities.ts:599-609 | A direction is written exactly when the previous position is in the same room, both have coordinates, and they are one king move apart. The direction's offsets lead from the previous position to this one. Otherwise the full encoded position is written. |
| Positions.SerializedPath | src/utils/utilities.ts:597-610 | One entry per position. |
| Positions.SerializePositionPath | src/utils/utilities.ts:597-610 | The loop remembering `previous` writes `SerializedPath`. |
| Positions.DeserializedPath | src/utils/utilities.ts:621-632 | A decoded path has one entry per input entry. |
| Positions.FailureSticks | src/utils/utilities.ts:621-632 | Once a prefix cannot be decoded (a direction with no position before it), the whole path cannot be. |
| Positions.DeserializePositionPath | src/utils/utilities.ts:621-632 | The loop carrying `pos` decodes `DeserializedPath`. |
| Positions.StepRecovers | src/utils/utilities.ts:597-632 | A full entry decodes to its position, and a direction moves the previous position onto it. |
| Positions.RoundTripStep | src/utils/utilities.ts:597-632 | The entry written for the last position decodes to that position, after the entries of the rest of the path. |
| Positions.PathRoundTrip | src/utils/utilities.ts:597-632 | Deserializing a serialized path of encodable positions gives the path back. |
| EvenSequence.Increased | src/utils/utilities.ts:652-660 | `increase(0)` keeps the number of digits. |
| EvenSequence.DigitsOf | src/utils/utilities.ts:647-660 | The counter's state at value c: n digits, each in `0 .. base − 1`. |
| EvenSequence.DigitsSucc | src/utils/utilities.ts:652-660 | `increase(0)` on the digits of c gives the digits of c + 1. |
| EvenSequence.DigitsWrap | src/utils/utilities.ts:652-660 | The carry out of the last digit is dropped: the digits of `base^n` are all zero. |
| EvenSequence.IncreasedDigits | src/utils/utilities.ts:652-660 | `increase(0)` counts modulo `base^n`: from value c it moves to c + 1, or wraps to 0. |
| EvenSequence.DigitsValue | src/utils/utilities.ts:647-660 | The counter's digits, read lowest first, give back the value. |
| EvenSequence.DigitsInjective | src/utils/utilities.ts:647-660 | Different counter values below `base^n` have different digits. |
| EvenSequence.ZeroDigits | src/utils/utilities.ts:647-650 | The counter starts at value 0: all digits zero. |
| EvenSequence.IncreasedBaseOne | src/utils/utilities.ts:655-658 | With a base below 2 every digit carries at once, so zero digits stay zero. |
| EvenSequence.ReadingZero | src/utils/utilities.ts:662-670 | `getNumber` of zero digits is 0, which ends the loop. |
| EvenSequence.ReadingBound | src/utils/utilities.ts:662-670 | `getNumber` of valid digits lies in `0 .. base^n − 1`. |
| EvenSequence.ReadingInjective | src/utils/utilities.ts:662-670 | `getNumber` is injective on valid digit strings of one length. |
| EvenSequence.ReadingCons | src/utils/utilities.ts:662-670 | The first digit read is the most significant. |
| EvenSequence.ReversedRange | src/utils/utilities.ts:662-670 | The reversed reading of a non-zero value below `base^n` is non-zero and below `base^n`. |
| EvenSequence.ReversedInjective | src/utils/utilities.ts:662-670 | Different values have different reversed readings. |
| EvenSequence.ReversedOne | src/utils/utilities.ts:672-675 | The first reading is `base^(n−1)`, so `max` is `base^n`. |
| EvenSequence.EvenPrefixAt | src/utils/utilities.ts:672-680 | The k-th push is `base^power` for k = 0, and the reversed reading of counter value k otherwise. |
| EvenSequence.EvenSequenceEntry | src/utils/utilities.ts:645-683 | The result has `base^power` entries. Entry 0 is `base^power`, every other entry i is the reversed reading of i, and all lie in `1 .. base^power`. |
| EvenSequence.EvenSequencePermutation | src/utils/utilities.ts:634-645 | For power ≥ 1 and base ≥ 2, the result has `base^power` distinct entries in `1 .. base^power`, so it is a permutation of them, and it starts with `base^power`. |
| EvenSequence.CountingStart | src/utils/utilities.ts:672-675 | After the first `increase(0)` the loop invariant holds with `[max]` pushed. With no digits or a base below 2, the first number is 0 and the loop is skipped. |
| EvenSequence.CountingStep | src/utils/utilities.ts:676-680 | One loop iteration keeps the invariant: the pushes so far are the prefix of the sequence, and the counter is at the next value. |
| EvenSequence.Increase | src/utils/utilities.ts:652-660 | The recursive `increase(digit)` on the array leaves the digits below `digit` alone and increases the rest. |
| EvenSequence.GetNumber | src/utils/utilities.ts:662-670 | The loop returns `Reading` of the digit array. |
| EvenSequence.Advance | src/utils/utilities.ts:678-679 | `increase(0)` followed by `getNumber()`. |
| EvenSequence.GenerateEvenSequence | src/utils/utilities.ts:645-683 | The method with its digit array and while loop returns `EvenSequence`: `[base^power]` followed by the reversed readings of 1 .. `base^power − 1`, or `[0]` with no digits or a base below 2. |
| Utilities.BestOption | src/utils/utilities.ts:403-418 | An option with a negative priority is never chosen. |
| Utilities.BestIsFirstMaximal | src/utils/utilities.ts:403-418 | Nothing is returned exactly when every priority is negative. Otherwise the result is one of the options, no admissible option beats it on (priority, weight), and it strictly beats every admissible option listed before it, so ties go to the first. |
| Utilities.ColumnTiles | src/utils/utilities.ts:780-785 | The inner loop visits exactly the tiles of column x whose y lies in the range and on the map. |
| Utilities.AreaTiles | src/utils/utilities.ts:777-786 | The outer loop, up to a column, visits exactly the on-map tiles of the square left of that column. |
| Utilities.TilesInRange | src/utils/utilities.ts:776-788 | A tile is visited exactly when it is on the 50×50 map and within `range` of the centre on both axes. |
| Utilities.ColumnIncreasing | src/utils/utilities.ts:780-785 | One column is visited in increasing y. |
| Utilities.AreaIncreasing | src/utils/utilities.ts:777-786 | The tiles are visited column by column, in increasing (x, y) order, each at most once. |
| Utilities.VisitsStop | src/utils/utilities.ts:784 | A callback returning `false` ends the walk at that tile. |
| Utilities.VisitsAll | src/utils/utilities.ts:776-788 | When the callback never returns `false`, every tile is visited. |
| Utilities.VisitsStopAtFirstRefusal | src/utils/utilities.ts:784 | The visited tiles are a prefix of the area. Every tile before the last one was accepted, and a walk that stops early stops at a tile the callback refused. |
| Utilities.ColumnGrows | src/utils/utilities.ts:780-785 | A longer run of the inner loop extends the shorter one. |
| Utilities.AreaGrows | src/utils/utilities.ts:777-786 | A longer run of the outer loop extends the shorter one. |
| Utilities.VisitsAfterAccepted | src/utils/utilities.ts:776-788 | After accepted tiles the walk goes on with the rest. |
| Utilities.VisitsStopWithin | src/utils/utilities.ts:784 | A refusal inside a part of the walk means nothing after that part is visited. |
| Utilities.NextColumn | src/utils/utilities.ts:777-786 | A column that is wholly accepted extends the area visited. |
| Utilities.StopInColumn | src/utils/utilities.ts:784 | A refusal inside a column ends the whole walk there. |
| Utilities.VisitColumn | src/utils/utilities.ts:780-785 | The inner loop returns the tiles it visited in that column, and reports a stop exactly when the callback refused one of them. |
| Utilities.HandleMapArea | src/utils/utilities.ts:776-788 | The nested loops call the callback on exactly the tiles `Visits` gives for the range, which defaults to 1: the on-map tiles of the square in (x, y) order, up to and including the first refusal. |
| Utilities.GenerateSingleRoomCostMatrix | src/utils/utilities.ts:357-369 | A fresh matrix of 2500 entries. Each non-wall border tile costs 50, and every other tile keeps the input's cost. |
| Utilities.RecipesDistinct | src/utils/utilities.ts:797-811 | The recipe table holds each compound once. |
| Utilities.RecipesCoverResults | src/utils/utilities.ts:797-811 | A compound has a recipe exactly when some reaction makes it. |
| Utilities.RecipesAreFirst | src/utils/utilities.ts:802-805 | The recipe kept for a compound is the first reaction, in table order, that makes it. |
| Utilities.RecipeGenerator | src/utils/utilities.ts:798-810 | The generator ignores the previous cache entry and builds the recipe table. |
| Utilities.GetReactionRecipes | src/utils/utilities.ts:797-811 | The heap cache under "reverseReactions" is refreshed for 100000 ticks, and the result is the cached entry's data. When the entry had expired, these are the recipes freshly built from the reaction table. Otherwise they are the recipes stored before. |
| RoomDefense.BodyCountZero | src/room-defense.ts:59-67 | A body adds nothing to the attack strength exactly when it has no attack, heal or claim part. |
| RoomDefense.CreepsCountZero | src/room-defense.ts:58-69 | A group adds nothing exactly when none of its creeps has an offensive part. |
| RoomDefense.GroupsCountZero | src/room-defense.ts:57-70 | The attack strength stays 0 exactly when no hostile creep has an offensive part. |
| RoomDefense.Strength | src/room-defense.ts:72-74 | The verdict lies in 0..2. It is 0 exactly when no offensive part was counted, and 1 exactly when some were counted and boosts plus parts stay below 30. |
| RoomDefense.StrengthZeroIffUnarmed | src/room-defense.ts:53-75 | The room is rated 0 exactly when no hostile creep carries an attack, heal or claim part. |
| RoomDefense.CountPart | src/room-defense.ts:60-66 | One step of the inner loop adds that part's share to the tally. |
| RoomDefense.TallyBody | src/room-defense.ts:59-68 | The loop over a creep's body computes that body's tally. |
| RoomDefense.TallyCreeps | src/room-defense.ts:58-69 | The loop over a group's creeps computes that group's tally. |
| RoomDefense.GetEnemyStrength | src/room-defense.ts:53-75 | The nested loops compute the rating of all groups, a value in 0..2. |
| RoomDefense.IsWallIntact | src/room-defense.ts:23-43 | True without a room planner. Otherwise true exactly when every planned rampart tile holds a rampart with at least `25000·level²` hits. |
| RoomDefense.RampartsAtLeast | src/room-defense.ts:32-37 | The filtered count is 0 exactly when no structure on the tile is a rampart that strong. |
| RoomPathfinding.Select | src/prototypes/room.pathfinding.ts:71-79 | The scan always picks an entry of a non-empty open list, and the index it picks lies in the list. |
| RoomPathfinding.SelectFirstMinimum | src/prototypes/room.pathfinding.ts:74-79 | With positive scores, the scan picks the first entry with the least `range + dist`: no entry scores lower, and every earlier entry scores strictly higher. |
| RoomPathfinding.NextRoom | src/prototypes/room.pathfinding.ts:71-81 | The loop over the open list returns the scan's choice, which exists for a non-empty list. |
| RoomPathfinding.ExpandFromKeys | src/prototypes/room.pathfinding.ts:106-141 | An expansion never reopens a room. The open list keeps distinct keys, no closed room is opened, and every added room is an exit. |
| RoomPathfinding.ExpandFromRanges | src/prototypes/room.pathfinding.ts:106-141 | Every room an expansion opens costs at least the expanded room's range plus 1. The cost starts at 1 and only grows as it is multiplied by 5, 1.5 and 2. |
| RoomPathfinding.ExpandFromGood | src/prototypes/room.pathfinding.ts:106-141 | When the expanded room's path is admissible and below the length limit, every open entry's path stays admissible. An admissible path leads from the start along exits, never returns to the start, stays within 20 rooms of the target, avoids owned rooms unless danger is allowed, and respects `maxPathLength`. |
| RoomPathfinding.ExtendGood | src/prototypes/room.pathfinding.ts:125-139 | An admissible path extended by a permitted exit within 20 rooms of the target is admissible for that exit. |
| RoomPathfinding.PutGood | src/prototypes/room.pathfinding.ts:135-140 | Storing an admissible entry in the open list keeps every entry admissible. |
| RoomPathfinding.RemoveDistinct | src/prototypes/room.pathfinding.ts:84 | `delete openList[nextRoom]` keeps the keys distinct. |
| RoomPathfinding.Expand | src/prototypes/room.pathfinding.ts:106-141 | The `for` loop over the exits, with its shared cost, computes `ExpandFrom` from cost 1. |
| RoomPathfinding.CalculateRoomPath | src/prototypes/room.pathfinding.ts:48-145 | Any path returned is admissible and ends at the target room. From a named room to itself the result is the empty path. |
| RoomStructures.RoleOf | src/prototypes/room.structures.ts:53-63 | The four branches, each stated as an if-and-only-if. A link is in-out when it is the controller link and a source link, out when only the controller link, in when only a source link, and neutral otherwise. |
| RoomStructures.SourceLinkIds | src/prototypes/room.structures.ts:43-49 | The source link ids are exactly the nearby links that exist, with no more entries than there are sources. |
| RoomStructures.BuiltLinks | src/prototypes/room.structures.ts:52-64 | The network built holds every operational link, in order. |
| RoomStructures.BuiltConsistent | src/prototypes/room.structures.ts:52-64 | The network built keeps the link network's consistency invariant. |
| RoomStructures.CollectSourceLinks | src/prototypes/room.structures.ts:43-49 | The loop over the sources collects `SourceLinkIds`. |
| RoomStructures.AddAll | src/prototypes/room.structures.ts:52-64 | The loop that adds the links leaves the network in the state `Built` gives, each link filed under its role. |
| RoomStructures.Room.GenerateLinkNetwork | src/prototypes/room.structures.ts:30-65 | Without operational links nothing changes. Otherwise the room gets a fresh network holding every link, each filed by its role. |
| RoomStructures.Room.SetEvacuating | src/prototypes/room.structures.ts:103-115 | `isEvacuating` then reads the value set, and the other memory flags are unchanged. |
| RoomStructures.Room.SetClearingTerminal | src/prototypes/room.structures.ts:123-135 | `isClearingTerminal` then reads the value set, and the other memory flags are unchanged. |
| RoomStructures.Generator | src/prototypes/room.structures.ts:77-86 | The cache generator gives nothing when the controller level allows no structure of that type. Otherwise it gives the first structure found, if any. |
| RoomStructures.Room.AddStructureReference | src/prototypes/room.structures.ts:73-95 | Without a controller nothing changes. Otherwise the id is cached for 250 ticks under `name:type:id`. An id that resolves becomes `room[type]`. An id that does not resolve is recorded as nothing and its cache entry is removed. |
| SegmentedMemory.Range | src/segmented-memory.ts:98 | `_.range(lo, hi)`: the integers from lo up to but excluding hi, in order. The result is empty when hi ≤ lo. |
| SegmentedMemory.PutAllKeys | src/segmented-memory.ts:59-61 | Copying a parsed segment into the data leaves exactly the old keys plus the segment's keys. |
| SegmentedMemory.LoadRangeRequests | src/segmented-memory.ts:47-69 | The reload loop only adds to the segments it requests, at most 10 in all. Each added request lies in the range and names a segment that is neither loaded nor available. |
| SegmentedMemory.LoadRangeAsksAll | src/segmented-memory.ts:50-53 | Unless the 10 request slots are full, every missing segment of the range is requested. |
| SegmentedMemory.LoadRangeLoaded | src/segmented-memory.ts:48-66 | After the loop, a segment counts as loaded exactly when it was loaded before or is an available segment of the range. A segment whose text fails to parse also counts. |
| SegmentedMemory.LoadRangeReady | src/segmented-memory.ts:45-55 | Everything counts as loaded exactly when every segment of the range was loaded before or is available. |
| SegmentedMemory.OtherBank | src/segmented-memory.ts:88 | A new save goes to the other bank, 45 after 0 and 0 otherwise, so it never overwrites the current bank's start. |
| SegmentedMemory.SaveStart | src/segmented-memory.ts:85-93 | A new save cycle starts with no saved keys in the other bank. A running cycle resumes at its current segment with its saved keys. Either way it starts from empty text. |
| SegmentedMemory.Piece | src/segmented-memory.ts:122 | Appending `"key":part` keeps what was there. It adds the comma only after existing text, plus the key, the part and three characters. |
| SegmentedMemory.SaveFromStopped | src/segmented-memory.ts:95-124 | Once a save is interrupted, the remaining entries change nothing (`return false` ends the `_.each`). |
| SegmentedMemory.SaveFromWritesOnce | src/segmented-memory.ts:103-123 | A pass writes each key at most once: keys already saved are skipped, and the saved set grows by exactly the keys written. |
| SegmentedMemory.SaveFromWithinLength | src/segmented-memory.ts:106-120 | When every single part fits, the text kept for a segment never exceeds 100000 characters. |
| SegmentedMemory.SaveFromProgress | src/segmented-memory.ts:95-124 | The current segment only moves forward, and segments outside the ones written keep their text. A pass that becomes interrupted leaves an empty text at an unavailable segment. A finished pass began finished, and its non-empty text has an available segment. |
| SegmentedMemory.SegmentedMemory.Get | src/segmented-memory.ts:164-168 | Throws (not ready) exactly when the memory is not ready. Otherwise a value is found exactly for the keys in the data. |
| SegmentedMemory.SegmentedMemory.Has | src/segmented-memory.ts:176-180 | Throws exactly when the memory is not ready. Otherwise true exactly for the keys in the data. |
| SegmentedMemory.SegmentedMemory.Set | src/segmented-memory.ts:158-162 | Throws when not ready, with nothing changed. Otherwise `get` then returns the value and `has` is true, and no other key changes. |
| SegmentedMemory.SegmentedMemory.Delete | src/segmented-memory.ts:170-174 | Throws when not ready, with nothing changed. Otherwise the key is gone and no other key changes. |
| SegmentedMemory.SegmentedMemory.ForceSave | src/segmented-memory.ts:182-186 | Throws when not ready. Otherwise the last full save is set 100 ticks back, which makes the next `manage` save. |
| SegmentedMemory.SegmentedMemory.Absorb | src/segmented-memory.ts:59-61 | The `_.each` over a parsed segment stores its entries into the data. |
| SegmentedMemory.SegmentedMemory.ReloadData | src/segmented-memory.ts:39-83 | The loop's data, requested segments, readiness and set of loaded segments are those of `LoadRange` over the saved range. The set of loaded segments is dropped once everything is loaded. |
| SegmentedMemory.SegmentedMemory.SaveOne | src/segmented-memory.ts:96-123 | One entry of the save loop does what `SaveEntry` says. The active segments are requested only when the save is interrupted. |
| SegmentedMemory.SegmentedMemory.Complete | src/segmented-memory.ts:126-151 | The remainder is written to the current segment, and the memory records the new start, end and save time. The saved keys are cleared. |
| SegmentedMemory.SegmentedMemory.SaveData | src/segmented-memory.ts:85-152 | A new cycle starts in the other bank. When the pass over the data finishes, the last text is written and the memory records the new range and time. Otherwise the segments written so far, the saved keys and the current segment are kept for the next tick, the next segments are requested, and the memory record is left untouched. |
| SegmentedMemory.SegmentedMemory.Manage | src/segmented-memory.ts:12-37 | On first use the memory record is created with a save due, and the memory is ready with nothing loaded. When not ready, the data, the requested segments, readiness and the loaded set are those of `LoadRange` over the saved range. When a full save is older than 100 ticks, the save goes as `SaveFrom` from `SaveStart`. It either completes (the remainder is written and the record gets the new range and tick) or stops with the segments, saved keys and current segment kept and the next segments requested. Otherwise nothing changes. |
| SettingsManager.Overlay | src/settings-manager.ts:29-32 | The spread gives every default and local key. A local value wins over a default, and a default shows through otherwise. |
| SettingsManager.Read | src/settings-manager.ts:44-47 | A value comes back exactly for a known key, and it is that key's value. |
| SettingsManager.Assign | src/settings-manager.ts:57-62 | Assigning never adds a key. An unknown key or an undefined value changes nothing, and other keys keep their values. |
| SettingsManager.ReadAfterAssign | src/settings-manager.ts:44-62 | After `set`, `get` returns the new value for a known key, still nothing for an unknown key, and the old value for every other key. |
| SettingsManager.ReadOverlay | src/settings-manager.ts:27-47 | A setting reads as its local value when there is one, and as its default otherwise. |
| SettingsManager.SettingsManager.constructor | src/settings-manager.ts:27-33 | The values are the defaults overlaid by the local settings. |
| SettingsManager.SettingsManager.Get | src/settings-manager.ts:44-47 | Returns the value stored under the key, or nothing when there is none. |
| SettingsManager.SettingsManager.Set | src/settings-manager.ts:57-62 | The values become `Assign` of the old ones, so `get` returns a value set for a known key. |
| Stats.FullAboveShrinks | src/stats.ts:54-58 | The recursion into level `10·m` terminates: fewer full levels lie at or above it. |
| Stats.Saved | src/stats.ts:44-65 | The value becomes the newest at its level, which is created when missing, and lower levels are untouched. A full level moves its ten values to the previous ones and starts over with the new value. Otherwise the value is appended and nothing else changes. No level ever holds more than ten current values. |
| Stats.RolloverCarriesMean | src/stats.ts:54-58 | A rollover sends the mean of the ten values to level `10·m`, as its newest value. |
| Stats.History.SaveStatValue | src/stats.ts:44-65 | The levels of the history become `Saved` of the old ones. |
| Stats.StatsMemory.RecordStat | src/stats.ts:22-32 | The history and the key's record are created when missing, and other keys' records are untouched. The key's levels become `Saved` at level 1. |
| Stats.StatsMemory.GetStat | src/stats.ts:78-85 | A value comes back exactly when the key has a level at that interval holding values, and it is the newest of them. |
| Stats.RecordThenGet | src/stats.ts:22-85 | After `recordStat(key, v)`, `getStat(key, 1)` returns v. |
| Structures.PowerAtRange | src/prototypes/structure.ts:92-97 | Full power up to the optimal range and `1 − TOWER_FALLOFF` beyond the falloff range. In between, the power always lies in `[1 − TOWER_FALLOFF, 1]`. |
| Structures.PowerNonIncreasing | src/prototypes/structure.ts:92-97 | A tower never gets stronger with distance. |
| Structures.IsWalkable | src/prototypes/structure.ts:37-44 | Obstacles cannot be walked on. A rampart can exactly when it is ours or public, and anything else can. |
| Structures.IsOperational | src/prototypes/structure.ts:53-57 | A structure is inactive exactly when the room's list of inactive structures marks its id. |
| Structures.FirstBay | src/prototypes/structure.ts:70-75 | The loop finds the first bay holding the extension, or none when no bay holds it. |
| Structures.Extension.IsBayExtension | src/prototypes/structure.ts:65-81 | The first call looks up the first bay holding the extension and remembers it. Later calls keep the remembered bay. The answer is whether there is one, and `isBaySpawn` is the same method. |
| Structures.BodyCostAppend | src/prototypes/structure.ts:113-116 | The cost of a body is the sum of its parts' costs, and an unknown part type spoils the sum. |
| Structures.BodyCostNonNegative | src/prototypes/structure.ts:108-119 | A body of known parts with non-negative counts has a cost, and it is not negative. |
| Structures.CalculateCreepBodyCost | src/prototypes/structure.ts:108-119 | The `forEach` loop computes `BodyCost`, the sum of `BODYPART_COST` times count over the body's part types. |
| Reactions.ChooseAsWritten | src/process/rooms/process.rooms.owned.labs.reactions.ts:47-50 | Line 47 as written: a candidate replaces the best when there is none, when the best score is 0, or when it scores strictly more. Otherwise the best stays. |
| Reactions.Choose | src/process/rooms/process.rooms.owned.labs.reactions.ts:47-50 | The corrected step: the result scores at least as much as the candidate and as the previous best. It is one of the two, and the best stays unless the candidate scores strictly more. |
| Reactions.FoldAsWritten | src/process/rooms/process.rooms.owned.labs.reactions.ts:33-52 | The scan as written gives nothing exactly when it starts with nothing and has no candidates. Otherwise it ends on the start or on one of the candidates. |
| Reactions.Fold | src/process/rooms/process.rooms.owned.labs.reactions.ts:33-52 | The corrected scan gives nothing exactly when it starts with nothing and has no candidates. Otherwise its result scores at least as much as the start and as every candidate. |
| Reactions.FoldAppend | src/process/rooms/process.rooms.owned.labs.reactions.ts:35-52 | Scanning two stretches of candidates in turn equals scanning them joined, so the nested `_.each` loops form one scan. |
| Reactions.FoldAsWrittenAppend | src/process/rooms/process.rooms.owned.labs.reactions.ts:35-52 | The scan as written over two stretches in turn equals the scan over them joined, so the nested `_.each` loops form one scan. |
| Reactions.FoldPicksFirstHighest | src/process/rooms/process.rooms.owned.labs.reactions.ts:33-52 | The corrected scan chooses nothing exactly when no pair qualifies. Otherwise it chooses a qualifying pair whose score no other pair exceeds, and every earlier pair scores strictly less. |
| Reactions.AsWrittenAgrees | src/process/rooms/process.rooms.owned.labs.reactions.ts:47-50 | When no score is exactly 0, the scan as written and the corrected scan choose the same pair. |
| Reactions.AsWrittenPicksFirstHighest | src/process/rooms/process.rooms.owned.labs.reactions.ts:33-52 | When no candidate scores exactly 0, the scan as written chooses nothing exactly when there is no candidate. Otherwise it chooses a candidate that no other outscores, and every earlier one scores strictly less. |
| Reactions.ExampleCandidates | src/process/rooms/process.rooms.owned.labs.reactions.ts:35-52 | On the example totals the scan meets a pair scoring 0 first, then a pair scoring −50. |
| Reactions.ZeroScoreReplaced | src/process/rooms/process.rooms.owned.labs.reactions.ts:47 | On the example, the scan as written ends on the −50 pair because the best score 0 is falsy. The corrected scan keeps the 0 pair. |
| Reactions.ScanStep | src/process/rooms/process.rooms.owned.labs.reactions.ts:38-50 | One more partner continues the scan as written over the qualifying candidates: offering that partner (line 47's test, if it qualifies) to the scan so far gives the scan over the longer prefix. |
| Reactions.RowGrow | src/process/rooms/process.rooms.owned.labs.reactions.ts:39-43 | One more partner adds its candidate, with score `min(amount, amount2) - resultAmount`, exactly when the room holds some of the partner and at most 10000 of the product. |
| Reactions.FoldAsWrittenSnoc | src/process/rooms/process.rooms.owned.labs.reactions.ts:47-50 | A candidate at the end of the list is one more step of line 47's test on the scan so far. |
| Reactions.OfferPartner | src/process/rooms/process.rooms.owned.labs.reactions.ts:38-50 | The inner callback: a partner is skipped when the product is over 10000 or the partner is not held. Otherwise its candidate is offered by line 47's test, and the result is `Offer` of the best so far. |
| Reactions.ScanEntryStep | src/process/rooms/process.rooms.owned.labs.reactions.ts:35-52 | One more held resource continues the scan as written over that resource's row of candidates. |
| Reactions.ScanPartners | src/process/rooms/process.rooms.owned.labs.reactions.ts:38-51 | The inner loop continues the scan as written (line 47's test included) over one reagent's qualifying partners. |
| Reactions.ScanEntry | src/process/rooms/process.rooms.owned.labs.reactions.ts:35-51 | A resource held in a non-positive amount, or without reactions, adds nothing. Otherwise its partners are scanned as written. |
| Reactions.Scan | src/process/rooms/process.rooms.owned.labs.reactions.ts:33-52 | The nested loops compute the scan as written over every candidate, in the order of the totals and of the reaction table. |
| Reactions.Run | src/process/rooms/process.rooms.owned.labs.reactions.ts:22-58 | Without a resource state nothing changes. An evacuating room clears `bestReaction` and keeps its current reaction. Otherwise the current reaction becomes the pair the scan as written ends on, or nothing. |

## Left out

- Engine reads (`Game.time`, `Game.cpu`, the bucket, `Game.rooms`, `Game.getObjectById`, room finds, `lookFor`, exits, room intel, `Game.map` distances) are parameters. Engine writes (`RawMemory.setActiveSegments`, segment text) are fields of small classes. Creep and structure actions are not modelled.
- Code that is not part of this model is a function-typed constant or parameter with no body: the Gale–Shapley matcher, `Pathing.distance`, creep range, the room planner's rampart list, `bay.hasExtension`, `source.getNearbyLink`, the `CONTROLLER_STRUCTURES`, `REACTIONS` and terrain tables, and `JSON.parse`/`JSON.stringify`. A parse failure is an absent result, which is how the `try`/`catch` in `reloadData` is read.
- Floating point: amounts, rates, averages, throttle ratios and tower falloff are Dafny reals. IEEE rounding (for example `Math.ceil(10 * 1.1)` being 12 in JavaScript) is not modelled.
- Console and visual output are not modelled: `summarize`/`summarizeMatching`, `drawMilitarySituation`, `drawProcessDebug`, every `hivemind.log(...)` line, and the `totalLength` byte counter of segmented memory, which only feeds a log line. `Kernel.Log` models the logger memo, not the logger itself.
- Type guards that are not part of this model (`isStoreStructure`, `isEnergyStructure`, tombstone and resource checks) are read structurally: a target with `store` and `storeCapacity` is a store structure, and one with `energy` and `energyCapacity` is an energy structure.
- JavaScript object key order: a dictionary is an insertion-ordered list of entries. The engine's rule that integer-like keys come first in ascending order is not modelled.
- Logistics.LogisticsNetwork.TargetingTransporters: a name in `targetedBy` without a live creep makes the source read a field of `undefined` and throw. The model skips such names.
- Logistics.LogisticsNetwork.ComputePredictedTransporterCarry: for an `all` request on an empty store the source computes the fraction 0/0 (NaN). The model takes the fraction as 0.
- Logistics.StableOrder: a transporter without any buffer choice gets the rate `_.max([])`, which lodash 3 returns as `-Infinity`. It is truthy, so the source caches it, and its sort key `+Infinity` sorts last, in input order. The model writes it as an absent rate that sorts last in input order, which gives the same order. The model does not cache an absent rate and computes it again on the next call.
- RoomPathfinding.CalculateRoomPath: requires a finite set of rooms that contains the start and is closed under exits. The game world is finite, and the search's termination rests on it. The contract states what a returned path is, and the self-path. It does not state when the search gives up (an exhausted open list, or a target beyond the reachable rooms).
- Military: `assertMilitaryCreepPower` and `assertMilitaryStructurePower` (boost tables, `getRangeTo`, `isDangerous`) are not modelled. Only the `sitRep` reset of `assertMilitarySituation` is modelled, and assertions are added through `addMilitaryAssertion`.
- The utilities glue (`getPath`, `getCostMatrix`, `markBuildings`, `generateCostMatrix`, `generateObstacleList`, `throttle`, `getUsername`, `bubbleWrap`, `getClosest`, `getBodyCost`, `getBodyParts`) is not modelled. It drives the engine's pathfinder or reads `Game` and `Memory`.
- SegmentedMemory.SaveFrom: the 100000-character segment limit is measured with JavaScript `.length`, which counts UTF-16 code units. The model counts characters, so text with characters outside the Basic Multilingual Plane is measured shorter than the engine measures it.
- Hivemind.Kernel.Log: the `category = "global"` default is not modelled. Callers pass the category.
- Cache.InObject: the generator is always given. The `{}` that the source stores when no callback is passed is not modelled.
- Concurrency and time: one tick is a sequence of calls, and nothing runs between them.

## Findings

| source | as written | input that shows it | evidently intended | confidence | as-written member | corrected member |
|---|---|---|---|---|---|---|
| src/hivemind.ts:318 | `options.interval or 1` turns an explicit interval of 0 into 1, so the `interval === 0` test on line 327 can never hold | interval 0, `lastRun` equal to the current tick, bucket 10000: the process is refused | an interval of 0 means "run every tick", as line 326 and `hasIntervalPassed` say | high, not executed | Hivemind.IntervalZeroRefused | Hivemind.IntervalZeroRuns |
| src/process/rooms/process.rooms.owned.labs.reactions.ts:47 | `!mostResources` treats a best score of exactly 0 as "no best yet", so any later pair replaces it, even one with a lower score | totals A 100, B 100, C 150, where A with B makes B (score 0) and B with A makes C (score −50): the −50 pair is chosen | the test means "nothing chosen yet", so a later pair should replace the best only when it scores strictly more | high, not executed | Reactions.ZeroScoreReplaced | Reactions.FoldPicksFirstHighest |

`Hivemind.AllowedToRunAsWritten` and `Reactions.FoldAsWritten` keep the code as written, and the kernel (`Hivemind.Kernel.IsProcessAllowedToRun`) and the reaction process (`Reactions.Run`, through `Reactions.Scan`) compute that behaviour. `Hivemind.AllowedToRun` and `Reactions.Fold` are the corrected definitions, with the intended properties proved about them. `Hivemind.AllowedToRunAgrees` and `Reactions.AsWrittenAgrees` prove that the two readings differ only on those inputs.

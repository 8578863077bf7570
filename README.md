# Settlement economy engine — a verified model

This project models the economy engine of a settlement-building idle game.
It covers the `Game` class of `game.js`, and the catalog, constants and seed
state of `data.js`. The game is a deterministic state machine over a closed
set of kinds:
- four resources: population, stone, wood, food;
- five buildings: house, storage room, forester, quarry, fields;
- four jobs: unemployed, farmer, lumberjack, stonemason.

A timer calls `tick` twenty times a second. The player's commands change the
same state record in place: build, assign or unassign workers, gather by
hand.

Modules:
- `Data` (`data.dfy`): the kinds, the building catalog, the tick rate, the
  `State` record, the event-log entries and the seed state.
- `Economy` (`economy.dfy`): the engine's constants, and the read-only
  calculators as functions:
  - build cost, affordability, cost against storage;
  - job boosts and flat yields.

  It also holds the pure transition each command and the tick are proved
  against: `AfterBuild`, `AfterAssign`, `AfterUnassign`, `AfterGather`,
  `Trimmed`, `Logged`, and the tick's phases `Produced`, `Grown`,
  `Transferred`, `Settled`, `Phases` and `AfterTick`. It also defines the
  state invariant `Valid`.
- `GameEngine` (`game.dfy`): `class Game` with the whole state in one field.
  Every command and every step of the tick is a method that changes that
  field in place, with the source's loops kept as loops. Each method's
  `ensures` says the new state is the matching `Economy` transition of the
  old one.
- `CostProperties`, `JobProperties`, `TickProperties`, `Invariant`: what those
  transitions promise, as lemmas. These cover:
  - cost monotonicity and the flat-cost quirk;
  - the effects of build, assign and unassign;
  - job trimming by priority;
  - storage bounds and the shortage penalty after a tick;
  - the capped population accumulator;
  - the unreachable decline branch;
  - the assign guard refusing every request right after a tick;
  - the invariant kept by every command and by the tick;
  - the first tick of a new game.

Numbers are exact reals and unbounded integers. JavaScript records become
maps. A missing key reads as 0, as the source's `|| 0` does. `WellFormed`
says every key is present, which holds from the seed on.

## Model

| member | source | states |
|---|---|---|
| Data.InitialState | data.js:84-128 | the seed holds every resource, building and job key; each storable store is within its ceiling; every job count is 0; no job is unlocked |
| Data.CatalogShape | data.js:2-73 | only a house holds people (5 each); only a storage room raises ceilings, by 50 wood, stone and food; forester, quarry and fields unlock lumberjack, stonemason and farmer; a tick lasts 50 ms |
| Invariant.SeedValid | data.js:84-128 | the seed state satisfies the invariant `Valid`; its population capacity is 5; its four job counts sum to its population, 0; its accumulator and counter are 0 and its log is empty |
| CostProperties.CatalogPricingNonNegative | data.js:14-73 | every catalog price parameter is non-negative, and every growth percentage and flat coefficient is positive |
| Economy.UnitPrice | game.js:41-42 | the price of the next unit is at least base plus costFlat times owned, and equals the base when none is owned |
| Economy.GetBuildCost | game.js:36-46 | the cost lists wood, stone, food in that order; each price is at least its base plus the flat term; with none owned each price is its base |
| CostProperties.BuildCostMonotone | game.js:42 | owning more of a building never makes any price of its next unit lower |
| CostProperties.FoodPriceIsFlatTerm | game.js:40-44 | food has base 0, yet its price is costFlat times the count owned, so it is positive from the second unit on |
| Economy.CanAfford | game.js:48-53 | affordable exactly when every price is covered by its resource, a missing resource counting 0 |
| Economy.CostExceedsStorage | game.js:56-62 | true exactly when some non-population price is above its ceiling, a missing ceiling counting 0 |
| CostProperties.AffordableFitsStorage | game.js:48-62 | in a valid state an affordable cost never exceeds storage |
| GameEngine.Game.constructor | game.js:5-18 | a new game starts from the seed state `InitialState()`; the engine constants are `Economy`'s |
| GameEngine.Game.GetBuildCost | game.js:36-46 | the loop over wood, stone, food returns the cost `Economy.GetBuildCost` gives |
| GameEngine.Game.CanAfford | game.js:48-53 | the early-exit loop returns what `Economy.CanAfford` says |
| GameEngine.Game.CostExceedsStorage | game.js:56-62 | the early-exit loop that skips population returns what `Economy.CostExceedsStorage` says |
| GameEngine.Game.PayCost | game.js:69-71 | the payment loop leaves every other field as it was, and the resources as each price in turn subtracts them, floored at 0 |
| GameEngine.Game.Build | game.js:64-90 | returns whether the cost is affordable; a refused build changes nothing; an accepted one leaves `AfterBuild`'s state |
| CostProperties.PaidBuildCost | game.js:68-71 | paying an affordable cost subtracts exactly each price from wood, stone and food, and each price is at most what is held |
| CostProperties.BuildPaysCost | game.js:68-71 | after an accepted build each priced resource is its old amount minus its price, never below 0, and the population resource is untouched |
| CostProperties.BuildSpends | game.js:68-71 | after an accepted build each storable resource is between 0 and its old amount |
| CostProperties.BuildAddsOne | game.js:73 | only the built kind gains one unit; jobs, population, accumulator and counter are untouched |
| CostProperties.BuildRaisesCeilings | game.js:74-80 | a storage room raises each storable ceiling by 50; any other building leaves the ceilings; the population ceiling is untouched |
| CostProperties.BuildUnlocks | game.js:81-86 | the unlocked job becomes available, no other flag changes, and no job is ever locked again |
| CostProperties.BuildLogs | game.js:87 | exactly one event naming the building and its new total goes in front of the log, which stays at most 200 long |
| Invariant.BuildPreservesValid | game.js:64-90 | an accepted build keeps the invariant |
| GameEngine.Game.AssignJob | game.js:93-102 | returns `AssignAllowed`: the total of all counts, unemployed included, plus the amount is at most the population, and the job is unemployed or unlocked; a refused request changes nothing; an accepted one leaves `AfterAssign`'s state |
| JobProperties.AssignEffects | game.js:97-99 | an accepted request adds the amount to the job and keeps the other real jobs; unemployed becomes the population minus the three jobs, so the four counts sum to the population |
| Invariant.AssignPreservesValid | game.js:93-102 | an accepted assignJob keeps the invariant |
| JobProperties.AssignRefusedWhenCountsFillPopulation | game.js:94-95 | when the four counts sum to the population, every request for one or more workers is refused |
| TickProperties.AssignRefusedAfterTick | game.js:94-95 | right after any tick from a valid state, every request for one or more workers is refused |
| GameEngine.Game.UnassignJob | game.js:104-107 | the job loses the amount, floored at 0, and nothing else changes |
| JobProperties.UnassignLeavesUnemployedStale | game.js:104-107 | unemployed is not recomputed; the total falls by the workers actually removed; the counts stay non-negative |
| Invariant.UnassignPreservesValid | game.js:104-107 | unassignJob keeps the invariant |
| GameEngine.Game.ManualGather | game.js:110-113 | leaves `AfterGather`'s state: only the gathered resource changes |
| Economy.Gathered | game.js:111 | the gathered amount is at most the old amount plus the gain, and at most a non-zero ceiling; it is exactly old plus gain when the ceiling is 0 or not reached; it never falls below an amount within its ceiling |
| Invariant.GatherPreservesValid | game.js:110-113 | manualGather keeps the invariant |
| GameEngine.AddUnits | game.js:123-125 | the per-key loop, in any key order, adds count units of every per-unit key to the accumulator (`Credit`) |
| GameEngine.Game.SumOwned | game.js:118-127 | the loop over the owned kinds, in the order the buildings record lists them, ends in `Aggregate` of the per-unit values |
| Economy.AggregateSums | game.js:116-129 | the aggregate of any resource is its start value plus the sum of per-unit value times count over the kinds visited |
| Economy.KeysInContribution | game.js:118-120 | skipping kinds the record lacks, which count 0, changes no sum |
| Economy.CreditShare | game.js:123-125 | crediting one kind adds exactly its per-unit value times its count |
| Economy.ComputeJobBoosts | game.js:115-129 | the food boost is 0.05 per field, wood 0.10 per forester, stone 0.10 per quarry, population 0 |
| Economy.ComputeBuildingFlatYieldsPerSecond | game.js:131-145 | the flat food yield is 0.5 per field a second, and wood, stone and population yield 0 |
| GameEngine.Game.ComputeJobBoosts | game.js:115-129 | the method returns the boosts `Economy.ComputeJobBoosts` gives |
| GameEngine.Game.ComputeBuildingFlatYieldsPerSecond | game.js:131-145 | the method returns the yields `Economy.ComputeBuildingFlatYieldsPerSecond` gives |
| Economy.Logged | game.js:298-304 | the new entry is at index 0; the rest is the old log in order, cut so that the length is the smaller of old length plus 1 and 200 |
| GameEngine.Game.LogEvent | game.js:298-304 | only the log changes, to `Logged` of the old log |
| Economy.Trimmed | game.js:277-296 | the trim ends with the four counts summing to at most the population, and changes nothing when they already fit |
| Economy.TrimOneRemovesOne | game.js:281-294 | while the total exceeds the population, one pass removes exactly one worker |
| JobProperties.TrimmedByPriority | game.js:281-295 | the trim equals the closed form that takes the excess from lumberjacks, then stonemasons, then farmers, then unemployed |
| JobProperties.TrimProperties | game.js:277-296 | after the trim the total is the smaller of old total and population; no count rises or goes negative; a stonemason goes only with no lumberjack left, a farmer only with neither, unemployed only with all three jobs empty |
| GameEngine.Game.TrimJobsAfterPopulationLoss | game.js:277-296 | the loop terminates, and only the jobs change, to `Trimmed` of the old jobs and population |
| GameEngine.Game.JobIncomePerTick | game.js:163-186 | each storable resource's income per tick is its workers times rate times one plus its boost, plus its flat yield, over 20 |
| GameEngine.Game.TickIncomes | game.js:159-196 | upkeep and net food per second, food's change less upkeep a tick, and wood and stone income times the shortage factor read from the food held before the tick |
| GameEngine.Game.AddIncome | game.js:199-206 | food, wood and stone each gain their change, floored at 0 |
| GameEngine.Game.ClampToStorage | game.js:208-213 | wood, stone and food, in that order, are cut to their ceilings when one exists |
| GameEngine.Game.ProduceResources | game.js:154-213 | sets the population ceiling to the house capacity and leaves `Produced`'s state; returns the capacity, the upkeep and the net food the later phases use |
| GameEngine.Game.GrowAccumulator | game.js:215-231 | leaves `Grown`'s state: growth of 0.2 of the missing population a second when net food is at least 0, decline below -2 times upkeep, else nothing |
| GameEngine.Game.TransferPopulation | game.js:233-259 | leaves `Transferred`'s state: one upward or one downward move, never a loop |
| GameEngine.Game.AddWholePeople | game.js:234-245 | the upward move adds whole units up to the capacity and logs it; with no room the accumulator resets to 0 |
| GameEngine.Game.RemoveWholePeople | game.js:246-258 | the downward move removes whole units down to 0, logs it and trims the jobs; with no one to lose the accumulator resets to 0 |
| GameEngine.Game.FloorResources | game.js:268-271 | the per-key loop, in any key order, raises every negative resource to 0 and leaves the rest |
| GameEngine.Game.Settle | game.js:264-271 | unemployed becomes the population less the three jobs, floored at 0, and every resource is floored at 0 |
| GameEngine.Game.Tick | game.js:148-274 | the counter moves first and the phases run in the source's order; the outcome is `AfterTick`, proved through `PhasesIgnoreCounter` |
| TickProperties.PhasesIgnoreCounter | game.js:148-152 | no phase reads the counter: running the phases after the counter step equals running them first |
| TickProperties.IncomeClosedForm | game.js:163-186 | with the aggregators' boosts and yields, food income is farmers times 0.5 times one plus 0.05 per field, plus 0.5 per field, over 20; wood and stone likewise with 0.3 and 0.25 and 0.10 per forester or quarry |
| TickProperties.NoDecline | game.js:222-231 | food income is never negative, so net food is never below minus the upkeep and the decline branch never fires |
| TickProperties.ProducedStores | game.js:199-213 | the resource phase leaves each of food, wood and stone at its old amount plus its change, floored at 0 and cut to its ceiling |
| TickProperties.ProducedCeilings | game.js:154-157 | the population ceiling becomes the house capacity and the other ceilings stay |
| TickProperties.UpwardTransfer | game.js:234-245 | an upward move never passes the capacity or lowers the population; at the cap it resets the accumulator and logs nothing; below it, population plus accumulator is kept and the accumulator ends below 1 unless the cap is reached |
| TickProperties.DownwardTransfer | game.js:246-258 | a downward move never goes below 0, keeps population plus accumulator, trims the jobs to the new population and logs the move; with population 0 it only resets the accumulator, leaving the population, the jobs and the log |
| TickProperties.PopulationStep | game.js:215-259 | on a valid state the accumulator and transfer phases satisfy `MoveOutcome`: the population stays between its old value and the cap, and the accumulator ends in [0, 1) unless the cap is reached; a rise puts one event in front of the log, and otherwise the log is unchanged |
| TickProperties.TickWoodStone | game.js:193-213 | after a tick wood and stone are their old amount plus income times 0.7 exactly when the food held before the tick is at or below 0, floored at 0 and cut to the ceiling |
| TickProperties.TickFood | game.js:154-213 | after a tick food is its old amount plus its unpenalised income less 0.1 a second per settler, floored and cut; the ceilings stay, except the population ceiling, which becomes five per house |
| TickProperties.TickStorageBounds | game.js:208-213 | after a tick wood, stone and food each lie between 0 and their ceiling |
| TickProperties.TickPopulation | game.js:215-266 | after a tick the population and accumulator move as `PopulationOutcome` says, with net food from the catalog, and unemployed is the population less the three jobs |
| TickProperties.TickCounters | game.js:148-266 | a tick raises the counter by 1, makes the four job counts sum to the population, and keeps the buildings and unlocks |
| TickProperties.TickMeetsOutcome | game.js:148-274 | the state after a tick is in the tick relation `TickOutcome` with the state before |
| TickProperties.TickOutcomeValid | game.js:148-274 | any state in the tick relation with a valid state is valid |
| TickProperties.TickPreservesValid | game.js:148-274 | a tick keeps the invariant |
| Invariant.FirstTickFromSeed | game.js:148-274 | the first tick of a new game leaves population 0, accumulator 0.05, a population ceiling of 5, the stores at 100, an empty log and the counter at 1 |

## Left out

- `ui.js` is not part of this model: the page, the buttons and the display maths.
- Timer and listeners (`start`, `stop`, `onUpdate`, `emitUpdate`): host scheduling and callbacks into code outside the engine. Every call to `emitUpdate` is dropped.
- Timestamps: `logEvent` prefixes each line with the wall-clock time. `Event` keeps what the line says (the building and its total, or the population change), without the time.
- Floating point: the model uses exact reals, so double rounding is not captured. For example, twenty additions of 0.05 make exactly 1 here.
- Negative `amount` arguments to `assignJob`, `unassignJob` and `manualGather` are out of the model, which takes `nat`. The page only passes 1 and 5.
- Key order: the loops over `Object.keys` of a per-unit record, of the flat yields and of the resources each touch every key once. They are modelled as loops that visit keys in any order. The loop over buildings keeps the record's order.
- `Math.floor(s.population)` at game.js:262 is left out: the population is a `nat` here, so the floor changes nothing.
- A trim that reaches a record without an `unemployed` key would store `NaN` in the source (game.js:292). Here a missing count reads as 0. This cannot happen from the seed, which has every job key.
- The unused `shortageMultiplier` variable (game.js:192-193) has no effect, and has no counterpart here.
- Behaviour kept as the code has it:
  - the assign guard adds the unemployed count into the total;
  - the flat cost term is charged on every resource, food included;
  - growth depends on net food being at or above 0, not on the food held, and is never halved or boosted;
  - the transfer is one move per tick, not a loop;
  - an upward move capped by the capacity can leave the accumulator at 1 or more (`UpwardTransfer` states the weaker bound: below 1 unless the cap is reached);
  - the code has no upgrades.

/** The read-only calculators of the game engine (build cost, affordability,
    boosts and flat yields) and the pure state transitions that the engine's
    methods are proved against: one tick, the job trim after a population loss,
    and the bounded event log. */
module Economy {
  import opened Data

  // Engine constants, fixed when a game is constructed.
  const FoodPerPopPerSecond: real := 0.1
  const PopulationGrowthRatePerSecond: real := 0.2
  const PopulationDeclineRatePerSecond: real := 0.5
  /** Wood and stone income is multiplied by this while food is exhausted. */
  const ShortageMultiplier: real := 0.7
  const MaxEvents: nat := 200

  /** Base income per worker per second. */
  function JobBaseIncomePerSecond(j: Job): real
  {
    match j
    case Farmer => 0.5
    case Lumberjack => 0.3
    case Stonemason => 0.25
    case Unemployed => 0.0
  }

  /** The job whose workers produce a resource. */
  function WorkerFor(r: Resource): Job
  {
    match r
    case Food => Farmer
    case Wood => Lumberjack
    case Stone => Stonemason
    case Population => Unemployed
  }

  /** The storable resources, in the order the cost and clamp loops visit them. */
  const Storable: seq<Resource> := [Wood, Stone, Food]

  function MaxR(a: real, b: real): real { if a >= b then a else b }
  function MinR(a: real, b: real): real { if a <= b then a else b }
  function MaxI(a: int, b: int): int { if a >= b then a else b }
  function MinI(a: int, b: int): int { if a <= b then a else b }

  /** A lookup that reads a missing key as 0, as `x[k] || 0` does. */
  function Amount(m: map<Resource, real>, k: Resource): real
  {
    if k in m then m[k] else 0.0
  }

  /** How many of `b` a buildings record holds (a missing key is 0). */
  function Count(buildings: map<Building, nat>, b: Building): nat
  {
    if b in buildings then buildings[b] else 0
  }

  function Owned(s: State, b: Building): nat
  {
    Count(s.buildings, b)
  }

  function Workers(jobs: map<Job, int>, j: Job): int
  {
    if j in jobs then jobs[j] else 0
  }

  function BaseCost(d: BuildingDef, r: Resource): nat
  {
    if r in d.baseCost then d.baseCost[r] else 0
  }

  function IsUnlocked(s: State, j: Job): bool
  {
    j in s.unlockedJobs && s.unlockedJobs[j]
  }

  /** Every key of every record is present: true of the seed and kept by
      every operation, so the `|| 0` fallbacks never fire. */
  ghost predicate WellFormed(s: State)
  {
    && (forall r: Resource :: r in s.resources && r in s.resourceMax)
    && (forall b: Building :: b in s.buildings)
    && (forall j: Job :: j in s.jobsAssigned)
  }

  /** Sum of every job count, unemployed included. */
  function JobTotal(jobs: map<Job, int>): int
  {
    Workers(jobs, Unemployed) + Workers(jobs, Farmer) + Workers(jobs, Lumberjack) + Workers(jobs, Stonemason)
  }

  /** Sum of the three real jobs. */
  function Employed(jobs: map<Job, int>): int
  {
    Workers(jobs, Farmer) + Workers(jobs, Lumberjack) + Workers(jobs, Stonemason)
  }

  /** Population capacity: houses times the per-house capacity. */
  function PopCap(s: State): nat
  {
    Owned(s, House) * Def(House).popCapacityPer
  }

  /** The state invariant kept by every command and by every tick. */
  ghost predicate Valid(s: State)
  {
    && WellFormed(s)
    && (forall r: Resource :: s.resources[r] >= 0.0)
    && (forall r: Resource :: r != Population ==> 0.0 < s.resourceMax[r] && s.resources[r] <= s.resourceMax[r])
    && s.resourceMax[Population] >= 0.0
    && s.population <= PopCap(s)
    && s.popAccumulator >= 0.0
    && (forall j: Job :: s.jobsAssigned[j] >= 0)
    && Employed(s.jobsAssigned) <= s.population
    && (forall j: Job :: j != Unemployed && s.jobsAssigned[j] > 0 ==> IsUnlocked(s, j))
    && |s.events| <= MaxEvents
  }

  // ---------------------------------------------------------------------------
  // Cost calculator

  /** The price of one resource in a cost. */
  datatype Price = Price(res: Resource, amount: int)

  /** A cost lists its prices in key order (wood, stone, food). */
  type Cost = seq<Price>

  function Pow(x: real, n: nat): real
  {
    if n == 0 then 1.0 else x * Pow(x, n - 1)
  }

  lemma {:induction false} PowAtLeastOne(x: real, n: nat)
    requires x >= 1.0
    ensures Pow(x, n) >= 1.0
  {
    if n > 0 {
      PowAtLeastOne(x, n - 1);
      assert x * Pow(x, n - 1) >= 1.0 * Pow(x, n - 1);
    }
  }

  /** Price of the next unit for one resource, given how many are owned:
      floor(base * (1 + costPercent)^owned + costFlat * owned). The flat term
      is added whatever the base, so a resource with base 0 still costs
      costFlat * owned. */
  function UnitPrice(d: BuildingDef, r: Resource, owned: nat): (p: int)
    requires d.costPercent >= 0.0
    ensures p >= BaseCost(d, r) + d.costFlat * owned
    ensures owned == 0 ==> p == BaseCost(d, r)
  {
    PowAtLeastOne(1.0 + d.costPercent, owned);
    var base := BaseCost(d, r) as real;
    assert base * Pow(1.0 + d.costPercent, owned) >= base * 1.0;
    PriceFormula(base, Pow(1.0 + d.costPercent, owned), (d.costFlat * owned) as real)
  }

  /** floor(base * growth + flat). */
  function PriceFormula(base: real, growth: real, flat: real): int
  {
    (base * growth + flat).Floor
  }

  /** getBuildCost: the price of the next unit of `b` for wood, stone and food. */
  function GetBuildCost(s: State, b: Building): (cost: Cost)
    ensures |cost| == |Storable|
    ensures forall i :: 0 <= i < |cost| ==> cost[i].res == Storable[i]
    ensures forall i :: 0 <= i < |cost| ==>
      cost[i].amount >= BaseCost(Def(b), Storable[i]) + Def(b).costFlat * Owned(s, b)
    ensures Owned(s, b) == 0 ==> forall i :: 0 <= i < |cost| ==> cost[i].amount == BaseCost(Def(b), Storable[i])
  {
    seq(|Storable|, i requires 0 <= i < |Storable| => Price(Storable[i], UnitPrice(Def(b), Storable[i], Owned(s, b))))
  }

  /** canAfford: walks the cost in order and stops at the first resource that
      falls short. */
  function CanAfford(s: State, cost: Cost): (ok: bool)
    ensures ok <==> forall i :: 0 <= i < |cost| ==> Amount(s.resources, cost[i].res) >= cost[i].amount as real
  {
    if cost == [] then true
    else if Amount(s.resources, cost[0].res) < cost[0].amount as real then false
    else CanAfford(s, cost[1..])
  }

  /** costExceedsStorage: some non-population price is above that resource's
      ceiling (a missing ceiling reads as 0). */
  function CostExceedsStorage(s: State, cost: Cost): (exceeds: bool)
    ensures exceeds <==> exists i :: 0 <= i < |cost| && cost[i].res != Population
                                   && cost[i].amount as real > Amount(s.resourceMax, cost[i].res)
  {
    if cost == [] then false
    else if cost[0].res != Population && cost[0].amount as real > Amount(s.resourceMax, cost[0].res) then true
    else CostExceedsStorage(s, cost[1..])
  }

  /** One step of the payment loop of build: take the price, floored at 0. */
  function Charge(resources: map<Resource, real>, p: Price): map<Resource, real>
  {
    resources[p.res := MaxR(0.0, Amount(resources, p.res) - p.amount as real)]
  }

  /** The resources after paying every price of `cost`, in order. */
  function Paid(resources: map<Resource, real>, cost: Cost): (r: map<Resource, real>)
    ensures forall k :: k in resources ==> k in r
  {
    if cost == [] then resources else Charge(Paid(resources, cost[..|cost| - 1]), cost[|cost| - 1])
  }

  /** The ceilings after a storage room adds its increase to every resource it names. */
  function Enlarged(resourceMax: map<Resource, real>, inc: map<Resource, real>): (r: map<Resource, real>)
    ensures forall k :: k in inc ==> Amount(r, k) == Amount(resourceMax, k) + inc[k]
    ensures forall k :: k !in inc ==> Amount(r, k) == Amount(resourceMax, k)
    ensures r.Keys == resourceMax.Keys + inc.Keys
  {
    map k | k in resourceMax.Keys + inc.Keys :: Amount(resourceMax, k) + Amount(inc, k)
  }

  /** The unlock flags after building `b`. */
  function Unlocked(flags: map<Job, bool>, b: Building): map<Job, bool>
  {
    match Def(b).unlocksJob
    case Some(j) => flags[j := true]
    case None => flags
  }

  /** The state after a build of `b` that passed the affordability gate: every
      price paid, one more `b`, a storage room's increase added to the
      ceilings, the unlocked job's flag set, and one event logged. */
  function AfterBuild(s: State, b: Building): State
  {
    var total := Owned(s, b) + 1;
    s.(resources := Paid(s.resources, GetBuildCost(s, b)),
       buildings := s.buildings[b := total],
       resourceMax := if b == Storage then Enlarged(s.resourceMax, Def(Storage).storageIncrease) else s.resourceMax,
       unlockedJobs := Unlocked(s.unlockedJobs, b),
       events := Logged(s.events, Built(Def(b).name, total)))
  }

  /** Whether assignJob accepts the request: the total of ALL job counts,
      unemployed included, plus the amount must not exceed the population, and
      a job other than unemployed must be unlocked. */
  function AssignAllowed(s: State, j: Job, amount: nat): bool
  {
    JobTotal(s.jobsAssigned) + amount <= s.population
    && (j == Unemployed || IsUnlocked(s, j))
  }

  /** The state after an accepted assignJob: `amount` more workers in `j`, then
      unemployed recomputed as what the population leaves after the three jobs. */
  function AfterAssign(s: State, j: Job, amount: nat): State
  {
    var added := s.jobsAssigned[j := Workers(s.jobsAssigned, j) + amount];
    var employed := JobTotal(added) - Workers(added, Unemployed);
    s.(jobsAssigned := added[Unemployed := MaxI(0, s.population - employed)])
  }

  /** The state after unassignJob: `amount` fewer workers in `j`, floored at 0;
      unemployed is not recomputed. */
  function AfterUnassign(s: State, j: Job, amount: nat): State
  {
    s.(jobsAssigned := s.jobsAssigned[j := MaxI(0, Workers(s.jobsAssigned, j) - amount)])
  }

  /** The amount manualGather leaves in `k`: the old amount plus `amount`,
      capped by the ceiling unless the ceiling is 0 or missing (then uncapped). */
  function Gathered(s: State, k: Resource, amount: nat): (r: real)
    ensures r <= Amount(s.resources, k) + amount as real
    ensures Amount(s.resourceMax, k) != 0.0 ==> r <= Amount(s.resourceMax, k)
    ensures Amount(s.resourceMax, k) == 0.0 || Amount(s.resources, k) + amount as real <= Amount(s.resourceMax, k)
            ==> r == Amount(s.resources, k) + amount as real
    ensures Amount(s.resources, k) <= Amount(s.resourceMax, k) ==> r >= Amount(s.resources, k)
  {
    var cap := Amount(s.resourceMax, k);
    if cap == 0.0 then Amount(s.resources, k) + amount as real
    else MinR(cap, Amount(s.resources, k) + amount as real)
  }

  /** The state after manualGather. */
  function AfterGather(s: State, k: Resource, amount: nat): State
  {
    s.(resources := s.resources[k := Gathered(s, k, amount)])
  }

  // ---------------------------------------------------------------------------
  // Production aggregator

  /** The two per-unit building parameters that are summed over owned buildings. */
  datatype Yield = PercentBoost | FlatYield

  function PerUnit(b: Building, y: Yield): map<Resource, real>
  {
    match y
    case PercentBoost => Def(b).jobPercentBoost
    case FlatYield => Def(b).flatYield
  }

  /** Adds `count` units of a per-unit contribution to an accumulator; keys the
      accumulator lacks are created, as the source's `(acc[k] || 0) + ...` does. */
  function Credit(acc: map<Resource, real>, perUnit: map<Resource, real>, count: nat): map<Resource, real>
  {
    if count == 0 then acc
    else map k | k in acc.Keys + perUnit.Keys :: Amount(acc, k) + Amount(perUnit, k) * count as real
  }

  /** The loop over owned buildings shared by computeJobBoosts and
      computeBuildingFlatYieldsPerSecond, visiting `bs` in order. */
  function Aggregate(acc: map<Resource, real>, bs: seq<Building>, buildings: map<Building, nat>, y: Yield): map<Resource, real>
    decreases |bs|
  {
    if bs == [] then acc
    else Aggregate(Credit(acc, PerUnit(bs[0], y), Count(buildings, bs[0])), bs[1..], buildings, y)
  }

  /** One building kind's share of resource `k`: its per-unit value times its count. */
  function Share(buildings: map<Building, nat>, b: Building, y: Yield, k: Resource): real
  {
    Amount(PerUnit(b, y), k) * Count(buildings, b) as real
  }

  /** Sum of the shares of `bs`: the reference the aggregation loop is proved against. */
  function Contribution(bs: seq<Building>, buildings: map<Building, nat>, y: Yield, k: Resource): real
  {
    if bs == [] then 0.0 else Share(buildings, bs[0], y, k) + Contribution(bs[1..], buildings, y, k)
  }

  /** Crediting one building kind adds exactly its share. */
  lemma CreditShare(acc: map<Resource, real>, buildings: map<Building, nat>, b: Building, y: Yield, k: Resource)
    ensures Amount(Credit(acc, PerUnit(b, y), Count(buildings, b)), k) == Amount(acc, k) + Share(buildings, b, y, k)
  {
    var perUnit, count := PerUnit(b, y), Count(buildings, b);
    if count > 0 {
      var r := Credit(acc, perUnit, count);
      if k in acc || k in perUnit {
        assert k in r;
      } else {
        assert k !in r;
      }
    }
  }

  lemma {:induction false} AggregateSums(acc: map<Resource, real>, bs: seq<Building>, buildings: map<Building, nat>, y: Yield, k: Resource)
    ensures Amount(Aggregate(acc, bs, buildings, y), k) == Amount(acc, k) + Contribution(bs, buildings, y, k)
    decreases |bs|
  {
    if bs != [] {
      var acc' := Credit(acc, PerUnit(bs[0], y), Count(buildings, bs[0]));
      assert Aggregate(acc, bs, buildings, y) == Aggregate(acc', bs[1..], buildings, y);
      assert Contribution(bs, buildings, y, k) == Share(buildings, bs[0], y, k) + Contribution(bs[1..], buildings, y, k);
      CreditShare(acc, buildings, bs[0], y, k);
      AggregateSums(acc', bs[1..], buildings, y, k);
    }
  }

  /** The kinds `buildings` holds, in the order `order` lists them. */
  function KeysIn(order: seq<Building>, buildings: map<Building, nat>): seq<Building>
  {
    if order == [] then []
    else (if order[0] in buildings then [order[0]] else []) + KeysIn(order[1..], buildings)
  }

  /** `Object.keys` of a buildings record: the kinds it holds, in the order of
      the seed record, which is the catalog's order. */
  function BuildingKeys(buildings: map<Building, nat>): seq<Building>
  {
    KeysIn(AllBuildings, buildings)
  }

  /** A kind the record does not hold counts 0, so skipping it changes no sum. */
  lemma {:induction false} KeysInContribution(order: seq<Building>, buildings: map<Building, nat>, y: Yield, k: Resource)
    ensures Contribution(KeysIn(order, buildings), buildings, y, k) == Contribution(order, buildings, y, k)
  {
    if order != [] {
      var x, rest := order[0], KeysIn(order[1..], buildings);
      KeysInContribution(order[1..], buildings, y, k);
      assert Contribution(order, buildings, y, k) == Share(buildings, x, y, k) + Contribution(order[1..], buildings, y, k);
      if x in buildings {
        assert KeysIn(order, buildings) == [x] + rest;
        assert ([x] + rest)[1..] == rest;
      } else {
        assert KeysIn(order, buildings) == rest;
        assert Count(buildings, x) == 0;
      }
    }
  }

  /** The contribution over the whole catalog, one building kind at a time. */
  lemma CatalogContribution(buildings: map<Building, nat>, y: Yield, k: Resource)
    ensures Contribution(AllBuildings, buildings, y, k) ==
      Share(buildings, House, y, k) + Share(buildings, Storage, y, k) + Share(buildings, Forester, y, k)
      + Share(buildings, Quarry, y, k) + Share(buildings, Fields, y, k)
  {
    assert Contribution([Fields], buildings, y, k) == Share(buildings, Fields, y, k);
    assert Contribution([Quarry, Fields], buildings, y, k) == Share(buildings, Quarry, y, k) + Share(buildings, Fields, y, k);
    assert Contribution([Forester, Quarry, Fields], buildings, y, k)
        == Share(buildings, Forester, y, k) + Share(buildings, Quarry, y, k) + Share(buildings, Fields, y, k);
    assert Contribution([Storage, Forester, Quarry, Fields], buildings, y, k)
        == Share(buildings, Storage, y, k) + Share(buildings, Forester, y, k) + Share(buildings, Quarry, y, k) + Share(buildings, Fields, y, k);
  }

  const NoYield: map<Resource, real> := map[Food := 0.0, Wood := 0.0, Stone := 0.0]

  /** The aggregate of one per-unit parameter over the catalog, for resource `k`. */
  lemma AggregateOfCatalog(buildings: map<Building, nat>, y: Yield, k: Resource)
    ensures Amount(Aggregate(NoYield, BuildingKeys(buildings), buildings, y), k) ==
      Share(buildings, House, y, k) + Share(buildings, Storage, y, k) + Share(buildings, Forester, y, k)
      + Share(buildings, Quarry, y, k) + Share(buildings, Fields, y, k)
  {
    AggregateSums(NoYield, BuildingKeys(buildings), buildings, y, k);
    KeysInContribution(AllBuildings, buildings, y, k);
    CatalogContribution(buildings, y, k);
  }

  lemma ShareOfRate(buildings: map<Building, nat>, b: Building, y: Yield, k: Resource, rate: real)
    requires Amount(PerUnit(b, y), k) == rate
    ensures Share(buildings, b, y, k) == rate * Count(buildings, b) as real
  {
  }

  /** The catalog's per-unit boosts: only foresters, quarries and fields carry one. */
  lemma BoostRates(k: Resource)
    ensures Amount(PerUnit(House, PercentBoost), k) == 0.0 && Amount(PerUnit(Storage, PercentBoost), k) == 0.0
    ensures Amount(PerUnit(Forester, PercentBoost), k) == if k == Wood then 0.10 else 0.0
    ensures Amount(PerUnit(Quarry, PercentBoost), k) == if k == Stone then 0.10 else 0.0
    ensures Amount(PerUnit(Fields, PercentBoost), k) == if k == Food then 0.05 else 0.0
  {
  }

  lemma BoostShares(buildings: map<Building, nat>, k: Resource)
    ensures Share(buildings, House, PercentBoost, k) == 0.0 && Share(buildings, Storage, PercentBoost, k) == 0.0
    ensures Share(buildings, Forester, PercentBoost, k) == if k == Wood then 0.10 * Count(buildings, Forester) as real else 0.0
    ensures Share(buildings, Quarry, PercentBoost, k) == if k == Stone then 0.10 * Count(buildings, Quarry) as real else 0.0
    ensures Share(buildings, Fields, PercentBoost, k) == if k == Food then 0.05 * Count(buildings, Fields) as real else 0.0
  {
    BoostRates(k);
    ShareOfRate(buildings, House, PercentBoost, k, 0.0);
    ShareOfRate(buildings, Storage, PercentBoost, k, 0.0);
    ShareOfRate(buildings, Forester, PercentBoost, k, if k == Wood then 0.10 else 0.0);
    ShareOfRate(buildings, Quarry, PercentBoost, k, if k == Stone then 0.10 else 0.0);
    ShareOfRate(buildings, Fields, PercentBoost, k, if k == Food then 0.05 else 0.0);
  }

  /** The catalog's per-unit flat yields: only fields carry one. */
  lemma FlatRates(k: Resource)
    ensures Amount(PerUnit(House, FlatYield), k) == 0.0 && Amount(PerUnit(Storage, FlatYield), k) == 0.0
    ensures Amount(PerUnit(Forester, FlatYield), k) == 0.0 && Amount(PerUnit(Quarry, FlatYield), k) == 0.0
    ensures Amount(PerUnit(Fields, FlatYield), k) == if k == Food then 0.5 else 0.0
  {
  }

  lemma FlatShares(buildings: map<Building, nat>, k: Resource)
    ensures Share(buildings, House, FlatYield, k) == 0.0
    ensures Share(buildings, Storage, FlatYield, k) == 0.0
    ensures Share(buildings, Forester, FlatYield, k) == 0.0
    ensures Share(buildings, Quarry, FlatYield, k) == 0.0
    ensures Share(buildings, Fields, FlatYield, k) == if k == Food then 0.5 * Count(buildings, Fields) as real else 0.0
  {
    FlatRates(k);
    ShareOfRate(buildings, House, FlatYield, k, 0.0);
    ShareOfRate(buildings, Storage, FlatYield, k, 0.0);
    ShareOfRate(buildings, Forester, FlatYield, k, 0.0);
    ShareOfRate(buildings, Quarry, FlatYield, k, 0.0);
    ShareOfRate(buildings, Fields, FlatYield, k, if k == Food then 0.5 else 0.0);
  }

  /** computeJobBoosts: +5% food per field, +10% wood per forester and +10%
      stone per quarry. */
  function ComputeJobBoosts(buildings: map<Building, nat>): (boosts: map<Resource, real>)
    ensures Amount(boosts, Food) == 0.05 * Count(buildings, Fields) as real
    ensures Amount(boosts, Wood) == 0.10 * Count(buildings, Forester) as real
    ensures Amount(boosts, Stone) == 0.10 * Count(buildings, Quarry) as real
    ensures Amount(boosts, Population) == 0.0
  {
    AggregateOfCatalog(buildings, PercentBoost, Food);
    BoostShares(buildings, Food);
    AggregateOfCatalog(buildings, PercentBoost, Wood);
    BoostShares(buildings, Wood);
    AggregateOfCatalog(buildings, PercentBoost, Stone);
    BoostShares(buildings, Stone);
    AggregateOfCatalog(buildings, PercentBoost, Population);
    BoostShares(buildings, Population);
    Aggregate(NoYield, BuildingKeys(buildings), buildings, PercentBoost)
  }

  /** computeBuildingFlatYieldsPerSecond: half a unit of food per second per
      field and nothing else. */
  function ComputeBuildingFlatYieldsPerSecond(buildings: map<Building, nat>): (flat: map<Resource, real>)
    ensures Amount(flat, Food) == 0.5 * Count(buildings, Fields) as real
    ensures Amount(flat, Wood) == 0.0 && Amount(flat, Stone) == 0.0 && Amount(flat, Population) == 0.0
  {
    AggregateOfCatalog(buildings, FlatYield, Food);
    FlatShares(buildings, Food);
    AggregateOfCatalog(buildings, FlatYield, Wood);
    FlatShares(buildings, Wood);
    AggregateOfCatalog(buildings, FlatYield, Stone);
    FlatShares(buildings, Stone);
    AggregateOfCatalog(buildings, FlatYield, Population);
    FlatShares(buildings, Population);
    Aggregate(NoYield, BuildingKeys(buildings), buildings, FlatYield)
  }

  // ---------------------------------------------------------------------------
  // Event log

  /** logEvent: the new entry goes in front and the list is cut to 200. */
  function Logged(events: seq<Event>, e: Event): (r: seq<Event>)
    ensures |r| == MinI(|events| + 1, MaxEvents)
    ensures r[0] == e
    ensures r[1..] == events[..|r| - 1]
  {
    var pushed := [e] + events;
    if |pushed| > MaxEvents then pushed[..MaxEvents] else pushed
  }

  // ---------------------------------------------------------------------------
  // Job trimming

  /** One pass of the trim loop: take one worker from the first of lumberjack,
      stonemason, farmer that has any, else one unemployed (floored at 0). */
  function TrimOne(jobs: map<Job, int>): map<Job, int>
  {
    if Workers(jobs, Lumberjack) > 0 then jobs[Lumberjack := Workers(jobs, Lumberjack) - 1]
    else if Workers(jobs, Stonemason) > 0 then jobs[Stonemason := Workers(jobs, Stonemason) - 1]
    else if Workers(jobs, Farmer) > 0 then jobs[Farmer := Workers(jobs, Farmer) - 1]
    else jobs[Unemployed := MaxI(0, Workers(jobs, Unemployed) - 1)]
  }

  /** While the total is above the population, one pass removes exactly one worker. */
  lemma TrimOneRemovesOne(jobs: map<Job, int>, population: nat)
    requires JobTotal(jobs) > population
    ensures JobTotal(TrimOne(jobs)) == JobTotal(jobs) - 1
  {
  }

  /** trimJobsAfterPopulationLoss: repeat TrimOne until the total fits the population. */
  function Trimmed(jobs: map<Job, int>, population: nat): (r: map<Job, int>)
    ensures JobTotal(r) <= population
    ensures JobTotal(jobs) <= population ==> r == jobs
    decreases JobTotal(jobs) - population
  {
    if JobTotal(jobs) <= population then jobs
    else
      TrimOneRemovesOne(jobs, population);
      Trimmed(TrimOne(jobs), population)
  }

  // ---------------------------------------------------------------------------
  // Tick

  /** Food consumed per second by the current population. */
  function FoodUpkeepPerSecond(population: nat): real
  {
    population as real * FoodPerPopPerSecond
  }

  /** One job's income per tick: workers times base rate, raised by the boost. */
  function JobIncome(workers: real, base: real, boost: real): real
  {
    (workers * base * (1.0 + boost)) / TicksPerSecond as real
  }

  /** This tick's income of a storable resource before the shortage penalty:
      the workers' income raised by the boosts, plus the buildings' flat yield,
      per tick. The tick computes `boosts` and `flat` once, before anything else. */
  function IncomePerTick(jobs: map<Job, int>, boosts: map<Resource, real>, flat: map<Resource, real>, r: Resource): real
  {
    var j := WorkerFor(r);
    JobIncome(Workers(jobs, j) as real, JobBaseIncomePerSecond(j), Amount(boosts, r))
      + Amount(flat, r) / TicksPerSecond as real
  }

  /** Net food per second: food income (before any penalty) minus upkeep. */
  function NetFoodPerSecond(s: State, boosts: map<Resource, real>, flat: map<Resource, real>): real
  {
    IncomePerTick(s.jobsAssigned, boosts, flat, Food) * TicksPerSecond as real - FoodUpkeepPerSecond(s.population)
  }

  /** The factor on wood and stone income: 0.7 when the food held before this
      tick is at or below 0, else 1 (a missing food entry compares false). */
  function ShortageFactor(resources: map<Resource, real>): real
  {
    if Food in resources && resources[Food] <= 0.0 then ShortageMultiplier else 1.0
  }

  /** One step of the storage clamp: a resource with a ceiling is cut to it. */
  function ClampOne(resources: map<Resource, real>, resourceMax: map<Resource, real>, r: Resource): map<Resource, real>
  {
    if r in resourceMax then resources[r := MinR(Amount(resources, r), resourceMax[r])] else resources
  }

  /** The storage clamp over `rs`, in order. */
  function ClampAll(resources: map<Resource, real>, resourceMax: map<Resource, real>, rs: seq<Resource>): map<Resource, real>
  {
    if rs == [] then resources else ClampOne(ClampAll(resources, resourceMax, rs[..|rs| - 1]), resourceMax, rs[|rs| - 1])
  }

  /** Food, wood and stone after adding this tick's changes, each floored at 0. */
  function Yielded(resources: map<Resource, real>, food: real, wood: real, stone: real): map<Resource, real>
  {
    var fed := resources[Food := MaxR(0.0, Amount(resources, Food) + food)];
    var cut := fed[Wood := MaxR(0.0, Amount(fed, Wood) + wood)];
    cut[Stone := MaxR(0.0, Amount(cut, Stone) + stone)]
  }

  /** Resource phase of a tick (from the capacity update to the storage clamp):
      the population ceiling becomes the house capacity, food gains its income
      less upkeep, wood and stone gain their (possibly penalised) income, each
      floored at 0, then wood, stone and food are cut to their ceilings. */
  function Produced(s: State, boosts: map<Resource, real>, flat: map<Resource, real>): (t: State)
    ensures t == s.(resources := t.resources, resourceMax := t.resourceMax)
  {
    var resourceMax := s.resourceMax[Population := PopCap(s) as real];
    var factor := ShortageFactor(s.resources);
    var upkeepPerTick := FoodUpkeepPerSecond(s.population) / TicksPerSecond as real;
    var yielded := Yielded(s.resources, IncomePerTick(s.jobsAssigned, boosts, flat, Food) - upkeepPerTick,
                           IncomePerTick(s.jobsAssigned, boosts, flat, Wood) * factor, IncomePerTick(s.jobsAssigned, boosts, flat, Stone) * factor);
    s.(resources := ClampAll(yielded, resourceMax, Storable), resourceMax := resourceMax)
  }

  /** The resource phase of a tick, from the ceilings it sets and the
      resources it yields before the clamp. */
  lemma ProducedFrom(s: State, boosts: map<Resource, real>, flat: map<Resource, real>,
                     resourceMax: map<Resource, real>, food: real, wood: real, stone: real, yielded: map<Resource, real>)
    requires resourceMax == s.resourceMax[Population := PopCap(s) as real]
    requires food == IncomePerTick(s.jobsAssigned, boosts, flat, Food) - FoodUpkeepPerSecond(s.population) / TicksPerSecond as real
    requires wood == IncomePerTick(s.jobsAssigned, boosts, flat, Wood) * ShortageFactor(s.resources)
    requires stone == IncomePerTick(s.jobsAssigned, boosts, flat, Stone) * ShortageFactor(s.resources)
    requires yielded == Yielded(s.resources, food, wood, stone)
    ensures Produced(s, boosts, flat) == s.(resources := ClampAll(yielded, resourceMax, Storable), resourceMax := resourceMax)
  {
  }

  /** Accumulator phase: with net food at or above 0 the accumulator gains 0.2
      of the missing population per second; below -2 times upkeep it loses 0.5
      of the population per second; in between nothing happens. */
  function Grown(s: State, netFood: real, upkeep: real, cap: nat): (t: State)
    ensures t == s.(popAccumulator := t.popAccumulator)
  {
    if netFood >= 0.0 then
      var missing := MaxI(0, cap - s.population);
      s.(popAccumulator := s.popAccumulator + (missing as real * PopulationGrowthRatePerSecond) / TicksPerSecond as real)
    else if netFood < -2.0 * upkeep then
      s.(popAccumulator := s.popAccumulator - (s.population as real * PopulationDeclineRatePerSecond) / TicksPerSecond as real)
    else s
  }

  /** Transfer phase: a single upward or downward move of whole units between
      the accumulator and the population, bounded by the capacity and by 0;
      a move that would apply nothing resets the accumulator to 0 instead. */
  function Transferred(s: State, cap: nat): (t: State)
    ensures t.resources == s.resources && t.resourceMax == s.resourceMax && t.buildings == s.buildings
    ensures t.unlockedJobs == s.unlockedJobs && t.ticks == s.ticks
  {
    if s.popAccumulator >= 1.0 then
      var whole := s.popAccumulator.Floor;
      var newPop := MinI(cap, s.population + whole);
      var applied := newPop - s.population;
      if applied > 0 then
        s.(population := newPop, popAccumulator := s.popAccumulator - applied as real,
           events := Logged(s.events, PopulationIncreased(applied, newPop)))
      else s.(popAccumulator := 0.0)
    else if s.popAccumulator <= -1.0 then
      var whole := (-s.popAccumulator).Floor;
      var newPop := MaxI(0, s.population - whole);
      var applied := s.population - newPop;
      if applied > 0 then
        s.(population := newPop, popAccumulator := s.popAccumulator + applied as real,
           events := Logged(s.events, PopulationDecreased(applied, newPop)),
           jobsAssigned := Trimmed(s.jobsAssigned, newPop))
      else s.(popAccumulator := 0.0)
    else s
  }

  /** Closing phase: unemployed becomes what the population leaves after the
      three jobs, and every resource is floored at 0. */
  function Settled(s: State): (t: State)
    ensures t == s.(jobsAssigned := t.jobsAssigned, resources := t.resources)
  {
    var jobs := s.jobsAssigned[Unemployed := MaxI(0, s.population - Employed(s.jobsAssigned))];
    s.(jobsAssigned := jobs, resources := map k | k in s.resources :: MaxR(0.0, s.resources[k]))
  }

  /** The phases of a tick after the counter, given the boosts and flat yields
      computed at its start. */
  function Phases(s: State, boosts: map<Resource, real>, flat: map<Resource, real>): State
  {
    var cap := PopCap(s);
    var upkeep := FoodUpkeepPerSecond(s.population);
    var netFood := NetFoodPerSecond(s, boosts, flat);
    Settled(Transferred(Grown(Produced(s, boosts, flat), netFood, upkeep, cap), cap))
  }


  /** tick: one whole transition. The phases run on the state the tick starts
      from, with the boosts and flat yields of the buildings owned, and the
      counter moves by one. The tick itself moves the counter first; as no
      phase reads it, the order makes no difference (the tick method proves
      its outcome equal to this one). */
  function AfterTick(s: State): State
  {
    Phases(s, ComputeJobBoosts(s.buildings), ComputeBuildingFlatYieldsPerSecond(s.buildings)).(ticks := s.ticks + 1)
  }
}

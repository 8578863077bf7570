/** What one tick promises: incomes from the catalog, storage bounds, the
    shortage penalty, the capped population accumulator and the job counts. */
module TickProperties {
  import opened Data
  import opened Economy
  import opened JobProperties

  /** A value floored at 0 and cut to a ceiling: the floor of the income step
      followed by `ClampOne`, on one resource that has a ceiling. */
  function Clamp(x: real, ceiling: real): real
  {
    MinR(MaxR(0.0, x), ceiling)
  }

  /** Per-tick incomes written out from the catalog and the job rates: farmers
      earn 0.5 a second, raised 5% per field, and every field adds a flat 0.5;
      lumberjacks earn 0.3, raised 10% per forester; stonemasons 0.25, raised
      10% per quarry. */
  function FoodIncome(jobs: map<Job, int>, buildings: map<Building, nat>): real
  {
    JobIncome(Workers(jobs, Farmer) as real, 0.5, 0.05 * Count(buildings, Fields) as real)
      + (0.5 * Count(buildings, Fields) as real) / 20.0
  }

  function WoodIncome(jobs: map<Job, int>, buildings: map<Building, nat>): real
  {
    JobIncome(Workers(jobs, Lumberjack) as real, 0.3, 0.10 * Count(buildings, Forester) as real)
  }

  function StoneIncome(jobs: map<Job, int>, buildings: map<Building, nat>): real
  {
    JobIncome(Workers(jobs, Stonemason) as real, 0.25, 0.10 * Count(buildings, Quarry) as real)
  }

  /** The boosts and flat yields the catalog gives for a buildings record. */
  ghost predicate CatalogYields(buildings: map<Building, nat>, boosts: map<Resource, real>, flat: map<Resource, real>)
  {
    && Amount(boosts, Food) == 0.05 * Count(buildings, Fields) as real
    && Amount(boosts, Wood) == 0.10 * Count(buildings, Forester) as real
    && Amount(boosts, Stone) == 0.10 * Count(buildings, Quarry) as real
    && Amount(flat, Food) == 0.5 * Count(buildings, Fields) as real
    && Amount(flat, Wood) == 0.0 && Amount(flat, Stone) == 0.0
  }

  /** Given the catalog's boosts and flat yields, the income of each storable
      resource is its closed form. */
  lemma IncomeFromCatalog(jobs: map<Job, int>, buildings: map<Building, nat>, boosts: map<Resource, real>, flat: map<Resource, real>)
    requires CatalogYields(buildings, boosts, flat)
    ensures IncomePerTick(jobs, boosts, flat, Food) == FoodIncome(jobs, buildings)
    ensures IncomePerTick(jobs, boosts, flat, Wood) == WoodIncome(jobs, buildings)
    ensures IncomePerTick(jobs, boosts, flat, Stone) == StoneIncome(jobs, buildings)
  {
  }

  /** The aggregators yield exactly the catalog's boosts and flat yields, so the
      income the tick computes is the closed form above. */
  lemma IncomeClosedForm(jobs: map<Job, int>, buildings: map<Building, nat>)
    ensures CatalogYields(buildings, ComputeJobBoosts(buildings), ComputeBuildingFlatYieldsPerSecond(buildings))
    ensures var boosts, flat := ComputeJobBoosts(buildings), ComputeBuildingFlatYieldsPerSecond(buildings);
      && IncomePerTick(jobs, boosts, flat, Food) == FoodIncome(jobs, buildings)
      && IncomePerTick(jobs, boosts, flat, Wood) == WoodIncome(jobs, buildings)
      && IncomePerTick(jobs, boosts, flat, Stone) == StoneIncome(jobs, buildings)
  {
    IncomeFromCatalog(jobs, buildings, ComputeJobBoosts(buildings), ComputeBuildingFlatYieldsPerSecond(buildings));
  }

  lemma JobIncomeNonNegative(workers: real, base: real, boost: real)
    requires workers >= 0.0 && base >= 0.0 && boost >= 0.0
    ensures JobIncome(workers, base, boost) >= 0.0
  {
    assert workers * base >= 0.0;
    assert (workers * base) * (1.0 + boost) >= 0.0;
  }

  /** Food income (farmers plus flat yield) is never negative. */
  lemma FoodIncomeNonNegative(jobs: map<Job, int>, boosts: map<Resource, real>, flat: map<Resource, real>)
    requires Workers(jobs, Farmer) >= 0
    requires Amount(boosts, Food) >= 0.0 && Amount(flat, Food) >= 0.0
    ensures IncomePerTick(jobs, boosts, flat, Food) >= 0.0
  {
    JobIncomeNonNegative(Workers(jobs, Farmer) as real, 0.5, Amount(boosts, Food));
  }

  /** The decline branch of the tick cannot fire: net food per second is never
      below minus the upkeep, so never below twice that. */
  lemma NoDecline(s: State, boosts: map<Resource, real>, flat: map<Resource, real>)
    requires Workers(s.jobsAssigned, Farmer) >= 0
    requires Amount(boosts, Food) >= 0.0 && Amount(flat, Food) >= 0.0
    ensures NetFoodPerSecond(s, boosts, flat) >= -FoodUpkeepPerSecond(s.population)
    ensures !(NetFoodPerSecond(s, boosts, flat) < -2.0 * FoodUpkeepPerSecond(s.population))
  {
    FoodIncomeNonNegative(s.jobsAssigned, boosts, flat);
  }

  /** The storage clamp over wood, stone and food, written out. */
  lemma ClampStorable(res: map<Resource, real>, ceilings: map<Resource, real>)
    requires Wood in ceilings && Stone in ceilings && Food in ceilings
    ensures ClampAll(res, ceilings, Storable) ==
      res[Wood := MinR(Amount(res, Wood), ceilings[Wood])]
         [Stone := MinR(Amount(res, Stone), ceilings[Stone])]
         [Food := MinR(Amount(res, Food), ceilings[Food])]
  {
    var r1 := res[Wood := MinR(Amount(res, Wood), ceilings[Wood])];
    var r2 := r1[Stone := MinR(Amount(res, Stone), ceilings[Stone])];
    assert Storable[..1][..0] == [] && Storable[..2][..1] == Storable[..1] && Storable[..3][..2] == Storable[..2];
    assert Storable[..3] == Storable;
    assert ClampAll(res, ceilings, Storable[..1]) == r1;
    assert ClampAll(res, ceilings, Storable[..2]) == r2;
  }

  /** Adding the changes and clamping, resource by resource. */
  lemma ClampedYield(res: map<Resource, real>, ceilings: map<Resource, real>, food: real, wood: real, stone: real)
    requires Wood in ceilings && Stone in ceilings && Food in ceilings
    ensures var r := ClampAll(Yielded(res, food, wood, stone), ceilings, Storable);
      && (forall k :: k in res ==> k in r)
      && Food in r && Wood in r && Stone in r
      && r[Food] == Clamp(Amount(res, Food) + food, ceilings[Food])
      && r[Wood] == Clamp(Amount(res, Wood) + wood, ceilings[Wood])
      && r[Stone] == Clamp(Amount(res, Stone) + stone, ceilings[Stone])
      && (forall k :: k in res && k != Food && k != Wood && k != Stone ==> r[k] == res[k])
  {
    ClampStorable(Yielded(res, food, wood, stone), ceilings);
  }

  /** The changes the resource phase adds to food, wood and stone. */
  function FoodChange(s: State, boosts: map<Resource, real>, flat: map<Resource, real>): real
  {
    IncomePerTick(s.jobsAssigned, boosts, flat, Food) - FoodUpkeepPerSecond(s.population) / 20.0
  }

  function WoodChange(s: State, boosts: map<Resource, real>, flat: map<Resource, real>): real
  {
    IncomePerTick(s.jobsAssigned, boosts, flat, Wood) * ShortageFactor(s.resources)
  }

  function StoneChange(s: State, boosts: map<Resource, real>, flat: map<Resource, real>): real
  {
    IncomePerTick(s.jobsAssigned, boosts, flat, Stone) * ShortageFactor(s.resources)
  }

  lemma ProducedShape(s: State, boosts: map<Resource, real>, flat: map<Resource, real>)
    ensures var ceilings := s.resourceMax[Population := PopCap(s) as real];
      Produced(s, boosts, flat)
        == s.(resources := ClampAll(Yielded(s.resources, FoodChange(s, boosts, flat), WoodChange(s, boosts, flat), StoneChange(s, boosts, flat)), ceilings, Storable),
              resourceMax := ceilings)
  {
  }

  /** The resource phase, ceilings: the population ceiling becomes the house
      capacity, the others stay; every resource key stays; the population
      resource is untouched. */
  lemma ProducedCeilings(s: State, boosts: map<Resource, real>, flat: map<Resource, real>)
    requires WellFormed(s)
    ensures var t := Produced(s, boosts, flat);
      && t.resourceMax == s.resourceMax[Population := PopCap(s) as real]
      && (forall r: Resource :: r in t.resources)
      && t.resources[Population] == s.resources[Population]
  {
    var ceilings := s.resourceMax[Population := PopCap(s) as real];
    ProducedShape(s, boosts, flat);
    ClampedYield(s.resources, ceilings, FoodChange(s, boosts, flat), WoodChange(s, boosts, flat), StoneChange(s, boosts, flat));
  }

  /** The resource phase, stores: food, wood and stone each gain their change,
      floored at 0 and cut to their ceiling. */
  lemma ProducedStores(s: State, boosts: map<Resource, real>, flat: map<Resource, real>)
    requires WellFormed(s)
    ensures var t := Produced(s, boosts, flat);
      && Food in t.resources && Wood in t.resources && Stone in t.resources
      && t.resources[Food] == Clamp(s.resources[Food] + FoodChange(s, boosts, flat), s.resourceMax[Food])
      && t.resources[Wood] == Clamp(s.resources[Wood] + WoodChange(s, boosts, flat), s.resourceMax[Wood])
      && t.resources[Stone] == Clamp(s.resources[Stone] + StoneChange(s, boosts, flat), s.resourceMax[Stone])
  {
    var ceilings := s.resourceMax[Population := PopCap(s) as real];
    ProducedShape(s, boosts, flat);
    ClampedYield(s.resources, ceilings, FoodChange(s, boosts, flat), WoodChange(s, boosts, flat), StoneChange(s, boosts, flat));
  }

  /** An upward transfer (accumulator at 1 or more) never takes the population
      above the capacity nor below where it was; with no room left it resets
      the accumulator to 0; otherwise the whole units moved leave the sum of
      population and accumulator unchanged. */
  lemma UpwardTransfer(s: State, cap: nat)
    requires s.popAccumulator >= 1.0
    ensures var t := Transferred(s, cap);
      && s.population <= t.population <= MaxI(cap, s.population)
      && (s.population >= cap ==> t.population == s.population && t.popAccumulator == 0.0 && t.events == s.events)
      && (s.population < cap ==>
            && t.population == MinI(cap, s.population + s.popAccumulator.Floor)
            && t.population > s.population
            && t.popAccumulator + t.population as real == s.popAccumulator + s.population as real
            && 0.0 <= t.popAccumulator
            && (t.popAccumulator < 1.0 || t.population == cap)
            && t.events == Logged(s.events, PopulationIncreased(t.population - s.population, t.population)))
      && t.jobsAssigned == s.jobsAssigned
  {
  }

  /** A downward transfer (accumulator at -1 or less) never takes the
      population below 0, trims the jobs to the new population, and with no one
      left to lose only resets the accumulator to 0. */
  lemma DownwardTransfer(s: State, cap: nat)
    requires s.popAccumulator <= -1.0
    requires AllJobsKnown(s.jobsAssigned) && NonNegativeJobs(s.jobsAssigned)
    ensures var t := Transferred(s, cap);
      && t.population <= s.population
      && (s.population == 0 ==> t.population == 0 && t.popAccumulator == 0.0 && t.jobsAssigned == s.jobsAssigned && t.events == s.events)
      && (s.population > 0 ==>
            && t.population == MaxI(0, s.population - (-s.popAccumulator).Floor)
            && t.popAccumulator + t.population as real == s.popAccumulator + s.population as real
            && JobTotal(t.jobsAssigned) <= t.population
            && t.events == Logged(s.events, PopulationDecreased(s.population - t.population, t.population)))
  {
    if s.population > 0 {
      var whole := (-s.popAccumulator).Floor;
      assert whole >= 1;
      TrimProperties(s.jobsAssigned, MaxI(0, s.population - whole));
    }
  }

  /** What the accumulator gains in one tick: 0.2 of the missing population per
      second while net food is not negative, nothing otherwise. */
  function Growth(population: nat, cap: nat, netFood: real): real
  {
    if netFood >= 0.0 then (MaxI(0, cap - population) as real * 0.2) / 20.0 else 0.0
  }

  /** The population, accumulator and log after the accumulator and transfer
      phases of a tick that starts from population `pop`, accumulator `acc`,
      capacity `cap` and log `events` with `net` food a second: the population
      never drops and never passes the cap; below the cap it grows by the whole
      part of the accumulator plus this tick's growth and the fractional rest
      stays in the accumulator, which ends below 1 unless the cap is reached;
      at the cap a full accumulator is reset to 0; a rise is logged as one
      event. */
  ghost predicate MoveOutcome(pop: nat, acc: real, cap: nat, net: real, events: seq<Event>, t: State)
  {
    && pop <= t.population <= cap
    && t.popAccumulator >= 0.0
    && (t.popAccumulator < 1.0 || t.population == cap)
    && (pop == cap ==> t.population == pop && t.popAccumulator == (if acc >= 1.0 then 0.0 else acc))
    && (pop < cap ==>
          t.population == MinI(cap, pop + (acc + Growth(pop, cap, net)).Floor)
          && t.popAccumulator + t.population as real == acc + Growth(pop, cap, net) + pop as real)
    && (t.population == pop ==> t.events == events)
    && (t.population > pop ==> t.events == Logged(events, PopulationIncreased(t.population - pop, t.population)))
  }

  /** The accumulator and transfer phases of a tick on a valid state. */
  lemma PopulationStep(s: State, p: State, boosts: map<Resource, real>, flat: map<Resource, real>)
    requires Valid(s)
    requires p == s.(resources := p.resources, resourceMax := p.resourceMax)
    requires Amount(boosts, Food) >= 0.0 && Amount(flat, Food) >= 0.0
    ensures var net := NetFoodPerSecond(s, boosts, flat);
      var t := Transferred(Grown(p, net, FoodUpkeepPerSecond(s.population), PopCap(s)), PopCap(s));
      && MoveOutcome(s.population, s.popAccumulator, PopCap(s), net, s.events, t)
      && t == p.(population := t.population, popAccumulator := t.popAccumulator, events := t.events)
  {
    NoDecline(s, boosts, flat);
    var cap := PopCap(s);
    var net := NetFoodPerSecond(s, boosts, flat);
    var g := Grown(p, net, FoodUpkeepPerSecond(s.population), cap);
    assert g.popAccumulator == s.popAccumulator + Growth(s.population, PopCap(s), net);
    if g.popAccumulator >= 1.0 {
      UpwardTransfer(g, cap);
    } else {
      assert (s.popAccumulator + Growth(s.population, PopCap(s), net)).Floor == 0;
    }
  }

  /** The closing phase floors every resource at 0 and recomputes unemployed. */
  lemma SettledFacts(m: State)
    requires forall r: Resource :: r in m.resources
    ensures var t := Settled(m);
      && (forall r: Resource :: r in t.resources && t.resources[r] == MaxR(0.0, m.resources[r]))
      && t.jobsAssigned == m.jobsAssigned[Unemployed := MaxI(0, m.population - Employed(m.jobsAssigned))]
  {
  }

  /** With at most the population employed, the closing phase makes the four
      job counts sum to the population. */
  lemma SettledJobs(m: State)
    requires Employed(m.jobsAssigned) <= m.population
    ensures Settled(m).jobsAssigned == m.jobsAssigned[Unemployed := m.population - Employed(m.jobsAssigned)]
    ensures Settled(m).population == m.population && Settled(m).popAccumulator == m.popAccumulator
    ensures Settled(m).events == m.events
  {
  }

  /** The resources and ceilings after the tick's phases on a valid state, for
      any non-negative food boost and food yield. */
  lemma PhasesResources(s: State, boosts: map<Resource, real>, flat: map<Resource, real>)
    requires Valid(s)
    requires Amount(boosts, Food) >= 0.0 && Amount(flat, Food) >= 0.0
    ensures var t := Phases(s, boosts, flat);
      && (forall r: Resource :: r in t.resources)
      && t.resources == Produced(s, boosts, flat).resources
      && t.resourceMax == s.resourceMax[Population := PopCap(s) as real]
  {
    var p := Produced(s, boosts, flat);
    ProducedCeilings(s, boosts, flat);
    ProducedStores(s, boosts, flat);
    PopulationStep(s, p, boosts, flat);
    var net := NetFoodPerSecond(s, boosts, flat);
    var m := Transferred(Grown(p, net, FoodUpkeepPerSecond(s.population), PopCap(s)), PopCap(s));
    assert m.resources == p.resources && m.resourceMax == p.resourceMax;
    SettledFacts(m);
    forall r: Resource
      ensures Settled(m).resources[r] == m.resources[r]
    {
      match r
      case Population =>
      case Food => assert s.resourceMax[Food] > 0.0;
      case Wood => assert s.resourceMax[Wood] > 0.0;
      case Stone => assert s.resourceMax[Stone] > 0.0;
    }
    assert Settled(m).resources == m.resources;
  }

  /** The population side of a whole tick: MoveOutcome, and unemployed becomes
      the population left after the three jobs `jobs`, which stay as they were. */
  ghost predicate PopulationOutcome(pop: nat, acc: real, cap: nat, net: real, events: seq<Event>, jobs: map<Job, int>, t: State)
  {
    && MoveOutcome(pop, acc, cap, net, events, t)
    && t.jobsAssigned == jobs[Unemployed := t.population - Employed(jobs)]
  }

  /** The closing phase keeps a move's outcome and settles the job counts. */
  lemma SettledOutcome(pop: nat, acc: real, cap: nat, net: real, events: seq<Event>, jobs: map<Job, int>, m: State)
    requires MoveOutcome(pop, acc, cap, net, events, m)
    requires m.jobsAssigned == jobs && Employed(jobs) <= pop
    ensures PopulationOutcome(pop, acc, cap, net, events, jobs, Settled(m))
  {
    SettledJobs(m);
  }

  /** The population, accumulator, jobs and log after the tick's phases on a
      valid state, for any non-negative food boost and food yield. */
  lemma PhasesPopulation(s: State, boosts: map<Resource, real>, flat: map<Resource, real>)
    requires Valid(s)
    requires Amount(boosts, Food) >= 0.0 && Amount(flat, Food) >= 0.0
    ensures var t := Phases(s, boosts, flat);
      && PopulationOutcome(s.population, s.popAccumulator, PopCap(s), NetFoodPerSecond(s, boosts, flat), s.events, s.jobsAssigned, t)
      && t.buildings == s.buildings && t.unlockedJobs == s.unlockedJobs && t.ticks == s.ticks
  {
    var p := Produced(s, boosts, flat);
    PopulationStep(s, p, boosts, flat);
    var net := NetFoodPerSecond(s, boosts, flat);
    var m := Transferred(Grown(p, net, FoodUpkeepPerSecond(s.population), PopCap(s)), PopCap(s));
    assert Phases(s, boosts, flat) == Settled(m);
    SettledOutcome(s.population, s.popAccumulator, PopCap(s), net, s.events, s.jobsAssigned, m);
  }

  /** The resource phase with the catalog's yields: wood and stone, in closed form. */
  lemma ProducedWoodStone(s: State, boosts: map<Resource, real>, flat: map<Resource, real>)
    requires WellFormed(s)
    requires CatalogYields(s.buildings, boosts, flat)
    ensures var t, factor := Produced(s, boosts, flat), (if s.resources[Food] <= 0.0 then 0.7 else 1.0);
      && Wood in t.resources && Stone in t.resources
      && t.resources[Wood] == Clamp(s.resources[Wood] + WoodIncome(s.jobsAssigned, s.buildings) * factor, s.resourceMax[Wood])
      && t.resources[Stone] == Clamp(s.resources[Stone] + StoneIncome(s.jobsAssigned, s.buildings) * factor, s.resourceMax[Stone])
  {
    ProducedCeilings(s, boosts, flat);
    ProducedStores(s, boosts, flat);
    IncomeFromCatalog(s.jobsAssigned, s.buildings, boosts, flat);
  }

  /** The tick's phases with the catalog's yields: wood and stone. */
  lemma PhasesWoodStone(s: State, boosts: map<Resource, real>, flat: map<Resource, real>)
    requires Valid(s)
    requires CatalogYields(s.buildings, boosts, flat)
    ensures var t, factor := Phases(s, boosts, flat), (if s.resources[Food] <= 0.0 then 0.7 else 1.0);
      && Wood in t.resources && Stone in t.resources
      && t.resources[Wood] == Clamp(s.resources[Wood] + WoodIncome(s.jobsAssigned, s.buildings) * factor, s.resourceMax[Wood])
      && t.resources[Stone] == Clamp(s.resources[Stone] + StoneIncome(s.jobsAssigned, s.buildings) * factor, s.resourceMax[Stone])
  {
    PhasesResources(s, boosts, flat);
    ProducedWoodStone(s, boosts, flat);
  }

  /** The tick's phases with the catalog's yields: food and the ceilings. */
  lemma PhasesFood(s: State, boosts: map<Resource, real>, flat: map<Resource, real>)
    requires Valid(s)
    requires CatalogYields(s.buildings, boosts, flat)
    ensures var t := Phases(s, boosts, flat);
      && (forall r: Resource :: r in t.resources && r in t.resourceMax)
      && t.resources[Food] == Clamp(s.resources[Food] + (FoodIncome(s.jobsAssigned, s.buildings) - s.population as real * 0.1 / 20.0), s.resourceMax[Food])
      && t.resources[Population] == s.resources[Population]
      && t.resourceMax == s.resourceMax[Population := (Owned(s, House) * 5) as real]
  {
    PhasesResources(s, boosts, flat);
    ProducedCeilings(s, boosts, flat);
    ProducedStores(s, boosts, flat);
    IncomeFromCatalog(s.jobsAssigned, s.buildings, boosts, flat);
  }

  lemma ProducedCeilingsIgnoreCounter(s: State, boosts: map<Resource, real>, flat: map<Resource, real>, n: nat)
    ensures Produced(s.(ticks := n), boosts, flat).resourceMax == Produced(s, boosts, flat).resourceMax
  {
    assert PopCap(s.(ticks := n)) == PopCap(s);
  }

  lemma ProducedStoresIgnoreCounter(s: State, boosts: map<Resource, real>, flat: map<Resource, real>, n: nat)
    ensures Produced(s.(ticks := n), boosts, flat).resources == Produced(s, boosts, flat).resources
  {
    var resourceMax := s.resourceMax[Population := PopCap(s) as real];
    var food := IncomePerTick(s.jobsAssigned, boosts, flat, Food) - FoodUpkeepPerSecond(s.population) / TicksPerSecond as real;
    var wood := IncomePerTick(s.jobsAssigned, boosts, flat, Wood) * ShortageFactor(s.resources);
    var stone := IncomePerTick(s.jobsAssigned, boosts, flat, Stone) * ShortageFactor(s.resources);
    var yielded := Yielded(s.resources, food, wood, stone);
    ProducedFrom(s, boosts, flat, resourceMax, food, wood, stone, yielded);
    assert PopCap(s.(ticks := n)) == PopCap(s);
    ProducedFrom(s.(ticks := n), boosts, flat, resourceMax, food, wood, stone, yielded);
  }

  lemma ProducedIgnoresCounter(s: State, boosts: map<Resource, real>, flat: map<Resource, real>, n: nat)
    ensures Produced(s.(ticks := n), boosts, flat) == Produced(s, boosts, flat).(ticks := n)
  {
    ProducedCeilingsIgnoreCounter(s, boosts, flat, n);
    ProducedStoresIgnoreCounter(s, boosts, flat, n);
  }

  lemma GrownIgnoresCounter(s: State, netFood: real, upkeep: real, cap: nat, n: nat)
    ensures Grown(s.(ticks := n), netFood, upkeep, cap) == Grown(s, netFood, upkeep, cap).(ticks := n)
  {
  }

  /** The upward transfer when it applies a positive amount, written out. */
  lemma UpwardMove(s: State, cap: nat)
    requires s.popAccumulator >= 1.0
    requires MinI(cap, s.population + s.popAccumulator.Floor) > s.population
    ensures var newPop := MinI(cap, s.population + s.popAccumulator.Floor);
      Transferred(s, cap) == s.(population := newPop, popAccumulator := s.popAccumulator - (newPop - s.population) as real,
                                events := Logged(s.events, PopulationIncreased(newPop - s.population, newPop)))
  {
  }

  lemma UpwardMoveIgnoresCounter(s: State, cap: nat, n: nat)
    requires s.popAccumulator >= 1.0
    requires MinI(cap, s.population + s.popAccumulator.Floor) > s.population
    ensures Transferred(s.(ticks := n), cap) == Transferred(s, cap).(ticks := n)
  {
    UpwardMove(s, cap);
    UpwardMove(s.(ticks := n), cap);
  }

  lemma UpwardIgnoresCounter(s: State, cap: nat, n: nat)
    requires s.popAccumulator >= 1.0
    ensures Transferred(s.(ticks := n), cap) == Transferred(s, cap).(ticks := n)
  {
    var newPop := MinI(cap, s.population + s.popAccumulator.Floor);
    var s1 := s.(ticks := n);
    if newPop - s.population > 0 {
      UpwardMoveIgnoresCounter(s, cap, n);
    } else {
      assert Transferred(s1, cap) == s1.(popAccumulator := 0.0);
    }
  }

  /** The downward transfer when it applies a positive amount, written out. */
  lemma DownwardMove(s: State, cap: nat)
    requires s.popAccumulator <= -1.0
    requires MaxI(0, s.population - (-s.popAccumulator).Floor) < s.population
    ensures var newPop := MaxI(0, s.population - (-s.popAccumulator).Floor);
      Transferred(s, cap) == s.(population := newPop, popAccumulator := s.popAccumulator + (s.population - newPop) as real,
                                events := Logged(s.events, PopulationDecreased(s.population - newPop, newPop)),
                                jobsAssigned := Trimmed(s.jobsAssigned, newPop))
  {
  }

  lemma DownwardMoveIgnoresCounter(s: State, cap: nat, n: nat)
    requires s.popAccumulator <= -1.0
    requires MaxI(0, s.population - (-s.popAccumulator).Floor) < s.population
    ensures Transferred(s.(ticks := n), cap) == Transferred(s, cap).(ticks := n)
  {
    DownwardMove(s, cap);
    DownwardMove(s.(ticks := n), cap);
  }

  lemma DownwardIgnoresCounter(s: State, cap: nat, n: nat)
    requires s.popAccumulator <= -1.0
    ensures Transferred(s.(ticks := n), cap) == Transferred(s, cap).(ticks := n)
  {
    var newPop := MaxI(0, s.population - (-s.popAccumulator).Floor);
    var s1 := s.(ticks := n);
    if s.population - newPop > 0 {
      DownwardMoveIgnoresCounter(s, cap, n);
    } else {
      assert Transferred(s1, cap) == s1.(popAccumulator := 0.0);
    }
  }

  lemma TransferredIgnoresCounter(s: State, cap: nat, n: nat)
    ensures Transferred(s.(ticks := n), cap) == Transferred(s, cap).(ticks := n)
  {
    if s.popAccumulator >= 1.0 {
      UpwardIgnoresCounter(s, cap, n);
    } else if s.popAccumulator <= -1.0 {
      DownwardIgnoresCounter(s, cap, n);
    }
  }

  lemma SettledIgnoresCounter(s: State, n: nat)
    ensures Settled(s.(ticks := n)) == Settled(s).(ticks := n)
  {
  }

  /** No phase of the tick reads the counter. */
  lemma PhasesIgnoreCounter(s: State, boosts: map<Resource, real>, flat: map<Resource, real>, n: nat)
    ensures Phases(s.(ticks := n), boosts, flat) == Phases(s, boosts, flat).(ticks := n)
  {
    var s1 := s.(ticks := n);
    var cap, upkeep, net := PopCap(s), FoodUpkeepPerSecond(s.population), NetFoodPerSecond(s, boosts, flat);
    assert PopCap(s1) == cap && FoodUpkeepPerSecond(s1.population) == upkeep && NetFoodPerSecond(s1, boosts, flat) == net;
    var p := Produced(s, boosts, flat);
    ProducedIgnoresCounter(s, boosts, flat, n);
    var g := Grown(p, net, upkeep, cap);
    GrownIgnoresCounter(p, net, upkeep, cap, n);
    var m := Transferred(g, cap);
    TransferredIgnoresCounter(g, cap, n);
    SettledIgnoresCounter(m, n);
  }

  /** tick, wood and stone: each gains its income, times 0.7 exactly when the
      food held before the tick is at or below 0, floored at 0 and cut to its
      ceiling. */
  lemma TickWoodStone(s: State)
    requires Valid(s)
    ensures var t, factor := AfterTick(s), (if s.resources[Food] <= 0.0 then 0.7 else 1.0);
      && Wood in t.resources && Stone in t.resources
      && t.resources[Wood] == Clamp(s.resources[Wood] + WoodIncome(s.jobsAssigned, s.buildings) * factor, s.resourceMax[Wood])
      && t.resources[Stone] == Clamp(s.resources[Stone] + StoneIncome(s.jobsAssigned, s.buildings) * factor, s.resourceMax[Stone])
  {
    var boosts, flat := ComputeJobBoosts(s.buildings), ComputeBuildingFlatYieldsPerSecond(s.buildings);
    IncomeClosedForm(s.jobsAssigned, s.buildings);
    PhasesWoodStone(s, boosts, flat);
  }

  /** tick, food and ceilings: food gains its unpenalised income less an upkeep
      of 0.1 a second per settler, floored at 0 and cut to its ceiling; the
      storable ceilings stay as they were; the population ceiling becomes five
      per house; the population resource is untouched. */
  lemma TickFood(s: State)
    requires Valid(s)
    ensures var t := AfterTick(s);
      && (forall r: Resource :: r in t.resources && r in t.resourceMax)
      && t.resources[Food] == Clamp(s.resources[Food] + (FoodIncome(s.jobsAssigned, s.buildings) - s.population as real * 0.1 / 20.0), s.resourceMax[Food])
      && t.resources[Population] == s.resources[Population]
      && t.resourceMax == s.resourceMax[Population := (Owned(s, House) * 5) as real]
  {
    var boosts, flat := ComputeJobBoosts(s.buildings), ComputeBuildingFlatYieldsPerSecond(s.buildings);
    IncomeClosedForm(s.jobsAssigned, s.buildings);
    PhasesFood(s, boosts, flat);
  }

  lemma ClampWithin(x: real, ceiling: real)
    requires ceiling >= 0.0
    ensures 0.0 <= Clamp(x, ceiling) <= ceiling
  {
  }

  /** Storage bounds: after a tick wood, stone and food each lie between 0 and
      their ceiling. */
  lemma TickStorageBounds(s: State)
    requires Valid(s)
    ensures var t := AfterTick(s);
      && (forall r: Resource :: r in t.resources && r in t.resourceMax)
      && (forall r: Resource :: r != Population ==> 0.0 <= t.resources[r] <= t.resourceMax[r])
  {
    TickWoodStone(s);
    TickFood(s);
    var t, factor := AfterTick(s), (if s.resources[Food] <= 0.0 then 0.7 else 1.0);
    var jobs, buildings := s.jobsAssigned, s.buildings;
    ClampWithin(s.resources[Wood] + WoodIncome(jobs, buildings) * factor, s.resourceMax[Wood]);
    ClampWithin(s.resources[Stone] + StoneIncome(jobs, buildings) * factor, s.resourceMax[Stone]);
    ClampWithin(s.resources[Food] + (FoodIncome(jobs, buildings) - s.population as real * 0.1 / 20.0), s.resourceMax[Food]);
    forall r: Resource | r != Population
      ensures 0.0 <= t.resources[r] <= t.resourceMax[r]
    {
      match r
      case Wood => case Stone => case Food =>
    }
  }

  /** Net food per second written out from the catalog: the farmers' and
      fields' income less 0.1 a second per settler. */
  function NetFood(s: State): real
  {
    FoodIncome(s.jobsAssigned, s.buildings) * 20.0 - s.population as real * 0.1
  }

  /** The tick's population side, on the catalog's boosts and flat yields. */
  lemma PhasesPopulationOfCatalog(s: State, boosts: map<Resource, real>, flat: map<Resource, real>)
    requires Valid(s)
    requires CatalogYields(s.buildings, boosts, flat)
    ensures var t := Phases(s, boosts, flat);
      && PopulationOutcome(s.population, s.popAccumulator, PopCap(s), NetFood(s), s.events, s.jobsAssigned, t)
      && t.buildings == s.buildings && t.unlockedJobs == s.unlockedJobs && t.ticks == s.ticks
  {
    IncomeFromCatalog(s.jobsAssigned, s.buildings, boosts, flat);
    assert NetFoodPerSecond(s, boosts, flat) == NetFood(s);
    PhasesPopulation(s, boosts, flat);
  }

  lemma OutcomeIgnoresCounter(pop: nat, acc: real, cap: nat, net: real, events: seq<Event>, jobs: map<Job, int>, t: State, n: nat)
    requires PopulationOutcome(pop, acc, cap, net, events, jobs, t)
    ensures PopulationOutcome(pop, acc, cap, net, events, jobs, t.(ticks := n))
  {
  }

  /** tick, population side: the population moves as PopulationOutcome says,
      with the catalog's net food. */
  lemma TickPopulation(s: State)
    requires Valid(s)
    ensures PopulationOutcome(s.population, s.popAccumulator, PopCap(s), NetFood(s), s.events, s.jobsAssigned, AfterTick(s))
  {
    var boosts, flat := ComputeJobBoosts(s.buildings), ComputeBuildingFlatYieldsPerSecond(s.buildings);
    IncomeClosedForm(s.jobsAssigned, s.buildings);
    PhasesPopulationOfCatalog(s, boosts, flat);
    OutcomeIgnoresCounter(s.population, s.popAccumulator, PopCap(s), NetFood(s), s.events, s.jobsAssigned, Phases(s, boosts, flat), s.ticks + 1);
  }

  /** tick, the rest: the counter moves by one, the four job counts then sum to
      the population, and the buildings and unlocked jobs stay. */
  lemma TickCounters(s: State)
    requires Valid(s)
    ensures var t := AfterTick(s);
      && t.ticks == s.ticks + 1
      && JobTotal(t.jobsAssigned) == t.population
      && t.buildings == s.buildings && t.unlockedJobs == s.unlockedJobs
  {
    var boosts, flat := ComputeJobBoosts(s.buildings), ComputeBuildingFlatYieldsPerSecond(s.buildings);
    IncomeClosedForm(s.jobsAssigned, s.buildings);
    PhasesPopulationOfCatalog(s, boosts, flat);
  }

  /** Everything one tick promises, as a relation between the state before
      (`s`) and after (`t`). */
  ghost predicate TickOutcome(s: State, t: State)
  {
    && WellFormed(s)
    && (forall r: Resource :: r in t.resources && r in t.resourceMax)
    && (var factor := if s.resources[Food] <= 0.0 then 0.7 else 1.0;
        && t.resources[Wood] == Clamp(s.resources[Wood] + WoodIncome(s.jobsAssigned, s.buildings) * factor, s.resourceMax[Wood])
        && t.resources[Stone] == Clamp(s.resources[Stone] + StoneIncome(s.jobsAssigned, s.buildings) * factor, s.resourceMax[Stone]))
    && t.resources[Food] == Clamp(s.resources[Food] + (FoodIncome(s.jobsAssigned, s.buildings) - s.population as real * 0.1 / 20.0), s.resourceMax[Food])
    && t.resources[Population] == s.resources[Population]
    && t.resourceMax == s.resourceMax[Population := (Owned(s, House) * 5) as real]
    && PopulationOutcome(s.population, s.popAccumulator, PopCap(s), NetFood(s), s.events, s.jobsAssigned, t)
    && t.ticks == s.ticks + 1
    && JobTotal(t.jobsAssigned) == t.population
    && t.buildings == s.buildings && t.unlockedJobs == s.unlockedJobs
  }

  /** tick, whole: the new state is in the tick relation with the old one. */
  lemma TickMeetsOutcome(s: State)
    requires Valid(s)
    ensures TickOutcome(s, AfterTick(s))
  {
    TickWoodStone(s);
    TickFood(s);
    TickPopulation(s);
    TickCounters(s);
  }

  /** The stores of a state in the tick relation with a valid state are
      within their ceilings, and the ceilings are positive. */
  lemma TickOutcomeStores(s: State, t: State)
    requires Valid(s)
    requires TickOutcome(s, t)
    ensures forall r: Resource :: t.resources[r] >= 0.0
    ensures forall r: Resource :: r != Population ==> 0.0 < t.resourceMax[r] && t.resources[r] <= t.resourceMax[r]
    ensures t.resourceMax[Population] >= 0.0
  {
    var jobs, buildings, factor := s.jobsAssigned, s.buildings, (if s.resources[Food] <= 0.0 then 0.7 else 1.0);
    ClampWithin(s.resources[Wood] + WoodIncome(jobs, buildings) * factor, s.resourceMax[Wood]);
    ClampWithin(s.resources[Stone] + StoneIncome(jobs, buildings) * factor, s.resourceMax[Stone]);
    ClampWithin(s.resources[Food] + (FoodIncome(jobs, buildings) - s.population as real * 0.1 / 20.0), s.resourceMax[Food]);
    forall r: Resource
      ensures t.resources[r] >= 0.0
      ensures r != Population ==> 0.0 < t.resourceMax[r] && t.resources[r] <= t.resourceMax[r]
    {
      match r
      case Population => case Wood => case Stone => case Food =>
    }
  }

  /** Any state in the tick relation with a valid state is valid. */
  lemma TickOutcomeValid(s: State, t: State)
    requires Valid(s)
    requires TickOutcome(s, t)
    ensures Valid(t)
  {
    TickOutcomeStores(s, t);
    assert PopCap(t) == PopCap(s);
    forall j: Job
      ensures j in t.jobsAssigned && t.jobsAssigned[j] >= 0
    {
    }
    assert Employed(t.jobsAssigned) == Employed(s.jobsAssigned);
    forall j: Job | j != Unemployed && t.jobsAssigned[j] > 0
      ensures IsUnlocked(t, j)
    {
      assert IsUnlocked(s, j);
    }
  }

  /** The tick keeps the state invariant. */
  lemma TickPreservesValid(s: State)
    requires Valid(s)
    ensures Valid(AfterTick(s))
  {
    TickMeetsOutcome(s);
    TickOutcomeValid(s, AfterTick(s));
  }

  /** Right after any tick the four job counts sum to the population, so the
      assign guard, which counts unemployed too, refuses every request for
      one or more workers. */
  lemma AssignRefusedAfterTick(s: State, j: Job, amount: nat)
    requires Valid(s)
    requires amount >= 1
    ensures !AssignAllowed(AfterTick(s), j, amount)
  {
    TickCounters(s);
    AssignRefusedWhenCountsFillPopulation(AfterTick(s), j, amount);
  }
}

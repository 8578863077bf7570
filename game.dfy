/** The game engine object (`class Game`): it owns the whole mutable state and
    every command, and the tick changes it in place. Each method is proved to
    leave the state that the matching transition function of Economy
    describes; what those transitions promise is proved in the property
    modules. */
module GameEngine {
  import opened Data
  import opened Economy
  import TickProperties

  /** The inner loop shared by the two aggregators and by the storage
      increase: for each key of `perUnit`, add `count` units of it to `acc`; a
      key `acc` lacks starts from 0. The keys are visited in any order, as each
      is touched once. */
  method AddUnits(acc: map<Resource, real>, perUnit: map<Resource, real>, count: nat) returns (r: map<Resource, real>)
    requires count > 0
    ensures r == Credit(acc, perUnit, count)
  {
    r := acc;
    var todo := perUnit.Keys;
    while todo != {}
      invariant todo <= perUnit.Keys
      invariant r.Keys == acc.Keys + (perUnit.Keys - todo)
      invariant forall k :: k in r ==>
        r[k] == if k in todo || k !in perUnit then Amount(acc, k) else Amount(acc, k) + Amount(perUnit, k) * count as real
      decreases todo
    {
      var k :| k in todo;
      r := r[k := Amount(r, k) + Amount(perUnit, k) * count as real];
      todo := todo - {k};
    }
    CreditPointwise(acc, perUnit, count, r);
  }

  /** A map with the keys of both inputs, holding each key's credited amount,
      is the credit. */
  lemma CreditPointwise(acc: map<Resource, real>, perUnit: map<Resource, real>, count: nat, r: map<Resource, real>)
    requires count > 0
    requires r.Keys == acc.Keys + perUnit.Keys
    requires forall k :: k in r ==>
      r[k] == if k !in perUnit then Amount(acc, k) else Amount(acc, k) + Amount(perUnit, k) * count as real
    ensures r == Credit(acc, perUnit, count)
  {
    var c := Credit(acc, perUnit, count);
    forall k | k in r
      ensures r[k] == c[k]
    {
      if k !in perUnit {
        assert Amount(perUnit, k) * count as real == 0.0;
      }
    }
  }

  /** One step of the aggregation loop. */
  lemma AggregateStep(acc: map<Resource, real>, bs: seq<Building>, buildings: map<Building, nat>, y: Yield)
    requires bs != []
    ensures Aggregate(acc, bs, buildings, y) == Aggregate(Credit(acc, PerUnit(bs[0], y), Count(buildings, bs[0])), bs[1..], buildings, y)
    ensures Credit(acc, PerUnit(bs[0], y), 0) == acc
  {
  }

  /** The state after a build, from the price, the new count, the ceilings
      and the unlocked flags. */
  lemma AfterBuildFrom(s: State, b: Building, cost: Cost, total: nat, resourceMax: map<Resource, real>, unlockedJobs: map<Job, bool>)
    requires cost == Economy.GetBuildCost(s, b) && total == Owned(s, b) + 1
    requires resourceMax == if b == Storage then Enlarged(s.resourceMax, Def(Storage).storageIncrease) else s.resourceMax
    requires unlockedJobs == Unlocked(s.unlockedJobs, b)
    ensures AfterBuild(s, b) == s.(resources := Paid(s.resources, cost), buildings := s.buildings[b := total],
                                   resourceMax := resourceMax, unlockedJobs := unlockedJobs,
                                   events := Logged(s.events, Built(Def(b).name, total)))
  {
  }

  /** A storage room's increase is one unit of it credited to the ceilings. */
  lemma EnlargedIsCredit(resourceMax: map<Resource, real>, inc: map<Resource, real>)
    ensures Enlarged(resourceMax, inc) == Credit(resourceMax, inc, 1)
  {
  }

  class Game {
    /** `this.state`: resources, ceilings, buildings, jobs, population, log and counter. */
    var state: State

    /** A new game starts from the seed state. */
    constructor()
      ensures state == InitialState()
    {
      state := InitialState();
    }

    /** getBuildCost: the price of the next `b` in wood, stone and food. */
    method GetBuildCost(b: Building) returns (cost: Cost)
      ensures cost == Economy.GetBuildCost(state, b)
    {
      var d := Def(b);
      var count := Owned(state, b);
      assert d.costPercent >= 0.0 by {
        match b
        case House => case Storage => case Forester => case Quarry => case Fields =>
      }
      cost := [];
      for i := 0 to |Storable|
        invariant cost == Economy.GetBuildCost(state, b)[..i]
      {
        cost := cost + [Price(Storable[i], UnitPrice(d, Storable[i], count))];
      }
    }

    /** canAfford: every price is covered by the resource it names. */
    method CanAfford(cost: Cost) returns (ok: bool)
      ensures ok == Economy.CanAfford(state, cost)
    {
      for i := 0 to |cost|
        invariant forall j :: 0 <= j < i ==> Amount(state.resources, cost[j].res) >= cost[j].amount as real
      {
        if Amount(state.resources, cost[i].res) < cost[i].amount as real {
          return false;
        }
      }
      return true;
    }

    /** costExceedsStorage: some non-population price is above its ceiling. */
    method CostExceedsStorage(cost: Cost) returns (exceeds: bool)
      ensures exceeds == Economy.CostExceedsStorage(state, cost)
    {
      for i := 0 to |cost|
        invariant forall j :: 0 <= j < i && cost[j].res != Population ==> cost[j].amount as real <= Amount(state.resourceMax, cost[j].res)
      {
        if cost[i].res == Population {
          continue;
        }
        if cost[i].amount as real > Amount(state.resourceMax, cost[i].res) {
          return true;
        }
      }
      return false;
    }

    /** logEvent: the entry goes in front and the log is cut to 200 entries. */
    method LogEvent(e: Event)
      modifies this
      ensures state == old(state).(events := Logged(old(state).events, e))
    {
      state := state.(events := [e] + state.events);
      if |state.events| > MaxEvents {
        state := state.(events := state.events[..MaxEvents]);
      }
    }

    /** The payment loop of build: each price in order, floored at 0. */
    method PayCost(cost: Cost)
      modifies this
      ensures state == old(state).(resources := Paid(old(state).resources, cost))
    {
      for i := 0 to |cost|
        invariant state == old(state).(resources := Paid(old(state).resources, cost[..i]))
      {
        var p := cost[i];
        state := state.(resources := state.resources[p.res := MaxR(0.0, Amount(state.resources, p.res) - p.amount as real)]);
        assert cost[..i + 1][..i] == cost[..i];
      }
      assert cost[..|cost|] == cost;
    }

    /** build: refused, changing nothing, unless every price is covered; an
        accepted build leaves AfterBuild's state. */
    method Build(b: Building) returns (ok: bool)
      modifies this
      ensures ok == Economy.CanAfford(old(state), Economy.GetBuildCost(old(state), b))
      ensures state == if ok then AfterBuild(old(state), b) else old(state)
    {
      var cost := GetBuildCost(b);
      ok := CanAfford(cost);
      if !ok {
        return;
      }
      ghost var s0 := state;
      PayCost(cost);
      var total := Owned(state, b) + 1;
      var resourceMax := state.resourceMax;
      if b == Storage {
        var inc := Def(Storage).storageIncrease;
        resourceMax := AddUnits(resourceMax, inc, 1);
        EnlargedIsCredit(s0.resourceMax, inc);
      }
      var unlockedJobs := state.unlockedJobs;
      var unlock := Def(b).unlocksJob;
      if unlock.Some? {
        unlockedJobs := unlockedJobs[unlock.value := true];
      }
      state := state.(buildings := state.buildings[b := total], resourceMax := resourceMax, unlockedJobs := unlockedJobs);
      LogEvent(Built(Def(b).name, total));
      AfterBuildFrom(s0, b, cost, total, resourceMax, unlockedJobs);
    }

    /** assignJob: refused, changing nothing, when the total of all job counts
        (unemployed included) plus `amount` exceeds the population or the job
        is locked; an accepted request leaves AfterAssign's state. */
    method AssignJob(j: Job, amount: nat) returns (ok: bool)
      modifies this
      ensures ok == AssignAllowed(old(state), j, amount)
      ensures state == if ok then AfterAssign(old(state), j, amount) else old(state)
    {
      var totalAssigned := JobTotal(state.jobsAssigned);
      if totalAssigned + amount > state.population {
        return false;
      }
      if j != Unemployed && !IsUnlocked(state, j) {
        return false;
      }
      var added := state.jobsAssigned[j := Workers(state.jobsAssigned, j) + amount];
      var unemployed := MaxI(0, state.population - (JobTotal(added) - Workers(added, Unemployed)));
      assert state.(jobsAssigned := added[Unemployed := unemployed]) == AfterAssign(state, j, amount);
      state := state.(jobsAssigned := added[Unemployed := unemployed]);
      return true;
    }

    /** unassignJob: `amount` fewer workers in `j`, floored at 0. */
    method UnassignJob(j: Job, amount: nat)
      modifies this
      ensures state == AfterUnassign(old(state), j, amount)
    {
      state := state.(jobsAssigned := state.jobsAssigned[j := MaxI(0, Workers(state.jobsAssigned, j) - amount)]);
    }

    /** manualGather: add `amount`, capped by the ceiling; a ceiling of 0 or
        none at all caps nothing. */
    method ManualGather(k: Resource, amount: nat)
      modifies this
      ensures state == AfterGather(old(state), k, amount)
    {
      var ceiling := Amount(state.resourceMax, k);
      var gathered := Amount(state.resources, k) + amount as real;
      if ceiling != 0.0 {
        gathered := MinR(ceiling, gathered);
      }
      state := state.(resources := state.resources[k := gathered]);
    }

    /** The loop shared by computeJobBoosts and computeBuildingFlatYieldsPerSecond:
        over the kinds the buildings record holds, add each owned kind's
        per-unit values times its count, starting from 0 food, wood and stone. */
    method SumOwned(y: Yield) returns (acc: map<Resource, real>)
      ensures acc == Aggregate(NoYield, BuildingKeys(state.buildings), state.buildings, y)
    {
      var keys := BuildingKeys(state.buildings);
      acc := NoYield;
      for i := 0 to |keys|
        invariant Aggregate(acc, keys[i..], state.buildings, y) == Aggregate(NoYield, keys, state.buildings, y)
      {
        var b := keys[i];
        var count := Count(state.buildings, b);
        AggregateStep(acc, keys[i..], state.buildings, y);
        assert keys[i..][0] == b && keys[i..][1..] == keys[i + 1..];
        if count != 0 {
          acc := AddUnits(acc, PerUnit(b, y), count);
        }
      }
      assert keys[|keys|..] == [];
    }

    /** computeJobBoosts: the summed percent boosts of the owned buildings. */
    method ComputeJobBoosts() returns (boosts: map<Resource, real>)
      ensures boosts == Economy.ComputeJobBoosts(state.buildings)
    {
      boosts := SumOwned(PercentBoost);
    }

    /** computeBuildingFlatYieldsPerSecond: the summed flat yields of the owned buildings. */
    method ComputeBuildingFlatYieldsPerSecond() returns (flat: map<Resource, real>)
      ensures flat == Economy.ComputeBuildingFlatYieldsPerSecond(state.buildings)
    {
      flat := SumOwned(FlatYield);
    }

    /** trimJobsAfterPopulationLoss: while the four counts sum to more than the
        population, take one worker by priority. */
    method TrimJobsAfterPopulationLoss()
      modifies this
      ensures state == old(state).(jobsAssigned := Trimmed(old(state).jobsAssigned, old(state).population))
    {
      var totalAssigned := JobTotal(state.jobsAssigned);
      while totalAssigned > state.population
        invariant state == old(state).(jobsAssigned := state.jobsAssigned)
        invariant totalAssigned == JobTotal(state.jobsAssigned)
        invariant Trimmed(state.jobsAssigned, state.population) == Trimmed(old(state).jobsAssigned, state.population)
        decreases totalAssigned - state.population
      {
        var jobs := state.jobsAssigned;
        TrimOneRemovesOne(jobs, state.population);
        if Workers(jobs, Lumberjack) > 0 {
          state := state.(jobsAssigned := jobs[Lumberjack := Workers(jobs, Lumberjack) - 1]);
        } else if Workers(jobs, Stonemason) > 0 {
          state := state.(jobsAssigned := jobs[Stonemason := Workers(jobs, Stonemason) - 1]);
        } else if Workers(jobs, Farmer) > 0 {
          state := state.(jobsAssigned := jobs[Farmer := Workers(jobs, Farmer) - 1]);
        } else {
          state := state.(jobsAssigned := jobs[Unemployed := MaxI(0, Workers(jobs, Unemployed) - 1)]);
        }
        assert state.jobsAssigned == TrimOne(jobs);
        totalAssigned := JobTotal(state.jobsAssigned);
      }
    }

    /** This tick's income of each storable resource before the shortage
        penalty: the three jobs' incomes, then each building flat yield a tick
        added key by key. */
    method JobIncomePerTick(boosts: map<Resource, real>, flatYieldsPerSecond: map<Resource, real>) returns (income: map<Resource, real>)
      ensures Food in income && income[Food] == IncomePerTick(state.jobsAssigned, boosts, flatYieldsPerSecond, Food)
      ensures Wood in income && income[Wood] == IncomePerTick(state.jobsAssigned, boosts, flatYieldsPerSecond, Wood)
      ensures Stone in income && income[Stone] == IncomePerTick(state.jobsAssigned, boosts, flatYieldsPerSecond, Stone)
    {
      var jobs := state.jobsAssigned;
      income := map[Food := 0.0, Wood := 0.0, Stone := 0.0];
      income := income[Food := income[Food] + JobIncome(Workers(jobs, Farmer) as real, JobBaseIncomePerSecond(Farmer), Amount(boosts, Food))];
      income := income[Wood := income[Wood] + JobIncome(Workers(jobs, Lumberjack) as real, JobBaseIncomePerSecond(Lumberjack), Amount(boosts, Wood))];
      income := income[Stone := income[Stone] + JobIncome(Workers(jobs, Stonemason) as real, JobBaseIncomePerSecond(Stonemason), Amount(boosts, Stone))];
      ghost var fromJobs := income;
      var todo := flatYieldsPerSecond.Keys;
      while todo != {}
        invariant todo <= flatYieldsPerSecond.Keys
        invariant Food in income && Wood in income && Stone in income
        invariant forall r :: r in fromJobs ==>
          income[r] == fromJobs[r] + (if r in todo then 0.0 else Amount(flatYieldsPerSecond, r) / TicksPerSecond as real)
        decreases todo
      {
        var k :| k in todo;
        income := income[k := Amount(income, k) + flatYieldsPerSecond[k] / TicksPerSecond as real];
        todo := todo - {k};
      }
    }

    /** The storage clamp: wood, stone and food, in that order, cut to their ceilings. */
    method ClampToStorage()
      modifies this
      ensures state == old(state).(resources := ClampAll(old(state).resources, old(state).resourceMax, Storable))
    {
      for i := 0 to |Storable|
        invariant state == old(state).(resources := ClampAll(old(state).resources, old(state).resourceMax, Storable[..i]))
      {
        var r := Storable[i];
        if r in state.resourceMax {
          state := state.(resources := state.resources[r := MinR(Amount(state.resources, r), state.resourceMax[r])]);
        }
        assert Storable[..i + 1][..i] == Storable[..i];
      }
      assert Storable[..|Storable|] == Storable;
    }

    /** The tick's resource phase: the population ceiling, this tick's incomes
        with the food shortage penalty, the floor at 0 and the storage clamp.
        Returns the capacity, the upkeep and the net food per second the later
        phases use. */
    method ProduceResources(boosts: map<Resource, real>, flatYieldsPerSecond: map<Resource, real>)
      returns (popCap: nat, foodUpkeepPerSecond: real, netFoodPerSecond: real)
      modifies this
      ensures state == Produced(old(state), boosts, flatYieldsPerSecond)
      ensures popCap == PopCap(old(state)) && foodUpkeepPerSecond == FoodUpkeepPerSecond(old(state).population)
      ensures netFoodPerSecond == NetFoodPerSecond(old(state), boosts, flatYieldsPerSecond)
    {
      ghost var s0 := state;
      var houses := Count(state.buildings, House);
      popCap := houses * Def(House).popCapacityPer;
      assert popCap == PopCap(s0);
      state := state.(resourceMax := state.resourceMax[Population := popCap as real]);
      assert state.resources == s0.resources && state.jobsAssigned == s0.jobsAssigned && state.population == s0.population;
      var foodDelta, wood, stone;
      foodUpkeepPerSecond, netFoodPerSecond, foodDelta, wood, stone := TickIncomes(boosts, flatYieldsPerSecond);
      ghost var resourceMax := state.resourceMax;
      AddIncome(foodDelta, wood, stone);
      ghost var yielded := state.resources;
      assert state == s0.(resources := yielded, resourceMax := resourceMax);
      ClampToStorage();
      ProducedFrom(s0, boosts, flatYieldsPerSecond, resourceMax, foodDelta, wood, stone, yielded);
    }

    /** This tick's upkeep and net food per second, and the changes to food,
        wood and stone, with the shortage penalty read from the food held now. */
    method TickIncomes(boosts: map<Resource, real>, flatYieldsPerSecond: map<Resource, real>)
      returns (foodUpkeepPerSecond: real, netFoodPerSecond: real, foodDelta: real, wood: real, stone: real)
      ensures foodUpkeepPerSecond == FoodUpkeepPerSecond(state.population)
      ensures netFoodPerSecond == NetFoodPerSecond(state, boosts, flatYieldsPerSecond)
      ensures foodDelta == IncomePerTick(state.jobsAssigned, boosts, flatYieldsPerSecond, Food) - FoodUpkeepPerSecond(state.population) / TicksPerSecond as real
      ensures wood == IncomePerTick(state.jobsAssigned, boosts, flatYieldsPerSecond, Wood) * ShortageFactor(state.resources)
      ensures stone == IncomePerTick(state.jobsAssigned, boosts, flatYieldsPerSecond, Stone) * ShortageFactor(state.resources)
    {
      foodUpkeepPerSecond := state.population as real * FoodPerPopPerSecond;
      var foodUpkeepPerTick := foodUpkeepPerSecond / TicksPerSecond as real;
      var income := JobIncomePerTick(boosts, flatYieldsPerSecond);
      netFoodPerSecond := income[Food] * TicksPerSecond as real - foodUpkeepPerSecond;
      var factor := if Food in state.resources && state.resources[Food] <= 0.0 then ShortageMultiplier else 1.0;
      wood, stone := income[Wood] * factor, income[Stone] * factor;
      foodDelta := income[Food] - foodUpkeepPerTick;
    }

    /** Food gains `food`, then wood `wood` and stone `stone`, each floored at 0. */
    method AddIncome(food: real, wood: real, stone: real)
      modifies this
      ensures state == old(state).(resources := Yielded(old(state).resources, food, wood, stone))
    {
      state := state.(resources := state.resources[Food := MaxR(0.0, Amount(state.resources, Food) + food)]);
      state := state.(resources := state.resources[Wood := MaxR(0.0, Amount(state.resources, Wood) + wood)]);
      state := state.(resources := state.resources[Stone := MaxR(0.0, Amount(state.resources, Stone) + stone)]);
    }

    /** The tick's accumulator phase. */
    method GrowAccumulator(netFoodPerSecond: real, foodUpkeepPerSecond: real, popCap: nat)
      modifies this
      ensures state == Grown(old(state), netFoodPerSecond, foodUpkeepPerSecond, popCap)
    {
      if netFoodPerSecond >= 0.0 {
        var missing := MaxI(0, popCap - state.population);
        var growthPerSecond := missing as real * PopulationGrowthRatePerSecond;
        var growthPerTick := growthPerSecond / TicksPerSecond as real;
        state := state.(popAccumulator := state.popAccumulator + growthPerTick);
      } else if netFoodPerSecond < -2.0 * foodUpkeepPerSecond {
        var declinePerSecond := state.population as real * PopulationDeclineRatePerSecond;
        var declinePerTick := declinePerSecond / TicksPerSecond as real;
        state := state.(popAccumulator := state.popAccumulator - declinePerTick);
      }
    }

    /** The tick's transfer phase: at most one move of whole units between the
        accumulator and the population. */
    method TransferPopulation(popCap: nat)
      modifies this
      ensures state == Transferred(old(state), popCap)
    {
      if state.popAccumulator >= 1.0 {
        AddWholePeople(popCap);
      } else if state.popAccumulator <= -1.0 {
        RemoveWholePeople(popCap);
      }
    }

    /** Whole people move from the accumulator into the population, up to the
        capacity; when none fit the accumulator is reset. */
    method AddWholePeople(popCap: nat)
      requires state.popAccumulator >= 1.0
      modifies this
      ensures state == Transferred(old(state), popCap)
    {
      var whole := state.popAccumulator.Floor;
      var newPop := MinI(popCap, state.population + whole);
      var applied := newPop - state.population;
      if applied > 0 {
        state := state.(population := newPop, popAccumulator := state.popAccumulator - applied as real);
        LogEvent(PopulationIncreased(applied, state.population));
      } else {
        state := state.(popAccumulator := 0.0);
      }
    }

    /** Whole people leave the population for a negative accumulator, down to
        0, and the jobs are trimmed; when none can leave the accumulator is
        reset. */
    method RemoveWholePeople(popCap: nat)
      requires state.popAccumulator <= -1.0
      modifies this
      ensures state == Transferred(old(state), popCap)
    {
      var whole := (-state.popAccumulator).Floor;
      var newPop := MaxI(0, state.population - whole);
      var applied := state.population - newPop;
      if applied > 0 {
        state := state.(population := newPop, popAccumulator := state.popAccumulator + applied as real);
        LogEvent(PopulationDecreased(applied, state.population));
        TrimJobsAfterPopulationLoss();
      } else {
        state := state.(popAccumulator := 0.0);
      }
    }

    /** The last loop of the tick: every negative resource is set to 0. */
    method FloorResources()
      modifies this
      ensures state == old(state).(resources := map k | k in old(state).resources :: MaxR(0.0, old(state).resources[k]))
    {
      var todo := state.resources.Keys;
      while todo != {}
        invariant todo <= old(state).resources.Keys
        invariant state == old(state).(resources := state.resources)
        invariant state.resources.Keys == old(state).resources.Keys
        invariant forall k :: k in state.resources ==>
          state.resources[k] == if k in todo then old(state).resources[k] else MaxR(0.0, old(state).resources[k])
        decreases todo
      {
        var k :| k in todo;
        if state.resources[k] < 0.0 {
          state := state.(resources := state.resources[k := 0.0]);
        }
        todo := todo - {k};
      }
    }

    /** The tick's closing phase: unemployed recomputed, every resource floored at 0. */
    method Settle()
      modifies this
      ensures state == Settled(old(state))
    {
      var jobs := state.jobsAssigned;
      var assignedNonUnemployed := Workers(jobs, Farmer) + Workers(jobs, Lumberjack) + Workers(jobs, Stonemason);
      state := state.(jobsAssigned := jobs[Unemployed := MaxI(0, state.population - assignedNonUnemployed)]);
      FloorResources();
    }

    /** tick: the counter moves first, then the boosts and flat yields are
        computed and the phases run in order. As no phase reads the counter,
        the outcome is AfterTick's. */
    method Tick()
      modifies this
      ensures state == AfterTick(old(state))
    {
      ghost var s0 := state;
      state := state.(ticks := state.ticks + 1);
      ghost var s1 := state;
      var boosts := ComputeJobBoosts();
      var flatYieldsPerSecond := ComputeBuildingFlatYieldsPerSecond();
      assert boosts == Economy.ComputeJobBoosts(s0.buildings) && flatYieldsPerSecond == Economy.ComputeBuildingFlatYieldsPerSecond(s0.buildings);
      var popCap, foodUpkeepPerSecond, netFoodPerSecond := ProduceResources(boosts, flatYieldsPerSecond);
      GrowAccumulator(netFoodPerSecond, foodUpkeepPerSecond, popCap);
      TransferPopulation(popCap);
      Settle();
      assert state == Settled(Transferred(Grown(Produced(s1, boosts, flatYieldsPerSecond),
        NetFoodPerSecond(s1, boosts, flatYieldsPerSecond), FoodUpkeepPerSecond(s1.population), PopCap(s1)), PopCap(s1)));
      assert state == Phases(s1, boosts, flatYieldsPerSecond);
      TickProperties.PhasesIgnoreCounter(s0, boosts, flatYieldsPerSecond, s1.ticks);
    }
  }
}

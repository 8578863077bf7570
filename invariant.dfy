/** The state invariant: the seed has it, every command keeps it, and so does
    the tick; and what the first tick does to the seed. */
module Invariant {
  import opened Data
  import opened Economy
  import opened CostProperties
  import opened JobProperties
  import opened TickProperties

  /** createInitialState produces a valid state: nobody lives there yet, no one
      holds a job, the accumulator and counter are 0 and the log is empty. */
  lemma SeedValid()
    ensures Valid(InitialState())
    ensures PopCap(InitialState()) == 5
    ensures JobTotal(InitialState().jobsAssigned) == InitialState().population == 0
    ensures InitialState().popAccumulator == 0.0 && InitialState().ticks == 0
    ensures InitialState().events == []
  {
    var s := InitialState();
    assert Owned(s, House) == 1;
    assert Employed(s.jobsAssigned) == 0;
  }

  /** A state that spends no more than it holds, keeps or raises every
      ceiling, keeps or raises the capacity, keeps the jobs and the population,
      and never locks a job is as valid as the one it came from. */
  lemma SpendingKeepsValid(s: State, t: State)
    requires Valid(s)
    requires forall r: Resource :: r in t.resources && r in t.resourceMax
    requires forall r: Resource :: r != Population ==> 0.0 <= t.resources[r] <= s.resources[r]
    requires t.resources[Population] == s.resources[Population]
    requires forall r: Resource :: r != Population ==> t.resourceMax[r] >= s.resourceMax[r]
    requires t.resourceMax[Population] == s.resourceMax[Population]
    requires forall b: Building :: b in t.buildings
    requires PopCap(s) <= PopCap(t)
    requires t.jobsAssigned == s.jobsAssigned && t.population == s.population && t.popAccumulator == s.popAccumulator
    requires forall j :: IsUnlocked(s, j) ==> IsUnlocked(t, j)
    requires |t.events| <= MaxEvents
    ensures Valid(t)
  {
    forall j: Job | j != Unemployed && t.jobsAssigned[j] > 0
      ensures IsUnlocked(t, j)
    {
      assert IsUnlocked(s, j);
    }
  }

  /** An affordable build keeps the invariant. */
  lemma BuildPreservesValid(s: State, b: Building)
    requires Valid(s)
    requires CanAfford(s, GetBuildCost(s, b))
    ensures Valid(AfterBuild(s, b))
  {
    var t := AfterBuild(s, b);
    BuildSpends(s, b);
    BuildAddsOne(s, b);
    BuildRaisesCeilings(s, b);
    BuildUnlocks(s, b);
    BuildLogs(s, b);
    assert PopCap(s) <= PopCap(t);
    SpendingKeepsValid(s, t);
  }

  /** An accepted assignJob keeps the invariant. */
  lemma AssignPreservesValid(s: State, j: Job, amount: nat)
    requires Valid(s)
    requires AssignAllowed(s, j, amount)
    ensures Valid(AfterAssign(s, j, amount))
  {
    AssignEffects(s, j, amount);
    var t := AfterAssign(s, j, amount);
    forall k: Job | k != Unemployed && t.jobsAssigned[k] > 0
      ensures IsUnlocked(t, k)
    {
      if k != j {
        assert IsUnlocked(s, k);
      }
    }
  }

  /** unassignJob keeps the invariant. */
  lemma UnassignPreservesValid(s: State, j: Job, amount: nat)
    requires Valid(s)
    ensures Valid(AfterUnassign(s, j, amount))
  {
    var t := AfterUnassign(s, j, amount);
    assert Employed(t.jobsAssigned) <= Employed(s.jobsAssigned);
    forall k: Job | k != Unemployed && t.jobsAssigned[k] > 0
      ensures IsUnlocked(t, k)
    {
      assert s.jobsAssigned[k] > 0;
    }
  }

  /** manualGather keeps the invariant: a storable resource has a positive
      ceiling, so the gathered amount is cut to it. */
  lemma GatherPreservesValid(s: State, k: Resource, amount: nat)
    requires Valid(s)
    ensures Valid(AfterGather(s, k, amount))
  {
    var t := AfterGather(s, k, amount);
    forall r: Resource
      ensures t.resources[r] >= 0.0
      ensures r != Population ==> t.resources[r] <= t.resourceMax[r]
    {
      if r == k && r != Population {
        assert Amount(s.resourceMax, k) > 0.0;
      }
    }
  }

  /** A tick on an empty settlement with room for five and no workers: nobody
      arrives yet, the accumulator gains 0.05, the stores stay as they were. */
  lemma EmptySettlementTick(s: State, t: State)
    requires Valid(s)
    requires s.population == 0 && s.popAccumulator == 0.0 && PopCap(s) == 5
    requires Employed(s.jobsAssigned) == 0 && Count(s.buildings, Fields) == 0
    requires TickOutcome(s, t)
    ensures t.population == 0 && t.popAccumulator == 0.05
    ensures t.resourceMax[Population] == 5.0
    ensures t.resources == s.resources
    ensures t.events == s.events && t.ticks == s.ticks + 1
  {
    var jobs, buildings := s.jobsAssigned, s.buildings;
    assert Workers(jobs, Farmer) == 0 && Workers(jobs, Lumberjack) == 0 && Workers(jobs, Stonemason) == 0;
    assert FoodIncome(jobs, buildings) == 0.0 && WoodIncome(jobs, buildings) == 0.0 && StoneIncome(jobs, buildings) == 0.0;
    assert NetFood(s) == 0.0;
    assert Growth(s.population, PopCap(s), NetFood(s)) == 0.05;
    forall r: Resource
      ensures t.resources[r] == s.resources[r]
    {
      match r
      case Population => case Wood => case Stone => case Food =>
    }
  }

  /** The same, for the state the tick produces. */
  lemma TickFromEmptySettlement(s: State)
    requires Valid(s)
    requires s.population == 0 && s.popAccumulator == 0.0 && PopCap(s) == 5
    requires Employed(s.jobsAssigned) == 0 && Count(s.buildings, Fields) == 0
    ensures var t := AfterTick(s);
      && t.population == 0 && t.popAccumulator == 0.05
      && t.resourceMax[Population] == 5.0
      && t.resources == s.resources
      && t.events == s.events && t.ticks == s.ticks + 1
  {
    TickMeetsOutcome(s);
    EmptySettlementTick(s, AfterTick(s));
  }

  /** The first tick of a new game: nobody arrives yet, the accumulator holds
      0.05 (a twentieth of 0.2 times the five missing settlers), the
      population ceiling becomes 5, the stores stay at 100 and the counter
      reads 1. */
  lemma FirstTickFromSeed()
    ensures var t := AfterTick(InitialState());
      && t.population == 0
      && t.popAccumulator == 0.05
      && t.resourceMax[Population] == 5.0
      && t.resources == map[Population := 0.0, Stone := 100.0, Wood := 100.0, Food := 100.0]
      && t.events == []
      && t.ticks == 1
  {
    var s := InitialState();
    SeedValid();
    assert Employed(s.jobsAssigned) == 0 && Count(s.buildings, Fields) == 0;
    TickFromEmptySettlement(s);
  }
}

/** What the cost calculator and the build command promise. */
module CostProperties {
  import opened Data
  import opened Economy

  /** Every catalog price parameter is non-negative. */
  ghost predicate NonNegativePricing(d: BuildingDef)
  {
    d.costPercent >= 0.0 && forall r :: r in d.baseCost ==> d.baseCost[r] >= 0
  }

  lemma CatalogPricingNonNegative(b: Building)
    ensures NonNegativePricing(Def(b))
    ensures Def(b).costPercent > 0.0 && Def(b).costFlat > 0
  {
  }

  lemma {:induction false} PowMonotone(x: real, m: nat, n: nat)
    requires x >= 1.0 && m <= n
    ensures Pow(x, m) <= Pow(x, n)
    decreases n - m
  {
    if m < n {
      PowMonotone(x, m, n - 1);
      PowAtLeastOne(x, n - 1);
      assert Pow(x, n) == x * Pow(x, n - 1) >= 1.0 * Pow(x, n - 1);
    }
  }

  lemma ScaleMonotone(c: real, p: real, q: real)
    requires c >= 0.0 && p <= q
    ensures c * p <= c * q
  {
  }

  lemma FlatTermMonotone(flat: nat, m: nat, n: nat)
    requires m <= n
    ensures (flat * m) as real <= (flat * n) as real
  {
    assert flat * m <= flat * n;
  }

  lemma FloorMonotone(a: real, b: real)
    requires a <= b
    ensures a.Floor <= b.Floor
  {
  }

  /** The price of a resource never drops as more units are owned. */
  lemma PriceFormulaMonotone(base: real, pm: real, pn: real, fm: real, fn: real)
    requires base >= 0.0 && pm <= pn && fm <= fn
    ensures PriceFormula(base, pm, fm) <= PriceFormula(base, pn, fn)
  {
    ScaleMonotone(base, pm, pn);
    FloorMonotone(base * pm + fm, base * pn + fn);
  }

  lemma {:induction false} UnitPriceMonotone(d: BuildingDef, r: Resource, m: nat, n: nat)
    requires d.costPercent >= 0.0 && m <= n
    ensures UnitPrice(d, r, m) <= UnitPrice(d, r, n)
  {
    var x := 1.0 + d.costPercent;
    PowMonotone(x, m, n);
    FlatTermMonotone(d.costFlat, m, n);
    PriceFormulaMonotone(BaseCost(d, r) as real, Pow(x, m), Pow(x, n), (d.costFlat * m) as real, (d.costFlat * n) as real);
  }

  /** Cost monotonicity: owning more of a building never makes its next unit
      cheaper, resource by resource. */
  lemma BuildCostMonotone(s: State, t: State, b: Building)
    requires Owned(s, b) <= Owned(t, b)
    ensures forall i :: 0 <= i < |Storable| ==> GetBuildCost(s, b)[i].amount <= GetBuildCost(t, b)[i].amount
  {
    forall i | 0 <= i < |Storable|
      ensures GetBuildCost(s, b)[i].amount <= GetBuildCost(t, b)[i].amount
    {
      UnitPriceMonotone(Def(b), Storable[i], Owned(s, b), Owned(t, b));
    }
  }

  /** The flat term is charged on food too: no building has a food base cost,
      yet from the second unit on food costs exactly costFlat per unit owned. */
  lemma FoodPriceIsFlatTerm(s: State, b: Building)
    ensures GetBuildCost(s, b)[2].res == Food
    ensures GetBuildCost(s, b)[2].amount == Def(b).costFlat * Owned(s, b)
    ensures Owned(s, b) >= 1 ==> GetBuildCost(s, b)[2].amount > 0
  {
    var d, n := Def(b), Owned(s, b);
    assert BaseCost(d, Food) == 0;
    assert (0 as real) * Pow(1.0 + d.costPercent, n) == 0.0;
    assert ((d.costFlat * n) as real).Floor == d.costFlat * n;
  }

  /** A state whose resources cover a cost never has that cost above its
      storage ceilings: whatever canAfford accepts, costExceedsStorage rejects. */
  lemma AffordableFitsStorage(s: State, cost: Cost)
    requires Valid(s)
    requires CanAfford(s, cost)
    ensures !CostExceedsStorage(s, cost)
  {
    forall i | 0 <= i < |cost| && cost[i].res != Population
      ensures cost[i].amount as real <= Amount(s.resourceMax, cost[i].res)
    {
      assert Amount(s.resources, cost[i].res) >= cost[i].amount as real;
    }
  }

  /** Paying a cost of three prices, each covered, in wood, stone, food order. */
  lemma PaidInOrder(res: map<Resource, real>, c: Cost)
    requires |c| == 3 && c[0].res == Wood && c[1].res == Stone && c[2].res == Food
    requires Wood in res && Stone in res && Food in res
    requires res[Wood] >= c[0].amount as real && res[Stone] >= c[1].amount as real && res[Food] >= c[2].amount as real
    ensures Paid(res, c) == res[Wood := res[Wood] - c[0].amount as real]
                               [Stone := res[Stone] - c[1].amount as real]
                               [Food := res[Food] - c[2].amount as real]
  {
    var r1 := res[Wood := res[Wood] - c[0].amount as real];
    var r2 := r1[Stone := res[Stone] - c[1].amount as real];
    assert c[..1][..0] == [] && c[..2][..1] == c[..1] && c[..3][..2] == c[..2] && c[..3] == c;
    assert Paid(res, c[..1]) == r1 by {
      assert Paid(res, c[..1]) == Charge(Paid(res, c[..0]), c[0]);
    }
    assert Paid(res, c[..2]) == r2 by {
      assert Paid(res, c[..2]) == Charge(Paid(res, c[..1]), c[1]);
    }
    assert Paid(res, c) == Charge(Paid(res, c[..2]), c[2]);
  }

  /** Paying an affordable build cost takes exactly each price from its resource. */
  lemma PaidBuildCost(s: State, b: Building)
    requires WellFormed(s)
    requires CanAfford(s, GetBuildCost(s, b))
    ensures var c := GetBuildCost(s, b);
      && 0 <= c[0].amount && c[0].amount as real <= s.resources[Wood]
      && 0 <= c[1].amount && c[1].amount as real <= s.resources[Stone]
      && 0 <= c[2].amount && c[2].amount as real <= s.resources[Food]
      && Paid(s.resources, c) == s.resources[Wood := s.resources[Wood] - c[0].amount as real]
                                            [Stone := s.resources[Stone] - c[1].amount as real]
                                            [Food := s.resources[Food] - c[2].amount as real]
  {
    var c := GetBuildCost(s, b);
    assert c[0].res == Wood && c[1].res == Stone && c[2].res == Food;
    assert c[0].amount >= 0 && c[1].amount >= 0 && c[2].amount >= 0;
    assert Amount(s.resources, Wood) >= c[0].amount as real && Amount(s.resources, Stone) >= c[1].amount as real
        && Amount(s.resources, Food) >= c[2].amount as real;
    PaidInOrder(s.resources, c);
  }

  /** build, payment: when the gate passes, each price is subtracted from its
      resource, which stays at or above 0; the population resource is untouched. */
  lemma BuildPaysCost(s: State, b: Building)
    requires WellFormed(s)
    requires CanAfford(s, GetBuildCost(s, b))
    ensures var t, c := AfterBuild(s, b), GetBuildCost(s, b);
      && (forall r: Resource :: r in t.resources)
      && (forall i :: 0 <= i < |c| ==> t.resources[c[i].res] == s.resources[c[i].res] - c[i].amount as real >= 0.0)
      && t.resources[Population] == s.resources[Population]
  {
    PaidBuildCost(s, b);
  }

  /** Taking at most what is held of wood, stone and food leaves each between
      0 and what was held, and the population resource as it was. */
  lemma SpendWithin(res: map<Resource, real>, wood: real, stone: real, food: real)
    requires forall r: Resource :: r in res
    requires 0.0 <= wood <= res[Wood] && 0.0 <= stone <= res[Stone] && 0.0 <= food <= res[Food]
    ensures var u := res[Wood := res[Wood] - wood][Stone := res[Stone] - stone][Food := res[Food] - food];
      && (forall r: Resource :: r in u)
      && (forall r: Resource :: r != Population ==> 0.0 <= u[r] <= res[r])
      && u[Population] == res[Population]
  {
    var u := res[Wood := res[Wood] - wood][Stone := res[Stone] - stone][Food := res[Food] - food];
    forall r: Resource | r != Population
      ensures 0.0 <= u[r] <= res[r]
    {
      match r
      case Wood => case Stone => case Food =>
    }
  }

  /** build, payment per resource: no storable resource goes up or below 0,
      and the population resource is untouched. */
  lemma BuildSpends(s: State, b: Building)
    requires WellFormed(s)
    requires CanAfford(s, GetBuildCost(s, b))
    ensures var t := AfterBuild(s, b);
      && (forall r: Resource :: r in t.resources)
      && (forall r: Resource :: r != Population ==> 0.0 <= t.resources[r] <= s.resources[r])
      && t.resources[Population] == s.resources[Population]
  {
    PaidBuildCost(s, b);
    var c := GetBuildCost(s, b);
    SpendWithin(s.resources, c[0].amount as real, c[1].amount as real, c[2].amount as real);
  }

  /** build, count: only `b` gains one unit; jobs, population, accumulator and
      counter are untouched. */
  lemma BuildAddsOne(s: State, b: Building)
    requires WellFormed(s)
    ensures var t := AfterBuild(s, b);
      && (forall b' :: b' in t.buildings)
      && t.buildings[b] == s.buildings[b] + 1
      && (forall b' :: b' != b ==> t.buildings[b'] == s.buildings[b'])
      && t.jobsAssigned == s.jobsAssigned && t.population == s.population
      && t.popAccumulator == s.popAccumulator && t.ticks == s.ticks
  {
  }

  /** build, ceilings: a storage room raises each storable ceiling by 50, any
      other building leaves them; the population ceiling is untouched. */
  lemma BuildRaisesCeilings(s: State, b: Building)
    requires WellFormed(s)
    ensures var t := AfterBuild(s, b);
      && (forall r: Resource :: r in t.resourceMax)
      && (forall r :: r != Population ==> t.resourceMax[r] == s.resourceMax[r] + (if b == Storage then 50.0 else 0.0))
      && t.resourceMax[Population] == s.resourceMax[Population]
  {
    var t := AfterBuild(s, b);
    if b == Storage {
      var inc := Def(Storage).storageIncrease;
      forall r | r != Population
        ensures t.resourceMax[r] == s.resourceMax[r] + 50.0
      {
        assert r in inc && inc[r] == 50.0;
      }
    }
  }

  /** build, unlocks: the job the building unlocks becomes available for good,
      no other flag changes, and no unlocked job is locked again. */
  lemma BuildUnlocks(s: State, b: Building)
    ensures var t := AfterBuild(s, b);
      && (forall j :: Def(b).unlocksJob == Some(j) ==> IsUnlocked(t, j))
      && (forall j :: Def(b).unlocksJob != Some(j) ==> IsUnlocked(t, j) == IsUnlocked(s, j))
      && (forall j :: IsUnlocked(s, j) ==> IsUnlocked(t, j))
  {
  }

  /** build, log: exactly one event, naming the building and its new total, is
      put in front of the log, which keeps at most 200 entries. */
  lemma BuildLogs(s: State, b: Building)
    requires WellFormed(s)
    ensures var t := AfterBuild(s, b);
      && |t.events| == MinI(|s.events| + 1, MaxEvents)
      && t.events[0] == Built(Def(b).name, s.buildings[b] + 1)
      && t.events[1..] == s.events[..|t.events| - 1]
  {
  }
}

/** The catalog and the seed state of the settlement economy: the closed sets of
    resource, building and job kinds, the per-building parameters, the tick rate
    and the state a new game starts from. */
module Data {

  /** The four resource keys (RES). */
  datatype Resource = Population | Stone | Wood | Food

  /** The five building kinds of the catalog. */
  datatype Building = House | Storage | Forester | Quarry | Fields

  /** The four job kinds; Unemployed is never locked. */
  datatype Job = Unemployed | Farmer | Lumberjack | Stonemason

  datatype Option<T> = None | Some(value: T)

  const TicksPerSecond: nat := 20
  /** Length of one tick in milliseconds: 1000 / 20. */
  const TickMs: real := 1000.0 / TicksPerSecond as real

  /** One catalog entry. An absent optional field of the source is an empty map
      (`flatYield: null`, `jobPercentBoost: null`, no `storageIncrease`) or a
      capacity of 0 (no `popCapacityPer`). */
  datatype BuildingDef = BuildingDef(
    name: string,
    baseCost: map<Resource, nat>,
    costPercent: real,
    costFlat: nat,
    popCapacityPer: nat,
    storageIncrease: map<Resource, real>,
    flatYield: map<Resource, real>,
    jobPercentBoost: map<Resource, real>,
    unlocksJob: Option<Job>)

  /** The building catalog (BUILDINGS). */
  function Def(b: Building): BuildingDef
  {
    match b
    case House =>
      BuildingDef("House", map[Wood := 10, Stone := 5, Food := 0], 0.15, 2,
                  5, map[], map[], map[], None)
    case Storage =>
      BuildingDef("Storage room", map[Wood := 20, Stone := 10, Food := 0], 0.12, 5,
                  0, map[Wood := 50.0, Stone := 50.0, Food := 50.0], map[], map[], None)
    case Forester =>
      BuildingDef("Forester", map[Wood := 15, Stone := 8, Food := 0], 0.15, 3,
                  0, map[], map[], map[Wood := 0.10], Some(Lumberjack))
    case Quarry =>
      BuildingDef("Quarry", map[Wood := 12, Stone := 12, Food := 0], 0.15, 3,
                  0, map[], map[], map[Stone := 0.10], Some(Stonemason))
    case Fields =>
      BuildingDef("Fields", map[Wood := 8, Stone := 4, Food := 0], 0.12, 2,
                  0, map[], map[Food := 0.5], map[Food := 0.05], Some(Farmer))
  }

  /** The catalog's fixed shape: only a house holds people (5 each), only a
      storage room raises the ceilings (by 50 of wood, stone and food), and
      the forester, quarry and fields unlock the lumberjack, stonemason and
      farmer; a tick lasts 50 ms. */
  lemma CatalogShape(b: Building)
    ensures Def(b).popCapacityPer == if b == House then 5 else 0
    ensures Def(b).storageIncrease == if b == Storage then map[Wood := 50.0, Stone := 50.0, Food := 50.0] else map[]
    ensures Def(b).unlocksJob == match b
      case Forester => Some(Lumberjack)
      case Quarry => Some(Stonemason)
      case Fields => Some(Farmer)
      case _ => None
    ensures TickMs == 50.0
  {
  }

  /** The building kinds in the order the state's `buildings` record lists them. */
  const AllBuildings: seq<Building> := [House, Storage, Forester, Quarry, Fields]

  /** A line of the event log. The source renders each as text behind a
      wall-clock timestamp; the model keeps what the text says. */
  datatype Event =
    | Built(name: string, total: nat)
    | PopulationIncreased(applied: nat, now: nat)
    | PopulationDecreased(applied: nat, now: nat)

  /** The whole mutable game state (`this.state`). */
  datatype State = State(
    resources: map<Resource, real>,
    resourceMax: map<Resource, real>,
    buildings: map<Building, nat>,
    jobsAssigned: map<Job, int>,
    unlockedJobs: map<Job, bool>,
    population: nat,
    popAccumulator: real,
    events: seq<Event>,
    ticks: nat)

  lemma SeedKeys(s: State)
    requires s.resources.Keys == s.resourceMax.Keys == {Population, Stone, Wood, Food}
    requires s.buildings.Keys == {House, Storage, Forester, Quarry, Fields}
    requires s.jobsAssigned.Keys == {Unemployed, Farmer, Lumberjack, Stonemason}
    ensures forall r :: r in s.resources && r in s.resourceMax
    ensures forall b :: b in s.buildings
    ensures forall j :: j in s.jobsAssigned
  {
    forall r: Resource ensures r in s.resources {
      match r
      case Population => case Stone => case Wood => case Food =>
    }
    forall b: Building ensures b in s.buildings {
      match b
      case House => case Storage => case Forester => case Quarry => case Fields =>
    }
    forall j: Job ensures j in s.jobsAssigned {
      match j
      case Unemployed => case Farmer => case Lumberjack => case Stonemason =>
    }
  }

  /** createInitialState: one house, nobody living there yet, 100 of each
      storable resource under a ceiling of 200, every job locked. */
  function InitialState(): (s: State)
    ensures forall r :: r in s.resources && r in s.resourceMax
    ensures forall r :: r != Population ==> s.resources[r] <= s.resourceMax[r]
    ensures forall b :: b in s.buildings
    ensures forall j :: j in s.jobsAssigned && s.jobsAssigned[j] == 0
    ensures forall j :: j in s.unlockedJobs ==> !s.unlockedJobs[j]
  {
    var s := State(
      map[Population := 0.0, Stone := 100.0, Wood := 100.0, Food := 100.0],
      map[Population := 0.0, Stone := 200.0, Wood := 200.0, Food := 200.0],
      map[House := 1, Storage := 0, Forester := 0, Quarry := 0, Fields := 0],
      map[Unemployed := 0, Farmer := 0, Lumberjack := 0, Stonemason := 0],
      map[Farmer := false, Lumberjack := false, Stonemason := false],
      0, 0.0, [], 0);
    SeedKeys(s);
    s
  }
}

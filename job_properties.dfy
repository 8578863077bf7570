/** What job trimming, job assignment and unassignment promise. */
module JobProperties {
  import opened Data
  import opened Economy

  ghost predicate AllJobsKnown(jobs: map<Job, int>)
  {
    forall j: Job :: j in jobs
  }

  ghost predicate NonNegativeJobs(jobs: map<Job, int>)
  {
    forall j: Job :: j in jobs ==> jobs[j] >= 0
  }

  /** The trim written as a closed form, by priority: the excess of workers over
      the population is taken from lumberjacks first, then stonemasons, then
      farmers, and only what is left from the unemployed. */
  function ByPriority(jobs: map<Job, int>, population: nat): map<Job, int>
  {
    var excess := MaxI(0, JobTotal(jobs) - population);
    var fromLumber := MinI(Workers(jobs, Lumberjack), excess);
    var fromMason := MinI(Workers(jobs, Stonemason), excess - fromLumber);
    var fromFarmer := MinI(Workers(jobs, Farmer), excess - fromLumber - fromMason);
    var fromIdle := excess - fromLumber - fromMason - fromFarmer;
    jobs[Lumberjack := Workers(jobs, Lumberjack) - fromLumber]
        [Stonemason := Workers(jobs, Stonemason) - fromMason]
        [Farmer := Workers(jobs, Farmer) - fromFarmer]
        [Unemployed := Workers(jobs, Unemployed) - fromIdle]
  }

  /** One pass of the trim loop does not change the priority closed form. */
  lemma TrimOneByPriority(jobs: map<Job, int>, population: nat)
    requires AllJobsKnown(jobs) && NonNegativeJobs(jobs)
    requires JobTotal(jobs) > population
    ensures AllJobsKnown(TrimOne(jobs)) && NonNegativeJobs(TrimOne(jobs))
    ensures ByPriority(TrimOne(jobs), population) == ByPriority(jobs, population)
  {
    TrimOneRemovesOne(jobs, population);
  }

  /** The trim loop takes workers strictly by priority: it ends in the closed form. */
  lemma {:induction false} TrimmedByPriority(jobs: map<Job, int>, population: nat)
    requires AllJobsKnown(jobs) && NonNegativeJobs(jobs)
    ensures Trimmed(jobs, population) == ByPriority(jobs, population)
    decreases JobTotal(jobs) - population
  {
    if JobTotal(jobs) <= population {
      assert ByPriority(jobs, population) == jobs;
    } else {
      TrimOneRemovesOne(jobs, population);
      TrimOneByPriority(jobs, population);
      TrimmedByPriority(TrimOne(jobs), population);
    }
  }

  /** trimJobsAfterPopulationLoss: afterwards the four counts sum to at most the
      population (to exactly the population when it had to trim), no count
      goes negative or up, a stonemason is removed only once no lumberjack is
      left, a farmer only once neither is left, and unemployed only once all
      three jobs are empty. */
  lemma TrimProperties(jobs: map<Job, int>, population: nat)
    requires AllJobsKnown(jobs) && NonNegativeJobs(jobs)
    ensures var r := Trimmed(jobs, population);
      && AllJobsKnown(r)
      && JobTotal(r) == MinI(JobTotal(jobs), population)
      && (forall j: Job :: 0 <= r[j] <= jobs[j])
      && (r[Stonemason] < jobs[Stonemason] ==> r[Lumberjack] == 0)
      && (r[Farmer] < jobs[Farmer] ==> r[Lumberjack] == 0 && r[Stonemason] == 0)
      && (r[Unemployed] < jobs[Unemployed] ==> r[Lumberjack] == 0 && r[Stonemason] == 0 && r[Farmer] == 0)
  {
    TrimmedByPriority(jobs, population);
  }

  /** The assign guard counts unemployed: once a tick has made the four counts
      sum to the population, every request for one or more workers is refused. */
  lemma AssignRefusedWhenCountsFillPopulation(s: State, j: Job, amount: nat)
    requires JobTotal(s.jobsAssigned) == s.population
    requires amount >= 1
    ensures !AssignAllowed(s, j, amount)
  {
  }

  /** An accepted assignJob adds `amount` to the job, keeps the other real jobs,
      and leaves unemployed as the population minus the three jobs. */
  lemma AssignEffects(s: State, j: Job, amount: nat)
    requires AllJobsKnown(s.jobsAssigned) && NonNegativeJobs(s.jobsAssigned)
    requires AssignAllowed(s, j, amount)
    ensures var t := AfterAssign(s, j, amount).jobsAssigned;
      && AllJobsKnown(t) && NonNegativeJobs(t)
      && (j != Unemployed ==> t[j] == s.jobsAssigned[j] + amount)
      && (forall k: Job :: k != j && k != Unemployed ==> t[k] == s.jobsAssigned[k])
      && Employed(t) <= s.population
      && t[Unemployed] == s.population - Employed(t)
      && JobTotal(t) == s.population
  {
  }

  /** unassignJob leaves unemployed as it was, so taking a worker out of a real
      job lowers the total below what it was: the counts no longer sum to the
      population until the next tick recomputes unemployed. */
  lemma UnassignLeavesUnemployedStale(s: State, j: Job, amount: nat)
    requires AllJobsKnown(s.jobsAssigned) && NonNegativeJobs(s.jobsAssigned)
    requires j != Unemployed
    ensures var t := AfterUnassign(s, j, amount).jobsAssigned;
      && NonNegativeJobs(t)
      && t[Unemployed] == s.jobsAssigned[Unemployed]
      && t[j] == MaxI(0, s.jobsAssigned[j] - amount)
      && JobTotal(t) == JobTotal(s.jobsAssigned) - MinI(amount, s.jobsAssigned[j])
      && Employed(t) <= Employed(s.jobsAssigned)
  {
  }
}

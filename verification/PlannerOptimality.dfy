/**
  What a plan may use, stated over whole plans: sums per resource, sums per quota
  pool, pairwise write-scope conflicts.  Nothing here mentions the order in which
  the search visits choices, except for the quota budget of pools that also serve
  reserve-allowed jobs, where the order is part of the meaning.
 */
module PlannerFeasibility {
  import opened PlannerModel

  /** Everything a choice draws on, apart from quota. */
  datatype Resource =
    | PoolSlot(pool: nat) | HostSlot(host: nat)
    | Cpu(host: nat) | Ram(host: nat) | Disk(host: nat) | Gpu(host: nat)

  ghost predicate InRange(inst: Instance, r: Resource) {
    if r.PoolSlot? then r.pool < inst.pools else r.host < inst.hosts
  }

  function Available(inst: Instance, cap: Capacity, r: Resource): int
    requires Fits(inst, cap) && InRange(inst, r)
  {
    match r
    case PoolSlot(p) => cap.poolSlots[p]
    case HostSlot(h) => cap.hostSlots[h]
    case Cpu(h) => cap.cpu[h]
    case Ram(h) => cap.ram[h]
    case Disk(h) => cap.disk[h]
    case Gpu(h) => cap.gpu[h]
  }

  /** The resources a choice is checked against. */
  predicate Draws(inst: Instance, c: Choice, r: Resource)
    requires c in inst.table
  {
    match r
    case PoolSlot(p) => p == c.pool
    case HostSlot(h) => h == c.host || h == inst.table[c].agent
    case Cpu(h) => h == c.host
    case Ram(h) => h == c.host
    case Disk(h) => h == c.host
    case Gpu(h) => h == c.host
  }

  /** How much of `r` the choice takes: one slot per host it uses, whether as workload
      host, agent host or both. */
  function Demand(inst: Instance, c: Choice, r: Resource): nat
    requires WellFormed(inst) && c in inst.table
  {
    if !Draws(inst, c, r) then 0
    else match r
      case PoolSlot(_) => 1
      case HostSlot(_) => 1
      case Cpu(_) => inst.jobs[c.job].cpuCores
      case Ram(_) => RamUnits(inst.jobs[c.job])
      case Disk(_) => DiskUnits(inst.jobs[c.job])
      case Gpu(_) => inst.jobs[c.job].gpuCount
  }

  ghost predicate Tabled(inst: Instance, plan: seq<Choice>) {
    forall k :: 0 <= k < |plan| ==> plan[k] in inst.table
  }

  function Usage(inst: Instance, plan: seq<Choice>, r: Resource): nat
    requires WellFormed(inst) && Tabled(inst, plan)
  {
    if plan == [] then 0 else Demand(inst, plan[0], r) + Usage(inst, plan[1..], r)
  }

  /** Quota units the plan charges to one pool. */
  function Spend(inst: Instance, plan: seq<Choice>, pool: nat): nat
    requires WellFormed(inst) && Tabled(inst, plan)
  {
    if plan == [] then 0
    else (if plan[0].pool == pool then CostUnits(inst.table[plan[0]]) else 0) + Spend(inst, plan[1..], pool)
  }

  function Score(inst: Instance, plan: seq<Choice>): real
    requires Tabled(inst, plan)
  {
    if plan == [] then 0.0 else inst.table[plan[0]].score + Score(inst, plan[1..])
  }

  /** The sums of a plan with a single choice. */
  lemma SumsOfOne(inst: Instance, c: Choice)
    requires WellFormed(inst) && c in inst.table
    ensures Tabled(inst, [c]) && Score(inst, [c]) == inst.table[c].score
    ensures Spend(inst, [c], c.pool) == CostUnits(inst.table[c])
    ensures forall r :: Usage(inst, [c], r) == Demand(inst, c, r)
  {
    assert [c][1..] == [];
    forall r ensures Usage(inst, [c], r) == Demand(inst, c, r) {
      assert Usage(inst, [c], r) == Demand(inst, c, r) + Usage(inst, [], r);
    }
  }

  ghost predicate DistinctJobs(plan: seq<Choice>) {
    forall j, k :: 0 <= j < k < |plan| ==> plan[j].job != plan[k].job
  }

  ghost predicate ConflictFree(inst: Instance, plan: seq<Choice>)
    requires WellFormed(inst) && Tabled(inst, plan)
  {
    forall j, k :: 0 <= j < |plan| && 0 <= k < |plan| && j != k ==>
      plan[j].job !in inst.conflicts[plan[k].job]
  }

  /** Every resource that some choice draws on covers the demand of the whole plan. */
  ghost predicate WithinResources(inst: Instance, cap: Capacity, plan: seq<Choice>)
    requires WellFormed(inst) && Fits(inst, cap) && Tabled(inst, plan)
  {
    forall k, r :: 0 <= k < |plan| && InRange(inst, r) && Draws(inst, plan[k], r) ==>
      Usage(inst, plan, r) <= Available(inst, cap, r)
  }

  /** A job without access to the reserve is taken only while its pool's spending,
      including its own, is within the budget. */
  ghost predicate WithinBudgets(inst: Instance, cap: Capacity, plan: seq<Choice>)
    requires WellFormed(inst) && Fits(inst, cap) && Tabled(inst, plan)
  {
    forall k :: 0 <= k < |plan| && !ReserveAllowed(inst.jobs[plan[k].job]) ==>
      Spend(inst, plan[..k + 1], plan[k].pool) <= cap.budgets[plan[k].pool]
  }

  ghost predicate Feasible(inst: Instance, cap: Capacity, lanes: int, plan: seq<Choice>)
    requires WellFormed(inst) && Fits(inst, cap)
  {
    && Tabled(inst, plan)
    && DistinctJobs(plan)
    && (plan == [] || |plan| <= lanes)
    && ConflictFree(inst, plan)
    && WithinResources(inst, cap, plan)
    && WithinBudgets(inst, cap, plan)
  }

  /** The same plan executed one choice at a time, each checked against what the
      earlier ones left over and only against the jobs already chosen. */
  ghost predicate Admits(inst: Instance, cap: Capacity, chosen: set<nat>, lanes: int, plan: seq<Choice>)
    requires WellFormed(inst) && Fits(inst, cap)
    decreases |plan|
  {
    plan == [] ||
    (var c := plan[0];
     && c in inst.table
     && lanes > 0
     && c.job !in chosen
     && inst.conflicts[c.job] * chosen == {}
     && Admissible(inst, cap, c)
     && Admits(inst, Charge(inst, cap, c), chosen + {c.job}, lanes - 1, plan[1..]))
  }

  // ----- from step-by-step admission to sums over the plan, and back

  lemma DemandBoundsUsage(inst: Instance, plan: seq<Choice>, k: nat, r: Resource)
    requires WellFormed(inst) && Tabled(inst, plan) && k < |plan|
    ensures Demand(inst, plan[k], r) <= Usage(inst, plan, r)
  {
    if k > 0 { DemandBoundsUsage(inst, plan[1..], k - 1, r); }
  }

  lemma {:induction false} UnusedMeansZero(inst: Instance, plan: seq<Choice>, r: Resource)
    requires WellFormed(inst) && Tabled(inst, plan)
    requires forall k :: 0 <= k < |plan| ==> !Draws(inst, plan[k], r)
    ensures Usage(inst, plan, r) == 0
  {
    if plan != [] { UnusedMeansZero(inst, plan[1..], r); }
  }

  lemma ChargeTakesDemand(inst: Instance, cap: Capacity, c: Choice, r: Resource)
    requires WellFormed(inst) && Fits(inst, cap) && c in inst.table && InRange(inst, r)
    ensures Available(inst, Charge(inst, cap, c), r) == Available(inst, cap, r) - Demand(inst, c, r)
  {
  }

  lemma AdmissibleMeansEnough(inst: Instance, cap: Capacity, c: Choice)
    requires WellFormed(inst) && Fits(inst, cap) && c in inst.table
    ensures Admissible(inst, cap, c) <==>
      && (forall r :: InRange(inst, r) && Draws(inst, c, r) ==> Demand(inst, c, r) <= Available(inst, cap, r))
      && (ReserveAllowed(inst.jobs[c.job]) || CostUnits(inst.table[c]) <= cap.budgets[c.pool])
  {
    if forall r :: InRange(inst, r) && Draws(inst, c, r) ==> Demand(inst, c, r) <= Available(inst, cap, r) {
      var agent := inst.table[c].agent;
      assert Draws(inst, c, PoolSlot(c.pool)) && Draws(inst, c, HostSlot(c.host)) && Draws(inst, c, HostSlot(agent));
      assert Draws(inst, c, Cpu(c.host)) && Draws(inst, c, Ram(c.host));
      assert Draws(inst, c, Disk(c.host)) && Draws(inst, c, Gpu(c.host));
    }
  }

  /** Resources: the rest fits in what `c` leaves over, and `c` fits now, exactly when
      the whole plan fits. */
  lemma ResourcesStep(inst: Instance, cap: Capacity, plan: seq<Choice>)
    requires WellFormed(inst) && Fits(inst, cap) && Tabled(inst, plan) && plan != []
    ensures Tabled(inst, plan[1..])
    ensures WithinResources(inst, cap, plan) <==>
      && (forall r :: InRange(inst, r) && Draws(inst, plan[0], r) ==>
            Demand(inst, plan[0], r) <= Available(inst, cap, r))
      && WithinResources(inst, Charge(inst, cap, plan[0]), plan[1..])
  {
    var c, rest := plan[0], plan[1..];
    var left := Charge(inst, cap, c);
    if WithinResources(inst, cap, plan) {
      forall k, r | 0 <= k < |rest| && InRange(inst, r) && Draws(inst, rest[k], r)
        ensures Usage(inst, rest, r) <= Available(inst, left, r)
      {
        assert Draws(inst, plan[k + 1], r);
        ChargeTakesDemand(inst, cap, c, r);
      }
      forall r | InRange(inst, r) && Draws(inst, c, r)
        ensures Demand(inst, c, r) <= Available(inst, cap, r)
      {
        assert Draws(inst, plan[0], r);
        DemandBoundsUsage(inst, plan, 0, r);
      }
    }
    if && (forall r :: InRange(inst, r) && Draws(inst, c, r) ==> Demand(inst, c, r) <= Available(inst, cap, r))
       && WithinResources(inst, left, rest)
    {
      forall k, r | 0 <= k < |plan| && InRange(inst, r) && Draws(inst, plan[k], r)
        ensures Usage(inst, plan, r) <= Available(inst, cap, r)
      {
        ChargeTakesDemand(inst, cap, c, r);
        if k > 0 { assert plan[k] == rest[k - 1]; }
        if j :| 0 <= j < |rest| && Draws(inst, rest[j], r) {
          assert Usage(inst, rest, r) <= Available(inst, left, r);
        } else {
          UnusedMeansZero(inst, rest, r);
        }
      }
    }
  }

  lemma SpendIncludesLast(inst: Instance, plan: seq<Choice>, k: nat)
    requires WellFormed(inst) && Tabled(inst, plan) && k < |plan|
    ensures Spend(inst, plan[..k + 1], plan[k].pool) >= CostUnits(inst.table[plan[k]])
  {
    if k > 0 {
      assert plan[..k + 1][1..] == plan[1..][..k];
      SpendIncludesLast(inst, plan[1..], k - 1);
    }
  }

  /** Budgets: the clamped remainder carries the same information as the sum, because
      no choice is free. */
  lemma BudgetsStep(inst: Instance, cap: Capacity, plan: seq<Choice>)
    requires WellFormed(inst) && Fits(inst, cap) && Tabled(inst, plan) && plan != []
    ensures Tabled(inst, plan[1..])
    ensures WithinBudgets(inst, cap, plan) <==>
      && (ReserveAllowed(inst.jobs[plan[0].job]) || CostUnits(inst.table[plan[0]]) <= cap.budgets[plan[0].pool])
      && WithinBudgets(inst, Charge(inst, cap, plan[0]), plan[1..])
  {
    var c, rest := plan[0], plan[1..];
    var left := Charge(inst, cap, c);
    assert plan[..1] == [c];
    assert Spend(inst, plan[..1], c.pool) == CostUnits(inst.table[c]) + Spend(inst, [], c.pool) by {
      assert plan[..1][1..] == [];
    }
    forall k | 0 <= k < |rest|
      ensures Spend(inst, plan[..k + 2], rest[k].pool) <= cap.budgets[rest[k].pool] <==>
              Spend(inst, rest[..k + 1], rest[k].pool) <= left.budgets[rest[k].pool]
    {
      assert plan[..k + 2][1..] == rest[..k + 1];
      SpendIncludesLast(inst, rest, k);
    }
    if WithinBudgets(inst, cap, plan) {
      forall k | 0 <= k < |rest| && !ReserveAllowed(inst.jobs[rest[k].job])
        ensures Spend(inst, rest[..k + 1], rest[k].pool) <= left.budgets[rest[k].pool]
      {
        assert plan[k + 1] == rest[k];
      }
    }
    if && (ReserveAllowed(inst.jobs[c.job]) || CostUnits(inst.table[c]) <= cap.budgets[c.pool])
       && WithinBudgets(inst, left, rest)
    {
      forall k | 0 <= k < |plan| && !ReserveAllowed(inst.jobs[plan[k].job])
        ensures Spend(inst, plan[..k + 1], plan[k].pool) <= cap.budgets[plan[k].pool]
      {
        if k > 0 { assert plan[k] == rest[k - 1]; }
      }
    }
  }

  ghost predicate Avoids(inst: Instance, chosen: set<nat>, plan: seq<Choice>)
    requires WellFormed(inst) && Tabled(inst, plan)
  {
    forall k :: 0 <= k < |plan| ==> plan[k].job !in chosen && inst.conflicts[plan[k].job] * chosen == {}
  }

  lemma ConflictsStep(inst: Instance, chosen: set<nat>, plan: seq<Choice>)
    requires WellFormed(inst) && Tabled(inst, plan) && plan != []
    ensures Tabled(inst, plan[1..])
    ensures DistinctJobs(plan) && ConflictFree(inst, plan) && Avoids(inst, chosen, plan) <==>
      && plan[0].job !in chosen && inst.conflicts[plan[0].job] * chosen == {}
      && DistinctJobs(plan[1..]) && ConflictFree(inst, plan[1..])
      && Avoids(inst, chosen + {plan[0].job}, plan[1..])
  {
    var c, rest := plan[0], plan[1..];
    assert forall k :: 0 <= k < |rest| ==> rest[k] == plan[k + 1];
    if DistinctJobs(plan) && ConflictFree(inst, plan) && Avoids(inst, chosen, plan) {
      assert plan[0] == c;
      forall k | 0 <= k < |rest|
        ensures rest[k].job !in chosen + {c.job} && inst.conflicts[rest[k].job] * (chosen + {c.job}) == {}
      {
        assert plan[k + 1] == rest[k];
        assert plan[0].job !in inst.conflicts[plan[k + 1].job];
      }
    }
    if && c.job !in chosen && inst.conflicts[c.job] * chosen == {}
       && DistinctJobs(rest) && ConflictFree(inst, rest) && Avoids(inst, chosen + {c.job}, rest)
    {
      forall k | 0 < k < |plan|
        ensures plan[k].job != c.job && c.job !in inst.conflicts[plan[k].job] && plan[k].job !in inst.conflicts[c.job]
        ensures plan[k].job !in chosen && inst.conflicts[plan[k].job] * chosen == {}
      {
        assert plan[k] == rest[k - 1];
        var clashes := inst.conflicts[plan[k].job];
        assert clashes * (chosen + {c.job}) == {};
        assert clashes * {c.job} <= clashes * (chosen + {c.job});
        assert clashes * chosen <= clashes * (chosen + {c.job});
        assert c.job !in clashes * {c.job};
      }
      forall j, k | 0 <= j < |plan| && 0 <= k < |plan| && j != k
        ensures plan[j].job !in inst.conflicts[plan[k].job] && plan[j].job != plan[k].job
      {
        if j > 0 && k > 0 {
          assert plan[j] == rest[j - 1] && plan[k] == rest[k - 1];
        }
      }
    }
  }

  /** Step-by-step admission, each job checked only against earlier ones, is the same
      as feasibility of the whole plan. */
  lemma {:induction false} AdmitsMeansFeasible(
      inst: Instance, cap: Capacity, chosen: set<nat>, lanes: int, plan: seq<Choice>)
    requires WellFormed(inst) && Fits(inst, cap)
    ensures Admits(inst, cap, chosen, lanes, plan) <==>
      Feasible(inst, cap, lanes, plan) && Avoids(inst, chosen, plan)
    decreases |plan|
  {
    if plan != [] && Tabled(inst, plan) {
      var c, rest := plan[0], plan[1..];
      AdmissibleMeansEnough(inst, cap, c);
      ResourcesStep(inst, cap, plan);
      BudgetsStep(inst, cap, plan);
      ConflictsStep(inst, chosen, plan);
      AdmitsMeansFeasible(inst, Charge(inst, cap, c), chosen + {c.job}, lanes - 1, rest);
    } else if plan != [] && plan[0] in inst.table {
      var c, rest := plan[0], plan[1..];
      AdmitsMeansFeasible(inst, Charge(inst, cap, c), chosen + {c.job}, lanes - 1, rest);
      assert !Tabled(inst, rest) by {
        var k :| 0 <= k < |plan| && plan[k] !in inst.table;
        assert rest[k - 1] == plan[k];
      }
    }
  }
}

/** The recursion returns the best plan there is. */
module PlannerOptimality {
  import opened PlannerModel
  import opened PlannerFeasibility

  ghost predicate InJobOrder(plan: seq<Choice>, from: nat) {
    && (forall k :: 0 <= k < |plan| ==> from <= plan[k].job)
    && (forall j, k :: 0 <= j < k < |plan| ==> plan[j].job < plan[k].job)
  }

  /** `o` is a plan for jobs `i` onwards that can be carried out step by step and
      earns exactly its stated score. */
  ghost predicate Sound(inst: Instance, i: nat, cap: Capacity, chosen: set<nat>, lanes: int, o: Outcome)
    requires WellFormed(inst) && Fits(inst, cap)
  {
    && InJobOrder(o.choices, i)
    && Admits(inst, cap, chosen, lanes, o.choices)
    && Tabled(inst, o.choices)
    && o.score == Score(inst, o.choices)
  }

  ghost predicate Earlier(chosen: set<nat>, i: nat) { forall j :: j in chosen ==> j < i }

  lemma ConsKeepsOrder(c: Choice, rest: seq<Choice>)
    requires InJobOrder(rest, c.job + 1)
    ensures InJobOrder([c] + rest, c.job)
  {
  }

  lemma TailKeepsOrder(plan: seq<Choice>, from: nat)
    requires plan != [] && InJobOrder(plan, from)
    ensures InJobOrder(plan[1..], plan[0].job + 1)
  {
  }

  lemma TakeSound(inst: Instance, cap: Capacity, chosen: set<nat>, lanes: int, c: Choice)
    requires WellFormed(inst) && Fits(inst, cap) && c in inst.table && lanes > 0
    requires Earlier(chosen, c.job) && inst.conflicts[c.job] * chosen == {} && Admissible(inst, cap, c)
    requires var left := Charge(inst, cap, c);
             Sound(inst, c.job + 1, left, chosen + {c.job}, lanes - 1,
                   Best(inst, c.job + 1, left, chosen + {c.job}, lanes - 1))
    ensures Sound(inst, c.job, cap, chosen, lanes, Take(inst, cap, chosen, lanes, c))
  {
    var future := Best(inst, c.job + 1, Charge(inst, cap, c), chosen + {c.job}, lanes - 1);
    ConsKeepsOrder(c, future.choices);
    var plan := [c] + future.choices;
    assert plan[0] == c && plan[1..] == future.choices;
    assert Take(inst, cap, chosen, lanes, c) == Outcome(inst.table[c].score + future.score, plan);
    assert Tabled(inst, plan) by {
      assert forall k :: 1 <= k < |plan| ==> plan[k] == future.choices[k - 1];
    }
  }

  lemma {:induction false} ScanSound(inst: Instance, i: nat, cap: Capacity, chosen: set<nat>, lanes: int,
                                     p: nat, h: nat, best: Outcome)
    requires WellFormed(inst) && Fits(inst, cap) && i < |inst.jobs| && p <= inst.pools && h <= inst.hosts
    requires lanes > 0 && Earlier(chosen, i) && inst.conflicts[i] * chosen == {}
    requires Sound(inst, i, cap, chosen, lanes, best)
    ensures Sound(inst, i, cap, chosen, lanes, Scan(inst, i, cap, chosen, lanes, p, h, best))
    decreases |inst.jobs| - i, 0, inst.pools - p, inst.hosts - h
  {
    if p == inst.pools {
    } else if h == inst.hosts {
      ScanSound(inst, i, cap, chosen, lanes, p + 1, 0, best);
    } else {
      var c := Choice(i, p, h);
      if Admissible(inst, cap, c) {
        BestSound(inst, i + 1, Charge(inst, cap, c), chosen + {i}, lanes - 1);
        TakeSound(inst, cap, chosen, lanes, c);
      }
      ScanSound(inst, i, cap, chosen, lanes, p, h + 1, Improve(inst, cap, chosen, lanes, c, best));
    }
  }

  lemma {:induction false} BestSound(inst: Instance, i: nat, cap: Capacity, chosen: set<nat>, lanes: int)
    requires WellFormed(inst) && Fits(inst, cap) && i <= |inst.jobs| && Earlier(chosen, i)
    ensures Sound(inst, i, cap, chosen, lanes, Best(inst, i, cap, chosen, lanes))
    decreases |inst.jobs| - i, 1, 0, 0
  {
    if i < |inst.jobs| && lanes > 0 {
      BestSound(inst, i + 1, cap, chosen, lanes);
      if inst.conflicts[i] * chosen == {} {
        ScanSound(inst, i, cap, chosen, lanes, 0, 0, Best(inst, i + 1, cap, chosen, lanes));
      }
    }
  }

  /** The scan never loses ground and beats every admissible choice from (p, h) on. */
  lemma {:induction false} ScanDominates(inst: Instance, i: nat, cap: Capacity, chosen: set<nat>, lanes: int,
                                         p: nat, h: nat, best: Outcome, c: Choice)
    requires WellFormed(inst) && Fits(inst, cap) && i < |inst.jobs| && p <= inst.pools && h <= inst.hosts
    requires c.job == i && c.pool < inst.pools && c.host < inst.hosts && Admissible(inst, cap, c)
    ensures Scan(inst, i, cap, chosen, lanes, p, h, best).score >= best.score
    ensures p < c.pool || (p == c.pool && h <= c.host) ==>
      Scan(inst, i, cap, chosen, lanes, p, h, best).score >= Take(inst, cap, chosen, lanes, c).score
    decreases inst.pools - p, inst.hosts - h
  {
    if p == inst.pools {
    } else if h == inst.hosts {
      ScanDominates(inst, i, cap, chosen, lanes, p + 1, 0, best, c);
    } else {
      ScanDominates(inst, i, cap, chosen, lanes, p, h + 1,
                    Improve(inst, cap, chosen, lanes, Choice(i, p, h), best), c);
    }
  }

  lemma {:induction false} ScanKeeps(inst: Instance, i: nat, cap: Capacity, chosen: set<nat>, lanes: int,
                                     p: nat, h: nat, best: Outcome)
    requires WellFormed(inst) && Fits(inst, cap) && i < |inst.jobs| && p <= inst.pools && h <= inst.hosts
    ensures Scan(inst, i, cap, chosen, lanes, p, h, best).score >= best.score
    decreases inst.pools - p, inst.hosts - h
  {
    if p == inst.pools {
    } else if h == inst.hosts {
      ScanKeeps(inst, i, cap, chosen, lanes, p + 1, 0, best);
    } else {
      ScanKeeps(inst, i, cap, chosen, lanes, p, h + 1,
                Improve(inst, cap, chosen, lanes, Choice(i, p, h), best));
    }
  }

  /** No plan that can be carried out in job order scores more. */
  lemma {:induction false} BestDominates(inst: Instance, i: nat, cap: Capacity, chosen: set<nat>, lanes: int,
                                         plan: seq<Choice>)
    requires WellFormed(inst) && Fits(inst, cap) && i <= |inst.jobs| && Earlier(chosen, i)
    requires InJobOrder(plan, i) && Tabled(inst, plan) && Admits(inst, cap, chosen, lanes, plan)
    ensures Score(inst, plan) <= Best(inst, i, cap, chosen, lanes).score
    decreases |inst.jobs| - i
  {
    if i < |inst.jobs| && lanes > 0 {
      var skip := Best(inst, i + 1, cap, chosen, lanes);
      if plan == [] || plan[0].job > i {
        BestDominates(inst, i + 1, cap, chosen, lanes, plan);
        ScanKeeps(inst, i, cap, chosen, lanes, 0, 0, skip);
      } else {
        var c, rest := plan[0], plan[1..];
        TailKeepsOrder(plan, i);
        BestDominates(inst, i + 1, Charge(inst, cap, c), chosen + {i}, lanes - 1, rest);
        ScanDominates(inst, i, cap, chosen, lanes, 0, 0, skip, c);
      }
    }
  }

  /** Optimality: the recursion's answer is feasible as a whole, its score is the sum
      of its choices, and no feasible plan in job order scores higher. */
  lemma SolveIsOptimal(inst: Instance, cap: Capacity, lanes: int)
    requires WellFormed(inst) && Fits(inst, cap)
    ensures var o := Best(inst, 0, cap, {}, lanes);
      && Feasible(inst, cap, lanes, o.choices)
      && InJobOrder(o.choices, 0)
      && o.score == Score(inst, o.choices)
      && forall plan :: Feasible(inst, cap, lanes, plan) && InJobOrder(plan, 0) ==> Score(inst, plan) <= o.score
  {
    var o := Best(inst, 0, cap, {}, lanes);
    BestSound(inst, 0, cap, {}, lanes);
    AdmitsMeansFeasible(inst, cap, {}, lanes, o.choices);
    forall plan | Feasible(inst, cap, lanes, plan) && InJobOrder(plan, 0)
      ensures Score(inst, plan) <= o.score
    {
      AdmitsMeansFeasible(inst, cap, {}, lanes, plan);
      BestDominates(inst, 0, cap, {}, lanes, plan);
    }
  }
}

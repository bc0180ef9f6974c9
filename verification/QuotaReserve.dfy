/**
  Quota budgets and what they guarantee: how a pool's reported balance and reserve turn
  into integer budget units, and why the plan cannot take a pool below its reserve on
  behalf of a job that has no access to it.
 */
module QuotaReserve {
  import opened Wrappers
  import opened PlannerModel
  import opened PlannerFeasibility
  import opened PlannerOptimality
  import opened PlannerOrder

  /** What to do with a pool whose balance is not reported. */
  datatype UnknownPolicy = FailClosed | PilotCap | OtherPolicy

  /** A pool as the planner sees it; `reserve` is absent when it does not parse as a finite number. */
  datatype PoolState = PoolState(
    profiled: bool,
    blockedHealth: bool,
    remaining: Option<real>,
    reserve: Option<real>,
    unknownPolicy: UnknownPolicy,
    pilotCap: real,
    maxConcurrency: int,
    inflight: int)

  datatype Offer = Offer(budget: int, slots: int)

  /** Conversion to an integer drops the fraction, towards zero. */
  function Truncate(x: real): int { if x >= 0.0 then x.Floor else -((-x).Floor) }

  function ReservePercent(raw: Option<real>): (r: Option<int>)
    ensures r.Some? ==> raw.Some? && 0 <= r.value <= 100 && r.value as real <= raw.value < r.value as real + 1.0
    ensures r.None? <==> raw.None? || raw.value < 0.0 || raw.value > 100.0
  {
    if raw.None? || raw.value < 0.0 || raw.value > 100.0 then None else Some(Truncate(raw.value))
  }

  function KnownBudget(remaining: real, reserve: int): nat { Max(0, (Truncate(remaining) - reserve) * 10) }

  /** The budget and slots a pool brings to the plan, if it takes part at all. */
  function Offered(pool: PoolState): Option<Offer> {
    var reserve := ReservePercent(pool.reserve);
    var slots := Max(0, pool.maxConcurrency - pool.inflight);
    if !pool.profiled || pool.blockedHealth || reserve.None? then None
    else if pool.remaining.Some? then Some(Offer(KnownBudget(pool.remaining.value, reserve.value), slots))
    else if pool.unknownPolicy.FailClosed? || pool.pilotCap <= 0.0 then None
    else Some(Offer(Max(1, Ceil(pool.pilotCap * 10.0)),
                    if pool.unknownPolicy.PilotCap? && slots > 1 then 1 else slots))
  }

  ghost predicate Increasing(ids: seq<nat>) { forall j, k :: 0 <= j < k < |ids| ==> ids[j] < ids[k] }

  /** `ids` lists exactly the participating pools, with their budgets and slots. */
  ghost predicate Gathered(pools: seq<PoolState>, n: nat, ids: seq<nat>, budgets: seq<int>, slots: seq<int>)
    requires n <= |pools|
  {
    && |ids| == |budgets| == |slots|
    && Increasing(ids)
    && (forall k :: 0 <= k < |ids| ==> ids[k] < n && Offered(pools[ids[k]]) == Some(Offer(budgets[k], slots[k])))
    && (forall p :: 0 <= p < n && Offered(pools[p]).Some? ==> p in ids)
  }

  method GatherPools(pools: seq<PoolState>) returns (ids: seq<nat>, budgets: seq<int>, slots: seq<int>)
    ensures Gathered(pools, |pools|, ids, budgets, slots)
    ensures forall k :: 0 <= k < |budgets| ==> budgets[k] >= 0
  {
    ids, budgets, slots := [], [], [];
    for p := 0 to |pools|
      invariant Gathered(pools, p, ids, budgets, slots)
      invariant forall k :: 0 <= k < |budgets| ==> budgets[k] >= 0
    {
      var offer := Offered(pools[p]);
      if offer.Some? {
        ids, budgets, slots := ids + [p], budgets + [offer.value.budget], slots + [offer.value.slots];
      }
    }
  }

  /** Estimated percent of one pool that the plan uses. */
  function Percent(inst: Instance, plan: seq<Choice>, pool: nat): (r: real)
    requires WellFormed(inst) && Tabled(inst, plan)
    ensures r >= 0.0
  {
    if plan == [] then 0.0
    else
      var last := plan[|plan| - 1];
      Percent(inst, plan[..|plan| - 1], pool) + (if last.pool == pool then inst.table[last].costPercent else 0.0)
  }

  /** The running projection of a pool's balance, clamped at zero after every choice. */
  function Projected(inst: Instance, plan: seq<Choice>, pool: nat, remaining: real): real
    requires WellFormed(inst) && Tabled(inst, plan)
  {
    if plan == [] then remaining
    else
      var last := plan[|plan| - 1];
      var before := Projected(inst, plan[..|plan| - 1], pool, remaining);
      if last.pool != pool then before
      else if before - inst.table[last].costPercent < 0.0 then 0.0
      else before - inst.table[last].costPercent
  }

  /** Units round every cost up, so they never understate the percentage. */
  lemma {:induction false} UnitsCoverPercent(inst: Instance, plan: seq<Choice>, pool: nat)
    requires WellFormed(inst) && Tabled(inst, plan)
    ensures Percent(inst, plan, pool) * 10.0 <= Spend(inst, plan, pool) as real
  {
    if plan != [] {
      var init, last := plan[..|plan| - 1], plan[|plan| - 1];
      UnitsCoverPercent(inst, init, pool);
      assert plan == init + [last];
      SpendConcat(inst, init, [last], pool);
      assert [last][1..] == [];
      assert Spend(inst, [last], pool) == if last.pool == pool then CostUnits(inst.table[last]) else 0;
    }
  }

  /** A balance that is not negative ends at the clamped difference of the sums. */
  lemma {:induction false} ProjectedIsClamped(inst: Instance, plan: seq<Choice>, pool: nat, remaining: real)
    requires WellFormed(inst) && Tabled(inst, plan) && remaining >= 0.0
    ensures var left := remaining - Percent(inst, plan, pool);
      Projected(inst, plan, pool, remaining) == if left < 0.0 then 0.0 else left
  {
    if plan != [] { ProjectedIsClamped(inst, plan[..|plan| - 1], pool, remaining); }
  }

  lemma ChargeBudget(inst: Instance, cap: Capacity, c: Choice, pool: nat)
    requires WellFormed(inst) && Fits(inst, cap) && c in inst.table && pool < inst.pools
    ensures Charge(inst, cap, c).budgets[pool] ==
      Max(0, cap.budgets[pool] - (if c.pool == pool then CostUnits(inst.table[c]) else 0))
  {
  }

  /** The budget of a pool after a plan is the clamped difference of the sums. */
  ghost predicate BudgetLeft(inst: Instance, cap: Capacity, plan: seq<Choice>, pool: nat)
    requires WellFormed(inst) && Fits(inst, cap) && Tabled(inst, plan) && pool < inst.pools
  {
    ChargeAll(inst, cap, plan).budgets[pool] == Max(0, cap.budgets[pool] - Spend(inst, plan, pool))
  }

  lemma BudgetOneMore(inst: Instance, cap: Capacity, plan: seq<Choice>, pool: nat)
    requires WellFormed(inst) && Fits(inst, cap) && Tabled(inst, plan) && pool < inst.pools && plan != []
    requires BudgetLeft(inst, Charge(inst, cap, plan[0]), plan[1..], pool)
    ensures BudgetLeft(inst, cap, plan, pool)
  {
    ChargeAllFirst(inst, cap, plan);
    ChargeBudget(inst, cap, plan[0], pool);
    SpendFirst(inst, plan, pool);
    var cost := if plan[0].pool == pool then CostUnits(inst.table[plan[0]]) else 0;
    ClampTwice(cap.budgets[pool], cost, Spend(inst, plan[1..], pool));
  }

  /** The running clamped budget is the clamped difference of the sums. */
  lemma {:induction false} BudgetAfter(inst: Instance, cap: Capacity, plan: seq<Choice>, pool: nat)
    requires WellFormed(inst) && Fits(inst, cap) && Tabled(inst, plan) && pool < inst.pools
    ensures ChargeAll(inst, cap, plan).budgets[pool] == Max(0, cap.budgets[pool] - Spend(inst, plan, pool))
    decreases |plan|
  {
    if plan != [] {
      BudgetAfter(inst, Charge(inst, cap, plan[0]), plan[1..], pool);
      BudgetOneMore(inst, cap, plan, pool);
    }
  }

  lemma ChargeAllFirst(inst: Instance, cap: Capacity, plan: seq<Choice>)
    requires WellFormed(inst) && Fits(inst, cap) && Tabled(inst, plan) && plan != []
    ensures Tabled(inst, plan[1..])
    ensures ChargeAll(inst, cap, plan) == ChargeAll(inst, Charge(inst, cap, plan[0]), plan[1..])
  {
  }

  lemma ClampTwice(budget: int, cost: nat, rest: nat)
    ensures Max(0, Max(0, budget - cost) - rest) == Max(0, budget - (cost + rest))
  {
  }

  lemma SpendFirst(inst: Instance, plan: seq<Choice>, pool: nat)
    requires WellFormed(inst) && Tabled(inst, plan) && plan != []
    ensures Tabled(inst, plan[1..])
    ensures Spend(inst, plan, pool) ==
      (if plan[0].pool == pool then CostUnits(inst.table[plan[0]]) else 0) + Spend(inst, plan[1..], pool)
  {
  }

  function ChargeAll(inst: Instance, cap: Capacity, plan: seq<Choice>): (left: Capacity)
    requires WellFormed(inst) && Fits(inst, cap) && Tabled(inst, plan)
    ensures Fits(inst, left)
    decreases |plan|
  {
    if plan == [] then cap else ChargeAll(inst, Charge(inst, cap, plan[0]), plan[1..])
  }

  /** Whenever a job without access to the reserve is placed on a pool with a known
      balance, the projection right after it is exact and at or above the pool's
      reserve, no matter which reserve-allowed jobs drew on the pool before it. */
  lemma ReserveHolds(inst: Instance, cap: Capacity, lanes: int, plan: seq<Choice>, k: nat, pool: PoolState)
    requires WellFormed(inst) && Fits(inst, cap) && Feasible(inst, cap, lanes, plan) && k < |plan|
    requires !ReserveAllowed(inst.jobs[plan[k].job])
    requires Offered(pool).Some? && pool.remaining.Some?
    requires cap.budgets[plan[k].pool] == Offered(pool).value.budget
    ensures var after := Projected(inst, plan[..k + 1], plan[k].pool, pool.remaining.value);
      && after == pool.remaining.value - Percent(inst, plan[..k + 1], plan[k].pool)
      && after >= ReservePercent(pool.reserve).value as real
  {
    var upTo, p := plan[..k + 1], plan[k].pool;
    var balance, reserve := pool.remaining.value, ReservePercent(pool.reserve).value;
    SpendIncludesLast(inst, plan, k);
    assert 1 <= Spend(inst, upTo, p) <= KnownBudget(balance, reserve);
    UnitsCoverPercent(inst, upTo, p);
    assert Truncate(balance) >= 1 && balance >= Truncate(balance) as real;
    assert balance - Percent(inst, upTo, p) >= reserve as real;
    ProjectedIsClamped(inst, upTo, p, balance);
  }

  lemma {:induction false} UntouchedPool(inst: Instance, plan: seq<Choice>, pool: nat, remaining: real)
    requires WellFormed(inst) && Tabled(inst, plan)
    requires forall k :: 0 <= k < |plan| ==> plan[k].pool != pool
    ensures Projected(inst, plan, pool, remaining) == remaining
  {
    if plan != [] { UntouchedPool(inst, plan[..|plan| - 1], pool, remaining); }
  }

  lemma {:induction false} ProjectionIgnoresOthers(inst: Instance, plan: seq<Choice>, k: nat, pool: nat,
                                                   remaining: real)
    requires WellFormed(inst) && Tabled(inst, plan) && k <= |plan|
    requires forall m :: k <= m < |plan| ==> plan[m].pool != pool
    ensures Projected(inst, plan, pool, remaining) == Projected(inst, plan[..k], pool, remaining)
  {
    if k < |plan| {
      var init := plan[..|plan| - 1];
      assert init[..k] == plan[..k];
      ProjectionIgnoresOthers(inst, init, k, pool, remaining);
    } else {
      assert plan[..k] == plan;
    }
  }

  lemma LastUseAboveReserve(inst: Instance, cap: Capacity, lanes: int, plan: seq<Choice>, k: nat, pool: PoolState)
    requires WellFormed(inst) && Fits(inst, cap) && Feasible(inst, cap, lanes, plan) && k < |plan|
    requires forall m :: 0 <= m < |plan| && plan[m].pool == plan[k].pool ==> !ReserveAllowed(inst.jobs[plan[m].job])
    requires Offered(pool).Some? && pool.remaining.Some? && cap.budgets[plan[k].pool] == Offered(pool).value.budget
    ensures Projected(inst, plan, plan[k].pool, pool.remaining.value) >= ReservePercent(pool.reserve).value as real
  {
    var last := LastInPool(inst, plan, k);
    ReserveHolds(inst, cap, lanes, plan, last, pool);
    ProjectionIgnoresOthers(inst, plan, last + 1, plan[k].pool, pool.remaining.value);
  }

  /** A pool with a known balance that served no reserve-allowed job ends the plan at or
      above its reserve, or untouched. */
  lemma PoolEndsAboveReserve(inst: Instance, cap: Capacity, lanes: int, plan: seq<Choice>, p: nat, pool: PoolState)
    requires WellFormed(inst) && Fits(inst, cap) && Feasible(inst, cap, lanes, plan) && p < inst.pools
    requires forall k :: 0 <= k < |plan| && plan[k].pool == p ==> !ReserveAllowed(inst.jobs[plan[k].job])
    requires Offered(pool).Some? && pool.remaining.Some? && cap.budgets[p] == Offered(pool).value.budget
    ensures var end := Projected(inst, plan, p, pool.remaining.value);
      if exists k :: 0 <= k < |plan| && plan[k].pool == p
      then end >= ReservePercent(pool.reserve).value as real
      else end == pool.remaining.value
  {
    if k :| 0 <= k < |plan| && plan[k].pool == p {
      LastUseAboveReserve(inst, cap, lanes, plan, k, pool);
    } else {
      UntouchedPool(inst, plan, p, pool.remaining.value);
    }
  }

  /** Exactly when a pool ends below its reserve: the reserve is not zero and the jobs on
      the pool are estimated to use more than what lies above it. */
  lemma BelowReserveMeaning(inst: Instance, plan: seq<Choice>, pool: nat, remaining: real, reserve: nat)
    requires WellFormed(inst) && Tabled(inst, plan) && remaining >= 0.0
    ensures Projected(inst, plan, pool, remaining) < reserve as real <==>
            reserve > 0 && Percent(inst, plan, pool) > remaining - reserve as real
  {
    ProjectedIsClamped(inst, plan, pool, remaining);
  }

  /** Once a job is placed on it, a pool's projection is not negative. */
  lemma {:induction false} UsedIsNotNegative(inst: Instance, plan: seq<Choice>, k: nat, remaining: real)
    requires WellFormed(inst) && Tabled(inst, plan) && k < |plan|
    ensures Projected(inst, plan, plan[k].pool, remaining) >= 0.0
  {
    if k < |plan| - 1 { UsedIsNotNegative(inst, plan[..|plan| - 1], k, remaining); }
  }

  /** A pool that the plan uses ends at or above its reserve. */
  ghost predicate StaysAbove(inst: Instance, plan: seq<Choice>, p: nat, remaining: real, reserve: int)
    requires WellFormed(inst) && Tabled(inst, plan)
  {
    (exists k :: 0 <= k < |plan| && plan[k].pool == p) ==> Projected(inst, plan, p, remaining) >= reserve as real
  }

  /** The pool keeps its reserve in every search over these jobs, whatever the candidates,
      the hosts, the other pools and the lanes are. */
  ghost predicate KeepsReserve(jobs: seq<Job>, pool: PoolState)
    requires Offered(pool).Some? && pool.remaining.Some?
  {
    forall inst: Instance, cap: Capacity, lanes: int, p: nat ::
      inst.jobs == jobs && WellFormed(inst) && Fits(inst, cap) && Offers(inst, cap, p, pool) ==>
        KeptIn(inst, cap, lanes, p, pool)
  }

  ghost predicate Offers(inst: Instance, cap: Capacity, p: nat, pool: PoolState)
    requires Offered(pool).Some? && Fits(inst, cap)
  {
    p < inst.pools && cap.budgets[p] == Offered(pool).value.budget
  }

  ghost predicate KeptIn(inst: Instance, cap: Capacity, lanes: int, p: nat, pool: PoolState)
    requires WellFormed(inst) && Fits(inst, cap) && Offered(pool).Some? && pool.remaining.Some?
  {
    var choices := Best(inst, 0, cap, {}, lanes).choices;
    Tabled(inst, choices) && StaysAbove(inst, choices, p, pool.remaining.value, ReservePercent(pool.reserve).value)
  }

  ghost predicate NoReserveJob(jobs: seq<Job>) { forall i :: 0 <= i < |jobs| ==> !ReserveAllowed(jobs[i]) }

  /** Exactly when a pool with a reported balance is sure to keep its reserve: the reserve is
      zero once its fraction is dropped, or no job of the horizon may use it. */
  lemma KeepsReserveMeaning(jobs: seq<Job>, pool: PoolState)
    requires Offered(pool).Some? && pool.remaining.Some?
    ensures KeepsReserve(jobs, pool) <==> ReservePercent(pool.reserve).value == 0 || NoReserveJob(jobs)
  {
    if ReservePercent(pool.reserve).value == 0 || NoReserveJob(jobs) {
      forall inst: Instance, cap: Capacity, lanes: int, p: nat
        | inst.jobs == jobs && WellFormed(inst) && Fits(inst, cap) && Offers(inst, cap, p, pool)
        ensures KeptIn(inst, cap, lanes, p, pool)
      {
        SearchKeepsReserve(inst, cap, lanes, p, pool);
      }
    } else {
      var i :| 0 <= i < |jobs| && ReserveAllowed(jobs[i]);
      var cost := DrainingCost(pool);
      ReserveJobsGoBelow(jobs, i, pool, cost);
      assert Offers(Alone(jobs, i, cost), AloneCapacity(jobs[i], Offered(pool).value.budget), 0, pool);
    }
  }

  lemma SearchKeepsReserve(inst: Instance, cap: Capacity, lanes: int, p: nat, pool: PoolState)
    requires WellFormed(inst) && Fits(inst, cap) && Offered(pool).Some? && pool.remaining.Some?
    requires Offers(inst, cap, p, pool) && (ReservePercent(pool.reserve).value == 0 || NoReserveJob(inst.jobs))
    ensures KeptIn(inst, cap, lanes, p, pool)
  {
    SolveIsOptimal(inst, cap, lanes);
    var choices := Best(inst, 0, cap, {}, lanes).choices;
    if k :| 0 <= k < |choices| && choices[k].pool == p {
      if ReservePercent(pool.reserve).value == 0 {
        UsedIsNotNegative(inst, choices, k, pool.remaining.value);
      } else {
        LastUseAboveReserve(inst, cap, lanes, choices, k, pool);
      }
    }
  }

  /** More than what lies above the reserve. */
  ghost function DrainingCost(pool: PoolState): (cost: real)
    requires Offered(pool).Some? && pool.remaining.Some?
    ensures cost >= 0.0 && cost > pool.remaining.value - ReservePercent(pool.reserve).value as real
  {
    if pool.remaining.value < 0.0 then 1.0 else pool.remaining.value + 1.0
  }

  /** Any horizon, with a single candidate: one of its jobs on one pool, with room for it. */
  ghost function Alone(jobs: seq<Job>, i: nat, cost: real): Instance
    requires i < |jobs|
  {
    Instance(jobs, 1, 1, seq(|jobs|, k => {}), map[Choice(i, 0, 0) := Candidate(1.0, cost, 0, "", "")])
  }

  ghost function AloneCapacity(job: Job, budget: int): Capacity {
    Capacity([budget], [1], [1], [job.cpuCores], [RamUnits(job)], [DiskUnits(job)], [job.gpuCount])
  }

  lemma AloneIsFeasible(jobs: seq<Job>, i: nat, cost: real, budget: nat)
    requires i < |jobs| && ReserveAllowed(jobs[i]) && cost >= 0.0
    ensures WellFormed(Alone(jobs, i, cost)) && Fits(Alone(jobs, i, cost), AloneCapacity(jobs[i], budget))
    ensures Feasible(Alone(jobs, i, cost), AloneCapacity(jobs[i], budget), 1, [Choice(i, 0, 0)])
    ensures Score(Alone(jobs, i, cost), [Choice(i, 0, 0)]) == 1.0
  {
    SumsOfOne(Alone(jobs, i, cost), Choice(i, 0, 0));
  }

  lemma AloneIsPlaced(jobs: seq<Job>, i: nat, cost: real, budget: nat)
    requires i < |jobs| && ReserveAllowed(jobs[i]) && cost >= 0.0
    ensures var inst, cap := Alone(jobs, i, cost), AloneCapacity(jobs[i], budget);
      && WellFormed(inst) && Fits(inst, cap) && Best(inst, 0, cap, {}, 1).choices == [Choice(i, 0, 0)]
  {
    var inst, cap, c := Alone(jobs, i, cost), AloneCapacity(jobs[i], budget), Choice(i, 0, 0);
    AloneIsFeasible(jobs, i, cost, budget);
    SolveIsOptimal(inst, cap, 1);
    assert InJobOrder([c], 0);
    var choices := Best(inst, 0, cap, {}, 1).choices;
    assert Score(inst, choices) >= 1.0;
    assert |choices| == 1 && choices[0] in inst.table;
  }

  /** For every pool with a reserve, and every job of any horizon with access to it whose
      estimate exceeds what lies above the reserve, there are candidates with which the
      search places the job and takes the pool below. */
  lemma ReserveJobsGoBelow(jobs: seq<Job>, i: nat, pool: PoolState, cost: real)
    requires Offered(pool).Some? && pool.remaining.Some?
    requires ReservePercent(pool.reserve).value > 0 && i < |jobs| && ReserveAllowed(jobs[i])
    requires cost >= 0.0 && cost > pool.remaining.value - ReservePercent(pool.reserve).value as real
    ensures var inst, cap := Alone(jobs, i, cost), AloneCapacity(jobs[i], Offered(pool).value.budget);
      && WellFormed(inst) && Fits(inst, cap)
      && var choices := Best(inst, 0, cap, {}, 1).choices;
        && Tabled(inst, choices)
        && Projected(inst, choices, 0, pool.remaining.value) < ReservePercent(pool.reserve).value as real
        && !KeptIn(inst, cap, 1, 0, pool)
  {
    var c := Choice(i, 0, 0);
    AloneIsPlaced(jobs, i, cost, Offered(pool).value.budget);
    assert [c][..0] == [] && [c][0].pool == 0;
    assert Projected(Alone(jobs, i, cost), [], 0, pool.remaining.value) == pool.remaining.value;
  }

  /** A pool whose balance is unknown is never projected. */
  function Balance(inst: Instance, plan: seq<Choice>, pool: nat, remaining: Option<real>): Option<real>
    requires WellFormed(inst) && Tabled(inst, plan)
  {
    if remaining.Some? then Some(Projected(inst, plan, pool, remaining.value)) else None
  }

  /** The planner's projection pass over its assignments. */
  method Project(inst: Instance, plan: seq<Choice>, remaining: seq<Option<real>>)
    returns (final: seq<Option<real>>, recorded: seq<Option<real>>)
    requires WellFormed(inst) && Tabled(inst, plan) && |remaining| == inst.pools
    ensures |final| == inst.pools && |recorded| == |plan|
    ensures forall p :: 0 <= p < inst.pools ==> final[p] == Balance(inst, plan, p, remaining[p])
    ensures forall k :: 0 <= k < |plan| ==>
      recorded[k] == Balance(inst, plan[..k + 1], plan[k].pool, remaining[plan[k].pool])
  {
    final, recorded := remaining, [];
    for k := 0 to |plan|
      invariant |final| == inst.pools && |recorded| == k
      invariant forall p :: 0 <= p < inst.pools ==> final[p] == Balance(inst, plan[..k], p, remaining[p])
      invariant forall m :: 0 <= m < k ==>
        recorded[m] == Balance(inst, plan[..m + 1], plan[m].pool, remaining[plan[m].pool])
    {
      var p := plan[k].pool;
      assert plan[..k + 1][..k] == plan[..k];
      if final[p].Some? {
        var left := final[p].value - inst.table[plan[k]].costPercent;
        final := final[p := Some(if left < 0.0 then 0.0 else left)];
      }
      recorded := recorded + [final[p]];
    }
    assert plan[..|plan|] == plan;
  }
}

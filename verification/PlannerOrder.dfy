/**
  What the order of a plan has to do with it.  A job that may draw on the reserve may
  overdraw a budget, and whether a later job still fits depends on who came first.  So
  all orders of a plan are feasible exactly if its totals fit, and the search, which
  visits jobs in the order of the horizon, is best among plans in any order exactly if
  no job with access to the reserve stands before one without.
 */
module PlannerOrder {
  import opened PlannerModel
  import opened PlannerFeasibility
  import opened PlannerOptimality

  ghost predicate Reordered(a: seq<Choice>, b: seq<Choice>) { multiset(a) == multiset(b) }

  predicate Ordinary(inst: Instance, c: Choice)
    requires WellFormed(inst) && c in inst.table
  {
    !ReserveAllowed(inst.jobs[c.job])
  }

  /** Every pool that serves an ordinary job has the budget for all that is placed on it. */
  ghost predicate TotalsFit(inst: Instance, cap: Capacity, plan: seq<Choice>)
    requires WellFormed(inst) && Fits(inst, cap) && Tabled(inst, plan)
  {
    forall k :: 0 <= k < |plan| && Ordinary(inst, plan[k]) ==>
      Spend(inst, plan, plan[k].pool) <= cap.budgets[plan[k].pool]
  }

  ghost function Total(f: Choice -> real, plan: seq<Choice>): real {
    if plan == [] then 0.0 else f(plan[0]) + Total(f, plan[1..])
  }

  lemma {:induction false} TotalConcat(f: Choice -> real, a: seq<Choice>, b: seq<Choice>)
    ensures Total(f, a + b) == Total(f, a) + Total(f, b)
  {
    if a == [] {
      assert a + b == b;
    } else {
      assert (a + b)[1..] == a[1..] + b;
      TotalConcat(f, a[1..], b);
    }
  }

  lemma RemoveFromBoth(a: seq<Choice>, b: seq<Choice>, k: nat)
    requires Reordered(a, b) && a != [] && k < |b| && b[k] == a[0]
    ensures Reordered(a[1..], b[..k] + b[k + 1..])
  {
    assert a == [a[0]] + a[1..];
    assert b == b[..k] + [b[k]] + b[k + 1..];
    assert multiset(a[1..]) == multiset(a) - multiset{a[0]};
  }

  lemma {:induction false} TotalIgnoresOrder(f: Choice -> real, a: seq<Choice>, b: seq<Choice>)
    requires Reordered(a, b)
    ensures Total(f, a) == Total(f, b)
    decreases |a|
  {
    assert |a| == |multiset(a)| && |b| == |multiset(b)|;
    if a != [] {
      assert a[0] in multiset(b);
      var k :| 0 <= k < |b| && b[k] == a[0];
      var before, after := b[..k], b[k + 1..];
      RemoveFromBoth(a, b, k);
      TotalIgnoresOrder(f, a[1..], before + after);
      TotalConcat(f, before, after);
      TotalConcat(f, before, [b[k]] + after);
      assert b == before + ([b[k]] + after);
      assert ([b[k]] + after)[1..] == after;
    }
  }

  ghost function DemandOf(inst: Instance, r: Resource): Choice -> real
    requires WellFormed(inst)
  {
    c => if c in inst.table then Demand(inst, c, r) as real else 0.0
  }

  ghost function CostOf(inst: Instance, pool: nat): Choice -> real {
    c => if c in inst.table && c.pool == pool then CostUnits(inst.table[c]) as real else 0.0
  }

  /** What ordinary jobs are charged in one pool. */
  ghost function OrdinaryCostOf(inst: Instance, pool: nat): Choice -> real
    requires WellFormed(inst)
  {
    c => if c in inst.table && c.pool == pool && Ordinary(inst, c) then CostUnits(inst.table[c]) as real else 0.0
  }

  ghost function ScoreOf(inst: Instance): Choice -> real {
    c => if c in inst.table then inst.table[c].score else 0.0
  }

  lemma {:induction false} SumsAreTotals(inst: Instance, plan: seq<Choice>, r: Resource, pool: nat)
    requires WellFormed(inst) && Tabled(inst, plan)
    ensures Usage(inst, plan, r) as real == Total(DemandOf(inst, r), plan)
    ensures Spend(inst, plan, pool) as real == Total(CostOf(inst, pool), plan)
    ensures Score(inst, plan) == Total(ScoreOf(inst), plan)
  {
    if plan != [] { SumsAreTotals(inst, plan[1..], r, pool); }
  }

  lemma SumsIgnoreOrder(inst: Instance, a: seq<Choice>, b: seq<Choice>, r: Resource, pool: nat)
    requires WellFormed(inst) && Tabled(inst, a) && Tabled(inst, b) && Reordered(a, b)
    ensures Usage(inst, a, r) == Usage(inst, b, r)
    ensures Spend(inst, a, pool) == Spend(inst, b, pool)
    ensures Score(inst, a) == Score(inst, b)
  {
    SumsAreTotals(inst, a, r, pool);
    SumsAreTotals(inst, b, r, pool);
    TotalIgnoresOrder(DemandOf(inst, r), a, b);
    TotalIgnoresOrder(CostOf(inst, pool), a, b);
    TotalIgnoresOrder(ScoreOf(inst), a, b);
  }

  lemma {:induction false} SpendConcat(inst: Instance, a: seq<Choice>, b: seq<Choice>, pool: nat)
    requires WellFormed(inst) && Tabled(inst, a) && Tabled(inst, b)
    ensures Tabled(inst, a + b)
    ensures Spend(inst, a + b, pool) == Spend(inst, a, pool) + Spend(inst, b, pool)
  {
    if a == [] {
      assert a + b == b;
    } else {
      assert (a + b)[1..] == a[1..] + b;
      SpendConcat(inst, a[1..], b, pool);
    }
  }

  lemma PrefixSpendsLess(inst: Instance, plan: seq<Choice>, n: nat, pool: nat)
    requires WellFormed(inst) && Tabled(inst, plan) && n <= |plan|
    ensures Spend(inst, plan[..n], pool) <= Spend(inst, plan, pool)
  {
    assert plan == plan[..n] + plan[n..];
    SpendConcat(inst, plan[..n], plan[n..], pool);
  }

  /** Plans whose totals fit are within budget at every step. */
  lemma TotalsAreEnough(inst: Instance, cap: Capacity, plan: seq<Choice>)
    requires WellFormed(inst) && Fits(inst, cap) && Tabled(inst, plan) && TotalsFit(inst, cap, plan)
    ensures WithinBudgets(inst, cap, plan)
  {
    forall k | 0 <= k < |plan| && !ReserveAllowed(inst.jobs[plan[k].job])
      ensures Spend(inst, plan[..k + 1], plan[k].pool) <= cap.budgets[plan[k].pool]
    {
      assert Ordinary(inst, plan[k]);
      PrefixSpendsLess(inst, plan, k + 1, plan[k].pool);
    }
  }

  ghost predicate NoReserve(inst: Instance, plan: seq<Choice>)
    requires WellFormed(inst) && Tabled(inst, plan)
  {
    forall k :: 0 <= k < |plan| ==> Ordinary(inst, plan[k])
  }

  /** Without reserve-allowed jobs, staying within budget is a matter of totals. */
  lemma BudgetsAreTotals(inst: Instance, cap: Capacity, plan: seq<Choice>)
    requires WellFormed(inst) && Fits(inst, cap) && Tabled(inst, plan) && NoReserve(inst, plan)
    ensures WithinBudgets(inst, cap, plan) <==> TotalsFit(inst, cap, plan)
  {
    if WithinBudgets(inst, cap, plan) {
      forall k | 0 <= k < |plan| ensures Spend(inst, plan, plan[k].pool) <= cap.budgets[plan[k].pool] {
        var last := LastInPool(inst, plan, k);
        SpendUpTo(inst, plan, last);
      }
    }
    if TotalsFit(inst, cap, plan) { TotalsAreEnough(inst, cap, plan); }
  }

  /** Nothing is charged to a pool after its last choice. */
  lemma SpendUpTo(inst: Instance, plan: seq<Choice>, last: nat)
    requires WellFormed(inst) && Tabled(inst, plan) && last < |plan|
    requires forall m :: last < m < |plan| ==> plan[m].pool != plan[last].pool
    ensures Spend(inst, plan[..last + 1], plan[last].pool) == Spend(inst, plan, plan[last].pool)
  {
    var rest := plan[last + 1..];
    assert plan == plan[..last + 1] + rest;
    SpendConcat(inst, plan[..last + 1], rest, plan[last].pool);
    assert forall k :: 0 <= k < |rest| ==> rest[k] == plan[last + 1 + k];
    NoSpend(inst, rest, plan[last].pool);
  }

  lemma LastInPool(inst: Instance, plan: seq<Choice>, k: nat) returns (last: nat)
    requires WellFormed(inst) && Tabled(inst, plan) && k < |plan|
    ensures k <= last < |plan| && plan[last].pool == plan[k].pool
    ensures forall m :: last < m < |plan| ==> plan[m].pool != plan[k].pool
    decreases |plan| - k
  {
    last := k;
    if m :| k < m < |plan| && plan[m].pool == plan[k].pool {
      last := LastInPool(inst, plan, m);
    }
  }

  lemma {:induction false} NoSpend(inst: Instance, plan: seq<Choice>, pool: nat)
    requires WellFormed(inst) && Tabled(inst, plan)
    requires forall k :: 0 <= k < |plan| ==> plan[k].pool != pool
    ensures Spend(inst, plan, pool) == 0
  {
    if plan != [] { NoSpend(inst, plan[1..], pool); }
  }

  lemma DistinctMeansOnce(plan: seq<Choice>)
    requires DistinctJobs(plan)
    ensures forall c :: c in plan ==> multiset(plan)[c] == 1
    decreases |plan|
  {
    if plan != [] {
      var c, rest := plan[0], plan[1..];
      assert plan == [c] + rest;
      assert forall k :: 0 <= k < |rest| ==> rest[k] == plan[k + 1];
      DistinctMeansOnce(rest);
      assert c !in multiset(rest);
    }
  }

  lemma TwiceMeansTwo(plan: seq<Choice>, j: nat, k: nat)
    requires j < k < |plan| && plan[j] == plan[k]
    ensures multiset(plan)[plan[j]] >= 2
  {
    assert plan == plan[..k] + [plan[k]] + plan[k + 1..];
    assert plan[j] == plan[..k][j];
    assert plan[j] in multiset(plan[..k]);
  }

  lemma ReorderedPairwise(a: seq<Choice>, b: seq<Choice>)
    requires Reordered(a, b) && DistinctJobs(a)
    ensures forall k :: 0 <= k < |b| ==> b[k] in a
    ensures DistinctJobs(b)
  {
    forall k | 0 <= k < |b| ensures b[k] in a {
      assert b[k] in multiset(b);
    }
    forall j, k | 0 <= j < k < |b| ensures b[j].job != b[k].job {
      if b[j].job == b[k].job {
        var x :| 0 <= x < |a| && a[x] == b[j];
        var y :| 0 <= y < |a| && a[y] == b[k];
        if x == y {
          TwiceMeansTwo(b, j, k);
          DistinctMeansOnce(a);
        }
      }
    }
  }

  /** Apart from budgets, feasibility does not depend on the order. */
  lemma ReorderedFeasible(inst: Instance, cap: Capacity, lanes: int, a: seq<Choice>, b: seq<Choice>)
    requires WellFormed(inst) && Fits(inst, cap) && Feasible(inst, cap, lanes, a) && Reordered(a, b)
    ensures Tabled(inst, b) && Score(inst, a) == Score(inst, b)
    ensures Feasible(inst, cap, lanes, b) <==> WithinBudgets(inst, cap, b)
  {
    assert |a| == |multiset(a)| && |b| == |multiset(b)|;
    ReorderedPairwise(a, b);
    ReorderedConflicts(inst, a, b);
    forall k, r | 0 <= k < |b| && InRange(inst, r) && Draws(inst, b[k], r)
      ensures Usage(inst, b, r) <= Available(inst, cap, r)
    {
      var x :| 0 <= x < |a| && a[x] == b[k];
      assert Draws(inst, a[x], r);
      SumsIgnoreOrder(inst, a, b, r, 0);
    }
    SumsIgnoreOrder(inst, a, b, PoolSlot(0), 0);
  }

  lemma ReorderedConflicts(inst: Instance, a: seq<Choice>, b: seq<Choice>)
    requires WellFormed(inst) && Tabled(inst, a) && Tabled(inst, b) && ConflictFree(inst, a)
    requires DistinctJobs(b) && forall k :: 0 <= k < |b| ==> b[k] in a
    ensures ConflictFree(inst, b)
  {
    forall j, k | 0 <= j < |b| && 0 <= k < |b| && j != k
      ensures b[j].job !in inst.conflicts[b[k].job]
    {
      var x :| 0 <= x < |a| && a[x] == b[j];
      var y :| 0 <= y < |a| && a[y] == b[k];
      assert b[j].job != b[k].job;
      assert x != y;
    }
  }

  lemma TotalsIgnoreOrder(inst: Instance, cap: Capacity, a: seq<Choice>, b: seq<Choice>)
    requires WellFormed(inst) && Fits(inst, cap) && Tabled(inst, a) && Tabled(inst, b) && Reordered(a, b)
    ensures TotalsFit(inst, cap, a) ==> TotalsFit(inst, cap, b)
  {
    forall k | TotalsFit(inst, cap, a) && 0 <= k < |b| && Ordinary(inst, b[k])
      ensures Spend(inst, b, b[k].pool) <= cap.budgets[b[k].pool]
    {
      assert b[k] in multiset(b);
      var x :| 0 <= x < |a| && a[x] == b[k];
      SumsIgnoreOrder(inst, a, b, PoolSlot(0), b[k].pool);
    }
  }

  /** If its totals fit, a feasible plan is feasible in every order and can be carried out
      choice by choice in that order, for the same score. */
  lemma AnyOrderIsFeasible(inst: Instance, cap: Capacity, lanes: int, a: seq<Choice>, b: seq<Choice>)
    requires WellFormed(inst) && Fits(inst, cap) && Feasible(inst, cap, lanes, a)
    requires TotalsFit(inst, cap, a) && Reordered(a, b)
    ensures Feasible(inst, cap, lanes, b) && Admits(inst, cap, {}, lanes, b)
    ensures Score(inst, a) == Score(inst, b)
  {
    ReorderedFeasible(inst, cap, lanes, a, b);
    TotalsIgnoreOrder(inst, cap, a, b);
    TotalsAreEnough(inst, cap, b);
    AdmitsMeansFeasible(inst, cap, {}, lanes, b);
  }

  function MovedLast(plan: seq<Choice>, k: nat): seq<Choice>
    requires k < |plan|
  {
    plan[..k] + plan[k + 1..] + [plan[k]]
  }

  lemma MovedLastIsReordered(plan: seq<Choice>, k: nat)
    requires k < |plan|
    ensures Reordered(plan, MovedLast(plan, k))
  {
    assert plan == plan[..k] + [plan[k]] + plan[k + 1..];
  }

  /** Exactly when the order does not matter: all orders of a feasible plan are feasible if
      and only if its totals fit. */
  lemma OrderFreeMeaning(inst: Instance, cap: Capacity, lanes: int, plan: seq<Choice>)
    requires WellFormed(inst) && Fits(inst, cap) && Feasible(inst, cap, lanes, plan)
    ensures (forall b :: Reordered(plan, b) ==> Feasible(inst, cap, lanes, b)) <==> TotalsFit(inst, cap, plan)
  {
    if TotalsFit(inst, cap, plan) {
      forall b | Reordered(plan, b) ensures Feasible(inst, cap, lanes, b) {
        AnyOrderIsFeasible(inst, cap, lanes, plan, b);
      }
    } else {
      var k :| 0 <= k < |plan| && Ordinary(inst, plan[k]) &&
               Spend(inst, plan, plan[k].pool) > cap.budgets[plan[k].pool];
      var b := MovedLast(plan, k);
      MovedLastIsReordered(plan, k);
      ReorderedFeasible(inst, cap, lanes, plan, b);
      SumsIgnoreOrder(inst, plan, b, PoolSlot(0), plan[k].pool);
      assert b[..|b|] == b && b[|b| - 1] == plan[k];
      assert !WithinBudgets(inst, cap, b);
    }
  }

  // ----- putting a plan in job order

  ghost function Insert(c: Choice, plan: seq<Choice>): (r: seq<Choice>)
    ensures multiset(r) == multiset{c} + multiset(plan)
  {
    if plan == [] then [c]
    else if c.job < plan[0].job then [c] + plan
    else
      assert plan == [plan[0]] + plan[1..];
      [plan[0]] + Insert(c, plan[1..])
  }

  ghost function InOrder(plan: seq<Choice>): (r: seq<Choice>)
    ensures Reordered(plan, r)
  {
    if plan == [] then []
    else
      assert plan == [plan[0]] + plan[1..];
      Insert(plan[0], InOrder(plan[1..]))
  }

  lemma ConsOrder(c: Choice, plan: seq<Choice>, from: nat)
    requires InJobOrder(plan, if plan == [] then 0 else plan[0].job) && from <= c.job
    requires plan != [] ==> c.job < plan[0].job
    ensures InJobOrder([c] + plan, from)
  {
  }

  lemma {:induction false} InsertKeepsOrder(c: Choice, plan: seq<Choice>, from: nat)
    requires InJobOrder(plan, from) && from <= c.job
    requires forall k :: 0 <= k < |plan| ==> plan[k].job != c.job
    ensures InJobOrder(Insert(c, plan), from)
  {
    if plan == [] {
      ConsOrder(c, [], from);
    } else if c.job < plan[0].job {
      ConsOrder(c, plan, from);
    } else {
      var rest := plan[1..];
      assert forall k :: 0 <= k < |rest| ==> rest[k] == plan[k + 1];
      InsertKeepsOrder(c, rest, plan[0].job + 1);
      ConsOrder(plan[0], Insert(c, rest), from);
    }
  }

  lemma {:induction false} InOrderSorts(plan: seq<Choice>)
    requires DistinctJobs(plan)
    ensures InJobOrder(InOrder(plan), 0)
  {
    if plan != [] {
      var c, rest := plan[0], plan[1..];
      assert forall k :: 0 <= k < |rest| ==> rest[k] == plan[k + 1];
      InOrderSorts(rest);
      var sorted := InOrder(rest);
      forall k | 0 <= k < |sorted| ensures sorted[k].job != c.job {
        assert sorted[k] in multiset(sorted);
        assert sorted[k] in rest;
      }
      InsertKeepsOrder(c, sorted, 0);
    }
  }

  // ----- when the search is best among all orders

  /** What ordinary jobs are charged never exceeds the budget of their pool: the last of
      them was admitted with all the others already charged. */
  lemma OrdinaryWithinBudget(inst: Instance, cap: Capacity, plan: seq<Choice>, pool: nat)
    requires WellFormed(inst) && Fits(inst, cap) && Tabled(inst, plan) && WithinBudgets(inst, cap, plan)
    requires pool < inst.pools
    ensures Total(OrdinaryCostOf(inst, pool), plan) <= cap.budgets[pool] as real
  {
    if k :| 0 <= k < |plan| && plan[k].pool == pool && Ordinary(inst, plan[k]) {
      var last := LastOrdinary(inst, plan, pool, k);
      NothingAfter(inst, plan, pool, last + 1);
      OrdinaryIsLess(inst, plan[..last + 1], pool);
    } else {
      NoTotal(OrdinaryCostOf(inst, pool), plan);
    }
  }

  lemma NothingAfter(inst: Instance, plan: seq<Choice>, pool: nat, n: nat)
    requires WellFormed(inst) && n <= |plan|
    requires forall m :: n <= m < |plan| ==> plan[m] in inst.table && (plan[m].pool != pool || !Ordinary(inst, plan[m]))
    ensures Total(OrdinaryCostOf(inst, pool), plan) == Total(OrdinaryCostOf(inst, pool), plan[..n])
  {
    TotalUpTo(OrdinaryCostOf(inst, pool), plan, n);
  }

  lemma TotalUpTo(f: Choice -> real, plan: seq<Choice>, n: nat)
    requires n <= |plan| && forall m :: n <= m < |plan| ==> f(plan[m]) == 0.0
    ensures Total(f, plan) == Total(f, plan[..n])
  {
    var rest := plan[n..];
    assert forall m :: 0 <= m < |rest| ==> rest[m] == plan[n + m];
    NoTotal(f, rest);
    TotalConcat(f, plan[..n], rest);
    assert plan == plan[..n] + rest;
  }

  lemma LastOrdinary(inst: Instance, plan: seq<Choice>, pool: nat, k: nat) returns (last: nat)
    requires WellFormed(inst) && Tabled(inst, plan) && k < |plan| && plan[k].pool == pool && Ordinary(inst, plan[k])
    ensures k <= last < |plan| && plan[last].pool == pool && Ordinary(inst, plan[last])
    ensures forall m :: last < m < |plan| ==> plan[m].pool != pool || !Ordinary(inst, plan[m])
    decreases |plan| - k
  {
    last := k;
    if m :| k < m < |plan| && plan[m].pool == pool && Ordinary(inst, plan[m]) {
      last := LastOrdinary(inst, plan, pool, m);
    }
  }

  lemma {:induction false} NoTotal(f: Choice -> real, plan: seq<Choice>)
    requires forall k :: 0 <= k < |plan| ==> f(plan[k]) == 0.0
    ensures Total(f, plan) == 0.0
  {
    if plan != [] { NoTotal(f, plan[1..]); }
  }

  lemma {:induction false} OrdinaryIsLess(inst: Instance, plan: seq<Choice>, pool: nat)
    requires WellFormed(inst) && Tabled(inst, plan)
    ensures 0.0 <= Total(OrdinaryCostOf(inst, pool), plan) <= Spend(inst, plan, pool) as real
    ensures NoReserve(inst, plan) ==> Total(OrdinaryCostOf(inst, pool), plan) == Spend(inst, plan, pool) as real
  {
    if plan != [] {
      OrdinaryIsLess(inst, plan[1..], pool);
      assert NoReserve(inst, plan) ==> NoReserve(inst, plan[1..]) && Ordinary(inst, plan[0]);
    }
  }

  /** No job with access to the reserve stands before one without. */
  ghost predicate ReserveLast(jobs: seq<Job>) {
    forall i, j :: 0 <= i < j < |jobs| && ReserveAllowed(jobs[i]) ==> ReserveAllowed(jobs[j])
  }

  /** What ordinary jobs draw from a pool up to a choice is no more than in the whole plan. */
  lemma OrdinaryUpTo(inst: Instance, b: seq<Choice>, k: nat, pool: nat)
    requires WellFormed(inst) && Tabled(inst, b) && k <= |b|
    ensures Total(OrdinaryCostOf(inst, pool), b[..k]) <= Total(OrdinaryCostOf(inst, pool), b)
  {
    TotalConcat(OrdinaryCostOf(inst, pool), b[..k], b[k..]);
    assert b[..k] + b[k..] == b;
    OrdinaryIsLess(inst, b[k..], pool);
  }

  /** Before an ordinary job of a plan in job order there are only ordinary jobs. */
  lemma NoReserveUpTo(inst: Instance, b: seq<Choice>, k: nat)
    requires WellFormed(inst) && Tabled(inst, b) && InJobOrder(b, 0) && ReserveLast(inst.jobs)
    requires k < |b| && !ReserveAllowed(inst.jobs[b[k].job])
    ensures NoReserve(inst, b[..k + 1])
  {
  }

  lemma SortingKeepsOne(inst: Instance, cap: Capacity, a: seq<Choice>, b: seq<Choice>, k: nat)
    requires WellFormed(inst) && Fits(inst, cap) && Tabled(inst, a) && Tabled(inst, b) && Reordered(a, b)
    requires WithinBudgets(inst, cap, a) && InJobOrder(b, 0) && ReserveLast(inst.jobs)
    requires k < |b| && !ReserveAllowed(inst.jobs[b[k].job])
    ensures Spend(inst, b[..k + 1], b[k].pool) <= cap.budgets[b[k].pool]
  {
    TotalIgnoresOrder(OrdinaryCostOf(inst, b[k].pool), a, b);
    OrdinaryWithinBudget(inst, cap, a, b[k].pool);
    OrdinaryUpTo(inst, b, k + 1, b[k].pool);
    NoReserveUpTo(inst, b, k);
    OrdinaryIsLess(inst, b[..k + 1], b[k].pool);
  }

  /** With the reserve last, putting a feasible plan in the order of the horizon keeps it
      within its budgets. */
  lemma SortingKeepsBudgets(inst: Instance, cap: Capacity, a: seq<Choice>, b: seq<Choice>)
    requires WellFormed(inst) && Fits(inst, cap) && Tabled(inst, a) && Tabled(inst, b) && Reordered(a, b)
    requires WithinBudgets(inst, cap, a) && InJobOrder(b, 0) && ReserveLast(inst.jobs)
    ensures WithinBudgets(inst, cap, b)
  {
    forall k | 0 <= k < |b| && !ReserveAllowed(inst.jobs[b[k].job])
      ensures Spend(inst, b[..k + 1], b[k].pool) <= cap.budgets[b[k].pool]
    {
      SortingKeepsOne(inst, cap, a, b, k);
    }
  }

  ghost predicate BestInAnyOrder(inst: Instance, cap: Capacity, lanes: int)
    requires WellFormed(inst) && Fits(inst, cap)
  {
    forall plan :: Feasible(inst, cap, lanes, plan) ==> Score(inst, plan) <= Best(inst, 0, cap, {}, lanes).score
  }

  /** With the reserve last, the search's answer is best among all feasible plans, in
      whatever order they list their choices. */
  lemma SolveIsOptimalInAnyOrder(inst: Instance, cap: Capacity, lanes: int)
    requires WellFormed(inst) && Fits(inst, cap) && ReserveLast(inst.jobs)
    ensures BestInAnyOrder(inst, cap, lanes)
  {
    forall plan | Feasible(inst, cap, lanes, plan)
      ensures Score(inst, plan) <= Best(inst, 0, cap, {}, lanes).score
    {
      var sorted := InOrder(plan);
      InOrderSorts(plan);
      ReorderedFeasible(inst, cap, lanes, plan, sorted);
      SortingKeepsBudgets(inst, cap, plan, sorted);
      SolveIsOptimal(inst, cap, lanes);
    }
  }

  // ----- and when it is not

  /** Two jobs of any horizon on one pool whose budget covers one of them, on a host with
      room for both. */
  ghost function Trap(jobs: seq<Job>, i: nat, j: nat): Instance
    requires i < j < |jobs|
  {
    Instance(jobs, 1, 1, seq(|jobs|, k => {}),
             map[Choice(i, 0, 0) := TRAP_ROW, Choice(j, 0, 0) := TRAP_ROW])
  }

  ghost const TRAP_ROW := Candidate(1.0, 1.0, 0, "", "")

  lemma TrapCost()
    ensures CostUnits(TRAP_ROW) == 10
  {
    CeilIsClose(TRAP_ROW.costPercent * 10.0);
  }

  ghost function TrapCapacity(a: Job, b: Job): Capacity {
    Capacity([10], [2], [2], [a.cpuCores + b.cpuCores], [RamUnits(a) + RamUnits(b)],
             [DiskUnits(a) + DiskUnits(b)], [a.gpuCount + b.gpuCount])
  }

  lemma TrapSums(jobs: seq<Job>, i: nat, j: nat, a: Choice, b: Choice)
    requires i < j < |jobs|
    requires (a == Choice(i, 0, 0) && b == Choice(j, 0, 0)) || (a == Choice(j, 0, 0) && b == Choice(i, 0, 0))
    ensures WellFormed(Trap(jobs, i, j)) && Tabled(Trap(jobs, i, j), [a]) && Tabled(Trap(jobs, i, j), [a, b])
    ensures Spend(Trap(jobs, i, j), [a], 0) == 10 && Spend(Trap(jobs, i, j), [a, b], 0) == 20
    ensures Score(Trap(jobs, i, j), [a, b]) == 2.0
    ensures forall r :: Usage(Trap(jobs, i, j), [a, b], r) ==
                        Demand(Trap(jobs, i, j), a, r) + Demand(Trap(jobs, i, j), b, r)
  {
    var inst := Trap(jobs, i, j);
    TrapCost();
    assert inst.table[a] == inst.table[b] == TRAP_ROW;
    SumsOfOne(inst, a);
    SumsOfOne(inst, b);
    assert [a, b][1..] == [b];
    forall r ensures Usage(inst, [a, b], r) == Demand(inst, a, r) + Demand(inst, b, r) {
      assert Usage(inst, [a, b], r) == Demand(inst, a, r) + Usage(inst, [b], r);
    }
  }

  ghost function LaterFirst(i: nat, j: nat): seq<Choice> { [Choice(j, 0, 0), Choice(i, 0, 0)] }

  /** Taking the later job first, both fit if the earlier one may use the reserve. */
  lemma TrapLaterFirst(jobs: seq<Job>, i: nat, j: nat)
    requires i < j < |jobs| && ReserveAllowed(jobs[i])
    ensures WellFormed(Trap(jobs, i, j)) && Fits(Trap(jobs, i, j), TrapCapacity(jobs[i], jobs[j]))
    ensures Feasible(Trap(jobs, i, j), TrapCapacity(jobs[i], jobs[j]), 2, LaterFirst(i, j))
    ensures Score(Trap(jobs, i, j), LaterFirst(i, j)) == 2.0
  {
    var inst, cap, plan := Trap(jobs, i, j), TrapCapacity(jobs[i], jobs[j]), LaterFirst(i, j);
    TrapSums(jobs, i, j, Choice(j, 0, 0), Choice(i, 0, 0));
    assert plan[..1] == [Choice(j, 0, 0)];
    assert WithinBudgets(inst, cap, plan);
    forall k, r | 0 <= k < |plan| && InRange(inst, r) && Draws(inst, plan[k], r)
      ensures Usage(inst, plan, r) <= Available(inst, cap, r)
    {
    }
  }

  lemma TrapPair(jobs: seq<Job>, i: nat, j: nat, plan: seq<Choice>)
    requires i < j < |jobs| && !ReserveAllowed(jobs[j])
    requires Tabled(Trap(jobs, i, j), plan) && InJobOrder(plan, 0) && |plan| == 2
    ensures WellFormed(Trap(jobs, i, j)) && Fits(Trap(jobs, i, j), TrapCapacity(jobs[i], jobs[j]))
    ensures !WithinBudgets(Trap(jobs, i, j), TrapCapacity(jobs[i], jobs[j]), plan)
  {
    TrapSums(jobs, i, j, Choice(i, 0, 0), Choice(j, 0, 0));
    assert plan[0] in Trap(jobs, i, j).table && plan[1] in Trap(jobs, i, j).table && plan[0].job < plan[1].job;
    assert plan == [Choice(i, 0, 0), Choice(j, 0, 0)];
    assert plan[..2] == plan;
  }

  /** In the order of the horizon only one of them fits if the later one is ordinary. */
  lemma TrapInOrder(jobs: seq<Job>, i: nat, j: nat, plan: seq<Choice>)
    requires i < j < |jobs| && !ReserveAllowed(jobs[j])
    requires WellFormed(Trap(jobs, i, j)) && Fits(Trap(jobs, i, j), TrapCapacity(jobs[i], jobs[j]))
    requires Feasible(Trap(jobs, i, j), TrapCapacity(jobs[i], jobs[j]), 2, plan) && InJobOrder(plan, 0)
    ensures Score(Trap(jobs, i, j), plan) <= 1.0
  {
    assert |plan| <= 2;
    if |plan| == 2 {
      TrapPair(jobs, i, j, plan);
    } else if |plan| == 1 {
      assert plan[1..] == [];
      assert Trap(jobs, i, j).table[plan[0]].score == 1.0;
    }
  }

  /** An earlier job with access to the reserve and a later one without: the search earns
      1, and taking the later one first would earn 2. */
  lemma SearchIsBeaten(jobs: seq<Job>, i: nat, j: nat)
    requires i < j < |jobs| && ReserveAllowed(jobs[i]) && !ReserveAllowed(jobs[j])
    ensures var inst, cap := Trap(jobs, i, j), TrapCapacity(jobs[i], jobs[j]);
      && WellFormed(inst) && Fits(inst, cap)
      && Best(inst, 0, cap, {}, 2).score <= 1.0
      && !BestInAnyOrder(inst, cap, 2)
  {
    var inst, cap := Trap(jobs, i, j), TrapCapacity(jobs[i], jobs[j]);
    TrapLaterFirst(jobs, i, j);
    SolveIsOptimal(inst, cap, 2);
    TrapInOrder(jobs, i, j, Best(inst, 0, cap, {}, 2).choices);
  }

  ghost predicate AlwaysBest(jobs: seq<Job>) {
    forall inst: Instance, cap: Capacity, lanes: int ::
      inst.jobs == jobs && WellFormed(inst) && Fits(inst, cap) ==> BestInAnyOrder(inst, cap, lanes)
  }

  /** Exactly when the search is best among plans in any order, whatever the candidates and
      capacities: no job with access to the reserve stands before one without. */
  lemma AlwaysBestMeaning(jobs: seq<Job>)
    ensures AlwaysBest(jobs) <==> ReserveLast(jobs)
  {
    if ReserveLast(jobs) {
      forall inst: Instance, cap: Capacity, lanes: int | inst.jobs == jobs && WellFormed(inst) && Fits(inst, cap)
        ensures BestInAnyOrder(inst, cap, lanes)
      {
        SolveIsOptimalInAnyOrder(inst, cap, lanes);
      }
    } else {
      var i, j :| 0 <= i < j < |jobs| && ReserveAllowed(jobs[i]) && !ReserveAllowed(jobs[j]);
      SearchIsBeaten(jobs, i, j);
    }
  }
}

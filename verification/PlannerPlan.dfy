/**
  One planning round from end to end: split the jobs by readiness, rank them, cut the
  horizon, gather pools and conflicts, search, and report what is assigned and what is
  deferred.  Jobs are referred to by their position in the input, since identifiers may
  repeat.
 */
module PlannerPlan {
  import opened Wrappers
  import opened StringOrder
  import opened WriteScopes
  import opened PlannerModel
  import opened PlannerFeasibility
  import opened PlannerOptimality
  import opened QuotaReserve
  import opened PlannerCandidates
  import Approval = ModelApproval
  import PlannerSearch

  /** Why a job was not assigned. */
  datatype Deferral =
    | Waiting(position: nat, missing: seq<string>)
    | NeedsApproval(position: nat, pool: nat)
    | Outbid(position: nat)
    | NoModelPool(position: nat)
    | NoComputeHost(position: nat)
    | OutsideHorizon(position: nat)

  // ----- readiness

  function Completed(tasks: seq<Task>, done: set<string>): set<string> {
    done + (set k | 0 <= k < |tasks| && tasks[k].markedCompleted :: tasks[k].request.id)
  }

  predicate Pending(task: Task, completed: set<string>, active: set<string>) {
    task.request.id != "" && task.request.id !in completed && task.request.id !in active
  }

  function Missing(dependsOn: seq<string>, completed: set<string>): seq<string> {
    if dependsOn == [] then []
    else (if dependsOn[0] in completed then [] else [dependsOn[0]]) + Missing(dependsOn[1..], completed)
  }

  lemma {:induction false} MissingMeaning(dependsOn: seq<string>, completed: set<string>)
    ensures forall d :: d in Missing(dependsOn, completed) <==> d in dependsOn && d !in completed
  {
    if dependsOn != [] { MissingMeaning(dependsOn[1..], completed); }
  }

  ghost predicate Ready(tasks: seq<Task>, completed: set<string>, active: set<string>, x: nat) {
    x < |tasks| && Pending(tasks[x], completed, active) && Missing(tasks[x].dependsOn, completed) == []
  }

  ghost predicate Blocked(tasks: seq<Task>, completed: set<string>, active: set<string>, x: nat) {
    x < |tasks| && Pending(tasks[x], completed, active) && Missing(tasks[x].dependsOn, completed) != []
  }

  /** The positions below `n` that are ready, in input order. */
  function ReadyBelow(tasks: seq<Task>, completed: set<string>, active: set<string>, n: nat): seq<nat>
    requires n <= |tasks|
  {
    if n == 0 then []
    else
      var rest, task := ReadyBelow(tasks, completed, active, n - 1), tasks[n - 1];
      if Pending(task, completed, active) && Missing(task.dependsOn, completed) == [] then rest + [n - 1] else rest
  }

  function WaitingBelow(tasks: seq<Task>, completed: set<string>, active: set<string>, n: nat): seq<Deferral>
    requires n <= |tasks|
  {
    if n == 0 then []
    else
      var rest, task := WaitingBelow(tasks, completed, active, n - 1), tasks[n - 1];
      var missing := Missing(task.dependsOn, completed);
      if Pending(task, completed, active) && missing != [] then rest + [Waiting(n - 1, missing)] else rest
  }

  method Readiness(tasks: seq<Task>, completed: set<string>, active: set<string>)
    returns (waiting: seq<Deferral>, ready: seq<nat>)
    ensures ready == ReadyBelow(tasks, completed, active, |tasks|)
    ensures waiting == WaitingBelow(tasks, completed, active, |tasks|)
  {
    waiting, ready := [], [];
    for x := 0 to |tasks|
      invariant ready == ReadyBelow(tasks, completed, active, x)
      invariant waiting == WaitingBelow(tasks, completed, active, x)
    {
      if Pending(tasks[x], completed, active) {
        var missing := Missing(tasks[x].dependsOn, completed);
        if missing != [] {
          waiting := waiting + [Waiting(x, missing)];
        } else {
          ready := ready + [x];
        }
      }
    }
  }

  /** The list holds exactly the ready positions below `n`, ascending. */
  ghost predicate ListsReady(tasks: seq<Task>, completed: set<string>, active: set<string>, n: nat, s: seq<nat>) {
    Increasing(s) && forall x: nat :: x in s <==> x < n && Ready(tasks, completed, active, x)
  }

  lemma OneMoreReady(tasks: seq<Task>, completed: set<string>, active: set<string>, n: nat, rest: seq<nat>)
    requires ListsReady(tasks, completed, active, n, rest)
    ensures Ready(tasks, completed, active, n) ==> ListsReady(tasks, completed, active, n + 1, rest + [n])
    ensures !Ready(tasks, completed, active, n) ==> ListsReady(tasks, completed, active, n + 1, rest)
  {
    assert forall k :: 0 <= k < |rest| ==> rest[k] in rest;
  }

  lemma NextReady(tasks: seq<Task>, completed: set<string>, active: set<string>, n: nat)
    requires 0 < n <= |tasks|
    requires ListsReady(tasks, completed, active, n - 1, ReadyBelow(tasks, completed, active, n - 1))
    ensures ListsReady(tasks, completed, active, n, ReadyBelow(tasks, completed, active, n))
  {
    OneMoreReady(tasks, completed, active, n - 1, ReadyBelow(tasks, completed, active, n - 1));
  }

  lemma {:induction false} ReadyMeaning(tasks: seq<Task>, completed: set<string>, active: set<string>, n: nat)
    requires n <= |tasks|
    ensures ListsReady(tasks, completed, active, n, ReadyBelow(tasks, completed, active, n))
  {
    if n > 0 {
      ReadyMeaning(tasks, completed, active, n - 1);
      NextReady(tasks, completed, active, n);
    }
  }

  /** The deferral that reports an unready job. */
  ghost predicate Reports(tasks: seq<Task>, completed: set<string>, active: set<string>, d: Deferral) {
    d.Waiting? && Blocked(tasks, completed, active, d.position) &&
    d.missing == Missing(tasks[d.position].dependsOn, completed)
  }

  lemma {:induction false} WaitingMeaning(tasks: seq<Task>, completed: set<string>, active: set<string>, n: nat)
    requires n <= |tasks|
    ensures forall d :: d in WaitingBelow(tasks, completed, active, n) <==>
      Reports(tasks, completed, active, d) && d.position < n
  {
    if n > 0 {
      WaitingMeaning(tasks, completed, active, n - 1);
    }
  }

  // ----- ranking: priority, then shorter workloads, then difficulty, then identifier

  /** Zero minutes means unknown, and unknown ranks last. */
  predicate Sooner(a: real, b: real) { a > 0.0 && (b <= 0.0 || a < b) }

  predicate SameMinutes(a: real, b: real) { a == b || (a <= 0.0 && b <= 0.0) }

  predicate Precedes(a: Task, b: Task) {
    || a.estimate.priority > b.estimate.priority
    || (&& a.estimate.priority == b.estimate.priority
        && (|| Sooner(a.computeMinutes, b.computeMinutes)
            || (&& SameMinutes(a.computeMinutes, b.computeMinutes)
                && (|| a.difficulty > b.difficulty
                    || (a.difficulty == b.difficulty && Less(a.request.id, b.request.id))))))
  }

  /** The stable sort's order: by key, and by position among equal keys. */
  ghost predicate Ranked(tasks: seq<Task>, x: nat, y: nat)
    requires x < |tasks| && y < |tasks|
  {
    Precedes(tasks[x], tasks[y]) || (!Precedes(tasks[y], tasks[x]) && x < y)
  }

  lemma RankedTransitive(tasks: seq<Task>, x: nat, y: nat, z: nat)
    requires x < |tasks| && y < |tasks| && z < |tasks| && Ranked(tasks, x, y) && Ranked(tasks, y, z)
    ensures Ranked(tasks, x, z)
  {
    var a, b, c := tasks[x].request.id, tasks[y].request.id, tasks[z].request.id;
    LessTotal(a, b);
    LessTotal(b, c);
    LessTotal(a, c);
    LessAsymmetric(a, b);
    LessAsymmetric(b, c);
    LessAsymmetric(a, c);
    if Less(a, b) && Less(b, c) { LessTransitive(a, b, c); }
    if Less(c, b) && Less(b, a) { LessTransitive(c, b, a); }
  }

  ghost predicate Valid(tasks: seq<Task>, s: seq<nat>) { forall k :: 0 <= k < |s| ==> s[k] < |tasks| }

  ghost predicate SortedByRank(tasks: seq<Task>, s: seq<nat>)
    requires Valid(tasks, s)
  {
    forall j, k :: 0 <= j < k < |s| ==> Ranked(tasks, s[j], s[k])
  }

  /** Inserts `x`, which comes later in the input than everything in `s`. */
  function Place(tasks: seq<Task>, x: nat, s: seq<nat>): (r: seq<nat>)
    requires x < |tasks| && Valid(tasks, s)
    ensures Valid(tasks, r) && |r| == |s| + 1
    ensures forall y: nat :: y in r <==> y == x || y in s
  {
    if s == [] then [x]
    else if Precedes(tasks[x], tasks[s[0]]) then [x] + s
    else [s[0]] + Place(tasks, x, s[1..])
  }

  lemma {:induction false} PlaceSorts(tasks: seq<Task>, x: nat, s: seq<nat>)
    requires x < |tasks| && Valid(tasks, s) && SortedByRank(tasks, s)
    requires forall y: nat :: y in s ==> y < x
    ensures SortedByRank(tasks, Place(tasks, x, s))
  {
    if s != [] {
      if Precedes(tasks[x], tasks[s[0]]) {
        forall k | 0 < k < |s| ensures Ranked(tasks, x, s[k]) {
          assert Ranked(tasks, s[0], s[k]);
          RankedTransitive(tasks, x, s[0], s[k]);
        }
      } else {
        var tail := s[1..];
        assert forall k :: 0 <= k < |tail| ==> tail[k] == s[k + 1];
        assert forall y :: y in tail ==> y in s;
        PlaceSorts(tasks, x, tail);
        var rest := Place(tasks, x, tail);
        forall k | 0 <= k < |rest| ensures Ranked(tasks, s[0], rest[k]) {
          assert rest[k] in rest;
          assert s[0] in s;
          if rest[k] != x {
            var m :| 0 <= m < |tail| && tail[m] == rest[k];
            assert s[m + 1] == rest[k];
          }
        }
      }
    }
  }

  method Rank(tasks: seq<Task>, ready: seq<nat>) returns (ranked: seq<nat>)
    requires Valid(tasks, ready) && Increasing(ready)
    ensures Valid(tasks, ranked) && SortedByRank(tasks, ranked) && |ranked| == |ready|
    ensures forall x: nat :: x in ranked <==> x in ready
  {
    ranked := [];
    for k := 0 to |ready|
      invariant Valid(tasks, ranked) && SortedByRank(tasks, ranked) && |ranked| == k
      invariant forall x: nat :: x in ranked <==> x in ready[..k]
    {
      PlaceSorts(tasks, ready[k], ranked);
      ranked := Place(tasks, ready[k], ranked);
    }
  }

  // ----- write-scope conflicts

  /** The indices below `n` whose scope clashes with scope `i`. */
  function ClashesBelow(clash: (string, string) -> bool, scopes: seq<string>, i: nat, n: nat): set<nat>
    requires i < |scopes| && n <= |scopes|
  {
    set j: nat | j < n && i != j && clash(scopes[i], scopes[j])
  }

  /** Which jobs clash with which, for any notion of clashing scopes. */
  method Conflicts(clash: (string, string) -> bool, scopes: seq<string>) returns (conflicts: seq<set<nat>>)
    ensures |conflicts| == |scopes|
    ensures forall i :: 0 <= i < |scopes| ==> conflicts[i] == ClashesBelow(clash, scopes, i, |scopes|)
  {
    conflicts := [];
    for i := 0 to |scopes|
      invariant |conflicts| == i
      invariant forall m :: 0 <= m < i ==> conflicts[m] == ClashesBelow(clash, scopes, m, |scopes|)
    {
      var row: set<nat> := {};
      for j := 0 to |scopes|
        invariant row == ClashesBelow(clash, scopes, i, j)
      {
        if i != j && clash(scopes[i], scopes[j]) {
          row := row + {j};
        }
        assert row == ClashesBelow(clash, scopes, i, j + 1);
      }
      conflicts := conflicts + [row];
    }
  }

  // ----- the round

  function HostCapacity(hosts: seq<HostState>, budgets: seq<int>, slots: seq<int>): Capacity {
    Capacity(budgets, slots,
      seq(|hosts|, h requires 0 <= h < |hosts| => hosts[h].slots),
      seq(|hosts|, h requires 0 <= h < |hosts| => hosts[h].cpu),
      seq(|hosts|, h requires 0 <= h < |hosts| => hosts[h].ram),
      seq(|hosts|, h requires 0 <= h < |hosts| => hosts[h].disk),
      seq(|hosts|, h requires 0 <= h < |hosts| => hosts[h].gpu))
  }

  function Horizon(ranked: seq<nat>, horizon: int): nat {
    if Max(1, horizon) < |ranked| then Max(1, horizon) else |ranked|
  }

  /** Everything the round hands on: the horizon, the participating pools, the problem posed
      to the search, the missing approvals, the choices made and the jobs put off. */
  datatype Round = Round(
    considered: seq<nat>,
    ids: seq<nat>,
    inst: Instance,
    cap: Capacity,
    gated: seq<seq<nat>>,
    reached: set<nat>,
    outcome: Outcome,
    projected: seq<Option<real>>,
    deferred: seq<Deferral>)

  function MarketOf(considered: seq<nat>, ids: seq<nat>, cap: Capacity): Market {
    Market(considered, ids, cap.budgets, cap.poolSlots)
  }

  ghost predicate AssignedAt(round: Round, x: nat) {
    exists k :: 0 <= k < |round.outcome.choices| && round.outcome.choices[k].job < |round.considered| &&
      round.considered[round.outcome.choices[k].job] == x
  }

  ghost predicate DeferredAt(deferred: seq<Deferral>, x: nat) {
    exists k :: 0 <= k < |deferred| && deferred[k].position == x
  }

  /** The deferral is of one of the first `n` considered jobs that was not selected. */
  ghost predicate LeftOver(considered: seq<nat>, selected: set<nat>, n: nat, d: Deferral)
    requires n <= |considered|
  {
    exists i :: 0 <= i < n && i !in selected && d.position == considered[i]
  }

  function ApprovalReports(x: nat, gated: seq<nat>): (r: seq<Deferral>)
    ensures |r| == |gated| && forall k :: 0 <= k < |r| ==> r[k] == NeedsApproval(x, gated[k])
  {
    seq(|gated|, k requires 0 <= k < |gated| => NeedsApproval(x, gated[k]))
  }

  /** Why job `x` was not placed: the pools that lack its approval; failing that, because
      others scored more, because no pool made it an offer, or because no host fitted. */
  function Reasons(x: nat, gated: seq<nat>, tabled: bool, reached: bool): (r: seq<Deferral>)
    ensures r != [] && forall d :: d in r ==> d.position == x && !d.Waiting? && !d.OutsideHorizon?
    ensures forall q :: NeedsApproval(x, q) in r <==> q in gated
  {
    if gated != [] then ApprovalReports(x, gated)
    else [if tabled then Outbid(x) else if !reached then NoModelPool(x) else NoComputeHost(x)]
  }

  predicate HasRow(table: map<Choice, Candidate>, i: nat) { exists c :: c in table && c.job == i }

  function ReasonsOf(table: map<Choice, Candidate>, considered: seq<nat>, gated: seq<seq<nat>>, reached: set<nat>,
                     i: nat): (r: seq<Deferral>)
    requires i < |considered| == |gated|
    ensures r != [] && forall d :: d in r ==> d.position == considered[i] && !d.Waiting? && !d.OutsideHorizon?
    ensures forall q :: NeedsApproval(considered[i], q) in r <==> q in gated[i]
  {
    Reasons(considered[i], gated[i], HasRow(table, i), i in reached)
  }

  ghost predicate PutOff(table: map<Choice, Candidate>, considered: seq<nat>, gated: seq<seq<nat>>, reached: set<nat>,
                         selected: set<nat>, n: nat, d: Deferral)
    requires n <= |considered| == |gated|
  {
    exists i: nat :: i < n && i !in selected && d in ReasonsOf(table, considered, gated, reached, i)
  }

  /** What is deferred among the considered jobs: every reason of every job not selected. */
  method DeferUnselected(table: map<Choice, Candidate>, considered: seq<nat>, gated: seq<seq<nat>>, reached: set<nat>,
                         selected: set<nat>) returns (deferred: seq<Deferral>)
    requires |considered| == |gated|
    ensures forall d :: d in deferred <==> PutOff(table, considered, gated, reached, selected, |considered|, d)
  {
    deferred := [];
    for i := 0 to |considered|
      invariant forall d :: d in deferred <==> PutOff(table, considered, gated, reached, selected, i, d)
    {
      if i !in selected {
        deferred := deferred + ReasonsOf(table, considered, gated, reached, i);
      }
    }
  }

  lemma PutOffPlaces(table: map<Choice, Candidate>, considered: seq<nat>, gated: seq<seq<nat>>, reached: set<nat>,
                     selected: set<nat>, deferred: seq<Deferral>)
    requires |considered| == |gated|
    requires forall d :: d in deferred <==> PutOff(table, considered, gated, reached, selected, |considered|, d)
    ensures forall d :: d in deferred ==> LeftOver(considered, selected, |considered|, d)
    ensures forall i :: 0 <= i < |considered| && i !in selected ==> DeferredAt(deferred, considered[i])
  {
    forall i | 0 <= i < |considered| && i !in selected ensures DeferredAt(deferred, considered[i]) {
      var d := ReasonsOf(table, considered, gated, reached, i)[0];
      assert d in ReasonsOf(table, considered, gated, reached, i);
      assert PutOff(table, considered, gated, reached, selected, |considered|, d);
      var k :| 0 <= k < |deferred| && deferred[k] == d;
    }
  }

  function Scopes(tasks: seq<Task>, considered: seq<nat>): (r: seq<string>)
    requires Valid(tasks, considered)
    ensures |r| == |considered| && forall i :: 0 <= i < |r| ==> r[i] == tasks[considered[i]].writeScope
  {
    seq(|considered|, i requires 0 <= i < |considered| => tasks[considered[i]].writeScope)
  }

  function States(pools: seq<PoolEntry>): (r: seq<PoolState>)
    ensures |r| == |pools| && forall q :: 0 <= q < |r| ==> r[q] == pools[q].state
  {
    seq(|pools|, q requires 0 <= q < |pools| => pools[q].state)
  }

  /** The conflict masks of the considered tasks. */
  ghost predicate Masked(tasks: seq<Task>, considered: seq<nat>, conflicts: seq<set<nat>>)
    requires Valid(tasks, considered)
  {
    && |conflicts| == |considered|
    && forall i :: 0 <= i < |considered| ==>
      conflicts[i] == ClashesBelow(ScopesConflict, Scopes(tasks, considered), i, |considered|)
  }

  /** The problem posed for the considered tasks, the participating pools and all hosts. */
  ghost predicate Posed(scene: Scene, considered: seq<nat>, ids: seq<nat>, inst: Instance, cap: Capacity)
    requires Valid(scene.tasks, considered)
  {
    && |inst.jobs| == |considered| && inst.pools == |ids| && inst.hosts == |scene.hosts|
    && (forall i :: 0 <= i < |considered| ==> inst.jobs[i] == scene.tasks[considered[i]].estimate)
    && Stocked(scene, MarketOf(considered, ids, cap)) && IsTable(scene, MarketOf(considered, ids, cap), inst.table)
    && Masked(scene.tasks, considered, inst.conflicts)
  }

  lemma MasksAreSymmetric(tasks: seq<Task>, considered: seq<nat>, conflicts: seq<set<nat>>, i: nat, j: nat)
    requires Valid(tasks, considered) && Masked(tasks, considered, conflicts)
    requires i < |considered| && j < |considered|
    ensures j in conflicts[i] <==> i in conflicts[j]
  {
    var scopes := Scopes(tasks, considered);
    ConflictMeaning(scopes[i], scopes[j]);
  }

  lemma RowsAreIndexed(scene: Scene, considered: seq<nat>, ids: seq<nat>, inst: Instance, cap: Capacity)
    requires Usable(scene) && Valid(scene.tasks, considered)
    requires Posed(scene, considered, ids, inst, cap)
    ensures forall c :: c in inst.table ==> Indexed(inst, c)
  {
    forall c | c in inst.table ensures Indexed(inst, c) {
      RowIsPicked(scene, MarketOf(considered, ids, cap), inst.table, c);
    }
  }

  lemma PosedIsWellFormed(scene: Scene, considered: seq<nat>, ids: seq<nat>, inst: Instance, cap: Capacity)
    requires Usable(scene) && Valid(scene.tasks, considered)
    requires Posed(scene, considered, ids, inst, cap)
    ensures WellFormed(inst)
  {
    RowsAreIndexed(scene, considered, ids, inst, cap);
    forall i, j | 0 <= i < |inst.jobs| && 0 <= j < |inst.jobs|
      ensures j in inst.conflicts[i] <==> i in inst.conflicts[j]
    {
      MasksAreSymmetric(scene.tasks, considered, inst.conflicts, i, j);
    }
  }

  /** No two assigned tasks have clashing write scopes. */
  ghost predicate ScopesApart(tasks: seq<Task>, considered: seq<nat>, plan: seq<Choice>)
    requires Valid(tasks, considered)
  {
    forall j, k :: 0 <= j < |plan| && 0 <= k < |plan| && j != k &&
                   plan[j].job < |considered| && plan[k].job < |considered| ==>
      !ScopesConflict(tasks[considered[plan[j].job]].writeScope, tasks[considered[plan[k].job]].writeScope)
  }

  lemma FeasibleKeepsScopesApart(tasks: seq<Task>, considered: seq<nat>, inst: Instance, plan: seq<Choice>)
    requires WellFormed(inst) && Valid(tasks, considered) && Masked(tasks, considered, inst.conflicts)
    requires Tabled(inst, plan) && DistinctJobs(plan) && ConflictFree(inst, plan)
    ensures ScopesApart(tasks, considered, plan)
  {
    forall j, k | 0 <= j < |plan| && 0 <= k < |plan| && j != k &&
                  plan[j].job < |considered| && plan[k].job < |considered|
      ensures !ScopesConflict(tasks[considered[plan[j].job]].writeScope, tasks[considered[plan[k].job]].writeScope)
    {
      var a, b := plan[j].job, plan[k].job;
      assert a != b && b !in inst.conflicts[a];
      assert b !in ClashesBelow(ScopesConflict, Scopes(tasks, considered), a, |considered|);
    }
  }

  /** The considered jobs are the ready ones of the best rank, as many as the horizon takes. */
  ghost predicate Heads(tasks: seq<Task>, completed: set<string>, active: set<string>, horizon: int,
                        considered: seq<nat>) {
    && Valid(tasks, considered) && SortedByRank(tasks, considered) && |considered| <= Max(1, horizon)
    && (forall i :: 0 <= i < |considered| ==> Ready(tasks, completed, active, considered[i]))
    && forall x: nat :: Ready(tasks, completed, active, x) && x !in considered ==>
      |considered| == Max(1, horizon) && forall i :: 0 <= i < |considered| ==> Ranked(tasks, considered[i], x)
  }

  lemma PrefixHeads(tasks: seq<Task>, completed: set<string>, active: set<string>, horizon: int, ranked: seq<nat>)
    requires Valid(tasks, ranked) && SortedByRank(tasks, ranked)
    requires forall x: nat :: x in ranked <==> Ready(tasks, completed, active, x)
    ensures Heads(tasks, completed, active, horizon, ranked[..Horizon(ranked, horizon)])
  {
    var considered := ranked[..Horizon(ranked, horizon)];
    forall x: nat | Ready(tasks, completed, active, x) && x !in considered
      ensures |considered| == Max(1, horizon) && forall i :: 0 <= i < |considered| ==> Ranked(tasks, considered[i], x)
    {
      var k :| 0 <= k < |ranked| && ranked[k] == x;
      assert k >= |considered|;
    }
    forall i | 0 <= i < |considered| ensures Ready(tasks, completed, active, considered[i]) {
      assert considered[i] == ranked[i];
    }
  }

  /** The ready jobs in rank order, cut to the horizon, and those still waiting. */
  method Select(tasks: seq<Task>, completed: set<string>, active: set<string>, horizon: int)
    returns (waiting: seq<Deferral>, ranked: seq<nat>, considered: seq<nat>)
    ensures Valid(tasks, ranked) && SortedByRank(tasks, ranked)
    ensures forall x: nat :: x in ranked <==> Ready(tasks, completed, active, x)
    ensures forall d :: d in waiting <==> Reports(tasks, completed, active, d)
    ensures |considered| <= |ranked| && considered == ranked[..|considered|]
    ensures Heads(tasks, completed, active, horizon, considered)
  {
    var ready;
    waiting, ready := Readiness(tasks, completed, active);
    ReadyMeaning(tasks, completed, active, |tasks|);
    WaitingMeaning(tasks, completed, active, |tasks|);
    assert Valid(tasks, ready) by {
      assert forall k :: 0 <= k < |ready| ==> ready[k] in ready;
    }
    ranked := Rank(tasks, ready);
    considered := ranked[..Horizon(ranked, horizon)];
    PrefixHeads(tasks, completed, active, horizon, ranked);
  }

  /** The assignment problem for the considered jobs, with the approvals that are missing. */
  method Pose(scene: Scene, considered: seq<nat>)
    returns (ids: seq<nat>, inst: Instance, cap: Capacity, gated: seq<seq<nat>>, reached: set<nat>)
    requires Usable(scene) && Valid(scene.tasks, considered)
    ensures Posed(scene, considered, ids, inst, cap) && WellFormed(inst) && Fits(inst, cap)
    ensures Gathered(States(scene.pools), |scene.pools|, ids, cap.budgets, cap.poolSlots)
    ensures cap == HostCapacity(scene.hosts, cap.budgets, cap.poolSlots)
    ensures Noted(scene, MarketOf(considered, ids, cap), gated, reached)
  {
    var budgets, slots;
    ids, budgets, slots := GatherPools(States(scene.pools));
    var conflicts := Conflicts(ScopesConflict, Scopes(scene.tasks, considered));
    var market := Market(considered, ids, budgets, slots);
    var table;
    table, gated, reached := BuildTable(scene, market);
    inst := Instance(
      seq(|considered|, i requires 0 <= i < |considered| => scene.tasks[considered[i]].estimate),
      |ids|, |scene.hosts|, conflicts, table);
    cap := HostCapacity(scene.hosts, budgets, slots);
    assert MarketOf(considered, ids, cap) == market;
    PosedIsWellFormed(scene, considered, ids, inst, cap);
  }

  /** The approvals that are missing and the jobs that got an offer. */
  ghost predicate Noted(scene: Scene, m: Market, gated: seq<seq<nat>>, reached: set<nat>)
    requires Stocked(scene, m)
  {
    && |gated| == |m.considered| && (forall i :: 0 <= i < |gated| ==> gated[i] == AllGated(scene, m, i))
    && forall i: nat :: i in reached <==> i < |m.considered| && PlannerCandidates.Reached(scene, m, i)
  }

  /** Optimality of a round, as `SolveIsOptimal` states it. */
  ghost predicate Optimal(inst: Instance, cap: Capacity, lanes: int, o: Outcome)
    requires WellFormed(inst) && Fits(inst, cap)
  {
    && Feasible(inst, cap, lanes, o.choices)
    && o.score == Score(inst, o.choices)
    && forall plan :: Feasible(inst, cap, lanes, plan) && InJobOrder(plan, 0) ==> Score(inst, plan) <= o.score
  }

  /** Every pending job is either assigned or deferred, never both, and nothing else is. */
  ghost predicate NoJobLost(tasks: seq<Task>, completed: set<string>, active: set<string>, round: Round) {
    forall x: nat ::
      && (AssignedAt(round, x) || DeferredAt(round.deferred, x) <==>
            x < |tasks| && Pending(tasks[x], completed, active))
      && !(AssignedAt(round, x) && DeferredAt(round.deferred, x))
  }

  function PlacedJobs(choices: seq<Choice>): set<nat> { set k | 0 <= k < |choices| :: choices[k].job }

  /** A ready job beyond the horizon. */
  ghost predicate Beyond(tasks: seq<Task>, completed: set<string>, active: set<string>, considered: seq<nat>,
                         d: Deferral) {
    d.OutsideHorizon? && Ready(tasks, completed, active, d.position) && d.position !in considered
  }

  /** Exactly what is reported as deferred: the unready jobs with what they miss, the reasons
      of the considered jobs that were not selected, and the ready jobs beyond the horizon. */
  ghost predicate Explained(tasks: seq<Task>, completed: set<string>, active: set<string>, round: Round)
    requires |round.considered| == |round.gated|
  {
    forall d :: d in round.deferred <==>
      || Reports(tasks, completed, active, d)
      || PutOff(round.inst.table, round.considered, round.gated, round.reached, PlacedJobs(round.outcome.choices),
                |round.considered|, d)
      || Beyond(tasks, completed, active, round.considered, d)
  }

  lemma BeyondMeaning(tasks: seq<Task>, completed: set<string>, active: set<string>, ranked: seq<nat>,
                      considered: seq<nat>, outside: seq<Deferral>)
    requires Valid(tasks, ranked) && SortedByRank(tasks, ranked)
    requires forall x: nat :: x in ranked <==> Ready(tasks, completed, active, x)
    requires |considered| <= |ranked| && considered == ranked[..|considered|]
    requires |outside| == |ranked| - |considered|
    requires forall k :: 0 <= k < |outside| ==> outside[k] == OutsideHorizon(ranked[|considered| + k])
    ensures forall d :: d in outside <==> Beyond(tasks, completed, active, considered, d)
  {
    RankedOnce(tasks, ranked);
    forall d ensures d in outside <==> Beyond(tasks, completed, active, considered, d) {
      if d in outside {
        var k :| 0 <= k < |outside| && outside[k] == d;
        assert ranked[|considered| + k] in ranked;
      }
      if Beyond(tasks, completed, active, considered, d) {
        var j :| 0 <= j < |ranked| && ranked[j] == d.position;
        assert j >= |considered|;
        assert outside[j - |considered|] == d;
      }
    }
  }

  /** The search on a posed problem. */
  method Search(scene: Scene, considered: seq<nat>, ids: seq<nat>, inst: Instance, cap: Capacity, maxLanes: int)
    returns (outcome: Outcome)
    requires Valid(scene.tasks, considered) && Posed(scene, considered, ids, inst, cap)
    requires WellFormed(inst) && Fits(inst, cap)
    ensures Optimal(inst, cap, maxLanes, outcome) && ScopesApart(scene.tasks, considered, outcome.choices)
  {
    var solver := new PlannerSearch.Solver(inst);
    outcome := solver.Solve(0, cap, {}, maxLanes);
    SolveIsOptimal(inst, cap, maxLanes);
    FeasibleKeepsScopesApart(scene.tasks, considered, inst, outcome.choices);
  }

  /** The balances a round publishes. */
  ghost predicate Published(scene: Scene, round: Round)
    requires WellFormed(round.inst) && Tabled(round.inst, round.outcome.choices)
  {
    && |round.projected| == |round.ids|
    && (forall p :: 0 <= p < |round.ids| ==> round.ids[p] < |scene.pools|)
    && forall p :: 0 <= p < |round.ids| ==>
      round.projected[p] == Balance(round.inst, round.outcome.choices, p, scene.pools[round.ids[p]].state.remaining)
  }

  /** What a whole round is: the best-ranked ready jobs, the problem posed for them with exact
      models, an optimal answer to it, and a report on every pending job and every balance. */
  ghost predicate IsRound(scene: Scene, done: set<string>, active: set<string>, maxLanes: int, horizon: int,
                          round: Round) {
    var completed := Completed(scene.tasks, done);
    && Heads(scene.tasks, completed, active, horizon, round.considered)
    && Posed(scene, round.considered, round.ids, round.inst, round.cap)
    && Noted(scene, MarketOf(round.considered, round.ids, round.cap), round.gated, round.reached)
    && WellFormed(round.inst) && Fits(round.inst, round.cap)
    && round.cap == HostCapacity(scene.hosts, round.cap.budgets, round.cap.poolSlots)
    && Gathered(States(scene.pools), |scene.pools|, round.ids, round.cap.budgets, round.cap.poolSlots)
    && Optimal(round.inst, round.cap, maxLanes, round.outcome)
    && ScopesApart(scene.tasks, round.considered, round.outcome.choices)
    && NoJobLost(scene.tasks, completed, active, round)
    && Explained(scene.tasks, completed, active, round) && Published(scene, round)
  }

  /** Everything that is deferred, once the choices of a round are made: the waiting jobs,
      those not selected, and those outside the horizon. */
  method DeferAll(tasks: seq<Task>, completed: set<string>, active: set<string>, waiting: seq<Deferral>,
                  ranked: seq<nat>, round: Round) returns (deferred: seq<Deferral>)
    requires Valid(tasks, ranked) && SortedByRank(tasks, ranked)
    requires forall x: nat :: x in ranked <==> Ready(tasks, completed, active, x)
    requires forall d :: d in waiting <==> Reports(tasks, completed, active, d)
    requires |round.considered| <= |ranked| && round.considered == ranked[..|round.considered|]
    requires forall k :: 0 <= k < |round.outcome.choices| ==> round.outcome.choices[k].job < |round.considered|
    requires |round.considered| == |round.gated|
    ensures NoJobLost(tasks, completed, active, round.(deferred := deferred))
    ensures Explained(tasks, completed, active, round.(deferred := deferred))
  {
    var considered, selected := round.considered, PlacedJobs(round.outcome.choices);
    var unselected := DeferUnselected(round.inst.table, considered, round.gated, round.reached, selected);
    PutOffPlaces(round.inst.table, considered, round.gated, round.reached, selected, unselected);
    var outside := seq(|ranked| - |considered|,
                       k requires 0 <= k < |ranked| - |considered| => OutsideHorizon(ranked[|considered| + k]));
    deferred := waiting + unselected + outside;
    BeyondMeaning(tasks, completed, active, ranked, considered, outside);
    RoundCovers(tasks, completed, active, ranked, round.(deferred := deferred), waiting, unselected, outside, selected);
  }

  /** A whole round. */
  method Plan(scene: Scene, done: set<string>, active: set<string>, maxLanes: int, horizon: int)
    returns (round: Round)
    requires Usable(scene)
    ensures IsRound(scene, done, active, maxLanes, horizon, round)
  {
    var tasks := scene.tasks;
    var completed := Completed(tasks, done);
    var waiting, ranked, considered := Select(tasks, completed, active, horizon);
    var ids, inst, cap, gated, reached := Pose(scene, considered);
    var outcome := Search(scene, considered, ids, inst, cap, maxLanes);
    var remaining := seq(|ids|, p requires 0 <= p < |ids| => scene.pools[ids[p]].state.remaining);
    var projected, _ := Project(inst, outcome.choices, remaining);
    var settled := Round(considered, ids, inst, cap, gated, reached, outcome, projected, []);
    var deferred := DeferAll(tasks, completed, active, waiting, ranked, settled);
    round := settled.(deferred := deferred);
  }

  /** What a round promises about a pool with a reported balance: if no job placed on it has
      access to the reserve, the published projection stays at or above the reserve, and a
      pool nothing was placed on keeps its balance. */
  lemma RoundKeepsReserve(scene: Scene, lanes: int, round: Round, p: nat)
    requires WellFormed(round.inst) && Fits(round.inst, round.cap) && round.inst.pools == |round.ids|
    requires Gathered(States(scene.pools), |scene.pools|, round.ids, round.cap.budgets, round.cap.poolSlots)
    requires Optimal(round.inst, round.cap, lanes, round.outcome) && Published(scene, round)
    requires p < |round.ids| && scene.pools[round.ids[p]].state.remaining.Some?
    requires forall k :: 0 <= k < |round.outcome.choices| && round.outcome.choices[k].pool == p ==>
                         !ReserveAllowed(round.inst.jobs[round.outcome.choices[k].job])
    ensures round.projected[p].Some?
    ensures (exists k :: 0 <= k < |round.outcome.choices| && round.outcome.choices[k].pool == p) ==>
              round.projected[p].value >= ReservePercent(scene.pools[round.ids[p]].state.reserve).value as real
    ensures (forall k :: 0 <= k < |round.outcome.choices| ==> round.outcome.choices[k].pool != p) ==>
              round.projected[p] == scene.pools[round.ids[p]].state.remaining
  {
    PoolEndsAboveReserve(round.inst, round.cap, lanes, round.outcome.choices, p, scene.pools[round.ids[p]].state);
  }

  // ----- exact models

  /** Every assignment of a round names the model that was chosen for its job and pool: one
      that is offered, on a pool the job may use, and on an opencode pool one that the job
      itself names, unless what it demands is a blank name. */
  lemma RoundUsesExactModels(scene: Scene, round: Round, k: nat)
    requires Valid(scene.tasks, round.considered) && k < |round.outcome.choices|
    requires Posed(scene, round.considered, round.ids, round.inst, round.cap)
    requires Tabled(round.inst, round.outcome.choices)
    ensures var c := round.outcome.choices[k];
      && c.job < |round.considered| && c.pool < |round.ids|
      && var row := round.inst.table[c];
        var task, pool := scene.tasks[round.considered[c.job]], scene.pools[round.ids[c.pool]];
        && PoolAllowed(task, pool.id) && row.model !in pool.models.rejected
        && (row.model in pool.models.catalog
            || (row.model in pool.models.excluded && row.model in task.request.optIn)
            || (pool.models.catalog == {} && pool.models.excluded * task.request.optIn == {}))
        && (pool.profile.opencode ==>
              (row.model in Approval.Approvals(task.request, pool.id) <==>
               !Approval.DemandsBlank(task.request, pool.id)))
  {
    var c := round.outcome.choices[k];
    RowIsPicked(scene, MarketOf(round.considered, round.ids, round.cap), round.inst.table, c);
    var task, pool := scene.tasks[round.considered[c.job]], scene.pools[round.ids[c.pool]];
    Approval.ChosenIsOffered(task.request, pool.id, pool.models, pool.profile);
    if pool.profile.opencode { Approval.OpencodeIsApproved(task.request, pool.id, pool.models, pool.profile); }
  }

  /** What the reason given for a considered job without missing approvals means: it has a row
      in the table and others scored more, some pool made an offer but no host fits, or no
      pool made one. */
  lemma ReasonMeaning(scene: Scene, round: Round, i: nat)
    requires Valid(scene.tasks, round.considered) && Posed(scene, round.considered, round.ids, round.inst, round.cap)
    requires Noted(scene, MarketOf(round.considered, round.ids, round.cap), round.gated, round.reached)
    requires i < |round.considered| == |round.gated| && round.gated[i] == []
    ensures var m, x := MarketOf(round.considered, round.ids, round.cap), round.considered[i];
      ReasonsOf(round.inst.table, round.considered, round.gated, round.reached, i) ==
        if exists c: Choice :: c.job == i && RowOf(scene, m, c).Some? then [Outbid(x)]
        else if exists p: nat :: p < |m.ids| && OfferOf(scene, m, i, p).Some? then [NoComputeHost(x)]
        else [NoModelPool(x)]
  {
    var m := MarketOf(round.considered, round.ids, round.cap);
    assert HasRow(round.inst.table, i) <==> exists c: Choice :: c.job == i && RowOf(scene, m, c).Some? by {
      if c :| c in round.inst.table && c.job == i { assert RowOf(scene, m, c).Some?; }
    }
    if p: nat :| p < |m.ids| && OfferOf(scene, m, i, p).Some? {
      AnOfferCounts(scene, m, i, |m.ids|, p);
    } else {
      NoOffersAtAll(scene, m, i, |m.ids|);
    }
  }

  /** The job at `i` and the pool at `p` are held up by the approval gate. */
  ghost predicate AwaitsApproval(scene: Scene, round: Round, i: nat, p: nat)
    requires Valid(scene.tasks, round.considered) && Posed(scene, round.considered, round.ids, round.inst, round.cap)
  {
    && i < |round.considered| && p < |round.ids| && i !in PlacedJobs(round.outcome.choices)
    && var task, pool := scene.tasks[round.considered[i]], scene.pools[round.ids[p]];
      && PoolAllowed(task, pool.id) && round.cap.poolSlots[p] > 0 && pool.profile.opencode
      && Approval.Approvals(task.request, pool.id) == {} && Approval.Requested(task.request, pool.id).model == ""
  }

  /** Exactly which approvals a round asks for: of each considered job that was not placed,
      for each opencode pool with a free slot that it may use and names no model for. */
  lemma ApprovalsAskedFor(scene: Scene, completed: set<string>, active: set<string>, round: Round, x: nat, q: nat)
    requires Valid(scene.tasks, round.considered) && Posed(scene, round.considered, round.ids, round.inst, round.cap)
    requires Noted(scene, MarketOf(round.considered, round.ids, round.cap), round.gated, round.reached)
    requires |round.gated| == |round.considered| && Explained(scene.tasks, completed, active, round)
    ensures NeedsApproval(x, q) in round.deferred <==>
      exists i: nat, p: nat :: AwaitsApproval(scene, round, i, p) && round.considered[i] == x && round.ids[p] == q
  {
    var m, d := MarketOf(round.considered, round.ids, round.cap), NeedsApproval(x, q);
    var selected := PlacedJobs(round.outcome.choices);
    if d in round.deferred {
      var i: nat :| i < |round.considered| && i !in selected &&
        d in ReasonsOf(round.inst.table, round.considered, round.gated, round.reached, i);
      GatedMeaning(scene, m, i, |m.ids|);
      var p: nat :| p < |m.ids| && m.ids[p] == q && Gated(scene, m, i, p);
      GateIsClosed(scene, m, i, p);
      assert AwaitsApproval(scene, round, i, p);
    }
    if i: nat, p: nat :| AwaitsApproval(scene, round, i, p) && round.considered[i] == x && round.ids[p] == q {
      GatedMeaning(scene, m, i, |m.ids|);
      GateIsClosed(scene, m, i, p);
      assert q in round.gated[i];
      assert PutOff(round.inst.table, round.considered, round.gated, round.reached, selected, |round.considered|, d);
    }
  }

  lemma GateIsClosed(scene: Scene, m: Market, i: nat, p: nat)
    requires Stocked(scene, m) && i < |m.considered| && p < |m.ids|
    ensures var task, pool := scene.tasks[m.considered[i]], scene.pools[m.ids[p]];
      Gated(scene, m, i, p) <==>
        PoolAllowed(task, pool.id) && m.slots[p] > 0 && pool.profile.opencode
        && Approval.Approvals(task.request, pool.id) == {} && Approval.Requested(task.request, pool.id).model == ""
  {
    var task, pool := scene.tasks[m.considered[i]], scene.pools[m.ids[p]];
    Approval.GateMeaning(task.request, pool.id, pool.models, pool.profile);
  }

  /** The four places a pending job can end up in cover all pending jobs and nothing else. */
  lemma RoundCovers(tasks: seq<Task>, completed: set<string>, active: set<string>, ranked: seq<nat>, round: Round,
                    waiting: seq<Deferral>, unselected: seq<Deferral>, outside: seq<Deferral>, selected: set<nat>)
    requires Valid(tasks, ranked) && SortedByRank(tasks, ranked)
    requires |round.considered| <= |ranked| && round.considered == ranked[..|round.considered|]
    requires forall x: nat :: x in ranked <==> Ready(tasks, completed, active, x)
    requires forall d :: d in waiting <==> Reports(tasks, completed, active, d)
    requires forall k :: 0 <= k < |round.outcome.choices| ==> round.outcome.choices[k].job < |round.considered|
    requires selected == PlacedJobs(round.outcome.choices)
    requires forall d :: d in unselected ==> LeftOver(round.considered, selected, |round.considered|, d)
    requires forall i :: 0 <= i < |round.considered| && i !in selected ==> DeferredAt(unselected, round.considered[i])
    requires |outside| == |ranked| - |round.considered|
    requires forall k :: 0 <= k < |outside| ==> outside[k].position == ranked[|round.considered| + k]
    requires round.deferred == waiting + unselected + outside
    ensures NoJobLost(tasks, completed, active, round)
  {
    forall x: nat
      ensures AssignedAt(round, x) || DeferredAt(round.deferred, x) <==>
        x < |tasks| && Pending(tasks[x], completed, active)
    {
      if x < |tasks| && Pending(tasks[x], completed, active) {
        PendingIsPlaced(tasks, completed, active, ranked, round, waiting, unselected, outside, selected, x);
      }
      if AssignedAt(round, x) {
        var _ := AssignedIsReady(round, ranked, selected, x);
      }
      if DeferredAt(round.deferred, x) {
        var _ := DeferredSource(round, ranked, waiting, unselected, outside, selected, x);
      }
    }
    forall x: nat ensures !(AssignedAt(round, x) && DeferredAt(round.deferred, x)) {
      if AssignedAt(round, x) && DeferredAt(round.deferred, x) {
        var i := AssignedIsReady(round, ranked, selected, x);
        var j := DeferredSource(round, ranked, waiting, unselected, outside, selected, x);
        RankedOnce(tasks, ranked);
      }
    }
  }

  lemma RankedOnce(tasks: seq<Task>, ranked: seq<nat>)
    requires Valid(tasks, ranked) && SortedByRank(tasks, ranked)
    ensures forall j, k :: 0 <= j < k < |ranked| ==> ranked[j] != ranked[k]
  {
    forall j, k | 0 <= j < k < |ranked| ensures ranked[j] != ranked[k] {
      var id := tasks[ranked[j]].request.id;
      assert Ranked(tasks, ranked[j], ranked[k]);
      LessAsymmetric(id, id);
    }
  }

  lemma AssignedIsReady(round: Round, ranked: seq<nat>, selected: set<nat>, x: nat) returns (i: nat)
    requires |round.considered| <= |ranked| && round.considered == ranked[..|round.considered|]
    requires selected == PlacedJobs(round.outcome.choices)
    requires AssignedAt(round, x)
    ensures i < |round.considered| && i in selected && ranked[i] == x && x in ranked
  {
    var k :| 0 <= k < |round.outcome.choices| && round.outcome.choices[k].job < |round.considered| &&
      round.considered[round.outcome.choices[k].job] == x;
    i := round.outcome.choices[k].job;
  }

  /** A deferral comes from an unready job, an unselected one or one beyond the horizon. */
  lemma DeferredSource(round: Round, ranked: seq<nat>, waiting: seq<Deferral>, unselected: seq<Deferral>,
                       outside: seq<Deferral>, selected: set<nat>, x: nat) returns (i: int)
    requires |round.considered| <= |ranked| && round.considered == ranked[..|round.considered|]
    requires forall d :: d in unselected ==> LeftOver(round.considered, selected, |round.considered|, d)
    requires |outside| == |ranked| - |round.considered|
    requires forall k :: 0 <= k < |outside| ==> outside[k].position == ranked[|round.considered| + k]
    requires round.deferred == waiting + unselected + outside && DeferredAt(round.deferred, x)
    ensures -1 <= i < |ranked|
    ensures i == -1 ==> exists d :: d in waiting && d.position == x
    ensures i >= 0 ==> ranked[i] == x && x in ranked && (i < |round.considered| ==> i !in selected)
  {
    var k :| 0 <= k < |round.deferred| && round.deferred[k].position == x;
    var d := round.deferred[k];
    i := -1;
    if k < |waiting| {
      assert waiting[k] == d;
    } else if k < |waiting| + |unselected| {
      assert unselected[k - |waiting|] == d;
      assert LeftOver(round.considered, selected, |round.considered|, d);
      i :| 0 <= i < |round.considered| && i !in selected && d.position == round.considered[i];
    } else {
      assert outside[k - |waiting| - |unselected|] == d;
      i := |round.considered| + (k - |waiting| - |unselected|);
    }
  }

  lemma PendingIsPlaced(tasks: seq<Task>, completed: set<string>, active: set<string>, ranked: seq<nat>, round: Round,
                        waiting: seq<Deferral>, unselected: seq<Deferral>, outside: seq<Deferral>,
                        selected: set<nat>, x: nat)
    requires |round.considered| <= |ranked| && round.considered == ranked[..|round.considered|]
    requires forall y: nat :: y in ranked <==> Ready(tasks, completed, active, y)
    requires forall d :: d in waiting <==> Reports(tasks, completed, active, d)
    requires forall k :: 0 <= k < |round.outcome.choices| ==> round.outcome.choices[k].job < |round.considered|
    requires selected == PlacedJobs(round.outcome.choices)
    requires forall i :: 0 <= i < |round.considered| && i !in selected ==> DeferredAt(unselected, round.considered[i])
    requires |outside| == |ranked| - |round.considered|
    requires forall k :: 0 <= k < |outside| ==> outside[k].position == ranked[|round.considered| + k]
    requires round.deferred == waiting + unselected + outside
    requires x < |tasks| && Pending(tasks[x], completed, active)
    ensures AssignedAt(round, x) || DeferredAt(round.deferred, x)
  {
    if Blocked(tasks, completed, active, x) {
      var d := Waiting(x, Missing(tasks[x].dependsOn, completed));
      assert Reports(tasks, completed, active, d);
      var k :| 0 <= k < |waiting| && waiting[k] == d;
      assert round.deferred[k].position == x;
    } else {
      assert Ready(tasks, completed, active, x);
      assert x in ranked;
      var i :| 0 <= i < |ranked| && ranked[i] == x;
      if i >= |round.considered| {
        var k := |waiting| + |unselected| + (i - |round.considered|);
        assert round.deferred[k].position == x;
      } else if i in selected {
        var k :| 0 <= k < |round.outcome.choices| && round.outcome.choices[k].job == i;
        assert round.considered[round.outcome.choices[k].job] == x;
      } else {
        var k :| 0 <= k < |unselected| && unselected[k].position == round.considered[i];
        assert round.deferred[|waiting| + k] == unselected[k];
      }
    }
  }
}

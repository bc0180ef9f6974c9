/**
  A planning round under a model policy, end to end: pin the jobs, plan, list the
  assignments with their exact models, and check them against the jobs' own lists.
 */
module PolicyRound {
  import opened Wrappers
  import opened PlannerModel
  import opened PlannerFeasibility
  import opened PlannerCandidates
  import opened PlannerPlan
  import Approval = ModelApproval
  import opened ModelPolicy

  function Requests(tasks: seq<Task>): (r: seq<Approval.Job>)
    ensures |r| == |tasks| && forall x :: 0 <= x < |tasks| ==> r[x] == tasks[x].request
  {
    seq(|tasks|, x requires 0 <= x < |tasks| => tasks[x].request)
  }

  // ----- jobs that need a pilot run first are held back

  /** The positions below `n` that do not need a pilot run first, in ascending order. */
  function Released(pilot: nat -> bool, n: nat): (r: seq<nat>)
    ensures forall x: nat :: x in r <==> x < n && !pilot(x)
    ensures forall k :: 0 <= k < |r| ==> r[k] < n
  {
    if n == 0 then [] else Released(pilot, n - 1) + if pilot(n - 1) then [] else [n - 1]
  }

  /** Every position once, either released or held. */
  ghost predicate Gated(pilot: nat -> bool, n: nat, released: seq<nat>, held: seq<nat>) {
    && released == Released(pilot, n) && held == Released((x: nat) => !pilot(x), n)
    && |released| + |held| == n
  }

  method HoldPilots(pilot: nat -> bool, n: nat) returns (released: seq<nat>, held: seq<nat>)
    ensures Gated(pilot, n, released, held)
  {
    released, held := [], [];
    for x := 0 to n
      invariant Gated(pilot, x, released, held)
    {
      if pilot(x) {
        held := held + [x];
      } else {
        released := released + [x];
      }
    }
  }

  function ElementsAt<T>(all: seq<T>, at: seq<nat>): (r: seq<T>)
    requires forall k :: 0 <= k < |at| ==> at[k] < |all|
    ensures |r| == |at| && forall k :: 0 <= k < |r| ==> r[k] == all[at[k]]
  {
    seq(|at|, k requires 0 <= k < |at| => all[at[k]])
  }

  /** The scene handed to the planner: the released tasks with these requests, and what was
      known about each of them. */
  function PlannedScene(scene: Scene, requests: seq<Approval.Job>, at: seq<nat>): (r: Scene)
    requires |requests| == |scene.tasks| && forall k :: 0 <= k < |at| ==> at[k] < |scene.tasks|
    ensures Usable(scene) ==> Usable(r)
    ensures Requests(r.tasks) == ElementsAt(requests, at) && r.pools == scene.pools && r.hosts == scene.hosts
  {
    scene.(tasks := seq(|at|, k requires 0 <= k < |at| => scene.tasks[at[k]].(request := requests[at[k]])),
           quote := (x: nat, q: nat, model: string) => scene.quote(if x < |at| then at[x] else x, q, model),
           fit := (x: nat, h: nat) => scene.fit(if x < |at| then at[x] else x, h))
  }

  lemma PinEach(jobs: seq<Approval.Job>, routes: seq<Route>, at: seq<nat>)
    requires forall k :: 0 <= k < |at| ==> at[k] < |jobs|
    ensures PinAll(ElementsAt(jobs, at), routes) == ElementsAt(PinAll(jobs, routes), at)
  {
  }

  lemma ElementsAreIn(jobs: seq<Approval.Job>, at: seq<nat>)
    requires forall k :: 0 <= k < |at| ==> at[k] < |jobs|
    ensures forall job :: job in ElementsAt(jobs, at) ==> job in jobs
  {
  }

  /** Pinning and holding back can be done in either order. */
  lemma PinThenHold(jobs: seq<Approval.Job>, policy: Policy, at: seq<nat>)
    requires Pins(policy) && Applied(jobs, policy).Ok? && forall k :: 0 <= k < |at| ==> at[k] < |jobs|
    ensures |Applied(jobs, policy).value| == |jobs|
    ensures Applied(ElementsAt(jobs, at), policy) == Ok(ElementsAt(Applied(jobs, policy).value, at))
  {
    AppliedMeaning(jobs, policy);
    ElementsAreIn(jobs, at);
    AppliedMeaning(ElementsAt(jobs, at), policy);
    PinEach(jobs, policy.routes, at);
  }

  lemma HoldKeepsUnique(jobs: seq<Approval.Job>, at: seq<nat>)
    requires UniqueIds(jobs) && forall k :: 0 <= k < |at| ==> at[k] < |jobs|
    ensures UniqueIds(ElementsAt(jobs, at))
  {
    forall a, b | a in ElementsAt(jobs, at) && b in ElementsAt(jobs, at) && a.id == b.id ensures a == b {
      var j :| 0 <= j < |at| && jobs[at[j]] == a;
      var k :| 0 <= k < |at| && jobs[at[k]] == b;
      assert jobs[at[j]] in jobs && jobs[at[k]] in jobs;
    }
  }

  // ----- the assignments of a round

  predicate Placed(scene: Scene, round: Round, c: Choice) {
    && c in round.inst.table && c.job < |round.considered| && c.pool < |round.ids|
    && round.considered[c.job] < |scene.tasks| && round.ids[c.pool] < |scene.pools|
  }

  /** The row of a choice names the model that selection makes for its job and pool, and the
      job may use the pool. */
  predicate Picked(scene: Scene, round: Round, c: Choice) {
    && Placed(scene, round, c)
    && var task, pool, row := scene.tasks[round.considered[c.job]], scene.pools[round.ids[c.pool]], round.inst.table[c];
      PoolAllowed(task, pool.id) && Pick(task, pool) == Approval.Chosen(Approval.Candidate(row.model, row.variant))
  }

  ghost predicate AllPlaced(scene: Scene, round: Round) {
    forall k :: 0 <= k < |round.outcome.choices| ==> Placed(scene, round, round.outcome.choices[k])
  }

  ghost predicate AllPicked(scene: Scene, round: Round) {
    forall k :: 0 <= k < |round.outcome.choices| ==> Picked(scene, round, round.outcome.choices[k])
  }

  /** Every choice of a round is one that model selection makes. */
  lemma RoundIsPicked(scene: Scene, round: Round)
    requires Valid(scene.tasks, round.considered) && Posed(scene, round.considered, round.ids, round.inst, round.cap)
    requires Tabled(round.inst, round.outcome.choices)
    ensures AllPlaced(scene, round) && AllPicked(scene, round)
  {
    forall k | 0 <= k < |round.outcome.choices| ensures Picked(scene, round, round.outcome.choices[k]) {
      RowIsPicked(scene, MarketOf(round.considered, round.ids, round.cap), round.inst.table, round.outcome.choices[k]);
    }
  }

  function AssignmentAt(scene: Scene, round: Round, c: Choice): Assignment
    requires Placed(scene, round, c)
  {
    Assignment(scene.tasks[round.considered[c.job]].request.id, scene.pools[round.ids[c.pool]].id,
               round.inst.table[c].model)
  }

  /** The assignments a round lists, one for each choice. */
  ghost predicate Lists(scene: Scene, round: Round, assignments: seq<Assignment>)
    requires AllPlaced(scene, round)
  {
    && |assignments| == |round.outcome.choices|
    && forall k :: 0 <= k < |assignments| ==> assignments[k] == AssignmentAt(scene, round, round.outcome.choices[k])
  }

  method ListAssignments(scene: Scene, round: Round) returns (assignments: seq<Assignment>)
    requires AllPlaced(scene, round)
    ensures Lists(scene, round, assignments)
  {
    assignments := [];
    for k := 0 to |round.outcome.choices|
      invariant |assignments| == k
      invariant forall j :: 0 <= j < k ==> assignments[j] == AssignmentAt(scene, round, round.outcome.choices[j])
    {
      assignments := assignments + [AssignmentAt(scene, round, round.outcome.choices[k])];
    }
  }

  /** Every assignment of a round for a job with an explicit list of pools is one the model
      selection makes for that job on a pool of that list. */
  lemma AssignmentIsPlanned(scene: Scene, round: Round, c: Choice)
    requires Picked(scene, round, c) && scene.tasks[round.considered[c.job]].request.allowedPools != {}
    ensures Planned(Requests(scene.tasks), AssignmentAt(scene, round, c))
  {
    var x := round.considered[c.job];
    var pool := scene.pools[round.ids[c.pool]];
    assert Requests(scene.tasks)[x] == scene.tasks[x].request;
    assert IsPlanned(Requests(scene.tasks), AssignmentAt(scene, round, c), scene.tasks[x].request, pool.models,
                     pool.profile, round.inst.table[c].variant);
  }

  lemma PinnedHavePools(jobs: seq<Approval.Job>, routes: seq<Route>)
    requires routes != [] && forall job :: job in jobs ==> Clear(job, routes)
    ensures forall x :: 0 <= x < |jobs| ==> PinAll(jobs, routes)[x].allowedPools != {}
  {
    forall x | 0 <= x < |jobs| ensures Pin(jobs[x], routes).allowedPools != {} {
      SelectedIsNotEmpty(jobs[x], routes);
      var route :| route in Selected(jobs[x], routes);
      assert route.pool in Pin(jobs[x], routes).allowedPools;
    }
  }

  /** Jobs with the same identifier are the same job, also after pinning. */
  lemma PinKeepsUnique(jobs: seq<Approval.Job>, routes: seq<Route>)
    requires UniqueIds(jobs)
    ensures UniqueIds(PinAll(jobs, routes))
  {
    var pinned := PinAll(jobs, routes);
    forall a, b | a in pinned && b in pinned && a.id == b.id ensures a == b {
      var j :| 0 <= j < |jobs| && pinned[j] == a;
      var k :| 0 <= k < |jobs| && pinned[k] == b;
      assert jobs[j] in jobs && jobs[k] in jobs;
    }
  }

  /** Under a policy that pins a round has nothing to enforce: whatever the pools, hosts, quotas
      and catalogues are, every assignment it makes is kept. */
  lemma RoundNeedsNoEnforcement(scene: Scene, jobs: seq<Approval.Job>, policy: Policy, round: Round,
                                plan: seq<Assignment>)
    requires Pins(policy) && Applied(jobs, policy).Ok? && UniqueIds(jobs)
    requires Requests(scene.tasks) == Applied(jobs, policy).value
    requires AllPlaced(scene, round) && AllPicked(scene, round) && Lists(scene, round, plan)
    ensures Violations(GateOf(Requests(scene.tasks)), plan) == [] && Kept(GateOf(Requests(scene.tasks)), plan) == plan
  {
    var routes := policy.routes;
    AppliedMeaning(jobs, policy);
    PinKeepsUnique(jobs, routes);
    PinnedHavePools(jobs, routes);
    forall x | 0 <= x < |scene.tasks| ensures scene.tasks[x].request.allowedPools != {} {
      assert Requests(scene.tasks)[x] == scene.tasks[x].request;
    }
    forall a | a in plan ensures Planned(Requests(scene.tasks), a) {
      var k :| 0 <= k < |plan| && plan[k] == a;
      AssignmentIsPlanned(scene, round, round.outcome.choices[k]);
    }
    NothingToEnforce(jobs, policy, plan);
  }

  /** Under a policy that pins every kept assignment of a round has the policy's model. */
  lemma RoundFollowsPolicy(scene: Scene, jobs: seq<Approval.Job>, policy: Policy, round: Round,
                           plan: seq<Assignment>, a: Assignment)
    requires Pins(policy) && Applied(jobs, policy).Ok?
    requires Requests(scene.tasks) == Applied(jobs, policy).value
    requires AllPlaced(scene, round) && Lists(scene, round, plan) && a in Kept(GateOf(Requests(scene.tasks)), plan)
    ensures HasRoute(policy.routes, a)
  {
    AppliedMeaning(jobs, policy);
    var k :| 0 <= k < |plan| && plan[k] == a;
    var x := round.considered[round.outcome.choices[k].job];
    assert Requests(scene.tasks)[x].id == a.job;
    assert jobs[x] in jobs && jobs[x].id == a.job;
    SurvivorsFollowThePolicy(jobs, policy, plan, a, jobs[x]);
  }

  lemma CheckedRound(scene: Scene, jobs: seq<Approval.Job>, policy: Policy, round: Round, plan: seq<Assignment>)
    requires Pins(policy) && Applied(jobs, policy).Ok?
    requires Requests(scene.tasks) == Applied(jobs, policy).value
    requires AllPlaced(scene, round) && AllPicked(scene, round) && Lists(scene, round, plan)
    ensures forall a :: a in Kept(GateOf(Requests(scene.tasks)), plan) ==> HasRoute(policy.routes, a)
    ensures UniqueIds(jobs) ==> Violations(GateOf(Requests(scene.tasks)), plan) == [] &&
                                Kept(GateOf(Requests(scene.tasks)), plan) == plan
  {
    forall a | a in Kept(GateOf(Requests(scene.tasks)), plan) ensures HasRoute(policy.routes, a) {
      RoundFollowsPolicy(scene, jobs, policy, round, plan, a);
    }
    if UniqueIds(jobs) { RoundNeedsNoEnforcement(scene, jobs, policy, round, plan); }
  }

  /** What comes out: the positions released and held, the scene planned on, the round if the
      planner came through, and the checked assignments. */
  datatype Report = Report(
    released: seq<nat>,
    held: seq<nat>,
    scene: Scene,
    round: Option<Round>,
    plan: seq<Assignment>,
    enforced: Enforced)

  /** How the checked assignments came about: a whole round on the released tasks with pinned
      requests, or nothing at all if the planner failed. */
  ghost predicate Reported(scene: Scene, requests: seq<Approval.Job>, pilot: nat -> bool, done: set<string>,
                           active: set<string>, maxLanes: int, horizon: int, r: Report)
    requires |requests| == |scene.tasks|
  {
    && Gated(pilot, |scene.tasks|, r.released, r.held)
    && r.scene == PlannedScene(scene, requests, r.released)
    && (if r.round.None? then r.plan == []
        else
          && IsRound(r.scene, done, active, Max(1, maxLanes), Max(1, horizon), r.round.value)
          && AllPlaced(r.scene, r.round.value) && AllPicked(r.scene, r.round.value)
          && Lists(r.scene, r.round.value, r.plan))
  }

  /** Under a policy that pins, what a report keeps follows the policy, and with distinct job
      ids nothing is taken away. */
  lemma ReportFollowsPolicy(scene: Scene, policy: Policy, pilot: nat -> bool, done: set<string>, active: set<string>,
                            maxLanes: int, horizon: int, r: Report)
    requires Pins(policy) && Applied(Requests(scene.tasks), policy).Ok?
    requires |Applied(Requests(scene.tasks), policy).value| == |scene.tasks|
    requires Reported(scene, Applied(Requests(scene.tasks), policy).value, pilot, done, active, maxLanes, horizon, r)
    ensures var gate := GateOf(Requests(r.scene.tasks));
      && (forall a :: a in Kept(gate, r.plan) ==> HasRoute(policy.routes, a))
      && (UniqueIds(Requests(scene.tasks)) ==> Violations(gate, r.plan) == [] && Kept(gate, r.plan) == r.plan)
  {
    var requests := Requests(scene.tasks);
    PinThenHold(requests, policy, r.released);
    if r.round.Some? {
      if UniqueIds(requests) { HoldKeepsUnique(requests, r.released); }
      CheckedRound(r.scene, ElementsAt(requests, r.released), policy, r.round.value, r.plan);
    }
  }

  /** The report as it is built.  An unknown policy or a conflict stops it before planning;
      `pilot` tells which tasks need a pilot run first, and `fails` that the planner raises. */
  method BuildReport(scene: Scene, name: string, pilot: nat -> bool, fails: bool, done: set<string>,
                     active: set<string>, maxLanes: int, horizon: int) returns (r: Result<Report, Refusal>)
    requires Usable(scene)
    ensures r.Err? <==> Applied(Requests(scene.tasks), PolicyNamed(name)).Err?
    ensures r.Ok? ==> |Applied(Requests(scene.tasks), PolicyNamed(name)).value| == |scene.tasks|
    ensures r.Ok? ==> (r.value.round.None? <==> fails)
    ensures r.Ok? ==> Reported(scene, Applied(Requests(scene.tasks), PolicyNamed(name)).value, pilot, done, active,
                               maxLanes, horizon, r.value)
    ensures r.Ok? ==> forall a :: a in r.value.enforced.kept <==>
                        a in r.value.plan && Permitted(GateOf(Requests(r.value.scene.tasks)), a)
    ensures r.Ok? && PolicyNamed(name).Pinned? ==>
              forall a :: a in r.value.enforced.kept ==> HasRoute(PolicyNamed(name).routes, a)
    ensures r.Ok? && PolicyNamed(name).Pinned? && UniqueIds(Requests(scene.tasks)) ==>
              !r.value.enforced.paused && r.value.enforced.kept == r.value.plan
  {
    var pinned := ApplyModelPolicy(Requests(scene.tasks), name);
    if pinned.Err? {
      return Err(pinned.error);
    }
    var released, held := HoldPilots(pilot, |scene.tasks|);
    var planned := PlannedScene(scene, pinned.value, released);
    var round, plan := None, [];
    if !fails {
      var made := Plan(planned, done, active, Max(1, maxLanes), Max(1, horizon));
      RoundIsPicked(planned, made);
      plan := ListAssignments(planned, made);
      round := Some(made);
    }
    var enforced := EnforceModelPolicy(Requests(planned.tasks), plan);
    var report := Report(released, held, planned, round, plan, enforced);
    if PolicyNamed(name).Pinned? {
      NamedPoliciesPin(name);
      ReportFollowsPolicy(scene, PolicyNamed(name), pilot, done, active, maxLanes, horizon, report);
    }
    return Ok(report);
  }
}

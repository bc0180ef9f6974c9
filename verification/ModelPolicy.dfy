/**
  Named model policies: pinning every job to the policy's routes before planning, and
  checking the plan against the jobs' own model lists afterwards.
 */
module ModelPolicy {
  import opened Wrappers
  import opened ModelApproval

  datatype Route = Route(pool: string, model: string, variant: string)

  datatype Policy = Auto | Pinned(routes: seq<Route>) | Unsupported

  /** The policies by name; a name is compared without case or surrounding space. */
  function PolicyNamed(name: string): Policy {
    if name == "" || name == "auto" then Auto
    else if name == "codex-luna-max" then Pinned([Route("codex.luna", "gpt-5.6-luna", "max")])
    else if name == "codex-sol-max" then Pinned([Route("codex.luna", "gpt-5.6-sol", "max")])
    else if name == "codex-spark-antigravity-gemini" then
      Pinned([Route("antigravity.gemini", "gemini-3.6-flash-high", ""),
              Route("codex.spark", "gpt-5.3-codex-spark", "xhigh")])
    else Unsupported
  }

  /** One route for each pool, models that have a name, and pools not named like the keys
      that single out one model. */
  ghost predicate Distinct(routes: seq<Route>) {
    && (forall a, b :: a in routes && b in routes && a.pool == b.pool ==> a == b)
    && forall route :: route in routes ==> !Blank(route.model) && route.pool !in {"model", "exact_model"}
  }

  function Pools(routes: seq<Route>): set<string> { set route | route in routes :: route.pool }

  function RouteModels(routes: seq<Route>): set<string> { set route | route in routes :: route.model }

  /** The routes a job may use: all of them, or those among the pools it names. */
  function Selected(job: Job, routes: seq<Route>): (r: seq<Route>)
    ensures forall route :: route in r <==>
              route in routes && (job.allowedPools == {} || route.pool in job.allowedPools)
  {
    if routes == [] then []
    else if job.allowedPools == {} || routes[0].pool in job.allowedPools then [routes[0]] + Selected(job, routes[1..])
    else Selected(job, routes[1..])
  }

  // ----- what a job may not ask for

  /** Every name anywhere in a value; only an entry for one model hides its neighbours. */
  function AllNames(value: Json): set<string>
    decreases value, 0
  {
    match value
    case Absent => {}
    case Text(text) => if Blank(text) then {} else {text}
    case Many(items) => AllNamesIn(items)
    case Table(rows) =>
      var model, exact := Get(rows, "model"), Get(rows, "exact_model");
      if Truthy(model) then AllNames(model)
      else if Truthy(exact) then AllNames(exact)
      else AllNamesOf(rows)
  }

  function AllNamesIn(items: seq<Json>): set<string>
    decreases items, 1
  {
    if items == [] then {} else AllNames(items[0]) + AllNamesIn(items[1..])
  }

  function AllNamesOf(rows: seq<Row>): set<string>
    decreases rows, 1
  {
    if rows == [] then {} else AllNames(rows[0].value) + AllNamesOf(rows[1..])
  }

  function Asked(job: Job): set<string> {
    AllNames(job.allowedModels) + AllNames(job.approvedModels)
    + match job.policy
      case None => {}
      case Some(policy) => AllNames(policy.allowedModels) + AllNames(policy.approvedModels)
  }

  /** An override names the route's model or none. */
  predicate ModelAgrees(value: Json, route: Route) {
    var model := if value.Table? then Get(value.rows, "model") else value;
    Truthy(model) ==> model == Text(route.model)
  }

  /** An override names the route's variant or none. */
  predicate VariantAgrees(value: Json, route: Route) {
    value.Table? ==> Get(value.rows, "variant") in {Absent, Text(""), Text(route.variant)}
  }

  predicate OverrideAgrees(job: Job, pool: string, selected: seq<Route>)
    requires pool in job.modelByPool
  {
    var value := job.modelByPool[pool];
    pool in Pools(selected) &&
    forall route :: route in selected && route.pool == pool ==> ModelAgrees(value, route) && VariantAgrees(value, route)
  }

  predicate Clear(job: Job, routes: seq<Route>) {
    && job.allowedPools <= Pools(routes)
    && (forall pool :: pool in job.modelByPool ==> OverrideAgrees(job, pool, Selected(job, routes)))
    && Asked(job) <= RouteModels(Selected(job, routes))
  }

  /** What a job asks for that the policy does not give. */
  datatype Fault =
    | ForeignPools(pools: set<string>)
    | ForeignOverride(pool: string)
    | OtherModel(pool: string)
    | OtherVariant(pool: string)
    | ForeignModels(models: set<string>)

  predicate IsFault(job: Job, routes: seq<Route>, fault: Fault) {
    var selected := Selected(job, routes);
    match fault
    case ForeignPools(pools) => pools == job.allowedPools && !(pools <= Pools(routes))
    case ForeignOverride(pool) => pool in job.modelByPool && pool !in Pools(selected)
    case OtherModel(pool) => pool in job.modelByPool &&
      exists route :: route in selected && route.pool == pool && !ModelAgrees(job.modelByPool[pool], route)
    case OtherVariant(pool) => pool in job.modelByPool &&
      exists route :: route in selected && route.pool == pool && !VariantAgrees(job.modelByPool[pool], route)
    case ForeignModels(models) => models == Asked(job) - RouteModels(selected) && !(Asked(job) <= RouteModels(selected))
  }

  /** Every conflict of a job, not only the first. */
  function Faults(job: Job, routes: seq<Route>): (r: set<Fault>)
    ensures forall fault :: fault in r <==> IsFault(job, routes, fault)
  {
    var possible :=
      {ForeignPools(job.allowedPools), ForeignModels(Asked(job) - RouteModels(Selected(job, routes)))}
      + (set pool | pool in job.modelByPool :: ForeignOverride(pool))
      + (set pool | pool in job.modelByPool :: OtherModel(pool))
      + (set pool | pool in job.modelByPool :: OtherVariant(pool));
    set fault | fault in possible && IsFault(job, routes, fault)
  }

  /** A job is free of conflicts exactly if it agrees with the policy in every respect. */
  lemma FaultsMeaning(job: Job, routes: seq<Route>)
    ensures Clear(job, routes) <==> forall fault :: fault !in Faults(job, routes)
  {
    var selected := Selected(job, routes);
    if forall fault :: fault !in Faults(job, routes) {
      assert ForeignPools(job.allowedPools) !in Faults(job, routes);
      assert ForeignModels(Asked(job) - RouteModels(selected)) !in Faults(job, routes);
      forall pool | pool in job.modelByPool ensures OverrideAgrees(job, pool, selected) {
        assert ForeignOverride(pool) !in Faults(job, routes) && OtherModel(pool) !in Faults(job, routes);
        assert OtherVariant(pool) !in Faults(job, routes);
      }
    }
  }

  // ----- pinning

  function OverrideFor(route: Route): Json {
    Table([Row("model", Text(route.model)),
           Row("variant", if route.variant == "" then Absent else Text(route.variant))])
  }

  function Overrides(routes: seq<Route>): map<string, Json> {
    if routes == [] then map[]
    else Overrides(routes[1..])[routes[0].pool := OverrideFor(routes[0])]
  }

  function ModelRows(routes: seq<Route>): seq<Row> {
    if routes == [] then [] else [Row(routes[0].pool, Many([Text(routes[0].model)]))] + ModelRows(routes[1..])
  }

  /** The job with the policy's routes in place of its own. */
  function Pin(job: Job, routes: seq<Route>): Job {
    var selected := Selected(job, routes);
    job.(allowedPools := Pools(selected),
         allowedModels := Table(ModelRows(selected)),
         modelByPool := Overrides(selected))
  }

  function PinAll(jobs: seq<Job>, routes: seq<Route>): (r: seq<Job>)
    ensures |r| == |jobs| && forall k :: 0 <= k < |jobs| ==> r[k] == Pin(jobs[k], routes)
  {
    seq(|jobs|, k requires 0 <= k < |jobs| => Pin(jobs[k], routes))
  }

  datatype Complaint = Complaint(job: string, faults: set<Fault>)

  datatype Refusal = UnknownPolicy | Conflicts(complaints: seq<Complaint>)

  function Complaints(job: Job, routes: seq<Route>): seq<Complaint> {
    var faults := Faults(job, routes);
    if faults == {} then [] else [Complaint(job.id, faults)]
  }

  /** The complaints about all jobs, in order. */
  function Conflicting(jobs: seq<Job>, routes: seq<Route>): seq<Complaint> {
    if jobs == [] then []
    else Conflicting(jobs[..|jobs| - 1], routes) + Complaints(jobs[|jobs| - 1], routes)
  }

  ghost predicate AllClear(jobs: seq<Job>, routes: seq<Route>) {
    forall k :: 0 <= k < |jobs| ==> Clear(jobs[k], routes)
  }

  lemma ComplaintsMeaning(job: Job, routes: seq<Route>)
    ensures Complaints(job, routes) == [] <==> Clear(job, routes)
  {
    FaultsMeaning(job, routes);
    if fault :| fault in Faults(job, routes) { assert Faults(job, routes) != {}; }
  }

  lemma NoneFromEither(a: seq<Complaint>, b: seq<Complaint>)
    ensures a + b == [] <==> a == [] && b == []
  {
    assert |a + b| == |a| + |b|;
  }

  lemma AllButLast(jobs: seq<Job>, routes: seq<Route>)
    requires jobs != []
    ensures AllClear(jobs, routes) <==>
      AllClear(jobs[..|jobs| - 1], routes) && Clear(jobs[|jobs| - 1], routes)
  {
  }

  lemma {:induction false} ConflictingMeaning(jobs: seq<Job>, routes: seq<Route>)
    ensures Conflicting(jobs, routes) == [] <==> AllClear(jobs, routes)
  {
    if jobs != [] {
      var n := |jobs| - 1;
      AllButLast(jobs, routes);
      ConflictingMeaning(jobs[..n], routes);
      ComplaintsMeaning(jobs[n], routes);
      NoneFromEither(Conflicting(jobs[..n], routes), Complaints(jobs[n], routes));
    }
  }

  function Applied(jobs: seq<Job>, policy: Policy): Result<seq<Job>, Refusal> {
    match policy
    case Unsupported => Err(UnknownPolicy)
    case Auto => Ok(jobs)
    case Pinned(routes) =>
      var conflicts := Conflicting(jobs, routes);
      if conflicts == [] then Ok(PinAll(jobs, routes)) else Err(Conflicts(conflicts))
  }

  lemma OneMore(jobs: seq<Job>, job: Job, routes: seq<Route>)
    ensures PinAll(jobs + [job], routes) == PinAll(jobs, routes) + [Pin(job, routes)]
    ensures Conflicting(jobs + [job], routes) == Conflicting(jobs, routes) + Complaints(job, routes)
  {
    var all := jobs + [job];
    assert all[..|all| - 1] == jobs && all[|all| - 1] == job;
  }

  /** One pass over the jobs: each is pinned, and its conflicts are noted. */
  method PinJobs(jobs: seq<Job>, routes: seq<Route>) returns (result: seq<Job>, conflicts: seq<Complaint>)
    ensures result == PinAll(jobs, routes) && conflicts == Conflicting(jobs, routes)
  {
    result, conflicts := [], [];
    for k := 0 to |jobs|
      invariant result == PinAll(jobs[..k], routes)
      invariant conflicts == Conflicting(jobs[..k], routes)
    {
      assert jobs[..k + 1] == jobs[..k] + [jobs[k]];
      OneMore(jobs[..k], jobs[k], routes);
      conflicts := conflicts + Complaints(jobs[k], routes);
      result := result + [Pin(jobs[k], routes)];
    }
    assert jobs[..|jobs|] == jobs;
  }

  /** Pinning as it runs: every job is looked at before a conflict stops the whole batch. */
  method ApplyModelPolicy(jobs: seq<Job>, name: string) returns (r: Result<seq<Job>, Refusal>)
    ensures r == Applied(jobs, PolicyNamed(name))
  {
    var policy := PolicyNamed(name);
    match policy
    case Unsupported => return Err(UnknownPolicy);
    case Auto => return Ok(jobs);
    case Pinned(routes) =>
      var result, conflicts := PinJobs(jobs, routes);
      return if conflicts == [] then Ok(result) else Err(Conflicts(conflicts));
  }

  /** A policy that pins jobs to routes, with one route for each pool. */
  ghost predicate Pins(policy: Policy) { policy.Pinned? && Distinct(policy.routes) && policy.routes != [] }

  /** What a policy that was applied gives: the pinned jobs, none of which objected. */
  lemma AppliedMeaning(jobs: seq<Job>, policy: Policy)
    requires Pins(policy)
    ensures Applied(jobs, policy).Ok? <==> forall job :: job in jobs ==> Clear(job, policy.routes)
    ensures Applied(jobs, policy).Ok? ==> Applied(jobs, policy).value == PinAll(jobs, policy.routes)
  {
    ConflictingMeaning(jobs, policy.routes);
  }

  /** The named policies pin jobs, except for "auto" and the empty name. */
  lemma NamedPoliciesPin(name: string)
    requires PolicyNamed(name).Pinned?
    ensures Pins(PolicyNamed(name))
  {
    var routes := PolicyNamed(name).routes;
    assert |routes| == 1 || (|routes| == 2 && routes[0].pool[0] != routes[1].pool[0]);
    forall route | route in routes ensures !Blank(route.model) && route.pool !in {"model", "exact_model"} {
      assert route.model[0] == 'g' && route.pool[1] != 'x' && route.pool[0] != 'm';
    }
  }

  // ----- checking the plan

  datatype Assignment = Assignment(job: string, pool: string, model: string)
  datatype Violation = Violation(assignment: Assignment, allowed: set<string>)

  /** A job's own lists: one for every pool, or one for each named pool. */
  datatype Lists = Lists(all: set<string>, byPool: map<string, set<string>>)

  function Strings(items: seq<Json>): set<string> {
    set item | item in items && item.Text? && item.text != "" :: item.text
  }

  function PoolLists(rows: seq<Row>): map<string, set<string>> {
    if rows == [] then map[]
    else
      var rest := PoolLists(rows[1..]);
      match rows[0].value
      case Text(text) => rest[rows[0].key := if text == "" then {} else {text}]
      case Many(items) => rest[rows[0].key := Strings(items)]
      case _ => rest
  }

  function ListsOf(job: Job): Lists {
    var source :=
      if job.allowedModels.Absent? && job.policy.Some? then job.policy.value.allowedModels else job.allowedModels;
    match source
    case Absent => Lists({}, map[])
    case Text(text) => Lists({text}, map[])
    case Many(items) => Lists(Strings(items), map[])
    case Table(rows) => Lists({}, PoolLists(rows))
  }

  function ById(jobs: seq<Job>): (r: map<string, Job>)
    ensures forall id :: id in r ==> r[id] in jobs && r[id].id == id
    ensures forall job :: job in jobs ==> job.id in r
  {
    if jobs == [] then map[]
    else
      var last := jobs[|jobs| - 1];
      assert jobs == jobs[..|jobs| - 1] + [last];
      ById(jobs[..|jobs| - 1])[last.id := last]
  }

  /** The models a job allows in a pool; `None` if it says nothing about models. */
  function AllowedBy(job: Job, pool: string): Option<set<string>> {
    var lists := ListsOf(job);
    if lists.all == {} && lists.byPool == map[] then None
    else Some(if pool in lists.byPool then lists.byPool[pool] else lists.all)
  }

  /** A job that is not known says nothing either. */
  function Allowed(jobs: seq<Job>, a: Assignment): Option<set<string>> {
    var known := ById(jobs);
    if a.job in known then AllowedBy(known[a.job], a.pool) else None
  }

  type Gate = Assignment -> Option<set<string>>

  function GateOf(jobs: seq<Job>): Gate { a => Allowed(jobs, a) }

  predicate Permitted(gate: Gate, a: Assignment) { gate(a).None? || a.model in gate(a).value }

  function Kept(gate: Gate, plan: seq<Assignment>): (r: seq<Assignment>)
    ensures forall a :: a in r <==> a in plan && Permitted(gate, a)
  {
    if plan == [] then []
    else
      var last := plan[|plan| - 1];
      assert plan == plan[..|plan| - 1] + [last];
      var front := Kept(gate, plan[..|plan| - 1]);
      if Permitted(gate, last) then front + [last] else front
  }

  function Violations(gate: Gate, plan: seq<Assignment>): (r: seq<Violation>)
    ensures forall v :: v in r ==> v.assignment in plan && gate(v.assignment) == Some(v.allowed)
    ensures forall v :: v in r ==> v.assignment.model !in v.allowed
  {
    if plan == [] then []
    else
      var last := plan[|plan| - 1];
      assert plan == plan[..|plan| - 1] + [last];
      var front := Violations(gate, plan[..|plan| - 1]);
      if Permitted(gate, last) then front else front + [Violation(last, gate(last).value)]
  }

  function Subjects(violations: seq<Violation>): seq<Assignment> {
    if violations == [] then []
    else Subjects(violations[..|violations| - 1]) + [violations[|violations| - 1].assignment]
  }

  /** The assignments that stay, and those that are deferred with a reason. */
  datatype Enforced = Enforced(kept: seq<Assignment>, violations: seq<Violation>, paused: bool)

  method EnforceModelPolicy(jobs: seq<Job>, plan: seq<Assignment>) returns (r: Enforced)
    ensures r.kept == Kept(GateOf(jobs), plan) && r.violations == Violations(GateOf(jobs), plan)
    ensures r.paused <==> r.violations != []
  {
    ghost var gate := GateOf(jobs);
    var kept: seq<Assignment>, violations: seq<Violation> := [], [];
    for k := 0 to |plan|
      invariant kept == Kept(gate, plan[..k]) && violations == Violations(gate, plan[..k])
    {
      assert plan[..k + 1][..k] == plan[..k] && plan[..k + 1][k] == plan[k];
      var allowed := Allowed(jobs, plan[k]);
      if allowed.None? || plan[k].model in allowed.value {
        kept := kept + [plan[k]];
      } else {
        violations := violations + [Violation(plan[k], allowed.value)];
      }
    }
    assert plan[..|plan|] == plan;
    return Enforced(kept, violations, violations != []);
  }

  lemma SubjectsSnoc(violations: seq<Violation>, v: Violation)
    ensures Subjects(violations + [v]) == Subjects(violations) + [v.assignment]
  {
    var all := violations + [v];
    assert all[..|all| - 1] == violations;
  }

  lemma EnforceOneMore(gate: Gate, front: seq<Assignment>, last: Assignment)
    ensures Kept(gate, front + [last]) == Kept(gate, front) + (if Permitted(gate, last) then [last] else [])
    ensures Subjects(Violations(gate, front + [last])) ==
            Subjects(Violations(gate, front)) + (if Permitted(gate, last) then [] else [last])
  {
    var plan := front + [last];
    assert plan[..|plan| - 1] == front && plan[|plan| - 1] == last;
    if !Permitted(gate, last) {
      SubjectsSnoc(Violations(gate, front), Violation(last, gate(last).value));
    }
  }

  lemma SplitOneMore(all: seq<Assignment>, last: Assignment, kept: seq<Assignment>, broken: seq<Assignment>, keep: bool)
    requires multiset(kept) + multiset(broken) == multiset(all)
    ensures multiset(kept + (if keep then [last] else [])) + multiset(broken + (if keep then [] else [last])) ==
            multiset(all + [last])
  {
  }

  /** Kept and violating assignments together are the plan, each once. */
  ghost predicate Partitioned(gate: Gate, plan: seq<Assignment>) {
    multiset(Kept(gate, plan)) + multiset(Subjects(Violations(gate, plan))) == multiset(plan)
  }

  lemma PartitionOneMore(gate: Gate, front: seq<Assignment>, last: Assignment)
    requires Partitioned(gate, front)
    ensures Partitioned(gate, front + [last])
  {
    EnforceOneMore(gate, front, last);
    SplitOneMore(front, last, Kept(gate, front), Subjects(Violations(gate, front)), Permitted(gate, last));
  }

  /** Nothing is lost and nothing is both kept and deferred. */
  lemma {:induction false} EnforcementIsAPartition(gate: Gate, plan: seq<Assignment>)
    ensures Partitioned(gate, plan)
  {
    if plan != [] {
      assert plan == plan[..|plan| - 1] + [plan[|plan| - 1]];
      EnforcementIsAPartition(gate, plan[..|plan| - 1]);
      PartitionOneMore(gate, plan[..|plan| - 1], plan[|plan| - 1]);
    }
  }

  // ----- what a pinned job gets

  lemma {:induction false} OverridesAt(routes: seq<Route>, route: Route)
    requires Distinct(routes) && route in routes
    ensures route.pool in Overrides(routes) && Overrides(routes)[route.pool] == OverrideFor(route)
  {
    assert routes == [routes[0]] + routes[1..];
    if route != routes[0] { OverridesAt(routes[1..], route); }
  }

  lemma {:induction false} ListedAt(routes: seq<Route>)
    requires Distinct(routes)
    ensures forall pool :: pool in PoolLists(ModelRows(routes)) <==> pool in Pools(routes)
    ensures forall route :: route in routes ==> route.pool in PoolLists(ModelRows(routes))
    ensures forall route :: route in routes ==> PoolLists(ModelRows(routes))[route.pool] == {route.model}
  {
    if routes != [] {
      assert routes == [routes[0]] + routes[1..];
      ListedAt(routes[1..]);
      var model := routes[0].model;
      assert Strings([Text(model)]) == {model} by { assert Text(model) in [Text(model)] && !Blank(model); }
    }
  }

  predicate IsChoice(route: Route, poolId: string, choice: Choice) {
    route.pool == poolId && choice == Chosen(Candidate(route.model, route.variant))
  }

  /** Every choice the planner can make for a pinned job is the policy's route for the pool:
      its model and its variant, with nothing to fall back to. */
  lemma PinnedChoice(job: Job, routes: seq<Route>, poolId: string, pool: Pool, profile: Profile)
    requires Distinct(routes) && poolId in Pin(job, routes).allowedPools
    requires Select(Pin(job, routes), poolId, pool, profile).Chosen?
    ensures exists route :: route in Selected(job, routes) &&
              IsChoice(route, poolId, Select(Pin(job, routes), poolId, pool, profile))
  {
    var selected := Selected(job, routes);
    var route :| route in selected && route.pool == poolId;
    OverridesAt(selected, route);
    var rows := OverrideFor(route).rows;
    assert Get(rows, "model") == Text(route.model);
    assert Get(rows, "variant") == rows[1].value by { assert Get(rows, "variant") == Get(rows[1..], "variant"); }
    assert !Blank(route.model);
  }

  predicate UniqueIds(jobs: seq<Job>) { forall a, b :: a in jobs && b in jobs && a.id == b.id ==> a == b }

  predicate IsPlanned(jobs: seq<Job>, a: Assignment, job: Job, pool: Pool, profile: Profile, variant: string) {
    && job in jobs && job.id == a.job && a.pool in job.allowedPools
    && Select(job, a.pool, pool, profile) == Chosen(Candidate(a.model, variant))
  }

  /** An assignment the planner can produce for these jobs, whatever the pools look like. */
  ghost predicate Planned(jobs: seq<Job>, a: Assignment) {
    exists job, pool, profile, variant :: IsPlanned(jobs, a, job, pool, profile, variant)
  }

  predicate HasRoute(routes: seq<Route>, a: Assignment) {
    exists route :: route in routes && route.pool == a.pool && route.model == a.model
  }

  /** The assignment's job is not among the jobs, or it has the policy's model for a pool
      its job may use. */
  predicate Follows(known: map<string, Job>, routes: seq<Route>, a: Assignment) {
    a.job in known ==> a.pool in known[a.job].allowedPools && HasRoute(routes, a)
  }

  /** What passes the check afterwards, whatever plan it comes from. */
  lemma PermittedMeaning(jobs: seq<Job>, routes: seq<Route>, a: Assignment)
    requires Distinct(routes) && routes != [] && forall job :: job in jobs ==> Clear(job, routes)
    ensures Permitted(GateOf(PinAll(jobs, routes)), a) <==> Follows(ById(PinAll(jobs, routes)), routes, a)
  {
    var pinned := PinAll(jobs, routes);
    var known := ById(pinned);
    if a.job in known {
      var job := known[a.job];
      assert GateOf(pinned)(a) == AllowedBy(job, a.pool);
      var k :| 0 <= k < |jobs| && pinned[k] == job;
      PinnedPermission(jobs[k], routes, a);
    }
  }

  lemma PinnedPermission(job: Job, routes: seq<Route>, a: Assignment)
    requires Distinct(routes) && routes != [] && Clear(job, routes)
    ensures AllowedBy(Pin(job, routes), a.pool).Some?
    ensures a.model in AllowedBy(Pin(job, routes), a.pool).value <==>
            a.pool in Pin(job, routes).allowedPools && HasRoute(routes, a)
  {
    SelectedIsNotEmpty(job, routes);
    TablePermission(Pin(job, routes), Selected(job, routes), a);
    SelectedRoute(job, routes, a);
  }

  lemma TablePermission(job: Job, selected: seq<Route>, a: Assignment)
    requires Distinct(selected) && job.allowedModels == Table(ModelRows(selected)) && exists some :: some in selected
    ensures AllowedBy(job, a.pool).Some?
    ensures a.model in AllowedBy(job, a.pool).value <==> HasRoute(selected, a)
  {
    ListedAt(selected);
    var byPool := PoolLists(ModelRows(selected));
    var some :| some in selected;
    assert some.pool in byPool && ListsOf(job) == Lists({}, byPool);
  }

  lemma SelectedRoute(job: Job, routes: seq<Route>, a: Assignment)
    requires Distinct(routes)
    ensures HasRoute(Selected(job, routes), a) <==> a.pool in Pools(Selected(job, routes)) && HasRoute(routes, a)
  {
  }

  lemma SelectedIsNotEmpty(job: Job, routes: seq<Route>)
    requires routes != [] && Clear(job, routes)
    ensures exists route :: route in Selected(job, routes)
  {
    if job.allowedPools == {} {
      assert routes[0] in Selected(job, routes);
    } else {
      var pool :| pool in job.allowedPools;
      var route :| route in routes && route.pool == pool;
      assert route in Selected(job, routes);
    }
  }

  lemma PlannedIsPermitted(jobs: seq<Job>, routes: seq<Route>, a: Assignment)
    requires Distinct(routes) && routes != [] && forall job :: job in jobs ==> Clear(job, routes)
    requires UniqueIds(PinAll(jobs, routes)) && Planned(PinAll(jobs, routes), a)
    ensures Permitted(GateOf(PinAll(jobs, routes)), a)
  {
    var pinned := PinAll(jobs, routes);
    var job, pool, profile, variant :| IsPlanned(pinned, a, job, pool, profile, variant);
    var k :| 0 <= k < |jobs| && pinned[k] == job;
    PinnedChoice(jobs[k], routes, a.pool, pool, profile);
    assert ById(pinned)[a.job] == job;
    PermittedMeaning(jobs, routes, a);
  }

  /** The two gates agree: under a policy that pins, assignments that model selection makes
      for the pinned jobs are never found in violation. */
  lemma NothingToEnforce(jobs: seq<Job>, policy: Policy, plan: seq<Assignment>)
    requires Pins(policy) && Applied(jobs, policy).Ok?
    requires UniqueIds(Applied(jobs, policy).value)
    requires forall a :: a in plan ==> Planned(Applied(jobs, policy).value, a)
    ensures Violations(GateOf(Applied(jobs, policy).value), plan) == []
    ensures Kept(GateOf(Applied(jobs, policy).value), plan) == plan
  {
    var pinned := Applied(jobs, policy).value;
    AppliedMeaning(jobs, policy);
    forall a | a in plan ensures Permitted(GateOf(pinned), a) {
      PlannedIsPermitted(jobs, policy.routes, a);
    }
    AllPermitted(GateOf(pinned), plan);
  }

  lemma {:induction false} AllPermitted(gate: Gate, plan: seq<Assignment>)
    requires forall a :: a in plan ==> Permitted(gate, a)
    ensures Violations(gate, plan) == [] && Kept(gate, plan) == plan
  {
    if plan != [] {
      AllPermitted(gate, plan[..|plan| - 1]);
      assert plan == plan[..|plan| - 1] + [plan[|plan| - 1]];
    }
  }

  lemma SurvivorHasRoute(jobs: seq<Job>, routes: seq<Route>, a: Assignment, job: Job)
    requires Distinct(routes) && routes != [] && forall one :: one in jobs ==> Clear(one, routes)
    requires Permitted(GateOf(PinAll(jobs, routes)), a) && job in jobs && job.id == a.job
    ensures HasRoute(routes, a)
  {
    PermittedMeaning(jobs, routes, a);
    var k :| 0 <= k < |jobs| && jobs[k] == job;
    var pinned := PinAll(jobs, routes);
    assert pinned[k] in pinned && pinned[k].id == a.job;
  }

  /** End to end: whatever the plan, an assignment of a known job that survives is one of the
      policy's routes. */
  lemma SurvivorsFollowThePolicy(jobs: seq<Job>, policy: Policy, plan: seq<Assignment>, a: Assignment, job: Job)
    requires Pins(policy) && Applied(jobs, policy).Ok?
    requires a in Kept(GateOf(Applied(jobs, policy).value), plan) && job in jobs && job.id == a.job
    ensures HasRoute(policy.routes, a)
  {
    AppliedMeaning(jobs, policy);
    SurvivorHasRoute(jobs, policy.routes, a, job);
  }

  // ----- pinning twice

  lemma OneName(model: string)
    requires !Blank(model)
    ensures AllNames(Many([Text(model)])) == {model}
  {
    var items := [Text(model)];
    assert items[1..] == [];
    assert AllNames(items[0]) == {model};
    assert AllNamesIn(items) == AllNames(items[0]) + AllNamesIn([]);
  }

  lemma {:induction false} NamesOfRows(routes: seq<Route>)
    requires Distinct(routes)
    ensures AllNamesOf(ModelRows(routes)) == RouteModels(routes)
    ensures Get(ModelRows(routes), "model") == Absent && Get(ModelRows(routes), "exact_model") == Absent
  {
    if routes != [] {
      assert routes == [routes[0]] + routes[1..];
      NamesOfRows(routes[1..]);
      OneName(routes[0].model);
      assert routes[0] in routes;
    }
  }

  lemma {:induction false} SelectedAgain(job: Job, again: Job, routes: seq<Route>, all: seq<Route>)
    requires Distinct(all) && again.allowedPools == Pools(Selected(job, all)) && again.allowedPools != {}
    requires forall route :: route in routes ==> route in all
    ensures Selected(again, routes) == Selected(job, routes)
  {
    if routes != [] {
      SelectedAgain(job, again, routes[1..], all);
      var route := routes[0];
      assert route in all;
      if route.pool in again.allowedPools {
        var same :| same in Selected(job, all) && same.pool == route.pool;
      }
    }
  }

  lemma PinnedOverridesAgree(pinned: Job, selected: seq<Route>)
    requires Distinct(selected) && pinned.modelByPool == Overrides(selected)
    ensures forall pool :: pool in pinned.modelByPool ==> OverrideAgrees(pinned, pool, selected)
  {
    forall pool | pool in pinned.modelByPool ensures OverrideAgrees(pinned, pool, selected) {
      OverrideKeys(selected);
      var route :| route in selected && route.pool == pool;
      OverridesAt(selected, route);
      OverrideForAgrees(route);
    }
  }

  /** Pinning a job that is already pinned changes nothing and finds no conflict. */
  lemma PinAgain(job: Job, routes: seq<Route>)
    requires Distinct(routes) && routes != [] && Clear(job, routes)
    ensures Clear(Pin(job, routes), routes) && Pin(Pin(job, routes), routes) == Pin(job, routes)
  {
    SelectedStays(job, routes);
    PinnedOverridesAgree(Pin(job, routes), Selected(job, routes));
    AskedAgain(job, routes);
    assert Pools(Selected(job, routes)) <= Pools(routes);
  }

  lemma SelectedStays(job: Job, routes: seq<Route>)
    requires Distinct(routes) && routes != [] && Clear(job, routes)
    ensures Selected(Pin(job, routes), routes) == Selected(job, routes)
  {
    SelectedIsNotEmpty(job, routes);
    var some :| some in Selected(job, routes);
    assert some.pool in Pin(job, routes).allowedPools;
    SelectedAgain(job, Pin(job, routes), routes, routes);
  }

  lemma AskedAgain(job: Job, routes: seq<Route>)
    requires Distinct(routes) && Clear(job, routes)
    ensures Asked(Pin(job, routes)) <= RouteModels(Selected(job, routes))
  {
    NamesOfTable(Selected(job, routes));
    assert AllNames(job.approvedModels) <= Asked(job);
  }

  lemma NamesOfTable(routes: seq<Route>)
    requires Distinct(routes)
    ensures AllNames(Table(ModelRows(routes))) == RouteModels(routes)
  {
    NamesOfRows(routes);
  }

  lemma {:induction false} OverrideKeys(routes: seq<Route>)
    ensures Overrides(routes).Keys == Pools(routes)
  {
    if routes != [] {
      OverrideKeys(routes[1..]);
      assert routes == [routes[0]] + routes[1..];
    }
  }

  lemma OverrideForAgrees(route: Route)
    ensures ModelAgrees(OverrideFor(route), route) && VariantAgrees(OverrideFor(route), route)
  {
    var rows := OverrideFor(route).rows;
    assert Get(rows, "variant") == Get(rows[1..], "variant");
  }
}

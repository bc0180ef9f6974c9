/**
  The candidate table of a planning round: for every considered job and participating
  pool the exact model is chosen first, then quota, agent host and workload hosts are
  checked, and a row is made for each host that fits.  Pools for which a job lacks an
  approval are noted on the way.
 */
module PlannerCandidates {
  import opened Wrappers
  import opened PlannerModel
  import opened QuotaReserve
  import Approval = ModelApproval

  /** What a job says about hosts and local servers. */
  datatype Placement = Placement(
    allowedHosts: set<string>,
    excludedHosts: set<string>,
    excludedWorkloadHosts: set<string>,
    excludedExecutionHosts: set<string>,
    serverFirst: bool,
    separateComputeHost: bool,
    allowServerLocal: bool,
    allowUnreviewed: bool,
    highStakes: bool)

  /** `request` holds the identifier and everything the job says about pools and models. */
  datatype Task = Task(
    request: Approval.Job,
    markedCompleted: bool,
    dependsOn: seq<string>,
    computeMinutes: real,
    difficulty: int,
    estimate: Job,
    writeScope: string,
    excludedPools: set<string>,
    placement: Placement)

  /** A pool: its quota, its models, and where its agent process can run. */
  datatype PoolEntry = PoolEntry(
    id: string,
    state: PoolState,
    models: Approval.Pool,
    profile: Approval.Profile,
    serverLocal: bool,
    desktop: bool,
    maxDifficulty: int,
    boundHost: Option<string>,
    agent: Option<nat>)

  datatype HostState = HostState(id: string, slots: int, cpu: int, ram: int, disk: int, gpu: int)

  datatype Quote = Quote(costPercent: real, score: real)

  /** Everything a round looks at.  `quote` estimates a task on a pool with a model, `fit`
      scores a task on a host; both are given. */
  datatype Scene = Scene(
    tasks: seq<Task>,
    pools: seq<PoolEntry>,
    hosts: seq<HostState>,
    quote: (nat, nat, string) -> Quote,
    fit: (nat, nat) -> Option<real>)

  ghost predicate Usable(scene: Scene) {
    && (forall x, q, model :: scene.quote(x, q, model).costPercent >= 0.0)
    && forall q :: 0 <= q < |scene.pools| && scene.pools[q].agent.Some? ==> scene.pools[q].agent.value < |scene.hosts|
  }

  /** The considered jobs and the participating pools, by position, with budgets and slots. */
  datatype Market = Market(considered: seq<nat>, ids: seq<nat>, budgets: seq<int>, slots: seq<int>)

  ghost predicate Stocked(scene: Scene, m: Market) {
    && (forall i :: 0 <= i < |m.considered| ==> m.considered[i] < |scene.tasks|)
    && (forall p :: 0 <= p < |m.ids| ==> m.ids[p] < |scene.pools|)
    && |m.ids| == |m.budgets| == |m.slots|
  }

  // ----- a job and a pool

  /** An explicit list of pools decides; failing that, the pools the job names models for. */
  predicate PoolAllowed(task: Task, pool: string) {
    var named := task.request.modelByPool.Keys - {""};
    && pool !in task.excludedPools
    && (if task.request.allowedPools != {} then pool in task.request.allowedPools else named == {} || pool in named)
  }

  function Pick(task: Task, pool: PoolEntry): Approval.Choice {
    Approval.Select(task.request, pool.id, pool.models, pool.profile)
  }

  /** The job may use the pool and the pool has a slot to give. */
  predicate Open(scene: Scene, m: Market, i: nat, p: nat)
    requires Stocked(scene, m) && i < |m.considered| && p < |m.ids|
  {
    PoolAllowed(scene.tasks[m.considered[i]], scene.pools[m.ids[p]].id) && m.slots[p] > 0
  }

  predicate Gated(scene: Scene, m: Market, i: nat, p: nat)
    requires Stocked(scene, m) && i < |m.considered| && p < |m.ids|
  {
    Open(scene, m, i, p) && Pick(scene.tasks[m.considered[i]], scene.pools[m.ids[p]]).NeedsApproval?
  }

  /** Local servers take no job that excludes them, and unreviewed ones no hard or critical job. */
  predicate Barred(task: Task, pool: PoolEntry) {
    && pool.serverLocal
    && (|| !task.placement.allowServerLocal
        || ((task.difficulty > pool.maxDifficulty || task.placement.highStakes) && !task.placement.allowUnreviewed))
  }

  /** The row a job has on a pool, but for the workload host. */
  function OfferOf(scene: Scene, m: Market, i: nat, p: nat): (r: Option<Candidate>)
    requires Stocked(scene, m) && i < |m.considered| && p < |m.ids|
  {
    var x, q := m.considered[i], m.ids[p];
    var task, pool := scene.tasks[x], scene.pools[q];
    var choice := Pick(task, pool);
    if !Open(scene, m, i, p) || !choice.Chosen? || Barred(task, pool) || pool.agent.None? then None
    else
      var quote := scene.quote(x, q, choice.pick.model);
      var row := Candidate(quote.score, quote.costPercent, pool.agent.value, choice.pick.model, choice.pick.variant);
      if CostUnits(row) > m.budgets[p] && !ReserveAllowed(task.estimate) then None
      else if row.agent >= |scene.hosts| || scene.hosts[row.agent].id in task.placement.excludedExecutionHosts then None
      else Some(row)
  }

  // ----- and a host

  /** A job that neither prefers servers nor wants another host stays where a desktop client runs. */
  predicate HostAllowed(task: Task, pool: PoolEntry, host: HostState, h: nat) {
    && (pool.serverLocal && pool.boundHost.Some? ==> host.id == pool.boundHost.value)
    && host.id !in task.placement.excludedWorkloadHosts + task.placement.excludedHosts
    && (task.placement.allowedHosts != {} ==> host.id in task.placement.allowedHosts)
    && (pool.desktop && !task.placement.serverFirst && !task.placement.separateComputeHost ==> pool.agent == Some(h))
    && host.slots > 0
  }

  function FitOf(scene: Scene, m: Market, i: nat, p: nat, h: nat): Option<real>
    requires Stocked(scene, m) && i < |m.considered| && p < |m.ids| && h < |scene.hosts|
  {
    if HostAllowed(scene.tasks[m.considered[i]], scene.pools[m.ids[p]], scene.hosts[h], h)
    then scene.fit(m.considered[i], h) else None
  }

  function RowFrom(offer: Option<Candidate>, fit: Option<real>): Option<Candidate> {
    if offer.Some? && fit.Some? then Some(offer.value.(score := offer.value.score + fit.value)) else None
  }

  /** The row of a choice, if it has one. */
  function RowOf(scene: Scene, m: Market, c: Choice): Option<Candidate>
    requires Stocked(scene, m)
  {
    if c.job < |m.considered| && c.pool < |m.ids| && c.host < |scene.hosts|
    then RowFrom(OfferOf(scene, m, c.job, c.pool), FitOf(scene, m, c.job, c.pool, c.host))
    else None
  }

  // ----- the table

  predicate Before(c: Choice, i: nat, p: nat, h: nat) {
    c.job < i || (c.job == i && (c.pool < p || (c.pool == p && c.host < h)))
  }

  /** The table holds the rows of all choices before (i, p, h) and nothing else. */
  ghost predicate FilledBy(rows: Choice -> Option<Candidate>, table: map<Choice, Candidate>, i: nat, p: nat, h: nat) {
    && (forall c :: c in table <==> Before(c, i, p, h) && rows(c).Some?)
    && forall c :: c in table ==> rows(c) == Some(table[c])
  }

  ghost function Rows(scene: Scene, m: Market): Choice -> Option<Candidate> {
    c => if Stocked(scene, m) then RowOf(scene, m, c) else None
  }

  ghost predicate Filled(scene: Scene, m: Market, table: map<Choice, Candidate>, i: nat, p: nat, h: nat) {
    FilledBy(Rows(scene, m), table, i, p, h)
  }

  /** The whole table. */
  ghost predicate IsTable(scene: Scene, m: Market, table: map<Choice, Candidate>)
    requires Stocked(scene, m)
  {
    && (forall c :: c in table <==> RowOf(scene, m, c).Some?)
    && forall c :: c in table ==> RowOf(scene, m, c) == Some(table[c])
  }

  /** The pools, among the first `n`, that wait for an approval of considered job `i`. */
  function GatedBelow(scene: Scene, m: Market, i: nat, n: nat): (r: seq<nat>)
    requires Stocked(scene, m) && i < |m.considered| && n <= |m.ids|
  {
    if n == 0 then []
    else
      var rest := GatedBelow(scene, m, i, n - 1);
      if Gated(scene, m, i, n - 1) then rest + [m.ids[n - 1]] else rest
  }

  function AllGated(scene: Scene, m: Market, i: nat): seq<nat>
    requires Stocked(scene, m) && i < |m.considered|
  {
    GatedBelow(scene, m, i, |m.ids|)
  }

  lemma {:induction false} GatedMeaning(scene: Scene, m: Market, i: nat, n: nat)
    requires Stocked(scene, m) && i < |m.considered| && n <= |m.ids|
    ensures forall q :: q in GatedBelow(scene, m, i, n) <==>
              exists p: nat :: p < n && m.ids[p] == q && Gated(scene, m, i, p)
  {
    if n > 0 { GatedMeaning(scene, m, i, n - 1); }
  }

  /** Some of the first `n` pools made an offer for considered job `i`. */
  predicate AnyOffer(scene: Scene, m: Market, i: nat, n: nat)
    requires Stocked(scene, m) && i < |m.considered| && n <= |m.ids|
  {
    n > 0 && (AnyOffer(scene, m, i, n - 1) || OfferOf(scene, m, i, n - 1).Some?)
  }

  predicate Reached(scene: Scene, m: Market, i: nat)
    requires Stocked(scene, m) && i < |m.considered|
  {
    AnyOffer(scene, m, i, |m.ids|)
  }

  lemma {:induction false} AnOfferCounts(scene: Scene, m: Market, i: nat, n: nat, p: nat)
    requires Stocked(scene, m) && i < |m.considered| && p < n <= |m.ids| && OfferOf(scene, m, i, p).Some?
    ensures AnyOffer(scene, m, i, n)
  {
    if p < n - 1 { AnOfferCounts(scene, m, i, n - 1, p); }
  }

  lemma {:induction false} NoOffersAtAll(scene: Scene, m: Market, i: nat, n: nat)
    requires Stocked(scene, m) && i < |m.considered| && n <= |m.ids|
    requires forall p: nat :: p < n ==> OfferOf(scene, m, i, p).None?
    ensures !AnyOffer(scene, m, i, n)
  {
    if n > 0 { NoOffersAtAll(scene, m, i, n - 1); }
  }

  lemma BeforeNext(c: Choice, i: nat, p: nat, h: nat)
    ensures Before(c, i, p, h + 1) <==> Before(c, i, p, h) || c == Choice(i, p, h)
  {
  }

  lemma FilledByStep(rows: Choice -> Option<Candidate>, table: map<Choice, Candidate>, i: nat, p: nat, h: nat)
    requires FilledBy(rows, table, i, p, h)
    ensures var c := Choice(i, p, h);
      FilledBy(rows, if rows(c).Some? then table[c := rows(c).value] else table, i, p, h + 1)
  {
    forall d ensures Before(d, i, p, h + 1) <==> Before(d, i, p, h) || d == Choice(i, p, h) {
      BeforeNext(d, i, p, h);
    }
  }

  /** The rows of one job on one pool are those of the hosts that fit. */
  ghost predicate RowsAt(scene: Scene, m: Market, i: nat, p: nat, offer: Option<Candidate>,
                         rows: Choice -> Option<Candidate>)
    requires Stocked(scene, m) && i < |m.considered| && p < |m.ids|
  {
    && (forall h: nat :: h < |scene.hosts| ==> rows(Choice(i, p, h)) == RowFrom(offer, FitOf(scene, m, i, p, h)))
    && forall h: nat :: |scene.hosts| <= h ==> rows(Choice(i, p, h)) == None
  }

  lemma RowsAreAt(scene: Scene, m: Market, i: nat, p: nat)
    requires Stocked(scene, m) && i < |m.considered| && p < |m.ids|
    ensures RowsAt(scene, m, i, p, OfferOf(scene, m, i, p), Rows(scene, m))
  {
  }

  /** The rows of one job on one pool. */
  method AddRows(scene: Scene, m: Market, i: nat, p: nat, offer: Candidate, table: map<Choice, Candidate>,
                 ghost rows: Choice -> Option<Candidate>) returns (more: map<Choice, Candidate>)
    requires Stocked(scene, m) && i < |m.considered| && p < |m.ids|
    requires RowsAt(scene, m, i, p, Some(offer), rows) && FilledBy(rows, table, i, p, 0)
    ensures FilledBy(rows, more, i, p + 1, 0)
  {
    more := table;
    for h := 0 to |scene.hosts|
      invariant FilledBy(rows, more, i, p, h)
    {
      FilledByStep(rows, more, i, p, h);
      var fit := FitOf(scene, m, i, p, h);
      if fit.Some? {
        more := more[Choice(i, p, h) := offer.(score := offer.score + fit.value)];
      }
    }
    LastHost(rows, more, i, p, |scene.hosts|);
  }

  lemma LastHost(rows: Choice -> Option<Candidate>, table: map<Choice, Candidate>, i: nat, p: nat, n: nat)
    requires FilledBy(rows, table, i, p, n) && forall h: nat :: n <= h ==> rows(Choice(i, p, h)) == None
    ensures FilledBy(rows, table, i, p + 1, 0)
  {
    forall c | Before(c, i, p + 1, 0) && !Before(c, i, p, n) ensures rows(c) == None {
      assert c == Choice(i, p, c.host);
    }
  }

  /** A pool without an offer has no rows. */
  lemma NoOfferNoRows(scene: Scene, m: Market, i: nat, p: nat, table: map<Choice, Candidate>,
                      rows: Choice -> Option<Candidate>)
    requires Stocked(scene, m) && i < |m.considered| && p < |m.ids|
    requires RowsAt(scene, m, i, p, None, rows) && FilledBy(rows, table, i, p, 0)
    ensures FilledBy(rows, table, i, p + 1, 0)
  {
    forall h: nat ensures rows(Choice(i, p, h)) == None {
    }
    LastHost(rows, table, i, p, 0);
  }

  lemma NoPoolNoRows(scene: Scene, m: Market, i: nat, table: map<Choice, Candidate>)
    requires Stocked(scene, m) && i < |m.considered| && Filled(scene, m, table, i, |m.ids|, 0)
    ensures Filled(scene, m, table, i + 1, 0, 0)
  {
  }

  /** What one pool has for one job: nothing, a missing approval, or an offer. */
  method AskPool(scene: Scene, m: Market, i: nat, p: nat) returns (offer: Option<Candidate>, gated: bool)
    requires Stocked(scene, m) && i < |m.considered| && p < |m.ids|
    ensures offer == OfferOf(scene, m, i, p) && gated == Gated(scene, m, i, p)
  {
    var x, q := m.considered[i], m.ids[p];
    var task, pool := scene.tasks[x], scene.pools[q];
    if !PoolAllowed(task, pool.id) || m.slots[p] <= 0 {
      return None, false;
    }
    var choice := Approval.SelectPoolModel(task.request, pool.id, pool.models, pool.profile);
    if !choice.Chosen? {
      return None, choice.NeedsApproval?;
    }
    if Barred(task, pool) || pool.agent.None? {
      return None, false;
    }
    var quote := scene.quote(x, q, choice.pick.model);
    var row := Candidate(quote.score, quote.costPercent, pool.agent.value, choice.pick.model, choice.pick.variant);
    if CostUnits(row) > m.budgets[p] && !ReserveAllowed(task.estimate) {
      return None, false;
    }
    if row.agent >= |scene.hosts| || scene.hosts[row.agent].id in task.placement.excludedExecutionHosts {
      return None, false;
    }
    return Some(row), false;
  }

  /** The pools one job can use: their rows, and those that lack an approval. */
  method AddJob(scene: Scene, m: Market, i: nat, table: map<Choice, Candidate>)
    returns (more: map<Choice, Candidate>, gated: seq<nat>, reached: bool)
    requires Stocked(scene, m) && i < |m.considered| && Filled(scene, m, table, i, 0, 0)
    ensures Filled(scene, m, more, i + 1, 0, 0)
    ensures gated == AllGated(scene, m, i) && reached == Reached(scene, m, i)
  {
    more, gated, reached := table, [], false;
    for p := 0 to |m.ids|
      invariant Filled(scene, m, more, i, p, 0)
      invariant gated == GatedBelow(scene, m, i, p)
      invariant reached == AnyOffer(scene, m, i, p)
    {
      var offer, blocked := AskPool(scene, m, i, p);
      if blocked { gated := gated + [m.ids[p]]; }
      RowsAreAt(scene, m, i, p);
      if offer.Some? {
        reached := true;
        more := AddRows(scene, m, i, p, offer.value, more, Rows(scene, m));
      } else {
        NoOfferNoRows(scene, m, i, p, more, Rows(scene, m));
      }
    }
    NoPoolNoRows(scene, m, i, more);
  }

  /** The table, the pools that lack an approval for each job, and the jobs some pool made
      an offer for. */
  method BuildTable(scene: Scene, m: Market)
    returns (table: map<Choice, Candidate>, gated: seq<seq<nat>>, reached: set<nat>)
    requires Stocked(scene, m)
    ensures IsTable(scene, m, table)
    ensures |gated| == |m.considered| && forall i :: 0 <= i < |gated| ==> gated[i] == AllGated(scene, m, i)
    ensures forall i: nat :: i in reached <==> i < |m.considered| && Reached(scene, m, i)
  {
    table, gated, reached := map[], [], {};
    for i := 0 to |m.considered|
      invariant Filled(scene, m, table, i, 0, 0)
      invariant |gated| == i && forall k :: 0 <= k < i ==> gated[k] == AllGated(scene, m, k)
      invariant forall k: nat :: k in reached <==> k < i && Reached(scene, m, k)
    {
      var row, found;
      table, row, found := AddJob(scene, m, i, table);
      gated := gated + [row];
      if found { reached := reached + {i}; }
    }
  }

  // ----- what a row says

  /** Every row names the model that was chosen for its job and pool, and the job may use
      the pool. */
  lemma RowIsPicked(scene: Scene, m: Market, table: map<Choice, Candidate>, c: Choice)
    requires Stocked(scene, m) && IsTable(scene, m, table) && c in table
    ensures c.job < |m.considered| && c.pool < |m.ids| && c.host < |scene.hosts|
    ensures var task, pool := scene.tasks[m.considered[c.job]], scene.pools[m.ids[c.pool]];
      && PoolAllowed(task, pool.id)
      && Pick(task, pool) == Approval.Chosen(Approval.Candidate(table[c].model, table[c].variant))
      && pool.agent == Some(table[c].agent)
      && table[c].costPercent == scene.quote(m.considered[c.job], m.ids[c.pool], table[c].model).costPercent
  {
    assert RowOf(scene, m, c) == Some(table[c]);
  }
}

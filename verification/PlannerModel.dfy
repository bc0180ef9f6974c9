/**
  The assignment problem solved by the rolling-horizon planner, and the recursion
  that solves it.

  A choice places one job on one model pool and one workload host; the candidate
  table says which choices exist, what they score and which host runs the agent.
  Scores and percentages are reals; quota costs, RAM and disk are counted in the
  planner's own integer units.
 */
module PlannerModel {

  /** One job of the horizon: its normalised resource estimate and whether it may
      draw on the reserve (an explicit flag or priority 4). */
  datatype Job = Job(
    cpuCores: nat,
    ramGib: real,
    newDiskGib: real,
    gpuCount: nat,
    allowReserve: bool,
    priority: int)

  /** A (job index, pool index, workload host index) triple. */
  datatype Choice = Choice(job: nat, pool: nat, host: nat)

  /** A row of the candidate table: score, estimated quota cost in percent, the host on
      which the agent process runs, and the exact model with its variant. */
  datatype Candidate = Candidate(score: real, costPercent: real, agent: nat, model: string, variant: string)

  /** `conflicts[i]` holds the jobs whose write scope clashes with job `i`. */
  datatype Instance = Instance(
    jobs: seq<Job>,
    pools: nat,
    hosts: nat,
    conflicts: seq<set<nat>>,
    table: map<Choice, Candidate>)

  /** The seven remaining-capacity tuples threaded through the search. */
  datatype Capacity = Capacity(
    budgets: seq<int>,
    poolSlots: seq<int>,
    hostSlots: seq<int>,
    cpu: seq<int>,
    ram: seq<int>,
    disk: seq<int>,
    gpu: seq<int>)

  /** A total score and the choices that earn it. */
  datatype Outcome = Outcome(score: real, choices: seq<Choice>)

  function Max(a: int, b: int): int { if a < b then b else a }

  function Ceil(x: real): int { -((-x).Floor) }

  lemma CeilIsClose(x: real)
    ensures x <= Ceil(x) as real < x + 1.0
  {
  }

  function RamUnits(job: Job): (n: nat)
    ensures n >= 1
  {
    Max(1, Ceil(job.ramGib * 2.0))
  }

  function DiskUnits(job: Job): (n: nat)
    ensures n >= 1
  {
    Max(1, Ceil(job.newDiskGib * 2.0))
  }

  /** Quota cost in tenths of a percent, rounded up and never free. */
  function CostUnits(candidate: Candidate): (n: nat)
    ensures n >= 1
    ensures candidate.costPercent * 10.0 <= n as real
  {
    Max(1, Ceil(candidate.costPercent * 10.0))
  }

  predicate ReserveAllowed(job: Job) { job.allowReserve || job.priority >= 4 }

  ghost predicate WellFormed(inst: Instance) {
    && |inst.conflicts| == |inst.jobs|
    && (forall i, j :: 0 <= i < |inst.jobs| && 0 <= j < |inst.jobs| ==>
          (j in inst.conflicts[i] <==> i in inst.conflicts[j]))
    && (forall c :: c in inst.table ==> Indexed(inst, c))
  }

  ghost predicate Indexed(inst: Instance, c: Choice)
    requires c in inst.table
  {
    && c.job < |inst.jobs| && c.pool < inst.pools && c.host < inst.hosts
    && inst.table[c].agent < inst.hosts
    && inst.table[c].costPercent >= 0.0
  }

  ghost predicate Fits(inst: Instance, cap: Capacity) {
    && |cap.budgets| == inst.pools && |cap.poolSlots| == inst.pools
    && |cap.hostSlots| == inst.hosts && |cap.cpu| == inst.hosts && |cap.ram| == inst.hosts
    && |cap.disk| == inst.hosts && |cap.gpu| == inst.hosts
    && forall p :: 0 <= p < inst.pools ==> cap.budgets[p] >= 0
  }

  /** The search's admission test for one choice: pool slots, the table, both hosts' slots,
      the workload host's capacities, and the budget unless the reserve may be used. */
  predicate Admissible(inst: Instance, cap: Capacity, c: Choice)
    requires WellFormed(inst) && Fits(inst, cap)
    requires c.job < |inst.jobs| && c.pool < inst.pools && c.host < inst.hosts
  {
    && cap.poolSlots[c.pool] > 0
    && c in inst.table
    && cap.hostSlots[c.host] > 0
    && cap.hostSlots[inst.table[c].agent] > 0
    && inst.jobs[c.job].cpuCores <= cap.cpu[c.host]
    && RamUnits(inst.jobs[c.job]) <= cap.ram[c.host]
    && DiskUnits(inst.jobs[c.job]) <= cap.disk[c.host]
    && inst.jobs[c.job].gpuCount <= cap.gpu[c.host]
    && (CostUnits(inst.table[c]) <= cap.budgets[c.pool] || ReserveAllowed(inst.jobs[c.job]))
  }

  /** What is left after taking `c`: the budget clamps at zero, and the agent host
      loses a slot of its own only when it is not the workload host. */
  function Charge(inst: Instance, cap: Capacity, c: Choice): (next: Capacity)
    requires WellFormed(inst) && Fits(inst, cap) && c in inst.table
    ensures Fits(inst, next)
  {
    var job, candidate := inst.jobs[c.job], inst.table[c];
    var slots := cap.hostSlots[c.host := cap.hostSlots[c.host] - 1];
    Capacity(
      cap.budgets[c.pool := Max(0, cap.budgets[c.pool] - CostUnits(candidate))],
      cap.poolSlots[c.pool := cap.poolSlots[c.pool] - 1],
      if candidate.agent != c.host then slots[candidate.agent := slots[candidate.agent] - 1] else slots,
      cap.cpu[c.host := cap.cpu[c.host] - job.cpuCores],
      cap.ram[c.host := cap.ram[c.host] - RamUnits(job)],
      cap.disk[c.host := cap.disk[c.host] - DiskUnits(job)],
      cap.gpu[c.host := cap.gpu[c.host] - job.gpuCount])
  }

  /** The unmemoised recursion: skip job `i`, or take the best of its choices. */
  function Best(inst: Instance, i: nat, cap: Capacity, chosen: set<nat>, lanes: int): Outcome
    requires WellFormed(inst) && Fits(inst, cap) && i <= |inst.jobs|
    decreases |inst.jobs| - i, 1, 0, 0
  {
    if i >= |inst.jobs| || lanes <= 0 then Outcome(0.0, [])
    else
      var skip := Best(inst, i + 1, cap, chosen, lanes);
      if inst.conflicts[i] * chosen != {} then skip
      else Scan(inst, i, cap, chosen, lanes, 0, 0, skip)
  }

  /** Tries the choices of job `i` from (p, h) onwards, pools outermost, keeping the
      first strictly better total. */
  function Scan(inst: Instance, i: nat, cap: Capacity, chosen: set<nat>, lanes: int,
                p: nat, h: nat, best: Outcome): Outcome
    requires WellFormed(inst) && Fits(inst, cap) && i < |inst.jobs|
    requires p <= inst.pools && h <= inst.hosts
    decreases |inst.jobs| - i, 0, inst.pools - p, inst.hosts - h
  {
    if p == inst.pools then best
    else if h == inst.hosts then Scan(inst, i, cap, chosen, lanes, p + 1, 0, best)
    else Scan(inst, i, cap, chosen, lanes, p, h + 1, Improve(inst, cap, chosen, lanes, Choice(i, p, h), best))
  }

  function Improve(inst: Instance, cap: Capacity, chosen: set<nat>, lanes: int, c: Choice, best: Outcome): Outcome
    requires WellFormed(inst) && Fits(inst, cap)
    requires c.job < |inst.jobs| && c.pool < inst.pools && c.host < inst.hosts
    decreases |inst.jobs| - c.job, 0, 0, 0
  {
    if !Admissible(inst, cap, c) then best
    else
      var taken := Take(inst, cap, chosen, lanes, c);
      if taken.score > best.score then taken else best
  }

  /** The outcome of taking `c` now and continuing optimally with the later jobs. */
  function Take(inst: Instance, cap: Capacity, chosen: set<nat>, lanes: int, c: Choice): Outcome
    requires WellFormed(inst) && Fits(inst, cap) && c in inst.table
    decreases |inst.jobs| - c.job - 1, 2, 0, 0
  {
    var future := Best(inst, c.job + 1, Charge(inst, cap, c), chosen + {c.job}, lanes - 1);
    Outcome(inst.table[c].score + future.score, [c] + future.choices)
  }
}

/** The search as it runs: recursion behind a table keyed on every argument. */
module PlannerSearch {
  import opened PlannerModel

  /** All ten arguments of the recursion: the index, the seven tuples, the mask and the lanes. */
  datatype Key = Key(index: nat, cap: Capacity, chosen: set<nat>, lanes: int)

  class Solver {
    const inst: Instance
    var memo: map<Key, Outcome>

    ghost predicate Valid()
      reads this
    {
      && WellFormed(inst)
      && forall k :: k in memo ==> Correct(k, memo[k])
    }

    ghost predicate Correct(k: Key, o: Outcome)
      requires WellFormed(inst)
    {
      k.index <= |inst.jobs| && Fits(inst, k.cap) && o == Best(inst, k.index, k.cap, k.chosen, k.lanes)
    }

    /** The table only ever gains entries. */
    twostate predicate Grown()
      reads this
    {
      forall k :: k in old(memo) ==> k in memo && memo[k] == old(memo)[k]
    }

    constructor (inst: Instance)
      requires WellFormed(inst)
      ensures Valid() && this.inst == inst && memo == map[]
    {
      this.inst := inst;
      memo := map[];
    }

    /** Whatever the table holds when the call is made, the answer is the one the
        unmemoised recursion gives. */
    method Solve(i: nat, cap: Capacity, chosen: set<nat>, lanes: int) returns (o: Outcome)
      requires Valid() && Fits(inst, cap) && i <= |inst.jobs|
      modifies this
      ensures Valid() && Grown()
      ensures o == Best(inst, i, cap, chosen, lanes)
      ensures Key(i, cap, chosen, lanes) in memo
      decreases |inst.jobs| - i
    {
      var key := Key(i, cap, chosen, lanes);
      if key in memo {
        return memo[key];
      }
      if i >= |inst.jobs| || lanes <= 0 {
        o := Outcome(0.0, []);
        memo := memo[key := o];
        return;
      }
      o := Solve(i + 1, cap, chosen, lanes);
      if inst.conflicts[i] * chosen == {} {
        o := ScanChoices(i, cap, chosen, lanes, o);
      }
      memo := memo[key := o];
    }

    method ScanChoices(i: nat, cap: Capacity, chosen: set<nat>, lanes: int, skip: Outcome) returns (best: Outcome)
      requires Valid() && Fits(inst, cap) && i < |inst.jobs|
      modifies this
      ensures Valid() && Grown()
      ensures best == Scan(inst, i, cap, chosen, lanes, 0, 0, skip)
      decreases |inst.jobs| - i, 0
    {
      best := skip;
      for p := 0 to inst.pools
        invariant Valid() && Grown()
        invariant Scan(inst, i, cap, chosen, lanes, p, 0, best) == Scan(inst, i, cap, chosen, lanes, 0, 0, skip)
      {
        for h := 0 to inst.hosts
          invariant Valid() && Grown()
          invariant Scan(inst, i, cap, chosen, lanes, p, h, best) == Scan(inst, i, cap, chosen, lanes, 0, 0, skip)
        {
          var c := Choice(i, p, h);
          ghost var before := best;
          if Admissible(inst, cap, c) {
            var future := Solve(i + 1, Charge(inst, cap, c), chosen + {i}, lanes - 1);
            var total := inst.table[c].score + future.score;
            if total > best.score {
              best := Outcome(total, [c] + future.choices);
            }
          }
          assert best == Improve(inst, cap, chosen, lanes, c, before);
        }
      }
    }
  }
}

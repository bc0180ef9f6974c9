/**
  The queue controller's state file and what enqueueing, running and resuming do to it.
  A process can die between any two saves; what it knew is lost, the file is not.
 */
module ContinuityState {
  import opened Wrappers
  import opened ContinuityGate

  datatype Status = Queued | Retry | Running | Completed | Failed | Blocked | NeedsReview

  /** A row of the state file: the job, its status, and its failed attempts so far. */
  datatype Row = Row(job: Job, status: Status, failures: seq<nat>)

  /** The state file, and which jobs' attempt lists were ever begun. */
  datatype Store = Store(rows: seq<Row>, begun: seq<nat>)

  /** A command's outcome: what is on file, and whether the process outlived it. */
  datatype Outcome = Outcome(store: Store, alive: bool)

  predicate Waiting(status: Status) { status.Queued? || status.Retry? }

  predicate Settled(status: Status) {
    status.Completed? || status.Failed? || status.Blocked? || status.NeedsReview?
  }

  function CompletedIds(rows: seq<Row>): set<string> {
    set k | 0 <= k < |rows| && rows[k].status.Completed? :: rows[k].job.id
  }

  predicate DependenciesMet(rows: seq<Row>, job: Job) {
    forall k :: 0 <= k < |job.dependsOn| ==> job.dependsOn[k] in CompletedIds(rows)
  }

  predicate Runnable(rows: seq<Row>, i: nat) {
    i < |rows| && Waiting(rows[i].status) && DependenciesMet(rows, rows[i].job)
  }

  /** The first runnable row, in file order. */
  function FirstRunnable(rows: seq<Row>, from: nat): (r: Option<nat>)
    requires from <= |rows|
    ensures r.Some? ==> Runnable(rows, r.value) && forall k :: from <= k < r.value ==> !Runnable(rows, k)
    ensures r.None? ==> forall k :: from <= k < |rows| ==> !Runnable(rows, k)
    decreases |rows| - from
  {
    if from == |rows| then None
    else if Runnable(rows, from) then Some(from)
    else FirstRunnable(rows, from + 1)
  }

  function WithStatus(store: Store, i: nat, status: Status): Store
    requires i < |store.rows|
  {
    store.(rows := store.rows[i := store.rows[i].(status := status)])
  }

  function WithFailure(store: Store, i: nat, attempt: nat): Store
    requires i < |store.rows|
  {
    store.(rows := store.rows[i := store.rows[i].(failures := store.rows[i].failures + [attempt])])
  }

  /** The attempts from `k` on; `saves` is how many saves the process still lives to see. */
  function RunAttempts(store: Store, i: nat, seen: nat -> Observed, k: nat, saves: nat): (r: Outcome)
    requires i < |store.rows| && k < |store.rows[i].job.attempts|
    ensures |r.store.rows| == |store.rows|
    decreases |store.rows[i].job.attempts| - k
  {
    var job := store.rows[i].job;
    if saves == 0 then Outcome(store, false)
    else if Completes(job, job.attempts[k], seen(k)) then Outcome(WithStatus(store, i, Completed), true)
    else
      var failed := WithFailure(store, i, k);
      if MovesOn(job.attempts, k, seen(k).errorClass) then RunAttempts(failed, i, seen, k + 1, saves - 1)
      else if saves == 1 then Outcome(failed, false)
      else Outcome(WithStatus(failed, i, Failed), true)
  }

  /** Running one job.  A job without attempts is failed in memory only, so the file
      still has it queued. */
  function RunJob(store: Store, i: nat, seen: nat -> Observed, saves: nat): (r: Outcome)
    requires i < |store.rows|
    ensures |r.store.rows| == |store.rows|
  {
    if store.rows[i].job.attempts == [] then Outcome(store, true)
    else if saves == 0 then Outcome(store, false)
    else
      var begun := WithStatus(store, i, Running).(begun := store.begun + [i]);
      RunAttempts(begun, i, seen, 0, saves - 1)
  }

  predicate Enqueueable(rows: seq<Row>, job: Job) {
    job.id != "" && forall k :: 0 <= k < |rows| ==> rows[k].job.id != job.id
  }

  function Enqueue(store: Store, job: Job): Store {
    if Enqueueable(store.rows, job) then store.(rows := store.rows + [Row(job, Queued, [])]) else store
  }

  /** Resuming marks every uncompleted job whose artifacts are all there for review. */
  function Reconciled(row: Row, ready: bool): Row {
    if ready && !row.status.Completed? then row.(status := NeedsReview) else row
  }

  function ReconcileRows(rows: seq<Row>, ready: nat -> bool): (r: seq<Row>)
    ensures |r| == |rows| && forall k: nat :: k < |rows| ==> r[k] == Reconciled(rows[k], ready(k))
  {
    seq(|rows|, k requires 0 <= k < |rows| => Reconciled(rows[k], ready(k)))
  }

  function Resume(store: Store, ready: nat -> bool): Store {
    store.(rows := ReconcileRows(store.rows, ready))
  }

  // ----- what every step keeps

  ghost predicate DistinctIds(rows: seq<Row>) {
    forall j, k :: 0 <= j < k < |rows| ==> rows[j].job.id != rows[k].job.id
  }

  /** Every completed job's dependencies are completed. */
  ghost predicate Closed(rows: seq<Row>) {
    forall k :: 0 <= k < |rows| && rows[k].status.Completed? ==> DependenciesMet(rows, rows[k].job)
  }

  /** A job whose attempts were begun is no longer waiting, and is listed once. */
  ghost predicate BegunOnce(store: Store) {
    && (forall j, k :: 0 <= j < k < |store.begun| ==> store.begun[j] != store.begun[k])
    && (forall k :: 0 <= k < |store.begun| ==>
          store.begun[k] < |store.rows| && !Waiting(store.rows[store.begun[k]].status))
  }

  ghost predicate Inv(store: Store) {
    && DistinctIds(store.rows) && Closed(store.rows) && BegunOnce(store)
    && forall k :: 0 <= k < |store.rows| ==> !store.rows[k].status.Retry? && !store.rows[k].status.Blocked?
  }

  /** From one state file to a later one: rows stay, nothing returns to the queue, what
      is completed stays completed, and the list of begun jobs only grows. */
  ghost predicate Progress(before: Store, after: Store) {
    && |before.rows| <= |after.rows|
    && before.begun <= after.begun
    && forall k :: 0 <= k < |before.rows| ==>
         && after.rows[k].job == before.rows[k].job
         && (before.rows[k].status.Completed? ==> after.rows[k].status.Completed?)
         && (Waiting(after.rows[k].status) ==> after.rows[k].status == before.rows[k].status)
  }

  lemma CompletedGrow(before: seq<Row>, after: seq<Row>)
    requires |before| <= |after|
    requires forall k :: 0 <= k < |before| ==>
      after[k].job == before[k].job && (before[k].status.Completed? ==> after[k].status.Completed?)
    ensures CompletedIds(before) <= CompletedIds(after)
  {
    forall id | id in CompletedIds(before) ensures id in CompletedIds(after) {
      var k :| 0 <= k < |before| && before[k].status.Completed? && before[k].job.id == id;
      assert after[k].status.Completed?;
    }
  }

  /** Changing one begun row to a later status keeps the invariant. */
  lemma StatusKeeps(store: Store, i: nat, status: Status)
    requires Inv(store) && i < |store.rows| && !store.rows[i].status.Completed?
    requires status.Running? || status.Completed? || status.Failed?
    requires status.Completed? ==> DependenciesMet(store.rows, store.rows[i].job)
    ensures Inv(WithStatus(store, i, status)) && Progress(store, WithStatus(store, i, status))
  {
    CompletedGrow(store.rows, WithStatus(store, i, status).rows);
  }

  lemma FailureKeeps(store: Store, i: nat, attempt: nat)
    requires Inv(store) && i < |store.rows|
    ensures Inv(WithFailure(store, i, attempt)) && Progress(store, WithFailure(store, i, attempt))
    ensures CompletedIds(WithFailure(store, i, attempt).rows) == CompletedIds(store.rows)
  {
    CompletedGrow(store.rows, WithFailure(store, i, attempt).rows);
    CompletedGrow(WithFailure(store, i, attempt).rows, store.rows);
  }

  lemma ProgressTransitive(a: Store, b: Store, c: Store)
    requires Progress(a, b) && Progress(b, c)
    ensures Progress(a, c)
  {
  }

  /** Only the row that runs changes, and only its status and failures. */
  ghost predicate OnlyRow(before: Store, after: Store, i: nat) {
    && |after.rows| == |before.rows|
    && forall k :: 0 <= k < |before.rows| && k != i ==> after.rows[k] == before.rows[k]
  }

  lemma {:induction false} RunAttemptsKeeps(store: Store, i: nat, seen: nat -> Observed, k: nat, saves: nat)
    requires Inv(store) && i < |store.rows| && k < |store.rows[i].job.attempts|
    requires store.rows[i].status.Running? && DependenciesMet(store.rows, store.rows[i].job)
    ensures var r := RunAttempts(store, i, seen, k, saves);
      && Inv(r.store) && Progress(store, r.store) && OnlyRow(store, r.store, i) && r.store.begun == store.begun
      && (!r.alive ==> r.store.rows[i].status.Running?)
      && (r.alive ==> var end := Walk(store.rows[i].job, seen, k);
            r.store.rows[i].status == if end.CompletedAt? then Completed else Failed)
    decreases |store.rows[i].job.attempts| - k
  {
    var job := store.rows[i].job;
    if saves > 0 {
      if Completes(job, job.attempts[k], seen(k)) {
        StatusKeeps(store, i, Completed);
      } else {
        var failed := WithFailure(store, i, k);
        FailureKeeps(store, i, k);
        if MovesOn(job.attempts, k, seen(k).errorClass) {
          RunAttemptsKeeps(failed, i, seen, k + 1, saves - 1);
          ProgressTransitive(store, failed, RunAttempts(store, i, seen, k, saves).store);
        } else {
          StatusKeeps(failed, i, Failed);
          ProgressTransitive(store, failed, WithStatus(failed, i, Failed));
        }
      }
    }
  }

  /** Running a runnable job begins it at most once, touches no other row, and leaves it
      settled as its walk decides, or running if the process died. */
  lemma RunJobKeeps(store: Store, i: nat, seen: nat -> Observed, saves: nat)
    requires Inv(store) && Runnable(store.rows, i)
    ensures var r := RunJob(store, i, seen, saves);
      && Inv(r.store) && Progress(store, r.store) && OnlyRow(store, r.store, i)
      && (store.rows[i].job.attempts == [] ==> r.store == store)
      && (store.rows[i].job.attempts != [] && r.alive ==>
            r.store.begun == store.begun + [i] &&
            r.store.rows[i].status == if Walk(store.rows[i].job, seen, 0).CompletedAt? then Completed else Failed)
  {
    if store.rows[i].job.attempts != [] && saves > 0 {
      var running := WithStatus(store, i, Running);
      StatusKeeps(store, i, Running);
      var begun := running.(begun := store.begun + [i]);
      assert i !in store.begun;
      assert Inv(begun) && Progress(store, begun);
      CompletedGrow(store.rows, begun.rows);
      RunAttemptsKeeps(begun, i, seen, 0, saves - 1);
      ProgressTransitive(store, begun, RunJob(store, i, seen, saves).store);
    }
  }

  lemma EnqueueKeeps(store: Store, job: Job)
    requires Inv(store)
    ensures Inv(Enqueue(store, job)) && Progress(store, Enqueue(store, job))
  {
    CompletedGrow(store.rows, Enqueue(store, job).rows);
  }

  lemma ResumeKeeps(store: Store, ready: nat -> bool)
    requires Inv(store)
    ensures Inv(Resume(store, ready)) && Progress(store, Resume(store, ready))
  {
    CompletedGrow(store.rows, Resume(store, ready).rows);
  }

  // ----- any interleaving under the lease

  /** A single step on the state file; a crash during a run is a run that did not outlive it. */
  datatype Step =
    | EnqueueStep(job: Job)
    | RunStep(seen: nat -> Observed, saves: nat)
    | ResumeStep(ready: nat -> bool)

  function Apply(store: Store, step: Step): Store {
    match step
    case EnqueueStep(job) => Enqueue(store, job)
    case ResumeStep(ready) => Resume(store, ready)
    case RunStep(seen, saves) =>
      var next := FirstRunnable(store.rows, 0);
      if next.None? then store else RunJob(store, next.value, seen, saves).store
  }

  function ApplyAll(store: Store, steps: seq<Step>): Store {
    if steps == [] then store else Apply(ApplyAll(store, steps[..|steps| - 1]), steps[|steps| - 1])
  }

  lemma ApplyKeeps(store: Store, step: Step)
    requires Inv(store)
    ensures Inv(Apply(store, step)) && Progress(store, Apply(store, step))
  {
    match step
    case EnqueueStep(job) => EnqueueKeeps(store, job);
    case ResumeStep(ready) => ResumeKeeps(store, ready);
    case RunStep(seen, saves) =>
      var next := FirstRunnable(store.rows, 0);
      if next.Some? { RunJobKeeps(store, next.value, seen, saves); }
  }

  /** Crash-safe execution: over any interleaving of enqueue, run, crash and resume, no
      attempt list is begun twice, and the completed jobs are closed under dependencies. */
  lemma {:induction false} AnyInterleavingIsSafe(steps: seq<Step>)
    ensures Inv(ApplyAll(Store([], []), steps))
  {
    if steps != [] {
      AnyInterleavingIsSafe(steps[..|steps| - 1]);
      ApplyKeeps(ApplyAll(Store([], []), steps[..|steps| - 1]), steps[|steps| - 1]);
    }
  }

  /** Between any two points of a run nothing returns to the queue, nothing completed is
      lost, and no row disappears. */
  lemma {:induction false} AnyInterleavingProgresses(steps: seq<Step>, n: nat)
    requires n <= |steps|
    ensures Progress(ApplyAll(Store([], []), steps[..n]), ApplyAll(Store([], []), steps))
    decreases |steps|
  {
    if n == |steps| {
      assert steps[..n] == steps;
    } else {
      var init := steps[..|steps| - 1];
      AnyInterleavingProgresses(init, n);
      AnyInterleavingIsSafe(init);
      ApplyKeeps(ApplyAll(Store([], []), init), steps[|steps| - 1]);
      assert init[..n] == steps[..n];
      ProgressTransitive(ApplyAll(Store([], []), steps[..n]), ApplyAll(Store([], []), init),
                         ApplyAll(Store([], []), steps));
    }
  }

  // ----- quiescence

  predicate DependsOnRow(rows: seq<Row>, i: nat, j: nat) {
    i < |rows| && j < |rows| && rows[j].job.id in rows[i].job.dependsOn
  }

  /** A chain of dependencies from its first row to its last. */
  ghost predicate Path(rows: seq<Row>, p: seq<nat>) {
    && p != [] && (forall k :: 0 <= k < |p| ==> p[k] < |rows|)
    && forall k :: 0 <= k < |p| - 1 ==> DependsOnRow(rows, p[k], p[k + 1])
  }

  ghost predicate AllEnqueued(rows: seq<Row>) {
    forall i, d :: 0 <= i < |rows| && d in rows[i].job.dependsOn ==>
      exists j :: 0 <= j < |rows| && rows[j].job.id == d
  }

  /** `rank` strictly drops along dependencies, so they have no cycle. */
  ghost predicate Acyclic(rows: seq<Row>, rank: nat -> nat) {
    forall i: nat, j: nat :: DependsOnRow(rows, i, j) ==> rank(j) < rank(i)
  }

  ghost predicate Quiescent(rows: seq<Row>) { forall i: nat :: !Runnable(rows, i) }

  ghost predicate Stuck(status: Status) { !Waiting(status) && !status.Completed? }

  /** A waiting job that cannot run has a dependency that is not completed. */
  lemma BlockedBy(rows: seq<Row>, i: nat) returns (j: nat)
    requires DistinctIds(rows) && AllEnqueued(rows) && Quiescent(rows) && i < |rows| && Waiting(rows[i].status)
    ensures DependsOnRow(rows, i, j) && !rows[j].status.Completed?
  {
    assert !Runnable(rows, i);
    var k :| 0 <= k < |rows[i].job.dependsOn| && rows[i].job.dependsOn[k] !in CompletedIds(rows);
    var d := rows[i].job.dependsOn[k];
    assert d in rows[i].job.dependsOn;
    j :| 0 <= j < |rows| && rows[j].job.id == d;
    assert rows[j].status.Completed? ==> d in CompletedIds(rows);
  }

  /** When nothing is runnable, every waiting job either depends, through dependencies,
      on a job that is neither waiting nor completed, or stands at the head of
      dependency chains of waiting jobs of every length. */
  lemma {:induction false} StarvationChain(rows: seq<Row>, i: nat, n: nat) returns (p: seq<nat>)
    requires DistinctIds(rows) && AllEnqueued(rows) && Quiescent(rows) && i < |rows| && Waiting(rows[i].status)
    ensures Path(rows, p) && p[0] == i
    ensures Stuck(rows[p[|p| - 1]].status) || |p| == n + 1
    ensures forall k :: 0 <= k < |p| - 1 ==> Waiting(rows[p[k]].status)
    decreases n
  {
    if n == 0 {
      p := [i];
    } else {
      var j := BlockedBy(rows, i);
      if Waiting(rows[j].status) {
        var rest := StarvationChain(rows, j, n - 1);
        p := [i] + rest;
        forall k | 0 <= k < |p| - 1 ensures DependsOnRow(rows, p[k], p[k + 1]) && Waiting(rows[p[k]].status) {
          if k > 0 { assert p[k] == rest[k - 1] && p[k + 1] == rest[k]; }
        }
        assert p[|p| - 1] == rest[|rest| - 1];
      } else {
        p := [i, j];
      }
    }
  }

  lemma {:induction false} RankBoundsPaths(rows: seq<Row>, rank: nat -> nat, p: seq<nat>)
    requires Acyclic(rows, rank) && Path(rows, p)
    ensures |p| <= rank(p[0]) + 1
  {
    if |p| > 1 {
      assert DependsOnRow(rows, p[0], p[1]);
      var rest := p[1..];
      assert forall k :: 0 <= k < |rest| ==> rest[k] == p[k + 1];
      assert Path(rows, rest);
      RankBoundsPaths(rows, rank, rest);
    }
  }

  /** Quiescence: with acyclic dependencies on enqueued jobs only, whenever no job is
      runnable every waiting job reaches a job that is neither waiting nor completed. */
  lemma QuiescentMeansStuck(rows: seq<Row>, rank: nat -> nat, i: nat) returns (p: seq<nat>)
    requires DistinctIds(rows) && AllEnqueued(rows) && Acyclic(rows, rank) && Quiescent(rows)
    requires i < |rows| && Waiting(rows[i].status)
    ensures Path(rows, p) && p[0] == i && Stuck(rows[p[|p| - 1]].status)
  {
    p := StarvationChain(rows, i, rank(i) + 1);
    RankBoundsPaths(rows, rank, p);
  }

  /** Both premises are needed: two jobs that wait for each other, and a job that waits
      for one never enqueued, starve with nothing stuck anywhere. */
  lemma CyclesStarve(a: Row, b: Row)
    requires a.status.Queued? && b.status.Queued? && a.job.id != b.job.id
    requires b.job.id in a.job.dependsOn && a.job.id in b.job.dependsOn
    ensures Quiescent([a, b]) && forall k :: 0 <= k < 2 ==> !Stuck([a, b][k].status)
  {
    var rows := [a, b];
    assert CompletedIds(rows) == {};
    var k :| 0 <= k < |a.job.dependsOn| && a.job.dependsOn[k] == b.job.id;
    var m :| 0 <= m < |b.job.dependsOn| && b.job.dependsOn[m] == a.job.id;
  }

  lemma MissingJobsStarve(a: Row, d: string)
    requires a.status.Queued? && d in a.job.dependsOn && d != a.job.id
    ensures Quiescent([a]) && !Stuck([a][0].status)
  {
    assert CompletedIds([a]) == {};
    var k :| 0 <= k < |a.job.dependsOn| && a.job.dependsOn[k] == d;
  }

  function WaitingCount(rows: seq<Row>): nat {
    if rows == [] then 0
    else WaitingCount(rows[..|rows| - 1]) + (if Waiting(rows[|rows| - 1].status) then 1 else 0)
  }

  lemma {:induction false} CountDrops(before: seq<Row>, after: seq<Row>, i: nat)
    requires i < |before| == |after| && Waiting(before[i].status) && !Waiting(after[i].status)
    requires forall k :: 0 <= k < |before| && k != i ==> after[k] == before[k]
    ensures WaitingCount(after) == WaitingCount(before) - 1
  {
    if i < |before| - 1 {
      CountDrops(before[..|before| - 1], after[..|before| - 1], i);
    } else {
      assert before[..i] == after[..i];
    }
  }
}

/** The controller as it runs: loops over attempts and over the queue. */
module ContinuityController {
  import opened Wrappers
  import opened ContinuityGate
  import opened ContinuityState

  /** How a run of the loop ends.  Idling changes nothing while the lease is held, so the
      polling rounds are left out. */
  datatype LoopEnd = AllSettled(allCompleted: bool) | IdleWithUnfinished | AfterOne | ProcessDied | StillBusy

  /** What the outside answers: in the r-th run of the loop, `seen(r)` by attempt, and how
      many saves the process lives to see. */
  datatype Outside = Outside(seen: nat -> nat -> Observed, saves: nat -> nat)

  /** One round of the loop, if there is a job to run. */
  function Round(file: Store, outside: Outside, r: nat): Outcome {
    var next := FirstRunnable(file.rows, 0);
    if next.None? then Outcome(file, true) else RunJob(file, next.value, outside.seen(r), outside.saves(r))
  }

  /** The file after `r` rounds. */
  function After(start: Store, outside: Outside, r: nat): Store {
    if r == 0 then start else Round(After(start, outside, r - 1), outside, r - 1).store
  }

  /** In a round there is a job to run and the process outlives it. */
  predicate LivesThrough(file: Store, outside: Outside, r: nat) {
    FirstRunnable(file.rows, 0).Some? && Round(file, outside, r).alive
  }

  /** The loop lived through the first `r` rounds. */
  predicate Lives(start: Store, outside: Outside, r: nat) {
    r == 0 || (Lives(start, outside, r - 1) && LivesThrough(After(start, outside, r - 1), outside, r - 1))
  }

  /** In round `r` there is a job to run, and it takes the process down. */
  ghost predicate DiesIn(start: Store, outside: Outside, r: nat) {
    && Lives(start, outside, r) && FirstRunnable(After(start, outside, r).rows, 0).Some?
    && !Round(After(start, outside, r), outside, r).alive
  }

  /** The loop is spinning on a job without attempts. */
  predicate Spins(rows: seq<Row>) {
    var next := FirstRunnable(rows, 0);
    next.Some? && rows[next.value].job.attempts == []
  }

  /** One round keeps the file sound, does nothing if it spins, and otherwise settles one
      waiting job if the process outlives it. */
  lemma RoundKeeps(file: Store, outside: Outside, r: nat) returns (o: Outcome)
    requires Inv(file)
    ensures o == Round(file, outside, r)
    ensures Inv(o.store) && Progress(file, o.store) && |o.store.rows| == |file.rows|
    ensures Spins(file.rows) ==> o == Outcome(file, true)
    ensures LivesThrough(file, outside, r) && !Spins(file.rows) ==>
              WaitingCount(o.store.rows) == WaitingCount(file.rows) - 1
  {
    o := Round(file, outside, r);
    var next := FirstRunnable(file.rows, 0);
    if next.Some? {
      RunJobKeeps(file, next.value, outside.seen(r), outside.saves(r));
      if file.rows[next.value].job.attempts != [] && o.alive { CountDrops(file.rows, o.store.rows, next.value); }
    }
  }

  lemma {:induction false} AfterKeeps(start: Store, outside: Outside, r: nat) returns (file: Store)
    requires Inv(start)
    ensures file == After(start, outside, r) && Inv(file) && Progress(start, file) && |file.rows| == |start.rows|
  {
    file := start;
    if r > 0 {
      var before := AfterKeeps(start, outside, r - 1);
      var o := RoundKeeps(before, outside, r - 1);
      file := o.store;
      ProgressTransitive(start, before, file);
    }
  }

  /** A spinning loop never moves again. */
  lemma {:induction false} SpinsForEver(start: Store, outside: Outside, r: nat, n: nat) returns (file: Store)
    requires Spins(After(start, outside, r).rows) && r <= n
    ensures file == After(start, outside, n) == After(start, outside, r)
    ensures Spins(file.rows) && Round(file, outside, n) == Outcome(file, true)
  {
    file := After(start, outside, r);
    if r < n { file := SpinsForEver(start, outside, r, n - 1); }
  }

  /** The last of `r` rounds, seen from the file before it. */
  lemma LastRound(start: Store, outside: Outside, r: nat, before: Store)
    requires r > 0 && before == After(start, outside, r - 1)
    ensures After(start, outside, r) == Round(before, outside, r - 1).store
    ensures Lives(start, outside, r) ==> Lives(start, outside, r - 1) && LivesThrough(before, outside, r - 1)
  {
  }

  /** The file spins, or as many waiting jobs were settled as there were rounds. */
  ghost predicate SettledSoFar(start: Store, file: Store, r: nat) {
    Spins(file.rows) || WaitingCount(file.rows) + r == WaitingCount(start.rows)
  }

  lemma OneMoreSettled(start: Store, outside: Outside, r: nat, before: Store) returns (o: Outcome)
    requires Inv(before) && SettledSoFar(start, before, r) && LivesThrough(before, outside, r)
    ensures o == Round(before, outside, r) && Inv(o.store) && SettledSoFar(start, o.store, r + 1)
  {
    o := RoundKeeps(before, outside, r);
  }

  lemma SettledNext(start: Store, outside: Outside, r: nat, before: Store, file: Store)
    requires r > 0 && before == After(start, outside, r - 1) && file == After(start, outside, r)
    requires Inv(before) && SettledSoFar(start, before, r - 1) && LivesThrough(before, outside, r - 1)
    ensures Inv(file) && SettledSoFar(start, file, r)
  {
    var o := OneMoreSettled(start, outside, r - 1, before);
    assert file == o.store;
  }

  lemma LivedLast(start: Store, outside: Outside, r: nat)
    requires r > 0 && Lives(start, outside, r)
    ensures Lives(start, outside, r - 1) && LivesThrough(After(start, outside, r - 1), outside, r - 1)
  {
  }

  /** One more round from a file reached alive. */
  lemma AnotherRound(start: Store, outside: Outside, r: nat, file: Store) returns (o: Outcome)
    requires Lives(start, outside, r) && file == After(start, outside, r) && FirstRunnable(file.rows, 0).Some?
    ensures o == Round(file, outside, r) && After(start, outside, r + 1) == o.store
    ensures o.alive ==> Lives(start, outside, r + 1)
    ensures !o.alive ==> DiesIn(start, outside, r)
  {
    o := Round(file, outside, r);
    LastRound(start, outside, r + 1, file);
  }

  /** Until it spins, each round that the process outlives settles one waiting job. */
  lemma {:induction false} RoundsSettleJobs(start: Store, outside: Outside, r: nat) returns (file: Store)
    requires Inv(start) && Lives(start, outside, r)
    ensures file == After(start, outside, r) && Inv(file) && SettledSoFar(start, file, r)
  {
    file := After(start, outside, r);
    if r > 0 {
      LivedLast(start, outside, r);
      var before := RoundsSettleJobs(start, outside, r - 1);
      SettledNext(start, outside, r, before, file);
    }
  }

  lemma {:induction false} PositiveCount(rows: seq<Row>, i: nat)
    requires i < |rows| && Waiting(rows[i].status)
    ensures WaitingCount(rows) >= 1
  {
    if i < |rows| - 1 { PositiveCount(rows[..|rows| - 1], i); }
  }

  ghost predicate Endless(start: Store, outside: Outside) { forall r: nat :: Lives(start, outside, r) }

  ghost predicate GetsToSpin(start: Store, outside: Outside) {
    exists r: nat :: Lives(start, outside, r) && Spins(After(start, outside, r).rows)
  }

  /** Exactly when the loop never ends: it comes to spin on a job without attempts, after at
      most as many rounds as there were waiting jobs. */
  lemma EndlessMeaning(start: Store, outside: Outside)
    requires Inv(start)
    ensures Endless(start, outside) <==> GetsToSpin(start, outside)
    ensures Endless(start, outside) ==> Spins(After(start, outside, WaitingCount(start.rows)).rows)
  {
    var n := WaitingCount(start.rows);
    if Endless(start, outside) {
      assert Lives(start, outside, n) && Lives(start, outside, n + 1);
      LongLifeSpins(start, outside, n);
    }
    if GetsToSpin(start, outside) {
      var r: nat :| Lives(start, outside, r) && Spins(After(start, outside, r).rows);
      forall n: nat ensures Lives(start, outside, n) {
        if n < r { LivedBefore(start, outside, n, r); } else { LivesOn(start, outside, r, n); }
      }
    }
  }

  lemma {:induction false} LivedBefore(start: Store, outside: Outside, n: nat, r: nat)
    requires n <= r && Lives(start, outside, r)
    ensures Lives(start, outside, n)
  {
    if n < r { LivedBefore(start, outside, n, r - 1); }
  }

  /** A spinning loop lives on, and the file is as before. */
  lemma SpinStep(start: Store, outside: Outside, r: nat, file: Store)
    requires Lives(start, outside, r) && file == After(start, outside, r) && Spins(file.rows)
    ensures Lives(start, outside, r + 1) && After(start, outside, r + 1) == file
  {
    assert Round(file, outside, r) == Outcome(file, true);
  }

  lemma {:induction false} LivesOn(start: Store, outside: Outside, r: nat, n: nat)
    requires r <= n && Lives(start, outside, r) && Spins(After(start, outside, r).rows)
    ensures Lives(start, outside, n)
    decreases n - r
  {
    if r < n {
      SpinStep(start, outside, r, After(start, outside, r));
      LivesOn(start, outside, r + 1, n);
    }
  }

  /** A loop that lived as many rounds as there were waiting jobs and still has one to run, spins. */
  lemma LongLifeSpins(start: Store, outside: Outside, r: nat)
    requires Inv(start) && Lives(start, outside, r) && WaitingCount(start.rows) <= r
    requires FirstRunnable(After(start, outside, r).rows, 0).Some?
    ensures Spins(After(start, outside, r).rows)
  {
    var file := RoundsSettleJobs(start, outside, r);
    PositiveCount(file.rows, FirstRunnable(file.rows, 0).value);
  }

  ghost predicate WaitingHaveAttempts(rows: seq<Row>) {
    forall k :: 0 <= k < |rows| && Waiting(rows[k].status) ==> rows[k].job.attempts != []
  }

  /** Jobs that all have attempts keep the loop from spinning. */
  lemma AttemptsPreventSpinning(start: Store, outside: Outside, r: nat)
    requires Inv(start) && WaitingHaveAttempts(start.rows)
    ensures !Spins(After(start, outside, r).rows)
  {
    var file := AfterKeeps(start, outside, r);
    var next := FirstRunnable(file.rows, 0);
    if next.Some? {
      assert Waiting(file.rows[next.value].status);
      assert Waiting(start.rows[next.value].status);
    }
  }

  // ----- when every run succeeds

  /** The walk completes and the process lives to save it: once when it begins, once for each
      failed attempt, and once at the end. */
  ghost predicate Succeeds(job: Job, seen: nat -> Observed, saves: nat) {
    && job.attempts != [] && Walk(job, seen, 0).CompletedAt? && saves >= Walk(job, seen, 0).attempt + 2
  }

  /** If there is a job to run, running it succeeds. */
  ghost predicate RoundSucceeds(file: Store, outside: Outside, r: nat) {
    var next := FirstRunnable(file.rows, 0);
    next.Some? ==> Succeeds(file.rows[next.value].job, outside.seen(r), outside.saves(r))
  }

  /** Every run the loop actually makes succeeds. */
  ghost predicate RunsSucceed(start: Store, outside: Outside) {
    forall r: nat :: RoundSucceeds(After(start, outside, r), outside, r)
  }

  lemma {:induction false} AttemptsSucceed(store: Store, i: nat, seen: nat -> Observed, k: nat, saves: nat)
    requires i < |store.rows| && k < |store.rows[i].job.attempts|
    requires Walk(store.rows[i].job, seen, k).CompletedAt? && saves >= Walk(store.rows[i].job, seen, k).attempt - k + 1
    ensures RunAttempts(store, i, seen, k, saves).alive
    ensures RunAttempts(store, i, seen, k, saves).store.rows[i].status.Completed?
    decreases |store.rows[i].job.attempts| - k
  {
    var job := store.rows[i].job;
    if !Completes(job, job.attempts[k], seen(k)) {
      AttemptsSucceed(WithFailure(store, i, k), i, seen, k + 1, saves - 1);
    }
  }

  lemma JobSucceeds(store: Store, i: nat, seen: nat -> Observed, saves: nat)
    requires i < |store.rows| && Succeeds(store.rows[i].job, seen, saves)
    ensures RunJob(store, i, seen, saves).alive
    ensures RunJob(store, i, seen, saves).store.rows[i].status.Completed?
  {
    AttemptsSucceed(WithStatus(store, i, Running).(begun := store.begun + [i]), i, seen, 0, saves - 1);
  }

  /** Every job is waiting or completed, as in a queue that nothing has gone wrong with. */
  ghost predicate Clean(rows: seq<Row>) {
    forall k :: 0 <= k < |rows| ==> rows[k].status.Completed? || Waiting(rows[k].status)
  }

  lemma CleanRound(file: Store, outside: Outside, r: nat) returns (o: Outcome)
    requires Inv(file) && Clean(file.rows) && RoundSucceeds(file, outside, r)
    ensures o == Round(file, outside, r) && o.alive && Inv(o.store) && Clean(o.store.rows) && !Spins(file.rows)
  {
    o := RoundKeeps(file, outside, r);
    var next := FirstRunnable(file.rows, 0);
    if next.Some? {
      JobSucceeds(file, next.value, outside.seen(r), outside.saves(r));
      RunJobKeeps(file, next.value, outside.seen(r), outside.saves(r));
    }
  }

  lemma CleanStep(start: Store, outside: Outside, r: nat, before: Store) returns (file: Store)
    requires RunsSucceed(start, outside) && before == After(start, outside, r) && Inv(before) && Clean(before.rows)
    ensures file == After(start, outside, r + 1) && Inv(file) && Clean(file.rows)
  {
    assert RoundSucceeds(before, outside, r);
    var o := CleanRound(before, outside, r);
    file := o.store;
    LastRound(start, outside, r + 1, before);
  }

  lemma {:induction false} SuccessKeepsClean(start: Store, outside: Outside, r: nat) returns (file: Store)
    requires Inv(start) && Clean(start.rows) && RunsSucceed(start, outside)
    ensures file == After(start, outside, r) && Inv(file) && Clean(file.rows)
  {
    file := start;
    if r > 0 {
      var before := SuccessKeepsClean(start, outside, r - 1);
      file := CleanStep(start, outside, r - 1, before);
    }
  }

  /** No round spins or kills the process. */
  lemma SuccessGoesOn(start: Store, outside: Outside, r: nat) returns (file: Store)
    requires Inv(start) && Clean(start.rows) && RunsSucceed(start, outside)
    ensures file == After(start, outside, r) && Clean(file.rows) && !Spins(file.rows) && Round(file, outside, r).alive
  {
    file := SuccessKeepsClean(start, outside, r);
    assert RoundSucceeds(file, outside, r);
    var o := CleanRound(file, outside, r);
  }

  ghost predicate Layered(rows: seq<Row>) { exists rank :: Acyclic(rows, rank) }

  /** A queue that nothing has gone wrong with and that nothing can starve. */
  ghost predicate Hopeful(rows: seq<Row>) { Clean(rows) && AllEnqueued(rows) && Layered(rows) }

  lemma SameJobs(before: Store, after: Store)
    requires Progress(before, after) && |after.rows| == |before.rows|
    ensures AllEnqueued(before.rows) ==> AllEnqueued(after.rows)
    ensures Layered(before.rows) ==> Layered(after.rows)
  {
    if AllEnqueued(before.rows) {
      forall i, d | 0 <= i < |after.rows| && d in after.rows[i].job.dependsOn
        ensures exists j :: 0 <= j < |after.rows| && after.rows[j].job.id == d
      {
        assert d in before.rows[i].job.dependsOn;
        var j :| 0 <= j < |before.rows| && before.rows[j].job.id == d;
        assert after.rows[j].job.id == d;
      }
    }
    if rank :| Acyclic(before.rows, rank) {
      assert forall i: nat, j: nat :: DependsOnRow(after.rows, i, j) ==> DependsOnRow(before.rows, i, j);
      assert Acyclic(after.rows, rank);
    }
  }

  /** If every run succeeds, a queue of waiting and completed jobs whose dependencies are
      enqueued and have no cycle is completed when nothing is left to run. */
  lemma SuccessCompletesAll(start: Store, outside: Outside, r: nat)
    requires Inv(start) && Hopeful(start.rows)
    requires RunsSucceed(start, outside) && FirstRunnable(After(start, outside, r).rows, 0).None?
    ensures forall k :: 0 <= k < |After(start, outside, r).rows| ==> After(start, outside, r).rows[k].status.Completed?
  {
    var file := SuccessKeepsClean(start, outside, r);
    file := AfterKeeps(start, outside, r);
    SameJobs(start, file);
    var rank :| Acyclic(file.rows, rank);
    assert Quiescent(file.rows);
    forall k | 0 <= k < |file.rows| ensures file.rows[k].status.Completed? {
      if Waiting(file.rows[k].status) {
        var p := QuiescentMeansStuck(file.rows, rank, k);
      }
    }
  }

  class Controller {
    var rows: seq<Row>
    var begun: seq<nat>

    ghost function File(): Store
      reads this
    {
      Store(rows, begun)
    }

    constructor ()
      ensures File() == Store([], [])
    {
      rows, begun := [], [];
    }

    method EnqueueJob(job: Job) returns (accepted: bool)
      modifies this
      ensures File() == Enqueue(old(File()), job) && accepted == Enqueueable(old(rows), job)
    {
      accepted := Enqueueable(rows, job);
      if accepted {
        rows := rows + [Row(job, Queued, [])];
      }
    }

    method SetStatus(i: nat, status: Status)
      requires i < |rows|
      modifies this
      ensures File() == WithStatus(old(File()), i, status)
    {
      rows := rows[i := rows[i].(status := status)];
    }

    /** Makes the attempts of job `i` in order until one completes or may not be followed. */
    method RunOne(i: nat, seen: nat -> Observed, saves: nat) returns (alive: bool)
      requires i < |rows|
      modifies this
      ensures Outcome(File(), alive) == RunJob(old(File()), i, seen, saves)
    {
      var job := rows[i].job;
      if job.attempts == [] {
        return true;
      }
      var left := saves;
      if left == 0 {
        return false;
      }
      SetStatus(i, Running);
      begun := begun + [i];
      left := left - 1;
      for k := 0 to |job.attempts|
        invariant i < |rows| && rows[i].job == job && k < |job.attempts|
        invariant RunAttempts(File(), i, seen, k, left) == RunJob(old(File()), i, seen, saves)
      {
        if left == 0 {
          return false;
        }
        if Completes(job, job.attempts[k], seen(k)) {
          SetStatus(i, Completed);
          return true;
        }
        rows := rows[i := rows[i].(failures := rows[i].failures + [k])];
        left := left - 1;
        if !MovesOn(job.attempts, k, seen(k).errorClass) {
          if left == 0 {
            return false;
          }
          SetStatus(i, Failed);
          return true;
        }
      }
    }

    method ResumeAll(ready: nat -> bool)
      modifies this
      ensures File() == Resume(old(File()), ready)
    {
      ghost var before := rows;
      for k := 0 to |rows|
        invariant |rows| == |before| && begun == old(begun)
        invariant forall j: nat :: j < k ==> rows[j] == Reconciled(before[j], ready(j))
        invariant forall j :: k <= j < |rows| ==> rows[j] == before[j]
      {
        if ready(k) && !rows[k].status.Completed? {
          rows := rows[k := rows[k].(status := NeedsReview)];
        }
      }
      assert rows == ReconcileRows(before, ready);
    }

    /** One turn of the loop: reload, and run the first runnable job if there is one. */
    method Turn(outside: Outside, once: bool, patience: nat, calls: nat) returns (ran: bool, end: Option<LoopEnd>)
      modifies this
      ensures ran == Runs(old(File()), patience, calls) && end == TurnEnd(old(File()), outside, once, patience, calls)
      ensures File() == if ran then Round(old(File()), outside, calls).store else old(File())
    {
      var next := FirstRunnable(rows, 0);
      if next.None? {
        return false, Some(if AllSettledRows(rows)
          then AllSettled(forall k :: 0 <= k < |rows| ==> rows[k].status.Completed?)
          else IdleWithUnfinished);
      }
      if calls == patience {
        return false, Some(StillBusy);
      }
      var alive := RunOne(next.value, outside.seen(calls), outside.saves(calls));
      return true, if !alive then Some(ProcessDied) else if once then Some(AfterOne) else None;
    }

    /** The loop: turn after turn.  `patience` is when the observer stops watching. */
    method RunRounds(outside: Outside, once: bool, patience: nat) returns (calls: nat, end: LoopEnd)
      modifies this
      ensures calls <= patience && File() == After(old(File()), outside, calls)
      ensures Ended(old(File()), outside, once, patience, calls, end)
    {
      calls := 0;
      ghost var start := File();
      var done: Option<LoopEnd> := None;
      while done.None?
        invariant calls <= patience && Stands(start, outside, once, patience, calls, done, File())
        decreases patience - calls, done.None?
      {
        TurnMeaning(start, outside, once, patience, calls, File());
        var ran;
        ran, done := Turn(outside, once, patience, calls);
        if ran { calls := calls + 1; }
      }
      end := done.value;
    }

    /** The run command: what its way to end means for the queue. */
    method RunLoop(outside: Outside, once: bool, patience: nat) returns (calls: nat, end: LoopEnd)
      requires Inv(File())
      modifies this
      ensures Inv(File()) && Progress(old(File()), File())
      ensures calls <= patience && File() == After(old(File()), outside, calls)
      ensures Ended(old(File()), outside, once, patience, calls, end)
      // with attempts everywhere the loop makes at most one call per waiting job
      ensures WaitingHaveAttempts(old(rows)) ==> calls <= WaitingCount(old(rows))
      // watched for as many calls as there are waiting jobs, it is still busy exactly if it spins
      ensures WatchedThrough(old(rows), once, patience) && !end.ProcessDied? ==> (end.StillBusy? <==> Spins(rows))
      // if every run it makes succeeds, everything ends completed
      ensures WatchedThrough(old(rows), once, patience) && Hopeful(old(rows)) && RunsSucceed(old(File()), outside)
        ==> end == AllSettled(true)
    {
      calls, end := RunRounds(outside, once, patience);
      LoopMeaning(old(File()), outside, once, patience, calls, end);
    }
  }

  /** The loop goes on and is watched for as many calls as there are waiting jobs. */
  predicate WatchedThrough(rows: seq<Row>, once: bool, patience: nat) { !once && patience >= WaitingCount(rows) }

  predicate AllSettledRows(rows: seq<Row>) { forall k :: 0 <= k < |rows| ==> Settled(rows[k].status) }

  /** A turn runs a job if there is one and the observer has not stopped watching. */
  predicate Runs(file: Store, patience: nat, calls: nat) { FirstRunnable(file.rows, 0).Some? && calls != patience }

  /** The end a turn brings, if it does. */
  function TurnEnd(file: Store, outside: Outside, once: bool, patience: nat, calls: nat): Option<LoopEnd> {
    if FirstRunnable(file.rows, 0).None? then
      Some(if AllSettledRows(file.rows)
        then AllSettled(forall k :: 0 <= k < |file.rows| ==> file.rows[k].status.Completed?)
        else IdleWithUnfinished)
    else if calls == patience then Some(StillBusy)
    else if !Round(file, outside, calls).alive then Some(ProcessDied)
    else if once then Some(AfterOne)
    else None
  }

  /** Where the loop stands after so many calls: it lives on, or it came to its end. */
  ghost predicate Stands(start: Store, outside: Outside, once: bool, patience: nat, calls: nat, done: Option<LoopEnd>,
                         file: Store) {
    && file == After(start, outside, calls)
    && match done
       case None => Lives(start, outside, calls) && (once ==> calls == 0)
       case Some(end) => Ended(start, outside, once, patience, calls, end)
  }

  /** What a turn from a file reached alive means for the whole loop. */
  lemma TurnMeaning(start: Store, outside: Outside, once: bool, patience: nat, calls: nat, file: Store)
    requires Stands(start, outside, once, patience, calls, None, file) && calls <= patience
    ensures var ran, end := Runs(file, patience, calls), TurnEnd(file, outside, once, patience, calls);
      && (end.None? ==> ran)
      && if ran then Stands(start, outside, once, patience, calls + 1, end, Round(file, outside, calls).store)
         else Stands(start, outside, once, patience, calls, end, file)
  {
    if Runs(file, patience, calls) { var o := AnotherRound(start, outside, calls, file); }
  }

  /** How the loop comes to its end, round by round. */
  ghost predicate Ended(start: Store, outside: Outside, once: bool, patience: nat, calls: nat, end: LoopEnd) {
    var file := After(start, outside, calls);
    match end
    case AllSettled(all) =>
      && Lives(start, outside, calls) && FirstRunnable(file.rows, 0).None? && AllSettledRows(file.rows)
      && (all <==> forall k :: 0 <= k < |file.rows| ==> file.rows[k].status.Completed?)
    case IdleWithUnfinished =>
      Lives(start, outside, calls) && FirstRunnable(file.rows, 0).None? && !AllSettledRows(file.rows)
    case StillBusy => Lives(start, outside, calls) && FirstRunnable(file.rows, 0).Some? && calls == patience
    case AfterOne => once && calls == 1 && Lives(start, outside, 1)
    case ProcessDied => calls > 0 && DiesIn(start, outside, calls - 1)
  }

  lemma SpinningMeaning(start: Store, outside: Outside, once: bool, patience: nat, calls: nat, end: LoopEnd)
    requires Inv(start) && Ended(start, outside, once, patience, calls, end) && !end.ProcessDied?
    requires WatchedThrough(start.rows, once, patience)
    ensures end.StillBusy? <==> Spins(After(start, outside, calls).rows)
  {
    if end.StillBusy? { LongLifeSpins(start, outside, calls); }
  }

  lemma SuccessMeaning(start: Store, outside: Outside, once: bool, patience: nat, calls: nat, end: LoopEnd)
    requires Inv(start) && Ended(start, outside, once, patience, calls, end)
    requires WatchedThrough(start.rows, once, patience) && Hopeful(start.rows) && RunsSucceed(start, outside)
    ensures end == AllSettled(true)
  {
    var file := SuccessGoesOn(start, outside, calls);
    if end.ProcessDied? {
      var before := SuccessGoesOn(start, outside, calls - 1);
    } else if FirstRunnable(After(start, outside, calls).rows, 0).None? {
      SuccessCompletesAll(start, outside, calls);
    } else if end.StillBusy? {
      LongLifeSpins(start, outside, calls);
    }
  }

  lemma CallsAreBounded(start: Store, outside: Outside, once: bool, patience: nat, calls: nat, end: LoopEnd)
    requires Inv(start) && Ended(start, outside, once, patience, calls, end) && WaitingHaveAttempts(start.rows)
    ensures calls <= WaitingCount(start.rows)
  {
    if calls > 0 {
      if !end.ProcessDied? { LivedLast(start, outside, calls); }
      LastCallSettles(start, outside, calls - 1);
    }
  }

  lemma LastCallSettles(start: Store, outside: Outside, r: nat)
    requires Inv(start) && WaitingHaveAttempts(start.rows) && Lives(start, outside, r)
    requires FirstRunnable(After(start, outside, r).rows, 0).Some?
    ensures r < WaitingCount(start.rows)
  {
    AttemptsPreventSpinning(start, outside, r);
    var file := RoundsSettleJobs(start, outside, r);
    PositiveCount(file.rows, FirstRunnable(file.rows, 0).value);
  }

  /** What the ways to end mean: how many calls were made, what spinning has to do with it,
      and what success leads to. */
  lemma LoopMeaning(start: Store, outside: Outside, once: bool, patience: nat, calls: nat, end: LoopEnd)
    requires Inv(start) && Ended(start, outside, once, patience, calls, end)
    ensures Inv(After(start, outside, calls)) && Progress(start, After(start, outside, calls))
    ensures WaitingHaveAttempts(start.rows) ==> calls <= WaitingCount(start.rows)
    ensures WatchedThrough(start.rows, once, patience) && !end.ProcessDied? ==>
              (end.StillBusy? <==> Spins(After(start, outside, calls).rows))
    ensures WatchedThrough(start.rows, once, patience) && Hopeful(start.rows) && RunsSucceed(start, outside)
      ==> end == AllSettled(true)
  {
    var file := AfterKeeps(start, outside, calls);
    if WaitingHaveAttempts(start.rows) { CallsAreBounded(start, outside, once, patience, calls, end); }
    if WatchedThrough(start.rows, once, patience) {
      if !end.ProcessDied? { SpinningMeaning(start, outside, once, patience, calls, end); }
      if Hopeful(start.rows) && RunsSucceed(start, outside) {
        SuccessMeaning(start, outside, once, patience, calls, end);
      }
    }
  }
}

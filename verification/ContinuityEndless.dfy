/** Which queues the run loop may never finish, told from the queue alone. */
module ContinuityEndless {
  import opened Wrappers
  import opened ContinuityGate
  import opened ContinuityState
  import opened ContinuityController

  /** The job waits, and each of its dependencies is completed or is in turn such a job, at
      most `n` steps down. */
  ghost predicate InReach(rows: seq<Row>, i: nat, n: nat)
    decreases n
  {
    && i < |rows| && Waiting(rows[i].status)
    && forall d :: d in rows[i].job.dependsOn ==> d in CompletedIds(rows) || (n > 0 && SuppliedBy(rows, d, n))
  }

  ghost predicate SuppliedBy(rows: seq<Row>, d: string, n: nat)
    requires n > 0
    decreases n, 0
  {
    exists j: nat :: j < |rows| && rows[j].job.id == d && InReach(rows, j, n - 1)
  }

  /** A job without attempts is in reach, counting down from the number of waiting jobs. */
  ghost predicate HasEmptyJobInReach(rows: seq<Row>) {
    exists i: nat :: InReach(rows, i, WaitingCount(rows)) && rows[i].job.attempts == []
  }

  lemma {:induction false} ReachGrows(rows: seq<Row>, i: nat, n: nat, m: nat)
    requires InReach(rows, i, n) && n <= m
    ensures InReach(rows, i, m)
    decreases n
  {
    forall d | d in rows[i].job.dependsOn && d !in CompletedIds(rows) ensures m > 0 && SuppliedBy(rows, d, m) {
      var j: nat :| j < |rows| && rows[j].job.id == d && InReach(rows, j, n - 1);
      ReachGrows(rows, j, n - 1, m - 1);
    }
  }

  // ----- what a run comes to was in reach from the start

  /** Whatever ran before round `r` was in reach. */
  ghost predicate ReachedBy(start: seq<Row>, now: seq<Row>, r: nat) {
    && |now| == |start|
    && (forall k :: 0 <= k < |now| ==> now[k].job == start[k].job)
    && (forall k :: 0 <= k < |now| && Waiting(now[k].status) ==> Waiting(start[k].status))
    && forall k: nat :: k < |now| && now[k].status.Completed? && !start[k].status.Completed? ==>
      r > 0 && InReach(start, k, r - 1)
  }

  lemma RunnableIsInReach(start: seq<Row>, now: seq<Row>, r: nat, i: nat)
    requires ReachedBy(start, now, r) && Runnable(now, i)
    ensures InReach(start, i, r)
  {
    forall d | d in start[i].job.dependsOn && d !in CompletedIds(start) ensures r > 0 && SuppliedBy(start, d, r) {
      var m :| 0 <= m < |now[i].job.dependsOn| && now[i].job.dependsOn[m] == d;
      assert d in CompletedIds(now);
      var k: nat :| k < |now| && now[k].status.Completed? && now[k].job.id == d;
      assert !start[k].status.Completed?;
    }
  }

  lemma RoundStaysInReach(start: seq<Row>, file: Store, outside: Outside, r: nat)
    requires Inv(file) && ReachedBy(start, file.rows, r)
    ensures Inv(Round(file, outside, r).store) && ReachedBy(start, Round(file, outside, r).store.rows, r + 1)
  {
    var o := RoundKeeps(file, outside, r);
    var next := FirstRunnable(file.rows, 0);
    forall k: nat | k < |o.store.rows| && o.store.rows[k].status.Completed? && !start[k].status.Completed?
      ensures InReach(start, k, r)
    {
      if file.rows[k].status.Completed? {
        ReachGrows(start, k, r - 1, r);
      } else {
        RunJobKeeps(file, next.value, outside.seen(r), outside.saves(r));
        RunnableIsInReach(start, file.rows, r, k);
      }
    }
  }

  lemma {:induction false} AllInReach(start: Store, outside: Outside, r: nat) returns (file: Store)
    requires Inv(start)
    ensures file == After(start, outside, r) && Inv(file) && ReachedBy(start.rows, file.rows, r)
  {
    file := start;
    if r > 0 {
      var before := AllInReach(start, outside, r - 1);
      RoundStaysInReach(start.rows, before, outside, r - 1);
      file := Round(before, outside, r - 1).store;
    }
  }

  // ----- a run in which nothing goes wrong comes to whatever is in reach

  /** Every process exits cleanly, every validator agrees and no artifact is looked at. */
  ghost const GOOD := Observed(0, false, Ran(true, 0), [], [], Execution)

  ghost const SMOOTH := Outside((r: nat) => (k: nat) => GOOD, (r: nat) => 2)

  /** Nothing happened to a row, or it has attempts and is completed. */
  ghost predicate Smooth(start: seq<Row>, now: seq<Row>) {
    && |now| == |start|
    && forall k :: 0 <= k < |now| ==>
      now[k] == start[k] || (now[k].job == start[k].job && now[k].job.attempts != [] && now[k].status.Completed?)
  }

  lemma SmoothRun(job: Job)
    requires job.attempts != []
    ensures Succeeds(job, SMOOTH.seen(0), 2)
  {
    assert Completes(job, job.attempts[0], GOOD);
  }

  lemma SmoothRound(start: seq<Row>, file: Store, r: nat)
    requires Inv(file) && Smooth(start, file.rows)
    ensures var o := Round(file, SMOOTH, r); o.alive && Inv(o.store) && Smooth(start, o.store.rows)
  {
    var o := RoundKeeps(file, SMOOTH, r);
    var next := FirstRunnable(file.rows, 0);
    if next.Some? && file.rows[next.value].job.attempts != [] {
      SmoothRun(file.rows[next.value].job);
      JobSucceeds(file, next.value, SMOOTH.seen(r), SMOOTH.saves(r));
      RunJobKeeps(file, next.value, SMOOTH.seen(r), SMOOTH.saves(r));
    }
  }

  lemma {:induction false} SmoothAlways(start: Store, r: nat) returns (file: Store)
    requires Inv(start)
    ensures file == After(start, SMOOTH, r) && Inv(file) && Smooth(start.rows, file.rows)
    ensures Round(file, SMOOTH, r).alive
  {
    file := start;
    if r > 0 {
      var before := SmoothAlways(start, r - 1);
      SmoothRound(start.rows, before, r - 1);
      file := Round(before, SMOOTH, r - 1).store;
    }
    SmoothRound(start.rows, file, r);
  }

  /** Where nothing is runnable, everything that was in reach is completed. */
  lemma {:induction false} ReachIsCompleted(start: seq<Row>, now: seq<Row>, i: nat, n: nat)
    requires Smooth(start, now) && Quiescent(now) && InReach(start, i, n)
    ensures now[i].status.Completed?
    decreases n
  {
    forall m | 0 <= m < |now[i].job.dependsOn| ensures now[i].job.dependsOn[m] in CompletedIds(now) {
      var d := start[i].job.dependsOn[m];
      assert d in start[i].job.dependsOn;
      if d in CompletedIds(start) {
        CompletedGrow(start, now);
      } else {
        var j: nat :| j < |start| && start[j].job.id == d && InReach(start, j, n - 1);
        ReachIsCompleted(start, now, j, n - 1);
        assert now[j].job.id == d;
      }
    }
    assert !Runnable(now, i);
  }

  lemma SmoothGoesOn(start: Store, i: nat, n: nat, r: nat)
    requires Inv(start) && InReach(start.rows, i, n) && start.rows[i].job.attempts == []
    requires Lives(start, SMOOTH, r)
    ensures Lives(start, SMOOTH, r + 1)
  {
    var file := SmoothAlways(start, r);
    if FirstRunnable(file.rows, 0).None? {
      ReachIsCompleted(start.rows, file.rows, i, n);
      assert false;
    }
    var o := AnotherRound(start, SMOOTH, r, file);
  }

  lemma {:induction false} SmoothNeverStops(start: Store, i: nat, n: nat, r: nat)
    requires Inv(start) && InReach(start.rows, i, n) && start.rows[i].job.attempts == []
    ensures Lives(start, SMOOTH, r)
    decreases r
  {
    if r > 0 {
      SmoothNeverStops(start, i, n, r - 1);
      SmoothGoesOn(start, i, n, r - 1);
    }
  }

  // ----- the condition on the queue

  ghost predicate MayNeverEnd(start: Store) { exists outside :: Endless(start, outside) }

  lemma EndlessNeedsReach(start: Store, outside: Outside)
    requires Inv(start) && Endless(start, outside)
    ensures HasEmptyJobInReach(start.rows)
  {
    var n := WaitingCount(start.rows);
    EndlessMeaning(start, outside);
    var file := AllInReach(start, outside, n);
    var next := FirstRunnable(file.rows, 0);
    RunnableIsInReach(start.rows, file.rows, n, next.value);
  }

  /** Exactly which queues the loop may never finish, whatever was queued before and however
      its runs go: those with a waiting job without attempts all of whose dependencies, all
      the way down, are completed or waiting. */
  lemma MayNeverEndMeaning(start: Store)
    requires Inv(start)
    ensures MayNeverEnd(start) <==> HasEmptyJobInReach(start.rows)
  {
    if outside :| Endless(start, outside) {
      EndlessNeedsReach(start, outside);
    }
    if i: nat :| InReach(start.rows, i, WaitingCount(start.rows)) && start.rows[i].job.attempts == [] {
      forall r: nat ensures Lives(start, SMOOTH, r) {
        SmoothNeverStops(start, i, WaitingCount(start.rows), r);
      }
      assert Endless(start, SMOOTH);
    }
  }

  // ----- queues that nothing can starve

  lemma {:induction false} HopefulReach(rows: seq<Row>, rank: nat -> nat, i: nat)
    requires Clean(rows) && AllEnqueued(rows) && Acyclic(rows, rank) && i < |rows| && Waiting(rows[i].status)
    ensures InReach(rows, i, rank(i))
    decreases rank(i)
  {
    forall d | d in rows[i].job.dependsOn && d !in CompletedIds(rows)
      ensures rank(i) > 0 && SuppliedBy(rows, d, rank(i))
    {
      var j: nat :| j < |rows| && rows[j].job.id == d;
      assert !rows[j].status.Completed?;
      assert DependsOnRow(rows, i, j);
      HopefulReach(rows, rank, j);
      ReachGrows(rows, j, rank(j), rank(i) - 1);
    }
  }

  /** In a queue of waiting and completed jobs whose dependencies are enqueued and have no
      cycle, that is any waiting job without attempts. */
  lemma HopefulQueueMeaning(start: Store)
    requires Inv(start) && Hopeful(start.rows)
    ensures MayNeverEnd(start) <==> !WaitingHaveAttempts(start.rows)
  {
    MayNeverEndMeaning(start);
    if !WaitingHaveAttempts(start.rows) {
      var k: nat :| k < |start.rows| && Waiting(start.rows[k].status) && start.rows[k].job.attempts == [];
      var rank :| Acyclic(start.rows, rank);
      HopefulReach(start.rows, rank, k);
      forall r: nat ensures Lives(start, SMOOTH, r) {
        SmoothNeverStops(start, k, rank(k), r);
      }
      assert Endless(start, SMOOTH);
    }
  }
}

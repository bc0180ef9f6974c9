/**
  The loop that drives a segment supervisor: sleep, tick, count, and stop on a terminal
  state, a stop request, a limit, or too many errors in a row.  The supervisor is
  arbitrary: whatever it answers at each turn comes from `Turns`.
 */
module DurableRunLoop {
  import opened Wrappers
  import opened Products

  datatype SupervisorState = Live | Finished | Stopped | Blocked

  /** A tick is logged, succeeds but cannot be logged, or raises. */
  datatype TickAnswer = Ticked(checkpointBlocked: bool) | TickedUnlogged | TickRaised

  /** What the loop meets at each turn, counted by the sleeps taken so far. */
  datatype Turns = Turns(
    state: nat -> SupervisorState,
    stopRequested: nat -> bool,
    elapsed: nat -> real,
    tick: nat -> TickAnswer,
    stopRaises: bool,
    finalState: SupervisorState)

  datatype Limits = Limits(maxTicks: Option<int>, maxRuntime: Option<real>, maxErrors: int)

  datatype Reason =
    | TerminalState(state: SupervisorState) | StopRequested | MaxTicksReached | MaxRuntimeReached
    | CheckpointBlocked | ConsecutiveErrors

  datatype Status = Reported(state: SupervisorState) | Paused

  datatype Report = Report(ok: bool, status: Status, reason: Reason, ticks: nat, errors: nat)

  const WEEK_SECONDS := 604800.0

  predicate Accepted(limits: Limits) {
    && 1 <= limits.maxErrors <= 100
    && (limits.maxTicks.Some? ==> limits.maxTicks.value >= 1)
    && (limits.maxRuntime.Some? ==> 0.0 < limits.maxRuntime.value <= WEEK_SECONDS)
  }

  /** Successful ticks among the first `n`. */
  function Ticks(turns: Turns, n: nat): nat {
    if n == 0 then 0 else Ticks(turns, n - 1) + (if turns.tick(n - 1).TickRaised? then 0 else 1)
  }

  /** Errors since the last tick that was logged. */
  function Errors(turns: Turns, n: nat): nat {
    if n == 0 then 0
    else
      match turns.tick(n - 1)
      case Ticked(_) => 0
      case TickedUnlogged => 1
      case TickRaised => Errors(turns, n - 1) + 1
  }

  /** Why the loop does not sleep an n+1st time, if it does not. */
  function Gate(turns: Turns, limits: Limits, n: nat): Option<Reason> {
    if turns.state(n) != Live then Some(TerminalState(turns.state(n)))
    else if turns.stopRequested(n) then Some(StopRequested)
    else if limits.maxTicks.Some? && Ticks(turns, n) >= limits.maxTicks.value then Some(MaxTicksReached)
    else if limits.maxRuntime.Some? && turns.elapsed(n) >= limits.maxRuntime.value then Some(MaxRuntimeReached)
    else None
  }

  /** Why the loop ends right after its nth tick, if it does. */
  function Verdict(turns: Turns, limits: Limits, n: nat): Option<Reason>
    requires n > 0
  {
    if turns.tick(n - 1) == Ticked(true) then Some(CheckpointBlocked)
    else if !turns.tick(n - 1).Ticked? && Errors(turns, n) >= limits.maxErrors then Some(ConsecutiveErrors)
    else None
  }

  function EndsAt(turns: Turns, limits: Limits, n: nat): Option<Reason> {
    var verdict := if n > 0 then Verdict(turns, limits, n) else None;
    if verdict.Some? then verdict else Gate(turns, limits, n)
  }

  ghost predicate GoesOn(turns: Turns, limits: Limits, n: nat) {
    forall k :: 0 <= k < n ==> EndsAt(turns, limits, k) == None
  }

  predicate StopAttempted(reason: Reason) { reason.StopRequested? || reason.MaxRuntimeReached? }

  function MakeReport(turns: Turns, n: nat, reason: Reason): Report {
    var errors := Errors(turns, n) + (if StopAttempted(reason) && turns.stopRaises then 1 else 0);
    var status :=
      if reason.ConsecutiveErrors? && turns.finalState != Finished && turns.finalState != Stopped then Reported(Blocked)
      else if reason.MaxTicksReached? && turns.finalState == Live then Paused
      else Reported(turns.finalState);
    Report(status == Reported(Finished) && errors == 0, status, reason, Ticks(turns, n), errors)
  }

  /** Runs for at most `patience` sleeps; `None` means it would still be running.  It
      ends at the first turn that gives a reason, and reports on exactly that turn. */
  method RunLoop(turns: Turns, limits: Limits, patience: nat) returns (report: Option<Report>, sleeps: nat)
    requires Accepted(limits)
    ensures sleeps <= patience && GoesOn(turns, limits, sleeps)
    ensures report.None? ==> sleeps == patience && EndsAt(turns, limits, sleeps) == None
    ensures report.Some? ==> EndsAt(turns, limits, sleeps).Some? &&
                             report.value == MakeReport(turns, sleeps, EndsAt(turns, limits, sleeps).value)
  {
    sleeps := 0;
    var ticks, errors := 0, 0;
    var reason: Option<Reason> := None;
    while true
      invariant sleeps <= patience && GoesOn(turns, limits, sleeps)
      invariant ticks == Ticks(turns, sleeps) && errors == Errors(turns, sleeps)
      invariant sleeps > 0 ==> Verdict(turns, limits, sleeps) == None
      decreases patience - sleeps
    {
      var state := turns.state(sleeps);
      if state != Live {
        reason := Some(TerminalState(state));
        break;
      }
      if turns.stopRequested(sleeps) {
        reason := Some(StopRequested);
        break;
      }
      if limits.maxTicks.Some? && ticks >= limits.maxTicks.value {
        reason := Some(MaxTicksReached);
        break;
      }
      if limits.maxRuntime.Some? && turns.elapsed(sleeps) >= limits.maxRuntime.value {
        reason := Some(MaxRuntimeReached);
        break;
      }
      if sleeps == patience {
        return None, sleeps;
      }
      var answer := turns.tick(sleeps);
      sleeps := sleeps + 1;
      match answer {
        case Ticked(blocked) =>
          ticks, errors := ticks + 1, 0;
          if blocked {
            reason := Some(CheckpointBlocked);
            break;
          }
        case TickedUnlogged =>
          ticks, errors := ticks + 1, 1;
          if errors >= limits.maxErrors {
            reason := Some(ConsecutiveErrors);
            break;
          }
        case TickRaised =>
          errors := errors + 1;
          if errors >= limits.maxErrors {
            reason := Some(ConsecutiveErrors);
            break;
          }
      }
    }
    if StopAttempted(reason.value) && turns.stopRaises {
      errors := errors + 1;
    }
    var final := turns.finalState;
    var status :=
      if reason.value.ConsecutiveErrors? && final != Finished && final != Stopped then Reported(Blocked)
      else if reason.value.MaxTicksReached? && final == Live then Paused
      else Reported(final);
    report := Some(Report(status == Reported(Finished) && errors == 0, status, reason.value, ticks, errors));
  }

  /** Each turn uses up part of the budget of M ticks with E errors between them. */
  lemma {:induction false} BudgetSpent(turns: Turns, limits: Limits, n: nat)
    requires Accepted(limits) && limits.maxTicks.Some? && GoesOn(turns, limits, n) && n > 0
    ensures var m, e := limits.maxTicks.value, limits.maxErrors;
      && Ticks(turns, n - 1) < m && Errors(turns, n - 1) < e
      && n - 1 <= Ticks(turns, n - 1) * e + Errors(turns, n - 1)
  {
    assert EndsAt(turns, limits, n - 1) == None;
    if n > 1 {
      BudgetSpent(turns, limits, n - 1);
      assert EndsAt(turns, limits, n - 2) == None;
      ProductStep(Ticks(turns, n - 2), limits.maxErrors);
    }
  }

  /** With a tick limit M and an error limit E the loop sleeps at most M times E times. */
  lemma LoopBound(turns: Turns, limits: Limits, n: nat)
    requires Accepted(limits) && limits.maxTicks.Some? && GoesOn(turns, limits, n)
    ensures n <= limits.maxTicks.value * limits.maxErrors
  {
    if n > 0 {
      BudgetSpent(turns, limits, n);
      Scale(Ticks(turns, n - 1), limits.maxTicks.value, limits.maxErrors);
    }
  }

  lemma Scale(t: nat, m: int, e: int)
    requires t < m && e >= 1
    ensures t * e + e <= m * e
  {
    ProductStep(t, e);
    ProductGrows(t + 1, m, e);
  }

  /** Position within a round of `e` turns, and the rounds completed, after `n` turns. */
  function Phase(e: nat, n: nat): (p: nat)
    requires e >= 1
    ensures p < e
  {
    if n == 0 || Phase(e, n - 1) == e - 1 then 0 else Phase(e, n - 1) + 1
  }

  function Rounds(e: nat, n: nat): nat
    requires e >= 1
  {
    if n == 0 then 0 else Rounds(e, n - 1) + (if Phase(e, n - 1) == e - 1 then 1 else 0)
  }

  /** A supervisor that raises e-1 times before every good tick. */
  function Faulty(e: nat): Turns
    requires e >= 1
  {
    Turns(n => Live, n => false, n => 0.0, (n: nat) => if Phase(e, n) == e - 1 then Ticked(false) else TickRaised,
          false, Live)
  }

  lemma {:induction false} FaultyCounts(e: nat, n: nat)
    requires e >= 1
    ensures Ticks(Faulty(e), n) == Rounds(e, n) && Errors(Faulty(e), n) == Phase(e, n)
    ensures n == Rounds(e, n) * e + Phase(e, n)
  {
    if n > 0 {
      FaultyCounts(e, n - 1);
      ProductStep(Rounds(e, n - 1), e);
    }
  }

  lemma RoundsAtLeast(rounds: nat, phase: nat, m: nat, e: nat)
    requires rounds >= m
    ensures rounds * e + phase >= m * e
  {
    ProductGrows(m, rounds, e);
  }

  lemma FaultyGoesOn(m: nat, e: nat, n: nat)
    requires m >= 1 && 1 <= e <= 100 && n < m * e
    ensures EndsAt(Faulty(e), Limits(Some(m), None, e), n) == None
  {
    FaultyCounts(e, n);
    if Rounds(e, n) >= m { RoundsAtLeast(Rounds(e, n), Phase(e, n), m, e); }
  }

  /** The bound is reached: a supervisor that fails just often enough makes the loop
      sleep M times E times. */
  lemma LoopBoundIsTight(m: nat, e: nat)
    requires m >= 1 && 1 <= e <= 100
    ensures GoesOn(Faulty(e), Limits(Some(m), None, e), m * e)
  {
    var turns, limits := Faulty(e), Limits(Some(m), None, e);
    forall n: nat | n < m * e ensures EndsAt(turns, limits, n) == None {
      FaultyGoesOn(m, e, n);
    }
  }

  /** The loop reports success only for a supervisor that ended finished, whose last tick
      was logged without error, and whose stop, if one was attempted, did not raise. */
  lemma OkMeansFinished(turns: Turns, limits: Limits, n: nat)
    requires Accepted(limits) && GoesOn(turns, limits, n) && EndsAt(turns, limits, n).Some?
    ensures var reason := EndsAt(turns, limits, n).value;
      MakeReport(turns, n, reason).ok <==>
        && turns.finalState == Finished
        && (n > 0 ==> turns.tick(n - 1).Ticked?)
        && !(StopAttempted(reason) && turns.stopRaises)
  {
    if n > 0 { assert Errors(turns, n) == 0 <==> turns.tick(n - 1).Ticked?; }
  }
}

/** The supervisor as it is: an object whose methods update its fields and rewrite files. */
module DurableController {
  import opened Wrappers
  import opened SegmentHistory
  import opened IntSets
  import opened SupervisorSpec
  import opened SupervisorSafety

  class Supervisor {
    const cfg: Config
    const timely: bool
    const env: nat -> Reply
    var step: nat
    var clock: int
    // files in the run root
    var intents: map<int, Intent>
    var receipts: map<int, Receipt>
    // process memory
    var alive: bool
    var identity: string
    var active: Option<Segment>
    var nextSequence: int
    var submissions: map<int, Receipt>
    var pendingAck: map<int, Remote>
    var state: State
    var lastObserved: Option<int>
    // everything stored, submitted, opened and closed so far
    var history: seq<Event>

    ghost function Rules(): Context { Context(cfg, timely, env) }

    ghost function Now(): World
      reads this
    {
      World(step, clock, intents, receipts, alive, identity, active, nextSequence, submissions, pendingAck, state,
            lastObserved, history)
    }

    constructor (cfg: Config, timely: bool, now: int, env: nat -> Reply)
      ensures this.cfg == cfg && this.timely == timely && this.env == env
      ensures Now() == World(0, now, map[], map[], false, "", None, 1, map[], map[], Created, None, [])
      ensures Inv(Rules(), Now())
    {
      this.cfg, this.timely, this.env, clock := cfg, timely, env, now;
      step, history, intents, receipts := 0, [], map[], map[];
      alive, identity, active, nextSequence := false, "", None, 1;
      submissions, pendingAck, state, lastObserved := map[], map[], Created, None;
    }

    method Interact() returns (reply: Reply)
      modifies this
      ensures Now() == Interacted(Rules(), old(Now())) && reply == env(old(step))
    {
      reply := env(step);
      step := step + 1;
      clock := Advance(timely, clock, reply.elapsed);
      alive := !reply.fate.Crashed?;
    }

    method StoreIntent(s: int, intent: Intent) returns (exit: Exit)
      modifies this
      ensures Call(Now(), exit, ()) == WriteIntent(Rules(), old(Now()), s, intent)
    {
      if !cfg.runRoot {
        return Returned;
      }
      var reply := Interact();
      if TookEffect(reply.fate) {
        intents := intents[s := intent];
        history := history + [IntentStored(s, intent.status)];
      }
      exit := ExitOf(reply.fate);
    }

    method StoreReceipt(s: int, receipt: Receipt) returns (exit: Exit)
      modifies this
      ensures Call(Now(), exit, ()) == WriteReceipt(Rules(), old(Now()), s, receipt)
    {
      if !cfg.runRoot {
        return Returned;
      }
      var reply := Interact();
      if TookEffect(reply.fate) {
        receipts := receipts[s := receipt];
        history := history + [ReceiptStored(s)];
      }
      exit := ExitOf(reply.fate);
    }

    method PersistReceipt(s: int, receipt: Receipt) returns (exit: Exit)
      modifies this
      ensures Call(Now(), exit, ()) == Persist(Rules(), old(Now()), s, receipt)
    {
      submissions := submissions[s := receipt];
      nextSequence := Max(nextSequence, s + 1);
      exit := StoreReceipt(s, receipt);
      if exit.Returned? {
        exit := StoreIntent(s, Intent(IntentStatus.Submitted, receipt.digest));
      }
    }

    method OpenSegment() returns (exit: Exit)
      modifies this
      ensures Call(Now(), exit, ()) == Open(Rules(), old(Now()))
    {
      if active.Some? {
        return Returned;
      }
      var started := clock;
      var reply := Interact();
      if !reply.fate.Answered? {
        return ExitOf(reply.fate);
      }
      var segment := Segment(
        if reply.sequence.Some? then reply.sequence.value else nextSequence,
        if reply.startedAt.Some? then reply.startedAt.value else started,
        started);
      active, nextSequence, state := Some(segment), nextSequence + 1, Active;
      history := history + [Opened(segment)];
      exit := Returned;
    }

    method StatusForPending(s: int) returns (exit: Exit, remote: Remote)
      modifies this
      ensures Call(Now(), exit, remote) == PendingStatus(Rules(), old(Now()), s)
    {
      if s in pendingAck {
        return Returned, pendingAck[s];
      }
      if !cfg.hasStatus {
        return Returned, Remote(None, None);
      }
      var reply := Interact();
      return ExitOf(reply.fate), reply.remote;
    }

    method RecoverIntent(s: int, digest: Digest) returns (exit: Exit, result: Submission)
      modifies this
      ensures Call(Now(), exit, result) == Recover(Rules(), old(Now()), s, digest)
    {
      result := NotReached;
      var remote;
      exit, remote := StatusForPending(s);
      if !exit.Returned? {
        return;
      }
      if !Confirmed(remote) {
        return Returned, AwaitingReconcile;
      }
      var receipt := MakeReceipt(remote, digest);
      if receipt.None? {
        return Failing, NotReached;
      }
      exit := PersistReceipt(s, receipt.value);
      result := Reconciled;
    }

    method CallScheduler(s: int) returns (reply: Reply)
      modifies this
      ensures Now() == CallSubmit(Rules(), old(Now()), s) && reply == env(old(step))
    {
      reply := Interact();
      if reply.fate != Crashed(false) {
        history := history + [SubmitCalled(s)];
      }
    }

    method RecordAnswer(s: int, digest: Digest, remote: Remote, simulateAckLoss: bool)
      returns (exit: Exit, result: Submission)
      modifies this
      ensures Call(Now(), exit, result) == Acknowledge(Rules(), old(Now()), s, digest, remote, simulateAckLoss)
    {
      if simulateAckLoss {
        pendingAck := pendingAck[s := remote];
        exit := StoreIntent(s, Intent(AckLost, digest));
        return exit, AckWasLost;
      }
      var receipt := MakeReceipt(remote, digest);
      if receipt.None? {
        return Failing, NotReached;
      }
      exit := PersistReceipt(s, receipt.value);
      result := Accepting;
    }

    method CallAndRecordAnswer(s: int, digest: Digest, simulateAckLoss: bool) returns (exit: Exit, result: Submission)
      modifies this
      ensures Call(Now(), exit, result) == CallAndRecord(Rules(), old(Now()), s, digest, simulateAckLoss)
    {
      var reply := CallScheduler(s);
      if reply.fate.Crashed? {
        return Died, NotReached;
      }
      if reply.fate.Raised? {
        return Returned, SubmitUnknown;
      }
      exit, result := RecordAnswer(s, digest, reply.remote, simulateAckLoss);
    }

    method SubmitNew(s: int, digest: Digest, simulateAckLoss: bool) returns (exit: Exit, result: Submission)
      modifies this
      ensures Call(Now(), exit, result) == SubmitFresh(Rules(), old(Now()), s, digest, simulateAckLoss)
    {
      exit := StoreIntent(s, Intent(Submitting, digest));
      if !exit.Returned? {
        return exit, NotReached;
      }
      if !cfg.hasSubmit {
        return Returned, NoSubmitMethod;
      }
      exit, result := CallAndRecordAnswer(s, digest, simulateAckLoss);
    }

    method SubmitCurrent(execute: bool, simulateAckLoss: bool) returns (exit: Exit, result: Submission)
      requires active.Some?
      modifies this
      ensures Call(Now(), exit, result) == SubmitActive(Rules(), old(Now()), execute, simulateAckLoss)
    {
      var s := active.value.sequence;
      var digest := Digest(identity, s);
      if s !in submissions && s in receipts {
        submissions := submissions[s := receipts[s]];
      }
      if s in submissions {
        if submissions[s].digest != digest {
          return Failing, NotReached;
        }
        return Returned, Reused;
      }
      if s in intents {
        if intents[s].digest != digest {
          return Failing, NotReached;
        }
        if !intents[s].status.Submitted? {
          exit, result := RecoverIntent(s, digest);
          return;
        }
      }
      if !execute {
        return Returned, Planned;
      }
      exit, result := SubmitNew(s, digest, simulateAckLoss);
    }

    method SubmitSegment(execute: bool, simulateAckLoss: bool) returns (exit: Exit, result: Submission)
      modifies this
      ensures Call(Now(), exit, result) == Submit(Rules(), old(Now()), execute, simulateAckLoss)
    {
      exit := OpenSegment();
      if !exit.Returned? {
        return exit, NotReached;
      }
      exit, result := SubmitCurrent(execute, simulateAckLoss);
    }

    method ReconcileSubmission(s: int) returns (exit: Exit)
      requires s in submissions
      modifies this
      ensures Call(Now(), exit, ()) == ReconcileOne(Rules(), old(Now()), s)
    {
      if Terminal(submissions[s].status) || !cfg.hasStatus {
        return Returned;
      }
      var reply := Interact();
      if !reply.fate.Answered? {
        return ExitOf(reply.fate);
      }
      if reply.remote.status.None? || !Terminal(reply.remote.status.value) {
        return Returned;
      }
      var receipt := MakeReceipt(reply.remote, Digest(identity, s));
      if receipt.None? {
        return Failing;
      }
      exit := PersistReceipt(s, receipt.value);
    }

    /** The next open receipt in ascending order of segment. */
    method ReconcileNext(todo: set<int>) returns (exit: Exit, rest: set<int>)
      requires todo <= submissions.Keys && exists s :: s in todo
      modifies this
      ensures exit.Returned? ==> rest < todo && rest <= submissions.Keys
      ensures exit.Returned? ==>
        ReconcileThrough(Rules(), Now(), rest) == ReconcileThrough(Rules(), old(Now()), todo)
      ensures !exit.Returned? ==> Call(Now(), exit, ()) == ReconcileThrough(Rules(), old(Now()), todo)
    {
      var s := Least(todo);
      ReconcileThroughStep(Rules(), Now(), todo, s);
      exit := ReconcileSubmission(s);
      rest := todo - {s};
    }

    /** Receipts in ascending order of segment, then the run controller's own reconciliation. */
    method ReconcileAll() returns (exit: Exit)
      modifies this
      ensures Call(Now(), exit, ()) == Reconcile(Rules(), old(Now()))
    {
      var todo := submissions.Keys;
      while exists s :: s in todo
        invariant todo <= submissions.Keys
        invariant ReconcileThrough(Rules(), Now(), todo) ==
                  ReconcileThrough(Rules(), old(Now()), old(submissions).Keys)
        decreases todo
      {
        exit, todo := ReconcileNext(todo);
        if !exit.Returned? {
          return;
        }
      }
      var reply := Interact();
      exit := ExitOf(reply.fate);
    }

    method Flush() returns (exit: Exit, flushed: bool)
      modifies this
      ensures Call(Now(), exit, flushed) == Checkpoint(Rules(), old(Now()))
    {
      var reply := Interact();
      if reply.fate.Answered? && reply.flushed && active.Some? {
        history := history + [Flushed(active.value.sequence)];
      }
      return ExitOf(reply.fate), reply.flushed;
    }

    method FinishSegment() returns (exit: Exit)
      modifies this
      ensures Call(Now(), exit, ()) == Finish(Rules(), old(Now()))
    {
      if active.None? {
        return Returned;
      }
      var reply := Interact();
      if reply.fate.Answered? {
        history := history + [Closed(active.value.sequence)];
        active := None;
      }
      exit := ExitOf(reply.fate);
    }

    method CloseSegment() returns (exit: Exit, flushed: bool)
      modifies this
      ensures Call(Now(), exit, flushed) == CloseActive(Rules(), old(Now()))
    {
      exit, flushed := Flush();
      if exit.Returned? && flushed {
        exit := FinishSegment();
      }
    }

    method Roll() returns (exit: Exit, report: TickReport)
      modifies this
      ensures Call(Now(), exit, report) == CheckpointAndRoll(Rules(), old(Now()))
    {
      var was := active;
      var flushed;
      exit, flushed := CloseSegment();
      if !exit.Returned? {
        return exit, Interrupted;
      }
      if !flushed {
        state := Blocked;
        return Returned, CheckpointBlocked;
      }
      var now := if lastObserved.Some? then lastObserved.value else clock;
      if !ClearOfEnd(cfg, now) {
        state := Finished;
        return Returned, AtPlannedEnd;
      }
      if was.Some? {
        history := history + [Rolling(now)];
      }
      var result;
      exit, result := SubmitSegment(cfg.execute, false);
      report := if exit.Returned? then RolledOver else Interrupted;
    }

    method Begin() returns (exit: Exit)
      modifies this
      ensures Call(Now(), exit, ()) == Start(Rules(), old(Now()))
    {
      if Ended(state) {
        return Returned;
      }
      var result;
      exit, result := SubmitSegment(cfg.execute, false);
    }

    method Look(now: int) returns (exit: Exit)
      modifies this
      ensures Call(Now(), exit, ()) == Observe(Rules(), old(Now()), now)
    {
      history := history + [Ticked(now)];
      lastObserved := Some(now);
      var reply := Interact();
      if !reply.fate.Answered? {
        return ExitOf(reply.fate);
      }
      exit := ReconcileAll();
    }

    method MonitorActive(now: int) returns (exit: Exit, report: TickReport)
      requires active.Some?
      modifies this
      ensures Call(Now(), exit, report) == TickActive(Rules(), old(Now()), now)
    {
      var due, deadline := Due(now, clock), Deadline(cfg, active.value.startedAt);
      exit := Look(now);
      if !exit.Returned? {
        return exit, Interrupted;
      }
      if deadline - now > cfg.guard {
        return Returned, Continues;
      }
      history := history + [due];
      exit, report := Roll();
    }

    /** One tick, by the time it is given or else by the clock. */
    method Monitor(at: Option<int>) returns (exit: Exit, report: TickReport)
      modifies this
      ensures Call(Now(), exit, report) == Tick(Rules(), old(Now()), at)
    {
      if Ended(state) {
        return Returned, Idle;
      }
      if active.None? {
        exit := Begin();
        if !exit.Returned? || active.None? {
          return exit, Interrupted;
        }
      }
      var now := if at.Some? then at.value else clock;
      exit, report := MonitorActive(now);
    }

    method Halt() returns (exit: Exit)
      modifies this
      ensures Call(Now(), exit, ()) == Stop(Rules(), old(Now()))
    {
      if active.None? {
        state := Stopped;
        return Returned;
      }
      var flushed;
      exit, flushed := CloseSegment();
      if exit.Returned? {
        state := if flushed then Stopped else Blocked;
      }
    }

    /** Carries out one command; a process that has died can only be booted again. */
    method Obey(command: Command)
      requires Inv(Rules(), Now())
      modifies this
      ensures Inv(Rules(), Now()) && Does(Rules(), old(Now()), command, Now())
    {
      ghost var before := Now();
      match command {
        case Boot(identity, restored) =>
          var _ := Restart(identity, restored);
        case _ =>
          if alive { Act(command); }
      }
      CommandKeeps(Rules(), before, command, Now());
    }

    method Act(command: Command)
      requires alive && !command.Boot?
      modifies this
      ensures Does(Rules(), old(Now()), command, Now())
    {
      match command
      case StartCommand =>
        var _ := Begin();
      case SubmitCommand(execute, simulate) =>
        var _, _ := SubmitSegment(execute, simulate);
      case ReconcileCommand =>
        var _ := ReconcileAll();
      case TickCommand(at) =>
        var _, _ := Monitor(at);
      case RollCommand =>
        var _, _ := Roll();
      case StopCommand =>
        var _ := Halt();
    }

    /** Any commands in any order, across crashes and restarts: with a run root, or without a
        way to submit, no two calls to the scheduler are for the same segment. */
    method Drive(commands: seq<Command>)
      requires Inv(Rules(), Now())
      modifies this
      ensures Inv(Rules(), Now())
      ensures cfg.runRoot || !cfg.hasSubmit ==> NoRepeat(history)
    {
      for k := 0 to |commands|
        invariant Inv(Rules(), Now())
      {
        Obey(commands[k]);
      }
      LawfulSubmitsOnce(cfg, timely, history);
    }

    /** A new process over the same files.  Records of another identity, or records that
        disagree about the job, keep it from starting. */
    method Restart(identity: string, restored: Restored) returns (booted: bool)
      modifies this
      ensures Boots(old(Now()), identity, restored, Now())
      ensures booted == alive
      // a record that is not this supervisor's keeps it from starting
      ensures booted ==> AllOurs(identity, restored.records)
      // and with nothing on disk nothing else does
      ensures old(receipts) == map[] && AllOurs(identity, restored.records) ==> booted
    {
      RecoverableMeansOurs(identity, restored.records, receipts);
      var remembered, found, next := Registered(identity, restored.records), map[], 1;
      booted, found, next := LoadReceipts(identity, remembered, receipts, restored.nextSequence);
      if booted {
        Adopt(identity, restored.resumed, found, next);
      } else {
        alive := false;
      }
    }

    method Adopt(identity: string, resumed: Option<Segment>, found: map<int, Receipt>, next: int)
      modifies this
      ensures Now() == Booted(old(Now()), identity, resumed, found, next)
    {
      Forget(resumed);
      this.identity, submissions, nextSequence := identity, found, next;
      history := history + [Restarted(resumed)];
    }

    method Forget(resumed: Option<Segment>)
      modifies `alive, `active, `state, `pendingAck, `lastObserved
      ensures alive && active == resumed && pendingAck == map[] && lastObserved == None
      ensures state == if resumed.Some? then Active else Created
    {
      alive, active, state := true, resumed, if resumed.Some? then Active else Created;
      pendingAck, lastObserved := map[], None;
    }
  }

  method Least(todo: set<int>) returns (s: int)
    requires exists s :: s in todo
    ensures IsLeast(s, todo)
  {
    LeastExists(todo);
    s :| s in todo && forall t :: t in todo ==> s <= t;
  }

  /** Merges the run controller's receipts with those on disk, which win. */
  method LoadReceipts(identity: string, remembered: map<int, Receipt>, stored: map<int, Receipt>, floor: int)
    returns (agreed: bool, found: map<int, Receipt>, next: int)
    ensures agreed <==> Recoverable(identity, remembered, stored)
    ensures agreed ==> Merged(remembered, stored, found, next)
    ensures floor <= next && 1 <= next
  {
    found, next := map[], Max(1, floor);
    var todo := remembered.Keys + stored.Keys;
    while exists s :: s in todo
      invariant todo <= remembered.Keys + stored.Keys
      invariant forall s :: s in found <==> s >= 1 && (s in remembered || s in stored) && s !in todo
      invariant forall s :: s in found ==> s < next && Agrees(s, identity, remembered, stored) &&
                                           found[s] == if s in stored then stored[s] else remembered[s]
      invariant floor <= next && 1 <= next
      decreases |todo|
    {
      var s :| s in todo;
      if s >= 1 {
        if !Agrees(s, identity, remembered, stored) {
          return false, found, next;
        }
        found := found[s := if s in stored then stored[s] else remembered[s]];
        next := Max(next, s + 1);
      }
      todo := todo - {s};
    }
    forall s | s >= 1 && (s in remembered || s in stored) ensures Agrees(s, identity, remembered, stored) {
      assert s in found;
    }
    agreed := true;
  }
}

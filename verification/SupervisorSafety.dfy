/** What every call on the supervisor keeps, and what follows for whole runs. */
module SupervisorSafety {
  import opened Wrappers
  import opened SegmentHistory
  import opened IntSets
  import opened SupervisorSpec

  // ----- the invariant

  function Statuses(intents: map<int, Intent>): map<int, IntentStatus> {
    map s | s in intents :: intents[s].status
  }

  /** The files say what the history says was stored. */
  ghost predicate FilesMatch(x: Context, w: World) {
    && Statuses(w.intents) == IntentFiles(w.history)
    && w.receipts.Keys == ReceiptFiles(w.history)
    && (!x.cfg.runRoot ==> w.intents == map[] && w.receipts == map[])
  }

  ghost predicate MemoryMatches(w: World) {
    w.alive ==>
      && w.active == Running(w.history)
      && (w.history != [] && w.history[|w.history| - 1].Due? ==>
            w.lastObserved == Some(w.history[|w.history| - 1].now))
  }

  ghost predicate ClockMatches(x: Context, w: World) {
    x.timely ==> ReadBy(w.history, w.clock)
  }

  ghost predicate Inv(x: Context, w: World) {
    Lawful(x.cfg, x.timely, w.history) && FilesMatch(x, w) && MemoryMatches(w) && ClockMatches(x, w)
  }

  /** A call that kept the invariant and told the truth about the process. */
  ghost predicate Kept(x: Context, before: World, after: World, exit: Exit) {
    && Inv(x, after)
    && (after.alive <==> !exit.Died?)
    && (x.timely ==> before.clock <= after.clock)
    && before.history <= after.history
  }

  // ----- submissions

  function Announced(cfg: Config, s: int): seq<Event> {
    if cfg.runRoot then [IntentStored(s, Submitting)] else []
  }

  function Called(cfg: Config, s: int): seq<Event> { Announced(cfg, s) + [SubmitCalled(s)] }

  function Recorded(cfg: Config, s: int): seq<Event> {
    if cfg.runRoot then [ReceiptStored(s), IntentStored(s, Submitted)] else []
  }

  function Unacknowledged(cfg: Config, s: int): seq<Event> {
    if cfg.runRoot then [IntentStored(s, AckLost)] else []
  }

  ghost predicate Added(before: World, after: World, events: seq<Event>) {
    after.history == before.history + events
  }

  lemma InteractedKeeps(x: Context, w: World)
    requires Inv(x, w) && w.alive
    ensures Kept(x, w, Interacted(x, w), ExitOf(x.env(w.step).fate))
  {
    if x.timely { ReadByLater(w.history, w.clock, Interacted(x, w).clock); }
  }

  lemma WriteIntentKeeps(x: Context, w: World, s: int, intent: Intent) returns (r: Call<()>)
    requires Inv(x, w) && w.alive
    requires x.cfg.runRoot ==> Allowed(x.cfg, x.timely, w.history, IntentStored(s, intent.status))
    ensures r == WriteIntent(x, w, s, intent) && Kept(x, w, r.world, r.exit)
    ensures r.exit.Returned? ==> Added(w, r.world, if x.cfg.runRoot then [IntentStored(s, intent.status)] else [])
  {
    r := WriteIntent(x, w, s, intent);
    if x.cfg.runRoot {
      InteractedKeeps(x, w);
      Append(x.cfg, x.timely, w.history, IntentStored(s, intent.status));
      assert Statuses(w.intents[s := intent]) == Statuses(w.intents)[s := intent.status];
    } else {
      assert w.history + [] == w.history;
    }
  }

  lemma WriteReceiptKeeps(x: Context, w: World, s: int, receipt: Receipt) returns (r: Call<()>)
    requires Inv(x, w) && w.alive
    ensures r == WriteReceipt(x, w, s, receipt) && Kept(x, w, r.world, r.exit)
    ensures r.exit.Returned? ==> Added(w, r.world, if x.cfg.runRoot then [ReceiptStored(s)] else [])
  {
    r := WriteReceipt(x, w, s, receipt);
    if x.cfg.runRoot {
      InteractedKeeps(x, w);
      Append(x.cfg, x.timely, w.history, ReceiptStored(s));
      assert w.receipts[s := receipt].Keys == w.receipts.Keys + {s};
    } else {
      assert w.history + [] == w.history;
    }
  }

  lemma PersistKeeps(x: Context, w: World, s: int, receipt: Receipt) returns (r: Call<()>)
    requires Inv(x, w) && w.alive
    ensures r == Persist(x, w, s, receipt) && Kept(x, w, r.world, r.exit)
    ensures r.exit.Returned? ==> Added(w, r.world, Recorded(x.cfg, s))
  {
    var noted := w.(submissions := w.submissions[s := receipt], nextSequence := Max(w.nextSequence, s + 1));
    assert Inv(x, noted);
    r := WriteReceiptKeeps(x, noted, s, receipt);
    if r.exit.Returned? {
      r := WriteIntentKeeps(x, r.world, s, Intent(Submitted, receipt.digest));
      if x.cfg.runRoot {
        assert w.history + [ReceiptStored(s)] + [IntentStored(s, Submitted)] == w.history + Recorded(x.cfg, s);
      }
    }
  }

  lemma OpenKeeps(x: Context, w: World) returns (r: Call<()>)
    requires Inv(x, w) && w.alive
    ensures r == Open(x, w) && Kept(x, w, r.world, r.exit)
    ensures r.exit.Returned? ==> r.world.active.Some?
    ensures w.active.Some? ==> r == Call(w, Returned, ())
    ensures w.active.None? && r.exit.Returned? ==> Added(w, r.world, [Opened(r.world.active.value)])
    ensures !r.exit.Returned? ==> r.world.history == w.history
  {
    r := Open(x, w);
    if w.active.None? {
      InteractedKeeps(x, w);
      if r.exit.Returned? {
        Append(x.cfg, x.timely, w.history, Opened(r.world.active.value));
      }
    }
  }

  /** No receipt and no open intent means no intent at all. */
  lemma NeverAnnounced(x: Context, w: World, s: int)
    requires Inv(x, w) && s !in w.receipts
    requires s in w.intents ==> w.intents[s].status.Submitted?
    ensures s !in IntentFiles(w.history) && s !in ReceiptFiles(w.history)
  {
    if s in w.intents {
      assert Statuses(w.intents)[s] == Submitted;
      SubmittedHasReceipt(x.cfg, x.timely, w.history, s);
    }
  }

  lemma RecoverKeeps(x: Context, w: World, s: int, digest: Digest) returns (r: Call<Submission>)
    requires Inv(x, w) && w.alive
    ensures r == Recover(x, w, s, digest) && Kept(x, w, r.world, r.exit)
    ensures r.exit.Returned? ==>
      || (r.value.Reconciled? && Added(w, r.world, Recorded(x.cfg, s)))
      || (r.value.AwaitingReconcile? && r.world.history == w.history)
  {
    InteractedKeeps(x, w);
    r := Recover(x, w, s, digest);
    var asked := PendingStatus(x, w, s);
    if asked.exit.Returned? && Confirmed(asked.value) {
      var receipt := MakeReceipt(asked.value, digest);
      if receipt.Some? { var _ := PersistKeeps(x, asked.world, s, receipt.value); }
    }
  }

  /** What follows an answered call: the receipt, or the note that its answer was lost. */
  function Aftermath(cfg: Config, s: int, simulateAckLoss: bool): seq<Event> {
    if simulateAckLoss then Unacknowledged(cfg, s) else Recorded(cfg, s)
  }

  lemma AcknowledgeKeeps(x: Context, w: World, s: int, digest: Digest, remote: Remote, simulateAckLoss: bool)
    returns (r: Call<Submission>)
    requires Inv(x, w) && w.alive && EndsWith(w.history, SubmitCalled(s))
    ensures r == Acknowledge(x, w, s, digest, remote, simulateAckLoss) && Kept(x, w, r.world, r.exit)
    ensures r.exit.Returned? ==> r.value == if simulateAckLoss then AckWasLost else Accepting
    ensures r.exit.Returned? ==> Added(w, r.world, Aftermath(x.cfg, s, simulateAckLoss))
  {
    r := Acknowledge(x, w, s, digest, remote, simulateAckLoss);
    if simulateAckLoss {
      var noted := w.(pendingAck := w.pendingAck[s := remote]);
      assert Inv(x, noted);
      var _ := WriteIntentKeeps(x, noted, s, Intent(AckLost, digest));
    } else {
      var receipt := MakeReceipt(remote, digest);
      if receipt.Some? { var _ := PersistKeeps(x, w, s, receipt.value); }
    }
  }

  lemma CallSubmitKeeps(x: Context, w: World, s: int) returns (called: World)
    requires Inv(x, w) && w.alive && x.cfg.hasSubmit
    requires x.cfg.runRoot ==> EndsWith(w.history, IntentStored(s, Submitting))
    ensures called == CallSubmit(x, w, s) && Kept(x, w, called, ExitOf(x.env(w.step).fate))
    ensures x.env(w.step).fate == Crashed(false) || Added(w, called, [SubmitCalled(s)])
  {
    called := CallSubmit(x, w, s);
    InteractedKeeps(x, w);
    Append(x.cfg, x.timely, w.history, SubmitCalled(s));
  }

  /** How far a call and its record got, by the result. */
  ghost predicate CalledOnce(cfg: Config, s: int, simulateAckLoss: bool, w: World, r: Call<Submission>) {
    || (r.value.SubmitUnknown? && Added(w, r.world, [SubmitCalled(s)]))
    || (r.value == (if simulateAckLoss then AckWasLost else Accepting) &&
        r.world.history == w.history + [SubmitCalled(s)] + Aftermath(cfg, s, simulateAckLoss))
  }

  lemma CallAndRecordKeeps(x: Context, w: World, s: int, digest: Digest, simulateAckLoss: bool)
    returns (r: Call<Submission>)
    requires Inv(x, w) && w.alive && x.cfg.hasSubmit
    requires x.cfg.runRoot ==> EndsWith(w.history, IntentStored(s, Submitting))
    ensures r == CallAndRecord(x, w, s, digest, simulateAckLoss) && Kept(x, w, r.world, r.exit)
    ensures r.exit.Returned? ==> CalledOnce(x.cfg, s, simulateAckLoss, w, r)
  {
    var fate := x.env(w.step).fate;
    var called := CallSubmitKeeps(x, w, s);
    if fate.Answered? {
      r := AcknowledgeKeeps(x, called, s, digest, x.env(w.step).remote, simulateAckLoss);
    } else if fate.Raised? {
      r := Call(called, Returned, SubmitUnknown);
    } else {
      r := Call(called, Died, NotReached);
    }
  }

  /** How far a fresh submission got, by its result. */
  ghost predicate Stage(cfg: Config, s: int, simulateAckLoss: bool, before: World, r: Call<Submission>) {
    match r.value
    case NoSubmitMethod => !cfg.hasSubmit && r.world.history == before.history + Announced(cfg, s)
    case SubmitUnknown => cfg.hasSubmit && r.world.history == before.history + Called(cfg, s)
    case AckWasLost => simulateAckLoss && r.world.history == before.history + Called(cfg, s) + Aftermath(cfg, s, true)
    case Accepting => !simulateAckLoss && r.world.history == before.history + Called(cfg, s) + Aftermath(cfg, s, false)
    case _ => false
  }

  lemma StageReached(cfg: Config, s: int, simulateAckLoss: bool, before: World, announced: World, r: Call<Submission>)
    requires cfg.hasSubmit && Added(before, announced, Announced(cfg, s))
    requires CalledOnce(cfg, s, simulateAckLoss, announced, r)
    ensures Stage(cfg, s, simulateAckLoss, before, r)
  {
    assert before.history + Announced(cfg, s) + [SubmitCalled(s)] == before.history + Called(cfg, s);
  }

  /** Announcing a segment about which nothing is known. */
  lemma AnnounceKeeps(x: Context, w: World, s: int, digest: Digest) returns (r: Call<()>)
    requires Inv(x, w) && w.alive
    requires s !in IntentFiles(w.history) && s !in ReceiptFiles(w.history)
    ensures r == WriteIntent(x, w, s, Intent(Submitting, digest)) && Kept(x, w, r.world, r.exit)
    ensures r.exit.Returned? ==> Added(w, r.world, Announced(x.cfg, s))
    ensures r.exit.Returned? && x.cfg.runRoot ==> EndsWith(r.world.history, IntentStored(s, Submitting))
  {
    r := WriteIntentKeeps(x, w, s, Intent(Submitting, digest));
  }

  lemma KeptInTwo(x: Context, before: World, between: World, after: World, exit: Exit)
    requires Kept(x, before, between, Returned) && Kept(x, between, after, exit)
    ensures Kept(x, before, after, exit)
  {
  }

  lemma SubmitFreshKeeps(x: Context, w: World, s: int, digest: Digest, simulateAckLoss: bool)
    returns (r: Call<Submission>)
    requires Inv(x, w) && w.alive
    requires s !in IntentFiles(w.history) && s !in ReceiptFiles(w.history)
    ensures r == SubmitFresh(x, w, s, digest, simulateAckLoss) && Kept(x, w, r.world, r.exit)
    ensures r.exit.Returned? ==> Stage(x.cfg, s, simulateAckLoss, w, r)
  {
    var announced := AnnounceKeeps(x, w, s, digest);
    if !announced.exit.Returned? {
      r := Call(announced.world, announced.exit, NotReached);
    } else if !x.cfg.hasSubmit {
      r := Call(announced.world, Returned, NoSubmitMethod);
    } else {
      r := CallAndRecordKeeps(x, announced.world, s, digest, simulateAckLoss);
      KeptInTwo(x, w, announced.world, r.world, r.exit);
      if r.exit.Returned? { StageReached(x.cfg, s, simulateAckLoss, w, announced.world, r); }
    }
  }

  /** What each result of submitting the active segment means: which files were written,
      in which order, and whether the scheduler was called. */
  ghost predicate Accounted(x: Context, w: World, execute: bool, simulateAckLoss: bool, r: Call<Submission>)
    requires w.active.Some?
  {
    var s := w.active.value.sequence;
    match r.value
    case Reused => r.world.history == w.history && (s in w.submissions || s in w.receipts)
    case Reconciled => Added(w, r.world, Recorded(x.cfg, s)) && s in w.intents
    case AwaitingReconcile => r.world.history == w.history && s in w.intents
    case Planned => r.world.history == w.history && !execute
    case NotReached => false
    case _ => execute && Stage(x.cfg, s, simulateAckLoss, w, r)
  }

  /** What a submission or a reconciliation leaves alone. */
  ghost predicate SameSegment(w: World, after: World) {
    && after.active == w.active && after.lastObserved == w.lastObserved
    && after.state == w.state && after.identity == w.identity
  }

  lemma WriteFrame(x: Context, w: World, s: int, intent: Intent, receipt: Receipt)
    ensures SameSegment(w, WriteIntent(x, w, s, intent).world) && SameSegment(w, WriteReceipt(x, w, s, receipt).world)
    ensures WriteIntent(x, w, s, intent).world.submissions == w.submissions
    ensures WriteReceipt(x, w, s, receipt).world.submissions == w.submissions
  {
  }

  lemma PersistFrame(x: Context, w: World, s: int, receipt: Receipt)
    ensures SameSegment(w, Persist(x, w, s, receipt).world)
    ensures Persist(x, w, s, receipt).world.submissions == w.submissions[s := receipt]
  {
    var noted := w.(submissions := w.submissions[s := receipt], nextSequence := Max(w.nextSequence, s + 1));
    var intent := Intent(Submitted, receipt.digest);
    WriteFrame(x, noted, s, intent, receipt);
    WriteFrame(x, WriteReceipt(x, noted, s, receipt).world, s, intent, receipt);
  }

  lemma RecoverFrame(x: Context, w: World, s: int, digest: Digest)
    ensures SameSegment(w, Recover(x, w, s, digest).world)
  {
    var asked := PendingStatus(x, w, s);
    var receipt := MakeReceipt(asked.value, digest);
    if receipt.Some? { PersistFrame(x, asked.world, s, receipt.value); }
  }

  lemma AcknowledgeFrame(x: Context, w: World, s: int, digest: Digest, remote: Remote, simulateAckLoss: bool)
    ensures SameSegment(w, Acknowledge(x, w, s, digest, remote, simulateAckLoss).world)
  {
    var receipt := MakeReceipt(remote, digest);
    if receipt.Some? { PersistFrame(x, w, s, receipt.value); }
  }

  lemma SubmitFreshFrame(x: Context, w: World, s: int, digest: Digest, simulateAckLoss: bool)
    ensures SameSegment(w, SubmitFresh(x, w, s, digest, simulateAckLoss).world)
  {
    var announced := WriteIntent(x, w, s, Intent(Submitting, digest));
    WriteFrame(x, w, s, Intent(Submitting, digest), Receipt(Pending, None, digest, map[]));
    var called := CallSubmit(x, announced.world, s);
    assert SameSegment(w, called);
    AcknowledgeFrame(x, called, s, digest, x.env(announced.world.step).remote, simulateAckLoss);
  }

  /** A submission never changes which segment is active. */
  lemma SubmitActiveFrame(x: Context, w: World, execute: bool, simulateAckLoss: bool)
    requires w.active.Some?
    ensures SameSegment(w, SubmitActive(x, w, execute, simulateAckLoss).world)
  {
    var s, digest := w.active.value.sequence, Digest(w.identity, w.active.value.sequence);
    var recover, anew := SubmitActiveCases(x, w, execute, simulateAckLoss);
    if recover {
      RecoverFrame(x, w, s, digest);
    } else if anew {
      SubmitFreshFrame(x, w, s, digest, simulateAckLoss);
    }
  }

  /** The three ways a submission can go. */
  lemma SubmitActiveCases(x: Context, w: World, execute: bool, simulateAckLoss: bool)
    returns (recover: bool, anew: bool)
    requires w.active.Some?
    ensures var r, s, digest := SubmitActive(x, w, execute, simulateAckLoss), w.active.value.sequence,
                                Digest(w.identity, w.active.value.sequence);
      if recover then s in w.intents && !w.intents[s].status.Submitted? && r == Recover(x, w, s, digest)
      else if anew
      then execute && s !in w.receipts && (s in w.intents ==> w.intents[s].status.Submitted?) &&
           r == SubmitFresh(x, w, s, digest, simulateAckLoss)
      else r.world == Recalled(w, s) && !r.exit.Died? &&
           (r.exit.Returned? ==> (r.value.Reused? && (s in w.submissions || s in w.receipts)) ||
                                 (r.value.Planned? && !execute))
  {
    var s := w.active.value.sequence;
    var foreign := s in w.intents && w.intents[s].digest != Digest(w.identity, s);
    var known := s in w.submissions || s in w.receipts || foreign;
    recover := !known && s in w.intents && !w.intents[s].status.Submitted?;
    anew := !known && !recover && execute;
  }

  lemma SubmitActiveKeeps(x: Context, w: World, execute: bool, simulateAckLoss: bool) returns (r: Call<Submission>)
    requires Inv(x, w) && w.alive && w.active.Some?
    ensures r == SubmitActive(x, w, execute, simulateAckLoss) && Kept(x, w, r.world, r.exit)
    ensures r.exit.Returned? ==> Accounted(x, w, execute, simulateAckLoss, r)
  {
    var s, digest := w.active.value.sequence, Digest(w.identity, w.active.value.sequence);
    var recover, anew := SubmitActiveCases(x, w, execute, simulateAckLoss);
    if recover {
      r := RecoverKeeps(x, w, s, digest);
    } else if anew {
      NeverAnnounced(x, w, s);
      r := SubmitFreshKeeps(x, w, s, digest, simulateAckLoss);
    } else {
      r := SubmitActive(x, w, execute, simulateAckLoss);
    }
  }

  lemma SubmitKeeps(x: Context, w: World, execute: bool, simulateAckLoss: bool) returns (r: Call<Submission>)
    requires Inv(x, w) && w.alive
    ensures r == Submit(x, w, execute, simulateAckLoss) && Kept(x, w, r.world, r.exit)
    ensures r.world.lastObserved == w.lastObserved
    ensures r.exit.Returned? ==> r.world.active.Some?
    ensures w.active.Some? ==> r.world.active == w.active && r.world.state == w.state
    ensures w.active.None? && r.world.active.Some? ==>
      w.history + [Opened(r.world.active.value)] <= r.world.history && r.world.state.Active?
    ensures w.active.None? && r.world.active.None? ==> r.world.history == w.history && r.world.state == w.state
  {
    var open := OpenKeeps(x, w);
    if open.exit.Returned? {
      SubmitActiveFrame(x, open.world, execute, simulateAckLoss);
      r := SubmitActiveKeeps(x, open.world, execute, simulateAckLoss);
    } else {
      r := Submit(x, w, execute, simulateAckLoss);
    }
  }

  // ----- reconciliation

  /** A recorded receipt or the intent that points to it. */
  predicate IsRecord(e: Event) { e.ReceiptStored? || (e.IntentStored? && e.status.Submitted?) }

  ghost predicate OnlyRecords(before: seq<Event>, after: seq<Event>) {
    before <= after && forall k :: |before| <= k < |after| ==> IsRecord(after[k])
  }

  /** Receipts only ever move from open to terminal, and none appears or disappears. */
  ghost predicate BroughtUpToDate(identity: string, before: map<int, Receipt>, after: map<int, Receipt>) {
    && after.Keys == before.Keys
    && (forall s :: s in before && Terminal(before[s].status) ==> after[s] == before[s])
    && (forall s :: s in before && after[s] != before[s] ==>
          Terminal(after[s].status) && after[s].digest == Digest(identity, s))
  }

  lemma ReconcileOneFrame(x: Context, w: World, s: int)
    requires s in w.submissions
    ensures SameSegment(w, ReconcileOne(x, w, s).world)
    ensures BroughtUpToDate(w.identity, w.submissions, ReconcileOne(x, w, s).world.submissions)
  {
    var receipt := MakeReceipt(x.env(w.step).remote, Digest(w.identity, s));
    if receipt.Some? { PersistFrame(x, Interacted(x, w), s, receipt.value); }
  }

  lemma ReconcileOneKeeps(x: Context, w: World, s: int) returns (r: Call<()>)
    requires Inv(x, w) && w.alive && s in w.submissions
    ensures r == ReconcileOne(x, w, s) && Kept(x, w, r.world, r.exit)
    ensures r.exit.Returned? ==> OnlyRecords(w.history, r.world.history)
  {
    r := ReconcileOne(x, w, s);
    if !Terminal(w.submissions[s].status) && x.cfg.hasStatus {
      InteractedKeeps(x, w);
      var after, reply := Interacted(x, w), x.env(w.step);
      var receipt := MakeReceipt(reply.remote, Digest(w.identity, s));
      if reply.fate.Answered? && reply.remote.status.Some? && Terminal(reply.remote.status.value) && receipt.Some? {
        r := PersistKeeps(x, after, s, receipt.value);
      }
    }
  }

  /** Reconciliation records and never submits. */
  lemma {:induction false} ReconcileThroughKeeps(x: Context, w: World, todo: set<int>) returns (r: Call<()>)
    requires Inv(x, w) && w.alive && todo <= w.submissions.Keys
    ensures r == ReconcileThrough(x, w, todo) && Kept(x, w, r.world, r.exit) && SameSegment(w, r.world)
    ensures r.exit.Returned? ==> OnlyRecords(w.history, r.world.history)
    ensures BroughtUpToDate(w.identity, w.submissions, r.world.submissions)
    decreases |todo|
  {
    if forall s :: s !in todo {
      r := ReconcileThrough(x, w, todo);
    } else {
      LeastExists(todo);
      var s :| IsLeast(s, todo);
      r := ReconcileOneKeeps(x, w, s);
      ReconcileOneFrame(x, w, s);
      ReconcileThroughStep(x, w, todo, s);
      if r.exit.Returned? {
        r := ReconcileThroughKeeps(x, r.world, todo - {s});
      }
    }
  }

  lemma ReconcileThroughStep(x: Context, w: World, todo: set<int>, s: int)
    requires todo <= w.submissions.Keys && IsLeast(s, todo)
    ensures var one := ReconcileOne(x, w, s);
      ReconcileThrough(x, w, todo) == if one.exit.Returned? then ReconcileThrough(x, one.world, todo - {s}) else one
  {
  }

  lemma ReconcileKeeps(x: Context, w: World) returns (r: Call<()>)
    requires Inv(x, w) && w.alive
    ensures r == Reconcile(x, w) && Kept(x, w, r.world, r.exit) && SameSegment(w, r.world)
    ensures r.exit.Returned? ==> OnlyRecords(w.history, r.world.history)
  {
    r := ReconcileThroughKeeps(x, w, w.submissions.Keys);
    if r.exit.Returned? {
      InteractedKeeps(x, r.world);
      r := Reconcile(x, w);
    }
  }

  // ----- rollover

  lemma CheckpointKeeps(x: Context, w: World) returns (r: Call<bool>)
    requires Inv(x, w) && w.alive
    ensures r == Checkpoint(x, w) && Kept(x, w, r.world, r.exit)
    ensures r.world.active == w.active && r.world.lastObserved == w.lastObserved
    ensures r.exit.Returned? && !(r.value && w.active.Some?) ==> r.world.history == w.history
    ensures r.exit.Returned? && r.value && w.active.Some? ==> Added(w, r.world, [Flushed(w.active.value.sequence)])
  {
    r := Checkpoint(x, w);
    InteractedKeeps(x, w);
    if w.active.Some? { Append(x.cfg, x.timely, w.history, Flushed(w.active.value.sequence)); }
  }

  lemma FinishKeeps(x: Context, w: World) returns (r: Call<()>)
    requires Inv(x, w) && w.alive
    requires w.active.Some? ==> EndsWith(w.history, Flushed(w.active.value.sequence))
    ensures r == Finish(x, w) && Kept(x, w, r.world, r.exit)
    ensures r.world.lastObserved == w.lastObserved && (r.exit.Returned? ==> r.world.active.None?)
    ensures w.active.None? ==> r.world.history == w.history
    ensures r.exit.Returned? && w.active.Some? ==> Added(w, r.world, [Closed(w.active.value.sequence)])
  {
    r := Finish(x, w);
    InteractedKeeps(x, w);
    if w.active.Some? { Append(x.cfg, x.timely, w.history, Closed(w.active.value.sequence)); }
  }

  function RollingNote(was: Option<Segment>, now: int): seq<Event> { if was.Some? then [Rolling(now)] else [] }

  /** What a rollover that came through adds once the old segment is closed. */
  ghost predicate Rolled(closed: seq<Event>, was: Option<Segment>, now: int, segment: Segment, after: seq<Event>) {
    closed + RollingNote(was, now) + [Opened(segment)] <= after
  }

  /** The time a rollover goes by. */
  function RollTime(w: World): int { if w.lastObserved.Some? then w.lastObserved.value else w.clock }

  /** Opening the successor, once the rollover is noted. */
  lemma OpenNextKeeps(x: Context, rolling: World) returns (r: Call<Submission>)
    requires Inv(x, rolling) && rolling.alive && rolling.active.None?
    ensures r == Submit(x, rolling, x.cfg.execute, false) && Kept(x, rolling, r.world, r.exit)
    ensures r.exit.Returned? ==> exists segment :: rolling.history + [Opened(segment)] <= r.world.history
  {
    r := SubmitKeeps(x, rolling, x.cfg.execute, false);
    if r.exit.Returned? {
      assert rolling.history + [Opened(r.world.active.value)] <= r.world.history;
    }
  }

  /** Once the old segment is closed: check the planned end, and only then open. */
  lemma SucceedKeeps(x: Context, was: Option<Segment>, closed: World) returns (r: Call<TickReport>)
    requires Inv(x, closed) && closed.alive && closed.active.None?
    requires was.Some? && ClearOfEnd(x.cfg, RollTime(closed)) ==> Inv(x, Logged(closed, Rolling(RollTime(closed))))
    ensures r == Succeed(x, was, closed) && Kept(x, closed, r.world, r.exit)
    ensures r.exit.Returned? ==> r.value.RolledOver? || r.value.AtPlannedEnd?
    ensures r.value.AtPlannedEnd? ==> r.world.state.Finished? && r.world.history == closed.history
    ensures r.value.RolledOver? ==> exists now, segment :: Rolled(closed.history, was, now, segment, r.world.history)
  {
    var now := RollTime(closed);
    if !ClearOfEnd(x.cfg, now) {
      r := Call(closed.(state := Finished), Returned, AtPlannedEnd);
    } else {
      var rolling := if was.Some? then Logged(closed, Rolling(now)) else closed;
      var submit := OpenNextKeeps(x, rolling);
      r := Call(submit.world, submit.exit, if submit.exit.Returned? then RolledOver else Interrupted);
      if submit.exit.Returned? {
        var segment :| rolling.history + [Opened(segment)] <= submit.world.history;
        assert rolling.history == closed.history + RollingNote(was, now);
        assert Rolled(closed.history, was, now, segment, r.world.history);
      }
    }
  }

  lemma RollingKeeps(x: Context, w: World, closed: World)
    requires Inv(x, w) && w.alive && w.active.Some? && Inv(x, closed)
    requires closed.history == w.history + ClosingEvents(w.active) && closed.lastObserved == w.lastObserved
    ensures ClearOfEnd(x.cfg, RollTime(closed)) ==> Inv(x, Logged(closed, Rolling(RollTime(closed))))
  {
    var h := closed.history;
    assert h[|h| - 1] == Closed(w.active.value.sequence);
    assert |h| >= 3 ==> h[|h| - 3] == w.history[|w.history| - 1];
    Append(x.cfg, x.timely, h, Rolling(RollTime(closed)));
  }

  /** Flushing and closing the active segment. */
  lemma CloseActiveKeeps(x: Context, w: World) returns (r: Call<bool>)
    requires Inv(x, w) && w.alive
    ensures r == CloseActive(x, w) && Kept(x, w, r.world, r.exit)
    ensures r.exit.Returned? && r.value ==>
              r.world.active.None? && r.world.history == w.history + ClosingEvents(w.active)
    ensures r.exit.Returned? && !r.value ==> r.world.active == w.active && r.world.history == w.history
    ensures r.world.lastObserved == w.lastObserved
  {
    r := CheckpointKeeps(x, w);
    if r.exit.Returned? && r.value {
      var finish := FinishKeeps(x, r.world);
      KeptInTwo(x, w, r.world, finish.world, finish.exit);
      r := Call(finish.world, finish.exit, true);
      ClosingInTwo(w.history, w.active);
    }
  }

  lemma ClosingInTwo(h: seq<Event>, active: Option<Segment>)
    ensures active.Some? ==>
              h + [Flushed(active.value.sequence)] + [Closed(active.value.sequence)] == h + ClosingEvents(active)
    ensures active.None? ==> h + ClosingEvents(active) == h
  {
  }

  /** A rollover flushes, closes, checks the planned end, and only then opens. */
  lemma CheckpointAndRollKeeps(x: Context, w: World) returns (r: Call<TickReport>)
    requires Inv(x, w) && w.alive
    ensures r == CheckpointAndRoll(x, w) && Kept(x, w, r.world, r.exit)
    ensures r.value.RolledOver? ==>
      exists now, segment :: Rolled(w.history + ClosingEvents(w.active), w.active, now, segment, r.world.history)
    ensures r.value.AtPlannedEnd? ==> r.world.state.Finished? && r.world.history == w.history + ClosingEvents(w.active)
    ensures r.value.CheckpointBlocked? ==>
      r.world.state.Blocked? && r.world.active == w.active && r.world.history == w.history
    ensures r.exit.Returned? ==> !r.value.Idle? && !r.value.Continues?
  {
    var close := CloseActiveKeeps(x, w);
    if close.exit.Returned? && close.value {
      if w.active.Some? { RollingKeeps(x, w, close.world); }
      r := SucceedKeeps(x, w.active, close.world);
    } else {
      r := CheckpointAndRoll(x, w);
    }
  }

  lemma StartKeeps(x: Context, w: World) returns (r: Call<()>)
    requires Inv(x, w) && w.alive
    ensures r == Start(x, w) && Kept(x, w, r.world, r.exit)
    ensures !Ended(w.state) && r.exit.Returned? ==> r.world.active.Some?
  {
    r := Start(x, w);
    if !Ended(w.state) { var _ := SubmitKeeps(x, w, x.cfg.execute, false); }
  }

  lemma NoteKeeps(x: Context, w: World, e: Event, lastObserved: Option<int>)
    requires Inv(x, w) && w.alive && (e.Ticked? || e.Due?) && Allowed(x.cfg, x.timely, w.history, e)
    requires e.Due? ==> lastObserved == Some(e.now) && (x.timely ==> e.clock <= w.clock)
    ensures Inv(x, Logged(w.(lastObserved := lastObserved), e))
  {
    Append(x.cfg, x.timely, w.history, e);
  }

  lemma ObserveKeeps(x: Context, w: World, now: int) returns (r: Call<()>)
    requires Inv(x, w) && w.alive && w.active.Some?
    ensures r == Observe(x, w, now) && Kept(x, w, r.world, r.exit)
    ensures r.world.active == w.active && r.world.lastObserved == Some(now)
    ensures r.exit.Returned? ==> OnlyRecords(w.history + [Ticked(now)], r.world.history)
  {
    var observed := Logged(w.(lastObserved := Some(now)), Ticked(now));
    NoteKeeps(x, w, Ticked(now), Some(now));
    InteractedKeeps(x, observed);
    r := Observe(x, w, now);
    if x.env(observed.step).fate.Answered? {
      r := ReconcileKeeps(x, Interacted(x, observed));
    }
  }

  /** A tick continues exactly while, by the time it goes by, the segment has more than the
      guard left; a tick that rolls over leaves the whole rollover in the history. */
  lemma TickActiveKeeps(x: Context, w: World, now: int) returns (r: Call<TickReport>)
    requires Inv(x, w) && w.alive && w.active.Some?
    ensures r == TickActive(x, w, now) && Kept(x, w, r.world, r.exit)
    ensures r.exit.Returned? ==>
      (r.value.Continues? <==> Deadline(x.cfg, w.active.value.startedAt) - now > x.cfg.guard)
    ensures r.value.Continues? ==> r.world.active == w.active
    ensures r.value.RolledOver? ==>
      exists k: nat :: |w.history| < k && RollsOver(r.world.history, k) && r.world.history[k] == Due(now, w.clock)
  {
    var observed := ObserveKeeps(x, w, now);
    if observed.exit.Returned? && Deadline(x.cfg, w.active.value.startedAt) - now <= x.cfg.guard {
      r := DueKeeps(x, observed.world, Due(now, w.clock));
    } else {
      r := TickActive(x, w, now);
    }
  }

  /** What a tick does once the segment is due. */
  lemma DueKeeps(x: Context, w: World, due: Event) returns (r: Call<TickReport>)
    requires Inv(x, w) && w.alive && w.active.Some?
    requires due.Due? && w.lastObserved == Some(due.now) && (x.timely ==> due.clock <= w.clock)
    requires Deadline(x.cfg, w.active.value.startedAt) - due.now <= x.cfg.guard
    ensures r == CheckpointAndRoll(x, Logged(w, due)) && Kept(x, w, r.world, r.exit)
    ensures !r.value.Continues?
    ensures r.value.RolledOver? ==> RollsOver(r.world.history, |w.history|) && r.world.history[|w.history|] == due
  {
    NoteKeeps(x, w, due, Some(due.now));
    r := CheckpointAndRollKeeps(x, Logged(w, due));
    if r.value.RolledOver? { RolledMeansRollsOver(w.history, due, w.active.value, r.world.history); }
  }

  lemma RolledMeansRollsOver(h: seq<Event>, due: Event, active: Segment, after: seq<Event>)
    requires due.Due?
    requires exists now, segment :: Rolled(h + [due] + ClosingEvents(Some(active)), Some(active), now, segment, after)
    ensures RollsOver(after, |h|) && after[|h|] == due
  {
    var now, segment :| Rolled(h + [due] + ClosingEvents(Some(active)), Some(active), now, segment, after);
    var all := h + [due] + ClosingEvents(Some(active)) + [Rolling(now)] + [Opened(segment)];
    assert all[|h|..] == [due, Flushed(active.sequence), Closed(active.sequence), Rolling(now), Opened(segment)];
    assert forall k :: 0 <= k < 5 ==> after[|h| + k] == all[|h| + k] == all[|h|..][k];
  }

  lemma TickKeeps(x: Context, w: World, at: Option<int>) returns (r: Call<TickReport>)
    requires Inv(x, w) && w.alive
    ensures r == Tick(x, w, at) && Kept(x, w, r.world, r.exit)
    ensures Ended(w.state) ==> r.world == w
  {
    r := Tick(x, w, at);
    if !Ended(w.state) {
      if w.active.Some? {
        r := TickActiveKeeps(x, w, TickTime(w, at));
      } else {
        var start := StartKeeps(x, w);
        if start.exit.Returned? {
          r := TickActiveKeeps(x, start.world, TickTime(start.world, at));
        }
      }
    }
  }

  lemma StopKeeps(x: Context, w: World) returns (r: Call<()>)
    requires Inv(x, w) && w.alive
    ensures r == Stop(x, w) && Kept(x, w, r.world, r.exit)
    ensures r.exit.Returned? ==>
      || (r.world.state.Stopped? && r.world.active.None? && r.world.history == w.history + ClosingEvents(w.active))
      || (r.world.state.Blocked? && r.world.active == w.active && r.world.history == w.history)
  {
    r := Stop(x, w);
    if w.active.Some? {
      var _ := CloseActiveKeeps(x, w);
    } else {
      assert w.history + [] == w.history;
    }
  }

  lemma BootKeeps(x: Context, w: World, identity: string, restored: Restored, booted: World)
    requires Inv(x, w) && Boots(w, identity, restored, booted)
    ensures Inv(x, booted)
  {
    Append(x.cfg, x.timely, w.history, Restarted(restored.resumed));
  }

  // ----- whole runs

  datatype Command =
    | Boot(identity: string, restored: Restored)
    | StartCommand
    | SubmitCommand(execute: bool, simulateAckLoss: bool)
    | ReconcileCommand
    | TickCommand(at: Option<int>)
    | RollCommand
    | StopCommand

  /** One command on a world; a dead process can only be booted again. */
  ghost predicate Does(x: Context, w: World, command: Command, after: World) {
    match command
    case Boot(identity, restored) => Boots(w, identity, restored, after)
    case _ => if !w.alive then after == w else
      match command
      case StartCommand => after == Start(x, w).world
      case SubmitCommand(execute, simulate) => after == Submit(x, w, execute, simulate).world
      case ReconcileCommand => after == Reconcile(x, w).world
      case TickCommand(at) => after == Tick(x, w, at).world
      case RollCommand => after == CheckpointAndRoll(x, w).world
      case _ => after == Stop(x, w).world
  }

  lemma CommandKeeps(x: Context, w: World, command: Command, after: World)
    requires Inv(x, w) && Does(x, w, command, after)
    ensures Inv(x, after)
  {
    if command.Boot? {
      BootKeeps(x, w, command.identity, command.restored, after);
    } else if w.alive {
      match command
      case StartCommand => var _ := StartKeeps(x, w);
      case SubmitCommand(execute, simulate) => var _ := SubmitKeeps(x, w, execute, simulate);
      case ReconcileCommand => var _ := ReconcileKeeps(x, w);
      case TickCommand(at) => var _ := TickKeeps(x, w, at);
      case RollCommand => var _ := CheckpointAndRollKeeps(x, w);
      case _ => var _ := StopKeeps(x, w);
    }
  }

  /** A run from empty files: any commands in any order, with faults and crashes anywhere. */
  ghost predicate IsRun(x: Context, worlds: seq<World>, commands: seq<Command>) {
    && |worlds| == |commands| + 1
    && worlds[0].history == [] && worlds[0].intents == map[] && worlds[0].receipts == map[] && !worlds[0].alive
    && forall k :: 0 <= k < |commands| ==> Does(x, worlds[k], commands[k], worlds[k + 1])
  }

  lemma {:induction false} RunKeeps(x: Context, worlds: seq<World>, commands: seq<Command>, k: nat)
    requires IsRun(x, worlds, commands) && k < |worlds|
    ensures Inv(x, worlds[k])
  {
    if k > 0 {
      RunKeeps(x, worlds, commands, k - 1);
      CommandKeeps(x, worlds[k - 1], commands[k - 1], worlds[k]);
    }
  }

  /** With a run root, over any run, the scheduler is asked at most once per segment, each
      time after the intent was stored. */
  lemma SubmitsAtMostOnce(x: Context, worlds: seq<World>, commands: seq<Command>, i: nat, j: nat)
    requires IsRun(x, worlds, commands) && x.cfg.runRoot
    requires var h := worlds[|worlds| - 1].history;
      i < j < |h| && h[i].SubmitCalled? && h[j].SubmitCalled?
    ensures var h := worlds[|worlds| - 1].history;
      h[i].sequence != h[j].sequence && i > 0 && h[i - 1] == IntentStored(h[i].sequence, Submitting)
  {
    RunKeeps(x, worlds, commands, |worlds| - 1);
    var h := worlds[|worlds| - 1].history;
    AtMostOnce(x.cfg, x.timely, h, i, j);
    SubmitIsAnnounced(x.cfg, x.timely, h, i);
  }

  /** At every point of every run, an intent marked submitted has its receipt on disk. */
  lemma SubmittedIntentHasReceipt(x: Context, worlds: seq<World>, commands: seq<Command>, k: nat, s: int)
    requires IsRun(x, worlds, commands) && k < |worlds|
    requires s in worlds[k].intents && worlds[k].intents[s].status.Submitted?
    ensures s in worlds[k].receipts
  {
    RunKeeps(x, worlds, commands, k);
    var w := worlds[k];
    assert Statuses(w.intents)[s] == Submitted;
    SubmittedHasReceipt(x.cfg, x.timely, w.history, s);
  }

  // ----- exactly when a segment is submitted at most once

  /** No two calls to the scheduler are for the same segment. */
  ghost predicate NoRepeat(h: seq<Event>) {
    forall i, j :: 0 <= i < j < |h| && h[i].SubmitCalled? && h[j].SubmitCalled? ==> h[i].sequence != h[j].sequence
  }

  lemma LawfulSubmitsOnce(cfg: Config, timely: bool, h: seq<Event>)
    requires Lawful(cfg, timely, h)
    ensures cfg.runRoot || !cfg.hasSubmit ==> NoRepeat(h)
  {
    forall i, j | (cfg.runRoot || !cfg.hasSubmit) && 0 <= i < j < |h| && h[i].SubmitCalled? && h[j].SubmitCalled?
      ensures h[i].sequence != h[j].sequence
    {
      LawfulAt(cfg, timely, h, i);
      AtMostOnce(cfg, timely, h, i, j);
    }
  }

  /** Without a run root, from empty files: a process starts, and a client that raises is
      asked twice to submit the first segment. */
  ghost function Raising(cfg: Config, timely: bool): Context {
    Context(cfg, timely,
            n => Reply(if n == 0 then Answered else Raised(true), 0, Remote(None, None), None, None, false))
  }

  ghost const EMPTY := World(0, 0, map[], map[], false, "", None, 1, map[], map[], Created, None, [])
  ghost const FRESH := Booted(EMPTY, "", None, map[], 1)
  ghost const FIRST := Segment(1, 0, 0)
  ghost const TWICE := [Boot("", Restored(map[], None, 1)), SubmitCommand(true, false), SubmitCommand(true, false)]

  /** The world after `n` raised submissions. */
  ghost function Tried(n: nat): World {
    FRESH.(step := n + 1, active := Some(FIRST), nextSequence := 2, state := Active,
           history := [Restarted(None), Opened(FIRST)] + seq(n, k => SubmitCalled(1)))
  }

  lemma RaisesOnce(cfg: Config, timely: bool, n: nat)
    requires !cfg.runRoot && cfg.hasSubmit
    ensures SubmitActive(Raising(cfg, timely), Tried(n), true, false).world == Tried(n + 1)
  {
    assert Tried(n).history + [SubmitCalled(1)] == Tried(n + 1).history;
  }

  lemma TwiceIsARun(cfg: Config, timely: bool)
    requires !cfg.runRoot && cfg.hasSubmit
    ensures IsRun(Raising(cfg, timely), [EMPTY, FRESH, Tried(1), Tried(2)], TWICE)
  {
    var x := Raising(cfg, timely);
    assert Registered("", map[]) == map[];
    assert Merged(map[], map[], map[], 1);
    assert Boots(EMPTY, "", Restored(map[], None, 1), FRESH);
    assert Open(x, FRESH).world == Tried(0) by {
      assert FRESH.history + [Opened(FIRST)] == Tried(0).history;
    }
    RaisesOnce(cfg, timely, 0);
    RaisesOnce(cfg, timely, 1);
    assert Submit(x, FRESH, true, false).world == Tried(1);
    assert Submit(x, Tried(1), true, false).world == Tried(2);
  }

  ghost predicate SubmitsOnce(cfg: Config) {
    forall x: Context, worlds: seq<World>, commands: seq<Command> ::
      IsRun(x, worlds, commands) && x.cfg == cfg ==> NoRepeat(worlds[|worlds| - 1].history)
  }

  /** Exactly when no run submits a segment twice: there is a run root, or no way to submit.
      Without a run root nothing remembers a submit that raised. */
  lemma SubmitsOnceMeaning(cfg: Config)
    ensures SubmitsOnce(cfg) <==> cfg.runRoot || !cfg.hasSubmit
  {
    if cfg.runRoot || !cfg.hasSubmit {
      forall x: Context, worlds: seq<World>, commands: seq<Command> | IsRun(x, worlds, commands) && x.cfg == cfg
        ensures NoRepeat(worlds[|worlds| - 1].history)
      {
        RunKeeps(x, worlds, commands, |worlds| - 1);
        LawfulSubmitsOnce(cfg, x.timely, worlds[|worlds| - 1].history);
      }
    } else {
      TwiceIsARun(cfg, true);
      var h := Tried(2).history;
      assert h[2] == h[3] == SubmitCalled(1);
      assert !NoRepeat(h);
    }
  }
}

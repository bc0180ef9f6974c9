/**
  What one call on the segment supervisor does, as functions from state to state.

  Every interaction with the outside (a file write, a scheduler call, a call on the run
  controller) takes the next reply from `env`, which may answer, raise, or kill the
  process before or after the effect happened.  Files survive; the object does not.
 */
module SupervisorSpec {
  import opened Wrappers
  import opened SegmentHistory
  import opened IntSets

  datatype Status = Pending | Accepted | Completed | Failed | SubmittedUnknown | Unrecognised

  /** What the scheduler client reports. */
  datatype Remote = Remote(status: Option<Status>, jobId: Option<string>)

  /** The identity a submission is bound to: run, manifest, capsule and owner, plus the sequence. */
  datatype Digest = Digest(identity: string, sequence: int)

  datatype Intent = Intent(status: IntentStatus, digest: Digest)
  /** Fields of a receipt that must not change besides its digest and its job. */
  datatype Field = IdempotencyKey | RunId | SegmentId | SequenceNumber | ManifestDigest | CapsuleDigest

  /** The value that the supervisor itself gives a field, or another text. */
  datatype Value = Proper(identity: string, sequence: int) | Alien(text: string)

  datatype Receipt = Receipt(status: Status, jobId: Option<string>, digest: Digest, fields: map<Field, Value>)

  datatype Fate = Answered | Raised(effect: bool) | Crashed(effect: bool)

  datatype Reply = Reply(
    fate: Fate,
    elapsed: int,
    remote: Remote,
    sequence: Option<int>,
    startedAt: Option<int>,
    flushed: bool)

  /** How a call ends: normally, with an exception, or with the process gone. */
  datatype Exit = Returned | Failing | Died

  datatype State = Created | Active | Blocked | Finished | Stopped

  datatype Submission =
    | Reused | Reconciled | AwaitingReconcile | Planned | NoSubmitMethod | SubmitUnknown | AckWasLost | Accepting
    | NotReached

  datatype TickReport = Idle | Continues | RolledOver | AtPlannedEnd | CheckpointBlocked | Interrupted

  /** The settings, whether the clock can be trusted never to go back, and the replies.
      Nothing is assumed of the start times that the run controller reports. */
  datatype Context = Context(cfg: Config, timely: bool, env: nat -> Reply)

  /** Files, process memory, clock and history. */
  datatype World = World(
    step: nat,
    clock: int,
    intents: map<int, Intent>,
    receipts: map<int, Receipt>,
    alive: bool,
    identity: string,
    active: Option<Segment>,
    nextSequence: int,
    submissions: map<int, Receipt>,
    pendingAck: map<int, Remote>,
    state: State,
    lastObserved: Option<int>,
    history: seq<Event>)

  datatype Call<T> = Call(world: World, exit: Exit, value: T)

  function Max(a: int, b: int): int { if a < b then b else a }

  /** The clock after `elapsed`; a timely clock never goes back. */
  function Advance(timely: bool, now: int, elapsed: int): int {
    if timely && elapsed < 0 then now else now + elapsed
  }

  predicate Terminal(status: Status) { status.Completed? || status.Failed? }

  predicate Confirmed(remote: Remote) {
    && remote.status.Some?
    && (remote.status.value.Accepted? || remote.status.value.Pending? || Terminal(remote.status.value))
  }

  function ProperFields(identity: string, s: int): map<Field, Value> {
    var v := Proper(identity, s);
    map[IdempotencyKey := v, RunId := v, SegmentId := v, SequenceNumber := v, ManifestDigest := v, CapsuleDigest := v]
  }

  /** A receipt for a scheduler report, unless the report names no usable status or job. */
  function MakeReceipt(remote: Remote, digest: Digest): Option<Receipt> {
    var status := if remote.status.Some? then remote.status.value else Accepted;
    if status.Unrecognised? || (remote.jobId.None? && !status.SubmittedUnknown?) then None
    else Some(Receipt(status, remote.jobId, digest, ProperFields(digest.identity, digest.sequence)))
  }

  function ExitOf(fate: Fate): Exit {
    match fate
    case Answered => Returned
    case Raised(_) => Failing
    case Crashed(_) => Died
  }

  predicate TookEffect(fate: Fate) { fate.Answered? || fate.effect }

  predicate Ended(state: State) { state.Blocked? || state.Finished? || state.Stopped? }

  function Interacted(x: Context, w: World): World {
    var reply := x.env(w.step);
    w.(step := w.step + 1,
       clock := Advance(x.timely, w.clock, reply.elapsed),
       alive := !reply.fate.Crashed?)
  }

  function Logged(w: World, e: Event): World { w.(history := w.history + [e]) }

  // ----- files

  function WriteIntent(x: Context, w: World, s: int, intent: Intent): Call<()> {
    if !x.cfg.runRoot then Call(w, Returned, ())
    else
      var fate, after := x.env(w.step).fate, Interacted(x, w);
      Call(if TookEffect(fate)
             then Logged(after.(intents := after.intents[s := intent]), IntentStored(s, intent.status))
             else after,
             ExitOf(fate), ())
  }

  function WriteReceipt(x: Context, w: World, s: int, receipt: Receipt): Call<()> {
    if !x.cfg.runRoot then Call(w, Returned, ())
    else
      var fate, after := x.env(w.step).fate, Interacted(x, w);
      Call(if TookEffect(fate)
             then Logged(after.(receipts := after.receipts[s := receipt]), ReceiptStored(s))
             else after,
             ExitOf(fate), ())
  }

  /** Receipt first, then the intent that points to it. */
  function Persist(x: Context, w: World, s: int, receipt: Receipt): Call<()> {
    var noted := w.(submissions := w.submissions[s := receipt], nextSequence := Max(w.nextSequence, s + 1));
    var first := WriteReceipt(x, noted, s, receipt);
    if !first.exit.Returned? then first
    else WriteIntent(x, first.world, s, Intent(Submitted, receipt.digest))
  }

  // ----- submission

  function Open(x: Context, w: World): Call<()> {
    if w.active.Some? then Call(w, Returned, ())
    else
      var reply, after := x.env(w.step), Interacted(x, w);
      if !reply.fate.Answered? then Call(after, ExitOf(reply.fate), ())
      else
        var segment := Segment(
          if reply.sequence.Some? then reply.sequence.value else w.nextSequence,
          if reply.startedAt.Some? then reply.startedAt.value else w.clock,
          w.clock);
        var running := after.(active := Some(segment), nextSequence := w.nextSequence + 1, state := Active);
        Call(Logged(running, Opened(segment)), Returned, ())
  }

  /** The scheduler's view of a submission whose acknowledgement is missing. */
  function PendingStatus(x: Context, w: World, s: int): Call<Remote> {
    if s in w.pendingAck then Call(w, Returned, w.pendingAck[s])
    else if !x.cfg.hasStatus then Call(w, Returned, Remote(None, None))
    else Call(Interacted(x, w), ExitOf(x.env(w.step).fate), x.env(w.step).remote)
  }

  /** An intent without a receipt: ask the scheduler, never submit again. */
  function Recover(x: Context, w: World, s: int, digest: Digest): Call<Submission> {
    var asked := PendingStatus(x, w, s);
    if !asked.exit.Returned? then Call(asked.world, asked.exit, NotReached)
    else if !Confirmed(asked.value) then Call(asked.world, Returned, AwaitingReconcile)
    else
      var receipt := MakeReceipt(asked.value, digest);
      if receipt.None? then Call(asked.world, Failing, NotReached)
      else
        var stored := Persist(x, asked.world, s, receipt.value);
        Call(stored.world, stored.exit, Reconciled)
  }

  /** What the answer to a submission leads to. */
  function Acknowledge(x: Context, w: World, s: int, digest: Digest, remote: Remote, simulateAckLoss: bool)
    : Call<Submission>
  {
    if simulateAckLoss then
      var noted := w.(pendingAck := w.pendingAck[s := remote]);
      var stored := WriteIntent(x, noted, s, Intent(AckLost, digest));
      Call(stored.world, stored.exit, AckWasLost)
    else
      var receipt := MakeReceipt(remote, digest);
      if receipt.None? then Call(w, Failing, NotReached)
      else
        var stored := Persist(x, w, s, receipt.value);
        Call(stored.world, stored.exit, Accepting)
  }

  /** The one place that calls the scheduler, right after the intent is on disk. */
  function CallSubmit(x: Context, w: World, s: int): World {
    var after := Interacted(x, w);
    if x.env(w.step).fate == Crashed(false) then after else Logged(after, SubmitCalled(s))
  }

  function CallAndRecord(x: Context, w: World, s: int, digest: Digest, simulateAckLoss: bool): Call<Submission> {
    var reply, called := x.env(w.step), CallSubmit(x, w, s);
    if reply.fate.Crashed? then Call(called, Died, NotReached)
    else if reply.fate.Raised? then Call(called, Returned, SubmitUnknown)
    else Acknowledge(x, called, s, digest, reply.remote, simulateAckLoss)
  }

  /** Nothing is known about `s`: announce it, call the scheduler, record the answer. */
  function SubmitFresh(x: Context, w: World, s: int, digest: Digest, simulateAckLoss: bool): Call<Submission> {
    var announced := WriteIntent(x, w, s, Intent(Submitting, digest));
    if !announced.exit.Returned? then Call(announced.world, announced.exit, NotReached)
    else if !x.cfg.hasSubmit then Call(announced.world, Returned, NoSubmitMethod)
    else CallAndRecord(x, announced.world, s, digest, simulateAckLoss)
  }

  /** The receipt on disk is looked up when memory has none. */
  function Recalled(w: World, s: int): World {
    if s !in w.submissions && s in w.receipts then w.(submissions := w.submissions[s := w.receipts[s]]) else w
  }

  function SubmitActive(x: Context, w0: World, execute: bool, simulateAckLoss: bool): Call<Submission>
    requires w0.active.Some?
  {
    var s := w0.active.value.sequence;
    var digest, w := Digest(w0.identity, s), Recalled(w0, s);
    if s in w.submissions then
      if w.submissions[s].digest != digest then Call(w, Failing, NotReached) else Call(w, Returned, Reused)
    else if s in w.intents && w.intents[s].digest != digest then Call(w, Failing, NotReached)
    else if s in w.intents && !w.intents[s].status.Submitted? then Recover(x, w, s, digest)
    else if !execute then Call(w, Returned, Planned)
    else SubmitFresh(x, w, s, digest, simulateAckLoss)
  }

  function Submit(x: Context, w: World, execute: bool, simulateAckLoss: bool): Call<Submission> {
    var open := Open(x, w);
    if !open.exit.Returned? then Call(open.world, open.exit, NotReached)
    else SubmitActive(x, open.world, execute, simulateAckLoss)
  }

  // ----- reconciliation

  function ReconcileOne(x: Context, w: World, s: int): (r: Call<()>)
    requires s in w.submissions
    ensures w.submissions.Keys <= r.world.submissions.Keys
  {
    if Terminal(w.submissions[s].status) || !x.cfg.hasStatus then Call(w, Returned, ())
    else
      var reply, after := x.env(w.step), Interacted(x, w);
      if !reply.fate.Answered? then Call(after, ExitOf(reply.fate), ())
      else if reply.remote.status.None? || !Terminal(reply.remote.status.value) then Call(after, Returned, ())
      else
        var receipt := MakeReceipt(reply.remote, Digest(w.identity, s));
        if receipt.None? then Call(after, Failing, ()) else Persist(x, after, s, receipt.value)
  }

  /** Goes through `todo` in ascending order, stopping at the first fault. */
  ghost function ReconcileThrough(x: Context, w: World, todo: set<int>): Call<()>
    requires todo <= w.submissions.Keys
    decreases |todo|
  {
    if forall s :: s !in todo then Call(w, Returned, ())
    else
      LeastExists(todo);
      var s :| IsLeast(s, todo);
      var one := ReconcileOne(x, w, s);
      if one.exit.Returned? then ReconcileThrough(x, one.world, todo - {s}) else one
  }

  ghost function Reconcile(x: Context, w: World): Call<()> {
    var all := ReconcileThrough(x, w, w.submissions.Keys);
    if !all.exit.Returned? then all
    else Call(Interacted(x, all.world), ExitOf(x.env(all.world.step).fate), ())
  }

  // ----- rollover

  function ClosingEvents(active: Option<Segment>): seq<Event> {
    if active.Some? then [Flushed(active.value.sequence), Closed(active.value.sequence)] else []
  }

  /** Asks the run controller to flush; only an explicit flush counts. */
  function Checkpoint(x: Context, w: World): Call<bool> {
    var reply, after := x.env(w.step), Interacted(x, w);
    if reply.fate.Answered? && reply.flushed && w.active.Some?
    then Call(Logged(after, Flushed(w.active.value.sequence)), Returned, true)
    else Call(after, ExitOf(reply.fate), reply.flushed)
  }

  function Finish(x: Context, w: World): Call<()> {
    if w.active.None? then Call(w, Returned, ())
    else
      var fate, after := x.env(w.step).fate, Interacted(x, w);
      Call(if fate.Answered? then Logged(after.(active := None), Closed(w.active.value.sequence)) else after,
             ExitOf(fate), ())
  }

  /** Flush and close the active segment, if there is one; `false` means nothing was flushed. */
  function CloseActive(x: Context, w: World): Call<bool> {
    var flush := Checkpoint(x, w);
    if !flush.exit.Returned? || !flush.value then flush
    else
      var finish := Finish(x, flush.world);
      Call(finish.world, finish.exit, true)
  }

  /** Unless the run is about to end, open and submit a successor to the closed segment. */
  function Succeed(x: Context, was: Option<Segment>, closed: World): Call<TickReport> {
    var now := if closed.lastObserved.Some? then closed.lastObserved.value else closed.clock;
    if !ClearOfEnd(x.cfg, now) then Call(closed.(state := Finished), Returned, AtPlannedEnd)
    else
      var rolling := if was.Some? then Logged(closed, Rolling(now)) else closed;
      var submit := Submit(x, rolling, x.cfg.execute, false);
      Call(submit.world, submit.exit, if submit.exit.Returned? then RolledOver else Interrupted)
  }

  function CheckpointAndRoll(x: Context, w: World): Call<TickReport> {
    var close := CloseActive(x, w);
    if !close.exit.Returned? then Call(close.world, close.exit, Interrupted)
    else if !close.value then Call(close.world.(state := Blocked), Returned, CheckpointBlocked)
    else Succeed(x, w.active, close.world)
  }

  function Start(x: Context, w: World): Call<()> {
    if Ended(w.state) then Call(w, Returned, ())
    else
      var submit := Submit(x, w, x.cfg.execute, false);
      Call(submit.world, submit.exit, ())
  }

  /** Note the time, send a heartbeat and reconcile. */
  ghost function Observe(x: Context, w: World, now: int): Call<()> {
    var observed := Logged(w.(lastObserved := Some(now)), Ticked(now));
    var beat := Interacted(x, observed);
    if !x.env(observed.step).fate.Answered? then Call(beat, ExitOf(x.env(observed.step).fate), ())
    else Reconcile(x, beat)
  }

  /** The tick proper: roll over once no more than the guard is left. */
  ghost function TickActive(x: Context, w: World, now: int): Call<TickReport>
    requires w.active.Some?
  {
    var observed := Observe(x, w, now);
    if !observed.exit.Returned? then Call(observed.world, observed.exit, Interrupted)
    else if Deadline(x.cfg, w.active.value.startedAt) - now > x.cfg.guard
    then Call(observed.world, Returned, Continues)
    else CheckpointAndRoll(x, Logged(observed.world, Due(now, w.clock)))
  }

  /** The time a tick goes by: the one it is given, or the clock. */
  function TickTime(w: World, at: Option<int>): int { if at.Some? then at.value else w.clock }

  ghost function Tick(x: Context, w: World, at: Option<int>): Call<TickReport> {
    if Ended(w.state) then Call(w, Returned, Idle)
    else
      var start := if w.active.None? then Start(x, w) else Call(w, Returned, ());
      if !start.exit.Returned? || start.world.active.None? then Call(start.world, start.exit, Interrupted)
      else TickActive(x, start.world, TickTime(start.world, at))
  }

  function Stop(x: Context, w: World): Call<()> {
    if w.active.None? then Call(w.(state := Stopped), Returned, ())
    else
      var close := CloseActive(x, w);
      if close.exit.Returned?
      then Call(close.world.(state := if close.value then Stopped else Blocked), close.exit, ())
      else Call(close.world, close.exit, ())
  }

  // ----- a new process over the same files

  /** A record of a submission; `own` says that it is of the supervisor's own receipt type. */
  datatype Record = Record(own: bool, status: Status, jobId: Option<string>, digest: Option<Digest>,
                           fields: map<Field, Value>)

  /** What the run controller remembers: records and the segment still open, if any. */
  datatype Restored = Restored(records: map<int, Record>, resumed: Option<Segment>, nextSequence: int)

  /** A record as a receipt: only one of the supervisor's own type keeps a digest that it has,
      and what is missing is filled in, apart from the key. */
  function AsReceipt(identity: string, s: int, record: Record): Receipt {
    Receipt(record.status, record.jobId,
            if record.own && record.digest.Some? then record.digest.value else Digest(identity, s),
            ProperFields(identity, s) - {IdempotencyKey} + record.fields)
  }

  function Registered(identity: string, records: map<int, Record>): map<int, Receipt> {
    map s | s in records :: AsReceipt(identity, s, records[s])
  }

  /** The record names another run, or it is of the own type with another digest. */
  predicate NotOurs(identity: string, s: int, record: Record) {
    || (RunId in record.fields && record.fields[RunId] != Proper(identity, s))
    || (record.own && record.digest.Some? && record.digest != Some(Digest(identity, s)))
  }

  /** Records of another type never keep a process from starting by their digest. */
  lemma OnlyOwnRecordsAreForeign(identity: string, records: map<int, Record>, s: int)
    requires s in records
    ensures Foreign(Registered(identity, records)[s], identity, s) <==> NotOurs(identity, s, records[s])
  {
  }

  /** The receipt is of another run, or has another digest. */
  predicate Foreign(receipt: Receipt, identity: string, s: int) {
    || (RunId in receipt.fields && receipt.fields[RunId] != Proper(identity, s))
    || receipt.digest != Digest(identity, s)
  }

  /** Two records of one submission that name different jobs or differ in a lasting field. */
  predicate Disagree(a: Receipt, b: Receipt) {
    || (a.jobId.Some? && b.jobId.Some? && a.jobId != b.jobId)
    || exists f :: f in a.fields && f in b.fields && a.fields[f] != b.fields[f]
  }

  /** The records of segment `s` belong to this identity and do not disagree. */
  predicate Agrees(s: int, identity: string, remembered: map<int, Receipt>, stored: map<int, Receipt>) {
    && (s in remembered ==> !Foreign(remembered[s], identity, s))
    && (s in stored ==> !Foreign(stored[s], identity, s))
    && (s in remembered && s in stored ==> !Disagree(remembered[s], stored[s]))
  }

  ghost predicate Recoverable(identity: string, remembered: map<int, Receipt>, stored: map<int, Receipt>) {
    forall s :: s >= 1 && (s in remembered || s in stored) ==> Agrees(s, identity, remembered, stored)
  }

  /** None of the records belongs to somebody else. */
  ghost predicate AllOurs(identity: string, records: map<int, Record>) {
    forall s :: s >= 1 && s in records ==> !NotOurs(identity, s, records[s])
  }

  /** Records that are not this supervisor's keep it from starting, and with nothing on disk
      nothing else does. */
  lemma RecoverableMeansOurs(identity: string, records: map<int, Record>, stored: map<int, Receipt>)
    ensures Recoverable(identity, Registered(identity, records), stored) ==> AllOurs(identity, records)
    ensures stored == map[] && AllOurs(identity, records) ==>
              Recoverable(identity, Registered(identity, records), stored)
  {
    forall s | s in records
      ensures Foreign(Registered(identity, records)[s], identity, s) <==> NotOurs(identity, s, records[s])
    {
      OnlyOwnRecordsAreForeign(identity, records, s);
    }
    if Recoverable(identity, Registered(identity, records), stored) {
      forall s | s >= 1 && s in records ensures !NotOurs(identity, s, records[s]) {
        assert s in Registered(identity, records);
        assert Agrees(s, identity, Registered(identity, records), stored);
      }
    }
  }

  /** The two records merged, what is on disk winning; `next` is past all of them. */
  ghost predicate Merged(remembered: map<int, Receipt>, stored: map<int, Receipt>,
                         found: map<int, Receipt>, next: int) {
    && (forall s :: s in found <==> s >= 1 && (s in remembered || s in stored))
    && (forall s :: s in found ==> s < next && found[s] == if s in stored then stored[s] else remembered[s])
  }

  /** The state of a new process that found these submissions. */
  function Booted(w: World, identity: string, resumed: Option<Segment>, found: map<int, Receipt>, next: int): World {
    World(w.step, w.clock, w.intents, w.receipts, true, identity, resumed, next, found, map[],
          if resumed.Some? then Active else Created, None, w.history + [Restarted(resumed)])
  }

  /** A restart succeeds exactly if the records agree with this identity and each other. */
  ghost predicate Boots(w: World, identity: string, restored: Restored, booted: World) {
    if Recoverable(identity, Registered(identity, restored.records), w.receipts) then
      && Merged(Registered(identity, restored.records), w.receipts, booted.submissions, booted.nextSequence)
      && restored.nextSequence <= booted.nextSequence
      && booted == Booted(w, identity, restored.resumed, booted.submissions, booted.nextSequence)
    else booted == w.(alive := false)
  }
}

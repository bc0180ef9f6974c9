/**
  What a run of the segment supervisor leaves behind: the ordered list of things it
  stored, submitted, opened, closed and rolled over, across crashes and restarts.  A
  history is lawful when every event was allowed by the events before it; the
  properties a reader cares about are lemmas about lawful histories.
 */
module SegmentHistory {
  import opened Wrappers
  import opened Products

  datatype IntentStatus = Submitting | AckLost | Submitted

  /** `startedAt` is the start the run controller reports, or the supervisor's own clock;
      `openedAt` is what that clock said when the segment was opened. */
  datatype Segment = Segment(sequence: int, startedAt: int, openedAt: int)

  /** A tick goes by `now`, which a caller may give; `clock` is what the supervisor's own
      clock said at that moment. */
  datatype Event =
    | IntentStored(sequence: int, status: IntentStatus)
    | SubmitCalled(sequence: int)
    | ReceiptStored(sequence: int)
    | Opened(segment: Segment)
    | Ticked(now: int)
    | Due(now: int, clock: int)
    | Flushed(sequence: int)
    | Closed(sequence: int)
    | Rolling(now: int)
    | Restarted(resumed: Option<Segment>)

  /** The supervisor's settings.  Times are whole units of the clock. */
  datatype Config = Config(
    runRoot: bool,
    execute: bool,
    hasStatus: bool,
    hasSubmit: bool,
    segmentSeconds: int,
    guard: int,
    plannedEnd: Option<int>)

  function Min(a: int, b: int): int { if a < b then a else b }

  function Deadline(cfg: Config, startedAt: int): int {
    var end := startedAt + cfg.segmentSeconds;
    if cfg.plannedEnd.Some? then Min(end, cfg.plannedEnd.value) else end
  }

  predicate ClearOfEnd(cfg: Config, now: int) {
    cfg.plannedEnd.None? || cfg.plannedEnd.value - now > cfg.guard
  }

  predicate EndsWith(h: seq<Event>, e: Event) { h != [] && h[|h| - 1] == e }

  /** The intent files a history leaves on disk, by segment. */
  function IntentFiles(h: seq<Event>): map<int, IntentStatus> {
    if h == [] then map[]
    else
      var e, before := h[|h| - 1], IntentFiles(h[..|h| - 1]);
      if e.IntentStored? then before[e.sequence := e.status] else before
  }

  /** The segments with a receipt file. */
  function ReceiptFiles(h: seq<Event>): set<int> {
    if h == [] then {}
    else
      var e, before := h[|h| - 1], ReceiptFiles(h[..|h| - 1]);
      if e.ReceiptStored? then before + {e.sequence} else before
  }

  /** Every due time so far is no later than `t`. */
  predicate DueBy(h: seq<Event>, t: int) {
    h == [] || (DueBy(h[..|h| - 1], t) && (h[|h| - 1].Due? ==> h[|h| - 1].now <= t))
  }

  /** Whenever a segment was found due so far, the clock said no more than `t`. */
  predicate ReadBy(h: seq<Event>, t: int) {
    h == [] || (ReadBy(h[..|h| - 1], t) && (h[|h| - 1].Due? ==> h[|h| - 1].clock <= t))
  }

  /** The segment the supervisor regards as active. */
  function Running(h: seq<Event>): Option<Segment> {
    if h == [] then None
    else
      match h[|h| - 1]
      case Opened(segment) => Some(segment)
      case Closed(_) => None
      case Restarted(resumed) => resumed
      case _ => Running(h[..|h| - 1])
  }

  /** May `e` come next?  `timely` says that the clock never runs backwards. */
  ghost predicate Allowed(cfg: Config, timely: bool, h: seq<Event>, e: Event) {
    match e
    case IntentStored(s, Submitting) => s !in IntentFiles(h) && s !in ReceiptFiles(h)
    case IntentStored(s, AckLost) => EndsWith(h, SubmitCalled(s))
    case IntentStored(s, Submitted) => EndsWith(h, ReceiptStored(s))
    case SubmitCalled(s) => cfg.hasSubmit && (cfg.runRoot ==> EndsWith(h, IntentStored(s, Submitting)))
    case ReceiptStored(_) => true
    case Ticked(_) => true
    case Opened(segment) => Running(h) == None && (timely ==> ReadBy(h, segment.openedAt))
    case Due(now, _) => Running(h).Some? && Deadline(cfg, Running(h).value.startedAt) - now <= cfg.guard
    case Flushed(s) => Running(h).Some? && Running(h).value.sequence == s
    case Closed(s) => EndsWith(h, Flushed(s))
    case Rolling(now) => |h| >= 2 && h[|h| - 1].Closed? && ClearOfEnd(cfg, now) &&
      (|h| >= 3 && h[|h| - 3].Due? ==> h[|h| - 3].now == now)
    case Restarted(_) => true
  }

  ghost predicate Lawful(cfg: Config, timely: bool, h: seq<Event>) {
    h == [] || (Lawful(cfg, timely, h[..|h| - 1]) && Allowed(cfg, timely, h[..|h| - 1], h[|h| - 1]))
  }

  /** Everything the definitions above say about a history grown by one event. */
  lemma Append(cfg: Config, timely: bool, h: seq<Event>, e: Event)
    ensures Lawful(cfg, timely, h + [e]) <==> Lawful(cfg, timely, h) && Allowed(cfg, timely, h, e)
    ensures IntentFiles(h + [e]) == if e.IntentStored? then IntentFiles(h)[e.sequence := e.status] else IntentFiles(h)
    ensures ReceiptFiles(h + [e]) == if e.ReceiptStored? then ReceiptFiles(h) + {e.sequence} else ReceiptFiles(h)
    ensures forall t {:trigger ReadBy(h + [e], t)} :: ReadBy(h + [e], t) <==> ReadBy(h, t) && (e.Due? ==> e.clock <= t)
    ensures Running(h + [e]) == match e
                                case Opened(segment) => Some(segment)
                                case Closed(_) => None
                                case Restarted(resumed) => resumed
                                case _ => Running(h)
  {
    assert (h + [e])[..|h + [e]| - 1] == h;
  }

  lemma {:induction false} LawfulAt(cfg: Config, timely: bool, h: seq<Event>, i: nat)
    requires Lawful(cfg, timely, h) && i < |h|
    ensures Lawful(cfg, timely, h[..i]) && Allowed(cfg, timely, h[..i], h[i])
  {
    if i < |h| - 1 {
      var init := h[..|h| - 1];
      LawfulAt(cfg, timely, init, i);
      assert init[..i] == h[..i];
    }
  }

  lemma {:induction false} FilesRemembered(h: seq<Event>, k: nat)
    requires k < |h|
    ensures h[k].IntentStored? ==> h[k].sequence in IntentFiles(h)
    ensures h[k].ReceiptStored? ==> h[k].sequence in ReceiptFiles(h)
  {
    if k < |h| - 1 { FilesRemembered(h[..|h| - 1], k); }
  }

  lemma {:induction false} IntentComesFromHistory(h: seq<Event>, s: int) returns (k: nat)
    requires s in IntentFiles(h)
    ensures k < |h| && h[k] == IntentStored(s, IntentFiles(h)[s])
  {
    k := |h| - 1;
    if !(h[k].IntentStored? && h[k].sequence == s) {
      k := IntentComesFromHistory(h[..|h| - 1], s);
    }
  }

  lemma {:induction false} ReadByLater(h: seq<Event>, t: int, u: int)
    requires ReadBy(h, t) && t <= u
    ensures ReadBy(h, u)
  {
    if h != [] { ReadByLater(h[..|h| - 1], t, u); }
  }

  lemma {:induction false} DueByAt(h: seq<Event>, t: int, k: nat)
    requires DueBy(h, t) && k < |h| && h[k].Due?
    ensures h[k].now <= t
  {
    if k < |h| - 1 { DueByAt(h[..|h| - 1], t, k); }
  }

  // ----- submissions

  /** An intent marked submitted means the receipt is already stored. */
  lemma SubmittedHasReceipt(cfg: Config, timely: bool, h: seq<Event>, s: int)
    requires Lawful(cfg, timely, h) && s in IntentFiles(h) && IntentFiles(h)[s] == Submitted
    ensures s in ReceiptFiles(h)
  {
    var i := IntentComesFromHistory(h, s);
    LawfulAt(cfg, timely, h, i);
    FilesRemembered(h, i - 1);
  }

  /** Every call to the scheduler was announced by an intent on disk just before it. */
  lemma SubmitIsAnnounced(cfg: Config, timely: bool, h: seq<Event>, i: nat)
    requires cfg.runRoot && Lawful(cfg, timely, h) && i < |h| && h[i].SubmitCalled?
    ensures i > 0 && h[i - 1] == IntentStored(h[i].sequence, Submitting)
  {
    LawfulAt(cfg, timely, h, i);
  }

  /** With a run root, no segment is submitted twice, whatever happens between. */
  lemma AtMostOnce(cfg: Config, timely: bool, h: seq<Event>, i: nat, j: nat)
    requires cfg.runRoot && Lawful(cfg, timely, h)
    requires i < j < |h| && h[i].SubmitCalled? && h[j].SubmitCalled?
    ensures h[i].sequence != h[j].sequence
  {
    SubmitIsAnnounced(cfg, timely, h, i);
    SubmitIsAnnounced(cfg, timely, h, j);
    LawfulAt(cfg, timely, h, j - 1);
    if h[i].sequence == h[j].sequence {
      assert h[..j - 1][i - 1] == h[i - 1];
      FilesRemembered(h[..j - 1], i - 1);
    }
  }

  /** Once a receipt is stored, its segment is never submitted again. */
  lemma ReceiptEndsSubmission(cfg: Config, timely: bool, h: seq<Event>, i: nat, j: nat)
    requires cfg.runRoot && Lawful(cfg, timely, h)
    requires i < j < |h| && h[i].ReceiptStored? && h[j].SubmitCalled?
    ensures h[i].sequence != h[j].sequence
  {
    SubmitIsAnnounced(cfg, timely, h, j);
    LawfulAt(cfg, timely, h, j - 1);
    assert i < j - 1 && h[..j - 1][i] == h[i];
    FilesRemembered(h[..j - 1], i);
  }

  // ----- segments

  ghost predicate SameProcess(h: seq<Event>, i: nat, j: nat) {
    forall k :: i <= k < j && k < |h| ==> !h[k].Restarted?
  }

  /** Within one process a segment that was opened stays active until it is closed. */
  lemma {:induction false} RunningSince(cfg: Config, timely: bool, h: seq<Event>, i: nat)
    requires Lawful(cfg, timely, h) && i < |h| && h[i].Opened? && SameProcess(h, i, |h|)
    requires forall k :: i < k < |h| ==> !h[k].Closed?
    ensures Running(h) == Some(h[i].segment)
  {
    var init, e := h[..|h| - 1], h[|h| - 1];
    if i < |h| - 1 {
      RunningSince(cfg, timely, init, i);
    }
  }

  lemma StillRunning(cfg: Config, timely: bool, h: seq<Event>, i: nat, k: nat)
    requires Lawful(cfg, timely, h) && i < k <= |h| && h[i].Opened? && SameProcess(h, i, k)
    requires forall m :: i < m < k ==> !h[m].Closed?
    ensures Running(h[..k]) == Some(h[i].segment)
  {
    LawfulPrefix(cfg, timely, h, k);
    RunningSince(cfg, timely, h[..k], i);
  }

  /** A successor opens only after its predecessor was flushed and then closed. */
  lemma HandOff(cfg: Config, timely: bool, h: seq<Event>, i: nat, j: nat) returns (k: nat)
    requires Lawful(cfg, timely, h) && i < j < |h|
    requires h[i].Opened? && h[j].Opened? && SameProcess(h, i, j)
    ensures i < k - 1 && k < j
    ensures h[k] == Closed(h[i].segment.sequence) && h[k - 1] == Flushed(h[i].segment.sequence)
  {
    LawfulAt(cfg, timely, h, j);
    if forall m :: i < m < j ==> !h[m].Closed? {
      StillRunning(cfg, timely, h, i, j);
    }
    k := FirstClosed(h, i, j);
    ClosedAfterFlush(cfg, timely, h, k);
    LawfulAt(cfg, timely, h, k - 1);
    StillRunning(cfg, timely, h, i, k - 1);
  }

  lemma ClosedAfterFlush(cfg: Config, timely: bool, h: seq<Event>, k: nat)
    requires Lawful(cfg, timely, h) && k < |h| && h[k].Closed?
    ensures k > 0 && h[k - 1] == Flushed(h[k].sequence)
  {
    LawfulAt(cfg, timely, h, k);
  }

  lemma LawfulPrefix(cfg: Config, timely: bool, h: seq<Event>, i: nat)
    requires Lawful(cfg, timely, h) && i <= |h|
    ensures Lawful(cfg, timely, h[..i])
  {
    if i < |h| { LawfulAt(cfg, timely, h, i); } else { assert h[..i] == h; }
  }

  lemma FirstClosed(h: seq<Event>, i: nat, j: nat) returns (k: nat)
    requires i < j <= |h| && h[i].Opened? && exists m :: i < m < j && h[m].Closed?
    ensures i < k < j && h[k].Closed? && forall m :: i < m < k ==> !h[m].Closed?
  {
    k := i + 1;
    while !h[k].Closed?
      invariant i < k < j && forall m :: i < m < k ==> !h[m].Closed?
      decreases j - k
    {
      k := k + 1;
    }
  }

  // ----- pace

  /** At `r` a tick found the segment due, flushed and closed it, and opened a successor. */
  ghost predicate RollsOver(h: seq<Event>, r: nat) {
    && r + 4 < |h|
    && h[r].Due? && h[r + 1].Flushed? && h[r + 2].Closed? && h[r + 3].Rolling? && h[r + 4].Opened?
  }

  /** No segment was opened with a start before a tick that found an earlier one due. */
  ghost predicate FreshStarts(h: seq<Event>) {
    forall k :: 0 <= k < |h| && h[k].Opened? ==> DueBy(h[..k], h[k].segment.startedAt)
  }

  /** Every segment was opened with a start no earlier than the moment of opening. */
  ghost predicate NoneBackdated(h: seq<Event>) {
    forall k :: 0 <= k < |h| && h[k].Opened? ==> h[k].segment.openedAt <= h[k].segment.startedAt
  }

  /** No segment was found due at a time ahead of the clock. */
  ghost predicate NoneAhead(h: seq<Event>) {
    forall k :: 0 <= k < |h| && h[k].Due? ==> h[k].now <= h[k].clock
  }

  lemma {:induction false} DueWhenRead(h: seq<Event>, t: int, u: int)
    requires NoneAhead(h) && ReadBy(h, t) && t <= u
    ensures DueBy(h, u)
  {
    if h != [] { DueWhenRead(h[..|h| - 1], t, u); }
  }

  /** With a clock that never goes back and no tick ahead of it, segments that are not
      backdated start fresh. */
  lemma FreshUnlessBackdated(cfg: Config, h: seq<Event>)
    requires Lawful(cfg, true, h) && NoneBackdated(h) && NoneAhead(h)
    ensures FreshStarts(h)
  {
    forall k | 0 <= k < |h| && h[k].Opened? ensures DueBy(h[..k], h[k].segment.startedAt) {
      LawfulAt(cfg, true, h, k);
      DueWhenRead(h[..k], h[k].segment.openedAt, h[k].segment.startedAt);
    }
  }

  /** A segment with this start can be rolled over at `now`. */
  predicate Rollable(cfg: Config, startedAt: int, now: int) {
    Deadline(cfg, startedAt) - now <= cfg.guard && ClearOfEnd(cfg, now)
  }

  /** Exactly when a successor's start keeps the next rollover at its distance from the last,
      whenever it comes: it is no earlier than the last one, or the planned end is so near
      that there is no next one. */
  lemma DistanceMeaning(cfg: Config, startedAt: int, rolled: int)
    ensures (forall now :: Rollable(cfg, startedAt, now) ==> now - rolled >= cfg.segmentSeconds - cfg.guard) <==>
            rolled <= startedAt || !ClearOfEnd(cfg, startedAt + cfg.segmentSeconds - cfg.guard)
  {
    var first := startedAt + cfg.segmentSeconds - cfg.guard;
    if startedAt < rolled && ClearOfEnd(cfg, first) { assert Rollable(cfg, startedAt, first); }
  }

  /** In one process, what is active later was opened no earlier than an earlier tick. */
  lemma {:induction false} StartedAfter(cfg: Config, timely: bool, h: seq<Event>, m: nat, now: int)
    requires Lawful(cfg, timely, h) && m < |h| && h[m].Opened? && SameProcess(h, m, |h|)
    requires forall k :: m <= k < |h| && h[k].Opened? ==> now <= h[k].segment.startedAt
    ensures Running(h).Some? ==> now <= Running(h).value.startedAt
  {
    if m < |h| - 1 {
      StartedAfter(cfg, timely, h[..|h| - 1], m, now);
    }
  }

  /** What was opened after a due tick started at or after it. */
  lemma OpenedAfterTick(h: seq<Event>, r: nat, k: nat)
    requires FreshStarts(h) && r < k < |h| && h[r].Due? && h[k].Opened?
    ensures h[r].now <= h[k].segment.startedAt
  {
    DueByAt(h[..k], h[k].segment.startedAt, r);
  }

  /** If segments start fresh, two rollovers of one process are at least a segment minus the
      guard apart, and neither opens a segment within the guard of the planned end. */
  lemma RolloverGap(cfg: Config, timely: bool, h: seq<Event>, r: nat, q: nat)
    requires Lawful(cfg, timely, h) && FreshStarts(h)
    requires r + 4 < q && RollsOver(h, r) && RollsOver(h, q) && SameProcess(h, r, q)
    ensures h[q].now - h[r].now >= cfg.segmentSeconds - cfg.guard
    ensures ClearOfEnd(cfg, h[q].now) && ClearOfEnd(cfg, h[r].now)
  {
    RolloverIsClear(cfg, timely, h, r);
    RolloverIsClear(cfg, timely, h, q);
    LawfulAt(cfg, timely, h, q);
    forall k | r + 4 <= k < q && h[k].Opened? ensures h[r].now <= h[k].segment.startedAt {
      OpenedAfterTick(h, r, k);
    }
    var before := h[..q];
    StartedAfter(cfg, timely, before, r + 4, h[r].now);
  }

  lemma RolloverIsClear(cfg: Config, timely: bool, h: seq<Event>, r: nat)
    requires Lawful(cfg, timely, h) && RollsOver(h, r)
    ensures ClearOfEnd(cfg, h[r].now) && h[r + 3] == Rolling(h[r].now)
  {
    LawfulAt(cfg, timely, h, r + 3);
    assert h[..r + 3][r] == h[r];
  }

  /** The time a tick sees left before the guard of the planned end. */
  function Slack(cfg: Config, now: int): int
    requires cfg.plannedEnd.Some?
  {
    cfg.plannedEnd.value - cfg.guard - now
  }

  /** A tick rolls over only if it sees time left before the guard of the planned end; the
      successor opens clear of that guard exactly if reconciling, flushing and closing took
      less than that. */
  lemma OpeningIsClear(cfg: Config, timely: bool, h: seq<Event>, r: nat)
    requires Lawful(cfg, timely, h) && RollsOver(h, r) && cfg.plannedEnd.Some?
    ensures Slack(cfg, h[r].now) > 0
    ensures ClearOfEnd(cfg, h[r + 4].segment.openedAt) <==>
            h[r + 4].segment.openedAt - h[r].now < Slack(cfg, h[r].now)
  {
    RolloverIsClear(cfg, timely, h, r);
  }

  ghost predicate Rollovers(h: seq<Event>, at: seq<nat>) {
    && (forall k :: 0 <= k < |at| ==> RollsOver(h, at[k]))
    && (forall k :: 0 <= k < |at| - 1 ==> at[k] + 4 < at[k + 1])
    && (|at| > 0 ==> SameProcess(h, at[0], at[|at| - 1]))
  }

  lemma AllButLastRollover(h: seq<Event>, at: seq<nat>)
    requires Rollovers(h, at) && |at| > 1
    ensures Rollovers(h, at[..|at| - 1]) && SameProcess(h, at[|at| - 2], at[|at| - 1])
  {
    AscendingPositions(at, 0, |at| - 2);
  }

  /** k rollovers after the first one take at least k times a segment minus the guard. */
  lemma {:induction false} RolloverRate(cfg: Config, timely: bool, h: seq<Event>, at: seq<nat>)
    requires Lawful(cfg, timely, h) && FreshStarts(h) && Rollovers(h, at) && at != []
    ensures h[at[|at| - 1]].now - h[at[0]].now >= (|at| - 1) * (cfg.segmentSeconds - cfg.guard)
  {
    if |at| > 1 {
      var n, gap := |at| - 1, cfg.segmentSeconds - cfg.guard;
      AllButLastRollover(h, at);
      RolloverRate(cfg, timely, h, at[..n]);
      RolloverGap(cfg, timely, h, at[n - 1], at[n]);
      ProductStep(n - 1, gap);
      assert at[..n][0] == at[0] && at[..n][n - 1] == at[n - 1];
    }
  }

  lemma AscendingPositions(at: seq<nat>, i: nat, j: nat)
    requires i <= j < |at| && forall k :: 0 <= k < |at| - 1 ==> at[k] + 4 < at[k + 1]
    ensures at[i] <= at[j] && (j + 1 < |at| ==> at[j] < at[j + 1])
  {
    if i < j { AscendingPositions(at, i, j - 1); }
  }
}

/**
  The pace of rollovers over whole runs, and what it takes: ticks may be given any time, and
  time passes between a tick's look at the clock and the opening of the next segment.
 */
module SupervisorPace {
  import opened Wrappers
  import opened SegmentHistory
  import opened SupervisorSpec
  import opened SupervisorSafety

  /** Over any run in which segments start fresh, the rollovers of one process keep their
      distance: k after the first take at least k times a segment minus the guard. */
  lemma RolloversKeepTheirDistance(x: Context, worlds: seq<World>, commands: seq<Command>, at: seq<nat>)
    requires IsRun(x, worlds, commands) && FreshStarts(worlds[|worlds| - 1].history)
    requires at != [] && Rollovers(worlds[|worlds| - 1].history, at)
    ensures var h := worlds[|worlds| - 1].history;
      && h[at[|at| - 1]].now - h[at[0]].now >= (|at| - 1) * (x.cfg.segmentSeconds - x.cfg.guard)
      && ClearOfEnd(x.cfg, h[at[|at| - 1]].now)
  {
    RunKeeps(x, worlds, commands, |worlds| - 1);
    RolloverRate(x.cfg, x.timely, worlds[|worlds| - 1].history, at);
    RolloverIsClear(x.cfg, x.timely, worlds[|worlds| - 1].history, at[|at| - 1]);
  }

  /** Segments start fresh in every run whose clock never goes back, whose ticks do not run
      ahead of it, and whose run controller backdates none of them. */
  lemma RunsStartFresh(x: Context, worlds: seq<World>, commands: seq<Command>)
    requires IsRun(x, worlds, commands) && x.timely
    requires NoneBackdated(worlds[|worlds| - 1].history) && NoneAhead(worlds[|worlds| - 1].history)
    ensures FreshStarts(worlds[|worlds| - 1].history)
  {
    RunKeeps(x, worlds, commands, |worlds| - 1);
    FreshUnlessBackdated(x.cfg, worlds[|worlds| - 1].history);
  }

  // ----- rollovers in a world where all goes well

  /** Nothing was ever submitted or announced. */
  ghost predicate Untouched(w: World) {
    w.submissions == map[] && w.receipts == map[] && w.intents == map[]
  }

  function Prompt(delay: nat): Reply { Reply(Answered, delay, Remote(None, None), None, None, true) }

  ghost const REFUSAL := Reply(Raised(false), 0, Remote(None, None), None, None, false)

  /** Submitting a segment about which nothing is known calls the outside. */
  predicate Asks(cfg: Config) { cfg.execute && (cfg.runRoot || cfg.hasSubmit) }

  /** From step `n` on, five calls are answered, the first after `delay`, and the next one, if
      it is for a submission, is refused. */
  ghost predicate Obliging(x: Context, n: nat, delay: nat) {
    && x.timely && x.env(n) == Prompt(delay) && (forall k: nat :: n < k < n + 5 ==> x.env(k) == Prompt(0))
    && (Asks(x.cfg) ==> x.env(n + 5) == REFUSAL)
  }

  lemma ObserveOnly(x: Context, w: World, now: int, delay: nat)
    requires Obliging(x, w.step, delay) && w.alive && w.active.Some? && w.submissions == map[]
    ensures Observe(x, w, now) ==
      Call(Logged(w.(lastObserved := Some(now)), Ticked(now)).(step := w.step + 2, clock := w.clock + delay),
           Returned, ())
  {
    var observed := Logged(w.(lastObserved := Some(now)), Ticked(now));
    var beat := Interacted(x, observed);
    assert Reconcile(x, beat) == Call(Interacted(x, beat), Returned, ());
  }

  lemma CloseOnly(x: Context, w: World)
    requires x.timely && w.alive && w.active.Some?
    requires x.env(w.step) == x.env(w.step + 1) == Prompt(0)
    ensures CloseActive(x, w) ==
      Call(w.(step := w.step + 2, active := None, history := w.history + ClosingEvents(w.active)), Returned, true)
  {
    ClosingInTwo(w.history, w.active);
  }

  /** What a rollover adds to the history. */
  function RolloverEvents(was: Option<Segment>, due: Event, next: Segment): seq<Event>
    requires due.Due?
  {
    [due] + ClosingEvents(was) + [Rolling(due.now)] + [Opened(next)]
  }

  /** The world once a rollover has opened the successor. */
  ghost function Successor(w: World, now: int, delay: nat): World {
    var next := Segment(w.nextSequence, w.clock + delay, w.clock + delay);
    w.(step := w.step + 5, clock := w.clock + delay, lastObserved := Some(now), active := Some(next),
       nextSequence := w.nextSequence + 1, state := Active,
       history := w.history + [Ticked(now)] + RolloverEvents(w.active, Due(now, w.clock), next))
  }

  lemma RollsOnce(x: Context, w: World, now: int, delay: nat)
    requires Obliging(x, w.step, delay) && w.alive && w.active.Some? && Untouched(w)
    requires Deadline(x.cfg, w.active.value.startedAt) - now <= x.cfg.guard && ClearOfEnd(x.cfg, now)
    ensures TickActive(x, w, now).world == SubmitActive(x, Successor(w, now, delay), x.cfg.execute, false).world
  {
    ObserveOnly(x, w, now, delay);
    var due := Logged(Observe(x, w, now).world, Due(now, w.clock));
    CloseOnly(x, due);
    var rolling := Logged(CloseActive(x, due).world, Rolling(now));
    var open := Open(x, rolling);
    assert open.world.history == Successor(w, now, delay).history;
    assert open == Call(Successor(w, now, delay), Returned, ());
  }

  /** What a refused submission leaves behind. */
  ghost function Refused(cfg: Config, w: World): World
    requires w.active.Some?
  {
    if !Asks(cfg) then w
    else if cfg.runRoot then w.(step := w.step + 1)
    else Logged(w.(step := w.step + 1), SubmitCalled(w.active.value.sequence))
  }

  lemma RefusedOnce(x: Context, w: World)
    requires x.timely && w.alive && w.active.Some? && Untouched(w) && (Asks(x.cfg) ==> x.env(w.step) == REFUSAL)
    ensures SubmitActive(x, w, x.cfg.execute, false).world == Refused(x.cfg, w)
  {
  }

  /** A tick that finds the active segment due, away from the planned end. */
  lemma TickRollsOver(x: Context, w: World, at: Option<int>, delay: nat)
    requires Obliging(x, w.step, delay) && w.alive && w.active.Some? && !Ended(w.state) && Untouched(w)
    requires Deadline(x.cfg, w.active.value.startedAt) - TickTime(w, at) <= x.cfg.guard
    requires ClearOfEnd(x.cfg, TickTime(w, at))
    ensures Does(x, w, TickCommand(at), Refused(x.cfg, Successor(w, TickTime(w, at), delay)))
  {
    RollsOnce(x, w, TickTime(w, at), delay);
    RefusedOnce(x, Successor(w, TickTime(w, at), delay));
  }

  /** A process that starts at `clock` and resumes this segment. */
  ghost function Resumed(clock: int, segment: Segment): World {
    Booted(EMPTY.(clock := clock), "", Some(segment), map[], 1)
  }

  lemma Resumes(x: Context, clock: int, segment: Segment)
    ensures Does(x, EMPTY.(clock := clock), Boot("", Restored(map[], Some(segment), 1)), Resumed(clock, segment))
  {
    assert Registered("", map[]) == map[];
    assert Merged(map[], map[], map[], 1);
  }

  // ----- ticks ahead of the clock

  ghost predicate KeepsDistance(cfg: Config, h: seq<Event>) {
    forall r: nat, q: nat :: r + 4 < q && RollsOver(h, r) && RollsOver(h, q) && SameProcess(h, r, q) ==>
      h[q].now - h[r].now >= cfg.segmentSeconds - cfg.guard
  }

  /** Every run keeps its distance whose clock never goes back and whose run controller
      backdates nothing, whatever times its ticks are given. */
  ghost predicate PaceNeedsNoClock(cfg: Config) {
    forall x: Context, worlds: seq<World>, commands: seq<Command> ::
      IsRun(x, worlds, commands) && x.cfg == cfg && x.timely && NoneBackdated(worlds[|worlds| - 1].history) ==>
        KeepsDistance(cfg, worlds[|worlds| - 1].history)
  }

  /** Everything is answered at once, apart from submissions, which are refused. */
  ghost function Ahead(cfg: Config): Context {
    Context(cfg, true, n => if Asks(cfg) && (n == 5 || n == 11) then REFUSAL else Prompt(0))
  }

  /** Two ticks ahead of the clock, the second by a time before the first. */
  ghost function AheadWorlds(cfg: Config, clock: int, now: int): seq<World> {
    var resumed := Resumed(clock, Segment(0, clock, clock));
    var once := Refused(cfg, Successor(resumed, now + 1, 0));
    [EMPTY.(clock := clock), resumed, once, Refused(cfg, Successor(once, now, 0))]
  }

  function AheadCommands(clock: int, now: int): seq<Command> {
    [Boot("", Restored(map[], Some(Segment(0, clock, clock)), 1)), TickCommand(Some(now + 1)), TickCommand(Some(now))]
  }

  lemma AheadIsARun(cfg: Config, clock: int, now: int)
    requires clock + cfg.segmentSeconds - now <= cfg.guard && ClearOfEnd(cfg, now + 1)
    ensures IsRun(Ahead(cfg), AheadWorlds(cfg, clock, now), AheadCommands(clock, now))
  {
    var x, worlds, commands := Ahead(cfg), AheadWorlds(cfg, clock, now), AheadCommands(clock, now);
    Resumes(x, clock, Segment(0, clock, clock));
    AheadOnce(cfg, clock, now);
    AheadTwice(cfg, clock, now);
    assert Does(x, worlds[0], commands[0], worlds[1]) && Does(x, worlds[1], commands[1], worlds[2]);
  }

  lemma AheadOnce(cfg: Config, clock: int, now: int)
    requires clock + cfg.segmentSeconds - now <= cfg.guard && ClearOfEnd(cfg, now + 1)
    ensures var worlds := AheadWorlds(cfg, clock, now);
      Does(Ahead(cfg), worlds[1], TickCommand(Some(now + 1)), worlds[2])
  {
    var resumed := Resumed(clock, Segment(0, clock, clock));
    TickRollsOver(Ahead(cfg), resumed, Some(now + 1), 0);
  }

  lemma AheadTwice(cfg: Config, clock: int, now: int)
    requires clock + cfg.segmentSeconds - now <= cfg.guard && ClearOfEnd(cfg, now + 1)
    ensures var worlds := AheadWorlds(cfg, clock, now);
      Does(Ahead(cfg), worlds[2], TickCommand(Some(now)), worlds[3])
  {
    var once := Refused(cfg, Successor(Resumed(clock, Segment(0, clock, clock)), now + 1, 0));
    TickRollsOver(Ahead(cfg), once, Some(now), 0);
  }

  lemma RolloverSits(before: seq<Event>, was: Segment, due: Event, next: Segment, rest: seq<Event>)
    requires due.Due?
    ensures var h := before + RolloverEvents(Some(was), due, next) + rest;
      RollsOver(h, |before|) && h[|before|] == due && h[|before| + 4] == Opened(next)
  {
    var events := RolloverEvents(Some(was), due, next);
    var h := before + events + rest;
    assert events == [due, Flushed(was.sequence), Closed(was.sequence), Rolling(due.now), Opened(next)];
    assert forall k :: 0 <= k < 5 ==> h[|before| + k] == events[k];
  }

  /** The events of a submission that is refused. */
  ghost function RefusedEvents(cfg: Config, s: int): seq<Event> {
    if Asks(cfg) && !cfg.runRoot then [SubmitCalled(s)] else []
  }

  function TickEvents(was: Segment, due: Event, next: Segment): seq<Event>
    requires due.Due?
  {
    [Ticked(due.now)] + RolloverEvents(Some(was), due, next)
  }

  ghost function AheadHistory(cfg: Config, clock: int, now: int): seq<Event> {
    var first, second, third := Segment(0, clock, clock), Segment(1, clock, clock), Segment(2, clock, clock);
    [Restarted(Some(first))] +
    (TickEvents(first, Due(now + 1, clock), second) + RefusedEvents(cfg, 1)
     + TickEvents(second, Due(now, clock), third) + RefusedEvents(cfg, 2))
  }

  lemma Regroup(start: seq<Event>, a: seq<Event>, b: seq<Event>, c: seq<Event>, d: seq<Event>)
    ensures start + (a + b) + (c + d) == start + (a + b + c + d)
    ensures start + a + (b + c + d) == start + (a + b + c + d)
    ensures (start + a + b) + c + d == start + (a + b + c + d)
  {
  }

  /** The world after a tick that rolled over and a refused submission, and what it added. */
  lemma TickLeaves(cfg: Config, w: World, now: int, delay: nat) returns (after: World, added: seq<Event>)
    requires w.active.Some?
    ensures after == Refused(cfg, Successor(w, now, delay)) && after.history == w.history + added
    ensures var next := Segment(w.nextSequence, w.clock + delay, w.clock + delay);
      && after.active == Some(next) && after.nextSequence == w.nextSequence + 1 && after.clock == w.clock + delay
      && added == TickEvents(w.active.value, Due(now, w.clock), next) + RefusedEvents(cfg, w.nextSequence)
  {
    var next := Segment(w.nextSequence, w.clock + delay, w.clock + delay);
    after := Refused(cfg, Successor(w, now, delay));
    added := TickEvents(w.active.value, Due(now, w.clock), next) + RefusedEvents(cfg, w.nextSequence);
    var events := RolloverEvents(w.active, Due(now, w.clock), next);
    assert w.history + [Ticked(now)] + events == w.history + TickEvents(w.active.value, Due(now, w.clock), next);
  }

  lemma AheadLeaves(cfg: Config, clock: int, now: int)
    ensures AheadWorlds(cfg, clock, now)[3].history == AheadHistory(cfg, clock, now)
  {
    var first, second, third := Segment(0, clock, clock), Segment(1, clock, clock), Segment(2, clock, clock);
    var resumed := Resumed(clock, first);
    var once, added := TickLeaves(cfg, resumed, now + 1, 0);
    var twice, more := TickLeaves(cfg, once, now, 0);
    assert resumed.history == [Restarted(Some(first))];
    Regroup(resumed.history, TickEvents(first, Due(now + 1, clock), second), RefusedEvents(cfg, 1),
            TickEvents(second, Due(now, clock), third), RefusedEvents(cfg, 2));
  }

  /** No restart, and no segment with a start before its opening. */
  ghost predicate Steady(events: seq<Event>) {
    forall k :: 0 <= k < |events| ==> SteadyEvent(events[k])
  }

  ghost predicate SteadyEvent(e: Event) {
    !e.Restarted? && (e.Opened? ==> e.segment.openedAt <= e.segment.startedAt)
  }

  lemma SteadyTick(was: Segment, due: Event, next: Segment)
    requires due.Due? && next.openedAt <= next.startedAt
    ensures Steady(TickEvents(was, due, next))
  {
  }

  lemma SteadyConcat(a: seq<Event>, b: seq<Event>)
    requires Steady(a) && Steady(b)
    ensures Steady(a + b)
  {
  }

  lemma SteadyAfterStart(start: Event, events: seq<Event>)
    requires start.Restarted? && Steady(events)
    ensures NoneBackdated([start] + events) && SameProcess([start] + events, 1, |events| + 1)
  {
    var h := [start] + events;
    assert forall k :: 1 <= k < |h| ==> h[k] == events[k - 1];
  }

  lemma AheadIsSteady(cfg: Config, clock: int, now: int)
    ensures var h := AheadHistory(cfg, clock, now); NoneBackdated(h) && SameProcess(h, 1, |h|)
  {
    var first, second, third := Segment(0, clock, clock), Segment(1, clock, clock), Segment(2, clock, clock);
    var one, two := TickEvents(first, Due(now + 1, clock), second), TickEvents(second, Due(now, clock), third);
    SteadyTick(first, Due(now + 1, clock), second);
    SteadyTick(second, Due(now, clock), third);
    SteadyConcat(one, RefusedEvents(cfg, 1));
    SteadyConcat(one + RefusedEvents(cfg, 1), two);
    SteadyConcat(one + RefusedEvents(cfg, 1) + two, RefusedEvents(cfg, 2));
    SteadyAfterStart(Restarted(Some(first)), one + RefusedEvents(cfg, 1) + two + RefusedEvents(cfg, 2));
  }

  lemma TickSits(before: seq<Event>, was: Segment, due: Event, next: Segment, rest: seq<Event>)
    requires due.Due?
    ensures var h, r := before + TickEvents(was, due, next) + rest, |before| + 1;
      RollsOver(h, r) && h[r] == due && h[r + 4] == Opened(next)
  {
    RolloverSits(before + [Ticked(due.now)], was, due, next, rest);
    assert before + [Ticked(due.now)] + RolloverEvents(Some(was), due, next) == before + TickEvents(was, due, next);
  }

  lemma AheadRollsTwice(cfg: Config, clock: int, now: int) returns (q: nat)
    ensures var h := AheadHistory(cfg, clock, now);
      RollsOver(h, 2) && h[2].now == now + 1 && q > 6 && RollsOver(h, q) && h[q].now == now
  {
    var first, second, third := Segment(0, clock, clock), Segment(1, clock, clock), Segment(2, clock, clock);
    var start, a, b := [Restarted(Some(first))], TickEvents(first, Due(now + 1, clock), second), RefusedEvents(cfg, 1);
    var c, d := TickEvents(second, Due(now, clock), third), RefusedEvents(cfg, 2);
    Regroup(start, a, b, c, d);
    TickSits(start, first, Due(now + 1, clock), second, b + c + d);
    TickSits(start + a + b, second, Due(now, clock), third, d);
    q := |start + a + b| + 1;
  }

  lemma AheadBreaks(cfg: Config, clock: int, now: int)
    requires cfg.guard <= cfg.segmentSeconds
    ensures NoneBackdated(AheadHistory(cfg, clock, now)) && !KeepsDistance(cfg, AheadHistory(cfg, clock, now))
  {
    var h := AheadHistory(cfg, clock, now);
    AheadIsSteady(cfg, clock, now);
    var q := AheadRollsTwice(cfg, clock, now);
    assert SameProcess(h, 2, q) && h[q].now - h[2].now < cfg.segmentSeconds - cfg.guard;
  }

  lemma AheadRun(cfg: Config) returns (x: Context, worlds: seq<World>, commands: seq<Command>)
    requires cfg.guard <= cfg.segmentSeconds
    ensures IsRun(x, worlds, commands) && x.cfg == cfg && x.timely && NoneBackdated(worlds[|worlds| - 1].history)
    ensures !KeepsDistance(cfg, worlds[|worlds| - 1].history)
  {
    var clock := if cfg.plannedEnd.Some? then cfg.plannedEnd.value - cfg.segmentSeconds - 2 else 0;
    var now := clock + cfg.segmentSeconds - cfg.guard;
    x, worlds, commands := Ahead(cfg), AheadWorlds(cfg, clock, now), AheadCommands(clock, now);
    AheadIsARun(cfg, clock, now);
    AheadLeaves(cfg, clock, now);
    AheadBreaks(cfg, clock, now);
    assert |worlds| - 1 == 3;
  }

  /** Without a bound on the times that ticks are given the distance is never sure: for all
      settings there is a run with a steady clock and nothing backdated whose second rollover
      goes by an earlier time than its first. */
  lemma TicksAheadBreakPace(cfg: Config)
    requires cfg.guard <= cfg.segmentSeconds
    ensures !PaceNeedsNoClock(cfg)
  {
    var x, worlds, commands := AheadRun(cfg);
  }

  // ----- openings near the planned end

  /** The successors that rollovers open are clear of the planned end. */
  ghost predicate AllOpenClear(cfg: Config, h: seq<Event>) {
    forall r: nat :: RollsOver(h, r) ==> ClearOfEnd(cfg, h[r + 4].segment.openedAt)
  }

  ghost predicate OpensClear(cfg: Config) {
    forall x: Context, worlds: seq<World>, commands: seq<Command> ::
      IsRun(x, worlds, commands) && x.cfg == cfg ==> AllOpenClear(cfg, worlds[|worlds| - 1].history)
  }

  /** One unit of time passes while the run controller is asked. */
  ghost function Slow(cfg: Config): Context {
    Context(cfg, true, n => if Asks(cfg) && n == 5 then REFUSAL else Prompt(if n == 0 then 1 else 0))
  }

  /** A segment that is due when one unit is left before the guard of the planned end. */
  ghost function LateSegment(cfg: Config, clock: int): Segment {
    Segment(0, clock + cfg.guard - cfg.segmentSeconds, 0)
  }

  ghost function SlowWorlds(cfg: Config, clock: int): seq<World> {
    var resumed := Resumed(clock, LateSegment(cfg, clock));
    [EMPTY.(clock := clock), resumed, Refused(cfg, Successor(resumed, clock, 1))]
  }

  lemma SlowIsARun(cfg: Config, clock: int) returns (commands: seq<Command>)
    requires ClearOfEnd(cfg, clock)
    ensures IsRun(Slow(cfg), SlowWorlds(cfg, clock), commands)
  {
    var x, worlds, segment := Slow(cfg), SlowWorlds(cfg, clock), LateSegment(cfg, clock);
    commands := [Boot("", Restored(map[], Some(segment), 1)), TickCommand(None)];
    Resumes(x, clock, segment);
    TickRollsOver(x, Resumed(clock, segment), None, 1);
    assert Does(x, worlds[0], commands[0], worlds[1]) && Does(x, worlds[1], commands[1], worlds[2]);
  }

  lemma SlowOpensLate(cfg: Config, clock: int)
    requires !ClearOfEnd(cfg, clock + 1)
    ensures !AllOpenClear(cfg, SlowWorlds(cfg, clock)[2].history)
  {
    var segment, next := LateSegment(cfg, clock), Segment(1, clock + 1, clock + 1);
    var start, h := [Restarted(Some(segment))], SlowWorlds(cfg, clock)[2].history;
    var after, added := TickLeaves(cfg, Resumed(clock, segment), clock, 1);
    assert Resumed(clock, segment).history == start;
    TickSits(start, segment, Due(clock, clock), next, RefusedEvents(cfg, 1));
    assert h == start + TickEvents(segment, Due(clock, clock), next) + RefusedEvents(cfg, 1);
  }

  /** Exactly when rollovers always open clear of the planned end: when there is none.  The
      check goes by the time of the tick, and the opening comes after. */
  lemma OpensClearMeaning(cfg: Config)
    ensures OpensClear(cfg) <==> cfg.plannedEnd.None?
  {
    if cfg.plannedEnd.Some? {
      var clock := cfg.plannedEnd.value - cfg.guard - 1;
      var commands := SlowIsARun(cfg, clock);
      SlowOpensLate(cfg, clock);
      assert SlowWorlds(cfg, clock)[|SlowWorlds(cfg, clock)| - 1] == SlowWorlds(cfg, clock)[2];
    }
  }
}

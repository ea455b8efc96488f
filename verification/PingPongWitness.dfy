/** Runs that exist: games that keep pace and are lost as the timing tests say, and a
    Pong that was done and fails. */
module PingPongWitness {
  import opened Base
  import opened StreamQueue
  import opened Timers
  import opened Pipeline
  import opened PingPong
  import opened PingPongTree
  import opened InFlight
  import opened PingPongSafety
  import opened PingPongSteps
  import opened PingPongRuns
  import opened PingPongProgress
  import opened PingPongBounds
  import opened PingPongFinish
  import opened PingPongTimes
  import opened PingPongLate
  import TimeoutManagers

  // ---------------------------------------------------------------------------
  // Games that keep pace

  /** What is left to do is done before the next tick, with handlers one unit of time
      apart. */
  ghost predicate HasTime(w: World, clock: Clock) {
    && clock.tick <= clock.now && clock.now + Cost(w) <= clock.tick + clock.gap
    && Cost(w) <= 117 <= clock.gap
  }

  /** The next thing to do in a system that has not settled. */
  ghost function NextTask(w: World, clock: Clock): (e: Event)
    requires !Settled(w)
    ensures Enabled(w, e) && InPace(w, e, clock) && !e.TickAt?
  {
    if w.outbox != [] then Emit
    else if Head(w.signals).Some? then Dispatch(clock.now + 1, clock.now + 1)
    else if w.pipe.lane != [] then RouteOne
    else ReceiveOne
  }

  lemma StepPays(c: Cast, w: World, e: Event)
    requires UnderWay(c, w) && Enabled(w, e)
    ensures Next(c, w, e).Some? && UnderWay(c, Next(c, w, e).value)
    ensures Cost(Next(c, w, e).value) + (if e.TickAt? then 0 else 1) <= Cost(w)
  {
    var m, p, q := TheStates(c, w);
    StepCost(c, w, e, m, p, q);
    assert Work([e]) == if e.TickAt? then 0 else 1;
    var m', p', q' := PlayingStep(c, w, e, m, p, q);
  }

  lemma TaskDone(c: Cast, holder: Game, w: World, clock: Clock)
    requires UnderWay(c, w) && Doomed(c, holder, w, clock) && HasTime(w, clock) && !Settled(w)
    ensures var e := NextTask(w, clock);
            Next(c, w, e).Some?
            && var w1, later := Next(c, w, e).value, Moves(w, clock, e);
            UnderWay(c, w1) && Doomed(c, holder, w1, later) && HasTime(w1, later) && Cost(w1) < Cost(w)
  {
    StepPays(c, w, NextTask(w, clock));
    DoomedStep(c, holder, w, NextTask(w, clock), clock);
  }

  lemma TickReady(c: Cast, w: World, now: int) returns (e: Event)
    requires UnderWay(c, w) && Settled(w)
    ensures e.TickAt? && e.now == now && Enabled(w, e)
  {
    var m, p, q := TheStates(c, w);
    var order := OrderExists(c, w.pipe.ledger.armed, now);
    e := TickAt(now, order);
  }

  lemma TickDone(c: Cast, holder: Game, w: World, clock: Clock) returns (e: Event)
    requires UnderWay(c, w) && Doomed(c, holder, w, clock) && HasTime(w, clock) && Settled(w)
    ensures Enabled(w, e) && InPace(w, e, clock) && Next(c, w, e).Some?
    ensures var w1, later := Next(c, w, e).value, Moves(w, clock, e);
            UnderWay(c, w1) && Doomed(c, holder, w1, later) && HasTime(w1, later)
            && later == AtTick(clock, clock.tick + clock.gap, true)
  {
    e := TickReady(c, w, clock.tick + clock.gap);
    StepPays(c, w, e);
    TimeAfterTick(w, Next(c, w, e).value, clock);
    DoomedStep(c, holder, w, e, clock);
  }

  lemma TimeAfterTick(w: World, w1: World, clock: Clock)
    requires HasTime(w, clock) && Cost(w1) <= Cost(w)
    ensures HasTime(w1, AtTick(clock, clock.tick + clock.gap, true))
  {
  }

  lemma RunFirst(c: Cast, w: World, e: Event, rest: seq<Event>, clock: Clock)
    requires Enabled(w, e) && InPace(w, e, clock) && Next(c, w, e).Some?
    requires LegalRun(c, Next(c, w, e).value, rest) && RunInPace(c, Next(c, w, e).value, rest, Moves(w, clock, e))
    ensures LegalRun(c, w, [e] + rest) && RunInPace(c, w, [e] + rest, clock)
    ensures Outcome(c, w, [e] + rest) == Outcome(c, Next(c, w, e).value, rest)
  {
    assert ([e] + rest)[1..] == rest;
  }

  /** A game that is doomed can go on, in pace, until the failure is recorded. */
  lemma {:induction false} CanBeRecorded(c: Cast, holder: Game, w: World, clock: Clock) returns (events: seq<Event>)
    requires UnderWay(c, w) && Doomed(c, holder, w, clock) && HasTime(w, clock)
    ensures LegalRun(c, w, events) && RunInPace(c, w, events, clock)
    ensures Outcome(c, w, events).Some? && Recorded(c, holder, Outcome(c, w, events).value)
    decreases if clock.tick <= LastDeadline(holder, clock) then LastDeadline(holder, clock) - clock.tick + 1 else 0,
        Cost(w)
  {
    if Recorded(c, holder, w) {
      return [];
    }
    if !Settled(w) {
      var e := NextTask(w, clock);
      TaskDone(c, holder, w, clock);
      var rest := CanBeRecorded(c, holder, Next(c, w, e).value, Moves(w, clock, e));
      RunFirst(c, w, e, rest, clock);
      return [e] + rest;
    }
    DoomedIsLost(c, holder, w, clock);
    var e := TickDone(c, holder, w, clock);
    var rest := CanBeRecorded(c, holder, Next(c, w, e).value, Moves(w, clock, e));
    RunFirst(c, w, e, rest, clock);
    events := [e] + rest;
  }

  /** From one Play there is a run that keeps pace and ends as the tests expect. */
  lemma PacedGameIsRecorded(c: Cast, holder: Game, clock: Clock) returns (events: seq<Event>)
    requires c.Valid() && Fresh(holder, clock) && clock.gap >= 117 && clock.now + 117 <= clock.tick + clock.gap
    ensures LegalRun(c, Start(c, Some(holder)), events) && RunInPace(c, Start(c, Some(holder)), events, clock)
    ensures Outcome(c, Start(c, Some(holder)), events).Some?
    ensures Recorded(c, holder, Outcome(c, Start(c, Some(holder)), events).value)
  {
    var w, e := Start(c, Some(holder)), Dispatch(clock.now + 1, clock.now + 1);
    PlayBegins(c, Some(holder), clock.now + 1, clock.now + 1);
    StartCost(c, Some(holder), clock.now + 1, clock.now + 1);
    var later := Moves(w, clock, e);
    BegunOnTime(c, holder, later);
    OnTimeIsDoomed(c, holder, Begun(c, Some(holder)), PingReady, PongReady, later);
    var rest := CanBeRecorded(c, holder, Begun(c, Some(holder)), later);
    RunFirst(c, w, e, rest, clock);
    events := [e] + rest;
  }

  /** The clock of the tests: ticks at half of `TEST_TICK_RATE`, and as much for what a
      tick sets going. */
  ghost function TestClock(start: int): (clock: Clock) {
    Clock(start, start, start, start, TEST_TICK_RATE / 2, TEST_TICK_RATE / 2)
  }

  lemma {:induction false} PaceStays(c: Cast, w: World, events: seq<Event>, clock: Clock)
    requires LegalRun(c, w, events)
    ensures var later := ClockAfter(c, w, events, clock);
            later.start == clock.start && later.gap == clock.gap && later.lag == clock.lag
    decreases |events|
  {
    if events != [] && Next(c, w, events[0]).Some? {
      PaceStays(c, Next(c, w, events[0]).value, events[1..], Moves(w, clock, events[0]));
    }
  }

  /** The tests' assertion, in every run at their tick rate: once the system has settled
      after 4 * `TEST_TIMEOUT`, the failure of the player who does not hold the packet
      is recorded, and all three machines have failed. And there are such runs. */
  lemma TimingTest(c: Cast, holder: Game, events: seq<Event>, start: int) returns (run: seq<Event>)
    requires c.Valid() && holder != Menu
    requires LegalRun(c, Start(c, Some(holder)), events) && RunInPace(c, Start(c, Some(holder)), events,
                                                                      TestClock(start))
    ensures Outcome(c, Start(c, Some(holder)), events).Some?
    ensures var w := Outcome(c, Start(c, Some(holder)), events).value;
            Settled(w) && ClockAfter(c, Start(c, Some(holder)), events,
                                     TestClock(start)).tick >= start + 4 * TEST_TIMEOUT
            ==> Recorded(c, holder, w)
    ensures LegalRun(c, Start(c, Some(holder)), run) && RunInPace(c, Start(c, Some(holder)), run, TestClock(start))
    ensures Outcome(c, Start(c, Some(holder)), run).Some?
    ensures Recorded(c, holder, Outcome(c, Start(c, Some(holder)), run).value)
  {
    OtherPlayerFails(c, holder, events, TestClock(start));
    PaceStays(c, Start(c, Some(holder)), events, TestClock(start));
    run := PacedGameIsRecorded(c, holder, TestClock(start));
  }

  // ---------------------------------------------------------------------------
  // A done Pong that fails

  /** A game that nobody delays: `s` is all there is to dispatch. */
  ghost predicate Rally(c: Cast, w: World, s: Signal<Id, GameInput>, p: GameState, q: GameState) {
    Playing(c, w, MenuReady, p, q) && !IsTerminal(p) && w.signals == Lanes([], [s]) && w.outbox == []
  }

  ghost function ToPing(c: Cast, msg: nat): (s: Signal<Id, GameInput>) {
    Signal(c.ping, PingPacket(Packet(msg, c.pong, None)))
  }

  ghost function ToPong(c: Cast, msg: nat): (s: Signal<Id, GameInput>) {
    Signal(c.pong, PongPacket(Packet(msg, c.ping, None)))
  }

  lemma RallyTaken(c: Cast, w: World, s: Signal<Id, GameInput>, p: GameState, q: GameState)
    requires Rally(c, w, s, p, q)
    ensures Head(w.signals) == Some(s) && Rest(w).signals == Lanes([], []) && Rest(w).outbox == []
    ensures Rest(w).pipe == w.pipe && Dispatching(c, w, s, Rest(w), MenuReady, p, q)
  {
  }

  lemma RallyStarts(c: Cast, w: World, p: GameState, q: GameState) returns (w1: World)
    requires Rally(c, w, Signal(c.ping, StartSending(c.pong, None)), p, q)
    ensures Enabled(w, Dispatch(0, 0)) && Next(c, w, Dispatch(0, 0)) == Some(w1)
    ensures Rally(c, w1, ToPong(c, 0), PingSending, q)
  {
    var s := Signal(c.ping, StartSending(c.pong, None));
    RallyTaken(c, w, s, p, q);
    PingStarts(c, w, s, Rest(w), MenuReady, p, q, 0, 0);
    PingEnds(c, Rest(w), s, MenuReady, p, q, 0, 0);
    w1 := Next(c, w, Dispatch(0, 0)).value;
  }

  /** What the handlers make of it: the counted packet goes straight back. */
  lemma PongPasses(c: Cast, w0: World, msg: nat, p: GameState, q: GameState, q': GameState, t1: int, t2: int)
    requires c.Valid() && w0.tree == Some(GameTree(c, MenuReady, p, q)) && msg < 20 && !IsTerminal(q)
    requires q' == PongMoved(ToPong(c, msg), q)
    ensures Processed(c, w0, ToPong(c, msg), t1, t2)
         == Some(Sent(Timed(c, w0, MenuReady, p, q', c.pong, t1 + TEST_TIMEOUT), c.ping,
                      PingPacket(Packet(msg + 5, c.pong, None))))
  {
    PongOutcome(c, w0, ToPong(c, msg), MenuReady, p, q, t1, t2, PongCounted(ToPong(c, msg)), q');
    PongSends(c, Timed(c, w0, MenuReady, p, q', c.pong, t1 + TEST_TIMEOUT), msg, t2);
  }

  lemma PongSends(c: Cast, timed: World, msg: nat, t2: int)
    ensures PongReplied(c, timed, ToPong(c, msg), PongCounted(ToPong(c, msg)), t2)
         == Sent(timed, c.ping, PingPacket(Packet(msg + 5, c.pong, None)))
  {
  }

  lemma PingPasses(c: Cast, w0: World, msg: nat, p: GameState, q: GameState, t1: int, t2: int)
    requires c.Valid() && w0.tree == Some(GameTree(c, MenuReady, p, q)) && msg < 25 && !IsTerminal(p)
    ensures Processed(c, w0, ToPing(c, msg), t1, t2)
         == Some(Sent(Timed(c, w0, MenuReady, p, q, c.ping, t1 + TEST_TIMEOUT), c.pong,
                      PongPacket(Packet(msg + 5, c.ping, None))))
  {
    PingOutcome(c, w0, ToPing(c, msg), MenuReady, p, q, t1, t2, PingCounted(ToPing(c, msg)));
  }

  lemma PongRallies(c: Cast, w: World, msg: nat, p: GameState, q: GameState) returns (w1: World, q': GameState)
    requires Rally(c, w, ToPong(c, msg), p, q) && msg < 20 && !IsTerminal(q)
    ensures Enabled(w, Dispatch(0, 0)) && Next(c, w, Dispatch(0, 0)) == Some(w1)
    ensures Rally(c, w1, ToPing(c, msg + 5), p, q') && !IsTerminal(q')
  {
    RallyTaken(c, w, ToPong(c, msg), p, q);
    q' := PongAnswers(c, w, ToPong(c, msg), Rest(w), MenuReady, p, q, 0, 0);
    PongPasses(c, Rest(w), msg, p, q, q', 0, 0);
    w1 := Next(c, w, Dispatch(0, 0)).value;
  }

  /** Ping's timer is set from then on. */
  lemma PingRallies(c: Cast, w: World, msg: nat, p: GameState, q: GameState) returns (w1: World)
    requires Rally(c, w, ToPing(c, msg), p, q) && msg < 25
    ensures Enabled(w, Dispatch(0, 0)) && Next(c, w, Dispatch(0, 0)) == Some(w1)
    ensures Rally(c, w1, ToPong(c, msg + 5), p, q) && Expected(w1.pipe, c.ping)
  {
    RallyTaken(c, w, ToPing(c, msg), p, q);
    PingAnswers(c, w, ToPing(c, msg), Rest(w), MenuReady, p, q, 0, 0);
    PingPasses(c, Rest(w), msg, p, q, 0, 0);
    RequestedExpected(With(c, Rest(w), MenuReady, p, q), c.ping, Set(TEST_TIMEOUT), c.ping);
    w1 := Next(c, w, Dispatch(0, 0)).value;
  }

  lemma PongEndsRally(c: Cast, w: World, p: GameState, q: GameState) returns (w1: World)
    requires Rally(c, w, ToPong(c, 20), p, q) && !IsTerminal(q) && Expected(w.pipe, c.ping)
    ensures Enabled(w, Dispatch(0, 0)) && Next(c, w, Dispatch(0, 0)) == Some(w1)
    ensures Rally(c, w1, ToPing(c, 25), p, PongDone) && Expected(w1.pipe, c.ping)
  {
    var s := ToPong(c, 20);
    RallyTaken(c, w, s, p, q);
    PongCompletes(c, w, s, Rest(w), MenuReady, p, q, 0, 0);
    PongEnds(c, Rest(w), s, MenuReady, p, q, 0, 0);
    RequestedExpected(With(c, Rest(w), MenuReady, p, PongDone), c.pong, Cancel, c.ping);
    w1 := Next(c, w, Dispatch(0, 0)).value;
  }

  lemma OneMore(c: Cast, w0: World, events: seq<Event>, w: World, e: Event, w1: World) returns (more: seq<Event>)
    requires Leads(c, w0, events, w) && Enabled(w, e) && Next(c, w, e) == Some(w1)
    ensures Leads(c, w0, more, w1)
  {
    LeadsOneMore(c, w0, events, w, e);
    more := events + [e];
  }

  /** One exchange: Pong counts up, then Ping. */
  lemma Exchange(c: Cast, w0: World, events: seq<Event>, w: World, msg: nat, p: GameState, q: GameState)
    returns (more: seq<Event>, w1: World, q': GameState)
    requires Leads(c, w0, events, w) && Rally(c, w, ToPong(c, msg), p, q) && msg < 20 && !IsTerminal(q)
    ensures Leads(c, w0, more, w1) && Rally(c, w1, ToPong(c, msg + 10), p, q') && !IsTerminal(q')
    ensures Expected(w1.pipe, c.ping)
  {
    var mid: World;
    mid, q' := PongRallies(c, w, msg, p, q);
    more := OneMore(c, w0, events, w, Dispatch(0, 0), mid);
    w1 := PingRallies(c, mid, msg + 5, p, q');
    more := OneMore(c, w0, more, mid, Dispatch(0, 0), w1);
  }

  lemma RallyBegins(c: Cast) returns (events: seq<Event>, w: World)
    requires c.Valid()
    ensures Leads(c, Start(c, None), events, w) && Rally(c, w, ToPong(c, 0), PingSending, PongReady)
  {
    var w0, w1 := Start(c, None), Begun(c, None);
    PlayBegins(c, None, 0, 0);
    assert Rest(w0).signals == Lanes([], []);
    events := OneMore(c, w0, [], w0, Dispatch(0, 0), w1);
    w := RallyStarts(c, w1, PingReady, PongReady);
    events := OneMore(c, w0, events, w1, Dispatch(0, 0), w);
  }

  lemma {:induction false} Exchanges(c: Cast, w0: World, events: seq<Event>, w: World, msg: nat, p: GameState,
                                     q: GameState, n: nat)
    returns (more: seq<Event>, w1: World, msg': nat, q': GameState)
    requires Leads(c, w0, events, w) && Rally(c, w, ToPong(c, msg), p, q) && !IsTerminal(q)
    requires msg + 10 * n < 30
    ensures msg' == msg + 10 * n
    ensures Leads(c, w0, more, w1) && Rally(c, w1, ToPong(c, msg'), p, q') && !IsTerminal(q')
    ensures n > 0 || Expected(w.pipe, c.ping) ==> Expected(w1.pipe, c.ping)
    decreases n
  {
    if n == 0 {
      more, w1, msg', q' := events, w, msg, q;
    } else {
      more, w1, q' := Exchange(c, w0, events, w, msg, p, q);
      more, w1, msg', q' := Exchanges(c, w0, more, w1, msg + 10, p, q', n - 1);
    }
  }

  lemma PongDoneFirst(c: Cast, w0: World, events: seq<Event>, w: World, p: GameState, q: GameState)
    returns (more: seq<Event>, w1: World)
    requires Leads(c, w0, events, w) && Rally(c, w, ToPong(c, 0), p, q) && !IsTerminal(q)
    ensures Leads(c, w0, more, w1) && Rally(c, w1, ToPing(c, 25), p, PongDone) && Expected(w1.pipe, c.ping)
  {
    var before, a, msg, q' := Exchanges(c, w0, events, w, 0, p, q, 2);
    w1 := PongEndsRally(c, a, p, q');
    more := OneMore(c, w0, before, a, Dispatch(0, 0), w1);
  }

  lemma RallyToTheEnd(c: Cast) returns (events: seq<Event>, w: World)
    requires c.Valid()
    ensures Leads(c, Start(c, None), events, w)
    ensures Rally(c, w, ToPing(c, 25), PingSending, PongDone) && Expected(w.pipe, c.ping)
  {
    events, w := RallyBegins(c);
    events, w := PongDoneFirst(c, Start(c, None), events, w, PingSending, PongReady);
  }

  /** Everything issued reaches the ledger. */
  lemma {:induction false} PipeDrains(c: Cast, w0: World, events: seq<Event>, w: World, s: Signal<Id, GameInput>,
                                      p: GameState, q: GameState)
    returns (more: seq<Event>, w1: World)
    requires Leads(c, w0, events, w) && Rally(c, w, s, p, q)
    ensures Leads(c, w0, more, w1) && Rally(c, w1, s, p, q) && Drained(w1.pipe)
    ensures Expected(w1.pipe, c.ping) == Expected(w.pipe, c.ping)
    decreases |w.pipe.lane| * 2 + |w.pipe.chan|
  {
    if w.pipe.lane != [] {
      RouteKeeps(c, w, MenuReady, p, q);
      ExpectedStep(w.pipe, Route, c.ping);
      more := OneMore(c, w0, events, w, RouteOne, Next(c, w, RouteOne).value);
      more, w1 := PipeDrains(c, w0, more, Next(c, w, RouteOne).value, s, p, q);
    } else if w.pipe.chan != [] {
      ReceiveKeeps(c, w, MenuReady, p, q);
      ExpectedStep(w.pipe, Receive, c.ping);
      more := OneMore(c, w0, events, w, ReceiveOne, Next(c, w, ReceiveOne).value);
      more, w1 := PipeDrains(c, w0, more, Next(c, w, ReceiveOne).value, s, p, q);
    } else {
      more, w1 := events, w;
    }
  }

  /** A tick past Ping's deadline releases its timeout and nothing else. */
  lemma PingTimesOut(c: Cast, w: World) returns (now: int, w1: World)
    requires Rally(c, w, ToPing(c, 25), PingSending, PongDone) && Drained(w.pipe) && Expected(w.pipe, c.ping)
    ensures Enabled(w, TickAt(now, [c.ping])) && Next(c, w, TickAt(now, [c.ping])) == Some(w1)
    ensures Playing(c, w1, MenuReady, PingSending, PongDone)
    ensures w1.signals == w.signals && w1.outbox == [Signal(c.ping, PingTimeout(now))]
  {
    assert w.pipe.chan + w.pipe.lane == [];
    assert c.ping in w.pipe.ledger.armed && c.pong !in w.pipe.ledger.armed;
    now := AloneInOrder(w.pipe.ledger.armed, c.ping);
    NothingHeld(w);
    OneTimeout(w, now, c.ping);
    TickKeeps(c, w, MenuReady, PingSending, PongDone, now, [c.ping]);
    w1 := AfterTick(w, now, [c.ping]);
  }

  lemma AloneInOrder(armed: map<Id, int>, id: Id) returns (now: int)
    requires id in armed && forall i | i in armed :: i == id
    ensures ExpiryOrder(armed, now, [id])
  {
    now := armed[id] + 1;
  }

  lemma OneTimeout(w: World, now: int, id: Id)
    requires Flat(w.pipe.ledger.held) == [] && id.kind == Ping
    ensures AfterTick(w, now, [id]).outbox == [Signal(id, PingTimeout(now))]
  {
    FlatSplit(w.pipe.ledger.held, now);
    assert [id][..0] == [];
    assert TimeoutManagers.TimeoutSignals([id], now, TimeoutInput) == [Signal(id, PingTimeout(now))];
  }

  /** The packet in the queue is the only one. */
  lemma NothingHeld(w: World)
    requires Tokens(w) <= 1 && w.signals.back != [] && TokenOf(w.signals.back[0]) == 1
    ensures Flat(w.pipe.ledger.held) == []
  {
    SumMember(w.signals.back, w.signals.back[0], TokenOf);
    HeldCount(Flat(w.pipe.ledger.held));
  }

  lemma {:induction false} HeldCount(xs: seq<(Id, Packet)>)
    ensures Sum(xs, TokenHeld) == |xs|
  {
    if xs != [] {
      var n := |xs| - 1;
      HeldCount(xs[..n]);
      SumSnoc(xs[..n], xs[n], TokenHeld);
      assert xs == xs[..n] + [xs[n]];
    }
  }

  /** Ping fails before its last packet arrives, and the menu is about to be told. */
  lemma PingGivesUp(c: Cast, w: World, now: int) returns (a: World, b: World, w1: World)
    requires Playing(c, w, MenuReady, PingSending, PongDone)
    requires w.signals == Lanes([], [ToPing(c, 25)]) && w.outbox == [Signal(c.ping, PingTimeout(now))]
    ensures Enabled(w, Emit) && Next(c, w, Emit) == Some(a)
    ensures Enabled(a, Dispatch(0, 0)) && Next(c, a, Dispatch(0, 0)) == Some(b)
    ensures Enabled(b, Dispatch(0, 0)) && Next(c, b, Dispatch(0, 0)) == Some(w1)
    ensures Playing(c, w1, MenuReady, PingFailed, PongDone) && Head(w1.signals) == Some(Signal(c.menu, FailedPing))
  {
    EmitKeeps(c, w, MenuReady, PingSending, PongDone);
    a := Next(c, w, Emit).value;
    var s := Signal(c.ping, PingTimeout(now));
    assert a.signals == Lanes([s], [ToPing(c, 25)]);
    b := PingFailsNow(c, a, s, now);
    w1 := PingIgnoresLast(c, b);
  }

  lemma PingFailsNow(c: Cast, a: World, s: Signal<Id, GameInput>, now: int) returns (b: World)
    requires Playing(c, a, MenuReady, PingSending, PongDone) && s == Signal(c.ping, PingTimeout(now))
    requires a.signals == Lanes([s], [ToPing(c, 25)])
    ensures Next(c, a, Dispatch(0, 0)) == Some(b) && Playing(c, b, MenuReady, PingFailed, PongDone)
    ensures b.signals == Lanes([], [ToPing(c, 25), Signal(c.menu, FailedPing)])
  {
    PingFails(c, a, s, Rest(a), MenuReady, PingSending, PongDone, 0, 0);
    PingEnds(c, Rest(a), s, MenuReady, PingSending, PongDone, 0, 0);
    b := Next(c, a, Dispatch(0, 0)).value;
  }

  lemma PingIgnoresLast(c: Cast, b: World) returns (w1: World)
    requires Playing(c, b, MenuReady, PingFailed, PongDone)
    requires b.signals == Lanes([], [ToPing(c, 25), Signal(c.menu, FailedPing)])
    ensures Next(c, b, Dispatch(0, 0)) == Some(w1) && Playing(c, w1, MenuReady, PingFailed, PongDone)
    ensures Head(w1.signals) == Some(Signal(c.menu, FailedPing))
  {
    PingIgnores(c, b, ToPing(c, 25), Rest(b), MenuReady, PingFailed, PongDone, 0, 0);
    w1 := Rest(b);
  }

  /** From one Play that nobody delays, a run ends with Pong done, and one dispatch more
      fails it: terminal states do change. */
  lemma DonePongCanFail(c: Cast) returns (events: seq<Event>)
    requires c.Valid()
    ensures LegalRun(c, Start(c, None), events) && Outcome(c, Start(c, None), events).Some?
    ensures var w := Outcome(c, Start(c, None), events).value;
            && Known(w, c.pong) && StateAt(w, c.pong) == PongDone && IsTerminal(PongDone)
            && Enabled(w, Dispatch(0, 0)) && Next(c, w, Dispatch(0, 0)).Some?
            && var w1 := Next(c, w, Dispatch(0, 0)).value;
            Known(w1, c.pong) && StateAt(w1, c.pong) == PongFailed
  {
    var w0 := Start(c, None);
    var rally, w := RallyToTheEnd(c);
    var drained, v := PipeDrains(c, w0, rally, w, ToPing(c, 25), PingSending, PongDone);
    var now, ticked := PingTimesOut(c, v);
    var a, b, end := PingGivesUp(c, ticked, now);
    events := OneMore(c, w0, drained, v, TickAt(now, [c.ping]), ticked);
    events := OneMore(c, w0, events, ticked, Emit, a);
    events := OneMore(c, w0, events, a, Dispatch(0, 0), b);
    events := OneMore(c, w0, events, b, Dispatch(0, 0), end);
    PongFallsNow(c, end);
  }

  lemma PongFallsNow(c: Cast, w: World)
    requires Playing(c, w, MenuReady, PingFailed, PongDone) && Head(w.signals) == Some(Signal(c.menu, FailedPing))
    ensures Known(w, c.pong) && StateAt(w, c.pong) == PongDone && Next(c, w, Dispatch(0, 0)).Some?
    ensures var w1 := Next(c, w, Dispatch(0, 0)).value; Known(w1, c.pong) && StateAt(w1, c.pong) == PongFailed
  {
    PlayerFacts(c, w, MenuReady, PingFailed, PongDone);
    MenuFails(c, w, Signal(c.menu, FailedPing), Rest(w), MenuReady, PingFailed, PongDone, 0, 0);
    PlayerFacts(c, Next(c, w, Dispatch(0, 0)).value, MenuFailed, PingFailed, PongFailed);
  }
}

/** From anywhere a run has got to, the game can be brought to its end. */
module PingPongFinish {
  import opened Base
  import opened StreamQueue
  import opened Timers
  import opened PingPong
  import opened PingPongSafety
  import opened PingPongSteps
  import opened PingPongRuns
  import opened PingPongProgress
  import opened PingPongBounds

  /** With only two players there is always an order in which a tick can release. */
  lemma OrderExists(c: Cast, armed: map<Id, int>, now: int) returns (order: seq<Id>)
    requires c.Valid() && forall id | id in armed :: InGame(c, id)
    ensures ExpiryOrder(armed, now, order)
  {
    var ping := c.ping in armed && armed[c.ping] < now;
    var pong := c.pong in armed && armed[c.pong] < now;
    if ping && pong {
      order := if armed[c.ping] <= armed[c.pong] then [c.ping, c.pong] else [c.pong, c.ping];
    } else {
      order := if ping then [c.ping] else if pong then [c.pong] else [];
    }
    forall i | i in armed && armed[i] < now ensures i in order {
      assert InGame(c, i);
    }
  }

  lemma {:induction false} FlatNonEmpty(m: map<int, seq<(Id, Packet)>>) returns (now: int)
    requires Flat(m) != []
    ensures Flat(Before(m, now)) != []
    decreases |m|
  {
    var k := Least(m.Keys);
    if m[k] != [] {
      now := k + 1;
      assert m[k] == Before(m, now)[k];
      assert forall j | j in Before(m, now) :: k <= j;
      FlatStep(Before(m, now), k);
    } else {
      now := FlatNonEmpty(m - {k});
      assert k >= now ==> Before(m - {k}, now) == map[];
      assert Before(m, now) - {k} == Before(m - {k}, now);
      FlatStep(Before(m, now), k);
    }
  }

  /** Unless nothing is in flight, some step takes something out of a queue, or a
      tick puts a held packet back into play. */
  lemma SomethingMoves(c: Cast, w: World, m: GameState, p: GameState, q: GameState)
    returns (events: seq<Event>, m': GameState, p': GameState, q': GameState)
    requires Playing(c, w, m, p, q) && !Quiet(w)
    ensures LegalRun(c, w, events) && Outcome(c, w, events).Some?
    ensures Playing(c, Outcome(c, w, events).value, m', p', q')
    ensures Cost(Outcome(c, w, events).value) < Cost(w)
  {
    if w.outbox != [] {
      events, m', p', q' := OneStep(c, w, Emit, m, p, q);
    } else if Head(w.signals).Some? {
      events, m', p', q' := OneStep(c, w, Dispatch(0, 0), m, p, q);
    } else if w.pipe.lane != [] {
      events, m', p', q' := OneStep(c, w, RouteOne, m, p, q);
    } else if w.pipe.chan != [] {
      events, m', p', q' := OneStep(c, w, ReceiveOne, m, p, q);
    } else {
      var now := FlatNonEmpty(w.pipe.ledger.held);
      var order := OrderExists(c, w.pipe.ledger.armed, now);
      var tick := TickAt(now, order);
      var w1 := AfterTick(w, now, order);
      TickKeeps(c, w, m, p, q, now, order);
      StepCost(c, w, tick, m, p, q);
      OutboxFilled(c, w, now, order);
      events, m', p', q' := OneStep(c, w1, Emit, m, p, q);
      assert ([tick] + events)[1..] == events;
      events := [tick] + events;
    }
  }

  lemma OneStep(c: Cast, w: World, e: Event, m: GameState, p: GameState, q: GameState)
    returns (events: seq<Event>, m': GameState, p': GameState, q': GameState)
    requires Playing(c, w, m, p, q) && Enabled(w, e) && !e.TickAt?
    ensures events == [e] && LegalRun(c, w, events) && Outcome(c, w, events) == Next(c, w, e) && Next(c, w, e).Some?
    ensures Playing(c, Next(c, w, e).value, m', p', q') && Cost(Next(c, w, e).value) < Cost(w)
  {
    events := [e];
    m', p', q' := PlayingStep(c, w, e, m, p, q);
    StepCost(c, w, e, m, p, q);
    assert events[1..] == [];
  }

  lemma OutboxFilled(c: Cast, w: World, now: int, order: seq<Id>)
    requires c.Valid() && PipeOk(c, w.pipe) && Flat(Before(w.pipe.ledger.held, now)) != []
    ensures AfterTick(w, now, order).outbox != []
  {
    var held := w.pipe.ledger.held;
    var due := Flat(Before(held, now));
    FlatSplit(held, now);
    var x := due[|due| - 1];
    assert x in Flat(held) && HeldFor(c, x);
  }

  /** A standstill in which the menu is decided and no timer is armed. */
  ghost predicate Over(c: Cast, w: World) {
    Quiet(w) && w.pipe.ledger.armed == map[] && Known(w, c.menu) && IsTerminal(StateAt(w, c.menu))
  }

  lemma QuietIsOver(c: Cast, w: World, m: GameState, p: GameState, q: GameState)
    requires Playing(c, w, m, p, q) && Quiet(w)
    ensures Over(c, w)
  {
    QuietMeansDecided(c, w, m, p, q);
    PlayerFacts(c, w, m, p, q);
  }

  /** Whatever goes on in a game, it can be brought to such an end. */
  lemma {:induction false} CanFinish(c: Cast, w: World, m: GameState, p: GameState, q: GameState)
    returns (events: seq<Event>)
    requires Playing(c, w, m, p, q)
    ensures LegalRun(c, w, events) && Outcome(c, w, events).Some? && Over(c, Outcome(c, w, events).value)
    decreases Cost(w)
  {
    if Quiet(w) {
      QuietIsOver(c, w, m, p, q);
      events := [];
    } else {
      var first, m1, p1, q1 := SomethingMoves(c, w, m, p, q);
      var rest := CanFinish(c, Outcome(c, w, first).value, m1, p1, q1);
      JoinRuns(c, w, first, rest);
      events := first + rest;
    }
  }

  /** From one Play, wherever a run has got to, it can go on to such an end: no
      deadlock, and by the bound on work no livelock either. */
  lemma EveryRunCanFinish(c: Cast, who: Option<Game>, events: seq<Event>) returns (more: seq<Event>)
    requires c.Valid() && LegalRun(c, Start(c, who), events)
    ensures LegalRun(c, Start(c, who), events + more)
    ensures Outcome(c, Start(c, who), events + more).Some?
    ensures Over(c, Outcome(c, Start(c, who), events + more).value)
  {
    var start := Start(c, who);
    assert Started(c, start);
    RunKeeps(c, start, events);
    more := FinishFrom(c, Outcome(c, start, events).value);
    JoinRuns(c, start, events, more);
  }

  lemma FinishFrom(c: Cast, w: World) returns (more: seq<Event>)
    requires Invariant(c, w)
    ensures LegalRun(c, w, more) && Outcome(c, w, more).Some? && Over(c, Outcome(c, w, more).value)
  {
    if Started(c, w) {
      var who :| w == Start(c, who);
      more := FinishFromStart(c, who);
    } else {
      var m, p, q := TheStates(c, w);
      more := CanFinish(c, w, m, p, q);
    }
  }

  lemma FinishFromStart(c: Cast, who: Option<Game>) returns (more: seq<Event>)
    requires c.Valid()
    ensures var w := Start(c, who);
            LegalRun(c, w, more) && Outcome(c, w, more).Some? && Over(c, Outcome(c, w, more).value)
  {
    PlayBegins(c, who, 0, 0);
    var rest := CanFinish(c, Next(c, Start(c, who), Dispatch(0, 0)).value, MenuReady, PingReady, PongReady);
    more := [Dispatch(0, 0)] + rest;
    assert more[1..] == rest;
  }
}

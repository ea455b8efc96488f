/** The timing tests of the repository (src/manager.rs:853-931): in every run that
    keeps pace, when Ping sleeps on the packet it is Pong's failure that is recorded,
    and the other way round. */
module PingPongLate {
  import opened Base
  import opened StreamQueue
  import opened Timers
  import opened Pipeline
  import opened PingPong
  import opened InFlight
  import opened PingPongSafety
  import opened PingPongSteps
  import opened PingPongRuns
  import opened PingPongBlame
  import opened PingPongTimes
  import TimeoutManagers

  // ---------------------------------------------------------------------------
  // What a tick finds

  lemma ArmedDeadline(armed: map<Id, int>, id: Id)
    ensures NextDeadline(armed, [], id) == if id in armed then Some(armed[id]) else None
  {
  }

  lemma SettledDeadlines(p: Pipe<Id, Packet>, id: Id)
    requires Drained(p)
    ensures Deadline(p, id) == if id in p.ledger.armed then Some(p.ledger.armed[id]) else None
  {
    assert p.chan + p.lane == [];
  }

  lemma CoveredNow(c: Cast, holder: Game, p: Pipe<Id, Packet>, clock: Clock)
    requires CoveredThroughout(c, holder, p, clock)
    ensures Covered(NextDeadline(p.ledger.armed, [], HolderId(c, holder)),
                    NextDeadline(p.ledger.armed, [], OtherId(c, holder)), clock)
  {
    assert CoveredAt(c, holder, p, 0, clock);
    assert (p.chan + p.lane)[..0] == [];
  }

  lemma PacketHeld(c: Cast, w: World, p: GameState, q: GameState)
    requires Playing(c, w, MenuReady, p, q) && !IsTerminal(p) && !IsTerminal(q) && Settled(w)
    ensures Flat(w.pipe.ledger.held) != []
  {
    assert Tokens(w) == Sum(Flat(w.pipe.ledger.held), TokenHeld);
  }

  /** Someone holds the packet when everything else has settled. */
  lemma SomethingKept(c: Cast, holder: Game, w: World, p: GameState, q: GameState, clock: Clock)
    returns (at: int, x: (Id, Packet))
    requires OnTime(c, holder, w, p, q, clock) && Settled(w)
    ensures at in w.pipe.ledger.held && x in w.pipe.ledger.held[at] && HeldFor(c, x)
    ensures KeptUntil(holder, x.1, at, Deadline(w.pipe, HolderId(c, holder)), Deadline(w.pipe, OtherId(c, holder)),
                      clock)
  {
    var held := w.pipe.ledger.held;
    PacketHeld(c, w, p, q);
    x := Flat(held)[0];
    FlatMember(held, x);
    at :| at in held && x in held[at];
  }

  /** And nobody does as long as it has not. */
  lemma NothingKept(c: Cast, holder: Game, w: World, p: GameState, q: GameState, clock: Clock)
    requires OnTime(c, holder, w, p, q, clock) && !Settled(w) && w.outbox == []
    ensures Flat(w.pipe.ledger.held) == []
  {
    var held := w.pipe.ledger.held;
    if Flat(held) != [] {
      var x := Flat(held)[0];
      FlatMember(held, x);
      var at :| at in held && x in held[at];
      assert w.pipe.chan + w.pipe.lane == [];
      SumMember(Flat(held), x, TokenHeld);
      AllTokens(w.signals.front);
      AllTokens(w.signals.back);
    }
  }

  // ---------------------------------------------------------------------------
  // Who is released first

  /** The holder's deadline is not the first that a tick passes. */
  lemma OtherBefore(c: Cast, holder: Game, w: World, p: GameState, q: GameState, clock: Clock, now: int)
    requires OnTime(c, holder, w, p, q, clock) && w.outbox == []
    requires clock.now <= now <= clock.tick + clock.gap && (Settled(w) || now <= clock.idle + clock.lag)
    requires HolderId(c, holder) in w.pipe.ledger.armed && w.pipe.ledger.armed[HolderId(c, holder)] < now
    ensures OtherId(c, holder) in w.pipe.ledger.armed
    ensures w.pipe.ledger.armed[OtherId(c, holder)] < w.pipe.ledger.armed[HolderId(c, holder)]
  {
    ArmedDeadline(w.pipe.ledger.armed, HolderId(c, holder));
    ArmedDeadline(w.pipe.ledger.armed, OtherId(c, holder));
    if Settled(w) {
      SettledDeadlines(w.pipe, HolderId(c, holder));
      SettledDeadlines(w.pipe, OtherId(c, holder));
      var at, x := SomethingKept(c, holder, w, p, q, clock);
    } else {
      CoveredNow(c, holder, w.pipe, clock);
    }
  }

  lemma OtherFirst(c: Cast, holder: Game, w: World, p: GameState, q: GameState, clock: Clock, now: int, order: seq<Id>)
    requires OnTime(c, holder, w, p, q, clock) && w.outbox == [] && ExpiryOrder(w.pipe.ledger.armed, now, order)
    requires clock.now <= now <= clock.tick + clock.gap && (Settled(w) || now <= clock.idle + clock.lag)
    requires order != []
    ensures order[0] == OtherId(c, holder)
  {
    var armed := w.pipe.ledger.armed;
    assert order[0] in order;
    ArmedIsPlayer(c, w.pipe, order[0]);
    if order[0] == HolderId(c, holder) {
      OtherBefore(c, holder, w, p, q, clock, now);
      EarliestFirst(armed, now, order, OtherId(c, holder));
    }
  }

  lemma ArmedIsPlayer(c: Cast, p: Pipe<Id, Packet>, id: Id)
    requires PipeOk(c, p) && id in p.ledger.armed
    ensures IsPlayer(c, id)
  {
  }

  lemma EarliestFirst(armed: map<Id, int>, now: int, order: seq<Id>, id: Id)
    requires ExpiryOrder(armed, now, order) && id in armed && armed[id] < now
    ensures order != [] && order[0] in armed && armed[order[0]] <= armed[id]
  {
    assert id in order;
  }

  lemma {:induction false} FirstTimeoutSignal(order: seq<Id>, now: int)
    requires order != [] && (order[0].kind == Ping || order[0].kind == Pong)
    ensures var sent := TimeoutManagers.TimeoutSignals(order, now, TimeoutInput);
            sent != [] && sent[0] == Signal(order[0], TimeoutInput(order[0], now).value)
  {
    if |order| > 1 {
      FirstTimeoutSignal(order[..|order| - 1], now);
    }
  }

  // ---------------------------------------------------------------------------
  // A tick that releases no timer

  /** What a held packet comes back as. */
  ghost function BackAs(x: (Id, Packet)): (s: Signal<Id, GameInput>) {
    Signal(x.0, if x.0.kind == Ping then PingReturned(x.1) else PongReturned(x.1))
  }

  lemma {:induction false} ReturnedInTime(
      holder: Game, pairs: seq<(Id, Packet)>, own: Option<int>, other: Option<int>, clock: Clock)
    requires forall x | x in pairs :: x.0.kind != Menu && OnItsWay(holder, BackAs(x), own, other, clock)
    ensures forall s | s in TimeoutManagers.ReturnSignals(pairs, ReturnItem) :: OnItsWay(holder, s, own, other, clock)
  {
    if pairs != [] {
      var x := pairs[|pairs| - 1];
      assert x in pairs;
      assert forall y | y in pairs[..|pairs| - 1] :: y in pairs;
      ReturnedInTime(holder, pairs[..|pairs| - 1], own, other, clock);
    }
  }

  /** No deadline passed, so none changes. */
  lemma SameArmed(p: Pipe<Id, Packet>, now: int)
    requires ExpiryOrder(p.ledger.armed, now, [])
    ensures After(p, Tick(now)).ledger.armed == p.ledger.armed
  {
  }

  lemma TickSameDeadlines(p: Pipe<Id, Packet>, now: int, id: Id)
    requires ExpiryOrder(p.ledger.armed, now, [])
    ensures Deadline(After(p, Tick(now)), id) == Deadline(p, id)
  {
    SameArmed(p, now);
  }

  lemma KeptComesBack(c: Cast, holder: Game, x: (Id, Packet), at: int, own: Option<int>, other: Option<int>,
                      clock: Clock, now: int)
    requires c.Valid() && HeldFor(c, x) && KeptUntil(holder, x.1, at, own, other, clock) && at < now
    requires Paces(holder, clock) && Ticking(clock) && clock.now <= now <= clock.tick + clock.gap
    requires other.Some? ==> now <= other.value
    ensures x.0.kind == holder && OnItsWay(holder, BackAs(x), own, other, AtTick(clock, now, true))
    ensures now <= FirstBack(holder, clock)
  {
  }

  lemma KeptOn(holder: Game, packet: Packet, at: int, own: Option<int>, other: Option<int>, clock: Clock, now: int)
    requires KeptUntil(holder, packet, at, own, other, clock) && now <= at && Ticking(clock)
    requires clock.now <= now <= clock.tick + clock.gap
    ensures KeptUntil(holder, packet, at, own, other, AtTick(clock, now, true))
  {
  }

  lemma NotPassed(armed: map<Id, int>, now: int, id: Id)
    requires ExpiryOrder(armed, now, [])
    ensures id in armed ==> now <= armed[id]
  {
  }

  lemma DueComesBack(c: Cast, holder: Game, w: World, x: (Id, Packet), own: Option<int>, other: Option<int>,
                     clock: Clock, now: int)
    requires c.Valid() && PipeOk(c, w.pipe) && AllOnTime(holder, w, own, other, clock)
    requires x in Flat(Before(w.pipe.ledger.held, now)) && (other.Some? ==> now <= other.value)
    requires Paces(holder, clock) && Ticking(clock) && clock.now <= now <= clock.tick + clock.gap
    ensures x.0.kind != Menu && OnItsWay(holder, BackAs(x), own, other, AtTick(clock, now, true))
    ensures now <= FirstBack(holder, clock)
  {
    var held := w.pipe.ledger.held;
    FlatMember(Before(held, now), x);
    FlatMember(held, x);
    var at :| at in Before(held, now) && x in Before(held, now)[at];
    KeptComesBack(c, holder, x, at, own, other, clock, now);
  }

  /** What comes back in a tick that finds the system settled. */
  lemma ReturnsInTime(c: Cast, holder: Game, w: World, p: GameState, q: GameState, clock: Clock, now: int)
    requires OnTime(c, holder, w, p, q, clock) && Settled(w) && ExpiryOrder(w.pipe.ledger.armed, now, [])
    requires clock.now <= now <= clock.tick + clock.gap
    ensures forall s | s in AfterTick(w, now, []).outbox ::
              OnItsWay(holder, s, Deadline(w.pipe, HolderId(c, holder)), Deadline(w.pipe, OtherId(c, holder)),
                       AtTick(clock, now, true))
    ensures AfterTick(w, now, []).outbox != [] ==> now <= FirstBack(holder, clock)
  {
    var held, own, other := w.pipe.ledger.held, Deadline(w.pipe, HolderId(c, holder)),
        Deadline(w.pipe, OtherId(c, holder));
    var due := Flat(Before(held, now));
    SettledDeadlines(w.pipe, OtherId(c, holder));
    NotPassed(w.pipe.ledger.armed, now, OtherId(c, holder));
    forall x | x in due
      ensures x.0.kind != Menu && OnItsWay(holder, BackAs(x), own, other, AtTick(clock, now, true))
      ensures now <= FirstBack(holder, clock)
    {
      DueComesBack(c, holder, w, x, own, other, clock, now);
    }
    ReturnedInTime(holder, due, own, other, AtTick(clock, now, true));
    assert due == [] ==> AfterTick(w, now, []).outbox == [];
    assert due != [] ==> due[0] in due;
  }

  /** Nobody has timed out, so it is not yet that late. */
  lemma NotThatLate(c: Cast, holder: Game, w: World, p: GameState, q: GameState, clock: Clock, now: int)
    requires OnTime(c, holder, w, p, q, clock) && Settled(w) && ExpiryOrder(w.pipe.ledger.armed, now, [])
    requires clock.now <= now <= clock.tick + clock.gap
    ensures now <= LastDeadline(holder, clock)
    ensures Covered(Deadline(w.pipe, HolderId(c, holder)), Deadline(w.pipe, OtherId(c, holder)),
                    AtTick(clock, now, true))
  {
    var at, x := SomethingKept(c, holder, w, p, q, clock);
    SettledDeadlines(w.pipe, OtherId(c, holder));
    NotPassed(w.pipe.ledger.armed, now, OtherId(c, holder));
  }

  lemma SettledCovered(c: Cast, holder: Game, p: Pipe<Id, Packet>, clock: Clock)
    requires Drained(p) && Covered(Deadline(p, HolderId(c, holder)), Deadline(p, OtherId(c, holder)), clock)
    ensures CoveredThroughout(c, holder, p, clock) && HeldLast(p)
  {
    assert p.chan + p.lane == [];
    forall k: nat | k <= |p.chan + p.lane| ensures CoveredAt(c, holder, p, k, clock) {
      assert (p.chan + p.lane)[..k] == p.chan + p.lane;
    }
  }

  lemma SettledTick(c: Cast, holder: Game, w: World, p: GameState, q: GameState, clock: Clock, now: int)
    requires OnTime(c, holder, w, p, q, clock) && Settled(w) && ExpiryOrder(w.pipe.ledger.armed, now, [])
    requires clock.now <= now <= clock.tick + clock.gap
    ensures OnTime(c, holder, AfterTick(w, now, []), p, q, AtTick(clock, now, true))
  {
    TickKeeps(c, w, MenuReady, p, q, now, []);
    NotThatLate(c, holder, w, p, q, clock, now);
    ReturnsInTime(c, holder, w, p, q, clock, now);
    SettledTimes(c, holder, w, clock, now);
  }

  lemma SettledTimes(c: Cast, holder: Game, w: World, clock: Clock, now: int)
    requires TimesOk(c, holder, w, clock) && Settled(w) && ExpiryOrder(w.pipe.ledger.armed, now, [])
    requires clock.now <= now <= clock.tick + clock.gap && now <= LastDeadline(holder, clock)
    requires var own, other := Deadline(w.pipe, HolderId(c, holder)), Deadline(w.pipe, OtherId(c, holder));
             && Covered(own, other, AtTick(clock, now, true))
             && (forall s | s in AfterTick(w, now, []).outbox ::
                   OnItsWay(holder, s, own, other, AtTick(clock, now, true)))
             && (AfterTick(w, now, []).outbox != [] ==> now <= FirstBack(holder, clock))
    ensures TimesOk(c, holder, AfterTick(w, now, []), AtTick(clock, now, true))
  {
    var w1, later := AfterTick(w, now, []), AtTick(clock, now, true);
    var own, other := Deadline(w.pipe, HolderId(c, holder)), Deadline(w.pipe, OtherId(c, holder));
    TickSameDeadlines(w.pipe, now, HolderId(c, holder));
    TickSameDeadlines(w.pipe, now, OtherId(c, holder));
    SettledCovered(c, holder, w1.pipe, later);
    AllKeptOn(holder, w, own, other, clock, now);
    TimesFrom(c, holder, w1, own, other, later);
  }

  lemma AllKeptOn(holder: Game, w: World, own: Option<int>, other: Option<int>, clock: Clock, now: int)
    requires AllOnTime(holder, w, own, other, clock) && Settled(w) && Ticking(clock)
    requires clock.now <= now <= clock.tick + clock.gap
    requires forall s | s in AfterTick(w, now, []).outbox :: OnItsWay(holder, s, own, other, AtTick(clock, now, true))
    ensures AllOnTime(holder, AfterTick(w, now, []), own, other, AtTick(clock, now, true))
  {
    var held := AfterTick(w, now, []).pipe.ledger.held;
    forall at: int, x: (Id, Packet) | at in held && x in held[at]
      ensures KeptUntil(holder, x.1, at, own, other, AtTick(clock, now, true))
    {
      KeptOn(holder, x.1, at, own, other, clock, now);
    }
  }

  /** A tick before the system settles changes nothing but the clock. */
  lemma BusyTick(c: Cast, holder: Game, w: World, p: GameState, q: GameState, clock: Clock, now: int)
    requires OnTime(c, holder, w, p, q, clock) && !Settled(w) && w.outbox == []
    requires ExpiryOrder(w.pipe.ledger.armed, now, [])
    requires clock.now <= now <= clock.tick + clock.gap && now <= clock.idle + clock.lag
    ensures OnTime(c, holder, AfterTick(w, now, []), p, q, AtTick(clock, now, false))
  {
    TickKeeps(c, w, MenuReady, p, q, now, []);
    NothingKept(c, holder, w, p, q, clock);
    BusyTimes(c, holder, w, clock, now);
  }

  lemma BusyTimes(c: Cast, holder: Game, w: World, clock: Clock, now: int)
    requires TimesOk(c, holder, w, clock) && !Settled(w) && w.outbox == [] && Flat(w.pipe.ledger.held) == []
    requires ExpiryOrder(w.pipe.ledger.armed, now, [])
    requires clock.now <= now <= clock.tick + clock.gap && now <= clock.idle + clock.lag
    ensures TimesOk(c, holder, AfterTick(w, now, []), AtTick(clock, now, false))
  {
    var w1, later := AfterTick(w, now, []), AtTick(clock, now, false);
    var own, other := Deadline(w.pipe, HolderId(c, holder)), Deadline(w.pipe, OtherId(c, holder));
    FlatSplit(w.pipe.ledger.held, now);
    assert w1.outbox == [];
    TickSameDeadlines(w.pipe, now, HolderId(c, holder));
    TickSameDeadlines(w.pipe, now, OtherId(c, holder));
    BusyCovered(c, holder, w.pipe, clock, now);
    AllBusyOn(holder, w, own, other, clock, now);
    TimesFrom(c, holder, w1, own, other, later);
  }

  lemma BusyCovered(c: Cast, holder: Game, p: Pipe<Id, Packet>, clock: Clock, now: int)
    requires CoveredThroughout(c, holder, p, clock) && HeldLast(p) && ExpiryOrder(p.ledger.armed, now, [])
    ensures CoveredThroughout(c, holder, After(p, Tick(now)), AtTick(clock, now, false))
        && HeldLast(After(p, Tick(now)))
  {
    var p' := After(p, Tick(now));
    SameArmed(p, now);
    forall k: nat | k <= |p'.chan + p'.lane| ensures CoveredAt(c, holder, p', k, AtTick(clock, now, false)) {
      assert CoveredAt(c, holder, p, k, clock);
    }
  }

  lemma AllBusyOn(holder: Game, w: World, own: Option<int>, other: Option<int>, clock: Clock, now: int)
    requires AllOnTime(holder, w, own, other, clock) && Flat(w.pipe.ledger.held) == [] && w.outbox == []
    requires clock.now <= now <= clock.idle + clock.lag && AfterTick(w, now, []).outbox == []
    ensures AllOnTime(holder, AfterTick(w, now, []), own, other, AtTick(clock, now, false))
  {
    var held := AfterTick(w, now, []).pipe.ledger.held;
    forall at: int, x: (Id, Packet) | at in held ensures x !in held[at] {
      FlatMember(w.pipe.ledger.held, x);
    }
  }

  // ---------------------------------------------------------------------------
  // The other player has timed out

  ghost function Loser(holder: Game): (input: GameInput) {
    if holder == Ping then FailedPong else FailedPing
  }

  ghost predicate IsTimeout(c: Cast, holder: Game, s: Signal<Id, GameInput>) {
    s.id == OtherId(c, holder) && (if holder == Ping then s.input.PongTimeout? else s.input.PingTimeout?)
  }

  /** Only packets are before it. */
  ghost predicate TimeoutAt(c: Cast, holder: Game, ss: seq<Signal<Id, GameInput>>, i: nat) {
    i < |ss| && IsTimeout(c, holder, ss[i]) && forall j | 0 <= j < i :: Delayed(holder, ss[j])
  }

  lemma TimeoutBehind(c: Cast, holder: Game, front: seq<Signal<Id, GameInput>>, sent: seq<Signal<Id, GameInput>>)
    requires sent != [] && IsTimeout(c, holder, sent[0]) && forall s | s in front :: Delayed(holder, s)
    ensures TimeoutAt(c, holder, front + sent, |front|)
  {
    forall j | 0 <= j < |front| ensures Delayed(holder, (front + sent)[j]) {
      assert front[j] in front;
    }
  }

  lemma FirstSent(c: Cast, holder: Game, w: World, now: int, order: seq<Id>)
    requires c.Valid() && order != [] && order[0] == OtherId(c, holder)
    ensures AfterTick(w, now, order).outbox != [] && IsTimeout(c, holder, AfterTick(w, now, order).outbox[0])
  {
    FirstTimeoutSignal(order, now);
  }

  lemma FewerAhead(c: Cast, holder: Game, ss: seq<Signal<Id, GameInput>>, i: nat)
    requires TimeoutAt(c, holder, ss, i) && i > 0
    ensures TimeoutAt(c, holder, ss[1..], i - 1)
  {
    forall j | 0 <= j < i - 1 ensures Delayed(holder, ss[1..][j]) {
      assert ss[1..][j] == ss[j + 1];
    }
  }

  /** The other player's timeout is on its way, `i` signals behind the head of the
      priority lane, and nothing that is dispatched before it ends a player. */
  ghost predicate LateBy(c: Cast, holder: Game, w: World, p: GameState, q: GameState, i: nat) {
    && Playing(c, w, MenuReady, p, q) && !IsTerminal(p) && !IsTerminal(q) && holder != Menu
    && TimeoutAt(c, holder, w.signals.front + w.outbox, i)
    && (forall s | s in w.signals.back :: Delayed(holder, s))
  }

  ghost predicate Late(c: Cast, holder: Game, w: World, p: GameState, q: GameState) {
    exists i: nat :: LateBy(c, holder, w, p, q, i)
  }

  lemma TickLate(c: Cast, holder: Game, w: World, p: GameState, q: GameState, clock: Clock, now: int, order: seq<Id>)
    requires OnTime(c, holder, w, p, q, clock) && w.outbox == [] && ExpiryOrder(w.pipe.ledger.armed, now, order)
    requires clock.now <= now <= clock.tick + clock.gap && (Settled(w) || now <= clock.idle + clock.lag)
    requires order != []
    ensures Late(c, holder, AfterTick(w, now, order), p, q)
  {
    var w1, n := AfterTick(w, now, order), |w.signals.front|;
    OtherFirst(c, holder, w, p, q, clock, now, order);
    TickKeeps(c, w, MenuReady, p, q, now, order);
    FirstSent(c, holder, w, now, order);
    TimeoutBehind(c, holder, w1.signals.front, w1.outbox);
    assert LateBy(c, holder, w1, p, q, n);
  }

  /** What a handler leaves in the queue when a delayed packet is dispatched. */
  ghost predicate DelayedOn(holder: Game, w0: World, w1: World) {
    && w1.signals.front == w0.signals.front && w1.outbox == w0.outbox
    && forall s | s in w1.signals.back :: s in w0.signals.back || Delayed(holder, s)
  }

  lemma PingPassesOn(c: Cast, holder: Game, w0: World, timed: World, s: Signal<Id, GameInput>, t2: int)
    requires timed.signals == w0.signals && timed.outbox == w0.outbox
    requires Delayed(holder, s) && holder != Menu && (s.input.PingPacket? || s.input.PingReturned?)
    requires HeldFor(c, (c.ping, PingCounted(s)))
    ensures DelayedOn(holder, w0, PingReplied(c, timed, s, PingCounted(s), t2))
  {
  }

  lemma PongPassesOn(c: Cast, holder: Game, w0: World, timed: World, s: Signal<Id, GameInput>, t2: int)
    requires timed.signals == w0.signals && timed.outbox == w0.outbox
    requires Delayed(holder, s) && holder != Menu && (s.input.PongPacket? || s.input.PongReturned?)
    requires HeldFor(c, (c.pong, PongCounted(s)))
    ensures DelayedOn(holder, w0, PongReplied(c, timed, s, PongCounted(s), t2))
  {
  }

  lemma PingDelayed(c: Cast, holder: Game, w: World, s: Signal<Id, GameInput>, p: GameState, q: GameState, t1: int,
                    t2: int)
    returns (p': GameState)
    requires Dispatching(c, w, s, Rest(w), MenuReady, p, q) && !IsTerminal(p) && !IsTerminal(q) && s.id == c.ping
    requires Delayed(holder, s) && holder != Menu && (FrontOk(c, s) || BackOk(c, s))
    ensures var next := Processed(c, Rest(w), s, t1, t2);
            next.Some? && Playing(c, next.value, MenuReady, p', q) && !IsTerminal(p')
                && DelayedOn(holder, Rest(w), next.value)
  {
    if s.input.StartSending? {
      PingStarts(c, w, s, Rest(w), MenuReady, p, q, t1, t2);
      PingEnds(c, Rest(w), s, MenuReady, p, q, t1, t2);
      return PingSending;
    }
    PingAnswers(c, w, s, Rest(w), MenuReady, p, q, t1, t2);
    PingCountedFacts(c, s);
    PingOutcome(c, Rest(w), s, MenuReady, p, q, t1, t2, PingCounted(s));
    PingPassesOn(c, holder, Rest(w), Timed(c, Rest(w), MenuReady, p, q, c.ping, t1 + TEST_TIMEOUT), s, t2);
    return p;
  }

  lemma PongDelayed(c: Cast, holder: Game, w: World, s: Signal<Id, GameInput>, p: GameState, q: GameState, t1: int,
                    t2: int)
    requires Dispatching(c, w, s, Rest(w), MenuReady, p, q) && !IsTerminal(p) && !IsTerminal(q) && s.id == c.pong
    requires Delayed(holder, s) && holder != Menu && (FrontOk(c, s) || BackOk(c, s))
    ensures var next := Processed(c, Rest(w), s, t1, t2);
            next.Some? && Playing(c, next.value, MenuReady, p, PongMoved(s, q)) && !IsTerminal(PongMoved(s, q))
            && DelayedOn(holder, Rest(w), next.value)
  {
    var q' := PongAnswers(c, w, s, Rest(w), MenuReady, p, q, t1, t2);
    PongCountedFacts(c, s);
    PongOutcome(c, Rest(w), s, MenuReady, p, q, t1, t2, PongCounted(s), PongMoved(s, q));
    PongPassesOn(c, holder, Rest(w),
                 Timed(c, Rest(w), MenuReady, p, PongMoved(s, q), c.pong, t1 + TEST_TIMEOUT), s, t2);
  }

  lemma DispatchDelayed(c: Cast, holder: Game, w: World, s: Signal<Id, GameInput>, p: GameState, q: GameState,
                        t1: int, t2: int)
    returns (p': GameState, q': GameState)
    requires Dispatching(c, w, s, Rest(w), MenuReady, p, q) && !IsTerminal(p) && !IsTerminal(q)
    requires Delayed(holder, s) && holder != Menu
    ensures var next := Processed(c, Rest(w), s, t1, t2);
            next.Some? && Playing(c, next.value, MenuReady, p', q') && !IsTerminal(p') && !IsTerminal(q')
            && DelayedOn(holder, Rest(w), next.value)
  {
    HeadOk(c, w, s);
    PlayerInputs(c, s);
    if s.id == c.ping {
      p' := PingDelayed(c, holder, w, s, p, q, t1, t2);
      q' := q;
    } else {
      PongDelayed(c, holder, w, s, p, q, t1, t2);
      p', q' := p, PongMoved(s, q);
    }
  }

  lemma {:induction false} NothingTold(c: Cast, back: seq<Signal<Id, GameInput>>)
    requires forall s | s in back && IsFailure(s.input) :: s.id == c.menu
    requires !Told(c, back, FailedPing) && !Told(c, back, FailedPong)
    ensures FirstTold(back).None?
  {
    if back != [] {
      assert back[0] in back && forall s | s in back[1..] :: s in back;
      NothingTold(c, back[1..]);
    }
  }

  lemma NobodyBlamed(c: Cast, w: World, m: GameState, p: GameState, q: GameState)
    requires Playing(c, w, m, p, q) && (m == MenuDone || (m == MenuReady && !IsTerminal(p) && !IsTerminal(q)))
    ensures Blamed(c, w).None?
  {
    NothingTold(c, w.signals.back);
  }

  lemma LateTold(c: Cast, holder: Game, w: World, p: GameState, q: GameState, t1: int, t2: int)
    requires LateBy(c, holder, w, p, q, 0) && w.signals.front != []
    ensures Next(c, w, Dispatch(t1, t2)).Some?
    ensures Blamed(c, Next(c, w, Dispatch(t1, t2)).value) == Some(Loser(holder))
  {
    var s := Head(w.signals).value;
    assert s == (w.signals.front + w.outbox)[0];
    HeadOk(c, w, s);
    TimesOutFacts(c, w, s, MenuReady, p, q, t1, t2);
    NobodyBlamed(c, w, MenuReady, p, q);
    DispatchBlame(c, w, MenuReady, p, q, t1, t2);
  }

  lemma LateDispatch(c: Cast, holder: Game, w: World, p: GameState, q: GameState, i: nat, t1: int, t2: int)
    returns (p': GameState, q': GameState)
    requires LateBy(c, holder, w, p, q, i) && Head(w.signals).Some? && (w.signals.front != [] ==> i > 0)
    ensures Next(c, w, Dispatch(t1, t2)).Some? && Late(c, holder, Next(c, w, Dispatch(t1, t2)).value, p', q')
  {
    var s, f := Head(w.signals).value, w.signals.front + w.outbox;
    assert Delayed(holder, s) by {
      if w.signals.front != [] {
        assert s == f[0];
      } else {
        assert s in w.signals.back;
      }
    }
    p', q' := DispatchDelayed(c, holder, w, s, p, q, t1, t2);
    var w1 := Next(c, w, Dispatch(t1, t2)).value;
    DelayedLeft(holder, w, w1);
    if w.signals.front != [] {
      FewerAhead(c, holder, f, i);
      assert LateBy(c, holder, w1, p', q', i - 1);
    } else {
      assert LateBy(c, holder, w1, p', q', i);
    }
  }

  lemma DelayedLeft(holder: Game, w: World, w1: World)
    requires Head(w.signals).Some? && DelayedOn(holder, Rest(w), w1)
    ensures w1.signals.front + w1.outbox
         == if w.signals.front != [] then (w.signals.front + w.outbox)[1..] else w.signals.front + w.outbox
    ensures (forall s | s in w.signals.back :: Delayed(holder, s))
        ==> forall s | s in w1.signals.back :: Delayed(holder, s)
  {
  }

  lemma LateTick(c: Cast, holder: Game, w: World, p: GameState, q: GameState, now: int, order: seq<Id>)
    requires Late(c, holder, w, p, q) && Enabled(w, TickAt(now, order))
    ensures Late(c, holder, AfterTick(w, now, order), p, q)
  {
    var i: nat :| LateBy(c, holder, w, p, q, i);
    TickKeeps(c, w, MenuReady, p, q, now, order);
    var w1 := AfterTick(w, now, order);
    assert forall j | 0 <= j <= i :: (w1.signals.front + w1.outbox)[j] == (w.signals.front + w.outbox)[j];
    assert LateBy(c, holder, w1, p, q, i);
  }

  /** Routing, receiving and emitting. */
  lemma SilentStep(c: Cast, w: World, e: Event, m: GameState, p: GameState, q: GameState)
    requires Playing(c, w, m, p, q) && Enabled(w, e) && !e.Dispatch? && !e.TickAt?
    ensures Next(c, w, e).Some? && Playing(c, Next(c, w, e).value, m, p, q)
    ensures var w1 := Next(c, w, e).value;
            w1.signals.back == w.signals.back && w1.signals.front + w1.outbox == w.signals.front + w.outbox
  {
    match e
    case RouteOne => RouteKeeps(c, w, m, p, q);
    case ReceiveOne => ReceiveKeeps(c, w, m, p, q);
    case Emit => EmitKeeps(c, w, m, p, q);
  }

  lemma LateSilent(c: Cast, holder: Game, w: World, e: Event, p: GameState, q: GameState)
    requires Late(c, holder, w, p, q) && Enabled(w, e) && !e.Dispatch? && !e.TickAt?
    ensures Next(c, w, e).Some? && Late(c, holder, Next(c, w, e).value, p, q)
  {
    var i: nat :| LateBy(c, holder, w, p, q, i);
    SilentStep(c, w, e, MenuReady, p, q);
    assert LateBy(c, holder, Next(c, w, e).value, p, q, i);
  }

  // ---------------------------------------------------------------------------
  // Steps

  /** Nobody has timed out yet, or the loser's timeout is the next, or it is the
      loser's failure that is or will be recorded. */
  ghost predicate Doomed(c: Cast, holder: Game, w: World, clock: Clock) {
    Blamed(c, w) == Some(Loser(holder)) || (UnderWay(c, w) && Racing(c, holder, w, clock))
  }

  ghost predicate Racing(c: Cast, holder: Game, w: World, clock: Clock)
    requires UnderWay(c, w)
  {
    var p, q := w.tree.value.children[0].state, w.tree.value.children[1].state;
    OnTime(c, holder, w, p, q, clock) || Late(c, holder, w, p, q)
  }

  lemma OnTimeIsDoomed(c: Cast, holder: Game, w: World, p: GameState, q: GameState, clock: Clock)
    requires OnTime(c, holder, w, p, q, clock)
    ensures Doomed(c, holder, w, clock)
  {
  }

  lemma LateIsDoomed(c: Cast, holder: Game, w: World, p: GameState, q: GameState, clock: Clock)
    requires Late(c, holder, w, p, q)
    ensures Doomed(c, holder, w, clock)
  {
    var i: nat :| LateBy(c, holder, w, p, q, i);
  }

  lemma OnTimeTick(c: Cast, holder: Game, w: World, p: GameState, q: GameState, clock: Clock, now: int, order: seq<Id>)
    requires OnTime(c, holder, w, p, q, clock) && Enabled(w, TickAt(now, order)) && InPace(w, TickAt(now, order), clock)
    ensures Doomed(c, holder, AfterTick(w, now, order), AtTick(clock, now, Settled(w)))
  {
    if order != [] {
      TickLate(c, holder, w, p, q, clock, now, order);
      LateIsDoomed(c, holder, AfterTick(w, now, order), p, q, AtTick(clock, now, Settled(w)));
      return;
    }
    if Settled(w) {
      SettledTick(c, holder, w, p, q, clock, now);
    } else {
      BusyTick(c, holder, w, p, q, clock, now);
    }
    OnTimeIsDoomed(c, holder, AfterTick(w, now, order), p, q, AtTick(clock, now, Settled(w)));
  }

  lemma OnTimeStep(c: Cast, holder: Game, w: World, e: Event, p: GameState, q: GameState, clock: Clock)
    requires OnTime(c, holder, w, p, q, clock) && Enabled(w, e) && InPace(w, e, clock)
    ensures Next(c, w, e).Some? && Doomed(c, holder, Next(c, w, e).value, Moves(w, clock, e))
  {
    match e
    case Dispatch(t1, t2) =>
      var p', q' := DispatchInTime(c, holder, w, p, q, clock, t1, t2);
      OnTimeIsDoomed(c, holder, Next(c, w, e).value, p', q', Moves(w, clock, e));
    case RouteOne =>
      RouteInTime(c, holder, w, p, q, clock);
      OnTimeIsDoomed(c, holder, Next(c, w, e).value, p, q, clock);
    case ReceiveOne =>
      ReceiveInTime(c, holder, w, p, q, clock);
      OnTimeIsDoomed(c, holder, Next(c, w, e).value, p, q, clock);
    case Emit =>
      EmitInTime(c, holder, w, p, q, clock);
      OnTimeIsDoomed(c, holder, Next(c, w, e).value, p, q, clock);
    case TickAt(now, order) => OnTimeTick(c, holder, w, p, q, clock, now, order);
  }

  lemma LateStep(c: Cast, holder: Game, w: World, e: Event, p: GameState, q: GameState, clock: Clock)
    requires Late(c, holder, w, p, q) && Enabled(w, e)
    ensures Next(c, w, e).Some? && Doomed(c, holder, Next(c, w, e).value, Moves(w, clock, e))
  {
    if e.Dispatch? {
      var i: nat :| LateBy(c, holder, w, p, q, i);
      if w.signals.front != [] && i == 0 {
        LateTold(c, holder, w, p, q, e.t1, e.t2);
      } else {
        var p', q' := LateDispatch(c, holder, w, p, q, i, e.t1, e.t2);
        LateIsDoomed(c, holder, Next(c, w, e).value, p', q', Moves(w, clock, e));
      }
      return;
    }
    if e.TickAt? {
      LateTick(c, holder, w, p, q, e.now, e.order);
    } else {
      LateSilent(c, holder, w, e, p, q);
    }
    LateIsDoomed(c, holder, Next(c, w, e).value, p, q, Moves(w, clock, e));
  }

  lemma DoomedStep(c: Cast, holder: Game, w: World, e: Event, clock: Clock)
    requires Invariant(c, w) && Doomed(c, holder, w, clock) && Enabled(w, e) && InPace(w, e, clock)
    ensures Next(c, w, e).Some? && Doomed(c, holder, Next(c, w, e).value, Moves(w, clock, e))
  {
    if Blamed(c, w) == Some(Loser(holder)) {
      StepBlame(c, w, e);
      return;
    }
    var p, q := w.tree.value.children[0].state, w.tree.value.children[1].state;
    if OnTime(c, holder, w, p, q, clock) {
      OnTimeStep(c, holder, w, e, p, q, clock);
    } else {
      LateStep(c, holder, w, e, p, q, clock);
    }
  }

  // ---------------------------------------------------------------------------
  // Runs

  lemma {:induction false} DoomedRun(c: Cast, holder: Game, w: World, events: seq<Event>, clock: Clock)
    requires Invariant(c, w) && Doomed(c, holder, w, clock)
    requires LegalRun(c, w, events) && RunInPace(c, w, events, clock)
    ensures Outcome(c, w, events).Some?
    ensures Doomed(c, holder, Outcome(c, w, events).value, ClockAfter(c, w, events, clock))
    decreases |events|
  {
    if events != [] {
      DoomedStep(c, holder, w, events[0], clock);
      InvariantStep(c, w, events[0]);
      DoomedRun(c, holder, Next(c, w, events[0]).value, events[1..], Moves(w, clock, events[0]));
    }
  }

  /** The clock of a run that is just about to start. */
  ghost predicate Fresh(holder: Game, clock: Clock) {
    Paces(holder, clock) && Ticking(clock) && clock.start == clock.idle
  }

  lemma BegunOnTime(c: Cast, holder: Game, clock: Clock)
    requires c.Valid() && Fresh(holder, clock)
    ensures OnTime(c, holder, Begun(c, Some(holder)), PingReady, PongReady, clock)
  {
    var w := Begun(c, Some(holder));
    BegunPlaying(c, Some(holder));
    assert Rest(Start(c, Some(holder))).signals == Lanes([], []);
    SettledDeadlines(w.pipe, HolderId(c, holder));
    SettledDeadlines(w.pipe, OtherId(c, holder));
    SettledCovered(c, holder, w.pipe, clock);
    OneSignal(holder, w, Signal(c.ping, StartSending(c.pong, Some(holder))),
              Deadline(w.pipe, HolderId(c, holder)), Deadline(w.pipe, OtherId(c, holder)), clock);
  }

  lemma FirstStep(c: Cast, holder: Game, e: Event, clock: Clock)
    requires c.Valid() && Fresh(holder, clock)
    requires Enabled(Start(c, Some(holder)), e) && InPace(Start(c, Some(holder)), e, clock)
    ensures var w, later := Start(c, Some(holder)), Moves(Start(c, Some(holder)), clock, e);
            if e.Dispatch?
            then Next(c, w, e) == Some(Begun(c, Some(holder))) && UnderWay(c, Begun(c, Some(holder)))
                 && Doomed(c, holder, Begun(c, Some(holder)), later)
            else Next(c, w, e) == Some(w) && Fresh(holder, later)
  {
    var w, later := Start(c, Some(holder)), Moves(Start(c, Some(holder)), clock, e);
    assert Started(c, w);
    StartedStep(c, w, e);
    if e.Dispatch? {
      PlayBegins(c, Some(holder), e.t1, e.t2);
      BegunOnTime(c, holder, later);
      OnTimeIsDoomed(c, holder, Begun(c, Some(holder)), PingReady, PongReady, later);
    }
  }

  /** Ticks before Play change nothing; after it the game is doomed. */
  lemma {:induction false} StartDoomed(c: Cast, holder: Game, events: seq<Event>, clock: Clock)
    requires c.Valid() && Fresh(holder, clock)
    requires LegalRun(c, Start(c, Some(holder)), events) && RunInPace(c, Start(c, Some(holder)), events, clock)
    ensures Outcome(c, Start(c, Some(holder)), events).Some?
    ensures var w := Outcome(c, Start(c, Some(holder)), events).value;
            w == Start(c, Some(holder)) || Doomed(c, holder, w, ClockAfter(c, Start(c, Some(holder)), events, clock))
    decreases |events|
  {
    if events != [] {
      var w, e := Start(c, Some(holder)), events[0];
      FirstStep(c, holder, e, clock);
      if e.Dispatch? {
        DoomedRun(c, holder, Begun(c, Some(holder)), events[1..], Moves(w, clock, e));
      } else {
        StartDoomed(c, holder, events[1..], Moves(w, clock, e));
      }
    }
  }

  // ---------------------------------------------------------------------------
  // What becomes of the game

  /** The loser's failure is recorded, and it is everybody's. */
  ghost predicate Recorded(c: Cast, holder: Game, w: World) {
    && c.menu in w.failures && w.failures[c.menu] == Loser(holder)
    && Known(w, c.menu) && Known(w, c.ping) && Known(w, c.pong)
    && StateAt(w, c.menu) == MenuFailed && StateAt(w, c.ping) == PingFailed && StateAt(w, c.pong) == PongFailed
  }

  /** What can be said of any moment of such a game. */
  ghost predicate Lost(c: Cast, holder: Game, w: World, clock: Clock) {
    && (Known(w, c.menu) ==> StateAt(w, c.menu) != MenuDone)
    && (c.menu in w.failures ==> Recorded(c, holder, w))
    && (Quiet(w) || (Settled(w) && clock.tick > LastDeadline(holder, clock)) ==> Recorded(c, holder, w))
  }

  lemma BlamedIsLost(c: Cast, holder: Game, w: World, m: GameState, p: GameState, q: GameState, clock: Clock)
    requires Playing(c, w, m, p, q) && Blamed(c, w) == Some(Loser(holder))
    ensures Lost(c, holder, w, clock)
  {
    PlayerFacts(c, w, m, p, q);
    if m == MenuDone {
      NobodyBlamed(c, w, m, p, q);
    }
    assert FirstTold([]).None?;
  }

  lemma RacingIsLost(c: Cast, holder: Game, w: World, m: GameState, p: GameState, q: GameState, clock: Clock)
    requires Playing(c, w, m, p, q) && (OnTime(c, holder, w, p, q, clock) || Late(c, holder, w, p, q))
    ensures Lost(c, holder, w, clock)
  {
    assert Playing(c, w, MenuReady, p, q) && (Settled(w) ==> OnTime(c, holder, w, p, q, clock));
    SameTree(c, w, m, p, q, MenuReady, p, q);
    PlayerFacts(c, w, m, p, q);
    if Quiet(w) {
      QuietMeansDecided(c, w, m, p, q);
    }
  }

  lemma DoomedIsLost(c: Cast, holder: Game, w: World, clock: Clock)
    requires UnderWay(c, w) && Doomed(c, holder, w, clock)
    ensures Lost(c, holder, w, clock)
  {
    var m, p, q := TheStates(c, w);
    if Blamed(c, w) == Some(Loser(holder)) {
      BlamedIsLost(c, holder, w, m, p, q, clock);
    } else {
      RacingIsLost(c, holder, w, m, p, q, clock);
    }
  }

  /** The repository's timing tests. Let one player hold the packet, let handlers read
      later and later instants, let ticks come no more than `gap` apart, and let what a
      tick sets going be done within `lag`, as far as ticks can see: with a `lag` of at
      most 10 ms when Ping holds, and `gap` and `lag` of at most `TEST_TICK_RATE`
      together when Pong does. Then the game never completes, and the only failure that
      is ever recorded is the other player's. It is recorded, with all three machines
      failed, whenever nothing is in flight, and whenever the system has settled after
      a tick later than `LastDeadline`. */
  lemma OtherPlayerFails(c: Cast, holder: Game, events: seq<Event>, clock: Clock)
    requires c.Valid() && Fresh(holder, clock)
    requires LegalRun(c, Start(c, Some(holder)), events) && RunInPace(c, Start(c, Some(holder)), events, clock)
    ensures Outcome(c, Start(c, Some(holder)), events).Some?
    ensures Lost(c, holder, Outcome(c, Start(c, Some(holder)), events).value,
                 ClockAfter(c, Start(c, Some(holder)), events, clock))
  {
    var start := Start(c, Some(holder));
    assert Started(c, start);
    StartDoomed(c, holder, events, clock);
    RunKeeps(c, start, events);
    var w, later := Outcome(c, start, events).value, ClockAfter(c, start, events, clock);
    if Started(c, w) {
      StartedTokens(c, w);
      NotSettled(c, w);
    } else {
      DoomedIsLost(c, holder, w, later);
    }
  }

  lemma NotSettled(c: Cast, w: World)
    requires Started(c, w)
    ensures !Settled(w)
  {
  }
}

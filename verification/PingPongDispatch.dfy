/** Runs in which only the dispatcher works, as in the repository's first game test
    (src/manager.rs:810-851): no request reaches the ledger and no tick happens. The
    game is then played to its end exactly when nobody holds the packet. */
module PingPongDispatch {
  import opened Base
  import opened StreamQueue
  import opened Timers
  import opened PingPong
  import opened PingPongTree
  import opened InFlight
  import opened PingPongSafety
  import opened PingPongSteps
  import opened PingPongRuns

  /** One of the two players holds the packet whenever it gets it. */
  predicate PlayerHolds(who: Option<Game>) {
    who == Some(Ping) || who == Some(Pong)
  }

  /** The signals there can be: with a holder, the packet never gets past it. */
  ghost predicate Plain(who: Option<Game>, s: Signal<Id, GameInput>) {
    match s.input
    case StartSending(_, holder) => holder == who
    case PingPacket(packet) => packet.whoHolds == who && who != Some(Pong) && (who == Some(Ping) ==> packet.msg == 5)
    case PongPacket(packet) => packet.whoHolds == who && (PlayerHolds(who) ==> packet.msg == 0)
    case PingPongComplete => !PlayerHolds(who)
    case _ => false
  }

  ghost predicate PlainRequest(who: Option<Game>, r: Request<Id, Packet>) {
    PlayerHolds(who) || !r.op.Retain?
  }

  ghost predicate Untimed(w: World, who: Option<Game>) {
    && w.signals.front == [] && w.outbox == [] && w.pipe.chan == [] && w.pipe.ledger == Ledger(map[], map[])
    && (forall s | s in w.signals.back :: Plain(who, s))
    && (forall r | r in w.pipe.lane :: PlainRequest(who, r))
  }

  ghost predicate Untroubled(who: Option<Game>, m: GameState, p: GameState, q: GameState) {
    m != MenuFailed && (PlayerHolds(who) ==> m == MenuReady && !IsTerminal(p) && !IsTerminal(q))
  }

  lemma UntimedSent(w: World, who: Option<Game>, id: Id, input: GameInput)
    requires Untimed(w, who) && Plain(who, Signal(id, input))
    ensures Untimed(Sent(w, id, input), who)
  {
  }

  lemma UntimedRequested(w: World, who: Option<Game>, id: Id, op: Operation<Packet>)
    requires Untimed(w, who) && PlainRequest(who, Request(id, op))
    ensures Untimed(Requested(w, id, op), who)
  {
  }

  /** Where a dispatch is to lead. */
  ghost predicate Led(c: Cast, w: World, who: Option<Game>, m: GameState, p: GameState, q: GameState) {
    Untimed(w, who) && Untroubled(who, m, p, q) && w.tree == Some(GameTree(c, m, p, q))
  }

  ghost predicate Leading(c: Cast, w0: World, s: Signal<Id, GameInput>, who: Option<Game>,
                          m: GameState, p: GameState, q: GameState)
  {
    c.Valid() && Led(c, w0, who, m, p, q) && BackOk(c, s) && Plain(who, s)
  }

  lemma PingUntimed(c: Cast, w0: World, s: Signal<Id, GameInput>, who: Option<Game>, m: GameState, p: GameState,
                    q: GameState,
                    t1: int, t2: int)
    returns (p': GameState)
    requires Leading(c, w0, s, who, m, p, q) && s.id == c.ping
    ensures Processed(c, w0, s, t1, t2).Some? && Led(c, Processed(c, w0, s, t1, t2).value, who, m, p', q)
  {
    if IsTerminal(p) {
      PlayerFacts(c, w0, m, p, q);
      return p;
    }
    if s.input.StartSending? {
      PingEnds(c, w0, s, m, p, q, t1, t2);
      UntimedSent(With(c, w0, m, PingSending, q), who, c.pong, PongPacket(Packet(0, c.ping, who)));
      return PingSending;
    }
    if IsFinal(s) {
      PingEnds(c, w0, s, m, p, q, t1, t2);
      PingDoneUntimed(c, w0, s, who, m, p, q);
      return PingDone;
    }
    PingCountedFacts(c, s);
    PingOutcome(c, w0, s, m, p, q, t1, t2, PingCounted(s));
    PingReplyUntimed(c, w0, s, who, m, p, q, t1 + TEST_TIMEOUT, t2);
    return p;
  }

  lemma PingDoneUntimed(c: Cast, w0: World, s: Signal<Id, GameInput>, who: Option<Game>, m: GameState, p: GameState,
                        q: GameState)
    requires Leading(c, w0, s, who, m, p, q) && s.id == c.ping && IsFinal(s)
    ensures Led(c, Requested(Sent(With(c, w0, m, PingDone, q), c.menu, PingPongComplete), c.ping, Cancel), who, m,
                PingDone, q)
  {
    UntimedSent(With(c, w0, m, PingDone, q), who, c.menu, PingPongComplete);
    UntimedRequested(Sent(With(c, w0, m, PingDone, q), c.menu, PingPongComplete), who, c.ping, Cancel);
  }

  lemma PingReplyUntimed(c: Cast, w0: World, s: Signal<Id, GameInput>, who: Option<Game>, m: GameState, p: GameState,
                         q: GameState,
                         at: int, t2: int)
    requires Led(c, w0, who, m, p, q) && Plain(who, s) && s.input.PingPacket?
    ensures Led(c, PingReplied(c, Timed(c, w0, m, p, q, c.ping, at), s, PingCounted(s), t2), who, m, p, q)
  {
    var timed, packet := Timed(c, w0, m, p, q, c.ping, at), PingCounted(s);
    UntimedRequested(With(c, w0, m, p, q), who, c.ping, Set(at));
    if PingHolds(s, packet, t2).Some? {
      UntimedRequested(timed, who, c.ping, PingHolds(s, packet, t2).value);
    } else {
      UntimedSent(timed, who, c.pong, PongPacket(packet.(sender := c.ping)));
    }
  }

  lemma PongUntimed(c: Cast, w0: World, s: Signal<Id, GameInput>, who: Option<Game>, m: GameState, p: GameState,
                    q: GameState,
                    t1: int, t2: int)
    returns (q': GameState)
    requires Leading(c, w0, s, who, m, p, q) && s.id == c.pong
    ensures Processed(c, w0, s, t1, t2).Some? && Led(c, Processed(c, w0, s, t1, t2).value, who, m, p, q')
  {
    if IsTerminal(q) {
      PlayerFacts(c, w0, m, p, q);
      return q;
    }
    if s.input.packet.msg >= 20 {
      PongEnds(c, w0, s, m, p, q, t1, t2);
      PongDoneUntimed(c, w0, s, who, m, p, q);
      return PongDone;
    }
    PongNextUntimed(c, w0, s, who, m, p, q, t1, t2);
    return PongMoved(s, q);
  }

  lemma PongNextUntimed(c: Cast, w0: World, s: Signal<Id, GameInput>, who: Option<Game>, m: GameState, p: GameState,
                        q: GameState,
                        t1: int, t2: int)
    requires Leading(c, w0, s, who, m, p, q) && s.id == c.pong && !IsTerminal(q) && s.input.packet.msg < 20
    ensures Processed(c, w0, s, t1, t2).Some? && Led(c, Processed(c, w0, s, t1, t2).value, who, m, p, PongMoved(s, q))
  {
    PongCountedFacts(c, s);
    PongOutcome(c, w0, s, m, p, q, t1, t2, PongCounted(s), PongMoved(s, q));
    PongReplyUntimed(c, w0, s, who, m, p, PongMoved(s, q), t1 + TEST_TIMEOUT, t2);
  }

  lemma PongDoneUntimed(c: Cast, w0: World, s: Signal<Id, GameInput>, who: Option<Game>, m: GameState, p: GameState,
                        q: GameState)
    requires Leading(c, w0, s, who, m, p, q) && s.id == c.pong && s.input.packet.msg >= 20
    ensures Led(c, Sent(PongGone(c, w0, m, p), s.input.packet.sender, LastPacket(c.pong, s.input.packet)), who, m, p,
                PongDone)
  {
    UntimedRequested(With(c, w0, m, p, PongDone), who, c.pong, Cancel);
    UntimedSent(PongGone(c, w0, m, p), who, c.ping, LastPacket(c.pong, s.input.packet));
  }

  lemma PongReplyUntimed(c: Cast, w0: World, s: Signal<Id, GameInput>, who: Option<Game>, m: GameState, p: GameState,
                         q: GameState,
                         at: int, t2: int)
    requires Untimed(w0, who) && Untroubled(who, m, p, q) && Plain(who, s) && s.input.PongPacket?
    ensures Led(c, PongReplied(c, Timed(c, w0, m, p, q, c.pong, at), s, PongCounted(s), t2), who, m, p, q)
  {
    var timed, packet := Timed(c, w0, m, p, q, c.pong, at), PongCounted(s);
    UntimedRequested(With(c, w0, m, p, q), who, c.pong, Set(at));
    if PongHolds(s, packet, t2).Some? {
      UntimedRequested(timed, who, c.pong, PongHolds(s, packet, t2).value);
    } else {
      UntimedSent(timed, who, c.ping, PingPacket(packet.(sender := c.pong)));
    }
  }

  lemma MenuUntimed(c: Cast, w0: World, s: Signal<Id, GameInput>, who: Option<Game>, m: GameState, p: GameState,
                    q: GameState,
                    t1: int, t2: int)
    returns (m': GameState)
    requires Leading(c, w0, s, who, m, p, q) && s.id == c.menu
    ensures Processed(c, w0, s, t1, t2).Some? && Led(c, Processed(c, w0, s, t1, t2).value, who, m', p, q)
  {
    PlayerFacts(c, w0, m, p, q);
    if IsTerminal(m) {
      return m;
    }
    MenuUpdate(c, w0, m, p, q);
    return MenuDone;
  }

  lemma UntimedStep(c: Cast, w: World, who: Option<Game>, m: GameState, p: GameState, q: GameState, t1: int, t2: int)
    returns (m': GameState, p': GameState, q': GameState)
    requires Playing(c, w, m, p, q) && Untimed(w, who) && Untroubled(who, m, p, q) && Head(w.signals).Some?
    ensures Next(c, w, Dispatch(t1, t2)).Some?
    ensures var w1 := Next(c, w, Dispatch(t1, t2)).value;
            Playing(c, w1, m', p', q') && Untimed(w1, who) && Untroubled(who, m', p', q')
  {
    var s, w0 := Head(w.signals).value, Rest(w);
    assert s in w.signals.back && BackOk(c, s);
    m', p', q' := DispatchKeeps(c, w, m, p, q, t1, t2);
    var m1, p1, q1 := m, p, q;
    if s.id == c.ping {
      p1 := PingUntimed(c, w0, s, who, m, p, q, t1, t2);
    } else if s.id == c.pong {
      q1 := PongUntimed(c, w0, s, who, m, p, q, t1, t2);
    } else {
      m1 := MenuUntimed(c, w0, s, who, m, p, q, t1, t2);
    }
    assert GameTree(c, m', p', q').state == GameTree(c, m1, p1, q1).state;
    assert GameTree(c, m', p', q').children[0] == GameTree(c, m1, p1, q1).children[0];
    assert GameTree(c, m', p', q').children[1] == GameTree(c, m1, p1, q1).children[1];
  }

  ghost predicate DispatchOnly(events: seq<Event>) {
    forall i :: 0 <= i < |events| ==> events[i].Dispatch?
  }

  lemma {:induction false} UntimedRun(c: Cast, w: World, who: Option<Game>, events: seq<Event>,
                                      m: GameState, p: GameState, q: GameState)
    returns (m': GameState, p': GameState, q': GameState)
    requires Playing(c, w, m, p, q) && Untimed(w, who) && Untroubled(who, m, p, q)
    requires LegalRun(c, w, events) && DispatchOnly(events)
    ensures Outcome(c, w, events).Some?
    ensures var end := Outcome(c, w, events).value;
            Playing(c, end, m', p', q') && Untimed(end, who) && Untroubled(who, m', p', q')
    decreases |events|
  {
    m', p', q' := m, p, q;
    if events != [] {
      var e := events[0];
      assert e.Dispatch?;
      var m1, p1, q1 := UntimedStep(c, w, who, m, p, q, e.t1, e.t2);
      m', p', q' := UntimedRun(c, Next(c, w, e).value, who, events[1..], m1, p1, q1);
    }
  }

  lemma {:induction false} NoHeldRequest(rs: seq<Request<Id, Packet>>)
    requires forall r | r in rs :: !r.op.Retain?
    ensures Sum(rs, TokenIn) == 0
  {
    if rs != [] {
      assert forall r | r in rs[1..] :: r in rs;
      NoHeldRequest(rs[1..]);
    }
  }

  lemma UntimedEnd(c: Cast, w: World, who: Option<Game>, m: GameState, p: GameState, q: GameState)
    requires Playing(c, w, m, p, q) && Untimed(w, who) && Untroubled(who, m, p, q)
    requires w.signals == Lanes([], [])
    ensures m == if PlayerHolds(who) then MenuReady else MenuDone
  {
    if !PlayerHolds(who) {
      assert forall r | r in w.pipe.lane :: PlainRequest(who, r);
      NoHeldRequest(w.pipe.lane);
      assert Flat(w.pipe.ledger.held) == [];
      assert Tokens(w) == 0;
    }
  }

  /** When dispatching alone has emptied the signal queue, the game is finished, with
      both players done, if and only if neither player holds packets; otherwise it is
      undecided and waits for the timeout manager. */
  lemma DispatchAloneFinishesIff(c: Cast, who: Option<Game>, events: seq<Event>)
    requires c.Valid() && LegalRun(c, Start(c, who), events) && DispatchOnly(events)
    ensures Outcome(c, Start(c, who), events).Some?
    ensures var w := Outcome(c, Start(c, who), events).value;
            w.signals == Lanes([], []) ==>
              && CastKnown(c, w)
              && (StateAt(w, c.menu) == MenuDone <==> !PlayerHolds(who))
              && (StateAt(w, c.menu) == MenuReady <==> PlayerHolds(who))
              && (!PlayerHolds(who) ==> StateAt(w, c.ping) == PingDone && StateAt(w, c.pong) == PongDone)
  {
    var w := Start(c, who);
    if events != [] {
      var e := events[0];
      assert e.Dispatch?;
      PlayBegins(c, who, e.t1, e.t2);
      FirstUntimed(c, who, e.t1, e.t2);
      var m, p, q := UntimedRun(c, Next(c, w, e).value, who, events[1..], MenuReady, PingReady, PongReady);
      var end := Outcome(c, w, events).value;
      PlayerFacts(c, end, m, p, q);
      if end.signals == Lanes([], []) {
        UntimedEnd(c, end, who, m, p, q);
      }
    }
  }

  ghost predicate CastKnown(c: Cast, w: World) {
    Known(w, c.menu) && Known(w, c.ping) && Known(w, c.pong)
  }

  lemma FirstUntimed(c: Cast, who: Option<Game>, t1: int, t2: int)
    requires c.Valid() && Next(c, Start(c, who), Dispatch(t1, t2)).Some?
    ensures Untimed(Next(c, Start(c, who), Dispatch(t1, t2)).value, who)
  {
    var w := Start(c, who);
    GameTreeBuilt(c);
    assert Rest(w).signals == Lanes([], []);
  }
}

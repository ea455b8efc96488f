/** What every run of the Menu/Ping/Pong system keeps. */
module PingPongSafety {
  import opened Base
  import opened StreamQueue
  import opened Timers
  import opened Pipeline
  import opened PingPong
  import opened PingPongTree
  import opened InFlight

  // ---------------------------------------------------------------------------
  // Messages

  /** A packet on its way to a player: from the other one, with the count it has there. */
  ghost predicate Arrives(c: Cast, at: Id, packet: Packet) {
    || (at == c.ping && packet.sender == c.pong && packet.msg in {5, 15, 25})
    || (at == c.pong && packet.sender == c.ping && packet.msg in {0, 10, 20})
  }

  /** A packet held for a player: already counted up, still carrying its sender. */
  ghost predicate HeldFor(c: Cast, x: (Id, Packet)) {
    || (x.0 == c.ping && x.1.sender == c.pong && x.1.msg in {10, 20})
    || (x.0 == c.pong && x.1.sender == c.ping && x.1.msg in {5, 15})
  }

  ghost predicate FrontOk(c: Cast, s: Signal<Id, GameInput>) {
    match s.input
    case PingTimeout(_) => s.id == c.ping
    case PongTimeout(_) => s.id == c.pong
    case PingReturned(packet) => s.id == c.ping && HeldFor(c, (s.id, packet))
    case PongReturned(packet) => s.id == c.pong && HeldFor(c, (s.id, packet))
    case _ => false
  }

  ghost predicate BackOk(c: Cast, s: Signal<Id, GameInput>) {
    match s.input
    case StartSending(pong, _) => s.id == c.ping && pong == c.pong
    case PingPacket(packet) => s.id == c.ping && Arrives(c, s.id, packet)
    case PongPacket(packet) => s.id == c.pong && Arrives(c, s.id, packet)
    case PingPongComplete => s.id == c.menu
    case FailedPing => s.id == c.menu
    case FailedPong => s.id == c.menu
    case _ => false
  }

  ghost predicate RequestOk(c: Cast, r: Request<Id, Packet>) {
    match r.op
    case Cancel => true
    case Set(_) => r.id == c.ping || r.id == c.pong
    case Retain(packet, _) => HeldFor(c, (r.id, packet))
  }

  ghost predicate PipeOk(c: Cast, p: Pipe<Id, Packet>) {
    && (forall r | r in p.lane :: RequestOk(c, r))
    && (forall r | r in p.chan :: RequestOk(c, r))
    && (forall id | id in p.ledger.armed :: id == c.ping || id == c.pong)
    && (forall x | x in Flat(p.ledger.held) :: HeldFor(c, x))
  }

  /** Every message in flight is one its receiver has a case for. */
  ghost predicate Messages(c: Cast, w: World) {
    && (forall s | s in w.signals.front :: FrontOk(c, s))
    && (forall s | s in w.signals.back :: BackOk(c, s))
    && (forall s | s in w.outbox :: FrontOk(c, s))
    && PipeOk(c, w.pipe)
  }

  // ---------------------------------------------------------------------------
  // The packet token

  ghost function TokenOf(s: Signal<Id, GameInput>): (n: nat) {
    match s.input
    case Play(_) => 1
    case StartSending(_, _) => 1
    case PingPacket(_) => 1
    case PongPacket(_) => 1
    case PingReturned(_) => 1
    case PongReturned(_) => 1
    case _ => 0
  }

  ghost function TokenIn(r: Request<Id, Packet>): (n: nat) {
    if r.op.Retain? then 1 else 0
  }

  ghost function TokenHeld(x: (Id, Packet)): (n: nat) {
    1
  }

  ghost function TokenWeights(): (weights: Weights) {
    Weights(TokenOf, TokenOf, TokenIn, TokenIn, TokenHeld, 0)
  }

  /** Packets, and the inputs that will become one, anywhere in the system. */
  ghost function Tokens(w: World): (n: nat) {
    Total(w, TokenWeights())
  }

  // ---------------------------------------------------------------------------
  // The invariant

  ghost predicate Told(c: Cast, back: seq<Signal<Id, GameInput>>, input: GameInput) {
    Signal(c.menu, input) in back
  }

  ghost predicate IsFinal(s: Signal<Id, GameInput>) {
    s.input.PingPacket? && s.input.packet.msg >= 25
  }

  /** Pong's last packet is on its way to ping. */
  ghost predicate FinalSent(back: seq<Signal<Id, GameInput>>) {
    exists s :: s in back && IsFinal(s)
  }

  /** How the three states go together. While the menu is undecided it has been told
      exactly of the players that ended, but for a Pong that is done and has sent the
      last packet instead. */
  ghost predicate Verdict(
      c: Cast, back: seq<Signal<Id, GameInput>>, tokens: nat, failures: map<Id, GameInput>,
      m: GameState, p: GameState, q: GameState)
  {
    match m
    case MenuReady =>
      && c.menu !in failures
      && (p == PingDone ==> q == PongDone)
      && (Told(c, back, PingPongComplete) <==> p == PingDone)
      && (Told(c, back, FailedPing) <==> p == PingFailed)
      && (Told(c, back, FailedPong) <==> q == PongFailed)
      && (FinalSent(back) ==> q == PongDone)
      && (!IsTerminal(p) && q == PongDone ==> FinalSent(back))
      && (!IsTerminal(p) && !IsTerminal(q) ==> tokens == 1)
    case MenuDone =>
      && c.menu !in failures && p == PingDone && q == PongDone
      && !Told(c, back, FailedPing) && !Told(c, back, FailedPong)
    case MenuFailed => c.menu in failures && p == PingFailed && q == PongFailed
    case _ => false
  }

  /** A player that is done, and every player of a failed game, has no timer coming. */
  ghost predicate TimersOff(c: Cast, pipe: Pipe<Id, Packet>, m: GameState, p: GameState, q: GameState) {
    && (p == PingDone || m == MenuFailed ==> !Expected(pipe, c.ping))
    && (q == PongDone || m == MenuFailed ==> !Expected(pipe, c.pong))
  }

  ghost predicate Playing(c: Cast, w: World, m: GameState, p: GameState, q: GameState) {
    && c.Valid()
    && w.tree == Some(GameTree(c, m, p, q))
    && KindOf(m) == Menu && KindOf(p) == Ping && KindOf(q) == Pong
    && Messages(c, w)
    && Tokens(w) <= 1
    && Verdict(c, w.signals.back, Tokens(w), w.failures, m, p, q)
    && TimersOff(c, w.pipe, m, p, q)
  }

  // ---------------------------------------------------------------------------
  // Taking a signal

  /** The normal lane after `s` was taken from the queue and `sent` appended. */
  ghost predicate Moved(
      back: seq<Signal<Id, GameInput>>, s: Signal<Id, GameInput>,
      now: seq<Signal<Id, GameInput>>, sent: Option<Signal<Id, GameInput>>)
  {
    && (forall x | x in back && x != s :: x in now)
    && (forall x | x in now :: x in back || sent == Some(x))
    && (sent.Some? ==> sent.value in now)
  }

  ghost function Rest(w: World): (next: World) {
    w.(signals := Popped(w.signals))
  }

  /** Taking a signal from the queue leaves everything else in flight. */
  lemma Taken(c: Cast, w: World)
    requires Messages(c, w) && Head(w.signals).Some?
    ensures var s, w0 := Head(w.signals).value, Rest(w);
            && Messages(c, w0) && Tokens(w0) + TokenOf(s) == Tokens(w)
            && (FrontOk(c, s) || (BackOk(c, s) && s in w.signals.back))
            && Moved(w.signals.back, s, w0.signals.back, None)
  {
    TotalPopped(w, TokenWeights());
    var s, w0 := Head(w.signals).value, Rest(w);
    if w.signals.front == [] {
      forall x | x in w.signals.back && x != s ensures x in w0.signals.back {
        var i :| 0 <= i < |w.signals.back| && w.signals.back[i] == x;
        assert w0.signals.back[i - 1] == x;
      }
    }
  }

  /** Sending one acceptable signal. */
  lemma SentFacts(c: Cast, w: World, id: Id, input: GameInput)
    requires Messages(c, w) && BackOk(c, Signal(id, input))
    ensures Messages(c, Sent(w, id, input))
    ensures Tokens(Sent(w, id, input)) == Tokens(w) + TokenOf(Signal(id, input))
  {
    TotalSent(w, id, input, TokenWeights());
  }

  lemma SentMoved(back: seq<Signal<Id, GameInput>>, s: Signal<Id, GameInput>, w: World, id: Id, input: GameInput)
    requires Moved(back, s, w.signals.back, None)
    ensures Moved(back, s, Sent(w, id, input).signals.back, Some(Signal(id, input)))
  {
  }

  /** Issuing one acceptable request. */
  lemma RequestedFacts(c: Cast, w: World, id: Id, op: Operation<Packet>)
    requires Messages(c, w) && RequestOk(c, Request(id, op))
    ensures Messages(c, Requested(w, id, op))
    ensures Tokens(Requested(w, id, op)) == Tokens(w) + if op.Retain? then 1 else 0
  {
    TotalRequested(w, id, op, TokenWeights());
  }

  lemma RequestedExpected(w: World, id: Id, op: Operation<Packet>, other: Id)
    ensures Expected(Requested(w, id, op).pipe, other)
         == if id == other && !op.Retain? then op.Set? else Expected(w.pipe, other)
  {
    ExpectedStep(w.pipe, Issue(Request(id, op)), other);
  }
}

/** How far a game can go: every hand-off adds five to the packet, six packets at
    most are ever sent, and only a bounded number of steps does anything. */
module PingPongProgress {
  import opened Base
  import opened StreamQueue
  import opened Timers
  import opened Pipeline
  import opened PingPong
  import opened PingPongTree
  import opened InFlight
  import opened PingPongSafety
  import opened PingPongSteps

  // ---------------------------------------------------------------------------
  // Effects of one dispatch

  ghost predicate Produces(
      w0: World, w1: World, sent: seq<Signal<Id, GameInput>>, asked: seq<Request<Id, Packet>>)
  {
    && w1.signals == w0.signals.(back := w0.signals.back + sent)
    && w1.pipe == w0.pipe.(lane := w0.pipe.lane + asked)
    && w1.outbox == w0.outbox
  }

  lemma TotalProduces(
      w0: World, w1: World, sent: seq<Signal<Id, GameInput>>, asked: seq<Request<Id, Packet>>, k: Weights)
    requires Produces(w0, w1, sent, asked)
    ensures Total(w1, k) == Total(w0, k) + Sum(sent, k.queued) + Sum(asked, k.lane)
  {
    SumConcat(w0.signals.back, sent, k.queued);
    SumConcat(w0.pipe.lane, asked, k.lane);
  }

  // ---------------------------------------------------------------------------
  // What is still to come of each message

  /** Steps that a packet arriving with `msg` can still cause: at each hand-off a
      signal, a Set and its expiry, and a round through the retainer. */
  ghost function PacketCost(msg: nat): (n: nat)
    decreases 25 - msg
  {
    if msg >= 25 then 4 else if msg >= 20 then 7 else 27 + PacketCost(msg + 5)
  }

  ghost function SignalCost(s: Signal<Id, GameInput>): (n: nat) {
    match s.input
    case Play(_) => 117
    case StartSending(_, _) => 116
    case PingPacket(packet) => PacketCost(packet.msg)
    case PongPacket(packet) => PacketCost(packet.msg)
    case PingReturned(packet) => 12 + PacketCost(packet.msg)
    case PongReturned(packet) => 12 + PacketCost(packet.msg)
    case PingTimeout(_) => 8
    case PongTimeout(_) => 8
    case PingPongComplete => 1
    case _ => 7
  }

  ghost function BoxedCost(s: Signal<Id, GameInput>): (n: nat) {
    1 + SignalCost(s)
  }

  ghost function ChanCost(r: Request<Id, Packet>): (n: nat) {
    match r.op
    case Cancel => 1
    case Set(_) => 10
    case Retain(packet, _) => 14 + PacketCost(packet.msg)
  }

  ghost function LaneCost(r: Request<Id, Packet>): (n: nat) {
    1 + ChanCost(r)
  }

  ghost function HeldCost(x: (Id, Packet)): (n: nat) {
    13 + PacketCost(x.1.msg)
  }

  ghost function CostWeights(): (weights: Weights) {
    Weights(SignalCost, BoxedCost, LaneCost, ChanCost, HeldCost, 9)
  }

  ghost function Cost(w: World): (n: nat) {
    Total(w, CostWeights())
  }

  /** Packets still to be sent on behalf of a token. */
  ghost function Left(msg: nat): (n: nat) {
    if msg >= 25 then 0 else (25 - msg) / 5
  }

  ghost function Due(s: Signal<Id, GameInput>): (n: nat) {
    match s.input
    case Play(_) => 6
    case StartSending(_, _) => 6
    case PingPacket(packet) => Left(packet.msg)
    case PongPacket(packet) => Left(packet.msg)
    case PingReturned(packet) => 1 + Left(packet.msg)
    case PongReturned(packet) => 1 + Left(packet.msg)
    case _ => 0
  }

  ghost function IsPacket(s: Signal<Id, GameInput>): (n: nat) {
    if s.input.PingPacket? || s.input.PongPacket? then 1 else 0
  }

  /** What a dispatched signal leads to costs less than the signal, and the packets
      sent and still due on its behalf are those that were due. */
  ghost predicate Pays(s: Signal<Id, GameInput>, sent: seq<Signal<Id, GameInput>>, asked: seq<Request<Id, Packet>>) {
    && Sum(sent, SignalCost) + Sum(asked, LaneCost) < SignalCost(s)
    && Sum(sent, IsPacket) <= Due(s)
    && (Sum(sent, IsPacket) > 0 ==> TokenOf(s) == 1)
    && (forall x | x in sent && TokenOf(x) == 1 :: TokenOf(s) == 1 && Sum(sent, IsPacket) + Due(x) == Due(s))
    && (forall r | r in asked && r.op.Retain? ::
          TokenOf(s) == 1 && Sum(sent, IsPacket) + 1 + Left(r.op.item.msg) == Due(s))
  }

  lemma SumOne<T(!new)>(x: T, f: T -> nat)
    ensures Sum([x], f) == f(x) && Sum([], f) == 0
  {
    assert [x][1..] == [];
  }

  lemma SumTwo<T(!new)>(x: T, y: T, f: T -> nat)
    ensures Sum([x, y], f) == f(x) + f(y)
  {
    assert [x, y][1..] == [y];
    SumOne(y, f);
  }

  /** An ignored signal leads to nothing. */
  lemma IgnoredPays(w0: World, s: Signal<Id, GameInput>)
    requires SignalCost(s) > 0
    ensures Produces(w0, w0, [], []) && Pays(s, [], [])
  {
    assert w0.signals.back + [] == w0.signals.back && w0.pipe.lane + [] == w0.pipe.lane;
  }

  lemma OneSignalPays(w0: World, w1: World, s: Signal<Id, GameInput>, x: Signal<Id, GameInput>)
    requires w1.signals == PushedBack(w0.signals, x) && w1.pipe == w0.pipe && w1.outbox == w0.outbox
    requires SignalCost(x) < SignalCost(s) && IsPacket(x) <= Due(s)
    requires TokenOf(x) == 1 ==> TokenOf(s) == 1 && IsPacket(x) + Due(x) == Due(s)
    ensures Produces(w0, w1, [x], []) && Pays(s, [x], [])
  {
    assert w0.pipe.lane + [] == w0.pipe.lane;
    SumOne(x, SignalCost);
    SumOne(x, IsPacket);
  }

  lemma OneRequestPays(w0: World, w1: World, s: Signal<Id, GameInput>, x: Signal<Id, GameInput>, r: Request<Id, Packet>)
    requires w1.signals == PushedBack(w0.signals, x) && w1.outbox == w0.outbox
    requires w1.pipe == w0.pipe.(lane := w0.pipe.lane + [r]) && !r.op.Retain?
    requires SignalCost(x) + LaneCost(r) < SignalCost(s) && IsPacket(x) <= Due(s)
    requires TokenOf(x) == 1 ==> TokenOf(s) == 1 && IsPacket(x) + Due(x) == Due(s)
    ensures Produces(w0, w1, [x], [r]) && Pays(s, [x], [r])
  {
    SumOne(x, SignalCost);
    SumOne(x, IsPacket);
    SumOne(r, LaneCost);
  }

  lemma TwoRequestsPay(w0: World, w1: World, s: Signal<Id, GameInput>, r1: Request<Id, Packet>, r2: Request<Id, Packet>)
    requires w1.signals == w0.signals && w1.outbox == w0.outbox
    requires w1.pipe == w0.pipe.(lane := w0.pipe.lane + [r1] + [r2]) && !r1.op.Retain? && r2.op.Retain?
    requires LaneCost(r1) + LaneCost(r2) < SignalCost(s)
    requires TokenOf(s) == 1 && 1 + Left(r2.op.item.msg) == Due(s)
    ensures Produces(w0, w1, [], [r1, r2]) && Pays(s, [], [r1, r2])
  {
    assert w0.signals.back + [] == w0.signals.back;
    assert w0.pipe.lane + [r1] + [r2] == w0.pipe.lane + [r1, r2];
    SumTwo(r1, r2, LaneCost);
  }

  lemma CostValues()
    ensures PacketCost(25) == 4 && PacketCost(20) == 7 && PacketCost(15) == 34 && PacketCost(10) == 61
         && PacketCost(5) == 88 && PacketCost(0) == 115
    ensures Left(25) == 0 && Left(20) == 1 && Left(15) == 2 && Left(10) == 3 && Left(5) == 4 && Left(0) == 5
  {
    assert PacketCost(15) == 27 + PacketCost(20);
    assert PacketCost(10) == 27 + PacketCost(15);
    assert PacketCost(5) == 27 + PacketCost(10);
  }

  // ---------------------------------------------------------------------------
  // Every dispatch pays its way

  /** `s` is being dispatched in a game whose tree has the given states. */
  ghost predicate InPlay(c: Cast, w0: World, s: Signal<Id, GameInput>, m: GameState, p: GameState, q: GameState) {
    && c.Valid() && w0.tree == Some(GameTree(c, m, p, q))
    && KindOf(m) == Menu && KindOf(p) == Ping && KindOf(q) == Pong
    && (FrontOk(c, s) || BackOk(c, s))
  }

  lemma PingEndPays(c: Cast, w0: World, s: Signal<Id, GameInput>, m: GameState, p: GameState, q: GameState, t1: int,
                    t2: int)
    returns (sent: seq<Signal<Id, GameInput>>, asked: seq<Request<Id, Packet>>)
    requires InPlay(c, w0, s, m, p, q) && s.id == c.ping && !IsTerminal(p)
    requires s.input.StartSending? || s.input.PingTimeout? || IsFinal(s)
    ensures Processed(c, w0, s, t1, t2).Some?
    ensures Produces(w0, Processed(c, w0, s, t1, t2).value, sent, asked) && Pays(s, sent, asked)
  {
    PingEnds(c, w0, s, m, p, q, t1, t2);
    CostValues();
    var w1 := Processed(c, w0, s, t1, t2).value;
    if s.input.StartSending? {
      var x := Signal(c.pong, PongPacket(Packet(0, c.ping, s.input.who)));
      sent, asked := [x], [];
      OneSignalPays(w0, w1, s, x);
    } else if s.input.PingTimeout? {
      var x := Signal(c.menu, FailedPing);
      sent, asked := [x], [];
      OneSignalPays(w0, w1, s, x);
    } else {
      var x := Signal(c.menu, PingPongComplete);
      sent, asked := [x], [Request(c.ping, Cancel)];
      OneRequestPays(w0, w1, s, x, Request(c.ping, Cancel));
    }
  }

  lemma PingAnswerPays(c: Cast, w0: World, s: Signal<Id, GameInput>, m: GameState, p: GameState, q: GameState,
                       t1: int, t2: int)
    returns (sent: seq<Signal<Id, GameInput>>, asked: seq<Request<Id, Packet>>)
    requires InPlay(c, w0, s, m, p, q) && s.id == c.ping && !IsTerminal(p) && !IsFinal(s)
    requires s.input.PingPacket? || s.input.PingReturned?
    ensures Processed(c, w0, s, t1, t2).Some?
    ensures Produces(w0, Processed(c, w0, s, t1, t2).value, sent, asked) && Pays(s, sent, asked)
  {
    var packet := PingCounted(s);
    PingCountedFacts(c, s);
    PingOutcome(c, w0, s, m, p, q, t1, t2, packet);
    PingAnswerCosts(c, s);
    var timed := Timed(c, w0, m, p, q, c.ping, t1 + TEST_TIMEOUT);
    sent, asked := AnswerPays(w0, PingReplied(c, timed, s, packet, t2), s, c.ping, c.pong, t1 + TEST_TIMEOUT, packet,
                              PongPacket(packet.(sender := c.ping)), PingHolds(s, packet, t2));
  }

  lemma PingAnswerCosts(c: Cast, s: Signal<Id, GameInput>)
    requires c.Valid() && s.id == c.ping && (FrontOk(c, s) || BackOk(c, s))
    requires s.input.PingReturned? || (s.input.PingPacket? && !IsFinal(s))
    ensures AnswerCosts(s, PingCounted(s), s.input.PingPacket?)
  {
    CostValues();
  }

  lemma PongAnswerPays(c: Cast, w0: World, s: Signal<Id, GameInput>, m: GameState, p: GameState, q: GameState,
                       t1: int, t2: int)
    returns (sent: seq<Signal<Id, GameInput>>, asked: seq<Request<Id, Packet>>)
    requires InPlay(c, w0, s, m, p, q) && s.id == c.pong && !IsTerminal(q)
    requires s.input.PongReturned? || (s.input.PongPacket? && s.input.packet.msg < 20)
    ensures Processed(c, w0, s, t1, t2).Some?
    ensures Produces(w0, Processed(c, w0, s, t1, t2).value, sent, asked) && Pays(s, sent, asked)
  {
    var packet := PongCounted(s);
    PongCountedFacts(c, s);
    PongOutcome(c, w0, s, m, p, q, t1, t2, packet, PongMoved(s, q));
    PongAnswerCosts(c, s);
    var timed := Timed(c, w0, m, p, PongMoved(s, q), c.pong, t1 + TEST_TIMEOUT);
    sent, asked := AnswerPays(w0, PongReplied(c, timed, s, packet, t2), s, c.pong, c.ping, t1 + TEST_TIMEOUT, packet,
                              PingPacket(packet.(sender := c.pong)), PongHolds(s, packet, t2));
  }

  lemma PongAnswerCosts(c: Cast, s: Signal<Id, GameInput>)
    requires c.Valid() && s.id == c.pong && (FrontOk(c, s) || BackOk(c, s))
    requires s.input.PongReturned? || (s.input.PongPacket? && s.input.packet.msg < 20)
    ensures AnswerCosts(s, PongCounted(s), s.input.PongPacket?)
  {
    CostValues();
  }

  /** What an answered signal costs next to the packet that it leaves; a packet just
      received may still be held. */
  ghost predicate AnswerCosts(s: Signal<Id, GameInput>, packet: Packet, received: bool) {
    && TokenOf(s) == 1 && 1 + Left(packet.msg) == Due(s)
    && SignalCost(s) > 11 + PacketCost(packet.msg)
    && (received ==> SignalCost(s) == 27 + PacketCost(packet.msg))
  }

  /** A timer set, and the packet held or sent on. */
  lemma AnswerPays(w0: World, w1: World, s: Signal<Id, GameInput>, own: Id, other: Id, at: int, packet: Packet,
                   input: GameInput, keep: Option<Operation<Packet>>)
    returns (sent: seq<Signal<Id, GameInput>>, asked: seq<Request<Id, Packet>>)
    requires input == PongPacket(packet.(sender := own)) || input == PingPacket(packet.(sender := own))
    requires keep.Some? ==> keep.value.Retain? && keep.value.item == packet
    requires AnswerCosts(s, packet, keep.Some?)
    requires var timed := Requested(w0, own, Set(at));
             && w1.outbox == w0.outbox
             && w1.signals == (if keep.Some? then w0.signals else PushedBack(w0.signals, Signal(other, input)))
             && w1.pipe == (if keep.Some? then Requested(timed, own, keep.value).pipe else timed.pipe)
    ensures Produces(w0, w1, sent, asked) && Pays(s, sent, asked)
  {
    var timer := Request(own, Set(at));
    if keep.Some? {
      var hold := Request(own, keep.value);
      sent, asked := [], [timer, hold];
      TwoRequestsPay(w0, w1, s, timer, hold);
    } else {
      sent, asked := [Signal(other, input)], [timer];
      OneRequestPays(w0, w1, s, Signal(other, input), timer);
    }
  }

  lemma PongEndPays(c: Cast, w0: World, s: Signal<Id, GameInput>, m: GameState, p: GameState, q: GameState, t1: int,
                    t2: int)
    returns (sent: seq<Signal<Id, GameInput>>, asked: seq<Request<Id, Packet>>)
    requires InPlay(c, w0, s, m, p, q) && s.id == c.pong && !IsTerminal(q)
    requires s.input.PongTimeout? || (s.input.PongPacket? && s.input.packet.msg >= 20)
    ensures Processed(c, w0, s, t1, t2).Some?
    ensures Produces(w0, Processed(c, w0, s, t1, t2).value, sent, asked) && Pays(s, sent, asked)
  {
    PongEnds(c, w0, s, m, p, q, t1, t2);
    CostValues();
    var w1 := Processed(c, w0, s, t1, t2).value;
    if s.input.PongTimeout? {
      var x := Signal(c.menu, FailedPong);
      sent, asked := [x], [];
      OneSignalPays(w0, w1, s, x);
    } else {
      var x := Signal(c.ping, LastPacket(c.pong, s.input.packet));
      sent, asked := [x], [Request(c.pong, Cancel)];
      OneRequestPays(w0, w1, s, x, Request(c.pong, Cancel));
    }
  }

  lemma IgnoringPays(c: Cast, w0: World, s: Signal<Id, GameInput>, m: GameState, p: GameState, q: GameState, t1: int,
                     t2: int)
    requires InPlay(c, w0, s, m, p, q)
    requires (s.id == c.ping && IsTerminal(p)) || (s.id == c.pong && IsTerminal(q)) || (s.id == c.menu && IsTerminal(m))
    ensures Processed(c, w0, s, t1, t2) == Some(w0) && Produces(w0, w0, [], []) && Pays(s, [], [])
  {
    PlayerFacts(c, w0, m, p, q);
    CostValues();
    IgnoredPays(w0, s);
  }

  lemma MenuCompletePays(c: Cast, w0: World, s: Signal<Id, GameInput>, m: GameState, p: GameState, q: GameState,
                         t1: int, t2: int)
    requires InPlay(c, w0, s, m, p, q) && s.id == c.menu && !IsTerminal(m) && s.input.PingPongComplete?
    ensures Processed(c, w0, s, t1, t2).Some?
    ensures Produces(w0, Processed(c, w0, s, t1, t2).value, [], []) && Pays(s, [], [])
  {
    PlayerFacts(c, w0, m, p, q);
    MenuUpdate(c, w0, m, p, q);
    IgnoredPays(w0, s);
  }

  lemma MenuFailPays(c: Cast, w0: World, s: Signal<Id, GameInput>, m: GameState, p: GameState, q: GameState, t1: int,
                     t2: int)
    returns (asked: seq<Request<Id, Packet>>)
    requires InPlay(c, w0, s, m, p, q) && s.id == c.menu && !IsTerminal(m)
    requires s.input.FailedPing? || s.input.FailedPong?
    ensures Processed(c, w0, s, t1, t2).Some?
    ensures Produces(w0, Processed(c, w0, s, t1, t2).value, [], asked) && Pays(s, [], asked)
  {
    FailOutcome(c, w0, s, m, p, q, t1, t2);
    CancelledThreeLane(c, w0);
    asked := Cancels([c.ping, c.pong, c.menu]);
    var a, b, d := Request<Id, Packet>.Request(c.ping, Cancel), Request<Id, Packet>.Request(c.pong, Cancel),
        Request<Id, Packet>.Request(c.menu, Cancel);
    assert asked == [a] + [b, d];
    SumOne(a, LaneCost);
    SumTwo(b, d, LaneCost);
    SumConcat([a], [b, d], LaneCost);
    assert w0.signals.back + [] == w0.signals.back;
  }

  lemma DispatchPays(c: Cast, w0: World, s: Signal<Id, GameInput>, m: GameState, p: GameState, q: GameState, t1: int,
                     t2: int)
    returns (sent: seq<Signal<Id, GameInput>>, asked: seq<Request<Id, Packet>>)
    requires InPlay(c, w0, s, m, p, q)
    ensures Processed(c, w0, s, t1, t2).Some?
    ensures Produces(w0, Processed(c, w0, s, t1, t2).value, sent, asked) && Pays(s, sent, asked)
  {
    sent, asked := [], [];
    if (s.id == c.ping && IsTerminal(p)) || (s.id == c.pong && IsTerminal(q)) || (s.id == c.menu && IsTerminal(m)) {
      IgnoringPays(c, w0, s, m, p, q, t1, t2);
    } else if s.id == c.ping {
      if s.input.StartSending? || s.input.PingTimeout? || IsFinal(s) {
        sent, asked := PingEndPays(c, w0, s, m, p, q, t1, t2);
      } else {
        sent, asked := PingAnswerPays(c, w0, s, m, p, q, t1, t2);
      }
    } else if s.id == c.pong {
      if s.input.PongTimeout? || (s.input.PongPacket? && s.input.packet.msg >= 20) {
        sent, asked := PongEndPays(c, w0, s, m, p, q, t1, t2);
      } else {
        sent, asked := PongAnswerPays(c, w0, s, m, p, q, t1, t2);
      }
    } else if s.input.PingPongComplete? {
      MenuCompletePays(c, w0, s, m, p, q, t1, t2);
    } else {
      asked := MenuFailPays(c, w0, s, m, p, q, t1, t2);
    }
  }
}

/** Run-level bounds of the Menu/Ping/Pong system. */
module PingPongBounds {
  import opened Base
  import opened StreamQueue
  import opened Timers
  import opened Pipeline
  import opened PingPong
  import opened PingPongTree
  import opened InFlight
  import opened PingPongSafety
  import opened PingPongRuns
  import opened PingPongProgress
  import TimeoutManagers

  // ---------------------------------------------------------------------------
  // Steps

  /** Every event but a tick is work: it takes something out of some queue. */
  ghost function Work(events: seq<Event>): (n: nat) {
    if events == [] then 0 else (if events[0].TickAt? then 0 else 1) + Work(events[1..])
  }

  lemma DispatchEffects(c: Cast, w: World, m: GameState, p: GameState, q: GameState, t1: int, t2: int)
    returns (sent: seq<Signal<Id, GameInput>>, asked: seq<Request<Id, Packet>>)
    requires Playing(c, w, m, p, q) && Head(w.signals).Some?
    ensures Next(c, w, Dispatch(t1, t2)).Some?
    ensures Produces(Rest(w), Next(c, w, Dispatch(t1, t2)).value, sent, asked)
    ensures Pays(Head(w.signals).value, sent, asked)
  {
    assert InPlay(c, Rest(w), Head(w.signals).value, m, p, q) by { Taken(c, w); }
    sent, asked := DispatchPays(c, Rest(w), Head(w.signals).value, m, p, q, t1, t2);
  }

  lemma CostConsistent()
    ensures Consistent(CostWeights())
  {
  }

  lemma StepCost(c: Cast, w: World, e: Event, m: GameState, p: GameState, q: GameState)
    requires Playing(c, w, m, p, q) && Enabled(w, e)
    ensures Next(c, w, e).Some?
    ensures Cost(Next(c, w, e).value) + Work([e]) <= Cost(w)
  {
    assert Work([e]) == if e.TickAt? then 0 else 1;
    match e
    case Dispatch(t1, t2) =>
      var sent, asked := DispatchEffects(c, w, m, p, q, t1, t2);
      TotalProduces(Rest(w), Next(c, w, e).value, sent, asked, CostWeights());
      TotalPopped(w, CostWeights());
    case RouteOne => TotalRoute(w, CostWeights());
    case ReceiveOne => TotalReceive(w, CostWeights());
    case TickAt(now, order) =>
      OnlyTheCast(c, w.pipe.ledger, w.pipe);
      CostConsistent();
      TotalTick(w, now, order, CostWeights());
    case Emit => TotalEmit(w, CostWeights());
  }

  lemma {:induction false} RunCost(c: Cast, w: World, events: seq<Event>, m: GameState, p: GameState, q: GameState)
    requires Playing(c, w, m, p, q) && LegalRun(c, w, events)
    ensures Outcome(c, w, events).Some?
    ensures Cost(Outcome(c, w, events).value) + Work(events) <= Cost(w)
    decreases |events|
  {
    if events != [] {
      StepCost(c, w, events[0], m, p, q);
      var m', p', q' := PlayingStep(c, w, events[0], m, p, q);
      RunCost(c, Next(c, w, events[0]).value, events[1..], m', p', q');
    }
  }

  lemma StartCost(c: Cast, who: Option<Game>, t1: int, t2: int)
    requires c.Valid()
    ensures Next(c, Start(c, who), Dispatch(t1, t2)).Some?
    ensures Cost(Next(c, Start(c, who), Dispatch(t1, t2)).value) <= 116
  {
    var w := Start(c, who);
    PlayBegins(c, who, t1, t2);
    var w1 := Next(c, w, Dispatch(t1, t2)).value;
    GameTreeBuilt(c);
    var first := Signal(c.ping, StartSending(c.pong, who));
    assert w1.signals == Lanes([], [first]) by { assert Rest(w).signals == Lanes([], []); }
    SumOne(first, SignalCost);
    assert Flat(w1.pipe.ledger.held) == [];
  }

  /** Whatever the interleaving, at most 117 steps of a run take anything out of a
      queue; all others are ticks. */
  lemma {:induction false} WorkBounded(c: Cast, who: Option<Game>, events: seq<Event>)
    requires c.Valid() && LegalRun(c, Start(c, who), events)
    ensures Work(events) <= 117
  {
    if events != [] {
      var w := Start(c, who);
      assert Started(c, w);
      StartedStep(c, w, events[0]);
      if events[0].Dispatch? {
        PlayBegins(c, who, events[0].t1, events[0].t2);
        StartCost(c, who, events[0].t1, events[0].t2);
        RunCost(c, Next(c, w, events[0]).value, events[1..], MenuReady, PingReady, PongReady);
      } else {
        WorkBounded(c, who, events[1..]);
      }
    }
  }

  // ---------------------------------------------------------------------------
  // Packets

  /** Packet signals that a step appends to the normal lane. */
  ghost function SentBy(c: Cast, w: World, e: Event): (n: int)
    requires Enabled(w, e)
  {
    if e.Dispatch? && Next(c, w, e).Some? then
      Sum(Next(c, w, e).value.signals.back, IsPacket) - Sum(Rest(w).signals.back, IsPacket)
    else 0
  }

  /** Packet signals sent by the handlers of a run. */
  ghost function PacketsSent(c: Cast, w: World, events: seq<Event>): (n: int)
    requires LegalRun(c, w, events)
    decreases |events|
  {
    if events == [] || Next(c, w, events[0]).None? then 0 else
      SentBy(c, w, events[0]) + PacketsSent(c, Next(c, w, events[0]).value, events[1..])
  }

  /** After `n` packets, what is in flight has exactly `6 - n` to go. */
  ghost predicate HandOffs(w: World, n: int) {
    && 0 <= n <= 6
    && (forall s | s in w.signals.front && TokenOf(s) == 1 :: n + Due(s) == 6)
    && (forall s | s in w.signals.back && TokenOf(s) == 1 :: n + Due(s) == 6)
    && (forall s | s in w.outbox && TokenOf(s) == 1 :: n + Due(s) == 6)
    && (forall r | r in w.pipe.lane && r.op.Retain? :: n + 1 + Left(r.op.item.msg) == 6)
    && (forall r | r in w.pipe.chan && r.op.Retain? :: n + 1 + Left(r.op.item.msg) == 6)
    && (forall x | x in Flat(w.pipe.ledger.held) :: n + 1 + Left(x.1.msg) == 6)
  }

  lemma NoTokens(w: World)
    requires Tokens(w) == 0
    ensures forall s | s in w.signals.front || s in w.signals.back || s in w.outbox :: TokenOf(s) == 0
    ensures forall r | r in w.pipe.lane || r in w.pipe.chan :: !r.op.Retain?
    ensures Flat(w.pipe.ledger.held) == []
  {
    forall s | s in w.signals.front || s in w.signals.back || s in w.outbox ensures TokenOf(s) == 0 {
      if s in w.signals.front { SumMember(w.signals.front, s, TokenOf); }
      if s in w.signals.back { SumMember(w.signals.back, s, TokenOf); }
      if s in w.outbox { SumMember(w.outbox, s, TokenOf); }
    }
    forall r | r in w.pipe.lane || r in w.pipe.chan ensures !r.op.Retain? {
      if r in w.pipe.lane { SumMember(w.pipe.lane, r, TokenIn); }
      if r in w.pipe.chan { SumMember(w.pipe.chan, r, TokenIn); }
    }
    assert forall x | x in Flat(w.pipe.ledger.held) :: TokenHeld(x) == 1;
  }

  lemma DispatchHandOffs(c: Cast, w: World, m: GameState, p: GameState, q: GameState, t1: int, t2: int, n: int)
    requires Playing(c, w, m, p, q) && Head(w.signals).Some? && HandOffs(w, n)
    ensures Next(c, w, Dispatch(t1, t2)).Some?
    ensures HandOffs(Next(c, w, Dispatch(t1, t2)).value, n + SentBy(c, w, Dispatch(t1, t2)))
  {
    var s, w0 := Head(w.signals).value, Rest(w);
    var sent, asked := DispatchEffects(c, w, m, p, q, t1, t2);
    Taken(c, w);
    SumConcat(w0.signals.back, sent, IsPacket);
    if TokenOf(s) == 1 {
      NoTokens(w0);
    }
  }

  lemma {:induction false} ReturnedDue(pairs: seq<(Id, Packet)>, n: int)
    requires forall x | x in pairs :: n + 1 + Left(x.1.msg) == 6
    ensures forall s | s in TimeoutManagers.ReturnSignals(pairs, ReturnItem) :: n + Due(s) == 6
  {
    if pairs != [] {
      var k := |pairs| - 1;
      assert pairs[k] in pairs;
      assert forall x | x in pairs[..k] :: x in pairs;
      ReturnedDue(pairs[..k], n);
    }
  }

  lemma {:induction false} TimeoutsNoToken(order: seq<Id>, now: int)
    ensures forall s | s in TimeoutManagers.TimeoutSignals(order, now, TimeoutInput) :: TokenOf(s) == 0
  {
    if order != [] {
      TimeoutsNoToken(order[..|order| - 1], now);
    }
  }

  lemma TickHandOffs(w: World, now: int, order: seq<Id>, n: int)
    requires HandOffs(w, n)
    ensures HandOffs(AfterTick(w, now, order), n)
  {
    var held := w.pipe.ledger.held;
    FlatSplit(held, now);
    assert forall x | x in Flat(Before(held, now)) :: x in Flat(held);
    assert forall x | x in Flat(From(held, now)) :: x in Flat(held);
    ReturnedDue(Flat(Before(held, now)), n);
    TimeoutsNoToken(order, now);
  }

  lemma ReceiveHandOffs(w: World, n: int)
    requires HandOffs(w, n) && w.pipe.chan != []
    ensures HandOffs(w.(pipe := After(w.pipe, Receive)), n)
  {
    var r, l := w.pipe.chan[0], w.pipe.ledger;
    if r.op.Retain? {
      var x := (r.id, r.op.item);
      var a, b := FlatHold(l.held, r.op.at, x);
      forall y | y in a + [x] + b ensures n + 1 + Left(y.1.msg) == 6 {
        assert y == x || y in a + b;
      }
    }
  }

  lemma StepHandOffs(c: Cast, w: World, e: Event, m: GameState, p: GameState, q: GameState, n: int)
    requires Playing(c, w, m, p, q) && Enabled(w, e) && HandOffs(w, n)
    ensures Next(c, w, e).Some?
    ensures HandOffs(Next(c, w, e).value, n + SentBy(c, w, e))
  {
    match e
    case Dispatch(t1, t2) => DispatchHandOffs(c, w, m, p, q, t1, t2, n);
    case RouteOne =>
    case ReceiveOne => ReceiveHandOffs(w, n);
    case TickAt(now, order) => TickHandOffs(w, now, order, n);
    case Emit =>
  }

  lemma {:induction false} RunHandOffs(c: Cast, w: World, events: seq<Event>, m: GameState, p: GameState,
                                       q: GameState, n: int)
    requires Playing(c, w, m, p, q) && LegalRun(c, w, events) && HandOffs(w, n)
    ensures Outcome(c, w, events).Some?
    ensures HandOffs(Outcome(c, w, events).value, n + PacketsSent(c, w, events))
    decreases |events|
  {
    if events != [] {
      var m', p', q' := PlayingStep(c, w, events[0], m, p, q);
      var w1, sent := Next(c, w, events[0]).value, SentBy(c, w, events[0]);
      StepHandOffs(c, w, events[0], m, p, q, n);
      RunHandOffs(c, w1, events[1..], m', p', q', n + sent);
      assert Outcome(c, w, events) == Outcome(c, w1, events[1..]);
      assert n + PacketsSent(c, w, events) == n + sent + PacketsSent(c, w1, events[1..]);
    }
  }

  lemma {:induction false} StartHandOffs(c: Cast, who: Option<Game>, events: seq<Event>)
    requires c.Valid() && LegalRun(c, Start(c, who), events)
    ensures Outcome(c, Start(c, who), events).Some?
    ensures HandOffs(Outcome(c, Start(c, who), events).value, PacketsSent(c, Start(c, who), events))
    decreases |events|
  {
    var w := Start(c, who);
    if events != [] {
      assert Started(c, w);
      StartedStep(c, w, events[0]);
      if events[0].Dispatch? {
        BegunHandOffs(c, who, events[0].t1, events[0].t2);
        RunHandOffs(c, Begun(c, who), events[1..], MenuReady, PingReady, PongReady, 0);
      } else {
        StartHandOffs(c, who, events[1..]);
      }
    }
  }

  lemma BegunHandOffs(c: Cast, who: Option<Game>, t1: int, t2: int)
    requires c.Valid()
    ensures var w, e := Start(c, who), Dispatch(t1, t2);
            Enabled(w, e) && Next(c, w, e) == Some(Begun(c, who)) && SentBy(c, w, e) == 0
    ensures HandOffs(Begun(c, who), 0) && Playing(c, Begun(c, who), MenuReady, PingReady, PongReady)
  {
    var w := Start(c, who);
    PlayBegins(c, who, t1, t2);
    assert Rest(w).signals == Lanes([], []);
    assert Begun(c, who).signals == Lanes([], [Signal(c.ping, StartSending(c.pong, who))]);
    SumOne(Signal(c.ping, StartSending(c.pong, who)), IsPacket);
  }

  /** Every hand-off adds five: after `n` packets the one in the queue, if there is
      one, carries `5 * (n - 1)`; and no run ever sends more than six. */
  lemma EveryHandOffAddsFive(c: Cast, who: Option<Game>, events: seq<Event>)
    requires c.Valid() && LegalRun(c, Start(c, who), events)
    ensures Outcome(c, Start(c, who), events).Some?
    ensures var w, n := Outcome(c, Start(c, who), events).value, PacketsSent(c, Start(c, who), events);
            && 0 <= n <= 6
            && (forall s | s in w.signals.back && s.input.PingPacket? :: s.input.packet.msg == 5 * (n - 1))
            && (forall s | s in w.signals.back && s.input.PongPacket? :: s.input.packet.msg == 5 * (n - 1))
  {
    assert Started(c, Start(c, who));
    RunKeeps(c, Start(c, who), events);
    StartHandOffs(c, who, events);
    var w := Outcome(c, Start(c, who), events).value;
    forall s | s in w.signals.back && (s.input.PingPacket? || s.input.PongPacket?)
      ensures s.input.packet.msg == 5 * (PacketsSent(c, Start(c, who), events) - 1)
    {
      PacketCounted(c, w, s, PacketsSent(c, Start(c, who), events));
    }
  }

  lemma PacketCounted(c: Cast, w: World, s: Signal<Id, GameInput>, n: int)
    requires Invariant(c, w) && HandOffs(w, n)
    requires s in w.signals.back && (s.input.PingPacket? || s.input.PongPacket?)
    ensures s.input.packet.msg == 5 * (n - 1)
  {
    CostValues();
    assert BackOk(c, s);
    assert n + Left(s.input.packet.msg) == 6;
  }
}

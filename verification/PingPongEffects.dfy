/** The order of a handler's effects (src/manager.rs:592-806), seen in every state of every
    run in which the other loops act between them: what is still to be done when
    somebody else looks. */
module PingPongEffects {
  import opened Base
  import opened PingPong
  import opened PingPongSafety
  import opened PingPongRuns
  import opened PingPongAtomic
  import opened Timers
  import opened StreamQueue
  import InFlight

  /** The effect hands the packet on, or keeps it. */
  ghost predicate Carries(x: Effect) {
    match x
    case Push(s) => TokenOf(s) == 1
    case Ask(r) => r.op.Retain?
    case _ => false
  }

  ghost predicate SetsTimer(x: Effect) {
    x.Ask? && x.r.op.Set?
  }

  /** A timer is set before anything else, the tree has got its new states before a
      signal is sent, and the packet is let go, or a failure recorded, last of all. */
  ghost predicate InOrder(es: seq<Effect>) {
    && (forall i | 0 < i < |es| :: !SetsTimer(es[i]))
    && (forall i, j | 0 <= i < j < |es| :: es[i].Push? ==> !es[j].Grow?)
    && (forall i | 0 <= i < |es| - 1 :: !Carries(es[i]) && !es[i].Record?)
  }

  /** The packet is still with the handler: it is neither queued nor held nor on its way. */
  ghost predicate PacketWaits(f: Fine) {
    f.todo != [] && Carries(f.todo[|f.todo| - 1]) ==> Tokens(f.w) == 0
  }

  // ---------------------------------------------------------------------------
  // Every plan is in order

  lemma ReturnInOrder(first: seq<Effect>, id: Id, packet: Packet)
    requires InOrder(first) && (forall x | x in first :: !x.Push? && !Carries(x) && !x.Record?)
    ensures var plan := Prefixed(first, ReturnPlan(id, packet)); plan.Some? ==> InOrder(plan.value)
  {
  }

  lemma ForwardInOrder(first: seq<Effect>, id: Id, packet: Packet, t2: int)
    requires InOrder(first) && (forall x | x in first :: !x.Push? && !Carries(x) && !x.Record?)
    ensures var plan := Prefixed(first, ForwardPlan(id, packet, t2)); plan.Some? ==> InOrder(plan.value)
  {
    ReturnInOrder(first, id, packet);
  }

  lemma PingInOrder(w: World, id: Id, input: GameInput, t1: int, t2: int)
    requires PingPlan(w, id, input, t1, t2).Some?
    ensures InOrder(PingPlan(w, id, input, t1, t2).value)
  {
    match input
    case PingPacket(packet) => ForwardInOrder([Timer(id, t1)], id, packet.(msg := packet.msg + 5), t2);
    case PingReturned(packet) => ReturnInOrder([Timer(id, t1)], id, packet);
    case _ =>
  }

  lemma LastInOrder(w: World, id: Id, packet: Packet)
    requires Known(w, id)
    ensures InOrder(Report(w, id, PongDone)
                    + [Ask(Request(id, Cancel)), Push(Signal(packet.sender, LastPacket(id, packet)))])
  {
    assert !Carries(Report(w, id, PongDone)[|Report(w, id, PongDone)| - 1]);
  }

  lemma PongInOrder(w: World, id: Id, input: GameInput, t1: int, t2: int)
    requires PongPlan(w, id, input, t1, t2).Some?
    ensures InOrder(PongPlan(w, id, input, t1, t2).value)
  {
    match input
    case PongPacket(packet) =>
      if Known(w, id) && packet.msg >= 20 {
        LastInOrder(w, id, packet);
      } else if Known(w, id) {
        ForwardInOrder([Timer(id, t1)] + Responding(w, id, packet), id, packet.(msg := packet.msg + 5), t2);
      }
    case PongReturned(packet) => ReturnInOrder([Timer(id, t1)], id, packet);
    case _ =>
  }

  lemma PlanInOrder(c: Cast, w: World, s: Signal<Id, GameInput>, t1: int, t2: int)
    requires Plan(c, w, s, t1, t2).Some?
    ensures InOrder(Plan(c, w, s, t1, t2).value)
  {
    match s.id.kind
    case Menu =>
    case Ping => PingInOrder(w, s.id, s.input, t1, t2);
    case Pong => PongInOrder(w, s.id, s.input, t1, t2);
  }

  // ---------------------------------------------------------------------------
  // Every state

  lemma {:induction false} AlwaysInOrder(c: Cast, f: Fine, steps: seq<FineStep>)
    requires InOrder(f.todo) && FineLegal(c, f, steps)
    ensures FineOutcome(c, f, steps).Some? ==> InOrder(FineOutcome(c, f, steps).value.todo)
    decreases |steps|
  {
    if steps != [] && FineNext(c, f, steps[0]).Some? {
      match steps[0] {
        case Begin(t1, t2) =>
          PlanInOrder(c, f.w.(signals := Popped(f.w.signals)), Head(f.w.signals).value, t1, t2);
        case DoNext =>
        case Other(_) =>
      }
      AlwaysInOrder(c, FineNext(c, f, steps[0]).value, steps[1..]);
    }
  }

  lemma TokensDone(w: World, x: Effect)
    ensures Tokens(Done(w, x)) == Tokens(w) + if Carries(x) then 1 else 0
  {
    match x
    case Ask(r) => InFlight.TotalRequested(w, r.id, r.op, TokenWeights());
    case Push(s) => InFlight.TotalSent(w, s.id, s.input, TokenWeights());
    case _ =>
  }

  lemma {:induction false} TokensAllDone(w: World, es: seq<Effect>)
    ensures Tokens(AllDone(w, es)) >= Tokens(w) + if es != [] && Carries(es[|es| - 1]) then 1 else 0
    decreases |es|
  {
    if es != [] {
      TokensDone(w, es[0]);
      TokensAllDone(Done(w, es[0]), es[1..]);
    }
  }

  lemma AtMostOne(c: Cast, who: Option<Game>, events: seq<Event>, w: World)
    requires c.Valid() && Leads(c, Start(c, who), events, w)
    ensures Tokens(w) <= 1
  {
    assert Started(c, Start(c, who));
    RunKeeps(c, Start(c, who), events);
    if Started(c, w) {
      StartedTokens(c, w);
    }
  }

  lemma WaitsForTheEnd(f: Fine)
    requires Tokens(AllDone(f.w, f.todo)) <= 1
    ensures PacketWaits(f)
  {
    TokensAllDone(f.w, f.todo);
  }

  /** In every state of every run, however the other loops interleave: what the current
      handler has still to do is in order, and until it has done everything else the
      packet it was given, or is about to send, is nowhere to be found. So nobody gets
      the packet before its sender's timer was set, its new state was stored and its
      parent was told. */
  lemma PacketGoesLast(c: Cast, who: Option<Game>, steps: seq<FineStep>)
    requires c.Valid() && FineLegal(c, Fine(Start(c, who), []), steps)
    ensures FineOutcome(c, Fine(Start(c, who), []), steps).Some?
    ensures var g := FineOutcome(c, Fine(Start(c, who), []), steps).value; InOrder(g.todo) && PacketWaits(g)
  {
    var events := HandlersActAtomically(c, who, steps);
    var g := FineOutcome(c, Fine(Start(c, who), []), steps).value;
    AlwaysInOrder(c, Fine(Start(c, who), []), steps);
    AtMostOne(c, who, events, AllDone(g.w, g.todo));
    WaitsForTheEnd(g);
  }
}

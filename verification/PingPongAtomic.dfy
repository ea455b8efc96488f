/** Why a dispatch may be taken as one step. A handler locks the tree and the queues
    one after the other, and routing, receiving, ticking and emitting go on in between.
    Here a handler is the sequence of its effects in source order, and every run in
    which the other loops act between those effects is shown to be a run in which each
    dispatch is atomic. */
module PingPongAtomic {
  import opened Base
  import opened StateTree
  import opened StreamQueue
  import opened Timers
  import opened Pipeline
  import opened PingPong
  import opened PingPongRuns
  import SharedTrees
  import Manager

  // ---------------------------------------------------------------------------
  // Effects

  datatype Effect =
    | Grow(tree: Node<Id, GameState>)
    | Ask(r: Request<Id, Packet>)
    | Push(s: Signal<Id, GameInput>)
    | Record(id: Id, failure: GameInput)

  ghost function Done(w: World, e: Effect): (next: World) {
    match e
    case Grow(tree) => w.(tree := Some(tree))
    case Ask(r) => Requested(w, r.id, r.op)
    case Push(s) => Sent(w, s.id, s.input)
    case Record(id, failure) => w.(failures := w.failures[id := failure])
  }

  ghost function AllDone(w: World, es: seq<Effect>): (next: World)
    decreases |es|
  {
    if es == [] then w else AllDone(Done(w, es[0]), es[1..])
  }

  lemma {:induction false} AllDoneConcat(w: World, a: seq<Effect>, b: seq<Effect>)
    ensures AllDone(w, a + b) == AllDone(AllDone(w, a), b)
    decreases |a|
  {
    if a == [] {
      assert a + b == b;
    } else {
      assert (a + b)[1..] == a[1..] + b;
      AllDoneConcat(Done(w, a[0]), a[1..], b);
    }
  }

  lemma AllDoneOne(w: World, e: Effect)
    ensures AllDone(w, [e]) == Done(w, e)
  {
    assert [e][1..] == [];
  }

  lemma AllDoneTwo(w: World, e: Effect, f: Effect)
    ensures AllDone(w, [e, f]) == Done(Done(w, e), f)
  {
    assert [e, f][1..] == [f];
    AllDoneOne(Done(w, e), f);
  }

  /** One effect, then the others. */
  lemma AllDoneThen(w: World, e: Effect, es: seq<Effect>)
    ensures AllDone(w, [e] + es) == AllDone(Done(w, e), es)
  {
    assert ([e] + es)[1..] == es;
  }

  // ---------------------------------------------------------------------------
  // The handlers as sequences of effects; None where the source would panic

  /** `update_state_and_signal`: first the tree, then the parent's signal, if any. */
  ghost function Report(w: World, id: Id, s: GameState): (effects: seq<Effect>)
    requires Known(w, id)
  {
    var sent := Manager.StateChange(ParentOf(w.tree.value, id), s, StateInput);
    [Grow(Updated(w, id, s).tree.value)] + if sent == [] then [] else [Push(sent[0])]
  }

  lemma ReportDone(w: World, id: Id, s: GameState)
    requires Known(w, id)
    ensures AllDone(w, Report(w, id, s)) == UpdatedAndSignalled(w, id, s)
  {
    var sent := Manager.StateChange(ParentOf(w.tree.value, id), s, StateInput);
    var grow := Grow(Updated(w, id, s).tree.value);
    if sent == [] {
      assert Report(w, id, s) == [grow];
      AllDoneOne(w, grow);
      assert w.signals.back + sent == w.signals.back;
    } else {
      assert Report(w, id, s) == [grow, Push(sent[0])];
      AllDoneTwo(w, grow, Push(sent[0]));
    }
  }

  ghost function ReturnPlan(id: Id, packet: Packet): (r: Option<seq<Effect>>) {
    var own := packet.(sender := id);
    match id.kind
    case Ping => Some([Push(Signal(packet.sender, PongPacket(own)))])
    case Pong => Some([Push(Signal(packet.sender, PingPacket(own)))])
    case Menu => None
  }

  ghost function ForwardPlan(id: Id, packet: Packet, t2: int): (r: Option<seq<Effect>>) {
    if packet.whoHolds == Some(id.kind) then Some([Ask(Request(id, Retain(packet, t2 + packet.msg * MILLIS)))])
    else ReturnPlan(id, packet)
  }

  ghost function Prefixed(first: seq<Effect>, rest: Option<seq<Effect>>): (r: Option<seq<Effect>>) {
    if rest.None? then None else Some(first + rest.value)
  }

  ghost function Timer(id: Id, t1: int): (effect: Effect) {
    Ask(Request(id, Set(t1 + TEST_TIMEOUT)))
  }

  ghost function PingPlan(w: World, id: Id, input: GameInput, t1: int, t2: int): (r: Option<seq<Effect>>) {
    if !input.ForPing() then Some([])
    else if !Known(w, id) || ParentOf(w.tree.value, id).None? then None
    else if IsTerminal(StateAt(w, id)) then Some([])
    else match input
      case StartSending(pong, who) =>
        Some([Grow(Updated(w, id, PingSending).tree.value), Push(Signal(pong, PongPacket(Packet(0, id, who))))])
      case PingPacket(packet) =>
        if packet.msg >= 25 then Some(Report(w, id, PingDone) + [Ask(Request(id, Cancel))])
        else Prefixed([Timer(id, t1)], ForwardPlan(id, packet.(msg := packet.msg + 5), t2))
      case PingReturned(packet) => Prefixed([Timer(id, t1)], ReturnPlan(id, packet))
      case _ => Some(Report(w, id, PingFailed))
  }

  ghost function PongPlan(w: World, id: Id, input: GameInput, t1: int, t2: int): (r: Option<seq<Effect>>) {
    if !input.ForPong() then Some([])
    else if !Known(w, id) then None
    else if IsTerminal(StateAt(w, id)) then Some([])
    else if ParentOf(w.tree.value, id).None? then None
    else match input
      case PongPacket(packet) =>
        if packet.msg >= 20 then
          Some(Report(w, id, PongDone)
               + [Ask(Request(id, Cancel)), Push(Signal(packet.sender, LastPacket(id, packet)))])
        else
          Prefixed([Timer(id, t1)] + Responding(w, id, packet), ForwardPlan(id, packet.(msg := packet.msg + 5), t2))
      case PongReturned(packet) => Prefixed([Timer(id, t1)], ReturnPlan(id, packet))
      case _ => Some(Report(w, id, PongFailed))
  }

  ghost function Responding(w: World, id: Id, packet: Packet): (effects: seq<Effect>)
    requires Known(w, id)
  {
    if packet.msg == 0 then [Grow(Updated(w, id, PongResponding).tree.value)] else []
  }

  ghost function Asks(rs: seq<Request<Id, Packet>>): (effects: seq<Effect>) {
    seq(|rs|, i requires 0 <= i < |rs| => Ask(rs[i]))
  }

  /** Play builds the tree in three steps; a failure cancels node by node while the
      tree is locked, and then the tree is put back. */
  ghost function MenuPlan(c: Cast, w: World, id: Id, input: GameInput): (r: Option<seq<Effect>>) {
    if !input.ForMenu() then Some([])
    else if Known(w, id) && IsTerminal(StateAt(w, id)) then Some([])
    else match input
      case Play(who) =>
        var root := NewNode(id, NewState);
        var one := SharedTrees.Applied(root, SharedTrees.TreeOp.Insert(id, c.ping), NewState);
        var two := SharedTrees.Applied(one, SharedTrees.TreeOp.Insert(id, c.pong), NewState);
        Some([Grow(root), Grow(one)] + [Grow(two), Push(Signal(c.ping, StartSending(c.pong, who)))])
      case PingPongComplete =>
        if !Known(w, id) then None else Some(Report(w, id, MenuDone))
      case _ =>
        if !Known(w, id) then None else
          Some(Asks(Cancels(PostOrder(w.tree.value)))
               + [Grow(AllFailed(w, id, input).tree.value), Record(id, input)])
  }

  ghost function Plan(c: Cast, w: World, s: Signal<Id, GameInput>, t1: int, t2: int): (r: Option<seq<Effect>>) {
    match s.id.kind
    case Menu => MenuPlan(c, w, s.id, s.input)
    case Ping => PingPlan(w, s.id, s.input, t1, t2)
    case Pong => PongPlan(w, s.id, s.input, t1, t2)
  }

  // ---------------------------------------------------------------------------
  // Effect by effect, a handler does what the atomic step does

  /** The plan panics where the step does, and otherwise ends where the step ends. */
  ghost predicate Agrees(w: World, plan: Option<seq<Effect>>, result: Option<World>) {
    if plan.None? then result.None? else result == Some(AllDone(w, plan.value))
  }

  lemma ReturnAgrees(w: World, id: Id, packet: Packet)
    ensures Agrees(w, ReturnPlan(id, packet), PacketReturned(w, id, packet))
  {
    if ReturnPlan(id, packet).Some? {
      AllDoneOne(w, ReturnPlan(id, packet).value[0]);
    }
  }

  lemma ForwardAgrees(w: World, id: Id, packet: Packet, t2: int)
    ensures Agrees(w, ForwardPlan(id, packet, t2), Forwarded(w, id, packet, t2))
  {
    if packet.whoHolds == Some(id.kind) {
      AllDoneOne(w, Ask(Request(id, Retain(packet, t2 + packet.msg * MILLIS))));
    } else {
      ReturnAgrees(w, id, packet);
    }
  }

  lemma PrefixedAgrees(w: World, first: seq<Effect>, rest: Option<seq<Effect>>, result: Option<World>)
    requires Agrees(AllDone(w, first), rest, result)
    ensures Agrees(w, Prefixed(first, rest), result)
  {
    if rest.Some? {
      AllDoneConcat(w, first, rest.value);
    }
  }

  lemma PingAgrees(w: World, id: Id, input: GameInput, t1: int, t2: int)
    ensures Agrees(w, PingPlan(w, id, input, t1, t2), PingProcess(w, id, input, t1, t2))
  {
    if !input.ForPing() || !Known(w, id) || ParentOf(w.tree.value, id).None? || IsTerminal(StateAt(w, id)) {
      return;
    }
    PingActiveAgrees(w, id, input, t1, t2);
  }

  lemma PingActiveAgrees(w: World, id: Id, input: GameInput, t1: int, t2: int)
    requires input.ForPing() && Known(w, id) && ParentOf(w.tree.value, id).Some? && !IsTerminal(StateAt(w, id))
    ensures Agrees(w, PingPlan(w, id, input, t1, t2), PingProcess(w, id, input, t1, t2))
  {
    var timed := Requested(w, id, Set(t1 + TEST_TIMEOUT));
    AllDoneOne(w, Timer(id, t1));
    match input
    case StartSending(pong, who) =>
      AllDoneTwo(w, Grow(Updated(w, id, PingSending).tree.value), Push(Signal(pong, PongPacket(Packet(0, id, who)))));
    case PingPacket(packet) =>
      if packet.msg >= 25 {
        ReportDone(w, id, PingDone);
        AllDoneConcat(w, Report(w, id, PingDone), [Ask(Request(id, Cancel))]);
        AllDoneOne(UpdatedAndSignalled(w, id, PingDone), Ask(Request(id, Cancel)));
      } else {
        var sent := packet.(msg := packet.msg + 5);
        ForwardAgrees(timed, id, sent, t2);
        PrefixedAgrees(w, [Timer(id, t1)], ForwardPlan(id, sent, t2), Forwarded(timed, id, sent, t2));
      }
    case PingReturned(packet) =>
      ReturnAgrees(timed, id, packet);
      PrefixedAgrees(w, [Timer(id, t1)], ReturnPlan(id, packet), PacketReturned(timed, id, packet));
    case _ =>
      ReportDone(w, id, PingFailed);
  }

  lemma PongAgrees(w: World, id: Id, input: GameInput, t1: int, t2: int)
    ensures Agrees(w, PongPlan(w, id, input, t1, t2), PongProcess(w, id, input, t1, t2))
  {
    if !input.ForPong() || !Known(w, id) || IsTerminal(StateAt(w, id)) || ParentOf(w.tree.value, id).None? {
      return;
    }
    PongActiveAgrees(w, id, input, t1, t2);
  }

  lemma PongActiveAgrees(w: World, id: Id, input: GameInput, t1: int, t2: int)
    requires input.ForPong() && Known(w, id) && ParentOf(w.tree.value, id).Some? && !IsTerminal(StateAt(w, id))
    ensures Agrees(w, PongPlan(w, id, input, t1, t2), PongProcess(w, id, input, t1, t2))
  {
    match input
    case PongPacket(packet) =>
      if packet.msg >= 20 {
        PongLastAgrees(w, id, packet);
      } else {
        PongNextAgrees(w, id, packet, t1, t2);
      }
    case PongReturned(packet) =>
      var timed := Requested(w, id, Set(t1 + TEST_TIMEOUT));
      AllDoneOne(w, Timer(id, t1));
      ReturnAgrees(timed, id, packet);
      PrefixedAgrees(w, [Timer(id, t1)], ReturnPlan(id, packet), PacketReturned(timed, id, packet));
    case _ =>
      ReportDone(w, id, PongFailed);
  }

  lemma PongLastAgrees(w: World, id: Id, packet: Packet)
    requires Known(w, id)
    ensures AllDone(w, Report(w, id, PongDone) + [Ask(Request(id, Cancel)),
                                                  Push(Signal(packet.sender, LastPacket(id, packet)))])
         == Sent(Requested(UpdatedAndSignalled(w, id, PongDone), id, Cancel), packet.sender, LastPacket(id, packet))
  {
    var cancel := Ask(Request(id, Cancel));
    var last := Push(Signal(packet.sender, LastPacket(id, packet)));
    ReportDone(w, id, PongDone);
    AllDoneConcat(w, Report(w, id, PongDone), [cancel, last]);
    AllDoneTwo(UpdatedAndSignalled(w, id, PongDone), cancel, last);
  }

  lemma PongNextAgrees(w: World, id: Id, packet: Packet, t1: int, t2: int)
    requires Known(w, id)
    ensures var timed := Requested(w, id, Set(t1 + TEST_TIMEOUT));
            var started := if packet.msg == 0 then Updated(timed, id, PongResponding) else timed;
            var sent := packet.(msg := packet.msg + 5);
            Agrees(w, Prefixed([Timer(id, t1)] + Responding(w, id, packet), ForwardPlan(id, sent, t2)),
                   Forwarded(started, id, sent, t2))
  {
    var timed := Requested(w, id, Set(t1 + TEST_TIMEOUT));
    var started := if packet.msg == 0 then Updated(timed, id, PongResponding) else timed;
    var sent := packet.(msg := packet.msg + 5);
    AllDoneThen(w, Timer(id, t1), Responding(w, id, packet));
    if packet.msg == 0 {
      AllDoneOne(timed, Responding(w, id, packet)[0]);
    }
    ForwardAgrees(started, id, sent, t2);
    PrefixedAgrees(w, [Timer(id, t1)] + Responding(w, id, packet), ForwardPlan(id, sent, t2),
                   Forwarded(started, id, sent, t2));
  }

  lemma {:induction false} AsksDone(w: World, rs: seq<Request<Id, Packet>>)
    ensures AllDone(w, Asks(rs)) == w.(pipe := w.pipe.(lane := w.pipe.lane + rs))
    decreases |rs|
  {
    if rs == [] {
      assert w.pipe.lane + rs == w.pipe.lane;
    } else {
      assert Asks(rs)[1..] == Asks(rs[1..]);
      AsksDone(Requested(w, rs[0].id, rs[0].op), rs[1..]);
      assert w.pipe.lane + [rs[0]] + rs[1..] == w.pipe.lane + rs;
    }
  }

  lemma PlayAgrees(c: Cast, w: World, id: Id, who: Option<Game>)
    requires !Known(w, id) || !IsTerminal(StateAt(w, id))
    ensures Agrees(w, MenuPlan(c, w, id, Play(who)), MenuProcess(c, w, id, Play(who)))
  {
    var ping, pong := SharedTrees.TreeOp<Id, GameState>.Insert(id, c.ping),
        SharedTrees.TreeOp<Id, GameState>.Insert(id, c.pong);
    var root := NewNode(id, NewState);
    var one := SharedTrees.Applied(root, ping, NewState);
    var two := SharedTrees.Applied(one, pong, NewState);
    assert [ping, pong][1..] == [pong] && [pong][1..] == [];
    assert SharedTrees.Run(one, [pong], NewState) == SharedTrees.Run(two, [], NewState);
    assert SharedTrees.Run(root, [ping, pong], NewState) == two;
    var start := Push(Signal(c.ping, StartSending(c.pong, who)));
    AllDoneConcat(w, [Grow(root), Grow(one)], [Grow(two), start]);
    AllDoneTwo(w, Grow(root), Grow(one));
    AllDoneTwo(w.(tree := Some(one)), Grow(two), start);
  }

  lemma FailureAgrees(c: Cast, w: World, id: Id, input: GameInput)
    requires input.FailedPing? || input.FailedPong?
    requires Known(w, id) && !IsTerminal(StateAt(w, id))
    ensures Agrees(w, MenuPlan(c, w, id, input), MenuProcess(c, w, id, input))
  {
    var cancels := Cancels<Id, Packet>(PostOrder(w.tree.value));
    var asked := w.(pipe := w.pipe.(lane := w.pipe.lane + cancels));
    var grow, record := Grow(AllFailed(w, id, input).tree.value), Record(id, input);
    AsksDone(w, cancels);
    AllDoneConcat(w, Asks(cancels), [grow, record]);
    AllDoneTwo(asked, grow, record);
  }

  lemma MenuAgrees(c: Cast, w: World, id: Id, input: GameInput)
    ensures Agrees(w, MenuPlan(c, w, id, input), MenuProcess(c, w, id, input))
  {
    if !input.ForMenu() || (Known(w, id) && IsTerminal(StateAt(w, id))) {
      return;
    }
    if input.Play? {
      PlayAgrees(c, w, id, input.who);
    } else if Known(w, id) {
      if input.PingPongComplete? {
        ReportDone(w, id, MenuDone);
      } else {
        FailureAgrees(c, w, id, input);
      }
    }
  }

  lemma PlanAgrees(c: Cast, w: World, s: Signal<Id, GameInput>, t1: int, t2: int)
    ensures Agrees(w, Plan(c, w, s, t1, t2), Processed(c, w, s, t1, t2))
  {
    match s.id.kind
    case Menu => MenuAgrees(c, w, s.id, s.input);
    case Ping => PingAgrees(w, s.id, s.input, t1, t2);
    case Pong => PongAgrees(w, s.id, s.input, t1, t2);
  }

  // ---------------------------------------------------------------------------
  // Runs in which the other loops act between effects

  /** `todo` is what the current handler has still to do. */
  datatype Fine = Fine(w: World, todo: seq<Effect>)

  datatype FineStep =
    | Begin(t1: int, t2: int)
    | DoNext
    | Other(e: Event)

  ghost predicate FineEnabled(f: Fine, st: FineStep) {
    match st
    case Begin(_, _) => f.todo == [] && Head(f.w.signals).Some?
    case DoNext => f.todo != []
    case Other(e) => !e.Dispatch? && Enabled(f.w, e)
  }

  ghost function FineNext(c: Cast, f: Fine, st: FineStep): (next: Option<Fine>)
    requires FineEnabled(f, st)
  {
    match st
    case Begin(t1, t2) =>
      var w0 := f.w.(signals := Popped(f.w.signals));
      var plan := Plan(c, w0, Head(f.w.signals).value, t1, t2);
      if plan.None? then None else Some(Fine(w0, plan.value))
    case DoNext => Some(Fine(Done(f.w, f.todo[0]), f.todo[1..]))
    case Other(e) => Some(f.(w := Next(c, f.w, e).value))
  }

  ghost predicate FineLegal(c: Cast, f: Fine, steps: seq<FineStep>)
    decreases |steps|
  {
    steps != [] ==>
      FineEnabled(f, steps[0])
      && (FineNext(c, f, steps[0]).Some? ==> FineLegal(c, FineNext(c, f, steps[0]).value, steps[1..]))
  }

  ghost function FineOutcome(c: Cast, f: Fine, steps: seq<FineStep>): (next: Option<Fine>)
    requires FineLegal(c, f, steps)
    decreases |steps|
  {
    if steps == [] then Some(f)
    else if FineNext(c, f, steps[0]).None? then None
    else FineOutcome(c, FineNext(c, f, steps[0]).value, steps[1..])
  }

  /** A step of another loop and an effect of a handler can change places. */
  lemma EffectCommutes(c: Cast, w: World, e: Event, x: Effect)
    requires !e.Dispatch? && Enabled(w, e)
    ensures Next(c, w, e).Some? && Enabled(Done(w, x), e)
    ensures Next(c, Done(w, x), e) == Some(Done(Next(c, w, e).value, x))
  {
    if e.RouteOne? && x.Ask? {
      assert (w.pipe.lane + [x.r])[1..] == w.pipe.lane[1..] + [x.r];
    }
  }

  lemma {:induction false} EffectsCommute(c: Cast, w: World, e: Event, es: seq<Effect>)
    requires !e.Dispatch? && Enabled(w, e)
    ensures Next(c, w, e).Some? && Enabled(AllDone(w, es), e)
    ensures Next(c, AllDone(w, es), e) == Some(AllDone(Next(c, w, e).value, es))
    decreases |es|
  {
    if es != [] {
      EffectCommutes(c, w, e, es[0]);
      EffectsCommute(c, Done(w, es[0]), e, es[1..]);
    } else {
      assert Next(c, w, e).Some?;
    }
  }

  /** A handler that begins will end where the atomic dispatch ends. */
  lemma BeginIsDispatch(c: Cast, f: Fine, t1: int, t2: int)
    requires FineEnabled(f, Begin(t1, t2)) && Invariant(c, f.w)
    ensures FineNext(c, f, Begin(t1, t2)).Some? && Enabled(f.w, Dispatch(t1, t2))
    ensures var g := FineNext(c, f, Begin(t1, t2)).value;
            Next(c, f.w, Dispatch(t1, t2)) == Some(AllDone(g.w, g.todo))
  {
    InvariantStep(c, f.w, Dispatch(t1, t2));
    PlanAgrees(c, f.w.(signals := Popped(f.w.signals)), Head(f.w.signals).value, t1, t2);
  }

  /** One fine step is one atomic step, or none, of the system with the current
      handler run to its end. */
  lemma FineStepReduces(c: Cast, w0: World, events: seq<Event>, f: Fine, st: FineStep) returns (more: seq<Event>)
    requires Invariant(c, w0) && Leads(c, w0, events, AllDone(f.w, f.todo)) && FineEnabled(f, st)
    ensures FineNext(c, f, st).Some?
    ensures var g := FineNext(c, f, st).value; Leads(c, w0, more, AllDone(g.w, g.todo))
  {
    more := events;
    match st
    case Begin(t1, t2) =>
      RunKeeps(c, w0, events);
      BeginIsDispatch(c, f, t1, t2);
      LeadsOneMore(c, w0, events, f.w, Dispatch(t1, t2));
      more := events + [Dispatch(t1, t2)];
    case DoNext =>
    case Other(e) =>
      EffectsCommute(c, f.w, e, f.todo);
      LeadsOneMore(c, w0, events, AllDone(f.w, f.todo), e);
      more := events + [e];
  }

  lemma {:induction false} FineRunReduces(c: Cast, w0: World, events: seq<Event>, f: Fine, steps: seq<FineStep>)
    returns (more: seq<Event>)
    requires Invariant(c, w0) && Leads(c, w0, events, AllDone(f.w, f.todo)) && FineLegal(c, f, steps)
    ensures FineOutcome(c, f, steps).Some?
    ensures var g := FineOutcome(c, f, steps).value; Leads(c, w0, more, AllDone(g.w, g.todo))
    decreases |steps|
  {
    more := events;
    if steps != [] {
      var one := FineStepReduces(c, w0, events, f, steps[0]);
      more := FineRunReduces(c, w0, one, FineNext(c, f, steps[0]).value, steps[1..]);
    }
  }

  /** However the other loops interleave with the effects of the handlers, nothing
      panics, and the system with the current handler run to its end is one that a run
      of atomic dispatches reaches; between handlers it is that system itself. */
  lemma HandlersActAtomically(c: Cast, who: Option<Game>, steps: seq<FineStep>) returns (events: seq<Event>)
    requires c.Valid() && FineLegal(c, Fine(Start(c, who), []), steps)
    ensures FineOutcome(c, Fine(Start(c, who), []), steps).Some?
    ensures var g := FineOutcome(c, Fine(Start(c, who), []), steps).value;
            && Leads(c, Start(c, who), events, AllDone(g.w, g.todo))
            && (g.todo == [] ==> Leads(c, Start(c, who), events, g.w))
  {
    assert Started(c, Start(c, who));
    events := FineRunReduces(c, Start(c, who), [], Fine(Start(c, who), []), steps);
  }
}

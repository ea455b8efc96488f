/** The Menu, Ping and Pong handlers themselves (src/manager.rs:592-806), acting in
    place on the store, the shared tree and the queues, each proved to take the step
    of the `PingPong` state machine. Where that machine does not panic, no unwrap and
    no assertion here fails. */
module GameMachines {
  import opened Base
  import opened StateTree
  import opened SharedTrees
  import opened StreamQueue
  import opened PingPong
  import TreeZipper
  import Manager
  import Pipeline
  import T = Timers

  type Ctx = Manager.SmContext<Game, GameState, GameInput, Packet>

  ghost predicate InCast(c: Cast, id: Id) {
    id == c.menu || id == c.ping || id == c.pong
  }

  /** The part of the system a handler sees and changes. The store may hold the trees
      of other games too. */
  ghost predicate Represents(ctx: Ctx, c: Cast, w: World)
    reads ctx.signalQueue, ctx.notificationQueue, ctx.store, ctx.store.trees.Values
  {
    && ctx.Valid() && c.Valid() && InCast(c, ctx.id)
    && w.signals == Lanes(ctx.signalQueue.front, ctx.signalQueue.back)
    && w.pipe.lane == ctx.notificationQueue.front
    && (forall id | InCast(c, id) :: id in ctx.store.trees <==> Known(w, id))
    && (w.tree.Some? ==> c.menu in ctx.store.trees && ctx.store.trees[c.menu].node == w.tree.value)
  }

  /** The one tree that a handler may change. */
  ghost function Own(ctx: Ctx): (trees: set<SharedTree<Id, GameState>>)
    reads ctx.store
  {
    if ctx.id in ctx.store.trees then {ctx.store.trees[ctx.id]} else {}
  }

  datatype Queues = Queues(signals: Deque<Signal<Id, GameInput>>, requests: Deque<T.Request<Id, Packet>>)

  ghost function QueuesOf(ctx: Ctx): (q: Queues)
    reads ctx.signalQueue, ctx.notificationQueue
  {
    Queues(ctx.signalQueue.View(), ctx.notificationQueue.View())
  }

  /** Whatever joined one of the queues woke one of its receivers, and no request joined
      the normal lane. */
  ghost predicate Heard(was: Queues, now: Queues) {
    && Grown(was.signals, now.signals) && Grown(was.requests, now.requests)
    && now.requests.lanes.back == was.requests.lanes.back
  }

  lemma Unheard(q: Queues)
    requires q.signals.Valid() && q.requests.Valid()
    ensures Heard(q, q)
  {
    Ungrown(q.signals);
    Ungrown(q.requests);
  }

  lemma HeardOn(was: Queues, mid: Queues, now: Queues)
    requires Heard(was, mid) && Heard(mid, now)
    ensures Heard(was, now)
  {
    GrownOn(was.signals, mid.signals, now.signals);
    GrownOn(was.requests, mid.requests, now.requests);
  }

  /** So on each queue as many of the first registered receivers are off the list, flagged
      and woken as values have joined it, or all of them. */
  lemma HeardAwakes(was: Queues, now: Queues)
    requires Heard(was, now)
    ensures Awoken(was.signals, now.signals, Size(now.signals.lanes) - Size(was.signals.lanes))
    ensures Awoken(was.requests, now.requests, |now.requests.lanes.front| - |was.requests.lanes.front|)
  {
    GrownAwakes(was.signals, now.signals);
    GrownAwakes(was.requests, now.requests);
  }

  // ---------------------------------------------------------------------------
  // The context operations, as steps of the system

  method Send(ctx: Ctx, id: Id, input: GameInput, ghost c: Cast, ghost w: World)
    requires Represents(ctx, c, w)
    modifies ctx.signalQueue
    ensures Represents(ctx, c, Sent(w, id, input))
    ensures Heard(old(QueuesOf(ctx)), QueuesOf(ctx))
  {
    Ungrown(ctx.notificationQueue.View());
    ctx.signalQueue.PushBack(Signal(id, input));
  }

  method SetTimeout(ctx: Ctx, now: int, ghost c: Cast, ghost w: World)
    requires Represents(ctx, c, w)
    modifies ctx.notificationQueue
    ensures Represents(ctx, c, Requested(w, ctx.id, T.Set(now + TEST_TIMEOUT)))
    ensures Heard(old(QueuesOf(ctx)), QueuesOf(ctx))
  {
    Ungrown(ctx.signalQueue.View());
    Manager.SetTimeout(ctx, now, TEST_TIMEOUT);
  }

  method ReturnIn(ctx: Ctx, packet: Packet, now: int, ghost c: Cast, ghost w: World)
    requires Represents(ctx, c, w)
    modifies ctx.notificationQueue
    ensures Represents(ctx, c, Requested(w, ctx.id, T.Retain(packet, now + packet.msg * MILLIS)))
    ensures Heard(old(QueuesOf(ctx)), QueuesOf(ctx))
  {
    Ungrown(ctx.signalQueue.View());
    Manager.ReturnIn(ctx, packet, now, packet.msg * MILLIS);
  }

  method CancelTimeout(ctx: Ctx, ghost c: Cast, ghost w: World)
    requires Represents(ctx, c, w)
    modifies ctx.notificationQueue
    ensures Represents(ctx, c, Requested(w, ctx.id, T.Cancel))
    ensures Heard(old(QueuesOf(ctx)), QueuesOf(ctx))
  {
    Ungrown(ctx.signalQueue.View());
    Manager.CancelTimeout(ctx);
  }

  lemma SameTree(ctx: Ctx, c: Cast, w: World)
    requires Represents(ctx, c, w) && Known(w, ctx.id)
    ensures ctx.id in ctx.store.trees && ctx.store.trees[ctx.id] == ctx.store.trees[c.menu]
    ensures ctx.store.trees[ctx.id].node == w.tree.value
  {
    assert ctx.id in Ids(ctx.store.trees[c.menu].node);
  }

  method Update(ctx: Ctx, state: GameState, ghost c: Cast, ghost w: World)
    requires Represents(ctx, c, w) && Known(w, ctx.id)
    modifies Own(ctx)
    ensures Represents(ctx, c, Updated(w, ctx.id, state))
  {
    SameTree(ctx, c, w);
    MappedShape(w.tree.value, SetAt(ctx.id, state));
    Manager.Update(ctx, state, NewState);
  }

  method UpdateAndSignal(ctx: Ctx, state: GameState, ghost c: Cast, ghost w: World)
    requires Represents(ctx, c, w) && Known(w, ctx.id)
    modifies Own(ctx), ctx.signalQueue
    ensures Represents(ctx, c, UpdatedAndSignalled(w, ctx.id, state))
    ensures Heard(old(QueuesOf(ctx)), QueuesOf(ctx))
  {
    SameTree(ctx, c, w);
    MappedShape(w.tree.value, SetAt(ctx.id, state));
    Ungrown(ctx.notificationQueue.View());
    var parent := Manager.UpdateStateAndSignal(ctx, state, NewState, StateInput);
  }

  method GetState(ctx: Ctx, ghost c: Cast, ghost w: World) returns (r: Option<GameState>)
    requires Represents(ctx, c, w)
    ensures r.Some? <==> Known(w, ctx.id)
    ensures r.Some? ==> r.value == StateAt(w, ctx.id)
  {
    r := Manager.GetState(ctx);
    if r.Some? {
      SameTree(ctx, c, w);
    }
  }

  method GetParent(ctx: Ctx, ghost c: Cast, ghost w: World) returns (r: Option<Id>)
    requires Represents(ctx, c, w)
    ensures r == if Known(w, ctx.id) then ParentOf(w.tree.value, ctx.id) else None
  {
    r := Manager.GetParent(ctx);
    if ctx.id in ctx.store.trees {
      SameTree(ctx, c, w);
    }
  }

  method ReturnPacket(ctx: Ctx, packet: Packet, ghost c: Cast, ghost w: World)
    requires Represents(ctx, c, w) && PacketReturned(w, ctx.id, packet).Some?
    modifies ctx.signalQueue
    ensures Represents(ctx, c, PacketReturned(w, ctx.id, packet).value)
    ensures Heard(old(QueuesOf(ctx)), QueuesOf(ctx))
  {
    var recipient := packet.sender;
    var own := packet.(sender := ctx.id);
    if ctx.id.kind == Ping {
      Send(ctx, recipient, PongPacket(own), c, w);
    } else {
      Send(ctx, recipient, PingPacket(own), c, w);
    }
  }

  // ---------------------------------------------------------------------------
  // Ping and Pong

  method PingProcess(ctx: Ctx, input: GameInput, t1: int, t2: int, ghost c: Cast, ghost w: World)
    requires Represents(ctx, c, w) && ctx.id.kind == Ping
    requires PingPong.PingProcess(w, ctx.id, input, t1, t2).Some?
    modifies ctx.signalQueue, ctx.notificationQueue, Own(ctx)
    ensures Represents(ctx, c, PingPong.PingProcess(w, ctx.id, input, t1, t2).value)
    ensures Heard(old(QueuesOf(ctx)), QueuesOf(ctx))
  {
    Unheard(QueuesOf(ctx));
    if !input.ForPing() {
      return;
    }
    var parent := GetParent(ctx, c, w);
    assert parent.Some?;
    var state := GetState(ctx, c, w);
    assert state.Some?;
    if IsTerminal(state.value) {
      return;
    }
    PingCases(w, ctx.id, input, t1, t2);
    PingActive(ctx, input, t1, t2, c, w);
  }

  /** A ping that is still in the game. */
  method PingActive(ctx: Ctx, input: GameInput, t1: int, t2: int, ghost c: Cast, ghost w: World)
    requires Represents(ctx, c, w) && input.ForPing() && Known(w, ctx.id)
    requires PingOutcome(w, ctx.id, input, t1, t2).Some?
    modifies ctx.signalQueue, ctx.notificationQueue, Own(ctx)
    ensures Represents(ctx, c, PingOutcome(w, ctx.id, input, t1, t2).value)
    ensures Heard(old(QueuesOf(ctx)), QueuesOf(ctx))
  {
    if input.StartSending? {
      Update(ctx, PingSending, c, w);
      Send(ctx, input.pong, PongPacket(Packet(0, ctx.id, input.who)), c, Updated(w, ctx.id, PingSending));
    } else if input.PingPacket? {
      PingPacketed(ctx, input.packet, t1, t2, c, w);
    } else if input.PingReturned? {
      TimeAndReturn(ctx, input.held, t1, c, w);
    } else {
      UpdateAndSignal(ctx, PingFailed, c, w);
    }
  }

  ghost function PingPacketOutcome(w: World, id: Id, packet: Packet, t1: int, t2: int): (next: Option<World>)
    requires Known(w, id)
  {
    if packet.msg >= 25 then Some(Requested(UpdatedAndSignalled(w, id, PingDone), id, T.Cancel))
    else Forwarded(Requested(w, id, T.Set(t1 + TEST_TIMEOUT)), id, packet.(msg := packet.msg + 5), t2)
  }

  ghost function PingOutcome(w: World, id: Id, input: GameInput, t1: int, t2: int): (next: Option<World>)
    requires Known(w, id) && input.ForPing()
  {
    if input.StartSending? then
      Some(Sent(Updated(w, id, PingSending), input.pong, PongPacket(Packet(0, id, input.who))))
    else if input.PingPacket? then PingPacketOutcome(w, id, input.packet, t1, t2)
    else if input.PingReturned? then PacketReturned(Requested(w, id, T.Set(t1 + TEST_TIMEOUT)), id, input.held)
    else Some(UpdatedAndSignalled(w, id, PingFailed))
  }

  lemma PingCases(w: World, id: Id, input: GameInput, t1: int, t2: int)
    requires Known(w, id) && !IsTerminal(StateAt(w, id)) && ParentOf(w.tree.value, id).Some? && input.ForPing()
    ensures PingPong.PingProcess(w, id, input, t1, t2) == PingOutcome(w, id, input, t1, t2)
  {
  }

  method PingPacketed(ctx: Ctx, packet: Packet, t1: int, t2: int, ghost c: Cast, ghost w: World)
    requires Represents(ctx, c, w) && Known(w, ctx.id)
    requires PingPacketOutcome(w, ctx.id, packet, t1, t2).Some?
    modifies ctx.signalQueue, ctx.notificationQueue, Own(ctx)
    ensures Represents(ctx, c, PingPacketOutcome(w, ctx.id, packet, t1, t2).value)
    ensures Heard(old(QueuesOf(ctx)), QueuesOf(ctx))
  {
    if packet.msg >= 25 {
      ghost var start := QueuesOf(ctx);
      UpdateAndSignal(ctx, PingDone, c, w);
      ghost var mid := QueuesOf(ctx);
      CancelTimeout(ctx, c, UpdatedAndSignalled(w, ctx.id, PingDone));
      HeardOn(start, mid, QueuesOf(ctx));
    } else {
      TimeAndForward(ctx, packet.(msg := packet.msg + 5), t1, t2, c, w);
    }
  }

  /** Both players end their packet case alike: hold, or return at once. */
  method Forward(ctx: Ctx, packet: Packet, t2: int, ghost c: Cast, ghost w: World)
    requires Represents(ctx, c, w) && Forwarded(w, ctx.id, packet, t2).Some?
    modifies ctx.signalQueue, ctx.notificationQueue
    ensures Represents(ctx, c, Forwarded(w, ctx.id, packet, t2).value)
    ensures Heard(old(QueuesOf(ctx)), QueuesOf(ctx))
  {
    if packet.whoHolds == Some(ctx.id.kind) {
      ReturnIn(ctx, packet, t2, c, w);
    } else {
      ReturnPacket(ctx, packet, c, w);
    }
  }

  method TimeAndForward(ctx: Ctx, packet: Packet, t1: int, t2: int, ghost c: Cast, ghost w: World)
    requires Represents(ctx, c, w)
    requires Forwarded(Requested(w, ctx.id, T.Set(t1 + TEST_TIMEOUT)), ctx.id, packet, t2).Some?
    modifies ctx.signalQueue, ctx.notificationQueue
    ensures Represents(ctx, c, Forwarded(Requested(w, ctx.id, T.Set(t1 + TEST_TIMEOUT)), ctx.id, packet, t2).value)
    ensures Heard(old(QueuesOf(ctx)), QueuesOf(ctx))
  {
    ghost var start := QueuesOf(ctx);
    SetTimeout(ctx, t1, c, w);
    ghost var mid := QueuesOf(ctx);
    Forward(ctx, packet, t2, c, Requested(w, ctx.id, T.Set(t1 + TEST_TIMEOUT)));
    HeardOn(start, mid, QueuesOf(ctx));
  }

  method TimeAndReturn(ctx: Ctx, packet: Packet, t1: int, ghost c: Cast, ghost w: World)
    requires Represents(ctx, c, w)
    requires PacketReturned(Requested(w, ctx.id, T.Set(t1 + TEST_TIMEOUT)), ctx.id, packet).Some?
    modifies ctx.signalQueue, ctx.notificationQueue
    ensures Represents(ctx, c, PacketReturned(Requested(w, ctx.id, T.Set(t1 + TEST_TIMEOUT)), ctx.id, packet).value)
    ensures Heard(old(QueuesOf(ctx)), QueuesOf(ctx))
  {
    ghost var start := QueuesOf(ctx);
    SetTimeout(ctx, t1, c, w);
    ghost var mid := QueuesOf(ctx);
    ReturnPacket(ctx, packet, c, Requested(w, ctx.id, T.Set(t1 + TEST_TIMEOUT)));
    HeardOn(start, mid, QueuesOf(ctx));
  }

  method PongProcess(ctx: Ctx, input: GameInput, t1: int, t2: int, ghost c: Cast, ghost w: World)
    requires Represents(ctx, c, w) && ctx.id.kind == Pong
    requires PingPong.PongProcess(w, ctx.id, input, t1, t2).Some?
    modifies ctx.signalQueue, ctx.notificationQueue, Own(ctx)
    ensures Represents(ctx, c, PingPong.PongProcess(w, ctx.id, input, t1, t2).value)
    ensures Heard(old(QueuesOf(ctx)), QueuesOf(ctx))
  {
    Unheard(QueuesOf(ctx));
    if !input.ForPong() {
      return;
    }
    var state := GetState(ctx, c, w);
    assert state.Some?;
    if IsTerminal(state.value) {
      return;
    }
    var parent := GetParent(ctx, c, w);
    assert parent.Some?;
    PongCases(w, ctx.id, input, t1, t2);
    PongActive(ctx, input, t1, t2, c, w);
  }

  /** A pong that is still in the game. */
  method PongActive(ctx: Ctx, input: GameInput, t1: int, t2: int, ghost c: Cast, ghost w: World)
    requires Represents(ctx, c, w) && input.ForPong() && Known(w, ctx.id)
    requires PongOutcome(w, ctx.id, input, t1, t2).Some?
    modifies ctx.signalQueue, ctx.notificationQueue, Own(ctx)
    ensures Represents(ctx, c, PongOutcome(w, ctx.id, input, t1, t2).value)
    ensures Heard(old(QueuesOf(ctx)), QueuesOf(ctx))
  {
    if input.PongPacket? {
      PongPacketed(ctx, input.packet, t1, t2, c, w);
    } else if input.PongReturned? {
      TimeAndReturn(ctx, input.held, t1, c, w);
    } else {
      UpdateAndSignal(ctx, PongFailed, c, w);
    }
  }

  ghost function PongEnded(w: World, id: Id, packet: Packet): (next: World)
    requires Known(w, id)
  {
    Sent(Requested(UpdatedAndSignalled(w, id, PongDone), id, T.Cancel), packet.sender,
         PingPacket(Packet(packet.msg + 5, id, packet.whoHolds)))
  }

  ghost function PongPacketOutcome(w: World, id: Id, packet: Packet, t1: int, t2: int): (next: Option<World>)
    requires Known(w, id)
  {
    if packet.msg >= 20 then Some(PongEnded(w, id, packet))
    else Forwarded(PongTimed(w, id, packet.msg, t1), id, packet.(msg := packet.msg + 5), t2)
  }

  ghost function PongOutcome(w: World, id: Id, input: GameInput, t1: int, t2: int): (next: Option<World>)
    requires Known(w, id) && input.ForPong()
  {
    if input.PongPacket? then PongPacketOutcome(w, id, input.packet, t1, t2)
    else if input.PongReturned? then PacketReturned(Requested(w, id, T.Set(t1 + TEST_TIMEOUT)), id, input.held)
    else Some(UpdatedAndSignalled(w, id, PongFailed))
  }

  lemma PongCases(w: World, id: Id, input: GameInput, t1: int, t2: int)
    requires Known(w, id) && !IsTerminal(StateAt(w, id)) && ParentOf(w.tree.value, id).Some? && input.ForPong()
    ensures PingPong.PongProcess(w, id, input, t1, t2) == PongOutcome(w, id, input, t1, t2)
  {
  }

  method PongPacketed(ctx: Ctx, packet: Packet, t1: int, t2: int, ghost c: Cast, ghost w: World)
    requires Represents(ctx, c, w) && Known(w, ctx.id)
    requires PongPacketOutcome(w, ctx.id, packet, t1, t2).Some?
    modifies ctx.signalQueue, ctx.notificationQueue, Own(ctx)
    ensures Represents(ctx, c, PongPacketOutcome(w, ctx.id, packet, t1, t2).value)
    ensures Heard(old(QueuesOf(ctx)), QueuesOf(ctx))
  {
    if packet.msg >= 20 {
      PongLast(ctx, packet, c, w);
    } else {
      PongNext(ctx, packet, t1, t2, c, w);
    }
  }

  method PongLast(ctx: Ctx, received: Packet, ghost c: Cast, ghost w: World)
    requires Represents(ctx, c, w) && Known(w, ctx.id)
    modifies ctx.signalQueue, ctx.notificationQueue, Own(ctx)
    ensures Represents(ctx, c, PongEnded(w, ctx.id, received))
    ensures Heard(old(QueuesOf(ctx)), QueuesOf(ctx))
  {
    ghost var done := Requested(UpdatedAndSignalled(w, ctx.id, PongDone), ctx.id, T.Cancel);
    var last := PingPacket(Packet(received.msg + 5, ctx.id, received.whoHolds));
    assert PongEnded(w, ctx.id, received) == Sent(done, received.sender, last);
    ghost var start := QueuesOf(ctx);
    PongCompletes(ctx, c, w);
    ghost var mid := QueuesOf(ctx);
    Send(ctx, received.sender, last, c, done);
    HeardOn(start, mid, QueuesOf(ctx));
  }

  method PongCompletes(ctx: Ctx, ghost c: Cast, ghost w: World)
    requires Represents(ctx, c, w) && Known(w, ctx.id)
    modifies ctx.signalQueue, ctx.notificationQueue, Own(ctx)
    ensures Represents(ctx, c, Requested(UpdatedAndSignalled(w, ctx.id, PongDone), ctx.id, T.Cancel))
    ensures Heard(old(QueuesOf(ctx)), QueuesOf(ctx))
  {
    ghost var start := QueuesOf(ctx);
    UpdateAndSignal(ctx, PongDone, c, w);
    ghost var mid := QueuesOf(ctx);
    CancelTimeout(ctx, c, UpdatedAndSignalled(w, ctx.id, PongDone));
    HeardOn(start, mid, QueuesOf(ctx));
  }

  ghost function PongTimed(w: World, id: Id, msg: nat, t1: int): (next: World)
    requires Known(w, id)
  {
    var timed := Requested(w, id, T.Set(t1 + TEST_TIMEOUT));
    if msg == 0 then Updated(timed, id, PongResponding) else timed
  }

  method PongNext(ctx: Ctx, received: Packet, t1: int, t2: int, ghost c: Cast, ghost w: World)
    requires Represents(ctx, c, w) && Known(w, ctx.id)
    requires Forwarded(PongTimed(w, ctx.id, received.msg, t1), ctx.id, received.(msg := received.msg + 5), t2).Some?
    modifies ctx.signalQueue, ctx.notificationQueue, Own(ctx)
    ensures Represents(ctx, c,
              Forwarded(PongTimed(w, ctx.id, received.msg, t1), ctx.id, received.(msg := received.msg + 5), t2).value)
    ensures Heard(old(QueuesOf(ctx)), QueuesOf(ctx))
  {
    ghost var start := QueuesOf(ctx);
    SetTimeout(ctx, t1, c, w);
    ghost var mid := QueuesOf(ctx);
    if received.msg == 0 {
      Update(ctx, PongResponding, c, Requested(w, ctx.id, T.Set(t1 + TEST_TIMEOUT)));
    }
    Forward(ctx, received.(msg := received.msg + 5), t2, c, PongTimed(w, ctx.id, received.msg, t1));
    HeardOn(start, mid, QueuesOf(ctx));
  }

  // ---------------------------------------------------------------------------
  // Menu

  function FailNode(z: TreeZipper.Zipper<Id, GameState>): (node: Node<Id, GameState>) {
    z.node.(state := Fail(z.node.state))
  }

  /** A menu that is not decided yet is asked to play once more. */
  ghost predicate PlayedAgain(w: World, id: Id, input: GameInput) {
    input.Play? && Known(w, id) && !IsTerminal(StateAt(w, id))
  }

  /** Ids that nobody uses yet. */
  ghost predicate FreshIds(ctx: Ctx, pingId: Id, pongId: Id)
    reads ctx.store
  {
    && Cast(ctx.id, pingId, pongId).Valid()
    && pingId !in ctx.store.trees && pongId !in ctx.store.trees
  }

  ghost function Pushed(q: Deque<Signal<Id, GameInput>>, s: Signal<Id, GameInput>): (r: Deque<Signal<Id, GameInput>>) {
    q.(lanes := PushedBack(q.lanes, s))
  }

  /** A Play that has an effect. */
  ghost predicate Plays(w: World, id: Id, input: GameInput) {
    input.Play? && !(Known(w, id) && IsTerminal(StateAt(w, id)))
  }

  /** The three index one new tree; all others what they did. */
  ghost predicate Planted(was: map<Id, SharedTree<Id, GameState>>, now: map<Id, SharedTree<Id, GameState>>, c: Cast) {
    && c.menu in now && now[c.menu] !in was.Values
    && now == was[c.menu := now[c.menu]][c.ping := now[c.menu]][c.pong := now[c.menu]]
  }

  ghost predicate SecondGame(ctx: Ctx, was: map<Id, SharedTree<Id, GameState>>, pingId: Id, pongId: Id)
    reads ctx.store, ctx.store.trees.Values
  {
    && Planted(was, ctx.store.trees, Cast(ctx.id, pingId, pongId))
    && ctx.store.trees[ctx.id].node == NewTree(Cast(ctx.id, pingId, pongId))
  }

  /** The second game is set up and started, and the store is still valid exactly when
      the first one had no players. */
  ghost predicate Replayed(ctx: Ctx, was: map<Id, SharedTree<Id, GameState>>, q: Deque<Signal<Id, GameInput>>,
                           first: Node<Id, GameState>, who: Option<Game>, pingId: Id, pongId: Id)
    requires q.Valid()
    reads ctx.signalQueue, ctx.notificationQueue, ctx.store, ctx.store.trees.Values
  {
    && SecondGame(ctx, was, pingId, pongId)
    && ctx.signalQueue.View() == Notified(Pushed(q, Signal(pingId, StartSending(pongId, who))))
    && (ctx.Valid() <==> Ids(first) == {ctx.id})
  }

  method PlayAgain(ctx: Ctx, who: Option<Game>, pingId: Id, pongId: Id)
    requires ctx.Valid() && ctx.id in ctx.store.trees && FreshIds(ctx, pingId, pongId)
    modifies ctx.signalQueue, ctx.store
    ensures Replayed(ctx, old(ctx.store.trees), old(ctx.signalQueue.View()), old(ctx.store.trees[ctx.id].node), who,
                     pingId, pongId)
    ensures fresh(ctx.store.trees[ctx.id])
    ensures Heard(old(QueuesOf(ctx)), QueuesOf(ctx))
  {
    Ungrown(ctx.notificationQueue.View());
    SpawnAgain(ctx, pingId, pongId);
    ctx.signalQueue.PushBack(Signal(pingId, StartSending(pongId, who)));
  }

  method SpawnAgain(ctx: Ctx, pingId: Id, pongId: Id)
    requires ctx.Valid() && ctx.id in ctx.store.trees && FreshIds(ctx, pingId, pongId)
    modifies ctx.store
    ensures SecondGame(ctx, old(ctx.store.trees), pingId, pongId)
    ensures fresh(ctx.store.trees[ctx.id])
    ensures ctx.store.Valid() <==> old(Ids(ctx.store.trees[ctx.id].node)) == {ctx.id}
  {
    ghost var was := ctx.store.trees;
    Manager.CreateTree(ctx, NewState);
    AddNewPlayers(ctx, pingId, pongId);
    if Ids(was[ctx.id].node) != {ctx.id} {
      LeftBehind(ctx, was, pingId, pongId);
    }
  }

  method AddNewPlayers(ctx: Ctx, pingId: Id, pongId: Id)
    requires ctx.id in ctx.store.trees && FreshIds(ctx, pingId, pongId)
    requires ctx.store.trees[ctx.id].node == NewNode(ctx.id, NewState)
    modifies ctx.store, ctx.store.trees[ctx.id]
    ensures ctx.store.trees
         == old(ctx.store.trees)[pingId := old(ctx.store.trees)[ctx.id]][pongId := old(ctx.store.trees)[ctx.id]]
    ensures old(ctx.store.trees)[ctx.id].node == NewTree(Cast(ctx.id, pingId, pongId))
    ensures old(ctx.Valid()) ==> ctx.Valid()
  {
    Spawned(Cast(ctx.id, pingId, pongId));
    Manager.NewChild(ctx, pingId, NewState);
    Manager.NewChild(ctx, pongId, NewState);
  }

  /** The first players still index the old tree, in which the menu still is. */
  lemma LeftBehind(ctx: Ctx, was: map<Id, SharedTree<Id, GameState>>, pingId: Id, pongId: Id)
    requires SecondGame(ctx, was, pingId, pongId) && pingId !in was && pongId !in was && ctx.id in was
    requires ctx.store.ValidMap(was) && Ids(was[ctx.id].node) != {ctx.id}
    ensures !ctx.store.Valid()
  {
    var j :| j in Ids(was[ctx.id].node) && j != ctx.id;
    assert was[j] == was[ctx.id];
    ctx.store.Misindexed(j, ctx.id);
  }

  lemma MenuIgnores(c: Cast, w: World, id: Id, input: GameInput)
    requires !input.ForMenu() || (Known(w, id) && IsTerminal(StateAt(w, id)))
    ensures MenuProcess(c, w, id, input) == Some(w) && !Plays(w, id, input) && !PlayedAgain(w, id, input)
  {
  }

  class MenuStateMachine {
    var failures: map<Id, GameInput>

    constructor ()
      ensures failures == map[]
    {
      failures := map[];
    }

    /** `pingId` and `pongId` are the fresh ids that Play draws. A Play for a menu that
        is still undecided starts a second game: the menu and the new players get a new
        tree, and the first players are left with the old one. */
    method Process(ctx: Ctx, input: GameInput, pingId: Id, pongId: Id, ghost c: Cast, ghost w: World)
      requires Represents(ctx, c, w) && ctx.id == c.menu && failures == w.failures
      requires input.Play? && !Known(w, ctx.id) ==> pingId == c.ping && pongId == c.pong
      requires PlayedAgain(w, ctx.id, input) ==> FreshIds(ctx, pingId, pongId)
      requires MenuProcess(c, w, ctx.id, input).Some?
      modifies this, ctx.signalQueue, ctx.notificationQueue, ctx.store, Own(ctx)
      ensures !PlayedAgain(w, ctx.id, input) ==>
                Represents(ctx, c, MenuProcess(c, w, ctx.id, input).value)
                && failures == MenuProcess(c, w, ctx.id, input).value.failures
      ensures PlayedAgain(w, ctx.id, input) ==>
                && failures == old(failures) && ctx.notificationQueue.View() == old(ctx.notificationQueue.View())
                && ctx.id in old(ctx.store.trees) && old(ctx.store.trees)[ctx.id].node == w.tree.value
                && Replayed(ctx, old(ctx.store.trees), old(ctx.signalQueue.View()), w.tree.value, input.who, pingId,
                            pongId)
      ensures fresh(Own(ctx) - old(Own(ctx)))
      ensures if Plays(w, ctx.id, input)
              then Planted(old(ctx.store.trees), ctx.store.trees, Cast(ctx.id, pingId, pongId))
              else ctx.store.trees == old(ctx.store.trees)
      ensures Heard(old(QueuesOf(ctx)), QueuesOf(ctx))
    {
      Unheard(QueuesOf(ctx));
      if !input.ForMenu() {
        MenuIgnores(c, w, ctx.id, input);
        return;
      }
      var state := GetState(ctx, c, w);
      if state.Some? && IsTerminal(state.value) {
        MenuIgnores(c, w, ctx.id, input);
        return;
      }
      ProcessUndecided(ctx, input, state, pingId, pongId, c, w);
    }

    method ProcessUndecided(ctx: Ctx, input: GameInput, state: Option<GameState>, pingId: Id, pongId: Id,
                            ghost c: Cast, ghost w: World)
      requires Represents(ctx, c, w) && ctx.id == c.menu && failures == w.failures && input.ForMenu()
      requires (state.Some? <==> Known(w, ctx.id)) && (state.Some? ==> !IsTerminal(StateAt(w, ctx.id)))
      requires input.Play? && state.None? ==> pingId == c.ping && pongId == c.pong
      requires input.Play? && state.Some? ==> FreshIds(ctx, pingId, pongId)
      requires MenuProcess(c, w, ctx.id, input).Some?
      modifies this, ctx.signalQueue, ctx.notificationQueue, ctx.store, Own(ctx)
      ensures !(input.Play? && state.Some?) ==>
                Represents(ctx, c, MenuProcess(c, w, ctx.id, input).value)
                && failures == MenuProcess(c, w, ctx.id, input).value.failures
      ensures input.Play? && state.Some? ==>
                && failures == old(failures) && ctx.notificationQueue.View() == old(ctx.notificationQueue.View())
                && ctx.id in old(ctx.store.trees) && old(ctx.store.trees)[ctx.id].node == w.tree.value
                && Replayed(ctx, old(ctx.store.trees), old(ctx.signalQueue.View()), w.tree.value, input.who, pingId,
                            pongId)
      ensures fresh(Own(ctx) - old(Own(ctx)))
      ensures if input.Play? then Planted(old(ctx.store.trees), ctx.store.trees, Cast(ctx.id, pingId, pongId))
              else ctx.store.trees == old(ctx.store.trees)
      ensures Heard(old(QueuesOf(ctx)), QueuesOf(ctx))
    {
      if input.Play? && state.Some? {
        Again(ctx, input, pingId, pongId, c, w);
      } else {
        Active(ctx, input, pingId, pongId, c, w);
      }
    }

    method Again(ctx: Ctx, input: GameInput, pingId: Id, pongId: Id, ghost c: Cast, ghost w: World)
      requires Represents(ctx, c, w) && ctx.id == c.menu && PlayedAgain(w, ctx.id, input)
          && FreshIds(ctx, pingId, pongId)
      modifies ctx.signalQueue, ctx.store
      ensures Replayed(ctx, old(ctx.store.trees), old(ctx.signalQueue.View()), w.tree.value, input.who, pingId, pongId)
      ensures ctx.id in old(ctx.store.trees) && old(ctx.store.trees)[ctx.id].node == w.tree.value
      ensures fresh(Own(ctx))
      ensures Heard(old(QueuesOf(ctx)), QueuesOf(ctx))
    {
      SameTree(ctx, c, w);
      PlayAgain(ctx, input.who, pingId, pongId);
    }

    /** A menu that is new or still undecided. */
    method Active(ctx: Ctx, input: GameInput, pingId: Id, pongId: Id, ghost c: Cast, ghost w: World)
      requires Represents(ctx, c, w) && ctx.id == c.menu && failures == w.failures && input.ForMenu()
      requires input.Play? ==> w.tree.None? && pingId == c.ping && pongId == c.pong
      requires Known(w, ctx.id) ==> !IsTerminal(StateAt(w, ctx.id))
      requires MenuProcess(c, w, ctx.id, input).Some?
      modifies this, ctx.signalQueue, ctx.notificationQueue, ctx.store, Own(ctx)
      ensures Represents(ctx, c, MenuProcess(c, w, ctx.id, input).value)
      ensures failures == MenuProcess(c, w, ctx.id, input).value.failures
      ensures fresh(Own(ctx) - old(Own(ctx)))
      ensures if input.Play? then Planted(old(ctx.store.trees), ctx.store.trees, Cast(ctx.id, pingId, pongId))
              else ctx.store.trees == old(ctx.store.trees)
      ensures Heard(old(QueuesOf(ctx)), QueuesOf(ctx))
    {
      if input.Play? {
        Begin(ctx, input.who, pingId, pongId, c, w);
      } else if input.PingPongComplete? {
        UpdateAndSignal(ctx, MenuDone, c, w);
      } else {
        Failed(ctx, input, c, w);
      }
    }

    method Failed(ctx: Ctx, input: GameInput, ghost c: Cast, ghost w: World)
      requires Represents(ctx, c, w) && ctx.id == c.menu && failures == w.failures
      requires Known(w, ctx.id)
      modifies this, ctx.notificationQueue, Own(ctx)
      ensures Represents(ctx, c, AllFailed(w, ctx.id, input))
      ensures failures == AllFailed(w, ctx.id, input).failures
      ensures Heard(old(QueuesOf(ctx)), QueuesOf(ctx))
    {
      FailAll(ctx, input, c, w);
      Record(ctx.id, input);
    }

    method Record(id: Id, input: GameInput)
      modifies this
      ensures failures == old(failures)[id := input]
    {
      failures := failures[id := input];
    }
  }

  ghost function NewTree(c: Cast): (node: Node<Id, GameState>) {
    Run(NewNode(c.menu, NewState), [TreeOp.Insert(c.menu, c.ping), TreeOp.Insert(c.menu, c.pong)], NewState)
  }

  /** Create the tree with both children under the menu, and start ping. */
  method Begin(ctx: Ctx, who: Option<Game>, pingId: Id, pongId: Id, ghost c: Cast, ghost w: World)
    requires Represents(ctx, c, w) && ctx.id == c.menu && pingId == c.ping && pongId == c.pong && w.tree.None?
    modifies ctx.signalQueue, ctx.store
    ensures Represents(ctx, c, Sent(w.(tree := Some(NewTree(c))), pingId, StartSending(pongId, who)))
    ensures fresh(Own(ctx)) && Planted(old(ctx.store.trees), ctx.store.trees, c)
    ensures Heard(old(QueuesOf(ctx)), QueuesOf(ctx))
  {
    Spawn(ctx, pingId, pongId, c, w);
    Send(ctx, pingId, StartSending(pongId, who), c, w.(tree := Some(NewTree(c))));
  }

  method Spawn(ctx: Ctx, pingId: Id, pongId: Id, ghost c: Cast, ghost w: World)
    requires Represents(ctx, c, w) && ctx.id == c.menu && pingId == c.ping && pongId == c.pong && w.tree.None?
    modifies ctx.store
    ensures Represents(ctx, c, w.(tree := Some(NewTree(c))))
    ensures fresh(Own(ctx)) && Planted(old(ctx.store.trees), ctx.store.trees, c)
  {
    CreateTree(ctx, c, w);
    AddPlayers(ctx, pingId, pongId, c, w);
  }

  method AddPlayers(ctx: Ctx, pingId: Id, pongId: Id, ghost c: Cast, ghost w: World)
    requires Represents(ctx, c, w.(tree := Some(NewNode(c.menu, NewState))))
    requires ctx.id == c.menu && pingId == c.ping && pongId == c.pong
    modifies ctx.store, ctx.store.trees[c.menu]
    ensures Represents(ctx, c, w.(tree := Some(NewTree(c))))
    ensures ctx.store.trees
         == old(ctx.store.trees)[pingId := old(ctx.store.trees[c.menu])][pongId := old(ctx.store.trees[c.menu])]
  {
    Spawned(c);
    ghost var n := NewNode(c.menu, NewState);
    AddChild(ctx, pingId, c, w.(tree := Some(n)));
    ghost var n1 := Applied(n, TreeOp.Insert(c.menu, c.ping), NewState);
    AddChild(ctx, pongId, c, w.(tree := Some(n1)));
  }

  method CreateTree(ctx: Ctx, ghost c: Cast, ghost w: World)
    requires Represents(ctx, c, w) && ctx.id == c.menu && w.tree.None?
    modifies ctx.store
    ensures Represents(ctx, c, w.(tree := Some(NewNode(c.menu, NewState))))
    ensures fresh(ctx.store.trees[c.menu])
    ensures ctx.store.trees == old(ctx.store.trees)[c.menu := ctx.store.trees[c.menu]]
  {
    NewNodeShape(c.menu, NewState);
    Manager.CreateTree(ctx, NewState);
  }

  method AddChild(ctx: Ctx, childId: Id, ghost c: Cast, ghost w: World)
    requires Represents(ctx, c, w) && ctx.id == c.menu && Known(w, c.menu)
    requires InCast(c, childId) && !Known(w, childId)
    modifies ctx.store, ctx.store.trees[c.menu]
    ensures Represents(ctx, c, w.(tree := Some(Applied(w.tree.value, TreeOp.Insert(c.menu, childId), NewState))))
    ensures ctx.store.trees == old(ctx.store.trees)[childId := old(ctx.store.trees[c.menu])]
  {
    SameTree(ctx, c, w);
    InsertedShape(w.tree.value, c.menu, NewNode(childId, NewState));
    Manager.NewChild(ctx, childId, NewState);
  }

  lemma Spawned(c: Cast)
    requires c.Valid()
    ensures var n := NewNode(c.menu, NewState);
            var n1 := Applied(n, TreeOp.Insert(c.menu, c.ping), NewState);
            && WellFormed(n) && Ids(n) == {c.menu} && WellFormed(n1) && Ids(n1) == {c.menu, c.ping}
            && Applied(n1, TreeOp.Insert(c.menu, c.pong), NewState) == NewTree(c)
  {
    var ops := [TreeOp.Insert(c.menu, c.ping), TreeOp.Insert(c.menu, c.pong)];
    var n := NewNode(c.menu, NewState);
    var n1 := Applied(n, ops[0], NewState);
    assert ops[1..] == [TreeOp.Insert(c.menu, c.pong)] && ops[1..][1..] == [];
    assert Run(n1, ops[1..], NewState) == Run(Applied(n1, ops[1], NewState), [], NewState);
    NewNodeShape(c.menu, NewState);
    InsertedShape(n, c.menu, NewNode(c.ping, NewState));
  }

  /** Every state fails, and one Cancel goes out per node, in the order of the walk. */
  method FailAll(ctx: Ctx, ghost input: GameInput, ghost c: Cast, ghost w: World)
    requires Represents(ctx, c, w) && ctx.id == c.menu && Known(w, ctx.id)
    modifies ctx.notificationQueue, Own(ctx)
    ensures Represents(ctx, c, AllFailed(w, ctx.id, input))
    ensures Heard(old(QueuesOf(ctx)), QueuesOf(ctx))
  {
    var visited := FailStates(ctx, c, w);
    CancelAll(ctx, visited, c, w.(tree := Some(Applied(w.tree.value, TreeOp.UpdateAll(Fail), NewState))));
  }

  method FailStates(ctx: Ctx, ghost c: Cast, ghost w: World) returns (visited: seq<Id>)
    requires Represents(ctx, c, w) && ctx.id == c.menu && Known(w, ctx.id)
    modifies Own(ctx)
    ensures Represents(ctx, c, w.(tree := Some(Applied(w.tree.value, TreeOp.UpdateAll(Fail), NewState))))
    ensures visited == PostOrder(w.tree.value)
  {
    SameTree(ctx, c, w);
    MappedShape(w.tree.value, Everywhere(Fail));
    visited := FailTree(ctx);
  }

  method FailTree(ctx: Ctx) returns (visited: seq<Id>)
    requires ctx.Valid() && ctx.id in ctx.store.trees
    modifies ctx.store.trees[ctx.id]
    ensures ctx.Valid()
    ensures ctx.store.trees[ctx.id].node
         == Applied(old(ctx.store.trees[ctx.id].node), TreeOp.UpdateAll(Fail), NewState)
    ensures visited == PostOrder(old(ctx.store.trees[ctx.id].node))
  {
    ctx.store.ValidApart(ctx.id);
    var tree := ctx.store.GetTree(ctx.id);
    assert tree.Some?;
    ghost var ids := Ids(tree.value.node);
    visited := FailNodes(tree.value);
    ctx.store.StillValid(tree.value, ids);
  }

  method FailNodes(tree: SharedTree<Id, GameState>) returns (visited: seq<Id>)
    requires WellFormed(tree.node)
    modifies tree
    ensures WellFormed(tree.node) && Ids(tree.node) == old(Ids(tree.node))
    ensures tree.node == Applied(old(tree.node), TreeOp.UpdateAll(Fail), NewState)
    ensures visited == PostOrder(old(tree.node))
  {
    FailedTree(tree.node);
    MappedShape(tree.node, Everywhere(Fail));
    visited := tree.UpdateAllFn(FailNode, NewState);
  }

  lemma FailsOnlyStates()
    ensures TreeZipper.StateOnly(FailNode, Everywhere(Fail))
  {
  }

  lemma FailedTree(n: Node<Id, GameState>)
    ensures TreeZipper.Rebuilt(TreeZipper.Cursor(n), FailNode) == Applied(n, TreeOp.UpdateAll(Fail), NewState)
  {
    FailsOnlyStates();
    TreeZipper.RebuiltMaps(n, FailNode, Everywhere(Fail));
  }

  method CancelOne(ctx: Ctx, id: Id)
    requires ctx.Valid()
    modifies ctx.notificationQueue
    ensures ctx.Valid() && ctx.notificationQueue.front == old(ctx.notificationQueue.front) + [T.Request(id, T.Cancel)]
    ensures Heard(old(QueuesOf(ctx)), QueuesOf(ctx))
  {
    Ungrown(ctx.signalQueue.View());
    ctx.notificationQueue.PushFront(T.Request(id, T.Cancel));
  }

  method CancelAll(ctx: Ctx, ids: seq<Id>, ghost c: Cast, ghost w: World)
    requires Represents(ctx, c, w)
    modifies ctx.notificationQueue
    ensures Represents(ctx, c, w.(pipe := w.pipe.(lane := w.pipe.lane + Pipeline.Cancels(ids))))
    ensures Heard(old(QueuesOf(ctx)), QueuesOf(ctx))
  {
    ghost var start := QueuesOf(ctx);
    Unheard(start);
    for i := 0 to |ids|
      invariant Heard(start, QueuesOf(ctx))
      invariant Represents(ctx, c, w.(pipe := w.pipe.(lane := w.pipe.lane + Pipeline.Cancels(ids[..i]))))
    {
      assert Pipeline.Cancels<Id, Packet>(ids[..i + 1]) == Pipeline.Cancels(ids[..i]) + [T.Request(ids[i], T.Cancel)];
      ghost var mid := QueuesOf(ctx);
      CancelOne(ctx, ids[i]);
      HeardOn(start, mid, QueuesOf(ctx));
    }
    assert ids[..|ids|] == ids;
  }
}

/** The Menu/Ping/Pong system of the repository's own tests (src/manager.rs:400-806)
    as one state machine: signal queue, timeout pipe, state tree, and the steps that
    dispatcher, notification manager and timeout manager take in any interleaving.
    A step answers None where the source would panic. */
module PingPong {
  import opened Base
  import opened StateTree
  import opened StreamQueue
  import opened Timers
  import opened Pipeline
  import SharedTrees
  import Manager
  import TimeoutManagers

  datatype Game = Ping | Pong | Menu

  type Id = StateId<Game>

  datatype Packet = Packet(msg: nat, sender: Id, whoHolds: Option<Game>)

  datatype GameInput =
    | Play(who: Option<Game>)
    | PingPongComplete
    | FailedPing
    | FailedPong
    | StartSending(pong: Id, who: Option<Game>)
    | PingReturned(held: Packet)
    | PingPacket(packet: Packet)
    | PingTimeout(at: int)
    | PongReturned(held: Packet)
    | PongPacket(packet: Packet)
    | PongTimeout(at: int)
  {
    predicate ForMenu() { Play? || PingPongComplete? || FailedPing? || FailedPong? }
    predicate ForPing() { StartSending? || PingReturned? || PingPacket? || PingTimeout? }
    predicate ForPong() { PongReturned? || PongPacket? || PongTimeout? }
  }

  datatype GameState =
    | MenuReady | MenuDone | MenuFailed
    | PingReady | PingSending | PingDone | PingFailed
    | PongReady | PongResponding | PongDone | PongFailed

  /** Instants and durations are counted in nanoseconds. */
  const MILLIS := 1_000_000
  const TEST_TIMEOUT := 11 * MILLIS
  const TEST_TICK_RATE := 3 * MILLIS

  function KindOf(s: GameState): (kind: Game) {
    if s.MenuReady? || s.MenuDone? || s.MenuFailed? then Menu
    else if s.PingReady? || s.PingSending? || s.PingDone? || s.PingFailed? then Ping
    else Pong
  }

  function NewState(id: Id): (state: GameState) {
    match id.kind case Ping => PingReady case Pong => PongReady case Menu => MenuReady
  }

  function FailedState(k: Game): (state: GameState) {
    match k case Ping => PingFailed case Pong => PongFailed case Menu => MenuFailed
  }

  function CompletedState(k: Game): (state: GameState) {
    match k case Ping => PingDone case Pong => PongDone case Menu => MenuDone
  }

  predicate IsTerminal(s: GameState) {
    CompletedState(KindOf(s)) == s || FailedState(KindOf(s)) == s
  }

  function StateInput(k: Game, s: GameState): (r: Option<GameInput>) {
    if k != Menu then None
    else match s
      case PingDone => Some(PingPongComplete)
      case PingFailed => Some(FailedPing)
      case PongFailed => Some(FailedPong)
      case _ => None
  }

  function TimeoutInput(id: Id, at: int): (r: Option<GameInput>) {
    match id.kind case Ping => Some(PingTimeout(at)) case Pong => Some(PongTimeout(at)) case Menu => None
  }

  function ReturnItem(id: Id, item: Packet): (r: Option<GameInput>) {
    match id.kind case Ping => Some(PingReturned(item)) case Pong => Some(PongReturned(item)) case Menu => None
  }

  // ---------------------------------------------------------------------------
  // The whole system

  /** The three ids of one game; ping's and pong's are what `new_rand` hands to Play. */
  datatype Cast = Cast(menu: Id, ping: Id, pong: Id) {
    ghost predicate Valid() {
      && menu.kind == Menu && ping.kind == Ping && pong.kind == Pong
      && !menu.IsNil() && !ping.IsNil() && !pong.IsNil()
    }
  }

  /** `outbox` holds what the current tick has released and not yet pushed. */
  datatype World = World(
    signals: Lanes<Signal<Id, GameInput>>,
    pipe: Pipe<Id, Packet>,
    outbox: seq<Signal<Id, GameInput>>,
    tree: Option<Node<Id, GameState>>,
    failures: map<Id, GameInput>)

  /** The repository's tests start from one Play in the normal lane. */
  ghost function Start(c: Cast, who: Option<Game>): (w: World) {
    World(Lanes([], [Signal(c.menu, Play(who))]), Idle(), [], None, map[])
  }

  ghost predicate Known(w: World, id: Id) {
    w.tree.Some? && id in Ids(w.tree.value)
  }

  ghost function StateAt(w: World, id: Id): (state: GameState)
    requires Known(w, id)
  {
    SharedTrees.States(w.tree.value)[id]
  }

  // What a handler may do, as in `SmContext` and `StateMachineExt`

  ghost function Updated(w: World, id: Id, s: GameState): (next: World)
    requires Known(w, id)
  {
    w.(tree := Some(SharedTrees.Applied(w.tree.value, SharedTrees.TreeOp.Update(id, s), NewState)))
  }

  ghost function UpdatedAndSignalled(w: World, id: Id, s: GameState): (next: World)
    requires Known(w, id)
  {
    var parent := ParentOf(w.tree.value, id);
    Updated(w, id, s).(signals :=
      w.signals.(back := w.signals.back + Manager.StateChange(parent, s, StateInput)))
  }

  ghost function Requested(w: World, id: Id, op: Operation<Packet>): (next: World) {
    w.(pipe := w.pipe.(lane := w.pipe.lane + [Request(id, op)]))
  }

  ghost function Sent(w: World, id: Id, input: GameInput): (next: World) {
    w.(signals := PushedBack(w.signals, Signal(id, input)))
  }

  ghost function PacketReturned(w: World, id: Id, packet: Packet): (next: Option<World>) {
    var recipient, own := packet.sender, packet.(sender := id);
    match id.kind
    case Ping => Some(Sent(w, recipient, PongPacket(own)))
    case Pong => Some(Sent(w, recipient, PingPacket(own)))
    case Menu => None
  }

  /** Pong's last packet to Ping. */
  ghost function LastPacket(id: Id, packet: Packet): (input: GameInput) {
    PingPacket(Packet(packet.msg + 5, id, packet.whoHolds))
  }

  // The handlers; `t1` and `t2` are the instants at which they read the clock

  ghost function MenuProcess(c: Cast, w: World, id: Id, input: GameInput): (next: Option<World>) {
    if !input.ForMenu() then Some(w)
    else if Known(w, id) && IsTerminal(StateAt(w, id)) then Some(w)
    else match input
      case Play(who) =>
        var tree := SharedTrees.Run(NewNode(id, NewState),
          [SharedTrees.TreeOp.Insert(id, c.ping), SharedTrees.TreeOp.Insert(id, c.pong)], NewState);
        Some(Sent(w.(tree := Some(tree)), c.ping, StartSending(c.pong, who)))
      case PingPongComplete =>
        if !Known(w, id) then None else Some(UpdatedAndSignalled(w, id, MenuDone))
      case _ =>
        if !Known(w, id) then None else Some(AllFailed(w, id, input))
  }

  function Fail(s: GameState): (state: GameState) {
    FailedState(KindOf(s))
  }

  ghost function AllFailed(w: World, id: Id, input: GameInput): (next: World)
    requires w.tree.Some?
  {
    w.(tree := Some(SharedTrees.Applied(w.tree.value, SharedTrees.TreeOp.UpdateAll(Fail), NewState)),
       pipe := w.pipe.(lane := w.pipe.lane + Cancels(PostOrder(w.tree.value))),
       failures := w.failures[id := input])
  }

  ghost function PingProcess(w: World, id: Id, input: GameInput, t1: int, t2: int): (next: Option<World>) {
    if !input.ForPing() then Some(w)
    else if !Known(w, id) || ParentOf(w.tree.value, id).None? then None
    else if IsTerminal(StateAt(w, id)) then Some(w)
    else match input
      case StartSending(pong, who) =>
        Some(Sent(Updated(w, id, PingSending), pong, PongPacket(Packet(0, id, who))))
      case PingPacket(packet) =>
        if packet.msg >= 25 then
          Some(Requested(UpdatedAndSignalled(w, id, PingDone), id, Cancel))
        else
          Forwarded(Requested(w, id, Set(t1 + TEST_TIMEOUT)), id, packet.(msg := packet.msg + 5), t2)
      case PingReturned(packet) =>
        PacketReturned(Requested(w, id, Set(t1 + TEST_TIMEOUT)), id, packet)
      case _ => Some(UpdatedAndSignalled(w, id, PingFailed))
  }

  /** Hold the packet for a while if this kind holds, else send it back at once. */
  ghost function Forwarded(w: World, id: Id, packet: Packet, t2: int): (next: Option<World>) {
    if packet.whoHolds == Some(id.kind) then Some(Requested(w, id, Retain(packet, t2 + packet.msg * MILLIS)))
    else PacketReturned(w, id, packet)
  }

  ghost function PongProcess(w: World, id: Id, input: GameInput, t1: int, t2: int): (next: Option<World>) {
    if !input.ForPong() then Some(w)
    else if !Known(w, id) then None
    else if IsTerminal(StateAt(w, id)) then Some(w)
    else if ParentOf(w.tree.value, id).None? then None
    else match input
      case PongPacket(packet) =>
        if packet.msg >= 20 then
          var done := Requested(UpdatedAndSignalled(w, id, PongDone), id, Cancel);
          Some(Sent(done, packet.sender, LastPacket(id, packet)))
        else
          var timed := Requested(w, id, Set(t1 + TEST_TIMEOUT));
          var started := if packet.msg == 0 then Updated(timed, id, PongResponding) else timed;
          Forwarded(started, id, packet.(msg := packet.msg + 5), t2)
      case PongReturned(packet) =>
        PacketReturned(Requested(w, id, Set(t1 + TEST_TIMEOUT)), id, packet)
      case _ => Some(UpdatedAndSignalled(w, id, PongFailed))
  }

  /** The dispatcher routes by the kind of the signal's id. */
  ghost function Processed(c: Cast, w: World, s: Signal<Id, GameInput>, t1: int, t2: int): (next: Option<World>) {
    match s.id.kind
    case Menu => MenuProcess(c, w, s.id, s.input)
    case Ping => PingProcess(w, s.id, s.input, t1, t2)
    case Pong => PongProcess(w, s.id, s.input, t1, t2)
  }

  // ---------------------------------------------------------------------------
  // Steps and runs

  datatype Event =
    | Dispatch(t1: int, t2: int)
    | RouteOne
    | ReceiveOne
    | TickAt(now: int, order: seq<Id>)
    | Emit

  ghost predicate Enabled(w: World, e: Event) {
    match e
    case Dispatch(_, _) => Head(w.signals).Some?
    case RouteOne => w.pipe.lane != []
    case ReceiveOne => w.pipe.chan != []
    case TickAt(now, order) => w.outbox == [] && ExpiryOrder(w.pipe.ledger.armed, now, order)
    case Emit => w.outbox != []
  }

  ghost function Next(c: Cast, w: World, e: Event): (next: Option<World>)
    requires Enabled(w, e)
  {
    match e
    case Dispatch(t1, t2) =>
      Processed(c, w.(signals := Popped(w.signals)), Head(w.signals).value, t1, t2)
    case RouteOne => Some(w.(pipe := After(w.pipe, Route)))
    case ReceiveOne => Some(w.(pipe := After(w.pipe, Receive)))
    case TickAt(now, order) =>
      Some(w.(pipe := After(w.pipe, Tick(now)),
              outbox := TimeoutManagers.TimeoutSignals(order, now, TimeoutInput)
                        + TimeoutManagers.ReturnSignals(Flat(Before(w.pipe.ledger.held, now)), ReturnItem)))
    case Emit => Some(w.(signals := PushedFront(w.signals, w.outbox[0]), outbox := w.outbox[1..]))
  }
}

/** The dispatch loop (src/manager.rs:249-270) over the Menu, Ping and Pong handlers:
    in memory it performs a run of the `PingPong` state machine, so everything proved
    of those runs holds of it, and it comes to an end. */
module GameDispatch {
  import opened Base
  import opened SharedTrees
  import opened Storage
  import opened StreamQueue
  import opened PingPong
  import opened PingPongSafety
  import opened PingPongSteps
  import opened PingPongRuns
  import opened PingPongProgress
  import opened PingPongBounds
  import PingPongTree
  import PingPongDispatch
  import InFlight
  import M = GameMachines
  import Manager
  import T = Timers

  // ---------------------------------------------------------------------------
  // What the loop relies on

  lemma StartedCost(c: Cast, w: World)
    requires Started(c, w)
    ensures Cost(w) == 117
  {
    var who :| w == Start(c, who);
    InFlight.SumSnoc([], Signal(c.menu, Play(who)), SignalCost);
    assert w.signals.back == [] + [Signal(c.menu, Play(who))];
  }

  lemma StartSafe(c: Cast, w: World, t1: int, t2: int)
    requires Started(c, w)
    ensures Enabled(w, Dispatch(t1, t2)) && Next(c, w, Dispatch(t1, t2)).Some?
    ensures Invariant(c, Next(c, w, Dispatch(t1, t2)).value) && Cost(Next(c, w, Dispatch(t1, t2)).value) < Cost(w)
    ensures Head(w.signals).value.id == c.menu && w.tree.None?
  {
    var who :| w == Start(c, who);
    StartedCost(c, w);
    PlayBegins(c, who, t1, t2);
    StartCost(c, who, t1, t2);
  }

  /** What is at the head of the queue is for a machine of the game. */
  lemma HeadSafe(c: Cast, w: World)
    requires Invariant(c, w) && Head(w.signals).Some?
    ensures M.InCast(c, Head(w.signals).value.id)
    ensures Head(w.signals).value.input.Play? ==> w.tree.None?
  {
    var s := Head(w.signals).value;
    if Started(c, w) {
      StartSafe(c, w, 0, 0);
      return;
    }
    var m, p, q := TheStates(c, w);
    HeadOk(c, w, s);
    PlayerInputs(c, s);
  }

  lemma DispatchPays(c: Cast, w: World, t1: int, t2: int)
    requires Invariant(c, w) && Head(w.signals).Some?
    ensures Next(c, w, Dispatch(t1, t2)).Some? && Cost(Next(c, w, Dispatch(t1, t2)).value) < Cost(w)
  {
    if Started(c, w) {
      StartSafe(c, w, t1, t2);
      return;
    }
    var m, p, q := TheStates(c, w);
    StepCost(c, w, Dispatch(t1, t2), m, p, q);
  }

  /** Whatever is at the head of the queue, its handler has a case for it, does not
      panic, and leaves less to do. */
  lemma DispatchSafe(c: Cast, w: World, t1: int, t2: int)
    requires Invariant(c, w) && Head(w.signals).Some?
    ensures Next(c, w, Dispatch(t1, t2)) == Processed(c, Rest(w), Head(w.signals).value, t1, t2)
    ensures Next(c, w, Dispatch(t1, t2)).Some?
    ensures Invariant(c, Next(c, w, Dispatch(t1, t2)).value) && Cost(Next(c, w, Dispatch(t1, t2)).value) < Cost(w)
    ensures M.InCast(c, Head(w.signals).value.id)
    ensures Head(w.signals).value.input.Play? ==> w.tree.None?
  {
    HeadSafe(c, w);
    DispatchPays(c, w, t1, t2);
    InvariantStep(c, w, Dispatch(t1, t2));
  }

  lemma PlayersRecordNothing(c: Cast, w: World, s: Signal<Id, GameInput>, t1: int, t2: int)
    requires s.id.kind != Menu && Processed(c, w, s, t1, t2).Some?
    ensures Processed(c, w, s, t1, t2).value.failures == w.failures
  {
  }

  /** `events` lead from `w0` to `w`, by dispatching only. */
  ghost predicate Reached(c: Cast, w0: World, events: seq<Event>, w: World) {
    Leads(c, w0, events, w) && PingPongDispatch.DispatchOnly(events)
  }

  lemma ReachedNow(c: Cast, w: World)
    ensures Reached(c, w, [], w)
  {
  }

  lemma ReachedOneMore(c: Cast, w0: World, events: seq<Event>, w: World, t1: int, t2: int)
    requires Reached(c, w0, events, w) && Enabled(w, Dispatch(t1, t2)) && Next(c, w, Dispatch(t1, t2)).Some?
    ensures Reached(c, w0, events + [Dispatch(t1, t2)], Next(c, w, Dispatch(t1, t2)).value)
  {
    LeadsOneMore(c, w0, events, w, Dispatch(t1, t2));
  }

  // ---------------------------------------------------------------------------
  // Who is awake

  /** The dispatcher's queue after `pushed` values have joined it since it was `q0` and
      the dispatcher, task 0, has polled: it is registered exactly when it waits. */
  ghost function Served<T>(q0: Deque<T>, pushed: nat, lanes: Lanes<T>, waits: bool): (q: Deque<T>)
    requires q0.Valid()
  {
    var r := NotifiedTimes(q0, pushed);
    var running := r.(lanes := lanes, woken := r.woken - {0});
    if waits then running.(flags := r.flags + [false], notifiers := r.notifiers + [Notifier(0, |r.flags|)])
    else running
  }

  lemma {:induction false} SpentMark<T>(q: Deque<T>, lanes: Lanes<T>, k: nat)
    requires q.Valid()
    ensures var r, spent := NotifiedTimes(q, k), q.(lanes := lanes, woken := q.woken - {0});
            var r' := NotifiedTimes(spent, k);
            r'.notifiers == r.notifiers && r'.flags == r.flags && r'.woken - {0} == r.woken - {0}
  {
    if k > 0 {
      SpentMark(q, lanes, k - 1);
      var before, before' := NotifiedTimes(q, k - 1), NotifiedTimes(q.(lanes := lanes, woken := q.woken - {0}), k - 1);
      if before.notifiers != [] {
        var t := before.notifiers[0].task;
        assert before.woken + {t} - {0} == (before.woken - {0}) + ({t} - {0});
        assert before'.woken + {t} - {0} == (before'.woken - {0}) + ({t} - {0});
      }
    }
  }

  /** A handler ran, and the dispatcher polled again. */
  lemma ServedOn<T>(q0: Deque<T>, pushed: nat, q: Deque<T>, now: Deque<T>, pushed': nat)
    requires q0.Valid() && q == Served(q0, pushed, q.lanes, false) && Grown(q, now)
    requires pushed' + Size(q.lanes) == pushed + Size(now.lanes)
    ensures now.Valid() && Polled(now, 0) == Served(q0, pushed', Popped(now.lanes), Head(now.lanes).None?)
  {
    var r, k := NotifiedTimes(q0, pushed), Size(now.lanes) - Size(q.lanes);
    SpentMark(r, q.lanes, k);
    NotifiedTwice(q0, q0.lanes, pushed, k);
    assert r.(lanes := q0.lanes) == r;
  }

  /** Every dispatch reads the next two instants. */
  ghost predicate InstantsFrom(events: seq<Event>, clock: nat -> int) {
    forall i | 0 <= i < |events| :: events[i] == Dispatch(clock(2 * i), clock(2 * i + 1))
  }

  lemma NextInstants(events: seq<Event>, clock: nat -> int, n: nat)
    requires InstantsFrom(events, clock) && n == 2 * |events|
    ensures InstantsFrom(events + [Dispatch(clock(n), clock(n + 1))], clock)
  {
  }

  /** Only the ids of the game are stored differently. */
  ghost predicate OthersKept<V>(was: map<Id, V>, now: map<Id, V>, c: Cast) {
    forall id | !M.InCast(c, id) :: (id in was <==> id in now) && (id in was ==> now[id] == was[id])
  }

  lemma OthersKeptOn<V>(was: map<Id, V>, mid: map<Id, V>, now: map<Id, V>, c: Cast)
    requires OthersKept(was, mid, c) && OthersKept(mid, now, c)
    ensures OthersKept(was, now, c)
  {
  }

  lemma PlantedKeeps(was: map<Id, SharedTree<Id, GameState>>, now: map<Id, SharedTree<Id, GameState>>, c: Cast)
    requires was == now || M.Planted(was, now, c)
    ensures OthersKept(was, now, c)
  {
  }

  // ---------------------------------------------------------------------------
  // The loop

  class StateMachineManager {
    const signalQueue: StreamableDeque<Signal<Id, GameInput>>
    const notificationQueue: StreamableDeque<T.Request<Id, Packet>>
    const store: StateStore<Game, GameState>
    const menu: M.MenuStateMachine
    // the ids that Play draws
    const pingId: Id
    const pongId: Id

    constructor (signalQueue: StreamableDeque<Signal<Id, GameInput>>,
                 notificationQueue: StreamableDeque<T.Request<Id, Packet>>,
                 store: StateStore<Game, GameState>, menu: M.MenuStateMachine, pingId: Id, pongId: Id)
      ensures this.signalQueue == signalQueue && this.notificationQueue == notificationQueue
      ensures this.store == store && this.menu == menu && this.pingId == pingId && this.pongId == pongId
    {
      this.signalQueue, this.notificationQueue, this.store := signalQueue, notificationQueue, store;
      this.menu, this.pingId, this.pongId := menu, pingId, pongId;
    }

    /** `EmptyContext::init`. */
    function Init(id: Id): (r: M.Ctx) {
      Manager.SmContext(signalQueue, notificationQueue, store, id)
    }

    ghost predicate Represents(c: Cast, w: World)
      reads menu, signalQueue, notificationQueue, store, store.trees.Values
    {
      && M.Represents(Init(c.menu), c, w) && menu.failures == w.failures
      && pingId == c.ping && pongId == c.pong
    }

    /** The game's own tree. */
    ghost function Mine(c: Cast): (trees: set<SharedTree<Id, GameState>>)
      reads store
    {
      M.Own(Init(c.menu))
    }

    ghost function Queues(): (q: M.Queues)
      reads signalQueue, notificationQueue
    {
      M.Queues(signalQueue.View(), notificationQueue.View())
    }

    /** A handler's context differs from the menu's in the id only. */
    lemma Contexts(c: Cast, w: World, id: Id)
      requires M.InCast(c, id)
      ensures M.Represents(Init(id), c, w) <==> M.Represents(Init(c.menu), c, w)
      ensures M.Represents(Init(id), c, w) ==> M.Own(Init(id)) <= Mine(c)
    {
      if M.Represents(Init(id), c, w) && Known(w, id) {
        M.SameTree(Init(id), c, w);
      }
    }

    /** The machine of the id's kind processes the input. */
    method Process(s: Signal<Id, GameInput>, t1: int, t2: int, ghost c: Cast, ghost w: World)
      requires Represents(c, w) && M.InCast(c, s.id) && (s.input.Play? ==> w.tree.None?)
      requires Processed(c, w, s, t1, t2).Some?
      modifies menu, signalQueue, notificationQueue, store, Mine(c)
      ensures Represents(c, Processed(c, w, s, t1, t2).value)
      ensures M.Heard(old(Queues()), Queues())
      ensures c.menu in store.trees ==> fresh(store.trees[c.menu]) || store.trees[c.menu] in old(Mine(c))
      ensures OthersKept(old(store.trees), store.trees, c)
    {
      Contexts(c, w, s.id);
      match s.id.kind
      case Menu =>
        ghost var trees := store.trees;
        menu.Process(Init(s.id), s.input, pingId, pongId, c, w);
        PlantedKeeps(trees, store.trees, c);
      case _ => ProcessPlayer(s, t1, t2, c, w);
      Contexts(c, Processed(c, w, s, t1, t2).value, s.id);
    }

    method ProcessPlayer(s: Signal<Id, GameInput>, t1: int, t2: int, ghost c: Cast, ghost w: World)
      requires M.Represents(Init(s.id), c, w) && s.id.kind != Menu
      requires Processed(c, w, s, t1, t2).Some?
      modifies signalQueue, notificationQueue, M.Own(Init(s.id))
      ensures M.Represents(Init(s.id), c, Processed(c, w, s, t1, t2).value)
      ensures M.Heard(old(Queues()), Queues())
      ensures Processed(c, w, s, t1, t2).value.failures == w.failures
    {
      PlayersRecordNothing(c, w, s, t1, t2);
      if s.id.kind == Ping {
        M.PingProcess(Init(s.id), s.input, t1, t2, c, w);
      } else {
        M.PongProcess(Init(s.id), s.input, t1, t2, c, w);
      }
    }

    /** The stream yields the head of the queue, if there is one, and else registers. */
    method Poll(stream: StreamReceiver<Signal<Id, GameInput>>, ghost c: Cast, ghost w: World)
      returns (next: Option<Signal<Id, GameInput>>)
      requires Represents(c, w) && stream.awake.None? && stream.queue == signalQueue
      modifies stream, signalQueue
      ensures Represents(c, Rest(w)) && next == Head(w.signals) && (next.Some? ==> stream.awake.None?)
      ensures old(signalQueue.Valid()) && signalQueue.View() == Polled(old(signalQueue.View()), stream.task)
    {
      next := stream.PollNext();
    }

    /** One pass of the loop. */
    method Step(stream: StreamReceiver<Signal<Id, GameInput>>, s: Signal<Id, GameInput>, t1: int, t2: int,
                ghost c: Cast, ghost w: World, ghost q0: M.Queues, ghost pushed: nat)
      returns (next: Option<Signal<Id, GameInput>>, ghost pushed': nat)
      requires Represents(c, w) && M.InCast(c, s.id) && (s.input.Play? ==> w.tree.None?)
      requires Processed(c, w, s, t1, t2).Some?
      requires stream.awake.None? && stream.queue == signalQueue && stream.task == 0
      requires Serving(q0, pushed, false)
      modifies stream, menu, signalQueue, notificationQueue, store, Mine(c)
      ensures var w1 := Processed(c, w, s, t1, t2).value;
              && Represents(c, Rest(w1)) && next == Head(w1.signals) && (next.Some? ==> stream.awake.None?)
              && pushed' + Size(w.signals) == pushed + Size(w1.signals) && Serving(q0, pushed', next.None?)
      ensures c.menu in store.trees ==> fresh(store.trees[c.menu]) || store.trees[c.menu] in old(Mine(c))
      ensures OthersKept(old(store.trees), store.trees, c)
    {
      ghost var start := Queues();
      Process(s, t1, t2, c, w);
      ghost var mid := Queues();
      pushed' := pushed + Size(mid.signals.lanes) - Size(start.signals.lanes);
      ServedOn(q0.signals, pushed, start.signals, mid.signals, pushed');
      GrownOn(q0.requests, start.requests, mid.requests);
      next := Poll(stream, c, Processed(c, w, s, t1, t2).value);
    }

    /** Since the queues were `q0`, `pushed` signals have joined the dispatcher's and each
        woke a receiver, as did every request. */
    ghost predicate Serving(q0: M.Queues, pushed: nat, waits: bool)
      reads signalQueue, notificationQueue
    {
      && q0.signals.Valid()
      && signalQueue.View() == Served(q0.signals, pushed, signalQueue.View().lanes, waits)
      && Grown(q0.requests, notificationQueue.View()) && notificationQueue.back == q0.requests.lanes.back
    }

    /** Between two passes: `next` has been taken from the queue, the machines have
        got to `w`. What was dispatched or is still queued was there or has joined. */
    ghost predicate Running(stream: StreamReceiver<Signal<Id, GameInput>>, next: Option<Signal<Id, GameInput>>,
                            c: Cast, w0: World, events: seq<Event>, w: World, q0: M.Queues, pushed: nat)
      reads stream, menu, signalQueue, notificationQueue, store, store.trees.Values
    {
      && stream.queue == signalQueue && stream.task == 0 && (next.Some? ==> stream.awake.None?)
      && Represents(c, Rest(w)) && next == Head(w.signals)
      && Reached(c, w0, events, w)
      && Size(w0.signals) + pushed == |events| + Size(w.signals)
      && Serving(q0, pushed, next.None?)
    }

    method Pass(stream: StreamReceiver<Signal<Id, GameInput>>, s: Signal<Id, GameInput>, t1: int, t2: int,
                ghost c: Cast, ghost w0: World, ghost events: seq<Event>, ghost w: World, ghost q0: M.Queues,
                ghost pushed: nat)
      returns (next: Option<Signal<Id, GameInput>>, ghost w': World, ghost pushed': nat)
      requires Running(stream, Some(s), c, w0, events, w, q0, pushed) && Invariant(c, w0)
      modifies stream, menu, signalQueue, notificationQueue, store, Mine(c)
      ensures Running(stream, next, c, w0, events + [Dispatch(t1, t2)], w', q0, pushed') && Cost(w') < Cost(w)
      ensures c.menu in store.trees ==> fresh(store.trees[c.menu]) || store.trees[c.menu] in old(Mine(c))
      ensures OthersKept(old(store.trees), store.trees, c)
    {
      RunKeeps(c, w0, events);
      DispatchSafe(c, w, t1, t2);
      ReachedOneMore(c, w0, events, w, t1, t2);
      w' := Next(c, w, Dispatch(t1, t2)).value;
      assert Size(Rest(w).signals) == Size(w.signals) - 1;
      next, pushed' := Step(stream, s, t1, t2, c, Rest(w), q0, pushed);
    }

    /** What the loop keeps; `n` instants have been read, and `trees` is what was stored
        when it began. */
    ghost predicate Looping(stream: StreamReceiver<Signal<Id, GameInput>>, next: Option<Signal<Id, GameInput>>,
                            c: Cast, w0: World, events: seq<Event>, w: World, q0: M.Queues, pushed: nat,
                            clock: nat -> int, n: nat, trees: map<Id, SharedTree<Id, GameState>>)
      reads stream, menu, signalQueue, notificationQueue, store, store.trees.Values
    {
      && Running(stream, next, c, w0, events, w, q0, pushed)
      && n == 2 * |events| && InstantsFrom(events, clock) && OthersKept(trees, store.trees, c)
    }

    method Turn(stream: StreamReceiver<Signal<Id, GameInput>>, s: Signal<Id, GameInput>, clock: nat -> int, n: nat,
                ghost c: Cast, ghost w0: World, ghost events: seq<Event>, ghost w: World, ghost q0: M.Queues,
                ghost pushed: nat, ghost trees: map<Id, SharedTree<Id, GameState>>)
      returns (next: Option<Signal<Id, GameInput>>, ghost events': seq<Event>, ghost w': World, ghost pushed': nat)
      requires Looping(stream, Some(s), c, w0, events, w, q0, pushed, clock, n, trees) && Invariant(c, w0)
      modifies stream, menu, signalQueue, notificationQueue, store, Mine(c)
      ensures Looping(stream, next, c, w0, events', w', q0, pushed', clock, n + 2, trees) && Cost(w') < Cost(w)
      ensures c.menu in store.trees ==> fresh(store.trees[c.menu]) || store.trees[c.menu] in old(Mine(c))
    {
      ghost var before := store.trees;
      NextInstants(events, clock, n);
      events' := events + [Dispatch(clock(n), clock(n + 1))];
      next, w', pushed' := Pass(stream, s, clock(n), clock(n + 1), c, w0, events, w, q0, pushed);
      OthersKeptOn(trees, before, store.trees, c);
    }

    method Loop(stream: StreamReceiver<Signal<Id, GameInput>>, first: Option<Signal<Id, GameInput>>, clock: nat -> int,
                ghost c: Cast, ghost w0: World, ghost q0: M.Queues)
      returns (ghost events: seq<Event>, ghost end: World, ghost pushed: nat)
      requires Running(stream, first, c, w0, [], w0, q0, 0) && Invariant(c, w0)
      modifies stream, menu, signalQueue, notificationQueue, store, Mine(c)
      ensures Running(stream, None, c, w0, events, end, q0, pushed) && InstantsFrom(events, clock)
      ensures c.menu in store.trees ==> fresh(store.trees[c.menu]) || store.trees[c.menu] in old(Mine(c))
      ensures OthersKept(old(store.trees), store.trees, c)
    {
      var next, n := first, 0 as nat;
      events, end, pushed := [], w0, 0;
      while next.Some?
        invariant c.menu in store.trees ==> fresh(store.trees[c.menu]) || store.trees[c.menu] in old(Mine(c))
        invariant Looping(stream, next, c, w0, events, end, q0, pushed, clock, n, old(store.trees))
        decreases Cost(end)
      {
        next, events, end, pushed :=
          Turn(stream, next.value, clock, n, c, w0, events, end, q0, pushed, old(store.trees));
        n := n + 2;
      }
    }

    /** The loop until its stream is pending. `clock` gives the instants that the
        handlers read, two to each. At the end the dispatcher is registered, and as many
        of the receivers before it have been woken as signals have joined the queue. */
    method DispatchAll(clock: nat -> int, ghost c: Cast, ghost w0: World)
      returns (ghost events: seq<Event>, ghost end: World, ghost pushed: nat)
      requires Represents(c, w0) && Invariant(c, w0)
      modifies menu, signalQueue, notificationQueue, store, Mine(c)
      ensures Reached(c, w0, events, end) && Invariant(c, end)
      ensures forall i | 0 <= i < |events| :: events[i] == Dispatch(clock(2 * i), clock(2 * i + 1))
      ensures Represents(c, end) && end.signals == Lanes([], [])
      ensures Size(w0.signals) + pushed == |events| && Serving(old(Queues()), pushed, true)
      ensures c.menu in store.trees ==> fresh(store.trees[c.menu]) || store.trees[c.menu] in old(Mine(c))
      ensures OthersKept(old(store.trees), store.trees, c)
    {
      ghost var q0 := Queues();
      var stream, next := Open(c, w0);
      events, end, pushed := Loop(stream, next, clock, c, w0, q0);
      Pending(stream, c, w0, events, end, q0, pushed);
      RunKeeps(c, w0, events);
    }

    /** A new stream, polled once. */
    method Open(ghost c: Cast, ghost w0: World)
      returns (stream: StreamReceiver<Signal<Id, GameInput>>, next: Option<Signal<Id, GameInput>>)
      requires Represents(c, w0)
      modifies signalQueue
      ensures fresh(stream) && Running(stream, next, c, w0, [], w0, old(Queues()), 0)
    {
      Ungrown(notificationQueue.View());
      stream := new StreamReceiver(signalQueue, 0);
      next := Poll(stream, c, w0);
      ReachedNow(c, w0);
    }

    lemma Pending(stream: StreamReceiver<Signal<Id, GameInput>>, c: Cast, w0: World, events: seq<Event>, w: World,
                  q0: M.Queues, pushed: nat)
      requires Running(stream, None, c, w0, events, w, q0, pushed)
      ensures Represents(c, w) && w.signals == Lanes([], []) && Reached(c, w0, events, w)
      ensures Size(w0.signals) + pushed == |events| && Serving(q0, pushed, true)
    {
      assert Rest(w) == w;
    }

    /** The repository's first game test: a game in which nobody holds the packet is
        played to its end by the dispatch loop alone, and one with a holder is not. */
    method PlayGame(clock: nat -> int, ghost c: Cast, who: Option<Game>)
      requires Represents(c, Start(c, who))
      modifies menu, signalQueue, notificationQueue, store, Mine(c)
      ensures signalQueue.front == [] && signalQueue.back == []
      ensures c.menu in store.trees && c.ping in store.trees && c.pong in store.trees
      ensures store.trees[c.ping] == store.trees[c.menu] && store.trees[c.pong] == store.trees[c.menu]
      ensures exists m, p, q :: store.trees[c.menu].node == PingPongTree.GameTree(c, m, p, q)
                && (if PingPongDispatch.PlayerHolds(who) then m == MenuReady
                    else m == MenuDone && p == PingDone && q == PongDone)
    {
      ghost var start := Start(c, who);
      assert Started(c, start);
      ghost var events, end, pushed := DispatchAll(clock, c, start);
      PingPongDispatch.DispatchAloneFinishesIff(c, who, events);
      ghost var m, p, q := Shape(c, end);
    }
  }

  lemma Shape(c: Cast, w: World) returns (m: GameState, p: GameState, q: GameState)
    requires Invariant(c, w) && w.tree.Some?
    ensures c.Valid() && w.tree.value == PingPongTree.GameTree(c, m, p, q)
    ensures Known(w, c.menu) && Known(w, c.ping) && Known(w, c.pong)
    ensures StateAt(w, c.menu) == m && StateAt(w, c.ping) == p && StateAt(w, c.pong) == q
  {
    m, p, q := TheStates(c, w);
    PlayerFacts(c, w, m, p, q);
  }
}

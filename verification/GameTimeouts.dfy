/** The other loops around a game: routing (src/notification.rs:115-133), the timeout
    manager's input loop (src/timeout.rs:304-325) and its tick (src/timeout.rs:335-368).
    Each is shown to perform a run of the `PingPong` state machine, made of the events
    that stand for it there. */
module GameTimeouts {
  import opened Base
  import opened StreamQueue
  import opened Timers
  import opened Pipeline
  import opened PingPong
  import opened InFlight
  import opened PingPongRuns
  import Notify
  import TimeoutManagers

  lemma LeadsFirst(c: Cast, w: World, e: Event, rest: seq<Event>, end: World)
    requires Enabled(w, e) && Next(c, w, e).Some? && Leads(c, Next(c, w, e).value, rest, end)
    ensures Leads(c, w, [e] + rest, end)
  {
    assert ([e] + rest)[1..] == rest;
  }

  // ---------------------------------------------------------------------------
  // Routing

  lemma {:induction false} RouteEverything(c: Cast, w: World) returns (events: seq<Event>)
    ensures Leads(c, w, events, w.(pipe := w.pipe.(lane := [], chan := w.pipe.chan + w.pipe.lane)))
    ensures |events| == |w.pipe.lane| && forall e | e in events :: e == RouteOne
    decreases |w.pipe.lane|
  {
    if w.pipe.lane == [] {
      assert w.pipe.chan + [] == w.pipe.chan;
      return [];
    }
    var w1 := w.(pipe := After(w.pipe, Route));
    assert w.pipe.chan + [w.pipe.lane[0]] + w.pipe.lane[1..] == w.pipe.chan + w.pipe.lane;
    var rest := RouteEverything(c, w1);
    events := [RouteOne] + rest;
    LeadsFirst(c, w, RouteOne, rest, w.(pipe := w.pipe.(lane := [], chan := w.pipe.chan + w.pipe.lane)));
  }

  /** Every message of the game has the one timeout topic. */
  function TopicOf(r: Request<Id, Packet>): (topic: ()) {
    ()
  }

  lemma {:induction false} DeliveredToOne(ns: seq<Request<Id, Packet>>)
    ensures Notify.Deliveries([()], ns, TopicOf) == ns
  {
    if ns != [] {
      DeliveredToOne(ns[..|ns| - 1]);
      assert Notify.Count([()][..0], ()) == 0 && Notify.Count([()], ()) == 1;
      assert Notify.Copies(0, ns[|ns| - 1]) == [] && Notify.Copies(1, ns[|ns| - 1]) == [ns[|ns| - 1]];
      assert ns[..|ns| - 1] + [ns[|ns| - 1]] == ns;
    }
  }

  method DrainToOne(nm: Notify.NotificationManager<(), Request<Id, Packet>>)
    requires nm.Ready([[()]]) && nm.queue.Valid() && nm.topicOf == TopicOf && nm.queue.back == []
    modifies nm`channels, nm.queue
    ensures nm.Ready([[()]]) && nm.queue.Valid() && nm.queue.View() == nm.Waiting(old(nm.queue.View()))
    ensures nm.channels[0] == old(nm.channels[0]) + old(nm.queue.front)
  {
    DeliveredToOne(nm.queue.front);
    assert nm.queue.front + nm.queue.back == nm.queue.front;
    nm.Drain([[()]]);
  }

  /** With the timeout manager as the only processor, draining the notification queue
      moves every request to its channel, in issue order, and leaves the loop waiting. */
  method RouteAll(nm: Notify.NotificationManager<(), Request<Id, Packet>>, ghost received: seq<Request<Id, Packet>>,
                  ghost c: Cast, ghost w: World)
    returns (ghost events: seq<Event>, ghost end: World)
    requires nm.Ready([[()]]) && nm.queue.Valid() && nm.topicOf == TopicOf
    requires nm.queue.front == w.pipe.lane && nm.queue.back == [] && nm.channels[0] == received + w.pipe.chan
    modifies nm`channels, nm.queue
    ensures Leads(c, w, events, end)
    ensures |events| == |w.pipe.lane| && forall e | e in events :: e == RouteOne
    ensures nm.Ready([[()]]) && nm.queue.Valid() && nm.queue.View() == nm.Waiting(old(nm.queue.View()))
    ensures nm.channels[0] == old(nm.channels[0]) + old(nm.queue.front)
    ensures end.pipe.lane == [] && nm.channels[0] == received + end.pipe.chan
  {
    events := RouteEverything(c, w);
    end := w.(pipe := w.pipe.(lane := [], chan := w.pipe.chan + w.pipe.lane));
    DrainToOne(nm);
    assert received + w.pipe.chan + w.pipe.lane == received + (w.pipe.chan + w.pipe.lane);
  }

  // ---------------------------------------------------------------------------
  // Receiving

  /** The input loop, for what is in the channel. */
  method ReceiveAll(ledger: TimeoutLedger<Id, Packet>, chan: seq<Request<Id, Packet>>, ghost c: Cast, ghost w: World)
    returns (ghost events: seq<Event>, ghost end: World)
    requires ledger.Valid() && ledger.View() == w.pipe.ledger && chan == w.pipe.chan
    modifies ledger
    ensures Leads(c, w, events, end) && end.pipe.chan == []
    ensures |events| == |chan| && forall e | e in events :: e == ReceiveOne
    ensures ledger.Valid() && ledger.View() == end.pipe.ledger
  {
    events, end := [], w;
    for i := 0 to |chan|
      invariant Leads(c, w, events, end) && end.pipe.chan == chan[i..]
      invariant |events| == i && forall e | e in events :: e == ReceiveOne
      invariant ledger.Valid() && ledger.View() == end.pipe.ledger
    {
      ledger.Receive(chan[i]);
      LeadsOneMore(c, w, events, end, ReceiveOne);
      events, end := events + [ReceiveOne], end.(pipe := After(end.pipe, Receive));
    }
  }

  // ---------------------------------------------------------------------------
  // Ticking

  lemma {:induction false} EmitEverything(c: Cast, w: World) returns (events: seq<Event>)
    ensures Leads(c, w, events, w.(signals := w.signals.(front := w.signals.front + w.outbox), outbox := []))
    ensures |events| == |w.outbox| && forall e | e in events :: e == Emit
    decreases |w.outbox|
  {
    if w.outbox == [] {
      assert w.signals.front + [] == w.signals.front;
      return [];
    }
    var w1 := w.(signals := PushedFront(w.signals, w.outbox[0]), outbox := w.outbox[1..]);
    assert w.signals.front + [w.outbox[0]] + w.outbox[1..] == w.signals.front + w.outbox;
    var rest := EmitEverything(c, w1);
    events := [Emit] + rest;
    LeadsFirst(c, w, Emit, rest, w.(signals := w.signals.(front := w.signals.front + w.outbox), outbox := []));
  }

  ghost function TickedAndEmitted(w: World, now: int, order: seq<Id>): (next: World) {
    var ticked := AfterTick(w, now, order);
    ticked.(signals := ticked.signals.(front := ticked.signals.front + ticked.outbox), outbox := [])
  }

  lemma TickEverything(c: Cast, w: World, now: int, order: seq<Id>) returns (events: seq<Event>)
    requires Enabled(w, TickAt(now, order))
    ensures Leads(c, w, events, TickedAndEmitted(w, now, order))
    ensures events != [] && events[0] == TickAt(now, order) && forall e | e in events[1..] :: e == Emit
  {
    var rest := EmitEverything(c, AfterTick(w, now, order));
    events := [TickAt(now, order)] + rest;
    LeadsFirst(c, w, TickAt(now, order), rest, TickedAndEmitted(w, now, order));
  }

  lemma EmittedInOrder(w: World, now: int, order: seq<Id>)
    ensures TickedAndEmitted(w, now, order).signals.front
         == w.signals.front + TimeoutManagers.TimeoutSignals(order, now, TimeoutInput)
            + TimeoutManagers.ReturnSignals(Flat(Before(w.pipe.ledger.held, now)), ReturnItem)
  {
  }

  ghost function TimedOut(order: seq<Id>, now: int): (signals: seq<Signal<Id, GameInput>>) {
    seq(|order|, i requires 0 <= i < |order| =>
      Signal(order[i], if order[i].kind == Ping then PingTimeout(now) else PongTimeout(now)))
  }

  ghost function BroughtBack(pairs: seq<(Id, Packet)>): (signals: seq<Signal<Id, GameInput>>) {
    seq(|pairs|, i requires 0 <= i < |pairs| =>
      Signal(pairs[i].0, if pairs[i].0.kind == Ping then PingReturned(pairs[i].1) else PongReturned(pairs[i].1)))
  }

  lemma EveryTimeout(order: seq<Id>, now: int)
    requires forall id | id in order :: Player(id)
    ensures TimeoutManagers.TimeoutSignals(order, now, TimeoutInput) == TimedOut(order, now)
  {
    TimeoutManagers.TimeoutsInOrder(order, now, TimeoutInput);
  }

  lemma EveryReturn(due: seq<(Id, Packet)>)
    requires forall x | x in due :: Player(x.0)
    ensures TimeoutManagers.ReturnSignals(due, ReturnItem) == BroughtBack(due)
  {
    TimeoutManagers.ReturnsInOrder(due, ReturnItem);
  }

  /** Where only players have timers and packets, each of them gets its signal. */
  lemma EverySignal(l: Ledger<Id, Packet>, now: int, order: seq<Id>)
    requires OnlyPlayers(l) && ExpiryOrder(l.armed, now, order)
    ensures TimeoutManagers.TimeoutSignals(order, now, TimeoutInput) == TimedOut(order, now)
    ensures var due := Flat(Before(l.held, now));
            TimeoutManagers.ReturnSignals(due, ReturnItem) == BroughtBack(due)
  {
    var due := Flat(Before(l.held, now));
    FlatSplit(l.held, now);
    assert forall x | x in due :: x in Flat(l.held);
    EveryTimeout(order, now);
    EveryReturn(due);
  }

  /** The timeout manager of the game, with the players' callbacks. An id is armed
      afterwards if its deadline is not over, a packet is held if its instant is not,
      and the others have become signals: timeouts by deadline, then packets by instant.
      Each signal has woken a receiver, and all this is one tick of the system. */
  method TickGame(tm: TimeoutManagers.TimeoutManager<Id, Packet, GameInput>, now: int, ghost c: Cast, ghost w: World)
    returns (ghost order: seq<Id>, ghost events: seq<Event>, ghost end: World)
    requires tm.Valid() && tm.timeoutInput == TimeoutInput && tm.returnItem == ReturnItem
    requires tm.ledger.View() == w.pipe.ledger && w.outbox == []
    requires w.signals == Lanes(tm.signalQueue.front, tm.signalQueue.back)
    modifies tm.ledger, tm.signalQueue
    ensures ExpiryOrder(old(tm.ledger.ids), now, order)
    ensures tm.ledger.ids
         == map id | id in old(tm.ledger.ids) && old(tm.ledger.ids)[id] >= now :: old(tm.ledger.ids)[id]
    ensures tm.ledger.retainer == From(old(tm.ledger.retainer), now)
    ensures OnlyPlayers(old(tm.ledger.View())) ==>
              tm.Queued(old(tm.signalQueue.View()),
                        TimedOut(order, now) + BroughtBack(Flat(Before(old(tm.ledger.retainer), now))))
    ensures events != [] && events[0] == TickAt(now, order) && forall e | e in events[1..] :: e == Emit
    ensures Leads(c, w, events, end) && end.outbox == []
    ensures tm.Valid() && tm.ledger.View() == end.pipe.ledger
    ensures end.signals == Lanes(tm.signalQueue.front, tm.signalQueue.back)
    ensures Grown(old(tm.signalQueue.View()), tm.signalQueue.View())
  {
    ghost var was := tm.ledger.View();
    order := tm.Tick(now);
    events := TickEverything(c, w, now, order);
    end := TickedAndEmitted(w, now, order);
    EmittedInOrder(w, now, order);
    if OnlyPlayers(was) {
      EverySignal(was, now, order);
    }
  }
}

/** Every run of the Menu/Ping/Pong system: no panic, one packet, consistent ends,
    and no standstill before the game is decided. */
module PingPongRuns {
  import opened Base
  import opened StateTree
  import opened StreamQueue
  import opened Timers
  import opened Pipeline
  import opened PingPong
  import opened PingPongTree
  import opened InFlight
  import opened PingPongSafety
  import opened PingPongSteps
  import TimeoutManagers

  // ---------------------------------------------------------------------------
  // One step

  /** What Play makes of an empty system. */
  ghost function Begun(c: Cast, who: Option<Game>): (w: World) {
    Sent(With(c, Rest(Start(c, who)), MenuReady, PingReady, PongReady), c.ping, StartSending(c.pong, who))
  }

  lemma PlayOutcome(c: Cast, who: Option<Game>, t1: int, t2: int)
    requires c.Valid()
    ensures Enabled(Start(c, who), Dispatch(t1, t2)) && Next(c, Start(c, who), Dispatch(t1, t2)) == Some(Begun(c, who))
  {
    var w := Start(c, who);
    GameTreeBuilt(c);
    assert Processed(c, Rest(w), Head(w.signals).value, t1, t2) == Some(Begun(c, who));
  }

  lemma BegunPlaying(c: Cast, who: Option<Game>)
    requires c.Valid()
    ensures Playing(c, Begun(c, who), MenuReady, PingReady, PongReady)
  {
    var w1 := With(c, Rest(Start(c, who)), MenuReady, PingReady, PongReady);
    assert w1.signals == Lanes([], []);
    assert Messages(c, w1) && Tokens(w1) == 0;
    SentFacts(c, w1, c.ping, StartSending(c.pong, who));
    assert !Expected(w1.pipe, c.ping) && !Expected(w1.pipe, c.pong);
  }

  lemma PlayBegins(c: Cast, who: Option<Game>, t1: int, t2: int)
    requires c.Valid()
    ensures var w := Start(c, who);
            && Enabled(w, Dispatch(t1, t2)) && Next(c, w, Dispatch(t1, t2)) == Some(Begun(c, who))
            && Playing(c, Begun(c, who), MenuReady, PingReady, PongReady)
  {
    PlayOutcome(c, who, t1, t2);
    BegunPlaying(c, who);
  }

  /** Terminal states do not change, but for a Pong that is done: it still fails if
      the game does. */
  ghost predicate Onward(m: GameState, p: GameState, q: GameState, m': GameState, p': GameState, q': GameState) {
    && (IsTerminal(m) ==> m' == m && p' == p && q' == q)
    && (IsTerminal(p) ==> p' == p)
    && (IsTerminal(q) ==> q' == q || (q == PongDone && q' == PongFailed && m' == MenuFailed))
  }

  /** The inputs a player can be sent. */
  lemma PlayerInputs(c: Cast, s: Signal<Id, GameInput>)
    requires c.Valid() && (FrontOk(c, s) || BackOk(c, s))
    ensures s.id == c.ping || s.id == c.pong || s.id == c.menu
    ensures s.id == c.ping ==> s.input.ForPing()
    ensures s.id == c.pong ==> s.input.ForPong()
    ensures s.id == c.menu ==> s.input.ForMenu() && !s.input.Play?
  {
  }

  lemma PingKeeps(c: Cast, w: World, s: Signal<Id, GameInput>, w0: World, m: GameState, p: GameState, q: GameState,
                  t1: int, t2: int)
    returns (p': GameState)
    requires Dispatching(c, w, s, w0, m, p, q) && s.id == c.ping && s.input.ForPing()
    ensures Processed(c, w0, s, t1, t2).Some? && Playing(c, Processed(c, w0, s, t1, t2).value, m, p', q)
    ensures Onward(m, p, q, m, p', q)
  {
    if IsTerminal(p) {
      PingIgnores(c, w, s, w0, m, p, q, t1, t2);
      return p;
    }
    Undecided(c, w, m, p, q);
    if s.input.StartSending? {
      PingStarts(c, w, s, w0, m, p, q, t1, t2);
      return PingSending;
    }
    if s.input.PingTimeout? {
      PingFails(c, w, s, w0, m, p, q, t1, t2);
      return PingFailed;
    }
    if IsFinal(s) {
      PingCompletes(c, w, s, w0, m, p, q, t1, t2);
      return PingDone;
    }
    PingAnswers(c, w, s, w0, m, p, q, t1, t2);
    return p;
  }

  lemma PongKeeps(c: Cast, w: World, s: Signal<Id, GameInput>, w0: World, m: GameState, p: GameState, q: GameState,
                  t1: int, t2: int)
    returns (q': GameState)
    requires Dispatching(c, w, s, w0, m, p, q) && s.id == c.pong && s.input.ForPong()
    ensures Processed(c, w0, s, t1, t2).Some? && Playing(c, Processed(c, w0, s, t1, t2).value, m, p, q')
    ensures Onward(m, p, q, m, p, q')
  {
    if IsTerminal(q) {
      PongIgnores(c, w, s, w0, m, p, q, t1, t2);
      return q;
    }
    Undecided(c, w, m, p, q);
    if s.input.PongTimeout? {
      PongFails(c, w, s, w0, m, p, q, t1, t2);
      return PongFailed;
    }
    if s.input.PongPacket? && s.input.packet.msg >= 20 {
      PongCompletes(c, w, s, w0, m, p, q, t1, t2);
      return PongDone;
    }
    q' := PongAnswers(c, w, s, w0, m, p, q, t1, t2);
  }

  lemma MenuKeeps(c: Cast, w: World, s: Signal<Id, GameInput>, w0: World, m: GameState, p: GameState, q: GameState,
                  t1: int, t2: int)
    returns (m': GameState, p': GameState, q': GameState)
    requires Dispatching(c, w, s, w0, m, p, q) && s.id == c.menu
    ensures Processed(c, w0, s, t1, t2).Some? && Playing(c, Processed(c, w0, s, t1, t2).value, m', p', q')
    ensures Onward(m, p, q, m', p', q')
  {
    if IsTerminal(m) {
      MenuIgnores(c, w, s, w0, m, p, q, t1, t2);
      return m, p, q;
    }
    MenuHears(c, w, s, w0, m, p, q);
    if s.input.PingPongComplete? {
      MenuCompletes(c, w, s, w0, m, p, q, t1, t2);
      return MenuDone, p, q;
    }
    MenuFails(c, w, s, w0, m, p, q, t1, t2);
    return MenuFailed, PingFailed, PongFailed;
  }

  /** What an undecided menu can be told, and of whom. */
  lemma MenuHears(c: Cast, w: World, s: Signal<Id, GameInput>, w0: World, m: GameState, p: GameState, q: GameState)
    requires Dispatching(c, w, s, w0, m, p, q) && s.id == c.menu && !IsTerminal(m)
    ensures m == MenuReady && (s.input.PingPongComplete? || s.input.FailedPing? || s.input.FailedPong?)
    ensures s.input.PingPongComplete? ==> p == PingDone && q == PongDone
    ensures s.input.FailedPing? ==> p == PingFailed
    ensures s.input.FailedPong? ==> q == PongFailed && p != PingDone
  {
    Taken(c, w);
    Undecided(c, w, m, p, q);
    assert Told(c, w.signals.back, s.input);
  }

  lemma DispatchKeeps(c: Cast, w: World, m: GameState, p: GameState, q: GameState, t1: int, t2: int)
    returns (m': GameState, p': GameState, q': GameState)
    requires Playing(c, w, m, p, q) && Head(w.signals).Some?
    ensures Next(c, w, Dispatch(t1, t2)).Some?
    ensures Playing(c, Next(c, w, Dispatch(t1, t2)).value, m', p', q') && Onward(m, p, q, m', p', q')
  {
    var s, w0 := Head(w.signals).value, Rest(w);
    m', p', q' := m, p, q;
    HeadOk(c, w, s);
    PlayerInputs(c, s);
    if s.id == c.ping {
      p' := PingKeeps(c, w, s, w0, m, p, q, t1, t2);
    } else if s.id == c.pong {
      q' := PongKeeps(c, w, s, w0, m, p, q, t1, t2);
    } else {
      m', p', q' := MenuKeeps(c, w, s, w0, m, p, q, t1, t2);
    }
  }

  lemma TokensConsistent()
    ensures Consistent(TokenWeights())
  {
  }

  lemma RouteMessages(c: Cast, p: Pipe<Id, Packet>)
    requires PipeOk(c, p) && p.lane != []
    ensures PipeOk(c, After(p, Route))
  {
  }

  lemma RouteKeeps(c: Cast, w: World, m: GameState, p: GameState, q: GameState)
    requires Playing(c, w, m, p, q) && w.pipe.lane != []
    ensures Playing(c, w.(pipe := After(w.pipe, Route)), m, p, q)
  {
    TotalRoute(w, TokenWeights());
    RouteMessages(c, w.pipe);
    ExpectedStep(w.pipe, Route, c.ping);
    ExpectedStep(w.pipe, Route, c.pong);
    PipeMoved(c, w, After(w.pipe, Route), m, p, q);
  }

  /** Requests got further, and nothing else changed. */
  lemma PipeMoved(c: Cast, w: World, pipe: Pipe<Id, Packet>, m: GameState, p: GameState, q: GameState)
    requires Playing(c, w, m, p, q) && PipeOk(c, pipe) && Tokens(w.(pipe := pipe)) == Tokens(w)
    requires Expected(pipe, c.ping) == Expected(w.pipe, c.ping) && Expected(pipe, c.pong) == Expected(w.pipe, c.pong)
    ensures Playing(c, w.(pipe := pipe), m, p, q)
  {
  }

  /** Only the ledger's own share may change under the verdict's feet. */
  lemma ReceiveTokens(w: World)
    requires w.pipe.chan != []
    ensures Tokens(w.(pipe := After(w.pipe, Receive))) == Tokens(w)
  {
    var r, l := w.pipe.chan[0], w.pipe.ledger;
    if r.op.Retain? {
      var x := (r.id, r.op.item);
      var a, b := FlatHold(l.held, r.op.at, x);
      SumConcat(a, b, TokenHeld);
      SumConcat(a + [x], b, TokenHeld);
      SumSnoc(a, x, TokenHeld);
    }
  }

  lemma ReceiveMessages(c: Cast, p: Pipe<Id, Packet>)
    requires PipeOk(c, p) && p.chan != []
    ensures PipeOk(c, After(p, Receive))
  {
    var r, l := p.chan[0], p.ledger;
    assert RequestOk(c, r);
    if r.op.Retain? {
      var x := (r.id, r.op.item);
      var a, b := FlatHold(l.held, r.op.at, x);
      var now := Flat(Applied(l, r).held);
      assert now == a + [x] + b;
      forall y | y in now ensures HeldFor(c, y) {
        assert y == x || y in a + b;
      }
    }
  }

  lemma ReceiveKeeps(c: Cast, w: World, m: GameState, p: GameState, q: GameState)
    requires Playing(c, w, m, p, q) && w.pipe.chan != []
    ensures Playing(c, w.(pipe := After(w.pipe, Receive)), m, p, q)
  {
    ReceiveTokens(w);
    ReceiveMessages(c, w.pipe);
    ExpectedStep(w.pipe, Receive, c.ping);
    ExpectedStep(w.pipe, Receive, c.pong);
    PipeMoved(c, w, After(w.pipe, Receive), m, p, q);
  }

  lemma EmitKeeps(c: Cast, w: World, m: GameState, p: GameState, q: GameState)
    requires Playing(c, w, m, p, q) && w.outbox != []
    ensures Playing(c, w.(signals := PushedFront(w.signals, w.outbox[0]), outbox := w.outbox[1..]), m, p, q)
  {
    TotalEmit(w, TokenWeights());
  }

  // Ticks

  ghost predicate InGame(c: Cast, id: Id) {
    id == c.ping || id == c.pong
  }

  lemma {:induction false} TimeoutSignalsOk(c: Cast, order: seq<Id>, now: int)
    requires c.Valid() && forall id | id in order :: InGame(c, id)
    ensures forall s | s in TimeoutManagers.TimeoutSignals(order, now, TimeoutInput) :: FrontOk(c, s)
  {
    if order != [] {
      var id := order[|order| - 1];
      assert id in order;
      forall i | i in order[..|order| - 1] ensures InGame(c, i) {
        assert i in order;
      }
      TimeoutSignalsOk(c, order[..|order| - 1], now);
    }
  }

  lemma {:induction false} ReturnSignalsOk(c: Cast, pairs: seq<(Id, Packet)>)
    requires c.Valid() && forall x | x in pairs :: HeldFor(c, x)
    ensures forall s | s in TimeoutManagers.ReturnSignals(pairs, ReturnItem) :: FrontOk(c, s)
  {
    if pairs != [] {
      var x := pairs[|pairs| - 1];
      assert x in pairs;
      ReturnSignalsOk(c, pairs[..|pairs| - 1]);
    }
  }

  ghost function AfterTick(w: World, now: int, order: seq<Id>): (next: World) {
    w.(pipe := After(w.pipe, Tick(now)),
       outbox := TimeoutManagers.TimeoutSignals(order, now, TimeoutInput)
                 + TimeoutManagers.ReturnSignals(Flat(Before(w.pipe.ledger.held, now)), ReturnItem))
  }

  lemma TickMessages(c: Cast, w: World, now: int, order: seq<Id>)
    requires c.Valid() && Messages(c, w) && ExpiryOrder(w.pipe.ledger.armed, now, order)
    ensures Messages(c, AfterTick(w, now, order))
  {
    var held := w.pipe.ledger.held;
    FlatSplit(held, now);
    assert forall x | x in Flat(Before(held, now)) :: x in Flat(held);
    assert forall x | x in Flat(From(held, now)) :: x in Flat(held);
    TimeoutSignalsOk(c, order, now);
    ReturnSignalsOk(c, Flat(Before(held, now)));
  }

  lemma OnlyTheCast(c: Cast, l: Ledger<Id, Packet>, p: Pipe<Id, Packet>)
    requires c.Valid() && PipeOk(c, p) && l == p.ledger
    ensures OnlyPlayers(l)
  {
  }

  lemma TickKeeps(c: Cast, w: World, m: GameState, p: GameState, q: GameState, now: int, order: seq<Id>)
    requires Playing(c, w, m, p, q) && Enabled(w, TickAt(now, order))
    ensures Playing(c, AfterTick(w, now, order), m, p, q)
  {
    OnlyTheCast(c, w.pipe.ledger, w.pipe);
    TokensConsistent();
    TotalTick(w, now, order, TokenWeights());
    TickMessages(c, w, now, order);
    ExpectedStep(w.pipe, Tick(now), c.ping);
    ExpectedStep(w.pipe, Tick(now), c.pong);
  }

  lemma PlayingStep(c: Cast, w: World, e: Event, m: GameState, p: GameState, q: GameState)
    returns (m': GameState, p': GameState, q': GameState)
    requires Playing(c, w, m, p, q) && Enabled(w, e)
    ensures Next(c, w, e).Some? && Playing(c, Next(c, w, e).value, m', p', q') && Onward(m, p, q, m', p', q')
  {
    m', p', q' := m, p, q;
    match e
    case Dispatch(t1, t2) => m', p', q' := DispatchKeeps(c, w, m, p, q, t1, t2);
    case RouteOne => RouteKeeps(c, w, m, p, q);
    case ReceiveOne => ReceiveKeeps(c, w, m, p, q);
    case TickAt(now, order) => TickKeeps(c, w, m, p, q, now, order);
    case Emit => EmitKeeps(c, w, m, p, q);
  }

  // ---------------------------------------------------------------------------
  // Runs

  ghost predicate Started(c: Cast, w: World) {
    c.Valid() && exists who :: w == Start(c, who)
  }

  /** `Playing`, with the states read off the tree. */
  ghost predicate UnderWay(c: Cast, w: World) {
    && w.tree.Some? && |w.tree.value.children| == 2
    && Playing(c, w, w.tree.value.state, w.tree.value.children[0].state, w.tree.value.children[1].state)
  }

  lemma TheStates(c: Cast, w: World) returns (m: GameState, p: GameState, q: GameState)
    requires UnderWay(c, w)
    ensures Playing(c, w, m, p, q)
  {
    m, p, q := w.tree.value.state, w.tree.value.children[0].state, w.tree.value.children[1].state;
  }

  ghost predicate Invariant(c: Cast, w: World) {
    Started(c, w) || UnderWay(c, w)
  }

  lemma StartedStep(c: Cast, w: World, e: Event)
    requires Started(c, w) && Enabled(w, e)
    ensures Next(c, w, e).Some? && Invariant(c, Next(c, w, e).value)
    ensures e.Dispatch? || (e.TickAt? && Next(c, w, e).value == w)
  {
    var who :| w == Start(c, who);
    match e
    case Dispatch(t1, t2) => PlayBegins(c, who, t1, t2);
    case TickAt(now, order) =>
      ExpiryCount(w.pipe.ledger, now, order);
      assert order == [];
      assert Before(w.pipe.ledger.held, now) == map[];
      assert Next(c, w, e).value.pipe == w.pipe;
    case _ =>
  }

  ghost predicate LegalRun(c: Cast, w: World, events: seq<Event>)
    decreases |events|
  {
    events != [] ==>
      Enabled(w, events[0])
      && (Next(c, w, events[0]).Some? ==> LegalRun(c, Next(c, w, events[0]).value, events[1..]))
  }

  /** Where a run ends; None once a step has panicked. */
  ghost function Outcome(c: Cast, w: World, events: seq<Event>): (next: Option<World>)
    requires LegalRun(c, w, events)
    decreases |events|
  {
    if events == [] then Some(w)
    else if Next(c, w, events[0]).None? then None
    else Outcome(c, Next(c, w, events[0]).value, events[1..])
  }

  lemma {:induction false} JoinRuns(c: Cast, w: World, a: seq<Event>, b: seq<Event>)
    requires LegalRun(c, w, a) && Outcome(c, w, a).Some? && LegalRun(c, Outcome(c, w, a).value, b)
    ensures LegalRun(c, w, a + b) && Outcome(c, w, a + b) == Outcome(c, Outcome(c, w, a).value, b)
    decreases |a|
  {
    if a == [] {
      assert a + b == b;
    } else {
      assert (a + b)[0] == a[0];
      assert (a + b)[1..] == a[1..] + b;
      JoinRuns(c, Next(c, w, a[0]).value, a[1..], b);
    }
  }

  /** `events` lead from `w` to `end`. */
  ghost predicate Leads(c: Cast, w: World, events: seq<Event>, end: World) {
    LegalRun(c, w, events) && Outcome(c, w, events) == Some(end)
  }

  lemma LeadsOneMore(c: Cast, w0: World, events: seq<Event>, w: World, e: Event)
    requires Leads(c, w0, events, w) && Enabled(w, e) && Next(c, w, e).Some?
    ensures Leads(c, w0, events + [e], Next(c, w, e).value)
  {
    assert [e][1..] == [];
    JoinRuns(c, w0, events, [e]);
  }

  /** No step panics, and every one keeps the invariant. */
  lemma InvariantStep(c: Cast, w: World, e: Event)
    requires Invariant(c, w) && Enabled(w, e)
    ensures Next(c, w, e).Some? && Invariant(c, Next(c, w, e).value)
  {
    if Started(c, w) {
      StartedStep(c, w, e);
    } else {
      var m, p, q := TheStates(c, w);
      var m', p', q' := PlayingStep(c, w, e, m, p, q);
    }
  }

  lemma {:induction false} RunKeeps(c: Cast, w: World, events: seq<Event>)
    requires Invariant(c, w) && LegalRun(c, w, events)
    ensures Outcome(c, w, events).Some? && Invariant(c, Outcome(c, w, events).value)
    decreases |events|
  {
    if events != [] {
      InvariantStep(c, w, events[0]);
      RunKeeps(c, Next(c, w, events[0]).value, events[1..]);
    }
  }

  /** Nothing is in flight: no signal, no request, no held item. Timers may be armed. */
  ghost predicate Quiet(w: World) {
    && w.signals == Lanes([], []) && w.outbox == []
    && Drained(w.pipe) && Flat(w.pipe.ledger.held) == []
  }

  /** In every run from a single Play, however dispatching, routing, receiving and
      ticking interleave: nothing panics; there is at most one packet; a finished
      menu has finished players and a failed one failed players; and when nothing is
      in flight any more, the game is decided and no timer is left armed. */
  lemma EveryRun(c: Cast, who: Option<Game>, events: seq<Event>)
    requires c.Valid() && LegalRun(c, Start(c, who), events)
    ensures Outcome(c, Start(c, who), events).Some?
    ensures var w := Outcome(c, Start(c, who), events).value;
            && Tokens(w) <= 1
            && (if w.tree.Some? then Ends(c, w) else !Quiet(w) && c.menu !in w.failures)
  {
    assert Started(c, Start(c, who));
    RunKeeps(c, Start(c, who), events);
    var w := Outcome(c, Start(c, who), events).value;
    if Started(c, w) {
      StartedTokens(c, w);
    } else {
      var m, p, q := TheStates(c, w);
      PlayingEnds(c, w, m, p, q);
    }
  }

  lemma PlayingEnds(c: Cast, w: World, m: GameState, p: GameState, q: GameState)
    requires Playing(c, w, m, p, q)
    ensures Tokens(w) <= 1 && Ends(c, w)
  {
    PlayerFacts(c, w, m, p, q);
    GameTreeShape(c, m, p, q);
    if Quiet(w) {
      QuietMeansDecided(c, w, m, p, q);
    }
  }

  /** How a game stands once it has begun. */
  ghost predicate Ends(c: Cast, w: World) {
    && w.tree.Some? && Ids(w.tree.value) == {c.menu, c.ping, c.pong}
    && (StateAt(w, c.menu) == MenuDone ==> StateAt(w, c.ping) == PingDone && StateAt(w, c.pong) == PongDone)
    && (StateAt(w, c.menu) == MenuFailed ==> StateAt(w, c.ping) == PingFailed && StateAt(w, c.pong) == PongFailed)
    && (c.menu in w.failures <==> StateAt(w, c.menu) == MenuFailed)
    && (Quiet(w) ==> IsTerminal(StateAt(w, c.menu)) && w.pipe.ledger.armed == map[])
  }

  lemma StartedTokens(c: Cast, w: World)
    requires Started(c, w)
    ensures Tokens(w) == 1 && !Quiet(w) && w.tree.None? && c.menu !in w.failures
  {
    var who :| w == Start(c, who);
    assert w.signals.back[1..] == [];
  }

  lemma QuietMeansDecided(c: Cast, w: World, m: GameState, p: GameState, q: GameState)
    requires Playing(c, w, m, p, q) && Quiet(w)
    ensures IsTerminal(m) && w.pipe.ledger.armed == map[]
  {
    assert Tokens(w) == 0;
    assert w.pipe.chan + w.pipe.lane == [];
    assert Expected(w.pipe, c.ping) == (c.ping in w.pipe.ledger.armed);
    assert Expected(w.pipe, c.pong) == (c.pong in w.pipe.ledger.armed);
  }

  /** The step lets a menu that is still undecided learn that Ping failed. */
  ghost predicate LearnsPingFailed(c: Cast, w: World, e: Event, m: GameState) {
    e.Dispatch? && m == MenuReady && Head(w.signals) == Some(Signal(c.menu, FailedPing))
  }

  /** A terminal state changes in a step if and only if it is that of a Pong that was
      done and the step lets an undecided menu learn that Ping failed. */
  lemma TerminalChangesIff(c: Cast, w: World, e: Event, m: GameState, p: GameState, q: GameState)
    returns (m': GameState, p': GameState, q': GameState)
    requires Playing(c, w, m, p, q) && Enabled(w, e)
    ensures Next(c, w, e).Some? && Playing(c, Next(c, w, e).value, m', p', q')
    ensures (IsTerminal(m) ==> m' == m) && (IsTerminal(p) ==> p' == p)
    ensures IsTerminal(q) ==> (q' != q <==> q == PongDone && LearnsPingFailed(c, w, e, m))
  {
    m', p', q' := PlayingStep(c, w, e, m, p, q);
    if IsTerminal(q) {
      if e.Dispatch? {
        PongAfterDispatch(c, w, m, p, q, m', p', q', e.t1, e.t2);
      } else {
        SameTree(c, Next(c, w, e).value, m, p, q, m', p', q');
      }
    }
  }

  lemma SameTree(c: Cast, w: World, m: GameState, p: GameState, q: GameState, m': GameState, p': GameState,
                 q': GameState)
    requires w.tree == Some(GameTree(c, m, p, q)) && w.tree == Some(GameTree(c, m', p', q'))
    ensures m' == m && p' == p && q' == q
  {
    assert GameTree(c, m, p, q).children[0].state == p && GameTree(c, m', p', q').children[0].state == p';
    assert GameTree(c, m, p, q).children[1].state == q && GameTree(c, m', p', q').children[1].state == q';
  }

  lemma PongAfterDispatch(c: Cast, w: World, m: GameState, p: GameState, q: GameState,
                          m': GameState, p': GameState, q': GameState, t1: int, t2: int)
    requires Playing(c, w, m, p, q) && Head(w.signals).Some? && IsTerminal(q)
    requires Next(c, w, Dispatch(t1, t2)).Some? && Playing(c, Next(c, w, Dispatch(t1, t2)).value, m', p', q')
    ensures q' != q <==> q == PongDone && LearnsPingFailed(c, w, Dispatch(t1, t2), m)
  {
    var s, w0 := Head(w.signals).value, Rest(w);
    var w' := Next(c, w, Dispatch(t1, t2)).value;
    HeadOk(c, w, s);
    PlayerInputs(c, s);
    if s.id == c.ping {
      var p1 := PingKeeps(c, w, s, w0, m, p, q, t1, t2);
      SameTree(c, w', m, p1, q, m', p', q');
    } else if s.id == c.pong {
      PongIgnores(c, w, s, w0, m, p, q, t1, t2);
      SameTree(c, w', m, p, q, m', p', q');
    } else if IsTerminal(m) {
      MenuIgnores(c, w, s, w0, m, p, q, t1, t2);
      SameTree(c, w', m, p, q, m', p', q');
    } else if s.input.PingPongComplete? {
      MenuCompletes(c, w, s, w0, m, p, q, t1, t2);
      SameTree(c, w', MenuDone, p, q, m', p', q');
    } else {
      MenuFails(c, w, s, w0, m, p, q, t1, t2);
      SameTree(c, w', MenuFailed, PingFailed, PongFailed, m', p', q');
      assert Told(c, w.signals.back, s.input);
    }
  }

  /** So over any run: terminal states stay as they are, but for a done Pong in a game
      that fails. */
  lemma {:induction false} TerminalStays(c: Cast, w: World, events: seq<Event>, m: GameState, p: GameState,
                                         q: GameState)
    returns (m': GameState, p': GameState, q': GameState)
    requires Playing(c, w, m, p, q) && LegalRun(c, w, events)
    ensures Outcome(c, w, events).Some? && Playing(c, Outcome(c, w, events).value, m', p', q')
    ensures Onward(m, p, q, m', p', q')
    decreases |events|
  {
    m', p', q' := m, p, q;
    if events != [] {
      var m1, p1, q1 := PlayingStep(c, w, events[0], m, p, q);
      m', p', q' := TerminalStays(c, Next(c, w, events[0]).value, events[1..], m1, p1, q1);
    }
  }
}

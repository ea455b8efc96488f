/** Every step of the Menu/Ping/Pong system keeps the invariant and none panics. */
module PingPongSteps {
  import opened Base
  import opened StateTree
  import opened StreamQueue
  import opened Timers
  import opened Pipeline
  import opened PingPong
  import opened PingPongTree
  import opened PingPongSafety
  import SharedTrees

  // ---------------------------------------------------------------------------
  // What each handler makes of its input, in the one tree of a game

  ghost function With(c: Cast, w: World, m: GameState, p: GameState, q: GameState): (next: World) {
    w.(tree := Some(GameTree(c, m, p, q)))
  }

  lemma PlayerFacts(c: Cast, w: World, m: GameState, p: GameState, q: GameState)
    requires c.Valid() && w.tree == Some(GameTree(c, m, p, q))
    ensures Known(w, c.menu) && Known(w, c.ping) && Known(w, c.pong)
    ensures StateAt(w, c.menu) == m && StateAt(w, c.ping) == p && StateAt(w, c.pong) == q
    ensures ParentOf(w.tree.value, c.menu).None?
    ensures ParentOf(w.tree.value, c.ping) == Some(c.menu) && ParentOf(w.tree.value, c.pong) == Some(c.menu)
  {
    GameTreeShape(c, m, p, q);
    GameTreeStates(c, m, p, q);
  }

  lemma PingUpdate(c: Cast, w: World, m: GameState, p: GameState, q: GameState, s: GameState)
    requires c.Valid() && w.tree == Some(GameTree(c, m, p, q))
    ensures Known(w, c.ping) && Updated(w, c.ping, s) == With(c, w, m, s, q)
    ensures s == PingDone ==> UpdatedAndSignalled(w, c.ping, s) == Sent(With(c, w, m, s, q), c.menu, PingPongComplete)
    ensures s == PingFailed ==> UpdatedAndSignalled(w, c.ping, s) == Sent(With(c, w, m, s, q), c.menu, FailedPing)
  {
    PlayerFacts(c, w, m, p, q);
    GameTreeMapped(c, m, p, q, SetAt(c.ping, s));
  }

  lemma PongUpdate(c: Cast, w: World, m: GameState, p: GameState, q: GameState, s: GameState)
    requires c.Valid() && w.tree == Some(GameTree(c, m, p, q))
    ensures Known(w, c.pong) && Updated(w, c.pong, s) == With(c, w, m, p, s)
    ensures s == PongDone ==> UpdatedAndSignalled(w, c.pong, s) == With(c, w, m, p, s)
    ensures s == PongFailed ==> UpdatedAndSignalled(w, c.pong, s) == Sent(With(c, w, m, p, s), c.menu, FailedPong)
  {
    PlayerFacts(c, w, m, p, q);
    GameTreeMapped(c, m, p, q, SetAt(c.pong, s));
    assert w.signals.back + [] == w.signals.back;
  }

  lemma MenuUpdate(c: Cast, w: World, m: GameState, p: GameState, q: GameState)
    requires c.Valid() && w.tree == Some(GameTree(c, m, p, q))
    ensures Known(w, c.menu) && UpdatedAndSignalled(w, c.menu, MenuDone) == With(c, w, MenuDone, p, q)
  {
    PlayerFacts(c, w, m, p, q);
    GameTreeMapped(c, m, p, q, SetAt(c.menu, MenuDone));
    assert w.signals.back + [] == w.signals.back;
  }

  // ---------------------------------------------------------------------------
  // How the verdict moves on

  lemma VerdictKept(c: Cast, back: seq<Signal<Id, GameInput>>, s: Signal<Id, GameInput>,
                    now: seq<Signal<Id, GameInput>>,
                    tokens: nat, tokens': nat, failures: map<Id, GameInput>, m: GameState, p: GameState, q: GameState)
    requires Verdict(c, back, tokens, failures, m, p, q) && Moved(back, s, now, None)
    requires m != MenuReady || s.id != c.menu
    requires m == MenuReady ==> IsTerminal(p) || IsTerminal(q)
    requires m == MenuReady && IsFinal(s) ==> IsTerminal(p)
    ensures Verdict(c, now, tokens', failures, m, p, q)
  {
    if m == MenuReady && !IsTerminal(p) && FinalSent(back) {
      var x :| x in back && IsFinal(x);
      assert x in now && IsFinal(x);
    }
  }

  /** The packet moves on: both players stay in the game. */
  lemma VerdictPassed(c: Cast, back: seq<Signal<Id, GameInput>>, s: Signal<Id, GameInput>,
                      now: seq<Signal<Id, GameInput>>,
                      sent: Option<Signal<Id, GameInput>>, tokens: nat, failures: map<Id, GameInput>,
                      m: GameState, p: GameState, q: GameState, p': GameState, q': GameState)
    requires Verdict(c, back, tokens, failures, m, p, q) && Moved(back, s, now, sent)
    requires s.id != c.menu && !IsFinal(s) && TokenOf(s) == 1
    requires sent.Some? ==> sent.value.id != c.menu && !IsFinal(sent.value)
    requires m == MenuReady && (p == p' || (!IsTerminal(p) && p' == PingSending))
    requires q == q' || (!IsTerminal(q) && q' == PongResponding)
    requires KindOf(p) == Ping && KindOf(q) == Pong
    ensures Verdict(c, now, tokens, failures, m, p', q')
  {
    if FinalSent(back) {
      var x :| x in back && IsFinal(x);
      assert x in now && IsFinal(x);
    }
  }

  /** Pong is done and has sent the last packet. */
  lemma VerdictPongDone(c: Cast, back: seq<Signal<Id, GameInput>>, s: Signal<Id, GameInput>,
                        now: seq<Signal<Id, GameInput>>,
                        sent: Signal<Id, GameInput>, tokens: nat, tokens': nat, failures: map<Id, GameInput>,
                        m: GameState, p: GameState, q: GameState)
    requires Verdict(c, back, tokens, failures, m, p, q) && Moved(back, s, now, Some(sent))
    requires s.id != c.menu && IsFinal(sent) && sent.id != c.menu
    requires m == MenuReady && !IsTerminal(q) && KindOf(q) == Pong && KindOf(p) == Ping
    ensures Verdict(c, now, tokens', failures, m, p, PongDone)
  {
  }

  /** A player ends and has told the menu. */
  lemma VerdictToldPing(c: Cast, back: seq<Signal<Id, GameInput>>, s: Signal<Id, GameInput>,
                        now: seq<Signal<Id, GameInput>>,
                        input: GameInput, tokens: nat, tokens': nat, failures: map<Id, GameInput>,
                        m: GameState, p: GameState, q: GameState, p': GameState)
    requires Verdict(c, back, tokens, failures, m, p, q) && Moved(back, s, now, Some(Signal(c.menu, input)))
    requires s.id != c.menu && m == MenuReady && !IsTerminal(p)
    requires (p' == PingFailed && input == FailedPing)
          || (p' == PingDone && input == PingPongComplete && IsFinal(s) && s in back)
    ensures Verdict(c, now, tokens', failures, m, p', q)
  {
    if IsFinal(s) && s in back { assert FinalSent(back); }
  }

  lemma VerdictToldPong(c: Cast, back: seq<Signal<Id, GameInput>>, s: Signal<Id, GameInput>,
                        now: seq<Signal<Id, GameInput>>,
                        tokens: nat, tokens': nat, failures: map<Id, GameInput>,
                        m: GameState, p: GameState, q: GameState)
    requires Verdict(c, back, tokens, failures, m, p, q) && Moved(back, s, now, Some(Signal(c.menu, FailedPong)))
    requires s.id != c.menu && m == MenuReady && !IsTerminal(q) && KindOf(q) == Pong && KindOf(p) == Ping
    ensures Verdict(c, now, tokens', failures, m, p, PongFailed)
  {
  }

  // ---------------------------------------------------------------------------
  // Putting the invariant together

  /** The invariant after one acceptable signal more. */
  lemma SentPlaying(c: Cast, w: World, id: Id, input: GameInput, m: GameState, p: GameState, q: GameState)
    requires c.Valid() && w.tree == Some(GameTree(c, m, p, q))
    requires KindOf(m) == Menu && KindOf(p) == Ping && KindOf(q) == Pong
    requires Messages(c, w) && BackOk(c, Signal(id, input)) && Tokens(w) + TokenOf(Signal(id, input)) <= 1
    requires Verdict(c, w.signals.back + [Signal(id, input)], Tokens(w) + TokenOf(Signal(id, input)), w.failures, m,
                     p, q)
    requires TimersOff(c, w.pipe, m, p, q)
    ensures Playing(c, Sent(w, id, input), m, p, q)
  {
    SentFacts(c, w, id, input);
  }

  /** And after one acceptable request more. */
  lemma RequestedPlaying(c: Cast, w: World, id: Id, op: Operation<Packet>, m: GameState, p: GameState, q: GameState)
    requires c.Valid() && w.tree == Some(GameTree(c, m, p, q))
    requires KindOf(m) == Menu && KindOf(p) == Ping && KindOf(q) == Pong
    requires Messages(c, w) && RequestOk(c, Request(id, op)) && Tokens(w) + (if op.Retain? then 1 else 0) <= 1
    requires Verdict(c, w.signals.back, Tokens(w) + if op.Retain? then 1 else 0, w.failures, m, p, q)
    requires TimersOff(c, Requested(w, id, op).pipe, m, p, q)
    ensures Playing(c, Requested(w, id, op), m, p, q)
  {
    RequestedFacts(c, w, id, op);
  }

  lemma Undecided(c: Cast, w: World, m: GameState, p: GameState, q: GameState)
    requires Playing(c, w, m, p, q) && (!IsTerminal(m) || !IsTerminal(p) || !IsTerminal(q))
    ensures m == MenuReady
  {
  }

  // ---------------------------------------------------------------------------
  // Ping

  /** `s` is the signal about to be dispatched, `w0` the system without it. */
  ghost predicate Dispatching(c: Cast, w: World, s: Signal<Id, GameInput>, w0: World, m: GameState, p: GameState,
                              q: GameState)
  {
    Playing(c, w, m, p, q) && Head(w.signals) == Some(s) && w0 == Rest(w)
  }

  /** The same system with the signal taken and the states moved on. */
  lemma TakenWith(c: Cast, w: World, s: Signal<Id, GameInput>, w0: World, m: GameState, p: GameState, q: GameState)
    requires Messages(c, w) && Head(w.signals) == Some(s) && w0 == Rest(w)
    ensures var w1 := With(c, w0, m, p, q);
            && Messages(c, w1) && Tokens(w1) + TokenOf(s) == Tokens(w)
            && Moved(w.signals.back, s, w1.signals.back, None)
  {
    Taken(c, w);
    assert Tokens(With(c, w0, m, p, q)) == Tokens(w0);
  }

  lemma HeadOk(c: Cast, w: World, s: Signal<Id, GameInput>)
    requires Messages(c, w) && Head(w.signals) == Some(s)
    ensures FrontOk(c, s) || (BackOk(c, s) && s in w.signals.back)
  {
    Taken(c, w);
  }

  lemma PingIgnores(c: Cast, w: World, s: Signal<Id, GameInput>, w0: World, m: GameState, p: GameState, q: GameState,
                    t1: int, t2: int)
    requires Dispatching(c, w, s, w0, m, p, q) && s.id == c.ping && IsTerminal(p)
    ensures Processed(c, w0, s, t1, t2) == Some(w0) && Playing(c, w0, m, p, q)
  {
    Taken(c, w);
    PlayerFacts(c, w0, m, p, q);
    VerdictKept(c, w.signals.back, s, w0.signals.back, Tokens(w), Tokens(w0), w.failures, m, p, q);
  }

  /** Ping's three ways out of an undecided state that are not an answer. */
  lemma PingEnds(c: Cast, w0: World, s: Signal<Id, GameInput>, m: GameState, p: GameState, q: GameState, t1: int,
                 t2: int)
    requires c.Valid() && w0.tree == Some(GameTree(c, m, p, q)) && s.id == c.ping && !IsTerminal(p)
    ensures s.input.StartSending? ==>
              Processed(c, w0, s, t1, t2)
              == Some(Sent(With(c, w0, m, PingSending, q), s.input.pong, PongPacket(Packet(0, c.ping, s.input.who))))
    ensures IsFinal(s) ==>
              Processed(c, w0, s, t1, t2)
              == Some(Requested(Sent(With(c, w0, m, PingDone, q), c.menu, PingPongComplete), c.ping, Cancel))
    ensures s.input.PingTimeout? ==>
              Processed(c, w0, s, t1, t2) == Some(Sent(With(c, w0, m, PingFailed, q), c.menu, FailedPing))
  {
    PlayerFacts(c, w0, m, p, q);
    PingUpdate(c, w0, m, p, q, PingSending);
    PingUpdate(c, w0, m, p, q, PingDone);
    PingUpdate(c, w0, m, p, q, PingFailed);
  }

  lemma PingStarts(c: Cast, w: World, s: Signal<Id, GameInput>, w0: World, m: GameState, p: GameState, q: GameState,
                   t1: int, t2: int)
    requires Dispatching(c, w, s, w0, m, p, q) && s.id == c.ping && !IsTerminal(p) && s.input.StartSending?
    ensures Processed(c, w0, s, t1, t2).Some? && Playing(c, Processed(c, w0, s, t1, t2).value, m, PingSending, q)
  {
    assert s.input.pong == c.pong by { Taken(c, w); }
    PingEnds(c, w0, s, m, p, q, t1, t2);
    FirstSent(c, w, s, w0, m, p, q, PongPacket(Packet(0, c.ping, s.input.who)));
  }

  lemma FirstSent(c: Cast, w: World, s: Signal<Id, GameInput>, w0: World, m: GameState, p: GameState, q: GameState,
                  first: GameInput)
    requires Dispatching(c, w, s, w0, m, p, q) && s.id == c.ping && !IsTerminal(p) && s.input.StartSending?
    requires BackOk(c, Signal(c.pong, first)) && TokenOf(Signal(c.pong, first)) == 1
    ensures Playing(c, Sent(With(c, w0, m, PingSending, q), c.pong, first), m, PingSending, q)
  {
    TakenWith(c, w, s, w0, m, PingSending, q);
    Undecided(c, w, m, p, q);
    var w1 := With(c, w0, m, PingSending, q);
    PacketSent(c, w.signals.back, s, w1, m, p, q, c.pong, first, PingSending, q);
  }

  lemma PingCompletes(c: Cast, w: World, s: Signal<Id, GameInput>, w0: World, m: GameState, p: GameState,
                      q: GameState, t1: int, t2: int)
    requires Dispatching(c, w, s, w0, m, p, q) && s.id == c.ping && !IsTerminal(p) && IsFinal(s)
    ensures Processed(c, w0, s, t1, t2).Some? && Playing(c, Processed(c, w0, s, t1, t2).value, m, PingDone, q)
  {
    HeadOk(c, w, s);
    TakenWith(c, w, s, w0, m, PingDone, q);
    Undecided(c, w, m, p, q);
    PingEnds(c, w0, s, m, p, q, t1, t2);
    var w1 := With(c, w0, m, PingDone, q);
    PingGone(c, w.signals.back, s, w1, m, p, q, Tokens(w));
  }

  /** Ping tells the menu and cancels its timer. */
  lemma PingGone(c: Cast, back: seq<Signal<Id, GameInput>>, s: Signal<Id, GameInput>, w0: World,
                 m: GameState, p: GameState, q: GameState, tokens: nat)
    requires c.Valid() && s.id == c.ping && IsFinal(s) && s in back && !IsTerminal(p) && m == MenuReady
    requires KindOf(p) == Ping && KindOf(q) == Pong
    requires Verdict(c, back, tokens, w0.failures, m, p, q) && Moved(back, s, w0.signals.back, None)
    requires w0.tree == Some(GameTree(c, m, PingDone, q)) && Messages(c, w0) && Tokens(w0) <= 1
    requires TimersOff(c, w0.pipe, m, p, q)
    ensures Playing(c, Requested(Sent(w0, c.menu, PingPongComplete), c.ping, Cancel), m, PingDone, q)
  {
    var w1 := Sent(w0, c.menu, PingPongComplete);
    SentFacts(c, w0, c.menu, PingPongComplete);
    SentMoved(back, s, w0, c.menu, PingPongComplete);
    VerdictToldPing(c, back, s, w1.signals.back, PingPongComplete, tokens, Tokens(w1), w1.failures, m, p, q, PingDone);
    RequestedExpected(w1, c.ping, Cancel, c.ping);
    RequestedExpected(w1, c.ping, Cancel, c.pong);
    RequestedPlaying(c, w1, c.ping, Cancel, m, PingDone, q);
  }

  lemma PingOut(c: Cast, w: World, s: Signal<Id, GameInput>, w0: World, m: GameState, p: GameState, q: GameState)
    requires Dispatching(c, w, s, w0, m, p, q) && s.id == c.ping && !IsTerminal(p)
    ensures Playing(c, Sent(With(c, w0, m, PingFailed, q), c.menu, FailedPing), m, PingFailed, q)
  {
    HeadOk(c, w, s);
    TakenWith(c, w, s, w0, m, PingFailed, q);
    Undecided(c, w, m, p, q);
    var w1 := With(c, w0, m, PingFailed, q);
    SentMoved(w.signals.back, s, w1, c.menu, FailedPing);
    VerdictToldPing(c, w.signals.back, s, Sent(w1, c.menu, FailedPing).signals.back, FailedPing,
                    Tokens(w), Tokens(w1), w.failures, m, p, q, PingFailed);
    SentPlaying(c, w1, c.menu, FailedPing, m, PingFailed, q);
  }

  lemma PingFails(c: Cast, w: World, s: Signal<Id, GameInput>, w0: World, m: GameState, p: GameState, q: GameState,
                  t1: int, t2: int)
    requires Dispatching(c, w, s, w0, m, p, q) && s.id == c.ping && !IsTerminal(p) && s.input.PingTimeout?
    ensures Processed(c, w0, s, t1, t2).Some? && Playing(c, Processed(c, w0, s, t1, t2).value, m, PingFailed, q)
  {
    PingEnds(c, w0, s, m, p, q, t1, t2);
    PingOut(c, w, s, w0, m, p, q);
  }

  /** An undecided player `own` takes the packet out of `s`. */
  ghost predicate Holding(c: Cast, w: World, s: Signal<Id, GameInput>, w0: World, m: GameState, p: GameState,
                          q: GameState,
                          own: Id, q': GameState)
  {
    && Dispatching(c, w, s, w0, m, p, q) && m == MenuReady
    && s.id == own && !IsFinal(s) && TokenOf(s) == 1
    && ((own == c.ping && !IsTerminal(p)) || (own == c.pong && !IsTerminal(q)))
    && (q == q' || (!IsTerminal(q) && q' == PongResponding))
  }

  ghost function Timed(c: Cast, w0: World, m: GameState, p: GameState, q: GameState, own: Id, at: int): (next: World) {
    Requested(With(c, w0, m, p, q), own, Set(at))
  }

  /** It sets its timer. */
  lemma TimedFacts(c: Cast, w: World, s: Signal<Id, GameInput>, w0: World, m: GameState, p: GameState, q: GameState,
                   own: Id, at: int, q': GameState)
    requires Holding(c, w, s, w0, m, p, q, own, q')
    ensures var timed := Timed(c, w0, m, p, q', own, at);
            && Messages(c, timed) && Tokens(timed) == 0 && Tokens(w) == 1
            && TimersOff(c, timed.pipe, m, p, q')
            && Moved(w.signals.back, s, timed.signals.back, None)
  {
    TakenWith(c, w, s, w0, m, p, q');
    var w1 := With(c, w0, m, p, q');
    RequestedFacts(c, w1, own, Set(at));
    RequestedExpected(w1, own, Set(at), c.ping);
    RequestedExpected(w1, own, Set(at), c.pong);
  }

  /** And keeps the packet for a while. */
  lemma AnsweredLater(c: Cast, w: World, s: Signal<Id, GameInput>, w0: World, m: GameState, p: GameState, q: GameState,
                      own: Id, at: int, keep: Operation<Packet>, q': GameState)
    requires Holding(c, w, s, w0, m, p, q, own, q')
    requires keep.Retain? && RequestOk(c, Request(own, keep))
    ensures Playing(c, Requested(Timed(c, w0, m, p, q', own, at), own, keep), m, p, q')
  {
    TimedFacts(c, w, s, w0, m, p, q, own, at, q');
    PacketKept(c, w.signals.back, s, Timed(c, w0, m, p, q', own, at), m, p, q, own, keep, q');
  }

  lemma PacketKept(c: Cast, back: seq<Signal<Id, GameInput>>, s: Signal<Id, GameInput>, timed: World,
                   m: GameState, p: GameState, q: GameState, own: Id, keep: Operation<Packet>, q': GameState)
    requires c.Valid() && s.id != c.menu && !IsFinal(s) && TokenOf(s) == 1
    requires Verdict(c, back, 1, timed.failures, m, p, q) && Moved(back, s, timed.signals.back, None)
    requires m == MenuReady && KindOf(p) == Ping && KindOf(q) == Pong
        && (q == q' || (!IsTerminal(q) && q' == PongResponding))
    requires timed.tree == Some(GameTree(c, m, p, q')) && Messages(c, timed) && Tokens(timed) == 0
    requires TimersOff(c, timed.pipe, m, p, q') && keep.Retain? && RequestOk(c, Request(own, keep))
    ensures Playing(c, Requested(timed, own, keep), m, p, q')
  {
    VerdictPassed(c, back, s, timed.signals.back, None, 1, timed.failures, m, p, q, p, q');
    HeldFacts(c, timed, own, keep, m, p, q');
    RequestedPlaying(c, timed, own, keep, m, p, q');
  }

  lemma HeldFacts(c: Cast, timed: World, own: Id, keep: Operation<Packet>, m: GameState, p: GameState, q: GameState)
    requires Messages(c, timed) && keep.Retain? && RequestOk(c, Request(own, keep)) && TimersOff(c, timed.pipe, m, p, q)
    ensures var w1 := Requested(timed, own, keep);
            Messages(c, w1) && Tokens(w1) == Tokens(timed) + 1 && TimersOff(c, w1.pipe, m, p, q)
  {
    RequestedFacts(c, timed, own, keep);
    RequestedExpected(timed, own, keep, c.ping);
    RequestedExpected(timed, own, keep, c.pong);
  }

  /** Or sends the packet to the other one. */
  lemma AnsweredNow(c: Cast, w: World, s: Signal<Id, GameInput>, w0: World, m: GameState, p: GameState, q: GameState,
                    own: Id, other: Id, input: GameInput, at: int, q': GameState)
    requires Holding(c, w, s, w0, m, p, q, own, q')
    requires other == c.ping || other == c.pong
    requires BackOk(c, Signal(other, input)) && !IsFinal(Signal(other, input)) && TokenOf(Signal(other, input)) == 1
    ensures Playing(c, Sent(Timed(c, w0, m, p, q', own, at), other, input), m, p, q')
  {
    TimedFacts(c, w, s, w0, m, p, q, own, at, q');
    PacketSent(c, w.signals.back, s, Timed(c, w0, m, p, q', own, at), m, p, q, other, input, p, q');
  }

  lemma PacketSent(c: Cast, back: seq<Signal<Id, GameInput>>, s: Signal<Id, GameInput>, w0: World,
                   m: GameState, p: GameState, q: GameState, other: Id, input: GameInput, p': GameState, q': GameState)
    requires c.Valid() && s.id != c.menu && !IsFinal(s) && TokenOf(s) == 1
    requires Verdict(c, back, 1, w0.failures, m, p, q) && Moved(back, s, w0.signals.back, None)
    requires m == MenuReady && KindOf(p) == Ping && KindOf(q) == Pong
    requires p == p' || (!IsTerminal(p) && p' == PingSending)
    requires q == q' || (!IsTerminal(q) && q' == PongResponding)
    requires w0.tree == Some(GameTree(c, m, p', q')) && Messages(c, w0) && Tokens(w0) == 0
    requires TimersOff(c, w0.pipe, m, p', q') && (other == c.ping || other == c.pong)
    requires BackOk(c, Signal(other, input)) && !IsFinal(Signal(other, input)) && TokenOf(Signal(other, input)) == 1
    ensures Playing(c, Sent(w0, other, input), m, p', q')
  {
    SentMoved(back, s, w0, other, input);
    VerdictPassed(c, back, s, Sent(w0, other, input).signals.back, Some(Signal(other, input)),
                  1, w0.failures, m, p, q, p', q');
    SentPlaying(c, w0, other, input, m, p', q');
  }

  ghost function PingHolds(s: Signal<Id, GameInput>, packet: Packet, t2: int): (r: Option<Operation<Packet>>) {
    if s.input.PingPacket? && packet.whoHolds
        == Some(Ping) then Some(Retain(packet, t2 + packet.msg * MILLIS)) else None
  }

  ghost function PingReplied(c: Cast, timed: World, s: Signal<Id, GameInput>, packet: Packet, t2: int): (next: World) {
    if PingHolds(s, packet, t2).Some? then Requested(timed, c.ping, PingHolds(s, packet, t2).value)
    else Sent(timed, c.pong, PongPacket(packet.(sender := c.ping)))
  }

  lemma PingOutcome(c: Cast, w0: World, s: Signal<Id, GameInput>, m: GameState, p: GameState, q: GameState, t1: int,
                    t2: int,
                    packet: Packet)
    requires c.Valid() && w0.tree == Some(GameTree(c, m, p, q)) && s.id == c.ping && !IsTerminal(p)
    requires s.input.PingReturned? || (s.input.PingPacket? && !IsFinal(s))
    requires packet == if s.input.PingReturned? then s.input.held else s.input.packet.(msg := s.input.packet.msg + 5)
    requires packet.sender == c.pong
    ensures var timed := Timed(c, w0, m, p, q, c.ping, t1 + TEST_TIMEOUT);
            Processed(c, w0, s, t1, t2) == Some(PingReplied(c, timed, s, packet, t2))
  {
    PlayerFacts(c, w0, m, p, q);
  }

  ghost function PingCounted(s: Signal<Id, GameInput>): (packet: Packet)
    requires s.input.PingReturned? || s.input.PingPacket?
  {
    if s.input.PingReturned? then s.input.held else s.input.packet.(msg := s.input.packet.msg + 5)
  }

  lemma PingCountedFacts(c: Cast, s: Signal<Id, GameInput>)
    requires c.Valid() && s.id == c.ping && (FrontOk(c, s) || BackOk(c, s))
    requires s.input.PingReturned? || (s.input.PingPacket? && !IsFinal(s))
    ensures var packet := PingCounted(s);
            && packet.sender == c.pong && HeldFor(c, (c.ping, packet)) && !IsFinal(s) && TokenOf(s) == 1
            && BackOk(c, Signal(c.pong, PongPacket(packet.(sender := c.ping))))
  {
  }

  lemma PingAnswers(c: Cast, w: World, s: Signal<Id, GameInput>, w0: World, m: GameState, p: GameState, q: GameState,
                    t1: int, t2: int)
    requires Dispatching(c, w, s, w0, m, p, q) && s.id == c.ping && !IsTerminal(p) && !IsFinal(s)
    requires s.input.PingPacket? || s.input.PingReturned?
    ensures Processed(c, w0, s, t1, t2).Some? && Playing(c, Processed(c, w0, s, t1, t2).value, m, p, q)
  {
    var packet := PingCounted(s);
    HeadOk(c, w, s);
    PingCountedFacts(c, s);
    PingOutcome(c, w0, s, m, p, q, t1, t2, packet);
    assert m == MenuReady by { Undecided(c, w, m, p, q); }
    PingAnswered(c, w, s, w0, m, p, q, t1 + TEST_TIMEOUT, t2, packet);
  }

  lemma PingAnswered(c: Cast, w: World, s: Signal<Id, GameInput>, w0: World, m: GameState, p: GameState, q: GameState,
                     at: int, t2: int, packet: Packet)
    requires Holding(c, w, s, w0, m, p, q, c.ping, q) && HeldFor(c, (c.ping, packet))
    requires BackOk(c, Signal(c.pong, PongPacket(packet.(sender := c.ping))))
    ensures Playing(c, PingReplied(c, Timed(c, w0, m, p, q, c.ping, at), s, packet, t2), m, p, q)
  {
    if PingHolds(s, packet, t2).Some? {
      AnsweredLater(c, w, s, w0, m, p, q, c.ping, at, PingHolds(s, packet, t2).value, q);
    } else {
      AnsweredNow(c, w, s, w0, m, p, q, c.ping, c.pong, PongPacket(packet.(sender := c.ping)), at, q);
    }
  }

  // ---------------------------------------------------------------------------
  // Pong

  lemma PongIgnores(c: Cast, w: World, s: Signal<Id, GameInput>, w0: World, m: GameState, p: GameState, q: GameState,
                    t1: int, t2: int)
    requires Dispatching(c, w, s, w0, m, p, q) && s.id == c.pong && IsTerminal(q)
    ensures Processed(c, w0, s, t1, t2) == Some(w0) && Playing(c, w0, m, p, q)
  {
    Taken(c, w);
    PlayerFacts(c, w0, m, p, q);
    VerdictKept(c, w.signals.back, s, w0.signals.back, Tokens(w), Tokens(w0), w.failures, m, p, q);
  }

  /** Pong's two ways out of an undecided state. */
  lemma PongEnds(c: Cast, w0: World, s: Signal<Id, GameInput>, m: GameState, p: GameState, q: GameState, t1: int,
                 t2: int)
    requires c.Valid() && w0.tree == Some(GameTree(c, m, p, q)) && s.id == c.pong && !IsTerminal(q)
    ensures s.input.PongPacket? && s.input.packet.msg >= 20 ==>
              Processed(c, w0, s, t1, t2)
              == Some(Sent(Requested(With(c, w0, m, p, PongDone), c.pong, Cancel),
                           s.input.packet.sender, LastPacket(c.pong, s.input.packet)))
    ensures s.input.PongTimeout? ==>
              Processed(c, w0, s, t1, t2) == Some(Sent(With(c, w0, m, p, PongFailed), c.menu, FailedPong))
  {
    PlayerFacts(c, w0, m, p, q);
    PongUpdate(c, w0, m, p, q, PongDone);
    PongUpdate(c, w0, m, p, q, PongFailed);
  }

  ghost function PongGone(c: Cast, w0: World, m: GameState, p: GameState): (next: World) {
    Requested(With(c, w0, m, p, PongDone), c.pong, Cancel)
  }

  /** Pong is done, its timer cancelled, and the packet is out of the queue. */
  lemma PongGoneFacts(c: Cast, w: World, s: Signal<Id, GameInput>, w0: World, m: GameState, p: GameState, q: GameState)
    requires Dispatching(c, w, s, w0, m, p, q) && s.id == c.pong && !IsTerminal(q)
    requires s.input.PongPacket? && s.input.packet.msg >= 20
    ensures var gone := PongGone(c, w0, m, p);
            && m == MenuReady && Messages(c, gone) && Tokens(gone) == 0 && Tokens(w) == 1
            && TimersOff(c, gone.pipe, m, p, PongDone)
            && Moved(w.signals.back, s, gone.signals.back, None)
            && Arrives(c, c.pong, s.input.packet)
  {
    HeadOk(c, w, s);
    TakenWith(c, w, s, w0, m, p, PongDone);
    var w1 := With(c, w0, m, p, PongDone);
    RequestedFacts(c, w1, c.pong, Cancel);
    RequestedExpected(w1, c.pong, Cancel, c.ping);
    RequestedExpected(w1, c.pong, Cancel, c.pong);
  }

  lemma PongCompletes(c: Cast, w: World, s: Signal<Id, GameInput>, w0: World, m: GameState, p: GameState,
                      q: GameState, t1: int, t2: int)
    requires Dispatching(c, w, s, w0, m, p, q) && s.id == c.pong && !IsTerminal(q)
    requires s.input.PongPacket? && s.input.packet.msg >= 20
    ensures Processed(c, w0, s, t1, t2).Some? && Playing(c, Processed(c, w0, s, t1, t2).value, m, p, PongDone)
  {
    var gone, last := PongGone(c, w0, m, p), LastPacket(c.pong, s.input.packet);
    PongGoneFacts(c, w, s, w0, m, p, q);
    PongEnds(c, w0, s, m, p, q, t1, t2);
    LastSent(c, w.signals.back, s, m, p, q, gone, last);
  }

  lemma LastSent(c: Cast, back: seq<Signal<Id, GameInput>>, s: Signal<Id, GameInput>, m: GameState, p: GameState,
                 q: GameState,
                 gone: World, last: GameInput)
    requires c.Valid() && s.id == c.pong && Verdict(c, back, 1, gone.failures, m, p, q)
    requires m == MenuReady && !IsTerminal(q) && KindOf(p) == Ping && KindOf(q) == Pong
    requires Messages(c, gone) && Tokens(gone) == 0
    requires TimersOff(c, gone.pipe, m, p, PongDone) && Moved(back, s, gone.signals.back, None)
    requires gone.tree == Some(GameTree(c, m, p, PongDone))
    requires BackOk(c, Signal(c.ping, last)) && IsFinal(Signal(c.ping, last))
    ensures Playing(c, Sent(gone, c.ping, last), m, p, PongDone)
  {
    SentMoved(back, s, gone, c.ping, last);
    VerdictPongDone(c, back, s, Sent(gone, c.ping, last).signals.back, Signal(c.ping, last), 1, 1, gone.failures, m,
                    p, q);
    SentPlaying(c, gone, c.ping, last, m, p, PongDone);
  }

  ghost function PongHolds(s: Signal<Id, GameInput>, packet: Packet, t2: int): (r: Option<Operation<Packet>>) {
    if s.input.PongPacket? && packet.whoHolds
        == Some(Pong) then Some(Retain(packet, t2 + packet.msg * MILLIS)) else None
  }

  ghost function PongReplied(c: Cast, timed: World, s: Signal<Id, GameInput>, packet: Packet, t2: int): (next: World) {
    if PongHolds(s, packet, t2).Some? then Requested(timed, c.pong, PongHolds(s, packet, t2).value)
    else Sent(timed, c.ping, PingPacket(packet.(sender := c.pong)))
  }

  lemma PongOutcome(c: Cast, w0: World, s: Signal<Id, GameInput>, m: GameState, p: GameState, q: GameState, t1: int,
                    t2: int,
                    packet: Packet, q': GameState)
    requires c.Valid() && w0.tree == Some(GameTree(c, m, p, q)) && s.id == c.pong && !IsTerminal(q)
    requires s.input.PongReturned? || (s.input.PongPacket? && s.input.packet.msg < 20)
    requires packet == if s.input.PongReturned? then s.input.held else s.input.packet.(msg := s.input.packet.msg + 5)
    requires packet.sender == c.ping
    requires q' == if s.input.PongPacket? && s.input.packet.msg == 0 then PongResponding else q
    ensures var timed := Timed(c, w0, m, p, q', c.pong, t1 + TEST_TIMEOUT);
            Processed(c, w0, s, t1, t2) == Some(PongReplied(c, timed, s, packet, t2))
  {
    PlayerFacts(c, w0, m, p, q);
    PongUpdate(c, Requested(w0, c.pong, Set(t1 + TEST_TIMEOUT)), m, p, q, PongResponding);
    assert w0 == With(c, w0, m, p, q);
  }

  ghost function PongCounted(s: Signal<Id, GameInput>): (packet: Packet)
    requires s.input.PongReturned? || s.input.PongPacket?
  {
    if s.input.PongReturned? then s.input.held else s.input.packet.(msg := s.input.packet.msg + 5)
  }

  ghost function PongMoved(s: Signal<Id, GameInput>, q: GameState): (state: GameState) {
    if s.input.PongPacket? && s.input.packet.msg == 0 then PongResponding else q
  }

  lemma PongCountedFacts(c: Cast, s: Signal<Id, GameInput>)
    requires c.Valid() && s.id == c.pong && (FrontOk(c, s) || BackOk(c, s))
    requires s.input.PongReturned? || (s.input.PongPacket? && s.input.packet.msg < 20)
    ensures var packet := PongCounted(s);
            && packet.sender == c.ping && HeldFor(c, (c.pong, packet)) && !IsFinal(s) && TokenOf(s) == 1
            && var out := Signal(c.ping, PingPacket(packet.(sender := c.pong)));
            && BackOk(c, out) && !IsFinal(out) && TokenOf(out) == 1
  {
  }

  lemma PongAnswers(c: Cast, w: World, s: Signal<Id, GameInput>, w0: World, m: GameState, p: GameState, q: GameState,
                    t1: int, t2: int)
    returns (q': GameState)
    requires Dispatching(c, w, s, w0, m, p, q) && s.id == c.pong && !IsTerminal(q)
    requires s.input.PongReturned? || (s.input.PongPacket? && s.input.packet.msg < 20)
    ensures Processed(c, w0, s, t1, t2).Some? && Playing(c, Processed(c, w0, s, t1, t2).value, m, p, q')
    ensures q' == PongMoved(s, q) && !IsTerminal(q')
  {
    q' := PongMoved(s, q);
    HeadOk(c, w, s);
    PongCountedFacts(c, s);
    PongOutcome(c, w0, s, m, p, q, t1, t2, PongCounted(s), q');
    PongTook(c, w, s, w0, m, p, q);
    PongAnswered(c, w, s, w0, m, p, q, t1 + TEST_TIMEOUT, t2, PongCounted(s), q');
  }

  lemma PongTook(c: Cast, w: World, s: Signal<Id, GameInput>, w0: World, m: GameState, p: GameState, q: GameState)
    requires Dispatching(c, w, s, w0, m, p, q) && s.id == c.pong && !IsTerminal(q) && !IsFinal(s) && TokenOf(s) == 1
    ensures Holding(c, w, s, w0, m, p, q, c.pong, PongMoved(s, q))
  {
    Undecided(c, w, m, p, q);
  }

  lemma PongAnswered(c: Cast, w: World, s: Signal<Id, GameInput>, w0: World, m: GameState, p: GameState, q: GameState,
                     at: int, t2: int, packet: Packet, q': GameState)
    requires Holding(c, w, s, w0, m, p, q, c.pong, q') && HeldFor(c, (c.pong, packet))
    requires BackOk(c, Signal(c.ping, PingPacket(packet.(sender := c.pong)))) && packet.msg < 20
    ensures Playing(c, PongReplied(c, Timed(c, w0, m, p, q', c.pong, at), s, packet, t2), m, p, q')
  {
    if PongHolds(s, packet, t2).Some? {
      AnsweredLater(c, w, s, w0, m, p, q, c.pong, at, PongHolds(s, packet, t2).value, q');
    } else {
      AnsweredNow(c, w, s, w0, m, p, q, c.pong, c.ping, PingPacket(packet.(sender := c.pong)), at, q');
    }
  }

  lemma PongOut(c: Cast, w: World, s: Signal<Id, GameInput>, w0: World, m: GameState, p: GameState, q: GameState)
    requires Dispatching(c, w, s, w0, m, p, q) && s.id == c.pong && !IsTerminal(q)
    ensures Playing(c, Sent(With(c, w0, m, p, PongFailed), c.menu, FailedPong), m, p, PongFailed)
  {
    HeadOk(c, w, s);
    TakenWith(c, w, s, w0, m, p, PongFailed);
    Undecided(c, w, m, p, q);
    var w1 := With(c, w0, m, p, PongFailed);
    SentMoved(w.signals.back, s, w1, c.menu, FailedPong);
    VerdictToldPong(c, w.signals.back, s, Sent(w1, c.menu, FailedPong).signals.back,
                    Tokens(w), Tokens(w1), w.failures, m, p, q);
    SentPlaying(c, w1, c.menu, FailedPong, m, p, PongFailed);
  }

  lemma PongFails(c: Cast, w: World, s: Signal<Id, GameInput>, w0: World, m: GameState, p: GameState, q: GameState,
                  t1: int, t2: int)
    requires Dispatching(c, w, s, w0, m, p, q) && s.id == c.pong && !IsTerminal(q) && s.input.PongTimeout?
    ensures Processed(c, w0, s, t1, t2).Some? && Playing(c, Processed(c, w0, s, t1, t2).value, m, p, PongFailed)
  {
    PongEnds(c, w0, s, m, p, q, t1, t2);
    PongOut(c, w, s, w0, m, p, q);
  }

  // ---------------------------------------------------------------------------
  // Menu

  lemma MenuIgnores(c: Cast, w: World, s: Signal<Id, GameInput>, w0: World, m: GameState, p: GameState, q: GameState,
                    t1: int, t2: int)
    requires Dispatching(c, w, s, w0, m, p, q) && s.id == c.menu && IsTerminal(m)
    ensures Processed(c, w0, s, t1, t2) == Some(w0) && Playing(c, w0, m, p, q)
  {
    Taken(c, w);
    PlayerFacts(c, w0, m, p, q);
  }

  lemma MenuCompletes(c: Cast, w: World, s: Signal<Id, GameInput>, w0: World, m: GameState, p: GameState,
                      q: GameState, t1: int, t2: int)
    requires Dispatching(c, w, s, w0, m, p, q) && s.id == c.menu && !IsTerminal(m) && s.input.PingPongComplete?
    ensures Processed(c, w0, s, t1, t2).Some? && Playing(c, Processed(c, w0, s, t1, t2).value, MenuDone, p, q)
  {
    Taken(c, w);
    PlayerFacts(c, w0, m, p, q);
    MenuUpdate(c, w0, m, p, q);
    assert Processed(c, w0, s, t1, t2) == Some(With(c, w0, MenuDone, p, q));
    assert Told(c, w.signals.back, PingPongComplete);
  }

  ghost function CancelledThree(c: Cast, w: World): (next: World) {
    Requested(Requested(Requested(w, c.ping, Cancel), c.pong, Cancel), c.menu, Cancel)
  }

  lemma CancelledThreeLane(c: Cast, w: World)
    ensures CancelledThree(c, w) == w.(pipe := w.pipe.(lane := w.pipe.lane + Cancels([c.ping, c.pong, c.menu])))
  {
    assert CancelledThree(c, w).pipe.lane == w.pipe.lane + Cancels([c.ping, c.pong, c.menu]);
  }

  lemma CancelledThreeMessages(c: Cast, w: World)
    requires Messages(c, w)
    ensures Messages(c, CancelledThree(c, w)) && Tokens(CancelledThree(c, w)) == Tokens(w)
  {
    var a := Requested(w, c.ping, Cancel);
    RequestedFacts(c, w, c.ping, Cancel);
    RequestedFacts(c, a, c.pong, Cancel);
    RequestedFacts(c, Requested(a, c.pong, Cancel), c.menu, Cancel);
  }

  /** The failure handler's cancels reach every player. */
  lemma CancelledThreeTimers(c: Cast, w: World)
    requires c.Valid()
    ensures !Expected(CancelledThree(c, w).pipe, c.ping) && !Expected(CancelledThree(c, w).pipe, c.pong)
  {
    var a := Requested(w, c.ping, Cancel);
    var b := Requested(a, c.pong, Cancel);
    RequestedExpected(w, c.ping, Cancel, c.ping);
    RequestedExpected(a, c.pong, Cancel, c.ping);
    RequestedExpected(a, c.pong, Cancel, c.pong);
    RequestedExpected(b, c.menu, Cancel, c.ping);
    RequestedExpected(b, c.menu, Cancel, c.pong);
  }

  ghost function FailedWorld(c: Cast, w0: World, input: GameInput): (next: World) {
    With(c, CancelledThree(c, w0), MenuFailed, PingFailed, PongFailed).(failures := w0.failures[c.menu := input])
  }

  lemma FailOutcome(c: Cast, w0: World, s: Signal<Id, GameInput>, m: GameState, p: GameState, q: GameState, t1: int,
                    t2: int)
    requires c.Valid() && w0.tree == Some(GameTree(c, m, p, q)) && s.id == c.menu && !IsTerminal(m)
    requires KindOf(m) == Menu && KindOf(p) == Ping && KindOf(q) == Pong
    requires s.input.FailedPing? || s.input.FailedPong?
    ensures Processed(c, w0, s, t1, t2) == Some(FailedWorld(c, w0, s.input))
  {
    PlayerFacts(c, w0, m, p, q);
    GameTreeShape(c, m, p, q);
    GameTreeMapped(c, m, p, q, SharedTrees.Everywhere(Fail));
    CancelledThreeLane(c, w0);
    assert AllFailed(w0, c.menu, s.input) == FailedWorld(c, w0, s.input);
  }

  lemma MenuFails(c: Cast, w: World, s: Signal<Id, GameInput>, w0: World, m: GameState, p: GameState, q: GameState,
                  t1: int, t2: int)
    requires Dispatching(c, w, s, w0, m, p, q) && s.id == c.menu && !IsTerminal(m)
    requires s.input.FailedPing? || s.input.FailedPong?
    ensures Processed(c, w0, s, t1, t2).Some?
    ensures Playing(c, Processed(c, w0, s, t1, t2).value, MenuFailed, PingFailed, PongFailed)
  {
    FailOutcome(c, w0, s, m, p, q, t1, t2);
    FailedPlaying(c, w, s, w0, m, p, q);
  }

  lemma FailedPlaying(c: Cast, w: World, s: Signal<Id, GameInput>, w0: World, m: GameState, p: GameState, q: GameState)
    requires Dispatching(c, w, s, w0, m, p, q)
    ensures Playing(c, FailedWorld(c, w0, s.input), MenuFailed, PingFailed, PongFailed)
  {
    FailedMessages(c, w, s, w0);
    FailedTimers(c, w0, s.input);
    var w1 := FailedWorld(c, w0, s.input);
    assert Verdict(c, w1.signals.back, Tokens(w1), w1.failures, MenuFailed, PingFailed, PongFailed);
  }

  lemma FailedMessages(c: Cast, w: World, s: Signal<Id, GameInput>, w0: World)
    requires Messages(c, w) && Head(w.signals) == Some(s) && w0 == Rest(w)
    ensures var w1 := FailedWorld(c, w0, s.input); Messages(c, w1) && Tokens(w1) <= Tokens(w)
  {
    Taken(c, w);
    CancelledThreeMessages(c, w0);
    assert Tokens(FailedWorld(c, w0, s.input)) == Tokens(w0);
  }

  lemma FailedTimers(c: Cast, w0: World, input: GameInput)
    requires c.Valid()
    ensures TimersOff(c, FailedWorld(c, w0, input).pipe, MenuFailed, PingFailed, PongFailed)
  {
    CancelledThreeTimers(c, w0);
  }
}

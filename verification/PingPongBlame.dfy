/** Which failure a game records: that of the player whose timeout was the first to
    reach an undecided player. */
module PingPongBlame {
  import opened Base
  import opened StreamQueue
  import opened PingPong
  import opened PingPongTree
  import opened PingPongSafety
  import opened PingPongSteps
  import opened PingPongRuns

  predicate IsFailure(input: GameInput) {
    input.FailedPing? || input.FailedPong?
  }

  /** The first failure the menu is going to hear of. */
  ghost function FirstTold(back: seq<Signal<Id, GameInput>>): (r: Option<GameInput>) {
    if back == [] then None
    else if IsFailure(back[0].input) then Some(back[0].input)
    else FirstTold(back[1..])
  }

  lemma {:induction false} FirstToldSnoc(back: seq<Signal<Id, GameInput>>, s: Signal<Id, GameInput>)
    ensures FirstTold(back + [s])
         == if FirstTold(back).Some? then FirstTold(back)
            else if IsFailure(s.input) then Some(s.input) else None
  {
    if back == [] {
      assert [s][1..] == [];
    } else {
      assert (back + [s])[1..] == back[1..] + [s];
      FirstToldSnoc(back[1..], s);
    }
  }

  /** The failure that is recorded, or the one that is going to be. */
  ghost function Blamed(c: Cast, w: World): (r: Option<GameInput>) {
    if c.menu in w.failures then Some(w.failures[c.menu]) else FirstTold(w.signals.back)
  }

  /** The failure that a step causes: it dispatches the timeout of a player that has
      not ended. */
  ghost function TimesOut(c: Cast, w: World, e: Event): (r: Option<GameInput>) {
    if !e.Dispatch? || Head(w.signals).None? then None
    else
      var s := Head(w.signals).value;
      if s.input.PingTimeout? && Known(w, s.id) && !IsTerminal(StateAt(w, s.id)) then Some(FailedPing)
      else if s.input.PongTimeout? && Known(w, s.id) && !IsTerminal(StateAt(w, s.id)) then Some(FailedPong)
      else None
  }

  /** The first such failure of a run. */
  ghost function FirstTimeout(c: Cast, w: World, events: seq<Event>): (r: Option<GameInput>)
    requires LegalRun(c, w, events)
    decreases |events|
  {
    if events == [] then None
    else if TimesOut(c, w, events[0]).Some? then TimesOut(c, w, events[0])
    else if Next(c, w, events[0]).None? then None
    else FirstTimeout(c, Next(c, w, events[0]).value, events[1..])
  }

  ghost function Or(a: Option<GameInput>, b: Option<GameInput>): (r: Option<GameInput>) {
    if a.Some? then a else b
  }

  // ---------------------------------------------------------------------------
  // One step

  /** What taking the head leaves for the menu to hear. */
  lemma RestBlame(c: Cast, w: World, s: Signal<Id, GameInput>)
    requires Messages(c, w) && Head(w.signals) == Some(s)
    requires s.id != c.menu || c.menu in w.failures || !IsFailure(s.input)
    requires c.Valid()
    ensures Blamed(c, Rest(w)) == Blamed(c, w)
  {
    Taken(c, w);
    PlayerInputs(c, s);
  }

  /** After the handler, the normal lane has at most one signal more. */
  lemma SentBlame(c: Cast, w: World, w1: World, id: Id, input: GameInput)
    requires w1.failures == w.failures && w1.signals.back == w.signals.back + [Signal(id, input)]
    ensures Blamed(c, w1) == Or(Blamed(c, w), if IsFailure(input) then Some(input) else None)
  {
    FirstToldSnoc(w.signals.back, Signal(id, input));
  }

  lemma PingBlame(c: Cast, w: World, s: Signal<Id, GameInput>, w0: World, m: GameState, p: GameState, q: GameState,
                  t1: int, t2: int)
    requires Dispatching(c, w, s, w0, m, p, q) && s.id == c.ping && s.input.ForPing()
    ensures Processed(c, w0, s, t1, t2).Some?
    ensures Blamed(c, Processed(c, w0, s, t1, t2).value)
         == Or(Blamed(c, w0), if s.input.PingTimeout? && !IsTerminal(p) then Some(FailedPing) else None)
  {
    if IsTerminal(p) {
      PingIgnores(c, w, s, w0, m, p, q, t1, t2);
      return;
    }
    PingEnds(c, w0, s, m, p, q, t1, t2);
    if s.input.StartSending? {
      SentBlame(c, w0, Processed(c, w0, s, t1, t2).value, s.input.pong, PongPacket(Packet(0, c.ping, s.input.who)));
    } else if IsFinal(s) {
      SentBlame(c, w0, Processed(c, w0, s, t1, t2).value, c.menu, PingPongComplete);
    } else if s.input.PingTimeout? {
      SentBlame(c, w0, Processed(c, w0, s, t1, t2).value, c.menu, FailedPing);
    } else {
      PingAnswerBlame(c, w, s, w0, m, p, q, t1, t2);
    }
  }

  lemma PingAnswerBlame(c: Cast, w: World, s: Signal<Id, GameInput>, w0: World, m: GameState, p: GameState,
                        q: GameState, t1: int, t2: int)
    requires Dispatching(c, w, s, w0, m, p, q) && s.id == c.ping && !IsTerminal(p) && !IsFinal(s)
    requires s.input.PingPacket? || s.input.PingReturned?
    ensures Processed(c, w0, s, t1, t2).Some?
    ensures Blamed(c, Processed(c, w0, s, t1, t2).value) == Blamed(c, w0)
  {
    var packet := PingCounted(s);
    HeadOk(c, w, s);
    PingCountedFacts(c, s);
    PingOutcome(c, w0, s, m, p, q, t1, t2, packet);
    if PingHolds(s, packet, t2).None? {
      SentBlame(c, w0, Processed(c, w0, s, t1, t2).value, c.pong, PongPacket(packet.(sender := c.ping)));
    }
  }

  lemma PongBlame(c: Cast, w: World, s: Signal<Id, GameInput>, w0: World, m: GameState, p: GameState, q: GameState,
                  t1: int, t2: int)
    requires Dispatching(c, w, s, w0, m, p, q) && s.id == c.pong && s.input.ForPong()
    ensures Processed(c, w0, s, t1, t2).Some?
    ensures Blamed(c, Processed(c, w0, s, t1, t2).value)
         == Or(Blamed(c, w0), if s.input.PongTimeout? && !IsTerminal(q) then Some(FailedPong) else None)
  {
    if IsTerminal(q) {
      PongIgnores(c, w, s, w0, m, p, q, t1, t2);
      return;
    }
    PongEnds(c, w0, s, m, p, q, t1, t2);
    if s.input.PongTimeout? {
      SentBlame(c, w0, Processed(c, w0, s, t1, t2).value, c.menu, FailedPong);
    } else if s.input.PongPacket? && s.input.packet.msg >= 20 {
      SentBlame(c, w0, Processed(c, w0, s, t1, t2).value, s.input.packet.sender, LastPacket(c.pong, s.input.packet));
    } else {
      PongAnswerBlame(c, w, s, w0, m, p, q, t1, t2);
    }
  }

  lemma PongAnswerBlame(c: Cast, w: World, s: Signal<Id, GameInput>, w0: World, m: GameState, p: GameState,
                        q: GameState, t1: int, t2: int)
    requires Dispatching(c, w, s, w0, m, p, q) && s.id == c.pong && !IsTerminal(q)
    requires s.input.PongReturned? || (s.input.PongPacket? && s.input.packet.msg < 20)
    ensures Processed(c, w0, s, t1, t2).Some?
    ensures Blamed(c, Processed(c, w0, s, t1, t2).value) == Blamed(c, w0)
  {
    var packet, q' := PongCounted(s), PongMoved(s, q);
    HeadOk(c, w, s);
    PongCountedFacts(c, s);
    PongOutcome(c, w0, s, m, p, q, t1, t2, packet, q');
    if PongHolds(s, packet, t2).None? {
      SentBlame(c, w0, Processed(c, w0, s, t1, t2).value, c.ping, PingPacket(packet.(sender := c.pong)));
    }
  }

  /** What the menu hears comes from the normal lane. */
  lemma MenuFromBack(c: Cast, w: World, s: Signal<Id, GameInput>)
    requires c.Valid() && Messages(c, w) && Head(w.signals) == Some(s) && s.id == c.menu
    ensures w.signals.back != [] && w.signals.back[0] == s
  {
    var front := w.signals.front;
    assert forall i | 0 <= i < |front| :: FrontOk(c, front[i]);
  }

  /** A failure that an undecided menu hears is the first it was told, and is recorded. */
  lemma RecordedBlame(c: Cast, w: World, s: Signal<Id, GameInput>, w0: World)
    requires c.menu !in w.failures && IsFailure(s.input) && w.signals.back != [] && w.signals.back[0] == s
    ensures Blamed(c, FailedWorld(c, w0, s.input)) == Blamed(c, w)
  {
  }

  lemma MenuBlame(c: Cast, w: World, s: Signal<Id, GameInput>, w0: World, m: GameState, p: GameState, q: GameState,
                  t1: int, t2: int)
    requires Dispatching(c, w, s, w0, m, p, q) && s.id == c.menu
    ensures Processed(c, w0, s, t1, t2).Some?
    ensures Blamed(c, Processed(c, w0, s, t1, t2).value) == Blamed(c, w)
  {
    MenuFromBack(c, w, s);
    if IsTerminal(m) {
      MenuIgnores(c, w, s, w0, m, p, q, t1, t2);
      RestBlame(c, w, s) by {
        assert m == MenuDone ==> !IsFailure(s.input);
      }
      return;
    }
    MenuHears(c, w, s, w0, m, p, q);
    if s.input.PingPongComplete? {
      MenuDoneBlame(c, w, s, w0, m, p, q, t1, t2);
    } else {
      FailOutcome(c, w0, s, m, p, q, t1, t2);
      RecordedBlame(c, w, s, w0);
    }
  }

  lemma MenuDoneBlame(c: Cast, w: World, s: Signal<Id, GameInput>, w0: World, m: GameState, p: GameState,
                      q: GameState, t1: int, t2: int)
    requires Dispatching(c, w, s, w0, m, p, q) && s.id == c.menu && s.input.PingPongComplete? && !IsTerminal(m)
    ensures Processed(c, w0, s, t1, t2).Some?
    ensures Blamed(c, Processed(c, w0, s, t1, t2).value) == Blamed(c, w)
  {
    PlayerFacts(c, w0, m, p, q);
    MenuUpdate(c, w0, m, p, q);
    RestBlame(c, w, s);
    assert Processed(c, w0, s, t1, t2) == Some(With(c, w0, MenuDone, p, q));
  }

  lemma TimesOutFacts(c: Cast, w: World, s: Signal<Id, GameInput>, m: GameState, p: GameState, q: GameState, t1: int,
                      t2: int)
    requires c.Valid() && w.tree == Some(GameTree(c, m, p, q)) && Head(w.signals) == Some(s)
    requires FrontOk(c, s) || BackOk(c, s)
    ensures TimesOut(c, w, Dispatch(t1, t2))
         == if s.input.PingTimeout? && !IsTerminal(p) then Some(FailedPing)
            else if s.input.PongTimeout? && !IsTerminal(q) then Some(FailedPong) else None
  {
    PlayerFacts(c, w, m, p, q);
  }

  lemma DispatchBlame(c: Cast, w: World, m: GameState, p: GameState, q: GameState, t1: int, t2: int)
    requires Playing(c, w, m, p, q) && Head(w.signals).Some?
    ensures Next(c, w, Dispatch(t1, t2)).Some?
    ensures Blamed(c, Next(c, w, Dispatch(t1, t2)).value) == Or(Blamed(c, w), TimesOut(c, w, Dispatch(t1, t2)))
  {
    var s, w0 := Head(w.signals).value, Rest(w);
    HeadOk(c, w, s);
    PlayerInputs(c, s);
    TimesOutFacts(c, w, s, m, p, q, t1, t2);
    if s.id == c.menu {
      MenuBlame(c, w, s, w0, m, p, q, t1, t2);
    } else {
      RestBlame(c, w, s);
      if s.id == c.ping {
        PingBlame(c, w, s, w0, m, p, q, t1, t2);
      } else {
        PongBlame(c, w, s, w0, m, p, q, t1, t2);
      }
    }
  }

  /** A step never changes who is to blame; it only settles it, when it times an
      undecided player out. */
  lemma StepBlame(c: Cast, w: World, e: Event)
    requires Invariant(c, w) && Enabled(w, e)
    ensures Next(c, w, e).Some?
    ensures Blamed(c, Next(c, w, e).value) == Or(Blamed(c, w), TimesOut(c, w, e))
  {
    if Started(c, w) {
      StartBlame(c, w, e);
    } else {
      var m, p, q := TheStates(c, w);
      if e.Dispatch? {
        DispatchBlame(c, w, m, p, q, e.t1, e.t2);
      }
    }
  }

  lemma StartBlame(c: Cast, w: World, e: Event)
    requires Started(c, w) && Enabled(w, e)
    ensures Blamed(c, w).None? && Next(c, w, e).Some?
    ensures Blamed(c, Next(c, w, e).value).None? && TimesOut(c, w, e).None?
  {
    var who :| w == Start(c, who);
    assert w.signals.back[1..] == [];
    assert FirstTold([]) == None;
    StartedStep(c, w, e);
    if e.Dispatch? {
      PlayBegins(c, who, e.t1, e.t2);
      var back := Next(c, w, e).value.signals.back;
      assert back == [] + [Signal(c.ping, StartSending(c.pong, who))];
      FirstToldSnoc([], Signal(c.ping, StartSending(c.pong, who)));
    }
  }

  // ---------------------------------------------------------------------------
  // Runs

  lemma {:induction false} RunBlame(c: Cast, w: World, events: seq<Event>)
    requires Invariant(c, w) && LegalRun(c, w, events)
    ensures Outcome(c, w, events).Some?
    ensures Blamed(c, Outcome(c, w, events).value) == Or(Blamed(c, w), FirstTimeout(c, w, events))
    decreases |events|
  {
    if events != [] {
      StepBlame(c, w, events[0]);
      RunKeeps(c, w, [events[0]]) by { assert [events[0]][1..] == []; }
      RunBlame(c, Next(c, w, events[0]).value, events[1..]);
    }
  }

  /** In every run from one Play: a recorded failure is the one of the player whose
      timeout was the first to be dispatched while that player had not ended; and at
      a standstill the game has failed if and only if there was such a timeout. */
  lemma FailureIsFirstTimeout(c: Cast, who: Option<Game>, events: seq<Event>)
    requires c.Valid() && LegalRun(c, Start(c, who), events)
    ensures Outcome(c, Start(c, who), events).Some?
    ensures var w, first := Outcome(c, Start(c, who), events).value, FirstTimeout(c, Start(c, who), events);
            && (c.menu in w.failures ==> first == Some(w.failures[c.menu]) && IsFailure(w.failures[c.menu]))
            && (Quiet(w) ==> (c.menu in w.failures <==> first.Some?))
  {
    var start := Start(c, who);
    assert Started(c, start);
    RunBlame(c, start, events);
    assert Blamed(c, start).None? by {
      assert FirstTold(start.signals.back[1..]).None?;
    }
    FirstTimeoutFails(c, start, events);
  }

  lemma {:induction false} FirstTimeoutFails(c: Cast, w: World, events: seq<Event>)
    requires LegalRun(c, w, events)
    ensures FirstTimeout(c, w, events).Some? ==> IsFailure(FirstTimeout(c, w, events).value)
    decreases |events|
  {
    if events != [] && TimesOut(c, w, events[0]).None? && Next(c, w, events[0]).Some? {
      FirstTimeoutFails(c, Next(c, w, events[0]).value, events[1..]);
    }
  }
}

/** The timing tests of the repository (src/manager.rs:853-931), in which one player
    sleeps on the packet: what is kept as long as nobody has timed out, in every run
    that keeps pace. */
module PingPongTimes {
  import opened Base
  import opened StreamQueue
  import opened Timers
  import opened Pipeline
  import opened PingPong
  import opened PingPongSafety
  import opened PingPongSteps
  import opened PingPongRuns
  import opened PingPongBounds
  import opened InFlight

  // ---------------------------------------------------------------------------
  // The deadline that an id will have

  /** The deadline once the given requests have arrived: the last Set or Cancel
      among them decides. */
  ghost function NextDeadline(armed: map<Id, int>, rs: seq<Request<Id, Packet>>, id: Id): (r: Option<int>) {
    if rs == [] then (if id in armed then Some(armed[id]) else None) else
      var n := |rs| - 1;
      if rs[n].id != id || rs[n].op.Retain? then NextDeadline(armed, rs[..n], id)
      else if rs[n].op.Set? then Some(rs[n].op.at) else None
  }

  ghost function Deadline(p: Pipe<Id, Packet>, id: Id): (r: Option<int>) {
    NextDeadline(p.ledger.armed, p.chan + p.lane, id)
  }

  lemma {:induction false} DeadlineAfterFirst(l: Ledger<Id, Packet>, rs: seq<Request<Id, Packet>>, id: Id)
    requires rs != []
    ensures NextDeadline(l.armed, rs, id) == NextDeadline(Applied(l, rs[0]).armed, rs[1..], id)
  {
    var n := |rs| - 1;
    if n == 0 {
      assert NextDeadline(l.armed, rs[..0], id) == if id in l.armed then Some(l.armed[id]) else None;
    } else {
      DeadlineAfterFirst(l, rs[..n], id);
      assert rs[1..][..n - 1] == rs[..n][1..];
    }
  }

  lemma DeadlineStep(p: Pipe<Id, Packet>, st: Pipeline.Step<Id, Packet>, id: Id)
    requires !st.Tick?
    ensures Deadline(After(p, st), id)
         == if !st.Issue? || st.r.id != id || st.r.op.Retain? then Deadline(p, id)
            else if st.r.op.Set? then Some(st.r.op.at) else None
  {
    match st
    case Issue(r) =>
      assert p.chan + (p.lane + [r]) == p.chan + p.lane + [r];
      assert (p.chan + p.lane + [r])[..|p.chan + p.lane|] == p.chan + p.lane;
    case Route =>
      if p.lane != [] {
        assert p.chan + [p.lane[0]] + p.lane[1..] == p.chan + p.lane;
      }
    case Receive =>
      if p.chan != [] {
        DeadlineAfterFirst(p.ledger, p.chan + p.lane, id);
        assert (p.chan + p.lane)[1..] == p.chan[1..] + p.lane;
      }
  }

  lemma {:induction false} FlatMember(m: map<int, seq<(Id, Packet)>>, x: (Id, Packet))
    ensures x in Flat(m) <==> exists at :: at in m && x in m[at]
    decreases |m|
  {
    if m != map[] {
      var k := Least(m.Keys);
      FlatMember(m - {k}, x);
      assert forall at | at in m :: at == k || (at in m - {k} && (m - {k})[at] == m[at]);
    }
  }

  // ---------------------------------------------------------------------------
  // Keeping pace

  /** The last instant that was read, the last tick, and the last tick that found the
      system settled; where the run started; how far apart ticks may be; and how long
      what such a tick sets going may take. */
  datatype Clock = Clock(now: int, tick: int, idle: int, start: int, gap: nat, lag: nat)

  /** Nothing but held packets and timers. */
  ghost predicate Settled(w: World) {
    w.signals == Lanes([], []) && w.outbox == [] && Drained(w.pipe)
  }

  /** A handler reads later instants than the one before it. A tick comes at most `gap`
      after the tick before it, and finds the system settled or at most `lag` after it
      last was. */
  ghost predicate InPace(w: World, e: Event, clock: Clock) {
    match e
    case Dispatch(t1, t2) => clock.now < t1 <= t2
    case TickAt(now, _) =>
      clock.now <= now <= clock.tick + clock.gap && (Settled(w) || now <= clock.idle + clock.lag)
    case _ => true
  }

  ghost function AtTick(clock: Clock, now: int, settled: bool): (later: Clock) {
    clock.(now := now, tick := now, idle := if settled then now else clock.idle)
  }

  ghost function Moves(w: World, clock: Clock, e: Event): (later: Clock) {
    match e
    case Dispatch(_, t2) => clock.(now := t2)
    case TickAt(now, _) => AtTick(clock, now, Settled(w))
    case _ => clock
  }

  ghost predicate RunInPace(c: Cast, w: World, events: seq<Event>, clock: Clock)
    requires LegalRun(c, w, events)
    decreases |events|
  {
    events != [] ==>
      && InPace(w, events[0], clock)
      && (Next(c, w, events[0]).Some? ==>
            RunInPace(c, Next(c, w, events[0]).value, events[1..], Moves(w, clock, events[0])))
  }

  ghost function ClockAfter(c: Cast, w: World, events: seq<Event>, clock: Clock): (later: Clock)
    requires LegalRun(c, w, events)
    decreases |events|
  {
    if events == [] || Next(c, w, events[0]).None? then clock
    else ClockAfter(c, Next(c, w, events[0]).value, events[1..], Moves(w, clock, events[0]))
  }

  /** The pace in which the other player is the first to time out. When Pong holds, it
      gives its first packet back in time only if ticks are frequent. */
  ghost predicate Paces(holder: Game, clock: Clock) {
    || (holder == Ping && clock.lag <= 10 * MILLIS)
    || (holder == Pong && clock.gap + clock.lag <= TEST_TICK_RATE)
  }

  ghost predicate Ticking(clock: Clock) {
    clock.idle <= clock.tick <= clock.now && clock.tick <= clock.idle + clock.lag
  }

  /** The next tick, if it comes now, is in pace. */
  ghost predicate InTime(clock: Clock) {
    clock.now <= clock.idle + clock.lag + clock.gap
  }

  // ---------------------------------------------------------------------------
  // Nobody has timed out

  ghost function HolderId(c: Cast, holder: Game): (id: Id) {
    if holder == Ping then c.ping else c.pong
  }

  ghost function OtherId(c: Cast, holder: Game): (id: Id) {
    if holder == Ping then c.pong else c.ping
  }

  /** How long the holder keeps its first packet. */
  ghost function FirstHold(holder: Game): (d: int) {
    if holder == Ping then 10 * MILLIS else 5 * MILLIS
  }

  /** When it is back at the latest. */
  ghost function FirstBack(holder: Game, clock: Clock): (at: int) {
    clock.start + clock.lag + 2 * clock.gap + FirstHold(holder)
  }

  /** By then the other player's time is up. */
  ghost function LastDeadline(holder: Game, clock: Clock): (at: int) {
    FirstBack(holder, clock) + clock.lag + clock.gap + TEST_TIMEOUT
  }

  /** A packet signal in a game that `holder` delays. */
  ghost predicate Delayed(holder: Game, s: Signal<Id, GameInput>) {
    match s.input
    case StartSending(_, who) => who == Some(holder)
    case PongPacket(packet) => packet.whoHolds == Some(holder) && packet.msg <= 10
    case PingPacket(packet) => packet.whoHolds == Some(holder) && packet.msg <= if holder == Ping then 15 else 5
    case PingReturned(packet) => holder == Ping && packet.whoHolds == Some(holder) && packet.msg == 10
    case PongReturned(packet) => holder == Pong && packet.whoHolds == Some(holder) && packet.msg == 5
    case _ => false
  }

  /** The signal belongs to the way of the packet before it is held for the first time. */
  ghost predicate Early(holder: Game, s: Signal<Id, GameInput>) {
    match s.input
    case StartSending(_, _) => true
    case PongPacket(packet) => packet.msg == 0
    case PingPacket(packet) => holder == Ping && packet.msg == 5
    case _ => false
  }

  /** Its receiver is the last before the holder. */
  ghost predicate BeforeHolder(holder: Game, s: Signal<Id, GameInput>) {
    if holder == Ping then s.input.PingPacket? else s.input.PongPacket? && s.input.packet.msg > 0
  }

  /** Its receiver is the one who does not hold, or is just starting. */
  ghost predicate ToOther(holder: Game, s: Signal<Id, GameInput>) {
    s.input.StartSending? || (if holder == Ping then s.input.PongPacket? else s.input.PingPacket?)
  }

  /** The deadline is none, or none that a tick can pass before the system settles. */
  ghost predicate Safe(deadline: Option<int>, clock: Clock) {
    deadline.Some? ==> deadline.value > clock.idle + clock.lag
  }

  /** A packet signal and the time at which it is there; `own` is the holder's deadline
      to come, `other` the other player's. */
  ghost predicate OnItsWay(holder: Game, s: Signal<Id, GameInput>, own: Option<int>, other: Option<int>, clock: Clock) {
    && Delayed(holder, s)
    && (if Early(holder, s) then clock.idle <= clock.start else clock.idle <= FirstBack(holder, clock))
    && (ToOther(holder, s) ==> Safe(own, clock))
    && (Early(holder, s) && holder == Pong ==> other.None?)
    && (BeforeHolder(holder, s) ==>
          && other.Some? && other.value <= clock.now + TEST_TIMEOUT
          && (!Early(holder, s) && InTime(clock) ==> other.value <= LastDeadline(holder, clock)))
  }

  /** A packet that the holder keeps until `at`: the first one comes back, and before
      the second one does the other player's deadline is over. */
  ghost predicate KeptUntil(holder: Game, packet: Packet, at: int, own: Option<int>, other: Option<int>, clock: Clock) {
    && packet.whoHolds == Some(holder) && own.Some?
    && (if holder == Ping then packet.msg in {10, 20} else packet.msg in {5, 15})
    && (packet.msg * MILLIS == FirstHold(holder) ==>
          && clock.tick <= at
          && (InTime(clock) ==> at <= clock.start + clock.lag + clock.gap + FirstHold(holder))
          && (if holder == Pong then other.None? && (InTime(clock) ==> at + clock.gap + clock.lag < own.value)
              else other.Some? && other.value < own.value))
    && (packet.msg * MILLIS != FirstHold(holder) ==>
          && other.Some? && other.value < own.value && other.value < at
          && (InTime(clock) ==> other.value <= LastDeadline(holder, clock)))
  }

  ghost predicate AllOnTime(holder: Game, w: World, own: Option<int>, other: Option<int>, clock: Clock) {
    && (forall s | s in w.signals.front || s in w.signals.back || s in w.outbox :: OnItsWay(holder, s, own, other,
        clock))
    && (forall r | (r in w.pipe.lane || r in w.pipe.chan) && r.op.Retain? ::
          KeptUntil(holder, r.op.item, r.op.at, own, other, clock) && clock.idle + clock.lag <= r.op.at)
    && (forall at, x | at in w.pipe.ledger.held && x in w.pipe.ledger.held[at] ::
          KeptUntil(holder, x.1, at, own, other, clock))
  }

  /** If a tick can pass the holder's deadline before the system settles, it passes the
      other's first. */
  ghost predicate Covered(own: Option<int>, other: Option<int>, clock: Clock) {
    Safe(own, clock) || (own.Some? && other.Some? && other.value < own.value)
  }

  /** The deadlines once the first `k` requests under way have been received. */
  ghost predicate CoveredAt(c: Cast, holder: Game, p: Pipe<Id, Packet>, k: nat, clock: Clock)
    requires k <= |p.chan + p.lane|
  {
    var rs := (p.chan + p.lane)[..k];
    Covered(NextDeadline(p.ledger.armed, rs, HolderId(c, holder)),
            NextDeadline(p.ledger.armed, rs, OtherId(c, holder)), clock)
  }

  ghost predicate CoveredThroughout(c: Cast, holder: Game, p: Pipe<Id, Packet>, clock: Clock) {
    forall k: nat | k <= |p.chan + p.lane| :: CoveredAt(c, holder, p, k, clock)
  }

  /** Nothing is issued after a packet was held. */
  ghost predicate HeldLast(p: Pipe<Id, Packet>) {
    && (forall i | 0 <= i < |p.chan + p.lane| && (p.chan + p.lane)[i].op.Retain? :: i == |p.chan + p.lane| - 1)
    && (forall at, x | at in p.ledger.held && x in p.ledger.held[at] :: p.chan + p.lane == [])
  }

  /** The game as long as nobody has timed out. */
  ghost predicate OnTime(c: Cast, holder: Game, w: World, p: GameState, q: GameState, clock: Clock) {
    && Playing(c, w, MenuReady, p, q) && !IsTerminal(p) && !IsTerminal(q)
    && TimesOk(c, holder, w, clock)
  }

  /** The clock of a run that is not settled. */
  ghost predicate Busy(holder: Game, clock: Clock) {
    && Paces(holder, clock) && Ticking(clock) && clock.tick <= LastDeadline(holder, clock)
    && clock.idle + clock.lag <= LastDeadline(holder, clock)
  }

  ghost predicate TimesOk(c: Cast, holder: Game, w: World, clock: Clock) {
    && Paces(holder, clock) && Ticking(clock) && clock.tick <= LastDeadline(holder, clock)
    && (Settled(w) || clock.idle + clock.lag <= LastDeadline(holder, clock))
    && AllOnTime(holder, w, Deadline(w.pipe, HolderId(c, holder)), Deadline(w.pipe, OtherId(c, holder)), clock)
    && CoveredThroughout(c, holder, w.pipe, clock) && HeldLast(w.pipe)
  }

  lemma TimesFrom(c: Cast, holder: Game, w: World, own: Option<int>, other: Option<int>, clock: Clock)
    requires Busy(holder, clock) || (Settled(w) && Paces(holder, clock) && Ticking(clock))
    requires clock.tick <= LastDeadline(holder, clock)
    requires own == Deadline(w.pipe, HolderId(c, holder)) && other == Deadline(w.pipe, OtherId(c, holder))
    requires AllOnTime(holder, w, own, other, clock) && CoveredThroughout(c, holder, w.pipe, clock) && HeldLast(w.pipe)
    ensures TimesOk(c, holder, w, clock)
  {
  }

  // ---------------------------------------------------------------------------
  // Dispatching the packet

  /** No packet anywhere. */
  ghost predicate Bare(w: World) {
    && w.signals == Lanes([], []) && w.outbox == []
    && (forall r | r in w.pipe.lane || r in w.pipe.chan :: !r.op.Retain?)
    && (forall at, x | at in w.pipe.ledger.held :: x !in w.pipe.ledger.held[at])
  }

  lemma {:induction false} AllTokens(xs: seq<Signal<Id, GameInput>>)
    requires forall s | s in xs :: TokenOf(s) == 1
    ensures Sum(xs, TokenOf) == |xs|
  {
    if xs != [] {
      var n := |xs| - 1;
      assert xs[n] in xs && forall s | s in xs[..n] :: s in xs;
      AllTokens(xs[..n]);
      SumSnoc(xs[..n], xs[n], TokenOf);
      assert xs == xs[..n] + [xs[n]];
    }
  }

  lemma BareWithoutToken(w: World)
    requires Tokens(w) == 0
    requires forall s | s in w.signals.front || s in w.signals.back || s in w.outbox :: TokenOf(s) == 1
    ensures Bare(w)
  {
    NoTokens(w);
    AllTokens(w.signals.front);
    AllTokens(w.signals.back);
    AllTokens(w.outbox);
    forall at, x | at in w.pipe.ledger.held ensures x !in w.pipe.ledger.held[at] {
      FlatMember(w.pipe.ledger.held, x);
    }
  }

  /** The packet is all there is to dispatch. */
  lemma PacketTaken(c: Cast, holder: Game, w: World, s: Signal<Id, GameInput>, p: GameState, q: GameState, clock: Clock)
    requires OnTime(c, holder, w, p, q, clock) && Head(w.signals) == Some(s)
    ensures Bare(Rest(w)) && Rest(w).pipe == w.pipe
    ensures OnItsWay(holder, s, Deadline(w.pipe, HolderId(c, holder)), Deadline(w.pipe, OtherId(c, holder)), clock)
    ensures FrontOk(c, s) || BackOk(c, s)
  {
    Taken(c, w);
    var w0 := Rest(w);
    HeadOnItsWay(holder, w, s, Deadline(w.pipe, HolderId(c, holder)), Deadline(w.pipe, OtherId(c, holder)), clock);
    TokenTaken(c, w, s);
    forall x | x in w0.signals.front || x in w0.signals.back || x in w0.outbox ensures TokenOf(x) == 1 {
      assert x in w.signals.front || x in w.signals.back || x in w.outbox;
    }
    BareWithoutToken(w0);
  }

  lemma HeadOnItsWay(holder: Game, w: World, s: Signal<Id, GameInput>, own: Option<int>, other: Option<int>,
                     clock: Clock)
    requires AllOnTime(holder, w, own, other, clock) && Head(w.signals) == Some(s)
    ensures OnItsWay(holder, s, own, other, clock) && TokenOf(s) == 1
  {
    assert s in w.signals.front || s in w.signals.back;
  }

  lemma TokenTaken(c: Cast, w: World, s: Signal<Id, GameInput>)
    requires Messages(c, w) && Tokens(w) <= 1 && Head(w.signals) == Some(s) && TokenOf(s) == 1
    ensures Tokens(Rest(w)) == 0
  {
    Taken(c, w);
  }

  /** What a player does with the packet: keep it until an instant, or pass it on. */
  datatype Reply = Keep(packet: Packet, at: int) | Pass(to: Id, input: GameInput)

  ghost function Replied(timed: World, own: Id, reply: Reply): (w: World) {
    match reply
    case Keep(packet, at) => Requested(timed, own, Retain(packet, at))
    case Pass(to, input) => Sent(timed, to, input)
  }

  ghost predicate ReplyOk(holder: Game, reply: Reply, own: Option<int>, other: Option<int>, clock: Clock) {
    match reply
    case Keep(packet, at) => KeptUntil(holder, packet, at, own, other, clock) && clock.idle + clock.lag <= at
    case Pass(to, input) => OnItsWay(holder, Signal(to, input), own, other, clock)
  }

  ghost function PingReply(c: Cast, s: Signal<Id, GameInput>, t2: int): (reply: Reply)
    requires s.input.PingReturned? || s.input.PingPacket?
  {
    var packet := PingCounted(s);
    if PingHolds(s, packet, t2).Some? then Keep(packet, t2 + packet.msg * MILLIS)
    else Pass(c.pong, PongPacket(packet.(sender := c.ping)))
  }

  ghost function PongReply(c: Cast, s: Signal<Id, GameInput>, t2: int): (reply: Reply)
    requires s.input.PongReturned? || s.input.PongPacket?
  {
    var packet := PongCounted(s);
    if PongHolds(s, packet, t2).Some? then Keep(packet, t2 + packet.msg * MILLIS)
    else Pass(c.ping, PingPacket(packet.(sender := c.pong)))
  }

  lemma PingReplies(c: Cast, timed: World, s: Signal<Id, GameInput>, t2: int)
    requires s.input.PingReturned? || s.input.PingPacket?
    ensures PingReplied(c, timed, s, PingCounted(s), t2) == Replied(timed, c.ping, PingReply(c, s, t2))
  {
  }

  lemma PongReplies(c: Cast, timed: World, s: Signal<Id, GameInput>, t2: int)
    requires s.input.PongReturned? || s.input.PongPacket?
    ensures PongReplied(c, timed, s, PongCounted(s), t2) == Replied(timed, c.pong, PongReply(c, s, t2))
  {
  }

  /** The deadlines once a player has set its timer. */
  ghost function OwnAfter(c: Cast, holder: Game, player: Id, own: Option<int>, at: int): (r: Option<int>) {
    if player == HolderId(c, holder) then Some(at) else own
  }

  ghost function OtherAfter(c: Cast, holder: Game, player: Id, other: Option<int>, at: int): (r: Option<int>) {
    if player == OtherId(c, holder) then Some(at) else other
  }

  /** What Ping does with the packet is on time again. */
  lemma PingNext(c: Cast, holder: Game, s: Signal<Id, GameInput>, own: Option<int>, other: Option<int>,
                 clock: Clock, t1: int, t2: int)
    requires c.Valid() && Paces(holder, clock) && Ticking(clock) && clock.now < t1 <= t2
    requires s.input.PingPacket? || s.input.PingReturned?
    requires OnItsWay(holder, s, own, other, clock) && HeldFor(c, (c.ping, PingCounted(s)))
    ensures var at, later := t1 + TEST_TIMEOUT, clock.(now := t2);
            var own', other' := OwnAfter(c, holder, c.ping, own, at), OtherAfter(c, holder, c.ping, other, at);
            ReplyOk(holder, PingReply(c, s, t2), own', other', later) && Covered(own', other', later)
  {
  }

  lemma PongNext(c: Cast, holder: Game, s: Signal<Id, GameInput>, own: Option<int>, other: Option<int>,
                 clock: Clock, t1: int, t2: int)
    requires c.Valid() && Paces(holder, clock) && Ticking(clock) && clock.now < t1 <= t2
    requires s.input.PongReturned? || s.input.PongPacket?
    requires OnItsWay(holder, s, own, other, clock) && HeldFor(c, (c.pong, PongCounted(s)))
    ensures var at, later := t1 + TEST_TIMEOUT, clock.(now := t2);
            var own', other' := OwnAfter(c, holder, c.pong, own, at), OtherAfter(c, holder, c.pong, other, at);
            ReplyOk(holder, PongReply(c, s, t2), own', other', later) && Covered(own', other', later)
  {
  }

  /** One request more is covered if the deadlines that it leads to are. */
  lemma IssueCovered(c: Cast, holder: Game, p: Pipe<Id, Packet>, r: Request<Id, Packet>, clock: Clock)
    requires CoveredThroughout(c, holder, p, clock)
    requires var p' := After(p, Issue(r));
             Covered(Deadline(p', HolderId(c, holder)), Deadline(p', OtherId(c, holder)), clock)
    ensures CoveredThroughout(c, holder, After(p, Issue(r)), clock)
  {
    var p' := After(p, Issue(r));
    var rs := p.chan + p.lane;
    assert p'.chan + p'.lane == rs + [r];
    forall k: nat | k <= |p'.chan + p'.lane| ensures CoveredAt(c, holder, p', k, clock) {
      if k <= |rs| {
        assert (p'.chan + p'.lane)[..k] == rs[..k];
        assert CoveredAt(c, holder, p, k, clock);
      } else {
        assert (p'.chan + p'.lane)[..k] == p'.chan + p'.lane;
      }
    }
  }

  lemma LaterCovered(c: Cast, holder: Game, p: Pipe<Id, Packet>, clock: Clock, later: Clock)
    requires CoveredThroughout(c, holder, p, clock) && later.idle == clock.idle && later.lag == clock.lag
    ensures CoveredThroughout(c, holder, p, later)
  {
    forall k: nat | k <= |p.chan + p.lane| ensures CoveredAt(c, holder, p, k, later) {
      assert CoveredAt(c, holder, p, k, clock);
    }
  }

  lemma LaterBusy(holder: Game, clock: Clock, t2: int)
    requires Busy(holder, clock) && clock.now <= t2
    ensures Busy(holder, clock.(now := t2))
  {
  }

  lemma HeldLastIssue(w: World, r: Request<Id, Packet>)
    requires Bare(w)
    ensures HeldLast(After(w.pipe, Issue(r)))
  {
    var p' := After(w.pipe, Issue(r));
    assert p'.chan + p'.lane == w.pipe.chan + w.pipe.lane + [r];
    var rs := w.pipe.chan + w.pipe.lane;
    assert forall i | 0 <= i < |rs| :: rs[i] in rs && !rs[i].op.Retain?;
  }

  ghost predicate IsPlayer(c: Cast, id: Id) {
    id == c.ping || id == c.pong
  }

  /** The pipe after a player has set its timer, and after it has also kept a packet. */
  lemma TimerCovered(c: Cast, holder: Game, p: Pipe<Id, Packet>, player: Id, at: int, clock: Clock)
    requires c.Valid() && CoveredThroughout(c, holder, p, clock) && IsPlayer(c, player)
    requires Covered(OwnAfter(c, holder, player, Deadline(p, HolderId(c, holder)), at),
                     OtherAfter(c, holder, player, Deadline(p, OtherId(c, holder)), at), clock)
    ensures var p1 := After(p, Issue(Request(player, Set(at))));
            && CoveredThroughout(c, holder, p1, clock)
            && Deadline(p1, HolderId(c, holder)) == OwnAfter(c, holder, player, Deadline(p, HolderId(c, holder)), at)
            && Deadline(p1, OtherId(c, holder)) == OtherAfter(c, holder, player, Deadline(p, OtherId(c, holder)), at)
  {
    var r := Request(player, Set(at));
    DeadlineStep(p, Issue(r), HolderId(c, holder));
    DeadlineStep(p, Issue(r), OtherId(c, holder));
    IssueCovered(c, holder, p, r, clock);
  }

  lemma KeepCovered(c: Cast, holder: Game, p: Pipe<Id, Packet>, player: Id, keep: Operation<Packet>, clock: Clock)
    requires CoveredThroughout(c, holder, p, clock) && keep.Retain?
    ensures var kept := After(p, Issue(Request(player, keep)));
            && CoveredThroughout(c, holder, kept, clock)
            && Deadline(kept, HolderId(c, holder)) == Deadline(p, HolderId(c, holder))
            && Deadline(kept, OtherId(c, holder)) == Deadline(p, OtherId(c, holder))
  {
    var r := Request(player, keep);
    DeadlineStep(p, Issue(r), HolderId(c, holder));
    DeadlineStep(p, Issue(r), OtherId(c, holder));
    LastCovered(c, holder, p, clock);
    IssueCovered(c, holder, p, r, clock);
  }

  lemma LastCovered(c: Cast, holder: Game, p: Pipe<Id, Packet>, clock: Clock)
    requires CoveredThroughout(c, holder, p, clock)
    ensures Covered(Deadline(p, HolderId(c, holder)), Deadline(p, OtherId(c, holder)), clock)
  {
    var rs := p.chan + p.lane;
    assert CoveredAt(c, holder, p, |rs|, clock);
    assert rs[..|rs|] == rs;
  }

  lemma OneSignal(holder: Game, w: World, s: Signal<Id, GameInput>, own: Option<int>, other: Option<int>, clock: Clock)
    requires Bare(w.(signals := Lanes([], []))) && w.signals == Lanes([], [s])
    requires OnItsWay(holder, s, own, other, clock)
    ensures AllOnTime(holder, w, own, other, clock)
  {
  }

  lemma OneKept(holder: Game, w: World, id: Id, packet: Packet, at: int, own: Option<int>, other: Option<int>,
                clock: Clock)
    requires Bare(w) && KeptUntil(holder, packet, at, own, other, clock) && clock.idle + clock.lag <= at
    ensures AllOnTime(holder, Requested(w, id, Retain(packet, at)), own, other, clock)
  {
  }

  lemma AnswerOnTime(c: Cast, holder: Game, w0: World, p: GameState, q: GameState, player: Id, at: int, reply: Reply,
                     clock: Clock)
    requires c.Valid() && Bare(w0) && CoveredThroughout(c, holder, w0.pipe, clock) && IsPlayer(c, player)
    requires Busy(holder, clock)
    requires var own, other := OwnAfter(c, holder, player, Deadline(w0.pipe, HolderId(c, holder)), at),
                               OtherAfter(c, holder, player, Deadline(w0.pipe, OtherId(c, holder)), at);
             ReplyOk(holder, reply, own, other, clock) && Covered(own, other, clock)
    ensures TimesOk(c, holder, Replied(Timed(c, w0, MenuReady, p, q, player, at), player, reply), clock)
  {
    var timed := Timed(c, w0, MenuReady, p, q, player, at);
    TimerCovered(c, holder, w0.pipe, player, at, clock);
    HeldLastIssue(w0, Request(player, Set(at)));
    var own, other := Deadline(timed.pipe, HolderId(c, holder)), Deadline(timed.pipe, OtherId(c, holder));
    match reply
    case Keep(packet, until) =>
      KeepCovered(c, holder, timed.pipe, player, Retain(packet, until), clock);
      HeldLastIssue(timed, Request(player, Retain(packet, until)));
      OneKept(holder, timed, player, packet, until, own, other, clock);
    case Pass(to, input) =>
      OneSignal(holder, Sent(timed, to, input), Signal(to, input), own, other, clock);
  }

  lemma AnswerInTime(c: Cast, holder: Game, w0: World, p: GameState, q: GameState, player: Id, at: int, reply: Reply,
                     clock: Clock, t2: int)
    requires c.Valid() && Bare(w0) && CoveredThroughout(c, holder, w0.pipe, clock) && IsPlayer(c, player)
    requires Busy(holder, clock) && clock.now <= t2
    requires var own, other := OwnAfter(c, holder, player, Deadline(w0.pipe, HolderId(c, holder)), at),
                               OtherAfter(c, holder, player, Deadline(w0.pipe, OtherId(c, holder)), at);
             ReplyOk(holder, reply, own, other, clock.(now := t2)) && Covered(own, other, clock.(now := t2))
    ensures TimesOk(c, holder, Replied(Timed(c, w0, MenuReady, p, q, player, at), player, reply), clock.(now := t2))
  {
    LaterCovered(c, holder, w0.pipe, clock, clock.(now := t2));
    LaterBusy(holder, clock, t2);
    AnswerOnTime(c, holder, w0, p, q, player, at, reply, clock.(now := t2));
  }

  lemma PingTimes(c: Cast, holder: Game, w0: World, s: Signal<Id, GameInput>, p: GameState, q: GameState,
                  clock: Clock, t1: int, t2: int, w1: World)
    requires c.Valid() && Bare(w0) && CoveredThroughout(c, holder, w0.pipe, clock) && Busy(holder, clock)
    requires OnItsWay(holder, s, Deadline(w0.pipe, HolderId(c, holder)), Deadline(w0.pipe, OtherId(c, holder)), clock)
    requires (s.input.PingPacket? || s.input.PingReturned?) && HeldFor(c, (c.ping, PingCounted(s)))
        && clock.now < t1 <= t2
    requires w1 == Replied(Timed(c, w0, MenuReady, p, q, c.ping, t1 + TEST_TIMEOUT), c.ping, PingReply(c, s, t2))
    ensures TimesOk(c, holder, w1, clock.(now := t2))
  {
    PingNext(c, holder, s, Deadline(w0.pipe, HolderId(c, holder)), Deadline(w0.pipe, OtherId(c, holder)), clock, t1,
             t2);
    AnswerInTime(c, holder, w0, p, q, c.ping, t1 + TEST_TIMEOUT, PingReply(c, s, t2), clock, t2);
  }

  lemma PingInTime(c: Cast, holder: Game, w: World, s: Signal<Id, GameInput>, p: GameState, q: GameState,
                   clock: Clock, t1: int, t2: int)
    requires OnTime(c, holder, w, p, q, clock) && Head(w.signals) == Some(s) && s.id == c.ping
    requires clock.now < t1 <= t2 && (s.input.PingPacket? || s.input.PingReturned?)
    ensures Next(c, w, Dispatch(t1, t2)).Some?
    ensures OnTime(c, holder, Next(c, w, Dispatch(t1, t2)).value, p, q, clock.(now := t2))
  {
    PacketTaken(c, holder, w, s, p, q, clock);
    PingAnswers(c, w, s, Rest(w), MenuReady, p, q, t1, t2);
    PingCountedFacts(c, s);
    PingOutcome(c, Rest(w), s, MenuReady, p, q, t1, t2, PingCounted(s));
    PingReplies(c, Timed(c, Rest(w), MenuReady, p, q, c.ping, t1 + TEST_TIMEOUT), s, t2);
    PingTimes(c, holder, Rest(w), s, p, q, clock, t1, t2, Next(c, w, Dispatch(t1, t2)).value);
  }

  lemma PongTimes(c: Cast, holder: Game, w0: World, s: Signal<Id, GameInput>, p: GameState, q: GameState,
                  clock: Clock, t1: int, t2: int, w1: World)
    requires c.Valid() && Bare(w0) && CoveredThroughout(c, holder, w0.pipe, clock) && Busy(holder, clock)
    requires OnItsWay(holder, s, Deadline(w0.pipe, HolderId(c, holder)), Deadline(w0.pipe, OtherId(c, holder)), clock)
    requires (s.input.PongPacket? || s.input.PongReturned?) && HeldFor(c, (c.pong, PongCounted(s)))
        && clock.now < t1 <= t2
    requires w1 == Replied(Timed(c, w0, MenuReady, p, q, c.pong, t1 + TEST_TIMEOUT), c.pong, PongReply(c, s, t2))
    ensures TimesOk(c, holder, w1, clock.(now := t2))
  {
    PongNext(c, holder, s, Deadline(w0.pipe, HolderId(c, holder)), Deadline(w0.pipe, OtherId(c, holder)), clock, t1,
             t2);
    AnswerInTime(c, holder, w0, p, q, c.pong, t1 + TEST_TIMEOUT, PongReply(c, s, t2), clock, t2);
  }

  lemma PongInTime(c: Cast, holder: Game, w: World, s: Signal<Id, GameInput>, p: GameState, q: GameState,
                   clock: Clock, t1: int, t2: int)
    requires OnTime(c, holder, w, p, q, clock) && Head(w.signals) == Some(s) && s.id == c.pong
    requires clock.now < t1 <= t2 && (s.input.PongPacket? || s.input.PongReturned?)
    ensures Next(c, w, Dispatch(t1, t2)).Some?
    ensures OnTime(c, holder, Next(c, w, Dispatch(t1, t2)).value, p, PongMoved(s, q), clock.(now := t2))
  {
    PacketTaken(c, holder, w, s, p, q, clock);
    var q' := PongAnswers(c, w, s, Rest(w), MenuReady, p, q, t1, t2);
    PongCountedFacts(c, s);
    PongOutcome(c, Rest(w), s, MenuReady, p, q, t1, t2, PongCounted(s), PongMoved(s, q));
    PongReplies(c, Timed(c, Rest(w), MenuReady, p, PongMoved(s, q), c.pong, t1 + TEST_TIMEOUT), s, t2);
    PongTimes(c, holder, Rest(w), s, p, PongMoved(s, q), clock, t1, t2, Next(c, w, Dispatch(t1, t2)).value);
  }

  lemma SendsFirst(c: Cast, w: World, s: Signal<Id, GameInput>, p: GameState, q: GameState, t1: int, t2: int)
    returns (w1: World)
    requires Dispatching(c, w, s, Rest(w), MenuReady, p, q) && !IsTerminal(p) && BackOk(c, s) && s.input.StartSending?
    ensures w1 == Sent(With(c, Rest(w), MenuReady, PingSending, q), c.pong,
                       PongPacket(Packet(0, c.ping, s.input.who)))
    ensures Next(c, w, Dispatch(t1, t2)) == Some(w1) && Playing(c, w1, MenuReady, PingSending, q)
  {
    PingStarts(c, w, s, Rest(w), MenuReady, p, q, t1, t2);
    PingEnds(c, Rest(w), s, MenuReady, p, q, t1, t2);
    w1 := Next(c, w, Dispatch(t1, t2)).value;
  }

  lemma StartInTime(c: Cast, holder: Game, w: World, s: Signal<Id, GameInput>, p: GameState, q: GameState,
                    clock: Clock, t1: int, t2: int)
    returns (w1: World)
    requires OnTime(c, holder, w, p, q, clock) && Head(w.signals) == Some(s) && s.input.StartSending?
    requires clock.now < t1 <= t2
    ensures Next(c, w, Dispatch(t1, t2)) == Some(w1) && OnTime(c, holder, w1, PingSending, q, clock.(now := t2))
  {
    PacketTaken(c, holder, w, s, p, q, clock);
    w1 := SendsFirst(c, w, s, p, q, t1, t2);
    StartTimes(c, holder, Rest(w), s, q, clock, t2);
  }

  lemma StartTimes(c: Cast, holder: Game, w0: World, s: Signal<Id, GameInput>, q: GameState, clock: Clock, t2: int)
    requires Bare(w0) && s.input.StartSending? && CoveredThroughout(c, holder, w0.pipe, clock) && HeldLast(w0.pipe)
    requires Busy(holder, clock) && clock.now < t2
    requires OnItsWay(holder, s, Deadline(w0.pipe, HolderId(c, holder)), Deadline(w0.pipe, OtherId(c, holder)), clock)
    ensures TimesOk(c, holder, Sent(With(c, w0, MenuReady, PingSending, q), c.pong,
                                    PongPacket(Packet(0, c.ping, s.input.who))), clock.(now := t2))
  {
    LaterCovered(c, holder, w0.pipe, clock, clock.(now := t2));
    FirstInTime(c, holder, w0, s, q, clock.(now := t2));
  }

  /** Nothing was issued yet, so no timer is to come. */
  lemma FirstInTime(c: Cast, holder: Game, w0: World, s: Signal<Id, GameInput>, q: GameState, clock: Clock)
    requires Bare(w0) && s.input.StartSending? && CoveredThroughout(c, holder, w0.pipe, clock) && HeldLast(w0.pipe)
    requires Busy(holder, clock)
    requires OnItsWay(holder, s, Deadline(w0.pipe, HolderId(c, holder)), Deadline(w0.pipe, OtherId(c, holder)), clock)
    requires Safe(Deadline(w0.pipe, HolderId(c, holder)), clock)
    ensures TimesOk(c, holder, Sent(With(c, w0, MenuReady, PingSending, q), c.pong,
                                    PongPacket(Packet(0, c.ping, s.input.who))), clock)
  {
    var w1 := Sent(With(c, w0, MenuReady, PingSending, q), c.pong, PongPacket(Packet(0, c.ping, s.input.who)));
    OneSignal(holder, w1, Signal(c.pong, PongPacket(Packet(0, c.ping, s.input.who))),
              Deadline(w0.pipe, HolderId(c, holder)), Deadline(w0.pipe, OtherId(c, holder)), clock);
  }

  lemma DispatchInTime(c: Cast, holder: Game, w: World, p: GameState, q: GameState, clock: Clock, t1: int, t2: int)
    returns (p': GameState, q': GameState)
    requires OnTime(c, holder, w, p, q, clock) && Head(w.signals).Some? && clock.now < t1 <= t2
    ensures Next(c, w, Dispatch(t1, t2)).Some?
    ensures OnTime(c, holder, Next(c, w, Dispatch(t1, t2)).value, p', q', clock.(now := t2))
  {
    var s := Head(w.signals).value;
    PacketTaken(c, holder, w, s, p, q, clock);
    if s.input.StartSending? {
      var _ := StartInTime(c, holder, w, s, p, q, clock, t1, t2);
      return PingSending, q;
    }
    if s.id == c.ping {
      PingInTime(c, holder, w, s, p, q, clock, t1, t2);
      return p, q;
    }
    PongInTime(c, holder, w, s, p, q, clock, t1, t2);
    return p, PongMoved(s, q);
  }

  // ---------------------------------------------------------------------------
  // Routing, receiving and emitting

  lemma RouteInTime(c: Cast, holder: Game, w: World, p: GameState, q: GameState, clock: Clock)
    requires OnTime(c, holder, w, p, q, clock) && w.pipe.lane != []
    ensures OnTime(c, holder, w.(pipe := After(w.pipe, Route)), p, q, clock)
  {
    RouteKeeps(c, w, MenuReady, p, q);
    RouteCovered(c, holder, w.pipe, clock);
    DeadlineStep(w.pipe, Route, HolderId(c, holder));
    DeadlineStep(w.pipe, Route, OtherId(c, holder));
    assert w.pipe.lane[0] in w.pipe.lane;
  }

  lemma RouteCovered(c: Cast, holder: Game, p: Pipe<Id, Packet>, clock: Clock)
    requires CoveredThroughout(c, holder, p, clock) && HeldLast(p) && p.lane != []
    ensures CoveredThroughout(c, holder, After(p, Route), clock) && HeldLast(After(p, Route))
  {
    var p' := After(p, Route);
    assert p'.chan + p'.lane == p.chan + p.lane;
    forall k: nat | k <= |p'.chan + p'.lane| ensures CoveredAt(c, holder, p', k, clock) {
      assert CoveredAt(c, holder, p, k, clock);
    }
  }

  lemma ReceiveInTime(c: Cast, holder: Game, w: World, p: GameState, q: GameState, clock: Clock)
    requires OnTime(c, holder, w, p, q, clock) && w.pipe.chan != []
    ensures OnTime(c, holder, w.(pipe := After(w.pipe, Receive)), p, q, clock)
  {
    ReceiveKeeps(c, w, MenuReady, p, q);
    ReceiveCovered(c, holder, w.pipe, clock);
    ReceiveHeldLast(w.pipe);
    DeadlineStep(w.pipe, Receive, HolderId(c, holder));
    DeadlineStep(w.pipe, Receive, OtherId(c, holder));
    KeptReceived(holder, w, Deadline(w.pipe, HolderId(c, holder)), Deadline(w.pipe, OtherId(c, holder)), clock);
  }

  lemma ReceiveCovered(c: Cast, holder: Game, p: Pipe<Id, Packet>, clock: Clock)
    requires CoveredThroughout(c, holder, p, clock) && p.chan != []
    ensures CoveredThroughout(c, holder, After(p, Receive), clock)
  {
    var p', rs := After(p, Receive), p.chan + p.lane;
    assert p'.chan + p'.lane == rs[1..];
    forall k: nat | k <= |p'.chan + p'.lane| ensures CoveredAt(c, holder, p', k, clock) {
      assert CoveredAt(c, holder, p, k + 1, clock);
      assert rs[..k + 1][0] == p.chan[0] && rs[..k + 1][1..] == rs[1..][..k];
      DeadlineAfterFirst(p.ledger, rs[..k + 1], HolderId(c, holder));
      DeadlineAfterFirst(p.ledger, rs[..k + 1], OtherId(c, holder));
    }
  }

  lemma ReceiveHeldLast(p: Pipe<Id, Packet>)
    requires HeldLast(p) && p.chan != []
    ensures HeldLast(After(p, Receive))
  {
    var p', rs := After(p, Receive), p.chan + p.lane;
    assert p'.chan + p'.lane == rs[1..] && rs[0] == p.chan[0];
    forall at: int, x: (Id, Packet) | at in p'.ledger.held && x in p'.ledger.held[at] ensures rs[1..] == [] {
      assert (at in p.ledger.held && x in p.ledger.held[at]) || rs[0].op.Retain?;
    }
  }

  lemma KeptReceived(holder: Game, w: World, own: Option<int>, other: Option<int>, clock: Clock)
    requires AllOnTime(holder, w, own, other, clock) && w.pipe.chan != []
    ensures AllOnTime(holder, w.(pipe := After(w.pipe, Receive)), own, other, clock)
  {
    var r, held := w.pipe.chan[0], w.pipe.ledger.held;
    var held' := Applied(w.pipe.ledger, r).held;
    forall at: int, x: (Id, Packet) | at in held' && x in held'[at]
      ensures KeptUntil(holder, x.1, at, own, other, clock)
    {
      assert (at in held && x in held[at]) || (r.op.Retain? && at == r.op.at && x == (r.id, r.op.item));
    }
  }

  lemma EmitInTime(c: Cast, holder: Game, w: World, p: GameState, q: GameState, clock: Clock)
    requires OnTime(c, holder, w, p, q, clock) && w.outbox != []
    ensures OnTime(c, holder, w.(signals := PushedFront(w.signals, w.outbox[0]), outbox := w.outbox[1..]), p, q, clock)
  {
    EmitKeeps(c, w, MenuReady, p, q);
  }
}

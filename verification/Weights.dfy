/** Adding up weights over everything in flight in a game: used with one set of
    weights to count packet tokens, and with another to bound the number of steps. */
module InFlight {
  import opened Base
  import opened StreamQueue
  import opened Timers
  import opened Pipeline
  import opened PingPong
  import opened TimeoutManagers

  ghost function Sum<T(!new)>(xs: seq<T>, f: T -> nat): (n: nat) {
    if xs == [] then 0 else f(xs[0]) + Sum(xs[1..], f)
  }

  lemma {:induction false} SumConcat<T(!new)>(a: seq<T>, b: seq<T>, f: T -> nat)
    ensures Sum(a + b, f) == Sum(a, f) + Sum(b, f)
    decreases |a|
  {
    if a == [] {
      assert a + b == b;
    } else {
      assert (a + b)[1..] == a[1..] + b;
      SumConcat(a[1..], b, f);
    }
  }

  lemma SumSnoc<T(!new)>(a: seq<T>, x: T, f: T -> nat)
    ensures Sum(a + [x], f) == Sum(a, f) + f(x)
  {
    SumConcat(a, [x], f);
    assert [x][1..] == [];
  }

  lemma {:induction false} SumMember<T(!new)>(a: seq<T>, x: T, f: T -> nat)
    requires x in a
    ensures Sum(a, f) >= f(x)
  {
    if a[0] != x {
      SumMember(a[1..], x, f);
    }
  }

  /** Weight of a signal in the queue and in the outbox, of a request in the lane and
      in the channel, of a held item, and of an armed timer. */
  datatype Weights = Weights(
    queued: Signal<Id, GameInput> -> nat,
    boxed: Signal<Id, GameInput> -> nat,
    lane: Request<Id, Packet> -> nat,
    chan: Request<Id, Packet> -> nat,
    held: ((Id, Packet)) -> nat,
    armed: nat)

  ghost function PipeTotal(p: Pipe<Id, Packet>, k: Weights): (n: nat) {
    Sum(p.lane, k.lane) + Sum(p.chan, k.chan) + Sum(Flat(p.ledger.held), k.held) + k.armed * |p.ledger.armed|
  }

  ghost function Total(w: World, k: Weights): (n: nat) {
    Sum(w.signals.front, k.queued) + Sum(w.signals.back, k.queued) + Sum(w.outbox, k.boxed) + PipeTotal(w.pipe, k)
  }

  lemma TotalPopped(w: World, k: Weights)
    requires Head(w.signals).Some?
    ensures Total(w.(signals := Popped(w.signals)), k) + k.queued(Head(w.signals).value) == Total(w, k)
  {
  }

  lemma TotalSent(w: World, id: Id, input: GameInput, k: Weights)
    ensures Total(Sent(w, id, input), k) == Total(w, k) + k.queued(Signal(id, input))
  {
    SumSnoc(w.signals.back, Signal(id, input), k.queued);
  }

  lemma TotalRequested(w: World, id: Id, op: Operation<Packet>, k: Weights)
    ensures Total(Requested(w, id, op), k) == Total(w, k) + k.lane(Request(id, op))
  {
    SumSnoc(w.pipe.lane, Request(id, op), k.lane);
  }

  lemma TotalEmit(w: World, k: Weights)
    requires w.outbox != []
    ensures Total(w.(signals := PushedFront(w.signals, w.outbox[0]), outbox := w.outbox[1..]), k) + k.boxed(w.outbox[0])
         == Total(w, k) + k.queued(w.outbox[0])
  {
    SumSnoc(w.signals.front, w.outbox[0], k.queued);
  }

  lemma TotalRoute(w: World, k: Weights)
    requires w.pipe.lane != []
    ensures Total(w.(pipe := After(w.pipe, Route)), k) + k.lane(w.pipe.lane[0])
         == Total(w, k) + k.chan(w.pipe.lane[0])
  {
    SumSnoc(w.pipe.chan, w.pipe.lane[0], k.chan);
  }

  /** What a received request adds to the ledger's share. */
  ghost function Gain(r: Request<Id, Packet>, k: Weights): (n: nat) {
    match r.op
    case Cancel => 0
    case Set(_) => k.armed
    case Retain(item, _) => k.held((r.id, item))
  }

  lemma TimesMonotone(k: nat, a: nat, b: nat)
    requires a <= b
    ensures k * a <= k * b && k * (a + 1) == k * a + k
  {
  }

  lemma CancelledArmed(l: Ledger<Id, Packet>, id: Id, k: nat)
    ensures k * |Applied(l, Request(id, Cancel)).armed| <= k * |l.armed|
  {
    var armed := Applied(l, Request(id, Cancel)).armed;
    assert armed.Keys == l.armed.Keys - {id};
    assert |armed| == |armed.Keys| && |l.armed| == |l.armed.Keys|;
    TimesMonotone(k, |armed|, |l.armed|);
  }

  lemma SetArmed(l: Ledger<Id, Packet>, id: Id, at: int, k: nat)
    ensures k * |Applied(l, Request(id, Set(at))).armed| <= k * |l.armed| + k
  {
    var armed := Applied(l, Request(id, Set(at))).armed;
    assert armed.Keys == l.armed.Keys + {id};
    assert |armed| == |armed.Keys| && |l.armed| == |l.armed.Keys|;
    TimesMonotone(k, |armed|, |l.armed| + 1);
    TimesMonotone(k, |l.armed|, |l.armed|);
  }

  lemma RetainHeld(l: Ledger<Id, Packet>, id: Id, item: Packet, at: int, held: ((Id, Packet)) -> nat)
    ensures Sum(Flat(Applied(l, Request(id, Retain(item, at))).held), held)
        == Sum(Flat(l.held), held) + held((id, item))
  {
    var a, b := FlatHold(l.held, at, (id, item));
    SumConcat(a, b, held);
    SumConcat(a + [(id, item)], b, held);
    SumSnoc(a, (id, item), held);
  }

  lemma LedgerReceive(l: Ledger<Id, Packet>, r: Request<Id, Packet>, k: Weights)
    ensures k.armed * |Applied(l, r).armed| + Sum(Flat(Applied(l, r).held), k.held)
         <= k.armed * |l.armed| + Sum(Flat(l.held), k.held) + Gain(r, k)
  {
    match r.op
    case Cancel => CancelledArmed(l, r.id, k.armed);
    case Set(at) => SetArmed(l, r.id, at, k.armed);
    case Retain(item, at) => RetainHeld(l, r.id, item, at, k.held);
  }

  lemma TotalReceive(w: World, k: Weights)
    requires w.pipe.chan != []
    ensures Total(w.(pipe := After(w.pipe, Receive)), k) + k.chan(w.pipe.chan[0])
         <= Total(w, k) + Gain(w.pipe.chan[0], k)
  {
    LedgerReceive(w.pipe.ledger, w.pipe.chan[0], k);
  }

  // ---------------------------------------------------------------------------
  // Ticks

  lemma {:induction false} DistinctCount<T(!new)>(xs: seq<T>)
    requires forall a, b | 0 <= a < b < |xs| :: xs[a] != xs[b]
    ensures |set x | x in xs| == |xs|
  {
    if xs != [] {
      var n := |xs| - 1;
      DistinctCount(xs[..n]);
      assert (set x | x in xs) == (set x | x in xs[..n]) + {xs[n]};
      assert xs[n] !in xs[..n];
    }
  }

  lemma ExpiryCount(l: Ledger<Id, Packet>, now: int, order: seq<Id>)
    requires ExpiryOrder(l.armed, now, order)
    ensures |Ticked(l, now).armed| + |order| == |l.armed|
  {
    var gone := set x | x in order;
    DistinctCount(order);
    var kept := Ticked(l, now).armed;
    assert l.armed.Keys == kept.Keys + gone && kept.Keys !! gone;
    assert |l.armed.Keys| == |kept.Keys| + |gone|;
    assert |l.armed| == |l.armed.Keys| && |kept| == |kept.Keys|;
  }

  /** The players, as opposed to the menu: their timers and items come back. */
  ghost predicate Player(id: Id) {
    id.kind == Ping || id.kind == Pong
  }

  lemma {:induction false} TimeoutSignalsTotal(order: seq<Id>, now: int, k: Weights)
    requires forall id | id in order :: Player(id)
    requires Consistent(k)
    ensures Sum(TimeoutSignals(order, now, TimeoutInput), k.boxed) == k.armed * |order|
  {
    if order != [] {
      var n := |order| - 1;
      var id := order[n];
      assert id in order && Player(id);
      TimeoutSignalsTotal(order[..n], now, k);
      SumSnoc(TimeoutSignals(order[..n], now, TimeoutInput), Signal(id, TimeoutInput(id, now).value), k.boxed);
      TimesMonotone(k.armed, n, n);
    }
  }

  lemma {:induction false} ReturnSignalsTotal(pairs: seq<(Id, Packet)>, k: Weights)
    requires forall x | x in pairs :: Player(x.0)
    requires Consistent(k)
    ensures Sum(ReturnSignals(pairs, ReturnItem), k.boxed) == Sum(pairs, k.held)
  {
    if pairs != [] {
      var n := |pairs| - 1;
      var x := pairs[n];
      assert x in pairs && Player(x.0);
      ReturnSignalsTotal(pairs[..n], k);
      SumSnoc(ReturnSignals(pairs[..n], ReturnItem), Signal(x.0, ReturnItem(x.0, x.1).value), k.boxed);
      SumSnoc(pairs[..n], x, k.held);
      assert pairs == pairs[..n] + [x];
    }
  }

  /** The weights agree on a timer or item and the signal it comes back as. */
  ghost predicate Consistent(k: Weights) {
    && (forall id, now | Player(id) :: k.boxed(Signal(id, TimeoutInput(id, now).value)) == k.armed)
    && (forall x: (Id, Packet) | Player(x.0) :: k.boxed(Signal(x.0, ReturnItem(x.0, x.1).value)) == k.held(x))
  }

  ghost predicate OnlyPlayers(l: Ledger<Id, Packet>) {
    && (forall id | id in l.armed :: Player(id))
    && (forall x | x in Flat(l.held) :: Player(x.0))
  }

  lemma ReleasedTotal(l: Ledger<Id, Packet>, now: int, order: seq<Id>, k: Weights)
    requires ExpiryOrder(l.armed, now, order) && OnlyPlayers(l) && Consistent(k)
    ensures Sum(TimeoutSignals(order, now, TimeoutInput) + ReturnSignals(Flat(Before(l.held, now)), ReturnItem),
                k.boxed)
         == k.armed * |order| + Sum(Flat(Before(l.held, now)), k.held)
  {
    var due := Flat(Before(l.held, now));
    FlatSplit(l.held, now);
    assert forall x | x in due :: x in Flat(l.held);
    TimeoutSignalsTotal(order, now, k);
    ReturnSignalsTotal(due, k);
    SumConcat(TimeoutSignals(order, now, TimeoutInput), ReturnSignals(due, ReturnItem), k.boxed);
  }

  lemma TimesSum(k: nat, a: nat, b: nat)
    ensures k * (a + b) == k * a + k * b
  {
  }

  lemma PipeTick(p: Pipe<Id, Packet>, now: int, order: seq<Id>, k: Weights)
    requires ExpiryOrder(p.ledger.armed, now, order)
    ensures PipeTotal(After(p, Tick(now)), k)
              + (k.armed * |order| + Sum(Flat(Before(p.ledger.held, now)), k.held))
         == PipeTotal(p, k)
  {
    var l := p.ledger;
    FlatSplit(l.held, now);
    SumConcat(Flat(Before(l.held, now)), Flat(From(l.held, now)), k.held);
    ExpiryCount(l, now, order);
    TimesSum(k.armed, |Ticked(l, now).armed|, |order|);
  }

  /** A tick only moves weight from the ledger to the outbox. */
  lemma TotalTick(w: World, now: int, order: seq<Id>, k: Weights)
    requires w.outbox == [] && ExpiryOrder(w.pipe.ledger.armed, now, order)
    requires OnlyPlayers(w.pipe.ledger) && Consistent(k)
    ensures Total(w.(pipe := After(w.pipe, Tick(now)),
                     outbox := TimeoutSignals(order, now, TimeoutInput)
                               + ReturnSignals(Flat(Before(w.pipe.ledger.held, now)), ReturnItem)), k)
         == Total(w, k)
  {
    PipeTick(w.pipe, now, order, k);
    ReleasedTotal(w.pipe.ledger, now, order, k);
  }
}

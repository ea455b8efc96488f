/** The tick loop (src/timeout.rs:335-368): expired timers and due items become
    priority signals. `timeoutInput` and `returnItem` are the callbacks that a kind
    supplies. */
module TimeoutManagers {
  import opened Base
  import opened Timers
  import opened StreamQueue

  ghost function Emitted<Id, Input>(id: Id, input: Option<Input>): (signals: seq<Signal<Id, Input>>) {
    if input.Some? then [Signal(id, input.value)] else []
  }

  /** One signal per id that supports timeouts, in the given order. */
  ghost function TimeoutSignals<Id, Input>(
      order: seq<Id>, now: int, timeoutInput: (Id, int) -> Option<Input>): (signals: seq<Signal<Id, Input>>)
  {
    if order == [] then [] else
      var n := |order| - 1;
      TimeoutSignals(order[..n], now, timeoutInput)
      + Emitted(order[n], timeoutInput(order[n], now))
  }

  ghost function ReturnSignals<Id, Item, Input>(
      pairs: seq<(Id, Item)>, returnItem: (Id, Item) -> Option<Input>): (signals: seq<Signal<Id, Input>>)
  {
    if pairs == [] then [] else
      var n := |pairs| - 1;
      ReturnSignals(pairs[..n], returnItem)
      + Emitted(pairs[n].0, returnItem(pairs[n].0, pairs[n].1))
  }

  /** Where every id supports timeouts, the signals are one per id, in the given order. */
  lemma {:induction false} TimeoutsInOrder<Id, Input>(
      order: seq<Id>, now: int, timeoutInput: (Id, int) -> Option<Input>)
    requires forall id | id in order :: timeoutInput(id, now).Some?
    ensures var signals := TimeoutSignals(order, now, timeoutInput);
            |signals| == |order|
            && forall i | 0 <= i < |order| :: signals[i] == Signal(order[i], timeoutInput(order[i], now).value)
  {
    if order != [] {
      var n := |order| - 1;
      assert order[n] in order && forall id | id in order[..n] :: id in order;
      TimeoutsInOrder(order[..n], now, timeoutInput);
    }
  }

  /** And where every id takes items back, one per item. */
  lemma {:induction false} ReturnsInOrder<Id, Item, Input>(
      pairs: seq<(Id, Item)>, returnItem: (Id, Item) -> Option<Input>)
    requires forall x | x in pairs :: returnItem(x.0, x.1).Some?
    ensures var signals := ReturnSignals(pairs, returnItem);
            |signals| == |pairs|
            && forall i | 0 <= i < |pairs| :: signals[i] == Signal(pairs[i].0, returnItem(pairs[i].0, pairs[i].1).value)
  {
    if pairs != [] {
      var n := |pairs| - 1;
      assert pairs[n] in pairs && forall x | x in pairs[..n] :: x in pairs;
      ReturnsInOrder(pairs[..n], returnItem);
    }
  }

  /** The ids already released, and those still to be: `todo` holds later instants
      and `here` what is left of the instant `at`. */
  ghost predicate Releasing<Id>(
      armed: map<Id, int>, now: int, order: seq<Id>, at: int, here: set<Id>, todo: map<int, set<Id>>)
  {
    && (forall i | i in order :: i in armed && armed[i] < now && armed[i] <= at)
    && (forall i | i in here :: i in armed && armed[i] == at && i !in order)
    && (forall d | d in todo :: at < d < now)
    && (forall d, i | d in todo && i in todo[d] :: i in armed && armed[i] == d)
    && (forall i | i in armed && armed[i] < now :: i in order || i in here || (armed[i] in todo && i in todo[armed[i]]))
    && (forall a, b | 0 <= a < b < |order| :: order[a] != order[b] && armed[order[a]] <= armed[order[b]])
  }

  ghost predicate Released<Id>(armed: map<Id, int>, order: seq<Id>, ids: map<Id, int>) {
    ids == map i | i in armed && i !in order :: armed[i]
  }

  lemma Advance<Id>(
      armed: map<Id, int>, now: int, order: seq<Id>, at: int, here: set<Id>, todo: map<int, set<Id>>, id: Id)
    requires Releasing(armed, now, order, at, here, todo) && id in here && at < now
    ensures Releasing(armed, now, order + [id], at, here - {id}, todo)
  {
    assert forall i | i in order + [id] :: i in order || i == id;
    assert forall i | i in order :: i in order + [id];
    assert (order + [id])[|order|] == id;
    var all := order + [id];
    forall a, b | 0 <= a < b < |all| ensures all[a] != all[b] && armed[all[a]] <= armed[all[b]] {
      assert all[a] == order[a] && order[a] in order;
    }
  }

  lemma OneMoreReleased<Id>(armed: map<Id, int>, order: seq<Id>, ids: map<Id, int>, id: Id)
    requires Released(armed, order, ids)
    ensures Released(armed, order + [id], ids - {id})
  {
    assert forall i :: i in order + [id] <==> i in order || i == id;
  }

  lemma OneMoreTimeout<Id, Input>(order: seq<Id>, id: Id, now: int, timeoutInput: (Id, int) -> Option<Input>)
    ensures TimeoutSignals(order + [id], now, timeoutInput)
         == TimeoutSignals(order, now, timeoutInput) + Emitted(id, timeoutInput(id, now))
  {
    assert (order + [id])[..|order|] == order;
  }

  /** On to the next instant. */
  lemma NextInstant<Id>(
      armed: map<Id, int>, now: int, order: seq<Id>, last: int, todo: map<int, set<Id>>, at: int)
    requires Releasing(armed, now, order, last, {}, todo) && at in todo && forall d | d in todo :: at <= d
    ensures at < now && Releasing(armed, now, order, at, todo[at], todo - {at})
  {
    assert forall i | i in order :: armed[i] < at;
  }

  lemma Start<Id>(armed: map<Id, int>, timers: map<int, set<Id>>, now: int) returns (last: int)
    requires forall i | i in armed :: armed[i] in timers && i in timers[armed[i]]
    requires forall d, i | d in timers && i in timers[d] :: i in armed && armed[i] == d
    ensures Releasing(armed, now, [], last, {}, Before(timers, now))
    ensures Released(armed, [], armed)
  {
    var release := Before(timers, now);
    last := if release.Keys == {} then now else Least(release.Keys) - 1;
  }

  /** When nothing is left to release, both indexes hold the timers from `now` on. */
  lemma Finish<Id>(armed: map<Id, int>, timers: map<int, set<Id>>, now: int, order: seq<Id>, last: int,
                   ids: map<Id, int>)
    requires forall i | i in armed :: armed[i] in timers && i in timers[armed[i]]
    requires forall d, i | d in timers && i in timers[d] :: i in armed && armed[i] == d
    requires Releasing(armed, now, order, last, {}, map[]) && Released(armed, order, ids)
    ensures ExpiryOrder(armed, now, order)
    ensures ids == map i | i in armed && armed[i] >= now :: armed[i]
    ensures var kept := From(timers, now);
            && (forall i | i in ids :: ids[i] in kept && i in kept[ids[i]])
            && (forall d, i | d in kept && i in kept[d] :: i in ids && ids[i] == d)
  {
  }

  class TimeoutManager<Id(==), Item, Input> {
    const ledger: TimeoutLedger<Id, Item>
    const signalQueue: StreamableDeque<Signal<Id, Input>>
    const timeoutInput: (Id, int) -> Option<Input>
    const returnItem: (Id, Item) -> Option<Input>

    constructor (ledger: TimeoutLedger<Id, Item>, signalQueue: StreamableDeque<Signal<Id, Input>>,
                 timeoutInput: (Id, int) -> Option<Input>, returnItem: (Id, Item) -> Option<Input>)
      ensures this.ledger == ledger && this.signalQueue == signalQueue
      ensures this.timeoutInput == timeoutInput && this.returnItem == returnItem
    {
      this.ledger, this.signalQueue := ledger, signalQueue;
      this.timeoutInput, this.returnItem := timeoutInput, returnItem;
    }

    ghost predicate Valid()
      reads ledger, signalQueue
    {
      ledger.Valid() && signalQueue.Valid()
    }

    /** Since the queue was `was`, `signals` joined its priority lane, nothing joined the
        normal one, and each signal woke one receiver. */
    ghost predicate Queued(was: Deque<Signal<Id, Input>>, signals: seq<Signal<Id, Input>>)
      reads signalQueue
    {
      && signalQueue.Valid() && Grown(was, signalQueue.View())
      && signalQueue.front == was.lanes.front + signals && signalQueue.back == was.lanes.back
    }

    /** So as many of the first registered receivers are off the list, flagged and woken
        as there are signals, or all of them. */
    lemma QueuedAwakes(was: Deque<Signal<Id, Input>>, signals: seq<Signal<Id, Input>>)
      requires Queued(was, signals)
      ensures Awoken(was, signalQueue.View(), |signals|)
    {
      GrownAwakes(was, signalQueue.View());
      assert Size(signalQueue.View().lanes) - Size(was.lanes) == |signals|;
    }

    /** One tick. The ghost result is the order in which the expired ids came out;
        inside one instant it is any order. */
    method Tick(now: int) returns (ghost order: seq<Id>)
      requires Valid()
      modifies ledger, signalQueue
      ensures Valid()
      ensures ExpiryOrder(old(ledger.ids), now, order)
      ensures ledger.View() == Ticked(old(ledger.View()), now)
      ensures forall d | d in ledger.timers :: d >= now
      ensures Queued(old(signalQueue.View()),
                     TimeoutSignals(order, now, timeoutInput)
                     + ReturnSignals(Flat(Before(old(ledger.retainer), now)), returnItem))
    {
      ghost var start := signalQueue.View();
      order := ReleaseTimers(now);
      ghost var mid := signalQueue.View();
      var due := TakeDue(now);
      ReturnItems(due);
      QueuedOn(start, mid, TimeoutSignals(order, now, timeoutInput), ReturnSignals(Flat(due), returnItem));
    }

    method TakeDue(now: int) returns (due: map<int, seq<(Id, Item)>>)
      requires Valid()
      modifies ledger`retainer
      ensures Valid()
      ensures due == Before(old(ledger.retainer), now) && ledger.retainer == From(old(ledger.retainer), now)
    {
      due := map k | k in ledger.retainer && k < now :: ledger.retainer[k];
      ledger.retainer := map k | k in ledger.retainer && k >= now :: ledger.retainer[k];
    }

    lemma QueuedOn(start: Deque<Signal<Id, Input>>, mid: Deque<Signal<Id, Input>>, first: seq<Signal<Id, Input>>,
                   more: seq<Signal<Id, Input>>)
      requires Grown(start, mid) && Queued(mid, more)
      requires mid.lanes == Lanes(start.lanes.front + first, start.lanes.back)
      ensures Queued(start, first + more)
    {
      GrownOn(start, mid, signalQueue.View());
      Regroup(start.lanes.front, first, more);
    }

    method ReleaseTimers(now: int) returns (ghost order: seq<Id>)
      requires Valid()
      modifies ledger`timers, ledger`ids, signalQueue
      ensures Valid()
      ensures ExpiryOrder(old(ledger.ids), now, order)
      ensures ledger.ids == Ticked(old(ledger.View()), now).armed
      ensures forall d | d in ledger.timers :: d >= now
      ensures Queued(old(signalQueue.View()), TimeoutSignals(order, now, timeoutInput))
    {
      ghost var armed, timers := ledger.ids, ledger.timers;
      var release := map k | k in ledger.timers && k < now :: ledger.timers[k];
      ledger.timers := map k | k in ledger.timers && k >= now :: ledger.timers[k];
      ghost var first := Start(armed, timers, now);
      assert release == Before(timers, now);
      ghost var last;
      order, last := ReleaseAll(release, now, armed, first);
      Finish(armed, timers, now, order, last, ledger.ids);
    }

    /** Instant after instant, earliest first. */
    method ReleaseAll(due: map<int, set<Id>>, now: int, ghost armed: map<Id, int>, ghost first: int)
      returns (ghost order: seq<Id>, ghost last: int)
      requires signalQueue.Valid()
      requires Releasing(armed, now, [], first, {}, due) && Released(armed, [], ledger.ids)
      modifies ledger`ids, signalQueue
      ensures Releasing(armed, now, order, last, {}, map[]) && Released(armed, order, ledger.ids)
      ensures Queued(old(signalQueue.View()), TimeoutSignals(order, now, timeoutInput))
    {
      ghost var start := signalQueue.View();
      Ungrown(start);
      var release := due;
      order, last := [], first;
      while |release| > 0
        invariant Releasing(armed, now, order, last, {}, release)
        invariant Released(armed, order, ledger.ids)
        invariant Queued(start, TimeoutSignals(order, now, timeoutInput))
        decreases release.Keys
      {
        var at := FirstKey(release.Keys);
        var here := release[at];
        NextInstant(armed, now, order, last, release, at);
        release := release - {at};
        order := ReleaseInstant(at, here, now, armed, order, release, start);
        last := at;
      }
      assert release == map[];
    }

    /** The ids of one instant, in any order. */
    method ReleaseInstant(at: int, ids: set<Id>, now: int, ghost armed: map<Id, int>, ghost before: seq<Id>,
                          ghost todo: map<int, set<Id>>, ghost start: Deque<Signal<Id, Input>>)
      returns (ghost order: seq<Id>)
      requires at < now
      requires Releasing(armed, now, before, at, ids, todo) && Released(armed, before, ledger.ids)
      requires Queued(start, TimeoutSignals(before, now, timeoutInput))
      modifies ledger`ids, signalQueue
      ensures Releasing(armed, now, order, at, {}, todo) && Released(armed, order, ledger.ids)
      ensures Queued(start, TimeoutSignals(order, now, timeoutInput))
    {
      var here := ids;
      order := before;
      while here != {}
        invariant Releasing(armed, now, order, at, here, todo) && Released(armed, order, ledger.ids)
        invariant Queued(start, TimeoutSignals(order, now, timeoutInput))
        decreases here
      {
        var id :| id in here;
        ReleaseOne(id, now, armed, order, start, at, here, todo);
        here, order := here - {id}, order + [id];
      }
    }

    method ReleaseOne(id: Id, now: int, ghost armed: map<Id, int>, ghost before: seq<Id>,
                      ghost start: Deque<Signal<Id, Input>>, ghost at: int, ghost here: set<Id>,
                      ghost todo: map<int, set<Id>>)
      requires at < now && id in here
      requires Releasing(armed, now, before, at, here, todo) && Released(armed, before, ledger.ids)
      requires Queued(start, TimeoutSignals(before, now, timeoutInput))
      modifies ledger`ids, signalQueue
      ensures Releasing(armed, now, before + [id], at, here - {id}, todo) && Released(armed, before + [id], ledger.ids)
      ensures Queued(start, TimeoutSignals(before + [id], now, timeoutInput))
    {
      ReleaseId(id, now, armed, before, start);
      Advance(armed, now, before, at, here, todo, id);
    }

    method ReleaseId(id: Id, now: int, ghost armed: map<Id, int>, ghost before: seq<Id>,
                     ghost start: Deque<Signal<Id, Input>>)
      requires Released(armed, before, ledger.ids)
      requires Queued(start, TimeoutSignals(before, now, timeoutInput))
      modifies ledger`ids, signalQueue
      ensures Released(armed, before + [id], ledger.ids)
      ensures Queued(start, TimeoutSignals(before + [id], now, timeoutInput))
    {
      OneMoreReleased(armed, before, ledger.ids, id);
      OneMoreTimeout(before, id, now, timeoutInput);
      ledger.ids := ledger.ids - {id};
      Emit(id, timeoutInput(id, now), start, TimeoutSignals(before, now, timeoutInput));
    }

    method Emit(id: Id, input: Option<Input>, ghost start: Deque<Signal<Id, Input>>,
                ghost signals: seq<Signal<Id, Input>>)
      requires Queued(start, signals)
      modifies signalQueue
      ensures Queued(start, signals + Emitted(id, input))
    {
      Regroup(start.lanes.front, signals, Emitted(id, input));
      if input.Some? {
        ghost var mid := signalQueue.View();
        signalQueue.PushFront(Signal(id, input.value));
        GrownOn(start, mid, signalQueue.View());
      }
    }

    method FirstKey(keys: set<int>) returns (k: int)
      requires keys != {}
      ensures k in keys && forall j | j in keys :: k <= j
    {
      LeastExists(keys);
      k :| k in keys && forall j | j in keys :: k <= j;
    }

    method ReturnItems(due: map<int, seq<(Id, Item)>>)
      requires signalQueue.Valid()
      modifies signalQueue
      ensures Queued(old(signalQueue.View()), ReturnSignals(Flat(due), returnItem))
    {
      ghost var start := signalQueue.View();
      Ungrown(start);
      var release := due;
      ghost var done := [];
      while |release| > 0
        invariant done + Flat(release) == Flat(due)
        invariant Queued(start, ReturnSignals(done, returnItem))
        decreases release.Keys
      {
        var at := FirstKey(release.Keys);
        ReturnKey(release, at, start, done);
        done := done + release[at];
        release := release - {at};
      }
      assert release == map[] && done + [] == done;
    }

    method ReturnKey(release: map<int, seq<(Id, Item)>>, at: int, ghost start: Deque<Signal<Id, Input>>,
                     ghost done: seq<(Id, Item)>)
      requires at in release && forall d | d in release :: at <= d
      requires Queued(start, ReturnSignals(done, returnItem))
      modifies signalQueue
      ensures Queued(start, ReturnSignals(done + release[at], returnItem))
      ensures done + release[at] + Flat(release - {at}) == done + Flat(release)
    {
      ReturnInstant(release[at], start, ReturnSignals(done, returnItem));
      Returned(done, release, at, returnItem);
    }

    /** The items of one instant, in the order they were retained. */
    method ReturnInstant(here: seq<(Id, Item)>, ghost start: Deque<Signal<Id, Input>>,
                         ghost signals: seq<Signal<Id, Input>>)
      requires Queued(start, signals)
      modifies signalQueue
      ensures Queued(start, signals + ReturnSignals(here, returnItem))
    {
      assert signals + [] == signals;
      for i := 0 to |here|
        invariant Queued(start, signals + ReturnSignals(here[..i], returnItem))
      {
        var (id, item) := here[i];
        assert here[..i + 1][..i] == here[..i];
        Regroup(signals, ReturnSignals(here[..i], returnItem), Emitted(id, returnItem(id, item)));
        Emit(id, returnItem(id, item), start, signals + ReturnSignals(here[..i], returnItem));
      }
      assert here[..|here|] == here;
    }
  }

  lemma Regroup<T>(a: seq<T>, b: seq<T>, c: seq<T>)
    ensures a + (b + c) == a + b + c
  {
  }

  lemma Returned<Id, Item, Input>(
      done: seq<(Id, Item)>, release: map<int, seq<(Id, Item)>>, at: int,
      returnItem: (Id, Item) -> Option<Input>)
    requires at in release && forall d | d in release :: at <= d
    ensures done + Flat(release) == done + release[at] + Flat(release - {at})
    ensures ReturnSignals(done, returnItem) + ReturnSignals(release[at], returnItem)
         == ReturnSignals(done + release[at], returnItem)
  {
    FlatStep(release, at);
    Regroup(done, release[at], Flat(release - {at}));
    ReturnSignalsConcat(done, release[at], returnItem);
  }

  lemma {:induction false} ReturnSignalsConcat<Id, Item, Input>(
      a: seq<(Id, Item)>, b: seq<(Id, Item)>, returnItem: (Id, Item) -> Option<Input>)
    ensures ReturnSignals(a + b, returnItem) == ReturnSignals(a, returnItem) + ReturnSignals(b, returnItem)
    decreases |b|
  {
    if b == [] {
      assert a + b == a;
    } else {
      var n := |b| - 1;
      var ab, last := a + b, Emitted(b[n].0, returnItem(b[n].0, b[n].1));
      assert ab[..|ab| - 1] == a + b[..n] && ab[|ab| - 1] == b[n];
      ReturnSignalsConcat(a, b[..n], returnItem);
      Regroup(ReturnSignals(a, returnItem), ReturnSignals(b[..n], returnItem), last);
    }
  }
}

/** The two-lane queue with sleeping receivers (src/queue.rs). Every lock-held
    section is one atomic step; the task waker is a mark on the task. An
    `Arc<AtomicBool>` is an index into the flags ever allocated. */
module StreamQueue {
  import opened Base

  datatype Notifier = Notifier(task: nat, flag: nat)

  datatype Lanes<T> = Lanes(front: seq<T>, back: seq<T>)

  datatype Deque<T> = Deque(lanes: Lanes<T>, notifiers: seq<Notifier>, flags: seq<bool>, woken: set<nat>)
  {
    /** Every registered notifier has its flag allocated. */
    ghost predicate Valid() {
      forall i :: 0 <= i < |notifiers| ==> notifiers[i].flag < |flags|
    }
  }

  // ---------------------------------------------------------------------------
  // Steps on values

  ghost function PushedFront<T>(l: Lanes<T>, x: T): (lanes: Lanes<T>) {
    l.(front := l.front + [x])
  }

  ghost function PushedBack<T>(l: Lanes<T>, x: T): (lanes: Lanes<T>) {
    l.(back := l.back + [x])
  }

  ghost function Head<T>(l: Lanes<T>): (r: Option<T>) {
    if l.front != [] then Some(l.front[0]) else if l.back != [] then Some(l.back[0]) else None
  }

  ghost function Popped<T>(l: Lanes<T>): (lanes: Lanes<T>) {
    if l.front != [] then l.(front := l.front[1..])
    else if l.back != [] then l.(back := l.back[1..])
    else l
  }

  ghost function Notified<T>(q: Deque<T>): (r: Deque<T>)
    requires q.Valid()
    ensures r.Valid()
  {
    if q.notifiers == [] then q else
      var n := q.notifiers[0];
      q.(notifiers := q.notifiers[1..], woken := q.woken + {n.task}, flags := q.flags[n.flag := true])
  }

  /** A poll: the task runs, so its wake mark is spent. */
  ghost function Polled<T>(q: Deque<T>, task: nat): (r: Deque<T>)
    requires q.Valid()
    ensures r.Valid()
  {
    var running := q.(woken := q.woken - {task}, lanes := Popped(q.lanes));
    if Head(q.lanes).Some? then running
    else running.(flags := q.flags + [false], notifiers := q.notifiers + [Notifier(task, |q.flags|)])
  }

  /** The receiver's own flag after the poll. */
  ghost function PolledFlag<T>(q: Deque<T>): (r: Option<nat>) {
    if Head(q.lanes).Some? then None else Some(|q.flags|)
  }

  ghost function DroppedBy<T>(q: Deque<T>, awake: Option<nat>): (r: Deque<T>)
    requires q.Valid() && (awake.Some? ==> awake.value < |q.flags|)
  {
    if awake.Some? && q.flags[awake.value] then Notified(q) else q
  }

  // ---------------------------------------------------------------------------
  // Many values

  ghost function NotifiedTimes<T>(q: Deque<T>, k: nat): (r: Deque<T>)
    requires q.Valid()
    ensures r.Valid() && r.lanes == q.lanes
  {
    if k == 0 then q else Notified(NotifiedTimes(q, k - 1))
  }

  ghost function Size<T>(l: Lanes<T>): (n: nat) {
    |l.front| + |l.back|
  }

  /** Every value that joined the queue since it was `was` has woken one receiver, and
      nothing else has changed about the receivers. */
  ghost predicate Grown<T>(was: Deque<T>, now: Deque<T>) {
    && was.Valid() && Size(was.lanes) <= Size(now.lanes)
    && now == NotifiedTimes(was, Size(now.lanes) - Size(was.lanes)).(lanes := now.lanes)
  }

  ghost function TasksOf(ns: seq<Notifier>): (tasks: set<nat>) {
    set n | n in ns :: n.task
  }

  ghost function FlagsOf(ns: seq<Notifier>): (flags: set<nat>) {
    set n | n in ns :: n.flag
  }

  /** Of the registered receivers as many as there are new values, the first ones, or all
      of them if there are fewer, were taken off the list, flagged and woken. */
  ghost predicate Awoken<T>(was: Deque<T>, now: Deque<T>, k: nat) {
    var m := if k < |was.notifiers| then k else |was.notifiers|;
    && now.notifiers == was.notifiers[m..]
    && now.woken == was.woken + TasksOf(was.notifiers[..m])
    && |now.flags| == |was.flags|
    && (forall f | 0 <= f < |was.flags| :: now.flags[f] <==> was.flags[f] || f in FlagsOf(was.notifiers[..m]))
  }

  lemma {:induction false} NotifiedTimesAwakes<T>(q: Deque<T>, k: nat)
    requires q.Valid()
    ensures Awoken(q, NotifiedTimes(q, k), k)
  {
    var ns := q.notifiers;
    if k == 0 {
      assert ns[..0] == [];
    } else {
      NotifiedTimesAwakes(q, k - 1);
      if k <= |ns| {
        assert ns[..k] == ns[..k - 1] + [ns[k - 1]];
        assert forall n :: n in ns[..k] <==> n in ns[..k - 1] || n == ns[k - 1];
      }
    }
  }

  /** Who has been woken when the lanes have grown. */
  lemma GrownAwakes<T>(was: Deque<T>, now: Deque<T>)
    requires Grown(was, now)
    ensures Awoken(was, now, Size(now.lanes) - Size(was.lanes))
  {
    NotifiedTimesAwakes(was, Size(now.lanes) - Size(was.lanes));
  }

  lemma {:induction false} NotifiedTwice<T>(q: Deque<T>, lanes: Lanes<T>, a: nat, b: nat)
    requires q.Valid()
    ensures NotifiedTimes(NotifiedTimes(q, a).(lanes := lanes), b) == NotifiedTimes(q, a + b).(lanes := lanes)
    decreases b
  {
    if b > 0 {
      NotifiedTwice(q, lanes, a, b - 1);
    }
  }

  lemma Ungrown<T>(q: Deque<T>)
    requires q.Valid()
    ensures Grown(q, q)
  {
  }

  /** One push. */
  lemma PushGrows<T>(q: Deque<T>, lanes: Lanes<T>)
    requires q.Valid() && Size(lanes) == Size(q.lanes) + 1
    ensures Grown(q, Notified(q.(lanes := lanes)))
  {
    assert NotifiedTimes(q, 1) == Notified(NotifiedTimes(q, 0));
  }

  lemma GrownOn<T>(was: Deque<T>, mid: Deque<T>, now: Deque<T>)
    requires Grown(was, mid) && Grown(mid, now)
    ensures Grown(was, now)
  {
    NotifiedTwice(was, mid.lanes, Size(mid.lanes) - Size(was.lanes), Size(now.lanes) - Size(mid.lanes));
  }

  // ---------------------------------------------------------------------------
  // The queue and its receivers, in place

  class StreamableDeque<T> {
    var front: seq<T>
    var back: seq<T>
    var notifiers: seq<Notifier>
    var flags: seq<bool>
    var woken: set<nat>

    ghost function View(): (r: Deque<T>)
      reads this
    {
      Deque(Lanes(front, back), notifiers, flags, woken)
    }

    ghost predicate Valid()
      reads this
    {
      View().Valid()
    }

    constructor ()
      ensures Valid() && View() == Deque(Lanes([], []), [], [], {})
    {
      front, back, notifiers, flags, woken := [], [], [], [], {};
    }

    method NotifyRx()
      requires Valid()
      modifies this
      ensures Valid() && View() == Notified(old(View()))
    {
      if |notifiers| > 0 {
        var n := notifiers[0];
        notifiers := notifiers[1..];
        woken := woken + {n.task};
        flags := flags[n.flag := true];
      }
    }

    method PushFront(item: T)
      requires Valid()
      modifies this
      ensures Valid()
      ensures View() == Notified(old(View()).(lanes := PushedFront(old(View()).lanes, item)))
      ensures Grown(old(View()), View())
    {
      PushGrows(View(), PushedFront(View().lanes, item));
      front := front + [item];
      NotifyRx();
    }

    method PushBack(item: T)
      requires Valid()
      modifies this
      ensures Valid()
      ensures View() == Notified(old(View()).(lanes := PushedBack(old(View()).lanes, item)))
      ensures Grown(old(View()), View())
    {
      PushGrows(View(), PushedBack(View().lanes, item));
      back := back + [item];
      NotifyRx();
    }

    method PopFront() returns (r: Option<T>)
      requires Valid()
      modifies this`front, this`back
      ensures Valid() && r == Head(old(View()).lanes)
      ensures View() == old(View()).(lanes := Popped(old(View()).lanes))
    {
      if |front| > 0 {
        r := Some(front[0]);
        front := front[1..];
      } else if |back| > 0 {
        r := Some(back[0]);
        back := back[1..];
      } else {
        r := None;
      }
    }
  }

  class StreamReceiver<T> {
    const queue: StreamableDeque<T>
    const task: nat
    var awake: Option<nat>

    ghost predicate Valid()
      reads this, queue
    {
      queue.Valid() && (awake.Some? ==> awake.value < |queue.flags|)
    }

    constructor (queue: StreamableDeque<T>, task: nat)
      requires queue.Valid()
      ensures Valid() && this.queue == queue && this.task == task && awake == None
    {
      this.queue, this.task, awake := queue, task, None;
    }

    /** `poll_next`; None is `Pending`. */
    method PollNext() returns (r: Option<T>)
      requires Valid()
      modifies this, queue
      ensures Valid() && r == Head(old(queue.View()).lanes)
      ensures queue.View() == Polled(old(queue.View()), task)
      ensures awake == PolledFlag(old(queue.View()))
    {
      queue.woken := queue.woken - {task};
      var value := queue.PopFront();
      if value.Some? {
        awake := None;
        return value;
      }
      var flag := |queue.flags|;
      queue.flags := queue.flags + [false];
      queue.notifiers := queue.notifiers + [Notifier(task, flag)];
      awake := Some(flag);
      r := None;
    }

    /** `Drop::drop`: a receiver that was woken hands the wake-up on. */
    method Drop()
      requires Valid()
      modifies this, queue
      ensures queue.Valid() && queue.View() == DroppedBy(old(queue.View()), old(awake)) && awake == None
    {
      var woke := awake.Some? && queue.flags[awake.value];
      awake := None;
      if woke {
        if |queue.notifiers| > 0 {
          var n := queue.notifiers[0];
          queue.notifiers := queue.notifiers[1..];
          queue.flags := queue.flags[n.flag := true];
          queue.woken := queue.woken + {n.task};
        }
      }
    }
  }
}

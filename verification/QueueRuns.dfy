/** What holds in every interleaving of pushes, polls and drops. */
module QueueRuns {
  import opened Base
  import opened StreamQueue

  /** A queue and its live receivers, each with the flag of its last pending poll. */
  datatype System<T> = System(q: Deque<T>, rx: map<nat, Option<nat>>)

  datatype Step<T> =
    | PushFront(x: T)
    | PushBack(x: T)
    | Pop
    | Open(r: nat)
    | Poll(r: nat)
    | Drop(r: nat)

  /** Flags in use are allocated, no two receivers share one, and a notifier that
      carries a receiver's current flag is that receiver's. */
  ghost predicate Sound<T>(s: System<T>) {
    && s.q.Valid()
    && (forall i, r | 0 <= i < |s.q.notifiers| && r in s.rx && s.rx[r] == Some(s.q.notifiers[i].flag)
          :: r == s.q.notifiers[i].task)
    && (forall r | r in s.rx && s.rx[r].Some? :: s.rx[r].value < |s.q.flags|)
    && (forall a, b | a in s.rx && b in s.rx && s.rx[a].Some? && s.rx[a] == s.rx[b] :: a == b)
  }

  ghost predicate Possible<T>(s: System<T>, st: Step<T>) {
    match st
    case Open(r) => r !in s.rx
    case Poll(r) => r in s.rx
    case Drop(r) => r in s.rx
    case _ => true
  }

  ghost function Applied<T>(s: System<T>, st: Step<T>): (t: System<T>)
    requires Sound(s) && Possible(s, st)
  {
    match st
    case PushFront(x) => s.(q := Notified(s.q.(lanes := PushedFront(s.q.lanes, x))))
    case PushBack(x) => s.(q := Notified(s.q.(lanes := PushedBack(s.q.lanes, x))))
    case Pop => s.(q := s.q.(lanes := Popped(s.q.lanes)))
    case Open(r) => s.(rx := s.rx[r := None])
    case Poll(r) => System(Polled(s.q, r), s.rx[r := PolledFlag(s.q)])
    case Drop(r) => System(DroppedBy(s.q, s.rx[r]), s.rx - {r})
  }

  lemma StaysSound<T>(s: System<T>, st: Step<T>)
    requires Sound(s) && Possible(s, st)
    ensures Sound(Applied(s, st))
  {
  }

  /** The receiver's last poll was pending. */
  ghost predicate Pending<T>(s: System<T>, r: nat) {
    r in s.rx && s.rx[r].Some?
  }

  /** Its last poll was pending and neither its flag nor its task's mark was set
      since: nothing will make it poll again. */
  ghost predicate Waiting<T>(s: System<T>, r: nat)
    requires Sound(s)
  {
    Pending(s, r) && !s.q.flags[s.rx[r].value] && r !in s.q.woken
  }

  /** The receivers whose last poll was pending and whose task was woken since. */
  ghost function Awake<T>(s: System<T>): (tasks: set<nat>)
    ensures tasks <= s.q.woken
  {
    set r | Pending(s, r) && r in s.q.woken
  }

  ghost function Queued<T>(s: System<T>): (n: nat) {
    |s.q.lanes.front| + |s.q.lanes.back|
  }

  // ---------------------------------------------------------------------------
  // Many receivers

  /** A waiting receiver is neither dropped nor polled before it is woken. */
  ghost predicate Disciplined<T>(s: System<T>, st: Step<T>)
    requires Sound(s)
  {
    Possible(s, st) && (st.Poll? || st.Drop? ==> !Waiting(s, st.r))
  }

  /** A notifier stands for the pending poll of a receiver that still waits. */
  ghost predicate Live<T>(s: System<T>, n: Notifier)
    requires Sound(s)
  {
    n.task in s.rx && s.rx[n.task] == Some(n.flag) && Waiting(s, n.task)
  }

  /** The waiter list is exactly the waiting receivers, once each, and the flag of a
      pending poll is set exactly when its task was woken. */
  ghost predicate ListExact<T>(s: System<T>) {
    && Sound(s)
    && (forall r | Pending(s, r) :: s.q.flags[s.rx[r].value] <==> r in s.q.woken)
    && (forall i :: 0 <= i < |s.q.notifiers| ==> Live(s, s.q.notifiers[i]))
    && (forall i, j :: 0 <= i < j < |s.q.notifiers| ==> s.q.notifiers[i].task != s.q.notifiers[j].task)
    && (forall r | Waiting(s, r) :: Notifier(r, s.rx[r].value) in s.q.notifiers)
  }

  /** While some receiver waits, at least as many receivers have been woken as values
      are queued. */
  ghost predicate NoLostWakeup<T>(s: System<T>) {
    ListExact(s) && (s.q.notifiers != [] ==> Queued(s) <= |Awake(s)|)
  }

  lemma LanesAside<T>(s: System<T>, lanes: Lanes<T>)
    requires ListExact(s)
    ensures var t := s.(q := s.q.(lanes := lanes)); ListExact(t) && Awake(t) == Awake(s)
  {
    var t := s.(q := s.q.(lanes := lanes));
    forall i | 0 <= i < |t.q.notifiers| ensures Live(t, t.q.notifiers[i]) {
      assert Live(s, s.q.notifiers[i]);
    }
    forall r | Waiting(t, r) ensures Notifier(r, t.rx[r].value) in t.q.notifiers {
      assert Waiting(s, r);
    }
  }

  lemma NextWokenMarks<T>(s: System<T>)
    requires ListExact(s) && s.q.notifiers != []
    ensures var t, n := s.(q := Notified(s.q)), s.q.notifiers[0];
            Sound(t) && Awake(t) == Awake(s) + {n.task} && n.task !in Awake(s) && !Waiting(t, n.task)
    ensures var t := s.(q := Notified(s.q));
            forall r | Pending(t, r) :: t.q.flags[t.rx[r].value] <==> r in t.q.woken
  {
    var t := s.(q := Notified(s.q));
    var n := s.q.notifiers[0];
    assert Live(s, n);
    assert Sound(t);
    forall r | Pending(t, r) ensures t.q.flags[t.rx[r].value] <==> r in t.q.woken {
      assert Pending(s, r);
    }
  }

  /** Waking the first in line moves exactly that receiver from waiting to awake. */
  lemma NextWoken<T>(s: System<T>)
    requires ListExact(s) && s.q.notifiers != []
    ensures var t := s.(q := Notified(s.q));
            ListExact(t) && Awake(t) == Awake(s) + {s.q.notifiers[0].task}
            && s.q.notifiers[0].task !in Awake(s)
  {
    NextWokenMarks(s);
    var t := s.(q := Notified(s.q));
    var n := s.q.notifiers[0];
    forall i | 0 <= i < |t.q.notifiers| ensures Live(t, t.q.notifiers[i]) {
      assert t.q.notifiers[i] == s.q.notifiers[i + 1];
      assert Live(s, n) && Live(s, s.q.notifiers[i + 1]);
    }
    forall r | Waiting(t, r) ensures Notifier(r, t.rx[r].value) in t.q.notifiers {
      assert Waiting(s, r) && r != n.task;
      InTail(s.q.notifiers, Notifier(r, s.rx[r].value));
    }
  }

  lemma InTail<X>(xs: seq<X>, x: X)
    requires x in xs && x != xs[0]
    ensures x in xs[1..]
  {
    var i :| 0 <= i < |xs| && xs[i] == x;
    assert xs[1..][i - 1] == x;
  }

  lemma PushKeeps<T>(s: System<T>, lanes: Lanes<T>)
    requires NoLostWakeup(s) && |lanes.front| + |lanes.back| == Queued(s) + 1
    ensures NoLostWakeup(s.(q := Notified(s.q.(lanes := lanes))))
  {
    LanesAside(s, lanes);
    if s.q.notifiers != [] {
      NextWoken(s.(q := s.q.(lanes := lanes)));
    }
  }

  /** A receiver that is not waiting has no notifier in the list. */
  lemma NotListed<T>(s: System<T>, r: nat, i: nat)
    requires ListExact(s) && !Waiting(s, r) && i < |s.q.notifiers|
    ensures s.q.notifiers[i].task != r && Live(s, s.q.notifiers[i])
  {
    assert Live(s, s.q.notifiers[i]);
  }

  /** Forgetting such a receiver leaves the waiter list exact. */
  lemma Dropped<T>(s: System<T>, r: nat)
    requires ListExact(s) && r in s.rx && !Waiting(s, r)
    ensures var t := s.(rx := s.rx - {r}); ListExact(t) && Awake(t) == Awake(s) - {r}
  {
    var t := s.(rx := s.rx - {r});
    assert Sound(t);
    forall i | 0 <= i < |t.q.notifiers| ensures Live(t, t.q.notifiers[i]) {
      NotListed(s, r, i);
    }
    forall o | Waiting(t, o) ensures Notifier(o, t.rx[o].value) in t.q.notifiers {
      assert Waiting(s, o);
    }
    forall o | Pending(t, o) ensures t.q.flags[t.rx[o].value] <==> o in t.q.woken {
      assert Pending(s, o);
    }
  }

  lemma Idle<T>(s: System<T>, r: nat)
    requires ListExact(s) && r in s.rx && !Waiting(s, r)
    ensures var t := s.(rx := s.rx[r := None]); ListExact(t) && Awake(t) == Awake(s) - {r}
  {
    var t := s.(rx := s.rx[r := None]);
    assert Sound(t);
    forall i | 0 <= i < |t.q.notifiers| ensures Live(t, t.q.notifiers[i]) {
      NotListed(s, r, i);
    }
    forall o | Waiting(t, o) ensures Notifier(o, t.rx[o].value) in t.q.notifiers {
      assert Waiting(s, o);
    }
    forall o | Pending(t, o) ensures t.q.flags[t.rx[o].value] <==> o in t.q.woken {
      assert Pending(s, o);
    }
  }

  lemma MarkSpent<T>(s: System<T>, r: nat)
    requires ListExact(s) && !Pending(s, r)
    ensures var t := s.(q := s.q.(woken := s.q.woken - {r})); ListExact(t) && Awake(t) == Awake(s)
  {
    var t := s.(q := s.q.(woken := s.q.woken - {r}));
    forall i | 0 <= i < |t.q.notifiers| ensures Live(t, t.q.notifiers[i]) {
      assert Live(s, s.q.notifiers[i]);
    }
    forall r | Waiting(t, r) ensures Notifier(r, t.rx[r].value) in t.q.notifiers {
      assert Waiting(s, r);
    }
  }

  /** A pending poll puts its receiver at the end of the waiter list. */
  lemma Registered<T>(s: System<T>, r: nat)
    requires ListExact(s) && r in s.rx && s.rx[r].None? && r !in s.q.woken
    ensures var n := Notifier(r, |s.q.flags|);
            ListExact(System(s.q.(flags := s.q.flags + [false], notifiers := s.q.notifiers + [n]),
                             s.rx[r := Some(n.flag)]))
  {
    var n := Notifier(r, |s.q.flags|);
    var t := System(s.q.(flags := s.q.flags + [false], notifiers := s.q.notifiers + [n]), s.rx[r := Some(n.flag)]);
    assert Sound(t);
    forall i | 0 <= i < |s.q.notifiers| ensures Live(t, t.q.notifiers[i]) && t.q.notifiers[i].task != r {
      assert Live(s, s.q.notifiers[i]);
    }
    forall o | Waiting(t, o) ensures Notifier(o, t.rx[o].value) in t.q.notifiers {
      if o == r {
        assert t.q.notifiers[|s.q.notifiers|] == n;
      } else {
        assert Waiting(s, o);
      }
    }
  }

  /** The system once the polling task runs and took what was there, if anything. */
  ghost function Ran<T>(s: System<T>, r: nat): (t: System<T>) {
    System(s.q.(lanes := Popped(s.q.lanes), woken := s.q.woken - {r}), s.rx[r := None])
  }

  lemma RanExact<T>(s: System<T>, r: nat)
    requires ListExact(s) && r in s.rx && !Waiting(s, r)
    ensures ListExact(Ran(s, r)) && Awake(Ran(s, r)) == Awake(s) - {r}
  {
    var quiet := s.(rx := s.rx[r := None]);
    Idle(s, r);
    LanesAside(quiet, Popped(s.q.lanes));
    MarkSpent(quiet.(q := quiet.q.(lanes := Popped(s.q.lanes))), r);
  }

  lemma PollKeeps<T>(s: System<T>, r: nat)
    requires NoLostWakeup(s) && Disciplined(s, Poll(r))
    ensures NoLostWakeup(Applied(s, Poll(r)))
  {
    RanExact(s, r);
    var t := Ran(s, r);
    if Head(s.q.lanes).None? {
      Registered(t, r);
      assert Applied(s, Poll(r)).rx == t.rx[r := Some(|s.q.flags|)];
    }
  }

  lemma DropKeeps<T>(s: System<T>, r: nat)
    requires NoLostWakeup(s) && Disciplined(s, Drop(r))
    ensures NoLostWakeup(Applied(s, Drop(r)))
  {
    Dropped(s, r);
    if r in Awake(s) && s.q.notifiers != [] {
      // the wake-up moves from r to the next in line
      NextWoken(s.(rx := s.rx - {r}));
    }
  }

  lemma OpenKeeps<T>(s: System<T>, r: nat)
    requires NoLostWakeup(s) && Possible(s, Open(r))
    ensures NoLostWakeup(Applied(s, Open(r)))
  {
    var t := Applied(s, Open(r));
    assert Sound(t);
    forall i | 0 <= i < |t.q.notifiers| ensures Live(t, t.q.notifiers[i]) {
      assert Live(s, s.q.notifiers[i]);
    }
    forall o | Waiting(t, o) ensures Notifier(o, t.rx[o].value) in t.q.notifiers {
      assert Waiting(s, o);
    }
    assert Awake(t) == Awake(s);
  }

  lemma StepKeepsWakeups<T>(s: System<T>, st: Step<T>)
    requires NoLostWakeup(s) && Disciplined(s, st)
    ensures NoLostWakeup(Applied(s, st))
  {
    match st
    case PushFront(x) => PushKeeps(s, PushedFront(s.q.lanes, x));
    case PushBack(x) => PushKeeps(s, PushedBack(s.q.lanes, x));
    case Pop => LanesAside(s, Popped(s.q.lanes));
    case Open(r) => OpenKeeps(s, r);
    case Poll(r) => PollKeeps(s, r);
    case Drop(r) => DropKeeps(s, r);
  }

  ghost predicate PossibleRun<T>(s: System<T>, steps: seq<Step<T>>)
    requires Sound(s)
    decreases |steps|
  {
    steps != [] ==>
      Possible(s, steps[0]) && (StaysSound(s, steps[0]); PossibleRun(Applied(s, steps[0]), steps[1..]))
  }

  ghost predicate DisciplinedRun<T>(s: System<T>, steps: seq<Step<T>>)
    requires Sound(s)
    decreases |steps|
  {
    steps != [] ==>
      Disciplined(s, steps[0]) && (StaysSound(s, steps[0]); DisciplinedRun(Applied(s, steps[0]), steps[1..]))
  }

  ghost function Run<T>(s: System<T>, steps: seq<Step<T>>): (t: System<T>)
    requires Sound(s) && PossibleRun(s, steps)
    decreases |steps|
  {
    if steps == [] then s else (StaysSound(s, steps[0]); Run(Applied(s, steps[0]), steps[1..]))
  }

  ghost function Fresh<T>(): (s: System<T>)
    ensures Sound(s)
  {
    System(Deque(Lanes([], []), [], [], {}), map[])
  }

  lemma {:induction false} DisciplinedRunKeeps<T>(s: System<T>, steps: seq<Step<T>>)
    requires NoLostWakeup(s) && DisciplinedRun(s, steps)
    ensures PossibleRun(s, steps) && NoLostWakeup(Run(s, steps))
    decreases |steps|
  {
    if steps != [] {
      StepKeepsWakeups(s, steps[0]);
      DisciplinedRunKeeps(Applied(s, steps[0]), steps[1..]);
    }
  }

  /** In every disciplined run, if some receiver waits while values are queued then
      the tasks of at least that many other receivers have been woken. */
  lemma NobodySleepsOnValues<T>(steps: seq<Step<T>>, r: nat)
    requires DisciplinedRun(Fresh<T>(), steps)
    ensures PossibleRun(Fresh<T>(), steps)
    ensures var s := Run(Fresh<T>(), steps);
            Sound(s) && (Waiting(s, r) ==>
              Queued(s) <= |Awake(s)| && Awake(s) <= s.q.woken && r !in s.q.woken)
  {
    assert NoLostWakeup(Fresh<T>());
    DisciplinedRunKeeps(Fresh<T>(), steps);
  }

  // ---------------------------------------------------------------------------
  // Exactly when wakeups are lost

  /** A wakeup was lost: some receiver waits while more values are queued than
      receivers have been woken. */
  ghost predicate Starved<T>(s: System<T>) {
    Sound(s) && (exists r :: Waiting(s, r)) && |Awake(s)| < Queued(s)
  }

  /** The worst of it: a value is queued and every receiver waits, so nobody will
      take it. */
  ghost predicate Stalled<T>(s: System<T>) {
    Sound(s) && Queued(s) > 0 && s.rx.Keys != {} && forall r | r in s.rx :: Waiting(s, r)
  }

  /** Some continuation that respects the discipline leads there. */
  ghost predicate CanStarve<T(!new)>(s: System<T>)
    requires Sound(s)
  {
    exists steps :: DisciplinedRun(s, steps) && PossibleRun(s, steps) && Starved(Run(s, steps))
  }

  ghost predicate CanStall<T(!new)>(s: System<T>)
    requires Sound(s)
  {
    exists steps :: DisciplinedRun(s, steps) && PossibleRun(s, steps) && Stalled(Run(s, steps))
  }

  lemma StalledIsStarved<T>(s: System<T>)
    requires Stalled(s)
    ensures Starved(s)
  {
    var r :| r in s.rx.Keys;
    assert Waiting(s, r);
    assert Awake(s) == {};
  }

  lemma StallIsStarvation<T(!new)>(s: System<T>)
    requires Sound(s) && CanStall(s)
    ensures CanStarve(s)
  {
    var steps :| DisciplinedRun(s, steps) && PossibleRun(s, steps) && Stalled(Run(s, steps));
    StalledIsStarved(Run(s, steps));
  }

  lemma StallsNow<T(!new)>(s: System<T>)
    requires Stalled(s)
    ensures CanStall(s)
  {
    assert Run(s, []) == s;
  }

  /** A disciplined step towards such a continuation is the start of one. */
  lemma StallsLater<T(!new)>(s: System<T>, st: Step<T>)
    requires Sound(s) && Disciplined(s, st)
    requires Sound(Applied(s, st)) && CanStall(Applied(s, st))
    ensures CanStall(s)
  {
    var t := Applied(s, st);
    var rest :| DisciplinedRun(t, rest) && PossibleRun(t, rest) && Stalled(Run(t, rest));
    var steps := [st] + rest;
    assert steps[1..] == rest;
    assert DisciplinedRun(s, steps) && PossibleRun(s, steps) && Run(s, steps) == Run(t, rest);
  }

  /** A notifier whose task has no receiver any more. */
  ghost predicate Orphan<T>(s: System<T>, i: nat) {
    Sound(s) && i < |s.q.notifiers| && s.q.notifiers[i].task !in s.rx
  }

  ghost function Busy<T>(s: System<T>): (busy: set<nat>)
    requires Sound(s)
  {
    set r | r in s.rx && !Waiting(s, r)
  }

  /** With an orphan at the head of the list, let every receiver go to sleep and push:
      the one wakeup goes to the orphan. */
  lemma {:induction false} OrphanTakesWakeup<T(!new)>(s: System<T>, x: T)
    requires Orphan(s, 0) && Queued(s) == 0 && s.rx.Keys != {}
    ensures CanStall(s)
    decreases |Busy(s)|
  {
    if Busy(s) == {} {
      var t := Applied(s, PushBack(x));
      StaysSound(s, PushBack(x));
      forall r | r in t.rx ensures Waiting(t, r) {
        assert r !in Busy(s);
      }
      StallsNow(t);
      StallsLater(s, PushBack(x));
    } else {
      var r :| r in Busy(s);
      var t := Applied(s, Poll(r));
      StaysSound(s, Poll(r));
      assert Busy(t) <= Busy(s) - {r};
      SmallerSet(Busy(t), Busy(s), r);
      OrphanTakesWakeup(t, x);
      StallsLater(s, Poll(r));
    }
  }

  lemma SmallerSet<X>(a: set<X>, b: set<X>, x: X)
    requires x in b && a <= b - {x}
    ensures |a| < |b|
  {
    Subset(a, b - {x});
  }

  lemma {:induction false} Subset<X>(a: set<X>, b: set<X>)
    requires a <= b
    ensures |a| <= |b|
    decreases a
  {
    if a != {} {
      var x :| x in a;
      Subset(a - {x}, b - {x});
    }
  }

  /** Pushes bring the orphan to the head of the list. */
  lemma {:induction false} OrphanComesFirst<T(!new)>(s: System<T>, i: nat, x: T)
    requires Orphan(s, i) && Queued(s) == 0 && s.rx.Keys != {}
    ensures CanStall(s)
    decreases i
  {
    if i == 0 {
      OrphanTakesWakeup(s, x);
    } else {
      var t := Applied(s, PushBack(x));
      StaysSound(s, PushBack(x));
      StaysSound(t, Pop);
      OrphanComesFirst(Applied(t, Pop), i - 1, x);
      StallsLater(t, Pop);
      StallsLater(s, PushBack(x));
    }
  }

  /** An orphan can always come to cost a wakeup. */
  lemma {:induction false} OrphanStalls<T(!new)>(s: System<T>, i: nat, x: T)
    requires Orphan(s, i)
    ensures CanStall(s)
    decreases Queued(s)
  {
    if Queued(s) > 0 {
      StaysSound(s, Pop);
      OrphanStalls(Applied(s, Pop), i, x);
      StallsLater(s, Pop);
    } else if s.rx.Keys == {} {
      var r := s.q.notifiers[i].task + 1;
      StaysSound(s, Open(r));
      assert r in Applied(s, Open(r)).rx.Keys;
      OrphanComesFirst(Applied(s, Open(r)), i, x);
      StallsLater(s, Open(r));
    } else {
      OrphanComesFirst(s, i, x);
    }
  }

  /** Two notifiers of one receiver, of which only the later carries the flag the
      receiver looks at when it is dropped. */
  ghost predicate Stale<T>(s: System<T>, r: nat, i: nat, k: nat) {
    && Sound(s) && i < k < |s.q.notifiers|
    && s.q.notifiers[i].task == r && s.q.notifiers[k].task == r
    && Pending(s, r) && s.rx[r] == Some(s.q.notifiers[k].flag) && !s.q.flags[s.rx[r].value]
    && (forall j :: 0 <= j < k ==> s.q.notifiers[j].flag != s.q.notifiers[k].flag)
  }

  /** The earlier one wakes the task but not the flag. A drop then hands nothing on
      and leaves the later one an orphan. */
  lemma {:induction false} StaleStalls<T(!new)>(s: System<T>, r: nat, i: nat, k: nat, x: T)
    requires Stale(s, r, i, k)
    ensures CanStall(s)
    decreases i
  {
    var t := Applied(s, PushBack(x));
    StaysSound(s, PushBack(x));
    if i == 0 {
      var u := Applied(t, Drop(r));
      StaysSound(t, Drop(r));
      assert u.q.notifiers[k - 1] == s.q.notifiers[k];
      OrphanStalls(u, k - 1, x);
      StallsLater(t, Drop(r));
    } else {
      StaleStalls(t, r, i - 1, k - 1, x);
    }
    StallsLater(s, PushBack(x));
  }

  /** Dropping a waiting receiver orphans its notifier. */
  lemma DropStalls<T(!new)>(s: System<T>, r: nat, x: T)
    requires ListExact(s) && Waiting(s, r)
    ensures Sound(Applied(s, Drop(r))) && CanStall(Applied(s, Drop(r)))
  {
    var i :| 0 <= i < |s.q.notifiers| && s.q.notifiers[i] == Notifier(r, s.rx[r].value);
    StaysSound(s, Drop(r));
    OrphanStalls(Applied(s, Drop(r)), i, x);
  }

  /** Polling one leaves the notifier of its earlier poll behind. */
  lemma PollStalls<T(!new)>(s: System<T>, r: nat, x: T)
    requires ListExact(s) && Waiting(s, r)
    ensures Sound(Applied(s, Poll(r))) && CanStall(Applied(s, Poll(r)))
  {
    var i :| 0 <= i < |s.q.notifiers| && s.q.notifiers[i] == Notifier(r, s.rx[r].value);
    var t := Applied(s, Poll(r));
    StaysSound(s, Poll(r));
    if Head(s.q.lanes).None? {
      StaleStalls(t, r, i, |s.q.notifiers|, x);
    } else {
      StaysSound(t, Drop(r));
      OrphanStalls(Applied(t, Drop(r)), i, x);
      StallsLater(t, Drop(r));
    }
  }

  lemma DisciplinedNeverStarves<T(!new)>(s: System<T>)
    requires NoLostWakeup(s)
    ensures !CanStarve(s)
  {
    forall steps | DisciplinedRun(s, steps) && PossibleRun(s, steps) ensures !Starved(Run(s, steps)) {
      DisciplinedRunKeeps(s, steps);
    }
  }

  /** The discipline is exact: a step respects it if and only if no continuation that
      respects it starves a receiver, and if and only if none leaves a value queued
      with everybody asleep. `x` is any value to push. */
  lemma DisciplineIsExact<T(!new)>(s: System<T>, st: Step<T>, x: T)
    requires NoLostWakeup(s) && Possible(s, st)
    ensures Sound(Applied(s, st))
    ensures (st.Poll? || st.Drop? ==> !Waiting(s, st.r)) <==> !CanStarve(Applied(s, st))
    ensures (st.Poll? || st.Drop? ==> !Waiting(s, st.r)) <==> !CanStall(Applied(s, st))
  {
    StaysSound(s, st);
    var t := Applied(s, st);
    if Disciplined(s, st) {
      StepKeepsWakeups(s, st);
      DisciplinedNeverStarves(t);
    } else if st.Poll? {
      PollStalls(s, st.r, x);
    } else {
      DropStalls(s, st.r, x);
    }
    if CanStall(t) {
      StallIsStarvation(t);
    }
  }

  /** No state on the way can come to stall. */
  ghost predicate NeverStalls<T(!new)>(s: System<T>, steps: seq<Step<T>>)
    requires Sound(s) && PossibleRun(s, steps)
    decreases |steps|
  {
    !CanStall(s) && (steps != [] ==> (StaysSound(s, steps[0]); NeverStalls(Applied(s, steps[0]), steps[1..])))
  }

  /** The same over whole runs. */
  lemma {:induction false} RunDisciplineIsExact<T(!new)>(s: System<T>, steps: seq<Step<T>>, x: T)
    requires NoLostWakeup(s) && PossibleRun(s, steps)
    ensures DisciplinedRun(s, steps) <==> NeverStalls(s, steps)
    decreases |steps|
  {
    DisciplinedNeverStarves(s);
    if CanStall(s) {
      StallIsStarvation(s);
    }
    if steps != [] {
      StaysSound(s, steps[0]);
      DisciplineIsExact(s, steps[0], x);
      if Disciplined(s, steps[0]) {
        StepKeepsWakeups(s, steps[0]);
        RunDisciplineIsExact(Applied(s, steps[0]), steps[1..], x);
      }
    }
  }

  lemma FreshRunDisciplineIsExact<T(!new)>(steps: seq<Step<T>>, x: T)
    requires PossibleRun(Fresh<T>(), steps)
    ensures DisciplinedRun(Fresh<T>(), steps) <==> NeverStalls(Fresh<T>(), steps)
  {
    RunDisciplineIsExact(Fresh<T>(), steps, x);
  }

  /** In any state, disciplined or not, a push wakes a receiver that waits exactly
      when the first registered notifier belongs to one. */
  lemma PushWakesIff<T>(s: System<T>, st: Step<T>)
    requires Sound(s) && (st.PushFront? || st.PushBack?)
    ensures (exists r :: Waiting(s, r) && r in Applied(s, st).q.woken)
       <==> s.q.notifiers != [] && Waiting(s, s.q.notifiers[0].task)
  {
    if s.q.notifiers != [] && Waiting(s, s.q.notifiers[0].task) {
      assert s.q.notifiers[0].task in Applied(s, st).q.woken;
    }
  }

  /** Once the first receiver in line is dropped while it waits, the next push wakes
      nobody, though another waits for the value. */
  lemma DroppedWaiterLosesWakeup<T>(s: System<T>, x: T, r: nat)
    requires NoLostWakeup(s) && |s.q.notifiers| > 1 && r == s.q.notifiers[0].task
    ensures Possible(s, Drop(r)) && Sound(Applied(s, Drop(r)))
    ensures var t := Applied(Applied(s, Drop(r)), PushBack(x));
            && Sound(t) && Queued(t) == Queued(s) + 1 && Awake(t) == Awake(s)
            && Waiting(t, s.q.notifiers[1].task)
  {
    var first, second := s.q.notifiers[0], s.q.notifiers[1];
    assert Live(s, first) && Live(s, second) && r != second.task;
    StaysSound(s, Drop(r));
    var u := Applied(s, Drop(r));
    assert u == s.(rx := s.rx - {r});
    StaysSound(u, PushBack(x));
    assert r !in u.rx;
    assert Awake(u) == Awake(s);
  }

  /** One spurious poll is enough: the push marks task 1 through the notifier of its
      first poll, its drop hands nothing on, and the next push goes to its second. */
  ghost function SpuriousPollRun<T>(x: T): (steps: seq<Step<T>>) {
    [Open(1), Open(2), Poll(1), Poll(1), Poll(2), PushBack(x), Poll(1), Drop(1), PushBack(x)]
  }

  /** The systems it goes through. */
  ghost function SpuriousPollState<T>(x: T, k: nat): (s: System<T>)
    ensures Sound(s)
  {
    var none, one, two := Lanes([], []), [Notifier(1, 0)], [Notifier(1, 0), Notifier(1, 1)];
    if k == 0 then Fresh<T>()
    else if k == 1 then System(Deque(none, [], [], {}), map[1 := None])
    else if k == 2 then System(Deque(none, [], [], {}), map[1 := None, 2 := None])
    else if k == 3 then System(Deque(none, one, [false], {}), map[1 := Some(0), 2 := None])
    else if k == 4 then System(Deque(none, two, [false, false], {}), map[1 := Some(1), 2 := None])
    else if k == 5 then
      System(Deque(none, two + [Notifier(2, 2)], [false, false, false], {}), map[1 := Some(1), 2 := Some(2)])
    else SpuriousPollLater(x, k)
  }

  ghost function SpuriousPollLater<T>(x: T, k: nat): (s: System<T>)
    ensures Sound(s)
  {
    var listed, marked := [Notifier(1, 1), Notifier(2, 2)], [true, false, false];
    if k == 6 then System(Deque(Lanes([], [x]), listed, marked, {1}), map[1 := Some(1), 2 := Some(2)])
    else if k == 7 then System(Deque(Lanes([], []), listed, marked, {}), map[1 := None, 2 := Some(2)])
    else if k == 8 then System(Deque(Lanes([], []), listed, marked, {}), map[2 := Some(2)])
    else System(Deque(Lanes([], [x]), [Notifier(2, 2)], [true, true, false], {1}), map[2 := Some(2)])
  }

  lemma SpuriousPollOpens<T>(x: T, k: nat)
    requires k < 3
    ensures var s := SpuriousPollState(x, k);
            Possible(s, SpuriousPollRun(x)[k]) && Applied(s, SpuriousPollRun(x)[k]) == SpuriousPollState(x, k + 1)
  {
  }

  lemma SpuriousPollWaits<T>(x: T, k: nat)
    requires 3 <= k < 5
    ensures var s := SpuriousPollState(x, k);
            Possible(s, SpuriousPollRun(x)[k]) && Applied(s, SpuriousPollRun(x)[k]) == SpuriousPollState(x, k + 1)
  {
  }

  lemma SpuriousPollPushes<T>(x: T, k: nat)
    requires k == 5 || k == 8
    ensures var s := SpuriousPollState(x, k);
            Possible(s, SpuriousPollRun(x)[k]) && Applied(s, SpuriousPollRun(x)[k]) == SpuriousPollState(x, k + 1)
  {
  }

  lemma SpuriousPollEnds<T>(x: T, k: nat)
    requires 6 <= k < 8
    ensures var s := SpuriousPollLater(x, k);
            Possible(s, SpuriousPollRun(x)[k]) && Applied(s, SpuriousPollRun(x)[k]) == SpuriousPollLater(x, k + 1)
  {
  }

  lemma SpuriousPollNext<T>(x: T, k: nat)
    requires k < 9
    ensures var s := SpuriousPollState(x, k);
            Possible(s, SpuriousPollRun(x)[k]) && Applied(s, SpuriousPollRun(x)[k]) == SpuriousPollState(x, k + 1)
  {
    if k < 3 {
      SpuriousPollOpens(x, k);
    } else if k < 5 {
      SpuriousPollWaits(x, k);
    } else if k == 5 || k == 8 {
      SpuriousPollPushes(x, k);
    } else {
      SpuriousPollEnds(x, k);
    }
  }

  lemma {:induction false} SpuriousPollRest<T>(x: T, k: nat)
    requires k <= 9
    ensures var s, rest := SpuriousPollState(x, k), SpuriousPollRun(x)[k..];
            PossibleRun(s, rest) && Run(s, rest) == SpuriousPollState(x, 9)
    decreases 9 - k
  {
    if k < 9 {
      SpuriousPollNext(x, k);
      SpuriousPollRest(x, k + 1);
      assert SpuriousPollRun(x)[k..][1..] == SpuriousPollRun(x)[k + 1..];
    }
  }

  lemma SpuriousPollStalls<T>(x: T)
    ensures PossibleRun(Fresh<T>(), SpuriousPollRun(x))
    ensures var s := Run(Fresh<T>(), SpuriousPollRun(x));
            Stalled(s) && s.rx.Keys == {2} && s.q.lanes == Lanes([], [x])
  {
    SpuriousPollRest(x, 0);
    assert SpuriousPollRun(x)[0..] == SpuriousPollRun(x);
    assert 2 in SpuriousPollState(x, 9).rx.Keys;
  }

  // ---------------------------------------------------------------------------
  // One long-lived receiver

  /** One receiver, polled whenever its task happens to run: if its last poll was
      pending and its task has not been woken since, there is nothing to receive
      and the next push will wake it. */
  ghost predicate SoloInvariant<T>(s: System<T>, r: nat) {
    && Sound(s) && s.rx.Keys == {r}
    && (forall i :: 0 <= i < |s.q.notifiers| ==> s.q.notifiers[i].task == r)
    && (s.rx[r].Some? && r !in s.q.woken ==> Queued(s) == 0 && s.q.notifiers != [])
  }

  ghost predicate Solo<T>(st: Step<T>, r: nat) {
    st.PushFront? || st.PushBack? || st.Pop? || st == Poll(r)
  }

  lemma SoloStep<T>(s: System<T>, st: Step<T>, r: nat)
    requires SoloInvariant(s, r) && Solo(st, r)
    ensures SoloInvariant(Applied(s, st), r)
  {
    StaysSound(s, st);
    assert s.q.notifiers != [] ==> s.q.notifiers[0].task == r;
  }

  /** In every run of pushes and of polls by one receiver, spurious polls included,
      no wakeup is lost. */
  lemma {:induction false} SoloRun<T>(s: System<T>, steps: seq<Step<T>>, r: nat)
    requires SoloInvariant(s, r) && forall i :: 0 <= i < |steps| ==> Solo(steps[i], r)
    ensures PossibleRun(s, steps) && SoloInvariant(Run(s, steps), r)
    decreases |steps|
  {
    if steps != [] {
      SoloStep(s, steps[0], r);
      SoloRun(Applied(s, steps[0]), steps[1..], r);
    }
  }

  lemma SoloNeverStuck<T>(steps: seq<Step<T>>, r: nat)
    requires forall i :: 0 <= i < |steps| ==> Solo(steps[i], r)
    ensures PossibleRun(Applied(Fresh<T>(), Open(r)), steps)
    ensures var s := Run(Applied(Fresh<T>(), Open(r)), steps);
            Sound(s) && r in s.rx
            && (s.rx[r].Some? && r !in s.q.woken ==> s.q.lanes == Lanes([], []) && s.q.notifiers != [])
  {
    SoloRun(Applied(Fresh<T>(), Open(r)), steps, r);
  }
}

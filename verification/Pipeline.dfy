/** From a state machine's timeout operation to the ledger: the priority lane of the
    notification queue, the timeout manager's channel, and the ledger itself, with
    issuing, routing, receiving and ticking interleaved in any way
    (src/manager.rs:357-372, src/notification.rs:72-74 and 115-129, src/timeout.rs:304-346). */
module Pipeline {
  import opened Timers
  import opened StateTree
  import SharedTrees
  import TimerHistory

  datatype Pipe<Id(==), Item> = Pipe(lane: seq<Request<Id, Item>>, chan: seq<Request<Id, Item>>,
                                     ledger: Ledger<Id, Item>)

  datatype Step<Id, Item> =
    | Issue(r: Request<Id, Item>)
    | Route
    | Receive
    | Tick(now: int)

  ghost function Idle<Id, Item>(): (pipe: Pipe<Id, Item>) {
    Pipe([], [], Ledger(map[], map[]))
  }

  ghost function After<Id, Item>(p: Pipe<Id, Item>, st: Step<Id, Item>): (pipe: Pipe<Id, Item>) {
    match st
    case Issue(r) => p.(lane := p.lane + [r])
    case Route => if p.lane == [] then p else p.(lane := p.lane[1..], chan := p.chan + [p.lane[0]])
    case Receive => if p.chan == [] then p else p.(chan := p.chan[1..], ledger := Applied(p.ledger, p.chan[0]))
    case Tick(now) => p.(ledger := Ticked(p.ledger, now))
  }

  ghost function Run<Id, Item>(p: Pipe<Id, Item>, steps: seq<Step<Id, Item>>): (pipe: Pipe<Id, Item>)
    decreases |steps|
  {
    if steps == [] then p else Run(After(p, steps[0]), steps[1..])
  }

  ghost function Issued<Id, Item>(steps: seq<Step<Id, Item>>): (requests: seq<Request<Id, Item>>)
    decreases |steps|
  {
    if steps == [] then [] else (if steps[0].Issue? then [steps[0].r] else []) + Issued(steps[1..])
  }

  ghost predicate Drained<Id, Item>(p: Pipe<Id, Item>) {
    p.lane == [] && p.chan == []
  }

  // ---------------------------------------------------------------------------
  // Order

  ghost function Requests<Id, Item>(h: seq<TimerHistory.Event<Id, Item>>): (requests: seq<Request<Id, Item>>)
    decreases |h|
  {
    if h == [] then [] else
      var n := |h| - 1;
      Requests(h[..n]) + if h[n].Do? then [h[n].r] else []
  }

  /** The ledger's history after one more step: a received request or a tick. */
  ghost function Seen<Id, Item>(p: Pipe<Id, Item>, h: seq<TimerHistory.Event<Id, Item>>, st: Step<Id, Item>)
    : (xs: seq<TimerHistory.Event<Id, Item>>)
  {
    match st
    case Receive => if p.chan == [] then h else h + [TimerHistory.Do(p.chan[0])]
    case Tick(now) => h + [TimerHistory.Tick(now)]
    case _ => h
  }

  ghost function History<Id, Item>(p: Pipe<Id, Item>, h: seq<TimerHistory.Event<Id, Item>>, steps: seq<Step<Id, Item>>)
    : (xs: seq<TimerHistory.Event<Id, Item>>)
    decreases |steps|
  {
    if steps == [] then h else History(After(p, steps[0]), Seen(p, h, steps[0]), steps[1..])
  }

  ghost predicate InOrder<Id, Item>(
      p: Pipe<Id, Item>, h: seq<TimerHistory.Event<Id, Item>>, issued: seq<Request<Id, Item>>)
  {
    p.ledger == TimerHistory.Run(h) && Requests(h) + p.chan + p.lane == issued
  }

  /** The first of `b` may as well be the last of `a`. */
  lemma FirstMoves<T>(a: seq<T>, b: seq<T>)
    requires b != []
    ensures a + [b[0]] + b[1..] == a + b
  {
    assert b == [b[0]] + b[1..];
  }

  lemma RouteInOrder<Id, Item>(
      p: Pipe<Id, Item>, h: seq<TimerHistory.Event<Id, Item>>, issued: seq<Request<Id, Item>>)
    requires InOrder(p, h, issued) && p.lane != []
    ensures InOrder(After(p, Route), h, issued)
  {
    FirstMoves(Requests(h) + p.chan, p.lane);
    assert Requests(h) + (p.chan + [p.lane[0]]) == Requests(h) + p.chan + [p.lane[0]];
  }

  lemma ReceiveInOrder<Id, Item>(
      p: Pipe<Id, Item>, h: seq<TimerHistory.Event<Id, Item>>, issued: seq<Request<Id, Item>>)
    requires InOrder(p, h, issued) && p.chan != []
    ensures InOrder(After(p, Receive), Seen(p, h, Receive), issued)
  {
    assert Seen(p, h, Receive)[..|h|] == h;
    FirstMoves(Requests(h), p.chan);
  }

  lemma StepInOrder<Id, Item>(
      p: Pipe<Id, Item>, h: seq<TimerHistory.Event<Id, Item>>, issued: seq<Request<Id, Item>>, st: Step<Id, Item>)
    requires InOrder(p, h, issued)
    ensures InOrder(After(p, st), Seen(p, h, st), issued + if st.Issue? then [st.r] else [])
  {
    assert issued + [] == issued;
    match st
    case Issue(r) => assert Requests(h) + p.chan + (p.lane + [r]) == issued + [r];
    case Route => if p.lane != [] { RouteInOrder(p, h, issued); }
    case Receive => if p.chan != [] { ReceiveInOrder(p, h, issued); }
    case Tick(now) => assert Seen(p, h, st)[..|h|] == h;
  }

  /** In every run the ledger is in the state its history leads to, and that history
      followed by what is still on its way is what was issued, in issue order. */
  lemma {:induction false} ReachedInOrder<Id, Item>(
      p: Pipe<Id, Item>, h: seq<TimerHistory.Event<Id, Item>>, issued: seq<Request<Id, Item>>,
          steps: seq<Step<Id, Item>>)
    requires InOrder(p, h, issued)
    ensures InOrder(Run(p, steps), History(p, h, steps), issued + Issued(steps))
    decreases |steps|
  {
    if steps == [] {
      assert issued + Issued(steps) == issued;
    } else {
      var more := if steps[0].Issue? then [steps[0].r] else [];
      StepInOrder(p, h, issued, steps[0]);
      ReachedInOrder(After(p, steps[0]), Seen(p, h, steps[0]), issued + more, steps[1..]);
      assert issued + more + Issued(steps[1..]) == issued + (more + Issued(steps[1..]));
    }
  }

  /** Once everything issued has arrived, the ledger is the fold of the issued
      requests in order, with ticks in between. */
  lemma DrainedIsFold<Id, Item>(steps: seq<Step<Id, Item>>)
    requires Drained(Run(Idle<Id, Item>(), steps))
    ensures var h := History(Idle<Id, Item>(), [], steps);
            Run(Idle<Id, Item>(), steps).ledger == TimerHistory.Run(h) && Requests(h) == Issued(steps)
  {
    ReachedInOrder(Idle<Id, Item>(), [], [], steps);
    var h := History(Idle<Id, Item>(), [], steps);
    assert Requests(h) + [] + [] == Requests(h) && [] + Issued(steps) == Issued(steps);
  }

  // ---------------------------------------------------------------------------
  // Cancelling

  /** Whether the id is armed once the given requests have arrived: the last Set or
      Cancel among them decides. */
  ghost predicate WillBeArmed<Id, Item>(armed: map<Id, int>, rs: seq<Request<Id, Item>>, id: Id) {
    if rs == [] then id in armed else
      var n := |rs| - 1;
      if rs[n].id == id && !rs[n].op.Retain? then rs[n].op.Set? else WillBeArmed(armed, rs[..n], id)
  }

  ghost predicate Expected<Id, Item>(p: Pipe<Id, Item>, id: Id) {
    WillBeArmed(p.ledger.armed, p.chan + p.lane, id)
  }

  lemma {:induction false} WillAfterFirst<Id, Item>(l: Ledger<Id, Item>, rs: seq<Request<Id, Item>>, id: Id)
    requires rs != []
    ensures WillBeArmed(l.armed, rs, id) == WillBeArmed(Applied(l, rs[0]).armed, rs[1..], id)
  {
    var n := |rs| - 1;
    if n == 0 {
      assert WillBeArmed(l.armed, rs[..0], id) == (id in l.armed);
    } else {
      WillAfterFirst(l, rs[..n], id);
      assert rs[1..][..n - 1] == rs[..n][1..];
    }
  }

  lemma {:induction false} WillFewer<Id, Item>(armed: map<Id, int>, fewer: map<Id, int>, rs: seq<Request<Id, Item>>,
                                               id: Id)
    requires id in fewer ==> id in armed
    ensures WillBeArmed(fewer, rs, id) ==> WillBeArmed(armed, rs, id)
  {
    if rs != [] {
      WillFewer(armed, fewer, rs[..|rs| - 1], id);
    }
  }

  lemma WillAppend<Id, Item>(armed: map<Id, int>, rs: seq<Request<Id, Item>>, r: Request<Id, Item>, id: Id)
    ensures WillBeArmed(armed, rs + [r], id)
         == if r.id == id && !r.op.Retain? then r.op.Set? else WillBeArmed(armed, rs, id)
  {
    assert (rs + [r])[..|rs|] == rs;
  }

  /** Routing and receiving leave the expectation alone, a tick or a Cancel can only
      end it, and only a Set of the same id can start it. */
  lemma ExpectedStep<Id, Item>(p: Pipe<Id, Item>, st: Step<Id, Item>, id: Id)
    ensures st.Route? || st.Receive? ==> Expected(After(p, st), id) == Expected(p, id)
    ensures st.Tick? ==> Expected(After(p, st), id) ==> Expected(p, id)
    ensures st.Issue? ==>
              Expected(After(p, st), id)
              == if st.r.id == id && !st.r.op.Retain? then st.r.op.Set? else Expected(p, id)
  {
    var q := After(p, st);
    match st
    case Issue(r) =>
      WillAppend(p.ledger.armed, p.chan + p.lane, r, id);
      assert p.chan + (p.lane + [r]) == p.chan + p.lane + [r];
    case Route =>
      if p.lane != [] {
        assert p.chan + [p.lane[0]] + p.lane[1..] == p.chan + p.lane;
      }
    case Receive =>
      if p.chan != [] {
        WillAfterFirst(p.ledger, p.chan + p.lane, id);
        assert (p.chan + p.lane)[1..] == p.chan[1..] + p.lane;
      }
    case Tick(now) =>
      WillFewer(p.ledger.armed, q.ledger.armed, p.chan + p.lane, id);
  }

  /** An id that is not expected to be armed stays so until it is set again; in
      particular it is not armed once the pipe is drained. */
  lemma {:induction false} StaysCancelled<Id, Item>(p: Pipe<Id, Item>, steps: seq<Step<Id, Item>>, id: Id)
    requires !Expected(p, id)
    requires forall i | 0 <= i < |steps| && steps[i].Issue? && steps[i].r.id == id :: !steps[i].r.op.Set?
    ensures !Expected(Run(p, steps), id)
    ensures Drained(Run(p, steps)) ==> id !in Run(p, steps).ledger.armed
    decreases |steps|
  {
    if steps != [] {
      ExpectedStep(p, steps[0], id);
      StaysCancelled(After(p, steps[0]), steps[1..], id);
    } else if Drained(p) {
      assert p.chan + p.lane == [];
    }
  }

  lemma {:induction false} IssuedHas<Id, Item>(steps: seq<Step<Id, Item>>, i: nat)
    requires i < |steps| && steps[i].Issue?
    ensures steps[i].r in Issued(steps)
    decreases |steps|
  {
    if i > 0 {
      IssuedHas(steps[1..], i - 1);
    }
  }

  ghost predicate CancelledLast<Id, Item>(rs: seq<Request<Id, Item>>, id: Id, k: nat) {
    && k < |rs| && rs[k] == Request(id, Cancel)
    && forall j | k < j < |rs| && rs[j].id == id :: !rs[j].op.Set?
  }

  /** However the steps interleave, an id whose last Set or Cancel in issue order is
      a Cancel is not armed once the pipe is drained. */
  lemma {:induction false} CancelledLastUnarmed<Id, Item>(p: Pipe<Id, Item>, steps: seq<Step<Id, Item>>, id: Id, k: nat)
    requires CancelledLast(Issued(steps), id, k)
    ensures !Expected(Run(p, steps), id)
    ensures Drained(Run(p, steps)) ==> id !in Run(p, steps).ledger.armed
    decreases |steps|
  {
    var rest := steps[1..];
    var rs := Issued(steps);
    if steps[0].Issue? {
      assert rs == [steps[0].r] + Issued(rest);
      if k == 0 {
        forall i | 0 <= i < |rest| && rest[i].Issue? && rest[i].r.id == id ensures !rest[i].r.op.Set? {
          IssuedHas(rest, i);
          var j :| 0 <= j < |Issued(rest)| && Issued(rest)[j] == rest[i].r;
          assert rs[j + 1] == rest[i].r;
        }
        ExpectedStep(p, steps[0], id);
        StaysCancelled(After(p, steps[0]), rest, id);
      } else {
        assert forall j | 0 <= j < |Issued(rest)| :: Issued(rest)[j] == rs[j + 1];
        CancelledLastUnarmed(After(p, steps[0]), rest, id, k - 1);
      }
    } else {
      assert rs == Issued(rest);
      CancelledLastUnarmed(After(p, steps[0]), rest, id, k);
    }
  }

  ghost function Cancels<Id, Item>(ids: seq<Id>): (requests: seq<Request<Id, Item>>) {
    seq(|ids|, i requires 0 <= i < |ids| => Request(ids[i], Cancel))
  }

  /** After one Cancel per node of a tree, in the order of a children-first walk, no
      id of the tree is armed once the pipe is drained, whatever else was issued
      before and however the steps interleave, unless it is set again later. */
  lemma CancelledTreeUnarmed<Id, S, Item>(
      n: Node<Id, S>, p: Pipe<Id, Item>, steps: seq<Step<Id, Item>>,
      before: seq<Request<Id, Item>>, later: seq<Request<Id, Item>>, id: Id)
    requires WellFormed(n) && id in Ids(n)
    requires Issued(steps) == before + Cancels(PostOrder(n)) + later
    requires forall j | 0 <= j < |later| && later[j].id == id :: !later[j].op.Set?
    requires Drained(Run(p, steps))
    ensures id !in Run(p, steps).ledger.armed
  {
    var ids := PostOrder(n);
    SharedTrees.PostOrderOnce(n);
    assert id in multiset(ids);
    var i :| 0 <= i < |ids| && ids[i] == id;
    CancelsLast(before, ids, later, id, i);
    CancelledLastUnarmed(p, steps, id, |before| + i);
  }

  lemma CancelsLast<Id, Item>(
      before: seq<Request<Id, Item>>, ids: seq<Id>, later: seq<Request<Id, Item>>, id: Id, i: nat)
    requires i < |ids| && ids[i] == id
    requires forall j | 0 <= j < |later| && later[j].id == id :: !later[j].op.Set?
    ensures CancelledLast(before + Cancels(ids) + later, id, |before| + i)
  {
    var cancels := Cancels<Id, Item>(ids);
    var rs, k := before + cancels + later, |before| + i;
    assert rs[k] == cancels[i];
    forall j | k < j < |rs| && rs[j].id == id ensures !rs[j].op.Set? {
      assert rs[j] == if j < |before| + |ids| then cancels[j - |before|] else later[j - |before| - |ids|];
    }
  }
}

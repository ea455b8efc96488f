/** What the ledger does over whole histories of requests and ticks. */
module TimerHistory {
  import opened Timers

  datatype Event<Id, Item> = Do(r: Request<Id, Item>) | Tick(now: int)

  ghost function After<Id, Item>(l: Ledger<Id, Item>, e: Event<Id, Item>): (ledger: Ledger<Id, Item>) {
    match e
    case Do(r) => Applied(l, r)
    case Tick(now) => Ticked(l, now)
  }

  ghost function Run<Id, Item>(h: seq<Event<Id, Item>>): (ledger: Ledger<Id, Item>)
    decreases |h|
  {
    if h == [] then Ledger(map[], map[]) else After(Run(h[..|h| - 1]), h[|h| - 1])
  }

  // ---------------------------------------------------------------------------
  // Armed timers

  /** The event ends a timer of `id` with deadline `d`: it is a later Set or Cancel
      of the same id, or a tick past the deadline. */
  ghost predicate Ends<Id, Item>(e: Event<Id, Item>, id: Id, d: int) {
    match e
    case Do(r) => r.id == id && !r.op.Retain?
    case Tick(now) => now > d
  }

  ghost predicate SetAlive<Id, Item>(h: seq<Event<Id, Item>>, id: Id, d: int, k: nat) {
    && k < |h| && h[k] == Do(Request(id, Set(d)))
    && forall j | k < j < |h| :: !Ends(h[j], id, d)
  }

  /** An id is armed for `d` exactly when its last Set or Cancel was Set(d) and no
      tick since then was past `d`. */
  lemma {:induction false} ArmedIff<Id, Item>(h: seq<Event<Id, Item>>, id: Id, d: int)
    ensures (id in Run(h).armed && Run(h).armed[id] == d) <==> exists k: nat :: SetAlive(h, id, d, k)
    decreases |h|
  {
    if h != [] {
      var n := |h| - 1;
      var prev := h[..n];
      ArmedIff(prev, id, d);
      if h[n] == Do(Request(id, Set(d))) {
        assert SetAlive(h, id, d, n);
      } else if Ends(h[n], id, d) {
        assert forall k: nat :: !SetAlive(h, id, d, k);
      } else {
        forall k: nat ensures SetAlive(h, id, d, k) <==> SetAlive(prev, id, d, k) {
          if SetAlive(prev, id, d, k) {
            assert forall j | k < j < |h| :: j == n || h[j] == prev[j];
          }
          if SetAlive(h, id, d, k) {
            assert forall j | k < j < |prev| :: h[j] == prev[j];
          }
        }
      }
    }
  }

  /** The tick at `t` releases the timer of `id`. */
  ghost predicate Fires<Id, Item>(h: seq<Event<Id, Item>>, t: nat, id: Id) {
    t < |h| && h[t].Tick? && id in Run(h[..t]).armed && Run(h[..t]).armed[id] < h[t].now
  }

  /** A timer is released by the first tick past its deadline, and only if it was
      neither renewed nor cancelled before. */
  lemma FiresIff<Id, Item>(h: seq<Event<Id, Item>>, t: nat, id: Id)
    requires t < |h| && h[t].Tick?
    ensures Fires(h, t, id) <==> exists k: nat, d :: SetAlive(h[..t], id, d, k) && d < h[t].now
  {
    if Fires(h, t, id) {
      var d := Run(h[..t]).armed[id];
      ArmedIff(h[..t], id, d);
      var k: nat :| SetAlive(h[..t], id, d, k);
      assert SetAlive(h[..t], id, d, k) && d < h[t].now;
    }
    if exists k: nat, d :: SetAlive(h[..t], id, d, k) && d < h[t].now {
      var k: nat, d :| SetAlive(h[..t], id, d, k) && d < h[t].now;
      ArmedIff(h[..t], id, d);
    }
  }

  /** Between two releases for one id lies a Set of that id: no Set fires twice. */
  lemma FiresOncePerSet<Id, Item>(h: seq<Event<Id, Item>>, t1: nat, t2: nat, id: Id) returns (k: nat)
    requires t1 < t2 && Fires(h, t1, id) && Fires(h, t2, id)
    ensures t1 < k < t2 && h[k].Do? && h[k].r.id == id && h[k].r.op.Set?
  {
    FiresIff(h, t2, id);
    var j: nat, d :| SetAlive(h[..t2], id, d, j) && d < h[t2].now;
    assert h[j] == h[..t2][j];
    if j < t1 {
      forall i | j < i < t1 ensures !Ends(h[..t1][i], id, d) {
        assert h[..t1][i] == h[..t2][i];
      }
      assert SetAlive(h[..t1], id, d, j);
      ArmedIff(h[..t1], id, d);
      assert false;
    }
    assert j != t1;
    k := j;
  }

  ghost predicate Ordered<Id, Item>(h: seq<Event<Id, Item>>) {
    forall a, b | 0 <= a < b < |h| && h[a].Tick? && h[b].Tick? :: h[a].now <= h[b].now
  }

  ghost predicate NextTick<Id, Item>(h: seq<Event<Id, Item>>, a: int, b: int) {
    0 <= a < b < |h| && h[a].Tick? && h[b].Tick? && forall j | a < j < b :: !h[j].Tick?
  }

  /** Two ticks with none between them are at most `rate` apart. */
  ghost predicate Spaced<Id, Item>(h: seq<Event<Id, Item>>, rate: int) {
    forall a, b | NextTick(h, a, b) :: h[b].now <= h[a].now + rate
  }

  /** The first tick past `d`, when all ticks are close together. */
  lemma FirstLateTick<Id, Item>(h: seq<Event<Id, Item>>, d: int, t0: nat, late: nat, rate: int) returns (t: nat)
    requires t0 < late < |h| && h[t0].Tick? && h[t0].now <= d && h[late].Tick? && d < h[late].now
    requires Spaced(h, rate)
    ensures t0 < t <= late && h[t].Tick? && d < h[t].now <= d + rate
    ensures forall j | t0 < j < t && h[j].Tick? :: h[j].now <= d
  {
    // p: the last tick so far, not past the deadline
    var p := t0;
    t := t0 + 1;
    while !(h[t].Tick? && d < h[t].now)
      invariant t0 <= p < t <= late
      invariant h[p].Tick? && h[p].now <= d && forall j | p < j < t :: !h[j].Tick?
      invariant forall j | t0 < j < t && h[j].Tick? :: h[j].now <= d
      decreases late - t
    {
      if h[t].Tick? { p := t; }
      t := t + 1;
    }
    assert NextTick(h, p, t);
  }

  lemma SetAliveUntil<Id, Item>(h: seq<Event<Id, Item>>, id: Id, d: int, k: nat, t: nat)
    requires k < t <= |h| && h[k] == Do(Request(id, Set(d)))
    requires forall j | k < j < t :: !Ends(h[j], id, d)
    ensures id in Run(h[..t]).armed && Run(h[..t]).armed[id] == d
  {
    var prev := h[..t];
    assert forall j | k <= j < t :: prev[j] == h[j];
    assert SetAlive(prev, id, d, k);
    ArmedIff(prev, id, d);
  }

  /** A timer in place by a tick at or before its deadline, and left alone until
      some tick past it, fires within one tick interval after the deadline. */
  lemma FiresInTime<Id, Item>(h: seq<Event<Id, Item>>, id: Id, d: int, k: nat, t0: nat, late: nat, rate: int)
    returns (t: nat)
    requires k < t0 < late < |h| && h[k] == Do(Request(id, Set(d)))
    requires h[t0].Tick? && h[t0].now <= d && h[late].Tick? && d < h[late].now
    requires Ordered(h) && Spaced(h, rate)
    requires forall j | k < j < late && h[j].Do? && h[j].r.id == id :: h[j].r.op.Retain?
    ensures t0 < t <= late && Fires(h, t, id) && d < h[t].now <= d + rate
    ensures forall j | k < j < t :: !Fires(h, j, id)
  {
    t := FirstLateTick(h, d, t0, late, rate);
    forall j | k < j < t ensures !Ends(h[j], id, d) {
      if h[j].Tick? && j < t0 { assert h[j].now <= h[t0].now; }
    }
    SetAliveUntil(h, id, d, k, t);
    forall j | k < j < t ensures !Fires(h, j, id) {
      SetAliveUntil(h, id, d, k, j);
    }
  }

  // ---------------------------------------------------------------------------
  // Held items

  ghost predicate Holds<Id, Item>(e: Event<Id, Item>, d: int) {
    e.Do? && e.r.op.Retain? && e.r.op.at == d
  }

  /** No tick strictly between the two positions was past `d`. */
  ghost predicate Undisturbed<Id, Item>(h: seq<Event<Id, Item>>, k: int, t: int, d: int)
    requires 0 <= t <= |h| && 0 <= k
  {
    forall j | k < j < t :: h[j].Tick? ==> h[j].now <= d
  }

  ghost function Pair<Id, Item>(e: Event<Id, Item>): (r: (Id, Item))
    requires e.Do? && e.r.op.Retain?
  {
    (e.r.id, e.r.op.item)
  }

  /** The Retains for instant `d` that no tick has released, oldest first. */
  ghost function Pending<Id, Item>(h: seq<Event<Id, Item>>, d: int): (xs: seq<nat>)
    decreases |h|
  {
    if h == [] then [] else
      var n := |h| - 1;
      if h[n].Tick? && h[n].now > d then []
      else if Holds(h[n], d) then Pending(h[..n], d) + [n]
      else Pending(h[..n], d)
  }

  lemma {:induction false} PendingIff<Id, Item>(h: seq<Event<Id, Item>>, d: int)
    ensures forall k :: k in Pending(h, d) <==> 0 <= k < |h| && Holds(h[k], d) && Undisturbed(h, k, |h|, d)
    ensures forall a, b | 0 <= a < b < |Pending(h, d)| :: Pending(h, d)[a] < Pending(h, d)[b]
    decreases |h|
  {
    if h != [] {
      var n := |h| - 1;
      var prev := h[..n];
      PendingIff(prev, d);
      if !(h[n].Tick? && h[n].now > d) {
        forall k | 0 <= k < n ensures Undisturbed(h, k, |h|, d) <==> Undisturbed(prev, k, n, d) {
          assert forall j | k < j < n :: h[j] == prev[j];
        }
        assert forall k | 0 <= k < n :: Holds(h[k], d) <==> Holds(prev[k], d);
        var ps := Pending(prev, d);
        assert forall a | 0 <= a < |ps| :: ps[a] in ps;
      } else {
        forall k | 0 <= k < n ensures !Undisturbed(h, k, |h|, d) {
          assert h[n].Tick?;
        }
      }
    }
  }

  ghost function Items<Id, Item>(h: seq<Event<Id, Item>>, ks: seq<nat>): (xs: seq<(Id, Item)>)
    requires forall k | k in ks :: IsRetain(h, k)
  {
    seq(|ks|, i requires 0 <= i < |ks| => (assert IsRetain(h, ks[i]) by { assert ks[i] in ks; } Pair(h[ks[i]])))
  }

  /** What the ledger holds for an instant is what the pending Retains asked for. */
  lemma {:induction false} HeldIsPending<Id, Item>(h: seq<Event<Id, Item>>, d: int)
    ensures forall k | k in Pending(h, d) :: IsRetain(h, k)
    ensures HeldAt(Run(h).held, d) == Items(h, Pending(h, d))
    ensures d in Run(h).held ==> Run(h).held[d] != []
    decreases |h|
  {
    PendingIff(h, d);
    if h != [] {
      var n := |h| - 1;
      var prev := h[..n];
      HeldIsPending(prev, d);
      PendingIff(prev, d);
      var ps := Pending(prev, d);
      assert forall i | 0 <= i < |ps| :: ps[i] in ps && h[ps[i]] == prev[ps[i]];
      if !(h[n].Tick? && h[n].now > d) {
        assert Items(h, ps) == Items(prev, ps);
        if Holds(h[n], d) {
          assert Items(h, ps + [n]) == Items(h, ps) + [Pair(h[n])];
        }
      }
    }
  }

  /** Positions of pending Retains of the given instants, earlier instants first. */
  ghost function PendingOver<Id, Item>(h: seq<Event<Id, Item>>, instants: set<int>): (xs: seq<nat>)
    decreases |instants|
  {
    if instants == {} then [] else
      var d := Least(instants);
      Pending(h, d) + PendingOver(h, instants - {d})
  }

  /** The Retains released by a tick at `now` after `h`, in release order. */
  ghost function Due<Id, Item>(h: seq<Event<Id, Item>>, now: int): (xs: seq<nat>) {
    PendingOver(h, Before(Run(h).held, now).Keys)
  }

  ghost predicate IsRetain<Id, Item>(h: seq<Event<Id, Item>>, k: int) {
    0 <= k < |h| && h[k].Do? && h[k].r.op.Retain?
  }

  ghost predicate Sooner<Id, Item>(h: seq<Event<Id, Item>>, a: nat, b: nat) {
    && IsRetain(h, a) && IsRetain(h, b)
    && (h[a].r.op.at < h[b].r.op.at || (h[a].r.op.at == h[b].r.op.at && a < b))
  }

  /** By instant, and within one instant in the order of the requests. */
  ghost predicate InReleaseOrder<Id, Item>(h: seq<Event<Id, Item>>, ks: seq<nat>) {
    forall a, b | 0 <= a < b < |ks| :: Sooner(h, ks[a], ks[b])
  }

  lemma {:induction false} PendingOverIff<Id, Item>(h: seq<Event<Id, Item>>, instants: set<int>)
    ensures forall k :: k in PendingOver(h, instants) <==>
              IsRetain(h, k) && h[k].r.op.at in instants
              && Undisturbed(h, k, |h|, h[k].r.op.at)
    ensures InReleaseOrder(h, PendingOver(h, instants))
    decreases |instants|
  {
    if instants != {} {
      var d := Least(instants);
      var rest := instants - {d};
      PendingIff(h, d);
      PendingOverIff(h, rest);
      var first, others := Pending(h, d), PendingOver(h, rest);
      var ks := PendingOver(h, instants);
      assert ks == first + others;
      forall k ensures k in ks <==>
        IsRetain(h, k) && h[k].r.op.at in instants
        && Undisturbed(h, k, |h|, h[k].r.op.at)
      {
        assert k in ks <==> k in first || k in others;
      }
      forall a, b | 0 <= a < b < |ks| ensures Sooner(h, ks[a], ks[b]) {
        if b < |first| {
          assert ks[a] == first[a] && ks[b] == first[b] && first[a] in first && first[b] in first;
          assert Holds(h[ks[a]], d) && Holds(h[ks[b]], d);
        } else if a < |first| {
          assert ks[a] == first[a] && first[a] in first;
          assert Holds(h[ks[a]], d);
          assert ks[b] == others[b - |first|] && ks[b] in others;
          assert h[ks[b]].r.op.at in rest;
        } else {
          assert Sooner(h, others[a - |first|], others[b - |first|]);
        }
      }
    }
  }

  lemma {:induction false} FlatIsPending<Id, Item>(h: seq<Event<Id, Item>>, m: map<int, seq<(Id, Item)>>)
    requires forall d | d in m :: m[d] == HeldAt(Run(h).held, d)
    ensures forall k | k in PendingOver(h, m.Keys) :: IsRetain(h, k)
    ensures Flat(m) == Items(h, PendingOver(h, m.Keys))
    decreases |m|
  {
    PendingOverIff(h, m.Keys);
    if m != map[] {
      var d := Least(m.Keys);
      var rest := m - {d};
      HeldIsPending(h, d);
      FlatIsPending(h, rest);
      assert rest.Keys == m.Keys - {d};
      ItemsConcat(h, Pending(h, d), PendingOver(h, rest.Keys));
    }
  }

  lemma ItemsConcat<Id, Item>(h: seq<Event<Id, Item>>, a: seq<nat>, b: seq<nat>)
    requires forall k | k in a + b :: IsRetain(h, k)
    ensures forall k | k in a :: k in a + b
    ensures forall k | k in b :: k in a + b
    ensures Items(h, a + b) == Items(h, a) + Items(h, b)
  {
    forall k | k in b ensures k in a + b {
      var i :| 0 <= i < |b| && b[i] == k;
      assert (a + b)[|a| + i] == k;
    }
    assert |Items(h, a + b)| == |a| + |b|;
    forall i | 0 <= i < |a| + |b|
      ensures Items(h, a + b)[i] == (Items(h, a) + Items(h, b))[i]
    {
      assert (a + b)[i] == if i < |a| then a[i] else b[i - |a|];
    }
  }

  /** What a tick hands back is what the due Retains asked for, in their order. */
  lemma TickReturnsDue<Id, Item>(h: seq<Event<Id, Item>>, now: int)
    ensures forall k | k in Due(h, now) :: IsRetain(h, k)
    ensures Flat(Before(Run(h).held, now)) == Items(h, Due(h, now))
    ensures InReleaseOrder(h, Due(h, now))
  {
    FlatIsPending(h, Before(Run(h).held, now));
    PendingOverIff(h, Before(Run(h).held, now).Keys);
  }

  ghost predicate ReleasedAt<Id, Item>(h: seq<Event<Id, Item>>, t: nat, k: nat) {
    t < |h| && h[t].Tick? && k in Due(h[..t], h[t].now)
  }

  /** A Retain is released by the first tick past its instant and by no other;
      Sets and Cancels of any id play no part. */
  lemma ReleasedIff<Id, Item>(h: seq<Event<Id, Item>>, t: nat, k: nat)
    requires t < |h| && h[t].Tick?
    ensures ReleasedAt(h, t, k) <==>
              k < t && IsRetain(h, k) && h[k].r.op.at < h[t].now
              && Undisturbed(h, k, t, h[k].r.op.at)
  {
    var prev, now := h[..t], h[t].now;
    PendingOverIff(prev, Before(Run(prev).held, now).Keys);
    if k < t && IsRetain(h, k) {
      assert prev[k] == h[k];
      var d := h[k].r.op.at;
      assert Undisturbed(prev, k, |prev|, d) <==> Undisturbed(h, k, t, d) by {
        assert forall j | k < j < t :: h[j] == prev[j];
      }
      HeldIsPending(prev, d);
      PendingIff(prev, d);
      if Undisturbed(prev, k, |prev|, d) {
        assert k in Pending(prev, d);
        assert HeldAt(Run(prev).held, d) != [];
      }
    }
  }

  /** Every Retain is released exactly once, as soon as a tick gets past its instant. */
  lemma ReleasedOnce<Id, Item>(h: seq<Event<Id, Item>>, k: nat, late: nat) returns (t: nat)
    requires k < late < |h| && IsRetain(h, k)
    requires h[late].Tick? && h[late].now > h[k].r.op.at
    ensures t <= late && ReleasedAt(h, t, k)
    ensures forall u | ReleasedAt(h, u, k) :: u == t
  {
    var d := h[k].r.op.at;
    t := k + 1;
    while !(h[t].Tick? && h[t].now > d)
      invariant k < t <= late && Undisturbed(h, k, t, d)
      decreases late - t
    {
      t := t + 1;
    }
    ReleasedIff(h, t, k);
    forall u | ReleasedAt(h, u, k) ensures u == t {
      ReleasedIff(h, u, k);
    }
  }
}

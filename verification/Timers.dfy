/** The timeout ledger (src/timeout.rs): two indexes that must agree, a retainer of
    held items, and the flat meaning they refine. */
module Timers {
  import opened Base

  datatype Operation<Item> = Cancel | Set(at: int) | Retain(item: Item, at: int)
  datatype Request<Id, Item> = Request(id: Id, op: Operation<Item>)

  // ---------------------------------------------------------------------------
  // What a ledger means: a deadline per armed id, and the held items per instant

  datatype Ledger<Id(==), Item> = Ledger(armed: map<Id, int>, held: map<int, seq<(Id, Item)>>)

  function HeldAt<Id, Item>(held: map<int, seq<(Id, Item)>>, at: int): (xs: seq<(Id, Item)>) {
    if at in held then held[at] else []
  }

  ghost function Applied<Id, Item>(l: Ledger<Id, Item>, r: Request<Id, Item>): (ledger: Ledger<Id, Item>) {
    match r.op
    case Cancel => l.(armed := l.armed - {r.id})
    case Set(at) => l.(armed := l.armed[r.id := at])
    case Retain(item, at) => l.(held := l.held[at := HeldAt(l.held, at) + [(r.id, item)]])
  }

  ghost function Before<T>(m: map<int, T>, now: int): (r: map<int, T>) {
    map k | k in m && k < now :: m[k]
  }

  ghost function From<T>(m: map<int, T>, now: int): (r: map<int, T>) {
    map k | k in m && k >= now :: m[k]
  }

  ghost function Ticked<Id, Item>(l: Ledger<Id, Item>, now: int): (ledger: Ledger<Id, Item>) {
    Ledger(map i | i in l.armed && l.armed[i] >= now :: l.armed[i], From(l.held, now))
  }

  /** `order` lists exactly the ids whose deadline lies before `now`, each once,
      earlier deadlines first. */
  ghost predicate ExpiryOrder<Id>(armed: map<Id, int>, now: int, order: seq<Id>) {
    && (forall i | i in order :: i in armed && armed[i] < now)
    && (forall i | i in armed && armed[i] < now :: i in order)
    && (forall a, b | 0 <= a < b < |order| :: order[a] != order[b] && armed[order[a]] <= armed[order[b]])
  }

  // ---------------------------------------------------------------------------
  // Visiting a sorted map

  lemma EmptyOrHasMember(s: set<int>)
    ensures s == {} || exists x :: x in s
  {
    if forall x | x in s :: false {
      assert s == {};
    }
  }

  lemma {:induction false} LeastExists(s: set<int>)
    requires s != {}
    ensures exists k :: k in s && forall j | j in s :: k <= j
    decreases |s|
  {
    EmptyOrHasMember(s);
    var x :| x in s;
    var rest := s - {x};
    if rest == {} {
      assert s == {x};
      assert x in s && forall j | j in s :: x <= j;
    } else {
      LeastExists(rest);
      var y :| y in rest && forall j | j in rest :: y <= j;
      var k := if x < y then x else y;
      assert forall j | j in s :: j == x || j in rest;
      assert k in s && forall j | j in s :: k <= j;
    }
  }

  ghost function Least(s: set<int>): (k: int)
    requires s != {}
    ensures k in s && forall j | j in s :: k <= j
  {
    LeastExists(s);
    var k :| k in s && forall j | j in s :: k <= j;
    k
  }

  /** All values of a map of sequences, smaller keys first. */
  ghost function Flat<T>(m: map<int, seq<T>>): (xs: seq<T>)
    decreases |m|
  {
    if m == map[] then [] else
      var k := Least(m.Keys);
      m[k] + Flat(m - {k})
  }

  lemma FlatStep<T>(m: map<int, seq<T>>, k: int)
    requires k in m && forall j | j in m :: k <= j
    ensures Flat(m) == m[k] + Flat(m - {k})
  {
    assert Least(m.Keys) == k;
  }

  /** A tick splits the held items without losing, adding or reordering any. */
  lemma {:induction false} FlatSplit<T>(m: map<int, seq<T>>, now: int)
    ensures Flat(m) == Flat(Before(m, now)) + Flat(From(m, now))
    decreases |m|
  {
    if m == map[] {
      assert Before(m, now) == map[] && From(m, now) == map[];
    } else {
      var k := Least(m.Keys);
      FlatSplit(m - {k}, now);
      if k < now {
        assert Before(m, now) - {k} == Before(m - {k}, now) && From(m - {k}, now) == From(m, now);
        FlatStep(Before(m, now), k);
      } else {
        assert Before(m, now) == map[] && From(m, now) == m;
      }
    }
  }

  /** Holding one more item puts exactly that item somewhere among the held ones. */
  lemma {:induction false} FlatHold<Id, Item>(m: map<int, seq<(Id, Item)>>, at: int, x: (Id, Item))
    returns (a: seq<(Id, Item)>, b: seq<(Id, Item)>)
    ensures Flat(m) == a + b && Flat(m[at := HeldAt(m, at) + [x]]) == a + [x] + b
    decreases |m|
  {
    var grown := m[at := HeldAt(m, at) + [x]];
    if m == map[] || at < Least(m.Keys) {
      assert grown - {at} == m;
      FlatStep(grown, at);
      a, b := [], Flat(m);
    } else {
      var k := Least(m.Keys);
      if at == k {
        assert grown - {at} == m - {at};
        FlatStep(grown, at);
        a, b := m[k], Flat(m - {k});
      } else {
        assert grown - {k} == (m - {k})[at := HeldAt(m - {k}, at) + [x]];
        FlatStep(grown, k);
        var a', b' := FlatHold(m - {k}, at, x);
        a, b := m[k] + a', b';
      }
    }
  }

  // ---------------------------------------------------------------------------
  // The double index

  class TimeoutLedger<Id(==), Item> {
    var timers: map<int, set<Id>>
    var ids: map<Id, int>
    var retainer: map<int, seq<(Id, Item)>>

    /** An id is armed for an instant in one index exactly when it is in the other;
        instants whose ids were all cancelled or renewed may stay behind empty. */
    ghost predicate Valid()
      reads this
    {
      && (forall i | i in ids :: ids[i] in timers && i in timers[ids[i]])
      && (forall d, i | d in timers && i in timers[d] :: i in ids && ids[i] == d)
    }

    ghost function View(): (ledger: Ledger<Id, Item>)
      reads this
    {
      Ledger(ids, retainer)
    }

    constructor ()
      ensures Valid() && View() == Ledger(map[], map[])
    {
      timers, ids, retainer := map[], map[], map[];
    }

    method SetTimeout(id: Id, instant: int)
      requires Valid()
      modifies this
      ensures Valid() && View() == Applied(old(View()), Request(id, Set(instant)))
    {
      var oldInstant := if id in ids then Some(ids[id]) else None;
      ids := ids[id := instant];
      if oldInstant.Some? {
        if oldInstant.value != instant {
          if oldInstant.value in timers {
            timers := timers[oldInstant.value := timers[oldInstant.value] - {id}];
          }
        }
      }
      if instant in timers {
        timers := timers[instant := timers[instant] + {id}];
      } else {
        timers := timers[instant := {}];
      }
      timers := timers[instant := timers[instant] + {id}];
    }

    method CancelTimeout(id: Id)
      requires Valid()
      modifies this
      ensures Valid() && View() == Applied(old(View()), Request(id, Cancel))
    {
      if id in ids {
        var instant := ids[id];
        ids := ids - {id};
        if instant in timers {
          timers := timers[instant := timers[instant] - {id}];
        }
      }
      assert id !in old(ids) ==> ids - {id} == ids;
    }

    method Retain(id: Id, instant: int, item: Item)
      requires Valid()
      modifies this
      ensures Valid() && View() == Applied(old(View()), Request(id, Operation.Retain(item, instant)))
    {
      if instant !in retainer {
        retainer := retainer[instant := []];
      }
      retainer := retainer[instant := retainer[instant] + [(id, item)]];
    }

    /** One pass of the input loop. */
    method Receive(r: Request<Id, Item>)
      requires Valid()
      modifies this
      ensures Valid() && View() == Applied(old(View()), r)
    {
      match r.op
      case Cancel => CancelTimeout(r.id);
      case Set(instant) => SetTimeout(r.id, instant);
      case Retain(item, instant) => Retain(r.id, instant, item);
    }
  }
}

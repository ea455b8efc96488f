/** The state tree (src/node.rs): a rose tree whose nodes cache the ids of their
    descendants, and the plain recursive functions the cached one must agree with. */
module StateTree {
  import opened Base

  datatype Node<Id(==), S> = Node(id: Id, state: S, keys: set<Id>, children: seq<Node<Id, S>>)

  function NewNode<Id, S>(id: Id, newState: Id -> S): (node: Node<Id, S>) {
    Node(id, newState(id), {}, [])
  }

  // ---------------------------------------------------------------------------
  // Meaning of a tree, with the cache ignored

  ghost function Ids<Id, S>(n: Node<Id, S>): (ids: set<Id>)
    decreases n, 1
  {
    {n.id} + Below(n)
  }

  /** The ids of the strict descendants. */
  ghost function Below<Id, S>(n: Node<Id, S>): (ids: set<Id>)
    decreases n, 0
  {
    set i, x | 0 <= i < |n.children| && x in Ids(n.children[i]) :: x
  }

  /** Ids are unique and every cache holds exactly the ids of the strict descendants. */
  ghost predicate WellFormed<Id, S>(n: Node<Id, S>) {
    && n.keys == Below(n)
    && n.id !in Below(n)
    && (forall i :: 0 <= i < |n.children| ==> WellFormed(n.children[i]))
    && (forall i, j :: 0 <= i < j < |n.children| ==> Ids(n.children[i]) !! Ids(n.children[j]))
  }

  /** Exhaustive search in preorder. */
  ghost function Find<Id, S>(n: Node<Id, S>, id: Id): (r: Option<Node<Id, S>>)
    decreases n, 1
  {
    if n.id == id then Some(n) else FindIn(n.children, id)
  }

  ghost function FindIn<Id, S>(cs: seq<Node<Id, S>>, id: Id): (r: Option<Node<Id, S>>)
    decreases cs, 0
  {
    if cs == [] then None
    else if Find(cs[0], id).Some? then Find(cs[0], id)
    else FindIn(cs[1..], id)
  }

  /** Exhaustive search for the node that has `id` among its children. */
  ghost function ParentOf<Id, S>(n: Node<Id, S>, id: Id): (r: Option<Id>)
    decreases n, 1
  {
    if exists i :: 0 <= i < |n.children| && n.children[i].id == id then Some(n.id)
    else ParentIn(n.children, id)
  }

  ghost function ParentIn<Id, S>(cs: seq<Node<Id, S>>, id: Id): (r: Option<Id>)
    decreases cs, 0
  {
    if cs == [] then None
    else if ParentOf(cs[0], id).Some? then ParentOf(cs[0], id)
    else ParentIn(cs[1..], id)
  }

  /** The tree with every state replaced by `f` of its id and old state. */
  ghost function Mapped<Id, S>(n: Node<Id, S>, f: (Id, S) -> S): (node: Node<Id, S>) {
    Node(n.id, f(n.id, n.state), n.keys,
         seq(|n.children|, i requires 0 <= i < |n.children| => Mapped(n.children[i], f)))
  }

  /** Overwrite the state of one id, leave all others. */
  ghost function SetAt<Id, S>(id: Id, s: S): (r: (Id, S) -> S) {
    (i, was) => if i == id then s else was
  }

  /** The tree with `leaf` appended to the children of `pid`; the new id joins the
      caches of `pid` and its ancestors only. */
  ghost function Inserted<Id, S>(n: Node<Id, S>, pid: Id, leaf: Node<Id, S>): (node: Node<Id, S>) {
    Node(n.id, n.state, if pid in Ids(n) then n.keys + {leaf.id} else n.keys,
         seq(|n.children|, i requires 0 <= i < |n.children| => Inserted(n.children[i], pid, leaf))
         + if n.id == pid then [leaf] else [])
  }

  /** Ids in the order a children-first walk meets them. */
  ghost function PostOrder<Id, S>(n: Node<Id, S>): (ids: seq<Id>)
    decreases n, 1
  {
    PostOrderIn(n.children) + [n.id]
  }

  ghost function PostOrderIn<Id, S>(cs: seq<Node<Id, S>>): (ids: seq<Id>)
    decreases cs, 0
  {
    if cs == [] then [] else PostOrder(cs[0]) + PostOrderIn(cs[1..])
  }

  // ---------------------------------------------------------------------------
  // Searching

  lemma {:induction false} FindInFirst<Id, S>(cs: seq<Node<Id, S>>, id: Id, k: nat)
    requires k < |cs| && Find(cs[k], id).Some?
    requires forall i :: 0 <= i < k ==> Find(cs[i], id).None?
    ensures FindIn(cs, id) == Find(cs[k], id)
  {
    if k > 0 {
      assert Find(cs[0], id).None?;
      FindInFirst(cs[1..], id, k - 1);
    }
  }

  lemma {:induction false} FindInNone<Id, S>(cs: seq<Node<Id, S>>, id: Id)
    requires forall i :: 0 <= i < |cs| ==> Find(cs[i], id).None?
    ensures FindIn(cs, id).None?
  {
    if cs != [] {
      FindInNone(cs[1..], id);
    }
  }

  lemma {:induction false} FindInSound<Id, S>(cs: seq<Node<Id, S>>, id: Id) returns (k: nat)
    requires FindIn(cs, id).Some?
    ensures k < |cs| && FindIn(cs, id) == Find(cs[k], id)
  {
    if Find(cs[0], id).Some? {
      k := 0;
    } else {
      var j := FindInSound(cs[1..], id);
      k := j + 1;
    }
  }

  /** The exhaustive search succeeds exactly on the ids of the tree, and what it
      returns carries the id it was asked for. */
  lemma {:induction false} FindPresent<Id, S>(n: Node<Id, S>, id: Id)
    ensures Find(n, id).Some? <==> id in Ids(n)
    ensures Find(n, id).Some? ==> Find(n, id).value.id == id
  {
    forall i | 0 <= i < |n.children|
      ensures Find(n.children[i], id).Some? <==> id in Ids(n.children[i])
      ensures Find(n.children[i], id).Some? ==> Find(n.children[i], id).value.id == id
    {
      FindPresent(n.children[i], id);
    }
    if n.id != id {
      if FindIn(n.children, id).Some? {
        var k := FindInSound(n.children, id);
      } else if id in Below(n) {
        var i :| 0 <= i < |n.children| && id in Ids(n.children[i]);
        FindInHas(n.children, id, i);
      }
    }
  }

  lemma {:induction false} FindInHas<Id, S>(cs: seq<Node<Id, S>>, id: Id, k: nat)
    requires k < |cs| && Find(cs[k], id).Some?
    ensures FindIn(cs, id).Some?
  {
    if k > 0 && Find(cs[0], id).None? {
      FindInHas(cs[1..], id, k - 1);
    }
  }

  /** Searching a tree is searching the one child that holds the id. */
  lemma FindThroughChild<Id, S>(n: Node<Id, S>, id: Id, k: nat)
    requires WellFormed(n) && k < |n.children| && id in Ids(n.children[k])
    ensures Find(n, id) == Find(n.children[k], id)
    ensures id in Below(n) && n.id != id
    ensures forall i :: 0 <= i < |n.children| && i != k ==> id !in Ids(n.children[i])
  {
    assert id in Below(n);
    forall i | 0 <= i < |n.children| && i != k
      ensures id !in Ids(n.children[i]) && Find(n.children[i], id).None?
    {
      assert id !in Ids(n.children[i]) by {
        if i < k { assert Ids(n.children[i]) !! Ids(n.children[k]); }
        else { assert Ids(n.children[k]) !! Ids(n.children[i]); }
      }
      FindPresent(n.children[i], id);
    }
    FindPresent(n.children[k], id);
    FindInFirst(n.children, id, k);
  }

  /** Every node of a well-formed tree is well-formed. */
  lemma {:induction false} FindWellFormed<Id, S>(n: Node<Id, S>, id: Id)
    requires WellFormed(n) && id in Ids(n)
    ensures Find(n, id).Some? && WellFormed(Find(n, id).value)
    ensures Ids(Find(n, id).value) <= Ids(n)
  {
    FindPresent(n, id);
    if n.id != id {
      var k :| 0 <= k < |n.children| && id in Ids(n.children[k]);
      FindThroughChild(n, id, k);
      FindWellFormed(n.children[k], id);
    }
  }

  // ---------------------------------------------------------------------------
  // Cache-guided lookup

  /** What the source tests on a child: its own id, or its cache. */
  predicate Holds<Id(==), S>(n: Node<Id, S>, id: Id) {
    n.id == id || id in n.keys
  }

  function FirstHolding<Id(==), S>(cs: seq<Node<Id, S>>, id: Id): (r: Option<nat>)
    ensures r.Some? ==> r.value < |cs| && Holds(cs[r.value], id)
    ensures r.Some? ==> forall i :: 0 <= i < r.value ==> !Holds(cs[i], id)
    ensures r.None? ==> forall i :: 0 <= i < |cs| ==> !Holds(cs[i], id)
  {
    if cs == [] then None
    else if Holds(cs[0], id) then Some(0)
    else
      match FirstHolding(cs[1..], id)
      case None => (assert forall i :: 0 <= i < |cs| ==> i == 0 || cs[i] == cs[1..][i - 1]; None)
      case Some(k) => (assert forall i :: 0 <= i < k + 1 ==> i == 0 || cs[i] == cs[1..][i - 1]; Some(k + 1))
  }

  function ChildIdx<Id(==), S>(n: Node<Id, S>, id: Id): (r: Option<nat>) {
    FirstHolding(n.children, id)
  }

  /** In a well-formed tree the guided choice of a child is the right one: it
      exists exactly for strict descendants, and the search continues there. */
  lemma GuidedChild<Id, S>(n: Node<Id, S>, id: Id)
    requires WellFormed(n)
    ensures ChildIdx(n, id).Some? <==> id in n.keys
    ensures ChildIdx(n, id).Some? ==>
              var c := n.children[ChildIdx(n, id).value];
              && WellFormed(c) && id in Ids(c)
              && Find(n, id) == Find(c, id)
  {
    assert forall i :: 0 <= i < |n.children| ==>
      WellFormed(n.children[i]) && (Holds(n.children[i], id) <==> id in Ids(n.children[i]));
    if ChildIdx(n, id).Some? {
      FindThroughChild(n, id, ChildIdx(n, id).value);
    }
  }

  /** `Node::get`. */
  method Get<Id(==), S>(n: Node<Id, S>, id: Id) returns (r: Option<Node<Id, S>>)
    requires WellFormed(n)
    ensures r == Find(n, id)
  {
    FindPresent(n, id);
    if n.id == id {
      return Some(n);
    }
    if id !in n.keys {
      return None;
    }
    var node := n;
    while id in node.keys
      invariant WellFormed(node) && id in Ids(node)
      invariant Find(node, id) == Find(n, id)
      decreases node
    {
      GuidedChild(node, id);
      node := node.children[ChildIdx(node, id).value];
    }
    r := Some(node);
  }

  // ---------------------------------------------------------------------------
  // Parents

  lemma {:induction false} ParentInFirst<Id, S>(cs: seq<Node<Id, S>>, id: Id, k: nat)
    requires k < |cs|
    requires forall i :: 0 <= i < |cs| && i != k ==> ParentOf(cs[i], id).None?
    ensures ParentIn(cs, id) == ParentOf(cs[k], id)
  {
    if k == 0 {
      if ParentOf(cs[0], id).None? {
        ParentInNone(cs, id);
      }
    } else {
      assert ParentOf(cs[0], id).None?;
      ParentInFirst(cs[1..], id, k - 1);
    }
  }

  lemma {:induction false} ParentInNone<Id, S>(cs: seq<Node<Id, S>>, id: Id)
    requires forall i :: 0 <= i < |cs| ==> ParentOf(cs[i], id).None?
    ensures ParentIn(cs, id).None?
  {
    if cs != [] {
      ParentInNone(cs[1..], id);
    }
  }

  /** No parent for an id that is not strictly below. */
  lemma {:induction false} ParentOutside<Id, S>(n: Node<Id, S>, id: Id)
    requires id !in Below(n)
    ensures ParentOf(n, id).None?
  {
    forall i | 0 <= i < |n.children|
      ensures n.children[i].id != id && ParentOf(n.children[i], id).None?
    {
      assert id !in Ids(n.children[i]);
      ParentOutside(n.children[i], id);
    }
    ParentInNone(n.children, id);
  }

  /** The parent of a child's strict descendant is found in that child; the parent
      of the child itself is the node. */
  lemma ParentThroughChild<Id, S>(n: Node<Id, S>, id: Id, k: nat)
    requires WellFormed(n) && k < |n.children| && id in Ids(n.children[k])
    ensures ParentOf(n, id) == if n.children[k].id == id then Some(n.id) else ParentOf(n.children[k], id)
  {
    FindThroughChild(n, id, k);
    if n.children[k].id != id {
      forall i | 0 <= i < |n.children| && i != k
        ensures n.children[i].id != id && ParentOf(n.children[i], id).None?
      {
        assert id !in Ids(n.children[i]);
        ParentOutside(n.children[i], id);
      }
      ParentInFirst(n.children, id, k);
    }
  }

  /** `p` has `id` among its children, somewhere in the tree. */
  ghost predicate HasChild<Id, S>(n: Node<Id, S>, p: Id, id: Id) {
    || (n.id == p && exists i :: 0 <= i < |n.children| && n.children[i].id == id)
    || exists i :: 0 <= i < |n.children| && HasChild(n.children[i], p, id)
  }

  lemma {:induction false} HasChildInside<Id, S>(n: Node<Id, S>, p: Id, id: Id)
    requires HasChild(n, p, id)
    ensures id in Below(n) && p in Ids(n)
  {
    if n.id == p && exists i :: 0 <= i < |n.children| && n.children[i].id == id {
      var i :| 0 <= i < |n.children| && n.children[i].id == id;
      assert id in Ids(n.children[i]);
    } else {
      var i :| 0 <= i < |n.children| && HasChild(n.children[i], p, id);
      HasChildInside(n.children[i], p, id);
      assert id in Ids(n.children[i]);
    }
  }

  /** The parent is the one node with the id among its children, and it is missing
      exactly for the root and for ids outside the tree. */
  lemma {:induction false} ParentUnique<Id, S>(n: Node<Id, S>, p: Id, id: Id)
    requires WellFormed(n)
    ensures ParentOf(n, id) == Some(p) <==> HasChild(n, p, id)
    ensures ParentOf(n, id).None? <==> id == n.id || id !in Ids(n)
  {
    if id !in Below(n) {
      ParentOutside(n, id);
      if HasChild(n, p, id) { HasChildInside(n, p, id); }
    } else {
      var k :| 0 <= k < |n.children| && id in Ids(n.children[k]);
      FindThroughChild(n, id, k);
      ParentThroughChild(n, id, k);
      forall i | 0 <= i < |n.children| && HasChild(n.children[i], p, id) ensures i == k {
        HasChildInside(n.children[i], p, id);
      }
      var c := n.children[k];
      ParentUnique(c, p, id);
      if c.id == id {
        assert !HasChild(c, p, id);
      } else {
        forall i | 0 <= i < |n.children| ensures n.children[i].id != id {
          if n.children[i].id == id { assert id in Ids(n.children[i]); }
        }
      }
    }
  }

  /** `Node::get_parent_id`. */
  method GetParentId<Id(==), S>(n: Node<Id, S>, id: Id) returns (r: Option<Id>)
    requires WellFormed(n)
    ensures r == ParentOf(n, id)
  {
    if id !in n.keys {
      ParentOutside(n, id);
      return None;
    }
    var node := n;
    while id in node.keys
      invariant WellFormed(node) && id in node.keys
      invariant ParentOf(node, id) == ParentOf(n, id)
      decreases node
    {
      GuidedChild(node, id);
      var k := ChildIdx(node, id).value;
      ParentThroughChild(node, id, k);
      var child := node.children[k];
      if child.id == id {
        return Some(node.id);
      }
      node := child;
    }
    r := None;
  }

  // ---------------------------------------------------------------------------
  // State-only maps

  lemma {:induction false} MappedShape<Id, S>(n: Node<Id, S>, f: (Id, S) -> S)
    ensures Ids(Mapped(n, f)) == Ids(n) && Below(Mapped(n, f)) == Below(n)
    ensures WellFormed(n) ==> WellFormed(Mapped(n, f))
  {
    var m := Mapped(n, f);
    forall i | 0 <= i < |n.children|
      ensures Ids(m.children[i]) == Ids(n.children[i])
      ensures WellFormed(n) ==> WellFormed(m.children[i])
    {
      MappedShape(n.children[i], f);
    }
    assert Below(m) == Below(n);
  }

  /** Looking up after a map is mapping what was looked up before. */
  lemma {:induction false} FindMapped<Id, S>(n: Node<Id, S>, f: (Id, S) -> S, id: Id)
    ensures Find(n, id).None? ==> Find(Mapped(n, f), id).None?
    ensures Find(n, id).Some? ==> Find(Mapped(n, f), id) == Some(Mapped(Find(n, id).value, f))
    decreases n, 1
  {
    if n.id != id {
      FindInMapped(n.children, Mapped(n, f).children, f, id);
    }
  }

  lemma {:induction false} FindInMapped<Id, S>(
      cs: seq<Node<Id, S>>, ms: seq<Node<Id, S>>, f: (Id, S) -> S, id: Id)
    requires |ms| == |cs| && forall i :: 0 <= i < |cs| ==> ms[i] == Mapped(cs[i], f)
    ensures FindIn(cs, id).None? ==> FindIn(ms, id).None?
    ensures FindIn(cs, id).Some? ==> FindIn(ms, id) == Some(Mapped(FindIn(cs, id).value, f))
    decreases cs, 0
  {
    if cs != [] {
      FindMapped(cs[0], f, id);
      FindInMapped(cs[1..], ms[1..], f, id);
    }
  }

  lemma {:induction false} MappedSame<Id, S>(n: Node<Id, S>, id: Id, s: S)
    requires id !in Ids(n)
    ensures Mapped(n, SetAt(id, s)) == n
  {
    forall i | 0 <= i < |n.children|
      ensures Mapped(n.children[i], SetAt(id, s)) == n.children[i]
    {
      assert id !in Ids(n.children[i]);
      MappedSame(n.children[i], id, s);
    }
    assert Mapped(n, SetAt(id, s)).children == n.children;
  }

  /** Overwriting an id below child `k` rewrites that child and nothing else. */
  lemma SetThroughChild<Id, S>(n: Node<Id, S>, id: Id, s: S, k: nat)
    requires WellFormed(n) && k < |n.children| && id in Ids(n.children[k])
    ensures Mapped(n, SetAt(id, s))
         == n.(children := n.children[k := Mapped(n.children[k], SetAt(id, s))])
  {
    FindThroughChild(n, id, k);
    forall i | 0 <= i < |n.children| && i != k
      ensures Mapped(n.children[i], SetAt(id, s)) == n.children[i]
    {
      MappedSame(n.children[i], id, s);
    }
    assert Mapped(n, SetAt(id, s)).children == n.children[k := Mapped(n.children[k], SetAt(id, s))];
  }

  /** Overwriting the root's own id changes the root's state only. */
  lemma SetAtRoot<Id, S>(n: Node<Id, S>, s: S)
    requires WellFormed(n)
    ensures Mapped(n, SetAt(n.id, s)) == n.(state := s)
  {
    forall i | 0 <= i < |n.children|
      ensures Mapped(n.children[i], SetAt(n.id, s)) == n.children[i]
    {
      MappedSame(n.children[i], n.id, s);
    }
    assert Mapped(n, SetAt(n.id, s)).children == n.children;
  }

  // ---------------------------------------------------------------------------
  // Insertion

  lemma {:induction false} InsertedSame<Id, S>(n: Node<Id, S>, pid: Id, leaf: Node<Id, S>)
    requires pid !in Ids(n)
    ensures Inserted(n, pid, leaf) == n
  {
    forall i | 0 <= i < |n.children|
      ensures Inserted(n.children[i], pid, leaf) == n.children[i]
    {
      assert pid !in Ids(n.children[i]);
      InsertedSame(n.children[i], pid, leaf);
    }
    assert Inserted(n, pid, leaf).children == n.children;
  }

  lemma InsertThroughChild<Id, S>(n: Node<Id, S>, pid: Id, leaf: Node<Id, S>, k: nat)
    requires WellFormed(n) && k < |n.children| && pid in Ids(n.children[k])
    ensures Inserted(n, pid, leaf)
         == n.(children := n.children[k := Inserted(n.children[k], pid, leaf)], keys := n.keys + {leaf.id})
  {
    FindThroughChild(n, pid, k);
    InsertedKids(n, pid, leaf, k);
  }

  lemma InsertedKids<Id, S>(n: Node<Id, S>, pid: Id, leaf: Node<Id, S>, k: nat)
    requires k < |n.children| && pid != n.id
    requires forall i :: 0 <= i < |n.children| && i != k ==> pid !in Ids(n.children[i])
    ensures Inserted(n, pid, leaf).children == n.children[k := Inserted(n.children[k], pid, leaf)]
  {
    var kids := Inserted(n, pid, leaf).children;
    assert |kids| == |n.children|;
    forall i | 0 <= i < |n.children|
      ensures kids[i] == n.children[k := Inserted(n.children[k], pid, leaf)][i]
    {
      if i != k {
        InsertedSame(n.children[i], pid, leaf);
      }
    }
  }

  lemma InsertAtRoot<Id, S>(n: Node<Id, S>, leaf: Node<Id, S>)
    requires WellFormed(n)
    ensures Inserted(n, n.id, leaf) == n.(children := n.children + [leaf], keys := n.keys + {leaf.id})
  {
    forall i | 0 <= i < |n.children|
      ensures Inserted(n.children[i], n.id, leaf) == n.children[i]
    {
      InsertedSame(n.children[i], n.id, leaf);
    }
    assert Inserted(n, n.id, leaf).children == n.children + [leaf];
  }

  lemma BelowReplaced<Id, S>(n: Node<Id, S>, m: Node<Id, S>, k: nat, extra: set<Id>)
    requires k < |n.children| == |m.children|
    requires forall i :: 0 <= i < |n.children| && i != k ==> m.children[i] == n.children[i]
    requires Ids(m.children[k]) == Ids(n.children[k]) + extra
    ensures Below(m) == Below(n) + extra
  {
    forall x | x in Below(n) + extra ensures x in Below(m) {
      if x in extra {
        assert x in Ids(m.children[k]);
      } else {
        var i :| 0 <= i < |n.children| && x in Ids(n.children[i]);
        assert x in Ids(m.children[i]);
      }
    }
    forall x | x in Below(m) ensures x in Below(n) + extra {
      var i :| 0 <= i < |m.children| && x in Ids(m.children[i]);
      if i != k { assert x in Ids(n.children[i]); }
    }
  }

  lemma BelowAppended<Id, S>(n: Node<Id, S>, m: Node<Id, S>, leaf: Node<Id, S>)
    requires m.children == n.children + [leaf]
    ensures Below(m) == Below(n) + Ids(leaf)
  {
    forall x | x in Below(n) + Ids(leaf) ensures x in Below(m) {
      if x in Ids(leaf) {
        assert x in Ids(m.children[|n.children|]);
      } else {
        var i :| 0 <= i < |n.children| && x in Ids(n.children[i]);
        assert x in Ids(m.children[i]);
      }
    }
  }

  /** A fresh insertion keeps ids unique and every cache exact. */
  lemma {:induction false} InsertedShape<Id, S>(n: Node<Id, S>, pid: Id, leaf: Node<Id, S>)
    requires WellFormed(n) && pid in Ids(n)
    requires leaf.id !in Ids(n) && leaf.children == [] && leaf.keys == {}
    ensures WellFormed(Inserted(n, pid, leaf))
    ensures Ids(Inserted(n, pid, leaf)) == Ids(n) + {leaf.id}
  {
    if n.id == pid {
      InsertedAtRootShape(n, leaf);
    } else {
      var k :| 0 <= k < |n.children| && pid in Ids(n.children[k]);
      InsertThroughChild(n, pid, leaf, k);
      assert leaf.id !in Ids(n.children[k]) by { assert leaf.id !in Below(n); }
      InsertedShape(n.children[k], pid, leaf);
      GrownChildShape(n, Inserted(n, pid, leaf), k, leaf.id);
    }
  }

  lemma InsertedAtRootShape<Id, S>(n: Node<Id, S>, leaf: Node<Id, S>)
    requires WellFormed(n) && leaf.id !in Ids(n) && leaf.children == [] && leaf.keys == {}
    ensures WellFormed(Inserted(n, n.id, leaf))
    ensures Ids(Inserted(n, n.id, leaf)) == Ids(n) + {leaf.id}
  {
    var m := Inserted(n, n.id, leaf);
    InsertAtRoot(n, leaf);
    LeafShape(leaf);
    BelowAppended(n, m, leaf);
    forall i, j | 0 <= i < j < |m.children| ensures Ids(m.children[i]) !! Ids(m.children[j]) {
      AppendedApart(n, leaf, i, j);
    }
    forall i | 0 <= i < |m.children| ensures WellFormed(m.children[i]) {
      assert m.children[i] == if i < |n.children| then n.children[i] else leaf;
    }
  }

  lemma LeafShape<Id, S>(leaf: Node<Id, S>)
    requires leaf.children == []
    ensures Below(leaf) == {} && Ids(leaf) == {leaf.id}
    ensures leaf.keys == {} ==> WellFormed(leaf)
  {
    assert Below(leaf) == {};
  }

  lemma AppendedApart<Id, S>(n: Node<Id, S>, leaf: Node<Id, S>, i: nat, j: nat)
    requires WellFormed(n) && leaf.id !in Ids(n) && leaf.children == [] && i < j <= |n.children|
    ensures var cs := n.children + [leaf]; Ids(cs[i]) !! Ids(cs[j])
  {
    LeafShape(leaf);
    if j == |n.children| {
      assert Ids(n.children[i]) <= Below(n);
    } else {
      assert Ids(n.children[i]) !! Ids(n.children[j]);
    }
  }

  /** One child grew by a fresh id that was added to the cache. */
  lemma GrownChildShape<Id, S>(n: Node<Id, S>, m: Node<Id, S>, k: nat, id: Id)
    requires WellFormed(n) && id !in Ids(n) && k < |n.children| == |m.children|
    requires m.id == n.id && m.keys == n.keys + {id}
    requires forall i :: 0 <= i < |n.children| && i != k ==> m.children[i] == n.children[i]
    requires WellFormed(m.children[k]) && Ids(m.children[k]) == Ids(n.children[k]) + {id}
    ensures WellFormed(m) && Ids(m) == Ids(n) + {id}
  {
    BelowReplaced(n, m, k, {id});
    forall i, j | 0 <= i < j < |m.children| ensures Ids(m.children[i]) !! Ids(m.children[j]) {
      assert Ids(n.children[i]) !! Ids(n.children[j]);
      assert Ids(n.children[i]) <= Below(n) && Ids(n.children[j]) <= Below(n);
    }
  }

  /** Inserting an id that is already in the tree spoils it. */
  lemma {:induction false} InsertedTwice<Id, S>(n: Node<Id, S>, pid: Id, leaf: Node<Id, S>)
    requires WellFormed(n) && pid in Ids(n) && leaf.id in Ids(n) && leaf.children == [] && leaf.keys == {}
    ensures !WellFormed(Inserted(n, pid, leaf))
  {
    var m := Inserted(n, pid, leaf);
    if n.id == pid {
      InsertAtRoot(n, leaf);
      Shared(n, m, |n.children|, leaf.id);
    } else {
      var k :| 0 <= k < |n.children| && pid in Ids(n.children[k]);
      InsertThroughChild(n, pid, leaf, k);
      if leaf.id in Ids(n.children[k]) {
        InsertedTwice(n.children[k], pid, leaf);
      } else {
        InsertedShape(n.children[k], pid, leaf);
        Shared(n, m, k, leaf.id);
      }
    }
  }

  /** The id got into child `k`, but was elsewhere in the tree before. */
  lemma Shared<Id, S>(n: Node<Id, S>, m: Node<Id, S>, k: nat, id: Id)
    requires id in Ids(n) && m.id == n.id && k < |m.children| && id in Ids(m.children[k])
    requires |n.children| <= |m.children| && (k < |n.children| ==> id !in Ids(n.children[k]))
    requires forall i :: 0 <= i < |n.children| && i != k ==> m.children[i] == n.children[i]
    ensures !WellFormed(m)
  {
    if id == n.id {
      assert id in Below(m);
    } else {
      var i :| 0 <= i < |n.children| && id in Ids(n.children[i]);
      if i < k {
        assert !(Ids(m.children[i]) !! Ids(m.children[k]));
      } else {
        assert !(Ids(m.children[k]) !! Ids(m.children[i]));
      }
    }
  }

  /** An insertion keeps a tree well-formed exactly when the id is new to it. */
  lemma InsertKeepsShapeIff<Id, S>(n: Node<Id, S>, pid: Id, id: Id, newState: Id -> S)
    requires WellFormed(n) && pid in Ids(n)
    ensures WellFormed(Inserted(n, pid, NewNode(id, newState))) <==> id !in Ids(n)
  {
    if id in Ids(n) {
      InsertedTwice(n, pid, NewNode(id, newState));
    } else {
      InsertedShape(n, pid, NewNode(id, newState));
    }
  }

  /** Lookup after a fresh insertion: the new id finds the leaf, every other id
      finds what it found before (with the insertion applied to it). */
  lemma {:induction false} FindInserted<Id, S>(n: Node<Id, S>, pid: Id, leaf: Node<Id, S>, id: Id)
    requires WellFormed(n) && pid in Ids(n)
    requires leaf.id !in Ids(n) && leaf.children == [] && leaf.keys == {}
    ensures id == leaf.id ==> Find(Inserted(n, pid, leaf), id) == Some(leaf)
    ensures id != leaf.id && Find(n, id).None? ==> Find(Inserted(n, pid, leaf), id).None?
    ensures id != leaf.id && Find(n, id).Some? ==>
              Find(Inserted(n, pid, leaf), id) == Some(Inserted(Find(n, id).value, pid, leaf))
  {
    var m := Inserted(n, pid, leaf);
    InsertedShape(n, pid, leaf);
    FindPresent(n, id);
    FindPresent(m, id);
    if id == leaf.id {
      if n.id == pid {
        InsertAtRoot(n, leaf);
        assert m.children[|n.children|] == leaf;
        FindThroughChild(m, id, |n.children|);
      } else {
        var k :| 0 <= k < |n.children| && pid in Ids(n.children[k]);
        InsertThroughChild(n, pid, leaf, k);
        assert leaf.id !in Ids(n.children[k]);
        InsertedShape(n.children[k], pid, leaf);
        FindInserted(n.children[k], pid, leaf, id);
        FindThroughChild(m, id, k);
      }
    } else if id in Below(n) && id != n.id {
      var j :| 0 <= j < |n.children| && id in Ids(n.children[j]);
      FindThroughChild(n, id, j);
      assert m.children[j] == Inserted(n.children[j], pid, leaf);
      assert leaf.id !in Ids(n.children[j]);
      if pid in Ids(n.children[j]) {
        FindInserted(n.children[j], pid, leaf, id);
        InsertedShape(n.children[j], pid, leaf);
      } else {
        InsertedSame(n.children[j], pid, leaf);
        FindWellFormed(n.children[j], id);
        InsertedSame(Find(n.children[j], id).value, pid, leaf);
      }
      FindThroughChild(m, id, j);
    }
  }
}

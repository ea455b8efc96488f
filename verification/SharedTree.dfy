/** State trees behind a lock, changed in place, and what any history of changes
    amounts to: a flat map from ids to states (src/node.rs, src/storage.rs). */
module SharedTrees {
  import opened Base
  import opened StateTree
  import opened TreeZipper

  datatype TreeOp<Id(==), !S> =
    | Insert(parentId: Id, id: Id)
    | Update(id: Id, state: S)
    | UpdateAll(g: S -> S)

  ghost function Everywhere<Id, S>(g: S -> S): (r: (Id, S) -> S) {
    (i, s) => g(s)
  }

  ghost predicate Legal<Id, S>(n: Node<Id, S>, op: TreeOp<Id, S>) {
    match op
    case Insert(p, id) => p in Ids(n) && id !in Ids(n)
    case Update(id, _) => id in Ids(n)
    case UpdateAll(_) => true
  }

  ghost function Applied<Id, S>(n: Node<Id, S>, op: TreeOp<Id, S>, newState: Id -> S): (node: Node<Id, S>) {
    match op
    case Insert(p, id) => Inserted(n, p, NewNode(id, newState))
    case Update(id, s) => Mapped(n, SetAt(id, s))
    case UpdateAll(g) => Mapped(n, Everywhere(g))
  }

  ghost predicate LegalRun<Id, S>(n: Node<Id, S>, ops: seq<TreeOp<Id, S>>, newState: Id -> S)
    decreases |ops|
  {
    ops != [] ==> Legal(n, ops[0]) && LegalRun(Applied(n, ops[0], newState), ops[1..], newState)
  }

  ghost function Run<Id, S>(n: Node<Id, S>, ops: seq<TreeOp<Id, S>>, newState: Id -> S): (node: Node<Id, S>)
    decreases |ops|
  {
    if ops == [] then n else Run(Applied(n, ops[0], newState), ops[1..], newState)
  }

  // ---------------------------------------------------------------------------
  // The flat reference

  /** What `get_state` answers for every id of the tree. */
  ghost function States<Id, S>(n: Node<Id, S>): (m: map<Id, S>)
    ensures m.Keys == Ids(n)
  {
    map j | j in Ids(n) :: (FindPresent(n, j); Find(n, j).value.state)
  }

  ghost function FlatApplied<Id, S>(m: map<Id, S>, op: TreeOp<Id, S>, newState: Id -> S): (r: map<Id, S>) {
    match op
    case Insert(_, id) => m[id := newState(id)]
    case Update(id, s) => m[id := s]
    case UpdateAll(g) => map j | j in m :: g(m[j])
  }

  ghost function FlatRun<Id, S>(m: map<Id, S>, ops: seq<TreeOp<Id, S>>, newState: Id -> S): (r: map<Id, S>)
    decreases |ops|
  {
    if ops == [] then m else FlatRun(FlatApplied(m, ops[0], newState), ops[1..], newState)
  }

  lemma StatesMapped<Id, S>(n: Node<Id, S>, f: (Id, S) -> S)
    ensures States(Mapped(n, f)) == map j | j in Ids(n) :: f(j, States(n)[j])
  {
    MappedShape(n, f);
    forall j | j in Ids(n) ensures States(Mapped(n, f))[j] == f(j, States(n)[j]) {
      FindPresent(n, j);
      FindMapped(n, f, j);
    }
  }

  lemma InsertedRefinesMap<Id, S>(n: Node<Id, S>, p: Id, id: Id, newState: Id -> S)
    requires WellFormed(n) && p in Ids(n) && id !in Ids(n)
    ensures Ids(Inserted(n, p, NewNode(id, newState))) == Ids(n) + {id}
    ensures States(Inserted(n, p, NewNode(id, newState))) == States(n)[id := newState(id)]
  {
    var leaf := NewNode(id, newState);
    InsertedShape(n, p, leaf);
    var m := Inserted(n, p, leaf);
    forall j | j in Ids(n) + {id} ensures States(m)[j] == States(n)[id := newState(id)][j] {
      InsertedStateAt(n, p, leaf, j);
    }
    assert States(m).Keys == States(n)[id := newState(id)].Keys;
  }

  lemma InsertedStateAt<Id, S>(n: Node<Id, S>, p: Id, leaf: Node<Id, S>, j: Id)
    requires WellFormed(n) && p in Ids(n) && leaf.id !in Ids(n) && leaf.children == [] && leaf.keys == {}
    requires j in Ids(n) + {leaf.id} && Ids(Inserted(n, p, leaf)) == Ids(n) + {leaf.id}
    ensures States(Inserted(n, p, leaf))[j] == if j == leaf.id then leaf.state else States(n)[j]
  {
    FindPresent(n, j);
    FindInserted(n, p, leaf, j);
  }

  lemma AppliedRefinesMap<Id, S>(n: Node<Id, S>, op: TreeOp<Id, S>, newState: Id -> S)
    requires WellFormed(n) && Legal(n, op)
    ensures WellFormed(Applied(n, op, newState))
    ensures States(Applied(n, op, newState)) == FlatApplied(States(n), op, newState)
  {
    match op
    case Insert(p, id) =>
      InsertedShape(n, p, NewNode(id, newState));
      InsertedRefinesMap(n, p, id, newState);
    case Update(id, s) => UpdateRefinesMap(n, id, s);
    case UpdateAll(g) => UpdateAllRefinesMap(n, g);
  }

  lemma UpdateRefinesMap<Id, S>(n: Node<Id, S>, id: Id, s: S)
    requires WellFormed(n) && id in Ids(n)
    ensures WellFormed(Mapped(n, SetAt(id, s))) && States(Mapped(n, SetAt(id, s))) == States(n)[id := s]
  {
    MappedShape(n, SetAt(id, s));
    StatesMapped(n, SetAt(id, s));
  }

  lemma UpdateAllRefinesMap<Id, S>(n: Node<Id, S>, g: S -> S)
    requires WellFormed(n)
    ensures WellFormed(Mapped(n, Everywhere(g)))
    ensures States(Mapped(n, Everywhere(g))) == map j | j in States(n) :: g(States(n)[j])
  {
    MappedShape(n, Everywhere(g));
    StatesMapped(n, Everywhere(g));
  }

  /** Every history of fresh inserts and updates keeps ids unique and caches exact,
      and the tree answers state lookups like a flat map under the same history. */
  lemma {:induction false} RunRefinesMap<Id, S>(n: Node<Id, S>, ops: seq<TreeOp<Id, S>>, newState: Id -> S)
    requires WellFormed(n) && LegalRun(n, ops, newState)
    ensures WellFormed(Run(n, ops, newState))
    ensures States(Run(n, ops, newState)) == FlatRun(States(n), ops, newState)
    decreases |ops|
  {
    if ops != [] {
      AppliedRefinesMap(n, ops[0], newState);
      RunRefinesMap(Applied(n, ops[0], newState), ops[1..], newState);
    }
  }

  lemma NewNodeShape<Id, S>(id: Id, newState: Id -> S)
    ensures WellFormed(NewNode(id, newState)) && Ids(NewNode(id, newState)) == {id}
    ensures States(NewNode(id, newState)) == map[id := newState(id)]
  {
    assert Below(NewNode(id, newState)) == {};
  }

  /** The same, from a freshly created tree. */
  lemma ReachableTree<Id, S>(root: Id, ops: seq<TreeOp<Id, S>>, newState: Id -> S)
    requires LegalRun(NewNode(root, newState), ops, newState)
    ensures WellFormed(Run(NewNode(root, newState), ops, newState))
    ensures States(Run(NewNode(root, newState), ops, newState)) == FlatRun(map[root := newState(root)], ops, newState)
  {
    NewNodeShape(root, newState);
    RunRefinesMap(NewNode(root, newState), ops, newState);
  }

  // ---------------------------------------------------------------------------
  // In-place changes

  /** One `Arc<FairMutex<Node>>`; the store keeps several references to it. */
  class SharedTree<Id(==, !new), S(!new)> {
    var node: Node<Id, S>

    constructor (n: Node<Id, S>)
      ensures node == n
    {
      node := n;
    }

    /** `Node::insert`: the tree is moved out past a placeholder and back. */
    method Insert(parentId: Id, id: Id, newState: Id -> S)
      requires WellFormed(node) && parentId in Ids(node)
      modifies this
      ensures node == Applied(old(node), TreeOp.Insert(parentId, id), newState)
    {
      var swapNode := NewNode(node.id, newState);
      swapNode, node := node, swapNode;
      var t := IntoInsert(swapNode, Some(parentId), id, newState);
      swapNode := t.value;
      swapNode, node := node, swapNode;
    }

    /** `Node::update`. */
    method Update(id: Id, state: S, newState: Id -> S)
      requires WellFormed(node) && id in Ids(node)
      modifies this
      ensures node == Applied(old(node), TreeOp.Update(id, state), newState)
    {
      var swapNode := NewNode(node.id, newState);
      swapNode, node := node, swapNode;
      var t := IntoUpdate(swapNode, id, state);
      swapNode := t.value;
      swapNode, node := node, swapNode;
    }

    /** `Node::update_and_get_parent_id`: the same update, and the true parent. */
    method UpdateAndGetParentId(id: Id, state: S, newState: Id -> S) returns (parentId: Option<Id>)
      requires WellFormed(node) && id in Ids(node)
      modifies this
      ensures node == Applied(old(node), TreeOp.Update(id, state), newState)
      ensures parentId == ParentOf(old(node), id)
    {
      var swapNode := NewNode(node.id, newState);
      swapNode, node := node, swapNode;
      var z := ById(Cursor(swapNode), id);
      var at := z.value;
      parentId, swapNode := FinishUpdateParentId(at.(node := at.node.(state := state)), at, state);
      swapNode, node := node, swapNode;
    }

    /** `Node::update_all_fn`, for any closure; the answer is the order in which the
        closure met the nodes. */
    method UpdateAllFn(f: Zipper<Id, S> -> Node<Id, S>, newState: Id -> S) returns (visited: seq<Id>)
      modifies this
      ensures node == Rebuilt(Cursor(old(node)), f)
      ensures forall g: (Id, S, seq<S>) -> S | SetsState(f, g) :: ChildrenFirst(old(node), node, g)
      ensures visited == PostOrder(old(node))
    {
      var swapNode := NewNode(node.id, newState);
      swapNode, node := node, swapNode;
      swapNode, visited := FinishUpdateFn(Cursor(swapNode), f);
      swapNode, node := node, swapNode;
    }
  }

  /** A children-first walk meets every id of a well-formed tree exactly once. */
  lemma {:induction false} PostOrderOnce<Id, S>(n: Node<Id, S>)
    requires WellFormed(n)
    ensures multiset(PostOrder(n)) == multiset(Ids(n))
    decreases n, 1
  {
    PostOrderInOnce(n.children, n, 0);
    assert n.children[0..] == n.children;
    assert BelowFrom(n, 0) == Below(n);
  }

  ghost function BelowFrom<Id, S>(n: Node<Id, S>, k: nat): (ids: set<Id>) {
    set i, x | k <= i < |n.children| && x in Ids(n.children[i]) :: x
  }

  lemma {:induction false} PostOrderInOnce<Id, S>(cs: seq<Node<Id, S>>, n: Node<Id, S>, k: nat)
    requires WellFormed(n) && k <= |n.children| && cs == n.children[k..]
    ensures multiset(PostOrderIn(cs)) == multiset(BelowFrom(n, k))
    decreases cs, 0
  {
    if cs == [] {
      assert BelowFrom(n, k) == {};
    } else {
      assert cs[0] == n.children[k] && cs[1..] == n.children[k + 1..];
      PostOrderOnce(cs[0]);
      PostOrderInOnce(cs[1..], n, k + 1);
      BelowFromStep(n, k);
    }
  }

  lemma BelowFromStep<Id, S>(n: Node<Id, S>, k: nat)
    requires WellFormed(n) && k < |n.children|
    ensures multiset(BelowFrom(n, k)) == multiset(Ids(n.children[k])) + multiset(BelowFrom(n, k + 1))
  {
    var head, tail := Ids(n.children[k]), BelowFrom(n, k + 1);
    forall x | x in head ensures x !in tail {
      forall i | k + 1 <= i < |n.children| ensures x !in Ids(n.children[i]) {
        assert Ids(n.children[k]) !! Ids(n.children[i]);
      }
    }
    assert BelowFrom(n, k) == head + tail;
  }
}

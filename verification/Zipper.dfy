/** The cursor through which the state tree is changed (src/node.rs): moving down
    detaches a child with a swap-remove, moving up puts it back with a push and a
    swap. Ancestors keep the detached child's ids in their caches, so what a cursor
    means is the tree obtained by moving all the way up. */
module TreeZipper {
  import opened Base
  import opened StateTree

  datatype Zipper<Id(==), S> = Zipper(node: Node<Id, S>, parent: Option<Zipper<Id, S>>, selfIdx: nat)

  function Cursor<Id(==), S>(n: Node<Id, S>): (z: Zipper<Id, S>) {
    Zipper(n, None, 0)
  }

  /** Every ancestor has room for the child detached from it. */
  ghost predicate Valid<Id, S>(z: Zipper<Id, S>) {
    z.parent.Some? ==> z.selfIdx <= |z.parent.value.node.children| && Valid(z.parent.value)
  }

  ghost function Depth<Id, S>(z: Zipper<Id, S>): (n: nat) {
    if z.parent.None? then 0 else 1 + Depth(z.parent.value)
  }

  /** `s` without position `i`, whose place is taken by the last element. */
  ghost function TakeOut<T>(s: seq<T>, i: nat): (xs: seq<T>)
    requires i < |s|
  {
    if i == |s| - 1 then s[..i] else s[..i] + [s[|s| - 1]] + s[i + 1..|s| - 1]
  }

  /** `x` at position `i`, what was there moved to the end. */
  ghost function PutBack<T>(s: seq<T>, i: nat, x: T): (xs: seq<T>)
    requires i <= |s|
  {
    if i == |s| then s + [x] else s[..i] + [x] + s[i + 1..] + [s[i]]
  }

  ghost function Down<Id, S>(z: Zipper<Id, S>, idx: nat): (cursor: Zipper<Id, S>)
    requires idx < |z.node.children|
  {
    Zipper(z.node.children[idx], Some(z.(node := z.node.(children := TakeOut(z.node.children, idx)))), idx)
  }

  ghost function Up<Id, S>(z: Zipper<Id, S>): (cursor: Zipper<Id, S>)
    requires Valid(z) && z.parent.Some?
  {
    var p := z.parent.value;
    p.(node := p.node.(children := PutBack(p.node.children, z.selfIdx, z.node)))
  }

  lemma DownUp<Id, S>(z: Zipper<Id, S>, idx: nat)
    requires Valid(z) && idx < |z.node.children|
    ensures Valid(Down(z, idx)) && Up(Down(z, idx)) == z
  {
    assert PutBack(TakeOut(z.node.children, idx), idx, z.node.children[idx]) == z.node.children;
  }

  lemma PutBackTakeOut<T>(s: seq<T>, i: nat, x: T)
    requires i <= |s|
    ensures i < |PutBack(s, i, x)| && PutBack(s, i, x)[i] == x && TakeOut(PutBack(s, i, x), i) == s
  {
  }

  /** Moving down and up again restores the cursor, and so does up and down. */
  lemma UpDown<Id, S>(z: Zipper<Id, S>, idx: nat)
    requires Valid(z)
    ensures idx < |z.node.children| ==> Valid(Down(z, idx)) && Up(Down(z, idx)) == z
    ensures z.parent.Some? ==>
              z.selfIdx < |Up(z).node.children| && Valid(Up(z)) && Down(Up(z), z.selfIdx) == z
    ensures z.parent.Some? ==> Depth(Up(z)) < Depth(z)
  {
    if idx < |z.node.children| {
      DownUp(z, idx);
    }
    if z.parent.Some? {
      assert Valid(z.parent.value) && Depth(Up(z)) == Depth(z.parent.value);
      PutBackTakeOut(z.parent.value.node.children, z.selfIdx, z.node);
    }
  }

  /** The tree a cursor stands for. */
  ghost function Plug<Id, S>(z: Zipper<Id, S>): (node: Node<Id, S>)
    requires Valid(z)
    decreases Depth(z)
  {
    if z.parent.None? then z.node else (UpDown(z, 0); Plug(Up(z)))
  }

  /** A cursor in a well-formed tree focuses a well-formed subtree, in which a
      lookup of one of its ids has the same answer as in the whole tree. */
  lemma {:induction false} FocusInPlug<Id, S>(z: Zipper<Id, S>, id: Id)
    requires Valid(z) && WellFormed(Plug(z))
    ensures WellFormed(z.node) && Ids(z.node) <= Ids(Plug(z))
    ensures id in Ids(z.node) ==> Find(Plug(z), id) == Find(z.node, id)
    ensures id in Below(z.node) ==> ParentOf(Plug(z), id) == ParentOf(z.node, id)
    decreases Depth(z)
  {
    if z.parent.Some? {
      UpDown(z, 0);
      var p := Up(z);
      FocusInPlug(p, id);
      assert p.node.children[z.selfIdx] == z.node;
      assert Ids(z.node) <= Below(p.node);
      if id in Ids(z.node) {
        FindThroughChild(p.node, id, z.selfIdx);
        ParentThroughChild(p.node, id, z.selfIdx);
      }
    }
  }

  /** `Zipper::child`. */
  method Child<Id(==), S>(z: Zipper<Id, S>, idx: nat) returns (r: Zipper<Id, S>)
    requires Valid(z) && idx < |z.node.children|
    ensures r == Down(z, idx) && Valid(r) && Up(r) == z
  {
    // swap_remove
    var children := z.node.children;
    var child, last := children[idx], |children| - 1;
    children := children[idx := children[last]];
    children := children[..last];
    r := Zipper(child, Some(z.(node := z.node.(children := children))), idx);
    assert children == TakeOut(z.node.children, idx);
    UpDown(z, idx);
  }

  /** `Zipper::parent`. */
  method Parent<Id(==), S>(z: Zipper<Id, S>) returns (r: Zipper<Id, S>)
    requires Valid(z) && z.parent.Some?
    ensures r == Up(z) && Valid(r) && Depth(r) < Depth(z)
  {
    var parent := z.parent.value;
    var children := parent.node.children + [z.node];
    var lastIdx := |children| - 1;
    children := children[z.selfIdx := children[lastIdx]][lastIdx := children[z.selfIdx]];
    assert children == PutBack(parent.node.children, z.selfIdx, z.node);
    r := Zipper(parent.node.(children := children), parent.parent, parent.selfIdx);
    UpDown(z, 0);
  }

  /** `Zipper::by_id`; the answer is None where the source's assertion fails. */
  method ById<Id(==), S>(z: Zipper<Id, S>, id: Id) returns (r: Option<Zipper<Id, S>>)
    requires Valid(z) && WellFormed(z.node)
    ensures r.Some? <==> id in Ids(z.node)
    ensures r.Some? ==> Valid(r.value) && Plug(r.value) == Plug(z)
    ensures r.Some? ==> r.value.node.id == id && Find(z.node, id) == Some(r.value.node)
  {
    var self := z;
    var containsId := id in self.node.keys;
    while containsId
      invariant Valid(self) && WellFormed(self.node) && containsId == (id in self.node.keys)
      invariant Plug(self) == Plug(z)
      invariant id in Ids(self.node) <==> id in Ids(z.node)
      invariant Find(self.node, id) == Find(z.node, id)
      decreases self.node
    {
      GuidedChild(self.node, id);
      var idx := ChildIdx(self.node, id).value;
      ghost var before := self;
      self := Child(self, idx);
      assert Plug(self) == Plug(before);
      containsId := id in self.node.keys;
    }
    FindPresent(self.node, id);
    r := if self.node.id != id then None else Some(self);
  }

  /** Climb one level with the focus rewritten: the parent is the old parent with
      that one child replaced. */
  lemma UpRewritten<Id, S>(z: Zipper<Id, S>, n: Node<Id, S>)
    requires Valid(z) && z.parent.Some?
    ensures Valid(z.(node := n)) && z.selfIdx < |Up(z).node.children|
    ensures Up(z).node.children[z.selfIdx] == z.node
    ensures var p := Up(z);
            Up(z.(node := n)) == p.(node := p.node.(children := p.node.children[z.selfIdx := n]))
  {
    UpDown(z, 0);
    var s := z.parent.value.node.children;
    assert PutBack(s, z.selfIdx, n) == PutBack(s, z.selfIdx, z.node)[z.selfIdx := n];
  }

  /** `Zipper::finish_update`. When the focus of `at` had its own state set to `s`,
      the tree that comes out is `at`'s tree with exactly that state overwritten. */
  method FinishUpdate<Id(==), S>(z: Zipper<Id, S>, ghost at: Zipper<Id, S>, ghost s: S) returns (r: Node<Id, S>)
    requires Valid(at) && WellFormed(Plug(at)) && z == at.(node := at.node.(state := s))
    ensures r == Mapped(Plug(at), SetAt(at.node.id, s))
  {
    var self := z;
    ghost var was, f := at, SetAt(at.node.id, s);
    FocusInPlug(at, at.node.id);
    SetAtRoot(at.node, s);
    while self.parent.Some?
      invariant Valid(was) && Valid(self) && Plug(was) == Plug(at) && at.node.id in Ids(was.node)
      invariant self == was.(node := Mapped(was.node, f))
      decreases Depth(self)
    {
      UpRewritten(was, self.node);
      UpDown(was, 0);
      ghost var idx, p := was.selfIdx, Up(was);
      FocusInPlug(p, at.node.id);
      SetThroughChild(p.node, at.node.id, s, idx);
      self := Parent(self);
      assert at.node.id in Below(p.node);
      was := p;
    }
    r := self.node;
  }

  /** `Zipper::finish_update_parent_id`. */
  method FinishUpdateParentId<Id(==), S>(z: Zipper<Id, S>, ghost at: Zipper<Id, S>, ghost s: S)
    returns (parentId: Option<Id>, r: Node<Id, S>)
    requires Valid(at) && WellFormed(Plug(at)) && z == at.(node := at.node.(state := s))
    ensures parentId == ParentOf(Plug(at), at.node.id)
    ensures r == Mapped(Plug(at), SetAt(at.node.id, s))
  {
    parentId := if z.parent.Some? then Some(z.parent.value.node.id) else None;
    FocusInPlug(at, at.node.id);
    if at.parent.None? {
      ParentOutside(at.node, at.node.id);
    } else {
      UpDown(at, 0);
      var p := Up(at);
      FocusInPlug(p, at.node.id);
      assert p.node.children[at.selfIdx] == at.node;
      assert at.node.id in Below(p.node);
      ParentThroughChild(p.node, at.node.id, at.selfIdx);
    }
    r := FinishUpdate(z, at, s);
  }

  /** `Zipper::finish_insert`. When `leaf` was pushed below the focus of `at`, the
      tree that comes out is `at`'s tree with the leaf inserted there. */
  method FinishInsert<Id(==), S>(z: Zipper<Id, S>, id: Id, ghost at: Zipper<Id, S>, ghost leaf: Node<Id, S>)
    returns (r: Node<Id, S>)
    requires Valid(at) && WellFormed(Plug(at)) && leaf.id == id
    requires z == at.(node := at.node.(children := at.node.children + [leaf]))
    ensures r == Inserted(Plug(at), at.node.id, leaf)
  {
    var self := z.(node := z.node.(keys := z.node.keys + {id}));
    ghost var was, pid := at, at.node.id;
    FocusInPlug(at, pid);
    InsertAtRoot(at.node, leaf);
    while self.parent.Some?
      invariant Valid(was) && Valid(self) && Plug(was) == Plug(at) && pid in Ids(was.node)
      invariant self == was.(node := Inserted(was.node, pid, leaf))
      decreases Depth(self)
    {
      UpRewritten(was, self.node);
      UpDown(was, 0);
      ghost var idx, p := was.selfIdx, Up(was);
      FocusInPlug(p, pid);
      InsertThroughChild(p.node, pid, leaf, idx);
      self := Parent(self);
      self := self.(node := self.node.(keys := self.node.keys + {id}));
      assert pid in Below(p.node);
      was := p;
    }
    r := self.node;
  }

  /** `Node::into_insert`; the answer is None where the source panics: no parent id
      given, or a parent that is not in the tree. */
  method IntoInsert<Id(==), S>(n: Node<Id, S>, parentId: Option<Id>, id: Id, newState: Id -> S)
    returns (r: Option<Node<Id, S>>)
    requires WellFormed(n)
    ensures r.Some? <==> parentId.Some? && parentId.value in Ids(n)
    ensures r.Some? ==> r.value == Inserted(n, parentId.value, NewNode(id, newState))
  {
    if parentId.None? {
      return None;
    }
    var z := ById(Cursor(n), parentId.value);
    if z.None? {
      return None;
    }
    var grown := z.value.(node := z.value.node.(children := z.value.node.children + [NewNode(id, newState)]));
    var t := FinishInsert(grown, id, z.value, NewNode(id, newState));
    r := Some(t);
  }

  /** `Node::into_update`; None where the source panics. */
  method IntoUpdate<Id(==), S>(n: Node<Id, S>, id: Id, state: S) returns (r: Option<Node<Id, S>>)
    requires WellFormed(n)
    ensures r.Some? <==> id in Ids(n)
    ensures r.Some? ==> r.value == Mapped(n, SetAt(id, state))
  {
    var z := ById(Cursor(n), id);
    if z.None? {
      return None;
    }
    var t := FinishUpdate(z.value.(node := z.value.node.(state := state)), z.value, state);
    r := Some(t);
  }

  /** A closure applied to every node, children first: it is given each node with its
      children as the closure already left them, whatever it does with them. */
  ghost function Rebuilt<Id, S>(z: Zipper<Id, S>, f: Zipper<Id, S> -> Node<Id, S>): (node: Node<Id, S>)
    decreases z.node
  {
    var cs := z.node.children;
    f(z.(node := z.node.(children :=
      seq(|cs|, i requires 0 <= i < |cs| => Rebuilt(Cursor(cs[i]), f)))))
  }

  /** The closure changes nothing but the state of the node it is given. */
  ghost predicate StateOnly<Id(!new), S(!new)>(f: Zipper<Id, S> -> Node<Id, S>, g: (Id, S) -> S) {
    forall n: Node<Id, S> :: f(Cursor(n)) == n.(state := g(n.id, n.state))
  }

  /** Such a closure maps every state and changes nothing else. */
  lemma {:induction false} RebuiltMaps<Id(!new), S(!new)>(
      n: Node<Id, S>, f: Zipper<Id, S> -> Node<Id, S>, g: (Id, S) -> S)
    requires StateOnly(f, g)
    ensures Rebuilt(Cursor(n), f) == Mapped(n, g)
    decreases n
  {
    var cs := seq(|n.children|, i requires 0 <= i < |n.children| => Rebuilt(Cursor(n.children[i]), f));
    forall i | 0 <= i < |n.children| ensures cs[i] == Mapped(n.children[i], g) {
      RebuiltMaps(n.children[i], f, g);
    }
    assert cs == Mapped(n, g).children;
    assert f(Cursor(n.(children := cs))) == n.(children := cs).(state := g(n.id, n.state));
  }

  ghost function StatesOf<Id, S>(cs: seq<Node<Id, S>>): (states: seq<S>) {
    seq(|cs|, i requires 0 <= i < |cs| => cs[i].state)
  }

  /** The closure sets the state from the node's id, its state and the states of the
      children it is given, and changes nothing else. */
  ghost predicate SetsState<Id(!new), S(!new)>(f: Zipper<Id, S> -> Node<Id, S>, g: (Id, S, seq<S>) -> S) {
    forall n: Node<Id, S> :: f(Cursor(n)) == n.(state := g(n.id, n.state, StatesOf(n.children)))
  }

  /** `r` is `n` with the same ids, order and caches, and with every state set from the
      old one and the new states of the children. */
  ghost predicate ChildrenFirst<Id, S>(n: Node<Id, S>, r: Node<Id, S>, g: (Id, S, seq<S>) -> S)
    decreases n
  {
    && r.id == n.id && r.keys == n.keys && r.state == g(n.id, n.state, StatesOf(r.children))
    && |r.children| == |n.children|
    && (forall i | 0 <= i < |n.children| :: ChildrenFirst(n.children[i], r.children[i], g))
  }

  /** A closure that looks at the children's states sees the new ones. */
  lemma {:induction false} RebuiltChildrenFirst<Id(!new), S(!new)>(
      n: Node<Id, S>, f: Zipper<Id, S> -> Node<Id, S>, g: (Id, S, seq<S>) -> S)
    requires SetsState(f, g)
    ensures ChildrenFirst(n, Rebuilt(Cursor(n), f), g)
    decreases n
  {
    var cs, r := n.children, Rebuilt(Cursor(n), f);
    var ms := seq(|cs|, i requires 0 <= i < |cs| => Rebuilt(Cursor(cs[i]), f));
    assert r == f(Cursor(n.(children := ms))) && r.children == ms;
    forall i | 0 <= i < |cs| ensures ChildrenFirst(cs[i], r.children[i], g) {
      RebuiltChildrenFirst(cs[i], f, g);
    }
  }

  lemma PostOrderStep<Id, S>(cs: seq<Node<Id, S>>, i: nat, visited: seq<Id>, seen: seq<Id>)
    requires i < |cs| && seen == PostOrder(cs[i])
    requires visited + PostOrderIn(cs[i..]) == PostOrderIn(cs)
    ensures visited + seen + PostOrderIn(cs[i + 1..]) == PostOrderIn(cs)
  {
    assert cs[i..][0] == cs[i] && cs[i..][1..] == cs[i + 1..];
    assert visited + seen + PostOrderIn(cs[i + 1..]) == visited + (seen + PostOrderIn(cs[i + 1..]));
  }

  /** `Zipper::finish_update_fn`, for any closure: `visited` records the ids in the
      order in which the closure is applied. */
  method FinishUpdateFn<Id(==, !new), S(!new)>(z: Zipper<Id, S>, f: Zipper<Id, S> -> Node<Id, S>)
    returns (r: Node<Id, S>, visited: seq<Id>)
    ensures r == Rebuilt(z, f)
    ensures forall g: (Id, S, seq<S>) -> S | SetsState(f, g) && z == Cursor(z.node) :: ChildrenFirst(z.node, r, g)
    ensures visited == PostOrder(z.node)
    decreases z.node, 1
  {
    var children, seen := FinishChildren(z.node.children, f);
    var cs := z.node.children;
    assert children == seq(|cs|, i requires 0 <= i < |cs| => Rebuilt(Cursor(cs[i]), f));
    r, visited := f(z.(node := z.node.(children := children))), seen + [z.node.id];
    forall g: (Id, S, seq<S>) -> S | SetsState(f, g) && z == Cursor(z.node) ensures ChildrenFirst(z.node, r, g) {
      RebuiltChildrenFirst(z.node, f, g);
    }
  }

  /** The `map` over the children. */
  method FinishChildren<Id(==, !new), S(!new)>(cs: seq<Node<Id, S>>, f: Zipper<Id, S> -> Node<Id, S>)
    returns (ms: seq<Node<Id, S>>, visited: seq<Id>)
    ensures |ms| == |cs| && forall k :: 0 <= k < |cs| ==> ms[k] == Rebuilt(Cursor(cs[k]), f)
    ensures visited == PostOrderIn(cs)
    decreases cs, 0
  {
    ms, visited := [], [];
    for i := 0 to |cs|
      invariant |ms| == i && forall k :: 0 <= k < i ==> ms[k] == Rebuilt(Cursor(cs[k]), f)
      invariant visited + PostOrderIn(cs[i..]) == PostOrderIn(cs)
    {
      var child, seen := FinishUpdateFn(Cursor(cs[i]), f);
      PostOrderStep(cs, i, visited, seen);
      ms, visited := ms + [child], visited + seen;
    }
    assert cs[|cs|..] == [];
  }
}

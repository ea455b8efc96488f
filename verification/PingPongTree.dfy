/** The one tree of a game and what the tree operations do to it. */
module PingPongTree {
  import opened Base
  import opened StateTree
  import opened SharedTrees
  import opened PingPong

  ghost function GameTree(c: Cast, m: GameState, p: GameState, q: GameState): (node: Node<Id, GameState>) {
    Node(c.menu, m, {c.ping, c.pong}, [Node(c.ping, p, {}, []), Node(c.pong, q, {}, [])])
  }

  lemma GameTreeShape(c: Cast, m: GameState, p: GameState, q: GameState)
    requires c.Valid()
    ensures var t := GameTree(c, m, p, q);
            && WellFormed(t) && Ids(t) == {c.menu, c.ping, c.pong}
            && ParentOf(t, c.menu).None? && ParentOf(t, c.ping) == Some(c.menu) && ParentOf(t, c.pong) == Some(c.menu)
            && PostOrder(t) == [c.ping, c.pong, c.menu]
  {
    var t := GameTree(c, m, p, q);
    var a, b := t.children[0], t.children[1];
    assert Below(a) == {} && Below(b) == {};
    assert Ids(a) == {c.ping} && Ids(b) == {c.pong};
    assert Below(t) == {c.ping, c.pong} by {
      assert c.ping in Ids(t.children[0]) && c.pong in Ids(t.children[1]);
    }
    ParentOutside(t, c.menu);
    ParentThroughChild(t, c.ping, 0);
    ParentThroughChild(t, c.pong, 1);
    assert PostOrder(a) == [c.ping] && PostOrder(b) == [c.pong];
    assert t.children[1..] == [b] && [b][1..] == [];
    assert PostOrderIn([b]) == PostOrder(b) + PostOrderIn([b][1..]);
    assert PostOrderIn(t.children) == PostOrder(a) + PostOrderIn([b]);
  }

  lemma GameTreeStates(c: Cast, m: GameState, p: GameState, q: GameState)
    requires c.Valid()
    ensures States(GameTree(c, m, p, q)) == map[c.menu := m, c.ping := p, c.pong := q]
  {
    var t := GameTree(c, m, p, q);
    GameTreeShape(c, m, p, q);
    assert Find(t, c.ping) == Some(t.children[0]) by { FindThroughChild(t, c.ping, 0); }
    assert Find(t, c.pong) == Some(t.children[1]) by { FindThroughChild(t, c.pong, 1); }
  }

  lemma GameTreeMapped(c: Cast, m: GameState, p: GameState, q: GameState, f: (Id, GameState) -> GameState)
    ensures Mapped(GameTree(c, m, p, q), f) == GameTree(c, f(c.menu, m), f(c.ping, p), f(c.pong, q))
  {
    var t := GameTree(c, m, p, q);
    assert Mapped(t.children[0], f) == Node(c.ping, f(c.ping, p), {}, []);
    assert Mapped(t.children[1], f) == Node(c.pong, f(c.pong, q), {}, []);
    assert Mapped(t, f).children == GameTree(c, f(c.menu, m), f(c.ping, p), f(c.pong, q)).children;
  }

  /** Play builds the tree: menu above ping and pong, all in their new states. */
  lemma GameTreeBuilt(c: Cast)
    requires c.Valid()
    ensures Run(NewNode(c.menu, NewState), [TreeOp.Insert(c.menu, c.ping), TreeOp.Insert(c.menu, c.pong)], NewState)
         == GameTree(c, MenuReady, PingReady, PongReady)
  {
    var n := NewNode(c.menu, NewState);
    NewNodeShape(c.menu, NewState);
    var a, b := NewNode(c.ping, NewState), NewNode(c.pong, NewState);
    InsertAtRoot(n, a);
    var n1 := Inserted(n, c.menu, a);
    assert n1 == Node(c.menu, MenuReady, {c.ping}, [a]);
    InsertedShape(n, c.menu, a);
    InsertAtRoot(n1, b);
    var n2 := Inserted(n1, c.menu, b);
    assert n2 == Node(c.menu, MenuReady, {c.ping} + {c.pong}, [a] + [b]);
    var ops := [TreeOp.Insert(c.menu, c.ping), TreeOp.Insert(c.menu, c.pong)];
    assert ops[1..] == [TreeOp.Insert(c.menu, c.pong)] && ops[1..][1..] == [];
    assert Run(n1, ops[1..], NewState) == Run(n2, [], NewState);
  }
}

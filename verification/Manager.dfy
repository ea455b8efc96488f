/** What a state machine may do through its context (src/manager.rs:127-169,
    287-372). A kind's callbacks are arbitrary functions; the only message sent by
    these operations is a timeout request. */
module Manager {
  import opened Base
  import opened StateTree
  import opened SharedTrees
  import opened Storage
  import opened StreamQueue
  import Timers

  datatype SmContext<!K(==, !new), !S(!new), !Input, !Item> = SmContext(
    signalQueue: StreamableDeque<Signal<StateId<K>, Input>>,
    notificationQueue: StreamableDeque<Timers.Request<StateId<K>, Item>>,
    store: StateStore<K, S>,
    id: StateId<K>)
  {
    ghost predicate Valid()
      reads signalQueue, notificationQueue, store, store.trees.Values
    {
      && signalQueue.Valid() && notificationQueue.Valid() && store.Valid()
      && signalQueue as object != notificationQueue as object
      && !id.IsNil()
    }
  }

  /** `SmContext::get_state`. */
  method GetState<K(==, !new), S(!new), Input, Item>(ctx: SmContext<K, S, Input, Item>) returns (r: Option<S>)
    requires ctx.Valid()
    ensures r.Some? <==> ctx.id in ctx.store.trees
    ensures r.Some? ==> ctx.id in Ids(ctx.store.trees[ctx.id].node)
    ensures r.Some? ==> r.value == States(ctx.store.trees[ctx.id].node)[ctx.id]
  {
    var tree := ctx.store.GetTree(ctx.id);
    if tree.None? {
      return None;
    }
    var n := Get(tree.value.node, ctx.id);
    FindPresent(tree.value.node, ctx.id);
    r := if n.Some? then Some(n.value.state) else None;
  }

  /** `SmContext::get_parent_id`. */
  method GetParent<K(==, !new), S(!new), Input, Item>(ctx: SmContext<K, S, Input, Item>) returns (r: Option<StateId<K>>)
    requires ctx.Valid()
    ensures r == if ctx.id in ctx.store.trees then ParentOf(ctx.store.trees[ctx.id].node, ctx.id) else None
  {
    var tree := ctx.store.GetTree(ctx.id);
    if tree.None? {
      return None;
    }
    r := GetParentId(tree.value.node, ctx.id);
  }

  method StoreRoot<K(==, !new), S(!new)>(store: StateStore<K, S>, id: StateId<K>, newState: StateId<K> -> S)
    requires !id.IsNil()
    modifies store
    ensures id in store.trees && fresh(store.trees[id]) && store.trees == old(store.trees)[id := store.trees[id]]
    ensures store.trees[id].node == NewNode(id, newState)
    ensures old(store.Valid()) ==>
              (store.Valid() <==> id !in old(store.trees) || Ids(old(store.trees)[id].node) == {id})
  {
    ghost var was, valid := store.trees, store.Valid();
    var tree := new SharedTree(NewNode(id, newState));
    if valid {
      store.NewApart(tree);
    }
    NewNodeShape(id, newState);
    store.InsertRef(id, tree);
    if valid {
      store.IdAdded(was, tree, {}, id);
    }
  }

  /** `create_tree`. A valid store stays valid exactly when the id was in no tree, or
      alone in one. */
  method CreateTree<K(==, !new), S(!new), Input, Item>(ctx: SmContext<K, S, Input, Item>, newState: StateId<K> -> S)
    requires !ctx.id.IsNil()
    modifies ctx.store
    ensures ctx.id in ctx.store.trees && fresh(ctx.store.trees[ctx.id])
    ensures ctx.store.trees == old(ctx.store.trees)[ctx.id := ctx.store.trees[ctx.id]]
    ensures ctx.store.trees[ctx.id].node == NewNode(ctx.id, newState)
    ensures old(ctx.Valid()) ==>
              (ctx.Valid() <==> ctx.id !in old(ctx.store.trees) || Ids(old(ctx.store.trees)[ctx.id].node) == {ctx.id})
  {
    StoreRoot(ctx.store, ctx.id, newState);
  }

  /** The first step of `new_child`: the child is indexed before it is in the tree.
      With a new id every node is still indexed in between. */
  method IndexChild<K(==, !new), S(!new)>(store: StateStore<K, S>, id: StateId<K>, childId: StateId<K>)
    returns (tree: SharedTree<StateId<K>, S>)
    requires id in store.trees && !id.IsNil() && !childId.IsNil()
    modifies store
    ensures tree == old(store.trees)[id] && store.trees == old(store.trees)[childId := tree]
    ensures old(store.Valid()) ==>
              (store.Indexed()
               <==> childId !in old(store.trees) || old(store.trees)[childId] == tree
                    || Ids(old(store.trees)[childId].node) == {childId})
  {
    ghost var was, valid := store.trees, store.Valid();
    var t := store.GetTree(id);
    tree := t.value;
    store.InsertRef(childId, tree);
    if valid {
      store.IdIndexed(was, tree, childId);
    }
  }

  /** The second step: the child joins the tree. */
  method GrowTree<K(==, !new), S(!new)>(
      tree: SharedTree<StateId<K>, S>, parentId: StateId<K>, childId: StateId<K>, newState: StateId<K> -> S)
    requires WellFormed(tree.node) && parentId in Ids(tree.node)
    modifies tree
    ensures tree.node == Applied(old(tree.node), TreeOp.Insert(parentId, childId), newState)
    ensures WellFormed(tree.node) <==> childId !in old(Ids(tree.node))
    ensures WellFormed(tree.node) ==> Ids(tree.node) == old(Ids(tree.node)) + {childId}
  {
    InsertKeepsShapeIff(tree.node, parentId, childId, newState);
    if childId !in Ids(tree.node) {
      InsertedShape(tree.node, parentId, NewNode(childId, newState));
    }
    tree.Insert(parentId, childId, newState);
  }

  /** The store was `was`, and valid if `valid` says so, before the child was indexed. */
  method GrowStored<K(==, !new), S(!new)>(
      store: StateStore<K, S>, tree: SharedTree<StateId<K>, S>, id: StateId<K>, childId: StateId<K>,
      newState: StateId<K> -> S, ghost was: map<StateId<K>, SharedTree<StateId<K>, S>>, ghost valid: bool)
    requires WellFormed(tree.node) && id in Ids(tree.node)
    requires valid ==>
               && store.trees == was[childId := tree] && (forall i | i in store.trees :: !i.IsNil())
               && store.Apart(was, tree) && forall j :: j in Ids(tree.node) <==> j in was && was[j] == tree
    modifies tree
    ensures tree.node == Applied(old(tree.node), TreeOp.Insert(id, childId), newState)
    ensures valid ==>
              (store.Valid() <==> childId !in was || (was[childId] != tree && Ids(was[childId].node) == {childId}))
  {
    ghost var ids := Ids(tree.node);
    GrowTree(tree, id, childId, newState);
    if valid {
      store.ChildAdded(was, tree, ids, childId);
    }
  }

  method StoreChild<K(==, !new), S(!new)>(
      store: StateStore<K, S>, id: StateId<K>, childId: StateId<K>, newState: StateId<K> -> S)
    requires id in store.trees && !id.IsNil() && !childId.IsNil()
    requires WellFormed(store.trees[id].node) && id in Ids(store.trees[id].node)
    modifies store, store.trees[id]
    ensures store.trees == old(store.trees)[childId := old(store.trees)[id]]
    ensures old(store.trees)[id].node == Applied(old(store.trees[id].node), TreeOp.Insert(id, childId), newState)
    ensures old(store.Valid()) ==>
              (store.Valid()
               <==> childId !in old(store.trees)
                    || (old(store.trees)[childId] != old(store.trees)[id]
                        && Ids(old(store.trees)[childId].node) == {childId}))
  {
    ghost var was, valid := store.trees, store.Valid();
    if valid {
      store.ValidApart(id);
    }
    var tree := IndexChild(store, id, childId);
    GrowStored(store, tree, id, childId, newState, was, valid);
  }

  /** `new_child`, for a caller that is in the tree it indexes. A valid store stays valid
      exactly when the child's id was in no tree, or alone in another one. */
  method NewChild<K(==, !new), S(!new), Input, Item>(
      ctx: SmContext<K, S, Input, Item>, childId: StateId<K>, newState: StateId<K> -> S)
    requires ctx.id in ctx.store.trees && !ctx.id.IsNil() && !childId.IsNil()
    requires WellFormed(ctx.store.trees[ctx.id].node) && ctx.id in Ids(ctx.store.trees[ctx.id].node)
    modifies ctx.store, ctx.store.trees[ctx.id]
    ensures ctx.store.trees == old(ctx.store.trees)[childId := old(ctx.store.trees)[ctx.id]]
    ensures old(ctx.store.trees)[ctx.id].node
         == Applied(old(ctx.store.trees[ctx.id].node), TreeOp.Insert(ctx.id, childId), newState)
    ensures old(ctx.Valid()) ==>
              (ctx.Valid()
               <==> childId !in old(ctx.store.trees)
                    || (old(ctx.store.trees)[childId] != old(ctx.store.trees)[ctx.id]
                        && Ids(old(ctx.store.trees)[childId].node) == {childId}))
  {
    StoreChild(ctx.store, ctx.id, childId, newState);
  }

  /** `StateMachine::update`. */
  method Update<K(==, !new), S(!new), Input, Item>(
      ctx: SmContext<K, S, Input, Item>, state: S, newState: StateId<K> -> S)
    requires ctx.Valid() && ctx.id in ctx.store.trees
    modifies ctx.store.trees[ctx.id]
    ensures ctx.Valid()
    ensures ctx.store.trees[ctx.id].node
         == Applied(old(ctx.store.trees[ctx.id].node), TreeOp.Update(ctx.id, state), newState)
  {
    ctx.store.ValidApart(ctx.id);
    var tree := ctx.store.GetTree(ctx.id);
    ghost var n := tree.value.node;
    MappedShape(n, SetAt(ctx.id, state));
    tree.value.Update(ctx.id, state, newState);
    ctx.store.StillValid(tree.value, Ids(n));
  }

  /** What the parent, if there is one, is told about the child's new state. */
  ghost function StateChange<K, S, Input>(
      parent: Option<StateId<K>>, state: S, stateInput: (K, S) -> Option<Input>)
      : (signals: seq<Signal<StateId<K>, Input>>)
  {
    if parent.Some? && stateInput(parent.value.kind, state).Some?
    then [Signal(parent.value, stateInput(parent.value.kind, state).value)]
    else []
  }

  /** Each of `signals`, of which there is at most one, joined the end of the normal lane
      and woke one receiver. */
  ghost predicate Signalled<K, Input>(
      was: Deque<Signal<StateId<K>, Input>>, now: Deque<Signal<StateId<K>, Input>>,
      signals: seq<Signal<StateId<K>, Input>>)
    requires was.Valid()
  {
    && now == (if signals == [] then was else Notified(was.(lanes := PushedBack(was.lanes, signals[0]))))
    && Grown(was, now)
  }

  /** `update_state_and_signal`. */
  method UpdateStateAndSignal<K(==, !new), S(!new), Input, Item>(
      ctx: SmContext<K, S, Input, Item>, state: S, newState: StateId<K> -> S, stateInput: (K, S) -> Option<Input>)
    returns (parent: Option<StateId<K>>)
    requires ctx.Valid() && ctx.id in ctx.store.trees
    modifies ctx.store.trees[ctx.id], ctx.signalQueue
    ensures ctx.Valid()
    ensures ctx.store.trees[ctx.id].node
         == Applied(old(ctx.store.trees[ctx.id].node), TreeOp.Update(ctx.id, state), newState)
    ensures parent == ParentOf(old(ctx.store.trees[ctx.id].node), ctx.id)
    ensures Signalled(old(ctx.signalQueue.View()), ctx.signalQueue.View(), StateChange(parent, state, stateInput))
  {
    Ungrown(ctx.signalQueue.View());
    parent := UpdateTree(ctx, state, newState);
    if parent.Some? {
      SignalStateChange(ctx.signalQueue, parent.value, state, stateInput);
    }
  }

  method UpdateTree<K(==, !new), S(!new), Input, Item>(
      ctx: SmContext<K, S, Input, Item>, state: S, newState: StateId<K> -> S)
    returns (parent: Option<StateId<K>>)
    requires ctx.Valid() && ctx.id in ctx.store.trees
    modifies ctx.store.trees[ctx.id]
    ensures ctx.Valid()
    ensures ctx.store.trees[ctx.id].node
         == Applied(old(ctx.store.trees[ctx.id].node), TreeOp.Update(ctx.id, state), newState)
    ensures parent == ParentOf(old(ctx.store.trees[ctx.id].node), ctx.id)
  {
    ctx.store.ValidApart(ctx.id);
    var tree := ctx.store.GetTree(ctx.id);
    ghost var n := tree.value.node;
    MappedShape(n, SetAt(ctx.id, state));
    parent := tree.value.UpdateAndGetParentId(ctx.id, state, newState);
    ctx.store.StillValid(tree.value, Ids(n));
  }

  /** `signal_state_change`. */
  method SignalStateChange<K, S, Input>(
      queue: StreamableDeque<Signal<StateId<K>, Input>>, id: StateId<K>, state: S, stateInput: (K, S) -> Option<Input>)
    requires queue.Valid()
    modifies queue
    ensures queue.Valid()
    ensures Signalled(old(queue.View()), queue.View(), StateChange(Some(id), state, stateInput))
  {
    Ungrown(queue.View());
    var input := stateInput(id.kind, state);
    if input.Some? {
      queue.PushBack(Signal(id, input.value));
    }
  }

  /** `set_timeout`, at the instant `now` that the constructor of the request reads. */
  method SetTimeout<K(==, !new), S(!new), Input, Item>(
      ctx: SmContext<K, S, Input, Item>, now: int, duration: int)
    requires ctx.Valid()
    modifies ctx.notificationQueue
    ensures ctx.Valid() && Asked(old(ctx.notificationQueue.View()), ctx.notificationQueue.View(),
                                 Timers.Request(ctx.id, Timers.Set(now + duration)))
  {
    ctx.notificationQueue.PushFront(Timers.Request(ctx.id, Timers.Set(now + duration)));
  }

  /** `return_in`. */
  method ReturnIn<K(==, !new), S(!new), Input, Item>(
      ctx: SmContext<K, S, Input, Item>, item: Item, now: int, duration: int)
    requires ctx.Valid()
    modifies ctx.notificationQueue
    ensures ctx.Valid() && Asked(old(ctx.notificationQueue.View()), ctx.notificationQueue.View(),
                                 Timers.Request(ctx.id, Timers.Retain(item, now + duration)))
  {
    ctx.notificationQueue.PushFront(Timers.Request(ctx.id, Timers.Retain(item, now + duration)));
  }

  /** `cancel_timeout`. */
  method CancelTimeout<K(==, !new), S(!new), Input, Item>(ctx: SmContext<K, S, Input, Item>)
    requires ctx.Valid()
    modifies ctx.notificationQueue
    ensures ctx.Valid() && Asked(old(ctx.notificationQueue.View()), ctx.notificationQueue.View(),
                                 Timers.Request(ctx.id, Timers.Cancel))
  {
    ctx.notificationQueue.PushFront(Timers.Request(ctx.id, Timers.Cancel));
  }

  /** One request joined the end of the priority lane, and one waiter was woken. */
  ghost predicate Asked<K, Item>(
      was: Deque<Timers.Request<StateId<K>, Item>>, now: Deque<Timers.Request<StateId<K>, Item>>,
      r: Timers.Request<StateId<K>, Item>)
    requires was.Valid()
  {
    now == Notified(was.(lanes := PushedFront(was.lanes, r))) && Grown(was, now)
  }

  /** Only the caller's state is different afterwards, and the parent is the one node
      that has the caller among its children. */
  lemma UpdateIsLocal<K, S>(n: Node<StateId<K>, S>, id: StateId<K>, state: S, p: StateId<K>, newState: StateId<K> -> S)
    requires WellFormed(n) && id in Ids(n)
    ensures States(Applied(n, TreeOp.Update(id, state), newState)) == States(n)[id := state]
    ensures ParentOf(n, id) == Some(p) <==> HasChild(n, p, id)
    ensures ParentOf(n, id).None? <==> id == n.id
  {
    AppliedRefinesMap(n, TreeOp.Update(id, state), newState);
    ParentUnique(n, p, id);
  }
}

/** The store (src/storage.rs): every id of a tree indexes the one shared tree. */
module Storage {
  import opened Base
  import opened StateTree
  import opened SharedTrees

  class StateStore<K(==, !new), S(!new)> {
    var trees: map<StateId<K>, SharedTree<StateId<K>, S>>

    /** Every node of a stored tree is indexed, to that same tree. */
    ghost predicate Indexed()
      reads this, trees.Values
    {
      IndexedIn(trees)
    }

    /** And every id is indexed to a tree that contains it. */
    ghost predicate Valid()
      reads this, trees.Values
    {
      ValidMap(trees)
    }

    ghost predicate IndexedIn(m: map<StateId<K>, SharedTree<StateId<K>, S>>)
      reads m.Values
    {
      forall id, j | id in m && j in Ids(m[id].node) :: j in m && m[j] == m[id]
    }

    ghost predicate ValidMap(m: map<StateId<K>, SharedTree<StateId<K>, S>>)
      reads m.Values
    {
      && IndexedIn(m)
      && forall id | id in m :: !id.IsNil() && WellFormed(m[id].node) && id in Ids(m[id].node)
    }

    constructor ()
      ensures Valid() && trees == map[]
    {
      trees := map[];
    }

    method InsertRef(id: StateId<K>, node: SharedTree<StateId<K>, S>)
      requires !id.IsNil()
      modifies this
      ensures trees == old(trees)[id := node]
    {
      trees := trees[id := node];
    }

    /** In a valid store, that spoils it exactly when the tree has other nodes. */
    method RemoveRef(id: StateId<K>)
      requires !id.IsNil()
      modifies this
      ensures trees == old(trees) - {id}
      ensures old(Valid()) ==> (Valid() <==> id !in old(trees) || Ids(old(trees)[id].node) == {id})
    {
      trees := trees - {id};
      if old(Valid()) {
        IdRemoved(old(trees), id);
      }
    }

    lemma OthersUnindexed(was: map<StateId<K>, SharedTree<StateId<K>, S>>, id: StateId<K>)
      requires ValidMap(was) && trees == was - {id}
      requires id in was && Ids(was[id].node) != {id}
      ensures !Valid()
    {
      var j :| j in Ids(was[id].node) && j != id;
      assert was[j] == was[id];
      assert j in trees && trees[j] == was[id] && id in Ids(trees[j].node);
    }

    lemma IdRemoved(was: map<StateId<K>, SharedTree<StateId<K>, S>>, id: StateId<K>)
      requires ValidMap(was) && trees == was - {id}
      ensures Valid() <==> id !in was || Ids(was[id].node) == {id}
    {
      if id in was && Ids(was[id].node) != {id} {
        OthersUnindexed(was, id);
      } else {
        forall i, j | i in trees && j in Ids(trees[i].node) ensures j in trees && trees[j] == trees[i] {
          assert was[j] == was[i];
        }
      }
    }

    /** The tree of an id. In a valid store its nodes are exactly the ids that index it. */
    method GetTree(id: StateId<K>) returns (r: Option<SharedTree<StateId<K>, S>>)
      requires !id.IsNil()
      ensures r == if id in trees then Some(trees[id]) else None
      ensures Valid() && r.Some? ==>
                WellFormed(r.value.node) && forall b :: b in Ids(r.value.node) <==> b in trees && trees[b] == r.value
    {
      r := if id in trees then Some(trees[id]) else None;
      if Valid() && id in trees {
        forall b ensures b in Ids(trees[id].node) <==> b in trees && trees[b] == trees[id] {
          SameTreeIff(id, b);
        }
      }
    }

    /** The trees of `m` other than `t` are well-formed and indexed. */
    ghost predicate Apart(m: map<StateId<K>, SharedTree<StateId<K>, S>>, t: SharedTree<StateId<K>, S>)
      reads set o | o in m.Values && o != t
    {
      && (forall i | i in m && m[i] != t :: WellFormed(m[i].node) && i in Ids(m[i].node))
      && (forall i, j | i in m && m[i] != t && j in Ids(m[i].node) :: j in m && m[j] == m[i])
    }

    lemma ValidApart(id: StateId<K>)
      requires Valid() && id in trees
      ensures Apart(trees, trees[id])
      ensures forall j :: j in Ids(trees[id].node) <==> j in trees && trees[j] == trees[id]
    {
    }

    /** A tree that is not stored is apart from the stored ones. */
    lemma NewApart(t: SharedTree<StateId<K>, S>)
      requires Valid() && t !in trees.Values
      ensures Apart(trees, t)
    {
    }

    /** Changing one tree without changing its ids keeps the store valid. */
    lemma StillValid(t: SharedTree<StateId<K>, S>, ids: set<StateId<K>>)
      requires Apart(trees, t) && forall i | i in trees :: !i.IsNil()
      requires forall j :: j in ids <==> j in trees && trees[j] == t
      requires WellFormed(t.node) && Ids(t.node) == ids
      ensures Valid()
    {
    }

    lemma Misindexed(j: StateId<K>, id: StateId<K>)
      requires j in trees && id in Ids(trees[j].node) && id in trees && trees[id] != trees[j]
      ensures !Indexed()
    {
    }

    /** Some other node of the tree that `id` was taken from still needs it. */
    lemma OthersLeft(was: map<StateId<K>, SharedTree<StateId<K>, S>>, t: SharedTree<StateId<K>, S>, id: StateId<K>)
      requires ValidMap(was) && trees == was[id := t]
      requires id in was && was[id] != t && Ids(was[id].node) != {id}
      ensures !Indexed()
    {
      var j :| j in Ids(was[id].node) && j != id;
      assert was[j] == was[id];
      Misindexed(j, id);
    }

    /** Indexing an id to another stored tree leaves every node indexed exactly when no
        other tree still needs that id. */
    lemma IdIndexed(was: map<StateId<K>, SharedTree<StateId<K>, S>>, t: SharedTree<StateId<K>, S>, id: StateId<K>)
      requires ValidMap(was) && t in was.Values && trees == was[id := t]
      ensures Indexed() <==> id !in was || was[id] == t || Ids(was[id].node) == {id}
    {
      if id in was && was[id] != t && Ids(was[id].node) != {id} {
        OthersLeft(was, t, id);
      } else {
        forall i, j | i in trees && j in Ids(trees[i].node) ensures j in trees && trees[j] == trees[i] {
          StillIndexed(was, t, id, i, j);
        }
      }
    }

    lemma StillIndexed(was: map<StateId<K>, SharedTree<StateId<K>, S>>, t: SharedTree<StateId<K>, S>, id: StateId<K>,
                       i: StateId<K>, j: StateId<K>)
      requires ValidMap(was) && t in was.Values && trees == was[id := t]
      requires id !in was || was[id] == t || Ids(was[id].node) == {id}
      requires i in trees && j in Ids(trees[i].node)
      ensures j in trees && trees[j] == trees[i]
    {
      if trees[i] == t {
        var o :| o in was && was[o] == t;
        assert j in Ids(was[o].node);
      } else {
        assert trees[i] == was[i] && was[j] == was[i];
        assert i in Ids(was[j].node);
      }
    }

    /** Indexing an id to a tree with ids `ids` so far, and adding it to that tree,
        keeps the store valid exactly when no other tree still needs that id. */
    lemma IdAdded(was: map<StateId<K>, SharedTree<StateId<K>, S>>, t: SharedTree<StateId<K>, S>, ids: set<StateId<K>>,
                  id: StateId<K>)
      requires trees == was[id := t] && (id in was ==> was[id] != t) && forall i | i in trees :: !i.IsNil()
      requires WellFormed(t.node) && Ids(t.node) == ids + {id}
      requires forall j :: j in ids <==> j in was && was[j] == t
      requires Apart(was, t)
      ensures Valid() <==> id !in was || Ids(was[id].node) == {id}
    {
      if id in was && Ids(was[id].node) != {id} {
        var j :| j in Ids(was[id].node) && j != id;
        assert was[j] == was[id];
        Misindexed(j, id);
      } else {
        forall i, j | i in trees && j in Ids(trees[i].node) ensures j in trees && trees[j] == trees[i] {
          if trees[i] != t {
            assert trees[i] == was[i] && was[j] == was[i];
            assert i in Ids(was[j].node);
          }
        }
      }
    }

    /** The same for a tree of the store that may hold the id already. */
    lemma ChildAdded(was: map<StateId<K>, SharedTree<StateId<K>, S>>, t: SharedTree<StateId<K>, S>,
                     ids: set<StateId<K>>,
                     id: StateId<K>)
      requires trees == was[id := t] && forall i | i in trees :: !i.IsNil()
      requires WellFormed(t.node) <==> id !in ids
      requires WellFormed(t.node) ==> Ids(t.node) == ids + {id}
      requires forall j :: j in ids <==> j in was && was[j] == t
      requires Apart(was, t)
      ensures Valid() <==> id !in was || (was[id] != t && Ids(was[id].node) == {id})
    {
      if id in ids {
        assert trees[id] == t && !WellFormed(t.node);
      } else {
        IdAdded(was, t, ids, id);
      }
    }

    /** Distinct trees of the store have no id in common. */
    lemma DistinctTreesDisjoint(a: StateId<K>, b: StateId<K>)
      requires Valid() && a in trees && b in trees && trees[a] != trees[b]
      ensures Ids(trees[a].node) !! Ids(trees[b].node)
    {
      forall j | j in Ids(trees[a].node) ensures j !in Ids(trees[b].node) {
        assert trees[j] == trees[a];
      }
    }

    /** Two ids index the same tree exactly when one is a node of the other's tree. */
    lemma SameTreeIff(a: StateId<K>, b: StateId<K>)
      requires Valid() && a in trees
      ensures b in Ids(trees[a].node) <==> b in trees && trees[b] == trees[a]
    {
    }
  }
}

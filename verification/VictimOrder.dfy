/** Ordered victim indexes: sets of (last access, key) pairs in ascending order. */
module VictimOrder {
  import opened Blocks

  type Order = (nat, BlockKey)

  predicate OrderLeq(a: Order, b: Order) {
    a.0 < b.0 || (a.0 == b.0 && KeyLeq(a.1, b.1))
  }

  predicate IsFirst(o: Order, index: set<Order>) {
    o in index && forall p :: p in index ==> OrderLeq(o, p)
  }

  lemma {:induction false} FirstExists(index: set<Order>)
    requires index != {}
    ensures exists o :: IsFirst(o, index)
    decreases |index|
  {
    var o :| o in index;
    if index == {o} {
      assert IsFirst(o, index);
    } else {
      assert index == (index - {o}) + {o};
      FirstExists(index - {o});
      var p :| IsFirst(p, index - {o});
      assert IsFirst(if OrderLeq(p, o) then p else o, index);
    }
  }

  /** The first pair of an ordered index: the least recently used block. */
  function First(index: set<Order>): (o: Order)
    requires index != {}
    ensures IsFirst(o, index)
  {
    FirstExists(index);
    var o :| IsFirst(o, index);
    o
  }

  predicate IsLeast(id: nat, ids: set<nat>) {
    id in ids && forall j :: j in ids ==> id <= j
  }

  lemma {:induction false} LeastExists(ids: set<nat>)
    requires ids != {}
    ensures exists id :: IsLeast(id, ids)
    decreases |ids|
  {
    var id :| id in ids;
    if ids == {id} {
      assert IsLeast(id, ids);
    } else {
      assert ids == (ids - {id}) + {id};
      LeastExists(ids - {id});
      var j :| IsLeast(j, ids - {id});
      assert IsLeast(if j < id then j else id, ids);
    }
  }
}

/** The shelf numbers of the parcels at a Node's counter. */
module Shelves {
  import opened Wrappers
  import opened Routing
  import opened Model

  /** The orders that have a place on a Node's shelf. */
  function ShelvedAt(orders: map<OrderId, Order>, node: NodeId): set<OrderId> {
    set o | o in orders && orders[o].shelf.Some? && orders[o].shelf.value.nodeId == node
  }

  function UsedNumbers(orders: map<OrderId, Order>, node: NodeId): set<nat> {
    set o | o in ShelvedAt(orders, node) :: orders[o].shelf.value.number
  }

  /** The smallest of n..top that is not used, None when all are. */
  function FirstFree(used: set<nat>, n: nat, top: nat): Option<nat>
    decreases top + 1 - n
  {
    if n > top then None
    else if n !in used then Some(n)
    else FirstFree(used, n + 1, top)
  }

  lemma {:induction false} FirstFreeIsLeast(used: set<nat>, n: nat, top: nat)
    ensures match FirstFree(used, n, top)
            case None => forall k :: n <= k <= top ==> k in used
            case Some(r) => n <= r <= top && r !in used && forall k :: n <= k < r ==> k in used
    decreases top + 1 - n
  {
    if n <= top && n in used {
      FirstFreeIsLeast(used, n + 1, top);
    }
  }

  /** Pigeonhole: the numbers 1..top cannot all fit in fewer than `top` places. */
  lemma {:induction false} Pigeonhole(used: set<nat>, top: nat)
    requires forall k :: 1 <= k <= top ==> k in used
    ensures top <= |used|
    decreases top
  {
    if top > 0 {
      var rest := used - {top};
      Pigeonhole(rest, top - 1);
    }
  }

  /** Orders do not use more numbers than there are orders. */
  lemma {:induction false} NumbersFitOrders(orders: map<OrderId, Order>, some: set<OrderId>)
    requires forall o :: o in some ==> o in orders && orders[o].shelf.Some?
    ensures |set o | o in some :: orders[o].shelf.value.number| <= |some|
    decreases |some|
  {
    if some != {} {
      var o :| o in some;
      var rest := some - {o};
      NumbersFitOrders(orders, rest);
      var numbers := set p | p in some :: orders[p].shelf.value.number;
      var fewer := set p | p in rest :: orders[p].shelf.value.number;
      assert numbers == fewer + {orders[o].shelf.value.number};
    }
  }

  /** The lowest shelf number not in use at the Node. One always exists, no higher
      than one more than the number of parcels on the shelf. */
  function LowestFree(orders: map<OrderId, Order>, node: NodeId): (number: nat)
    ensures 1 <= number <= |ShelvedAt(orders, node)| + 1
    ensures number !in UsedNumbers(orders, node)
    ensures forall k :: 1 <= k < number ==> k in UsedNumbers(orders, node)
  {
    var used, top := UsedNumbers(orders, node), |ShelvedAt(orders, node)| + 1;
    var free := FirstFree(used, 1, top);
    FirstFreeIsLeast(used, 1, top);
    NumbersFitOrders(orders, ShelvedAt(orders, node));
    assert free.Some? by {
      if free.None? {
        Pigeonhole(used, top);
      }
    }
    free.value
  }
}

/** What is true of the tables between any two transactions. */
module Invariants {
  import opened Wrappers
  import opened Counting
  import opened DeliveryLeg
  import opened OrderRules
  import opened Routing
  import opened HandoffCodes
  import opened Money
  import opened Model

  // ----- One order ---------------------------------------------------------

  /** An order's latest leg. */
  function LastLeg(order: Order): Option<Leg> {
    if order.legs == [] then None else Some(order.legs[|order.legs| - 1])
  }

  /** The leg status that goes with each order status; an order that waits at the
      origin may have no leg, or only cancelled ones, when no courier would take it. */
  predicate StatusesAgree(status: OrderStatus, leg: Option<LegStatus>) {
    match status
    case AwaitingDropOff => leg.None?
    case ReceivedAtOrigin => leg.None? || leg.value == Requested || leg.value == Cancelled
    case RiderAssigned => leg == Some(Assigned)
    case InTransit => leg == Some(PickedUp)
    case ArrivedAtDestination => leg == Some(Delivered)
    case ReadyForCollection => leg == Some(Delivered)
    case Completed => leg == Some(Delivered)
    case ReturnInTransit => leg == Some(Returning)
    case ReturnedToOrigin => leg == Some(Returned)
    case ReadyForSenderCollection => leg == Some(Returned)
    case ReturnCompleted => leg == Some(Returned)
    case ReturnInitiated => false
    case OrderCancelled => false
    case Disputed => false
  }

  function StatusOf(leg: Option<Leg>): Option<LegStatus> {
    if leg.Some? then Some(leg.value.status) else None
  }

  predicate Waiting(status: OrderStatus) {
    status == AwaitingDropOff || status == ReceivedAtOrigin
  }

  /** The order and its latest leg tell the same story, down to who carries it: the
      rider who claimed the in-house leg, or nobody we know for an external one. */
  predicate Coupled(order: Order) {
    && StatusesAgree(order.status, StatusOf(LastLeg(order)))
    && order.riderId == if Waiting(order.status) then None else LastLeg(order).value.courierUserId
  }

  /** In-house legs are claimed by a rider and never come back; external couriers'
      riders are not Locoomo users. */
  predicate CourierOk(leg: Leg) {
    if leg.providerKey == InHouse then
      && leg.externalId.None?
      && leg.status != Returning && leg.status != Returned
      && (leg.status == Requested ==> leg.courierUserId.None?)
      && (leg.status in {Assigned, PickedUp, Delivered} ==> leg.courierUserId.Some?)
    else
      leg.courierUserId.None?
  }

  ghost predicate LegsOk(legs: seq<Leg>) {
    && (forall i :: 0 <= i < |legs| - 1 ==> legs[i].status == Cancelled)
    && (forall i :: 0 <= i < |legs| ==>
          legs[i].attemptNumber == i + 1 && legs[i].ended == IsTerminal(legs[i].status) && CourierOk(legs[i]))
  }

  /** A parcel is on the shelf of the Node that has it in hand, and on none else. */
  predicate ShelfOk(order: Order) {
    match order.status
    case ReceivedAtOrigin => order.shelf.Some? && order.shelf.value.nodeId == order.originNodeId
    case RiderAssigned => order.shelf.Some? && order.shelf.value.nodeId == order.originNodeId
    case ReadyForSenderCollection => order.shelf.Some? && order.shelf.value.nodeId == order.originNodeId
    case ReadyForCollection => order.shelf.Some? && order.shelf.value.nodeId == order.destinationNodeId
    case _ => order.shelf.None?
  }

  /** A handoff step has its idempotency key exactly when its event is in the log;
      a rider's handover, exactly when the in-house leg has been through it. */
  predicate KeysOk(order: Order) {
    && (DropOffScope in order.keys <==> LogReceived in order.log)
    && (IntakeScope in order.keys <==> LogReady in order.log)
    && (CollectionScope in order.keys <==> LogCollected in order.log)
    && (ReturnIntakeScope in order.keys <==> LogReadyForSender in order.log)
    && (ReturnCollectScope in order.keys <==> LogCollectedBySender in order.log)
    && (PickupScope in order.keys <==>
          LastLeg(order).Some? && LastLeg(order).value.providerKey == InHouse
          && LastLeg(order).value.status in {PickedUp, Delivered})
    && (ArrivalScope in order.keys <==>
          LastLeg(order).Some? && LastLeg(order).value.providerKey == InHouse
          && LastLeg(order).value.status == Delivered)
  }

  /** A completed order has exactly the entries that its rule, re-applied now, gives;
      any other order has none. */
  predicate MoneyOk(order: Order, rules: seq<SplitRule>) {
    && 0 <= order.destinationFeeKobo <= order.amountKobo
    && (if order.status == Completed then
          && |order.entries| == 4
          && order.entries[0].ruleId < |rules|
          && order.entries == SplitEntries(order.amountKobo, order.destinationFeeKobo, order.riderId,
                                           order.originNodeId, order.destinationNodeId,
                                           rules[order.entries[0].ruleId], order.entries[0].ruleId)
        else
          order.entries == [])
  }

  ghost predicate OrderCore(order: Order, rules: seq<SplitRule>) {
    && Coupled(order)
    && LegsOk(order.legs)
    && ShelfOk(order)
    && ReplayLog(order.log) == Some(order.status)
    && OneUnusedPerKind(order.codes)
    && MoneyOk(order, rules)
  }

  ghost predicate OrderOk(order: Order, rules: seq<SplitRule>) {
    OrderCore(order, rules) && KeysOk(order)
  }

  // ----- The counters ------------------------------------------------------

  /** Paid for, not yet picked up. */
  predicate BeforePickup(status: OrderStatus) {
    status in {AwaitingDropOff, ReceivedAtOrigin, RiderAssigned}
  }

  /** Returned to the origin, not yet collected by the sender. */
  predicate BackAtOrigin(status: OrderStatus) {
    status in {ReturnedToOrigin, ReadyForSenderCollection}
  }

  function PendingAt(node: NodeId): Intent -> bool {
    (intent: Intent) => intent.status == Pending && intent.originNodeId == node
  }

  function BeforePickupAt(node: NodeId): Order -> bool {
    (order: Order) => order.originNodeId == node && BeforePickup(order.status)
  }

  function HeldAt(node: NodeId): Order -> bool {
    (order: Order) => order.originNodeId == node && (BeforePickup(order.status) || BackAtOrigin(order.status))
  }

  function CarriedBy(rider: UserId): Order -> bool {
    (order: Order) => order.riderId == Some(rider) && order.status in {RiderAssigned, InTransit}
  }

  /** The slots taken at a Node: checkouts in progress, and orders held there. */
  ghost function SlotsTaken(s: State, node: NodeId): nat {
    Count(s.intents, PendingAt(node)) + Count(s.orders, HeldAt(node))
  }

  /** The part of them that was reserved against the capacity. */
  ghost function SlotsReserved(s: State, node: NodeId): nat {
    Count(s.intents, PendingAt(node)) + Count(s.orders, BeforePickupAt(node))
  }

  ghost predicate NodeOk(s: State, node: NodeId)
    requires node in s.nodes
  {
    && s.nodes[node].currentCount == SlotsTaken(s, node)
    && SlotsReserved(s, node) <= s.nodes[node].capacity
  }

  ghost predicate NodesOk(s: State) {
    forall n {:trigger NodeOk(s, n)} :: n in s.nodes ==> NodeOk(s, n)
  }

  /** How far a rider's counter is above the number of orders they really carry. */
  ghost function Drift(s: State, rider: UserId): int
    requires rider in s.riders
  {
    s.riders[rider].currentActiveOrderCount - Count(s.orders, CarriedBy(rider))
  }

  ghost predicate RidersOk(s: State) {
    forall r :: r in s.riders ==> Drift(s, r) == 0 && s.riders[r].currentActiveOrderCount <= MAX_ACTIVE_ORDERS_PER_RIDER
  }

  // ----- All tables --------------------------------------------------------

  ghost predicate IntentOk(s: State, i: IntentId)
    requires i in s.intents
  {
    var intent := s.intents[i];
    && intent.providerReference in {None, Some(i)}
    && intent.status != Failed
    && 0 <= intent.destinationFeeKobo <= intent.amountKobo
    && intent.originNodeId in s.nodes
    && (intent.status == Paid ==> exists o :: o in s.orders && s.orders[o].paymentIntentId == i)
  }

  /** An order belongs to a PAID intent and was made with what was paid for. */
  predicate PaidFor(s: State, order: Order) {
    && order.paymentIntentId in s.intents
    && var intent := s.intents[order.paymentIntentId];
    && intent.status == Paid
    && order.originNodeId == intent.originNodeId && order.destinationNodeId == intent.destinationNodeId
    && order.vehicleClass == intent.vehicleClass
    && order.amountKobo == intent.amountKobo && order.destinationFeeKobo == intent.destinationFeeKobo
  }

  predicate DifferentIntents(s: State, o: OrderId, p: OrderId)
    requires o in s.orders && p in s.orders
  {
    o != p ==> s.orders[o].paymentIntentId != s.orders[p].paymentIntentId
  }

  ghost predicate PaymentsOk(s: State) {
    && (forall i {:trigger IntentOk(s, i)} :: i in s.intents ==> IntentOk(s, i))
    && (forall o {:trigger PaidFor(s, s.orders[o])} :: o in s.orders ==> PaidFor(s, s.orders[o]))
    && (forall o, p {:trigger DifferentIntents(s, o, p)} :: o in s.orders && p in s.orders ==>
        DifferentIntents(s, o, p))
  }

  predicate DifferentShelves(orders: map<OrderId, Order>, o: OrderId, p: OrderId)
    requires o in orders && p in orders
  {
    o != p && orders[o].shelf.Some? ==> orders[o].shelf != orders[p].shelf
  }

  ghost predicate ShelvesDistinct(orders: map<OrderId, Order>) {
    forall o, p {:trigger DifferentShelves(orders, o, p)} :: o in orders && p in orders ==>
      DifferentShelves(orders, o, p)
  }

  /** A rider who carries a parcel has a profile. */
  predicate RiderKnown(s: State, order: Order) {
    order.status in {RiderAssigned, InTransit} && order.riderId.Some? ==> order.riderId.value in s.riders
  }

  ghost predicate RidersKnown(s: State) {
    forall o {:trigger RiderKnown(s, s.orders[o])} :: o in s.orders ==> RiderKnown(s, s.orders[o])
  }

  ghost predicate RulesOk(rules: seq<SplitRule>) {
    forall k {:trigger ValidSplit(rules[k])} :: 0 <= k < |rules| ==> ValidSplit(rules[k])
  }

  ghost predicate OrdersOk(s: State) {
    forall o {:trigger OrderOk(s.orders[o], s.splitRules)} :: o in s.orders ==> OrderOk(s.orders[o], s.splitRules)
  }

  ghost predicate Inv(s: State) {
    && OrdersOk(s)
    && PaymentsOk(s)
    && ShelvesDistinct(s.orders)
    && NodesOk(s)
    && RidersKnown(s)
    && RulesOk(s.splitRules)
  }

  /** The parts of the invariant that are about one order. */
  lemma About(s: State, o: OrderId)
    requires Inv(s) && o in s.orders
    ensures OrderOk(s.orders[o], s.splitRules) && RiderKnown(s, s.orders[o]) && PaidFor(s, s.orders[o])
    ensures OneUnusedPerKind(s.orders[o].codes) && NodesOk(s)
  {
  }

  // ----- What a change to one order must keep ------------------------------

  /** The fields of an order that never change. */
  predicate SameParcel(before: Order, after: Order) {
    && after.paymentIntentId == before.paymentIntentId
    && after.originNodeId == before.originNodeId && after.destinationNodeId == before.destinationNodeId
    && after.vehicleClass == before.vehicleClass
    && after.amountKobo == before.amountKobo && after.destinationFeeKobo == before.destinationFeeKobo
  }

  ghost predicate ShelfFree(orders: map<OrderId, Order>, o: OrderId, shelf: Option<Shelf>)
    requires o in orders
  {
    shelf.None? || shelf == orders[o].shelf || forall p :: p in orders ==> orders[p].shelf != shelf
  }

  /** The Node counters moved exactly as the order's hold on its origin did. */
  ghost predicate NodesFollow(s: State, s': State, before: Order, after: Order) {
    && s'.nodes.Keys == s.nodes.Keys
    && forall n :: n in s.nodes ==>
         && s'.nodes[n].capacity == s.nodes[n].capacity
         && s'.nodes[n].currentCount == s.nodes[n].currentCount - One(HeldAt(n)(before)) + One(HeldAt(n)(after))
  }

  /** One order changed, from `before` to `after`, with everything that goes with it. */
  ghost predicate OnlyOrderChanged(s: State, s': State, o: OrderId, after: Order) {
    && o in s.orders
    && s'.orders == s.orders[o := after]
    && s'.intents == s.intents && s'.splitRules == s.splitRules
    && s'.riders.Keys == s.riders.Keys
    && SameParcel(s.orders[o], after)
    && ShelfFree(s.orders, o, after.shelf)
    && NodesFollow(s, s', s.orders[o], after)
    && (BeforePickup(after.status) ==> BeforePickup(s.orders[o].status))
    && RiderKnown(s, after)
  }

  lemma NodesStayOk(s: State, s': State, o: OrderId, after: Order)
    requires NodesOk(s) && OnlyOrderChanged(s, s', o, after)
    ensures NodesOk(s')
  {
    forall n | n in s'.nodes
      ensures NodeOk(s', n)
    {
      assert NodeOk(s, n);
      CountUpdate(s.orders, HeldAt(n), o, after);
      CountUpdate(s.orders, BeforePickupAt(n), o, after);
    }
  }

  lemma PaymentsStayOk(s: State, s': State, o: OrderId, after: Order)
    requires PaymentsOk(s) && OnlyOrderChanged(s, s', o, after)
    ensures PaymentsOk(s')
  {
    forall i | i in s'.intents
      ensures IntentOk(s', i)
    {
      assert IntentOk(s, i);
      if s.intents[i].status == Paid {
        var p :| p in s.orders && s.orders[p].paymentIntentId == i;
        assert p in s'.orders && s'.orders[p].paymentIntentId == i;
      }
    }
    forall p | p in s'.orders
      ensures PaidFor(s', s'.orders[p])
    {
      assert PaidFor(s, s.orders[p]);
    }
    forall p, q | p in s'.orders && q in s'.orders
      ensures DifferentIntents(s', p, q)
    {
      assert DifferentIntents(s, p, q);
    }
  }

  lemma ShelvesStayDistinct(orders: map<OrderId, Order>, o: OrderId, after: Order)
    requires ShelvesDistinct(orders) && o in orders && ShelfFree(orders, o, after.shelf)
    ensures ShelvesDistinct(orders[o := after])
  {
    var orders' := orders[o := after];
    forall p, q | p in orders' && q in orders'
      ensures DifferentShelves(orders', p, q)
    {
      assert DifferentShelves(orders, p, q);
    }
  }

  lemma RidersStayKnown(s: State, s': State, o: OrderId, after: Order)
    requires RidersKnown(s) && OnlyOrderChanged(s, s', o, after)
    ensures RidersKnown(s')
  {
    forall p | p in s'.orders
      ensures RiderKnown(s', s'.orders[p])
    {
      assert RiderKnown(s, s.orders[p]);
    }
  }

  lemma OrdersStayOk(s: State, s': State, o: OrderId, after: Order)
    requires OrdersOk(s) && OrderOk(after, s.splitRules)
    requires s'.orders == s.orders[o := after] && s'.splitRules == s.splitRules
    ensures OrdersOk(s')
  {
    forall p | p in s'.orders
      ensures OrderOk(s'.orders[p], s'.splitRules)
    {
      if p != o {
        assert OrderOk(s.orders[p], s.splitRules);
      }
    }
  }

  /** Everything but the rider counters survives a change to one order that keeps
      that order's own invariant. */
  lemma OrderChangeKeepsInv(s: State, s': State, o: OrderId, after: Order)
    requires Inv(s) && OnlyOrderChanged(s, s', o, after)
    requires OrderOk(after, s.splitRules)
    ensures Inv(s')
  {
    OrdersStayOk(s, s', o, after);
    PaymentsStayOk(s, s', o, after);
    ShelvesStayDistinct(s.orders, o, after);
    NodesStayOk(s, s', o, after);
    RidersStayKnown(s, s', o, after);
  }

  /** A rider's drift changes with what they carry and with what their counter says. */
  lemma DriftAfterChange(s: State, s': State, o: OrderId, after: Order, rider: UserId)
    requires o in s.orders && s'.orders == s.orders[o := after]
    requires rider in s.riders && rider in s'.riders
    ensures Drift(s', rider) - Drift(s, rider) ==
              (s'.riders[rider].currentActiveOrderCount - s.riders[rider].currentActiveOrderCount)
              - (One(CarriedBy(rider)(after)) - One(CarriedBy(rider)(s.orders[o])))
  {
    CountUpdate(s.orders, CarriedBy(rider), o, after);
  }
}

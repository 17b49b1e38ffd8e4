/** What every reachable state looks like from outside: order against leg, counter
    against audit, shelf against shelf, log against status, money in against out. */
module Reachability {
  import opened Wrappers
  import opened Counting
  import opened DeliveryLeg
  import opened OrderRules
  import opened Routing
  import opened Money
  import opened Model
  import opened Capacity
  import opened Handoffs
  import opened Payments
  import opened DeliveryDispatch
  import opened DeliveryEvents
  import opened Invariants
  import opened LegProtocol
  import opened LegTransactions
  import opened InHouseSteps
  import opened Runs

  predicate HasLegIn(order: Order, status: LegStatus) {
    exists i :: 0 <= i < |order.legs| && order.legs[i].status == status
  }

  lemma LastLegIn(order: Order, status: LegStatus)
    requires LegsOk(order.legs) && status != Cancelled
    ensures HasLegIn(order, status) <==> LastLeg(order).Some? && LastLeg(order).value.status == status
  {
    if LastLeg(order).Some? && LastLeg(order).value.status == status {
      assert order.legs[|order.legs| - 1].status == status;
    }
  }

  /** In every reachable state an order and its legs agree: which leg status goes with
      which order status, at most one leg in progress, and who carries the parcel. */
  lemma LegAndOrderAgree(s: State, o: OrderId)
    requires Reachable(s) && o in s.orders
    ensures var order := s.orders[o];
            && (HasLegIn(order, Requested) ==> order.status == ReceivedAtOrigin)
            && (HasLegIn(order, Assigned) <==> order.status == RiderAssigned)
            && (HasLegIn(order, PickedUp) <==> order.status == InTransit)
            && (HasLegIn(order, Delivered) <==> order.status in {ArrivedAtDestination, ReadyForCollection, Completed})
            && (HasLegIn(order, Returning) <==> order.status == ReturnInTransit)
            && (HasLegIn(order, Returned) <==>
                order.status in {ReturnedToOrigin, ReadyForSenderCollection, ReturnCompleted})
            && order.status !in {ReturnInitiated, OrderCancelled, Disputed}
    ensures forall i :: 0 <= i < |s.orders[o].legs| - 1 ==> s.orders[o].legs[i].status == Cancelled
    ensures var order := s.orders[o];
            match order.riderId
            case Some(rider) => LastLeg(order).Some? && LastLeg(order).value.providerKey == InHouse
                                && LastLeg(order).value.courierUserId == Some(rider)
            case None => order.status in {AwaitingDropOff, ReceivedAtOrigin}
                         || (LastLeg(order).Some? && LastLeg(order).value.providerKey != InHouse)
  {
    ReachableIsConsistent(s);
    About(s, o);
    var order := s.orders[o];
    LastLegIn(order, Requested);
    LastLegIn(order, Assigned);
    LastLegIn(order, PickedUp);
    LastLegIn(order, Delivered);
    LastLegIn(order, Returning);
    LastLegIn(order, Returned);
    LegTelling(order, s.splitRules);
  }

  lemma LegTelling(order: Order, rules: seq<SplitRule>)
    requires OrderOk(order, rules)
    ensures order.riderId.Some? ==>
              LastLeg(order).Some? && LastLeg(order).value.providerKey == InHouse
              && LastLeg(order).value.courierUserId == order.riderId
    ensures order.riderId.None? ==>
              Waiting(order.status) || (LastLeg(order).Some? && LastLeg(order).value.providerKey != InHouse)
  {
    if LastLeg(order).Some? {
      assert CourierOk(order.legs[|order.legs| - 1]);
    }
  }

  /** In no reachable state does an event that a leg accepts make the listener throw. */
  lemma ListenerNeverThrows(s: State, o: OrderId, i: nat, event: LegEvent)
    requires Reachable(s) && HasLeg(s, o, i) && NextLegStatus(s.orders[o].legs[i].status, event).Some?
    ensures Move(s, o, i, event).Success?
  {
    hide Reachable, Inv, InStep, AfterEvent, Move, CountersAfter;
    ReachableIsConsistent(s);
    OnlyLastMovesIn(s, o, i, event);
    AboutStep(s, o);
    ListenerAccepts(s, o, event);
  }

  // ----- The pool against the list riders browse ---------------------------

  /** The orders that a rider is shown: received, without a rider, and not with another
      courier. */
  predicate Offered(order: Order) {
    && order.status == ReceivedAtOrigin && order.riderId.None?
    && forall i :: 0 <= i < |order.legs| ==> IsTerminal(order.legs[i].status) || order.legs[i].providerKey == InHouse
  }

  lemma OfferedIsInPool(order: Order, rules: seq<SplitRule>)
    requires OrderOk(order, rules)
    ensures Offered(order) <==> InPool(order)
  {
    if LastLeg(order).Some? {
      assert order.legs[|order.legs| - 1] == LastLeg(order).value;
    }
  }

  /** In every reachable state riders are shown exactly the orders that they can accept:
      an active rider with a slot to spare succeeds on those and on no other. */
  lemma PoolShowsWhatCanBeAccepted(s: State, o: OrderId, rider: UserId)
    requires Reachable(s) && o in s.orders && ReserveDeliverySlot(s, rider).Success?
    ensures AcceptOrder(s, o, rider).Success? <==> Offered(s.orders[o])
  {
    ReachableIsConsistent(s);
    AcceptKeepsInv(s, o, rider);
    About(s, o);
    hide Inv, OrderOk, AcceptOrder, Reachable, Offered, InPool;
    OfferedIsInPool(s.orders[o], s.splitRules);
  }

  // ----- The Node counters against the audit -------------------------------

  /** The audit's two groups of slots held at a Node: checkouts still pending, and
      paid orders that are at (or on their way to) its counter. */
  function AuditedIntents(s: State, node: NodeId): set<IntentId> {
    set i | i in s.intents && s.intents[i].status == Pending && s.intents[i].originNodeId == node
  }

  function AuditedOrders(s: State, node: NodeId): set<OrderId> {
    set o | o in s.orders
         && s.orders[o].paymentIntentId in s.intents
         && s.intents[s.orders[o].paymentIntentId].status == Paid
         && s.intents[s.orders[o].paymentIntentId].originNodeId == node
         && s.orders[o].status in {AwaitingDropOff, ReceivedAtOrigin, RiderAssigned, ReturnedToOrigin,
                                   ReadyForSenderCollection}
  }

  lemma AuditCountsSlots(s: State, node: NodeId)
    requires Inv(s)
    ensures |AuditedIntents(s, node)| + |AuditedOrders(s, node)| == SlotsTaken(s, node)
  {
    assert AuditedIntents(s, node) == Matching(s.intents, PendingAt(node));
    forall o | o in s.orders
      ensures PaidFor(s, s.orders[o])
    {
      About(s, o);
    }
    assert AuditedOrders(s, node) == Matching(s.orders, HeldAt(node));
  }

  /** In every reachable state a Node's counter is what the audit counts, and what was
      reserved against its capacity (all but returned parcels) fits in it. */
  lemma NodeCounterIsAudit(s: State, node: NodeId)
    requires Reachable(s) && node in s.nodes
    ensures s.nodes[node].currentCount == |AuditedIntents(s, node)| + |AuditedOrders(s, node)|
    ensures |AuditedIntents(s, node)| + |Matching(s.orders, BeforePickupAt(node))| <= s.nodes[node].capacity
  {
    ReachableIsConsistent(s);
    AuditCountsSlots(s, node);
    assert NodeOk(s, node);
    assert AuditedIntents(s, node) == Matching(s.intents, PendingAt(node));
  }

  /** The clamp at zero never fires: whatever is about to give up a slot holds one. */
  lemma NodeClampNeverFires(s: State)
    requires Reachable(s)
    ensures forall i :: i in s.intents && s.intents[i].status == Pending ==>
              s.intents[i].originNodeId in s.nodes && s.nodes[s.intents[i].originNodeId].currentCount > 0
    ensures forall o :: o in s.orders && (BeforePickup(s.orders[o].status) || BackAtOrigin(s.orders[o].status)) ==>
              s.orders[o].originNodeId in s.nodes && s.nodes[s.orders[o].originNodeId].currentCount > 0
  {
    ReachableIsConsistent(s);
    forall i | i in s.intents && s.intents[i].status == Pending
      ensures s.intents[i].originNodeId in s.nodes && s.nodes[s.intents[i].originNodeId].currentCount > 0
    {
      assert IntentOk(s, i) && NodeOk(s, s.intents[i].originNodeId);
      CountHas(s.intents, PendingAt(s.intents[i].originNodeId), i);
    }
    forall o | o in s.orders && (BeforePickup(s.orders[o].status) || BackAtOrigin(s.orders[o].status))
      ensures s.orders[o].originNodeId in s.nodes && s.nodes[s.orders[o].originNodeId].currentCount > 0
    {
      About(s, o);
      assert IntentOk(s, s.orders[o].paymentIntentId) && NodeOk(s, s.orders[o].originNodeId);
      CountHas(s.orders, HeldAt(s.orders[o].originNodeId), o);
    }
  }

  lemma CreateNeedsRoom(s: State, id: IntentId, origin: NodeId, destination: NodeId, vehicle: VehicleClass,
                        fee: FeeBreakdown)
    requires id !in s.intents && origin in s.nodes
    ensures CreateIntent(s, id, origin, destination, Some(vehicle), fee).Success? <==>
              s.nodes[origin].currentCount < s.nodes[origin].capacity
    ensures CreateIntent(s, id, origin, destination, Some(vehicle), fee).Success? ==>
              var s' := CreateIntent(s, id, origin, destination, Some(vehicle), fee).value;
              AuditedIntents(s', origin) == AuditedIntents(s, origin) + {id} && s'.orders == s.orders
  {
  }

  /** In every reachable state a checkout is accepted exactly while the audit counts fewer
      parcels at the origin than it has room for. */
  lemma BookingExactlyWhen(s: State, id: IntentId, origin: NodeId, destination: NodeId, vehicle: VehicleClass,
                           fee: FeeBreakdown)
    requires Reachable(s) && id !in s.intents && origin in s.nodes
    ensures CreateIntent(s, id, origin, destination, Some(vehicle), fee).Success? <==>
              |AuditedIntents(s, origin)| + |AuditedOrders(s, origin)| < s.nodes[origin].capacity
    ensures CreateIntent(s, id, origin, destination, Some(vehicle), fee).Success? ==>
              var s' := CreateIntent(s, id, origin, destination, Some(vehicle), fee).value;
              AuditedIntents(s', origin) == AuditedIntents(s, origin) + {id} && s'.orders == s.orders
  {
    hide AuditedOrders, AuditedIntents, Reachable, CreateIntent;
    NodeCounterIsAudit(s, origin);
    CreateNeedsRoom(s, id, origin, destination, vehicle, fee);
  }

  // ----- Shelves -----------------------------------------------------------

  /** In every reachable state no two parcels share a shelf number at a Node, and a
      parcel has one exactly while a counter has it in hand: at its origin before
      pickup or after a return has been checked in, at its destination once ready. */
  lemma ShelvesAreExact(s: State, o: OrderId)
    requires Reachable(s) && o in s.orders
    ensures forall p :: p in s.orders && p != o && s.orders[o].shelf.Some? ==> s.orders[p].shelf != s.orders[o].shelf
    ensures s.orders[o].shelf.Some? <==>
              s.orders[o].status in {ReceivedAtOrigin, RiderAssigned, ReadyForCollection, ReadyForSenderCollection}
    ensures s.orders[o].shelf.Some? ==>
              s.orders[o].shelf.value.nodeId ==
                if s.orders[o].status == ReadyForCollection then s.orders[o].destinationNodeId
                else s.orders[o].originNodeId
  {
    ReachableIsConsistent(s);
    assert ShelfOk(s.orders[o]) by {
      About(s, o);
      assert OrderCore(s.orders[o], s.splitRules);
    }
    forall p | p in s.orders && p != o && s.orders[o].shelf.Some?
      ensures s.orders[p].shelf != s.orders[o].shelf
    {
      assert DifferentShelves(s.orders, o, p);
    }
  }

  // ----- The log -----------------------------------------------------------

  /** In every reachable state the log, replayed in the order it was written, takes
      the order along the graph to its current status, and the last line of the public
      timeline says what that status says. */
  lemma LogTellsTheTruth(s: State, o: OrderId)
    requires Reachable(s) && o in s.orders
    ensures ReplayLog(s.orders[o].log) == Some(s.orders[o].status)
    ensures Timeline(s.orders[o].log) != []
    ensures var timeline := Timeline(s.orders[o].log);
            Some(timeline[|timeline| - 1]) == AsEntry(s.orders[o].status)
  {
    ReachableIsConsistent(s);
    assert ReplayLog(s.orders[o].log) == Some(s.orders[o].status) by {
      About(s, o);
      assert OrderCore(s.orders[o], s.splitRules);
    }
    TimelineEndsAtStatus(s.orders[o].log);
  }

  // ----- Money -------------------------------------------------------------

  /** In every reachable state an order has revenue entries exactly when it is
      completed; then there are four, none negative, they add up to what its customer
      was charged, and the rule they name still gives the same four. */
  lemma MoneyIsConserved(s: State, o: OrderId)
    requires Reachable(s) && o in s.orders
    ensures var order := s.orders[o];
            && order.paymentIntentId in s.intents
            && order.amountKobo == s.intents[order.paymentIntentId].amountKobo
            && (order.entries != [] <==> order.status == Completed)
            && (order.status == Completed ==>
                  && |order.entries| == 4
                  && TotalKobo(order.entries) == s.intents[order.paymentIntentId].amountKobo
                  && (forall e :: e in order.entries ==> e.amountKobo >= 0)
                  && exists k :: 0 <= k < |s.splitRules| && ValidSplit(s.splitRules[k])
                       && order.entries ==
                          SplitEntries(order.amountKobo, order.destinationFeeKobo, order.riderId,
                                       order.originNodeId, order.destinationNodeId, s.splitRules[k], k))
  {
    ReachableIsConsistent(s);
    About(s, o);
    var order := s.orders[o];
    assert MoneyOk(order, s.splitRules) by {
      assert OrderCore(order, s.splitRules);
    }
    if order.status == Completed {
      var k := order.entries[0].ruleId;
      assert ValidSplit(s.splitRules[k]);
      EntriesConserveMoney(order.amountKobo, order.destinationFeeKobo, order.riderId,
                           order.originNodeId, order.destinationNodeId, s.splitRules[k], k);
    }
  }

  // ----- The public page ---------------------------------------------------

  /** In every reachable state the public status says where the parcel really is, by its
      courier's leg, its shelf and its log. */
  lemma PublicPageTellsTruth(s: State, o: OrderId)
    requires Reachable(s) && o in s.orders
    ensures var order, shown := s.orders[o], ToPublicStatus(s.orders[o].status);
            var leg := StatusOf(LastLeg(order));
            && (shown == Some(PublicAwaitingDropOff) <==> LogReceived !in order.log)
            && (shown == Some(PublicAtOrigin) <==>
                  LogReceived in order.log && leg in {None, Some(Requested), Some(Assigned), Some(Cancelled)})
            && (shown == Some(PublicOnTheWay) <==> leg == Some(PickedUp))
            && (shown == Some(PublicArrived) <==> leg == Some(Delivered) && LogReady !in order.log)
            && (shown == Some(PublicReady) <==> order.shelf.Some? && leg == Some(Delivered))
            && (shown == Some(PublicCollected) <==> order.entries != [])
            && (shown == Some(PublicReturning) <==> leg == Some(Returning))
            && (shown == Some(PublicReturned) <==> leg == Some(Returned) && LogCollectedBySender !in order.log)
            && (shown == Some(PublicReturnCompleted) <==> leg == Some(Returned) && LogCollectedBySender in order.log)
            && shown.Some?
  {
    ReachableIsConsistent(s);
    About(s, o);
    LogSaysHowFar(s.orders[o].log);
    hide Inv, Reachable, ReplayLog, LegsOk, KeysOk, SplitEntries;
  }
}

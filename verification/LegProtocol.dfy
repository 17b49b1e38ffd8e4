/** The two coupled automata: what a leg event does to the order, and why the
    listener never throws on an event that the leg accepts. */
module LegProtocol {
  import opened Wrappers
  import opened DeliveryLeg
  import opened OrderRules
  import opened Routing
  import opened Model
  import opened Capacity
  import opened Orders
  import opened DeliveryDispatch
  import opened Progress
  import opened DeliveryEvents
  import opened Invariants

  /** The declarative effect of an event on the order row. */
  function OnOrder(order: Order, event: LegEvent, courier: Option<UserId>): Order {
    match event
    case CourierAssigned => order.(status := RiderAssigned, riderId := courier, log := order.log + [LogRiderAssigned])
    case CourierReleased => order.(status := ReceivedAtOrigin, riderId := None, log := order.log + [LogCourierReleased])
    case ParcelPickedUp => order.(status := InTransit, shelf := None, log := order.log + [LogPickedUp])
    case AttemptFailed => order
    case ParcelDelivered => order.(status := ArrivedAtDestination, log := order.log + [LogArrived])
    case ReturnStarted =>
      order.(status := ReturnInTransit, log := order.log + [LogReturnInitiated] + [LogReturnInTransit])
    case ParcelReturned => order.(status := ReturnedToOrigin, log := order.log + [LogReturned])
    case LegCancelled =>
      if order.status == RiderAssigned then
        order.(status := ReceivedAtOrigin, riderId := None, log := order.log + [LogCourierReleased])
      else order
  }

  /** The declarative effect of an accepted event on an order and its latest leg. */
  function AfterEvent(order: Order, event: LegEvent): Order
    requires order.legs != []
    requires NextLegStatus(order.legs[|order.legs| - 1].status, event).Some?
  {
    var last := |order.legs| - 1;
    var leg := order.legs[last];
    var moved := Moved(leg, event, NextLegStatus(leg.status, event).value);
    OnOrder(order.(legs := order.legs[last := moved]), event, moved.courierUserId)
  }

  /** The declarative effect on the counters: pickup frees the origin's slot, a
      return takes one again, and the end of custody frees the rider's. */
  function CountersAfter(s: State, origin: NodeId, event: LegEvent, courier: Option<UserId>): State {
    match event
    case ParcelPickedUp => ReleaseCapacitySlot(s, origin)
    case ParcelDelivered => ReleaseCourier(s, courier)
    case ParcelReturned => ReleaseCourier(HoldReturnedParcel(s, origin), courier)
    case _ => s
  }

  /** The order agrees with its latest leg, whoever carries it. */
  predicate InStep(order: Order) {
    && StatusesAgree(order.status, StatusOf(LastLeg(order)))
    && (order.status == ReceivedAtOrigin ==> order.riderId.None?)
  }

  /** Where the order must be for the listener to move it on this event. */
  predicate Expects(order: Order, event: LegEvent) {
    match event
    case CourierAssigned => order.status == ReceivedAtOrigin && order.riderId.None?
    case CourierReleased => order.status == RiderAssigned
    case ParcelPickedUp => order.status == RiderAssigned
    case ParcelDelivered => order.status == InTransit
    case ReturnStarted => order.status == InTransit
    case ParcelReturned => order.status == ReturnInTransit
    case _ => true
  }

  lemma Overwrite<K, V>(table: map<K, V>, k: K, a: V, b: V)
    ensures table[k := a][k := b] == table[k := b]
  {
  }

  lemma ReturnTakesTwoSteps(s: State, o: OrderId)
    requires o in s.orders && s.orders[o].status == InTransit
    ensures MarkReturning(s, o) == Success(s.(orders := s.orders[o := OnOrder(s.orders[o], ReturnStarted, None)]))
  {
    var order := s.orders[o];
    var half := order.(status := ReturnInitiated, log := order.log + [LogReturnInitiated]);
    Overwrite(s.orders, o, half, OnOrder(order, ReturnStarted, None));
  }

  lemma PickupClearsShelf(s: State, o: OrderId)
    requires o in s.orders && s.orders[o].status == RiderAssigned
    ensures MarkPickedUpByRider(s, o) ==
              Success(s.(orders := s.orders[o := OnOrder(s.orders[o], ParcelPickedUp, None)]))
  {
    var order := s.orders[o];
    var half := order.(status := InTransit, log := order.log + [LogPickedUp]);
    Overwrite(s.orders, o, half, OnOrder(order, ParcelPickedUp, None));
  }

  lemma PublishEffect(s: State, o: OrderId, event: LegEvent, courier: Option<UserId>)
    requires o in s.orders && Expects(s.orders[o], event)
    ensures OnDeliveryEvent(s, o, event, courier) ==
              Success(CountersAfter(s.(orders := s.orders[o := OnOrder(s.orders[o], event, courier)]),
                                    s.orders[o].originNodeId, event, courier))
  {
    if event == ReturnStarted {
      ReturnTakesTwoSteps(s, o);
    } else if event == ParcelPickedUp {
      PickupClearsShelf(s, o);
    } else {
      assert s.orders[o := s.orders[o]] == s.orders;
      assert event == CourierAssigned && courier.None? ==> s.orders[o].(riderId := courier) == s.orders[o];
    }
  }

  /** No event that a leg accepts ever makes the listener throw, and it has exactly
      its declared effect on the leg, the order and the counters. */
  lemma ListenerAccepts(s: State, o: OrderId, event: LegEvent)
    requires o in s.orders && s.orders[o].legs != [] && InStep(s.orders[o])
    requires NextLegStatus(s.orders[o].legs[|s.orders[o].legs| - 1].status, event).Some?
    ensures var order := s.orders[o];
            var last := |order.legs| - 1;
            Move(s, o, last, event) ==
              Success(CountersAfter(s.(orders := s.orders[o := AfterEvent(order, event)]),
                                    order.originNodeId, event, AfterEvent(order, event).legs[last].courierUserId))
  {
    var order := s.orders[o];
    var last := |order.legs| - 1;
    var leg := order.legs[last];
    var moved := Moved(leg, event, NextLegStatus(leg.status, event).value);
    var saved := order.(legs := order.legs[last := moved]);
    PublishEffect(SetLeg(s, o, last, moved), o, event, moved.courierUserId);
    Overwrite(s.orders, o, saved, AfterEvent(order, event));
  }
}

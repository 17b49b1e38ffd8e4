/** Moves the order, the shelf and the capacity counters when a leg moves. */
module Progress {
  import opened Wrappers
  import opened DeliveryLeg
  import opened OrderRules
  import opened Model
  import opened Capacity
  import opened Orders

  function ReleaseCourier(s: State, courier: Option<UserId>): State {
    if courier.Some? then ReleaseDeliverySlot(s, courier.value) else s
  }

  /** The listener on the delivery event bus. */
  function OnDeliveryEvent(s: State, o: OrderId, event: LegEvent, courier: Option<UserId>): Result<State> {
    match event
    case CourierAssigned =>
      if courier.Some? then AssignRider(s, o, courier.value) else MarkCourierAssigned(s, o)
    case ParcelPickedUp =>
      var s1 :- MarkPickedUpByRider(s, o);
      Success(ReleaseCapacitySlot(s1, s1.orders[o].originNodeId))
    case ParcelDelivered =>
      var s1 :- MarkArrivedAtDestination(s, o);
      Success(ReleaseCourier(s1, courier))
    case AttemptFailed => Success(s)
    case CourierReleased =>
      if o in s.orders && s.orders[o].status == RiderAssigned then MarkCourierReleased(s, o) else Success(s)
    case LegCancelled =>
      if o in s.orders && s.orders[o].status == RiderAssigned then MarkCourierReleased(s, o) else Success(s)
    case ReturnStarted => MarkReturning(s, o)
    case ParcelReturned =>
      var s1 :- MarkReturnedToOrigin(s, o);
      Success(ReleaseCourier(HoldReturnedParcel(s1, s1.orders[o].originNodeId), courier))
  }
}

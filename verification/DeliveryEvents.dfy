/** The one path by which any courier's progress moves a leg and, through the event
    bus, the order. */
module DeliveryEvents {
  import opened Wrappers
  import opened DeliveryLeg
  import opened Routing
  import opened Model
  import opened DeliveryDispatch
  import opened Progress

  /** The leg row after an event that moved it to `next`. */
  function Moved(leg: Leg, event: LegEvent, next: LegStatus): Leg {
    leg.(status := next,
         courierUserId := if event == CourierReleased then None else leg.courierUserId,
         ended := leg.ended || IsTerminal(next))
  }

  /** Saves the moved leg and publishes the event. Nothing happens when the event
      does not apply. */
  function Move(s: State, o: OrderId, i: nat, event: LegEvent): Result<State>
    requires HasLeg(s, o, i)
  {
    var leg := s.orders[o].legs[i];
    match NextLegStatus(leg.status, event)
    case None => Success(s)
    case Some(next) =>
      var moved := Moved(leg, event, next);
      OnDeliveryEvent(SetLeg(s, o, i, moved), o, event, moved.courierUserId)
  }

  /** Moves a leg; a cancelled leg's parcel is still at the Node and is routed again. */
  function Apply(s: State, o: OrderId, i: nat, event: LegEvent, routeTo: Option<ProviderKey>, env: RoutingEnv)
    : Result<State>
    requires HasLeg(s, o, i)
  {
    var s1 :- Move(s, o, i, event);
    if event == LegCancelled && NextLegStatus(s.orders[o].legs[i].status, event).Some? && o in s1.orders then
      Success(Dispatch(s1, o, routeTo, env))
    else
      Success(s1)
  }

  /** The order's leg in progress, or an in-house one made on the spot. */
  function LegToMove(s: State, o: OrderId, status: LegStatus, courier: Option<UserId>): (State, nat)
    requires o in s.orders
  {
    var order := s.orders[o];
    var active := ActiveLeg(order.legs);
    if active.Some? then (s, active.value)
    else
      var added := order.(legs := order.legs + [NewLeg(InHouse, status, |order.legs| + 1, courier)]);
      (s.(orders := s.orders[o := added]), |order.legs|)
  }

  /** A rider claims an order from the pool. */
  function AssignInHouseRider(s: State, o: OrderId, rider: UserId): Result<State> {
    if o !in s.orders then Failure(NotFound)
    else
      var (s1, i) := LegToMove(s, o, Requested, None);
      var leg := s1.orders[o].legs[i];
      if leg.providerKey != InHouse || leg.status != Requested then Failure(NotClaimable)
      else Move(SetLeg(s1, o, i, leg.(courierUserId := Some(rider))), o, i, CourierAssigned)
  }

  /** A handover proved with the rider's code at a counter. */
  function RecordInHouseHandover(s: State, o: OrderId, event: LegEvent): Result<State>
    requires event in {ParcelPickedUp, ParcelDelivered}
  {
    if o !in s.orders then Failure(NotFound)
    else
      var (s1, i) := LegToMove(s, o, if event == ParcelPickedUp then Assigned else PickedUp, s.orders[o].riderId);
      var leg := s1.orders[o].legs[i];
      if leg.providerKey != InHouse || NextLegStatus(leg.status, event).None? then Failure(NotClaimable)
      else Move(s1, o, i, event)
  }

  /** Whatever stands in the way of a handover, it is not its code. */
  lemma HandoverNeverBlamesCode(s: State, o: OrderId, event: LegEvent)
    requires event in {ParcelPickedUp, ParcelDelivered}
    ensures RecordInHouseHandover(s, o, event) != Failure(InvalidCode)
  {
    hide LegToMove;
  }

  /** A provider's view of one delivery. */
  datatype Snapshot = Snapshot(providerKey: ProviderKey, externalId: nat, status: LegStatus, sequence: Option<int>)

  predicate Matches(leg: Leg, snapshot: Snapshot) {
    leg.providerKey == snapshot.providerKey && leg.externalId == Some(snapshot.externalId)
  }

  predicate Stale(leg: Leg, snapshot: Snapshot) {
    snapshot.sequence.Some? && leg.providerSequence.Some? && snapshot.sequence.value <= leg.providerSequence.value
  }

  /** The listener touches one order only, and neither its legs nor its codes. */
  lemma ListenerKeepsLegs(s: State, o: OrderId, event: LegEvent, courier: Option<UserId>)
    requires o in s.orders
    ensures OnDeliveryEvent(s, o, event, courier).Success? ==>
              var s' := OnDeliveryEvent(s, o, event, courier).value;
              && o in s'.orders && s'.orders == s.orders[o := s'.orders[o]]
              && s'.orders[o].legs == s.orders[o].legs && s'.orders[o].codes == s.orders[o].codes
  {
  }

  /** Legs are never removed. */
  lemma ApplyKeepsLeg(s: State, o: OrderId, i: nat, event: LegEvent, routeTo: Option<ProviderKey>, env: RoutingEnv)
    requires HasLeg(s, o, i)
    ensures Apply(s, o, i, event, routeTo, env).Success? ==> HasLeg(Apply(s, o, i, event, routeTo, env).value, o, i)
  {
    var leg := s.orders[o].legs[i];
    if NextLegStatus(leg.status, event).Some? {
      var moved := Moved(leg, event, NextLegStatus(leg.status, event).value);
      ListenerKeepsLegs(SetLeg(s, o, i, moved), o, event, moved.courierUserId);
    }
    hide OnDeliveryEvent, Destination, NextLegStatus, Moved;
  }

  function ApplyAll(s: State, o: OrderId, i: nat, steps: seq<LegEvent>, env: RoutingEnv): Result<State>
    requires HasLeg(s, o, i)
    decreases |steps|
  {
    if steps == [] then Success(s)
    else
      var s1 :- Apply(s, o, i, steps[0], None, env);
      if HasLeg(s1, o, i) then ApplyAll(s1, o, i, steps[1..], env) else Success(s1)
  }

  /** Brings a remote leg in line with what its provider says: unknown deliveries and
      stale snapshots are ignored, skipped steps are replayed in order. */
  function SyncFromSnapshot(s: State, o: OrderId, i: nat, snapshot: Snapshot, env: RoutingEnv): Result<State> {
    if !HasLeg(s, o, i) || !Matches(s.orders[o].legs[i], snapshot) || Stale(s.orders[o].legs[i], snapshot) then
      Success(s)
    else
      var leg := s.orders[o].legs[i];
      ApplyAll(SetLeg(s, o, i, leg.(providerSequence := snapshot.sequence)), o, i,
               CatchUp(leg.status, snapshot.status), env)
  }

  /** Ends a leg from our side; nothing happens once it is past cancelling. */
  function CancelLeg(s: State, o: OrderId, i: nat, routeTo: Option<ProviderKey>, env: RoutingEnv): Result<State> {
    if !HasLeg(s, o, i) then Success(s) else Apply(s, o, i, LegCancelled, routeTo, env)
  }
}

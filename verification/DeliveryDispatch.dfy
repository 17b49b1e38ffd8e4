/** Putting an order's parcel in a courier's hands: legs are created, submitted,
    and re-routed when a courier refuses. */
module DeliveryDispatch {
  import opened Wrappers
  import opened DeliveryLeg
  import opened Routing
  import opened Model

  /** The order's leg in progress, if it has one. */
  function ActiveLeg(legs: seq<Leg>): (r: Option<nat>)
    ensures r.Some? ==> r.value < |legs| && !IsTerminal(legs[r.value].status)
    ensures r.None? ==> forall i :: 0 <= i < |legs| ==> IsTerminal(legs[i].status)
  {
    if legs == [] then None
    else if !IsTerminal(legs[|legs| - 1].status) then Some(|legs| - 1)
    else ActiveLeg(legs[..|legs| - 1])
  }

  /** How many legs, of any outcome, an order has had with a provider. */
  function Attempts(legs: seq<Leg>, key: ProviderKey): nat {
    if legs == [] then 0
    else Attempts(legs[..|legs| - 1], key) + (if legs[|legs| - 1].providerKey == key then 1 else 0)
  }

  function ContextOf(order: Order, env: RoutingEnv): RoutingContext {
    RoutingContext(order.originNodeId, env.distanceKm, order.vehicleClass, key => Attempts(order.legs, key))
  }

  function ChooseFor(order: Order, env: RoutingEnv): Option<ProviderKey> {
    var chosen := ChooseProvider(env.configs, env.registered, ContextOf(order, env));
    if chosen.Some? then Some(chosen.value.key) else None
  }

  function NewLeg(key: ProviderKey, status: LegStatus, attemptNumber: nat, courier: Option<UserId>): Leg {
    Leg(key, status, attemptNumber, false, None, None, courier)
  }

  /** The provider a dispatch goes to: the forced one if its adapter is registered,
      else what routing picks. */
  function Destination(order: Order, force: Option<ProviderKey>, env: RoutingEnv): Option<ProviderKey> {
    if force.Some? then (if force.value in env.registered then force else None)
    else ChooseFor(order, env)
  }

  /** An order with a leg in progress keeps it; with no provider to take it, it waits. */
  function Dispatch(s: State, o: OrderId, force: Option<ProviderKey>, env: RoutingEnv): State
    requires o in s.orders
  {
    var order := s.orders[o];
    if ActiveLeg(order.legs).Some? then s
    else
      match Destination(order, force, env)
      case None => s
      case Some(key) =>
        s.(orders := s.orders[o := order.(legs := order.legs + [NewLeg(key, Requested, |order.legs| + 1, None)])])
  }

  /** Whether a provider's adapter calls out to a remote API. */
  predicate RemoteSubmission(key: ProviderKey) {
    key != InHouse
  }

  /** What a courier answers to a submission. */
  datatype SubmitReply = Accepted(externalId: nat) | Refused | Retryable

  predicate HasLeg(s: State, o: OrderId, i: nat) {
    o in s.orders && i < |s.orders[o].legs|
  }

  function SetLeg(s: State, o: OrderId, i: nat, leg: Leg): State
    requires HasLeg(s, o, i)
  {
    s.(orders := s.orders[o := s.orders[o].(legs := s.orders[o].legs[i := leg])])
  }

  /** The outbox handler that submits a leg to its remote courier. A leg already
      submitted or ended is left alone; a refusal ends the leg and routes the order
      onward; anything else is thrown for the outbox to retry. */
  function Submit(s: State, o: OrderId, i: nat, reply: SubmitReply, env: RoutingEnv): State {
    if !HasLeg(s, o, i) then s
    else
      var leg := s.orders[o].legs[i];
      if leg.status != Requested || leg.externalId.Some? || !RemoteSubmission(leg.providerKey) then s
      else
        match reply
        case Retryable => s
        case Accepted(externalId) => SetLeg(s, o, i, leg.(externalId := Some(externalId)))
        case Refused => Dispatch(SetLeg(s, o, i, leg.(status := Cancelled, ended := true)), o, None, env)
  }
}

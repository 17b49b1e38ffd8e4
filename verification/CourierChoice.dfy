/** Which courier a parcel goes to, told by the provider rows and the order alone. */
module CourierChoice {
  import opened Wrappers
  import opened DeliveryLeg
  import opened Routing
  import opened Model
  import opened DeliveryDispatch

  /** The legs, of any outcome, that an order has had with a provider. */
  function LegsWith(legs: seq<Leg>, key: ProviderKey): set<nat> {
    set i: nat | i < |legs| && legs[i].providerKey == key
  }

  /** The row's provider is switched on and running here, has an attempt at the order
      left, is open to its origin, has its vehicle and serves the distance. */
  predicate CanTake(row: ProviderConfig, order: Order, env: RoutingEnv) {
    && row.enabled && row.key in env.registered
    && |LegsWith(order.legs, row.key)| < row.maxAttempts
    && (row.pilotNodeIds.Some? && |row.pilotNodeIds.value| > 0 ==> order.originNodeId in row.pilotNodeIds.value)
    && (order.vehicleClass.Some? ==> order.vehicleClass.value in row.vehicleClasses)
    && (row.minDistanceKm.Some? ==> row.minDistanceKm.value <= env.distanceKm)
    && (row.maxDistanceKm.Some? ==> env.distanceKm <= row.maxDistanceKm.value)
  }

  /** No row that can take the order has a lower priority number, or an earlier key at
      the same one. */
  ghost predicate IsFirst(row: ProviderConfig, order: Order, env: RoutingEnv) {
    forall other :: other in env.configs && CanTake(other, order, env) ==>
      row.priority < other.priority || (row.priority == other.priority && row.collation <= other.collation)
  }

  /** The provider that the rows give the order to: that of the first row that can take
      it, none exactly when no row can. */
  ghost predicate IsBest(order: Order, env: RoutingEnv, choice: Option<ProviderKey>) {
    match choice
    case None => forall row :: row in env.configs ==> !CanTake(row, order, env)
    case Some(key) =>
      exists row :: row in env.configs && row.key == key && CanTake(row, order, env) && IsFirst(row, order, env)
  }

  /** One leg more, requested of this provider, or none. */
  predicate Added(before: seq<Leg>, after: seq<Leg>, key: Option<ProviderKey>) {
    match key
    case None => after == before
    case Some(k) => after == before + [Leg(k, Requested, |before| + 1, false, None, None, None)]
  }

  /** The order's legs after it has gone to the best provider there is. */
  ghost predicate GoesToBest(order: Order, after: seq<Leg>, env: RoutingEnv) {
    exists choice :: IsBest(order, env, choice) && Added(order.legs, after, choice)
  }

  lemma {:induction false} AttemptsAreLegs(legs: seq<Leg>, key: ProviderKey)
    ensures Attempts(legs, key) == |LegsWith(legs, key)|
  {
    if legs != [] {
      var front, last := legs[..|legs| - 1], |legs| - 1;
      AttemptsAreLegs(front, key);
      assert LegsWith(legs, key) == LegsWith(front, key) + if legs[last].providerKey == key then {last} else {};
    }
  }

  lemma EligibleCanTake(row: ProviderConfig, order: Order, env: RoutingEnv)
    ensures Eligible(row, env.registered, ContextOf(order, env)) <==> CanTake(row, order, env)
  {
    AttemptsAreLegs(order.legs, row.key);
    hide Attempts;
  }

  /** Routing picks the best provider, told in the rows' own terms. */
  lemma RoutingPicksBest(order: Order, env: RoutingEnv)
    ensures IsBest(order, env, ChooseFor(order, env))
  {
    hide Eligible, CanTake;
    var context := ContextOf(order, env);
    ChooseProviderIsLeast(env.configs, env.registered, context);
    forall row | row in env.configs
      ensures Eligible(row, env.registered, context) <==> CanTake(row, order, env)
    {
      EligibleCanTake(row, order, env);
    }
    var chosen := ChooseProvider(env.configs, env.registered, context);
    if chosen.Some? {
      assert IsFirst(chosen.value, order, env);
    }
  }

  /** Dispatching an order with no leg in progress adds the leg that the rows, or the
      provider it is forced to, call for, and does nothing else. */
  lemma DispatchGoesToBest(s: State, o: OrderId, force: Option<ProviderKey>, env: RoutingEnv)
    requires o in s.orders
    requires forall i :: 0 <= i < |s.orders[o].legs| ==> IsTerminal(s.orders[o].legs[i].status)
    ensures var order, s' := s.orders[o], Dispatch(s, o, force, env);
            && o in s'.orders
            && s' == s.(orders := s.orders[o := order.(legs := s'.orders[o].legs)])
            && match force
               case None => GoesToBest(order, s'.orders[o].legs, env)
               case Some(key) => Added(order.legs, s'.orders[o].legs, if key in env.registered then force else None)
  {
    var order := s.orders[o];
    RoutingPicksBest(order, env);
    hide ChooseFor, IsBest;
    assert s.orders[o := order] == s.orders;
    var choice := Destination(order, force, env);
    assert Added(order.legs, Dispatch(s, o, force, env).orders[o].legs, choice);
  }
}

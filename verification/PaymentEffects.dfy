/** What each payment step leaves behind, told in the tables' own fields, and what becomes
    of a quote over a whole run. */
module PaymentEffects {
  import opened Wrappers
  import opened Counting
  import opened OrderRules
  import opened Routing
  import opened Money
  import opened Model
  import opened Payments
  import opened Invariants
  import opened Growth
  import opened Reachability
  import opened Runs

  /** What a checkout is asked for is what the pending intent holds, at delivery fee plus
      destination fee, with a slot taken at the origin; a full or unknown Node, or an id in
      use, changes nothing. */
  lemma CheckoutMeans(s: State, id: IntentId, origin: NodeId, destination: NodeId, vehicle: VehicleClass,
                      pricing: PricingRule, straightLineKm: real, routeKm: Option<real>)
    ensures var s' := Next(s, Checkout(id, origin, destination, vehicle, pricing, straightLineKm, routeKm));
            if id !in s.intents && origin in s.nodes && s.nodes[origin].currentCount < s.nodes[origin].capacity then
              var deliveryFee := CalculateFee(pricing, straightLineKm, routeKm, vehicle).deliveryFeeKobo;
              s' == s.(nodes := s.nodes[origin := NodeRow(s.nodes[origin].capacity, s.nodes[origin].currentCount + 1)],
                       intents := s.intents[id :=
                         Intent(origin, destination, Some(vehicle), deliveryFee + pricing.destinationFeeKobo,
                                pricing.destinationFeeKobo, Pending, None)])
            else s' == s
  {
    hide DeliveryFeeKobo, RateFor, DistanceKm;
  }

  /** The statement that follows writes the intent's own id as its reference. */
  lemma ReferenceMeans(s: State, id: IntentId)
    ensures Next(s, WriteReference(id)) ==
            if id in s.intents then s.(intents := s.intents[id := s.intents[id].(providerReference := Some(id))])
            else s
  {
  }

  /** The order that an intent becomes once it is paid for. */
  function PlacedOrder(id: IntentId, intent: Intent): Order {
    Order(id, intent.originNodeId, intent.destinationNodeId, intent.vehicleClass, intent.amountKobo,
          intent.destinationFeeKobo, AwaitingDropOff, None, None, [LogPlaced], [], {}, [], [])
  }

  /** The tables once an intent has been paid for under its key. */
  function PaidUp(s: State, id: IntentId, key: IntentId, order: OrderId): State
    requires id in s.intents
  {
    s.(paymentKeys := s.paymentKeys + {key},
       intents := s.intents[id := s.intents[id].(status := Paid)],
       orders := s.orders[order := PlacedOrder(id, s.intents[id])])
  }

  predicate IsPending(s: State, id: IntentId) {
    id in s.intents && s.intents[id].status == Pending
  }

  /** A webhook under a spent key does nothing. A first one spends the key; it makes a
      pending intent that has its reference PAID if the provider confirms the very amount,
      and is rolled back, key and all, if the provider cannot be asked (or the new order's
      id is taken). */
  lemma WebhookMeans(s: State, reference: IntentId, reply: Option<Verification>, newOrder: OrderId)
    ensures var s' := Next(s, Webhook(reference, reply, newOrder));
            var asked := IsPending(s, reference) && s.intents[reference].providerReference == Some(reference);
            if reference in s.paymentKeys || (asked && reply.None?) then s' == s
            else if asked && reply == Some(Verification(true, s.intents[reference].amountKobo)) then
              s' == if newOrder in s.orders then s else PaidUp(s, reference, reference, newOrder)
            else s' == s.(paymentKeys := s.paymentKeys + {reference})
  {
  }

  /** The intent has been expired and its slot given back, if it was still pending. */
  predicate ExpiredNow(s: State, s': State, id: IntentId) {
    if IsPending(s, id) then
      var n := s.intents[id].originNodeId;
      && n in s.nodes && s.nodes[n].currentCount > 0
      && s' == s.(intents := s.intents[id := s.intents[id].(status := Expired)],
                  nodes := s.nodes[n := NodeRow(s.nodes[n].capacity, s.nodes[n].currentCount - 1)])
    else s' == s
  }

  /** The sweep expires an intent without a reference, or whose charge the provider denies;
      it leaves one alone that the provider cannot be asked about; and one that was paid for
      after all it makes PAID under the webhook's key, if that is unspent. */
  lemma SweepMeans(s: State, stale: StaleIntent, reply: Option<Verification>, newOrder: OrderId)
    requires Inv(s)
    ensures var s' := Next(s, Sweep(stale, reply, newOrder));
            if stale.providerReference.Some? && reply.None? then s' == s
            else if stale.providerReference.None? || reply != Some(Verification(true, stale.amountKobo)) then
              ExpiredNow(s, s', stale.id)
            else
              var key := stale.providerReference.value;
              if key in s.paymentKeys then s' == s
              else if IsPending(s, stale.id) then
                s' == if newOrder in s.orders then s else PaidUp(s, stale.id, key, newOrder)
              else s' == s.(paymentKeys := s.paymentKeys + {key})
  {
    if IsPending(s, stale.id) {
      PendingHoldsSlot(s, stale.id);
    }
    hide Inv;
  }

  lemma PendingHoldsSlot(s: State, id: IntentId)
    requires Inv(s) && IsPending(s, id)
    ensures s.intents[id].originNodeId in s.nodes && s.nodes[s.intents[id].originNodeId].currentCount > 0
  {
    assert IntentOk(s, id) && NodeOk(s, s.intents[id].originNodeId);
    CountHas(s.intents, PendingAt(s.intents[id].originNodeId), id);
  }

  /** Percentages that make a hundred become the newest rule, all others are refused; and a
      rider is switched on or off and nothing else. */
  lemma AdminStepsMean(s: State, rule: SplitRule, rider: UserId, active: bool)
    ensures Next(s, AddRule(rule)) ==
            if rule.riderPercent >= 0 && rule.nodePercent >= 0 && rule.platformPercent >= 0
               && rule.riderPercent + rule.nodePercent + rule.platformPercent == 100
            then s.(splitRules := s.splitRules + [rule])
            else s
    ensures Next(s, SetRiderActive(rider, active)) ==
            if rider in s.riders then
              s.(riders := s.riders[rider := RiderRow(active, s.riders[rider].currentActiveOrderCount)])
            else s
  {
  }

  // ----- From the quote to the shares --------------------------------------

  /** Over any run an order carries what its checkout was asked for and quoted: origin,
      destination, vehicle and price; and once it is completed, its entries add up to the
      total quoted, the destination Node's being the rule's fee. */
  lemma OrderIsAsQuoted(s: State, id: IntentId, origin: NodeId, destination: NodeId, vehicle: VehicleClass,
                        pricing: PricingRule, straightLineKm: real, routeKm: Option<real>, steps: seq<Step>, o: OrderId)
    requires Reachable(s) && ValidSteps(steps) && id !in s.intents
    requires ValidStep(Checkout(id, origin, destination, vehicle, pricing, straightLineKm, routeKm))
    requires origin in s.nodes && s.nodes[origin].currentCount < s.nodes[origin].capacity
    requires var s' := Run(Next(s, Checkout(id, origin, destination, vehicle, pricing, straightLineKm, routeKm)),
                           steps);
             o in s'.orders && s'.orders[o].paymentIntentId == id
    ensures var s' := Run(Next(s, Checkout(id, origin, destination, vehicle, pricing, straightLineKm, routeKm)), steps);
            var order, deliveryFee :=
              s'.orders[o], CalculateFee(pricing, straightLineKm, routeKm, vehicle).deliveryFeeKobo;
            && order.originNodeId == origin && order.destinationNodeId == destination
            && order.vehicleClass == Some(vehicle)
            && order.amountKobo == deliveryFee + pricing.destinationFeeKobo
            && order.destinationFeeKobo == pricing.destinationFeeKobo
            && (order.status == Completed ==>
                  && TotalKobo(order.entries) == deliveryFee + pricing.destinationFeeKobo
                  && |order.entries| == 4
                  && order.entries[2] == Entry(DestinationNode, Some(destination), pricing.destinationFeeKobo,
                                               order.entries[2].ruleId, true))
  {
    hide Inv, Next, Grows, CalculateFee, Run, TotalKobo, SplitEntries;
    var step := Checkout(id, origin, destination, vehicle, pricing, straightLineKm, routeKm);
    var s1 := Next(s, step);
    CheckoutMeans(s, id, origin, destination, vehicle, pricing, straightLineKm, routeKm);
    ReachableIsConsistent(s);
    StepKeepsInv(s, step);
    RunGrows(s1, steps);
    IntentStays(s1, Run(s1, steps), id);
    RunKeepsInv(s1, steps);
    About(Run(s1, steps), o);
    ReachableNext(s, step);
    ReachableRun(s1, steps);
    MoneyIsConserved(Run(s1, steps), o);
    DestinationEntry(Run(s1, steps).orders[o], Run(s1, steps).splitRules);
  }

  lemma IntentStays(s: State, s': State, id: IntentId)
    requires Grows(s, s') && id in s.intents
    ensures id in s'.intents && Settles(s.intents[id], s'.intents[id])
  {
  }

  lemma DestinationEntry(order: Order, rules: seq<SplitRule>)
    requires OrderOk(order, rules)
    ensures order.status == Completed ==>
              && |order.entries| == 4
              && order.entries[2] == Entry(DestinationNode, Some(order.destinationNodeId), order.destinationFeeKobo,
                                           order.entries[2].ruleId, true)
  {
  }
}

/** What no step ever undoes: keys and logs only grow, what was bought never changes,
    and a settled payment stays settled. So a confirmed step stays confirmed. */
module Growth {
  import opened Wrappers
  import opened DeliveryLeg
  import opened OrderRules
  import opened Routing
  import opened HandoffCodes
  import opened Money
  import opened Model
  import opened DeliveryDispatch
  import opened DeliveryEvents
  import opened Handoffs
  import opened Payments
  import opened Invariants
  import opened LegProtocol
  import opened LegSteps
  import opened LegTransactions
  import opened HandoffSteps
  import opened InHouseSteps
  import opened Runs

  /** An order only ever gains: keys, log lines, legs and entries. */
  predicate Evolves(before: Order, after: Order) {
    && SameParcel(before, after)
    && before.keys <= after.keys
    && before.log <= after.log
    && |before.legs| <= |after.legs|
    && before.entries <= after.entries
  }

  /** An intent keeps what it was made with, and PAID and EXPIRED are final. */
  predicate Settles(before: Intent, after: Intent) {
    && after.originNodeId == before.originNodeId && after.destinationNodeId == before.destinationNodeId
    && after.amountKobo == before.amountKobo && after.destinationFeeKobo == before.destinationFeeKobo
    && after.vehicleClass == before.vehicleClass
    && (before.providerReference.Some? ==> after.providerReference == before.providerReference)
    && (before.status != Pending ==> after.status == before.status)
  }

  ghost predicate Grows(s: State, s': State) {
    && (forall o {:trigger s'.orders[o]} {:trigger s.orders[o]} :: o in s.orders ==>
          o in s'.orders && Evolves(s.orders[o], s'.orders[o]))
    && (forall i {:trigger s'.intents[i]} {:trigger s.intents[i]} :: i in s.intents ==>
          i in s'.intents && Settles(s.intents[i], s'.intents[i]))
    && s.splitRules <= s'.splitRules
    && s.paymentKeys <= s'.paymentKeys
  }

  lemma GrowsIsTransitive(a: State, b: State, c: State)
    requires Grows(a, b) && Grows(b, c)
    ensures Grows(a, c)
  {
  }

  lemma GrowsIsReflexive(s: State)
    ensures Grows(s, s)
  {
  }

  /** Growth on the orders' side, which leaves payments alone. */
  ghost predicate OrdersGrow(s: State, s': State) {
    Grows(s, s') && s'.intents == s.intents && s'.paymentKeys == s.paymentKeys
  }

  lemma OrdersGrowIsReflexive(s: State)
    ensures OrdersGrow(s, s)
  {
  }

  lemma OrdersGrowIsTransitive(a: State, b: State, c: State)
    requires OrdersGrow(a, b) && OrdersGrow(b, c)
    ensures OrdersGrow(a, c)
  {
  }

  /** A change to one order that only gains is growth. */
  lemma OrderGrows(s: State, s': State, o: OrderId)
    requires o in s.orders && o in s'.orders && s'.orders == s.orders[o := s'.orders[o]]
    requires s'.intents == s.intents && s'.splitRules == s.splitRules && s'.paymentKeys == s.paymentKeys
    requires Evolves(s.orders[o], s'.orders[o])
    ensures OrdersGrow(s, s')
  {
  }

  lemma EvolvesIsTransitive(a: Order, b: Order, c: Order)
    requires Evolves(a, b) && Evolves(b, c)
    ensures Evolves(a, c)
  {
  }

  lemma EventEvolves(order: Order, event: LegEvent)
    requires LegAccepts(order, event)
    ensures Evolves(order, AfterEvent(order, event))
  {
  }

  lemma DispatchGrows(s: State, o: OrderId, force: Option<ProviderKey>, env: RoutingEnv)
    requires o in s.orders
    ensures OrdersGrow(s, Dispatch(s, o, force, env))
  {
    var s' := Dispatch(s, o, force, env);
    assert s'.orders == s.orders[o := s'.orders[o]];
    OrderGrows(s, s', o);
  }

  /** Moving the latest leg of an order that has only gained is growth. */
  lemma MoveGrows(s: State, s1: State, o: OrderId, event: LegEvent)
    requires o in s.orders && o in s1.orders && s1.orders == s.orders[o := s1.orders[o]]
    requires s1.intents == s.intents && s1.splitRules == s.splitRules && s1.paymentKeys == s.paymentKeys
    requires Evolves(s.orders[o], s1.orders[o])
    requires LegAccepts(s1.orders[o], event) && InStep(s1.orders[o])
    ensures Move(s1, o, LastIndex(s1.orders[o]), event).Success?
    ensures OrdersGrow(s, Move(s1, o, LastIndex(s1.orders[o]), event).value)
  {
    hide InStep, Evolves, AfterEvent;
    var order := s1.orders[o];
    var after := AfterEvent(order, event);
    ListenerAccepts(s1, o, event);
    EventEvolves(order, event);
    EvolvesIsTransitive(s.orders[o], order, after);
    CountersOnly(s1.(orders := s1.orders[o := after]), order.originNodeId, event,
                 after.legs[LastIndex(order)].courierUserId);
    Overwrite(s.orders, o, order, after);
    OrderGrows(s, Move(s1, o, LastIndex(order), event).value, o);
  }

  lemma ApplyGrows(s: State, o: OrderId, i: nat, event: LegEvent, routeTo: Option<ProviderKey>, env: RoutingEnv)
    requires Inv(s) && HasLeg(s, o, i)
    ensures Apply(s, o, i, event, routeTo, env).Success? ==> OrdersGrow(s, Apply(s, o, i, event, routeTo, env).value)
  {
    hide Inv;
    if NextLegStatus(s.orders[o].legs[i].status, event).Some? {
      OnlyLastMovesIn(s, o, i, event);
      AboutStep(s, o);
      assert s.orders == s.orders[o := s.orders[o]];
      MoveGrows(s, s, o, event);
      var s1 := Move(s, o, i, event).value;
      if event == LegCancelled {
        DispatchGrows(s1, o, routeTo, env);
        OrdersGrowIsTransitive(s, s1, Dispatch(s1, o, routeTo, env));
      }
    }
  }

  lemma {:induction false} CatchUpGrows(s: State, o: OrderId, i: nat, target: LegStatus, env: RoutingEnv)
    requires Inv(s) && HasLeg(s, o, i) && s.orders[o].legs[i].providerKey != InHouse
    ensures ApplyAll(s, o, i, CatchUp(s.orders[o].legs[i].status, target), env).Success?
    ensures OrdersGrow(s, ApplyAll(s, o, i, CatchUp(s.orders[o].legs[i].status, target), env).value)
    decreases |CatchUp(s.orders[o].legs[i].status, target)|
  {
    hide Inv, OrdersGrow;
    CatchUpKeepsInv(s, o, i, target, env);
    var status := s.orders[o].legs[i].status;
    var steps := CatchUp(status, target);
    if steps == [] {
      OrdersGrowIsReflexive(s);
    } else {
      CatchUpUnfolds(status, target);
      ApplyGrows(s, o, i, steps[0], None, env);
      CatchUpStep(s, o, i, steps[0], env);
      var s1 := Apply(s, o, i, steps[0], None, env).value;
      if steps[0] == LegCancelled {
        assert steps[1..] == [];
      } else {
        CatchUpGrows(s1, o, i, target, env);
        OrdersGrowIsTransitive(s, s1, ApplyAll(s1, o, i, steps[1..], env).value);
      }
    }
  }

  // ----- Step by step ------------------------------------------------------

  lemma SyncGrows(s: State, o: OrderId, i: nat, snapshot: Snapshot, env: RoutingEnv)
    requires Inv(s)
    ensures OrdersGrow(s, Committed(s, SyncFromSnapshot(s, o, i, snapshot, env)))
  {
    hide Inv, OrdersGrow;
    OrdersGrowIsReflexive(s);
    if HasLeg(s, o, i) && Matches(s.orders[o].legs[i], snapshot) && !Stale(s.orders[o].legs[i], snapshot) {
      var leg := s.orders[o].legs[i];
      var noted := SetLeg(s, o, i, leg.(providerSequence := snapshot.sequence));
      MatchedIsExternal(s, o, i, snapshot);
      NoteOnLegKeepsInv(s, o, i, leg.externalId, snapshot.sequence);
      OrderGrows(s, noted, o);
      CatchUpGrows(noted, o, i, snapshot.status, env);
      OrdersGrowIsTransitive(s, noted, SyncFromSnapshot(s, o, i, snapshot, env).value);
    }
  }

  lemma SubmitGrows(s: State, o: OrderId, i: nat, reply: SubmitReply, env: RoutingEnv)
    ensures OrdersGrow(s, Submit(s, o, i, reply, env))
  {
    hide OrdersGrow;
    OrdersGrowIsReflexive(s);
    if Submit(s, o, i, reply, env) != s {
      var leg := s.orders[o].legs[i];
      match reply {
        case Retryable =>
        case Accepted(externalId) => OrderGrows(s, SetLeg(s, o, i, leg.(externalId := Some(externalId))), o);
        case Refused =>
          var s1 := SetLeg(s, o, i, leg.(status := Cancelled, ended := true));
          OrderGrows(s, s1, o);
          DispatchGrows(s1, o, None, env);
          OrdersGrowIsTransitive(s, s1, Dispatch(s1, o, None, env));
      }
    }
  }

  lemma CancelGrows(s: State, o: OrderId, i: nat, routeTo: Option<ProviderKey>, env: RoutingEnv)
    requires Inv(s)
    ensures OrdersGrow(s, Committed(s, CancelLeg(s, o, i, routeTo, env)))
  {
    hide Inv, OrdersGrow;
    OrdersGrowIsReflexive(s);
    if HasLeg(s, o, i) {
      ApplyGrows(s, o, i, LegCancelled, routeTo, env);
    }
  }

  lemma ClaimEvolves(order: Order, rider: UserId)
    requires Claimable(order).legs != [] && LegAccepts(WithCourier(Claimable(order), rider), CourierAssigned)
    ensures Evolves(order, AfterEvent(WithCourier(Claimable(order), rider), CourierAssigned))
  {
    EventEvolves(WithCourier(Claimable(order), rider), CourierAssigned);
    hide AfterEvent;
  }

  lemma AcceptGrows(s: State, o: OrderId, rider: UserId)
    requires Inv(s)
    ensures OrdersGrow(s, Committed(s, AcceptOrder(s, o, rider)))
  {
    OrdersGrowIsReflexive(s);
    AcceptKeepsInv(s, o, rider);
    hide Inv, OrdersGrow, Evolves, InPool, AcceptOrder;
    if AcceptOrder(s, o, rider).Success? {
      ClaimEvolves(s.orders[o], rider);
      OrderGrows(s, AcceptOrder(s, o, rider).value, o);
    }
  }

  lemma HandoverEvolves(order: Order, handover: Handover, codes: seq<Code>)
    requires LegAccepts(Proved(order, handover, codes), EventOf(handover))
    ensures Evolves(order, AfterEvent(Proved(order, handover, codes), EventOf(handover)))
  {
    EventEvolves(Proved(order, handover, codes), EventOf(handover));
    hide AfterEvent;
  }

  lemma HandoffGrows(s: State, o: OrderId, handover: Handover, hash: nat, now: int)
    requires Inv(s)
    ensures OrdersGrow(s, AfterCodeCheck(s, o, KindOf(handover), ConfirmHandoff(s, o, handover, hash, now)))
  {
    hide OrdersGrow, Evolves;
    OrdersGrowIsReflexive(s);
    if o in s.orders {
      CodesGrow(s, o, CountFailure(s.orders[o].codes, KindOf(handover)));
      if !AlreadyProcessed(s, o, ScopeOf(handover)) {
        HandoffKeepsInv(s, o, handover, hash, now);
        hide ConfirmHandoff, Validate, Inv;
        if ConfirmHandoff(s, o, handover, hash, now).Success? {
          HandoverEvolves(s.orders[o], handover, Validate(s.orders[o].codes, KindOf(handover), hash, now).value);
          OrderGrows(s, ConfirmHandoff(s, o, handover, hash, now).value, o);
        }
      }
    }
  }

  lemma LegStepGrows(s: State, step: Step)
    requires step.Accept? || step.Handoff? || step.SubmitLeg? || step.SyncLeg? || step.Cancel?
    requires Inv(s)
    ensures OrdersGrow(s, Next(s, step))
  {
    hide Inv, OrdersGrow;
    match step {
      case Accept(o, rider) => AcceptGrows(s, o, rider);
      case Handoff(o, handover, hash, now) => HandoffGrows(s, o, handover, hash, now);
      case SubmitLeg(o, i, answer, env) => SubmitGrows(s, o, i, answer, env);
      case SyncLeg(o, i, snapshot, env) => SyncGrows(s, o, i, snapshot, env);
      case Cancel(o, i, routeTo, env) => CancelGrows(s, o, i, routeTo, env);
    }
  }

  lemma DropOffGrows(s: State, o: OrderId, env: RoutingEnv)
    ensures OrdersGrow(s, Committed(s, ConfirmDropOff(s, o, env)))
  {
    OrdersGrowIsReflexive(s);
    if ConfirmDropOff(s, o, env).Success? && !AlreadyProcessed(s, o, DropOffScope) {
      hide OrdersGrow;
      var s1 := Orders.MarkReceivedAtOrigin(InsertKey(s, o, DropOffScope), o).value;
      assert s1.orders == s.orders[o := s1.orders[o]];
      OrderGrows(s, s1, o);
      DispatchGrows(s1, o, None, env);
      OrdersGrowIsTransitive(s, s1, Dispatch(s1, o, None, env));
    }
  }

  lemma CodesGrow(s: State, o: OrderId, codes: seq<Code>)
    requires o in s.orders
    ensures OrdersGrow(s, SetCodes(s, o, codes))
  {
    OrderGrows(s, SetCodes(s, o, codes), o);
  }

  /** What a step at a counter comes down to: one order that has only gained, whose legs
      and courier are as they were. */
  ghost predicate AtCounter(s: State, s': State, o: OrderId) {
    s' == s ||
    (&& o in s.orders && o in s'.orders && s'.orders == s.orders[o := s'.orders[o]]
     && s'.intents == s.intents && s'.paymentKeys == s.paymentKeys
     && s'.riders == s.riders && s'.splitRules == s.splitRules
     && Evolves(s.orders[o], s'.orders[o])
     && s'.orders[o].legs == s.orders[o].legs && s'.orders[o].riderId == s.orders[o].riderId
     && (s'.orders[o].status == s.orders[o].status
         || (s.orders[o].status !in {AwaitingDropOff, RiderAssigned, InTransit}
             && s'.orders[o].status !in {RiderAssigned, InTransit})))
  }

  lemma CodesAtCounter(s: State, o: OrderId, codes: seq<Code>)
    requires o in s.orders
    ensures AtCounter(s, SetCodes(s, o, codes), o)
  {
  }

  lemma IntakeAtCounter(s: State, o: OrderId, hash: nat, expiresAt: int)
    ensures AtCounter(s, Committed(s, ConfirmIntake(s, o, hash, expiresAt)), o)
  {
    hide Issue;
    if ConfirmIntake(s, o, hash, expiresAt).Success? && !AlreadyProcessed(s, o, IntakeScope) {
      var s' := ConfirmIntake(s, o, hash, expiresAt).value;
      assert s'.orders == s.orders[o := s'.orders[o]];
    }
  }

  lemma ReturnIntakeAtCounter(s: State, o: OrderId, hash: nat, expiresAt: int)
    ensures AtCounter(s, Committed(s, ConfirmReturnIntake(s, o, hash, expiresAt)), o)
  {
    hide Issue;
    if ConfirmReturnIntake(s, o, hash, expiresAt).Success? && !AlreadyProcessed(s, o, ReturnIntakeScope) {
      var s' := ConfirmReturnIntake(s, o, hash, expiresAt).value;
      assert s'.orders == s.orders[o := s'.orders[o]];
    }
  }

  lemma CollectionAtCounter(s: State, o: OrderId, hash: nat, now: int)
    ensures ConfirmCollection(s, o, hash, now).Success? ==> AtCounter(s, ConfirmCollection(s, o, hash, now).value, o)
  {
    hide Validate, SplitEntries;
    if ConfirmCollection(s, o, hash, now).Success? && !AlreadyProcessed(s, o, CollectionScope) {
      var s1 := ValidateCode(InsertKey(s, o, CollectionScope), o, ReceiverCollection, hash, now).value;
      var s2 := Orders.MarkCollected(s1, o).value;
      assert s2.orders == s.orders[o := s2.orders[o]];
      var s' := RecordSplit(s2, o).value;
      Overwrite(s.orders, o, s2.orders[o], s'.orders[o]);
    }
  }

  lemma ReturnCollectionAtCounter(s: State, o: OrderId, hash: nat, now: int)
    ensures ConfirmReturnCollection(s, o, hash, now).Success? ==>
              AtCounter(s, ConfirmReturnCollection(s, o, hash, now).value, o)
  {
    if ConfirmReturnCollection(s, o, hash, now).Success? && !AlreadyProcessed(s, o, ReturnCollectScope) {
      ReturnCollectionResult(s, o, hash, now);
      hide ConfirmReturnCollection, Validate;
    }
  }

  predicate CounterSide(step: Step) {
    || step.Intake? || step.ReturnIntake? || step.Collect? || step.ReturnCollect?
    || step.RequestCode? || step.Resend? || step.IssueLate?
  }

  lemma StepAtCounter(s: State, step: Step)
    requires CounterSide(step)
    ensures AtCounter(s, Next(s, step), step.o)
  {
    hide ConfirmIntake, ConfirmReturnIntake, ConfirmCollection, ConfirmReturnCollection, Issue, CountFailure;
    assert AtCounter(s, s, step.o);
    hide AtCounter;
    match step {
      case Intake(o, hash, expiresAt) => IntakeAtCounter(s, o, hash, expiresAt);
      case ReturnIntake(o, hash, expiresAt) => ReturnIntakeAtCounter(s, o, hash, expiresAt);
      case RequestCode(o, rider, kind, hash, expiresAt) =>
        if o in s.orders {
          CodesAtCounter(s, o, Issue(s.orders[o].codes, kind, hash, expiresAt));
        }
      case Resend(o, hash, expiresAt) =>
        if o in s.orders {
          CodesAtCounter(s, o, Issue(s.orders[o].codes, SenderCollection, hash, expiresAt));
          CodesAtCounter(s, o, Issue(s.orders[o].codes, ReceiverCollection, hash, expiresAt));
        }
      case IssueLate(o, kind, hash, expiresAt) =>
        if o in s.orders {
          CodesAtCounter(s, o, Issue(s.orders[o].codes, kind, hash, expiresAt));
        }
      case Collect(o, hash, now) =>
        CollectionAtCounter(s, o, hash, now);
        if o in s.orders {
          CodesAtCounter(s, o, CountFailure(s.orders[o].codes, ReceiverCollection));
        }
      case ReturnCollect(o, hash, now) =>
        ReturnCollectionAtCounter(s, o, hash, now);
        if o in s.orders {
          CodesAtCounter(s, o, CountFailure(s.orders[o].codes, SenderCollection));
        }
    }
  }

  lemma CounterStepGrows(s: State, step: Step)
    requires CounterSide(step)
    ensures OrdersGrow(s, Next(s, step))
  {
    StepAtCounter(s, step);
    OrdersGrowIsReflexive(s);
    hide Next, OrdersGrow;
    if Next(s, step) != s {
      OrderGrows(s, Next(s, step), step.o);
    }
  }

  lemma ConfirmPaidGrows(s: State, id: IntentId, order: OrderId)
    requires id in s.intents && s.intents[id].status == Pending
    ensures ConfirmPaid(s, id, order).Success? ==> Grows(s, ConfirmPaid(s, id, order).value)
  {
  }

  lemma ExpireGrows(s: State, id: IntentId)
    ensures Grows(s, Expire(s, id))
  {
  }

  lemma CheckoutGrows(s: State, id: IntentId, origin: NodeId, destination: NodeId,
                      vehicle: Option<VehicleClass>, fee: FeeBreakdown)
    ensures Grows(s, Committed(s, CreateIntent(s, id, origin, destination, vehicle, fee)))
  {
  }

  lemma ReferenceGrows(s: State, id: IntentId)
    requires id in s.intents ==> IntentOk(s, id)
    ensures Grows(s, SetReference(s, id))
  {
  }

  lemma WebhookGrows(s: State, reference: IntentId, reply: Option<Verification>, order: OrderId)
    ensures Grows(s, Committed(s, HandleWebhook(s, reference, reply, order)))
  {
    var s1 := s.(paymentKeys := s.paymentKeys + {reference});
    assert Grows(s, s1) && Grows(s, s);
    hide Grows;
    if reference in s.intents && s.intents[reference].status == Pending {
      ConfirmPaidGrows(s1, reference, order);
      if ConfirmPaid(s1, reference, order).Success? {
        GrowsIsTransitive(s, s1, ConfirmPaid(s1, reference, order).value);
      }
    }
  }

  lemma SweepGrows(s: State, stale: StaleIntent, reply: Option<Verification>, order: OrderId)
    ensures Grows(s, Committed(s, ProcessStaleIntent(s, stale, reply, order)))
  {
    ExpireGrows(s, stale.id);
    GrowsIsReflexive(s);
    if stale.providerReference.Some? {
      var s1 := s.(paymentKeys := s.paymentKeys + {stale.providerReference.value});
      assert Grows(s, s1);
      hide Grows;
      if stale.id in s.intents && s.intents[stale.id].status == Pending {
        ConfirmPaidGrows(s1, stale.id, order);
        if ConfirmPaid(s1, stale.id, order).Success? {
          GrowsIsTransitive(s, s1, ConfirmPaid(s1, stale.id, order).value);
        }
      }
    }
  }

  lemma PaymentStepGrows(s: State, step: Step)
    requires PaymentSide(step)
    requires Inv(s)
    ensures Grows(s, Next(s, step))
  {
    match step {
      case Checkout(id, origin, destination, vehicle, pricing, straightLineKm, routeKm) =>
        hide Inv, Grows;
        CheckoutGrows(s, id, origin, destination, Some(vehicle),
                      CalculateFee(pricing, straightLineKm, routeKm, vehicle));
      case WriteReference(id) =>
        assert id in s.intents ==> IntentOk(s, id);
        hide Inv, Grows;
        ReferenceGrows(s, id);
      case Webhook(reference, reply, newOrder) =>
        hide Inv, Grows;
        WebhookGrows(s, reference, reply, newOrder);
      case Sweep(stale, reply, newOrder) =>
        hide Inv, Grows;
        SweepGrows(s, stale, reply, newOrder);
      case AddRule(rule) =>
        hide Inv, Grows;
        RuleGrows(s, rule);
      case SetRiderActive(rider, active) =>
        hide Inv, Grows;
        ActivationGrows(s, rider, active);
    }
  }

  lemma RuleGrows(s: State, rule: SplitRule)
    ensures Grows(s, Committed(s, AddSplitRule(s, rule)))
  {
  }

  lemma ActivationGrows(s: State, rider: UserId, active: bool)
    ensures Grows(s, SetActive(s, rider, active))
  {
  }

  predicate PaymentSide(step: Step) {
    step.Checkout? || step.WriteReference? || step.Webhook? || step.Sweep? || step.AddRule? || step.SetRiderActive?
  }

  /** A new order, made from a paid intent, and no other change to the orders. */
  ghost predicate AddsOrder(s: State, s': State, order: OrderId, id: IntentId) {
    id in s.intents && order !in s.orders && s'.orders == s.orders[order := OrderOf(id, s.intents[id])]
  }

  lemma WebhookOrders(s: State, reference: IntentId, reply: Option<Verification>, order: OrderId)
    ensures var s' := Committed(s, HandleWebhook(s, reference, reply, order));
            s'.orders == s.orders || AddsOrder(s, s', order, reference)
  {
  }

  lemma SweepOrders(s: State, stale: StaleIntent, reply: Option<Verification>, order: OrderId)
    ensures var s' := Committed(s, ProcessStaleIntent(s, stale, reply, order));
            s'.orders == s.orders || AddsOrder(s, s', order, stale.id)
  {
  }

  /** On the payment side orders are only ever added. */
  lemma PaymentOrders(s: State, step: Step)
    requires PaymentSide(step)
    ensures var s' := Next(s, step);
            s'.orders == s.orders || exists order, id :: AddsOrder(s, s', order, id)
  {
    hide AddsOrder, HandleWebhook, ProcessStaleIntent, CalculateFee;
    match step {
      case Webhook(reference, reply, newOrder) => WebhookOrders(s, reference, reply, newOrder);
      case Sweep(stale, reply, newOrder) => SweepOrders(s, stale, reply, newOrder);
      case _ =>
    }
  }

  /** No step undoes anything, and only the payment side touches payments. */
  lemma StepGrows(s: State, step: Step)
    requires Inv(s)
    ensures Grows(s, Next(s, step))
    ensures !PaymentSide(step) ==> OrdersGrow(s, Next(s, step))
  {
    hide Inv, Grows, Next;
    match step {
      case DropOff(o, env) => DropOffStepGrows(s, o, env);
      case Intake(_, _, _) => CounterStepGrows(s, step);
      case ReturnIntake(_, _, _) => CounterStepGrows(s, step);
      case RequestCode(_, _, _, _, _) => CounterStepGrows(s, step);
      case Resend(_, _, _) => CounterStepGrows(s, step);
      case IssueLate(_, _, _, _) => CounterStepGrows(s, step);
      case Collect(_, _, _) => CounterStepGrows(s, step);
      case ReturnCollect(_, _, _) => CounterStepGrows(s, step);
      case Accept(_, _) => LegStepGrows(s, step);
      case Handoff(_, _, _, _) => LegStepGrows(s, step);
      case SubmitLeg(_, _, _, _) => LegStepGrows(s, step);
      case SyncLeg(_, _, _, _) => LegStepGrows(s, step);
      case Cancel(_, _, _, _) => LegStepGrows(s, step);
      case _ => PaymentStepGrows(s, step);
    }
  }

  lemma DropOffStepGrows(s: State, o: OrderId, env: RoutingEnv)
    ensures OrdersGrow(s, Next(s, DropOff(o, env)))
  {
    hide OrdersGrow;
    DropOffGrows(s, o, env);
  }

  /** Over any run nothing is undone: keys, logs and rules only grow, a PAID or EXPIRED
      intent keeps its status, and an order keeps what was paid for. */
  lemma {:induction false} RunGrows(s: State, steps: seq<Step>)
    requires Inv(s) && ValidSteps(steps)
    ensures Grows(s, Run(s, steps))
    decreases |steps|
  {
    if steps == [] {
      GrowsIsReflexive(s);
    } else {
      assert steps[0] in steps && forall step :: step in steps[1..] ==> step in steps;
      StepKeepsInv(s, steps[0]);
      StepGrows(s, steps[0]);
      RunGrows(Next(s, steps[0]), steps[1..]);
      GrowsIsTransitive(s, Next(s, steps[0]), Run(s, steps));
    }
  }
}

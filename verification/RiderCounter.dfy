/** A rider's counter against what they really carry, over whole runs: the two part
    only when a claimed in-house leg is cancelled, by one for each such leg. */
module RiderCounter {
  import opened Wrappers
  import opened Counting
  import opened DeliveryLeg
  import opened OrderRules
  import opened Routing
  import opened HandoffCodes
  import opened Money
  import opened Model
  import opened Capacity
  import opened Shelves
  import opened DeliveryDispatch
  import opened DeliveryEvents
  import opened Handoffs
  import opened Payments
  import opened Invariants
  import opened LegProtocol
  import opened LegSteps
  import opened LegTransactions
  import opened InHouseSteps
  import opened Growth
  import opened Reachability
  import opened Runs

  /** The rider an order counts for. */
  function Carrier(order: Order): Option<UserId> {
    if order.status in {RiderAssigned, InTransit} then order.riderId else None
  }

  predicate SameCounters(s: State, s': State) {
    s'.riders.Keys == s.riders.Keys
    && forall r :: r in s.riders ==> s'.riders[r].currentActiveOrderCount == s.riders[r].currentActiveOrderCount
  }

  /** Nothing that a rider's counter is about has changed. */
  ghost predicate Quiet(s: State, s': State) {
    && SameCounters(s, s')
    && s.orders.Keys <= s'.orders.Keys
    && forall p :: p in s'.orders ==>
         Carrier(s'.orders[p]) == if p in s.orders then Carrier(s.orders[p]) else None
  }

  lemma QuietKeepsDrift(s: State, s': State, rider: UserId)
    requires Quiet(s, s') && rider in s.riders
    ensures rider in s'.riders && Drift(s', rider) == Drift(s, rider)
    ensures s'.riders[rider].currentActiveOrderCount == s.riders[rider].currentActiveOrderCount
  {
    assert Matching(s'.orders, CarriedBy(rider)) == Matching(s.orders, CarriedBy(rider)) by {
      forall p
        ensures p in Matching(s'.orders, CarriedBy(rider)) <==> p in Matching(s.orders, CarriedBy(rider))
      {
        assert p in s'.orders ==> (CarriedBy(rider)(s'.orders[p]) <==> Carrier(s'.orders[p]) == Some(rider));
        assert p in s.orders ==> (CarriedBy(rider)(s.orders[p]) <==> Carrier(s.orders[p]) == Some(rider));
      }
    }
  }

  lemma QuietIsTransitive(a: State, b: State, c: State)
    requires Quiet(a, b) && Quiet(b, c)
    ensures Quiet(a, c)
  {
  }

  lemma QuietIsReflexive(s: State)
    ensures Quiet(s, s)
  {
  }

  /** One order changed and nobody's load with it. */
  lemma OneOrderQuiet(s: State, s': State, o: OrderId)
    requires o in s.orders && o in s'.orders && s'.orders == s.orders[o := s'.orders[o]]
    requires SameCounters(s, s') && Carrier(s'.orders[o]) == Carrier(s.orders[o])
    ensures Quiet(s, s')
  {
  }

  lemma DispatchQuiet(s: State, o: OrderId, force: Option<ProviderKey>, env: RoutingEnv)
    requires o in s.orders
    ensures Quiet(s, Dispatch(s, o, force, env))
  {
    var s' := Dispatch(s, o, force, env);
    assert s'.orders == s.orders[o := s'.orders[o]];
    OneOrderQuiet(s, s', o);
  }

  // ----- Legs that no claimed rider has ------------------------------------

  /** While an external courier carries the parcel, or nobody does, a move of the leg
      is no rider's business. */
  lemma UnclaimedMoveQuiet(s: State, o: OrderId, event: LegEvent)
    requires Inv(s) && o in s.orders && LegAccepts(s.orders[o], event)
    requires s.orders[o].legs[LastIndex(s.orders[o])].courierUserId.None?
    ensures Move(s, o, LastIndex(s.orders[o]), event).Success?
    ensures Quiet(s, Move(s, o, LastIndex(s.orders[o]), event).value)
  {
    About(s, o);
    hide Inv;
    var order := s.orders[o];
    ListenerAccepts(s, o, event);
    CountersQuiet(s.(orders := s.orders[o := AfterEvent(order, event)]), order.originNodeId, event);
    UnclaimedCarrier(order, event);
    OneOrderQuiet(s, Move(s, o, LastIndex(order), event).value, o);
  }

  lemma CountersQuiet(s: State, origin: NodeId, event: LegEvent)
    ensures CountersAfter(s, origin, event, None).riders == s.riders
    ensures CountersAfter(s, origin, event, None).orders == s.orders
  {
  }

  lemma UnclaimedCarrier(order: Order, event: LegEvent)
    requires Coupled(order) && LegAccepts(order, event)
    requires order.legs[LastIndex(order)].courierUserId.None?
    ensures Carrier(order) == None && Carrier(AfterEvent(order, event)) == None
    ensures AfterEvent(order, event).legs[LastIndex(order)].courierUserId == None
  {
  }

  lemma ExternalHasNoCourier(s: State, o: OrderId, i: nat)
    requires Inv(s) && HasLeg(s, o, i) && s.orders[o].legs[i].providerKey != InHouse
    ensures s.orders[o].legs[i].courierUserId.None?
  {
    About(s, o);
    assert CourierOk(s.orders[o].legs[i]);
  }

  lemma ApplyQuiet(s: State, o: OrderId, i: nat, event: LegEvent, routeTo: Option<ProviderKey>, env: RoutingEnv)
    requires Inv(s) && HasLeg(s, o, i) && s.orders[o].legs[i].courierUserId.None?
    requires NextLegStatus(s.orders[o].legs[i].status, event).Some?
    ensures Apply(s, o, i, event, routeTo, env).Success? && Quiet(s, Apply(s, o, i, event, routeTo, env).value)
  {
    hide Inv, Quiet;
    OnlyLastMovesIn(s, o, i, event);
    UnclaimedMoveQuiet(s, o, event);
    var s1 := Move(s, o, i, event).value;
    if event == LegCancelled && o in s1.orders {
      DispatchQuiet(s1, o, routeTo, env);
      QuietIsTransitive(s, s1, Dispatch(s1, o, routeTo, env));
    }
  }

  lemma {:induction false} CatchUpQuiet(s: State, o: OrderId, i: nat, target: LegStatus, env: RoutingEnv)
    requires Inv(s) && HasLeg(s, o, i) && s.orders[o].legs[i].providerKey != InHouse
    ensures ApplyAll(s, o, i, CatchUp(s.orders[o].legs[i].status, target), env).Success?
    ensures Quiet(s, ApplyAll(s, o, i, CatchUp(s.orders[o].legs[i].status, target), env).value)
    decreases |CatchUp(s.orders[o].legs[i].status, target)|
  {
    hide Inv, Quiet;
    var status := s.orders[o].legs[i].status;
    var steps := CatchUp(status, target);
    if steps == [] {
      QuietIsReflexive(s);
    } else {
      CatchUpUnfolds(status, target);
      ExternalHasNoCourier(s, o, i);
      ApplyQuiet(s, o, i, steps[0], None, env);
      CatchUpStep(s, o, i, steps[0], env);
      var s1 := Apply(s, o, i, steps[0], None, env).value;
      if steps[0] == LegCancelled {
        assert steps[1..] == [];
      } else {
        CatchUpQuiet(s1, o, i, target, env);
        QuietIsTransitive(s, s1, ApplyAll(s1, o, i, steps[1..], env).value);
      }
    }
  }

  lemma SyncQuiet(s: State, o: OrderId, i: nat, snapshot: Snapshot, env: RoutingEnv)
    requires Inv(s)
    ensures Quiet(s, Committed(s, SyncFromSnapshot(s, o, i, snapshot, env)))
  {
    hide Inv, Quiet;
    QuietIsReflexive(s);
    if HasLeg(s, o, i) && Matches(s.orders[o].legs[i], snapshot) && !Stale(s.orders[o].legs[i], snapshot) {
      var leg := s.orders[o].legs[i];
      var noted := SetLeg(s, o, i, leg.(providerSequence := snapshot.sequence));
      MatchedIsExternal(s, o, i, snapshot);
      NoteOnLegKeepsInv(s, o, i, leg.externalId, snapshot.sequence);
      OneOrderQuiet(s, noted, o);
      CatchUpQuiet(noted, o, i, snapshot.status, env);
      QuietIsTransitive(s, noted, SyncFromSnapshot(s, o, i, snapshot, env).value);
    }
  }

  lemma SubmitQuiet(s: State, o: OrderId, i: nat, reply: SubmitReply, env: RoutingEnv)
    ensures Quiet(s, Submit(s, o, i, reply, env))
  {
    hide Quiet;
    QuietIsReflexive(s);
    if Submit(s, o, i, reply, env) != s {
      var leg := s.orders[o].legs[i];
      match reply {
        case Retryable =>
        case Accepted(externalId) => OneOrderQuiet(s, SetLeg(s, o, i, leg.(externalId := Some(externalId))), o);
        case Refused =>
          var s1 := SetLeg(s, o, i, leg.(status := Cancelled, ended := true));
          OneOrderQuiet(s, s1, o);
          DispatchQuiet(s1, o, None, env);
          QuietIsTransitive(s, s1, Dispatch(s1, o, None, env));
      }
    }
  }

  // ----- Steps that touch no courier ---------------------------------------

  lemma DropOffQuiet(s: State, o: OrderId, env: RoutingEnv)
    ensures Quiet(s, Committed(s, ConfirmDropOff(s, o, env)))
  {
    hide Quiet;
    QuietIsReflexive(s);
    if ConfirmDropOff(s, o, env).Success? && !AlreadyProcessed(s, o, DropOffScope) {
      var s1 := Orders.MarkReceivedAtOrigin(InsertKey(s, o, DropOffScope), o).value;
      assert s1.orders == s.orders[o := s1.orders[o]];
      OneOrderQuiet(s, s1, o);
      DispatchQuiet(s1, o, None, env);
      QuietIsTransitive(s, s1, Dispatch(s1, o, None, env));
    }
  }

  lemma CounterStepQuiet(s: State, step: Step)
    requires CounterSide(step)
    ensures Quiet(s, Next(s, step))
  {
    hide Next, Quiet, Evolves;
    StepAtCounter(s, step);
    QuietIsReflexive(s);
    if Next(s, step) != s {
      OneOrderQuiet(s, Next(s, step), step.o);
    }
  }

  lemma ConfirmPaidQuiet(s: State, id: IntentId, order: OrderId)
    requires id in s.intents
    ensures ConfirmPaid(s, id, order).Success? ==> Quiet(s, ConfirmPaid(s, id, order).value)
  {
  }

  lemma WebhookQuiet(s: State, reference: IntentId, reply: Option<Verification>, order: OrderId)
    ensures Quiet(s, Committed(s, HandleWebhook(s, reference, reply, order)))
  {
    QuietIsReflexive(s);
    var s1 := s.(paymentKeys := s.paymentKeys + {reference});
    assert Quiet(s, s1);
    if reference in s.intents {
      ConfirmPaidQuiet(s1, reference, order);
      if ConfirmPaid(s1, reference, order).Success? {
        QuietIsTransitive(s, s1, ConfirmPaid(s1, reference, order).value);
      }
    }
    hide Quiet, ConfirmPaid;
  }

  lemma SweepQuiet(s: State, stale: StaleIntent, reply: Option<Verification>, order: OrderId)
    ensures Quiet(s, Committed(s, ProcessStaleIntent(s, stale, reply, order)))
  {
    QuietIsReflexive(s);
    assert Quiet(s, Expire(s, stale.id));
    if stale.providerReference.Some? {
      var s1 := s.(paymentKeys := s.paymentKeys + {stale.providerReference.value});
      assert Quiet(s, s1);
      if stale.id in s.intents {
        ConfirmPaidQuiet(s1, stale.id, order);
        if ConfirmPaid(s1, stale.id, order).Success? {
          QuietIsTransitive(s, s1, ConfirmPaid(s1, stale.id, order).value);
        }
      }
    }
    hide Quiet, ConfirmPaid, Expire;
  }

  lemma PaymentStepQuiet(s: State, step: Step)
    requires PaymentSide(step)
    ensures Quiet(s, Next(s, step))
  {
    match step {
      case Webhook(reference, reply, newOrder) =>
        hide Quiet;
        WebhookQuiet(s, reference, reply, newOrder);
      case Sweep(stale, reply, newOrder) =>
        hide Quiet;
        SweepQuiet(s, stale, reply, newOrder);
      case _ => hide CalculateFee, HandleWebhook, ProcessStaleIntent;
    }
  }

  // ----- Claims, handovers and cancellations -------------------------------

  /** Claiming the order, once the slot is booked, evens the claimant's counter out. */
  lemma ClaimDrift(s: State, o: OrderId, claimant: UserId, rider: UserId)
    requires o in s.orders && OrderOk(s.orders[o], s.splitRules) && InPool(s.orders[o]) && rider in s.riders
    requires Claimable(s.orders[o]).legs != []
    requires var claimed := WithCourier(Claimable(s.orders[o]), claimant);
             LegAccepts(claimed, CourierAssigned) && InStep(claimed)
    ensures var claimed := WithCourier(Claimable(s.orders[o]), claimant);
            var result := Move(s.(orders := s.orders[o := claimed]), o, LastIndex(claimed), CourierAssigned);
            && result.Success? && rider in result.value.riders
            && Drift(result.value, rider) == Drift(s, rider) - One(rider == claimant)
            && result.value.riders[rider].currentActiveOrderCount <= s.riders[rider].currentActiveOrderCount
  {
    var claimed := WithCourier(Claimable(s.orders[o]), claimant);
    var s1 := s.(orders := s.orders[o := claimed]);
    DriftAfterChange(s, s1, o, claimed, rider);
    hide OrderOk, Move, InStep, Drift;
    MoveDrift(s1, o, CourierAssigned, rider);
    MoveCounter(s1, o, CourierAssigned, rider);
  }

  lemma AcceptIsClaim(s: State, o: OrderId, rider: UserId)
    requires ReserveDeliverySlot(s, rider).Success?
    ensures AcceptOrder(s, o, rider) == AssignInHouseRider(ReserveDeliverySlot(s, rider).value, o, rider)
  {
  }

  /** A claim adds one to what the rider carries and one to their counter. */
  lemma AcceptDrift(s: State, o: OrderId, claimant: UserId, rider: UserId)
    requires Inv(s) && rider in s.riders && AcceptOrder(s, o, claimant).Success?
    ensures var s' := AcceptOrder(s, o, claimant).value;
            && rider in s'.riders && Drift(s', rider) == Drift(s, rider)
            && (s'.riders[rider].currentActiveOrderCount <= s.riders[rider].currentActiveOrderCount
                || s'.riders[rider].currentActiveOrderCount <= MAX_ACTIVE_ORDERS_PER_RIDER)
  {
    AcceptKeepsInv(s, o, claimant);
    var s1 := ReserveDeliverySlot(s, claimant).value;
    About(s, o);
    AcceptIsClaim(s, o, claimant);
    assert s1.riders[rider].currentActiveOrderCount == s.riders[rider].currentActiveOrderCount + One(rider == claimant);
    assert Drift(s1, rider) == Drift(s, rider) + One(rider == claimant);
    hide Inv, OrderOk, InPool, AcceptOrder, AssignInHouseRider, Move, Drift;
    ClaimResult(s1, o, claimant);
    ClaimedIsOk(s.orders[o], claimant, s.splitRules);
    ClaimDrift(s1, o, claimant, rider);
  }

  /** No move raises a rider's counter. */
  lemma MoveCounter(s: State, o: OrderId, event: LegEvent, rider: UserId)
    requires o in s.orders && LegAccepts(s.orders[o], event) && InStep(s.orders[o]) && rider in s.riders
    ensures Move(s, o, LastIndex(s.orders[o]), event).Success?
    ensures var s' := Move(s, o, LastIndex(s.orders[o]), event).value;
            rider in s'.riders && s'.riders[rider].currentActiveOrderCount <= s.riders[rider].currentActiveOrderCount
  {
    var order := s.orders[o];
    ListenerAccepts(s, o, event);
    NoCounterRises(s.(orders := s.orders[o := AfterEvent(order, event)]), order.originNodeId, event,
                   AfterEvent(order, event).legs[LastIndex(order)].courierUserId, rider);
    hide AfterEvent, CountersAfter, Move, InStep;
  }

  lemma NoCounterRises(s: State, origin: NodeId, event: LegEvent, courier: Option<UserId>, rider: UserId)
    requires rider in s.riders
    ensures var s' := CountersAfter(s, origin, event, courier);
            rider in s'.riders && s'.riders[rider].currentActiveOrderCount <= s.riders[rider].currentActiveOrderCount
  {
  }

  /** Whoever carries a parcel has a counter above zero, so handing it over never meets
      the clamp. */
  lemma CarrierHasCounter(s: State, o: OrderId, rider: UserId)
    requires o in s.orders && Carrier(s.orders[o]) == Some(rider) && rider in s.riders && Drift(s, rider) >= 0
    ensures s.riders[rider].currentActiveOrderCount > 0
  {
    CountHas(s.orders, CarriedBy(rider), o);
  }

  lemma HandoverBalance(order: Order, handover: Handover, codes: seq<Code>, rider: UserId)
    requires Coupled(order) && HandoverDue(order, handover)
    ensures var proved := Proved(order, handover, codes);
            && LegAccepts(proved, EventOf(handover)) && InStep(proved)
            && CounterChange(proved, EventOf(handover), rider) == LoadChange(proved, EventOf(handover), rider)
            && (CounterChange(proved, EventOf(handover), rider) != 0 ==> Carrier(order) == Some(rider))
            && Carrier(proved) == Carrier(order)
  {
  }

  lemma DueHandoverDrift(s: State, o: OrderId, handover: Handover, codes: seq<Code>, rider: UserId)
    requires o in s.orders && Coupled(s.orders[o]) && HandoverDue(s.orders[o], handover)
    requires rider in s.riders && Drift(s, rider) >= 0
    ensures var proved := Proved(s.orders[o], handover, codes);
            var result := Move(s.(orders := s.orders[o := proved]), o, LastIndex(proved), EventOf(handover));
            && result.Success? && rider in result.value.riders && Drift(result.value, rider) == Drift(s, rider)
            && result.value.riders[rider].currentActiveOrderCount <= s.riders[rider].currentActiveOrderCount
  {
    var proved := Proved(s.orders[o], handover, codes);
    var s1 := s.(orders := s.orders[o := proved]);
    HandoverBalance(s.orders[o], handover, codes, rider);
    DriftAfterChange(s, s1, o, proved, rider);
    if Carrier(s.orders[o]) == Some(rider) {
      CarrierHasCounter(s, o, rider);
    }
    hide Coupled, HandoverDue, InStep, LegAccepts, CounterChange, LoadChange, Move, Drift;
    MoveDrift(s1, o, EventOf(handover), rider);
    MoveCounter(s1, o, EventOf(handover), rider);
  }

  /** A confirmed arrival takes one from what the rider carries and one from their
      counter. */
  lemma HandoffDrift(s: State, o: OrderId, handover: Handover, hash: nat, now: int, rider: UserId)
    requires Inv(s) && rider in s.riders && Drift(s, rider) >= 0
    ensures var s' := Next(s, Handoff(o, handover, hash, now));
            && rider in s'.riders && Drift(s', rider) == Drift(s, rider)
            && s'.riders[rider].currentActiveOrderCount <= s.riders[rider].currentActiveOrderCount
  {
    hide Inv, ConfirmHandoff, Validate, Move, Quiet, Drift, Next, AlreadyProcessed;
    HandoffEnds(s, o, handover, hash, now);
    if o in s.orders {
      OneOrderQuiet(s, SetCodes(s, o, CountFailure(s.orders[o].codes, KindOf(handover))), o);
      QuietKeepsDrift(s, SetCodes(s, o, CountFailure(s.orders[o].codes, KindOf(handover))), rider);
      if !AlreadyProcessed(s, o, ScopeOf(handover)) && ConfirmHandoff(s, o, handover, hash, now).Success? {
        ConfirmedDrift(s, o, handover, hash, now, rider);
      }
    }
  }

  lemma ConfirmedDrift(s: State, o: OrderId, handover: Handover, hash: nat, now: int, rider: UserId)
    requires Inv(s) && o in s.orders && rider in s.riders && Drift(s, rider) >= 0
    requires !AlreadyProcessed(s, o, ScopeOf(handover)) && ConfirmHandoff(s, o, handover, hash, now).Success?
    ensures var s' := ConfirmHandoff(s, o, handover, hash, now).value;
            && rider in s'.riders && Drift(s', rider) == Drift(s, rider)
            && s'.riders[rider].currentActiveOrderCount <= s.riders[rider].currentActiveOrderCount
  {
    hide ConfirmHandoff, Validate, Move, Drift;
    HandoffKeepsInv(s, o, handover, hash, now);
    About(s, o);
    ProvedResult(s, o, handover, hash, now);
    DueHandoverDrift(s, o, handover, Validate(s.orders[o].codes, KindOf(handover), hash, now).value, rider);
  }

  /** The step cancels an in-house leg that this rider has claimed. Only possible when
      the in-house pool is given an assignment timeout, which it is not by default. */
  predicate CancelsClaim(s: State, step: Step, rider: UserId) {
    && step.Cancel? && HasLeg(s, step.o, step.i)
    && var leg := s.orders[step.o].legs[step.i];
    leg.providerKey == InHouse && leg.status == Assigned && leg.courierUserId == Some(rider)
  }

  lemma CancelBalance(order: Order, rider: UserId)
    requires Coupled(order) && LegsOk(order.legs) && LegAccepts(order, LegCancelled)
    ensures CounterChange(order, LegCancelled, rider) == 0
    ensures var leg := order.legs[LastIndex(order)];
            LoadChange(order, LegCancelled, rider) ==
              0 - One(leg.providerKey == InHouse && leg.status == Assigned && leg.courierUserId == Some(rider))
  {
    assert CourierOk(order.legs[LastIndex(order)]);
  }

  lemma CancelMoveDrift(s: State, o: OrderId, rider: UserId)
    requires Inv(s) && o in s.orders && LegAccepts(s.orders[o], LegCancelled) && rider in s.riders
    ensures Move(s, o, LastIndex(s.orders[o]), LegCancelled).Success?
    ensures var i := LastIndex(s.orders[o]);
            var leg, s' := s.orders[o].legs[i], Move(s, o, i, LegCancelled).value;
            && o in s'.orders && rider in s'.riders
            && Drift(s', rider) == Drift(s, rider)
                 + One(leg.providerKey == InHouse && leg.status == Assigned && leg.courierUserId == Some(rider))
            && s'.riders[rider].currentActiveOrderCount <= s.riders[rider].currentActiveOrderCount
  {
    About(s, o);
    CancelBalance(s.orders[o], rider);
    assert InStep(s.orders[o]);
    hide Inv, OrderOk, InStep, CounterChange, LoadChange, Drift, LegsOk, Coupled;
    MoveDrift(s, o, LegCancelled, rider);
    MoveCounter(s, o, LegCancelled, rider);
    ListenerAccepts(s, o, LegCancelled);
  }

  /** Cancelling a claimed in-house leg frees the order but not the rider's slot. */
  lemma CancelDrift(s: State, o: OrderId, i: nat, routeTo: Option<ProviderKey>, env: RoutingEnv, rider: UserId)
    requires Inv(s) && rider in s.riders
    ensures var step := Cancel(o, i, routeTo, env);
            && rider in Next(s, step).riders
            && Drift(Next(s, step), rider) == Drift(s, rider) + One(CancelsClaim(s, step, rider))
            && Next(s, step).riders[rider].currentActiveOrderCount <= s.riders[rider].currentActiveOrderCount
  {
    hide Inv, Drift, Quiet, Next, Move, Dispatch;
    CancelUnfolds(s, o, i, routeTo, env);
    if HasLeg(s, o, i) && NextLegStatus(s.orders[o].legs[i].status, LegCancelled).Some? {
      OnlyLastMovesIn(s, o, i, LegCancelled);
      CancelMoveDrift(s, o, rider);
      var s1 := Move(s, o, i, LegCancelled).value;
      DispatchQuiet(s1, o, routeTo, env);
      QuietKeepsDrift(s1, Dispatch(s1, o, routeTo, env), rider);
    }
  }

  // ----- Steps and runs ----------------------------------------------------

  /** A step moves a rider's counter away from what they carry exactly when it cancels
      a leg they have claimed, and never takes it past the allowed three. */
  lemma StepDrift(s: State, step: Step, rider: UserId)
    requires Inv(s) && rider in s.riders && Drift(s, rider) >= 0
    ensures rider in Next(s, step).riders
    ensures Drift(Next(s, step), rider) == Drift(s, rider) + One(CancelsClaim(s, step, rider))
    ensures s.riders[rider].currentActiveOrderCount <= MAX_ACTIVE_ORDERS_PER_RIDER ==>
              Next(s, step).riders[rider].currentActiveOrderCount <= MAX_ACTIVE_ORDERS_PER_RIDER
  {
    hide Inv, Drift, Quiet, Next;
    match step {
      case Cancel(o, i, routeTo, env) => CancelDrift(s, o, i, routeTo, env, rider);
      case Handoff(o, handover, hash, now) => HandoffDrift(s, o, handover, hash, now, rider);
      case Accept(o, claimant) => AcceptStepDrift(s, o, claimant, rider);
      case _ =>
        QuietStep(s, step);
        QuietKeepsDrift(s, Next(s, step), rider);
    }
  }

  lemma AcceptStepDrift(s: State, o: OrderId, claimant: UserId, rider: UserId)
    requires Inv(s) && rider in s.riders
    ensures var s' := Next(s, Accept(o, claimant));
            && rider in s'.riders && Drift(s', rider) == Drift(s, rider)
            && (s'.riders[rider].currentActiveOrderCount <= s.riders[rider].currentActiveOrderCount
                || s'.riders[rider].currentActiveOrderCount <= MAX_ACTIVE_ORDERS_PER_RIDER)
  {
    hide Inv, Drift;
    if AcceptOrder(s, o, claimant).Success? {
      AcceptDrift(s, o, claimant, rider);
    }
  }

  lemma QuietStep(s: State, step: Step)
    requires Inv(s) && !step.Cancel? && !step.Handoff? && !step.Accept?
    ensures Quiet(s, Next(s, step))
  {
    hide Inv, Quiet;
    match step {
      case DropOff(o, env) => DropOffQuiet(s, o, env);
      case SubmitLeg(o, i, answer, env) => SubmitQuiet(s, o, i, answer, env);
      case SyncLeg(o, i, snapshot, env) => SyncQuiet(s, o, i, snapshot, env);
      case _ =>
        hide Next;
        if PaymentSide(step) {
          PaymentStepQuiet(s, step);
        } else {
          CounterStepQuiet(s, step);
        }
    }
  }

  /** How many of a rider's claims are cancelled in a run. */
  function CancelledClaims(s: State, steps: seq<Step>, rider: UserId): nat
    decreases |steps|
  {
    if steps == [] then 0
    else One(CancelsClaim(s, steps[0], rider)) + CancelledClaims(Next(s, steps[0]), steps[1..], rider)
  }

  lemma {:induction false} RunDrift(s: State, steps: seq<Step>, rider: UserId)
    requires Inv(s) && ValidSteps(steps) && rider in s.riders && Drift(s, rider) >= 0
    requires s.riders[rider].currentActiveOrderCount <= MAX_ACTIVE_ORDERS_PER_RIDER
    ensures rider in Run(s, steps).riders
    ensures Drift(Run(s, steps), rider) == Drift(s, rider) + CancelledClaims(s, steps, rider)
    ensures Run(s, steps).riders[rider].currentActiveOrderCount <= MAX_ACTIVE_ORDERS_PER_RIDER
    decreases |steps|
  {
    if steps != [] {
      assert steps[0] in steps && forall step :: step in steps[1..] ==> step in steps;
      StepKeepsInv(s, steps[0]);
      StepDrift(s, steps[0], rider);
      hide Inv, Drift, Next, CancelsClaim;
      RunDrift(Next(s, steps[0]), steps[1..], rider);
    }
  }

  /** The audit's definition: a rider's orders that are assigned to them or under way. */
  function AuditedLoad(s: State, rider: UserId): set<OrderId> {
    set o | o in s.orders && s.orders[o].riderId == Some(rider) && s.orders[o].status in {RiderAssigned, InTransit}
  }

  /** Over every run from an empty system a rider's counter is what the audit counts
      plus one for each of their claims that was cancelled, and never above three. So
      the audit finds no mismatch if and only if no claim was ever cancelled. */
  lemma RiderCounterIsAudit(start: State, steps: seq<Step>, rider: UserId)
    requires Initial(start) && ValidSteps(steps) && rider in start.riders
    ensures rider in Run(start, steps).riders
    ensures var s := Run(start, steps);
            && s.riders[rider].currentActiveOrderCount == |AuditedLoad(s, rider)| + CancelledClaims(start, steps, rider)
            && s.riders[rider].currentActiveOrderCount <= MAX_ACTIVE_ORDERS_PER_RIDER
  {
    InitialIsConsistent(start);
    RunDrift(start, steps, rider);
    var s := Run(start, steps);
    assert AuditedLoad(s, rider) == Matching(s.orders, CarriedBy(rider));
  }

  /** An order is accepted exactly when it is offered and the rider, by the audit's count
      and their cancelled claims, is active and has fewer than three. */
  lemma AcceptExactlyWhen(start: State, steps: seq<Step>, o: OrderId, rider: UserId)
    requires Initial(start) && ValidSteps(steps) && rider in start.riders
    ensures rider in Run(start, steps).riders
    ensures var s := Run(start, steps);
            AcceptOrder(s, o, rider).Success? <==>
              && o in s.orders && Offered(s.orders[o]) && s.riders[rider].active
              && |AuditedLoad(s, rider)| + CancelledClaims(start, steps, rider) < MAX_ACTIVE_ORDERS_PER_RIDER
  {
    RiderCounterIsAudit(start, steps, rider);
    InitialIsConsistent(start);
    RunKeepsInv(start, steps);
    var s := Run(start, steps);
    AcceptKeepsInv(s, o, rider);
    if o in s.orders {
      About(s, o);
      OfferedIsInPool(s.orders[o], s.splitRules);
    }
    hide Inv, OrderOk, Run, Initial, ValidSteps, CancelledClaims, AuditedLoad, AcceptOrder, Offered, InPool;
  }

  // ----- The rows themselves ------------------------------------------------

  lemma MoveKeepsRows(s: State, o: OrderId, i: nat, event: LegEvent)
    requires HasLeg(s, o, i)
    ensures Move(s, o, i, event).Success? ==> Move(s, o, i, event).value.riders.Keys == s.riders.Keys
  {
    hide LowestFree;
  }

  lemma StepKeepsRows(s: State, step: Step)
    requires Inv(s)
    ensures Next(s, step).riders.Keys == s.riders.Keys
  {
    hide Inv, Quiet, Move;
    match step {
      case Cancel(o, i, routeTo, env) =>
        if HasLeg(s, o, i) {
          MoveKeepsRows(s, o, i, LegCancelled);
        }
      case Handoff(o, handover, hash, now) => HandoffKeepsRows(s, o, handover, hash, now);
      case Accept(o, rider) => AcceptKeepsRows(s, o, rider);
      case _ =>
        QuietStep(s, step);
        QuietKeepsRows(s, step);
    }
  }

  lemma QuietKeepsRows(s: State, step: Step)
    requires Quiet(s, Next(s, step))
    ensures Next(s, step).riders.Keys == s.riders.Keys
  {
    hide Next;
  }

  lemma AcceptKeepsRows(s: State, o: OrderId, rider: UserId)
    ensures Committed(s, AcceptOrder(s, o, rider)).riders.Keys == s.riders.Keys
  {
    if AcceptOrder(s, o, rider).Success? {
      var s1 := ReserveDeliverySlot(s, rider).value;
      var (s2, i) := LegToMove(s1, o, Requested, None);
      MoveKeepsRows(SetLeg(s2, o, i, s2.orders[o].legs[i].(courierUserId := Some(rider))), o, i, CourierAssigned);
      hide Move;
    }
  }

  lemma HandoverKeepsRows(s: State, o: OrderId, event: LegEvent)
    requires event in {ParcelPickedUp, ParcelDelivered}
    ensures var result := RecordInHouseHandover(s, o, event);
            result.Success? ==> result.value.riders.Keys == s.riders.Keys
  {
    if o in s.orders {
      var (s1, i) := LegToMove(s, o, if event == ParcelPickedUp then Assigned else PickedUp, s.orders[o].riderId);
      MoveKeepsRows(s1, o, i, event);
      hide Move, LegToMove, NextLegStatus;
    }
  }

  lemma HandoffKeepsRows(s: State, o: OrderId, handover: Handover, hash: nat, now: int)
    ensures Next(s, Handoff(o, handover, hash, now)).riders.Keys == s.riders.Keys
  {
    hide RecordInHouseHandover, Validate, CountFailure;
    var result := ConfirmHandoff(s, o, handover, hash, now);
    if result.Success? && o in s.orders && !AlreadyProcessed(s, o, ScopeOf(handover)) {
      var s1 := ValidateCode(InsertKey(s, o, ScopeOf(handover)), o, KindOf(handover), hash, now).value;
      HandoverKeepsRows(s1, o, EventOf(handover));
      assert result == RecordInHouseHandover(s1, o, EventOf(handover)) && s1.riders == s.riders;
    }
    hide ConfirmHandoff;
  }

  lemma {:induction false} RunKeepsRows(s: State, steps: seq<Step>)
    requires Inv(s) && ValidSteps(steps)
    ensures Run(s, steps).riders.Keys == s.riders.Keys
    decreases |steps|
  {
    hide Inv, Next;
    if steps != [] {
      assert steps[0] in steps && forall step :: step in steps[1..] ==> step in steps;
      StepKeepsInv(s, steps[0]);
      StepKeepsRows(s, steps[0]);
      RunKeepsRows(Next(s, steps[0]), steps[1..]);
    }
  }

  /** In every reachable state a rider who is about to hand a parcel over has a counter
      above zero: the clamp never fires. */
  lemma RiderClampNeverFires(s: State, o: OrderId)
    requires Reachable(s) && o in s.orders && s.orders[o].status == InTransit && s.orders[o].riderId.Some?
    ensures s.orders[o].riderId.value in s.riders && s.riders[s.orders[o].riderId.value].currentActiveOrderCount > 0
  {
    var start, steps :| Initial(start) && ValidSteps(steps) && s == Run(start, steps);
    var rider := s.orders[o].riderId.value;
    ReachableIsConsistent(s);
    About(s, o);
    InitialIsConsistent(start);
    RunKeepsRows(start, steps);
    hide Inv, Initial, ValidSteps, Run, Reachable;
    RiderCounterIsAudit(start, steps, rider);
    assert o in AuditedLoad(s, rider);
  }
}

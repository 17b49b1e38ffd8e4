/** Whole runs of the system: any transactions, in any order, with any inputs. */
module Runs {
  import opened Wrappers
  import opened Counting
  import opened DeliveryLeg
  import opened Routing
  import opened HandoffCodes
  import opened Money
  import opened Model
  import opened DeliveryDispatch
  import opened DeliveryEvents
  import opened Handoffs
  import opened Payments
  import opened Invariants
  import opened LegTransactions
  import opened HandoffSteps
  import opened InHouseSteps
  import opened PaymentSteps

  /** One committed or rolled-back transaction, with everything that comes from
      outside: what was typed in, what a provider answered, what a sweep had read.
      IssueLate is the transaction of a code request whose guards were read before it
      began, whatever has become of the order since. */
  datatype Step =
    | Checkout(id: IntentId, origin: NodeId, destination: NodeId, vehicle: VehicleClass,
               pricing: PricingRule, straightLineKm: real, routeKm: Option<real>)
    | WriteReference(id: IntentId)
    | Webhook(reference: IntentId, reply: Option<Verification>, newOrder: OrderId)
    | Sweep(stale: StaleIntent, reply: Option<Verification>, newOrder: OrderId)
    | DropOff(o: OrderId, env: RoutingEnv)
    | Accept(o: OrderId, rider: UserId)
    | RequestCode(o: OrderId, rider: UserId, kind: CodeKind, hash: nat, expiresAt: int)
    | Handoff(o: OrderId, handover: Handover, hash: nat, now: int)
    | Intake(o: OrderId, hash: nat, expiresAt: int)
    | Collect(o: OrderId, hash: nat, now: int)
    | Resend(o: OrderId, hash: nat, expiresAt: int)
    | IssueLate(o: OrderId, kind: CodeKind, hash: nat, expiresAt: int)
    | ReturnIntake(o: OrderId, hash: nat, expiresAt: int)
    | ReturnCollect(o: OrderId, hash: nat, now: int)
    | SubmitLeg(o: OrderId, i: nat, answer: SubmitReply, env: RoutingEnv)
    | SyncLeg(o: OrderId, i: nat, snapshot: Snapshot, env: RoutingEnv)
    | Cancel(o: OrderId, i: nat, routeTo: Option<ProviderKey>, env: RoutingEnv)
    | AddRule(rule: SplitRule)
    | SetRiderActive(rider: UserId, active: bool)

  function SetActive(s: State, rider: UserId, active: bool): State {
    if rider !in s.riders then s
    else s.(riders := s.riders[rider := s.riders[rider].(active := active)])
  }

  /** The tables after a step; a transaction that throws leaves them as they were,
      except for the lockout counter of a code that failed its check. */
  function Next(s: State, step: Step): State {
    match step
    case Checkout(id, origin, destination, vehicle, pricing, straightLineKm, routeKm) =>
      Committed(s, CreateIntent(s, id, origin, destination, Some(vehicle),
                                CalculateFee(pricing, straightLineKm, routeKm, vehicle)))
    case WriteReference(id) => SetReference(s, id)
    case Webhook(reference, reply, newOrder) => Committed(s, HandleWebhook(s, reference, reply, newOrder))
    case Sweep(stale, reply, newOrder) => Committed(s, ProcessStaleIntent(s, stale, reply, newOrder))
    case DropOff(o, env) => Committed(s, ConfirmDropOff(s, o, env))
    case Accept(o, rider) => Committed(s, AcceptOrder(s, o, rider))
    case RequestCode(o, rider, kind, hash, expiresAt) =>
      Committed(s, RequestHandoffCode(s, o, rider, kind, hash, expiresAt))
    case Handoff(o, handover, hash, now) =>
      AfterCodeCheck(s, o, KindOf(handover), ConfirmHandoff(s, o, handover, hash, now))
    case Intake(o, hash, expiresAt) => Committed(s, ConfirmIntake(s, o, hash, expiresAt))
    case Collect(o, hash, now) => AfterCodeCheck(s, o, ReceiverCollection, ConfirmCollection(s, o, hash, now))
    case Resend(o, hash, expiresAt) => Committed(s, ResendCollectionCode(s, o, hash, expiresAt))
    case IssueLate(o, kind, hash, expiresAt) => if o in s.orders then IssueCode(s, o, kind, hash, expiresAt) else s
    case ReturnIntake(o, hash, expiresAt) => Committed(s, ConfirmReturnIntake(s, o, hash, expiresAt))
    case ReturnCollect(o, hash, now) => AfterCodeCheck(s, o, SenderCollection, ConfirmReturnCollection(s, o, hash, now))
    case SubmitLeg(o, i, answer, env) => Submit(s, o, i, answer, env)
    case SyncLeg(o, i, snapshot, env) => Committed(s, SyncFromSnapshot(s, o, i, snapshot, env))
    case Cancel(o, i, routeTo, env) => Committed(s, CancelLeg(s, o, i, routeTo, env))
    case AddRule(rule) => Committed(s, AddSplitRule(s, rule))
    case SetRiderActive(rider, active) => SetActive(s, rider, active)
  }

  /** How a handover ends: nothing happens, a failed check is counted, or it is done. */
  lemma HandoffEnds(s: State, o: OrderId, handover: Handover, hash: nat, now: int)
    ensures var s' := Next(s, Handoff(o, handover, hash, now));
            || s' == s
            || (o in s.orders && s' == SetCodes(s, o, CountFailure(s.orders[o].codes, KindOf(handover))))
            || (o in s.orders && !AlreadyProcessed(s, o, ScopeOf(handover))
                && ConfirmHandoff(s, o, handover, hash, now) == Success(s'))
  {
    hide Validate, RecordInHouseHandover, CountFailure;
  }

  /** A cancellation moves the leg and routes the order on, or does nothing. */
  lemma CancelUnfolds(s: State, o: OrderId, i: nat, routeTo: Option<ProviderKey>, env: RoutingEnv)
    ensures HasLeg(s, o, i) && NextLegStatus(s.orders[o].legs[i].status, LegCancelled).Some?
            && Move(s, o, i, LegCancelled).Success? && o in Move(s, o, i, LegCancelled).value.orders ==>
              Next(s, Cancel(o, i, routeTo, env)) == Dispatch(Move(s, o, i, LegCancelled).value, o, routeTo, env)
    ensures !(HasLeg(s, o, i) && NextLegStatus(s.orders[o].legs[i].status, LegCancelled).Some?) ==>
              Next(s, Cancel(o, i, routeTo, env)) == s
  {
    hide Dispatch;
  }

  /** Prices come from a valid pricing rule and a distance that is one. */
  ghost predicate ValidStep(step: Step) {
    step.Checkout? ==>
      ValidPricing(step.pricing) && 0.0 <= step.straightLineKm && (step.routeKm.Some? ==> 0.0 <= step.routeKm.value)
  }

  ghost predicate ValidSteps(steps: seq<Step>) {
    forall step :: step in steps ==> ValidStep(step)
  }

  function Run(s: State, steps: seq<Step>): State
    decreases |steps|
  {
    if steps == [] then s else Run(Next(s, steps[0]), steps[1..])
  }

  lemma {:induction false} RunAppend(s: State, steps: seq<Step>, last: Step)
    ensures Run(s, steps + [last]) == Next(Run(s, steps), last)
    decreases |steps|
  {
    if steps == [] {
      assert [last][1..] == [];
      assert Run(Next(s, last), []) == Next(s, last);
    } else {
      assert (steps + [last])[1..] == steps[1..] + [last];
      RunAppend(Next(s, steps[0]), steps[1..], last);
    }
    hide Next;
  }

  /** Before anything has happened: Nodes and riders, but no bookings. */
  ghost predicate Initial(s: State) {
    && s.intents == map[] && s.orders == map[] && s.paymentKeys == {}
    && (forall n :: n in s.nodes ==> s.nodes[n].currentCount == 0)
    && (forall r :: r in s.riders ==> s.riders[r].currentActiveOrderCount == 0)
    && RulesOk(s.splitRules)
  }

  lemma InitialIsConsistent(s: State)
    requires Initial(s)
    ensures Inv(s) && RidersOk(s)
  {
    forall n | n in s.nodes
      ensures NodeOk(s, n)
    {
      CountNone(s.intents, PendingAt(n));
      CountNone(s.orders, HeldAt(n));
      CountNone(s.orders, BeforePickupAt(n));
    }
    forall r | r in s.riders
      ensures Drift(s, r) == 0
    {
      CountNone(s.orders, CarriedBy(r));
    }
  }

  lemma SetActiveKeepsInv(s: State, rider: UserId, active: bool)
    requires Inv(s)
    ensures Inv(SetActive(s, rider, active))
  {
    if rider in s.riders {
      var s' := SetActive(s, rider, active);
      assert s'.riders.Keys == s.riders.Keys;
      forall o | o in s'.orders
        ensures OrderOk(s'.orders[o], s'.splitRules) && RiderKnown(s', s'.orders[o]) && PaidFor(s', s'.orders[o])
      {
        assert OrderOk(s.orders[o], s.splitRules) && RiderKnown(s, s.orders[o]) && PaidFor(s, s.orders[o]);
      }
      forall i | i in s'.intents
        ensures IntentOk(s', i)
      {
        assert IntentOk(s, i);
      }
      forall o, p | o in s'.orders && p in s'.orders
        ensures DifferentIntents(s', o, p)
      {
        assert DifferentIntents(s, o, p);
      }
      forall n | n in s'.nodes
        ensures NodeOk(s', n)
      {
        assert NodeOk(s, n);
      }
    }
  }

  /** The steps on the payment side. */
  lemma PaymentStepKeepsInv(s: State, step: Step)
    requires step.Checkout? || step.WriteReference? || step.Webhook? || step.Sweep? || step.AddRule?
              || step.SetRiderActive?
    requires Inv(s) && ValidStep(step)
    ensures Inv(Next(s, step))
  {
    hide Inv;
    match step {
      case Checkout(id, origin, destination, vehicle, pricing, straightLineKm, routeKm) =>
        PriceIsSound(pricing, vehicle, straightLineKm, routeKm, DistanceKm(pricing, straightLineKm, routeKm));
        var fee := CalculateFee(pricing, straightLineKm, routeKm, vehicle);
        if CreateIntent(s, id, origin, destination, Some(vehicle), fee).Success? {
          CreateKeepsInv(s, id, origin, destination, Some(vehicle), fee);
        }
      case WriteReference(id) => ReferenceKeepsInv(s, id);
      case Webhook(reference, reply, newOrder) =>
        if HandleWebhook(s, reference, reply, newOrder).Success? {
          WebhookKeepsInv(s, reference, reply, newOrder);
        }
      case Sweep(stale, reply, newOrder) =>
        if ProcessStaleIntent(s, stale, reply, newOrder).Success? {
          SweepKeepsInv(s, stale, reply, newOrder);
        }
      case AddRule(rule) =>
        if AddSplitRule(s, rule).Success? {
          RuleKeepsInv(s, rule);
        }
      case SetRiderActive(rider, active) => SetActiveKeepsInv(s, rider, active);
    }
  }

  /** The steps that move legs. */
  lemma LegStepKeepsInv(s: State, step: Step)
    requires step.Accept? || step.SubmitLeg? || step.SyncLeg? || step.Cancel?
    requires Inv(s)
    ensures Inv(Next(s, step))
  {
    hide Inv;
    match step {
      case Accept(o, rider) => AcceptKeepsInv(s, o, rider);
      case SubmitLeg(o, i, answer, env) => SubmitKeepsInv(s, o, i, answer, env);
      case SyncLeg(o, i, snapshot, env) => SyncKeepsInv(s, o, i, snapshot, env);
      case Cancel(o, i, routeTo, env) => CancelKeepsInv(s, o, i, routeTo, env);
    }
  }

  /** The steps at a counter that need no code. */
  lemma CounterStepsKeepInv(s: State, step: Step)
    requires step.DropOff? || step.Intake? || step.ReturnIntake? || step.RequestCode? || step.Resend? || step.IssueLate?
    requires Inv(s)
    ensures Inv(Next(s, step))
  {
    hide Inv;
    match step {
      case DropOff(o, env) =>
        if ConfirmDropOff(s, o, env).Success? {
          DropOffKeepsInv(s, o, env);
        }
      case Intake(o, hash, expiresAt) =>
        if ConfirmIntake(s, o, hash, expiresAt).Success? {
          IntakeKeepsInv(s, o, hash, expiresAt);
        }
      case ReturnIntake(o, hash, expiresAt) =>
        if ConfirmReturnIntake(s, o, hash, expiresAt).Success? {
          ReturnIntakeKeepsInv(s, o, hash, expiresAt);
        }
      case RequestCode(o, rider, kind, hash, expiresAt) =>
        if RequestHandoffCode(s, o, rider, kind, hash, expiresAt).Success? {
          IssueKeepsInv(s, o, kind, hash, expiresAt);
        }
      case Resend(o, hash, expiresAt) =>
        if o in s.orders {
          IssueKeepsInv(s, o, SenderCollection, hash, expiresAt);
          IssueKeepsInv(s, o, ReceiverCollection, hash, expiresAt);
        }
      case IssueLate(o, kind, hash, expiresAt) =>
        if o in s.orders {
          IssueKeepsInv(s, o, kind, hash, expiresAt);
        }
    }
  }

  /** The steps at a counter that are proved with a code. */
  lemma CodeStepKeepsInv(s: State, step: Step)
    requires step.Handoff? || step.Collect? || step.ReturnCollect?
    requires Inv(s)
    ensures Inv(Next(s, step))
  {
    hide Inv;
    if step.o in s.orders {
      match step {
        case Handoff(o, handover, hash, now) =>
          FailedCheckKeepsInv(s, o, KindOf(handover));
          if !AlreadyProcessed(s, o, ScopeOf(handover)) {
            HandoffKeepsInv(s, o, handover, hash, now);
          }
        case Collect(o, hash, now) =>
          FailedCheckKeepsInv(s, o, ReceiverCollection);
          if ConfirmCollection(s, o, hash, now).Success? {
            CollectionKeepsInv(s, o, hash, now);
          }
        case ReturnCollect(o, hash, now) =>
          FailedCheckKeepsInv(s, o, SenderCollection);
          if ConfirmReturnCollection(s, o, hash, now).Success? {
            ReturnCollectionKeepsInv(s, o, hash, now);
          }
      }
    }
  }

  lemma StepKeepsInv(s: State, step: Step)
    requires Inv(s) && ValidStep(step)
    ensures Inv(Next(s, step))
  {
    hide Inv, Next, ValidStep;
    match step {
      case Accept(_, _) => LegStepKeepsInv(s, step);
      case SubmitLeg(_, _, _, _) => LegStepKeepsInv(s, step);
      case SyncLeg(_, _, _, _) => LegStepKeepsInv(s, step);
      case Cancel(_, _, _, _) => LegStepKeepsInv(s, step);
      case DropOff(_, _) => CounterStepsKeepInv(s, step);
      case Intake(_, _, _) => CounterStepsKeepInv(s, step);
      case ReturnIntake(_, _, _) => CounterStepsKeepInv(s, step);
      case RequestCode(_, _, _, _, _) => CounterStepsKeepInv(s, step);
      case Resend(_, _, _) => CounterStepsKeepInv(s, step);
      case IssueLate(_, _, _, _) => CounterStepsKeepInv(s, step);
      case Handoff(_, _, _, _) => CodeStepKeepsInv(s, step);
      case Collect(_, _, _) => CodeStepKeepsInv(s, step);
      case ReturnCollect(_, _, _) => CodeStepKeepsInv(s, step);
      case _ => PaymentStepKeepsInv(s, step);
    }
  }

  /** Whatever happens, in whatever order, the tables stay consistent. */
  lemma {:induction false} RunKeepsInv(s: State, steps: seq<Step>)
    requires Inv(s) && ValidSteps(steps)
    ensures Inv(Run(s, steps))
    decreases |steps|
  {
    if steps != [] {
      assert steps[0] in steps && forall step :: step in steps[1..] ==> step in steps;
      StepKeepsInv(s, steps[0]);
      RunKeepsInv(Next(s, steps[0]), steps[1..]);
    }
  }

  /** A state that some run from an empty system leads to. */
  ghost predicate Reachable(s: State) {
    exists start, steps :: Initial(start) && ValidSteps(steps) && s == Run(start, steps)
  }

  lemma ReachableIsConsistent(s: State)
    requires Reachable(s)
    ensures Inv(s)
  {
    var start, steps :| Initial(start) && ValidSteps(steps) && s == Run(start, steps);
    InitialIsConsistent(start);
    RunKeepsInv(start, steps);
  }

  lemma ReachableNext(s: State, step: Step)
    requires Reachable(s) && ValidStep(step)
    ensures Reachable(Next(s, step))
  {
    var start, before :| Initial(start) && ValidSteps(before) && s == Run(start, before);
    RunAppend(start, before, step);
    assert ValidSteps(before + [step]);
  }

  /** Whatever a reachable state leads to is reachable. */
  lemma {:induction false} ReachableRun(s: State, steps: seq<Step>)
    requires Reachable(s) && ValidSteps(steps)
    ensures Reachable(Run(s, steps))
    decreases |steps|
  {
    if steps != [] {
      assert steps[0] in steps && forall step :: step in steps[1..] ==> step in steps;
      hide Reachable, Next;
      ReachableNext(s, steps[0]);
      ReachableRun(Next(s, steps[0]), steps[1..]);
    }
  }
}

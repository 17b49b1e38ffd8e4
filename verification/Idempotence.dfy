/** The counter steps happen once each: a repeat, any time later, changes nothing. */
module Idempotence {
  import opened Wrappers
  import opened DeliveryLeg
  import opened OrderRules
  import opened HandoffCodes
  import opened Money
  import opened Model
  import opened Capacity
  import opened DeliveryEvents
  import opened Handoffs
  import opened Invariants
  import opened Growth
  import opened Runs

  /** The idempotency key and the log line of each counter step under a key. */
  function KeyOf(step: Step): Option<(Scope, OrderEvent)> {
    match step
    case DropOff(_, _) => Some((DropOffScope, LogReceived))
    case Intake(_, _, _) => Some((IntakeScope, LogReady))
    case Collect(_, _, _) => Some((CollectionScope, LogCollected))
    case ReturnIntake(_, _, _) => Some((ReturnIntakeScope, LogReadyForSender))
    case ReturnCollect(_, _, _) => Some((ReturnCollectScope, LogCollectedBySender))
    case _ => None
  }

  /** The order that a counter step is about. */
  function OrderIdOf(step: Step): OrderId
    requires KeyOf(step).Some?
  {
    step.o
  }

  /** In every reachable state the key of a counter step is there exactly when its log
      line is. */
  lemma KeyIffLogged(s: State, step: Step)
    requires Reachable(s) && KeyOf(step).Some? && OrderIdOf(step) in s.orders
    ensures var order, key := s.orders[OrderIdOf(step)], KeyOf(step).value;
            key.0 in order.keys <==> key.1 in order.log
  {
    ReachableIsConsistent(s);
    About(s, OrderIdOf(step));
  }

  /** A step whose key is there does nothing. */
  lemma KeyedStepIsNoop(s: State, step: Step)
    requires KeyOf(step).Some? && AlreadyProcessed(s, OrderIdOf(step), KeyOf(step).value.0)
    ensures Next(s, step) == s
  {
  }

  /** Once a counter step has been logged, any repeat of it, with any code, after any
      further history, changes nothing at all. */
  lemma RepeatsChangeNothing(s: State, steps: seq<Step>, step: Step)
    requires Reachable(s) && ValidSteps(steps) && KeyOf(step).Some? && OrderIdOf(step) in s.orders
    requires KeyOf(step).value.1 in s.orders[OrderIdOf(step)].log
    ensures Next(Run(s, steps), step) == Run(s, steps)
  {
    KeyIffLogged(s, step);
    ReachableIsConsistent(s);
    RunGrows(s, steps);
    KeyedStepIsNoop(Run(s, steps), step);
  }

  /** The same for a rider's handovers: one that was confirmed is never done again. */
  lemma HandoverRepeatsChangeNothing(s: State, steps: seq<Step>, o: OrderId, handover: Handover, hash: nat, now: int)
    requires Reachable(s) && ValidSteps(steps) && AlreadyProcessed(s, o, ScopeOf(handover))
    ensures Next(Run(s, steps), Handoff(o, handover, hash, now)) == Run(s, steps)
  {
    ReachableIsConsistent(s);
    RunGrows(s, steps);
    assert AlreadyProcessed(Run(s, steps), o, ScopeOf(handover));
  }

  /** And no key ever stands in the way of a handover that is due. */
  lemma DueHandoverIsNotBlocked(s: State, o: OrderId)
    requires Reachable(s) && o in s.orders && LastLeg(s.orders[o]).Some?
    ensures LastLeg(s.orders[o]).value.status == Assigned ==> PickupScope !in s.orders[o].keys
    ensures LastLeg(s.orders[o]).value.status == PickedUp ==> ArrivalScope !in s.orders[o].keys
  {
    ReachableIsConsistent(s);
    About(s, o);
  }

  /** In every reachable state the counter steps that need no code succeed exactly when
      the parcel is where they expect it, or when they have been done before. */
  lemma CounterStepsExactlyWhen(s: State, o: OrderId, env: RoutingEnv, hash: nat, expiresAt: int)
    requires Reachable(s) && o in s.orders
    ensures ConfirmDropOff(s, o, env).Success? <==>
              s.orders[o].status == AwaitingDropOff || LogReceived in s.orders[o].log
    ensures ConfirmIntake(s, o, hash, expiresAt).Success? <==>
              s.orders[o].status == ArrivedAtDestination || LogReady in s.orders[o].log
    ensures ConfirmReturnIntake(s, o, hash, expiresAt).Success? <==>
              s.orders[o].status == ReturnedToOrigin || LogReadyForSender in s.orders[o].log
  {
    hide Inv, Reachable, OrderOk, ConfirmDropOff, ConfirmIntake, ConfirmReturnIntake;
    KeyIffLogged(s, DropOff(o, env));
    KeyIffLogged(s, Intake(o, hash, expiresAt));
    KeyIffLogged(s, ReturnIntake(o, hash, expiresAt));
    CounterStepsNeed(s, o, env, hash, expiresAt);
  }

  lemma CounterStepsNeed(s: State, o: OrderId, env: RoutingEnv, hash: nat, expiresAt: int)
    requires o in s.orders
    ensures ConfirmDropOff(s, o, env).Success? <==>
              s.orders[o].status == AwaitingDropOff || AlreadyProcessed(s, o, DropOffScope)
    ensures ConfirmIntake(s, o, hash, expiresAt).Success? <==>
              s.orders[o].status == ArrivedAtDestination || AlreadyProcessed(s, o, IntakeScope)
    ensures ConfirmReturnIntake(s, o, hash, expiresAt).Success? <==>
              s.orders[o].status == ReturnedToOrigin || AlreadyProcessed(s, o, ReturnIntakeScope)
  {
    hide Issue;
  }

  // ----- Calls that fail ---------------------------------------------------

  /** The service call behind a counter step or a handover. */
  function ServiceResult(s: State, step: Step): Result<State>
    requires KeyOf(step).Some? || step.Handoff?
  {
    match step
    case DropOff(o, env) => ConfirmDropOff(s, o, env)
    case Intake(o, hash, expiresAt) => ConfirmIntake(s, o, hash, expiresAt)
    case Collect(o, hash, now) => ConfirmCollection(s, o, hash, now)
    case ReturnIntake(o, hash, expiresAt) => ConfirmReturnIntake(s, o, hash, expiresAt)
    case ReturnCollect(o, hash, now) => ConfirmReturnCollection(s, o, hash, now)
    case Handoff(o, handover, hash, now) => ConfirmHandoff(s, o, handover, hash, now)
  }

  /** A code as it is checked at a counter: its kind, and the key the step runs under. */
  datatype Presented = Presented(kind: CodeKind, scope: Scope, hash: nat, now: int)

  function CodeOf(step: Step): Option<Presented> {
    match step
    case Collect(_, hash, now) => Some(Presented(ReceiverCollection, CollectionScope, hash, now))
    case ReturnCollect(_, hash, now) => Some(Presented(SenderCollection, ReturnCollectScope, hash, now))
    case Handoff(_, handover, hash, now) => Some(Presented(KindOf(handover), ScopeOf(handover), hash, now))
    case _ => None
  }

  /** The step has not been done yet, and the row its code should match is there and
      does not accept it. */
  predicate WrongCode(s: State, step: Step) {
    && CodeOf(step).Some? && step.o in s.orders && !AlreadyProcessed(s, step.o, CodeOf(step).value.scope)
    && var code := CodeOf(step).value;
    var live := LiveRow(s.orders[step.o].codes, code.kind);
    live.Some? && !IsValid(live.value, code.hash, code.now)
  }

  /** `after` is `before` with one more failed attempt on the live row of the kind. */
  ghost predicate OneMoreFailure(before: seq<Code>, after: seq<Code>, kind: CodeKind) {
    && |after| == |before|
    && exists i :: 0 <= i < |before| && LatestUnused(before, kind) == Some(i)
         && after == before[i := before[i].(failedAttempts := before[i].failedAttempts + 1)]
  }

  /** The code is looked at before anything else can fail. */
  lemma BlamesCode(s: State, step: Step)
    requires CodeOf(step).Some? && step.o in s.orders && !AlreadyProcessed(s, step.o, CodeOf(step).value.scope)
    ensures var code := CodeOf(step).value;
            ServiceResult(s, step) == Failure(InvalidCode) <==>
              Validate(s.orders[step.o].codes, code.kind, code.hash, code.now).None?
  {
    hide Validate, RecordInHouseHandover, SplitEntries, ReleaseCapacitySlot;
    if step.Handoff? {
      var codes := Validate(s.orders[step.o].codes, KindOf(step.handover), step.hash, step.now);
      if codes.Some? {
        HandoverNeverBlamesCode(SetCodes(InsertKey(s, step.o, ScopeOf(step.handover)), step.o, codes.value), step.o,
                                EventOf(step.handover));
      }
    }
  }

  lemma DoneCallSucceeds(s: State, step: Step)
    requires CodeOf(step).Some? && AlreadyProcessed(s, step.o, CodeOf(step).value.scope)
    ensures ServiceResult(s, step) == Success(s)
  {
  }

  /** In any state: a step whose code is the wrong one fails, and leaves nothing behind but
      one more failed attempt on the one row the code was compared with. A counter step or
      handover that fails for any other reason leaves nothing behind at all. */
  lemma FailedCallChangesOneCounter(s: State, step: Step)
    requires KeyOf(step).Some? || step.Handoff?
    ensures WrongCode(s, step) ==> ServiceResult(s, step).Failure?
    ensures ServiceResult(s, step).Failure? ==>
              var s' := Next(s, step);
              if WrongCode(s, step) then
                && step.o in s'.orders
                && s' == s.(orders := s.orders[step.o := s.orders[step.o].(codes := s'.orders[step.o].codes)])
                && OneMoreFailure(s.orders[step.o].codes, s'.orders[step.o].codes, CodeOf(step).value.kind)
              else s' == s
    ensures ServiceResult(s, step).Failure? ==> (Next(s, step) != s <==> WrongCode(s, step))
  {
    hide ConfirmDropOff, ConfirmIntake, ConfirmCollection, ConfirmReturnIntake, ConfirmReturnCollection, ConfirmHandoff,
         CountFailure, LatestUnused;
    if CodeOf(step).Some? && step.o in s.orders {
      var codes := s.orders[step.o].codes;
      if AlreadyProcessed(s, step.o, CodeOf(step).value.scope) {
        DoneCallSucceeds(s, step);
      } else {
        BlamesCode(s, step);
      }
      FailureIsOneMore(codes, CodeOf(step).value.kind);
      assert s.(orders := s.orders[step.o := s.orders[step.o].(codes := codes)]) == s;
    }
  }

  lemma FailureIsOneMore(codes: seq<Code>, kind: CodeKind)
    ensures if LiveRow(codes, kind).None? then CountFailure(codes, kind) == codes
            else OneMoreFailure(codes, CountFailure(codes, kind), kind) && CountFailure(codes, kind) != codes
  {
    var latest := LatestUnused(codes, kind);
    if latest.Some? {
      assert CountFailure(codes, kind)[latest.value] != codes[latest.value];
    }
  }
}

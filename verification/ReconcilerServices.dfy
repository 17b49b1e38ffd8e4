/** The services that give up on couriers: the reconciler, which times out legs nobody
    has taken and catches up with the others, and the admin's fallback. */
module ReconcilerServices {
  import opened Wrappers
  import opened DeliveryLeg
  import opened OrderRules
  import opened Routing
  import opened Model
  import opened LogisticsServices
  import opened DeliveryDispatch
  import opened DeliveryEvents
  import opened Invariants
  import opened LegProtocol
  import opened LegSteps
  import opened LegTransactions
  import opened LegEffects
  import opened Runs

  /** What a courier answers when it is asked to cancel. */
  datatype CancelReply = Agreed | TooLate(snapshot: Option<Snapshot>) | TryLater

  /** A leg that has waited too long, and its courier's answer. */
  datatype Overdue = Overdue(o: OrderId, i: nat, answer: CancelReply, env: RoutingEnv)

  /** The transactions that an overdue leg leads to: it is cancelled, or caught up with
      because a rider took it in the meantime, or left for the next time. */
  function StepsFor(overdue: Overdue): seq<Step> {
    match overdue.answer
    case Agreed => [Cancel(overdue.o, overdue.i, None, overdue.env)]
    case TooLate(Some(snapshot)) => [SyncLeg(overdue.o, overdue.i, snapshot, overdue.env)]
    case TooLate(None) => []
    case TryLater => []
  }

  function StepsForAll(batch: seq<Overdue>): seq<Step> {
    if batch == [] then [] else StepsForAll(batch[..|batch| - 1]) + StepsFor(batch[|batch| - 1])
  }

  /** What an overdue leg has come to. Its courier agreed: if still requested or assigned it
      is cancelled, and its order given to the best courier there is. It was too late: what
      the courier says of it has been taken in. Otherwise nothing has changed. */
  ghost predicate Answered(s: State, s': State, overdue: Overdue) {
    match overdue.answer
    case Agreed => CancelledOn(s, s', overdue.o, overdue.i, None, overdue.env)
    case TooLate(Some(snapshot)) => TakenIn(s, s', overdue.o, overdue.i, snapshot, overdue.env)
    case TooLate(None) => s' == s
    case TryLater => s' == s
  }

  /** The legs of a batch have been answered one after the other. */
  ghost predicate AllAnswered(s: State, s': State, batch: seq<Overdue>)
    decreases |batch|
  {
    if batch == [] then s' == s
    else
      var last := |batch| - 1;
      exists between :: AllAnswered(s, between, batch[..last]) && Answered(between, s', batch[last])
  }

  /** In consistent tables an overdue leg is answered without a throw. */
  lemma StepsForAnswer(s: State, overdue: Overdue)
    requires Inv(s)
    ensures Inv(Run(s, StepsFor(overdue))) && Answered(s, Run(s, StepsFor(overdue)), overdue)
  {
    hide Inv, CancelledOn, TakenIn, Next, Run;
    OneStepRun(s, StepsFor(overdue));
    match overdue.answer {
      case Agreed =>
        CancelMeans(s, overdue.o, overdue.i, None, overdue.env);
        StepKeepsInv(s, Cancel(overdue.o, overdue.i, None, overdue.env));
      case TooLate(Some(snapshot)) =>
        SyncMeans(s, overdue.o, overdue.i, snapshot, overdue.env);
        StepKeepsInv(s, SyncLeg(overdue.o, overdue.i, snapshot, overdue.env));
      case _ =>
    }
  }

  class DeliveryReconcilerService {
    const db: Database
    const deliveryEvents: DeliveryEventsService
    var isRunning: bool

    predicate Wired() {
      deliveryEvents.db == db && deliveryEvents.Wired()
    }

    constructor (db: Database)
      ensures this.db == db && Wired() && !isRunning
    {
      this.db := db;
      deliveryEvents := new DeliveryEventsService(db);
      isRunning := false;
    }

    method ExpireOne(overdue: Overdue) returns (outcome: Outcome)
      requires Wired()
      modifies db
      ensures outcome.Pass? ==> db.Tables() == Run(old(db.Tables()), StepsFor(overdue))
      ensures outcome.Fail? ==> db.Tables() == old(db.Tables()) && overdue.answer.Agreed?
      ensures Inv(old(db.Tables())) ==>
                outcome.Pass? && Inv(db.Tables()) && Answered(old(db.Tables()), db.Tables(), overdue)
    {
      hide CancelLeg, SyncFromSnapshot, Inv, Answered;
      if Inv(db.Tables()) {
        StepsForAnswer(db.Tables(), overdue);
        CancelKeepsInv(db.Tables(), overdue.o, overdue.i, None, overdue.env);
      }
      outcome := Pass;
      match overdue.answer
      case Agreed =>
        outcome := deliveryEvents.CancelLeg(overdue.o, overdue.i, None, overdue.env);
        OneStepRun(old(db.Tables()), StepsFor(overdue));
      case TooLate(snapshot) =>
        if snapshot.Some? {
          // A failure is only logged.
          var synced := deliveryEvents.ReceiveSnapshot(overdue.o, overdue.i, snapshot.value, overdue.env);
        }
        OneStepRun(old(db.Tables()), StepsFor(overdue));
      case TryLater =>
        OneStepRun(old(db.Tables()), StepsFor(overdue));
    }

    /** One run over the legs that have waited too long: all of them, or up to the first
        cancellation that throws; in consistent tables none does. */
    method ExpireUnassigned(batch: seq<Overdue>) returns (outcome: Outcome, done: nat)
      requires Wired()
      modifies db, this
      ensures done <= |batch| && isRunning == old(isRunning)
      ensures if old(isRunning) then outcome == Pass && done == 0 else outcome.Pass? ==> done == |batch|
      ensures db.Tables() == Run(old(db.Tables()), StepsForAll(batch[..done]))
      ensures outcome.Fail? ==> done < |batch| && batch[done].answer.Agreed?
      ensures Inv(old(db.Tables())) && !old(isRunning) ==>
                outcome.Pass? && Inv(db.Tables()) && AllAnswered(old(db.Tables()), db.Tables(), batch)
    {
      hide Next, Run, Inv, Answered;
      OneStepRun(old(db.Tables()), []);
      outcome, done := Pass, 0;
      if isRunning {
        return;
      }
      isRunning := true;
      while done < |batch|
        invariant done <= |batch| && outcome == Pass && isRunning
        invariant db.Tables() == Run(old(db.Tables()), StepsForAll(batch[..done]))
        invariant Inv(old(db.Tables())) ==>
                    Inv(db.Tables()) && AllAnswered(old(db.Tables()), db.Tables(), batch[..done])
      {
        ghost var between := db.Tables();
        outcome := ExpireOne(batch[done]);
        if outcome.Fail? {
          break;
        }
        assert batch[..done + 1][..done] == batch[..done];
        assert Answered(between, db.Tables(), batch[done]) ==> Answered(between, db.Tables(), batch[..done + 1][done]);
        RunOneMore(old(db.Tables()), StepsForAll(batch[..done]), StepsFor(batch[done]));
        done := done + 1;
      }
      assert done == |batch| ==> batch[..done] == batch;
      isRunning := false;
    }
  }

  lemma OneStepRun(s: State, steps: seq<Step>)
    requires |steps| <= 1
    ensures Run(s, steps) == if steps == [] then s else Next(s, steps[0])
  {
    if steps != [] {
      assert steps[1..] == [];
      assert Run(Next(s, steps[0]), []) == Next(s, steps[0]);
    }
    hide Next;
  }

  lemma RunOneMore(s: State, steps: seq<Step>, more: seq<Step>)
    requires |more| <= 1
    ensures Run(s, steps + more) == Run(Run(s, steps), more)
  {
    OneStepRun(Run(s, steps), more);
    if more == [] {
      assert steps + more == steps;
    } else {
      assert more == [more[0]];
      RunAppend(s, steps, more[0]);
    }
    hide Next;
  }

  class AdminLogisticsService {
    const db: Database
    const deliveryEvents: DeliveryEventsService

    predicate Wired() {
      deliveryEvents.db == db && deliveryEvents.Wired()
    }

    constructor (db: Database)
      ensures this.db == db && Wired()
    {
      this.db := db;
      deliveryEvents := new DeliveryEventsService(db);
    }

    /** Takes an order back from an external courier and gives it to Locoomo riders. The
        courier is asked first if it has the delivery and its adapter is there: without
        its agreement nothing happens. */
    method FallbackToInHouse(o: OrderId, i: nat, answer: CancelReply, env: RoutingEnv) returns (outcome: Outcome)
      requires Wired()
      modifies db
      ensures Inv(old(db.Tables())) ==>
                (outcome.Pass? <==>
                  && HasLeg(old(db.Tables()), o, i)
                  && var leg := old(db.orders)[o].legs[i];
                  && leg.providerKey != InHouse && leg.status in {Requested, Assigned}
                  && (answer == Agreed || leg.externalId.None? || leg.providerKey !in env.registered))
      ensures Inv(old(db.Tables())) && outcome.Pass? ==>
                CancelledOn(old(db.Tables()), db.Tables(), o, i, Some(InHouse), env)
      ensures outcome.Fail? ==> db.Tables() == old(db.Tables())
      ensures db.Tables() == if CanFallBack(old(db.Tables()), o, i, answer, env) then
                               Next(old(db.Tables()), Cancel(o, i, Some(InHouse), env))
                             else old(db.Tables())
    {
      hide CancelLeg, Inv, CancelledOn;
      if o !in db.orders || i >= |db.orders[o].legs| {
        return Fail(NotFound);
      }
      var leg := db.orders[o].legs[i];
      if leg.providerKey == InHouse {
        return Fail(NotClaimable);
      }
      if leg.status != Requested && leg.status != Assigned {
        return Fail(NotClaimable);
      }
      if leg.providerKey in env.registered && leg.externalId.Some? && !answer.Agreed? {
        return Fail(ProviderUnavailable);
      }
      if Inv(db.Tables()) {
        CancelKeepsInv(db.Tables(), o, i, Some(InHouse), env);
        CancelMeans(db.Tables(), o, i, Some(InHouse), env);
      }
      outcome := deliveryEvents.CancelLeg(o, i, Some(InHouse), env);
    }
  }

  /** The guards of the admin's fallback. */
  predicate CanFallBack(s: State, o: OrderId, i: nat, answer: CancelReply, env: RoutingEnv) {
    && HasLeg(s, o, i)
    && var leg := s.orders[o].legs[i];
    && leg.providerKey != InHouse && leg.status in {Requested, Assigned}
    && (leg.providerKey in env.registered && leg.externalId.Some? ==> answer.Agreed?)
  }

  /** A fallback that its guards allow never throws, and gives the parcel, still on its
      shelf, to the in-house pool: the order waits again, its last leg in-house. */
  lemma FallbackGivesToPool(s: State, o: OrderId, i: nat, answer: CancelReply, env: RoutingEnv)
    requires Inv(s) && CanFallBack(s, o, i, answer, env) && InHouse in env.registered
    ensures CancelLeg(s, o, i, Some(InHouse), env).Success?
    ensures var before, s' := s.orders[o], Next(s, Cancel(o, i, Some(InHouse), env));
            && o in s'.orders && s'.orders[o].status == ReceivedAtOrigin && s'.orders[o].riderId == None
            && s'.orders[o].shelf == before.shelf && s'.orders[o].shelf.Some?
            && |s'.orders[o].legs| == |before.legs| + 1 && s'.orders[o].legs[i].status == Cancelled
            && s'.orders[o].legs[|before.legs|] == NewLeg(InHouse, Requested, |before.legs| + 1, None)
  {
    CancelledForFallback(s, o, i);
    CancelUnfolds(s, o, i, Some(InHouse), env);
    hide Inv, Move, Next, ActiveLeg;
  }

  lemma CancelledForFallback(s: State, o: OrderId, i: nat)
    requires Inv(s) && HasLeg(s, o, i) && s.orders[o].legs[i].status in {Requested, Assigned}
    ensures Move(s, o, i, LegCancelled).Success? && o in Move(s, o, i, LegCancelled).value.orders
    ensures var before, after := s.orders[o], Move(s, o, i, LegCancelled).value.orders[o];
            && after.status == ReceivedAtOrigin && after.riderId == None
            && after.shelf == before.shelf && after.shelf.Some?
            && |after.legs| == |before.legs| && after.legs[i].status == Cancelled
            && ActiveLeg(after.legs).None?
  {
    OnlyLastMovesIn(s, o, i, LegCancelled);
    EventKeepsInv(s, o, LegCancelled);
    About(s, o);
    CancelledOrder(s.orders[o]);
    hide Inv, Move, AfterEvent, NodesFollow, ActiveLeg, OrderOk;
    NothingActive(Move(s, o, i, LegCancelled).value, o);
  }

  lemma CancelledOrder(order: Order)
    requires InStep(order) && ShelfOk(order) && LegAccepts(order, LegCancelled) && Coupled(order)
    ensures var after := AfterEvent(order, LegCancelled);
            && after.status == ReceivedAtOrigin && after.riderId == None
            && after.shelf == order.shelf && after.shelf.Some?
            && |after.legs| == |order.legs| && after.legs[LastIndex(order)].status == Cancelled
  {
  }
}

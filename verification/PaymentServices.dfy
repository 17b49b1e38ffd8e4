/** The payment services: booking, the webhook, and the expiry sweep with its batch. */
module PaymentServices {
  import opened Wrappers
  import opened Routing
  import opened Money
  import opened Model
  import opened CapacityServices
  import opened Payments
  import opened Runs

  class ConfirmPaymentIntentPaidService {
    const db: Database

    constructor (db: Database)
      ensures this.db == db
    {
      this.db := db;
    }

    /** PENDING to PAID, and the order placed with its first log line. */
    method Confirm(id: IntentId, order: OrderId) returns (outcome: Outcome)
      requires id in db.intents
      modifies db
      ensures Ends(outcome, db.Tables(), ConfirmPaid(old(db.Tables()), id, order))
    {
      var intent := db.intents[id];
      db.intents := db.intents[id := intent.(status := Paid)];
      if order in db.orders {
        return Fail(DuplicateId);
      }
      db.orders := db.orders[order := OrderOf(id, intent)];
      return Pass;
    }
  }

  class CreatePaymentIntentService {
    const db: Database
    const nodes: NodesService

    predicate Wired() {
      nodes.db == db
    }

    constructor (db: Database)
      ensures this.db == db && Wired()
    {
      this.db := db;
      nodes := new NodesService(db);
    }

    /** Slot and intent in one transaction. */
    method Create(id: IntentId, origin: NodeId, destination: NodeId, vehicle: VehicleClass, fee: FeeBreakdown)
      returns (outcome: Outcome)
      requires Wired()
      modifies db
      ensures EndsAtomically(outcome, old(db.Tables()), db.Tables(),
                             CreateIntent(old(db.Tables()), id, origin, destination, Some(vehicle), fee))
      ensures outcome.Pass? ==>
                && db.intents == old(db.intents)[id :=
                     Intent(origin, destination, Some(vehicle), fee.totalKobo, fee.destinationFeeKobo, Pending, None)]
                && origin in old(db.nodes) && old(db.nodes)[origin].currentCount < old(db.nodes)[origin].capacity
                && db.nodes == old(db.nodes)[origin := old(db.nodes)[origin].(
                     currentCount := old(db.nodes)[origin].currentCount + 1)]
    {
      if id in db.intents {
        return Fail(DuplicateId);
      }
      outcome := nodes.ReserveCapacitySlot(origin);
      if outcome.Fail? {
        return;
      }
      db.intents := db.intents[id :=
        Intent(origin, destination, Some(vehicle), fee.totalKobo, fee.destinationFeeKobo, Pending, None)];
      return Pass;
    }

    /** The statement after that transaction. */
    method WriteReferenceOf(id: IntentId)
      modifies db
      ensures db.Tables() == Next(old(db.Tables()), WriteReference(id))
    {
      if id in db.intents {
        db.intents := db.intents[id := db.intents[id].(providerReference := Some(id))];
      }
    }
  }

  class HandlePaymentWebhookService {
    const db: Database
    const confirmPaid: ConfirmPaymentIntentPaidService

    predicate Wired() {
      confirmPaid.db == db
    }

    constructor (db: Database)
      ensures this.db == db && Wired()
    {
      this.db := db;
      confirmPaid := new ConfirmPaymentIntentPaidService(db);
    }

    method Handle(reference: IntentId, reply: Option<Verification>, newOrder: OrderId) returns (outcome: Outcome)
      requires Wired()
      modifies db
      ensures outcome == OutcomeOf(HandleWebhook(old(db.Tables()), reference, reply, newOrder))
      ensures db.Tables() == Next(old(db.Tables()), Webhook(reference, reply, newOrder))
    {
      var saved := db.Tables();
      if reference in db.paymentKeys {
        return Pass;
      }
      db.paymentKeys := db.paymentKeys + {reference};
      if reference !in db.intents || db.intents[reference].providerReference != Some(reference) {
        return Pass;
      }
      var intent := db.intents[reference];
      if intent.status != Pending {
        return Pass;
      }
      if reply.None? {
        db.Rollback(saved);
        return Fail(ProviderUnavailable);
      }
      if !reply.value.success || reply.value.amountKobo != intent.amountKobo {
        return Pass;
      }
      outcome := confirmPaid.Confirm(reference, newOrder);
      if outcome.Fail? {
        db.Rollback(saved);
      }
    }
  }

  /** What the sweep meets for each intent of its batch. */
  datatype Swept = Swept(stale: StaleIntent, reply: Option<Verification>, newOrder: OrderId)

  function SweepSteps(batch: seq<Swept>): seq<Step> {
    if batch == [] then []
    else
      var last := batch[|batch| - 1];
      SweepSteps(batch[..|batch| - 1]) + [Sweep(last.stale, last.reply, last.newOrder)]
  }

  /** Only a recovery can throw, and only when the new order's id is taken. */
  predicate Throws(s: State, swept: Swept) {
    && swept.stale.providerReference.Some? && swept.stale.providerReference.value !in s.paymentKeys
    && swept.reply == Some(Verification(true, swept.stale.amountKobo))
    && swept.stale.id in s.intents && s.intents[swept.stale.id].status == Pending
    && swept.newOrder in s.orders
  }

  class ExpirePaymentIntentsService {
    const db: Database
    const confirmPaid: ConfirmPaymentIntentPaidService
    const nodes: NodesService
    var isPolling: bool

    predicate Wired() {
      confirmPaid.db == db && nodes.db == db
    }

    constructor (db: Database)
      ensures this.db == db && Wired() && !isPolling
    {
      this.db := db;
      confirmPaid := new ConfirmPaymentIntentPaidService(db);
      nodes := new NodesService(db);
      isPolling := false;
    }

    /** Recovers the intent if it turns out to be paid; `skipExpiry` when it must not
        be expired in this sweep. */
    method TryRecover(stale: StaleIntent, reply: Option<Verification>, newOrder: OrderId)
      returns (skipExpiry: bool, outcome: Outcome)
      requires Wired()
      modifies db
      ensures skipExpiry == (stale.providerReference.Some?
                && (reply.None? || (reply.value.success && reply.value.amountKobo == stale.amountKobo)))
      ensures if skipExpiry && reply.Some? then
                EndsAtomically(outcome, old(db.Tables()), db.Tables(),
                               Recover(old(db.Tables()), stale, stale.providerReference.value, newOrder))
              else outcome == Pass && db.Tables() == old(db.Tables())
    {
      if stale.providerReference.None? {
        return false, Pass;
      }
      if reply.None? {
        return true, Pass;
      }
      if !reply.value.success || reply.value.amountKobo != stale.amountKobo {
        return false, Pass;
      }
      var saved := db.Tables();
      var reference := stale.providerReference.value;
      if reference in db.paymentKeys {
        return true, Pass;
      }
      db.paymentKeys := db.paymentKeys + {reference};
      if stale.id !in db.intents || db.intents[stale.id].status != Pending {
        return true, Pass;
      }
      var confirmed := confirmPaid.Confirm(stale.id, newOrder);
      if confirmed.Fail? {
        db.Rollback(saved);
      }
      return true, confirmed;
    }

    method ProcessOne(stale: StaleIntent, reply: Option<Verification>, newOrder: OrderId) returns (outcome: Outcome)
      requires Wired()
      modifies db
      ensures outcome == OutcomeOf(ProcessStaleIntent(old(db.Tables()), stale, reply, newOrder))
      ensures db.Tables() == Next(old(db.Tables()), Sweep(stale, reply, newOrder))
    {
      var skipExpiry;
      skipExpiry, outcome := TryRecover(stale, reply, newOrder);
      if skipExpiry {
        return;
      }
      // Re-read: a webhook may have been faster than the batch.
      if stale.id !in db.intents || db.intents[stale.id].status != Pending {
        return Pass;
      }
      var current := db.intents[stale.id];
      db.intents := db.intents[stale.id := current.(status := Expired)];
      nodes.ReleaseCapacitySlot(current.originNodeId);
      return Pass;
    }

    /** One poll: its batch in order, up to the first one that throws. */
    method Poll(batch: seq<Swept>) returns (outcome: Outcome, done: nat)
      requires Wired()
      modifies db, this
      ensures old(isPolling) ==> db.Tables() == old(db.Tables()) && done == 0 && outcome == Pass && isPolling
      ensures done <= |batch| && (!old(isPolling) ==> (outcome.Pass? ==> done == |batch|) && !isPolling)
      ensures db.Tables() == Run(old(db.Tables()), SweepSteps(batch[..done]))
      ensures outcome.Fail? ==> done < |batch| && Throws(db.Tables(), batch[done])
    {
      outcome, done := Pass, 0;
      if isPolling {
        return;
      }
      isPolling := true;
      while done < |batch|
        invariant done <= |batch| && outcome == Pass && isPolling
        invariant db.Tables() == Run(old(db.Tables()), SweepSteps(batch[..done]))
      {
        var next := batch[done];
        ghost var before := db.Tables();
        outcome := ProcessOne(next.stale, next.reply, next.newOrder);
        if outcome.Fail? {
          FailedSweepChangesNothing(before, next);
          break;
        }
        assert batch[..done + 1][..done] == batch[..done];
        RunAppend(old(db.Tables()), SweepSteps(batch[..done]), Sweep(next.stale, next.reply, next.newOrder));
        done := done + 1;
      }
      isPolling := false;
    }
  }

  lemma FailedSweepChangesNothing(s: State, swept: Swept)
    requires ProcessStaleIntent(s, swept.stale, swept.reply, swept.newOrder).Failure?
    ensures Next(s, Sweep(swept.stale, swept.reply, swept.newOrder)) == s && Throws(s, swept)
  {
  }

  /** A poll adds nothing to what its single sweeps do. */
  lemma {:induction false} SweepStepsAre(batch: seq<Swept>)
    ensures |SweepSteps(batch)| == |batch|
    ensures forall k :: 0 <= k < |batch| ==>
              SweepSteps(batch)[k] == Sweep(batch[k].stale, batch[k].reply, batch[k].newOrder)
  {
    if batch != [] {
      SweepStepsAre(batch[..|batch| - 1]);
    }
  }

  class RevenueSplitRuleService {
    const db: Database

    constructor (db: Database)
      ensures this.db == db
    {
      this.db := db;
    }

    method Add(rule: SplitRule) returns (outcome: Outcome)
      modifies db
      ensures outcome == OutcomeOf(AddSplitRule(old(db.Tables()), rule))
      ensures db.Tables() == Next(old(db.Tables()), AddRule(rule))
    {
      if !ValidSplit(rule) {
        return Fail(InvalidRule);
      }
      db.splitRules := db.splitRules + [rule];
      return Pass;
    }
  }
}

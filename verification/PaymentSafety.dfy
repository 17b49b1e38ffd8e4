/** Payments, for every interleaving of webhooks, redeliveries and sweeps that act on
    stale reads. */
module PaymentSafety {
  import opened Wrappers
  import opened Counting
  import opened Money
  import opened Model
  import opened Payments
  import opened Invariants
  import opened Growth
  import opened Runs

  /** An intent has an order exactly when it is PAID, and then exactly one. */
  lemma OrderIffPaid(s: State, i: IntentId)
    requires Reachable(s) && i in s.intents
    ensures s.intents[i].status == Paid <==> exists o :: o in s.orders && s.orders[o].paymentIntentId == i
    ensures forall o, p ::
              (o in s.orders && p in s.orders && s.orders[o].paymentIntentId == i
                && s.orders[p].paymentIntentId == i) ==> o == p
  {
    ReachableIsConsistent(s);
    assert IntentOk(s, i);
    forall o | o in s.orders && s.orders[o].paymentIntentId == i
      ensures s.intents[i].status == Paid
    {
      About(s, o);
    }
    forall o, p | o in s.orders && p in s.orders && s.orders[o].paymentIntentId == i && s.orders[p].paymentIntentId == i
      ensures o == p
    {
      assert DifferentIntents(s, o, p);
    }
  }

  /** PAID and EXPIRED are final, whatever webhooks and sweeps come later, and neither
      the amount nor the place ever changes; FAILED is never used. */
  lemma SettledIsFinal(s: State, steps: seq<Step>, i: IntentId)
    requires Reachable(s) && ValidSteps(steps) && i in s.intents
    ensures i in Run(s, steps).intents && Settles(s.intents[i], Run(s, steps).intents[i])
    ensures Run(s, steps).intents[i].status != Failed
  {
    ReachableIsConsistent(s);
    RunGrows(s, steps);
    RunKeepsInv(s, steps);
    assert IntentOk(Run(s, steps), i);
  }

  /** An order's price is what a verified charge said: an intent becomes PAID in a
      webhook only for a successful charge of exactly its amount. */
  lemma PaidOnlyForItsAmount(s: State, step: Step, i: IntentId)
    requires step.Webhook? && i in s.intents && s.intents[i].status == Pending
    requires Next(s, step).intents[i].status == Paid
    ensures step.reference == i && step.reply == Some(Verification(true, s.intents[i].amountKobo))
  {
  }

  /** A webhook makes a pending intent PAID exactly when its key has not been spent, the
      reference has been written, and the provider confirms the very amount. */
  lemma WebhookPaysExactlyWhen(s: State, i: IntentId, reply: Option<Verification>, newOrder: OrderId)
    requires i in s.intents && s.intents[i].status == Pending && newOrder !in s.orders
    ensures i in Next(s, Webhook(i, reply, newOrder)).intents
    ensures Next(s, Webhook(i, reply, newOrder)).intents[i].status == Paid <==>
              && i !in s.paymentKeys && s.intents[i].providerReference == Some(i)
              && reply == Some(Verification(true, s.intents[i].amountKobo))
  {
  }

  /** The sweep's batch read a row as it was at some time: with its own reference, or
      before that was written. */
  predicate ReadFromRow(step: Step) {
    step.Sweep? ==> step.stale.providerReference in {None, Some(step.stale.id)}
  }

  lemma SpentKeyBlocksWebhook(s: State, reference: IntentId, reply: Option<Verification>, newOrder: OrderId,
                              i: IntentId)
    requires i in s.intents && i in s.paymentKeys
    ensures i in Next(s, Webhook(reference, reply, newOrder)).intents
    ensures Next(s, Webhook(reference, reply, newOrder)).intents[i].status == s.intents[i].status
  {
  }

  lemma SpentKeyBlocksSweep(s: State, stale: StaleIntent, reply: Option<Verification>, newOrder: OrderId, i: IntentId)
    requires i in s.intents && s.intents[i].status != Paid && i in s.paymentKeys
    requires stale.providerReference in {None, Some(stale.id)}
    ensures i in Next(s, Sweep(stale, reply, newOrder)).intents
    ensures Next(s, Sweep(stale, reply, newOrder)).intents[i].status != Paid
  {
  }

  lemma SpentKeyBlocksStep(s: State, step: Step, i: IntentId)
    requires Inv(s) && i in s.intents && s.intents[i].status != Paid && i in s.paymentKeys && ReadFromRow(step)
    ensures i in Next(s, step).intents && Next(s, step).intents[i].status != Paid && i in Next(s, step).paymentKeys
  {
    StepGrows(s, step);
    hide Inv, Grows, CalculateFee, Next, Settles;
    match step {
      case Webhook(reference, reply, newOrder) => SpentKeyBlocksWebhook(s, reference, reply, newOrder, i);
      case Sweep(stale, reply, newOrder) => SpentKeyBlocksSweep(s, stale, reply, newOrder, i);
      case _ =>
        if PaymentSide(step) {
          OtherPaymentsDoNotPay(s, step, i);
        }
    }
  }

  lemma OtherPaymentsDoNotPay(s: State, step: Step, i: IntentId)
    requires PaymentSide(step) && !step.Webhook? && !step.Sweep? && i in s.intents
    ensures i in Next(s, step).intents && Next(s, step).intents[i].status == s.intents[i].status
  {
    hide CalculateFee;
  }

  /** Once a verification that did not match has spent an intent's key, nothing that
      happens later can make it PAID, not even the same charge confirmed correctly. */
  lemma {:induction false} SpentKeyBlocksPayment(s: State, steps: seq<Step>, i: IntentId)
    requires Inv(s) && ValidSteps(steps) && forall step :: step in steps ==> ReadFromRow(step)
    requires i in s.intents && s.intents[i].status != Paid && i in s.paymentKeys
    ensures i in Run(s, steps).intents && Run(s, steps).intents[i].status != Paid
    decreases |steps|
  {
    hide Inv, Next, ReadFromRow;
    if steps != [] {
      assert steps[0] in steps && forall step :: step in steps[1..] ==> step in steps;
      StepKeepsInv(s, steps[0]);
      SpentKeyBlocksStep(s, steps[0], i);
      SpentKeyBlocksPayment(Next(s, steps[0]), steps[1..], i);
    }
  }

  /** The sweep makes a pending intent PAID exactly when it read that intent with its
      reference, the key of that has not been spent, and the provider confirms the very
      amount that the sweep read. */
  lemma RecoveryExactlyWhen(s: State, stale: StaleIntent, reply: Option<Verification>, newOrder: OrderId, i: IntentId)
    requires i in s.intents && s.intents[i].status == Pending && newOrder !in s.orders
    ensures i in Next(s, Sweep(stale, reply, newOrder)).intents
    ensures Next(s, Sweep(stale, reply, newOrder)).intents[i].status == Paid <==>
              && stale.id == i && stale.providerReference.Some? && stale.providerReference.value !in s.paymentKeys
              && reply == Some(Verification(true, stale.amountKobo))
  {
  }

  /** The step brings a pending intent a confirmation of its very amount: in a webhook, once
      its reference has been written, or to a sweep. */
  predicate Confirms(s: State, step: Step, i: IntentId) {
    && i in s.intents && s.intents[i].status == Pending
    && var right := Some(Verification(true, s.intents[i].amountKobo));
    match step
    case Webhook(reference, reply, _) => reference == i && s.intents[i].providerReference == Some(i) && reply == right
    case Sweep(stale, reply, _) => stale.id == i && reply == right
    case _ => false
  }

  /** Some step spends the intent's key, and the first that does confirms its amount. */
  predicate FirstSpendConfirms(s: State, steps: seq<Step>, i: IntentId)
    decreases |steps|
  {
    && steps != []
    && var s' := Next(s, steps[0]);
    if i in s'.paymentKeys then Confirms(s, steps[0], i) else FirstSpendConfirms(s', steps[1..], i)
  }

  /** The sweep read the intent's amount, which never changes. */
  predicate ReadAmount(step: Step, i: IntentId, amountKobo: int) {
    step.Sweep? && step.stale.id == i ==> step.stale.amountKobo == amountKobo
  }

  lemma WebhookPays(s: State, step: Step, i: IntentId)
    requires step.Webhook? && i in s.intents && s.intents[i].status != Paid && i !in s.paymentKeys
    ensures i in Next(s, step).intents
    ensures Next(s, step).intents[i].status == Paid <==> i in Next(s, step).paymentKeys && Confirms(s, step, i)
  {
  }

  lemma SweepPays(s: State, step: Step, i: IntentId)
    requires step.Sweep? && i in s.intents && s.intents[i].status != Paid && i !in s.paymentKeys
    requires ReadFromRow(step) && ReadAmount(step, i, s.intents[i].amountKobo)
    ensures i in Next(s, step).intents
    ensures Next(s, step).intents[i].status == Paid <==> i in Next(s, step).paymentKeys && Confirms(s, step, i)
  {
  }

  lemma OthersSpendNothing(s: State, step: Step)
    requires PaymentSide(step) && !step.Webhook? && !step.Sweep?
    ensures Next(s, step).paymentKeys == s.paymentKeys
  {
    hide CalculateFee;
  }

  lemma StepPays(s: State, step: Step, i: IntentId)
    requires Inv(s) && i in s.intents && s.intents[i].status != Paid && i !in s.paymentKeys
    requires ReadFromRow(step) && ReadAmount(step, i, s.intents[i].amountKobo)
    ensures i in Next(s, step).intents
    ensures Next(s, step).intents[i].status == Paid <==> i in Next(s, step).paymentKeys && Confirms(s, step, i)
  {
    hide Inv, Grows, Settles, Next, ReadFromRow, ReadAmount;
    if step.Webhook? {
      WebhookPays(s, step, i);
    } else if step.Sweep? {
      SweepPays(s, step, i);
    } else if PaymentSide(step) {
      OthersSpendNothing(s, step);
      OtherPaymentsDoNotPay(s, step, i);
    } else {
      StepGrows(s, step);
    }
  }

  /** Over any run, an intent whose key has not been spent ends PAID exactly when the
      first webhook or recovery to spend the key confirms its amount while it is still
      pending; no later confirmation can make up for a first one that did not match. */
  lemma {:induction false} PaidExactlyWhen(s: State, steps: seq<Step>, i: IntentId)
    requires Inv(s) && ValidSteps(steps)
    requires i in s.intents && s.intents[i].status != Paid && i !in s.paymentKeys
    requires forall step :: step in steps ==> ReadFromRow(step) && ReadAmount(step, i, s.intents[i].amountKobo)
    ensures i in Run(s, steps).intents
    ensures Run(s, steps).intents[i].status == Paid <==> FirstSpendConfirms(s, steps, i)
    decreases |steps|
  {
    hide Inv, Next, ReadFromRow, Confirms;
    if steps != [] {
      assert steps[0] in steps && forall step :: step in steps[1..] ==> step in steps;
      var s1 := Next(s, steps[0]);
      StepKeepsInv(s, steps[0]);
      StepGrows(s, steps[0]);
      assert Settles(s.intents[i], s1.intents[i]);
      StepPays(s, steps[0], i);
      if i !in s1.paymentKeys {
        PaidExactlyWhen(s1, steps[1..], i);
      } else if s1.intents[i].status == Paid {
        RunGrows(s1, steps[1..]);
        assert Settles(s1.intents[i], Run(s1, steps[1..]).intents[i]);
      } else {
        SpentKeyBlocksPayment(s1, steps[1..], i);
      }
    }
  }

  lemma RecoveryMeans(s: State, step: Step, i: IntentId)
    requires step.Sweep? && i in s.intents && s.intents[i].status == Pending
    requires Next(s, step).intents[i].status == Paid
    ensures step.stale.id == i && step.reply == Some(Verification(true, step.stale.amountKobo))
  {
  }

  /** The sweep compares the charge with the amount it read earlier; amounts never
      change, so an intent that was really read in an earlier state is recovered only
      for exactly what it costs now. */
  lemma RecoveredOnlyForItsAmount(earlier: State, steps: seq<Step>, step: Step, i: IntentId)
    requires Reachable(earlier) && ValidSteps(steps)
    requires step.Sweep? && step.stale.id in earlier.intents
    requires step.stale.amountKobo == earlier.intents[step.stale.id].amountKobo
    requires var s := Run(earlier, steps);
             && i in s.intents && s.intents[i].status == Pending && i in Next(s, step).intents
             && Next(s, step).intents[i].status == Paid
    ensures step.stale.id == i
    ensures step.reply == Some(Verification(true, Run(earlier, steps).intents[i].amountKobo))
  {
    SettledIsFinal(earlier, steps, step.stale.id);
    RecoveryMeans(Run(earlier, steps), step, i);
    hide Reachable, ValidSteps, Run, Next;
  }

  /** The intent goes from PENDING to EXPIRED in this step. */
  predicate Expires(s: State, step: Step, i: IntentId) {
    && i in s.intents && s.intents[i].status == Pending
    && i in Next(s, step).intents && Next(s, step).intents[i].status == Expired
  }

  lemma OnlyPaymentsExpire(s: State, step: Step, i: IntentId)
    requires Inv(s) && Expires(s, step, i)
    ensures PaymentSide(step)
  {
    StepGrows(s, step);
    hide Inv, Grows, Next;
  }

  lemma SweepExpires(s: State, stale: StaleIntent, reply: Option<Verification>, newOrder: OrderId, i: IntentId)
    requires Expires(s, Sweep(stale, reply, newOrder), i)
    ensures stale.id == i && Next(s, Sweep(stale, reply, newOrder)) == Expire(s, i)
  {
  }

  /** Only the sweep expires. */
  lemma OnlySweepExpires(s: State, step: Step, i: IntentId)
    requires Inv(s) && Expires(s, step, i)
    ensures step.Sweep? && step.stale.id == i
    ensures Next(s, step) == Expire(s, i)
  {
    OnlyPaymentsExpire(s, step, i);
    hide Inv;
    match step {
      case Sweep(stale, reply, newOrder) => SweepExpires(s, stale, reply, newOrder, i);
      case Webhook(reference, reply, newOrder) =>
      case _ =>
    }
  }

  /** Each expiry gives back exactly one slot, at the intent's own origin, and touches
      nothing else; no other step expires an intent. */
  lemma ExpiryReleasesOneSlot(s: State, step: Step, i: IntentId)
    requires Inv(s) && Expires(s, step, i)
    ensures step.Sweep? && step.stale.id == i
    ensures Next(s, step).orders == s.orders && Next(s, step).paymentKeys == s.paymentKeys
    ensures var n, s' := s.intents[i].originNodeId, Next(s, step);
            && n in s.nodes && s'.nodes.Keys == s.nodes.Keys
            && s'.nodes[n].currentCount == s.nodes[n].currentCount - 1
            && forall m :: m in s.nodes && m != n ==> s'.nodes[m] == s.nodes[m]
  {
    OnlySweepExpires(s, step, i);
    assert IntentOk(s, i);
    assert NodeOk(s, s.intents[i].originNodeId);
    CountHas(s.intents, PendingAt(s.intents[i].originNodeId), i);
    hide Inv, IntentOk, Next;
  }

  /** How often an intent expires in a run. */
  function Expiries(s: State, steps: seq<Step>, i: IntentId): nat
    decreases |steps|
  {
    if steps == [] then 0
    else One(Expires(s, steps[0], i)) + Expiries(Next(s, steps[0]), steps[1..], i)
  }

  /** Over any run an intent that is EXPIRED at the end and was not at the start was
      expired, and so gave its slot back that way, exactly once; any other never. */
  lemma {:induction false} ExpiredExactlyOnce(s: State, steps: seq<Step>, i: IntentId)
    requires Inv(s) && ValidSteps(steps) && i in s.intents
    ensures i in Run(s, steps).intents
    ensures Expiries(s, steps, i) == One(s.intents[i].status == Pending && Run(s, steps).intents[i].status == Expired)
    decreases |steps|
  {
    if steps != [] {
      assert steps[0] in steps && forall step :: step in steps[1..] ==> step in steps;
      var s1 := Next(s, steps[0]);
      StepKeepsInv(s, steps[0]);
      StepGrows(s, steps[0]);
      assert i in s1.intents && Settles(s.intents[i], s1.intents[i]);
      ExpiredExactlyOnce(s1, steps[1..], i);
      RunGrows(s1, steps[1..]);
      assert Settles(s1.intents[i], Run(s1, steps[1..]).intents[i]);
    }
  }
}

/** Booking, payment and expiry keep every table's invariant. */
module PaymentSteps {
  import opened Wrappers
  import opened Counting
  import opened Routing
  import opened Money
  import opened Model
  import opened Payments
  import opened Invariants

  /** A price as the pricing service makes it. */
  predicate ValidFee(fee: FeeBreakdown) {
    && fee.deliveryFeeKobo >= 0 && fee.destinationFeeKobo >= 0
    && fee.totalKobo == fee.deliveryFeeKobo + fee.destinationFeeKobo
  }

  /** Everything outside the payment tables and the Node counters is as it was. */
  predicate SamePlaces(s: State, s': State) {
    s'.riders == s.riders && s'.splitRules == s.splitRules && s'.nodes.Keys == s.nodes.Keys
  }

  /** Writing one intent keeps the payment invariant if that intent keeps it and, once
      an order hangs on it, it does not change what the order was made from. */
  lemma IntentWriteKeepsPayments(s: State, s': State, id: IntentId)
    requires PaymentsOk(s) && s'.nodes.Keys == s.nodes.Keys
    requires id in s'.intents && s'.intents == s.intents[id := s'.intents[id]] && s'.orders == s.orders
    requires IntentOk(s', id)
    requires id in s.intents && s.intents[id].status == Paid ==>
               s'.intents[id] == s.intents[id].(providerReference := s'.intents[id].providerReference)
    ensures PaymentsOk(s')
  {
    forall i | i in s'.intents
      ensures IntentOk(s', i)
    {
      if i != id {
        assert IntentOk(s, i);
      }
    }
    forall o | o in s'.orders
      ensures PaidFor(s', s'.orders[o])
    {
      assert PaidFor(s, s.orders[o]);
    }
    forall o, p | o in s'.orders && p in s'.orders
      ensures DifferentIntents(s', o, p)
    {
      assert DifferentIntents(s, o, p);
    }
  }

  /** With the same orders and riders, only payments and Nodes are left to check. */
  lemma RestKeepsInv(s: State, s': State)
    requires s'.orders == s.orders && SamePlaces(s, s')
    requires PaymentsOk(s') && NodesOk(s')
    requires Inv(s)
    ensures Inv(s')
  {
    forall o | o in s'.orders
      ensures OrderOk(s'.orders[o], s'.splitRules) && RiderKnown(s', s'.orders[o])
    {
      assert OrderOk(s.orders[o], s.splitRules) && RiderKnown(s, s.orders[o]);
    }
  }

  lemma ReservedWithinTaken(s: State, node: NodeId)
    ensures SlotsReserved(s, node) <= SlotsTaken(s, node)
  {
    CountMono(s.orders, BeforePickupAt(node), HeldAt(node));
  }

  lemma CreateKeepsInv(s: State, id: IntentId, origin: NodeId, destination: NodeId,
                       vehicle: Option<VehicleClass>, fee: FeeBreakdown)
    requires ValidFee(fee) && CreateIntent(s, id, origin, destination, vehicle, fee).Success?
    requires Inv(s)
    ensures Inv(CreateIntent(s, id, origin, destination, vehicle, fee).value)
  {
    var s' := CreateIntent(s, id, origin, destination, vehicle, fee).value;
    assert IntentOk(s', id);
    IntentWriteKeepsPayments(s, s', id);
    forall n | n in s'.nodes
      ensures NodeOk(s', n)
    {
      assert NodeOk(s, n);
      CountUpdate(s.intents, PendingAt(n), id, s'.intents[id]);
      ReservedWithinTaken(s, n);
    }
    RestKeepsInv(s, s');
  }

  lemma ReferenceKeepsInv(s: State, id: IntentId)
    requires Inv(s)
    ensures Inv(SetReference(s, id))
  {
    if id in s.intents {
      var s' := SetReference(s, id);
      assert IntentOk(s, id);
      assert IntentOk(s', id) by {
        if s.intents[id].status == Paid {
          var o :| o in s.orders && s.orders[o].paymentIntentId == id;
          assert o in s'.orders && s'.orders[o].paymentIntentId == id;
        }
      }
      IntentWriteKeepsPayments(s, s', id);
      forall n | n in s'.nodes
        ensures NodeOk(s', n)
      {
        assert NodeOk(s, n);
        CountUpdate(s.intents, PendingAt(n), id, s'.intents[id]);
      }
      RestKeepsInv(s, s');
    }
  }

  lemma ExpireKeepsInv(s: State, id: IntentId)
    requires Inv(s)
    ensures Inv(Expire(s, id))
  {
    if id in s.intents && s.intents[id].status == Pending {
      var s' := Expire(s, id);
      assert IntentOk(s, id);
      CountHas(s.intents, PendingAt(s.intents[id].originNodeId), id);
      assert IntentOk(s', id);
      IntentWriteKeepsPayments(s, s', id);
      forall n | n in s'.nodes
        ensures NodeOk(s', n)
      {
        assert NodeOk(s, n);
        CountUpdate(s.intents, PendingAt(n), id, s'.intents[id]);
      }
      RestKeepsInv(s, s');
    }
  }

  // ----- PENDING to PAID ---------------------------------------------------

  lemma NewOrderIsOk(id: IntentId, intent: Intent, rules: seq<SplitRule>)
    requires 0 <= intent.destinationFeeKobo <= intent.amountKobo
    ensures OrderOk(OrderOf(id, intent), rules)
  {
  }

  lemma PaidKeepsPayments(s: State, id: IntentId, order: OrderId)
    requires PaymentsOk(s) && id in s.intents && s.intents[id].status == Pending
    requires ConfirmPaid(s, id, order).Success?
    ensures PaymentsOk(ConfirmPaid(s, id, order).value)
  {
    var s' := ConfirmPaid(s, id, order).value;
    assert IntentOk(s, id);
    forall i | i in s'.intents
      ensures IntentOk(s', i)
    {
      if i == id {
        assert order in s'.orders && s'.orders[order].paymentIntentId == id;
      } else {
        assert IntentOk(s, i);
        if s.intents[i].status == Paid {
          var o :| o in s.orders && s.orders[o].paymentIntentId == i;
          assert o in s'.orders && s'.orders[o].paymentIntentId == i;
        }
      }
    }
    forall o | o in s.orders
      ensures s.orders[o].paymentIntentId != id
    {
      assert PaidFor(s, s.orders[o]);
    }
    forall o | o in s'.orders
      ensures PaidFor(s', s'.orders[o])
    {
      if o != order {
        assert PaidFor(s, s.orders[o]);
      }
    }
    forall o, p | o in s'.orders && p in s'.orders
      ensures DifferentIntents(s', o, p)
    {
      if o != order && p != order {
        assert DifferentIntents(s, o, p);
      }
    }
  }

  /** The slot moves from the intent to its order. */
  lemma PaidKeepsNodes(s: State, id: IntentId, order: OrderId)
    requires NodesOk(s) && id in s.intents && s.intents[id].status == Pending
    requires ConfirmPaid(s, id, order).Success?
    ensures NodesOk(ConfirmPaid(s, id, order).value)
  {
    var s' := ConfirmPaid(s, id, order).value;
    forall n | n in s'.nodes
      ensures NodeOk(s', n)
    {
      assert NodeOk(s, n);
      CountUpdate(s.intents, PendingAt(n), id, s'.intents[id]);
      CountUpdate(s.orders, HeldAt(n), order, s'.orders[order]);
      CountUpdate(s.orders, BeforePickupAt(n), order, s'.orders[order]);
    }
  }

  lemma PaidKeepsInv(s: State, id: IntentId, order: OrderId)
    requires id in s.intents && s.intents[id].status == Pending
    requires ConfirmPaid(s, id, order).Success?
    requires Inv(s)
    ensures Inv(ConfirmPaid(s, id, order).value)
  {
    var s' := ConfirmPaid(s, id, order).value;
    assert IntentOk(s, id);
    PaidKeepsPayments(s, id, order);
    PaidKeepsNodes(s, id, order);
    NewOrderIsOk(id, s.intents[id], s.splitRules);
    forall o | o in s'.orders
      ensures OrderOk(s'.orders[o], s'.splitRules) && RiderKnown(s', s'.orders[o])
    {
      if o != order {
        assert OrderOk(s.orders[o], s.splitRules) && RiderKnown(s, s.orders[o]);
      }
    }
    forall o, p | o in s'.orders && p in s'.orders
      ensures DifferentShelves(s'.orders, o, p)
    {
      if o != order && p != order {
        assert DifferentShelves(s.orders, o, p);
      }
    }
  }

  lemma KeyKeepsInv(s: State, reference: IntentId)
    requires Inv(s)
    ensures Inv(s.(paymentKeys := s.paymentKeys + {reference}))
  {
    var s' := s.(paymentKeys := s.paymentKeys + {reference});
    forall i | i in s'.intents
      ensures IntentOk(s', i)
    {
      assert IntentOk(s, i);
    }
    forall o | o in s'.orders
      ensures PaidFor(s', s'.orders[o])
    {
      assert PaidFor(s, s.orders[o]);
    }
    forall o, p | o in s'.orders && p in s'.orders
      ensures DifferentIntents(s', o, p)
    {
      assert DifferentIntents(s, o, p);
    }
    forall n | n in s'.nodes
      ensures NodeOk(s', n)
    {
      assert NodeOk(s, n);
    }
    RestKeepsInv(s, s');
  }

  lemma WebhookKeepsInv(s: State, reference: IntentId, reply: Option<Verification>, order: OrderId)
    requires Inv(s) && HandleWebhook(s, reference, reply, order).Success?
    ensures Inv(HandleWebhook(s, reference, reply, order).value)
  {
    hide Inv;
    if reference !in s.paymentKeys {
      var s1 := s.(paymentKeys := s.paymentKeys + {reference});
      KeyKeepsInv(s, reference);
      if HandleWebhook(s, reference, reply, order).value != s1 {
        PaidKeepsInv(s1, reference, order);
      }
    }
  }

  lemma SweepKeepsInv(s: State, stale: StaleIntent, reply: Option<Verification>, order: OrderId)
    requires Inv(s) && ProcessStaleIntent(s, stale, reply, order).Success?
    ensures Inv(ProcessStaleIntent(s, stale, reply, order).value)
  {
    hide Inv;
    ExpireKeepsInv(s, stale.id);
    if stale.providerReference.Some? {
      var reference := stale.providerReference.value;
      var s1 := s.(paymentKeys := s.paymentKeys + {reference});
      KeyKeepsInv(s, reference);
      if stale.id in s.intents && s.intents[stale.id].status == Pending && order !in s.orders {
        PaidKeepsInv(s1, stale.id, order);
      }
    }
  }

  // ----- Split rules -------------------------------------------------------

  /** Rules are only ever added, so what a completed order was split by still stands. */
  lemma RuleKeepsInv(s: State, rule: SplitRule)
    requires Inv(s) && AddSplitRule(s, rule).Success?
    ensures Inv(AddSplitRule(s, rule).value)
  {
    var s' := AddSplitRule(s, rule).value;
    forall o | o in s'.orders
      ensures OrderOk(s'.orders[o], s'.splitRules) && RiderKnown(s', s'.orders[o]) && PaidFor(s', s'.orders[o])
    {
      assert OrderOk(s.orders[o], s.splitRules) && RiderKnown(s, s.orders[o]) && PaidFor(s, s.orders[o]);
    }
    forall i | i in s'.intents
      ensures IntentOk(s', i)
    {
      assert IntentOk(s, i);
    }
    forall o, p | o in s'.orders && p in s'.orders
      ensures DifferentIntents(s', o, p)
    {
      assert DifferentIntents(s, o, p);
    }
    forall n | n in s'.nodes
      ensures NodeOk(s', n)
    {
      assert NodeOk(s, n);
    }
    forall k | 0 <= k < |s'.splitRules|
      ensures ValidSplit(s'.splitRules[k])
    {
      if k < |s.splitRules| {
        assert ValidSplit(s.splitRules[k]);
      }
    }
  }
}

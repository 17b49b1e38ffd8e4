/** The counter steps keep every table's invariant. */
module HandoffSteps {
  import opened Wrappers
  import opened OrderRules
  import opened Routing
  import opened HandoffCodes
  import opened Money
  import opened Model
  import opened Capacity
  import opened Shelves
  import opened Orders
  import opened Handoffs
  import opened Invariants
  import opened LegSteps
  import opened LegTransactions

  /** The shelf place an order is given is nobody's. */
  lemma PlaceIsFree(orders: map<OrderId, Order>, edited: map<OrderId, Order>, o: OrderId, node: NodeId)
    requires o in orders && o in edited && edited == orders[o := edited[o]] && edited[o].shelf == orders[o].shelf
    ensures ShelfFree(orders, o, Some(Shelf(node, LowestFree(edited, node))))
  {
    var place := Shelf(node, LowestFree(edited, node));
    forall p | p in edited && edited[p].shelf.Some? && edited[p].shelf.value.nodeId == node
      ensures edited[p].shelf.value.number in UsedNumbers(edited, node)
    {
      assert p in ShelvedAt(edited, node);
    }
    assert forall p :: p in orders ==> edited[p].shelf == orders[p].shelf;
  }

  /** A step that moves one order along the counter: everything but the order's own
      invariant follows from what kind of change it is. */
  lemma CounterStepKeepsInv(s: State, s': State, o: OrderId)
    requires o in s.orders && o in s'.orders && s'.orders == s.orders[o := s'.orders[o]]
    requires s'.intents == s.intents && s'.nodes == s.nodes && s'.riders == s.riders && s'.splitRules == s.splitRules
    requires SameParcel(s.orders[o], s'.orders[o]) && ShelfFree(s.orders, o, s'.orders[o].shelf)
    requires HeldAt(s.orders[o].originNodeId)(s.orders[o]) == HeldAt(s.orders[o].originNodeId)(s'.orders[o])
    requires BeforePickup(s'.orders[o].status) ==> BeforePickup(s.orders[o].status)
    requires s'.orders[o].status !in {RiderAssigned, InTransit}
    requires OrderOk(s'.orders[o], s.splitRules)
    requires Inv(s)
    ensures Inv(s')
  {
    SameHoldFollows(s, s.orders[o], s'.orders[o]);
    OrderChangeKeepsInv(s, s', o, s'.orders[o]);
  }

  /** The key and the log line of each counter step. */
  predicate Stamps(scope: Scope, event: OrderEvent) {
    (scope, event) in {(DropOffScope, LogReceived), (IntakeScope, LogReady), (CollectionScope, LogCollected),
                       (ReturnIntakeScope, LogReadyForSender), (ReturnCollectScope, LogCollectedBySender)}
  }

  /** A counter step that inserts its key and writes its log line keeps the two together. */
  lemma StampKeepsKeys(order: Order, after: Order, scope: Scope, event: OrderEvent)
    requires KeysOk(order) && Stamps(scope, event)
    requires after.keys == order.keys + {scope} && after.log == order.log + [event] && after.legs == order.legs
    ensures KeysOk(after)
  {
  }

  lemma StampKeepsLog(order: Order, scope: Scope, event: OrderEvent)
    requires ReplayLog(order.log) == Some(order.status) && Stamps(scope, event) && LeftBy(event) == Some(order.status)
    ensures ReplayLog(order.log + [event]) == Some(EnteredBy(event))
  {
    ReplayAppend(order.log, event);
  }

  lemma StampKeepsCoupling(order: Order, after: Order, scope: Scope, event: OrderEvent)
    requires Coupled(order) && Stamps(scope, event) && LeftBy(event) == Some(order.status)
    requires after.status == EnteredBy(event) && after.legs == order.legs && after.riderId == order.riderId
    ensures Coupled(after)
  {
  }

  /** A counter step keeps the order's invariant: what is left to look at is where the
      parcel goes, which codes are left and whether money is split. */
  lemma StampKeepsOrder(order: Order, after: Order, scope: Scope, event: OrderEvent, rules: seq<SplitRule>)
    requires OrderOk(order, rules) && Stamps(scope, event) && LeftBy(event) == Some(order.status)
    requires after == order.(keys := order.keys + {scope}, status := EnteredBy(event), log := order.log + [event],
                             shelf := after.shelf, codes := after.codes, entries := after.entries)
    requires ShelfOk(after) && OneUnusedPerKind(after.codes) && MoneyOk(after, rules)
    ensures OrderOk(after, rules)
  {
    hide KeysOk, Coupled, ReplayLog, ShelfOk, MoneyOk, LegsOk, OneUnusedPerKind;
    StampKeepsKeys(order, after, scope, event);
    StampKeepsLog(order, scope, event);
    StampKeepsCoupling(order, after, scope, event);
  }

  lemma ReceivedKeepsOrder(order: Order, shelf: Shelf, rules: seq<SplitRule>)
    requires OrderOk(order, rules) && order.status == AwaitingDropOff && shelf.nodeId == order.originNodeId
    ensures OrderOk(order.(keys := order.keys + {DropOffScope}, status := ReceivedAtOrigin,
                           log := order.log + [LogReceived], shelf := Some(shelf)), rules)
  {
    var after := order.(keys := order.keys + {DropOffScope}, status := ReceivedAtOrigin,
                        log := order.log + [LogReceived], shelf := Some(shelf));
    StampKeepsOrder(order, after, DropOffScope, LogReceived, rules);
  }

  lemma DropOffKeepsInv(s: State, o: OrderId, env: RoutingEnv)
    requires Inv(s) && ConfirmDropOff(s, o, env).Success?
    ensures Inv(ConfirmDropOff(s, o, env).value)
  {
    hide Inv, OrderOk;
    if !AlreadyProcessed(s, o, DropOffScope) {
      About(s, o);
      var order := s.orders[o];
      var s0 := Transition(InsertKey(s, o, DropOffScope), o, AwaitingDropOff, ReceivedAtOrigin, LogReceived).value;
      var s1 := PlaceOnShelf(s0, o, order.originNodeId);
      assert s0.orders == s.orders[o := s0.orders[o]];
      PlaceIsFree(s.orders, s0.orders, o, order.originNodeId);
      ReceivedKeepsOrder(order, s1.orders[o].shelf.value, s.splitRules);
      CounterStepKeepsInv(s, s1, o);
      DispatchKeepsInv(s1, o, None, env);
    }
  }

  lemma ReadyKeepsOrder(order: Order, shelf: Shelf, codes: seq<Code>, rules: seq<SplitRule>)
    requires OrderOk(order, rules) && order.status == ArrivedAtDestination && shelf.nodeId == order.destinationNodeId
    requires OneUnusedPerKind(codes)
    ensures OrderOk(order.(keys := order.keys + {IntakeScope}, status := ReadyForCollection,
                           log := order.log + [LogReady], shelf := Some(shelf), codes := codes), rules)
  {
    var after := order.(keys := order.keys + {IntakeScope}, status := ReadyForCollection,
                        log := order.log + [LogReady], shelf := Some(shelf), codes := codes);
    StampKeepsOrder(order, after, IntakeScope, LogReady, rules);
  }

  lemma IntakeKeepsInv(s: State, o: OrderId, hash: nat, expiresAt: int)
    requires Inv(s) && ConfirmIntake(s, o, hash, expiresAt).Success?
    ensures Inv(ConfirmIntake(s, o, hash, expiresAt).value)
  {
    hide Inv, OrderOk, LowestFree, Issue, OneUnusedPerKind;
    if !AlreadyProcessed(s, o, IntakeScope) {
      About(s, o);
      var order := s.orders[o];
      var s0 := Transition(InsertKey(s, o, IntakeScope), o, ArrivedAtDestination, ReadyForCollection, LogReady).value;
      var s' := ConfirmIntake(s, o, hash, expiresAt).value;
      assert s0.orders == s.orders[o := s0.orders[o]];
      PlaceIsFree(s.orders, s0.orders, o, order.destinationNodeId);
      IssueReplaces(order.codes, ReceiverCollection, hash, expiresAt);
      ReadyKeepsOrder(order, s'.orders[o].shelf.value, s'.orders[o].codes, s.splitRules);
      CounterStepKeepsInv(s, s', o);
    }
  }

  lemma ReturnedKeepsOrder(order: Order, shelf: Shelf, codes: seq<Code>, rules: seq<SplitRule>)
    requires OrderOk(order, rules) && order.status == ReturnedToOrigin && shelf.nodeId == order.originNodeId
    requires OneUnusedPerKind(codes)
    ensures OrderOk(order.(keys := order.keys + {ReturnIntakeScope}, status := ReadyForSenderCollection,
                           log := order.log + [LogReadyForSender], shelf := Some(shelf), codes := codes), rules)
  {
    var after := order.(keys := order.keys + {ReturnIntakeScope}, status := ReadyForSenderCollection,
                        log := order.log + [LogReadyForSender], shelf := Some(shelf), codes := codes);
    StampKeepsOrder(order, after, ReturnIntakeScope, LogReadyForSender, rules);
  }

  lemma ReturnIntakeKeepsInv(s: State, o: OrderId, hash: nat, expiresAt: int)
    requires Inv(s) && ConfirmReturnIntake(s, o, hash, expiresAt).Success?
    ensures Inv(ConfirmReturnIntake(s, o, hash, expiresAt).value)
  {
    hide Inv, OrderOk, LowestFree, Issue, OneUnusedPerKind;
    if !AlreadyProcessed(s, o, ReturnIntakeScope) {
      About(s, o);
      var order := s.orders[o];
      var s0 := Transition(InsertKey(s, o, ReturnIntakeScope), o, ReturnedToOrigin, ReadyForSenderCollection,
                           LogReadyForSender).value;
      var s' := ConfirmReturnIntake(s, o, hash, expiresAt).value;
      assert s0.orders == s.orders[o := s0.orders[o]];
      PlaceIsFree(s.orders, s0.orders, o, order.originNodeId);
      IssueReplaces(order.codes, SenderCollection, hash, expiresAt);
      ReturnedKeepsOrder(order, s'.orders[o].shelf.value, s'.orders[o].codes, s.splitRules);
      CounterStepKeepsInv(s, s', o);
    }
  }

  /** The order after its receiver has collected it. */
  function Collected(order: Order, codes: seq<Code>, rule: SplitRule, ruleId: nat): Order {
    order.(keys := order.keys + {CollectionScope}, status := Completed, log := order.log + [LogCollected],
           shelf := None, codes := codes,
           entries := SplitEntries(order.amountKobo, order.destinationFeeKobo, order.riderId,
                                   order.originNodeId, order.destinationNodeId, rule, ruleId))
  }

  lemma CollectedKeepsOrder(order: Order, codes: seq<Code>, rules: seq<SplitRule>)
    requires OrderOk(order, rules) && order.status == ReadyForCollection && rules != []
    requires OneUnusedPerKind(codes)
    ensures OrderOk(Collected(order, codes, rules[|rules| - 1], |rules| - 1), rules)
  {
    var after := Collected(order, codes, rules[|rules| - 1], |rules| - 1);
    StampKeepsOrder(order, after, CollectionScope, LogCollected, rules);
  }

  /** What a successful collection does, in one go. */
  lemma CollectionResult(s: State, o: OrderId, hash: nat, now: int)
    requires ConfirmCollection(s, o, hash, now).Success? && !AlreadyProcessed(s, o, CollectionScope)
    requires s.orders[o].entries == []
    ensures o in s.orders && s.orders[o].status == ReadyForCollection && s.splitRules != []
    ensures Validate(s.orders[o].codes, ReceiverCollection, hash, now).Some?
    ensures var codes := Validate(s.orders[o].codes, ReceiverCollection, hash, now).value;
            var ruleId := |s.splitRules| - 1;
            ConfirmCollection(s, o, hash, now).value ==
              s.(orders := s.orders[o := Collected(s.orders[o], codes, s.splitRules[ruleId], ruleId)])
  {
    var s1 := ValidateCode(InsertKey(s, o, CollectionScope), o, ReceiverCollection, hash, now).value;
    var s2 := MarkCollected(s1, o).value;
    var s' := RecordSplit(s2, o).value;
    var codes := Validate(s.orders[o].codes, ReceiverCollection, hash, now).value;
    var after := Collected(s.orders[o], codes, s.splitRules[|s.splitRules| - 1], |s.splitRules| - 1);
    assert s'.orders[o].entries == [] + after.entries == after.entries;
    assert s'.orders[o] == after;
    assert s'.orders == s.orders[o := after];
  }

  lemma CollectionKeepsInv(s: State, o: OrderId, hash: nat, now: int)
    requires Inv(s) && ConfirmCollection(s, o, hash, now).Success?
    ensures Inv(ConfirmCollection(s, o, hash, now).value)
  {
    hide Inv, Validate;
    if !AlreadyProcessed(s, o, CollectionScope) {
      FirstCollectionKeepsInv(s, o, hash, now);
    }
  }

  lemma FirstCollectionKeepsInv(s: State, o: OrderId, hash: nat, now: int)
    requires Inv(s) && o in s.orders && CollectionScope !in s.orders[o].keys
    requires ConfirmCollection(s, o, hash, now).Success?
    ensures Inv(ConfirmCollection(s, o, hash, now).value)
  {
    hide Inv, OrderOk, ConfirmCollection, Validate, SplitEntries, OneUnusedPerKind;
    About(s, o);
    EntriesOnlyWhenCompleted(s.orders[o], s.splitRules);
    CollectionResult(s, o, hash, now);
    var codes := Validate(s.orders[o].codes, ReceiverCollection, hash, now).value;
    ValidateConsumes(s.orders[o].codes, ReceiverCollection, hash, now);
    CollectedKeepsOrder(s.orders[o], codes, s.splitRules);
    CounterStepKeepsInv(s, ConfirmCollection(s, o, hash, now).value, o);
  }

  /** An order that was never collected has no entries. */
  lemma EntriesOnlyWhenCompleted(order: Order, rules: seq<SplitRule>)
    requires OrderOk(order, rules) && CollectionScope !in order.keys
    ensures order.entries == []
  {
    if order.status == Completed {
      ReplayIsLastEntered(order.log);
    }
  }

  /** The order after its sender has collected it back. */
  function CollectedBack(order: Order, codes: seq<Code>): Order {
    order.(keys := order.keys + {ReturnCollectScope}, status := ReturnCompleted,
           log := order.log + [LogCollectedBySender], shelf := None, codes := codes)
  }

  lemma CollectedBackKeepsOrder(order: Order, codes: seq<Code>, rules: seq<SplitRule>)
    requires OrderOk(order, rules) && order.status == ReadyForSenderCollection
    requires OneUnusedPerKind(codes)
    ensures OrderOk(CollectedBack(order, codes), rules)
  {
    StampKeepsOrder(order, CollectedBack(order, codes), ReturnCollectScope, LogCollectedBySender, rules);
  }

  /** What a successful return collection does, in one go. */
  lemma ReturnCollectionResult(s: State, o: OrderId, hash: nat, now: int)
    requires ConfirmReturnCollection(s, o, hash, now).Success? && !AlreadyProcessed(s, o, ReturnCollectScope)
    ensures o in s.orders && s.orders[o].status == ReadyForSenderCollection
    ensures Validate(s.orders[o].codes, SenderCollection, hash, now).Some?
    ensures var codes := Validate(s.orders[o].codes, SenderCollection, hash, now).value;
            ConfirmReturnCollection(s, o, hash, now).value ==
              ReleaseCapacitySlot(s.(orders := s.orders[o := CollectedBack(s.orders[o], codes)]),
                                  s.orders[o].originNodeId)
  {
    var s1 := ValidateCode(InsertKey(s, o, ReturnCollectScope), o, SenderCollection, hash, now).value;
    var s2 := MarkCollectedBySender(s1, o).value;
    assert s2.orders == s.orders[o := s2.orders[o]];
  }

  /** An order that leaves its origin's counter takes its slot with it. */
  lemma LeavingFreesSlot(s: State, o: OrderId, after: Order)
    requires NodesOk(s) && o in s.orders && SameParcel(s.orders[o], after)
    requires s.orders[o].status == ReadyForSenderCollection && after.status == ReturnCompleted && after.shelf.None?
    ensures var s' := ReleaseCapacitySlot(s.(orders := s.orders[o := after]), s.orders[o].originNodeId);
            OnlyOrderChanged(s, s', o, after)
  {
    ReleaseFollows(s, o, s.orders[o], after);
  }

  lemma ReturnCollectionKeepsInv(s: State, o: OrderId, hash: nat, now: int)
    requires Inv(s) && ConfirmReturnCollection(s, o, hash, now).Success?
    ensures Inv(ConfirmReturnCollection(s, o, hash, now).value)
  {
    hide Inv, OrderOk;
    if !AlreadyProcessed(s, o, ReturnCollectScope) {
      About(s, o);
      ReturnCollectionResult(s, o, hash, now);
      var order := s.orders[o];
      var codes := Validate(order.codes, SenderCollection, hash, now).value;
      var after := CollectedBack(order, codes);
      ValidateConsumes(order.codes, SenderCollection, hash, now);
      CollectedBackKeepsOrder(order, codes, s.splitRules);
      LeavingFreesSlot(s, o, after);
      OrderChangeKeepsInv(s, ConfirmReturnCollection(s, o, hash, now).value, o, after);
    }
  }

  lemma CodesKeepOrder(order: Order, codes: seq<Code>, rules: seq<SplitRule>)
    requires OrderOk(order, rules) && OneUnusedPerKind(codes)
    ensures OrderOk(order.(codes := codes), rules)
  {
    hide LegsOk, ReplayLog, StatusesAgree, SplitEntries, OneUnusedPerKind;
  }

  /** Issuing, checking or failing a code touches nothing but the codes. */
  lemma CodesKeepInv(s: State, o: OrderId, codes: seq<Code>)
    requires Inv(s) && o in s.orders && OneUnusedPerKind(codes)
    ensures Inv(SetCodes(s, o, codes))
  {
    hide Inv, OrderOk, OneUnusedPerKind;
    About(s, o);
    CodesKeepOrder(s.orders[o], codes, s.splitRules);
    EditKeepsInv(s, SetCodes(s, o, codes), o);
  }

  lemma IssueKeepsInv(s: State, o: OrderId, kind: CodeKind, hash: nat, expiresAt: int)
    requires Inv(s) && o in s.orders
    ensures Inv(IssueCode(s, o, kind, hash, expiresAt))
  {
    About(s, o);
    IssueReplaces(s.orders[o].codes, kind, hash, expiresAt);
    CodesKeepInv(s, o, Issue(s.orders[o].codes, kind, hash, expiresAt));
  }

  lemma FailedCheckKeepsInv(s: State, o: OrderId, kind: CodeKind)
    requires Inv(s) && o in s.orders
    ensures Inv(SetCodes(s, o, CountFailure(s.orders[o].codes, kind)))
  {
    About(s, o);
    FailureCounts(s.orders[o].codes, kind);
    CodesKeepInv(s, o, CountFailure(s.orders[o].codes, kind));
  }
}

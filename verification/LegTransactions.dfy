/** The transactions that move legs keep every table's invariant, and never throw
    where they promise not to. */
module LegTransactions {
  import opened Wrappers
  import opened DeliveryLeg
  import opened OrderRules
  import opened Routing
  import opened HandoffCodes
  import opened Money
  import opened Model
  import opened DeliveryDispatch
  import opened DeliveryEvents
  import opened Invariants
  import opened LegProtocol
  import opened LegSteps

  /** `s1` is `s` with one order's row edited, and perhaps some riders' counters. */
  ghost predicate EditedOrder(s: State, s1: State, o: OrderId) {
    && o in s.orders && o in s1.orders
    && s1.orders == s.orders[o := s1.orders[o]]
    && s1.intents == s.intents && s1.nodes == s.nodes && s1.splitRules == s.splitRules
    && s1.riders.Keys == s.riders.Keys
    && SameParcel(s.orders[o], s1.orders[o])
    && s1.orders[o].status == s.orders[o].status
    && s1.orders[o].riderId == s.orders[o].riderId
    && s1.orders[o].shelf == s.orders[o].shelf
  }

  /** Editing an order's keys, codes or legs leaves the Nodes' counters right. */
  lemma EditKeepsNodes(s: State, s1: State, o: OrderId)
    requires NodesOk(s) && RidersKnown(s) && EditedOrder(s, s1, o)
    ensures NodesOk(s1)
  {
    assert RiderKnown(s, s.orders[o]);
    NodesStayOk(s, s1, o, s1.orders[o]);
  }

  /** An edit that keeps the order's own invariant keeps them all. */
  lemma EditKeepsInv(s: State, s1: State, o: OrderId)
    requires Inv(s) && EditedOrder(s, s1, o) && OrderOk(s1.orders[o], s.splitRules)
    ensures Inv(s1)
  {
    assert RiderKnown(s, s.orders[o]);
    OrderChangeKeepsInv(s, s1, o, s1.orders[o]);
  }

  lemma EditFollows(s: State, s1: State, s': State, before: Order, edited: Order, after: Order)
    requires s1.nodes == s.nodes && edited.originNodeId == before.originNodeId && edited.status == before.status
    requires NodesFollow(s1, s', edited, after)
    ensures NodesFollow(s, s', before, after)
  {
    assert forall n :: HeldAt(n)(edited) == HeldAt(n)(before);
  }

  /** Moving the latest leg of an edited order changes that order as declared and
      nothing else but the counters, which follow. */
  lemma MoveChangesOrder(s: State, s1: State, o: OrderId, event: LegEvent)
    requires EditedOrder(s, s1, o) && LegAccepts(s1.orders[o], event) && InStep(s1.orders[o])
    requires NodesOk(s) && RiderKnown(s, s.orders[o]) && NodesOk(s1)
    requires RiderKnown(s, AfterEvent(s1.orders[o], event))
    ensures Move(s1, o, LastIndex(s1.orders[o]), event).Success?
    ensures var s' := Move(s1, o, LastIndex(s1.orders[o]), event).value;
            OnlyOrderChanged(s, s', o, AfterEvent(s1.orders[o], event)) && s'.paymentKeys == s1.paymentKeys
  {
    hide AfterEvent, InStep, NodesOk, RiderKnown, Move, CountersAfter, NodesFollow, BeforePickup;
    var order := s1.orders[o];
    var after := AfterEvent(order, event);
    LegAfterEvent(order, event);
    var courier := after.legs[LastIndex(order)].courierUserId;
    ListenerAccepts(s1, o, event);
    CountersFollow(s1, o, event, courier);
    CountersOnly(s1.(orders := s1.orders[o := after]), order.originNodeId, event, courier);
    HoldAfterEvent(order, event);
    Overwrite(s.orders, o, order, after);
    var s' := Move(s1, o, LastIndex(order), event).value;
    EditFollows(s, s1, s', s.orders[o], order, after);
  }

  /** Moving the latest leg of a consistent (perhaps just edited) order: no throw, and
      every invariant holds again once the move is over. */
  lemma MoveKeepsInv(s: State, s1: State, o: OrderId, event: LegEvent)
    requires EditedOrder(s, s1, o) && LegAccepts(s1.orders[o], event) && InStep(s1.orders[o])
    requires RiderKnown(s, AfterEvent(s1.orders[o], event))
    requires OrderOk(AfterEvent(s1.orders[o], event), s.splitRules)
    requires Inv(s)
    ensures var result := Move(s1, o, LastIndex(s1.orders[o]), event);
            && result.Success?
            && var s' := result.value;
            && Inv(s') && OnlyOrderChanged(s, s', o, AfterEvent(s1.orders[o], event))
            && s'.paymentKeys == s1.paymentKeys
  {
    assert RiderKnown(s, s.orders[o]);
    EditKeepsNodes(s, s1, o);
    MoveChangesOrder(s, s1, o, event);
    OrderChangeKeepsInv(s, Move(s1, o, LastIndex(s1.orders[o]), event).value, o, AfterEvent(s1.orders[o], event));
  }

  /** Only the latest leg of an order can still move. */
  lemma OnlyLastMoves(order: Order, i: nat, event: LegEvent)
    requires LegsOk(order.legs) && i < |order.legs|
    requires NextLegStatus(order.legs[i].status, event).Some?
    ensures i == LastIndex(order) && LegAccepts(order, event)
  {
  }

  lemma OnlyLastMovesIn(s: State, o: OrderId, i: nat, event: LegEvent)
    requires Inv(s) && HasLeg(s, o, i) && NextLegStatus(s.orders[o].legs[i].status, event).Some?
    ensures i == LastIndex(s.orders[o]) && LegAccepts(s.orders[o], event)
  {
    About(s, o);
    OnlyLastMoves(s.orders[o], i, event);
  }

  lemma AboutStep(s: State, o: OrderId)
    requires Inv(s) && o in s.orders
    ensures InStep(s.orders[o])
  {
    About(s, o);
  }

  lemma EventKeepsOrder(order: Order, event: LegEvent, rules: seq<SplitRule>)
    requires OrderOk(order, rules) && LegAccepts(order, event)
    requires order.legs[LastIndex(order)].providerKey == InHouse ==> event == LegCancelled
    ensures OrderOk(AfterEvent(order, event), rules)
  {
    EventKeepsCore(order, event, rules);
    EventKeepsKeys(order, event);
  }

  lemma RiderStaysKnown(s: State, order: Order, event: LegEvent)
    requires RiderKnown(s, order) && LegAccepts(order, event)
    requires Coupled(order) && LegsOk(order.legs) && CanReach(order.legs[LastIndex(order)], event)
    ensures RiderKnown(s, AfterEvent(order, event))
  {
  }

  /** The latest leg of a consistent order takes an event from its courier, or is
      cancelled: no throw, and the tables stay consistent. */
  lemma EventKeepsInv(s: State, o: OrderId, event: LegEvent)
    requires Inv(s) && o in s.orders && LegAccepts(s.orders[o], event)
    requires s.orders[o].legs[LastIndex(s.orders[o])].providerKey == InHouse ==> event == LegCancelled
    ensures Move(s, o, LastIndex(s.orders[o]), event).Success?
    ensures var s' := Move(s, o, LastIndex(s.orders[o]), event).value;
            && Inv(s') && OnlyOrderChanged(s, s', o, AfterEvent(s.orders[o], event))
            && s'.paymentKeys == s.paymentKeys
  {
    About(s, o);
    EventKeepsOrder(s.orders[o], event, s.splitRules);
    RiderStaysKnown(s, s.orders[o], event);
    assert s.orders == s.orders[o := s.orders[o]];
    MoveKeepsInv(s, s, o, event);
  }

  /** What an event leaves of the leg it moved. */
  lemma LegAfterEvent(order: Order, event: LegEvent)
    requires LegAccepts(order, event)
    ensures var leg := order.legs[LastIndex(order)];
            && |AfterEvent(order, event).legs| == |order.legs|
            && AfterEvent(order, event).legs[LastIndex(order)] ==
              Moved(leg, event, NextLegStatus(leg.status, event).value)
    ensures event == LegCancelled && InStep(order) ==> AfterEvent(order, event).status == ReceivedAtOrigin
  {
  }

  /** Once its latest leg is cancelled an order has none in progress. */
  lemma NothingActive(s: State, o: OrderId)
    requires Inv(s) && o in s.orders && s.orders[o].legs != []
    requires s.orders[o].legs[LastIndex(s.orders[o])].status == Cancelled
    ensures ActiveLeg(s.orders[o].legs).None?
  {
    About(s, o);
  }

  // ----- Dispatch ----------------------------------------------------------

  /** A waiting order given a new leg. */
  function WithNewLeg(order: Order, key: ProviderKey): Order {
    order.(legs := order.legs + [NewLeg(key, Requested, |order.legs| + 1, None)])
  }

  lemma NewLegKeepsOrder(order: Order, key: ProviderKey, rules: seq<SplitRule>)
    requires OrderOk(order, rules) && order.status == ReceivedAtOrigin && ActiveLeg(order.legs).None?
    ensures OrderOk(WithNewLeg(order, key), rules)
  {
    var legs' := WithNewLeg(order, key).legs;
    assert forall i :: 0 <= i < |order.legs| ==> IsTerminal(order.legs[i].status);
    assert forall i :: 0 <= i < |order.legs| ==> legs'[i] == order.legs[i];
  }

  /** Routing an order that waits at its origin keeps everything consistent: it gains
      at most one leg, and nothing else changes. */
  lemma DispatchKeepsInv(s: State, o: OrderId, force: Option<ProviderKey>, env: RoutingEnv)
    requires Inv(s) && o in s.orders && s.orders[o].status == ReceivedAtOrigin
    ensures Inv(Dispatch(s, o, force, env))
    ensures var s' := Dispatch(s, o, force, env);
            && s' == s.(orders := s'.orders)
            && (s' == s || exists key :: s'.orders == s.orders[o := WithNewLeg(s.orders[o], key)])
  {
    var s' := Dispatch(s, o, force, env);
    About(s, o);
    if s' != s {
      var key := Destination(s.orders[o], force, env).value;
      assert s'.orders == s.orders[o := WithNewLeg(s.orders[o], key)];
      NewLegKeepsOrder(s.orders[o], key, s.splitRules);
      EditKeepsInv(s, s', o);
    }
  }

  // ----- Apply, cancel, submit, sync ---------------------------------------

  /** Applying an accepted event, re-routing included, succeeds and keeps everything
      consistent. */
  lemma ApplyKeepsInv(s: State, o: OrderId, event: LegEvent, routeTo: Option<ProviderKey>, env: RoutingEnv)
    requires Inv(s) && o in s.orders && LegAccepts(s.orders[o], event)
    requires s.orders[o].legs[LastIndex(s.orders[o])].providerKey == InHouse ==> event == LegCancelled
    ensures Apply(s, o, LastIndex(s.orders[o]), event, routeTo, env).Success?
    ensures var s' := Apply(s, o, LastIndex(s.orders[o]), event, routeTo, env).value;
            && Inv(s') && o in s'.orders
            && (event != LegCancelled ==> s'.orders == s.orders[o := AfterEvent(s.orders[o], event)])
  {
    AboutStep(s, o);
    EventKeepsInv(s, o, event);
    LegAfterEvent(s.orders[o], event);
    if event == LegCancelled {
      var s1 := Move(s, o, LastIndex(s.orders[o]), event).value;
      DispatchKeepsInv(s1, o, routeTo, env);
    }
  }

  /** Cancelling a leg from our side never throws, whatever the leg is doing. */
  lemma CancelKeepsInv(s: State, o: OrderId, i: nat, routeTo: Option<ProviderKey>, env: RoutingEnv)
    requires Inv(s)
    ensures CancelLeg(s, o, i, routeTo, env).Success?
    ensures Inv(CancelLeg(s, o, i, routeTo, env).value)
  {
    if HasLeg(s, o, i) && NextLegStatus(s.orders[o].legs[i].status, LegCancelled).Some? {
      OnlyLastMovesIn(s, o, i, LegCancelled);
      ApplyKeepsInv(s, o, LegCancelled, routeTo, env);
    }
  }

  /** A leg row with an external id and a sequence number noted on it. */
  function Noted(order: Order, i: nat, externalId: Option<nat>, sequence: Option<int>): Order
    requires i < |order.legs|
  {
    order.(legs := order.legs[i := order.legs[i].(externalId := externalId, providerSequence := sequence)])
  }

  lemma NoteKeepsLegs(order: Order, i: nat, externalId: Option<nat>, sequence: Option<int>)
    requires LegsOk(order.legs) && i < |order.legs|
    requires order.legs[i].providerKey == InHouse ==> externalId == order.legs[i].externalId
    ensures LegsOk(Noted(order, i, externalId, sequence).legs)
    ensures var last := Noted(order, i, externalId, sequence).legs[|order.legs| - 1];
            last == order.legs[|order.legs| - 1].(externalId := last.externalId,
                                                  providerSequence := last.providerSequence)
  {
  }

  lemma NoteKeepsOrder(order: Order, i: nat, externalId: Option<nat>, sequence: Option<int>, rules: seq<SplitRule>)
    requires OrderOk(order, rules) && i < |order.legs|
    requires order.legs[i].providerKey == InHouse ==> externalId == order.legs[i].externalId
    ensures OrderOk(Noted(order, i, externalId, sequence), rules)
  {
    hide LegsOk, ReplayLog, OneUnusedPerKind, StatusesAgree, SplitEntries;
    NoteKeepsLegs(order, i, externalId, sequence);
  }

  /** A leg row may gain an external id or a newer sequence number at any time. */
  lemma NoteOnLegKeepsInv(s: State, o: OrderId, i: nat, externalId: Option<nat>, sequence: Option<int>)
    requires Inv(s) && HasLeg(s, o, i)
    requires s.orders[o].legs[i].providerKey == InHouse ==> externalId == s.orders[o].legs[i].externalId
    ensures var s' := SetLeg(s, o, i, s.orders[o].legs[i].(externalId := externalId, providerSequence := sequence));
            Inv(s') && OrderOk(s'.orders[o], s'.splitRules)
  {
    assert OrderOk(s.orders[o], s.splitRules) by {
      About(s, o);
    }
    NoteKeepsOrder(s.orders[o], i, externalId, sequence, s.splitRules);
    EditKeepsInv(s, SetLeg(s, o, i, s.orders[o].legs[i].(externalId := externalId, providerSequence := sequence)), o);
  }

  lemma RefusalKeepsInv(s: State, o: OrderId, i: nat)
    requires Inv(s) && HasLeg(s, o, i) && s.orders[o].legs[i].status == Requested
    ensures var s' := SetLeg(s, o, i, s.orders[o].legs[i].(status := Cancelled, ended := true));
            Inv(s') && s'.orders[o].status == ReceivedAtOrigin
  {
    About(s, o);
    OnlyLastMovesIn(s, o, i, CourierAssigned);
    var order := s.orders[o];
    var s' := SetLeg(s, o, i, order.legs[i].(status := Cancelled, ended := true));
    EditKeepsInv(s, s', o);
  }

  lemma SubmitKeepsInv(s: State, o: OrderId, i: nat, reply: SubmitReply, env: RoutingEnv)
    requires Inv(s)
    ensures Inv(Submit(s, o, i, reply, env))
  {
    if HasLeg(s, o, i) && s.orders[o].legs[i].status == Requested && s.orders[o].legs[i].externalId.None?
       && RemoteSubmission(s.orders[o].legs[i].providerKey)
    {
      match reply {
        case Retryable =>
        case Accepted(externalId) => NoteOnLegKeepsInv(s, o, i, Some(externalId), s.orders[o].legs[i].providerSequence);
        case Refused =>
          RefusalKeepsInv(s, o, i);
          DispatchKeepsInv(SetLeg(s, o, i, s.orders[o].legs[i].(status := Cancelled, ended := true)), o, None, env);
      }
    }
  }

  /** The outbox delivers at least once: once a courier has answered for good, handling
      the same submission again, whatever is answered then, changes nothing. */
  lemma SubmissionIsIdempotent(s: State, o: OrderId, i: nat, reply: SubmitReply, again: SubmitReply,
                               env: RoutingEnv, later: RoutingEnv)
    requires HasLeg(s, o, i) && reply != Retryable
    ensures var s' := Submit(s, o, i, reply, env);
            && HasLeg(s', o, i) && Submit(s', o, i, again, later) == s'
            && (s' != s ==>
                  match reply
                  case Accepted(externalId) => s'.orders[o].legs[i].externalId == Some(externalId)
                  case Refused => s'.orders[o].legs[i].status == Cancelled && s'.orders[o].legs[i].ended
                  case Retryable => true)
  {
    var s1 := SetLeg(s, o, i, s.orders[o].legs[i].(status := Cancelled, ended := true));
    DispatchKeepsRows(s1, o, None, env, o, i);
    hide Dispatch;
  }

  /** Routing one order changes no leg of any. */
  lemma DispatchKeepsRows(s: State, p: OrderId, force: Option<ProviderKey>, env: RoutingEnv, o: OrderId, i: nat)
    requires HasLeg(s, o, i) && p in s.orders
    ensures var s' := Dispatch(s, p, force, env);
            HasLeg(s', o, i) && s'.orders[o].legs[i] == s.orders[o].legs[i]
  {
  }

  /** One step of catching an external leg up: no throw, and the leg is one further. */
  lemma CatchUpStep(s: State, o: OrderId, i: nat, event: LegEvent, env: RoutingEnv)
    requires Inv(s) && HasLeg(s, o, i) && s.orders[o].legs[i].providerKey != InHouse
    requires NextLegStatus(s.orders[o].legs[i].status, event).Some?
    ensures Apply(s, o, i, event, None, env).Success?
    ensures var s' := Apply(s, o, i, event, None, env).value;
            && Inv(s') && HasLeg(s', o, i)
            && s'.orders[o].legs[i].providerKey == s.orders[o].legs[i].providerKey
            && s'.orders[o].legs[i].status == NextLegStatus(s.orders[o].legs[i].status, event).value
            && s'.orders[o].legs[i].providerSequence == s.orders[o].legs[i].providerSequence
            && s'.orders[o].legs[i].externalId == s.orders[o].legs[i].externalId
  {
    OnlyLastMovesIn(s, o, i, event);
    ApplyKeepsInv(s, o, event, None, env);
    LegAfterEvent(s.orders[o], event);
    if event == LegCancelled {
      CancelledStays(s, o, i, env);
    }
  }

  /** Re-routing adds a leg after the cancelled one and leaves it alone. */
  lemma CancelledStays(s: State, o: OrderId, i: nat, env: RoutingEnv)
    requires Inv(s) && HasLeg(s, o, i) && NextLegStatus(s.orders[o].legs[i].status, LegCancelled).Some?
    ensures Apply(s, o, i, LegCancelled, None, env).Success?
    ensures var s' := Apply(s, o, i, LegCancelled, None, env).value;
            HasLeg(s', o, i) && s'.orders[o].legs[i] == Moved(s.orders[o].legs[i], LegCancelled, Cancelled)
  {
    OnlyLastMovesIn(s, o, i, LegCancelled);
    EventKeepsInv(s, o, LegCancelled);
    LegAfterEvent(s.orders[o], LegCancelled);
    AboutStep(s, o);
    DispatchKeepsInv(Move(s, o, i, LegCancelled).value, o, None, env);
  }

  /** Replaying every step a leg has missed succeeds and keeps everything consistent. */
  lemma {:induction false} CatchUpKeepsInv(s: State, o: OrderId, i: nat, target: LegStatus, env: RoutingEnv)
    requires Inv(s) && HasLeg(s, o, i) && s.orders[o].legs[i].providerKey != InHouse
    ensures ApplyAll(s, o, i, CatchUp(s.orders[o].legs[i].status, target), env).Success?
    ensures Inv(ApplyAll(s, o, i, CatchUp(s.orders[o].legs[i].status, target), env).value)
    decreases |CatchUp(s.orders[o].legs[i].status, target)|
  {
    var status := s.orders[o].legs[i].status;
    var steps := CatchUp(status, target);
    if steps != [] {
      CatchUpUnfolds(status, target);
      CatchUpStep(s, o, i, steps[0], env);
      if steps[0] == LegCancelled {
        assert steps[1..] == [];
      } else {
        CatchUpKeepsInv(Apply(s, o, i, steps[0], None, env).value, o, i, target, env);
      }
    }
  }

  /** Only an external leg has an external id to be found by. */
  lemma MatchedIsExternal(s: State, o: OrderId, i: nat, snapshot: Snapshot)
    requires Inv(s) && HasLeg(s, o, i) && Matches(s.orders[o].legs[i], snapshot)
    ensures s.orders[o].legs[i].providerKey != InHouse
  {
    About(s, o);
    assert CourierOk(s.orders[o].legs[i]);
  }

  /** A courier's snapshot, however late, duplicated or out of order, never makes the
      service throw and keeps everything consistent. */
  lemma SyncKeepsInv(s: State, o: OrderId, i: nat, snapshot: Snapshot, env: RoutingEnv)
    requires Inv(s)
    ensures SyncFromSnapshot(s, o, i, snapshot, env).Success?
    ensures Inv(SyncFromSnapshot(s, o, i, snapshot, env).value)
  {
    if HasLeg(s, o, i) && Matches(s.orders[o].legs[i], snapshot) && !Stale(s.orders[o].legs[i], snapshot) {
      var leg := s.orders[o].legs[i];
      MatchedIsExternal(s, o, i, snapshot);
      NoteOnLegKeepsInv(s, o, i, leg.externalId, snapshot.sequence);
      CatchUpKeepsInv(SetLeg(s, o, i, leg.(providerSequence := snapshot.sequence)), o, i, snapshot.status, env);
    }
  }
}

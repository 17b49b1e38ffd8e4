/** What each step that moves a courier's leg leaves behind, told in the tables' own
    fields: drop-off, submission, snapshots, cancellations. */
module LegEffects {
  import opened Wrappers
  import opened DeliveryLeg
  import opened OrderRules
  import opened Routing
  import opened Money
  import opened Model
  import opened Shelves
  import opened Orders
  import opened DeliveryDispatch
  import opened DeliveryEvents
  import opened Handoffs
  import opened Invariants
  import opened LegProtocol
  import opened LegSteps
  import opened LegTransactions
  import opened Growth
  import opened Convergence
  import opened CourierChoice
  import opened Runs

  /** The lowest number, from one on, that no parcel has on the Node's shelf. */
  ghost predicate LowestPlace(orders: map<OrderId, Order>, node: NodeId, number: nat) {
    && number >= 1
    && (forall o :: o in orders ==> orders[o].shelf != Some(Shelf(node, number)))
    && forall k :: 1 <= k < number ==> exists o :: o in orders && orders[o].shelf == Some(Shelf(node, k))
  }

  lemma LowestFreePlace(orders: map<OrderId, Order>, edited: map<OrderId, Order>, o: OrderId, node: NodeId)
    requires o in orders && o in edited && edited == orders[o := edited[o]] && edited[o].shelf == orders[o].shelf
    ensures LowestPlace(orders, node, LowestFree(edited, node))
  {
    var number := LowestFree(edited, node);
    forall p | p in orders
      ensures orders[p].shelf != Some(Shelf(node, number))
    {
      assert edited[p].shelf == orders[p].shelf;
      if p in ShelvedAt(edited, node) {
        assert edited[p].shelf.value.number in UsedNumbers(edited, node);
      }
    }
    forall k | 1 <= k < number
      ensures exists p :: p in orders && orders[p].shelf == Some(Shelf(node, k))
    {
      assert k in UsedNumbers(edited, node);
      var p :| p in ShelvedAt(edited, node) && edited[p].shelf.value.number == k;
      assert p in orders && orders[p].shelf == Some(Shelf(node, k));
    }
  }

  // ----- Drop-off ----------------------------------------------------------

  /** The parcel has been received, is on its origin's shelf, and has gone to the best
      courier. */
  ghost predicate DroppedOff(s: State, s': State, o: OrderId, env: RoutingEnv)
    requires o in s.orders
  {
    var order := s.orders[o];
    && o in s'.orders && s' == s.(orders := s.orders[o := s'.orders[o]])
    && GoesToBest(order, s'.orders[o].legs, env)
    && exists number :: LowestPlace(s.orders, order.originNodeId, number)
         && s'.orders[o] == order.(status := ReceivedAtOrigin, log := order.log + [LogReceived],
                                   keys := order.keys + {DropOffScope},
                                   shelf := Some(Shelf(order.originNodeId, number)), legs := s'.orders[o].legs)
  }

  /** Only an order that awaits it is dropped off, and then all of that happens. */
  lemma DropOffMeans(s: State, o: OrderId, env: RoutingEnv)
    requires Inv(s)
    ensures if o in s.orders && s.orders[o].status == AwaitingDropOff then
              DroppedOff(s, Next(s, DropOff(o, env)), o, env)
            else Next(s, DropOff(o, env)) == s
  {
    if o in s.orders && s.orders[o].status == AwaitingDropOff {
      About(s, o);
      ReplayIsLastEntered(s.orders[o].log);
      FirstDropOff(s, o, env);
    }
  }

  lemma FirstDropOff(s: State, o: OrderId, env: RoutingEnv)
    requires o in s.orders && s.orders[o].status == AwaitingDropOff && s.orders[o].legs == []
    requires DropOffScope !in s.orders[o].keys
    ensures DroppedOff(s, Next(s, DropOff(o, env)), o, env)
  {
    hide LowestFree, LowestPlace, GoesToBest, Dispatch;
    var order := s.orders[o];
    var s0 := Transition(InsertKey(s, o, DropOffScope), o, AwaitingDropOff, ReceivedAtOrigin, LogReceived).value;
    var s1 := PlaceOnShelf(s0, o, order.originNodeId);
    assert s0.orders == s.orders[o := s0.orders[o]];
    LowestFreePlace(s.orders, s0.orders, o, order.originNodeId);
    DispatchGoesToBest(s1, o, None, env);
    SameRouting(s1.orders[o], order, Dispatch(s1, o, None, env).orders[o].legs, env);
  }

  /** Only legs, vehicle and origin count in routing. */
  lemma SameRouting(a: Order, b: Order, after: seq<Leg>, env: RoutingEnv)
    requires a.legs == b.legs && a.vehicleClass == b.vehicleClass && a.originNodeId == b.originNodeId
    requires GoesToBest(a, after, env)
    ensures GoesToBest(b, after, env)
  {
    assert forall row :: CanTake(row, a, env) == CanTake(row, b, env);
    hide CanTake;
    var choice :| IsBest(a, env, choice) && Added(a.legs, after, choice);
    if choice.Some? {
      var row :| row in env.configs && row.key == choice.value && CanTake(row, a, env) && IsFirst(row, a, env);
      assert IsFirst(row, b, env);
    }
    assert IsBest(b, env, choice);
  }

  // ----- Cancelling from our side ------------------------------------------

  /** The order once its leg is cancelled, before it is routed on: it waits on its shelf,
      without a rider. */
  function Uncarried(order: Order, i: nat): Order
    requires i < |order.legs|
  {
    order.(status := ReceivedAtOrigin, riderId := None,
           log := if order.status == RiderAssigned then order.log + [LogCourierReleased] else order.log,
           legs := order.legs[i := order.legs[i].(status := Cancelled, ended := true)])
  }

  /** A leg that is requested or assigned has been cancelled and its order given on, to the
      provider it is sent to or else to the best one; any other leg has been left alone. */
  ghost predicate CancelledOn(s: State, s': State, o: OrderId, i: nat, routeTo: Option<ProviderKey>, env: RoutingEnv) {
    if HasLeg(s, o, i) && s.orders[o].legs[i].status in {Requested, Assigned} then
      var waiting := Uncarried(s.orders[o], i);
      && o in s'.orders && s' == s.(orders := s.orders[o := waiting.(legs := s'.orders[o].legs)])
      && match routeTo
         case None => GoesToBest(waiting, s'.orders[o].legs, env)
         case Some(key) => Added(waiting.legs, s'.orders[o].legs, if key in env.registered then routeTo else None)
    else s' == s
  }

  lemma CancelMeans(s: State, o: OrderId, i: nat, routeTo: Option<ProviderKey>, env: RoutingEnv)
    requires Inv(s)
    ensures CancelledOn(s, Next(s, Cancel(o, i, routeTo, env)), o, i, routeTo, env)
  {
    hide Inv, Next, Dispatch, GoesToBest;
    CancelUnfolds(s, o, i, routeTo, env);
    if HasLeg(s, o, i) && s.orders[o].legs[i].status in {Requested, Assigned} {
      LegIsCancelled(s, o, i);
      DispatchGoesToBest(Move(s, o, i, LegCancelled).value, o, routeTo, env);
      Overwrite(s.orders, o, Uncarried(s.orders[o], i), Next(s, Cancel(o, i, routeTo, env)).orders[o]);
    }
  }

  /** The cancelled leg is the order's last, so none is in progress any more. */
  lemma LegIsCancelled(s: State, o: OrderId, i: nat)
    requires Inv(s) && HasLeg(s, o, i) && s.orders[o].legs[i].status in {Requested, Assigned}
    ensures NextLegStatus(s.orders[o].legs[i].status, LegCancelled).Some?
    ensures Move(s, o, i, LegCancelled) == Success(s.(orders := s.orders[o := Uncarried(s.orders[o], i)]))
    ensures forall k :: 0 <= k < |s.orders[o].legs| ==> IsTerminal(Uncarried(s.orders[o], i).legs[k].status)
  {
    OnlyLastMovesIn(s, o, i, LegCancelled);
    About(s, o);
    hide Inv;
    LastIsCancelled(s.orders[o], s.splitRules);
    ListenerAccepts(s, o, LegCancelled);
    hide Move;
  }

  lemma LastIsCancelled(order: Order, rules: seq<SplitRule>)
    requires OrderOk(order, rules) && LegAccepts(order, LegCancelled)
    ensures AfterEvent(order, LegCancelled) == Uncarried(order, LastIndex(order)) && InStep(order)
    ensures forall k :: 0 <= k < |order.legs| ==> IsTerminal(Uncarried(order, LastIndex(order)).legs[k].status)
  {
  }

  // ----- Submission --------------------------------------------------------

  /** The leg waits to be submitted to a remote courier. */
  predicate ToSubmit(s: State, o: OrderId, i: nat) {
    HasLeg(s, o, i)
    && var leg := s.orders[o].legs[i];
    leg.status == Requested && leg.externalId.None? && leg.providerKey != InHouse
  }

  /** Acceptance notes the courier's id on the leg; a refusal ends the leg and gives the
      order to the best courier that is left; any other answer, or a leg that is not to be
      submitted, changes nothing. */
  lemma SubmitMeans(s: State, o: OrderId, i: nat, answer: SubmitReply, env: RoutingEnv)
    requires Inv(s)
    ensures var s' := Next(s, SubmitLeg(o, i, answer, env));
            if !ToSubmit(s, o, i) || answer == Retryable then s' == s
            else
              var order, leg := s.orders[o], s.orders[o].legs[i];
              match answer
              case Refused =>
                var ended := order.(legs := order.legs[i := leg.(status := Cancelled, ended := true)]);
                && o in s'.orders && s' == s.(orders := s.orders[o := order.(legs := s'.orders[o].legs)])
                && GoesToBest(ended, s'.orders[o].legs, env)
              case Accepted(externalId) =>
                s' == s.(orders := s.orders[o :=
                  order.(legs := order.legs[i := leg.(externalId := Some(externalId))])])
              case Retryable => true
  {
    if ToSubmit(s, o, i) && answer == Refused {
      var order, leg := s.orders[o], s.orders[o].legs[i];
      OnlyLastMovesIn(s, o, i, LegCancelled);
      About(s, o);
      hide Inv;
      LastIsCancelled(order, s.splitRules);
      hide OrderOk, AfterEvent, Dispatch, GoesToBest;
      var s1 := SetLeg(s, o, i, leg.(status := Cancelled, ended := true));
      assert s1.orders[o].legs == Uncarried(order, i).legs;
      DispatchGoesToBest(s1, o, None, env);
      Overwrite(s.orders, o, s1.orders[o], Dispatch(s1, o, None, env).orders[o]);
    }
  }

  // ----- Snapshots ---------------------------------------------------------

  /** Some path of events leads from one status to the other. */
  ghost predicate LeadsTo(from: LegStatus, to: LegStatus) {
    exists path :: LEG_TABLE.Reaches(from, path, to)
  }

  lemma CanGetMeans(from: LegStatus, to: LegStatus)
    ensures CanGet(from, to) <==> LeadsTo(from, to)
  {
    if CanGet(from, to) {
      CatchUpArrives(from, to);
    }
    if from != to && LeadsTo(from, to) {
      var path :| LEG_TABLE.Reaches(from, path, to);
      CatchUpIsShortest(from, path, to);
    }
  }

  /** A snapshot of another delivery, or one that is not newer than what the leg has, has
      changed nothing. One that says nothing new, or something out of reach, has left its
      number on the leg. Any other has put the leg at its status and the order, the shelf
      and the origin's counter where they belong with it; if that is Cancelled, the order
      has gone to the best courier that is left. */
  ghost predicate TakenIn(s: State, s': State, o: OrderId, i: nat, snapshot: Snapshot, env: RoutingEnv) {
    if !(HasLeg(s, o, i)
         && s.orders[o].legs[i].providerKey == snapshot.providerKey
         && s.orders[o].legs[i].externalId == Some(snapshot.externalId)
         && (snapshot.sequence.None? || s.orders[o].legs[i].providerSequence.None?
             || s.orders[o].legs[i].providerSequence.value < snapshot.sequence.value))
    then s' == s
    else
      var order, leg := s.orders[o], s.orders[o].legs[i];
      var noted := order.(legs := order.legs[i := leg.(providerSequence := snapshot.sequence)]);
      if leg.status == snapshot.status || !LeadsTo(leg.status, snapshot.status) then
        s' == s.(orders := s.orders[o := noted])
      else
        var moved := Standing(noted, snapshot.status);
        && o in s'.orders && s' == s.(nodes := s'.nodes, orders := s.orders[o := s'.orders[o]])
        && NodesFollow(s, s', order, s'.orders[o])
        && s'.orders[o].(log := [], legs := moved.legs) == moved
        && order.log <= s'.orders[o].log && ReplayLog(s'.orders[o].log) == Some(moved.status)
        && if snapshot.status == Cancelled then GoesToBest(moved, s'.orders[o].legs, env)
           else s'.orders[o].legs == moved.legs
  }

  lemma SyncMeans(s: State, o: OrderId, i: nat, snapshot: Snapshot, env: RoutingEnv)
    requires Inv(s)
    ensures TakenIn(s, Next(s, SyncLeg(o, i, snapshot, env)), o, i, snapshot, env)
  {
    hide Inv, CatchUp, Standing, LeadsTo, NodesFollow, GoesToBest;
    if HasLeg(s, o, i) && Matches(s.orders[o].legs[i], snapshot) && !Stale(s.orders[o].legs[i], snapshot) {
      var leg := s.orders[o].legs[i];
      CanGetMeans(leg.status, snapshot.status);
      if leg.status == snapshot.status || !LeadsTo(leg.status, snapshot.status) {
        NothingToCatchUp(leg.status);
      } else {
        SnapshotMoves(s, o, i, snapshot, env);
      }
    }
    hide SyncFromSnapshot;
  }

  lemma NothingToCatchUp(status: LegStatus)
    ensures CatchUp(status, status) == []
  {
  }

  lemma SnapshotMoves(s: State, o: OrderId, i: nat, snapshot: Snapshot, env: RoutingEnv)
    requires Inv(s) && HasLeg(s, o, i)
    requires Matches(s.orders[o].legs[i], snapshot) && !Stale(s.orders[o].legs[i], snapshot)
    requires CatchUp(s.orders[o].legs[i].status, snapshot.status) != []
    ensures TakenIn(s, Next(s, SyncLeg(o, i, snapshot, env)), o, i, snapshot, env)
  {
    hide Inv, Lands, Standing, NodesFollow, GoesToBest, LeadsTo, CatchUp, ReplayLog, Grows, TakenIn, Next,
         SyncFromSnapshot, Matches, Stale, NextLegStatus;
    var leg := s.orders[o].legs[i];
    CatchUpSteps(leg.status, snapshot.status);
    CatchUpUnfolds(leg.status, snapshot.status);
    OnlyLastMovesIn(s, o, i, CatchUp(leg.status, snapshot.status)[0]);
    MatchedIsExternal(s, o, i, snapshot);
    SnapshotLands(s, o, snapshot, env);
    SyncGrows(s, o, i, snapshot, env);
    SyncCommits(s, o, i, snapshot, env);
    var s' := Next(s, SyncLeg(o, i, snapshot, env));
    Landed(s, s', o, snapshot.status, snapshot.sequence, env);
    LogReplays(s', o);
    LogOnlyGrows(s, s', o);
    CanGetMeans(leg.status, snapshot.status);
    NothingToCatchUp(leg.status);
    LandingIsTaken(s, s', o, snapshot, env);
  }

  lemma SyncCommits(s: State, o: OrderId, i: nat, snapshot: Snapshot, env: RoutingEnv)
    ensures Next(s, SyncLeg(o, i, snapshot, env)) == Committed(s, SyncFromSnapshot(s, o, i, snapshot, env))
  {
    hide SyncFromSnapshot;
  }

  lemma LandingIsTaken(s: State, s': State, o: OrderId, snapshot: Snapshot, env: RoutingEnv)
    requires o in s.orders && s.orders[o].legs != []
    requires var leg := s.orders[o].legs[LastIndex(s.orders[o])];
             && Matches(leg, snapshot) && !Stale(leg, snapshot)
             && leg.status != snapshot.status && LeadsTo(leg.status, snapshot.status)
    requires o in s'.orders && s' == s.(nodes := s'.nodes, orders := s.orders[o := s'.orders[o]])
    requires NodesFollow(s, s', s.orders[o], s'.orders[o])
    requires s.orders[o].log <= s'.orders[o].log && ReplayLog(s'.orders[o].log) == Some(s'.orders[o].status)
    requires var moved := Standing(WithSequence(s.orders[o], snapshot.sequence), snapshot.status);
             && s'.orders[o].(log := [], legs := moved.legs) == moved
             && if snapshot.status == Cancelled then GoesToBest(moved, s'.orders[o].legs, env)
                else s'.orders[o].legs == moved.legs
    ensures TakenIn(s, s', o, LastIndex(s.orders[o]), snapshot, env)
  {
    hide Standing, NodesFollow, GoesToBest, LeadsTo, ReplayLog;
  }

  lemma LogReplays(s: State, o: OrderId)
    requires Inv(s) && o in s.orders
    ensures ReplayLog(s.orders[o].log) == Some(s.orders[o].status)
  {
    About(s, o);
  }

  lemma LogOnlyGrows(s: State, s': State, o: OrderId)
    requires Grows(s, s') && o in s.orders
    ensures o in s'.orders && s.orders[o].log <= s'.orders[o].log
  {
  }

  /** Where a leg lands, with its order routed on in the rows' own terms. */
  lemma Landed(s: State, s': State, o: OrderId, status: LegStatus, sequence: Option<int>, env: RoutingEnv)
    requires Lands(s, s', o, status, sequence, env)
    ensures var order := s.orders[o];
            var moved := Standing(WithSequence(order, sequence), status);
            && s' == s.(nodes := s'.nodes, orders := s.orders[o := s'.orders[o]])
            && NodesFollow(s, s', order, s'.orders[o])
            && s'.orders[o].(log := [], legs := moved.legs) == moved
            && if status == Cancelled then GoesToBest(moved, s'.orders[o].legs, env)
               else s'.orders[o].legs == moved.legs
  {
    var moved := Standing(WithSequence(s.orders[o], sequence), status);
    hide Standing, NodesFollow, ChooseFor;
    RoutingPicksBest(moved, env);
    hide IsBest;
    assert s'.orders[o].legs == Logless(s'.orders[o]).legs;
    if status == Cancelled {
      assert Added(moved.legs, s'.orders[o].legs, ChooseFor(moved, env));
    }
  }

  /** A leg is over exactly when no event applies to it any more; and a failed attempt, the
      one event that moves nothing, can only be made while the parcel is on its way. */
  lemma TerminalMeans(status: LegStatus)
    ensures IsTerminal(status) <==> forall event :: NextLegStatus(status, event).None?
    ensures NextLegStatus(status, AttemptFailed) == if status == PickedUp then Some(PickedUp) else None
    ensures forall event :: NextLegStatus(status, event) == Some(status) ==> event == AttemptFailed
  {
    if !IsTerminal(status) {
      assert exists event :: NextLegStatus(status, event).Some? by {
        assert NextLegStatus(Requested, CourierAssigned).Some? && NextLegStatus(Assigned, ParcelPickedUp).Some?;
        assert NextLegStatus(PickedUp, ParcelDelivered).Some? && NextLegStatus(Returning, ParcelReturned).Some?;
      }
    }
  }
}

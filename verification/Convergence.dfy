/** However a courier's snapshots are lost, repeated or reordered, the leg ends where
    the newest one says, and everything but the log is as if none had been missed. */
module Convergence {
  import opened Wrappers
  import opened DeliveryLeg
  import opened OrderRules
  import opened Routing
  import opened Model
  import opened DeliveryDispatch
  import opened DeliveryEvents
  import opened Invariants
  import opened LegProtocol
  import opened LegSteps
  import opened LegTransactions
  import opened RiderCounter
  import opened Runs

  // ----- What a courier can report -----------------------------------------

  /** The n-th thing a courier says about a delivery. */
  datatype Report = Report(status: LegStatus, sequence: int)

  /** `to` is one event further than `from`, or where `from` still is. */
  ghost predicate Follows(from: LegStatus, to: LegStatus) {
    (from == to && !IsTerminal(from)) || exists e :: NextLegStatus(from, e) == Some(to)
  }

  /** After the first `n` reports (none: the delivery has only been requested). */
  function StatusAt(history: seq<Report>, n: nat): LegStatus
    requires n <= |history|
  {
    if n == 0 then Requested else history[n - 1].status
  }

  function SequenceAt(history: seq<Report>, n: nat): Option<int>
    requires n <= |history|
  {
    if n == 0 then None else Some(history[n - 1].sequence)
  }

  /** The `j`-th report follows from the one before it. */
  ghost predicate ReportFollows(history: seq<Report>, j: nat)
    requires 0 < j <= |history|
  {
    Follows(StatusAt(history, j - 1), StatusAt(history, j))
  }

  /** A courier's own account of a delivery: a path through the leg graph, numbered
      upwards. */
  ghost predicate ProviderHistory(history: seq<Report>) {
    && (forall j {:trigger ReportFollows(history, j)} :: 0 < j <= |history| ==> ReportFollows(history, j))
    && (forall j, k :: 0 <= j < k < |history| ==> history[j].sequence < history[k].sequence)
  }

  predicate CanGet(from: LegStatus, to: LegStatus) {
    from == to || CatchUp(from, to) != []
  }

  lemma CanGetFurther(a: LegStatus, b: LegStatus, c: LegStatus)
    requires CanGet(a, b) && Follows(b, c)
    ensures CanGet(a, c)
  {
    if b != c {
      var e :| NextLegStatus(b, e) == Some(c);
    }
  }

  /** Whatever is reported later can still be reached. */
  lemma {:induction false} LaterIsReachable(history: seq<Report>, m: nat, n: nat)
    requires ProviderHistory(history) && m <= n <= |history|
    ensures CanGet(StatusAt(history, m), StatusAt(history, n))
    decreases n
  {
    if m < n {
      LaterIsReachable(history, m, n - 1);
      assert ReportFollows(history, n);
      hide ProviderHistory, Follows, StatusAt, CatchUp;
      CanGetFurther(StatusAt(history, m), StatusAt(history, n - 1), StatusAt(history, n));
    }
  }

  /** Only a delivery that has not ended has anything more to report. */
  lemma MoreToCome(history: seq<Report>, m: nat, n: nat)
    requires ProviderHistory(history) && m < n <= |history|
    ensures !IsTerminal(StatusAt(history, m))
  {
    assert ReportFollows(history, m + 1);
  }

  // ----- Where a leg lands -------------------------------------------------

  /** The status of an order whose external leg has just moved there. */
  function OrderFor(status: LegStatus): OrderStatus {
    match status
    case Requested => ReceivedAtOrigin
    case Assigned => RiderAssigned
    case PickedUp => InTransit
    case Delivered => ArrivedAtDestination
    case Returning => ReturnInTransit
    case Returned => ReturnedToOrigin
    case Cancelled => ReceivedAtOrigin
  }

  /** The parcel has not left its origin. */
  predicate AtOrigin(status: LegStatus) {
    status in {Requested, Assigned, Cancelled}
  }

  /** The order, log aside, once its latest leg stands at `status`. */
  function Standing(order: Order, status: LegStatus): Order
    requires order.legs != []
  {
    var leg := order.legs[LastIndex(order)];
    order.(status := OrderFor(status),
           riderId := None,
           shelf := if AtOrigin(status) then order.shelf else None,
           log := [],
           legs := order.legs[LastIndex(order) := leg.(status := status, ended := IsTerminal(status))])
  }

  function Logless(order: Order): Order {
    order.(log := [])
  }

  /** A cancelled leg's order has been routed again; any other is as it stands. */
  function Routed(order: Order, status: LegStatus, env: RoutingEnv): Order {
    if status == Cancelled && Destination(order, None, env).Some? then
      WithNewLeg(order, Destination(order, None, env).value)
    else order
  }

  function WithSequence(order: Order, sequence: Option<int>): Order
    requires order.legs != []
  {
    order.(legs := order.legs[LastIndex(order) := order.legs[LastIndex(order)].(providerSequence := sequence)])
  }

  /** `s'` is `s` with the latest leg of one order, and all that hangs on it, at
      `status`, and `sequence` noted on it; only the log is left open. */
  ghost predicate Lands(s: State, s': State, o: OrderId, status: LegStatus, sequence: Option<int>, env: RoutingEnv) {
    && o in s.orders && s.orders[o].legs != [] && o in s'.orders
    && s'.orders == s.orders[o := s'.orders[o]]
    && s'.riders == s.riders && s'.intents == s.intents
    && s'.paymentKeys == s.paymentKeys && s'.splitRules == s.splitRules
    && Logless(s'.orders[o]) == Routed(Standing(WithSequence(s.orders[o], sequence), status), status, env)
    && NodesFollow(s, s', s.orders[o], s'.orders[o])
  }

  /** The order's latest leg is an external courier's, somewhere under way. */
  predicate UnderWay(order: Order) {
    && order.legs != []
    && order.legs[LastIndex(order)].providerKey != InHouse
    && !IsTerminal(order.legs[LastIndex(order)].status)
  }

  lemma EventStands(order: Order, event: LegEvent)
    requires InStep(order) && LegsOk(order.legs) && Coupled(order) && ShelfOk(order)
    requires UnderWay(order) && LegAccepts(order, event) && event != AttemptFailed
    ensures Logless(AfterEvent(order, event)) == Standing(order, AfterEvent(order, event).legs[LastIndex(order)].status)
  {
    var leg := order.legs[LastIndex(order)];
    assert CourierOk(leg);
    assert leg.ended == IsTerminal(leg.status);
  }

  lemma StandingStill(order: Order)
    requires LegsOk(order.legs) && Coupled(order) && UnderWay(order) && ShelfOk(order)
    ensures Standing(order, order.legs[LastIndex(order)].status) == Logless(order)
  {
    var leg := order.legs[LastIndex(order)];
    assert CourierOk(leg);
    assert leg.ended == IsTerminal(leg.status);
    assert order.legs[LastIndex(order) := leg] == order.legs;
  }

  lemma MoveRiders(s: State, o: OrderId, event: LegEvent)
    requires o in s.orders && LegAccepts(s.orders[o], event) && InStep(s.orders[o])
    requires s.orders[o].legs[LastIndex(s.orders[o])].courierUserId.None?
    ensures Move(s, o, LastIndex(s.orders[o]), event).Success?
    ensures Move(s, o, LastIndex(s.orders[o]), event).value.riders == s.riders
  {
    var order := s.orders[o];
    ListenerAccepts(s, o, event);
    LegAfterEvent(order, event);
    CountersQuiet(s.(orders := s.orders[o := AfterEvent(order, event)]), order.originNodeId, event);
    hide Move, AfterEvent, CountersAfter, InStep;
  }

  /** A courier's event moves its leg and all that hangs on it, and nothing else. */
  lemma MoveLands(s: State, o: OrderId, event: LegEvent)
    requires Inv(s) && o in s.orders && UnderWay(s.orders[o])
    requires LegAccepts(s.orders[o], event) && event != AttemptFailed
    ensures Move(s, o, LastIndex(s.orders[o]), event).Success?
    ensures var s' := Move(s, o, LastIndex(s.orders[o]), event).value;
            && Inv(s') && o in s'.orders && s'.orders[o] == AfterEvent(s.orders[o], event)
            && Logless(s'.orders[o]) ==
              Standing(s.orders[o], AfterEvent(s.orders[o], event).legs[LastIndex(s.orders[o])].status)
            && s'.orders == s.orders[o := s'.orders[o]] && s'.riders == s.riders && s'.intents == s.intents
            && s'.paymentKeys == s.paymentKeys && s'.splitRules == s.splitRules
            && NodesFollow(s, s', s.orders[o], s'.orders[o])
  {
    EventKeepsInv(s, o, event);
    About(s, o);
    ExternalHasNoCourier(s, o, LastIndex(s.orders[o]));
    hide Inv;
    EventStands(s.orders[o], event);
    MoveRiders(s, o, event);
  }

  lemma FollowsOn(s: State, s1: State, s2: State, before: Order, between: Order, after: Order)
    requires NodesFollow(s, s1, before, between) && NodesFollow(s1, s2, between, after)
    ensures NodesFollow(s, s2, before, after)
  {
  }

  /** The log plays no part in where an order stands or is routed. */
  lemma LogPlaysNoPart(order: Order, status: LegStatus, sequence: Option<int>, env: RoutingEnv)
    requires order.legs != []
    ensures Standing(WithSequence(Logless(order), sequence), status) == Standing(WithSequence(order, sequence), status)
    ensures Destination(Logless(order), None, env) == Destination(order, None, env)
  {
    assert Logless(order).legs == order.legs;
  }

  lemma StandingWithSequence(order: Order, there: LegStatus, seq1: Option<int>, further: LegStatus, seq2: Option<int>)
    requires order.legs != [] && CanGet(there, further)
    ensures Standing(WithSequence(Standing(WithSequence(order, seq1), there), seq2), further) ==
            Standing(WithSequence(order, seq2), further)
  {
  }

  /** To land somewhere and then further on is to land further on. */
  lemma LandsFurther(s: State, s1: State, s': State, o: OrderId, there: LegStatus, seq1: Option<int>,
                     further: LegStatus, seq2: Option<int>, env: RoutingEnv)
    requires Lands(s, s1, o, there, seq1, env) && Lands(s1, s', o, further, seq2, env)
    requires !IsTerminal(there) && CanGet(there, further)
    ensures Lands(s, s', o, further, seq2, env)
  {
    var order, between := s.orders[o], s1.orders[o];
    StandingWithSequence(order, there, seq1, further, seq2);
    LogPlaysNoPart(between, further, seq2, env);
    FollowsOn(s, s1, s', order, between, s'.orders[o]);
    Overwrite(s.orders, o, between, s'.orders[o]);
    hide NodesFollow, Standing, WithSequence, Routed;
  }

  /** A leg that stays where it is lands there. */
  lemma LandsHere(s: State, o: OrderId, env: RoutingEnv)
    requires Inv(s) && o in s.orders && UnderWay(s.orders[o])
    ensures var leg := s.orders[o].legs[LastIndex(s.orders[o])];
            Lands(s, s, o, leg.status, leg.providerSequence, env)
  {
    About(s, o);
    var order := s.orders[o];
    StandingStill(order);
    assert WithSequence(order, order.legs[LastIndex(order)].providerSequence) == order;
    assert s.orders[o := order] == s.orders;
    SameHoldFollows(s, order, order);
  }

  /** Noting a sequence number on the leg changes nothing else. */
  lemma NoteLands(s: State, o: OrderId, sequence: Option<int>, env: RoutingEnv)
    requires Inv(s) && o in s.orders && UnderWay(s.orders[o])
    ensures var order := s.orders[o];
            var noted := SetLeg(s, o, LastIndex(order), order.legs[LastIndex(order)].(providerSequence := sequence));
            && Inv(noted) && UnderWay(noted.orders[o])
            && Lands(s, noted, o, order.legs[LastIndex(order)].status, sequence, env)
  {
    About(s, o);
    var order := s.orders[o];
    NoteOnLegKeepsInv(s, o, LastIndex(order), order.legs[LastIndex(order)].externalId, sequence);
    var noted := SetLeg(s, o, LastIndex(order), order.legs[LastIndex(order)].(providerSequence := sequence));
    LandsHere(noted, o, env);
    SameHoldFollows(s, order, noted.orders[o]);
  }

  /** Routing an order again, once its cancelled leg stands, lands it there. */
  lemma RoutingLands(s: State, s1: State, o: OrderId, env: RoutingEnv)
    requires o in s.orders && s.orders[o].legs != [] && o in s1.orders
    requires s1.orders == s.orders[o := s1.orders[o]] && s1.riders == s.riders && s1.intents == s.intents
    requires s1.paymentKeys == s.paymentKeys && s1.splitRules == s.splitRules
    requires Logless(s1.orders[o]) == Standing(s.orders[o], Cancelled) && ActiveLeg(s1.orders[o].legs).None?
    requires NodesFollow(s, s1, s.orders[o], s1.orders[o])
    ensures Lands(s, Dispatch(s1, o, None, env), o, Cancelled,
                  s.orders[o].legs[LastIndex(s.orders[o])].providerSequence, env)
  {
    var order, after := s.orders[o], s1.orders[o];
    assert WithSequence(order, order.legs[LastIndex(order)].providerSequence) == order;
    assert after.legs == Logless(after).legs;
    RoutedAgain(s1, o, env);
    LogPlaysNoPart(after, Cancelled, None, env);
    var s' := Dispatch(s1, o, None, env);
    SameHoldFollows(s1, after, s'.orders[o]);
    FollowsOn(s, s1, s', order, after, s'.orders[o]);
    Overwrite(s.orders, o, after, s'.orders[o]);
    hide NodesFollow, Standing, Dispatch, Destination, WithSequence, ActiveLeg;
  }

  /** A cancelled leg's order is routed again from where it stands. */
  lemma CancelLands(s: State, o: OrderId, env: RoutingEnv)
    requires Inv(s) && o in s.orders && UnderWay(s.orders[o]) && LegAccepts(s.orders[o], LegCancelled)
    ensures var i := LastIndex(s.orders[o]);
            && Apply(s, o, i, LegCancelled, None, env).Success?
            && Lands(s, Apply(s, o, i, LegCancelled, None, env).value, o, Cancelled,
                     s.orders[o].legs[i].providerSequence, env)
  {
    var i := LastIndex(s.orders[o]);
    MoveLands(s, o, LegCancelled);
    LegAfterEvent(s.orders[o], LegCancelled);
    var s1 := Move(s, o, i, LegCancelled).value;
    hide Inv, Lands, Move, AfterEvent, Standing, NodesFollow;
    NothingActive(s1, o);
    RoutingLands(s, s1, o, env);
    hide Dispatch;
  }

  lemma RoutedAgain(s: State, o: OrderId, env: RoutingEnv)
    requires o in s.orders && ActiveLeg(s.orders[o].legs).None?
    ensures var s' := Dispatch(s, o, None, env);
            s' == s.(orders := s.orders[o := Routed(s.orders[o], Cancelled, env)])
  {
    assert s.orders[o := s.orders[o]] == s.orders;
  }

  /** Catching up passes through no end but its own, and over failed attempts. */
  lemma CatchUpSteps(from: LegStatus, to: LegStatus)
    requires CatchUp(from, to) != []
    ensures !IsTerminal(from) && CatchUp(from, to)[0] != AttemptFailed
    ensures CatchUp(from, to)[0] == LegCancelled ==> CatchUp(from, to) == [LegCancelled] && to == Cancelled
    ensures |CatchUp(from, to)| > 1 ==> !IsTerminal(NextLegStatus(from, CatchUp(from, to)[0]).value)
  {
  }

  /** Replaying what a leg has missed lands it where the courier says. */
  lemma {:induction false} CatchUpLands(s: State, o: OrderId, target: LegStatus, env: RoutingEnv)
    requires Inv(s) && o in s.orders && UnderWay(s.orders[o])
    requires CanGet(s.orders[o].legs[LastIndex(s.orders[o])].status, target)
    ensures var order := s.orders[o];
            var result := ApplyAll(s, o, LastIndex(order), CatchUp(order.legs[LastIndex(order)].status, target), env);
            && result.Success? && Inv(result.value)
            && Lands(s, result.value, o, target, order.legs[LastIndex(order)].providerSequence, env)
    decreases |CatchUp(s.orders[o].legs[LastIndex(s.orders[o])].status, target)|
  {
    hide Inv, Lands, Apply, CatchUp, NextLegStatus;
    var order := s.orders[o];
    var i, leg := LastIndex(order), order.legs[LastIndex(order)];
    var steps := CatchUp(leg.status, target);
    CatchUpKeepsInv(s, o, i, target, env);
    if steps == [] {
      LandsHere(s, o, env);
    } else if steps[0] == LegCancelled {
      CatchUpUnfolds(leg.status, target);
      CatchUpSteps(leg.status, target);
      CancelLands(s, o, env);
    } else {
      CatchUpUnfolds(leg.status, target);
      CatchUpSteps(leg.status, target);
      EventLands(s, o, steps[0], env);
      var s1 := Apply(s, o, i, steps[0], None, env).value;
      var next := NextLegStatus(leg.status, steps[0]).value;
      if steps[1..] != [] {
        CatchUpLands(s1, o, target, env);
        LandsFurther(s, s1, ApplyAll(s1, o, i, steps[1..], env).value, o, next, leg.providerSequence,
                     target, leg.providerSequence, env);
      }
    }
  }

  /** One event, other than a cancellation, lands the leg one further. */
  lemma EventLands(s: State, o: OrderId, event: LegEvent, env: RoutingEnv)
    requires Inv(s) && o in s.orders && UnderWay(s.orders[o])
    requires LegAccepts(s.orders[o], event) && event != AttemptFailed && event != LegCancelled
    ensures var i := LastIndex(s.orders[o]);
            var leg := s.orders[o].legs[i];
            var result := Apply(s, o, i, event, None, env);
            && result.Success? && Inv(result.value) && HasLeg(result.value, o, i)
            && i == LastIndex(result.value.orders[o])
            && result.value.orders[o].legs[i] == Moved(leg, event, NextLegStatus(leg.status, event).value)
            && Lands(s, result.value, o, NextLegStatus(leg.status, event).value, leg.providerSequence, env)
  {
    var order := s.orders[o];
    MoveLands(s, o, event);
    LegAfterEvent(order, event);
    assert WithSequence(order, order.legs[LastIndex(order)].providerSequence) == order;
    hide Inv, NodesFollow, Standing, Move;
  }

  /** A fresh snapshot lands the leg where it says. */
  lemma SnapshotLands(s: State, o: OrderId, snapshot: Snapshot, env: RoutingEnv)
    requires Inv(s) && o in s.orders && UnderWay(s.orders[o])
    requires var leg := s.orders[o].legs[LastIndex(s.orders[o])];
             Matches(leg, snapshot) && !Stale(leg, snapshot) && CanGet(leg.status, snapshot.status)
    ensures var result := SyncFromSnapshot(s, o, LastIndex(s.orders[o]), snapshot, env);
            && result.Success? && Inv(result.value)
            && Lands(s, result.value, o, snapshot.status, snapshot.sequence, env)
  {
    hide Inv, Lands;
    var order := s.orders[o];
    var i, leg := LastIndex(order), order.legs[LastIndex(order)];
    var noted := SetLeg(s, o, i, leg.(providerSequence := snapshot.sequence));
    NoteLands(s, o, snapshot.sequence, env);
    CatchUpLands(noted, o, snapshot.status, env);
    LandsFurther(s, noted, SyncFromSnapshot(s, o, i, snapshot, env).value, o, leg.status, snapshot.sequence,
                 snapshot.status, snapshot.sequence, env);
  }

  // ----- Deliveries, in any order ------------------------------------------

  /** The courier and its id for the delivery of an order's latest leg. */
  predicate SubmittedAs(order: Order, key: ProviderKey, externalId: nat) {
    && order.legs != []
    && var leg := order.legs[LastIndex(order)];
    key != InHouse && leg.providerKey == key && leg.externalId == Some(externalId)
    && leg.status == Requested && leg.providerSequence.None?
  }

  /** The `n`-th report, as a webhook or a poll delivers it. */
  function Delivery(o: OrderId, i: nat, key: ProviderKey, externalId: nat, history: seq<Report>, n: nat,
                    env: RoutingEnv): Step
    requires n <= |history|
  {
    SyncLeg(o, i, Snapshot(key, externalId, StatusAt(history, n), SequenceAt(history, n)), env)
  }

  predicate Within(deliveries: seq<nat>, history: seq<Report>) {
    forall d :: d in deliveries ==> 1 <= d <= |history|
  }

  /** Some of the reports, in any order, any of them more than once. */
  function Deliveries(o: OrderId, i: nat, key: ProviderKey, externalId: nat, history: seq<Report>,
                      deliveries: seq<nat>, env: RoutingEnv): seq<Step>
    requires Within(deliveries, history)
  {
    if deliveries == [] then []
    else
      assert deliveries[0] in deliveries && forall d :: d in deliveries[1..] ==> d in deliveries;
      [Delivery(o, i, key, externalId, history, deliveries[0], env)]
      + Deliveries(o, i, key, externalId, history, deliveries[1..], env)
  }

  function Max(a: nat, b: nat): nat {
    if a < b then b else a
  }

  /** The newest of the reports delivered, 0 for none. */
  function Newest(deliveries: seq<nat>): nat {
    if deliveries == [] then 0 else Max(deliveries[0], Newest(deliveries[1..]))
  }

  lemma NewestIsWithin(deliveries: seq<nat>, history: seq<Report>)
    requires Within(deliveries, history)
    ensures Newest(deliveries) <= |history|
  {
    if deliveries != [] {
      assert deliveries[0] in deliveries && forall d :: d in deliveries[1..] ==> d in deliveries;
      NewestIsWithin(deliveries[1..], history);
    }
  }

  /** What landing leaves on the leg itself. */
  lemma LandedLeg(s: State, x: State, o: OrderId, status: LegStatus, sequence: Option<int>, env: RoutingEnv)
    requires Lands(s, x, o, status, sequence, env)
    ensures var i := LastIndex(s.orders[o]);
            && HasLeg(x, o, i)
            && x.orders[o].legs[i] ==
              s.orders[o].legs[i].(status := status, ended := IsTerminal(status), providerSequence := sequence)
            && (status != Cancelled ==> i == LastIndex(x.orders[o]))
  {
    assert x.orders[o].legs == Logless(x.orders[o]).legs;
  }

  /** One more delivery, early, late or repeated: the leg is where the newest report
      delivered so far says. */
  lemma DeliveryLands(s: State, x: State, o: OrderId, key: ProviderKey, externalId: nat,
                      history: seq<Report>, n: nat, d: nat, env: RoutingEnv)
    requires Inv(s) && o in s.orders && SubmittedAs(s.orders[o], key, externalId) && ProviderHistory(history)
    requires n <= |history| && 1 <= d <= |history|
    requires Inv(x) && Lands(s, x, o, StatusAt(history, n), SequenceAt(history, n), env)
    ensures var x' := Next(x, Delivery(o, LastIndex(s.orders[o]), key, externalId, history, d, env));
            var newest := Max(n, d);
            Inv(x') && Lands(s, x', o, StatusAt(history, newest), SequenceAt(history, newest), env)
  {
    hide Inv, Lands, SyncFromSnapshot, CatchUp;
    LandedLeg(s, x, o, StatusAt(history, n), SequenceAt(history, n), env);
    if n < d {
      MoreToCome(history, n, d);
      LaterIsReachable(history, n, d);
      SnapshotLands(x, o, Snapshot(key, externalId, StatusAt(history, d), SequenceAt(history, d)), env);
      var x' := Next(x, Delivery(o, LastIndex(s.orders[o]), key, externalId, history, d, env));
      LandsFurther(s, x, x', o, StatusAt(history, n), SequenceAt(history, n),
                   StatusAt(history, d), SequenceAt(history, d), env);
    } else {
      assert d == n || history[d - 1].sequence < history[n - 1].sequence;
      StaleStays(x, o, LastIndex(s.orders[o]), Snapshot(key, externalId, StatusAt(history, d), SequenceAt(history, d)),
                 env);
    }
  }

  lemma StaleStays(s: State, o: OrderId, i: nat, snapshot: Snapshot, env: RoutingEnv)
    requires HasLeg(s, o, i) && Stale(s.orders[o].legs[i], snapshot)
    ensures SyncFromSnapshot(s, o, i, snapshot, env) == Success(s)
  {
  }

  lemma {:induction false} DeliveriesLand(s: State, x: State, o: OrderId, key: ProviderKey, externalId: nat,
                                          history: seq<Report>, n: nat, deliveries: seq<nat>, env: RoutingEnv)
    requires Inv(s) && o in s.orders && SubmittedAs(s.orders[o], key, externalId) && ProviderHistory(history)
    requires n <= |history| && Within(deliveries, history)
    requires Inv(x) && Lands(s, x, o, StatusAt(history, n), SequenceAt(history, n), env)
    ensures Newest(deliveries) <= |history|
    ensures var x' := Run(x, Deliveries(o, LastIndex(s.orders[o]), key, externalId, history, deliveries, env));
            var newest := Max(n, Newest(deliveries));
            Lands(s, x', o, StatusAt(history, newest), SequenceAt(history, newest), env)
    decreases |deliveries|
  {
    hide Inv, Lands, Next, ProviderHistory;
    NewestIsWithin(deliveries, history);
    if deliveries != [] {
      assert deliveries[0] in deliveries && forall d :: d in deliveries[1..] ==> d in deliveries;
      var i, d := LastIndex(s.orders[o]), deliveries[0];
      var first := Delivery(o, i, key, externalId, history, d, env);
      var rest := Deliveries(o, i, key, externalId, history, deliveries[1..], env);
      DeliveryLands(s, x, o, key, externalId, history, n, d, env);
      DeliveriesLand(s, Next(x, first), o, key, externalId, history, Max(n, d), deliveries[1..], env);
      assert ([first] + rest)[1..] == rest;
    }
  }

  /** The same tables, but for what one order's log says. */
  ghost predicate SameButLog(x: State, y: State, o: OrderId) {
    && o in x.orders && o in y.orders
    && Logless(x.orders[o]) == Logless(y.orders[o])
    && y == x.(orders := x.orders[o := y.orders[o]])
  }

  /** Where a leg lands decides everything but the log. */
  lemma LandingDecides(s: State, x: State, y: State, o: OrderId, status: LegStatus, sequence: Option<int>,
                       env: RoutingEnv)
    requires Lands(s, x, o, status, sequence, env) && Lands(s, y, o, status, sequence, env)
    ensures SameButLog(x, y, o)
  {
    assert x.orders[o := y.orders[o]] == y.orders;
    assert forall n :: HeldAt(n)(x.orders[o]) == HeldAt(n)(Logless(x.orders[o])) == HeldAt(n)(y.orders[o]);
    assert x.nodes == y.nodes by {
      assert forall n :: n in s.nodes ==> x.nodes[n] == NodeRow(x.nodes[n].capacity, x.nodes[n].currentCount);
    }
    hide Routed, Standing, WithSequence;
  }

  /** However a courier's snapshots are lost, repeated or reordered, the leg ends at the
      status of the newest one delivered, and the order, the shelves and every counter
      are exactly as if every report up to that one had been delivered in its turn. */
  lemma DeliveriesConverge(s: State, o: OrderId, key: ProviderKey, externalId: nat, history: seq<Report>,
                           deliveries: seq<nat>, complete: seq<nat>, env: RoutingEnv)
    requires Inv(s) && o in s.orders && SubmittedAs(s.orders[o], key, externalId) && ProviderHistory(history)
    requires Within(deliveries, history)
    requires |complete| == Newest(deliveries) && forall k :: 0 <= k < |complete| ==> complete[k] == k + 1
    ensures Newest(deliveries) <= |history| && Within(complete, history)
    ensures var i := LastIndex(s.orders[o]);
            var x := Run(s, Deliveries(o, i, key, externalId, history, deliveries, env));
            && HasLeg(x, o, i)
            && x.orders[o].legs[i].status == StatusAt(history, Newest(deliveries))
            && x.orders[o].legs[i].providerSequence == SequenceAt(history, Newest(deliveries))
            && SameButLog(x, Run(s, Deliveries(o, i, key, externalId, history, complete, env)), o)
  {
    var i, n := LastIndex(s.orders[o]), Newest(deliveries);
    NewestIsWithin(deliveries, history);
    NewestOfComplete(complete);
    LandsHere(s, o, env);
    hide Inv, Lands, ProviderHistory;
    DeliveriesLand(s, s, o, key, externalId, history, 0, deliveries, env);
    DeliveriesLand(s, s, o, key, externalId, history, 0, complete, env);
    var x := Run(s, Deliveries(o, i, key, externalId, history, deliveries, env));
    var y := Run(s, Deliveries(o, i, key, externalId, history, complete, env));
    LandedLeg(s, x, o, StatusAt(history, n), SequenceAt(history, n), env);
    LandingDecides(s, x, y, o, StatusAt(history, n), SequenceAt(history, n), env);
  }

  lemma {:induction false} NewestUpTo(complete: seq<nat>, from: nat)
    requires forall k :: 0 <= k < |complete| ==> complete[k] == from + k + 1
    ensures Newest(complete) == if complete == [] then 0 else from + |complete|
    decreases |complete|
  {
    if complete != [] {
      NewestUpTo(complete[1..], from + 1);
    }
  }

  lemma NewestOfComplete(complete: seq<nat>)
    requires forall k :: 0 <= k < |complete| ==> complete[k] == k + 1
    ensures Newest(complete) == |complete|
  {
    NewestUpTo(complete, 0);
  }
}

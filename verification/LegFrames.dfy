/** What each step does to the legs of every order: at most one row is touched, at
    most one is added, and routing decides which. */
module LegFrames {
  import opened Wrappers
  import opened DeliveryLeg
  import opened OrderRules
  import opened Routing
  import opened HandoffCodes
  import opened Model
  import opened DeliveryDispatch
  import opened DeliveryEvents
  import opened Handoffs
  import opened Invariants
  import opened LegProtocol
  import opened LegSteps
  import opened LegTransactions
  import opened InHouseSteps
  import opened Growth
  import opened Runs

  /** Every row but the `j`-th is kept, and that one keeps its courier. */
  ghost predicate Kept(before: seq<Leg>, after: seq<Leg>, j: int) {
    && |before| <= |after|
    && (forall i :: 0 <= i < |before| && i != j ==> after[i] == before[i])
    && (0 <= j < |before| ==> after[j].providerKey == before[j].providerKey)
  }

  /** Room for another attempt, by the courier's own row in `configs`. */
  ghost predicate HasAttemptLeft(legs: seq<Leg>, key: ProviderKey, configs: seq<ProviderConfig>) {
    exists c :: c in configs && c.key == key && Attempts(legs, key) < c.maxAttempts
  }

  /** At most one leg is added: an in-house one, or one its courier had room for. */
  ghost predicate Appended(before: seq<Leg>, after: seq<Leg>, configs: seq<ProviderConfig>) {
    |after| == |before|
    || (&& |after| == |before| + 1
        && after[|before|].status in {Requested, Assigned}
        && (after[|before|].providerKey == InHouse || HasAttemptLeft(before, after[|before|].providerKey, configs)))
  }

  /** The routing environment a step runs in, if it may route. */
  function EnvOf(step: Step): Option<RoutingEnv> {
    match step
    case DropOff(_, env) => Some(env)
    case SubmitLeg(_, _, _, env) => Some(env)
    case SyncLeg(_, _, _, env) => Some(env)
    case Cancel(_, _, _, env) => Some(env)
    case _ => None
  }

  /** The step routes by these provider rows; a cancellation may force the in-house
      pool, which is all that any service ever forces. */
  predicate RoutesBy(step: Step, configs: seq<ProviderConfig>) {
    && (EnvOf(step).Some? ==> EnvOf(step).value.configs == configs)
    && (step.Cancel? ==> step.routeTo in {None, Some(InHouse)})
  }

  /** The seeded in-house row: enabled, registered, everywhere, at any distance, with
      an attempt to give, for bicycles, motorbikes and cars. */
  predicate SeededRow(config: ProviderConfig) {
    && config.key == InHouse && config.enabled && config.maxAttempts >= 1
    && config.pilotNodeIds.None? && config.minDistanceKm.None? && config.maxDistanceKm.None?
    && config.vehicleClasses == [Bicycle, Motorbike, Car]
  }

  ghost predicate SeededInHouse(env: RoutingEnv) {
    InHouse in env.registered && exists c :: c in env.configs && SeededRow(c)
  }

  predicate InHouseCarries(order: Order) {
    order.vehicleClass in {None, Some(Bicycle), Some(Motorbike), Some(Car)}
  }

  /** The attempts an order has had with a courier are counted by its legs' keys. */
  lemma {:induction false} AttemptsByKeys(a: seq<Leg>, b: seq<Leg>, key: ProviderKey)
    requires |a| == |b| && forall i :: 0 <= i < |a| ==> a[i].providerKey == b[i].providerKey
    ensures Attempts(a, key) == Attempts(b, key)
  {
    if a != [] {
      AttemptsByKeys(a[..|a| - 1], b[..|b| - 1], key);
    }
  }

  lemma {:induction false} NoAttempts(legs: seq<Leg>, key: ProviderKey)
    requires forall i :: 0 <= i < |legs| ==> legs[i].providerKey != key
    ensures Attempts(legs, key) == 0
  {
    if legs != [] {
      NoAttempts(legs[..|legs| - 1], key);
    }
  }

  /** A courier that routing picks has an attempt left. */
  lemma ChosenHasAttempt(order: Order, env: RoutingEnv)
    requires ChooseFor(order, env).Some?
    ensures HasAttemptLeft(order.legs, ChooseFor(order, env).value, env.configs)
  {
    ChooseProviderIsLeast(env.configs, env.registered, ContextOf(order, env));
    var best := ChooseProvider(env.configs, env.registered, ContextOf(order, env)).value;
    assert best in env.configs && Attempts(order.legs, best.key) < best.maxAttempts;
  }

  /** The in-house pool can always be chosen for a parcel it carries. */
  lemma PoolIsChosen(order: Order, env: RoutingEnv)
    requires SeededInHouse(env) && InHouseCarries(order) && Attempts(order.legs, InHouse) == 0
    ensures ChooseFor(order, env).Some?
  {
    ChooseProviderIsLeast(env.configs, env.registered, ContextOf(order, env));
    var c :| c in env.configs && SeededRow(c);
    assert Eligible(c, env.registered, ContextOf(order, env));
  }

  lemma DispatchLegs(s: State, o: OrderId, force: Option<ProviderKey>, env: RoutingEnv)
    requires o in s.orders && force in {None, Some(InHouse)}
    ensures var s', order := Dispatch(s, o, force, env), s.orders[o];
            && o in s'.orders && s'.orders == s.orders[o := s'.orders[o]]
            && s'.orders[o] == order.(legs := s'.orders[o].legs)
            && Kept(order.legs, s'.orders[o].legs, -1)
            && Appended(order.legs, s'.orders[o].legs, env.configs)
            && ((ActiveLeg(order.legs).None? && SeededInHouse(env) && InHouseCarries(order)
                 && Attempts(order.legs, InHouse) == 0) ==>
                  |s'.orders[o].legs| == |order.legs| + 1)
  {
    var order := s.orders[o];
    assert s.orders[o := order] == s.orders;
    if ChooseFor(order, env).Some? {
      ChosenHasAttempt(order, env);
    }
    if SeededInHouse(env) && InHouseCarries(order) && Attempts(order.legs, InHouse) == 0 {
      PoolIsChosen(order, env);
    }
    hide ChooseFor, SeededInHouse, HasAttemptLeft, ActiveLeg;
  }

  // ----- One step ----------------------------------------------------------

  /** The order is never left without a leg to carry it: its latest leg has not been
      cancelled, and it has one as soon as it has been dropped off. In-house legs are
      never cancelled. */
  ghost predicate Covered(order: Order) {
    && InHouseStands(order)
    && (order.legs == [] ==> order.status == AwaitingDropOff)
    && (order.legs != [] ==> order.legs[|order.legs| - 1].status != Cancelled)
  }

  ghost predicate InHouseStands(order: Order) {
    forall i :: 0 <= i < |order.legs| && order.legs[i].providerKey == InHouse ==> order.legs[i].status != Cancelled
  }

  /** Whether a step leaves in-house legs uncancelled, and whether it can fall back on
      the in-house pool. */
  datatype Fallback = Fallback(stands: bool, seeded: bool)

  /** How a step leaves an order: one leg row touched, at most one added; and covered,
      if it was and the in-house pool is there to fall back on. */
  ghost predicate LegsAfter(before: Order, after: Order, j: int, configs: seq<ProviderConfig>, fallback: Fallback) {
    && Kept(before.legs, after.legs, j)
    && Appended(before.legs, after.legs, configs)
    && after.vehicleClass == before.vehicleClass
    && (fallback.stands && InHouseStands(before) ==> InHouseStands(after))
    && (fallback.stands && fallback.seeded && InHouseCarries(before) && Covered(before) ==> Covered(after))
  }

  lemma SameLegs(before: Order, after: Order, j: int, configs: seq<ProviderConfig>, fallback: Fallback)
    requires after.legs == before.legs && after.vehicleClass == before.vehicleClass
    requires before.status == AwaitingDropOff && before.legs == [] ==> after.status == AwaitingDropOff
    ensures LegsAfter(before, after, j, configs, fallback)
  {
  }

  /** An event on the latest leg, other than its cancellation. */
  lemma EventLegs(before: Order, event: LegEvent, configs: seq<ProviderConfig>, fallback: Fallback)
    requires LegAccepts(before, event) && event != LegCancelled
    ensures LegsAfter(before, AfterEvent(before, event), LastIndex(before), configs, fallback)
  {
  }

  /** Once its latest leg is cancelled, a covered order has had no in-house leg. */
  lemma NoInHouseYet(order: Order)
    requires LegsOk(order.legs) && order.legs != [] && InHouseStands(order)
    requires order.legs[|order.legs| - 1].providerKey != InHouse
    ensures Attempts(order.legs, InHouse) == 0
  {
    var legs := order.legs;
    forall i | 0 <= i < |legs|
      ensures legs[i].providerKey != InHouse
    {
      assert i < |legs| - 1 ==> legs[i].status == Cancelled;
    }
    hide LegsOk;
    NoAttempts(legs, InHouse);
  }

  /** The latest, external leg is cancelled and the order routed again. */
  lemma CancelledLegs(before: Order, s: State, o: OrderId, force: Option<ProviderKey>, env: RoutingEnv)
    requires before.legs != [] && LegsOk(before.legs) && o in s.orders && force in {None, Some(InHouse)}
    requires var last := LastIndex(before);
             s.orders[o].legs == before.legs[last := before.legs[last].(status := Cancelled, ended := true)]
             || s.orders[o].legs == before.legs[last := Moved(before.legs[last], LegCancelled, Cancelled)]
    requires s.orders[o].vehicleClass == before.vehicleClass && ActiveLeg(s.orders[o].legs).None?
    ensures LegsAfter(before, Dispatch(s, o, force, env).orders[o], LastIndex(before), env.configs,
                      Fallback(before.legs[LastIndex(before)].providerKey != InHouse, SeededInHouse(env)))
  {
    hide SeededInHouse, Dispatch, ActiveLeg, Attempts, LegsOk;
    var order := s.orders[o];
    DispatchLegs(s, o, force, env);
    forall key {
      AttemptsByKeys(before.legs, order.legs, key);
    }
    var after := Dispatch(s, o, force, env).orders[o];
    if SeededInHouse(env) && before.legs[LastIndex(before)].providerKey != InHouse && Covered(before) {
      NoInHouseYet(before);
      assert InHouseCarries(before) ==> |after.legs| == |before.legs| + 1;
    }
  }

  /** One step on all orders: only `o` changes, and only leg `j` of it. */
  ghost predicate Frames(s: State, s': State, o: OrderId, j: int, configs: seq<ProviderConfig>, fallback: Fallback) {
    && s.orders.Keys <= s'.orders.Keys
    && (forall p {:trigger s'.orders[p]} :: p in s.orders && p != o ==> s'.orders[p] == s.orders[p])
    && (o in s.orders ==> LegsAfter(s.orders[o], s'.orders[o], j, configs, fallback))
    && (forall p {:trigger s'.orders[p]} :: p in s'.orders && p !in s.orders ==>
          s'.orders[p].legs == [] && s'.orders[p].status == AwaitingDropOff)
  }

  lemma NothingFrames(s: State, s': State, o: OrderId, j: int, configs: seq<ProviderConfig>, fallback: Fallback)
    requires s'.orders == s.orders
    ensures Frames(s, s', o, j, configs, fallback)
  {
  }

  lemma OneFrames(s: State, s': State, o: OrderId, j: int, configs: seq<ProviderConfig>, fallback: Fallback)
    requires o in s.orders && o in s'.orders && s'.orders == s.orders[o := s'.orders[o]]
    requires LegsAfter(s.orders[o], s'.orders[o], j, configs, fallback)
    ensures Frames(s, s', o, j, configs, fallback)
  {
    hide LegsAfter;
  }

  /** A move that adds no leg, then one that may. */
  lemma LegsAfterTwo(a: Order, b: Order, c: Order, j: int, configs: seq<ProviderConfig>, fallback: Fallback)
    requires LegsAfter(a, b, j, configs, fallback) && |b.legs| == |a.legs| && LegsAfter(b, c, j, configs, fallback)
    ensures LegsAfter(a, c, j, configs, fallback)
  {
    forall key {
      AttemptsByKeys(a.legs, b.legs, key);
    }
    hide Covered, Attempts;
  }

  lemma FramesTwo(s: State, s1: State, s': State, o: OrderId, j: int, configs: seq<ProviderConfig>, fallback: Fallback)
    requires Frames(s, s1, o, j, configs, fallback) && Frames(s1, s', o, j, configs, fallback)
    requires o in s.orders && |s1.orders[o].legs| == |s.orders[o].legs| && s1.orders.Keys == s.orders.Keys
    ensures Frames(s, s', o, j, configs, fallback)
  {
    LegsAfterTwo(s.orders[o], s1.orders[o], s'.orders[o], j, configs, fallback);
    hide LegsAfter;
  }

  /** One event on the latest leg, other than its cancellation. */
  lemma EventFrames(s: State, o: OrderId, event: LegEvent, routeTo: Option<ProviderKey>, env: RoutingEnv)
    requires Inv(s) && o in s.orders && LegAccepts(s.orders[o], event) && event != LegCancelled
    requires s.orders[o].legs[LastIndex(s.orders[o])].providerKey != InHouse
    ensures var order := s.orders[o];
            var result := Apply(s, o, LastIndex(order), event, routeTo, env);
            && result.Success? && o in result.value.orders
            && |result.value.orders[o].legs| == |order.legs| && result.value.orders.Keys == s.orders.Keys
            && Frames(s, result.value, o, LastIndex(order), env.configs, Fallback(true, SeededInHouse(env)))
  {
    var order := s.orders[o];
    ApplyKeepsInv(s, o, event, routeTo, env);
    LegAfterEvent(order, event);
    EventLegs(order, event, env.configs, Fallback(true, SeededInHouse(env)));
    hide Inv, LegsAfter, Apply, AfterEvent;
    OneFrames(s, Apply(s, o, LastIndex(order), event, routeTo, env).value, o, LastIndex(order), env.configs,
              Fallback(true, SeededInHouse(env)));
  }

  /** The latest leg is cancelled and the order routed again. */
  lemma CancellationFrames(s: State, o: OrderId, routeTo: Option<ProviderKey>, env: RoutingEnv)
    requires Inv(s) && o in s.orders && LegAccepts(s.orders[o], LegCancelled) && routeTo in {None, Some(InHouse)}
    ensures var order := s.orders[o];
            var result := Apply(s, o, LastIndex(order), LegCancelled, routeTo, env);
            && result.Success? && o in result.value.orders
            && Frames(s, result.value, o, LastIndex(order), env.configs,
                      Fallback(order.legs[LastIndex(order)].providerKey != InHouse, SeededInHouse(env)))
  {
    hide Inv, LegsAfter, AfterEvent, Frames, NodesFollow, Coupled, ShelfOk, KeysOk, MoneyOk, ReplayLog, SeededInHouse;
    var order := s.orders[o];
    var last := LastIndex(order);
    LegAfterEvent(order, LegCancelled);
    EventKeepsInv(s, o, LegCancelled);
    About(s, o);
    var s1 := Move(s, o, last, LegCancelled).value;
    NothingActive(s1, o);
    hide Move, Dispatch;
    CancelledLegs(order, s1, o, routeTo, env);
    DispatchLegs(s1, o, routeTo, env);
    Overwrite(s.orders, o, s1.orders[o], Dispatch(s1, o, routeTo, env).orders[o]);
    OneFrames(s, Dispatch(s1, o, routeTo, env), o, last, env.configs,
              Fallback(order.legs[last].providerKey != InHouse, SeededInHouse(env)));
  }

  lemma {:induction false} CatchUpFrames(s: State, o: OrderId, i: nat, target: LegStatus, env: RoutingEnv)
    requires Inv(s) && HasLeg(s, o, i) && s.orders[o].legs[i].providerKey != InHouse
    ensures ApplyAll(s, o, i, CatchUp(s.orders[o].legs[i].status, target), env).Success?
    ensures Frames(s, ApplyAll(s, o, i, CatchUp(s.orders[o].legs[i].status, target), env).value, o, i,
                   env.configs, Fallback(true, SeededInHouse(env)))
    decreases |CatchUp(s.orders[o].legs[i].status, target)|
  {
    hide Inv, Frames, SeededInHouse;
    var status := s.orders[o].legs[i].status;
    var steps := CatchUp(status, target);
    if steps == [] {
      NothingFrames(s, s, o, i, env.configs, Fallback(true, SeededInHouse(env)));
    } else {
      CatchUpUnfolds(status, target);
      OnlyLastMovesIn(s, o, i, steps[0]);
      CatchUpStep(s, o, i, steps[0], env);
      var s1 := Apply(s, o, i, steps[0], None, env).value;
      if steps[0] == LegCancelled {
        CancellationFrames(s, o, None, env);
        assert steps[1..] == [];
      } else {
        EventFrames(s, o, steps[0], None, env);
        CatchUpFrames(s1, o, i, target, env);
        FramesTwo(s, s1, ApplyAll(s1, o, i, steps[1..], env).value, o, i, env.configs,
                  Fallback(true, SeededInHouse(env)));
      }
    }
  }

  lemma SyncFrames(s: State, o: OrderId, i: nat, snapshot: Snapshot, env: RoutingEnv)
    requires Inv(s)
    ensures Frames(s, Committed(s, SyncFromSnapshot(s, o, i, snapshot, env)), o, i, env.configs,
                   Fallback(true, SeededInHouse(env)))
  {
    hide Inv, Frames, SeededInHouse, LegsAfter;
    NothingFrames(s, s, o, i, env.configs, Fallback(true, SeededInHouse(env)));
    if HasLeg(s, o, i) && Matches(s.orders[o].legs[i], snapshot) && !Stale(s.orders[o].legs[i], snapshot) {
      var leg := s.orders[o].legs[i];
      var noted := SetLeg(s, o, i, leg.(providerSequence := snapshot.sequence));
      MatchedIsExternal(s, o, i, snapshot);
      NoteOnLegKeepsInv(s, o, i, leg.externalId, snapshot.sequence);
      RowEdited(s.orders[o], i, leg.(providerSequence := snapshot.sequence), env.configs,
                Fallback(true, SeededInHouse(env)));
      OneFrames(s, noted, o, i, env.configs, Fallback(true, SeededInHouse(env)));
      CatchUpFrames(noted, o, i, snapshot.status, env);
      FramesTwo(s, noted, SyncFromSnapshot(s, o, i, snapshot, env).value, o, i, env.configs,
                Fallback(true, SeededInHouse(env)));
    }
  }

  lemma RowEdited(order: Order, i: nat, leg: Leg, configs: seq<ProviderConfig>, fallback: Fallback)
    requires i < |order.legs| && leg.providerKey == order.legs[i].providerKey && leg.status == order.legs[i].status
    ensures LegsAfter(order, order.(legs := order.legs[i := leg]), i, configs, fallback)
  {
  }

  lemma SubmitFrames(s: State, o: OrderId, i: nat, reply: SubmitReply, env: RoutingEnv)
    requires Inv(s)
    ensures Frames(s, Submit(s, o, i, reply, env), o, i, env.configs, Fallback(true, SeededInHouse(env)))
  {
    hide Frames, SeededInHouse, LegsAfter;
    NothingFrames(s, s, o, i, env.configs, Fallback(true, SeededInHouse(env)));
    if Submit(s, o, i, reply, env) != s {
      var leg := s.orders[o].legs[i];
      match reply {
        case Retryable =>
        case Accepted(externalId) =>
          RowEdited(s.orders[o], i, leg.(externalId := Some(externalId)), env.configs,
                    Fallback(true, SeededInHouse(env)));
          OneFrames(s, SetLeg(s, o, i, leg.(externalId := Some(externalId))), o, i, env.configs,
                    Fallback(true, SeededInHouse(env)));
        case Refused =>
          var s1 := SetLeg(s, o, i, leg.(status := Cancelled, ended := true));
          OnlyLastMovesIn(s, o, i, CourierAssigned);
          RefusalKeepsInv(s, o, i);
          NothingActive(s1, o);
          About(s, o);
          hide Inv;
          CancelledLegs(s.orders[o], s1, o, None, env);
          DispatchLegs(s1, o, None, env);
          Overwrite(s.orders, o, s1.orders[o], Dispatch(s1, o, None, env).orders[o]);
          OneFrames(s, Dispatch(s1, o, None, env), o, i, env.configs, Fallback(true, SeededInHouse(env)));
      }
    }
  }

  lemma DropOffFrames(s: State, o: OrderId, env: RoutingEnv)
    requires Inv(s)
    ensures Frames(s, Committed(s, ConfirmDropOff(s, o, env)), o, -1, env.configs, Fallback(true, SeededInHouse(env)))
  {
    hide Frames, SeededInHouse, Inv, KeysOk, ReplayLog, LegsOk, MoneyOk;
    NothingFrames(s, s, o, -1, env.configs, Fallback(true, SeededInHouse(env)));
    if ConfirmDropOff(s, o, env).Success? && !AlreadyProcessed(s, o, DropOffScope) {
      About(s, o);
      var s1 := Orders.MarkReceivedAtOrigin(InsertKey(s, o, DropOffScope), o).value;
      var s' := Dispatch(s1, o, None, env);
      assert s1.orders == s.orders[o := s1.orders[o]];
      assert s1.orders[o].legs == [] && s.orders[o].legs == [];
      DispatchLegs(s1, o, None, env);
      Overwrite(s.orders, o, s1.orders[o], s'.orders[o]);
      hide Dispatch, OrderOk;
      OneFrames(s, s', o, -1, env.configs, Fallback(true, SeededInHouse(env)));
    }
  }

  /** The row of the order's latest leg if that is in-house, else none. */
  function InHouseRow(s: State, o: OrderId): int {
    if o in s.orders && s.orders[o].legs != [] && s.orders[o].legs[LastIndex(s.orders[o])].providerKey == InHouse then
      LastIndex(s.orders[o])
    else -1
  }

  lemma AcceptFrames(s: State, o: OrderId, rider: UserId, configs: seq<ProviderConfig>)
    requires Inv(s)
    ensures Frames(s, Committed(s, AcceptOrder(s, o, rider)), o, InHouseRow(s, o), configs, Fallback(true, true))
  {
    hide Frames, LegsAfter;
    var j := InHouseRow(s, o);
    NothingFrames(s, s, o, j, configs, Fallback(true, true));
    AcceptKeepsInv(s, o, rider);
    if AcceptOrder(s, o, rider).Success? {
      About(s, o);
      ClaimedLegs(s, o, rider, configs);
      OneFrames(s, AcceptOrder(s, o, rider).value, o, j, configs, Fallback(true, true));
    }
    hide Inv, AcceptOrder, InPool;
  }

  lemma ClaimedLegs(s: State, o: OrderId, rider: UserId, configs: seq<ProviderConfig>)
    requires o in s.orders && OrderOk(s.orders[o], s.splitRules) && InPool(s.orders[o])
    requires Claimable(s.orders[o]).legs != []
    requires LegAccepts(WithCourier(Claimable(s.orders[o]), rider), CourierAssigned)
    ensures LegsAfter(s.orders[o], AfterEvent(WithCourier(Claimable(s.orders[o]), rider), CourierAssigned),
                      InHouseRow(s, o), configs, Fallback(true, true))
  {
    hide OrderOk;
    var order := s.orders[o];
    if ActiveLeg(order.legs).Some? {
      ActiveIsLast(order, s.splitRules);
      EventLegs(WithCourier(order, rider), CourierAssigned, configs, Fallback(true, true));
    } else {
      LegAfterEvent(WithCourier(Claimable(order), rider), CourierAssigned);
    }
  }

  lemma HandoverFrames(s: State, s': State, o: OrderId, proved: Order, event: LegEvent, configs: seq<ProviderConfig>)
    requires o in s.orders && proved == s.orders[o].(keys := proved.keys, codes := proved.codes)
    requires LegAccepts(proved, event) && event != LegCancelled
    requires proved.legs[LastIndex(proved)].providerKey == InHouse
    requires s'.orders == s.orders[o := AfterEvent(proved, event)]
    ensures Frames(s, s', o, InHouseRow(s, o), configs, Fallback(true, true))
  {
    EventLegs(proved, event, configs, Fallback(true, true));
    hide AfterEvent;
    OneFrames(s, s', o, InHouseRow(s, o), configs, Fallback(true, true));
  }

  lemma FailedCodeFrames(s: State, o: OrderId, codes: seq<Code>, configs: seq<ProviderConfig>)
    requires o in s.orders
    ensures Frames(s, SetCodes(s, o, codes), o, InHouseRow(s, o), configs, Fallback(true, true))
  {
    SameLegs(s.orders[o], SetCodes(s, o, codes).orders[o], InHouseRow(s, o), configs, Fallback(true, true));
    OneFrames(s, SetCodes(s, o, codes), o, InHouseRow(s, o), configs, Fallback(true, true));
  }

  lemma HandoffFrames(s: State, o: OrderId, handover: Handover, hash: nat, now: int, configs: seq<ProviderConfig>)
    requires Inv(s)
    ensures Frames(s, Next(s, Handoff(o, handover, hash, now)), o, InHouseRow(s, o), configs, Fallback(true, true))
  {
    hide Frames, InHouseRow, Next, Inv, ConfirmHandoff, Validate, AfterEvent, AlreadyProcessed;
    HandoffEnds(s, o, handover, hash, now);
    NothingFrames(s, s, o, InHouseRow(s, o), configs, Fallback(true, true));
    if o in s.orders {
      FailedCodeFrames(s, o, CountFailure(s.orders[o].codes, KindOf(handover)), configs);
      if !AlreadyProcessed(s, o, ScopeOf(handover)) {
        HandoffKeepsInv(s, o, handover, hash, now);
        if ConfirmHandoff(s, o, handover, hash, now).Success? {
          var proved := Proved(s.orders[o], handover, Validate(s.orders[o].codes, KindOf(handover), hash, now).value);
          HandoverFrames(s, ConfirmHandoff(s, o, handover, hash, now).value, o, proved, EventOf(handover), configs);
        }
      }
    }
  }

  lemma CancelFrames(s: State, o: OrderId, i: nat, routeTo: Option<ProviderKey>, env: RoutingEnv)
    requires Inv(s) && routeTo in {None, Some(InHouse)}
    ensures Frames(s, Committed(s, CancelLeg(s, o, i, routeTo, env)), o, i, env.configs,
                   Fallback(HasLeg(s, o, i) && s.orders[o].legs[i].providerKey != InHouse, SeededInHouse(env)))
  {
    hide Inv, Frames, SeededInHouse;
    NothingFrames(s, s, o, i, env.configs,
                  Fallback(HasLeg(s, o, i) && s.orders[o].legs[i].providerKey != InHouse, SeededInHouse(env)));
    if HasLeg(s, o, i) && NextLegStatus(s.orders[o].legs[i].status, LegCancelled).Some? {
      OnlyLastMovesIn(s, o, i, LegCancelled);
      CancellationFrames(s, o, routeTo, env);
    }
  }

  // ----- Any step ----------------------------------------------------------

  /** The order whose legs a step may touch. */
  function OrderOfStep(step: Step): OrderId {
    match step
    case DropOff(o, _) => o
    case Accept(o, _) => o
    case RequestCode(o, _, _, _, _) => o
    case Handoff(o, _, _, _) => o
    case Intake(o, _, _) => o
    case Collect(o, _, _) => o
    case Resend(o, _, _) => o
    case IssueLate(o, _, _, _) => o
    case ReturnIntake(o, _, _) => o
    case ReturnCollect(o, _, _) => o
    case SubmitLeg(o, _, _, _) => o
    case SyncLeg(o, _, _, _) => o
    case Cancel(o, _, _, _) => o
    case _ => 0 // none
  }

  /** The row it may touch, -1 for none. */
  function RowOfStep(s: State, step: Step): int {
    match step
    case SubmitLeg(_, i, _, _) => i
    case SyncLeg(_, i, _, _) => i
    case Cancel(_, i, _, _) => i
    case Accept(o, _) => InHouseRow(s, o)
    case Handoff(o, _, _, _) => InHouseRow(s, o)
    case _ => -1
  }

  predicate CancelsInHouse(s: State, step: Step) {
    step.Cancel? && HasLeg(s, step.o, step.i) && s.orders[step.o].legs[step.i].providerKey == InHouse
  }

  ghost function FallsBack(s: State, step: Step): Fallback {
    Fallback(!CancelsInHouse(s, step), EnvOf(step).Some? ==> SeededInHouse(EnvOf(step).value))
  }

  lemma WeakerFrames(s: State, s': State, o: OrderId, j: int, configs: seq<ProviderConfig>, fallback: Fallback,
                     weaker: Fallback)
    requires Frames(s, s', o, j, configs, fallback) && (weaker.stands ==> fallback.stands)
             && (weaker.seeded ==> fallback.seeded)
    ensures Frames(s, s', o, j, configs, weaker)
  {
  }

  lemma CounterFrames(s: State, step: Step, configs: seq<ProviderConfig>)
    requires CounterSide(step)
    ensures Frames(s, Next(s, step), step.o, -1, configs, Fallback(true, true))
  {
    StepAtCounter(s, step);
    NothingFrames(s, s, step.o, -1, configs, Fallback(true, true));
    hide Next, Frames;
    if Next(s, step) != s {
      SameLegs(s.orders[step.o], Next(s, step).orders[step.o], -1, configs, Fallback(true, true));
      OneFrames(s, Next(s, step), step.o, -1, configs, Fallback(true, true));
    }
  }

  lemma NewOrderFrames(s: State, s': State, order: OrderId, id: IntentId, configs: seq<ProviderConfig>)
    requires AddsOrder(s, s', order, id)
    ensures Frames(s, s', 0, -1, configs, Fallback(true, true))
  {
    if 0 in s.orders {
      SameLegs(s.orders[0], s.orders[0], -1, configs, Fallback(true, true));
    }
    hide LegsAfter;
  }

  lemma PaymentFrames(s: State, step: Step, configs: seq<ProviderConfig>)
    requires PaymentSide(step)
    ensures Frames(s, Next(s, step), 0, -1, configs, Fallback(true, true))
  {
    hide Frames, Next, AddsOrder;
    PaymentOrders(s, step);
    if Next(s, step).orders == s.orders {
      NothingFrames(s, Next(s, step), 0, -1, configs, Fallback(true, true));
    } else {
      var order, id :| AddsOrder(s, Next(s, step), order, id);
      NewOrderFrames(s, Next(s, step), order, id, configs);
    }
  }

  lemma RoutedStepFrames(s: State, step: Step, configs: seq<ProviderConfig>)
    requires step.DropOff? || step.SubmitLeg? || step.SyncLeg?
    requires Inv(s) && RoutesBy(step, configs)
    ensures Frames(s, Next(s, step), OrderOfStep(step), RowOfStep(s, step), configs, FallsBack(s, step))
  {
    hide Inv, Frames, SeededInHouse, ConfirmDropOff, Submit, SyncFromSnapshot;
    match step {
      case DropOff(o, env) => DropOffFrames(s, o, env);
      case SubmitLeg(o, i, answer, env) => SubmitFrames(s, o, i, answer, env);
      case SyncLeg(o, i, snapshot, env) => SyncFrames(s, o, i, snapshot, env);
    }
  }

  lemma PoolStepFrames(s: State, step: Step, configs: seq<ProviderConfig>)
    requires step.Accept? || step.Handoff?
    requires Inv(s)
    ensures Frames(s, Next(s, step), OrderOfStep(step), RowOfStep(s, step), configs, Fallback(true, true))
  {
    hide Inv, Frames, AcceptOrder, ConfirmHandoff, AfterCodeCheck, InHouseRow;
    match step {
      case Accept(o, rider) => AcceptFrames(s, o, rider, configs);
      case Handoff(o, handover, hash, now) => HandoffFrames(s, o, handover, hash, now, configs);
    }
  }

  lemma LeglessStepFrames(s: State, step: Step, configs: seq<ProviderConfig>)
    requires PaymentSide(step) || CounterSide(step)
    ensures Frames(s, Next(s, step), OrderOfStep(step), RowOfStep(s, step), configs, Fallback(true, true))
  {
    hide Frames, Next;
    if PaymentSide(step) {
      PaymentFrames(s, step, configs);
    } else {
      CounterFrames(s, step, configs);
    }
  }

  /** Whatever the step, at most one leg row of one order is touched, at most one leg is
      added, routing allowing, and no order is left uncovered. */
  lemma StepFrames(s: State, step: Step, configs: seq<ProviderConfig>)
    requires Inv(s) && RoutesBy(step, configs)
    ensures Frames(s, Next(s, step), OrderOfStep(step), RowOfStep(s, step), configs, FallsBack(s, step))
  {
    hide Inv, Frames, Next, RowOfStep, RoutesBy, SeededInHouse;
    if step.Cancel? {
      CancelStepFrames(s, step, configs);
    } else if step.DropOff? || step.SubmitLeg? || step.SyncLeg? {
      RoutedStepFrames(s, step, configs);
    } else {
      if step.Accept? || step.Handoff? {
        PoolStepFrames(s, step, configs);
      } else {
        LeglessStepFrames(s, step, configs);
      }
      WeakerFrames(s, Next(s, step), OrderOfStep(step), RowOfStep(s, step), configs, Fallback(true, true),
                   FallsBack(s, step));
    }
  }

  lemma CancelStepFrames(s: State, step: Step, configs: seq<ProviderConfig>)
    requires Inv(s) && step.Cancel? && RoutesBy(step, configs)
    ensures Frames(s, Next(s, step), OrderOfStep(step), RowOfStep(s, step), configs, FallsBack(s, step))
  {
    hide Inv, Frames, SeededInHouse;
    if HasLeg(s, step.o, step.i) {
      CancelFrames(s, step.o, step.i, step.routeTo, step.env);
      hide CancelLeg;
      WeakerFrames(s, Next(s, step), step.o, step.i, configs,
                   Fallback(s.orders[step.o].legs[step.i].providerKey != InHouse, SeededInHouse(step.env)),
                   FallsBack(s, step));
    } else {
      NothingFrames(s, s, step.o, step.i, configs, FallsBack(s, step));
    }
  }
}

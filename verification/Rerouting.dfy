/** Re-routing over whole runs: it never goes on for ever, and with the in-house pool
    to fall back on it never leaves a parcel without a courier. */
module Rerouting {
  import opened Wrappers
  import opened Counting
  import opened DeliveryLeg
  import opened OrderRules
  import opened Routing
  import opened Model
  import opened DeliveryDispatch
  import opened Invariants
  import opened LegFrames
  import opened Runs

  // ----- At most so many legs ----------------------------------------------

  function Positive(n: int): nat {
    if n > 0 then n else 0
  }

  /** All attempts that the external couriers' rows allow together. */
  function ExternalAttempts(configs: seq<ProviderConfig>): nat {
    if configs == [] then 0
    else (if configs[0].key == InHouse then 0 else Positive(configs[0].maxAttempts)) + ExternalAttempts(configs[1..])
  }

  /** Those of them that an order has not used yet. */
  function Unused(legs: seq<Leg>, configs: seq<ProviderConfig>): nat {
    if configs == [] then 0
    else (if configs[0].key == InHouse then 0 else Positive(configs[0].maxAttempts - Attempts(legs, configs[0].key)))
         + Unused(legs, configs[1..])
  }

  ghost predicate InBudget(legs: seq<Leg>, key: ProviderKey, configs: seq<ProviderConfig>) {
    exists c :: c in configs && c.key == key && Attempts(legs, key) <= c.maxAttempts
  }

  /** No external courier has had more attempts than its row allows. */
  ghost predicate Budgeted(legs: seq<Leg>, configs: seq<ProviderConfig>) {
    forall i :: 0 <= i < |legs| && legs[i].providerKey != InHouse ==> InBudget(legs, legs[i].providerKey, configs)
  }

  function Without(legs: seq<Leg>, key: ProviderKey): seq<Leg> {
    if legs == [] then []
    else
      var last := legs[|legs| - 1];
      Without(legs[..|legs| - 1], key) + (if last.providerKey == key then [] else [last])
  }

  lemma {:induction false} WithoutCounts(legs: seq<Leg>, key: ProviderKey)
    ensures |legs| == Attempts(legs, key) + |Without(legs, key)|
    ensures forall leg :: leg in Without(legs, key) ==> leg in legs && leg.providerKey != key
    ensures forall k :: k != key ==> Attempts(Without(legs, key), k) == Attempts(legs, k)
  {
    if legs != [] {
      var front, last := legs[..|legs| - 1], legs[|legs| - 1];
      WithoutCounts(front, key);
      var rest := Without(front, key);
      assert Without(legs, key) == if last.providerKey == key then rest else rest + [last];
      assert (rest + [last])[..|rest|] == rest;
    }
  }

  ghost predicate AllInBudget(legs: seq<Leg>, configs: seq<ProviderConfig>) {
    forall i :: 0 <= i < |legs| ==> legs[i].providerKey != InHouse && InBudget(legs, legs[i].providerKey, configs)
  }

  /** A row that pays for none of the legs can be left out. */
  lemma RowPaysNothing(legs: seq<Leg>, configs: seq<ProviderConfig>)
    requires configs != [] && AllInBudget(legs, configs)
    requires configs[0].key == InHouse || Attempts(legs, configs[0].key) > configs[0].maxAttempts
    ensures AllInBudget(legs, configs[1..])
  {
    forall i | 0 <= i < |legs|
      ensures InBudget(legs, legs[i].providerKey, configs[1..])
    {
      var c :| c in configs && c.key == legs[i].providerKey && Attempts(legs, c.key) <= c.maxAttempts;
      assert c in configs[1..];
    }
  }

  /** The legs that a row pays for can be left out with it. */
  lemma RowPays(legs: seq<Leg>, configs: seq<ProviderConfig>)
    requires configs != [] && AllInBudget(legs, configs)
    ensures AllInBudget(Without(legs, configs[0].key), configs[1..])
  {
    var others := Without(legs, configs[0].key);
    WithoutCounts(legs, configs[0].key);
    forall i | 0 <= i < |others|
      ensures others[i].providerKey != InHouse && InBudget(others, others[i].providerKey, configs[1..])
    {
      assert others[i] in others;
      var k :| 0 <= k < |legs| && legs[k] == others[i];
      var c :| c in configs && c.key == legs[k].providerKey && Attempts(legs, c.key) <= c.maxAttempts;
      assert c in configs[1..];
    }
  }

  lemma NoRowsPayNothing(legs: seq<Leg>)
    requires legs != []
    ensures !AllInBudget(legs, [])
  {
    assert !InBudget(legs, legs[0].providerKey, []);
  }

  /** Legs that are all in budget are no more than all the attempts there are. */
  lemma {:induction false} BudgetBoundsLegs(legs: seq<Leg>, configs: seq<ProviderConfig>)
    requires AllInBudget(legs, configs)
    ensures |legs| <= ExternalAttempts(configs)
    decreases |configs|
  {
    if configs == [] {
      if legs != [] {
        NoRowsPayNothing(legs);
      }
    } else if configs[0].key == InHouse || Attempts(legs, configs[0].key) > configs[0].maxAttempts {
      RowPaysNothing(legs, configs);
      BudgetBoundsLegs(legs, configs[1..]);
    } else {
      WithoutCounts(legs, configs[0].key);
      RowPays(legs, configs);
      hide AllInBudget;
      BudgetBoundsLegs(Without(legs, configs[0].key), configs[1..]);
    }
  }

  lemma AttemptsWithOneMore(before: seq<Leg>, after: seq<Leg>, j: int, key: ProviderKey)
    requires Kept(before, after, j) && |after| <= |before| + 1
    ensures Attempts(after, key) ==
            Attempts(before, key) + if |after| > |before| && after[|before|].providerKey == key then 1 else 0
  {
    AttemptsByKeys(before, after[..|before|], key);
    assert |after| == |before| ==> after[..|before|] == after;
  }

  lemma StepKeepsBudget(before: seq<Leg>, after: seq<Leg>, j: int, configs: seq<ProviderConfig>)
    requires Kept(before, after, j) && Appended(before, after, configs) && Budgeted(before, configs)
    ensures Budgeted(after, configs)
  {
    forall i | 0 <= i < |after| && after[i].providerKey != InHouse
      ensures InBudget(after, after[i].providerKey, configs)
    {
      var key := after[i].providerKey;
      AttemptsWithOneMore(before, after, j, key);
      if |after| == |before| + 1 && after[|before|].providerKey == key {
        var c :| c in configs && c.key == key && Attempts(before, key) < c.maxAttempts;
      } else {
        assert before[i].providerKey == key && InBudget(before, key, configs);
      }
    }
  }

  /** Sums are only ever spent: a longer history leaves no courier more attempts, and a
      leg with an external courier takes one away. */
  lemma {:induction false} UnusedShrinks(before: seq<Leg>, after: seq<Leg>, key: ProviderKey,
                                         configs: seq<ProviderConfig>)
    requires forall k :: Attempts(after, k) == Attempts(before, k) + if k == key then 1 else 0
    ensures Unused(after, configs) <= Unused(before, configs)
    ensures key != InHouse && HasAttemptLeft(before, key, configs) ==> Unused(after, configs) < Unused(before, configs)
    decreases |configs|
  {
    if configs != [] {
      UnusedShrinks(before, after, key, configs[1..]);
      assert forall c :: c in configs ==> c == configs[0] || c in configs[1..];
    }
  }

  /** Every leg that routing adds with an external courier uses up one of the attempts
      left, so every refusal or cancellation that is routed on to another external
      courier brings the end nearer. */
  lemma ReroutingSpends(s: State, step: Step, o: OrderId, configs: seq<ProviderConfig>)
    requires Inv(s) && RoutesBy(step, configs) && o in s.orders
    ensures o in Next(s, step).orders
    ensures var before, after := s.orders[o].legs, Next(s, step).orders[o].legs;
            && |before| <= |after| <= |before| + 1
            && Unused(after, configs) <= Unused(before, configs)
            && (|after| > |before| && after[|before|].providerKey != InHouse ==>
                  Unused(after, configs) < Unused(before, configs))
  {
    StepFrames(s, step, configs);
    var before, after := s.orders[o].legs, Next(s, step).orders[o].legs;
    var j := RowOfStep(s, step);
    hide Inv, Next;
    if o == OrderOfStep(step) {
      SpentBy(before, after, j, configs);
    }
  }

  lemma SpentBy(before: seq<Leg>, after: seq<Leg>, j: int, configs: seq<ProviderConfig>)
    requires Kept(before, after, j) && Appended(before, after, configs)
    ensures Unused(after, configs) <= Unused(before, configs)
    ensures |after| > |before| && after[|before|].providerKey != InHouse ==>
              Unused(after, configs) < Unused(before, configs)
  {
    forall k
      ensures Attempts(after, k) == Attempts(before, k)
                + if |after| > |before| && after[|before|].providerKey == k then 1 else 0
    {
      AttemptsWithOneMore(before, after, j, k);
    }
    if |after| > |before| {
      UnusedShrinks(before, after, after[|before|].providerKey, configs);
    } else {
      SameUnused(before, after, configs);
    }
  }

  lemma {:induction false} SameUnused(a: seq<Leg>, b: seq<Leg>, configs: seq<ProviderConfig>)
    requires forall k :: Attempts(a, k) == Attempts(b, k)
    ensures Unused(a, configs) == Unused(b, configs)
    decreases |configs|
  {
    if configs != [] {
      SameUnused(a, b, configs[1..]);
    }
  }

  /** The whole run routes by the same provider rows and cancels no in-house leg. */
  predicate RunRoutesBy(s: State, steps: seq<Step>, configs: seq<ProviderConfig>)
    decreases |steps|
  {
    steps == [] ||
    (&& RoutesBy(steps[0], configs) && !CancelsInHouse(s, steps[0])
     && RunRoutesBy(Next(s, steps[0]), steps[1..], configs))
  }

  ghost predicate AllBudgeted(s: State, configs: seq<ProviderConfig>) {
    forall o {:trigger s.orders[o]} :: o in s.orders ==>
      Budgeted(s.orders[o].legs, configs) && InHouseStands(s.orders[o])
  }

  lemma StepKeepsAllBudgeted(s: State, step: Step, configs: seq<ProviderConfig>)
    requires Inv(s) && RoutesBy(step, configs) && !CancelsInHouse(s, step) && AllBudgeted(s, configs)
    ensures AllBudgeted(Next(s, step), configs)
  {
    StepFrames(s, step, configs);
    var s' := Next(s, step);
    hide Inv, Next, Kept, Appended, Budgeted, InHouseStands, Covered;
    forall o | o in s'.orders
      ensures Budgeted(s'.orders[o].legs, configs) && InHouseStands(s'.orders[o])
    {
      if o !in s.orders {
        NoLegsYet(s'.orders[o], configs);
      } else if o == OrderOfStep(step) {
        StepKeepsBudget(s.orders[o].legs, s'.orders[o].legs, RowOfStep(s, step), configs);
      }
    }
  }

  lemma NoLegsYet(order: Order, configs: seq<ProviderConfig>)
    requires order.legs == []
    ensures Budgeted(order.legs, configs) && InHouseStands(order)
  {
  }

  lemma {:induction false} RunKeepsBudget(s: State, steps: seq<Step>, configs: seq<ProviderConfig>)
    requires Inv(s) && ValidSteps(steps) && RunRoutesBy(s, steps, configs) && AllBudgeted(s, configs)
    ensures Inv(Run(s, steps)) && AllBudgeted(Run(s, steps), configs)
    decreases |steps|
  {
    hide Inv, Next, AllBudgeted;
    if steps != [] {
      assert steps[0] in steps && forall step :: step in steps[1..] ==> step in steps;
      StepKeepsInv(s, steps[0]);
      StepKeepsAllBudgeted(s, steps[0], configs);
      RunKeepsBudget(Next(s, steps[0]), steps[1..], configs);
    }
  }

  /** Only the latest leg can be in-house, so all but one are within budget. */
  lemma LegsWithinBudget(order: Order, configs: seq<ProviderConfig>)
    requires LegsOk(order.legs) && InHouseStands(order) && Budgeted(order.legs, configs)
    ensures |order.legs| <= ExternalAttempts(configs) + 1
  {
    if order.legs != [] {
      var last := |order.legs| - 1;
      var external := if order.legs[last].providerKey == InHouse then order.legs[..last] else order.legs;
      forall i | 0 <= i < |external|
        ensures external[i].providerKey != InHouse && InBudget(external, external[i].providerKey, configs)
      {
        assert external[i] == order.legs[i];
        assert InBudget(order.legs, external[i].providerKey, configs);
      }
      BudgetBoundsLegs(external, configs);
    }
  }

  /** With unchanged provider rows and no in-house leg ever cancelled, an order has at
      most one leg more than the external couriers' attempts together, whatever is
      refused, cancelled, reported or claimed, however often. */
  lemma LegsAreBounded(start: State, steps: seq<Step>, o: OrderId, configs: seq<ProviderConfig>)
    requires Initial(start) && ValidSteps(steps) && RunRoutesBy(start, steps, configs) && o in Run(start, steps).orders
    ensures |Run(start, steps).orders[o].legs| <= ExternalAttempts(configs) + 1
  {
    InitialIsConsistent(start);
    RunKeepsBudget(start, steps, configs);
    About(Run(start, steps), o);
    LegsWithinBudget(Run(start, steps).orders[o], configs);
  }

  // ----- No parcel stranded ------------------------------------------------

  /** Routing leaves an order without a courier exactly when no provider can take it. */
  lemma WaitsExactlyWhenNoneEligible(s: State, o: OrderId, env: RoutingEnv)
    requires o in s.orders && ActiveLeg(s.orders[o].legs).None?
    ensures ActiveLeg(Dispatch(s, o, None, env).orders[o].legs).None? <==>
              forall c :: c in env.configs ==> !Eligible(c, env.registered, ContextOf(s.orders[o], env))
  {
    ChooseProviderIsLeast(env.configs, env.registered, ContextOf(s.orders[o], env));
  }

  /** Throughout the run the in-house pool has its seeded settings and no in-house leg
      is cancelled; the provider rows may otherwise change at will. */
  ghost predicate RunFallsBack(s: State, steps: seq<Step>)
    decreases |steps|
  {
    steps == [] ||
    (&& FallsBack(s, steps[0]) == Fallback(true, true)
     && (steps[0].Cancel? ==> steps[0].routeTo in {None, Some(InHouse)})
     && RunFallsBack(Next(s, steps[0]), steps[1..]))
  }

  ghost predicate AllCovered(s: State) {
    forall o {:trigger s.orders[o]} :: o in s.orders && InHouseCarries(s.orders[o]) ==> Covered(s.orders[o])
  }

  function ConfigsOf(step: Step): seq<ProviderConfig> {
    if EnvOf(step).Some? then EnvOf(step).value.configs else []
  }

  lemma StepKeepsCovered(s: State, step: Step)
    requires Inv(s) && FallsBack(s, step) == Fallback(true, true)
    requires step.Cancel? ==> step.routeTo in {None, Some(InHouse)}
    requires AllCovered(s)
    ensures AllCovered(Next(s, step))
  {
    StepFrames(s, step, ConfigsOf(step));
    var s' := Next(s, step);
    hide Inv, Next, Kept, Appended, InHouseStands, FallsBack;
    forall o | o in s'.orders && InHouseCarries(s'.orders[o])
      ensures Covered(s'.orders[o])
    {
      if o !in s.orders {
        NoLegsYet(s'.orders[o], []);
      } else if o == OrderOfStep(step) {
        assert InHouseCarries(s.orders[o]);
      }
    }
  }

  lemma {:induction false} RunKeepsCovered(s: State, steps: seq<Step>)
    requires Inv(s) && ValidSteps(steps) && RunFallsBack(s, steps) && AllCovered(s)
    ensures Inv(Run(s, steps)) && AllCovered(Run(s, steps))
    decreases |steps|
  {
    hide Inv, Next, AllCovered, FallsBack;
    if steps != [] {
      assert steps[0] in steps && forall step :: step in steps[1..] ==> step in steps;
      StepKeepsInv(s, steps[0]);
      StepKeepsCovered(s, steps[0]);
      RunKeepsCovered(Next(s, steps[0]), steps[1..]);
    }
  }

  function ActiveLegs(order: Order): set<nat> {
    set i | 0 <= i < |order.legs| && !IsTerminal(order.legs[i].status)
  }

  /** A courier is wanted or has the parcel. */
  predicate NeedsCourier(status: OrderStatus) {
    status in {ReceivedAtOrigin, RiderAssigned, InTransit, ReturnInTransit}
  }

  lemma CoveredHasActiveLeg(order: Order)
    requires Coupled(order) && LegsOk(order.legs) && Covered(order)
    ensures |ActiveLegs(order)| == One(NeedsCourier(order.status))
  {
    if NeedsCourier(order.status) {
      assert order.legs != [];
      assert ActiveLegs(order) == {|order.legs| - 1};
    } else {
      assert ActiveLegs(order) == {};
    }
  }

  /** While the in-house pool has its seeded settings, no parcel it can carry is ever
      stranded: an order has exactly one leg in progress as long as it waits for a
      courier or is on the road, and none at any other time. */
  lemma NeverStranded(start: State, steps: seq<Step>, o: OrderId)
    requires Initial(start) && ValidSteps(steps) && RunFallsBack(start, steps)
    requires o in Run(start, steps).orders && InHouseCarries(Run(start, steps).orders[o])
    ensures |ActiveLegs(Run(start, steps).orders[o])| == One(NeedsCourier(Run(start, steps).orders[o].status))
  {
    InitialIsConsistent(start);
    RunKeepsCovered(start, steps);
    About(Run(start, steps), o);
    hide Inv, RunFallsBack, Run;
    CoveredHasActiveLeg(Run(start, steps).orders[o]);
  }
}

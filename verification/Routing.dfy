/** Which courier gets a leg, and which vehicle a parcel needs. */
module Routing {
  import opened Wrappers
  import opened Selection

  type NodeId = nat

  /** A logistics provider's key: the in-house pool, or an external courier. */
  datatype ProviderKey = InHouse | External(name: string)

  datatype VehicleClass = Bicycle | Motorbike | Car | Van | Truck

  /** A logistics_providers row with its adapter's vehicle classes. `collation` is
      the place of the key in the locale's order, which breaks priority ties. */
  datatype ProviderConfig = ProviderConfig(
    key: ProviderKey,
    collation: int,
    enabled: bool,
    priority: int,
    maxAttempts: int,
    minDistanceKm: Option<real>,
    maxDistanceKm: Option<real>,
    pilotNodeIds: Option<seq<NodeId>>,
    vehicleClasses: seq<VehicleClass>)

  datatype RoutingContext = RoutingContext(
    originNodeId: NodeId,
    distanceKm: real,
    vehicleClass: Option<VehicleClass>,
    attempts: ProviderKey -> nat)

  predicate Eligible(config: ProviderConfig, registered: set<ProviderKey>, context: RoutingContext) {
    && config.enabled
    && config.key in registered
    && context.attempts(config.key) < config.maxAttempts
    && (config.pilotNodeIds.None? || config.pilotNodeIds.value == []
        || context.originNodeId in config.pilotNodeIds.value)
    && (context.vehicleClass.None? || context.vehicleClass.value in config.vehicleClasses)
    && (config.minDistanceKm.None? || context.distanceKm >= config.minDistanceKm.value)
    && (config.maxDistanceKm.None? || context.distanceKm <= config.maxDistanceKm.value)
  }

  function Eligibility(registered: set<ProviderKey>, context: RoutingContext): ProviderConfig -> bool {
    config => Eligible(config, registered, context)
  }

  function Priority(): ProviderConfig -> Rank {
    (config: ProviderConfig) => (config.priority, config.collation)
  }

  /** The first provider, in priority order, that can take the order. */
  function ChooseProvider(configs: seq<ProviderConfig>, registered: set<ProviderKey>, context: RoutingContext)
    : Option<ProviderConfig>
  {
    Find(Sort(configs, Priority()), Eligibility(registered, context))
  }

  /** Whatever order the rows come in, the choice is the (priority, key)-least
      eligible provider, and there is one as soon as any is eligible. */
  lemma ChooseProviderIsLeast(configs: seq<ProviderConfig>, registered: set<ProviderKey>, context: RoutingContext)
    ensures match ChooseProvider(configs, registered, context)
            case None => forall c :: c in configs ==> !Eligible(c, registered, context)
            case Some(best) =>
              && best in configs && Eligible(best, registered, context)
              && forall c :: c in configs && Eligible(c, registered, context) ==>
                   !Before((c.priority, c.collation), (best.priority, best.collation))
  {
    SortThenFindIsLeast(configs, Priority(), Eligibility(registered, context));
    var p := Eligibility(registered, context);
    assert forall c :: p(c) == Eligible(c, registered, context);
  }

  /** The choice in the rows' own fields: the provider chosen is enabled, registered, below
      its attempts, open to the origin, has the vehicle and serves the distance, bounds
      included; and whatever row ranks before it, or any row when none is chosen, fails one
      of these. */
  lemma ChooseProviderMeans(configs: seq<ProviderConfig>, registered: set<ProviderKey>, context: RoutingContext,
                            other: ProviderConfig)
    requires other in configs
    ensures var choice := ChooseProvider(configs, registered, context);
            choice.Some? ==>
              && choice.value in configs && choice.value.enabled && choice.value.key in registered
              && context.attempts(choice.value.key) < choice.value.maxAttempts
              && (choice.value.pilotNodeIds.None? || choice.value.pilotNodeIds.value == []
                  || context.originNodeId in choice.value.pilotNodeIds.value)
              && (context.vehicleClass.Some? ==> context.vehicleClass.value in choice.value.vehicleClasses)
              && (choice.value.minDistanceKm.Some? ==> choice.value.minDistanceKm.value <= context.distanceKm)
              && (choice.value.maxDistanceKm.Some? ==> context.distanceKm <= choice.value.maxDistanceKm.value)
    ensures var choice := ChooseProvider(configs, registered, context);
            (choice.Some? ==>
               || other.priority < choice.value.priority
               || (other.priority == choice.value.priority && other.collation < choice.value.collation)) ==>
              || !other.enabled || other.key !in registered
              || context.attempts(other.key) >= other.maxAttempts
              || (other.pilotNodeIds.Some? && other.pilotNodeIds.value != []
                  && context.originNodeId !in other.pilotNodeIds.value)
              || (context.vehicleClass.Some? && context.vehicleClass.value !in other.vehicleClasses)
              || (other.minDistanceKm.Some? && context.distanceKm < other.minDistanceKm.value)
              || (other.maxDistanceKm.Some? && other.maxDistanceKm.value < context.distanceKm)
  {
    ChooseProviderIsLeast(configs, registered, context);
    hide ChooseProvider;
  }

  /** The query's row order does not matter: keys are unique, so any permutation of
      the rows gives the same provider. */
  lemma ChooseProviderIgnoresRowOrder(configs: seq<ProviderConfig>, configs': seq<ProviderConfig>,
                                      registered: set<ProviderKey>, context: RoutingContext)
    requires multiset(configs) == multiset(configs')
    requires forall c, d ::
               c in configs && d in configs && c.priority == d.priority && c.collation == d.collation ==> c == d
    ensures ChooseProvider(configs, registered, context) == ChooseProvider(configs', registered, context)
  {
    assert forall c :: c in configs <==> c in multiset(configs);
    assert forall c :: c in configs' <==> c in multiset(configs');
    ChooseProviderIsLeast(configs, registered, context);
    ChooseProviderIsLeast(configs', registered, context);
  }

  datatype VehicleRule = VehicleRule(
    vehicleClass: VehicleClass,
    rank: int,
    enabled: bool,
    parcelSizes: seq<string>,
    maxWeightKg: real,
    maxLongestSideCm: int)

  /** A parcel to carry; an unknown weight or side is None. */
  datatype Parcel = Parcel(
    size: string,
    weightKg: Option<real>,
    lengthCm: Option<int>,
    widthCm: Option<int>,
    heightCm: Option<int>)

  function OrZero(side: Option<int>): int {
    if side.Some? then side.value else 0
  }

  function LongestSide(parcel: Parcel): int {
    var l, w, h := OrZero(parcel.lengthCm), OrZero(parcel.widthCm), OrZero(parcel.heightCm);
    if l >= w && l >= h then l else if w >= h then w else h
  }

  predicate Fits(rule: VehicleRule, parcel: Parcel) {
    && parcel.size in rule.parcelSizes
    && (parcel.weightKg.None? || parcel.weightKg.value <= rule.maxWeightKg)
    && LongestSide(parcel) <= rule.maxLongestSideCm
  }

  /** The rule takes the parcel's size, its weight if that is known, and each of its sides;
      an unknown side counts as none. */
  predicate TakesParcel(rule: VehicleRule, parcel: Parcel) {
    && parcel.size in rule.parcelSizes
    && (parcel.weightKg.Some? ==> parcel.weightKg.value <= rule.maxWeightKg)
    && (forall side :: side in {parcel.lengthCm, parcel.widthCm, parcel.heightCm} ==>
          (if side.Some? then side.value else 0) <= rule.maxLongestSideCm)
  }

  lemma FitsTakes(rule: VehicleRule, parcel: Parcel)
    ensures Fits(rule, parcel) <==> TakesParcel(rule, parcel)
  {
    var sides := {parcel.lengthCm, parcel.widthCm, parcel.heightCm};
    assert parcel.lengthCm in sides && parcel.widthCm in sides && parcel.heightCm in sides;
  }

  function Enabled(rules: seq<VehicleRule>): seq<VehicleRule> {
    if rules == [] then []
    else (if rules[0].enabled then [rules[0]] else []) + Enabled(rules[1..])
  }

  function Fitting(parcel: Parcel): VehicleRule -> bool {
    rule => Fits(rule, parcel)
  }

  function BySize(): VehicleRule -> Rank {
    (rule: VehicleRule) => (rule.rank, 0)
  }

  function ChooseVehicleRule(rules: seq<VehicleRule>, parcel: Parcel): Option<VehicleRule> {
    Find(Sort(Enabled(rules), BySize()), Fitting(parcel))
  }

  /** The smallest enabled vehicle class that the parcel fits. */
  function ChooseVehicleClass(rules: seq<VehicleRule>, parcel: Parcel): Option<VehicleClass> {
    var rule := ChooseVehicleRule(rules, parcel);
    if rule.Some? then Some(rule.value.vehicleClass) else None
  }

  lemma {:induction false} EnabledKeepsEnabled(rules: seq<VehicleRule>)
    ensures forall r :: r in Enabled(rules) <==> r in rules && r.enabled
  {
    if rules != [] {
      assert rules == [rules[0]] + rules[1..];
      EnabledKeepsEnabled(rules[1..]);
    }
  }

  lemma ChooseVehicleIsSmallest(rules: seq<VehicleRule>, parcel: Parcel)
    ensures match ChooseVehicleRule(rules, parcel)
            case None =>
              && ChooseVehicleClass(rules, parcel) == None
              && forall r :: r in rules && r.enabled ==> !TakesParcel(r, parcel)
            case Some(best) =>
              && ChooseVehicleClass(rules, parcel) == Some(best.vehicleClass)
              && best in rules && best.enabled && TakesParcel(best, parcel)
              && forall r :: r in rules && r.enabled && TakesParcel(r, parcel) ==> best.rank <= r.rank
  {
    forall r {
      FitsTakes(r, parcel);
    }
    hide TakesParcel;
    EnabledKeepsEnabled(rules);
    SortThenFindIsLeast(Enabled(rules), BySize(), Fitting(parcel));
    var p := Fitting(parcel);
    assert forall r :: p(r) == Fits(r, parcel);
  }

  predicate NoSmaller(a: Option<int>, b: Option<int>) {
    OrZero(a) <= OrZero(b)
  }

  /** A parcel of the same size class that is heavier or longer never gets a smaller
      vehicle, and gets none when the lighter one already got none. */
  lemma VehicleGrowsWithParcel(rules: seq<VehicleRule>, small: Parcel, big: Parcel)
    requires small.size == big.size
    requires small.weightKg.None? || (big.weightKg.Some? && small.weightKg.value <= big.weightKg.value)
    requires NoSmaller(small.lengthCm, big.lengthCm)
    requires NoSmaller(small.widthCm, big.widthCm)
    requires NoSmaller(small.heightCm, big.heightCm)
    ensures ChooseVehicleClass(rules, big).Some? ==>
              && ChooseVehicleClass(rules, small).Some?
              && ChooseVehicleRule(rules, small).value.rank <= ChooseVehicleRule(rules, big).value.rank
  {
    ChooseVehicleIsSmallest(rules, small);
    ChooseVehicleIsSmallest(rules, big);
    assert LongestSide(small) <= LongestSide(big);
  }
}

/** From the price at checkout to the shares recorded at completion, in integer
    kobo. */
module Money {
  import opened Wrappers
  import opened Routing

  // ----- The price --------------------------------------------------------

  datatype VehicleRate = VehicleRate(baseFeeKobo: int, perKmRateKobo: int)

  datatype PricingRule = PricingRule(
    baseFeeKobo: int,
    perKmRateKobo: int,
    destinationFeeKobo: int,
    roadDistanceFactor: real,
    vehicleRates: map<VehicleClass, VehicleRate>)

  ghost predicate ValidPricing(rule: PricingRule) {
    && rule.baseFeeKobo >= 0 && rule.perKmRateKobo >= 0
    && rule.destinationFeeKobo >= 0 && rule.roadDistanceFactor >= 0.0
    && forall v :: v in rule.vehicleRates ==>
         rule.vehicleRates[v].baseFeeKobo >= 0 && rule.vehicleRates[v].perKmRateKobo >= 0
  }

  /** Rounds half up, as JavaScript's Math.round does. */
  function Round(x: real): int {
    (x + 0.5).Floor
  }

  function Multiplier(vehicle: VehicleClass): real {
    match vehicle
    case Bicycle => 0.7
    case Motorbike => 1.0
    case Car => 2.4
    case Van => 5.0
    case Truck => 8.0
  }

  function RateFor(rule: PricingRule, vehicle: VehicleClass): VehicleRate {
    if vehicle in rule.vehicleRates then rule.vehicleRates[vehicle]
    else VehicleRate(Round(rule.baseFeeKobo as real * Multiplier(vehicle)),
                     Round(rule.perKmRateKobo as real * Multiplier(vehicle)))
  }

  function DeliveryFeeKobo(rate: VehicleRate, distanceKm: real): int {
    rate.baseFeeKobo + Round(rate.perKmRateKobo as real * distanceKm)
  }

  datatype FeeBreakdown = FeeBreakdown(deliveryFeeKobo: int, destinationFeeKobo: int, totalKobo: int)

  /** The road distance a price is for: a courier-measured one when there is one, else
      the straight line times the rule's factor. */
  function DistanceKm(rule: PricingRule, straightLineKm: real, routeKm: Option<real>): real {
    if routeKm.Some? then routeKm.value else straightLineKm * rule.roadDistanceFactor
  }

  /** The checkout price. */
  function CalculateFee(rule: PricingRule, straightLineKm: real, routeKm: Option<real>, vehicle: VehicleClass)
    : FeeBreakdown
  {
    var deliveryFee := DeliveryFeeKobo(RateFor(rule, vehicle), DistanceKm(rule, straightLineKm, routeKm));
    FeeBreakdown(deliveryFee, rule.destinationFeeKobo, deliveryFee + rule.destinationFeeKobo)
  }

  lemma RoundGrows(x: real, y: real)
    requires 0.0 <= x <= y
    ensures 0 <= Round(x) <= Round(y)
  {
  }

  lemma ScaledGrows(rate: int, a: real, b: real)
    requires 0 <= rate && 0.0 <= a <= b
    ensures 0.0 <= rate as real * a <= rate as real * b
  {
  }

  lemma RateIsNotNegative(rule: PricingRule, vehicle: VehicleClass)
    requires ValidPricing(rule)
    ensures RateFor(rule, vehicle).baseFeeKobo >= 0 && RateFor(rule, vehicle).perKmRateKobo >= 0
  {
    if vehicle !in rule.vehicleRates {
      var m := Multiplier(vehicle);
      ScaledGrows(rule.baseFeeKobo, 0.0, m);
      ScaledGrows(rule.perKmRateKobo, 0.0, m);
      RoundGrows(0.0, rule.baseFeeKobo as real * m);
      RoundGrows(0.0, rule.perKmRateKobo as real * m);
    }
  }

  lemma FeeGrows(rate: VehicleRate, shorter: real, longer: real)
    requires rate.baseFeeKobo >= 0 && rate.perKmRateKobo >= 0 && 0.0 <= shorter <= longer
    ensures 0 <= DeliveryFeeKobo(rate, shorter) <= DeliveryFeeKobo(rate, longer)
  {
    ScaledGrows(rate.perKmRateKobo, shorter, longer);
    RoundGrows(rate.perKmRateKobo as real * shorter, rate.perKmRateKobo as real * longer);
  }

  /** With a valid rule no part of the price is negative, the parts make the total,
      and a longer road never costs less. */
  lemma PriceIsSound(rule: PricingRule, vehicle: VehicleClass, straightLineKm: real, routeKm: Option<real>,
                     longerKm: real)
    requires ValidPricing(rule) && 0.0 <= straightLineKm && (routeKm.Some? ==> 0.0 <= routeKm.value)
    requires DistanceKm(rule, straightLineKm, routeKm) <= longerKm
    ensures var fee := CalculateFee(rule, straightLineKm, routeKm, vehicle);
            && fee.deliveryFeeKobo >= 0 && fee.destinationFeeKobo >= 0
            && fee.totalKobo == fee.deliveryFeeKobo + fee.destinationFeeKobo
            && fee.totalKobo <= CalculateFee(rule, straightLineKm, Some(longerKm), vehicle).totalKobo
  {
    RateIsNotNegative(rule, vehicle);
    assert 0.0 <= DistanceKm(rule, straightLineKm, routeKm);
    FeeGrows(RateFor(rule, vehicle), DistanceKm(rule, straightLineKm, routeKm), longerKm);
  }

  /** What the vehicles without a rate of their own cost against a motorbike. */
  predicate StandardMultiplier(vehicle: VehicleClass, multiplier: real) {
    match vehicle
    case Bicycle => multiplier == 0.7
    case Motorbike => multiplier == 1.0
    case Car => multiplier == 2.4
    case Van => multiplier == 5.0
    case Truck => multiplier == 8.0
  }

  /** The whole number nearest to `x`, halves up. */
  predicate IsNearest(n: int, x: real) {
    -0.5 < n as real - x <= 0.5
  }

  lemma RoundIsNearest(x: real)
    ensures IsNearest(Round(x), x)
  {
  }

  /** The vehicle's own rate, or its multiple of the rule's, to the nearest kobo. */
  predicate IsRate(rule: PricingRule, vehicle: VehicleClass, multiplier: real, rate: VehicleRate) {
    if vehicle in rule.vehicleRates then rate == rule.vehicleRates[vehicle]
    else
      && IsNearest(rate.baseFeeKobo, rule.baseFeeKobo as real * multiplier)
      && IsNearest(rate.perKmRateKobo, rule.perKmRateKobo as real * multiplier)
  }

  lemma RateForMeans(rule: PricingRule, vehicle: VehicleClass, multiplier: real)
    requires StandardMultiplier(vehicle, multiplier)
    ensures IsRate(rule, vehicle, multiplier, RateFor(rule, vehicle))
  {
    assert Multiplier(vehicle) == multiplier;
    hide Round, IsNearest, Multiplier, StandardMultiplier;
    RoundIsNearest(rule.baseFeeKobo as real * multiplier);
    RoundIsNearest(rule.perKmRateKobo as real * multiplier);
  }

  /** The base fee and, to the nearest kobo, so much for every kilometre. */
  predicate Charges(rate: VehicleRate, km: real, feeKobo: int) {
    IsNearest(feeKobo - rate.baseFeeKobo, rate.perKmRateKobo as real * km)
  }

  lemma DistanceIsCharged(rate: VehicleRate, km: real)
    ensures Charges(rate, km, DeliveryFeeKobo(rate, km))
  {
    RoundIsNearest(rate.perKmRateKobo as real * km);
  }

  /** A delivery costs the base fee of its vehicle's rate and, to the nearest kobo, so much
      for every kilometre of road: as measured if it has been, else the straight line times
      the rule's factor. The destination's fee comes on top. */
  lemma PriceMeans(rule: PricingRule, vehicle: VehicleClass, straightLineKm: real, routeKm: Option<real>,
                   multiplier: real)
    requires StandardMultiplier(vehicle, multiplier)
    ensures var fee := CalculateFee(rule, straightLineKm, routeKm, vehicle);
            var km := if routeKm.Some? then routeKm.value else straightLineKm * rule.roadDistanceFactor;
            && fee.destinationFeeKobo == rule.destinationFeeKobo
            && fee.totalKobo == fee.deliveryFeeKobo + rule.destinationFeeKobo
            && exists rate :: IsRate(rule, vehicle, multiplier, rate) && Charges(rate, km, fee.deliveryFeeKobo)
  {
    hide DeliveryFeeKobo, RateFor, IsRate, Charges;
    var km := DistanceKm(rule, straightLineKm, routeKm);
    RateForMeans(rule, vehicle, multiplier);
    DistanceIsCharged(RateFor(rule, vehicle), km);
    var fee := CalculateFee(rule, straightLineKm, routeKm, vehicle);
    assert fee.deliveryFeeKobo == DeliveryFeeKobo(RateFor(rule, vehicle), km);
    assert Charges(RateFor(rule, vehicle), km, fee.deliveryFeeKobo);
    assert IsRate(rule, vehicle, multiplier, RateFor(rule, vehicle));
    assert km == if routeKm.Some? then routeKm.value else straightLineKm * rule.roadDistanceFactor;
  }

  // ----- The shares -------------------------------------------------------

  datatype SplitRule = SplitRule(riderPercent: int, nodePercent: int, platformPercent: int)

  /** What an admin may enter: whole percentages that make a hundred. */
  predicate ValidSplit(rule: SplitRule) {
    && 0 <= rule.riderPercent <= 100 && 0 <= rule.nodePercent <= 100 && 0 <= rule.platformPercent <= 100
    && rule.riderPercent + rule.nodePercent + rule.platformPercent == 100
  }

  datatype Shares = Shares(riderShareKobo: int, nodeShareKobo: int, platformShareKobo: int)

  function CalculateSplit(amountKobo: int, riderPercent: int, nodePercent: int): Shares {
    var rider := amountKobo * riderPercent / 100;
    var node := amountKobo * nodePercent / 100;
    Shares(rider, node, amountKobo - rider - node)
  }

  /** The three percentages of an amount are not negative and make it up. */
  lemma PercentagesMakeWhole(amountKobo: int, rule: SplitRule)
    requires amountKobo >= 0 && ValidSplit(rule)
    ensures amountKobo * rule.riderPercent >= 0 && amountKobo * rule.nodePercent >= 0
              && amountKobo * rule.platformPercent >= 0
    ensures amountKobo * rule.riderPercent + amountKobo * rule.nodePercent + amountKobo * rule.platformPercent ==
              100 * amountKobo
  {
    var total := rule.riderPercent + rule.nodePercent + rule.platformPercent;
    assert amountKobo * rule.riderPercent + amountKobo * rule.nodePercent + amountKobo * rule.platformPercent ==
      amountKobo * total;
  }

  lemma Hundredth(n: int)
    requires n >= 0
    ensures 0 <= n / 100 && n - 100 < 100 * (n / 100) <= n
  {
  }

  /** Nothing is lost, nobody gets a negative share, the rider and the Node get
      their percentage rounded down, and the platform gets its percentage plus
      whatever the rounding left: less than two kobo. */
  lemma SplitIsExact(amountKobo: int, rule: SplitRule)
    requires amountKobo >= 0 && ValidSplit(rule)
    ensures var s := CalculateSplit(amountKobo, rule.riderPercent, rule.nodePercent);
            && s.riderShareKobo + s.nodeShareKobo + s.platformShareKobo == amountKobo
            && s.riderShareKobo >= 0 && s.nodeShareKobo >= 0 && s.platformShareKobo >= 0
            && amountKobo * rule.riderPercent - 100 < 100 * s.riderShareKobo <= amountKobo * rule.riderPercent
            && amountKobo * rule.nodePercent - 100 < 100 * s.nodeShareKobo <= amountKobo * rule.nodePercent
            && amountKobo * rule.platformPercent <= 100 * s.platformShareKobo
                 < amountKobo * rule.platformPercent + 200
  {
    PercentagesMakeWhole(amountKobo, rule);
    Hundredth(amountKobo * rule.riderPercent);
    Hundredth(amountKobo * rule.nodePercent);
  }

  datatype Party = RiderParty | CourierAllocation | OriginNode | DestinationNode | Platform

  /** A revenue_split_entries row. */
  datatype Entry = Entry(party: Party, partyId: Option<nat>, amountKobo: int, ruleId: nat, payable: bool)

  /** The four entries of a completed order. With no Locoomo rider the rider share
      is kept as an allocation that is never paid out. */
  function SplitEntries(amountKobo: int, destinationFeeKobo: int, riderId: Option<nat>,
                        origin: NodeId, destination: NodeId, rule: SplitRule, ruleId: nat): seq<Entry>
  {
    var shares := CalculateSplit(amountKobo - destinationFeeKobo, rule.riderPercent, rule.nodePercent);
    [ if riderId.Some? then Entry(RiderParty, riderId, shares.riderShareKobo, ruleId, true)
      else Entry(CourierAllocation, None, shares.riderShareKobo, ruleId, false),
      Entry(OriginNode, Some(origin), shares.nodeShareKobo, ruleId, true),
      Entry(DestinationNode, Some(destination), destinationFeeKobo, ruleId, true),
      Entry(Platform, None, shares.platformShareKobo, ruleId, true)]
  }

  /** Every party gets its percentage of the delivery revenue, rounded down for rider and
      Node, up to two kobo more for the platform; the destination Node gets its fee in
      full, and only the share of a Locoomo rider is ever paid out. */
  lemma EachPartyGetsItsShare(amountKobo: int, destinationFeeKobo: int, riderId: Option<nat>,
                              origin: NodeId, destination: NodeId, rule: SplitRule, ruleId: nat)
    requires 0 <= destinationFeeKobo <= amountKobo && ValidSplit(rule)
    ensures var e := SplitEntries(amountKobo, destinationFeeKobo, riderId, origin, destination, rule, ruleId);
            var revenue := amountKobo - destinationFeeKobo;
            && |e| == 4 && (forall k :: 0 <= k < 4 ==> e[k].ruleId == ruleId)
            && (forall k :: 0 <= k < 4 ==> (e[k].payable <==> k > 0 || riderId.Some?))
            && e[0].party == (if riderId.Some? then RiderParty else CourierAllocation) && e[0].partyId == riderId
            && revenue * rule.riderPercent - 100 < 100 * e[0].amountKobo <= revenue * rule.riderPercent
            && e[1].party == OriginNode && e[1].partyId == Some(origin)
            && revenue * rule.nodePercent - 100 < 100 * e[1].amountKobo <= revenue * rule.nodePercent
            && e[2].party == DestinationNode && e[2].partyId == Some(destination)
            && e[2].amountKobo == destinationFeeKobo
            && e[3].party == Platform && e[3].partyId == None
            && revenue * rule.platformPercent <= 100 * e[3].amountKobo < revenue * rule.platformPercent + 200
  {
    SplitIsExact(amountKobo - destinationFeeKobo, rule);
    hide CalculateSplit;
  }

  function TotalKobo(entries: seq<Entry>): int {
    if entries == [] then 0 else entries[0].amountKobo + TotalKobo(entries[1..])
  }

  /** The four entries add up to exactly what the customer paid, and none is
      negative. */
  lemma EntriesConserveMoney(amountKobo: int, destinationFeeKobo: int, riderId: Option<nat>,
                             origin: NodeId, destination: NodeId, rule: SplitRule, ruleId: nat)
    requires 0 <= destinationFeeKobo <= amountKobo && ValidSplit(rule)
    ensures var entries := SplitEntries(amountKobo, destinationFeeKobo, riderId, origin, destination, rule, ruleId);
            && |entries| == 4
            && TotalKobo(entries) == amountKobo
            && forall e :: e in entries ==> e.amountKobo >= 0 && e.ruleId == ruleId
  {
    SplitIsExact(amountKobo - destinationFeeKobo, rule);
    var entries := SplitEntries(amountKobo, destinationFeeKobo, riderId, origin, destination, rule, ruleId);
    var rest1, rest2, rest3 := entries[1..], entries[1..][1..], entries[1..][1..][1..];
    assert TotalKobo(rest3) == entries[3].amountKobo;
    assert TotalKobo(rest2) == entries[2].amountKobo + TotalKobo(rest3);
    assert TotalKobo(rest1) == entries[1].amountKobo + TotalKobo(rest2);
  }
}

/** A prepaid courier wallet: the headroom that every new delivery must leave is enough
    for all the surcharges that may still come. */
module Wallet {

  /** A delivery booked with the courier. It is live until it settles or is cancelled
      there, and tracked as long as Locoomo counts its leg as active. */
  datatype Delivery = Delivery(feeKobo: nat, surchargedKobo: nat, live: bool, tracked: bool)

  /** `availableKobo` is the courier's balance less the fees it holds for live deliveries. */
  datatype State = State(availableKobo: int, deliveries: seq<Delivery>)

  datatype Step =
    | Create(feeKobo: nat)
    | Surcharge(i: nat, kobo: nat)
    | Settle(i: nat)
    | CancelDelivery(i: nat)
    | Untrack(i: nat)
    | TopUp(kobo: nat)

  function CeilDiv(n: nat, d: nat): nat
    requires d > 0
  {
    (n + d - 1) / d
  }

  /** The quoted fees of the deliveries Locoomo counts as active. */
  function TrackedKobo(ds: seq<Delivery>): nat {
    if ds == [] then 0
    else TrackedKobo(ds[..|ds| - 1]) + (if ds[|ds| - 1].tracked then ds[|ds| - 1].feeKobo else 0)
  }

  /** 160% of the new fee and 60% of the others', rounded up. */
  function NeededKobo(feeKobo: nat, otherKobo: nat): nat {
    CeilDiv(8 * feeKobo + 3 * otherKobo, 5)
  }

  /** What the admin view keeps back for surcharges, and what is then free. */
  function ReservedKobo(ds: seq<Delivery>): nat {
    CeilDiv(3 * TrackedKobo(ds), 5)
  }

  function FreeKobo(s: State): int {
    s.availableKobo - ReservedKobo(s.deliveries)
  }

  predicate Accepts(s: State, feeKobo: nat) {
    s.availableKobo >= NeededKobo(feeKobo, TrackedKobo(s.deliveries))
  }

  predicate IsLive(s: State, i: nat) {
    i < |s.deliveries| && s.deliveries[i].live
  }

  /** What the courier may do: surcharge a live delivery up to 60% of its fee in all,
      settle it or cancel it. Locoomo never loses sight of a live delivery. */
  predicate Allowed(s: State, step: Step) {
    match step
    case Create(_) => true
    case Surcharge(i, kobo) =>
      IsLive(s, i) && 5 * (s.deliveries[i].surchargedKobo + kobo) <= 3 * s.deliveries[i].feeKobo
    case Settle(i) => IsLive(s, i)
    case CancelDelivery(i) => IsLive(s, i)
    case Untrack(i) => i < |s.deliveries| && !s.deliveries[i].live
    case TopUp(_) => true
  }

  function Next(s: State, step: Step): State
    requires Allowed(s, step)
  {
    match step
    case Create(feeKobo) =>
      if Accepts(s, feeKobo) then
        State(s.availableKobo - feeKobo, s.deliveries + [Delivery(feeKobo, 0, true, true)])
      else s
    case Surcharge(i, kobo) =>
      State(s.availableKobo - kobo,
            s.deliveries[i := s.deliveries[i].(surchargedKobo := s.deliveries[i].surchargedKobo + kobo)])
    case Settle(i) => s.(deliveries := s.deliveries[i := s.deliveries[i].(live := false)])
    case CancelDelivery(i) =>
      State(s.availableKobo + s.deliveries[i].feeKobo, s.deliveries[i := s.deliveries[i].(live := false)])
    case Untrack(i) => s.(deliveries := s.deliveries[i := s.deliveries[i].(tracked := false)])
    case TopUp(kobo) => s.(availableKobo := s.availableKobo + kobo)
  }

  /** 60% of a fee, in whole kobo. */
  function CapKobo(feeKobo: nat): nat {
    3 * feeKobo / 5
  }

  lemma CapBounds(feeKobo: nat)
    ensures 5 * CapKobo(feeKobo) <= 3 * feeKobo < 5 * CapKobo(feeKobo) + 5
    ensures 5 * CapKobo(feeKobo) == 3 * feeKobo <==> feeKobo % 5 == 0
  {
  }

  /** The most that a delivery may still be surcharged, in whole kobo. */
  function Allowance(d: Delivery): int {
    if d.live then CapKobo(d.feeKobo) - d.surchargedKobo else 0
  }

  function TotalAllowance(ds: seq<Delivery>): int {
    if ds == [] then 0 else TotalAllowance(ds[..|ds| - 1]) + Allowance(ds[|ds| - 1])
  }

  predicate DeliveryOk(d: Delivery) {
    d.live ==> d.tracked && 5 * d.surchargedKobo <= 3 * d.feeKobo
  }

  predicate AllOk(ds: seq<Delivery>) {
    forall d :: d in ds ==> DeliveryOk(d)
  }

  /** Whatever is available covers all the surcharges that may still come. */
  predicate Covered(s: State) {
    AllOk(s.deliveries) && s.availableKobo >= TotalAllowance(s.deliveries)
  }

  lemma {:induction false} AllowanceBounds(ds: seq<Delivery>)
    requires AllOk(ds)
    ensures 0 <= 5 * TotalAllowance(ds) <= 3 * TrackedKobo(ds)
  {
    hide CapKobo;
    if ds != [] {
      assert ds[|ds| - 1] in ds;
      CapBounds(ds[|ds| - 1].feeKobo);
      AllowanceBounds(ds[..|ds| - 1]);
    }
  }

  lemma {:induction false} AllowanceUpdate(ds: seq<Delivery>, i: nat, d: Delivery)
    requires i < |ds|
    ensures TotalAllowance(ds[i := d]) == TotalAllowance(ds) - Allowance(ds[i]) + Allowance(d)
    decreases |ds|
  {
    var front := ds[..|ds| - 1];
    if i < |front| {
      AllowanceUpdate(front, i, d);
      assert ds[i := d][..|front|] == front[i := d];
    } else {
      assert ds[i := d][..|front|] == front;
    }
  }

  /** Accepting a new delivery leaves all surcharges covered, and the balance reported as
      free is not negative. */
  lemma CreateKeepsCovered(s: State, feeKobo: nat)
    requires Covered(s)
    ensures Covered(Next(s, Create(feeKobo)))
    ensures Accepts(s, feeKobo) ==> FreeKobo(Next(s, Create(feeKobo))) >= 0
  {
    if Accepts(s, feeKobo) {
      var ds, added := s.deliveries, Delivery(feeKobo, 0, true, true);
      AllowanceBounds(ds);
      assert (ds + [added])[..|ds|] == ds;
      CapBounds(feeKobo);
      assert TotalAllowance(ds + [added]) == TotalAllowance(ds) + CapKobo(feeKobo);
      assert TrackedKobo(ds + [added]) == TrackedKobo(ds) + feeKobo;
    }
  }

  lemma StepKeepsCovered(s: State, step: Step)
    requires Covered(s) && Allowed(s, step)
    ensures Covered(Next(s, step))
  {
    match step {
      case Create(feeKobo) => CreateKeepsCovered(s, feeKobo);
      case Surcharge(i, kobo) =>
        assert s.deliveries[i] in s.deliveries;
        AllowanceUpdate(s.deliveries, i, s.deliveries[i].(surchargedKobo := s.deliveries[i].surchargedKobo + kobo));
      case Settle(i) =>
        assert s.deliveries[i] in s.deliveries;
        AllowanceUpdate(s.deliveries, i, s.deliveries[i].(live := false));
      case CancelDelivery(i) =>
        assert s.deliveries[i] in s.deliveries;
        AllowanceUpdate(s.deliveries, i, s.deliveries[i].(live := false));
      case Untrack(i) => AllowanceUpdate(s.deliveries, i, s.deliveries[i].(tracked := false));
      case TopUp(_) =>
    }
  }

  predicate AllAllowed(s: State, steps: seq<Step>)
    decreases |steps|
  {
    steps == [] || (Allowed(s, steps[0]) && AllAllowed(Next(s, steps[0]), steps[1..]))
  }

  function Run(s: State, steps: seq<Step>): State
    requires AllAllowed(s, steps)
    decreases |steps|
  {
    if steps == [] then s else Run(Next(s, steps[0]), steps[1..])
  }

  lemma {:induction false} RunKeepsCovered(s: State, steps: seq<Step>)
    requires Covered(s) && AllAllowed(s, steps)
    ensures Covered(Run(s, steps))
    decreases |steps|
  {
    if steps != [] {
      StepKeepsCovered(s, steps[0]);
      RunKeepsCovered(Next(s, steps[0]), steps[1..]);
    }
  }

  /** Over any run of creations, surcharges, settlements, cancellations and top-ups the
      wallet never goes negative, and right after a creation is accepted the balance
      reported as free is not negative either. */
  lemma WalletNeverNegative(availableKobo: nat, steps: seq<Step>, feeKobo: nat)
    requires AllAllowed(State(availableKobo, []), steps)
    ensures var s := Run(State(availableKobo, []), steps);
            && s.availableKobo >= 0
            && (Accepts(s, feeKobo) ==> FreeKobo(Next(s, Create(feeKobo))) >= 0)
  {
    var start := State(availableKobo, []);
    RunKeepsCovered(start, steps);
    AllowanceBounds(Run(start, steps).deliveries);
    CreateKeepsCovered(Run(start, steps), feeKobo);
  }

  // ----- The books ---------------------------------------------------------

  /** The fees that the courier holds for live deliveries. */
  function HeldKobo(ds: seq<Delivery>): nat {
    if ds == [] then 0
    else HeldKobo(ds[..|ds| - 1]) + (if ds[|ds| - 1].live then ds[|ds| - 1].feeKobo else 0)
  }

  /** All that has been surcharged. */
  function SurchargedKobo(ds: seq<Delivery>): nat {
    if ds == [] then 0 else SurchargedKobo(ds[..|ds| - 1]) + ds[|ds| - 1].surchargedKobo
  }

  lemma {:induction false} SumsUpdate(ds: seq<Delivery>, i: nat, d: Delivery)
    requires i < |ds|
    ensures HeldKobo(ds[i := d]) ==
              HeldKobo(ds) - (if ds[i].live then ds[i].feeKobo else 0) + if d.live then d.feeKobo else 0
    ensures SurchargedKobo(ds[i := d]) == SurchargedKobo(ds) - ds[i].surchargedKobo + d.surchargedKobo
    ensures TrackedKobo(ds[i := d]) ==
              TrackedKobo(ds) - (if ds[i].tracked then ds[i].feeKobo else 0) + if d.tracked then d.feeKobo else 0
    decreases |ds|
  {
    var front := ds[..|ds| - 1];
    if i < |front| {
      SumsUpdate(front, i, d);
      assert ds[i := d][..|front|] == front[i := d];
    } else {
      assert ds[i := d][..|front|] == front;
    }
  }

  /** What comes into the wallet with a step: a top-up, less what the courier takes for
      good, which is the fee of a delivery that settles and every surcharge. */
  function Income(s: State, step: Step): int
    requires Allowed(s, step)
  {
    match step
    case TopUp(kobo) => kobo
    case Surcharge(_, kobo) => 0 - kobo
    case Settle(i) => 0 - s.deliveries[i].feeKobo
    case _ => 0
  }

  /** The balance, held fees included, moves by that and nothing else; a cancelled delivery's
      fee is free again, and only live deliveries have any held. */
  lemma StepKeepsBooks(s: State, step: Step)
    requires Allowed(s, step)
    ensures var s' := Next(s, step);
            && s'.availableKobo + HeldKobo(s'.deliveries) == s.availableKobo + HeldKobo(s.deliveries) + Income(s, step)
            && SurchargedKobo(s'.deliveries) ==
                 SurchargedKobo(s.deliveries) + (if step.Surcharge? then step.kobo else 0)
            && HeldKobo(s'.deliveries) - HeldKobo(s.deliveries) ==
                 (match step
                  case Create(feeKobo) => if Accepts(s, feeKobo) then feeKobo else 0
                  case Settle(i) => 0 - s.deliveries[i].feeKobo
                  case CancelDelivery(i) => 0 - s.deliveries[i].feeKobo
                  case _ => 0)
            && TrackedKobo(s'.deliveries) - TrackedKobo(s.deliveries) ==
                 (match step
                  case Create(feeKobo) => if Accepts(s, feeKobo) then feeKobo else 0
                  case Untrack(i) => if s.deliveries[i].tracked then 0 - s.deliveries[i].feeKobo else 0
                  case _ => 0)
  {
    var s' := Next(s, step);
    match step {
      case Create(feeKobo) =>
        if Accepts(s, feeKobo) {
          assert s'.deliveries[..|s.deliveries|] == s.deliveries;
        }
      case Surcharge(i, _) => SumsUpdate(s.deliveries, i, s'.deliveries[i]);
      case Settle(i) => SumsUpdate(s.deliveries, i, s'.deliveries[i]);
      case CancelDelivery(i) => SumsUpdate(s.deliveries, i, s'.deliveries[i]);
      case Untrack(i) => SumsUpdate(s.deliveries, i, s'.deliveries[i]);
      case TopUp(_) =>
    }
  }

  /** All that came in over a run. */
  function TotalIncome(s: State, steps: seq<Step>): int
    requires AllAllowed(s, steps)
    decreases |steps|
  {
    if steps == [] then 0 else Income(s, steps[0]) + TotalIncome(Next(s, steps[0]), steps[1..])
  }

  /** Over any run not a kobo is lost or made: what is available and what is held make up
      what there was at the start and all that has come in since. */
  lemma {:induction false} RunKeepsBooks(s: State, steps: seq<Step>)
    requires AllAllowed(s, steps)
    ensures Run(s, steps).availableKobo + HeldKobo(Run(s, steps).deliveries) ==
            s.availableKobo + HeldKobo(s.deliveries) + TotalIncome(s, steps)
    decreases |steps|
  {
    if steps != [] {
      StepKeepsBooks(s, steps[0]);
      RunKeepsBooks(Next(s, steps[0]), steps[1..]);
    }
  }

  /** What a new delivery needs, and what is kept back for the others, to the kobo. */
  lemma HeadroomMeans(feeKobo: nat, ds: seq<Delivery>)
    ensures 5 * (NeededKobo(feeKobo, TrackedKobo(ds)) - 1) < 8 * feeKobo + 3 * TrackedKobo(ds)
              <= 5 * NeededKobo(feeKobo, TrackedKobo(ds))
    ensures 5 * (ReservedKobo(ds) - 1) < 3 * TrackedKobo(ds) <= 5 * ReservedKobo(ds)
  {
    hide TrackedKobo;
  }

  // ----- How much is enough ------------------------------------------------

  /** Some allowed run takes the wallet below zero. */
  ghost predicate CanGoNegative(s: State) {
    exists steps {:trigger AllAllowed(s, steps)} :: AllAllowed(s, steps) && Run(s, steps).availableKobo < 0
  }

  /** The courier surcharges a live delivery as far as it may. */
  lemma ChargeOne(s: State, i: nat)
    requires AllOk(s.deliveries) && i < |s.deliveries| && s.deliveries[i].live
    ensures Allowance(s.deliveries[i]) >= 0 && Allowed(s, Surcharge(i, Allowance(s.deliveries[i])))
    ensures var s' := Next(s, Surcharge(i, Allowance(s.deliveries[i])));
            && |s'.deliveries| == |s.deliveries| && AllOk(s'.deliveries) && Allowance(s'.deliveries[i]) == 0
            && (forall j :: 0 <= j < i ==> s'.deliveries[j] == s.deliveries[j])
            && s'.availableKobo == s.availableKobo - Allowance(s.deliveries[i])
            && TotalAllowance(s'.deliveries) == TotalAllowance(s.deliveries) - Allowance(s.deliveries[i])
  {
    var d := s.deliveries[i];
    assert d in s.deliveries;
    CapBounds(d.feeKobo);
    hide CapKobo, TotalAllowance;
    AllowanceUpdate(s.deliveries, i, d.(surchargedKobo := d.surchargedKobo + Allowance(d)));
  }

  lemma NoMore(d: Delivery)
    requires !d.live
    ensures Allowance(d) == 0
  {
  }

  /** The courier surcharges every live delivery from the `i`-th on as far as it may. */
  lemma {:induction false} ChargeAll(s: State, i: nat) returns (steps: seq<Step>)
    requires AllOk(s.deliveries) && i <= |s.deliveries|
    requires forall j :: 0 <= j < i ==> Allowance(s.deliveries[j]) == 0
    ensures AllAllowed(s, steps) && Run(s, steps).availableKobo == s.availableKobo - TotalAllowance(s.deliveries)
    decreases |s.deliveries| - i
  {
    if i == |s.deliveries| {
      NothingAllowed(s.deliveries);
      steps := [];
    } else {
      hide AllOk, Allowance, TotalAllowance;
      if s.deliveries[i].live {
        ChargeOne(s, i);
        var step := Surcharge(i, Allowance(s.deliveries[i]));
        hide Next, Allowed;
        var rest := ChargeAll(Next(s, step), i + 1);
        steps := [step] + rest;
        assert steps[1..] == rest;
      } else {
        NoMore(s.deliveries[i]);
        steps := ChargeAll(s, i + 1);
      }
    }
  }

  lemma {:induction false} NothingAllowed(ds: seq<Delivery>)
    requires forall d :: d in ds ==> Allowance(d) == 0
    ensures TotalAllowance(ds) == 0
  {
    if ds != [] {
      NothingAllowed(ds[..|ds| - 1]);
      assert ds[|ds| - 1] in ds;
    }
  }

  /** The wallet can go negative, by any run at all, exactly when it does not cover the
      surcharges that are still allowed. */
  lemma NegativeExactlyWhen(s: State)
    requires AllOk(s.deliveries)
    ensures CanGoNegative(s) <==> s.availableKobo < TotalAllowance(s.deliveries)
  {
    if s.availableKobo < TotalAllowance(s.deliveries) {
      var steps := ChargeAll(s, 0);
      assert AllAllowed(s, steps) && Run(s, steps).availableKobo < 0;
    } else if CanGoNegative(s) {
      var steps :| AllAllowed(s, steps) && Run(s, steps).availableKobo < 0;
      RunKeepsCovered(s, steps);
      AllowanceBounds(Run(s, steps).deliveries);
    }
  }

  /** No surcharge yet, and nothing is counted that is no longer live. */
  predicate Fresh(d: Delivery) {
    (d.live <==> d.tracked) && (d.live ==> d.surchargedKobo == 0)
  }

  predicate WholeFifths(ds: seq<Delivery>) {
    forall d :: d in ds && d.live ==> d.feeKobo % 5 == 0
  }

  lemma OneMoreFee(front: seq<Delivery>, last: Delivery)
    ensures WholeFifths(front + [last]) <==> WholeFifths(front) && (last.live ==> last.feeKobo % 5 == 0)
  {
    assert forall d :: d in front + [last] <==> d in front || d == last;
  }

  lemma {:induction false} AllowanceOfFresh(ds: seq<Delivery>)
    requires forall d :: d in ds ==> Fresh(d)
    ensures AllOk(ds) && 5 * TotalAllowance(ds) <= 3 * TrackedKobo(ds)
    ensures 5 * TotalAllowance(ds) == 3 * TrackedKobo(ds) <==> WholeFifths(ds)
  {
    if ds != [] {
      hide CapKobo, WholeFifths;
      var front, last := ds[..|ds| - 1], ds[|ds| - 1];
      assert ds == front + [last] && last in ds;
      AllowanceOfFresh(front);
      CapBounds(last.feeKobo);
      OneMoreFee(front, last);
    }
  }

  /** The headroom asked for is not a kobo more than rounding makes it: had a delivery been
      taken with one kobo less, beside any others that are live and not yet surcharged,
      the wallet could go negative exactly when every one of their fees is divisible by
      five, so that no surcharge is rounded down. */
  lemma HeadroomIsTight(s: State, feeKobo: nat)
    requires forall d :: d in s.deliveries ==> Fresh(d)
    requires s.availableKobo == NeededKobo(feeKobo, TrackedKobo(s.deliveries)) - 1
    ensures !Accepts(s, feeKobo)
    ensures CanGoNegative(State(s.availableKobo - feeKobo, s.deliveries + [Delivery(feeKobo, 0, true, true)])) <==>
              feeKobo % 5 == 0 && WholeFifths(s.deliveries)
  {
    var added := Delivery(feeKobo, 0, true, true);
    var ds := s.deliveries + [added];
    assert ds[..|ds| - 1] == s.deliveries;
    AllowanceOfFresh(ds);
    OneMoreFee(s.deliveries, added);
    NegativeExactlyWhen(State(s.availableKobo - feeKobo, ds));
  }
}

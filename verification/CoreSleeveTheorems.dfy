/** What the sleeve's decisions keep: feasibility, no ping-pong, the expiry of the funding
    reserve over whole runs, the stepped de-risk, and the cost of the alpha headroom. */
module CoreSleeveTheorems {
  import opened CoreSleeve

  // ---- feasibility of one order ----

  lemma HaircutFits(cfg: Config, b: Bar, buy: real)
    requires buy > 0.0 && buy <= Spendable(cfg, b)
    ensures b.cash - buy * (1.0 + COST_HAIRCUT) >= cfg.cashFloorPct * b.nav
  {
    var free := Max(0.0, b.cash - cfg.cashFloorPct * b.nav);
    assert Spendable(cfg, b) * (1.0 + COST_HAIRCUT) == free;
    assert buy * (1.0 + COST_HAIRCUT) <= free;
  }

  /** No order sells more than the core holds; a buy, with its all-in cost, leaves the declared
      cash floor; and no rebalance goes past its target. This holds whatever the ledger says. */
  lemma OrderFeasible(cfg: Config, b: Bar, ledger: Ledger)
    requires b.nav > 0.0
    ensures var o := Decide(cfg, b, ledger).0;
            && (o.notional < 0.0 ==> -o.notional <= Core(b))
            && (o.notional > 0.0 ==> b.cash - o.notional * (1.0 + COST_HAIRCUT) >= cfg.cashFloorPct * b.nav)
            && (o.notional > 0.0 ==> Core(b) + o.notional <= Target(cfg, b) * b.nav)
            && (o.notional < 0.0 && o.reason != Funding ==> Core(b) + o.notional >= Target(cfg, b) * b.nav)
  {
    hide TargetWeight, Spendable;
    DriftIsDollars(cfg, b);
    var o := Decide(cfg, b, ledger).0;
    if o.notional > 0.0 { HaircutFits(cfg, b, o.notional); }
  }

  /** The next bar at frozen prices and zero cost, once the order has filled. */
  function Filled(b: Bar, notional: real): Bar {
    b.(coreValue := Core(b) + notional, cash := b.cash - notional)
  }

  /** At frozen prices a rebalance is never followed by an opposite one, whatever the clock, the
      circuit, the budget and the ledger do in between. */
  lemma NoPingPong(cfg: Config, b: Bar, ledger: Ledger, next: Bar, later: Ledger)
    requires b.nav > 0.0
    requires var o := Decide(cfg, b, ledger).0;
             o.reason != Funding && next == Filled(b, o.notional).(
               daysSince := next.daysSince, funding := next.funding,
               circuitTripped := next.circuitTripped, turnoverExhausted := next.turnoverExhausted)
    requires Decide(cfg, next, later).0.reason != Funding
    ensures var o, o' := Decide(cfg, b, ledger).0, Decide(cfg, next, later).0;
            !(o.notional > 0.0 && o'.notional < 0.0) && !(o.notional < 0.0 && o'.notional > 0.0)
  {
    hide Decide, TargetWeight;
    OrderFeasible(cfg, b, ledger);
    OrderFeasible(cfg, next, later);
    OrderSign(cfg, next, later);
  }

  /** Buys only from below the target, rebalancing sells only from above it. */
  lemma OrderSign(cfg: Config, b: Bar, ledger: Ledger)
    requires b.nav > 0.0
    ensures var o := Decide(cfg, b, ledger).0;
            && (o.notional > 0.0 ==> Core(b) < Target(cfg, b) * b.nav)
            && (o.notional < 0.0 && o.reason != Funding ==> Core(b) > Target(cfg, b) * b.nav)
  {
    hide TargetWeight, Spendable;
    DriftIsDollars(cfg, b);
  }

  // ---- what each order is, said without the decision ----

  /** An order reports the target and the weight it was decided on. */
  lemma OrderReports(cfg: Config, b: Bar, ledger: Ledger)
    ensures var o := Decide(cfg, b, ledger).0;
            && (o.reason == Disabled <==> !cfg.enabled)
            && (o.reason == NoNav <==> cfg.enabled && b.nav <= 0.0)
            && (o.reason in {Disabled, NoNav} ==> o == Order(0.0, o.reason, 0.0, 0.0, 0.0))
            && (o.reason !in {Disabled, NoNav} ==> o.target == Target(cfg, b) && o.current * b.nav == Core(b))
            && (o.notional != 0.0 <==> o.reason in {Funding, BearDerisk, BandDeploy, BandRelease})
  {
    hide Target, DriftUsd, Spendable, Headroom, Outstanding, StepCap;
    if b.nav > 0.0 { assert Core(b) / b.nav * b.nav == Core(b); }
  }

  /** Funding is released exactly when the core and the shortfall are both worth an order. Cash and
      sale together are then the request, or all there is, and the credit grows by the sale. */
  lemma FundingExact(cfg: Config, b: Bar, ledger: Ledger)
    ensures var (o, after) := Decide(cfg, b, ledger);
            var cash := if b.cash > 0.0 then b.cash else 0.0;
            && (o.reason == Funding <==> cfg.enabled && b.nav > 0.0 && b.coreValue >= 5.0 && b.funding - cash >= 5.0)
            && (o.reason == Funding ==>
                  && cash - o.notional <= b.funding && -o.notional <= b.coreValue
                  && (cash - o.notional == b.funding || -o.notional == b.coreValue))
            && (o.reason == Funding && cfg.reserveDecisions > 0 ==>
                  var credit := (if ledger.usd > 0.0 then ledger.usd else 0.0) - o.notional;
                  after == Ledger(if credit <= b.nav then credit else b.nav, cfg.reserveDecisions))
            && (o.reason == Funding && cfg.reserveDecisions == 0 ==> after == ledger)
  {
    hide Target, DriftUsd, Spendable, Headroom, Outstanding, StepCap, Weight;
  }

  /** A sale of x keeps the core and its target, and in steps the step. */
  predicate MaySell(cfg: Config, b: Bar, x: real, stepped: bool)
    requires b.nav > 0.0
  {
    && 0.0 <= x <= Core(b) && (x > 0.0 ==> Core(b) - x >= Target(cfg, b) * b.nav)
    && (stepped && cfg.bearMaxStepPct > 0.0 ==> x <= cfg.bearMaxStepPct * b.nav)
  }

  ghost predicate MostSold(cfg: Config, b: Bar, x: real, stepped: bool)
    requires b.nav > 0.0
  {
    MaySell(cfg, b, x, stepped) && forall y :: MaySell(cfg, b, y, stepped) ==> y <= x
  }

  /** The order is a sale of the most allowed, or nothing when that is less than an order. */
  ghost predicate Sells(cfg: Config, b: Bar, o: Order, stepped: bool, acts: Reason, small: Reason)
    requires b.nav > 0.0
  {
    exists x :: MostSold(cfg, b, x, stepped)
                && (if x >= 5.0 then o.reason == acts && o.notional == -x else o.reason == small && o.notional == 0.0)
  }

  predicate Above(cfg: Config, b: Bar)
    requires b.nav > 0.0
  {
    Core(b) > Target(cfg, b) * b.nav
  }

  /** Within the band, in dollars. */
  predicate InBand(cfg: Config, b: Bar)
    requires b.nav > 0.0
  {
    var gap := Core(b) - Target(cfg, b) * b.nav;
    -cfg.bandPct * b.nav <= gap <= cfg.bandPct * b.nav
  }

  predicate TooSoon(cfg: Config, b: Bar) {
    b.daysSince.Some? && b.daysSince.value < cfg.minDays
  }

  lemma BandIsDollars(cfg: Config, b: Bar)
    requires b.nav > 0.0
    ensures InBand(cfg, b) <==> -cfg.bandPct <= Target(cfg, b) - Weight(b) <= cfg.bandPct
    ensures Above(cfg, b) <==> DriftUsd(cfg, b) < 0.0
    ensures Core(b) < Target(cfg, b) * b.nav <==> DriftUsd(cfg, b) > 0.0
  {
    hide Target, Weight;
    DriftIsDollars(cfg, b);
    var drift := Target(cfg, b) - Weight(b);
    assert drift * b.nav == Target(cfg, b) * b.nav - Core(b);
    Scaled(drift, cfg.bandPct, b.nav);
    Scaled(-cfg.bandPct, drift, b.nav);
  }

  lemma Scaled(x: real, y: real, c: real)
    requires c > 0.0
    ensures x <= y <==> x * c <= y * c
  {
    if x <= y { assert (y - x) * c >= 0.0; } else { assert (x - y) * c > 0.0; }
  }

  /** Above the target, with nothing to fund: a confirmed bear sells at once, in steps; otherwise the
      band and then the cadence hold, and what is sold brings the core to its target. */
  lemma SellExact(cfg: Config, b: Bar, ledger: Ledger)
    requires cfg.enabled && b.nav > 0.0 && Decide(cfg, b, ledger).0.reason != Funding && Above(cfg, b)
    ensures var (o, after) := Decide(cfg, b, ledger);
            && after == ledger
            && if ConfirmedBear(cfg, b.bear, b.dwell) then Sells(cfg, b, o, true, BearDerisk, BearDeriskBelowMin)
               else if InBand(cfg, b) then o.reason == WithinBand
               else if TooSoon(cfg, b) then o.reason == CadenceHold
               else Sells(cfg, b, o, false, BandRelease, ReleaseBelowMin)
  {
    hide Target, Weight, DriftUsd, StepCap, Deploy, MostSold, InBand;
    BandIsDollars(cfg, b);
    MostSoldIs(cfg, b);
  }

  lemma MostSoldIs(cfg: Config, b: Bar)
    requires b.nav > 0.0 && Above(cfg, b)
    ensures MostSold(cfg, b, Min(-DriftUsd(cfg, b), Core(b)), false)
    ensures MostSold(cfg, b, BearSell(cfg, b), true)
  {
    hide Target, Weight, DriftUsd;
    DriftIsDollars(cfg, b);
    StepSign(cfg, b);
  }

  lemma StepSign(cfg: Config, b: Bar)
    requires b.nav > 0.0
    ensures StepCap(cfg, b) > 0.0 <==> cfg.bearMaxStepPct > 0.0
    ensures cfg.bearMaxStepPct > 0.0 ==> StepCap(cfg, b) == cfg.bearMaxStepPct * b.nav
  {
    if cfg.bearMaxStepPct > 0.0 { assert cfg.bearMaxStepPct * b.nav > 0.0; }
  }

  /** A buy of x stays within the target and, with its cost and `kept` more, above the cash floor. */
  predicate MayBuy(cfg: Config, b: Bar, x: real, kept: real)
    requires b.nav > 0.0
  {
    x == 0.0
    || (x > 0.0 && Core(b) + x <= Target(cfg, b) * b.nav
        && b.cash - (x + kept) * 1.006 >= cfg.cashFloorPct * b.nav)
  }

  /** The alpha book's headroom is kept too, but never so that the core loses its own minimum. */
  predicate MayDeploy(cfg: Config, b: Bar, x: real)
    requires b.nav > 0.0
  {
    MayBuy(cfg, b, x, 0.0)
      && (x <= 50.0 || cfg.alphaHeadroomPct <= 0.0 || MayBuy(cfg, b, x, cfg.alphaHeadroomPct * b.nav))
  }

  ghost predicate MostDeployed(cfg: Config, b: Bar, x: real)
    requires b.nav > 0.0
  {
    MayDeploy(cfg, b, x) && forall y :: MayDeploy(cfg, b, y) ==> y <= x
  }

  /** The most that leaves the outstanding credit untouched. */
  ghost predicate MostUnclaimed(cfg: Config, b: Bar, ledger: Ledger, x: real)
    requires b.nav > 0.0
  {
    MayBuy(cfg, b, x, ledger.usd) && forall y :: MayBuy(cfg, b, y, ledger.usd) ==> y <= x
  }

  predicate CreditLive(cfg: Config, ledger: Ledger) {
    cfg.reserveDecisions > 0 && ledger.decisions > 0 && ledger.usd > 0.0
  }

  /** The order, when `most` may be deployed and `less` leaves the credit untouched. */
  ghost predicate Deployed(cfg: Config, b: Bar, ledger: Ledger, o: Order, after: Ledger, most: real, less: real)
    requires b.nav > 0.0
  {
    && MostDeployed(cfg, b, most) && (CreditLive(cfg, ledger) ==> MostUnclaimed(cfg, b, ledger, less))
    && if most < 50.0 then o.reason == DeployBelowMin && after == ledger
       else if !CreditLive(cfg, ledger) || less >= most - NOISE then
         o.reason == BandDeploy && o.notional == most && after == ledger
       else
         && after == Ledger(if ledger.decisions == 1 then 0.0 else ledger.usd, ledger.decisions - 1)
         && if less < 50.0 then o.reason == FundingReleaseReserved else o.reason == BandDeploy && o.notional == less
  }

  ghost predicate Deploys(cfg: Config, b: Bar, ledger: Ledger, o: Order, after: Ledger)
    requires b.nav > 0.0
  {
    exists most, less :: Deployed(cfg, b, ledger, o, after, most, less)
  }

  /** At or below the target, with nothing to fund: the band, the cadence, the budget and the circuit
      hold in this order, and what is bought is the most that target, cash floor and headroom allow,
      less what an outstanding credit has promised away. */
  lemma BuyExact(cfg: Config, b: Bar, ledger: Ledger)
    requires cfg.enabled && b.nav > 0.0 && Decide(cfg, b, ledger).0.reason != Funding && !Above(cfg, b)
    ensures var (o, after) := Decide(cfg, b, ledger);
            if InBand(cfg, b) then o.reason == WithinBand && after == ledger
            else if TooSoon(cfg, b) then o.reason == CadenceHold && after == ledger
            else if Core(b) == Target(cfg, b) * b.nav then o.reason == ReleaseBelowMin && after == ledger
            else if b.turnoverExhausted then o.reason == TurnoverExhausted && after == ledger
            else if b.circuitTripped then o.reason == CircuitBlocksAdd && after == ledger
            else Deploys(cfg, b, ledger, o, after)
  {
    hide Target, Weight, DriftUsd, StepCap, Deploy, InBand, Deploys;
    BandIsDollars(cfg, b);
    DriftIsDollars(cfg, b);
    if DriftUsd(cfg, b) > 0.0 && !b.turnoverExhausted && !b.circuitTripped { DeployExact(cfg, b, ledger); }
    DeployHeld(cfg, b, ledger);
  }

  lemma DeployHeld(cfg: Config, b: Bar, ledger: Ledger)
    requires b.nav > 0.0
    ensures b.turnoverExhausted ==>
              Deploy(cfg, b, ledger).0.reason == TurnoverExhausted && Deploy(cfg, b, ledger).1 == ledger
    ensures !b.turnoverExhausted && b.circuitTripped ==>
              Deploy(cfg, b, ledger).0.reason == CircuitBlocksAdd && Deploy(cfg, b, ledger).1 == ledger
  {
    hide Target, Weight, DriftUsd, Spendable, Headroom, Outstanding;
  }

  lemma DeployExact(cfg: Config, b: Bar, ledger: Ledger)
    requires b.nav > 0.0 && DriftUsd(cfg, b) > 0.0 && !b.turnoverExhausted && !b.circuitTripped
    ensures Deploys(cfg, b, ledger, Deploy(cfg, b, ledger).0, Deploy(cfg, b, ledger).1)
  {
    hide Target, Weight, DriftUsd, Spendable, WantedHeadroom, MostDeployed, MostUnclaimed;
    var spendable, drift := Spendable(cfg, b), DriftUsd(cfg, b);
    var most := Min(drift, Max(0.0, spendable - Headroom(cfg, b)));
    var less := Min(drift, Max(0.0, spendable - ledger.usd));
    MostDeployedIs(cfg, b);
    if CreditLive(cfg, ledger) { MostUnclaimedIs(cfg, b, ledger); }
    NonNegative(cfg, b);
    assert Deployed(cfg, b, ledger, Deploy(cfg, b, ledger).0, Deploy(cfg, b, ledger).1, most, less);
  }

  lemma BuyIsSpending(cfg: Config, b: Bar, x: real, kept: real)
    requires b.nav > 0.0 && x > 0.0 && kept >= 0.0
    ensures MayBuy(cfg, b, x, kept) <==> x <= DriftUsd(cfg, b) && x + kept <= Spendable(cfg, b)
  {
    hide Target;
    DriftIsDollars(cfg, b);
    var free := b.cash - cfg.cashFloorPct * b.nav;
    assert Spendable(cfg, b) * (1.0 + COST_HAIRCUT) == Max(0.0, free);
  }

  lemma MostDeployedIs(cfg: Config, b: Bar)
    requires b.nav > 0.0 && DriftUsd(cfg, b) > 0.0
    ensures MostDeployed(cfg, b, Min(DriftUsd(cfg, b), Max(0.0, Spendable(cfg, b) - Headroom(cfg, b))))
  {
    hide DriftUsd, Spendable, MayBuy;
    HeadroomSign(cfg, b);
    forall x: real, kept: real | x > 0.0 && kept >= 0.0
      ensures MayBuy(cfg, b, x, kept) <==> x <= DriftUsd(cfg, b) && x + kept <= Spendable(cfg, b)
    {
      BuyIsSpending(cfg, b, x, kept);
    }
    NothingBought(cfg, b);
  }

  lemma NothingBought(cfg: Config, b: Bar)
    requires b.nav > 0.0
    ensures forall kept :: MayBuy(cfg, b, 0.0, kept)
    ensures forall x, kept :: MayBuy(cfg, b, x, kept) ==> x >= 0.0
    ensures Spendable(cfg, b) >= 0.0
  {
    hide Target;
  }

  lemma HeadroomSign(cfg: Config, b: Bar)
    requires b.nav > 0.0
    ensures WantedHeadroom(cfg, b) == if cfg.alphaHeadroomPct > 0.0 then cfg.alphaHeadroomPct * b.nav else 0.0
    ensures cfg.alphaHeadroomPct > 0.0 ==> cfg.alphaHeadroomPct * b.nav > 0.0
  {
  }

  lemma MostUnclaimedIs(cfg: Config, b: Bar, ledger: Ledger)
    requires b.nav > 0.0 && DriftUsd(cfg, b) > 0.0 && ledger.usd > 0.0
    ensures MostUnclaimed(cfg, b, ledger, Min(DriftUsd(cfg, b), Max(0.0, Spendable(cfg, b) - ledger.usd)))
  {
    hide DriftUsd, Spendable, MayBuy;
    forall x: real | x > 0.0
      ensures MayBuy(cfg, b, x, ledger.usd) <==> x <= DriftUsd(cfg, b) && x + ledger.usd <= Spendable(cfg, b)
    {
      BuyIsSpending(cfg, b, x, ledger.usd);
    }
    NothingBought(cfg, b);
  }

  /** What a deploy reports as withheld is what the headroom made it leave. */
  lemma WithheldIs(cfg: Config, b: Bar, ledger: Ledger)
    requires b.nav > 0.0
    ensures var o := Decide(cfg, b, ledger).0;
            && (o.reason != BandDeploy || cfg.alphaHeadroomPct <= 0.0 ==> o.withheld == 0.0)
            && (o.reason == BandDeploy && cfg.alphaHeadroomPct > 0.0 ==>
                  && 0.0 <= o.withheld <= cfg.alphaHeadroomPct * b.nav
                  && (o.withheld == cfg.alphaHeadroomPct * b.nav || o.withheld == Spendable(cfg, b) - 50.0))
  {
    hide Target, Weight, DriftUsd, Spendable, StepCap;
    HeadroomSign(cfg, b);
    NothingBought(cfg, b);
  }

  // ---- the target itself ----

  /** Outside a confirmed bear core, satellite and cash floor make up the book, or the core stands at
      the end of its band that comes nearest. */
  lemma TargetExact(cfg: Config, satelliteWeight: real, bear: bool, dwell: int)
    requires cfg.enabled && !(bear && dwell >= cfg.bearMinDwell)
    ensures var t, satellite := TargetWeight(cfg, satelliteWeight, bear, dwell), if satelliteWeight > 0.0
                                                                                 then satelliteWeight else 0.0;
            var book := t + satellite + cfg.cashFloorPct;
            && Low(cfg) <= t <= High(cfg)
            && (book == 1.0 || (t == Low(cfg) && book > 1.0) || (t == High(cfg) && book < 1.0))
  {
  }

  lemma NoTargetWhenDisabled(cfg: Config, satelliteWeight: real, bear: bool, dwell: int)
    ensures !cfg.enabled ==> TargetWeight(cfg, satelliteWeight, bear, dwell) == 0.0
  {
  }

  /** In a confirmed bear it is that, or what is left of the base target if that is less; never
      under the band. */
  lemma BearTargetExact(cfg: Config, satelliteWeight: real, dwell: int)
    requires cfg.enabled && dwell >= cfg.bearMinDwell
    ensures var calm, t := TargetWeight(cfg, satelliteWeight, false, dwell),
            TargetWeight(cfg, satelliteWeight, true, dwell);
            && t <= calm && Low(cfg) <= t
            && (t == calm || t == cfg.targetPct * cfg.bearScale || t == Low(cfg))
            && (t < calm ==> t >= cfg.targetPct * cfg.bearScale)
            && (cfg.targetPct * cfg.bearScale <= calm ==> t <= cfg.targetPct * cfg.bearScale || t == Low(cfg))
  {
  }

  // ---- alpha headroom ----

  function ReserveOff(cfg: Config): Config { cfg.(reserveDecisions := 0) }
  function NoHeadroom(cfg: Config): Config { cfg.(alphaHeadroomPct := 0.0) }

  /** With the reserve off, any headroom deploys on exactly the bars headroom 0 deploys on, never
      more, and always at least the minimum clip; every other decision is untouched. */
  lemma HeadroomOnlyShrinks(cfg: Config, b: Bar, ledger: Ledger)
    requires cfg.reserveDecisions == 0
    ensures var with, without := Decide(cfg, b, ledger).0, Decide(NoHeadroom(cfg), b, ledger).0;
            && with.reason == without.reason
            && (with.reason == BandDeploy ==> MIN_DEPLOY <= with.notional <= without.notional)
            && (with.reason != BandDeploy ==> with == without)
  {
    hide Target, Weight, DriftUsd, StepCap, Spendable, WantedHeadroom;
    if b.nav > 0.0 {
      SameNumbers(cfg, b);
      NonNegative(cfg, b);
    }
  }

  lemma NonNegative(cfg: Config, b: Bar)
    requires b.nav > 0.0
    ensures Spendable(cfg, b) >= 0.0 && WantedHeadroom(cfg, b) >= 0.0 && StepCap(cfg, b) >= 0.0
    ensures WantedHeadroom(NoHeadroom(cfg), b) == 0.0
  {
    hide TargetWeight;
  }

  /** Turning the levers off changes none of the other numbers a decision is made from. */
  lemma SameNumbers(cfg: Config, b: Bar)
    requires b.nav > 0.0
    ensures forall off :: off == NoHeadroom(cfg) || off == ReserveOff(cfg) ==>
              && DriftUsd(off, b) == DriftUsd(cfg, b) && Spendable(off, b) == Spendable(cfg, b)
              && StepCap(off, b) == StepCap(cfg, b)
    ensures WantedHeadroom(ReserveOff(cfg), b) == WantedHeadroom(cfg, b)
    ensures Target(NoHeadroom(cfg), b) == Target(cfg, b) == Target(ReserveOff(cfg), b)
  {
    hide TargetWeight, Weight;
    SameTarget(cfg, Max(0.0, b.satelliteValue) / b.nav, b.bear, b.dwell);
  }

  lemma SameTarget(cfg: Config, satelliteWeight: real, bear: bool, dwell: int)
    ensures TargetWeight(NoHeadroom(cfg), satelliteWeight, bear, dwell)
            == TargetWeight(cfg, satelliteWeight, bear, dwell)
    ensures TargetWeight(ReserveOff(cfg), satelliteWeight, bear, dwell)
            == TargetWeight(cfg, satelliteWeight, bear, dwell)
  {
    hide Max, Min;
    SameInputs(cfg, NoHeadroom(cfg), satelliteWeight, bear, dwell);
    SameInputs(cfg, ReserveOff(cfg), satelliteWeight, bear, dwell);
  }

  /** What the target is made from. */
  lemma SameInputs(a: Config, b: Config, satelliteWeight: real, bear: bool, dwell: int)
    requires a.enabled == b.enabled && a.cashFloorPct == b.cashFloorPct && a.minPct == b.minPct && a.maxPct == b.maxPct
    requires a.targetPct == b.targetPct && a.bearScale == b.bearScale && a.bearMinDwell == b.bearMinDwell
    ensures TargetWeight(a, satelliteWeight, bear, dwell) == TargetWeight(b, satelliteWeight, bear, dwell)
  {
    hide BearTarget;
    SameInBear(a, b);
  }

  lemma SameInBear(a: Config, b: Config)
    requires a.minPct == b.minPct && a.maxPct == b.maxPct && a.targetPct == b.targetPct && a.bearScale == b.bearScale
    ensures BearTarget(a) == BearTarget(b)
  {
    assert a.targetPct * a.bearScale == b.targetPct * b.bearScale;
  }

  // ---- the funding reserve over a run ----

  predicate LedgerOk(ledger: Ledger) {
    ledger.usd >= 0.0 && ledger.decisions >= 0 && (ledger.decisions == 0 ==> ledger.usd == 0.0)
  }

  /** The reserve changes this bar's order. */
  predicate Differs(cfg: Config, b: Bar, ledger: Ledger) {
    Decide(cfg, b, ledger).0 != Decide(ReserveOff(cfg), b, ledger).0
  }

  predicate Releases(cfg: Config, b: Bar, ledger: Ledger) {
    cfg.reserveDecisions > 0 && Decide(cfg, b, ledger).0.reason == Funding
  }

  /** Without the reserve the ledger plays no part. */
  lemma OffIgnoresLedger(cfg: Config, b: Bar, l1: Ledger, l2: Ledger)
    ensures Decide(ReserveOff(cfg), b, l1).0 == Decide(ReserveOff(cfg), b, l2).0
    ensures Decide(ReserveOff(cfg), b, l1).1 == l1
  {
    hide TargetWeight, Spendable, Headroom;
  }

  /** One bar: the ledger stays sound; a release restarts the budget; otherwise the budget falls
      by one exactly when the order differs from the reserve-off order. */
  lemma OneBar(cfg: Config, b: Bar, ledger: Ledger)
    requires LedgerOk(ledger)
    ensures LedgerOk(Decide(cfg, b, ledger).1)
    ensures Releases(cfg, b, ledger) ==>
              Decide(cfg, b, ledger).1.decisions == cfg.reserveDecisions && !Differs(cfg, b, ledger)
    ensures !Releases(cfg, b, ledger) ==>
              Decide(cfg, b, ledger).1.decisions == ledger.decisions - (if Differs(cfg, b, ledger) then 1 else 0)
  {
    hide Target, Weight, DriftUsd, StepCap, Spendable, WantedHeadroom;
    if b.nav > 0.0 {
      SameNumbers(cfg, b);
      NonNegative(cfg, b);
    }
  }

  function After(cfg: Config, bars: seq<Bar>, ledger: Ledger): Ledger
    decreases |bars|
  {
    if bars == [] then ledger else Decide(cfg, bars[|bars| - 1], After(cfg, bars[..|bars| - 1], ledger)).1
  }

  /** How many of a run's orders differ from what the reserve-off sleeve gives on the same bars. */
  function DifferingOrders(cfg: Config, bars: seq<Bar>, ledger: Ledger): nat
    decreases |bars|
  {
    if bars == [] then 0
    else
      var before := After(cfg, bars[..|bars| - 1], ledger);
      DifferingOrders(cfg, bars[..|bars| - 1], ledger) + if Differs(cfg, bars[|bars| - 1], before) then 1 else 0
  }

  function ReleaseCount(cfg: Config, bars: seq<Bar>, ledger: Ledger): nat
    decreases |bars|
  {
    if bars == [] then 0
    else
      var before := After(cfg, bars[..|bars| - 1], ledger);
      ReleaseCount(cfg, bars[..|bars| - 1], ledger) + if Releases(cfg, bars[|bars| - 1], before) then 1 else 0
  }

  /** Between releases every differing order spends one unit: what is spent and what is left add
      up to what there was. Over any run, each release allows at most one budget more. */
  lemma {:induction false} ReserveBudget(cfg: Config, bars: seq<Bar>, ledger: Ledger)
    requires LedgerOk(ledger)
    ensures LedgerOk(After(cfg, bars, ledger))
    ensures ReleaseCount(cfg, bars, ledger) == 0 ==>
              DifferingOrders(cfg, bars, ledger) + After(cfg, bars, ledger).decisions == ledger.decisions
    ensures DifferingOrders(cfg, bars, ledger) + After(cfg, bars, ledger).decisions
            <= ledger.decisions + ReleaseCount(cfg, bars, ledger) * cfg.reserveDecisions
    decreases |bars|
  {
    hide Decide, Differs, Releases;
    if bars != [] {
      var rest := bars[..|bars| - 1];
      ReserveBudget(cfg, rest, ledger);
      OneBar(cfg, bars[|bars| - 1], After(cfg, rest, ledger));
      AnotherRelease(ReleaseCount(cfg, rest, ledger), cfg.reserveDecisions);
    }
  }

  lemma AnotherRelease(n: nat, budget: nat)
    ensures (n + 1) * budget == n * budget + budget
  {
  }

  /** After a release at most `reserveDecisions` orders differ; when that many have, the credit is
      zero and the two sleeves agree on every later bar until the next release. */
  lemma ReserveExpires(cfg: Config, release: Bar, bars: seq<Bar>, more: seq<Bar>, ledger: Ledger)
    requires LedgerOk(ledger) && Releases(cfg, release, ledger)
    requires var armed := Decide(cfg, release, ledger).1;
             ReleaseCount(cfg, bars, armed) == 0 && ReleaseCount(cfg, more, After(cfg, bars, armed)) == 0
    ensures var armed := Decide(cfg, release, ledger).1;
            var spent := After(cfg, bars, armed);
            && DifferingOrders(cfg, bars, armed) <= cfg.reserveDecisions
            && (DifferingOrders(cfg, bars, armed) == cfg.reserveDecisions ==>
                  spent == Ledger(0.0, 0) && DifferingOrders(cfg, more, spent) == 0)
  {
    hide Decide, Differs, Releases, After, DifferingOrders, ReleaseCount;
    OneBar(cfg, release, ledger);
    var armed := Decide(cfg, release, ledger).1;
    ReserveBudget(cfg, bars, armed);
    ReserveBudget(cfg, more, After(cfg, bars, armed));
  }

  // ---- the stepped de-risk ----

  /** Dollars the core stands above its target (a negative target counts as zero). */
  function Gap(cfg: Config, b: Bar): real
    requires b.nav > 0.0
  {
    Core(b) - Max(0.0, Target(cfg, b) * b.nav)
  }

  function Step(cfg: Config, b: Bar): real { cfg.bearMaxStepPct * b.nav }

  /** A confirmed bear above target, nothing to fund, and a step worth at least one order. */
  predicate Derisking(cfg: Config, b: Bar) {
    && cfg.enabled && b.nav > 0.0 && ConfirmedBear(cfg, b.bear, b.dwell)
    && b.funding <= 0.0 && Step(cfg, b) >= MIN_ORDER && Gap(cfg, b) >= 0.0
  }

  function NextBar(cfg: Config, b: Bar, ledger: Ledger): Bar {
    Filled(b, Decide(cfg, b, ledger).0.notional)
  }

  /** One decision sells at most a step and never past the target: the gap shrinks by a whole
      step, or to nothing, unless it is already below the order minimum. */
  lemma OneStepDown(cfg: Config, b: Bar, ledger: Ledger)
    requires Derisking(cfg, b)
    ensures var o := Decide(cfg, b, ledger).0;
            && -Step(cfg, b) <= o.notional <= 0.0
            && Derisking(cfg, NextBar(cfg, b, ledger)) && Step(cfg, NextBar(cfg, b, ledger)) == Step(cfg, b)
            && Gap(cfg, NextBar(cfg, b, ledger))
               == if Gap(cfg, b) < MIN_ORDER then Gap(cfg, b) else Gap(cfg, b) - Min(Gap(cfg, b), Step(cfg, b))
  {
    hide Decide, Target, ConfirmedBear, Step;
    DeriskOrder(cfg, b, ledger);
    FilledKeeps(cfg, b, Decide(cfg, b, ledger).0.notional);
    hide Filled;
  }

  lemma FilledKeeps(cfg: Config, b: Bar, notional: real)
    requires b.nav > 0.0
    ensures var next := Filled(b, notional);
            && next.nav == b.nav && next.funding == b.funding && next.bear == b.bear && next.dwell == b.dwell
            && Target(cfg, next) == Target(cfg, b) && Step(cfg, next) == Step(cfg, b)
            && (Core(b) + notional >= 0.0 ==> Core(next) == Core(b) + notional)
  {
    hide TargetWeight;
  }

  lemma DeriskOrder(cfg: Config, b: Bar, ledger: Ledger)
    requires Derisking(cfg, b)
    ensures Decide(cfg, b, ledger).0.notional
            == if Gap(cfg, b) < MIN_ORDER then 0.0 else -Min(Gap(cfg, b), Step(cfg, b))
  {
    hide Target, Weight, StepCap, DriftUsd, Deploy;
    DriftIsDollars(cfg, b);
    StepIsPositive(cfg, b);
    DriftSign(cfg, b);
  }

  lemma StepIsPositive(cfg: Config, b: Bar)
    requires b.nav > 0.0 && Step(cfg, b) >= MIN_ORDER
    ensures StepCap(cfg, b) == Step(cfg, b)
  {
    NegativeTimes(cfg.bearMaxStepPct, b.nav);
  }

  lemma NegativeTimes(x: real, y: real)
    ensures x < 0.0 && y > 0.0 ==> x * y < 0.0
  {
  }

  /** The drift in weight and the drift in dollars vanish together. */
  lemma DriftSign(cfg: Config, b: Bar)
    requires b.nav > 0.0
    ensures DriftUsd(cfg, b) == 0.0 <==> Target(cfg, b) - Weight(b) == 0.0
  {
    hide Target, Weight;
    ZeroProduct(Target(cfg, b) - Weight(b), b.nav);
  }

  lemma ZeroProduct(x: real, y: real)
    requires y > 0.0
    ensures x * y == 0.0 <==> x == 0.0
  {
  }

  /** n decisions in a row at frozen prices. */
  function AfterBars(cfg: Config, b: Bar, ledger: Ledger, n: nat): Bar
    decreases n
  {
    if n == 0 then b else NextBar(cfg, AfterBars(cfg, b, ledger, n - 1), ledger)
  }

  function Ceil(x: real): int { -((-x).Floor) }

  lemma {:induction false} StepsDown(cfg: Config, b: Bar, ledger: Ledger, n: nat)
    requires Derisking(cfg, b)
    ensures var end := AfterBars(cfg, b, ledger, n);
            && Derisking(cfg, end) && Step(cfg, end) == Step(cfg, b) && 0.0 <= Gap(cfg, end)
            && (Gap(cfg, end) < MIN_ORDER || Gap(cfg, end) <= Gap(cfg, b) - n as real * Step(cfg, b))
    decreases n
  {
    hide Decide, Gap, Step, TargetWeight;
    if n > 0 {
      StepsDown(cfg, b, ledger, n - 1);
      OneStepDown(cfg, AfterBars(cfg, b, ledger, n - 1), ledger);
      OneMore(n, Step(cfg, b));
    }
  }

  lemma OneMore(n: nat, step: real)
    requires n > 0
    ensures n as real * step == (n - 1) as real * step + step
  {
  }

  /** After at most ceil(gap / step) decisions the core is within one order minimum of target. */
  lemma DeriskCompletes(cfg: Config, b: Bar, ledger: Ledger, n: nat)
    requires Derisking(cfg, b) && n >= Ceil(Gap(cfg, b) / Step(cfg, b))
    ensures AfterBars(cfg, b, ledger, n).nav > 0.0
    ensures 0.0 <= Gap(cfg, AfterBars(cfg, b, ledger, n)) < MIN_ORDER
  {
    hide Decide, Target, Gap, Step, AfterBars, Ceil;
    StepsDown(cfg, b, ledger, n);
    EnoughSteps(Gap(cfg, b), Step(cfg, b), n);
  }

  lemma EnoughSteps(gap: real, step: real, n: nat)
    requires step > 0.0 && n >= Ceil(gap / step)
    ensures n as real * step >= gap
  {
    assert n as real >= gap / step;
    assert gap / step * step == gap;
  }
}

/** The index-core sleeve: the target weight, one bar's rebalance decision, and the ledger of
    dollars a funding release has promised to the satellite. Amounts are reals. */
module CoreSleeve {
  import opened Options

  const MIN_ORDER := 5.0
  const MIN_DEPLOY := 50.0
  const COST_HAIRCUT := 0.0060
  const NOISE := 0.000000001

  function Max(a: real, b: real): real { if a >= b then a else b }
  function Min(a: real, b: real): real { if a <= b then a else b }

  datatype Config = Config(enabled: bool, targetPct: real, minPct: real, maxPct: real, cashFloorPct: real,
                           bandPct: real, minDays: int, bearScale: real, bearMinDwell: int,
                           bearMaxStepPct: real, reserveDecisions: nat, alphaHeadroomPct: real)

  /** One bar. `bear` is a bear or crash regime; `circuitTripped` a hard or kill tier. */
  datatype Bar = Bar(nav: real, coreValue: real, satelliteValue: real, cash: real, bear: bool, dwell: int,
                     daysSince: Option<int>, funding: real, circuitTripped: bool, turnoverExhausted: bool)

  datatype Reason =
    | Disabled | NoNav | Funding | BearDerisk | BearDeriskBelowMin | WithinBand | CadenceHold
    | TurnoverExhausted | CircuitBlocksAdd | DeployBelowMin | FundingReleaseReserved
    | BandDeploy | ReleaseBelowMin | BandRelease

  datatype Order = Order(notional: real, reason: Reason, target: real, current: real, withheld: real)

  /** Outstanding credit and the refusals it may still cause. */
  datatype Ledger = Ledger(usd: real, decisions: int)

  // ---- target weight ----

  predicate ConfirmedBear(cfg: Config, bear: bool, dwell: int) {
    bear && dwell >= cfg.bearMinDwell
  }

  function Low(cfg: Config): real { Min(cfg.minPct, cfg.maxPct) }
  function High(cfg: Config): real { Max(cfg.minPct, cfg.maxPct) }

  /** What a confirmed bear leaves of the target. */
  function BearTarget(cfg: Config): real { Max(Low(cfg), cfg.targetPct * cfg.bearScale) }

  function TargetWeight(cfg: Config, satelliteWeight: real, bear: bool, dwell: int): real {
    if !cfg.enabled then 0.0
    else
      var raw := 1.0 - cfg.cashFloorPct - Max(0.0, satelliteWeight);
      var target := Max(Low(cfg), Min(High(cfg), raw));
      if ConfirmedBear(cfg, bear, dwell) then Min(target, BearTarget(cfg)) else target
  }

  /** The target never leaves the configured band, a larger satellite never raises it, and a
      confirmed bear never raises it. */
  lemma TargetWeightBounds(cfg: Config, s1: real, s2: real, bear: bool, dwell: int)
    requires cfg.enabled && s1 <= s2
    ensures Low(cfg) <= TargetWeight(cfg, s1, bear, dwell) <= High(cfg)
    ensures TargetWeight(cfg, s2, bear, dwell) <= TargetWeight(cfg, s1, bear, dwell)
    ensures TargetWeight(cfg, s1, bear, dwell) <= TargetWeight(cfg, s1, false, dwell)
  {
  }

  // ---- one decision ----

  function Target(cfg: Config, b: Bar): real
    requires b.nav > 0.0
  {
    TargetWeight(cfg, Max(0.0, b.satelliteValue) / b.nav, b.bear, b.dwell)
  }

  function Core(b: Bar): real { Max(0.0, b.coreValue) }

  function Weight(b: Bar): real
    requires b.nav > 0.0
  {
    Core(b) / b.nav
  }

  /** Dollars from the current core to the target, signed. */
  function DriftUsd(cfg: Config, b: Bar): real
    requires b.nav > 0.0
  {
    (Target(cfg, b) - Weight(b)) * b.nav
  }

  lemma DriftIsDollars(cfg: Config, b: Bar)
    requires b.nav > 0.0
    ensures DriftUsd(cfg, b) == Target(cfg, b) * b.nav - Core(b)
  {
    assert Core(b) / b.nav * b.nav == Core(b);
  }

  function FundingSell(b: Bar): real {
    var need := Max(0.0, b.funding - Max(0.0, b.cash));
    if need > 0.0 && Core(b) > 0.0 then Min(need, Core(b)) else 0.0
  }

  /** The most a bear may sell in one bar; zero means no cap. */
  function StepCap(cfg: Config, b: Bar): real {
    Max(0.0, cfg.bearMaxStepPct) * b.nav
  }

  function BearSell(cfg: Config, b: Bar): real
    requires b.nav > 0.0
  {
    var step := StepCap(cfg, b);
    var sell := Min(-DriftUsd(cfg, b), Core(b));
    if step > 0.0 then Min(sell, step) else sell
  }

  /** Cash above the declared floor, less the cost of the clip itself. */
  function Spendable(cfg: Config, b: Bar): real {
    Max(0.0, b.cash - cfg.cashFloorPct * b.nav) / (1.0 + COST_HAIRCUT)
  }

  /** What the alpha book keeps; never so much that the core loses its own minimum. */
  function WantedHeadroom(cfg: Config, b: Bar): real {
    Max(0.0, cfg.alphaHeadroomPct) * b.nav
  }

  function Headroom(cfg: Config, b: Bar): real {
    var wanted := WantedHeadroom(cfg, b);
    if wanted > 0.0 then Min(wanted, Max(0.0, Spendable(cfg, b) - MIN_DEPLOY)) else wanted
  }

  function Outstanding(cfg: Config, ledger: Ledger, spendable: real): real {
    if cfg.reserveDecisions == 0 || ledger.decisions <= 0 || ledger.usd <= 0.0 then 0.0
    else Min(ledger.usd, Max(0.0, spendable))
  }

  function Armed(cfg: Config, ledger: Ledger, released: real, nav: real): Ledger {
    if cfg.reserveDecisions == 0 then ledger
    else Ledger(Min(Max(0.0, ledger.usd) + Max(0.0, released), Max(0.0, nav)), cfg.reserveDecisions)
  }

  function Consumed(ledger: Ledger): Ledger {
    var left := ledger.decisions - 1;
    Ledger(if left <= 0 then 0.0 else ledger.usd, if left <= 0 then 0 else left)
  }

  /** The buy side of the band. */
  function Deploy(cfg: Config, b: Bar, ledger: Ledger): (Order, Ledger)
    requires b.nav > 0.0
  {
    var t, c := Target(cfg, b), Weight(b);
    if b.turnoverExhausted then (Order(0.0, TurnoverExhausted, t, c, 0.0), ledger)
    else if b.circuitTripped then (Order(0.0, CircuitBlocksAdd, t, c, 0.0), ledger)
    else
      var spendable, headroom, drift := Spendable(cfg, b), Headroom(cfg, b), DriftUsd(cfg, b);
      var buy := Min(drift, Max(0.0, spendable - headroom));
      var withheld := if buy > 0.0 then Max(0.0, Min(headroom, spendable)) else 0.0;
      if buy < MIN_DEPLOY then (Order(0.0, DeployBelowMin, t, c, 0.0), ledger)
      else
        var reserved := Outstanding(cfg, ledger, spendable);
        var less := Min(drift, Max(0.0, spendable - reserved));
        if reserved > 0.0 && less < buy - NOISE then
          (if less < MIN_DEPLOY then Order(0.0, FundingReleaseReserved, t, c, 0.0)
           else Order(less, BandDeploy, t, c, withheld), Consumed(ledger))
        else (Order(buy, BandDeploy, t, c, withheld), ledger)
  }

  function Decide(cfg: Config, b: Bar, ledger: Ledger): (Order, Ledger) {
    if !cfg.enabled then (Order(0.0, Disabled, 0.0, 0.0, 0.0), ledger)
    else if b.nav <= 0.0 then (Order(0.0, NoNav, 0.0, 0.0, 0.0), ledger)
    else
      var t, c := Target(cfg, b), Weight(b);
      var funded := FundingSell(b);
      if funded >= MIN_ORDER then (Order(-funded, Funding, t, c, 0.0), Armed(cfg, ledger, funded, b.nav))
      else
        var drift := DriftUsd(cfg, b);
        if ConfirmedBear(cfg, b.bear, b.dwell) && drift < 0.0 then
          var sell := BearSell(cfg, b);
          (if sell < MIN_ORDER then Order(0.0, BearDeriskBelowMin, t, c, 0.0)
           else Order(-sell, BearDerisk, t, c, 0.0), ledger)
        else if -cfg.bandPct <= t - c <= cfg.bandPct then (Order(0.0, WithinBand, t, c, 0.0), ledger)
        else if b.daysSince.Some? && b.daysSince.value < cfg.minDays then (Order(0.0, CadenceHold, t, c, 0.0), ledger)
        else if drift > 0.0 then Deploy(cfg, b, ledger)
        else
          var sell := Min(-drift, Core(b));
          (if sell < MIN_ORDER then Order(0.0, ReleaseBelowMin, t, c, 0.0)
           else Order(-sell, BandRelease, t, c, 0.0), ledger)
  }

  // ---- the module's mutable ledger ----

  class FundingReserve {
    var usd: real
    var decisions: int

    constructor ()
      ensures State() == Ledger(0.0, 0)
    {
      usd, decisions := 0.0, 0;
    }

    function State(): Ledger
      reads this
    {
      Ledger(usd, decisions)
    }

    method Reset()
      modifies this
      ensures State() == Ledger(0.0, 0)
    {
      usd, decisions := 0.0, 0;
    }

    method Arm(cfg: Config, released: real, nav: real)
      modifies this
      ensures State() == Armed(cfg, old(State()), released, nav)
    {
      if cfg.reserveDecisions == 0 { return; }
      usd := Min(Max(0.0, usd) + Max(0.0, released), Max(0.0, nav));
      decisions := cfg.reserveDecisions;
    }

    method ConsumeDecision()
      modifies this
      ensures State() == Consumed(old(State()))
    {
      var left := decisions - 1;
      decisions := if left <= 0 then 0 else left;
      if left <= 0 { usd := 0.0; }
    }

    /** This bar's order; the ledger moves exactly as the decision function says. */
    method RebalanceOrder(cfg: Config, b: Bar) returns (order: Order)
      modifies this
      ensures (order, State()) == Decide(cfg, b, old(State()))
    {
      hide TargetWeight, Target, DriftUsd, StepCap, Deploy, Weight, Armed;
      if !cfg.enabled { return Order(0.0, Disabled, 0.0, 0.0, 0.0); }
      if b.nav <= 0.0 { return Order(0.0, NoNav, 0.0, 0.0, 0.0); }
      var core := Max(0.0, b.coreValue);
      var t, c := Target(cfg, b), Weight(b);

      var need := Max(0.0, b.funding - Max(0.0, b.cash));
      if need > 0.0 && core > 0.0 {
        var sell := Min(need, core);
        if sell >= MIN_ORDER {
          Arm(cfg, sell, b.nav);
          return Order(-sell, Funding, t, c, 0.0);
        }
      }

      var drift := t - c;
      var driftUsd := DriftUsd(cfg, b);
      if ConfirmedBear(cfg, b.bear, b.dwell) && driftUsd < 0.0 {
        var step := StepCap(cfg, b);
        var sell := Min(-driftUsd, core);
        if step > 0.0 { sell := Min(sell, step); }
        if sell < MIN_ORDER { return Order(0.0, BearDeriskBelowMin, t, c, 0.0); }
        return Order(-sell, BearDerisk, t, c, 0.0);
      }
      if -cfg.bandPct <= drift <= cfg.bandPct { return Order(0.0, WithinBand, t, c, 0.0); }
      if b.daysSince.Some? && b.daysSince.value < cfg.minDays { return Order(0.0, CadenceHold, t, c, 0.0); }
      if driftUsd > 0.0 {
        order := DeployOrder(cfg, b, t, c, driftUsd);
        return;
      }
      var sell := Min(-driftUsd, core);
      if sell < MIN_ORDER { return Order(0.0, ReleaseBelowMin, t, c, 0.0); }
      order := Order(-sell, BandRelease, t, c, 0.0);
    }

    method DeployOrder(cfg: Config, b: Bar, t: real, c: real, driftUsd: real) returns (order: Order)
      requires b.nav > 0.0 && t == Target(cfg, b) && c == Weight(b) && driftUsd == DriftUsd(cfg, b)
      modifies this
      ensures (order, State()) == Deploy(cfg, b, old(State()))
    {
      hide TargetWeight, Target, DriftUsd, Spendable, WantedHeadroom, Weight, Consumed;
      if b.turnoverExhausted { return Order(0.0, TurnoverExhausted, t, c, 0.0); }
      if b.circuitTripped { return Order(0.0, CircuitBlocksAdd, t, c, 0.0); }
      var spendable := Spendable(cfg, b);
      var headroom := WantedHeadroom(cfg, b);
      if headroom > 0.0 { headroom := Min(headroom, Max(0.0, spendable - MIN_DEPLOY)); }
      var buy := Min(driftUsd, Max(0.0, spendable - headroom));
      var withheld := if buy > 0.0 then Max(0.0, Min(headroom, spendable)) else 0.0;
      if buy < MIN_DEPLOY { return Order(0.0, DeployBelowMin, t, c, 0.0); }
      var reserved := Outstanding(cfg, State(), spendable);
      if reserved > 0.0 {
        var less := Min(driftUsd, Max(0.0, spendable - reserved));
        if less < buy - NOISE {
          ConsumeDecision();
          buy := less;
          if buy < MIN_DEPLOY { return Order(0.0, FundingReleaseReserved, t, c, 0.0); }
        }
      }
      order := Order(buy, BandDeploy, t, c, withheld);
    }
  }
}

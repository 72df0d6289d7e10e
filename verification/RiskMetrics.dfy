/** Risk figures of an equity curve: the drawdown found in one pass, the sampled curve, and the
    churn of a sleeve's fills. */
module RiskMetrics {
  import opened Options

  // ---- drawdown ----

  /** The readable positive values, in order; a point that cannot be read is None. */
  function Values(history: seq<Option<real>>): (values: seq<real>)
    ensures forall i :: 0 <= i < |values| ==> values[i] > 0.0
  {
    if history == [] then []
    else
      var last := history[|history| - 1];
      Values(history[..|history| - 1]) + if last.Some? && last.value > 0.0 then [last.value] else []
  }

  function Decline(peak: real, value: real): real
    requires peak > 0.0
  {
    (peak - value) / peak
  }

  lemma DeclineTimes(peak: real, value: real)
    requires peak > 0.0
    ensures (1.0 - Decline(peak, value)) * peak == value
  {
    assert Decline(peak, value) * peak == peak - value;
  }

  lemma Scale(a: real, b: real, c: real)
    requires c > 0.0 && a < b
    ensures a * c < b * c
  {
  }

  lemma ScaleUp(a: real, c: real, d: real)
    requires a >= 0.0 && c <= d
    ensures a * c <= a * d
  {
  }

  /** A value has fallen furthest from the highest peak. */
  lemma HigherPeakDeclinesMore(a: real, peak: real, value: real)
    requires 0.0 < a <= peak && value > 0.0
    ensures Decline(a, value) <= Decline(peak, value)
  {
    hide Decline;
    DeclineTimes(a, value);
    DeclineTimes(peak, value);
    var x, y := 1.0 - Decline(a, value), 1.0 - Decline(peak, value);
    if y <= 0.0 { ScaleUp(-y, 0.0, peak); }
    if x < y {
      Scale(x, y, a);
      ScaleUp(y, a, peak);
    }
  }

  datatype Drawdown = Drawdown(decline: real, peak: real, trough: real, peakIndex: nat, troughIndex: nat)

  /** No value has fallen further from any value at or before it. */
  predicate Deepest(values: seq<real>, n: nat, decline: real)
    requires n <= |values| && forall i :: 0 <= i < |values| ==> values[i] > 0.0
  {
    forall i, j :: 0 <= i <= j < n ==> Decline(values[i], values[j]) <= decline
  }

  /** The decline is attained at the reported places, the peak not after the trough. */
  predicate Attained(values: seq<real>, n: nat, d: Drawdown)
    requires n <= |values| && forall i :: 0 <= i < |values| ==> values[i] > 0.0
  {
    && d.peakIndex <= d.troughIndex < n
    && values[d.peakIndex] == d.peak && values[d.troughIndex] == d.trough
    && d.decline == Decline(d.peak, d.trough)
  }

  /** One pass with a running peak finds the deepest decline over all earlier peaks. */
  method MaxDrawdown(history: seq<Option<real>>) returns (r: Option<Drawdown>)
    ensures r.None? <==> |Values(history)| < 2
    ensures r.Some? ==> Attained(Values(history), |Values(history)|, r.value)
                        && Deepest(Values(history), |Values(history)|, r.value.decline) && r.value.decline >= 0.0
  {
    hide Decline, Values, Deepest;
    var values := Values(history);
    if |values| < 2 { return None; }
    var peak, peakIndex := values[0], 0;
    var best := Drawdown(0.0, peak, peak, 0, 0);
    NoDecline(values[0]);
    FirstIsDeepest(values);
    for i := 0 to |values|
      invariant peakIndex <= i && peakIndex < |values| && values[peakIndex] == peak && (i > 0 ==> peakIndex < i)
      invariant forall k :: 0 <= k < i ==> values[k] <= peak
      invariant i > 0 ==> Attained(values, i, best)
      invariant i == 0 ==> best == Drawdown(0.0, peak, peak, 0, 0) && peakIndex == 0
      invariant best.decline >= 0.0 && Deepest(values, i, best.decline)
    {
      var value := values[i];
      NextValue(values, i, if value > peak then value else peak, best.decline);
      if value > peak {
        NoDecline(value);
        peak, peakIndex := value, i;
        continue;
      }
      var decline := Decline(peak, value);
      if i == 0 { NoDecline(value); }
      if decline > best.decline {
        DeepestStays(values, i + 1, best.decline, decline);
        best := Drawdown(decline, peak, value, peakIndex, i);
      }
    }
    r := Some(best);
  }

  lemma NoDecline(value: real)
    requires value > 0.0
    ensures Decline(value, value) == 0.0
  {
  }

  lemma FirstIsDeepest(values: seq<real>)
    requires forall i :: 0 <= i < |values| ==> values[i] > 0.0
    ensures Deepest(values, 0, 0.0)
  {
  }

  /** With the running peak up to date, one more value can only deepen the decline from it. */
  lemma NextValue(values: seq<real>, i: nat, peak: real, decline: real)
    requires i < |values| && forall k :: 0 <= k < |values| ==> values[k] > 0.0
    requires (forall k :: 0 <= k <= i ==> values[k] <= peak) && peak > 0.0
    requires Deepest(values, i, decline)
    ensures Deepest(values, i + 1, if Decline(peak, values[i]) > decline then Decline(peak, values[i]) else decline)
  {
    hide Decline;
    forall a | 0 <= a <= i ensures Decline(values[a], values[i]) <= Decline(peak, values[i]) {
      HigherPeakDeclinesMore(values[a], peak, values[i]);
    }
  }

  lemma DeepestStays(values: seq<real>, n: nat, lower: real, higher: real)
    requires n <= |values| && forall i :: 0 <= i < |values| ==> values[i] > 0.0
    requires lower <= higher
    ensures Deepest(values, n, lower) ==> Deepest(values, n, higher)
  {
    hide Decline;
  }

  // ---- the sampled curve ----

  /** The index a stride of n / most gives for the i-th sample. */
  function Sample(n: nat, most: nat, i: nat): nat
    requires most > 0
  {
    i * n / most
  }

  lemma SampleIncreases(n: nat, most: nat, i: nat)
    requires most > 0 && n > most
    ensures Sample(n, most, i) < Sample(n, most, i + 1)
  {
    var q, r := i * n / most, i * n % most;
    assert (i + 1) * n == i * n + n;
    assert i * n == q * most + r;
    assert (i + 1) * n >= (q + 1) * most by { assert (q + 1) * most == q * most + most; }
    AtLeast((i + 1) * n, most, q + 1);
  }

  lemma AtLeast(x: nat, d: nat, q: nat)
    requires d > 0 && x >= q * d
    ensures x / d >= q
  {
    if x / d < q { Times(x / d + 1, q, d); }
  }

  lemma Times(a: nat, b: nat, d: nat)
    requires a <= b
    ensures a * d <= b * d
  {
  }

  lemma {:induction false} SampleBelow(n: nat, most: nat, i: nat)
    requires 0 < most < n && i < most
    ensures Sample(n, most, i) <= n - (most - i)
    decreases most - i
  {
    hide Sample;
    SampleIncreases(n, most, i);
    if i + 1 < most { SampleBelow(n, most, i + 1); } else { SampleAtEnd(n, most); }
  }

  lemma SampleAtEnd(n: nat, most: nat)
    requires most > 0
    ensures Sample(n, most, most) == n
  {
    ProductBack(n, most, most * n);
  }

  lemma ProductBack(n: nat, d: nat, x: nat)
    requires d > 0 && x == n * d
    ensures x / d == n
  {
    AtLeast(x, d, n);
    assert x == (x / d) * d + x % d;
    AtMost(n, d, x / d);
  }

  lemma AtMost(n: nat, d: nat, q: nat)
    requires d > 0 && q * d <= n * d
    ensures q <= n
  {
    Next(n, d);
    if q > n { Times(n + 1, q, d); }
  }

  lemma Next(n: nat, d: nat)
    ensures (n + 1) * d == n * d + d
  {
  }

  method Downsample<T>(points: seq<T>, maxPoints: int) returns (picked: seq<T>)
    ensures maxPoints <= 0 || |points| <= maxPoints ==> picked == points
    ensures 0 < maxPoints < |points| ==> |picked| == maxPoints && picked[maxPoints - 1] == points[|points| - 1]
    ensures 1 < maxPoints < |points| ==> picked[0] == points[0]
    ensures 0 < maxPoints < |points| ==>
              forall i :: 0 <= i < maxPoints - 1 ==>
                Sample(|points|, maxPoints, i) < |points| - 1 && picked[i] == points[Sample(|points|, maxPoints, i)]
  {
    hide Sample;
    if maxPoints <= 0 || |points| <= maxPoints { return points; }
    picked := [];
    for i := 0 to maxPoints
      invariant |picked| == i
      invariant forall k :: 0 <= k < i ==>
                  Sample(|points|, maxPoints, k) <= |points| - (maxPoints - k)
                    && picked[k] == points[Sample(|points|, maxPoints, k)]
    {
      SampleBelow(|points|, maxPoints, i);
      var at := Sample(|points|, maxPoints, i);
      picked := picked + [points[if at < |points| - 1 then at else |points| - 1]];
    }
    SampleAtStart(|points|, maxPoints);
    picked := picked[0 := points[0]];
    picked := picked[maxPoints - 1 := points[|points| - 1]];
  }

  lemma SampleAtStart(n: nat, most: nat)
    requires most > 0
    ensures Sample(n, most, 0) == 0
  {
  }

  /** The sampled places are in the curve's order and never repeat, the last one included. */
  lemma {:induction false} SamplesInOrder(n: nat, most: nat, i: nat, j: nat)
    requires 0 < most < n && i < j < most
    ensures Sample(n, most, i) < Sample(n, most, j) <= n - 1
    decreases j - i
  {
    hide Sample;
    SampleBelow(n, most, j);
    SampleIncreases(n, most, j - 1);
    if i < j - 1 { SamplesInOrder(n, most, i, j - 1); }
  }

  // ---- churn ----

  /** The values measured are the readable ones above zero, in order. */
  lemma ValuesExact(history: seq<Option<real>>, more: seq<Option<real>>, x: real)
    ensures Values(history + more) == Values(history) + Values(more)
    ensures x in Values(history) <==> Some(x) in history && x > 0.0
  {
    hide Values;
    ValuesAppend(history, more);
    ValuesWhich(history, x);
  }

  lemma {:induction false} ValuesAppend(history: seq<Option<real>>, more: seq<Option<real>>)
    ensures Values(history + more) == Values(history) + Values(more)
    decreases |more|
  {
    if more == [] {
      assert history + more == history;
    } else {
      assert (history + more)[..|history + more| - 1] == history + more[..|more| - 1];
      ValuesAppend(history, more[..|more| - 1]);
    }
  }

  lemma {:induction false} ValuesWhich(history: seq<Option<real>>, x: real)
    ensures x in Values(history) <==> Some(x) in history && x > 0.0
    decreases |history|
  {
    if history != [] {
      ValuesWhich(history[..|history| - 1], x);
      assert history == history[..|history| - 1] + [history[|history| - 1]];
    }
  }

  datatype Fill = Fill(buy: bool, total: real)

  function Gross(fills: seq<Fill>): real {
    if fills == [] then 0.0 else Gross(fills[..|fills| - 1]) + fills[|fills| - 1].total
  }

  function Signed(f: Fill): real {
    if f.buy then f.total else -f.total
  }

  function Net(fills: seq<Fill>): real {
    if fills == [] then 0.0 else Net(fills[..|fills| - 1]) + Signed(fills[|fills| - 1])
  }

  function Flips(fills: seq<Fill>): nat {
    if |fills| < 2 then 0
    else Flips(fills[..|fills| - 1]) + if fills[|fills| - 2].buy != fills[|fills| - 1].buy then 1 else 0
  }

  function Abs(x: real): real {
    if x < 0.0 then -x else x
  }

  /** Gross traded is at least the net change, and equals it exactly when the side never flips: a
      clean directional move is the only one with a churn ratio of one. */
  lemma {:induction false} CleanMoveIffNoFlip(fills: seq<Fill>)
    requires fills != [] && forall i :: 0 <= i < |fills| ==> fills[i].total > 0.0
    ensures Abs(Net(fills)) <= Gross(fills) && Gross(fills) > 0.0
    ensures Gross(fills) == Abs(Net(fills)) <==> Flips(fills) == 0
    ensures Flips(fills) == 0 ==> (Net(fills) > 0.0 <==> fills[|fills| - 1].buy)
    ensures Flips(fills) < |fills|
    decreases |fills|
  {
    if |fills| == 1 {
      assert fills[..0] == [];
    } else {
      CleanMoveIffNoFlip(fills[..|fills| - 1]);
    }
  }

  /** What was bought, and with the sides turned what was sold. */
  function Bought(fills: seq<Fill>): real {
    if fills == [] then 0.0 else Bought(fills[1..]) + if fills[0].buy then fills[0].total else 0.0
  }

  function Sold(fills: seq<Fill>): real {
    if fills == [] then 0.0 else Sold(fills[1..]) + if fills[0].buy then 0.0 else fills[0].total
  }

  /** Gross is what was bought and what was sold, net the one less the other. */
  lemma {:induction false} BothSides(fills: seq<Fill>)
    ensures Gross(fills) == Bought(fills) + Sold(fills) && Net(fills) == Bought(fills) - Sold(fills)
    decreases |fills|
  {
    if fills != [] {
      var front, last := fills[..|fills| - 1], fills[|fills| - 1];
      BothSides(front);
      OneMoreFill(front, last);
      assert fills == front + [last];
    }
  }

  lemma {:induction false} OneMoreFill(front: seq<Fill>, last: Fill)
    ensures Bought(front + [last]) == Bought(front) + if last.buy then last.total else 0.0
    ensures Sold(front + [last]) == Sold(front) + if last.buy then 0.0 else last.total
    decreases |front|
  {
    if front == [] {
      assert [last][1..] == [];
    } else {
      assert (front + [last])[1..] == front[1..] + [last];
      OneMoreFill(front[1..], last);
    }
  }

  /** The places where the side differs from the one before. */
  function Turns(fills: seq<Fill>): set<nat> {
    set i: nat | i < |fills| && TurnsAt(fills, i)
  }

  predicate TurnsAt(fills: seq<Fill>, i: nat)
    requires i < |fills|
  {
    i > 0 && fills[i - 1].buy != fills[i].buy
  }

  lemma {:induction false} FlipsAreTurns(fills: seq<Fill>)
    ensures Flips(fills) == |Turns(fills)|
    decreases |fills|
  {
    var n := |fills|;
    if n < 2 {
      assert Turns(fills) == {};
    } else {
      FlipsAreTurns(fills[..n - 1]);
      var more: set<nat> := if fills[n - 2].buy != fills[n - 1].buy then {n - 1} else {};
      assert forall i: nat :: i < n - 1 ==> TurnsAt(fills, i) == TurnsAt(fills[..n - 1], i);
      assert Turns(fills) == Turns(fills[..n - 1]) + more;
    }
  }

  datatype Churn = Churn(count: nat, gross: real, postInitial: Option<real>, net: real, ratio: Option<real>, flips: nat)

  /** One trade as the metric reads it: absent when it is not a sound buy or sell of a sleeve leg. */
  function FillsOf(trades: seq<Option<Fill>>): (fills: seq<Fill>)
    ensures forall i :: 0 <= i < |fills| ==> fills[i].total > 0.0
  {
    if trades == [] then []
    else
      var t := trades[|trades| - 1];
      FillsOf(trades[..|trades| - 1]) + if t.Some? && t.value.total > 0.0 then [t.value] else []
  }

  const EPSILON: real := 0.000000001

  method SleeveChurn(trades: seq<Option<Fill>>) returns (c: Churn)
    ensures var fills := FillsOf(trades);
            && c.count == |fills| && c.gross == Gross(fills) && c.net == Net(fills) && c.flips == Flips(fills)
            && c.postInitial == (if fills == [] then None else Some(Gross(fills) - fills[0].total))
            && (c.ratio.Some? <==> Abs(Net(fills)) > EPSILON)
            && (c.ratio.Some? ==> c.ratio.value >= 1.0 && (c.ratio.value == 1.0 <==> c.flips == 0))
            && (c.ratio.Some? ==> c.ratio.value * Abs(c.net) == c.gross)
  {
    hide FillsOf, Gross, Net, Flips;
    var fills: seq<Fill> := [];
    NoTrades();
    for i := 0 to |trades|
      invariant fills == FillsOf(trades[..i])
    {
      assert trades[..i + 1][..i] == trades[..i];
      NextTrade(trades[..i + 1]);
      if trades[i].None? || trades[i].value.total <= 0.0 { continue; }
      fills := fills + [trades[i].value];
    }
    assert trades[..|trades|] == trades;
    NoFills(fills);
    if fills == [] { return Churn(0, 0.0, None, 0.0, None, 0); }
    var gross, net, flips := 0.0, 0.0, 0;
    for i := 0 to |fills|
      invariant gross == Gross(fills[..i]) && net == Net(fills[..i]) && flips == Flips(fills[..i])
    {
      NextFill(fills, i);
      gross := gross + fills[i].total;
      net := net + if fills[i].buy then fills[i].total else -fills[i].total;
      if i > 0 && fills[i - 1].buy != fills[i].buy { flips := flips + 1; }
    }
    assert fills[..|fills|] == fills;
    CleanMoveIffNoFlip(fills);
    if Abs(net) > EPSILON { RatioMeans(gross, Abs(net)); }
    c := Churn(|fills|, gross, Some(gross - fills[0].total), net, if Abs(net) > EPSILON then Some(gross / Abs(net))
               else None, flips);
  }

  /** The fills are exactly the readable trades above zero, in order. */
  lemma FillsAreSound(trades: seq<Option<Fill>>, more: seq<Option<Fill>>, f: Fill)
    ensures FillsOf(trades + more) == FillsOf(trades) + FillsOf(more)
    ensures f in FillsOf(trades) <==> Some(f) in trades && f.total > 0.0
  {
    hide FillsOf;
    FillsAppend(trades, more);
    FillsWhich(trades, f);
  }

  lemma {:induction false} FillsAppend(trades: seq<Option<Fill>>, more: seq<Option<Fill>>)
    ensures FillsOf(trades + more) == FillsOf(trades) + FillsOf(more)
    decreases |more|
  {
    if more == [] {
      assert trades + more == trades;
    } else {
      assert (trades + more)[..|trades + more| - 1] == trades + more[..|more| - 1];
      FillsAppend(trades, more[..|more| - 1]);
    }
  }

  lemma {:induction false} FillsWhich(trades: seq<Option<Fill>>, f: Fill)
    ensures f in FillsOf(trades) <==> Some(f) in trades && f.total > 0.0
    decreases |trades|
  {
    if trades != [] {
      FillsWhich(trades[..|trades| - 1], f);
      assert trades == trades[..|trades| - 1] + [trades[|trades| - 1]];
    }
  }

  lemma NoFills(fills: seq<Fill>)
    ensures Gross(fills[..0]) == 0.0 == Net(fills[..0]) && Flips(fills[..0]) == 0
    ensures Gross([]) == 0.0 == Net([]) && Flips([]) == 0
  {
  }

  lemma NextFill(fills: seq<Fill>, i: nat)
    requires i < |fills|
    ensures Gross(fills[..i + 1]) == Gross(fills[..i]) + fills[i].total
    ensures Net(fills[..i + 1]) == Net(fills[..i]) + if fills[i].buy then fills[i].total else -fills[i].total
    ensures Flips(fills[..i + 1]) == Flips(fills[..i]) + if i > 0 && fills[i - 1].buy != fills[i].buy then 1 else 0
  {
    assert fills[..i + 1][..i] == fills[..i];
  }

  /** The size of a change, whichever way it goes. */
  lemma AbsIs(x: real)
    ensures 0.0 <= Abs(x) && (Abs(x) == x || Abs(x) == -x)
  {
  }

  lemma NoTrades()
    ensures FillsOf([]) == []
  {
  }

  lemma NextTrade(trades: seq<Option<Fill>>)
    requires trades != []
    ensures var t := trades[|trades| - 1];
            FillsOf(trades) == FillsOf(trades[..|trades| - 1]) + if t.Some? && t.value.total > 0.0 then [t.value]
                                                                 else []
  {
  }

  lemma RatioMeans(gross: real, net: real)
    requires net > 0.0 && gross >= net
    ensures gross / net >= 1.0 && (gross / net == 1.0 <==> gross == net) && gross / net * net == gross
  {
    var q := gross / net;
    assert q * net == gross;
    if q < 1.0 { Scale(q, 1.0, net); }
  }
}

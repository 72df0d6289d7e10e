/** Point-in-time filings: dated fiscal periods and factors from a company's facts, and what a
    later filing can and cannot change about an earlier day. */
module EdgarFilings {
  import opened KeyOrder
  import opened Options

  /** One reported fact; dates are day numbers, absent when they cannot be read. `started` says
      whether the start field holds anything at all. */
  datatype Point = Point(started: bool, start: Option<int>, end: Option<int>, filed: Option<int>, val: Option<real>)

  datatype UnitKind = Usd | Shares | OtherUnit

  datatype Unit = Unit(kind: UnitKind, points: seq<Point>)

  /** A company's facts: the units reported under each tag, in payload order. */
  type Facts = map<Key, seq<Unit>>

  /** A value for each vintage, keyed by the day filed and the period's end: [filed, end]. */
  type Vintages = map<Key, real>

  const ANNUAL_MIN_DAYS: int := 350

  // ---- which facts are read ----

  function UnitLists(units: seq<Unit>, kind: UnitKind): seq<seq<Point>> {
    if units == [] then []
    else UnitLists(units[..|units| - 1], kind) + if units[|units| - 1].kind == kind then [units[|units| - 1].points]
                                                 else []
  }

  /** Every list that could be read for a row of tags, most preferred first. */
  function Offers(facts: Facts, tags: seq<Key>, kind: UnitKind): seq<seq<Point>> {
    if tags == [] then []
    else
      var tag := tags[|tags| - 1];
      Offers(facts, tags[..|tags| - 1], kind) + if tag in facts then UnitLists(facts[tag], kind) else []
  }

  function FirstFilled(offers: seq<seq<Point>>): seq<Point> {
    if offers == [] then [] else if offers[0] != [] then offers[0] else FirstFilled(offers[1..])
  }

  lemma {:induction false} FirstFilledAppend(a: seq<seq<Point>>, b: seq<seq<Point>>)
    ensures FirstFilled(a + b) == if FirstFilled(a) != [] then FirstFilled(a) else FirstFilled(b)
    decreases |a|
  {
    if a == [] {
      assert a + b == b;
    } else {
      assert (a + b)[1..] == a[1..] + b;
      FirstFilledAppend(a[1..], b);
    }
  }

  /** All facts of the first tag that has any, whatever their dates. */
  function PointsOf(facts: Facts, tags: seq<Key>, kind: UnitKind): seq<Point> {
    FirstFilled(Offers(facts, tags, kind))
  }

  method UnitPoints(facts: Facts, tags: seq<Key>, kind: UnitKind) returns (points: seq<Point>)
    ensures points == PointsOf(facts, tags, kind)
  {
    hide FirstFilled, UnitLists;
    NoOffers();
    for t := 0 to |tags|
      invariant FirstFilled(Offers(facts, tags[..t], kind)) == []
    {
      assert tags[..t + 1][..t] == tags[..t];
      if tags[t] !in facts {
        assert Offers(facts, tags[..t + 1], kind) == Offers(facts, tags[..t], kind) + [];
        assert Offers(facts, tags[..t], kind) + [] == Offers(facts, tags[..t], kind);
        continue;
      }
      FirstFilledAppend(Offers(facts, tags[..t], kind), UnitLists(facts[tags[t]], kind));
      points := FilledUnit(facts[tags[t]], kind);
      if points != [] {
        LaterTagsDoNotMatter(facts, tags, kind, t + 1);
        return;
      }
    }
    assert tags[..|tags|] == tags;
    points := [];
  }

  lemma NoOffers()
    ensures FirstFilled([]) == []
  {
  }

  method FilledUnit(units: seq<Unit>, kind: UnitKind) returns (points: seq<Point>)
    ensures points == FirstFilled(UnitLists(units, kind))
  {
    for u := 0 to |units|
      invariant FirstFilled(UnitLists(units[..u], kind)) == []
    {
      assert units[..u + 1][..u] == units[..u];
      if units[u].kind == kind {
        FirstFilledAppend(UnitLists(units[..u], kind), [units[u].points]);
        if units[u].points != [] {
          LaterUnitsDoNotMatter(units, kind, u + 1);
          return units[u].points;
        }
      } else {
        assert UnitLists(units[..u], kind) + [] == UnitLists(units[..u], kind);
      }
    }
    assert units[..|units|] == units;
    points := [];
  }

  lemma {:induction false} LaterUnitsDoNotMatter(units: seq<Unit>, kind: UnitKind, u: nat)
    requires u <= |units| && FirstFilled(UnitLists(units[..u], kind)) != []
    ensures FirstFilled(UnitLists(units, kind)) == FirstFilled(UnitLists(units[..u], kind))
    decreases |units| - u
  {
    hide FirstFilled;
    if u == |units| {
      assert units[..u] == units;
    } else {
      assert units[..u + 1][..u] == units[..u];
      var more := if units[u].kind == kind then [units[u].points] else [];
      FirstFilledAppend(UnitLists(units[..u], kind), more);
      LaterUnitsDoNotMatter(units, kind, u + 1);
    }
  }

  lemma {:induction false} LaterTagsDoNotMatter(facts: Facts, tags: seq<Key>, kind: UnitKind, t: nat)
    requires t <= |tags| && FirstFilled(Offers(facts, tags[..t], kind)) != []
    ensures PointsOf(facts, tags, kind) == FirstFilled(Offers(facts, tags[..t], kind))
    decreases |tags| - t
  {
    hide FirstFilled, UnitLists;
    if t == |tags| {
      assert tags[..t] == tags;
    } else {
      assert tags[..t + 1][..t] == tags[..t];
      var more := if tags[t] in facts then UnitLists(facts[tags[t]], kind) else [];
      FirstFilledAppend(Offers(facts, tags[..t], kind), more);
      LaterTagsDoNotMatter(facts, tags, kind, t + 1);
    }
  }

  // ---- vintages ----

  function VintageKey(filed: int, end: int): Key {
    [filed, end]
  }

  predicate Annual(p: Point) {
    p.start.Some? && p.end.Some? && p.filed.Some? && p.end.value - p.start.value >= ANNUAL_MIN_DAYS && p.val.Some?
  }

  predicate Balance(p: Point) {
    !p.started && p.end.Some? && p.filed.Some? && p.val.Some?
  }

  datatype Reading = Flow | Instant

  predicate Reads(reading: Reading, p: Point) {
    if reading.Flow? then Annual(p) else Balance(p)
  }

  /** The readable facts by vintage; of two for one vintage the later in the list stands. */
  function VintagesOf(reading: Reading, points: seq<Point>): (m: Vintages)
    ensures forall k :: k in m ==> |k| == 2
  {
    if points == [] then map[]
    else
      var front, p := VintagesOf(reading, points[..|points| - 1]), points[|points| - 1];
      if Reads(reading, p) then front[VintageKey(p.filed.value, p.end.value) := p.val.value] else front
  }

  method AnnualFlow(points: seq<Point>) returns (out: Vintages)
    ensures out == VintagesOf(Flow, points)
  {
    out := map[];
    for i := 0 to |points|
      invariant out == VintagesOf(Flow, points[..i])
    {
      assert points[..i + 1][..i] == points[..i];
      var p := points[i];
      if p.start.None? || p.end.None? || p.filed.None? { continue; }
      if p.end.value - p.start.value < ANNUAL_MIN_DAYS { continue; }
      if p.val.None? { continue; }
      out := out[VintageKey(p.filed.value, p.end.value) := p.val.value];
    }
    assert points[..|points|] == points;
  }

  method InstantFacts(points: seq<Point>) returns (out: Vintages)
    ensures out == VintagesOf(Instant, points)
  {
    out := map[];
    for i := 0 to |points|
      invariant out == VintagesOf(Instant, points[..i])
    {
      assert points[..i + 1][..i] == points[..i];
      var p := points[i];
      if p.started { continue; }
      if p.end.None? || p.filed.None? { continue; }
      if p.val.None? { continue; }
      out := out[VintageKey(p.filed.value, p.end.value) := p.val.value];
    }
    assert points[..|points|] == points;
  }

  /** A fact that counts: for a year's figure all dates and the value readable and at least 350 days
      long; for a balance no start at all, the end, the day filed and the value readable. */
  predicate Counts(reading: Reading, p: Point) {
    && p.end.Some? && p.filed.Some? && p.val.Some?
    && if reading == Flow then p.start.Some? && p.start.value + 350 <= p.end.value else !p.started
  }

  /** The value of a vintage is that of the last fact that counts for it. */
  lemma {:induction false} VintagesExact(reading: Reading, points: seq<Point>, filed: int, end: int, value: real)
    ensures var m := VintagesOf(reading, points);
            VintageKey(filed, end) in m && m[VintageKey(filed, end)] == value <==>
            exists i :: 0 <= i < |points| && LastFor(reading, points, i, filed, end) && points[i].val == Some(value)
    decreases |points|
  {
    if points != [] {
      var front, p, n := points[..|points| - 1], points[|points| - 1], |points| - 1;
      VintagesExact(reading, front, filed, end, value);
      KeyIsPair(p, filed, end);
      forall i | 0 <= i < n
        ensures LastFor(reading, points, i, filed, end) <==>
                LastFor(reading, front, i, filed, end) && !CountsFor(reading, p, filed, end)
      {
        LastForFront(reading, points, i, filed, end);
      }
      assert LastFor(reading, points, n, filed, end) <==> CountsFor(reading, p, filed, end);
      if i :| 0 <= i < n && LastFor(reading, front, i, filed, end) && front[i].val == Some(value) {
        assert points[i] == front[i];
      }
    }
  }

  predicate CountsFor(reading: Reading, p: Point, filed: int, end: int) {
    Counts(reading, p) && p.filed == Some(filed) && p.end == Some(end)
  }

  predicate LastFor(reading: Reading, points: seq<Point>, i: int, filed: int, end: int)
    requires 0 <= i < |points|
  {
    CountsFor(reading, points[i], filed, end)
    && forall j :: i < j < |points| ==> !CountsFor(reading, points[j], filed, end)
  }

  lemma LastForFront(reading: Reading, points: seq<Point>, i: int, filed: int, end: int)
    requires 0 <= i < |points| - 1
    ensures LastFor(reading, points, i, filed, end) <==>
            LastFor(reading, points[..|points| - 1], i, filed, end)
            && !CountsFor(reading, points[|points| - 1], filed, end)
  {
    hide CountsFor;
    var front := points[..|points| - 1];
    assert forall j :: 0 <= j < |front| ==> front[j] == points[j];
  }

  lemma KeyIsPair(p: Point, filed: int, end: int)
    ensures p.filed.Some? && p.end.Some? ==>
              (VintageKey(p.filed.value, p.end.value) == VintageKey(filed, end) <==>
               p.filed.value == filed && p.end.value == end)
  {
    if p.filed.Some? && p.end.Some? && VintageKey(p.filed.value, p.end.value) == VintageKey(filed, end) {
      assert VintageKey(p.filed.value, p.end.value)[0] == filed && VintageKey(p.filed.value, p.end.value)[1] == end;
    }
  }

  // ---- the latest vintage public by a day ----

  /** The days by which a period's value was filed. */
  function FiledBy(m: Vintages, end: int, day: int): set<int> {
    set k | k in m && |k| == 2 && k[1] == end && k[0] <= day :: k[0]
  }

  predicate IsGreatest(x: int, s: set<int>) {
    x in s && forall y :: y in s ==> y <= x
  }

  lemma HasElement(s: set<int>)
    ensures s == {} || exists x :: x in s
  {
    if forall x :: x !in s { assert s == {}; }
  }

  lemma {:induction false} MaxExists(s: set<int>)
    requires s != {}
    ensures exists x :: IsGreatest(x, s)
    decreases |s|
  {
    HasElement(s);
    var x :| x in s;
    var rest := s - {x};
    if rest == {} {
      assert s == {x};
      assert IsGreatest(x, s);
    } else {
      MaxExists(rest);
      var y :| IsGreatest(y, rest);
      var top := if x > y then x else y;
      forall z | z in s ensures z <= top { assert z == x || z in rest; }
      assert IsGreatest(top, s);
    }
  }

  function Greatest(s: set<int>): (x: int)
    requires s != {}
    ensures IsGreatest(x, s)
  {
    MaxExists(s);
    assert forall x, y | IsGreatest(x, s) && IsGreatest(y, s) :: x == y;
    var x :| x in s && IsGreatest(x, s);
    x
  }

  lemma FiledByMeans(m: Vintages, end: int, day: int, filed: int)
    ensures filed in FiledBy(m, end, day) <==> VintageKey(filed, end) in m && filed <= day
  {
    if VintageKey(filed, end) in m && filed <= day {
      assert VintageKey(filed, end)[0] == filed;
    }
    if filed in FiledBy(m, end, day) {
      var k :| k in m && |k| == 2 && k[1] == end && k[0] <= day && k[0] == filed;
      assert k == [k[0], k[1]] == VintageKey(filed, end);
    }
  }

  /** What was known on a day about a period: the value of its latest vintage filed by then. */
  function KnownBy(m: Vintages, end: int, day: int): Option<real> {
    var filed := FiledBy(m, end, day);
    if filed == {} then None
    else
      FiledByMeans(m, end, day, Greatest(filed));
      Some(m[VintageKey(Greatest(filed), end)])
  }

  /** The value known is that of the latest vintage filed by the day, and there is one exactly when
      some vintage was. */
  lemma KnownIsLatest(m: Vintages, end: int, day: int, value: real)
    ensures KnownBy(m, end, day) == Some(value) <==>
            exists f: int :: VintageKey(f, end) in m && f <= day && m[VintageKey(f, end)] == value
                             && forall g: int :: VintageKey(g, end) in m && g <= day ==> g <= f
  {
    forall g: int
      ensures g in FiledBy(m, end, day) <==> VintageKey(g, end) in m && g <= day
    {
      FiledByMeans(m, end, day, g);
    }
    if KnownBy(m, end, day) == Some(value) {
      var f := Greatest(FiledBy(m, end, day));
      assert VintageKey(f, end) in m && f <= day && m[VintageKey(f, end)] == value;
    }
    if f: int :| VintageKey(f, end) in m && f <= day && m[VintageKey(f, end)] == value
                 && forall g: int :: VintageKey(g, end) in m && g <= day ==> g <= f {
      assert IsGreatest(f, FiledBy(m, end, day));
    }
  }

  // ---- fiscal periods ----

  datatype Period = Period(end: int, filed: int, gross: Option<real>, revenue: Option<real>, cost: Option<real>,
                           assets: real)

  /** The four readings a period is built from. */
  datatype Statements = Statements(gross: Vintages, revenue: Vintages, cost: Vintages, assets: Vintages)

  function At(m: Vintages, k: Key): Option<real> {
    if k in m then Some(m[k]) else None
  }

  function PeriodAt(s: Statements, k: Key): seq<Period>
    requires |k| == 2
  {
    var assets := KnownBy(s.assets, k[1], k[0]);
    if assets.None? then [] else [Period(k[1], k[0], At(s.gross, k), At(s.revenue, k), At(s.cost, k), assets.value)]
  }

  function PeriodsAt(s: Statements, ks: seq<Key>): seq<Period>
    requires forall i :: 0 <= i < |ks| ==> |ks[i]| == 2
  {
    if ks == [] then [] else PeriodsAt(s, ks[..|ks| - 1]) + PeriodAt(s, ks[|ks| - 1])
  }

  predicate Pairs(ks: set<Key>) {
    forall k :: k in ks ==> |k| == 2
  }

  function IncomeKeys(s: Statements): set<Key> {
    s.gross.Keys + s.revenue.Keys + s.cost.Keys
  }

  predicate Dated(s: Statements) {
    Pairs(IncomeKeys(s)) && Pairs(s.assets.Keys)
  }

  /** One period for every vintage with a balance sheet public by then, by day filed and end. */
  function PeriodsOf(s: Statements): seq<Period>
    requires Dated(s)
  {
    PeriodsAt(s, SortedKeys(IncomeKeys(s)))
  }

  const TAG_GROSS_PROFIT: seq<Key> := [Text("GrossProfit")]
  const TAG_REVENUE: seq<Key> :=
    [Text("RevenueFromContractWithCustomerExcludingAssessedTax"),
     Text("RevenueFromContractWithCustomerIncludingAssessedTax"),
     Text("Revenues"), Text("SalesRevenueNet"), Text("SalesRevenueGoodsNet")]
  const TAG_COGS: seq<Key> := [Text("CostOfGoodsAndServicesSold"), Text("CostOfRevenue"), Text("CostOfGoodsSold")]
  const TAG_ASSETS: seq<Key> := [Text("Assets")]

  /** The tags one reader of the facts looks for. */
  datatype Tags = Tags(gross: seq<Key>, revenue: seq<Key>, cost: seq<Key>, assets: seq<Key>)

  const PERIOD_TAGS: Tags := Tags(TAG_GROSS_PROFIT, TAG_REVENUE, TAG_COGS, TAG_ASSETS)

  function StatementsOf(facts: Facts, tags: Tags): (s: Statements)
    ensures Dated(s)
  {
    Statements(VintagesOf(Flow, PointsOf(facts, tags.gross, Usd)), VintagesOf(Flow, PointsOf(facts, tags.revenue, Usd)),
               VintagesOf(Flow, PointsOf(facts, tags.cost, Usd)),
               VintagesOf(Instant, PointsOf(facts, tags.assets, Usd)))
  }

  function CompanyPeriods(facts: Facts, tags: Tags): seq<Period> {
    PeriodsOf(StatementsOf(facts, tags))
  }

  /** The value of the latest vintage of a period filed by a day. */
  method LatestBalance(assets: Vintages, end: int, filed: int) returns (total: Option<real>)
    requires Pairs(assets.Keys)
    ensures total == KnownBy(assets, end, filed)
  {
    var todo := assets.Keys;
    var best: Option<int> := None;
    while todo != {}
      invariant todo <= assets.Keys
      invariant best.Some? ==> best.value in FiledBy(assets, end, filed)
      invariant forall k :: k in assets && k !in todo && k[1] == end && k[0] <= filed ==>
                  best.Some? && k[0] <= best.value
      decreases |todo|
    {
      var k :| k in todo;
      todo := todo - {k};
      if k[1] == end && k[0] <= filed && (best.None? || best.value <= k[0]) { best := Some(k[0]); }
    }
    if best.Some? { FiledByMeans(assets, end, filed, best.value); }
    GreatestIs(assets, end, filed, best);
    total := if best.None? then None else Some(assets[VintageKey(best.value, end)]);
  }

  lemma GreatestIs(m: Vintages, end: int, filed: int, best: Option<int>)
    requires best.Some? ==> best.value in FiledBy(m, end, filed)
    requires forall f :: f in FiledBy(m, end, filed) ==> best.Some? && f <= best.value
    ensures best.Some? ==> VintageKey(best.value, end) in m
    ensures KnownBy(m, end, filed) == if best.None? then None else Some(m[VintageKey(best.value, end)])
  {
    if best.Some? {
      FiledByMeans(m, end, filed, best.value);
      assert IsGreatest(best.value, FiledBy(m, end, filed));
    }
  }

  method PeriodsFromCompanyFacts(facts: Facts) returns (out: seq<Period>)
    ensures out == CompanyPeriods(facts, PERIOD_TAGS)
  {
    hide PointsOf, VintagesOf, PeriodsOf, Text, Reads;
    var points := UnitPoints(facts, TAG_GROSS_PROFIT, Usd);
    var gross := AnnualFlow(points);
    points := UnitPoints(facts, TAG_REVENUE, Usd);
    var revenue := AnnualFlow(points);
    points := UnitPoints(facts, TAG_COGS, Usd);
    var cost := AnnualFlow(points);
    points := UnitPoints(facts, TAG_ASSETS, Usd);
    var assets := InstantFacts(points);
    out := Assemble(Statements(gross, revenue, cost, assets));
  }

  /** A period for every income vintage that has a balance sheet, in order. */
  method Assemble(s: Statements) returns (out: seq<Period>)
    requires Dated(s)
    ensures out == PeriodsOf(s)
  {
    hide KnownBy, SortedKeys, Less, Ascending, PeriodsAt;
    var ks := SortedKeys(s.gross.Keys + s.revenue.Keys + s.cost.Keys);
    KeysArePairs(s);
    out := [];
    PeriodsNext(s, ks, 0);
    for i := 0 to |ks|
      invariant out == PeriodsAt(s, ks[..i])
    {
      PeriodsNext(s, ks, i);
      var k := ks[i];
      var total := LatestBalance(s.assets, k[1], k[0]);
      if total.None? { continue; }
      out := out + [Period(k[1], k[0], At(s.gross, k), At(s.revenue, k), At(s.cost, k), total.value)];
    }
    assert ks[..|ks|] == ks;
  }

  lemma KeysArePairs(s: Statements)
    requires Dated(s)
    ensures forall i :: 0 <= i < |SortedKeys(IncomeKeys(s))| ==> |SortedKeys(IncomeKeys(s))[i]| == 2
  {
    hide SortedKeys, Less, Ascending;
    var ks := SortedKeys(IncomeKeys(s));
    forall i | 0 <= i < |ks| ensures |ks[i]| == 2 { assert ks[i] in ks; }
  }

  lemma PeriodsNext(s: Statements, ks: seq<Key>, i: nat)
    requires forall j :: 0 <= j < |ks| ==> |ks[j]| == 2
    ensures PeriodsAt(s, ks[..0]) == []
    ensures i < |ks| ==>
              PeriodsAt(s, ks[..i + 1]) ==
              var known := KnownBy(s.assets, ks[i][1], ks[i][0]);
              if known.None? then PeriodsAt(s, ks[..i])
              else PeriodsAt(s, ks[..i]) + [Period(ks[i][1], ks[i][0], At(s.gross, ks[i]), At(s.revenue, ks[i]),
                                                   At(s.cost, ks[i]), known.value)]
  {
    hide KnownBy;
    if i < |ks| { assert ks[..i + 1][..i] == ks[..i]; }
  }

  predicate Precedes(a: Period, b: Period) {
    a.filed < b.filed || (a.filed == b.filed && a.end < b.end)
  }

  predicate AllPrecede(periods: seq<Period>) {
    forall i, j :: 0 <= i < j < |periods| ==> Precedes(periods[i], periods[j])
  }

  /** Periods come by day filed and then by end, no vintage twice, each with the balance known on
      the day its income was filed. */
  lemma PeriodsInOrder(s: Statements)
    requires Dated(s)
    ensures AllPrecede(PeriodsOf(s))
    ensures forall p :: p in PeriodsOf(s) <==> PeriodFor(s, p)
  {
    hide SortedKeys, Less, KnownBy, PeriodFor, PeriodsAt;
    var ks := SortedKeys(IncomeKeys(s));
    forall i | 0 <= i < |ks| ensures |ks[i]| == 2 { assert ks[i] in ks; }
    PeriodsAtInOrder(s, ks);
    forall p ensures p in PeriodsOf(s) <==> PeriodFor(s, p) {
      PeriodForMeans(s, p);
      if VintageKey(p.filed, p.end) in IncomeKeys(s) { assert VintageKey(p.filed, p.end) in ks; }
    }
  }

  /** A period of an income vintage with the balance known on its day. */
  predicate PeriodFor(s: Statements, p: Period) {
    var k := VintageKey(p.filed, p.end);
    && k in IncomeKeys(s) && KnownBy(s.assets, p.end, p.filed) == Some(p.assets)
    && p.gross == At(s.gross, k) && p.revenue == At(s.revenue, k) && p.cost == At(s.cost, k)
  }

  lemma PeriodForMeans(s: Statements, p: Period)
    ensures PeriodFor(s, p) <==>
            VintageKey(p.filed, p.end) in IncomeKeys(s) && PeriodAt(s, VintageKey(p.filed, p.end)) == [p]
  {
    hide KnownBy, IncomeKeys;
    var k := VintageKey(p.filed, p.end);
    if PeriodAt(s, k) == [p] { assert PeriodAt(s, k)[0] == p; }
  }

  lemma {:induction false} PeriodsAtInOrder(s: Statements, ks: seq<Key>)
    requires Ascending(ks) && forall i :: 0 <= i < |ks| ==> |ks[i]| == 2
    ensures forall i, j :: 0 <= i < j < |PeriodsAt(s, ks)| ==> Precedes(PeriodsAt(s, ks)[i], PeriodsAt(s, ks)[j])
    ensures forall p :: p in PeriodsAt(s, ks) <==>
            VintageKey(p.filed, p.end) in ks && PeriodAt(s, VintageKey(p.filed, p.end)) == [p]
    decreases |ks|
  {
    hide KnownBy, Less, PeriodAt;
    if ks != [] {
      var front, k := ks[..|ks| - 1], ks[|ks| - 1];
      assert ks == front + [k];
      PeriodsAtInOrder(s, front);
      OnePeriod(s, k);
      forall p | p in PeriodsAt(s, front)
        ensures VintageKey(p.filed, p.end) != k && (PeriodAt(s, k) != [] ==> Precedes(p, PeriodAt(s, k)[0]))
      {
        var i :| 0 <= i < |front| && front[i] == VintageKey(p.filed, p.end);
        assert Less(ks[i], ks[|ks| - 1]);
        PairsLess(ks[i], k);
      }
    }
  }

  lemma OnePeriod(s: Statements, k: Key)
    requires |k| == 2
    ensures |PeriodAt(s, k)| <= 1
    ensures forall p :: p in PeriodAt(s, k) <==> VintageKey(p.filed, p.end) == k && PeriodAt(s, k) == [p]
    ensures PeriodAt(s, k) != [] ==> PeriodAt(s, k)[0].filed == k[0] && PeriodAt(s, k)[0].end == k[1]
  {
    hide KnownBy;
    assert k == [k[0], k[1]];
  }

  lemma PairsLess(a: Key, b: Key)
    requires |a| == 2 && |b| == 2 && Less(a, b)
    ensures a[0] < b[0] || (a[0] == b[0] && a[1] < b[1])
  {
    if a[0] == b[0] {
      assert Less(a[1..], b[1..]);
      assert a[1..][0] == a[1] && b[1..][0] == b[1] && b[1..][1..] == [];
      assert !Less(a[1..][1..], []);
    }
  }

  // ---- the facts public by a day ----

  predicate PublicBy(p: Point, day: int) {
    p.filed.Some? && p.filed.value <= day
  }

  function UpTo(points: seq<Point>, day: int): seq<Point> {
    if points == [] then []
    else UpTo(points[..|points| - 1], day) + if PublicBy(points[|points| - 1], day) then [points[|points| - 1]] else []
  }

  /** The payload as it was on a day: only what had been filed by then. */
  function Restrict(facts: Facts, day: int): Facts {
    map tag | tag in facts ::
      seq(|facts[tag]|, i requires 0 <= i < |facts[tag]| => Unit(facts[tag][i].kind, UpTo(facts[tag][i].points, day)))
  }

  function Each(offers: seq<seq<Point>>, day: int): seq<seq<Point>> {
    seq(|offers|, i requires 0 <= i < |offers| => UpTo(offers[i], day))
  }

  /** The preferred list holds nothing filed by the day while a less preferred one does. */
  predicate Hides(offers: seq<seq<Point>>, day: int) {
    && FirstFilled(offers) != [] && UpTo(FirstFilled(offers), day) == []
    && exists j :: 0 <= j < |offers| && UpTo(offers[j], day) != []
  }

  lemma {:induction false} FilledSomewhere(offers: seq<seq<Point>>)
    ensures FirstFilled(offers) == [] <==> forall j :: 0 <= j < |offers| ==> offers[j] == []
    decreases |offers|
  {
    if offers != [] {
      FilledSomewhere(offers[1..]);
      if offers[0] == [] && FirstFilled(offers) == [] {
        forall j | 0 <= j < |offers| ensures offers[j] == [] {
          if j > 0 { assert offers[1..][j - 1] == offers[j]; }
        }
      }
    }
  }

  /** Reading the payload as it was on a day gives what the full payload had filed by then, exactly
      when no later filing under a preferred tag hides an earlier one under another. */
  lemma {:induction false} ReadingCommutes(offers: seq<seq<Point>>, day: int)
    ensures FirstFilled(Each(offers, day)) == UpTo(FirstFilled(offers), day) <==> !Hides(offers, day)
    decreases |offers|
  {
    hide UpTo;
    NothingUpTo(day);
    var early := Each(offers, day);
    if offers == [] {
    } else if offers[0] == [] {
      ReadingCommutes(offers[1..], day);
      assert early[1..] == Each(offers[1..], day);
      if exists j :: 0 <= j < |offers| && UpTo(offers[j], day) != [] {
        var j :| 0 <= j < |offers| && UpTo(offers[j], day) != [];
        assert UpTo(offers[1..][j - 1], day) != [];
      }
      if Hides(offers[1..], day) {
        var j :| 0 <= j < |offers| - 1 && UpTo(offers[1..][j], day) != [];
        assert UpTo(offers[j + 1], day) != [];
      }
    } else if UpTo(offers[0], day) == [] {
      FilledSomewhere(early);
      if Hides(offers, day) {
        var j :| 0 <= j < |offers| && UpTo(offers[j], day) != [];
        assert early[j] != [];
      } else {
        forall j | 0 <= j < |early| ensures early[j] == [] { assert UpTo(offers[j], day) == []; }
      }
    }
  }

  lemma NothingUpTo(day: int)
    ensures UpTo([], day) == []
  {
  }

  lemma {:induction false} UnitListsRestrict(units: seq<Unit>, later: seq<Unit>, kind: UnitKind, day: int)
    requires |later| == |units|
    requires forall i :: 0 <= i < |units| ==> later[i] == Unit(units[i].kind, UpTo(units[i].points, day))
    ensures UnitLists(later, kind) == Each(UnitLists(units, kind), day)
    decreases |units|
  {
    hide UpTo;
    if units != [] {
      UnitListsRestrict(units[..|units| - 1], later[..|units| - 1], kind, day);
    }
  }

  lemma {:induction false} OffersRestrict(facts: Facts, tags: seq<Key>, kind: UnitKind, day: int)
    ensures Offers(Restrict(facts, day), tags, kind) == Each(Offers(facts, tags, kind), day)
    decreases |tags|
  {
    hide UpTo, UnitLists;
    if tags != [] {
      OffersRestrict(facts, tags[..|tags| - 1], kind, day);
      var tag := tags[|tags| - 1];
      if tag in facts { UnitListsRestrict(facts[tag], Restrict(facts, day)[tag], kind, day); }
    }
  }

  /** A caller can tell from the payload whether a row of tags is safe to read for a day. */
  predicate Settled(facts: Facts, tags: seq<Key>, kind: UnitKind, day: int) {
    !Hides(Offers(facts, tags, kind), day)
  }

  lemma PointsRestrict(facts: Facts, tags: seq<Key>, kind: UnitKind, day: int)
    ensures PointsOf(Restrict(facts, day), tags, kind) == UpTo(PointsOf(facts, tags, kind), day) <==>
            Settled(facts, tags, kind, day)
  {
    hide UpTo, Offers, FirstFilled, Hides;
    OffersRestrict(facts, tags, kind, day);
    ReadingCommutes(Offers(facts, tags, kind), day);
  }

  // ---- later filings and the periods of the past ----

  function Cut(m: Vintages, day: int): Vintages {
    map k | k in m && |k| == 2 && k[0] <= day :: m[k]
  }

  lemma {:induction false} VintagesUpTo(reading: Reading, points: seq<Point>, day: int)
    ensures VintagesOf(reading, UpTo(points, day)) == Cut(VintagesOf(reading, points), day)
    decreases |points|
  {
    hide Reads, UpTo, Cut;
    NothingUpTo(day);
    if points == [] {
      assert VintagesOf(reading, []) == map[];
      CutNothing(day);
    } else {
      var front, p := points[..|points| - 1], points[|points| - 1];
      VintagesUpTo(reading, front, day);
      ReadsFiled(reading, p);
      UpToNext(points, day);
      var early := UpTo(front, day);
      if PublicBy(p, day) { assert (early + [p])[..|early + [p]| - 1] == early; }
      if Reads(reading, p) {
        CutAdd(VintagesOf(reading, front), VintageKey(p.filed.value, p.end.value), p.val.value, day);
      }
    }
  }

  lemma UpToNext(points: seq<Point>, day: int)
    requires points != []
    ensures var early, p := UpTo(points[..|points| - 1], day), points[|points| - 1];
            UpTo(points, day) == if PublicBy(p, day) then early + [p] else early
  {
  }

  lemma CutNothing(day: int)
    ensures Cut(map[], day) == map[]
  {
  }

  lemma CutAdd(m: Vintages, k: Key, v: real, day: int)
    requires |k| == 2
    ensures Cut(m[k := v], day) == if k[0] <= day then Cut(m, day)[k := v] else Cut(m, day)
  {
  }

  lemma ReadsFiled(reading: Reading, p: Point)
    ensures Reads(reading, p) ==> p.filed.Some? && p.end.Some? && p.val.Some?
  {
  }

  lemma KnownByCut(m: Vintages, end: int, day: int, cut: int)
    requires day <= cut
    ensures KnownBy(Cut(m, cut), end, day) == KnownBy(m, end, day)
  {
    forall f ensures f in FiledBy(Cut(m, cut), end, day) <==> f in FiledBy(m, end, day) {
      FiledByMeans(m, end, day, f);
      FiledByMeans(Cut(m, cut), end, day, f);
    }
    assert FiledBy(Cut(m, cut), end, day) == FiledBy(m, end, day);
    if FiledBy(m, end, day) != {} { FiledByMeans(m, end, day, Greatest(FiledBy(m, end, day))); }
  }

  function CutAll(s: Statements, day: int): Statements {
    Statements(Cut(s.gross, day), Cut(s.revenue, day), Cut(s.cost, day), Cut(s.assets, day))
  }

  lemma {:induction false} PeriodsAtAppend(s: Statements, a: seq<Key>, b: seq<Key>)
    requires forall i :: 0 <= i < |a| ==> |a[i]| == 2
    requires forall i :: 0 <= i < |b| ==> |b[i]| == 2
    ensures PeriodsAt(s, a + b) == PeriodsAt(s, a) + PeriodsAt(s, b)
    decreases |b|
  {
    hide PeriodAt;
    if b == [] {
      assert a + b == a;
    } else {
      assert (a + b)[..|a + b| - 1] == a + b[..|b| - 1];
      PeriodsAtAppend(s, a, b[..|b| - 1]);
    }
  }

  lemma {:induction false} PeriodsAtCut(s: Statements, ks: seq<Key>, day: int)
    requires forall i :: 0 <= i < |ks| ==> |ks[i]| == 2 && ks[i][0] <= day
    ensures PeriodsAt(CutAll(s, day), ks) == PeriodsAt(s, ks)
    ensures forall p :: p in PeriodsAt(s, ks) ==> p.filed <= day
    decreases |ks|
  {
    hide KnownBy, Cut;
    if ks != [] {
      var k := ks[|ks| - 1];
      PeriodsAtCut(s, ks[..|ks| - 1], day);
      KnownByCut(s.assets, k[1], k[0], day);
      AtCut(s.gross, k, day);
      AtCut(s.revenue, k, day);
      AtCut(s.cost, k, day);
    }
  }

  lemma AtCut(m: Vintages, k: Key, day: int)
    requires |k| == 2 && k[0] <= day
    ensures At(Cut(m, day), k) == At(m, k)
  {
  }

  lemma {:induction false} PeriodsAtLater(s: Statements, ks: seq<Key>, day: int)
    requires forall i :: 0 <= i < |ks| ==> |ks[i]| == 2 && day < ks[i][0]
    ensures forall p :: p in PeriodsAt(s, ks) ==> day < p.filed
    decreases |ks|
  {
    hide KnownBy;
    if ks != [] { PeriodsAtLater(s, ks[..|ks| - 1], day); }
  }

  /** The first list is exactly the part of the second filed by the day, and it comes first. */
  predicate PrefixFiledBy(early: seq<Period>, all: seq<Period>, day: int) {
    && early <= all
    && (forall p :: p in early ==> p.filed <= day)
    && forall p :: p in all[|early|..] ==> day < p.filed
  }

  lemma PeriodsCut(s: Statements, day: int)
    requires Dated(s)
    ensures Dated(CutAll(s, day)) && PrefixFiledBy(PeriodsOf(CutAll(s, day)), PeriodsOf(s), day)
  {
    hide KnownBy, SortedKeys, Less, Ascending, PeriodsAt, CutAll, IncomeKeys;
    var part, whole := IncomeKeys(CutAll(s, day)), IncomeKeys(s);
    CutKeys(s, day);
    forall a, b | a in part && b in whole - part ensures Less(a, b) { EarlierFirst(a, b); }
    SortedPrefix(part, whole);
    var early, later := SortedKeys(part), SortedKeys(whole - part);
    assert SortedKeys(whole) == early + later;
    KeysAreEarly(part, day);
    KeysAreLate(whole - part, day);
    PeriodsAtAppend(s, early, later);
    PeriodsAtCut(s, early, day);
    PeriodsAtLater(s, later, day);
  }

  lemma KeysAreEarly(ks: set<Key>, day: int)
    requires forall k :: k in ks ==> |k| == 2 && k[0] <= day
    ensures forall i :: 0 <= i < |SortedKeys(ks)| ==> |SortedKeys(ks)[i]| == 2 && SortedKeys(ks)[i][0] <= day
  {
    hide SortedKeys, Ascending;
    forall i | 0 <= i < |SortedKeys(ks)| ensures SortedKeys(ks)[i] in ks { assert SortedKeys(ks)[i] in SortedKeys(ks); }
  }

  lemma KeysAreLate(ks: set<Key>, day: int)
    requires forall k :: k in ks ==> |k| == 2 && day < k[0]
    ensures forall i :: 0 <= i < |SortedKeys(ks)| ==> |SortedKeys(ks)[i]| == 2 && day < SortedKeys(ks)[i][0]
  {
    hide SortedKeys, Ascending;
    forall i | 0 <= i < |SortedKeys(ks)| ensures SortedKeys(ks)[i] in ks { assert SortedKeys(ks)[i] in SortedKeys(ks); }
  }

  lemma CutKeys(s: Statements, day: int)
    requires Dated(s)
    ensures Dated(CutAll(s, day))
    ensures forall k :: k in IncomeKeys(CutAll(s, day)) <==> k in IncomeKeys(s) && |k| == 2 && k[0] <= day
    ensures forall k :: k in IncomeKeys(s) ==> |k| == 2
  {
  }

  lemma EarlierFirst(a: Key, b: Key)
    requires |a| == 2 && |b| == 2 && a[0] < b[0]
    ensures Less(a, b)
  {
  }

  predicate AllSettled(facts: Facts, tags: Tags, day: int) {
    && Settled(facts, tags.gross, Usd, day) && Settled(facts, tags.revenue, Usd, day)
    && Settled(facts, tags.cost, Usd, day) && Settled(facts, tags.assets, Usd, day)
  }

  lemma StatementsRestrict(facts: Facts, tags: Tags, day: int)
    requires AllSettled(facts, tags, day)
    ensures StatementsOf(Restrict(facts, day), tags) == CutAll(StatementsOf(facts, tags), day)
  {
    hide PointsOf, VintagesOf, Cut, Settled, UpTo, Restrict;
    PointsRestrict(facts, tags.gross, Usd, day);
    PointsRestrict(facts, tags.revenue, Usd, day);
    PointsRestrict(facts, tags.cost, Usd, day);
    PointsRestrict(facts, tags.assets, Usd, day);
    VintagesUpTo(Flow, PointsOf(facts, tags.gross, Usd), day);
    VintagesUpTo(Flow, PointsOf(facts, tags.revenue, Usd), day);
    VintagesUpTo(Flow, PointsOf(facts, tags.cost, Usd), day);
    VintagesUpTo(Instant, PointsOf(facts, tags.assets, Usd), day);
  }

  /** Later filings cannot change the past: the periods of the payload as it was on a day are the
      full payload's periods filed by that day, and come first in it. */
  lemma TimeTravelPrefix(facts: Facts, tags: Tags, day: int)
    requires AllSettled(facts, tags, day)
    ensures PrefixFiledBy(CompanyPeriods(Restrict(facts, day), tags), CompanyPeriods(facts, tags), day)
  {
    hide AllSettled, StatementsOf, PeriodsOf, Restrict, CutAll, PrefixFiledBy;
    StatementsRestrict(facts, tags, day);
    PeriodsCut(StatementsOf(facts, tags), day);
  }

  // ---- exactly when a hidden reading shows ----

  /** A row of tags that is not settled reads nothing of what was filed by the day. */
  function Kept(settled: bool, m: Vintages): Vintages {
    if settled then m else map[]
  }

  lemma RowCut(facts: Facts, tags: seq<Key>, reading: Reading, day: int)
    ensures Cut(VintagesOf(reading, PointsOf(facts, tags, Usd)), day) ==
            Kept(Settled(facts, tags, Usd, day), VintagesOf(reading, PointsOf(Restrict(facts, day), tags, Usd)))
  {
    hide VintagesOf, Cut, UpTo, Restrict, Offers, FirstFilled;
    VintagesUpTo(reading, PointsOf(facts, tags, Usd), day);
    PointsRestrict(facts, tags, Usd, day);
    NothingRead(reading);
  }

  lemma NothingRead(reading: Reading)
    ensures VintagesOf(reading, []) == map[]
  {
  }

  /** The statements with the rows that are not settled left out. */
  function KeptOf(facts: Facts, tags: Tags, day: int, s: Statements): Statements {
    Statements(Kept(Settled(facts, tags.gross, Usd, day), s.gross),
               Kept(Settled(facts, tags.revenue, Usd, day), s.revenue),
               Kept(Settled(facts, tags.cost, Usd, day), s.cost), Kept(Settled(facts, tags.assets, Usd, day), s.assets))
  }

  lemma StatementsCut(facts: Facts, tags: Tags, day: int)
    ensures CutAll(StatementsOf(facts, tags), day) == KeptOf(facts, tags, day, StatementsOf(Restrict(facts, day), tags))
  {
    hide PointsOf, VintagesOf, Cut, Settled, Restrict, Kept;
    RowCut(facts, tags.gross, Flow, day);
    RowCut(facts, tags.revenue, Flow, day);
    RowCut(facts, tags.cost, Flow, day);
    RowCut(facts, tags.assets, Instant, day);
  }

  lemma {:induction false} SamePeriods(a: seq<Period>, b: seq<Period>)
    requires AllPrecede(a) && AllPrecede(b) && forall p :: p in a <==> p in b
    ensures a == b
    decreases |a|
  {
    if b != [] { assert b[0] in b; }
    if a != [] {
      assert a[0] in a && a[0] in b;
      var i :| 0 <= i < |a| && a[i] == b[0];
      var j :| 0 <= j < |b| && b[j] == a[0];
      assert a[0] == b[0];
      TailPeriods(a);
      TailPeriods(b);
      SamePeriods(a[1..], b[1..]);
      assert a == [a[0]] + a[1..] && b == [b[0]] + b[1..];
    }
  }

  lemma TailPeriods(a: seq<Period>)
    requires a != [] && AllPrecede(a)
    ensures AllPrecede(a[1..]) && forall p :: p in a[1..] <==> p in a && p != a[0]
  {
    var rest := a[1..];
    forall i, j | 0 <= i < j < |rest|
      ensures Precedes(rest[i], rest[j])
    {
      assert rest[i] == a[i + 1] && rest[j] == a[j + 1];
    }
    forall p | p in rest ensures p in a && p != a[0] {
      var i :| 0 <= i < |rest| && rest[i] == p;
      assert a[i + 1] == p && Precedes(a[0], a[i + 1]);
    }
    forall p | p in a && p != a[0] ensures p in rest {
      var i :| 0 <= i < |a| && a[i] == p;
      assert rest[i - 1] == p;
    }
  }

  /** Where a settled row is not needed: every period reads nothing there. */
  predicate NoGross(periods: seq<Period>) {
    forall p :: p in periods ==> p.gross.None?
  }

  predicate NoRevenue(periods: seq<Period>) {
    forall p :: p in periods ==> p.revenue.None?
  }

  predicate NoCost(periods: seq<Period>) {
    forall p :: p in periods ==> p.cost.None?
  }

  /** What is hidden on the day does not show in the day's periods: there are none, or the balance
      row is settled and so is every income row that some period has a value of. */
  predicate Harmless(facts: Facts, tags: Tags, day: int, periods: seq<Period>) {
    periods == [] ||
    (&& Settled(facts, tags.assets, Usd, day)
     && (Settled(facts, tags.gross, Usd, day) || NoGross(periods))
     && (Settled(facts, tags.revenue, Usd, day) || NoRevenue(periods))
     && (Settled(facts, tags.cost, Usd, day) || NoCost(periods)))
  }

  lemma KeptDated(facts: Facts, tags: Tags, day: int, s: Statements)
    requires Dated(s)
    ensures Dated(KeptOf(facts, tags, day, s))
  {
    hide Settled;
  }

  /** Harmless rows can be left out. */
  lemma HarmlessKeeps(facts: Facts, tags: Tags, day: int, s: Statements)
    requires Dated(s) && Harmless(facts, tags, day, PeriodsOf(s))
    ensures Dated(KeptOf(facts, tags, day, s)) && PeriodsOf(KeptOf(facts, tags, day, s)) == PeriodsOf(s)
  {
    hide PeriodsOf, PeriodFor, Settled, KeptOf, Harmless;
    KeptDated(facts, tags, day, s);
    var kept := KeptOf(facts, tags, day, s);
    PeriodsInOrder(s);
    PeriodsInOrder(kept);
    forall p ensures PeriodFor(kept, p) <==> PeriodFor(s, p) { HarmlessPeriod(facts, tags, day, s, p); }
    SamePeriods(PeriodsOf(kept), PeriodsOf(s));
  }

  lemma HarmlessPeriod(facts: Facts, tags: Tags, day: int, s: Statements, p: Period)
    requires Dated(s) && Harmless(facts, tags, day, PeriodsOf(s))
    ensures PeriodFor(KeptOf(facts, tags, day, s), p) <==> PeriodFor(s, p)
  {
    hide PeriodsOf, KnownBy, Settled;
    PeriodsInOrder(s);
    var kept, k := KeptOf(facts, tags, day, s), VintageKey(p.filed, p.end);
    NoBalance(p.end, p.filed);
    if PeriodFor(kept, p) {
      var full := Period(p.end, p.filed, At(s.gross, k), At(s.revenue, k), At(s.cost, k), p.assets);
      assert PeriodFor(s, full);
      assert full in PeriodsOf(s);
    }
    if PeriodFor(s, p) { assert p in PeriodsOf(s); }
  }

  lemma NoBalance(end: int, day: int)
    ensures KnownBy(map[], end, day) == None
  {
    assert FiledBy(map[], end, day) == {};
  }

  /** And nothing else can. */
  lemma OnlyHarmless(facts: Facts, tags: Tags, day: int, s: Statements)
    requires Dated(s) && Dated(KeptOf(facts, tags, day, s)) && PeriodsOf(KeptOf(facts, tags, day, s)) == PeriodsOf(s)
    ensures Harmless(facts, tags, day, PeriodsOf(s))
  {
    hide PeriodsOf, KnownBy, Settled;
    var kept, periods := KeptOf(facts, tags, day, s), PeriodsOf(s);
    PeriodsInOrder(kept);
    if periods != [] {
      assert periods[0] in periods && PeriodFor(kept, periods[0]);
      NoBalance(periods[0].end, periods[0].filed);
      forall p | p in periods
        ensures !Settled(facts, tags.gross, Usd, day) ==> p.gross.None?
        ensures !Settled(facts, tags.revenue, Usd, day) ==> p.revenue.None?
        ensures !Settled(facts, tags.cost, Usd, day) ==> p.cost.None?
      {
        assert PeriodFor(kept, p);
      }
    }
  }

  lemma OnePrefix(a: seq<Period>, b: seq<Period>, all: seq<Period>, day: int)
    requires PrefixFiledBy(b, all, day)
    ensures PrefixFiledBy(a, all, day) <==> a == b
  {
    if PrefixFiledBy(a, all, day) {
      PrefixPlaces(a, all, day);
      PrefixPlaces(b, all, day);
      assert |a| < |all| ==> (|a| < |b| <==> all[|a|].filed <= day);
      assert |b| < |all| ==> (|b| < |a| <==> all[|b|].filed <= day);
    }
  }

  lemma PrefixPlaces(early: seq<Period>, all: seq<Period>, day: int)
    requires PrefixFiledBy(early, all, day)
    ensures |early| <= |all| && early == all[..|early|]
    ensures forall i :: 0 <= i < |all| ==> (i < |early| <==> all[i].filed <= day)
  {
    forall i | 0 <= i < |all| ensures i < |early| <==> all[i].filed <= day {
      if i < |early| { assert early[i] in early; } else { assert all[|early|..][i - |early|] in all[|early|..]; }
    }
  }

  /** The periods of the payload as it was on a day are exactly the full payload's periods filed by
      that day, in front, exactly when nothing that is hidden shows in them. */
  lemma TimeTravelExact(facts: Facts, tags: Tags, day: int)
    ensures var early := CompanyPeriods(Restrict(facts, day), tags);
            PrefixFiledBy(early, CompanyPeriods(facts, tags), day) <==> Harmless(facts, tags, day, early)
  {
    hide StatementsOf, PeriodsOf, Restrict, CutAll, KeptOf, PrefixFiledBy, Harmless, Dated;
    var s, past := StatementsOf(facts, tags), StatementsOf(Restrict(facts, day), tags);
    StatementsCut(facts, tags, day);
    PeriodsCut(s, day);
    OnePrefix(PeriodsOf(past), PeriodsOf(CutAll(s, day)), PeriodsOf(s), day);
    if Harmless(facts, tags, day, PeriodsOf(past)) { HarmlessKeeps(facts, tags, day, past); }
    if PeriodsOf(CutAll(s, day)) == PeriodsOf(past) { OnlyHarmless(facts, tags, day, past); }
  }

  /** A later filing under a preferred tag does change the past: a company that reported revenue
      under one of the tags read on day 100 has a period then, and none by that day once it files
      under a preferred one on day 200. */
  lemma LateTagRewritesThePast()
    ensures var facts := LateTag();
            && !PrefixFiledBy(CompanyPeriods(Restrict(facts, 100), PERIOD_TAGS), CompanyPeriods(facts, PERIOD_TAGS),
                              100)
            && !AllSettled(facts, PERIOD_TAGS, 100)
  {
    hide SortedKeys, KnownBy, CompanyPeriods, PrefixFiledBy, Restrict, AllSettled, Text;
    var facts := LateTag();
    LateTagPeriods();
    NotAPrefix(CompanyPeriods(Restrict(facts, 100), PERIOD_TAGS), CompanyPeriods(facts, PERIOD_TAGS), 100);
    if AllSettled(facts, PERIOD_TAGS, 100) { TimeTravelPrefix(facts, PERIOD_TAGS, 100); }
  }

  const LATE: Point := Point(true, Some(-300), Some(90), Some(200), Some(2.0))
  const EARLY: Point := Point(true, Some(-300), Some(90), Some(100), Some(1.0))
  const BALANCE: Point := Point(false, None, Some(90), Some(100), Some(5.0))

  /** Revenue up to day 90 filed on day 100 under the third revenue tag and on day 200 under the
      preferred one, with a balance sheet filed on day 100. */
  function LateTag(): Facts {
    map[TAG_REVENUE[0] := [Unit(Usd, [LATE])], TAG_REVENUE[2] := [Unit(Usd, [EARLY])],
        TAG_ASSETS[0] := [Unit(Usd, [BALANCE])]]
  }

  lemma NotAPrefix(early: seq<Period>, all: seq<Period>, day: int)
    requires early != [] && forall p :: p in all ==> p.filed > day
    ensures !PrefixFiledBy(early, all, day)
  {
    if early <= all { assert early[0] == all[0] && early[0] in early && all[0] in all; }
  }

  /** The preferred tag is read if it has anything, else the rest of the row. */
  lemma PointsOfRow(facts: Facts, row: seq<Key>)
    requires row != []
    ensures var here := if row[0] in facts then FirstFilled(UnitLists(facts[row[0]], Usd)) else [];
            PointsOf(facts, row, Usd) == if here != [] then here else PointsOf(facts, row[1..], Usd)
  {
    hide FirstFilled, UnitLists;
    NoOffers();
    var here := if row[0] in facts then UnitLists(facts[row[0]], Usd) else [];
    OffersOfRow(facts, row);
    FirstFilledAppend(here, Offers(facts, row[1..], Usd));
  }

  lemma {:induction false} OffersOfRow(facts: Facts, row: seq<Key>)
    requires row != []
    ensures Offers(facts, row, Usd)
            == (if row[0] in facts then UnitLists(facts[row[0]], Usd) else []) + Offers(facts, row[1..], Usd)
    decreases |row|
  {
    hide UnitLists;
    if |row| == 1 {
      assert Offers(facts, row[..0], Usd) == [] && Offers(facts, row[1..], Usd) == [];
    } else {
      OffersOfRow(facts, row[..|row| - 1]);
      assert row[..|row| - 1][1..] == row[1..][..|row| - 2];
    }
  }

  lemma OneUnit(points: seq<Point>)
    ensures FirstFilled(UnitLists([Unit(Usd, points)], Usd)) == points
  {
    var units := [Unit(Usd, points)];
    assert units[..0] == [] && UnitLists([], Usd) == [];
    assert UnitLists(units, Usd) == [] + [points];
    assert FirstFilled([points][1..]) == [];
  }

  /** A row of tags under which nothing was filed. */
  lemma {:induction false} NothingFiled(facts: Facts, row: seq<Key>)
    requires forall i :: 0 <= i < |row| ==> row[i] !in facts
    ensures PointsOf(facts, row, Usd) == []
    decreases |row|
  {
    if row != [] {
      PointsOfRow(facts, row);
      NothingFiled(facts, row[1..]);
    }
  }

  lemma TagNames()
    ensures |TAG_REVENUE[0]| == 51 && |TAG_REVENUE[2]| == 8 && |TAG_ASSETS[0]| == 6
    ensures TAG_REVENUE[1] != TAG_REVENUE[0] && |TAG_REVENUE[1]| == 51
    ensures forall i :: 3 <= i < |TAG_REVENUE| ==> |TAG_REVENUE[i]| in {15, 20}
    ensures forall i :: 0 <= i < |TAG_COGS| ==> |TAG_COGS[i]| in {26, 13, 15}
    ensures |TAG_GROSS_PROFIT[0]| == 11
  {
    assert TAG_REVENUE[0][31] == 'E' as int && TAG_REVENUE[1][31] == 'I' as int;
  }

  /** The payload of day 100, tag by tag. */
  function PastOfLateTag(): Facts {
    map[TAG_REVENUE[0] := [Unit(Usd, [])], TAG_REVENUE[2] := [Unit(Usd, [EARLY])],
        TAG_ASSETS[0] := [Unit(Usd, [BALANCE])]]
  }

  lemma RestrictLateTag()
    ensures Restrict(LateTag(), 100) == PastOfLateTag()
  {
    hide Text, UpTo;
    TagNames();
    UpToOne(LATE, 100);
    UpToOne(EARLY, 100);
    UpToOne(BALANCE, 100);
    var past := Restrict(LateTag(), 100);
    assert past[TAG_REVENUE[0]] == [Unit(Usd, [])] && past[TAG_REVENUE[2]] == [Unit(Usd, [EARLY])]
           && past[TAG_ASSETS[0]] == [Unit(Usd, [BALANCE])];
  }

  lemma UpToOne(p: Point, day: int)
    ensures UpTo([p], day) == if PublicBy(p, day) then [p] else []
  {
    assert [p][..0] == [];
  }

  /** The readings of a payload that holds the given lists under those three tags. */
  lemma ReadingsOf(facts: Facts, preferred: seq<Point>, third: seq<Point>, balances: seq<Point>)
    requires facts.Keys == {TAG_REVENUE[0], TAG_REVENUE[2], TAG_ASSETS[0]}
    requires facts[TAG_REVENUE[0]] == [Unit(Usd, preferred)] && facts[TAG_REVENUE[2]] == [Unit(Usd, third)]
    requires facts[TAG_ASSETS[0]] == [Unit(Usd, balances)]
    ensures PointsOf(facts, TAG_GROSS_PROFIT, Usd) == [] && PointsOf(facts, TAG_COGS, Usd) == []
    ensures PointsOf(facts, TAG_REVENUE, Usd) == if preferred != [] then preferred else third
    ensures PointsOf(facts, TAG_ASSETS, Usd) == balances
  {
    hide Text, PointsOf, FirstFilled, UnitLists;
    TagNames();
    OneUnit(preferred);
    OneUnit(third);
    OneUnit(balances);
    NothingFiled(facts, TAG_GROSS_PROFIT);
    NothingFiled(facts, TAG_COGS);
    NothingFiled(facts, TAG_ASSETS[1..]);
    PointsOfRow(facts, TAG_ASSETS);
    PointsOfRow(facts, TAG_REVENUE);
    PointsOfRow(facts, TAG_REVENUE[1..]);
    PointsOfRow(facts, TAG_REVENUE[1..][1..]);
    var rest := TAG_REVENUE[1..][1..][1..];
    assert rest == TAG_REVENUE[3..];
    NothingFiled(facts, rest);
  }

  lemma LateTagStatements()
    ensures StatementsOf(LateTag(), PERIOD_TAGS)
            == Statements(map[], map[[200, 90] := 2.0], map[], map[[100, 90] := 5.0])
    ensures StatementsOf(Restrict(LateTag(), 100), PERIOD_TAGS)
            == Statements(map[], map[[100, 90] := 1.0], map[], map[[100, 90] := 5.0])
  {
    hide PointsOf, Text, Restrict, VintagesOf;
    TagNames();
    RestrictLateTag();
    ReadingsOf(LateTag(), [LATE], [EARLY], [BALANCE]);
    ReadingsOf(PastOfLateTag(), [], [EARLY], [BALANCE]);
    OneVintage(Flow, LATE);
    OneVintage(Flow, EARLY);
    OneVintage(Instant, BALANCE);
    NoVintages();
  }

  lemma LateTagPeriods()
    ensures CompanyPeriods(Restrict(LateTag(), 100), PERIOD_TAGS) != []
    ensures forall p :: p in CompanyPeriods(LateTag(), PERIOD_TAGS) ==> p.filed > 100
  {
    hide Text, Restrict, StatementsOf, LateTag, PeriodsOf;
    LateTagStatements();
    OnlyPeriod(StatementsOf(Restrict(LateTag(), 100), PERIOD_TAGS), [100, 90], 1.0);
    LatePeriods(StatementsOf(LateTag(), PERIOD_TAGS), [200, 90], 2.0);
  }

  lemma OnlyPeriod(s: Statements, k: Key, value: real)
    requires Dated(s) && s.gross == map[] && s.cost == map[] && s.revenue == map[k := value] && |k| == 2
             && k in s.assets
    ensures PeriodsOf(s) != []
  {
    hide SortedKeys, KnownBy, PeriodsAt;
    assert IncomeKeys(s) == {k};
    OneSortedKey(k);
    BalanceGivesPeriod(s, k);
  }

  lemma LatePeriods(s: Statements, k: Key, value: real)
    requires Dated(s) && s.gross == map[] && s.cost == map[] && s.revenue == map[k := value] && |k| == 2 && k[0] > 100
    ensures forall p :: p in PeriodsOf(s) ==> p.filed > 100
  {
    hide SortedKeys, KnownBy, PeriodsAt;
    assert IncomeKeys(s) == {k};
    OneSortedKey(k);
    PeriodsAtLater(s, [k], 100);
  }

  lemma BalanceGivesPeriod(s: Statements, k: Key)
    requires |k| == 2 && k in s.assets
    ensures PeriodsAt(s, [k]) != []
  {
    hide KnownBy;
    assert k == VintageKey(k[0], k[1]);
    FiledByMeans(s.assets, k[1], k[0], k[0]);
    KnownSomething(s.assets, k[1], k[0]);
    assert [k][..0] == [];
    assert PeriodsAt(s, [k]) == PeriodsAt(s, []) + PeriodAt(s, k);
  }

  lemma KnownSomething(m: Vintages, end: int, day: int)
    requires FiledBy(m, end, day) != {}
    ensures KnownBy(m, end, day).Some?
  {
  }

  lemma OneVintage(reading: Reading, p: Point)
    requires Reads(reading, p)
    ensures VintagesOf(reading, [p]) == map[VintageKey(p.filed.value, p.end.value) := p.val.value]
  {
    assert [p][..0] == [];
  }

  lemma NoVintages()
    ensures VintagesOf(Flow, []) == map[]
  {
  }

  lemma OneSortedKey(k: Key)
    ensures SortedKeys({k}) == [k]
  {
    hide SortedKeys, Less;
    var ks := SortedKeys({k});
    assert ks[0] in ks;
  }

  // ---- factors ----

  /** What was known on a day, by period end. */
  function Visible(m: Vintages, day: int): map<int, real> {
    map end | end in Ends(m) && KnownBy(m, end, day).Some? :: KnownBy(m, end, day).value
  }

  function Ends(m: Vintages): set<int> {
    set k | k in m && |k| == 2 :: k[1]
  }

  /** The best vintage of each period among those looked at. */
  predicate BestSoFar(m: Vintages, done: set<Key>, day: int, best: map<int, (int, real)>) {
    && (forall end :: end in best ==>
          VintageKey(best[end].0, end) in m && best[end].0 <= day && best[end].1 == m[VintageKey(best[end].0, end)])
    && forall k :: k in done && |k| == 2 && k[0] <= day ==> k[1] in best && k[0] <= best[k[1]].0
  }

  method VisibleAnnual(m: Vintages, day: int) returns (out: map<int, real>)
    requires Pairs(m.Keys)
    ensures out == Visible(m, day)
  {
    hide BestSoFar;
    var best: map<int, (int, real)> := map[];
    var todo := m.Keys;
    NoneSeen(m, day);
    while todo != {}
      invariant todo <= m.Keys && BestSoFar(m, m.Keys - todo, day, best)
      decreases |todo|
    {
      var k :| k in todo;
      OneSeen(m, m.Keys - todo, day, best, k);
      assert m.Keys - todo + {k} == m.Keys - (todo - {k});
      todo := todo - {k};
      if k[0] > day { continue; }
      if k[1] !in best || k[0] >= best[k[1]].0 { best := best[k[1] := (k[0], m[k])]; }
    }
    assert m.Keys - todo == m.Keys;
    AllSeen(m, day, best);
    out := map end | end in best :: best[end].1;
  }

  lemma NoneSeen(m: Vintages, day: int)
    ensures BestSoFar(m, m.Keys - m.Keys, day, map[])
  {
  }

  lemma OneSeen(m: Vintages, done: set<Key>, day: int, best: map<int, (int, real)>, k: Key)
    requires BestSoFar(m, done, day, best) && k in m && |k| == 2
    ensures BestSoFar(m, done + {k}, day,
                      if k[0] <= day && (k[1] !in best || k[0] >= best[k[1]].0) then best[k[1] := (k[0], m[k])]
                      else best)
  {
    assert k == [k[0], k[1]] == VintageKey(k[0], k[1]);
  }

  lemma AllSeen(m: Vintages, day: int, best: map<int, (int, real)>)
    requires Pairs(m.Keys) && BestSoFar(m, m.Keys, day, best)
    ensures (map end | end in best :: best[end].1) == Visible(m, day)
  {
    hide KnownBy;
    forall end ensures end in best <==> end in Visible(m, day) {
      SeenIsKnown(m, day, best, end);
    }
    forall end | end in best ensures best[end].1 == Visible(m, day)[end] {
      SeenIsKnown(m, day, best, end);
    }
  }

  lemma SeenIsKnown(m: Vintages, day: int, best: map<int, (int, real)>, end: int)
    requires Pairs(m.Keys) && BestSoFar(m, m.Keys, day, best)
    ensures KnownBy(m, end, day) == if end in best then Some(best[end].1) else None
    ensures end in best ==> end in Ends(m)
  {
    forall f
      ensures f in FiledBy(m, end, day) <==> VintageKey(f, end) in m && f <= day
    {
      FiledByMeans(m, end, day, f);
    }
    GreatestIs(m, end, day, if end in best then Some(best[end].0) else None);
  }

  /** The readings factors are computed from, each as known on the day. */
  datatype View = View(assets: map<int, real>, gross: map<int, real>, revenue: map<int, real>, cost: map<int, real>,
                       income: map<int, real>, cash: map<int, real>, shares: map<int, real>)

  /** Each factor is absent when it cannot be known. */
  datatype Factors = Factors(end: Option<int>, gpA: Option<real>, assetGrowth: Option<real>, accruals: Option<real>,
                             netIssuance: Option<real>)

  const NO_FACTORS := Factors(None, None, None, None, None)

  function Lookup(m: map<int, real>, end: Option<int>): Option<real> {
    if end.Some? && end.value in m then Some(m[end.value]) else None
  }

  function Latest(ends: set<int>): Option<int> {
    if ends == {} then None else Some(Greatest(ends))
  }

  function Before(ends: set<int>): Option<int> {
    if ends == {} then None else Latest(ends - {Greatest(ends)})
  }

  function Growth(now: Option<real>, before: Option<real>): Option<real> {
    if now.Some? && before.Some? && before.value != 0.0 then Some(-(now.value / before.value - 1.0)) else None
  }

  /** Gross profit over assets, the profit rebuilt from revenue and cost when it is not reported. */
  function GpA(v: View, end: Option<int>): Option<real> {
    var assets := Lookup(v.assets, end);
    var gross :=
      if Lookup(v.gross, end).None? && Lookup(v.revenue, end).Some? && Lookup(v.cost, end).Some?
      then Some(Lookup(v.revenue, end).value - Lookup(v.cost, end).value) else Lookup(v.gross, end);
    if gross.None? || assets.None? || assets.value == 0.0 then None
    else if -1.0 <= gross.value / assets.value <= 10.0 then Some(gross.value / assets.value) else None
  }

  function Accruals(v: View, end: Option<int>): Option<real> {
    var assets := Lookup(v.assets, end);
    if Lookup(v.income, end).None? || Lookup(v.cash, end).None? || assets.None? || assets.value == 0.0 then None
    else Some(-((Lookup(v.income, end).value - Lookup(v.cash, end).value) / assets.value))
  }

  /** The share counts compared: those of the two annual ends, or else the two latest of any date. */
  function ShareCounts(v: View, end: Option<int>, before: Option<int>): (Option<real>, Option<real>) {
    if Lookup(v.shares, end).Some? && Lookup(v.shares, before).Some?
    then (Lookup(v.shares, end), Lookup(v.shares, before))
    else if |v.shares| >= 2 then (Lookup(v.shares, Latest(v.shares.Keys)), Lookup(v.shares, Before(v.shares.Keys)))
    else (None, None)
  }

  function NetIssuance(v: View, end: Option<int>, before: Option<int>): Option<real> {
    var (now, earlier) := ShareCounts(v, end, before);
    Growth(now, earlier)
  }

  function FactorsOf(v: View): Factors {
    var ends := AnnualEnds(v);
    if ends == {} then NO_FACTORS
    else
      var end, before := Latest(ends), Before(ends);
      Factors(end, GpA(v, end), Growth(Lookup(v.assets, end), Lookup(v.assets, before)), Accruals(v, end),
              NetIssuance(v, end, before))
  }

  lemma GrowthSign(now: real, before: real)
    requires before > 0.0
    ensures -(now / before - 1.0) > 0.0 <==> now < before
  {
    var q := now / before;
    assert q * before == now;
    if q < 1.0 { Scaled(q, 1.0, before); }
    if q >= 1.0 { Scaled(1.0, q, before); }
  }

  lemma Scaled(a: real, b: real, c: real)
    requires a <= b && c > 0.0
    ensures a * c <= b * c && (a < b ==> a * c < b * c)
  {
  }

  /** The period ends factors are anchored on: reported for a year, with a balance sheet. */
  function AnnualEnds(v: View): set<int> {
    set e | e in v.gross.Keys + v.revenue.Keys + v.income.Keys + v.cash.Keys && e in v.assets
  }

  lemma AccrualsSign(income: real, cash: real, assets: real)
    requires assets > 0.0
    ensures -((income - cash) / assets) > 0.0 <==> income < cash
  {
    var q := (income - cash) / assets;
    assert q * assets == income - cash;
    if q < 0.0 { Scaled(q, 0.0, assets); }
    if q >= 0.0 { Scaled(0.0, q, assets); }
  }

  /** Higher is better: on positive balances the growth factor is positive exactly when the balance
      sheet shrank over the two latest annual ends, the accruals factor exactly when the cash flow is
      above the income, and the issuance factor exactly when the share count fell; the profitability
      factor is never outside its sanity bounds. */
  lemma HigherIsBetter(v: View)
    ensures var f, ends := FactorsOf(v), AnnualEnds(v);
            && f.end == Latest(ends)
            && (f.gpA.Some? ==> -1.0 <= f.gpA.value <= 10.0)
            && (f.assetGrowth.Some? ==>
                GrowthMeans(f.assetGrowth.value, Lookup(v.assets, Latest(ends)), Lookup(v.assets, Before(ends))))
            && (f.accruals.Some? ==>
                  AccrualsMean(f.accruals.value, Lookup(v.income, f.end), Lookup(v.cash, f.end),
                               Lookup(v.assets, f.end)))
            && (f.netIssuance.Some? ==>
                  var (now, before) :=
                    ShareCounts(v, f.end, Before(ends)); GrowthMeans(f.netIssuance.value, now, before))
  {
    hide AnnualEnds, Latest, Before, GpA, Accruals, ShareCounts, Growth, Lookup;
    var ends := AnnualEnds(v);
    NoLatest();
    GpABounds(v, Latest(ends));
    GrowthIs(Lookup(v.assets, Latest(ends)), Lookup(v.assets, Before(ends)));
    AccrualsAre(v, Latest(ends));
    var (now, before) := ShareCounts(v, Latest(ends), Before(ends));
    GrowthIs(now, before);
  }

  // ---- the factors' values ----

  /** A year end factors can stand on: some annual figure and a balance sheet. */
  predicate AnnualEnd(v: View, e: int) {
    (e in v.gross || e in v.revenue || e in v.income || e in v.cash) && e in v.assets
  }

  /** Growth from an earlier figure to a later one, turned so that shrinking is positive: there when the
      earlier figure is not zero, and its product with it is what was lost. */
  predicate Shrinks(growth: Option<real>, now: Option<real>, before: Option<real>) {
    && (growth.Some? <==> now.Some? && before.Some? && before.value != 0.0)
    && (growth.Some? && before.Some? && now.Some? ==> growth.value * before.value == before.value - now.value)
  }

  /** The profit of a year: reported, or else revenue less cost. */
  predicate ProfitOf(v: View, e: int, profit: real) {
    || (e in v.gross && v.gross[e] == profit)
    || (e !in v.gross && e in v.revenue && e in v.cost && v.revenue[e] - v.cost[e] == profit)
  }

  predicate HasProfit(v: View, e: int) {
    e in v.gross || (e in v.revenue && e in v.cost)
  }

  lemma GrowthExact(now: Option<real>, before: Option<real>)
    ensures Shrinks(Growth(now, before), now, before)
  {
    if now.Some? && before.Some? && before.value != 0.0 {
      var q := now.value / before.value;
      assert q * before.value == now.value;
      Negated(q, before.value);
    }
  }

  lemma Negated(q: real, x: real)
    ensures -(q - 1.0) * x == x - q * x
  {
  }

  /** Profitability times assets is the profit; there is one exactly when profit and assets are known,
      the assets are not zero and the ratio is sane. */
  ghost predicate Profitability(v: View, e: int, gpA: Option<real>) {
    && (gpA.Some? ==> HasProfit(v, e) && e in v.assets && v.assets[e] != 0.0)
    && forall profit :: ProfitOf(v, e, profit) && e in v.assets && v.assets[e] != 0.0 ==>
         && (gpA.Some? <==> -1.0 <= profit / v.assets[e] <= 10.0)
         && (gpA.Some? ==> gpA.value * v.assets[e] == profit)
  }

  lemma GpAExact(v: View, e: int)
    ensures Profitability(v, e, GpA(v, Some(e)))
  {
  }

  /** Accruals times assets are the cash flow less the income. */
  predicate AccrualsOf(v: View, e: int, accruals: Option<real>) {
    && (accruals.Some? <==> e in v.income && e in v.cash && e in v.assets && v.assets[e] != 0.0)
    && (accruals.Some? && e in v.income && e in v.cash && e in v.assets ==>
          accruals.value * v.assets[e] == v.cash[e] - v.income[e])
  }

  lemma AccrualsExact(v: View, e: int)
    ensures AccrualsOf(v, e, Accruals(v, Some(e)))
  {
    if e in v.income && e in v.cash && e in v.assets && v.assets[e] != 0.0 {
      var q := (v.income[e] - v.cash[e]) / v.assets[e];
      assert q * v.assets[e] == v.income[e] - v.cash[e];
      assert -q * v.assets[e] == -(q * v.assets[e]);
    }
  }

  function ValueAt(m: map<int, real>, e: int): Option<real> {
    if e in m then Some(m[e]) else None
  }

  /** The value at the latest of some dates. */
  function ValueAtLast(m: map<int, real>, ends: set<int>): Option<real> {
    if ends == {} then None else ValueAt(m, Greatest(ends))
  }

  /** Issuance over the two ends, or over the two latest dates that have a share count. */
  predicate IssuanceOf(v: View, e: int, rest: set<int>, issuance: Option<real>) {
    var now, before := ValueAt(v.shares, e), ValueAtLast(v.shares, rest);
    if now.Some? && before.Some? then Shrinks(issuance, now, before) else TwoLatest(issuance, v.shares)
  }

  /** All four factors: from the latest year end and the one before it, and for the share counts, when
      either end lacks one, from the two latest dates with a count. */
  lemma FactorsExact(v: View, ends: set<int>)
    requires forall e :: e in ends <==> AnnualEnd(v, e)
    ensures ends == {} ==> FactorsOf(v) == Factors(None, None, None, None, None)
    ensures ends != {} ==>
              var f, e := FactorsOf(v), Greatest(ends);
              var rest := ends - {e};
              && f.end == Some(e) && Profitability(v, e, f.gpA) && AccrualsOf(v, e, f.accruals)
              && Shrinks(f.assetGrowth, ValueAt(v.assets, e), ValueAtLast(v.assets, rest))
              && IssuanceOf(v, e, rest, f.netIssuance)
  {
    hide GpA, Accruals, Growth, Greatest, IsGreatest, Shrinks, Profitability, AccrualsOf, ShareCounts, IssuanceOf,
      Lookup, ValueAt, ValueAtLast, Latest, Before;
    SameEnds(v, ends);
    if ends != {} {
      var e := Greatest(ends);
      GpAExact(v, e);
      AccrualsExact(v, e);
      LookupIs(v.assets, ends);
      GrowthExact(Lookup(v.assets, Latest(ends)), Lookup(v.assets, Before(ends)));
      IssuanceExact(v, ends);
    }
  }

  lemma SameEnds(v: View, ends: set<int>)
    requires forall e :: e in ends <==> AnnualEnd(v, e)
    ensures ends == AnnualEnds(v)
  {
    forall e ensures e in ends <==> e in AnnualEnds(v) { assert e in ends <==> AnnualEnd(v, e); }
  }

  lemma LookupIs(m: map<int, real>, ends: set<int>)
    requires ends != {}
    ensures var e := Greatest(ends);
            && Latest(ends) == Some(e) && Lookup(m, Latest(ends)) == ValueAt(m, e)
            && Lookup(m, Before(ends)) == ValueAtLast(m, ends - {e})
  {
    hide Greatest, IsGreatest;
  }

  lemma IssuanceExact(v: View, ends: set<int>)
    requires ends != {}
    ensures IssuanceOf(v, Greatest(ends), ends - {Greatest(ends)}, NetIssuance(v, Latest(ends), Before(ends)))
  {
    hide Growth, Greatest, IsGreatest, Shrinks, TwoLatest, Lookup, ValueAt, ValueAtLast, Latest, Before;
    LookupIs(v.shares, ends);
    GrowthExact(Lookup(v.shares, Latest(ends)), Lookup(v.shares, Before(ends)));
    IssuanceOfTwo(v.shares);
    NoGrowth();
  }

  lemma NoGrowth()
    ensures Growth(None, None) == None
  {
  }

  /** Issuance over the two latest dates that have a share count, if there are two. */
  predicate TwoLatest(issuance: Option<real>, shares: map<int, real>) {
    if |shares| < 2 then issuance == None
    else
      && shares.Keys != {}
      && var last := Greatest(shares.Keys);
         shares.Keys - {last} != {}
         && Shrinks(issuance, ValueAt(shares, last), ValueAtLast(shares, shares.Keys - {last}))
  }

  lemma IssuanceOfTwo(shares: map<int, real>)
    ensures TwoLatest(if |shares| >= 2
                      then Growth(Lookup(shares, Latest(shares.Keys)), Lookup(shares, Before(shares.Keys))) else None,
                      shares)
  {
    hide Growth, Greatest, IsGreatest, Shrinks, Lookup, Latest, Before, ValueAt, ValueAtLast;
    if |shares| >= 2 {
      assert shares.Keys != {};
      LookupIs(shares, shares.Keys);
      var rest := shares.Keys - {Greatest(shares.Keys)};
      assert Greatest(shares.Keys) in shares.Keys by { GreatestIsIn(shares.Keys); }
      assert |rest| == |shares.Keys| - 1 && |shares.Keys| == |shares|;
      GrowthExact(Lookup(shares, Latest(shares.Keys)), Lookup(shares, Before(shares.Keys)));
    }
  }

  lemma GreatestIsIn(s: set<int>)
    requires s != {}
    ensures Greatest(s) in s
  {
    hide Greatest;
  }

  predicate GrowthMeans(growth: real, now: Option<real>, before: Option<real>) {
    now.Some? && before.Some? && (before.value > 0.0 ==> (growth > 0.0 <==> now.value < before.value))
  }

  predicate AccrualsMean(accruals: real, income: Option<real>, cash: Option<real>, assets: Option<real>) {
    income.Some? && cash.Some? && assets.Some?
      && (assets.value > 0.0 ==> (accruals > 0.0 <==> income.value < cash.value))
  }

  lemma NoLatest()
    ensures Latest({}) == None
  {
  }

  lemma GpABounds(v: View, end: Option<int>)
    ensures GpA(v, end).Some? ==> -1.0 <= GpA(v, end).value <= 10.0
  {
    hide Lookup;
  }

  lemma GrowthIs(now: Option<real>, before: Option<real>)
    ensures Growth(now, before).Some? ==> GrowthMeans(Growth(now, before).value, now, before)
  {
    if now.Some? && before.Some? && before.value > 0.0 { GrowthSign(now.value, before.value); }
  }

  lemma AccrualsAre(v: View, end: Option<int>)
    ensures Accruals(v, end).Some? ==>
              AccrualsMean(Accruals(v, end).value, Lookup(v.income, end), Lookup(v.cash, end), Lookup(v.assets, end))
  {
    hide Lookup;
    var income, cash, assets := Lookup(v.income, end), Lookup(v.cash, end), Lookup(v.assets, end);
    if income.Some? && cash.Some? && assets.Some? && assets.value > 0.0 {
      AccrualsSign(income.value, cash.value, assets.value);
    }
  }

  datatype FactorTags = FactorTags(assets: seq<Key>, gross: seq<Key>, revenue: seq<Key>, cost: seq<Key>,
                                   income: seq<Key>, cash: seq<Key>, shares: seq<Key>)

  const FACTOR_TAGS: FactorTags :=
    FactorTags([Text("Assets")], [Text("GrossProfit")],
               [Text("RevenueFromContractWithCustomerExcludingAssessedTax"), Text("Revenues"), Text("SalesRevenueNet")],
               [Text("CostOfGoodsAndServicesSold"), Text("CostOfRevenue"), Text("CostOfGoodsSold")],
               [Text("NetIncomeLoss"), Text("ProfitLoss")],
               [Text("NetCashProvidedByUsedInOperatingActivities"),
                Text("NetCashProvidedByUsedInOperatingActivitiesContinuingOperations")],
               [Text("CommonStockSharesOutstanding"), Text("CommonStockSharesIssued"),
                Text("WeightedAverageNumberOfSharesOutstandingBasic"),
                Text("WeightedAverageNumberOfDilutedSharesOutstanding")])

  function Seen(facts: Facts, tags: seq<Key>, kind: UnitKind, reading: Reading, day: int): map<int, real> {
    Visible(VintagesOf(reading, PointsOf(facts, tags, kind)), day)
  }

  function ViewOf(facts: Facts, tags: FactorTags, day: int): View {
    View(Seen(facts, tags.assets, Usd, Instant, day), Seen(facts, tags.gross, Usd, Flow, day),
         Seen(facts, tags.revenue, Usd, Flow, day), Seen(facts, tags.cost, Usd, Flow, day),
         Seen(facts, tags.income, Usd, Flow, day), Seen(facts, tags.cash, Usd, Flow, day),
         Seen(facts, tags.shares, Shares, Instant, day))
  }

  method SeenFlow(facts: Facts, tags: seq<Key>, day: int) returns (seen: map<int, real>)
    ensures seen == Seen(facts, tags, Usd, Flow, day)
  {
    hide PointsOf, VintagesOf, Visible;
    var points := UnitPoints(facts, tags, Usd);
    var vintages := AnnualFlow(points);
    seen := VisibleAnnual(vintages, day);
  }

  method SeenInstant(facts: Facts, tags: seq<Key>, kind: UnitKind, day: int) returns (seen: map<int, real>)
    ensures seen == Seen(facts, tags, kind, Instant, day)
  {
    hide PointsOf, VintagesOf, Visible;
    var points := UnitPoints(facts, tags, kind);
    var vintages := InstantFacts(points);
    seen := VisibleAnnual(vintages, day);
  }

  method FactorSet(facts: Facts, day: int) returns (factors: Factors)
    ensures factors == FactorsOf(ViewOf(facts, FACTOR_TAGS, day))
  {
    hide Seen, FactorsOf, Text;
    var tags := FACTOR_TAGS;
    var assets := SeenInstant(facts, tags.assets, Usd, day);
    var gross := SeenFlow(facts, tags.gross, day);
    var revenue := SeenFlow(facts, tags.revenue, day);
    var cost := SeenFlow(facts, tags.cost, day);
    var income := SeenFlow(facts, tags.income, day);
    var cash := SeenFlow(facts, tags.cash, day);
    var shares := SeenInstant(facts, tags.shares, Shares, day);
    factors := FactorsOf(View(assets, gross, revenue, cost, income, cash, shares));
  }

  predicate FactorsSettled(facts: Facts, tags: FactorTags, day: int) {
    && Settled(facts, tags.assets, Usd, day) && Settled(facts, tags.gross, Usd, day)
    && Settled(facts, tags.revenue, Usd, day)
    && Settled(facts, tags.cost, Usd, day) && Settled(facts, tags.income, Usd, day)
    && Settled(facts, tags.cash, Usd, day)
    && Settled(facts, tags.shares, Shares, day)
  }

  lemma VisibleOfCut(m: Vintages, day: int, cut: int)
    requires day <= cut
    ensures Visible(Cut(m, cut), day) == Visible(m, day)
  {
    hide KnownBy, Cut;
    forall end ensures KnownBy(Cut(m, cut), end, day) == KnownBy(m, end, day) { KnownByCut(m, end, day, cut); }
    forall end | KnownBy(m, end, day).Some? ensures end in Ends(m) && end in Ends(Cut(m, cut)) {
      KnownHasEnd(m, end, day);
      KnownHasEnd(Cut(m, cut), end, day);
    }
  }

  lemma KnownHasEnd(m: Vintages, end: int, day: int)
    requires KnownBy(m, end, day).Some?
    ensures end in Ends(m)
  {
    FiledByMeans(m, end, day, Greatest(FiledBy(m, end, day)));
    assert VintageKey(Greatest(FiledBy(m, end, day)), end)[1] == end;
  }

  lemma SeenRestrict(facts: Facts, tags: seq<Key>, kind: UnitKind, reading: Reading, day: int, cut: int)
    requires day <= cut && Settled(facts, tags, kind, cut)
    ensures Seen(Restrict(facts, cut), tags, kind, reading, day) == Seen(facts, tags, kind, reading, day)
  {
    hide PointsOf, VintagesOf, Visible, Settled, UpTo, Restrict, Cut;
    PointsRestrict(facts, tags, kind, cut);
    VintagesUpTo(reading, PointsOf(facts, tags, kind), cut);
    VisibleOfCut(VintagesOf(reading, PointsOf(facts, tags, kind)), day, cut);
  }

  lemma ViewRestrict(facts: Facts, tags: FactorTags, day: int, cut: int)
    requires day <= cut && FactorsSettled(facts, tags, cut)
    ensures ViewOf(Restrict(facts, cut), tags, day) == ViewOf(facts, tags, day)
  {
    hide Seen, Settled, Restrict;
    SeenRestrict(facts, tags.assets, Usd, Instant, day, cut);
    SeenRestrict(facts, tags.gross, Usd, Flow, day, cut);
    SeenRestrict(facts, tags.revenue, Usd, Flow, day, cut);
    SeenRestrict(facts, tags.cost, Usd, Flow, day, cut);
    SeenRestrict(facts, tags.income, Usd, Flow, day, cut);
    SeenRestrict(facts, tags.cash, Usd, Flow, day, cut);
    SeenRestrict(facts, tags.shares, Shares, Instant, day, cut);
  }

  /** No lookahead: two payloads that agree on what was filed by a day give the same factors for
      that day, whatever either holds that was filed later. */
  lemma FactorsIgnoreTheFuture(a: Facts, b: Facts, tags: FactorTags, day: int)
    requires Restrict(a, day) == Restrict(b, day)
    requires FactorsSettled(a, tags, day) && FactorsSettled(b, tags, day)
    ensures FactorsOf(ViewOf(a, tags, day)) == FactorsOf(ViewOf(b, tags, day))
  {
    hide ViewOf, FactorsOf, FactorsSettled, Restrict;
    ViewRestrict(a, tags, day, day);
    ViewRestrict(b, tags, day, day);
  }
}

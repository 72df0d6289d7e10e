/** The wrap-up of a backtest: end marks and per-stock profit against the headline, and the
    de-duplicated price series. */
module BacktestSummary {
  import opened KeyOrder
  import opened Options

  type Prices = map<Key, real>

  // ---- end marks ----

  function PriceOf(prices: Prices, sym: Key): Option<real> {
    if sym in prices then Some(prices[sym]) else None
  }

  /** A snapshot's stored price that can be read and is positive. */
  function Mark(stored: map<Key, Option<real>>, sym: Key): Option<real> {
    if sym in stored && stored[sym].Some? && stored[sym].value > 0.0 then stored[sym] else None
  }

  /** The last snapshot's marks, then the resolver's prices. */
  function EndPrice(resolver: Prices, stored: map<Key, Option<real>>, sym: Key): Option<real> {
    if Mark(stored, sym).Some? then Mark(stored, sym) else PriceOf(resolver, sym)
  }

  method ResolveEndPrices(resolver: Prices, stored: map<Key, Option<real>>) returns (out: Prices)
    ensures forall sym :: PriceOf(out, sym) == EndPrice(resolver, stored, sym)
  {
    out := resolver;
    var todo := stored.Keys;
    while todo != {}
      invariant todo <= stored.Keys
      invariant forall sym :: PriceOf(out, sym) == if sym in todo then PriceOf(resolver, sym)
                                                   else EndPrice(resolver, stored, sym)
      decreases |todo|
    {
      var sym :| sym in todo;
      todo := todo - {sym};
      var val := stored[sym];
      if val.Some? && val.value > 0.0 { out := out[sym := val.value]; }
    }
  }

  /** The end price is the last snapshot's mark when it can be read and is positive, else the resolver's
      price, if it has one. */
  lemma EndPriceExact(resolver: Prices, stored: map<Key, Option<real>>, sym: Key)
    ensures var marked := sym in stored && stored[sym].Some? && stored[sym].value > 0.0;
            && (marked ==> EndPrice(resolver, stored, sym) == stored[sym])
            && (!marked && sym in resolver ==> EndPrice(resolver, stored, sym) == Some(resolver[sym]))
            && (!marked && sym !in resolver ==> EndPrice(resolver, stored, sym) == None)
  {
  }

  // ---- per-stock profit ----

  datatype Side = Buy | Sell | Neither

  datatype Trade = Trade(ticker: Key, side: Side, total: real)

  function Bought(trades: seq<Trade>, sym: Key): real {
    if trades == [] then 0.0
    else
      var t := trades[|trades| - 1];
      Bought(trades[..|trades| - 1], sym) + if t.ticker == sym && t.side == Buy then t.total else 0.0
  }

  function Sold(trades: seq<Trade>, sym: Key): real {
    if trades == [] then 0.0
    else
      var t := trades[|trades| - 1];
      Sold(trades[..|trades| - 1], sym) + if t.ticker == sym && t.side == Sell then t.total else 0.0
  }

  /** What the trades did to the cash. */
  function CashFlow(trades: seq<Trade>): real {
    if trades == [] then 0.0
    else
      var t := trades[|trades| - 1];
      CashFlow(trades[..|trades| - 1]) + if t.side == Sell then t.total else if t.side == Buy then -t.total else 0.0
  }

  function Shares(positions: map<Key, real>, sym: Key): real {
    if sym in positions then positions[sym] else 0.0
  }

  function Worth(shares: real, price: Option<real>): real {
    if price.Some? then shares * price.value else 0.0
  }

  function Profit(trades: seq<Trade>, positions: map<Key, real>, ends: Prices, sym: Key): real {
    Sold(trades, sym) - Bought(trades, sym) + Worth(Shares(positions, sym), PriceOf(ends, sym))
  }

  /** Four decimals, ties to even. */
  function Round4(x: real): (r: real)
    ensures -0.00005 <= r - x <= 0.00005
  {
    var y := x * 10000.0;
    var f := y.Floor;
    var up := y - f as real > 0.5 || (y - f as real == 0.5 && f % 2 != 0);
    (if up then f + 1 else f) as real / 10000.0
  }

  function Percent(profit: real, bought: real): Option<real> {
    if bought == 0.0 then None else Some(Round4(profit / bought * 100.0))
  }

  /** The profit is what selling brought, less what buying cost, and what is held at its end price; a
      symbol without a position or a price adds nothing to that. */
  lemma ProfitExact(trades: seq<Trade>, positions: map<Key, real>, ends: Prices, sym: Key)
    ensures sym in positions && sym in ends ==>
              Profit(trades, positions, ends, sym)
                == Sold(trades, sym) - Bought(trades, sym) + positions[sym] * ends[sym]
    ensures sym !in positions || sym !in ends ==>
              Profit(trades, positions, ends, sym) == Sold(trades, sym) - Bought(trades, sym)
  {
  }

  /** Rounding gives the nearest value with four decimals, of two the even one. */
  lemma Round4Exact(x: real, n: int)
    ensures Round4(x) == n as real / 10000.0 <==>
            || -0.5 < x * 10000.0 - n as real < 0.5
            || (n % 2 == 0 && (x * 10000.0 - n as real == 0.5 || x * 10000.0 - n as real == -0.5))
  {
  }

  /** The percentage is the profit for a hundred units bought, within half a unit of the fourth
      decimal; nothing bought has none. */
  lemma PercentExact(profit: real, bought: real)
    ensures Percent(profit, bought).None? <==> bought == 0.0
    ensures bought != 0.0 ==> Percent(profit, bought) == Some(Round4(profit / bought * 100.0))
                              && -0.00005 <= Percent(profit, bought).value - profit * 100.0 / bought <= 0.00005
  {
    hide Round4;
    if bought != 0.0 {
      var q := profit / bought;
      assert q * bought == profit;
      assert (q * 100.0) * bought == profit * 100.0;
      assert profit * 100.0 / bought == q * 100.0;
    }
  }

  method ComputePerStockPnl(trades: seq<Trade>, positions: map<Key, real>, ends: Prices, traded: seq<Key>)
    returns (pnl: map<Key, real>, percent: map<Key, Option<real>>)
    ensures pnl == map sym | sym in traded :: Round4(Profit(trades, positions, ends, sym))
    ensures percent == map sym | sym in traded :: Percent(Profit(trades, positions, ends, sym), Bought(trades, sym))
  {
    hide Round4, Profit, Bought, Percent, Sold;
    pnl, percent := map[], map[];
    for i := 0 to |traded|
      invariant pnl == map sym | sym in traded[..i] :: Round4(Profit(trades, positions, ends, sym))
      invariant percent == map sym | sym in traded[..i] ::
                Percent(Profit(trades, positions, ends, sym), Bought(trades, sym))
    {
      var sym := traded[i];
      assert traded[..i + 1] == traded[..i] + [sym];
      var profit, buys := ProfitParts(trades, positions, ends, sym);
      pnl := pnl[sym := Round4(profit)];
      percent := percent[sym := Percent(profit, buys)];
    }
    assert traded[..|traded|] == traded;
  }

  method ProfitParts(trades: seq<Trade>, positions: map<Key, real>, ends: Prices, sym: Key)
    returns (profit: real, buys: real)
    ensures profit == Profit(trades, positions, ends, sym) && buys == Bought(trades, sym)
  {
    buys := 0.0;
    var sells := 0.0;
    for i := 0 to |trades|
      invariant buys == Bought(trades[..i], sym) && sells == Sold(trades[..i], sym)
    {
      assert trades[..i + 1][..i] == trades[..i];
      var t := trades[i];
      if t.ticker == sym && t.side == Buy { buys := buys + t.total; }
      if t.ticker == sym && t.side == Sell { sells := sells + t.total; }
    }
    assert trades[..|trades|] == trades;
    var shares := if sym in positions then positions[sym] else 0.0;
    var worth := if sym in ends then shares * ends[sym] else 0.0;
    profit := sells - buys + worth;
  }

  // ---- the sum over all symbols ----

  function Sum(f: Key -> real, syms: seq<Key>): real {
    if syms == [] then 0.0 else Sum(f, syms[..|syms| - 1]) + f(syms[|syms| - 1])
  }

  predicate NoRepeats(syms: seq<Key>) {
    forall i, j :: 0 <= i < j < |syms| ==> syms[i] != syms[j]
  }

  lemma {:induction false} SumPlus(f: Key -> real, g: Key -> real, h: Key -> real, syms: seq<Key>)
    requires forall sym :: sym in syms ==> h(sym) == f(sym) + g(sym)
    ensures Sum(h, syms) == Sum(f, syms) + Sum(g, syms)
    decreases |syms|
  {
    if syms != [] {
      assert syms[|syms| - 1] in syms;
      SumPlus(f, g, h, syms[..|syms| - 1]);
    }
  }

  /** An amount that belongs to one symbol is counted once. */
  lemma {:induction false} SumOfOne(f: Key -> real, sym: Key, amount: real, syms: seq<Key>)
    requires NoRepeats(syms)
    requires forall s :: s in syms ==> f(s) == if s == sym then amount else 0.0
    ensures Sum(f, syms) == if sym in syms then amount else 0.0
    decreases |syms|
  {
    if syms != [] {
      var front := syms[..|syms| - 1];
      assert syms == front + [syms[|syms| - 1]];
      assert forall i :: 0 <= i < |front| ==> front[i] != syms[|syms| - 1];
      SumOfOne(f, sym, amount, front);
    }
  }

  predicate Covers(syms: seq<Key>, trades: seq<Trade>) {
    forall i :: 0 <= i < |trades| ==> trades[i].side == Neither || trades[i].ticker in syms
  }

  function Realized(trades: seq<Trade>): Key -> real {
    sym => Sold(trades, sym) - Bought(trades, sym)
  }

  function Amount(t: Trade): real {
    if t.side == Sell then t.total else if t.side == Buy then -t.total else 0.0
  }

  lemma {:induction false} RealizedIsCashFlow(trades: seq<Trade>, syms: seq<Key>)
    requires NoRepeats(syms) && Covers(syms, trades)
    ensures Sum(Realized(trades), syms) == CashFlow(trades)
    decreases |trades|
  {
    if trades == [] {
      SumOfNothing(Realized(trades), syms);
    } else {
      var front, t := trades[..|trades| - 1], trades[|trades| - 1];
      assert forall i :: 0 <= i < |front| ==> front[i] == trades[i];
      RealizedIsCashFlow(front, syms);
      var one := sym => if sym == t.ticker then Amount(t) else 0.0;
      SumPlus(Realized(front), one, Realized(trades), syms);
      SumOfOne(one, t.ticker, Amount(t), syms);
    }
  }

  lemma {:induction false} SumOfNothing(f: Key -> real, syms: seq<Key>)
    requires forall s :: s in syms ==> f(s) == 0.0
    ensures Sum(f, syms) == 0.0
    decreases |syms|
  {
    if syms != [] {
      assert syms[|syms| - 1] in syms;
      SumOfNothing(f, syms[..|syms| - 1]);
    }
  }

  function Profits(trades: seq<Trade>, positions: map<Key, real>, ends: Prices): Key -> real {
    sym => Profit(trades, positions, ends, sym)
  }

  function Marked(positions: map<Key, real>, prices: Prices): Key -> real {
    sym => Worth(Shares(positions, sym), PriceOf(prices, sym))
  }

  /** The snapshot the equity curve ends on: cash and every position at the curve's own marks. */
  datatype Snapshot = Snapshot(value: real, cash: real, marks: Prices)

  /** The books balance: the cash is the initial cash and what the trades did, and the snapshot's
      value is the cash and the positions at its marks. */
  predicate Balanced(snapshot: Snapshot, trades: seq<Trade>, positions: map<Key, real>, initial: real, syms: seq<Key>) {
    && snapshot.cash == initial + CashFlow(trades)
    && snapshot.value == snapshot.cash + Sum(Marked(positions, snapshot.marks), syms)
  }

  /** On balanced books the per-stock profits differ from the headline by exactly what the
      positions are worth at the end prices rather than at the curve's marks. */
  lemma GapIsTheMarks(snapshot: Snapshot, trades: seq<Trade>, positions: map<Key, real>, ends: Prices, initial: real,
                      syms: seq<Key>)
    requires NoRepeats(syms) && Covers(syms, trades) && Balanced(snapshot, trades, positions, initial, syms)
    ensures Sum(Profits(trades, positions, ends), syms) - (snapshot.value - initial) ==
            Sum(Marked(positions, ends), syms) - Sum(Marked(positions, snapshot.marks), syms)
  {
    RealizedIsCashFlow(trades, syms);
    SumPlus(Realized(trades), Marked(positions, ends), Profits(trades, positions, ends), syms);
  }

  lemma {:induction false} SumSame(f: Key -> real, g: Key -> real, syms: seq<Key>)
    requires forall s :: s in syms ==> f(s) == g(s)
    ensures Sum(f, syms) == Sum(g, syms)
    decreases |syms|
  {
    if syms != [] {
      assert syms[|syms| - 1] in syms;
      SumSame(f, g, syms[..|syms| - 1]);
    }
  }

  lemma {:induction false} SumRounded(f: Key -> real, syms: seq<Key>)
    ensures Sum(f, syms) - |syms| as real * 0.00005 <= Sum(s => Round4(f(s)), syms) <= Sum(f, syms)
            + |syms| as real * 0.00005
    decreases |syms|
  {
    if syms != [] {
      SumRounded(f, syms[..|syms| - 1]);
    }
  }

  /** When every held symbol has a positive mark in the last snapshot, the reported per-stock
      profits add up to the headline, within half a unit of the fourth decimal for each symbol. */
  lemma PerStockReconciles(snapshot: Snapshot, stored: map<Key, Option<real>>, resolver: Prices, trades: seq<Trade>,
                           positions: map<Key, real>, ends: Prices, initial: real, syms: seq<Key>)
    requires NoRepeats(syms) && Covers(syms, trades) && Balanced(snapshot, trades, positions, initial, syms)
    requires forall sym :: PriceOf(ends, sym) == EndPrice(resolver, stored, sym)
    requires forall sym :: sym in syms && Shares(positions, sym) != 0.0 ==>
               Mark(stored, sym).Some? && PriceOf(snapshot.marks, sym) == Mark(stored, sym)
    ensures var total := Sum(s => Round4(Profits(trades, positions, ends)(s)), syms);
            var slack := |syms| as real * 0.00005;
            snapshot.value - initial - slack <= total <= snapshot.value - initial + slack
  {
    hide Round4, Profit;
    GapIsTheMarks(snapshot, trades, positions, ends, initial, syms);
    forall s | s in syms ensures Marked(positions, ends)(s) == Marked(positions, snapshot.marks)(s) {
      NothingHeld(positions, ends, snapshot.marks, s);
    }
    SumSame(Marked(positions, ends), Marked(positions, snapshot.marks), syms);
    SumRounded(Profits(trades, positions, ends), syms);
  }

  lemma NothingHeld(positions: map<Key, real>, a: Prices, b: Prices, sym: Key)
    requires Shares(positions, sym) != 0.0 ==> PriceOf(a, sym) == PriceOf(b, sym)
    ensures Marked(positions, a)(sym) == Marked(positions, b)(sym)
  {
  }

  // ---- the price series ----

  datatype Bar = Bar(ts: Key, date: Option<int>, close: Option<real>)

  datatype Seed = Seed(ts: Key, date: Option<int>, prices: map<Key, Option<real>>)

  datatype Window = Window(start: Option<int>, end: Option<int>)

  datatype Row = Row(ts: Key, sym: Key, close: real)

  /** A row with the date it stands for. */
  datatype Dated = Dated(date: int, row: Row)

  predicate Inside(w: Window, date: int) {
    (w.start.Some? ==> w.start.value <= date) && (w.end.Some? ==> date <= w.end.value)
  }

  function Slot(d: Dated): (int, Key) {
    (d.date, d.row.sym)
  }

  function Slots(rows: seq<Dated>): set<(int, Key)> {
    set d | d in rows :: Slot(d)
  }

  function RowsOf(rows: seq<Dated>): (r: seq<Row>)
    ensures |r| == |rows| && forall i :: 0 <= i < |r| ==> r[i] == rows[i].row
  {
    seq(|rows|, i requires 0 <= i < |rows| => rows[i].row)
  }

  /** The first of the offered rows for every slot not covered yet. */
  function Picked(offered: seq<Dated>, covered: set<(int, Key)>): seq<Dated> {
    if offered == [] then []
    else
      var front, last := offered[..|offered| - 1], offered[|offered| - 1];
      if Slot(last) in covered || Slot(last) in Slots(front) then Picked(front, covered)
      else Picked(front, covered) + [last]
  }

  lemma SlotsAdd(rows: seq<Dated>, d: Dated)
    ensures Slots(rows + [d]) == Slots(rows) + {Slot(d)}
  {
    assert forall x :: x in rows + [d] <==> x in rows || x == d;
  }

  /** At most one row for a date and symbol, none where there is a bar, one wherever a snapshot
      offers a price and there is no bar, and that one the earliest offered. */
  lemma {:induction false} PickedFillsTheGaps(offered: seq<Dated>, covered: set<(int, Key)>)
    ensures Slots(Picked(offered, covered)) == Slots(offered) - covered
    ensures forall i, j :: 0 <= i < j < |Picked(offered, covered)| ==>
              Slot(Picked(offered, covered)[i]) != Slot(Picked(offered, covered)[j])
    ensures forall d :: d in Picked(offered, covered) ==> Earliest(offered, d)
    decreases |offered|
  {
    hide Slots;
    if offered == [] {
      NoSlots();
    } else {
      var front, last := offered[..|offered| - 1], offered[|offered| - 1];
      assert offered == front + [last];
      PickedFillsTheGaps(front, covered);
      SlotsAdd(front, last);
      SlotsAdd(Picked(front, covered), last);
      forall d | d in Picked(offered, covered) ensures Earliest(offered, d) {
        EarliestGrows(front, last, d);
        if d == last && Slot(last) !in Slots(front) { EarliestNew(front, last); }
      }
      NewSlot(Picked(front, covered), last);
    }
  }

  lemma NoSlots()
    ensures Slots([]) == {}
  {
  }

  lemma NewSlot(rows: seq<Dated>, d: Dated)
    ensures Slot(d) !in Slots(rows) ==> forall i :: 0 <= i < |rows| ==> Slot(rows[i]) != Slot(d)
  {
    assert forall i :: 0 <= i < |rows| ==> Slot(rows[i]) in Slots(rows);
  }

  /** No row offered before it stands for the same date and symbol. */
  predicate Earliest(offered: seq<Dated>, d: Dated) {
    exists i :: 0 <= i < |offered| && offered[i] == d && Slot(d) !in Slots(offered[..i])
  }

  lemma EarliestGrows(front: seq<Dated>, last: Dated, d: Dated)
    ensures Earliest(front, d) ==> Earliest(front + [last], d)
  {
    hide Slots;
    if Earliest(front, d) {
      var i :| 0 <= i < |front| && front[i] == d && Slot(d) !in Slots(front[..i]);
      assert (front + [last])[..i] == front[..i] && (front + [last])[i] == d;
    }
  }

  lemma EarliestNew(front: seq<Dated>, last: Dated)
    requires Slot(last) !in Slots(front)
    ensures Earliest(front + [last], last)
  {
    assert (front + [last])[..|front|] == front && (front + [last])[|front|] == last;
  }

  function BarRow(bar: Bar, sym: Key, w: Window): seq<Dated> {
    if bar.close.None? || bar.date.None? || !Inside(w, bar.date.value) then []
    else [Dated(bar.date.value, Row(bar.ts, sym, bar.close.value))]
  }

  function BarRowsOf(bars: seq<Bar>, sym: Key, w: Window): seq<Dated> {
    if bars == [] then [] else BarRowsOf(bars[..|bars| - 1], sym, w) + BarRow(bars[|bars| - 1], sym, w)
  }

  function BarsOf(data: map<Key, seq<Bar>>, sym: Key): seq<Bar> {
    if sym in data then data[sym] else []
  }

  function BarRows(data: map<Key, seq<Bar>>, syms: seq<Key>, w: Window): seq<Dated> {
    if syms == [] then []
    else BarRows(data, syms[..|syms| - 1], w) + BarRowsOf(BarsOf(data, syms[|syms| - 1]), syms[|syms| - 1], w)
  }

  function Offer(seed: Seed, sym: Key, w: Window): seq<Dated> {
    if seed.date.None? || !Inside(w, seed.date.value) || Mark(seed.prices, sym).None? then []
    else [Dated(seed.date.value, Row(seed.ts, sym, Mark(seed.prices, sym).value))]
  }

  function SeedOffers(seed: Seed, syms: seq<Key>, w: Window): seq<Dated> {
    if syms == [] then [] else SeedOffers(seed, syms[..|syms| - 1], w) + Offer(seed, syms[|syms| - 1], w)
  }

  /** Every snapshot price, in snapshot order and then symbol order. */
  function Offers(seeds: seq<Seed>, syms: seq<Key>, w: Window): seq<Dated> {
    if seeds == [] then [] else Offers(seeds[..|seeds| - 1], syms, w) + SeedOffers(seeds[|seeds| - 1], syms, w)
  }

  const ANY_DATE := Window(None, None)

  // ---- the final sort ----

  /** By timestamp text, then symbol. */
  predicate Before(a: Row, b: Row) {
    Less(a.ts, b.ts) || (a.ts == b.ts && Less(a.sym, b.sym))
  }

  predicate InOrder(rows: seq<Row>) {
    forall i, j :: 0 <= i < j < |rows| ==> !Before(rows[j], rows[i])
  }

  predicate SameKey(a: Row, b: Row) {
    a.ts == b.ts && a.sym == b.sym
  }

  /** A row put behind the last row it does not come before. */
  function Insert(rows: seq<Row>, r: Row): seq<Row> {
    if rows == [] || !Before(r, rows[|rows| - 1]) then rows + [r]
    else Insert(rows[..|rows| - 1], r) + [rows[|rows| - 1]]
  }

  /** The stable sort of the rows. */
  function Sorted(rows: seq<Row>): seq<Row> {
    if rows == [] then [] else Insert(Sorted(rows[..|rows| - 1]), rows[|rows| - 1])
  }

  /** The rows with one timestamp and symbol, in order. */
  function With(rows: seq<Row>, key: Row): seq<Row> {
    if rows == [] then [] else With(rows[..|rows| - 1], key) + if SameKey(rows[|rows| - 1], key) then [rows[|rows| - 1]]
    else []
  }

  lemma BeforeIsStrict(a: Row, b: Row)
    ensures Before(a, b) ==> !Before(b, a) && !SameKey(a, b)
    ensures !Before(a, b) && !Before(b, a) ==> SameKey(a, b)
  {
    hide Less;
    LessTotal(a.ts, b.ts);
    LessTotal(a.sym, b.sym);
    LessIrreflexive(a.ts);
    LessIrreflexive(a.sym);
    if Less(a.ts, b.ts) { LessAsymmetric(a.ts, b.ts); }
    if Less(a.sym, b.sym) { LessAsymmetric(a.sym, b.sym); }
  }

  lemma NotAfterTransitive(a: Row, b: Row, c: Row)
    requires !Before(b, a) && !Before(c, b)
    ensures !Before(c, a)
  {
    hide Less;
    if Before(c, a) {
      BeforeIsStrict(a, b);
      BeforeIsStrict(b, c);
      BeforeIsStrict(a, c);
      if Before(a, b) { BeforeTransitive(c, a, b); BeforeIsStrict(b, c); }
    }
  }

  lemma BeforeTransitive(a: Row, b: Row, c: Row)
    requires Before(a, b) && Before(b, c)
    ensures Before(a, c)
  {
    hide Less;
    if Less(a.ts, b.ts) && Less(b.ts, c.ts) { LessTransitive(a.ts, b.ts, c.ts); }
    if Less(a.sym, b.sym) && Less(b.sym, c.sym) { LessTransitive(a.sym, b.sym, c.sym); }
  }

  lemma {:induction false} InsertKeepsOrder(rows: seq<Row>, r: Row)
    requires InOrder(rows)
    ensures InOrder(Insert(rows, r)) && multiset(Insert(rows, r)) == multiset(rows + [r])
    decreases |rows|
  {
    hide Before;
    if rows != [] {
      var front, last := rows[..|rows| - 1], rows[|rows| - 1];
      assert rows == front + [last];
      if Before(r, last) {
        InsertKeepsOrder(front, r);
        var inserted := Insert(front, r);
        forall i | 0 <= i < |inserted| ensures !Before(last, inserted[i]) {
          assert inserted[i] in multiset(inserted);
          BeforeIsStrict(r, last);
          if inserted[i] in front { var k :| 0 <= k < |front| && front[k] == inserted[i]; assert rows[k] == front[k]; }
        }
        AppendKeepsOrder(inserted, last);
      } else {
        forall i | 0 <= i < |rows| ensures !Before(r, rows[i]) {
          if i < |front| { NotAfterTransitive(rows[i], last, r); }
        }
        AppendKeepsOrder(rows, r);
      }
    } else {
      AppendKeepsOrder(rows, r);
    }
  }

  lemma AppendKeepsOrder(rows: seq<Row>, r: Row)
    requires InOrder(rows) && forall i :: 0 <= i < |rows| ==> !Before(r, rows[i])
    ensures InOrder(rows + [r])
  {
    hide Before;
  }

  lemma {:induction false} InsertIsStable(rows: seq<Row>, r: Row, key: Row)
    ensures With(Insert(rows, r), key) == With(rows + [r], key)
    decreases |rows|
  {
    hide Before, SameKey;
    assert (rows + [r])[..|rows|] == rows;
    if rows != [] && Before(r, rows[|rows| - 1]) {
      var front, last := rows[..|rows| - 1], rows[|rows| - 1];
      InsertIsStable(front, r, key);
      assert (front + [r])[..|front|] == front;
      var inserted := Insert(front, r);
      assert (inserted + [last])[..|inserted|] == inserted;
      BeforeIsStrict(r, last);
      DifferentKeys(r, last, key);
    }
  }

  lemma DifferentKeys(a: Row, b: Row, key: Row)
    requires !SameKey(a, b)
    ensures !SameKey(a, key) || !SameKey(b, key)
  {
  }

  /** The final series is in order, holds the same rows, and keeps rows of one timestamp and symbol
      in the order they were collected in. */
  lemma {:induction false} SortedIsStable(rows: seq<Row>)
    ensures InOrder(Sorted(rows)) && multiset(Sorted(rows)) == multiset(rows)
    ensures forall key :: With(Sorted(rows), key) == With(rows, key)
    decreases |rows|
  {
    hide Before, SameKey, Insert;
    if rows != [] {
      var front, last := rows[..|rows| - 1], rows[|rows| - 1];
      assert rows == front + [last];
      SortedIsStable(front);
      InsertKeepsOrder(Sorted(front), last);
      forall key ensures With(Sorted(rows), key) == With(rows, key) {
        InsertIsStable(Sorted(front), last, key);
        WithNext(Sorted(front), last, key);
        WithNext(front, last, key);
      }
    }
  }

  lemma WithNext(rows: seq<Row>, r: Row, key: Row)
    ensures With(rows + [r], key) == With(rows, key) + if SameKey(r, key) then [r] else []
  {
    assert (rows + [r])[..|rows|] == rows;
  }

  /** The series before its final sort: all bars, then the gaps filled from the snapshots; when
      nothing is in the window, every well-formed bar. */
  function Series(data: map<Key, seq<Bar>>, seeds: seq<Seed>, syms: seq<Key>, w: Window): seq<Row> {
    var bars := BarRows(data, syms, w);
    var rows := RowsOf(bars + Picked(Offers(seeds, syms, w), Slots(bars)));
    if rows == [] then RowsOf(BarRows(data, syms, ANY_DATE)) else rows
  }

  method CollectBars(data: map<Key, seq<Bar>>, syms: seq<Key>, w: Window)
    returns (rows: seq<Row>, seen: set<(int, Key)>)
    ensures rows == RowsOf(BarRows(data, syms, w)) && seen == Slots(BarRows(data, syms, w))
  {
    hide Slots, BarRowsOf, BarRow;
    rows, seen := [], {};
    NoSlots();
    for i := 0 to |syms|
      invariant rows == RowsOf(BarRows(data, syms[..i], w)) && seen == Slots(BarRows(data, syms[..i], w))
    {
      assert syms[..i + 1][..i] == syms[..i];
      var sym := syms[i];
      var bars := if sym in data then data[sym] else [];
      ghost var before := BarRows(data, syms[..i], w);
      assert bars[..0] == [] && before + [] == before;
      NoBars(sym, w);
      for j := 0 to |bars|
        invariant rows == RowsOf(before + BarRowsOf(bars[..j], sym, w))
                  && seen == Slots(before + BarRowsOf(bars[..j], sym, w))
      {
        ghost var sofar := before + BarRowsOf(bars[..j], sym, w);
        OneBar(before, bars, j, sym, w);
        var bar := bars[j];
        if bar.close.None? || bar.date.None? || !Inside(w, bar.date.value) { continue; }
        SlotsAdd(sofar, Dated(bar.date.value, Row(bar.ts, sym, bar.close.value)));
        rows := rows + [Row(bar.ts, sym, bar.close.value)];
        seen := seen + {(bar.date.value, sym)};
      }
      assert bars[..|bars|] == bars;
    }
    assert syms[..|syms|] == syms;
  }

  lemma NoBars(sym: Key, w: Window)
    ensures BarRowsOf([], sym, w) == []
  {
  }

  lemma OneBar(before: seq<Dated>, bars: seq<Bar>, j: nat, sym: Key, w: Window)
    requires j < |bars|
    ensures before + BarRowsOf(bars[..j + 1], sym, w) ==
            var sofar := before + BarRowsOf(bars[..j], sym, w);
            if bars[j].close.None? || bars[j].date.None? || !Inside(w, bars[j].date.value) then sofar
            else sofar + [Dated(bars[j].date.value, Row(bars[j].ts, sym, bars[j].close.value))]
  {
    assert bars[..j + 1][..j] == bars[..j];
  }

  method BuildBacktestPriceSeries(data: map<Key, seq<Bar>>, seeds: seq<Seed>, syms: seq<Key>, w: Window)
    returns (rows: seq<Row>)
    ensures rows == Sorted(Series(data, seeds, syms, w))
  {
    hide Sorted, Slots, BarRows, Picked, Offers, SeedOffers, Offer, RowsOf;
    var seen;
    rows, seen := CollectBars(data, syms, w);
    ghost var bars := BarRows(data, syms, w);
    ghost var offered: seq<Dated> := [];
    NothingPicked(bars);
    NoSeeds(syms, w);
    for i := 0 to |seeds|
      invariant offered == Offers(seeds[..i], syms, w)
      invariant Filled(bars, offered, rows, seen)
    {
      SeedsNext(seeds, syms, w, i);
      ghost var before := offered;
      var seed := seeds[i];
      NoSymbols(seed, syms, w);
      for j := 0 to |syms|
        invariant offered == before + SeedOffers(seed, syms[..j], w)
        invariant Filled(bars, offered, rows, seen)
      {
        SymbolsNext(seed, syms, w, j, before);
        var sym := syms[j];
        OfferMeans(seed, sym, w);
        ghost var was := offered;
        offered := offered + Offer(seed, sym, w);
        assert was + [] == was;
        if seed.date.None? || !Inside(w, seed.date.value) { continue; }
        var mark := Mark(seed.prices, sym);
        if mark.None? { continue; }
        OneOffer(bars, was, Offer(seed, sym, w)[0], rows, seen);
        if (seed.date.value, sym) in seen { continue; }
        seen := seen + {(seed.date.value, sym)};
        rows := rows + [Row(seed.ts, sym, mark.value)];
      }
      assert syms[..|syms|] == syms;
    }
    assert seeds[..|seeds|] == seeds;
    if rows == [] {
      var all, _ := CollectBars(data, syms, ANY_DATE);
      rows := all;
    }
    rows := Sorted(rows);
  }

  /** The rows and covered slots after some of the snapshot prices have been offered. */
  ghost predicate Filled(bars: seq<Dated>, offered: seq<Dated>, rows: seq<Row>, seen: set<(int, Key)>) {
    && rows == RowsOf(bars + Picked(offered, Slots(bars)))
    && seen == Slots(bars) + Slots(offered)
  }

  lemma NothingPicked(bars: seq<Dated>)
    ensures Filled(bars, [], RowsOf(bars), Slots(bars))
  {
    NoSlots();
    assert bars + [] == bars;
  }

  lemma NoSeeds(syms: seq<Key>, w: Window)
    ensures Offers([], syms, w) == []
  {
  }

  lemma NoSymbols(seed: Seed, syms: seq<Key>, w: Window)
    ensures SeedOffers(seed, syms[..0], w) == []
  {
  }

  lemma SeedsNext(seeds: seq<Seed>, syms: seq<Key>, w: Window, i: nat)
    requires i < |seeds|
    ensures Offers(seeds[..i + 1], syms, w) == Offers(seeds[..i], syms, w) + SeedOffers(seeds[i], syms, w)
  {
    assert seeds[..i + 1][..i] == seeds[..i];
  }

  lemma SymbolsNext(seed: Seed, syms: seq<Key>, w: Window, j: nat, before: seq<Dated>)
    requires j < |syms|
    ensures before + SeedOffers(seed, syms[..j + 1], w)
            == before + SeedOffers(seed, syms[..j], w) + Offer(seed, syms[j], w)
  {
    assert syms[..j + 1][..j] == syms[..j];
  }

  lemma OfferMeans(seed: Seed, sym: Key, w: Window)
    ensures Offer(seed, sym, w) ==
            if seed.date.None? || !Inside(w, seed.date.value) || Mark(seed.prices, sym).None? then []
            else [Dated(seed.date.value, Row(seed.ts, sym, Mark(seed.prices, sym).value))]
  {
  }

  lemma OneOffer(bars: seq<Dated>, offered: seq<Dated>, d: Dated, rows: seq<Row>, seen: set<(int, Key)>)
    requires Filled(bars, offered, rows, seen)
    ensures if Slot(d) in seen then Filled(bars, offered + [d], rows, seen)
            else Filled(bars, offered + [d], rows + [d.row], seen + {Slot(d)})
  {
    hide Slots, RowsOf;
    var more := offered + [d];
    assert more[..|more| - 1] == offered;
    SlotsAdd(offered, d);
    if Slot(d) !in seen {
      var picked := bars + Picked(offered, Slots(bars));
      assert bars + Picked(more, Slots(bars)) == picked + [d];
      RowsNext(picked, d);
    }
  }

  lemma RowsNext(rows: seq<Dated>, d: Dated)
    ensures RowsOf(rows + [d]) == RowsOf(rows) + [d.row]
  {
  }

  /** A date in the window, ends included. */
  predicate Dates(w: Window, date: int) {
    !(w.start.Some? && date < w.start.value) && !(w.end.Some? && w.end.value < date)
  }

  /** The bar rows are exactly the closes of the symbols' bars dated in the window. */
  lemma {:induction false} BarRowsExact(data: map<Key, seq<Bar>>, syms: seq<Key>, w: Window, d: Dated)
    ensures d in BarRows(data, syms, w) <==>
            d.row.sym in syms && Dates(w, d.date) && d.row.sym in data
            && Bar(d.row.ts, Some(d.date), Some(d.row.close)) in data[d.row.sym]
    decreases |syms|
  {
    if syms != [] {
      var front, last := syms[..|syms| - 1], syms[|syms| - 1];
      assert syms == front + [last];
      BarRowsExact(data, front, w, d);
      BarsOfExact(BarsOf(data, last), last, w, d);
    }
  }

  lemma {:induction false} BarsOfExact(bars: seq<Bar>, sym: Key, w: Window, d: Dated)
    ensures d in BarRowsOf(bars, sym, w) <==>
            d.row.sym == sym && Dates(w, d.date) && Bar(d.row.ts, Some(d.date), Some(d.row.close)) in bars
    decreases |bars|
  {
    if bars != [] {
      var front, last := bars[..|bars| - 1], bars[|bars| - 1];
      assert bars == front + [last];
      BarsOfExact(front, sym, w, d);
      assert d == Dated(d.date, Row(d.row.ts, d.row.sym, d.row.close));
    }
  }

  /** A snapshot offers a price of a symbol asked for that can be read and is positive. */
  predicate SeedHas(seed: Seed, d: Dated) {
    && seed.date == Some(d.date) && seed.ts == d.row.ts
    && d.row.sym in seed.prices && seed.prices[d.row.sym] == Some(d.row.close) && d.row.close > 0.0
  }

  /** The snapshot offers are exactly those dated in the window. */
  lemma {:induction false} OffersExact(seeds: seq<Seed>, syms: seq<Key>, w: Window, d: Dated)
    ensures d in Offers(seeds, syms, w) <==>
            d.row.sym in syms && Dates(w, d.date) && exists i :: 0 <= i < |seeds| && SeedHas(seeds[i], d)
    decreases |seeds|
  {
    if seeds != [] {
      var front, last := seeds[..|seeds| - 1], seeds[|seeds| - 1];
      OffersExact(front, syms, w, d);
      SeedOffersExact(last, syms, w, d);
      assert forall i :: 0 <= i < |front| ==> front[i] == seeds[i];
      if SeedHas(last, d) { assert SeedHas(seeds[|front|], d); }
    }
  }

  lemma {:induction false} SeedOffersExact(seed: Seed, syms: seq<Key>, w: Window, d: Dated)
    ensures d in SeedOffers(seed, syms, w) <==> d.row.sym in syms && Dates(w, d.date) && SeedHas(seed, d)
    decreases |syms|
  {
    if syms != [] {
      var front, last := syms[..|syms| - 1], syms[|syms| - 1];
      assert syms == front + [last];
      SeedOffersExact(seed, front, w, d);
      assert d == Dated(d.date, Row(d.row.ts, d.row.sym, d.row.close));
    }
  }

  /** The rows of the series: all bars in the window with the snapshot offers for dates and symbols
      without one, or, when there is neither, every bar with a date and a close. */
  lemma SeriesExact(data: map<Key, seq<Bar>>, seeds: seq<Seed>, syms: seq<Key>, w: Window)
    ensures var bars, offers := BarRows(data, syms, w), Offers(seeds, syms, w);
            var added := Picked(offers, Slots(bars));
            Series(data, seeds, syms, w) ==
            if bars == [] && offers == [] then RowsOf(BarRows(data, syms, Window(None, None))) else RowsOf(bars + added)
  {
    hide Slots, BarRows, Offers;
    var bars, offers := BarRows(data, syms, w), Offers(seeds, syms, w);
    PickedFillsTheGaps(offers, Slots(bars));
    if bars == [] && offers != [] {
      assert offers[0] in offers;
      SlotOf(offers, offers[0]);
      NoSlots();
      SlotsOfNone(Picked(offers, Slots(bars)));
      assert Slot(offers[0]) in Slots(Picked(offers, Slots(bars)));
    }
    var added := Picked(offers, Slots(bars));
    assert offers == [] ==> added == [];
    assert bars == [] && offers != [] ==> added != [];
    assert |bars + added| == |bars| + |added|;
    assert RowsOf(bars + added) == [] <==> bars + added == [];
  }

  lemma SlotOf(rows: seq<Dated>, d: Dated)
    requires d in rows
    ensures Slot(d) in Slots(rows)
  {
  }

  lemma SlotsOfNone(rows: seq<Dated>)
    ensures rows == [] ==> Slots(rows) == {}
  {
  }

  /** A snapshot never adds a second close for a date: the rows it adds stand for slots without a
      bar, each slot once. */
  lemma SnapshotRowsAreNew(data: map<Key, seq<Bar>>, seeds: seq<Seed>, syms: seq<Key>, w: Window)
    ensures var bars := BarRows(data, syms, w);
            var added := Picked(Offers(seeds, syms, w), Slots(bars));
            && Slots(added) !! Slots(bars)
            && Slots(added) + Slots(bars) == Slots(Offers(seeds, syms, w)) + Slots(bars)
            && (forall i, j :: 0 <= i < j < |added| ==> Slot(added[i]) != Slot(added[j]))
            && (bars + added != [] ==> Series(data, seeds, syms, w) == RowsOf(bars) + RowsOf(added))
  {
    hide Slots, BarRows, Picked, Offers;
    var bars := BarRows(data, syms, w);
    PickedFillsTheGaps(Offers(seeds, syms, w), Slots(bars));
  }
}

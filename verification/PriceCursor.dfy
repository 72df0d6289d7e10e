/** The monotonic cursor caches: price history up to the clock, and the latest close, both found
    by moving a per-symbol cursor instead of scanning every list again. */
module PriceCursor {
  import opened Options

  type Symbol = string

  /** A bar as the injected resolvers see it: its parsed label, the instant its values become
      observable, and its close, each absent when it cannot be read. */
  datatype Bar = Bar(stamp: Option<int>, available: Option<int>, close: Option<real>, content: string)

  // ---- what a full scan would return ----

  predicate Wellformed(bar: Bar) {
    bar.stamp.Some? && bar.available.Some?
  }

  function Clean(bars: seq<Bar>): (clean: seq<Bar>)
    ensures |clean| <= |bars|
    ensures forall i :: 0 <= i < |clean| ==> Wellformed(clean[i])
  {
    if bars == [] then []
    else Clean(bars[..|bars| - 1]) + if Wellformed(bars[|bars| - 1]) then [bars[|bars| - 1]] else []
  }

  predicate AvailableBy(bar: Bar, now: int) {
    bar.available.Some? && bar.available.value <= now
  }

  /** The longest prefix whose bars are all available. */
  function PrefixBy(clean: seq<Bar>, now: int): (prefix: seq<Bar>)
    ensures prefix <= clean
  {
    if clean == [] || !AvailableBy(clean[0], now) then [] else
      assert clean == [clean[0]] + clean[1..];
      [clean[0]] + PrefixBy(clean[1..], now)
  }

  /** The well-formed bars available by now, up to the first that is not. */
  function Visible(bars: seq<Bar>, now: int): seq<Bar> {
    PrefixBy(Clean(bars), now)
  }

  /** The bars kept are those with a readable label and a known availability, in their order. */
  lemma {:induction false} CleanExact(bars: seq<Bar>, bar: Bar)
    ensures bar in Clean(bars) <==> bar in bars && bar.stamp.Some? && bar.available.Some?
    decreases |bars|
  {
    if bars != [] {
      assert bars == bars[..|bars| - 1] + [bars[|bars| - 1]];
      CleanExact(bars[..|bars| - 1], bar);
    }
  }

  /** What a scan shows: of the bars kept, all up to the first that becomes known after the clock. */
  lemma VisibleExact(bars: seq<Bar>, now: int)
    ensures var clean, seen := Clean(bars), Visible(bars, now);
            && seen == clean[..|seen|]
            && (forall i :: 0 <= i < |seen| ==> seen[i].available.Some? && seen[i].available.value <= now)
            && (|seen| < |clean| ==> clean[|seen|].available.Some? && now < clean[|seen|].available.value)
  {
    PrefixExact(Clean(bars), now);
  }

  lemma {:induction false} PrefixExact(clean: seq<Bar>, now: int)
    ensures var seen := PrefixBy(clean, now);
            && |seen| <= |clean| && seen == clean[..|seen|]
            && (forall i :: 0 <= i < |seen| ==> seen[i].available.Some? && seen[i].available.value <= now)
            && (|seen| < |clean| ==> clean[|seen|].available.None? || now < clean[|seen|].available.value)
    decreases |clean|
  {
    if clean != [] && AvailableBy(clean[0], now) {
      PrefixExact(clean[1..], now);
      var rest := PrefixBy(clean[1..], now);
      assert PrefixBy(clean, now) == [clean[0]] + rest;
      assert |rest| < |clean[1..]| ==> clean[1..][|rest|] == clean[|rest| + 1];
    }
  }

  lemma {:induction false} CleanAppend(a: seq<Bar>, b: seq<Bar>)
    ensures Clean(a + b) == Clean(a) + Clean(b)
    decreases |b|
  {
    if b == [] {
      assert a + b == a;
    } else {
      assert (a + b)[..|a + b| - 1] == a + b[..|b| - 1];
      CleanAppend(a, b[..|b| - 1]);
    }
  }

  /** A cut point with only available bars before it and none right at it is the prefix. */
  lemma {:induction false} PrefixAt(clean: seq<Bar>, now: int, n: nat)
    requires n <= |clean|
    requires forall i :: 0 <= i < n ==> AvailableBy(clean[i], now)
    requires n < |clean| ==> !AvailableBy(clean[n], now)
    ensures PrefixBy(clean, now) == clean[..n]
    decreases n
  {
    if n > 0 {
      assert AvailableBy(clean[0], now);
      forall i | 0 <= i < n - 1 ensures AvailableBy(clean[1..][i], now) { assert clean[1..][i] == clean[i + 1]; }
      PrefixAt(clean[1..], now, n - 1);
      assert clean[..n] == [clean[0]] + clean[1..][..n - 1];
    }
  }

  function Filter(clean: seq<Bar>, now: int): seq<Bar> {
    if clean == [] then []
    else (if AvailableBy(clean[0], now) then [clean[0]] else []) + Filter(clean[1..], now)
  }

  predicate AvailabilitySorted(clean: seq<Bar>) {
    forall i, j :: 0 <= i < j < |clean| ==> InOrder(clean[i], clean[j])
  }

  predicate InOrder(a: Bar, b: Bar) {
    a.available.Some? && b.available.Some? && a.available.value <= b.available.value
  }

  /** When availability never goes back, stopping at the first unavailable bar loses nothing. */
  lemma {:induction false} VisibleIsFilter(clean: seq<Bar>, now: int)
    requires AvailabilitySorted(clean)
    ensures PrefixBy(clean, now) == Filter(clean, now)
    decreases |clean|
  {
    hide Filter, PrefixBy;
    if clean == [] {
      FilterStep(clean, now);
    } else {
      var rest := clean[1..];
      SortedTail(clean);
      VisibleIsFilter(rest, now);
      FilterStep(clean, now);
      if !AvailableBy(clean[0], now) {
        forall i | 0 <= i < |rest| ensures !AvailableBy(rest[i], now) { assert rest[i] == clean[i + 1]; }
        NoneAvailable(rest, now);
      }
    }
  }

  lemma SortedTail(clean: seq<Bar>)
    requires AvailabilitySorted(clean) && clean != []
    ensures AvailabilitySorted(clean[1..])
  {
    var rest := clean[1..];
    forall i, j | 0 <= i < j < |rest| ensures InOrder(rest[i], rest[j]) {
      assert rest[i] == clean[i + 1] && rest[j] == clean[j + 1];
    }
  }

  lemma FilterStep(clean: seq<Bar>, now: int)
    ensures clean == [] ==> PrefixBy(clean, now) == Filter(clean, now) == []
    ensures clean != [] ==>
              && PrefixBy(clean, now)
                 == (if AvailableBy(clean[0], now) then [clean[0]] + PrefixBy(clean[1..], now) else [])
              && Filter(clean, now) == (if AvailableBy(clean[0], now) then [clean[0]] else []) + Filter(clean[1..], now)
  {
  }

  lemma {:induction false} NoneAvailable(clean: seq<Bar>, now: int)
    requires forall i :: 0 <= i < |clean| ==> !AvailableBy(clean[i], now)
    ensures Filter(clean, now) == []
    decreases |clean|
  {
    if clean != [] { NoneAvailable(clean[1..], now); }
  }

  // ---- the cache ----

  datatype Parsed = Parsed(entries: seq<Bar>, srcLen: nat)

  /** Iterations of the parsing and of the advancing loop so far, for one symbol. */
  datatype Work = Work(parsed: nat, advanced: nat)

  function BarsOf(data: map<Symbol, seq<Bar>>, sym: Symbol): seq<Bar> {
    if sym in data then data[sym] else []
  }

  /** The list the cache goes on, having gone on `held` when it is shown `bars`: only the length
      is compared. */
  function Merged(held: seq<Bar>, bars: seq<Bar>): (list: seq<Bar>)
    ensures list == bars <==> held <= bars || |bars| < |held|
    ensures |list| == |bars|
  {
    if |held| < |bars| then
      assert held + bars[|held|..] == bars <==> held <= bars by {
        assert held + bars[|held|..] == bars ==> (held + bars[|held|..])[..|held|] == held;
        assert held <= bars ==> held + bars[|held|..] == bars;
      }
      held + bars[|held|..]
    else if |held| > |bars| then bars
    else held
  }

  /** Some clock at which every well-formed bar is available. */
  function LastAvailable(clean: seq<Bar>): int {
    if clean == [] then 0
    else
      var rest, bar := LastAvailable(clean[..|clean| - 1]), clean[|clean| - 1];
      if bar.available.Some? && bar.available.value > rest then bar.available.value else rest
  }

  lemma {:induction false} AllAvailable(clean: seq<Bar>, now: int)
    requires LastAvailable(clean) <= now && forall i :: 0 <= i < |clean| ==> Wellformed(clean[i])
    ensures forall i :: 0 <= i < |clean| ==> AvailableBy(clean[i], now)
    decreases |clean|
  {
    if clean != [] { AllAvailable(clean[..|clean| - 1], now); }
  }

  lemma SeesAll(bars: seq<Bar>, now: int)
    requires LastAvailable(Clean(bars)) <= now
    ensures Visible(bars, now) == Clean(bars)
  {
    hide PrefixBy, LastAvailable;
    AllAvailable(Clean(bars), now);
    PrefixAt(Clean(bars), now, |Clean(bars)|);
  }

  /** Every answer is that of the current list exactly when the list became shorter or the part
      parsed earlier still holds the same well-formed bars. */
  lemma AnswersAreCurrent(held: seq<Bar>, bars: seq<Bar>)
    ensures (forall now :: Visible(Merged(held, bars), now) == Visible(bars, now))
            <==> |bars| < |held| || Clean(held) == Clean(bars[..|held|])
  {
    hide Clean, Visible, Merged;
    SameAnswers(Merged(held, bars), bars);
    MergedClean(held, bars);
  }

  lemma SameAnswers(a: seq<Bar>, b: seq<Bar>)
    ensures (forall now :: Visible(a, now) == Visible(b, now)) <==> Clean(a) == Clean(b)
  {
    hide Clean, Visible, LastAvailable;
    var x, y := LastAvailable(Clean(a)), LastAvailable(Clean(b));
    var top := if x <= y then y else x;
    SeesAll(a, top);
    SeesAll(b, top);
    if Clean(a) == Clean(b) {
      forall now ensures Visible(a, now) == Visible(b, now) { SameClean(a, b, now); }
    } else {
      assert Visible(a, top) != Visible(b, top);
    }
  }

  lemma MergedClean(held: seq<Bar>, bars: seq<Bar>)
    ensures Clean(Merged(held, bars)) == Clean(bars) <==> |bars| < |held| || Clean(held) == Clean(bars[..|held|])
  {
    hide Clean;
    if |held| <= |bars| {
      var more := bars[|held|..];
      assert Merged(held, bars) == held + more by { if more == [] { assert held + more == held; } }
      assert bars == bars[..|held|] + more;
      CleanAppend(held, more);
      CleanAppend(bars[..|held|], more);
      SameFront(Clean(held), Clean(bars[..|held|]), Clean(more));
    }
  }

  lemma SameClean(a: seq<Bar>, b: seq<Bar>, now: int)
    requires Clean(a) == Clean(b)
    ensures Visible(a, now) == Visible(b, now)
  {
  }

  lemma SameFront(a: seq<Bar>, b: seq<Bar>, c: seq<Bar>)
    ensures a + c == b + c <==> a == b
  {
    if a + c == b + c { assert (a + c)[..|a|] == a && (b + c)[..|a|] == b; }
  }

  function Held(held: map<Symbol, seq<Bar>>, sym: Symbol): seq<Bar> {
    if sym in held then held[sym] else []
  }

  /** Whether a call looks at the symbol's cache entry: one of the two callers answers an empty
      list without touching it. */
  predicate Touches(data: map<Symbol, seq<Bar>>, symbols: seq<Symbol>, skipEmpty: bool, sym: Symbol) {
    sym in symbols && !(skipEmpty && BarsOf(data, sym) == [])
  }

  function Going(held: map<Symbol, seq<Bar>>, data: map<Symbol, seq<Bar>>, touched: bool, sym: Symbol): seq<Bar> {
    if touched then Merged(Held(held, sym), BarsOf(data, sym)) else Held(held, sym)
  }

  function HeldAfter(held: map<Symbol, seq<Bar>>, data: map<Symbol, seq<Bar>>, symbols: seq<Symbol>, skipEmpty: bool)
    : map<Symbol, seq<Bar>>
  {
    map sym | sym in held.Keys + (set s | s in symbols && Touches(data, symbols, skipEmpty, s)) ::
      Going(held, data, Touches(data, symbols, skipEmpty, sym), sym)
  }

  lemma TouchesNext(data: map<Symbol, seq<Bar>>, symbols: seq<Symbol>, skipEmpty: bool, i: nat, sym: Symbol)
    requires i < |symbols|
    ensures Touches(data, symbols[..i + 1], skipEmpty, sym) <==>
            Touches(data, symbols[..i], skipEmpty, sym)
              || (sym == symbols[i] && !(skipEmpty && BarsOf(data, sym) == []))
    ensures Touches(data, symbols[..i], skipEmpty, sym) ==> sym in symbols[..i]
    ensures Touches(data, symbols[..i + 1], skipEmpty, sym) ==> sym in symbols[..i + 1]
  {
    assert symbols[..i + 1] == symbols[..i] + [symbols[i]];
  }

  lemma HeldAfterNext(held: map<Symbol, seq<Bar>>, data: map<Symbol, seq<Bar>>, symbols: seq<Symbol>, skipEmpty: bool,
                      i: nat)
    requires i < |symbols|
    ensures var sofar := HeldAfter(held, data, symbols[..i], skipEmpty);
            HeldAfter(held, data, symbols[..i + 1], skipEmpty) ==
            if skipEmpty && BarsOf(data, symbols[i]) == [] then sofar
            else sofar[symbols[i] := Merged(Held(sofar, symbols[i]), BarsOf(data, symbols[i]))]
  {
    hide Clean, PrefixBy, Merged, Touches, Going, BarsOf;
    var next := HeldAfter(held, data, symbols[..i + 1], skipEmpty);
    var sofar := HeldAfter(held, data, symbols[..i], skipEmpty);
    forall sym ensures TouchedAs(held, data, symbols, skipEmpty, i, sym) {
      TouchesNext(data, symbols, skipEmpty, i, sym);
    }
    if skipEmpty && BarsOf(data, symbols[i]) == [] {
      forall sym ensures sym in next <==> sym in sofar { assert TouchedAs(held, data, symbols, skipEmpty, i, sym); }
      forall sym | sym in next
        ensures next[sym] == sofar[sym]
      {
        assert TouchedAs(held, data, symbols, skipEmpty, i, sym);
      }
    } else {
      HeldIsMerged(held, data, symbols[..i], skipEmpty, symbols[i]);
      GoingTouched(held, data, symbols[i]);
      var want := sofar[symbols[i] := Merged(Held(sofar, symbols[i]), BarsOf(data, symbols[i]))];
      forall sym ensures sym in next <==> sym in want { assert TouchedAs(held, data, symbols, skipEmpty, i, sym); }
      forall sym | sym in next
        ensures next[sym] == want[sym]
      {
        assert TouchedAs(held, data, symbols, skipEmpty, i, sym);
      }
      assert next == want;
    }
  }

  predicate TouchedAs(held: map<Symbol, seq<Bar>>, data: map<Symbol, seq<Bar>>, symbols: seq<Symbol>, skipEmpty: bool,
                      i: nat, sym: Symbol)
    requires i < |symbols|
  {
    && (Touches(data, symbols[..i + 1], skipEmpty, sym) <==>
        Touches(data, symbols[..i], skipEmpty, sym) || (sym == symbols[i] && !(skipEmpty && BarsOf(data, sym) == [])))
    && (Touches(data, symbols[..i], skipEmpty, sym) ==> sym in symbols[..i])
    && (Touches(data, symbols[..i + 1], skipEmpty, sym) ==> sym in symbols[..i + 1])
  }

  lemma GoingTouched(held: map<Symbol, seq<Bar>>, data: map<Symbol, seq<Bar>>, sym: Symbol)
    ensures Going(held, data, true, sym) == Merged(Held(held, sym), BarsOf(data, sym))
  {
  }

  /** The merged list of a symbol is the same whether it is looked at once or twice in a call. */
  lemma HeldIsMerged(held: map<Symbol, seq<Bar>>, data: map<Symbol, seq<Bar>>, symbols: seq<Symbol>, skipEmpty: bool,
                     sym: Symbol)
    requires !(skipEmpty && BarsOf(data, sym) == [])
    ensures Merged(Held(HeldAfter(held, data, symbols, skipEmpty), sym), BarsOf(data, sym))
            == Merged(Held(held, sym), BarsOf(data, sym))
  {
    hide Clean, PrefixBy;
  }

  function HistoryAnswer(held: map<Symbol, seq<Bar>>, data: map<Symbol, seq<Bar>>, sym: Symbol,
                         clock: Option<int>): seq<Bar> {
    if clock.None? || BarsOf(data, sym) == [] then []
    else Visible(Merged(Held(held, sym), BarsOf(data, sym)), clock.value)
  }

  function History(held: map<Symbol, seq<Bar>>, data: map<Symbol, seq<Bar>>, symbols: seq<Symbol>, clock: Option<int>)
    : map<Symbol, seq<Bar>>
  {
    map sym | sym in symbols :: HistoryAnswer(held, data, sym, clock)
  }

  lemma HistoryNext(held: map<Symbol, seq<Bar>>, data: map<Symbol, seq<Bar>>, symbols: seq<Symbol>, clock: Option<int>,
                    i: nat)
    requires i < |symbols|
    ensures History(held, data, symbols[..i + 1], clock) ==
            History(held, data, symbols[..i], clock)[symbols[i] := HistoryAnswer(held, data, symbols[i], clock)]
  {
    hide HistoryAnswer;
    assert symbols[..i + 1] == symbols[..i] + [symbols[i]];
  }

  /** A list that grew at its end, shrank, or is empty now is answered by a full scan of it. */
  lemma HistoryIsFullScan(held: map<Symbol, seq<Bar>>, data: map<Symbol, seq<Bar>>, symbols: seq<Symbol>, now: int)
    requires forall sym :: sym in symbols ==>
               BarsOf(data, sym) == [] || Held(held, sym) <= BarsOf(data, sym)
                 || |BarsOf(data, sym)| < |Held(held, sym)|
    ensures History(held, data, symbols, Some(now)) == map sym | sym in symbols :: Visible(BarsOf(data, sym), now)
  {
    hide Visible, PrefixBy, Clean;
    assert Visible([], now) == [] by { VisibleOfNothing(now); }
  }

  /** The price of a symbol: the close of its last visible bar, when that can be read. */
  function PriceAnswer(held: map<Symbol, seq<Bar>>, data: map<Symbol, seq<Bar>>, sym: Symbol, now: int): Option<real> {
    LastClose(Visible(Merged(Held(held, sym), BarsOf(data, sym)), now))
  }

  function LastClose(visible: seq<Bar>): Option<real> {
    if visible == [] then None else visible[|visible| - 1].close
  }

  function Prices(held: map<Symbol, seq<Bar>>, data: map<Symbol, seq<Bar>>, symbols: seq<Symbol>,
                  now: int): map<Symbol, real> {
    map sym | sym in symbols && PriceAnswer(held, data, sym, now).Some? :: PriceAnswer(held, data, sym, now).value
  }

  lemma PricesNext(held: map<Symbol, seq<Bar>>, data: map<Symbol, seq<Bar>>, symbols: seq<Symbol>, now: int, i: nat)
    requires i < |symbols|
    ensures var sofar, price := Prices(held, data, symbols[..i], now), PriceAnswer(held, data, symbols[i], now);
            Prices(held, data, symbols[..i + 1], now) == if price.Some? then sofar[symbols[i] := price.value] else sofar
  {
    hide PriceAnswer;
    assert symbols[..i + 1] == symbols[..i] + [symbols[i]];
  }

  /** The price is that of the last bar of the history, and there is one exactly when the history
      has a last bar whose close can be read. */
  lemma PriceIsLastOfHistory(held: map<Symbol, seq<Bar>>, data: map<Symbol, seq<Bar>>, symbols: seq<Symbol>, now: int,
                             sym: Symbol)
    requires sym in symbols
    ensures var h, prices := History(held, data, symbols, Some(now))[sym], Prices(held, data, symbols, now);
            && (sym in prices <==> h != [] && h[|h| - 1].close.Some?)
            && (sym in prices ==> h[|h| - 1].close == Some(prices[sym]))
  {
    hide Visible, PrefixBy, Clean;
    if BarsOf(data, sym) == [] {
      assert Merged(Held(held, sym), []) == [];
      VisibleOfNothing(now);
    }
  }

  lemma VisibleOfNothing(now: int)
    ensures Visible([], now) == []
  {
  }

  // ---- what the cache keeps true, one symbol at a time ----

  function At(cursors: map<Symbol, nat>, sym: Symbol): Option<nat> {
    if sym in cursors then Some(cursors[sym]) else None
  }

  predicate PassedBy(entries: seq<Bar>, cursor: nat, now: int) {
    cursor <= |entries| && forall i :: 0 <= i < cursor ==> AvailableBy(entries[i], now)
  }

  /** The view is the parsed form of the list gone on, and all before the cursor was available at
      the last clock. */
  predicate Fits(view: Parsed, cursor: Option<nat>, held: seq<Bar>, last: Option<int>) {
    && view == Parsed(Clean(held), |held|)
    && (cursor.Some? ==> last.Some? && PassedBy(view.entries, cursor.value, last.value))
  }

  /** No bar has been parsed, or passed by the cursor, more than once. */
  predicate Once(cursor: Option<nat>, held: seq<Bar>, work: Work) {
    && work.parsed == |held|
    && work.advanced == if cursor.Some? then cursor.value else 0
  }

  predicate Consistent(filtered: map<Symbol, Parsed>, cursors: map<Symbol, nat>, last: Option<int>,
                       held: map<Symbol, seq<Bar>>, work: map<Symbol, Work>)
  {
    && filtered.Keys == held.Keys && work.Keys == held.Keys && cursors.Keys <= held.Keys
    && forall sym :: sym in held ==> Fits(filtered[sym], At(cursors, sym), held[sym], last)
  }

  predicate EachOnce(cursors: map<Symbol, nat>, held: map<Symbol, seq<Bar>>, work: map<Symbol, Work>)
    requires work.Keys == held.Keys
  {
    forall sym :: sym in held ==> Once(At(cursors, sym), held[sym], work[sym])
  }

  lemma ConsistentUpdate(filtered: map<Symbol, Parsed>, cursors: map<Symbol, nat>, last: Option<int>,
                         held: map<Symbol, seq<Bar>>, work: map<Symbol, Work>,
                         sym: Symbol, view: Parsed, cursor: nat, list: seq<Bar>, done: Work)
    requires Consistent(filtered, cursors, last, held, work)
    requires Fits(view, Some(cursor), list, last)
    ensures Consistent(filtered[sym := view], cursors[sym := cursor], last, held[sym := list], work[sym := done])
    ensures EachOnce(cursors, held, work) && Once(Some(cursor), list, done) ==>
              EachOnce(cursors[sym := cursor], held[sym := list], work[sym := done])
  {
    hide Fits, Once;
  }

  /** Parses the bars from a position on, behind what is parsed already. */
  method Parse(sofar: seq<Bar>, bars: seq<Bar>, start: nat, ghost held: seq<Bar>)
    returns (entries: seq<Bar>, ghost parsed: nat)
    requires |held| == start <= |bars| && sofar == Clean(held)
    ensures entries == Clean(held + bars[start..]) && sofar <= entries && parsed == |bars| - start
  {
    hide Clean;
    entries, parsed := sofar, 0;
    assert bars[start..start] == [] && held + [] == held;
    for j := start to |bars|
      invariant entries == Clean(held + bars[start..j]) && sofar <= entries && parsed == j - start
    {
      CleanNext(held, bars, start, j);
      if Wellformed(bars[j]) { entries := entries + [bars[j]]; }
      parsed := parsed + 1;
    }
    assert bars[start..|bars|] == bars[start..];
  }

  lemma CleanNext(held: seq<Bar>, bars: seq<Bar>, start: nat, j: nat)
    requires start <= j < |bars|
    ensures Clean(held + bars[start..j + 1]) == Clean(held + bars[start..j]) + if Wellformed(bars[j]) then [bars[j]]
                                                                               else []
  {
    var list := held + bars[start..j + 1];
    assert list[..|list| - 1] == held + bars[start..j] && list[|list| - 1] == bars[j];
  }

  /** Brings one parsed view up to the list it is shown. */
  method Refresh(view: Parsed, bars: seq<Bar>, ghost held: seq<Bar>)
    returns (newer: Parsed, reset: bool, ghost parsed: nat)
    requires view == Parsed(Clean(held), |held|)
    ensures newer == Parsed(Clean(Merged(held, bars)), |bars|)
    ensures reset <==> |bars| < |held|
    ensures !reset ==> view.entries <= newer.entries && parsed == |bars| - |held|
  {
    hide PrefixBy, Clean;
    newer, reset, parsed := view, false, 0;
    if view.srcLen < |bars| {
      var entries;
      entries, parsed := Parse(view.entries, bars, view.srcLen, held);
      newer := Parsed(entries, |bars|);
    } else if view.srcLen > |bars| {
      assert Clean([]) == [] by { NothingClean(); }
      var entries;
      entries, parsed := Parse([], bars, 0, []);
      assert [] + bars[0..] == bars;
      newer, reset := Parsed(entries, |bars|), true;
    }
  }

  lemma NothingClean()
    ensures Clean([]) == []
  {
  }

  /** Moves a cursor as far as the clock allows. */
  method Advance(clean: seq<Bar>, start: nat, now: int) returns (idx: nat)
    requires PassedBy(clean, start, now)
    ensures start <= idx <= |clean| && PassedBy(clean, idx, now)
    ensures clean[..idx] == PrefixBy(clean, now)
  {
    idx := start;
    while idx < |clean| && AvailableBy(clean[idx], now)
      invariant start <= idx && PassedBy(clean, idx, now)
    {
      idx := idx + 1;
    }
    PrefixAt(clean, now, idx);
  }

  predicate Forward(last: Option<int>, now: int) {
    last.None? || last.value <= now
  }

  ghost predicate OnlyGrows(held: map<Symbol, seq<Bar>>, data: map<Symbol, seq<Bar>>, symbols: seq<Symbol>,
                            skipEmpty: bool) {
    forall sym :: Touches(data, symbols, skipEmpty, sym) ==> |Held(held, sym)| <= |BarsOf(data, sym)|
  }

  /** One module-level CACHE. */
  class CursorCache {
    var cursors: map<Symbol, nat>
    var last: Option<int>
    var filtered: map<Symbol, Parsed>
    /** The list the cache goes on for each symbol. */
    ghost var held: map<Symbol, seq<Bar>>
    ghost var work: map<Symbol, Work>

    constructor ()
      ensures Valid() && held == map[] && last == None && Linear()
    {
      cursors, last, filtered, held, work := map[], None, map[], map[], map[];
    }

    method Invalidate()
      modifies this
      ensures Valid() && held == map[] && last == None && Linear()
    {
      cursors, last, filtered, held, work := map[], None, map[], map[], map[];
    }

    ghost predicate Valid()
      reads this
    {
      Consistent(filtered, cursors, last, held, work)
    }

    ghost predicate Linear()
      reads this
      requires Valid()
    {
      EachOnce(cursors, held, work)
    }

    /** A clock that goes back resets every cursor. */
    method Tick(now: int)
      requires Valid()
      modifies this`cursors, this`last
      ensures Valid() && last == Some(now)
      ensures old(Linear()) && Forward(old(last), now) ==> Linear()
    {
      hide Clean;
      if last.Some? && now < last.value { cursors := map[]; }
      last := Some(now);
    }

    /** One symbol's turn in a call: refresh its view, then move its cursor. */
    method Scan(sym: Symbol, bars: seq<Bar>, now: int) returns (clean: seq<Bar>, idx: nat)
      requires Valid() && last == Some(now)
      modifies this`filtered, this`cursors, this`held, this`work
      ensures Valid()
      ensures held == old(held)[sym := Merged(Held(old(held), sym), bars)]
      ensures idx <= |clean| && clean[..idx] == Visible(held[sym], now)
      ensures old(Linear()) && |Held(old(held), sym)| <= |bars| ==> Linear()
    {
      hide Consistent, EachOnce, Clean, PrefixBy, Merged;
      var view := if sym in filtered then filtered[sym] else Parsed([], 0);
      ghost var list, done := Held(held, sym), if sym in work then work[sym] else Work(0, 0);
      Current(sym, view, done);
      var newer, reset, parsed := Refresh(view, bars, list);
      var start := if reset || sym !in cursors then 0 else cursors[sym];
      assert start <= |newer.entries|;
      idx := Advance(newer.entries, start, now);
      clean := newer.entries;
      ConsistentUpdate(filtered, cursors, last, held, work, sym, newer, idx, Merged(list, bars),
                       Work(done.parsed + parsed, done.advanced + (idx - start)));
      filtered, cursors := filtered[sym := newer], cursors[sym := idx];
      held, work := held[sym := Merged(list, bars)],
        work[sym := Work(done.parsed + parsed, done.advanced + (idx - start))];
    }

    lemma Current(sym: Symbol, view: Parsed, done: Work)
      requires Valid()
      requires view == if sym in filtered then filtered[sym] else Parsed([], 0)
      requires done == if sym in work then work[sym] else Work(0, 0)
      ensures Fits(view, At(cursors, sym), Held(held, sym), last)
      ensures Linear() ==> Once(At(cursors, sym), Held(held, sym), done)
    {
    }

    /** Each symbol's bars up to the clock; an unreadable clock sees nothing. */
    method GetPriceHistoryUpToCurrent(data: map<Symbol, seq<Bar>>, symbols: seq<Symbol>, clock: Option<int>)
      returns (out: map<Symbol, seq<Bar>>)
      requires Valid()
      modifies this
      ensures Valid()
      ensures out == History(old(held), data, symbols, clock)
      ensures clock.None? ==> unchanged(this)
      ensures clock.Some? ==> last == clock && held == HeldAfter(old(held), data, symbols, true)
      ensures clock.Some? && old(Linear()) && Forward(old(last), clock.value) ==>
                OnlyGrows(old(held), data, symbols, true) ==> Linear()
    {
      hide Consistent, EachOnce, Clean, PrefixBy, Visible, Merged, HeldAfter, History, Touches;
      out := map[];
      ghost var was := held;
      NoSymbols(was, data, symbols, clock, true);
      assert symbols[..|symbols|] == symbols;
      if clock.None? {
        for i := 0 to |symbols|
          invariant unchanged(this) && out == History(was, data, symbols[..i], clock)
        {
          HistoryNext(was, data, symbols, clock, i);
          out := out[symbols[i] := []];
        }
        return;
      }
      Tick(clock.value);
      ghost var cheap := Linear() && OnlyGrows(was, data, symbols, true);
      for i := 0 to |symbols|
        invariant Valid() && last == clock
        invariant held == HeldAfter(was, data, symbols[..i], true)
        invariant out == History(was, data, symbols[..i], clock)
        invariant cheap ==> Linear()
      {
        var sym := symbols[i];
        var bars := if sym in data then data[sym] else [];
        HistoryNext(was, data, symbols, clock, i);
        HeldAfterNext(was, data, symbols, true, i);
        if bars == [] {
          out := out[sym := []];
        } else {
          HeldIsMerged(was, data, symbols[..i], true, sym);
          if cheap { StillGrows(was, data, symbols, true, i); }
          var clean, idx := Scan(sym, bars, clock.value);
          out := out[sym := clean[..idx]];
        }
      }
    }

    /** The close of the last visible bar, for the symbols that have one. */
    method LatestPriceAt(data: map<Symbol, seq<Bar>>, symbols: seq<Symbol>, now: int) returns (out: map<Symbol, real>)
      requires Valid()
      modifies this
      ensures Valid() && last == Some(now)
      ensures out == Prices(old(held), data, symbols, now)
      ensures held == HeldAfter(old(held), data, symbols, false)
      ensures old(Linear()) && Forward(old(last), now) && OnlyGrows(old(held), data, symbols, false) ==> Linear()
    {
      hide Consistent, EachOnce, Clean, PrefixBy, Visible, Merged, HeldAfter, Prices, Touches;
      out := map[];
      ghost var was := held;
      NoSymbols(was, data, symbols, Some(now), false);
      assert symbols[..|symbols|] == symbols;
      Tick(now);
      ghost var cheap := Linear() && OnlyGrows(was, data, symbols, false);
      for i := 0 to |symbols|
        invariant Valid() && last == Some(now)
        invariant held == HeldAfter(was, data, symbols[..i], false)
        invariant out == Prices(was, data, symbols[..i], now)
        invariant cheap ==> Linear()
      {
        var sym := symbols[i];
        PricesNext(was, data, symbols, now, i);
        HeldAfterNext(was, data, symbols, false, i);
        HeldIsMerged(was, data, symbols[..i], false, sym);
        if cheap { StillGrows(was, data, symbols, false, i); }
        var clean, idx := Scan(sym, if sym in data then data[sym] else [], now);
        if idx > 0 {
          assert clean[idx - 1] == clean[..idx][idx - 1];
          var bar := clean[idx - 1];
          if bar.close.Some? { out := out[sym := bar.close.value]; }
        }
      }
    }
  }

  lemma NoSymbols(held: map<Symbol, seq<Bar>>, data: map<Symbol, seq<Bar>>, symbols: seq<Symbol>, clock: Option<int>,
                  skipEmpty: bool)
    ensures HeldAfter(held, data, symbols[..0], skipEmpty) == held
    ensures History(held, data, symbols[..0], clock) == map[]
    ensures clock.Some? ==> Prices(held, data, symbols[..0], clock.value) == map[]
  {
    hide Clean, PrefixBy, Visible;
  }

  lemma StillGrows(held: map<Symbol, seq<Bar>>, data: map<Symbol, seq<Bar>>, symbols: seq<Symbol>, skipEmpty: bool,
                   i: nat)
    requires i < |symbols| && OnlyGrows(held, data, symbols, skipEmpty)
    requires !(skipEmpty && BarsOf(data, symbols[i]) == [])
    ensures |Held(HeldAfter(held, data, symbols[..i], skipEmpty), symbols[i])| <= |BarsOf(data, symbols[i])|
  {
    hide Clean, PrefixBy;
    assert Touches(data, symbols, skipEmpty, symbols[i]);
  }

  // ---- whole runs ----

  /** One call of either look-up; only the history one can have an unreadable clock. */
  datatype Call = Call(data: map<Symbol, seq<Bar>>, symbols: seq<Symbol>, clock: Option<int>)

  predicate Looks(call: Call, skipEmpty: bool, sym: Symbol) {
    call.clock.Some? && Touches(call.data, call.symbols, skipEmpty, sym)
  }

  /** The list the calls last looked at for a symbol. */
  function LastShown(calls: seq<Call>, skipEmpty: bool, sym: Symbol): seq<Bar> {
    if calls == [] then []
    else
      var call := calls[|calls| - 1];
      if Looks(call, skipEmpty, sym) then BarsOf(call.data, sym) else LastShown(calls[..|calls| - 1], skipEmpty, sym)
  }

  function LastClock(calls: seq<Call>): Option<int> {
    if calls == [] then None
    else if calls[|calls| - 1].clock.Some? then calls[|calls| - 1].clock
    else LastClock(calls[..|calls| - 1])
  }

  /** What the cache goes on after the calls. */
  function HeldOver(calls: seq<Call>, skipEmpty: bool): map<Symbol, seq<Bar>> {
    if calls == [] then map[]
    else
      var call, before := calls[|calls| - 1], HeldOver(calls[..|calls| - 1], skipEmpty);
      if call.clock.None? then before else HeldAfter(before, call.data, call.symbols, skipEmpty)
  }

  /** A list looked at extends the one looked at before it, or is shorter. */
  predicate KeptAt(calls: seq<Call>, skipEmpty: bool, i: nat, sym: Symbol)
    requires i < |calls|
  {
    Looks(calls[i], skipEmpty, sym) ==>
      var shown, bars := LastShown(calls[..i], skipEmpty, sym), BarsOf(calls[i].data, sym);
      |bars| < |shown| || shown == bars[..|shown|]
  }

  ghost predicate Kept(calls: seq<Call>, skipEmpty: bool) {
    forall i, sym :: 0 <= i < |calls| ==> KeptAt(calls, skipEmpty, i, sym)
  }

  predicate GrowsAt(calls: seq<Call>, skipEmpty: bool, i: nat, sym: Symbol)
    requires i < |calls|
  {
    Looks(calls[i], skipEmpty, sym) ==> |LastShown(calls[..i], skipEmpty, sym)| <= |BarsOf(calls[i].data, sym)|
  }

  /** The clock never goes back and no list looked at gets shorter. */
  ghost predicate Growing(calls: seq<Call>, skipEmpty: bool) {
    && (forall i :: 0 <= i < |calls| && calls[i].clock.Some? ==> Forward(LastClock(calls[..i]), calls[i].clock.value))
    && forall i, sym :: 0 <= i < |calls| ==> GrowsAt(calls, skipEmpty, i, sym)
  }

  lemma HeldStep(calls: seq<Call>, skipEmpty: bool, i: nat, sym: Symbol)
    requires i < |calls|
    ensures LastShown(calls[..i + 1], skipEmpty, sym)
            == if Looks(calls[i], skipEmpty, sym) then BarsOf(calls[i].data, sym)
               else LastShown(calls[..i], skipEmpty, sym)
    ensures Held(HeldOver(calls[..i + 1], skipEmpty), sym)
            == if Looks(calls[i], skipEmpty, sym)
               then Merged(Held(HeldOver(calls[..i], skipEmpty), sym), BarsOf(calls[i].data, sym))
               else Held(HeldOver(calls[..i], skipEmpty), sym)
  {
    hide Merged, Clean, PrefixBy;
    assert calls[..i + 1][..i] == calls[..i];
    var before := HeldOver(calls[..i], skipEmpty);
    if calls[i].clock.Some? { HeldAfterAt(before, calls[i].data, calls[i].symbols, skipEmpty, sym); }
  }

  lemma HeldAfterAt(held: map<Symbol, seq<Bar>>, data: map<Symbol, seq<Bar>>, symbols: seq<Symbol>, skipEmpty: bool,
                    sym: Symbol)
    ensures Held(HeldAfter(held, data, symbols, skipEmpty), sym)
            == Going(held, data, Touches(data, symbols, skipEmpty, sym), sym)
  {
    hide Merged, BarsOf;
  }

  /** The list gone on has the length of the one last looked at, and is that one when all were kept. */
  lemma {:induction false} HeldIsShown(calls: seq<Call>, skipEmpty: bool, i: nat, sym: Symbol)
    requires i <= |calls|
    ensures |Held(HeldOver(calls[..i], skipEmpty), sym)| == |LastShown(calls[..i], skipEmpty, sym)|
    ensures Kept(calls, skipEmpty) ==>
              Held(HeldOver(calls[..i], skipEmpty), sym) == LastShown(calls[..i], skipEmpty, sym)
    decreases i
  {
    hide HeldOver, LastShown, Looks, BarsOf, Kept, Held, Merged;
    if i == 0 {
      NothingShown(calls, skipEmpty, sym);
    } else {
      HeldStep(calls, skipEmpty, i - 1, sym);
      HeldIsShown(calls, skipEmpty, i - 1, sym);
      MergedLength(Held(HeldOver(calls[..i - 1], skipEmpty), sym), BarsOf(calls[i - 1].data, sym));
      if Kept(calls, skipEmpty) && Looks(calls[i - 1], skipEmpty, sym) { KeptList(calls, skipEmpty, i - 1, sym); }
    }
  }

  lemma NothingShown(calls: seq<Call>, skipEmpty: bool, sym: Symbol)
    ensures Held(HeldOver(calls[..0], skipEmpty), sym) == [] && LastShown(calls[..0], skipEmpty, sym) == []
  {
  }

  lemma MergedLength(held: seq<Bar>, bars: seq<Bar>)
    ensures |Merged(held, bars)| == |bars|
  {
  }

  lemma KeptList(calls: seq<Call>, skipEmpty: bool, i: nat, sym: Symbol)
    requires i < |calls| && Kept(calls, skipEmpty) && Looks(calls[i], skipEmpty, sym)
    ensures Merged(LastShown(calls[..i], skipEmpty, sym), BarsOf(calls[i].data, sym)) == BarsOf(calls[i].data, sym)
  {
    hide LastShown, Looks;
    assert KeptAt(calls, skipEmpty, i, sym);
  }

  /** What a scan of the lists shown would answer. */
  function FullScan(call: Call): map<Symbol, seq<Bar>> {
    map sym | sym in call.symbols :: if call.clock.None? then [] else Visible(BarsOf(call.data, sym), call.clock.value)
  }

  function FullPrices(data: map<Symbol, seq<Bar>>, symbols: seq<Symbol>, now: int): map<Symbol, real> {
    map sym | sym in symbols
      && LastClose(Visible(BarsOf(data, sym), now)).Some? :: LastClose(Visible(BarsOf(data, sym), now)).value
  }

  lemma HistoryIsCurrent(calls: seq<Call>, i: nat)
    requires i < |calls| && Kept(calls, true)
    ensures History(HeldOver(calls[..i], true), calls[i].data, calls[i].symbols, calls[i].clock) == FullScan(calls[i])
  {
    hide HeldOver, LastShown, Clean, PrefixBy, Visible;
    var call, held := calls[i], HeldOver(calls[..i], true);
    forall sym | sym in call.symbols
      ensures HistoryAnswer(held, call.data, sym, call.clock)
              == if call.clock.None? then [] else Visible(BarsOf(call.data, sym), call.clock.value)
    {
      HeldIsShown(calls, true, i, sym);
      assert KeptAt(calls, true, i, sym);
      if call.clock.Some? { VisibleOfNothing(call.clock.value); }
    }
  }

  lemma PricesAreCurrent(calls: seq<Call>, i: nat)
    requires i < |calls| && calls[i].clock.Some? && Kept(calls, false)
    ensures Prices(HeldOver(calls[..i], false), calls[i].data, calls[i].symbols, calls[i].clock.value)
            == FullPrices(calls[i].data, calls[i].symbols, calls[i].clock.value)
  {
    hide HeldOver, LastShown, Clean, PrefixBy, Visible;
    var call, held := calls[i], HeldOver(calls[..i], false);
    forall sym | sym in call.symbols ensures Merged(Held(held, sym), BarsOf(call.data, sym)) == BarsOf(call.data, sym) {
      HeldIsShown(calls, false, i, sym);
      assert KeptAt(calls, false, i, sym);
    }
  }

  lemma StepGrows(calls: seq<Call>, skipEmpty: bool, i: nat)
    requires i < |calls| && calls[i].clock.Some? && Growing(calls, skipEmpty)
    ensures OnlyGrows(HeldOver(calls[..i], skipEmpty), calls[i].data, calls[i].symbols, skipEmpty)
    ensures Forward(LastClock(calls[..i]), calls[i].clock.value)
  {
    hide HeldOver, LastShown;
    forall sym | Touches(calls[i].data, calls[i].symbols, skipEmpty, sym)
      ensures |Held(HeldOver(calls[..i], skipEmpty), sym)| <= |BarsOf(calls[i].data, sym)|
    {
      HeldIsShown(calls, skipEmpty, i, sym);
      assert GrowsAt(calls, skipEmpty, i, sym);
    }
  }

  lemma CallsNext(calls: seq<Call>, skipEmpty: bool, i: nat)
    requires i < |calls|
    ensures HeldOver(calls[..i + 1], skipEmpty) ==
            if calls[i].clock.None? then HeldOver(calls[..i], skipEmpty)
            else HeldAfter(HeldOver(calls[..i], skipEmpty), calls[i].data, calls[i].symbols, skipEmpty)
    ensures LastClock(calls[..i + 1]) == if calls[i].clock.Some? then calls[i].clock else LastClock(calls[..i])
  {
    hide HeldAfter;
    assert calls[..i + 1][..i] == calls[..i];
  }

  // ---- the work of a run ----

  ghost function Pick(keys: set<Symbol>): (sym: Symbol)
    requires keys != {}
    ensures sym in keys
  {
    var sym :| sym in keys;
    sym
  }

  ghost function TotalWork(work: map<Symbol, Work>, keys: set<Symbol>): nat
    requires keys <= work.Keys
  {
    if keys == {} then 0
    else var sym := Pick(keys); work[sym].parsed + work[sym].advanced + TotalWork(work, keys - {sym})
  }

  ghost function TotalBars(held: map<Symbol, seq<Bar>>, keys: set<Symbol>): nat
    requires keys <= held.Keys
  {
    if keys == {} then 0 else var sym := Pick(keys); |held[sym]| + TotalBars(held, keys - {sym})
  }

  /** Where no bar was handled twice, both loops together took at most two steps for each bar. */
  lemma {:induction false} TwoStepsEach(cursors: map<Symbol, nat>, held: map<Symbol, seq<Bar>>, work: map<Symbol, Work>,
                                        filtered: map<Symbol, Parsed>, last: Option<int>, keys: set<Symbol>)
    requires Consistent(filtered, cursors, last, held, work) && EachOnce(cursors, held, work) && keys <= held.Keys
    ensures TotalWork(work, keys) <= 2 * TotalBars(held, keys)
    decreases |keys|
  {
    hide Pick;
    if keys != {} {
      var sym := Pick(keys);
      TwoStepsEach(cursors, held, work, filtered, last, keys - {sym});
      assert Once(At(cursors, sym), held[sym], work[sym]) && Fits(filtered[sym], At(cursors, sym), held[sym], last);
    }
  }

  /** Any run of history calls on a fresh cache. Each answer is the scan of the list gone on; where
      every list is kept or becomes shorter it is the scan of the list shown; and with a clock that
      never goes back and lists that never shrink, parsing and advancing over the whole run take at
      most two steps for each bar. */
  method ReplayHistory(calls: seq<Call>) returns (cache: CursorCache, answers: seq<map<Symbol, seq<Bar>>>)
    ensures fresh(cache) && cache.Valid() && cache.held == HeldOver(calls, true) && |answers| == |calls|
    ensures forall i :: 0 <= i < |calls| ==>
              answers[i] == History(HeldOver(calls[..i], true), calls[i].data, calls[i].symbols, calls[i].clock)
    ensures Kept(calls, true) ==> forall i :: 0 <= i < |calls| ==> answers[i] == FullScan(calls[i])
    ensures forall sym :: sym in cache.held ==> |cache.held[sym]| == |LastShown(calls, true, sym)|
    ensures Growing(calls, true) ==>
              TotalWork(cache.work, cache.held.Keys) <= 2 * TotalBars(cache.held, cache.held.Keys)
  {
    hide Kept, Growing, HeldOver, History, FullScan, Consistent, EachOnce, OnlyGrows, LastClock, LastShown, HeldAfter;
    cache := new CursorCache();
    answers := [];
    NoCalls(calls);
    for i := 0 to |calls|
      invariant fresh(cache) && cache.Valid() && cache.held == HeldOver(calls[..i], true)
                && cache.last == LastClock(calls[..i])
      invariant |answers| == i
      invariant forall j :: 0 <= j < i ==>
                  answers[j] == History(HeldOver(calls[..j], true), calls[j].data, calls[j].symbols, calls[j].clock)
      invariant Growing(calls, true) ==> cache.Linear()
    {
      CallsNext(calls, true, i);
      if Growing(calls, true) && calls[i].clock.Some? { StepGrows(calls, true, i); }
      var out := cache.GetPriceHistoryUpToCurrent(calls[i].data, calls[i].symbols, calls[i].clock);
      answers := answers + [out];
    }
    assert calls[..|calls|] == calls;
    forall sym | sym in cache.held ensures |cache.held[sym]| == |LastShown(calls, true, sym)| {
      HeldIsShown(calls, true, |calls|, sym);
    }
    if Kept(calls, true) {
      forall i | 0 <= i < |calls| ensures answers[i] == FullScan(calls[i]) { HistoryIsCurrent(calls, i); }
    }
    if Growing(calls, true) {
      WorkOfKeys(cache.cursors, cache.held, cache.work, cache.filtered, cache.last);
    }
  }

  /** A symbol asked for has a price exactly when its history has a last bar with a readable close,
      which is the price. */
  predicate PricedBy(call: Call, history: map<Symbol, seq<Bar>>, prices: map<Symbol, real>, sym: Symbol) {
    && (sym in prices <==>
        sym in call.symbols && sym in history && history[sym] != [] && history[sym][|history[sym]| - 1].close.Some?)
    && (sym in prices && sym in history && history[sym] != [] ==>
          history[sym][|history[sym]| - 1].close == Some(prices[sym]))
  }

  lemma PricesArePriced(held: map<Symbol, seq<Bar>>, call: Call, sym: Symbol)
    requires call.clock.Some?
    ensures PricedBy(call, History(held, call.data, call.symbols, call.clock),
                     Prices(held, call.data, call.symbols, call.clock.value), sym)
  {
    hide PriceAnswer, HistoryAnswer;
    if sym in call.symbols { PriceIsLastOfHistory(held, call.data, call.symbols, call.clock.value, sym); }
  }

  /** The same for the latest prices. */
  method ReplayPrices(calls: seq<Call>) returns (cache: CursorCache, answers: seq<map<Symbol, real>>)
    requires forall i :: 0 <= i < |calls| ==> calls[i].clock.Some?
    ensures fresh(cache) && cache.Valid() && cache.held == HeldOver(calls, false) && |answers| == |calls|
    ensures forall i :: 0 <= i < |calls| ==>
              answers[i] == Prices(HeldOver(calls[..i], false), calls[i].data, calls[i].symbols, calls[i].clock.value)
    ensures forall i, sym :: 0 <= i < |calls| ==>
              PricedBy(calls[i], History(HeldOver(calls[..i], false), calls[i].data, calls[i].symbols, calls[i].clock),
                       answers[i], sym)
    ensures Kept(calls, false) ==> forall i :: 0 <= i < |calls| ==>
              answers[i] == FullPrices(calls[i].data, calls[i].symbols, calls[i].clock.value)
    ensures forall sym :: sym in cache.held ==> |cache.held[sym]| == |LastShown(calls, false, sym)|
    ensures Growing(calls, false) ==>
              TotalWork(cache.work, cache.held.Keys) <= 2 * TotalBars(cache.held, cache.held.Keys)
  {
    hide Kept, Growing, HeldOver, PricedBy, History, Prices, FullPrices, Consistent, EachOnce, OnlyGrows, LastClock,
      LastShown, HeldAfter;
    cache := new CursorCache();
    answers := [];
    NoCalls(calls);
    for i := 0 to |calls|
      invariant fresh(cache) && cache.Valid() && cache.held == HeldOver(calls[..i], false)
                && cache.last == LastClock(calls[..i])
      invariant |answers| == i
      invariant forall j :: 0 <= j < i ==>
                  answers[j] == Prices(HeldOver(calls[..j], false), calls[j].data, calls[j].symbols,
                                       calls[j].clock.value)
      invariant Growing(calls, false) ==> cache.Linear()
    {
      CallsNext(calls, false, i);
      if Growing(calls, false) { StepGrows(calls, false, i); }
      var out := cache.LatestPriceAt(calls[i].data, calls[i].symbols, calls[i].clock.value);
      answers := answers + [out];
    }
    assert calls[..|calls|] == calls;
    forall sym | sym in cache.held ensures |cache.held[sym]| == |LastShown(calls, false, sym)| {
      HeldIsShown(calls, false, |calls|, sym);
    }
    forall i, sym | 0 <= i < |calls|
      ensures PricedBy(calls[i], History(HeldOver(calls[..i], false), calls[i].data, calls[i].symbols, calls[i].clock),
                       answers[i], sym)
    {
      PricesArePriced(HeldOver(calls[..i], false), calls[i], sym);
    }
    if Kept(calls, false) {
      forall i | 0 <= i < |calls|
        ensures answers[i] == FullPrices(calls[i].data, calls[i].symbols, calls[i].clock.value)
      {
        PricesAreCurrent(calls, i);
      }
    }
    if Growing(calls, false) {
      WorkOfKeys(cache.cursors, cache.held, cache.work, cache.filtered, cache.last);
    }
  }

  lemma WorkOfKeys(cursors: map<Symbol, nat>, held: map<Symbol, seq<Bar>>, work: map<Symbol, Work>,
                   filtered: map<Symbol, Parsed>,
                   last: Option<int>)
    requires Consistent(filtered, cursors, last, held, work) && EachOnce(cursors, held, work)
    ensures held.Keys == work.Keys && TotalWork(work, held.Keys) <= 2 * TotalBars(held, held.Keys)
  {
    TwoStepsEach(cursors, held, work, filtered, last, held.Keys);
  }

  lemma NoCalls(calls: seq<Call>)
    ensures HeldOver(calls[..0], true) == map[] && HeldOver(calls[..0], false) == map[] && LastClock(calls[..0]) == None
  {
  }

  /** A list replaced by another of the same length is answered with the bars of the first. */
  lemma ReplacedListIsStale(sym: Symbol, first: Bar, second: Bar, now: int)
    requires Wellformed(first) && Wellformed(second) && first != second
    requires first.available.value <= now && second.available.value <= now
    ensures var calls := [Call(map[sym := [first]], [sym], Some(now)), Call(map[sym := [second]], [sym], Some(now))];
            && History(HeldOver(calls[..1], true), calls[1].data, [sym], Some(now)) == map[sym := [first]]
            && FullScan(calls[1]) == map[sym := [second]]
            && History(HeldOver(calls[..1], true), calls[1].data, [sym], Some(now)) != FullScan(calls[1])
  {
    hide Clean, PrefixBy, Merged, Held;
    var calls := [Call(map[sym := [first]], [sym], Some(now)), Call(map[sym := [second]], [sym], Some(now))];
    HeldStep(calls, true, 0, sym);
    assert calls[..0] == [];
    NothingHeld(sym, first, second);
    OneBar(first, now);
    OneBar(second, now);
    assert map[sym := [first]][sym][0] == first && map[sym := [second]][sym][0] == second;
  }

  lemma NothingHeld(sym: Symbol, first: Bar, second: Bar)
    ensures Merged(Held(map[], sym), [first]) == [first] && Merged([first], [second]) == [first]
  {
  }

  lemma OneBar(bar: Bar, now: int)
    requires Wellformed(bar) && bar.available.value <= now
    ensures Visible([bar], now) == [bar]
  {
    assert [bar][..0] == [];
  }
}

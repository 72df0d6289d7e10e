/** The bulk fetch over a date range: fixed windows, recursive halving of windows that reach the
    result cap, a cache of every window, and the cleaning of the combined list. */
module RangeSplitter {
  import opened KeyOrder

  // ---- cleaning ----

  predicate Space(c: int) {
    c == 32 || 9 <= c <= 13 || 28 <= c <= 31
  }

  /** The ASCII characters `strip` takes off: tab to carriage return, the four separators and space. */
  lemma SpaceExact(c: int)
    ensures Space(c) <==> c in {9, 10, 11, 12, 13, 28, 29, 30, 31, 32}
  {
  }

  function Capital(c: int): int {
    if 97 <= c <= 122 then c - 32 else c
  }

  function Upper(s: Key): Key {
    seq(|s|, i requires 0 <= i < |s| => Capital(s[i]))
  }

  function StripLeft(s: Key): (r: Key)
    ensures r == [] || !Space(r[0])
    ensures s != [] && !Space(s[|s| - 1]) ==> r != [] && r[|r| - 1] == s[|s| - 1]
  {
    if s != [] && Space(s[0]) then StripLeft(s[1..]) else s
  }

  function StripRight(s: Key): (r: Key)
    ensures r == [] || !Space(r[|r| - 1])
    ensures s != [] && !Space(s[0]) ==> r != [] && r[0] == s[0]
  {
    if s != [] && Space(s[|s| - 1]) then StripRight(s[..|s| - 1]) else s
  }

  /** A ticker trimmed and in capitals. */
  function Norm(s: Key): Key {
    Upper(StripRight(StripLeft(s)))
  }

  lemma NormTwice(s: Key)
    ensures Norm(Norm(s)) == Norm(s)
  {
    var trimmed := StripRight(StripLeft(s));
    var once := Upper(trimmed);
    if once != [] {
      assert !Space(once[0]) && !Space(once[|once| - 1]);
      assert StripLeft(once) == once && StripRight(once) == once;
    }
    assert Upper(once) == once;
  }

  predicate AllSpace(s: Key) {
    forall i :: 0 <= i < |s| ==> Space(s[i])
  }

  lemma {:induction false} LeftStripped(blank: Key, s: Key)
    requires AllSpace(blank) && (s == [] || !Space(s[0]))
    ensures StripLeft(blank + s) == s
    decreases |blank|
  {
    if blank == [] {
      assert blank + s == s;
    } else {
      assert (blank + s)[1..] == blank[1..] + s;
      LeftStripped(blank[1..], s);
    }
  }

  lemma {:induction false} RightStripped(s: Key, blank: Key)
    requires AllSpace(blank) && (s == [] || !Space(s[|s| - 1]))
    ensures StripRight(s + blank) == s
    decreases |blank|
  {
    if blank == [] {
      assert s + blank == s;
    } else {
      assert (s + blank)[..|s + blank| - 1] == s + blank[..|blank| - 1];
      RightStripped(s, blank[..|blank| - 1]);
    }
  }

  /** The normal form of a ticker is the ticker without the blanks around it, small letters turned into
      capitals and every other character as it is. */
  lemma NormExact(before: Key, s: Key, blank: Key)
    requires AllSpace(before) && AllSpace(blank) && (s == [] || (!Space(s[0]) && !Space(s[|s| - 1])))
    ensures var n := Norm(before + s + blank);
            |n| == |s| && forall i :: 0 <= i < |s| ==> n[i] == if 97 <= s[i] <= 122 then s[i] - 32 else s[i]
  {
    assert before + s + blank == before + (s + blank);
    if s == [] {
      assert before + s + blank == (before + blank) + [];
      LeftStripped(before + blank, []);
    } else {
      LeftStripped(before, s + blank);
      RightStripped(s, blank);
    }
  }

  /** What one result row holds: the day the service files it under, the two tickers, whether any
      of an action's fields says something, and the rest. */
  datatype Item = NotDict | Rec(day: int, ticker: Key, acquirer: Key, useful: bool, rest: Key)

  datatype Kind = Kind(scoped: bool, merger: bool, action: bool)

  /** A data type together with the normalised tickers asked for. */
  datatype Query = Query(kind: Kind, wanted: set<Key>)

  function Tidy(s: Key): Key {
    if Norm(s) != [] then Norm(s) else s
  }

  function Clean(item: Item): Item {
    if item.NotDict? then item else item.(ticker := Tidy(item.ticker), acquirer := Tidy(item.acquirer))
  }

  predicate Accepted(q: Query, item: Item) {
    && item.Rec?
    && (if q.kind.scoped then Norm(item.ticker) != [] && (q.wanted == {} || Norm(item.ticker) in q.wanted)
        else q.kind.merger ==> q.wanted == {} || Norm(item.ticker) in q.wanted || Norm(item.acquirer) in q.wanted)
    && (q.kind.action ==> item.useful)
  }

  lemma CleanTwice(q: Query, item: Item)
    ensures Clean(Clean(item)) == Clean(item)
    ensures Accepted(q, Clean(item)) == Accepted(q, item)
  {
    if item.Rec? {
      NormTwice(item.ticker);
      NormTwice(item.acquirer);
    }
  }

  /** The rows kept: each cleaned, the first of every group of equal ones. */
  function Sanitized(q: Query, items: seq<Item>): seq<Item> {
    if items == [] then []
    else
      var kept, last := Sanitized(q, items[..|items| - 1]), items[|items| - 1];
      if Accepted(q, last) && Clean(last) !in kept then kept + [Clean(last)] else kept
  }

  /** The distinct clean rows among the given ones. */
  function Good(q: Query, items: set<Item>): set<Item> {
    set x | x in items && Accepted(q, x) :: Clean(x)
  }

  /** What is kept: objects; of a ticker-scoped type only with a ticker, and one asked for if any was; of
      mergers one side asked for; of actions only those that say something. */
  lemma KeptExact(q: Query, items: seq<Item>, x: Item)
    ensures x in Sanitized(q, items) ==>
              exists y :: y in items && y.Rec? && x == Clean(y)
                          && (q.kind.scoped ==> Norm(y.ticker) != [] && (q.wanted != {} ==> Norm(y.ticker) in q.wanted))
                          && (!q.kind.scoped && q.kind.merger && q.wanted != {} ==>
                                Norm(y.ticker) in q.wanted || Norm(y.acquirer) in q.wanted)
                          && (q.kind.action ==> y.useful)
    ensures (x.Rec? && x in items && (q.kind.scoped ==> Norm(x.ticker) != [])
            && (q.wanted == {} || Norm(x.ticker) in q.wanted || (!q.kind.scoped && Norm(x.acquirer) in q.wanted)
                || (!q.kind.scoped && !q.kind.merger))
            && (q.kind.action ==> x.useful)) ==> Clean(x) in Sanitized(q, items)
  {
    hide Norm;
    SanitizedIsGood(q, items);
    assert x in Sanitized(q, items) ==> x in Elements(Sanitized(q, items));
    if Accepted(q, x) && x in items { assert Clean(x) in Elements(Sanitized(q, items)); }
  }

  /** A kept row holds its tickers in normal form, unless they are blank, and the rest as it was. */
  lemma CleanExact(x: Item)
    ensures x.Rec? ==>
              && Clean(x) == Rec(x.day, Clean(x).ticker, Clean(x).acquirer, x.useful, x.rest)
              && Clean(x).ticker == (if Norm(x.ticker) == [] then x.ticker else Norm(x.ticker))
              && Clean(x).acquirer == (if Norm(x.acquirer) == [] then x.acquirer else Norm(x.acquirer))
  {
  }

  /** Rows are kept in the order of their first occurrence. */
  lemma {:induction false} SanitizedInOrder(q: Query, items: seq<Item>, more: seq<Item>)
    ensures Sanitized(q, items) <= Sanitized(q, items + more)
    decreases |more|
  {
    hide Accepted, Clean;
    if more == [] {
      assert items + more == items;
    } else {
      assert (items + more)[..|items + more| - 1] == items + more[..|more| - 1];
      SanitizedInOrder(q, items, more[..|more| - 1]);
    }
  }

  function Elements(items: seq<Item>): set<Item> {
    set x | x in items
  }

  predicate Distinct(items: seq<Item>) {
    forall i, j :: 0 <= i < j < |items| ==> items[i] != items[j]
  }

  /** Cleaning keeps exactly the distinct clean rows, each once. */
  lemma {:induction false} SanitizedIsGood(q: Query, items: seq<Item>)
    ensures Elements(Sanitized(q, items)) == Good(q, Elements(items)) && Distinct(Sanitized(q, items))
    ensures |Sanitized(q, items)| <= |items|
    decreases |items|
  {
    hide Accepted, Clean;
    if items != [] {
      var front, last := items[..|items| - 1], items[|items| - 1];
      SanitizedIsGood(q, front);
      assert Elements(items) == Elements(front) + {last};
      GoodAdd(q, Elements(front), last);
      var kept := Sanitized(q, front);
      if Accepted(q, last) && Clean(last) !in kept {
        assert Elements(kept + [Clean(last)]) == Elements(kept) + {Clean(last)};
      }
    }
  }

  lemma GoodAdd(q: Query, items: set<Item>, last: Item)
    ensures Good(q, items + {last}) == Good(q, items) + if Accepted(q, last) then {Clean(last)} else {}
  {
    hide Accepted, Clean;
  }

  lemma GoodUnion(q: Query, a: set<Item>, b: set<Item>)
    ensures Good(q, a + b) == Good(q, a) + Good(q, b)
  {
    hide Accepted, Clean;
  }

  /** Cleaning a clean list drops nothing. */
  lemma {:induction false} SanitizedTwice(q: Query, items: seq<Item>)
    ensures Sanitized(q, Sanitized(q, items)) == Sanitized(q, items)
    decreases |items|
  {
    hide Accepted, Clean;
    if items != [] {
      var front, last := items[..|items| - 1], items[|items| - 1];
      SanitizedTwice(q, front);
      CleanTwice(q, last);
      var kept := Sanitized(q, front);
      if Accepted(q, last) && Clean(last) !in kept {
        var more := kept + [Clean(last)];
        assert more[..|more| - 1] == kept;
      }
    }
  }

  method Sanitize(q: Query, records: seq<Item>) returns (cleaned: seq<Item>, dropped: nat)
    ensures cleaned == Sanitized(q, records) && dropped == |records| - |cleaned|
  {
    hide Accepted, Clean;
    cleaned, dropped := [], 0;
    var seen: set<Item> := {};
    for i := 0 to |records|
      invariant cleaned == Sanitized(q, records[..i]) && dropped == i - |cleaned|
      invariant seen == Elements(cleaned)
    {
      assert records[..i + 1][..i] == records[..i];
      var rec := Clean(records[i]);
      if !Accepted(q, records[i]) || rec in seen {
        dropped := dropped + 1;
      } else {
        seen := seen + {rec};
        cleaned := cleaned + [rec];
      }
    }
    assert records[..|records|] == records;
  }

  // ---- one window ----

  datatype Range = Range(from: int, until: int)

  /** What the service answers for a range of days, with its result cap. */
  datatype Service = Service(answer: (int, int) -> seq<Item>, cap: int)

  type Cache = map<Range, seq<Item>>

  /** The rows handed on, the cache afterwards, the service fetches made and the windows warned
      about as possibly cut off. */
  datatype Outcome = Outcome(data: seq<Item>, cache: Cache, fetched: seq<Range>, warned: seq<Range>)

  const MAX_DEPTH: nat := 3

  predicate Splits(service: Service, from: int, until: int, depth: nat) {
    |service.answer(from, until)| >= service.cap && depth < MAX_DEPTH && until - from >= 2
  }

  function Middle(from: int, until: int): int {
    from + (until - from) / 2
  }

  function Chunk(service: Service, cache: Cache, from: int, until: int, depth: nat): Outcome
    requires depth <= MAX_DEPTH
    decreases MAX_DEPTH - depth
  {
    var key := Range(from, until);
    var rows := service.answer(from, until);
    if key in cache then Outcome(cache[key], cache, [], [])
    else if rows == [] then Outcome([], cache[key := []], [key], [])
    else if Splits(service, from, until, depth) then
      var mid := Middle(from, until);
      var left := Chunk(service, cache, from, mid, depth + 1);
      var right := Chunk(service, left.cache, mid + 1, until, depth + 1);
      Outcome(left.data + right.data, right.cache[key := left.data + right.data],
              [key] + left.fetched + right.fetched, left.warned + right.warned)
    else Outcome(rows, cache[key := rows], [key], if |rows| >= service.cap then [key] else [])
  }

  /** The windows the rows finally come from, each with its rows. */
  datatype Piece = Piece(from: int, until: int, data: seq<Item>)

  function Pieces(service: Service, cache: Cache, from: int, until: int, depth: nat): seq<Piece>
    requires depth <= MAX_DEPTH
    decreases MAX_DEPTH - depth
  {
    if Range(from, until) in cache then [Piece(from, until, cache[Range(from, until)])]
    else if service.answer(from, until) != [] && Splits(service, from, until, depth) then
      var mid := Middle(from, until);
      Pieces(service, cache, from, mid, depth + 1)
      + Pieces(service, Chunk(service, cache, from, mid, depth + 1).cache, mid + 1, until, depth + 1)
    else [Piece(from, until, service.answer(from, until))]
  }

  predicate Halved(service: Service, cache: Cache, from: int, until: int, depth: nat) {
    Range(from, until) !in cache && service.answer(from, until) != [] && Splits(service, from, until, depth)
  }

  /** The equations of the two recursions where a window is halved, and where it is not. */
  lemma HalvedStep(service: Service, cache: Cache, from: int, until: int, depth: nat)
    requires depth < MAX_DEPTH && Halved(service, cache, from, until, depth)
    ensures var mid := Middle(from, until);
            var left := Chunk(service, cache, from, mid, depth + 1);
            var right := Chunk(service, left.cache, mid + 1, until, depth + 1);
            && from < mid < until
            && Chunk(service, cache, from, until, depth) ==
               Outcome(left.data + right.data, right.cache[Range(from, until) := left.data + right.data],
                       [Range(from, until)] + left.fetched + right.fetched, left.warned + right.warned)
            && Pieces(service, cache, from, until, depth) ==
               Pieces(service, cache, from, mid, depth + 1) + Pieces(service, left.cache, mid + 1, until, depth + 1)
  {
  }

  lemma WholeStep(service: Service, cache: Cache, from: int, until: int, depth: nat)
    requires depth <= MAX_DEPTH && !Halved(service, cache, from, until, depth)
    ensures var made, key, rows := Chunk(service, cache, from, until, depth), Range(from, until),
            service.answer(from, until);
            if key in cache then made == Outcome(cache[key], cache, [], [])
            else made == Outcome(rows, cache[key := rows], [key],
                                 if rows != [] && |rows| >= service.cap then [key] else [])
    ensures Pieces(service, cache, from, until, depth)
            == [Piece(from, until, Chunk(service, cache, from, until, depth).data)]
  {
  }

  /** Non-empty windows, each starting the day after the one before ends, from `from` to `to`. */
  predicate Tiles(pieces: seq<Piece>, from: int, until: int) {
    && pieces != [] && pieces[0].from == from <= pieces[0].until
    && if |pieces| == 1 then pieces[0].until == until else Tiles(pieces[1..], pieces[0].until + 1, until)
  }

  function Glued(pieces: seq<Piece>): seq<Item> {
    if pieces == [] then [] else Glued(pieces[..|pieces| - 1]) + pieces[|pieces| - 1].data
  }

  lemma {:induction false} GluedAppend(a: seq<Piece>, b: seq<Piece>)
    ensures Glued(a + b) == Glued(a) + Glued(b)
    decreases |b|
  {
    if b == [] {
      assert a + b == a;
    } else {
      assert (a + b)[..|a + b| - 1] == a + b[..|b| - 1];
      GluedAppend(a, b[..|b| - 1]);
    }
  }

  lemma {:induction false} TilesAppend(a: seq<Piece>, b: seq<Piece>, from: int, mid: int, until: int)
    requires Tiles(a, from, mid) && Tiles(b, mid + 1, until)
    ensures Tiles(a + b, from, until)
    decreases |a|
  {
    if |a| == 1 {
      assert (a + b)[1..] == b;
    } else {
      TilesAppend(a[1..], b, a[0].until + 1, mid, until);
      assert (a + b)[1..] == a[1..] + b;
    }
  }

  /** The halving is a partition: the rows are those of disjoint windows that follow each other
      without a gap, in order. */
  lemma {:induction false} ChunkIsItsPieces(service: Service, cache: Cache, from: int, until: int, depth: nat)
    requires depth <= MAX_DEPTH && from <= until
    ensures Chunk(service, cache, from, until, depth).data == Glued(Pieces(service, cache, from, until, depth))
    ensures Tiles(Pieces(service, cache, from, until, depth), from, until)
    decreases MAX_DEPTH - depth
  {
    hide Chunk, Pieces, Middle, Halved, Tiles, Glued;
    if Halved(service, cache, from, until, depth) {
      HalvedIsShallow(service, cache, from, until, depth);
      HalvedStep(service, cache, from, until, depth);
      var mid := Middle(from, until);
      var left := Chunk(service, cache, from, mid, depth + 1);
      var a := Pieces(service, cache, from, mid, depth + 1);
      var b := Pieces(service, left.cache, mid + 1, until, depth + 1);
      ChunkIsItsPieces(service, cache, from, mid, depth + 1);
      ChunkIsItsPieces(service, left.cache, mid + 1, until, depth + 1);
      GluedAppend(a, b);
      TilesAppend(a, b, from, mid, until);
    } else {
      WholeStep(service, cache, from, until, depth);
      TileOfOne(Piece(from, until, Chunk(service, cache, from, until, depth).data));
    }
  }

  lemma TileOfOne(p: Piece)
    requires p.from <= p.until
    ensures Tiles([p], p.from, p.until) && Glued([p]) == p.data
  {
  }

  function MostFetches(depth: nat): nat
    requires depth <= MAX_DEPTH
    decreases MAX_DEPTH - depth
  {
    if depth == MAX_DEPTH then 1 else 1 + 2 * MostFetches(depth + 1)
  }

  /** At most fifteen service fetches for a window, whatever is cached and whatever comes back. */
  lemma {:induction false} FetchesBounded(service: Service, cache: Cache, from: int, until: int, depth: nat)
    requires depth <= MAX_DEPTH
    ensures |Chunk(service, cache, from, until, depth).fetched| <= MostFetches(depth)
    ensures MostFetches(0) == 15
    decreases MAX_DEPTH - depth
  {
    hide Chunk, Pieces, Middle, Halved;
    assert MostFetches(3) == 1 && MostFetches(2) == 3 && MostFetches(1) == 7;
    if Halved(service, cache, from, until, depth) {
      HalvedIsShallow(service, cache, from, until, depth);
      HalvedStep(service, cache, from, until, depth);
      var mid := Middle(from, until);
      FetchesBounded(service, cache, from, mid, depth + 1);
      FetchesBounded(service, Chunk(service, cache, from, mid, depth + 1).cache, mid + 1, until, depth + 1);
    } else {
      WholeStep(service, cache, from, until, depth);
    }
  }

  lemma HalvedIsShallow(service: Service, cache: Cache, from: int, until: int, depth: nat)
    requires Halved(service, cache, from, until, depth)
    ensures depth < MAX_DEPTH
  {
  }

  // ---- what is complete ----

  /** The clean rows the service should have for a range of days. */
  function Due(q: Query, universe: set<Item>, from: int, until: int): set<Item> {
    Good(q, Dated(universe, from, until))
  }

  function Dated(universe: set<Item>, from: int, until: int): set<Item> {
    set x | x in universe && x.Rec? && from <= x.day <= until
  }

  /** Nothing but rows of the range. */
  predicate Within(q: Query, universe: set<Item>, rows: seq<Item>, from: int, until: int) {
    Good(q, Elements(rows)) <= Due(q, universe, from, until)
  }

  predicate Complete(q: Query, universe: set<Item>, rows: seq<Item>, from: int, until: int) {
    Good(q, Elements(rows)) == Due(q, universe, from, until)
  }

  ghost predicate CacheWithin(q: Query, universe: set<Item>, cache: Cache) {
    forall key :: key in cache ==> Within(q, universe, cache[key], key.from, key.until)
  }

  /** A window warned about lies in the range. */
  predicate WarnedInside(warned: seq<Range>, from: int, until: int) {
    exists w :: w in warned && from <= w.from && w.until <= until
  }

  /** Every cached window is complete, or a window inside it was warned about. */
  ghost predicate Announced(q: Query, universe: set<Item>, cache: Cache, warned: seq<Range>) {
    forall key :: key in cache ==>
      Complete(q, universe, cache[key], key.from, key.until) || WarnedInside(warned, key.from, key.until)
  }

  /** What is asked of a service: nothing foreign, and everything when an answer is below its cap. */
  ghost predicate Honest(q: Query, universe: set<Item>, service: Service) {
    ServiceWithin(q, universe, service) && ShortIsComplete(q, universe, service) && service.cap > 0
  }

  ghost predicate ServiceWithin(q: Query, universe: set<Item>, service: Service) {
    forall from: int, until: int :: Within(q, universe, service.answer(from, until), from, until)
  }

  /** An answer below the cap has everything. */
  ghost predicate ShortIsComplete(q: Query, universe: set<Item>, service: Service) {
    forall from: int, until: int :: |service.answer(from, until)| < service.cap ==>
      Complete(q, universe, service.answer(from, until), from, until)
  }

  lemma DueSplit(q: Query, universe: set<Item>, from: int, mid: int, until: int)
    requires from <= mid <= until
    ensures Due(q, universe, from, until) == Due(q, universe, from, mid) + Due(q, universe, mid + 1, until)
    ensures Due(q, universe, from, mid) !! Due(q, universe, mid + 1, until)
  {
    hide Accepted;
    var a, b := Dated(universe, from, mid), Dated(universe, mid + 1, until);
    assert Dated(universe, from, until) == a + b;
    GoodUnion(q, a, b);
    forall y | y in Good(q, a) ensures y.Rec? && y.day <= mid { GoodDay(q, a, y); }
    forall y | y in Good(q, b) ensures y.Rec? && mid < y.day { GoodDay(q, b, y); }
  }

  lemma GoodDay(q: Query, items: set<Item>, y: Item)
    requires y in Good(q, items)
    ensures y.Rec? && exists x :: x in items && x.Rec? && x.day == y.day
  {
  }

  /** Two parts, each with nothing foreign, are complete together exactly when each is. */
  lemma PartsDecide(q: Query, universe: set<Item>, left: seq<Item>, right: seq<Item>, from: int, mid: int, until: int)
    requires from <= mid <= until
    requires Within(q, universe, left, from, mid) && Within(q, universe, right, mid + 1, until)
    ensures Within(q, universe, left + right, from, until)
    ensures Complete(q, universe, left + right, from, until) <==>
            Complete(q, universe, left, from, mid) && Complete(q, universe, right, mid + 1, until)
  {
    hide Good, Due;
    DueSplit(q, universe, from, mid, until);
    assert Elements(left + right) == Elements(left) + Elements(right);
    GoodUnion(q, Elements(left), Elements(right));
    UnionOfParts(Good(q, Elements(left)), Good(q, Elements(right)), Due(q, universe, from, mid),
                 Due(q, universe, mid + 1, until));
  }

  lemma UnionOfParts(a: set<Item>, b: set<Item>, wholeA: set<Item>, wholeB: set<Item>)
    requires a <= wholeA && b <= wholeB && wholeA !! wholeB
    ensures a + b == wholeA + wholeB <==> a == wholeA && b == wholeB
  {
    if a + b == wholeA + wholeB {
      forall x | x in wholeA ensures x in a { assert x in a + b; }
      forall x | x in wholeB ensures x in b { assert x in a + b; }
    }
  }

  lemma {:induction false} ChunkWithin(q: Query, universe: set<Item>, service: Service, cache: Cache, from: int,
                                       until: int, depth: nat)
    requires depth <= MAX_DEPTH
    requires CacheWithin(q, universe, cache) && ServiceWithin(q, universe, service)
    ensures var made := Chunk(service, cache, from, until, depth);
            Within(q, universe, made.data, from, until) && CacheWithin(q, universe, made.cache)
    decreases MAX_DEPTH - depth
  {
    hide Within, Complete, Chunk, Pieces, Middle;
    assert Within(q, universe, service.answer(from, until), from, until);
    if Halved(service, cache, from, until, depth) {
      HalvedStep(service, cache, from, until, depth);
      var mid := Middle(from, until);
      var left := Chunk(service, cache, from, mid, depth + 1);
      ChunkWithin(q, universe, service, cache, from, mid, depth + 1);
      ChunkWithin(q, universe, service, left.cache, mid + 1, until, depth + 1);
      PartsDecide(q, universe, left.data, Chunk(service, left.cache, mid + 1, until, depth + 1).data, from, mid, until);
    } else {
      WholeStep(service, cache, from, until, depth);
    }
  }

  ghost predicate PiecesComplete(q: Query, universe: set<Item>, pieces: seq<Piece>) {
    forall p :: p in pieces ==> Complete(q, universe, p.data, p.from, p.until)
  }

  /** A window's rows are complete exactly when every final piece of it is. */
  lemma {:induction false} CompleteIffPieces(q: Query, universe: set<Item>, service: Service, cache: Cache, from: int,
                                             until: int, depth: nat)
    requires depth <= MAX_DEPTH
    requires CacheWithin(q, universe, cache) && ServiceWithin(q, universe, service)
    ensures Complete(q, universe, Chunk(service, cache, from, until, depth).data, from, until) <==>
            PiecesComplete(q, universe, Pieces(service, cache, from, until, depth))
    decreases MAX_DEPTH - depth
  {
    hide Within, Complete, ServiceWithin, CacheWithin, Chunk, Pieces, Middle, PiecesComplete;
    if Halved(service, cache, from, until, depth) {
      HalvedStep(service, cache, from, until, depth);
      var mid := Middle(from, until);
      var left := Chunk(service, cache, from, mid, depth + 1);
      CompleteIffPieces(q, universe, service, cache, from, mid, depth + 1);
      ChunkWithin(q, universe, service, cache, from, mid, depth + 1);
      CompleteIffPieces(q, universe, service, left.cache, mid + 1, until, depth + 1);
      ChunkWithin(q, universe, service, left.cache, mid + 1, until, depth + 1);
      PartsDecide(q, universe, left.data, Chunk(service, left.cache, mid + 1, until, depth + 1).data, from, mid, until);
      PiecesOfBoth(q, universe, Pieces(service, cache, from, mid, depth + 1),
                   Pieces(service, left.cache, mid + 1, until, depth + 1));
    } else {
      WholeStep(service, cache, from, until, depth);
      PieceOfOne(q, universe, Pieces(service, cache, from, until, depth)[0]);
    }
  }

  lemma PiecesOfBoth(q: Query, universe: set<Item>, a: seq<Piece>, b: seq<Piece>)
    ensures PiecesComplete(q, universe, a + b) <==> PiecesComplete(q, universe, a) && PiecesComplete(q, universe, b)
  {
    hide Complete;
    if PiecesComplete(q, universe, a + b) {
      forall p | p in a ensures Complete(q, universe, p.data, p.from, p.until) { assert p in a + b; }
      forall p | p in b ensures Complete(q, universe, p.data, p.from, p.until) { assert p in a + b; }
    }
  }

  lemma PieceOfOne(q: Query, universe: set<Item>, p: Piece)
    ensures PiecesComplete(q, universe, [p]) <==> Complete(q, universe, p.data, p.from, p.until)
  {
    hide Complete;
    assert p in [p];
  }

  /** Rows are cut off only with a warning: a window's answer is complete unless a window inside it
      is warned about now or was before, and so is every window in the cache afterwards. */
  lemma {:induction false} NoSilentLoss(q: Query, universe: set<Item>, service: Service, cache: Cache,
                                        warned: seq<Range>,
                                        from: int, until: int, depth: nat)
    requires depth <= MAX_DEPTH
    requires Announced(q, universe, cache, warned) && Honest(q, universe, service)
    ensures var made := Chunk(service, cache, from, until, depth);
            && (Complete(q, universe, made.data, from, until) || WarnedInside(warned + made.warned, from, until))
            && Announced(q, universe, made.cache, warned + made.warned)
    decreases MAX_DEPTH - depth
  {
    hide Complete, Honest, Announced, Chunk, Pieces, Middle, WarnedInside;
    if Halved(service, cache, from, until, depth) {
      HalvedIsShallow(service, cache, from, until, depth);
      HalvedStep(service, cache, from, until, depth);
      var mid := Middle(from, until);
      var left := Chunk(service, cache, from, mid, depth + 1);
      var right := Chunk(service, left.cache, mid + 1, until, depth + 1);
      NoSilentLoss(q, universe, service, cache, warned, from, mid, depth + 1);
      NoSilentLoss(q, universe, service, left.cache, warned + left.warned, mid + 1, until, depth + 1);
      assert warned + left.warned + right.warned == warned + (left.warned + right.warned);
      WarnedMore(warned + left.warned, right.warned, from, mid);
      BothOrWarned(q, universe, left.data, right.data, warned + left.warned + right.warned, from, mid, until);
      AnnouncedAdd(q, universe, right.cache, warned + left.warned + right.warned, Range(from, until), left.data
                   + right.data);
    } else {
      WholeStep(service, cache, from, until, depth);
      WholeOrWarned(q, universe, service, cache, warned, from, until, depth);
    }
  }

  lemma WarnedMore(warned: seq<Range>, more: seq<Range>, from: int, until: int)
    ensures WarnedInside(warned, from, until) ==> WarnedInside(warned + more, from, until)
  {
    if WarnedInside(warned, from, until) {
      var w :| w in warned && from <= w.from && w.until <= until;
      assert w in warned + more;
    }
  }

  lemma AnnouncedMore(q: Query, universe: set<Item>, cache: Cache, warned: seq<Range>, more: seq<Range>)
    requires Announced(q, universe, cache, warned)
    ensures Announced(q, universe, cache, warned + more)
  {
    hide Complete, WarnedInside;
    forall key | key in cache
      ensures WarnedInside(warned, key.from, key.until) ==> WarnedInside(warned + more, key.from, key.until)
    {
      WarnedMore(warned, more, key.from, key.until);
    }
  }

  lemma AnnouncedAdd(q: Query, universe: set<Item>, cache: Cache, warned: seq<Range>, key: Range, rows: seq<Item>)
    requires Announced(q, universe, cache, warned)
    requires Complete(q, universe, rows, key.from, key.until) || WarnedInside(warned, key.from, key.until)
    ensures Announced(q, universe, cache[key := rows], warned)
  {
    hide Complete, WarnedInside;
  }

  /** Two parts, each complete or warned about, make a whole that is. */
  lemma BothOrWarned(q: Query, universe: set<Item>, left: seq<Item>, right: seq<Item>, warned: seq<Range>,
                     from: int, mid: int, until: int)
    requires from <= mid <= until
    requires Complete(q, universe, left, from, mid) || WarnedInside(warned, from, mid)
    requires Complete(q, universe, right, mid + 1, until) || WarnedInside(warned, mid + 1, until)
    ensures Complete(q, universe, left + right, from, until) || WarnedInside(warned, from, until)
  {
    hide Complete, Within;
    if Complete(q, universe, left, from, mid) && Complete(q, universe, right, mid + 1, until) {
      CompleteIsWithin(q, universe, left, from, mid);
      CompleteIsWithin(q, universe, right, mid + 1, until);
      PartsDecide(q, universe, left, right, from, mid, until);
    }
  }

  lemma WholeOrWarned(q: Query, universe: set<Item>, service: Service, cache: Cache, warned: seq<Range>,
                      from: int, until: int, depth: nat)
    requires depth <= MAX_DEPTH && !Halved(service, cache, from, until, depth)
    requires Announced(q, universe, cache, warned) && Honest(q, universe, service)
    ensures var made := Chunk(service, cache, from, until, depth);
            && (Complete(q, universe, made.data, from, until) || WarnedInside(warned + made.warned, from, until))
            && Announced(q, universe, made.cache, warned + made.warned)
  {
    hide Complete, Within, Chunk, WarnedInside;
    WholeStep(service, cache, from, until, depth);
    var key, rows, made := Range(from, until), service.answer(from, until), Chunk(service, cache, from, until, depth);
    AnnouncedMore(q, universe, cache, warned, made.warned);
    if key in cache {
      assert warned + made.warned == warned;
    } else {
      if made.warned == [key] { WarnedAtOnce(warned, key); }
      AnnouncedAdd(q, universe, cache, warned + made.warned, key, rows);
    }
  }

  lemma WarnedAtOnce(warned: seq<Range>, key: Range)
    ensures WarnedInside(warned + [key], key.from, key.until)
  {
    assert key in warned + [key];
  }

  lemma CompleteIsWithin(q: Query, universe: set<Item>, rows: seq<Item>, from: int, until: int)
    requires Complete(q, universe, rows, from, until)
    ensures Within(q, universe, rows, from, until)
  {
  }

  // ---- the whole range ----

  const CHUNK_DAYS: int := 30
  const SHORT_DAYS: int := 35

  function WindowEnd(start: int, until: int): int {
    if start + CHUNK_DAYS <= until then start + CHUNK_DAYS else until
  }

  function Windows(service: Service, cache: Cache, start: int, until: int): Outcome
    decreases until - start + 1
  {
    if start > until then Outcome([], cache, [], [])
    else
      var end := WindowEnd(start, until);
      var one := Chunk(service, cache, start, end, 0);
      var rest := Windows(service, one.cache, end + 1, until);
      Outcome(one.data + rest.data, rest.cache, one.fetched + rest.fetched, one.warned + rest.warned)
  }

  function WindowPieces(service: Service, cache: Cache, start: int, until: int): seq<Piece>
    decreases until - start + 1
  {
    if start > until then []
    else
      var end := WindowEnd(start, until);
      Pieces(service, cache, start, end, 0)
        + WindowPieces(service, Chunk(service, cache, start, end, 0).cache, end + 1, until)
  }

  function Raw(service: Service, cache: Cache, from: int, until: int): Outcome {
    if until - from <= SHORT_DAYS then Chunk(service, cache, from, until, 0) else Windows(service, cache, from, until)
  }

  function RawPieces(service: Service, cache: Cache, from: int, until: int): seq<Piece> {
    if until - from <= SHORT_DAYS then Pieces(service, cache, from, until, 0)
    else WindowPieces(service, cache, from, until)
  }

  function Bulk(q: Query, service: Service, cache: Cache, from: int, until: int): Outcome {
    var key := Range(from, until);
    if key in cache then
      var kept := Sanitized(q, cache[key]);
      Outcome(kept, if |kept| < |cache[key]| then cache[key := kept] else cache, [], [])
    else
      var raw := Raw(service, cache, from, until);
      Outcome(Sanitized(q, raw.data), raw.cache[key := Sanitized(q, raw.data)], raw.fetched, raw.warned)
  }

  lemma {:induction false} WindowsPartition(service: Service, cache: Cache, start: int, until: int)
    requires start <= until
    ensures Windows(service, cache, start, until).data == Glued(WindowPieces(service, cache, start, until))
    ensures Tiles(WindowPieces(service, cache, start, until), start, until)
    ensures |Windows(service, cache, start, until).fetched| <= 15 * ((until - start) / 31 + 1)
    decreases until - start
  {
    hide Chunk, Pieces, Windows, WindowPieces, Tiles, Glued;
    var end := WindowEnd(start, until);
    var one := Chunk(service, cache, start, end, 0);
    WindowsStep(service, cache, start, until);
    ChunkIsItsPieces(service, cache, start, end, 0);
    FetchesBounded(service, cache, start, end, 0);
    if end < until {
      WindowsPartition(service, one.cache, end + 1, until);
      GluedAppend(Pieces(service, cache, start, end, 0), WindowPieces(service, one.cache, end + 1, until));
      TilesAppend(Pieces(service, cache, start, end, 0), WindowPieces(service, one.cache, end + 1, until), start, end,
                  until);
      OneWindowMore(start, end, until);
    }
  }

  lemma OneWindowMore(start: int, end: int, until: int)
    requires end == start + CHUNK_DAYS < until
    ensures 15 + 15 * ((until - (end + 1)) / 31 + 1) == 15 * ((until - start) / 31 + 1)
  {
    assert until - start == until - (end + 1) + 31;
  }

  /** The equations of the window loop: one window and the rest, which is nothing at the end. */
  lemma WindowsStep(service: Service, cache: Cache, start: int, until: int)
    requires start <= until
    ensures var end := WindowEnd(start, until);
            var one := Chunk(service, cache, start, end, 0);
            var rest := Windows(service, one.cache, end + 1, until);
            && start <= end <= until && (end < until ==> end == start + CHUNK_DAYS)
            && Windows(service, cache, start, until) ==
               Outcome(one.data + rest.data, rest.cache, one.fetched + rest.fetched, one.warned + rest.warned)
            && (end == until ==> Windows(service, cache, start, until) == one)
            && WindowPieces(service, cache, start, until) ==
               (if end == until then Pieces(service, cache, start, end, 0)
                else Pieces(service, cache, start, end, 0) + WindowPieces(service, one.cache, end + 1, until))
  {
    hide Chunk, Pieces;
    var end := WindowEnd(start, until);
    var one := Chunk(service, cache, start, end, 0);
    if end == until {
      assert Windows(service, one.cache, end + 1, until) == Outcome([], one.cache, [], []);
      assert WindowPieces(service, one.cache, end + 1, until) == [];
      assert Pieces(service, cache, start, end, 0) + [] == Pieces(service, cache, start, end, 0);
      NothingAdded(one);
    }
  }

  lemma NothingAdded(one: Outcome)
    ensures Outcome(one.data + [], one.cache, one.fetched + [], one.warned + []) == one
  {
    assert one.data + [] == one.data && one.fetched + [] == one.fetched && one.warned + [] == one.warned;
  }

  /** The range is covered by windows that touch and never overlap, with at most fifteen fetches
      for each of the top-level windows. */
  lemma RangeIsPartitioned(service: Service, cache: Cache, from: int, until: int)
    requires from <= until
    ensures Raw(service, cache, from, until).data == Glued(RawPieces(service, cache, from, until))
    ensures Tiles(RawPieces(service, cache, from, until), from, until)
    ensures |Raw(service, cache, from, until).fetched| <= if until - from <= SHORT_DAYS then 15
                                                          else 15 * ((until - from) / 31 + 1)
  {
    hide Chunk, Pieces, Windows, WindowPieces;
    if until - from <= SHORT_DAYS {
      ChunkIsItsPieces(service, cache, from, until, 0);
      FetchesBounded(service, cache, from, until, 0);
    } else {
      WindowsPartition(service, cache, from, until);
    }
  }

  /** Every window the rows of a long range finally come from is at most 31 days long. */
  lemma {:induction false} WindowsAreShort(service: Service, cache: Cache, start: int, until: int)
    requires start <= until
    ensures forall p :: p in WindowPieces(service, cache, start, until) ==>
              start <= p.from <= p.until <= until && p.until - p.from <= 30
    decreases until - start
  {
    hide Chunk, Pieces, WindowPieces;
    WindowsStep(service, cache, start, until);
    var end := WindowEnd(start, until);
    ChunkIsItsPieces(service, cache, start, end, 0);
    TilesInside(Pieces(service, cache, start, end, 0), start, end);
    if end < until { WindowsAreShort(service, Chunk(service, cache, start, end, 0).cache, end + 1, until); }
  }

  lemma {:induction false} TilesInside(pieces: seq<Piece>, from: int, until: int)
    requires Tiles(pieces, from, until)
    ensures forall p :: p in pieces ==> from <= p.from <= p.until <= until
    decreases |pieces|
  {
    if |pieces| > 1 {
      TilesInside(pieces[1..], pieces[0].until + 1, until);
      assert pieces == [pieces[0]] + pieces[1..];
      assert pieces[1..][0] in pieces[1..];
    }
  }

  lemma {:induction false} WindowsComplete(q: Query, universe: set<Item>, service: Service, cache: Cache, start: int,
                                           until: int)
    requires start <= until
    requires CacheWithin(q, universe, cache) && ServiceWithin(q, universe, service)
    ensures Within(q, universe, Windows(service, cache, start, until).data, start, until)
    ensures CacheWithin(q, universe, Windows(service, cache, start, until).cache)
    ensures Complete(q, universe, Windows(service, cache, start, until).data, start, until) <==>
            PiecesComplete(q, universe, WindowPieces(service, cache, start, until))
    decreases until - start
  {
    hide Chunk, Windows, WindowPieces, Pieces, Within, Complete, ServiceWithin, CacheWithin, PiecesComplete;
    WindowsStep(service, cache, start, until);
    var end := WindowEnd(start, until);
    var one := Chunk(service, cache, start, end, 0);
    ChunkWithin(q, universe, service, cache, start, end, 0);
    CompleteIffPieces(q, universe, service, cache, start, end, 0);
    if end < until {
      WindowsComplete(q, universe, service, one.cache, end + 1, until);
      PartsDecide(q, universe, one.data, Windows(service, one.cache, end + 1, until).data, start, end, until);
      PiecesOfBoth(q, universe, Pieces(service, cache, start, end, 0),
                   WindowPieces(service, one.cache, end + 1, until));
    }
  }

  /** The combined list has every record of the range, each once, exactly when every final piece
      is complete. */
  lemma BulkCompleteIffPieces(q: Query, universe: set<Item>, service: Service, cache: Cache, from: int, until: int)
    requires from <= until && Range(from, until) !in cache
    requires CacheWithin(q, universe, cache) && ServiceWithin(q, universe, service)
    ensures var rows := Bulk(q, service, cache, from, until).data;
            && Distinct(rows) && Elements(rows) <= Due(q, universe, from, until)
            && (Elements(rows) == Due(q, universe, from, until) <==>
                PiecesComplete(q, universe, RawPieces(service, cache, from, until)))
  {
    hide Chunk, Pieces, Windows, WindowPieces, Sanitized, ServiceWithin, CacheWithin, PiecesComplete;
    if until - from <= SHORT_DAYS {
      ChunkWithin(q, universe, service, cache, from, until, 0);
      CompleteIffPieces(q, universe, service, cache, from, until, 0);
    } else {
      WindowsComplete(q, universe, service, cache, from, until);
    }
    SanitizedIsGood(q, Raw(service, cache, from, until).data);
  }

  lemma {:induction false} WindowsNoSilentLoss(q: Query, universe: set<Item>, service: Service, cache: Cache,
                                               warned: seq<Range>,
                                               start: int, until: int)
    requires start <= until
    requires Announced(q, universe, cache, warned) && Honest(q, universe, service)
    ensures var made := Windows(service, cache, start, until);
            && (Complete(q, universe, made.data, start, until) || WarnedInside(warned + made.warned, start, until))
            && Announced(q, universe, made.cache, warned + made.warned)
    decreases until - start
  {
    hide Chunk, Windows, WindowPieces, Complete, Honest, Announced, WarnedInside;
    WindowsStep(service, cache, start, until);
    var end := WindowEnd(start, until);
    var one := Chunk(service, cache, start, end, 0);
    NoSilentLoss(q, universe, service, cache, warned, start, end, 0);
    if end < until {
      var rest := Windows(service, one.cache, end + 1, until);
      WindowsNoSilentLoss(q, universe, service, one.cache, warned + one.warned, end + 1, until);
      assert warned + one.warned + rest.warned == warned + (one.warned + rest.warned);
      WarnedMore(warned + one.warned, rest.warned, start, end);
      BothOrWarned(q, universe, one.data, rest.data, warned + one.warned + rest.warned, start, end, until);
    }
  }

  /** A bulk answer never repeats a record, and lacks one only if some window inside the range is
      warned about now or was warned about before the cache was filled. */
  lemma BulkNoSilentLoss(q: Query, universe: set<Item>, service: Service, cache: Cache, warned: seq<Range>, from: int,
                         until: int)
    requires Announced(q, universe, cache, warned) && Honest(q, universe, service)
    ensures var made := Bulk(q, service, cache, from, until);
            && Distinct(made.data)
            && (Elements(made.data) == Due(q, universe, from, until) || WarnedInside(warned + made.warned, from, until))
            && Announced(q, universe, made.cache, warned + made.warned)
  {
    hide Chunk, Windows, Sanitized, Honest, Announced, WarnedInside, Good, Due;
    var key := Range(from, until);
    var rows := if key in cache then cache[key] else Raw(service, cache, from, until).data;
    SanitizedIsGood(q, rows);
    if key in cache {
      assert warned + [] == warned;
      CachedOrWarned(q, universe, cache, warned, key);
    } else if until - from <= SHORT_DAYS {
      NoSilentLoss(q, universe, service, cache, warned, from, until, 0);
    } else {
      WindowsNoSilentLoss(q, universe, service, cache, warned, from, until);
    }
    if Complete(q, universe, rows, from, until) { SanitizedComplete(q, universe, rows, from, until); }
    var raw := if key in cache then Outcome(rows, cache, [], []) else Raw(service, cache, from, until);
    AnnouncedAdd(q, universe, raw.cache, warned + raw.warned, key, Sanitized(q, rows));
  }

  lemma CachedOrWarned(q: Query, universe: set<Item>, cache: Cache, warned: seq<Range>, key: Range)
    requires Announced(q, universe, cache, warned) && key in cache
    ensures Complete(q, universe, cache[key], key.from, key.until) || WarnedInside(warned, key.from, key.until)
  {
  }

  /** One bulk call, with the service as it answers at that time. */
  datatype Call = Call(service: Service, from: int, until: int)

  /** What any number of calls leave behind: the cache and every window warned about. */
  datatype Past = Past(cache: Cache, warned: seq<Range>)

  function PastOf(q: Query, calls: seq<Call>): Past {
    if calls == [] then Past(map[], [])
    else
      var before, last := PastOf(q, calls[..|calls| - 1]), calls[|calls| - 1];
      var made := Bulk(q, last.service, before.cache, last.from, last.until);
      Past(made.cache, before.warned + made.warned)
  }

  ghost predicate AllHonest(q: Query, universe: set<Item>, calls: seq<Call>) {
    forall i :: 0 <= i < |calls| ==> Honest(q, universe, calls[i].service)
  }

  lemma {:induction false} PastAnnounced(q: Query, universe: set<Item>, calls: seq<Call>)
    requires AllHonest(q, universe, calls)
    ensures Announced(q, universe, PastOf(q, calls).cache, PastOf(q, calls).warned)
    decreases |calls|
  {
    hide Honest, Bulk, Complete;
    if calls != [] {
      var n := |calls| - 1;
      PastAnnounced(q, universe, calls[..n]);
      var before := PastOf(q, calls[..n]);
      BulkNoSilentLoss(q, universe, calls[n].service, before.cache, before.warned, calls[n].from, calls[n].until);
    }
  }

  /** Over any run of calls from an empty cache, with services that may answer differently each time:
      an answer holds every record of its range, each once, unless this or an earlier call warned
      about a window inside the range. */
  lemma LossIsAnnounced(q: Query, universe: set<Item>, calls: seq<Call>, call: Call)
    requires AllHonest(q, universe, calls) && Honest(q, universe, call.service)
    ensures var past := PastOf(q, calls);
            var made := Bulk(q, call.service, past.cache, call.from, call.until);
            && Distinct(made.data)
            && (Elements(made.data) == Due(q, universe, call.from, call.until)
                || WarnedInside(past.warned + made.warned, call.from, call.until))
  {
    hide Honest, AllHonest, Announced, Bulk, PastOf, WarnedInside;
    PastAnnounced(q, universe, calls);
    var past := PastOf(q, calls);
    BulkNoSilentLoss(q, universe, call.service, past.cache, past.warned, call.from, call.until);
  }

  lemma SanitizedComplete(q: Query, universe: set<Item>, rows: seq<Item>, from: int, until: int)
    requires Complete(q, universe, rows, from, until)
    ensures Complete(q, universe, Sanitized(q, rows), from, until)
  {
    hide Due, Clean, Accepted, Sanitized;
    SanitizedIsGood(q, rows);
    GoodTwice(q, Elements(rows));
  }

  lemma GoodTwice(q: Query, items: set<Item>)
    ensures Good(q, Good(q, items)) == Good(q, items)
  {
    hide Clean, Accepted;
    forall x ensures Clean(Clean(x)) == Clean(x) && Accepted(q, Clean(x)) == Accepted(q, x) { CleanTwice(q, x); }
    forall y ensures y in Good(q, Good(q, items)) <==> y in Good(q, items) {
      if y in Good(q, items) {
        var x :| x in items && Accepted(q, x) && y == Clean(x);
        assert Clean(y) == y;
      }
    }
  }

  // ---- a warning means a loss ----

  /** A service that cuts off: an answer that reaches the cap lacks a record. */
  ghost predicate CutsOff(q: Query, universe: set<Item>, service: Service) {
    forall from: int, until: int :: |service.answer(from, until)| >= service.cap ==>
      !Complete(q, universe, service.answer(from, until), from, until)
  }

  lemma WarnedPart(warned: seq<Range>, from: int, until: int, a: int, b: int)
    requires from <= a && b <= until && !WarnedInside(warned, from, until)
    ensures !WarnedInside(warned, a, b)
  {
  }

  /** Where no window inside was warned about before, a window of such a service is complete exactly
      when nothing is warned about now. */
  lemma {:induction false} ChunkIffWarned(q: Query, universe: set<Item>, service: Service, cache: Cache,
                                          warned: seq<Range>, from: int, until: int, depth: nat)
    requires depth <= MAX_DEPTH && CacheWithin(q, universe, cache) && Announced(q, universe, cache, warned)
    requires Honest(q, universe, service) && CutsOff(q, universe, service) && !WarnedInside(warned, from, until)
    ensures var made := Chunk(service, cache, from, until, depth);
            Complete(q, universe, made.data, from, until) <==> made.warned == []
    decreases MAX_DEPTH - depth
  {
    hide Complete, Within, ServiceWithin, ShortIsComplete, CutsOff, Announced, CacheWithin, Chunk, Pieces, Middle,
      WarnedInside;
    var made := Chunk(service, cache, from, until, depth);
    NoSilentLoss(q, universe, service, cache, warned, from, until, depth);
    if made.warned == [] { assert warned + made.warned == warned; }
    if Halved(service, cache, from, until, depth) {
      HalvedIsShallow(service, cache, from, until, depth);
      HalvedStep(service, cache, from, until, depth);
      var mid := Middle(from, until);
      var left := Chunk(service, cache, from, mid, depth + 1);
      WarnedPart(warned, from, until, from, mid);
      WarnedPart(warned, from, until, mid + 1, until);
      ChunkIffWarned(q, universe, service, cache, warned, from, mid, depth + 1);
      ChunkWithin(q, universe, service, cache, from, mid, depth + 1);
      if left.warned == [] {
        NoSilentLoss(q, universe, service, cache, warned, from, mid, depth + 1);
        assert warned + left.warned == warned;
        ChunkIffWarned(q, universe, service, left.cache, warned, mid + 1, until, depth + 1);
      }
      ChunkWithin(q, universe, service, left.cache, mid + 1, until, depth + 1);
      PartsDecide(q, universe, left.data, Chunk(service, left.cache, mid + 1, until, depth + 1).data, from, mid, until);
    } else {
      WholeStep(service, cache, from, until, depth);
      if made.warned != [] { CapIsLoss(q, universe, service, from, until); }
    }
  }

  lemma CapIsLoss(q: Query, universe: set<Item>, service: Service, from: int, until: int)
    requires CutsOff(q, universe, service) && |service.answer(from, until)| >= service.cap
    ensures !Complete(q, universe, service.answer(from, until), from, until)
  {
  }

  lemma {:induction false} WindowsIffWarned(q: Query, universe: set<Item>, service: Service, cache: Cache,
                                            warned: seq<Range>, start: int, until: int)
    requires start <= until && CacheWithin(q, universe, cache) && Announced(q, universe, cache, warned)
    requires Honest(q, universe, service) && CutsOff(q, universe, service) && !WarnedInside(warned, start, until)
    ensures var made := Windows(service, cache, start, until);
            Complete(q, universe, made.data, start, until) <==> made.warned == []
    decreases until - start
  {
    hide Chunk, Windows, WindowPieces, PiecesComplete, Complete, Within, ServiceWithin, ShortIsComplete, CutsOff,
      Announced, CacheWithin, WarnedInside;
    WindowsStep(service, cache, start, until);
    var end := WindowEnd(start, until);
    var one := Chunk(service, cache, start, end, 0);
    WarnedPart(warned, start, until, start, end);
    ChunkIffWarned(q, universe, service, cache, warned, start, end, 0);
    if end < until {
      WarnedPart(warned, start, until, end + 1, until);
      ChunkWithin(q, universe, service, cache, start, end, 0);
      if one.warned == [] {
        NoSilentLoss(q, universe, service, cache, warned, start, end, 0);
        assert warned + one.warned == warned;
        WindowsIffWarned(q, universe, service, one.cache, warned, end + 1, until);
      }
      WindowsComplete(q, universe, service, one.cache, end + 1, until);
      PartsDecide(q, universe, one.data, Windows(service, one.cache, end + 1, until).data, start, end, until);
    }
  }

  lemma BulkWithin(q: Query, universe: set<Item>, service: Service, cache: Cache, from: int, until: int)
    requires CacheWithin(q, universe, cache) && ServiceWithin(q, universe, service)
    ensures CacheWithin(q, universe, Bulk(q, service, cache, from, until).cache)
  {
    hide Chunk, Windows, WindowPieces, PiecesComplete, Complete, Within, ServiceWithin, Sanitized;
    var key := Range(from, until);
    var raw := if key in cache then Outcome(cache[key], cache, [], []) else Raw(service, cache, from, until);
    if key !in cache {
      if until - from <= SHORT_DAYS {
        ChunkWithin(q, universe, service, cache, from, until, 0);
      } else {
        WindowsComplete(q, universe, service, cache, from, until);
      }
    }
    SanitizedWithin(q, universe, raw.data, from, until);
  }

  lemma SanitizedWithin(q: Query, universe: set<Item>, rows: seq<Item>, from: int, until: int)
    requires Within(q, universe, rows, from, until)
    ensures Within(q, universe, Sanitized(q, rows), from, until)
  {
    hide Good, Due, Sanitized;
    SanitizedIsGood(q, rows);
    GoodTwice(q, Elements(rows));
  }

  lemma {:induction false} PastWithin(q: Query, universe: set<Item>, calls: seq<Call>)
    requires AllHonest(q, universe, calls)
    ensures CacheWithin(q, universe, PastOf(q, calls).cache)
    decreases |calls|
  {
    hide ServiceWithin, ShortIsComplete, Bulk, Within;
    if calls != [] {
      var n := |calls| - 1;
      PastWithin(q, universe, calls[..n]);
      BulkWithin(q, universe, calls[n].service, PastOf(q, calls[..n]).cache, calls[n].from, calls[n].until);
    }
  }

  /** Over any run of calls: where no window inside the range was warned about before, the answer of a
      service that cuts off has every record of the range exactly when the call warns about nothing. */
  lemma LossIffWarned(q: Query, universe: set<Item>, calls: seq<Call>, call: Call)
    requires AllHonest(q, universe, calls) && Honest(q, universe, call.service) && CutsOff(q, universe, call.service)
    requires !WarnedInside(PastOf(q, calls).warned, call.from, call.until)
    ensures var made := Bulk(q, call.service, PastOf(q, calls).cache, call.from, call.until);
            Elements(made.data) == Due(q, universe, call.from, call.until) <==> made.warned == []
  {
    hide ServiceWithin, ShortIsComplete, AllHonest, Announced, PastOf, CutsOff, Chunk, Windows, Sanitized, Due,
      WarnedInside, CacheWithin;
    PastAnnounced(q, universe, calls);
    PastWithin(q, universe, calls);
    var past, from, until := PastOf(q, calls), call.from, call.until;
    var key := Range(from, until);
    var raw := if key in past.cache then Outcome(past.cache[key], past.cache, [], [])
               else Raw(call.service, past.cache, from, until);
    if key in past.cache {
      CachedOrWarned(q, universe, past.cache, past.warned, key);
    } else if until - from <= SHORT_DAYS {
      ChunkIffWarned(q, universe, call.service, past.cache, past.warned, from, until, 0);
    } else {
      WindowsIffWarned(q, universe, call.service, past.cache, past.warned, from, until);
    }
    SanitizedIsGood(q, raw.data);
  }

  /** A range cut off: the next call answers the same rows from the cache,
      fetches nothing and warns about nothing. */
  lemma NextBulkRepeats(q: Query, service: Service, cache: Cache, from: int, until: int)
    ensures var made := Bulk(q, service, cache, from, until);
            var again := Bulk(q, service, made.cache, from, until);
            again.data == made.data && again.cache == made.cache && again.fetched == [] && again.warned == []
  {
    hide Raw, Sanitized;
    var key := Range(from, until);
    SanitizedTwice(q, if key in cache then cache[key] else Raw(service, cache, from, until).data);
  }

  /** Rows with no ticker, of a data type with no demands on them, are clean as they are. */
  const UNSCOPED: Query := Query(Kind(false, false, false), {})

  predicate Plain(x: Item) {
    x.Rec? && x.ticker == [] && x.acquirer == []
  }

  lemma GoodOfPlain(items: set<Item>)
    requires forall x :: x in items ==> Plain(x)
    ensures Good(UNSCOPED, items) == items
  {
    hide Clean, Accepted;
    forall x | x in items ensures Accepted(UNSCOPED, x) && Clean(x) == x { PlainIsClean(x); }
    assert forall x :: x in items ==> Clean(x) in Good(UNSCOPED, items);
  }

  lemma PlainIsClean(x: Item)
    requires Plain(x)
    ensures Accepted(UNSCOPED, x) && Clean(x) == x
  {
    assert Norm([]) == [];
  }

  const FIRST: Item := Rec(7, [], [], true, [1])
  const SECOND: Item := Rec(7, [], [], true, [2])

  /** A service with a cap of one row that holds two for one day. */
  const CAPPED: Service := Service((from: int, until: int) => OneRow(from, until), 1)

  function OneRow(from: int, until: int): seq<Item> {
    if from <= 7 <= until then [FIRST] else []
  }

  lemma DueOfBoth(from: int, until: int)
    ensures Due(UNSCOPED, {FIRST, SECOND}, from, until) == if from <= 7 <= until then {FIRST, SECOND} else {}
    ensures Good(UNSCOPED, Elements(OneRow(from, until))) == if from <= 7 <= until then {FIRST} else {}
  {
    hide Good;
    var due := Dated({FIRST, SECOND}, from, until);
    GoodOfPlain(due);
    assert due == if from <= 7 <= until then {FIRST, SECOND} else {};
    var rows := OneRow(from, until);
    assert Elements(rows) == if from <= 7 <= until then {FIRST} else {};
    GoodOfPlain(Elements(rows));
  }

  lemma CappedIsHonest()
    ensures Honest(UNSCOPED, {FIRST, SECOND}, CAPPED)
  {
    hide Good, Due, Elements;
    forall from: int, until: int
      ensures CAPPED.answer(from, until) == OneRow(from, until)
      ensures Within(UNSCOPED, {FIRST, SECOND}, OneRow(from, until), from, until)
      ensures |OneRow(from, until)| < 1 ==> Complete(UNSCOPED, {FIRST, SECOND}, OneRow(from, until), from, until)
    {
      DueOfBoth(from, until);
    }
  }

  lemma CappedCutsOff()
    ensures CutsOff(UNSCOPED, {FIRST, SECOND}, CAPPED)
  {
    hide Good, Due, Elements;
    forall from: int, until: int | |OneRow(from, until)| >= 1
      ensures CAPPED.answer(from, until) == OneRow(from, until)
      ensures !Complete(UNSCOPED, {FIRST, SECOND}, OneRow(from, until), from, until)
    {
      DueOfBoth(from, until);
      assert SECOND !in {FIRST};
    }
  }

  /** The second of two equal calls lacks a record and says nothing. */
  lemma SecondCallIsSilent()
    ensures Honest(UNSCOPED, {FIRST, SECOND}, CAPPED)
    ensures var first := Bulk(UNSCOPED, CAPPED, map[], 7, 7);
            var second := Bulk(UNSCOPED, CAPPED, first.cache, 7, 7);
            && SECOND in Due(UNSCOPED, {FIRST, SECOND}, 7, 7)
            && first.warned == [Range(7, 7)] && SECOND !in first.data
            && second.warned == [] && second.fetched == [] && SECOND !in second.data
  {
    hide Good, Due, Honest, Sanitized, Chunk;
    CappedIsHonest();
    DueOfBoth(7, 7);
    WholeStep(CAPPED, map[], 7, 7, 0);
    var first := Bulk(UNSCOPED, CAPPED, map[], 7, 7);
    SanitizedIsGood(UNSCOPED, OneRow(7, 7));
    assert OneRow(7, 7) == [FIRST] && CAPPED.answer(7, 7) == [FIRST];
    assert first.warned == [Range(7, 7)];
    assert SECOND !in Elements(first.data);
    assert first.data == Sanitized(UNSCOPED, OneRow(7, 7));
    NextBulkRepeats(UNSCOPED, CAPPED, map[], 7, 7);
  }

  /** After a call its answer is what the cache gives for the range; a cached list that held anything to
      drop is replaced by the cleaned one, and nothing else is touched. */
  lemma BulkCaches(q: Query, service: Service, cache: Cache, from: int, until: int)
    ensures var made, key := Bulk(q, service, cache, from, until), Range(from, until);
            && key in made.cache && made.data == Sanitized(q, made.cache[key])
            && (key !in cache ==> made.cache[key] == made.data)
            && (key in cache ==>
                  && made.cache.Keys == cache.Keys
                  && (forall other :: other in cache && other != key ==> made.cache[other] == cache[other])
                  && (|made.data| < |cache[key]| ==> made.cache[key] == made.data)
                  && (|made.data| == |cache[key]| ==> made.cache == cache))
  {
    hide Raw, Sanitized;
    var key := Range(from, until);
    SanitizedTwice(q, if key in cache then cache[key] else Raw(service, cache, from, until).data);
    if key in cache { SanitizedIsGood(q, cache[key]); }
  }

  // ---- the fetcher ----

  class RangeFetcher {
    var cache: Cache
    var fetched: seq<Range>
    var warned: seq<Range>

    constructor ()
      ensures cache == map[] && fetched == [] && warned == []
    {
      cache, fetched, warned := map[], [], [];
    }

    method FetchChunkWithSplit(service: Service, from: int, until: int, depth: nat) returns (data: seq<Item>)
      requires depth <= MAX_DEPTH
      modifies this
      ensures var made := Chunk(service, old(cache), from, until, depth);
              data == made.data && cache == made.cache && fetched == old(fetched) + made.fetched
                && warned == old(warned) + made.warned
      decreases MAX_DEPTH - depth
    {
      hide Chunk, Pieces, Halved;
      HalvedMeans(service, cache, from, until, depth);
      if !Halved(service, cache, from, until, depth) { WholeStep(service, cache, from, until, depth); }
      var key := Range(from, until);
      if key in cache { return cache[key]; }
      data := service.answer(from, until);
      fetched := fetched + [key];
      if data == [] {
        cache := cache[key := []];
        return;
      }
      if |data| >= service.cap && depth < MAX_DEPTH && until - from >= 2 {
        HalvedStep(service, cache, from, until, depth);
        var mid := from + (until - from) / 2;
        var left := FetchChunkWithSplit(service, from, mid, depth + 1);
        var right := FetchChunkWithSplit(service, mid + 1, until, depth + 1);
        data := left + right;
        cache := cache[key := data];
        return;
      }
      if |data| >= service.cap { warned := warned + [key]; }
      cache := cache[key := data];
    }

    method FetchBulk(q: Query, service: Service, from: int, until: int) returns (data: seq<Item>)
      modifies this
      ensures var made := Bulk(q, service, old(cache), from, until);
              data == made.data && cache == made.cache && fetched == old(fetched) + made.fetched
                && warned == old(warned) + made.warned
    {
      hide Chunk, Sanitized, Windows, Continues;
      var key := Range(from, until);
      var dropped;
      if key in cache {
        data, dropped := Sanitize(q, cache[key]);
        if dropped > 0 { cache := cache[key := data]; }
        return;
      }
      if until - from <= SHORT_DAYS {
        data := FetchChunkWithSplit(service, from, until, 0);
      } else {
        data := [];
        var start := from;
        ghost var whole := Windows(service, cache, from, until);
        AllToDo(whole, fetched, warned);
        while start <= until
          invariant start <= until + 1
          invariant Continues(Windows(service, cache, start, until), data, fetched, warned, whole, old(fetched),
                              old(warned))
          decreases until - start
        {
          WindowsStep(service, cache, start, until);
          var end := if start + CHUNK_DAYS <= until then start + CHUNK_DAYS else until;
          ghost var one := Chunk(service, cache, start, end, 0);
          OneDone(one, Windows(service, one.cache, end + 1, until), data, fetched, warned, whole, old(fetched),
                  old(warned));
          var rows := FetchChunkWithSplit(service, start, end, 0);
          data := data + rows;
          start := end + 1;
        }
        NoneToDo(service, cache, start, until, data, fetched, warned, whole, old(fetched), old(warned));
      }
      data, dropped := Sanitize(q, data);
      cache := cache[key := data];
    }
  }

  lemma HalvedMeans(service: Service, cache: Cache, from: int, until: int, depth: nat)
    ensures Halved(service, cache, from, until, depth) <==>
            Range(from, until) !in cache && service.answer(from, until) != []
            && |service.answer(from, until)| >= service.cap && depth < MAX_DEPTH && until - from >= 2
  {
  }

  /** What is done so far, followed by the rest, is the whole. */
  predicate Continues(rest: Outcome, data: seq<Item>, fetched: seq<Range>, warned: seq<Range>, whole: Outcome,
                      fetchedBefore: seq<Range>, warnedBefore: seq<Range>)
  {
    && whole.data == data + rest.data
    && whole.cache == rest.cache
    && fetchedBefore + whole.fetched == fetched + rest.fetched
    && warnedBefore + whole.warned == warned + rest.warned
  }

  lemma AllToDo(whole: Outcome, fetched: seq<Range>, warned: seq<Range>)
    ensures Continues(whole, [], fetched, warned, whole, fetched, warned)
  {
  }

  lemma OneDone(one: Outcome, rest: Outcome, data: seq<Item>, fetched: seq<Range>, warned: seq<Range>, whole: Outcome,
                fetchedBefore: seq<Range>, warnedBefore: seq<Range>)
    requires Continues(Outcome(one.data + rest.data, rest.cache, one.fetched + rest.fetched, one.warned + rest.warned),
                       data, fetched, warned, whole, fetchedBefore, warnedBefore)
    ensures Continues(rest, data + one.data, fetched + one.fetched, warned
                      + one.warned, whole, fetchedBefore, warnedBefore)
  {
    assert data + (one.data + rest.data) == data + one.data + rest.data;
    assert fetched + (one.fetched + rest.fetched) == fetched + one.fetched + rest.fetched;
    assert warned + (one.warned + rest.warned) == warned + one.warned + rest.warned;
  }

  lemma NoneToDo(service: Service, cache: Cache, start: int, until: int, data: seq<Item>, fetched: seq<Range>,
                 warned: seq<Range>, whole: Outcome, fetchedBefore: seq<Range>, warnedBefore: seq<Range>)
    requires start > until
    requires Continues(Windows(service, cache, start, until), data, fetched, warned, whole, fetchedBefore, warnedBefore)
    ensures whole.data == data && whole.cache == cache
    ensures fetchedBefore + whole.fetched == fetched && warnedBefore + whole.warned == warned
  {
  }
}

/** Every completed bar a symbol still needs for next-open fills and bracket legs: a bisected
    start and an early stop over parsed labels, against the plain filter of the whole list. */
module BarEvents {
  import opened KeyOrder
  import opened Options

  /** Four prices; None is a value that is not finite. */
  datatype Quote = Quote(open: Option<real>, high: Option<real>, low: Option<real>, close: Option<real>)

  /** A bar as the injected resolvers see it, each reading absent when it raises. */
  datatype Bar = Bar(t: Key, stamp: Option<int>, available: Option<int>, opens: Option<int>, quote: Option<Quote>)

  datatype Row = Row(t: Key, quote: Quote, opens: int, available: int)

  /** One bar list of the price data, with the identity of the list object. */
  datatype Feed = Feed(id: int, bars: seq<Bar>)

  /** A day, in seconds. */
  const DAY: int := 86400

  predicate Priced(price: Option<real>) {
    price.Some? && price.value > 0.0
  }

  /** What the simulator would refuse. */
  predicate Defective(quote: Quote, opens: int, available: int) {
    || !Priced(quote.open) || !Priced(quote.high) || !Priced(quote.low) || !Priced(quote.close)
    || quote.high.value < quote.low.value
    || available < opens
  }

  predicate Known(bar: Bar, now: int) {
    bar.available.Some? && bar.available.value <= now
  }

  /** Readable, opened in time and known by the clock. */
  predicate Timely(bar: Bar, since: int, now: int) {
    Known(bar, now) && bar.opens.Some? && bar.quote.Some? && since <= bar.opens.value
  }

  predicate Sound(bar: Bar, since: int, now: int) {
    Timely(bar, since, now) && !Defective(bar.quote.value, bar.opens.value, bar.available.value)
  }

  function RowOf(bar: Bar, since: int, now: int): (rows: seq<Row>) {
    if Sound(bar, since, now) then [Row(bar.t, bar.quote.value, bar.opens.value, bar.available.value)] else []
  }

  /** Every sound bar, in order: what the caller is promised. */
  function Wanted(bars: seq<Bar>, since: int, now: int): seq<Row> {
    if bars == [] then []
    else Wanted(bars[..|bars| - 1], since, now) + RowOf(bars[|bars| - 1], since, now)
  }

  /** The labels of the timely bars the simulator would refuse. */
  function Flawed(bars: seq<Bar>, since: int, now: int): set<Key> {
    if bars == [] then {}
    else
      var bar := bars[|bars| - 1];
      Flawed(bars[..|bars| - 1], since, now)
      + if Timely(bar, since, now) && !Sound(bar, since, now) then {bar.t} else {}
  }

  lemma {:induction false} WantedAppend(a: seq<Bar>, b: seq<Bar>, since: int, now: int)
    ensures Wanted(a + b, since, now) == Wanted(a, since, now) + Wanted(b, since, now)
    decreases |b|
  {
    hide RowOf;
    if b == [] {
      assert a + b == a;
    } else {
      assert (a + b)[..|a + b| - 1] == a + b[..|b| - 1];
      WantedAppend(a, b[..|b| - 1], since, now);
    }
  }

  lemma {:induction false} NoneWanted(bars: seq<Bar>, since: int, now: int)
    requires forall i :: 0 <= i < |bars| ==> !Sound(bars[i], since, now)
    ensures Wanted(bars, since, now) == []
    decreases |bars|
  {
    hide Sound;
    if bars != [] { NoneWanted(bars[..|bars| - 1], since, now); }
  }

  // ---- labels ----

  /** The bars whose label can be read. */
  function Stamped(bars: seq<Bar>): (stamped: seq<Bar>)
    ensures forall i :: 0 <= i < |stamped| ==> stamped[i].stamp.Some?
  {
    if bars == [] then []
    else Stamped(bars[..|bars| - 1]) + if bars[|bars| - 1].stamp.Some? then [bars[|bars| - 1]] else []
  }

  function Stamps(bars: seq<Bar>): seq<int>
    requires forall i :: 0 <= i < |bars| ==> bars[i].stamp.Some?
  {
    seq(|bars|, i requires 0 <= i < |bars| => bars[i].stamp.value)
  }

  /** Where the bars stand whose label can be read. */
  function Places(bars: seq<Bar>): (places: seq<nat>)
    ensures |places| == |Stamped(bars)|
    ensures forall i :: 0 <= i < |places| ==> places[i] < |bars| && bars[places[i]] == Stamped(bars)[i]
  {
    if bars == [] then []
    else Places(bars[..|bars| - 1]) + if bars[|bars| - 1].stamp.Some? then [|bars| - 1] else []
  }

  predicate Indexes(labels: seq<int>, index: seq<nat>, bars: seq<Bar>) {
    labels == Stamps(Stamped(bars)) && index == Places(bars)
  }

  /** The bars of a list at the places another one of its length was labelled at. */
  function Through(parsed: seq<Bar>, bars: seq<Bar>): (seen: seq<Bar>)
    requires |parsed| == |bars|
    ensures |seen| == |Stamped(parsed)|
    ensures forall i :: 0 <= i < |seen| ==> seen[i] == bars[Places(parsed)[i]]
  {
    seq(|Places(parsed)|, i requires 0 <= i < |Places(parsed)| => bars[Places(parsed)[i]])
  }

  /** The two lists carry the same labels; everything else may differ. */
  predicate SameLabels(parsed: seq<Bar>, bars: seq<Bar>) {
    |parsed| == |bars| && forall i :: 0 <= i < |bars| ==> parsed[i].stamp == bars[i].stamp
  }

  lemma {:induction false} SameLabelsSameIndex(parsed: seq<Bar>, bars: seq<Bar>)
    requires SameLabels(parsed, bars)
    ensures Places(parsed) == Places(bars) && Stamps(Stamped(parsed)) == Stamps(Stamped(bars))
    decreases |bars|
  {
    if bars != [] { SameLabelsSameIndex(parsed[..|bars| - 1], bars[..|bars| - 1]); }
  }

  lemma ThroughSameLabels(parsed: seq<Bar>, bars: seq<Bar>)
    requires SameLabels(parsed, bars)
    ensures Through(parsed, bars) == Stamped(bars)
  {
    SameLabelsSameIndex(parsed, bars);
  }

  lemma IndexesNext(labels: seq<int>, index: seq<nat>, bars: seq<Bar>, j: nat)
    requires j < |bars| && Indexes(labels, index, bars[..j])
    ensures if bars[j].stamp.Some? then Indexes(labels + [bars[j].stamp.value], index + [j], bars[..j + 1])
            else Indexes(labels, index, bars[..j + 1])
  {
    assert bars[..j + 1][..j] == bars[..j];
  }

  // ---- the bisected start and the early stop ----

  predicate Sorted(labels: seq<int>) {
    forall i, j :: 0 <= i <= j < |labels| ==> labels[i] <= labels[j]
  }

  /** The position `bisect_left` returns, sorted or not. */
  function Bisect(labels: seq<int>, x: int, lo: nat, hi: nat): (p: nat)
    requires lo <= hi <= |labels|
    ensures lo <= p <= hi
    decreases hi - lo
  {
    if lo == hi then lo
    else
      var mid := (lo + hi) / 2;
      if labels[mid] < x then Bisect(labels, x, mid + 1, hi) else Bisect(labels, x, lo, mid)
  }

  lemma {:induction false} BisectSplits(labels: seq<int>, x: int, lo: nat, hi: nat)
    requires lo <= hi <= |labels| && Sorted(labels)
    requires forall i :: 0 <= i < lo ==> labels[i] < x
    requires forall i :: hi <= i < |labels| ==> x <= labels[i]
    ensures var p := Bisect(labels, x, lo, hi);
            && (forall i :: 0 <= i < p ==> labels[i] < x)
            && (forall i :: p <= i < |labels| ==> x <= labels[i])
    decreases hi - lo
  {
    if lo < hi {
      var mid := (lo + hi) / 2;
      if labels[mid] < x {
        BisectSplits(labels, x, mid + 1, hi);
      } else {
        BisectSplits(labels, x, lo, mid);
      }
    }
  }

  method BisectLeft(labels: seq<int>, x: int) returns (lo: nat)
    ensures lo == Bisect(labels, x, 0, |labels|)
  {
    lo := 0;
    var hi := |labels|;
    while lo < hi
      invariant lo <= hi <= |labels|
      invariant Bisect(labels, x, lo, hi) == Bisect(labels, x, 0, |labels|)
    {
      var mid := (lo + hi) / 2;
      if labels[mid] < x { lo := mid + 1; } else { hi := mid; }
    }
  }

  /** Readable, but not known yet: where the scan stops. */
  predicate Future(bar: Bar, now: int) {
    bar.available.Some? && now < bar.available.value
  }

  function Until(stamped: seq<Bar>, start: nat, now: int): (stop: nat)
    requires start <= |stamped|
    ensures start <= stop <= |stamped|
    ensures forall i :: start <= i < stop ==> !Future(stamped[i], now)
    ensures stop < |stamped| ==> Future(stamped[stop], now)
    decreases |stamped| - start
  {
    if start == |stamped| || Future(stamped[start], now) then start else Until(stamped, start + 1, now)
  }

  function StartOf(stamped: seq<Bar>, since: int): (start: nat)
    requires forall i :: 0 <= i < |stamped| ==> stamped[i].stamp.Some?
    ensures start <= |stamped|
  {
    Bisect(Stamps(stamped), since - DAY, 0, |stamped|)
  }

  /** The bars one poll looks at, going by the labels of `parsed`. */
  function ExaminedBy(parsed: seq<Bar>, bars: seq<Bar>, since: int, now: int): seq<Bar>
    requires |parsed| == |bars|
  {
    var seen, start := Through(parsed, bars), StartOf(Stamped(parsed), since);
    seen[start..Until(seen, start, now)]
  }

  function CollectedBy(parsed: seq<Bar>, bars: seq<Bar>, since: int, now: int): seq<Row>
    requires |parsed| == |bars|
  {
    Wanted(ExaminedBy(parsed, bars, since, now), since, now)
  }

  /** Labels that are still those of the list make the poll that of the list as it is now. */
  lemma SameLabelsAreCurrent(parsed: seq<Bar>, bars: seq<Bar>, since: int, now: int)
    requires SameLabels(parsed, bars)
    ensures ExaminedBy(parsed, bars, since, now) == Examined(bars, since, now)
    ensures CollectedBy(parsed, bars, since, now) == Collected(bars, since, now)
  {
    hide Stamped, Bisect, Until, Wanted;
    SameLabelsSameIndex(parsed, bars);
    ThroughSameLabels(parsed, bars);
  }

  /** A bar whose label could not be read when the list was labelled stays unseen. */
  lemma StaleLabelHidesBar(parsed: Bar, bar: Bar, since: int, now: int)
    requires parsed.stamp.None? && bar.stamp.Some? && since - DAY <= bar.stamp.value && Sound(bar, since, now)
    ensures CollectedBy([parsed], [bar], since, now) == []
    ensures Collected([bar], since, now) == RowOf(bar, since, now) != []
  {
    hide Defective;
    assert [parsed][..0] == [] && [bar][..0] == [];
    assert Stamped([parsed]) == [] && Stamped([bar]) == [bar];
    assert Examined([bar], since, now) == [bar];
  }

  /** The bars one poll looks at on a list labelled as it is. */
  function Examined(bars: seq<Bar>, since: int, now: int): (examined: seq<Bar>)
    ensures forall bar :: bar in examined ==> bar in Stamped(bars)
  {
    var stamped := Stamped(bars);
    stamped[StartOf(stamped, since)..Until(stamped, StartOf(stamped, since), now)]
  }

  function Collected(bars: seq<Bar>, since: int, now: int): seq<Row> {
    Wanted(Examined(bars, since, now), since, now)
  }

  /** Labels in order, opens less than a day after their label, availability never going back. */
  predicate Regular(stamped: seq<Bar>)
    requires forall i :: 0 <= i < |stamped| ==> stamped[i].stamp.Some?
  {
    && Sorted(Stamps(stamped))
    && (forall i :: 0 <= i < |stamped| && stamped[i].opens.Some? ==>
        stamped[i].opens.value < stamped[i].stamp.value + DAY)
    && (forall i, j :: 0 <= i < j < |stamped| && stamped[i].available.Some? && stamped[j].available.Some? ==>
          stamped[i].available.value <= stamped[j].available.value)
  }

  // ---- labels of another list ----

  predicate LabelsSorted(bars: seq<Bar>) {
    Sorted(Stamps(Stamped(bars)))
  }

  const PLAIN: Quote := Quote(Some(1.0), Some(1.0), Some(1.0), Some(1.0))

  /** The labels of a list, with one bar that opens and becomes known at `at` and no other that ever
      becomes known. */
  function Lone(bars: seq<Bar>, i: nat, at: int): (lone: seq<Bar>)
    requires i < |bars|
    ensures SameLabels(bars, lone)
  {
    seq(|bars|, j requires 0 <= j < |bars| =>
      if j == i then Bar([], bars[j].stamp, Some(at), Some(at), Some(PLAIN))
      else Bar([], bars[j].stamp, None, None, None))
  }

  /** Every readable label has its place. */
  lemma {:induction false} PlaceOf(bars: seq<Bar>, i: nat) returns (k: nat)
    requires i < |bars| && bars[i].stamp.Some?
    ensures k < |Places(bars)| && Places(bars)[k] == i
    decreases |bars|
  {
    var front := bars[..|bars| - 1];
    if i == |front| { k := |Places(front)|; } else { k := PlaceOf(front, i); }
  }

  lemma {:induction false} SomeWanted(bars: seq<Bar>, since: int, now: int, k: nat)
    requires k < |bars| && Sound(bars[k], since, now)
    ensures Wanted(bars, since, now) != []
    decreases |bars|
  {
    hide Sound;
    if k < |bars| - 1 { SomeWanted(bars[..|bars| - 1], since, now, k); }
  }

  lemma LoneIsSound(bars: seq<Bar>, i: nat, at: int, j: nat)
    requires i < |bars| && j < |bars|
    ensures Sound(Lone(bars, i, at)[j], at, at) <==> j == i
    ensures !Future(Lone(bars, i, at)[j], at)
  {
  }

  /** A poll from its opening shows the lone bar exactly when the label gone by can be read and is
      not more than a day earlier. */
  lemma LoneShown(parsed: seq<Bar>, bars: seq<Bar>, i: nat, at: int)
    requires |parsed| == |bars| && i < |bars| && LabelsSorted(parsed)
    ensures CollectedBy(parsed, Lone(bars, i, at), at, at) != []
            <==> parsed[i].stamp.Some? && at - DAY <= parsed[i].stamp.value
  {
    hide Lone, Wanted, Bisect, Until, Sound, Future, Stamped, Places;
    var lone := Lone(bars, i, at);
    var seen, labels, start := Through(parsed, lone), Stamps(Stamped(parsed)), StartOf(Stamped(parsed), at);
    BisectSplits(labels, at - DAY, 0, |labels|);
    forall k | 0 <= k < |seen|
      ensures !Future(seen[k], at) && (Sound(seen[k], at, at) <==> Places(parsed)[k] == i)
      ensures parsed[Places(parsed)[k]].stamp == Some(labels[k])
    {
      LoneIsSound(bars, i, at, Places(parsed)[k]);
    }
    assert Until(seen, start, at) == |seen|;
    var rest := seen[start..];
    assert ExaminedBy(parsed, lone, at, at) == rest;
    if parsed[i].stamp.Some? && at - DAY <= parsed[i].stamp.value {
      var k := PlaceOf(parsed, i);
      assert labels[k] == parsed[i].stamp.value;
      assert start <= k;
      assert rest[k - start] == seen[k];
      SomeWanted(rest, at, at, k - start);
    } else {
      forall k | 0 <= k < |rest| ensures !Sound(rest[k], at, at) { assert rest[k] == seen[start + k]; }
      NoneWanted(rest, at, at);
    }
  }

  /** Every poll of every list with the current labels is right. */
  ghost predicate PollsCurrent(parsed: seq<Bar>, bars: seq<Bar>)
    requires |parsed| == |bars|
  {
    forall other: seq<Bar>, since: int, now: int :: SameLabels(bars, other) ==>
      CollectedBy(parsed, other, since, now) == Collected(other, since, now)
  }

  /** A label that differs makes some poll wrong: of the two label lists exactly one shows the bar. */
  lemma ChangedLabelShows(parsed: seq<Bar>, bars: seq<Bar>, i: nat) returns (other: seq<Bar>, at: int)
    requires |parsed| == |bars| && i < |bars| && parsed[i].stamp != bars[i].stamp
    requires LabelsSorted(parsed) && LabelsSorted(bars)
    ensures SameLabels(bars, other)
    ensures CollectedBy(parsed, other, at, at) == [] <==> Collected(other, at, at) != []
  {
    hide Lone, CollectedBy, Collected, LabelsSorted;
    at := if parsed[i].stamp.None? then bars[i].stamp.value
          else if bars[i].stamp.None? then parsed[i].stamp.value
          else DAY + if parsed[i].stamp.value < bars[i].stamp.value then bars[i].stamp.value else parsed[i].stamp.value;
    other := Lone(bars, i, at);
    SortedAlike(bars, other);
    LoneShown(parsed, bars, i, at);
    LoneShown(other, bars, i, at);
    SameLabelsAreCurrent(other, other, at, at);
  }

  lemma SortedAlike(bars: seq<Bar>, other: seq<Bar>)
    requires SameLabels(bars, other)
    ensures LabelsSorted(bars) == LabelsSorted(other)
  {
    hide Stamped;
    SameLabelsSameIndex(bars, other);
  }

  /** Going by labels read from another list is right for whatever the bars hold exactly when the
      labels are those of the current list. */
  lemma LabelsExact(parsed: seq<Bar>, bars: seq<Bar>)
    requires |parsed| == |bars| && LabelsSorted(parsed) && LabelsSorted(bars)
    ensures PollsCurrent(parsed, bars) <==> SameLabels(parsed, bars)
  {
    hide CollectedBy, Collected, LabelsSorted;
    if SameLabels(parsed, bars) {
      forall other: seq<Bar>, since: int, now: int | SameLabels(bars, other)
        ensures CollectedBy(parsed, other, since, now) == Collected(other, since, now)
      {
        SameLabelsAreCurrent(parsed, other, since, now);
      }
    } else {
      var i :| 0 <= i < |bars| && parsed[i].stamp != bars[i].stamp;
      var other, at := ChangedLabelShows(parsed, bars, i);
      assert CollectedBy(parsed, other, at, at) != Collected(other, at, at);
    }
  }

  /** No bar lost: on a regular list the bisected start and the early stop drop nothing. */
  lemma NoBarLost(bars: seq<Bar>, since: int, now: int)
    requires Regular(Stamped(bars))
    ensures Collected(bars, since, now) == Wanted(Stamped(bars), since, now)
  {
    hide Wanted, Stamped, Bisect, Until, Defective;
    var stamped := Stamped(bars);
    var labels := Stamps(stamped);
    var start := StartOf(stamped, since);
    var stop := Until(stamped, start, now);
    BisectSplits(labels, since - DAY, 0, |labels|);
    forall i | 0 <= i < start ensures !Sound(stamped[..start][i], since, now) {
      assert labels[i] < since - DAY;
    }
    NoneWanted(stamped[..start], since, now);
    forall i | 0 <= i < |stamped| - stop ensures !Sound(stamped[stop..][i], since, now) {
      assert Future(stamped[stop], now);
    }
    NoneWanted(stamped[stop..], since, now);
    assert stamped == stamped[..start] + stamped[start..stop] + stamped[stop..];
    WantedAppend(stamped[..start] + stamped[start..stop], stamped[stop..], since, now);
    WantedAppend(stamped[..start], stamped[start..stop], since, now);
  }

  /** On any list at all, nothing unsound or not yet known is ever returned. */
  lemma {:induction false} RowsAreSound(bars: seq<Bar>, since: int, now: int, k: nat)
    requires k < |Wanted(bars, since, now)|
    ensures var row := Wanted(bars, since, now)[k];
            && since <= row.opens <= row.available <= now
            && row.quote.open.Some? && row.quote.high.Some? && row.quote.low.Some? && row.quote.close.Some?
            && row.quote.open.value > 0.0 && row.quote.high.value > 0.0 && row.quote.low.value > 0.0
            && row.quote.close.value > 0.0 && row.quote.low.value <= row.quote.high.value
            && exists i :: 0 <= i < |bars| && RowOf(bars[i], since, now) == [row]
    decreases |bars|
  {
    if k < |Wanted(bars[..|bars| - 1], since, now)| {
      RowsAreSound(bars[..|bars| - 1], since, now, k);
      var row := Wanted(bars, since, now)[k];
      var i :| 0 <= i < |bars| - 1 && RowOf(bars[..|bars| - 1][i], since, now) == [row];
      assert bars[i] == bars[..|bars| - 1][i];
    } else {
      assert RowOf(bars[|bars| - 1], since, now) == [Wanted(bars, since, now)[k]];
    }
  }

  /** A bar gives a row exactly when its times and four positive prices can be read, it opened in time
      and before it was known, is known by the clock, and its high is not below its low; the row is the
      bar. */
  lemma RowExact(bar: Bar, since: int, now: int)
    ensures RowOf(bar, since, now) != [] <==>
            && bar.available.Some? && bar.opens.Some? && bar.quote.Some?
            && since <= bar.opens.value <= bar.available.value <= now
            && var q := bar.quote.value;
               && q.open.Some? && q.high.Some? && q.low.Some? && q.close.Some?
               && q.open.value > 0.0 && q.high.value > 0.0 && q.low.value > 0.0 && q.close.value > 0.0
               && q.low.value <= q.high.value
    ensures RowOf(bar, since, now) != [] ==>
              RowOf(bar, since, now) == [Row(bar.t, bar.quote.value, bar.opens.value, bar.available.value)]
  {
  }

  /** A bar is warned about exactly when it opened in time and is known by the clock, its quote can be
      read, and yet it gives no row. */
  lemma {:induction false} FlawedExact(bars: seq<Bar>, since: int, now: int, t: Key)
    ensures t in Flawed(bars, since, now) <==>
            exists i :: 0 <= i < |bars| && bars[i].t == t && Refused(bars[i], since, now)
    decreases |bars|
  {
    hide Defective;
    if bars != [] {
      var front, bar := bars[..|bars| - 1], bars[|bars| - 1];
      FlawedExact(front, since, now, t);
      assert forall i :: 0 <= i < |front| ==> front[i] == bars[i];
      if bar.t == t && Refused(bar, since, now) { assert Refused(bars[|front|], since, now); }
    }
  }

  predicate Refused(bar: Bar, since: int, now: int) {
    && bar.available.Some? && bar.available.value <= now && bar.opens.Some? && since <= bar.opens.value
    && bar.quote.Some?
    && RowOf(bar, since, now) == []
  }

  /** The rows that became known after an earlier clock. */
  function Since(rows: seq<Row>, earlier: int): seq<Row> {
    if rows == [] then []
    else Since(rows[..|rows| - 1], earlier) + if earlier < rows[|rows| - 1].available then [rows[|rows| - 1]] else []
  }

  lemma {:induction false} SinceAppend(a: seq<Row>, b: seq<Row>, earlier: int)
    ensures Since(a + b, earlier) == Since(a, earlier) + Since(b, earlier)
    decreases |b|
  {
    if b == [] {
      assert a + b == a;
    } else {
      assert (a + b)[..|a + b| - 1] == a + b[..|b| - 1];
      SinceAppend(a, b[..|b| - 1], earlier);
    }
  }

  /** Two clocks over one list: the later poll is the earlier one and then exactly the rows that
      became known between them. */
  lemma {:induction false} LaterClockAppends(stamped: seq<Bar>, since: int, earlier: int, now: int)
    requires earlier <= now
    requires forall i, j :: 0 <= i < j < |stamped| && stamped[i].available.Some? && stamped[j].available.Some? ==>
               stamped[i].available.value <= stamped[j].available.value
    ensures Wanted(stamped, since, now) == Wanted(stamped, since, earlier) + Since(Wanted(stamped, since, now), earlier)
    decreases |stamped|
  {
    hide RowOf, Since, Known;
    if stamped == [] {
      NoneSince(earlier);
    } else {
      var front, bar := stamped[..|stamped| - 1], stamped[|stamped| - 1];
      LaterClockAppends(front, since, earlier, now);
      SinceAppend(Wanted(front, since, now), RowOf(bar, since, now), earlier);
      SinceOfOne(bar, since, now, earlier);
      if Known(bar, earlier) {
        FrontIsKnown(stamped, earlier);
        NothingSince(front, since, earlier, now);
      }
    }
  }

  lemma NoneSince(earlier: int)
    ensures Since([], earlier) == []
  {
  }

  predicate AllKnown(bars: seq<Bar>, now: int) {
    forall i :: 0 <= i < |bars| ==> bars[i].available.None? || bars[i].available.value <= now
  }

  lemma FrontIsKnown(stamped: seq<Bar>, earlier: int)
    requires stamped != [] && Known(stamped[|stamped| - 1], earlier)
    requires forall i, j :: 0 <= i < j < |stamped| && stamped[i].available.Some? && stamped[j].available.Some? ==>
               stamped[i].available.value <= stamped[j].available.value
    ensures AllKnown(stamped[..|stamped| - 1], earlier)
  {
  }

  lemma SinceOfOne(bar: Bar, since: int, now: int, earlier: int)
    requires earlier <= now
    ensures Since(RowOf(bar, since, now), earlier) == if Known(bar, earlier) then [] else RowOf(bar, since, now)
    ensures RowOf(bar, since, earlier) == if Known(bar, earlier) then RowOf(bar, since, now) else []
  {
    hide Defective;
  }

  lemma {:induction false} NothingSince(bars: seq<Bar>, since: int, earlier: int, now: int)
    requires earlier <= now
    requires AllKnown(bars, earlier)
    ensures Since(Wanted(bars, since, now), earlier) == []
    decreases |bars|
  {
    hide Defective;
    if bars != [] {
      var front, bar := bars[..|bars| - 1], bars[|bars| - 1];
      NothingSince(front, since, earlier, now);
      SinceAppend(Wanted(front, since, now), RowOf(bar, since, now), earlier);
      SinceOfOne(bar, since, now, earlier);
    }
  }

  /** Two polls from the same time, over a list that may have grown by bars not known at the
      earlier poll, differ exactly by the bars that became known between them. */
  lemma LaterPollAppends(bars: seq<Bar>, more: seq<Bar>, since: int, earlier: int, now: int)
    requires earlier <= now
    requires Regular(Stamped(bars)) && Regular(Stamped(bars + more))
    requires forall i :: 0 <= i < |more| ==> !Known(more[i], earlier)
    ensures Collected(bars + more, since, now) ==
            Collected(bars, since, earlier) + Since(Collected(bars + more, since, now), earlier)
  {
    hide Wanted, Collected, Since, Stamped;
    NoBarLost(bars, since, earlier);
    NoBarLost(bars + more, since, now);
    LaterClockAppends(Stamped(bars + more), since, earlier, now);
    StampedAppend(bars, more);
    WantedAppend(Stamped(bars), Stamped(more), since, earlier);
    forall i | 0 <= i < |Stamped(more)| ensures !Sound(Stamped(more)[i], since, earlier) {
      StampedFrom(more, i);
    }
    NoneWanted(Stamped(more), since, earlier);
  }

  lemma {:induction false} StampedAppend(a: seq<Bar>, b: seq<Bar>)
    ensures Stamped(a + b) == Stamped(a) + Stamped(b)
    decreases |b|
  {
    if b == [] {
      assert a + b == a;
    } else {
      assert (a + b)[..|a + b| - 1] == a + b[..|b| - 1];
      StampedAppend(a, b[..|b| - 1]);
    }
  }

  lemma {:induction false} StampedFrom(bars: seq<Bar>, k: nat)
    requires k < |Stamped(bars)|
    ensures Stamped(bars)[k] in bars
    decreases |bars|
  {
    if k < |Stamped(bars[..|bars| - 1])| { StampedFrom(bars[..|bars| - 1], k); }
  }

  // ---- the module's caches ----

  datatype Entry = Entry(id: int, len: nat, labels: seq<int>, index: seq<nat>)

  datatype Warning = Warning(symbol: Key, t: Key)

  function BarsOf(data: map<Key, Feed>, symbol: Key): seq<Bar> {
    if symbol in data then data[symbol].bars else []
  }

  function Tagged(symbol: Key, ts: set<Key>): set<Warning> {
    set t | t in ts :: Warning(symbol, t)
  }

  /** The label cache with the list each entry was labelled from. */
  datatype Memo = Memo(entries: map<Key, Entry>, from: map<Key, seq<Bar>>)

  /** The list a symbol's labels come from: the cached one while identity and length are the same. */
  function ParsedFor(memo: Memo, data: map<Key, Feed>, symbol: Key): (parsed: seq<Bar>)
    ensures |parsed| == |BarsOf(data, symbol)|
  {
    if symbol in data && symbol in memo.entries && symbol in memo.from && memo.entries[symbol].id == data[symbol].id
       && |memo.from[symbol]| == |data[symbol].bars|
    then memo.from[symbol] else BarsOf(data, symbol)
  }

  /** Labels are taken from the cached list exactly while its identity and its length are those of the
      list shown. */
  lemma ParsedExact(memo: Memo, data: map<Key, Feed>, symbol: Key)
    requires symbol in data && symbol in memo.entries && symbol in memo.from
    ensures memo.entries[symbol].id == data[symbol].id && |memo.from[symbol]| == |data[symbol].bars| ==>
              ParsedFor(memo, data, symbol) == memo.from[symbol]
    ensures memo.entries[symbol].id != data[symbol].id || |memo.from[symbol]| != |data[symbol].bars| ==>
              ParsedFor(memo, data, symbol) == data[symbol].bars
  {
  }

  function RowsFor(memo: Memo, data: map<Key, Feed>, symbol: Key, since: int, now: int): seq<Row> {
    CollectedBy(ParsedFor(memo, data, symbol), BarsOf(data, symbol), since, now)
  }

  /** The symbols with at least one row, each with all its rows. */
  function Answers(memo: Memo, data: map<Key, Feed>, requirements: map<Key, int>, asked: set<Key>,
                   now: int): map<Key, seq<Row>>
    requires asked <= requirements.Keys
  {
    map symbol | symbol in asked && RowsFor(memo, data, symbol, requirements[symbol], now) != [] ::
      RowsFor(memo, data, symbol, requirements[symbol], now)
  }

  lemma AnswersAdd(memo: Memo, data: map<Key, Feed>, requirements: map<Key, int>, asked: set<Key>, symbol: Key,
                   now: int)
    requires asked <= requirements.Keys && symbol in requirements
    ensures var rows, before := RowsFor(memo, data, symbol, requirements[symbol], now),
            Answers(memo, data, requirements, asked, now);
            Answers(memo, data, requirements, asked + {symbol}, now) == if rows == [] then before
                                                                        else before[symbol := rows]
  {
    hide RowsFor;
  }

  /** The same answers from the lists as they are now. */
  function CurrentAnswers(data: map<Key, Feed>, requirements: map<Key, int>, now: int): map<Key, seq<Row>> {
    map symbol | symbol in requirements && Collected(BarsOf(data, symbol), requirements[symbol], now) != [] ::
      Collected(BarsOf(data, symbol), requirements[symbol], now)
  }

  /** No cached label has become wrong. */
  ghost predicate LabelsHold(memo: Memo, data: map<Key, Feed>, symbols: set<Key>) {
    forall symbol :: symbol in symbols ==> SameLabels(ParsedFor(memo, data, symbol), BarsOf(data, symbol))
  }

  /** While no label has changed the answers are those of the current lists, prices and availability
      read anew. */
  lemma AnswersAreCurrent(memo: Memo, data: map<Key, Feed>, requirements: map<Key, int>, now: int)
    requires LabelsHold(memo, data, requirements.Keys)
    ensures Answers(memo, data, requirements, requirements.Keys, now) == CurrentAnswers(data, requirements, now)
    ensures forall symbol :: symbol in requirements ==>
              FlawedFor(memo, data, symbol, requirements[symbol], now)
              == Flawed(Examined(BarsOf(data, symbol), requirements[symbol], now), requirements[symbol], now)
  {
    hide CollectedBy, Collected, ExaminedBy, Examined, Flawed, ParsedFor, SameLabels;
    forall symbol | symbol in requirements
      ensures RowsFor(memo, data, symbol, requirements[symbol], now)
              == Collected(BarsOf(data, symbol), requirements[symbol], now)
      ensures FlawedFor(memo, data, symbol, requirements[symbol], now)
              == Flawed(Examined(BarsOf(data, symbol), requirements[symbol], now), requirements[symbol], now)
    {
      SameLabelsAreCurrent(ParsedFor(memo, data, symbol), BarsOf(data, symbol), requirements[symbol], now);
    }
  }

  /** The same list objects with the same labels, whatever else the bars hold. */
  ghost predicate SameShape(data: map<Key, Feed>, other: map<Key, Feed>) {
    && other.Keys == data.Keys
    && forall symbol :: symbol in data ==>
         other[symbol].id == data[symbol].id && SameLabels(data[symbol].bars, other[symbol].bars)
  }

  /** Every call that requires these symbols is answered from the lists as they are now. */
  ghost predicate CallsCurrent(memo: Memo, data: map<Key, Feed>, symbols: set<Key>) {
    forall other: map<Key, Feed>, requirements: map<Key, int>, now: int ::
      SameShape(data, other) && requirements.Keys == symbols ==>
        Answers(memo, other, requirements, requirements.Keys, now) == CurrentAnswers(other, requirements, now)
  }

  ghost predicate AllLabelsSorted(memo: Memo, data: map<Key, Feed>, symbols: set<Key>) {
    forall symbol :: symbol in symbols ==>
        LabelsSorted(ParsedFor(memo, data, symbol)) && LabelsSorted(BarsOf(data, symbol))
  }

  lemma ParsedAlike(memo: Memo, data: map<Key, Feed>, other: map<Key, Feed>, symbol: Key)
    requires SameShape(data, other)
    ensures SameLabels(BarsOf(data, symbol), BarsOf(other, symbol))
    ensures SameLabels(ParsedFor(memo, data, symbol), ParsedFor(memo, other, symbol))
  {
  }

  /** Calls are answered from the current lists, whatever their bars hold, exactly when no cached
      label has changed. */
  lemma CallsExact(memo: Memo, data: map<Key, Feed>, symbols: set<Key>)
    requires AllLabelsSorted(memo, data, symbols)
    ensures CallsCurrent(memo, data, symbols) <==> LabelsHold(memo, data, symbols)
  {
    hide Answers, CurrentAnswers, ParsedFor, BarsOf, SameLabels, LabelsSorted;
    if LabelsHold(memo, data, symbols) {
      forall other: map<Key, Feed>, requirements: map<Key, int>, now: int
        | SameShape(data, other) && requirements.Keys == symbols
        ensures Answers(memo, other, requirements, requirements.Keys, now) == CurrentAnswers(other, requirements, now)
      {
        forall symbol | symbol in symbols ensures SameLabels(ParsedFor(memo, other, symbol), BarsOf(other, symbol)) {
          ParsedAlike(memo, data, other, symbol);
          LabelsChain(ParsedFor(memo, data, symbol), ParsedFor(memo, other, symbol), BarsOf(data, symbol),
                      BarsOf(other, symbol));
        }
        AnswersAreCurrent(memo, other, requirements, now);
      }
    } else {
      var symbol :| symbol in symbols && !SameLabels(ParsedFor(memo, data, symbol), BarsOf(data, symbol));
      StaleSymbol(memo, data, symbols, symbol);
    }
  }

  lemma LabelsChain(p: seq<Bar>, q: seq<Bar>, a: seq<Bar>, b: seq<Bar>)
    requires SameLabels(p, q) && SameLabels(a, b)
    ensures SameLabels(p, a) ==> SameLabels(q, b)
  {
  }

  /** A symbol with a changed label gets a wrong answer in some call. */
  lemma StaleSymbol(memo: Memo, data: map<Key, Feed>, symbols: set<Key>, symbol: Key)
    requires AllLabelsSorted(memo, data, symbols)
    requires symbol in symbols && !SameLabels(ParsedFor(memo, data, symbol), BarsOf(data, symbol))
    ensures !CallsCurrent(memo, data, symbols)
  {
    hide Answers, CurrentAnswers, LabelsSorted, CollectedBy, Collected, CallsCurrent;
    var parsed, bars := ParsedFor(memo, data, symbol), BarsOf(data, symbol);
    var i :| 0 <= i < |bars| && parsed[i].stamp != bars[i].stamp;
    var changed, at := ChangedLabelShows(parsed, bars, i);
    var other := data[symbol := Feed(data[symbol].id, changed)];
    var requirements := map s | s in symbols :: at;
    assert SameShape(data, other) by { OneFeedChanged(data, symbol, changed); }
    assert ParsedFor(memo, other, symbol) == parsed && BarsOf(other, symbol) == changed;
    AnswerOf(memo, other, requirements, symbol, at);
    NotCurrent(memo, data, symbols, other, requirements, at);
  }

  lemma OneFeedChanged(data: map<Key, Feed>, symbol: Key, bars: seq<Bar>)
    requires symbol in data && SameLabels(data[symbol].bars, bars)
    ensures SameShape(data, data[symbol := Feed(data[symbol].id, bars)])
  {
  }

  lemma AnswerOf(memo: Memo, data: map<Key, Feed>, requirements: map<Key, int>, symbol: Key, now: int)
    requires symbol in requirements
    ensures symbol in Answers(memo, data, requirements, requirements.Keys, now) <==>
            CollectedBy(ParsedFor(memo, data, symbol), BarsOf(data, symbol), requirements[symbol], now) != []
    ensures symbol in CurrentAnswers(data, requirements, now) <==>
            Collected(BarsOf(data, symbol), requirements[symbol], now) != []
  {
    hide CollectedBy, Collected;
  }

  lemma NotCurrent(memo: Memo, data: map<Key, Feed>, symbols: set<Key>, other: map<Key, Feed>,
                   requirements: map<Key, int>, now: int)
    requires SameShape(data, other) && requirements.Keys == symbols
    requires Answers(memo, other, requirements, requirements.Keys, now) != CurrentAnswers(other, requirements, now)
    ensures !CallsCurrent(memo, data, symbols)
  {
    hide Answers, CurrentAnswers, SameShape;
  }

  /** The flawed bars among those the symbols' polls look at. */
  function Complaints(memo: Memo, data: map<Key, Feed>, requirements: map<Key, int>, asked: set<Key>,
                      now: int): set<Warning>
    requires asked <= requirements.Keys
  {
    set symbol, t | symbol in asked
      && t in FlawedFor(memo, data, symbol, requirements[symbol], now) :: Warning(symbol, t)
  }

  function FlawedFor(memo: Memo, data: map<Key, Feed>, symbol: Key, since: int, now: int): set<Key> {
    Flawed(ExaminedBy(ParsedFor(memo, data, symbol), BarsOf(data, symbol), since, now), since, now)
  }

  lemma ComplaintsAdd(memo: Memo, data: map<Key, Feed>, requirements: map<Key, int>, asked: set<Key>, symbol: Key,
                      now: int)
    requires asked <= requirements.Keys && symbol in requirements
    ensures Complaints(memo, data, requirements, asked + {symbol}, now) ==
            Complaints(memo, data, requirements, asked, now)
            + Tagged(symbol, FlawedFor(memo, data, symbol, requirements[symbol], now))
  {
    hide FlawedFor;
  }

  ghost predicate LoggedOnce(log: seq<Warning>, warned: set<Warning>) {
    && (forall w :: w in warned <==> w in log)
    && forall i, j :: 0 <= i < j < |log| ==> log[i] != log[j]
  }

  class BarEventFeed {
    var labelCache: map<Key, Entry>
    var warned: set<Warning>
    /** Warnings given, in order. */
    var log: seq<Warning>
    /** The list each cached entry was parsed from. */
    ghost var parsedFrom: map<Key, seq<Bar>>

    constructor ()
      ensures Valid() && log == []
    {
      labelCache, warned, log, parsedFrom := map[], {}, [], map[];
    }

    ghost predicate Valid()
      reads this
    {
      && labelCache.Keys == parsedFrom.Keys
      && (forall symbol :: symbol in labelCache ==> EntryOk(labelCache[symbol], parsedFrom[symbol]))
      && LoggedOnce(log, warned)
    }

    ghost function Memory(): Memo
      reads this
    {
      Memo(labelCache, parsedFrom)
    }

    /** The labels and positions of the list, or those cached for its identity and length. */
    method Labels(symbol: Key, feed: Feed) returns (labels: seq<int>, index: seq<nat>)
      requires Valid()
      modifies this`labelCache, this`parsedFrom
      ensures Valid() && symbol in labelCache && symbol in parsedFrom && Indexes(labels, index, parsedFrom[symbol])
      ensures parsedFrom == old(parsedFrom)[symbol := ParsedFor(old(Memory()), map[symbol := feed], symbol)]
      ensures labelCache == old(labelCache)[symbol := Entry(feed.id, |feed.bars|, labels, index)]
    {
      hide LoggedOnce, Indexes, Stamped;
      if symbol in labelCache && labelCache[symbol].id == feed.id && labelCache[symbol].len == |feed.bars| {
        EntryIs(labelCache[symbol], parsedFrom[symbol]);
        return labelCache[symbol].labels, labelCache[symbol].index;
      }
      labels, index := [], [];
      NothingIndexed();
      for position := 0 to |feed.bars|
        invariant unchanged(this) && Indexes(labels, index, feed.bars[..position])
      {
        IndexesNext(labels, index, feed.bars, position);
        var stamp := feed.bars[position].stamp;
        if stamp.Some? {
          labels, index := labels + [stamp.value], index + [position];
        }
      }
      assert feed.bars[..|feed.bars|] == feed.bars;
      labelCache := labelCache[symbol := Entry(feed.id, |feed.bars|, labels, index)];
      parsedFrom := parsedFrom[symbol := feed.bars];
    }

    /** One symbol's rows, with a warning for each flawed bar not warned about yet. */
    method Poll(symbol: Key, bars: seq<Bar>, labels: seq<int>, index: seq<nat>, since: int, now: int,
                ghost parsed: seq<Bar>)
      returns (rows: seq<Row>)
      requires Valid() && |parsed| == |bars| && Indexes(labels, index, parsed)
      modifies this`warned, this`log
      ensures Valid()
      ensures rows == CollectedBy(parsed, bars, since, now)
      ensures warned == old(warned) + Tagged(symbol, Flawed(ExaminedBy(parsed, bars, since, now), since, now))
      ensures old(log) <= log
    {
      hide LoggedOnce, Defective, Stamped, Until, Wanted, Flawed, Bisect, Tagged;
      var start := BisectLeft(labels, since - DAY);
      ghost var stamped := Through(parsed, bars);
      ghost var stop := Until(stamped, start, now);
      rows := [];
      var k := start;
      Nothing(symbol, since, now);
      assert stamped[start..start] == [];
      while k < |index|
        invariant start <= k <= stop
        invariant rows == Wanted(stamped[start..k], since, now)
        invariant warned == old(warned) + Tagged(symbol, Flawed(stamped[start..k], since, now))
        invariant LoggedOnce(log, warned) && old(log) <= log
        invariant unchanged(this`labelCache, this`parsedFrom)
      {
        var bar := bars[index[k]];
        assert bar == stamped[k];
        if bar.available.Some? && now < bar.available.value { break; }
        OneMore(symbol, stamped, start, k, since, now);
        k := k + 1;
        if bar.available.None? || bar.opens.None? || bar.quote.None? || bar.opens.value < since { continue; }
        var quote := bar.quote.value;
        if Defective(quote, bar.opens.value, bar.available.value) {
          var key := Warning(symbol, bar.t);
          if key !in warned {
            WarnOnce(log, warned, key);
            warned, log := warned + {key}, log + [key];
          }
          continue;
        }
        rows := rows + [Row(bar.t, quote, bar.opens.value, bar.available.value)];
      }
    }

    /** Every symbol's rows; a symbol without any is absent. */
    method CollectBarEvents(data: map<Key, Feed>, requirements: map<Key, int>, now: int)
      returns (out: map<Key, seq<Row>>)
      requires Valid()
      modifies this
      ensures Valid()
      ensures out == Answers(old(Memory()), data, requirements, requirements.Keys, now)
      ensures LabelsHold(old(Memory()), data, requirements.Keys) ==> out == CurrentAnswers(data, requirements, now)
      ensures forall symbol :: ParsedFor(Memory(), data, symbol) == ParsedFor(old(Memory()), data, symbol)
      ensures old(log) <= log
      ensures warned == old(warned) + Complaints(old(Memory()), data, requirements, requirements.Keys, now)
    {
      hide LoggedOnce, EntryOk, Indexes, CollectedBy, ExaminedBy, Flawed, Answers, Tagged, Complaints, SortedKeys,
        ParsedFor;
      ghost var memo := Memory();
      var symbols := SortedKeys(requirements.Keys);
      out := map[];
      NothingAsked(memo, data, requirements, now);
      for i := 0 to |symbols|
        invariant Valid() && old(log) <= log
        invariant forall other :: ParsedFor(Memory(), data, other) == ParsedFor(memo, data, other)
        invariant out == Answers(memo, data, requirements, Asked(symbols[..i], requirements), now)
        invariant warned == old(warned) + Complaints(memo, data, requirements, Asked(symbols[..i], requirements), now)
      {
        var symbol := symbols[i];
        AskedNext(symbols, requirements, i);
        AnswersAdd(memo, data, requirements, Asked(symbols[..i], requirements), symbol, now);
        ComplaintsAdd(memo, data, requirements, Asked(symbols[..i], requirements), symbol, now);
        if symbol !in data || data[symbol].bars == [] {
          NothingCollected(memo, data, symbol, requirements[symbol], now);
          continue;
        }
        ghost var before := Memory();
        var labels, index := Labels(symbol, data[symbol]);
        LabelsKeep(before, Memory(), data, symbol, labels, index);
        var rows := Poll(symbol, data[symbol].bars, labels, index, requirements[symbol], now, parsedFrom[symbol]);
        if rows != [] { out := out[symbol := rows]; }
      }
      AskedAll(symbols, requirements);
      if LabelsHold(memo, data, requirements.Keys) { AnswersAreCurrent(memo, data, requirements, now); }
    }
  }

  /** Labelling a list does not change which list its labels come from. */
  lemma LabelsKeep(before: Memo, after: Memo, data: map<Key, Feed>, symbol: Key, labels: seq<int>, index: seq<nat>)
    requires symbol in data
    requires after.from == before.from[symbol := ParsedFor(before, map[symbol := data[symbol]], symbol)]
    requires after.entries == before.entries[symbol := Entry(data[symbol].id, |data[symbol].bars|, labels, index)]
    ensures after.from[symbol] == ParsedFor(before, data, symbol)
    ensures forall other :: ParsedFor(after, data, other) == ParsedFor(before, data, other)
  {
  }

  predicate EntryOk(entry: Entry, bars: seq<Bar>) {
    entry.len == |bars| && Indexes(entry.labels, entry.index, bars)
  }

  lemma EntryIs(entry: Entry, bars: seq<Bar>)
    requires EntryOk(entry, bars)
    ensures entry.len == |bars| && Indexes(entry.labels, entry.index, bars)
  {
  }

  lemma NothingIndexed()
    ensures Indexes([], [], [])
  {
  }

  lemma Nothing(symbol: Key, since: int, now: int)
    ensures Wanted([], since, now) == [] && Tagged(symbol, Flawed([], since, now)) == {}
  {
  }

  lemma OneMore(symbol: Key, stamped: seq<Bar>, start: nat, k: nat, since: int, now: int)
    requires start <= k < |stamped|
    ensures Wanted(stamped[start..k + 1], since, now)
            == Wanted(stamped[start..k], since, now) + RowOf(stamped[k], since, now)
    ensures var flawed := Timely(stamped[k], since, now) && !Sound(stamped[k], since, now);
            Tagged(symbol, Flawed(stamped[start..k + 1], since, now)) ==
            Tagged(symbol, Flawed(stamped[start..k], since, now)) + if flawed then {Warning(symbol, stamped[k].t)}
                                                                    else {}
  {
    hide Sound, Timely;
    assert stamped[start..k + 1][..k - start] == stamped[start..k];
  }

  lemma WarnOnce(log: seq<Warning>, warned: set<Warning>, key: Warning)
    requires LoggedOnce(log, warned) && key !in warned
    ensures LoggedOnce(log + [key], warned + {key})
  {
  }

  function Asked(symbols: seq<Key>, requirements: map<Key, int>): (asked: set<Key>)
    ensures asked <= requirements.Keys
  {
    set s | s in symbols && s in requirements
  }

  lemma AskedNext(symbols: seq<Key>, requirements: map<Key, int>, i: nat)
    requires i < |symbols| && (forall s :: s in symbols <==> s in requirements)
    ensures symbols[i] in requirements
    ensures Asked(symbols[..i + 1], requirements) == Asked(symbols[..i], requirements) + {symbols[i]}
  {
    assert symbols[..i + 1] == symbols[..i] + [symbols[i]];
  }

  lemma AskedAll(symbols: seq<Key>, requirements: map<Key, int>)
    requires forall s :: s in symbols <==> s in requirements
    ensures Asked(symbols[..|symbols|], requirements) == requirements.Keys
  {
  }

  lemma NothingAsked(memo: Memo, data: map<Key, Feed>, requirements: map<Key, int>, now: int)
    ensures Answers(memo, data, requirements, Asked([], requirements), now) == map[]
    ensures Complaints(memo, data, requirements, Asked([], requirements), now) == {}
  {
  }

  lemma NothingCollected(memo: Memo, data: map<Key, Feed>, symbol: Key, since: int, now: int)
    requires BarsOf(data, symbol) == []
    ensures RowsFor(memo, data, symbol, since, now) == []
            && Tagged(symbol, FlawedFor(memo, data, symbol, since, now)) == {}
  {
  }
}

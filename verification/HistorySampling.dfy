/** Even downsampling of a value history to a cap of points. */
module HistorySampling {
  import opened KeyOrder

  /** Python's round() of p/q: to the nearest integer, ties to the even one. */
  function RoundHalfEven(p: nat, q: nat): (k: nat)
    requires q > 0
    ensures 2 * (k * q) <= 2 * p + q
    ensures 2 * p <= 2 * (k * q) + q
  {
    var d, r := p / q, p % q;
    assert p == d * q + r;
    var k := if 2 * r < q then d else if 2 * r > q then d + 1 else if d % 2 == 0 then d else d + 1;
    assert (d + 1) * q == d * q + q;
    k
  }

  /** The one integer nearest to p/q, and of two the even one. */
  lemma RoundsToNearest(p: nat, q: nat, k: nat)
    requires q > 0
    ensures k == RoundHalfEven(p, q) <==>
            || (2 * p < 2 * (k * q) + q && 2 * (k * q) < 2 * p + q)
            || (k % 2 == 0 && (2 * p == 2 * (k * q) + q || 2 * (k * q) == 2 * p + q))
  {
    var d, r := p / q, p % q;
    assert p == d * q + r;
    NextTimes(d, q);
    if k < d { NextTimes(k, q); TimesUp(k + 1, d, q); }
    if k > d + 1 { NextTimes(d + 1, q); TimesUp(d + 2, k, q); }
  }

  lemma NextTimes(k: nat, q: nat)
    ensures (k + 1) * q == k * q + q
  {
  }

  lemma TimesUp(a: nat, b: nat, q: nat)
    requires a <= b
    ensures a * q <= b * q
  {
  }

  /** The index nearest to i evenly spaced steps from the first point. */
  function Pick(n: nat, cap: nat, i: nat): nat
    requires cap >= 2 && n >= 1
  {
    RoundHalfEven(i * (n - 1), cap - 1)
  }

  lemma MulMonotone(a: nat, b: nat, q: nat)
    requires a <= b
    ensures a * q <= b * q
  {
  }

  /** Points more than one step apart round to different integers. */
  lemma RoundStrict(p1: nat, p2: nat, q: nat)
    requires q > 0 && p2 > p1 + q
    ensures RoundHalfEven(p1, q) < RoundHalfEven(p2, q)
  {
    hide RoundHalfEven;
    var a, b := RoundHalfEven(p1, q), RoundHalfEven(p2, q);
    if b <= a { MulMonotone(b, a, q); }
  }

  lemma PickStrict(n: nat, cap: nat, i: nat)
    requires cap >= 2 && n > cap
    ensures Pick(n, cap, i) < Pick(n, cap, i + 1)
  {
    hide RoundHalfEven;
    NextStep(i, n - 1);
    RoundStrict(i * (n - 1), (i + 1) * (n - 1), cap - 1);
  }

  lemma NextStep(i: nat, m: nat)
    ensures (i + 1) * m == i * m + m
  {
  }

  lemma {:induction false} PickIncreasing(n: nat, cap: nat, i: nat, j: nat)
    requires cap >= 2 && n > cap && i < j
    ensures Pick(n, cap, i) < Pick(n, cap, j)
    decreases j - i
  {
    hide Pick;
    PickStrict(n, cap, j - 1);
    if i < j - 1 {
      PickIncreasing(n, cap, i, j - 1);
    }
  }

  lemma RoundExact(d: nat, q: nat)
    requires q > 0
    ensures RoundHalfEven(d * q, q) == d
  {
    hide RoundHalfEven;
    var k := RoundHalfEven(d * q, q);
    NextStep(d, q);
    NextStep(k, q);
    if k > d { MulMonotone(d + 1, k, q); }
    if k < d { MulMonotone(k + 1, d, q); }
  }

  lemma PickEnds(n: nat, cap: nat)
    requires cap >= 2 && n >= 1
    ensures Pick(n, cap, 0) == 0 && Pick(n, cap, cap - 1) == n - 1
  {
    hide RoundHalfEven;
    RoundExact(0, cap - 1);
    RoundExact(n - 1, cap - 1);
    assert (cap - 1) * (n - 1) == (n - 1) * (cap - 1);
  }

  lemma PickInRange(n: nat, cap: nat, i: nat)
    requires cap >= 2 && n > cap && i < cap
    ensures Pick(n, cap, i) < n
  {
    hide Pick;
    PickEnds(n, cap);
    if i < cap - 1 { PickIncreasing(n, cap, i, cap - 1); }
  }

  /** The chosen indices: collected in a set, then sorted. */
  function Indices(n: nat, cap: nat): seq<Key>
    requires cap >= 2 && n > cap
  {
    SortedKeys(set i | 0 <= i < cap :: [Pick(n, cap, i)])
  }

  function Picks(n: nat, cap: nat): (ks: seq<Key>)
    requires cap >= 2 && n > cap
    ensures |ks| == cap && forall i :: 0 <= i < cap ==> ks[i] == [Pick(n, cap, i)]
  {
    seq(cap, i requires 0 <= i < cap => [Pick(n, cap, i)])
  }

  /** No two picks coincide, so collecting and sorting changes nothing: there are exactly `cap`
      indices, from the first point to the last. */
  lemma IndicesAreThePicks(n: nat, cap: nat)
    requires cap >= 2 && n > cap
    ensures Indices(n, cap) == Picks(n, cap)
  {
    hide Pick, Picks;
    var picks := Picks(n, cap);
    forall i, j | 0 <= i < j < cap ensures Less(picks[i], picks[j]) {
      PickIncreasing(n, cap, i, j);
    }
    var chosen := set i | 0 <= i < cap :: [Pick(n, cap, i)];
    forall k ensures k in picks <==> k in chosen {
      if k in chosen {
        var i :| 0 <= i < cap && k == [Pick(n, cap, i)];
        assert picks[i] == k;
      }
    }
    AscendingUnique(Indices(n, cap), picks);
  }

  lemma DownsampleIndices(n: nat, cap: nat)
    requires cap >= 2 && n > cap
    ensures var ks := Indices(n, cap);
            && |ks| == cap && (forall i :: 0 <= i < cap ==> ks[i] == [Pick(n, cap, i)] && Pick(n, cap, i) < n)
            && Pick(n, cap, 0) == 0 && Pick(n, cap, cap - 1) == n - 1
  {
    hide Pick, Indices;
    IndicesAreThePicks(n, cap);
    PickEnds(n, cap);
    forall i | 0 <= i < cap ensures Pick(n, cap, i) < n { PickInRange(n, cap, i); }
  }

  function Downsample<T>(hist: seq<T>, cap: nat): seq<T> {
    if cap < 2 || |hist| <= cap then hist
    else
      var indices := Indices(|hist|, cap);
      seq(|indices|, i requires 0 <= i < |indices| => Entry(hist, indices[i]))
  }

  function Entry<T>(hist: seq<T>, index: Key): T
    requires |hist| > 0
  {
    if |index| == 1 && 0 <= index[0] < |hist| then hist[index[0]] else hist[0]
  }

  /** A long history is cut to exactly `cap` points, its own first and last among them, each
      the point nearest to its even share of the way. */
  lemma DownsampleShape<T>(hist: seq<T>, cap: nat)
    requires cap >= 2 && |hist| > cap
    ensures var r := Downsample(hist, cap);
            && |r| == cap && r[0] == hist[0] && r[cap - 1] == hist[|hist| - 1]
            && forall i :: 0 <= i < cap ==> Pick(|hist|, cap, i) < |hist| && r[i] == hist[Pick(|hist|, cap, i)]
  {
    hide Pick, Indices;
    DownsampleIndices(|hist|, cap);
  }

  /** Order is kept: later picks come from later points. */
  lemma DownsampleKeepsOrder<T>(hist: seq<T>, cap: nat, i: nat, j: nat)
    requires cap >= 2 && |hist| > cap && i < j < cap
    ensures var r := Downsample(hist, cap);
            j < |r| && exists a, b :: 0 <= a < b < |hist| && r[i] == hist[a] && r[j] == hist[b]
  {
    hide Pick, Downsample;
    DownsampleShape(hist, cap);
    PickIncreasing(|hist|, cap, i, j);
    var a, b := Pick(|hist|, cap, i), Pick(|hist|, cap, j);
    assert Downsample(hist, cap)[i] == hist[a] && Downsample(hist, cap)[j] == hist[b];
  }
}

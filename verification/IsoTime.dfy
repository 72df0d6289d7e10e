/** Canonical UTC timestamps as texts. The replay store compares point-in-time stamps as texts;
    this module says exactly when that is the order of the instants. */
module IsoTime {
  import opened KeyOrder
  import ReplayModel

  const DOT := 46
  const ZED := 90
  const ZERO := 48

  /** An instant: its text to the second, always the same length, and its microseconds. */
  datatype Stamp = Stamp(second: Key, micros: nat)

  predicate Wellformed(t: Stamp) {
    |t.second| == 19 && t.micros < 1_000_000
  }

  function Digits(width: nat, n: nat): (d: Key)
    ensures |d| == width
  {
    if width == 0 then [] else Digits(width - 1, n / 10) + [ZERO + n % 10]
  }

  /** ISO-8601 drops the fraction when it is zero. */
  function Render(t: Stamp): Key {
    t.second + (if t.micros == 0 then [] else [DOT] + Digits(6, t.micros)) + [ZED]
  }

  predicate Before(a: Stamp, b: Stamp) {
    Less(a.second, b.second) || (a.second == b.second && a.micros < b.micros)
  }

  /** After prefixes of equal length the comparison continues with the rests. */
  lemma {:induction false} LessAfterPrefix(p: Key, q: Key, x: Key, y: Key)
    requires |p| == |q|
    ensures Less(p + x, q + y) <==> Less(p, q) || (p == q && Less(x, y))
    decreases |p|
  {
    if p == [] {
      assert p + x == x && q + y == y;
      LessIrreflexive(p);
    } else {
      assert (p + x)[1..] == p[1..] + x && (q + y)[1..] == q[1..] + y;
      LessAfterPrefix(p[1..], q[1..], x, y);
      assert p == [p[0]] + p[1..] && q == [q[0]] + q[1..];
    }
  }

  function Pow10(w: nat): (r: nat)
    ensures r > 0
  {
    if w == 0 then 1 else 10 * Pow10(w - 1)
  }

  /** Digit strings of one width compare as the numbers they write. */
  lemma {:induction false} DigitsOrder(width: nat, m: nat, n: nat)
    requires m < Pow10(width) && n < Pow10(width)
    ensures Less(Digits(width, m), Digits(width, n)) <==> m < n
    ensures Digits(width, m) == Digits(width, n) <==> m == n
    decreases width
  {
    if width > 0 {
      var p, q := Digits(width - 1, m / 10), Digits(width - 1, n / 10);
      DigitsOrder(width - 1, m / 10, n / 10);
      LessAfterPrefix(p, q, [ZERO + m % 10], [ZERO + n % 10]);
      assert Digits(width, m)[..width - 1] == p && Digits(width, n)[..width - 1] == q;
      assert Digits(width, m)[width - 1] == ZERO + m % 10 && Digits(width, n)[width - 1] == ZERO + n % 10;
    }
  }

  /** Text order is time order, except that within one second a stamp with a fraction sorts
      before the whole second it comes after. */
  lemma TextOrderIsTimeOrder(a: Stamp, b: Stamp)
    requires Wellformed(a) && Wellformed(b)
    ensures Less(Render(a), Render(b))
            <==> (if a.second == b.second && (a.micros == 0) != (b.micros == 0) then b.micros == 0 else Before(a, b))
  {
    var x := (if a.micros == 0 then [] else [DOT] + Digits(6, a.micros)) + [ZED];
    var y := (if b.micros == 0 then [] else [DOT] + Digits(6, b.micros)) + [ZED];
    assert Render(a) == a.second + x && Render(b) == b.second + y;
    LessAfterPrefix(a.second, b.second, x, y);
    LessIrreflexive(a.second);
    if a.micros != 0 && b.micros != 0 {
      assert Pow10(6) == 1_000_000;
      DigitsOrder(6, a.micros, b.micros);
      assert x == ([DOT] + Digits(6, a.micros)) + [ZED] && y == ([DOT] + Digits(6, b.micros)) + [ZED];
      LessAfterPrefix([DOT] + Digits(6, a.micros), [DOT] + Digits(6, b.micros), [ZED], [ZED]);
      LessAfterPrefix([DOT], [DOT], Digits(6, a.micros), Digits(6, b.micros));
      LessIrreflexive([ZED]);
      LessIrreflexive([DOT]);
    } else if a.micros == 0 && b.micros == 0 {
      LessIrreflexive([ZED]);
    } else if a.micros == 0 {
      assert x == [ZED] && y[0] == DOT;
    } else {
      assert y == [ZED] && x[0] == DOT;
    }
  }

  /** "At or before", as the replay store decides it, is right exactly outside that case. */
  lemma AsOfCheckExact(asOf: Stamp, decision: Stamp)
    requires Wellformed(asOf) && Wellformed(decision)
    ensures (ReplayModel.AtMost(Render(asOf), Render(decision)) <==> !Before(decision, asOf))
            <==> !(asOf.second == decision.second && (asOf.micros == 0) != (decision.micros == 0))
  {
    TextOrderIsTimeOrder(decision, asOf);
    LessIrreflexive(asOf.second);
  }

  /** Half a second after a decision on the whole second still counts as "at or before" it. */
  lemma FractionSlipsThrough(second: Key)
    requires |second| == 19
    ensures var decision, asOf := Stamp(second, 0), Stamp(second, 500_000);
            Before(decision, asOf) && ReplayModel.AtMost(Render(asOf), Render(decision))
  {
    TextOrderIsTimeOrder(Stamp(second, 0), Stamp(second, 500_000));
  }
}

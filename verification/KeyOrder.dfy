/** Texts as sequences of code points, their lexicographic order, and the ascending
    enumeration of a finite set of them. Python's `sorted` over a set of strings (or of
    tuples of dates, encoded as pairs of day numbers) is this enumeration. */
module KeyOrder {

  /** A string as its code points, or any tuple of integers compared position by position. */
  type Key = seq<int>

  /** A literal as code points. */
  function Text(s: string): Key {
    seq(|s|, i requires 0 <= i < |s| => s[i] as int)
  }

  /** Strict lexicographic order: a proper prefix comes first. */
  predicate Less(a: Key, b: Key)
    decreases |a|
  {
    b != [] && (a == [] || a[0] < b[0] || (a[0] == b[0] && Less(a[1..], b[1..])))
  }

  lemma {:induction false} LessIrreflexive(a: Key)
    ensures !Less(a, a)
    decreases |a|
  {
    if a != [] {
      LessIrreflexive(a[1..]);
    }
  }

  lemma {:induction false} LessTransitive(a: Key, b: Key, c: Key)
    requires Less(a, b) && Less(b, c)
    ensures Less(a, c)
    decreases |a|
  {
    if a != [] && a[0] == b[0] == c[0] {
      LessTransitive(a[1..], b[1..], c[1..]);
    }
  }

  lemma {:induction false} LessTotal(a: Key, b: Key)
    ensures a == b || Less(a, b) || Less(b, a)
    decreases |a|
  {
    if a == [] || b == [] {
    } else if a[0] == b[0] {
      LessTotal(a[1..], b[1..]);
      assert a == [a[0]] + a[1..] && b == [b[0]] + b[1..];
    }
  }

  lemma LessAsymmetric(a: Key, b: Key)
    requires Less(a, b)
    ensures !Less(b, a)
  {
    if Less(b, a) {
      LessTransitive(a, b, a);
      LessIrreflexive(a);
    }
  }

  predicate IsLeast(m: Key, s: set<Key>) {
    m in s && forall k :: k in s ==> k == m || Less(m, k)
  }

  lemma {:induction false} LeastExists(s: set<Key>)
    requires s != {}
    ensures exists m :: IsLeast(m, s)
    decreases |s|
  {
    var x :| x in s;
    var rest := s - {x};
    if rest == {} {
      assert s == {x};
      assert IsLeast(x, s);
    } else {
      LeastExists(rest);
      var m :| IsLeast(m, rest);
      LessTotal(x, m);
      if Less(m, x) {
        assert IsLeast(m, s);
      } else {
        forall k | k in s ensures k == x || Less(x, k) {
          if k != x && k != m { LessTransitive(x, m, k); }
        }
        assert IsLeast(x, s);
      }
    }
  }

  lemma LeastUnique(a: Key, b: Key, s: set<Key>)
    requires IsLeast(a, s) && IsLeast(b, s)
    ensures a == b
  {
    if a != b { LessAsymmetric(a, b); }
  }

  function Least(s: set<Key>): (m: Key)
    requires s != {}
    ensures IsLeast(m, s)
  {
    LeastExists(s);
    assert forall a, b | IsLeast(a, s) && IsLeast(b, s) :: a == b by {
      forall a, b | IsLeast(a, s) && IsLeast(b, s) ensures a == b { LeastUnique(a, b, s); }
    }
    var m :| m in s && IsLeast(m, s);
    m
  }

  predicate Ascending(ks: seq<Key>) {
    forall i, j :: 0 <= i < j < |ks| ==> Less(ks[i], ks[j])
  }

  /** The elements of s, smallest first. */
  function SortedKeys(s: set<Key>): (ks: seq<Key>)
    ensures Ascending(ks)
    ensures forall k :: k in ks <==> k in s
    ensures |ks| == |s|
    decreases |s|
  {
    if s == {} then []
    else
      var m := Least(s);
      var rest := SortedKeys(s - {m});
      assert forall i :: 0 <= i < |rest| ==> rest[i] in s - {m};
      [m] + rest
  }

  lemma FirstIsMember(s: seq<Key>)
    ensures s == [] || s[0] in s
  {
  }

  /** An ascending sequence is determined by its elements. */
  lemma {:induction false} AscendingUnique(xs: seq<Key>, ys: seq<Key>)
    requires Ascending(xs) && Ascending(ys)
    requires forall k :: k in xs <==> k in ys
    ensures xs == ys
    decreases |xs|
  {
    FirstIsMember(xs);
    FirstIsMember(ys);
    if xs != [] && ys != [] {
      assert xs[0] in ys;
      assert ys[0] in xs;
      if xs[0] != ys[0] {
        var i :| 0 <= i < |ys| && ys[i] == xs[0];
        var j :| 0 <= j < |xs| && xs[j] == ys[0];
        LessAsymmetric(xs[0], ys[0]);
      }
      forall k ensures k in xs[1..] <==> k in ys[1..] {
        LessIrreflexive(xs[0]);
        assert k in xs <==> k == xs[0] || k in xs[1..];
        assert k in ys <==> k == ys[0] || k in ys[1..];
      }
      AscendingUnique(xs[1..], ys[1..]);
    }
  }

  /** Sorting a down-closed part of a set gives a prefix of sorting the whole set. */
  lemma SortedPrefix(part: set<Key>, whole: set<Key>)
    requires part <= whole
    requires forall a, b :: a in part && b in whole - part ==> Less(a, b)
    ensures SortedKeys(part) <= SortedKeys(whole)
    ensures SortedKeys(whole)[|part|..] == SortedKeys(whole - part)
  {
    var xs, ys := SortedKeys(part), SortedKeys(whole - part);
    forall i, j | 0 <= i < j < |xs + ys| ensures Less((xs + ys)[i], (xs + ys)[j]) {
      if i < |xs| <= j {
        assert xs[i] in part && ys[j - |xs|] in whole - part;
      }
    }
    AscendingUnique(xs + ys, SortedKeys(whole));
  }
}

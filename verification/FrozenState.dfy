/** The frozen paired-state contract: the tree difference with its cut-off, the one allowed
    treatment, the order-free hash of a table's rows, and the content-addressed manifest. */
module FrozenState {
  import opened JsonTree
  import opened KeyOrder
  import opened Options

  const FROZEN: Limits := Limits(2_000_000, 16 * 1024 * 1024, 100, 4 * 1024 * 1024, 256, false, None)
  const MAX_ROWS: nat := 2_000_000

  // ---- differences ----

  datatype Seg = Field(k: Key) | Index(i: nat)

  type Path = seq<Seg>

  /** One difference; Null stands for an absent field. */
  datatype Change = Change(path: Path, left: Json, right: Json)

  function Below(path: Path, changes: seq<Change>): (r: seq<Change>)
    ensures |r| == |changes|
    ensures forall i :: 0 <= i < |r| ==> r[i] == changes[i].(path := path + changes[i].path)
  {
    seq(|changes|, i requires 0 <= i < |changes| => changes[i].(path := path + changes[i].path))
  }

  /** Every difference of two trees, in key order, with paths from the root. */
  function Changes(l: Json, r: Json): seq<Change>
    decreases l, 1, 0
  {
    if l.Obj? && r.Obj? then FieldChanges(l, r, SortedKeys(l.fields.Keys + r.fields.Keys))
    else if l.Arr? && r.Arr? && |l.items| == |r.items| then ItemChanges(l, r, |l.items|)
    else if l == r then []
    else [Change([], l, r)]
  }

  function FieldChange(l: Json, r: Json, k: Key): seq<Change>
    requires l.Obj? && r.Obj? && k in l.fields.Keys + r.fields.Keys
    decreases l, 0, 0
  {
    if k !in l.fields then [Change([Field(k)], Null, r.fields[k])]
    else if k !in r.fields then [Change([Field(k)], l.fields[k], Null)]
    else Below([Field(k)], Changes(l.fields[k], r.fields[k]))
  }

  function FieldChanges(l: Json, r: Json, ks: seq<Key>): seq<Change>
    requires l.Obj? && r.Obj? && forall i :: 0 <= i < |ks| ==> ks[i] in l.fields.Keys + r.fields.Keys
    decreases l, 0, 1 + |ks|
  {
    if ks == [] then [] else FieldChanges(l, r, ks[..|ks| - 1]) + FieldChange(l, r, ks[|ks| - 1])
  }

  function ItemChanges(l: Json, r: Json, n: nat): seq<Change>
    requires l.Arr? && r.Arr? && n <= |l.items| && n <= |r.items|
    decreases l, 0, 1 + n
  {
    if n == 0 then []
    else ItemChanges(l, r, n - 1) + Below([Index(n - 1)], Changes(l.items[n - 1], r.items[n - 1]))
  }

  lemma BelowEmpty(path: Path, changes: seq<Change>)
    ensures Below(path, changes) == [] <==> changes == []
  {
  }

  /** There is no difference exactly when the trees are equal. */
  lemma {:induction false} NoChangesIffEqual(l: Json, r: Json)
    ensures Changes(l, r) == [] <==> l == r
    decreases l, 1, 0
  {
    hide SortedKeys, FieldChanges, ItemChanges;
    if l.Obj? && r.Obj? {
      NoFieldChanges(l, r, SortedKeys(l.fields.Keys + r.fields.Keys));
      EqualFields(l, r, SortedKeys(l.fields.Keys + r.fields.Keys));
    } else if l.Arr? && r.Arr? && |l.items| == |r.items| {
      NoItemChanges(l, r, |l.items|);
      SameItems(l, r);
    }
  }

  predicate SameField(l: Json, r: Json, k: Key)
    requires l.Obj? && r.Obj?
  {
    k in l.fields && k in r.fields && l.fields[k] == r.fields[k]
  }

  lemma EqualFields(l: Json, r: Json, ks: seq<Key>)
    requires l.Obj? && r.Obj? && forall k :: k in ks <==> k in l.fields.Keys + r.fields.Keys
    ensures l == r <==> forall k :: k in ks ==> SameField(l, r, k)
  {
    if forall k :: k in ks ==> SameField(l, r, k) {
      forall k ensures k in l.fields <==> k in r.fields {
        assert k in l.fields.Keys + r.fields.Keys ==> SameField(l, r, k);
      }
      assert l.fields.Keys == r.fields.Keys;
      forall k | k in l.fields ensures l.fields[k] == r.fields[k] { assert SameField(l, r, k); }
      SameFields(l, r);
    }
  }

  lemma {:induction false} NoFieldChanges(l: Json, r: Json, ks: seq<Key>)
    requires l.Obj? && r.Obj? && forall i :: 0 <= i < |ks| ==> ks[i] in l.fields.Keys + r.fields.Keys
    ensures FieldChanges(l, r, ks) == [] <==> forall k :: k in ks ==> SameField(l, r, k)
    decreases l, 0, 1 + |ks|
  {
    hide Changes;
    if ks != [] {
      var front, k := ks[..|ks| - 1], ks[|ks| - 1];
      assert ks == front + [k];
      NoFieldChanges(l, r, front);
      NoFieldChange(l, r, k);
    }
  }

  lemma {:induction false} NoFieldChange(l: Json, r: Json, k: Key)
    requires l.Obj? && r.Obj? && k in l.fields.Keys + r.fields.Keys
    ensures FieldChange(l, r, k) == [] <==> SameField(l, r, k)
    decreases l, 0, 0
  {
    hide Changes;
    if k in l.fields && k in r.fields {
      NoChangesIffEqual(l.fields[k], r.fields[k]);
      BelowEmpty([Field(k)], Changes(l.fields[k], r.fields[k]));
    }
  }

  lemma {:induction false} NoItemChanges(l: Json, r: Json, n: nat)
    requires l.Arr? && r.Arr? && n <= |l.items| && n <= |r.items|
    ensures ItemChanges(l, r, n) == [] <==> forall i :: 0 <= i < n ==> l.items[i] == r.items[i]
    decreases l, 0, 1 + n
  {
    hide Changes;
    if n > 0 {
      NoItemChanges(l, r, n - 1);
      NoChangesIffEqual(l.items[n - 1], r.items[n - 1]);
      BelowEmpty([Index(n - 1)], Changes(l.items[n - 1], r.items[n - 1]));
    }
  }

  // ---- one difference ----

  function Get(v: Json, path: Path): Option<Json>
    decreases |path|
  {
    if path == [] then Some(v)
    else if path[0].Field? && v.Obj? && path[0].k in v.fields then Get(v.fields[path[0].k], path[1..])
    else if path[0].Index? && v.Arr? && path[0].i < |v.items| then Get(v.items[path[0].i], path[1..])
    else None
  }

  /** The tree with the value at an existing path replaced. */
  function Put(v: Json, path: Path, x: Json): Json
    decreases |path|
  {
    if path == [] then x
    else if path[0].Field? && v.Obj? && path[0].k in v.fields then
      Obj(v.fields[path[0].k := Put(v.fields[path[0].k], path[1..], x)])
    else if path[0].Index? && v.Arr? && path[0].i < |v.items| then
      Arr(v.items[path[0].i := Put(v.items[path[0].i], path[1..], x)])
    else v
  }

  /** The only difference is at the path, where a value gives way to another. */
  predicate Replaced(l: Json, r: Json, c: Change) {
    Get(l, c.path) == Some(c.left) && r == Put(l, c.path, c.right)
  }

  lemma {:induction false} OneFieldChange(l: Json, r: Json, ks: seq<Key>) returns (j: nat)
    requires l.Obj? && r.Obj? && forall i :: 0 <= i < |ks| ==> ks[i] in l.fields.Keys + r.fields.Keys
    requires |FieldChanges(l, r, ks)| == 1
    ensures j < |ks| && FieldChange(l, r, ks[j]) == FieldChanges(l, r, ks)
    ensures forall i :: 0 <= i < |ks| && i != j ==> FieldChange(l, r, ks[i]) == []
    decreases |ks|
  {
    hide FieldChange;
    var front, k := ks[..|ks| - 1], ks[|ks| - 1];
    assert forall i :: 0 <= i < |front| ==> ks[i] == front[i];
    if FieldChange(l, r, k) == [] {
      j := OneFieldChange(l, r, front);
    } else {
      j := |ks| - 1;
      assert FieldChanges(l, r, front) == [];
      NoFieldChanges(l, r, front);
      forall i | 0 <= i < |front| ensures FieldChange(l, r, front[i]) == [] { NoFieldChange(l, r, front[i]); }
    }
  }

  lemma {:induction false} OneItemChange(l: Json, r: Json, n: nat) returns (j: nat)
    requires l.Arr? && r.Arr? && n <= |l.items| && n <= |r.items|
    requires |ItemChanges(l, r, n)| == 1
    ensures j < n && Below([Index(j)], Changes(l.items[j], r.items[j])) == ItemChanges(l, r, n)
    ensures forall i :: 0 <= i < n && i != j ==> l.items[i] == r.items[i]
    decreases n
  {
    hide Changes, Below, ItemChanges;
    ItemsNext(l, r, n);
    var front, last := ItemChanges(l, r, n - 1), Below([Index(n - 1)], Changes(l.items[n - 1], r.items[n - 1]));
    if last == [] {
      assert front + last == front;
      j := OneItemChange(l, r, n - 1);
    } else {
      j := n - 1;
      assert front == [] && front + last == last;
      NoItemChanges(l, r, n - 1);
    }
  }

  lemma ItemsNext(l: Json, r: Json, n: nat)
    requires l.Arr? && r.Arr? && n <= |l.items| && n <= |r.items|
    ensures n == 0 ==> ItemChanges(l, r, n) == []
    ensures n > 0 ==>
              ItemChanges(l, r, n)
                == ItemChanges(l, r, n - 1) + Below([Index(n - 1)], Changes(l.items[n - 1], r.items[n - 1]))
    ensures n > 0 && Below([Index(n - 1)], Changes(l.items[n - 1], r.items[n - 1])) == [] ==>
              l.items[n - 1] == r.items[n - 1]
  {
    hide Changes;
    if n > 0 {
      NoChangesIffEqual(l.items[n - 1], r.items[n - 1]);
      BelowEmpty([Index(n - 1)], Changes(l.items[n - 1], r.items[n - 1]));
    }
  }

  /** A single difference between two present values says how to get one tree from the other. */
  lemma {:induction false} OneChangeReplaces(l: Json, r: Json)
    requires |Changes(l, r)| == 1
    requires Changes(l, r)[0].left != Null && Changes(l, r)[0].right != Null
    ensures Replaced(l, r, Changes(l, r)[0])
    decreases l
  {
    hide FieldChanges, ItemChanges, SortedKeys;
    if l.Obj? && r.Obj? {
      var ks := SortedKeys(l.fields.Keys + r.fields.Keys);
      var j := OneFieldChange(l, r, ks);
      assert FieldChange(l, r, ks[j])[0].left != Null;
      OnlyFieldDiffers(l, r, ks, j);
      OneChangeReplaces(l.fields[ks[j]], r.fields[ks[j]]);
      ReplacedBelowField(l, r, ks[j], Changes(l.fields[ks[j]], r.fields[ks[j]])[0]);
    } else if l.Arr? && r.Arr? && |l.items| == |r.items| {
      var j := OneItemChange(l, r, |l.items|);
      OneChangeReplaces(l.items[j], r.items[j]);
      ReplacedBelowItem(l, r, j, Changes(l.items[j], r.items[j])[0]);
    }
  }

  lemma OnlyFieldDiffers(l: Json, r: Json, ks: seq<Key>, j: nat)
    requires l.Obj? && r.Obj? && (forall k :: k in ks <==> k in l.fields.Keys + r.fields.Keys) && j < |ks|
    requires |FieldChange(l, r, ks[j])| == 1
    requires FieldChange(l, r, ks[j])[0].left != Null && FieldChange(l, r, ks[j])[0].right != Null
    requires forall i :: 0 <= i < |ks| && i != j ==> FieldChange(l, r, ks[i]) == []
    ensures ks[j] in l.fields && ks[j] in r.fields && r.fields == l.fields[ks[j] := r.fields[ks[j]]]
    ensures FieldChange(l, r, ks[j]) == Below([Field(ks[j])], Changes(l.fields[ks[j]], r.fields[ks[j]]))
  {
    hide Changes;
    var k := ks[j];
    forall other | other in l.fields.Keys + r.fields.Keys && other != k ensures SameField(l, r, other) {
      assert other in ks;
      NoFieldChange(l, r, other);
    }
    forall other ensures other in l.fields <==> other in r.fields {
      assert other in l.fields.Keys + r.fields.Keys && other != k ==> SameField(l, r, other);
    }
    forall other | other in r.fields && other != k ensures r.fields[other] == l.fields[other] {
      assert SameField(l, r, other);
    }
    assert r.fields == l.fields[k := r.fields[k]];
  }

  lemma ReplacedBelowField(l: Json, r: Json, k: Key, c: Change)
    requires l.Obj? && r.Obj? && k in l.fields && k in r.fields && r.fields == l.fields[k := r.fields[k]]
    requires Replaced(l.fields[k], r.fields[k], c)
    ensures Replaced(l, r, c.(path := [Field(k)] + c.path))
  {
    assert ([Field(k)] + c.path)[1..] == c.path;
  }

  lemma ReplacedBelowItem(l: Json, r: Json, j: nat, c: Change)
    requires l.Arr? && r.Arr? && |l.items| == |r.items| && j < |l.items|
    requires forall i :: 0 <= i < |l.items| && i != j ==> l.items[i] == r.items[i]
    requires Replaced(l.items[j], r.items[j], c)
    ensures Replaced(l, r, c.(path := [Index(j)] + c.path))
  {
    assert ([Index(j)] + c.path)[1..] == c.path;
    assert r.items == l.items[j := r.items[j]];
  }

  lemma {:induction false} OnlyFieldChange(l: Json, r: Json, ks: seq<Key>, j: nat)
    requires l.Obj? && r.Obj? && forall i :: 0 <= i < |ks| ==> ks[i] in l.fields.Keys + r.fields.Keys
    requires j < |ks| && forall i :: 0 <= i < |ks| && i != j ==> FieldChange(l, r, ks[i]) == []
    ensures FieldChanges(l, r, ks) == FieldChange(l, r, ks[j])
    decreases |ks|
  {
    hide FieldChange;
    var front, k := ks[..|ks| - 1], ks[|ks| - 1];
    assert forall i :: 0 <= i < |front| ==> ks[i] == front[i];
    if j == |ks| - 1 {
      NoFieldChanges(l, r, front);
      forall i | 0 <= i < |front| ensures SameField(l, r, front[i]) { NoFieldChange(l, r, front[i]); }
    } else {
      OnlyFieldChange(l, r, front, j);
      assert FieldChange(l, r, ks[|ks| - 1]) == [];
    }
  }

  lemma {:induction false} OnlyItemChange(l: Json, r: Json, n: nat, j: nat)
    requires l.Arr? && r.Arr? && n <= |l.items| && n <= |r.items| && j < n
    requires forall i :: 0 <= i < n && i != j ==> l.items[i] == r.items[i]
    ensures ItemChanges(l, r, n) == Below([Index(j)], Changes(l.items[j], r.items[j]))
    decreases n
  {
    hide Changes;
    if j == n - 1 {
      NoItemChanges(l, r, n - 1);
    } else {
      OnlyItemChange(l, r, n - 1, j);
      NoChangesIffEqual(l.items[n - 1], r.items[n - 1]);
    }
  }

  /** Replacing one value by another that is no object or list makes exactly that difference. */
  lemma {:induction false} ReplacingIsOneChange(l: Json, c: Change)
    requires Get(l, c.path) == Some(c.left) && c.left != c.right
    requires !c.right.Obj? && !c.right.Arr?
    ensures Changes(l, Put(l, c.path, c.right)) == [c]
    decreases |c.path|
  {
    hide FieldChanges, ItemChanges, SortedKeys;
    if c.path == [] {
    } else if c.path[0].Field? {
      ReplacingInField(l, c);
    } else {
      ReplacingInItem(l, c);
    }
  }

  lemma {:induction false} ReplacingInField(l: Json, c: Change)
    requires Get(l, c.path) == Some(c.left) && c.left != c.right
    requires !c.right.Obj? && !c.right.Arr? && c.path != [] && c.path[0].Field?
    ensures Changes(l, Put(l, c.path, c.right)) == [c]
    decreases |c.path|, 0
  {
    hide FieldChanges, FieldChange, Changes, SortedKeys, Get, Put;
    var k, r := c.path[0].k, Put(l, c.path, c.right);
    var inner := c.(path := c.path[1..]);
    BelowStep(l, c);
    ReplacingIsOneChange(l.fields[k], inner);
    var ks := SortedKeys(l.fields.Keys + r.fields.Keys);
    assert k in ks;
    var j :| 0 <= j < |ks| && ks[j] == k;
    forall i | 0 <= i < |ks| && i != j ensures FieldChange(l, r, ks[i]) == [] {
      AscendingDistinct(ks, i, j);
      assert ks[i] in ks;
      NoFieldChange(l, r, ks[i]);
    }
    OnlyFieldChange(l, r, ks, j);
    ChangesOfObjects(l, r, k);
    BelowOne(Field(k), inner, c);
  }

  lemma ChangesOfObjects(l: Json, r: Json, k: Key)
    requires l.Obj? && r.Obj? && k in l.fields && k in r.fields
    ensures Changes(l, r) == FieldChanges(l, r, SortedKeys(l.fields.Keys + r.fields.Keys))
    ensures FieldChange(l, r, k) == Below([Field(k)], Changes(l.fields[k], r.fields[k]))
  {
    hide FieldChanges, SortedKeys;
  }

  lemma BelowOne(seg: Seg, inner: Change, c: Change)
    requires c.path != [] && c.path[0] == seg && inner == c.(path := c.path[1..])
    ensures Below([seg], [inner]) == [c]
  {
    assert [seg] + inner.path == c.path;
  }

  /** One step into the tree along the path of a change. */
  lemma BelowStep(l: Json, c: Change)
    requires c.path != [] && Get(l, c.path) == Some(c.left)
    ensures var r := Put(l, c.path, c.right);
            if c.path[0].Field? then
              && l.Obj? && r.Obj? && c.path[0].k in l.fields
              && Get(l.fields[c.path[0].k], c.path[1..]) == Some(c.left)
              && r.fields == l.fields[c.path[0].k := Put(l.fields[c.path[0].k], c.path[1..], c.right)]
            else
              && l.Arr? && r.Arr? && c.path[0].i < |l.items|
              && Get(l.items[c.path[0].i], c.path[1..]) == Some(c.left)
              && r.items == l.items[c.path[0].i := Put(l.items[c.path[0].i], c.path[1..], c.right)]
  {
  }

  lemma AscendingDistinct(ks: seq<Key>, i: nat, j: nat)
    requires Ascending(ks) && i < |ks| && j < |ks| && i != j
    ensures ks[i] != ks[j]
  {
    LessIrreflexive(ks[i]);
  }

  lemma {:induction false} ReplacingInItem(l: Json, c: Change)
    requires Get(l, c.path) == Some(c.left) && c.left != c.right
    requires !c.right.Obj? && !c.right.Arr? && c.path != [] && c.path[0].Index?
    ensures Changes(l, Put(l, c.path, c.right)) == [c]
    decreases |c.path|, 0
  {
    hide ItemChanges, Changes, Get, Put;
    var j, r := c.path[0].i, Put(l, c.path, c.right);
    var inner := c.(path := c.path[1..]);
    BelowStep(l, c);
    ReplacingIsOneChange(l.items[j], inner);
    OnlyItemChange(l, r, |l.items|, j);
    ChangesOfLists(l, r);
    BelowOne(Index(j), inner, c);
  }

  lemma ChangesOfLists(l: Json, r: Json)
    requires l.Arr? && r.Arr? && |l.items| == |r.items|
    ensures Changes(l, r) == ItemChanges(l, r, |l.items|)
  {
    hide ItemChanges;
  }

  // ---- the difference with its cut-off ----

  const CUT_OFF: nat := 8

  /** What a walk that stops after more than eight differences has found: a first part of them,
      and all of them when it found no more than eight. */
  predicate Cut(found: seq<Change>, all: seq<Change>) {
    found <= all && (|found| <= CUT_OFF ==> found == all)
  }

  lemma CutAppend(found: seq<Change>, more: seq<Change>, all: seq<Change>, next: seq<Change>)
    requires found == all && Cut(more, next)
    ensures Cut(found + more, all + next)
  {
    if |found + more| <= CUT_OFF { assert more == next; }
  }

  lemma CutExtend(found: seq<Change>, all: seq<Change>, rest: seq<Change>)
    requires Cut(found, all) && |found| > CUT_OFF
    ensures Cut(found, all + rest)
  {
  }

  lemma BelowBelow(path: Path, seg: Seg, changes: seq<Change>)
    ensures Below(path, Below([seg], changes)) == Below(path + [seg], changes)
  {
    forall i | 0 <= i < |changes| ensures path + ([seg] + changes[i].path) == path + [seg] + changes[i].path {
    }
  }

  lemma BelowAppend(path: Path, a: seq<Change>, b: seq<Change>)
    ensures Below(path, a + b) == Below(path, a) + Below(path, b)
  {
  }

  method Diff(left: Json, right: Json, path: Path) returns (differences: seq<Change>)
    ensures Cut(differences, Below(path, Changes(left, right)))
    decreases left, 1
  {
    hide FieldChanges, ItemChanges, SortedKeys, Cut;
    if left.Obj? && right.Obj? {
      differences := DiffFields(left, right, path);
    } else if left.Arr? && right.Arr? && |left.items| == |right.items| {
      differences := DiffItems(left, right, path);
    } else {
      differences := if left == right then [] else [Change(path, left, right)];
      assert path + [] == path;
      assert differences == Below(path, Changes(left, right));
      CutWhole(differences);
    }
  }

  lemma CutWhole(all: seq<Change>)
    ensures Cut(all, all)
  {
  }

  method DiffFields(left: Json, right: Json, path: Path) returns (differences: seq<Change>)
    requires left.Obj? && right.Obj?
    ensures Cut(differences, Below(path, FieldChanges(left, right, SortedKeys(left.fields.Keys + right.fields.Keys))))
    decreases left, 0, 1
  {
    hide FieldChanges, FieldChange, Changes, SortedKeys, Cut, Below, Less, Ascending;
    var ks := SortedKeys(left.fields.Keys + right.fields.Keys);
    ghost var all := Below(path, FieldChanges(left, right, ks));
    differences := [];
    NoFields(left, right, ks, path);
    for i := 0 to |ks|
      invariant differences == Below(path, FieldChanges(left, right, ks[..i]))
    {
      var k := ks[i];
      assert k in left.fields.Keys + right.fields.Keys;
      FieldStep(left, right, ks, i, path);
      ghost var before := differences;
      var more := DiffField(left, right, k, path);
      differences := differences + more;
      CutAppend(before, more, before, Below(path, FieldChange(left, right, k)));
      if |differences| > CUT_OFF {
        FieldsSoFar(left, right, ks, i + 1, path, differences);
        return;
      }
      CutMeans(differences, Below(path, FieldChanges(left, right, ks[..i + 1])));
    }
    assert ks[..|ks|] == ks;
    CutWhole(all);
  }

  method DiffField(left: Json, right: Json, k: Key, path: Path) returns (more: seq<Change>)
    requires left.Obj? && right.Obj? && k in left.fields.Keys + right.fields.Keys
    ensures Cut(more, Below(path, FieldChange(left, right, k)))
    decreases left, 0, 0
  {
    hide FieldChange, Changes, Cut, Below;
    if k !in left.fields {
      more := [Change(path + [Field(k)], Null, right.fields[k])];
      AbsentField(left, right, k, path);
      CutWhole(more);
    } else if k !in right.fields {
      more := [Change(path + [Field(k)], left.fields[k], Null)];
      AbsentField(left, right, k, path);
      CutWhole(more);
    } else {
      more := Diff(left.fields[k], right.fields[k], path + [Field(k)]);
      PresentField(left, right, k, path);
    }
  }

  lemma CutMeans(found: seq<Change>, all: seq<Change>)
    requires Cut(found, all) && |found| <= CUT_OFF
    ensures found == all
  {
  }

  lemma NoFields(l: Json, r: Json, ks: seq<Key>, path: Path)
    requires l.Obj? && r.Obj?
    ensures Below(path, FieldChanges(l, r, ks[..0])) == []
  {
  }

  lemma FieldStep(l: Json, r: Json, ks: seq<Key>, i: nat, path: Path)
    requires l.Obj? && r.Obj? && i < |ks| && forall j :: 0 <= j < |ks| ==> ks[j] in l.fields.Keys + r.fields.Keys
    ensures Below(path, FieldChanges(l, r, ks[..i + 1])) ==
            Below(path, FieldChanges(l, r, ks[..i])) + Below(path, FieldChange(l, r, ks[i]))
  {
    hide FieldChange;
    assert ks[..i + 1][..i] == ks[..i];
    BelowAppend(path, FieldChanges(l, r, ks[..i]), FieldChange(l, r, ks[i]));
  }

  lemma AbsentField(l: Json, r: Json, k: Key, path: Path)
    requires l.Obj? && r.Obj? && k in l.fields.Keys + r.fields.Keys
    ensures k !in l.fields ==> Below(path, FieldChange(l, r, k)) == [Change(path + [Field(k)], Null, r.fields[k])]
    ensures k in l.fields && k !in r.fields ==>
              Below(path, FieldChange(l, r, k)) == [Change(path + [Field(k)], l.fields[k], Null)]
  {
  }

  lemma PresentField(l: Json, r: Json, k: Key, path: Path)
    requires l.Obj? && r.Obj? && k in l.fields && k in r.fields
    ensures Below(path, FieldChange(l, r, k)) == Below(path + [Field(k)], Changes(l.fields[k], r.fields[k]))
  {
    hide Changes;
    BelowBelow(path, Field(k), Changes(l.fields[k], r.fields[k]));
  }

  lemma {:induction false} FieldsSoFar(l: Json, r: Json, ks: seq<Key>, i: nat, path: Path, found: seq<Change>)
    requires l.Obj? && r.Obj? && i <= |ks| && forall j :: 0 <= j < |ks| ==> ks[j] in l.fields.Keys + r.fields.Keys
    requires Cut(found, Below(path, FieldChanges(l, r, ks[..i]))) && |found| > CUT_OFF
    ensures Cut(found, Below(path, FieldChanges(l, r, ks)))
    decreases |ks| - i
  {
    hide FieldChange, FieldChanges, Cut;
    if i == |ks| {
      assert ks[..i] == ks;
    } else {
      FieldStep(l, r, ks, i, path);
      CutExtend(found, Below(path, FieldChanges(l, r, ks[..i])), Below(path, FieldChange(l, r, ks[i])));
      FieldsSoFar(l, r, ks, i + 1, path, found);
    }
  }

  method DiffItems(left: Json, right: Json, path: Path) returns (differences: seq<Change>)
    requires left.Arr? && right.Arr? && |left.items| == |right.items|
    ensures Cut(differences, Below(path, ItemChanges(left, right, |left.items|)))
    decreases left, 0
  {
    hide ItemChanges, Changes, Cut, Below;
    differences := [];
    NoItems(left, right, path);
    for i := 0 to |left.items|
      invariant differences == Below(path, ItemChanges(left, right, i))
    {
      ItemStep(left, right, i, path);
      ghost var before := differences;
      var more := Diff(left.items[i], right.items[i], path + [Index(i)]);
      differences := differences + more;
      CutAppend(before, more, before, Below(path + [Index(i)], Changes(left.items[i], right.items[i])));
      if |differences| > CUT_OFF {
        ItemsSoFar(left, right, i + 1, path, differences);
        return;
      }
      CutMeans(differences, Below(path, ItemChanges(left, right, i + 1)));
    }
    CutWhole(differences);
  }

  lemma NoItems(l: Json, r: Json, path: Path)
    requires l.Arr? && r.Arr?
    ensures Below(path, ItemChanges(l, r, 0)) == []
  {
  }

  lemma ItemStep(l: Json, r: Json, i: nat, path: Path)
    requires l.Arr? && r.Arr? && i < |l.items| == |r.items|
    ensures Below(path, ItemChanges(l, r, i + 1)) ==
            Below(path, ItemChanges(l, r, i)) + Below(path + [Index(i)], Changes(l.items[i], r.items[i]))
  {
    hide Changes;
    BelowAppend(path, ItemChanges(l, r, i), Below([Index(i)], Changes(l.items[i], r.items[i])));
    BelowBelow(path, Index(i), Changes(l.items[i], r.items[i]));
  }

  lemma {:induction false} ItemsSoFar(l: Json, r: Json, i: nat, path: Path, found: seq<Change>)
    requires l.Arr? && r.Arr? && i <= |l.items| == |r.items|
    requires Cut(found, Below(path, ItemChanges(l, r, i))) && |found| > CUT_OFF
    ensures Cut(found, Below(path, ItemChanges(l, r, |l.items|)))
    decreases |l.items| - i
  {
    hide Changes, ItemChanges, Cut;
    if i < |l.items| {
      ItemStep(l, r, i, path);
      CutExtend(found, Below(path, ItemChanges(l, r, i)), Below(path + [Index(i)], Changes(l.items[i], r.items[i])));
      ItemsSoFar(l, r, i + 1, path, found);
    }
  }

  // ---- the one allowed difference ----

  const TREATMENT_PATH: Path :=
    [Field(Text("core")), Field(Text("strategy")), Field(Text("specs")), Index(0), Field(Text("config")),
     Field(Text("anchor_reinforce_target_pct"))]

  const CONTROL_VALUE: Json := Int(12)
  const TREATMENT_VALUE: Json := Int(20)

  /** Whether the canonical text of a normal form is within the byte limit, so that it is hashed. */
  type Fits = Json -> bool

  datatype Error = SnapshotInvalid | NotStrictJson | DiffInvalid | ValuesInvalid | TooLarge

  datatype Verdict = Rejected(error: Error) | Paired(controlSha: Json, treatmentSha: Json)

  /** The treatment is the control with the one allowed value changed from 12 to 20. */
  predicate Pair(control: Json, treatment: Json) {
    && Get(control, TREATMENT_PATH) == Some(CONTROL_VALUE)
    && treatment == Put(control, TREATMENT_PATH, TREATMENT_VALUE)
  }

  lemma PairIffOneChange(control: Json, treatment: Json)
    ensures Pair(control, treatment) <==>
            Changes(control, treatment) == [Change(TREATMENT_PATH, CONTROL_VALUE, TREATMENT_VALUE)]
  {
    hide Changes, Get, Put;
    if Pair(control, treatment) {
      ReplacingIsOneChange(control, Change(TREATMENT_PATH, CONTROL_VALUE, TREATMENT_VALUE));
    }
    if Changes(control, treatment) == [Change(TREATMENT_PATH, CONTROL_VALUE, TREATMENT_VALUE)] {
      OneChangeReplaces(control, treatment);
    }
  }

  /** Both sides are strict JSON objects that differ in the one allowed way. */
  predicate Comparable(control: Json, treatment: Json) {
    control.Obj? && treatment.Obj? && Accepted(FROZEN, control) && Accepted(FROZEN, treatment)
    && Pair(Normal(control), Normal(treatment))
  }

  /** Accepts exactly the pairs whose normal forms differ in the one allowed way and can be hashed. */
  method CompareExecutionSnapshots(fits: Fits, control: Json, treatment: Json) returns (verdict: Verdict)
    ensures verdict.Paired? <==>
            Comparable(control, treatment) && fits(Normal(control)) && fits(Normal(treatment))
    ensures verdict == Rejected(TooLarge) <==>
            Comparable(control, treatment) && !(fits(Normal(control)) && fits(Normal(treatment)))
    ensures verdict.Paired? ==> verdict == Paired(Sha(Normal(control)), Sha(Normal(treatment)))
    ensures verdict == Rejected(SnapshotInvalid) <==> !control.Obj? || !treatment.Obj?
    ensures verdict == Rejected(NotStrictJson) <==>
            control.Obj? && treatment.Obj? && !(Accepted(FROZEN, control) && Accepted(FROZEN, treatment))
    ensures verdict == Rejected(ValuesInvalid) ==>
            exists c :: Changes(Normal(control), Normal(treatment)) == [c] && c.path == TREATMENT_PATH
  {
    hide Changes, Get, Put, Accepted, Normal, Cut;
    if !control.Obj? || !treatment.Obj? { return Rejected(SnapshotInvalid); }
    var left := NormalizeWhole(FROZEN, control);
    var right := NormalizeWhole(FROZEN, treatment);
    if left.None? || right.None? { return Rejected(NotStrictJson); }
    var differences := Diff(left.value, right.value, []);
    BelowNothing(Changes(left.value, right.value));
    CutDecidesOne(differences, Changes(left.value, right.value));
    PairIffOneChange(left.value, right.value);
    if |differences| != 1 || differences[0].path != TREATMENT_PATH { return Rejected(DiffInvalid); }
    if differences[0].left != CONTROL_VALUE || differences[0].right != TREATMENT_VALUE {
      return Rejected(ValuesInvalid);
    }
    if !fits(left.value) || !fits(right.value) { return Rejected(TooLarge); }
    verdict := Paired(Sha(left.value), Sha(right.value));
  }

  lemma BelowNothing(changes: seq<Change>)
    ensures Below([], changes) == changes
  {
    forall i | 0 <= i < |changes| ensures [] + changes[i].path == changes[i].path {
    }
  }

  lemma CutDecidesOne(found: seq<Change>, all: seq<Change>)
    requires Cut(found, all)
    ensures |found| == 1 || |all| == 1 ==> found == all && all == [all[0]]
  {
  }
}

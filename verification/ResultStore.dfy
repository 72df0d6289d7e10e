/** The split backtest result store: one legacy document kept as a metadata row, append-only
    step rows and a hot progress row, and put back together on reading. */
module ResultStore {
  import opened HistorySampling
  import opened KeyOrder
  import opened Options

  // ---- documents ----

  datatype Value =
    | Null
    | Bool(b: bool)
    | Number(n: int)
    | Str(text: Key)
    | List(items: seq<Value>)
    | Object(fields: map<Key, Value>)

  datatype Kind = Decision | Refusal | Trade | Pv | Log | Price

  /** A top-level key: one of the six step arrays, a key the hot row owns, or any other. */
  datatype Field = Steps(kind: Kind) | Status | Progress | Elapsed | LastActive | Other(name: Key)

  type Doc = map<Field, Value>

  const KINDS: seq<Kind> := [Decision, Refusal, Trade, Pv, Log, Price]

  datatype Cap = NoCap | Tail(n: nat) | Sampled(n: nat)

  function CapOf(kind: Kind): Cap {
    match kind
    case Trade => Tail(1000)
    case Pv => Sampled(3000)
    case Log => Tail(500)
    case _ => NoCap
  }

  /** The arrays the stub creates empty. */
  predicate AlwaysPresent(kind: Kind) {
    kind in {Pv, Trade, Price, Log}
  }

  predicate HotField(f: Field) {
    f in {Status, Progress, Elapsed, LastActive}
  }

  function ApplyCap(values: seq<Value>, cap: Cap): seq<Value> {
    match cap
    case NoCap => values
    case Tail(n) => if |values| <= n || n == 0 then values else values[|values| - n..]
    case Sampled(n) => Downsample(values, n)
  }

  // ---- deep merge ----

  function Merge(base: Value, patch: Value): Value
    decreases patch
  {
    if base.Object? && patch.Object? then
      Object(map k | k in base.fields.Keys + patch.fields.Keys ::
               if k !in patch.fields then base.fields[k]
               else if k in base.fields then Merge(base.fields[k], patch.fields[k])
               else patch.fields[k])
    else patch
  }

  function MergeDoc(base: Doc, patch: Doc): Doc {
    map f | f in base.Keys + patch.Keys ::
      if f !in patch then base[f] else if f in base then Merge(base[f], patch[f]) else patch[f]
  }

  /** Writing the same patch again changes nothing. */
  lemma {:induction false} MergeTwice(base: Value, patch: Value)
    ensures Merge(Merge(base, patch), patch) == Merge(base, patch)
    decreases patch
  {
    if patch.Object? {
      if base.Object? {
        forall k | k in patch.fields && k in base.fields
          ensures Merge(Merge(base.fields[k], patch.fields[k]), patch.fields[k])
                  == Merge(base.fields[k], patch.fields[k])
        {
          MergeTwice(base.fields[k], patch.fields[k]);
        }
        forall k | k in patch.fields ensures Merge(patch.fields[k], patch.fields[k]) == patch.fields[k] {
          MergeSelf(patch.fields[k]);
        }
        assert Merge(Merge(base, patch), patch).fields == Merge(base, patch).fields;
      } else {
        MergeSelf(patch);
      }
    }
  }

  lemma {:induction false} MergeSelf(v: Value)
    ensures Merge(v, v) == v
    decreases v
  {
    if v.Object? {
      forall k | k in v.fields ensures Merge(v.fields[k], v.fields[k]) == v.fields[k] { MergeSelf(v.fields[k]); }
      assert Merge(v, v).fields == v.fields;
    }
  }

  lemma MergeDocTwice(base: Doc, patch: Doc)
    ensures MergeDoc(MergeDoc(base, patch), patch) == MergeDoc(base, patch)
  {
    hide Merge;
    forall f | f in patch && f in base
      ensures Merge(Merge(base[f], patch[f]), patch[f]) == Merge(base[f], patch[f])
    {
      MergeTwice(base[f], patch[f]);
    }
    forall f | f in patch ensures Merge(patch[f], patch[f]) == patch[f] { MergeSelf(patch[f]); }
  }

  // ---- what a merge reads ----

  /** The value under a path of object keys, if there is one. */
  function Read(v: Value, path: seq<Key>): Option<Value>
    decreases |path|
  {
    if path == [] then Some(v)
    else if v.Object? && path[0] in v.fields then Read(v.fields[path[0]], path[1..])
    else None
  }

  predicate ReadsObject(v: Value, path: seq<Key>) {
    Read(v, path).Some? && Read(v, path).value.Object?
  }

  /** The patch has objects along the path up to one that lacks the next key. */
  predicate StopsAt(patch: Value, path: seq<Key>, n: nat)
    requires n < |path|
  {
    ReadsObject(patch, path[..n]) && path[n] !in Read(patch, path[..n]).value.fields
  }

  /** A value of the patch that is no object is read as it is, over whatever the base holds. */
  lemma {:induction false} PatchIsRead(base: Value, patch: Value, path: seq<Key>)
    requires Read(patch, path).Some? && !Read(patch, path).value.Object?
    ensures Read(Merge(base, patch), path) == Read(patch, path)
    decreases |path|
  {
    if path != [] && base.Object? && path[0] in base.fields {
      PatchIsRead(base.fields[path[0]], patch.fields[path[0]], path[1..]);
    }
  }

  /** An object of the patch over anything but an object is read as it is. */
  lemma {:induction false} NewObjectIsRead(base: Value, patch: Value, path: seq<Key>)
    requires ReadsObject(patch, path) && !ReadsObject(base, path)
    ensures Read(Merge(base, patch), path) == Read(patch, path)
    decreases |path|
  {
    if path != [] && base.Object? && path[0] in base.fields {
      NewObjectIsRead(base.fields[path[0]], patch.fields[path[0]], path[1..]);
    }
  }

  /** An object over an object stays one. */
  lemma {:induction false} ObjectsStay(base: Value, patch: Value, path: seq<Key>)
    requires ReadsObject(patch, path) && ReadsObject(base, path)
    ensures ReadsObject(Merge(base, patch), path)
    decreases |path|
  {
    if path != [] { ObjectsStay(base.fields[path[0]], patch.fields[path[0]], path[1..]); }
  }

  /** Where the patch's objects stop at an absent key, the merge reads what the base holds there. */
  lemma {:induction false} BaseIsRead(base: Value, patch: Value, path: seq<Key>, n: nat)
    requires n < |path| && StopsAt(patch, path, n)
    ensures Read(Merge(base, patch), path) == Read(base, path)
    decreases |path|
  {
    if n == 0 {
      assert path[..0] == [];
    } else {
      assert path[..n][0] == path[0] && path[..n][1..] == path[1..][..n - 1];
      var k := path[0];
      if base.Object? && k in base.fields {
        assert StopsAt(patch.fields[k], path[1..], n - 1);
        BaseIsRead(base.fields[k], patch.fields[k], path[1..], n - 1);
      } else {
        PastTheEnd(patch.fields[k], path[1..], n - 1);
      }
    }
  }

  lemma {:induction false} PastTheEnd(v: Value, path: seq<Key>, n: nat)
    requires n < |path| && StopsAt(v, path, n)
    ensures Read(v, path) == None
    decreases |path|
  {
    if n == 0 {
      assert path[..0] == [];
    } else {
      assert path[..n][0] == path[0] && path[..n][1..] == path[1..][..n - 1];
      PastTheEnd(v.fields[path[0]], path[1..], n - 1);
    }
  }

  function ReadDoc(doc: Doc, f: Field, path: seq<Key>): Option<Value> {
    if f in doc then Read(doc[f], path) else None
  }

  /** The same of a document and a patch of it, at every field and path: the patch's values that are
      no objects win, its new objects are set whole, and nothing else of the document is lost. */
  lemma MergedDocReads(base: Doc, patch: Doc, f: Field, path: seq<Key>)
    ensures var merged, wanted := MergeDoc(base, patch), ReadDoc(patch, f, path);
            && (f !in patch ==> ReadDoc(merged, f, path) == ReadDoc(base, f, path))
            && (wanted.Some? && !wanted.value.Object? ==> ReadDoc(merged, f, path) == wanted)
            && (wanted.Some? && !(ReadDoc(base, f, path).Some? && ReadDoc(base, f, path).value.Object?) ==>
                  ReadDoc(merged, f, path) == wanted)
            && (f in patch && f in base && ReadsObject(patch[f], path) && ReadsObject(base[f], path) ==>
                  ReadsObject(merged[f], path))
    ensures f in patch ==> forall n: nat :: n < |path| && StopsAt(patch[f], path, n) ==>
              ReadDoc(MergeDoc(base, patch), f, path) == ReadDoc(base, f, path)
  {
    hide Merge, Read, StopsAt;
    if f in patch && f in base {
      if Read(patch[f], path).Some? && !Read(patch[f], path).value.Object? { PatchIsRead(base[f], patch[f], path); }
      if ReadsObject(patch[f], path) && !ReadsObject(base[f], path) { NewObjectIsRead(base[f], patch[f], path); }
      if ReadsObject(patch[f], path) && ReadsObject(base[f], path) { ObjectsStay(base[f], patch[f], path); }
      forall n: nat | n < |path| && StopsAt(patch[f], path, n)
        ensures ReadDoc(MergeDoc(base, patch), f, path) == ReadDoc(base, f, path)
      {
        BaseIsRead(base[f], patch[f], path, n);
      }
    }
    if f in patch && f !in base {
      forall n: nat | n < |path| && StopsAt(patch[f], path, n) ensures Read(patch[f], path) == None {
        PastTheEnd(patch[f], path, n);
      }
    }
  }

  // ---- the caps ----

  /** The reader sees the last thousand trades, the last five hundred log lines, a sample of at most
      three thousand portfolio values, and every decision, refusal and price. */
  lemma CapsShow(values: seq<Value>)
    ensures ApplyCap(values, CapOf(Trade)) == if |values| <= 1000 then values else values[|values| - 1000..]
    ensures ApplyCap(values, CapOf(Log)) == if |values| <= 500 then values else values[|values| - 500..]
    ensures ApplyCap(values, CapOf(Pv)) == Downsample(values, 3000)
    ensures forall kind :: kind in {Decision, Refusal, Price} ==> ApplyCap(values, CapOf(kind)) == values
  {
  }

  // ---- split ----

  /** `list(doc[key] or [])`: what a step array is taken to hold. A true boolean or a nonzero
      number is not iterable and raises. */
  function ListOf(v: Value): Option<seq<Value>> {
    match v
    case List(items) => Some(items)
    case Str(text) => Some(seq(|text|, i requires 0 <= i < |text| => Str([text[i]])))
    case Object(fields) =>
      var keys := SortedKeys(fields.Keys);
      Some(seq(|keys|, i requires 0 <= i < |keys| => Str(keys[i])))
    case Null => Some([])
    case Bool(b) => if b then None else Some([])
    case Number(n) => if n != 0 then None else Some([])
  }

  function Metadata(doc: Doc): Doc {
    map f | f in doc && !f.Steps? :: doc[f]
  }

  function Hot(doc: Doc): Doc {
    map f | f in doc && HotField(f) :: doc[f]
  }

  predicate Splittable(doc: Doc) {
    forall kind :: Steps(kind) in doc ==> ListOf(doc[Steps(kind)]).Some?
  }

  /** A document can be split unless one of its step arrays is a true boolean or a nonzero number. */
  lemma SplittableExact(doc: Doc)
    ensures Splittable(doc) <==>
            forall kind :: Steps(kind) in doc ==>
              doc[Steps(kind)] != Bool(true) && (doc[Steps(kind)].Number? ==> doc[Steps(kind)].n == 0)
  {
    hide ListOf;
    forall kind | Steps(kind) in doc ensures ListOf(doc[Steps(kind)]).None? <==>
      doc[Steps(kind)] == Bool(true) || (doc[Steps(kind)].Number? && doc[Steps(kind)].n != 0)
    {
      ListOfExact(doc[Steps(kind)]);
    }
  }

  /** What is stored of a step array: a list as it is, a text by characters, an object by its keys in
      order, and nothing of what counts as false. */
  lemma ListOfExact(v: Value)
    ensures ListOf(v).None? <==> v == Bool(true) || (v.Number? && v.n != 0)
    ensures v.List? ==> ListOf(v) == Some(v.items)
    ensures v.Str? ==> ListOf(v).value == seq(|v.text|, i requires 0 <= i < |v.text| => Str([v.text[i]]))
    ensures v.Object? ==> var keys := SortedKeys(v.fields.Keys);
              |ListOf(v).value| == |keys| && forall i :: 0 <= i < |keys| ==> ListOf(v).value[i] == Str(keys[i])
    ensures v.Null? || v == Bool(false) || v == Number(0) ==> ListOf(v) == Some([])
  {
  }

  // ---- step rows ----

  datatype RowKey = RowKey(id: int, kind: Kind, final: bool, seqNo: nat)

  type Rows = map<RowKey, Value>

  /** INSERT of entries at start+1, start+2, ... ON CONFLICT DO NOTHING: a row already there stays. */
  function Appended(rows: Rows, id: int, kind: Kind, final: bool, start: nat, entries: seq<Value>): Rows {
    (map n: nat | start < n <= start + |entries| :: RowKey(id, kind, final, n) := entries[n - start - 1]) + rows
  }

  function WithoutFinal(rows: Rows, id: int, kind: Kind): Rows {
    map k | k in rows && !(k.id == id && k.kind == kind && k.final) :: rows[k]
  }

  function WithMarker(rows: Rows, id: int, kind: Kind): Rows {
    rows[RowKey(id, kind, true, 0) := Null]
  }

  /** finalize_steps: delete the final rows, insert the marker, append the final list. */
  function Finalized(rows: Rows, id: int, kind: Kind, entries: seq<Value>): Rows {
    Appended(WithMarker(WithoutFinal(rows, id, kind), id, kind), id, kind, true, 0, entries)
  }

  /** The rows of one kind in one mode, by their positions; the marker at 0 carries no entry. */
  function Positions(rows: Rows, id: int, kind: Kind, final: bool): set<Key> {
    set k | k in rows && k.id == id && k.kind == kind && k.final == final && (final ==> k.seqNo > 0) :: [k.seqNo]
  }

  /** ORDER BY seq. */
  function Entries(rows: Rows, id: int, kind: Kind, final: bool): seq<Value> {
    var order := SortedKeys(Positions(rows, id, kind, final));
    assert forall i :: 0 <= i < |order| ==> order[i] in Positions(rows, id, kind, final);
    seq(|order|, i requires 0 <= i < |order| => rows[RowKey(id, kind, final, order[i][0])])
  }

  predicate HasFinal(rows: Rows, id: int, kind: Kind) {
    exists k :: k in rows && k.id == id && k.kind == kind && k.final
  }

  /** The rows of one kind and mode are exactly 1, 2, ..., holding `src` in order. */
  ghost predicate Exactly(rows: Rows, id: int, kind: Kind, final: bool, src: seq<Value>) {
    && (forall n: nat :: RowKey(id, kind, final, n) in rows && (final ==> n > 0) ==> 1 <= n <= |src|)
    && (forall n: nat :: 1 <= n <= |src| ==>
        RowKey(id, kind, final, n) in rows && rows[RowKey(id, kind, final, n)] == src[n - 1])
  }

  function Counting(m: nat): (ks: seq<Key>)
    ensures |ks| == m && forall i :: 0 <= i < m ==> ks[i] == [i + 1]
  {
    seq(m, i => [i + 1])
  }

  lemma PositionsOfExactly(rows: Rows, id: int, kind: Kind, final: bool, src: seq<Value>)
    requires Exactly(rows, id, kind, final, src)
    ensures SortedKeys(Positions(rows, id, kind, final)) == Counting(|src|)
  {
    var positions, counting := Positions(rows, id, kind, final), Counting(|src|);
    forall k | k in counting ensures k in positions {
      var i :| 0 <= i < |counting| && counting[i] == k;
      assert RowKey(id, kind, final, i + 1) in rows;
    }
    forall k | k in positions ensures k in counting {
      var row :| row in rows && row.id == id && row.kind == kind && row.final == final
                 && (final ==> row.seqNo > 0) && [row.seqNo] == k;
      assert row == RowKey(id, kind, final, row.seqNo);
      assert counting[row.seqNo - 1] == k;
    }
    AscendingUnique(SortedKeys(positions), counting);
  }

  /** Reading rows that are exactly 1..m in order of position gives the source list back. */
  lemma EntriesOfExactly(rows: Rows, id: int, kind: Kind, final: bool, src: seq<Value>)
    requires Exactly(rows, id, kind, final, src)
    ensures Entries(rows, id, kind, final) == src
  {
    hide Positions;
    PositionsOfExactly(rows, id, kind, final, src);
  }

  /** What is read depends only on the rows of that kind and mode. */
  lemma SameRowsSameEntries(a: Rows, b: Rows, id: int, kind: Kind, final: bool)
    requires forall n: nat :: RowKey(id, kind, final, n) in a <==> RowKey(id, kind, final, n) in b
    requires forall n: nat :: RowKey(id, kind, final, n) in a ==>
               a[RowKey(id, kind, final, n)] == b[RowKey(id, kind, final, n)]
    ensures Entries(a, id, kind, final) == Entries(b, id, kind, final)
    ensures final ==> HasFinal(a, id, kind) == HasFinal(b, id, kind)
  {
    hide Positions;
    SamePositions(a, b, id, kind, final);
    SamePositions(b, a, id, kind, final);
    PositionsAreRows(a, id, kind, final);
    assert Positions(a, id, kind, final) == Positions(b, id, kind, final);
    if final {
      assert forall k :: (k in a || k in b) && k.id == id && k.kind == kind && k.final ==>
          k == RowKey(id, kind, true, k.seqNo);
    }
  }

  lemma PositionsAreRows(rows: Rows, id: int, kind: Kind, final: bool)
    ensures forall p: Key :: p in SortedKeys(Positions(rows, id, kind, final)) ==>
              |p| == 1 && p[0] >= 0 && RowKey(id, kind, final, p[0] as nat) in rows
  {
    forall p: Key | p in SortedKeys(Positions(rows, id, kind, final))
      ensures |p| == 1 && p[0] >= 0 && RowKey(id, kind, final, p[0] as nat) in rows
    {
      assert p in Positions(rows, id, kind, final);
      var k :| k in rows && k.id == id && k.kind == kind && k.final == final && (final ==> k.seqNo > 0)
        && [k.seqNo] == p;
      assert k == RowKey(id, kind, final, k.seqNo);
    }
  }

  lemma SamePositions(a: Rows, b: Rows, id: int, kind: Kind, final: bool)
    requires forall n: nat :: RowKey(id, kind, final, n) in a ==> RowKey(id, kind, final, n) in b
    ensures Positions(a, id, kind, final) <= Positions(b, id, kind, final)
  {
    forall p | p in Positions(a, id, kind, final) ensures p in Positions(b, id, kind, final) {
      var k :| k in a && k.id == id && k.kind == kind && k.final == final && (final ==> k.seqNo > 0) && [k.seqNo] == p;
      assert k == RowKey(id, kind, final, k.seqNo);
    }
  }

  // ---- incremental appends ----

  /** Appending the source from a watermark that is not past the stored rows leaves exactly the
      whole source, whatever part of it was already stored. */
  lemma AppendExact(rows: Rows, id: int, kind: Kind, m: nat, w: nat, src: seq<Value>)
    requires w <= m <= |src| && Exactly(rows, id, kind, false, src[..m])
    ensures Exactly(Appended(rows, id, kind, false, w, src[w..]), id, kind, false, src)
  {
    var after := Appended(rows, id, kind, false, w, src[w..]);
    forall n: nat | 1 <= n <= |src|
      ensures RowKey(id, kind, false, n) in after && after[RowKey(id, kind, false, n)] == src[n - 1]
    {
      if n <= m { assert src[..m][n - 1] == src[n - 1]; }
      else { assert src[w..][n - w - 1] == src[n - 1]; }
    }
  }

  // ---- finalizing ----

  /** Whatever rows there were, finalizing leaves exactly the given final list. */
  lemma FinalizeExact(rows: Rows, id: int, kind: Kind, entries: seq<Value>)
    ensures Exactly(Finalized(rows, id, kind, entries), id, kind, true, entries)
    ensures HasFinal(Finalized(rows, id, kind, entries), id, kind)
    ensures forall k: RowKey :: k.id != id || k.kind != kind || !k.final ==>
              (k in Finalized(rows, id, kind, entries) <==> k in rows)
              && (k in rows ==> Finalized(rows, id, kind, entries)[k] == rows[k])
  {
    hide Finalized;
    FinalRows(rows, id, kind, entries);
    FinalKeeps(rows, id, kind, entries);
  }

  lemma FinalRows(rows: Rows, id: int, kind: Kind, entries: seq<Value>)
    ensures Exactly(Finalized(rows, id, kind, entries), id, kind, true, entries)
    ensures HasFinal(Finalized(rows, id, kind, entries), id, kind)
  {
    var marked := WithMarker(WithoutFinal(rows, id, kind), id, kind);
    var after := Finalized(rows, id, kind, entries);
    assert RowKey(id, kind, true, 0) in after;
    forall n: nat | 1 <= n <= |entries|
      ensures RowKey(id, kind, true, n) in after && after[RowKey(id, kind, true, n)] == entries[n - 1]
    {
      assert RowKey(id, kind, true, n) !in marked;
    }
  }

  lemma FinalKeeps(rows: Rows, id: int, kind: Kind, entries: seq<Value>)
    ensures forall k: RowKey :: k.id != id || k.kind != kind || !k.final ==>
              (k in Finalized(rows, id, kind, entries) <==> k in rows)
              && (k in rows ==> Finalized(rows, id, kind, entries)[k] == rows[k])
  {
  }

  /** The table after the first `done` of finalize_steps' three statements. */
  function AfterStatements(rows: Rows, id: int, kind: Kind, entries: seq<Value>, done: nat): Rows {
    if done == 0 then rows
    else if done == 1 then WithoutFinal(rows, id, kind)
    else if done == 2 then WithMarker(WithoutFinal(rows, id, kind), id, kind)
    else Finalized(rows, id, kind, entries)
  }

  /** A finalization cut off after any statement is completed by running it again. */
  lemma FinalizeRetry(rows: Rows, id: int, kind: Kind, entries: seq<Value>, done: nat)
    ensures Finalized(AfterStatements(rows, id, kind, entries, done), id, kind, entries)
            == Finalized(rows, id, kind, entries)
  {
    hide WithoutFinal, WithMarker, Appended;
    RestOfCut(rows, id, kind, entries, done);
  }

  lemma RestOfCut(rows: Rows, id: int, kind: Kind, entries: seq<Value>, done: nat)
    ensures WithoutFinal(AfterStatements(rows, id, kind, entries, done), id, kind) == WithoutFinal(rows, id, kind)
  {
    hide Finalized;
    var bare := WithoutFinal(rows, id, kind);
    BareTwice(rows, id, kind);
    BareOfMarked(bare, id, kind);
    FinalizedIsAppended(rows, id, kind, entries);
    BareOfAppended(WithMarker(bare, id, kind), id, kind, entries);
  }

  lemma FinalizedIsAppended(rows: Rows, id: int, kind: Kind, entries: seq<Value>)
    ensures Finalized(rows, id, kind, entries)
            == Appended(WithMarker(WithoutFinal(rows, id, kind), id, kind), id, kind, true, 0, entries)
  {
  }

  lemma BareTwice(rows: Rows, id: int, kind: Kind)
    ensures WithoutFinal(WithoutFinal(rows, id, kind), id, kind) == WithoutFinal(rows, id, kind)
  {
  }

  lemma BareOfMarked(rows: Rows, id: int, kind: Kind)
    ensures WithoutFinal(WithMarker(rows, id, kind), id, kind) == WithoutFinal(rows, id, kind)
  {
  }

  lemma BareOfAppended(rows: Rows, id: int, kind: Kind, entries: seq<Value>)
    ensures WithoutFinal(Appended(rows, id, kind, true, 0, entries), id, kind) == WithoutFinal(rows, id, kind)
  {
    hide Appended;
    forall k: RowKey | !(k.id == id && k.kind == kind && k.final)
      ensures var more := Appended(rows, id, kind, true, 0, entries);
              (k in more <==> k in rows) && (k in more ==> more[k] == rows[k])
    {
      AppendedAt(rows, id, kind, true, 0, entries, k);
    }
  }

  lemma AppendedAt(rows: Rows, id: int, kind: Kind, final: bool, start: nat, entries: seq<Value>, k: RowKey)
    requires !(k.id == id && k.kind == kind && k.final == final)
    ensures var more := Appended(rows, id, kind, final, start, entries);
            (k in more <==> k in rows) && (k in more ==> more[k] == rows[k])
  {
  }

  // ---- reading ----

  /** What is shown for one kind: the final list once finalized, else the capped live rows. */
  function Shown(rows: Rows, id: int, kind: Kind): Option<seq<Value>> {
    if HasFinal(rows, id, kind) then Some(Entries(rows, id, kind, true))
    else
      var live := Entries(rows, id, kind, false);
      if live != [] then Some(ApplyCap(live, CapOf(kind)))
      else if AlwaysPresent(kind) then Some([])
      else None
  }

  /** A finalized kind shows exactly its final list, and no live append ever changes that. */
  lemma FinalizedShows(rows: Rows, id: int, kind: Kind, entries: seq<Value>)
    ensures Shown(Finalized(rows, id, kind, entries), id, kind) == Some(entries)
  {
    FinalizeExact(rows, id, kind, entries);
    EntriesOfExactly(Finalized(rows, id, kind, entries), id, kind, true, entries);
  }

  lemma LiveAppendHidden(rows: Rows, id: int, kind: Kind, start: nat, more: seq<Value>)
    requires HasFinal(rows, id, kind)
    ensures Shown(Appended(rows, id, kind, false, start, more), id, kind) == Shown(rows, id, kind)
  {
    SameRowsSameEntries(Appended(rows, id, kind, false, start, more), rows, id, kind, true);
  }

  /** Before anything is finalized the reader sees the capped source. */
  lemma LiveShows(rows: Rows, id: int, kind: Kind, src: seq<Value>)
    requires !HasFinal(rows, id, kind) && Exactly(rows, id, kind, false, src)
    ensures Shown(rows, id, kind)
            == if src != [] then Some(ApplyCap(src, CapOf(kind))) else if AlwaysPresent(kind) then Some([]) else None
  {
    EntriesOfExactly(rows, id, kind, false, src);
  }

  /** What the live rows alone would show. */
  function LiveView(rows: Rows, id: int, kind: Kind): Option<seq<Value>> {
    Shown(WithoutFinal(rows, id, kind), id, kind)
  }

  /** A crash after the marker but before the list shows an empty array, not the live rows. */
  lemma HalfFinalizedShowsEmpty(rows: Rows, id: int, kind: Kind, entries: seq<Value>)
    ensures Shown(AfterStatements(rows, id, kind, entries, 2), id, kind) == Some([])
  {
    var cut := AfterStatements(rows, id, kind, entries, 2);
    assert RowKey(id, kind, true, 0) in cut;
    assert Exactly(cut, id, kind, true, []);
    EntriesOfExactly(cut, id, kind, true, []);
  }

  /** The live view is the capped live rows; it is what is shown until something is finalized. */
  lemma LiveViewMeans(rows: Rows, id: int, kind: Kind)
    ensures var live := Entries(rows, id, kind, false);
            LiveView(rows, id, kind) ==
            if live != [] then Some(ApplyCap(live, CapOf(kind))) else if AlwaysPresent(kind) then Some([]) else None
    ensures !HasFinal(rows, id, kind) ==> LiveView(rows, id, kind) == Shown(rows, id, kind)
  {
    hide Entries;
    SameRowsSameEntries(WithoutFinal(rows, id, kind), rows, id, kind, false);
  }

  /** Finalizing an already finalized kind again, cut after the DELETE, brings the live rows back. */
  lemma RefinalizedShowsLive(rows: Rows, id: int, kind: Kind, first: seq<Value>, entries: seq<Value>, live: seq<Value>)
    requires !HasFinal(rows, id, kind) && Exactly(rows, id, kind, false, live) && live != []
    ensures Shown(AfterStatements(Finalized(rows, id, kind, first), id, kind, entries, 1), id, kind)
            == Some(ApplyCap(live, CapOf(kind)))
    ensures Shown(Finalized(rows, id, kind, first), id, kind) == Some(first)
  {
    hide Shown, Entries, Exactly, HasFinal;
    FinalizedShows(rows, id, kind, first);
    RestOfCut(rows, id, kind, first, 3);
    LiveViewMeans(rows, id, kind);
    LiveShows(rows, id, kind, live);
  }

  /** The reader sees what was shown before, or the new final list. */
  predicate Seamless(rows: Rows, cut: Rows, id: int, kind: Kind, entries: seq<Value>) {
    Shown(cut, id, kind) == Shown(rows, id, kind) || Shown(cut, id, kind) == Some(entries)
  }

  /** A cut finalization is seamless exactly when it is not cut after the DELETE of an earlier final
      list that the live rows do not show, nor after the marker unless nothing was shown before or
      the final list is empty. */
  lemma SeamlessUnlessCutShort(rows: Rows, id: int, kind: Kind, entries: seq<Value>, done: nat)
    ensures Seamless(rows, AfterStatements(rows, id, kind, entries, done), id, kind, entries)
            <==>
            && (done == 1 && HasFinal(rows, id, kind) ==>
                LiveView(rows, id, kind) in {Shown(rows, id, kind), Some(entries)})
            && (done == 2 ==> entries == [] || Shown(rows, id, kind) == Some([]))
  {
    hide Shown, Finalized, WithoutFinal, WithMarker, HasFinal;
    HalfFinalizedShowsEmpty(rows, id, kind, entries);
    FinalizedShows(rows, id, kind, entries);
    LiveViewMeans(rows, id, kind);
  }

  function ShownFields(rows: Rows, id: int, kinds: seq<Kind>): Doc {
    map kind | kind in kinds && Shown(rows, id, kind).Some? :: Steps(kind) := List(Shown(rows, id, kind).value)
  }

  /** The hot row wins on the keys it owns. */
  function HotFields(progress: map<int, Doc>, id: int): Doc {
    if id in progress then Hot(progress[id]) else map[]
  }

  /** The legacy document: metadata, then the step arrays, then the hot keys. */
  function Assembled(meta: Doc, rows: Rows, progress: map<int, Doc>, id: int): Doc {
    meta + ShownFields(rows, id, KINDS) + HotFields(progress, id)
  }

  /** The assembled document, key by key: an array is the one shown, or what the metadata holds when
      nothing is; a hot key is the hot row's if it has it; every other key is the metadata's. */
  lemma AssembledExact(meta: Doc, rows: Rows, progress: map<int, Doc>, id: int, f: Field)
    ensures var doc := Assembled(meta, rows, progress, id);
            var hot := id in progress && f in progress[id]
              && (f == Status || f == Progress || f == Elapsed || f == LastActive);
            var shown := if f.Steps? then Shown(rows, id, f.kind) else None;
            && (f in doc <==> f in meta || hot || shown.Some?)
            && (hot ==> f in doc && doc[f] == progress[id][f])
            && (shown.Some? ==> f in doc && doc[f] == List(shown.value))
            && (!hot && shown.None? && f in meta ==> f in doc && doc[f] == meta[f])
  {
    hide Shown;
    if f.Steps? { EveryKind(f.kind); }
  }

  lemma ShownNext(rows: Rows, id: int, kinds: seq<Kind>, kind: Kind)
    ensures ShownFields(rows, id, kinds + [kind])
            == if Shown(rows, id, kind).Some?
               then ShownFields(rows, id, kinds)[Steps(kind) := List(Shown(rows, id, kind).value)]
               else ShownFields(rows, id, kinds)
  {
    hide Shown;
  }

  lemma NothingToShow(rows: Rows, id: int)
    ensures ShownFields(rows, id, KINDS[..0]) == map[]
  {
    hide Shown;
  }

  lemma PlusThenUpdate<K, V>(a: map<K, V>, b: map<K, V>, k: K, v: V)
    ensures (a + b)[k := v] == a + b[k := v]
  {
  }

  lemma EveryKind(kind: Kind)
    ensures kind in KINDS
  {
    assert KINDS[0] == Decision && KINDS[1] == Refusal && KINDS[2] == Trade
           && KINDS[3] == Pv && KINDS[4] == Log && KINDS[5] == Price;
  }

  // ---- whole documents ----

  /** Writing the step arrays of `kinds` one after the other. */
  function WithSteps(rows: Rows, id: int, doc: Doc, final: bool, kinds: seq<Kind>): Rows
    requires Splittable(doc)
    decreases |kinds|
  {
    if kinds == [] then rows
    else
      var before, kind := WithSteps(rows, id, doc, final, kinds[..|kinds| - 1]), kinds[|kinds| - 1];
      if Steps(kind) !in doc then before
      else if final then Finalized(before, id, kind, ListOf(doc[Steps(kind)]).value)
      else Appended(before, id, kind, false, 0, ListOf(doc[Steps(kind)]).value)
  }

  /** Writing some kinds does not touch the rows of another kind. */
  lemma {:induction false} WithStepsElsewhere(rows: Rows, id: int, doc: Doc, kinds: seq<Kind>, kind: Kind, final: bool)
    requires Splittable(doc) && (kind !in kinds || Steps(kind) !in doc)
    ensures forall n: nat :: RowKey(id, kind, final, n) in WithSteps(rows, id, doc, true, kinds) <==>
            RowKey(id, kind, final, n) in rows
    ensures forall n: nat :: RowKey(id, kind, final, n) in rows ==>
              WithSteps(rows, id, doc, true, kinds)[RowKey(id, kind, final, n)] == rows[RowKey(id, kind, final, n)]
    decreases |kinds|
  {
    if kinds != [] {
      hide Finalized;
      var rest, last := kinds[..|kinds| - 1], kinds[|kinds| - 1];
      WithStepsElsewhere(rows, id, doc, rest, kind, final);
      if Steps(last) in doc {
        FinalizeExact(WithSteps(rows, id, doc, true, rest), id, last, ListOf(doc[Steps(last)]).value);
      }
    }
  }

  lemma {:induction false} WithStepsShows(rows: Rows, id: int, doc: Doc, kinds: seq<Kind>, kind: Kind)
    requires Splittable(doc) && kind in kinds && Steps(kind) in doc
    ensures Shown(WithSteps(rows, id, doc, true, kinds), id, kind) == Some(ListOf(doc[Steps(kind)]).value)
    decreases |kinds|
  {
    hide Finalized, Shown, ListOf;
    var rest, last := kinds[..|kinds| - 1], kinds[|kinds| - 1];
    var before := WithSteps(rows, id, doc, true, rest);
    if last == kind {
      FinalizedShows(before, id, kind, ListOf(doc[Steps(kind)]).value);
    } else {
      assert kind in rest;
      WithStepsShows(rows, id, doc, rest, kind);
      if Steps(last) in doc {
        FinalizeElsewhereShows(before, id, last, ListOf(doc[Steps(last)]).value, kind);
      }
    }
  }

  lemma FinalizeElsewhereShows(rows: Rows, id: int, kind: Kind, entries: seq<Value>, other: Kind)
    requires other != kind
    ensures Shown(Finalized(rows, id, kind, entries), id, other) == Shown(rows, id, other)
  {
    hide Finalized, Entries, HasFinal;
    FinalizeExact(rows, id, kind, entries);
    SameRowsSameEntries(Finalized(rows, id, kind, entries), rows, id, other, true);
    SameRowsSameEntries(Finalized(rows, id, kind, entries), rows, id, other, false);
  }

  ghost predicate NoRowsOf(rows: Rows, id: int) {
    forall k :: k in rows ==> k.id != id
  }

  lemma NothingShown(rows: Rows, id: int, kind: Kind)
    requires forall n: nat, final: bool :: RowKey(id, kind, final, n) !in rows
    ensures Shown(rows, id, kind) == if AlwaysPresent(kind) then Some([]) else None
  {
    assert Exactly(rows, id, kind, false, []);
    EntriesOfExactly(rows, id, kind, false, []);
    assert forall k :: k in rows ==> k == RowKey(k.id, k.kind, k.final, k.seqNo);
  }

  /** What each kind shows after a whole document was written with final lists. */
  lemma SplitShows(rows: Rows, id: int, doc: Doc, kind: Kind)
    requires Splittable(doc) && NoRowsOf(rows, id)
    ensures Shown(WithSteps(rows, id, doc, true, KINDS), id, kind)
            == if Steps(kind) in doc then Some(ListOf(doc[Steps(kind)]).value)
               else if AlwaysPresent(kind) then Some([]) else None
  {
    hide Shown, ListOf, WithSteps;
    EveryKind(kind);
    if Steps(kind) in doc {
      WithStepsShows(rows, id, doc, KINDS, kind);
    } else {
      WithStepsElsewhere(rows, id, doc, KINDS, kind, true);
      WithStepsElsewhere(rows, id, doc, KINDS, kind, false);
      forall n: nat, final: bool ensures RowKey(id, kind, final, n) !in WithSteps(rows, id, doc, true, KINDS) {
        assert RowKey(id, kind, final, n) !in rows;
      }
      NothingShown(WithSteps(rows, id, doc, true, KINDS), id, kind);
    }
  }

  function ProgressAfterSplit(progress: map<int, Doc>, id: int, doc: Doc): map<int, Doc> {
    if Hot(doc) == map[] then progress
    else progress[id := if id in progress then MergeDoc(progress[id], Hot(doc)) else Hot(doc)]
  }

  /** A hot row is made or merged into when the document has a hot key, and only then; no other row is
      touched, and what the row held beside those keys stays. */
  lemma ProgressExact(progress: map<int, Doc>, id: int, doc: Doc, f: Field, path: seq<Key>)
    ensures var after := ProgressAfterSplit(progress, id, doc);
            var hot := f == Status || f == Progress || f == Elapsed || f == LastActive;
            var before := if id in progress then ReadDoc(progress[id], f, path) else None;
            && (forall other :: other != id ==>
                  && (other in after <==> other in progress)
                  && (other in after ==> after[other] == progress[other]))
            && (id in after <==>
                id in progress || Status in doc || Progress in doc || Elapsed in doc || LastActive in doc)
            && (id in after && !(hot && f in doc) ==> ReadDoc(after[id], f, path) == before)
            && (id in after && hot && ReadDoc(doc, f, path).Some? && !ReadDoc(doc, f, path).value.Object? ==>
                  ReadDoc(after[id], f, path) == ReadDoc(doc, f, path))
  {
    hide Read, MergeDoc;
    if id in progress { MergedDocReads(progress[id], Hot(doc), f, path); }
    assert forall g :: g in Hot(doc) <==> g in doc && HotField(g);
    assert Hot(doc) == map[] <==> forall g :: g !in Hot(doc);
  }

  /** A document written live into an empty store leaves each of its arrays as the live rows 1, 2, ... */
  lemma {:induction false} LiveSplitExact(rows: Rows, id: int, doc: Doc, kinds: seq<Kind>, kind: Kind)
    requires Splittable(doc) && NoRowsOf(rows, id)
    requires forall i, j :: 0 <= i < j < |kinds| ==> kinds[i] != kinds[j]
    ensures var after := WithSteps(rows, id, doc, false, kinds);
            && !HasFinal(after, id, kind)
            && Exactly(after, id, kind, false,
                       if kind in kinds && Steps(kind) in doc then ListOf(doc[Steps(kind)]).value else [])
    decreases |kinds|
  {
    hide ListOf, Appended, Exactly, HasFinal;
    if kinds == [] {
      NoLiveRows(rows, id, kind);
    } else {
      var n := |kinds| - 1;
      var before, last := WithSteps(rows, id, doc, false, kinds[..n]), kinds[n];
      LiveSplitExact(rows, id, doc, kinds[..n], kind);
      LiveSplitExact(rows, id, doc, kinds[..n], last);
      assert kind in kinds <==> kind in kinds[..n] || kind == last;
      assert last !in kinds[..n];
      if Steps(last) in doc {
        AppendLive(before, id, last, ListOf(doc[Steps(last)]).value, kind,
                   if kind in kinds[..n] && Steps(kind) in doc then ListOf(doc[Steps(kind)]).value else []);
      }
    }
  }

  lemma NoLiveRows(rows: Rows, id: int, kind: Kind)
    requires NoRowsOf(rows, id)
    ensures !HasFinal(rows, id, kind) && Exactly(rows, id, kind, false, [])
  {
  }

  lemma AppendLive(rows: Rows, id: int, kind: Kind, entries: seq<Value>, other: Kind, src: seq<Value>)
    requires Exactly(rows, id, kind, false, []) && Exactly(rows, id, other, false, src)
    ensures var after := Appended(rows, id, kind, false, 0, entries);
            && Exactly(after, id, other, false, if other == kind then entries else src)
            && HasFinal(after, id, other) == HasFinal(rows, id, other)
  {
    hide Appended, HasFinal, Entries;
    var after := Appended(rows, id, kind, false, 0, entries);
    forall n: nat
      ensures RowKey(id, other, true, n) in after <==> RowKey(id, other, true, n) in rows
      ensures RowKey(id, other, true, n) in rows ==>
                after[RowKey(id, other, true, n)] == rows[RowKey(id, other, true, n)]
    {
      AppendedAt(rows, id, kind, false, 0, entries, RowKey(id, other, true, n));
    }
    SameRowsSameEntries(after, rows, id, other, true);
    if other == kind {
      assert entries[..0] == [] && entries[0..] == entries;
      AppendExact(rows, id, kind, 0, 0, entries);
    } else {
      forall n: nat
        ensures RowKey(id, other, false, n) in after <==> RowKey(id, other, false, n) in rows
        ensures RowKey(id, other, false, n) in rows ==>
                  after[RowKey(id, other, false, n)] == rows[RowKey(id, other, false, n)]
      {
        AppendedAt(rows, id, kind, false, 0, entries, RowKey(id, other, false, n));
      }
    }
  }

  // ---- the terminal write, cut off and repeated ----

  datatype Tables = Tables(results: map<int, Doc>, steps: Rows, progress: map<int, Doc>)

  function MetadataMerged(t: Tables, id: int, result: Doc): map<int, Doc> {
    if id in t.results then t.results[id := MergeDoc(t.results[id], Metadata(result))] else t.results
  }

  /** write_terminal: metadata, every array of the result, the hot row. */
  function TerminalWritten(t: Tables, id: int, result: Doc): Tables
    requires Splittable(result)
  {
    Tables(MetadataMerged(t, id, result), WithSteps(t.steps, id, result, true, KINDS),
           ProgressAfterSplit(t.progress, id, result))
  }

  /** A terminal write merges the metadata of an existing row and makes none; no other row is touched. */
  lemma MetadataExact(t: Tables, id: int, result: Doc, f: Field, path: seq<Key>)
    ensures var after := MetadataMerged(t, id, result);
            && after.Keys == t.results.Keys
            && (forall other :: other in after && other != id ==> after[other] == t.results[other])
            && (id in after && (f.Steps? || f !in result) ==>
                  ReadDoc(after[id], f, path) == ReadDoc(t.results[id], f, path))
            && (id in after && !f.Steps? && ReadDoc(result, f, path).Some?
                && !ReadDoc(result, f, path).value.Object? ==>
                  ReadDoc(after[id], f, path) == ReadDoc(result, f, path))
  {
    hide Read, MergeDoc;
    if id in t.results { MergedDocReads(t.results[id], Metadata(result), f, path); }
  }

  /** The tables when the write dies after the metadata, n whole kinds and `done` statements of the
      next one; with all kinds written, after the hot row too when `hot` says so. */
  function TerminalCut(t: Tables, id: int, result: Doc, n: nat, done: nat, hot: bool): Tables
    requires Splittable(result) && n <= |KINDS|
  {
    var steps := WithSteps(t.steps, id, result, true, KINDS[..n]);
    Tables(MetadataMerged(t, id, result),
           if n < |KINDS| && Steps(KINDS[n]) in result
           then AfterStatements(steps, id, KINDS[n], ListOf(result[Steps(KINDS[n])]).value, done) else steps,
           if n == |KINDS| && hot then ProgressAfterSplit(t.progress, id, result) else t.progress)
  }

  /** The row is a final one of a kind the document carries, among the given kinds. */
  predicate Rewritten(id: int, doc: Doc, kinds: seq<Kind>, k: RowKey) {
    k.id == id && k.final && k.kind in kinds && Steps(k.kind) in doc
  }

  lemma FinalizedAt(rows: Rows, id: int, kind: Kind, entries: seq<Value>, k: RowKey)
    ensures var after := Finalized(rows, id, kind, entries);
            if k.id == id && k.kind == kind && k.final then
              && (k in after <==> k.seqNo <= |entries|)
              && (k in after ==> after[k] == if k.seqNo == 0 then Null else entries[k.seqNo - 1])
            else (k in after <==> k in rows) && (k in after ==> after[k] == rows[k])
  {
    FinalizeExact(rows, id, kind, entries);
    if k.id == id && k.kind == kind && k.final {
      assert k == RowKey(id, kind, true, k.seqNo);
    }
  }

  /** The final rows of the written kinds do not depend on what was there; every other row is kept. */
  lemma {:induction false} WithStepsAt(a: Rows, b: Rows, id: int, doc: Doc, kinds: seq<Kind>, k: RowKey)
    requires Splittable(doc)
    requires Rewritten(id, doc, kinds, k) || ((k in a <==> k in b) && (k in a ==> a[k] == b[k]))
    ensures var x, y := WithSteps(a, id, doc, true, kinds), WithSteps(b, id, doc, true, kinds);
            (k in x <==> k in y) && (k in x ==> x[k] == y[k])
    decreases |kinds|
  {
    hide Finalized, ListOf;
    if kinds != [] {
      var rest, last := kinds[..|kinds| - 1], kinds[|kinds| - 1];
      assert kinds == rest + [last];
      var x, y := WithSteps(a, id, doc, true, rest), WithSteps(b, id, doc, true, rest);
      if Steps(last) in doc {
        FinalizedAt(x, id, last, ListOf(doc[Steps(last)]).value, k);
        FinalizedAt(y, id, last, ListOf(doc[Steps(last)]).value, k);
        if !(k.id == id && k.kind == last && k.final) { WithStepsAt(a, b, id, doc, rest, k); }
      } else {
        WithStepsAt(a, b, id, doc, rest, k);
      }
    }
  }

  /** Writing steps leaves every row alone that is not a final one of a written kind. */
  lemma {:induction false} WithStepsKeeps(rows: Rows, id: int, doc: Doc, kinds: seq<Kind>, k: RowKey)
    requires Splittable(doc) && !Rewritten(id, doc, kinds, k)
    ensures var after := WithSteps(rows, id, doc, true, kinds);
            (k in after <==> k in rows) && (k in after ==> after[k] == rows[k])
    decreases |kinds|
  {
    hide Finalized, ListOf;
    if kinds != [] {
      var rest, last := kinds[..|kinds| - 1], kinds[|kinds| - 1];
      assert kinds == rest + [last];
      WithStepsKeeps(rows, id, doc, rest, k);
      if Steps(last) in doc {
        FinalizedAt(WithSteps(rows, id, doc, true, rest), id, last, ListOf(doc[Steps(last)]).value, k);
      }
    }
  }

  lemma StatementsKeep(rows: Rows, id: int, kind: Kind, entries: seq<Value>, done: nat, k: RowKey)
    requires !(k.id == id && k.kind == kind && k.final)
    ensures var after := AfterStatements(rows, id, kind, entries, done);
            (k in after <==> k in rows) && (k in after ==> after[k] == rows[k])
  {
    hide Finalized;
    FinalizedAt(rows, id, kind, entries, k);
  }

  /** The steps of a cut write differ from the original ones only in rows a rerun rewrites. */
  lemma CutStepsAt(t: Tables, id: int, result: Doc, n: nat, done: nat, hot: bool, k: RowKey)
    requires Splittable(result) && n <= |KINDS| && !Rewritten(id, result, KINDS, k)
    ensures var cut := TerminalCut(t, id, result, n, done, hot).steps;
            (k in cut <==> k in t.steps) && (k in cut ==> cut[k] == t.steps[k])
  {
    hide WithSteps, AfterStatements, ListOf;
    forall kind | kind in KINDS[..n] ensures kind in KINDS { }
    WithStepsKeeps(t.steps, id, result, KINDS[..n], k);
    if n < |KINDS| && Steps(KINDS[n]) in result {
      assert KINDS[n] in KINDS;
      StatementsKeep(WithSteps(t.steps, id, result, true, KINDS[..n]), id, KINDS[n],
                     ListOf(result[Steps(KINDS[n])]).value, done, k);
    }
  }

  lemma ProgressTwice(progress: map<int, Doc>, id: int, doc: Doc)
    ensures ProgressAfterSplit(ProgressAfterSplit(progress, id, doc), id, doc) == ProgressAfterSplit(progress, id, doc)
  {
    hide MergeDoc;
    if id in progress { MergeDocTwice(progress[id], Hot(doc)); }
    MergeDocSelf(Hot(doc));
  }

  lemma MergeDocSelf(doc: Doc)
    ensures MergeDoc(doc, doc) == doc
  {
    hide Merge;
    forall f | f in doc ensures Merge(doc[f], doc[f]) == doc[f] { MergeSelf(doc[f]); }
  }

  /** A terminal write that dies anywhere, or is repeated when it has not died, is completed by
      running it again: the three tables end as after one undisturbed write. */
  lemma TerminalRetry(t: Tables, id: int, result: Doc, n: nat, done: nat, hot: bool)
    requires Splittable(result) && n <= |KINDS|
    ensures TerminalWritten(TerminalCut(t, id, result, n, done, hot), id, result) == TerminalWritten(t, id, result)
  {
    hide WithSteps, MergeDoc, ProgressAfterSplit, TerminalCut, Metadata, Rewritten;
    var cut := TerminalCut(t, id, result, n, done, hot);
    TerminalCutMeans(t, id, result, n, done, hot);
    if id in t.results { MergeDocTwice(t.results[id], Metadata(result)); }
    ProgressTwice(t.progress, id, result);
    var x, y := WithSteps(cut.steps, id, result, true, KINDS), WithSteps(t.steps, id, result, true, KINDS);
    forall k: RowKey ensures (k in x <==> k in y) && (k in x ==> x[k] == y[k]) {
      if !Rewritten(id, result, KINDS, k) { CutStepsAt(t, id, result, n, done, hot, k); }
      WithStepsAt(cut.steps, t.steps, id, result, KINDS, k);
    }
    assert x == y;
  }

  lemma TerminalCutMeans(t: Tables, id: int, result: Doc, n: nat, done: nat, hot: bool)
    requires Splittable(result) && n <= |KINDS|
    ensures var cut := TerminalCut(t, id, result, n, done, hot);
            && cut.results == MetadataMerged(t, id, result)
            && (cut.progress == t.progress || cut.progress == ProgressAfterSplit(t.progress, id, result))
  {
    hide WithSteps, MergeDoc, ProgressAfterSplit, AfterStatements, ListOf;
  }

  /** A document whose arrays the store reproduces: the four stub arrays are there, and every
      step array is a list. */
  predicate Reproducible(doc: Doc) {
    && (forall kind :: kind == Pv || kind == Trade || kind == Price || kind == Log ==> Steps(kind) in doc)
    && (forall kind :: Steps(kind) in doc ==> doc[Steps(kind)].List?)
  }

  lemma BackFields(rows: Rows, progress: map<int, Doc>, id: int, doc: Doc, f: Field)
    requires Splittable(doc) && NoRowsOf(rows, id) && id !in progress
    ensures var back :=
            Assembled(Metadata(doc), WithSteps(rows, id, doc, true, KINDS), ProgressAfterSplit(progress, id, doc), id);
            && (f in back <==> f in doc || (f.Steps? && AlwaysPresent(f.kind)))
            && (f in doc ==> back[f] == if f.Steps? then List(ListOf(doc[f]).value) else doc[f])
  {
    hide Shown, WithSteps, MergeDoc, ListOf;
    if f.Steps? {
      EveryKind(f.kind);
      SplitShows(rows, id, doc, f.kind);
    }
  }

  /** Written into a store that holds nothing for its id and read back, a document comes back
      unchanged exactly when it is reproducible. */
  lemma DocumentRoundTrip(rows: Rows, progress: map<int, Doc>, id: int, doc: Doc)
    requires Splittable(doc) && NoRowsOf(rows, id) && id !in progress
    ensures Assembled(Metadata(doc), WithSteps(rows, id, doc, true, KINDS), ProgressAfterSplit(progress, id, doc), id)
            == doc
            <==> Reproducible(doc)
  {
    hide Assembled, WithSteps, ProgressAfterSplit, Metadata;
    var steps := WithSteps(rows, id, doc, true, KINDS);
    var back := Assembled(Metadata(doc), steps, ProgressAfterSplit(progress, id, doc), id);
    forall f: Field
      ensures f in back <==> f in doc || (f.Steps? && AlwaysPresent(f.kind))
      ensures f in doc && f in back ==> back[f] == if f.Steps? then List(ListOf(doc[f]).value) else doc[f]
    {
      BackFields(rows, progress, id, doc, f);
    }
    if back != doc && Reproducible(doc) {
      assert back.Keys == doc.Keys;
      assert forall f :: f in doc ==> back[f] == doc[f];
    }
    if back == doc {
      forall kind | AlwaysPresent(kind) ensures Steps(kind) in doc { assert Steps(kind) in back; }
      forall kind | Steps(kind) in doc ensures doc[Steps(kind)].List? { assert Steps(kind) in back; }
    }
  }

  // ---- the store ----

  const PAUSED_LLM_CRITICAL: Key := Text("paused_llm_critical")
  const RUNNING: Key := Text("running")

  /** The appends of one tick: each listed kind from its own watermark, in order. */
  function TickedRows(rows: Rows, id: int, appended: seq<(Kind, seq<Value>)>, seqs: map<Kind, nat>): Rows
    decreases |appended|
  {
    if appended == [] then rows
    else
      var n := |appended| - 1;
      var before, marks := TickedRows(rows, id, appended[..n], seqs), TickedMarks(appended[..n], seqs);
      var (kind, values) := appended[n];
      var w := if kind in marks then marks[kind] else 0;
      if |values| > w then Appended(before, id, kind, false, w, values[w..]) else before
  }

  function TickedMarks(appended: seq<(Kind, seq<Value>)>, seqs: map<Kind, nat>): map<Kind, nat>
    decreases |appended|
  {
    if appended == [] then seqs
    else
      var n := |appended| - 1;
      var marks := TickedMarks(appended[..n], seqs);
      var (kind, values) := appended[n];
      var w := if kind in marks then marks[kind] else 0;
      marks[kind := if |values| > w then |values| else w]
  }

  lemma NothingTicked(rows: Rows, id: int, appended: seq<(Kind, seq<Value>)>, seqs: map<Kind, nat>)
    ensures TickedRows(rows, id, appended[..0], seqs) == rows && TickedMarks(appended[..0], seqs) == seqs
  {
  }

  lemma TickedNext(rows: Rows, id: int, appended: seq<(Kind, seq<Value>)>, i: nat, seqs: map<Kind, nat>)
    requires i < |appended|
    ensures var before, marks := TickedRows(rows, id, appended[..i], seqs), TickedMarks(appended[..i], seqs);
            var (kind, values) := appended[i];
            var w := if kind in marks then marks[kind] else 0;
            && TickedRows(rows, id, appended[..i + 1], seqs) ==
               (if |values| > w then Appended(before, id, kind, false, w, values[w..]) else before)
            && TickedMarks(appended[..i + 1], seqs) == marks[kind := if |values| > w then |values| else w]
  {
    hide Appended;
    assert appended[..i + 1][..i] == appended[..i];
  }

  class BacktestStore {
    var results: map<int, Doc>
    var steps: Rows
    var progress: map<int, Doc>

    constructor ()
      ensures results == map[] && steps == map[] && progress == map[]
    {
      results, steps, progress := map[], map[], map[];
    }

    /** One INSERT; the new watermark is returned. */
    method AppendSteps(id: int, kind: Kind, entries: seq<Value>, start: nat, final: bool) returns (watermark: nat)
      modifies this`steps
      ensures steps == Appended(old(steps), id, kind, final, start, entries)
      ensures watermark == start + |entries|
    {
      watermark := start + |entries|;
      if entries == [] {
        assert Appended(steps, id, kind, final, start, []) == steps;
        return;
      }
      steps := Appended(steps, id, kind, final, start, entries);
    }

    /** Three statements, one after the other. */
    method FinalizeSteps(id: int, kind: Kind, entries: seq<Value>)
      modifies this`steps
      ensures steps == Finalized(old(steps), id, kind, entries)
    {
      steps := WithoutFinal(steps, id, kind);
      steps := WithMarker(steps, id, kind);
      var _ := AppendSteps(id, kind, entries, 0, true);
    }

    /** Insert the hot row, or deep-merge into it. */
    method WriteProgress(id: int, payload: Doc)
      modifies this`progress
      ensures progress
              == old(progress)[id := if id in old(progress) then MergeDoc(old(progress)[id], payload) else payload]
    {
      progress := progress[id := if id in progress then MergeDoc(progress[id], payload) else payload];
    }

    /** Deep-merge into the metadata row, if there is one. */
    method UpdateResults(id: int, patch: Doc)
      modifies this`results
      ensures results == if id in old(results) then old(results)[id := MergeDoc(old(results)[id], patch)]
                         else old(results)
    {
      if id in results { results := results[id := MergeDoc(results[id], patch)]; }
    }

    method WriteStepArrays(id: int, doc: Doc, final: bool)
      requires Splittable(doc)
      modifies this`steps
      ensures steps == WithSteps(old(steps), id, doc, final, KINDS)
    {
      for i := 0 to |KINDS|
        invariant steps == WithSteps(old(steps), id, doc, final, KINDS[..i])
      {
        assert KINDS[..i + 1][..i] == KINDS[..i];
        var kind := KINDS[i];
        if Steps(kind) in doc {
          if final { FinalizeSteps(id, kind, ListOf(doc[Steps(kind)]).value); }
          else { var _ := AppendSteps(id, kind, ListOf(doc[Steps(kind)]).value, 0, false); }
        }
      }
      assert KINDS[..|KINDS|] == KINDS;
    }

    /** A document that cannot be split raises before anything is written. */
    method WriteSplit(id: int, doc: Doc, final: bool) returns (ok: bool)
      modifies this
      ensures ok <==> Splittable(doc)
      ensures ok ==> results == old(results)[id := Metadata(doc)]
                     && steps == WithSteps(old(steps), id, doc, final, KINDS)
                     && progress == ProgressAfterSplit(old(progress), id, doc)
      ensures !ok ==> results == old(results) && steps == old(steps) && progress == old(progress)
    {
      forall kind ensures kind in KINDS { EveryKind(kind); }
      ok := forall kind | kind in KINDS :: Steps(kind) in doc ==> ListOf(doc[Steps(kind)]).Some?;
      if !ok { return; }
      results := results[id := Metadata(doc)];
      WriteStepArrays(id, doc, final);
      if Hot(doc) != map[] { WriteProgress(id, Hot(doc)); }
    }

    /** The end-of-run write: metadata merged, every array in the result finalized. */
    method WriteTerminal(id: int, result: Doc) returns (ok: bool)
      modifies this
      ensures ok <==> Splittable(result)
      ensures ok ==>
                Tables(results, steps, progress) == TerminalWritten(old(Tables(results, steps, progress)), id, result)
      ensures !ok ==> results == old(results) && steps == old(steps) && progress == old(progress)
    {
      forall kind ensures kind in KINDS { EveryKind(kind); }
      ok := forall kind | kind in KINDS :: Steps(kind) in result ==> ListOf(result[Steps(kind)]).Some?;
      if !ok { return; }
      UpdateResults(id, Metadata(result));
      WriteStepArrays(id, result, true);
      if Hot(result) != map[] { WriteProgress(id, Hot(result)); }
    }

    /** The liveness write: two scalars into the hot row, and the new log lines. */
    method Heartbeat(id: int, lastActive: Value, elapsed: Option<Value>, lines: seq<Value>, logSeq: nat)
      returns (watermark: nat)
      modifies this`steps, this`progress
      ensures steps == Appended(old(steps), id, Log, false, logSeq, lines) && watermark == logSeq + |lines|
      ensures id in progress && progress.Keys == old(progress).Keys + {id}
      ensures var payload := map[LastActive := lastActive] + if elapsed.Some? then map[Elapsed := elapsed.value]
                                                             else map[];
              progress[id] == if id in old(progress) then MergeDoc(old(progress)[id], payload) else payload
    {
      var payload: Doc := map[LastActive := lastActive];
      if elapsed.Some? { payload := payload[Elapsed := elapsed.value]; }
      assert payload == map[LastActive := lastActive] + if elapsed.Some? then map[Elapsed := elapsed.value] else map[];
      WriteProgress(id, payload);
      watermark := AppendSteps(id, Log, lines, logSeq, false);
    }

    /** The progress write: only what each source holds past its watermark. The log kind is
        refused before anything is written. */
    method WriteProgressTick(id: int, hot: Doc, metadata: Doc, appended: seq<(Kind, seq<Value>)>, seqs: map<Kind, nat>)
      returns (ok: bool, marks: map<Kind, nat>)
      modifies this
      ensures ok <==> forall i :: 0 <= i < |appended| ==> appended[i].0 != Log
      ensures ok ==> steps == TickedRows(old(steps), id, appended, seqs) && marks == TickedMarks(appended, seqs)
      ensures ok ==> progress == if hot == map[] then old(progress)
                                 else old(progress)[id := if id in old(progress) then MergeDoc(old(progress)[id], hot)
                                                    else hot]
      ensures ok ==> results == if metadata != map[] && id in old(results)
                                then old(results)[id := MergeDoc(old(results)[id], metadata)] else old(results)
      ensures !ok ==> results == old(results) && steps == old(steps) && progress == old(progress) && marks == seqs
    {
      hide MergeDoc, TickedRows, TickedMarks;
      marks := seqs;
      ok := forall i | 0 <= i < |appended| :: appended[i].0 != Log;
      if !ok { return; }
      if hot != map[] { WriteProgress(id, hot); }
      if metadata != map[] { UpdateResults(id, metadata); }
      marks := AppendListed(id, appended, seqs);
    }

    /** Each listed source from its own watermark on. */
    method AppendListed(id: int, appended: seq<(Kind, seq<Value>)>, seqs: map<Kind, nat>)
      returns (marks: map<Kind, nat>)
      modifies this`steps
      ensures steps == TickedRows(old(steps), id, appended, seqs) && marks == TickedMarks(appended, seqs)
    {
      hide Appended, TickedRows, TickedMarks;
      marks := seqs;
      NothingTicked(steps, id, appended, seqs);
      for i := 0 to |appended|
        invariant steps == TickedRows(old(steps), id, appended[..i], seqs)
        invariant marks == TickedMarks(appended[..i], seqs)
      {
        TickedNext(old(steps), id, appended, i, seqs);
        var (kind, values) := appended[i];
        var written := if kind in marks then marks[kind] else 0;
        if |values| > written {
          var mark := AppendSteps(id, kind, values[written..], written, false);
          marks := marks[kind := mark];
        } else {
          marks := marks[kind := written];
        }
      }
      assert appended[..|appended|] == appended;
    }

    /** Compare-and-swap: only a run paused by the critical guard is set running again. */
    method ResumeFromCriticalPause(id: int, cleared: Doc, resumedAt: Value) returns (resumed: bool)
      modifies this`progress, this`results
      ensures resumed <==> id in old(progress) && Status in old(progress)[id]
                           && old(progress)[id][Status] == Str(PAUSED_LLM_CRITICAL)
      ensures resumed ==> progress == old(progress)[id := old(progress)[id][Status := Str(RUNNING)]]
                          && results == if id in old(results)
                                        then old(results)[id :=
                                                          MergeDoc(old(results)[id],
                                                                   cleared[Other(Text("resumed_at")) := resumedAt])]
                                        else old(results)
      ensures !resumed ==> progress == old(progress) && results == old(results)
    {
      resumed := id in progress && Status in progress[id] && progress[id][Status] == Str(PAUSED_LLM_CRITICAL);
      if !resumed { return; }
      var patch: Doc := map[Status := Str(RUNNING)];
      assert MergeDoc(progress[id], patch) == progress[id][Status := Str(RUNNING)];
      WriteProgress(id, patch);
      UpdateResults(id, cleared[Other(Text("resumed_at")) := resumedAt]);
    }

    /** Put the legacy document back together. */
    method Assemble(id: int) returns (doc: Option<Doc>)
      ensures doc == if id in results then Some(Assembled(results[id], steps, progress, id)) else None
    {
      hide Shown, Hot, ShownFields;
      if id !in results { return None; }
      var out := results[id];
      NothingToShow(steps, id);
      assert out + map[] == out;
      for i := 0 to |KINDS|
        invariant out == results[id] + ShownFields(steps, id, KINDS[..i])
      {
        assert KINDS[..i + 1] == KINDS[..i] + [KINDS[i]];
        ShownNext(steps, id, KINDS[..i], KINDS[i]);
        var shown := Shown(steps, id, KINDS[i]);
        if shown.Some? {
          PlusThenUpdate(results[id], ShownFields(steps, id, KINDS[..i]), Steps(KINDS[i]), List(shown.value));
          out := out[Steps(KINDS[i]) := List(shown.value)];
        }
      }
      assert KINDS[..|KINDS|] == KINDS;
      assert out + map[] == out;
      if id in progress { out := out + Hot(progress[id]); }
      doc := Some(out);
    }

    method AssembleField(id: int, kind: Kind) returns (values: Option<seq<Value>>)
      ensures values == Shown(steps, id, kind)
    {
      values := Shown(steps, id, kind);
    }
  }

  function GetList(doc: Doc, kind: Kind): Option<Value> {
    if Steps(kind) in doc && doc[Steps(kind)] != Null then Some(doc[Steps(kind)]) else None
  }

  /** One array read alone is the array of the assembled document, unless the metadata itself
      carries a value under that key while nothing is stored for it. */
  lemma FieldAgreesWithDocument(meta: Doc, rows: Rows, progress: map<int, Doc>, id: int, kind: Kind)
    ensures var field := Shown(rows, id, kind);
            GetList(Assembled(meta, rows, progress, id), kind)
            == (if field.Some? then Some(List(field.value)) else None)
            <==> (field.Some? || Steps(kind) !in meta || meta[Steps(kind)] == Null)
  {
    hide Shown;
    EveryKind(kind);
  }
}

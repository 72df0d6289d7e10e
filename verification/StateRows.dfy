/** The order-free hash of a table's exported rows, and the content-addressed manifest. */
module StateRows {
  import opened FrozenState
  import opened JsonTree
  import opened KeyOrder
  import opened Options

  /** How a primary key is written as text for ordering: canonical JSON. */
  type Writer = Json -> Key

  datatype Scheme = Scheme(keyFields: seq<Key>, writer: Writer, fits: Fits)

  type Table = map<Key, Json>

  /** The primary key of a normalised row, as a list. */
  function PrimaryKey(row: Json, keyFields: seq<Key>): Json
    requires row.Obj? && forall i :: 0 <= i < |keyFields| ==> keyFields[i] in row.fields
  {
    Arr(seq(|keyFields|, i requires 0 <= i < |keyFields| => row.fields[keyFields[i]]))
  }

  predicate HasKey(row: Json, keyFields: seq<Key>) {
    row.Obj? && forall i :: 0 <= i < |keyFields| ==> keyFields[i] in row.fields
  }

  predicate RowOk(s: Scheme, row: Json) {
    && row.Obj? && Accepted(FROZEN, row)
    && HasKey(Normal(row), s.keyFields)
    && Accepted(FROZEN, PrimaryKey(Normal(row), s.keyFields))
    && s.fits(Normal(PrimaryKey(Normal(row), s.keyFields)))
  }

  function KeyText(s: Scheme, row: Json): Key
    requires RowOk(s, row)
  {
    s.writer(Normal(PrimaryKey(Normal(row), s.keyFields)))
  }

  /** The rows by primary key; a bad row or a repeated key fails the whole table. */
  function TableOf(s: Scheme, rows: seq<Json>): Option<Table> {
    if rows == [] then Some(map[])
    else
      var front, row := TableOf(s, rows[..|rows| - 1]), rows[|rows| - 1];
      if front.None? || !RowOk(s, row) || KeyText(s, row) in front.value then None
      else Some(front.value[KeyText(s, row) := Normal(row)])
  }

  /** The rows in primary-key order. */
  function Ordered(table: Table): (rows: seq<Json>) {
    var ks := SortedKeys(table.Keys);
    seq(|ks|, i requires 0 <= i < |ks| => assert ks[i] in ks; table[ks[i]])
  }

  predicate SchemeOk(keyFields: seq<Key>) {
    keyFields != [] && forall i :: 0 <= i < |keyFields| ==> keyFields[i] != []
  }

  function RowsDoc(keyFields: seq<Key>, rows: seq<Json>): Json {
    Obj(map[Text("version") := Str(Text("frozen-state-rows-v1")),
            Text("key_fields") := Arr(seq(|keyFields|, i requires 0 <= i < |keyFields| => Str(keyFields[i]))),
            Text("rows") := Arr(rows)])
  }

  function Digest(fits: Fits, v: Json): Option<Json> {
    if Accepted(FROZEN, v) && fits(Normal(v)) then Some(Sha(Normal(v))) else None
  }

  function RowsHash(s: Scheme, rows: seq<Json>): Option<Json> {
    if |rows| > MAX_ROWS || !SchemeOk(s.keyFields) || TableOf(s, rows).None? then None
    else Digest(s.fits, RowsDoc(s.keyFields, Ordered(TableOf(s, rows).value)))
  }

  /** A good row is a strict JSON object with every key field, and its key is strict JSON within the
      byte limit. */
  lemma RowExact(s: Scheme, row: Json)
    ensures RowOk(s, row) <==>
            && row.Obj? && Accepted(FROZEN, row)
            && (forall i :: 0 <= i < |s.keyFields| ==> s.keyFields[i] in row.fields)
            && var key := KeyOf(s, row); Accepted(FROZEN, key) && s.fits(Normal(key))
    ensures RowOk(s, row) ==> KeyText(s, row) == s.writer(Normal(KeyOf(s, row)))
  {
    hide Accepted, Normal;
    if row.Obj? {
      NormalKind(row);
      if forall i :: 0 <= i < |s.keyFields| ==> s.keyFields[i] in row.fields {
        assert PrimaryKey(Normal(row), s.keyFields).items == KeyOf(s, row).items;
      }
    }
  }

  /** The normal forms of a row's key fields, in the scheme's order. */
  function KeyOf(s: Scheme, row: Json): Json {
    if row.Obj? && forall i :: 0 <= i < |s.keyFields| ==> s.keyFields[i] in row.fields then
      Arr(seq(|s.keyFields|, i requires 0 <= i < |s.keyFields| => Normal(row.fields[s.keyFields[i]])))
    else Null
  }

  /** There is a hash exactly when the rows are not too many, there are key fields with names, the table
      is good, and the document of its rows is strict JSON within the byte limit; it is its digest. */
  lemma HashExact(s: Scheme, rows: seq<Json>)
    ensures AllKeyed(s, rows) <==> TableOf(s, rows).Some?
    ensures RowsHash(s, rows).Some? <==>
            && |rows| <= 2_000_000 && s.keyFields != []
            && (forall i :: 0 <= i < |s.keyFields| ==> s.keyFields[i] != [])
            && TableOf(s, rows).Some? && Accepted(FROZEN, RowsDoc(s.keyFields, Ordered(TableOf(s, rows).value)))
            && s.fits(Normal(RowsDoc(s.keyFields, Ordered(TableOf(s, rows).value))))
    ensures RowsHash(s, rows).Some? ==>
              RowsHash(s, rows).value == Sha(Normal(RowsDoc(s.keyFields, Ordered(TableOf(s, rows).value))))
  {
    hide RowOk, KeyText, AllKeyed, Holds, TableOf, Ordered, Accepted, Normal, RowsDoc;
    TableMeans(s, rows);
  }

  // ---- what a table is ----

  /** Every row is good and no two share a key. */
  predicate AllKeyed(s: Scheme, rows: seq<Json>) {
    && (forall i :: 0 <= i < |rows| ==> RowOk(s, rows[i]))
    && forall i, j :: 0 <= i < j < |rows| ==> KeyText(s, rows[i]) != KeyText(s, rows[j])
  }

  predicate Holds(s: Scheme, rows: seq<Json>, table: Table)
    requires AllKeyed(s, rows)
  {
    && (forall i :: 0 <= i < |rows| ==> KeyText(s, rows[i]) in table && table[KeyText(s, rows[i])] == Normal(rows[i]))
    && forall k :: k in table ==> exists i :: 0 <= i < |rows| && KeyText(s, rows[i]) == k
  }

  lemma {:induction false} TableMeans(s: Scheme, rows: seq<Json>)
    ensures TableOf(s, rows).Some? <==> AllKeyed(s, rows)
    ensures AllKeyed(s, rows) ==> Holds(s, rows, TableOf(s, rows).value)
    decreases |rows|
  {
    hide RowOk, KeyText, AllKeyed, Holds;
    if rows == [] {
      NoRows(s);
    } else {
      var front, row := rows[..|rows| - 1], rows[|rows| - 1];
      assert rows == front + [row];
      TableMeans(s, front);
      if TableOf(s, front).Some? && RowOk(s, row) {
        OneRowMore(s, front, row, TableOf(s, front).value);
      } else if AllKeyed(s, rows) {
        PartsKeyed(s, front, row);
      }
    }
  }

  lemma NoRows(s: Scheme)
    ensures AllKeyed(s, []) && Holds(s, [], map[])
  {
  }

  lemma PartsKeyed(s: Scheme, front: seq<Json>, row: Json)
    requires AllKeyed(s, front + [row])
    ensures AllKeyed(s, front) && RowOk(s, row)
  {
    hide RowOk, KeyText;
    var rows := front + [row];
    assert rows[|front|] == row;
    forall i | 0 <= i < |front| ensures RowOk(s, front[i]) { assert rows[i] == front[i]; }
    forall i, j | 0 <= i < j < |front| ensures KeyText(s, front[i]) != KeyText(s, front[j]) {
      assert rows[i] == front[i] && rows[j] == front[j];
    }
  }

  lemma OneRowMore(s: Scheme, front: seq<Json>, row: Json, table: Table)
    requires AllKeyed(s, front) && Holds(s, front, table) && RowOk(s, row)
    ensures AllKeyed(s, front + [row]) <==> KeyText(s, row) !in table
    ensures KeyText(s, row) !in table ==> Holds(s, front + [row], table[KeyText(s, row) := Normal(row)])
  {
    hide RowOk, KeyText, Normal;
    var rows, key := front + [row], KeyText(s, row);
    if key in table {
      var i :| 0 <= i < |front| && KeyText(s, front[i]) == key;
      assert rows[i] == front[i] && rows[|front|] == row;
    } else {
      var more := table[key := Normal(row)];
      forall k | k in more ensures exists i :: 0 <= i < |rows| && KeyText(s, rows[i]) == k {
        if k == key {
          assert KeyText(s, rows[|front|]) == k;
        } else {
          var i :| 0 <= i < |front| && KeyText(s, front[i]) == k;
          assert rows[i] == front[i];
        }
      }
    }
  }

  // ---- any order of the rows ----

  lemma {:induction false} AtMostOnce(s: Scheme, rows: seq<Json>, x: Json)
    requires AllKeyed(s, rows)
    ensures multiset(rows)[x] <= 1
    decreases |rows|
  {
    hide RowOk, KeyText;
    if rows != [] {
      var front, last := rows[..|rows| - 1], rows[|rows| - 1];
      assert rows == front + [last];
      PartsKeyed(s, front, last);
      AtMostOnce(s, front, x);
      forall i | 0 <= i < |front| ensures front[i] != last {
        assert KeyText(s, rows[i]) != KeyText(s, rows[|rows| - 1]);
      }
      assert last !in multiset(front);
    }
  }

  lemma TwicePlaces(rows: seq<Json>, i: nat, j: nat)
    requires i < j < |rows| && rows[i] == rows[j]
    ensures multiset(rows)[rows[i]] >= 2
  {
    assert rows == rows[..j] + [rows[j]] + rows[j + 1..];
    assert rows[..j][i] == rows[i];
    assert rows[i] in multiset(rows[..j]);
  }

  lemma Apart(rows: seq<Json>, i: nat, j: nat)
    requires i < j < |rows| && multiset(rows)[rows[i]] <= 1
    ensures rows[i] != rows[j]
  {
    if rows[i] == rows[j] { TwicePlaces(rows, i, j); }
  }

  lemma KeyedInAnyOrder(s: Scheme, rows: seq<Json>, other: seq<Json>)
    requires multiset(rows) == multiset(other) && AllKeyed(s, rows)
    ensures AllKeyed(s, other)
  {
    hide RowOk, KeyText;
    forall i | 0 <= i < |other| ensures RowOk(s, other[i]) && other[i] in rows {
      assert other[i] in multiset(other);
    }
    forall i, j | 0 <= i < j < |other| ensures KeyText(s, other[i]) != KeyText(s, other[j]) {
      AtMostOnce(s, rows, other[i]);
      Apart(other, i, j);
      DifferentRows(s, rows, other[i], other[j]);
    }
  }

  lemma DifferentRows(s: Scheme, rows: seq<Json>, x: Json, y: Json)
    requires AllKeyed(s, rows) && x in rows && y in rows && x != y
    ensures RowOk(s, x) && RowOk(s, y) && KeyText(s, x) != KeyText(s, y)
  {
    hide RowOk, KeyText;
    var a :| 0 <= a < |rows| && rows[a] == x;
    var b :| 0 <= b < |rows| && rows[b] == y;
    if a < b {
      assert KeyText(s, rows[a]) != KeyText(s, rows[b]); } else { assert KeyText(s, rows[b]) != KeyText(s, rows[a]);
    }
  }

  lemma SameTable(s: Scheme, rows: seq<Json>, other: seq<Json>, a: Table, b: Table)
    requires AllKeyed(s, rows) && AllKeyed(s, other) && Holds(s, rows, a) && Holds(s, other, b)
    requires forall x :: x in rows <==> x in other
    ensures a == b
  {
    hide RowOk, KeyText, Normal;
    PartOfTable(s, rows, other, a, b);
    PartOfTable(s, other, rows, b, a);
    assert a.Keys == b.Keys;
  }

  lemma PartOfTable(s: Scheme, rows: seq<Json>, other: seq<Json>, a: Table, b: Table)
    requires AllKeyed(s, rows) && AllKeyed(s, other) && Holds(s, rows, a) && Holds(s, other, b)
    requires forall x :: x in rows ==> x in other
    ensures forall k :: k in a ==> k in b && b[k] == a[k]
  {
    hide RowOk, KeyText, Normal;
    forall k | k in a ensures k in b && b[k] == a[k] {
      var i :| 0 <= i < |rows| && KeyText(s, rows[i]) == k;
      assert rows[i] in other;
      var j :| 0 <= j < |other| && other[j] == rows[i];
      assert KeyText(s, other[j]) in b;
    }
  }

  /** The hash, and whether there is one, does not depend on the order of the rows. */
  lemma RowOrderIrrelevant(s: Scheme, rows: seq<Json>, other: seq<Json>)
    requires multiset(rows) == multiset(other)
    ensures RowsHash(s, rows) == RowsHash(s, other)
  {
    hide RowOk, KeyText, AllKeyed, Holds, TableOf, Digest, Ordered;
    assert |rows| == |multiset(rows)| && |other| == |multiset(other)|;
    TableMeans(s, rows);
    TableMeans(s, other);
    if AllKeyed(s, rows) { KeyedInAnyOrder(s, rows, other); }
    if AllKeyed(s, other) { KeyedInAnyOrder(s, other, rows); }
    if AllKeyed(s, rows) && AllKeyed(s, other) {
      forall x ensures x in rows <==> x in other { assert x in multiset(rows) <==> x in multiset(other); }
      SameTable(s, rows, other, TableOf(s, rows).value, TableOf(s, other).value);
    }
  }

  // ---- one hash, one set of rows ----

  /** A table's rows, looked up by their own keys. */
  predicate SelfKeyed(s: Scheme, table: Table) {
    forall k :: k in table ==>
      HasKey(table[k], s.keyFields) && k == s.writer(Normal(PrimaryKey(table[k], s.keyFields)))
        && Normal(table[k]) == table[k]
  }

  lemma {:induction false} TablesAreSelfKeyed(s: Scheme, rows: seq<Json>)
    requires TableOf(s, rows).Some?
    ensures SelfKeyed(s, TableOf(s, rows).value)
    decreases |rows|
  {
    hide Accepted, Normal;
    if rows != [] {
      TablesAreSelfKeyed(s, rows[..|rows| - 1]);
      NormalTwice(rows[|rows| - 1]);
    }
  }

  lemma OrderedDetermines(s: Scheme, a: Table, b: Table)
    requires SelfKeyed(s, a) && SelfKeyed(s, b) && Ordered(a) == Ordered(b)
    ensures a == b
  {
    hide Normal, PrimaryKey, HasKey, SortedKeys;
    OrderedPart(s, a, b);
    OrderedPart(s, b, a);
    assert a.Keys == b.Keys;
  }

  lemma OrderedPart(s: Scheme, a: Table, b: Table)
    requires SelfKeyed(s, a) && SelfKeyed(s, b) && Ordered(a) == Ordered(b)
    ensures forall k :: k in a ==> k in b && b[k] == a[k]
  {
    hide Normal, PrimaryKey, HasKey, Less, Ascending;
    var ka, kb := SortedKeys(a.Keys), SortedKeys(b.Keys);
    assert |Ordered(a)| == |ka| && |Ordered(b)| == |kb|;
    forall k | k in a ensures k in b && b[k] == a[k] {
      assert k in ka;
      var i :| 0 <= i < |ka| && ka[i] == k;
      assert Ordered(a)[i] == a[k] && Ordered(b)[i] == b[kb[i]];
      assert kb[i] in kb;
      assert kb[i] in b;
    }
  }

  lemma OrderedAreNormal(s: Scheme, table: Table)
    requires SelfKeyed(s, table)
    ensures Normal(RowsDoc(s.keyFields, Ordered(table))) == RowsDoc(s.keyFields, Ordered(table))
  {
    hide PrimaryKey, HasKey, SortedKeys, Normal, RowsDoc;
    var rows := Ordered(table);
    forall i | 0 <= i < |rows| ensures Normal(rows[i]) == rows[i] {
      assert SortedKeys(table.Keys)[i] in SortedKeys(table.Keys);
    }
    NormalList(rows);
    NormalDoc(s.keyFields, rows);
  }

  lemma NormalDoc(keyFields: seq<Key>, rows: seq<Json>)
    requires Normal(Arr(rows)) == Arr(rows)
    ensures Normal(RowsDoc(keyFields, rows)) == RowsDoc(keyFields, rows)
  {
    hide Normal, Text;
    var names := seq(|keyFields|, i requires 0 <= i < |keyFields| => Str(keyFields[i]));
    forall i | 0 <= i < |names| ensures Normal(names[i]) == names[i] { NormalKind(names[i]); }
    NormalList(names);
    var doc := RowsDoc(keyFields, rows);
    NormalKind(doc);
    NormalKind(Str(Text("frozen-state-rows-v1")));
    SameFields(Normal(doc), doc);
  }

  lemma NormalList(items: seq<Json>)
    requires forall i :: 0 <= i < |items| ==> Normal(items[i]) == items[i]
    ensures Normal(Arr(items)) == Arr(items)
  {
    hide Normal;
    NormalKind(Arr(items));
    SameItems(Normal(Arr(items)), Arr(items));
  }

  /** Two tables with one hash hold the same normalised rows under the same keys. */
  lemma SameHashSameRows(s: Scheme, rows: seq<Json>, other: seq<Json>)
    requires RowsHash(s, rows).Some? && RowsHash(s, rows) == RowsHash(s, other)
    ensures TableOf(s, rows).value == TableOf(s, other).value
  {
    hide TableOf, Ordered, Accepted, Normal;
    var a, b := TableOf(s, rows).value, TableOf(s, other).value;
    TablesAreSelfKeyed(s, rows);
    TablesAreSelfKeyed(s, other);
    OrderedAreNormal(s, a);
    OrderedAreNormal(s, b);
    DocRows(s.keyFields, Ordered(a), Ordered(b));
    OrderedDetermines(s, a, b);
  }

  lemma DocRows(keyFields: seq<Key>, a: seq<Json>, b: seq<Json>)
    requires RowsDoc(keyFields, a) == RowsDoc(keyFields, b)
    ensures a == b
  {
    assert RowsDoc(keyFields, a).fields[Text("rows")] == Arr(a);
    assert RowsDoc(keyFields, b).fields[Text("rows")] == Arr(b);
  }

  /** And tables with one hash are keyed alike. */
  lemma SameHashSameKeys(s: Scheme, rows: seq<Json>, t: Scheme, other: seq<Json>)
    requires RowsHash(s, rows).Some? && RowsHash(s, rows) == RowsHash(t, other)
    ensures s.keyFields == t.keyFields
  {
    hide TableOf, Ordered, Accepted, Normal, RowsDoc;
    TablesAreSelfKeyed(s, rows);
    TablesAreSelfKeyed(t, other);
    OrderedAreNormal(s, TableOf(s, rows).value);
    OrderedAreNormal(t, TableOf(t, other).value);
    DocKeys(s.keyFields, Ordered(TableOf(s, rows).value));
    DocKeys(t.keyFields, Ordered(TableOf(t, other).value));
    assert Names(s.keyFields) == Names(t.keyFields);
    forall i | 0 <= i < |s.keyFields| ensures s.keyFields[i] == t.keyFields[i] {
      assert Names(s.keyFields)[i] == Names(t.keyFields)[i];
    }
  }

  function Names(keyFields: seq<Key>): (names: seq<Json>)
    ensures |names| == |keyFields| && forall i :: 0 <= i < |names| ==> names[i] == Str(keyFields[i])
  {
    seq(|keyFields|, i requires 0 <= i < |keyFields| => Str(keyFields[i]))
  }

  lemma DocKeys(keyFields: seq<Key>, rows: seq<Json>)
    ensures var doc := RowsDoc(keyFields, rows);
            doc.Obj? && Text("key_fields") in doc.fields && doc.fields[Text("key_fields")] == Arr(Names(keyFields))
  {
    assert |Text("key_fields")| == 10 && |Text("rows")| == 4;
    var doc := RowsDoc(keyFields, rows);
    assert doc.fields[Text("key_fields")].items == Names(keyFields);
  }

  /** The rows one by one, with the keys seen so far. */
  method StateRowsSha256(s: Scheme, rows: seq<Json>) returns (hash: Option<Json>)
    ensures hash == RowsHash(s, rows)
  {
    hide RowOk, KeyText, Accepted, Normal, Ordered;
    if |rows| > MAX_ROWS || !SchemeOk(s.keyFields) { return None; }
    var normalized: Table := map[];
    for i := 0 to |rows|
      invariant TableOf(s, rows[..i]) == Some(normalized)
    {
      var row := rows[i];
      assert rows[..i + 1][..i] == rows[..i];
      RowMeans(s, row);
      var key := RowKey(s, row);
      if key.None? || key.value in normalized {
        NoTable(s, rows, i + 1);
        return None;
      }
      normalized := normalized[key.value := Normal(row)];
    }
    assert rows[..|rows|] == rows;
    hash := Digest(s.fits, RowsDoc(s.keyFields, Ordered(normalized)));
  }

  /** The text a row is ordered by, when the row is good. */
  function RowKey(s: Scheme, row: Json): Option<Key> {
    if RowOk(s, row) then Some(KeyText(s, row)) else None
  }

  lemma RowMeans(s: Scheme, row: Json)
    ensures RowKey(s, row).Some? <==> RowOk(s, row)
    ensures RowOk(s, row) ==> RowKey(s, row) == Some(KeyText(s, row))
  {
    hide RowOk, KeyText;
  }

  lemma {:induction false} NoTable(s: Scheme, rows: seq<Json>, i: nat)
    requires i <= |rows| && TableOf(s, rows[..i]).None?
    ensures TableOf(s, rows).None?
    decreases |rows| - i
  {
    hide RowOk, KeyText;
    if i == |rows| {
      assert rows[..i] == rows;
    } else {
      assert rows[..i + 1][..i] == rows[..i];
      NoTable(s, rows, i + 1);
    }
  }

  // ---- the manifest ----

  const BUNDLE: Key := Text("bundle_sha256")

  /** The field-by-field checks of a manifest, apart from its hash, and the byte limit. */
  datatype Schema = Schema(core: Json -> bool, fits: Fits)

  function Unbundled(manifest: Json): Json
    requires manifest.Obj?
  {
    Obj(manifest.fields - {BUNDLE})
  }

  function Verified(schema: Schema, manifest: Json): Option<Json> {
    if !manifest.Obj? || !Accepted(FROZEN, manifest) then None
    else
      var normal := Normal(manifest);
      if BUNDLE !in normal.fields || !schema.core(Unbundled(normal)) then None
      else if Some(normal.fields[BUNDLE]) != Digest(schema.fits, Unbundled(normal)) then None
      else Some(normal)
  }

  function Built(schema: Schema, core: Json): Option<Json> {
    if !core.Obj? || BUNDLE in core.fields || Digest(schema.fits, core).None? then None
    else Verified(schema, Obj(Normal(core).fields[BUNDLE := Sha(Normal(core))]))
  }

  /** What is built verifies again as itself, around the normal form of the core it was built from. */
  lemma BuiltVerifies(schema: Schema, core: Json)
    requires Built(schema, core).Some?
    ensures var built := Built(schema, core).value;
            && Verified(schema, built) == Some(built)
            && built.Obj? && BUNDLE in built.fields && Unbundled(built) == Normal(core)
            && built.fields[BUNDLE] == Sha(Normal(core))
  {
    hide Accepted, Normal;
    NormalKind(core);
    NormalTwice(core);
    var candidate := Obj(Normal(core).fields[BUNDLE := Sha(Normal(core))]);
    BundledIsNormal(Normal(core), Sha(Normal(core)));
    assert Unbundled(candidate).fields == Normal(core).fields;
  }

  /** A manifest verifies exactly when it is a strict JSON object whose rest passes the field checks and
      is within the byte limit, and whose bundle hash is the digest of that rest. */
  lemma VerifiedExact(schema: Schema, manifest: Json)
    ensures Verified(schema, manifest).Some? <==>
            && manifest.Obj? && Accepted(FROZEN, manifest) && BUNDLE in manifest.fields
            && var rest := Obj(Normal(manifest).fields - {BUNDLE});
               && schema.core(rest) && Accepted(FROZEN, rest) && schema.fits(rest)
               && Normal(manifest.fields[BUNDLE]) == Sha(rest)
    ensures Verified(schema, manifest).Some? ==> Verified(schema, manifest).value == Normal(manifest)
  {
    hide Accepted, Normal;
    if manifest.Obj? {
      NormalKind(manifest);
      UnbundledIsNormal(manifest);
    }
  }

  /** A manifest is built exactly for an unbundled strict JSON object within the byte limit that passes
      the field checks and is still strict JSON with its hash. */
  lemma BuiltExact(schema: Schema, core: Json)
    ensures Built(schema, core).Some? <==>
            && core.Obj? && BUNDLE !in core.fields && Accepted(FROZEN, core) && schema.fits(Normal(core))
            && schema.core(Normal(core)) && Accepted(FROZEN, Obj(Normal(core).fields[BUNDLE := Sha(Normal(core))]))
  {
    hide Accepted, Normal;
    if core.Obj? && BUNDLE !in core.fields && Accepted(FROZEN, core) {
      NormalKind(core);
      NormalTwice(core);
      NormalizedTwice(FROZEN, core);
      var candidate := Obj(Normal(core).fields[BUNDLE := Sha(Normal(core))]);
      BundledIsNormal(Normal(core), Sha(Normal(core)));
      VerifiedExact(schema, candidate);
      assert candidate.fields - {BUNDLE} == Normal(core).fields;
      NormalKind(Sha(Normal(core)));
    }
  }

  lemma BundledIsNormal(core: Json, digest: Json)
    requires core.Obj? && Normal(core) == core && digest.Sha?
    ensures Normal(Obj(core.fields[BUNDLE := digest])) == Obj(core.fields[BUNDLE := digest])
  {
    hide Normal;
    var bundled := Obj(core.fields[BUNDLE := digest]);
    NormalKind(bundled);
    NormalKind(core);
    NormalKind(digest);
    SameFields(Normal(bundled), bundled);
  }

  /** A manifest verifies exactly when its own core would be built into it. */
  lemma VerifiedIffBuilt(schema: Schema, manifest: Json)
    requires manifest.Obj? && Accepted(FROZEN, manifest)
    ensures Verified(schema, manifest).Some? <==>
            && BUNDLE in manifest.fields
            && Built(schema, Unbundled(Normal(manifest))) == Some(Normal(manifest))
  {
    hide Accepted, Normal;
    NormalKind(manifest);
    var normal := Normal(manifest);
    var core := Unbundled(normal);
    UnbundledIsNormal(manifest);
    NormalTwice(manifest);
    NormalizedTwice(FROZEN, manifest);
    if BUNDLE in manifest.fields && normal.fields[BUNDLE] == Sha(core) {
      assert core.fields[BUNDLE := Sha(core)] == normal.fields;
    }
    if Built(schema, core) == Some(normal) {
      BuiltVerifies(schema, core);
    }
  }

  lemma UnbundledIsNormal(manifest: Json)
    requires manifest.Obj?
    ensures Normal(manifest).Obj? && Normal(Unbundled(Normal(manifest))) == Unbundled(Normal(manifest))
  {
    hide Normal;
    NormalKind(manifest);
    var core := Unbundled(Normal(manifest));
    NormalKind(core);
    forall k | k in core.fields ensures Normal(core.fields[k]) == core.fields[k] {
      NormalTwice(manifest.fields[k]);
    }
    SameFields(Normal(core), core);
  }

  /** The bundle hash addresses the content: two verified manifests with one hash differ only in
      how whole numbers are held. */
  lemma SameBundleSameManifest(schema: Schema, a: Json, b: Json)
    requires Verified(schema, a).Some? && Verified(schema, b).Some?
    requires Verified(schema, a).value.fields[BUNDLE] == Verified(schema, b).value.fields[BUNDLE]
    ensures Alias(a, b)
  {
    hide Accepted, Normal, Alias;
    NormalKind(a);
    NormalKind(b);
    UnbundledIsNormal(a);
    UnbundledIsNormal(b);
    var na, nb := Normal(a), Normal(b);
    assert na.fields == Unbundled(na).fields[BUNDLE := na.fields[BUNDLE]];
    assert nb.fields == Unbundled(nb).fields[BUNDLE := nb.fields[BUNDLE]];
    NormalIffAlias(a, b);
  }
}

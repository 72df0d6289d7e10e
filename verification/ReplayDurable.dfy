/** The durable replay store: any number of store objects over one backend whose only write is
    an atomic insert-if-absent. Every step below makes at most one backend call, so a run can
    be cut off, or a store object lost, between any two inserts. */
module ReplayDurable {
  import opened KeyOrder
  import opened ReplayModel
  import opened ReplayStore

  datatype Tables = Tables(matrices: map<MatrixId, Matrix>, builds: map<BuildId, Declaration>, calls: Rows,
                           fixtures: map<FixtureId, FixtureDoc>, receipts: map<ReceiptId, ReceiptDoc>)

  /** Where a store object stands inside `publish_fixture` or `publish_receipt`. `candidates`
      are the rows the preflight approved, `todo` those still to insert. */
  datatype At =
    | Idle
    | Publishing(f: Fixture, candidates: Rows, todo: seq<Row>)
    | Witnessing(r: Receipt)

  datatype Store = Store(mem: Memory, at: At)

  const FRESH := Store(EMPTY, Idle)

  datatype Op =
    | PublishMatrix(m: Matrix)
    | ReserveBuild(id: BuildId, declaration: Declaration)
    | PublishCall(row: Row)
    | BeginFixture(f: Fixture)
    | Continue
    | BeginReceipt(r: Receipt)
    | ReadMatrix(matrixId: MatrixId)
    | ReadCall(rowId: Text)
    | ReadFixture(fixtureId: FixtureId)
    | Crash

  /** The backend's insert_record: the row stays if it is there already, and the caller raises
      when it differs from what it wanted to write. */
  function Inserted<K, V>(table: map<K, V>, k: K, v: V): map<K, V> {
    if k in table then table else table[k := v]
  }

  predicate Accepted<K, V(==)>(table: map<K, V>, k: K, v: V) {
    k in table ==> table[k] == v
  }

  // ---- the operations ----

  /** The lookup that precedes this insert is a ReadMatrix step: another store object may have
      written the row in between. */
  function DoPublishMatrix(t: Tables, s: Store, m: Matrix): (Tables, Store) {
    var id := IdOf(m);
    if id in s.mem.matrices then (t, s)
    else (t.(matrices := Inserted(t.matrices, id, m)),
          if Accepted(t.matrices, id, m) then s.(mem := WithMatrix(s.mem, m)) else s)
  }

  function DoReserveBuild(t: Tables, s: Store, id: BuildId, d: Declaration): (Tables, Store) {
    (t.(builds := Inserted(t.builds, id, d)),
     if Accepted(t.builds, id, d) && id !in s.mem.builds then s.(mem := WithBuild(s.mem, id, d)) else s)
  }

  function DoPublishCall(t: Tables, s: Store, row: Row): (Tables, Store) {
    if row.id in s.mem.calls then (t, s)
    else (t.(calls := Inserted(t.calls, row.id, row)),
          if Accepted(t.calls, row.id, row) then s.(mem := WithCall(s.mem, row)) else s)
  }

  /** Looking a matrix up in the cache, then in the backend. */
  function CacheMatrix(t: Tables, mem: Memory, id: MatrixId): Memory {
    if id !in mem.matrices && id in t.matrices then mem.(matrices := mem.matrices[id := t.matrices[id]]) else mem
  }

  function CacheCall(t: Tables, mem: Memory, id: Text): Memory {
    if id !in mem.calls && id in t.calls then mem.(calls := mem.calls[id := t.calls[id]]) else mem
  }

  function CacheFixture(t: Tables, mem: Memory, id: FixtureId): Memory {
    if id !in mem.fixtures && id in t.fixtures && FromDoc(t.fixtures[id]).Ok?
    then mem.(fixtures := mem.fixtures[id := FromDoc(t.fixtures[id]).value]) else mem
  }

  /** Preflight, without writes. */
  function DoBeginFixture(t: Tables, s: Store, f: Fixture): (Tables, Store) {
    var mem := CacheMatrix(t, s.mem, f.doc.matrixId);
    match Preflight(mem, f)
    case Err => (t, s.(mem := mem))
    case Ok(rows) => (t, Store(mem, Publishing(f, Screen(mem.calls, f.records).value.candidates, rows)))
  }

  /** The next insert of `publish_fixture`: one call row, or at the end the manifest. The
      in-memory publication that follows the manifest repeats the preflight on the cache. */
  function DoContinue(t: Tables, s: Store): (Tables, Store) {
    match s.at
    case Idle => (t, s)
    case Publishing(f, candidates, todo) =>
      if todo != [] then
        var row := todo[0];
        if row.id in s.mem.calls then
          (t, s.(at := if s.mem.calls[row.id] == row then Publishing(f, candidates, todo[1..]) else Idle))
        else if Accepted(t.calls, row.id, row) then
          (t.(calls := Inserted(t.calls, row.id, row)),
           Store(WithCall(s.mem, row), Publishing(f, candidates, todo[1..])))
        else (t, s.(at := Idle))
      else
        var id := FixtureIdOf(f.doc);
        var t' := t.(fixtures := Inserted(t.fixtures, id, f.doc));
        if !Accepted(t.fixtures, id, f.doc) || Preflight(s.mem, f) != Ok([]) || id in s.mem.fixtures
        then (t', s.(at := Idle))
        else (t', Store(WithFixture(s.mem, f), Idle))
    case Witnessing(r) =>
      var id := ReceiptIdOf(r);
      (t.(receipts := Inserted(t.receipts, id, ReceiptDocOf(r))),
       if Accepted(t.receipts, id, ReceiptDocOf(r)) && id !in s.mem.receipts
       then Store(WithReceipt(s.mem, r), Idle) else s.(at := Idle))
  }

  function DoBeginReceipt(t: Tables, s: Store, r: Receipt): (Tables, Store) {
    var mem := CacheMatrix(t, s.mem, IdOf(r.matrix));
    var id := FixtureIdOf(r.fixture.doc);
    if IdOf(r.matrix) !in mem.matrices then (t, s.(mem := mem))
    else if id in mem.fixtures then (t, Store(mem, Witnessing(r)))
    else if id in t.fixtures && t.fixtures[id] == r.fixture.doc then
      (t, Store(mem.(fixtures := mem.fixtures[id := r.fixture]), Witnessing(r)))
    else (t, s.(mem := mem))
  }

  /** Arguments are constructed values, and a store object runs one publication at a time. */
  predicate Allowed(s: Store, op: Op) {
    match op
    case BeginFixture(f) => s.at == Idle && Constructible(f)
    case BeginReceipt(r) => s.at == Idle && ReceiptConstructible(r)
    case Continue => s.at != Idle
    case Crash => true
    case _ => s.at == Idle
  }

  function Perform(t: Tables, s: Store, op: Op): (Tables, Store) {
    match op
    case PublishMatrix(m) => DoPublishMatrix(t, s, m)
    case ReserveBuild(id, d) => DoReserveBuild(t, s, id, d)
    case PublishCall(row) => DoPublishCall(t, s, row)
    case BeginFixture(f) => DoBeginFixture(t, s, f)
    case Continue => DoContinue(t, s)
    case BeginReceipt(r) => DoBeginReceipt(t, s, r)
    case ReadMatrix(id) => (t, s.(mem := CacheMatrix(t, s.mem, id)))
    case ReadCall(id) => (t, s.(mem := CacheCall(t, s.mem, id)))
    case ReadFixture(id) => (t, s.(mem := CacheFixture(t, s.mem, id)))
    case Crash => (t, FRESH)
  }

  // ---- what single operations do ----

  /** The first row written under a key stays; every other key is left alone. */
  predicate FirstStays<K, V(==)>(table: map<K, V>, after: map<K, V>, k: K, v: V) {
    && k in after && after[k] == (if k in table then table[k] else v)
    && (forall other :: other in table ==> other in after && after[other] == table[other])
    && (forall other :: other in after ==> other == k || other in table)
  }

  /** Publishing what is cached does nothing. Otherwise the first matrix under the address stays in the
      backend, and it is cached exactly when it is the one published; a different one is a divergence. */
  lemma MatrixStep(t: Tables, s: Store, m: Matrix)
    ensures var (t', s') := DoPublishMatrix(t, s, m);
            var id := IdOf(m);
            && (id in s.mem.matrices ==> t' == t && s' == s)
            && (id !in s.mem.matrices ==>
                  && t' == t.(matrices := t'.matrices) && FirstStays(t.matrices, t'.matrices, id, m)
                  && s'.at == s.at
                  && (if t'.matrices[id] == m then s'.mem.matrices == s.mem.matrices[id := m] else s' == s)
                  && s'.mem.builds == s.mem.builds && s'.mem.calls == s.mem.calls
                  && s'.mem.fixtures == s.mem.fixtures && s'.mem.receipts == s.mem.receipts)
  {
    hide IdOf;
  }

  /** The first declaration of a build stays; one that is not the same is a divergence. */
  lemma BuildStep(t: Tables, s: Store, id: BuildId, d: Declaration)
    ensures var (t', s') := DoReserveBuild(t, s, id, d);
            && t' == t.(builds := t'.builds) && FirstStays(t.builds, t'.builds, id, d) && s'.at == s.at
            && (t'.builds[id] == d ==> id in s'.mem.builds)
            && (id in s.mem.builds || t'.builds[id] != d ==> s' == s)
            && (id !in s.mem.builds && t'.builds[id] == d ==> s'.mem.builds == s.mem.builds[id := d])
            && s'.mem.matrices == s.mem.matrices && s'.mem.calls == s.mem.calls
            && s'.mem.fixtures == s.mem.fixtures && s'.mem.receipts == s.mem.receipts
  {
  }

  /** The same for one call row. */
  lemma CallStep(t: Tables, s: Store, row: Row)
    ensures var (t', s') := DoPublishCall(t, s, row);
            && (row.id in s.mem.calls ==> t' == t && s' == s)
            && (row.id !in s.mem.calls ==>
                  && t' == t.(calls := t'.calls) && FirstStays(t.calls, t'.calls, row.id, row) && s'.at == s.at
                  && (if t'.calls[row.id] == row then s'.mem.calls == s.mem.calls[row.id := row] else s' == s)
                  && s'.mem.matrices == s.mem.matrices && s'.mem.builds == s.mem.builds
                  && s'.mem.fixtures == s.mem.fixtures && s'.mem.receipts == s.mem.receipts)
  {
  }

  /** After a look-up the cache holds what it held, and what the backend has under that key. */
  lemma LookUps(t: Tables, mem: Memory, matrix: MatrixId, row: Text)
    ensures var after := CacheMatrix(t, mem, matrix);
            && after == mem.(matrices := after.matrices)
            && after.matrices == (if matrix !in mem.matrices && matrix in t.matrices
                                  then mem.matrices[matrix := t.matrices[matrix]] else mem.matrices)
            && (matrix in after.matrices <==> matrix in mem.matrices || matrix in t.matrices)
    ensures var after := CacheCall(t, mem, row);
            && after == mem.(calls := after.calls)
            && (row in after.calls <==> row in mem.calls || row in t.calls)
            && (row in after.calls ==> after.calls[row] == if row in mem.calls then mem.calls[row] else t.calls[row])
            && (forall other :: other != row ==> (other in after.calls <==> other in mem.calls))
  {
  }

  // ---- crash safety ----

  predicate MatricesKeyed(matrices: map<MatrixId, Matrix>) {
    forall id :: id in matrices ==> IdOf(matrices[id]) == id
  }

  /** Every fixture row has its matrix row, its reserved build row and every arm's call rows,
      those calls hash to its ledger hash, and every receipt row has its fixture row. */
  predicate Safe(t: Tables) {
    && MatricesKeyed(t.matrices) && Keyed(t.calls)
    && (forall id :: id in t.fixtures ==>
          FixtureIdOf(t.fixtures[id]) == id && Constructible(Fixture(t.fixtures[id], []))
          && FixtureJoined(t.fixtures[id], t.matrices, t.builds, t.calls))
    && (forall id :: id in t.receipts ==> id.fixtureId in t.fixtures)
  }

  predicate Within<K, V(==)>(part: map<K, V>, whole: map<K, V>) {
    forall k :: k in part ==> k in whole && whole[k] == part[k]
  }

  predicate TablesGrow(t: Tables, later: Tables) {
    && Within(t.matrices, later.matrices) && Within(t.builds, later.builds) && Within(t.calls, later.calls)
    && Within(t.fixtures, later.fixtures) && Within(t.receipts, later.receipts)
  }

  /** A cache holds nothing the backend does not hold. */
  predicate CacheOk(mem: Memory, t: Tables) {
    && Within(mem.matrices, t.matrices) && Within(mem.builds, t.builds) && Within(mem.calls, t.calls)
    && DocsWithin(mem.fixtures, t.fixtures) && ReceiptsWithin(mem.receipts, t.receipts)
  }

  predicate DocsWithin(fixtures: map<FixtureId, Fixture>, docs: map<FixtureId, FixtureDoc>) {
    forall id :: id in fixtures ==> id in docs && docs[id] == fixtures[id].doc
  }

  predicate ReceiptsWithin(receipts: map<ReceiptId, Receipt>, docs: map<ReceiptId, ReceiptDoc>) {
    forall id :: id in receipts ==> id in docs && docs[id] == ReceiptDocOf(receipts[id])
  }

  /** What a store object between two inserts of one publication may rely on. */
  predicate ProgressOk(s: Store, t: Tables) {
    match s.at
    case Idle => true
    case Publishing(f, candidates, todo) =>
      && Constructible(f) && Keyed(candidates)
      && FixtureJoined(f.doc, s.mem.matrices, s.mem.builds, candidates)
      && (f.doc.scenario in s.mem.matrices[f.doc.matrixId].scenarios
          && f.doc.scenarioHash == s.mem.matrices[f.doc.matrixId].scenarios[f.doc.scenario])
      && (forall id :: id in candidates ==>
          (id in s.mem.calls && s.mem.calls[id] == candidates[id]) || candidates[id] in todo)
      && (forall row :: row in todo ==> row.id in candidates && candidates[row.id] == row)
      && (forall row :: row in f.records ==> row.id in candidates && candidates[row.id] == row)
    case Witnessing(r) => FixtureIdOf(r.fixture.doc) in t.fixtures
  }

  predicate StoreOk(s: Store, t: Tables) {
    CacheOk(s.mem, t) && ProgressOk(s, t)
  }

  lemma InsertedWithin<K, V>(table: map<K, V>, k: K, v: V)
    ensures Within(table, Inserted(table, k, v))
    ensures Accepted(table, k, v) ==> k in Inserted(table, k, v) && Inserted(table, k, v)[k] == v
  {
  }

  lemma WithinTransitive<K, V>(a: map<K, V>, b: map<K, V>, c: map<K, V>)
    requires Within(a, b) && Within(b, c)
    ensures Within(a, c)
  {
  }

  lemma FixtureJoinedGrows(d: FixtureDoc, t: Tables, later: Tables)
    requires FixtureJoined(d, t.matrices, t.builds, t.calls) && TablesGrow(t, later)
    ensures FixtureJoined(d, later.matrices, later.builds, later.calls)
  {
    hide ContentHash, RequestedIds, Only;
    OnlyGrows(t.calls, later.calls, RequestedIds(d));
  }

  /** Rows of the tables that fixtures depend on may be added freely. */
  lemma SafeAfterAdding(t: Tables, later: Tables)
    requires Safe(t) && TablesGrow(t, later)
    requires later.fixtures == t.fixtures && later.receipts == t.receipts
    requires Keyed(later.calls) && MatricesKeyed(later.matrices)
    ensures Safe(later)
  {
    hide FixtureJoined, Constructible, FixtureIdOf, TablesGrow, Within, MatricesKeyed;
    forall id | id in later.fixtures
      ensures FixtureJoined(later.fixtures[id], later.matrices, later.builds, later.calls)
    {
      FixtureJoinedGrows(t.fixtures[id], t, later);
    }
  }

  lemma SafeAfterFixture(t: Tables, d: FixtureDoc)
    requires Safe(t) && Constructible(Fixture(d, [])) && FixtureJoined(d, t.matrices, t.builds, t.calls)
    ensures Safe(t.(fixtures := Inserted(t.fixtures, FixtureIdOf(d), d)))
  {
    hide FixtureJoined, Constructible, FixtureIdOf;
  }

  lemma SafeAfterReceipt(t: Tables, r: Receipt)
    requires Safe(t) && FixtureIdOf(r.fixture.doc) in t.fixtures
    ensures Safe(t.(receipts := Inserted(t.receipts, ReceiptIdOf(r), ReceiptDocOf(r))))
  {
    hide FixtureJoined, Constructible, FixtureIdOf;
  }

  /** Another store object's insert never invalidates what this one relies on. */
  lemma BystanderOk(s: Store, t: Tables, later: Tables)
    requires StoreOk(s, t) && TablesGrow(t, later)
    ensures StoreOk(s, later)
  {
    hide FixtureJoined, Constructible, FixtureIdOf;
  }

  lemma GrowSelf(t: Tables)
    ensures TablesGrow(t, t)
  {
  }

  predicate Kept(t: Tables, s: Store, after: (Tables, Store)) {
    Safe(after.0) && StoreOk(after.1, after.0) && TablesGrow(t, after.0)
  }

  // Facts about single tables, whatever they hold.

  lemma WithinInsert<K, V>(part: map<K, V>, whole: map<K, V>, k: K, v: V)
    requires Within(part, whole) && k in whole && whole[k] == v
    ensures Within(part[k := v], whole)
  {
  }

  lemma DocsWithinGrows(fixtures: map<FixtureId, Fixture>, docs: map<FixtureId, FixtureDoc>, later: map<FixtureId,
                        FixtureDoc>)
    requires DocsWithin(fixtures, docs) && Within(docs, later)
    ensures DocsWithin(fixtures, later)
  {
  }

  lemma DocsWithinInsert(fixtures: map<FixtureId, Fixture>, docs: map<FixtureId, FixtureDoc>, id: FixtureId, f: Fixture)
    requires DocsWithin(fixtures, docs) && id in docs && docs[id] == f.doc
    ensures DocsWithin(fixtures[id := f], docs)
  {
  }

  lemma ReceiptsWithinGrows(receipts: map<ReceiptId, Receipt>, docs: map<ReceiptId, ReceiptDoc>, later: map<ReceiptId,
                            ReceiptDoc>)
    requires ReceiptsWithin(receipts, docs) && Within(docs, later)
    ensures ReceiptsWithin(receipts, later)
  {
  }

  lemma ReceiptsWithinInsert(receipts: map<ReceiptId, Receipt>, docs: map<ReceiptId, ReceiptDoc>, r: Receipt)
    requires ReceiptsWithin(receipts, docs) && ReceiptIdOf(r) in docs && docs[ReceiptIdOf(r)] == ReceiptDocOf(r)
    ensures ReceiptsWithin(receipts[ReceiptIdOf(r) := r], docs)
  {
  }

  /** A cache stays covered when the backend grows. */
  lemma CacheGrows(mem: Memory, t: Tables, later: Tables)
    requires CacheOk(mem, t) && TablesGrow(t, later)
    ensures CacheOk(mem, later)
  {
    hide Within, DocsWithin;
    WithinTransitive(mem.matrices, t.matrices, later.matrices);
    WithinTransitive(mem.builds, t.builds, later.builds);
    WithinTransitive(mem.calls, t.calls, later.calls);
    DocsWithinGrows(mem.fixtures, t.fixtures, later.fixtures);
    ReceiptsWithinGrows(mem.receipts, t.receipts, later.receipts);
  }

  lemma TablesSelf(t: Tables)
    ensures TablesGrow(t, t)
    ensures Within(t.matrices, t.matrices) && Within(t.builds, t.builds) && Within(t.calls, t.calls)
    ensures Within(t.fixtures, t.fixtures) && Within(t.receipts, t.receipts)
  {
  }

  lemma SafeGivesKeys(t: Tables)
    requires Safe(t)
    ensures Keyed(t.calls) && MatricesKeyed(t.matrices)
  {
    hide FixtureJoined, Constructible, FixtureIdOf;
  }

  lemma MatricesKeyedInsert(matrices: map<MatrixId, Matrix>, m: Matrix)
    requires MatricesKeyed(matrices)
    ensures MatricesKeyed(Inserted(matrices, IdOf(m), m))
  {
  }

  lemma KeyedInsert(calls: Rows, row: Row)
    requires Keyed(calls)
    ensures Keyed(Inserted(calls, row.id, row))
  {
  }

  // ---- one step ----

  lemma PublishMatrixKept(t: Tables, s: Store, m: Matrix)
    requires Safe(t) && StoreOk(s, t) && s.at == Idle
    ensures Kept(t, s, DoPublishMatrix(t, s, m))
  {
    hide FixtureJoined, Safe, Within, DocsWithin, Inserted, Accepted, IdOf, MatricesKeyed, Keyed;
    TablesSelf(t);
    InsertedWithin(t.matrices, IdOf(m), m);
    SafeGivesKeys(t);
    MatricesKeyedInsert(t.matrices, m);
    var later := t.(matrices := Inserted(t.matrices, IdOf(m), m));
    SafeAfterAdding(t, later);
    CacheGrows(s.mem, t, later);
    if Accepted(t.matrices, IdOf(m), m) { WithinInsert(s.mem.matrices, later.matrices, IdOf(m), m); }
  }

  lemma ReserveBuildKept(t: Tables, s: Store, id: BuildId, d: Declaration)
    requires Safe(t) && StoreOk(s, t) && s.at == Idle
    ensures Kept(t, s, DoReserveBuild(t, s, id, d))
  {
    hide FixtureJoined, Safe, Within, DocsWithin, Inserted, Accepted, MatricesKeyed, Keyed;
    TablesSelf(t);
    InsertedWithin(t.builds, id, d);
    SafeGivesKeys(t);
    var later := t.(builds := Inserted(t.builds, id, d));
    SafeAfterAdding(t, later);
    CacheGrows(s.mem, t, later);
    if Accepted(t.builds, id, d) { WithinInsert(s.mem.builds, later.builds, id, d); }
  }

  lemma CallInserted(t: Tables, s: Store, row: Row)
    requires Safe(t) && CacheOk(s.mem, t)
    ensures var later := t.(calls := Inserted(t.calls, row.id, row));
            && Safe(later) && TablesGrow(t, later) && CacheOk(s.mem, later)
            && (Accepted(t.calls, row.id, row) ==> CacheOk(WithCall(s.mem, row), later))
  {
    hide FixtureJoined, Safe, Within, DocsWithin, Inserted, Accepted, MatricesKeyed, Keyed;
    TablesSelf(t);
    InsertedWithin(t.calls, row.id, row);
    SafeGivesKeys(t);
    KeyedInsert(t.calls, row);
    var later := t.(calls := Inserted(t.calls, row.id, row));
    SafeAfterAdding(t, later);
    CacheGrows(s.mem, t, later);
    if Accepted(t.calls, row.id, row) { WithinInsert(s.mem.calls, later.calls, row.id, row); }
  }

  lemma PublishCallKept(t: Tables, s: Store, row: Row)
    requires Safe(t) && StoreOk(s, t) && s.at == Idle
    ensures Kept(t, s, DoPublishCall(t, s, row))
  {
    hide Safe, CacheOk, TablesGrow, Inserted, Accepted, WithCall;
    GrowSelf(t);
    CallInserted(t, s, row);
  }

  lemma ReadMatrixKept(t: Tables, mem: Memory, id: MatrixId)
    requires CacheOk(mem, t)
    ensures CacheOk(CacheMatrix(t, mem, id), t)
  {
    hide Within, DocsWithin;
    if id in t.matrices { WithinInsert(mem.matrices, t.matrices, id, t.matrices[id]); }
  }

  lemma ReadCallKept(t: Tables, mem: Memory, id: Text)
    requires CacheOk(mem, t)
    ensures CacheOk(CacheCall(t, mem, id), t)
  {
    hide Within, DocsWithin;
    if id in t.calls { WithinInsert(mem.calls, t.calls, id, t.calls[id]); }
  }

  lemma ReadFixtureKept(t: Tables, mem: Memory, id: FixtureId)
    requires CacheOk(mem, t)
    ensures CacheOk(CacheFixture(t, mem, id), t)
  {
    hide Within, DocsWithin, Constructible;
    if id in t.fixtures { DocsWithinInsert(mem.fixtures, t.fixtures, id, Fixture(t.fixtures[id], [])); }
  }

  lemma ReadKept(t: Tables, s: Store, op: Op)
    requires Safe(t) && StoreOk(s, t) && s.at == Idle
    requires op.ReadMatrix? || op.ReadCall? || op.ReadFixture?
    ensures Kept(t, s, Perform(t, s, op))
  {
    hide Safe, CacheOk, TablesGrow, CacheMatrix, CacheCall, CacheFixture;
    GrowSelf(t);
    match op
    case ReadMatrix(id) => ReadMatrixKept(t, s.mem, id);
    case ReadCall(id) => ReadCallKept(t, s.mem, id);
    case ReadFixture(id) => ReadFixtureKept(t, s.mem, id);
  }

  lemma BeginFixtureKept(t: Tables, s: Store, f: Fixture)
    requires Safe(t) && StoreOk(s, t) && s.at == Idle && Constructible(f)
    ensures Kept(t, s, DoBeginFixture(t, s, f))
  {
    hide FixtureJoined, Safe, Constructible, FixtureIdOf, Screen, CacheOk, TablesGrow;
    GrowSelf(t);
    ReadMatrixKept(t, s.mem, f.doc.matrixId);
    CacheKeyed(t, s.mem);
    var mem := CacheMatrix(t, s.mem, f.doc.matrixId);
    if Preflight(mem, f).Ok? { ApprovedIsProgress(mem, f, t); }
  }

  lemma CacheKeyed(t: Tables, mem: Memory)
    requires Safe(t) && CacheOk(mem, t)
    ensures Keyed(mem.calls)
  {
    hide FixtureJoined, Constructible, FixtureIdOf;
  }

  /** A passed preflight is what a publication in progress relies on. */
  lemma ApprovedIsProgress(mem: Memory, f: Fixture, t: Tables)
    requires Keyed(mem.calls) && Constructible(f) && Preflight(mem, f).Ok?
    ensures Screen(mem.calls, f.records).Ok?
    ensures ProgressOk(Store(mem,
                             Publishing(f, Screen(mem.calls, f.records).value.candidates, Preflight(mem, f).value)), t)
  {
    hide Constructible, FixtureIdOf, Screen, RequestedIds, Only, ContentHash;
    PreflightMeans(mem, f);
  }

  lemma BeginReceiptKept(t: Tables, s: Store, r: Receipt)
    requires Safe(t) && StoreOk(s, t) && s.at == Idle && ReceiptConstructible(r)
    ensures Kept(t, s, DoBeginReceipt(t, s, r))
  {
    hide Safe, FixtureIdOf, ReceiptConstructible, TablesGrow, Within, DocsWithin, CacheMatrix;
    GrowSelf(t);
    var id := FixtureIdOf(r.fixture.doc);
    ReadMatrixKept(t, s.mem, IdOf(r.matrix));
    var mem := CacheMatrix(t, s.mem, IdOf(r.matrix));
    if id in mem.fixtures { DocsKnown(mem, t, id); }
    if id in t.fixtures && t.fixtures[id] == r.fixture.doc {
      DocsWithinInsert(mem.fixtures, t.fixtures, id, r.fixture);
    }
  }

  lemma DocsKnown(mem: Memory, t: Tables, id: FixtureId)
    requires CacheOk(mem, t) && id in mem.fixtures
    ensures id in t.fixtures
  {
    hide Within;
  }

  /** Approving, skipping or inserting the next row leaves the rest of the plan intact. */
  lemma PlanAdvances(s: Store, t: Tables, later: Tables, mem: Memory)
    requires ProgressOk(s, t) && s.at.Publishing? && s.at.todo != []
    requires mem.matrices == s.mem.matrices && mem.builds == s.mem.builds
    requires var row := s.at.todo[0]; mem.calls == s.mem.calls[row.id := row]
    requires s.at.todo[0].id in s.mem.calls ==> s.mem.calls[s.at.todo[0].id] == s.at.todo[0]
    ensures ProgressOk(Store(mem, Publishing(s.at.f, s.at.candidates, s.at.todo[1..])), later)
  {
    hide FixtureJoined, Constructible;
    assert s.at.todo == [s.at.todo[0]] + s.at.todo[1..];
  }

  /** The next call row of a publication. */
  lemma NextRowKept(t: Tables, s: Store)
    requires Safe(t) && StoreOk(s, t) && s.at.Publishing? && s.at.todo != []
    ensures Kept(t, s, DoContinue(t, s))
  {
    hide Safe, CacheOk, TablesGrow, Inserted, Accepted, Preflight, FixtureIdOf, ProgressOk;
    GrowSelf(t);
    var row := s.at.todo[0];
    CallInserted(t, s, row);
    var later := t.(calls := Inserted(t.calls, row.id, row));
    IdleProgress(s.mem, t);
    IdleProgress(s.mem, later);
    if row.id in s.mem.calls {
      if s.mem.calls[row.id] == row {
        assert s.mem.calls[row.id := row] == s.mem.calls;
        PlanAdvances(s, t, t, s.mem);
      }
    } else {
      PlanAdvances(s, t, later, WithCall(s.mem, row));
    }
  }

  lemma IdleProgress(mem: Memory, t: Tables)
    ensures ProgressOk(Store(mem, Idle), t)
  {
  }

  /** When the last row is in, the cache holds exactly what the preflight approved, so the
      manifest may follow, and the repeated in-memory preflight has nothing left to publish. */
  lemma ManifestReady(t: Tables, s: Store)
    requires Safe(t) && StoreOk(s, t) && s.at.Publishing? && s.at.todo == []
    ensures FixtureJoined(s.at.f.doc, t.matrices, t.builds, t.calls)
    ensures Preflight(s.mem, s.at.f) == Ok([])
  {
    hide ContentHash, RequestedIds, Constructible, FixtureIdOf, Only, Safe;
    var f, candidates := s.at.f, s.at.candidates;
    OnlyGrows(candidates, s.mem.calls, RequestedIds(f.doc));
    OnlyGrows(candidates, t.calls, RequestedIds(f.doc));
    ScreenKnown(s.mem.calls, f.records);
  }

  lemma ManifestKept(t: Tables, s: Store)
    requires Safe(t) && StoreOk(s, t) && s.at.Publishing? && s.at.todo == []
    ensures Kept(t, s, DoContinue(t, s))
  {
    hide FixtureJoined, Safe, Preflight, FixtureIdOf, Constructible, Within, DocsWithin, Inserted, Accepted;
    TablesSelf(t);
    ManifestReady(t, s);
    var f, id := s.at.f, FixtureIdOf(s.at.f.doc);
    BareConstructible(f);
    SafeAfterFixture(t, f.doc);
    InsertedWithin(t.fixtures, id, f.doc);
    var later := t.(fixtures := Inserted(t.fixtures, id, f.doc));
    CacheGrows(s.mem, t, later);
    if Accepted(t.fixtures, id, f.doc) { DocsWithinInsert(s.mem.fixtures, later.fixtures, id, f); }
  }

  lemma BareConstructible(f: Fixture)
    requires Constructible(f)
    ensures Constructible(Fixture(f.doc, []))
  {
  }

  lemma WitnessKept(t: Tables, s: Store)
    requires Safe(t) && StoreOk(s, t) && s.at.Witnessing?
    ensures Kept(t, s, DoContinue(t, s))
  {
    hide Safe, Preflight, FixtureIdOf, Within, DocsWithin, ReceiptsWithin, Inserted, Accepted, ReceiptIdOf,
      ReceiptDocOf;
    TablesSelf(t);
    var r := s.at.r;
    SafeAfterReceipt(t, r);
    InsertedWithin(t.receipts, ReceiptIdOf(r), ReceiptDocOf(r));
    var later := t.(receipts := Inserted(t.receipts, ReceiptIdOf(r), ReceiptDocOf(r)));
    CacheGrows(s.mem, t, later);
    if Accepted(t.receipts, ReceiptIdOf(r), ReceiptDocOf(r)) {
      ReceiptsWithinInsert(s.mem.receipts, later.receipts, r);
    }
  }

  lemma PerformKept(t: Tables, s: Store, op: Op)
    requires Safe(t) && StoreOk(s, t) && Allowed(s, op)
    ensures Kept(t, s, Perform(t, s, op))
  {
    hide Safe, DoPublishMatrix, DoReserveBuild, DoPublishCall, DoBeginFixture, DoBeginReceipt, DoContinue,
         Constructible, ReceiptConstructible, CacheOk, CacheMatrix, CacheCall, CacheFixture;
    GrowSelf(t);
    match op
    case PublishMatrix(m) => PublishMatrixKept(t, s, m);
    case ReserveBuild(id, d) => ReserveBuildKept(t, s, id, d);
    case PublishCall(row) => PublishCallKept(t, s, row);
    case BeginFixture(f) => BeginFixtureKept(t, s, f);
    case BeginReceipt(r) => BeginReceiptKept(t, s, r);
    case Continue =>
      if s.at.Witnessing? { WitnessKept(t, s); }
      else if s.at.todo != [] { NextRowKept(t, s); }
      else { ManifestKept(t, s); }
    case ReadMatrix(id) => ReadKept(t, s, op);
    case ReadCall(id) => ReadKept(t, s, op);
    case ReadFixture(id) => ReadKept(t, s, op);
    case Crash => FreshOk(t);
  }

  lemma FreshOk(t: Tables)
    ensures StoreOk(FRESH, t)
  {
  }

  // ---- runs of several store objects ----

  datatype State = State(tables: Tables, stores: seq<Store>)

  /** Store object `who` performs `op`; `who == |stores|` is a new object joining in. */
  datatype Action = Action(who: nat, op: Op)

  predicate Enabled(st: State, a: Action) {
    a.who <= |st.stores| && Allowed(if a.who < |st.stores| then st.stores[a.who] else FRESH, a.op)
  }

  function Step(st: State, a: Action): State
    requires Enabled(st, a)
  {
    var joined := if a.who < |st.stores| then st.stores else st.stores + [FRESH];
    var after := Perform(st.tables, joined[a.who], a.op);
    State(after.0, joined[a.who := after.1])
  }

  ghost predicate Runs(from: State, run: seq<Action>, to: State)
    decreases |run|, 0
  {
    if run == [] then to == from else RunsThen(from, run[..|run| - 1], run[|run| - 1], to)
  }

  ghost predicate RunsThen(from: State, run: seq<Action>, last: Action, to: State)
    decreases |run|, 1
  {
    exists before :: Runs(from, run, before) && Steps(before, last, to)
  }

  predicate Steps(before: State, a: Action, after: State) {
    Enabled(before, a) && after == Step(before, a)
  }

  const START := State(Tables(map[], map[], map[], map[], map[]), [])

  ghost predicate Sane(st: State) {
    Safe(st.tables) && forall i :: 0 <= i < |st.stores| ==> StoreOk(st.stores[i], st.tables)
  }

  lemma StepSane(st: State, a: Action)
    requires Sane(st) && Enabled(st, a)
    ensures Sane(Step(st, a)) && TablesGrow(st.tables, Step(st, a).tables)
  {
    hide Safe, StoreOk, Perform, TablesGrow, Allowed;
    FreshOk(st.tables);
    var who := if a.who < |st.stores| then st.stores[a.who] else FRESH;
    PerformKept(st.tables, who, a.op);
    var later := Perform(st.tables, who, a.op).0;
    forall i | 0 <= i < |st.stores| ensures StoreOk(st.stores[i], later) {
      BystanderOk(st.stores[i], st.tables, later);
    }
  }

  lemma {:induction false} RunSane(from: State, run: seq<Action>, to: State)
    requires Sane(from) && Runs(from, run, to)
    ensures Sane(to) && TablesGrow(from.tables, to.tables)
    decreases |run|
  {
    hide Sane, TablesGrow, Step, Enabled;
    if run == [] {
      GrowSelf(from.tables);
    } else {
      var n := |run| - 1;
      var before :| Runs(from, run[..n], before) && Steps(before, run[n], to);
      RunSane(from, run[..n], before);
      StepSane(before, run[n]);
      TablesGrowTransitive(from.tables, before.tables, to.tables);
    }
  }

  lemma TablesGrowTransitive(a: Tables, b: Tables, c: Tables)
    requires TablesGrow(a, b) && TablesGrow(b, c)
    ensures TablesGrow(a, c)
  {
  }

  /** Wherever a run is cut off, what the backend holds is complete. */
  lemma CrashSafe(run: seq<Action>, st: State)
    requires Runs(START, run, st)
    ensures Safe(st.tables)
  {
    hide Runs;
    RunSane(START, run, st);
  }

  // ---- published means loadable ----

  /** Loading through a store object: each lookup goes to the cache, then to the backend. */
  function LoadVia(t: Tables, s: Store, id: FixtureId, arm: Text): Result<Loaded> {
    Load(s.mem.(fixtures := CacheFixture(t, s.mem, id).fixtures, calls := t.calls + s.mem.calls), id, arm)
  }

  lemma CachePlusBackend(t: Tables, s: Store)
    requires StoreOk(s, t)
    ensures t.calls + s.mem.calls == t.calls
  {
  }

  /** At any moment, for any store object, loading a published fixture's declared arm returns
      exactly its request set, unless the object has to read a document whose build address
      its contents do not derive. */
  lemma LoadExactly(t: Tables, s: Store, id: FixtureId, arm: Text)
    requires Safe(t) && StoreOk(s, t)
    requires id in t.fixtures && arm in t.fixtures[id].requests
    ensures LoadVia(t, s, id, arm).Ok?
            <==> id in s.mem.fixtures || t.fixtures[id].buildId == DerivedBuild(t.fixtures[id])
    ensures LoadVia(t, s, id, arm).Ok? ==>
              LoadVia(t, s, id, arm).value == Loaded(t.fixtures[id], Only(t.calls, t.fixtures[id].requests[arm]))
              && LoadVia(t, s, id, arm).value.ledger.Keys == t.fixtures[id].requests[arm]
  {
    hide ContentHash, FixtureIdOf, ProgressOk, FixtureJoined, Constructible, RequestedIds, Only, Within;
    CachePlusBackend(t, s);
    var d := t.fixtures[id];
    LoadJoined(t, d, arm);
  }

  lemma LoadJoined(t: Tables, d: FixtureDoc, arm: Text)
    requires FixtureJoined(d, t.matrices, t.builds, t.calls) && arm in d.requests
    ensures d.requests[arm] <= RequestedIds(d) <= t.calls.Keys
    ensures ContentHash(Only(t.calls, RequestedIds(d))) == d.ledgerHash
    ensures Only(t.calls, d.requests[arm]).Keys == d.requests[arm]
  {
    hide ContentHash;
  }

  /** A fixture sealed by a FixtureBuild and published once stays loadable in every later state,
      through every store object, a fresh one included, with the rows it was published with. */
  lemma SealedStaysLoadable(early: seq<Action>, st: State, rest: seq<Action>, later: State,
                            s: Store, id: FixtureId, arm: Text)
    requires Runs(START, early, st) && Runs(st, rest, later)
    requires s == FRESH || exists i :: 0 <= i < |later.stores| && later.stores[i] == s
    requires id in st.tables.fixtures && arm in st.tables.fixtures[id].requests
    requires st.tables.fixtures[id].buildId == DerivedBuild(st.tables.fixtures[id])
    ensures LoadVia(later.tables, s, id, arm)
            == Ok(Loaded(st.tables.fixtures[id], Only(st.tables.calls, st.tables.fixtures[id].requests[arm])))
    ensures st.tables.fixtures[id].requests[arm] <= st.tables.calls.Keys
  {
    hide Runs, LoadVia, ContentHash, FixtureIdOf, Constructible;
    RunSane(START, early, st);
    RunSane(st, rest, later);
    FreshOk(later.tables);
    var d := st.tables.fixtures[id];
    assert FixtureJoined(d, st.tables.matrices, st.tables.builds, st.tables.calls);
    assert d.requests[arm] <= RequestedIds(d);
    OnlyGrows(st.tables.calls, later.tables.calls, d.requests[arm]);
    LoadExactly(later.tables, s, id, arm);
  }

  /** When publish_fixture's last step reports no divergence, the manifest is in the backend and
      in the store object's own cache. */
  lemma PublishedIsStored(t: Tables, s: Store)
    requires Safe(t) && StoreOk(s, t) && s.at.Publishing? && s.at.todo == []
    requires Accepted(t.fixtures, FixtureIdOf(s.at.f.doc), s.at.f.doc)
    ensures var (t', s') := DoContinue(t, s);
            var id := FixtureIdOf(s.at.f.doc);
            && s'.at == Idle && id in t'.fixtures && t'.fixtures[id] == s.at.f.doc
            && id in s'.mem.fixtures && s'.mem.fixtures[id].doc == s.at.f.doc
  {
    hide FixtureJoined, Safe, Preflight, FixtureIdOf, Constructible;
    ManifestReady(t, s);
  }
}

/** The in-memory replay store: what it holds, the checks before a fixture is published, and
    loading a published fixture back. */
module ReplayStore {
  import opened KeyOrder
  import opened ReplayModel

  /** The store's write order; each entry also carries the address written. */
  datatype Write =
    | MatrixWrite(matrixId: MatrixId)
    | BuildWrite(buildId: BuildId)
    | CallWrite(rowId: Text)
    | FixtureWrite(doc: FixtureDoc)
    | ReceiptWrite(receiptId: ReceiptId)

  datatype Memory = Memory(matrices: map<MatrixId, Matrix>, calls: Rows,
                           builds: map<BuildId, Declaration>, fixtures: map<FixtureId, Fixture>,
                           receipts: map<ReceiptId, Receipt>, writes: seq<Write>)

  const EMPTY := Memory(map[], map[], map[], map[], map[], [])

  // ---- what the store holds is joined up ----

  /** The joins of one published fixture: its matrix, its reserved build, every arm's call
      rows, and the ledger hash over their union. */
  predicate FixtureJoined(d: FixtureDoc, matrices: map<MatrixId, Matrix>,
                          builds: map<BuildId, Declaration>, calls: Rows) {
    && d.matrixId in matrices
    && d.buildId in builds && builds[d.buildId] == ExpectedDeclaration(d)
    && d.requests.Keys == matrices[d.matrixId].arms
    && RequestedIds(d) <= calls.Keys
    && ContentHash(Only(calls, RequestedIds(d))) == d.ledgerHash
  }

  predicate Joined(m: Memory) {
    && (forall id :: id in m.matrices ==> IdOf(m.matrices[id]) == id)
    && Keyed(m.calls)
    && (forall id :: id in m.fixtures ==>
          FixtureIdOf(m.fixtures[id].doc) == id && Constructible(m.fixtures[id])
          && FixtureJoined(m.fixtures[id].doc, m.matrices, m.builds, m.calls))
    && (forall id :: id in m.receipts ==>
          ReceiptIdOf(m.receipts[id]) == id && FixtureIdOf(m.receipts[id].fixture.doc) in m.fixtures)
  }

  /** Nothing is ever removed or replaced. */
  predicate Grows(m: Memory, later: Memory) {
    && (forall id :: id in m.matrices ==> id in later.matrices && later.matrices[id] == m.matrices[id])
    && (forall id :: id in m.calls ==> id in later.calls && later.calls[id] == m.calls[id])
    && (forall id :: id in m.builds ==> id in later.builds && later.builds[id] == m.builds[id])
    && (forall id :: id in m.fixtures ==> id in later.fixtures && later.fixtures[id] == m.fixtures[id])
    && (forall id :: id in m.receipts ==> id in later.receipts && later.receipts[id] == m.receipts[id])
    && m.writes <= later.writes
  }

  // ---- publication order ----

  /** Every fixture write comes after the writes of its build and of all its call rows. */
  predicate InOrder(writes: seq<Write>) {
    forall i :: 0 <= i < |writes| && writes[i].FixtureWrite? ==>
      && MatrixWrite(writes[i].doc.matrixId) in writes[..i]
      && BuildWrite(writes[i].doc.buildId) in writes[..i]
      && forall id :: id in RequestedIds(writes[i].doc) ==> CallWrite(id) in writes[..i]
  }

  predicate Logged(m: Memory) {
    && (forall id :: id in m.matrices ==> MatrixWrite(id) in m.writes)
    && (forall id :: id in m.builds ==> BuildWrite(id) in m.writes)
    && (forall id :: id in m.calls ==> CallWrite(id) in m.writes)
    && InOrder(m.writes)
  }

  lemma InOrderAppend(writes: seq<Write>, w: Write)
    requires InOrder(writes)
    requires w.FixtureWrite? ==>
               && MatrixWrite(w.doc.matrixId) in writes && BuildWrite(w.doc.buildId) in writes
               && forall id :: id in RequestedIds(w.doc) ==> CallWrite(id) in writes
    ensures InOrder(writes + [w])
  {
    hide RequestedIds;
    var longer := writes + [w];
    forall i | 0 <= i < |longer| && longer[i].FixtureWrite?
      ensures && MatrixWrite(longer[i].doc.matrixId) in longer[..i]
              && BuildWrite(longer[i].doc.buildId) in longer[..i]
              && forall id :: id in RequestedIds(longer[i].doc) ==> CallWrite(id) in longer[..i]
    {
      assert longer[..i] == writes[..i];
      assert writes[..|writes|] == writes;
    }
  }

  // ---- preflight ----

  datatype Screened = Screened(candidates: Rows, unpublished: seq<Row>)

  /** Going through the fixture's rows: a row that differs from one already known raises; a new
      one becomes a candidate and is noted as unpublished. */
  function Screen(calls: Rows, records: seq<Row>): Result<Screened>
    decreases |records|
  {
    if records == [] then Ok(Screened(calls, []))
    else
      var last := records[|records| - 1];
      match Screen(calls, records[..|records| - 1])
      case Err => Err
      case Ok(s) =>
        if last.id in s.candidates then (if s.candidates[last.id] == last then Ok(s) else Err)
        else Ok(Screened(s.candidates[last.id := last], s.unpublished + [last]))
  }

  lemma {:induction false} ScreenProperties(calls: Rows, records: seq<Row>)
    requires Keyed(calls) && Screen(calls, records).Ok?
    ensures var s := Screen(calls, records).value;
            && Keyed(s.candidates)
            && (forall id :: id in calls ==> id in s.candidates && s.candidates[id] == calls[id])
            && (forall id :: id in s.candidates && id !in calls ==> s.candidates[id] in s.unpublished)
            && (forall row :: row in s.unpublished ==>
                  row.id in s.candidates && row.id !in calls && s.candidates[row.id] == row)
            && (forall row :: row in records ==> row.id in s.candidates && s.candidates[row.id] == row)
    decreases |records|
  {
    if records != [] {
      ScreenProperties(calls, records[..|records| - 1]);
      assert forall row :: row in records ==> row in records[..|records| - 1] || row == records[|records| - 1];
    }
  }

  predicate Agrees(calls: Rows, row: Row) {
    row.id in calls ==> calls[row.id] == row
  }

  ghost predicate Consistent(calls: Rows, records: seq<Row>) {
    && (forall row :: row in records ==> Agrees(calls, row))
    && forall x, y :: x in records && y in records && x.id == y.id ==> x == y
  }

  /** Screening rejects exactly a row that contradicts a stored row or another of the records. */
  lemma {:induction false} ScreenRejectsContradictions(calls: Rows, records: seq<Row>)
    requires Keyed(calls)
    ensures Screen(calls, records).Ok? <==> Consistent(calls, records)
    decreases |records|
  {
    hide Consistent;
    if records == [] {
      NoRecords(calls);
    } else {
      var front, last := records[..|records| - 1], records[|records| - 1];
      assert records == front + [last];
      ScreenRejectsContradictions(calls, front);
      if Screen(calls, front).Ok? {
        ScreenProperties(calls, front);
        CandidatesFrom(calls, front);
        OneMoreRecord(calls, front, last, Screen(calls, front).value.candidates);
      } else {
        FewerRecords(calls, front, last);
      }
    }
  }

  lemma NoRecords(calls: Rows)
    ensures Consistent(calls, [])
  {
  }

  lemma FewerRecords(calls: Rows, front: seq<Row>, last: Row)
    ensures Consistent(calls, front + [last]) ==> Consistent(calls, front)
  {
  }

  lemma OneMoreRecord(calls: Rows, front: seq<Row>, last: Row, candidates: Rows)
    requires Consistent(calls, front)
    requires forall row :: row in front ==> row.id in candidates && candidates[row.id] == row
    requires forall id :: id in calls ==> id in candidates && candidates[id] == calls[id]
    requires forall id :: id in candidates ==> (id in calls && calls[id] == candidates[id]) || candidates[id] in front
    requires Keyed(candidates)
    ensures Consistent(calls, front + [last]) <==> Agrees(candidates, last)
  {
    var records := front + [last];
    assert forall row :: row in records <==> row in front || row == last;
    if last.id in candidates && candidates[last.id] != last {
      if last.id in calls && calls[last.id] == candidates[last.id] {
        assert !Agrees(calls, last);
      } else {
        assert candidates[last.id] in records && candidates[last.id].id == last.id;
      }
    }
  }

  /** A candidate was stored before or is one of the records. */
  lemma {:induction false} CandidatesFrom(calls: Rows, records: seq<Row>)
    requires Keyed(calls) && Screen(calls, records).Ok?
    ensures var s := Screen(calls, records).value;
            forall id :: id in s.candidates ==>
                (id in calls && calls[id] == s.candidates[id]) || s.candidates[id] in records
    decreases |records|
  {
    if records != [] {
      CandidatesFrom(calls, records[..|records| - 1]);
      assert forall row :: row in records <==> row in records[..|records| - 1] || row == records[|records| - 1];
    }
  }

  /** No id is published twice. */
  lemma {:induction false} UnpublishedDistinct(calls: Rows, records: seq<Row>)
    requires Keyed(calls) && Screen(calls, records).Ok?
    ensures var rows := Screen(calls, records).value.unpublished;
            forall i, j :: 0 <= i < j < |rows| ==> rows[i].id != rows[j].id
    decreases |records|
  {
    if records != [] {
      UnpublishedDistinct(calls, records[..|records| - 1]);
      ScreenProperties(calls, records[..|records| - 1]);
    }
  }

  /** Rows that are all known already leave nothing to publish. */
  lemma {:induction false} ScreenKnown(calls: Rows, records: seq<Row>)
    requires forall row :: row in records ==> row.id in calls && calls[row.id] == row
    ensures Screen(calls, records) == Ok(Screened(calls, []))
    decreases |records|
  {
    if records != [] {
      ScreenKnown(calls, records[..|records| - 1]);
      assert records[|records| - 1] in records;
    }
  }

  /** All checks before publication, in the order they are made; the rows still to publish. */
  function Preflight(m: Memory, f: Fixture): Result<seq<Row>> {
    var d := f.doc;
    if d.matrixId !in m.matrices then Err
    else if d.buildId !in m.builds then Err
    else if m.builds[d.buildId] != ExpectedDeclaration(d) then Err
    else
      var matrix := m.matrices[d.matrixId];
      if d.scenario !in matrix.scenarios || d.scenarioHash != matrix.scenarios[d.scenario] then Err
      else if d.requests.Keys != matrix.arms then Err
      else
        match Screen(m.calls, f.records)
        case Err => Err
        case Ok(s) =>
          if !(RequestedIds(d) <= s.candidates.Keys) then Err
          else if ContentHash(Only(s.candidates, RequestedIds(d))) != d.ledgerHash then Err
          else Ok(s.unpublished)
  }

  /** A published fixture's rows are exactly the rows of its ledger, so nothing of a fixture
      that claims the same address can still be unpublished. */
  lemma TwinHasNothingToPublish(m: Memory, f: Fixture)
    requires Joined(m) && Constructible(f)
    requires FixtureIdOf(f.doc) in m.fixtures
    ensures Preflight(m, f).Ok? ==> Preflight(m, f).value == []
  {
    var prior := m.fixtures[FixtureIdOf(f.doc)];
    var ids := RequestedIds(f.doc);
    assert RequestedIds(prior.doc) == ids;
    if f.records == [] {
      ScreenKnown(m.calls, f.records);
    } else {
      var rows := LedgerOf(f.records).value;
      ContentHashInjective(rows, Only(m.calls, ids));
      ScreenKnown(m.calls, f.records);
    }
  }

  // ---- loading ----

  datatype Loaded = Loaded(doc: FixtureDoc, ledger: Rows)

  /** One arm's ledger; the union over all arms is hashed again before it is trusted. */
  function Load(m: Memory, id: FixtureId, arm: Text): Result<Loaded> {
    if id !in m.fixtures then Err
    else
      var d := m.fixtures[id].doc;
      if arm !in d.requests then Err
      else if !(d.requests[arm] <= m.calls.Keys) || !(RequestedIds(d) <= m.calls.Keys) then Err
      else if ContentHash(Only(m.calls, RequestedIds(d))) != d.ledgerHash then Err
      else Ok(Loaded(d, Only(m.calls, d.requests[arm])))
  }

  lemma OnlyGrows(rows: Rows, later: Rows, ids: set<Text>)
    requires ids <= rows.Keys
    requires forall id :: id in rows ==> id in later && later[id] == rows[id]
    ensures Only(rows, ids) == Only(later, ids)
  {
  }

  /** Published means loadable for ever: for every declared arm, in every later state, loading
      returns exactly the arm's request set with the rows it was published with. */
  lemma PublishedMeansLoadable(m: Memory, later: Memory, id: FixtureId, arm: Text)
    requires Joined(m) && Grows(m, later)
    requires id in m.fixtures && arm in m.fixtures[id].doc.requests
    ensures Load(later, id, arm) == Load(m, id, arm)
    ensures Load(m, id, arm).Ok?
    ensures var l := Load(m, id, arm).value;
            && l.doc == m.fixtures[id].doc
            && l.ledger.Keys == l.doc.requests[arm]
            && forall row :: row in l.ledger ==> l.ledger[row] == m.calls[row]
  {
    hide ContentHash, Constructible;
    var d := m.fixtures[id].doc;
    assert d.requests[arm] <= RequestedIds(d);
    OnlyGrows(m.calls, later.calls, RequestedIds(d));
    OnlyGrows(m.calls, later.calls, d.requests[arm]);
  }

  // ---- one write ----

  predicate Sound(m: Memory) {
    Joined(m) && Logged(m)
  }

  function WithMatrix(m: Memory, x: Matrix): Memory {
    m.(matrices := m.matrices[IdOf(x) := x], writes := m.writes + [MatrixWrite(IdOf(x))])
  }

  function WithBuild(m: Memory, id: BuildId, d: Declaration): Memory {
    m.(builds := m.builds[id := d], writes := m.writes + [BuildWrite(id)])
  }

  function WithCall(m: Memory, row: Row): Memory {
    m.(calls := m.calls[row.id := row], writes := m.writes + [CallWrite(row.id)])
  }

  function WithFixture(m: Memory, f: Fixture): Memory {
    m.(fixtures := m.fixtures[FixtureIdOf(f.doc) := f], writes := m.writes + [FixtureWrite(f.doc)])
  }

  function WithReceipt(m: Memory, r: Receipt): Memory {
    m.(receipts := m.receipts[ReceiptIdOf(r) := r], writes := m.writes + [ReceiptWrite(ReceiptIdOf(r))])
  }

  lemma InsertKeeps<K, V>(m: map<K, V>, k: K, v: V)
    requires k !in m
    ensures forall id :: id in m ==> id in m[k := v] && m[k := v][id] == m[id]
  {
  }

  lemma MatrixKeepsJoined(m: Memory, x: Matrix)
    requires Joined(m) && IdOf(x) !in m.matrices
    ensures Joined(WithMatrix(m, x))
  {
    hide ContentHash, Constructible, ReceiptIdOf, FixtureIdOf, RequestedIds, Only, ExpectedDeclaration;
  }

  lemma MatrixKeepsLogged(m: Memory, x: Matrix)
    requires Logged(m) && IdOf(x) !in m.matrices
    ensures Logged(WithMatrix(m, x))
  {
    hide InOrder, Constructible, FixtureIdOf, ReceiptIdOf, ContentHash, Only;
    InOrderAppend(m.writes, MatrixWrite(IdOf(x)));
  }

  lemma MatrixKeepsSound(m: Memory, x: Matrix)
    requires Sound(m) && IdOf(x) !in m.matrices
    ensures Sound(WithMatrix(m, x)) && Grows(m, WithMatrix(m, x))
  {
    hide Joined, InOrder, Logged, FixtureJoined, Constructible, FixtureIdOf, ReceiptIdOf, RequestedIds;
    MatrixKeepsJoined(m, x);
    MatrixKeepsLogged(m, x);
  }

  lemma BuildKeepsJoined(m: Memory, id: BuildId, d: Declaration)
    requires Joined(m) && id !in m.builds
    ensures Joined(WithBuild(m, id, d))
  {
    hide ContentHash, Constructible, ReceiptIdOf, FixtureIdOf, RequestedIds, Only, ExpectedDeclaration;
  }

  lemma BuildKeepsLogged(m: Memory, id: BuildId, d: Declaration)
    requires Logged(m) && id !in m.builds
    ensures Logged(WithBuild(m, id, d))
  {
    hide InOrder, Constructible, FixtureIdOf, ReceiptIdOf, ContentHash, Only;
    InOrderAppend(m.writes, BuildWrite(id));
  }

  lemma BuildKeepsSound(m: Memory, id: BuildId, d: Declaration)
    requires Sound(m) && id !in m.builds
    ensures Sound(WithBuild(m, id, d)) && Grows(m, WithBuild(m, id, d))
  {
    hide Joined, InOrder, Logged, FixtureJoined, Constructible, FixtureIdOf, ReceiptIdOf, RequestedIds;
    BuildKeepsJoined(m, id, d);
    BuildKeepsLogged(m, id, d);
  }

  lemma CallKeepsJoined(m: Memory, row: Row)
    requires Joined(m) && row.id !in m.calls
    ensures Joined(WithCall(m, row))
  {
    hide ContentHash, Constructible, ReceiptIdOf, FixtureIdOf, RequestedIds, Only, ExpectedDeclaration;
    forall id | id in m.fixtures
      ensures FixtureJoined(m.fixtures[id].doc, m.matrices, m.builds, m.calls[row.id := row])
    {
      OnlyGrows(m.calls, m.calls[row.id := row], RequestedIds(m.fixtures[id].doc));
    }
  }

  lemma CallKeepsLogged(m: Memory, row: Row)
    requires Logged(m) && row.id !in m.calls
    ensures Logged(WithCall(m, row))
  {
    hide InOrder, Constructible, FixtureIdOf, ReceiptIdOf, ContentHash, Only;
    InOrderAppend(m.writes, CallWrite(row.id));
  }

  lemma CallKeepsSound(m: Memory, row: Row)
    requires Sound(m) && row.id !in m.calls
    ensures Sound(WithCall(m, row)) && Grows(m, WithCall(m, row))
  {
    hide Joined, InOrder, Logged, FixtureJoined, Constructible, FixtureIdOf, ReceiptIdOf, RequestedIds;
    CallKeepsJoined(m, row);
    CallKeepsLogged(m, row);
  }

  lemma FixtureKeepsJoined(m: Memory, f: Fixture)
    requires Joined(m) && Constructible(f) && FixtureIdOf(f.doc) !in m.fixtures
             && FixtureJoined(f.doc, m.matrices, m.builds, m.calls)
    ensures Joined(WithFixture(m, f))
  {
    hide FixtureJoined, Constructible, FixtureIdOf, ReceiptIdOf;
  }

  lemma FixtureKeepsLogged(m: Memory, f: Fixture)
    requires Logged(m) && Constructible(f) && FixtureIdOf(f.doc) !in m.fixtures
             && FixtureJoined(f.doc, m.matrices, m.builds, m.calls)
    ensures Logged(WithFixture(m, f))
  {
    hide InOrder, Constructible, FixtureIdOf, ReceiptIdOf, ContentHash, Only;
    InOrderAppend(m.writes, FixtureWrite(f.doc));
  }

  lemma FixtureKeepsSound(m: Memory, f: Fixture)
    requires Sound(m) && Constructible(f) && FixtureIdOf(f.doc) !in m.fixtures
             && FixtureJoined(f.doc, m.matrices, m.builds, m.calls)
    ensures Sound(WithFixture(m, f)) && Grows(m, WithFixture(m, f))
  {
    hide Joined, InOrder, Logged, FixtureJoined, Constructible, FixtureIdOf, ReceiptIdOf, RequestedIds;
    FixtureKeepsJoined(m, f);
    FixtureKeepsLogged(m, f);
    InsertKeeps(m.fixtures, FixtureIdOf(f.doc), f);
  }

  lemma ReceiptKeepsJoined(m: Memory, r: Receipt)
    requires Joined(m) && ReceiptIdOf(r) !in m.receipts && FixtureIdOf(r.fixture.doc) in m.fixtures
    ensures Joined(WithReceipt(m, r))
  {
    hide FixtureJoined, Constructible, FixtureIdOf, ReceiptIdOf;
  }

  lemma ReceiptKeepsLogged(m: Memory, r: Receipt)
    requires Logged(m) && ReceiptIdOf(r) !in m.receipts && FixtureIdOf(r.fixture.doc) in m.fixtures
    ensures Logged(WithReceipt(m, r))
  {
    hide InOrder, Constructible, FixtureIdOf, ReceiptIdOf, ContentHash, Only;
    InOrderAppend(m.writes, ReceiptWrite(ReceiptIdOf(r)));
  }

  lemma ReceiptKeepsSound(m: Memory, r: Receipt)
    requires Sound(m) && ReceiptIdOf(r) !in m.receipts && FixtureIdOf(r.fixture.doc) in m.fixtures
    ensures Sound(WithReceipt(m, r)) && Grows(m, WithReceipt(m, r))
  {
    hide Joined, InOrder, Logged, FixtureJoined, Constructible, FixtureIdOf, ReceiptIdOf, RequestedIds;
    ReceiptKeepsJoined(m, r);
    ReceiptKeepsLogged(m, r);
    InsertKeeps(m.receipts, ReceiptIdOf(r), r);
  }

  lemma GrowsTransitive(a: Memory, b: Memory, c: Memory)
    requires Grows(a, b) && Grows(b, c)
    ensures Grows(a, c)
  {
  }

  // ---- the store ----

  class InMemoryReplayStore {
    var matrices: map<MatrixId, Matrix>
    var calls: Rows
    var builds: map<BuildId, Declaration>
    var fixtures: map<FixtureId, Fixture>
    var receipts: map<ReceiptId, Receipt>
    var writeOrder: seq<Write>

    constructor ()
      ensures Valid() && State() == EMPTY
    {
      matrices, calls, builds, fixtures, receipts, writeOrder := map[], map[], map[], map[], map[], [];
    }

    function State(): Memory
      reads this
    {
      Memory(matrices, calls, builds, fixtures, receipts, writeOrder)
    }

    ghost predicate Valid()
      reads this
    {
      Sound(State())
    }

    method PublishMatrix(matrix: Matrix) returns (r: Result<Matrix>)
      requires Valid()
      modifies this
      ensures Valid() && Grows(old(State()), State())
      ensures r == if IdOf(matrix) in old(matrices) && old(matrices)[IdOf(matrix)] != matrix then Err else Ok(matrix)
      ensures State() == if IdOf(matrix) in old(matrices) then old(State()) else WithMatrix(old(State()), matrix)
    {
      hide Sound;
      var id := IdOf(matrix);
      if id in matrices {
        return if matrices[id] == matrix then Ok(matrix) else Err;
      }
      MatrixKeepsSound(State(), matrix);
      hide Grows;
      matrices := matrices[id := matrix];
      writeOrder := writeOrder + [MatrixWrite(id)];
      r := Ok(matrix);
    }

    method ReserveBuild(id: BuildId, declaration: Declaration) returns (r: Result<Declaration>)
      requires Valid()
      modifies this
      ensures Valid() && Grows(old(State()), State())
      ensures r == if id in old(builds) && old(builds)[id] != declaration then Err else Ok(declaration)
      ensures State() == if id in old(builds) then old(State()) else WithBuild(old(State()), id, declaration)
    {
      hide Sound;
      if id in builds {
        return if builds[id] == declaration then Ok(declaration) else Err;
      }
      BuildKeepsSound(State(), id, declaration);
      hide Grows;
      builds := builds[id := declaration];
      writeOrder := writeOrder + [BuildWrite(id)];
      r := Ok(declaration);
    }

    method PublishCall(row: Row) returns (r: Result<Row>)
      requires Valid()
      modifies this`calls, this`writeOrder
      ensures Valid() && Grows(old(State()), State())
      ensures r == if row.id in old(calls) && old(calls)[row.id] != row then Err else Ok(row)
      ensures State() == if row.id in old(calls) then old(State()) else WithCall(old(State()), row)
    {
      hide Sound;
      if row.id in calls {
        return if calls[row.id] == row then Ok(row) else Err;
      }
      CallKeepsSound(State(), row);
      hide Grows;
      calls := calls[row.id := row];
      writeOrder := writeOrder + [CallWrite(row.id)];
      r := Ok(row);
    }

    /** Writes the unpublished rows one by one. */
    method PublishAll(rows: seq<Row>, ghost target: Rows)
      requires Valid() && Keyed(target)
      requires forall id :: id in calls ==> id in target && target[id] == calls[id]
      requires forall id :: id in target && id !in calls ==> target[id] in rows
      requires forall row :: row in rows ==> row.id in target && target[row.id] == row
      modifies this`calls, this`writeOrder
      ensures Valid() && Grows(old(State()), State()) && calls == target
      ensures rows == [] ==> State() == old(State())
    {
      hide Sound, Grows;
      GrowsSelf(State());
      for i := 0 to |rows|
        invariant Valid() && Grows(old(State()), State())
        invariant forall id :: id in calls ==> id in target && target[id] == calls[id]
        invariant forall id :: id in target && id !in calls ==> target[id] in rows[i..]
        invariant i == 0 ==> State() == old(State())
      {
        assert rows[i..] == [rows[i]] + rows[i + 1..];
        label before:
        var r := PublishCall(rows[i]);
        GrowsTransitive(old(State()), old@before(State()), State());
      }
    }

    /** Publishing checks everything first, then writes the call rows, then the fixture. A call
        that raises leaves the store as it was, even at the divergence check after the rows. */
    method PublishFixture(f: Fixture) returns (r: Result<Fixture>)
      requires Valid() && Constructible(f)
      modifies this
      ensures Valid() && Grows(old(State()), State())
      ensures r.Ok? <==> Preflight(old(State()), f).Ok?
                         && (FixtureIdOf(f.doc) in old(fixtures) ==> old(fixtures)[FixtureIdOf(f.doc)].doc == f.doc)
      ensures r.Ok? ==> FixtureIdOf(f.doc) in fixtures && fixtures[FixtureIdOf(f.doc)].doc == f.doc
      ensures r.Ok? ==> calls == Screen(old(calls), f.records).value.candidates
      ensures matrices == old(matrices) && builds == old(builds) && receipts == old(receipts)
      ensures r.Err? ==> State() == old(State())
    {
      hide Sound, Joined, Logged, Grows, Preflight, Screen, FixtureJoined, Constructible, FixtureIdOf;
      GrowsSelf(State());
      var checked := Preflight(State(), f);
      if checked.Err? { return Err; }
      var unpublished, id := checked.value, FixtureIdOf(f.doc);
      PreflightOfSound(State(), f);
      PublishAll(unpublished, Screen(calls, f.records).value.candidates);
      if id in fixtures {
        return if fixtures[id].doc == f.doc then Ok(fixtures[id]) else Err;
      }
      FixtureKeepsSound(State(), f);
      GrowsTransitive(old(State()), State(), WithFixture(State(), f));
      fixtures := fixtures[id := f];
      writeOrder := writeOrder + [FixtureWrite(f.doc)];
      r := Ok(f);
    }

    method PublishReceipt(receipt: Receipt) returns (r: Result<Receipt>)
      requires Valid() && ReceiptConstructible(receipt)
      modifies this
      ensures Valid() && Grows(old(State()), State())
      ensures var id := ReceiptIdOf(receipt);
              if IdOf(receipt.matrix) in old(matrices) && FixtureIdOf(receipt.fixture.doc) in old(fixtures)
                 && (id in old(receipts) ==> ReceiptDocOf(old(receipts)[id]) == ReceiptDocOf(receipt))
              then r == Ok(if id in old(receipts) then old(receipts)[id] else receipt)
                   && State() == (if id in old(receipts) then old(State()) else WithReceipt(old(State()), receipt))
              else r == Err && State() == old(State())
    {
      hide Sound, ReceiptConstructible;
      var id := ReceiptIdOf(receipt);
      if IdOf(receipt.matrix) !in matrices || FixtureIdOf(receipt.fixture.doc) !in fixtures { return Err; }
      if id in receipts {
        return if ReceiptDocOf(receipts[id]) == ReceiptDocOf(receipt) then Ok(receipts[id]) else Err;
      }
      ReceiptKeepsSound(State(), receipt);
      hide Grows;
      receipts := receipts[id := receipt];
      writeOrder := writeOrder + [ReceiptWrite(id)];
      r := Ok(receipt);
    }

    /** Loading succeeds for exactly the published fixtures and their declared arms. */
    method LoadReplayFixture(id: FixtureId, arm: Text) returns (r: Result<Loaded>)
      requires Valid()
      ensures r == Load(State(), id, arm)
      ensures r.Ok? <==> id in fixtures && arm in fixtures[id].doc.requests
    {
      r := Load(State(), id, arm);
      if id in fixtures && arm in fixtures[id].doc.requests {
        GrowsSelf(State());
        PublishedMeansLoadable(State(), State(), id, arm);
      }
    }

    /** Construction is only allowed against a registered matrix and a declared window, within
        the registered fixture count, and reserves the derived build address. */
    method BeginBuild(matrix: Matrix, window: Text, ordinal: nat, scenario: Text, extras: Text)
      returns (r: Result<FixtureBuild>)
      requires Valid() && matrix.arms != {}
      modifies this
      ensures Valid() && Grows(old(State()), State())
      ensures r.Ok? <==>
              && IdOf(matrix) in old(matrices) && window in matrix.windows && ordinal < matrix.fixtureCount
              && scenario in matrix.scenarios
              && var id := BuildSha(IdOf(matrix), window, ordinal, scenario);
                 id in old(builds) ==>
                   old(builds)[id] == Declaration(IdOf(matrix), window, ordinal, scenario, matrix.scenarios[scenario])
      ensures r.Ok? ==> fresh(r.value) && r.value.Valid() && r.value.matrix == matrix
      ensures r.Ok? ==> var id := r.value.ToSeal().doc.buildId;
                        id in builds && builds[id] == ExpectedDeclaration(r.value.ToSeal().doc)
      ensures r.Err? ==> State() == old(State())
    {
      GrowsSelf(State());
      if IdOf(matrix) !in matrices || window !in matrix.windows || ordinal >= matrix.fixtureCount
         || scenario !in matrix.scenarios { return Err; }
      hide Sound, Grows;
      var id := BuildSha(IdOf(matrix), window, ordinal, scenario);
      var reserved :=
        ReserveBuild(id, Declaration(IdOf(matrix), window, ordinal, scenario, matrix.scenarios[scenario]));
      if reserved.Err? { return Err; }
      var build := new FixtureBuild(matrix, window, ordinal, scenario, extras);
      r := Ok(build);
    }
  }

  lemma GrowsSelf(m: Memory)
    ensures Grows(m, m)
  {
  }

  /** What a passed preflight has established about the candidates. */
  lemma PreflightMeans(m: Memory, f: Fixture)
    requires Keyed(m.calls) && Preflight(m, f).Ok?
    ensures Screen(m.calls, f.records).Ok?
    ensures var s := Screen(m.calls, f.records).value;
            && Preflight(m, f).value == s.unpublished
            && FixtureJoined(f.doc, m.matrices, m.builds, s.candidates) && Keyed(s.candidates)
            && (forall id :: id in m.calls ==> id in s.candidates && s.candidates[id] == m.calls[id])
            && (forall id :: id in s.candidates && id !in m.calls ==> s.candidates[id] in s.unpublished)
            && (forall row :: row in s.unpublished ==> row.id in s.candidates && s.candidates[row.id] == row)
            && (forall row :: row in f.records ==> row.id in s.candidates && s.candidates[row.id] == row)
  {
    ScreenProperties(m.calls, f.records);
    hide Screen, RequestedIds, Only, ContentHash;
  }

  lemma PreflightOfSound(m: Memory, f: Fixture)
    requires Sound(m) && Constructible(f) && Preflight(m, f).Ok?
    ensures Screen(m.calls, f.records).Ok?
    ensures var s := Screen(m.calls, f.records).value;
            && Preflight(m, f).value == s.unpublished
            && FixtureJoined(f.doc, m.matrices, m.builds, s.candidates) && Keyed(s.candidates)
            && (forall id :: id in m.calls ==> id in s.candidates && s.candidates[id] == m.calls[id])
            && (forall id :: id in s.candidates && id !in m.calls ==> s.candidates[id] in s.unpublished)
            && (forall row :: row in s.unpublished ==> row.id in s.candidates && s.candidates[row.id] == row)
    ensures FixtureIdOf(f.doc) in m.fixtures ==> Preflight(m, f).value == []
  {
    hide Preflight, Screen, FixtureJoined, Constructible, FixtureIdOf, Logged, ContentHash;
    PreflightMeans(m, f);
    if FixtureIdOf(f.doc) in m.fixtures { TwinHasNothingToPublish(m, f); }
  }
}

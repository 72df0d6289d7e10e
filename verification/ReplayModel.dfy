/** The immutable values of the replay evidence: call rows and their ledger hash, matrices,
    build declarations, fixtures and receipts. A SHA-256 address is a datatype constructor
    applied to what it digests, so addresses are injective by construction. */
module ReplayModel {
  import opened KeyOrder

  type Text = Key

  datatype Result<+T> = Ok(value: T) | Err

  // ---- model evidence rows and ledgers ----

  /** One model-evidence row: its semantic id and everything else it holds. Its content hash
      digests all of it, so two rows have one content hash exactly when they are equal. */
  datatype Row = Row(id: Text, content: Text)

  type Rows = map<Text, Row>

  predicate Keyed(rows: Rows) {
    forall id :: id in rows ==> rows[id].id == id
  }

  /** The ledger's records in ascending order of semantic id. */
  function Records(rows: Rows): (records: seq<Row>)
    ensures |records| == |rows.Keys|
  {
    var ids := SortedKeys(rows.Keys);
    assert forall i :: 0 <= i < |ids| ==> ids[i] in rows.Keys;
    seq(|ids|, i requires 0 <= i < |ids| => rows[ids[i]])
  }

  datatype LedgerHash = LedgerSha(records: seq<Row>)

  function ContentHash(rows: Rows): LedgerHash {
    LedgerSha(Records(rows))
  }

  /** The ledger hash determines the ledger. */
  lemma ContentHashInjective(a: Rows, b: Rows)
    requires Keyed(a) && Keyed(b) && ContentHash(a) == ContentHash(b)
    ensures a == b
  {
    var ka, kb := SortedKeys(a.Keys), SortedKeys(b.Keys);
    assert |ka| == |Records(a)| == |Records(b)| == |kb|;
    forall i | 0 <= i < |ka| ensures ka[i] == kb[i] && a[ka[i]] == b[kb[i]] {
      assert ka[i] in a.Keys && kb[i] in b.Keys;
      assert Records(a)[i] == a[ka[i]] && Records(b)[i] == b[kb[i]];
    }
    assert ka == kb;
    forall id ensures id in a <==> id in b {
      assert id in ka <==> id in kb;
    }
    forall id | id in a ensures a[id] == b[id] {
      var i :| 0 <= i < |ka| && ka[i] == id;
    }
  }

  /** Publishing records one after the other into an empty ledger; a divergent row for an id
      already present raises. */
  function LedgerOf(records: seq<Row>): (r: Result<Rows>)
    ensures r.Ok? ==> Keyed(r.value) && (forall row :: row in records ==> row.id in r.value && r.value[row.id] == row)
    ensures r.Ok? ==> forall id :: id in r.value ==> r.value[id] in records
    ensures r.Err? ==> exists x, y :: x in records && y in records && x.id == y.id && x != y
  {
    if records == [] then Ok(map[])
    else
      var last := records[|records| - 1];
      match LedgerOf(records[..|records| - 1])
      case Err => Err
      case Ok(rows) =>
        if last.id !in rows then
          assert forall row :: row in records ==> row in records[..|records| - 1] || row == last;
          Ok(rows[last.id := last])
        else if rows[last.id] == last then
          assert forall row :: row in records ==> row in records[..|records| - 1] || row == last;
          Ok(rows)
        else Err
  }

  /** The rows of `rows` whose ids are in `ids`. */
  function Only(rows: Rows, ids: set<Text>): Rows {
    map id | id in ids && id in rows :: rows[id]
  }

  // ---- matrices ----

  /** `identity` is what the matrix address digests beyond the fields named here;
      `specDocs` are the experiment documents, which the address covers only by fingerprint. */
  datatype Matrix = Matrix(arms: set<Text>, scenarios: map<Text, Text>, windows: set<Text>,
                           fixtureCount: nat, identity: Text, specDocs: Text)

  datatype MatrixId = MatrixSha(arms: set<Text>, scenarios: map<Text, Text>, windows: set<Text>,
                                fixtureCount: nat, identity: Text)

  function IdOf(m: Matrix): MatrixId {
    MatrixSha(m.arms, m.scenarios, m.windows, m.fixtureCount, m.identity)
  }

  // ---- builds ----

  datatype BuildId = BuildSha(matrixId: MatrixId, window: Text, ordinal: nat, scenario: Text)
                   | OtherBuild(name: Text)

  datatype Declaration = Declaration(matrixId: MatrixId, window: Text, ordinal: nat,
                                     scenario: Text, scenarioHash: Text)

  // ---- fixtures ----

  /** One point-in-time entry: when the decision was taken and how fresh its data was. */
  datatype Pit = Pit(decisionAt: Text, asOf: Text, manifest: Text)

  /** Timestamps are compared as the texts they are stored as. */
  predicate AtMost(a: Text, b: Text) {
    !Less(b, a)
  }

  predicate PitChainOk(chain: seq<Pit>) {
    && (forall i :: 0 <= i < |chain| ==> AtMost(chain[i].asOf, chain[i].decisionAt))
    && (forall i :: 0 < i < |chain| ==> AtMost(chain[i - 1].decisionAt, chain[i].decisionAt))
  }

  /** The persisted fixture document. `extras` holds the seed and benchmark manifests. */
  datatype FixtureDoc = FixtureDoc(matrixId: MatrixId, buildId: BuildId, window: Text, ordinal: nat,
                                   scenario: Text, scenarioHash: Text, pitChain: seq<Pit>,
                                   ledgerHash: LedgerHash, requests: map<Text, set<Text>>, extras: Text)

  /** The in-process fixture: its document and the rows it travels with. */
  datatype Fixture = Fixture(doc: FixtureDoc, records: seq<Row>)

  /** The fixture address covers everything but the build address and the rows. */
  datatype FixtureId = FixtureSha(matrixId: MatrixId, window: Text, ordinal: nat, scenario: Text,
                                  scenarioHash: Text, pitChain: seq<Pit>, ledgerHash: LedgerHash,
                                  requests: map<Text, set<Text>>, extras: Text)

  function FixtureIdOf(d: FixtureDoc): FixtureId {
    FixtureSha(d.matrixId, d.window, d.ordinal, d.scenario, d.scenarioHash, d.pitChain,
               d.ledgerHash, d.requests, d.extras)
  }

  function RequestedIds(d: FixtureDoc): set<Text> {
    set arm, id | arm in d.requests && id in d.requests[arm] :: id
  }

  /** What constructing a ReplayFixture checks. */
  predicate Constructible(f: Fixture) {
    && PitChainOk(f.doc.pitChain)
    && f.doc.requests != map[]
    && (f.records != [] ==>
          LedgerOf(f.records).Ok? && ContentHash(LedgerOf(f.records).value) == f.doc.ledgerHash)
  }

  function DerivedBuild(d: FixtureDoc): BuildId {
    BuildSha(d.matrixId, d.window, d.ordinal, d.scenario)
  }

  /** Reading a persisted fixture back: it is rebuilt without rows and must still carry the
      build address its own contents derive. */
  function FromDoc(d: FixtureDoc): Result<Fixture> {
    var f := Fixture(d, []);
    if Constructible(f) && d.buildId == DerivedBuild(d) then Ok(f) else Err
  }

  /** Texts are compared character by character. */
  predicate NotAfter(a: Text, b: Text) {
    a == b || Less(a, b)
  }

  /** A chain is in order exactly when every entry's evidence is not after its decision and no decision
      is after the next. */
  lemma ChainExact(chain: seq<Pit>)
    ensures PitChainOk(chain) <==>
            && (forall i :: 0 <= i < |chain| ==> NotAfter(chain[i].asOf, chain[i].decisionAt))
            && (forall i :: 0 <= i < |chain| - 1 ==> NotAfter(chain[i].decisionAt, chain[i + 1].decisionAt))
  {
    hide Less;
    forall a: Text, b: Text ensures AtMost(a, b) <==> NotAfter(a, b) { AtMostExact(a, b); }
    if PitChainOk(chain) {
      forall i | 0 <= i < |chain| - 1 ensures NotAfter(chain[i].decisionAt, chain[i + 1].decisionAt) {
        assert AtMost(chain[(i + 1) - 1].decisionAt, chain[i + 1].decisionAt);
      }
    }
    if forall i :: 0 <= i < |chain| - 1 ==> NotAfter(chain[i].decisionAt, chain[i + 1].decisionAt) {
      forall i | 0 < i < |chain| ensures NotAfter(chain[i - 1].decisionAt, chain[i].decisionAt) {
        assert NotAfter(chain[i - 1].decisionAt, chain[(i - 1) + 1].decisionAt);
      }
    }
  }

  lemma AtMostExact(a: Text, b: Text)
    ensures AtMost(a, b) <==> a == b || Less(a, b)
  {
    hide Less;
    LessTotal(a, b);
    LessIrreflexive(a);
    if Less(a, b) { LessAsymmetric(a, b); }
  }

  /** A stored document reads back exactly when its chain is in order, some arm has requests and the
      build address is the one its contents derive. */
  lemma FromDocExact(d: FixtureDoc)
    ensures FromDoc(d).Ok? <==>
            PitChainOk(d.pitChain) && d.requests.Keys != {}
            && d.buildId == BuildSha(d.matrixId, d.window, d.ordinal, d.scenario)
    ensures FromDoc(d).Ok? ==> FromDoc(d).value == Fixture(d, [])
  {
    assert d.requests == map[] <==> d.requests.Keys == {};
  }

  /** A fixture is constructed exactly when its chain is in order, some arm has requests, and the rows it
      travels with, if any, make a ledger of its hash. */
  lemma ConstructibleExact(f: Fixture)
    ensures Constructible(f) <==>
            && PitChainOk(f.doc.pitChain) && f.doc.requests.Keys != {}
            && (f.records == []
                || (LedgerOf(f.records).Ok? && ContentHash(LedgerOf(f.records).value) == f.doc.ledgerHash))
  {
    assert f.doc.requests == map[] <==> f.doc.requests.Keys == {};
  }

  /** A receipt joins a constructed fixture of its own matrix with an arm that both declare. */
  lemma ReceiptExact(r: Receipt)
    ensures ReceiptConstructible(r) <==>
            Constructible(r.fixture) && r.arm in r.matrix.arms && r.arm in r.fixture.doc.requests.Keys
            && r.fixture.doc.matrixId == IdOf(r.matrix)
  {
  }

  /** Only the build address can make a constructed fixture unreadable. */
  lemma StoredFixtureReadable(f: Fixture)
    requires Constructible(f)
    ensures FromDoc(f.doc).Ok? <==> f.doc.buildId == DerivedBuild(f.doc)
    ensures FromDoc(f.doc).Ok? ==> FromDoc(f.doc).value.doc == f.doc
  {
  }

  function ExpectedDeclaration(d: FixtureDoc): Declaration {
    Declaration(d.matrixId, d.window, d.ordinal, d.scenario, d.scenarioHash)
  }

  // ---- receipts ----

  /** `audit` is what the receipt address digests beyond its joins; `treeHash` is stored but
      not digested. */
  datatype Receipt = Receipt(matrix: Matrix, arm: Text, fixture: Fixture, audit: Text, treeHash: Text)

  datatype ReceiptId = ReceiptSha(matrixId: MatrixId, arm: Text, fixtureId: FixtureId, audit: Text)

  function ReceiptIdOf(r: Receipt): ReceiptId {
    ReceiptSha(IdOf(r.matrix), r.arm, FixtureIdOf(r.fixture.doc), r.audit)
  }

  /** The persisted receipt document. */
  datatype ReceiptDoc = ReceiptDoc(id: ReceiptId, treeHash: Text)

  function ReceiptDocOf(r: Receipt): ReceiptDoc {
    ReceiptDoc(ReceiptIdOf(r), r.treeHash)
  }

  /** What constructing a ReplayReceipt checks of its joins. */
  predicate ReceiptConstructible(r: Receipt) {
    && Constructible(r.fixture)
    && r.arm in r.matrix.arms
    && r.fixture.doc.matrixId == IdOf(r.matrix)
    && r.arm in r.fixture.doc.requests
  }

  // ---- building a fixture ----

  function Bound(requests: set<Text>, ids: seq<Text>): set<Text> {
    requests + set id | id in ids
  }

  /** Mutable construction state addressed by a reserved build. */
  class FixtureBuild {
    const matrix: Matrix
    const window: Text
    const ordinal: nat
    const scenario: Text
    const extras: Text
    var pitChain: seq<Pit>
    var ledger: Rows
    var armRequests: map<Text, set<Text>>
    var sealedAs: Result<Fixture>

    constructor (matrix: Matrix, window: Text, ordinal: nat, scenario: Text, extras: Text)
      requires scenario in matrix.scenarios && matrix.arms != {}
      ensures Valid() && this.matrix == matrix && this.window == window && this.ordinal == ordinal
      ensures this.scenario == scenario && this.extras == extras
      ensures pitChain == [] && ledger == map[] && sealedAs == Err
      ensures armRequests == map arm | arm in matrix.arms :: {}
    {
      this.matrix, this.window, this.ordinal, this.scenario, this.extras := matrix, window, ordinal, scenario, extras;
      pitChain, ledger, sealedAs := [], map[], Err;
      armRequests := map arm | arm in matrix.arms :: {};
    }

    ghost predicate Valid()
      reads this
    {
      && scenario in matrix.scenarios && matrix.arms != {}
      && PitChainOk(pitChain) && Keyed(ledger)
      && armRequests.Keys == matrix.arms
      && (forall arm, id :: arm in armRequests && id in armRequests[arm] ==> id in ledger)
      && (sealedAs.Ok? ==> Survives(sealedAs.value))
    }

    /** A fixture of this build that reads back from its stored document. */
    ghost predicate Survives(f: Fixture)
      reads this
    {
      && Constructible(f) && FromDoc(f.doc) == Ok(Fixture(f.doc, []))
      && f.doc.matrixId == IdOf(matrix) && f.doc.requests.Keys == matrix.arms
      && RequestedIds(f.doc) <= ledger.Keys
    }

    /** The fixture that sealing now would return. */
    function ToSeal(): Fixture
      requires scenario in matrix.scenarios
      reads this
    {
      Fixture(FixtureDoc(IdOf(matrix), BuildSha(IdOf(matrix), window, ordinal, scenario), window, ordinal,
                         scenario, matrix.scenarios[scenario], pitChain, ContentHash(ledger),
                         armRequests, extras),
              Records(ledger))
    }

    method RecordPit(entry: Pit) returns (ok: bool)
      requires Valid()
      modifies this
      ensures Valid()
      ensures ok <==> old(sealedAs).Err? && AtMost(entry.asOf, entry.decisionAt)
                      && (old(pitChain) == []
                          || AtMost(old(pitChain)[|old(pitChain)| - 1].decisionAt, entry.decisionAt))
      ensures pitChain == if ok then old(pitChain) + [entry] else old(pitChain)
      ensures ledger == old(ledger) && armRequests == old(armRequests) && sealedAs == old(sealedAs)
    {
      if sealedAs.Ok? || !AtMost(entry.asOf, entry.decisionAt) { return false; }
      if pitChain != [] && !AtMost(pitChain[|pitChain| - 1].decisionAt, entry.decisionAt) { return false; }
      pitChain := pitChain + [entry];
      ok := true;
    }

    method RecordModelRow(arm: Text, row: Row) returns (ok: bool)
      requires Valid()
      modifies this
      ensures Valid()
      ensures ok <==> old(sealedAs).Err? && arm in matrix.arms
                      && (row.id in old(ledger) ==> old(ledger)[row.id] == row)
      ensures ledger == if ok then old(ledger)[row.id := row] else old(ledger)
      ensures armRequests == if ok then old(armRequests)[arm := old(armRequests)[arm] + {row.id}] else old(armRequests)
      ensures pitChain == old(pitChain) && sealedAs == old(sealedAs)
    {
      if sealedAs.Ok? || arm !in armRequests { return false; }
      if row.id in ledger && ledger[row.id] != row { return false; }
      ledger := ledger[row.id := row];
      armRequests := armRequests[arm := armRequests[arm] + {row.id}];
      ok := true;
    }

    /** The evidence session publishes rows straight into the build's ledger, sealed or not: what
        was sealed stays as it was. */
    method PublishRow(row: Row) returns (ok: bool)
      requires Valid()
      modifies this
      ensures Valid()
      ensures ok <==> (row.id in old(ledger) ==> old(ledger)[row.id] == row)
      ensures ledger == if ok then old(ledger)[row.id := row] else old(ledger)
      ensures pitChain == old(pitChain) && armRequests == old(armRequests) && sealedAs == old(sealedAs)
    {
      if row.id in ledger && ledger[row.id] != row { return false; }
      ledger := ledger[row.id := row];
      ok := true;
    }

    /** Binds ids one by one; the first id absent from the ledger raises, keeping those before it. */
    method AdoptSessionOccurrences(arm: Text, ids: seq<Text>) returns (ok: bool)
      requires Valid()
      modifies this
      ensures Valid()
      ensures ok <==> old(sealedAs).Err? && arm in matrix.arms && forall id :: id in ids ==> id in ledger
      ensures armRequests.Keys == old(armRequests).Keys
      ensures forall other :: other in armRequests && other != arm ==> armRequests[other] == old(armRequests)[other]
      ensures arm in armRequests ==>
                exists k :: 0 <= k <= |ids| && (ok ==> k == |ids|)
                  && armRequests[arm] == Bound(old(armRequests)[arm], ids[..k])
      ensures ledger == old(ledger) && pitChain == old(pitChain) && sealedAs == old(sealedAs)
    {
      assert arm in armRequests ==> armRequests[arm] == Bound(armRequests[arm], ids[..0]);
      if sealedAs.Ok? || arm !in armRequests { return false; }
      for i := 0 to |ids|
        invariant Valid() && sealedAs.Err? && arm in armRequests
        invariant forall j :: 0 <= j < i ==> ids[j] in ledger
        invariant armRequests.Keys == old(armRequests).Keys
        invariant forall other :: other in armRequests && other != arm ==> armRequests[other] == old(armRequests)[other]
        invariant armRequests[arm] == Bound(old(armRequests)[arm], ids[..i])
        invariant ledger == old(ledger) && pitChain == old(pitChain) && sealedAs == old(sealedAs)
      {
        if ids[i] !in ledger { return false; }
        armRequests := armRequests[arm := armRequests[arm] + {ids[i]}];
        assert ids[..i + 1] == ids[..i] + [ids[i]];
      }
      assert ids[..|ids|] == ids;
      ok := true;
    }

    /** Sealing never raises, is idempotent, and gives a fixture that survives the store. */
    method Seal() returns (f: Fixture)
      requires Valid()
      modifies this
      ensures Valid() && sealedAs == Ok(f)
      ensures f == if old(sealedAs).Ok? then old(sealedAs).value else old(ToSeal())
      ensures Constructible(f) && FromDoc(f.doc) == Ok(Fixture(f.doc, []))
      ensures RequestedIds(f.doc) <= ledger.Keys
      ensures pitChain == old(pitChain) && ledger == old(ledger) && armRequests == old(armRequests)
    {
      if sealedAs.Err? {
        SealedSurvives();
        sealedAs := Ok(ToSeal());
      }
      f := sealedAs.value;
    }

    lemma SealedSurvives()
      requires Valid()
      ensures Constructible(ToSeal()) && FromDoc(ToSeal().doc) == Ok(Fixture(ToSeal().doc, []))
      ensures RequestedIds(ToSeal().doc) <= ledger.Keys
    {
      hide Records;
      LedgerOfRecords(ledger);
      var arm :| arm in matrix.arms;
      assert arm in armRequests.Keys;
    }
  }

  lemma RecordsMembers(rows: Rows)
    requires Keyed(rows)
    ensures forall row :: row in Records(rows) ==> row.id in rows && rows[row.id] == row
    ensures forall id :: id in rows ==> rows[id] in Records(rows)
  {
    var records, ids := Records(rows), SortedKeys(rows.Keys);
    assert forall i :: 0 <= i < |ids| ==> ids[i] in rows.Keys && records[i] == rows[ids[i]];
    forall id | id in rows ensures rows[id] in records {
      assert id in ids;
    }
  }

  /** Publishing a ledger's own records gives the ledger back. */
  lemma LedgerOfRecords(rows: Rows)
    requires Keyed(rows)
    ensures LedgerOf(Records(rows)) == Ok(rows)
  {
    RecordsMembers(rows);
    hide Records, LedgerOf;
    var records := Records(rows);
    if LedgerOf(records).Ok? {
      var back := LedgerOf(records).value;
      forall id ensures id in back <==> id in rows {
        if id in rows { assert rows[id].id in back; }
      }
      assert back == rows;
    }
  }
}

/** One durable store object in use by a run: it makes its store steps one after the other, and one
    of its calls to the backend may raise, before its write reached the table or after. */
module FaultyStore {
  import opened Options
  import opened ReplayDurable
  import opened ReplayModel
  import opened ReplayStore

  /** Which backend call of this object raises, and whether its write had reached the table. */
  datatype Fault = Fault(call: nat, written: bool)

  /** Whether a store step calls the backend: what is cached is not looked up again, and every
      insert of a manifest, a receipt or a row that is not cached is a call. The two look-ups of a
      receipt count as one. */
  predicate CallsBackend(s: Store, op: Op) {
    match op
    case PublishMatrix(m) => IdOf(m) !in s.mem.matrices
    case ReserveBuild(_, _) => true
    case PublishCall(row) => row.id !in s.mem.calls
    case BeginFixture(f) => f.doc.matrixId !in s.mem.matrices
    case Continue =>
      (match s.at
       case Idle => false
       case Publishing(_, _, todo) => todo == [] || todo[0].id !in s.mem.calls
       case Witnessing(_) => true)
    case BeginReceipt(r) => IdOf(r.matrix) !in s.mem.matrices || FixtureIdOf(r.fixture.doc) !in s.mem.fixtures
    case ReadMatrix(id) => id !in s.mem.matrices
    case ReadCall(id) => id !in s.mem.calls
    case ReadFixture(id) => id !in s.mem.fixtures
    case Crash => false
  }

  function Cost(s: Store, op: Op): nat {
    if CallsBackend(s, op) then 1 else 0
  }

  predicate Strikes(fault: Option<Fault>, from: nat, until: nat) {
    fault.Some? && from <= fault.value.call < until
  }

  // ---- what decides a publication, read off the state before it ----

  /** The cache the preflight goes on: the matrix has been looked up. */
  function Begun(t: Tables, s: Store, f: Fixture): Memory {
    CacheMatrix(t, s.mem, f.doc.matrixId)
  }

  /** The call rows still to insert. */
  function Todo(t: Tables, s: Store, f: Fixture): seq<Row> {
    match Preflight(Begun(t, s, f), f)
    case Ok(rows) => rows
    case Err => []
  }

  /** No row of the backend contradicts one of these. */
  predicate RowsAccepted(t: Tables, rows: seq<Row>) {
    forall i :: 0 <= i < |rows| ==> Accepted(t.calls, rows[i].id, rows[i])
  }

  predicate RowsPublishable(t: Tables, s: Store, f: Fixture) {
    Preflight(Begun(t, s, f), f).Ok? && RowsAccepted(t, Todo(t, s, f))
  }

  /** Every check passes and nothing in the backend contradicts the fixture or its rows. */
  predicate Publishable(t: Tables, s: Store, f: Fixture) {
    RowsPublishable(t, s, f) && Accepted(t.fixtures, FixtureIdOf(f.doc), f.doc)
  }

  /** The call that inserts the manifest, counted from the start of the publication: the look-up of
      the matrix, when it is not cached, and the call rows come first. */
  function ManifestCall(t: Tables, s: Store, f: Fixture): nat {
    Cost(s, BeginFixture(f)) + |Todo(t, s, f)|
  }

  predicate Receivable(t: Tables, s: Store, r: Receipt) {
    && IdOf(r.matrix) in CacheMatrix(t, s.mem, IdOf(r.matrix)).matrices
    && (FixtureIdOf(r.fixture.doc) in s.mem.fixtures
        || (FixtureIdOf(r.fixture.doc) in t.fixtures && t.fixtures[FixtureIdOf(r.fixture.doc)] == r.fixture.doc))
    && Accepted(t.receipts, ReceiptIdOf(r), ReceiptDocOf(r))
  }

  /** Distinct rows, none of which the cache holds. */
  ghost predicate NewRows(mem: Memory, rows: seq<Row>) {
    && (forall i :: 0 <= i < |rows| ==> rows[i].id !in mem.calls)
    && forall i, j :: 0 <= i < j < |rows| ==> rows[i].id != rows[j].id
  }

  lemma TodoIsNew(t: Tables, s: Store, f: Fixture)
    requires Safe(t) && StoreOk(s, t) && Preflight(Begun(t, s, f), f).Ok?
    ensures NewRows(Begun(t, s, f), Todo(t, s, f))
    ensures Screen(Begun(t, s, f).calls, f.records).Ok?
  {
    hide Safe, Screen, RequestedIds, Only, ContentHash, FixtureIdOf;
    CacheKeyed(t, s.mem);
    PreflightMeans(Begun(t, s, f), f);
    ScreenProperties(Begun(t, s, f).calls, f.records);
    UnpublishedDistinct(Begun(t, s, f).calls, f.records);
  }

  lemma BeginEffect(t: Tables, s: Store, f: Fixture)
    ensures var after := Perform(t, s, BeginFixture(f));
            && after.0 == t && after.1.mem == Begun(t, s, f)
            && (Preflight(Begun(t, s, f), f).Err? ==> after.1.at == s.at)
            && (Preflight(Begun(t, s, f), f).Ok? ==>
                  after.1.at.Publishing? && after.1.at.f == f && after.1.at.todo == Todo(t, s, f))
  {
    hide Preflight, CacheMatrix;
  }

  lemma RowEffect(t: Tables, s: Store)
    requires s.at.Publishing? && s.at.todo != [] && s.at.todo[0].id !in s.mem.calls
    ensures var row, after := s.at.todo[0], Perform(t, s, Continue);
            && after.0 == t.(calls := if Accepted(t.calls, row.id, row) then Inserted(t.calls, row.id, row)
                                      else t.calls)
            && (Accepted(t.calls, row.id, row) ==>
                  after.1 == Store(WithCall(s.mem, row), Publishing(s.at.f, s.at.candidates, s.at.todo[1..])))
            && (!Accepted(t.calls, row.id, row) ==> after.1.at == Idle)
  {
    hide Preflight, CacheMatrix;
  }

  lemma RowFaultEffect(t: Tables, s: Store)
    requires s.at.Publishing? && s.at.todo != []
    ensures var after := Perform(t, s, Continue);
            after.0.fixtures == t.fixtures && after.0.receipts == t.receipts
  {
    hide Preflight, CacheMatrix;
  }

  lemma ManifestEffect(t: Tables, s: Store)
    requires Safe(t) && StoreOk(s, t) && s.at.Publishing? && s.at.todo == []
    ensures var f, after := s.at.f, Perform(t, s, Continue);
            var id := FixtureIdOf(f.doc);
            && after.0 == t.(fixtures := Inserted(t.fixtures, id, f.doc)) && after.1.at == Idle
            && (id in after.1.mem.fixtures && after.1.mem.fixtures[id].doc == f.doc <==>
                Accepted(t.fixtures, id, f.doc))
            && after.1.mem.matrices == s.mem.matrices
  {
    hide Safe, Preflight, FixtureJoined, Constructible, FixtureIdOf, ProgressOk, CacheMatrix;
    if Accepted(t.fixtures, FixtureIdOf(s.at.f.doc), s.at.f.doc) { PublishedIsStored(t, s); }
  }

  lemma ReceiptBeginEffect(t: Tables, s: Store, r: Receipt)
    requires s.at == Idle
    ensures var after := Perform(t, s, BeginReceipt(r));
            && after.0 == t
            && (after.1.at == Witnessing(r) || after.1.at == Idle)
            && (Receivable(t, s, r) <==>
                after.1.at == Witnessing(r) && Accepted(t.receipts, ReceiptIdOf(r), ReceiptDocOf(r)))
  {
    hide CacheMatrix, FixtureIdOf, ReceiptIdOf, ReceiptDocOf, IdOf;
    assert CacheMatrix(t, s.mem, IdOf(r.matrix)).fixtures == s.mem.fixtures by {
      CacheMatrixFixtures(t, s.mem, IdOf(r.matrix));
    }
  }

  lemma CacheMatrixFixtures(t: Tables, mem: Memory, id: MatrixId)
    ensures CacheMatrix(t, mem, id).fixtures == mem.fixtures && CacheMatrix(t, mem, id).calls == mem.calls
    ensures id in t.matrices ==> id in CacheMatrix(t, mem, id).matrices
  {
  }

  lemma ReceiptEffect(t: Tables, s: Store)
    requires s.at.Witnessing? && StoreOk(s, t)
    ensures CallsBackend(s, Continue)
    ensures var r, after := s.at.r, Perform(t, s, Continue);
            && after.0 == t.(receipts := Inserted(t.receipts, ReceiptIdOf(r), ReceiptDocOf(r))) && after.1.at == Idle
            && (ReceiptIdOf(r) in after.1.mem.receipts
                && ReceiptDocOf(after.1.mem.receipts[ReceiptIdOf(r)]) == ReceiptDocOf(r)
                <==> Accepted(t.receipts, ReceiptIdOf(r), ReceiptDocOf(r)))
  {
    hide ReceiptIdOf, ReceiptDocOf, ProgressOk, Within, DocsWithin;
  }

  class StoreObject {
    const fault: Option<Fault>
    var tables: Tables
    var store: Store
    /** Calls made to the backend so far. */
    var calls: nat

    constructor (tables: Tables, store: Store, fault: Option<Fault>)
      requires Safe(tables) && StoreOk(store, tables) && store.at == Idle
      ensures Valid() && this.fault == fault && this.tables == tables && this.store == store && calls == 0
    {
      this.fault, this.tables, this.store, calls := fault, tables, store, 0;
    }

    ghost predicate Valid()
      reads this
    {
      Safe(tables) && StoreOk(store, tables) && store.at == Idle
    }

    /** One store step, which raises when it calls the backend and the fault strikes that call. */
    method Do(op: Op) returns (raised: bool)
      requires Safe(tables) && StoreOk(store, tables) && Allowed(store, op)
      modifies this
      ensures Safe(tables) && StoreOk(store, tables) && TablesGrow(old(tables), tables)
              && calls == old(calls) + Cost(old(store), op)
      ensures raised <==> Strikes(fault, old(calls), old(calls) + Cost(old(store), op))
      ensures !raised ==> (tables, store) == Perform(old(tables), old(store), op)
      ensures raised ==> store == Store(old(store).mem, Idle)
      ensures raised ==> tables == if fault.value.written then Perform(old(tables), old(store), op).0 else old(tables)
    {
      hide Safe, StoreOk, Perform, TablesGrow, Allowed;
      PerformKept(tables, store, op);
      GrowSelf(tables);
      var after := Perform(tables, store, op);
      var cost := Cost(store, op);
      raised := fault.Some? && cost == 1 && fault.value.call == calls;
      if raised {
        IdleStore(store, tables);
        BystanderOk(Store(store.mem, Idle), tables, after.0);
        if fault.value.written { tables := after.0; }
        store := Store(store.mem, Idle);
      } else {
        tables, store := after.0, after.1;
      }
      calls := calls + cost;
    }

    /** The call rows of a publication, up to the first that is refused or hit by the fault. */
    method InsertRows(ghost f: Fixture, ghost rows: seq<Row>) returns (raised: bool)
      requires Safe(tables) && StoreOk(store, tables) && store.at.Publishing? && store.at.f == f
      requires store.at.todo == rows && NewRows(store.mem, rows)
      modifies this
      ensures Safe(tables) && StoreOk(store, tables) && TablesGrow(old(tables), tables)
      ensures raised <==> !RowsAccepted(old(tables), rows) || Strikes(fault, old(calls), old(calls) + |rows|)
      ensures !raised ==> store.at.Publishing? && store.at.f == f && store.at.todo == [] && calls == old(calls) + |rows|
      ensures raised ==> store.at == Idle
      ensures tables.fixtures == old(tables).fixtures && tables.receipts == old(tables).receipts
    {
      hide Safe, StoreOk, Perform, TablesGrow, Inserted, WithCall, Accepted, NewRows;
      GrowSelf(tables);
      ghost var done := 0;
      assert rows[0..] == rows;
      while store.at.todo != []
        invariant Safe(tables) && StoreOk(store, tables) && TablesGrow(old(tables), tables)
        invariant done <= |rows| && calls == old(calls) + done
        invariant store.at.Publishing? && store.at.f == f && store.at.todo == rows[done..]
        invariant NewRows(store.mem, rows[done..])
        invariant SameVerdicts(old(tables), tables, rows, done)
        invariant forall i :: 0 <= i < done ==> Accepted(old(tables).calls, rows[i].id, rows[i])
        invariant !Strikes(fault, old(calls), calls)
        invariant tables.fixtures == old(tables).fixtures && tables.receipts == old(tables).receipts
        decreases |rows| - done
      {
        ghost var t, s := tables, store;
        NextIsNew(s.mem, rows, done);
        RowEffect(t, s);
        RowFaultEffect(t, s);
        raised := Do(Continue);
        GrowsThrough(old(tables), t, tables);
        if raised { return; }
        NextVerdict(old(tables), t, rows, done);
        if store.at == Idle { return true; }
        RowDone(t, s, rows, done);
        done := done + 1;
      }
      raised := false;
    }

    /** Preflight, call rows, manifest. Whether it raises, and whether the manifest reaches the
        table, is decided by the state before it and by where the fault strikes. */
    method PublishFixture(f: Fixture) returns (raised: bool)
      requires Valid() && Constructible(f)
      modifies this
      ensures Valid() && TablesGrow(old(tables), tables) && tables.receipts == old(tables).receipts
      ensures var m := old(calls) + ManifestCall(old(tables), old(store), f);
              && (raised <==> !Publishable(old(tables), old(store), f) || Strikes(fault, old(calls), m + 1))
              && (!raised ==> calls == m + 1)
              && tables.fixtures ==
                 (if RowsPublishable(old(tables), old(store), f) && !Strikes(fault, old(calls), m)
                     && (Strikes(fault, m, m + 1) ==> fault.value.written)
                  then Inserted(old(tables).fixtures, FixtureIdOf(f.doc), f.doc) else old(tables).fixtures)
      ensures !raised ==> var id := FixtureIdOf(f.doc);
                id in store.mem.fixtures && store.mem.fixtures[id].doc == f.doc && f.doc.matrixId in store.mem.matrices
    {
      hide Safe, StoreOk, Perform, TablesGrow, Inserted, Accepted, Preflight, RowsAccepted, Begun, FixtureIdOf,
        CacheMatrix, Constructible;
      ghost var t0, s0 := tables, store;
      BeginEffect(t0, s0, f);
      raised := Do(BeginFixture(f));
      if raised { return; }
      PreflightNeedsMatrix(t0, s0, f);
      if store.at == Idle { return true; }
      TodoIsNew(t0, s0, f);
      ghost var t1 := tables;
      raised := InsertRows(f, Todo(t0, s0, f));
      GrowsThrough(t0, t1, tables);
      if raised { return; }
      ghost var t2, s2 := tables, store;
      ManifestEffect(t2, s2);
      FixtureNeedsMatrix(t2, s2);
      raised := Do(Continue);
      GrowsThrough(t0, t2, tables);
      if raised { return; }
      var id := FixtureIdOf(f.doc);
      raised := !(id in store.mem.fixtures && store.mem.fixtures[id].doc == f.doc);
    }

    /** The joins, then the receipt row. */
    method PublishReceipt(r: Receipt) returns (raised: bool)
      requires Valid() && ReceiptConstructible(r)
      modifies this
      ensures Valid() && TablesGrow(old(tables), tables) && tables.fixtures == old(tables).fixtures
      ensures raised <==>
              !Receivable(old(tables), old(store), r)
                || Strikes(fault, old(calls), old(calls) + Cost(old(store), BeginReceipt(r)) + 1)
      ensures !raised ==> ReceiptIdOf(r) in tables.receipts && tables.receipts[ReceiptIdOf(r)] == ReceiptDocOf(r)
    {
      hide Safe, StoreOk, Perform, TablesGrow, Receivable, ReceiptIdOf, ReceiptDocOf, ReceiptConstructible;
      ghost var t0 := tables;
      ReceiptBeginEffect(tables, store, r);
      raised := Do(BeginReceipt(r));
      if raised { return; }
      if store.at == Idle { return true; }
      ReceiptEffect(tables, store);
      ghost var t1 := tables;
      raised := Do(Continue);
      GrowsThrough(t0, t1, tables);
      if raised { return; }
      raised := !(ReceiptIdOf(r) in store.mem.receipts
                  && ReceiptDocOf(store.mem.receipts[ReceiptIdOf(r)]) == ReceiptDocOf(r));
    }
  }

  lemma IdleStore(s: Store, t: Tables)
    requires StoreOk(s, t)
    ensures StoreOk(Store(s.mem, Idle), t)
  {
    hide CacheOk;
  }

  lemma GrowsThrough(a: Tables, b: Tables, c: Tables)
    requires TablesGrow(a, b) && TablesGrow(b, c)
    ensures TablesGrow(a, c)
  {
    TablesGrowTransitive(a, b, c);
  }

  lemma PreflightNeedsMatrix(t: Tables, s: Store, f: Fixture)
    ensures Preflight(Begun(t, s, f), f).Ok? ==> f.doc.matrixId in Begun(t, s, f).matrices
  {
    hide Screen, CacheMatrix;
  }

  lemma FixtureNeedsMatrix(t: Tables, s: Store)
    requires StoreOk(s, t) && s.at.Publishing?
    ensures s.at.f.doc.matrixId in s.mem.matrices
  {
    hide CacheOk, Constructible, ContentHash, RequestedIds, Only, ExpectedDeclaration;
  }

  /** The rows from n on are refused now exactly when they were refused before. */
  ghost predicate SameVerdicts(was: Tables, now: Tables, rows: seq<Row>, n: nat) {
    forall i :: n <= i < |rows| ==>
        (Accepted(now.calls, rows[i].id, rows[i]) <==> Accepted(was.calls, rows[i].id, rows[i]))
  }

  lemma NextIsNew(mem: Memory, rows: seq<Row>, n: nat)
    requires n < |rows| && NewRows(mem, rows[n..])
    ensures rows[n..] != [] && rows[n..][0] == rows[n] && rows[n].id !in mem.calls
  {
    assert rows[n..][0].id !in mem.calls;
  }

  lemma NextVerdict(was: Tables, now: Tables, rows: seq<Row>, n: nat)
    requires n < |rows| && SameVerdicts(was, now, rows, n)
    ensures Accepted(now.calls, rows[n].id, rows[n]) <==> Accepted(was.calls, rows[n].id, rows[n])
    ensures RowsAccepted(was, rows) ==> Accepted(was.calls, rows[n].id, rows[n])
  {
    hide Accepted;
  }

  lemma RowDone(t: Tables, s: Store, rows: seq<Row>, n: nat)
    requires n < |rows| && NewRows(s.mem, rows[n..])
    ensures NewRows(WithCall(s.mem, rows[n]), rows[n + 1..])
    ensures SameVerdicts(t, t.(calls := Inserted(t.calls, rows[n].id, rows[n])), rows, n + 1)
    ensures rows[n..][1..] == rows[n + 1..]
  {
    forall i | n < i < |rows| ensures rows[i].id != rows[n].id && rows[i].id !in s.mem.calls {
      assert rows[n..][0] == rows[n] && rows[n..][i - n] == rows[i];
    }
    var rest := rows[n + 1..];
    forall i, j | 0 <= i < j < |rest| ensures rest[i].id != rest[j].id {
      assert rest[i] == rows[n..][i + 1] && rest[j] == rows[n..][j + 1];
    }
  }
}

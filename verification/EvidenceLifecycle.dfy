/** The single finalization boundary of a backtest run: succeed, abort, and the hook around a
    forced exit, over the durable replay store. */
module EvidenceLifecycle {
  import opened FaultyStore
  import opened Options
  import opened ReplayDurable
  import opened ReplayModel
  import opened ReplayStore

  datatype Mode = Off | Record | Replay

  datatype Terminal = Success(eligible: bool) | Aborted(reason: string)

  /** What the executed run hands to `succeed`: the occurrences the evidence session observed, or
      None when its own finalization raises; the parts of the receipt; and whether the executed
      hashes are the preregistered ones. */
  datatype Executed = Executed(observed: Option<seq<Text>>, audit: Text, treeHash: Text, hashesMatch: bool,
                               eligible: bool)

  /** The receipt of a run is refused by its own checks, before anything is published. */
  predicate ReceiptValid(executed: Executed, r: Receipt) {
    executed.hashesMatch && ReceiptConstructible(r)
  }

  /** The manifest is in the table and the receipt is not acknowledged: the backend fails at the
      manifest's insert, its write done, or at the receipt's, the only call after it. */
  predicate StrikesAfterManifest(fault: Option<Fault>, manifest: nat) {
    Strikes(fault, manifest + 1, manifest + 2) || (Strikes(fault, manifest, manifest + 1) && fault.value.written)
  }

  /** One evidence run with its durable store object; recording, it owns a build, replaying, the
      verified fixture it was given. */
  class EvidenceRunLifecycle {
    const mode: Mode
    const matrix: Matrix
    const arm: Text
    const build: FixtureBuild
    const replayed: Fixture
    const store: StoreObject
    var terminal: Option<Terminal>
    var sessionActive: bool

    /** A run that has begun: the arm is one of the matrix's, and a replayed fixture is a verified
        one of that matrix. */
    constructor (mode: Mode, matrix: Matrix, arm: Text, build: FixtureBuild, replayed: Fixture, store: StoreObject)
      requires build.Valid() && build.matrix == matrix && arm in matrix.arms && store.Valid()
      requires Constructible(replayed) && replayed.doc.matrixId == IdOf(matrix) && arm in replayed.doc.requests
      ensures Valid() && terminal == None
      ensures this.mode == mode && this.matrix == matrix && this.arm == arm
      ensures this.build == build && this.replayed == replayed && this.store == store
    {
      this.mode, this.matrix, this.arm, this.build, this.replayed, this.store := mode, matrix, arm, build, replayed,
        store;
      terminal, sessionActive := None, mode != Off;
    }

    ghost predicate Valid()
      reads this, build, store
    {
      && build.Valid() && build.matrix == matrix && arm in matrix.arms && store.Valid()
      && Constructible(replayed) && replayed.doc.matrixId == IdOf(matrix) && arm in replayed.doc.requests
    }

    ghost function Manifest(f: Fixture): nat
      reads store
    {
      store.calls + ManifestCall(store.tables, store.store, f)
    }

    /** Adopt what the session observed and seal, or take the replayed fixture. */
    method Fixed(observed: seq<Text>) returns (fixture: Option<Fixture>)
      requires Valid()
      modifies build
      ensures Valid()
      ensures fixture.None? <==>
              mode == Record && (old(build.sealedAs).Ok? || exists id :: id in observed && id !in old(build.ledger))
      ensures fixture.Some? ==> Constructible(fixture.value) && fixture.value.doc.matrixId == IdOf(matrix)
                                && arm in fixture.value.doc.requests
      ensures fixture.Some? && mode == Record ==> build.sealedAs == Ok(fixture.value)
      ensures mode != Record ==> fixture == Some(replayed)
    {
      hide Constructible, FromDoc;
      if mode != Record { return Some(replayed); }
      var ok := build.AdoptSessionOccurrences(arm, observed);
      if !ok { return None; }
      var sealed := build.Seal();
      fixture := Some(sealed);
    }

    /** The fixture, when this run recorded it, then the receipt. */
    method Publish(f: Fixture, r: Receipt) returns (raised: bool)
      requires Valid() && Constructible(f) && ReceiptConstructible(r) && r.fixture == f && r.matrix == matrix
      requires f.doc.matrixId == IdOf(matrix)
      modifies store
      ensures Valid() && TablesGrow(old(store.tables), store.tables)
      ensures raised && store.tables.fixtures != old(store.tables).fixtures
              <==> mode == Record && Publishable(old(store.tables), old(store.store), f)
                   && FixtureIdOf(f.doc) !in old(store.tables).fixtures
                   && StrikesAfterManifest(store.fault, old(Manifest(f)))
      ensures !raised ==>
                ReceiptIdOf(r) in store.tables.receipts && store.tables.receipts[ReceiptIdOf(r)] == ReceiptDocOf(r)
      ensures !raised && mode == Record ==> FixtureIdOf(f.doc) in store.tables.fixtures
    {
      hide Safe, StoreOk, TablesGrow, Constructible, Publishable, RowsPublishable, ManifestCall, Receivable,
        FixtureIdOf, ReceiptIdOf, ReceiptDocOf, Inserted, ReceiptConstructible;
      GrowSelf(store.tables);
      ghost var before, cache := store.tables, store.store;
      if mode == Record {
        raised := store.PublishFixture(f);
        ManifestAdds(before, cache, f);
        if raised { return; }
        NewFixtureIsReceivable(before, store.tables, store.store, r);
      }
      ghost var published := store.tables;
      raised := store.PublishReceipt(r);
      GrowsThrough(before, published, store.tables);
      if raised { return; }
      StillStored(published, store.tables, FixtureIdOf(f.doc));
    }

    /** Seal, validate the receipt, publish, finalize. A failed finalization leaves a fixture behind
        that was not in the backend before exactly when the checks pass, the address is new, and
        the backend fails at the manifest's insert after its write, or at the receipt's insert. */
    method Succeed(executed: Executed) returns (raised: bool, fixture: Option<Fixture>)
      requires Valid()
      modifies this, build, store
      ensures Valid() && TablesGrow(old(store.tables), store.tables)
      ensures mode == Off ==> !raised && terminal == old(terminal) && store.tables == old(store.tables)
      ensures old(terminal).Some? ==>
                terminal == old(terminal) && store.tables == old(store.tables) && (mode != Off ==> raised)
      ensures old(terminal) == None && mode != Off ==>
                && (raised <==> terminal == None)
                && (!raised ==> terminal == Some(Success(executed.eligible)) && !sessionActive)
      ensures fixture.Some? <==>
              && mode != Off && old(terminal) == None && executed.observed.Some?
              && !(mode == Record
                   && (old(build.sealedAs).Ok?
                       || exists id :: id in executed.observed.value && id !in old(build.ledger)))
      ensures mode == Record && old(build.sealedAs).Ok? ==> raised && store.tables == old(store.tables)
      ensures raised && store.tables.fixtures != old(store.tables).fixtures
              <==> mode == Record && old(terminal) == None && fixture.Some?
                   && ReceiptValid(executed, Receipt(matrix, arm, fixture.value, executed.audit, executed.treeHash))
                   && Publishable(old(store.tables), old(store.store), fixture.value)
                   && FixtureIdOf(fixture.value.doc) !in old(store.tables).fixtures
                   && StrikesAfterManifest(store.fault, old(Manifest(fixture.value)))
      ensures !raised && mode == Record && fixture.Some? ==>
                var r := Receipt(matrix, arm, fixture.value, executed.audit, executed.treeHash);
                && FixtureIdOf(fixture.value.doc) in store.tables.fixtures
                && ReceiptIdOf(r) in store.tables.receipts && store.tables.receipts[ReceiptIdOf(r)] == ReceiptDocOf(r)
    {
      hide Safe, StoreOk, TablesGrow, Constructible, Publishable, RowsPublishable, ManifestCall, Receivable,
        FixtureIdOf, ReceiptIdOf, ReceiptDocOf, Inserted;
      raised, fixture := true, None;
      GrowSelf(store.tables);
      if mode == Off { return false, None; }
      if terminal.Some? || executed.observed.None? { return; }
      fixture := Fixed(executed.observed.value);
      if fixture.None? { return; }
      var r := Receipt(matrix, arm, fixture.value, executed.audit, executed.treeHash);
      if !ReceiptValid(executed, r) { return; }
      raised := Publish(fixture.value, r);
      if raised { return; }
      terminal, sessionActive := Some(Success(executed.eligible)), false;
    }

    /** Record an ineligible outcome. Never raises, never writes; a second call changes nothing. */
    method Abort(reason: string) returns (outcome: Terminal)
      requires Valid()
      modifies this
      ensures Valid() && terminal == Some(outcome)
      ensures old(terminal).Some? ==> outcome == old(terminal).value && sessionActive == old(sessionActive)
      ensures old(terminal) == None ==>
                outcome == Aborted(reason) && sessionActive == (old(sessionActive) && mode == Off)
    {
      if terminal.Some? { return terminal.value; }
      outcome := Aborted(reason);
      terminal := Some(outcome);
      if mode == Off { return; }
      sessionActive := false;
    }

    /** The wrapped exit: whatever happened before, the run is finalized when the process dies. */
    method GuardedExit()
      requires Valid()
      modifies this
      ensures Valid() && terminal.Some?
      ensures old(terminal).Some? ==> terminal == old(terminal)
      ensures old(terminal) == None ==> terminal == Some(Aborted("forced_exit"))
    {
      var _ := Abort("forced_exit");
    }
  }

  // ---- whole runs ----

  datatype Call =
    | SucceedCall(executed: Executed)
    | AbortCall(reason: string)
    | ExitCall
    | PitCall(entry: Pit)
    | RowCall(row: Row)

  /** What there is to see of a run after each call: its terminal, and the backend. */
  datatype Seen = Seen(terminal: Option<Terminal>, tables: Tables)

  /** Once there is a terminal, neither it nor the backend changes any more. */
  ghost predicate OnceTerminal(history: seq<Seen>) {
    forall i, j :: 0 <= i <= j < |history| && history[i].terminal.Some? ==> history[j] == history[i]
  }

  /** Any sequence of calls on one run, whatever raises. */
  method RunCalls(run: EvidenceRunLifecycle, calls: seq<Call>) returns (history: seq<Seen>)
    requires run.Valid()
    modifies run, run.build, run.store
    ensures run.Valid() && |history| == |calls| + 1 && OnceTerminal(history)
    ensures history[0] == old(Seen(run.terminal, run.store.tables))
    ensures history[|calls|] == Seen(run.terminal, run.store.tables)
    ensures forall i :: 0 <= i < |calls| && (calls[i].AbortCall? || calls[i].ExitCall?) ==>
              history[i + 1].terminal.Some?
    ensures run.mode == Off ==> forall i :: 0 <= i <= |calls| ==> history[i].tables == history[0].tables
  {
    hide TablesGrow, Publishable, ReceiptValid, FixtureIdOf;
    history := [Seen(run.terminal, run.store.tables)];
    for i := 0 to |calls|
      invariant run.Valid() && |history| == i + 1 && OnceTerminal(history)
      invariant history[0] == old(Seen(run.terminal, run.store.tables))
      invariant history[i] == Seen(run.terminal, run.store.tables)
      invariant forall k :: 0 <= k < i && (calls[k].AbortCall? || calls[k].ExitCall?) ==> history[k + 1].terminal.Some?
      invariant run.mode == Off ==> forall k :: 0 <= k <= i ==> history[k].tables == history[0].tables
    {
      OneCall(run, calls[i]);
      var seen := Seen(run.terminal, run.store.tables);
      history := history + [seen];
    }
  }

  method OneCall(run: EvidenceRunLifecycle, call: Call)
    requires run.Valid()
    modifies run, run.build, run.store
    ensures run.Valid()
    ensures old(run.terminal).Some? ==> run.terminal == old(run.terminal) && run.store.tables == old(run.store.tables)
    ensures call.AbortCall? || call.ExitCall? ==> run.terminal.Some?
    ensures run.mode == Off ==> run.store.tables == old(run.store.tables)
  {
    hide TablesGrow, Publishable, ReceiptValid, FixtureIdOf, Safe, StoreOk, Constructible;
    match call
    case SucceedCall(executed) => var _, _ := run.Succeed(executed);
    case AbortCall(reason) => var _ := run.Abort(reason);
    case ExitCall => run.GuardedExit();
    case PitCall(entry) => if run.mode == Record { var _ := run.build.RecordPit(entry); }
    case RowCall(row) => if run.mode == Record { var _ := run.build.RecordModelRow(run.arm, row); }
  }

  /** A finalization and, when it fails, the abort: an ineligible run leaves a fixture behind that was
      not in the backend before exactly under the condition of `Succeed`. Without a fault of the
      backend it never does. */
  method FinalizeOrAbort(run: EvidenceRunLifecycle, executed: Executed) returns (fixture: Option<Fixture>)
    requires run.Valid() && run.terminal == None && run.mode != Off
    modifies run, run.build, run.store
    ensures run.Valid() && run.terminal in {Some(Success(executed.eligible)), Some(Aborted("failed"))}
    ensures run.terminal == Some(Aborted("failed")) && run.store.tables.fixtures != old(run.store.tables).fixtures
            <==> run.mode == Record && fixture.Some?
                 && ReceiptValid(executed,
                                 Receipt(run.matrix, run.arm, fixture.value, executed.audit, executed.treeHash))
                 && Publishable(old(run.store.tables), old(run.store.store), fixture.value)
                 && FixtureIdOf(fixture.value.doc) !in old(run.store.tables).fixtures
                 && StrikesAfterManifest(run.store.fault, old(run.Manifest(fixture.value)))
    ensures run.store.fault == None && run.terminal == Some(Aborted("failed")) ==>
              run.store.tables.fixtures == old(run.store.tables).fixtures
  {
    hide TablesGrow, Publishable, ReceiptValid, FixtureIdOf, Safe, StoreOk, Constructible, ManifestCall;
    var raised;
    raised, fixture := run.Succeed(executed);
    if raised { var _ := run.Abort("failed"); }
  }

  /** The manifest row is new exactly when its address is. */
  lemma ManifestAdds(t: Tables, s: Store, f: Fixture)
    ensures Inserted(t.fixtures, FixtureIdOf(f.doc), f.doc) != t.fixtures <==> FixtureIdOf(f.doc) !in t.fixtures
    ensures FixtureIdOf(f.doc) !in t.fixtures ==> (Publishable(t, s, f) <==> RowsPublishable(t, s, f))
    ensures FixtureIdOf(f.doc) in Inserted(t.fixtures, FixtureIdOf(f.doc), f.doc)
  {
    hide RowsPublishable, FixtureIdOf;
    if FixtureIdOf(f.doc) !in t.fixtures {
      assert FixtureIdOf(f.doc) in Inserted(t.fixtures, FixtureIdOf(f.doc), f.doc);
    }
  }

  /** No receipt row can name a fixture that was not there, so a receipt for a new fixture meets no
      divergence. */
  lemma NewFixtureIsReceivable(before: Tables, t: Tables, s: Store, r: Receipt)
    requires Safe(before) && t.receipts == before.receipts
    requires FixtureIdOf(r.fixture.doc) in s.mem.fixtures && IdOf(r.matrix) in s.mem.matrices
    ensures FixtureIdOf(r.fixture.doc) !in before.fixtures ==> Receivable(t, s, r)
  {
    hide FixtureIdOf, FixtureJoined, Constructible, MatricesKeyed;
  }

  lemma StillStored(t: Tables, later: Tables, id: FixtureId)
    requires later.fixtures == t.fixtures
    ensures id in t.fixtures <==> id in later.fixtures
  {
  }
}

/** The signed execution snapshot a backtest is queued with: making the envelope, and verifying it
    after a store that may turn whole numbers into floats and back. */
module ExecutionSnapshot {
  import opened JsonTree
  import opened KeyOrder
  import opened Options

  const SNAPSHOT: Limits := Limits(50_000, 512 * 1024, 100, 256 * 1024, 128, true, Some(10_000))

  const MODE: Key := Text("execution_snapshot_mode")
  const BODY: Key := Text("execution_snapshot")
  const DIGEST: Key := Text("execution_snapshot_sha256")
  const SIGNATURE: Key := Text("execution_snapshot_hmac_sha256")
  const SIGNER: Key := Text("execution_snapshot_signer")
  const SCHEMA_VERSION: Key := Text("schema_version")
  const CORE: Key := Text("core")
  const BACKTEST_ID: Key := Text("backtest_id")
  const CREATED_AT: Key := Text("created_at")

  const EXECUTE: Json := Str(Text("execute"))
  const HMAC_V1: Json := Str(Text("queue-snapshot-hmac-v1"))
  const SCHEMA_V1: Json := Str(Text("queue-execution-snapshot-v1"))

  const NAMES: set<Key> := {MODE, BODY, DIGEST, SIGNATURE, SIGNER}

  /** The checks taken as given: the schema, size and secret checks on a normalised snapshot, and
      the timestamp format. */
  datatype Checks = Checks(approved: Json -> bool, stamp: Key -> bool)

  /** The public snapshot: its shape is checked as it is held, the rest on its normal form. */
  function Project(checks: Checks, value: Json): Option<Json> {
    if !value.Obj? || value.fields.Keys != {SCHEMA_VERSION, CORE} then None
    else if value.fields[SCHEMA_VERSION] != SCHEMA_V1 || !Accepted(SNAPSHOT, value) then None
    else
      var normal := Normal(value);
      if !normal.fields[CORE].Obj? || !checks.approved(normal) then None else Some(normal)
  }

  function Wrap(core: Json): Json {
    Obj(map[SCHEMA_VERSION := SCHEMA_V1, CORE := core])
  }

  /** The backtest's number, however it is held. */
  function IdOf(id: Json): Option<int> {
    var n := if id.Int? then id.n else if id.Flt? && Whole(id.x) then id.x.Floor else 0;
    if 1 <= n <= SAFE_INTEGER_MAX then Some(n) else None
  }

  function CreatedOf(checks: Checks, created: Json): Option<Key> {
    if created.Str? && checks.stamp(created.s) then Some(created.s) else None
  }

  predicate KeyUsable(key: Key) {
    32 <= |key| <= 4096
  }

  const BLOCK: nat := 64

  function BlockOf(key: Key): KeyBlock {
    if |key| <= BLOCK then Padded(key + seq(BLOCK - |key|, _ => 0)) else Hashed(key)
  }

  predicate Zeros(bytes: Key) {
    forall i :: 0 <= i < |bytes| ==> bytes[i] == 0
  }

  /** Keys that sign alike: equal, or short ones that differ only in zeros at the end. */
  predicate SameKey(a: Key, b: Key) {
    || a == b
    || (|a| <= |b| <= BLOCK && a <= b && Zeros(b[|a|..]))
    || (|b| <= |a| <= BLOCK && b <= a && Zeros(a[|b|..]))
  }

  lemma BlocksAgree(a: Key, b: Key)
    ensures BlockOf(a) == BlockOf(b) <==> SameKey(a, b)
  {
    if |a| <= BLOCK && |b| <= BLOCK {
      if |a| <= |b| { PaddingAgrees(a, b); } else { PaddingAgrees(b, a); }
    }
  }

  lemma PaddingAgrees(a: Key, b: Key)
    requires |a| <= |b| <= BLOCK
    ensures BlockOf(a) == BlockOf(b) <==> a <= b && Zeros(b[|a|..])
  {
    var pa, pb := a + seq(BLOCK - |a|, _ => 0), b + seq(BLOCK - |b|, _ => 0);
    if pa == pb {
      forall i | 0 <= i < |a| ensures a[i] == b[i] { assert pa[i] == pb[i]; }
      forall i | |a| <= i < |b| ensures b[i] == 0 { assert pa[i] == pb[i]; }
    }
  }

  function Payload(id: int, created: Key, snapshot: Json, digest: Json): Json {
    Obj(map[BACKTEST_ID := Int(id), CREATED_AT := Str(created), MODE := EXECUTE, SIGNER := HMAC_V1,
            DIGEST := digest, BODY := snapshot])
  }

  function Sign(id: int, created: Key, snapshot: Json, digest: Json, key: Key): Option<Json> {
    var payload := Payload(id, created, snapshot, digest);
    if KeyUsable(key) && Accepted(SNAPSHOT, payload) then Some(Mac(BlockOf(key), Normal(payload))) else None
  }

  function Envelope(snapshot: Json, digest: Json, signature: Json): map<Key, Json> {
    map[MODE := EXECUTE, BODY := snapshot, DIGEST := digest, SIGNATURE := signature, SIGNER := HMAC_V1]
  }

  /** The queue fields for a core, when everything about it is in order. */
  function Make(checks: Checks, id: Json, created: Json, core: Json, key: Key): Option<map<Key, Json>> {
    if IdOf(id).None? || CreatedOf(checks, created).None? || !KeyUsable(key) || !core.Obj? then None
    else
      var built := Project(checks, Wrap(core));
      if built.None? then None
      else
        var again := Project(checks, built.value);
        if again.None? then None
        else
          var signature := Sign(IdOf(id).value, CreatedOf(checks, created).value, built.value, Sha(again.value), key);
          if signature.None? then None
          else Some(Envelope(built.value, Sha(again.value), signature.value))
  }

  datatype Refusal =
    | QueueRowUnreadable | EngineBindingInvalid | ContractMissing | IdentityInvalid | SigningKeyUnavailable
    | PartialContract | SignerUnsupported | DigestInvalid | AttestationInvalid | SnapshotInvalid
    | StoredHashMismatch | EngineBindingMismatch | AttestationMismatch

  datatype Verdict = Refused(why: Refusal) | NoContract | Verified(snapshot: Json, digest: Json)

  /** Verification of a queue row, check by check, in order. */
  function Verify(checks: Checks, row: Json, id: Json, created: Json, key: Key, required: bool,
                  expected: Option<Json>): Verdict {
    if !row.Obj? then Refused(QueueRowUnreadable)
    else if expected.Some? && !expected.value.Sha? then Refused(EngineBindingInvalid)
    else if row.fields.Keys * NAMES == {} then
      if required || expected.Some? then Refused(ContractMissing) else NoContract
    else if IdOf(id).None? || CreatedOf(checks, created).None? then Refused(IdentityInvalid)
    else if !KeyUsable(key) then Refused(SigningKeyUnavailable)
    else if !(NAMES <= row.fields.Keys) || row.fields[MODE] != EXECUTE then Refused(PartialContract)
    else if row.fields[SIGNER] != HMAC_V1 then Refused(SignerUnsupported)
    else if !row.fields[DIGEST].Sha? then Refused(DigestInvalid)
    else if !row.fields[SIGNATURE].Mac? then Refused(AttestationInvalid)
    else
      var snapshot := Project(checks, row.fields[BODY]);
      if snapshot.None? then Refused(SnapshotInvalid)
      else if Sha(snapshot.value) != row.fields[DIGEST] then Refused(StoredHashMismatch)
      else if expected.Some? && expected.value != row.fields[DIGEST] then Refused(EngineBindingMismatch)
      else
        var signature :=
          Sign(IdOf(id).value, CreatedOf(checks, created).value, snapshot.value, row.fields[DIGEST], key);
        if signature != Some(row.fields[SIGNATURE]) then Refused(AttestationMismatch)
        else Verified(snapshot.value, row.fields[DIGEST])
  }

  // ---- normal snapshots ----

  lemma ProjectOfAlias(checks: Checks, a: Json, b: Json)
    requires Alias(a, b)
    ensures Project(checks, a) == Project(checks, b)
  {
    hide Accepted, Normal;
    NormalizedOfAlias(SNAPSHOT, a, b);
    AliasKind(a, b);
    if a.Obj? && SCHEMA_VERSION in a.fields {
      AliasKind(a.fields[SCHEMA_VERSION], b.fields[SCHEMA_VERSION]);
    }
  }

  lemma AliasKind(a: Json, b: Json)
    requires Alias(a, b)
    ensures a.Obj? == b.Obj?
    ensures a.Obj? ==> a.fields.Keys == b.fields.Keys && forall k :: k in a.fields ==> Alias(a.fields[k], b.fields[k])
    ensures a.Str? || b.Str? || a.Sha? || b.Sha? || a.Mac? || b.Mac? ==> a == b
    ensures IdOf(a) == IdOf(b)
  {
  }

  lemma ProjectTwice(checks: Checks, value: Json)
    requires Project(checks, value).Some?
    ensures Project(checks, Project(checks, value).value) == Project(checks, value)
    ensures Normal(Project(checks, value).value) == Project(checks, value).value
  {
    hide Accepted, Normal;
    NormalKind(value);
    NormalKind(value.fields[SCHEMA_VERSION]);
    NormalTwice(value);
    NormalizedTwice(SNAPSHOT, value);
  }

  lemma SelfAlias(v: Json)
    ensures Alias(v, v) && Alias(v, Normal(v)) && Alias(Normal(v), v)
  {
    hide Normal, Alias;
    NormalTwice(v);
    NormalIffAlias(v, v);
    NormalIffAlias(v, Normal(v));
    NormalIffAlias(Normal(v), v);
  }

  /** The core of a projected snapshot projects back to it. */
  lemma RewrapProjects(checks: Checks, value: Json)
    requires Project(checks, value).Some?
    ensures var snapshot := Project(checks, value).value;
            snapshot.Obj? && CORE in snapshot.fields && snapshot.fields[CORE].Obj?
            && Wrap(snapshot.fields[CORE]) == snapshot && Project(checks, Wrap(snapshot.fields[CORE])) == Some(snapshot)
  {
    hide Accepted, Normal, Text;
    NormalKind(value);
    NormalKind(value.fields[SCHEMA_VERSION]);
    ProjectTwice(checks, value);
    var snapshot := Project(checks, value).value;
    assert snapshot.fields.Keys == {SCHEMA_VERSION, CORE};
    assert snapshot.fields[SCHEMA_VERSION] == SCHEMA_V1;
    VersionIsNotCore();
    assert Wrap(snapshot.fields[CORE]).fields == snapshot.fields;
  }

  lemma VersionIsNotCore()
    ensures SCHEMA_VERSION != CORE
  {
    assert |SCHEMA_VERSION| == 14 && |CORE| == 4;
  }

  // ---- the round trip ----

  /** The five fields of a stored row are those of the envelope, up to how whole numbers are held. */
  predicate Stored(envelope: map<Key, Json>, row: Json) {
    row.Obj? && forall k :: k in NAMES ==> k in envelope && k in row.fields && Alias(envelope[k], row.fields[k])
  }

  lemma EnvelopeFields(snapshot: Json, digest: Json, signature: Json)
    ensures var e := Envelope(snapshot, digest, signature);
            && e.Keys == NAMES
            && e[MODE] == EXECUTE && e[BODY] == snapshot && e[DIGEST] == digest && e[SIGNATURE] == signature
            && e[SIGNER] == HMAC_V1
  {
    assert |MODE| == 23 && |BODY| == 18 && |DIGEST| == 25 && |SIGNATURE| == 30 && |SIGNER| == 25;
    assert DIGEST[20] == 'h' as int && SIGNER[20] == 'i' as int;
  }

  /** What the envelope of a made row is. */
  lemma MadeIs(checks: Checks, id: Json, created: Json, core: Json, key: Key)
    requires Make(checks, id, created, core, key).Some?
    ensures IdOf(id).Some? && CreatedOf(checks, created).Some? && KeyUsable(key) && core.Obj?
    ensures Project(checks, Wrap(core)).Some?
    ensures var snapshot := Project(checks, Wrap(core)).value;
            var signature := Sign(IdOf(id).value, CreatedOf(checks, created).value, snapshot, Sha(snapshot), key);
            signature.Some?
              && Make(checks, id, created, core, key).value == Envelope(snapshot, Sha(snapshot), signature.value)
            && signature.value.Mac?
  {
    hide Project, Accepted, Normal, Text, Payload;
    ProjectTwice(checks, Wrap(core));
  }

  /** Every envelope made verifies to the very snapshot it was made of, in any row that holds it
      and after any change in how whole numbers are held, in the row or in the backtest's number. */
  lemma MadeVerifies(checks: Checks, id: Json, created: Json, core: Json, key: Key, row: Json, storedId: Json,
                     required: bool,
                     expected: Option<Json>)
    requires Make(checks, id, created, core, key).Some?
    requires Stored(Make(checks, id, created, core, key).value, row) && Alias(id, storedId)
    requires expected == None || expected == Some(Make(checks, id, created, core, key).value[DIGEST])
    ensures Verify(checks, row, storedId, created, key, required, expected) ==
            Verified(Project(checks, Wrap(core)).value, Sha(Project(checks, Wrap(core)).value))
  {
    hide Project, Sign, Alias, Make, Text;
    MadeIs(checks, id, created, core, key);
    var snapshot := Project(checks, Wrap(core)).value;
    var signature := Sign(IdOf(id).value, CreatedOf(checks, created).value, snapshot, Sha(snapshot), key).value;
    EnvelopeFields(snapshot, Sha(snapshot), signature);
    AliasKind(id, storedId);
    var envelope := Envelope(snapshot, Sha(snapshot), signature);
    NamesStored(envelope, row);
    ProjectTwice(checks, Wrap(core));
    ProjectOfAlias(checks, snapshot, row.fields[BODY]);
    assert MODE in row.fields.Keys * NAMES;
  }

  lemma NamesStored(envelope: map<Key, Json>, row: Json)
    requires Stored(envelope, row)
    ensures NAMES <= envelope.Keys && NAMES <= row.fields.Keys
    ensures Alias(envelope[BODY], row.fields[BODY])
    ensures envelope[MODE].Str? ==> row.fields[MODE] == envelope[MODE]
    ensures envelope[SIGNER].Str? ==> row.fields[SIGNER] == envelope[SIGNER]
    ensures envelope[DIGEST].Sha? ==> row.fields[DIGEST] == envelope[DIGEST]
    ensures envelope[SIGNATURE].Mac? ==> row.fields[SIGNATURE] == envelope[SIGNATURE]
  {
    hide Alias, Text;
    AliasKind(envelope[MODE], row.fields[MODE]);
    AliasKind(envelope[SIGNER], row.fields[SIGNER]);
    AliasKind(envelope[DIGEST], row.fields[DIGEST]);
    AliasKind(envelope[SIGNATURE], row.fields[SIGNATURE]);
  }

  /** A row verifies exactly when making an envelope of its own core, for the same backtest and
      with the same key, gives its five fields, and the digest expected, if any, is the row's own:
      nothing else is ever accepted. */
  lemma VerifiesIffMade(checks: Checks, row: Json, id: Json, created: Json, key: Key, required: bool,
                        expected: Option<Json>)
    ensures Verify(checks, row, id, created, key, required, expected).Verified? <==>
            && row.Obj? && HoldsMade(checks, row, id, created, key)
            && (expected.Some? ==> DIGEST in row.fields && expected.value == row.fields[DIGEST])
  {
    hide Project, Sign, Alias, Text, Make, Stored;
    if Verify(checks, row, id, created, key, required, expected).Verified? {
      VerifiedWasMade(checks, row, id, created, key, required, expected);
      VerifiedMeans(checks, row, id, created, key, required, expected);
    }
    if row.Obj? && HoldsMade(checks, row, id, created, key)
       && (expected.Some? ==> DIGEST in row.fields && expected.value == row.fields[DIGEST]) {
      var core := CoreOf(Project(checks, row.fields[BODY]).value);
      SelfAlias(id);
      MadeDigest(checks, id, created, core, key, row);
      MadeVerifies(checks, id, created, core, key, row, id, required, expected);
    }
  }

  /** The row holds an envelope that making one of its own core gives. */
  predicate HoldsMade(checks: Checks, row: Json, id: Json, created: Json, key: Key)
    requires row.Obj?
  {
    && BODY in row.fields && Project(checks, row.fields[BODY]).Some?
    && var core := CoreOf(Project(checks, row.fields[BODY]).value);
       Make(checks, id, created, core, key).Some? && Stored(Make(checks, id, created, core, key).value, row)
  }

  lemma MadeDigest(checks: Checks, id: Json, created: Json, core: Json, key: Key, row: Json)
    requires Make(checks, id, created, core, key).Some? && Stored(Make(checks, id, created, core, key).value, row)
    ensures DIGEST in Make(checks, id, created, core, key).value && DIGEST in row.fields
    ensures row.fields[DIGEST] == Make(checks, id, created, core, key).value[DIGEST]
  {
    hide Project, Sign, Alias, Text, Make, Stored;
    MadeIs(checks, id, created, core, key);
    var snapshot := Project(checks, Wrap(core)).value;
    var signature := Sign(IdOf(id).value, CreatedOf(checks, created).value, snapshot, Sha(snapshot), key).value;
    EnvelopeFields(snapshot, Sha(snapshot), signature);
    NamesStored(Make(checks, id, created, core, key).value, row);
  }

  /** A row that is good by itself is refused for the engine's binding exactly when another digest is
      expected. */
  lemma BindingMismatch(checks: Checks, row: Json, id: Json, created: Json, key: Key, required: bool, expected: Json)
    requires expected.Sha? && Verify(checks, row, id, created, key, required, None).Verified?
    ensures row.Obj? && DIGEST in row.fields
    ensures var bound := Verify(checks, row, id, created, key, required, Some(expected));
            if expected == row.fields[DIGEST] then bound == Verify(checks, row, id, created, key, required, None)
            else bound == Refused(EngineBindingMismatch)
  {
    hide Project, Sign, Text;
    VerifiedMeans(checks, row, id, created, key, required, None);
  }

  /** A row is taken to carry no contract exactly when it is an object with none of the five fields
      and nothing asks for one; asked for, the contract is missing. */
  lemma NoContractMeans(checks: Checks, row: Json, id: Json, created: Json, key: Key, required: bool,
                        expected: Option<Json>)
    ensures var verdict := Verify(checks, row, id, created, key, required, expected);
            var bare := row.Obj? && forall name :: name in NAMES ==> name !in row.fields;
            && (verdict == NoContract <==> bare && !required && expected == None)
            && (verdict == Refused(ContractMissing) <==>
                bare && (expected.Some? ==> expected.value.Sha?) && (required || expected.Some?))
  {
    hide Project, Sign, Text;
    if row.Obj? { AnyName(row.fields); }
  }

  function CoreOf(snapshot: Json): Json {
    if snapshot.Obj? && CORE in snapshot.fields then snapshot.fields[CORE] else Null
  }

  lemma VerifiedWasMade(checks: Checks, row: Json, id: Json, created: Json, key: Key, required: bool,
                        expected: Option<Json>)
    requires Verify(checks, row, id, created, key, required, expected).Verified?
    ensures row.Obj? && HoldsMade(checks, row, id, created, key)
  {
    hide Project, Sign, Alias, Text, Make;
    VerifiedMeans(checks, row, id, created, key, required, expected);
    var snapshot := Project(checks, row.fields[BODY]).value;
    RewrapProjects(checks, row.fields[BODY]);
    ProjectTwice(checks, row.fields[BODY]);
    MakeOfProjected(checks, id, created, snapshot, key);
    EnvelopeFields(snapshot, Sha(snapshot), row.fields[SIGNATURE]);
    ProjectedIsAlias(checks, row.fields[BODY]);
    forall k | k in NAMES ensures Alias(Envelope(snapshot, Sha(snapshot), row.fields[SIGNATURE])[k], row.fields[k]) {
      SelfAlias(row.fields[k]);
    }
  }

  lemma ProjectedIsAlias(checks: Checks, value: Json)
    requires Project(checks, value).Some?
    ensures Alias(Project(checks, value).value, value)
  {
    hide Accepted, Normal, Alias;
    SelfAlias(value);
  }

  lemma VerifiedMeans(checks: Checks, row: Json, id: Json, created: Json, key: Key, required: bool,
                      expected: Option<Json>)
    requires Verify(checks, row, id, created, key, required, expected).Verified?
    ensures row.Obj? && NAMES <= row.fields.Keys
    ensures IdOf(id).Some? && CreatedOf(checks, created).Some? && KeyUsable(key)
    ensures row.fields[MODE] == EXECUTE && row.fields[SIGNER] == HMAC_V1 && Project(checks, row.fields[BODY]).Some?
    ensures row.fields[DIGEST] == Sha(Project(checks, row.fields[BODY]).value)
    ensures expected.Some? ==> expected.value == row.fields[DIGEST]
    ensures Sign(IdOf(id).value, CreatedOf(checks, created).value, Project(checks, row.fields[BODY]).value,
                 row.fields[DIGEST], key)
            == Some(row.fields[SIGNATURE])
    ensures Verify(checks, row, id, created, key, required, expected) ==
            Verified(Project(checks, row.fields[BODY]).value, row.fields[DIGEST])
  {
    hide Project, Sign, Text;
  }

  /** What a verified row gives: the normal form of its body, of the one schema version, approved and
      digested, for a usable backtest number and time and a key of a usable length. */
  lemma VerifiedIsSound(checks: Checks, row: Json, id: Json, created: Json, key: Key, required: bool,
                        expected: Option<Json>)
    requires Verify(checks, row, id, created, key, required, expected).Verified?
    ensures var verdict := Verify(checks, row, id, created, key, required, expected);
            && row.Obj? && BODY in row.fields && verdict.snapshot == Normal(row.fields[BODY])
            && verdict.digest == Sha(verdict.snapshot) && Accepted(SNAPSHOT, row.fields[BODY])
            && verdict.snapshot.Obj? && verdict.snapshot.fields.Keys == {SCHEMA_VERSION, CORE}
            && verdict.snapshot.fields[SCHEMA_VERSION] == SCHEMA_V1 && verdict.snapshot.fields[CORE].Obj?
            && checks.approved(verdict.snapshot)
            && created.Str? && checks.stamp(created.s) && 32 <= |key| <= 4096 && IdOf(id).Some?
  {
    hide Sign, Text, Accepted, Normal;
    VerifiedMeans(checks, row, id, created, key, required, expected);
    NormalKind(row.fields[BODY]);
    NormalKind(row.fields[BODY].fields[SCHEMA_VERSION]);
  }

  /** A public snapshot is accepted exactly when it is an object of the two fields with the one schema
      version, bounded strict JSON, around an object, and approved; it is then its normal form. */
  lemma ProjectExact(checks: Checks, value: Json)
    ensures Project(checks, value).Some? <==>
            && value.Obj? && (forall k :: k in value.fields <==> k == SCHEMA_VERSION || k == CORE)
            && value.fields[SCHEMA_VERSION] == SCHEMA_V1 && Accepted(SNAPSHOT, value)
            && Normal(value).fields[CORE].Obj? && checks.approved(Normal(value))
    ensures Project(checks, value).Some? ==> Project(checks, value).value == Normal(value)
  {
    hide Text, Accepted, Normal;
    if value.Obj? { NormalKind(value); }
  }

  /** An envelope is made exactly when number, time and key are usable, the core is an object whose
      snapshot is accepted, and the signed payload is within the bounds too. */
  lemma MakeExact(checks: Checks, id: Json, created: Json, core: Json, key: Key)
    ensures Make(checks, id, created, core, key).Some? <==>
            && IdOf(id).Some? && created.Str? && checks.stamp(created.s) && 32 <= |key| <= 4096
            && core.Obj? && Project(checks, Wrap(core)).Some?
            && var snapshot := Project(checks, Wrap(core)).value;
               Accepted(SNAPSHOT, Payload(IdOf(id).value, created.s, snapshot, Sha(snapshot)))
  {
    hide Project, Accepted, Normal, Text, Payload;
    if core.Obj? && Project(checks, Wrap(core)).Some? { ProjectTwice(checks, Wrap(core)); }
  }

  /** The first checks, in order: an object, a usable binding, any of the five fields, a usable number
      and time, a usable key, all five fields and the one mode. */
  lemma EarlyChecks(checks: Checks, row: Json, id: Json, created: Json, key: Key, required: bool,
                    expected: Option<Json>)
    ensures var verdict := Verify(checks, row, id, created, key, required, expected);
            && (!row.Obj? ==> verdict == Refused(QueueRowUnreadable))
            && (row.Obj? && expected.Some? && !expected.value.Sha? ==> verdict == Refused(EngineBindingInvalid))
            && (row.Obj? && (expected.Some? ==> expected.value.Sha?) && row.fields.Keys * NAMES != {} ==>
                  if IdOf(id).None? || CreatedOf(checks, created).None? then verdict == Refused(IdentityInvalid)
                  else if !KeyUsable(key) then verdict == Refused(SigningKeyUnavailable)
                  else if !(NAMES <= row.fields.Keys) then verdict == Refused(PartialContract)
                  else MODE in row.fields && row.fields[MODE] != EXECUTE ==> verdict == Refused(PartialContract))
  {
    hide Project, Sign, Text, IdOf, CreatedOf, KeyUsable, NAMES, MODE;
  }

  /** The first checks passed. */
  predicate Formed(checks: Checks, row: Json, id: Json, created: Json, key: Key, expected: Option<Json>) {
    && row.Obj? && NAMES <= row.fields.Keys && row.fields[MODE] == EXECUTE
    && (expected.Some? ==> expected.value.Sha?)
    && IdOf(id).Some? && CreatedOf(checks, created).Some? && KeyUsable(key)
  }

  /** Then a row is refused for what is wrong with it, one thing before the other. */
  lemma LateChecks(checks: Checks, row: Json, id: Json, created: Json, key: Key, required: bool,
                   expected: Option<Json>)
    requires Formed(checks, row, id, created, key, expected)
    ensures var verdict, signer := Verify(checks, row, id, created, key, required, expected), row.fields[SIGNER]
            == HMAC_V1;
            var typed := row.fields[DIGEST].Sha? && row.fields[SIGNATURE].Mac?;
            var snapshot := Project(checks, row.fields[BODY]);
            && (verdict == Refused(SignerUnsupported) <==> !signer)
            && (verdict == Refused(DigestInvalid) <==> signer && !row.fields[DIGEST].Sha?)
            && (verdict == Refused(AttestationInvalid) <==> signer && row.fields[DIGEST].Sha? && !typed)
            && (verdict == Refused(SnapshotInvalid) <==> signer && typed && snapshot.None?)
            && (verdict == Refused(StoredHashMismatch) <==>
                signer && typed && snapshot.Some? && row.fields[DIGEST] != Sha(snapshot.value))
  {
    hide Project, Sign, Text, IdOf, CreatedOf, KeyUsable;
    assert MODE in row.fields.Keys * NAMES;
  }

  lemma AnyName(fields: map<Key, Json>)
    ensures fields.Keys * NAMES == {} <==> forall name :: name in NAMES ==> name !in fields
    ensures NAMES <= fields.Keys <==> forall name :: name in NAMES ==> name in fields
  {
    hide Text;
    forall name | name in NAMES ensures name in fields <==> name in fields.Keys * NAMES { }
  }

  /** A backtest number is a whole one in range, held as an integer or as a float. */
  lemma IdMeans(id: Json, n: int)
    ensures IdOf(id) == Some(n) <==> 1 <= n <= SAFE_INTEGER_MAX && (id == Int(n) || id == Flt(n as real))
  {
  }

  lemma MakeOfProjected(checks: Checks, id: Json, created: Json, snapshot: Json, key: Key)
    requires IdOf(id).Some? && CreatedOf(checks, created).Some? && KeyUsable(key)
    requires snapshot.Obj? && CORE in snapshot.fields && snapshot.fields[CORE].Obj?
    requires Project(checks, Wrap(snapshot.fields[CORE])) == Some(snapshot)
             && Project(checks, snapshot) == Some(snapshot)
    requires Sign(IdOf(id).value, CreatedOf(checks, created).value, snapshot, Sha(snapshot), key).Some?
    ensures Make(checks, id, created, snapshot.fields[CORE], key) ==
            Some(Envelope(snapshot, Sha(snapshot),
                          Sign(IdOf(id).value, CreatedOf(checks, created).value, snapshot, Sha(snapshot), key).value))
  {
    hide Project, Sign, Text;
  }

  /** One signature, one attestation: rows that verify with the same signature are for the same
      backtest and creation time, under keys that sign alike, and hold the same snapshot. */
  lemma SignatureBinds(checks: Checks, a: Json, idA: Json, createdA: Json, keyA: Key, b: Json, idB: Json,
                       createdB: Json, keyB: Key)
    requires a.Obj? && b.Obj?
    requires Verify(checks, a, idA, createdA, keyA, true, None).Verified?
    requires Verify(checks, b, idB, createdB, keyB, true, None).Verified?
    requires SIGNATURE in a.fields && SIGNATURE in b.fields && a.fields[SIGNATURE] == b.fields[SIGNATURE]
    ensures IdOf(idA) == IdOf(idB) && createdA == createdB && SameKey(keyA, keyB)
    ensures Verify(checks, a, idA, createdA, keyA, true, None) == Verify(checks, b, idB, createdB, keyB, true, None)
  {
    hide Project, Sign, Text, Normal, Verify;
    VerifiedMeans(checks, a, idA, createdA, keyA, true, None);
    VerifiedMeans(checks, b, idB, createdB, keyB, true, None);
    var sa, sb := Project(checks, a.fields[BODY]).value, Project(checks, b.fields[BODY]).value;
    ProjectTwice(checks, a.fields[BODY]);
    ProjectTwice(checks, b.fields[BODY]);
    SignInjective(IdOf(idA).value, CreatedOf(checks, createdA).value, sa, keyA,
                  IdOf(idB).value, CreatedOf(checks, createdB).value, sb, keyB);
  }

  /** And keys that sign alike verify the same rows. */
  lemma AlikeKeysVerifyAlike(checks: Checks, row: Json, id: Json, created: Json, a: Key, b: Key, required: bool,
                             expected: Option<Json>)
    requires KeyUsable(a) && KeyUsable(b) && SameKey(a, b)
    ensures Verify(checks, row, id, created, a, required, expected)
            == Verify(checks, row, id, created, b, required, expected)
  {
    hide BlockOf, SameKey, Project, Text, Normal;
    BlocksAgree(a, b);
  }

  lemma SignInjective(idA: int, createdA: Key, a: Json, keyA: Key, idB: int, createdB: Key, b: Json, keyB: Key)
    requires Normal(a) == a && Normal(b) == b
    requires Sign(idA, createdA, a, Sha(a), keyA).Some?
    requires Sign(idA, createdA, a, Sha(a), keyA) == Sign(idB, createdB, b, Sha(b), keyB)
    ensures idA == idB && createdA == createdB && a == b && SameKey(keyA, keyB)
  {
    hide Normal, Accepted, SameKey, BlockOf;
    BlocksAgree(keyA, keyB);
    PayloadFields(idA, createdA, a);
    PayloadFields(idB, createdB, b);
  }

  lemma PayloadFields(id: int, created: Key, snapshot: Json)
    requires Normal(snapshot) == snapshot
    ensures var payload := Normal(Payload(id, created, snapshot, Sha(snapshot)));
            payload.Obj? && {BACKTEST_ID, CREATED_AT, BODY} <= payload.fields.Keys
            && payload.fields[BACKTEST_ID] == Int(id) && payload.fields[CREATED_AT] == Str(created)
            && payload.fields[BODY] == snapshot
  {
    hide Normal;
    PayloadNames();
    NormalKind(Payload(id, created, snapshot, Sha(snapshot)));
    NormalKind(Int(id));
    NormalKind(Str(created));
  }

  lemma PayloadNames()
    ensures |BACKTEST_ID| == 11 && |CREATED_AT| == 10 && |MODE| == 23 && |BODY| == 18 && |DIGEST| == 25
            && |SIGNER| == 25
  {
  }
}

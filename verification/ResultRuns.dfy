/** Whole runs of the writers of one backtest: sources that only grow, ticks and heartbeats that may
    die right after an INSERT, restarts from any watermark that is not ahead of the stored rows, and
    finalizations statement by statement, cut off, repeated, with live writes in between. */
module ResultRuns {
  import opened KeyOrder
  import opened Options
  import opened ResultStore

  /** `sources` are the complete lists the writer holds; `marks` its in-process watermarks. */
  datatype Live = Live(rows: Rows, sources: map<Kind, seq<Value>>, marks: map<Kind, nat>, finals: map<Kind, Final>)

  /** How far the latest finalization of a kind has come, and with which list. */
  datatype Final = Never | Deleted(list: seq<Value>) | Marked(list: seq<Value>) | Done(list: seq<Value>)

  datatype Event =
    | Emit(kind: Kind, more: seq<Value>)
    | Tick(kinds: seq<Kind>)
    | TickCut(kinds: seq<Kind>)    // dies after the last kind's INSERT, before its watermark
    | Beat
    | BeatCut
    | Restart(marks: map<Kind, nat>)
    | FinalDelete(kind: Kind, list: seq<Value>)    // starts a finalization, or starts it again
    | FinalMarker(kind: Kind)
    | FinalList(kind: Kind)

  function Source(l: Live, kind: Kind): seq<Value> {
    if kind in l.sources then l.sources[kind] else []
  }

  function Phase(l: Live, kind: Kind): Final {
    if kind in l.finals then l.finals[kind] else Never
  }

  function Mark(marks: map<Kind, nat>, kind: Kind): nat {
    if kind in marks then marks[kind] else 0
  }

  function Stored(rows: Rows, id: int, kind: Kind): nat {
    |Entries(rows, id, kind, false)|
  }

  /** The re-seeded watermark: max(seq) over the live rows, if there are any. */
  function Watermark(rows: Rows, id: int, kind: Kind): nat {
    var positions := SortedKeys(Positions(rows, id, kind, false));
    if positions == [] then 0 else LastOf(positions)
  }

  function LastOf(positions: seq<Key>): nat
    requires positions != []
  {
    var last := positions[|positions| - 1];
    if |last| == 1 && last[0] >= 0 then last[0] else 0
  }

  function Full(l: Live, kinds: seq<Kind>): seq<(Kind, seq<Value>)> {
    seq(|kinds|, i requires 0 <= i < |kinds| => (kinds[i], Source(l, kinds[i])))
  }

  predicate Enabled(l: Live, id: int, e: Event) {
    match e
    case Emit(_, _) => true
    case Tick(kinds) => Log !in kinds
    case TickCut(kinds) => Log !in kinds && kinds != []
    case Beat => true
    case BeatCut => true
    case Restart(marks) => forall kind :: kind in marks ==> marks[kind] <= Stored(l.rows, id, kind)
    case FinalDelete(_, _) => true
    case FinalMarker(kind) => Phase(l, kind).Deleted?
    case FinalList(kind) => Phase(l, kind).Marked?
  }

  function Apply(l: Live, id: int, e: Event): Live
    requires Enabled(l, id, e)
  {
    match e
    case Emit(kind, more) => l.(sources := l.sources[kind := Source(l, kind) + more])
    case Tick(kinds) =>
      l.(rows := TickedRows(l.rows, id, Full(l, kinds), l.marks), marks := TickedMarks(Full(l, kinds), l.marks))
    case TickCut(kinds) =>
      l.(rows := TickedRows(l.rows, id, Full(l, kinds), l.marks),
         marks := TickedMarks(Full(l, kinds[..|kinds| - 1]), l.marks))
    case Beat =>
      var (rows, mark) := BeatAppend(l, id);
      l.(rows := rows, marks := l.marks[Log := mark])
    case BeatCut => l.(rows := BeatAppend(l, id).0)
    case Restart(marks) => l.(marks := marks)
    case FinalDelete(kind, list) => l.(rows := WithoutFinal(l.rows, id, kind),
                                       finals := l.finals[kind := Deleted(list)])
    case FinalMarker(kind) =>
      l.(rows := WithMarker(l.rows, id, kind), finals := l.finals[kind := Marked(Phase(l, kind).list)])
    case FinalList(kind) =>
      l.(rows := Appended(l.rows, id, kind, true, 0, Phase(l, kind).list),
         finals := l.finals[kind := Done(Phase(l, kind).list)])
  }

  /** The heartbeat appends the log lines emitted past its watermark. */
  function BeatAppend(l: Live, id: int): (Rows, nat) {
    var w, lines := Mark(l.marks, Log), Source(l, Log);
    if w < |lines| then (Appended(l.rows, id, Log, false, w, lines[w..]), |lines|) else (l.rows, w)
  }

  // ---- the invariant ----

  /** The live rows of a kind are exactly 1..m holding the first m source entries, and the
      writer's watermark is not past m. */
  ghost predicate KindOk(rows: Rows, id: int, kind: Kind, src: seq<Value>, mark: nat) {
    var m := Stored(rows, id, kind);
    mark <= m <= |src| && Exactly(rows, id, kind, false, src[..m])
  }

  ghost predicate AllOk(l: Live, id: int) {
    forall kind :: KindOk(l.rows, id, kind, Source(l, kind), Mark(l.marks, kind))
  }

  /** The final rows of a kind are what its latest finalization has written so far. */
  ghost predicate FinalOk(rows: Rows, id: int, kind: Kind, phase: Final) {
    match phase
    case Never => !HasFinal(rows, id, kind)
    case Deleted(_) => !HasFinal(rows, id, kind)
    case Marked(_) => RowKey(id, kind, true, 0) in rows && Exactly(rows, id, kind, true, [])
    case Done(list) => RowKey(id, kind, true, 0) in rows && Exactly(rows, id, kind, true, list)
  }

  ghost predicate FinalsOk(l: Live, id: int) {
    forall kind :: FinalOk(l.rows, id, kind, Phase(l, kind))
  }

  /** The two tables agree on the final (or on the live) rows of a kind. */
  ghost predicate SameOf(a: Rows, b: Rows, id: int, kind: Kind, final: bool) {
    && (forall n: nat :: RowKey(id, kind, final, n) in a <==> RowKey(id, kind, final, n) in b)
    && (forall n: nat :: RowKey(id, kind, final, n) in a ==>
        a[RowKey(id, kind, final, n)] == b[RowKey(id, kind, final, n)])
  }

  lemma SameFinalOk(a: Rows, b: Rows, id: int, kind: Kind, phase: Final)
    requires FinalOk(a, id, kind, phase) && SameOf(a, b, id, kind, true)
    ensures FinalOk(b, id, kind, phase)
  {
    hide Entries;
    SameRowsSameEntries(a, b, id, kind, true);
  }

  lemma SameKindOk(a: Rows, b: Rows, id: int, kind: Kind, src: seq<Value>, mark: nat)
    requires KindOk(a, id, kind, src, mark) && SameOf(a, b, id, kind, false)
    ensures KindOk(b, id, kind, src, mark)
  {
    hide Entries;
    SameRowsSameEntries(a, b, id, kind, false);
  }

  /** Appending from the watermark stores exactly the whole source. */
  lemma AppendStoresAll(rows: Rows, id: int, kind: Kind, src: seq<Value>, w: nat)
    requires KindOk(rows, id, kind, src, w)
    ensures var after := if |src| > w then Appended(rows, id, kind, false, w, src[w..]) else rows;
            KindOk(after, id, kind, src, |src|) && Stored(after, id, kind) == |src|
  {
    hide Entries, Positions;
    var m := Stored(rows, id, kind);
    if |src| > w {
      AppendExact(rows, id, kind, m, w, src);
      var after := Appended(rows, id, kind, false, w, src[w..]);
      EntriesOfExactly(after, id, kind, false, src);
      assert src[..|src|] == src;
    }
  }

  lemma AppendKeepsOthers(rows: Rows, id: int, kind: Kind, w: nat, entries: seq<Value>, other: Kind, src: seq<Value>,
                          mark: nat)
    requires other != kind && KindOk(rows, id, other, src, mark)
    ensures KindOk(Appended(rows, id, kind, false, w, entries), id, other, src, mark)
    ensures Stored(Appended(rows, id, kind, false, w, entries), id, other) == Stored(rows, id, other)
  {
    hide Entries;
    SameRowsSameEntries(Appended(rows, id, kind, false, w, entries), rows, id, other, false);
  }

  lemma TickOfNothing(l: Live, id: int)
    ensures TickedRows(l.rows, id, Full(l, []), l.marks) == l.rows && TickedMarks(Full(l, []), l.marks) == l.marks
  {
  }

  /** A tick stores every listed source completely and leaves the other kinds alone. */
  lemma {:induction false} TickStores(l: Live, id: int, kinds: seq<Kind>, kind: Kind)
    requires AllOk(l, id)
    ensures var rows, marks := TickedRows(l.rows, id, Full(l, kinds), l.marks), TickedMarks(Full(l, kinds), l.marks);
            && KindOk(rows, id, kind, Source(l, kind), Mark(marks, kind))
            && (kind in kinds ==> Stored(rows, id, kind) == |Source(l, kind)| == Mark(marks, kind))
            && (kind !in kinds ==> Stored(rows, id, kind) == Stored(l.rows, id, kind))
    decreases |kinds|
  {
    hide KindOk, Appended, Stored, Source, TickedRows, TickedMarks;
    if kinds == [] {
      TickOfNothing(l, id);
    } else {
      var n := |kinds| - 1;
      var rest, last := kinds[..n], kinds[n];
      assert Full(l, kinds)[..n] == Full(l, rest) && Full(l, kinds)[..n + 1] == Full(l, kinds);
      TickedNext(l.rows, id, Full(l, kinds), n, l.marks);
      TickStores(l, id, rest, kind);
      TickStores(l, id, rest, last);
      var rows, marks := TickedRows(l.rows, id, Full(l, rest), l.marks), TickedMarks(Full(l, rest), l.marks);
      var src, w := Source(l, last), Mark(marks, last);
      AppendStoresAll(rows, id, last, src, w);
      MarkNotPastSource(rows, id, last, src, w);
      if kind != last && |src| > w {
        AppendKeepsOthers(rows, id, last, w, src[w..], kind, Source(l, kind), Mark(marks, kind));
      }
      assert kind in kinds <==> kind in rest || kind == last;
    }
  }

  lemma MarkNotPastSource(rows: Rows, id: int, kind: Kind, src: seq<Value>, w: nat)
    requires KindOk(rows, id, kind, src, w)
    ensures w <= |src|
  {
  }

  lemma LowerMark(rows: Rows, id: int, kind: Kind, src: seq<Value>, mark: nat, lower: nat)
    requires KindOk(rows, id, kind, src, mark) && lower <= Stored(rows, id, kind)
    ensures KindOk(rows, id, kind, src, lower)
  {
  }

  lemma LongerSource(rows: Rows, id: int, kind: Kind, src: seq<Value>, mark: nat, more: seq<Value>)
    requires KindOk(rows, id, kind, src, mark)
    ensures KindOk(rows, id, kind, src + more, mark)
  {
    hide Entries;
    var m := Stored(rows, id, kind);
    assert (src + more)[..m] == src[..m];
  }

  lemma TickCutOk(l: Live, id: int, kinds: seq<Kind>, kind: Kind)
    requires AllOk(l, id) && kinds != []
    ensures var rows, marks := TickedRows(l.rows, id, Full(l, kinds), l.marks),
                               TickedMarks(Full(l, kinds[..|kinds| - 1]), l.marks);
            KindOk(rows, id, kind, Source(l, kind), Mark(marks, kind))
  {
    hide Stored, Appended, TickedRows, TickedMarks;
    var rest := kinds[..|kinds| - 1];
    TickStores(l, id, kinds, kind);
    TickStores(l, id, rest, kind);
    var rows, marks := TickedRows(l.rows, id, Full(l, kinds), l.marks), TickedMarks(Full(l, rest), l.marks);
    assert Mark(marks, kind) <= Stored(rows, id, kind) by {
      if kind !in kinds { assert kind !in rest; }
    }
  }

  lemma BeatStores(l: Live, id: int, kind: Kind)
    requires AllOk(l, id)
    ensures var (rows, mark) := BeatAppend(l, id);
            && KindOk(rows, id, kind, Source(l, kind), if kind == Log then mark else Mark(l.marks, kind))
            && KindOk(rows, id, kind, Source(l, kind), Mark(l.marks, kind))
            && (kind == Log ==> Stored(rows, id, Log) == |Source(l, Log)| == mark)
  {
    hide Appended, Stored, KindOk;
    var w, lines := Mark(l.marks, Log), Source(l, Log);
    AppendStoresAll(l.rows, id, Log, lines, w);
    MarkNotPastSource(l.rows, id, Log, lines, w);
    if kind == Log {
      LowerMark(BeatAppend(l, id).0, id, Log, lines, |lines|, w);
    } else if |lines| > w {
      AppendKeepsOthers(l.rows, id, Log, w, lines[w..], kind, Source(l, kind), Mark(l.marks, kind));
    }
  }

  predicate Finalizes(e: Event, kind: Kind) {
    (e.FinalDelete? || e.FinalMarker? || e.FinalList?) && e.kind == kind
  }

  /** A statement of a finalization touches no live row and no row of another kind. */
  lemma StatementLocal(l: Live, id: int, e: Event, kind: Kind)
    requires Enabled(l, id, e) && (e.FinalDelete? || e.FinalMarker? || e.FinalList?)
    ensures SameOf(l.rows, Apply(l, id, e).rows, id, kind, false)
    ensures kind != e.kind ==> SameOf(l.rows, Apply(l, id, e).rows, id, kind, true)
  {
  }

  lemma StatementDone(l: Live, id: int, e: Event)
    requires Enabled(l, id, e) && FinalsOk(l, id) && (e.FinalDelete? || e.FinalMarker? || e.FinalList?)
    ensures var after := Apply(l, id, e); FinalOk(after.rows, id, e.kind, Phase(after, e.kind))
  {
    hide Entries;
    assert FinalOk(l.rows, id, e.kind, Phase(l, e.kind));
  }

  lemma AppendKeepsFinals(rows: Rows, id: int, kind: Kind, w: nat, entries: seq<Value>, other: Kind)
    ensures SameOf(rows, Appended(rows, id, kind, false, w, entries), id, other, true)
  {
  }

  lemma SameOfTrans(a: Rows, b: Rows, c: Rows, id: int, kind: Kind)
    requires SameOf(a, b, id, kind, true) && SameOf(b, c, id, kind, true)
    ensures SameOf(a, c, id, kind, true)
  {
  }

  lemma SameAsItself(rows: Rows, id: int, kind: Kind)
    ensures SameOf(rows, rows, id, kind, true)
  {
  }

  lemma {:induction false} TickKeepsFinals(rows: Rows, id: int, appended: seq<(Kind, seq<Value>)>, marks: map<Kind,
                                           nat>, kind: Kind)
    ensures SameOf(rows, TickedRows(rows, id, appended, marks), id, kind, true)
    decreases |appended|
  {
    hide Appended, SameOf;
    if appended == [] {
      SameAsItself(rows, id, kind);
    } else {
      var n := |appended| - 1;
      TickKeepsFinals(rows, id, appended[..n], marks, kind);
      var before, seqs := TickedRows(rows, id, appended[..n], marks), TickedMarks(appended[..n], marks);
      var (k, values) := appended[n];
      var w := if k in seqs then seqs[k] else 0;
      if |values| > w {
        AppendKeepsFinals(before, id, k, w, values[w..], kind);
        SameOfTrans(rows, before, Appended(before, id, k, false, w, values[w..]), id, kind);
      }
    }
  }

  lemma LiveKeepsFinals(l: Live, id: int, e: Event, kind: Kind)
    requires Enabled(l, id, e) && !(e.FinalDelete? || e.FinalMarker? || e.FinalList?)
    ensures SameOf(l.rows, Apply(l, id, e).rows, id, kind, true)
  {
    hide TickedRows, TickedMarks, Appended, Stored;
    match e
    case Tick(kinds) => TickKeepsFinals(l.rows, id, Full(l, kinds), l.marks, kind);
    case TickCut(kinds) => TickKeepsFinals(l.rows, id, Full(l, kinds), l.marks, kind);
    case Beat => BeatKeepsFinals(l, id, kind);
    case BeatCut => BeatKeepsFinals(l, id, kind);
    case _ =>
  }

  lemma BeatKeepsFinals(l: Live, id: int, kind: Kind)
    ensures SameOf(l.rows, BeatAppend(l, id).0, id, kind, true)
  {
    hide Appended;
    var w, lines := Mark(l.marks, Log), Source(l, Log);
    if w < |lines| { AppendKeepsFinals(l.rows, id, Log, w, lines[w..], kind); }
  }

  lemma ApplyFinals(l: Live, id: int, e: Event)
    requires FinalsOk(l, id) && Enabled(l, id, e)
    ensures FinalsOk(Apply(l, id, e), id)
  {
    hide FinalOk, TickedRows, TickedMarks, BeatAppend, Stored, SameOf, Appended, WithoutFinal, WithMarker;
    var after := Apply(l, id, e);
    forall kind ensures FinalOk(after.rows, id, kind, Phase(after, kind)) {
      if Finalizes(e, kind) {
        StatementDone(l, id, e);
      } else {
        if e.FinalDelete? || e.FinalMarker? || e.FinalList? { StatementLocal(l, id, e, kind); }
        else { LiveKeepsFinals(l, id, e, kind); }
        SameFinalOk(l.rows, after.rows, id, kind, Phase(l, kind));
      }
    }
  }

  lemma ApplyOk(l: Live, id: int, e: Event)
    requires AllOk(l, id) && Enabled(l, id, e)
    ensures AllOk(Apply(l, id, e), id)
  {
    hide KindOk, TickedRows, TickedMarks, BeatAppend, Stored, Appended, WithoutFinal, WithMarker, SameOf;
    var after := Apply(l, id, e);
    forall kind ensures KindOk(after.rows, id, kind, Source(after, kind), Mark(after.marks, kind)) {
      match e
      case Emit(k, more) => LongerSource(l.rows, id, kind, Source(l, kind), Mark(l.marks, kind), more);
      case Tick(kinds) => TickStores(l, id, kinds, kind);
      case TickCut(kinds) => TickCutOk(l, id, kinds, kind);
      case Beat => BeatStores(l, id, kind);
      case BeatCut => BeatStores(l, id, kind);
      case Restart(marks) => LowerMark(l.rows, id, kind, Source(l, kind), Mark(l.marks, kind), Mark(marks, kind));
      case _ =>
        StatementLocal(l, id, e, kind);
        SameKindOk(l.rows, after.rows, id, kind, Source(l, kind), Mark(l.marks, kind));
    }
  }

  // ---- runs ----

  ghost predicate Runs(from: Live, id: int, run: seq<Event>, to: Live)
    decreases |run|, 0
  {
    if run == [] then to == from else RunsThen(from, id, run[..|run| - 1], run[|run| - 1], to)
  }

  ghost predicate RunsThen(from: Live, id: int, run: seq<Event>, last: Event, to: Live)
    decreases |run|, 1
  {
    exists before :: Runs(from, id, run, before) && Steps(before, id, last, to)
  }

  predicate Steps(before: Live, id: int, e: Event, after: Live) {
    Enabled(before, id, e) && after == Apply(before, id, e)
  }

  lemma {:induction false} RunOk(from: Live, id: int, run: seq<Event>, to: Live)
    requires AllOk(from, id) && FinalsOk(from, id) && Runs(from, id, run, to)
    ensures AllOk(to, id) && FinalsOk(to, id)
    decreases |run|
  {
    hide AllOk, FinalsOk, Apply, Enabled;
    if run != [] {
      var n := |run| - 1;
      var before :| Runs(from, id, run[..n], before) && Steps(before, id, run[n], to);
      RunOk(from, id, run[..n], before);
      ApplyOk(before, id, run[n]);
      ApplyFinals(before, id, run[n]);
    }
  }

  /** A store that holds nothing of this run yet. */
  ghost predicate Untouched(l: Live, id: int) {
    NoRowsOf(l.rows, id) && l.sources == map[] && l.marks == map[] && l.finals == map[]
  }

  lemma UntouchedOk(l: Live, id: int)
    requires Untouched(l, id)
    ensures AllOk(l, id) && FinalsOk(l, id)
  {
    forall kind ensures KindOk(l.rows, id, kind, [], 0) {
      assert forall n: nat, final: bool :: RowKey(id, kind, final, n) !in l.rows;
      assert Exactly(l.rows, id, kind, false, []);
      EntriesOfExactly(l.rows, id, kind, false, []);
    }
  }

  /** What the reader sees of a kind with m live entries. */
  function View(phase: Final, live: seq<Value>, kind: Kind): Option<seq<Value>> {
    match phase
    case Marked(_) => Some([])
    case Done(list) => Some(list)
    case _ => if live != [] then Some(ApplyCap(live, CapOf(kind))) else if AlwaysPresent(kind) then Some([]) else None
  }

  /** Exactly once: whatever crashes, restarts and finalizations a run goes through, each kind's live
      rows are 1..m holding the first m source entries, and the reader sees that prefix, capped,
      until a finalization's marker is in, and from its last statement on the final list. */
  lemma ExactlyOnce(from: Live, id: int, run: seq<Event>, l: Live, kind: Kind)
    requires Untouched(from, id) && Runs(from, id, run, l)
    ensures var m := Stored(l.rows, id, kind);
            && m <= |Source(l, kind)|
            && Exactly(l.rows, id, kind, false, Source(l, kind)[..m])
            && Shown(l.rows, id, kind) == View(Phase(l, kind), Source(l, kind)[..m], kind)
  {
    hide Runs, Shown, Entries;
    UntouchedOk(from, id);
    RunOk(from, id, run, l);
    assert KindOk(l.rows, id, kind, Source(l, kind), Mark(l.marks, kind));
    assert FinalOk(l.rows, id, kind, Phase(l, kind));
    ViewShown(l.rows, id, kind, Source(l, kind)[..Stored(l.rows, id, kind)], Phase(l, kind));
  }

  lemma ViewShown(rows: Rows, id: int, kind: Kind, live: seq<Value>, phase: Final)
    requires Exactly(rows, id, kind, false, live) && FinalOk(rows, id, kind, phase)
    ensures Shown(rows, id, kind) == View(phase, live, kind)
  {
    hide Entries, Exactly;
    match phase
    case Marked(_) => EntriesOfExactly(rows, id, kind, true, []);
    case Done(list) => EntriesOfExactly(rows, id, kind, true, list);
    case _ => LiveShows(rows, id, kind, live);
  }

  predicate NoFinalDelete(run: seq<Event>, kind: Kind) {
    forall e :: e in run ==> !(e.FinalDelete? && e.kind == kind)
  }

  /** A finalized kind shows its final list for ever: no tick, heartbeat, restart or finalization of
      another kind changes it. */
  lemma FinalForEver(from: Live, id: int, first: seq<Event>, middle: Live, rest: seq<Event>, l: Live, kind: Kind,
                     list: seq<Value>)
    requires Untouched(from, id) && Runs(from, id, first, middle) && Runs(middle, id, rest, l)
    requires Phase(middle, kind) == Done(list) && NoFinalDelete(rest, kind)
    ensures Shown(l.rows, id, kind) == Some(list)
  {
    hide Runs, Shown, Entries, KindOk, Exactly;
    UntouchedOk(from, id);
    RunOk(from, id, first, middle);
    RunOk(middle, id, rest, l);
    DoneStays(middle, id, rest, l, kind);
    assert FinalOk(l.rows, id, kind, Done(list));
    EntriesOfExactly(l.rows, id, kind, true, list);
    FinalShows(l.rows, id, kind, list);
  }

  lemma FinalShows(rows: Rows, id: int, kind: Kind, list: seq<Value>)
    requires RowKey(id, kind, true, 0) in rows && Entries(rows, id, kind, true) == list
    ensures Shown(rows, id, kind) == Some(list)
  {
    hide Entries;
  }

  lemma DoneKept(l: Live, id: int, e: Event, kind: Kind)
    requires Enabled(l, id, e) && Phase(l, kind).Done? && !(e.FinalDelete? && e.kind == kind)
    ensures Phase(Apply(l, id, e), kind) == Phase(l, kind)
  {
    hide TickedRows, TickedMarks, BeatAppend, Stored;
  }

  lemma {:induction false} DoneStays(from: Live, id: int, run: seq<Event>, l: Live, kind: Kind)
    requires Runs(from, id, run, l) && Phase(from, kind).Done? && NoFinalDelete(run, kind)
    ensures Phase(l, kind) == Phase(from, kind)
    decreases |run|
  {
    hide Apply, Enabled, Phase;
    if run != [] {
      var n := |run| - 1;
      var before :| Runs(from, id, run[..n], before) && Steps(before, id, run[n], l);
      DoneStays(from, id, run[..n], before, kind);
      DoneKept(before, id, run[n], kind);
    }
  }

  /** After a tick (or heartbeat) that returns, nothing of the listed sources is missing. */
  lemma CompleteAfterTick(from: Live, id: int, run: seq<Event>, l: Live, kinds: seq<Kind>, kind: Kind)
    requires Untouched(from, id) && Runs(from, id, run, l) && Log !in kinds && kind in kinds
    ensures Stored(Apply(l, id, Tick(kinds)).rows, id, kind) == |Source(l, kind)|
  {
    hide Runs, AllOk, TickedRows, TickedMarks;
    UntouchedOk(from, id);
    RunOk(from, id, run, l);
    TickStores(l, id, kinds, kind);
  }

  /** The watermark a reconnecting writer re-reads is the number of entries stored, so restarting
      from it is always allowed. */
  lemma ReseedIsStored(from: Live, id: int, run: seq<Event>, l: Live, kind: Kind)
    requires Untouched(from, id) && Runs(from, id, run, l)
    ensures Watermark(l.rows, id, kind) == Stored(l.rows, id, kind)
  {
    hide Runs, Shown, Entries, Positions;
    UntouchedOk(from, id);
    RunOk(from, id, run, l);
    assert KindOk(l.rows, id, kind, Source(l, kind), Mark(l.marks, kind));
    var m := Stored(l.rows, id, kind);
    PositionsOfExactly(l.rows, id, kind, false, Source(l, kind)[..m]);
  }
}

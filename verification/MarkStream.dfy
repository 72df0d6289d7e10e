/** The subscription protocol of the mark stream: the caller of `set_symbols`, the reconnect
    loop and `stop` run on different threads and meet in a lock and on the wire. Each lock
    section and each wire call is one atomic step; any interleaving of steps is a run. */
module MarkStream {
  import opened Sets
  import opened KeyOrder
  import opened Options

  type Symbol = Key
  type StreamId = nat

  /** What the server knows about one websocket. `faulted` records that some wire call on it
      raised; nothing is promised about such a stream. `revived` records that `set_symbols` brought
      a symbol back while the loop was about to unsubscribe it from this stream. */
  datatype Wire = Wire(quotes: set<Symbol>, trades: set<Symbol>,
                       stopped: bool, faulted: bool, revived: bool)

  datatype CallerAt = Idle | AddQuotes | AddTrades | DropOldQuotes | DropOldTrades
  datatype Caller = Caller(at: CallerAt, stream: StreamId, toAdd: set<Symbol>, toRemove: set<Symbol>)

  datatype LoopAt = Top | Made | Published | WireQuotes | WireTrades | Diff | DropGhostQuotes
                  | DropGhostTrades | Running | Backoff | StopSeen | StopCleared | Exited
  datatype Loop = Loop(at: LoopAt, stream: StreamId, resub: set<Symbol>, ghosts: set<Symbol>)

  datatype StopperAt = NotCalled | EventSet | Taken(stream: Option<StreamId>) | Finished

  datatype State = State(max: nat, subscribed: set<Symbol>, overflow: set<Symbol>,
                         current: Option<StreamId>, wires: seq<Wire>,
                         caller: Caller, loop: Loop, stopEvent: bool, stopper: StopperAt)

  /** One step of one thread. `ok == false` means the wire call raised. */
  datatype Action =
    | SetSymbols(wanted: set<Symbol>)
    | CallerWire(ok: bool)
    | LoopStep(ok: bool)
    | StopStep

  function Init(max: nat): State {
    State(max, {}, {}, None, [], Caller(Idle, 0, {}, {}), Loop(Top, 0, {}, {}), false, NotCalled)
  }

  /** The first `max` wanted symbols in sorted order; the rest is overflow. */
  function Keep(wanted: set<Symbol>, max: nat): (keep: set<Symbol>)
    ensures keep <= wanted && |keep| <= max
    ensures |wanted| <= max ==> keep == wanted
    ensures |wanted| > max ==> |keep| == max
    ensures forall a, b :: a in keep && b in wanted - keep ==> Less(a, b)
  {
    var ordered := SortedKeys(wanted);
    var first := if |ordered| <= max then ordered else ordered[..max];
    PrefixSplitsOrder(ordered, |first|);
    SetOfSeqSize(first);
    AscendingSize(ordered);
    AscendingSize(first);
    assert wanted == set s | s in ordered;
    set s | s in first
  }

  lemma PrefixSplitsOrder(ordered: seq<Symbol>, n: nat)
    requires Ascending(ordered) && n <= |ordered|
    ensures forall a, b :: a in ordered[..n] && b in ordered && b !in ordered[..n] ==> Less(a, b)
  {
    forall a, b | a in ordered[..n] && b in ordered && b !in ordered[..n] ensures Less(a, b) {
      var i :| 0 <= i < n && ordered[i] == a;
      assert ordered == ordered[..n] + ordered[n..];
      var j :| 0 <= j < |ordered| - n && ordered[n..][j] == b;
      assert ordered[n + j] == b;
    }
  }

  lemma {:induction false} AscendingSize(s: seq<Symbol>)
    requires Ascending(s)
    ensures |(set x | x in s)| == |s|
    decreases |s|
  {
    if s != [] {
      var rest := s[1..];
      forall i, j | 0 <= i < j < |rest| ensures Less(rest[i], rest[j]) {
        assert rest[i] == s[i + 1] && rest[j] == s[j + 1];
      }
      AscendingSize(rest);
      forall x | x in rest ensures x != s[0] {
        var i :| 0 <= i < |rest| && rest[i] == x;
        assert Less(s[0], s[i + 1]);
        LessIrreflexive(s[0]);
      }
      assert (set x | x in s) == {s[0]} + (set x | x in rest);
    }
  }

  lemma {:induction false} SetOfSeqSize(s: seq<Symbol>)
    ensures |(set x | x in s)| <= |s|
    decreases |s|
  {
    if s != [] {
      SetOfSeqSize(s[1..]);
      assert (set x | x in s) == {s[0]} + (set x | x in s[1..]);
    }
  }

  // ---- wire calls ----

  function AddTo(st: State, id: StreamId, quotes: bool, names: set<Symbol>): State
    requires id < |st.wires|
  {
    var w := st.wires[id];
    st.(wires := st.wires[id := if quotes then w.(quotes := w.quotes + names)
                                else w.(trades := w.trades + names)])
  }

  function DropFrom(st: State, id: StreamId, quotes: bool, names: set<Symbol>): State
    requires id < |st.wires|
  {
    var w := st.wires[id];
    st.(wires := st.wires[id := if quotes then w.(quotes := w.quotes - names)
                                else w.(trades := w.trades - names)])
  }

  function Fault(st: State, id: StreamId): State
    requires id < |st.wires|
  {
    st.(wires := st.wires[id := st.wires[id].(faulted := true)])
  }

  function Stopped(st: State, id: StreamId): State
    requires id < |st.wires|
  {
    st.(wires := st.wires[id := st.wires[id].(stopped := true)])
  }

  predicate Wiring(at: LoopAt) {
    at in {Published, WireQuotes, WireTrades, Diff, DropGhostQuotes, DropGhostTrades}
  }

  /** The loop has taken its ghosts and not yet unsubscribed all of them. */
  predicate Dropping(at: LoopAt) {
    at in {DropGhostQuotes, DropGhostTrades}
  }

  /** The symbols about to be kept bring back one the loop is about to unsubscribe. */
  predicate Revives(st: State, keep: set<Symbol>) {
    Dropping(st.loop.at) && !(st.loop.ghosts !! keep)
  }

  // ---- set_symbols ----

  /** The lock section of `set_symbols`, then on to its first wire call, if any. */
  function CallerLock(st: State, wanted: set<Symbol>): State
    requires st.caller.at == Idle
    requires st.loop.stream < |st.wires| || !Wiring(st.loop.at)
  {
    var keep := Keep(wanted, st.max);
    var toAdd, toRemove := keep - st.subscribed, st.subscribed - keep;
    var noted := if Revives(st, keep)
                 then st.wires[st.loop.stream := st.wires[st.loop.stream].(revived := true)]
                 else st.wires;
    var locked := st.(subscribed := keep, overflow := wanted - keep, wires := noted);
    match st.current
    case None => locked
    case Some(id) => locked.(caller := Caller(AfterLock(toAdd, toRemove), id, toAdd, toRemove))
  }

  function AfterLock(toAdd: set<Symbol>, toRemove: set<Symbol>): CallerAt {
    if toAdd != {} then AddQuotes else if toRemove != {} then DropOldQuotes else Idle
  }

  /** The next wire call of `set_symbols`; a call that raises abandons the remaining ones. */
  function CallerNext(st: State, ok: bool): State
    requires st.caller.at != Idle && st.caller.stream < |st.wires|
  {
    var c := st.caller;
    if !ok then Fault(st, c.stream).(caller := c.(at := Idle))
    else match c.at
      case AddQuotes => AddTo(st, c.stream, true, c.toAdd).(caller := c.(at := AddTrades))
      case AddTrades =>
        AddTo(st, c.stream, false, c.toAdd)
          .(caller := c.(at := if c.toRemove != {} then DropOldQuotes else Idle))
      case DropOldQuotes => DropFrom(st, c.stream, true, c.toRemove).(caller := c.(at := DropOldTrades))
      case DropOldTrades => DropFrom(st, c.stream, false, c.toRemove).(caller := c.(at := Idle))
      case Idle => st
  }

  // ---- the reconnect loop ----

  function LoopNext(st: State, ok: bool): State
    requires st.loop.at in {Top, Backoff, Exited} || st.loop.stream < |st.wires|
  {
    var l := st.loop;
    match l.at
    case Top =>
      if st.stopEvent then st.(loop := l.(at := Exited))
      else if !ok then st.(loop := l.(at := Backoff))              // the factory raised
      else st.(wires := st.wires + [Wire({}, {}, false, false, false)],
               loop := Loop(Made, |st.wires|, {}, {}))
    case Made =>                                                     // lock: publish and snapshot
      st.(current := Some(l.stream), loop := l.(at := Published, resub := st.subscribed))
    case Published =>
      st.(loop := l.(at := if st.stopEvent then StopSeen
                           else if l.resub != {} then WireQuotes else Diff))
    case StopSeen => st.(current := None, loop := l.(at := StopCleared))
    case StopCleared => Stopped(st, l.stream).(loop := l.(at := Exited))
    case WireQuotes =>
      if ok then AddTo(st, l.stream, true, l.resub).(loop := l.(at := WireTrades))
      else Fault(st, l.stream).(loop := l.(at := Backoff))
    case WireTrades =>
      if ok then AddTo(st, l.stream, false, l.resub).(loop := l.(at := Diff))
      else Fault(st, l.stream).(loop := l.(at := Backoff))
    case Diff =>                                                     // lock: ghosts
      var ghosts := l.resub - st.subscribed;
      st.(loop := l.(at := if ghosts != {} then DropGhostQuotes else Running, ghosts := ghosts))
    case DropGhostQuotes =>
      if ok then DropFrom(st, l.stream, true, l.ghosts).(loop := l.(at := DropGhostTrades))
      else Fault(st, l.stream).(loop := l.(at := Running))         // swallowed
    case DropGhostTrades =>
      if ok then DropFrom(st, l.stream, false, l.ghosts).(loop := l.(at := Running))
      else Fault(st, l.stream).(loop := l.(at := Running))
    case Running => st.(loop := l.(at := Backoff))                  // run() returned or raised
    case Backoff => st.(loop := l.(at := if st.stopEvent then Exited else Top))
    case Exited => st
  }

  // ---- stop ----

  function StopNext(st: State): State
    requires st.stopper.Taken? && st.stopper.stream.Some? ==> st.stopper.stream.value < |st.wires|
  {
    match st.stopper
    case NotCalled => st.(stopEvent := true, stopper := EventSet)
    case EventSet => st.(current := None, stopper := Taken(st.current))
    case Taken(None) => st.(stopper := Finished)
    case Taken(Some(id)) => Stopped(st, id).(stopper := Finished)
    case Finished => st
  }

  // ---- runs ----

  predicate Enabled(st: State, a: Action) {
    match a
    case SetSymbols(_) => st.caller.at == Idle
    case CallerWire(_) => st.caller.at != Idle
    case LoopStep(_) => st.loop.at != Exited
    case StopStep => st.stopper != Finished
  }

  /** Every stream named anywhere has been made, and a published stream is the current one
      until a stopper clears it. */
  predicate Wellformed(st: State) {
    && (st.current.Some? ==> st.current.value < |st.wires|)
    && (st.caller.at != Idle ==> st.caller.stream < |st.wires|)
    && (st.loop.at !in {Top, Backoff, Exited} ==> st.loop.stream < |st.wires|)
    && (st.stopper.Taken? && st.stopper.stream.Some? ==> st.stopper.stream.value < |st.wires|)
    && (st.stopEvent <==> st.stopper != NotCalled)
    && (st.loop.at == Made ==> st.wires[st.loop.stream] == Wire({}, {}, false, false, false)
                               && st.loop.stream == |st.wires| - 1
                               && st.current != Some(st.loop.stream)
                               && st.stopper != Taken(Some(st.loop.stream))
                               && (st.caller.at != Idle ==> st.caller.stream != st.loop.stream))
    && (Wiring(st.loop.at) || st.loop.at == Running ==>
          st.current == Some(st.loop.stream) || st.stopper.Taken? || st.stopper.Finished?)
  }

  function Step(st: State, a: Action): State
    requires Wellformed(st) && Enabled(st, a)
  {
    match a
    case SetSymbols(wanted) => CallerLock(st, wanted)
    case CallerWire(ok) => CallerNext(st, ok)
    case LoopStep(ok) => LoopNext(st, ok)
    case StopStep => StopNext(st)
  }

  lemma CallerLockWellformed(st: State, wanted: set<Symbol>)
    requires Wellformed(st) && st.caller.at == Idle
    ensures Wellformed(CallerLock(st, wanted))
  {
  }

  lemma CallerNextWellformed(st: State, ok: bool)
    requires Wellformed(st) && st.caller.at != Idle
    ensures Wellformed(CallerNext(st, ok))
  {
  }

  lemma LoopNextWellformed(st: State, ok: bool)
    requires Wellformed(st) && st.loop.at != Exited
    ensures Wellformed(LoopNext(st, ok))
  {
  }

  lemma StopNextWellformed(st: State)
    requires Wellformed(st) && st.stopper != Finished
    ensures Wellformed(StopNext(st))
  {
  }

  lemma StepWellformed(st: State, a: Action)
    requires Wellformed(st) && Enabled(st, a)
    ensures Wellformed(Step(st, a))
  {
    hide Wellformed, CallerLock, CallerNext, LoopNext, StopNext;
    match a
    case SetSymbols(wanted) => CallerLockWellformed(st, wanted);
    case CallerWire(ok) => CallerNextWellformed(st, ok);
    case LoopStep(ok) => LoopNextWellformed(st, ok);
    case StopStep => StopNextWellformed(st);
  }

  /** st is reached from the initial state by the actions of the run, in order. */
  ghost predicate Reaches(max: nat, run: seq<Action>, st: State)
    decreases |run|
  {
    if run == [] then st == Init(max)
    else exists before :: Reaches(max, run[..|run| - 1], before) && Wellformed(before)
                       && Enabled(before, run[|run| - 1]) && st == Step(before, run[|run| - 1])
  }

  // ---- no ghost subscription ----

  /** Why x may be on the quotes wire of a stream without being subscribed: the caller or the
      loop still owes its removal. */
  predicate QuoteOwed(st: State, id: StreamId, x: Symbol) {
    || (st.caller.at in {AddQuotes, AddTrades, DropOldQuotes}
        && st.caller.stream == id && x in st.caller.toRemove)
    || (st.loop.stream == id && st.loop.at in {WireTrades, Diff} && x in st.loop.resub)
    || (st.loop.stream == id && st.loop.at == DropGhostQuotes && x in st.loop.ghosts)
  }

  predicate TradeOwed(st: State, id: StreamId, x: Symbol) {
    || (st.caller.at in {AddQuotes, AddTrades, DropOldQuotes, DropOldTrades}
        && st.caller.stream == id && x in st.caller.toRemove)
    || (st.loop.stream == id && st.loop.at == Diff && x in st.loop.resub)
    || (st.loop.stream == id && st.loop.at in {DropGhostQuotes, DropGhostTrades} && x in st.loop.ghosts)
  }

  ghost predicate AllOwed(st: State, id: StreamId)
    requires id < |st.wires|
  {
    && (forall x :: x in st.wires[id].quotes ==> x in st.subscribed || QuoteOwed(st, id, x))
    && (forall x :: x in st.wires[id].trades ==> x in st.subscribed || TradeOwed(st, id, x))
  }

  ghost predicate GhostsOwed(st: State) {
    && Wellformed(st)
    && |st.subscribed| <= st.max
    && st.subscribed !! st.overflow
    && (st.caller.at != Idle ==> st.caller.toAdd <= st.subscribed)
    && (st.current.Some? && !st.wires[st.current.value].faulted ==>
          AllOwed(st, st.current.value))
  }

  lemma LockOwes(st: State, wanted: set<Symbol>, id: StreamId)
    requires st.caller.at == Idle && st.current == Some(id) && id < |st.wires| && AllOwed(st, id)
    requires st.loop.stream < |st.wires| || !Wiring(st.loop.at)
    ensures AllOwed(CallerLock(st, wanted), id)
  {
    hide Keep;
    var removed := st.subscribed - Keep(wanted, st.max);
    assert forall x :: x in st.subscribed ==> x in Keep(wanted, st.max) || x in removed;
    assert removed != {} ==> CallerLock(st, wanted).caller.at in {AddQuotes, DropOldQuotes};
  }

  lemma CallerLockGhostsOwed(st: State, wanted: set<Symbol>)
    requires GhostsOwed(st) && st.caller.at == Idle
    ensures GhostsOwed(CallerLock(st, wanted))
  {
    hide AllOwed, Wellformed, Keep;
    CallerLockWellformed(st, wanted);
    LockShape(st, wanted);
    if st.current.Some? && !st.wires[st.current.value].faulted {
      LockOwes(st, wanted, st.current.value);
    }
  }

  lemma LockShape(st: State, wanted: set<Symbol>)
    requires Wellformed(st) && st.caller.at == Idle
    ensures st.current.Some? ==> st.current.value < |st.wires|
    ensures st.loop.stream < |st.wires| || !Wiring(st.loop.at)
    ensures var after := CallerLock(st, wanted);
            && after.subscribed !! after.overflow && |after.subscribed| <= after.max
            && (after.caller.at != Idle ==> after.caller.toAdd <= after.subscribed)
            && after.current == st.current && |after.wires| == |st.wires|
            && forall id :: 0 <= id < |st.wires| ==> after.wires[id].faulted == st.wires[id].faulted
  {
  }

  lemma CallerNextGhostsOwed(st: State, ok: bool)
    requires GhostsOwed(st) && st.caller.at != Idle
    ensures GhostsOwed(CallerNext(st, ok))
  {
    CallerNextWellformed(st, ok);
  }

  lemma WireNextGhostsOwed(st: State, ok: bool)
    requires GhostsOwed(st) && st.loop.at in {WireQuotes, WireTrades}
    ensures GhostsOwed(LoopNext(st, ok))
  {
    LoopNextWellformed(st, ok);
  }

  lemma DiffNextGhostsOwed(st: State, ok: bool)
    requires GhostsOwed(st) && st.loop.at == Diff
    ensures GhostsOwed(LoopNext(st, ok))
  {
    LoopNextWellformed(st, ok);
    var ghosts := st.loop.resub - st.subscribed;
    assert forall x :: x in st.loop.resub ==> x in st.subscribed || x in ghosts;
  }

  lemma DropNextGhostsOwed(st: State, ok: bool)
    requires GhostsOwed(st) && Dropping(st.loop.at)
    ensures GhostsOwed(LoopNext(st, ok))
  {
    LoopNextWellformed(st, ok);
  }

  lemma PlainNextGhostsOwed(st: State, ok: bool)
    requires GhostsOwed(st) && st.loop.at != Exited
    requires st.loop.at !in {WireQuotes, WireTrades, Diff} && !Dropping(st.loop.at)
    ensures GhostsOwed(LoopNext(st, ok))
  {
    LoopNextWellformed(st, ok);
  }

  lemma LoopNextGhostsOwed(st: State, ok: bool)
    requires GhostsOwed(st) && st.loop.at != Exited
    ensures GhostsOwed(LoopNext(st, ok))
  {
    hide GhostsOwed, LoopNext;
    if st.loop.at in {WireQuotes, WireTrades} {
      WireNextGhostsOwed(st, ok);
    } else if st.loop.at == Diff {
      DiffNextGhostsOwed(st, ok);
    } else if Dropping(st.loop.at) {
      DropNextGhostsOwed(st, ok);
    } else {
      PlainNextGhostsOwed(st, ok);
    }
  }

  lemma StopNextGhostsOwed(st: State)
    requires GhostsOwed(st) && st.stopper != Finished
    ensures GhostsOwed(StopNext(st))
  {
    StopNextWellformed(st);
  }

  lemma StepGhostsOwed(st: State, a: Action)
    requires GhostsOwed(st) && Enabled(st, a)
    ensures GhostsOwed(Step(st, a))
  {
    hide GhostsOwed, CallerLock, CallerNext, LoopNext, StopNext;
    match a
    case SetSymbols(wanted) => CallerLockGhostsOwed(st, wanted);
    case CallerWire(ok) => CallerNextGhostsOwed(st, ok);
    case LoopStep(ok) => LoopNextGhostsOwed(st, ok);
    case StopStep => StopNextGhostsOwed(st);
  }

  lemma InitGhostsOwed(max: nat)
    ensures GhostsOwed(Init(max)) && Faithful(Init(max))
  {
  }

  lemma StepKeepsMax(st: State, a: Action)
    requires Wellformed(st) && Enabled(st, a)
    ensures Step(st, a).max == st.max
  {
  }

  lemma {:induction false} RunGhostsOwed(max: nat, run: seq<Action>, st: State)
    requires Reaches(max, run, st)
    ensures GhostsOwed(st) && st.max == max
    decreases |run|
  {
    hide Step, Wellformed, Enabled, GhostsOwed, Faithful;
    if run != [] {
      var n := |run| - 1;
      var before :| Reaches(max, run[..n], before) && Wellformed(before)
                    && Enabled(before, run[n]) && st == Step(before, run[n]);
      RunGhostsOwed(max, run[..n], before);
      StepGhostsOwed(before, run[n]);
      StepKeepsMax(before, run[n]);
    } else {
      InitGhostsOwed(max);
    }
  }

  /** Neither `set_symbols` nor the wiring phase of the loop is in progress. */
  predicate Quiet(st: State) {
    st.caller.at == Idle && !Wiring(st.loop.at) && st.loop.at != StopSeen
  }

  /** In every interleaving, once both threads are idle, an unfaulted current stream carries
      only subscribed symbols, hence at most `max` of them. */
  lemma NoGhostSubscription(max: nat, run: seq<Action>, st: State)
    requires Reaches(max, run, st) && Quiet(st)
    requires st.current.Some?
    ensures st.current.value < |st.wires|
    ensures var w := st.wires[st.current.value];
            !w.faulted ==> w.quotes <= st.subscribed && w.trades <= st.subscribed
                           && |w.quotes| <= max && |w.trades| <= max
  {
    RunGhostsOwed(max, run, st);
    var w := st.wires[st.current.value];
    if !w.faulted {
      SubsetSize(w.quotes, st.subscribed);
      SubsetSize(w.trades, st.subscribed);
    }
  }

  // ---- the book, the calls and the end of the loop ----

  /** The symbols last asked for, if any were. */
  function LastWanted(run: seq<Action>): set<Symbol> {
    if run == [] then {}
    else if run[|run| - 1].SetSymbols? then run[|run| - 1].wanted
    else LastWanted(run[..|run| - 1])
  }

  lemma StepKeepsBook(st: State, a: Action)
    requires Wellformed(st) && Enabled(st, a)
    ensures var after := Step(st, a);
            if a.SetSymbols?
            then after.subscribed == Keep(a.wanted, st.max) && after.overflow == a.wanted - after.subscribed
            else after.subscribed == st.subscribed && after.overflow == st.overflow
  {
  }

  /** In every reachable state the book holds the first of the symbols last asked for, the overflow the
      others, and together they are all of them. */
  lemma {:induction false} BookIsLastWanted(max: nat, run: seq<Action>, st: State)
    requires Reaches(max, run, st)
    ensures st.max == max && st.subscribed == Keep(LastWanted(run), max)
    ensures st.overflow == LastWanted(run) - st.subscribed && st.subscribed + st.overflow == LastWanted(run)
    decreases |run|
  {
    hide Wellformed, Step, Enabled, Keep;
    if run != [] {
      var n := |run| - 1;
      var before :| Reaches(max, run[..n], before) && Wellformed(before)
                    && Enabled(before, run[n]) && st == Step(before, run[n]);
      BookIsLastWanted(max, run[..n], before);
      StepKeepsBook(before, run[n]);
      StepKeepsMax(before, run[n]);
    }
  }

  /** No call is made to the library without a symbol. */
  predicate NoEmptyCalls(st: State) {
    && (st.caller.at in {AddQuotes, AddTrades} ==> st.caller.toAdd != {})
    && (st.caller.at in {DropOldQuotes, DropOldTrades} ==> st.caller.toRemove != {})
    && (st.loop.at in {WireQuotes, WireTrades} ==> st.loop.resub != {})
    && (st.loop.at in {DropGhostQuotes, DropGhostTrades} ==> st.loop.ghosts != {})
  }

  lemma StepCallsSomething(st: State, a: Action)
    requires Wellformed(st) && Enabled(st, a) && NoEmptyCalls(st)
    ensures NoEmptyCalls(Step(st, a))
  {
    hide Keep, CallerLock, CallerNext, LoopNext, StopNext, Wellformed;
    match a
    case SetSymbols(wanted) => LockCallsSomething(st, wanted);
    case CallerWire(ok) => CallerCallsSomething(st, ok);
    case LoopStep(ok) => LoopCallsSomething(st, ok);
    case StopStep => StopCallsNothing(st);
  }

  lemma LockCallsSomething(st: State, wanted: set<Symbol>)
    requires Wellformed(st) && st.caller.at == Idle && NoEmptyCalls(st)
    ensures NoEmptyCalls(CallerLock(st, wanted))
  {
    hide Keep;
  }

  lemma CallerCallsSomething(st: State, ok: bool)
    requires Wellformed(st) && st.caller.at != Idle && NoEmptyCalls(st)
    ensures NoEmptyCalls(CallerNext(st, ok))
  {
  }

  lemma LoopCallsSomething(st: State, ok: bool)
    requires Wellformed(st) && st.loop.at != Exited && NoEmptyCalls(st)
    ensures NoEmptyCalls(LoopNext(st, ok))
  {
  }

  lemma StopCallsNothing(st: State)
    requires Wellformed(st) && NoEmptyCalls(st)
    ensures NoEmptyCalls(StopNext(st))
  {
  }

  lemma {:induction false} CallsAreNotEmpty(max: nat, run: seq<Action>, st: State)
    requires Reaches(max, run, st)
    ensures NoEmptyCalls(st)
    decreases |run|
  {
    hide Wellformed, Step, Enabled, NoEmptyCalls;
    if run == [] {
      NothingCalledYet(max);
    } else {
      var n := |run| - 1;
      var before :| Reaches(max, run[..n], before) && Wellformed(before)
                    && Enabled(before, run[n]) && st == Step(before, run[n]);
      CallsAreNotEmpty(max, run[..n], before);
      StepCallsSomething(before, run[n]);
    }
  }

  lemma NothingCalledYet(max: nat)
    ensures NoEmptyCalls(Init(max))
  {
  }

  /** A call that raises adds and removes nothing and abandons the calls that were to follow it: those
      of `set_symbols`, the wiring, or the dropping of ghosts; a factory that raises makes no stream. */
  lemma RaiseAbandons(st: State)
    requires Wellformed(st)
    ensures st.caller.at != Idle ==>
              var after := CallerNext(st, false);
              && after.caller.at == Idle && after.loop == st.loop && SameWires(st, after)
    ensures st.loop.at in {Top, WireQuotes, WireTrades} && !(st.loop.at == Top && st.stopEvent) ==>
              var after := LoopNext(st, false);
              after.loop.at == Backoff && after.caller == st.caller && SameWires(st, after)
    ensures st.loop.at in {DropGhostQuotes, DropGhostTrades} ==>
              var after := LoopNext(st, false);
              after.loop.at == Running && after.caller == st.caller && SameWires(st, after)
  {
  }

  /** What the streams carry. */
  predicate SameWires(st: State, after: State) {
    && |after.wires| == |st.wires|
    && forall i :: 0 <= i < |st.wires| ==>
         after.wires[i].quotes == st.wires[i].quotes && after.wires[i].trades == st.wires[i].trades
  }

  /** How many steps the loop has left at most once it is to stop. */
  function StepsLeft(at: LoopAt): nat {
    match at
    case Exited => 0
    case Top => 1
    case Backoff => 1
    case StopCleared => 1
    case StopSeen => 2
    case Running => 2
    case Published => 3
    case DropGhostTrades => 3
    case DropGhostQuotes => 4
    case Made => 4
    case Diff => 5
    case WireTrades => 6
    case WireQuotes => 7
  }

  lemma StepTowardsEnd(st: State, a: Action)
    requires Wellformed(st) && Enabled(st, a) && st.stopEvent
    ensures Step(st, a).stopEvent
    ensures StepsLeft(Step(st, a).loop.at) + (if a.LoopStep? then 1 else 0) <= StepsLeft(st.loop.at)
  {
    hide Keep;
  }

  function LoopSteps(run: seq<Action>): nat {
    if run == [] then 0 else LoopSteps(run[..|run| - 1]) + if run[|run| - 1].LoopStep? then 1 else 0
  }

  /** Stopping ends: once `stop` has been called the loop makes at most seven more steps, whatever is
      called, answered or raised in between. */
  lemma {:induction false} StopEnds(max: nat, run: seq<Action>, st: State, more: seq<Action>, end: State)
    requires Reaches(max, run, st) && st.stopEvent && Reaches(max, run + more, end)
    ensures end.stopEvent && StepsLeft(end.loop.at) + LoopSteps(more) <= StepsLeft(st.loop.at) <= 7
    decreases |more|
  {
    hide Wellformed, Step, Enabled, StepsLeft;
    AtMostSeven(st.loop.at);
    if more == [] {
      assert run + more == run;
      SameRunSameState(max, run, st, end);
    } else {
      var n := |run + more| - 1;
      assert (run + more)[..n] == run + more[..|more| - 1];
      var before :| Reaches(max, (run + more)[..n], before) && Wellformed(before)
                    && Enabled(before, (run + more)[n]) && end == Step(before, (run + more)[n]);
      StopEnds(max, run, st, more[..|more| - 1], before);
      StepTowardsEnd(before, more[|more| - 1]);
    }
  }

  lemma AtMostSeven(at: LoopAt)
    ensures StepsLeft(at) <= 7
  {
  }

  lemma {:induction false} SameRunSameState(max: nat, run: seq<Action>, a: State, b: State)
    requires Reaches(max, run, a) && Reaches(max, run, b)
    ensures a == b
    decreases |run|
  {
    hide Wellformed, Step, Enabled;
    if run != [] {
      var n := |run| - 1;
      var x :| Reaches(max, run[..n], x) && Wellformed(x) && Enabled(x, run[n]) && a == Step(x, run[n]);
      var y :| Reaches(max, run[..n], y) && Wellformed(y) && Enabled(y, run[n]) && b == Step(y, run[n]);
      SameRunSameState(max, run[..n], x, y);
    }
  }

  // ---- nothing is lost unless a ghost is brought back ----

  /** Why x may be subscribed without being on the quotes wire of a stream: the caller or the loop
      still owes its subscription. */
  predicate QuoteDue(st: State, id: StreamId, x: Symbol) {
    || (st.caller.at == AddQuotes && st.caller.stream == id && x in st.caller.toAdd)
    || (st.loop.stream == id && st.loop.at in {Published, WireQuotes} && x in st.loop.resub)
  }

  predicate TradeDue(st: State, id: StreamId, x: Symbol) {
    || (st.caller.at in {AddQuotes, AddTrades} && st.caller.stream == id && x in st.caller.toAdd)
    || (st.loop.stream == id && st.loop.at in {Published, WireQuotes, WireTrades} && x in st.loop.resub)
  }

  ghost predicate AllDue(st: State, id: StreamId)
    requires id < |st.wires|
  {
    && (forall x :: x in st.subscribed ==> x in st.wires[id].quotes || QuoteDue(st, id, x))
    && (forall x :: x in st.subscribed ==> x in st.wires[id].trades || TradeDue(st, id, x))
    && (st.loop.stream == id && Dropping(st.loop.at) ==> st.loop.ghosts !! st.subscribed)
  }

  /** A current stream without a fault and without a revived ghost lacks nothing that is not still
      owed, and nobody is about to remove a subscribed symbol from it. */
  ghost predicate Faithful(st: State) {
    && Wellformed(st)
    && (st.caller.at != Idle ==> st.caller.toRemove !! st.subscribed)
    && (st.current.Some? && st.loop.at != StopSeen
        && !st.wires[st.current.value].faulted && !st.wires[st.current.value].revived ==>
          AllDue(st, st.current.value))
  }

  lemma LockDue(st: State, wanted: set<Symbol>, id: StreamId)
    requires st.caller.at == Idle && st.current == Some(id) && id < |st.wires| && AllDue(st, id)
    requires st.loop.stream < |st.wires| || !Wiring(st.loop.at)
    requires st.loop.stream == id ==> !Revives(st, Keep(wanted, st.max))
    ensures AllDue(CallerLock(st, wanted), id)
  {
    hide Keep;
    var keep := Keep(wanted, st.max);
    var added := keep - st.subscribed;
    assert forall x :: x in keep ==> x in st.subscribed || x in added;
    assert added != {} ==> CallerLock(st, wanted).caller.at == AddQuotes;
  }

  lemma CallerLockFaithful(st: State, wanted: set<Symbol>)
    requires Faithful(st) && st.caller.at == Idle
    ensures Faithful(CallerLock(st, wanted))
  {
    hide AllDue, Wellformed, Keep;
    CallerLockWellformed(st, wanted);
    LockMarks(st, wanted);
    if st.current.Some? && st.loop.at != StopSeen {
      var id := st.current.value;
      var after := CallerLock(st, wanted);
      if !after.wires[id].faulted && !after.wires[id].revived { LockDue(st, wanted, id); }
    }
  }

  lemma LockMarks(st: State, wanted: set<Symbol>)
    requires Wellformed(st) && st.caller.at == Idle
    ensures st.current.Some? ==> st.current.value < |st.wires|
    ensures st.loop.stream < |st.wires| || !Wiring(st.loop.at)
    ensures var after := CallerLock(st, wanted);
            && after.current == st.current && after.loop == st.loop && |after.wires| == |st.wires|
            && (after.caller.at != Idle ==> after.caller.toRemove !! after.subscribed)
            && forall id :: 0 <= id < |st.wires| ==>
                 && after.wires[id].faulted == st.wires[id].faulted
                 && after.wires[id].revived ==
                    (st.wires[id].revived || (id == st.loop.stream && Revives(st, Keep(wanted, st.max))))
  {
    hide Keep;
    assert (st.subscribed - Keep(wanted, st.max)) !! Keep(wanted, st.max);
  }

  lemma CallerNextFaithful(st: State, ok: bool)
    requires Faithful(st) && st.caller.at != Idle
    ensures Faithful(CallerNext(st, ok))
  {
    CallerNextWellformed(st, ok);
  }

  lemma WireNextFaithful(st: State, ok: bool)
    requires Faithful(st) && st.loop.at in {WireQuotes, WireTrades}
    ensures Faithful(LoopNext(st, ok))
  {
    LoopNextWellformed(st, ok);
  }

  lemma DiffNextFaithful(st: State, ok: bool)
    requires Faithful(st) && st.loop.at == Diff
    ensures Faithful(LoopNext(st, ok))
  {
    LoopNextWellformed(st, ok);
    assert (st.loop.resub - st.subscribed) !! st.subscribed;
  }

  lemma DropNextFaithful(st: State, ok: bool)
    requires Faithful(st) && Dropping(st.loop.at)
    ensures Faithful(LoopNext(st, ok))
  {
    LoopNextWellformed(st, ok);
  }

  lemma PlainNextFaithful(st: State, ok: bool)
    requires Faithful(st) && st.loop.at != Exited
    requires st.loop.at !in {WireQuotes, WireTrades, Diff} && !Dropping(st.loop.at)
    ensures Faithful(LoopNext(st, ok))
  {
    LoopNextWellformed(st, ok);
  }

  lemma LoopNextFaithful(st: State, ok: bool)
    requires Faithful(st) && st.loop.at != Exited
    ensures Faithful(LoopNext(st, ok))
  {
    hide Faithful, LoopNext;
    if st.loop.at in {WireQuotes, WireTrades} {
      WireNextFaithful(st, ok);
    } else if st.loop.at == Diff {
      DiffNextFaithful(st, ok);
    } else if Dropping(st.loop.at) {
      DropNextFaithful(st, ok);
    } else {
      PlainNextFaithful(st, ok);
    }
  }

  lemma StopNextFaithful(st: State)
    requires Faithful(st) && st.stopper != Finished
    ensures Faithful(StopNext(st))
  {
    StopNextWellformed(st);
  }

  lemma StepFaithful(st: State, a: Action)
    requires Faithful(st) && Enabled(st, a)
    ensures Faithful(Step(st, a))
  {
    hide Faithful, CallerLock, CallerNext, LoopNext, StopNext;
    match a
    case SetSymbols(wanted) => CallerLockFaithful(st, wanted);
    case CallerWire(ok) => CallerNextFaithful(st, ok);
    case LoopStep(ok) => LoopNextFaithful(st, ok);
    case StopStep => StopNextFaithful(st);
  }

  lemma {:induction false} RunFaithful(max: nat, run: seq<Action>, st: State)
    requires Reaches(max, run, st)
    ensures Faithful(st)
    decreases |run|
  {
    hide Step, Wellformed, Enabled, GhostsOwed, Faithful;
    if run != [] {
      var n := |run| - 1;
      var before :| Reaches(max, run[..n], before) && Wellformed(before)
                    && Enabled(before, run[n]) && st == Step(before, run[n]);
      RunFaithful(max, run[..n], before);
      StepFaithful(before, run[n]);
    } else {
      InitGhostsOwed(max);
    }
  }

  /** Unless some `set_symbols` brought back a symbol the loop was about to unsubscribe, the wire
      carries exactly the subscribed symbols once both threads are idle, whatever else was added
      or removed while the stream was being wired. */
  lemma UnrevivedStreamIsExact(max: nat, run: seq<Action>, st: State)
    requires Reaches(max, run, st) && Quiet(st)
    requires st.current.Some?
    ensures st.current.value < |st.wires|
    ensures var w := st.wires[st.current.value];
            !w.faulted && !w.revived ==> w.quotes == st.subscribed && w.trades == st.subscribed
  {
    RunFaithful(max, run, st);
    NoGhostSubscription(max, run, st);
    var w := st.wires[st.current.value];
    if !w.faulted && !w.revived {
      assert st.subscribed <= w.quotes && st.subscribed <= w.trades;
    }
  }

  lemma ReachesNext(max: nat, run: seq<Action>, st: State, a: Action)
    requires Reaches(max, run, st) && Wellformed(st) && Enabled(st, a)
    ensures Reaches(max, run + [a], Step(st, a)) && Wellformed(Step(st, a))
  {
    hide Wellformed, Step, Enabled;
    var longer := run + [a];
    assert longer[..|longer| - 1] == run;
    StepWellformed(st, a);
  }

  /** `set_symbols` makes its remaining wire calls while the other threads wait. */
  lemma CallerFinishes(max: nat, run: seq<Action>, st: State) returns (longer: seq<Action>, end: State)
    requires Reaches(max, run, st) && Wellformed(st)
    ensures Reaches(max, longer, end) && Wellformed(end) && run <= longer
    ensures end.caller.at == Idle && end.loop == st.loop && end.subscribed == st.subscribed && end.current == st.current
    ensures |end.wires| == |st.wires|
    decreases Remaining(st.caller.at)
  {
    hide Reaches, Wellformed;
    if st.caller.at == Idle {
      longer, end := run, st;
    } else {
      var go := CallerWire(true);
      ReachesNext(max, run, st, go);
      CallerNextKeeps(st);
      longer, end := CallerFinishes(max, run + [go], Step(st, go));
    }
  }

  function Remaining(at: CallerAt): nat {
    match at
    case AddQuotes => 4
    case AddTrades => 3
    case DropOldQuotes => 2
    case DropOldTrades => 1
    case Idle => 0
  }

  lemma CallerNextKeeps(st: State)
    requires Wellformed(st) && st.caller.at != Idle
    ensures var next := Step(st, CallerWire(true));
            && next.loop == st.loop && next.subscribed == st.subscribed && next.current == st.current
            && |next.wires| == |st.wires| && Remaining(next.caller.at) < Remaining(st.caller.at)
  {
  }

  /** The loop makes its remaining ghost removals while the other threads wait. */
  lemma LoopFinishes(max: nat, run: seq<Action>, st: State) returns (longer: seq<Action>, end: State)
    requires Reaches(max, run, st) && Wellformed(st) && Dropping(st.loop.at) && st.caller.at == Idle
    ensures Reaches(max, longer, end) && Wellformed(end) && run <= longer
    ensures end.caller.at == Idle && end.loop.at == Running && end.subscribed == st.subscribed
            && end.current == st.current
    ensures var id := st.loop.stream;
            && id < |st.wires| == |end.wires|
            && end.wires[id].trades == st.wires[id].trades - st.loop.ghosts
            && (st.loop.at == DropGhostQuotes ==> end.wires[id].quotes == st.wires[id].quotes - st.loop.ghosts)
  {
    hide Reaches, Wellformed;
    var go := LoopStep(true);
    StreamMade(st);
    ReachesNext(max, run, st, go);
    longer, end := run + [go], Step(st, go);
    if st.loop.at == DropGhostQuotes {
      ReachesNext(max, longer, end, go);
      longer, end := longer + [go], Step(end, go);
    }
  }

  lemma StreamMade(st: State)
    requires Wellformed(st) && Dropping(st.loop.at)
    ensures st.loop.stream < |st.wires|
  {
  }

  /** And whenever a ghost is brought back it can be lost: from any reachable state in which
      `set_symbols` keeps a symbol the loop is about to unsubscribe, the run has a continuation
      without a fault that ends with both threads idle, the symbol subscribed, and nothing for it
      on the trades wire, nor on the quotes wire if the loop had not passed it. */
  lemma RevivedGhostCanBeLost(max: nat, run: seq<Action>, st: State, wanted: set<Symbol>, x: Symbol)
    returns (longer: seq<Action>, end: State)
    requires Reaches(max, run, st) && st.caller.at == Idle && st.current == Some(st.loop.stream)
    requires Dropping(st.loop.at) && x in st.loop.ghosts && x in Keep(wanted, max)
    ensures Reaches(max, longer, end) && run + [SetSymbols(wanted)] <= longer && Quiet(end)
    ensures x in end.subscribed && end.current == Some(st.loop.stream) && st.loop.stream < |end.wires|
    ensures x !in end.wires[st.loop.stream].trades
    ensures st.loop.at == DropGhostQuotes ==> x !in end.wires[st.loop.stream].quotes
  {
    hide Reaches, Wellformed, Keep;
    RunGhostsOwed(max, run, st);
    OwedIsWellformed(st);
    ReachesNext(max, run, st, SetSymbols(wanted));
    LockMarks(st, wanted);
    var locked := Step(st, SetSymbols(wanted));
    longer, end := CallerFinishes(max, run + [SetSymbols(wanted)], locked);
    longer, end := LoopFinishes(max, longer, end);
  }

  lemma OwedIsWellformed(st: State)
    requires GhostsOwed(st)
    ensures Wellformed(st)
  {
  }

  /** The first stream with x subscribed (or not) and x on each wire (or not). */
  function Scene(max: nat, x: Symbol, subscribed: bool, quote: bool, trade: bool, revived: bool,
                 caller: Caller, loop: Loop): State {
    State(max, if subscribed then {x} else {}, {}, Some(0),
          [Wire(if quote then {x} else {}, if trade then {x} else {}, false, false, revived)],
          caller, loop, false, NotCalled)
  }

  lemma Singletons(x: Symbol)
    ensures {} + {x} == {x} && {x} - {x} == {} && {x} - {} == {x} && {} - {x} == {} && {x} + {x} == {x}
  {
  }

  lemma InitReached(max: nat)
    ensures Reaches(max, [], Init(max)) && Wellformed(Init(max))
  {
  }

  /** x is subscribed before the first connect; the loop then wires it. */
  lemma WireFirstStream(max: nat, x: Symbol) returns (run: seq<Action>)
    requires max >= 1
    ensures var st := Scene(max, x, true, true, true, false, Caller(Idle, 0, {}, {}), Loop(Diff, 0, {x}, {}));
            Reaches(max, run, st) && Wellformed(st)
  {
    hide Keep, Reaches;
    Singletons(x);
    var go := LoopStep(true);
    var idle := Caller(Idle, 0, {}, {});
    InitReached(max);
    ReachesNext(max, [], Init(max), SetSymbols({x}));
    var s1 := Step(Init(max), SetSymbols({x}));
    assert s1 == State(max, {x}, {}, None, [], idle, Loop(Top, 0, {}, {}), false, NotCalled);
    assert [] + [SetSymbols({x})] == [SetSymbols({x})];
    ReachesNext(max, [SetSymbols({x})], s1, go);
    ReachesNext(max, [SetSymbols({x})] + [go], Step(s1, go), go);
    var s3 := Scene(max, x, true, false, false, false, idle, Loop(Published, 0, {x}, {}));
    assert Step(Step(s1, go), go) == s3;
    run := [SetSymbols({x})] + [go] + [go];
    run := LoopWires(max, x, run, s3);
  }

  lemma LoopWires(max: nat, x: Symbol, run: seq<Action>, st: State) returns (longer: seq<Action>)
    requires st == Scene(max, x, true, false, false, false, Caller(Idle, 0, {}, {}), Loop(Published, 0, {x}, {}))
    requires Reaches(max, run, st) && Wellformed(st)
    ensures var end := Scene(max, x, true, true, true, false, Caller(Idle, 0, {}, {}), Loop(Diff, 0, {x}, {}));
            Reaches(max, longer, end) && Wellformed(end)
  {
    hide Wellformed, Reaches;
    Singletons(x);
    var go, idle := LoopStep(true), Caller(Idle, 0, {}, {});
    var s4 := Scene(max, x, true, false, false, false, idle, Loop(WireQuotes, 0, {x}, {}));
    var s5 := Scene(max, x, true, true, false, false, idle, Loop(WireTrades, 0, {x}, {}));
    ReachesNext(max, run, st, go);
    assert Step(st, go) == s4;
    ReachesNext(max, run + [go], s4, go);
    assert Step(s4, go) == s5;
    ReachesNext(max, run + [go] + [go], s5, go);
    assert Step(s5, go) == Scene(max, x, true, true, true, false, idle, Loop(Diff, 0, {x}, {}));
    longer := run + [go] + [go] + [go];
  }

  /** x is unsubscribed just before the loop looks for ghosts: both threads now remove it. */
  lemma DropBeforeDiff(max: nat, x: Symbol, run: seq<Action>, st: State) returns (longer: seq<Action>)
    requires st == Scene(max, x, true, true, true, false, Caller(Idle, 0, {}, {}), Loop(Diff, 0, {x}, {}))
    requires Reaches(max, run, st) && Wellformed(st)
    ensures var end := Scene(max, x, false, false, false, false, Caller(Idle, 0, {}, {x}),
                             Loop(DropGhostQuotes, 0, {x}, {x}));
            Reaches(max, longer, end) && Wellformed(end)
  {
    hide Keep, Wellformed, Reaches;
    Singletons(x);
    var drop, go, call := SetSymbols({}), LoopStep(true), CallerWire(true);
    var s1 := Scene(max, x, false, true, true, false, Caller(DropOldQuotes, 0, {}, {x}), Loop(Diff, 0, {x}, {}));
    var owed := Loop(DropGhostQuotes, 0, {x}, {x});
    var s2 := Scene(max, x, false, true, true, false, Caller(DropOldQuotes, 0, {}, {x}), owed);
    var s3 := Scene(max, x, false, false, true, false, Caller(DropOldTrades, 0, {}, {x}), owed);
    ReachesNext(max, run, st, drop);
    assert Step(st, drop) == s1;
    ReachesNext(max, run + [drop], s1, go);
    assert Step(s1, go) == s2;
    ReachesNext(max, run + [drop] + [go], s2, call);
    assert Step(s2, call) == s3;
    ReachesNext(max, run + [drop] + [go] + [call], s3, call);
    assert Step(s3, call) == Scene(max, x, false, false, false, false, Caller(Idle, 0, {}, {x}), owed);
    longer := run + [drop] + [go] + [call] + [call];
  }

  /** The other half of the subset theorem fails: a remove and re-add of x around the ghost
      removal leaves x subscribed but on neither wire, with nothing left to do. */
  lemma ReaddedSymbolCanBeLost(max: nat, x: Symbol) returns (run: seq<Action>, st: State)
    requires max >= 1
    ensures Reaches(max, run, st) && Quiet(st) && st.loop.at == Running
    ensures st.current == Some(0) && |st.wires| == 1 && !st.wires[0].faulted
    ensures st.subscribed == {x} && st.wires[0].quotes == {} && st.wires[0].trades == {}
  {
    hide Keep, Wellformed, Reaches;
    Singletons(x);
    run := WireFirstStream(max, x);
    run := DropBeforeDiff(max, x, run,
                          Scene(max, x, true, true, true, false, Caller(Idle, 0, {}, {}), Loop(Diff, 0, {x}, {})));
    var add, go, call := SetSymbols({x}), LoopStep(true), CallerWire(true);
    var owed := Loop(DropGhostQuotes, 0, {x}, {x});
    var s0 := Scene(max, x, false, false, false, false, Caller(Idle, 0, {}, {x}), owed);
    var s1 := Scene(max, x, true, false, false, true, Caller(AddQuotes, 0, {x}, {}), owed);
    var s2 := Scene(max, x, true, true, false, true, Caller(AddTrades, 0, {x}, {}), owed);
    var s3 := Scene(max, x, true, true, true, true, Caller(Idle, 0, {x}, {}), owed);
    var s4 := Scene(max, x, true, false, true, true, Caller(Idle, 0, {x}, {}), Loop(DropGhostTrades, 0, {x}, {x}));
    st := Scene(max, x, true, false, false, true, Caller(Idle, 0, {x}, {}), Loop(Running, 0, {x}, {x}));
    ReachesNext(max, run, s0, add);
    assert Step(s0, add) == s1;
    ReachesNext(max, run + [add], s1, call);
    assert Step(s1, call) == s2;
    ReachesNext(max, run + [add] + [call], s2, call);
    assert Step(s2, call) == s3;
    ReachesNext(max, run + [add] + [call] + [call], s3, go);
    assert Step(s3, go) == s4;
    ReachesNext(max, run + [add] + [call] + [call] + [go], s4, go);
    assert Step(s4, go) == st;
    run := run + [add] + [call] + [call] + [go] + [go];
  }

  // ---- stop ----

  /** The loop went past its stop check with this stream and is still using it. */
  predicate PastStopCheck(at: LoopAt) {
    at in {WireQuotes, WireTrades, Diff, DropGhostQuotes, DropGhostTrades, Running}
  }

  predicate StopSafe(st: State) {
    && Wellformed(st)
    && (st.loop.at in {StopSeen, StopCleared, Exited} ==> st.stopEvent)
    && (st.stopper.Taken? || st.stopper.Finished? ==>
          && (PastStopCheck(st.loop.at) ==>
                st.stopper == Taken(Some(st.loop.stream)) || st.wires[st.loop.stream].stopped)
          && (st.loop.at !in {Published, StopSeen} ==> st.current == None))
  }

  lemma LoopNextStopSafe(st: State, ok: bool)
    requires StopSafe(st) && st.loop.at != Exited
    ensures StopSafe(LoopNext(st, ok))
  {
    LoopNextWellformed(st, ok);
  }

  lemma StepStopSafe(st: State, a: Action)
    requires StopSafe(st) && Enabled(st, a)
    ensures StopSafe(Step(st, a))
  {
    if a.LoopStep? {
      hide LoopNext, StopSafe;
      LoopNextStopSafe(st, a.ok);
    } else {
      hide Keep;
      StepWellformed(st, a);
    }
  }

  lemma {:induction false} RunStopSafe(max: nat, run: seq<Action>, st: State)
    requires Reaches(max, run, st)
    ensures StopSafe(st)
    decreases |run|
  {
    hide Step, Wellformed, Enabled;
    if run != [] {
      var n := |run| - 1;
      var before :| Reaches(max, run[..n], before) && Wellformed(before)
                    && Enabled(before, run[n]) && st == Step(before, run[n]);
      RunStopSafe(max, run[..n], before);
      StepStopSafe(before, run[n]);
    } else {
      InitGhostsOwed(max);
    }
  }

  /** However `stop` interleaves with the factory and the check, when it has finished no stream
      past the check is still open, and once the loop has left nothing is published. */
  lemma NoZombieStream(max: nat, run: seq<Action>, st: State)
    requires Reaches(max, run, st) && st.stopper == Finished
    ensures PastStopCheck(st.loop.at) ==> st.loop.stream < |st.wires| && st.wires[st.loop.stream].stopped
    ensures st.loop.at == Exited ==> st.current == None
  {
    RunStopSafe(max, run, st);
  }
}

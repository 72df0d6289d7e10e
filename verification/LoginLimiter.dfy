/** The sliding-window login limiter: pruned buckets against the full history of failures. */
module LoginLimiter {
  import opened Sets

  /** A username with a client host. */
  type Bucket = (string, string)

  datatype Config = Config(maxAttempts: int, window: int)

  const MAX_BUCKETS: nat := 10_000

  /** The times after a cut-off, in order. */
  function Recent(times: seq<int>, cutoff: int): (r: seq<int>)
    ensures |r| <= |times|
  {
    if times == [] then []
    else Recent(times[..|times| - 1], cutoff) + if times[|times| - 1] > cutoff then [times[|times| - 1]] else []
  }

  lemma {:induction false} RecentAppend(a: seq<int>, b: seq<int>, cutoff: int)
    ensures Recent(a + b, cutoff) == Recent(a, cutoff) + Recent(b, cutoff)
    decreases |b|
  {
    if b == [] {
      assert a + b == a;
    } else {
      assert (a + b)[..|a + b| - 1] == a + b[..|b| - 1];
      RecentAppend(a, b[..|b| - 1], cutoff);
    }
  }

  /** Cutting at an earlier time first changes nothing. */
  lemma {:induction false} RecentOfRecent(times: seq<int>, earlier: int, later: int)
    requires earlier <= later
    ensures Recent(Recent(times, earlier), later) == Recent(times, later)
    decreases |times|
  {
    hide Recent;
    if times == [] {
      NoTimes(earlier);
      NoTimes(later);
    } else {
      var front, t := times[..|times| - 1], times[|times| - 1];
      assert times == front + [t];
      RecentOfRecent(front, earlier, later);
      RecentAppend(front, [t], earlier);
      RecentAppend(front, [t], later);
      OneTime(t, earlier);
      OneTime(t, later);
      RecentAppend(Recent(front, earlier), Recent([t], earlier), later);
      NoTimes(later);
    }
  }

  type Buckets = map<Bucket, seq<int>>

  function Times(buckets: Buckets, key: Bucket): seq<int> {
    if key in buckets then buckets[key] else []
  }

  /** A pruned bucket and the full history agree on everything after the cut-off. */
  predicate Agrees(buckets: Buckets, history: Buckets, key: Bucket, cutoff: int) {
    Recent(Times(buckets, key), cutoff) == Recent(Times(history, key), cutoff)
  }

  ghost predicate AllAgree(buckets: Buckets, history: Buckets, cutoff: int) {
    forall key :: Agrees(buckets, history, key, cutoff)
  }

  lemma AgreeLater(buckets: Buckets, history: Buckets, earlier: int, later: int)
    requires earlier <= later && AllAgree(buckets, history, earlier)
    ensures AllAgree(buckets, history, later)
  {
    hide Recent;
    forall key ensures Agrees(buckets, history, key, later) {
      assert Agrees(buckets, history, key, earlier);
      RecentOfRecent(Times(buckets, key), earlier, later);
      RecentOfRecent(Times(history, key), earlier, later);
    }
  }

  /** Both sides of one bucket moved, the others left alone. */
  lemma AgreeOther(buckets: Buckets, history: Buckets, cutoff: int, key: Bucket, moved: Buckets, movedHistory: Buckets)
    requires AllAgree(buckets, history, cutoff)
    requires forall other :: other != key ==>
               Times(moved, other) == Times(buckets, other) && Times(movedHistory, other) == Times(history, other)
    requires Agrees(moved, movedHistory, key, cutoff)
    ensures AllAgree(moved, movedHistory, cutoff)
  {
    hide Recent;
    forall other ensures Agrees(moved, movedHistory, other, cutoff) {
      if other != key { assert Agrees(buckets, history, other, cutoff); }
    }
  }

  /** The buckets without those that have fully aged out. */
  function Evicted(buckets: Buckets, cutoff: int): Buckets {
    map key | key in buckets && Recent(buckets[key], cutoff) != [] :: buckets[key]
  }

  lemma AgreeEvicted(buckets: Buckets, history: Buckets, cutoff: int)
    requires AllAgree(buckets, history, cutoff)
    ensures AllAgree(Evicted(buckets, cutoff), history, cutoff)
  {
    forall key ensures Agrees(Evicted(buckets, cutoff), history, key, cutoff) {
      assert Agrees(buckets, history, key, cutoff);
    }
  }

  class Limiter {
    const config: Config
    var attempts: Buckets
    /** Every failure recorded since the bucket was last cleared. */
    ghost var history: Buckets
    ghost var clock: int
    /** Whether the clock has never gone back. */
    ghost var steady: bool

    constructor (config: Config, start: int)
      ensures Valid() && steady && clock == start && this.config == config && history == map[]
    {
      this.config := config;
      attempts, history, clock, steady := map[], map[], start, true;
    }

    ghost predicate Valid()
      reads this
    {
      steady ==> AllAgree(attempts, history, clock - config.window)
    }

    /** Ghost bookkeeping of the clock. */
    ghost method Tick(ts: int)
      requires Valid()
      modifies this`clock, this`steady
      ensures Valid() && clock == ts && steady == (old(steady) && old(clock) <= ts)
    {
      hide AllAgree;
      if steady && clock <= ts { AgreeLater(attempts, history, clock - config.window, ts - config.window); }
      steady := steady && clock <= ts;
      clock := ts;
    }

    /** Limited exactly when the full history holds that many failures inside the window. */
    method LoginIsRateLimited(key: Bucket, ts: int) returns (limited: bool)
      requires Valid()
      modifies this
      ensures Valid() && history == old(history) && clock == ts && steady == (old(steady) && old(clock) <= ts)
      ensures steady ==> (limited <==> |Recent(Times(history, key), ts - config.window)| >= config.maxAttempts)
    {
      hide AllAgree, Recent;
      Tick(ts);
      var recent := Recent(if key in attempts then attempts[key] else [], ts - config.window);
      if steady { Pruned(attempts, history, key, recent, ts - config.window); }
      if recent != [] {
        attempts := attempts[key := recent];
      } else {
        attempts := attempts - {key};
      }
      limited := |recent| >= config.maxAttempts;
    }

    /** Records one failure and counts those in the window, itself included. */
    method RecordFailedLogin(key: Bucket, ts: int) returns (count: nat)
      requires Valid()
      modifies this
      ensures Valid() && clock == ts && steady == (old(steady) && old(clock) <= ts)
      ensures history == old(history)[key := Times(old(history), key) + [ts]]
      ensures steady && config.window > 0 ==> count == |Recent(Times(history, key), ts - config.window)|
    {
      hide AllAgree, Recent;
      Tick(ts);
      if |attempts| >= MAX_BUCKETS && key !in attempts {
        if steady { AgreeEvicted(attempts, history, ts - config.window); }
        attempts := Evicted(attempts, ts - config.window);
      }
      var recent := Recent(if key in attempts then attempts[key] else [], ts - config.window);
      if steady { Extended(attempts, history, key, recent, ts, config.window); }
      recent := recent + [ts];
      attempts := attempts[key := recent];
      history := history[key := Times(history, key) + [ts]];
      count := |recent|;
    }

    method ClearLoginAttempts(key: Bucket)
      requires Valid()
      modifies this`attempts, this`history
      ensures Valid() && history == old(history) - {key}
    {
      hide AllAgree, Recent;
      if steady {
        Forgotten(attempts, history, key, clock - config.window);
      }
      attempts := attempts - {key};
      history := history - {key};
    }

    method ResetLoginRateLimit()
      requires Valid()
      modifies this`attempts, this`history
      ensures Valid() && history == map[]
    {
      attempts := map[];
      history := map[];
    }
  }

  lemma Pruned(buckets: Buckets, history: Buckets, key: Bucket, recent: seq<int>, cutoff: int)
    requires AllAgree(buckets, history, cutoff) && recent == Recent(Times(buckets, key), cutoff)
    ensures recent == Recent(Times(history, key), cutoff)
    ensures AllAgree(if recent != [] then buckets[key := recent] else buckets - {key}, history, cutoff)
  {
    hide AllAgree, Recent;
    var moved := if recent != [] then buckets[key := recent] else buckets - {key};
    assert Agrees(buckets, history, key, cutoff) by { AgreesAt(buckets, history, key, cutoff); }
    RecentOfRecent(Times(buckets, key), cutoff, cutoff);
    NoTimes(cutoff);
    AgreeOther(buckets, history, cutoff, key, moved, history);
  }

  lemma AgreesAt(buckets: Buckets, history: Buckets, key: Bucket, cutoff: int)
    requires AllAgree(buckets, history, cutoff)
    ensures Agrees(buckets, history, key, cutoff)
  {
  }

  lemma NoTimes(cutoff: int)
    ensures Recent([], cutoff) == []
  {
  }

  lemma Extended(buckets: Buckets, history: Buckets, key: Bucket, recent: seq<int>, ts: int, window: int)
    requires AllAgree(buckets, history, ts - window) && recent == Recent(Times(buckets, key), ts - window)
    ensures AllAgree(buckets[key := recent + [ts]], history[key := Times(history, key) + [ts]], ts - window)
    ensures window > 0 ==> recent + [ts] == Recent(Times(history, key) + [ts], ts - window)
  {
    hide AllAgree, Recent;
    var cutoff := ts - window;
    AgreesAt(buckets, history, key, cutoff);
    RecentOfRecent(Times(buckets, key), cutoff, cutoff);
    RecentAppend(recent, [ts], cutoff);
    RecentAppend(Times(history, key), [ts], cutoff);
    OneTime(ts, cutoff);
    AgreeOther(buckets, history, cutoff, key, buckets[key := recent + [ts]],
               history[key := Times(history, key) + [ts]]);
  }

  lemma OneTime(t: int, cutoff: int)
    ensures Recent([t], cutoff) == if t > cutoff then [t] else []
  {
    assert [t][..0] == [];
    NoTimes(cutoff);
  }

  lemma Forgotten(buckets: Buckets, history: Buckets, key: Bucket, cutoff: int)
    requires AllAgree(buckets, history, cutoff)
    ensures AllAgree(buckets - {key}, history - {key}, cutoff)
  {
    hide AllAgree, Recent;
    AgreeOther(buckets, history, cutoff, key, buckets - {key}, history - {key});
  }

  // ---- how many failures one window can hold ----

  /** One recorded failure, with what its own check saw: how many failures had been recorded, and
      when. */
  datatype Failure = Failure(time: int, seen: nat, checkedAt: int)

  function TimesOf(failures: seq<Failure>): seq<int> {
    seq(|failures|, i requires 0 <= i < |failures| => failures[i].time)
  }

  /** Every attempt of one bucket was checked before it was recorded, by a clock that never goes
      back, and its check did not find the bucket limited. */
  ghost predicate AllChecked(config: Config, failures: seq<Failure>) {
    && (forall i, j :: 0 <= i <= j < |failures| ==> failures[i].time <= failures[j].time)
    && forall j :: 0 <= j < |failures| ==> CheckedBefore(config, failures, j)
  }

  predicate CheckedBefore(config: Config, failures: seq<Failure>, j: nat)
    requires j < |failures|
  {
    && failures[j].seen <= j && failures[j].checkedAt <= failures[j].time
    && |Recent(TimesOf(failures[..failures[j].seen]), failures[j].checkedAt - config.window)| < config.maxAttempts
  }

  /** The attempts already checked when n failures had been recorded, and recorded later. */
  function InFlight(failures: seq<Failure>, n: nat): set<nat> {
    set j: nat | n <= j < |failures| && failures[j].seen <= n
  }

  ghost predicate AtMostInFlight(failures: seq<Failure>, p: nat) {
    forall n: nat :: |InFlight(failures, n)| <= p
  }

  /** The failures i to j all lie in one window ending at a given time. */
  predicate InWindow(failures: seq<Failure>, i: nat, j: nat, end: int, window: int)
    requires i <= j <= |failures|
  {
    forall k :: i <= k < j ==> end - window < failures[k].time <= end
  }

  function MostSeen(failures: seq<Failure>, i: nat, j: nat): (m: nat)
    requires i < j <= |failures|
    ensures exists k :: i <= k < j && failures[k].seen == m
    ensures forall k :: i <= k < j ==> failures[k].seen <= m
    decreases j - i
  {
    if j == i + 1 then
      assert failures[i].seen == failures[i].seen;
      failures[i].seen
    else
      var rest := MostSeen(failures, i, j - 1);
      if failures[j - 1].seen > rest then failures[j - 1].seen else rest
  }

  lemma {:induction false} RecentKeepsAll(times: seq<int>, a: nat, cutoff: int)
    requires a <= |times| && forall i :: a <= i < |times| ==> times[i] > cutoff
    ensures |times| - a <= |Recent(times, cutoff)|
    decreases |times|
  {
    if a < |times| { RecentKeepsAll(times[..|times| - 1], a, cutoff); }
  }

  function Interval(lo: nat, hi: nat): (s: set<nat>)
    requires lo <= hi
    ensures forall k: nat :: k in s <==> lo <= k < hi
    ensures |s| == hi - lo
  {
    if lo == hi then {} else Interval(lo, hi - 1) + {hi - 1}
  }

  /** Between clears, with every attempt checked first and at most p of them between their check and
      their record at once, no window holds more than maxAttempts + p - 1 recorded failures: exactly
      maxAttempts when attempts come one at a time. */
  lemma WindowBound(config: Config, failures: seq<Failure>, p: nat, i: nat, j: nat, end: int)
    requires AllChecked(config, failures) && AtMostInFlight(failures, p)
    requires i < j <= |failures| && InWindow(failures, i, j, end, config.window)
    ensures j - i <= config.maxAttempts + p - 1
  {
    hide Recent, InFlight;
    var n := MostSeen(failures, i, j);
    var k :| i <= k < j && failures[k].seen == n;
    assert CheckedBefore(config, failures, k);
    if n >= i { SeenByCheck(config, failures, i, j, k, end); }
    InFlightHolds(failures, if n >= i then n else i, j, n);
    var later := if n >= i then n else i;
    assert |InFlight(failures, later)| <= p;
    if n < i { CheckLeavesRoom(config, failures, k); }
  }

  lemma SeenByCheck(config: Config, failures: seq<Failure>, i: nat, j: nat, k: nat, end: int)
    requires i <= k < j <= |failures| && InWindow(failures, i, j, end, config.window)
             && CheckedBefore(config, failures, k)
    requires i <= failures[k].seen
    ensures failures[k].seen - i <= config.maxAttempts - 1
  {
    hide Recent;
    var n := failures[k].seen;
    var before := TimesOf(failures[..n]);
    RecentKeepsAll(before, i, failures[k].checkedAt - config.window);
  }

  lemma CheckLeavesRoom(config: Config, failures: seq<Failure>, k: nat)
    requires k < |failures| && CheckedBefore(config, failures, k)
    ensures config.maxAttempts >= 1
  {
  }

  lemma InFlightHolds(failures: seq<Failure>, lo: nat, hi: nat, n: nat)
    requires lo <= hi <= |failures| && n <= lo && forall k :: lo <= k < hi ==> failures[k].seen <= n
    ensures hi - lo <= |InFlight(failures, lo)|
  {
    SubsetSize(Interval(lo, hi), InFlight(failures, lo));
  }

  /** One attempt at a time: every check sees all failures recorded before its own. */
  lemma OneAtATime(config: Config, failures: seq<Failure>, i: nat, j: nat, end: int)
    requires AllChecked(config, failures) && forall k :: 0 <= k < |failures| ==> failures[k].seen == k
    requires i < j <= |failures| && InWindow(failures, i, j, end, config.window)
    ensures j - i <= config.maxAttempts
  {
    forall n: nat ensures |InFlight(failures, n)| <= 1 {
      assert InFlight(failures, n) <= {n};
      SubsetSize(InFlight(failures, n), {n});
    }
    WindowBound(config, failures, 1, i, j, end);
  }

  /** m - 1 failures one at a time, then p attempts that were all checked before any of them failed. */
  function Burst(m: nat, p: nat, time: int): seq<Failure>
    requires m >= 1
  {
    seq(m - 1 + p, j requires 0 <= j < m - 1 + p => Failure(time, if j < m - 1 then j else m - 1, time))
  }

  /** The bound is attained, for every limit, window and number in flight. */
  lemma BoundIsAttained(config: Config, p: nat, time: int)
    requires config.maxAttempts >= 1 && config.window > 0 && p >= 1
    ensures var failures := Burst(config.maxAttempts, p, time);
            && AllChecked(config, failures) && AtMostInFlight(failures, p)
            && |failures| == config.maxAttempts + p - 1 && InWindow(failures, 0, |failures|, time, config.window)
  {
    hide Recent;
    var m, failures := config.maxAttempts, Burst(config.maxAttempts, p, time);
    forall j | 0 <= j < |failures| ensures CheckedBefore(config, failures, j) { }
    forall n: nat ensures |InFlight(failures, n)| <= p {
      if n < m - 1 {
        SubsetSize(InFlight(failures, n), {n});
      } else {
        SubsetSize(InFlight(failures, n), Interval(m - 1, m - 1 + p));
      }
    }
  }

  /** No window holds more failures than the limit, whatever the schedule. */
  ghost predicate LimitHolds(config: Config, p: nat) {
    forall failures: seq<Failure>, i: nat, j: nat, end: int ::
      (AllChecked(config, failures) && AtMostInFlight(failures, p) && i < j <= |failures|
       && InWindow(failures, i, j, end, config.window)) ==> j - i <= config.maxAttempts
  }

  /** The limit itself holds exactly when at most one attempt is in flight at a time. */
  lemma LimitHoldsIffOneInFlight(config: Config, p: nat)
    requires config.maxAttempts >= 1 && config.window > 0
    ensures LimitHolds(config, p) <==> p <= 1
  {
    hide AllChecked, AtMostInFlight, InWindow;
    if p <= 1 {
      forall failures: seq<Failure>, i: nat, j: nat, end: int
        | AllChecked(config, failures) && AtMostInFlight(failures, p) && i < j <= |failures|
          && InWindow(failures, i, j, end, config.window)
        ensures j - i <= config.maxAttempts
      {
        WindowBound(config, failures, p, i, j, end);
      }
    } else {
      BoundIsAttained(config, p, 0);
      var failures := Burst(config.maxAttempts, p, 0);
      assert AllChecked(config, failures) && AtMostInFlight(failures, p) && 0 < |failures| <= |failures|
             && InWindow(failures, 0, |failures|, 0, config.window) && |failures| - 0 > config.maxAttempts;
    }
  }

  // ---- the login route ----

  /** An attempt that was let through and has not failed or succeeded yet. */
  datatype Pending = Pending(seen: nat, checkedAt: int)

  /** The attempts of one bucket since it was last cleared. */
  datatype Desk = Desk(failures: seq<Failure>, pending: seq<Pending>)

  function Without(pending: seq<Pending>, k: nat): seq<Pending>
    requires k < |pending|
  {
    pending[..k] + pending[k + 1..]
  }

  function LetThrough(desk: Desk, ts: int): Desk {
    desk.(pending := desk.pending + [Pending(|desk.failures|, ts)])
  }

  function Failed(desk: Desk, k: nat, ts: int): Desk
    requires k < |desk.pending|
  {
    Desk(desk.failures + [Failure(ts, desk.pending[k].seen, desk.pending[k].checkedAt)], Without(desk.pending, k))
  }

  /** A correct password: the bucket is forgotten, the other attempts go on. */
  function Cleared(desk: Desk, k: nat): Desk
    requires k < |desk.pending|
  {
    var rest := Without(desk.pending, k);
    Desk([], seq(|rest|, i requires 0 <= i < |rest| => Pending(0, rest[i].checkedAt)))
  }

  /** How many of the pending attempts were checked when at most n failures had been recorded. */
  function EarlyPending(pending: seq<Pending>, n: nat): (c: nat)
    ensures c <= |pending|
    ensures (forall x :: x in pending ==> x.seen <= n) ==> c == |pending|
    ensures (forall x :: x in pending ==> x.seen > n) ==> c == 0
  {
    if pending == [] then 0
    else
      var last := pending[|pending| - 1];
      assert last in pending;
      EarlyPending(pending[..|pending| - 1], n) + if last.seen <= n then 1 else 0
  }

  lemma {:induction false} EarlyOfBoth(a: seq<Pending>, b: seq<Pending>, n: nat)
    ensures EarlyPending(a + b, n) == EarlyPending(a, n) + EarlyPending(b, n)
    decreases |b|
  {
    if b == [] {
      assert a + b == a;
    } else {
      assert (a + b)[..|a + b| - 1] == a + b[..|b| - 1];
      EarlyOfBoth(a, b[..|b| - 1], n);
    }
  }

  lemma EarlyWithout(pending: seq<Pending>, k: nat, n: nat)
    requires k < |pending|
    ensures EarlyPending(pending, n) == EarlyPending(Without(pending, k), n) + if pending[k].seen <= n then 1 else 0
  {
    assert pending == pending[..k] + ([pending[k]] + pending[k + 1..]);
    EarlyOfBoth(pending[..k], [pending[k]] + pending[k + 1..], n);
    EarlyOfBoth([pending[k]], pending[k + 1..], n);
    EarlyOfBoth(pending[..k], pending[k + 1..], n);
  }

  /** What the check of a pending attempt established. */
  predicate PendingOk(config: Config, desk: Desk, c: Pending, clock: int) {
    && c.seen <= |desk.failures| && c.checkedAt <= clock
    && |Recent(TimesOf(desk.failures[..c.seen]), c.checkedAt - config.window)| < config.maxAttempts
  }

  ghost predicate FlightOk(desk: Desk, p: nat) {
    forall n: nat :: n <= |desk.failures| ==> |InFlight(desk.failures, n)| + EarlyPending(desk.pending, n) <= p
  }

  ghost predicate DeskOk(config: Config, desk: Desk, clock: int, p: nat) {
    && AllChecked(config, desk.failures)
    && (forall f :: f in desk.failures ==> f.time <= clock)
    && (forall c :: c in desk.pending ==> PendingOk(config, desk, c, clock))
    && FlightOk(desk, p)
  }

  lemma DeskLater(config: Config, desk: Desk, earlier: int, later: int, p: nat)
    requires earlier <= later && DeskOk(config, desk, earlier, p)
    ensures DeskOk(config, desk, later, p)
  {
    hide AllChecked, FlightOk, Recent;
    assert forall c :: c in desk.pending && PendingOk(config, desk, c, earlier) ==> PendingOk(config, desk, c, later);
  }

  lemma LetThroughOk(config: Config, desk: Desk, ts: int, p: nat)
    requires DeskOk(config, desk, ts, p) && |desk.pending| < p
    requires |Recent(TimesOf(desk.failures), ts - config.window)| < config.maxAttempts
    ensures DeskOk(config, LetThrough(desk, ts), ts, p)
  {
    hide AllChecked, FlightOk, Recent, InFlight, TimesOf;
    var after, c := LetThrough(desk, ts), Pending(|desk.failures|, ts);
    assert desk.failures[..|desk.failures|] == desk.failures;
    assert PendingOk(config, after, c, ts);
    forall x | x in after.pending ensures PendingOk(config, after, x, ts) {
      assert x in desk.pending ==> PendingOk(config, desk, x, ts);
    }
    LetThroughFlight(desk, ts, p);
  }

  lemma LetThroughFlight(desk: Desk, ts: int, p: nat)
    requires FlightOk(desk, p) && |desk.pending| < p
    ensures FlightOk(LetThrough(desk, ts), p)
  {
    var after, c := LetThrough(desk, ts), Pending(|desk.failures|, ts);
    forall n: nat | n <= |after.failures| ensures |InFlight(after.failures, n)| + EarlyPending(after.pending, n) <= p {
      EarlyOfBoth(desk.pending, [c], n);
      if n == |desk.failures| { assert InFlight(desk.failures, n) == {}; }
    }
  }

  lemma FailedOk(config: Config, desk: Desk, k: nat, ts: int, p: nat)
    requires k < |desk.pending| && DeskOk(config, desk, ts, p)
    ensures DeskOk(config, Failed(desk, k, ts), ts, p)
  {
    hide FlightOk, Recent, AllChecked, CheckedBefore;
    var after, c := Failed(desk, k, ts), desk.pending[k];
    assert c in desk.pending;
    FailedChecked(config, desk, k, ts);
    forall x | x in after.pending ensures PendingOk(config, after, x, ts) {
      assert x in desk.pending && PendingOk(config, desk, x, ts);
      assert after.failures[..x.seen] == desk.failures[..x.seen];
    }
    assert forall x :: x in desk.pending && PendingOk(config, desk, x, ts) ==> x.seen <= |desk.failures|;
    FailedFlight(desk, k, ts, p);
  }

  lemma FailedChecked(config: Config, desk: Desk, k: nat, ts: int)
    requires k < |desk.pending| && AllChecked(config, desk.failures) && PendingOk(config, desk, desk.pending[k], ts)
    requires forall f :: f in desk.failures ==> f.time <= ts
    ensures AllChecked(config, Failed(desk, k, ts).failures)
  {
    hide Recent;
    var failures, n := Failed(desk, k, ts).failures, |desk.failures|;
    forall j | 0 <= j < |failures| ensures CheckedBefore(config, failures, j) {
      assert j < n ==> CheckedBefore(config, desk.failures, j);
      assert failures[..failures[j].seen] == desk.failures[..failures[j].seen];
    }
    forall i, j | 0 <= i <= j < |failures| ensures failures[i].time <= failures[j].time {
      if i < n { assert desk.failures[i] in desk.failures; }
    }
  }

  lemma FailedFlight(desk: Desk, k: nat, ts: int, p: nat)
    requires k < |desk.pending| && FlightOk(desk, p) && forall c :: c in desk.pending ==> c.seen <= |desk.failures|
    ensures FlightOk(Failed(desk, k, ts), p)
  {
    hide InFlight;
    var after, size, seen := Failed(desk, k, ts), |desk.failures|, desk.pending[k].seen;
    forall n: nat | n <= |after.failures| ensures |InFlight(after.failures, n)| + EarlyPending(after.pending, n) <= p {
      if n <= size {
        EarlyWithout(desk.pending, k, n);
        OneMoreInFlight(desk.failures, after.failures[size], n);
      } else {
        NoneInFlight(after.failures, n);
        AllPendingCounted(desk, p);
      }
    }
  }

  lemma OneMoreInFlight(failures: seq<Failure>, f: Failure, n: nat)
    requires n <= |failures|
    ensures |InFlight(failures + [f], n)| == |InFlight(failures, n)| + if f.seen <= n then 1 else 0
  {
    assert InFlight(failures + [f], n) == InFlight(failures, n) + if f.seen <= n then {|failures|} else {};
  }

  lemma NoneInFlight(failures: seq<Failure>, n: nat)
    requires n >= |failures|
    ensures InFlight(failures, n) == {}
  {
  }

  lemma AllPendingCounted(desk: Desk, p: nat)
    requires FlightOk(desk, p) && forall c :: c in desk.pending ==> c.seen <= |desk.failures|
    ensures |desk.pending| <= p
  {
    assert |InFlight(desk.failures, |desk.failures|)| + EarlyPending(desk.pending, |desk.failures|) <= p;
  }

  lemma ClearedOk(config: Config, desk: Desk, k: nat, clock: int, p: nat)
    requires k < |desk.pending| && DeskOk(config, desk, clock, p)
    ensures DeskOk(config, Cleared(desk, k), clock, p)
  {
    hide Recent;
    var after, rest := Cleared(desk, k), Without(desk.pending, k);
    AllPendingCounted(desk, p) by { assert forall c :: c in desk.pending ==> PendingOk(config, desk, c, clock); }
    forall x | x in after.pending ensures PendingOk(config, after, x, clock) {
      var i :| 0 <= i < |rest| && x == Pending(0, rest[i].checkedAt);
      assert rest[i] in desk.pending && PendingOk(config, desk, rest[i], clock);
      assert after.failures[..0] == [];
      NoTimes(x.checkedAt - config.window);
    }
    assert InFlight([], 0) == {};
  }

  lemma DroppedOk(config: Config, desk: Desk, k: nat, clock: int, p: nat)
    requires k < |desk.pending| && DeskOk(config, desk, clock, p)
    ensures DeskOk(config, desk.(pending := Without(desk.pending, k)), clock, p)
  {
    hide Recent, InFlight, AllChecked;
    var after := desk.(pending := Without(desk.pending, k));
    forall x | x in after.pending ensures PendingOk(config, after, x, clock) {
      assert x in desk.pending && PendingOk(config, desk, x, clock);
    }
    forall n: nat | n <= |after.failures| ensures |InFlight(after.failures, n)| + EarlyPending(after.pending, n) <= p {
      EarlyWithout(desk.pending, k, n);
    }
  }

  /** The login route over one limiter, watched at one bucket; attempts overlap, at most `most` of
      the watched bucket's at once. */
  class LoginRoute {
    const limiter: Limiter
    ghost const watched: Bucket
    ghost const most: nat
    ghost var desk: Desk

    constructor (config: Config, start: int, ghost watched: Bucket, ghost most: nat)
      ensures Valid() && fresh(limiter) && limiter.steady && limiter.clock == start && limiter.config == config
      ensures this.watched == watched && this.most == most && desk == Desk([], [])
    {
      limiter := new Limiter(config, start);
      this.watched, this.most, desk := watched, most, Desk([], []);
      new;
      assert forall n: nat :: InFlight([], n) == {};
    }

    ghost predicate Valid()
      reads this, limiter
    {
      && limiter.Valid()
      && Times(limiter.history, watched) == TimesOf(desk.failures)
      && (limiter.steady ==> DeskOk(limiter.config, desk, limiter.clock, most))
    }

    /** An attempt arrives: refused, or let through to the password check. */
    method Arrive(key: Bucket, ts: int) returns (limited: bool)
      requires Valid() && (key == watched ==> |desk.pending| < most)
      modifies this`desk, limiter
      ensures Valid() && limiter.clock == ts && limiter.steady == (old(limiter.steady) && old(limiter.clock) <= ts)
      ensures limiter.steady ==>
                (limited <==>
                 |Recent(Times(old(limiter.history), key), ts - limiter.config.window)| >= limiter.config.maxAttempts)
      ensures desk == if key == watched && !limited then LetThrough(old(desk), ts) else old(desk)
      ensures limiter.history == old(limiter.history)
    {
      hide DeskOk, Recent;
      if limiter.steady && limiter.clock <= ts { DeskLater(limiter.config, desk, limiter.clock, ts, most); }
      limited := limiter.LoginIsRateLimited(key, ts);
      if key == watched && !limited {
        if limiter.steady { LetThroughOk(limiter.config, desk, ts, most); }
        desk := LetThrough(desk, ts);
      }
    }

    /** A wrong password is recorded. */
    method WrongPassword(key: Bucket, ghost k: nat, ts: int)
      requires Valid() && (key == watched ==> k < |desk.pending|)
      modifies this`desk, limiter
      ensures Valid() && limiter.clock == ts && limiter.steady == (old(limiter.steady) && old(limiter.clock) <= ts)
      ensures limiter.history == old(limiter.history)[key := Times(old(limiter.history), key) + [ts]]
      ensures desk == if key == watched then Failed(old(desk), k, ts) else old(desk)
    {
      hide DeskOk, Recent;
      if limiter.steady && limiter.clock <= ts { DeskLater(limiter.config, desk, limiter.clock, ts, most); }
      var count := limiter.RecordFailedLogin(key, ts);
      if key == watched {
        if limiter.steady { FailedOk(limiter.config, desk, k, ts, most); }
        desk := Failed(desk, k, ts);
      }
    }

    /** With no accounts at all nothing is counted. */
    method NoAccounts(key: Bucket, ghost k: nat)
      requires Valid() && (key == watched ==> k < |desk.pending|)
      modifies this`desk
      ensures Valid() && desk == if key == watched then old(desk).(pending := Without(old(desk).pending, k))
                                 else old(desk)
    {
      hide DeskOk;
      if key == watched {
        if limiter.steady { DroppedOk(limiter.config, desk, k, limiter.clock, most); }
        desk := desk.(pending := Without(desk.pending, k));
      }
    }

    /** A right password clears the bucket. */
    method RightPassword(key: Bucket, ghost k: nat)
      requires Valid() && (key == watched ==> k < |desk.pending|)
      modifies this`desk, limiter
      ensures Valid() && limiter.clock == old(limiter.clock) && limiter.steady == old(limiter.steady)
      ensures limiter.history == old(limiter.history) - {key}
      ensures desk == if key == watched then Cleared(old(desk), k) else old(desk)
    {
      hide DeskOk;
      limiter.ClearLoginAttempts(key);
      if key == watched {
        if limiter.steady { ClearedOk(limiter.config, desk, k, limiter.clock, most); }
        desk := Cleared(desk, k);
      }
    }

    /** Whatever calls were made: no window holds more failures of the bucket than the bound. */
    lemma NeverMore(i: nat, j: nat, end: int)
      requires Valid() && limiter.steady
      requires i < j <= |desk.failures| && InWindow(desk.failures, i, j, end, limiter.config.window)
      ensures j - i <= limiter.config.maxAttempts + most - 1
    {
      hide AllChecked, InFlight, InWindow;
      DeskFlight(limiter.config, desk, limiter.clock, most);
      WindowBound(limiter.config, desk.failures, most, i, j, end);
    }
  }

  lemma DeskFlight(config: Config, desk: Desk, clock: int, p: nat)
    requires DeskOk(config, desk, clock, p)
    ensures AllChecked(config, desk.failures) && AtMostInFlight(desk.failures, p)
  {
    hide AllChecked;
    forall n: nat ensures |InFlight(desk.failures, n)| <= p {
      if n > |desk.failures| { assert InFlight(desk.failures, n) == {}; }
    }
  }

  /** The bound is met by calls of the route itself: limit - 1 wrong passwords one after the other,
      then `most` at once, all let through. */
  method UseUp(config: Config, time: int, key: Bucket, most: nat) returns (route: LoginRoute)
    requires config.maxAttempts >= 1 && config.window > 0 && most >= 1
    ensures fresh(route) && route.Valid() && route.limiter.steady && route.limiter.config == config
            && route.most == most
    ensures |Times(route.limiter.history, key)| == config.maxAttempts + most - 1
    ensures forall t :: t in Times(route.limiter.history, key) ==> t == time
  {
    hide Recent;
    route := new LoginRoute(config, time, key, most);
    for i := 0 to config.maxAttempts - 1
      invariant fresh(route) && fresh(route.limiter) && route.Valid() && route.limiter.steady
                && route.limiter.clock == time
      invariant route.limiter.config == config && route.most == most && route.watched == key
      invariant |route.desk.failures| == i && route.desk.pending == []
      invariant forall f :: f in route.desk.failures ==> f.time == time
    {
      var limited := route.Arrive(key, time);
      route.WrongPassword(key, 0, time);
    }
    for i := 0 to most
      invariant fresh(route) && fresh(route.limiter) && route.Valid() && route.limiter.steady
                && route.limiter.clock == time
      invariant route.limiter.config == config && route.most == most && route.watched == key
      invariant |route.desk.failures| == config.maxAttempts - 1 && |route.desk.pending| == i
      invariant forall f :: f in route.desk.failures ==> f.time == time
    {
      var limited := route.Arrive(key, time);
    }
    for i := 0 to most
      invariant fresh(route) && fresh(route.limiter) && route.Valid() && route.limiter.steady
                && route.limiter.clock == time
      invariant route.limiter.config == config && route.most == most && route.watched == key
      invariant |route.desk.failures| == config.maxAttempts - 1 + i && |route.desk.pending| == most - i
      invariant forall f :: f in route.desk.failures ==> f.time == time
    {
      route.WrongPassword(key, 0, time);
    }
  }
}

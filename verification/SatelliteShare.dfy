/** How much of the book the satellite may occupy: the design share and its hard ceiling, when
    the core's target may live only in the per-regime profiles. */
module SatelliteShare {
  import opened CoreSleeve
  import opened Options

  /** One regime overlay, its name already stripped and lower-cased. */
  datatype Profile = Profile(name: string, enabled: bool, target: Option<real>)

  /** The base configuration with its overlays in stored order. */
  datatype Settings = Settings(target: Option<real>, cashFloor: real, coreMin: real,
                               convictionReserve: real, profiles: seq<Profile>)

  const DEFAULT_TARGET := 0.60

  /** A name to select overlays by, or none to take every enabled one. */
  type Pool = Option<string>

  /** The targets that the enabled profiles of a pool define. */
  predicate Offers(p: Profile, pool: Pool) {
    p.enabled && p.target.Some? && (pool.Some? ==> p.name == pool.value)
  }

  predicate Named(profiles: seq<Profile>, regime: string) {
    exists i :: 0 <= i < |profiles| && profiles[i].enabled && profiles[i].name == regime
  }

  /** The enabled overlays of the regime's name, or all when there are none. With no regime known the
      name looked for is the empty one, which an overlay may carry. */
  function PoolOf(profiles: seq<Profile>, regime: string): Pool {
    if Named(profiles, regime) then Some(regime) else None
  }

  /** The largest target among the profiles that offer one. */
  function LargestTarget(profiles: seq<Profile>, pool: Pool): Option<real>
    decreases |profiles|
  {
    if profiles == [] then None
    else
      var rest := LargestTarget(profiles[1..], pool);
      if !Offers(profiles[0], pool) then rest
      else if rest.None? then profiles[0].target
      else Some(Max(profiles[0].target.value, rest.value))
  }

  /** Characterizes the maximum without its order of computation. */
  lemma {:induction false} LargestTargetMeans(profiles: seq<Profile>, pool: Pool)
    ensures LargestTarget(profiles, pool).None? <==> forall i :: 0 <= i < |profiles| ==> !Offers(profiles[i], pool)
    ensures LargestTarget(profiles, pool).Some? ==>
              exists i :: 0 <= i < |profiles| && Offers(profiles[i], pool)
                && profiles[i].target == LargestTarget(profiles, pool)
    ensures LargestTarget(profiles, pool).Some? ==>
              forall i :: 0 <= i < |profiles| && Offers(profiles[i], pool) ==>
                profiles[i].target.value <= LargestTarget(profiles, pool).value
    decreases |profiles|
  {
    if profiles != [] {
      var rest := profiles[1..];
      LargestTargetMeans(rest, pool);
      assert forall i :: 0 <= i < |profiles| - 1 ==> profiles[i + 1] == rest[i];
      var largest := LargestTarget(profiles, pool);
      if largest.Some? && !(Offers(profiles[0], pool) && profiles[0].target == largest) {
        var i :| 0 <= i < |profiles| - 1 && Offers(rest[i], pool) && rest[i].target == LargestTarget(rest, pool);
        assert Offers(profiles[i + 1], pool) && profiles[i + 1].target == largest;
      }
    }
  }

  function CoreTarget(s: Settings, regime: string): real {
    var resolved := if s.target.Some? then s.target else LargestTarget(s.profiles, PoolOf(s.profiles, regime));
    if resolved.Some? then resolved.value else DEFAULT_TARGET
  }

  function DesignShare(s: Settings, regime: string): real {
    var design := Max(0.05, Min(0.95, 1.0 - CoreTarget(s, regime) - s.cashFloor));
    if s.convictionReserve > 0.0 then Max(0.05, design - s.convictionReserve) else design
  }

  function MaxShare(s: Settings, regime: string): real {
    Max(Max(0.05, Min(0.95, 1.0 - s.coreMin - s.cashFloor)), DesignShare(s, regime))
  }

  /** Both shares stay between 5% and 95%, and the ceiling is never below the design. */
  lemma SharesOrdered(s: Settings, regime: string)
    ensures 0.05 <= DesignShare(s, regime) <= MaxShare(s, regime) <= 0.95
  {
    hide CoreTarget;
  }

  /** Without a reserve core, satellite and cash floor make up the book, within 5% to 95%; the reserve
      is taken off the design, never below 5%, and not off the ceiling, at which the core is at its
      minimum. */
  lemma ShareExact(s: Settings, regime: string)
    ensures var open, share := DesignShare(s.(convictionReserve := 0.0), regime), DesignShare(s, regime);
            var book := CoreTarget(s, regime) + open + s.cashFloor;
            && 0.05 <= open <= 0.95
            && (book == 1.0 || (open == 0.05 && book > 1.0) || (open == 0.95 && book < 1.0))
            && (s.convictionReserve <= 0.0 ==> share == open)
            && (s.convictionReserve > 0.0 ==>
                  share == open - s.convictionReserve || (share == 0.05 && open - s.convictionReserve < 0.05))
    ensures var most := MaxShare(s, regime);
            var book := s.coreMin + most + s.cashFloor;
            && DesignShare(s, regime) <= most && 0.05 <= most <= 0.95
            && (book == 1.0 || (most == 0.05 && book > 1.0) || (most == 0.95 && book < 1.0)
                || (most == DesignShare(s, regime) && book > 1.0))
  {
    hide CoreTarget;
    ReserveKeepsCore(s, regime);
  }

  lemma ReserveKeepsCore(s: Settings, regime: string)
    ensures CoreTarget(s.(convictionReserve := 0.0), regime) == CoreTarget(s, regime)
  {
    hide LargestTarget, PoolOf;
  }

  /** The core target: the base configuration's, or else the largest of the overlays looked at, or else
      60%. */
  lemma CoreTargetExact(s: Settings, regime: string)
    ensures s.target.Some? ==> CoreTarget(s, regime) == s.target.value
    ensures s.target.None? ==>
              var pool := PoolOf(s.profiles, regime);
              && ((forall i :: 0 <= i < |s.profiles| ==> !Offers(s.profiles[i], pool)) ==>
                  CoreTarget(s, regime) == 0.60)
              && (forall i :: 0 <= i < |s.profiles| && Offers(s.profiles[i], pool) ==>
                    && s.profiles[i].target.value <= CoreTarget(s, regime)
                    && exists j :: 0 <= j < |s.profiles| && Offers(s.profiles[j], pool)
                                   && s.profiles[j].target == Some(CoreTarget(s, regime)))
  {
    hide LargestTarget, PoolOf, Offers;
    LargestTargetMeans(s.profiles, PoolOf(s.profiles, regime));
  }

  /** The overlays looked at are the enabled ones of the regime's name, or all enabled ones when none
      has that name. */
  lemma PoolExact(profiles: seq<Profile>, regime: string, i: nat)
    requires i < |profiles|
    ensures Offers(profiles[i], PoolOf(profiles, regime)) <==>
            && profiles[i].enabled && profiles[i].target.Some?
            && (profiles[i].name == regime
                || forall j :: 0 <= j < |profiles| && profiles[j].enabled ==> profiles[j].name != regime)
  {
  }

  /** No enabled overlay that names its own target takes more core than the warm-up reading does. */
  ghost predicate WarmUpCautious(s: Settings) {
    forall i :: 0 <= i < |s.profiles| && Offers(s.profiles[i], None) ==>
        CoreTarget(s, s.profiles[i].name) <= CoreTarget(s, "")
  }

  /** With no regime known yet the reading is the cautious one exactly when the base configuration
      has a target, no enabled overlay is blank-named, or the blank-named ones reserve at least the
      largest core target any overlay asks for. */
  lemma WarmUpIsCautious(s: Settings)
    ensures WarmUpCautious(s) <==>
            || s.target.Some? || !Named(s.profiles, "") || LargestTarget(s.profiles, None).None?
            || LargestTarget(s.profiles, None).value <= CoreTarget(s, "")
  {
    hide LargestTarget, CoreTarget;
    LargestTargetMeans(s.profiles, None);
    if s.target.Some? {
      GivenTarget(s);
    } else if LargestTarget(s.profiles, None).Some? {
      forall i | 0 <= i < |s.profiles| && Offers(s.profiles[i], None)
        ensures s.profiles[i].target.value <= CoreTarget(s, s.profiles[i].name) <= LargestTarget(s.profiles, None).value
      {
        OwnTarget(s, i);
      }
      if !Named(s.profiles, "") { BlankName(s); }
    }
  }

  lemma GivenTarget(s: Settings)
    requires s.target.Some?
    ensures forall regime :: CoreTarget(s, regime) == s.target.value
  {
  }

  lemma BlankName(s: Settings)
    requires s.target.None? && !Named(s.profiles, "") && LargestTarget(s.profiles, None).Some?
    ensures CoreTarget(s, "") == LargestTarget(s.profiles, None).value
  {
    hide LargestTarget;
  }

  /** A regime with an overlay that names a target gets at least that one, and at most the largest. */
  lemma OwnTarget(s: Settings, i: nat)
    requires s.target.None? && i < |s.profiles| && Offers(s.profiles[i], None) && LargestTarget(s.profiles, None).Some?
    ensures s.profiles[i].target.value <= CoreTarget(s, s.profiles[i].name) <= LargestTarget(s.profiles, None).value
  {
    hide LargestTarget;
    var name := s.profiles[i].name;
    LargestTargetMeans(s.profiles, Some(name));
    LargestTargetMeans(s.profiles, None);
    assert Named(s.profiles, name) && Offers(s.profiles[i], Some(name));
    var j :| 0 <= j < |s.profiles| && Offers(s.profiles[j], Some(name))
      && s.profiles[j].target == LargestTarget(s.profiles, Some(name));
    assert Offers(s.profiles[j], None);
  }

  /** Then the satellite gets no more than any enabled regime that names its own target would give it. */
  lemma WarmUpIsConservative(s: Settings, i: nat)
    requires i < |s.profiles| && Offers(s.profiles[i], None) && WarmUpCautious(s)
    ensures DesignShare(s, "") <= DesignShare(s, s.profiles[i].name)
  {
    hide CoreTarget;
  }

  /** The order in which the overlays are stored plays no part. */
  lemma StoredOrderIrrelevant(s: Settings, other: Settings, regime: string)
    requires other == s.(profiles := other.profiles)
    requires forall p :: p in s.profiles <==> p in other.profiles
    ensures DesignShare(s, regime) == DesignShare(other, regime) && MaxShare(s, regime) == MaxShare(other, regime)
  {
    hide LargestTarget;
    LargestSame(s.profiles, other.profiles, Some(regime));
    LargestSame(s.profiles, other.profiles, None);
    assert forall i :: 0 <= i < |s.profiles| ==> s.profiles[i] in other.profiles;
    assert forall i :: 0 <= i < |other.profiles| ==> other.profiles[i] in s.profiles;
  }

  lemma LargestSame(a: seq<Profile>, b: seq<Profile>, pool: Pool)
    requires forall p :: p in a <==> p in b
    ensures LargestTarget(a, pool) == LargestTarget(b, pool)
  {
    hide LargestTarget;
    LargestTargetMeans(a, pool);
    LargestTargetMeans(b, pool);
    assert forall i :: 0 <= i < |a| ==> a[i] in b;
    assert forall i :: 0 <= i < |b| ==> b[i] in a;
  }
}

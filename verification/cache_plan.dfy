/** Planning the cache usage of a request before it is sent, and committing it once it succeeded
    (internal/emulation/cache.go, prepare and Commit). */
module CachePlan {
  import opened CacheConfig
  import opened CacheUsage
  import opened CacheBlocks
  import opened CacheFingerprint
  import opened CacheProfile
  import opened CacheTracker
  import opened Options

  datatype Plan = Plan(usage: Split, ns: nat, profile: Profile)

  /** Forced hits: the whole cacheable prefix counts as read. */
  function Forced(p: Profile): Split {
    if p.LastCacheable().None? then NOTHING
    else Split(0, p.TokensFor(p.LastCacheable().value.cumulative), 0, 0, 0)
  }

  /** What the leases (live ones only) say about a request, before ratios are applied. */
  ghost function RawSplit(live: Leases, now: int, ns: nat, p: Profile, forceHit: bool): Split {
    if forceHit then Forced(p) else ReadLive(live, now, ns, p).1
  }

  lemma RawMatched(live: Leases, now: int, ns: nat, p: Profile, forceHit: bool)
    ensures RawSplit(live, now, ns, p, forceHit).Matched(p.total)
  {
  }

  /** A plan's usage: the raw split, scaled, with the tail kept back. */
  ghost function UsageFor(live: Leases, now: int, ns: nat, p: Profile, cfg: Config, inputTokens: int, u: real): Split
    requires 0.0 <= u < 1.0
  {
    Reserved(Scaled(RawSplit(live, now, ns, p, cfg.forceHit), cfg, inputTokens, u), inputTokens)
  }

  /** What is scaled: what a lookup of the live leases reports, or with forced hits the whole cacheable prefix as
      read. */
  ghost predicate Raw(live: Leases, now: int, ns: nat, p: Profile, forceHit: bool, raw: Split) {
    && p.LastCacheable().Some?
    && if forceHit then raw == Split(0, p.TokensFor(p.LastCacheable().value.cumulative), 0, 0, 0)
       else exists after :: Looks(live, now, ns, p, after, raw)
  }

  // The creation is under the TTL of the last breakpoint.
  ghost predicate UnderTtl(p: Profile, usage: Split) {
    && p.LastCacheable().Some?
    && (p.LastCacheable().value.ttl < 3_600_000_000_000 ==> usage.creation1h == 0)
    && (p.LastCacheable().value.ttl >= 3_600_000_000_000 ==> usage.creation5m == 0)
  }

  lemma UsageFollows(live: Leases, now: int, ns: nat, p: Profile, cfg: Config, inputTokens: int, u: real) returns (raw: Split)
    requires 0.0 <= u < 1.0 && p.LastCacheable().Some?
    ensures var usage := UsageFor(live, now, ns, p, cfg, inputTokens, u);
            && Raw(live, now, ns, p, cfg.forceHit, raw)
            && usage == Reserved(Scaled(raw, cfg, inputTokens, u), inputTokens)
            && UnderTtl(p, usage) && (cfg.forceHit ==> usage.creation == 0)
  {
    raw := RawSplit(live, now, ns, p, cfg.forceHit);
    RawMatched(live, now, ns, p, cfg.forceHit);
    Looked(live, now, ns, p);
    var scaled := Scaled(raw, cfg, inputTokens, u);
    ScaledBuckets(raw, cfg, p.total, inputTokens, u);
    ReservedBuckets(scaled, inputTokens);
  }

  /** For every profile, namespace, mode, ratio setting, ForceHit setting and random draw. */
  lemma PlanConserves(live: Leases, now: int, ns: nat, p: Profile, cfg: Config, inputTokens: int, u: real)
    requires 0.0 <= u < 1.0 && 0 < inputTokens && p.total == inputTokens
    ensures var usage := UsageFor(live, now, ns, p, cfg, inputTokens, u);
            usage.Conserves(inputTokens) && usage.input >= Tail(inputTokens)
  {
    RawMatched(live, now, ns, p, cfg.forceHit);
    UsageConserved(RawSplit(live, now, ns, p, cfg.forceHit), cfg, inputTokens, u);
  }

  /** The profile of a request, if it has one: some block kept on the fast path is marked. */
  function ProfileFor(sha: Sha, cfg: Config, payload: Payload, est: Estimators, inputTokens: int): (r: Option<Profile>)
    ensures r.Some? ==> r.value.total == TotalFor(payload, est, inputTokens)
  {
    var total := TotalFor(payload, est, inputTokens);
    var bs := Prepared(cfg, payload, est, total);
    if HasMark(bs) then Some(ProfileOf(sha, total, Prelude(payload), bs, 0).(scale := true)) else None
  }

  /** The profile a request is looked up with: none if caching is off, the body does not parse (`payload` is
      None), or nothing in it is marked. */
  function LookedUp(sha: Sha, enabled: bool, cfg: Config, ns: nat, payload: Option<Payload>, est: Estimators,
                    inputTokens: int): Option<Profile>
  {
    if !enabled || payload.None? || ns == 0 then None else ProfileFor(sha, cfg, payload.value, est, inputTokens)
  }

  /** The plan the leases lead to: none without a profile, or with nothing read or created. */
  ghost function Planned(s: Leases, p: Option<Profile>, cfg: Config, ns: nat, inputTokens: int, now: int, u: real): Option<Plan>
    requires 0.0 <= u < 1.0
  {
    if p.None? then None
    else
      var usage := UsageFor(Drop(s, now), now, ns, p.value, cfg, inputTokens, u);
      if usage.read == 0 && usage.creation == 0 then None else Some(Plan(usage, ns, p.value))
  }

  /** The plan is that of the request's own profile, and whether or not there is one the tracker has seen
      exactly one lookup of that profile. A plan conserves the request's token count exactly when the caller
      gave a positive one. */
  method Prepare(tracker: Tracker, sha: Sha, enabled: bool, cfg: Config, ns: nat, payload: Option<Payload>,
                 est: Estimators, isOpus: bool, inputTokens: int, now: int, u: real)
    returns (plan: Option<Plan>)
    requires tracker.Valid() && 0.0 <= u < 1.0
    modifies tracker
    ensures tracker.Valid()
    ensures var p := LookedUp(sha, enabled, cfg, ns, payload, est, inputTokens);
            && plan == Planned(old(tracker.leases), p, cfg, ns, inputTokens, now, u)
            && tracker.leases == (if p.None? then old(tracker.leases)
                                  else Step(old(tracker.leases), Timed(now, Op.Compute(ns, p.value))).0)
    ensures !enabled || payload.None? || ns == 0 ==> plan.None? && tracker.leases == old(tracker.leases)
    ensures plan.Some? ==>
              exists raw :: Raw(Drop(old(tracker.leases), now), now, ns, plan.value.profile, cfg.forceHit, raw)
                            && plan.value.usage == Reserved(Scaled(raw, cfg, inputTokens, u), inputTokens)
    ensures plan.Some? ==> plan.value.ns == ns && UnderTtl(plan.value.profile, plan.value.usage)
    ensures plan.Some? && cfg.forceHit ==> plan.value.usage.creation == 0
    ensures plan.Some? ==> plan.value.usage.read > 0 || plan.value.usage.creation > 0
    ensures plan.Some? ==>
              && plan.value.profile.Valid() && plan.value.profile.LastCacheable().Some?
              && (plan.value.usage.Conserves(inputTokens) <==> inputTokens >= 1)
              && (inputTokens >= 1 ==> plan.value.usage.input >= Tail(inputTokens))
  {
    if !enabled || payload.None? || ns == 0 {
      return None;
    }
    var built := BuildCacheProfile(sha, cfg, payload.value, est, isOpus, inputTokens);
    if built.None? {
      return None;
    }
    BuiltProfile(sha, cfg, payload.value, est, inputTokens, built.value);
    PlanCounts(Drop(tracker.leases, now), now, ns, built.value, cfg, inputTokens, u);
    ghost var raw := UsageFollows(Drop(tracker.leases, now), now, ns, built.value, cfg, inputTokens, u);
    plan := PlanFor(tracker, cfg, ns, built.value, inputTokens, now, u);
  }

  method PlanFor(tracker: Tracker, cfg: Config, ns: nat, profile: Profile, inputTokens: int, now: int, u: real)
    returns (plan: Option<Plan>)
    requires tracker.Valid() && 0.0 <= u < 1.0 && ns != 0 && profile.LastCacheable().Some?
    modifies tracker
    ensures tracker.Valid() && tracker.leases == Step(old(tracker.leases), Timed(now, Op.Compute(ns, profile))).0
    ensures plan == Planned(old(tracker.leases), Some(profile), cfg, ns, inputTokens, now, u)
  {
    var raw := tracker.Compute(now, ns, profile);
    if cfg.forceHit {
      raw := Forced(profile);
    }
    var result := new Usage(raw);
    result.ApplyCacheRatios(cfg, inputTokens, u);
    var usage := result.View();
    if usage.read == 0 && usage.creation == 0 {
      return None;
    }
    return Some(Plan(usage, ns, profile));
  }

  // A plan's parts add up to the caller's count exactly if that is positive.
  lemma PlanCounts(live: Leases, now: int, ns: nat, p: Profile, cfg: Config, inputTokens: int, u: real)
    requires 0.0 <= u < 1.0 && (inputTokens >= 1 ==> p.total == inputTokens)
    ensures var usage := UsageFor(live, now, ns, p, cfg, inputTokens, u);
            && (usage.read + usage.creation > 0 ==> (usage.Conserves(inputTokens) <==> inputTokens >= 1))
            && usage.read >= 0 && usage.creation >= 0
            && (inputTokens >= 1 ==> usage.input >= Tail(inputTokens))
  {
    RawMatched(live, now, ns, p, cfg.forceHit);
    if inputTokens >= 1 {
      PlanConserves(live, now, ns, p, cfg, inputTokens, u);
    }
  }

  lemma BuiltProfile(sha: Sha, cfg: Config, payload: Payload, est: Estimators, inputTokens: int, p: Profile)
    requires ProfileFor(sha, cfg, payload, est, inputTokens) == Some(p)
    ensures p.Valid() && p.LastCacheable().Some?
  {
    var total := TotalFor(payload, est, inputTokens);
    var bs := Prepared(cfg, payload, est, total);
    ProfileOfValid(sha, total, Prelude(payload), bs, 0);
    AllQualify(p, |p.breakpoints|);
    var i :| 0 <= i < |bs| && bs[i].ttl.Some?;
    BreakpointsComplete(bs, |bs|, i);
  }

  /** After the request succeeded its prefixes are leased; a request that fails commits nothing. */
  method CommitPlan(tracker: Tracker, plan: Option<Plan>, now: int)
    requires tracker.Valid()
    modifies tracker
    ensures tracker.Valid()
    ensures tracker.leases == if plan.None? then old(tracker.leases)
                              else Step(old(tracker.leases), Timed(now, Commit(plan.value.ns, plan.value.profile))).0
  {
    if plan.None? || plan.value.ns == 0 {
      return;
    }
    tracker.Update(now, plan.value.ns, plan.value.profile);
  }
}

/** The cache profile of a request (internal/emulation/cache.go): fingerprints, cumulative token
    counts and breakpoints, the large-prompt fast path, and scaling to the reported total. */
module CacheProfile {
  import opened CacheConfig
  import opened CacheUsage
  import opened CanonicalJson
  import opened CacheBlocks
  import opened CacheFingerprint
  import opened Numbers
  import opened Options

  const FAST_PATH_TOKENS := 100_000
  const FAST_PATH_PREFIX_TOKENS := 50_000

  datatype Block = Block(fingerprint: string, cumulative: nat)
  datatype Breakpoint = Breakpoint(index: nat, ttl: int)
  datatype Resolved = Resolved(index: nat, cumulative: nat, ttl: int)

  /** Cumulative tokens of the first n blocks; negative estimates count as zero. */
  function Cumulative(bs: seq<Pending>, n: nat): nat
    requires n <= |bs|
  {
    if n == 0 then 0 else Cumulative(bs, n - 1) + Max(bs[n - 1].tokens, 0)
  }

  lemma {:induction false} CumulativeMonotone(bs: seq<Pending>, i: nat, j: nat)
    requires i <= j <= |bs|
    ensures Cumulative(bs, i) <= Cumulative(bs, j)
    decreases j - i
  {
    if i < j {
      CumulativeMonotone(bs, i, j - 1);
    }
  }

  lemma {:induction false} CumulativePrefix(bs: seq<Pending>, cs: seq<Pending>, n: nat)
    requires cs <= bs && n <= |cs|
    ensures Cumulative(cs, n) == Cumulative(bs, n)
  {
    if n > 0 {
      CumulativePrefix(bs, cs, n - 1);
    }
  }

  // ---------------------------------------------------------------- breakpoints

  /** The TTL of the last marked block among the first n. */
  function ActiveTtl(bs: seq<Pending>, n: nat): Option<int>
    requires n <= |bs|
  {
    if n == 0 then None
    else if bs[n - 1].ttl.Some? then bs[n - 1].ttl
    else ActiveTtl(bs, n - 1)
  }

  // A block is a breakpoint if it is marked, or ends a message after some mark.
  predicate IsBreakpoint(bs: seq<Pending>, i: nat)
    requires i < |bs|
  {
    bs[i].ttl.Some? || (bs[i].isMessageEnd && bs[i].inMessage && ActiveTtl(bs, i + 1).Some?)
  }

  /** The breakpoints among the first n blocks. */
  function Breakpoints(bs: seq<Pending>, n: nat): (r: seq<Breakpoint>)
    requires n <= |bs|
    ensures forall k :: 0 <= k < |r| ==> r[k].index < n && IsBreakpoint(bs, r[k].index)
    ensures forall k :: 0 <= k < |r| ==> ActiveTtl(bs, r[k].index + 1) == Some(r[k].ttl)
    ensures forall i, j :: 0 <= i < j < |r| ==> r[i].index < r[j].index
  {
    if n == 0 then []
    else
      var before := Breakpoints(bs, n - 1);
      if IsBreakpoint(bs, n - 1) then
        before + [Breakpoint(n - 1, ActiveTtl(bs, n).value)]
      else before
  }

  lemma {:induction false} BreakpointsComplete(bs: seq<Pending>, n: nat, i: nat)
    requires i < n <= |bs| && IsBreakpoint(bs, i)
    ensures exists k :: 0 <= k < |Breakpoints(bs, n)| && Breakpoints(bs, n)[k].index == i
  {
    var r := Breakpoints(bs, n);
    if i == n - 1 {
      assert r[|r| - 1].index == i;
    } else {
      BreakpointsComplete(bs, n - 1, i);
      var k :| 0 <= k < |Breakpoints(bs, n - 1)| && Breakpoints(bs, n - 1)[k].index == i;
      assert r[k].index == i;
    }
  }

  // ---------------------------------------------------------------- proportions

  function Share(part: real, total: real, whole: real): real
    requires whole > 0.0
  {
    part * total / whole
  }

  /** `part` of `whole`, carried over to `total` and rounded. */
  function Proportion(part: nat, total: nat, whole: nat): int
    requires whole > 0
  {
    Round(Share(part as real, total as real, whole as real))
  }

  lemma QuotientMonotone(x: real, y: real, d: real)
    requires x <= y && d > 0.0
    ensures x / d <= y / d
  {
  }

  lemma ProductMonotone(a: real, b: real, t: real)
    requires a <= b && t >= 0.0
    ensures a * t <= b * t
  {
    assert (b - a) * t >= 0.0;
  }

  lemma ShareMonotone(a: real, b: real, total: real, whole: real)
    requires a <= b && total >= 0.0 && whole > 0.0
    ensures Share(a, total, whole) <= Share(b, total, whole)
  {
    ProductMonotone(a, b, total);
    QuotientMonotone(a * total, b * total, whole);
  }

  lemma ShareWhole(whole: real, total: real)
    requires whole > 0.0
    ensures Share(whole, total, whole) == total
  {
  }

  lemma ProportionMonotone(a: nat, b: nat, total: nat, whole: nat)
    requires a <= b && whole > 0
    ensures Proportion(a, total, whole) <= Proportion(b, total, whole)
  {
    ShareMonotone(a as real, b as real, total as real, whole as real);
    RoundMonotone(Share(a as real, total as real, whole as real), Share(b as real, total as real, whole as real));
  }

  lemma ProportionWhole(whole: nat, total: nat)
    requires whole > 0
    ensures Proportion(whole, total, whole) == total
  {
    ShareWhole(whole as real, total as real);
    RoundWithin(total as real, total, total);
  }

  // ---------------------------------------------------------------- profiles

  datatype Profile = Profile(total: nat, minCacheable: int, scale: bool, blocks: seq<Block>, breakpoints: seq<Breakpoint>)
  {
    // Breakpoints run forward through the blocks and token counts never fall.
    ghost predicate Valid() {
      && (forall k :: 0 <= k < |breakpoints| ==> breakpoints[k].index < |blocks|)
      && (forall i, j :: 0 <= i < j < |breakpoints| ==> breakpoints[i].index < breakpoints[j].index)
      && (forall i, j :: 0 <= i <= j < |blocks| ==> blocks[i].cumulative <= blocks[j].cumulative)
    }

    predicate Qualifies(bp: Breakpoint) {
      bp.index < |blocks| && blocks[bp.index].cumulative >= minCacheable
    }

    // The first n breakpoints that qualify.
    function CacheableUpTo(n: nat): (r: seq<Resolved>)
      requires n <= |breakpoints|
      ensures |r| <= n
      ensures forall k :: 0 <= k < |r| ==>
                r[k].index < |blocks| && r[k].cumulative == blocks[r[k].index].cumulative >= minCacheable
    {
      if n == 0 then []
      else
        var bp := breakpoints[n - 1];
        if Qualifies(bp)
        then CacheableUpTo(n - 1) + [Resolved(bp.index, blocks[bp.index].cumulative, bp.ttl)]
        else CacheableUpTo(n - 1)
    }

    function Cacheable(): seq<Resolved> {
      CacheableUpTo(|breakpoints|)
    }

    function LastCacheable(): (r: Option<Resolved>)
      ensures r.Some? <==> Cacheable() != []
    {
      var all := Cacheable();
      if all == [] then None else Some(all[|all| - 1])
    }

    /** Scales a cumulative count so that the last cacheable breakpoint stands for the whole request. */
    function TokensFor(cumulative: int): (t: int)
      ensures 0 <= t <= total
    {
      var last := LastCacheable();
      if !scale || last.None? || last.value.cumulative <= 0 then Min(Max(cumulative, 0), total)
      else
        Min(Max(Proportion(Max(cumulative, 0), total, last.value.cumulative), 0), total)
    }
  }

  lemma {:induction false} CacheableOrdered(p: Profile, n: nat, i: nat, j: nat)
    requires p.Valid() && n <= |p.breakpoints| && i <= j < |p.CacheableUpTo(n)|
    ensures p.CacheableUpTo(n)[i].index <= p.CacheableUpTo(n)[j].index
    ensures p.CacheableUpTo(n)[i].cumulative <= p.CacheableUpTo(n)[j].cumulative
    ensures p.CacheableUpTo(n)[j].index <= p.breakpoints[n - 1].index
  {
    var r := p.CacheableUpTo(n);
    if j < |p.CacheableUpTo(n - 1)| {
      CacheableOrdered(p, n - 1, i, j);
    } else {
      if i < j {
        CacheableOrdered(p, n - 1, i, i);
      }
    }
  }

  /** Token counts are scaled monotonically. */
  lemma TokensForMonotone(p: Profile, a: int, b: int)
    requires a <= b
    ensures p.TokensFor(a) <= p.TokensFor(b)
  {
    var last := p.LastCacheable();
    if p.scale && last.Some? && last.value.cumulative > 0 {
      ProportionMonotone(Max(a, 0), Max(b, 0), p.total, last.value.cumulative);
    }
  }

  /** At the last cacheable breakpoint a scaled profile accounts for the whole request, and for
      nothing if no tokens were counted up to there. */
  lemma TokensForLast(p: Profile)
    requires p.scale && p.LastCacheable().Some?
    ensures var last := p.LastCacheable().value;
            p.TokensFor(last.cumulative) == if last.cumulative > 0 then p.total else 0
  {
    var last := p.LastCacheable().value;
    if last.cumulative > 0 {
      ProportionWhole(last.cumulative, p.total);
    }
  }

  // ---------------------------------------------------------------- building

  function BlockAt(sha: Sha, prelude: Json, bs: seq<Pending>, i: nat): Block
    requires i < |bs|
  {
    Block(PrefixState(sha, Write(prelude), Texts(bs), i + 1), Cumulative(bs, i + 1))
  }

  function BlocksUpTo(sha: Sha, prelude: Json, bs: seq<Pending>, n: nat): (r: seq<Block>)
    requires n <= |bs|
    ensures |r| == n && forall i :: 0 <= i < n ==> r[i] == BlockAt(sha, prelude, bs, i)
  {
    if n == 0 then [] else BlocksUpTo(sha, prelude, bs, n - 1) + [BlockAt(sha, prelude, bs, n - 1)]
  }

  /** The profile of a list of blocks, before scaling is switched on. */
  function ProfileOf(sha: Sha, total: int, prelude: Json, bs: seq<Pending>, minCacheable: int): (p: Profile)
    ensures |p.blocks| == |bs|
  {
    Profile(Max(total, 0), minCacheable, false,
            BlocksUpTo(sha, prelude, bs, |bs|),
            Breakpoints(bs, |bs|))
  }

  lemma ProfileOfValid(sha: Sha, total: int, prelude: Json, bs: seq<Pending>, minCacheable: int)
    ensures ProfileOf(sha, total, prelude, bs, minCacheable).Valid()
  {
    var p := ProfileOf(sha, total, prelude, bs, minCacheable);
    forall i, j | 0 <= i <= j < |bs|
      ensures p.blocks[i].cumulative <= p.blocks[j].cumulative
    {
      CumulativeMonotone(bs, i + 1, j + 1);
    }
  }

  predicate HasMark(bs: seq<Pending>) {
    exists i :: 0 <= i < |bs| && bs[i].ttl.Some?
  }

  /** How many blocks the fast path keeps: it drops blocks from the end until the rest fits or one is left. */
  function Kept(bs: seq<Pending>, n: nat, maxTokens: int): (k: nat)
    requires n <= |bs|
    ensures k <= n && (n > 0 ==> k > 0)
    ensures k > 1 ==> Cumulative(bs, k) <= maxTokens
    ensures k < n ==> Cumulative(bs, k + 1) > maxTokens
  {
    if n <= 1 || Cumulative(bs, n) <= maxTokens then n else Kept(bs, n - 1, maxTokens)
  }

  lemma {:induction false} KeptAt(bs: seq<Pending>, n: nat, maxTokens: int, k: nat)
    requires 0 < k < n <= |bs| && (k > 1 ==> Cumulative(bs, k) <= maxTokens) && Cumulative(bs, k + 1) > maxTokens
    ensures Kept(bs, n, maxTokens) == k
  {
    CumulativeMonotone(bs, k + 1, n);
    if k < n - 1 {
      KeptAt(bs, n - 1, maxTokens, k);
    }
  }

  method TruncateCacheBlocks(blocks: seq<Pending>, maxTokens: int) returns (r: seq<Pending>)
    ensures r == blocks[..Kept(blocks, |blocks|, maxTokens)]
  {
    var cum := 0;
    for i := 0 to |blocks|
      invariant cum == Cumulative(blocks, i)
      invariant i > 1 ==> cum <= maxTokens
    {
      cum := cum + Max(blocks[i].tokens, 0);
      if cum > maxTokens && i > 0 {
        KeptAt(blocks, |blocks|, maxTokens, i);
        return blocks[..i];
      }
    }
    return blocks;
  }

  /** Without client markers every message end and the very last block get the default TTL. */
  function Defaulted(bs: seq<Pending>, ttl: int): (r: seq<Pending>)
    ensures |r| == |bs|
  {
    seq(|bs|, i requires 0 <= i < |bs| =>
      if bs[i].isMessageEnd || i == |bs| - 1 then bs[i].(ttl := Some(ttl)) else bs[i])
  }

  method ApplyDefaultBreakpoints(blocks: array<Pending>, ttl: int)
    modifies blocks
    ensures blocks[..] == Defaulted(old(blocks[..]), ttl)
  {
    if blocks.Length == 0 {
      return;
    }
    for i := 0 to blocks.Length
      invariant forall k :: 0 <= k < i ==>
                  blocks[k] == old(blocks[k]).(ttl := if old(blocks[k]).isMessageEnd then Some(ttl) else old(blocks[k]).ttl)
      invariant forall k :: i <= k < blocks.Length ==> blocks[k] == old(blocks[k])
    {
      if blocks[i].isMessageEnd {
        blocks[i] := blocks[i].(ttl := Some(ttl));
      }
    }
    blocks[blocks.Length - 1] := blocks[blocks.Length - 1].(ttl := Some(ttl));
  }

  method WithDefaults(blocks: seq<Pending>, ttl: int) returns (r: seq<Pending>)
    ensures r == Defaulted(blocks, ttl) && (blocks != [] ==> HasMark(r))
  {
    var cells := new Pending[|blocks|](i requires 0 <= i < |blocks| => blocks[i]);
    assert cells[..] == blocks;
    ApplyDefaultBreakpoints(cells, ttl);
    r := cells[..];
    assert blocks != [] ==> r[|blocks| - 1].ttl.Some?;
  }

  method ProfileFromBlocks(sha: Sha, total: int, prelude: Json, blocks: seq<Pending>, minCacheable: int)
    returns (r: Option<Profile>)
    ensures var p := ProfileOf(sha, total, prelude, blocks, minCacheable);
            r == if p.LastCacheable().Some? then Some(p) else None
  {
    var preludeJson := Write(prelude);
    var state := Len8(|preludeJson|) + preludeJson;
    var out: seq<Block> := [];
    var bps: seq<Breakpoint> := [];
    var cumulative, active := 0, None;
    for i := 0 to |blocks|
      invariant state == PrefixState(sha, preludeJson, Texts(blocks), i)
      invariant cumulative == Cumulative(blocks, i)
      invariant active == ActiveTtl(blocks, i)
      invariant out == BlocksUpTo(sha, prelude, blocks, i)
      invariant bps == Breakpoints(blocks, i)
    {
      var block := blocks[i];
      cumulative := cumulative + Max(block.tokens, 0);
      state := sha(state + sha(Write(block.value)));
      out := out + [Block(state, cumulative)];
      if block.ttl.Some? {
        active := block.ttl;
      }
      // Index i comes up once, so a marked block that also ends a message is recorded once.
      if block.ttl.Some? || (block.isMessageEnd && block.inMessage && active.Some?) {
        bps := bps + [Breakpoint(i, active.value)];
      }
    }
    var profile := Profile(Max(total, 0), minCacheable, false, out, bps);
    if profile.LastCacheable().None? {
      return None;
    }
    return Some(profile);
  }

  /** The total a plan is measured against: the caller's count, or an estimate without one. */
  function TotalFor(p: Payload, est: Estimators, inputTokens: int): (t: int)
    ensures t >= 1
  {
    if inputTokens > 0 then inputTokens else Max(est.payload(p), 1)
  }

  /** The blocks that end up in the profile of a request. */
  function Prepared(cfg: Config, p: Payload, est: Estimators, total: int): seq<Pending> {
    var all := Flatten(p, est);
    var bs := if total > FAST_PATH_TOKENS then all[..Kept(all, |all|, FAST_PATH_PREFIX_TOKENS)] else all;
    if !HasMark(bs) && cfg.fallbackBreakpoints then Defaulted(bs, cfg.ttl5m) else bs
  }

  /** With a marked block there is always a cacheable breakpoint, without one there is none. */
  lemma MarkedIsCacheable(sha: Sha, total: int, prelude: Json, bs: seq<Pending>)
    ensures ProfileOf(sha, total, prelude, bs, 0).LastCacheable().Some? <==> HasMark(bs)
  {
    var p := ProfileOf(sha, total, prelude, bs, 0);
    ProfileOfValid(sha, total, prelude, bs, 0);
    AllQualify(p, |p.breakpoints|);
    if HasMark(bs) {
      var i :| 0 <= i < |bs| && bs[i].ttl.Some?;
      BreakpointsComplete(bs, |bs|, i);
    } else if p.breakpoints != [] {
      NoMarkNoTtl(bs, p.breakpoints[0].index + 1);
    }
  }

  lemma {:induction false} AllQualify(p: Profile, n: nat)
    requires p.Valid() && p.minCacheable <= 0 && n <= |p.breakpoints|
    ensures |p.CacheableUpTo(n)| == n
  {
    if n > 0 {
      AllQualify(p, n - 1);
    }
  }

  lemma {:induction false} NoMarkNoTtl(bs: seq<Pending>, n: nat)
    requires !HasMark(bs) && n <= |bs|
    ensures ActiveTtl(bs, n).None?
  {
    if n > 0 {
      NoMarkNoTtl(bs, n - 1);
    }
  }

  /** The profile of a request. It exists exactly when some block kept on the fast path is marked, by
      the client or by default; its threshold is always 0: the minimum-token settings have no effect. */
  method BuildCacheProfile(sha: Sha, cfg: Config, p: Payload, est: Estimators, isOpus: bool, inputTokens: int)
    returns (r: Option<Profile>)
    ensures var total := TotalFor(p, est, inputTokens);
            var bs := Prepared(cfg, p, est, total);
            r == if HasMark(bs) then Some(ProfileOf(sha, total, Prelude(p), bs, 0).(scale := true)) else None
  {
    var blocks := Flatten(p, est);
    if |blocks| == 0 {
      return None;
    }
    var total := inputTokens;
    if total <= 0 {
      total := Max(est.payload(p), 1);
    }
    if total > FAST_PATH_TOKENS {
      blocks := TruncateCacheBlocks(blocks, FAST_PATH_PREFIX_TOKENS);
      if |blocks| == 0 {
        return None;
      }
    }
    if !HasMark(blocks) && cfg.fallbackBreakpoints {
      blocks := WithDefaults(blocks, cfg.ttl5m);
    }
    var minCacheable := cfg.MinTokensFor(isOpus);
    if HasMark(blocks) {
      minCacheable := 0;
    }
    var profile := ProfileFromBlocks(sha, total, Prelude(p), blocks, minCacheable);
    if HasMark(blocks) {
      MarkedIsCacheable(sha, total, Prelude(p), blocks);
    } else {
      NothingCacheable(sha, total, Prelude(p), blocks, minCacheable);
    }
    if profile.Some? {
      profile := Some(profile.value.(scale := true));
    }
    return profile;
  }

  lemma NothingCacheable(sha: Sha, total: int, prelude: Json, bs: seq<Pending>, minCacheable: int)
    requires !HasMark(bs)
    ensures ProfileOf(sha, total, prelude, bs, minCacheable).LastCacheable().None?
  {
    var p := ProfileOf(sha, total, prelude, bs, minCacheable);
    if p.breakpoints != [] {
      NoMarkNoTtl(bs, p.breakpoints[0].index + 1);
    }
  }
}

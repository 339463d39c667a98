/** Token splits of one request (internal/emulation/cache.go): ratio scaling and the
    reserved uncached tail, and why Input + Read + Creation stays the request total. */
module CacheUsage {
  import opened CacheConfig
  import opened Numbers

  // ---------------------------------------------------------------- rounding

  /** math.Round on an exact real: to the nearest integer, halves away from zero. */
  function Round(x: real): (n: int)
    ensures x >= 0.0 ==> -0.5 <= x - n as real < 0.5
    ensures x < 0.0 ==> -0.5 < x - n as real <= 0.5
  {
    if x >= 0.0 then (x + 0.5).Floor else -((0.5 - x).Floor)
  }

  lemma RoundMonotone(x: real, y: real)
    requires x <= y
    ensures Round(x) <= Round(y)
  {
  }

  lemma RoundWithin(x: real, lo: int, hi: int)
    requires lo as real <= x <= hi as real
    ensures lo <= Round(x) <= hi
  {
  }

  lemma ProductRounds(tokens: nat, ratio: real)
    requires InUnit(ratio)
    ensures 0 <= Round(tokens as real * ratio) <= tokens
  {
    var t := tokens as real;
    var x := t * ratio;
    ProductBounds(t, ratio);
    assert 0 as real == 0.0;
    RoundWithin(x, 0, tokens);
  }

  function ScaleTokens(tokens: int, ratio: real): (n: int)
    ensures 0 <= n
    ensures tokens >= 0 ==> n <= tokens
    ensures InUnit(ratio) && tokens >= 0 ==>
              -0.5 <= n as real - tokens as real * ratio <= 0.5
  {
    if tokens <= 0 || ratio <= 0.0 then 0
    else if ratio >= 1.0 then tokens
    else
      ProductRounds(tokens, ratio);
      Round(tokens as real * ratio)
  }

  lemma ProductBounds(x: real, ratio: real)
    requires x >= 0.0 && InUnit(ratio)
    ensures 0.0 <= x * ratio <= x
  {
    assert (1.0 - ratio) * x >= 0.0;
  }

  // ---------------------------------------------------------------- splits

  datatype Split = Split(input: int, read: int, creation: int, creation5m: int, creation1h: int) {
    ghost predicate NonNegative() {
      0 <= input && 0 <= read && 0 <= creation && 0 <= creation5m && 0 <= creation1h
    }

    // The promise made for every plan: the parts add up to the total and the TTL buckets to the creation.
    ghost predicate Conserves(total: int) {
      NonNegative() && input + read + creation == total && creation5m + creation1h == creation
    }

    // What the prefix match hands over: no input yet, and all the creation in one TTL bucket.
    ghost predicate Matched(total: int) {
      && NonNegative()
      && input == 0
      && read + creation <= total
      && creation5m + creation1h == creation
      && (creation5m == 0 || creation1h == 0)
    }
  }

  /** The part of a total that is never reported as cached: a quarter of a small one, but at least 1, and 2 of all
      others. */
  function Tail(total: int): (t: int)
    ensures total >= 16 ==> t == 2
    ensures 4 <= total < 16 ==> 4 * t <= total < 4 * (t + 1)
    ensures total < 4 ==> t == 1
  {
    if total < 16 then Max(total / 4, 1) else 2
  }

  function ScaleCreationTTL(tokens5m: int, tokens1h: int, scaledTotal: int, ratio: real): (r: (int, int))
    ensures scaledTotal > 0 && ratio > 0.0 ==> r.0 + r.1 == scaledTotal
    ensures scaledTotal <= 0 || ratio <= 0.0 ==> r == (0, 0)
    ensures 0 <= r.0 && 0 <= r.1
    ensures tokens1h <= 0 ==> r.1 == 0
    ensures tokens5m <= 0 < tokens1h ==> r.0 == 0
    ensures tokens5m > 0 && tokens1h > 0 && scaledTotal > 0 && ratio > 0.0 ==>
              r.0 <= ScaleTokens(tokens5m, ratio) && (r.1 > 0 ==> r.0 == ScaleTokens(tokens5m, ratio))
  {
    if scaledTotal <= 0 || ratio <= 0.0 then (0, 0)
    else if tokens1h <= 0 then (scaledTotal, 0)
    else if tokens5m <= 0 then (0, scaledTotal)
    else
      var scaled5m := Min(ScaleTokens(tokens5m, ratio), scaledTotal);
      (scaled5m, scaledTotal - scaled5m)
  }

  /** The split after scaling, before the tail is reserved. `u` is the random draw. */
  function Scaled(s: Split, cfg: Config, total: int, u: real): Split
    requires 0.0 <= u < 1.0
  {
    var rr := if cfg.independent then cfg.SampleReadRatio(u) else cfg.SampleUniformRatio(u);
    var cr := if cfg.independent then cfg.CreationRatio() else rr;
    var read := ScaleTokens(s.read, rr);
    var creation := ScaleTokens(s.creation, cr);
    var (m5, h1) :=
      if cfg.independent then ScaleCreationTTL(s.creation5m, s.creation1h, creation, cr)
      else (ScaleTokens(s.creation5m, cr), ScaleTokens(s.creation1h, cr));
    Split(Max(total - read - creation, 0), read, creation, m5, h1)
  }

  /** The tail rule in closed form: the deficit is taken from the creation first (5m bucket
      before 1h bucket), the rest from the read. */
  function Reserved(s: Split, total: int): Split {
    if total <= 0 || s.input >= Tail(total) then s
    else
      var deficit := Tail(total) - s.input;
      var fromCreation := Min(deficit, Max(s.creation, 0));
      var from5m := Min(fromCreation, Max(s.creation5m, 0));
      var from1h := Min(fromCreation - from5m, Max(s.creation1h, 0));
      var fromRead := Min(deficit - fromCreation, Max(s.read, 0));
      Split(Max(total - (s.read - fromRead) - (s.creation - fromCreation), 0),
            s.read - fromRead, s.creation - fromCreation, s.creation5m - from5m, s.creation1h - from1h)
  }

  lemma ScaledConserves(s: Split, cfg: Config, total: int, u: real)
    requires 0.0 <= u < 1.0 && 0 <= total && s.Matched(total)
    ensures Scaled(s, cfg, total, u).Conserves(total)
    ensures Scaled(s, cfg, total, u).read <= s.read && Scaled(s, cfg, total, u).creation <= s.creation
  {
    if cfg.independent {
      var cr := cfg.CreationRatio();
      assert ScaleTokens(s.creation, cr) > 0 ==> cr > 0.0;
    }
  }

  /** What scaling follows: reads and creations each their own setting in independent mode, and otherwise one and
      the same draw; what is neither is input, and an empty bucket stays empty. */
  lemma ScaledFollows(s: Split, cfg: Config, total: int, u: real)
    requires 0.0 <= u < 1.0 && s.Matched(total)
    ensures var r := Scaled(s, cfg, total, u);
            && r.input + r.read + r.creation == total
            && (cfg.independent ==> r.read == ScaleTokens(s.read, cfg.SampleReadRatio(u))
                                    && r.creation == ScaleTokens(s.creation, cfg.CreationRatio()))
            && (!cfg.independent ==> r.read == ScaleTokens(s.read, cfg.SampleUniformRatio(u))
                                     && r.creation == ScaleTokens(s.creation, cfg.SampleUniformRatio(u)))
            && (s.creation5m == 0 ==> r.creation5m == 0) && (s.creation1h == 0 ==> r.creation1h == 0)
  {
  }

  /** The tail is kept back, from the creation first, there from the 5-minute bucket first; nothing grows but the
      input. */
  lemma ReservedConserves(s: Split, total: int)
    requires 0 < total && s.Conserves(total)
    ensures Reserved(s, total).Conserves(total)
    ensures Reserved(s, total).input == Max(s.input, Tail(total))
    ensures var r := Reserved(s, total);
            && r.read <= s.read && r.creation <= s.creation && r.creation5m <= s.creation5m && r.creation1h <= s.creation1h
            && (r.read < s.read ==> r.creation == 0)
            && (r.creation1h < s.creation1h ==> r.creation5m == 0)
  {
  }

  lemma ScaledBuckets(s: Split, cfg: Config, most: int, total: int, u: real)
    requires 0.0 <= u < 1.0 && s.Matched(most)
    ensures s.creation == 0 ==> Scaled(s, cfg, total, u).creation == 0
    ensures s.creation5m == 0 ==> Scaled(s, cfg, total, u).creation5m == 0
    ensures s.creation1h == 0 ==> Scaled(s, cfg, total, u).creation1h == 0
  {
  }

  // Without tokens there is nothing to keep back, and an empty bucket stays empty.
  lemma ReservedBuckets(s: Split, total: int)
    ensures total <= 0 ==> Reserved(s, total) == s
    ensures s.creation5m == 0 ==> Reserved(s, total).creation5m == 0
    ensures s.creation1h == 0 ==> Reserved(s, total).creation1h == 0
    ensures s.creation == 0 ==> Reserved(s, total).creation == 0
  {
  }

  /** Every plan conserves the request total and keeps the tail uncached, in both modes,
      for every setting and every random draw. */
  lemma UsageConserved(s: Split, cfg: Config, total: int, u: real)
    requires 0.0 <= u < 1.0 && 0 < total && s.Matched(total)
    ensures var plan := Reserved(Scaled(s, cfg, total, u), total);
            && plan.Conserves(total)
            && plan.input >= Tail(total)
            && plan.read <= s.read
            && plan.creation <= s.creation
  {
    ScaledConserves(s, cfg, total, u);
    ReservedConserves(Scaled(s, cfg, total, u), total);
  }

  // ---------------------------------------------------------------- in place, as the source does

  class Usage {
    var input: int
    var read: int
    var creation: int
    var creation5m: int
    var creation1h: int

    function View(): Split
      reads this
    {
      Split(input, read, creation, creation5m, creation1h)
    }

    constructor (s: Split)
      ensures View() == s
    {
      input, read, creation, creation5m, creation1h := s.input, s.read, s.creation, s.creation5m, s.creation1h;
    }

    method ShrinkCreationBuckets(stolen: int)
      requires 0 <= stolen
      modifies this`creation5m, this`creation1h
      ensures var from5m := Min(stolen, Max(old(creation5m), 0));
              && creation5m == old(creation5m) - from5m
              && creation1h == old(creation1h) - Min(stolen - from5m, Max(old(creation1h), 0))
    {
      var left := stolen;
      if left <= 0 {
        return;
      }
      if creation5m > 0 {
        var d := Min(creation5m, left);
        creation5m := creation5m - d;
        left := left - d;
      }
      if left > 0 && creation1h > 0 {
        creation1h := creation1h - Min(creation1h, left);
      }
    }

    method ReserveUncachedTail(total: int)
      modifies this
      ensures View() == Reserved(old(View()), total)
    {
      if total <= 0 {
        return;
      }
      var tail := 2;
      if total < 16 {
        tail := Max(total / 4, 1);
      }
      if input >= tail {
        return;
      }
      var need := tail - input;
      var stolen;
      creation, stolen := StealCacheTokens(creation, need);
      if stolen > 0 {
        ShrinkCreationBuckets(stolen);
        need := need - stolen;
      }
      if need > 0 {
        read, stolen := StealCacheTokens(read, need);
      }
      input := total - read - creation;
      if input < 0 {
        input := 0;
      }
    }

    method ApplyCacheRatios(cfg: Config, inputTokens: int, u: real)
      requires 0.0 <= u < 1.0
      modifies this
      ensures View() == Reserved(Scaled(old(View()), cfg, inputTokens, u), inputTokens)
    {
      if cfg.independent {
        var creationRatio, readRatio := cfg.CreationRatio(), cfg.SampleReadRatio(u);
        read := ScaleTokens(read, readRatio);
        creation := ScaleTokens(creation, creationRatio);
        var buckets := ScaleCreationTTL(creation5m, creation1h, creation, creationRatio);
        creation5m, creation1h := buckets.0, buckets.1;
      } else {
        var ratio := cfg.SampleUniformRatio(u);
        read := ScaleTokens(read, ratio);
        creation := ScaleTokens(creation, ratio);
        creation5m := ScaleTokens(creation5m, ratio);
        creation1h := ScaleTokens(creation1h, ratio);
      }
      input := inputTokens - read - creation;
      if input < 0 {
        input := 0;
      }
      ReserveUncachedTail(inputTokens);
    }
  }

  /** Takes up to `need` from a non-negative amount. */
  method StealCacheTokens(src: int, need: int) returns (left: int, take: int)
    ensures take == Max(Min(need, src), 0) && left == src - take
  {
    if src <= 0 || need <= 0 {
      return src, 0;
    }
    take := need;
    if take > src {
      take := src;
    }
    left := src - take;
  }

  /** The admin page's estimate of a first and a second request; both conserve the total. */
  method Preview(cfg: Config, total: int) returns (first: Split, second: Split)
    ensures first.Conserves(Max(total, 0)) && second.Conserves(Max(total, 0))
    ensures first.read == 0 && second.creation == 0
    ensures total > 0 ==> first.input >= Tail(total) && second.input >= Tail(total)
    ensures total > 0 ==> first.creation == Min(ScaleTokens(total, cfg.CreationRatio()), total - Tail(total))
    ensures total > 0 ==> second.read == Min(ScaleTokens(total, cfg.ReadRatio()), total - Tail(total))
  {
    var n := Max(total, 0);
    var firstCreate := ScaleTokens(n, cfg.CreationRatio());
    var secondRead := ScaleTokens(n, cfg.ReadRatio());
    var a := new Usage(Split(n - firstCreate, 0, firstCreate, firstCreate, 0));
    var b := new Usage(Split(n - secondRead, secondRead, 0, 0, 0));
    a.ReserveUncachedTail(n);
    b.ReserveUncachedTail(n);
    first, second := a.View(), b.View();
  }
}

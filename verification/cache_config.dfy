/** Ratio settings of the prompt-cache emulation (internal/emulation/config.go).
    A Go float64 is a `Float`: one of the three special values, or a finite real. */
module CacheConfig {
  datatype Float = NaN | NegInf | PosInf | Finite(r: real)

  // Go's `f <= 0`: false for NaN.
  predicate AtMostZero(f: Float) {
    f.NegInf? || (f.Finite? && f.r <= 0.0)
  }

  predicate InUnit(r: real) {
    0.0 <= r <= 1.0
  }

  function Distance(a: real, b: real): real {
    if a <= b then b - a else a - b
  }

  /** The point of [0,1] nearest to a finite ratio; `fallback` for NaN and infinities. */
  function ClampRatio(ratio: Float, fallback: real): (r: real)
    ensures ratio.Finite? ==> InUnit(r)
    ensures ratio.Finite? ==> forall y: real :: InUnit(y) ==> Distance(ratio.r, r) <= Distance(ratio.r, y)
    ensures !ratio.Finite? ==> r == fallback
  {
    match ratio
    case NaN | NegInf | PosInf => fallback
    case Finite(x) => if x < 0.0 then 0.0 else if x > 1.0 then 1.0 else x
  }

  /** The stored range: both ends in [0,1], in order; an unset pair is derived from `fallback`. */
  function NormalizeRatioRange(lo: Float, hi: Float, fallback: real): (r: (real, real))
    requires InUnit(fallback)
    ensures 0.0 <= r.0 <= r.1 <= 1.0
    ensures AtMostZero(lo) && AtMostZero(hi) ==> r == (fallback, fallback)
    ensures !(AtMostZero(lo) && AtMostZero(hi)) ==>
              multiset{r.0, r.1} == multiset{ClampRatio(lo, 0.0), ClampRatio(hi, 0.0)}
  {
    var unset := AtMostZero(lo) && AtMostZero(hi);
    var a := ClampRatio(if unset then Finite(fallback) else lo, 0.0);
    var b := ClampRatio(if unset then Finite(fallback) else hi, 0.0);
    if a > b then (b, a) else (a, b)
  }

  // The share `u` of a width; the product stays inside this function.
  function Fraction(u: real, width: real): (r: real)
    requires 0.0 <= u < 1.0 && width > 0.0
    ensures 0.0 <= r < width
  {
    var rest := 1.0 - u;
    assert rest * width > 0.0;
    assert (rest + u) * width == rest * width + u * width;
    u * width
  }

  /** Draws from a range; `u` is the random draw in [0,1). */
  function SampleRatioRange(lo: Float, hi: Float, u: real): (r: real)
    requires 0.0 <= u < 1.0
    ensures InUnit(r)
    ensures ClampRatio(lo, 1.0) <= r
    ensures ClampRatio(lo, 1.0) < ClampRatio(hi, 1.0) ==> r < ClampRatio(hi, 1.0)
    ensures ClampRatio(hi, 1.0) <= ClampRatio(lo, 1.0) ==> r == ClampRatio(lo, 1.0)
  {
    var a := ClampRatio(lo, 1.0);
    var b := ClampRatio(hi, 1.0);
    if b <= a then a else
      a + Fraction(u, b - a)
  }

  /** When normalising a range again changes nothing, for any float64. The exception needs a NaN or an
      infinity, which no setting read from JSON can hold. */
  lemma NormalizeStable(lo: Float, hi: Float, fallback: real)
    requires InUnit(fallback)
    ensures var r := NormalizeRatioRange(lo, hi, fallback);
            NormalizeRatioRange(Finite(r.0), Finite(r.1), fallback) == r
            <==> (AtMostZero(lo) && AtMostZero(hi))
                 || ClampRatio(lo, 0.0) > 0.0 || ClampRatio(hi, 0.0) > 0.0
                 || fallback == 0.0
  {
  }

  /** Saving a range and loading it again changes nothing. */
  lemma NormalizeIdempotent(lo: real, hi: real, fallback: real)
    requires InUnit(fallback)
    ensures var r := NormalizeRatioRange(Finite(lo), Finite(hi), fallback);
            NormalizeRatioRange(Finite(r.0), Finite(r.1), fallback) == r
  {
    NormalizeStable(Finite(lo), Finite(hi), fallback);
  }

  /** A setting in [0,1] is followed as it is, one outside by its nearest point, one that is no number as 1. */
  ghost predicate Follows(setting: Float, r: real) {
    && (setting.Finite? && InUnit(setting.r) ==> r == setting.r)
    && (setting.Finite? && setting.r > 1.0 ==> r == 1.0)
    && (setting.Finite? && setting.r < 0.0 ==> r == 0.0)
    && (!setting.Finite? ==> r == 1.0)
  }

  /** From a range in order and within [0,1], the draw is the point with the share `u` of the range below it. */
  ghost predicate DrawnFrom(lo: Float, hi: Float, u: real, r: real) {
    lo.Finite? && hi.Finite? && 0.0 <= lo.r <= hi.r <= 1.0 ==> r - lo.r == u * (hi.r - lo.r)
  }

  lemma DrawUniform(lo: Float, hi: Float, u: real)
    requires 0.0 <= u < 1.0
    ensures DrawnFrom(lo, hi, u, SampleRatioRange(lo, hi, u))
  {
  }

  /** Which range a read ratio is drawn from: its own in independent mode, otherwise the common one. */
  lemma ReadRatioFollows(cfg: Config, u: real)
    requires 0.0 <= u < 1.0
    ensures DrawnFrom(cfg.ratioMin, cfg.ratioMax, u, cfg.SampleUniformRatio(u))
    ensures cfg.independent ==> DrawnFrom(cfg.readRatioMin, cfg.readRatioMax, u, cfg.SampleReadRatio(u))
    ensures !cfg.independent ==> cfg.SampleReadRatio(u) == cfg.SampleUniformRatio(u)
  {
    DrawUniform(cfg.ratioMin, cfg.ratioMax, u);
    DrawUniform(cfg.readRatioMin, cfg.readRatioMax, u);
  }

  /** The settings read on the request path. `independent` is Mode == "independent". */
  datatype Config = Config(
    independent: bool,
    ratio: Float, ratioMin: Float, ratioMax: Float,
    creationRatio: Float, readRatio: Float, readRatioMin: Float, readRatioMax: Float,
    forceHit: bool, fallbackBreakpoints: bool,
    minTokens: int, opusMinTokens: int, ttl5m: int)
  {
    function CreationRatio(): (r: real)
      ensures InUnit(r)
      ensures var setting := if independent then creationRatio else ratio; Follows(setting, r)
    {
      ClampRatio(if independent then creationRatio else ratio, 1.0)
    }

    function ReadRatio(): (r: real)
      ensures InUnit(r)
      ensures var setting := if independent then readRatio else ratio; Follows(setting, r)
    {
      ClampRatio(if independent then readRatio else ratio, 1.0)
    }

    function SampleUniformRatio(u: real): (r: real)
      requires 0.0 <= u < 1.0
      ensures InUnit(r)
    {
      SampleRatioRange(ratioMin, ratioMax, u)
    }

    function SampleReadRatio(u: real): (r: real)
      requires 0.0 <= u < 1.0
      ensures InUnit(r)
    {
      if independent then SampleRatioRange(readRatioMin, readRatioMax, u) else SampleUniformRatio(u)
    }

    function MinTokensFor(isOpus: bool): int {
      if isOpus then opusMinTokens else minTokens
    }
  }
}

/**
 * The bound computation of RelevelActorbase: from the requested (encounter
 * zone) range, the template's authored level and its original range, the
 * level range the template is given. Floating point is modelled by exact
 * reals; every value involved is non-negative, so the cast to uint16_t is the
 * floor.
 *
 * The computation is written twice on purpose: the functions (Scaled, Clamped,
 * Unrounded, ComputeBounds) carry the properties and are what other functions
 * and lemmas can use, while the methods at the end (ScaleRequest,
 * ClampToOriginal, RelevelBounds) update the locals step by step as
 * RelevelActorbase does and are proved to agree with the functions.
 */
module Bounds {
  import opened Types
  import opened Config

  /** An inverted finite request has its maximum raised to its minimum. */
  function RequestedMax(minLevel: UInt16, maxLevel: UInt16): (m: UInt16)
    ensures m == 0 <==> maxLevel == 0
    ensures m != 0 ==> minLevel <= m && maxLevel <= m
    ensures minLevel <= maxLevel ==> m == maxLevel
    ensures minLevel > maxLevel && maxLevel != 0 ==> m == minLevel
  {
    if minLevel > maxLevel && maxLevel != 0 then minLevel else maxLevel
  }

  /** An inverted finite original range has its maximum raised to its minimum. */
  function NormalisedOriginal(o: ActorbaseData): (n: ActorbaseData)
    ensures n.originalMin == o.originalMin
    ensures n.originalMax == 0 <==> o.originalMax == 0
    ensures n.originalMax == 0 || n.originalMin <= n.originalMax
    ensures o.originalMax == 0 || o.originalMin <= o.originalMax ==> n == o
    ensures o.originalMin > o.originalMax && o.originalMax != 0 ==> n.originalMax == o.originalMin
  {
    if o.originalMin > o.originalMax && o.originalMax != 0 then o.(originalMax := o.originalMin) else o
  }

  /** The player level multiplier of a template, authored per mille. */
  function PcLevelMult(level: UInt16): (f: real)
    ensures 0.0 <= f <= 65.535
  {
    level as real / 1000.0
  }

  /** std::max */
  function RMax(a: real, b: real): (r: real) {
    if a < b then b else a
  }

  /** std::min */
  function RMin(a: real, b: real): (r: real) {
    if b < a then b else a
  }

  lemma ScaleMonotone(a: real, b: real, f: real)
    requires 0.0 <= a <= b && 0.0 <= f
    ensures 0.0 <= a * f <= b * f
  {
    assert (b - a) * f >= 0.0;
  }

  /** The requested level scaled by the multiplier when the setting asks for it. */
  function Scaled(x: UInt16, level: UInt16, s: Settings): (r: real)
    ensures 0.0 <= r
  {
    if s.includeLevelMult then
      ScaleMonotone(0.0, x as real, PcLevelMult(level));
      x as real * PcLevelMult(level)
    else x as real
  }

  /**
   * The values minTmp and maxTmp hold just before the cast: the scaled request,
   * clamped to the original range unless the range may be extended.
   */
  function Unrounded(minLevel: UInt16, maxLevel: UInt16, level: UInt16, original: ActorbaseData, s: Settings)
    : (t: (real, real))
    ensures 0.0 <= t.0 && 0.0 <= t.1
    ensures t.1 == 0.0 || t.0 <= t.1
  {
    var m := RequestedMax(minLevel, maxLevel);
    ScaledRequestOrdered(minLevel, maxLevel, level, s);
    Clamped(Scaled(minLevel, level, s), Scaled(m, level, s), m, NormalisedOriginal(original), s)
  }

  /** Scaling keeps a normalised request ordered, and an open request scales to 0. */
  lemma ScaledRequestOrdered(minLevel: UInt16, maxLevel: UInt16, level: UInt16, s: Settings)
    ensures RequestedMax(minLevel, maxLevel) != 0 ==>
              Scaled(minLevel, level, s) <= Scaled(RequestedMax(minLevel, maxLevel), level, s)
    ensures RequestedMax(minLevel, maxLevel) == 0 ==> Scaled(RequestedMax(minLevel, maxLevel), level, s) == 0.0
  {
    var m := RequestedMax(minLevel, maxLevel);
    if m != 0 && s.includeLevelMult {
      ScaleMonotone(minLevel as real, m as real, PcLevelMult(level));
    }
  }

  /**
   * The clamping of the scaled request (minTmp, maxTmp) to the normalised
   * original range o, skipped when the range may be extended.
   */
  function Clamped(minTmp: real, maxTmp: real, maxLevel: UInt16, o: ActorbaseData, s: Settings): (t: (real, real))
    requires 0.0 <= minTmp && 0.0 <= maxTmp
    requires maxLevel != 0 ==> minTmp <= maxTmp
    requires maxLevel == 0 ==> maxTmp == 0.0
    requires o.originalMax == 0 || o.originalMin <= o.originalMax
    ensures 0.0 <= t.0 && 0.0 <= t.1
    ensures t.1 == 0.0 || t.0 <= t.1
    ensures s.extendLevels ==> t == (minTmp, maxTmp)
    ensures !s.extendLevels && o.originalMax != 0 ==>
              o.originalMin as real <= t.0 <= o.originalMax as real && o.originalMin as real <= t.1 <= o.originalMax as real
    // A finite original range: a value inside it is kept, one below is raised to
    // its minimum, one above is lowered to its maximum; an open request takes its maximum.
    ensures !s.extendLevels && o.originalMax != 0 ==>
              && (o.originalMin as real <= minTmp <= o.originalMax as real ==> t.0 == minTmp)
              && (minTmp < o.originalMin as real ==> t.0 == o.originalMin as real)
              && (o.originalMax as real < minTmp ==> t.0 == o.originalMax as real)
              && (maxLevel == 0 ==> t.1 == o.originalMax as real)
              && (maxLevel != 0 && o.originalMin as real <= maxTmp <= o.originalMax as real ==> t.1 == maxTmp)
              && (maxLevel != 0 && maxTmp < o.originalMin as real ==> t.1 == o.originalMin as real)
              && (maxLevel != 0 && o.originalMax as real < maxTmp ==> t.1 == o.originalMax as real)
    // An open original range: values are only raised to its minimum, never capped,
    // and an open request stays open.
    ensures !s.extendLevels && o.originalMax == 0 ==>
              && (o.originalMin as real <= minTmp ==> t.0 == minTmp)
              && (minTmp < o.originalMin as real ==> t.0 == o.originalMin as real)
              && (maxLevel == 0 ==> t.1 == 0.0)
              && (maxLevel != 0 && o.originalMin as real <= maxTmp ==> t.1 == maxTmp)
              && (maxLevel != 0 && maxTmp < o.originalMin as real ==> t.1 == o.originalMin as real)
  {
    var oMin := o.originalMin as real;
    var oMax := o.originalMax as real;
    if s.extendLevels then
      (minTmp, maxTmp)
    else if o.originalMax == 0 then
      (RMax(minTmp, oMin), if maxLevel == 0 then 0.0 else RMax(maxTmp, oMin))
    else
      (RMin(RMax(minTmp, oMin), oMax), if maxLevel == 0 then oMax else RMin(RMax(maxTmp, oMin), oMax))
  }

  /** The casts to uint16_t are defined: both values are below 2^16. */
  predicate CastDefined(minLevel: UInt16, maxLevel: UInt16, level: UInt16, original: ActorbaseData, s: Settings)
  {
    var t := Unrounded(minLevel, maxLevel, level, original, s);
    t.0 < 65536.0 && t.1 < 65536.0
  }

  /**
   * The scaled request alone fits in uint16_t. Clamping only moves a value
   * into the original range, whose ends are uint16_t values themselves, so a
   * request that fits still fits after clamping.
   */
  predicate ScaledFits(minLevel: UInt16, maxLevel: UInt16, level: UInt16, s: Settings)
  {
    Scaled(minLevel, level, s) < 65536.0 && Scaled(RequestedMax(minLevel, maxLevel), level, s) < 65536.0
  }

  lemma ScaledFitsCastDefined(minLevel: UInt16, maxLevel: UInt16, level: UInt16, original: ActorbaseData, s: Settings)
    requires ScaledFits(minLevel, maxLevel, level, s)
    ensures CastDefined(minLevel, maxLevel, level, original, s)
  {
  }

  /**
   * Conversely, a request whose casts are defined for an open original range
   * starting at 0 (which clamps nothing) fits already, so ScaledFits is exactly
   * the condition that keeps the casts defined whatever the original range is.
   */
  lemma CastDefinedUnclampedFits(minLevel: UInt16, maxLevel: UInt16, level: UInt16, s: Settings)
    requires CastDefined(minLevel, maxLevel, level, ActorbaseData(0, 0), s)
    ensures ScaledFits(minLevel, maxLevel, level, s)
  {
  }

  /**
   * The level range RelevelActorbase writes. The minimum is at least 1 and never
   * above a finite maximum; without extension the range stays inside the
   * original one, an open request takes the original maximum, and an originally
   * open range stays open for an open request.
   */
  function ComputeBounds(minLevel: UInt16, maxLevel: UInt16, level: UInt16, original: ActorbaseData, s: Settings)
    : (r: LevelRange)
    requires CastDefined(minLevel, maxLevel, level, original, s)
    ensures r.min >= 1
    ensures r.max != 0 ==> r.min <= r.max
    ensures !s.extendLevels ==> r.min >= original.originalMin
    ensures !s.extendLevels && original.originalMax != 0 && original.originalMin >= 1 ==>
              NormalisedOriginal(original).originalMin <= r.min <= r.max <= NormalisedOriginal(original).originalMax
    ensures !s.extendLevels && original.originalMax != 0 && maxLevel == 0 ==>
              r.max == NormalisedOriginal(original).originalMax
    ensures !s.extendLevels && original.originalMax == 0 && maxLevel == 0 ==> r.max == 0
    ensures !s.extendLevels && original.originalMax == 0 && maxLevel != 0 && original.originalMin >= 1 ==>
              r.max >= original.originalMin
    ensures s.extendLevels && !s.includeLevelMult ==>
              r == LevelRange(if minLevel == 0 then 1 else minLevel, RequestedMax(minLevel, maxLevel))
    // With extension the scaled request is written, truncated, with the minimum floored at 1.
    ensures s.extendLevels ==>
              var lo := Scaled(minLevel, level, s).Floor;
              r == LevelRange(if lo < 1 then 1 else lo, Scaled(RequestedMax(minLevel, maxLevel), level, s).Floor)
    // Without extension and with a finite original range, a scaled value inside
    // the normalised range is written truncated; one outside takes the nearer end.
    ensures !s.extendLevels && original.originalMax != 0 ==>
              var o := NormalisedOriginal(original);
              var sMin := Scaled(minLevel, level, s);
              var sMax := Scaled(RequestedMax(minLevel, maxLevel), level, s);
              && (o.originalMin as real <= sMin <= o.originalMax as real ==>
                    r.min == if sMin.Floor < 1 then 1 else sMin.Floor)
              && (sMin < o.originalMin as real ==> r.min == if o.originalMin < 1 then 1 else o.originalMin)
              && (o.originalMax as real < sMin ==> r.min == o.originalMax)
              && (maxLevel != 0 && o.originalMin as real <= sMax <= o.originalMax as real ==>
                    r.max == if sMax.Floor < 1 then 0 else sMax.Floor)
              && (maxLevel != 0 && sMax < o.originalMin as real ==> r.max == o.originalMin)
              && (maxLevel != 0 && o.originalMax as real < sMax ==> r.max == o.originalMax)
    // Without extension and with an open original range, the scaled values are
    // only floored at the original minimum and never capped.
    ensures !s.extendLevels && original.originalMax == 0 ==>
              var sMin := Scaled(minLevel, level, s);
              var sMax := Scaled(RequestedMax(minLevel, maxLevel), level, s);
              var lo := if sMin.Floor < original.originalMin then original.originalMin else sMin.Floor;
              var hi := if sMax.Floor < original.originalMin then original.originalMin else sMax.Floor;
              && r.min == (if lo < 1 then 1 else lo)
              && (maxLevel != 0 ==> r.max == if hi < 1 then 0 else hi)
  {
    var t := Unrounded(minLevel, maxLevel, level, original, s);
    var minNew := t.0.Floor;
    var maxNew := t.1.Floor;
    LevelRange(if minNew <= 0 then 1 else minNew, if maxNew <= 0 then 0 else maxNew)
  }

  /** Normalising the original range again changes nothing. */
  lemma NormalisedOriginalIdempotent(o: ActorbaseData)
    ensures NormalisedOriginal(NormalisedOriginal(o)) == NormalisedOriginal(o)
  {
  }

  /** Only the normalised original range matters, so a record of either form gives the same bounds. */
  lemma ComputeBoundsOnNormalised(minLevel: UInt16, maxLevel: UInt16, level: UInt16, original: ActorbaseData, s: Settings)
    ensures CastDefined(minLevel, maxLevel, level, NormalisedOriginal(original), s)
              == CastDefined(minLevel, maxLevel, level, original, s)
    ensures CastDefined(minLevel, maxLevel, level, original, s) ==>
              ComputeBounds(minLevel, maxLevel, level, NormalisedOriginal(original), s)
              == ComputeBounds(minLevel, maxLevel, level, original, s)
  {
    NormalisedOriginalIdempotent(original);
  }

  /**
   * A zone 10-30 and a template of level 20 (multiplier 0.02) with original
   * range 5-80: the scaled request 0.2-0.6 is raised to the original minimum.
   */
  lemma ScaledRequestRaisedToOriginal(s: Settings)
    requires s.includeLevelMult && !s.extendLevels
    ensures CastDefined(10, 30, 20, ActorbaseData(5, 80), s)
    ensures ComputeBounds(10, 30, 20, ActorbaseData(5, 80), s) == LevelRange(5, 5)
  {
    assert Unrounded(10, 30, 20, ActorbaseData(5, 80), s) == (5.0, 5.0);
  }

  /**
   * The example of the player level multiplier setting: an NPC at twice the
   * player's level (authored 2000 per mille) in a zone of 10-30 is written
   * 20-60 when the range may be extended.
   */
  lemma DoubleLevelZoneScaled(original: ActorbaseData, s: Settings)
    requires s.includeLevelMult && s.extendLevels
    ensures CastDefined(10, 30, 2000, original, s)
    ensures ComputeBounds(10, 30, 2000, original, s) == LevelRange(20, 60)
  {
    assert Scaled(10, 2000, s) == 20.0;
    assert Scaled(30, 2000, s) == 60.0;
  }

  /** RelevelActorbase's scaling step: the request as floats, scaled by the multiplier when the setting asks for it. */
  method ScaleRequest(minLevel: UInt16, maxLevel: UInt16, level: UInt16, s: Settings)
    returns (minTmp: real, maxTmp: real)
    ensures minTmp == Scaled(minLevel, level, s) && maxTmp == Scaled(maxLevel, level, s)
    ensures minLevel <= maxLevel ==> minTmp <= maxTmp
  {
    var pcLevelMult := level as real / 1000.0;
    minTmp := minLevel as real;
    maxTmp := maxLevel as real;
    var factor := 1.0;
    if s.includeLevelMult {
      factor := pcLevelMult;
      minTmp := minTmp * factor;
      maxTmp := maxTmp * factor;
      if minLevel <= maxLevel {
        ScaleMonotone(minLevel as real, maxLevel as real, factor);
      }
    }
  }

  /** RelevelActorbase's clamping step: the scaled request clamped to the normalised original range, unless extension is allowed. */
  method ClampToOriginal(minTmp: real, maxTmp: real, maxLevel: UInt16, originalMin: UInt16, originalMax: UInt16, s: Settings)
    returns (minOut: real, maxOut: real)
    requires 0.0 <= minTmp && 0.0 <= maxTmp
    requires maxLevel != 0 ==> minTmp <= maxTmp
    requires maxLevel == 0 ==> maxTmp == 0.0
    requires originalMax == 0 || originalMin <= originalMax
    ensures (minOut, maxOut) == Clamped(minTmp, maxTmp, maxLevel, ActorbaseData(originalMin, originalMax), s)
  {
    minOut, maxOut := minTmp, maxTmp;
    if !s.extendLevels {
      if originalMax == 0 {
        minOut := RMax(minOut, originalMin as real);
        if maxLevel == 0 {
          maxOut := 0.0;
        } else {
          maxOut := RMax(maxOut, originalMin as real);
        }
      } else {
        minOut := RMin(RMax(minOut, originalMin as real), originalMax as real);
        if maxLevel == 0 {
          maxOut := originalMax as real;
        } else {
          maxOut := RMin(RMax(maxOut, originalMin as real), originalMax as real);
        }
      }
    }
  }

  /**
   * The arithmetic of RelevelActorbase step by step: the
   * normalised original range it hands on for recording, and the range it writes.
   */
  method RelevelBounds(minLevel: UInt16, maxLevel: UInt16, level: UInt16, original: ActorbaseData, s: Settings)
    returns (normalised: ActorbaseData, range: LevelRange)
    requires CastDefined(minLevel, maxLevel, level, original, s)
    ensures normalised == NormalisedOriginal(original)
    ensures range == ComputeBounds(minLevel, maxLevel, level, original, s)
  {
    var maxLevel' := maxLevel;
    if minLevel > maxLevel' && maxLevel' != 0 {
      maxLevel' := minLevel;
    }
    var originalMin := original.originalMin;
    var originalMax := original.originalMax;
    if originalMin > originalMax && originalMax != 0 {
      originalMax := originalMin;
    }
    var minTmp, maxTmp := ScaleRequest(minLevel, maxLevel', level, s);
    minTmp, maxTmp := ClampToOriginal(minTmp, maxTmp, maxLevel', originalMin, originalMax, s);
    var minNew := minTmp.Floor;
    var maxNew := maxTmp.Floor;
    if minNew <= 0 {
      minNew := 1;
    }
    if maxNew <= 0 {
      maxNew := 0;
    }
    normalised := ActorbaseData(originalMin, originalMax);
    range := LevelRange(minNew, maxNew);
  }
}

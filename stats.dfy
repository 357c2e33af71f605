/** Beatmap stats under modifiers (`std_beatmap_stats`, `modify_ar`,
    `modify_od`, `with_mods`). */
module Stats {
  import opened Numeric
  import opened Mods

  // Millisecond windows of overall difficulty 0 and 10, and of approach
  // rate 0, 5 and 10.
  const OD0_MS: real := 79.5
  const OD10_MS: real := 19.5
  const AR0_MS: real := 1800.0
  const AR5_MS: real := 1200.0
  const AR10_MS: real := 450.0

  const OD_MS_STEP: real := (OD0_MS - OD10_MS) / 10.0
  const AR_MS_STEP1: real := (AR0_MS - AR5_MS) / 5.0
  const AR_MS_STEP2: real := (AR5_MS - AR10_MS) / 5.0

  /** The millisecond window of an approach rate: linear between the
      windows of approach rates 0, 5 and 10. */
  function ArToMs(ar: real): real
  {
    if ar < 5.0 then AR0_MS - AR_MS_STEP1 * ar else AR5_MS - AR_MS_STEP2 * (ar - 5.0)
  }

  /** The approach rate of a millisecond window, the inverse of `ArToMs`. */
  function MsToAr(ms: real): real
  {
    if ms > AR5_MS then (AR0_MS - ms) / AR_MS_STEP1 else 5.0 + (AR5_MS - ms) / AR_MS_STEP2
  }

  /** The window of an approach rate, clamped to those of rates 0..10. */
  function ClampedArMs(ar: real): (r: real)
    ensures AR10_MS <= r <= AR0_MS
  {
    Min(AR0_MS, Max(AR10_MS, ArToMs(ar)))
  }

  /** `modify_ar`: scale the approach rate, take its clamped window, stretch
      the window by the speed multiplier and convert it back. */
  function ModifyAr(baseAr: real, speedMul: real, multiplier: real): real
    requires speedMul > 0.0
  {
    MsToAr(ClampedArMs(baseAr * multiplier) / speedMul)
  }

  /** The overall difficulty's window, rounded up to a whole millisecond and
      clamped to the windows of difficulties 0..10. */
  function ClampedOdMs(od: real): (r: real)
    ensures OD10_MS <= r <= OD0_MS
  {
    Min(OD0_MS, Max(OD10_MS, OD0_MS - Ceil(OD_MS_STEP * od) as real))
  }

  /** `modify_od`: the same conversion for the overall difficulty. */
  function ModifyOd(baseOd: real, speedMul: real, multiplier: real): real
    requires speedMul > 0.0
  {
    (OD0_MS - ClampedOdMs(baseOd * multiplier) / speedMul) / OD_MS_STEP
  }

  /** Converting an approach rate to its window and back is the identity. */
  lemma ArRoundTrip(ar: real)
    ensures MsToAr(ArToMs(ar)) == ar
  {
  }

  /** Without a speed change `modify_ar` only scales the approach rate and
      clamps it to [0, 10]. */
  lemma ArAtNormalSpeed(baseAr: real, multiplier: real)
    ensures ModifyAr(baseAr, 1.0, multiplier) == Min(10.0, Max(0.0, baseAr * multiplier))
  {
    var ar := baseAr * multiplier;
    assert ClampedArMs(ar) / 1.0 == ClampedArMs(ar);
  }

  /** Without a speed change `modify_od` scales the overall difficulty, rounds
      it up to a multiple of 1/6 (a whole millisecond) and clamps it to
      [0, 10]. */
  lemma OdAtNormalSpeed(baseOd: real, multiplier: real)
    ensures ModifyOd(baseOd, 1.0, multiplier) == Min(10.0, Max(0.0, Ceil(6.0 * baseOd * multiplier) as real / 6.0))
  {
    var od := baseOd * multiplier;
    assert ClampedOdMs(od) / 1.0 == ClampedOdMs(od);
    assert 6.0 * baseOd * multiplier == OD_MS_STEP * od;
  }

  /** Stretching a window in [lo, hi] by a speed multiplier between 0.75
      and 1.5 keeps it in [2/3 lo, 4/3 hi]. */
  lemma Stretched(c: real, s: real, lo: real, hi: real)
    requires 0.75 <= s <= 1.5 && 0.0 < lo <= c <= hi
    ensures lo * 2.0 / 3.0 <= c / s <= hi * 4.0 / 3.0
  {
    var q := c / s;
    assert c == q * s;
    MulMono(q, 0.75, s);
    MulMono(q, s, 1.5);
  }

  /** Whatever the base value, a modified approach rate lies in [-5, 11] for
      any speed multiplier between half time's 0.75 and double time's 1.5,
      the range the source's comment gives. */
  lemma ArRange(baseAr: real, speedMul: real, multiplier: real)
    requires 0.75 <= speedMul <= 1.5
    ensures -5.0 <= ModifyAr(baseAr, speedMul, multiplier) <= 11.0
  {
    Stretched(ClampedArMs(baseAr * multiplier), speedMul, AR10_MS, AR0_MS);
  }

  /** A modified overall difficulty lies in [-53/12, 133/12] (about -4.42
      to 11.08) for any speed multiplier between 0.75 and 1.5. */
  lemma OdRange(baseOd: real, speedMul: real, multiplier: real)
    requires 0.75 <= speedMul <= 1.5
    ensures -53.0 / 12.0 <= ModifyOd(baseOd, speedMul, multiplier) <= 133.0 / 12.0
  {
    Stretched(ClampedOdMs(baseOd * multiplier), speedMul, OD10_MS, OD0_MS);
  }

  /** The stats an `std_beatmap_stats` object holds. A stat the caller did
      not give is 0, which `with_mods` treats as "not requested". */
  datatype StatValues = StatValues(ar: real, od: real, hp: real, cs: real, speedMul: real)

  /** The time-speed multiplier: 1.5 under double time or nightcore, then
      times 0.75 under half time. */
  function SpeedMul(mods: Mask): real
  {
    (if DT in mods || NC in mods then 1.5 else 1.0) * (if HT in mods then 0.75 else 1.0)
  }

  /** The multiplier of approach rate, overall difficulty and drain: 1.4
      under hard rock, then times 0.5 under easy. */
  function DiffMultiplier(mods: Mask): real
  {
    (if HR in mods then 1.4 else 1.0) * (if EZ in mods then 0.5 else 1.0)
  }

  /** What `with_mods` computes for an object holding `base`. */
  function ApplyMods(base: StatValues, mods: Mask): StatValues
  {
    if mods * MapChanging == {} then base.(speedMul := 1.0)
    else
      var speedMul := SpeedMul(mods);
      var multiplier := DiffMultiplier(mods);
      var cs := base.cs * (if HR in mods then 1.3 else 1.0) * (if EZ in mods then 0.5 else 1.0);
      StatValues(
        if base.ar != 0.0 then ModifyAr(base.ar, speedMul, multiplier) else base.ar,
        if base.od != 0.0 then ModifyOd(base.od, speedMul, multiplier) else base.od,
        if base.hp != 0.0 then Min(10.0, base.hp * multiplier) else base.hp,
        if base.cs != 0.0 then Min(10.0, cs) else base.cs,
        speedMul)
  }

  lemma SpeedMulValues(mods: Mask)
    ensures SpeedMul(mods) in {1.0, 1.5, 0.75, 1.125}
    ensures 0.75 <= SpeedMul(mods) <= 1.5
  {
  }

  /** A mask without hard rock, easy or a speed change leaves every stat as
      it is, with speed multiplier 1. */
  lemma UnchangedWithoutMapChangingMods(base: StatValues, mods: Mask)
    requires HR !in mods && EZ !in mods && DT !in mods && HT !in mods && NC !in mods
    ensures ApplyMods(base, mods) == base.(speedMul := 1.0)
  {
    assert mods * MapChanging == {};
  }

  /** The speed multiplier is one of 1, 1.5, 0.75 and 1.125, and is 1
      exactly when no speed-changing modifier is set. */
  lemma SpeedMulOfApplyMods(base: StatValues, mods: Mask)
    ensures ApplyMods(base, mods).speedMul in {1.0, 1.5, 0.75, 1.125}
    ensures ApplyMods(base, mods).speedMul == 1.0 <==> mods * SpeedChanging == {}
  {
    if mods * SpeedChanging != {} {
      assert DT in mods || NC in mods || HT in mods;
    }
  }

  /** Ranges of the modified stats: approach rate in [-5, 11], overall
      difficulty in [-53/12, 133/12], both in [0, 10] at speed 1; circle size
      and drain at most 10; stats that were 0 stay 0. */
  lemma ApplyModsRanges(base: StatValues, mods: Mask)
    ensures var r := ApplyMods(base, mods);
      && (base.ar == 0.0 ==> r.ar == 0.0)
      && (base.od == 0.0 ==> r.od == 0.0)
      && (base.hp == 0.0 ==> r.hp == 0.0)
      && (base.cs == 0.0 ==> r.cs == 0.0)
      && (mods * MapChanging != {} ==>
            && -5.0 <= r.ar <= 11.0
            && -53.0 / 12.0 <= r.od <= 133.0 / 12.0
            && r.hp <= 10.0
            && r.cs <= 10.0
            && (r.speedMul == 1.0 ==> 0.0 <= r.ar <= 10.0 && 0.0 <= r.od <= 10.0))
  {
    if mods * MapChanging != {} {
      var speedMul := SpeedMul(mods);
      var multiplier := DiffMultiplier(mods);
      SpeedMulValues(mods);
      ArRange(base.ar, speedMul, multiplier);
      OdRange(base.od, speedMul, multiplier);
      if speedMul == 1.0 {
        ArAtNormalSpeed(base.ar, multiplier);
        OdAtNormalSpeed(base.od, multiplier);
      }
    }
  }

  /** `std_beatmap_stats`: stats plus the cache of their modified copies,
      keyed by modifier mask. */
  class BeatmapStats {
    var ar: real
    var od: real
    var hp: real
    var cs: real
    var speedMul: real
    var modsCache: map<Mask, BeatmapStats>

    function Values(): StatValues
      reads this
    {
      StatValues(ar, od, hp, cs, speedMul)
    }

    /** Copies the four stats of `values`; the speed multiplier starts at 1
        and the cache empty. */
    constructor (values: StatValues)
      ensures Values() == values.(speedMul := 1.0)
      ensures modsCache == map[]
    {
      ar := values.ar;
      od := values.od;
      hp := values.hp;
      cs := values.cs;
      speedMul := 1.0;
      modsCache := map[];
    }

    /** `with_mods`: the first call for a mask builds a fresh modified copy
        and caches it; later calls for the same mask return that very object
        without recomputing it. The stats of this object never change. */
    method WithMods(mods: Mask) returns (stats: BeatmapStats)
      modifies this`modsCache
      ensures mods in old(modsCache) ==> stats == old(modsCache)[mods] && modsCache == old(modsCache)
      ensures mods !in old(modsCache) ==>
        && fresh(stats)
        && modsCache == old(modsCache)[mods := stats]
        && stats.Values() == ApplyMods(Values(), mods)
        && stats.modsCache == map[]
    {
      if mods in modsCache {
        return modsCache[mods];
      }
      stats := new BeatmapStats(Values());
      modsCache := modsCache[mods := stats];
      if mods * MapChanging == {} {
        return;
      }
      var modded := ModifiedValues(Values(), mods);
      stats.speedMul, stats.ar, stats.od, stats.cs, stats.hp := modded.speedMul, modded.ar, modded.od, modded.cs, modded.hp;
    }
  }

  /** The stat updates of `with_mods` for a mask with a map-changing
      modifier, one step at a time. */
  method ModifiedValues(base: StatValues, mods: Mask) returns (r: StatValues)
    requires mods * MapChanging != {}
    ensures r == ApplyMods(base, mods)
  {
    var speedMul := 1.0;
    if DT in mods || NC in mods {
      speedMul := 1.5;
    }
    if HT in mods {
      speedMul := speedMul * 0.75;
    }
    var multiplier := 1.0;
    if HR in mods {
      multiplier := 1.4;
    }
    if EZ in mods {
      multiplier := multiplier * 0.5;
    }
    assert speedMul == SpeedMul(mods);
    assert multiplier == DiffMultiplier(mods);
    var ar, od, cs, hp := base.ar, base.od, base.cs, base.hp;
    if ar != 0.0 {
      ar := ModifyAr(ar, speedMul, multiplier);
    }
    if od != 0.0 {
      od := ModifyOd(od, speedMul, multiplier);
    }
    if cs != 0.0 {
      if HR in mods {
        cs := cs * 1.3;
      }
      if EZ in mods {
        cs := cs * 0.5;
      }
      cs := Min(10.0, cs);
    }
    if hp != 0.0 {
      hp := Min(10.0, hp * multiplier);
    }
    r := StatValues(ar, od, hp, cs, speedMul);
  }

  /** Two calls with the same mask return the same object. */
  method WithModsTwice(base: StatValues, mods: Mask) returns (first: BeatmapStats, second: BeatmapStats)
    ensures first == second
    ensures first.Values() == ApplyMods(base.(speedMul := 1.0), mods)
  {
    var s := new BeatmapStats(base);
    first := s.WithMods(mods);
    second := s.WithMods(mods);
  }
}

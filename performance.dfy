/** `std_ppv2`: the performance points of an osu!standard play, computed from
    raw parameters (star ratings, object counts, base AR and OD, modifiers,
    combo and hit counts). */
module Performance {
  import opened Numeric
  import opened Mods
  import opened Stats
  import opened Accuracy
  import Beatmaps

  /** The parameters `calc` reads on the raw-parameter path; each may be
      left out. */
  datatype PpParams = PpParams(
    aimStars: Option<real>,
    speedStars: Option<real>,
    maxCombo: Option<int>,
    sliderCount: Option<int>,
    circleCount: Option<int>,
    nobjects: Option<int>,
    baseAr: Option<real>,
    baseOd: Option<real>,
    mode: Option<int>,
    mods: Option<Mask>,
    combo: Option<int>,
    n300: Option<int>,
    n100: Option<int>,
    n50: Option<int>,
    nmiss: Option<int>,
    scoreVersion: Option<int>,
    accPercent: Option<real>)

  /** The parameters once checked and defaulted. */
  datatype Inputs = Inputs(
    aimStars: real,
    speedStars: real,
    maxCombo: int,
    sliderCount: int,
    circleCount: int,
    nobjects: int,
    baseAr: real,
    baseOd: real,
    mods: Mask,
    combo: int,
    n300: int,
    n100: int,
    n50: int,
    nmiss: int,
    scoreVersion: int,
    accPercent: Option<real>)

  /** A count JavaScript treats as true: present and not 0. */
  predicate Given(x: Option<int>)
  {
    x.Some? && x.value != 0
  }

  /** Parameter handling of `calc`: the maximum combo must be positive, the
      slider, circle and object counts present and non-zero, the objects at
      least the sliders plus circles, and both star ratings present. Left-out
      AR and OD are 5, left-out modifiers none, left-out misses, 50s and 100s
      0, left-out 300s the objects not otherwise counted, a left-out combo
      the maximum combo less the misses, and the score version 1 unless
      given non-zero. */
  function RawInputs(p: PpParams): (r: Result<Inputs>)
    ensures r.Ok? <==>
      && Given(p.maxCombo) && p.maxCombo.value > 0
      && Given(p.sliderCount) && Given(p.circleCount) && Given(p.nobjects)
      && p.nobjects.value >= p.sliderCount.value + p.circleCount.value
      && p.aimStars.Some? && p.speedStars.Some?
    ensures r.Ok? ==>
      && r.value.maxCombo > 0
      && r.value.nobjects >= r.value.sliderCount + r.value.circleCount
      && r.value.nobjects != 0 && r.value.sliderCount != 0 && r.value.circleCount != 0
      && r.value.scoreVersion != 0
      && (p.n300 == None ==> r.value.n300 + r.value.n100 + r.value.n50 + r.value.nmiss == r.value.nobjects)
      && (p.combo == None ==> r.value.combo + r.value.nmiss == r.value.maxCombo)
      && (p.baseAr == None ==> r.value.baseAr == 5.0)
      && (p.baseOd == None ==> r.value.baseOd == 5.0)
  {
    if !Given(p.maxCombo) || p.maxCombo.value < 0 then
      Err(InvalidInput("max_combo must be > 0"))
    else if !Given(p.sliderCount) || !Given(p.circleCount) || !Given(p.nobjects) then
      Err(MissingInput("sliderCount, circleCount, nobjects are required"))
    else if p.nobjects.value < p.sliderCount.value + p.circleCount.value then
      Err(InvalidInput("nobjects must be >= sliderCount + circleCount"))
    else if p.aimStars == None || p.speedStars == None then
      Err(MissingInput("aim and speed stars required"))
    else
      var maxCombo := p.maxCombo.value;
      var nobjects := p.nobjects.value;
      var nmiss := OrZero(p.nmiss);
      var n50 := OrZero(p.n50);
      var n100 := OrZero(p.n100);
      Ok(Inputs(
        p.aimStars.value,
        p.speedStars.value,
        maxCombo,
        p.sliderCount.value,
        p.circleCount.value,
        nobjects,
        if p.baseAr == None then 5.0 else p.baseAr.value,
        if p.baseOd == None then 5.0 else p.baseOd.value,
        if p.mods == None then NoMod else p.mods.value,
        if p.combo == None then maxCombo - nmiss else p.combo.value,
        if p.n300 == None then nobjects - n100 - n50 - nmiss else p.n300.value,
        n100,
        n50,
        nmiss,
        if p.scoreVersion == None || p.scoreVersion == Some(0) then 1 else p.scoreVersion.value,
        p.accPercent))
  }

  /** Integer powers of non-negative bases grow with the base. */
  lemma {:induction false} PowMono(x: real, y: real, n: nat)
    requires 0.0 <= x <= y
    ensures 0.0 <= Pow(x, n) <= Pow(y, n)
  {
    if n > 0 {
      PowMono(x, y, n - 1);
      var px, py := Pow(x, n - 1), Pow(y, n - 1);
      MulMono(px, x, y);
      MulMono(y, px, py);
      NonNegMul(x, px);
      assert Pow(x, n) == x * px <= y * px <= y * py == Pow(y, n);
    }
  }

  lemma CubeMono(x: real, y: real)
    requires 1.0 <= x <= y
    ensures 1.0 <= Pow(x, 3) <= Pow(y, 3)
  {
    PowMono(1.0, x, 3);
    PowMono(x, y, 3);
    assert Pow(1.0, 3) == 1.0;
  }

  /** `_base`: the pp a star rating is worth before any bonus, never less
      than 1e-5, which is its value for ratings up to 0.0675. */
  function Base(stars: real): (r: real)
    ensures r >= 0.00001
    ensures stars <= 0.0675 ==> r == 0.00001
  {
    var x := 5.0 * Max(1.0, stars / 0.0675) - 4.0;
    CubeMono(1.0, x);
    assert stars <= 0.0675 ==> x == 1.0 && Pow(x, 3) == 1.0;
    Pow(x, 3) / 100000.0
  }

  /** `_base` never decreases as the rating grows. */
  lemma BaseMonotone(s: real, t: real)
    requires s <= t
    ensures Base(s) <= Base(t)
  {
    var x := 5.0 * Max(1.0, s / 0.0675) - 4.0;
    var y := 5.0 * Max(1.0, t / 0.0675) - 4.0;
    assert s / 0.0675 <= t / 0.0675;
    CubeMono(x, y);
  }

  /** The length bonus: 0.95, plus 0.4 per 2000 objects up to 2000 objects,
      plus half the decimal logarithm of the objects over 2000 beyond. */
  function LengthBonus(m: Transcendentals, nobjects: int): real
  {
    var over2k := nobjects as real / 2000.0;
    var bonus := 0.95 + 0.4 * Min(1.0, over2k);
    if nobjects > 2000 then bonus + m.log10(over2k) * 0.5 else bonus
  }

  /** Up to 2000 objects the bonus grows linearly from 0.95 to 1.35 and
      involves no logarithm; beyond it is at least 1.35. */
  lemma LengthBonusRange(m: Transcendentals, nobjects: int)
    requires Sane(m)
    ensures 0 <= nobjects <= 2000 ==>
      LengthBonus(m, nobjects) == 0.95 + nobjects as real / 5000.0 &&
      0.95 <= LengthBonus(m, nobjects) <= 1.35
    ensures nobjects > 2000 ==> LengthBonus(m, nobjects) >= 1.35
    ensures nobjects > 0 ==> LengthBonus(m, nobjects) >= 0.95
  {
    if nobjects > 2000 {
      assert m.log10(nobjects as real / 2000.0) >= 0.0;
    }
  }

  /** `Math.pow(0.97, nmiss)` for an integer number of misses. */
  function MissPenalty(nmiss: int): (r: real)
    ensures r > 0.0
  {
    PowPositive(0.97, if nmiss >= 0 then nmiss else -nmiss);
    if nmiss >= 0 then Pow(0.97, nmiss) else 1.0 / Pow(0.97, -nmiss)
  }

  /** Each miss multiplies the penalty by 0.97, so that it lies in (0, 1]
      and never increases with the misses. */
  lemma {:induction false} MissPenaltyDecreasing(a: nat, b: nat)
    requires a <= b
    ensures 0.0 < MissPenalty(b) <= MissPenalty(a) <= 1.0
    decreases b
  {
    if a == b {
      PowAtMostOne(0.97, a);
    } else {
      MissPenaltyDecreasing(a, b - 1);
      PowPositive(0.97, b - 1);
      assert Pow(0.97, b) == 0.97 * Pow(0.97, b - 1);
    }
  }

  /** The combo ratio, with the 0.8 power left to the transcendentals. */
  function ComboBreak(m: Transcendentals, combo: int, maxCombo: int): (r: real)
    requires Sane(m) && maxCombo > 0
    ensures combo >= 0 ==> r >= 0.0
  {
    m.pow(combo as real, 0.8) / m.pow(maxCombo as real, 0.8)
  }

  /** The low-AR part of the AR bonus, 0.01 per AR step below 8. */
  function LowArBonus(ar: real): real
  {
    0.01 * (8.0 - ar)
  }

  /** The AR bonus: 0.45 per AR step above 10.33, the low-AR part below 8
      (doubled under hidden), none in between. */
  function ArBonus(ar: real, hidden: bool): (r: real)
    ensures r >= 1.0
  {
    if ar > 10.33 then 1.0 + 0.45 * (ar - 10.33)
    else if ar < 8.0 then 1.0 + (if hidden then LowArBonus(ar) * 2.0 else LowArBonus(ar))
    else 1.0
  }

  /** Hidden doubles the part of the AR bonus above 1 below AR 8 and leaves
      it alone elsewhere. */
  lemma ArBonusHidden(ar: real)
    ensures ar < 8.0 ==> ArBonus(ar, true) - 1.0 == 2.0 * (ArBonus(ar, false) - 1.0) > 0.0
    ensures ar >= 8.0 ==> ArBonus(ar, true) == ArBonus(ar, false)
    ensures 8.0 <= ar <= 10.33 ==> ArBonus(ar, true) == 1.0
  {
  }

  /** The accuracy bonus `0.5 + accuracy / 2`, in [0.5, 1] for an accuracy
      in [0, 1]. */
  function AccBonus(accuracy: real): (r: real)
    ensures 0.0 <= accuracy <= 1.0 ==> 0.5 <= r <= 1.0
    ensures accuracy == 1.0 ==> r == 1.0
  {
    0.5 + accuracy / 2.0
  }

  /** The OD bonus `0.98 + od^2 / 2500`, at least 0.98. */
  function OdBonus(od: real): (r: real)
    ensures r >= 0.98
    ensures od == 0.0 ==> r == 0.98
  {
    0.98 + (od * od) / 2500.0
  }

  /** The multiplier of the total: 1.12, times 0.9 under no fail and 0.95
      under spun out. */
  function FinalMultiplier(mods: Mask): (r: real)
    ensures 0.9576 <= r <= 1.12
    ensures r == 1.12 <==> NF !in mods && SO !in mods
    ensures NF in mods && SO in mods ==> r == 0.9576
  {
    var f := 1.12;
    var f := if NF in mods then f * 0.90 else f;
    if SO in mods then f * 0.95 else f
  }

  /** The aim pp of `calc`. */
  function AimPp(m: Transcendentals, play: Inputs, stats: StatValues, accuracy: real): real
    requires Sane(m) && play.maxCombo > 0
  {
    AimFrom(Base(play.aimStars), LengthBonus(m, play.nobjects), MissPenalty(play.nmiss),
      ComboBreak(m, play.combo, play.maxCombo), ArBonus(stats.ar, HD in play.mods),
      AccBonus(accuracy), OdBonus(stats.od), play.mods)
  }

  /** The speed pp of `calc`. */
  function SpeedPp(m: Transcendentals, play: Inputs, stats: StatValues, accuracy: real): real
    requires Sane(m) && play.maxCombo > 0
  {
    SpeedFrom(Base(play.speedStars), LengthBonus(m, play.nobjects), MissPenalty(play.nmiss),
      ComboBreak(m, play.combo, play.maxCombo), AccBonus(accuracy), OdBonus(stats.od))
  }

  /** The speed steps of `calc` on their factors: the aim steps without the
      AR, hidden and flashlight terms. */
  function SpeedFrom(base: real, lengthBonus: real, missPenalty: real, comboBreak: real,
                     accBonus: real, odBonus: real): real
  {
    var speed := base * lengthBonus;
    var speed := speed * missPenalty;
    var speed := speed * comboBreak;
    var speed := speed * accBonus;
    speed * odBonus
  }

  /** The accuracy the accuracy pp is computed from and the circle count it
      is scaled by. Score v1 recounts the accuracy without the sliders and
      spinners, whose 300s are free, and clamps it at 0; score v2 takes the
      play's accuracy over all objects; other versions are unsupported. */
  function RealAccuracy(play: Inputs, counts: Counts, accuracy: real): (r: Result<(real, int)>)
    ensures r.Err? <==> (play.scoreVersion !in {1, 2} || (play.scoreVersion == 1 &&
      Value(Counts(MaxInt(0, counts.n300 - (play.nobjects - play.circleCount)), counts.n100, counts.n50, play.nmiss), None).Err?))
    ensures play.scoreVersion !in {1, 2} ==> r == Err(UnsupportedScoreVersion)
    ensures r.Ok? && 0.0 <= accuracy <= 1.0 ==> 0.0 <= r.value.0 <= 1.0
    ensures r.Ok? ==> r.value.1 == (if play.scoreVersion == 1 then play.circleCount else play.nobjects)
  {
    if play.scoreVersion == 1 then
      var spinnerCount := play.nobjects - play.sliderCount - play.circleCount;
      var recount := Counts(MaxInt(0, counts.n300 - play.sliderCount - spinnerCount), counts.n100, counts.n50, play.nmiss);
      match Value(recount, None)
      case Err(e) => Err(e)
      case Ok(v) => Ok((Max(0.0, v), play.circleCount))
    else if play.scoreVersion == 2 then
      Ok((accuracy, play.nobjects))
    else
      Err(UnsupportedScoreVersion)
  }

  /** A play of only 300s over at least one circle has real accuracy 1
      under both score versions. */
  lemma PerfectRealAccuracy(play: Inputs, accuracy: real)
    requires play.scoreVersion in {1, 2} && play.circleCount > 0
    requires play.n300 == play.nobjects && play.n100 == 0 && play.n50 == 0 && play.nmiss == 0
    requires play.scoreVersion == 2 ==> accuracy == 1.0
    ensures RealAccuracy(play, Counts(play.n300, 0, 0, 0), accuracy).Ok?
    ensures RealAccuracy(play, Counts(play.n300, 0, 0, 0), accuracy).value.0 == 1.0
  {
    if play.scoreVersion == 1 {
      var spinnerCount := play.nobjects - play.sliderCount - play.circleCount;
      assert play.n300 - play.sliderCount - spinnerCount == play.circleCount;
      PerfectValue(play.circleCount, None);
    }
  }

  /** The accuracy pp of `calc`. */
  function AccPp(m: Transcendentals, od: real, realAcc: real, circleCount: int, mods: Mask): real
  {
    var acc := m.pow(1.52163, od) * Pow(realAcc, 24) * 2.83;
    var acc := acc * Min(1.15, m.pow(circleCount as real / 1000.0, 0.3));
    var acc := if HD in mods then acc * 1.02 else acc;
    if FL in mods then acc * 1.02 else acc
  }

  /** The total: the 1.1-norm of the three parts, times the final
      multiplier. */
  function TotalPp(m: Transcendentals, aim: real, speed: real, acc: real, mods: Mask): real
  {
    m.pow(m.pow(aim, 1.1) + m.pow(speed, 1.1) + m.pow(acc, 1.1), 1.0 / 1.1) * FinalMultiplier(mods)
  }

  /** The fields of a `std_ppv2`. */
  datatype PpState = PpState(aim: real, speed: real, acc: real, total: real, computedAccuracy: Option<Counts>)

  /** The accuracy request `calc` makes: the play's counts, its percentage
      if given, and the object count. */
  function AccuracyRequest(play: Inputs): AccuracyValues
  {
    AccuracyValues(Some(play.n300), Some(play.n100), Some(play.n50), Some(play.nmiss), play.accPercent, Some(play.nobjects))
  }

  /** The AR and OD `calc` works with: the base ones under the play's
      modifiers. */
  function ModdedStats(play: Inputs): StatValues
  {
    ApplyMods(StatValues(play.baseAr, play.baseOd, 0.0, 0.0, 1.0), play.mods)
  }

  /** `std_ppv2.prototype.calc` on raw parameters: the new fields and the
      total or the error. Nothing changes when the parameters are rejected,
      and the computed accuracy is recorded as soon as it exists. */
  function PpCalc(m: Transcendentals, p: PpParams, before: PpState): (r: (PpState, Result<real>))
    requires Sane(m)
    ensures RawInputs(p).Err? ==> r == (before, Err(RawInputs(p).error))
    ensures r.1.Ok? ==>
      && RawInputs(p).Ok? && RawInputs(p).value.scoreVersion in {1, 2}
      && r.0.total == r.1.value && r.0.computedAccuracy.Some?
    ensures RawInputs(p).Ok? && RawInputs(p).value.scoreVersion !in {1, 2} ==>
      r.1.Err? && r.0.acc == before.acc && r.0.total == before.total
  {
    match RawInputs(p)
    case Err(e) => (before, Err(e))
    case Ok(play) =>
      match Inferred(AccuracyRequest(play))
      case Err(e) => (before, Err(e))
      case Ok(counts) =>
        var s1 := before.(computedAccuracy := Some(counts));
        match Value(counts, None)
        case Err(e) => (s1, Err(e))
        case Ok(accuracy) => PpParts(m, play, ModdedStats(play), counts, accuracy, s1)
  }

  /** The pp parts of `calc` once the accuracy is known. The aim and speed
      pp are set before the score version is checked, so that an
      unsupported version leaves only the accuracy pp and the total as they
      were. */
  function PpParts(m: Transcendentals, play: Inputs, stats: StatValues, counts: Counts, accuracy: real,
                   before: PpState): (r: (PpState, Result<real>))
    requires Sane(m) && play.maxCombo > 0
    ensures r.0.computedAccuracy == before.computedAccuracy
    ensures r.0.aim == AimPp(m, play, stats, accuracy) && r.0.speed == SpeedPp(m, play, stats, accuracy)
    ensures r.1.Ok? ==> play.scoreVersion in {1, 2} && r.0.total == r.1.value
    ensures play.scoreVersion !in {1, 2} ==>
      r.1 == Err(UnsupportedScoreVersion) && r.0.acc == before.acc && r.0.total == before.total
  {
    var aim := AimPp(m, play, stats, accuracy);
    var speed := SpeedPp(m, play, stats, accuracy);
    var s2 := before.(aim := aim, speed := speed);
    match RealAccuracy(play, counts, accuracy)
    case Err(e) => (s2, Err(e))
    case Ok(ra) =>
      var acc := AccPp(m, stats.od, ra.0, ra.1, play.mods);
      var total := TotalPp(m, aim, speed, acc, play.mods);
      (s2.(acc := acc, total := total), Ok(total))
  }

  lemma NonNegMul(a: real, b: real)
    requires a >= 0.0 && b >= 0.0
    ensures a * b >= 0.0
  {
  }

  lemma {:induction false} PowNonNegative(b: real, n: nat)
    requires 0.0 <= b <= 1.0
    ensures 0.0 <= Pow(b, n) <= 1.0
  {
    if n > 0 {
      PowNonNegative(b, n - 1);
      var p := Pow(b, n - 1);
      MulMono(p, b, 1.0);
      NonNegMul(b, p);
      assert Pow(b, n) == b * p == p * b <= p * 1.0 == p;
    }
  }

  lemma AimPpNonNegative(m: Transcendentals, play: Inputs, stats: StatValues, accuracy: real)
    requires Sane(m) && play.maxCombo > 0 && play.combo >= 0 && play.nobjects > 0
    requires 0.0 <= accuracy <= 1.0
    ensures AimPp(m, play, stats, accuracy) >= 0.0
  {
    LengthBonusRange(m, play.nobjects);
    AimFromNonNegative(Base(play.aimStars), LengthBonus(m, play.nobjects), MissPenalty(play.nmiss),
      ComboBreak(m, play.combo, play.maxCombo), ArBonus(stats.ar, HD in play.mods),
      AccBonus(accuracy), OdBonus(stats.od), play.mods);
  }

  lemma AimFromNonNegative(base: real, lengthBonus: real, missPenalty: real, comboBreak: real,
                           arBonus: real, accBonus: real, odBonus: real, mods: Mask)
    requires base >= 0.0 && lengthBonus >= 0.0 && missPenalty >= 0.0 && comboBreak >= 0.0
    requires arBonus >= 0.0 && accBonus >= 0.0 && odBonus >= 0.0
    ensures AimFrom(base, lengthBonus, missPenalty, comboBreak, arBonus, accBonus, odBonus, mods) >= 0.0
  {
    var aim := base * lengthBonus;
    NonNegMul(base, lengthBonus);
    var aim1 := aim * missPenalty;
    NonNegMul(aim, missPenalty);
    var aim2 := aim1 * comboBreak;
    NonNegMul(aim1, comboBreak);
    var aim3 := aim2 * arBonus;
    NonNegMul(aim2, arBonus);
    var aim4 := if HD in mods then aim3 * 1.18 else aim3;
    NonNegMul(aim4, 1.45 * lengthBonus);
    var aim5 := if FL in mods then aim4 * (1.45 * lengthBonus) else aim4;
    NonNegMul(aim5, accBonus);
    NonNegMul(aim5 * accBonus, odBonus);
  }

  lemma SpeedPpNonNegative(m: Transcendentals, play: Inputs, stats: StatValues, accuracy: real)
    requires Sane(m) && play.maxCombo > 0 && play.combo >= 0 && play.nobjects > 0
    requires 0.0 <= accuracy <= 1.0
    ensures SpeedPp(m, play, stats, accuracy) >= 0.0
  {
    LengthBonusRange(m, play.nobjects);
    var speed := Base(play.speedStars) * LengthBonus(m, play.nobjects);
    NonNegMul(Base(play.speedStars), LengthBonus(m, play.nobjects));
    var speed1 := speed * MissPenalty(play.nmiss);
    NonNegMul(speed, MissPenalty(play.nmiss));
    var speed2 := speed1 * ComboBreak(m, play.combo, play.maxCombo);
    NonNegMul(speed1, ComboBreak(m, play.combo, play.maxCombo));
    NonNegMul(speed2, AccBonus(accuracy));
    NonNegMul(speed2 * AccBonus(accuracy), OdBonus(stats.od));
  }

  lemma AccPpNonNegative(m: Transcendentals, od: real, realAcc: real, circleCount: int, mods: Mask)
    requires Sane(m) && 0.0 <= realAcc <= 1.0 && circleCount >= 0
    ensures AccPp(m, od, realAcc, circleCount, mods) >= 0.0
  {
    PowNonNegative(realAcc, 24);
    var acc := m.pow(1.52163, od) * Pow(realAcc, 24);
    NonNegMul(m.pow(1.52163, od), Pow(realAcc, 24));
    var acc1 := acc * 2.83;
    var scale := Min(1.15, m.pow(circleCount as real / 1000.0, 0.3));
    assert scale >= 0.0;
    NonNegMul(acc1, scale);
  }

  /** A play with a non-negative combo over at least one object and circle
      that gets a total has non-negative aim, speed, accuracy and total pp. */
  lemma PpNonNegative(m: Transcendentals, p: PpParams, before: PpState)
    requires Sane(m)
    requires RawInputs(p).Ok? && RawInputs(p).value.combo >= 0
    requires RawInputs(p).value.nobjects > 0 && RawInputs(p).value.circleCount > 0
    requires PpCalc(m, p, before).1.Ok?
    ensures var s := PpCalc(m, p, before).0;
      s.aim >= 0.0 && s.speed >= 0.0 && s.acc >= 0.0 && s.total >= 0.0
  {
    var play := RawInputs(p).value;
    var counts := Inferred(AccuracyRequest(play)).value;
    var accuracy := Value(counts, None).value;
    PpPartsNonNegative(m, play, ModdedStats(play), counts, accuracy, before.(computedAccuracy := Some(counts)));
  }

  lemma PpPartsNonNegative(m: Transcendentals, play: Inputs, stats: StatValues, counts: Counts, accuracy: real,
                           before: PpState)
    requires Sane(m) && play.maxCombo > 0 && play.combo >= 0
    requires play.nobjects > 0 && play.circleCount > 0 && 0.0 <= accuracy <= 1.0
    requires PpParts(m, play, stats, counts, accuracy, before).1.Ok?
    ensures var s := PpParts(m, play, stats, counts, accuracy, before).0;
      s.aim >= 0.0 && s.speed >= 0.0 && s.acc >= 0.0 && s.total >= 0.0
  {
    var ra := RealAccuracy(play, counts, accuracy).value;
    AimPpNonNegative(m, play, stats, accuracy);
    SpeedPpNonNegative(m, play, stats, accuracy);
    AccPpNonNegative(m, stats.od, ra.0, ra.1, play.mods);
    var aim := AimPp(m, play, stats, accuracy);
    var speed := SpeedPp(m, play, stats, accuracy);
    var acc := AccPp(m, stats.od, ra.0, ra.1, play.mods);
    var sum := m.pow(aim, 1.1) + m.pow(speed, 1.1) + m.pow(acc, 1.1);
    assert sum >= 0.0;
    NonNegMul(m.pow(sum, 1.0 / 1.1), FinalMultiplier(play.mods));
  }

  /** `std_ppv2`: the parts of the last computed pp and the accuracy it was
      computed for. */
  class StdPpv2 {
    var aim: real
    var speed: real
    var acc: real
    /** Not set until a computation completes; 0 here. */
    var total: real
    var computedAccuracy: Option<Counts>

    function State(): PpState
      reads this
    {
      PpState(aim, speed, acc, total, computedAccuracy)
    }

    constructor ()
      ensures State() == PpState(0.0, 0.0, 0.0, 0.0, None)
    {
      aim := 0.0;
      speed := 0.0;
      acc := 0.0;
      total := 0.0;
      computedAccuracy := None;
    }

    /** `calc` on raw parameters. */
    method Calc(m: Transcendentals, params: PpParams) returns (r: Result<real>)
      requires Sane(m)
      modifies this
      ensures (State(), r) == PpCalc(m, params, old(State()))
    {
      var raw := RawInputs(params);
      if raw.Err? {
        return Err(raw.error);
      }
      var play := raw.value;
      var lengthBonus := LengthBonus(m, play.nobjects);
      var missPenalty := MissPenalty(play.nmiss);
      var comboBreak := ComboBreak(m, play.combo, play.maxCombo);
      var baseStats := new BeatmapStats(StatValues(play.baseAr, play.baseOd, 0.0, 0.0, 1.0));
      var mapstats := baseStats.WithMods(play.mods);
      assert mapstats.ar == ModdedStats(play).ar && mapstats.od == ModdedStats(play).od;

      var computed := NewAccuracy(AccuracyRequest(play));
      if computed.Err? {
        return Err(computed.error);
      }
      computedAccuracy := Some(computed.value);
      var value := Value(computed.value, None);
      if value.Err? {
        return Err(value.error);
      }
      r := CalcParts(m, play, computed.value, value.value, lengthBonus, missPenalty, comboBreak, mapstats.ar, mapstats.od);
    }

    /** The pp parts of `calc` from the accuracy on. */
    method CalcParts(m: Transcendentals, play: Inputs, counts: Counts, accuracy: real,
                     lengthBonus: real, missPenalty: real, comboBreak: real, ar: real, od: real)
      returns (r: Result<real>)
      requires Sane(m) && play.maxCombo > 0
      requires lengthBonus == LengthBonus(m, play.nobjects) && missPenalty == MissPenalty(play.nmiss)
      requires comboBreak == ComboBreak(m, play.combo, play.maxCombo)
      requires ar == ModdedStats(play).ar && od == ModdedStats(play).od
      modifies this`aim, this`speed, this`acc, this`total
      ensures (State(), r) == PpParts(m, play, ModdedStats(play), counts, accuracy, old(State()))
    {
      var arBonus := 1.0;
      if ar > 10.33 {
        arBonus := arBonus + 0.45 * (ar - 10.33);
      } else if ar < 8.0 {
        var lowArBonus := LowArBonus(ar);
        if HD in play.mods {
          lowArBonus := lowArBonus * 2.0;
        }
        arBonus := arBonus + lowArBonus;
      }
      assert arBonus == ArBonus(ar, HD in play.mods);
      var accBonus := AccBonus(accuracy);
      var odBonus := OdBonus(od);
      aim := AimSteps(Base(play.aimStars), lengthBonus, missPenalty, comboBreak, arBonus, accBonus, odBonus, play.mods);
      speed := SpeedSteps(Base(play.speedStars), lengthBonus, missPenalty, comboBreak, accBonus, odBonus);

      var realAcc := accuracy;
      var circleCount := play.circleCount;
      if play.scoreVersion == 1 {
        var spinnerCount := play.nobjects - play.sliderCount - play.circleCount;
        var recount := Value(Counts(MaxInt(0, counts.n300 - play.sliderCount - spinnerCount), counts.n100, counts.n50, play.nmiss), None);
        if recount.Err? {
          return Err(recount.error);
        }
        realAcc := Max(0.0, recount.value);
      } else if play.scoreVersion == 2 {
        circleCount := play.nobjects;
      } else {
        return Err(UnsupportedScoreVersion);
      }
      assert RealAccuracy(play, counts, accuracy) == Ok((realAcc, circleCount));

      acc := AccSteps(m, od, realAcc, circleCount, play.mods);
      total := TotalSteps(m, aim, speed, acc, play.mods);
      r := Ok(total);
    }
  }

  /** The aim steps of `calc`, one factor at a time. */
  method AimSteps(base: real, lengthBonus: real, missPenalty: real, comboBreak: real,
                  arBonus: real, accBonus: real, odBonus: real, mods: Mask) returns (aim: real)
    ensures aim == AimFrom(base, lengthBonus, missPenalty, comboBreak, arBonus, accBonus, odBonus, mods)
  {
    aim := base * lengthBonus;
    aim := aim * missPenalty;
    aim := aim * comboBreak;
    aim := aim * arBonus;
    if HD in mods {
      aim := aim * 1.18;
    }
    if FL in mods {
      aim := aim * (1.45 * lengthBonus);
    }
    aim := aim * accBonus;
    aim := aim * odBonus;
  }

  /** The speed steps of `calc`, one factor at a time. */
  method SpeedSteps(base: real, lengthBonus: real, missPenalty: real, comboBreak: real,
                    accBonus: real, odBonus: real) returns (speed: real)
    ensures speed == SpeedFrom(base, lengthBonus, missPenalty, comboBreak, accBonus, odBonus)
  {
    speed := base * lengthBonus;
    speed := speed * missPenalty;
    speed := speed * comboBreak;
    speed := speed * accBonus;
    speed := speed * odBonus;
  }

  /** The total-pp steps of `calc`. */
  method TotalSteps(m: Transcendentals, aim: real, speed: real, acc: real, mods: Mask) returns (total: real)
    ensures total == TotalPp(m, aim, speed, acc, mods)
  {
    var finalMultiplier := 1.12;
    if NF in mods {
      finalMultiplier := finalMultiplier * 0.90;
    }
    if SO in mods {
      finalMultiplier := finalMultiplier * 0.95;
    }
    total := m.pow(m.pow(aim, 1.1) + m.pow(speed, 1.1) + m.pow(acc, 1.1), 1.0 / 1.1) * finalMultiplier;
  }

  /** The accuracy-pp steps of `calc`. */
  method AccSteps(m: Transcendentals, od: real, realAcc: real, circleCount: int, mods: Mask) returns (acc: real)
    ensures acc == AccPp(m, od, realAcc, circleCount, mods)
  {
    acc := m.pow(1.52163, od) * Pow(realAcc, 24) * 2.83;
    acc := acc * Min(1.15, m.pow(circleCount as real / 1000.0, 0.3));
    if HD in mods {
      acc := acc * 1.02;
    }
    if FL in mods {
      acc := acc * 1.02;
    }
  }

  /** The aim steps of `calc` on their factors. */
  function AimFrom(base: real, lengthBonus: real, missPenalty: real, comboBreak: real,
                   arBonus: real, accBonus: real, odBonus: real, mods: Mask): real
  {
    var aim := base * lengthBonus;
    var aim := aim * missPenalty;
    var aim := aim * comboBreak;
    var aim := aim * arBonus;
    var aim := if HD in mods then aim * 1.18 else aim;
    var aim := if FL in mods then aim * (1.45 * lengthBonus) else aim;
    var aim := aim * accBonus;
    aim * odBonus
  }

  /** `ppv2`: only osu!standard (the mode when none or 0 is given) is
      supported; it gets a fresh calculator's result. */
  method Ppv2(m: Transcendentals, params: PpParams) returns (r: Result<StdPpv2>)
    requires Sane(m)
    ensures OrZero(params.mode) != Beatmaps.STD_MODE ==> r == Err(UnsupportedMode)
    ensures OrZero(params.mode) == Beatmaps.STD_MODE ==>
      var expected := PpCalc(m, params, PpState(0.0, 0.0, 0.0, 0.0, None));
      && (r.Ok? <==> expected.1.Ok?)
      && (r.Err? ==> r.error == expected.1.error)
      && (r.Ok? ==> fresh(r.value) && r.value.State() == expected.0)
  {
    var mode := OrZero(params.mode);
    if mode != Beatmaps.STD_MODE {
      return Err(UnsupportedMode);
    }
    var pp := new StdPpv2();
    var total := pp.Calc(m, params);
    if total.Err? {
      return Err(total.error);
    }
    r := Ok(pp);
  }
}

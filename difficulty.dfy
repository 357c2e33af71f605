/** The osu!standard difficulty calculator (`std_diff`): normalised object
    positions, per-object speed and aim strains, 400 ms strain windows folded
    into a weighted sum, star ratings and singletap counts. */
module Difficulty {
  import opened Numeric
  import opened Mods
  import opened Stats
  import opened Beatmaps

  /** The two difficulty passes; the source indexes its constant tables with
      speed as 0 and aim as 1. */
  datatype DiffKind = Speed | Aim

  const ALMOST_DIAMETER: real := 90.0
  const STREAM_SPACING: real := 110.0
  const SINGLE_SPACING: real := 125.0
  const DECAY_WEIGHT: real := 0.9
  const STRAIN_STEP: real := 400.0
  const CIRCLESIZE_BUFF_THRESHOLD: real := 30.0
  const STAR_SCALING_FACTOR: real := 0.0675
  const PLAYFIELD_WIDTH: real := 512.0
  const PLAYFIELD_HEIGHT: real := 384.0
  const PLAYFIELD_CENTER: Vec := Vec(PLAYFIELD_WIDTH * 0.5, PLAYFIELD_HEIGHT * 0.5)
  const EXTREME_SCALING_FACTOR: real := 0.5

  /** How fast a strain decays per second in each pass. */
  function DecayBase(kind: DiffKind): real
  {
    match kind
    case Speed => 0.3
    case Aim => 0.15
  }

  function WeightScaling(kind: DiffKind): real
  {
    match kind
    case Speed => 1400.0
    case Aim => 26.25
  }

  function VecSub(a: Vec, b: Vec): Vec { Vec(a.x - b.x, a.y - b.y) }
  function VecMul(a: Vec, b: Vec): Vec { Vec(a.x * b.x, a.y * b.y) }
  function VecLen(m: Transcendentals, v: Vec): real { m.sqrt(v.x * v.x + v.y * v.y) }

  /** A hit object with its difficulty values (`std_diff_hitobject`). */
  datatype DiffObject = DiffObject(
    obj: HitObject,
    speedStrain: real,
    aimStrain: real,
    normpos: Vec,
    isSingle: bool)

  function StrainOf(d: DiffObject, kind: DiffKind): real
  {
    match kind
    case Speed => d.speedStrain
    case Aim => d.aimStrain
  }

  /** `reset`: zero strains and position, not a singletap; the hit object
      stays. */
  function ResetDiffObject(d: DiffObject): (r: DiffObject)
    ensures r.obj == d.obj && !r.isSingle && r.normpos == Vec(0.0, 0.0)
    ensures StrainOf(r, Speed) == 0.0 && StrainOf(r, Aim) == 0.0
  {
    DiffObject(d.obj, 0.0, 0.0, Vec(0.0, 0.0), false)
  }

  /** `new std_diff_hitobject(obj)`. */
  function NewDiffObject(obj: HitObject): (r: DiffObject)
    ensures r.obj == obj && !r.isSingle && r.normpos == Vec(0.0, 0.0)
    ensures StrainOf(r, Speed) == 0.0 && StrainOf(r, Aim) == 0.0
  {
    DiffObject(obj, 0.0, 0.0, Vec(0.0, 0.0), false)
  }

  predicate IsCircleOrSlider(o: HitObject)
  {
    o.kind.Circle? || o.kind.Slider?
  }

  // ---------------------------------------------------------------------
  // Spacing weight

  /** The speed pass's spacing weight: 0.95 up to half a circle diameter,
      then linear pieces up to 2.5 beyond the single-tap spacing. */
  function SpeedSpacingWeight(distance: real): real
  {
    if distance > SINGLE_SPACING then 2.5
    else if distance > STREAM_SPACING then
      1.6 + 0.9 * (distance - STREAM_SPACING) / (SINGLE_SPACING - STREAM_SPACING)
    else if distance > ALMOST_DIAMETER then
      1.2 + 0.4 * (distance - ALMOST_DIAMETER) / (STREAM_SPACING - ALMOST_DIAMETER)
    else if distance > ALMOST_DIAMETER / 2.0 then
      0.95 + 0.25 * (distance - ALMOST_DIAMETER / 2.0) / (ALMOST_DIAMETER / 2.0)
    else 0.95
  }

  /** `_spacing_weight`: the aim pass weighs a distance by `distance^0.99`. */
  function SpacingWeight(m: Transcendentals, kind: DiffKind, distance: real): real
  {
    match kind
    case Aim => m.pow(distance, 0.99)
    case Speed => SpeedSpacingWeight(distance)
  }

  /** The speed weight lies in [0.95, 2.5], is 0.95 up to distance 45 and
      2.5 beyond 125. */
  lemma SpeedSpacingWeightRange(distance: real)
    ensures 0.95 <= SpeedSpacingWeight(distance) <= 2.5
    ensures distance <= ALMOST_DIAMETER / 2.0 ==> SpeedSpacingWeight(distance) == 0.95
    ensures distance > SINGLE_SPACING ==> SpeedSpacingWeight(distance) == 2.5
  {
  }

  /** The speed weight is non-decreasing and continuous: it grows by at most
      0.06 per unit of distance, the slope of its steepest piece, so its
      pieces meet at 45, 90, 110 and 125. */
  lemma SpeedSpacingWeightMonotoneContinuous(d1: real, d2: real)
    requires d1 <= d2
    ensures SpeedSpacingWeight(d1) <= SpeedSpacingWeight(d2)
    ensures SpeedSpacingWeight(d2) - SpeedSpacingWeight(d1) <= 0.06 * (d2 - d1)
  {
    SpeedPieceBounds(d1);
    SpeedPieceBounds(d2);
  }

  /** The speed weight squeezed between two lines through each breakpoint. */
  lemma SpeedPieceBounds(d: real)
    ensures d <= 45.0 ==> SpeedSpacingWeight(d) == 0.95
    ensures 45.0 < d <= 90.0 ==> SpeedSpacingWeight(d) == 0.95 + 0.25 * (d - 45.0) / 45.0
    ensures 90.0 < d <= 110.0 ==> SpeedSpacingWeight(d) == 1.2 + 0.02 * (d - 90.0)
    ensures 110.0 < d <= 125.0 ==> SpeedSpacingWeight(d) == 1.6 + 0.06 * (d - 110.0)
    ensures d > 125.0 ==> SpeedSpacingWeight(d) == 2.5
  {
  }

  // ---------------------------------------------------------------------
  // Normalised positions

  /** The circle radius of a circle size, in playfield pixels. */
  function CircleRadius(circlesize: real): real
  {
    (PLAYFIELD_WIDTH / 16.0) * (1.0 - 0.7 * (circlesize - 5.0) / 5.0)
  }

  /** `_normalizer_vector`: the factor that scales positions to those of a
      circle of radius 52, with a bonus of up to 10% for radii below 30. At
      the circle size whose radius is 0 the source divides by zero. */
  function NormalizerScale(circlesize: real): Result<real>
  {
    var radius := CircleRadius(circlesize);
    if radius == 0.0 then Err(NotANumber)
    else
      var scale := 52.0 / radius;
      if radius < CIRCLESIZE_BUFF_THRESHOLD then
        Ok(scale * (1.0 + Min(CIRCLESIZE_BUFF_THRESHOLD - radius, 5.0) / 50.0))
      else Ok(scale)
  }

  lemma DivAntitone(a: real, r1: real, r2: real)
    requires a >= 0.0 && 0.0 < r1 <= r2
    ensures a / r2 <= a / r1
  {
    var q1, q2 := a / r1, a / r2;
    assert q1 * r1 == a && q2 * r2 == a;
    if q1 < q2 {
      MulMono(q2 - q1, r1, r2);
      MulMono(r1, q1, q2);
    }
  }

  /** Up to circle size 10 the scale is positive, 52/32 at circle size 5,
      and it grows with the circle size (smaller circles, larger scale). */
  lemma NormalizerScaleMonotone(cs1: real, cs2: real)
    requires cs1 <= cs2 <= 10.0
    ensures NormalizerScale(cs1).Ok? && NormalizerScale(cs2).Ok?
    ensures 0.0 < NormalizerScale(cs1).value <= NormalizerScale(cs2).value
  {
    var r1, r2 := CircleRadius(cs1), CircleRadius(cs2);
    assert 9.6 <= r2 <= r1;
    DivAntitone(52.0, r2, r1);
    var b1 := if r1 < 30.0 then 1.0 + Min(30.0 - r1, 5.0) / 50.0 else 1.0;
    var b2 := if r2 < 30.0 then 1.0 + Min(30.0 - r2, 5.0) / 50.0 else 1.0;
    assert 1.0 <= b1 <= b2;
    assert NormalizerScale(cs1).value == 52.0 / r1 * b1;
    assert NormalizerScale(cs2).value == 52.0 / r2 * b2;
    MulMono(52.0 / r1, b1, b2);
    MulMono(b2, 52.0 / r1, 52.0 / r2);
  }

  lemma NormalizerScaleAtFive()
    ensures NormalizerScale(5.0) == Ok(1.625)
  {
  }

  /** The normalised position of an object: spinners sit at the centre,
      circles and sliders at their position, anything else at the origin,
      all scaled. */
  function NormalizedPos(o: HitObject, scale: real): Vec
  {
    var scaling := Vec(scale, scale);
    match o.kind
    case Spinner => VecMul(PLAYFIELD_CENTER, scaling)
    case Circle(pos) => VecMul(pos, scaling)
    case Slider(pos, _, _) => VecMul(pos, scaling)
    case Other => VecMul(Vec(0.0, 0.0), scaling)
  }

  // ---------------------------------------------------------------------
  // Strains

  /** `_calc_strain`: the strain of `cur` in one pass is the previous
      object's strain decayed over the elapsed time plus the weighted
      spacing divided by the elapsed time (at least 50 ms). Objects other
      than circles and sliders add nothing. The speed pass also marks
      circles and sliders farther than the single spacing as singletaps. */
  function CalcStrain(m: Transcendentals, kind: DiffKind, cur: DiffObject, prev: DiffObject, speedMul: real): (r: DiffObject)
    requires speedMul > 0.0
    ensures r.obj == cur.obj && r.normpos == cur.normpos
    ensures kind == Speed ==> r.aimStrain == cur.aimStrain
    ensures kind == Aim ==> r.speedStrain == cur.speedStrain && r.isSingle == cur.isSingle
    ensures !IsCircleOrSlider(cur.obj) ==> r.isSingle == cur.isSingle
  {
    var distance := VecLen(m, VecSub(cur.normpos, prev.normpos));
    var isSingle := if IsCircleOrSlider(cur.obj) && kind == Speed then distance > SINGLE_SPACING else cur.isSingle;
    var strain := NextStrain(m, kind, StrainOf(prev, kind), (cur.obj.time - prev.obj.time) / speedMul, SpacingValue(m, kind, cur, prev));
    match kind
    case Speed => cur.(speedStrain := strain, isSingle := isSingle)
    case Aim => cur.(aimStrain := strain)
  }

  /** What a circle or slider adds to the strain before the division by the
      elapsed time: its spacing weight times the pass's scaling. */
  function SpacingValue(m: Transcendentals, kind: DiffKind, cur: DiffObject, prev: DiffObject): real
  {
    if IsCircleOrSlider(cur.obj) then
      SpacingWeight(m, kind, VecLen(m, VecSub(cur.normpos, prev.normpos))) * WeightScaling(kind)
    else 0.0
  }

  /** The previous strain decayed over `elapsed` milliseconds plus `value`
      over the elapsed time, at least 50 ms. */
  function NextStrain(m: Transcendentals, kind: DiffKind, strain: real, elapsed: real, value: real): real
  {
    strain * m.pow(DecayBase(kind), elapsed / 1000.0) + value / Max(elapsed, 50.0)
  }

  /** A non-negative strain stays non-negative, and with nothing added and
      a non-negative elapsed time it does not grow. */
  lemma NextStrainBounds(m: Transcendentals, kind: DiffKind, strain: real, elapsed: real, value: real)
    requires Sane(m) && strain >= 0.0 && value >= 0.0
    ensures NextStrain(m, kind, strain, elapsed, value) >= 0.0
    ensures value == 0.0 && elapsed >= 0.0 ==> NextStrain(m, kind, strain, elapsed, value) <= strain
  {
    var decay := m.pow(DecayBase(kind), elapsed / 1000.0);
    assert decay > 0.0;
    MulMono(strain, 0.0, decay);
    DivNonNegative(value, Max(elapsed, 50.0));
    if value == 0.0 && elapsed >= 0.0 {
      assert decay <= 1.0;
      MulMono(strain, decay, 1.0);
      assert 0.0 / Max(elapsed, 50.0) == 0.0;
    }
  }

  /** The singletap mark of the speed pass: a circle or slider is a
      singletap exactly when it is farther than 125 normalised pixels from
      the previous object. */
  lemma CalcStrainSingle(m: Transcendentals, cur: DiffObject, prev: DiffObject, speedMul: real)
    requires speedMul > 0.0 && IsCircleOrSlider(cur.obj)
    ensures CalcStrain(m, Speed, cur, prev, speedMul).isSingle <==>
      VecLen(m, VecSub(cur.normpos, prev.normpos)) > SINGLE_SPACING
  {
  }

  /** Strains are never negative when the previous one is not. */
  lemma CalcStrainNonNegative(m: Transcendentals, kind: DiffKind, cur: DiffObject, prev: DiffObject, speedMul: real)
    requires Sane(m) && speedMul > 0.0 && StrainOf(prev, kind) >= 0.0
    ensures StrainOf(CalcStrain(m, kind, cur, prev, speedMul), kind) >= 0.0
  {
    var distance := VecLen(m, VecSub(cur.normpos, prev.normpos));
    assert distance >= 0.0 by {
      var d := cur.normpos.x - prev.normpos.x;
      var e := cur.normpos.y - prev.normpos.y;
      assert d * d + e * e >= 0.0;
    }
    assert SpacingValue(m, kind, cur, prev) >= 0.0 by {
      SpacingValueNonNegative(m, kind, distance);
    }
    NextStrainBounds(m, kind, StrainOf(prev, kind), (cur.obj.time - prev.obj.time) / speedMul, SpacingValue(m, kind, cur, prev));
  }

  lemma SpacingValueNonNegative(m: Transcendentals, kind: DiffKind, distance: real)
    requires Sane(m) && distance >= 0.0
    ensures SpacingWeight(m, kind, distance) * WeightScaling(kind) >= 0.0
  {
    if kind == Speed {
      SpeedSpacingWeightRange(distance);
    }
  }

  lemma DivNonNegative(a: real, b: real)
    requires a >= 0.0 && b > 0.0
    ensures a / b >= 0.0
  {
  }

  /** An object that is neither a circle nor a slider adds nothing: its
      strain is the previous strain decayed over the elapsed time, so later
      in time the strain does not grow. */
  lemma CalcStrainOfSpinner(m: Transcendentals, kind: DiffKind, cur: DiffObject, prev: DiffObject, speedMul: real)
    requires Sane(m) && speedMul > 0.0 && StrainOf(prev, kind) >= 0.0
    requires !IsCircleOrSlider(cur.obj) && cur.obj.time >= prev.obj.time
    ensures StrainOf(CalcStrain(m, kind, cur, prev, speedMul), kind)
         == StrainOf(prev, kind) * m.pow(DecayBase(kind), ((cur.obj.time - prev.obj.time) / speedMul) / 1000.0)
    ensures 0.0 <= StrainOf(CalcStrain(m, kind, cur, prev, speedMul), kind) <= StrainOf(prev, kind)
  {
    DivNonNegative(cur.obj.time - prev.obj.time, speedMul);
    NextStrainBounds(m, kind, StrainOf(prev, kind), (cur.obj.time - prev.obj.time) / speedMul, 0.0);
  }

  // ---------------------------------------------------------------------
  // Strain windows

  /** How many more windows close before an object at `time`: the loop
      `while (time > interval_end) interval_end += step` runs this often. */
  function WindowsLeft(time: real, end: real, step: real): nat
    requires step > 0.0
  {
    if time > end then ((time - end) / step).Floor + 1 else 0
  }

  lemma WindowsLeftStep(time: real, end: real, step: real)
    requires step > 0.0 && time > end
    ensures WindowsLeft(time, end + step, step) < WindowsLeft(time, end, step)
  {
    var x := (time - end) / step;
    assert x * step == time - end;
    assert (x - 1.0) * step == time - (end + step);
    DivUnique(time - (end + step), step, x - 1.0);
  }

  lemma DivUnique(b: real, s: real, y: real)
    requires s > 0.0 && y * s == b
    ensures b / s == y
  {
    var q := b / s;
    assert q * s == b;
    if q > y {
      MulPositive(q - y, s);
    } else if q < y {
      MulPositive(y - q, s);
    }
  }

  /** The state of `_calc_individual` between objects: the diff objects
      with the strains computed so far, the window maxima pushed so far, the
      end of the current window and the current window's maximum. */
  datatype Pass = Pass(objects: seq<DiffObject>, strains: seq<real>, end: real, maxStrain: real)

  /** The strain the previous object has decayed to at time `t`. */
  function DecayedStrain(m: Transcendentals, kind: DiffKind, prev: DiffObject, t: real): real
  {
    StrainOf(prev, kind) * m.pow(DecayBase(kind), (t - prev.obj.time) / 1000.0)
  }

  /** Close every window that ends before object `i`: push its maximum and
      start the next one at the previous object's strain decayed to the
      window boundary (0 before the first object). */
  function CloseWindows(m: Transcendentals, kind: DiffKind, p: Pass, i: nat, step: real): (r: Pass)
    requires step > 0.0 && i < |p.objects|
    ensures r.objects == p.objects
    ensures p.strains <= r.strains
    ensures !(p.objects[i].obj.time > r.end)
    decreases WindowsLeft(p.objects[i].obj.time, p.end, step)
  {
    if p.objects[i].obj.time > p.end then
      WindowsLeftStep(p.objects[i].obj.time, p.end, step);
      var next := if i > 0 then DecayedStrain(m, kind, p.objects[i - 1], p.end) else 0.0;
      CloseWindows(m, kind, Pass(p.objects, p.strains + [p.maxStrain], p.end + step, next), i, step)
    else p
  }

  /** One iteration of `_calc_individual`'s object loop. */
  function StepObject(m: Transcendentals, kind: DiffKind, p: Pass, i: nat, speedMul: real): (r: Pass)
    requires speedMul > 0.0 && i < |p.objects|
    ensures |r.objects| == |p.objects|
  {
    var objects := if i > 0 then p.objects[i := CalcStrain(m, kind, p.objects[i], p.objects[i - 1], speedMul)] else p.objects;
    var q := CloseWindows(m, kind, p.(objects := objects), i, STRAIN_STEP * speedMul);
    q.(maxStrain := Max(q.maxStrain, StrainOf(objects[i], kind)))
  }

  /** The state after the first `n` objects; the first window ends after
      400 ms of (sped-up) time. */
  function PassUpTo(m: Transcendentals, kind: DiffKind, objects: seq<DiffObject>, speedMul: real, n: nat): (r: Pass)
    requires speedMul > 0.0 && n <= |objects|
    ensures |r.objects| == |objects|
  {
    if n == 0 then Pass(objects, [], STRAIN_STEP * speedMul, 0.0)
    else StepObject(m, kind, PassUpTo(m, kind, objects, speedMul, n - 1), n - 1, speedMul)
  }

  /** The window maxima a pass pushes. The maximum of the last window is
      never pushed. */
  function WindowMaxima(m: Transcendentals, kind: DiffKind, objects: seq<DiffObject>, speedMul: real): seq<real>
    requires speedMul > 0.0
  {
    PassUpTo(m, kind, objects, speedMul, |objects|).strains
  }

  // ---------------------------------------------------------------------
  // Sorting and weighting

  predicate SortedDesc(s: seq<real>)
  {
    forall i, j :: 0 <= i < j < |s| ==> s[i] >= s[j]
  }

  function InsertDesc(x: real, s: seq<real>): (r: seq<real>)
    ensures multiset(r) == multiset(s) + multiset{x}
    ensures |r| == |s| + 1
  {
    if s == [] || x >= s[0] then [x] + s
    else
      assert s == [s[0]] + s[1..];
      [s[0]] + InsertDesc(x, s[1..])
  }

  lemma {:induction false} InsertDescSorted(x: real, s: seq<real>)
    requires SortedDesc(s)
    ensures SortedDesc(InsertDesc(x, s))
    ensures InsertDesc(x, s)[0] == if s == [] || x >= s[0] then x else s[0]
  {
    if s != [] && x < s[0] {
      InsertDescSorted(x, s[1..]);
      var r := InsertDesc(x, s[1..]);
      assert r[0] <= s[0];
      forall i, j | 0 <= i < j < |r| + 1
        ensures ([s[0]] + r)[i] >= ([s[0]] + r)[j]
      {
        if i == 0 {
          assert r[0] >= r[j - 1];
        }
      }
    }
  }

  /** The descending sort `strains.sort((a, b) => b - a)`. */
  function SortDesc(s: seq<real>): (r: seq<real>)
    ensures multiset(r) == multiset(s)
    ensures |r| == |s|
  {
    if s == [] then []
    else
      assert s == [s[0]] + s[1..];
      InsertDesc(s[0], SortDesc(s[1..]))
  }

  lemma {:induction false} SortDescSorted(s: seq<real>)
    ensures SortedDesc(SortDesc(s))
  {
    if s != [] {
      SortDescSorted(s[1..]);
      InsertDescSorted(s[0], SortDesc(s[1..]));
    }
  }

  /** The sum of the first `n` values weighted by 1, 0.9, 0.81, ... */
  function WeightedSum(s: seq<real>, n: nat): real
    requires n <= |s|
  {
    if n == 0 then 0.0 else WeightedSum(s, n - 1) + s[n - 1] * Pow(DECAY_WEIGHT, n - 1)
  }

  /** `_calc_individual`'s result: the weighted sum of the window maxima
      sorted from the largest. */
  function Individual(m: Transcendentals, kind: DiffKind, objects: seq<DiffObject>, speedMul: real): real
    requires speedMul > 0.0
  {
    var sorted := SortDesc(WindowMaxima(m, kind, objects, speedMul));
    WeightedSum(sorted, |sorted|)
  }

  function MaxOf(s: seq<real>): (r: real)
    requires |s| > 0
    ensures r in s
    ensures forall x :: x in s ==> x <= r
  {
    if |s| == 1 then s[0]
    else
      var rest := MaxOf(s[1..]);
      assert forall x :: x in s ==> x == s[0] || x in s[1..];
      Max(s[0], rest)
  }

  /** 1 + 0.9 + ... + 0.9^(n-1). */
  function GeometricSum(n: nat): real
  {
    if n == 0 then 0.0 else GeometricSum(n - 1) + Pow(DECAY_WEIGHT, n - 1)
  }

  /** The geometric sum in closed form, 10 (1 - 0.9^n), below 10. */
  lemma {:induction false} GeometricSumClosed(n: nat)
    ensures GeometricSum(n) == 10.0 * (1.0 - Pow(DECAY_WEIGHT, n))
    ensures GeometricSum(n) < 10.0
  {
    if n > 0 {
      GeometricSumClosed(n - 1);
    }
    PowPositive(DECAY_WEIGHT, n);
  }

  /** A weighted sum of a descending non-negative list lies between its
      first value and that value times the geometric sum. */
  lemma {:induction false} WeightedSumBounds(s: seq<real>, n: nat)
    requires 0 < n <= |s| && SortedDesc(s) && forall i :: 0 <= i < |s| ==> s[i] >= 0.0
    ensures s[0] <= WeightedSum(s, n) <= s[0] * GeometricSum(n)
  {
    if n > 1 {
      WeightedSumBounds(s, n - 1);
      PowPositive(DECAY_WEIGHT, n - 1);
      MulMono(Pow(DECAY_WEIGHT, n - 1), 0.0, s[n - 1]);
      MulMono(Pow(DECAY_WEIGHT, n - 1), s[n - 1], s[0]);
    }
  }

  /** The sorted list starts with the maximum and keeps non-negativity. */
  lemma SortDescHead(s: seq<real>)
    requires |s| > 0 && forall x :: x in s ==> x >= 0.0
    ensures SortedDesc(SortDesc(s))
    ensures SortDesc(s)[0] == MaxOf(s)
    ensures forall i :: 0 <= i < |SortDesc(s)| ==> SortDesc(s)[i] >= 0.0
  {
    var sorted := SortDesc(s);
    SortDescSorted(s);
    forall i | 0 <= i < |sorted|
      ensures sorted[i] >= 0.0
    {
      assert sorted[i] in multiset(s);
      assert sorted[i] in s;
    }
    var top := MaxOf(s);
    assert sorted[0] in multiset(s);
    assert sorted[0] in s;
    assert top in multiset(sorted);
    assert top in sorted;
    var j :| 0 <= j < |sorted| && sorted[j] == top;
    assert sorted[0] >= sorted[j];
  }

  /** The weighted sum of a non-empty non-negative list, sorted from the
      largest, lies between its maximum and ten times it, strictly below
      ten times a positive maximum. */
  lemma SortedWeightedSumBounds(s: seq<real>)
    requires |s| > 0 && forall x :: x in s ==> x >= 0.0
    ensures MaxOf(s) <= WeightedSum(SortDesc(s), |s|) <= 10.0 * MaxOf(s)
    ensures MaxOf(s) > 0.0 ==> WeightedSum(SortDesc(s), |s|) < 10.0 * MaxOf(s)
  {
    SortDescHead(s);
    TopWeightedSumBounds(SortDesc(s));
  }

  lemma TopWeightedSumBounds(sorted: seq<real>)
    requires |sorted| > 0 && SortedDesc(sorted)
    requires forall i :: 0 <= i < |sorted| ==> sorted[i] >= 0.0
    ensures sorted[0] <= WeightedSum(sorted, |sorted|) <= 10.0 * sorted[0]
    ensures sorted[0] > 0.0 ==> WeightedSum(sorted, |sorted|) < 10.0 * sorted[0]
  {
    var n := |sorted|;
    WeightedSumBounds(sorted, n);
    GeometricSumClosed(n);
    var g := GeometricSum(n);
    var top := sorted[0];
    ScaledGeometricSum(WeightedSum(sorted, n), top, g);
  }

  /** A sum at most a non-negative value times a factor below 10 stays at
      most ten times the value, and below it when the value is positive. */
  lemma ScaledGeometricSum(sum: real, top: real, g: real)
    requires top >= 0.0 && g < 10.0 && sum <= top * g
    ensures sum <= 10.0 * top
    ensures top > 0.0 ==> sum < 10.0 * top
  {
    MulMono(top, g, 10.0);
    if top > 0.0 {
      MulPositive(top, 10.0 - g);
      assert top * (10.0 - g) == top * 10.0 - top * g;
    }
  }

  /** The difficulty of a pass is at least its largest window maximum and at
      most ten times it, strictly less when that maximum is positive; with no
      window pushed it is 0. */
  lemma IndividualBounds(m: Transcendentals, kind: DiffKind, objects: seq<DiffObject>, speedMul: real)
    requires speedMul > 0.0
    requires forall x :: x in WindowMaxima(m, kind, objects, speedMul) ==> x >= 0.0
    ensures WindowMaxima(m, kind, objects, speedMul) == [] ==> Individual(m, kind, objects, speedMul) == 0.0
    ensures WindowMaxima(m, kind, objects, speedMul) != [] ==>
      var top := MaxOf(WindowMaxima(m, kind, objects, speedMul));
      && top <= Individual(m, kind, objects, speedMul) <= 10.0 * top
      && (top > 0.0 ==> Individual(m, kind, objects, speedMul) < 10.0 * top)
  {
    var maxima := WindowMaxima(m, kind, objects, speedMul);
    if maxima != [] {
      SortedWeightedSumBounds(maxima);
    }
  }

  // ---------------------------------------------------------------------
  // Facts about whole passes

  predicate NonNegativePass(kind: DiffKind, p: Pass)
  {
    && (forall j :: 0 <= j < |p.objects| ==> StrainOf(p.objects[j], kind) >= 0.0)
    && (forall x :: x in p.strains ==> x >= 0.0)
    && p.maxStrain >= 0.0
  }

  lemma {:induction false} CloseWindowsNonNegative(m: Transcendentals, kind: DiffKind, p: Pass, i: nat, step: real)
    requires Sane(m) && step > 0.0 && i < |p.objects| && NonNegativePass(kind, p)
    ensures NonNegativePass(kind, CloseWindows(m, kind, p, i, step))
    decreases WindowsLeft(p.objects[i].obj.time, p.end, step)
  {
    if p.objects[i].obj.time > p.end {
      WindowsLeftStep(p.objects[i].obj.time, p.end, step);
      var next := if i > 0 then DecayedStrain(m, kind, p.objects[i - 1], p.end) else 0.0;
      if i > 0 {
        var prev := p.objects[i - 1];
        MulMono(StrainOf(prev, kind), 0.0, m.pow(DecayBase(kind), (p.end - prev.obj.time) / 1000.0));
      }
      CloseWindowsNonNegative(m, kind, Pass(p.objects, p.strains + [p.maxStrain], p.end + step, next), i, step);
    }
  }

  /** With non-negative starting strains every strain and every window
      maximum of a pass is non-negative. */
  lemma {:induction false} PassNonNegative(m: Transcendentals, kind: DiffKind, objects: seq<DiffObject>, speedMul: real, n: nat)
    requires Sane(m) && speedMul > 0.0 && n <= |objects|
    requires forall j :: 0 <= j < |objects| ==> StrainOf(objects[j], kind) >= 0.0
    ensures NonNegativePass(kind, PassUpTo(m, kind, objects, speedMul, n))
  {
    if n > 0 {
      PassNonNegative(m, kind, objects, speedMul, n - 1);
      var p := PassUpTo(m, kind, objects, speedMul, n - 1);
      var i := n - 1;
      var objs := if i > 0 then p.objects[i := CalcStrain(m, kind, p.objects[i], p.objects[i - 1], speedMul)] else p.objects;
      if i > 0 {
        CalcStrainNonNegative(m, kind, p.objects[i], p.objects[i - 1], speedMul);
      }
      CloseWindowsNonNegative(m, kind, p.(objects := objs), i, STRAIN_STEP * speedMul);
    }
  }

  lemma {:induction false} FirstWindowPrefix(m: Transcendentals, kind: DiffKind, objects: seq<DiffObject>, speedMul: real, n: nat)
    requires speedMul > 0.0 && n <= |objects|
    requires forall j :: 0 <= j < |objects| ==> objects[j].obj.time <= STRAIN_STEP * speedMul
    ensures PassUpTo(m, kind, objects, speedMul, n).strains == []
    ensures PassUpTo(m, kind, objects, speedMul, n).end == STRAIN_STEP * speedMul
    ensures forall j :: 0 <= j < |objects| ==>
      PassUpTo(m, kind, objects, speedMul, n).objects[j].obj == objects[j].obj
  {
    if n > 0 {
      FirstWindowPrefix(m, kind, objects, speedMul, n - 1);
    }
  }

  /** The maximum of the last window is never pushed: when every object lies
      in the first window, no maximum is pushed and the pass's difficulty is
      0 whatever the strains. */
  lemma FirstWindowOnly(m: Transcendentals, kind: DiffKind, objects: seq<DiffObject>, speedMul: real)
    requires speedMul > 0.0
    requires forall j :: 0 <= j < |objects| ==> objects[j].obj.time <= STRAIN_STEP * speedMul
    ensures WindowMaxima(m, kind, objects, speedMul) == []
    ensures Individual(m, kind, objects, speedMul) == 0.0
  {
    FirstWindowPrefix(m, kind, objects, speedMul, |objects|);
  }

  // ---------------------------------------------------------------------
  // Object initialisation

  /** `_init_objects` as written: the array is cut or extended to the
      beatmap's length; slots that already hold a diff object are only
      reset and keep their old hit object, new slots take the beatmap's. */
  function InitAsWritten(previous: seq<DiffObject>, beatmap: Beatmap, scale: real): (r: seq<DiffObject>)
    ensures |r| == |beatmap.objects|
  {
    seq(|beatmap.objects|, i requires 0 <= i < |beatmap.objects| =>
      var d := if i < |previous| then ResetDiffObject(previous[i]) else NewDiffObject(beatmap.objects[i]);
      d.(normpos := NormalizedPos(d.obj, scale)))
  }

  /** Reusing a calculator on another beatmap keeps the old hit objects:
      after a beatmap with a circle at 0 ms, a beatmap with a spinner at
      1000 ms is analysed as the circle. */
  lemma InitAsWrittenKeepsStaleObjects()
    ensures var circle := HitObject(0.0, Circle(Vec(0.0, 0.0)));
      var spinner := HitObject(1000.0, Spinner);
      var beatmap := Reset().(objects := [spinner]);
      InitAsWritten([NewDiffObject(circle)], beatmap, 1.0)[0].obj == circle != spinner
  {
  }

  /** `_init_objects` as intended: one fresh diff object per hit object of
      the beatmap, at its normalised position. */
  function InitCorrected(beatmap: Beatmap, scale: real): (r: seq<DiffObject>)
    ensures |r| == |beatmap.objects|
  {
    seq(|beatmap.objects|, i requires 0 <= i < |beatmap.objects| =>
      NewDiffObject(beatmap.objects[i]).(normpos := NormalizedPos(beatmap.objects[i], scale)))
  }

  /** The corrected initialisation depends only on the beatmap: every diff
      object wraps the beatmap's hit object at the same index, with zero
      strains and no singletap mark. */
  lemma InitCorrectedFresh(previous: seq<DiffObject>, beatmap: Beatmap, scale: real)
    ensures forall i :: 0 <= i < |beatmap.objects| ==>
      && InitCorrected(beatmap, scale)[i].obj == beatmap.objects[i]
      && InitCorrected(beatmap, scale)[i].normpos == NormalizedPos(beatmap.objects[i], scale)
      && StrainOf(InitCorrected(beatmap, scale)[i], Speed) == 0.0
      && StrainOf(InitCorrected(beatmap, scale)[i], Aim) == 0.0
      && !InitCorrected(beatmap, scale)[i].isSingle
    ensures |previous| == 0 ==> InitAsWritten(previous, beatmap, scale) == InitCorrected(beatmap, scale)
  {
  }

  // ---------------------------------------------------------------------
  // Star rating and singletaps

  /** The total star rating: aim plus speed plus half their difference,
      that is 1.5 times the larger plus 0.5 times the smaller. */
  function StarTotal(aim: real, speed: real): (total: real)
    ensures total == 1.5 * Max(aim, speed) + 0.5 * Min(aim, speed)
    ensures aim >= 0.0 && speed >= 0.0 ==> total >= Max(aim, speed)
  {
    aim + speed + Abs(speed - aim) * EXTREME_SCALING_FACTOR
  }

  /** The threshold the calculator compares intervals with. The source
      reads its own still-undefined local when the caller gives none (or
      0), and every comparison with `undefined` is false. */
  function EffectiveThreshold(given: Option<real>): Option<real>
  {
    if given == None || given == Some(0.0) then None else given
  }

  /** Objects 1..n-1 marked as singletaps. */
  function CountSingles(objects: seq<DiffObject>, n: nat): (count: nat)
    requires n <= |objects|
    ensures count <= MaxInt(0, n - 1)
  {
    if n <= 1 then 0 else CountSingles(objects, n - 1) + (if objects[n - 1].isSingle then 1 else 0)
  }

  /** The time from `prev` to `obj` in sped-up time. */
  function Interval(obj: HitObject, prev: HitObject, speedMul: real): real
    requires speedMul > 0.0
  {
    (obj.time - prev.time) / speedMul
  }

  /** Circles and sliders among objects 1..n-1 whose interval to the
      previous object, in sped-up time, reaches the threshold. */
  function CountOverThreshold(objects: seq<DiffObject>, speedMul: real, threshold: Option<real>, n: nat): (count: nat)
    requires n <= |objects| && speedMul > 0.0
    ensures count <= MaxInt(0, n - 1)
    ensures threshold == None ==> count == 0
  {
    if n <= 1 then 0
    else
      var obj := objects[n - 1].obj;
      var prev := objects[n - 2].obj;
      var counted := IsCircleOrSlider(obj) && threshold.Some? && Interval(obj, prev, speedMul) >= threshold.value;
      CountOverThreshold(objects, speedMul, threshold, n - 1) + (if counted then 1 else 0)
  }

  /** The results of `std_diff.calc`. */
  datatype DiffResult = DiffResult(
    objects: seq<DiffObject>,
    total: real,
    aim: real,
    speed: real,
    nsingles: nat,
    nsinglesThreshold: nat,
    speedMul: real)

  /** What `std_diff.calc` computes for a beatmap and a mask: the circle
      size and speed multiplier under the mods, the normalised objects, then
      the passes over them. */
  function CalcSpec(m: Transcendentals, beatmap: Beatmap, mods: Mask, threshold: Option<real>): Result<DiffResult>
  {
    var stats := ApplyMods(StatValues(0.0, 0.0, 0.0, beatmap.cs, 1.0), mods);
    SpeedMulOfApplyMods(StatValues(0.0, 0.0, 0.0, beatmap.cs, 1.0), mods);
    CalcOnStats(m, beatmap, stats.speedMul, stats.cs, TD in mods, EffectiveThreshold(threshold))
  }

  /** The calculation once the speed multiplier and circle size are known:
      a circle size whose radius is 0 is an error; otherwise the passes run
      on the normalised objects. */
  function CalcOnStats(m: Transcendentals, beatmap: Beatmap, speedMul: real, circlesize: real,
                       touchDevice: bool, threshold: Option<real>): Result<DiffResult>
    requires speedMul > 0.0
  {
    match NormalizerScale(circlesize)
    case Err(e) => Err(e)
    case Ok(scale) => Ok(CalcFrom(m, InitCorrected(beatmap, scale), speedMul, touchDevice, threshold))
  }

  /** The aim rating from the raw aim difficulty, raised to 0.8 under
      touch device. */
  function AimStars(m: Transcendentals, aimRaw: real, touchDevice: bool): real
  {
    var aim := m.sqrt(aimRaw) * STAR_SCALING_FACTOR;
    if touchDevice then m.pow(aim, 0.8) else aim
  }

  /** The calculation on the initialised objects: the speed pass, then the
      aim pass on the objects the speed pass left, the star ratings (the aim
      rating raised to 0.8 under touch device) and the singletap counts. */
  function CalcFrom(m: Transcendentals, objects0: seq<DiffObject>, speedMul: real,
                    touchDevice: bool, threshold: Option<real>): DiffResult
    requires speedMul > 0.0
  {
    var n := |objects0|;
    var speedRaw := Individual(m, Speed, objects0, speedMul);
    var objects1 := PassUpTo(m, Speed, objects0, speedMul, n).objects;
    var aimRaw := Individual(m, Aim, objects1, speedMul);
    var objects2 := PassUpTo(m, Aim, objects1, speedMul, n).objects;
    var speed := m.sqrt(speedRaw) * STAR_SCALING_FACTOR;
    var aim := AimStars(m, aimRaw, touchDevice);
    DiffResult(
      objects2, StarTotal(aim, speed), aim, speed,
      CountSingles(objects2, n),
      CountOverThreshold(objects2, speedMul, threshold, n),
      speedMul)
  }

  /** `CalcFrom` assembled from the results of its two passes, the star
      formulas and the counts on the objects the aim pass left. */
  lemma CalcFromSteps(m: Transcendentals, objects0: seq<DiffObject>, speedMul: real,
                      touchDevice: bool, threshold: Option<real>,
                      objects1: seq<DiffObject>, objects2: seq<DiffObject>,
                      speed: real, aim: real, total: real, nsingles: nat, nsinglesThreshold: nat)
    requires speedMul > 0.0
    requires objects1 == PassUpTo(m, Speed, objects0, speedMul, |objects0|).objects
    requires objects2 == PassUpTo(m, Aim, objects1, speedMul, |objects0|).objects
    requires speed == m.sqrt(Individual(m, Speed, objects0, speedMul)) * STAR_SCALING_FACTOR
    requires aim == AimStars(m, Individual(m, Aim, objects1, speedMul), touchDevice)
    requires total == StarTotal(aim, speed)
    requires nsingles == CountSingles(objects2, |objects2|)
    requires nsinglesThreshold == CountOverThreshold(objects2, speedMul, threshold, |objects2|)
    ensures CalcFrom(m, objects0, speedMul, touchDevice, threshold)
         == DiffResult(objects2, total, aim, speed, nsingles, nsinglesThreshold, speedMul)
  {
  }

  /** On objects with non-negative strains the star ratings are never
      negative, and the total is at least the larger of aim and speed. */
  lemma CalcFromStars(m: Transcendentals, objects0: seq<DiffObject>, speedMul: real,
                      touchDevice: bool, threshold: Option<real>)
    requires Sane(m) && speedMul > 0.0
    requires forall j :: 0 <= j < |objects0| ==> StrainOf(objects0[j], Speed) >= 0.0 && StrainOf(objects0[j], Aim) >= 0.0
    ensures
      var r := CalcFrom(m, objects0, speedMul, touchDevice, threshold);
      && r.aim >= 0.0 && r.speed >= 0.0
      && r.total >= Max(r.aim, r.speed)
  {
    var n := |objects0|;
    var objects1 := PassUpTo(m, Speed, objects0, speedMul, n).objects;
    IndividualNonNegative(m, Speed, objects0, speedMul);
    assert forall j :: 0 <= j < n ==> StrainOf(objects1[j], Aim) >= 0.0 by {
      SpeedPassKeepsAim(m, objects0, speedMul, n);
    }
    IndividualNonNegative(m, Aim, objects1, speedMul);
  }

  /** The star ratings `std_diff.calc` computes are never negative, and the
      total is at least the larger of aim and speed. */
  lemma CalcSpecStars(m: Transcendentals, beatmap: Beatmap, mods: Mask, threshold: Option<real>)
    requires Sane(m)
    ensures CalcSpec(m, beatmap, mods, threshold).Ok? ==>
      var r := CalcSpec(m, beatmap, mods, threshold).value;
      && r.aim >= 0.0 && r.speed >= 0.0
      && r.total >= Max(r.aim, r.speed)
  {
    var stats := ApplyMods(StatValues(0.0, 0.0, 0.0, beatmap.cs, 1.0), mods);
    SpeedMulOfApplyMods(StatValues(0.0, 0.0, 0.0, beatmap.cs, 1.0), mods);
    if NormalizerScale(stats.cs).Ok? {
      var objects0 := InitCorrected(beatmap, NormalizerScale(stats.cs).value);
      CalcFromStars(m, objects0, stats.speedMul, TD in mods, EffectiveThreshold(threshold));
    }
  }

  /** A beatmap without hit objects has no stars and no singletaps. */
  lemma EmptyBeatmapHasNoStars(m: Transcendentals, beatmap: Beatmap, mods: Mask, threshold: Option<real>)
    requires Sane(m) && beatmap.objects == []
    ensures CalcSpec(m, beatmap, mods, threshold).Ok? ==>
      var r := CalcSpec(m, beatmap, mods, threshold).value;
      && r.objects == [] && r.aim == 0.0 && r.speed == 0.0 && r.total == 0.0
      && r.nsingles == 0 && r.nsinglesThreshold == 0
  {
    var stats := ApplyMods(StatValues(0.0, 0.0, 0.0, beatmap.cs, 1.0), mods);
    SpeedMulOfApplyMods(StatValues(0.0, 0.0, 0.0, beatmap.cs, 1.0), mods);
    if NormalizerScale(stats.cs).Ok? {
      var objects0 := InitCorrected(beatmap, NormalizerScale(stats.cs).value);
      assert objects0 == [];
      assert Individual(m, Speed, [], stats.speedMul) == 0.0;
      assert Individual(m, Aim, [], stats.speedMul) == 0.0;
    }
  }

  /** Without a threshold (none given, or 0) no interval is counted. */
  lemma NoThresholdNoCount(m: Transcendentals, beatmap: Beatmap, mods: Mask, threshold: Option<real>)
    requires threshold == None || threshold == Some(0.0)
    ensures CalcSpec(m, beatmap, mods, threshold).Ok? ==> CalcSpec(m, beatmap, mods, threshold).value.nsinglesThreshold == 0
  {
    SpeedMulOfApplyMods(StatValues(0.0, 0.0, 0.0, beatmap.cs, 1.0), mods);
  }

  /** At most every object but the first is a singletap. */
  lemma SinglesBound(m: Transcendentals, beatmap: Beatmap, mods: Mask, threshold: Option<real>)
    ensures CalcSpec(m, beatmap, mods, threshold).Ok? ==>
      var r := CalcSpec(m, beatmap, mods, threshold).value;
      && r.nsingles <= MaxInt(0, |beatmap.objects| - 1)
      && r.nsinglesThreshold <= MaxInt(0, |beatmap.objects| - 1)
  {
    SpeedMulOfApplyMods(StatValues(0.0, 0.0, 0.0, beatmap.cs, 1.0), mods);
  }

  lemma {:induction false} CloseWindowsObjects(m: Transcendentals, kind: DiffKind, p: Pass, i: nat, step: real)
    requires step > 0.0 && i < |p.objects|
    ensures CloseWindows(m, kind, p, i, step).objects == p.objects
  {
  }

  /** The speed pass leaves the aim strains as they were. */
  lemma {:induction false} SpeedPassKeepsAim(m: Transcendentals, objects: seq<DiffObject>, speedMul: real, n: nat)
    requires speedMul > 0.0 && n <= |objects|
    ensures forall j :: 0 <= j < |objects| ==>
      PassUpTo(m, Speed, objects, speedMul, n).objects[j].aimStrain == objects[j].aimStrain
  {
    if n > 0 {
      SpeedPassKeepsAim(m, objects, speedMul, n - 1);
    }
  }

  lemma IndividualNonNegative(m: Transcendentals, kind: DiffKind, objects: seq<DiffObject>, speedMul: real)
    requires Sane(m) && speedMul > 0.0
    requires forall j :: 0 <= j < |objects| ==> StrainOf(objects[j], kind) >= 0.0
    ensures Individual(m, kind, objects, speedMul) >= 0.0
  {
    PassNonNegative(m, kind, objects, speedMul, |objects|);
    IndividualBounds(m, kind, objects, speedMul);
  }

  // ---------------------------------------------------------------------
  // The calculator

  /** `std_diff`: the diff objects it keeps between calls and the results
      of its last calculation. */
  class StdDiff {
    var objects: seq<DiffObject>
    var total: real
    var aim: real
    var speed: real
    var nsingles: nat
    var nsinglesThreshold: nat
    var singletapThreshold: Option<real>

    /** A calculator with no objects, zero results and the default
        threshold of 125 ms (1/2 notes at 240 bpm). */
    constructor ()
      ensures objects == [] && total == 0.0 && aim == 0.0 && speed == 0.0
      ensures nsingles == 0 && nsinglesThreshold == 0
      ensures singletapThreshold == Some(125.0)
    {
      objects := [];
      total, aim, speed := 0.0, 0.0, 0.0;
      nsingles, nsinglesThreshold := 0, 0;
      singletapThreshold := Some(125.0);
    }

    /** `_init_objects`, corrected so that every slot wraps the beatmap's own
        hit object: resize the array to the beatmap, then fill it with
        normalised diff objects. A circle size whose radius is 0 is an
        error and leaves the objects as they were. */
    method InitObjects(beatmap: Beatmap, circlesize: real) returns (r: Result<real>)
      modifies this`objects
      ensures r == NormalizerScale(circlesize)
      ensures r.Ok? ==> objects == InitCorrected(beatmap, r.value)
      ensures r.Err? ==> objects == old(objects)
    {
      var n := |beatmap.objects|;
      r := NormalizerScale(circlesize);
      if r.Err? {
        return;
      }
      var scale := r.value;
      if |objects| > n {
        objects := objects[..n];
      } else if |objects| < n {
        var k := |objects|;
        objects := objects + seq(n - k, j requires 0 <= j < n - k => NewDiffObject(beatmap.objects[k + j]));
      }
      for i := 0 to n
        invariant |objects| == n
        invariant objects[..i] == InitCorrected(beatmap, scale)[..i]
      {
        var d := NewDiffObject(beatmap.objects[i]);
        objects := objects[i := d.(normpos := NormalizedPos(d.obj, scale))];
      }
    }

    /** `_calc_strain` on slot `i`, against slot `i - 1`. */
    method CalcStrainAt(m: Transcendentals, kind: DiffKind, i: nat, speedMul: real)
      requires 0 < i < |objects| && speedMul > 0.0
      modifies this`objects
      ensures objects == old(objects)[i := CalcStrain(m, kind, old(objects)[i], old(objects)[i - 1], speedMul)]
    {
      objects := objects[i := CalcStrain(m, kind, objects[i], objects[i - 1], speedMul)];
    }

    /** `_calc_individual`: strains object by object, window maxima closed
        every 400 ms of sped-up time, sorted and weighted by powers of 0.9. */
    method CalcIndividual(m: Transcendentals, kind: DiffKind, speedMul: real) returns (difficulty: real)
      requires speedMul > 0.0
      modifies this`objects
      ensures objects == PassUpTo(m, kind, old(objects), speedMul, |old(objects)|).objects
      ensures difficulty == Individual(m, kind, old(objects), speedMul)
    {
      ghost var objects0 := objects;
      var strains: seq<real> := [];
      var strainStep := STRAIN_STEP * speedMul;
      var intervalEnd := strainStep;
      var maxStrain := 0.0;
      for i := 0 to |objects|
        invariant PassUpTo(m, kind, objects0, speedMul, i) == Pass(objects, strains, intervalEnd, maxStrain)
        invariant |objects| == |objects0|
      {
        if i > 0 {
          CalcStrainAt(m, kind, i, speedMul);
        }
        strains, intervalEnd, maxStrain := CloseWindowsLoop(m, kind, objects, strains, intervalEnd, maxStrain, i, strainStep);
        maxStrain := Max(maxStrain, StrainOf(objects[i], kind));
      }
      difficulty := WeightedLoop(SortDesc(strains));
    }

    /** `std_diff.calc` for an explicitly given beatmap and mask: fills the
        star ratings and singletap counts. */
    method Calc(m: Transcendentals, beatmap: Beatmap, mods: Mask, threshold: Option<real>) returns (ok: bool)
      modifies this
      ensures ok <==> CalcSpec(m, beatmap, mods, threshold).Ok?
      ensures ok ==> Matches(CalcSpec(m, beatmap, mods, threshold).value)
      ensures singletapThreshold == EffectiveThreshold(threshold)
    {
      var base := new BeatmapStats(StatValues(0.0, 0.0, 0.0, beatmap.cs, 1.0));
      var stats := base.WithMods(mods);
      SpeedMulOfApplyMods(StatValues(0.0, 0.0, 0.0, beatmap.cs, 1.0), mods);
      singletapThreshold := EffectiveThreshold(threshold);
      ok := CalcModded(m, beatmap, stats.speedMul, stats.cs, TD in mods);
    }

    /** `std_diff.calc` once the speed multiplier and circle size are
        known. */
    method CalcModded(m: Transcendentals, beatmap: Beatmap, speedMul: real, circlesize: real, touchDevice: bool)
      returns (ok: bool)
      requires speedMul > 0.0
      modifies this`objects, this`speed, this`aim, this`total, this`nsingles, this`nsinglesThreshold
      ensures ok <==> CalcOnStats(m, beatmap, speedMul, circlesize, touchDevice, singletapThreshold).Ok?
      ensures ok ==> Matches(CalcOnStats(m, beatmap, speedMul, circlesize, touchDevice, singletapThreshold).value)
    {
      var scale := InitObjects(beatmap, circlesize);
      if scale.Err? {
        return false;
      }
      assert CalcOnStats(m, beatmap, speedMul, circlesize, touchDevice, singletapThreshold)
          == Ok(CalcFrom(m, objects, speedMul, touchDevice, singletapThreshold));
      CalcOnObjects(m, speedMul, touchDevice);
      ok := true;
    }

    /** `std_diff.calc` once the objects are initialised: the passes, the
        star ratings and the singletap counts. */
    method CalcOnObjects(m: Transcendentals, speedMul: real, touchDevice: bool)
      requires speedMul > 0.0
      modifies this`objects, this`speed, this`aim, this`total, this`nsingles, this`nsinglesThreshold
      ensures Matches(CalcFrom(m, old(objects), speedMul, touchDevice, singletapThreshold))
    {
      ghost var objects0 := objects;
      ghost var objects1 := PassUpTo(m, Speed, objects0, speedMul, |objects0|).objects;
      CalcPasses(m, speedMul, touchDevice);
      nsingles, nsinglesThreshold := CountSinglesLoop(objects, speedMul, singletapThreshold);
      CalcFromSteps(m, objects0, speedMul, touchDevice, singletapThreshold, objects1, objects,
                    speed, aim, total, nsingles, nsinglesThreshold);
    }

    /** The fields hold the results `r` describes. */
    predicate Matches(r: DiffResult)
      reads this
    {
      && objects == r.objects && total == r.total && aim == r.aim && speed == r.speed
      && nsingles == r.nsingles && nsinglesThreshold == r.nsinglesThreshold
    }

    /** `std_diff.calc` once the objects are initialised: the two passes
        and the star ratings. */
    method CalcPasses(m: Transcendentals, speedMul: real, touchDevice: bool)
      requires speedMul > 0.0
      modifies this`objects, this`speed, this`aim, this`total
      ensures
        var objects1 := PassUpTo(m, Speed, old(objects), speedMul, |old(objects)|).objects;
        && objects == PassUpTo(m, Aim, objects1, speedMul, |old(objects)|).objects
        && speed == m.sqrt(Individual(m, Speed, old(objects), speedMul)) * STAR_SCALING_FACTOR
        && aim == AimStars(m, Individual(m, Aim, objects1, speedMul), touchDevice)
        && total == StarTotal(aim, speed)
    {
      ghost var objects0 := objects;
      ghost var objects1 := PassUpTo(m, Speed, objects0, speedMul, |objects0|).objects;
      var speedRaw, aimRaw := RunPasses(m, speedMul);
      speed, aim, total := StarSteps(m, speedRaw, aimRaw, touchDevice);
    }

    /** The speed pass, then the aim pass on the objects it left. */
    method RunPasses(m: Transcendentals, speedMul: real) returns (speedRaw: real, aimRaw: real)
      requires speedMul > 0.0
      modifies this`objects
      ensures speedRaw == Individual(m, Speed, old(objects), speedMul)
      ensures
        var objects1 := PassUpTo(m, Speed, old(objects), speedMul, |old(objects)|).objects;
        && aimRaw == Individual(m, Aim, objects1, speedMul)
        && objects == PassUpTo(m, Aim, objects1, speedMul, |old(objects)|).objects
    {
      speedRaw := CalcIndividual(m, Speed, speedMul);
      aimRaw := CalcIndividual(m, Aim, speedMul);
    }
  }

  /** The star ratings of `std_diff.calc` from the two raw difficulties:
      square roots scaled by the star scaling factor, the aim rating raised
      to 0.8 under touch device, and their total. */
  method StarSteps(m: Transcendentals, speedRaw: real, aimRaw: real, touchDevice: bool)
    returns (speed: real, aim: real, total: real)
    ensures speed == m.sqrt(speedRaw) * STAR_SCALING_FACTOR
    ensures aim == AimStars(m, aimRaw, touchDevice)
    ensures total == StarTotal(aim, speed)
  {
    speed := m.sqrt(speedRaw) * STAR_SCALING_FACTOR;
    aim := m.sqrt(aimRaw) * STAR_SCALING_FACTOR;
    if touchDevice {
      aim := m.pow(aim, 0.8);
    }
    total := aim + speed + Abs(speed - aim) * EXTREME_SCALING_FACTOR;
  }

  /** The inner loop of `_calc_individual`: while object `i` lies past
      the end of the current window, push the window's maximum and start
      the next window. */
  method CloseWindowsLoop(m: Transcendentals, kind: DiffKind, objects: seq<DiffObject>, strains: seq<real>,
                          intervalEnd: real, maxStrain: real, i: nat, strainStep: real)
    returns (strains': seq<real>, intervalEnd': real, maxStrain': real)
    requires strainStep > 0.0 && i < |objects|
    ensures Pass(objects, strains', intervalEnd', maxStrain')
         == CloseWindows(m, kind, Pass(objects, strains, intervalEnd, maxStrain), i, strainStep)
  {
    strains', intervalEnd', maxStrain' := strains, intervalEnd, maxStrain;
    while objects[i].obj.time > intervalEnd'
      invariant CloseWindows(m, kind, Pass(objects, strains', intervalEnd', maxStrain'), i, strainStep)
             == CloseWindows(m, kind, Pass(objects, strains, intervalEnd, maxStrain), i, strainStep)
      decreases WindowsLeft(objects[i].obj.time, intervalEnd', strainStep)
    {
      WindowsLeftStep(objects[i].obj.time, intervalEnd', strainStep);
      var next := 0.0;
      if i > 0 {
        var decay := m.pow(DecayBase(kind), (intervalEnd' - objects[i - 1].obj.time) / 1000.0);
        next := StrainOf(objects[i - 1], kind) * decay;
      }
      assert next == if i > 0 then DecayedStrain(m, kind, objects[i - 1], intervalEnd') else 0.0;
      strains', intervalEnd', maxStrain' := strains' + [maxStrain'], intervalEnd' + strainStep, next;
    }
  }

  /** The weighting loop of `_calc_individual`: the sorted window maxima
      weighted by successive powers of 0.9. */
  method WeightedLoop(strains: seq<real>) returns (difficulty: real)
    ensures difficulty == WeightedSum(strains, |strains|)
  {
    var weight := 1.0;
    difficulty := 0.0;
    for i := 0 to |strains|
      invariant weight == Pow(DECAY_WEIGHT, i)
      invariant difficulty == WeightedSum(strains, i)
    {
      difficulty := difficulty + strains[i] * weight;
      weight := weight * DECAY_WEIGHT;
    }
  }

  /** The singletap loop of `std_diff.calc`: objects 1..n-1 marked as
      singletaps, and the circles and sliders among them whose interval to
      the previous object, in sped-up time, reaches the threshold. */
  method CountSinglesLoop(objects: seq<DiffObject>, speedMul: real, threshold: Option<real>)
    returns (nsingles: nat, nsinglesThreshold: nat)
    requires speedMul > 0.0
    ensures nsingles == CountSingles(objects, |objects|)
    ensures nsinglesThreshold == CountOverThreshold(objects, speedMul, threshold, |objects|)
  {
    nsingles, nsinglesThreshold := 0, 0;
    if |objects| == 0 {
      return;
    }
    var i := 1;
    while i < |objects|
      invariant 1 <= i <= |objects|
      invariant nsingles == CountSingles(objects, i)
      invariant nsinglesThreshold == CountOverThreshold(objects, speedMul, threshold, i)
    {
      var obj := objects[i].obj;
      var prev := objects[i - 1].obj;
      if objects[i].isSingle {
        nsingles := nsingles + 1;
      }
      if IsCircleOrSlider(obj) {
        var interval := Interval(obj, prev, speedMul);
        if threshold.Some? && interval >= threshold.value {
          nsinglesThreshold := nsinglesThreshold + 1;
        }
      }
      i := i + 1;
    }
  }

  /** `diff.calc`'s dispatch on the game mode: only osu!standard has a
      calculator. */
  method CalcForMode(m: Transcendentals, beatmap: Beatmap, mods: Mask, threshold: Option<real>) returns (r: Result<StdDiff>)
    ensures beatmap.mode != STD_MODE ==> r == Err(UnsupportedMode)
    ensures beatmap.mode == STD_MODE ==>
      (r.Ok? <==> CalcSpec(m, beatmap, mods, threshold).Ok?)
    ensures r.Ok? ==> fresh(r.value) && r.value.total == CalcSpec(m, beatmap, mods, threshold).value.total
  {
    if beatmap.mode != STD_MODE {
      return Err(UnsupportedMode);
    }
    var calculator := new StdDiff();
    var ok := calculator.Calc(m, beatmap, mods, threshold);
    if !ok {
      return Err(CalcSpec(m, beatmap, mods, threshold).error);
    }
    return Ok(calculator);
  }
}

/** The partial beatmap the calculator works on (timing points, hit objects,
    the `Beatmap` record) and its maximum-combo estimate, `Beatmap.maxCombo`. */
module Beatmaps {
  import opened Numeric

  datatype Vec = Vec(x: real, y: real)

  /** A timing point. An inherited point (`change` false) with a negative
      `msPerBeat` holds a slider-velocity multiplier of `-100 / msPerBeat`. */
  datatype Timing = Timing(time: real, msPerBeat: real, change: bool)

  /** What the type bits of a hit object say it is, with the data each kind
      carries. `Other` has none of the circle, slider and spinner bits. */
  datatype HitKind =
    | Circle(pos: Vec)
    | Slider(pos: Vec, distance: real, repetitions: int)
    | Spinner
    | Other

  datatype HitObject = HitObject(time: real, kind: HitKind)

  /** The mode the calculator supports, osu!standard. */
  const STD_MODE: int := 0

  datatype Beatmap = Beatmap(
    formatVersion: int,
    mode: int,
    cs: real,
    ar: real,
    od: real,
    hp: real,
    sv: real,
    tickRate: real,
    circleCount: nat,
    sliderCount: nat,
    spinnerCount: nat,
    objects: seq<HitObject>,
    timingPoints: seq<Timing>)

  /** The values `Beatmap.reset` gives a fresh beatmap. */
  function Reset(): (b: Beatmap)
    ensures b.mode == STD_MODE && b.formatVersion == 1
    ensures b.cs == b.ar == b.od == b.hp == 5.0 && b.sv == b.tickRate == 1.0
    ensures b.circleCount == b.sliderCount == b.spinnerCount == 0
    ensures b.objects == [] && b.timingPoints == []
  {
    Beatmap(1, STD_MODE, 5.0, 5.0, 5.0, 5.0, 1.0, 1.0, 0, 0, 0, [], [])
  }

  predicate IsSlider(o: HitObject)
  {
    o.kind.Slider?
  }

  /** The time bound of the timing-point cursor: minus infinity before the
      first point, then the start of the next point, or plus infinity after
      the last one. */
  datatype Bound = NegInf | At(t: real) | PosInf

  predicate Reached(time: real, b: Bound)
  {
    match b
    case NegInf => true
    case At(t) => time >= t
    case PosInf => false
  }

  /** The bound `maxCombo` holds in `tnext` while its cursor is at `i`. */
  function NextBound(tp: seq<Timing>, i: int): Bound
  {
    if i < 0 then NegInf
    else if |tp| > i + 1 then At(tp[i + 1].time)
    else PosInf
  }

  /** Where the cursor stops for an object at `time` when it starts at `i`:
      it moves forward while the object is at or after the next bound. */
  function Cursor(tp: seq<Timing>, i: int, time: real): (c: int)
    requires -1 <= i <= |tp|
    ensures i <= c <= |tp| && 0 <= c
    decreases |tp| - i
  {
    if Reached(time, NextBound(tp, i)) then Cursor(tp, i + 1, time) else i
  }

  lemma CursorStep(tp: seq<Timing>, i: int, time: real)
    requires -1 <= i < |tp| || i == -1
    requires Reached(time, NextBound(tp, i))
    ensures Cursor(tp, i, time) == Cursor(tp, i + 1, time)
  {
  }

  /** The cursor ends on a timing point when there is one and on index 0,
      past the end, when there is none. */
  lemma {:induction false} CursorBounds(tp: seq<Timing>, i: int, time: real)
    requires -1 <= i < |tp| || i == -1
    ensures |tp| > 0 ==> Cursor(tp, i, time) < |tp|
    ensures |tp| == 0 ==> Cursor(tp, i, time) == 0
    decreases |tp| - i
  {
    if Reached(time, NextBound(tp, i)) {
      if |tp| > 0 {
        CursorBounds(tp, i + 1, time);
      }
    }
  }

  /** The cursor stops on the last timing point that starts at or before
      `time` among those after its start, or on the first point it visits
      when even that one starts later. */
  lemma {:induction false} CursorStops(tp: seq<Timing>, i: int, time: real)
    requires -1 <= i < |tp| && |tp| > 0
    ensures Cursor(tp, i, time) < |tp|
    ensures var c := Cursor(tp, i, time);
      && (c + 1 < |tp| ==> time < tp[c + 1].time)
      && (forall j :: i < j <= c && j > 0 ==> tp[j].time <= time)
    decreases |tp| - i
  {
    if Reached(time, NextBound(tp, i)) {
      CursorStops(tp, i + 1, time);
    }
  }

  /** The slider-velocity multiplier of a timing point. */
  function SvMultiplier(t: Timing): (r: real)
    ensures r > 0.0
  {
    if !t.change && t.msPerBeat < 0.0 then -100.0 / t.msPerBeat else 1.0
  }

  /** Playfield pixels per beat under a timing point. Format versions
      before 8 ignore the point's multiplier. */
  function PixelsPerBeat(beatmap: Beatmap, t: Timing): real
  {
    if beatmap.formatVersion < 8 then beatmap.sv * 100.0 else beatmap.sv * 100.0 * SvMultiplier(t)
  }

  /** The combo a slider gives under timing point `t`: head, tail, repeats
      and ticks, never below 0. A zero slider velocity or a zero repetition
      count makes the JavaScript computation divide by zero; the model
      reports those as errors. */
  function SliderCombo(beatmap: Beatmap, t: Timing, distance: real, repetitions: int): Result<int>
  {
    var pixelsPerBeat := PixelsPerBeat(beatmap, t);
    if pixelsPerBeat == 0.0 then Err(InvalidInput("slider velocity"))
    else if repetitions == 0 then Err(InvalidInput("slider repetitions"))
    else
      Ok(MaxInt(0, TickCount(BeatCount(distance, repetitions, pixelsPerBeat), repetitions, beatmap.tickRate)))
  }

  /** The beats a slider spans over all its repetitions. */
  function BeatCount(distance: real, repetitions: int, pixelsPerBeat: real): real
    requires pixelsPerBeat != 0.0
  {
    distance * repetitions as real / pixelsPerBeat
  }

  /** Head, tail, repeats and ticks of a slider spanning `beatCount` beats;
      0.1 beat is taken off first so that a whole beat count is not rounded
      up by a floating-point error. */
  function TickCount(beatCount: real, repetitions: int, tickRate: real): int
    requires repetitions != 0
  {
    var ticks := Ceil((beatCount - 0.1) / repetitions as real * tickRate) - 1;
    ticks * repetitions + repetitions + 1
  }

  /** The combo and cursor after the first `k` objects, following
      `maxCombo`'s pass. A slider met while there are no timing points makes
      the source read a field of `undefined`, reported as a missing input. */
  function ComboUpTo(beatmap: Beatmap, k: nat): (r: Result<(int, int)>)
    requires k <= |beatmap.objects|
    ensures r.Ok? ==> -1 <= r.value.1 < |beatmap.timingPoints|
  {
    if k == 0 then Ok((beatmap.circleCount + beatmap.spinnerCount, -1))
    else
      match ComboUpTo(beatmap, k - 1)
      case Err(e) => Err(e)
      case Ok((res, tindex)) =>
        var o := beatmap.objects[k - 1];
        if !o.kind.Slider? then Ok((res, tindex))
        else
          var c := Cursor(beatmap.timingPoints, tindex, o.time);
          if c >= |beatmap.timingPoints| then Err(MissingInput("timing points"))
          else
            match SliderCombo(beatmap, beatmap.timingPoints[c], o.kind.distance, o.kind.repetitions)
            case Err(e) => Err(e)
            case Ok(n) => Ok((res + n, c))
  }

  /** The maximum combo of a beatmap. */
  function ExpectedMaxCombo(beatmap: Beatmap): Result<int>
  {
    match ComboUpTo(beatmap, |beatmap.objects|)
    case Err(e) => Err(e)
    case Ok((res, _)) => Ok(res)
  }

  /** The cursor of a successful prefix is -1 before the first slider and on
      a timing point afterwards; the combo never drops below circles plus
      spinners. */
  lemma {:induction false} ComboUpToInvariant(beatmap: Beatmap, k: nat)
    requires k <= |beatmap.objects|
    ensures ComboUpTo(beatmap, k).Ok? ==>
      var (res, tindex) := ComboUpTo(beatmap, k).value;
      && res >= beatmap.circleCount + beatmap.spinnerCount
      && -1 <= tindex < |beatmap.timingPoints|
      && (tindex == -1 <==> forall j :: 0 <= j < k ==> !IsSlider(beatmap.objects[j]))
  {
    if k > 0 {
      ComboUpToInvariant(beatmap, k - 1);
      if ComboUpTo(beatmap, k - 1).Ok? {
        var (res, tindex) := ComboUpTo(beatmap, k - 1).value;
        var o := beatmap.objects[k - 1];
        if o.kind.Slider? {
          CursorBounds(beatmap.timingPoints, tindex, o.time);
          assert IsSlider(beatmap.objects[k - 1]);
        }
      }
    }
  }

  lemma {:induction false} ErrSticks(beatmap: Beatmap, k: nat, m: nat)
    requires k <= m <= |beatmap.objects|
    requires ComboUpTo(beatmap, k).Err?
    ensures ComboUpTo(beatmap, m) == ComboUpTo(beatmap, k)
    decreases m - k
  {
    if k < m {
      ErrSticks(beatmap, k + 1, m);
    }
  }

  /** The timing-point loop of `maxCombo`: move the cursor forward while
      the object at `time` is at or after the next bound, recomputing the
      pixels per beat at each point visited. `ok` is false when the cursor
      runs past the end, which only an empty timing-point list allows. */
  method AdvanceCursor(beatmap: Beatmap, tindex0: int, tnext0: Bound, pixelsPerBeat0: real, time: real)
    returns (tindex: int, tnext: Bound, pixelsPerBeat: real, ok: bool)
    requires -1 <= tindex0 < |beatmap.timingPoints|
    requires tnext0 == NextBound(beatmap.timingPoints, tindex0)
    requires tindex0 >= 0 ==> pixelsPerBeat0 == PixelsPerBeat(beatmap, beatmap.timingPoints[tindex0])
    ensures ok <==> Cursor(beatmap.timingPoints, tindex0, time) < |beatmap.timingPoints|
    ensures ok ==>
      && tindex == Cursor(beatmap.timingPoints, tindex0, time)
      && tnext == NextBound(beatmap.timingPoints, tindex)
      && pixelsPerBeat == PixelsPerBeat(beatmap, beatmap.timingPoints[tindex])
  {
    var tp := beatmap.timingPoints;
    tindex, tnext, pixelsPerBeat := tindex0, tnext0, pixelsPerBeat0;
    while Reached(time, tnext)
      invariant -1 <= tindex < |tp|
      invariant tnext == NextBound(tp, tindex)
      invariant Cursor(tp, tindex, time) == Cursor(tp, tindex0, time)
      invariant tindex >= 0 ==> pixelsPerBeat == PixelsPerBeat(beatmap, tp[tindex])
      decreases |tp| - tindex
    {
      CursorStep(tp, tindex, time);
      tindex := tindex + 1;
      if |tp| > tindex + 1 {
        tnext := At(tp[tindex + 1].time);
      } else {
        tnext := PosInf;
      }
      if tindex >= |tp| {
        return tindex, tnext, pixelsPerBeat, false;
      }
      var t := tp[tindex];
      if beatmap.formatVersion < 8 {
        pixelsPerBeat := beatmap.sv * 100.0;
      } else {
        pixelsPerBeat := beatmap.sv * 100.0 * SvMultiplier(t);
      }
    }
    ok := true;
  }

  lemma SliderStep(beatmap: Beatmap, k: nat, res: int, tindex: int)
    requires k < |beatmap.objects| && beatmap.objects[k].kind.Slider?
    requires ComboUpTo(beatmap, k) == Ok((res, tindex))
    ensures var o := beatmap.objects[k];
      var c := Cursor(beatmap.timingPoints, tindex, o.time);
      ComboUpTo(beatmap, k + 1) ==
        if c >= |beatmap.timingPoints| then Err(MissingInput("timing points"))
        else
          match SliderCombo(beatmap, beatmap.timingPoints[c], o.kind.distance, o.kind.repetitions)
          case Err(e) => Err(e)
          case Ok(n) => Ok((res + n, c))
  {
  }

  /** `maxCombo`: circles and spinners plus, for each slider in object
      order, the combo under the timing point the forward-only cursor is on. */
  method MaxCombo(beatmap: Beatmap) returns (r: Result<int>)
    ensures r == ExpectedMaxCombo(beatmap)
  {
    var tp := beatmap.timingPoints;
    var res: int := beatmap.circleCount + beatmap.spinnerCount;
    var tindex := -1;
    var tnext := NegInf;
    var pixelsPerBeat := 0.0;
    for k := 0 to |beatmap.objects|
      invariant ComboUpTo(beatmap, k) == Ok((res, tindex))
      invariant -1 <= tindex < |tp|
      invariant tnext == NextBound(tp, tindex)
      invariant tindex >= 0 ==> pixelsPerBeat == PixelsPerBeat(beatmap, tp[tindex])
    {
      var o := beatmap.objects[k];
      if o.kind.Slider? {
        SliderStep(beatmap, k, res, tindex);
        var ok;
        tindex, tnext, pixelsPerBeat, ok := AdvanceCursor(beatmap, tindex, tnext, pixelsPerBeat, o.time);
        if !ok {
          ErrSticks(beatmap, k + 1, |beatmap.objects|);
          return Err(MissingInput("timing points"));
        }
        var sl := o.kind;
        if pixelsPerBeat == 0.0 {
          ErrSticks(beatmap, k + 1, |beatmap.objects|);
          return Err(InvalidInput("slider velocity"));
        }
        if sl.repetitions == 0 {
          ErrSticks(beatmap, k + 1, |beatmap.objects|);
          return Err(InvalidInput("slider repetitions"));
        }
        var beatCount := BeatCount(sl.distance, sl.repetitions, pixelsPerBeat);
        var ticks := TickCount(beatCount, sl.repetitions, beatmap.tickRate);
        assert SliderCombo(beatmap, tp[tindex], sl.distance, sl.repetitions) == Ok(MaxInt(0, ticks));
        res := res + MaxInt(0, ticks);
      }
    }
    return Ok(res);
  }

  /** The combo is at least the number of circles and spinners. */
  lemma MaxComboAtLeastCirclesAndSpinners(beatmap: Beatmap)
    ensures ExpectedMaxCombo(beatmap).Ok? ==> ExpectedMaxCombo(beatmap).value >= beatmap.circleCount + beatmap.spinnerCount
  {
    ComboUpToInvariant(beatmap, |beatmap.objects|);
  }

  lemma {:induction false} NoSlidersPrefix(beatmap: Beatmap, k: nat)
    requires k <= |beatmap.objects|
    requires forall j :: 0 <= j < k ==> !IsSlider(beatmap.objects[j])
    ensures ComboUpTo(beatmap, k) == Ok((beatmap.circleCount + beatmap.spinnerCount, -1))
  {
    if k > 0 {
      NoSlidersPrefix(beatmap, k - 1);
    }
  }

  /** Without sliders the combo is exactly circles plus spinners, timing
      points or not. */
  lemma MaxComboWithoutSliders(beatmap: Beatmap)
    requires forall j :: 0 <= j < |beatmap.objects| ==> !IsSlider(beatmap.objects[j])
    ensures ExpectedMaxCombo(beatmap) == Ok(beatmap.circleCount + beatmap.spinnerCount)
  {
    NoSlidersPrefix(beatmap, |beatmap.objects|);
  }

  lemma {:induction false} NoTimingPointsPrefix(beatmap: Beatmap, k: nat)
    requires k <= |beatmap.objects| && beatmap.timingPoints == []
    ensures ComboUpTo(beatmap, k) ==
      if exists j :: 0 <= j < k && IsSlider(beatmap.objects[j]) then Err(MissingInput("timing points"))
      else Ok((beatmap.circleCount + beatmap.spinnerCount, -1))
  {
    if k > 0 {
      NoTimingPointsPrefix(beatmap, k - 1);
      if IsSlider(beatmap.objects[k - 1]) {
        assert exists j :: 0 <= j < k && IsSlider(beatmap.objects[j]);
      } else if exists j :: 0 <= j < k && IsSlider(beatmap.objects[j]) {
        var j :| 0 <= j < k && IsSlider(beatmap.objects[j]);
        assert j < k - 1;
      }
    }
  }

  /** In a beatmap without timing points, any slider is an error (the
      source reads a field of an undefined timing point). */
  lemma SliderWithoutTimingPoints(beatmap: Beatmap, j: nat)
    requires j < |beatmap.objects| && IsSlider(beatmap.objects[j])
    requires beatmap.timingPoints == []
    ensures ExpectedMaxCombo(beatmap) == Err(MissingInput("timing points"))
  {
    NoTimingPointsPrefix(beatmap, |beatmap.objects|);
  }

  lemma DivAtLeast(a: real, b: real)
    requires a >= -0.1 && b >= 1.0
    ensures a / b >= -0.1
  {
    var q := a / b;
    assert q * b == a;
    if q < 0.0 {
      MulMono(-q, 1.0, b);
    }
  }

  /** The tick count of a slider of a non-negative number of beats is at
      least 1 when the tick rate is below 10: it is `ceil(...) *
      repetitions + 1` with a ceiling that cannot go below 0. */
  lemma TickCountPositive(beatCount: real, repetitions: int, tickRate: real)
    requires beatCount >= 0.0 && repetitions >= 1 && 0.0 <= tickRate < 10.0
    ensures TickCount(beatCount, repetitions, tickRate) >= 1
  {
    var x := (beatCount - 0.1) / repetitions as real;
    DivAtLeast(beatCount - 0.1, repetitions as real);
    if x < 0.0 {
      MulMono(tickRate, -0.1, x);
    }
    var c := Ceil(x * tickRate);
    assert c >= 0;
    assert (c - 1) * repetitions + repetitions + 1 == c * repetitions + 1;
    MulMonoInt(c, repetitions);
  }

  lemma MulMonoInt(c: int, n: int)
    requires c >= 0 && n >= 1
    ensures c * n >= 0
  {
  }

  /** A slider adds at least one to the combo when its distance is not
      negative, the slider velocity is positive and the tick rate is below
      10. */
  lemma SliderComboPositive(beatmap: Beatmap, t: Timing, distance: real, repetitions: int)
    requires distance >= 0.0 && beatmap.sv > 0.0 && repetitions >= 1 && 0.0 <= beatmap.tickRate < 10.0
    ensures SliderCombo(beatmap, t, distance, repetitions).Ok?
    ensures SliderCombo(beatmap, t, distance, repetitions).value >= 1
  {
    var ppb := PixelsPerBeat(beatmap, t);
    assert ppb > 0.0 by {
      MulPositive(beatmap.sv * 100.0, SvMultiplier(t));
    }
    MulMono(distance, 0.0, repetitions as real);
    var beatCount := BeatCount(distance, repetitions, ppb);
    assert beatCount >= 0.0;
    TickCountPositive(beatCount, repetitions, beatmap.tickRate);
  }


  /** The number of sliders among the first `k` objects. */
  function SlidersIn(objects: seq<HitObject>, k: nat): nat
    requires k <= |objects|
  {
    if k == 0 then 0 else SlidersIn(objects, k - 1) + (if IsSlider(objects[k - 1]) then 1 else 0)
  }

  /** A beatmap whose sliders all make sense: a positive slider velocity,
      timing points, tick rate below 10, non-negative distances and at
      least one repetition. */
  predicate WellFormed(beatmap: Beatmap)
  {
    && beatmap.sv > 0.0
    && |beatmap.timingPoints| > 0
    && 0.0 <= beatmap.tickRate < 10.0
    && forall j :: 0 <= j < |beatmap.objects| && IsSlider(beatmap.objects[j]) ==>
         beatmap.objects[j].kind.distance >= 0.0 && beatmap.objects[j].kind.repetitions >= 1
  }

  lemma {:induction false} WellFormedPrefix(beatmap: Beatmap, k: nat)
    requires WellFormed(beatmap) && k <= |beatmap.objects|
    ensures ComboUpTo(beatmap, k).Ok?
    ensures ComboUpTo(beatmap, k).value.0 >= beatmap.circleCount + beatmap.spinnerCount + SlidersIn(beatmap.objects, k)
  {
    if k > 0 {
      WellFormedPrefix(beatmap, k - 1);
      var o := beatmap.objects[k - 1];
      if IsSlider(o) {
        var (res, tindex) := ComboUpTo(beatmap, k - 1).value;
        var c := Cursor(beatmap.timingPoints, tindex, o.time);
        CursorBounds(beatmap.timingPoints, tindex, o.time);
        SliderComboPositive(beatmap, beatmap.timingPoints[c], o.kind.distance, o.kind.repetitions);
      }
    }
  }

  /** In a well-formed beatmap every slider adds at least one, so the
      combo is at least circles plus spinners plus sliders, and it equals
      circles plus spinners exactly when there is no slider. */
  lemma MaxComboOfWellFormed(beatmap: Beatmap)
    requires WellFormed(beatmap)
    ensures ExpectedMaxCombo(beatmap).Ok?
    ensures ExpectedMaxCombo(beatmap).value >=
      beatmap.circleCount + beatmap.spinnerCount + SlidersIn(beatmap.objects, |beatmap.objects|)
    ensures ExpectedMaxCombo(beatmap).value == beatmap.circleCount + beatmap.spinnerCount <==>
      forall j :: 0 <= j < |beatmap.objects| ==> !IsSlider(beatmap.objects[j])
  {
    WellFormedPrefix(beatmap, |beatmap.objects|);
    if forall j :: 0 <= j < |beatmap.objects| ==> !IsSlider(beatmap.objects[j]) {
      MaxComboWithoutSliders(beatmap);
    } else {
      var j :| 0 <= j < |beatmap.objects| && IsSlider(beatmap.objects[j]);
      SlidersInPositive(beatmap.objects, |beatmap.objects|, j);
    }
  }

  lemma {:induction false} SlidersInPositive(objects: seq<HitObject>, k: nat, j: nat)
    requires j < k <= |objects| && IsSlider(objects[j])
    ensures SlidersIn(objects, k) >= 1
  {
    if j < k - 1 {
      SlidersInPositive(objects, k - 1, j);
    }
  }

  /** Format versions before 8 ignore the timing points' multipliers, so
      the combo does not depend on which (non-empty) list of timing points
      the beatmap has. */
  lemma OldFormatIgnoresTimingPoints(beatmap: Beatmap, other: seq<Timing>)
    requires beatmap.formatVersion < 8
    requires |beatmap.timingPoints| > 0 && |other| > 0
    ensures ExpectedMaxCombo(beatmap) == ExpectedMaxCombo(beatmap.(timingPoints := other))
  {
    OldFormatPrefix(beatmap, other, |beatmap.objects|);
  }

  lemma {:induction false} OldFormatPrefix(beatmap: Beatmap, other: seq<Timing>, k: nat)
    requires beatmap.formatVersion < 8
    requires |beatmap.timingPoints| > 0 && |other| > 0
    requires k <= |beatmap.objects|
    ensures var a := ComboUpTo(beatmap, k);
      var b := ComboUpTo(beatmap.(timingPoints := other), k);
      && a.Ok? == b.Ok?
      && (a.Ok? ==> a.value.0 == b.value.0)
      && (a.Err? ==> a.error == b.error)
  {
    if k > 0 {
      OldFormatPrefix(beatmap, other, k - 1);
      var beatmap' := beatmap.(timingPoints := other);
      var o := beatmap.objects[k - 1];
      if ComboUpTo(beatmap, k - 1).Ok? && IsSlider(o) {
        var (res, tindex) := ComboUpTo(beatmap, k - 1).value;
        var (res', tindex') := ComboUpTo(beatmap', k - 1).value;
        var c := Cursor(beatmap.timingPoints, tindex, o.time);
        var c' := Cursor(other, tindex', o.time);
        CursorBounds(beatmap.timingPoints, tindex, o.time);
        CursorBounds(other, tindex', o.time);
        assert PixelsPerBeat(beatmap, beatmap.timingPoints[c]) == PixelsPerBeat(beatmap', other[c']);
        assert SliderCombo(beatmap, beatmap.timingPoints[c], o.kind.distance, o.kind.repetitions)
            == SliderCombo(beatmap', other[c'], o.kind.distance, o.kind.repetitions);
      }
    }
  }
}

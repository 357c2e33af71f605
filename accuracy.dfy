/** `std_accuracy`: hit counts of a play, either given or inferred from an
    accuracy percentage, and the accuracy they amount to. */
module Accuracy {
  import opened Numeric

  /** What the caller passes: each field may be left out. */
  datatype AccuracyValues = AccuracyValues(
    n300: Option<int>,
    n100: Option<int>,
    n50: Option<int>,
    nmiss: Option<int>,
    percent: Option<real>,
    nobjects: Option<int>)

  /** The counts a `std_accuracy` holds. A negative `n300` (-1 when the
      caller gave none) means "all objects not otherwise counted", which
      `Value` can only resolve when told the number of objects. */
  datatype Counts = Counts(n300: int, n100: int, n50: int, nmiss: int)

  /** `x || 0` on an optional count. */
  function OrZero(x: Option<int>): int
  {
    if x.Some? then x.value else 0
  }

  /** `Math.max(0, Math.min(num / den, 1))` with the IEEE cases of a zero
      denominator: a positive numerator gives +Infinity (clamped to 1), a
      negative one -Infinity (clamped to 0), and 0/0 is NaN. */
  function ClampedRatio(num: real, den: real): (r: Result<real>)
    ensures r.Ok? ==> 0.0 <= r.value <= 1.0
    ensures r.Err? <==> num == 0.0 && den == 0.0
    ensures den > 0.0 && 0.0 <= num <= den ==> r == Ok(num / den)
  {
    if den == 0.0 then
      if num > 0.0 then Ok(1.0)
      else if num < 0.0 then Ok(0.0)
      else Err(NotANumber)
    else
      Ok(Max(0.0, Min(num / den, 1.0)))
  }

  /** `std_accuracy.prototype.value`: the score-weighted share of 300s,
      clamped to [0, 1]. Without `n300` the number of objects is required
      (and must not be 0). */
  function Value(c: Counts, nobjects: Option<int>): (r: Result<real>)
    ensures r.Ok? ==> 0.0 <= r.value <= 1.0
    ensures c.n300 < 0 && (nobjects == None || nobjects == Some(0)) ==> r.Err?
  {
    if c.n300 < 0 then
      if nobjects == None || nobjects == Some(0) then Err(MissingInput("n300 or nobjects"))
      else
        var n := nobjects.value;
        var n300 := n - c.n100 - c.n50 - c.nmiss;
        ClampedRatio((n300 * 300 + c.n100 * 100 + c.n50 * 50) as real, (n * 300) as real)
    else
      var n := c.n300 + c.n100 + c.n50 + c.nmiss;
      ClampedRatio((c.n300 * 300 + c.n100 * 100 + c.n50 * 50) as real, (n * 300) as real)
  }

  /** Only 300s, at least one of them: accuracy 1. */
  lemma PerfectValue(n300: int, nobjects: Option<int>)
    requires n300 > 0
    ensures Value(Counts(n300, 0, 0, 0), nobjects) == Ok(1.0)
  {
    var d := (n300 * 300) as real;
    assert d > 0.0 && d / d == 1.0;
  }

  /** For non-negative counts the converse holds too: accuracy 1 means only
      300s, at least one of them. */
  lemma PerfectValueOnly(c: Counts)
    requires c.n300 >= 0 && c.n100 >= 0 && c.n50 >= 0 && c.nmiss >= 0
    ensures Value(c, None) == Ok(1.0) <==> c.n100 == 0 && c.n50 == 0 && c.nmiss == 0 && c.n300 > 0
  {
    var total := c.n300 + c.n100 + c.n50 + c.nmiss;
    if total > 0 {
      ValueOfCounts(c);
      var num := (c.n300 * 300 + c.n100 * 100 + c.n50 * 50) as real;
      var den := (total * 300) as real;
      if Value(c, None) == Ok(1.0) {
        assert num / den == 1.0;
        assert num == den;
      }
      if c.n100 == 0 && c.n50 == 0 && c.nmiss == 0 && c.n300 > 0 {
        PerfectValue(c.n300, None);
      }
    }
  }

  /** With non-negative counts, at least one of them positive, the value
      is the exact weighted share. */
  lemma ValueOfCounts(c: Counts)
    requires c.n300 >= 0 && c.n100 >= 0 && c.n50 >= 0 && c.nmiss >= 0
    requires c.n300 + c.n100 + c.n50 + c.nmiss > 0
    ensures Value(c, None)
         == Ok((c.n300 * 300 + c.n100 * 100 + c.n50 * 50) as real / ((c.n300 + c.n100 + c.n50 + c.nmiss) * 300) as real)
  {
  }

  /** Counting the missing 300s from the number of objects gives the same
      value as stating them. */
  lemma ValueWithObjectCount(c: Counts, nobjects: int)
    requires c.n300 < 0 && nobjects != 0
    requires nobjects - c.n100 - c.n50 - c.nmiss >= 0
    ensures Value(c, Some(nobjects)) == Value(c.(n300 := nobjects - c.n100 - c.n50 - c.nmiss), None)
  {
  }

  /** The accuracy in percent that the best play with `nmiss` misses among
      `nobjects` objects reaches: all other objects 300s. */
  function MaxAccuracy(nobjects: int, nmiss: int): Result<real>
  {
    var max300 := nobjects - nmiss;
    match Value(Counts(max300, 0, 0, nmiss), None)
    case Err(e) => Err(e)
    case Ok(v) => Ok(v * 100.0)
  }

  /** The `std_accuracy` constructor. With a non-zero `percent` the misses
      are capped at the number of objects, the percentage is clamped to
      what those misses allow, and the 100s (or, below all-100s accuracy,
      the 50s) are inferred so as to come closest to it; the 300s make up
      the rest. A percentage without a number of objects is an error, and
      so is one over 0 objects without misses, where the source computes
      NaN. */
  method NewAccuracy(values: AccuracyValues) returns (r: Result<Counts>)
    ensures r == Inferred(values)
    ensures r.Ok? && values.percent != None && values.percent != Some(0.0) ==>
      r.value.n300 + r.value.n100 + r.value.n50 + r.value.nmiss == values.nobjects.value
    ensures r.Ok? && values.percent != None && values.percent != Some(0.0) ==>
      r.value.nmiss <= values.nobjects.value
  {
    var nmiss := OrZero(values.nmiss);
    var n300 := if values.n300 == None then -1 else values.n300.value;
    var n100 := OrZero(values.n100);
    var n50 := OrZero(values.n50);
    if values.percent != None && values.percent != Some(0.0) {
      if values.nobjects == None {
        return Err(MissingInput("nobjects"));
      }
      var nobjects := values.nobjects.value;
      nmiss := MinInt(nobjects, nmiss);
      var max300 := nobjects - nmiss;
      var maxacc := MaxAccuracy(nobjects, nmiss);
      if maxacc.Err? {
        return Err(maxacc.error);
      }
      var percent := ClampedPercent(values.percent.value, maxacc.value);
      n100 := Round(Needed(3.0, percent, nobjects, nmiss));
      if n100 > max300 {
        n100 := 0;
        n50 := Round(Needed(2.4, percent, nobjects, nmiss));
        n50 := MinInt(max300, n50);
      }
      n300 := nobjects - n100 - n50 - nmiss;
    }
    r := Ok(Counts(n300, n100, n50, nmiss));
  }

  /** The percentage the inference aims at: the given one clamped to
      [0, best reachable]. */
  function ClampedPercent(percent: real, maxacc: real): real
  {
    Max(0.0, Min(maxacc, percent))
  }

  /** `-k/2 * ((percent/100 - 1) * nobjects + nmiss)`, that is k/2 times
      the shortfall `D = (1 - percent/100) * nobjects - nmiss`, counted in
      whole objects, of `percent` below all 300s. A 100 costs 2/3 of an
      object and a 50 costs 5/6, so k = 3 gives the (unrounded) number of
      100s that reach `percent` and k = 2.4 the number of 50s. The source
      uses k = 6 for the 50s. */
  function Needed(k: real, percent: real, nobjects: int, nmiss: int): real
  {
    -k * ((percent * 0.01 - 1.0) * nobjects as real + nmiss as real) * 0.5
  }

  /** What the constructor computes. */
  function Inferred(values: AccuracyValues): Result<Counts>
  {
    var nmiss := OrZero(values.nmiss);
    var n300 := if values.n300 == None then -1 else values.n300.value;
    var n100 := OrZero(values.n100);
    var n50 := OrZero(values.n50);
    if values.percent == None || values.percent == Some(0.0) then Ok(Counts(n300, n100, n50, nmiss))
    else if values.nobjects == None then Err(MissingInput("nobjects"))
    else
      var nobjects := values.nobjects.value;
      var nmiss' := MinInt(nobjects, nmiss);
      var max300 := nobjects - nmiss';
      match MaxAccuracy(nobjects, nmiss')
      case Err(e) => Err(e)
      case Ok(maxacc) => Ok(InferFromPercent(ClampedPercent(values.percent.value, maxacc), nobjects, nmiss', n50))
  }

  /** The counts the constructor as written infers for a clamped
      percentage: the 100s that come closest to it, or, when more are needed
      than there are non-missed objects, no 100s and `Round(3 D)` 50s capped
      at the non-missed objects. The cap is always reached
      (`FiftiesBelowAllHundreds`): every non-missed object becomes a 50. */
  function InferFromPercentAsWritten(percent: real, nobjects: int, nmiss: int, n50: int): (r: Counts)
    ensures r.nmiss == nmiss && r.n300 + r.n100 + r.n50 + r.nmiss == nobjects
    ensures r.n50 == n50 || r.n100 == 0
  {
    var max300 := nobjects - nmiss;
    var n100 := Round(Needed(3.0, percent, nobjects, nmiss));
    if n100 > max300 then
      var n50' := MinInt(max300, Round(Needed(6.0, percent, nobjects, nmiss)));
      Counts(nobjects - n50' - nmiss, 0, n50', nmiss)
    else
      Counts(nobjects - n100 - n50 - nmiss, n100, n50, nmiss)
  }

  /** The counts inferred for a clamped percentage: the 100s that come
      closest to it, or, when more are needed than there are non-missed
      objects, no 100s and the 50s that come closest, `Round(1.2 D)`, capped
      at the non-missed objects; the caller's 50s are kept in the first
      case. */
  function InferFromPercent(percent: real, nobjects: int, nmiss: int, n50: int): (r: Counts)
    ensures r.nmiss == nmiss && r.n300 + r.n100 + r.n50 + r.nmiss == nobjects
    ensures r.n50 == n50 || r.n100 == 0
  {
    var max300 := nobjects - nmiss;
    var n100 := Round(Needed(3.0, percent, nobjects, nmiss));
    if n100 > max300 then
      var n50' := MinInt(max300, Round(Needed(2.4, percent, nobjects, nmiss)));
      Counts(nobjects - n50' - nmiss, 0, n50', nmiss)
    else
      Counts(nobjects - n100 - n50 - nmiss, n100, n50, nmiss)
  }

  /** Inference over at least one object with a non-negative miss count
      gives non-negative 100s; below all-100s accuracy it gives no 100s and
      between 0 and `nobjects - nmiss` 50s, otherwise the caller's 50s; and
      the counts add up to the number of objects. */
  lemma InferredCounts(values: AccuracyValues)
    requires values.percent.Some? && values.percent != Some(0.0)
    requires values.nobjects.Some? && values.nobjects.value > 0
    requires OrZero(values.nmiss) >= 0
    ensures Inferred(values).Ok?
    ensures
      var c := Inferred(values).value;
      var nobjects := values.nobjects.value;
      && 0 <= c.nmiss <= nobjects
      && c.n100 >= 0
      && c.n300 + c.n100 + c.n50 + c.nmiss == nobjects
      && (c.n50 == OrZero(values.n50) || (c.n100 == 0 && 0 <= c.n50 <= nobjects - c.nmiss))
  {
    var nobjects := values.nobjects.value;
    var nmiss := MinInt(nobjects, OrZero(values.nmiss));
    var maxacc := MaxAccuracyOf(nobjects, nmiss);
    var percent := ClampedPercent(values.percent.value, maxacc);
    assert 0.0 <= percent * nobjects as real <= 100.0 * (nobjects - nmiss) as real by {
      ClampedPercentBound(values.percent.value, maxacc, nobjects, nmiss);
    }
    assert Inferred(values) == Ok(InferFromPercent(percent, nobjects, nmiss, OrZero(values.n50)));
    InferFromPercentCounts(percent, nobjects, nmiss, OrZero(values.n50));
  }

  /** `InferredCounts` for a clamped percentage. */
  lemma InferFromPercentCounts(percent: real, nobjects: int, nmiss: int, n50: int)
    requires nobjects > 0 && 0 <= nmiss <= nobjects
    requires 0.0 <= percent * nobjects as real <= 100.0 * (nobjects - nmiss) as real
    ensures
      var c := InferFromPercent(percent, nobjects, nmiss, n50);
      && c.nmiss == nmiss
      && c.n100 >= 0
      && c.n300 + c.n100 + c.n50 + c.nmiss == nobjects
      && (c.n50 == n50 || (c.n100 == 0 && 0 <= c.n50 <= nobjects - nmiss))
  {
    NeededNonNegative(3.0, percent, nobjects, nmiss);
    NeededNonNegative(2.4, percent, nobjects, nmiss);
  }

  /** The best reachable accuracy over at least one object is the share of
      objects that are not misses, in percent. */
  lemma MaxAccuracyOf(nobjects: int, nmiss: int) returns (maxacc: real)
    requires nobjects > 0 && 0 <= nmiss <= nobjects
    ensures MaxAccuracy(nobjects, nmiss) == Ok(maxacc)
    ensures 0.0 <= maxacc && maxacc * nobjects as real == 100.0 * (nobjects - nmiss) as real
  {
    var max300 := nobjects - nmiss;
    var v := (max300 * 300) as real / (nobjects * 300) as real;
    assert Value(Counts(max300, 0, 0, nmiss), None) == Ok(v);
    maxacc := v * 100.0;
    assert v * (nobjects * 300) as real == (max300 * 300) as real;
  }

  /** Up to the best reachable percentage the inferred counts are never
      negative. */
  lemma NeededNonNegative(k: real, percent: real, nobjects: int, nmiss: int)
    requires k > 0.0 && nobjects > 0 && 0 <= nmiss <= nobjects
    requires 0.0 <= percent * nobjects as real <= 100.0 * (nobjects - nmiss) as real
    ensures Needed(k, percent, nobjects, nmiss) >= 0.0
    ensures Round(Needed(k, percent, nobjects, nmiss)) >= 0
  {
    var x := (percent * 0.01 - 1.0) * nobjects as real + nmiss as real;
    assert x == percent * nobjects as real * 0.01 - (nobjects - nmiss) as real;
    assert x <= 0.0;
    MulMono(k, x, 0.0);
  }

  /** The inference comes closest to the percentage: when the caller gave
      no 50s and the 100s suffice (no 50s are inferred), the accuracy of
      the inferred counts is within 1/(3 nobjects) of the (clamped)
      percentage; otherwise no 100s are inferred and the 50s come as close
      as 50s can (`FiftiesClose`). */
  lemma InferredIsClosest(values: AccuracyValues)
    requires values.percent.Some? && values.percent != Some(0.0)
    requires values.nobjects.Some? && values.nobjects.value > 0
    requires OrZero(values.nmiss) >= 0 && OrZero(values.n50) == 0
    ensures Inferred(values).Ok?
    ensures
      var nobjects := values.nobjects.value;
      var c := Inferred(values).value;
      var percent := ClampedPercent(values.percent.value, MaxAccuracy(nobjects, c.nmiss).value);
      && (c.n50 == 0 ==> CloseTo(c, percent, nobjects))
      && (c.n50 != 0 ==> c.n100 == 0 && FiftiesClose(c, percent, nobjects))
  {
    var nobjects := values.nobjects.value;
    var nmiss := MinInt(nobjects, OrZero(values.nmiss));
    var maxacc := MaxAccuracyOf(nobjects, nmiss);
    var percent := ClampedPercent(values.percent.value, maxacc);
    assert 0.0 <= percent * nobjects as real <= 100.0 * (nobjects - nmiss) as real by {
      ClampedPercentBound(values.percent.value, maxacc, nobjects, nmiss);
    }
    assert Inferred(values) == Ok(InferFromPercent(percent, nobjects, nmiss, 0));
    InferFromPercentIsClosest(percent, nobjects, nmiss);
  }

  /** The accuracy of `c` is within 1/(3 nobjects) of `percent`. */
  predicate CloseTo(c: Counts, percent: real, nobjects: int)
  {
    && Value(c, None).Ok?
    && -100.0 <= (Value(c, None).value - percent * 0.01) * (300 * nobjects) as real <= 100.0
  }

  /** The clamped percentage lies between 0 and the best reachable one. */
  lemma ClampedPercentBound(percent: real, maxacc: real, nobjects: int, nmiss: int)
    requires nobjects > 0 && maxacc >= 0.0 && maxacc * nobjects as real == 100.0 * (nobjects - nmiss) as real
    ensures 0.0 <= ClampedPercent(percent, maxacc) * nobjects as real <= 100.0 * (nobjects - nmiss) as real
  {
    var p := ClampedPercent(percent, maxacc);
    MulMono(nobjects as real, 0.0, p);
    MulMono(nobjects as real, p, maxacc);
  }

  /** `InferredIsClosest` for a clamped percentage. */
  lemma InferFromPercentIsClosest(percent: real, nobjects: int, nmiss: int)
    requires nobjects > 0 && 0 <= nmiss <= nobjects
    requires 0.0 <= percent * nobjects as real <= 100.0 * (nobjects - nmiss) as real
    ensures
      var c := InferFromPercent(percent, nobjects, nmiss, 0);
      && (c.n50 == 0 ==> CloseTo(c, percent, nobjects))
      && (c.n50 != 0 ==> c.n100 == 0 && FiftiesClose(c, percent, nobjects))
  {
    var needed := Needed(3.0, percent, nobjects, nmiss);
    NeededNonNegative(3.0, percent, nobjects, nmiss);
    if Round(needed) <= nobjects - nmiss {
      CloseRatio(nobjects, nmiss, Round(needed), percent);
    } else {
      FiftiesClosest(percent, nobjects, nmiss, 0);
    }
  }

  /** Below all-100s accuracy the constructor as written infers at least
      one 50, and in fact makes every non-missed object a 50, whatever the
      percentage: `Round(3 D)` is always past the cap. */
  lemma FiftiesBelowAllHundreds(percent: real, nobjects: int, nmiss: int, n50: int)
    requires nobjects > 0 && 0 <= nmiss <= nobjects && 0.0 <= percent * nobjects as real
    requires Round(Needed(3.0, percent, nobjects, nmiss)) > nobjects - nmiss
    ensures MinInt(nobjects - nmiss, Round(Needed(6.0, percent, nobjects, nmiss))) >= 1
    ensures Round(Needed(6.0, percent, nobjects, nmiss)) > nobjects - nmiss
    ensures InferFromPercentAsWritten(percent, nobjects, nmiss, n50) == Counts(0, 0, nobjects - nmiss, nmiss)
  {
    var needed := Needed(3.0, percent, nobjects, nmiss);
    assert needed <= 1.5 * (nobjects - nmiss) as real;
    assert Needed(6.0, percent, nobjects, nmiss) == 2.0 * needed;
  }

  /** 30% over 100 objects without misses: as written, all 100 objects
      become 50s, an accuracy of 1/6, although 16 300s and 84 50s give
      exactly 30%. */
  lemma AllFiftiesAtThirtyPercent()
    ensures InferFromPercentAsWritten(30.0, 100, 0, 0) == Counts(0, 0, 100, 0)
    ensures Value(Counts(0, 0, 100, 0), None) == Ok(1.0 / 6.0)
    ensures Value(Counts(16, 0, 84, 0), None) == Ok(0.3)
  {
    assert Needed(3.0, 30.0, 100, 0) == 105.0;
    assert Needed(6.0, 30.0, 100, 0) == 210.0;
  }

  /** The accuracy of `c` is within 1/(2.4 nobjects) of `percent`, or `c`
      makes every non-missed object a 50 and still lies above `percent`,
      which no count with these misses can come closer to. */
  predicate FiftiesClose(c: Counts, percent: real, nobjects: int)
  {
    && Value(c, None).Ok?
    && (|| -125.0 <= (Value(c, None).value - percent * 0.01) * (300 * nobjects) as real <= 125.0
        || (c.n300 == 0 && c.n100 == 0 && percent * 0.01 <= Value(c, None).value))
  }

  /** Below all-100s accuracy the inference makes no 100s and at least one
      50, and comes as close to the percentage as 50s can. */
  lemma FiftiesClosest(percent: real, nobjects: int, nmiss: int, n50: int)
    requires nobjects > 0 && 0 <= nmiss <= nobjects
    requires 0.0 <= percent * nobjects as real <= 100.0 * (nobjects - nmiss) as real
    requires Round(Needed(3.0, percent, nobjects, nmiss)) > nobjects - nmiss
    ensures var c := InferFromPercent(percent, nobjects, nmiss, n50);
      && c.n100 == 0 && 1 <= c.n50 <= nobjects - nmiss && c.nmiss == nmiss
      && FiftiesClose(c, percent, nobjects)
  {
    var n := MinInt(nobjects - nmiss, Round(Needed(2.4, percent, nobjects, nmiss)));
    FiftiesAtLeastOne(percent, nobjects, nmiss);
    assert InferFromPercent(percent, nobjects, nmiss, n50) == Counts(nobjects - n - nmiss, 0, n, nmiss);
    FiftiesRatio(nobjects, nmiss, n, percent);
  }

  /** Past the 100s cap, at least one 50 is needed and there is room for
      it. */
  lemma FiftiesAtLeastOne(percent: real, nobjects: int, nmiss: int)
    requires nobjects > 0 && 0 <= nmiss <= nobjects
    requires 0.0 <= percent * nobjects as real
    requires Round(Needed(3.0, percent, nobjects, nmiss)) > nobjects - nmiss
    ensures nobjects - nmiss >= 1 && Round(Needed(2.4, percent, nobjects, nmiss)) >= 1
  {
    var d := (nobjects - nmiss) as real - percent * nobjects as real * 0.01;
    assert Needed(3.0, percent, nobjects, nmiss) == 1.5 * d;
    assert Needed(2.4, percent, nobjects, nmiss) == 1.2 * d;
    assert d <= (nobjects - nmiss) as real;
  }

  /** `n` 50s, the rounded count capped at the non-missed objects, lie
      within 1/(2.4 nobjects) of the percentage, or above it when capped. */
  lemma FiftiesRatio(nobjects: int, nmiss: int, n: int, percent: real)
    requires nobjects > 0 && 0 <= nmiss && 0 <= n <= nobjects - nmiss
    requires n == MinInt(nobjects - nmiss, Round(Needed(2.4, percent, nobjects, nmiss)))
    ensures FiftiesClose(Counts(nobjects - n - nmiss, 0, n, nmiss), percent, nobjects)
  {
    var needed := Needed(2.4, percent, nobjects, nmiss);
    var v := FiftiesGap(nobjects, nmiss, n, percent);
    var den := (300 * nobjects) as real;
    if Round(needed) > nobjects - nmiss {
      assert (v - percent * 0.01) * den > 0.0;
      assert percent * 0.01 <= v by {
        if v < percent * 0.01 {
          MulMono(den, v, percent * 0.01);
        }
      }
    }
  }

  /** The accuracy `v` of no 100s and `n` 50s misses the percentage by 250
      times the gap between `n` and the unrounded count, per 300 objects. */
  lemma FiftiesGap(nobjects: int, nmiss: int, n: int, percent: real) returns (v: real)
    requires nobjects > 0 && 0 <= nmiss && 0 <= n <= nobjects - nmiss
    ensures Value(Counts(nobjects - n - nmiss, 0, n, nmiss), None) == Ok(v)
    ensures (v - percent * 0.01) * (300 * nobjects) as real
         == 250.0 * (Needed(2.4, percent, nobjects, nmiss) - n as real)
  {
    var c := Counts(nobjects - n - nmiss, 0, n, nmiss);
    var num := (c.n300 * 300 + c.n100 * 100 + c.n50 * 50) as real;
    var den := ((c.n300 + c.n100 + c.n50 + c.nmiss) * 300) as real;
    assert den == (300 * nobjects) as real;
    assert 0.0 <= num <= den;
    v := num / den;
    assert Value(c, None) == Ok(v);
    assert v * den == num;
    assert num - percent * 0.01 * den == 250.0 * (Needed(2.4, percent, nobjects, nmiss) - n as real);
    assert (v - percent * 0.01) * den == v * den - percent * 0.01 * den;
  }

  /** 30% over 100 objects without misses: 16 300s and 84 50s, exactly
      30%. */
  lemma CorrectedAtThirtyPercent()
    ensures Inferred(AccuracyValues(None, None, None, None, Some(30.0), Some(100))) == Ok(Counts(16, 0, 84, 0))
    ensures Value(Counts(16, 0, 84, 0), None) == Ok(0.3)
  {
    var maxacc := MaxAccuracyOf(100, 0);
    assert maxacc == 100.0;
    assert ClampedPercent(30.0, maxacc) == 30.0;
    assert Needed(3.0, 30.0, 100, 0) == 105.0;
    assert Needed(2.4, 30.0, 100, 0) == 84.0;
  }

  /** The arithmetic of `InferredIsClosest`: `n100` rounded from the 100s
      needed for `percent`, the rest 300s. */
  lemma CloseRatio(nobjects: int, nmiss: int, n100: int, percent: real)
    requires nobjects > 0 && 0 <= nmiss && 0 <= n100 <= nobjects - nmiss
    requires n100 == Round(Needed(3.0, percent, nobjects, nmiss))
    ensures CloseTo(Counts(nobjects - n100 - nmiss, n100, 0, nmiss), percent, nobjects)
  {
    var needed := Needed(3.0, percent, nobjects, nmiss);
    var c := Counts(nobjects - n100 - nmiss, n100, 0, nmiss);
    var num := (c.n300 * 300 + c.n100 * 100 + c.n50 * 50) as real;
    var den := ((c.n300 + c.n100 + c.n50 + c.nmiss) * 300) as real;
    assert den == (300 * nobjects) as real;
    assert 0.0 <= num <= den;
    var v := num / den;
    assert Value(c, None) == Ok(v);
    assert v * den == num;
    assert num - percent * 0.01 * den == 200.0 * (needed - n100 as real);
    assert (v - percent * 0.01) * den == v * den - percent * 0.01 * den;
  }
}

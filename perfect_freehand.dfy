/**
 * The bundled stroke library: it turns the pointer samples of a stroke into
 * sized stroke points (resolving or simulating pressure, sampling each
 * segment, dropping samples that crowd the previous one, optionally adding a
 * final cap), smooths them, and renders a stroke as an SVG path.
 *
 * Arithmetic is on exact reals. `Math.hypot` is the parameter `hypot`, of
 * which the model relies only on its never being negative, and the rendering of a
 * number inside a path is the parameter `show`.
 */
module Freehand {
  import opened Wrappers

  /** A pointer sample; a missing `pressure` is `None`. */
  datatype InputPoint = InputPoint(x: real, y: real, pressure: Option<real>)

  /** A sample with its pressure resolved (the `vector` the library also records is never read). */
  datatype Sample = Sample(x: real, y: real, pressure: real)

  datatype StrokePoint = StrokePoint(x: real, y: real, pressure: real, size: real)

  /** The `options` object; a missing property is `None`. */
  datatype StrokeOptions = StrokeOptions(
    size: Option<real>,
    thinning: Option<real>,
    smoothing: Option<real>,
    streamline: Option<real>,
    simulatePressure: Option<bool>,
    last: Option<bool>)

  datatype Settings = Settings(size: real, thinning: real, smoothing: real, streamline: real, simulatePressure: bool, last: bool)

  const NoOptions := StrokeOptions(None, None, None, None, None, None)

  /** The destructuring defaults: size 16, thinning, smoothing and streamline 0.5, simulated pressure, no cap. */
  function SettingsOf(o: StrokeOptions): (s: Settings)
    ensures o == NoOptions ==> s == Settings(16.0, 0.5, 0.5, 0.5, true, false)
    ensures GivenOr(o.size, 16.0, s.size) && GivenOr(o.thinning, 0.5, s.thinning)
    ensures GivenOr(o.smoothing, 0.5, s.smoothing) && GivenOr(o.streamline, 0.5, s.streamline)
    ensures GivenOr(o.simulatePressure, true, s.simulatePressure) && GivenOr(o.last, false, s.last)
  {
    Settings(o.size.GetOr(16.0), o.thinning.GetOr(0.5), o.smoothing.GetOr(0.5),
             o.streamline.GetOr(0.5), o.simulatePressure.GetOr(true), o.last.GetOr(false))
  }

  /** `Math.hypot` never returns a negative number. */
  ghost predicate IsHypot(hypot: (real, real) -> real) {
    forall dx, dy :: hypot(dx, dy) >= 0.0
  }

  function Min(a: real, b: real): real { if a <= b then a else b }
  function Max(a: real, b: real): real { if a >= b then a else b }

  /** `p || fallback` on a pressure: a missing or zero pressure is falsy. */
  function PressureOr(p: Option<real>, fallback: real): (r: real)
    ensures p.Some? && p.value != 0.0 ==> r == p.value
    ensures p.None? || p.value == 0.0 ==> r == fallback
  {
    if p.Some? && p.value != 0.0 then p.value else fallback
  }

  // ---- the pure helpers ----------------------------------------------------------

  /**
   * `getPressure(i, points)`: the span between the two neighbours, a tenth of
   * it clamped to [0.25, 1]; 0.5 when a neighbour is missing.
   */
  function GetPressure(i: int, points: seq<InputPoint>, hypot: (real, real) -> real): (p: real)
    ensures 1 <= i < |points| - 1 ==> 0.25 <= p <= 1.0
    ensures !(1 <= i < |points| - 1) ==> p == 0.5
  {
    if !(1 <= i < |points| - 1) then 0.5
    else
      var distance := hypot(points[i + 1].x - points[i - 1].x, points[i + 1].y - points[i - 1].y);
      Max(0.25, Min(distance / 10.0, 1.0))
  }

  /** `getStepSize(current, next)`: the reciprocal of one plus the distance, at most one half. */
  function GetStepSize(current: Sample, next: Sample, hypot: (real, real) -> real): (step: real)
    requires IsHypot(hypot)
    ensures 0.0 < step <= 0.5
  {
    var distance := hypot(next.x - current.x, next.y - current.y);
    Min(0.5, 1.0 / (distance + 1.0))
  }

  /** `interpolate(a, b, t)`: the point a fraction `t` of the way from `a` to `b`. */
  function Interpolate(a: Sample, b: Sample, t: real): (r: Sample)
    ensures t == 0.0 ==> r == a
    ensures t == 1.0 ==> r == b
  {
    Sample(a.x + (b.x - a.x) * t, a.y + (b.y - a.y) * t, a.pressure + (b.pressure - a.pressure) * t)
  }

  /** For `t` in [0, 1] the interpolated pressure lies between the two end pressures. */
  lemma InterpolatedPressureBetween(a: Sample, b: Sample, t: real)
    requires 0.0 <= t <= 1.0
    ensures Min(a.pressure, b.pressure) <= Interpolate(a, b, t).pressure <= Max(a.pressure, b.pressure)
  {
    ScaledBetween(b.pressure - a.pressure, t);
  }

  /** A fraction of `d` lies between 0 and `d`. */
  lemma ScaledBetween(d: real, t: real)
    requires 0.0 <= t <= 1.0
    ensures Min(0.0, d) <= d * t <= Max(0.0, d)
  {
    if d >= 0.0 {
      assert d * t - d == d * (t - 1.0);
      assert d * (t - 1.0) <= 0.0;
    } else {
      assert d * t - d == d * (t - 1.0);
      assert d * (t - 1.0) >= 0.0;
    }
  }

  /** `getStrokeSize(pressure, size, thinning)`: never below 0.5, and the full size at full pressure. */
  function GetStrokeSize(pressure: real, size: real, thinning: real): (r: real)
    ensures r >= 0.5
    ensures pressure == 1.0 ==> r == Max(0.5, size)
  {
    Max(0.5, size * (1.0 - thinning * (1.0 - pressure)))
  }

  /** With a non-negative size and thinning, more pressure never gives a thinner stroke. */
  lemma StrokeSizeMonotone(p: real, q: real, size: real, thinning: real)
    requires p <= q && size >= 0.0 && thinning >= 0.0
    ensures GetStrokeSize(p, size, thinning) <= GetStrokeSize(q, size, thinning)
  {
    assert thinning * (1.0 - p) >= thinning * (1.0 - q);
    assert size * (1.0 - thinning * (1.0 - p)) <= size * (1.0 - thinning * (1.0 - q));
  }

  // ---- getStroke ------------------------------------------------------------------

  /** The caller's array after `getStroke`: a lone point gets a copy whose pressure defaults to 0.5. */
  function Extended(points: seq<InputPoint>): (r: seq<InputPoint>)
    ensures |points| != 1 ==> r == points
    ensures |points| == 1 ==> |r| == 2 && r[0] == points[0]
    ensures |points| == 1 ==> r[1].x == points[0].x && r[1].y == points[0].y
    ensures |points| == 1 ==> r[1].pressure == Some(PressureOr(points[0].pressure, 0.5))
  {
    if |points| == 1 then points + [points[0].(pressure := Some(PressureOr(points[0].pressure, 0.5)))] else points
  }

  /**
   * The pressure of sample `i`: its own when truthy, otherwise a simulated one
   * for an interior point when simulation is on, otherwise 0.5.
   */
  function PressureAt(points: seq<InputPoint>, i: nat, simulate: bool, hypot: (real, real) -> real): (p: real)
    requires i < |points|
    ensures points[i].pressure.Some? && points[i].pressure.value != 0.0 ==> p == points[i].pressure.value
    ensures (points[i].pressure.None? || points[i].pressure.value == 0.0) ==>
      if simulate && 0 < i < |points| - 1 then 0.25 <= p <= 1.0 else p == 0.5
  {
    PressureOr(points[i].pressure, if simulate && i > 0 && i + 1 < |points| then GetPressure(i, points, hypot) else 0.5)
  }

  /** `points.map(...)`: the samples with their pressures resolved. */
  function Resolved(points: seq<InputPoint>, simulate: bool, hypot: (real, real) -> real): (pts: seq<Sample>)
    ensures |pts| == |points|
    ensures forall i :: 0 <= i < |points| ==>
      pts[i] == Sample(points[i].x, points[i].y, PressureAt(points, i, simulate, hypot))
  {
    seq(|points|, i requires 0 <= i < |points| => Sample(points[i].x, points[i].y, PressureAt(points, i, simulate, hypot)))
  }

  /** A sample with the stroke size its pressure gives. */
  function Sized(s: Sample, size: real, thinning: real): (p: StrokePoint)
    ensures p.x == s.x && p.y == s.y && p.pressure == s.pressure && p.size >= 0.5
  {
    StrokePoint(s.x, s.y, s.pressure, GetStrokeSize(s.pressure, size, thinning))
  }

  /** Every point's size is the one its pressure gives. */
  predicate SizedBy(stroke: seq<StrokePoint>, size: real, thinning: real) {
    forall j :: 0 <= j < |stroke| ==> stroke[j].size == GetStrokeSize(stroke[j].pressure, size, thinning)
  }

  /** No point lies closer than a quarter of its size to the point before it. */
  predicate Spaced(stroke: seq<StrokePoint>, hypot: (real, real) -> real) {
    forall j :: 0 < j < |stroke| ==>
      hypot(stroke[j].x - stroke[j - 1].x, stroke[j].y - stroke[j - 1].y) >= stroke[j].size / 4.0
  }

  /** Fewer than `1 / step` steps of length `step` reach below 1. */
  lemma BelowReciprocal(step: real, x: real)
    requires 0.0 < step && x * step < 1.0
    ensures x < 1.0 / step
  {
    var q := 1.0 / step;
    assert q * step == 1.0;
    assert (q - x) * step == 1.0 - x * step;
    assert q - x == (1.0 - x * step) / step;
  }

  /** `k` steps of length `step` stay below 1 only while `k` is below the number of steps. */
  lemma StepsBound(step: real, k: nat)
    requires 0.0 < step && k as real * step < 1.0
    ensures k < (1.0 / step).Floor + 1
  {
    BelowReciprocal(step, k as real);
  }

  /** Appending a point sized by its pressure, far enough from the last one, keeps both stroke properties. */
  lemma PushKeeps(stroke: seq<StrokePoint>, p: StrokePoint, size: real, thinning: real, hypot: (real, real) -> real)
    requires SizedBy(stroke, size, thinning) && Spaced(stroke, hypot)
    requires p.size == GetStrokeSize(p.pressure, size, thinning)
    requires stroke != [] ==>
      hypot(p.x - stroke[|stroke| - 1].x, p.y - stroke[|stroke| - 1].y) >= p.size / 4.0
    ensures SizedBy(stroke + [p], size, thinning) && Spaced(stroke + [p], hypot)
  {
    var s := stroke + [p];
    forall j | 0 < j < |s|
      ensures hypot(s[j].x - s[j - 1].x, s[j].y - s[j - 1].y) >= s[j].size / 4.0
    {
      if j < |stroke| {
        assert s[j] == stroke[j] && s[j - 1] == stroke[j - 1];
      }
    }
  }

  /**
   * One segment of the sampling loop: from `point` towards `next` in steps of
   * `getStepSize`, each sample is pushed unless it lies closer to the last
   * stroke point than a quarter of its size. The first sample of an empty
   * stroke always survives.
   */
  method SampleSegment(point: Sample, next: Sample, size: real, thinning: real, hypot: (real, real) -> real,
                       stroke: seq<StrokePoint>)
    returns (out: seq<StrokePoint>)
    requires IsHypot(hypot)
    requires SizedBy(stroke, size, thinning) && Spaced(stroke, hypot)
    ensures SizedBy(out, size, thinning) && Spaced(out, hypot)
    ensures stroke != [] ==> out != [] && out[0] == stroke[0]
    ensures stroke == [] ==> out != [] && out[0] == Sized(point, size, thinning)
  {
    out := stroke;
    var step := Min(GetStepSize(point, next, hypot), 1.0);
    var t := 0.0;
    var k: nat := 0;
    while t < 1.0
      invariant t == k as real * step
      invariant k == 0 ==> out == stroke
      invariant stroke != [] ==> out != [] && out[0] == stroke[0]
      invariant stroke == [] && k > 0 ==> out != [] && out[0] == Sized(point, size, thinning)
      invariant SizedBy(out, size, thinning) && Spaced(out, hypot)
      decreases (1.0 / step).Floor + 1 - k
    {
      StepsBound(step, k);
      var currentPoint := Interpolate(point, next, t);
      var adjustedSize := GetStrokeSize(currentPoint.pressure, size, thinning);
      var skip := false;
      if out != [] {
        var prevPoint := out[|out| - 1];
        var distance := hypot(currentPoint.x - prevPoint.x, currentPoint.y - prevPoint.y);
        skip := distance < adjustedSize / 4.0;
      }
      if !skip {
        var p := StrokePoint(currentPoint.x, currentPoint.y, currentPoint.pressure, adjustedSize);
        PushKeeps(out, p, size, thinning, hypot);
        out := out + [p];
      }
      t := t + step;
      k := k + 1;
    }
  }

  /**
   * The sampling loop of `getStroke`: every segment between consecutive
   * samples is sampled in turn. The result begins with the first sample, every
   * size is the one its pressure gives, and no point crowds the one before.
   */
  method SampleStroke(pts: seq<Sample>, size: real, thinning: real, hypot: (real, real) -> real)
    returns (stroke: seq<StrokePoint>)
    requires IsHypot(hypot)
    ensures |pts| < 2 ==> stroke == []
    ensures |pts| >= 2 ==> stroke != [] && stroke[0] == Sized(pts[0], size, thinning)
    ensures SizedBy(stroke, size, thinning)
    ensures Spaced(stroke, hypot)
  {
    stroke := [];
    var i := 0;
    while i < |pts| - 1
      invariant 0 <= i <= if |pts| == 0 then 0 else |pts| - 1
      invariant i == 0 ==> stroke == []
      invariant i > 0 ==> stroke != [] && stroke[0] == Sized(pts[0], size, thinning)
      invariant SizedBy(stroke, size, thinning)
      invariant Spaced(stroke, hypot)
    {
      stroke := SampleSegment(pts[i], pts[i + 1], size, thinning, hypot, stroke);
      i := i + 1;
    }
  }

  /** The final cap `getStroke` adds when `last` is set: the last sample, sized by its own pressure. */
  function Cap(pts: seq<Sample>, size: real, thinning: real): (p: StrokePoint)
    requires pts != []
    ensures p.x == pts[|pts| - 1].x && p.y == pts[|pts| - 1].y && p.pressure == pts[|pts| - 1].pressure
    ensures p.size == GetStrokeSize(p.pressure, size, thinning)
  {
    Sized(pts[|pts| - 1], size, thinning)
  }

  /**
   * `getStroke(points, options)`. `callerPoints` is the caller's array after
   * the call: a lone point is extended in place with a copy of itself.
   */
  method GetStroke(points: seq<InputPoint>, options: StrokeOptions, hypot: (real, real) -> real)
    returns (stroke: seq<StrokePoint>, callerPoints: seq<InputPoint>)
    requires IsHypot(hypot)
    ensures callerPoints == Extended(points)
    ensures points == [] ==> stroke == []
    ensures points != [] ==> stroke != [] && stroke[0].x == points[0].x && stroke[0].y == points[0].y
    ensures points != [] ==>
      stroke[0].pressure == PressureAt(callerPoints, 0, SettingsOf(options).simulatePressure, hypot)
    ensures SizedBy(stroke, SettingsOf(options).size, SettingsOf(options).thinning)
    ensures points != [] && SettingsOf(options).last ==>
      stroke[|stroke| - 1] == Cap(Resolved(callerPoints, SettingsOf(options).simulatePressure, hypot),
                                  SettingsOf(options).size, SettingsOf(options).thinning)
  {
    var o := SettingsOf(options);
    callerPoints := points;
    if |points| == 0 {
      return [], callerPoints;
    }
    if |points| == 1 {
      callerPoints := points + [points[0].(pressure := Some(PressureOr(points[0].pressure, 0.5)))];
    }
    var pts := Resolved(callerPoints, o.simulatePressure, hypot);
    var raw := SampleStroke(pts, o.size, o.thinning, hypot);
    if o.last && |pts| > 1 {
      raw := raw + [Cap(pts, o.size, o.thinning)];
    }
    if |raw| > 1 {
      stroke := SmoothStroke(raw, o.smoothing, o.streamline);
      SmoothingKeepsSizes(raw, stroke, o.size, o.thinning);
    } else {
      stroke := raw;
    }
  }

  // ---- smoothStroke ---------------------------------------------------------------

  /**
   * `smoothStroke(points, smoothing, streamline)`: fewer than three points
   * come back unchanged; otherwise the ends stay and every interior point
   * moves to the mean of itself and its neighbours, keeping its pressure and
   * size. `smoothing` and `streamline` are accepted and not used.
   */
  method SmoothStroke(points: seq<StrokePoint>, smoothing: real, streamline: real) returns (smoothed: seq<StrokePoint>)
    ensures |points| < 3 ==> smoothed == points
    ensures |smoothed| == |points|
    ensures |points| > 0 ==> smoothed[0] == points[0] && smoothed[|points| - 1] == points[|points| - 1]
    ensures forall i :: 0 < i < |points| - 1 ==> smoothed[i] == Averaged(points, i)
  {
    if |points| < 3 {
      return points;
    }
    smoothed := [points[0]];
    for i := 1 to |points| - 1
      invariant |smoothed| == i && smoothed[0] == points[0]
      invariant forall j :: 0 < j < i ==> smoothed[j] == Averaged(points, j)
    {
      var prev, current, next := points[i - 1], points[i], points[i + 1];
      var smoothedPoint := StrokePoint((prev.x + current.x + next.x) / 3.0, (prev.y + current.y + next.y) / 3.0,
                                       current.pressure, current.size);
      assert smoothedPoint == Averaged(points, i);
      smoothed := smoothed + [smoothedPoint];
    }
    smoothed := smoothed + [points[|points| - 1]];
  }

  /** Interior point `i` moved to the mean of itself and its neighbours, keeping its pressure and size. */
  function Averaged(points: seq<StrokePoint>, i: nat): (p: StrokePoint)
    requires 0 < i < |points| - 1
    ensures p.x == (points[i - 1].x + points[i].x + points[i + 1].x) / 3.0
    ensures p.y == (points[i - 1].y + points[i].y + points[i + 1].y) / 3.0
    ensures p.pressure == points[i].pressure && p.size == points[i].size
  {
    var prev, current, next := points[i - 1], points[i], points[i + 1];
    StrokePoint((prev.x + current.x + next.x) / 3.0, (prev.y + current.y + next.y) / 3.0, current.pressure, current.size)
  }

  /** Smoothing keeps every pressure and size, so it keeps `SizedBy`. */
  lemma SmoothingKeepsSizes(points: seq<StrokePoint>, smoothed: seq<StrokePoint>, size: real, thinning: real)
    requires |smoothed| == |points| && SizedBy(points, size, thinning)
    requires |points| > 0 ==> smoothed[0] == points[0] && smoothed[|points| - 1] == points[|points| - 1]
    requires forall i :: 0 < i < |points| - 1 ==> smoothed[i] == Averaged(points, i)
    ensures SizedBy(smoothed, size, thinning)
  {
    forall j | 0 <= j < |smoothed|
      ensures smoothed[j].size == GetStrokeSize(smoothed[j].pressure, size, thinning)
    {
      if 0 < j < |points| - 1 {
        assert smoothed[j] == Averaged(points, j);
      }
    }
  }

  /** A smoothed interior point lies, in each coordinate, between the smallest and largest of its three inputs. */
  lemma SmoothedBetween(points: seq<StrokePoint>, i: nat)
    requires 0 < i < |points| - 1
    ensures var p := Averaged(points, i);
      && Min(points[i - 1].x, Min(points[i].x, points[i + 1].x)) <= p.x <= Max(points[i - 1].x, Max(points[i].x, points[i + 1].x))
      && Min(points[i - 1].y, Min(points[i].y, points[i + 1].y)) <= p.y <= Max(points[i - 1].y, Max(points[i].y, points[i + 1].y))
  {
  }

  // ---- strokeToSVG ----------------------------------------------------------------

  /** `${cmd} ${point.x} ${point.y}`. */
  function Command(cmd: char, p: StrokePoint, show: real -> string): string {
    [cmd] + " " + show(p.x) + " " + show(p.y)
  }

  /** The path commands: `M` for the first point, `L` for every other. */
  function Commands(stroke: seq<StrokePoint>, show: real -> string): (cs: seq<string>)
    ensures |cs| == |stroke|
    ensures forall i :: 0 <= i < |stroke| ==> cs[i] == Command(if i == 0 then 'M' else 'L', stroke[i], show)
  {
    seq(|stroke|, i requires 0 <= i < |stroke| => Command(if i == 0 then 'M' else 'L', stroke[i], show))
  }

  /** `Array.prototype.join(sep)`. */
  function Join(parts: seq<string>, sep: string): string
    decreases |parts|
  {
    if parts == [] then ""
    else if |parts| == 1 then parts[0]
    else parts[0] + sep + Join(parts[1..], sep)
  }

  /** ` L x y` for each point, in order. */
  function LineTos(ps: seq<StrokePoint>, show: real -> string): string
    decreases |ps|
  {
    if ps == [] then "" else " " + Command('L', ps[0], show) + LineTos(ps[1..], show)
  }

  /** `strokeToSVG(stroke)`: empty for an empty stroke, else a move to the first point and a line to each later one. */
  function StrokeToSVG(stroke: seq<StrokePoint>, show: real -> string): (d: string)
    ensures stroke == [] <==> d == ""
    ensures stroke != [] ==> d == Command('M', stroke[0], show) + LineTos(stroke[1..], show)
  {
    if stroke == [] then ""
    else
      JoinLines(Command('M', stroke[0], show), stroke[1..], show);
      assert Commands(stroke, show) == [Command('M', stroke[0], show)] + LineCommands(stroke[1..], show);
      Join(Commands(stroke, show), " ")
  }

  function LineCommands(ps: seq<StrokePoint>, show: real -> string): (cs: seq<string>)
    ensures |cs| == |ps|
    ensures forall i :: 0 <= i < |ps| ==> cs[i] == Command('L', ps[i], show)
  {
    seq(|ps|, i requires 0 <= i < |ps| => Command('L', ps[i], show))
  }

  /** Joining a first command and the line commands with spaces gives the first command then ` L x y` per point. */
  lemma {:induction false} JoinLines(first: string, ps: seq<StrokePoint>, show: real -> string)
    ensures Join([first] + LineCommands(ps, show), " ") == first + LineTos(ps, show)
    decreases |ps|
  {
    if ps != [] {
      var c := Command('L', ps[0], show);
      JoinLines(c, ps[1..], show);
      assert ([first] + LineCommands(ps, show))[1..] == [c] + LineCommands(ps[1..], show);
    }
  }

  /** Appending a point appends one ` L x y` to the path. */
  lemma StrokeToSVGSnoc(stroke: seq<StrokePoint>, p: StrokePoint, show: real -> string)
    requires stroke != []
    ensures StrokeToSVG(stroke + [p], show) == StrokeToSVG(stroke, show) + " " + Command('L', p, show)
  {
    var s := stroke + [p];
    LineTosSnoc(stroke[1..], p, show);
    assert s[0] == stroke[0] && s[1..] == stroke[1..] + [p];
    calc {
      StrokeToSVG(s, show);
      Command('M', stroke[0], show) + LineTos(stroke[1..] + [p], show);
      Command('M', stroke[0], show) + (LineTos(stroke[1..], show) + " " + Command('L', p, show));
      { var m, ls, l := Command('M', stroke[0], show), LineTos(stroke[1..], show), " " + Command('L', p, show);
        assert m + (ls + l) == (m + ls) + l; }
      StrokeToSVG(stroke, show) + " " + Command('L', p, show);
    }
  }

  lemma {:induction false} LineTosSnoc(ps: seq<StrokePoint>, p: StrokePoint, show: real -> string)
    ensures LineTos(ps + [p], show) == LineTos(ps, show) + " " + Command('L', p, show)
    decreases |ps|
  {
    if ps == [] {
      assert [p][1..] == [];
    } else {
      LineTosSnoc(ps[1..], p, show);
      assert (ps + [p])[1..] == ps[1..] + [p];
    }
  }
}

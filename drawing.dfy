/**
 * The note canvas: a pen-only input state machine that keeps a window of the
 * last three pointer positions and paints a dot when a stroke opens and a
 * straight or curved segment on every move. Coordinates arrive already in
 * canvas space; what the canvas does with the marks is not modelled, only
 * which marks are painted, in which order, with which width and colour.
 */
module Drawing {
  import opened Wrappers
  import opened JsStrings

  datatype Point = Point(x: real, y: real)

  /** The point halfway between `a` and `b`. */
  function Mid(a: Point, b: Point): (m: Point)
    ensures m.x - a.x == b.x - m.x && m.y - a.y == b.y - m.y
  {
    Point((a.x + b.x) / 2.0, (a.y + b.y) / 2.0)
  }

  /** What one drawing call puts on the canvas. `None` widths and radii are `NaN`. */
  datatype Mark =
    | Dot(center: Point, radius: Option<real>, fill: string)
    | Straight(from: Point, to: Point, width: Option<int>, style: string)
    | Curve(from: Point, control: Point, to: Point, width: Option<int>, style: string)
    | Cleared

  /** The parts of the 2D context the class sets, and the marks painted so far. */
  datatype Context = Context(lineWidth: Option<int>, strokeStyle: string, fillStyle: string, painted: seq<Mark>)

  // ---- the three-point window --------------------------------------------------

  /** The last `n` elements of `s` (all of them when there are fewer). */
  function LastN<T>(s: seq<T>, n: nat): (r: seq<T>)
    ensures |r| == if |s| < n then |s| else n
    ensures r == s[|s| - |r|..]
  {
    if |s| <= n then s else s[|s| - n..]
  }

  /** `points.push(p); if (points.length > 3) points.shift();` */
  function PushWindow(w: seq<Point>, p: Point): (r: seq<Point>)
    ensures |w| <= 3 ==> r == LastN(w + [p], 3)
    ensures |w| <= 3 ==> |r| <= 3 && r[|r| - 1] == p
  {
    var q := w + [p];
    if |q| > 3 then q[1..] else q
  }

  /** The window after pushing each point of `ps` in turn. */
  function PushAll(w: seq<Point>, ps: seq<Point>): seq<Point>
    decreases |ps|
  {
    if ps == [] then w else PushAll(PushWindow(w, ps[0]), ps[1..])
  }

  /** Keeping the last `n` before appending loses nothing that the last `n` after appending keeps. */
  lemma LastNAppend<T>(s: seq<T>, t: seq<T>, n: nat)
    ensures LastN(LastN(s, n) + t, n) == LastN(s + t, n)
  {
    var a := LastN(s, n);
    if |a| < n {
      assert a == s;
    } else {
      var u, v := a + t, s + t;
      assert u == v[|s| - |a|..];
      assert LastN(u, n) == u[|u| - n..] == v[|v| - n..];
    }
  }

  /** First in, first out: after any number of pushes the window holds the last three points. */
  lemma {:induction false} PushAllKeepsLastThree(w: seq<Point>, ps: seq<Point>)
    requires |w| <= 3
    ensures PushAll(w, ps) == LastN(w + ps, 3)
    decreases |ps|
  {
    if ps == [] {
      assert w + ps == w;
    } else {
      var p, rest := ps[0], ps[1..];
      var w' := PushWindow(w, p);
      PushAllKeepsLastThree(w', rest);
      PushThenLastThree(w, p, rest);
      assert [p] + rest == ps;
    }
  }

  /** One push, then the last three of the rest: the last three of everything. */
  lemma PushThenLastThree(w: seq<Point>, p: Point, rest: seq<Point>)
    requires |w| <= 3
    ensures LastN(PushWindow(w, p) + rest, 3) == LastN(w + ([p] + rest), 3)
  {
    LastNAppend(w + [p], rest, 3);
    assert (w + [p]) + rest == w + ([p] + rest);
  }

  // ---- the pointer state machine --------------------------------------------------

  /** `isDrawing`, `usingPencil` and `points`. */
  datatype PenState = PenState(isDrawing: bool, usingPencil: bool, points: seq<Point>)

  const Idle := PenState(false, false, [])

  /** The states the handlers can reach from `Idle`. */
  predicate PenValid(s: PenState) {
    && s.isDrawing == s.usingPencil
    && |s.points| <= 3
    && (s.isDrawing <==> s.points != [])
  }

  /** `pointerdown`, `pointermove`, and `pointerup`/`pointercancel`, which share one handler body. */
  datatype PointerKind = Down | Move | Release

  datatype PointerEvent = PointerEvent(kind: PointerKind, pointerType: string, at: Point)

  /**
   * The effect of one event on the pen state: only a pen opens a stroke; a
   * move of any pointer type extends an open stroke; a release while the pen
   * is in use closes it.
   */
  function Step(s: PenState, e: PointerEvent): PenState {
    match e.kind
    case Down => if e.pointerType == "pen" then PenState(true, true, [e.at]) else s
    case Move => if s.isDrawing && s.usingPencil then s.(points := PushWindow(s.points, e.at)) else s
    case Release => if s.usingPencil then PenState(false, false, if s.isDrawing then [] else s.points) else s
  }

  /** The pen state after a sequence of events. */
  function Run(s: PenState, events: seq<PointerEvent>): PenState
    decreases |events|
  {
    if events == [] then s else Run(Step(s, events[0]), events[1..])
  }

  lemma StepKeepsValid(s: PenState, e: PointerEvent)
    requires PenValid(s)
    ensures PenValid(Step(s, e))
  {
  }

  /** Every event sequence keeps the flags equal and the window at most three points long. */
  lemma {:induction false} RunKeepsValid(s: PenState, events: seq<PointerEvent>)
    requires PenValid(s)
    ensures PenValid(Run(s, events))
    decreases |events|
  {
    if events != [] {
      StepKeepsValid(s, events[0]);
      RunKeepsValid(Step(s, events[0]), events[1..]);
    }
  }

  predicate IsPenDown(e: PointerEvent) {
    e.kind == Down && e.pointerType == "pen"
  }

  /** Without a pen `pointerdown`, an idle canvas stays idle: no stroke opens and no point is recorded. */
  lemma {:induction false} NoPenDownStaysIdle(events: seq<PointerEvent>)
    requires forall i :: 0 <= i < |events| ==> !IsPenDown(events[i])
    ensures Run(Idle, events) == Idle
    decreases |events|
  {
    if events != [] {
      assert Step(Idle, events[0]) == Idle;
      NoPenDownStaysIdle(events[1..]);
    }
  }

  /** A release while the pen is in use always leaves the canvas idle. */
  lemma ReleaseEndsStroke(s: PenState, e: PointerEvent)
    requires PenValid(s) && s.usingPencil && e.kind == Release
    ensures Step(s, e) == Idle
  {
  }

  /** Moves during a stroke keep exactly the last three positions, whatever the pointer type. */
  lemma {:induction false} MovesKeepLastThree(s: PenState, events: seq<PointerEvent>)
    requires PenValid(s) && s.isDrawing
    requires forall i :: 0 <= i < |events| ==> events[i].kind == Move
    ensures Run(s, events) == s.(points := LastN(s.points + Positions(events), 3))
    decreases |events|
  {
    PushAllKeepsLastThree(s.points, Positions(events));
    MovesPush(s, events);
  }

  /** The positions of a sequence of events. */
  function Positions(events: seq<PointerEvent>): (ps: seq<Point>)
    ensures |ps| == |events|
    ensures forall i :: 0 <= i < |events| ==> ps[i] == events[i].at
  {
    seq(|events|, i requires 0 <= i < |events| => events[i].at)
  }

  lemma {:induction false} MovesPush(s: PenState, events: seq<PointerEvent>)
    requires s.isDrawing && s.usingPencil
    requires forall i :: 0 <= i < |events| ==> events[i].kind == Move
    ensures Run(s, events) == s.(points := PushAll(s.points, Positions(events)))
    decreases |events|
  {
    if events != [] {
      var s' := Step(s, events[0]);
      MovesPush(s', events[1..]);
      assert Positions(events)[1..] == Positions(events[1..]);
    }
  }

  // ---- the canvas object ---------------------------------------------------------

  /** `brushSize * k`, with `NaN` staying `NaN`. */
  function Scaled(size: Option<int>, k: int): Option<int> {
    match size
    case Some(n) => Some(n * k)
    case None => None
  }

  /** The colour the current tool paints with: white for the eraser. */
  function Ink(tool: string, color: string): string {
    if tool == "eraser" then "white" else color
  }

  /** The segment `drawSmoothLine` strokes through the window: a line for two points, else a curve to the midpoint. */
  function Segment(points: seq<Point>, width: Option<int>, style: string): (m: Mark)
    requires |points| >= 2
    ensures |points| == 2 ==> m.Straight? && m.from == points[0] && m.to == points[1]
    ensures |points| > 2 ==> m.Curve? && m.from == points[0] && m.control == points[1]
    ensures |points| > 2 ==> m.to.x - points[1].x == points[2].x - m.to.x && m.to.y - points[1].y == points[2].y - m.to.y
  {
    if |points| == 2 then Straight(points[0], points[1], width, style)
    else Curve(points[0], points[1], Mid(points[1], points[2]), width, style)
  }

  class DrawingCanvas {
    var currentTool: string
    var currentColor: string
    var brushSize: Option<int>
    var isDrawing: bool
    var usingPencil: bool
    var lastX: real
    var lastY: real
    var points: seq<Point>
    var ctx: Context

    function Pen(): PenState
      reads this
    {
      PenState(isDrawing, usingPencil, points)
    }

    predicate Valid()
      reads this
    {
      PenValid(Pen())
    }

    /** A pen tool in black, size 4, nothing being drawn. */
    constructor ()
      ensures Valid() && Pen() == Idle
      ensures currentTool == "pen" && currentColor == "#000000" && brushSize == Some(4)
      ensures lastX == 0.0 && lastY == 0.0
      ensures ctx == Context(Some(4), "#000000", "white", [Cleared])
    {
      currentTool := "pen";
      currentColor := "#000000";
      brushSize := Some(4);
      isDrawing := false;
      usingPencil := false;
      lastX := 0.0;
      lastY := 0.0;
      points := [];
      ctx := Context(Some(4), "#000000", "white", [Cleared]);
    }

    /** The `pointerdown` handler: only a pen starts drawing. */
    method PointerDown(pointerType: string, at: Point)
      requires Valid()
      modifies this
      ensures Valid()
      ensures Pen() == Step(old(Pen()), PointerEvent(Down, pointerType, at))
      ensures pointerType != "pen" ==> unchanged(this)
      ensures pointerType == "pen" ==>
        && lastX == at.x && lastY == at.y
        && ctx == old(ctx).(fillStyle := Ink(currentTool, currentColor),
                            painted := old(ctx.painted) + [Dot(at, HalfSize(brushSize), Ink(currentTool, currentColor))])
      ensures currentTool == old(currentTool) && currentColor == old(currentColor) && brushSize == old(brushSize)
    {
      if pointerType == "pen" {
        usingPencil := true;
        StartDrawing(at);
      }
    }

    /** `brushSize / 2`. */
    static function HalfSize(size: Option<int>): Option<real> {
      match size
      case Some(n) => Some(n as real / 2.0)
      case None => None
    }

    /** `startDrawing`: the window restarts at `at`, and a dot of half the brush size is painted there. */
    method StartDrawing(at: Point)
      modifies this
      ensures isDrawing && usingPencil == old(usingPencil) && points == [at]
      ensures lastX == at.x && lastY == at.y
      ensures ctx == old(ctx).(fillStyle := Ink(currentTool, currentColor),
                               painted := old(ctx.painted) + [Dot(at, HalfSize(brushSize), Ink(currentTool, currentColor))])
      ensures currentTool == old(currentTool) && currentColor == old(currentColor) && brushSize == old(brushSize)
    {
      isDrawing := true;
      points := [at];
      lastX := at.x;
      lastY := at.y;
      var fill := Ink(currentTool, currentColor);
      ctx := ctx.(fillStyle := fill, painted := ctx.painted + [Dot(at, HalfSize(brushSize), fill)]);
    }

    /** The `pointermove` handler: any pointer type extends an open pen stroke. */
    method PointerMove(pointerType: string, at: Point)
      requires Valid()
      modifies this
      ensures Valid()
      ensures Pen() == Step(old(Pen()), PointerEvent(Move, pointerType, at))
      ensures !old(isDrawing && usingPencil) ==> unchanged(this)
      ensures old(isDrawing && usingPencil) ==>
        && lastX == at.x && lastY == at.y
        && ctx == old(ctx).(lineWidth := if currentTool == "eraser" then Scaled(brushSize, 3) else brushSize,
                            strokeStyle := Ink(currentTool, currentColor),
                            painted := old(ctx.painted) + [Segment(points, ctx.lineWidth, ctx.strokeStyle)])
      ensures currentTool == old(currentTool) && currentColor == old(currentColor) && brushSize == old(brushSize)
    {
      if isDrawing && usingPencil {
        Draw(at);
      }
    }

    /**
     * `draw`: while a pen stroke is open, `at` enters the three-point window
     * and the newest segment is painted.
     */
    method Draw(at: Point)
      requires Valid()
      modifies this
      ensures Valid()
      ensures !old(isDrawing && usingPencil) ==> unchanged(this)
      ensures old(isDrawing && usingPencil) ==>
        && isDrawing && usingPencil
        && points == PushWindow(old(points), at)
        && lastX == at.x && lastY == at.y
        && ctx == old(ctx).(lineWidth := if currentTool == "eraser" then Scaled(brushSize, 3) else brushSize,
                            strokeStyle := Ink(currentTool, currentColor),
                            painted := old(ctx.painted) + [Segment(points, ctx.lineWidth, ctx.strokeStyle)])
      ensures currentTool == old(currentTool) && currentColor == old(currentColor) && brushSize == old(brushSize)
    {
      if !isDrawing || !usingPencil {
        return;
      }
      points := points + [at];
      if |points| > 3 {
        points := points[1..];
      }
      DrawSmoothLine();
    }

    /**
     * `drawSmoothLine`: with fewer than two points nothing happens; otherwise
     * the width (three times the brush for the eraser) and colour are set, the
     * segment through the window is painted and the newest point becomes the
     * last position.
     */
    method DrawSmoothLine()
      modifies this
      ensures Pen() == old(Pen())
      ensures |old(points)| < 2 ==> unchanged(this)
      ensures |old(points)| >= 2 ==>
        && lastX == points[|points| - 1].x && lastY == points[|points| - 1].y
        && ctx.lineWidth == (if currentTool == "eraser" then Scaled(brushSize, 3) else brushSize)
        && ctx.strokeStyle == Ink(currentTool, currentColor)
        && ctx == old(ctx).(lineWidth := ctx.lineWidth, strokeStyle := ctx.strokeStyle,
                            painted := old(ctx.painted) + [Segment(points, ctx.lineWidth, ctx.strokeStyle)])
      ensures currentTool == old(currentTool) && currentColor == old(currentColor) && brushSize == old(brushSize)
    {
      if |points| < 2 {
        return;
      }
      var width := if currentTool == "eraser" then Scaled(brushSize, 3) else brushSize;
      var style := Ink(currentTool, currentColor);
      ctx := ctx.(lineWidth := width, strokeStyle := style, painted := ctx.painted + [Segment(points, width, style)]);
      lastX := points[|points| - 1].x;
      lastY := points[|points| - 1].y;
    }

    /** The `pointerup` and `pointercancel` handler: a pen in use stops drawing and is released. */
    method PointerRelease(pointerType: string, at: Point)
      requires Valid()
      modifies this
      ensures Valid()
      ensures Pen() == Step(old(Pen()), PointerEvent(Release, pointerType, at))
      ensures old(usingPencil) ==> Pen() == Idle
      ensures !old(usingPencil) ==> unchanged(this)
      ensures currentTool == old(currentTool) && currentColor == old(currentColor) && brushSize == old(brushSize)
      ensures lastX == old(lastX) && lastY == old(lastY) && ctx == old(ctx)
    {
      if usingPencil {
        StopDrawing();
        usingPencil := false;
      }
    }

    /** `stopDrawing`: an open stroke closes and its window empties. */
    method StopDrawing()
      modifies this
      ensures !isDrawing && usingPencil == old(usingPencil)
      ensures points == if old(isDrawing) then [] else old(points)
      ensures currentTool == old(currentTool) && currentColor == old(currentColor) && brushSize == old(brushSize)
      ensures lastX == old(lastX) && lastY == old(lastY) && ctx == old(ctx)
    {
      if isDrawing {
        isDrawing := false;
        points := [];
      }
    }

    /** `clearCanvas`: the canvas is painted white. */
    method ClearCanvas()
      modifies this
      ensures ctx == old(ctx).(fillStyle := "white", painted := old(ctx.painted) + [Cleared])
      ensures Pen() == old(Pen()) && lastX == old(lastX) && lastY == old(lastY)
      ensures currentTool == old(currentTool) && currentColor == old(currentColor) && brushSize == old(brushSize)
    {
      ctx := ctx.(fillStyle := "white", painted := ctx.painted + [Cleared]);
    }

    /** `setTool`: only the tool changes. */
    method SetTool(tool: string)
      modifies this
      ensures currentTool == tool
      ensures currentColor == old(currentColor) && brushSize == old(brushSize)
      ensures Pen() == old(Pen()) && lastX == old(lastX) && lastY == old(lastY) && ctx == old(ctx)
    {
      currentTool := tool;
    }

    /** `setColor`: the colour and the context's stroke colour change. */
    method SetColor(color: string)
      modifies this
      ensures currentColor == color && ctx == old(ctx).(strokeStyle := color)
      ensures currentTool == old(currentTool) && brushSize == old(brushSize)
      ensures Pen() == old(Pen()) && lastX == old(lastX) && lastY == old(lastY)
    {
      currentColor := color;
      ctx := ctx.(strokeStyle := color);
    }

    /** `setBrushSize(size)`: the size becomes `parseInt(size)`, which may be `NaN`. */
    method SetBrushSize(size: string)
      modifies this
      ensures brushSize == ParseInt(size)
      ensures currentTool == old(currentTool) && currentColor == old(currentColor)
      ensures Pen() == old(Pen()) && lastX == old(lastX) && lastY == old(lastY) && ctx == old(ctx)
    {
      brushSize := ParseInt(size);
    }
  }
}

/** One run of the tactical map's drawing effect.  Each animation frame
    repaints the canvas in a fixed layer order (clear, background, grid,
    terrain, route, radar); the only state carried from frame to frame is
    the radar angle, kept here as a count of fixed 0.02-radian steps.
    Canvas calls are abstract draw commands. */
module TacticalMap {
  import opened Wrappers
  import opened Types

  const GRID_STEP: nat := 40
  const GRID_LABEL_EVERY: nat := 80
  /** Radians added to the radar angle in each frame that draws the radar. */
  const RADAR_STEP: real := 0.02
  const LABEL_DX: real := 10.0
  const LABEL_DY: real := 4.0

  datatype Point = Point(x: real, y: real)

  datatype RingColor = Red | Yellow

  datatype DrawCmd =
    | ClearSurface(w: real, h: real)
    | FillBackground(w: real, h: real)
    | VerticalLine(x: nat)          // from (x, 0) to (x, height)
    | CoordinateText(x: nat)        // the text `${x}` at (x + 2, 10)
    | HorizontalLine(y: nat)        // from (0, y) to (width, y)
    | TerrainContours               // the two decorative bezier curves
    | BeginDashedPath
    | MoveTo(p: Point)
    | LineTo(p: Point)
    | StrokePath
    | Dot(p: Point)                 // the black waypoint dot
    | Ring(p: Point, color: RingColor)
    | LabelText(text: string, at: Point)
    | RadarSweep(angleSteps: nat)   // gradient wedge and sweep line at the given angle

  datatype Layer = Clearing | Background | Grid | Terrain | Route | Radar

  function LayerRank(l: Layer): nat {
    match l
    case Clearing => 0
    case Background => 1
    case Grid => 2
    case Terrain => 3
    case Route => 4
    case Radar => 5
  }

  function LayerOf(c: DrawCmd): Layer {
    match c
    case ClearSurface(_, _) => Clearing
    case FillBackground(_, _) => Background
    case VerticalLine(_) => Grid
    case CoordinateText(_) => Grid
    case HorizontalLine(_) => Grid
    case TerrainContours => Terrain
    case RadarSweep(_) => Radar
    case _ => Route
  }

  ghost predicate AllIn(cmds: seq<DrawCmd>, l: Layer) {
    forall i :: 0 <= i < |cmds| ==> LayerOf(cmds[i]) == l
  }

  ghost predicate LayersOrdered(cmds: seq<DrawCmd>) {
    forall i, j :: 0 <= i < j < |cmds| ==> LayerRank(LayerOf(cmds[i])) <= LayerRank(LayerOf(cmds[j]))
  }

  // ---------------------------------------------------------------- scaling

  /** `(value / 100) * size`: a 0-100 map coordinate in pixels. */
  function Scale(value: real, size: real): (p: real)
    ensures value == 0.0 ==> p == 0.0
    ensures value == 100.0 ==> p == size
  {
    value / 100.0 * size
  }

  lemma ScaleMonotone(a: real, b: real, size: real)
    requires a <= b && 0.0 <= size
    ensures Scale(a, size) <= Scale(b, size)
  {
    var d := (b - a) / 100.0;
    assert d >= 0.0;
    assert d * size >= 0.0;
    assert Scale(b, size) - Scale(a, size) == d * size;
  }

  function ScalePoint(wp: Waypoint, width: real, height: real): Point {
    Point(Scale(wp.x, width), Scale(wp.y, height))
  }

  // ---------------------------------------------------------------- radar

  /** `drawRadar` returns early when not scanning and a route exists. */
  predicate RadarVisible(waypoints: seq<Waypoint>, scanning: bool)
    ensures RadarVisible(waypoints, scanning) <==> scanning || waypoints == []
  {
    !(!scanning && |waypoints| > 0)
  }

  /** The radar layer: one sweep when visible, nothing otherwise. */
  function RadarLayer(waypoints: seq<Waypoint>, scanning: bool, steps: nat): (r: seq<DrawCmd>)
    ensures |r| <= 1 && AllIn(r, Radar)
    ensures r != [] <==> RadarVisible(waypoints, scanning)
  {
    if RadarVisible(waypoints, scanning) then [RadarSweep(steps)] else []
  }

  /** The radar counter after one frame: it advances by one exactly when
      the sweep was drawn. */
  function NextRadarSteps(waypoints: seq<Waypoint>, scanning: bool, steps: nat): (r: nat)
    ensures r == steps + |RadarLayer(waypoints, scanning, steps)|
  {
    if RadarVisible(waypoints, scanning) then steps + 1 else steps
  }

  /** The radar counter after `frames` frames of one effect run, which starts at 0. */
  function RadarStepsAfter(waypoints: seq<Waypoint>, scanning: bool, frames: nat): nat {
    if frames == 0 then 0
    else NextRadarSteps(waypoints, scanning, RadarStepsAfter(waypoints, scanning, frames - 1))
  }

  /** The radar advances in every frame or in none. */
  lemma {:induction false} RadarAdvancesEveryFrameOrNever(waypoints: seq<Waypoint>, scanning: bool, frames: nat)
    ensures RadarStepsAfter(waypoints, scanning, frames) ==
            (if RadarVisible(waypoints, scanning) then frames else 0)
  {
    if frames > 0 {
      RadarAdvancesEveryFrameOrNever(waypoints, scanning, frames - 1);
    }
  }

  /** The component's default props, `waypoints = []` and `scanning = true`. */
  lemma DefaultPropsShowRadar(steps: nat)
    ensures RadarLayer([], true, steps) == [RadarSweep(steps)]
  {
  }

  // ---------------------------------------------------------------- grid

  /** Vertical lines from `x` onwards, 40 px apart, while `x <= width`;
      each one whose x is a multiple of 80 also gets its coordinate text. */
  function VerticalPass(x: nat, width: real): (r: seq<DrawCmd>)
    ensures AllIn(r, Grid)
    decreases width.Floor - x
  {
    if x as real <= width then
      [VerticalLine(x)] + (if x % GRID_LABEL_EVERY == 0 then [CoordinateText(x)] else [])
      + VerticalPass(x + GRID_STEP, width)
    else []
  }

  /** Horizontal lines from `y` onwards, 40 px apart, while `y <= height`. */
  function HorizontalPass(y: nat, height: real): (r: seq<DrawCmd>)
    ensures AllIn(r, Grid)
    ensures forall i :: 0 <= i < |r| ==> r[i].HorizontalLine?
    decreases height.Floor - y
  {
    if y as real <= height then [HorizontalLine(y)] + HorizontalPass(y + GRID_STEP, height)
    else []
  }

  function GridCommands(width: real, height: real): (r: seq<DrawCmd>)
    ensures AllIn(r, Grid)
  {
    var v := VerticalPass(0, width);
    var h := HorizontalPass(0, height);
    assert forall i :: |v| <= i < |v + h| ==> (v + h)[i] == h[i - |v|];
    v + h
  }

  lemma {:induction false} VerticalPassContents(x: nat, width: real, v: nat)
    ensures VerticalLine(v) in VerticalPass(x, width) <==>
            x <= v && (v - x) % GRID_STEP == 0 && v as real <= width
    ensures CoordinateText(v) in VerticalPass(x, width) <==>
            x <= v && (v - x) % GRID_STEP == 0 && v as real <= width && v % GRID_LABEL_EVERY == 0
    ensures forall c :: c in VerticalPass(x, width) ==> !c.HorizontalLine?
    decreases width.Floor - x
  {
    if x as real <= width {
      VerticalPassContents(x + GRID_STEP, width, v);
      if x < v && (v - x) % GRID_STEP == 0 {
        assert (v - (x + GRID_STEP)) % GRID_STEP == 0;
        assert x + GRID_STEP <= v;
      }
    }
  }

  lemma {:induction false} HorizontalPassContents(y: nat, height: real, v: nat)
    ensures HorizontalLine(v) in HorizontalPass(y, height) <==>
            y <= v && (v - y) % GRID_STEP == 0 && v as real <= height
    decreases height.Floor - y
  {
    if y as real <= height {
      HorizontalPassContents(y + GRID_STEP, height, v);
      if y < v && (v - y) % GRID_STEP == 0 {
        assert (v - (y + GRID_STEP)) % GRID_STEP == 0;
        assert y + GRID_STEP <= v;
      }
    }
  }

  /** Grid lines sit at every multiple of 40 up to the surface size; the
      coordinate text appears exactly on the vertical lines at multiples of 80. */
  lemma GridLinePositions(width: real, height: real, v: nat)
    ensures VerticalLine(v) in GridCommands(width, height) <==> v % 40 == 0 && v as real <= width
    ensures HorizontalLine(v) in GridCommands(width, height) <==> v % 40 == 0 && v as real <= height
    ensures CoordinateText(v) in GridCommands(width, height) <==>
            VerticalLine(v) in GridCommands(width, height) && v % 80 == 0
  {
    VerticalPassContents(0, width, v);
    HorizontalPassContents(0, height, v);
  }

  /** `drawGrid`: the two `for` loops. */
  method DrawGrid(width: real, height: real) returns (cmds: seq<DrawCmd>)
    ensures cmds == GridCommands(width, height)
  {
    cmds := [];
    var x: nat := 0;
    while x as real <= width
      invariant cmds + VerticalPass(x, width) == VerticalPass(0, width)
      decreases width.Floor - x
    {
      cmds := cmds + [VerticalLine(x)];
      if x % GRID_LABEL_EVERY == 0 {
        cmds := cmds + [CoordinateText(x)];
      }
      x := x + GRID_STEP;
    }
    var y: nat := 0;
    while y as real <= height
      invariant cmds + HorizontalPass(y, height) == GridCommands(width, height)
      decreases height.Floor - y
    {
      cmds := cmds + [HorizontalLine(y)];
      y := y + GRID_STEP;
    }
  }

  // ---------------------------------------------------------------- route

  /** The ring of the first and of the last waypoint is red, every other one yellow. */
  function RingColorAt(index: nat, count: nat): (c: RingColor)
    ensures c == Red <==> index == 0 || index == count - 1
  {
    if index == 0 || index == count - 1 then Red else Yellow
  }

  lemma SinglePointRouteIsRed()
    ensures RingColorAt(0, 1) == Red
  {
  }

  /** JavaScript truthiness of an optional label: present and non-empty. */
  predicate HasVisibleLabel(wp: Waypoint) {
    wp.labelText.Some? && wp.labelText.value != ""
  }

  function LabelAnchor(p: Point): Point {
    Point(p.x + LABEL_DX, p.y + LABEL_DY)
  }

  function PathStep(waypoints: seq<Waypoint>, i: nat, width: real, height: real): DrawCmd
    requires i < |waypoints|
  {
    var p := ScalePoint(waypoints[i], width, height);
    if i == 0 then MoveTo(p) else LineTo(p)
  }

  /** The path commands for the first `n` waypoints. */
  function PathCommands(waypoints: seq<Waypoint>, n: nat, width: real, height: real): seq<DrawCmd>
    requires n <= |waypoints|
  {
    if n == 0 then [] else PathCommands(waypoints, n - 1, width, height) + [PathStep(waypoints, n - 1, width, height)]
  }

  /** The dot, the ring and (if truthy) the label of waypoint `i`. */
  function MarkerCommands(waypoints: seq<Waypoint>, i: nat, width: real, height: real): (r: seq<DrawCmd>)
    requires i < |waypoints|
    ensures |r| == (if HasVisibleLabel(waypoints[i]) then 3 else 2)
    ensures var p := ScalePoint(waypoints[i], width, height);
      r[0] == Dot(p) && r[1] == Ring(p, RingColorAt(i, |waypoints|))
  {
    var wp := waypoints[i];
    var p := ScalePoint(wp, width, height);
    [Dot(p), Ring(p, RingColorAt(i, |waypoints|))]
    + (if HasVisibleLabel(wp) then [LabelText(wp.labelText.value, LabelAnchor(p))] else [])
  }

  /** The marker commands for the first `n` waypoints. */
  function Markers(waypoints: seq<Waypoint>, n: nat, width: real, height: real): seq<DrawCmd>
    requires n <= |waypoints|
  {
    if n == 0 then [] else Markers(waypoints, n - 1, width, height) + MarkerCommands(waypoints, n - 1, width, height)
  }

  /** `drawRoute`: nothing for an empty list, otherwise the dashed path
      followed by the markers. */
  function RouteCommands(waypoints: seq<Waypoint>, width: real, height: real): (r: seq<DrawCmd>)
    ensures r == [] <==> waypoints == []
    ensures waypoints != [] ==> r[0] == BeginDashedPath
  {
    if |waypoints| == 0 then []
    else [BeginDashedPath] + PathCommands(waypoints, |waypoints|, width, height) + [StrokePath]
         + Markers(waypoints, |waypoints|, width, height)
  }

  /** The dashed path visits the waypoints in order: one move-to at the
      first, then a line-to to each of the others. */
  lemma {:induction false} PathShape(waypoints: seq<Waypoint>, n: nat, width: real, height: real)
    requires n <= |waypoints|
    ensures |PathCommands(waypoints, n, width, height)| == n
    ensures forall i :: 0 <= i < n ==> PathCommands(waypoints, n, width, height)[i] == PathStep(waypoints, i, width, height)
  {
    if n > 0 {
      PathShape(waypoints, n - 1, width, height);
    }
  }

  /** The label of one waypoint: drawn exactly when its label is truthy. */
  lemma MarkerLabel(waypoints: seq<Waypoint>, i: nat, width: real, height: real, text: string, at: Point)
    requires i < |waypoints|
    ensures LabelText(text, at) in MarkerCommands(waypoints, i, width, height) <==>
      HasVisibleLabel(waypoints[i]) && waypoints[i].labelText.value == text &&
      at == LabelAnchor(ScalePoint(waypoints[i], width, height))
  {
    var wp := waypoints[i];
    var p := ScalePoint(wp, width, height);
    var m := MarkerCommands(waypoints, i, width, height);
    if HasVisibleLabel(wp) {
      assert m == [Dot(p), Ring(p, RingColorAt(i, |waypoints|)), LabelText(wp.labelText.value, LabelAnchor(p))];
    } else {
      assert m == [Dot(p), Ring(p, RingColorAt(i, |waypoints|))];
    }
  }

  /** A label is drawn exactly for the waypoints whose label is truthy, at
      an offset of (+10, +4) from the waypoint. */
  lemma {:induction false} LabelsDrawn(waypoints: seq<Waypoint>, n: nat, width: real, height: real, text: string, at: Point)
    requires n <= |waypoints|
    ensures LabelText(text, at) in Markers(waypoints, n, width, height) <==>
      exists i :: 0 <= i < n && LabelledAt(waypoints, i, width, height, text, at)
  {
    if n > 0 {
      LabelsDrawn(waypoints, n - 1, width, height, text, at);
      MarkerLabel(waypoints, n - 1, width, height, text, at);
      var before := Markers(waypoints, n - 1, width, height);
      var last := MarkerCommands(waypoints, n - 1, width, height);
      assert Markers(waypoints, n, width, height) == before + last;
      if LabelText(text, at) in before + last {
        if LabelText(text, at) in before {
          var i :| 0 <= i < n - 1 && LabelledAt(waypoints, i, width, height, text, at);
        } else {
          assert LabelledAt(waypoints, n - 1, width, height, text, at);
        }
      }
      if exists i :: 0 <= i < n && LabelledAt(waypoints, i, width, height, text, at) {
        var i :| 0 <= i < n && LabelledAt(waypoints, i, width, height, text, at);
        if i < n - 1 {
          assert LabelText(text, at) in before;
        } else {
          assert LabelText(text, at) in last;
        }
      }
    }
  }

  /** Waypoint `i` carries the label `text`, to be drawn at `at`. */
  predicate LabelledAt(waypoints: seq<Waypoint>, i: nat, width: real, height: real, text: string, at: Point)
    requires i < |waypoints|
  {
    HasVisibleLabel(waypoints[i]) && waypoints[i].labelText.value == text &&
    at == LabelAnchor(ScalePoint(waypoints[i], width, height))
  }

  /** Waypoint `i` is ringed at `at` in colour `color`. */
  predicate RingedAt(waypoints: seq<Waypoint>, i: nat, width: real, height: real, at: Point, color: RingColor)
    requires i < |waypoints|
  {
    at == ScalePoint(waypoints[i], width, height) && color == RingColorAt(i, |waypoints|)
  }

  /** The ring of one waypoint: at its scaled point, in its colour. */
  lemma MarkerRing(waypoints: seq<Waypoint>, i: nat, width: real, height: real, at: Point, color: RingColor)
    requires i < |waypoints|
    ensures Ring(at, color) in MarkerCommands(waypoints, i, width, height) <==>
      RingedAt(waypoints, i, width, height, at, color)
  {
    var m := MarkerCommands(waypoints, i, width, height);
    if Ring(at, color) in m {
      var k :| 0 <= k < |m| && m[k] == Ring(at, color);
      assert k == 1;
    }
  }

  /** A ring is drawn at a point in a colour exactly when some waypoint
      sits at that point and that colour is its ring colour: red for the
      first and the last waypoint, yellow for the others. */
  lemma {:induction false} RingsDrawn(waypoints: seq<Waypoint>, n: nat, width: real, height: real, at: Point, color: RingColor)
    requires n <= |waypoints|
    ensures Ring(at, color) in Markers(waypoints, n, width, height) <==>
      exists i :: 0 <= i < n && RingedAt(waypoints, i, width, height, at, color)
  {
    if n > 0 {
      RingsDrawn(waypoints, n - 1, width, height, at, color);
      MarkerRing(waypoints, n - 1, width, height, at, color);
      var before := Markers(waypoints, n - 1, width, height);
      var last := MarkerCommands(waypoints, n - 1, width, height);
      assert Markers(waypoints, n, width, height) == before + last;
      if Ring(at, color) in before + last {
        if Ring(at, color) in before {
          var i :| 0 <= i < n - 1 && RingedAt(waypoints, i, width, height, at, color);
        } else {
          assert RingedAt(waypoints, n - 1, width, height, at, color);
        }
      }
      if exists i :: 0 <= i < n && RingedAt(waypoints, i, width, height, at, color) {
        var i :| 0 <= i < n && RingedAt(waypoints, i, width, height, at, color);
        if i < n - 1 {
          assert Ring(at, color) in before;
        } else {
          assert Ring(at, color) in last;
        }
      }
    }
  }

  /** The same holds for the whole route layer, as the path draws no rings. */
  lemma RouteRings(waypoints: seq<Waypoint>, width: real, height: real, at: Point, color: RingColor)
    ensures Ring(at, color) in RouteCommands(waypoints, width, height) <==>
      exists i :: 0 <= i < |waypoints| && RingedAt(waypoints, i, width, height, at, color)
  {
    var n := |waypoints|;
    RingsDrawn(waypoints, n, width, height, at, color);
    if n > 0 {
      var path := PathCommands(waypoints, n, width, height);
      var m := Markers(waypoints, n, width, height);
      PathShape(waypoints, n, width, height);
      forall k | 0 <= k < |path|
        ensures path[k] != Ring(at, color)
      {
        assert path[k] == PathStep(waypoints, k, width, height);
      }
      assert RouteCommands(waypoints, width, height) == [BeginDashedPath] + path + [StrokePath] + m;
    }
  }

  /** A label is drawn anywhere in the route exactly when some waypoint
      has that truthy label at that anchor, as the path draws no text. */
  lemma RouteLabels(waypoints: seq<Waypoint>, width: real, height: real, text: string, at: Point)
    ensures LabelText(text, at) in RouteCommands(waypoints, width, height) <==>
      exists i :: 0 <= i < |waypoints| && LabelledAt(waypoints, i, width, height, text, at)
  {
    var n := |waypoints|;
    LabelsDrawn(waypoints, n, width, height, text, at);
    if n > 0 {
      var path := PathCommands(waypoints, n, width, height);
      var m := Markers(waypoints, n, width, height);
      PathShape(waypoints, n, width, height);
      forall k | 0 <= k < |path|
        ensures path[k] != LabelText(text, at)
      {
        assert path[k] == PathStep(waypoints, k, width, height);
      }
      assert RouteCommands(waypoints, width, height) == [BeginDashedPath] + path + [StrokePath] + m;
    }
  }

  lemma {:induction false} RouteLayerOnly(waypoints: seq<Waypoint>, n: nat, width: real, height: real)
    requires n <= |waypoints|
    ensures AllIn(PathCommands(waypoints, n, width, height), Route)
    ensures AllIn(Markers(waypoints, n, width, height), Route)
  {
    if n > 0 {
      RouteLayerOnly(waypoints, n - 1, width, height);
    }
  }

  /** Every command of the route layer belongs to it. */
  lemma RouteInRouteLayer(waypoints: seq<Waypoint>, width: real, height: real)
    ensures AllIn(RouteCommands(waypoints, width, height), Route)
  {
    RouteLayerOnly(waypoints, |waypoints|, width, height);
  }

  /** Where the path and the stroke sit in a non-empty route. */
  lemma RouteLayout(waypoints: seq<Waypoint>, width: real, height: real)
    requires waypoints != []
    ensures var r := RouteCommands(waypoints, width, height);
      var path := PathCommands(waypoints, |waypoints|, width, height);
      |r| > |path| + 1 && r[0] == BeginDashedPath && r[|path| + 1] == StrokePath &&
      forall i :: 0 <= i < |path| ==> r[i + 1] == path[i]
  {
    var n := |waypoints|;
    var path := PathCommands(waypoints, n, width, height);
    var m := Markers(waypoints, n, width, height);
    assert |MarkerCommands(waypoints, n - 1, width, height)| >= 2;
    var r := RouteCommands(waypoints, width, height);
    assert r == [BeginDashedPath] + path + ([StrokePath] + m);
  }

  /** An empty waypoint list draws no route; otherwise the route layer
      opens the dashed path, strokes it after the last line-to, and draws
      the markers afterwards. */
  lemma RouteShape(waypoints: seq<Waypoint>, width: real, height: real)
    ensures waypoints == [] ==> RouteCommands(waypoints, width, height) == []
    ensures waypoints != [] ==>
      var r := RouteCommands(waypoints, width, height);
      var n := |waypoints|;
      |r| > n + 1 && r[0] == BeginDashedPath && r[1] == MoveTo(ScalePoint(waypoints[0], width, height)) &&
      r[n + 1] == StrokePath &&
      forall i :: 1 <= i < n ==> r[i + 1] == LineTo(ScalePoint(waypoints[i], width, height))
    ensures AllIn(RouteCommands(waypoints, width, height), Route)
  {
    RouteInRouteLayer(waypoints, width, height);
    if waypoints != [] {
      var n := |waypoints|;
      PathShape(waypoints, n, width, height);
      RouteLayout(waypoints, width, height);
      var r := RouteCommands(waypoints, width, height);
      assert r[1] == PathStep(waypoints, 0, width, height);
      forall i | 1 <= i < n
        ensures r[i + 1] == LineTo(ScalePoint(waypoints[i], width, height))
      {
        assert r[i + 1] == PathStep(waypoints, i, width, height);
      }
    }
  }

  /** `drawRoute`: an early return for an empty list, then the two `forEach` loops. */
  method DrawRoute(waypoints: seq<Waypoint>, width: real, height: real) returns (cmds: seq<DrawCmd>)
    ensures cmds == RouteCommands(waypoints, width, height)
  {
    if |waypoints| == 0 {
      return [];
    }
    var path := DrawPath(waypoints, width, height);
    var markers := DrawMarkers(waypoints, width, height);
    cmds := [BeginDashedPath] + path + [StrokePath] + markers;
  }

  /** The first `forEach`: a move-to at the first waypoint, a line-to at each later one. */
  method DrawPath(waypoints: seq<Waypoint>, width: real, height: real) returns (cmds: seq<DrawCmd>)
    ensures cmds == PathCommands(waypoints, |waypoints|, width, height)
  {
    cmds := [];
    var i := 0;
    while i < |waypoints|
      invariant 0 <= i <= |waypoints|
      invariant cmds == PathCommands(waypoints, i, width, height)
    {
      var p := ScalePoint(waypoints[i], width, height);
      if i == 0 {
        cmds := cmds + [MoveTo(p)];
      } else {
        cmds := cmds + [LineTo(p)];
      }
      i := i + 1;
    }
  }

  /** The second `forEach`: the dot, the ring and the label of each waypoint. */
  method DrawMarkers(waypoints: seq<Waypoint>, width: real, height: real) returns (cmds: seq<DrawCmd>)
    ensures cmds == Markers(waypoints, |waypoints|, width, height)
  {
    cmds := [];
    var i := 0;
    while i < |waypoints|
      invariant 0 <= i <= |waypoints|
      invariant cmds == Markers(waypoints, i, width, height)
    {
      var wp := waypoints[i];
      var p := ScalePoint(wp, width, height);
      var marker := [Dot(p)];
      var color := if i == 0 || i == |waypoints| - 1 then Red else Yellow;
      marker := marker + [Ring(p, color)];
      if wp.labelText.Some? && wp.labelText.value != "" {
        marker := marker + [LabelText(wp.labelText.value, Point(p.x + LABEL_DX, p.y + LABEL_DY))];
      }
      assert marker == MarkerCommands(waypoints, i, width, height);
      cmds := cmds + marker;
      i := i + 1;
    }
  }

  // ---------------------------------------------------------------- frame

  /** Everything one call of `render` draws, given the radar counter at its start. */
  function Frame(waypoints: seq<Waypoint>, scanning: bool, width: real, height: real, steps: nat): (r: seq<DrawCmd>)
    ensures |Backdrop(width, height)| <= |r| && r[..|Backdrop(width, height)|] == Backdrop(width, height)
    ensures |r| == |Backdrop(width, height)| + |RouteCommands(waypoints, width, height)|
                   + (if RadarVisible(waypoints, scanning) then 1 else 0)
  {
    Backdrop(width, height)
    + RouteCommands(waypoints, width, height)
    + RadarLayer(waypoints, scanning, steps)
  }

  /** The part of a frame that does not depend on the props: clear, fill, grid, terrain. */
  function Backdrop(width: real, height: real): seq<DrawCmd> {
    [ClearSurface(width, height), FillBackground(width, height)]
    + GridCommands(width, height)
    + [TerrainContours]
  }

  ghost predicate AtMost(cmds: seq<DrawCmd>, l: Layer) {
    forall i :: 0 <= i < |cmds| ==> LayerRank(LayerOf(cmds[i])) <= LayerRank(l)
  }

  /** Appending a block of one layer keeps the order when no earlier
      command belongs to a later layer. */
  lemma OrderedJoin(a: seq<DrawCmd>, b: seq<DrawCmd>, la: Layer, lb: Layer)
    requires LayersOrdered(a) && AtMost(a, la)
    requires AllIn(b, lb) && LayerRank(la) <= LayerRank(lb)
    ensures LayersOrdered(a + b) && AtMost(a + b, lb)
  {
    var ab := a + b;
    forall i, j | 0 <= i < j < |ab|
      ensures LayerRank(LayerOf(ab[i])) <= LayerRank(LayerOf(ab[j]))
    {
      if j < |a| {
        assert ab[i] == a[i] && ab[j] == a[j];
      } else if i < |a| {
        assert ab[i] == a[i] && ab[j] == b[j - |a|];
      } else {
        assert ab[i] == b[i - |a|] && ab[j] == b[j - |a|];
      }
    }
    forall i | 0 <= i < |ab|
      ensures LayerRank(LayerOf(ab[i])) <= LayerRank(lb)
    {
      if i < |a| {
        assert ab[i] == a[i];
      } else {
        assert ab[i] == b[i - |a|];
      }
    }
  }

  /** The backdrop starts with clear and fill and stays below the route layer. */
  lemma BackdropOrdered(width: real, height: real)
    ensures var d := Backdrop(width, height);
      |d| >= 3 && d[0] == ClearSurface(width, height) && d[1] == FillBackground(width, height) &&
      LayersOrdered(d) && AtMost(d, Terrain)
  {
    var s0 := [ClearSurface(width, height), FillBackground(width, height)];
    assert LayersOrdered(s0) && AtMost(s0, Background);
    OrderedJoin(s0, GridCommands(width, height), Background, Grid);
    OrderedJoin(s0 + GridCommands(width, height), [TerrainContours], Grid, Terrain);
  }

  /** Each frame clears the surface, fills the background, and then draws
      grid, terrain, route and radar, never going back to an earlier layer. */
  lemma FrameLayerOrder(waypoints: seq<Waypoint>, scanning: bool, width: real, height: real, steps: nat)
    ensures var f := Frame(waypoints, scanning, width, height, steps);
      |f| >= 3 && f[0] == ClearSurface(width, height) && f[1] == FillBackground(width, height) &&
      LayersOrdered(f)
  {
    var d := Backdrop(width, height);
    var rt := RouteCommands(waypoints, width, height);
    BackdropOrdered(width, height);
    RouteShape(waypoints, width, height);
    OrderedJoin(d, rt, Terrain, Route);
    OrderedJoin(d + rt, RadarLayer(waypoints, scanning, steps), Route, Radar);
    var f := Frame(waypoints, scanning, width, height, steps);
    assert f[0] == d[0] && f[1] == d[1];
  }

  /** The radar is in the frame exactly when it is visible, and then it is
      the frame's last command. */
  lemma FrameRadar(waypoints: seq<Waypoint>, scanning: bool, width: real, height: real, steps: nat)
    ensures var f := Frame(waypoints, scanning, width, height, steps);
      && ((exists i :: 0 <= i < |f| && LayerOf(f[i]) == Radar) <==> RadarVisible(waypoints, scanning))
      && (RadarVisible(waypoints, scanning) ==> f[|f| - 1] == RadarSweep(steps))
  {
    var before := Backdrop(width, height) + RouteCommands(waypoints, width, height);
    BackdropOrdered(width, height);
    RouteInRouteLayer(waypoints, width, height);
    OrderedJoin(Backdrop(width, height), RouteCommands(waypoints, width, height), Terrain, Route);
    assert AtMost(before, Route);
    var f := Frame(waypoints, scanning, width, height, steps);
    assert f == before + RadarLayer(waypoints, scanning, steps);
    if RadarVisible(waypoints, scanning) {
      assert LayerOf(f[|f| - 1]) == Radar;
    } else {
      assert f == before;
    }
  }

  /** One run of the drawing effect: the props and the canvas size are fixed
      for the run, and the radar counter starts at 0. */
  class MapEffect {
    const waypoints: seq<Waypoint>
    const scanning: bool
    const width: real
    const height: real
    var radarSteps: nat

    constructor (waypoints: seq<Waypoint>, scanning: bool, width: real, height: real)
      ensures this.waypoints == waypoints && this.scanning == scanning
      ensures this.width == width && this.height == height
      ensures radarSteps == 0
    {
      this.waypoints := waypoints;
      this.scanning := scanning;
      this.width := width;
      this.height := height;
      radarSteps := 0;
    }

    /** `radarAngle` in radians. */
    function RadarAngle(): real
      reads this
    {
      radarSteps as real * RADAR_STEP
    }

    /** `render`: one full frame; the radar angle advances by one step
        only if the sweep was drawn. */
    method Render() returns (cmds: seq<DrawCmd>)
      modifies this
      ensures cmds == Frame(waypoints, scanning, width, height, old(radarSteps))
      ensures radarSteps == NextRadarSteps(waypoints, scanning, old(radarSteps))
      ensures RadarAngle() == old(RadarAngle()) + (if RadarVisible(waypoints, scanning) then RADAR_STEP else 0.0)
    {
      cmds := [ClearSurface(width, height), FillBackground(width, height)];
      var grid := DrawGrid(width, height);
      cmds := cmds + grid + [TerrainContours];
      var route := DrawRoute(waypoints, width, height);
      cmds := cmds + route;
      if !(!scanning && |waypoints| > 0) {
        cmds := cmds + [RadarSweep(radarSteps)];
        radarSteps := radarSteps + 1;
      }
    }

    /** The first `frames` frames of the run, each one rescheduling the next. */
    method Animate(frames: nat) returns (shown: seq<seq<DrawCmd>>)
      requires radarSteps == 0
      modifies this
      ensures |shown| == frames
      ensures forall k :: 0 <= k < frames ==> shown[k] == FrameAt(k)
      ensures radarSteps == RadarStepsAfter(waypoints, scanning, frames)
    {
      shown := [];
      for k := 0 to frames
        invariant |shown| == k
        invariant radarSteps == RadarStepsAfter(waypoints, scanning, k)
        invariant forall j :: 0 <= j < k ==> shown[j] == FrameAt(j)
      {
        var cmds := Render();
        assert cmds == FrameAt(k);
        assert radarSteps == RadarStepsAfter(waypoints, scanning, k + 1);
        shown := shown + [cmds];
      }
    }

    /** The frame drawn `k` frames into the run. */
    function FrameAt(k: nat): seq<DrawCmd> {
      Frame(waypoints, scanning, width, height, RadarStepsAfter(waypoints, scanning, k))
    }
  }
}

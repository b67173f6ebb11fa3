/**
 * How `populate_footprint_shapes` in `src/easyeda/footprint.rs` turns a
 * path into KiCad shapes: a list of sub-paths is taken one sub-path at a
 * time; a path of circles and rectangles gives one shape per command; a
 * move followed by a line gives a line; a move followed by an arc gives an
 * arc; any other path gives one polygon through its points.
 *
 * The container the shapes are added to (`PrimitivesContainer`, a
 * footprint or a pad's custom primitives) is a class whose five lists the
 * `add_*` methods append to. The arc geometry (`get_arc_center` and
 * `interpolate_arc_points`) and the cosine and sine of a rectangle's
 * rotation are trigonometry on `f32`; they are parameters here.
 */
module EasyedaShapes {
  import opened Wrappers
  import opened JsonReader
  import opened EasyedaCommon
  import opened EasyedaPaths
  import opened PcbLayers
  import Numbers
  import Scalars
  import FootprintRectangles

  // ---------------------------------------------------------------------
  // Shapes and the container they are added to
  // ---------------------------------------------------------------------

  datatype CircleShape = CircleShape(center: Point2D, end: Point2D, layer: PcbLayer, width: real, fill: bool)
  datatype RectangleShape = RectangleShape(start: Point2D, end: Point2D, layer: PcbLayer, width: real, fill: bool)
  datatype LineShape = LineShape(start: Point2D, end: Point2D, layer: PcbLayer, width: real)
  datatype PolygonShape = PolygonShape(points: seq<Point2D>, layer: PcbLayer, width: real, fill: bool)
  datatype ArcShape = ArcShape(start: Point2D, mid: Point2D, end: Point2D, layer: PcbLayer, width: real)

  /** The five lists of a container, or the shapes one call adds to them. */
  datatype Shapes = Shapes(circles: seq<CircleShape>, rectangles: seq<RectangleShape>, lines: seq<LineShape>,
                           polygons: seq<PolygonShape>, arcs: seq<ArcShape>)

  const NoShapes := Shapes([], [], [], [], [])

  /** The first shapes, then the second, list by list. */
  function Join(a: Shapes, b: Shapes): Shapes
  {
    Shapes(a.circles + b.circles, a.rectangles + b.rectangles, a.lines + b.lines, a.polygons + b.polygons,
           a.arcs + b.arcs)
  }

  /** How many shapes there are in all five lists. */
  function Count(s: Shapes): nat
  {
    |s.circles| + |s.rectangles| + |s.lines| + |s.polygons| + |s.arcs|
  }

  lemma JoinNothing(a: Shapes)
    ensures Join(a, NoShapes) == a && Join(NoShapes, a) == a
  {
    assert a.circles + [] == a.circles && a.rectangles + [] == a.rectangles && a.lines + [] == a.lines;
    assert a.polygons + [] == a.polygons && a.arcs + [] == a.arcs;
    assert [] + a.circles == a.circles && [] + a.rectangles == a.rectangles && [] + a.lines == a.lines;
    assert [] + a.polygons == a.polygons && [] + a.arcs == a.arcs;
  }

  lemma JoinAssociative(a: Shapes, b: Shapes, c: Shapes)
    ensures Join(Join(a, b), c) == Join(a, Join(b, c))
  {
    assert (a.circles + b.circles) + c.circles == a.circles + (b.circles + c.circles);
    assert (a.rectangles + b.rectangles) + c.rectangles == a.rectangles + (b.rectangles + c.rectangles);
    assert (a.lines + b.lines) + c.lines == a.lines + (b.lines + c.lines);
    assert (a.polygons + b.polygons) + c.polygons == a.polygons + (b.polygons + c.polygons);
    assert (a.arcs + b.arcs) + c.arcs == a.arcs + (b.arcs + c.arcs);
  }

  lemma CountJoin(a: Shapes, b: Shapes)
    ensures Count(Join(a, b)) == Count(a) + Count(b)
  {
  }

  /** The shapes added before, then the shapes of the rest, if the rest does not panic. */
  function Then(done: Shapes, rest: Option<Shapes>): Option<Shapes>
  {
    if rest.Some? then Some(Join(done, rest.value)) else None
  }

  lemma ThenAssociative(a: Shapes, b: Shapes, rest: Option<Shapes>)
    ensures Then(a, Then(b, rest)) == Then(Join(a, b), rest)
  {
    if rest.Some? {
      JoinAssociative(a, b, rest.value);
    }
  }

  /** `PrimitivesContainer`: shapes are only ever appended, each to the list of its kind. */
  class ShapeSink {
    var circles: seq<CircleShape>
    var rectangles: seq<RectangleShape>
    var lines: seq<LineShape>
    var polygons: seq<PolygonShape>
    var arcs: seq<ArcShape>

    constructor ()
      ensures Contents() == NoShapes
    {
      circles, rectangles, lines, polygons, arcs := [], [], [], [], [];
    }

    function Contents(): Shapes
      reads this
    {
      Shapes(circles, rectangles, lines, polygons, arcs)
    }

    /** `add_circle`. */
    method AddCircle(c: CircleShape)
      modifies this
      ensures Contents() == Join(old(Contents()), Shapes([c], [], [], [], []))
    {
      JoinNothing(Contents());
      circles := circles + [c];
    }

    /** `add_rectangle`. */
    method AddRectangle(r: RectangleShape)
      modifies this
      ensures Contents() == Join(old(Contents()), Shapes([], [r], [], [], []))
    {
      JoinNothing(Contents());
      rectangles := rectangles + [r];
    }

    /** `add_line`. */
    method AddLine(l: LineShape)
      modifies this
      ensures Contents() == Join(old(Contents()), Shapes([], [], [l], [], []))
    {
      JoinNothing(Contents());
      lines := lines + [l];
    }

    /** `add_polygon`. */
    method AddPolygon(p: PolygonShape)
      modifies this
      ensures Contents() == Join(old(Contents()), Shapes([], [], [], [p], []))
    {
      JoinNothing(Contents());
      polygons := polygons + [p];
    }

    /** `add_arc`. */
    method AddArc(a: ArcShape)
      modifies this
      ensures Contents() == Join(old(Contents()), Shapes([], [], [], [], [a]))
    {
      JoinNothing(Contents());
      arcs := arcs + [a];
    }
  }

  // ---------------------------------------------------------------------
  // The arguments of one call
  // ---------------------------------------------------------------------

  /**
   * The layer, the stroke width (in EasyEDA units, scaled like every
   * length), whether closed shapes are filled, the scale factor, and the
   * offset every point of a pad's custom shape is moved by.
   */
  datatype Style = Style(layer: PcbLayer, strokeWidth: real, filled: bool, scale: real, offset: Option<Point2D>)

  /** `stroke_width * scale_factor`, the width of every shape. */
  function Width(st: Style): real
  {
    st.strokeWidth * st.scale
  }

  /**
   * The trigonometry the model takes as given: the cosine and sine of a
   * rotation, `get_arc_center(start, end, angle)`, and
   * `interpolate_arc_points(start, end, angle, density)`.
   */
  datatype Geometry = Geometry(trig: Trig, arcMid: (Point2D, Point2D, real) -> Point2D,
                               interpolate: (Point2D, Point2D, real, real) -> seq<Point2D>)

  // ---------------------------------------------------------------------
  // Classification
  // ---------------------------------------------------------------------

  predicate IsArc(c: PathCommand)
  {
    c.ArcTo? || c.CenterArcTo?
  }

  /** `is_standalone_shape`: every command is a circle or a rectangle (true of no commands at all). */
  predicate Standalone(path: seq<PathCommand>)
  {
    forall i | 0 <= i < |path| :: path[i].Circle? || path[i].Rectangle?
  }

  /** `contains_arcs`: not standalone, and some command is an arc. */
  predicate ContainsArcs(path: seq<PathCommand>)
  {
    !Standalone(path) && exists i | 0 <= i < |path| :: IsArc(path[i])
  }

  // ---------------------------------------------------------------------
  // The offset
  // ---------------------------------------------------------------------

  /** A command moved by the offset: its point, end, centre or start, and nothing else. */
  function Shifted(c: PathCommand, offset: Point2D): (r: PathCommand)
    ensures r.MoveTo? == c.MoveTo? && r.LineTo? == c.LineTo? && r.ArcTo? == c.ArcTo?
    ensures r.CenterArcTo? == c.CenterArcTo? && r.Circle? == c.Circle? && r.Rectangle? == c.Rectangle?
  {
    match c
    case MoveTo(p) => MoveTo(Plus(p, offset))
    case LineTo(p) => LineTo(Plus(p, offset))
    case ArcTo(e, rotation) => ArcTo(Plus(e, offset), rotation)
    case CenterArcTo(e, rotation) => CenterArcTo(Plus(e, offset), rotation)
    case Circle(center, radius) => Circle(Plus(center, offset), radius)
    case Rectangle(start, width, height, rotation, corner) => Rectangle(Plus(start, offset), width, height, rotation, corner)
  }

  /**
   * The offset as the source applies it: the same, except that a line
   * becomes a move to the shifted point.
   */
  function ShiftedAsWritten(c: PathCommand, offset: Point2D): (r: PathCommand)
    ensures !r.LineTo? && r.MoveTo? == (c.MoveTo? || c.LineTo?) && r.ArcTo? == c.ArcTo?
    ensures r.CenterArcTo? == c.CenterArcTo? && r.Circle? == c.Circle? && r.Rectangle? == c.Rectangle?
  {
    match c
    case LineTo(p) => MoveTo(Plus(p, offset))
    case _ => Shifted(c, offset)
  }

  function ShiftAll(path: seq<PathCommand>, offset: Point2D): (r: seq<PathCommand>)
    ensures |r| == |path| && forall i | 0 <= i < |path| :: r[i] == Shifted(path[i], offset)
  {
    seq(|path|, i requires 0 <= i < |path| => Shifted(path[i], offset))
  }

  function ShiftAllAsWritten(path: seq<PathCommand>, offset: Point2D): (r: seq<PathCommand>)
    ensures |r| == |path| && forall i | 0 <= i < |path| :: r[i] == ShiftedAsWritten(path[i], offset)
  {
    seq(|path|, i requires 0 <= i < |path| => ShiftedAsWritten(path[i], offset))
  }

  /**
   * The path as drawn: moved by the offset, when there is one, with the
   * source's rewriting of every line into a move.
   */
  function Placed(path: seq<PathCommand>, offset: Option<Point2D>): seq<PathCommand>
  {
    if offset.Some? then ShiftAllAsWritten(path, offset.value) else path
  }

  /**
   * Moving a path as the source does keeps its classification: the class
   * is decided before the move, and the move turns no command into or out
   * of a circle, a rectangle or an arc.
   */
  lemma ShiftKeepsClassification(path: seq<PathCommand>, offset: Point2D)
    ensures Standalone(ShiftAllAsWritten(path, offset)) == Standalone(path)
    ensures ContainsArcs(ShiftAllAsWritten(path, offset)) == ContainsArcs(path)
  {
    var moved := ShiftAllAsWritten(path, offset);
    if exists i | 0 <= i < |path| :: IsArc(path[i]) {
      var i :| 0 <= i < |path| && IsArc(path[i]);
      assert IsArc(moved[i]);
    }
    if exists i | 0 <= i < |moved| :: IsArc(moved[i]) {
      var i :| 0 <= i < |moved| && IsArc(moved[i]);
      assert IsArc(path[i]);
    }
  }

  // ---------------------------------------------------------------------
  // Circles and rectangles
  // ---------------------------------------------------------------------

  /**
   * One command of a standalone path: a circle whose end is a radius to the
   * right of its centre, or an unrotated, unrounded rectangle from its
   * start to the opposite corner. None is a panic: a negative radius or
   * side (the bounding box's assertions), a rotated or rounded rectangle
   * (`todo!`), or a command that is not a circle or a rectangle.
   */
  function StandaloneShape(c: PathCommand, st: Style): Option<Shapes>
  {
    match c
    case Circle(center, radius) =>
      if radius < 0.0 then None
      else Some(Shapes([CircleShape(center, Point2D(center.x + radius, center.y), st.layer, Width(st), st.filled)],
                       [], [], [], []))
    case Rectangle(start, width, height, rotation, corner) =>
      if width < 0.0 || height < 0.0 || rotation != 0.0 || corner != 0.0 then None
      else Some(Shapes([], [RectangleShape(start, Point2D(start.x + width, start.y + height), st.layer, Width(st), st.filled)],
                       [], [], []))
    case _ => None
  }

  /**
   * The `FootprintRectangle` that `add_rectangle` receives for a rectangle
   * shape: the start point as a 2D scalar named `center`, the far corner
   * named `end`, the layer, the scaled stroke width, the fill, and no
   * stroke, uuid or lock.
   */
  function RectangleRecord(r: RectangleShape): FootprintRectangles.FootprintRectangle
  {
    FootprintRectangles.FootprintRectangle(ToScalar2D(r.start, "center"), ToScalar2D(r.end, "end"), r.layer,
                                           Some(Numbers.Finite(r.width)), None, Some(r.fill), None, false)
  }

  /**
   * A converted rectangle never reads back: its start point is written as a
   * `center` child, a name the `fp_rect` reader panics on.
   */
  lemma RectangleRecordUnreadable(r: RectangleShape)
    ensures FootprintRectangles.ReadRectangle(FootprintRectangles.WriteRectangle(RectangleRecord(r))).None?
  {
    FootprintRectangles.MislabelledStartUnreadable(RectangleRecord(r));
  }

  /** The record with its start point named `start`, the name `FootprintRectangle::deserialize` reads it under. */
  function CorrectedRectangleRecord(r: RectangleShape): FootprintRectangles.FootprintRectangle
  {
    RectangleRecord(r).(start := ToScalar2D(r.start, "start"))
  }

  /** The corrected record reads back as itself, both corners, layer, width and fill. */
  lemma CorrectedRectangleRecordRoundTrip(r: RectangleShape)
    ensures FootprintRectangles.ReadRectangle(FootprintRectangles.WriteRectangle(CorrectedRectangleRecord(r)))
         == Some(CorrectedRectangleRecord(r))
    ensures CorrectedRectangleRecord(r).start == Scalars.Scalar2D("start", Numbers.Finite(r.start.x), Numbers.Finite(r.start.y))
    ensures CorrectedRectangleRecord(r).end == Scalars.Scalar2D("end", Numbers.Finite(r.end.x), Numbers.Finite(r.end.y))
  {
    FootprintRectangles.RectangleRoundTrip(CorrectedRectangleRecord(r));
  }

  /** The shapes of a standalone path, command after command. */
  function StandaloneShapes(path: seq<PathCommand>, st: Style): Option<Shapes>
  {
    if path == [] then Some(NoShapes)
    else
      var first :- StandaloneShape(path[0], st);
      Then(first, StandaloneShapes(path[1..], st))
  }

  /** A command a standalone path can draw without panicking. */
  predicate Drawable(c: PathCommand)
  {
    || (c.Circle? && c.radius >= 0.0)
    || (c.Rectangle? && c.width >= 0.0 && c.height >= 0.0 && c.rotation == 0.0 && c.cornerRadius == 0.0)
  }

  /** What every shape of a call has in common: the layer, the width and the fill. */
  predicate Styled(s: Shapes, st: Style)
  {
    && (forall i | 0 <= i < |s.circles| :: s.circles[i].layer == st.layer && s.circles[i].width == Width(st)
                                           && s.circles[i].fill == st.filled)
    && (forall i | 0 <= i < |s.rectangles| :: s.rectangles[i].layer == st.layer
                                              && s.rectangles[i].width == Width(st) && s.rectangles[i].fill == st.filled)
    && (forall i | 0 <= i < |s.lines| :: s.lines[i].layer == st.layer && s.lines[i].width == Width(st))
    && (forall i | 0 <= i < |s.polygons| :: s.polygons[i].layer == st.layer && s.polygons[i].width == Width(st)
                                            && s.polygons[i].fill == st.filled)
    && (forall i | 0 <= i < |s.arcs| :: s.arcs[i].layer == st.layer && s.arcs[i].width == Width(st))
  }

  /**
   * A circle's end lies on the horizontal through its centre, to its right;
   * a rectangle's end lies above and to the right of its start.
   */
  predicate WellShaped(s: Shapes)
  {
    && (forall i | 0 <= i < |s.circles| :: s.circles[i].end.y == s.circles[i].center.y
                                           && s.circles[i].end.x >= s.circles[i].center.x)
    && (forall i | 0 <= i < |s.rectangles| :: s.rectangles[i].end.x >= s.rectangles[i].start.x
                                              && s.rectangles[i].end.y >= s.rectangles[i].start.y)
  }

  lemma JoinKeepsShape(a: Shapes, b: Shapes, st: Style)
    requires Styled(a, st) && WellShaped(a) && Styled(b, st) && WellShaped(b)
    ensures Styled(Join(a, b), st) && WellShaped(Join(a, b))
  {
    var j := Join(a, b);
    forall i | |a.circles| <= i < |j.circles|
      ensures j.circles[i] == b.circles[i - |a.circles|]
    {
    }
    forall i | |a.rectangles| <= i < |j.rectangles|
      ensures j.rectangles[i] == b.rectangles[i - |a.rectangles|]
    {
    }
    forall i | |a.lines| <= i < |j.lines|
      ensures j.lines[i] == b.lines[i - |a.lines|]
    {
    }
    forall i | |a.polygons| <= i < |j.polygons|
      ensures j.polygons[i] == b.polygons[i - |a.polygons|]
    {
    }
    forall i | |a.arcs| <= i < |j.arcs|
      ensures j.arcs[i] == b.arcs[i - |a.arcs|]
    {
    }
  }

  /**
   * A standalone path draws without panicking exactly when every command is
   * drawable, and then it adds one circle per circle and one rectangle per
   * rectangle and nothing else, all in the call's style and well shaped.
   */
  lemma {:induction false} StandaloneShapesSound(path: seq<PathCommand>, st: Style)
    ensures StandaloneShapes(path, st).Some? <==> forall i | 0 <= i < |path| :: Drawable(path[i])
    ensures StandaloneShapes(path, st).Some? ==>
              var s := StandaloneShapes(path, st).value;
              && Count(s) == |path| && s.lines == [] && s.polygons == [] && s.arcs == []
              && Styled(s, st) && WellShaped(s)
  {
    if path != [] {
      StandaloneShapesSound(path[1..], st);
      var first := StandaloneShape(path[0], st);
      if first.Some? {
        assert Drawable(path[0]);
        var rest := StandaloneShapes(path[1..], st);
        if rest.Some? {
          JoinKeepsShape(first.value, rest.value, st);
        }
        if forall i | 0 <= i < |path[1..]| :: Drawable(path[1..][i]) {
          assert forall i | 0 <= i < |path| :: Drawable(path[i]) by {
            forall i | 1 <= i < |path|
              ensures Drawable(path[i])
            {
              assert path[i] == path[1..][i - 1];
            }
          }
        } else {
          var i :| 0 <= i < |path[1..]| && !Drawable(path[1..][i]);
          assert !Drawable(path[i + 1]);
        }
      } else {
        assert !Drawable(path[0]);
      }
    }
  }

  /** The loop over a standalone path: measure each command, then add its shape. */
  method AddStandaloneShapes(path: seq<PathCommand>, sink: ShapeSink, st: Style, geo: Geometry) returns (completed: bool)
    modifies sink
    ensures completed == StandaloneShapes(path, st).Some?
    ensures completed ==> sink.Contents() == Join(old(sink.Contents()), StandaloneShapes(path, st).value)
  {
    ghost var start := sink.Contents();
    var box := EmptyBox;
    JoinNothing(start);
    assert path[0..] == path;
    for i := 0 to |path|
      invariant Then(sink.Contents(), StandaloneShapes(path[i..], st)) == Then(start, StandaloneShapes(path, st))
    {
      ghost var before := sink.Contents();
      assert path[i..][1..] == path[i + 1..];
      ghost var rest := StandaloneShapes(path[i + 1..], st);
      var expanded := ExpandBBoxToShape(path[i], box, geo.trig);
      if expanded.None? {
        return false;
      }
      box := expanded.value;
      match path[i] {
        case Circle(center, radius) =>
          sink.AddCircle(CircleShape(center, Point2D(center.x + radius, center.y), st.layer, Width(st), st.filled));
        case Rectangle(corner, width, height, rotation, cornerRadius) =>
          if rotation != 0.0 || cornerRadius != 0.0 {
            return false;
          }
          sink.AddRectangle(RectangleShape(corner, Point2D(corner.x + width, corner.y + height), st.layer, Width(st),
                                           st.filled));
        case _ =>
          return false;
      }
      ThenAssociative(before, StandaloneShape(path[i], st).value, rest);
    }
    assert path[|path|..] == [];
    JoinNothing(sink.Contents());
    return true;
  }

  // ---------------------------------------------------------------------
  // Lines and polygons without arcs
  // ---------------------------------------------------------------------

  /**
   * The points of an arc-free polygon, one per move or line. None is the
   * `unreachable!` panic on any other command.
   */
  function PolygonPoints(path: seq<PathCommand>): (r: Option<seq<Point2D>>)
    ensures r.Some? <==> forall i | 0 <= i < |path| :: path[i].MoveTo? || path[i].LineTo?
    ensures r.Some? ==> |r.value| == |path| && forall i | 0 <= i < |path| :: r.value[i] == path[i].position
  {
    if path == [] then Some([])
    else if !(path[0].MoveTo? || path[0].LineTo?) then None
    else
      var rest :- PolygonPoints(path[1..]);
      assert forall i | 1 <= i < |path| :: path[i] == path[1..][i - 1];
      Some([path[0].position] + rest)
  }

  /** Whether the path is a single move followed by a single line. */
  predicate IsSimpleLine(path: seq<PathCommand>)
  {
    |path| == 2 && path[0].MoveTo? && path[1].LineTo?
  }

  /** The arc-free case: a line for a move and a line, one polygon for anything else. */
  function LineOrPolygon(path: seq<PathCommand>, st: Style): Option<Shapes>
  {
    if IsSimpleLine(path) then Some(Shapes([], [], [LineShape(path[0].position, path[1].position, st.layer, Width(st))], [], []))
    else
      var points :- PolygonPoints(path);
      Some(Shapes([], [], [], [PolygonShape(points, st.layer, Width(st), st.filled)], []))
  }

  /** The points of an arc-free polygon, pushed one after another while the box is measured. */
  method PolygonPointsOf(path: seq<PathCommand>, trig: Trig) returns (r: Option<seq<Point2D>>)
    ensures r == PolygonPoints(path)
  {
    var points: seq<Point2D> := [];
    var box := EmptyBox;
    for i := 0 to |path|
      invariant |points| == i && forall j | 0 <= j < i :: (path[j].MoveTo? || path[j].LineTo?) && points[j] == path[j].position
    {
      var expanded := ExpandBBoxToShape(path[i], box, trig);
      if expanded.None? {
        return None;
      }
      box := expanded.value;
      match path[i] {
        case MoveTo(position) =>
          points := points + [position];
        case LineTo(position) =>
          points := points + [position];
        case _ =>
          return None;
      }
    }
    assert points == PolygonPoints(path).value;
    r := Some(points);
  }

  // ---------------------------------------------------------------------
  // Paths with arcs
  // ---------------------------------------------------------------------

  /** An arc's end as drawn: the y axis turned back (`Point2D::new(end.x, -end.y)`). */
  function ArcEnd(e: Point2D): Point2D
  {
    Point2D(e.x, -e.y)
  }

  /** The point a command leaves the pen at in a polygon with arcs. */
  function PenAfter(c: PathCommand): Point2D
    requires !(c.Circle? || c.Rectangle?)
  {
    if IsArc(c) then ArcEnd(c.end) else c.position
  }

  /** The points interpolated along an arc from the pen at `last`; none for a move or a line. */
  function ArcHead(c: PathCommand, last: Point2D, geo: Geometry): seq<Point2D>
  {
    if IsArc(c) then geo.interpolate(last, ArcEnd(c.end), -c.rotation, 8.0) else []
  }

  /**
   * The points of a polygon with arcs, from the pen at `last`: a move or a
   * line gives its point; an arc gives the points interpolated along it
   * from the pen, then its end. None is the `unreachable!` panic on a
   * circle or a rectangle.
   */
  function ArcPolygonPoints(path: seq<PathCommand>, last: Point2D, geo: Geometry): (r: Option<seq<Point2D>>)
    ensures r.Some? <==> forall i | 0 <= i < |path| :: !(path[i].Circle? || path[i].Rectangle?)
    ensures r.Some? ==> |r.value| >= |path|
    ensures r.Some? && path != [] ==> r.value[|r.value| - 1] == PenAfter(path[|path| - 1])
  {
    if path == [] then Some([])
    else if path[0].Circle? || path[0].Rectangle? then None
    else
      var pen := PenAfter(path[0]);
      var rest :- ArcPolygonPoints(path[1..], pen, geo);
      assert forall i | 1 <= i < |path| :: path[i] == path[1..][i - 1];
      Some(ArcHead(path[0], last, geo) + [pen] + rest)
  }

  /** Whether the path is a single move followed by a single arc. */
  predicate IsSimpleArc(path: seq<PathCommand>)
  {
    |path| == 2 && path[0].MoveTo? && IsArc(path[1])
  }

  /** The case with arcs: an arc for a move and an arc, one polygon for anything else. */
  function ArcOrPolygon(path: seq<PathCommand>, st: Style, geo: Geometry): Option<Shapes>
  {
    if IsSimpleArc(path) then
      var start := path[0].position;
      var end := ArcEnd(path[1].end);
      Some(Shapes([], [], [], [], [ArcShape(start, geo.arcMid(start, end, path[1].rotation), end, st.layer, Width(st))]))
    else
      var points :- ArcPolygonPoints(path, Point2D(0.0, 0.0), geo);
      Some(Shapes([], [], [], [PolygonShape(points, st.layer, Width(st), st.filled)], []))
  }

  /** The polygon loop with arcs, keeping the pen's last position. */
  method ArcPolygonPointsOf(path: seq<PathCommand>, geo: Geometry) returns (r: Option<seq<Point2D>>)
    ensures r == ArcPolygonPoints(path, Point2D(0.0, 0.0), geo)
  {
    var points: seq<Point2D> := [];
    var last := Point2D(0.0, 0.0);
    ghost var target := ArcPolygonPoints(path, last, geo);
    assert path[0..] == path;
    assert target.Some? ==> [] + target.value == target.value;
    for i := 0 to |path|
      invariant PointsThen(points, ArcPolygonPoints(path[i..], last, geo)) == target
    {
      if path[i].Circle? || path[i].Rectangle? {
        assert path[i..][0] == path[i];
        return None;
      }
      var interpolated: seq<Point2D>;
      var pen: Point2D;
      if path[i].ArcTo? || path[i].CenterArcTo? {
        pen := ArcEnd(path[i].end);
        interpolated := geo.interpolate(last, pen, -path[i].rotation, 8.0);
      } else {
        interpolated, pen := [], path[i].position;
      }
      ArcPolygonAdvance(path, i, last, geo, points, interpolated, pen, target);
      points := points + interpolated + [pen];
      last := pen;
    }
    assert path[|path|..] == [] && points + [] == points;
    r := Some(points);
  }

  /** The points pushed so far in front of the points of the rest, if that does not panic. */
  function PointsThen(done: seq<Point2D>, rest: Option<seq<Point2D>>): Option<seq<Point2D>>
  {
    if rest.Some? then Some(done + rest.value) else None
  }

  /** The polygon loop with arcs keeps its invariant over one command. */
  lemma ArcPolygonAdvance(path: seq<PathCommand>, i: nat, last: Point2D, geo: Geometry, done: seq<Point2D>,
                          head: seq<Point2D>, pen: Point2D, target: Option<seq<Point2D>>)
    requires i < |path| && !(path[i].Circle? || path[i].Rectangle?)
    requires head == ArcHead(path[i], last, geo) && pen == PenAfter(path[i])
    requires PointsThen(done, ArcPolygonPoints(path[i..], last, geo)) == target
    ensures PointsThen(done + head + [pen], ArcPolygonPoints(path[i + 1..], pen, geo)) == target
  {
    ArcPolygonStep(path, i, last, geo, done);
  }

  /** One step of the polygon loop with arcs: the command's points move to the end of those pushed. */
  lemma ArcPolygonStep(path: seq<PathCommand>, i: nat, last: Point2D, geo: Geometry, done: seq<Point2D>)
    requires i < |path| && !(path[i].Circle? || path[i].Rectangle?)
    ensures PointsThen(done, ArcPolygonPoints(path[i..], last, geo))
            == PointsThen(done + ArcHead(path[i], last, geo) + [PenAfter(path[i])],
                          ArcPolygonPoints(path[i + 1..], PenAfter(path[i]), geo))
  {
    assert path[i..][1..] == path[i + 1..] && path[i..][0] == path[i];
    var head := ArcHead(path[i], last, geo);
    var rest := ArcPolygonPoints(path[i + 1..], PenAfter(path[i]), geo);
    if rest.Some? {
      assert done + (head + [PenAfter(path[i])] + rest.value) == done + head + [PenAfter(path[i])] + rest.value;
    }
  }

  // ---------------------------------------------------------------------
  // One path
  // ---------------------------------------------------------------------

  /**
   * The shapes of one path of tokens: decoded, classified, moved by the
   * offset, then drawn by the rule of its class. None is a panic.
   */
  function PathShapes(tokens: seq<JsonValue>, st: Style, geo: Geometry): Option<Shapes>
  {
    var parsed :- ParsePath(tokens, st.scale);
    var path := Placed(parsed, st.offset);
    if Standalone(parsed) then StandaloneShapes(path, st)
    else if !ContainsArcs(parsed) then LineOrPolygon(path, st)
    else ArcOrPolygon(path, st, geo)
  }

  /**
   * A path that is not all circles and rectangles gives exactly one shape:
   * a line, an arc or a polygon, in the call's style.
   */
  lemma PathShapesOneShape(tokens: seq<JsonValue>, st: Style, geo: Geometry)
    requires PathShapes(tokens, st, geo).Some? && !Standalone(ParsePath(tokens, st.scale).value)
    ensures OneShape(PathShapes(tokens, st, geo).value, st)
  {
    var parsed := ParsePath(tokens, st.scale).value;
    var path := Placed(parsed, st.offset);
    if !ContainsArcs(parsed) {
      LineOrPolygonOneShape(path, st);
    } else {
      ArcOrPolygonOneShape(path, st, geo);
    }
  }

  /** One shape in all, in the call's style, and no circle or rectangle. */
  predicate OneShape(s: Shapes, st: Style)
  {
    Count(s) == 1 && Styled(s, st) && s.circles == [] && s.rectangles == []
  }

  lemma LineOrPolygonOneShape(path: seq<PathCommand>, st: Style)
    ensures LineOrPolygon(path, st).Some? ==> OneShape(LineOrPolygon(path, st).value, st)
  {
  }

  lemma ArcOrPolygonOneShape(path: seq<PathCommand>, st: Style, geo: Geometry)
    ensures ArcOrPolygon(path, st, geo).Some? ==> OneShape(ArcOrPolygon(path, st, geo).value, st)
  {
  }

  /** A move and a line give one line between their points, and nothing else. */
  lemma SimpleLineDrawn(p: Point2D, q: Point2D, st: Style)
    ensures LineOrPolygon([MoveTo(p), LineTo(q)], st) == Some(Shapes([], [], [LineShape(p, q, st.layer, Width(st))], [], []))
  {
  }

  /**
   * Moves and lines other than a single move and line give one polygon with
   * one point per command, in order; a circle or a rectangle among them panics.
   */
  lemma PolygonDrawn(path: seq<PathCommand>, st: Style)
    requires !IsSimpleLine(path)
    ensures LineOrPolygon(path, st).Some? <==> forall i | 0 <= i < |path| :: path[i].MoveTo? || path[i].LineTo?
    ensures LineOrPolygon(path, st).Some? ==>
              var s := LineOrPolygon(path, st).value;
              && s.lines == [] && |s.polygons| == 1 && |s.polygons[0].points| == |path|
              && forall i | 0 <= i < |path| :: s.polygons[0].points[i] == path[i].position
  {
  }

  /** With a corrected offset, a move and a line still give one line, both ends moved. */
  lemma OffsetLineKeepsLine(p: Point2D, q: Point2D, o: Point2D, st: Style)
    ensures LineOrPolygon(ShiftAll([MoveTo(p), LineTo(q)], o), st)
            == Some(Shapes([], [], [LineShape(Plus(p, o), Plus(q, o), st.layer, Width(st))], [], []))
  {
    assert ShiftAll([MoveTo(p), LineTo(q)], o) == [MoveTo(Plus(p, o)), LineTo(Plus(q, o))];
  }

  /**
   * As written, the offset turns the line into a second move, so a move and
   * a line with an offset give a two-point polygon and no line.
   */
  lemma OffsetLineAsWrittenIsPolygon(p: Point2D, q: Point2D, o: Point2D, st: Style)
    ensures LineOrPolygon(ShiftAllAsWritten([MoveTo(p), LineTo(q)], o), st)
            == Some(Shapes([], [], [], [PolygonShape([Plus(p, o), Plus(q, o)], st.layer, Width(st), st.filled)], []))
  {
    var moved := ShiftAllAsWritten([MoveTo(p), LineTo(q)], o);
    assert moved == [MoveTo(Plus(p, o)), MoveTo(Plus(q, o))];
    assert !IsSimpleLine(moved);
    var points := PolygonPoints(moved);
    assert points.Some?;
    assert points.value == [Plus(p, o), Plus(q, o)];
  }

  // ---------------------------------------------------------------------
  // Lists of sub-paths
  // ---------------------------------------------------------------------

  predicate AllArrays(paths: seq<JsonValue>)
  {
    forall i | 0 <= i < |paths| :: paths[i].JArray?
  }

  /**
   * `populate_footprint_shapes`: nothing for no tokens; each sub-path in
   * turn when every token is an array; otherwise the shapes of the path.
   */
  function PopulateShapes(paths: seq<JsonValue>, st: Style, geo: Geometry): Option<Shapes>
    decreases JArray(paths), 1, 0
  {
    if paths == [] then Some(NoShapes)
    else if AllArrays(paths) then SubPathShapes(paths, 0, st, geo)
    else PathShapes(paths, st, geo)
  }

  /** The shapes of the sub-paths from the k-th on, in order. */
  function SubPathShapes(paths: seq<JsonValue>, k: nat, st: Style, geo: Geometry): Option<Shapes>
    requires AllArrays(paths) && k <= |paths|
    decreases JArray(paths), 0, |paths| - k
  {
    if k == |paths| then Some(NoShapes)
    else
      assert paths[k] == JArray(paths[k].items);
      var first :- PopulateShapes(paths[k].items, st, geo);
      Then(first, SubPathShapes(paths, k + 1, st, geo))
  }

  /** `populate_footprint_shapes`, adding to the container; false stands for a panic. */
  method PopulateFootprintShapes(paths: seq<JsonValue>, sink: ShapeSink, st: Style, geo: Geometry)
    returns (completed: bool)
    modifies sink
    decreases JArray(paths), 1, 0
    ensures completed == PopulateShapes(paths, st, geo).Some?
    ensures completed ==> sink.Contents() == Join(old(sink.Contents()), PopulateShapes(paths, st, geo).value)
  {
    JoinNothing(sink.Contents());
    if |paths| == 0 {
      return true;
    }
    if forall i | 0 <= i < |paths| :: paths[i].JArray? {
      ghost var start := sink.Contents();
      for k := 0 to |paths|
        invariant Then(sink.Contents(), SubPathShapes(paths, k, st, geo)) == Then(start, SubPathShapes(paths, 0, st, geo))
      {
        ghost var before := sink.Contents();
        assert paths[k] == JArray(paths[k].items);
        var done := PopulateFootprintShapes(paths[k].items, sink, st, geo);
        if !done {
          return false;
        }
        ThenAssociative(before, PopulateShapes(paths[k].items, st, geo).value, SubPathShapes(paths, k + 1, st, geo));
      }
      JoinNothing(sink.Contents());
      return true;
    }
    completed := AddPathShapes(paths, sink, st, geo);
  }

  /** The shapes of one path of tokens, added to the container; false stands for a panic. */
  method AddPathShapes(tokens: seq<JsonValue>, sink: ShapeSink, st: Style, geo: Geometry) returns (completed: bool)
    modifies sink
    ensures completed == PathShapes(tokens, st, geo).Some?
    ensures completed ==> sink.Contents() == Join(old(sink.Contents()), PathShapes(tokens, st, geo).value)
  {
    var parsed := ParsePathExpression(tokens, st.scale);
    if parsed.None? {
      return false;
    }
    var commands := parsed.value;
    var isStandalone := Standalone(commands);
    var containsArcs := ContainsArcs(commands);
    var path := commands;
    if st.offset.Some? {
      path := ShiftAllAsWritten(commands, st.offset.value);
    }
    if isStandalone {
      completed := AddStandaloneShapes(path, sink, st, geo);
    } else if !containsArcs {
      completed := AddLineOrPolygon(path, sink, st, geo.trig);
    } else {
      completed := AddArcOrPolygon(path, sink, st, geo);
    }
  }

  /** The arc-free case, adding to the container. */
  method AddLineOrPolygon(path: seq<PathCommand>, sink: ShapeSink, st: Style, trig: Trig) returns (completed: bool)
    modifies sink
    ensures completed == LineOrPolygon(path, st).Some?
    ensures completed ==> sink.Contents() == Join(old(sink.Contents()), LineOrPolygon(path, st).value)
  {
    if |path| == 2 && path[0].MoveTo? && path[1].LineTo? {
      sink.AddLine(LineShape(path[0].position, path[1].position, st.layer, Width(st)));
    } else {
      var points := PolygonPointsOf(path, trig);
      if points.None? {
        return false;
      }
      sink.AddPolygon(PolygonShape(points.value, st.layer, Width(st), st.filled));
    }
    completed := true;
  }

  /** The case with arcs, adding to the container. */
  method AddArcOrPolygon(path: seq<PathCommand>, sink: ShapeSink, st: Style, geo: Geometry) returns (completed: bool)
    modifies sink
    ensures completed == ArcOrPolygon(path, st, geo).Some?
    ensures completed ==> sink.Contents() == Join(old(sink.Contents()), ArcOrPolygon(path, st, geo).value)
  {
    if |path| == 2 && path[0].MoveTo? && (path[1].ArcTo? || path[1].CenterArcTo?) {
      var start := path[0].position;
      var end := ArcEnd(path[1].end);
      sink.AddArc(ArcShape(start, geo.arcMid(start, end, path[1].rotation), end, st.layer, Width(st)));
    } else {
      var points := ArcPolygonPointsOf(path, geo);
      if points.None? {
        return false;
      }
      sink.AddPolygon(PolygonShape(points.value, st.layer, Width(st), st.filled));
    }
    completed := true;
  }
}

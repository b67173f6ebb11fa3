/**
 * The board-level graphic primitives of `src/kicad/model/graphical.rs`:
 * lines, polygons, rectangles, circles, arcs, Bezier curves and annotation
 * boxes. Each is written as a node with a fixed name whose children carry
 * the fields, optional fields only when present, and is read back by a loop
 * over the children that starts from defaults and overwrites one field per
 * child; an unknown child name (or a missing or ill-typed argument) is the
 * source's panic, here None.
 *
 * The single-layer `layers` child is written and read by `PcbLayer`'s own
 * serializer, which is not part of this model: it is a parameter
 * (`LayerCodec`), and the round trips assume only that it writes a node
 * named `layers` that it reads back.
 */
module Graphical {
  import opened Wrappers
  import opened Numbers
  import opened Syntax
  import opened Folding
  import opened Common
  import opened Scalars
  import opened PcbLayers

  /** `PcbLayer::serialize` and `PcbLayer::deserialize` for one layer; None is a panic. */
  datatype LayerCodec = LayerCodec(write: PcbLayer -> SyntaxItem, read: SyntaxItem -> Option<PcbLayer>)

  /** The codec writes a `layers` node and reads its own output back. */
  ghost predicate Lawful(codec: LayerCodec)
  {
    forall l: PcbLayer :: codec.write(l).name == "layers" && codec.read(codec.write(l)) == Some(l)
  }

  // ---------------------------------------------------------------------
  // Child nodes shared by the primitives
  // ---------------------------------------------------------------------

  function WidthNode(width: Num): SyntaxItem
  {
    FromSingleArgument("width", Number(width, Neutral))
  }

  function LayerNode(codec: LayerCodec, layer: Option<PcbLayer>): Option<SyntaxItem>
  {
    if layer.Some? then Some(codec.write(layer.value)) else None
  }

  function UuidNode(uuid: Option<string>): Option<SyntaxItem>
  {
    if uuid.Some? then Some(FromSingleArgument("uuid", Identifier(uuid.value, Neutral))) else None
  }

  /** A filled shape is `solid`, an unfilled one `none`. */
  function FillNode(fill: Option<bool>): Option<SyntaxItem>
  {
    if fill.Some? then Some(FromSingleArgument("fill", Identifier(if fill.value then "solid" else "none", Neutral)))
    else None
  }

  /** The `pts` child: one node per point, in order. */
  function PointsNode(points: seq<Scalar2D>): SyntaxItem
  {
    SyntaxItem("pts", [], WritePoints(points))
  }

  /** How a polygon reads its fill word: `solid` and `yes` are filled. */
  predicate PolygonFilled(text: string) { text == "solid" || text == "yes" }

  /** How a rectangle or a circle reads its fill word: only `solid` is filled. */
  predicate SolidFilled(text: string) { text == "solid" }

  // ---------------------------------------------------------------------
  // GraphicLine: `(gr_line (start ..) (end ..) (width w) [(angle a)] [(layers ..)] [(uuid u)])`
  // ---------------------------------------------------------------------

  datatype GraphicLine = GraphicLine(start: Scalar2D, end: Scalar2D, angle: Option<Num>, layer: Option<PcbLayer>,
                                     width: Num, uuid: Option<string>)

  function DefaultLine(): GraphicLine
  {
    GraphicLine(DefaultScalar2D(), DefaultScalar2D(), None, None, Finite(0.0), None)
  }

  function WriteLine(codec: LayerCodec, g: GraphicLine): SyntaxItem
  {
    SyntaxItem("gr_line", [],
      [WriteScalar2D(g.start), WriteScalar2D(g.end), WidthNode(g.width)]
      + Optional(NumberChild("angle", g.angle)) + Optional(LayerNode(codec, g.layer)) + Optional(UuidNode(g.uuid)))
  }

  /** One child of `gr_line`. */
  function LineChild(codec: LayerCodec, g: GraphicLine, c: SyntaxItem): Option<GraphicLine>
  {
    match c.name
    case "start" => var p :- ReadScalar2D(c); Some(g.(start := p))
    case "end" => var p :- ReadScalar2D(c); Some(g.(end := p))
    case "width" => var w :- NumberAt(c, 0); Some(g.(width := w))
    case "angle" => var a :- NumberAt(c, 0); Some(g.(angle := Some(a)))
    case "layers" => var l :- codec.read(c); Some(g.(layer := Some(l)))
    case "uuid" => var u :- StringAt(c, 0); Some(g.(uuid := Some(u)))
    case _ => None
  }

  function LineStep(codec: LayerCodec): (GraphicLine, SyntaxItem) -> Option<GraphicLine>
  {
    (g: GraphicLine, c: SyntaxItem) => LineChild(codec, g, c)
  }

  /** `GraphicLine::deserialize` as a function: the children applied in order to the default line. */
  function ReadLine(codec: LayerCodec, s: SyntaxItem): Option<GraphicLine>
  {
    Fold(DefaultLine(), s.children, LineStep(codec))
  }

  /** `GraphicLine::deserialize`: the loop over the children. */
  method DeserializeLine(codec: LayerCodec, syntax: SyntaxItem) returns (r: Option<GraphicLine>)
    ensures r == ReadLine(codec, syntax)
  {
    var line := DefaultLine();
    var i := 0;
    assert syntax.children[0..] == syntax.children;
    while i < |syntax.children|
      invariant i <= |syntax.children|
      invariant ReadLine(codec, syntax) == Fold(line, syntax.children[i..], LineStep(codec))
    {
      FoldAdvance(line, syntax.children, i, LineStep(codec));
      var child := syntax.children[i];
      match child.name {
        case "start" =>
          var p := ReadScalar2D(child);
          if p.None? { return None; }
          line := line.(start := p.value);
        case "end" =>
          var p := ReadScalar2D(child);
          if p.None? { return None; }
          line := line.(end := p.value);
        case "width" =>
          var w := NumberAt(child, 0);
          if w.None? { return None; }
          line := line.(width := w.value);
        case "angle" =>
          var a := NumberAt(child, 0);
          if a.None? { return None; }
          line := line.(angle := Some(a.value));
        case "layers" =>
          var l := codec.read(child);
          if l.None? { return None; }
          line := line.(layer := Some(l.value));
        case "uuid" =>
          var u := StringAt(child, 0);
          if u.None? { return None; }
          line := line.(uuid := Some(u.value));
        case _ =>
          return None;
      }
      i := i + 1;
    }
    return Some(line);
  }

  /** A line whose end points carry their own node names is read back from its written form. */
  lemma LineRoundTrip(codec: LayerCodec, g: GraphicLine)
    requires Lawful(codec)
    requires g.start.name == "start" && g.end.name == "end"
    ensures WriteLine(codec, g).name == "gr_line"
    ensures ReadLine(codec, WriteLine(codec, g)) == Some(g)
  {
    var step := LineStep(codec);
    var head := [WriteScalar2D(g.start), WriteScalar2D(g.end), WidthNode(g.width)];
    var g1 := DefaultLine().(start := g.start);
    var g2 := g1.(end := g.end);
    var g3 := g2.(width := g.width);
    assert step(DefaultLine(), WriteScalar2D(g.start)) == Some(g1);
    assert step(g1, WriteScalar2D(g.end)) == Some(g2);
    assert step(g2, WidthNode(g.width)) == Some(g3);
    FoldThree(DefaultLine(), WriteScalar2D(g.start), WriteScalar2D(g.end), WidthNode(g.width), step, g1, g2, g3);
    var g4 := g3.(angle := g.angle);
    FoldOptional(g3, NumberChild("angle", g.angle), step);
    var g5 := g4.(layer := g.layer);
    FoldOptional(g4, LayerNode(codec, g.layer), step);
    FoldOptional(g5, UuidNode(g.uuid), step);
    FoldJoin(DefaultLine(), head, Optional(NumberChild("angle", g.angle)), step, g3, g4);
    FoldJoin(DefaultLine(), head + Optional(NumberChild("angle", g.angle)), Optional(LayerNode(codec, g.layer)), step, g4, g5);
    FoldJoin(DefaultLine(), head + Optional(NumberChild("angle", g.angle)) + Optional(LayerNode(codec, g.layer)),
             Optional(UuidNode(g.uuid)), step, g5, g);
  }

  /** Each child sets the optional field of its own name and leaves the others as they were. */
  lemma LineChildFields(codec: LayerCodec, g: GraphicLine, c: SyntaxItem)
    requires LineChild(codec, g, c).Some?
    ensures LineChild(codec, g, c).value.angle.Some? == (c.name == "angle" || g.angle.Some?)
    ensures LineChild(codec, g, c).value.layer.Some? == (c.name == "layers" || g.layer.Some?)
    ensures LineChild(codec, g, c).value.uuid.Some? == (c.name == "uuid" || g.uuid.Some?)
  {
  }

  /** The optional fields of a line that was read are present exactly when their child is. */
  lemma LineOptionalFields(codec: LayerCodec, s: SyntaxItem)
    requires ReadLine(codec, s).Some?
    ensures ReadLine(codec, s).value.angle.Some? <==> GetNamedChild(s, "angle").Some?
    ensures ReadLine(codec, s).value.layer.Some? <==> GetNamedChild(s, "layers").Some?
    ensures ReadLine(codec, s).value.uuid.Some? <==> GetNamedChild(s, "uuid").Some?
  {
    var step := LineStep(codec);
    forall g: GraphicLine, c: SyntaxItem | step(g, c).Some?
      ensures step(g, c).value.angle.Some? == (c.name == "angle" || g.angle.Some?)
      ensures step(g, c).value.layer.Some? == (c.name == "layers" || g.layer.Some?)
      ensures step(g, c).value.uuid.Some? == (c.name == "uuid" || g.uuid.Some?)
    {
      LineChildFields(codec, g, c);
    }
    FoldPresence(DefaultLine(), s.children, step, (g: GraphicLine) => g.angle.Some?, (c: SyntaxItem) => c.name == "angle");
    FoldPresence(DefaultLine(), s.children, step, (g: GraphicLine) => g.layer.Some?, (c: SyntaxItem) => c.name == "layers");
    FoldPresence(DefaultLine(), s.children, step, (g: GraphicLine) => g.uuid.Some?, (c: SyntaxItem) => c.name == "uuid");
  }

  /** A child outside `start`, `end`, `width`, `angle`, `layers`, `uuid` is rejected. */
  lemma LineRejectsUnknown(codec: LayerCodec, s: SyntaxItem, k: nat)
    requires k < |s.children|
    requires s.children[k].name !in {"start", "end", "width", "angle", "layers", "uuid"}
    ensures ReadLine(codec, s).None?
  {
    FoldFails(DefaultLine(), s.children, LineStep(codec), k);
  }

  // ---------------------------------------------------------------------
  // GraphicPolygon: `(gr_poly (pts ..) [(width w)] [(layers ..)] [(fill f)] [(uuid u)])`
  // ---------------------------------------------------------------------

  datatype GraphicPolygon = GraphicPolygon(points: seq<Scalar2D>, layer: Option<PcbLayer>, width: Option<Num>,
                                           fill: Option<bool>, uuid: Option<string>)

  function DefaultPolygon(): GraphicPolygon { GraphicPolygon([], None, None, None, None) }

  function WritePolygon(codec: LayerCodec, g: GraphicPolygon): SyntaxItem
  {
    SyntaxItem("gr_poly", [],
      [PointsNode(g.points)] + Optional(NumberChild("width", g.width)) + Optional(LayerNode(codec, g.layer))
      + Optional(FillNode(g.fill)) + Optional(UuidNode(g.uuid)))
  }

  /** One child of `gr_poly`. */
  function PolygonChild(codec: LayerCodec, g: GraphicPolygon, c: SyntaxItem): Option<GraphicPolygon>
  {
    match c.name
    case "pts" => var ps :- ReadPoints(c.children); Some(g.(points := ps))
    case "width" => var w :- NumberAt(c, 0); Some(g.(width := Some(w)))
    case "layers" => var l :- codec.read(c); Some(g.(layer := Some(l)))
    case "fill" => var t :- StringAt(c, 0); Some(g.(fill := Some(PolygonFilled(t))))
    case "uuid" => var u :- StringAt(c, 0); Some(g.(uuid := Some(u)))
    case _ => None
  }

  function PolygonStep(codec: LayerCodec): (GraphicPolygon, SyntaxItem) -> Option<GraphicPolygon>
  {
    (g: GraphicPolygon, c: SyntaxItem) => PolygonChild(codec, g, c)
  }

  /** `GraphicPolygon::deserialize` as a function. */
  function ReadPolygon(codec: LayerCodec, s: SyntaxItem): Option<GraphicPolygon>
  {
    Fold(DefaultPolygon(), s.children, PolygonStep(codec))
  }

  /** `GraphicPolygon::deserialize`: the loop over the children. */
  method DeserializePolygon(codec: LayerCodec, syntax: SyntaxItem) returns (r: Option<GraphicPolygon>)
    ensures r == ReadPolygon(codec, syntax)
  {
    var poly := DefaultPolygon();
    var i := 0;
    assert syntax.children[0..] == syntax.children;
    while i < |syntax.children|
      invariant i <= |syntax.children|
      invariant ReadPolygon(codec, syntax) == Fold(poly, syntax.children[i..], PolygonStep(codec))
    {
      FoldAdvance(poly, syntax.children, i, PolygonStep(codec));
      var child := syntax.children[i];
      match child.name {
        case "pts" =>
          var ps := ReadPoints(child.children);
          if ps.None? { return None; }
          poly := poly.(points := ps.value);
        case "width" =>
          var w := NumberAt(child, 0);
          if w.None? { return None; }
          poly := poly.(width := Some(w.value));
        case "layers" =>
          var l := codec.read(child);
          if l.None? { return None; }
          poly := poly.(layer := Some(l.value));
        case "fill" =>
          var t := StringAt(child, 0);
          if t.None? { return None; }
          poly := poly.(fill := Some(t.value == "solid" || t.value == "yes"));
        case "uuid" =>
          var u := StringAt(child, 0);
          if u.None? { return None; }
          poly := poly.(uuid := Some(u.value));
        case _ =>
          return None;
      }
      i := i + 1;
    }
    return Some(poly);
  }

  /** A polygon is read back from its written form, its points in the same order. */
  lemma PolygonRoundTrip(codec: LayerCodec, g: GraphicPolygon)
    requires Lawful(codec)
    ensures WritePolygon(codec, g).name == "gr_poly"
    ensures ReadPolygon(codec, WritePolygon(codec, g)) == Some(g)
  {
    var step := PolygonStep(codec);
    PointsRoundTrip(g.points);
    var g1 := DefaultPolygon().(points := g.points);
    assert Fold(DefaultPolygon(), [PointsNode(g.points)], step) == Some(g1) by {
      FoldOptional(DefaultPolygon(), Some(PointsNode(g.points)), step);
    }
    var g2 := g1.(width := g.width);
    FoldOptional(g1, NumberChild("width", g.width), step);
    var g3 := g2.(layer := g.layer);
    FoldOptional(g2, LayerNode(codec, g.layer), step);
    var g4 := g3.(fill := g.fill);
    FoldOptional(g3, FillNode(g.fill), step);
    FoldOptional(g4, UuidNode(g.uuid), step);
    FoldJoin5(DefaultPolygon(), [PointsNode(g.points)], Optional(NumberChild("width", g.width)),
              Optional(LayerNode(codec, g.layer)), Optional(FillNode(g.fill)), Optional(UuidNode(g.uuid)), step,
              g1, g2, g3, g4, g);
  }

  /** Each child sets the optional field of its own name and leaves the others as they were. */
  lemma PolygonChildFields(codec: LayerCodec, g: GraphicPolygon, c: SyntaxItem)
    requires PolygonChild(codec, g, c).Some?
    ensures PolygonChild(codec, g, c).value.width.Some? == (c.name == "width" || g.width.Some?)
    ensures PolygonChild(codec, g, c).value.layer.Some? == (c.name == "layers" || g.layer.Some?)
    ensures PolygonChild(codec, g, c).value.fill.Some? == (c.name == "fill" || g.fill.Some?)
    ensures PolygonChild(codec, g, c).value.uuid.Some? == (c.name == "uuid" || g.uuid.Some?)
  {
  }

  /** The optional fields of a polygon that was read are present exactly when their child is. */
  lemma PolygonOptionalFields(codec: LayerCodec, s: SyntaxItem)
    requires ReadPolygon(codec, s).Some?
    ensures ReadPolygon(codec, s).value.width.Some? <==> GetNamedChild(s, "width").Some?
    ensures ReadPolygon(codec, s).value.layer.Some? <==> GetNamedChild(s, "layers").Some?
    ensures ReadPolygon(codec, s).value.fill.Some? <==> GetNamedChild(s, "fill").Some?
    ensures ReadPolygon(codec, s).value.uuid.Some? <==> GetNamedChild(s, "uuid").Some?
  {
    var step := PolygonStep(codec);
    forall g: GraphicPolygon, c: SyntaxItem | step(g, c).Some?
      ensures step(g, c).value.width.Some? == (c.name == "width" || g.width.Some?)
      ensures step(g, c).value.layer.Some? == (c.name == "layers" || g.layer.Some?)
      ensures step(g, c).value.fill.Some? == (c.name == "fill" || g.fill.Some?)
      ensures step(g, c).value.uuid.Some? == (c.name == "uuid" || g.uuid.Some?)
    {
      PolygonChildFields(codec, g, c);
    }
    FoldPresence(DefaultPolygon(), s.children, step, (g: GraphicPolygon) => g.width.Some?, (c: SyntaxItem) => c.name == "width");
    FoldPresence(DefaultPolygon(), s.children, step, (g: GraphicPolygon) => g.layer.Some?, (c: SyntaxItem) => c.name == "layers");
    FoldPresence(DefaultPolygon(), s.children, step, (g: GraphicPolygon) => g.fill.Some?, (c: SyntaxItem) => c.name == "fill");
    FoldPresence(DefaultPolygon(), s.children, step, (g: GraphicPolygon) => g.uuid.Some?, (c: SyntaxItem) => c.name == "uuid");
  }

  /** A child outside `pts`, `width`, `layers`, `fill`, `uuid` is rejected. */
  lemma PolygonRejectsUnknown(codec: LayerCodec, s: SyntaxItem, k: nat)
    requires k < |s.children|
    requires s.children[k].name !in {"pts", "width", "layers", "fill", "uuid"}
    ensures ReadPolygon(codec, s).None?
  {
    FoldFails(DefaultPolygon(), s.children, PolygonStep(codec), k);
  }

  // ---------------------------------------------------------------------
  // GraphicRectangle: `(gr_rect (start ..) (end ..) (width w) [(layers ..)] [(fill f)] [(uuid u)])`
  // ---------------------------------------------------------------------

  datatype GraphicRectangle = GraphicRectangle(start: Scalar2D, end: Scalar2D, layer: Option<PcbLayer>, width: Num,
                                               fill: Option<bool>, uuid: Option<string>)

  function DefaultRectangle(): GraphicRectangle
  {
    GraphicRectangle(DefaultScalar2D(), DefaultScalar2D(), None, Finite(0.0), None, None)
  }

  function WriteRectangle(codec: LayerCodec, g: GraphicRectangle): SyntaxItem
  {
    SyntaxItem("gr_rect", [],
      [WriteScalar2D(g.start), WriteScalar2D(g.end), WidthNode(g.width)]
      + Optional(LayerNode(codec, g.layer)) + Optional(FillNode(g.fill)) + Optional(UuidNode(g.uuid)))
  }

  /** One child of `gr_rect`. */
  function RectangleChild(codec: LayerCodec, g: GraphicRectangle, c: SyntaxItem): Option<GraphicRectangle>
  {
    match c.name
    case "start" => var p :- ReadScalar2D(c); Some(g.(start := p))
    case "end" => var p :- ReadScalar2D(c); Some(g.(end := p))
    case "width" => var w :- NumberAt(c, 0); Some(g.(width := w))
    case "layers" => var l :- codec.read(c); Some(g.(layer := Some(l)))
    case "fill" => var t :- StringAt(c, 0); Some(g.(fill := Some(SolidFilled(t))))
    case "uuid" => var u :- StringAt(c, 0); Some(g.(uuid := Some(u)))
    case _ => None
  }

  function RectangleStep(codec: LayerCodec): (GraphicRectangle, SyntaxItem) -> Option<GraphicRectangle>
  {
    (g: GraphicRectangle, c: SyntaxItem) => RectangleChild(codec, g, c)
  }

  /** `GraphicRectangle::deserialize` as a function. */
  function ReadRectangle(codec: LayerCodec, s: SyntaxItem): Option<GraphicRectangle>
  {
    Fold(DefaultRectangle(), s.children, RectangleStep(codec))
  }

  /** `GraphicRectangle::deserialize`: the loop over the children. */
  method DeserializeRectangle(codec: LayerCodec, syntax: SyntaxItem) returns (r: Option<GraphicRectangle>)
    ensures r == ReadRectangle(codec, syntax)
  {
    var rect := DefaultRectangle();
    var i := 0;
    assert syntax.children[0..] == syntax.children;
    while i < |syntax.children|
      invariant i <= |syntax.children|
      invariant ReadRectangle(codec, syntax) == Fold(rect, syntax.children[i..], RectangleStep(codec))
    {
      FoldAdvance(rect, syntax.children, i, RectangleStep(codec));
      var child := syntax.children[i];
      match child.name {
        case "start" =>
          var p := ReadScalar2D(child);
          if p.None? { return None; }
          rect := rect.(start := p.value);
        case "end" =>
          var p := ReadScalar2D(child);
          if p.None? { return None; }
          rect := rect.(end := p.value);
        case "width" =>
          var w := NumberAt(child, 0);
          if w.None? { return None; }
          rect := rect.(width := w.value);
        case "layers" =>
          var l := codec.read(child);
          if l.None? { return None; }
          rect := rect.(layer := Some(l.value));
        case "fill" =>
          var t := StringAt(child, 0);
          if t.None? { return None; }
          rect := rect.(fill := Some(t.value == "solid"));
        case "uuid" =>
          var u := StringAt(child, 0);
          if u.None? { return None; }
          rect := rect.(uuid := Some(u.value));
        case _ =>
          return None;
      }
      i := i + 1;
    }
    return Some(rect);
  }

  /** A rectangle whose corners carry their own node names is read back from its written form. */
  lemma RectangleRoundTrip(codec: LayerCodec, g: GraphicRectangle)
    requires Lawful(codec)
    requires g.start.name == "start" && g.end.name == "end"
    ensures WriteRectangle(codec, g).name == "gr_rect"
    ensures ReadRectangle(codec, WriteRectangle(codec, g)) == Some(g)
  {
    var step := RectangleStep(codec);
    var head := [WriteScalar2D(g.start), WriteScalar2D(g.end), WidthNode(g.width)];
    var g1 := DefaultRectangle().(start := g.start);
    var g2 := g1.(end := g.end);
    var g3 := g2.(width := g.width);
    assert step(DefaultRectangle(), WriteScalar2D(g.start)) == Some(g1);
    assert step(g1, WriteScalar2D(g.end)) == Some(g2);
    assert step(g2, WidthNode(g.width)) == Some(g3);
    FoldThree(DefaultRectangle(), WriteScalar2D(g.start), WriteScalar2D(g.end), WidthNode(g.width), step, g1, g2, g3);
    var g4 := g3.(layer := g.layer);
    FoldOptional(g3, LayerNode(codec, g.layer), step);
    var g5 := g4.(fill := g.fill);
    FoldOptional(g4, FillNode(g.fill), step);
    FoldOptional(g5, UuidNode(g.uuid), step);
    FoldJoin(DefaultRectangle(), head, Optional(LayerNode(codec, g.layer)), step, g3, g4);
    FoldJoin(DefaultRectangle(), head + Optional(LayerNode(codec, g.layer)), Optional(FillNode(g.fill)), step, g4, g5);
    FoldJoin(DefaultRectangle(), head + Optional(LayerNode(codec, g.layer)) + Optional(FillNode(g.fill)),
             Optional(UuidNode(g.uuid)), step, g5, g);
  }

  /** A child outside `start`, `end`, `width`, `layers`, `fill`, `uuid` is rejected. */
  lemma RectangleRejectsUnknown(codec: LayerCodec, s: SyntaxItem, k: nat)
    requires k < |s.children|
    requires s.children[k].name !in {"start", "end", "width", "layers", "fill", "uuid"}
    ensures ReadRectangle(codec, s).None?
  {
    FoldFails(DefaultRectangle(), s.children, RectangleStep(codec), k);
  }

  // ---------------------------------------------------------------------
  // GraphicCircle: `(gr_circle (center ..) (end ..) (width w) [(layers ..)] [(fill f)] [(uuid u)])`
  // ---------------------------------------------------------------------

  datatype GraphicCircle = GraphicCircle(center: Scalar2D, end: Scalar2D, layer: Option<PcbLayer>, width: Num,
                                         fill: Option<bool>, uuid: Option<string>)

  function DefaultCircle(): GraphicCircle
  {
    GraphicCircle(DefaultScalar2D(), DefaultScalar2D(), None, Finite(0.0), None, None)
  }

  function WriteCircle(codec: LayerCodec, g: GraphicCircle): SyntaxItem
  {
    SyntaxItem("gr_circle", [],
      [WriteScalar2D(g.center), WriteScalar2D(g.end), WidthNode(g.width)]
      + Optional(LayerNode(codec, g.layer)) + Optional(FillNode(g.fill)) + Optional(UuidNode(g.uuid)))
  }

  /** One child of `gr_circle`. */
  function CircleChild(codec: LayerCodec, g: GraphicCircle, c: SyntaxItem): Option<GraphicCircle>
  {
    match c.name
    case "center" => var p :- ReadScalar2D(c); Some(g.(center := p))
    case "end" => var p :- ReadScalar2D(c); Some(g.(end := p))
    case "width" => var w :- NumberAt(c, 0); Some(g.(width := w))
    case "layers" => var l :- codec.read(c); Some(g.(layer := Some(l)))
    case "fill" => var t :- StringAt(c, 0); Some(g.(fill := Some(SolidFilled(t))))
    case "uuid" => var u :- StringAt(c, 0); Some(g.(uuid := Some(u)))
    case _ => None
  }

  function CircleStep(codec: LayerCodec): (GraphicCircle, SyntaxItem) -> Option<GraphicCircle>
  {
    (g: GraphicCircle, c: SyntaxItem) => CircleChild(codec, g, c)
  }

  /** `GraphicCircle::deserialize` as a function. */
  function ReadCircle(codec: LayerCodec, s: SyntaxItem): Option<GraphicCircle>
  {
    Fold(DefaultCircle(), s.children, CircleStep(codec))
  }

  /** `GraphicCircle::deserialize`: the loop over the children. */
  method DeserializeCircle(codec: LayerCodec, syntax: SyntaxItem) returns (r: Option<GraphicCircle>)
    ensures r == ReadCircle(codec, syntax)
  {
    var circle := DefaultCircle();
    var i := 0;
    assert syntax.children[0..] == syntax.children;
    while i < |syntax.children|
      invariant i <= |syntax.children|
      invariant ReadCircle(codec, syntax) == Fold(circle, syntax.children[i..], CircleStep(codec))
    {
      FoldAdvance(circle, syntax.children, i, CircleStep(codec));
      var child := syntax.children[i];
      match child.name {
        case "center" =>
          var p := ReadScalar2D(child);
          if p.None? { return None; }
          circle := circle.(center := p.value);
        case "end" =>
          var p := ReadScalar2D(child);
          if p.None? { return None; }
          circle := circle.(end := p.value);
        case "width" =>
          var w := NumberAt(child, 0);
          if w.None? { return None; }
          circle := circle.(width := w.value);
        case "layers" =>
          var l := codec.read(child);
          if l.None? { return None; }
          circle := circle.(layer := Some(l.value));
        case "fill" =>
          var t := StringAt(child, 0);
          if t.None? { return None; }
          circle := circle.(fill := Some(t.value == "solid"));
        case "uuid" =>
          var u := StringAt(child, 0);
          if u.None? { return None; }
          circle := circle.(uuid := Some(u.value));
        case _ =>
          return None;
      }
      i := i + 1;
    }
    return Some(circle);
  }

  /** A circle whose points carry their own node names is read back from its written form. */
  lemma CircleRoundTrip(codec: LayerCodec, g: GraphicCircle)
    requires Lawful(codec)
    requires g.center.name == "center" && g.end.name == "end"
    ensures WriteCircle(codec, g).name == "gr_circle"
    ensures ReadCircle(codec, WriteCircle(codec, g)) == Some(g)
  {
    var step := CircleStep(codec);
    var head := [WriteScalar2D(g.center), WriteScalar2D(g.end), WidthNode(g.width)];
    var g1 := DefaultCircle().(center := g.center);
    var g2 := g1.(end := g.end);
    var g3 := g2.(width := g.width);
    assert step(DefaultCircle(), WriteScalar2D(g.center)) == Some(g1);
    assert step(g1, WriteScalar2D(g.end)) == Some(g2);
    assert step(g2, WidthNode(g.width)) == Some(g3);
    FoldThree(DefaultCircle(), WriteScalar2D(g.center), WriteScalar2D(g.end), WidthNode(g.width), step, g1, g2, g3);
    var g4 := g3.(layer := g.layer);
    FoldOptional(g3, LayerNode(codec, g.layer), step);
    var g5 := g4.(fill := g.fill);
    FoldOptional(g4, FillNode(g.fill), step);
    FoldOptional(g5, UuidNode(g.uuid), step);
    FoldJoin(DefaultCircle(), head, Optional(LayerNode(codec, g.layer)), step, g3, g4);
    FoldJoin(DefaultCircle(), head + Optional(LayerNode(codec, g.layer)), Optional(FillNode(g.fill)), step, g4, g5);
    FoldJoin(DefaultCircle(), head + Optional(LayerNode(codec, g.layer)) + Optional(FillNode(g.fill)),
             Optional(UuidNode(g.uuid)), step, g5, g);
  }

  /** A child outside `center`, `end`, `width`, `layers`, `fill`, `uuid` is rejected. */
  lemma CircleRejectsUnknown(codec: LayerCodec, s: SyntaxItem, k: nat)
    requires k < |s.children|
    requires s.children[k].name !in {"center", "end", "width", "layers", "fill", "uuid"}
    ensures ReadCircle(codec, s).None?
  {
    FoldFails(DefaultCircle(), s.children, CircleStep(codec), k);
  }

  // ---------------------------------------------------------------------
  // GraphicArc: `(gr_arc (start ..) (mid ..) (end ..) (width w) [(layers ..)] [(uuid u)])`
  // ---------------------------------------------------------------------

  datatype GraphicArc = GraphicArc(start: Scalar2D, mid: Scalar2D, end: Scalar2D, layer: Option<PcbLayer>, width: Num,
                                   uuid: Option<string>)

  function DefaultArc(): GraphicArc
  {
    GraphicArc(DefaultScalar2D(), DefaultScalar2D(), DefaultScalar2D(), None, Finite(0.0), None)
  }

  function WriteArc(codec: LayerCodec, g: GraphicArc): SyntaxItem
  {
    SyntaxItem("gr_arc", [],
      [WriteScalar2D(g.start), WriteScalar2D(g.mid), WriteScalar2D(g.end), WidthNode(g.width)]
      + Optional(LayerNode(codec, g.layer)) + Optional(UuidNode(g.uuid)))
  }

  /** One child of `gr_arc`. */
  function ArcChild(codec: LayerCodec, g: GraphicArc, c: SyntaxItem): Option<GraphicArc>
  {
    match c.name
    case "start" => var p :- ReadScalar2D(c); Some(g.(start := p))
    case "mid" => var p :- ReadScalar2D(c); Some(g.(mid := p))
    case "end" => var p :- ReadScalar2D(c); Some(g.(end := p))
    case "width" => var w :- NumberAt(c, 0); Some(g.(width := w))
    case "layers" => var l :- codec.read(c); Some(g.(layer := Some(l)))
    case "uuid" => var u :- StringAt(c, 0); Some(g.(uuid := Some(u)))
    case _ => None
  }

  function ArcStep(codec: LayerCodec): (GraphicArc, SyntaxItem) -> Option<GraphicArc>
  {
    (g: GraphicArc, c: SyntaxItem) => ArcChild(codec, g, c)
  }

  /** `GraphicArc::deserialize` as a function. */
  function ReadArc(codec: LayerCodec, s: SyntaxItem): Option<GraphicArc>
  {
    Fold(DefaultArc(), s.children, ArcStep(codec))
  }

  /** `GraphicArc::deserialize`: the loop over the children. */
  method DeserializeArc(codec: LayerCodec, syntax: SyntaxItem) returns (r: Option<GraphicArc>)
    ensures r == ReadArc(codec, syntax)
  {
    var arc := DefaultArc();
    var i := 0;
    assert syntax.children[0..] == syntax.children;
    while i < |syntax.children|
      invariant i <= |syntax.children|
      invariant ReadArc(codec, syntax) == Fold(arc, syntax.children[i..], ArcStep(codec))
    {
      FoldAdvance(arc, syntax.children, i, ArcStep(codec));
      var child := syntax.children[i];
      match child.name {
        case "start" =>
          var p := ReadScalar2D(child);
          if p.None? { return None; }
          arc := arc.(start := p.value);
        case "mid" =>
          var p := ReadScalar2D(child);
          if p.None? { return None; }
          arc := arc.(mid := p.value);
        case "end" =>
          var p := ReadScalar2D(child);
          if p.None? { return None; }
          arc := arc.(end := p.value);
        case "width" =>
          var w := NumberAt(child, 0);
          if w.None? { return None; }
          arc := arc.(width := w.value);
        case "layers" =>
          var l := codec.read(child);
          if l.None? { return None; }
          arc := arc.(layer := Some(l.value));
        case "uuid" =>
          var u := StringAt(child, 0);
          if u.None? { return None; }
          arc := arc.(uuid := Some(u.value));
        case _ =>
          return None;
      }
      i := i + 1;
    }
    return Some(arc);
  }

  /** An arc whose three points carry their own node names is read back from its written form. */
  lemma ArcRoundTrip(codec: LayerCodec, g: GraphicArc)
    requires Lawful(codec)
    requires g.start.name == "start" && g.mid.name == "mid" && g.end.name == "end"
    ensures WriteArc(codec, g).name == "gr_arc"
    ensures ReadArc(codec, WriteArc(codec, g)) == Some(g)
  {
    var step := ArcStep(codec);
    var head := [WriteScalar2D(g.start), WriteScalar2D(g.mid), WriteScalar2D(g.end), WidthNode(g.width)];
    var g1 := DefaultArc().(start := g.start);
    var g2 := g1.(mid := g.mid);
    var g3 := g2.(end := g.end);
    var g4 := g3.(width := g.width);
    assert step(DefaultArc(), WriteScalar2D(g.start)) == Some(g1);
    assert step(g1, WriteScalar2D(g.mid)) == Some(g2);
    assert step(g2, WriteScalar2D(g.end)) == Some(g3);
    assert step(g3, WidthNode(g.width)) == Some(g4);
    FoldFour(DefaultArc(), WriteScalar2D(g.start), WriteScalar2D(g.mid), WriteScalar2D(g.end), WidthNode(g.width), step,
             g1, g2, g3, g4);
    var g5 := g4.(layer := g.layer);
    FoldOptional(g4, LayerNode(codec, g.layer), step);
    FoldOptional(g5, UuidNode(g.uuid), step);
    FoldJoin(DefaultArc(), head, Optional(LayerNode(codec, g.layer)), step, g4, g5);
    FoldJoin(DefaultArc(), head + Optional(LayerNode(codec, g.layer)), Optional(UuidNode(g.uuid)), step, g5, g);
  }

  /** A child outside `start`, `mid`, `end`, `width`, `layers`, `uuid` is rejected. */
  lemma ArcRejectsUnknown(codec: LayerCodec, s: SyntaxItem, k: nat)
    requires k < |s.children|
    requires s.children[k].name !in {"start", "mid", "end", "width", "layers", "uuid"}
    ensures ReadArc(codec, s).None?
  {
    FoldFails(DefaultArc(), s.children, ArcStep(codec), k);
  }

  // ---------------------------------------------------------------------
  // GraphicCurve: `(bezier (pts ..) (width w) [(layers ..)] [(uuid u)])`
  // ---------------------------------------------------------------------

  datatype GraphicCurve = GraphicCurve(points: seq<Scalar2D>, layer: Option<PcbLayer>, width: Num, uuid: Option<string>)

  function DefaultCurve(): GraphicCurve { GraphicCurve([], None, Finite(0.0), None) }

  function WriteCurve(codec: LayerCodec, g: GraphicCurve): SyntaxItem
  {
    SyntaxItem("bezier", [],
      [PointsNode(g.points), WidthNode(g.width)] + Optional(LayerNode(codec, g.layer)) + Optional(UuidNode(g.uuid)))
  }

  /** One child of `bezier`. */
  function CurveChild(codec: LayerCodec, g: GraphicCurve, c: SyntaxItem): Option<GraphicCurve>
  {
    match c.name
    case "pts" => var ps :- ReadPoints(c.children); Some(g.(points := ps))
    case "width" => var w :- NumberAt(c, 0); Some(g.(width := w))
    case "layers" => var l :- codec.read(c); Some(g.(layer := Some(l)))
    case "uuid" => var u :- StringAt(c, 0); Some(g.(uuid := Some(u)))
    case _ => None
  }

  function CurveStep(codec: LayerCodec): (GraphicCurve, SyntaxItem) -> Option<GraphicCurve>
  {
    (g: GraphicCurve, c: SyntaxItem) => CurveChild(codec, g, c)
  }

  /** `GraphicCurve::deserialize` as a function. */
  function ReadCurve(codec: LayerCodec, s: SyntaxItem): Option<GraphicCurve>
  {
    Fold(DefaultCurve(), s.children, CurveStep(codec))
  }

  /** `GraphicCurve::deserialize`: the loop over the children. */
  method DeserializeCurve(codec: LayerCodec, syntax: SyntaxItem) returns (r: Option<GraphicCurve>)
    ensures r == ReadCurve(codec, syntax)
  {
    var curve := DefaultCurve();
    var i := 0;
    assert syntax.children[0..] == syntax.children;
    while i < |syntax.children|
      invariant i <= |syntax.children|
      invariant ReadCurve(codec, syntax) == Fold(curve, syntax.children[i..], CurveStep(codec))
    {
      FoldAdvance(curve, syntax.children, i, CurveStep(codec));
      var child := syntax.children[i];
      match child.name {
        case "pts" =>
          var ps := ReadPoints(child.children);
          if ps.None? { return None; }
          curve := curve.(points := ps.value);
        case "width" =>
          var w := NumberAt(child, 0);
          if w.None? { return None; }
          curve := curve.(width := w.value);
        case "layers" =>
          var l := codec.read(child);
          if l.None? { return None; }
          curve := curve.(layer := Some(l.value));
        case "uuid" =>
          var u := StringAt(child, 0);
          if u.None? { return None; }
          curve := curve.(uuid := Some(u.value));
        case _ =>
          return None;
      }
      i := i + 1;
    }
    return Some(curve);
  }

  /** A curve is read back from its written form, its control points in the same order. */
  lemma CurveRoundTrip(codec: LayerCodec, g: GraphicCurve)
    requires Lawful(codec)
    ensures WriteCurve(codec, g).name == "bezier"
    ensures ReadCurve(codec, WriteCurve(codec, g)) == Some(g)
  {
    var step := CurveStep(codec);
    PointsRoundTrip(g.points);
    var head := [PointsNode(g.points), WidthNode(g.width)];
    var g1 := DefaultCurve().(points := g.points);
    var g2 := g1.(width := g.width);
    assert step(DefaultCurve(), PointsNode(g.points)) == Some(g1);
    assert step(g1, WidthNode(g.width)) == Some(g2);
    FoldTwo(DefaultCurve(), PointsNode(g.points), WidthNode(g.width), step, g1, g2);
    var g3 := g2.(layer := g.layer);
    FoldOptional(g2, LayerNode(codec, g.layer), step);
    FoldOptional(g3, UuidNode(g.uuid), step);
    FoldJoin(DefaultCurve(), head, Optional(LayerNode(codec, g.layer)), step, g2, g3);
    FoldJoin(DefaultCurve(), head + Optional(LayerNode(codec, g.layer)), Optional(UuidNode(g.uuid)), step, g3, g);
  }

  /** A child outside `pts`, `width`, `layers`, `uuid` is rejected. */
  lemma CurveRejectsUnknown(codec: LayerCodec, s: SyntaxItem, k: nat)
    requires k < |s.children|
    requires s.children[k].name !in {"pts", "width", "layers", "uuid"}
    ensures ReadCurve(codec, s).None?
  {
    FoldFails(DefaultCurve(), s.children, CurveStep(codec), k);
  }

  // ---------------------------------------------------------------------
  // GraphicAnnotationBox: `(gr_bbox (start ..) (end ..))`
  // ---------------------------------------------------------------------

  datatype GraphicAnnotationBox = GraphicAnnotationBox(start: Scalar2D, end: Scalar2D)

  function DefaultAnnotationBox(): GraphicAnnotationBox { GraphicAnnotationBox(DefaultScalar2D(), DefaultScalar2D()) }

  function WriteAnnotationBox(g: GraphicAnnotationBox): SyntaxItem
  {
    SyntaxItem("gr_bbox", [], [WriteScalar2D(g.start), WriteScalar2D(g.end)])
  }

  /** One child of `gr_bbox`. */
  function AnnotationBoxChild(g: GraphicAnnotationBox, c: SyntaxItem): Option<GraphicAnnotationBox>
  {
    match c.name
    case "start" => var p :- ReadScalar2D(c); Some(g.(start := p))
    case "end" => var p :- ReadScalar2D(c); Some(g.(end := p))
    case _ => None
  }

  function AnnotationBoxStep(): (GraphicAnnotationBox, SyntaxItem) -> Option<GraphicAnnotationBox>
  {
    (g: GraphicAnnotationBox, c: SyntaxItem) => AnnotationBoxChild(g, c)
  }

  /** `GraphicAnnotationBox::deserialize` as a function. */
  function ReadAnnotationBox(s: SyntaxItem): Option<GraphicAnnotationBox>
  {
    Fold(DefaultAnnotationBox(), s.children, AnnotationBoxStep())
  }

  /** `GraphicAnnotationBox::deserialize`: the loop over the children. */
  method DeserializeAnnotationBox(syntax: SyntaxItem) returns (r: Option<GraphicAnnotationBox>)
    ensures r == ReadAnnotationBox(syntax)
  {
    var box := DefaultAnnotationBox();
    var i := 0;
    assert syntax.children[0..] == syntax.children;
    while i < |syntax.children|
      invariant i <= |syntax.children|
      invariant ReadAnnotationBox(syntax) == Fold(box, syntax.children[i..], AnnotationBoxStep())
    {
      FoldAdvance(box, syntax.children, i, AnnotationBoxStep());
      var child := syntax.children[i];
      match child.name {
        case "start" =>
          var p := ReadScalar2D(child);
          if p.None? { return None; }
          box := box.(start := p.value);
        case "end" =>
          var p := ReadScalar2D(child);
          if p.None? { return None; }
          box := box.(end := p.value);
        case _ =>
          return None;
      }
      i := i + 1;
    }
    return Some(box);
  }

  /** A box whose corners carry their own node names is read back from its written form. */
  lemma AnnotationBoxRoundTrip(g: GraphicAnnotationBox)
    requires g.start.name == "start" && g.end.name == "end"
    ensures WriteAnnotationBox(g).name == "gr_bbox"
    ensures ReadAnnotationBox(WriteAnnotationBox(g)) == Some(g)
  {
    var step := AnnotationBoxStep();
    var g1 := DefaultAnnotationBox().(start := g.start);
    assert step(DefaultAnnotationBox(), WriteScalar2D(g.start)) == Some(g1);
    assert step(g1, WriteScalar2D(g.end)) == Some(g);
    FoldTwo(DefaultAnnotationBox(), WriteScalar2D(g.start), WriteScalar2D(g.end), step, g1, g);
  }

  /** A child other than `start` and `end` is rejected. */
  lemma AnnotationBoxRejectsUnknown(s: SyntaxItem, k: nat)
    requires k < |s.children|
    requires s.children[k].name != "start" && s.children[k].name != "end"
    ensures ReadAnnotationBox(s).None?
  {
    FoldFails(DefaultAnnotationBox(), s.children, AnnotationBoxStep(), k);
  }

  // ---------------------------------------------------------------------
  // Fill spellings and point names
  // ---------------------------------------------------------------------

  /** A node whose only child is `(fill text)`. */
  function FillOnly(name: string, text: string): SyntaxItem
  {
    SyntaxItem(name, [], [FromSingleArgument("fill", Identifier(text, Neutral))])
  }

  /**
   * A polygon reads `yes` as filled, a rectangle and a circle read it as
   * unfilled; every other word reads the same for all three, and the words
   * they write (`solid`, `none`) read back as written.
   */
  lemma FillSpellings(codec: LayerCodec, text: string)
    ensures ReadPolygon(codec, FillOnly("gr_poly", text)) == Some(DefaultPolygon().(fill := Some(text == "solid" || text == "yes")))
    ensures ReadRectangle(codec, FillOnly("gr_rect", text)) == Some(DefaultRectangle().(fill := Some(text == "solid")))
    ensures ReadCircle(codec, FillOnly("gr_circle", text)) == Some(DefaultCircle().(fill := Some(text == "solid")))
  {
    var node := FromSingleArgument("fill", Identifier(text, Neutral));
    FoldOne(DefaultPolygon(), node, PolygonStep(codec));
    FoldOne(DefaultRectangle(), node, RectangleStep(codec));
    FoldOne(DefaultCircle(), node, CircleStep(codec));
  }

  /**
   * The name of an end point is part of what is written: a line whose start
   * point is not named `start` is written with a child its reader rejects.
   */
  lemma MisnamedPointRejected(codec: LayerCodec, g: GraphicLine)
    requires g.start.name !in {"start", "end", "width", "angle", "layers", "uuid"}
    ensures ReadLine(codec, WriteLine(codec, g)).None?
  {
    LineRejectsUnknown(codec, WriteLine(codec, g), 0);
  }
}

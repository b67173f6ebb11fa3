/**
 * The `fp_rect` element of `src/kicad/model/footprint_library.rs`
 * (`FootprintRectangle`): two corner points, each written under its own
 * name, a layer, an optional line width, uuid, fill and stroke, and a lock
 * flag.
 */
module FootprintRectangles {
  import opened Wrappers
  import opened Numbers
  import opened Syntax
  import opened Folding
  import opened Common
  import opened Scalars
  import opened PcbLayers

  datatype FootprintRectangle = FootprintRectangle(start: Scalar2D, end: Scalar2D, layer: PcbLayer, width: Option<Num>,
                                                   stroke: Option<StrokeDefinition>, fill: Option<bool>,
                                                   uuid: Option<string>, locked: bool)

  function StrokeNode(d: Option<StrokeDefinition>): Option<SyntaxItem>
  {
    if d.Some? then Some(WriteStroke(d.value)) else None
  }

  /**
   * `FootprintRectangle::serialize`: both points under their own names, the
   * layer, then width, uuid, fill (`yes` or `no`) and stroke when set. The
   * lock flag is not written.
   */
  function WriteRectangle(r: FootprintRectangle): SyntaxItem
  {
    SyntaxItem("fp_rect", [],
      [WriteScalar2D(r.start), WriteScalar2D(r.end), WriteLayerNode(r.layer)]
      + Optional(NumberChild("width", r.width)) + Optional(QuotedNode("uuid", r.uuid)) + Optional(FlagNode("fill", r.fill))
      + Optional(StrokeNode(r.stroke)))
  }

  /** The stroke read ahead of the loop from the first `stroke` child, if there is one. */
  function ReadOptionalStroke(c: Option<SyntaxItem>): Option<Option<StrokeDefinition>>
  {
    match c
    case None => Some(None)
    case Some(s) => var d :- ReadStroke(s); Some(Some(d))
  }

  /** The uuid read ahead of the loop from the first `uuid` child, whose first argument must exist. */
  function ReadOptionalUuid(c: Option<SyntaxItem>): Option<Option<string>>
  {
    match c
    case None => Some(None)
    case Some(s) => var u :- StringAt(s, 0); Some(Some(u))
  }

  /**
   * The rectangle the reader starts from: layer `F.Cu`, both points the
   * default, no width or fill; the stroke, the uuid and the lock flag are
   * taken from the first child of that name.
   */
  function InitialRectangle(s: SyntaxItem): Option<FootprintRectangle>
  {
    var stroke :- ReadOptionalStroke(GetNamedChild(s, "stroke"));
    var uuid :- ReadOptionalUuid(GetNamedChild(s, "uuid"));
    Some(FootprintRectangle(DefaultScalar2D(), DefaultScalar2D(), FCu, None, stroke, None, uuid,
                            GetNamedChild(s, "locked").Some?))
  }

  /** `fill` is set by the word `yes` or `filled`; a `fill` node without an argument clears it. */
  function FillOf(c: SyntaxItem): Option<bool>
  {
    if |c.arguments| == 0 then None
    else Some(GetString(c.arguments[0]) == "yes" || GetString(c.arguments[0]) == "filled")
  }

  /** One child of `fp_rect`. None is a panic of the source: an unknown name or a child that does not read. */
  function RectangleChild(r: FootprintRectangle, c: SyntaxItem): Option<FootprintRectangle>
  {
    match c.name
    case "layer" => var l :- ReadLayerNode(c); Some(r.(layer := l))
    case "start" => var p :- ReadScalar2D(c); Some(r.(start := p))
    case "end" => var p :- ReadScalar2D(c); Some(r.(end := p))
    case "width" => var w :- NumberAt(c, 0); Some(r.(width := Some(w)))
    case "stroke" => var d :- ReadStroke(c); Some(r.(stroke := Some(d)))
    case "fill" => Some(r.(fill := FillOf(c)))
    case "locked" => Some(r.(locked := true))
    case "uuid" => Some(r.(uuid := if |c.arguments| == 0 then None else Some(GetString(c.arguments[0]))))
    case _ => None
  }

  function RectangleStep(): (FootprintRectangle, SyntaxItem) -> Option<FootprintRectangle>
  {
    (r: FootprintRectangle, c: SyntaxItem) => RectangleChild(r, c)
  }

  /** `FootprintRectangle::deserialize` as a function: the starting rectangle, then every child in order. */
  function ReadRectangle(s: SyntaxItem): Option<FootprintRectangle>
  {
    var r0 :- InitialRectangle(s);
    Fold(r0, s.children, RectangleStep())
  }

  /** `FootprintRectangle::deserialize`: the loop over the children. */
  method DeserializeRectangle(syntax: SyntaxItem) returns (r: Option<FootprintRectangle>)
    ensures r == ReadRectangle(syntax)
  {
    var initial := InitialRectangle(syntax);
    if initial.None? {
      return None;
    }
    var rectangle := initial.value;
    var i := 0;
    assert syntax.children[0..] == syntax.children;
    while i < |syntax.children|
      invariant i <= |syntax.children|
      invariant ReadRectangle(syntax) == Fold(rectangle, syntax.children[i..], RectangleStep())
    {
      FoldAdvance(rectangle, syntax.children, i, RectangleStep());
      var next := RectangleChild(rectangle, syntax.children[i]);
      if next.None? {
        return None;
      }
      rectangle := next.value;
      i := i + 1;
    }
    return Some(rectangle);
  }

  // ---------------------------------------------------------------------
  // Reading the written rectangle back
  // ---------------------------------------------------------------------

  /** A child that no child in front of it shares its name with is the one found for that name. */
  lemma FirstOfName(item: SyntaxItem, front: seq<SyntaxItem>, x: SyntaxItem)
    requires |front| < |item.children| && item.children[..|front|] == front && item.children[|front|] == x
    requires forall c | c in front :: c.name != x.name
    ensures GetNamedChild(item, x.name) == Some(x)
  {
    var k := |front|;
    assert item.children[k] == x;
    forall j | 0 <= j < k
      ensures item.children[j].name != x.name
    {
      assert item.children[j] == front[j];
    }
    NamedChildAt(item, k);
  }

  /** The written rectangle's children, by names: the two points, then the named optional children. */
  lemma WrittenChildren(r: FootprintRectangle)
    requires r.start.name == "start" && r.end.name == "end"
    ensures var head := [WriteScalar2D(r.start), WriteScalar2D(r.end), WriteLayerNode(r.layer)]
                        + Optional(NumberChild("width", r.width));
            && (forall c | c in head :: c.name in {"start", "end", "layer", "width"})
            && WriteRectangle(r).children
               == head + Optional(QuotedNode("uuid", r.uuid)) + Optional(FlagNode("fill", r.fill)) + Optional(StrokeNode(r.stroke))
  {
  }

  lemma StrokeFound(r: FootprintRectangle)
    requires r.start.name == "start" && r.end.name == "end"
    ensures GetNamedChild(WriteRectangle(r), "stroke") == StrokeNode(r.stroke)
  {
    var w := WriteRectangle(r);
    var head := [WriteScalar2D(r.start), WriteScalar2D(r.end), WriteLayerNode(r.layer)]
                + Optional(NumberChild("width", r.width));
    var front := head + Optional(QuotedNode("uuid", r.uuid)) + Optional(FlagNode("fill", r.fill));
    WrittenChildren(r);
    assert forall c | c in front :: c.name != "stroke";
    if r.stroke.Some? {
      assert w.children == front + [WriteStroke(r.stroke.value)];
      FirstOfName(w, front, WriteStroke(r.stroke.value));
    } else {
      assert w.children == front;
    }
  }

  lemma UuidFound(r: FootprintRectangle)
    requires r.start.name == "start" && r.end.name == "end"
    ensures GetNamedChild(WriteRectangle(r), "uuid") == QuotedNode("uuid", r.uuid)
  {
    var w := WriteRectangle(r);
    var head := [WriteScalar2D(r.start), WriteScalar2D(r.end), WriteLayerNode(r.layer)]
                + Optional(NumberChild("width", r.width));
    var fill, stroke := Optional(FlagNode("fill", r.fill)), Optional(StrokeNode(r.stroke));
    WrittenChildren(r);
    if r.uuid.Some? {
      var u := QuotedNode("uuid", r.uuid).value;
      assert w.children == head + [u] + fill + stroke;
      assert w.children[..|head|] == head && w.children[|head|] == u;
      FirstOfName(w, head, u);
    } else {
      assert w.children == head + fill + stroke;
      assert forall c: SyntaxItem | c in fill + stroke :: c.name != "uuid";
    }
  }

  lemma LockedAbsent(r: FootprintRectangle)
    requires r.start.name == "start" && r.end.name == "end"
    ensures GetNamedChild(WriteRectangle(r), "locked").None?
  {
    WrittenChildren(r);
  }

  /** The rectangle the reader starts from on a written rectangle: its stroke and uuid, not locked. */
  lemma InitialOfWritten(r: FootprintRectangle)
    requires r.start.name == "start" && r.end.name == "end"
    ensures InitialRectangle(WriteRectangle(r))
         == Some(FootprintRectangle(DefaultScalar2D(), DefaultScalar2D(), FCu, None, r.stroke, None, r.uuid, false))
  {
    StrokeFound(r);
    UuidFound(r);
    LockedAbsent(r);
    if r.stroke.Some? {
      StrokeRoundTrip(r.stroke.value);
    }
  }

  /** The two points and the layer, read in order onto any rectangle. */
  lemma HeadRead(q: FootprintRectangle, r: FootprintRectangle)
    requires r.start.name == "start" && r.end.name == "end"
    ensures Fold(q, [WriteScalar2D(r.start), WriteScalar2D(r.end), WriteLayerNode(r.layer)], RectangleStep())
         == Some(q.(start := r.start, end := r.end, layer := r.layer))
  {
    var q1 := q.(start := r.start);
    var q2 := q1.(end := r.end);
    var q3 := q2.(layer := r.layer);
    LayerNodeRoundTrip(r.layer);
    Scalar2DRoundTrip(r.start);
    Scalar2DRoundTrip(r.end);
    assert RectangleChild(q, WriteScalar2D(r.start)) == Some(q1);
    assert RectangleChild(q1, WriteScalar2D(r.end)) == Some(q2);
    assert RectangleChild(q2, WriteLayerNode(r.layer)) == Some(q3);
    FoldThree(q, WriteScalar2D(r.start), WriteScalar2D(r.end), WriteLayerNode(r.layer), RectangleStep(), q1, q2, q3);
  }

  lemma WidthRead(q: FootprintRectangle, w: Option<Num>)
    requires q.width.None?
    ensures Fold(q, Optional(NumberChild("width", w)), RectangleStep()) == Some(q.(width := w))
  {
    FoldOptional(q, NumberChild("width", w), RectangleStep());
    if w.None? {
      assert q.(width := w) == q;
    }
  }

  /** The `uuid` child read again sets the uuid already taken ahead of the loop. */
  lemma UuidReread(q: FootprintRectangle, u: Option<string>)
    requires q.uuid == u
    ensures Fold(q, Optional(QuotedNode("uuid", u)), RectangleStep()) == Some(q)
  {
    FoldOptional(q, QuotedNode("uuid", u), RectangleStep());
  }

  lemma FillRead(q: FootprintRectangle, f: Option<bool>)
    requires q.fill.None?
    ensures Fold(q, Optional(FlagNode("fill", f)), RectangleStep()) == Some(q.(fill := f))
  {
    FoldOptional(q, FlagNode("fill", f), RectangleStep());
    if f.None? {
      assert q.(fill := f) == q;
    }
  }

  /** The `stroke` child read again sets the stroke already taken ahead of the loop. */
  lemma StrokeReread(q: FootprintRectangle, d: Option<StrokeDefinition>)
    requires q.stroke == d
    ensures Fold(q, Optional(StrokeNode(d)), RectangleStep()) == Some(q)
  {
    match d {
      case None =>
      case Some(v) => StrokeRoundTrip(v);
    }
    FoldOptional(q, StrokeNode(d), RectangleStep());
  }

  /**
   * A rectangle whose points carry the names `start` and `end` and that is
   * not locked reads back from its written form as itself.
   */
  lemma RectangleRoundTrip(r: FootprintRectangle)
    requires r.start.name == "start" && r.end.name == "end" && !r.locked
    ensures WriteRectangle(r).name == "fp_rect"
    ensures ReadRectangle(WriteRectangle(r)) == Some(r)
  {
    var step := RectangleStep();
    var head := [WriteScalar2D(r.start), WriteScalar2D(r.end), WriteLayerNode(r.layer)];
    var width := Optional(NumberChild("width", r.width));
    var uuid := Optional(QuotedNode("uuid", r.uuid));
    var fill := Optional(FlagNode("fill", r.fill));
    var stroke := Optional(StrokeNode(r.stroke));
    var q0 := FootprintRectangle(DefaultScalar2D(), DefaultScalar2D(), FCu, None, r.stroke, None, r.uuid, false);
    var q3 := q0.(start := r.start, end := r.end, layer := r.layer);
    var q4 := q3.(width := r.width);
    var q6 := q4.(fill := r.fill);
    InitialOfWritten(r);
    HeadRead(q0, r);
    WidthRead(q3, r.width);
    UuidReread(q4, r.uuid);
    FillRead(q4, r.fill);
    StrokeReread(q6, r.stroke);
    FoldJoin(q0, head, width, step, q3, q4);
    FoldJoin(q0, head + width, uuid, step, q4, q4);
    FoldJoin(q0, head + width + uuid, fill, step, q4, q6);
    FoldJoin(q0, head + width + uuid + fill, stroke, step, q6, q6);
    assert q6 == r;
  }

  /** A child named other than the reader's eight names is refused, whatever was read before it. */
  lemma UnknownChildRefused(c: SyntaxItem)
    requires c.name !in {"layer", "start", "end", "width", "stroke", "fill", "locked", "uuid"}
    ensures forall q: FootprintRectangle :: RectangleChild(q, c).None?
  {
  }

  /** A written rectangle whose first point is named other than the reader's names does not read. */
  lemma MislabelledStartUnreadable(r: FootprintRectangle)
    requires r.start.name !in {"layer", "start", "end", "width", "stroke", "fill", "locked", "uuid"}
    ensures ReadRectangle(WriteRectangle(r)).None?
  {
    var w := WriteRectangle(r);
    assert w.children[0] == WriteScalar2D(r.start);
    UnknownChildRefused(w.children[0]);
    if InitialRectangle(w).Some? {
      FoldFails(InitialRectangle(w).value, w.children, RectangleStep(), 0);
    }
  }
}

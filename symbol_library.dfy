/**
 * The symbol records of `src/kicad/model/symbol_library.rs`: graphic
 * elements, pins, properties, symbols with their units, and the symbol
 * library file, each with its S-expression writer and reader. A reader
 * returns None where the source panics.
 */
module SymbolLibrary {
  import opened Wrappers
  import opened Numbers
  import opened Syntax
  import opened Folding
  import opened SymbolStyles
  import opened Common
  import opened Tokenizer
  import opened TreeParser

  /** A position without its angle, as the `(start x y)`-style nodes carry it. */
  function Flat(p: Position): Position { p.(angle := None) }

  /** `SyntaxItem::from_arguments(name, [x, y])`. */
  function PointNode(name: string, p: Position): SyntaxItem
  {
    FromArguments(name, [Number(p.x, Neutral), Number(p.y, Neutral)])
  }

  /** `Position::deserialize(get_named_child(name).unwrap())`. */
  function ReadNamedPosition(s: SyntaxItem, name: string): Option<Position>
  {
    var c :- GetNamedChild(s, name);
    ReadPosition(c)
  }

  lemma PointNodeReadsFlat(name: string, p: Position)
    ensures ReadPosition(PointNode(name, p)) == Some(Flat(p))
  {
  }

  // ---------------------------------------------------------------------
  // Graphic elements
  // ---------------------------------------------------------------------

  datatype SymbolArc = SymbolArc(start: Position, mid: Position, end: Position, stroke: StrokeDefinition, fill: FillType)

  function WriteArc(a: SymbolArc): SyntaxItem
  {
    SyntaxItem("arc", [], [PointNode("start", a.start), PointNode("mid", a.mid), PointNode("end", a.end),
                           WriteFill(a.fill), WriteStroke(a.stroke)])
  }

  function ReadArc(s: SyntaxItem): Option<SymbolArc>
  {
    var start :- ReadNamedPosition(s, "start");
    var mid :- ReadNamedPosition(s, "mid");
    var end :- ReadNamedPosition(s, "end");
    var f :- GetNamedChild(s, "fill");
    var fill :- ReadFill(f);
    var k :- GetNamedChild(s, "stroke");
    var stroke :- ReadStroke(k);
    Some(SymbolArc(start, mid, end, stroke, fill))
  }

  /** The arc reader on a node whose children are laid out as the writer lays them out. */
  lemma ReadArcLayout(s: SyntaxItem, start: Position, mid: Position, end: Position, f: SyntaxItem, k: SyntaxItem)
    requires |s.children| == 5 && s.children[0] == PointNode("start", start) && s.children[1] == PointNode("mid", mid)
    requires s.children[2] == PointNode("end", end) && s.children[3] == f && s.children[4] == k
    requires f.name == "fill" && k.name == "stroke"
    ensures ReadArc(s) == (var fill :- ReadFill(f); var stroke :- ReadStroke(k);
                           Some(SymbolArc(Flat(start), Flat(mid), Flat(end), stroke, fill)))
  {
    ArcChildNamesDiffer();
    NamedChildAt(s, 0);
    NamedChildAt(s, 1);
    NamedChildAt(s, 2);
    NamedChildAt(s, 3);
    NamedChildAt(s, 4);
  }

  lemma ArcChildNamesDiffer()
    ensures "start" != "mid" && "start" != "end" && "start" != "fill" && "start" != "stroke"
    ensures "mid" != "end" && "mid" != "fill" && "mid" != "stroke"
    ensures "end" != "fill" && "end" != "stroke" && "fill" != "stroke"
  {
    assert "start"[0] == 's' && "mid"[0] == 'm' && "end"[0] == 'e' && "fill"[0] == 'f';
    assert |"start"| != |"stroke"| && "stroke"[0] == 's';
  }

  /** An arc reads back with its three points' angles dropped. */
  lemma ArcRoundTrip(a: SymbolArc)
    ensures ReadArc(WriteArc(a)) == Some(FlatArc(a))
  {
    ReadArcLayout(WriteArc(a), a.start, a.mid, a.end, WriteFill(a.fill), WriteStroke(a.stroke));
    FillRoundTrip(a.fill, "");
    StrokeRoundTrip(a.stroke);
  }

  /** An arc as it reads back: its three points without angles. */
  function FlatArc(a: SymbolArc): SymbolArc
  {
    a.(start := Flat(a.start), mid := Flat(a.mid), end := Flat(a.end))
  }

  datatype SymbolCircle = SymbolCircle(center: Position, radius: Num, stroke: StrokeDefinition, fill: FillType)

  function WriteCircle(c: SymbolCircle): SyntaxItem
  {
    SyntaxItem("circle", [], [PointNode("center", c.center), FromSingleArgument("radius", Number(c.radius, Neutral)),
                              WriteFill(c.fill), WriteStroke(c.stroke)])
  }

  function ReadCircle(s: SyntaxItem): Option<SymbolCircle>
  {
    var center :- ReadNamedPosition(s, "center");
    var r :- GetNamedChild(s, "radius");
    var radius :- NumberAt(r, 0);
    var f :- GetNamedChild(s, "fill");
    var fill :- ReadFill(f);
    var k :- GetNamedChild(s, "stroke");
    var stroke :- ReadStroke(k);
    Some(SymbolCircle(center, radius, stroke, fill))
  }

  lemma ReadCircleLayout(s: SyntaxItem, center: Position, radius: Num, f: SyntaxItem, k: SyntaxItem)
    requires s.children == [PointNode("center", center), FromSingleArgument("radius", Number(radius, Neutral)), f, k]
    requires f.name == "fill" && k.name == "stroke"
    ensures ReadCircle(s) == (var fill :- ReadFill(f); var stroke :- ReadStroke(k);
                              Some(SymbolCircle(Flat(center), radius, stroke, fill)))
  {
    NamedChildAt(s, 0);
    NamedChildAt(s, 1);
    NamedChildAt(s, 2);
    NamedChildAt(s, 3);
  }

  /** A circle reads back with its centre's angle dropped. */
  lemma CircleRoundTrip(c: SymbolCircle)
    ensures ReadCircle(WriteCircle(c)) == Some(FlatCircle(c))
  {
    ReadCircleLayout(WriteCircle(c), c.center, c.radius, WriteFill(c.fill), WriteStroke(c.stroke));
    FillRoundTrip(c.fill, "");
    StrokeRoundTrip(c.stroke);
  }

  function FlatCircle(c: SymbolCircle): SymbolCircle { c.(center := Flat(c.center)) }

  datatype SymbolRectangle = SymbolRectangle(start: Position, end: Position, stroke: StrokeDefinition, fill: FillType)

  function WriteRectangle(r: SymbolRectangle): SyntaxItem
  {
    SyntaxItem("rectangle", [], [PointNode("start", r.start), PointNode("end", r.end), WriteStroke(r.stroke), WriteFill(r.fill)])
  }

  function ReadRectangle(s: SyntaxItem): Option<SymbolRectangle>
  {
    var start :- ReadNamedPosition(s, "start");
    var end :- ReadNamedPosition(s, "end");
    var f :- GetNamedChild(s, "fill");
    var fill :- ReadFill(f);
    var k :- GetNamedChild(s, "stroke");
    var stroke :- ReadStroke(k);
    Some(SymbolRectangle(start, end, stroke, fill))
  }

  lemma ReadRectangleLayout(s: SyntaxItem, start: Position, end: Position, k: SyntaxItem, f: SyntaxItem)
    requires s.children == [PointNode("start", start), PointNode("end", end), k, f]
    requires f.name == "fill" && k.name == "stroke"
    ensures ReadRectangle(s) == (var fill :- ReadFill(f); var stroke :- ReadStroke(k);
                                 Some(SymbolRectangle(Flat(start), Flat(end), stroke, fill)))
  {
    NamedChildAt(s, 0);
    NamedChildAt(s, 1);
    NamedChildAt(s, 2);
    NamedChildAt(s, 3);
  }

  /** A rectangle reads back with its corners' angles dropped. */
  lemma RectangleRoundTrip(r: SymbolRectangle)
    ensures ReadRectangle(WriteRectangle(r)) == Some(FlatRectangle(r))
  {
    ReadRectangleLayout(WriteRectangle(r), r.start, r.end, WriteStroke(r.stroke), WriteFill(r.fill));
    FillRoundTrip(r.fill, "");
    StrokeRoundTrip(r.stroke);
  }

  function FlatRectangle(r: SymbolRectangle): SymbolRectangle { r.(start := Flat(r.start), end := Flat(r.end)) }

  /** `SymbolLine`; a `SymbolCurve` has the same fields and is written with the same children. */
  datatype SymbolLine = SymbolLine(points: seq<Position>, stroke: StrokeDefinition, fill: Option<FillType>)

  function XyNode(): Position -> SyntaxItem
  {
    (p: Position) => PointNode("xy", p)
  }

  function PositionReader(): SyntaxItem -> Option<Position>
  {
    (c: SyntaxItem) => ReadPosition(c)
  }

  /** `(pts (xy ..) ..)`, the stroke, and the fill when there is one. */
  function LineChildren(l: SymbolLine): seq<SyntaxItem>
  {
    [SyntaxItem("pts", [], Map(l.points, XyNode())), WriteStroke(l.stroke)]
    + Optional(if l.fill.Some? then Some(WriteFill(l.fill.value)) else None)
  }

  function WriteLine(l: SymbolLine): SyntaxItem { SyntaxItem("polyline", [], LineChildren(l)) }

  function WriteCurve(l: SymbolLine): SyntaxItem { SyntaxItem("bezier", [], LineChildren(l)) }

  /** The reader shared by `SymbolLine` and `SymbolCurve`: every `pts` child is a position. */
  function ReadLine(s: SyntaxItem): Option<SymbolLine>
  {
    var pts :- GetNamedChild(s, "pts");
    var points :- MapAll(pts.children, PositionReader());
    var fill :- match GetNamedChild(s, "fill")
                case None => Some(None)
                case Some(f) => (var t :- ReadFill(f); Some(Some(t)));
    var k :- GetNamedChild(s, "stroke");
    var stroke :- ReadStroke(k);
    Some(SymbolLine(points, stroke, fill))
  }

  lemma {:induction false} PointsRoundTrip(points: seq<Position>)
    ensures MapAll(Map(points, XyNode()), PositionReader()) == Some(Map(points, Flat))
  {
    if points != [] {
      PointsRoundTrip(points[1..]);
      assert Map(points, XyNode())[1..] == Map(points[1..], XyNode());
    }
  }

  lemma ReadLineLayout(s: SyntaxItem, points: seq<Position>, k: SyntaxItem, f: Option<SyntaxItem>)
    requires s.children == [SyntaxItem("pts", [], Map(points, XyNode())), k] + Optional(f)
    requires k.name == "stroke" && (f.Some? ==> f.value.name == "fill")
    ensures ReadLine(s) == (var fill :- match f
                                        case None => Some(None)
                                        case Some(c) => (var t :- ReadFill(c); Some(Some(t)));
                            var stroke :- ReadStroke(k);
                            Some(SymbolLine(Map(points, Flat), stroke, fill)))
  {
    NamedChildAt(s, 0);
    NamedChildAt(s, 1);
    if f.Some? {
      NamedChildAt(s, 2);
    }
    PointsRoundTrip(points);
  }

  /** Points come back in order, without angles; fill and stroke come back as written. */
  lemma LineRoundTrip(l: SymbolLine)
    ensures ReadLine(WriteLine(l)) == Some(FlatLine(l))
    ensures ReadLine(WriteCurve(l)) == ReadLine(WriteLine(l))
  {
    var f := if l.fill.Some? then Some(WriteFill(l.fill.value)) else None;
    ReadLineLayout(WriteLine(l), l.points, WriteStroke(l.stroke), f);
    ReadLineLayout(WriteCurve(l), l.points, WriteStroke(l.stroke), f);
    if l.fill.Some? {
      FillRoundTrip(l.fill.value, "");
    }
    StrokeRoundTrip(l.stroke);
  }

  function FlatLine(l: SymbolLine): SymbolLine { l.(points := Map(l.points, Flat)) }

  /**
   * A text element. Its `TextPosition` (x, y and an optional angle) is not
   * part of this model's sources; it is written and read as a `Position`.
   */
  datatype SymbolText = SymbolText(text: string, position: Position, effects: TextEffect)

  function WriteText(t: SymbolText): SyntaxItem
  {
    SyntaxItem("text", [QuotedString(t.text, Neutral)], [WritePosition(t.position), WriteEffect(t.effects)])
  }

  function ReadText(s: SyntaxItem): Option<SymbolText>
  {
    var text :- StringAt(s, 0);
    var position :- ReadNamedPosition(s, "at");
    var e :- GetNamedChild(s, "effects");
    var effects :- ReadEffect(e);
    Some(SymbolText(text, position, effects))
  }

  lemma TextRoundTrip(t: SymbolText)
    ensures ReadText(WriteText(t)) == Some(t)
  {
    var w := WriteText(t);
    NamedChildAt(w, 0);
    NamedChildAt(w, 1);
    PositionRoundTrip(t.position);
    EffectRoundTrip(t.effects);
  }

  // ---------------------------------------------------------------------
  // Property: `(property "key" "value" [(id n)] (at ..) (effects ..) [(hide yes)])`
  // ---------------------------------------------------------------------

  datatype Property = Property(id: Option<U32>, key: string, value: string, hidden: bool, position: Position, effects: TextEffect)

  function WriteProperty(p: Property): SyntaxItem
  {
    SyntaxItem("property", [QuotedString(p.key, Neutral), QuotedString(p.value, Neutral)],
      Optional(if p.id.Some? then Some(WriteId(p.id.value)) else None)
      + [WritePosition(p.position), WriteEffect(p.effects)]
      + Optional(if p.hidden then Some(FromSingleArgument("hide", Identifier("yes", Neutral))) else None))
  }

  /** A `hide` child counts only when its argument is `yes`; one without an argument is the panic. */
  function ReadHideChild(h: Option<SyntaxItem>): (r: Option<bool>)
    ensures h.None? ==> r == Some(false)
    ensures h.Some? ==> (r == Some(true) <==> StringAt(h.value, 0) == Some("yes"))
  {
    match h
    case None => Some(false)
    case Some(c) =>
      var v :- StringAt(c, 0);
      Some(v == "yes")
  }

  function ReadProperty(s: SyntaxItem): Option<Property>
  {
    var key :- StringAt(s, 0);
    var value :- StringAt(s, 1);
    var e :- GetNamedChild(s, "effects");
    var id :- match GetNamedChild(s, "id")
              case None => Some(None)
              case Some(c) => (var n :- ReadId(c); Some(Some(n)));
    var hidden :- ReadHideChild(GetNamedChild(s, "hide"));
    var effects :- ReadEffect(e);
    var position :- ReadNamedPosition(s, "at");
    Some(Property(id, key, value, hidden, position, effects))
  }

  lemma PropertyChildNamesDiffer()
    ensures "id" != "at" && "id" != "effects" && "id" != "hide"
    ensures "at" != "effects" && "at" != "hide" && "effects" != "hide"
  {
    assert "id"[0] != "at"[0] && "id"[0] != "effects"[0] && "id"[0] != "hide"[0];
    assert "at"[0] != "effects"[0] && "at"[0] != "hide"[0] && "effects"[0] != "hide"[0];
  }

  /** Where the reader finds each child of a property laid out as the writer lays it out. */
  lemma PropertyChildren(s: SyntaxItem, id: Option<SyntaxItem>, at: SyntaxItem, e: SyntaxItem, hideNode: Option<SyntaxItem>)
    requires s.children == Optional(id) + [at, e] + Optional(hideNode)
    requires at.name == "at" && e.name == "effects"
    requires id.Some? ==> id.value.name == "id"
    requires hideNode.Some? ==> hideNode.value.name == "hide"
    ensures GetNamedChild(s, "id") == id && GetNamedChild(s, "hide") == hideNode
    ensures GetNamedChild(s, "at") == Some(at) && GetNamedChild(s, "effects") == Some(e)
  {
    var rest := SyntaxItem(s.name, s.arguments, [at, e] + Optional(hideNode));
    LaterChildren(rest, at, e, hideNode);
    if id.Some? {
      assert s.children == [id.value] + rest.children;
      NamedChildAt(s, 0);
      SkipChild(s, rest, "at");
      SkipChild(s, rest, "effects");
      SkipChild(s, rest, "hide");
    } else {
      assert s == rest;
    }
  }

  /** The children of a property after its id. */
  lemma LaterChildren(s: SyntaxItem, at: SyntaxItem, e: SyntaxItem, hideNode: Option<SyntaxItem>)
    requires s.children == [at, e] + Optional(hideNode)
    requires at.name == "at" && e.name == "effects"
    requires hideNode.Some? ==> hideNode.value.name == "hide"
    ensures GetNamedChild(s, "id") == None && GetNamedChild(s, "hide") == hideNode
    ensures GetNamedChild(s, "at") == Some(at) && GetNamedChild(s, "effects") == Some(e)
  {
    PropertyChildNamesDiffer();
    NamedChildAt(s, 0);
    NamedChildAt(s, 1);
    if hideNode.Some? {
      NamedChildAt(s, 2);
    }
  }

  /** A first child of another name is passed over. */
  lemma SkipChild(s: SyntaxItem, rest: SyntaxItem, name: string)
    requires |s.children| == |rest.children| + 1 && s.children[1..] == rest.children && s.children[0].name != name
    ensures GetNamedChild(s, name) == GetNamedChild(rest, name)
  {
  }

  lemma ReadPropertyLayout(s: SyntaxItem, key: string, value: string, id: Option<SyntaxItem>, at: SyntaxItem,
                           e: SyntaxItem, hideNode: Option<SyntaxItem>)
    requires s.arguments == [QuotedString(key, Neutral), QuotedString(value, Neutral)]
    requires GetNamedChild(s, "id") == id && GetNamedChild(s, "hide") == hideNode
    requires GetNamedChild(s, "at") == Some(at) && GetNamedChild(s, "effects") == Some(e)
    ensures ReadProperty(s) == (var i :- match id
                                         case None => Some(None)
                                         case Some(c) => (var n :- ReadId(c); Some(Some(n)));
                                var hidden :- ReadHideChild(hideNode);
                                var effects :- ReadEffect(e);
                                var position :- ReadPosition(at);
                                Some(Property(i, key, value, hidden, position, effects)))
  {
  }

  /** Every property, `hide` flag and optional id included, reads back unchanged. */
  lemma PropertyRoundTrip(p: Property)
    ensures ReadProperty(WriteProperty(p)) == Some(p)
  {
    var w := WriteProperty(p);
    var id := if p.id.Some? then Some(WriteId(p.id.value)) else None;
    var hideNode := if p.hidden then Some(FromSingleArgument("hide", Identifier("yes", Neutral))) else None;
    PropertyChildren(w, id, WritePosition(p.position), WriteEffect(p.effects), hideNode);
    ReadPropertyLayout(w, p.key, p.value, id, WritePosition(p.position), WriteEffect(p.effects), hideNode);
    if p.id.Some? {
      IdRoundTrip(p.id.value);
    }
    PositionRoundTrip(p.position);
    EffectRoundTrip(p.effects);
  }

  // ---------------------------------------------------------------------
  // Pin: `(pin type style (at ..) (length l) [(name "n" (effects ..))] [(number "n" (effects ..))])`
  // ---------------------------------------------------------------------

  datatype SymbolPin = SymbolPin(electricalType: PinElectricalType, graphicStyle: PinGraphicStyle, position: Position,
                                 length: Num, name: Option<string>, nameEffects: TextEffect,
                                 number: Option<string>, numberEffects: TextEffect)

  /** `(name "text" (effects ..))` or `(number "text" (effects ..))`. */
  function LabelNode(name: string, text: string, effects: TextEffect): SyntaxItem
  {
    SyntaxItem(name, [QuotedString(text, Neutral)], [WriteEffect(effects)])
  }

  function LabelChild(name: string, text: Option<string>, effects: TextEffect): Option<SyntaxItem>
  {
    if text.Some? then Some(LabelNode(name, text.value, effects)) else None
  }

  /** The pin node with the given spelling of its graphic style. */
  function PinNode(p: SymbolPin, style: string): SyntaxItem
  {
    SyntaxItem("pin", [Identifier(ElectricalTypeName(p.electricalType), Neutral), Identifier(style, Neutral)],
      [WritePosition(p.position), FromSingleArgument("length", Number(p.length, Neutral))]
      + Optional(LabelChild("name", p.name, p.nameEffects))
      + Optional(LabelChild("number", p.number, p.numberEffects)))
  }

  /** `SymbolPin::serialize` as the source has it: `ClockLow` and `OutputLow` spelled as each other. */
  function WritePin(p: SymbolPin): SyntaxItem
  {
    PinNode(p, WrittenStyleName(p.graphicStyle))
  }

  /** The pin writer as intended: every graphic style spelled as its reader expects it. */
  function WritePinIntended(p: SymbolPin): SyntaxItem
  {
    PinNode(p, IntendedStyleName(p.graphicStyle))
  }

  /** The text and effects of a `name`/`number` child; the effects are its first child. */
  function ReadLabel(c: SyntaxItem): Option<(string, TextEffect)>
  {
    var text :- StringAt(c, 0);
    if |c.children| == 0 then None
    else
      var effects :- ReadEffect(c.children[0]);
      Some((text, effects))
  }

  /** One child of `pin`; a child of any other name is the panic. */
  function PinChild(p: SymbolPin, c: SyntaxItem): Option<SymbolPin>
  {
    match c.name
    case "at" =>
      var position :- ReadPosition(c);
      Some(p.(position := position))
    case "length" =>
      var length :- NumberAt(c, 0);
      Some(p.(length := length))
    case "number" =>
      var caption :- ReadLabel(c);
      Some(p.(number := Some(caption.0), numberEffects := caption.1))
    case "name" =>
      var caption :- ReadLabel(c);
      Some(p.(name := Some(caption.0), nameEffects := caption.1))
    case _ => None
  }

  function PinChildStep(): (SymbolPin, SyntaxItem) -> Option<SymbolPin>
  {
    (p: SymbolPin, c: SyntaxItem) => PinChild(p, c)
  }

  /** The pin the reader starts from: at the origin, of length 0, without name or number. */
  function DefaultPin(t: PinElectricalType, g: PinGraphicStyle): SymbolPin
  {
    SymbolPin(t, g, Position(Finite(0.0), Finite(0.0), None), Finite(0.0), None, DefaultEffect(), None, DefaultEffect())
  }

  /** `SymbolPin::deserialize`: the two words name known types, then the children are read in order. */
  function ReadPin(s: SyntaxItem): Option<SymbolPin>
  {
    var typeName :- StringAt(s, 0);
    var t :- ElectricalTypeFromName(typeName);
    var styleName :- StringAt(s, 1);
    var g :- StyleFromName(styleName);
    Fold(DefaultPin(t, g), s.children, PinChildStep())
  }

  method DeserializePin(syntax: SyntaxItem) returns (r: Option<SymbolPin>)
    ensures r == ReadPin(syntax)
  {
    if |syntax.arguments| < 2 {
      return None;
    }
    var t := ElectricalTypeFromName(GetString(syntax.arguments[0]));
    if t.None? {
      return None;
    }
    var g := StyleFromName(GetString(syntax.arguments[1]));
    if g.None? {
      return None;
    }
    var pin := DefaultPin(t.value, g.value);
    var i := 0;
    assert syntax.children[0..] == syntax.children;
    while i < |syntax.children|
      invariant i <= |syntax.children|
      invariant ReadPin(syntax) == Fold(pin, syntax.children[i..], PinChildStep())
    {
      FoldAdvance(pin, syntax.children, i, PinChildStep());
      var child := syntax.children[i];
      match child.name {
        case "at" =>
          var position := ReadPosition(child);
          if position.None? { return None; }
          pin := pin.(position := position.value);
        case "length" =>
          var length := NumberAt(child, 0);
          if length.None? { return None; }
          pin := pin.(length := length.value);
        case "number" =>
          var caption := ReadLabel(child);
          if caption.None? { return None; }
          pin := pin.(number := Some(caption.value.0), numberEffects := caption.value.1);
        case "name" =>
          var caption := ReadLabel(child);
          if caption.None? { return None; }
          pin := pin.(name := Some(caption.value.0), nameEffects := caption.value.1);
        case _ => return None;
      }
      i := i + 1;
    }
    return Some(pin);
  }

  /**
   * A pin as it reads back from the source's writer: `ClockLow` and
   * `OutputLow` trade places, and the effects of a missing name or number
   * are the default ones.
   */
  function PinBack(p: SymbolPin): SymbolPin
  {
    LabelsBack(p).(graphicStyle := SwapLowStyles(p.graphicStyle))
  }

  /** A pin as it reads back from the intended writer: the effects of a missing name or number are the default ones. */
  function LabelsBack(p: SymbolPin): SymbolPin
  {
    p.(nameEffects := if p.name.Some? then p.nameEffects else DefaultEffect(),
       numberEffects := if p.number.Some? then p.numberEffects else DefaultEffect())
  }

  lemma LabelRoundTrip(name: string, text: string, effects: TextEffect)
    ensures ReadLabel(LabelNode(name, text, effects)) == Some((text, effects))
  {
    EffectRoundTrip(effects);
  }

  lemma PinFrontRead(q: SymbolPin, position: Position, length: Num)
    ensures Fold(q, [WritePosition(position), FromSingleArgument("length", Number(length, Neutral))], PinChildStep())
         == Some(q.(position := position, length := length))
  {
    var xs := [WritePosition(position), FromSingleArgument("length", Number(length, Neutral))];
    PositionRoundTrip(position);
    var q1 := q.(position := position);
    assert PinChild(q, xs[0]) == Some(q1);
    assert PinChild(q1, xs[1]) == Some(q1.(length := length));
    assert xs[1..] == [xs[1]] && [xs[1]][1..] == [];
    assert Fold(q1, xs[1..], PinChildStep()) == Some(q1.(length := length));
  }

  /** The pin children in the written order, read from any starting pin. */
  lemma PinChildrenRead(q: SymbolPin, p: SymbolPin)
    ensures Fold(q, PinNode(p, "").children, PinChildStep())
         == Some(q.(position := p.position, length := p.length,
                    name := if p.name.Some? then p.name else q.name,
                    nameEffects := if p.name.Some? then p.nameEffects else q.nameEffects,
                    number := if p.number.Some? then p.number else q.number,
                    numberEffects := if p.number.Some? then p.numberEffects else q.numberEffects))
  {
    if p.name.Some? {
      LabelRoundTrip("name", p.name.value, p.nameEffects);
    }
    if p.number.Some? {
      LabelRoundTrip("number", p.number.value, p.numberEffects);
    }
    PinChildrenLayout(q, p, LabelChild("name", p.name, p.nameEffects), LabelChild("number", p.number, p.numberEffects));
  }

  /**
   * Pin children laid out in the written order, the name and number being
   * any nodes that read as the pin's labels, read from any starting pin.
   */
  lemma PinChildrenLayout(q: SymbolPin, p: SymbolPin, nameChild: Option<SyntaxItem>, numberChild: Option<SyntaxItem>)
    requires nameChild.Some? <==> p.name.Some?
    requires nameChild.Some? ==> nameChild.value.name == "name" && ReadLabel(nameChild.value) == Some((p.name.value, p.nameEffects))
    requires numberChild.Some? <==> p.number.Some?
    requires numberChild.Some? ==> numberChild.value.name == "number"
                                   && ReadLabel(numberChild.value) == Some((p.number.value, p.numberEffects))
    ensures Fold(q, [WritePosition(p.position), FromSingleArgument("length", Number(p.length, Neutral))]
                    + Optional(nameChild) + Optional(numberChild), PinChildStep())
         == Some(q.(position := p.position, length := p.length,
                    name := if p.name.Some? then p.name else q.name,
                    nameEffects := if p.name.Some? then p.nameEffects else q.nameEffects,
                    number := if p.number.Some? then p.number else q.number,
                    numberEffects := if p.number.Some? then p.numberEffects else q.numberEffects))
  {
    var front := [WritePosition(p.position), FromSingleArgument("length", Number(p.length, Neutral))];
    FoldConcat(q, front + Optional(nameChild), Optional(numberChild), PinChildStep());
    FoldConcat(q, front, Optional(nameChild), PinChildStep());
    PinFrontRead(q, p.position, p.length);
    var q1 := q.(position := p.position, length := p.length);
    FoldOptional(q1, nameChild, PinChildStep());
    var q2 := q1.(name := if p.name.Some? then p.name else q.name,
                  nameEffects := if p.name.Some? then p.nameEffects else q.nameEffects);
    if p.name.Some? {
      assert PinChild(q1, nameChild.value) == Some(q2);
    }
    FoldOptional(q2, numberChild, PinChildStep());
    if p.number.Some? {
      assert PinChild(q2, numberChild.value) == Some(q2.(number := p.number, numberEffects := p.numberEffects));
    }
  }

  /** A pin written with the intended style names reads back unchanged, apart from unused effects. */
  lemma PinRoundTrip(p: SymbolPin)
    ensures ReadPin(WritePinIntended(p)) == Some(LabelsBack(p))
  {
    ElectricalTypeRoundTrip(p.electricalType, "");
    IntendedStyleRoundTrip(p.graphicStyle, "");
    PinChildrenRead(DefaultPin(p.electricalType, p.graphicStyle), p);
  }

  /**
   * The pin writer as the source has it reads `ClockLow` back as `OutputLow`
   * and the other way round; every other style survives.
   */
  lemma PinAsWrittenSwapsLowStyles(p: SymbolPin)
    ensures ReadPin(WritePin(p)) == Some(PinBack(p))
    ensures p.graphicStyle == ClockLow ==> ReadPin(WritePin(p)).value.graphicStyle == OutputLow
    ensures p.graphicStyle == OutputLow ==> ReadPin(WritePin(p)).value.graphicStyle == ClockLow
    ensures p.graphicStyle != ClockLow && p.graphicStyle != OutputLow ==> ReadPin(WritePin(p)) == Some(LabelsBack(p))
  {
    ElectricalTypeRoundTrip(p.electricalType, "");
    WrittenStyleReadsSwapped(p.graphicStyle);
    PinChildrenRead(DefaultPin(p.electricalType, SwapLowStyles(p.graphicStyle)), p);
  }

  // ---------------------------------------------------------------------
  // Symbol: `(symbol "id" [header children] properties elements pins units)`
  // ---------------------------------------------------------------------

  /**
   * A symbol or one of its units. The source's `beziers` and `objects`
   * fields are never written nor read and are not part of this model.
   */
  datatype Symbol = Symbol(symbolId: string, extendsId: Option<string>, pinNumbersHidden: bool, pinNamesHidden: bool,
                           pinNamesOffset: Option<Num>, inBom: Option<bool>, onBoard: Option<bool>,
                           excludeFromSim: Option<bool>, properties: seq<Property>, arcs: seq<SymbolArc>,
                           circles: seq<SymbolCircle>, rectangles: seq<SymbolRectangle>, lines: seq<SymbolLine>,
                           curves: seq<SymbolLine>, texts: seq<SymbolText>, pins: seq<SymbolPin>,
                           units: seq<Symbol>, unitName: Option<string>)

  /** `(pin_names [hide] [(offset o)])`, written when the names are hidden or an offset is set. */
  function PinNamesNode(s: Symbol): Option<SyntaxItem>
  {
    if s.pinNamesHidden || s.pinNamesOffset.Some? then
      Some(SyntaxItem("pin_names", if s.pinNamesHidden then [Identifier("hide", End)] else [],
                      Optional(NumberChild("offset", s.pinNamesOffset))))
    else None
  }

  function PinNumbersNode(hidden: bool): Option<SyntaxItem>
  {
    if hidden then Some(FromSingleArgument("pin_numbers", Identifier("hidden", Neutral))) else None
  }

  /** The children before the properties, in the order the writer pushes them. */
  function SymbolHeader(s: Symbol): seq<SyntaxItem>
  {
    PinDisplayHeader(s) + AttributeHeader(s)
  }

  function PinDisplayHeader(s: Symbol): seq<SyntaxItem>
  {
    Optional(PinNamesNode(s)) + Optional(PinNumbersNode(s.pinNumbersHidden))
  }

  function AttributeHeader(s: Symbol): seq<SyntaxItem>
  {
    Optional(FlagNode("in_bom", s.inBom)) + Optional(FlagNode("on_board", s.onBoard))
    + Optional(QuotedNode("extends", s.extendsId)) + Optional(QuotedNode("unit_name", s.unitName))
    + Optional(FlagNode("exclude_from_sim", s.excludeFromSim))
  }

  /** Properties, then each kind of graphic element, then the pins. */
  function SymbolElements(s: Symbol): seq<SyntaxItem>
  {
    Map(s.properties, WriteProperty) + Map(s.arcs, WriteArc) + Map(s.circles, WriteCircle)
    + Map(s.curves, WriteCurve) + Map(s.lines, WriteLine) + Map(s.rectangles, WriteRectangle)
    + Map(s.texts, WriteText) + Map(s.pins, WritePin)
  }

  /** `Symbol::serialize`: the header, the elements, then each unit as a nested `symbol`. */
  function WriteSymbol(s: Symbol): SyntaxItem
    decreases s, 1
  {
    SyntaxItem("symbol", [QuotedString(s.symbolId, Neutral)], SymbolHeader(s) + SymbolElements(s) + WriteUnits(s))
  }

  /** Each unit of `s` as a nested `symbol` node. */
  function WriteUnits(s: Symbol): seq<SyntaxItem>
    decreases s, 0
  {
    seq(|s.units|, i requires 0 <= i < |s.units| => WriteSymbol(s.units[i]))
  }

  /** The symbol the reader starts from: only its id is set. */
  function InitialSymbol(id: string): Symbol
  {
    Symbol(id, None, false, false, None, None, None, None, [], [], [], [], [], [], [], [], [], None)
  }

  /** `Symbol::deserialize`: the id is the first argument, then the children are read in order. */
  function ReadSymbol(t: SyntaxItem): Option<Symbol>
    decreases t, 1, 0
  {
    var id :- StringAt(t, 0);
    ReadSymbolFrom(t, 0, InitialSymbol(id))
  }

  /** The children of `t` from index `i` on, read into `acc`. */
  function ReadSymbolFrom(t: SyntaxItem, i: nat, acc: Symbol): Option<Symbol>
    requires i <= |t.children|
    decreases t, 0, |t.children| - i
  {
    if i == |t.children| then Some(acc)
    else
      var next :- SymbolChild(acc, t.children[i]);
      ReadSymbolFrom(t, i + 1, next)
  }

  /** One child of `symbol`; `embedded_fonts` is skipped and any unknown name is the panic. */
  function SymbolChild(sym: Symbol, c: SyntaxItem): Option<Symbol>
    decreases c, 2, 0
  {
    match c.name
    case "property" => AddProperty(sym, c)
    case "pin" => AddPin(sym, c)
    case "arc" => AddArc(sym, c)
    case "circle" => AddCircle(sym, c)
    case "bezier" => AddCurve(sym, c)
    case "polyline" => AddLine(sym, c)
    case "rectangle" => AddRectangle(sym, c)
    case "text" => AddText(sym, c)
    case "in_bom" => SetFlag(sym, c, InBom)
    case "on_board" => SetFlag(sym, c, OnBoard)
    case "exclude_from_sim" => SetFlag(sym, c, ExcludeFromSim)
    case "extends" => SetText(sym, c, Extends)
    case "unit_name" => SetText(sym, c, UnitName)
    case "pin_numbers" => SetPinNumbers(sym, c)
    case "pin_names" => SetPinNames(sym, c)
    case "symbol" =>
      var u :- ReadSymbol(c);
      Some(sym.(units := sym.units + [u]))
    case "embedded_fonts" => Some(sym)
    case _ => None
  }

  function AddProperty(sym: Symbol, c: SyntaxItem): Option<Symbol>
  {
    var p :- ReadProperty(c);
    Some(sym.(properties := sym.properties + [p]))
  }

  function AddPin(sym: Symbol, c: SyntaxItem): Option<Symbol>
  {
    var p :- ReadPin(c);
    Some(sym.(pins := sym.pins + [p]))
  }

  function AddArc(sym: Symbol, c: SyntaxItem): Option<Symbol>
  {
    var a :- ReadArc(c);
    Some(sym.(arcs := sym.arcs + [a]))
  }

  function AddCircle(sym: Symbol, c: SyntaxItem): Option<Symbol>
  {
    var a :- ReadCircle(c);
    Some(sym.(circles := sym.circles + [a]))
  }

  function AddCurve(sym: Symbol, c: SyntaxItem): Option<Symbol>
  {
    var a :- ReadLine(c);
    Some(sym.(curves := sym.curves + [a]))
  }

  function AddLine(sym: Symbol, c: SyntaxItem): Option<Symbol>
  {
    var a :- ReadLine(c);
    Some(sym.(lines := sym.lines + [a]))
  }

  function AddRectangle(sym: Symbol, c: SyntaxItem): Option<Symbol>
  {
    var a :- ReadRectangle(c);
    Some(sym.(rectangles := sym.rectangles + [a]))
  }

  function AddText(sym: Symbol, c: SyntaxItem): Option<Symbol>
  {
    var a :- ReadText(c);
    Some(sym.(texts := sym.texts + [a]))
  }

  /** The `yes`/`no` header fields. */
  datatype Flag = InBom | OnBoard | ExcludeFromSim

  /** A flag is set to whether its first argument reads `yes`. */
  function SetFlag(sym: Symbol, c: SyntaxItem, f: Flag): Option<Symbol>
  {
    var v :- StringAt(c, 0);
    match f
    case InBom => Some(sym.(inBom := Some(v == "yes")))
    case OnBoard => Some(sym.(onBoard := Some(v == "yes")))
    case ExcludeFromSim => Some(sym.(excludeFromSim := Some(v == "yes")))
  }

  /** The quoted-text header fields. */
  datatype TextField = Extends | UnitName

  function SetText(sym: Symbol, c: SyntaxItem, f: TextField): Option<Symbol>
  {
    var v :- StringAt(c, 0);
    match f
    case Extends => Some(sym.(extendsId := Some(v)))
    case UnitName => Some(sym.(unitName := Some(v)))
  }

  function SetPinNumbers(sym: Symbol, c: SyntaxItem): Option<Symbol>
  {
    var v :- StringAt(c, 0);
    Some(sym.(pinNumbersHidden := v == "hidden"))
  }

  /** Hidden only when the `hide` argument compares equal placement included; the offset must be a number. */
  function SetPinNames(sym: Symbol, c: SyntaxItem): Option<Symbol>
  {
    var offset :- match GetNamedChild(c, "offset")
                  case None => Some(None)
                  case Some(o) => (var n :- NumberAt(o, 0); Some(Some(n)));
    Some(sym.(pinNamesHidden := HasArgument(c, Identifier("hide", Neutral)), pinNamesOffset := offset))
  }

  function SymbolChildStep(): (Symbol, SyntaxItem) -> Option<Symbol>
  {
    (sym: Symbol, c: SyntaxItem) => SymbolChild(sym, c)
  }

  /** The symbol reader is the fold of `SymbolChild` over the children. */
  lemma {:induction false} ReadSymbolIsFold(t: SyntaxItem, i: nat, acc: Symbol)
    requires i <= |t.children|
    ensures ReadSymbolFrom(t, i, acc) == Fold(acc, t.children[i..], SymbolChildStep())
    decreases |t.children| - i
  {
    if i < |t.children| {
      FoldAdvance(acc, t.children, i, SymbolChildStep());
      match SymbolChild(acc, t.children[i])
      case None =>
      case Some(next) => ReadSymbolIsFold(t, i + 1, next);
    }
  }

  /** `Symbol::deserialize` over one child, reading a unit with the symbol reader itself. */
  method DeserializeSymbolChild(sym: Symbol, child: SyntaxItem) returns (r: Option<Symbol>)
    ensures r == SymbolChild(sym, child)
    decreases child, 2
  {
    match child.name {
      case "pin" =>
        var p := DeserializePin(child);
        if p.None? { return None; }
        return Some(sym.(pins := sym.pins + [p.value]));
      case "symbol" =>
        var u := DeserializeSymbol(child);
        if u.None? { return None; }
        return Some(sym.(units := sym.units + [u.value]));
      case _ =>
        return SymbolChild(sym, child);
    }
  }

  /** `Symbol::deserialize`: the loop over the children. */
  method DeserializeSymbol(syntax: SyntaxItem) returns (r: Option<Symbol>)
    ensures r == ReadSymbol(syntax)
    decreases syntax, 1
  {
    if |syntax.arguments| == 0 {
      return None;
    }
    var sym := InitialSymbol(GetString(syntax.arguments[0]));
    var i := 0;
    while i < |syntax.children|
      invariant i <= |syntax.children|
      invariant ReadSymbol(syntax) == ReadSymbolFrom(syntax, i, sym)
    {
      var next := DeserializeSymbolChild(sym, syntax.children[i]);
      if next.None? {
        return None;
      }
      sym := next.value;
      i := i + 1;
    }
    return Some(sym);
  }

  /**
   * A symbol as it reads back after it is written: the elements lose the
   * angles the writer drops, each pin's `ClockLow` and `OutputLow` trade
   * places (see `PinAsWrittenSwapsLowStyles`), unused pin effects are the
   * default ones, and hidden pin names are lost (the writer places `hide` last, and the reader
   * compares the whole argument, placement included).
   */
  function ReadBack(s: Symbol): Symbol
    decreases s, 1
  {
    ElementsOf(s).(units := ReadBackUnits(s))
  }

  /** The header fields of `s` with its elements as they read back, and no units. */
  function ElementsOf(s: Symbol): Symbol
  {
    HeaderOf(s).(properties := s.properties, arcs := Map(s.arcs, FlatArc), circles := Map(s.circles, FlatCircle),
                 rectangles := Map(s.rectangles, FlatRectangle), lines := Map(s.lines, FlatLine),
                 curves := Map(s.curves, FlatLine), texts := s.texts, pins := Map(s.pins, PinBack))
  }

  function ReadBackUnits(s: Symbol): seq<Symbol>
    decreases s, 0
  {
    seq(|s.units|, i requires 0 <= i < |s.units| => ReadBack(s.units[i]))
  }

  /** The header fields of `s` set on the starting symbol, the pin-name flag left unset. */
  function HeaderOf(s: Symbol): Symbol
  {
    InitialSymbol(s.symbolId).(pinNamesOffset := s.pinNamesOffset, pinNumbersHidden := s.pinNumbersHidden,
                               inBom := s.inBom, onBoard := s.onBoard, extendsId := s.extendsId,
                               unitName := s.unitName, excludeFromSim := s.excludeFromSim)
  }

  lemma PinNamesRead(a: Symbol, s: Symbol)
    ensures Fold(a, Optional(PinNamesNode(s)), SymbolChildStep())
         == Some(if PinNamesNode(s).Some? then a.(pinNamesHidden := false, pinNamesOffset := s.pinNamesOffset) else a)
  {
    FoldOptional(a, PinNamesNode(s), SymbolChildStep());
    if PinNamesNode(s).Some? {
      var c := PinNamesNode(s).value;
      assert !HasArgument(c, Identifier("hide", Neutral));
      if s.pinNamesOffset.Some? {
        NamedChildAt(c, 0);
      }
    }
  }

  lemma PinNumbersRead(a: Symbol, hidden: bool)
    ensures Fold(a, Optional(PinNumbersNode(hidden)), SymbolChildStep())
         == Some(if hidden then a.(pinNumbersHidden := true) else a)
  {
    FoldOptional(a, PinNumbersNode(hidden), SymbolChildStep());
  }

  lemma InBomRead(a: Symbol, flag: Option<bool>)
    ensures Fold(a, Optional(FlagNode("in_bom", flag)), SymbolChildStep())
         == Some(if flag.Some? then a.(inBom := flag) else a)
  {
    FoldOptional(a, FlagNode("in_bom", flag), SymbolChildStep());
  }

  lemma OnBoardRead(a: Symbol, flag: Option<bool>)
    ensures Fold(a, Optional(FlagNode("on_board", flag)), SymbolChildStep())
         == Some(if flag.Some? then a.(onBoard := flag) else a)
  {
    FoldOptional(a, FlagNode("on_board", flag), SymbolChildStep());
  }

  lemma ExcludeFromSimRead(a: Symbol, flag: Option<bool>)
    ensures Fold(a, Optional(FlagNode("exclude_from_sim", flag)), SymbolChildStep())
         == Some(if flag.Some? then a.(excludeFromSim := flag) else a)
  {
    FoldOptional(a, FlagNode("exclude_from_sim", flag), SymbolChildStep());
  }

  lemma ExtendsRead(a: Symbol, text: Option<string>)
    ensures Fold(a, Optional(QuotedNode("extends", text)), SymbolChildStep())
         == Some(if text.Some? then a.(extendsId := text) else a)
  {
    FoldOptional(a, QuotedNode("extends", text), SymbolChildStep());
  }

  lemma UnitNameRead(a: Symbol, text: Option<string>)
    ensures Fold(a, Optional(QuotedNode("unit_name", text)), SymbolChildStep())
         == Some(if text.Some? then a.(unitName := text) else a)
  {
    FoldOptional(a, QuotedNode("unit_name", text), SymbolChildStep());
  }

  lemma PinDisplayRead(a: Symbol, s: Symbol)
    requires !a.pinNamesHidden && a.pinNamesOffset.None? && !a.pinNumbersHidden
    ensures Fold(a, PinDisplayHeader(s), SymbolChildStep())
         == Some(a.(pinNamesOffset := s.pinNamesOffset, pinNumbersHidden := s.pinNumbersHidden))
  {
    FoldConcat(a, Optional(PinNamesNode(s)), Optional(PinNumbersNode(s.pinNumbersHidden)), SymbolChildStep());
    PinNamesRead(a, s);
    PinNumbersRead(a.(pinNamesOffset := s.pinNamesOffset), s.pinNumbersHidden);
  }

  lemma AttributesRead(a: Symbol, s: Symbol)
    requires a.inBom.None? && a.onBoard.None? && a.extendsId.None? && a.unitName.None? && a.excludeFromSim.None?
    ensures Fold(a, AttributeHeader(s), SymbolChildStep())
         == Some(a.(inBom := s.inBom, onBoard := s.onBoard, extendsId := s.extendsId,
                    unitName := s.unitName, excludeFromSim := s.excludeFromSim))
  {
    InBomRead(a, s.inBom);
    var a3 := a.(inBom := s.inBom);
    OnBoardRead(a3, s.onBoard);
    var a4 := a3.(onBoard := s.onBoard);
    ExtendsRead(a4, s.extendsId);
    var a5 := a4.(extendsId := s.extendsId);
    UnitNameRead(a5, s.unitName);
    var a6 := a5.(unitName := s.unitName);
    ExcludeFromSimRead(a6, s.excludeFromSim);
    FoldJoin5(a, Optional(FlagNode("in_bom", s.inBom)), Optional(FlagNode("on_board", s.onBoard)),
              Optional(QuotedNode("extends", s.extendsId)), Optional(QuotedNode("unit_name", s.unitName)),
              Optional(FlagNode("exclude_from_sim", s.excludeFromSim)), SymbolChildStep(),
              a3, a4, a5, a6, a6.(excludeFromSim := s.excludeFromSim));
  }

  /** The header children set the header fields of the starting symbol. */
  lemma HeaderRead(s: Symbol)
    ensures Fold(InitialSymbol(s.symbolId), SymbolHeader(s), SymbolChildStep()) == Some(HeaderOf(s))
  {
    var a0 := InitialSymbol(s.symbolId);
    FoldConcat(a0, PinDisplayHeader(s), AttributeHeader(s), SymbolChildStep());
    PinDisplayRead(a0, s);
    AttributesRead(a0.(pinNamesOffset := s.pinNamesOffset, pinNumbersHidden := s.pinNumbersHidden), s);
  }

  /** `items` are `property` nodes that read, one by one, as `es`. */
  predicate PropertyNodes(items: seq<SyntaxItem>, es: seq<Property>)
  {
    |items| == |es| && forall i | 0 <= i < |items| :: items[i].name == "property" && ReadProperty(items[i]) == Some(es[i])
  }

  lemma DispatchProperty(b: Symbol, c: SyntaxItem)
    requires c.name == "property"
    ensures SymbolChild(b, c) == AddProperty(b, c)
  {
  }

  /** A `property` child that reads as `e` appends `e` to the properties. */
  lemma PropertyStep(b: Symbol, c: SyntaxItem, e: Property)
    requires c.name == "property" && ReadProperty(c) == Some(e)
    ensures SymbolChild(b, c) == Some(b.(properties := b.properties + [e]))
  {
    DispatchProperty(b, c);
  }

  /** A run of `property` children is read in order onto the properties read so far. */
  lemma PropertiesRead(a: Symbol, items: seq<SyntaxItem>, es: seq<Property>)
    requires PropertyNodes(items, es)
    ensures Fold(a, items, SymbolChildStep()) == Some(a.(properties := a.properties + es))
  {
    forall b: Symbol, i | 0 <= i < |items|
      ensures SymbolChild(b, items[i]) == Some(b.(properties := b.properties + [es[i]]))
    {
      PropertyStep(b, items[i], es[i]);
    }
    FoldCollect(a, items, es, (b: Symbol) => b.properties, (b: Symbol, xs: seq<Property>) => b.(properties := xs), SymbolChildStep());
  }

  /** Written properties are `property` nodes that read back one by one. */
  lemma PropertiesWritten(es: seq<Property>)
    ensures PropertyNodes(Map(es, WriteProperty), es)
  {
    forall i | 0 <= i < |es|
      ensures Map(es, WriteProperty)[i].name == "property" && ReadProperty(Map(es, WriteProperty)[i]) == Some(es[i])
    {
      PropertyRoundTrip(es[i]);
    }
  }

  /** `items` are `arc` nodes that read, one by one, as `es`. */
  predicate ArcNodes(items: seq<SyntaxItem>, es: seq<SymbolArc>)
  {
    |items| == |es| && forall i | 0 <= i < |items| :: items[i].name == "arc" && ReadArc(items[i]) == Some(es[i])
  }

  lemma DispatchArc(b: Symbol, c: SyntaxItem)
    requires c.name == "arc"
    ensures SymbolChild(b, c) == AddArc(b, c)
  {
    assert c.name != "property" && c.name != "pin";
  }

  /** A `arc` child that reads as `e` appends `e` to the arcs. */
  lemma ArcStep(b: Symbol, c: SyntaxItem, e: SymbolArc)
    requires c.name == "arc" && ReadArc(c) == Some(e)
    ensures SymbolChild(b, c) == Some(b.(arcs := b.arcs + [e]))
  {
    DispatchArc(b, c);
  }

  /** A run of `arc` children is read in order onto the arcs read so far. */
  lemma ArcsRead(a: Symbol, items: seq<SyntaxItem>, es: seq<SymbolArc>)
    requires ArcNodes(items, es)
    ensures Fold(a, items, SymbolChildStep()) == Some(a.(arcs := a.arcs + es))
  {
    forall b: Symbol, i | 0 <= i < |items|
      ensures SymbolChild(b, items[i]) == Some(b.(arcs := b.arcs + [es[i]]))
    {
      ArcStep(b, items[i], es[i]);
    }
    FoldCollect(a, items, es, (b: Symbol) => b.arcs, (b: Symbol, xs: seq<SymbolArc>) => b.(arcs := xs), SymbolChildStep());
  }

  /** Written arcs are `arc` nodes that read back one by one. */
  lemma ArcsWritten(es: seq<SymbolArc>)
    ensures ArcNodes(Map(es, WriteArc), Map(es, FlatArc))
  {
    forall i | 0 <= i < |es|
      ensures Map(es, WriteArc)[i].name == "arc" && ReadArc(Map(es, WriteArc)[i]) == Some(Map(es, FlatArc)[i])
    {
      ArcRoundTrip(es[i]);
    }
  }

  /** `items` are `circle` nodes that read, one by one, as `es`. */
  predicate CircleNodes(items: seq<SyntaxItem>, es: seq<SymbolCircle>)
  {
    |items| == |es| && forall i | 0 <= i < |items| :: items[i].name == "circle" && ReadCircle(items[i]) == Some(es[i])
  }

  lemma DispatchCircle(b: Symbol, c: SyntaxItem)
    requires c.name == "circle"
    ensures SymbolChild(b, c) == AddCircle(b, c)
  {
    assert c.name != "property" && c.name != "pin" && c.name != "arc";
  }

  /** A `circle` child that reads as `e` appends `e` to the circles. */
  lemma CircleStep(b: Symbol, c: SyntaxItem, e: SymbolCircle)
    requires c.name == "circle" && ReadCircle(c) == Some(e)
    ensures SymbolChild(b, c) == Some(b.(circles := b.circles + [e]))
  {
    DispatchCircle(b, c);
  }

  /** A run of `circle` children is read in order onto the circles read so far. */
  lemma CirclesRead(a: Symbol, items: seq<SyntaxItem>, es: seq<SymbolCircle>)
    requires CircleNodes(items, es)
    ensures Fold(a, items, SymbolChildStep()) == Some(a.(circles := a.circles + es))
  {
    forall b: Symbol, i | 0 <= i < |items|
      ensures SymbolChild(b, items[i]) == Some(b.(circles := b.circles + [es[i]]))
    {
      CircleStep(b, items[i], es[i]);
    }
    FoldCollect(a, items, es, (b: Symbol) => b.circles, (b: Symbol, xs: seq<SymbolCircle>) => b.(circles := xs), SymbolChildStep());
  }

  /** Written circles are `circle` nodes that read back one by one. */
  lemma CirclesWritten(es: seq<SymbolCircle>)
    ensures CircleNodes(Map(es, WriteCircle), Map(es, FlatCircle))
  {
    forall i | 0 <= i < |es|
      ensures Map(es, WriteCircle)[i].name == "circle" && ReadCircle(Map(es, WriteCircle)[i]) == Some(Map(es, FlatCircle)[i])
    {
      CircleRoundTrip(es[i]);
    }
  }

  /** `items` are `bezier` nodes that read, one by one, as `es`. */
  predicate CurveNodes(items: seq<SyntaxItem>, es: seq<SymbolLine>)
  {
    |items| == |es| && forall i | 0 <= i < |items| :: items[i].name == "bezier" && ReadLine(items[i]) == Some(es[i])
  }

  lemma DispatchCurve(b: Symbol, c: SyntaxItem)
    requires c.name == "bezier"
    ensures SymbolChild(b, c) == AddCurve(b, c)
  {
    assert c.name != "property" && c.name != "pin" && c.name != "arc" && c.name != "circle";
  }

  /** A `bezier` child that reads as `e` appends `e` to the curves. */
  lemma CurveStep(b: Symbol, c: SyntaxItem, e: SymbolLine)
    requires c.name == "bezier" && ReadLine(c) == Some(e)
    ensures SymbolChild(b, c) == Some(b.(curves := b.curves + [e]))
  {
    DispatchCurve(b, c);
  }

  /** A run of `bezier` children is read in order onto the curves read so far. */
  lemma CurvesRead(a: Symbol, items: seq<SyntaxItem>, es: seq<SymbolLine>)
    requires CurveNodes(items, es)
    ensures Fold(a, items, SymbolChildStep()) == Some(a.(curves := a.curves + es))
  {
    forall b: Symbol, i | 0 <= i < |items|
      ensures SymbolChild(b, items[i]) == Some(b.(curves := b.curves + [es[i]]))
    {
      CurveStep(b, items[i], es[i]);
    }
    FoldCollect(a, items, es, (b: Symbol) => b.curves, (b: Symbol, xs: seq<SymbolLine>) => b.(curves := xs), SymbolChildStep());
  }

  /** Written curves are `bezier` nodes that read back one by one. */
  lemma CurvesWritten(es: seq<SymbolLine>)
    ensures CurveNodes(Map(es, WriteCurve), Map(es, FlatLine))
  {
    forall i | 0 <= i < |es|
      ensures Map(es, WriteCurve)[i].name == "bezier" && ReadLine(Map(es, WriteCurve)[i]) == Some(Map(es, FlatLine)[i])
    {
      LineRoundTrip(es[i]);
    }
  }

  /** `items` are `polyline` nodes that read, one by one, as `es`. */
  predicate LineNodes(items: seq<SyntaxItem>, es: seq<SymbolLine>)
  {
    |items| == |es| && forall i | 0 <= i < |items| :: items[i].name == "polyline" && ReadLine(items[i]) == Some(es[i])
  }

  lemma DispatchLine(b: Symbol, c: SyntaxItem)
    requires c.name == "polyline"
    ensures SymbolChild(b, c) == AddLine(b, c)
  {
    assert c.name != "property" && c.name != "pin" && c.name != "arc" && c.name != "circle" && c.name != "bezier";
  }

  /** A `polyline` child that reads as `e` appends `e` to the lines. */
  lemma LineStep(b: Symbol, c: SyntaxItem, e: SymbolLine)
    requires c.name == "polyline" && ReadLine(c) == Some(e)
    ensures SymbolChild(b, c) == Some(b.(lines := b.lines + [e]))
  {
    DispatchLine(b, c);
  }

  /** A run of `polyline` children is read in order onto the lines read so far. */
  lemma LinesRead(a: Symbol, items: seq<SyntaxItem>, es: seq<SymbolLine>)
    requires LineNodes(items, es)
    ensures Fold(a, items, SymbolChildStep()) == Some(a.(lines := a.lines + es))
  {
    forall b: Symbol, i | 0 <= i < |items|
      ensures SymbolChild(b, items[i]) == Some(b.(lines := b.lines + [es[i]]))
    {
      LineStep(b, items[i], es[i]);
    }
    FoldCollect(a, items, es, (b: Symbol) => b.lines, (b: Symbol, xs: seq<SymbolLine>) => b.(lines := xs), SymbolChildStep());
  }

  /** Written lines are `polyline` nodes that read back one by one. */
  lemma LinesWritten(es: seq<SymbolLine>)
    ensures LineNodes(Map(es, WriteLine), Map(es, FlatLine))
  {
    forall i | 0 <= i < |es|
      ensures Map(es, WriteLine)[i].name == "polyline" && ReadLine(Map(es, WriteLine)[i]) == Some(Map(es, FlatLine)[i])
    {
      LineRoundTrip(es[i]);
    }
  }

  /** `items` are `rectangle` nodes that read, one by one, as `es`. */
  predicate RectangleNodes(items: seq<SyntaxItem>, es: seq<SymbolRectangle>)
  {
    |items| == |es| && forall i | 0 <= i < |items| :: items[i].name == "rectangle" && ReadRectangle(items[i]) == Some(es[i])
  }

  lemma DispatchRectangle(b: Symbol, c: SyntaxItem)
    requires c.name == "rectangle"
    ensures SymbolChild(b, c) == AddRectangle(b, c)
  {
    assert c.name != "property" && c.name != "pin" && c.name != "arc" && c.name != "circle" && c.name != "bezier" &&
      c.name != "polyline";
  }

  /** A `rectangle` child that reads as `e` appends `e` to the rectangles. */
  lemma RectangleStep(b: Symbol, c: SyntaxItem, e: SymbolRectangle)
    requires c.name == "rectangle" && ReadRectangle(c) == Some(e)
    ensures SymbolChild(b, c) == Some(b.(rectangles := b.rectangles + [e]))
  {
    DispatchRectangle(b, c);
  }

  /** A run of `rectangle` children is read in order onto the rectangles read so far. */
  lemma RectanglesRead(a: Symbol, items: seq<SyntaxItem>, es: seq<SymbolRectangle>)
    requires RectangleNodes(items, es)
    ensures Fold(a, items, SymbolChildStep()) == Some(a.(rectangles := a.rectangles + es))
  {
    forall b: Symbol, i | 0 <= i < |items|
      ensures SymbolChild(b, items[i]) == Some(b.(rectangles := b.rectangles + [es[i]]))
    {
      RectangleStep(b, items[i], es[i]);
    }
    FoldCollect(a, items, es, (b: Symbol) => b.rectangles, (b: Symbol, xs: seq<SymbolRectangle>) => b.(rectangles := xs), SymbolChildStep());
  }

  /** Written rectangles are `rectangle` nodes that read back one by one. */
  lemma RectanglesWritten(es: seq<SymbolRectangle>)
    ensures RectangleNodes(Map(es, WriteRectangle), Map(es, FlatRectangle))
  {
    forall i | 0 <= i < |es|
      ensures Map(es, WriteRectangle)[i].name == "rectangle" && ReadRectangle(Map(es, WriteRectangle)[i]) == Some(Map(es, FlatRectangle)[i])
    {
      RectangleRoundTrip(es[i]);
    }
  }

  /** `items` are `text` nodes that read, one by one, as `es`. */
  predicate TextNodes(items: seq<SyntaxItem>, es: seq<SymbolText>)
  {
    |items| == |es| && forall i | 0 <= i < |items| :: items[i].name == "text" && ReadText(items[i]) == Some(es[i])
  }

  lemma DispatchText(b: Symbol, c: SyntaxItem)
    requires c.name == "text"
    ensures SymbolChild(b, c) == AddText(b, c)
  {
    assert c.name != "property" && c.name != "pin" && c.name != "arc" && c.name != "circle" && c.name != "bezier" &&
      c.name != "polyline" && c.name != "rectangle";
  }

  /** A `text` child that reads as `e` appends `e` to the texts. */
  lemma TextStep(b: Symbol, c: SyntaxItem, e: SymbolText)
    requires c.name == "text" && ReadText(c) == Some(e)
    ensures SymbolChild(b, c) == Some(b.(texts := b.texts + [e]))
  {
    DispatchText(b, c);
  }

  /** A run of `text` children is read in order onto the texts read so far. */
  lemma TextsRead(a: Symbol, items: seq<SyntaxItem>, es: seq<SymbolText>)
    requires TextNodes(items, es)
    ensures Fold(a, items, SymbolChildStep()) == Some(a.(texts := a.texts + es))
  {
    forall b: Symbol, i | 0 <= i < |items|
      ensures SymbolChild(b, items[i]) == Some(b.(texts := b.texts + [es[i]]))
    {
      TextStep(b, items[i], es[i]);
    }
    FoldCollect(a, items, es, (b: Symbol) => b.texts, (b: Symbol, xs: seq<SymbolText>) => b.(texts := xs), SymbolChildStep());
  }

  /** Written texts are `text` nodes that read back one by one. */
  lemma TextsWritten(es: seq<SymbolText>)
    ensures TextNodes(Map(es, WriteText), es)
  {
    forall i | 0 <= i < |es|
      ensures Map(es, WriteText)[i].name == "text" && ReadText(Map(es, WriteText)[i]) == Some(es[i])
    {
      TextRoundTrip(es[i]);
    }
  }

  /** `items` are `pin` nodes that read, one by one, as `es`. */
  predicate PinNodes(items: seq<SyntaxItem>, es: seq<SymbolPin>)
  {
    |items| == |es| && forall i | 0 <= i < |items| :: items[i].name == "pin" && ReadPin(items[i]) == Some(es[i])
  }

  lemma DispatchPin(b: Symbol, c: SyntaxItem)
    requires c.name == "pin"
    ensures SymbolChild(b, c) == AddPin(b, c)
  {
    assert c.name != "property";
  }

  /** A `pin` child that reads as `e` appends `e` to the pins. */
  lemma PinStep(b: Symbol, c: SyntaxItem, e: SymbolPin)
    requires c.name == "pin" && ReadPin(c) == Some(e)
    ensures SymbolChild(b, c) == Some(b.(pins := b.pins + [e]))
  {
    DispatchPin(b, c);
  }

  /** A run of `pin` children is read in order onto the pins read so far. */
  lemma PinsRead(a: Symbol, items: seq<SyntaxItem>, es: seq<SymbolPin>)
    requires PinNodes(items, es)
    ensures Fold(a, items, SymbolChildStep()) == Some(a.(pins := a.pins + es))
  {
    forall b: Symbol, i | 0 <= i < |items|
      ensures SymbolChild(b, items[i]) == Some(b.(pins := b.pins + [es[i]]))
    {
      PinStep(b, items[i], es[i]);
    }
    FoldCollect(a, items, es, (b: Symbol) => b.pins, (b: Symbol, xs: seq<SymbolPin>) => b.(pins := xs), SymbolChildStep());
  }

  /** Written pins are `pin` nodes that read back one by one. */
  lemma PinsWritten(es: seq<SymbolPin>)
    ensures PinNodes(Map(es, WritePin), Map(es, PinBack))
  {
    forall i | 0 <= i < |es|
      ensures Map(es, WritePin)[i].name == "pin" && ReadPin(Map(es, WritePin)[i]) == Some(Map(es, PinBack)[i])
    {
      PinAsWrittenSwapsLowStyles(es[i]);
    }
  }

  lemma EmptyPrefix<T>(xs: seq<T>, ys: seq<T>)
    requires xs == []
    ensures xs + ys == ys
  {
    assert xs + ys == [] + ys;
  }

  /** Element children grouped by kind, each group reading as the matching list of `r`, are read onto `a`, which has no elements yet. */
  lemma ElementsLayout(a: Symbol, p: seq<SyntaxItem>, ar: seq<SyntaxItem>, ci: seq<SyntaxItem>, cu: seq<SyntaxItem>,
                       li: seq<SyntaxItem>, re: seq<SyntaxItem>, te: seq<SyntaxItem>, pi: seq<SyntaxItem>, r: Symbol)
    requires PropertyNodes(p, r.properties)
    requires ArcNodes(ar, r.arcs)
    requires CircleNodes(ci, r.circles)
    requires CurveNodes(cu, r.curves)
    requires LineNodes(li, r.lines)
    requires RectangleNodes(re, r.rectangles)
    requires TextNodes(te, r.texts)
    requires PinNodes(pi, r.pins)
    requires a.properties == [] && a.arcs == [] && a.circles == [] && a.curves == []
    requires a.lines == [] && a.rectangles == [] && a.texts == [] && a.pins == []
    ensures Fold(a, p + ar + ci + cu + li + re + te + pi, SymbolChildStep())
         == Some(a.(properties := r.properties, arcs := r.arcs, circles := r.circles, curves := r.curves,
                    lines := r.lines, rectangles := r.rectangles, texts := r.texts, pins := r.pins))
  {
    PropertiesRead(a, p, r.properties);
    var a1 := a.(properties := a.properties + r.properties);
    ArcsRead(a1, ar, r.arcs);
    var a2 := a1.(arcs := a1.arcs + r.arcs);
    CirclesRead(a2, ci, r.circles);
    var a3 := a2.(circles := a2.circles + r.circles);
    CurvesRead(a3, cu, r.curves);
    var a4 := a3.(curves := a3.curves + r.curves);
    LinesRead(a4, li, r.lines);
    var a5 := a4.(lines := a4.lines + r.lines);
    RectanglesRead(a5, re, r.rectangles);
    var a6 := a5.(rectangles := a5.rectangles + r.rectangles);
    TextsRead(a6, te, r.texts);
    var a7 := a6.(texts := a6.texts + r.texts);
    PinsRead(a7, pi, r.pins);
    var a8 := a7.(pins := a7.pins + r.pins);
    FoldJoin8(a, p, ar, ci, cu, li, re, te, pi, SymbolChildStep(), a1, a2, a3, a4, a5, a6, a7, a8);
    EmptyPrefix(a.properties, r.properties);
    EmptyPrefix(a.arcs, r.arcs);
    EmptyPrefix(a.circles, r.circles);
    EmptyPrefix(a.curves, r.curves);
    EmptyPrefix(a.lines, r.lines);
    EmptyPrefix(a.rectangles, r.rectangles);
    EmptyPrefix(a.texts, r.texts);
    EmptyPrefix(a.pins, r.pins);
  }

  /** The element children, written in their order, read back onto the header fields as the elements of `s`. */
  lemma ElementsRead(s: Symbol)
    ensures Fold(HeaderOf(s), SymbolElements(s), SymbolChildStep()) == Some(ElementsOf(s))
  {
    PropertiesWritten(s.properties);
    ArcsWritten(s.arcs);
    CirclesWritten(s.circles);
    CurvesWritten(s.curves);
    LinesWritten(s.lines);
    RectanglesWritten(s.rectangles);
    TextsWritten(s.texts);
    PinsWritten(s.pins);
    WrittenElementsFromRuns(s, Map(s.properties, WriteProperty), Map(s.arcs, WriteArc), Map(s.circles, WriteCircle),
                            Map(s.curves, WriteCurve), Map(s.lines, WriteLine), Map(s.rectangles, WriteRectangle),
                            Map(s.texts, WriteText), Map(s.pins, WritePin));
  }

  /** Runs of element nodes that read as the element lists of `s`, read onto its header fields, give its elements. */
  lemma WrittenElementsFromRuns(s: Symbol, p: seq<SyntaxItem>, ar: seq<SyntaxItem>, ci: seq<SyntaxItem>,
                                cu: seq<SyntaxItem>, li: seq<SyntaxItem>, re: seq<SyntaxItem>, te: seq<SyntaxItem>,
                                pi: seq<SyntaxItem>)
    requires PropertyNodes(p, s.properties)
    requires ArcNodes(ar, Map(s.arcs, FlatArc))
    requires CircleNodes(ci, Map(s.circles, FlatCircle))
    requires CurveNodes(cu, Map(s.curves, FlatLine))
    requires LineNodes(li, Map(s.lines, FlatLine))
    requires RectangleNodes(re, Map(s.rectangles, FlatRectangle))
    requires TextNodes(te, s.texts)
    requires PinNodes(pi, Map(s.pins, PinBack))
    ensures Fold(HeaderOf(s), p + ar + ci + cu + li + re + te + pi, SymbolChildStep()) == Some(ElementsOf(s))
  {
    var r := s.(arcs := Map(s.arcs, FlatArc), circles := Map(s.circles, FlatCircle), curves := Map(s.curves, FlatLine),
                lines := Map(s.lines, FlatLine), rectangles := Map(s.rectangles, FlatRectangle),
                pins := Map(s.pins, PinBack));
    ElementsLayout(HeaderOf(s), p, ar, ci, cu, li, re, te, pi, r);
  }

  /** `items` are nested `symbol` nodes that read, one by one, as `us`. */
  predicate UnitNodes(items: seq<SyntaxItem>, us: seq<Symbol>)
  {
    |items| == |us| && forall i | 0 <= i < |items| :: items[i].name == "symbol" && ReadSymbol(items[i]) == Some(us[i])
  }

  lemma DispatchUnit(b: Symbol, c: SyntaxItem)
    requires c.name == "symbol"
    ensures SymbolChild(b, c) == (match ReadSymbol(c) case None => None case Some(u) => Some(b.(units := b.units + [u])))
  {
    assert c.name != "property" && c.name != "pin" && c.name != "arc" && c.name != "circle" && c.name != "bezier" &&
      c.name != "polyline" && c.name != "rectangle" && c.name != "text" && c.name != "in_bom" &&
      c.name != "on_board" && c.name != "exclude_from_sim" && c.name != "extends" && c.name != "unit_name" &&
      c.name != "pin_numbers" && c.name != "pin_names";
  }

  /** A nested `symbol` child that reads as `u` appends the unit `u`. */
  lemma UnitStep(b: Symbol, c: SyntaxItem, u: Symbol)
    requires c.name == "symbol" && ReadSymbol(c) == Some(u)
    ensures SymbolChild(b, c) == Some(b.(units := b.units + [u]))
  {
    DispatchUnit(b, c);
  }

  /** A run of nested `symbol` children is read in order as the units of a symbol that has none yet. */
  lemma UnitsRead(a: Symbol, items: seq<SyntaxItem>, us: seq<Symbol>)
    requires UnitNodes(items, us) && a.units == []
    ensures Fold(a, items, SymbolChildStep()) == Some(a.(units := us))
  {
    forall b: Symbol, i | 0 <= i < |items|
      ensures SymbolChild(b, items[i]) == Some(b.(units := b.units + [us[i]]))
    {
      UnitStep(b, items[i], us[i]);
    }
    FoldCollect(a, items, us, (b: Symbol) => b.units, (b: Symbol, xs: seq<Symbol>) => b.(units := xs), SymbolChildStep());
    EmptyPrefix(a.units, us);
  }

  /** A `symbol` node with an id, whose children are read in three runs, reads as the end of the last run. */
  lemma ReadSymbolLayout(t: SyntaxItem, hd: seq<SyntaxItem>, el: seq<SyntaxItem>, un: seq<SyntaxItem>,
                         h: Symbol, e: Symbol, r: Symbol)
    requires StringAt(t, 0) == Some(h.symbolId) && t.children == hd + el + un
    requires Fold(InitialSymbol(h.symbolId), hd, SymbolChildStep()) == Some(h)
    requires Fold(h, el, SymbolChildStep()) == Some(e) && Fold(e, un, SymbolChildStep()) == Some(r)
    ensures ReadSymbol(t) == Some(r)
  {
    FoldJoin(InitialSymbol(h.symbolId), hd, el, SymbolChildStep(), h, e);
    FoldJoin(InitialSymbol(h.symbolId), hd + el, un, SymbolChildStep(), e, r);
    ReadSymbolIsFold(t, 0, InitialSymbol(h.symbolId));
    assert t.children[0..] == t.children;
  }

  /** The units of a symbol, written and read back, read as their own read-back. */
  lemma {:induction false} UnitsWritten(s: Symbol)
    ensures UnitNodes(WriteUnits(s), ReadBackUnits(s))
    decreases s, 0
  {
    forall i | 0 <= i < |s.units|
      ensures WriteSymbol(s.units[i]).name == "symbol" && ReadSymbol(WriteSymbol(s.units[i])) == Some(ReadBack(s.units[i]))
    {
      SymbolRoundTrip(s.units[i]);
    }
  }

  /**
   * `Symbol::serialize` followed by `Symbol::deserialize` gives the symbol
   * back, up to what the writer drops or the reader cannot see (`ReadBack`).
   */
  lemma {:induction false} SymbolRoundTrip(s: Symbol)
    ensures ReadSymbol(WriteSymbol(s)) == Some(ReadBack(s))
    decreases s, 1
  {
    HeaderRead(s);
    ElementsRead(s);
    UnitsWritten(s);
    UnitsRead(ElementsOf(s), WriteUnits(s), ReadBackUnits(s));
    ReadSymbolLayout(WriteSymbol(s), SymbolHeader(s), SymbolElements(s), WriteUnits(s), HeaderOf(s), ElementsOf(s), ReadBack(s));
  }

  /**
   * A written symbol's pins read back in order, each with its graphic style
   * as the source's writer leaves it: `ClockLow` and `OutputLow` swapped.
   */
  lemma SymbolPinStylesSwapped(s: Symbol)
    ensures ReadSymbol(WriteSymbol(s)).Some? && |ReadSymbol(WriteSymbol(s)).value.pins| == |s.pins|
    ensures forall i | 0 <= i < |s.pins| ::
              ReadSymbol(WriteSymbol(s)).value.pins[i].graphicStyle == SwapLowStyles(s.pins[i].graphicStyle)
  {
    SymbolRoundTrip(s);
    assert ReadBack(s).pins == Map(s.pins, PinBack);
  }

  /** The child names `Symbol::deserialize` accepts. */
  predicate IsSymbolChildName(name: string)
  {
    name in {"property", "pin", "arc", "circle", "bezier", "polyline", "rectangle", "text", "in_bom", "on_board",
             "exclude_from_sim", "extends", "unit_name", "pin_numbers", "pin_names", "symbol", "embedded_fonts"}
  }

  /** A child with any other name is the reader's panic, whatever has been read so far. */
  lemma UnknownSymbolChild(b: Symbol, c: SyntaxItem)
    requires !IsSymbolChildName(c.name)
    ensures SymbolChild(b, c).None?
  {
  }

  /** One unknown child anywhere makes the whole symbol unreadable. */
  lemma UnknownChildFailsSymbol(t: SyntaxItem, k: nat)
    requires k < |t.children| && !IsSymbolChildName(t.children[k].name)
    ensures ReadSymbol(t).None?
  {
    forall b: Symbol
      ensures SymbolChildStep()(b, t.children[k]).None?
    {
      UnknownSymbolChild(b, t.children[k]);
    }
    if StringAt(t, 0).Some? {
      var init := InitialSymbol(StringAt(t, 0).value);
      ReadSymbolIsFold(t, 0, init);
      assert t.children[0..] == t.children;
      FoldFails(init, t.children, SymbolChildStep(), k);
    }
  }

  /**
   * Once the text is printed and parsed again, argument placements are
   * reset, and `hide` in `pin_names` is recognised: the flag and the offset
   * both come back.
   */
  lemma PinNamesAfterReparse(a: Symbol, s: Symbol)
    requires PinNamesNode(s).Some?
    ensures SetPinNames(a, Normalize(PinNamesNode(s).value))
         == Some(a.(pinNamesHidden := s.pinNamesHidden, pinNamesOffset := s.pinNamesOffset))
  {
    var c := PinNamesNode(s).value;
    NormalizeSmall(c);
    if s.pinNamesHidden {
      assert ResetAll(c.arguments) == [Identifier("hide", Neutral)];
    }
    if s.pinNamesOffset.Some? {
      NormalizeSmall(c.children[0]);
      NamedChildAt(Normalize(c), 0);
    }
  }

  // ---------------------------------------------------------------------
  // A symbol printed and parsed again
  //
  // The parser hands back `Normalize` of the written tree (`ParseGenerated`):
  // every placement is reset to None. Only two written arguments are placed
  // End, the `hide` words of `effects` and of `pin_names`; everything else
  // is its own normal form.
  // ---------------------------------------------------------------------

  /**
   * A symbol as it reads back once its written form is printed and parsed
   * again: as `ReadBack`, except that hidden pin names survive, because the
   * parser resets the placement of their `hide` word.
   */
  function ReparsedBack(s: Symbol): Symbol
    decreases s, 1
  {
    ElementsOf(s).(pinNamesHidden := s.pinNamesHidden, units := ReparsedUnits(s))
  }

  function ReparsedUnits(s: Symbol): seq<Symbol>
    decreases s, 0
  {
    seq(|s.units|, i requires 0 <= i < |s.units| => ReparsedBack(s.units[i]))
  }

  lemma ArcSettled(a: SymbolArc)
    ensures Settled(WriteArc(a))
  {
    var w := WriteArc(a);
    StrokeSettled(a.stroke);
    assert Settled(WriteFill(a.fill));
    SettledNode(w.name, w.arguments, w.children);
  }

  lemma CircleSettled(c: SymbolCircle)
    ensures Settled(WriteCircle(c))
  {
    var w := WriteCircle(c);
    StrokeSettled(c.stroke);
    assert Settled(WriteFill(c.fill));
    SettledNode(w.name, w.arguments, w.children);
  }

  lemma RectangleSettled(r: SymbolRectangle)
    ensures Settled(WriteRectangle(r))
  {
    var w := WriteRectangle(r);
    StrokeSettled(r.stroke);
    assert Settled(WriteFill(r.fill));
    SettledNode(w.name, w.arguments, w.children);
  }

  lemma LineChildrenSettled(l: SymbolLine)
    ensures forall c | c in LineChildren(l) :: Settled(c)
  {
    var pts := SyntaxItem("pts", [], Map(l.points, XyNode()));
    SettledNode("pts", [], Map(l.points, XyNode()));
    StrokeSettled(l.stroke);
    assert l.fill.Some? ==> Settled(WriteFill(l.fill.value));
  }

  lemma LineSettled(l: SymbolLine)
    ensures Settled(WriteLine(l)) && Settled(WriteCurve(l))
  {
    LineChildrenSettled(l);
    SettledNode("polyline", [], LineChildren(l));
    SettledNode("bezier", [], LineChildren(l));
  }

  /** Arcs are their own normal forms: printing and parsing leaves them as written. */
  lemma ArcsReparsed(es: seq<SymbolArc>)
    ensures Map(Map(es, WriteArc), Normalize) == Map(es, WriteArc)
  {
    forall i | 0 <= i < |es|
      ensures Settled(Map(es, WriteArc)[i])
    {
      ArcSettled(es[i]);
    }
    NormalizeSettledAll(Map(es, WriteArc));
  }

  lemma CirclesReparsed(es: seq<SymbolCircle>)
    ensures Map(Map(es, WriteCircle), Normalize) == Map(es, WriteCircle)
  {
    forall i | 0 <= i < |es|
      ensures Settled(Map(es, WriteCircle)[i])
    {
      CircleSettled(es[i]);
    }
    NormalizeSettledAll(Map(es, WriteCircle));
  }

  lemma RectanglesReparsed(es: seq<SymbolRectangle>)
    ensures Map(Map(es, WriteRectangle), Normalize) == Map(es, WriteRectangle)
  {
    forall i | 0 <= i < |es|
      ensures Settled(Map(es, WriteRectangle)[i])
    {
      RectangleSettled(es[i]);
    }
    NormalizeSettledAll(Map(es, WriteRectangle));
  }

  lemma LinesReparsed(es: seq<SymbolLine>)
    ensures Map(Map(es, WriteLine), Normalize) == Map(es, WriteLine)
    ensures Map(Map(es, WriteCurve), Normalize) == Map(es, WriteCurve)
  {
    forall i | 0 <= i < |es|
      ensures Settled(Map(es, WriteLine)[i]) && Settled(Map(es, WriteCurve)[i])
    {
      LineSettled(es[i]);
    }
    NormalizeSettledAll(Map(es, WriteLine));
    NormalizeSettledAll(Map(es, WriteCurve));
  }

  /** Properties printed and parsed again are `property` nodes that read back one by one, unchanged. */
  lemma PropertiesReparsed(es: seq<Property>)
    ensures PropertyNodes(Map(Map(es, WriteProperty), Normalize), es)
  {
    forall i | 0 <= i < |es|
      ensures Map(Map(es, WriteProperty), Normalize)[i].name == "property"
      ensures ReadProperty(Map(Map(es, WriteProperty), Normalize)[i]) == Some(es[i])
    {
      PropertyReparsed(es[i]);
    }
  }

  lemma TextsReparsed(es: seq<SymbolText>)
    ensures TextNodes(Map(Map(es, WriteText), Normalize), es)
  {
    forall i | 0 <= i < |es|
      ensures Map(Map(es, WriteText), Normalize)[i].name == "text"
      ensures ReadText(Map(Map(es, WriteText), Normalize)[i]) == Some(es[i])
    {
      TextReparsed(es[i]);
    }
  }

  lemma PinsReparsed(es: seq<SymbolPin>)
    ensures PinNodes(Map(Map(es, WritePin), Normalize), Map(es, PinBack))
  {
    forall i | 0 <= i < |es|
      ensures Map(Map(es, WritePin), Normalize)[i].name == "pin"
      ensures ReadPin(Map(Map(es, WritePin), Normalize)[i]) == Some(Map(es, PinBack)[i])
    {
      PinReparsed(es[i]);
    }
  }

  /** The element children printed and parsed again: the graphics unchanged, properties, texts and pins normalised. */
  lemma ElementsNormalForm(s: Symbol)
    ensures Map(SymbolElements(s), Normalize)
         == Map(Map(s.properties, WriteProperty), Normalize) + Map(s.arcs, WriteArc) + Map(s.circles, WriteCircle)
            + Map(s.curves, WriteCurve) + Map(s.lines, WriteLine) + Map(s.rectangles, WriteRectangle)
            + Map(Map(s.texts, WriteText), Normalize) + Map(Map(s.pins, WritePin), Normalize)
  {
    var p, ar, ci, cu := Map(s.properties, WriteProperty), Map(s.arcs, WriteArc), Map(s.circles, WriteCircle), Map(s.curves, WriteCurve);
    var li, re, te, pi := Map(s.lines, WriteLine), Map(s.rectangles, WriteRectangle), Map(s.texts, WriteText), Map(s.pins, WritePin);
    MapConcat(p + ar + ci + cu + li + re + te, pi, Normalize);
    MapConcat(p + ar + ci + cu + li + re, te, Normalize);
    MapConcat(p + ar + ci + cu + li, re, Normalize);
    MapConcat(p + ar + ci + cu, li, Normalize);
    MapConcat(p + ar + ci, cu, Normalize);
    MapConcat(p + ar, ci, Normalize);
    MapConcat(p, ar, Normalize);
    ArcsReparsed(s.arcs);
    CirclesReparsed(s.circles);
    LinesReparsed(s.curves);
    LinesReparsed(s.lines);
    RectanglesReparsed(s.rectangles);
  }

  /** Each run of element children, printed and parsed again, reads as the matching elements of `ReadBack`. */
  lemma ElementRunsReparsed(s: Symbol)
    ensures PropertyNodes(Map(Map(s.properties, WriteProperty), Normalize), s.properties)
    ensures ArcNodes(Map(s.arcs, WriteArc), Map(s.arcs, FlatArc))
    ensures CircleNodes(Map(s.circles, WriteCircle), Map(s.circles, FlatCircle))
    ensures CurveNodes(Map(s.curves, WriteCurve), Map(s.curves, FlatLine))
    ensures LineNodes(Map(s.lines, WriteLine), Map(s.lines, FlatLine))
    ensures RectangleNodes(Map(s.rectangles, WriteRectangle), Map(s.rectangles, FlatRectangle))
    ensures TextNodes(Map(Map(s.texts, WriteText), Normalize), s.texts)
    ensures PinNodes(Map(Map(s.pins, WritePin), Normalize), Map(s.pins, PinBack))
  {
    PropertiesReparsed(s.properties);
    ArcsWritten(s.arcs);
    CirclesWritten(s.circles);
    CurvesWritten(s.curves);
    LinesWritten(s.lines);
    RectanglesWritten(s.rectangles);
    TextsReparsed(s.texts);
    PinsReparsed(s.pins);
  }

  /** The element children printed and parsed again read back onto the header fields as the elements of `s`. */
  lemma ElementsReparsed(s: Symbol)
    ensures Fold(HeaderOf(s).(pinNamesHidden := s.pinNamesHidden), Map(SymbolElements(s), Normalize), SymbolChildStep())
         == Some(ElementsOf(s).(pinNamesHidden := s.pinNamesHidden))
  {
    ElementsNormalForm(s);
    ReparsedElementsRead(s);
  }

  lemma ElementsOfFields(s: Symbol, h: Symbol, r: Symbol)
    requires h == HeaderOf(s).(pinNamesHidden := s.pinNamesHidden)
    requires r == s.(arcs := Map(s.arcs, FlatArc), circles := Map(s.circles, FlatCircle), curves := Map(s.curves, FlatLine),
                     lines := Map(s.lines, FlatLine), rectangles := Map(s.rectangles, FlatRectangle),
                     pins := Map(s.pins, PinBack))
    ensures h.(properties := r.properties, arcs := r.arcs, circles := r.circles, curves := r.curves,
               lines := r.lines, rectangles := r.rectangles, texts := r.texts, pins := r.pins)
         == ElementsOf(s).(pinNamesHidden := s.pinNamesHidden)
  {
  }

  /** Runs of element nodes that read as the element lists of `s`, read onto its header, give its elements. */
  lemma ElementsFromRuns(s: Symbol, a: Symbol, p: seq<SyntaxItem>, ar: seq<SyntaxItem>, ci: seq<SyntaxItem>,
                         cu: seq<SyntaxItem>, li: seq<SyntaxItem>, re: seq<SyntaxItem>, te: seq<SyntaxItem>,
                         pi: seq<SyntaxItem>)
    requires a == HeaderOf(s).(pinNamesHidden := s.pinNamesHidden)
    requires PropertyNodes(p, s.properties)
    requires ArcNodes(ar, Map(s.arcs, FlatArc))
    requires CircleNodes(ci, Map(s.circles, FlatCircle))
    requires CurveNodes(cu, Map(s.curves, FlatLine))
    requires LineNodes(li, Map(s.lines, FlatLine))
    requires RectangleNodes(re, Map(s.rectangles, FlatRectangle))
    requires TextNodes(te, s.texts)
    requires PinNodes(pi, Map(s.pins, PinBack))
    ensures Fold(a, p + ar + ci + cu + li + re + te + pi, SymbolChildStep())
         == Some(ElementsOf(s).(pinNamesHidden := s.pinNamesHidden))
  {
    var r := s.(arcs := Map(s.arcs, FlatArc), circles := Map(s.circles, FlatCircle), curves := Map(s.curves, FlatLine),
                lines := Map(s.lines, FlatLine), rectangles := Map(s.rectangles, FlatRectangle),
                pins := Map(s.pins, PinBack));
    ElementsOfFields(s, a, r);
    ElementsLayout(a, p, ar, ci, cu, li, re, te, pi, r);
  }

  lemma ReparsedElementsRead(s: Symbol)
    ensures Fold(HeaderOf(s).(pinNamesHidden := s.pinNamesHidden),
                 Map(Map(s.properties, WriteProperty), Normalize) + Map(s.arcs, WriteArc) + Map(s.circles, WriteCircle)
                 + Map(s.curves, WriteCurve) + Map(s.lines, WriteLine) + Map(s.rectangles, WriteRectangle)
                 + Map(Map(s.texts, WriteText), Normalize) + Map(Map(s.pins, WritePin), Normalize), SymbolChildStep())
         == Some(ElementsOf(s).(pinNamesHidden := s.pinNamesHidden))
  {
    ElementRunsReparsed(s);
    ElementsFromRuns(s, HeaderOf(s).(pinNamesHidden := s.pinNamesHidden), Map(Map(s.properties, WriteProperty), Normalize),
                     Map(s.arcs, WriteArc), Map(s.circles, WriteCircle), Map(s.curves, WriteCurve), Map(s.lines, WriteLine),
                     Map(s.rectangles, WriteRectangle), Map(Map(s.texts, WriteText), Normalize),
                     Map(Map(s.pins, WritePin), Normalize));
  }

  /** The `pin_names` node, when there is one, as the parser hands it back. */
  function NormalizedPinNames(s: Symbol): Option<SyntaxItem>
  {
    if PinNamesNode(s).Some? then Some(Normalize(PinNamesNode(s).value)) else None
  }

  lemma AttributeHeaderSettled(s: Symbol)
    ensures Map(AttributeHeader(s), Normalize) == AttributeHeader(s)
  {
    var h := AttributeHeader(s);
    assert forall c | c in h :: Settled(c);
    forall i | 0 <= i < |h|
      ensures Settled(h[i])
    {
      assert h[i] in h;
    }
    NormalizeSettledAll(h);
  }

  /** The header printed and parsed again: `pin_names` normalised, the rest as written. */
  lemma HeaderNormalForm(s: Symbol)
    ensures Map(SymbolHeader(s), Normalize)
         == Optional(NormalizedPinNames(s)) + Optional(PinNumbersNode(s.pinNumbersHidden)) + AttributeHeader(s)
  {
    var names, numbers, attrs := Optional(PinNamesNode(s)), Optional(PinNumbersNode(s.pinNumbersHidden)), AttributeHeader(s);
    assert SymbolHeader(s) == names + numbers + attrs;
    MapConcat(names + numbers, attrs, Normalize);
    MapConcat(names, numbers, Normalize);
    MapOptional(PinNamesNode(s), Normalize);
    assert Map(names, Normalize) == Optional(NormalizedPinNames(s));
    OptionalNormal(PinNumbersNode(s.pinNumbersHidden));
    AttributeHeaderSettled(s);
  }

  lemma DispatchPinNames(b: Symbol, c: SyntaxItem)
    requires c.name == "pin_names"
    ensures SymbolChild(b, c) == SetPinNames(b, c)
  {
  }

  /** The `pin_names` node as the parser hands it back sets both the flag and the offset. */
  lemma PinNamesReparsed(a: Symbol, s: Symbol)
    ensures Fold(a, Optional(NormalizedPinNames(s)), SymbolChildStep())
         == Some(if PinNamesNode(s).Some? then a.(pinNamesHidden := s.pinNamesHidden, pinNamesOffset := s.pinNamesOffset) else a)
  {
    FoldOptional(a, NormalizedPinNames(s), SymbolChildStep());
    if PinNamesNode(s).Some? {
      var c := PinNamesNode(s).value;
      NormalizeNode(c);
      DispatchPinNames(a, Normalize(c));
      PinNamesAfterReparse(a, s);
    }
  }

  lemma PinDisplayReparsed(a: Symbol, s: Symbol)
    requires !a.pinNamesHidden && a.pinNamesOffset.None? && !a.pinNumbersHidden
    ensures Fold(a, Optional(NormalizedPinNames(s)) + Optional(PinNumbersNode(s.pinNumbersHidden)), SymbolChildStep())
         == Some(a.(pinNamesHidden := s.pinNamesHidden, pinNamesOffset := s.pinNamesOffset,
                    pinNumbersHidden := s.pinNumbersHidden))
  {
    var a1 := a.(pinNamesHidden := s.pinNamesHidden, pinNamesOffset := s.pinNamesOffset);
    FoldConcat(a, Optional(NormalizedPinNames(s)), Optional(PinNumbersNode(s.pinNumbersHidden)), SymbolChildStep());
    PinNamesReparsed(a, s);
    PinNumbersRead(a1, s.pinNumbersHidden);
  }

  /** The header printed and parsed again sets the header fields, the pin-name flag included. */
  lemma HeaderReparsed(s: Symbol)
    ensures Fold(InitialSymbol(s.symbolId), Map(SymbolHeader(s), Normalize), SymbolChildStep())
         == Some(HeaderOf(s).(pinNamesHidden := s.pinNamesHidden))
  {
    var a0 := InitialSymbol(s.symbolId);
    var display := Optional(NormalizedPinNames(s)) + Optional(PinNumbersNode(s.pinNumbersHidden));
    HeaderNormalForm(s);
    FoldConcat(a0, display, AttributeHeader(s), SymbolChildStep());
    PinDisplayReparsed(a0, s);
    AttributesRead(a0.(pinNamesHidden := s.pinNamesHidden, pinNamesOffset := s.pinNamesOffset,
                       pinNumbersHidden := s.pinNumbersHidden), s);
  }

  lemma UnitNormalForm(s: Symbol, i: nat)
    requires i < |s.units|
    ensures |Map(WriteUnits(s), Normalize)| == |ReparsedUnits(s)| == |s.units|
    ensures Map(WriteUnits(s), Normalize)[i] == Normalize(WriteSymbol(s.units[i]))
    ensures ReparsedUnits(s)[i] == ReparsedBack(s.units[i])
  {
    var ws := WriteUnits(s);
    assert |ws| == |s.units| && ws[i] == WriteSymbol(s.units[i]);
    assert Map(ws, Normalize)[i] == Normalize(ws[i]);
  }

  /** The units of a symbol, printed and parsed again, read as their own reparsed read-back. */
  lemma {:induction false} UnitsReparsed(s: Symbol)
    ensures UnitNodes(Map(WriteUnits(s), Normalize), ReparsedUnits(s))
    decreases s, 0
  {
    forall i | 0 <= i < |s.units|
      ensures Map(WriteUnits(s), Normalize)[i].name == "symbol"
      ensures ReadSymbol(Map(WriteUnits(s), Normalize)[i]) == Some(ReparsedUnits(s)[i])
    {
      UnitNormalForm(s, i);
      SymbolReparsed(s.units[i]);
    }
    assert |Map(WriteUnits(s), Normalize)| == |ReparsedUnits(s)|;
  }

  /**
   * `Symbol::serialize`, printed and parsed again, read by
   * `Symbol::deserialize`: the symbol comes back as `ReparsedBack` says,
   * hidden pin names included.
   */
  lemma {:induction false} SymbolReparsed(s: Symbol)
    ensures Normalize(WriteSymbol(s)).name == "symbol"
    ensures ReadSymbol(Normalize(WriteSymbol(s))) == Some(ReparsedBack(s))
    decreases s, 1
  {
    var w := WriteSymbol(s);
    var hd, el, un := Map(SymbolHeader(s), Normalize), Map(SymbolElements(s), Normalize), Map(WriteUnits(s), Normalize);
    var h := HeaderOf(s).(pinNamesHidden := s.pinNamesHidden);
    var e := ElementsOf(s).(pinNamesHidden := s.pinNamesHidden);
    NormalizeNeutralNode(w);
    MapConcat(SymbolHeader(s) + SymbolElements(s), WriteUnits(s), Normalize);
    MapConcat(SymbolHeader(s), SymbolElements(s), Normalize);
    HeaderReparsed(s);
    ElementsReparsed(s);
    UnitsReparsed(s);
    UnitsRead(e, un, ReparsedUnits(s));
    ReadSymbolLayout(Normalize(w), hd, el, un, h, e, ReparsedBack(s));
  }

  /** A text node laid out as written, with any effects node that reads as the text's effects, reads as the text. */
  lemma TextLayoutRead(t: SymbolText, e: SyntaxItem)
    requires e.name == "effects" && ReadEffect(e) == Some(t.effects)
    ensures ReadText(SyntaxItem("text", [QuotedString(t.text, Neutral)], [WritePosition(t.position), e])) == Some(t)
  {
    var n := SyntaxItem("text", [QuotedString(t.text, Neutral)], [WritePosition(t.position), e]);
    NamedChildAt(n, 0);
    NamedChildAt(n, 1);
    PositionRoundTrip(t.position);
  }

  lemma TextNormalForm(t: SymbolText)
    ensures Normalize(WriteText(t))
         == SyntaxItem("text", [QuotedString(t.text, Neutral)], [WritePosition(t.position), Normalize(WriteEffect(t.effects))])
  {
    NormalizeNeutralNode(WriteText(t));
    PositionNormal(t.position);
    MapTwo(WritePosition(t.position), WriteEffect(t.effects), Normalize);
  }

  /** A text printed and parsed again reads back unchanged, a hidden one included. */
  lemma TextReparsed(t: SymbolText)
    ensures Normalize(WriteText(t)).name == "text"
    ensures ReadText(Normalize(WriteText(t))) == Some(t)
  {
    TextNormalForm(t);
    EffectReparsed(t.effects);
    TextLayoutRead(t, Normalize(WriteEffect(t.effects)));
  }

  /** A property node laid out as written, with any effects node that reads as the property's effects, reads as the property. */
  lemma PropertyLayoutRead(p: Property, e: SyntaxItem)
    requires e.name == "effects" && ReadEffect(e) == Some(p.effects)
    ensures ReadProperty(SyntaxItem("property", [QuotedString(p.key, Neutral), QuotedString(p.value, Neutral)],
                                    PropertyChildList(p, e))) == Some(p)
  {
    var id := if p.id.Some? then Some(WriteId(p.id.value)) else None;
    var hideNode := if p.hidden then Some(FromSingleArgument("hide", Identifier("yes", Neutral))) else None;
    var n := SyntaxItem("property", [QuotedString(p.key, Neutral), QuotedString(p.value, Neutral)], PropertyChildList(p, e));
    PropertyChildren(n, id, WritePosition(p.position), e, hideNode);
    ReadPropertyLayout(n, p.key, p.value, id, WritePosition(p.position), e, hideNode);
    if p.id.Some? {
      IdRoundTrip(p.id.value);
    }
    PositionRoundTrip(p.position);
  }

  /** The children of a property as written, with `e` in place of the effects node. */
  function PropertyChildList(p: Property, e: SyntaxItem): seq<SyntaxItem>
  {
    Optional(if p.id.Some? then Some(WriteId(p.id.value)) else None)
    + [WritePosition(p.position), e]
    + Optional(if p.hidden then Some(FromSingleArgument("hide", Identifier("yes", Neutral))) else None)
  }

  /** A property printed and parsed again reads back unchanged, with hidden effects and its `hide` flag. */
  lemma PropertyReparsed(p: Property)
    ensures Normalize(WriteProperty(p)).name == "property"
    ensures ReadProperty(Normalize(WriteProperty(p))) == Some(p)
  {
    var w := WriteProperty(p);
    var id := if p.id.Some? then Some(WriteId(p.id.value)) else None;
    var hideNode := if p.hidden then Some(FromSingleArgument("hide", Identifier("yes", Neutral))) else None;
    var e := Normalize(WriteEffect(p.effects));
    assert w.children == PropertyChildList(p, WriteEffect(p.effects));
    NormalizeNeutralNode(w);
    PropertyChildrenReparsed(p);
    EffectReparsed(p.effects);
    PropertyLayoutRead(p, e);
  }

  lemma PropertyChildrenReparsed(p: Property)
    ensures Map(PropertyChildList(p, WriteEffect(p.effects)), Normalize) == PropertyChildList(p, Normalize(WriteEffect(p.effects)))
  {
    var id := if p.id.Some? then Some(WriteId(p.id.value)) else None;
    var hideNode := if p.hidden then Some(FromSingleArgument("hide", Identifier("yes", Neutral))) else None;
    var middle := [WritePosition(p.position), WriteEffect(p.effects)];
    OptionalNormal(id);
    OptionalNormal(hideNode);
    PositionNormal(p.position);
    MapTwo(WritePosition(p.position), WriteEffect(p.effects), Normalize);
    MapConcat(Optional(id) + middle, Optional(hideNode), Normalize);
    MapConcat(Optional(id), middle, Normalize);
  }

  /** A `name` or `number` child printed and parsed again still reads as its text and effects. */
  lemma LabelReparsed(name: string, text: string, effects: TextEffect)
    ensures Normalize(LabelNode(name, text, effects)).name == name
    ensures ReadLabel(Normalize(LabelNode(name, text, effects))) == Some((text, effects))
  {
    var c := LabelNode(name, text, effects);
    NormalizeSmall(c);
    NormalizeNeutralArguments(c);
    EffectReparsed(effects);
  }

  /** The normal form of an optional label child. */
  function NormalizedLabel(name: string, text: Option<string>, effects: TextEffect): Option<SyntaxItem>
  {
    if text.Some? then Some(Normalize(LabelNode(name, text.value, effects))) else None
  }

  /** The children of a pin as written, with the given name and number nodes. */
  function PinChildList(p: SymbolPin, nameChild: Option<SyntaxItem>, numberChild: Option<SyntaxItem>): seq<SyntaxItem>
  {
    [WritePosition(p.position), FromSingleArgument("length", Number(p.length, Neutral))]
    + Optional(nameChild) + Optional(numberChild)
  }

  lemma PinChildrenReparsed(p: SymbolPin)
    ensures Map(PinChildList(p, LabelChild("name", p.name, p.nameEffects), LabelChild("number", p.number, p.numberEffects)),
                Normalize)
         == PinChildList(p, NormalizedLabel("name", p.name, p.nameEffects), NormalizedLabel("number", p.number, p.numberEffects))
  {
    var front := [WritePosition(p.position), FromSingleArgument("length", Number(p.length, Neutral))];
    var nameChild := LabelChild("name", p.name, p.nameEffects);
    var numberChild := LabelChild("number", p.number, p.numberEffects);
    PositionNormal(p.position);
    NormalizeSettled(front[1]);
    MapTwo(front[0], front[1], Normalize);
    MapOptional(nameChild, Normalize);
    MapOptional(numberChild, Normalize);
    MapConcat(front + Optional(nameChild), Optional(numberChild), Normalize);
    MapConcat(front, Optional(nameChild), Normalize);
  }

  /** A pin printed and parsed again reads back as it does from its written tree. */
  lemma PinReparsed(p: SymbolPin)
    ensures Normalize(WritePin(p)).name == "pin"
    ensures ReadPin(Normalize(WritePin(p))) == Some(PinBack(p))
  {
    var w := WritePin(p);
    var nameNormal := NormalizedLabel("name", p.name, p.nameEffects);
    var numberNormal := NormalizedLabel("number", p.number, p.numberEffects);
    assert w.children == PinChildList(p, LabelChild("name", p.name, p.nameEffects), LabelChild("number", p.number, p.numberEffects));
    NormalizeNeutralNode(w);
    PinChildrenReparsed(p);
    if p.name.Some? {
      LabelReparsed("name", p.name.value, p.nameEffects);
    }
    if p.number.Some? {
      LabelReparsed("number", p.number.value, p.numberEffects);
    }
    PinLayoutRead(p, nameNormal, numberNormal);
  }

  /** A pin node laid out as written, with any name and number nodes that read as the pin's labels, reads as `PinBack`. */
  lemma PinLayoutRead(p: SymbolPin, nameChild: Option<SyntaxItem>, numberChild: Option<SyntaxItem>)
    requires nameChild.Some? <==> p.name.Some?
    requires nameChild.Some? ==> nameChild.value.name == "name" && ReadLabel(nameChild.value) == Some((p.name.value, p.nameEffects))
    requires numberChild.Some? <==> p.number.Some?
    requires numberChild.Some? ==> numberChild.value.name == "number"
                                   && ReadLabel(numberChild.value) == Some((p.number.value, p.numberEffects))
    ensures ReadPin(SyntaxItem("pin", WritePin(p).arguments, PinChildList(p, nameChild, numberChild))) == Some(PinBack(p))
  {
    ElectricalTypeRoundTrip(p.electricalType, "");
    WrittenStyleReadsSwapped(p.graphicStyle);
    PinChildrenLayout(DefaultPin(p.electricalType, SwapLowStyles(p.graphicStyle)), p, nameChild, numberChild);
  }

  // ---------------------------------------------------------------------
  // SymbolLib: the `kicad_symbol_lib` file
  // ---------------------------------------------------------------------

  datatype SymbolLib = SymbolLib(version: USize, generator: string, generatorVersion: Option<string>, symbols: seq<Symbol>)

  /** `(version v)`, `(generator g)` and, when set, `(generator_version "x")`, with the version argument given. */
  function LibHeader(l: SymbolLib, version: SyntaxArgument): seq<SyntaxItem>
  {
    [FromSingleArgument("version", version), FromSingleArgument("generator", Identifier(l.generator, Neutral))]
    + Optional(QuotedNode("generator_version", l.generatorVersion))
  }

  /** `SymbolLib::serialize`: the version is written as a word, then the header, then the symbols. */
  function WriteSymbolLib(l: SymbolLib): SyntaxItem
  {
    SyntaxItem("kicad_symbol_lib", [], LibHeader(l, Identifier(NatText(l.version), Neutral)) + Map(l.symbols, WriteSymbol))
  }

  function EmptyLib(): SymbolLib
  {
    SymbolLib(0, "", None, [])
  }

  /** One child of `kicad_symbol_lib`; the version must be a number and is cast to `usize`. */
  function LibChild(lib: SymbolLib, c: SyntaxItem): Option<SymbolLib>
  {
    match c.name
    case "symbol" =>
      var s :- ReadSymbol(c);
      Some(lib.(symbols := lib.symbols + [s]))
    case "version" =>
      var n :- NumberAt(c, 0);
      Some(lib.(version := CastUnsigned(n, USIZE_MAX)))
    case "generator" =>
      var g :- StringAt(c, 0);
      Some(lib.(generator := g))
    case "generator_version" =>
      var g :- StringAt(c, 0);
      Some(lib.(generatorVersion := Some(g)))
    case _ => None
  }

  function LibChildStep(): (SymbolLib, SyntaxItem) -> Option<SymbolLib>
  {
    (lib: SymbolLib, c: SyntaxItem) => LibChild(lib, c)
  }

  /** `SymbolLib::deserialize`: the children read in order onto the empty library. */
  function ReadSymbolLib(t: SyntaxItem): Option<SymbolLib>
  {
    Fold(EmptyLib(), t.children, LibChildStep())
  }

  /** `SymbolLib::deserialize`: the loop over the children. */
  method DeserializeSymbolLib(syntax: SyntaxItem) returns (r: Option<SymbolLib>)
    ensures r == ReadSymbolLib(syntax)
  {
    var lib := EmptyLib();
    var i := 0;
    assert syntax.children[0..] == syntax.children;
    while i < |syntax.children|
      invariant i <= |syntax.children|
      invariant ReadSymbolLib(syntax) == Fold(lib, syntax.children[i..], LibChildStep())
    {
      FoldAdvance(lib, syntax.children, i, LibChildStep());
      var child := syntax.children[i];
      if child.name == "symbol" {
        var s := DeserializeSymbol(child);
        if s.None? { return None; }
        lib := lib.(symbols := lib.symbols + [s.value]);
      } else {
        var next := LibChild(lib, child);
        if next.None? { return None; }
        lib := next.value;
      }
      i := i + 1;
    }
    return Some(lib);
  }

  /**
   * The library's own tree does not read back directly: the version is
   * written as a word and read with `get_number`, which panics on a word.
   */
  lemma LibDirectReadFails(l: SymbolLib)
    ensures ReadSymbolLib(WriteSymbolLib(l)).None?
  {
    var t := WriteSymbolLib(l);
    assert t.children[0] == FromSingleArgument("version", Identifier(NatText(l.version), Neutral));
    VersionWordStep(EmptyLib(), NatText(l.version));
    FirstChildFails(t.children);
  }

  /** Children whose first one is refused do not read as a library. */
  lemma FirstChildFails(children: seq<SyntaxItem>)
    requires |children| > 0 && LibChild(EmptyLib(), children[0]).None?
    ensures Fold(EmptyLib(), children, LibChildStep()).None?
  {
  }

  /** `get_number` fails on a `version` node that holds a word. */
  lemma VersionWordStep(a: SymbolLib, w: string)
    ensures LibChild(a, FromSingleArgument("version", Identifier(w, Neutral))).None?
  {
    var c := FromSingleArgument("version", Identifier(w, Neutral));
    assert c.name == "version" && NumberAt(c, 0).None?;
  }

  /** The tokenizer reads the printed version word as a number token of the same value. */
  lemma VersionWordIsNumber(v: nat, pos: nat)
    ensures WordToken(NatText(v), pos) == NumberToken(pos, Finite(v as real))
  {
    NatTextValue(v);
    ParseDigits(NatText(v));
  }

  /** The written library tree with the version word turned into the number the tokenizer reads it as. */
  function NumberedTree(l: SymbolLib): SyntaxItem
  {
    SyntaxItem("kicad_symbol_lib", [], LibHeader(l, Number(Finite(l.version as real), Neutral)) + Map(l.symbols, WriteSymbol))
  }

  /**
   * The library tree as printing and parsing hand it back: the version word
   * has become a number (`VersionWordIsNumber`) and every node is in its
   * normal form (`TreeParser.ParseGenerated`). The generator is free text
   * written as a word; it is taken to read back as that word.
   */
  function Retokenized(l: SymbolLib): SyntaxItem
  {
    Normalize(NumberedTree(l))
  }

  lemma DispatchLibSymbol(a: SymbolLib, c: SyntaxItem)
    requires c.name == "symbol"
    ensures LibChild(a, c) == (match ReadSymbol(c) case None => None case Some(s) => Some(a.(symbols := a.symbols + [s])))
  {
  }

  /** A run of `symbol` children is read in order onto the library's symbols. */
  lemma LibSymbolsRead(a: SymbolLib, items: seq<SyntaxItem>, ss: seq<Symbol>)
    requires UnitNodes(items, ss)
    ensures Fold(a, items, LibChildStep()) == Some(a.(symbols := a.symbols + ss))
  {
    forall b: SymbolLib, i | 0 <= i < |items|
      ensures LibChild(b, items[i]) == Some(b.(symbols := b.symbols + [ss[i]]))
    {
      DispatchLibSymbol(b, items[i]);
    }
    FoldCollect(a, items, ss, (b: SymbolLib) => b.symbols, (b: SymbolLib, xs: seq<Symbol>) => b.(symbols := xs),
                LibChildStep());
  }

  /** Written symbols, printed and parsed again, read back one by one as `ReparsedBack` says. */
  lemma SymbolsReparsed(ss: seq<Symbol>)
    ensures UnitNodes(Map(Map(ss, WriteSymbol), Normalize), Map(ss, ReparsedBack))
  {
    forall i | 0 <= i < |ss|
      ensures Map(Map(ss, WriteSymbol), Normalize)[i].name == "symbol"
      ensures ReadSymbol(Map(Map(ss, WriteSymbol), Normalize)[i]) == Some(Map(ss, ReparsedBack)[i])
    {
      SymbolReparsed(ss[i]);
    }
  }

  /** The header children are placed None throughout: printing and parsing leaves them as written. */
  lemma LibHeaderSettled(l: SymbolLib)
    ensures Map(LibHeader(l, Number(Finite(l.version as real), Neutral)), Normalize)
         == LibHeader(l, Number(Finite(l.version as real), Neutral))
  {
    var h := LibHeader(l, Number(Finite(l.version as real), Neutral));
    forall i | 0 <= i < |h|
      ensures Settled(h[i])
    {
      assert h[i] in h;
    }
    NormalizeSettledAll(h);
  }

  /** The normal form of the library tree: the header as written, then each symbol's normal form. */
  lemma RetokenizedLayout(l: SymbolLib)
    ensures Retokenized(l).children
         == LibHeader(l, Number(Finite(l.version as real), Neutral)) + Map(Map(l.symbols, WriteSymbol), Normalize)
  {
    var t := NumberedTree(l);
    NormalizeNeutralNode(t);
    MapConcat(LibHeader(l, Number(Finite(l.version as real), Neutral)), Map(l.symbols, WriteSymbol), Normalize);
    LibHeaderSettled(l);
  }

  /** The header children, with the version as a number, set the version, generator and generator version. */
  lemma LibHeaderRead(l: SymbolLib)
    ensures Fold(EmptyLib(), LibHeader(l, Number(Finite(l.version as real), Neutral)), LibChildStep())
         == Some(l.(symbols := []))
  {
    var v := FromSingleArgument("version", Number(Finite(l.version as real), Neutral));
    var g := FromSingleArgument("generator", Identifier(l.generator, Neutral));
    var a2 := EmptyLib().(version := l.version, generator := l.generator);
    CastWhole(l.version, USIZE_MAX);
    var a1 := EmptyLib().(version := l.version);
    assert LibChild(EmptyLib(), v) == Some(a1);
    assert LibChild(a1, g) == Some(a2);
    assert [v, g][1..] == [g] && [g][1..] == [];
    assert Fold(a1, [g], LibChildStep()) == Some(a2);
    assert Fold(EmptyLib(), [v, g], LibChildStep()) == Some(a2);
    FoldOptional(a2, QuotedNode("generator_version", l.generatorVersion), LibChildStep());
    FoldJoin(EmptyLib(), [v, g], Optional(QuotedNode("generator_version", l.generatorVersion)),
             LibChildStep(), a2, l.(symbols := []));
  }

  /** A library node whose header children read as `h` and whose other children read as `ss` reads as `h` with `ss` added. */
  lemma ReadSymbolLibLayout(t: SyntaxItem, hd: seq<SyntaxItem>, items: seq<SyntaxItem>, h: SymbolLib, ss: seq<Symbol>)
    requires t.children == hd + items && Fold(EmptyLib(), hd, LibChildStep()) == Some(h) && UnitNodes(items, ss)
    ensures ReadSymbolLib(t) == Some(h.(symbols := h.symbols + ss))
  {
    LibSymbolsRead(h, items, ss);
    FoldJoin(EmptyLib(), hd, items, LibChildStep(), h, h.(symbols := h.symbols + ss));
  }

  /**
   * `SymbolLib::serialize`, printed and parsed again (so the version is a
   * number and every node is in its normal form), read by
   * `SymbolLib::deserialize`: the library comes back with each symbol as
   * `ReparsedBack` describes it.
   */
  lemma LibRoundTrip(l: SymbolLib)
    ensures ReadSymbolLib(Retokenized(l)) == Some(l.(symbols := Map(l.symbols, ReparsedBack)))
  {
    LibHeaderRead(l);
    SymbolsReparsed(l.symbols);
    RetokenizedLayout(l);
    ReadSymbolLibLayout(Retokenized(l), LibHeader(l, Number(Finite(l.version as real), Neutral)),
                        Map(Map(l.symbols, WriteSymbol), Normalize), l.(symbols := []), Map(l.symbols, ReparsedBack));
    assert [] + Map(l.symbols, ReparsedBack) == Map(l.symbols, ReparsedBack);
  }
}

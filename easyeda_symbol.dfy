/**
 * An EasyEDA symbol (`src/easyeda/symbol.rs`): the parse of its record
 * file into elements, the designator lookup, and the conversion of the
 * elements into a KiCad symbol. The conversion walks the elements once,
 * keeping the line and font styles seen so far and the KiCad symbols made
 * so far (one per `PART`); every drawn element goes to the symbol of the
 * latest `PART`. A symbol with several parts becomes a root symbol whose
 * units are the parts, renamed after their common base name.
 */
module EasyedaSymbol {
  import opened Wrappers
  import opened Numbers
  import opened JsonReader
  import opened EasyedaCommon
  import opened EasyedaSymbolRecords
  import opened SymbolStyles
  import opened Common
  import opened SymbolLibrary

  // ---------------------------------------------------------------------
  // Parsing the file
  // ---------------------------------------------------------------------

  /** `EasyEDASymbol`: the elements in file order; the part number is filled in elsewhere. */
  datatype SymbolFile = SymbolFile(elements: seq<SymbolElement>, partNumber: Option<string>)

  /**
   * The elements of one line: none for an empty line or a line without a
   * record; the text is read as a JSON array by `json` (serde_json, whose
   * failure is a JSON error).
   */
  function LineElements(line: string, json: string -> Option<seq<JsonValue>>)
    : Result<seq<SymbolElement>, Failure<ParserError>>
  {
    if line == "" then Ok([])
    else if json(line).None? then Err(Raised(JsonError))
    else
      var element :- EasyedaSymbolRecords.SymbolLine(json(line).value);
      Ok(if element.Some? then [element.value] else [])
  }

  /** The elements of the lines, first to last, the first failure ending the parse. */
  function ElementsOf(lines: seq<string>, json: string -> Option<seq<JsonValue>>)
    : Result<seq<SymbolElement>, Failure<ParserError>>
  {
    if lines == [] then Ok([])
    else
      var first :- LineElements(lines[0], json);
      var rest :- ElementsOf(lines[1..], json);
      Ok(first + rest)
  }

  /** `EasyEDASymbol::parse` of a file's text. */
  function SymbolOf(text: string, json: string -> Option<seq<JsonValue>>): (r: Result<SymbolFile, Failure<ParserError>>)
    ensures r.Ok? ==> r.value.partNumber.None?
  {
    var elements :- ElementsOf(SplitTerminator(text), json);
    Ok(SymbolFile(elements, None))
  }

  /** The elements gathered so far put before the outcome of the remaining lines. */
  function After(prefix: seq<SymbolElement>, rest: Result<seq<SymbolElement>, Failure<ParserError>>)
    : Result<seq<SymbolElement>, Failure<ParserError>>
  {
    if rest.Ok? then Ok(prefix + rest.value) else rest
  }

  /** One line read: its failure ends the parse, or its elements join those before. */
  lemma NextLine(prefix: seq<SymbolElement>, lines: seq<string>, i: nat, json: string -> Option<seq<JsonValue>>)
    requires i < |lines|
    ensures After(prefix, ElementsOf(lines[i..], json)) ==
              (if LineElements(lines[i], json).Err? then LineElements(lines[i], json)
               else After(prefix + LineElements(lines[i], json).value, ElementsOf(lines[i + 1..], json)))
  {
    assert lines[i..][1..] == lines[i + 1..] && lines[i..][0] == lines[i];
    var first := LineElements(lines[i], json);
    var rest := ElementsOf(lines[i + 1..], json);
    if first.Ok? && rest.Ok? {
      assert prefix + (first.value + rest.value) == prefix + first.value + rest.value;
    }
  }

  /** `EasyEDASymbol::parse`: the loop over the lines, pushing each element read. */
  method ParseSymbol(text: string, json: string -> Option<seq<JsonValue>>) returns (r: Result<SymbolFile, Failure<ParserError>>)
    ensures r == SymbolOf(text, json)
  {
    var lines := SplitTerminator(text);
    var elements: seq<SymbolElement> := [];
    assert lines[0..] == lines;
    assert ElementsOf(lines, json).Ok? ==> [] + ElementsOf(lines, json).value == ElementsOf(lines, json).value;
    for i := 0 to |lines|
      invariant After(elements, ElementsOf(lines[i..], json)) == ElementsOf(lines, json)
    {
      NextLine(elements, lines, i, json);
      var line := lines[i];
      if |line| == 0 {
        assert elements + [] == elements;
        continue;
      }
      var values := json(line);
      if values.None? {
        return Err(Raised(JsonError));
      }
      var property := ParseSymbolLine(values.value);
      if property.Err? {
        return Err(property.error);
      }
      if property.value.None? {
        assert elements + [] == elements;
        continue;
      }
      elements := elements + [property.value.value];
    }
    assert elements + [] == elements;
    r := Ok(SymbolFile(elements, None));
  }

  /** Parsing two runs of lines one after the other gives the first run's elements, then the second's. */
  lemma {:induction false} ElementsAppend(a: seq<string>, b: seq<string>, json: string -> Option<seq<JsonValue>>)
    ensures ElementsOf(a + b, json) ==
              (if ElementsOf(a, json).Err? then ElementsOf(a, json)
               else After(ElementsOf(a, json).value, ElementsOf(b, json)))
  {
    if a == [] {
      assert a + b == b;
      assert ElementsOf(b, json).Ok? ==> [] + ElementsOf(b, json).value == ElementsOf(b, json).value;
    } else {
      assert (a + b)[0] == a[0] && (a + b)[1..] == a[1..] + b;
      ElementsAppend(a[1..], b, json);
      var first := LineElements(a[0], json);
      if first.Ok? && ElementsOf(a[1..], json).Ok? && ElementsOf(b, json).Ok? {
        var x, y, z := first.value, ElementsOf(a[1..], json).value, ElementsOf(b, json).value;
        assert x + (y + z) == (x + y) + z;
      }
    }
  }

  /** Empty lines add nothing: the parse reads the same as over the other lines alone. */
  lemma {:induction false} EmptyLinesIgnored(lines: seq<string>, json: string -> Option<seq<JsonValue>>)
    ensures ElementsOf(NonEmptyLines(lines), json) == ElementsOf(lines, json)
  {
    if lines != [] {
      EmptyLinesIgnored(lines[1..], json);
      if lines[0] == "" {
        var rest := ElementsOf(lines[1..], json);
        assert rest.Ok? ==> [] + rest.value == rest.value;
      } else {
        assert NonEmptyLines(lines) == [lines[0]] + NonEmptyLines(lines[1..]);
      }
    }
  }

  // ---------------------------------------------------------------------
  // Designator
  // ---------------------------------------------------------------------

  /** An attribute keyed `Designator` that belongs to no other element. */
  predicate IsDesignator(e: SymbolElement)
  {
    e.AttrElement? && e.attribute.key == "Designator" && (e.attribute.parentId.None? || e.attribute.parentId.value == "")
  }

  /**
   * `get_designator`: the value of the first top-level `Designator`
   * attribute (which may itself be absent), or nothing when there is none.
   */
  method GetDesignator(s: SymbolFile) returns (r: Option<string>)
    ensures (forall i | 0 <= i < |s.elements| :: !IsDesignator(s.elements[i])) ==> r.None?
    ensures forall i | 0 <= i < |s.elements| && IsDesignator(s.elements[i]) ::
              (forall j | 0 <= j < i :: !IsDesignator(s.elements[j])) ==> r == s.elements[i].attribute.value
  {
    for i := 0 to |s.elements|
      invariant forall j | 0 <= j < i :: !IsDesignator(s.elements[j])
    {
      var element := s.elements[i];
      if element.AttrElement? {
        var attribute := element.attribute;
        if attribute.key != "Designator" {
          continue;
        }
        if attribute.parentId.None? || attribute.parentId.value == "" {
          return attribute.value;
        }
      }
    }
    return None;
  }

  // ---------------------------------------------------------------------
  // Drawing elements
  // ---------------------------------------------------------------------

  /** One EasyEDA symbol unit is 10 mil, 0.254 mm. */
  const ScaleFactor: real := 0.254

  /** A length in millimetres. */
  function Millimetres(x: real): (r: Num)
    ensures r.Finite? && r.value == x * ScaleFactor
  {
    Finite(x * ScaleFactor)
  }

  /** A point in millimetres, without angle. */
  function PointAt(x: real, y: real): (r: Position)
    ensures r.x == Millimetres(x) && r.y == Millimetres(y) && r.angle.None?
  {
    Position(Millimetres(x), Millimetres(y), None)
  }

  /**
   * The stroke of a shape drawn in a line style: its width, or 0.254 when
   * the style has none (the width is not scaled), a solid dash, and the
   * style's colour read from hex (text that is no colour panics).
   */
  function StrokeOf(style: LineStyle): (r: Result<StrokeDefinition, Failure<SymbolConverterError>>)
    ensures r.Err? <==> style.strokeColor.Some? && FromHex(style.strokeColor.value).None?
    ensures r.Ok? ==> r.value.width == Finite(style.strokeWidth.UnwrapOr(0.254)) && r.value.dash == Some(Solid)
    ensures r.Ok? ==> (r.value.color.Some? <==> style.strokeColor.Some?)
  {
    if style.strokeColor.None? then Ok(StrokeDefinition(Finite(style.strokeWidth.UnwrapOr(0.254)), Some(Solid), None))
    else
      var color :- Unwrapped(FromHex(style.strokeColor.value));
      Ok(StrokeDefinition(Finite(style.strokeWidth.UnwrapOr(0.254)), Some(Solid), Some(color)))
  }

  function RectangleShape(r: Rectangle, stroke: StrokeDefinition): SymbolRectangle
  {
    SymbolRectangle(PointAt(r.x, r.y), PointAt(r.endX, r.endY), stroke, Background)
  }

  function CircleShape(cx: real, cy: real, radius: real, stroke: StrokeDefinition): SymbolCircle
  {
    SymbolCircle(PointAt(cx, cy), Millimetres(radius), stroke, Outline)
  }

  function PolyLinePoints(points: seq<(real, real)>): (r: seq<Position>)
    ensures |r| == |points|
    ensures forall i | 0 <= i < |r| :: r[i] == PointAt(points[i].0, points[i].1)
  {
    if points == [] then [] else [PointAt(points[0].0, points[0].1)] + PolyLinePoints(points[1..])
  }

  function LineShape(l: PolyLine, stroke: StrokeDefinition): SymbolLine
  {
    SymbolLine(PolyLinePoints(l.points), stroke, Some(NoFill))
  }

  function ArcShape(a: Arc, stroke: StrokeDefinition): SymbolArc
  {
    SymbolArc(PointAt(a.x1, a.y1), PointAt(a.x2, a.y2), PointAt(a.x3, a.y3), stroke, NoFill)
  }

  /** Alignment 0 and 1 are left (or top), anything else right (or bottom). */
  function HorizontalOf(align: Option<U8>): Option<Horizontal>
  {
    if align.None? then None else if align.value <= 1 then Some(Left) else Some(Right)
  }

  function VerticalOf(align: Option<U8>): Option<Vertical>
  {
    if align.None? then None else if align.value <= 1 then Some(Top) else Some(Bottom)
  }

  /**
   * The effects of a text: the default ones, or, when its font style is
   * known, bold and italic as the style says, half the scaled font size,
   * and the style's alignment.
   */
  function TextEffectFor(styleId: Option<string>, styles: map<string, FontStyle>): (r: TextEffect)
    ensures styleId.None? || styleId.value !in styles ==> r == DefaultEffect()
    ensures styleId.Some? && styleId.value in styles ==>
              var style := styles[styleId.value];
              && (r.font.bold <==> style.isBold == Some(true))
              && (r.font.italic <==> style.isItalic == Some(true))
              && (style.fontSize.Some? ==> r.font.size.width == r.font.size.height == Finite(style.fontSize.value * 0.127))
              && (style.fontSize.None? ==> r.font.size == DefaultFont().size)
              && (r.justify.horizontal == Some(Left) <==> style.hAlign.Some? && style.hAlign.value <= 1)
              && (r.justify.horizontal.None? <==> style.hAlign.None?)
              && (r.justify.vertical == Some(Top) <==> style.vAlign.Some? && style.vAlign.value <= 1)
              && (r.justify.vertical.None? <==> style.vAlign.None?)
              && !r.hidden && !r.justify.mirror
  {
    if styleId.None? || styleId.value !in styles then DefaultEffect()
    else
      var style := styles[styleId.value];
      var font := DefaultFont().(bold := style.isBold == Some(true), italic := style.isItalic == Some(true));
      var sized := if style.fontSize.None? then font
                   else font.(size := FontSize(Finite(style.fontSize.value * ScaleFactor * 0.5),
                                               Finite(style.fontSize.value * ScaleFactor * 0.5)));
      DefaultEffect().(font := sized, justify := TextJustify(HorizontalOf(style.hAlign), VerticalOf(style.vAlign), false))
  }

  function TextShape(t: Text, styles: map<string, FontStyle>): SymbolText
  {
    SymbolText(t.text, Position(Millimetres(t.x), Millimetres(t.y), Some(Finite(t.rotation))), TextEffectFor(t.styleId, styles))
  }

  function GraphicStyleOf(shape: PinShape): PinGraphicStyle
  {
    match shape
    case PlainPin => Line
    case ClockPin => Clock
    case InvertedPin => Inverted
    case InvertedClockPin => InvertedClock
  }

  /** A pin with its number and name; its electrical type is left unspecified and its texts take the default effects. */
  function PinSymbol(p: Pin, number: string, name: string): SymbolPin
  {
    SymbolPin(Unspecified, GraphicStyleOf(p.pinShape), Position(Millimetres(p.x), Millimetres(p.y), Some(Finite(p.rotation))),
              Millimetres(p.length), Some(name), DefaultEffect(), Some(number), DefaultEffect())
  }

  /** The name a pin is given: `~` when it repeats the number. */
  function PinName(number: string, name: string): string
  {
    if number == name then "~" else name
  }

  // ---------------------------------------------------------------------
  // Attributes
  // ---------------------------------------------------------------------

  /** The attributes that belong to some element, in order. */
  function ChildAttributes(elements: seq<SymbolElement>): (r: seq<Attribute>)
    ensures forall i | 0 <= i < |r| :: r[i].parentId.Some?
  {
    if elements == [] then []
    else
      var rest := ChildAttributes(elements[1..]);
      if elements[0].AttrElement? && elements[0].attribute.parentId.Some? then [elements[0].attribute] + rest else rest
  }

  /** The last attribute of the element with the key. */
  function LastAttribute(attributes: seq<Attribute>, parent: string, key: string): (r: Option<Attribute>)
    ensures r.Some? ==> r.value.parentId == Some(parent) && r.value.key == key
    ensures r.Some? <==> exists i | 0 <= i < |attributes| :: attributes[i].parentId == Some(parent) && attributes[i].key == key
  {
    if attributes == [] then None
    else
      var last := attributes[|attributes| - 1];
      if last.parentId == Some(parent) && last.key == key then Some(last)
      else
        var r := LastAttribute(attributes[..|attributes| - 1], parent, key);
        assert forall i | 0 <= i < |attributes| - 1 :: attributes[..|attributes| - 1][i] == attributes[i];
        r
  }

  // ---------------------------------------------------------------------
  // Conversion
  // ---------------------------------------------------------------------

  /**
   * The state of the conversion loop: the styles by name, the symbols made
   * so far, and the index of the current one (`usize::MAX` before the
   * first `PART`).
   */
  datatype Conversion = Conversion(lineStyles: map<string, LineStyle>, textStyles: map<string, FontStyle>,
                                   symbols: seq<Symbol>, current: nat)

  const StartConversion: Conversion := Conversion(map[], map[], [], USIZE_MAX)

  /** The current symbol is always the latest one. */
  predicate CurrentIsLast(c: Conversion)
  {
    if c.symbols == [] then c.current == USIZE_MAX else c.current == |c.symbols| - 1
  }

  /** The symbol a `PART` starts: its id, in the BOM and on the board. */
  function PartSymbol(id: string): Symbol
  {
    InitialSymbol(id).(inBom := Some(true), onBoard := Some(true))
  }

  /** `all_symbols.get_mut(current_symbol_index).unwrap()`. */
  function CurrentSymbol(c: Conversion): (r: Result<nat, Failure<SymbolConverterError>>)
    ensures r.Ok? <==> c.current < |c.symbols|
    ensures r.Ok? ==> r.value == c.current
    ensures r.Err? ==> r.error == Panicked
  {
    if c.current < |c.symbols| then Ok(c.current) else Err(Panicked)
  }

  /** `line_styles.get(&style_id.unwrap()).unwrap()`. */
  function LineStyleFor(c: Conversion, styleId: Option<string>): (r: Result<LineStyle, Failure<SymbolConverterError>>)
    ensures r.Ok? <==> styleId.Some? && styleId.value in c.lineStyles
    ensures r.Ok? ==> r.value == c.lineStyles[styleId.value]
    ensures r.Err? ==> r.error == Panicked
  {
    if styleId.Some? && styleId.value in c.lineStyles then Ok(c.lineStyles[styleId.value]) else Err(Panicked)
  }

  /** Two runs of symbols with the same names in the same places. */
  predicate SameIds(a: seq<Symbol>, b: seq<Symbol>)
  {
    |a| == |b| && forall i | 0 <= i < |a| :: a[i].symbolId == b[i].symbolId
  }

  /** The state with symbol i redrawn: the symbols keep their names and the current one stays. */
  function Redrawn(c: Conversion, i: nat, s: Symbol): (r: Conversion)
    requires i < |c.symbols| && s.symbolId == c.symbols[i].symbolId
    ensures SameIds(c.symbols, r.symbols) && r.current == c.current
    ensures r.symbols[i] == s && forall k | 0 <= k < |c.symbols| && k != i :: r.symbols[k] == c.symbols[k]
  {
    c.(symbols := c.symbols[i := s])
  }

  /** A redrawing: the symbols keep their number and names, and the current symbol stays. */
  predicate Redraws(c: Conversion, next: Conversion)
  {
    SameIds(c.symbols, next.symbols) && next.current == c.current
  }

  /**
   * A drawing step: only the current symbol may change; the styles, the
   * current index and every other symbol stay.
   */
  predicate DrawsOnCurrent(c: Conversion, next: Conversion)
  {
    && c.current < |c.symbols| && Redraws(c, next)
    && next.lineStyles == c.lineStyles && next.textStyles == c.textStyles
    && forall k | 0 <= k < |c.symbols| && k != c.current :: next.symbols[k] == c.symbols[k]
  }

  /** A shape in line style `styleId` can be drawn: there is a current symbol, the style is defined and its colour reads. */
  predicate Drawable(c: Conversion, styleId: Option<string>)
  {
    && c.current < |c.symbols| && styleId.Some? && styleId.value in c.lineStyles
    && StrokeOf(c.lineStyles[styleId.value]).Ok?
  }

  /** The stroke of a drawable shape. */
  function StyleStroke(c: Conversion, styleId: Option<string>): StrokeDefinition
    requires Drawable(c, styleId)
  {
    StrokeOf(c.lineStyles[styleId.value]).value
  }

  /**
   * The current symbol and the stroke of a shape drawn in the line style
   * named `styleId`; the three lookups panic when they find nothing.
   */
  function Stroked(c: Conversion, styleId: Option<string>): (r: Result<(nat, StrokeDefinition), Failure<SymbolConverterError>>)
    ensures r.Ok? ==> r.value.0 == c.current < |c.symbols|
    ensures r.Ok? ==> styleId.Some? && styleId.value in c.lineStyles && StrokeOf(c.lineStyles[styleId.value]) == Ok(r.value.1)
    ensures r.Err? ==> r.error == Panicked
  {
    var i :- CurrentSymbol(c);
    var style :- LineStyleFor(c, styleId);
    var stroke :- StrokeOf(style);
    Ok((i, stroke))
  }

  /**
   * A rectangle is drawn on the current symbol between its two scaled
   * corners, in its style's stroke, with a background fill.
   */
  function AddRectangle(c: Conversion, r: Rectangle): (d: Result<Conversion, Failure<SymbolConverterError>>)
    ensures d.Ok? <==> Drawable(c, r.styleId)
    ensures d.Err? ==> d.error == Panicked
    ensures d.Ok? ==> DrawsOnCurrent(c, d.value)
    ensures d.Ok? ==>
              var before := c.symbols[c.current];
              var after := d.value.symbols[c.current];
              && after == before.(rectangles := after.rectangles)
              && after.rectangles == before.rectangles
                   + [SymbolRectangle(PointAt(r.x, r.y), PointAt(r.endX, r.endY), StyleStroke(c, r.styleId), Background)]
  {
    var (i, stroke) :- Stroked(c, r.styleId);
    var s := c.symbols[i];
    Ok(Redrawn(c, i, s.(rectangles := s.rectangles + [RectangleShape(r, stroke)])))
  }

  /**
   * A circle is drawn on the current symbol at its scaled centre, with its
   * radius in millimetres, in its style's stroke, with an outline fill.
   */
  function AddCircle(c: Conversion, circle: Circle): (d: Result<Conversion, Failure<SymbolConverterError>>)
    ensures d.Ok? <==> Drawable(c, circle.styleId)
    ensures d.Err? ==> d.error == Panicked
    ensures d.Ok? ==> DrawsOnCurrent(c, d.value)
    ensures d.Ok? ==>
              var before := c.symbols[c.current];
              var after := d.value.symbols[c.current];
              && after == before.(circles := after.circles)
              && after.circles == before.circles
                   + [SymbolCircle(PointAt(circle.cx, circle.cy), Millimetres(circle.radius), StyleStroke(c, circle.styleId), Outline)]
  {
    var (i, stroke) :- Stroked(c, circle.styleId);
    var s := c.symbols[i];
    Ok(Redrawn(c, i, s.(circles := s.circles + [CircleShape(circle.cx, circle.cy, circle.radius, stroke)])))
  }

  /** The current symbol and the style are looked up before the radii are compared; the stroke only after. */
  function AddEllipse(c: Conversion, ellipse: Ellipse): (d: Result<Conversion, Failure<SymbolConverterError>>)
    ensures d.Ok? ==> Redraws(c, d.value)
  {
    var i :- CurrentSymbol(c);
    var style :- LineStyleFor(c, ellipse.styleId);
    if ellipse.radiusX != ellipse.radiusY then Err(Raised(UnsupportedElement("Ellipse")))
    else
      var stroke :- StrokeOf(style);
      var s := c.symbols[i];
      Ok(Redrawn(c, i, s.(circles := s.circles + [CircleShape(ellipse.cx, ellipse.cy, ellipse.radiusX, stroke)])))
  }

  /**
   * A polyline is drawn on the current symbol through its scaled points,
   * in order, in its style's stroke, unfilled.
   */
  function AddPolyLine(c: Conversion, line: PolyLine): (d: Result<Conversion, Failure<SymbolConverterError>>)
    ensures d.Ok? <==> Drawable(c, line.styleId)
    ensures d.Err? ==> d.error == Panicked
    ensures d.Ok? ==> DrawsOnCurrent(c, d.value)
    ensures d.Ok? ==>
              var before := c.symbols[c.current];
              var after := d.value.symbols[c.current];
              && after == before.(lines := after.lines)
              && |after.lines| == |before.lines| + 1 && after.lines[..|before.lines|] == before.lines
              && var drawn := after.lines[|before.lines|];
              && |drawn.points| == |line.points|
              && (forall k | 0 <= k < |line.points| :: drawn.points[k] == PointAt(line.points[k].0, line.points[k].1))
              && drawn.stroke == StyleStroke(c, line.styleId) && drawn.fill == Some(NoFill)
  {
    var (i, stroke) :- Stroked(c, line.styleId);
    var s := c.symbols[i];
    Ok(Redrawn(c, i, s.(lines := s.lines + [LineShape(line, stroke)])))
  }

  /**
   * An arc is drawn on the current symbol through its three scaled points,
   * in its style's stroke, unfilled.
   */
  function AddArc(c: Conversion, arc: Arc): (d: Result<Conversion, Failure<SymbolConverterError>>)
    ensures d.Ok? <==> Drawable(c, arc.styleId)
    ensures d.Err? ==> d.error == Panicked
    ensures d.Ok? ==> DrawsOnCurrent(c, d.value)
    ensures d.Ok? ==>
              var before := c.symbols[c.current];
              var after := d.value.symbols[c.current];
              && after == before.(arcs := after.arcs)
              && after.arcs == before.arcs
                   + [SymbolArc(PointAt(arc.x1, arc.y1), PointAt(arc.x2, arc.y2), PointAt(arc.x3, arc.y3),
                                StyleStroke(c, arc.styleId), NoFill)]
  {
    var (i, stroke) :- Stroked(c, arc.styleId);
    var s := c.symbols[i];
    Ok(Redrawn(c, i, s.(arcs := s.arcs + [ArcShape(arc, stroke)])))
  }

  /**
   * A text is drawn on the current symbol with its string, at its scaled
   * position with its rotation as angle, in the effects of its font style;
   * it needs no line style.
   */
  function AddText(c: Conversion, text: Text): (d: Result<Conversion, Failure<SymbolConverterError>>)
    ensures d.Ok? <==> c.current < |c.symbols|
    ensures d.Err? ==> d.error == Panicked
    ensures d.Ok? ==> DrawsOnCurrent(c, d.value)
    ensures d.Ok? ==>
              var before := c.symbols[c.current];
              var after := d.value.symbols[c.current];
              && after == before.(texts := after.texts)
              && after.texts == before.texts
                   + [SymbolText(text.text, Position(Millimetres(text.x), Millimetres(text.y), Some(Finite(text.rotation))),
                                 TextEffectFor(text.styleId, c.textStyles))]
  {
    var i :- CurrentSymbol(c);
    var s := c.symbols[i];
    Ok(Redrawn(c, i, s.(texts := s.texts + [TextShape(text, c.textStyles)])))
  }

  /** The pin's labels are the values of the last `NUMBER` and `NAME` attributes whose parent is the pin. */
  function AddPin(c: Conversion, pin: Pin, attributes: seq<Attribute>): (d: Result<Conversion, Failure<SymbolConverterError>>)
    ensures d.Ok? ==> Redraws(c, d.value)
  {
    var i :- CurrentSymbol(c);
    var numberAttribute :- Unwrapped(LastAttribute(attributes, pin.id, "NUMBER"));
    var nameAttribute :- Unwrapped(LastAttribute(attributes, pin.id, "NAME"));
    var number :- Unwrapped(numberAttribute.value);
    var name :- Unwrapped(nameAttribute.value);
    var s := c.symbols[i];
    Ok(Redrawn(c, i, s.(pins := s.pins + [PinSymbol(pin, number, PinName(number, name))])))
  }

  /** One element taken into the conversion. */
  function Convert(c: Conversion, e: SymbolElement, attributes: seq<Attribute>)
    : Result<Conversion, Failure<SymbolConverterError>>
  {
    match e
    case LineStyleElement(style) => Ok(c.(lineStyles := c.lineStyles[style.indexName := style]))
    case FontStyleElement(style) => Ok(c.(textStyles := c.textStyles[style.indexName := style]))
    case PartElement(part) => Ok(c.(symbols := c.symbols + [PartSymbol(part.id)], current := |c.symbols|))
    case AttrElement(_) => Ok(c)
    case RectElement(r) => AddRectangle(c, r)
    case CircleElement(circle) => AddCircle(c, circle)
    case EllipseElement(ellipse) => AddEllipse(c, ellipse)
    case PolyLineElement(line) => AddPolyLine(c, line)
    case ArcElement(arc) => AddArc(c, arc)
    case BezierElement(_) => Err(Raised(UnsupportedElement("Bezier")))
    case TextElement(text) => AddText(c, text)
    case PinElement(pin) => AddPin(c, pin, attributes)
    case ObjElement(_) =>
      var _ :- CurrentSymbol(c);
      Ok(c)
    case DocTypeElement(_) => Ok(c)
    case HeadElement(_) => Ok(c)
  }

  /** The elements taken in order, the first failure ending the conversion. */
  function ConvertAll(elements: seq<SymbolElement>, c: Conversion, attributes: seq<Attribute>)
    : Result<Conversion, Failure<SymbolConverterError>>
  {
    if elements == [] then Ok(c)
    else
      var next :- Convert(c, elements[0], attributes);
      ConvertAll(elements[1..], next, attributes)
  }

  // ---------------------------------------------------------------------
  // Units
  // ---------------------------------------------------------------------

  /** `rfind('.')`: the position of the last dot. */
  function LastDot(s: string): (r: Option<nat>)
    ensures r.None? ==> forall k | 0 <= k < |s| :: s[k] != '.'
    ensures r.Some? ==> r.value < |s| && s[r.value] == '.' && forall k | r.value < k < |s| :: s[k] != '.'
  {
    if s == [] then None
    else if s[|s| - 1] == '.' then Some(|s| - 1)
    else
      var r := LastDot(s[..|s| - 1]);
      assert forall k | 0 <= k < |s| - 1 :: s[..|s| - 1][k] == s[k];
      r
  }

  /** `parse::<usize>()`: an optional `+`, then at least one digit, the value fitting in 64 bits. */
  function ParseUsize(t: string): (r: Option<USize>)
  {
    var digits := if t != [] && t[0] == '+' then t[1..] else t;
    if digits == [] || !AllDigits(digits) || DigitsValue(digits) > USIZE_MAX then None
    else Some(DigitsValue(digits))
  }

  /** A unit name split at its last dot: the base, and the suffix read as a number. */
  function UnitName(id: string): (r: Option<(string, Option<USize>)>)
  {
    var dot := LastDot(id);
    if dot.None? then None else Some((id[..dot.value], ParseUsize(id[dot.value + 1..])))
  }

  predicate WellFormedUnit(id: string)
  {
    UnitName(id).Some? && UnitName(id).value.1.Some?
  }

  /**
   * The unit-name checks of a symbol with several parts: every name must be
   * `<base>.<n>`; the numbers must run 1, 2, … in order; the bases must all
   * be equal. The common base is the root symbol's name.
   */
  function UnitBase(ids: seq<string>): (r: Result<string, Failure<SymbolConverterError>>)
  {
    if exists i | 0 <= i < |ids| :: !WellFormedUnit(ids[i]) then Err(Raised(IncorrectUnitFormat))
    else if exists i | 0 <= i < |ids| :: UnitName(ids[i]).value.1.value != i + 1 then Err(Raised(IncorrectUnitNumIdentifier))
    else if exists i | 0 < i < |ids| :: UnitName(ids[i]).value.0 != UnitName(ids[i - 1]).value.0 then
      Err(Raised(IncorrectUnitName))
    else if ids == [] then Err(Panicked)
    else Ok(UnitName(ids[0]).value.0)
  }

  /** The names of the symbols, in order. */
  function Ids(symbols: seq<Symbol>): (r: seq<string>)
    ensures |r| == |symbols|
    ensures forall i | 0 <= i < |r| :: r[i] == symbols[i].symbolId
  {
    if symbols == [] then [] else [symbols[0].symbolId] + Ids(symbols[1..])
  }

  /** Unit i (from 1) of a root named `base`. */
  function UnitId(base: string, i: nat): string
  {
    base + "_" + NatText(i) + "_1"
  }

  /** A symbol as unit i (from 1): renamed after the base and its place, with the BOM and board flags cleared. */
  function AsUnit(base: string, s: Symbol, i: nat): Symbol
  {
    s.(symbolId := UnitId(base, i), inBom := None, onBoard := None)
  }

  /** The symbols as units, in order. */
  function Units(base: string, symbols: seq<Symbol>): (r: seq<Symbol>)
    ensures |r| == |symbols|
    ensures forall i | 0 <= i < |r| :: r[i] == AsUnit(base, symbols[i], i + 1)
  {
    seq(|symbols|, i requires 0 <= i < |symbols| => AsUnit(base, symbols[i], i + 1))
  }

  function RootSymbol(base: string, units: seq<Symbol>): Symbol
  {
    InitialSymbol(base).(inBom := Some(true), onBoard := Some(true), units := units)
  }

  /**
   * The symbol the conversion returns: with several parts, a root named
   * after their base that holds them as units; with one, that symbol in
   * the BOM and on the board; with none, the `pop().unwrap()` panics.
   */
  function Root(symbols: seq<Symbol>, complex: bool): Result<Symbol, Failure<SymbolConverterError>>
  {
    if complex then
      var base :- UnitBase(Ids(symbols));
      Ok(RootSymbol(base, Units(base, symbols)))
    else if symbols == [] then Err(Panicked)
    else Ok(symbols[|symbols| - 1].(inBom := Some(true), onBoard := Some(true)))
  }

  /** The number of `PART` elements. */
  function PartCount(elements: seq<SymbolElement>): nat
  {
    if elements == [] then 0 else (if elements[0].PartElement? then 1 else 0) + PartCount(elements[1..])
  }

  /** The ids of the `PART` elements, in order. */
  function PartIds(elements: seq<SymbolElement>): (r: seq<string>)
    ensures |r| == PartCount(elements)
  {
    if elements == [] then []
    else (if elements[0].PartElement? then [elements[0].part.id] else []) + PartIds(elements[1..])
  }

  /** `TryInto<Symbol> for EasyEDASymbol`. */
  function SymbolFrom(s: SymbolFile): Result<Symbol, Failure<SymbolConverterError>>
  {
    var c :- ConvertAll(s.elements, StartConversion, ChildAttributes(s.elements));
    Root(c.symbols, PartCount(s.elements) > 1)
  }

  /** `TryInto<SymbolLib> for EasyEDASymbol`: a library of the one symbol, version 20211014. */
  function SymbolLibFrom(s: SymbolFile): (r: Result<SymbolLib, Failure<SymbolConverterError>>)
    ensures r.Ok? <==> SymbolFrom(s).Ok?
    ensures r.Ok? ==> r.value.symbols == [SymbolFrom(s).value] && r.value.version == 20211014
                      && r.value.generator == "easyeda-to-kicad" && r.value.generatorVersion.None?
  {
    var symbol :- SymbolFrom(s);
    Ok(SymbolLib(20211014, "easyeda-to-kicad", None, [symbol]))
  }

  /** The first pass of `TryInto<Symbol>`: the attributes with a parent, and the number of parts. */
  method GatherAttributes(elements: seq<SymbolElement>) returns (attributes: seq<Attribute>, parts: nat)
    ensures attributes == ChildAttributes(elements) && parts == PartCount(elements)
  {
    attributes, parts := [], 0;
    for i := 0 to |elements|
      invariant attributes + ChildAttributes(elements[i..]) == ChildAttributes(elements)
      invariant parts + PartCount(elements[i..]) == PartCount(elements)
    {
      assert elements[i..][1..] == elements[i + 1..];
      var element := elements[i];
      if element.AttrElement? && element.attribute.parentId.Some? {
        attributes := attributes + [element.attribute];
      }
      if element.PartElement? {
        parts := parts + 1;
      }
    }
    assert elements[|elements|..] == [];
    assert attributes + [] == attributes;
  }

  /** The second pass: every element taken into the conversion, in order. */
  method ConvertElements(elements: seq<SymbolElement>, attributes: seq<Attribute>)
    returns (r: Result<Conversion, Failure<SymbolConverterError>>)
    ensures r == ConvertAll(elements, StartConversion, attributes)
  {
    var c := StartConversion;
    assert elements[0..] == elements;
    for i := 0 to |elements|
      invariant ConvertAll(elements[i..], c, attributes) == ConvertAll(elements, StartConversion, attributes)
    {
      assert elements[i..][1..] == elements[i + 1..];
      var next := Convert(c, elements[i], attributes);
      if next.Err? {
        return Err(next.error);
      }
      c := next.value;
    }
    r := Ok(c);
  }

  /** The renaming loop of the parts into units. */
  method MakeUnits(base: string, symbols: seq<Symbol>) returns (units: seq<Symbol>)
    ensures units == Units(base, symbols)
  {
    units := [];
    for k := 0 to |symbols|
      invariant |units| == k
      invariant forall j | 0 <= j < k :: units[j] == AsUnit(base, symbols[j], j + 1)
    {
      units := units + [AsUnit(base, symbols[k], k + 1)];
    }
  }

  /** The last step: the parts renamed as the units of a root symbol, or the single symbol. */
  method MakeRoot(symbols: seq<Symbol>, complex: bool) returns (r: Result<Symbol, Failure<SymbolConverterError>>)
    ensures r == Root(symbols, complex)
  {
    if complex {
      var base := UnitBase(Ids(symbols));
      if base.Err? {
        return Err(base.error);
      }
      var units := MakeUnits(base.value, symbols);
      r := Ok(RootSymbol(base.value, units));
    } else {
      if symbols == [] {
        return Err(Panicked);
      }
      r := Ok(symbols[|symbols| - 1].(inBom := Some(true), onBoard := Some(true)));
    }
  }

  /**
   * `TryInto<Symbol> for EasyEDASymbol`: the attributes with a parent are
   * gathered first; then the elements are converted in order; then the
   * parts are checked and renamed as units.
   */
  method ConvertSymbol(s: SymbolFile) returns (r: Result<Symbol, Failure<SymbolConverterError>>)
    ensures r == SymbolFrom(s)
  {
    var attributes, parts := GatherAttributes(s.elements);
    var c := ConvertElements(s.elements, attributes);
    if c.Err? {
      return Err(c.error);
    }
    r := MakeRoot(c.value.symbols, parts > 1);
  }

  // ---------------------------------------------------------------------
  // Properties of the conversion
  // ---------------------------------------------------------------------

  /** A `PART` starts a new symbol, which becomes the current one. */
  lemma PartStep(c: Conversion, e: SymbolElement, attributes: seq<Attribute>)
    requires e.PartElement?
    ensures Convert(c, e, attributes).Ok?
    ensures Convert(c, e, attributes).value.symbols == c.symbols + [PartSymbol(e.part.id)]
    ensures Convert(c, e, attributes).value.current == |c.symbols|
  {
  }

  /** Any other element leaves the symbols' names, their number and the current one as they were. */
  lemma OtherStep(c: Conversion, e: SymbolElement, attributes: seq<Attribute>)
    requires !e.PartElement? && Convert(c, e, attributes).Ok?
    ensures Redraws(c, Convert(c, e, attributes).value)
  {
  }

  lemma IdsOfSame(a: seq<Symbol>, b: seq<Symbol>)
    requires SameIds(a, b)
    ensures Ids(a) == Ids(b)
  {
  }

  lemma IdsOfPart(symbols: seq<Symbol>, id: string)
    ensures Ids(symbols + [PartSymbol(id)]) == Ids(symbols) + [id]
  {
  }

  /** Across the conversion the current symbol stays the latest one, and there is one symbol per `PART`. */
  lemma {:induction false} CurrentStaysLast(elements: seq<SymbolElement>, c: Conversion, attributes: seq<Attribute>)
    requires CurrentIsLast(c)
    ensures ConvertAll(elements, c, attributes).Ok? ==>
              CurrentIsLast(ConvertAll(elements, c, attributes).value)
              && |ConvertAll(elements, c, attributes).value.symbols| == |c.symbols| + PartCount(elements)
  {
    if elements != [] {
      var next := Convert(c, elements[0], attributes);
      if next.Ok? {
        if elements[0].PartElement? {
          PartStep(c, elements[0], attributes);
        } else {
          OtherStep(c, elements[0], attributes);
        }
        CurrentStaysLast(elements[1..], next.value, attributes);
      }
    }
  }

  /** One element adds its name to the symbols' names when it is a `PART`, and nothing otherwise. */
  lemma IdsStep(c: Conversion, e: SymbolElement, attributes: seq<Attribute>)
    requires Convert(c, e, attributes).Ok?
    ensures Ids(Convert(c, e, attributes).value.symbols) == Ids(c.symbols) + PartIds([e])
  {
    assert [e][1..] == [];
    if e.PartElement? {
      PartStep(c, e, attributes);
      IdsOfPart(c.symbols, e.part.id);
    } else {
      OtherStep(c, e, attributes);
      IdsOfSame(c.symbols, Convert(c, e, attributes).value.symbols);
    }
  }

  lemma Regroup<T>(a: seq<T>, b: seq<T>, c: seq<T>)
    ensures a + b + c == a + (b + c)
  {
  }

  /** One successful step of the conversion loop. */
  lemma ConvertAllStep(elements: seq<SymbolElement>, c: Conversion, attributes: seq<Attribute>)
    requires elements != [] && Convert(c, elements[0], attributes).Ok?
    ensures ConvertAll(elements, c, attributes) == ConvertAll(elements[1..], Convert(c, elements[0], attributes).value, attributes)
  {
  }

  lemma PartIdsHead(elements: seq<SymbolElement>)
    requires elements != []
    ensures PartIds(elements) == PartIds([elements[0]]) + PartIds(elements[1..])
  {
    assert [elements[0]][1..] == [];
  }

  /** The symbols made are named after the `PART`s, in the order they appear. */
  lemma {:induction false} PartsBecomeSymbols(elements: seq<SymbolElement>, c: Conversion, attributes: seq<Attribute>)
    ensures ConvertAll(elements, c, attributes).Ok? ==>
              Ids(ConvertAll(elements, c, attributes).value.symbols) == Ids(c.symbols) + PartIds(elements)
  {
    if elements != [] {
      var next := Convert(c, elements[0], attributes);
      if next.Ok? {
        ConvertAllStep(elements, c, attributes);
        IdsStep(c, elements[0], attributes);
        PartsBecomeSymbols(elements[1..], next.value, attributes);
        PartIdsHead(elements);
        Regroup(Ids(c.symbols), PartIds([elements[0]]), PartIds(elements[1..]));
      }
    }
  }

  /** A drawn element with no `PART` before it panics: there is no current symbol to draw on. */
  lemma DrawingNeedsPart(c: Conversion, e: SymbolElement, attributes: seq<Attribute>)
    requires c.current >= |c.symbols|
    requires e.RectElement? || e.CircleElement? || e.EllipseElement? || e.PolyLineElement? || e.ArcElement?
             || e.TextElement? || e.PinElement? || e.ObjElement?
    ensures Convert(c, e, attributes) == Err(Panicked)
  {
  }

  /** A symbol holding a Bézier curve is never converted. */
  lemma {:induction false} BezierStops(elements: seq<SymbolElement>, c: Conversion, attributes: seq<Attribute>)
    requires exists k | 0 <= k < |elements| :: elements[k].BezierElement?
    ensures ConvertAll(elements, c, attributes).Err?
  {
    if !elements[0].BezierElement? {
      var next := Convert(c, elements[0], attributes);
      if next.Ok? {
        var k :| 0 <= k < |elements| && elements[k].BezierElement?;
        assert elements[1..][k - 1] == elements[k];
        BezierStops(elements[1..], next.value, attributes);
      }
    }
  }

  /** `try_into` fails for any symbol with a Bézier curve. */
  lemma BezierRejected(s: SymbolFile)
    requires exists k | 0 <= k < |s.elements| :: s.elements[k].BezierElement?
    ensures SymbolFrom(s).Err? && SymbolLibFrom(s).Err?
  {
    BezierStops(s.elements, StartConversion, ChildAttributes(s.elements));
  }

  /**
   * An ellipse on the current symbol, in a known line style: with unequal
   * radii it is refused; with equal radii it is drawn as a circle of that
   * radius (unless the style's colour panics).
   */
  lemma EllipseRule(c: Conversion, e: Ellipse, attributes: seq<Attribute>)
    requires c.current < |c.symbols| && e.styleId.Some? && e.styleId.value in c.lineStyles
    ensures e.radiusX != e.radiusY ==> Convert(c, EllipseElement(e), attributes) == Err(Raised(UnsupportedElement("Ellipse")))
    ensures e.radiusX == e.radiusY && StrokeOf(c.lineStyles[e.styleId.value]).Ok? ==>
              var r := Convert(c, EllipseElement(e), attributes);
              && r.Ok?
              && var circles := r.value.symbols[c.current].circles;
              && |circles| == |c.symbols[c.current].circles| + 1
              && circles[|circles| - 1].center == PointAt(e.cx, e.cy)
              && circles[|circles| - 1].radius == Millimetres(e.radiusX)
              && circles[|circles| - 1].fill == Outline
  {
  }

  /** A pin without a `NUMBER` or a `NAME` attribute, or with one that has no value, panics. */
  lemma PinNeedsLabels(c: Conversion, p: Pin, attributes: seq<Attribute>)
    requires c.current < |c.symbols|
    requires var number := LastAttribute(attributes, p.id, "NUMBER");
             var name := LastAttribute(attributes, p.id, "NAME");
             number.None? || name.None? || number.value.value.None? || name.value.value.None?
    ensures Convert(c, PinElement(p), attributes) == Err(Panicked)
  {
  }

  /**
   * A pin is drawn on the current symbol with the value of its last
   * `NUMBER` attribute as number and of its last `NAME` attribute as name,
   * the name becoming `~` when it repeats the number; its position and
   * length are scaled, its angle is its rotation, and its style follows
   * its shape.
   */
  lemma PinRule(c: Conversion, p: Pin, attributes: seq<Attribute>, number: string, name: string)
    requires c.current < |c.symbols|
    requires LastAttribute(attributes, p.id, "NUMBER").Some? && LastAttribute(attributes, p.id, "NUMBER").value.value == Some(number)
    requires LastAttribute(attributes, p.id, "NAME").Some? && LastAttribute(attributes, p.id, "NAME").value.value == Some(name)
    ensures var r := Convert(c, PinElement(p), attributes);
            && r.Ok?
            && var pins := r.value.symbols[c.current].pins;
            && |pins| == |c.symbols[c.current].pins| + 1
            && var pin := pins[|pins| - 1];
            && pin.number == Some(number)
            && (pin.name == Some("~") <==> number == name || name == "~")
            && (pin.name != Some("~") ==> pin.name == Some(name))
            && pin.position == Position(Millimetres(p.x), Millimetres(p.y), Some(Finite(p.rotation)))
            && pin.length == Millimetres(p.length)
            && pin.electricalType == Unspecified
            && pin.graphicStyle == GraphicStyleOf(p.pinShape)
  {
  }

  // ---------------------------------------------------------------------
  // Properties of the units
  // ---------------------------------------------------------------------

  /** The decimal text of a number reads back as that number. */
  lemma {:induction false} NatTextDigits(n: nat)
    ensures DigitsValue(NatText(n)) == n
  {
    var t := NatText(n);
    if n >= 10 {
      NatTextDigits(n / 10);
      assert t[..|t| - 1] == NatText(n / 10);
    }
  }

  /** `<base>.<n>` splits back into the base and n, whatever dots the base holds. */
  lemma UnitNameOf(base: string, n: nat)
    requires n <= USIZE_MAX
    ensures UnitName(base + "." + NatText(n)) == Some((base, Some(n)))
  {
    var id := base + "." + NatText(n);
    var t := NatText(n);
    LastDotBeforeDigits(base, t);
    assert id[..|base|] == base && id[|base| + 1..] == t;
    ParseNatText(n);
  }

  /** The dot in front of a run of digits is the last one. */
  lemma LastDotBeforeDigits(base: string, t: string)
    requires AllDigits(t)
    ensures LastDot(base + "." + t) == Some(|base|)
  {
    var u := base + ".";
    assert u[|u| - 1] == '.';
    LastDotSkips(u, t);
  }

  /** Text without a dot leaves the last dot where it was. */
  lemma {:induction false} LastDotSkips(u: string, t: string)
    requires forall k | 0 <= k < |t| :: t[k] != '.'
    ensures LastDot(u + t) == LastDot(u)
    decreases |t|
  {
    if t == [] {
      assert u + t == u;
    } else {
      var v := u + t;
      assert v[|v| - 1] == t[|t| - 1];
      assert v[..|v| - 1] == u + t[..|t| - 1];
      LastDotSkips(u, t[..|t| - 1]);
    }
  }

  /** The decimal text of a number up to `usize::MAX` parses back as that number. */
  lemma ParseNatText(n: nat)
    requires n <= USIZE_MAX
    ensures ParseUsize(NatText(n)) == Some(n)
  {
    NatTextDigits(n);
  }

  /** Each base equal to the one before makes every base equal to the first. */
  lemma {:induction false} ChainedBases(ids: seq<string>, k: nat)
    requires forall i | 0 <= i < |ids| :: UnitName(ids[i]).Some?
    requires forall i | 0 < i < |ids| :: UnitName(ids[i]).value.0 == UnitName(ids[i - 1]).value.0
    requires k < |ids|
    ensures UnitName(ids[k]).value.0 == UnitName(ids[0]).value.0
  {
    if k > 0 {
      ChainedBases(ids, k - 1);
    }
  }

  /**
   * The names of the parts are accepted, with base `base`, exactly when
   * there is at least one and part i (from 0) is named `base` then a dot
   * then a number reading as i + 1.
   */
  lemma UnitBaseRules(ids: seq<string>, base: string)
    ensures UnitBase(ids) == Ok(base) <==>
              ids != [] && forall i | 0 <= i < |ids| :: UnitName(ids[i]) == Some((base, Some(i + 1)))
  {
    if UnitBase(ids) == Ok(base) {
      forall i | 0 <= i < |ids|
        ensures UnitName(ids[i]) == Some((base, Some(i + 1)))
      {
        ChainedBases(ids, i);
      }
    }
  }

  /** Parts named `base.1`, `base.2`, … in order are accepted as the units of `base`. */
  lemma UnitNamesAccepted(ids: seq<string>, base: string)
    requires ids != [] && |ids| <= USIZE_MAX
    requires forall i | 0 <= i < |ids| :: ids[i] == base + "." + NatText(i + 1)
    ensures UnitBase(ids) == Ok(base)
  {
    forall i | 0 <= i < |ids|
      ensures UnitName(ids[i]) == Some((base, Some(i + 1)))
    {
      UnitNameOf(base, i + 1);
    }
    UnitBaseRules(ids, base);
  }

  /** The conversion's symbols are named after the `PART`s, one each, in order. */
  lemma ConvertedParts(s: SymbolFile)
    requires ConvertAll(s.elements, StartConversion, ChildAttributes(s.elements)).Ok?
    ensures Ids(ConvertAll(s.elements, StartConversion, ChildAttributes(s.elements)).value.symbols) == PartIds(s.elements)
  {
    PartsBecomeSymbols(s.elements, StartConversion, ChildAttributes(s.elements));
    assert Ids([]) + PartIds(s.elements) == PartIds(s.elements);
  }

  /**
   * A converted symbol with several parts is a root, in the BOM and on the
   * board, whose units are the parts in order: part i was named
   * `<root>.<i + 1>` and its unit is named `<root>_<i + 1>_1`, neither in
   * the BOM nor on the board.
   */
  lemma MultiUnitSymbol(s: SymbolFile)
    requires PartCount(s.elements) > 1 && SymbolFrom(s).Ok?
    ensures var root := SymbolFrom(s).value;
            && root.inBom == Some(true) && root.onBoard == Some(true)
            && |root.units| == PartCount(s.elements)
            && forall i | 0 <= i < |root.units| ::
                 && UnitName(PartIds(s.elements)[i]) == Some((root.symbolId, Some(i + 1)))
                 && root.units[i].symbolId == UnitId(root.symbolId, i + 1)
                 && root.units[i].inBom.None? && root.units[i].onBoard.None?
  {
    var c := ConvertAll(s.elements, StartConversion, ChildAttributes(s.elements)).value;
    ConvertedParts(s);
    var base := UnitBase(Ids(c.symbols)).value;
    UnitBaseRules(Ids(c.symbols), base);
  }

  /** A converted symbol with one part is that part's symbol, in the BOM and on the board. */
  lemma SinglePartSymbol(s: SymbolFile)
    requires PartCount(s.elements) == 1 && SymbolFrom(s).Ok?
    ensures SymbolFrom(s).value.symbolId == PartIds(s.elements)[0]
    ensures SymbolFrom(s).value.inBom == Some(true) && SymbolFrom(s).value.onBoard == Some(true)
  {
    var c := ConvertAll(s.elements, StartConversion, ChildAttributes(s.elements)).value;
    ConvertedParts(s);
    assert Ids(c.symbols)[0] == c.symbols[0].symbolId;
  }

  /** A symbol without any `PART` is never converted. */
  lemma NoPartFails(s: SymbolFile)
    requires PartCount(s.elements) == 0
    ensures SymbolFrom(s).Err?
  {
    var r := ConvertAll(s.elements, StartConversion, ChildAttributes(s.elements));
    if r.Ok? {
      ConvertedParts(s);
      assert |r.value.symbols| == |Ids(r.value.symbols)| == 0;
    }
  }
}

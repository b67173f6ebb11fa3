/**
 * The records of an EasyEDA symbol file (`src/easyeda/symbol.rs`): one
 * JSON array per line, a type tag followed by the record's fields in a
 * fixed order. `SymbolElement::parse_line` checks the tag and the number
 * of fields, then reads the fields one by one with a `JsonArrayReader`; a
 * required field of the wrong JSON type is an `unwrap` of nothing, that is
 * a panic.
 */
module EasyedaSymbolRecords {
  import opened Wrappers
  import opened Numbers
  import opened JsonReader
  import opened EasyedaCommon

  // ---------------------------------------------------------------------
  // Records
  // ---------------------------------------------------------------------

  /** The header object; the editor writes 2 as the symbol type, which is read but not checked. */
  datatype Head = Head(symbolType: U32, originX: real, originY: real, version: string)

  /** A unit of the symbol: its id and bounding box. The attribute list starts empty. */
  datatype Part = Part(id: string, bboxX: real, bboxY: real, bboxEndX: real, bboxEndY: real,
                       attributes: seq<Attribute>)

  datatype PolyLine = PolyLine(id: string, points: seq<(real, real)>, isClosed: bool, styleId: Option<string>,
                               isLocked: bool)

  datatype Bezier = Bezier(id: string, controlPoints: seq<Point2D>, styleId: Option<string>, isLocked: bool)

  /** `PinShape`, numbered 0 to 3 in the file. */
  datatype PinShape = PlainPin | ClockPin | InvertedPin | InvertedClockPin

  datatype Pin = Pin(id: string, display: bool, electric: Option<bool>, x: real, y: real, length: real,
                     rotation: real, pinColor: Option<string>, pinShape: PinShape, isLocked: bool)

  datatype Text = Text(id: string, x: real, y: real, rotation: real, text: string, styleId: Option<string>,
                       isLocked: bool)

  datatype DocType = DocType(kind: string, version: string)

  datatype LineStyle = LineStyle(indexName: string, strokeColor: Option<string>, strokeStyle: Option<U8>,
                                 fillColor: Option<string>, strokeWidth: Option<real>, fillStyle: Option<string>)

  datatype FontStyle = FontStyle(indexName: string, fillColor: Option<string>, color: Option<string>,
                                 fontFamily: Option<string>, fontSize: Option<real>, isItalic: Option<bool>,
                                 isBold: Option<bool>, isUnderline: Option<bool>, isStrikethrough: Option<bool>,
                                 vAlign: Option<U8>, hAlign: Option<U8>)

  datatype Attribute = Attribute(id: string, parentId: Option<string>, key: string, value: Option<string>,
                                 keyVisible: Option<bool>, valueVisible: Option<bool>, x: Option<real>,
                                 y: Option<real>, rotation: Option<real>, styleId: Option<string>, isLocked: bool)

  datatype Rectangle = Rectangle(id: string, x: real, y: real, endX: real, endY: real, rx: real, ry: real,
                                 rotation: real, styleId: Option<string>, isLocked: bool)

  datatype Circle = Circle(id: string, cx: real, cy: real, radius: real, styleId: Option<string>, isLocked: bool)

  datatype Ellipse = Ellipse(id: string, cx: real, cy: real, radiusX: real, radiusY: real, unknown: JsonValue,
                             styleId: Option<string>, isLocked: bool)

  datatype Arc = Arc(id: string, x1: real, y1: real, x2: real, y2: real, x3: real, y3: real, styleId: Option<string>,
                     isLocked: bool)

  datatype Object = Object(id: string, fileName: string, x: real, y: real, width: real, height: real, rotation: real,
                           isMirrored: bool, dataUrl: string, isLocked: bool)

  /** `SymbolElement`: one parsed line. */
  datatype SymbolElement =
    | DocTypeElement(docType: DocType)
    | HeadElement(head: Head)
    | LineStyleElement(lineStyle: LineStyle)
    | FontStyleElement(fontStyle: FontStyle)
    | PartElement(part: Part)
    | AttrElement(attribute: Attribute)
    | RectElement(rectangle: Rectangle)
    | CircleElement(circle: Circle)
    | EllipseElement(ellipse: Ellipse)
    | PolyLineElement(polyLine: PolyLine)
    | ArcElement(arc: Arc)
    | BezierElement(bezier: Bezier)
    | PinElement(pin: Pin)
    | TextElement(text: Text)
    | ObjElement(obj: Object)

  // ---------------------------------------------------------------------
  // Reading the fields
  // ---------------------------------------------------------------------

  /** The two fields of a `DOCTYPE` record: kind and version, both required. */
  function DocTypeOf(e: seq<JsonValue>): Option<DocType>
    requires |e| == 3
  {
    var kind := AsStr(e[1]);
    var version := AsStr(e[2]);
    if kind.None? || version.None? then None
    else Some(DocType(kind.value, version.value))
  }

  method ReadDocType(reader: JsonArrayReader) returns (r: Option<DocType>)
    requires reader.Valid() && reader.index == 1 && reader.Remaining() == 2
    modifies reader
    ensures r == DocTypeOf(reader.elements)
  {
    var kind := reader.ReadString();
    var version := reader.ReadString();
    if kind.None? || version.None? {
      return None;
    }
    r := Some(DocType(kind.value, version.value));
  }

  /** The five fields of a `LINESTYLE` record, then the fill style when a sixth is left; only the name is required. */
  function LineStyleOf(e: seq<JsonValue>): Option<LineStyle>
    requires |e| >= 6
  {
    var indexName := AsStr(e[1]);
    var strokeColor := AsStr(e[2]);
    var strokeStyle := U8Of(e[3]);
    var fillColor := AsStr(e[4]);
    var strokeWidth := AsF64(e[5]);
    var fillStyle := if |e| > 6 then AsStr(e[6]) else None;
    if indexName.None? then None
    else Some(LineStyle(indexName.value, strokeColor, strokeStyle, fillColor, strokeWidth, fillStyle))
  }

  method ReadLineStyle(reader: JsonArrayReader) returns (r: Option<LineStyle>)
    requires reader.Valid() && reader.index == 1 && reader.Remaining() >= 5
    modifies reader
    ensures r == LineStyleOf(reader.elements)
  {
    var indexName := reader.ReadString();
    var strokeColor := reader.ReadString();
    var strokeStyle := reader.ReadU8();
    var fillColor := reader.ReadString();
    var strokeWidth := reader.ReadF32();
    var fillStyle: Option<string> := None;
    if reader.CanRead() {
      fillStyle := reader.ReadString();
    }
    if indexName.None? {
      return None;
    }
    r := Some(LineStyle(indexName.value, strokeColor, strokeStyle, fillColor, strokeWidth, fillStyle));
  }

  /** The eleven fields of a `FONTSTYLE` record; only the name is required. */
  function FontStyleOf(e: seq<JsonValue>): Option<FontStyle>
    requires |e| == 12
  {
    var indexName := AsStr(e[1]);
    var fillColor := AsStr(e[2]);
    var color := AsStr(e[3]);
    var fontFamily := AsStr(e[4]);
    var fontSize := AsF64(e[5]);
    var isItalic := BoolOf(e[6]);
    var isBold := BoolOf(e[7]);
    var isUnderline := BoolOf(e[8]);
    var isStrikethrough := BoolOf(e[9]);
    var vAlign := U8Of(e[10]);
    var hAlign := U8Of(e[11]);
    if indexName.None? then None
    else Some(FontStyle(indexName.value, fillColor, color, fontFamily, fontSize, isItalic, isBold, isUnderline,
                   isStrikethrough, vAlign, hAlign))
  }

  method ReadFontStyle(reader: JsonArrayReader) returns (r: Option<FontStyle>)
    requires reader.Valid() && reader.index == 1 && reader.Remaining() == 11
    modifies reader
    ensures r == FontStyleOf(reader.elements)
  {
    var indexName := reader.ReadString();
    var fillColor := reader.ReadString();
    var color := reader.ReadString();
    var fontFamily := reader.ReadString();
    var fontSize := reader.ReadF32();
    var isItalic := reader.ReadBool();
    var isBold := reader.ReadBool();
    var isUnderline := reader.ReadBool();
    var isStrikethrough := reader.ReadBool();
    var vAlign := reader.ReadU8();
    var hAlign := reader.ReadU8();
    if indexName.None? {
      return None;
    }
    r := Some(FontStyle(indexName.value, fillColor, color, fontFamily, fontSize, isItalic, isBold, isUnderline,
                       isStrikethrough, vAlign, hAlign));
  }

  /** The eleven fields of an `ATTR` record; an empty parent id is no parent. */
  function AttributeOf(e: seq<JsonValue>): Option<Attribute>
    requires |e| == 12
  {
    var id := AsStr(e[1]);
    var parentId := NonEmpty(AsStr(e[2]));
    var key := AsStr(e[3]);
    var value := AsStr(e[4]);
    var keyVisible := BoolOf(e[5]);
    var valueVisible := BoolOf(e[6]);
    var x := AsF64(e[7]);
    var y := AsF64(e[8]);
    var rotation := AsF64(e[9]);
    var styleId := AsStr(e[10]);
    var isLocked := BoolOf(e[11]);
    if id.None? || key.None? || isLocked.None? then None
    else Some(Attribute(id.value, parentId, key.value, value, keyVisible, valueVisible, x, y, rotation, styleId,
                   isLocked.value))
  }

  method ReadAttribute(reader: JsonArrayReader) returns (r: Option<Attribute>)
    requires reader.Valid() && reader.index == 1 && reader.Remaining() == 11
    modifies reader
    ensures r == AttributeOf(reader.elements)
  {
    var id := reader.ReadString();
    var parentIdText := reader.ReadString();
    var parentId := NonEmpty(parentIdText);
    var key := reader.ReadString();
    var value := reader.ReadString();
    var keyVisible := reader.ReadBool();
    var valueVisible := reader.ReadBool();
    var x := reader.ReadF32();
    var y := reader.ReadF32();
    var rotation := reader.ReadF32();
    var styleId := reader.ReadString();
    var isLocked := reader.ReadBool();
    if id.None? || key.None? || isLocked.None? {
      return None;
    }
    r := Some(Attribute(id.value, parentId, key.value, value, keyVisible, valueVisible, x, y, rotation, styleId,
                       isLocked.value));
  }

  /** The ten fields of a `RECT` record; the style id may be absent. */
  function RectangleOf(e: seq<JsonValue>): Option<Rectangle>
    requires |e| == 11
  {
    var id := AsStr(e[1]);
    var x := AsF64(e[2]);
    var y := AsF64(e[3]);
    var endX := AsF64(e[4]);
    var endY := AsF64(e[5]);
    var rx := AsF64(e[6]);
    var ry := AsF64(e[7]);
    var rotation := AsF64(e[8]);
    var styleId := AsStr(e[9]);
    var isLocked := BoolOf(e[10]);
    if id.None? || x.None? || y.None? || endX.None? || endY.None? || rx.None? || ry.None? || rotation.None? ||
       isLocked.None? then None
    else Some(Rectangle(id.value, x.value, y.value, endX.value, endY.value, rx.value, ry.value, rotation.value, styleId,
                   isLocked.value))
  }

  method ReadRectangle(reader: JsonArrayReader) returns (r: Option<Rectangle>)
    requires reader.Valid() && reader.index == 1 && reader.Remaining() == 10
    modifies reader
    ensures r == RectangleOf(reader.elements)
  {
    var id := reader.ReadString();
    var x := reader.ReadF32();
    var y := reader.ReadF32();
    var endX := reader.ReadF32();
    var endY := reader.ReadF32();
    var rx := reader.ReadF32();
    var ry := reader.ReadF32();
    var rotation := reader.ReadF32();
    var styleId := reader.ReadString();
    var isLocked := reader.ReadBool();
    if id.None? || x.None? || y.None? || endX.None? || endY.None? || rx.None? || ry.None? || rotation.None? ||
       isLocked.None? {
      return None;
    }
    r := Some(Rectangle(id.value, x.value, y.value, endX.value, endY.value, rx.value, ry.value, rotation.value,
                       styleId, isLocked.value));
  }

  /** The six fields of a `CIRCLE` record; the style id may be absent. */
  function CircleOf(e: seq<JsonValue>): Option<Circle>
    requires |e| == 7
  {
    var id := AsStr(e[1]);
    var cx := AsF64(e[2]);
    var cy := AsF64(e[3]);
    var radius := AsF64(e[4]);
    var styleId := AsStr(e[5]);
    var isLocked := BoolOf(e[6]);
    if id.None? || cx.None? || cy.None? || radius.None? || isLocked.None? then None
    else Some(Circle(id.value, cx.value, cy.value, radius.value, styleId, isLocked.value))
  }

  method ReadCircle(reader: JsonArrayReader) returns (r: Option<Circle>)
    requires reader.Valid() && reader.index == 1 && reader.Remaining() == 6
    modifies reader
    ensures r == CircleOf(reader.elements)
  {
    var id := reader.ReadString();
    var cx := reader.ReadF32();
    var cy := reader.ReadF32();
    var radius := reader.ReadF32();
    var styleId := reader.ReadString();
    var isLocked := reader.ReadBool();
    if id.None? || cx.None? || cy.None? || radius.None? || isLocked.None? {
      return None;
    }
    r := Some(Circle(id.value, cx.value, cy.value, radius.value, styleId, isLocked.value));
  }

  /** The eight fields of an `ELLIPSE` record; the sixth is kept as it was read. */
  function EllipseOf(e: seq<JsonValue>): Option<Ellipse>
    requires |e| == 9
  {
    var id := AsStr(e[1]);
    var cx := AsF64(e[2]);
    var cy := AsF64(e[3]);
    var radiusX := AsF64(e[4]);
    var radiusY := AsF64(e[5]);
    var unknown := e[6];
    var styleId := AsStr(e[7]);
    var isLocked := BoolOf(e[8]);
    if id.None? || cx.None? || cy.None? || radiusX.None? || radiusY.None? || isLocked.None? then None
    else Some(Ellipse(id.value, cx.value, cy.value, radiusX.value, radiusY.value, unknown, styleId, isLocked.value))
  }

  method ReadEllipse(reader: JsonArrayReader) returns (r: Option<Ellipse>)
    requires reader.Valid() && reader.index == 1 && reader.Remaining() == 8
    modifies reader
    ensures r == EllipseOf(reader.elements)
  {
    var id := reader.ReadString();
    var cx := reader.ReadF32();
    var cy := reader.ReadF32();
    var radiusX := reader.ReadF32();
    var radiusY := reader.ReadF32();
    var unknown := reader.ReadValue();
    var styleId := reader.ReadString();
    var isLocked := reader.ReadBool();
    if id.None? || cx.None? || cy.None? || radiusX.None? || radiusY.None? || isLocked.None? {
      return None;
    }
    r := Some(Ellipse(id.value, cx.value, cy.value, radiusX.value, radiusY.value, unknown.value, styleId,
                     isLocked.value));
  }

  /** The nine fields of an `ARC` record: start, middle and end point, then the style id and the lock. */
  function ArcOf(e: seq<JsonValue>): Option<Arc>
    requires |e| == 10
  {
    var id := AsStr(e[1]);
    var x1 := AsF64(e[2]);
    var y1 := AsF64(e[3]);
    var x2 := AsF64(e[4]);
    var y2 := AsF64(e[5]);
    var x3 := AsF64(e[6]);
    var y3 := AsF64(e[7]);
    var styleId := AsStr(e[8]);
    var isLocked := BoolOf(e[9]);
    if id.None? || x1.None? || y1.None? || x2.None? || y2.None? || x3.None? || y3.None? || isLocked.None? then None
    else Some(Arc(id.value, x1.value, y1.value, x2.value, y2.value, x3.value, y3.value, styleId, isLocked.value))
  }

  method ReadArc(reader: JsonArrayReader) returns (r: Option<Arc>)
    requires reader.Valid() && reader.index == 1 && reader.Remaining() == 9
    modifies reader
    ensures r == ArcOf(reader.elements)
  {
    var id := reader.ReadString();
    var x1 := reader.ReadF32();
    var y1 := reader.ReadF32();
    var x2 := reader.ReadF32();
    var y2 := reader.ReadF32();
    var x3 := reader.ReadF32();
    var y3 := reader.ReadF32();
    var styleId := reader.ReadString();
    var isLocked := reader.ReadBool();
    if id.None? || x1.None? || y1.None? || x2.None? || y2.None? || x3.None? || y3.None? || isLocked.None? {
      return None;
    }
    r := Some(Arc(id.value, x1.value, y1.value, x2.value, y2.value, x3.value, y3.value, styleId, isLocked.value));
  }

  /** The ten fields of an `OBJ` record, all required. */
  function ObjectOf(e: seq<JsonValue>): Option<Object>
    requires |e| == 11
  {
    var id := AsStr(e[1]);
    var fileName := AsStr(e[2]);
    var x := AsF64(e[3]);
    var y := AsF64(e[4]);
    var width := AsF64(e[5]);
    var height := AsF64(e[6]);
    var rotation := AsF64(e[7]);
    var isMirrored := BoolOf(e[8]);
    var dataUrl := AsStr(e[9]);
    var isLocked := BoolOf(e[10]);
    if id.None? || fileName.None? || x.None? || y.None? || width.None? || height.None? || rotation.None? ||
       isMirrored.None? || dataUrl.None? || isLocked.None? then None
    else Some(Object(id.value, fileName.value, x.value, y.value, width.value, height.value, rotation.value,
                isMirrored.value, dataUrl.value, isLocked.value))
  }

  method ReadObject(reader: JsonArrayReader) returns (r: Option<Object>)
    requires reader.Valid() && reader.index == 1 && reader.Remaining() == 10
    modifies reader
    ensures r == ObjectOf(reader.elements)
  {
    var id := reader.ReadString();
    var fileName := reader.ReadString();
    var x := reader.ReadF32();
    var y := reader.ReadF32();
    var width := reader.ReadF32();
    var height := reader.ReadF32();
    var rotation := reader.ReadF32();
    var isMirrored := reader.ReadBool();
    var dataUrl := reader.ReadString();
    var isLocked := reader.ReadBool();
    if id.None? || fileName.None? || x.None? || y.None? || width.None? || height.None? || rotation.None? ||
       isMirrored.None? || dataUrl.None? || isLocked.None? {
      return None;
    }
    r := Some(Object(id.value, fileName.value, x.value, y.value, width.value, height.value, rotation.value,
                    isMirrored.value, dataUrl.value, isLocked.value));
  }

  /**
   * `to_string().parse::<u32>()` of a JSON value: the JSON text of a
   * non-negative integer is its digits, which parse when they fit in 32
   * bits; the text of any other value (a float has a point, a string its
   * quotes, null is `null`) is no `u32`.
   */
  function U32Text(v: JsonValue): (r: Option<U32>)
    ensures r.Some? <==> v.JNumber? && v.n.PosInt? && v.n.u <= U32_MAX
    ensures r.Some? ==> r.value == v.n.u
  {
    if v.JNumber? && v.n.PosInt? && v.n.u <= U32_MAX then Some(v.n.u as U32) else None
  }

  /**
   * The one field of a `HEAD` record is an object. Its symbol type and
   * origin are read by printing the member as JSON and parsing that text:
   * a failure is a format error. The version must be a string, or the
   * `unwrap` panics. A missing key reads as null. The members are read in
   * the order of the struct literal: type, version, x, y. (The text of
   * any JSON number parses as an `f32`, so the origin is read as `as_f64`
   * reads it.)
   */
  function HeadOf(e: seq<JsonValue>): (r: Result<Head, Failure<ParserError>>)
    requires |e| == 2
    ensures r.Err? ==> r.error == Panicked || r.error == Raised(FormatError(SymbolParser))
    ensures U32Text(Member(e[1], "symbolType")).None? ==> r == Err(Raised(FormatError(SymbolParser)))
    ensures r.Ok? ==> r.value.symbolType == Member(e[1], "symbolType").n.u
                      && Some(r.value.version) == AsStr(Member(e[1], "version"))
                      && Some(r.value.originX) == AsF64(Member(e[1], "originX"))
                      && Some(r.value.originY) == AsF64(Member(e[1], "originY"))
  {
    var p := e[1];
    var symbolType := U32Text(Member(p, "symbolType"));
    if symbolType.None? then Err(Raised(FormatError(SymbolParser)))
    else
      var version := AsStr(Member(p, "version"));
      if version.None? then Err(Panicked)
      else
        var originX := AsF64(Member(p, "originX"));
        if originX.None? then Err(Raised(FormatError(SymbolParser)))
        else
          var originY := AsF64(Member(p, "originY"));
          if originY.None? then Err(Raised(FormatError(SymbolParser)))
          else Ok(Head(symbolType.value, originX.value, originY.value, version.value))
  }

  method ReadHead(reader: JsonArrayReader) returns (r: Result<Head, Failure<ParserError>>)
    requires reader.Valid() && reader.index == 1 && reader.Remaining() == 1
    modifies reader
    ensures r == HeadOf(reader.elements)
  {
    var parameters := reader.ReadValue();
    var p := parameters.value;
    var symbolType := U32Text(Member(p, "symbolType"));
    if symbolType.None? {
      return Err(Raised(FormatError(SymbolParser)));
    }
    var version := AsStr(Member(p, "version"));
    if version.None? {
      return Err(Panicked);
    }
    var originX := AsF64(Member(p, "originX"));
    if originX.None? {
      return Err(Raised(FormatError(SymbolParser)));
    }
    var originY := AsF64(Member(p, "originY"));
    if originY.None? {
      return Err(Raised(FormatError(SymbolParser)));
    }
    r := Ok(Head(symbolType.value, originX.value, originY.value, version.value));
  }

  /**
   * The two fields of a `PART` record: the id, then an object whose `BBOX`
   * member must be an array of at least four numbers (more are ignored).
   */
  function PartOf(e: seq<JsonValue>): Option<Part>
    requires |e| == 3
  {
    var id := AsStr(e[1]);
    var box := ArrayOf(Member(e[2], "BBOX"));
    if id.None? || box.None? || |box.value| < 4 then None
    else
      var x := AsF64(box.value[0]);
      var y := AsF64(box.value[1]);
      var endX := AsF64(box.value[2]);
      var endY := AsF64(box.value[3]);
      if x.None? || y.None? || endX.None? || endY.None? then None
      else Some(Part(id.value, x.value, y.value, endX.value, endY.value, []))
  }

  method ReadPart(reader: JsonArrayReader) returns (r: Option<Part>)
    requires reader.Valid() && reader.index == 1 && reader.Remaining() == 2
    modifies reader
    ensures r == PartOf(reader.elements)
  {
    var id := reader.ReadString();
    var bbox := reader.ReadValue();
    if id.None? {
      return None;
    }
    var box := ArrayOf(Member(bbox.value, "BBOX"));
    if box.None? || |box.value| < 4 {
      return None;
    }
    var x := AsF64(box.value[0]);
    var y := AsF64(box.value[1]);
    var endX := AsF64(box.value[2]);
    var endY := AsF64(box.value[3]);
    if x.None? || y.None? || endX.None? || endY.None? {
      return None;
    }
    r := Some(Part(id.value, x.value, y.value, endX.value, endY.value, []));
  }

  /**
   * `chunks(2)` of a flat coordinate list, each chunk read as an (x, y)
   * pair. A last chunk of one number is indexed past its end, and a
   * coordinate that is not a number is unwrapped: both panic (None).
   */
  function PointPairs(items: seq<JsonValue>): (r: Option<seq<(real, real)>>)
    decreases |items|
  {
    if items == [] then Some([])
    else if |items| == 1 then None
    else
      var x := AsF64(items[0]);
      var y := AsF64(items[1]);
      if x.None? || y.None? then None
      else
        var rest :- PointPairs(items[2..]);
        Some([(x.value, y.value)] + rest)
  }

  /** The five fields of a `POLY` record; the points are a flat array of coordinates, read in pairs. */
  function PolyLineOf(e: seq<JsonValue>): Option<PolyLine>
    requires |e| == 6
  {
    var id := AsStr(e[1]);
    var pointArray := ArrayOf(e[2]);
    var isClosed := BoolOf(e[3]);
    var styleId := AsStr(e[4]);
    var isLocked := BoolOf(e[5]);
    if id.None? || pointArray.None? || PointPairs(pointArray.value).None? || isClosed.None? || isLocked.None? then None
    else Some(PolyLine(id.value, PointPairs(pointArray.value).value, isClosed.value, styleId, isLocked.value))
  }

  method ReadPolyLine(reader: JsonArrayReader) returns (r: Option<PolyLine>)
    requires reader.Valid() && reader.index == 1 && reader.Remaining() == 5
    modifies reader
    ensures r == PolyLineOf(reader.elements)
  {
    var id := reader.ReadString();
    var pointValue := reader.ReadValue();
    var pointArray := ArrayOf(pointValue.value);
    if id.None? || pointArray.None? {
      return None;
    }
    var points := PointPairs(pointArray.value);
    var isClosed := reader.ReadBool();
    var styleId := reader.ReadString();
    var isLocked := reader.ReadBool();
    if points.None? || isClosed.None? || isLocked.None? {
      return None;
    }
    r := Some(PolyLine(id.value, points.value, isClosed.value, styleId, isLocked.value));
  }

  /**
   * `windows(2)` of the control point list, each window read as a point:
   * the windows overlap, so every coordinate but the first and the last
   * serves in two points. A list shorter than two gives no point.
   */
  function PointWindows(items: seq<JsonValue>): (r: Option<seq<Point2D>>)
    decreases |items|
  {
    if |items| < 2 then Some([])
    else
      var x := AsF64(items[0]);
      var y := AsF64(items[1]);
      if x.None? || y.None? then None
      else
        var rest :- PointWindows(items[1..]);
        Some([Point2D(x.value, y.value)] + rest)
  }

  /** The four fields of a `BEZIER` record; the control points must be an array. */
  function BezierOf(e: seq<JsonValue>): Option<Bezier>
    requires |e| == 5
  {
    var id := AsStr(e[1]);
    var pointArray := ArrayOf(e[2]);
    var styleId := AsStr(e[3]);
    var isLocked := BoolOf(e[4]);
    if id.None? || pointArray.None? || PointWindows(pointArray.value).None? || isLocked.None? then None
    else Some(Bezier(id.value, PointWindows(pointArray.value).value, styleId, isLocked.value))
  }

  method ReadBezier(reader: JsonArrayReader) returns (r: Option<Bezier>)
    requires reader.Valid() && reader.index == 1 && reader.Remaining() == 4
    modifies reader
    ensures r == BezierOf(reader.elements)
  {
    var id := reader.ReadString();
    var pointValue := reader.ReadValue();
    var pointArray := ArrayOf(pointValue.value);
    if id.None? || pointArray.None? {
      return None;
    }
    var points := PointWindows(pointArray.value);
    var styleId := reader.ReadString();
    var isLocked := reader.ReadBool();
    if points.None? || isLocked.None? {
      return None;
    }
    r := Some(Bezier(id.value, points.value, styleId, isLocked.value));
  }

  /**
   * The six fields of a `TEXT` record. The lock is read only while the
   * reader can read, and after the six fields it cannot: a text is never
   * locked.
   */
  function TextOf(e: seq<JsonValue>): (r: Option<Text>)
    requires |e| == 7
    ensures r.Some? ==> !r.value.isLocked
  {
    var id := AsStr(e[1]);
    var x := AsF64(e[2]);
    var y := AsF64(e[3]);
    var rotation := AsF64(e[4]);
    var text := AsStr(e[5]);
    var styleId := AsStr(e[6]);
    if id.None? || x.None? || y.None? || rotation.None? || text.None? then None
    else Some(Text(id.value, x.value, y.value, rotation.value, text.value, styleId, false))
  }

  method ReadText(reader: JsonArrayReader) returns (r: Option<Text>)
    requires reader.Valid() && reader.index == 1 && reader.Remaining() == 6
    modifies reader
    ensures r == TextOf(reader.elements)
  {
    var id := reader.ReadString();
    var x := reader.ReadF32();
    var y := reader.ReadF32();
    var rotation := reader.ReadF32();
    var text := reader.ReadString();
    var styleId := reader.ReadString();
    var isLocked := reader.CanRead();
    if id.None? || x.None? || y.None? || rotation.None? || text.None? {
      return None;
    }
    r := Some(Text(id.value, x.value, y.value, rotation.value, text.value, styleId, isLocked));
  }

  /** `PinShape::from_u64`: the four shapes are numbered 0 to 3. */
  function PinShapeOf(n: U64): (r: Option<PinShape>)
    ensures r.Some? <==> n <= 3
  {
    if n == 0 then Some(PlainPin)
    else if n == 1 then Some(ClockPin)
    else if n == 2 then Some(InvertedPin)
    else if n == 3 then Some(InvertedClockPin)
    else None
  }

  /**
   * The ten or eleven fields of a `PIN` record. With ten the shape is
   * plain and the lock is the field after the colour; the last field is
   * never read. With eleven the shape is read by `read_enum`, which skips
   * the field after the colour and decodes the next one (a value that is
   * not an unsigned integer, or one above 3, is unwrapped and panics), and
   * the lock is the last field.
   */
  function PinOf(e: seq<JsonValue>): (r: Option<Pin>)
    requires |e| == 11 || |e| == 12
    ensures r.Some? && |e| == 11 ==> r.value.pinShape == PlainPin
    ensures r.Some? && |e| == 12 ==> AsU64(e[10]).Some? && PinShapeOf(AsU64(e[10]).value) == Some(r.value.pinShape)
  {
    var id := AsStr(e[1]);
    var display := BoolOf(e[2]);
    var electric := BoolOf(e[3]);
    var x := AsF64(e[4]);
    var y := AsF64(e[5]);
    var length := AsF64(e[6]);
    var rotation := AsF64(e[7]);
    var pinColor := AsStr(e[8]);
    var shape := if |e| == 11 then Some(PlainPin) else if AsU64(e[10]).None? then None else PinShapeOf(AsU64(e[10]).value);
    var isLocked := BoolOf(if |e| == 11 then e[9] else e[11]);
    if id.None? || display.None? || x.None? || y.None? || length.None? || rotation.None? || shape.None? ||
       isLocked.None? then None
    else Some(Pin(id.value, display.value, electric, x.value, y.value, length.value, rotation.value, pinColor,
                  shape.value, isLocked.value))
  }

  method ReadPin(reader: JsonArrayReader) returns (r: Option<Pin>)
    requires reader.Valid() && reader.index == 1 && (reader.Remaining() == 10 || reader.Remaining() == 11)
    modifies reader
    ensures r == PinOf(reader.elements)
  {
    var paramCount := reader.Remaining();
    var id := reader.ReadString();
    var display := reader.ReadBool();
    var electric := reader.ReadBool();
    var x := reader.ReadF32();
    var y := reader.ReadF32();
    var length := reader.ReadF32();
    var rotation := reader.ReadF32();
    var pinColor := reader.ReadString();
    var shape := Some(PlainPin);
    if paramCount == 11 {
      var code := AsU64(reader.elements[reader.index + 1]);
      if code.Some? && PinShapeOf(code.value).None? {
        // `from_u64(n).unwrap()` inside `read_enum`
        return None;
      }
      shape := reader.ReadEnum(PinShapeOf);
    }
    var isLocked := reader.ReadBool();
    if id.None? || display.None? || x.None? || y.None? || length.None? || rotation.None? || shape.None? ||
       isLocked.None? {
      return None;
    }
    r := Some(Pin(id.value, display.value, electric, x.value, y.value, length.value, rotation.value, pinColor,
                  shape.value, isLocked.value));
  }

  // ---------------------------------------------------------------------
  // Point lists
  // ---------------------------------------------------------------------

  /** A flat list is read as pairs exactly when it has an even length and holds only numbers; pair i is items 2i and 2i+1. */
  lemma {:induction false} PointPairsRules(items: seq<JsonValue>)
    ensures PointPairs(items).Some? <==> |items| % 2 == 0 && forall k | 0 <= k < |items| :: AsF64(items[k]).Some?
    ensures PointPairs(items).Some? ==>
              var r := PointPairs(items).value;
              && 2 * |r| == |items|
              && forall i | 0 <= i < |r| :: r[i] == (AsF64(items[2 * i]).value, AsF64(items[2 * i + 1]).value)
    decreases |items|
  {
    if |items| >= 2 {
      PointPairsRules(items[2..]);
      assert forall k | 0 <= k < |items| - 2 :: items[2..][k] == items[k + 2];
      if AsF64(items[0]).Some? && AsF64(items[1]).Some? && PointPairs(items[2..]).Some? {
        var rest := PointPairs(items[2..]).value;
        var r := PointPairs(items).value;
        assert r == [(AsF64(items[0]).value, AsF64(items[1]).value)] + rest;
        forall i | 0 <= i < |r|
          ensures r[i] == (AsF64(items[2 * i]).value, AsF64(items[2 * i + 1]).value)
        {
          if i > 0 {
            assert r[i] == rest[i - 1];
            assert items[2..][2 * (i - 1)] == items[2 * i];
            assert items[2..][2 * (i - 1) + 1] == items[2 * i + 1];
          }
        }
      }
    }
  }

  /** The overlapping windows give one point fewer than there are coordinates, point i made of items i and i+1. */
  lemma {:induction false} PointWindowsRules(items: seq<JsonValue>)
    requires |items| >= 2
    ensures PointWindows(items).Some? <==> forall k | 0 <= k < |items| :: AsF64(items[k]).Some?
    ensures PointWindows(items).Some? ==>
              var r := PointWindows(items).value;
              && |r| == |items| - 1
              && forall i | 0 <= i < |r| :: r[i] == Point2D(AsF64(items[i]).value, AsF64(items[i + 1]).value)
    decreases |items|
  {
    if |items| > 2 {
      PointWindowsRules(items[1..]);
      assert forall k | 0 <= k < |items| - 1 :: items[1..][k] == items[k + 1];
      if AsF64(items[0]).Some? && AsF64(items[1]).Some? && PointWindows(items[1..]).Some? {
        var rest := PointWindows(items[1..]).value;
        var r := PointWindows(items).value;
        assert r == [Point2D(AsF64(items[0]).value, AsF64(items[1]).value)] + rest;
        forall i | 0 <= i < |r|
          ensures r[i] == Point2D(AsF64(items[i]).value, AsF64(items[i + 1]).value)
        {
          if i > 0 {
            assert r[i] == rest[i - 1];
          }
        }
      }
    } else {
      assert items[1..] == [items[1]];
    }
  }

  // ---------------------------------------------------------------------
  // Tags and lengths
  // ---------------------------------------------------------------------

  /** The tags of the lines that carry a record, one per arm of `parse_line`. */
  datatype ElementKind =
    | DocTypeKind | HeadKind | LineStyleKind | FontStyleKind | PartKind | AttrKind | RectKind | CircleKind
    | EllipseKind | PolyKind | ArcKind | BezierKind | PinKind | TextKind | ObjKind

  /** The tag written at the head of a record's line. */
  function TagName(k: ElementKind): string
  {
    match k
    case DocTypeKind => "DOCTYPE"
    case HeadKind => "HEAD"
    case LineStyleKind => "LINESTYLE"
    case FontStyleKind => "FONTSTYLE"
    case PartKind => "PART"
    case AttrKind => "ATTR"
    case RectKind => "RECT"
    case CircleKind => "CIRCLE"
    case EllipseKind => "ELLIPSE"
    case PolyKind => "POLY"
    case ArcKind => "ARC"
    case BezierKind => "BEZIER"
    case PinKind => "PIN"
    case TextKind => "TEXT"
    case ObjKind => "OBJ"
  }

  /** The record kind a tag names, if it names one. */
  function KindOf(tag: string): (r: Option<ElementKind>)
    ensures r.Some? ==> TagName(r.value) == tag
  {
    if tag == "DOCTYPE" then Some(DocTypeKind)
    else if tag == "HEAD" then Some(HeadKind)
    else if tag == "LINESTYLE" then Some(LineStyleKind)
    else if tag == "FONTSTYLE" then Some(FontStyleKind)
    else if tag == "PART" then Some(PartKind)
    else if tag == "ATTR" then Some(AttrKind)
    else if tag == "RECT" then Some(RectKind)
    else if tag == "CIRCLE" then Some(CircleKind)
    else if tag == "ELLIPSE" then Some(EllipseKind)
    else if tag == "POLY" then Some(PolyKind)
    else if tag == "ARC" then Some(ArcKind)
    else if tag == "BEZIER" then Some(BezierKind)
    else if tag == "PIN" then Some(PinKind)
    else if tag == "TEXT" then Some(TextKind)
    else if tag == "OBJ" then Some(ObjKind)
    else None
  }

  /** Every record's tag is recognised as that record's, and by no other. */
  lemma KindOfTagName(k: ElementKind)
    ensures KindOf(TagName(k)) == Some(k)
  {
  }

  /** The number of fields after the tag; `LINESTYLE` and `PIN` also take one more. */
  function Arity(k: ElementKind): nat
  {
    match k
    case DocTypeKind => 2
    case HeadKind => 1
    case LineStyleKind => 5
    case FontStyleKind => 11
    case PartKind => 2
    case AttrKind => 11
    case RectKind => 10
    case CircleKind => 6
    case EllipseKind => 8
    case PolyKind => 5
    case ArcKind => 9
    case BezierKind => 4
    case PinKind => 10
    case TextKind => 6
    case ObjKind => 10
  }

  /** A line style has five or six fields, a pin ten or eleven, every other record its exact count. */
  predicate ArityOk(k: ElementKind, n: nat)
  {
    if k.LineStyleKind? || k.PinKind? then n == Arity(k) || n == Arity(k) + 1 else n == Arity(k)
  }

  /** The record of a kind read from fields of an accepted length. */
  function DecodeElement(k: ElementKind, e: seq<JsonValue>): (r: Result<SymbolElement, Failure<ParserError>>)
    requires |e| >= 1 && ArityOk(k, |e| - 1)
  {
    match k
    case DocTypeKind => var x :- Unwrapped(DocTypeOf(e)); Ok(DocTypeElement(x))
    case HeadKind => var x :- HeadOf(e); Ok(HeadElement(x))
    case LineStyleKind => var x :- Unwrapped(LineStyleOf(e)); Ok(LineStyleElement(x))
    case FontStyleKind => var x :- Unwrapped(FontStyleOf(e)); Ok(FontStyleElement(x))
    case PartKind => var x :- Unwrapped(PartOf(e)); Ok(PartElement(x))
    case AttrKind => var x :- Unwrapped(AttributeOf(e)); Ok(AttrElement(x))
    case RectKind => var x :- Unwrapped(RectangleOf(e)); Ok(RectElement(x))
    case CircleKind => var x :- Unwrapped(CircleOf(e)); Ok(CircleElement(x))
    case EllipseKind => var x :- Unwrapped(EllipseOf(e)); Ok(EllipseElement(x))
    case PolyKind => var x :- Unwrapped(PolyLineOf(e)); Ok(PolyLineElement(x))
    case ArcKind => var x :- Unwrapped(ArcOf(e)); Ok(ArcElement(x))
    case BezierKind => var x :- Unwrapped(BezierOf(e)); Ok(BezierElement(x))
    case PinKind => var x :- Unwrapped(PinOf(e)); Ok(PinElement(x))
    case TextKind => var x :- Unwrapped(TextOf(e)); Ok(TextElement(x))
    case ObjKind => var x :- Unwrapped(ObjectOf(e)); Ok(ObjElement(x))
  }

  /** The arm of `parse_line` that reads a record's fields once its length is accepted. */
  method ReadElement(k: ElementKind, reader: JsonArrayReader) returns (r: Result<SymbolElement, Failure<ParserError>>)
    requires reader.Valid() && reader.index == 1 && ArityOk(k, reader.Remaining())
    modifies reader
    ensures r == DecodeElement(k, reader.elements)
  {
    match k
    case DocTypeKind =>
      var x := ReadDocType(reader);
      r := if x.Some? then Ok(DocTypeElement(x.value)) else Err(Panicked);
    case HeadKind =>
      var x := ReadHead(reader);
      r := if x.Ok? then Ok(HeadElement(x.value)) else Err(x.error);
    case LineStyleKind =>
      var x := ReadLineStyle(reader);
      r := if x.Some? then Ok(LineStyleElement(x.value)) else Err(Panicked);
    case FontStyleKind =>
      var x := ReadFontStyle(reader);
      r := if x.Some? then Ok(FontStyleElement(x.value)) else Err(Panicked);
    case PartKind =>
      var x := ReadPart(reader);
      r := if x.Some? then Ok(PartElement(x.value)) else Err(Panicked);
    case AttrKind =>
      var x := ReadAttribute(reader);
      r := if x.Some? then Ok(AttrElement(x.value)) else Err(Panicked);
    case RectKind =>
      var x := ReadRectangle(reader);
      r := if x.Some? then Ok(RectElement(x.value)) else Err(Panicked);
    case CircleKind =>
      var x := ReadCircle(reader);
      r := if x.Some? then Ok(CircleElement(x.value)) else Err(Panicked);
    case EllipseKind =>
      var x := ReadEllipse(reader);
      r := if x.Some? then Ok(EllipseElement(x.value)) else Err(Panicked);
    case PolyKind =>
      var x := ReadPolyLine(reader);
      r := if x.Some? then Ok(PolyLineElement(x.value)) else Err(Panicked);
    case ArcKind =>
      var x := ReadArc(reader);
      r := if x.Some? then Ok(ArcElement(x.value)) else Err(Panicked);
    case BezierKind =>
      var x := ReadBezier(reader);
      r := if x.Some? then Ok(BezierElement(x.value)) else Err(Panicked);
    case PinKind =>
      var x := ReadPin(reader);
      r := if x.Some? then Ok(PinElement(x.value)) else Err(Panicked);
    case TextKind =>
      var x := ReadText(reader);
      r := if x.Some? then Ok(TextElement(x.value)) else Err(Panicked);
    case ObjKind =>
      var x := ReadObject(reader);
      r := if x.Some? then Ok(ObjElement(x.value)) else Err(Panicked);
  }

  /**
   * What `parse_line` makes of one line's array: nothing for an empty
   * array, an invalid property type for a tag that is not a string or not
   * known, an invalid array length for a known tag with the wrong number
   * of fields, and otherwise the record read from the fields.
   */
  function SymbolLine(elements: seq<JsonValue>): (r: Result<Option<SymbolElement>, Failure<ParserError>>)
    ensures elements == [] ==> r == Ok(None)
    ensures elements != [] && AsStr(elements[0]).None? ==>
              r == Err(Raised(InvalidPropertyType(SymbolParser, "Invalid type")))
    ensures elements != [] && AsStr(elements[0]).Some? ==>
              var tag := AsStr(elements[0]).value;
              && (r == Err(Raised(InvalidPropertyType(SymbolParser, tag))) <==> KindOf(tag).None?)
              && (r == Err(Raised(InvalidArrayLength(SymbolParser, tag))) <==>
                    KindOf(tag).Some? && !ArityOk(KindOf(tag).value, |elements| - 1))
              && (r.Ok? ==> r.value.Some? && KindOf(tag).Some? && ArityOk(KindOf(tag).value, |elements| - 1))
  {
    if elements == [] then Ok(None)
    else if AsStr(elements[0]).None? then Err(Raised(InvalidPropertyType(SymbolParser, "Invalid type")))
    else
      var tag := AsStr(elements[0]).value;
      if KindOf(tag).None? then Err(Raised(InvalidPropertyType(SymbolParser, tag)))
      else if !ArityOk(KindOf(tag).value, |elements| - 1) then Err(Raised(InvalidArrayLength(SymbolParser, tag)))
      else
        var element :- DecodeElement(KindOf(tag).value, elements);
        Ok(Some(element))
  }

  /**
   * `SymbolElement::parse_line`, from the parsed array on: a reader over
   * the array, the tag, then for a known tag the length check and the
   * record's reads.
   */
  method ParseSymbolLine(elements: seq<JsonValue>) returns (r: Result<Option<SymbolElement>, Failure<ParserError>>)
    ensures r == SymbolLine(elements)
  {
    var reader := new JsonArrayReader(elements);
    if !reader.CanRead() {
      return Ok(None);
    }
    var propertyType := reader.ReadString();
    if propertyType.None? {
      return Err(Raised(InvalidPropertyType(SymbolParser, "Invalid type")));
    }
    var tag := propertyType.value;
    var kind := KindOf(tag);
    if kind.None? {
      return Err(Raised(InvalidPropertyType(SymbolParser, tag)));
    }
    if !ArityOk(kind.value, reader.Remaining()) {
      return Err(Raised(InvalidArrayLength(SymbolParser, tag)));
    }
    var element := ReadElement(kind.value, reader);
    if element.Err? {
      return Err(element.error);
    }
    r := Ok(Some(element.value));
  }
}

/**
 * The records of an EasyEDA footprint file (`src/easyeda/footprint.rs`):
 * one JSON array per line, a type tag followed by the record's fields in a
 * fixed order. `FootprintProperty::parse_line` checks the tag and the
 * number of fields, then reads the fields one by one with a
 * `JsonArrayReader`; a required field of the wrong JSON type is an
 * `unwrap` of nothing, that is a panic.
 */
module EasyedaFootprintRecords {
  import opened Wrappers
  import opened Numbers
  import opened JsonReader
  import opened EasyedaCommon

  // ---------------------------------------------------------------------
  // Records
  // ---------------------------------------------------------------------

  datatype Head = Head(editorVersion: string, importFlag: U32, uuid: string, source: string, title: string)

  datatype DocType = DocType(kind: string, version: string)

  datatype Layer = Layer(id: U8, layerType: string, name: string, status: U8, activeColor: string,
                         activeTransparency: real, inactiveColor: string, inactiveTransparency: real)

  datatype PhysicalLayer = PhysicalLayer(id: U8, material: Option<string>, thickness: real,
                                         permittivity: Option<real>, lossTangent: Option<real>, isKeepIsland: bool)

  datatype Fill = Fill(id: string, groupId: U32, net: string, layerId: U8, width: real, fillStyle: U32,
                       path: JsonValue, isLocked: bool, attributes: seq<Attribute>)

  datatype Poly = Poly(id: string, groupId: U32, net: string, layerId: U8, width: real, path: JsonValue,
                       isLocked: bool, attributes: seq<Attribute>)

  datatype Pad = Pad(id: string, groupId: U32, net: string, layerId: U8, num: string, centerX: real, centerY: real,
                     rotation: real, hole: Option<JsonValue>, path: Option<JsonValue>, specialPad: Option<JsonValue>,
                     holeOffsetX: real, holeOffsetY: real, holeRotation: Option<real>, isPlated: bool, padType: U32,
                     topSolderExpansion: Option<real>, bottomSolderExpansion: Option<real>,
                     topPasteExpansion: Option<real>, bottomPasteExpansion: Option<real>, isLocked: bool,
                     connectMode: Option<real>, spokeSpace: Option<real>, spokeWidth: Option<real>,
                     spokeAngle: Option<real>, unusedInnerLayers: Option<JsonValue>, attributes: seq<Attribute>)

  datatype Via = Via(id: string, groupId: U32, name: string, net: string, centerX: real, centerY: real,
                     holeDiameter: real, viaDiameter: real, isSuture: bool, topSolderExpansion: Option<real>,
                     bottomSolderExpansion: Option<real>, isLocked: bool, unusedInnerLayers: Option<JsonValue>,
                     attributes: seq<Attribute>)

  datatype Net = Net(name: string, netType: Option<string>, specialColor: Option<string>, hideRatline: Option<bool>,
                     differentialName: Option<string>, equalLengthGroupName: Option<JsonValue>,
                     isPositiveNet: Option<bool>)

  datatype RuleTemplate = RuleTemplate(name: string)

  datatype Rule = Rule(ruleType: string, name: string, isDefault: bool, context: JsonValue)

  datatype Primitive = Primitive(name: string, display: bool, pick: bool)

  datatype StringObject = StringObject(id: string, groupId: U32, layerId: U8, posX: real, posY: real, text: string,
                                       fontFamily: string, fontSize: real, strokeWidth: real, isBold: bool,
                                       isItalic: bool, origin: real, angle: real, isReverse: bool,
                                       reverseExpansion: real, isMirrored: bool, isLocked: bool)

  datatype Image = Image(id: string, groupId: U32, layerId: U8, startX: real, startY: real, width: real,
                         height: real, angle: real, isMirrored: bool, path: seq<JsonValue>, isLocked: bool)

  datatype Attribute = Attribute(id: string, groupId: U32, parentId: Option<string>, layerId: U8, x: Option<real>,
                                 y: Option<real>, key: string, value: Option<string>, keyVisible: bool,
                                 valueVisible: bool, fontFamily: string, fontSize: real, strokeWidth: real,
                                 isBold: bool, isItalic: bool, origin: real, angle: real, isReverse: bool,
                                 reverseExpansion: real, isMirrored: bool, isLocked: bool)

  datatype Canvas = Canvas(originX: real, originY: real, unit: string, gridSizeX: real, gridSizeY: real,
                           snapSizeX: real, snapSizeY: real, altSnapSizeX: Option<real>, altSnapSizeY: Option<real>,
                           gridType: Option<U32>, multiGridType: Option<U32>, multiGridRatio: Option<real>)

  /** `FootprintProperty`: one parsed line. */
  datatype FootprintProperty =
    | DocTypeRecord(docType: DocType)
    | HeadRecord(head: Head)
    | LayerRecord(layer: Layer)
    | PhysicalLayerRecord(physicalLayer: PhysicalLayer)
    | ActiveLayerRecord(activeLayer: U8)
    | FillRecord(fill: Fill)
    | PolyRecord(poly: Poly)
    | PadRecord(pad: Pad)
    | ViaRecord(via: Via)
    | NetRecord(net: Net)
    | RuleTemplateRecord(ruleTemplate: RuleTemplate)
    | RuleRecord(rule: Rule)
    | PrimitiveRecord(primitive: Primitive)
    | StringRecord(stringObject: StringObject)
    | ImageRecord(image: Image)
    | AttrRecord(attribute: Attribute)
    | CanvasRecord(canvas: Canvas)

  // ---------------------------------------------------------------------
  // Reading the fields
  // ---------------------------------------------------------------------

  /**
   * The one field of a `HEAD` record is an object; the editor version,
   * uuid, source and title must be strings and the import flag an unsigned
   * integer, cast to `u32`. A missing key reads as null and so panics.
   */
  function HeadOf(e: seq<JsonValue>): Option<Head>
    requires |e| == 2
  {
    var editorVersion := AsStr(Member(e[1], "editorVersion"));
    var importFlag := U32Of(Member(e[1], "importFlag"));
    var uuid := AsStr(Member(e[1], "uuid"));
    var source := AsStr(Member(e[1], "source"));
    var title := AsStr(Member(e[1], "title"));
    if editorVersion.None? || importFlag.None? || uuid.None? || source.None? || title.None? then None
    else Some(Head(editorVersion.value, importFlag.value, uuid.value, source.value, title.value))
  }

  method ReadHead(reader: JsonArrayReader) returns (r: Option<Head>)
    requires reader.Valid() && reader.index == 1 && reader.Remaining() == 1
    modifies reader
    ensures r == HeadOf(reader.elements)
  {
    var parameters := reader.ReadValue();
    var p := parameters.value;
    var editorVersion := AsStr(Member(p, "editorVersion"));
    var importFlag := U32Of(Member(p, "importFlag"));
    var uuid := AsStr(Member(p, "uuid"));
    var source := AsStr(Member(p, "source"));
    var title := AsStr(Member(p, "title"));
    if editorVersion.None? || importFlag.None? || uuid.None? || source.None? || title.None? {
      return None;
    }
    r := Some(Head(editorVersion.value, importFlag.value, uuid.value, source.value, title.value));
  }

  /** The two fields of a `DOCTYPE` record: kind and version, both required. */
  function DocTypeOf(e: seq<JsonValue>): Option<DocType>
    requires |e| == 3
  {
    var kind := AsStr(e[1]);
    var version := AsStr(e[2]);
    if kind.None? || version.None? then None
    else Some(DocType(kind.value, version.value))
  }

  method ReadDocType(reader: JsonArrayReader) returns (r: Option<DocType>)
    requires reader.Valid() && reader.index == 1 && reader.Remaining() == 2
    modifies reader
    ensures r == DocTypeOf(reader.elements)
  {
    var kind := reader.ReadString();
    var version := reader.ReadString();
    if kind.None? || version.None? {
      return None;
    }
    r := Some(DocType(kind.value, version.value));
  }

  /** The eight fields of a `LAYER` record, all required. */
  function LayerOf(e: seq<JsonValue>): Option<Layer>
    requires |e| == 9
  {
    var id := U8Of(e[1]);
    var layerType := AsStr(e[2]);
    var name := AsStr(e[3]);
    var status := U8Of(e[4]);
    var activeColor := AsStr(e[5]);
    var activeTransparency := AsF64(e[6]);
    var inactiveColor := AsStr(e[7]);
    var inactiveTransparency := AsF64(e[8]);
    if id.None? || layerType.None? || name.None? || status.None? || activeColor.None? || activeTransparency.None? ||
       inactiveColor.None? || inactiveTransparency.None? then None
    else Some(Layer(id.value, layerType.value, name.value, status.value, activeColor.value, activeTransparency.value,
               inactiveColor.value, inactiveTransparency.value))
  }

  method ReadLayer(reader: JsonArrayReader) returns (r: Option<Layer>)
    requires reader.Valid() && reader.index == 1 && reader.Remaining() == 8
    modifies reader
    ensures r == LayerOf(reader.elements)
  {
    var id := reader.ReadU8();
    var layerType := reader.ReadString();
    var name := reader.ReadString();
    var status := reader.ReadU8();
    var activeColor := reader.ReadString();
    var activeTransparency := reader.ReadF32();
    var inactiveColor := reader.ReadString();
    var inactiveTransparency := reader.ReadF32();
    if id.None? || layerType.None? || name.None? || status.None? || activeColor.None? || activeTransparency.None? ||
       inactiveColor.None? || inactiveTransparency.None? {
      return None;
    }
    r := Some(Layer(id.value, layerType.value, name.value, status.value, activeColor.value, activeTransparency.value,
                   inactiveColor.value, inactiveTransparency.value));
  }

  /** The six fields of a `LAYER_PHYS` record; material, permittivity and loss tangent may be absent. */
  function PhysicalLayerOf(e: seq<JsonValue>): Option<PhysicalLayer>
    requires |e| == 7
  {
    var id := U8Of(e[1]);
    var material := AsStr(e[2]);
    var thickness := AsF64(e[3]);
    var permittivity := AsF64(e[4]);
    var lossTangent := AsF64(e[5]);
    var isKeepIsland := BoolOf(e[6]);
    if id.None? || thickness.None? || isKeepIsland.None? then None
    else Some(PhysicalLayer(id.value, material, thickness.value, permittivity, lossTangent, isKeepIsland.value))
  }

  method ReadPhysicalLayer(reader: JsonArrayReader) returns (r: Option<PhysicalLayer>)
    requires reader.Valid() && reader.index == 1 && reader.Remaining() == 6
    modifies reader
    ensures r == PhysicalLayerOf(reader.elements)
  {
    var id := reader.ReadU8();
    var material := reader.ReadString();
    var thickness := reader.ReadF32();
    var permittivity := reader.ReadF32();
    var lossTangent := reader.ReadF32();
    var isKeepIsland := reader.ReadBool();
    if id.None? || thickness.None? || isKeepIsland.None? {
      return None;
    }
    r := Some(PhysicalLayer(id.value, material, thickness.value, permittivity, lossTangent, isKeepIsland.value));
  }

  /** The eight fields of a `FILL` record, all required; the path is kept as it was read. */
  function FillOf(e: seq<JsonValue>): (r: Option<Fill>)
    requires |e| == 9
    ensures r.Some? ==> r.value.attributes == []
  {
    var id := AsStr(e[1]);
    var groupId := U32Of(e[2]);
    var net := AsStr(e[3]);
    var layerId := U8Of(e[4]);
    var width := AsF64(e[5]);
    var fillStyle := U32Of(e[6]);
    var path := e[7];
    var isLocked := BoolOf(e[8]);
    if id.None? || groupId.None? || net.None? || layerId.None? || width.None? || fillStyle.None? ||
       isLocked.None? then None
    else Some(Fill(id.value, groupId.value, net.value, layerId.value, width.value, fillStyle.value, path, isLocked.value,
              []))
  }

  method ReadFill(reader: JsonArrayReader) returns (r: Option<Fill>)
    requires reader.Valid() && reader.index == 1 && reader.Remaining() == 8
    modifies reader
    ensures r == FillOf(reader.elements)
  {
    var id := reader.ReadString();
    var groupId := reader.ReadU32();
    var net := reader.ReadString();
    var layerId := reader.ReadU8();
    var width := reader.ReadF32();
    var fillStyle := reader.ReadU32();
    var path := reader.ReadValue();
    var isLocked := reader.ReadBool();
    if id.None? || groupId.None? || net.None? || layerId.None? || width.None? || fillStyle.None? || isLocked.None? {
      return None;
    }
    r := Some(Fill(id.value, groupId.value, net.value, layerId.value, width.value, fillStyle.value, path.value,
                  isLocked.value, []));
  }

  /** The seven fields of a `POLY` record, all required; the path is kept as it was read. */
  function PolyOf(e: seq<JsonValue>): (r: Option<Poly>)
    requires |e| == 8
    ensures r.Some? ==> r.value.attributes == []
  {
    var id := AsStr(e[1]);
    var groupId := U32Of(e[2]);
    var net := AsStr(e[3]);
    var layerId := U8Of(e[4]);
    var width := AsF64(e[5]);
    var path := e[6];
    var isLocked := BoolOf(e[7]);
    if id.None? || groupId.None? || net.None? || layerId.None? || width.None? || isLocked.None? then None
    else Some(Poly(id.value, groupId.value, net.value, layerId.value, width.value, path, isLocked.value, []))
  }

  method ReadPoly(reader: JsonArrayReader) returns (r: Option<Poly>)
    requires reader.Valid() && reader.index == 1 && reader.Remaining() == 7
    modifies reader
    ensures r == PolyOf(reader.elements)
  {
    var id := reader.ReadString();
    var groupId := reader.ReadU32();
    var net := reader.ReadString();
    var layerId := reader.ReadU8();
    var width := reader.ReadF32();
    var path := reader.ReadValue();
    var isLocked := reader.ReadBool();
    if id.None? || groupId.None? || net.None? || layerId.None? || width.None? || isLocked.None? {
      return None;
    }
    r := Some(Poly(id.value, groupId.value, net.value, layerId.value, width.value, path.value, isLocked.value, []));
  }

  /** The optional fields that follow the required ones of a `PAD` record, each present while the line lasts. */
  function PadTail(e: seq<JsonValue>): (Option<real>, Option<real>, Option<real>, Option<real>, Option<JsonValue>)
  {
    (if |e| > 22 then AsF64(e[22]) else None,
     if |e| > 23 then AsF64(e[23]) else None,
     if |e| > 24 then AsF64(e[24]) else None,
     if |e| > 25 then AsF64(e[25]) else None,
     if |e| > 26 then Some(e[26]) else None)
  }

  /** The `if reader.can_read()` reads after the required fields of a `PAD` record. */
  method ReadPadTail(reader: JsonArrayReader) returns (r: (Option<real>, Option<real>, Option<real>, Option<real>, Option<JsonValue>))
    requires reader.Valid() && reader.index == 22
    modifies reader
    ensures r == PadTail(reader.elements)
  {
    var connectMode: Option<real> := None;
    if reader.CanRead() {
      connectMode := reader.ReadF32();
    }
    assert reader.index == if |reader.elements| > 22 then 23 else |reader.elements|;
    var spokeSpace: Option<real> := None;
    if reader.CanRead() {
      spokeSpace := reader.ReadF32();
    }
    assert reader.index == if |reader.elements| > 23 then 24 else |reader.elements|;
    var spokeWidth: Option<real> := None;
    if reader.CanRead() {
      spokeWidth := reader.ReadF32();
    }
    assert reader.index == if |reader.elements| > 24 then 25 else |reader.elements|;
    var spokeAngle: Option<real> := None;
    if reader.CanRead() {
      spokeAngle := reader.ReadF32();
    }
    assert reader.index == if |reader.elements| > 25 then 26 else |reader.elements|;
    var unusedInnerLayers: Option<JsonValue> := None;
    if reader.CanRead() {
      unusedInnerLayers := reader.ReadValue();
    }
    r := (connectMode, spokeSpace, spokeWidth, spokeAngle, unusedInnerLayers);
  }

  /**
   * The 21 fields of a `PAD` record, then up to five optional ones, each
   * read only while the array lasts: connect mode, spoke space, spoke
   * width, spoke angle and the unused inner layers. The hole offset is read
   * x first, as the struct literal lists it.
   */
  function PadOf(e: seq<JsonValue>): (r: Option<Pad>)
    requires |e| >= 22
    ensures r.Some? ==> r.value.attributes == []
  {
    var tail := PadTail(e);
    var id := AsStr(e[1]);
    var groupId := U32Of(e[2]);
    var net := AsStr(e[3]);
    var layerId := U8Of(e[4]);
    var num := AsStr(e[5]);
    var centerX := AsF64(e[6]);
    var centerY := AsF64(e[7]);
    var rotation := AsF64(e[8]);
    var hole := Some(e[9]);
    var path := Some(e[10]);
    var specialPad := Some(e[11]);
    var holeOffsetX := AsF64(e[12]);
    var holeOffsetY := AsF64(e[13]);
    var holeRotation := AsF64(e[14]);
    var isPlated := BoolOf(e[15]);
    var padType := U32Of(e[16]);
    var topSolderExpansion := AsF64(e[17]);
    var bottomSolderExpansion := AsF64(e[18]);
    var topPasteExpansion := AsF64(e[19]);
    var bottomPasteExpansion := AsF64(e[20]);
    var isLocked := BoolOf(e[21]);
    if id.None? || groupId.None? || net.None? || layerId.None? || num.None? || centerX.None? || centerY.None? ||
       rotation.None? || holeOffsetX.None? || holeOffsetY.None? || isPlated.None? || padType.None? ||
       isLocked.None? then None
    else Some(Pad(id.value, groupId.value, net.value, layerId.value, num.value, centerX.value, centerY.value,
             rotation.value, hole, path, specialPad, holeOffsetX.value, holeOffsetY.value, holeRotation,
             isPlated.value, padType.value, topSolderExpansion, bottomSolderExpansion, topPasteExpansion,
             bottomPasteExpansion, isLocked.value, tail.0, tail.1, tail.2, tail.3,
             tail.4, []))
  }

  method ReadPad(reader: JsonArrayReader) returns (r: Option<Pad>)
    requires reader.Valid() && reader.index == 1 && reader.Remaining() >= 21
    modifies reader
    ensures r == PadOf(reader.elements)
  {
    var id := reader.ReadString();
    var groupId := reader.ReadU32();
    var net := reader.ReadString();
    var layerId := reader.ReadU8();
    var num := reader.ReadString();
    var centerX := reader.ReadF32();
    var centerY := reader.ReadF32();
    var rotation := reader.ReadF32();
    var hole := reader.ReadValue();
    var path := reader.ReadValue();
    var specialPad := reader.ReadValue();
    var holeOffsetX := reader.ReadF32();
    var holeOffsetY := reader.ReadF32();
    var holeRotation := reader.ReadF32();
    var isPlated := reader.ReadBool();
    var padType := reader.ReadU32();
    var topSolderExpansion := reader.ReadF32();
    var bottomSolderExpansion := reader.ReadF32();
    var topPasteExpansion := reader.ReadF32();
    var bottomPasteExpansion := reader.ReadF32();
    var isLocked := reader.ReadBool();
    if id.None? || groupId.None? || net.None? || layerId.None? || num.None? || centerX.None? || centerY.None? ||
       rotation.None? || holeOffsetX.None? || holeOffsetY.None? || isPlated.None? || padType.None? || isLocked.None? {
      return None;
    }
    var tail := ReadPadTail(reader);
    r := Some(Pad(id.value, groupId.value, net.value, layerId.value, num.value, centerX.value, centerY.value,
                 rotation.value, hole, path, specialPad, holeOffsetX.value, holeOffsetY.value, holeRotation,
                 isPlated.value, padType.value, topSolderExpansion, bottomSolderExpansion, topPasteExpansion,
                 bottomPasteExpansion, isLocked.value, tail.0, tail.1, tail.2, tail.3,
                 tail.4, []));
  }

  /** The optional fields that follow the required ones of a `VIA` record, each present while the line lasts. */
  function ViaTail(e: seq<JsonValue>): Option<JsonValue>
  {
    if |e| > 13 then Some(e[13]) else None
  }

  /** The `if reader.can_read()` reads after the required fields of a `VIA` record. */
  method ReadViaTail(reader: JsonArrayReader) returns (r: Option<JsonValue>)
    requires reader.Valid() && reader.index == 13
    modifies reader
    ensures r == ViaTail(reader.elements)
  {
    var unusedInnerLayers: Option<JsonValue> := None;
    if reader.CanRead() {
      unusedInnerLayers := reader.ReadValue();
    }
    r := unusedInnerLayers;
  }

  /** The twelve fields of a `VIA` record, then the unused inner layers when one more element is left. */
  function ViaOf(e: seq<JsonValue>): Option<Via>
    requires |e| >= 13
  {
    var id := AsStr(e[1]);
    var groupId := U32Of(e[2]);
    var name := AsStr(e[3]);
    var net := AsStr(e[4]);
    var centerX := AsF64(e[5]);
    var centerY := AsF64(e[6]);
    var holeDiameter := AsF64(e[7]);
    var viaDiameter := AsF64(e[8]);
    var isSuture := BoolOf(e[9]);
    var topSolderExpansion := AsF64(e[10]);
    var bottomSolderExpansion := AsF64(e[11]);
    var isLocked := BoolOf(e[12]);
    if id.None? || groupId.None? || name.None? || net.None? || centerX.None? || centerY.None? ||
       holeDiameter.None? || viaDiameter.None? || isSuture.None? || isLocked.None? then None
    else Some(Via(id.value, groupId.value, name.value, net.value, centerX.value, centerY.value, holeDiameter.value,
             viaDiameter.value, isSuture.value, topSolderExpansion, bottomSolderExpansion, isLocked.value,
             ViaTail(e), []))
  }

  method ReadVia(reader: JsonArrayReader) returns (r: Option<Via>)
    requires reader.Valid() && reader.index == 1 && reader.Remaining() >= 12
    modifies reader
    ensures r == ViaOf(reader.elements)
  {
    var id := reader.ReadString();
    var groupId := reader.ReadU32();
    var name := reader.ReadString();
    var net := reader.ReadString();
    var centerX := reader.ReadF32();
    var centerY := reader.ReadF32();
    var holeDiameter := reader.ReadF32();
    var viaDiameter := reader.ReadF32();
    var isSuture := reader.ReadBool();
    var topSolderExpansion := reader.ReadF32();
    var bottomSolderExpansion := reader.ReadF32();
    var isLocked := reader.ReadBool();
    if id.None? || groupId.None? || name.None? || net.None? || centerX.None? || centerY.None? ||
       holeDiameter.None? || viaDiameter.None? || isSuture.None? || isLocked.None? {
      return None;
    }
    var unusedInnerLayers := ReadViaTail(reader);
    r := Some(Via(id.value, groupId.value, name.value, net.value, centerX.value, centerY.value, holeDiameter.value,
                 viaDiameter.value, isSuture.value, topSolderExpansion, bottomSolderExpansion, isLocked.value,
                 unusedInnerLayers, []));
  }

  /** The seven fields of a `NET` record; only the name is required. */
  function NetOf(e: seq<JsonValue>): Option<Net>
    requires |e| == 8
  {
    var name := AsStr(e[1]);
    var netType := AsStr(e[2]);
    var specialColor := AsStr(e[3]);
    var hideRatline := BoolOf(e[4]);
    var differentialName := AsStr(e[5]);
    var equalLengthGroupName := Some(e[6]);
    var isPositiveNet := BoolOf(e[7]);
    if name.None? then None
    else Some(Net(name.value, netType, specialColor, hideRatline, differentialName, equalLengthGroupName, isPositiveNet))
  }

  method ReadNet(reader: JsonArrayReader) returns (r: Option<Net>)
    requires reader.Valid() && reader.index == 1 && reader.Remaining() == 7
    modifies reader
    ensures r == NetOf(reader.elements)
  {
    var name := reader.ReadString();
    var netType := reader.ReadString();
    var specialColor := reader.ReadString();
    var hideRatline := reader.ReadBool();
    var differentialName := reader.ReadString();
    var equalLengthGroupName := reader.ReadValue();
    var isPositiveNet := reader.ReadBool();
    if name.None? {
      return None;
    }
    r := Some(Net(name.value, netType, specialColor, hideRatline, differentialName, equalLengthGroupName,
                 isPositiveNet));
  }

  /** The one field of a `RULE_TEMPLATE` record. */
  function RuleTemplateOf(e: seq<JsonValue>): Option<RuleTemplate>
    requires |e| == 2
  {
    var name := AsStr(e[1]);
    if name.None? then None
    else Some(RuleTemplate(name.value))
  }

  method ReadRuleTemplate(reader: JsonArrayReader) returns (r: Option<RuleTemplate>)
    requires reader.Valid() && reader.index == 1 && reader.Remaining() == 1
    modifies reader
    ensures r == RuleTemplateOf(reader.elements)
  {
    var name := reader.ReadString();
    if name.None? {
      return None;
    }
    r := Some(RuleTemplate(name.value));
  }

  /** The four fields of a `RULE` record; the context is kept as it was read. */
  function RuleOf(e: seq<JsonValue>): Option<Rule>
    requires |e| == 5
  {
    var ruleType := AsStr(e[1]);
    var name := AsStr(e[2]);
    var isDefault := BoolOf(e[3]);
    var context := e[4];
    if ruleType.None? || name.None? || isDefault.None? then None
    else Some(Rule(ruleType.value, name.value, isDefault.value, context))
  }

  method ReadRule(reader: JsonArrayReader) returns (r: Option<Rule>)
    requires reader.Valid() && reader.index == 1 && reader.Remaining() == 4
    modifies reader
    ensures r == RuleOf(reader.elements)
  {
    var ruleType := reader.ReadString();
    var name := reader.ReadString();
    var isDefault := reader.ReadBool();
    var context := reader.ReadValue();
    if ruleType.None? || name.None? || isDefault.None? {
      return None;
    }
    r := Some(Rule(ruleType.value, name.value, isDefault.value, context.value));
  }

  /** The three fields of a `PRIMITIVE` record. */
  function PrimitiveOf(e: seq<JsonValue>): Option<Primitive>
    requires |e| == 4
  {
    var name := AsStr(e[1]);
    var display := BoolOf(e[2]);
    var pick := BoolOf(e[3]);
    if name.None? || display.None? || pick.None? then None
    else Some(Primitive(name.value, display.value, pick.value))
  }

  method ReadPrimitive(reader: JsonArrayReader) returns (r: Option<Primitive>)
    requires reader.Valid() && reader.index == 1 && reader.Remaining() == 3
    modifies reader
    ensures r == PrimitiveOf(reader.elements)
  {
    var name := reader.ReadString();
    var display := reader.ReadBool();
    var pick := reader.ReadBool();
    if name.None? || display.None? || pick.None? {
      return None;
    }
    r := Some(Primitive(name.value, display.value, pick.value));
  }

  /** The 17 fields of a `STRING` record, all required. */
  function StringObjectOf(e: seq<JsonValue>): Option<StringObject>
    requires |e| == 18
  {
    var id := AsStr(e[1]);
    var groupId := U32Of(e[2]);
    var layerId := U8Of(e[3]);
    var posX := AsF64(e[4]);
    var posY := AsF64(e[5]);
    var text := AsStr(e[6]);
    var fontFamily := AsStr(e[7]);
    var fontSize := AsF64(e[8]);
    var strokeWidth := AsF64(e[9]);
    var isBold := BoolOf(e[10]);
    var isItalic := BoolOf(e[11]);
    var origin := AsF64(e[12]);
    var angle := AsF64(e[13]);
    var isReverse := BoolOf(e[14]);
    var reverseExpansion := AsF64(e[15]);
    var isMirrored := BoolOf(e[16]);
    var isLocked := BoolOf(e[17]);
    if id.None? || groupId.None? || layerId.None? || posX.None? || posY.None? || text.None? || fontFamily.None? ||
       fontSize.None? || strokeWidth.None? || isBold.None? || isItalic.None? || origin.None? || angle.None? ||
       isReverse.None? || reverseExpansion.None? || isMirrored.None? || isLocked.None? then None
    else Some(StringObject(id.value, groupId.value, layerId.value, posX.value, posY.value, text.value, fontFamily.value,
                      fontSize.value, strokeWidth.value, isBold.value, isItalic.value, origin.value, angle.value,
                      isReverse.value, reverseExpansion.value, isMirrored.value, isLocked.value))
  }

  method ReadStringObject(reader: JsonArrayReader) returns (r: Option<StringObject>)
    requires reader.Valid() && reader.index == 1 && reader.Remaining() == 17
    modifies reader
    ensures r == StringObjectOf(reader.elements)
  {
    var id := reader.ReadString();
    var groupId := reader.ReadU32();
    var layerId := reader.ReadU8();
    var posX := reader.ReadF32();
    var posY := reader.ReadF32();
    var text := reader.ReadString();
    var fontFamily := reader.ReadString();
    var fontSize := reader.ReadF32();
    var strokeWidth := reader.ReadF32();
    var isBold := reader.ReadBool();
    var isItalic := reader.ReadBool();
    var origin := reader.ReadF32();
    var angle := reader.ReadF32();
    var isReverse := reader.ReadBool();
    var reverseExpansion := reader.ReadF32();
    var isMirrored := reader.ReadBool();
    var isLocked := reader.ReadBool();
    if id.None? || groupId.None? || layerId.None? || posX.None? || posY.None? || text.None? || fontFamily.None? ||
       fontSize.None? || strokeWidth.None? || isBold.None? || isItalic.None? || origin.None? || angle.None? ||
       isReverse.None? || reverseExpansion.None? || isMirrored.None? || isLocked.None? {
      return None;
    }
    r := Some(StringObject(id.value, groupId.value, layerId.value, posX.value, posY.value, text.value,
                          fontFamily.value, fontSize.value, strokeWidth.value, isBold.value, isItalic.value,
                          origin.value, angle.value, isReverse.value, reverseExpansion.value, isMirrored.value,
                          isLocked.value));
  }

  /** The eleven fields of an `IMAGE` record, all required; the path must be an array. */
  function ImageOf(e: seq<JsonValue>): Option<Image>
    requires |e| == 12
  {
    var id := AsStr(e[1]);
    var groupId := U32Of(e[2]);
    var layerId := U8Of(e[3]);
    var startX := AsF64(e[4]);
    var startY := AsF64(e[5]);
    var width := AsF64(e[6]);
    var height := AsF64(e[7]);
    var angle := AsF64(e[8]);
    var isMirrored := BoolOf(e[9]);
    var path := ArrayOf(e[10]);
    var isLocked := BoolOf(e[11]);
    if id.None? || groupId.None? || layerId.None? || startX.None? || startY.None? || width.None? || height.None? ||
       angle.None? || isMirrored.None? || path.None? || isLocked.None? then None
    else Some(Image(id.value, groupId.value, layerId.value, startX.value, startY.value, width.value, height.value,
               angle.value, isMirrored.value, path.value, isLocked.value))
  }

  method ReadImage(reader: JsonArrayReader) returns (r: Option<Image>)
    requires reader.Valid() && reader.index == 1 && reader.Remaining() == 11
    modifies reader
    ensures r == ImageOf(reader.elements)
  {
    var id := reader.ReadString();
    var groupId := reader.ReadU32();
    var layerId := reader.ReadU8();
    var startX := reader.ReadF32();
    var startY := reader.ReadF32();
    var width := reader.ReadF32();
    var height := reader.ReadF32();
    var angle := reader.ReadF32();
    var isMirrored := reader.ReadBool();
    var pathValue := reader.ReadValue();
    var path := ArrayOf(pathValue.value);
    var isLocked := reader.ReadBool();
    if id.None? || groupId.None? || layerId.None? || startX.None? || startY.None? || width.None? || height.None? ||
       angle.None? || isMirrored.None? || path.None? || isLocked.None? {
      return None;
    }
    r := Some(Image(id.value, groupId.value, layerId.value, startX.value, startY.value, width.value, height.value,
                   angle.value, isMirrored.value, path.value, isLocked.value));
  }

  /** The 21 fields of an `ATTR` record; an empty parent id is no parent. */
  function AttributeOf(e: seq<JsonValue>): Option<Attribute>
    requires |e| == 22
  {
    var id := AsStr(e[1]);
    var groupId := U32Of(e[2]);
    var parentId := NonEmpty(AsStr(e[3]));
    var layerId := U8Of(e[4]);
    var x := AsF64(e[5]);
    var y := AsF64(e[6]);
    var key := AsStr(e[7]);
    var value := AsStr(e[8]);
    var keyVisible := BoolOf(e[9]);
    var valueVisible := BoolOf(e[10]);
    var fontFamily := AsStr(e[11]);
    var fontSize := AsF64(e[12]);
    var strokeWidth := AsF64(e[13]);
    var isBold := BoolOf(e[14]);
    var isItalic := BoolOf(e[15]);
    var origin := AsF64(e[16]);
    var angle := AsF64(e[17]);
    var isReverse := BoolOf(e[18]);
    var reverseExpansion := AsF64(e[19]);
    var isMirrored := BoolOf(e[20]);
    var isLocked := BoolOf(e[21]);
    if id.None? || groupId.None? || layerId.None? || key.None? || keyVisible.None? || valueVisible.None? ||
       fontFamily.None? || fontSize.None? || strokeWidth.None? || isBold.None? || isItalic.None? || origin.None? ||
       angle.None? || isReverse.None? || reverseExpansion.None? || isMirrored.None? || isLocked.None? then None
    else Some(Attribute(id.value, groupId.value, parentId, layerId.value, x, y, key.value, value, keyVisible.value,
                   valueVisible.value, fontFamily.value, fontSize.value, strokeWidth.value, isBold.value,
                   isItalic.value, origin.value, angle.value, isReverse.value, reverseExpansion.value,
                   isMirrored.value, isLocked.value))
  }

  method ReadAttribute(reader: JsonArrayReader) returns (r: Option<Attribute>)
    requires reader.Valid() && reader.index == 1 && reader.Remaining() == 21
    modifies reader
    ensures r == AttributeOf(reader.elements)
  {
    var id := reader.ReadString();
    var groupId := reader.ReadU32();
    var parentIdText := reader.ReadString();
    var parentId := NonEmpty(parentIdText);
    var layerId := reader.ReadU8();
    var x := reader.ReadF32();
    var y := reader.ReadF32();
    var key := reader.ReadString();
    var value := reader.ReadString();
    var keyVisible := reader.ReadBool();
    var valueVisible := reader.ReadBool();
    var fontFamily := reader.ReadString();
    var fontSize := reader.ReadF32();
    var strokeWidth := reader.ReadF32();
    var isBold := reader.ReadBool();
    var isItalic := reader.ReadBool();
    var origin := reader.ReadF32();
    var angle := reader.ReadF32();
    var isReverse := reader.ReadBool();
    var reverseExpansion := reader.ReadF32();
    var isMirrored := reader.ReadBool();
    var isLocked := reader.ReadBool();
    if id.None? || groupId.None? || layerId.None? || key.None? || keyVisible.None? || valueVisible.None? ||
       fontFamily.None? || fontSize.None? || strokeWidth.None? || isBold.None? || isItalic.None? || origin.None? ||
       angle.None? || isReverse.None? || reverseExpansion.None? || isMirrored.None? || isLocked.None? {
      return None;
    }
    r := Some(Attribute(id.value, groupId.value, parentId, layerId.value, x, y, key.value, value, keyVisible.value,
                       valueVisible.value, fontFamily.value, fontSize.value, strokeWidth.value, isBold.value,
                       isItalic.value, origin.value, angle.value, isReverse.value, reverseExpansion.value,
                       isMirrored.value, isLocked.value));
  }

  /** The optional fields that follow the required ones of a `CANVAS` record, each present while the line lasts. */
  function CanvasTail(e: seq<JsonValue>): (Option<real>, Option<real>, Option<U32>, Option<U32>, Option<real>)
  {
    (if |e| > 8 then AsF64(e[8]) else None,
     if |e| > 9 then AsF64(e[9]) else None,
     if |e| > 10 then U32Of(e[10]) else None,
     if |e| > 11 then U32Of(e[11]) else None,
     if |e| > 12 then AsF64(e[12]) else None)
  }

  /** The `if reader.can_read()` reads after the required fields of a `CANVAS` record. */
  method ReadCanvasTail(reader: JsonArrayReader) returns (r: (Option<real>, Option<real>, Option<U32>, Option<U32>, Option<real>))
    requires reader.Valid() && reader.index == 8
    modifies reader
    ensures r == CanvasTail(reader.elements)
  {
    var altSnapSizeX: Option<real> := None;
    if reader.CanRead() {
      altSnapSizeX := reader.ReadF32();
    }
    assert reader.index == if |reader.elements| > 8 then 9 else |reader.elements|;
    var altSnapSizeY: Option<real> := None;
    if reader.CanRead() {
      altSnapSizeY := reader.ReadF32();
    }
    assert reader.index == if |reader.elements| > 9 then 10 else |reader.elements|;
    var gridType: Option<U32> := None;
    if reader.CanRead() {
      gridType := reader.ReadU32();
    }
    assert reader.index == if |reader.elements| > 10 then 11 else |reader.elements|;
    var multiGridType: Option<U32> := None;
    if reader.CanRead() {
      multiGridType := reader.ReadU32();
    }
    assert reader.index == if |reader.elements| > 11 then 12 else |reader.elements|;
    var multiGridRatio: Option<real> := None;
    if reader.CanRead() {
      multiGridRatio := reader.ReadF32();
    }
    r := (altSnapSizeX, altSnapSizeY, gridType, multiGridType, multiGridRatio);
  }

  /**
   * The seven fields of a `CANVAS` record, then up to five optional ones,
   * each read only while the array lasts: the alternative snap sizes, the
   * grid type, the multi-grid type and the multi-grid ratio.
   */
  function CanvasOf(e: seq<JsonValue>): Option<Canvas>
    requires |e| >= 8
  {
    var tail := CanvasTail(e);
    var originX := AsF64(e[1]);
    var originY := AsF64(e[2]);
    var unit := AsStr(e[3]);
    var gridSizeX := AsF64(e[4]);
    var gridSizeY := AsF64(e[5]);
    var snapSizeX := AsF64(e[6]);
    var snapSizeY := AsF64(e[7]);
    if originX.None? || originY.None? || unit.None? || gridSizeX.None? || gridSizeY.None? || snapSizeX.None? ||
       snapSizeY.None? then None
    else Some(Canvas(originX.value, originY.value, unit.value, gridSizeX.value, gridSizeY.value, snapSizeX.value,
                snapSizeY.value, tail.0, tail.1, tail.2, tail.3, tail.4))
  }

  method ReadCanvas(reader: JsonArrayReader) returns (r: Option<Canvas>)
    requires reader.Valid() && reader.index == 1 && reader.Remaining() >= 7
    modifies reader
    ensures r == CanvasOf(reader.elements)
  {
    var originX := reader.ReadF32();
    var originY := reader.ReadF32();
    var unit := reader.ReadString();
    var gridSizeX := reader.ReadF32();
    var gridSizeY := reader.ReadF32();
    var snapSizeX := reader.ReadF32();
    var snapSizeY := reader.ReadF32();
    if originX.None? || originY.None? || unit.None? || gridSizeX.None? || gridSizeY.None? || snapSizeX.None? ||
       snapSizeY.None? {
      return None;
    }
    var tail := ReadCanvasTail(reader);
    r := Some(Canvas(originX.value, originY.value, unit.value, gridSizeX.value, gridSizeY.value, snapSizeX.value,
                    snapSizeY.value, tail.0, tail.1, tail.2, tail.3, tail.4));
  }

  // ---------------------------------------------------------------------
  // Tags and lengths
  // ---------------------------------------------------------------------

  /** The tags of the lines that carry a record, one per arm of `parse_line` that reads fields. */
  datatype RecordKind =
    | DocTypeKind | HeadKind | LayerKind | PhysicalLayerKind | ActiveLayerKind | FillKind
    | PolyKind | PadKind | ViaKind | NetKind | RuleTemplateKind | RuleKind
    | PrimitiveKind | StringKind | ImageKind | AttrKind | CanvasKind

  /** The tag written at the head of a record's line. */
  function TagName(k: RecordKind): string
  {
    match k
    case DocTypeKind => "DOCTYPE"
    case HeadKind => "HEAD"
    case LayerKind => "LAYER"
    case PhysicalLayerKind => "LAYER_PHYS"
    case ActiveLayerKind => "ACTIVE_LAYER"
    case FillKind => "FILL"
    case PolyKind => "POLY"
    case PadKind => "PAD"
    case ViaKind => "VIA"
    case NetKind => "NET"
    case RuleTemplateKind => "RULE_TEMPLATE"
    case RuleKind => "RULE"
    case PrimitiveKind => "PRIMITIVE"
    case StringKind => "STRING"
    case ImageKind => "IMAGE"
    case AttrKind => "ATTR"
    case CanvasKind => "CANVAS"
  }

  /** The record kind a tag names, if it names one. */
  function KindOf(tag: string): (r: Option<RecordKind>)
    ensures r.Some? ==> TagName(r.value) == tag
  {
    if tag == "DOCTYPE" then Some(DocTypeKind)
    else if tag == "HEAD" then Some(HeadKind)
    else if tag == "LAYER" then Some(LayerKind)
    else if tag == "LAYER_PHYS" then Some(PhysicalLayerKind)
    else if tag == "ACTIVE_LAYER" then Some(ActiveLayerKind)
    else if tag == "FILL" then Some(FillKind)
    else if tag == "POLY" then Some(PolyKind)
    else if tag == "PAD" then Some(PadKind)
    else if tag == "VIA" then Some(ViaKind)
    else if tag == "NET" then Some(NetKind)
    else if tag == "RULE_TEMPLATE" then Some(RuleTemplateKind)
    else if tag == "RULE" then Some(RuleKind)
    else if tag == "PRIMITIVE" then Some(PrimitiveKind)
    else if tag == "STRING" then Some(StringKind)
    else if tag == "IMAGE" then Some(ImageKind)
    else if tag == "ATTR" then Some(AttrKind)
    else if tag == "CANVAS" then Some(CanvasKind)
    else None
  }

  /** Every record's tag is recognised as that record's, and by no other. */
  lemma KindOfTagName(k: RecordKind)
    ensures KindOf(TagName(k)) == Some(k)
  {
  }

  /** The tags whose lines are accepted and dropped. */
  predicate IgnoredTag(tag: string)
  {
    tag in {"FONT", "RULE_SELECTOR", "PREFERENCE", "PANELIZE", "PANELIZE_STAMP", "PANELIZE_SIDE", "SILK_OPTS", "CONNECT"}
  }

  /** No ignored tag names a record. */
  lemma IgnoredTagsNameNoRecord(tag: string)
    requires IgnoredTag(tag)
    ensures KindOf(tag).None?
  {
  }

  /** The number of fields after the tag: exact, or the least for `PAD`, `VIA` and `CANVAS`. */
  function Arity(k: RecordKind): nat
  {
    match k
    case DocTypeKind => 2
    case HeadKind => 1
    case LayerKind => 8
    case PhysicalLayerKind => 6
    case ActiveLayerKind => 1
    case FillKind => 8
    case PolyKind => 7
    case PadKind => 21
    case ViaKind => 12
    case NetKind => 7
    case RuleTemplateKind => 1
    case RuleKind => 4
    case PrimitiveKind => 3
    case StringKind => 17
    case ImageKind => 11
    case AttrKind => 21
    case CanvasKind => 7
  }

  /** `PAD`, `VIA` and `CANVAS` take trailing optional fields; every other record has its exact count. */
  predicate ArityOk(k: RecordKind, n: nat)
  {
    if k.PadKind? || k.ViaKind? || k.CanvasKind? then n >= Arity(k) else n == Arity(k)
  }

  /** A record as read from its line: no fill, polygon or pad holds an attribute yet. */
  predicate Unattached(p: FootprintProperty)
  {
    && (p.FillRecord? ==> p.fill.attributes == [])
    && (p.PolyRecord? ==> p.poly.attributes == [])
    && (p.PadRecord? ==> p.pad.attributes == [])
  }

  /** The record of a kind read from fields of an accepted length; None is a panic. */
  function DecodeRecord(k: RecordKind, e: seq<JsonValue>): (r: Option<FootprintProperty>)
    requires |e| >= 1 && ArityOk(k, |e| - 1)
    ensures r.Some? ==> Unattached(r.value)
  {
    match k
    case DocTypeKind => var x :- DocTypeOf(e); Some(DocTypeRecord(x))
    case HeadKind => var x :- HeadOf(e); Some(HeadRecord(x))
    case LayerKind => var x :- LayerOf(e); Some(LayerRecord(x))
    case PhysicalLayerKind => var x :- PhysicalLayerOf(e); Some(PhysicalLayerRecord(x))
    case ActiveLayerKind => var x :- U8Of(e[1]); Some(ActiveLayerRecord(x))
    case FillKind => var x :- FillOf(e); Some(FillRecord(x))
    case PolyKind => var x :- PolyOf(e); Some(PolyRecord(x))
    case PadKind => var x :- PadOf(e); Some(PadRecord(x))
    case ViaKind => var x :- ViaOf(e); Some(ViaRecord(x))
    case NetKind => var x :- NetOf(e); Some(NetRecord(x))
    case RuleTemplateKind => var x :- RuleTemplateOf(e); Some(RuleTemplateRecord(x))
    case RuleKind => var x :- RuleOf(e); Some(RuleRecord(x))
    case PrimitiveKind => var x :- PrimitiveOf(e); Some(PrimitiveRecord(x))
    case StringKind => var x :- StringObjectOf(e); Some(StringRecord(x))
    case ImageKind => var x :- ImageOf(e); Some(ImageRecord(x))
    case AttrKind => var x :- AttributeOf(e); Some(AttrRecord(x))
    case CanvasKind => var x :- CanvasOf(e); Some(CanvasRecord(x))
  }

  /** The arm of `parse_line` that reads a record's fields once its length is accepted. */
  method ReadRecord(k: RecordKind, reader: JsonArrayReader) returns (r: Option<FootprintProperty>)
    requires reader.Valid() && reader.index == 1 && ArityOk(k, reader.Remaining())
    modifies reader
    ensures r == DecodeRecord(k, reader.elements)
  {
    match k
    case DocTypeKind =>
      var x := ReadDocType(reader);
      r := if x.Some? then Some(DocTypeRecord(x.value)) else None;
    case HeadKind =>
      var x := ReadHead(reader);
      r := if x.Some? then Some(HeadRecord(x.value)) else None;
    case LayerKind =>
      var x := ReadLayer(reader);
      r := if x.Some? then Some(LayerRecord(x.value)) else None;
    case PhysicalLayerKind =>
      var x := ReadPhysicalLayer(reader);
      r := if x.Some? then Some(PhysicalLayerRecord(x.value)) else None;
    case ActiveLayerKind =>
      var x := reader.ReadU8();
      r := if x.Some? then Some(ActiveLayerRecord(x.value)) else None;
    case FillKind =>
      var x := ReadFill(reader);
      r := if x.Some? then Some(FillRecord(x.value)) else None;
    case PolyKind =>
      var x := ReadPoly(reader);
      r := if x.Some? then Some(PolyRecord(x.value)) else None;
    case PadKind =>
      var x := ReadPad(reader);
      r := if x.Some? then Some(PadRecord(x.value)) else None;
    case ViaKind =>
      var x := ReadVia(reader);
      r := if x.Some? then Some(ViaRecord(x.value)) else None;
    case NetKind =>
      var x := ReadNet(reader);
      r := if x.Some? then Some(NetRecord(x.value)) else None;
    case RuleTemplateKind =>
      var x := ReadRuleTemplate(reader);
      r := if x.Some? then Some(RuleTemplateRecord(x.value)) else None;
    case RuleKind =>
      var x := ReadRule(reader);
      r := if x.Some? then Some(RuleRecord(x.value)) else None;
    case PrimitiveKind =>
      var x := ReadPrimitive(reader);
      r := if x.Some? then Some(PrimitiveRecord(x.value)) else None;
    case StringKind =>
      var x := ReadStringObject(reader);
      r := if x.Some? then Some(StringRecord(x.value)) else None;
    case ImageKind =>
      var x := ReadImage(reader);
      r := if x.Some? then Some(ImageRecord(x.value)) else None;
    case AttrKind =>
      var x := ReadAttribute(reader);
      r := if x.Some? then Some(AttrRecord(x.value)) else None;
    case CanvasKind =>
      var x := ReadCanvas(reader);
      r := if x.Some? then Some(CanvasRecord(x.value)) else None;
  }

  /** A record that was read, or the panic of an `unwrap` of nothing. */
  function Decoded(p: Option<FootprintProperty>): Result<Option<FootprintProperty>, Failure<ParserError>>
  {
    if p.Some? then Ok(Some(p.value)) else Err(Panicked)
  }

  /**
   * What `parse_line` makes of one line's array: nothing for an empty
   * array or an ignored tag, an invalid property type for a tag that is not
   * a string or not known, an invalid array length for a known tag with the
   * wrong number of fields, and otherwise the record read from the fields.
   */
  function FootprintLine(elements: seq<JsonValue>): (r: Result<Option<FootprintProperty>, Failure<ParserError>>)
    ensures elements == [] ==> r == Ok(None)
    ensures elements != [] && AsStr(elements[0]).None? ==>
              r == Err(Raised(InvalidPropertyType(FootprintParser, "Invalid type")))
    ensures elements != [] && AsStr(elements[0]).Some? ==>
              var tag := AsStr(elements[0]).value;
              && (r == Ok(None) <==> IgnoredTag(tag))
              && (r == Err(Raised(InvalidPropertyType(FootprintParser, tag))) <==> !IgnoredTag(tag) && KindOf(tag).None?)
              && (r == Err(Raised(InvalidArrayLength(FootprintParser, tag))) <==>
                    KindOf(tag).Some? && !ArityOk(KindOf(tag).value, |elements| - 1))
              && (r.Ok? && r.value.Some? ==> KindOf(tag).Some? && ArityOk(KindOf(tag).value, |elements| - 1))
    ensures r.Ok? && r.value.Some? ==> Unattached(r.value.value)
  {
    if elements == [] then Ok(None)
    else if AsStr(elements[0]).None? then Err(Raised(InvalidPropertyType(FootprintParser, "Invalid type")))
    else
      var tag := AsStr(elements[0]).value;
      if IgnoredTag(tag) then Ok(None)
      else if KindOf(tag).None? then Err(Raised(InvalidPropertyType(FootprintParser, tag)))
      else if !ArityOk(KindOf(tag).value, |elements| - 1) then Err(Raised(InvalidArrayLength(FootprintParser, tag)))
      else Decoded(DecodeRecord(KindOf(tag).value, elements))
  }

  /**
   * `FootprintProperty::parse_line`, from the parsed array on: a reader over
   * the array, the tag, then for a known tag the length check and the
   * record's reads. (The tags are distinct, so testing the ignored ones
   * first decides as the source's single `match` does.)
   */
  method ParseFootprintLine(elements: seq<JsonValue>) returns (r: Result<Option<FootprintProperty>, Failure<ParserError>>)
    ensures r == FootprintLine(elements)
  {
    var reader := new JsonArrayReader(elements);
    if !reader.CanRead() {
      return Ok(None);
    }
    var propertyType := reader.ReadString();
    if propertyType.None? {
      return Err(Raised(InvalidPropertyType(FootprintParser, "Invalid type")));
    }
    var tag := propertyType.value;
    if IgnoredTag(tag) {
      return Ok(None);
    }
    var kind := KindOf(tag);
    if kind.None? {
      return Err(Raised(InvalidPropertyType(FootprintParser, tag)));
    }
    if !ArityOk(kind.value, reader.Remaining()) {
      return Err(Raised(InvalidArrayLength(FootprintParser, tag)));
    }
    var property := ReadRecord(kind.value, reader);
    r := Decoded(property);
  }
}

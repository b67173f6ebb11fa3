/**
 * An EasyEDA footprint file and the rules that turn its records into KiCad
 * footprint elements (`src/easyeda/footprint.rs`): reading the file line by
 * line into the footprint's tables, attaching each attribute to the record
 * it names, the mapping of EasyEDA layers to KiCad layers, the drill
 * rotation rule and the pad conversion.
 */
module EasyedaFootprint {
  import opened Wrappers
  import opened Numbers
  import opened JsonReader
  import opened EasyedaCommon
  import opened EasyedaFootprintRecords
  import opened EasyedaShapes
  import opened PcbLayers
  import FootprintRecords

  // ---------------------------------------------------------------------
  // The footprint file
  // ---------------------------------------------------------------------

  /**
   * `EasyEDAFootprint`. Its hash maps are maps from the key to the record
   * (a later record with the same key replaces the earlier one); the part
   * number is never set by `parse`.
   */
  datatype Footprint = Footprint(
    head: Option<Head>,
    canvas: Canvas,
    layers: map<U8, Layer>,
    physicalLayers: map<U8, PhysicalLayer>,
    activeLayer: U8,
    fills: map<string, Fill>,
    polygons: map<string, Poly>,
    pads: map<string, Pad>,
    attributes: seq<Attribute>,
    partNumber: Option<string>,
    nets: seq<Net>,
    ruleTemplate: Option<RuleTemplate>,
    rules: seq<Rule>,
    primitives: seq<Primitive>,
    strings: map<string, StringObject>,
    vias: map<string, Via>,
    images: map<string, Image>)

  /** The local variables of `parse` while the lines are read: the same tables, with the canvas still optional. */
  datatype Collected = Collected(
    canvas: Option<Canvas>,
    head: Option<Head>,
    ruleTemplate: Option<RuleTemplate>,
    rules: seq<Rule>,
    physicalLayers: map<U8, PhysicalLayer>,
    layers: map<U8, Layer>,
    fills: map<string, Fill>,
    pads: map<string, Pad>,
    vias: map<string, Via>,
    polygons: map<string, Poly>,
    attributes: seq<Attribute>,
    nets: seq<Net>,
    primitives: seq<Primitive>,
    strings: map<string, StringObject>,
    images: map<string, Image>,
    activeLayer: U8)

  const NothingCollected :=
    Collected(None, None, None, [], map[], map[], map[], map[], map[], map[], [], [], [], map[], map[], 0)

  /**
   * An `ATTR` record: one without a parent stays at the top level; one with
   * a parent id goes to the end of the attributes of the fill with that id,
   * else of the polygon, else of the pad, and panics when none has it.
   */
  function Attach(c: Collected, a: Attribute): Result<Collected, Failure<ParserError>>
  {
    if a.parentId.None? then Ok(c.(attributes := c.attributes + [a]))
    else
      var id := a.parentId.value;
      if id in c.fills then Ok(c.(fills := c.fills[id := FillWith(c.fills[id], a)]))
      else if id in c.polygons then Ok(c.(polygons := c.polygons[id := PolyWith(c.polygons[id], a)]))
      else if id in c.pads then Ok(c.(pads := c.pads[id := PadWith(c.pads[id], a)]))
      else Err(Panicked)
  }

  /** `fill.attributes.push(attribute)`. */
  function FillWith(f: Fill, a: Attribute): (r: Fill)
    ensures r.attributes == f.attributes + [a]
    ensures r.(attributes := f.attributes) == f
  {
    f.(attributes := f.attributes + [a])
  }

  /** `poly.attributes.push(attribute)`. */
  function PolyWith(q: Poly, a: Attribute): (r: Poly)
    ensures r.id == q.id && r.path == q.path && r.attributes == q.attributes + [a]
  {
    q.(attributes := q.attributes + [a])
  }

  /** `pad.attributes.push(attribute)`. */
  function PadWith(d: Pad, a: Attribute): (r: Pad)
    ensures r.id == d.id && r.num == d.num && r.layerId == d.layerId
    ensures r.centerX == d.centerX && r.centerY == d.centerY && r.hole == d.hole
    ensures r.attributes == d.attributes + [a]
  {
    d.(attributes := d.attributes + [a])
  }

  /**
   * One record taken into the tables, by the arm of `parse`'s `match` for
   * its kind. A document type other than `FOOTPRINT` fails its
   * `assert_eq!`; a polygon whose path is null is dropped.
   */
  function Absorb(c: Collected, p: FootprintProperty): Result<Collected, Failure<ParserError>>
  {
    match p
    case DocTypeRecord(d) => if d.kind == "FOOTPRINT" then Ok(c) else Err(Panicked)
    case HeadRecord(h) => Ok(c.(head := Some(h)))
    case CanvasRecord(x) => Ok(c.(canvas := Some(x)))
    case LayerRecord(l) => Ok(c.(layers := c.layers[l.id := l]))
    case PhysicalLayerRecord(l) => Ok(c.(physicalLayers := c.physicalLayers[l.id := l]))
    case ActiveLayerRecord(l) => Ok(c.(activeLayer := l))
    case FillRecord(f) => Ok(c.(fills := c.fills[f.id := f]))
    case PolyRecord(q) => if q.path.JNull? then Ok(c) else Ok(c.(polygons := c.polygons[q.id := q]))
    case PadRecord(d) => Ok(c.(pads := c.pads[d.id := d]))
    case ViaRecord(v) => Ok(c.(vias := c.vias[v.id := v]))
    case NetRecord(n) => Ok(c.(nets := c.nets + [n]))
    case RuleTemplateRecord(t) => Ok(c.(ruleTemplate := Some(t)))
    case RuleRecord(r) => Ok(c.(rules := c.rules + [r]))
    case StringRecord(s) => Ok(c.(strings := c.strings[s.id := s]))
    case AttrRecord(a) => Attach(c, a)
    case PrimitiveRecord(x) => Ok(c.(primitives := c.primitives + [x]))
    case ImageRecord(i) => Ok(c.(images := c.images[i.id := i]))
  }

  /**
   * One line of the file: an empty line is skipped; otherwise the text is
   * read as a JSON array by `json` (serde_json, whose failure is a JSON
   * error), the array is parsed, and a record, if any, is taken in.
   */
  function CollectLine(line: string, c: Collected, json: string -> Option<seq<JsonValue>>)
    : Result<Collected, Failure<ParserError>>
  {
    if line == "" then Ok(c)
    else if json(line).None? then Err(Raised(JsonError))
    else
      var property :- FootprintLine(json(line).value);
      if property.None? then Ok(c) else Absorb(c, property.value)
  }

  /** The lines, first to last, the first failure ending the parse. */
  function CollectLines(lines: seq<string>, c: Collected, json: string -> Option<seq<JsonValue>>)
    : Result<Collected, Failure<ParserError>>
  {
    if lines == [] then Ok(c)
    else
      var next :- CollectLine(lines[0], c, json);
      CollectLines(lines[1..], next, json)
  }

  /** The footprint from the tables; the canvas is unwrapped (a file without one panics). */
  function Finished(c: Collected): Result<Footprint, Failure<ParserError>>
  {
    if c.canvas.None? then Err(Panicked)
    else Ok(Footprint(c.head, c.canvas.value, c.layers, c.physicalLayers, c.activeLayer, c.fills, c.polygons,
                      c.pads, c.attributes, None, c.nets, c.ruleTemplate, c.rules, c.primitives, c.strings, c.vias,
                      c.images))
  }

  /** `EasyEDAFootprint::parse` of a file's text. */
  function FootprintOf(text: string, json: string -> Option<seq<JsonValue>>): Result<Footprint, Failure<ParserError>>
  {
    var c :- CollectLines(SplitTerminator(text), NothingCollected, json);
    Finished(c)
  }

  /** `EasyEDAFootprint::parse`: the loop over the lines, then the footprint. */
  method ParseFootprint(text: string, json: string -> Option<seq<JsonValue>>) returns (r: Result<Footprint, Failure<ParserError>>)
    ensures r == FootprintOf(text, json)
  {
    var lines := SplitTerminator(text);
    var collected := NothingCollected;
    ghost var target := CollectLines(lines, collected, json);
    assert lines[0..] == lines;
    for i := 0 to |lines|
      invariant CollectLines(lines[i..], collected, json) == target
    {
      assert lines[i..][1..] == lines[i + 1..] && lines[i..][0] == lines[i];
      var line := lines[i];
      if |line| == 0 {
        continue;
      }
      var elements := json(line);
      if elements.None? {
        return Err(Raised(JsonError));
      }
      var property := ParseFootprintLine(elements.value);
      if property.Err? {
        return Err(property.error);
      }
      if property.value.None? {
        continue;
      }
      var next := Absorb(collected, property.value.value);
      if next.Err? {
        return Err(next.error);
      }
      collected := next.value;
    }
    assert lines[|lines|..] == [];
    r := Finished(collected);
  }

  // ---------------------------------------------------------------------
  // Properties of the parse
  // ---------------------------------------------------------------------

  /**
   * How the parse files its records: every table is keyed by its records'
   * ids; the attributes held by a fill, a polygon or a pad name it as
   * their parent; the top-level attributes have no parent; and no polygon
   * has a null path.
   */
  predicate Routed(c: Collected)
  {
    FillsRouted(c.fills) && PolygonsRouted(c.polygons) && PadsRouted(c.pads) && TopLevel(c.attributes)
  }

  predicate FillsRouted(fills: map<string, Fill>)
  {
    forall k | k in fills ::
      fills[k].id == k && forall j | 0 <= j < |fills[k].attributes| :: fills[k].attributes[j].parentId == Some(k)
  }

  predicate PolygonsRouted(polygons: map<string, Poly>)
  {
    forall k | k in polygons ::
      && polygons[k].id == k && !polygons[k].path.JNull?
      && forall j | 0 <= j < |polygons[k].attributes| :: polygons[k].attributes[j].parentId == Some(k)
  }

  predicate PadsRouted(pads: map<string, Pad>)
  {
    forall k | k in pads ::
      pads[k].id == k && forall j | 0 <= j < |pads[k].attributes| :: pads[k].attributes[j].parentId == Some(k)
  }

  predicate TopLevel(attributes: seq<Attribute>)
  {
    forall j | 0 <= j < |attributes| :: attributes[j].parentId.None?
  }

  /**
   * An attribute is attached exactly when it has no parent or its parent
   * id is a fill's, a polygon's or a pad's, and then it lands at the end of
   * the first of these that has the id; the set of ids in each table does
   * not change.
   */
  lemma AttachRules(c: Collected, a: Attribute)
    ensures Attach(c, a).Ok? <==>
              a.parentId.None? || a.parentId.value in c.fills || a.parentId.value in c.polygons
              || a.parentId.value in c.pads
  {
  }

  /** An attribute without a parent goes to the end of the top-level attributes, and no table changes. */
  lemma AttachTopLevel(c: Collected, a: Attribute)
    requires a.parentId.None?
    ensures Attach(c, a) == Ok(c.(attributes := c.attributes + [a]))
  {
  }

  /** An attribute whose parent is a fill goes to the end of that fill's attributes; the fills keep their ids. */
  lemma AttachToFill(c: Collected, a: Attribute)
    requires a.parentId.Some? && a.parentId.value in c.fills
    ensures Attach(c, a).Ok?
    ensures var d := Attach(c, a).value;
            && d.fills.Keys == c.fills.Keys
            && d.fills[a.parentId.value].attributes == c.fills[a.parentId.value].attributes + [a]
            && d.polygons == c.polygons && d.pads == c.pads && d.attributes == c.attributes
  {
  }

  /** An attribute whose parent is a polygon but no fill goes to the end of that polygon's attributes. */
  lemma AttachToPolygon(c: Collected, a: Attribute)
    requires a.parentId.Some? && a.parentId.value !in c.fills && a.parentId.value in c.polygons
    ensures Attach(c, a).Ok?
    ensures var d := Attach(c, a).value;
            && d.polygons.Keys == c.polygons.Keys
            && d.polygons[a.parentId.value].attributes == c.polygons[a.parentId.value].attributes + [a]
            && d.fills == c.fills && d.pads == c.pads && d.attributes == c.attributes
  {
  }

  /** An attribute whose parent is a pad but no fill or polygon goes to the end of that pad's attributes. */
  lemma AttachToPad(c: Collected, a: Attribute)
    requires a.parentId.Some? && a.parentId.value !in c.fills && a.parentId.value !in c.polygons
    requires a.parentId.value in c.pads
    ensures Attach(c, a).Ok?
    ensures var d := Attach(c, a).value;
            && d.pads.Keys == c.pads.Keys
            && d.pads[a.parentId.value].attributes == c.pads[a.parentId.value].attributes + [a]
            && d.fills == c.fills && d.polygons == c.polygons && d.attributes == c.attributes
  {
  }

  /** Attaching an attribute keeps the tables routed. */
  lemma AttachKeepsRouted(c: Collected, a: Attribute)
    requires Routed(c)
    ensures Attach(c, a).Ok? ==> Routed(Attach(c, a).value)
  {
    if a.parentId.None? {
      assert TopLevel(c.attributes + [a]) by {
        assert forall j | 0 <= j < |c.attributes| :: (c.attributes + [a])[j] == c.attributes[j];
      }
    } else {
      var id := a.parentId.value;
      if id in c.fills {
        FillsRoutedWith(c.fills, a);
        assert Attach(c, a) == Ok(c.(fills := c.fills[id := FillWith(c.fills[id], a)]));
      } else if id in c.polygons {
        PolygonsRoutedWith(c.polygons, a);
        assert Attach(c, a) == Ok(c.(polygons := c.polygons[id := PolyWith(c.polygons[id], a)]));
      } else if id in c.pads {
        PadsRoutedWith(c.pads, a);
        assert Attach(c, a) == Ok(c.(pads := c.pads[id := PadWith(c.pads[id], a)]));
      }
    }
  }

  lemma FillsRoutedWith(fills: map<string, Fill>, a: Attribute)
    requires FillsRouted(fills) && a.parentId.Some? && a.parentId.value in fills
    ensures FillsRouted(fills[a.parentId.value := FillWith(fills[a.parentId.value], a)])
  {
    var id := a.parentId.value;
    var f := FillWith(fills[id], a);
    forall j | 0 <= j < |f.attributes|
      ensures f.attributes[j].parentId == Some(id)
    {
      if j < |fills[id].attributes| {
        assert f.attributes[j] == fills[id].attributes[j];
      }
    }
  }

  lemma PolygonsRoutedWith(polygons: map<string, Poly>, a: Attribute)
    requires PolygonsRouted(polygons) && a.parentId.Some? && a.parentId.value in polygons
    ensures PolygonsRouted(polygons[a.parentId.value := PolyWith(polygons[a.parentId.value], a)])
  {
    var id := a.parentId.value;
    var q := PolyWith(polygons[id], a);
    forall j | 0 <= j < |q.attributes|
      ensures q.attributes[j].parentId == Some(id)
    {
      if j < |polygons[id].attributes| {
        assert q.attributes[j] == polygons[id].attributes[j];
      }
    }
  }

  lemma PadsRoutedWith(pads: map<string, Pad>, a: Attribute)
    requires PadsRouted(pads) && a.parentId.Some? && a.parentId.value in pads
    ensures PadsRouted(pads[a.parentId.value := PadWith(pads[a.parentId.value], a)])
  {
    var id := a.parentId.value;
    var d := PadWith(pads[id], a);
    forall j | 0 <= j < |d.attributes|
      ensures d.attributes[j].parentId == Some(id)
    {
      if j < |pads[id].attributes| {
        assert d.attributes[j] == pads[id].attributes[j];
      }
    }
  }

  /** Taking in a record as read from its line keeps the tables routed. */
  lemma AbsorbKeepsRouted(c: Collected, p: FootprintProperty)
    requires Routed(c) && Unattached(p)
    ensures Absorb(c, p).Ok? ==> Routed(Absorb(c, p).value)
  {
    match p
    case AttrRecord(a) => AttachKeepsRouted(c, a);
    case FillRecord(f) =>
      assert Absorb(c, p) == Ok(c.(fills := c.fills[f.id := f]));
    case PolyRecord(q) =>
      if !q.path.JNull? {
        assert Absorb(c, p) == Ok(c.(polygons := c.polygons[q.id := q]));
      }
    case PadRecord(d) =>
      assert Absorb(c, p) == Ok(c.(pads := c.pads[d.id := d]));
    case _ =>
      AbsorbKeepsTables(c, p);
  }

  /** The records other than fills, polygons, pads and attributes leave those four tables alone. */
  lemma AbsorbKeepsTables(c: Collected, p: FootprintProperty)
    requires !(p.FillRecord? || p.PolyRecord? || p.PadRecord? || p.AttrRecord?)
    ensures Absorb(c, p).Ok? ==>
              var d := Absorb(c, p).value;
              d.fills == c.fills && d.polygons == c.polygons && d.pads == c.pads && d.attributes == c.attributes
  {
  }

  lemma {:induction false} CollectLinesRouted(lines: seq<string>, c: Collected, json: string -> Option<seq<JsonValue>>)
    requires Routed(c)
    ensures CollectLines(lines, c, json).Ok? ==> Routed(CollectLines(lines, c, json).value)
  {
    if lines != [] {
      var next := CollectLine(lines[0], c, json);
      if next.Ok? {
        if lines[0] != "" && json(lines[0]).Some? {
          var property := FootprintLine(json(lines[0]).value);
          if property.Ok? && property.value.Some? {
            AbsorbKeepsRouted(c, property.value.value);
          }
        }
        CollectLinesRouted(lines[1..], next.value, json);
      }
    }
  }

  /**
   * A parsed footprint files its records as `Routed` says: attributes with
   * a parent are held by the fill, polygon or pad of that id, the others
   * are top-level, and polygons with a null path are gone.
   */
  lemma ParsedFootprintRouted(text: string, json: string -> Option<seq<JsonValue>>)
    ensures FootprintOf(text, json).Ok? ==>
              var f := FootprintOf(text, json).value;
              Routed(Collected(Some(f.canvas), f.head, f.ruleTemplate, f.rules, f.physicalLayers, f.layers, f.fills,
                               f.pads, f.vias, f.polygons, f.attributes, f.nets, f.primitives, f.strings, f.images,
                               f.activeLayer))
  {
    CollectLinesRouted(SplitTerminator(text), NothingCollected, json);
  }

  /** Empty lines change nothing: the parse reads the same as over the other lines alone. */
  lemma {:induction false} EmptyLinesSkipped(lines: seq<string>, c: Collected, json: string -> Option<seq<JsonValue>>)
    ensures CollectLines(NonEmptyLines(lines), c, json) == CollectLines(lines, c, json)
  {
    if lines != [] {
      var next := CollectLine(lines[0], c, json);
      if lines[0] == "" {
        EmptyLinesSkipped(lines[1..], c, json);
      } else {
        var rest := NonEmptyLines(lines[1..]);
        assert NonEmptyLines(lines) == [lines[0]] + rest;
        assert ([lines[0]] + rest)[1..] == rest;
        if next.Ok? {
          EmptyLinesSkipped(lines[1..], next.value, json);
        }
      }
    }
  }

  /** A line whose array carries no record (an empty array or an ignored tag) leaves the tables as they were. */
  lemma LineWithoutRecordSkipped(line: string, c: Collected, json: string -> Option<seq<JsonValue>>)
    requires line != "" && json(line).Some? && FootprintLine(json(line).value) == Ok(None)
    ensures CollectLine(line, c, json) == Ok(c)
  {
  }

  // ---------------------------------------------------------------------
  // Layers
  // ---------------------------------------------------------------------

  /** The EasyEDA layer types `get_kicad_layer` knows. */
  predicate KnownLayerType(t: string)
  {
    t in {"TOP_SILK", "BOT_SILK", "COMPONENT_SHAPE", "DOCUMENT", "OUTLINE", "MECHANICAL", "BOT_ASSEMBLY",
          "TOP_ASSEMBLY", "COMPONENT_MARKING", "TOP_PASTE_MASK", "BOT_PASTE_MASK", "TOP_SOLDER_MASK",
          "BOT_SOLDER_MASK", "PIN_SOLDERING", "PIN_FLOATING", "TOP", "BOTTOM", "MULTI", "SIGNAL"}
  }

  /**
   * The inner copper layer of a `SIGNAL` layer: `Inner1` to `Inner30` give
   * `In1.Cu` to `In30.Cu` (the source lists the thirty names one by one);
   * any other name is an unsupported inner layer.
   */
  function SignalLayer(name: string): Result<Option<PcbLayer>, FootprintConverterError>
  {
    if |name| >= 5 && name[..5] == "Inner" && InnerOf("In" + name[5..]).Some? then Ok(InnerOf("In" + name[5..]))
    else Err(UnsupportedInnerLayer(name))
  }

  /** `get_kicad_layer`: the KiCad layer an EasyEDA layer is drawn on; none for the `MULTI` (all copper) layer. */
  function KicadLayer(layer: Layer): Result<Option<PcbLayer>, FootprintConverterError>
  {
    match layer.layerType
    case "TOP_SILK" => Ok(Some(FSilkS))
    case "BOT_SILK" => Ok(Some(BSilkS))
    case "COMPONENT_SHAPE" | "DOCUMENT" | "OUTLINE" | "MECHANICAL" | "BOT_ASSEMBLY" | "TOP_ASSEMBLY" => Ok(Some(FFab))
    case "COMPONENT_MARKING" => Ok(Some(FSilkS))
    case "TOP_PASTE_MASK" => Ok(Some(FPaste))
    case "BOT_PASTE_MASK" => Ok(Some(BPaste))
    case "TOP_SOLDER_MASK" => Ok(Some(FMask))
    case "BOT_SOLDER_MASK" => Ok(Some(BMask))
    case "PIN_SOLDERING" | "PIN_FLOATING" => Ok(Some(FFab))
    case "TOP" => Ok(Some(FCu))
    case "BOTTOM" => Ok(Some(BCu))
    case "MULTI" => Ok(None)
    case "SIGNAL" => SignalLayer(layer.name)
    case _ => Err(UnsupportedLayer(DebugText(layer.layerType)))
  }

  /** The layers an EasyEDA layer can be mapped to: never an edge, courtyard, adhesive or user layer. */
  predicate Destination(l: PcbLayer)
  {
    l in {FSilkS, BSilkS, FFab, FPaste, BPaste, FMask, BMask, FCu, BCu} || l.Inner?
  }

  /**
   * Only the `MULTI` layer maps to no layer; every other known type maps
   * to a destination layer or, for `SIGNAL`, to an unsupported inner layer;
   * an unknown type is an unsupported layer, reported in its debug form.
   */
  lemma KicadLayerRules(layer: Layer)
    ensures KicadLayer(layer) == Ok(None) <==> layer.layerType == "MULTI"
    ensures KicadLayer(layer).Ok? && KicadLayer(layer).value.Some? ==> Destination(KicadLayer(layer).value.value)
    ensures KicadLayer(layer) == Err(UnsupportedLayer(DebugText(layer.layerType))) <==> !KnownLayerType(layer.layerType)
    ensures KicadLayer(layer).Err? && KicadLayer(layer).error.UnsupportedInnerLayer? <==>
              layer.layerType == "SIGNAL" && SignalLayer(layer.name).Err?
  {
    var t := layer.layerType;
    if t == "SIGNAL" {
      assert KicadLayer(layer) == SignalLayer(layer.name);
    } else if !KnownLayerType(t) {
      assert KicadLayer(layer) == Err(UnsupportedLayer(DebugText(t)));
    } else {
      assert KicadLayer(layer).Ok?;
    }
  }

  /** `InnerN` on a `SIGNAL` layer, and nothing else, gives `InN.Cu`. */
  lemma SignalLayerNames(name: string, n: InnerIndex)
    ensures SignalLayer(name) == Ok(Some(Inner(n))) <==> name == "Inner" + NatText(n)
  {
    var digits := NatText(n);
    if name == "Inner" + digits {
      assert name[..5] == "Inner" && name[5..] == digits;
      InnerParts(n);
      assert "In" + name[5..] == LayerPrefix(Inner(n));
    }
    if SignalLayer(name) == Ok(Some(Inner(n))) {
      assert LayerPrefix(Inner(n)) == "In" + name[5..];
      assert "In" + digits == "In" + name[5..];
      assert digits == ("In" + digits)[2..];
      assert name == name[..5] + name[5..];
    }
  }

  /** The inner layers, and only they, come from `SIGNAL` layers. */
  lemma KicadLayerInner(layer: Layer)
    ensures KicadLayer(layer).Ok? && KicadLayer(layer).value.Some? && KicadLayer(layer).value.value.Inner? <==>
              layer.layerType == "SIGNAL" && SignalLayer(layer.name).Ok?
  {
    if layer.layerType == "SIGNAL" {
      assert KicadLayer(layer) == SignalLayer(layer.name);
    } else if KicadLayer(layer).Ok? && KicadLayer(layer).value.Some? {
      assert !KicadLayer(layer).value.value.Inner?;
    }
  }

  // ---------------------------------------------------------------------
  // Drill rotation
  // ---------------------------------------------------------------------

  /** `hole_rotation.abs() as u32 % 360`: whole degrees, truncated, saturating at `u32::MAX`. */
  function DrillRotation(rotation: real): (k: nat)
    ensures k < 360
  {
    CastUnsigned(Finite(if rotation < 0.0 then -rotation else rotation), U32_MAX) % 360
  }

  /**
   * The two hole parameters after the drill rotation: kept at 0 and 180
   * degrees, swapped at 90 and 270, any other angle refused; no rotation
   * keeps them.
   */
  function RotatedHole(p1: real, p2: real, rotation: Option<real>): Result<(real, real), FootprintConverterError>
  {
    if rotation.None? then Ok((p1, p2))
    else
      var k := DrillRotation(rotation.value);
      if k == 0 || k == 180 then Ok((p1, p2))
      else if k == 90 || k == 270 then Ok((p2, p1))
      else Err(UnsupportedDrillRotation(k))
  }

  /**
   * A rotation is accepted exactly when it is absent or a whole number of
   * quarter turns after truncation; the parameters are then the same two,
   * swapped exactly for an odd number of quarter turns.
   */
  lemma RotatedHoleRules(p1: real, p2: real, rotation: Option<real>)
    ensures RotatedHole(p1, p2, rotation).Ok? <==> rotation.None? || DrillRotation(rotation.value) % 90 == 0
    ensures RotatedHole(p1, p2, rotation).Err? ==>
              RotatedHole(p1, p2, rotation).error == UnsupportedDrillRotation(DrillRotation(rotation.value))
    ensures RotatedHole(p1, p2, rotation).Ok? ==>
              var q := RotatedHole(p1, p2, rotation).value;
              multiset{q.0, q.1} == multiset{p1, p2}
              && (q == (p2, p1) <== rotation.Some? && DrillRotation(rotation.value) % 180 == 90)
              && (q == (p1, p2) <== rotation.None? || DrillRotation(rotation.value) % 180 == 0)
  {
  }

  /** The sign of the rotation does not matter. */
  lemma DrillRotationSymmetric(rotation: real)
    ensures DrillRotation(-rotation) == DrillRotation(rotation)
  {
  }

  /** A full turn more is the same rotation, below the saturation of the cast. */
  lemma DrillRotationPeriodic(rotation: real)
    requires 0.0 <= rotation && rotation + 360.0 < U32_MAX as real
    ensures DrillRotation(rotation + 360.0) == DrillRotation(rotation)
  {
    assert (rotation + 360.0).Floor == rotation.Floor + 360;
  }

  /** A rotation past `u32::MAX` degrees saturates to 4294967295, which is 255 degrees after the modulo: refused. */
  lemma SaturatedRotationRefused(p1: real, p2: real, rotation: real)
    requires rotation >= U32_MAX as real
    ensures RotatedHole(p1, p2, Some(rotation)) == Err(UnsupportedDrillRotation(255))
  {
  }

  // ---------------------------------------------------------------------
  // Pads
  // ---------------------------------------------------------------------

  /** EasyEDA coordinates are in units of 10 mil; KiCad's in millimetres. */
  const ScaleFactor: real := 0.0254

  /** KiCad's `PadType`. */
  datatype PadType = ThruHole | Smd | Connect | NpThruHole

  /** KiCad's `PadShape`. */
  datatype PadShape = CirclePad | RectPad | OvalPad | TrapezoidPad | RoundRectPad | CustomPad

  /** `DrillDefinition` as the pad conversion fills it: it always sets the width and the offset. */
  datatype Drill = Drill(oval: bool, diameter: real, width: real, offset: Point2D)

  /** The fields of `FootprintPad` the pad conversion sets; the others stay empty. */
  datatype KicadPad = KicadPad(
    number: string,
    padType: PadType,
    shape: PadShape,
    position: Point2D,
    angle: real,
    size: Point2D,
    drill: Option<Drill>,
    layers: seq<PcbLayer>,
    solderMaskMargin: Option<real>,
    solderPasteMargin: Option<real>,
    primitives: Option<Shapes>)

  /** The outline of a pad as its path gives it: the shape, the size and, for a custom pad, its primitives. */
  datatype Outline = Outline(shape: PadShape, size: Point2D, primitives: Option<Shapes>)

  /** The first word of a pad's path, if it is a string. */
  function PathWord(path: seq<JsonValue>): Option<string>
  {
    if path == [] then None else AsStr(path[0])
  }

  /** A rectangle or an oval sized by the path's two numbers, scaled; a value that is not a number panics. */
  function SizedOutline(shape: PadShape, path: seq<JsonValue>): (r: Result<Outline, Failure<FootprintConverterError>>)
    requires |path| >= 3
  {
    if AsF64(path[1]).None? || AsF64(path[2]).None? then Err(Panicked)
    else Ok(Outline(shape, Point2D(AsF64(path[1]).value * ScaleFactor, AsF64(path[2]).value * ScaleFactor), None))
  }

  /**
   * The pad's shape from its path: `RECT` with two sizes is a rectangle,
   * `ELLIPSE` or `OVAL` with two sizes an oval, `POLY` a custom pad whose
   * primitives are the path's shapes on the front copper, shifted by the
   * pad's centre turned back (`(-x, y)`), filled, with a 0.1 stroke; any
   * other word is an unsupported pad shape. An empty path, a `POLY`
   * without an array, or a drawing that panics, panics.
   */
  function PadOutline(path: seq<JsonValue>, pad: Pad, geo: Geometry): (r: Result<Outline, Failure<FootprintConverterError>>)
  {
    if |path| == 4 && PathWord(path) == Some("RECT") then SizedOutline(RectPad, path)
    else if |path| == 3 && PathWord(path) == Some("ELLIPSE") then SizedOutline(OvalPad, path)
    else if |path| == 3 && PathWord(path) == Some("OVAL") then SizedOutline(OvalPad, path)
    else if path == [] then Err(Panicked)
    else if PathWord(path) == Some("POLY") then
      if |path| < 2 || !path[1].JArray? then Err(Panicked)
      else
        var offset := Point2D(-pad.centerX * ScaleFactor, pad.centerY * ScaleFactor);
        var shapes := PopulateShapes(path[1].items, Style(FCu, 0.1, true, ScaleFactor, Some(offset)), geo);
        if shapes.None? then Err(Panicked) else Ok(Outline(CustomPad, Point2D(0.01, 0.01), shapes))
    else Err(Raised(UnsupportedPadShape))
  }

  /** What a pad's hole makes of it: the pad type, the drill, and the footprint type it sets, if any. */
  datatype Hole = Hole(padType: PadType, drill: Option<Drill>, footprintType: Option<FootprintRecords.FootprintType>)

  /**
   * The pad's hole: a missing field panics; null is a surface-mount pad and
   * makes the footprint SMD; an array `[shape, p1, p2]` is a through-hole
   * pad whose shape must be `SLOT` (an oval drill) or `ROUND` (the
   * assertion panics otherwise), with the diameter and width from the
   * rotated parameters and the offset from the pad, all scaled, and makes
   * the footprint through-hole; anything else leaves the pad and the
   * footprint as they are.
   */
  function PadHole(pad: Pad): (r: Result<Hole, Failure<FootprintConverterError>>)
  {
    if pad.hole.None? then Err(Panicked)
    else if pad.hole.value.JNull? then Ok(Hole(Smd, None, Some(FootprintRecords.Smd)))
    else if pad.hole.value.JArray? then
      var h := pad.hole.value.items;
      if |h| < 3 || AsF64(h[1]).None? || AsF64(h[2]).None? || AsStr(h[0]).None? then Err(Panicked)
      else
        var shape := AsStr(h[0]).value;
        if shape != "SLOT" && shape != "ROUND" then Err(Panicked)
        else
          var rotated := RotatedHole(AsF64(h[1]).value, AsF64(h[2]).value, pad.holeRotation);
          if rotated.Err? then Err(Raised(rotated.error))
          else
            var offset := Point2D(pad.holeOffsetX * ScaleFactor, pad.holeOffsetY * ScaleFactor);
            var drill := Drill(shape == "SLOT", rotated.value.0 * ScaleFactor, rotated.value.1 * ScaleFactor, offset);
            Ok(Hole(ThruHole, Some(drill), Some(FootprintRecords.ThroughHole)))
    else Ok(Hole(Smd, None, None))
  }

  /** The layers of a pad: the masks and every copper layer on `MULTI`, else its own layer, the front mask and the front paste. */
  function PadLayers(layer: Layer, kicad: Option<PcbLayer>): (r: Option<seq<PcbLayer>>)
  {
    if layer.layerType == "MULTI" then Some([FMask, BMask] + AllCopper())
    else if kicad.None? then None
    else Some([kicad.value, FMask, FPaste])
  }

  /** The solder mask margin: the top solder expansion, 2 by default, scaled. */
  function MaskMargin(pad: Pad): real
  {
    pad.topSolderExpansion.UnwrapOr(2.0) * ScaleFactor
  }

  /** The solder paste margin: the top paste expansion, 0 by default, scaled, and never below 0. */
  function PasteMargin(pad: Pad): real
  {
    var v := pad.topPasteExpansion.UnwrapOr(0.0) * ScaleFactor;
    if v < 0.0 then 0.0 else v
  }

  /**
   * The conversion of one EasyEDA pad (the loop body over the pads in
   * `try_into`), with the footprint type it sets. A pad on a missing layer
   * or without a path array panics; the layer error comes first, then the
   * shape, then the hole.
   */
  function ConvertPad(pad: Pad, layers: map<U8, Layer>, geo: Geometry)
    : Result<(KicadPad, Option<FootprintRecords.FootprintType>), Failure<FootprintConverterError>>
  {
    if pad.layerId !in layers then Err(Panicked)
    else if pad.path.None? || !pad.path.value.JArray? then Err(Panicked)
    else
      var layer := layers[pad.layerId];
      var kicad := KicadLayer(layer);
      if kicad.Err? then Err(Raised(kicad.error))
      else
        var padLayers := PadLayers(layer, kicad.value);
        if padLayers.None? then Err(Panicked)
        else
          var outline :- PadOutline(pad.path.value.items, pad, geo);
          var hole :- PadHole(pad);
          var position := Point2D(pad.centerX * ScaleFactor, -pad.centerY * ScaleFactor);
          Ok((KicadPad(pad.num, hole.padType, outline.shape, position, pad.rotation, outline.size, hole.drill,
                       padLayers.value, Some(MaskMargin(pad)), Some(PasteMargin(pad)), outline.primitives),
              hole.footprintType))
  }

  /**
   * The pad's shape follows its path's word and length: a rectangle exactly
   * for `RECT` with four entries, an oval exactly for `ELLIPSE` or `OVAL`
   * with three, otherwise a custom pad exactly for `POLY`, with primitives
   * only then; any other word is an unsupported shape.
   */
  lemma PadOutlineRules(path: seq<JsonValue>, pad: Pad, geo: Geometry)
    ensures var r := PadOutline(path, pad, geo);
            && (r.Ok? && r.value.shape == RectPad <==> r.Ok? && |path| == 4 && PathWord(path) == Some("RECT"))
            && (r.Ok? && r.value.shape == OvalPad <==>
                  r.Ok? && |path| == 3 && (PathWord(path) == Some("ELLIPSE") || PathWord(path) == Some("OVAL")))
            && (r.Ok? && r.value.shape == CustomPad <==>
                  r.Ok? && PathWord(path) == Some("POLY") && !(|path| == 4 && PathWord(path) == Some("RECT")))
            && (r.Ok? ==> (r.value.primitives.Some? <==> r.value.shape == CustomPad))
            && (r == Err(Raised(UnsupportedPadShape)) <==>
                  path != [] && PathWord(path) != Some("POLY")
                  && !(|path| == 4 && PathWord(path) == Some("RECT"))
                  && !(|path| == 3 && (PathWord(path) == Some("ELLIPSE") || PathWord(path) == Some("OVAL"))))
  {
  }

  /**
   * A hole array makes a through-hole pad with a drill, oval exactly for a
   * slot, whose diameter and width are the two scaled parameters in some
   * order; null makes a surface-mount pad and footprint; anything else
   * leaves a surface-mount pad without touching the footprint's type.
   */
  lemma PadHoleRules(pad: Pad)
    requires pad.hole.Some?
    ensures PadHole(pad).Ok? ==>
              var h := PadHole(pad).value;
              && (h.padType == ThruHole <==> pad.hole.value.JArray?)
              && (h.drill.Some? <==> pad.hole.value.JArray?)
              && (h.footprintType == Some(FootprintRecords.Smd) <==> pad.hole.value.JNull?)
              && (h.footprintType == Some(FootprintRecords.ThroughHole) <==> pad.hole.value.JArray?)
              && (h.drill.Some? ==>
                    var items := pad.hole.value.items;
                    && h.drill.value.oval == (AsStr(items[0]) == Some("SLOT"))
                    && multiset{h.drill.value.diameter, h.drill.value.width}
                       == multiset{AsF64(items[1]).value * ScaleFactor, AsF64(items[2]).value * ScaleFactor})
    ensures PadHole(pad).Err? && pad.hole.value.JArray? ==>
              var items := pad.hole.value.items;
              PadHole(pad).error.Panicked? <==>
                |items| < 3 || AsF64(items[1]).None? || AsF64(items[2]).None?
                || !(AsStr(items[0]) == Some("SLOT") || AsStr(items[0]) == Some("ROUND"))
  {
    if pad.hole.value.JArray? {
      var items := pad.hole.value.items;
      if |items| >= 3 && AsF64(items[1]).Some? && AsF64(items[2]).Some? {
        RotatedHoleRules(AsF64(items[1]).value, AsF64(items[2]).value, pad.holeRotation);
      }
    }
  }

  /**
   * A pad's layers: on `MULTI` both masks and all 32 copper layers, else
   * its own layer (what `get_kicad_layer` gives, never none there, so the
   * `unwrap` does not panic) with the front mask and paste.
   */
  lemma PadLayersRules(layer: Layer)
    requires KicadLayer(layer).Ok?
    ensures var r := PadLayers(layer, KicadLayer(layer).value);
            && r.Some?
            && (layer.layerType == "MULTI" ==>
                  |r.value| == 34 && FMask in r.value && BMask in r.value
                  && forall l: PcbLayer | LayerSuffix(l) == "Cu" :: l in r.value)
            && (layer.layerType != "MULTI" ==>
                  |r.value| == 3 && Destination(r.value[0]) && r.value[0] == KicadLayer(layer).value.value
                  && r.value[1..] == [FMask, FPaste])
  {
    KicadLayerRules(layer);
    if layer.layerType == "MULTI" {
      forall l: PcbLayer | LayerSuffix(l) == "Cu"
        ensures l in [FMask, BMask] + AllCopper()
      {
        AllCopperIsCopper(l);
      }
    }
  }

  /**
   * A converted pad keeps the pad's number, sits at the scaled centre with
   * the y axis turned, has the layers, outline and hole of its parts, and
   * both margins, the paste margin never negative.
   */
  lemma ConvertPadRules(pad: Pad, layers: map<U8, Layer>, geo: Geometry)
    ensures ConvertPad(pad, layers, geo).Ok? ==>
              && pad.layerId in layers && pad.path.Some? && pad.path.value.JArray?
              && KicadLayer(layers[pad.layerId]).Ok?
              && var k := ConvertPad(pad, layers, geo).value.0;
                 var outline := PadOutline(pad.path.value.items, pad, geo);
                 var hole := PadHole(pad);
                 && outline.Ok? && hole.Ok?
                 && k.layers == PadLayers(layers[pad.layerId], KicadLayer(layers[pad.layerId]).value).value
                 && k.shape == outline.value.shape && k.size == outline.value.size
                 && k.primitives == outline.value.primitives
                 && k.padType == hole.value.padType && k.drill == hole.value.drill
                 && ConvertPad(pad, layers, geo).value.1 == hole.value.footprintType
                 && k.position == Point2D(pad.centerX * ScaleFactor, -pad.centerY * ScaleFactor)
                 && k.number == pad.num
                 && k.solderMaskMargin == Some(MaskMargin(pad))
                 && k.solderPasteMargin.Some? && k.solderPasteMargin.value >= 0.0
  {
  }
}

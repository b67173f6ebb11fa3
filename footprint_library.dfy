/**
 * The footprint file of `src/kicad/model/footprint_library.rs`
 * (`FootprintLibrary`): a node named after the file kind whose one argument
 * is the footprint's name and whose children are the header fields, the
 * drawing and copper elements, the properties and two trailing settings.
 *
 * The element records (`fp_line`, `fp_poly`, `fp_circle`, `fp_rect`,
 * `fp_arc`, `fp_text`, `pad`, `zone`) are kept as the nodes they were read
 * from: the footprint stores them in one list per kind and writes each list
 * back in a fixed order of kinds.
 */
module Footprints {
  import opened Wrappers
  import opened Numbers
  import opened Syntax
  import opened Folding
  import opened Common
  import opened Scalars
  import opened PcbLayers
  import opened FootprintRecords
  import opened TreeParser
  import Tokenizer

  /** The first and last second chrono's `DateTime<Utc>` represents: 1 January of year -262143 and 31 December of year 262142. */
  const UTC_MIN_SECONDS: int := -8334601228800
  const UTC_MAX_SECONDS: int := 8210266876799

  /** A `DateTime<Utc>` with no sub-second part, as its seconds since the epoch. */
  type UtcSeconds = s: int | UTC_MIN_SECONDS <= s <= UTC_MAX_SECONDS

  datatype FootprintLibrary = FootprintLibrary(
    nodeIdentifier: string,
    footprintId: string,
    version: Option<USize>,
    generator: Option<string>,
    generatorVersion: Option<string>,
    description: Option<string>,
    tags: Option<string>,
    layer: PcbLayer,
    editTimestamp: Option<UtcSeconds>,
    model: Option<FootprintModel>,
    attributes: Option<FootprintAttributes>,
    properties: seq<FootprintProperty>,
    solderMaskMargin: Option<Num>,
    lines: seq<SyntaxItem>,
    polygons: seq<SyntaxItem>,
    circles: seq<SyntaxItem>,
    rectangles: seq<SyntaxItem>,
    arcs: seq<SyntaxItem>,
    texts: seq<SyntaxItem>,
    pads: seq<SyntaxItem>,
    zones: seq<SyntaxItem>,
    zoneConnect: Option<ZoneConnectMode>)

  // ---------------------------------------------------------------------
  // The four optional texts of the header
  // ---------------------------------------------------------------------

  datatype TextField = Description | Tags | Generator | GeneratorVersion

  function TextFieldName(k: TextField): string
  {
    match k
    case Description => "descr"
    case Tags => "tags"
    case Generator => "generator"
    case GeneratorVersion => "generator_version"
  }

  function TextOf(f: FootprintLibrary, k: TextField): Option<string>
  {
    match k
    case Description => f.description
    case Tags => f.tags
    case Generator => f.generator
    case GeneratorVersion => f.generatorVersion
  }

  function WithText(f: FootprintLibrary, k: TextField, t: Option<string>): (r: FootprintLibrary)
    ensures TextOf(r, k) == t
    ensures forall j: TextField | j != k :: TextOf(r, j) == TextOf(f, j)
  {
    match k
    case Description => f.(description := t)
    case Tags => f.(tags := t)
    case Generator => f.(generator := t)
    case GeneratorVersion => f.(generatorVersion := t)
  }

  // ---------------------------------------------------------------------
  // The eight element lists
  // ---------------------------------------------------------------------

  datatype ElementKind = Line | Polygon | Circle | Rectangle | Arc | Text | Pad | Zone

  function ElementName(k: ElementKind): string
  {
    match k
    case Line => "fp_line"
    case Polygon => "fp_poly"
    case Circle => "fp_circle"
    case Rectangle => "fp_rect"
    case Arc => "fp_arc"
    case Text => "fp_text"
    case Pad => "pad"
    case Zone => "zone"
  }

  /** The kind whose element nodes carry that name; None for any other name. */
  function ElementOfName(name: string): (r: Option<ElementKind>)
    ensures r.Some? ==> ElementName(r.value) == name
    ensures r.None? <==> name !in {"fp_line", "fp_poly", "fp_circle", "fp_rect", "fp_arc", "fp_text", "pad", "zone"}
  {
    match name
    case "fp_line" => Some(Line)
    case "fp_poly" => Some(Polygon)
    case "fp_circle" => Some(Circle)
    case "fp_rect" => Some(Rectangle)
    case "fp_arc" => Some(Arc)
    case "fp_text" => Some(Text)
    case "pad" => Some(Pad)
    case "zone" => Some(Zone)
    case _ => None
  }

  function ElementsOf(f: FootprintLibrary, k: ElementKind): seq<SyntaxItem>
  {
    match k
    case Line => f.lines
    case Polygon => f.polygons
    case Circle => f.circles
    case Rectangle => f.rectangles
    case Arc => f.arcs
    case Text => f.texts
    case Pad => f.pads
    case Zone => f.zones
  }

  function WithElements(f: FootprintLibrary, k: ElementKind, items: seq<SyntaxItem>): (r: FootprintLibrary)
    ensures ElementsOf(r, k) == items
    ensures forall j: ElementKind | j != k :: ElementsOf(r, j) == ElementsOf(f, j)
  {
    match k
    case Line => f.(lines := items)
    case Polygon => f.(polygons := items)
    case Circle => f.(circles := items)
    case Rectangle => f.(rectangles := items)
    case Arc => f.(arcs := items)
    case Text => f.(texts := items)
    case Pad => f.(pads := items)
    case Zone => f.(zones := items)
  }

  /** `library.<kind>.push(..)`: one element node appended to the list of its kind. */
  function AddElement(f: FootprintLibrary, k: ElementKind, c: SyntaxItem): (r: FootprintLibrary)
    ensures ElementsOf(r, k) == ElementsOf(f, k) + [c]
    ensures forall j: ElementKind | j != k :: ElementsOf(r, j) == ElementsOf(f, j)
  {
    WithElements(f, k, ElementsOf(f, k) + [c])
  }

  // ---------------------------------------------------------------------
  // Writing (`FootprintLibrary::serialize`)
  // ---------------------------------------------------------------------

  /** `descr` and `tags` are written as quoted strings, `generator` and `generator_version` as words. */
  function TextNode(k: TextField, t: Option<string>): Option<SyntaxItem>
  {
    if t.None? then None
    else if k == Description || k == Tags then Some(FromSingleArgument(TextFieldName(k), QuotedString(t.value, Neutral)))
    else Some(FromSingleArgument(TextFieldName(k), Identifier(t.value, Neutral)))
  }

  function AttributesNode(a: Option<FootprintAttributes>): Option<SyntaxItem>
  {
    if a.Some? then Some(WriteAttributes(a.value)) else None
  }

  function ModelNode(m: Option<FootprintModel>): Option<SyntaxItem>
  {
    if m.Some? then Some(WriteModel(m.value)) else None
  }

  function ZoneConnectNode(m: Option<ZoneConnectMode>): Option<SyntaxItem>
  {
    if m.Some? then Some(WriteZoneConnect(m.value)) else None
  }

  /** `(tedit <hex>)`: the timestamp's seconds as uppercase hexadecimal, written as a word. */
  function TeditNode(ts: Option<UtcSeconds>): Option<SyntaxItem>
  {
    if ts.Some? then Some(FromSingleArgument("tedit", Identifier(TimestampText(ts.value), Neutral))) else None
  }

  /** `(version v)` as the writer emits it: the decimal text of the version, as a word. */
  function VersionWord(v: Option<USize>): Option<SyntaxItem>
  {
    if v.Some? then Some(FromSingleArgument("version", Identifier(NatText(v.value), Neutral))) else None
  }

  /** `(version v)` as the tokenizer hands it back once printed: the word has become a number. */
  function VersionNumber(v: Option<USize>): Option<SyntaxItem>
  {
    if v.Some? then Some(FromSingleArgument("version", Number(Finite(v.value as real), Neutral))) else None
  }

  /** The header children, in the writer's order, with the given `attr` and `version` nodes. */
  function LibraryHeader(f: FootprintLibrary, attributes: Option<SyntaxItem>, version: Option<SyntaxItem>): seq<SyntaxItem>
  {
    [WriteLayerNode(f.layer)] + Optional(TextNode(Tags, f.tags)) + Optional(TextNode(Description, f.description))
    + Optional(attributes) + Optional(TeditNode(f.editTimestamp)) + Optional(ModelNode(f.model))
    + Optional(version) + Optional(TextNode(Generator, f.generator))
    + Optional(TextNode(GeneratorVersion, f.generatorVersion))
  }

  /** The element lists, in the writer's order of kinds. */
  function LibraryElements(f: FootprintLibrary): seq<SyntaxItem>
  {
    f.texts + f.lines + f.arcs + f.polygons + f.circles + f.rectangles + f.pads + f.zones
  }

  /** The given property nodes, then `solder_mask_margin` and `zone_connect` when set. */
  function LibraryTrailer(f: FootprintLibrary, properties: seq<SyntaxItem>): seq<SyntaxItem>
  {
    properties + Optional(NumberChild("solder_mask_margin", f.solderMaskMargin))
    + Optional(ZoneConnectNode(f.zoneConnect))
  }

  /** `FootprintLibrary::serialize`. */
  function WriteFootprintLibrary(f: FootprintLibrary): SyntaxItem
  {
    SyntaxItem(f.nodeIdentifier, [QuotedString(f.footprintId, Neutral)],
               LibraryHeader(f, AttributesNode(f.attributes), VersionWord(f.version)) + LibraryElements(f)
               + LibraryTrailer(f, Map(f.properties, WriteFootprintProperty)))
  }

  /** The written tree with the version word turned into the number the tokenizer reads it as. */
  function NumberedTree(f: FootprintLibrary): SyntaxItem
  {
    SyntaxItem(f.nodeIdentifier, [QuotedString(f.footprintId, Neutral)],
               LibraryHeader(f, AttributesNode(f.attributes), VersionNumber(f.version)) + LibraryElements(f)
               + LibraryTrailer(f, Map(f.properties, WriteFootprintProperty)))
  }

  /**
   * The written footprint printed and parsed again: the version word has
   * become a number and every node is in its normal form
   * (`TreeParser.ParseGenerated`), so the property key and the `attr` type
   * word lose their placement at the front. The generator, the generator
   * version, the model's file name and the edit timestamp's hexadecimal
   * text are written as words; they are taken to read back as those words
   * (`TeditWordRereadAsNumber` shows a timestamp whose text does not).
   */
  function Retokenized(f: FootprintLibrary): SyntaxItem
  {
    Normalize(NumberedTree(f))
  }

  /** The `attr` node as it comes back from printing and parsing. */
  function ReparsedAttributes(a: Option<FootprintAttributes>): Option<SyntaxItem>
  {
    if a.Some? then Some(Normalize(WriteAttributes(a.value))) else None
  }

  /** The footprint with each element node in its normal form. */
  function NormalizedElements(f: FootprintLibrary): FootprintLibrary
  {
    f.(texts := Map(f.texts, Normalize), lines := Map(f.lines, Normalize), arcs := Map(f.arcs, Normalize),
       polygons := Map(f.polygons, Normalize), circles := Map(f.circles, Normalize),
       rectangles := Map(f.rectangles, Normalize), pads := Map(f.pads, Normalize), zones := Map(f.zones, Normalize))
  }

  lemma LayerNodeNormal(l: PcbLayer)
    ensures Map([WriteLayerNode(l)], Normalize) == [WriteLayerNode(l)]
  {
    assert Settled(WriteLayerNode(l));
    NormalizeSettledAll([WriteLayerNode(l)]);
  }

  lemma TextNodeNormal(k: TextField, t: Option<string>)
    ensures Map(Optional(TextNode(k, t)), Normalize) == Optional(TextNode(k, t))
  {
    if t.Some? {
      assert Settled(TextNode(k, t).value);
    }
    OptionalNormal(TextNode(k, t));
  }

  lemma TeditNodeNormal(ts: Option<UtcSeconds>)
    ensures Map(Optional(TeditNode(ts)), Normalize) == Optional(TeditNode(ts))
  {
    if ts.Some? {
      assert Settled(TeditNode(ts).value);
    }
    OptionalNormal(TeditNode(ts));
  }

  lemma ModelNodeNormal(m: Option<FootprintModel>)
    ensures Map(Optional(ModelNode(m)), Normalize) == Optional(ModelNode(m))
  {
    if m.Some? {
      ModelSettled(m.value);
    }
    OptionalNormal(ModelNode(m));
  }

  lemma VersionNumberNormal(v: Option<USize>)
    ensures Map(Optional(VersionNumber(v)), Normalize) == Optional(VersionNumber(v))
  {
    if v.Some? {
      assert Settled(VersionNumber(v).value);
    }
    OptionalNormal(VersionNumber(v));
  }

  lemma AttributesNodeNormal(a: Option<FootprintAttributes>)
    ensures Map(Optional(AttributesNode(a)), Normalize) == Optional(ReparsedAttributes(a))
  {
    MapOptional(AttributesNode(a), Normalize);
  }

  /** Printing and parsing the header changes only the `attr` node. */
  lemma HeaderNormalForm(f: FootprintLibrary)
    ensures Map(LibraryHeader(f, AttributesNode(f.attributes), VersionNumber(f.version)), Normalize)
         == LibraryHeader(f, ReparsedAttributes(f.attributes), VersionNumber(f.version))
  {
    MapJoin9([WriteLayerNode(f.layer)], Optional(TextNode(Tags, f.tags)), Optional(TextNode(Description, f.description)),
             Optional(AttributesNode(f.attributes)), Optional(TeditNode(f.editTimestamp)), Optional(ModelNode(f.model)),
             Optional(VersionNumber(f.version)), Optional(TextNode(Generator, f.generator)),
             Optional(TextNode(GeneratorVersion, f.generatorVersion)), Normalize);
    LayerNodeNormal(f.layer);
    TextNodeNormal(Tags, f.tags);
    TextNodeNormal(Description, f.description);
    AttributesNodeNormal(f.attributes);
    TeditNodeNormal(f.editTimestamp);
    ModelNodeNormal(f.model);
    VersionNumberNormal(f.version);
    TextNodeNormal(Generator, f.generator);
    TextNodeNormal(GeneratorVersion, f.generatorVersion);
  }

  lemma MarginNormal(n: Option<Num>)
    ensures Map(Optional(NumberChild("solder_mask_margin", n)), Normalize) == Optional(NumberChild("solder_mask_margin", n))
  {
    if n.Some? {
      assert Settled(NumberChild("solder_mask_margin", n).value);
    }
    OptionalNormal(NumberChild("solder_mask_margin", n));
  }

  lemma ZoneConnectNodeNormal(m: Option<ZoneConnectMode>)
    ensures Map(Optional(ZoneConnectNode(m)), Normalize) == Optional(ZoneConnectNode(m))
  {
    if m.Some? {
      assert Settled(ZoneConnectNode(m).value);
    }
    OptionalNormal(ZoneConnectNode(m));
  }

  /** Printing and parsing the element nodes normalises each one in place. */
  lemma ElementsNormalForm(f: FootprintLibrary)
    ensures Map(LibraryElements(f), Normalize) == LibraryElements(NormalizedElements(f))
  {
    MapJoin8(f.texts, f.lines, f.arcs, f.polygons, f.circles, f.rectangles, f.pads, f.zones, Normalize);
  }

  /** Printing and parsing the trailer normalises each property node; the two settings stay as written. */
  lemma TrailerNormalForm(f: FootprintLibrary)
    ensures Map(LibraryTrailer(f, Map(f.properties, WriteFootprintProperty)), Normalize)
         == LibraryTrailer(f, Map(Map(f.properties, WriteFootprintProperty), Normalize))
  {
    var ps := Map(f.properties, WriteFootprintProperty);
    var margin := Optional(NumberChild("solder_mask_margin", f.solderMaskMargin));
    MapConcat(ps, margin, Normalize);
    MapConcat(ps + margin, Optional(ZoneConnectNode(f.zoneConnect)), Normalize);
    MarginNormal(f.solderMaskMargin);
    ZoneConnectNodeNormal(f.zoneConnect);
  }

  /** The printed and parsed footprint, part by part. */
  lemma RetokenizedLayout(f: FootprintLibrary)
    ensures Retokenized(f)
         == SyntaxItem(f.nodeIdentifier, [QuotedString(f.footprintId, Neutral)],
                       LibraryHeader(f, ReparsedAttributes(f.attributes), VersionNumber(f.version))
                       + LibraryElements(NormalizedElements(f))
                       + LibraryTrailer(f, Map(Map(f.properties, WriteFootprintProperty), Normalize)))
  {
    var h := LibraryHeader(f, AttributesNode(f.attributes), VersionNumber(f.version));
    var t := LibraryTrailer(f, Map(f.properties, WriteFootprintProperty));
    var e := LibraryElements(f);
    assert NumberedTree(f).children == h + e + t;
    NormalizeNeutralNode(NumberedTree(f));
    MapConcat(h, e, Normalize);
    MapConcat(h + e, t, Normalize);
    HeaderNormalForm(f);
    ElementsNormalForm(f);
    TrailerNormalForm(f);
  }

  // ---------------------------------------------------------------------
  // Reading (`FootprintLibrary::deserialize`)
  // ---------------------------------------------------------------------

  /** The footprint the reader starts from: layer `F.Cu`, nothing else set. */
  function InitialLibrary(name: string, id: string): FootprintLibrary
  {
    FootprintLibrary(name, id, None, None, None, None, None, FCu, None, None, None, [], None,
                     [], [], [], [], [], [], [], [], None)
  }

  /** A text child: its first argument, which must exist. */
  function ReadTextChild(f: FootprintLibrary, k: TextField, c: SyntaxItem): Option<FootprintLibrary>
  {
    var t :- StringAt(c, 0);
    Some(WithText(f, k, Some(t)))
  }

  /**
   * The `tedit` child: the text of its first argument read by
   * `i64::from_str_radix(_, 16)`, then made a date by
   * `Utc.timestamp_opt(secs, 0).unwrap()`, which panics for seconds chrono
   * cannot represent. None is either panic.
   */
  function ReadTedit(c: SyntaxItem): (r: Option<UtcSeconds>)
    ensures r.Some? ==> StringAt(c, 0).Some? && ParseHexI64(StringAt(c, 0).value) == Some(r.value as I64)
    ensures StringAt(c, 0).Some? && ParseHexI64(StringAt(c, 0).value).Some?
            ==> (r.Some? <==> UTC_MIN_SECONDS <= ParseHexI64(StringAt(c, 0).value).value <= UTC_MAX_SECONDS)
  {
    var w :- StringAt(c, 0);
    var secs :- ParseHexI64(w);
    if UTC_MIN_SECONDS <= secs <= UTC_MAX_SECONDS then Some(secs) else None
  }

  /**
   * One child of the footprint. None is a panic of the source: an unknown
   * name, a missing first argument, a version that is not a number, a
   * `tedit` that is not hexadecimal or names a second chrono cannot
   * represent, or a child record that does not read.
   * The `zone_connect` branch looks for a nested `zone_connection` child,
   * which the writer never produces.
   */
  function LibraryChild(f: FootprintLibrary, c: SyntaxItem): Option<FootprintLibrary>
  {
    match c.name
    case "layer" => var l :- ReadLayerNode(c); Some(f.(layer := l))
    case "descr" => ReadTextChild(f, Description, c)
    case "tags" => ReadTextChild(f, Tags, c)
    case "version" => var n :- NumberAt(c, 0); Some(f.(version := Some(CastUnsigned(n, USIZE_MAX))))
    case "generator" => ReadTextChild(f, Generator, c)
    case "generator_version" => ReadTextChild(f, GeneratorVersion, c)
    case "tedit" => var ts :- ReadTedit(c); Some(f.(editTimestamp := Some(ts)))
    case "fp_line" => Some(AddElement(f, Line, c))
    case "fp_arc" => Some(AddElement(f, Arc, c))
    case "fp_text" => Some(AddElement(f, Text, c))
    case "fp_poly" => Some(AddElement(f, Polygon, c))
    case "fp_circle" => Some(AddElement(f, Circle, c))
    case "fp_rect" => Some(AddElement(f, Rectangle, c))
    case "zone" => Some(AddElement(f, Zone, c))
    case "zone_connect" => var m :- ReadZoneConnectAsWritten(c); Some(f.(zoneConnect := Some(m)))
    case "pad" => Some(AddElement(f, Pad, c))
    case "model" => var m :- ReadModel(c); Some(f.(model := Some(m)))
    case "attr" => var a :- ReadAttributes(c); Some(f.(attributes := Some(a)))
    case "property" => var p :- ReadFootprintProperty(c); Some(f.(properties := f.properties + [p]))
    case "solder_mask_margin" => var n :- NumberAt(c, 0); Some(f.(solderMaskMargin := Some(n)))
    case _ => None
  }

  function LibraryStep(): (FootprintLibrary, SyntaxItem) -> Option<FootprintLibrary>
  {
    (f: FootprintLibrary, c: SyntaxItem) => LibraryChild(f, c)
  }

  /** `FootprintLibrary::deserialize` as a function: the name from the first argument, then every child in order. */
  function ReadFootprintLibrary(s: SyntaxItem): Option<FootprintLibrary>
  {
    var id :- StringAt(s, 0);
    Fold(InitialLibrary(s.name, id), s.children, LibraryStep())
  }

  /** One pass of the reader's loop: the child records are read by their own loops, the rest by `LibraryChild`. */
  method DeserializeLibraryChild(f: FootprintLibrary, child: SyntaxItem) returns (r: Option<FootprintLibrary>)
    ensures r == LibraryChild(f, child)
  {
    if child.name == "model" {
      var m := DeserializeModel(child);
      if m.None? { return None; }
      r := Some(f.(model := Some(m.value)));
    } else if child.name == "attr" {
      var a := DeserializeAttributes(child);
      if a.None? { return None; }
      r := Some(f.(attributes := Some(a.value)));
    } else if child.name == "property" {
      var p := DeserializeFootprintProperty(child);
      if p.None? { return None; }
      r := Some(f.(properties := f.properties + [p.value]));
    } else {
      r := LibraryChild(f, child);
    }
  }

  /** `FootprintLibrary::deserialize`: the loop over the children. */
  method DeserializeFootprintLibrary(syntax: SyntaxItem) returns (r: Option<FootprintLibrary>)
    ensures r == ReadFootprintLibrary(syntax)
  {
    if |syntax.arguments| == 0 {
      return None;
    }
    var library := InitialLibrary(syntax.name, GetString(syntax.arguments[0]));
    var i := 0;
    assert syntax.children[0..] == syntax.children;
    while i < |syntax.children|
      invariant i <= |syntax.children|
      invariant ReadFootprintLibrary(syntax) == Fold(library, syntax.children[i..], LibraryStep())
    {
      FoldAdvance(library, syntax.children, i, LibraryStep());
      var next := DeserializeLibraryChild(library, syntax.children[i]);
      if next.None? {
        return None;
      }
      library := next.value;
      i := i + 1;
    }
    return Some(library);
  }

  // ---------------------------------------------------------------------
  // Reading the written footprint back
  // ---------------------------------------------------------------------

  /** Every node of `items` is named after element kind `k`. */
  predicate NamedAs(items: seq<SyntaxItem>, k: ElementKind)
  {
    forall i | 0 <= i < |items| :: items[i].name == ElementName(k)
  }

  /** `items` are `property` nodes that read, one by one, as `ps`. */
  predicate PropertyNodes(items: seq<SyntaxItem>, ps: seq<FootprintProperty>)
  {
    |items| == |ps| && forall i | 0 <= i < |items| :: items[i].name == "property" && ReadFootprintProperty(items[i]) == Some(ps[i])
  }

  /**
   * What the round trip needs of a footprint: every element node carries its
   * kind's name, every property's position is named `at`, the model's
   * vectors are named `xyz`, the edit timestamp is not negative, and no
   * `zone_connect` mode is set (the reader panics on the node the writer
   * makes for it, see `ZoneConnectFootprintUnreadable`).
   */
  predicate Rereadable(f: FootprintLibrary)
  {
    && NamedAs(f.lines, Line) && NamedAs(f.polygons, Polygon) && NamedAs(f.circles, Circle)
    && NamedAs(f.rectangles, Rectangle) && NamedAs(f.arcs, Arc) && NamedAs(f.texts, Text) && NamedAs(f.pads, Pad)
    && NamedAs(f.zones, Zone)
    && (forall i | 0 <= i < |f.properties| :: f.properties[i].position.name == "at")
    && (f.model.Some? ==> XyzVectors(f.model.value))
    && (f.editTimestamp.Some? ==> f.editTimestamp.value >= 0)
    && f.zoneConnect.None?
  }

  /**
   * The footprint as it comes back: each element node in its normal form,
   * each property as `PropertyBack` describes it, everything else unchanged.
   */
  function LibraryBack(f: FootprintLibrary): FootprintLibrary
  {
    NormalizedElements(f).(properties := Map(f.properties, PropertyBack))
  }

  /** The header fields of `f` on the footprint the reader starts from. */
  function HeaderOf(f: FootprintLibrary): FootprintLibrary
  {
    InitialLibrary(f.nodeIdentifier, f.footprintId).(layer := f.layer, tags := f.tags, description := f.description,
      attributes := f.attributes, editTimestamp := f.editTimestamp, model := f.model, version := f.version,
      generator := f.generator, generatorVersion := f.generatorVersion)
  }

  lemma HeaderLayerRead(a: FootprintLibrary, l: PcbLayer)
    ensures Fold(a, [WriteLayerNode(l)], LibraryStep()) == Some(a.(layer := l))
  {
    LayerNodeRoundTrip(l);
    FoldOne(a, WriteLayerNode(l), LibraryStep());
  }

  lemma DispatchText(a: FootprintLibrary, k: TextField, c: SyntaxItem)
    requires c.name == TextFieldName(k)
    ensures LibraryChild(a, c) == ReadTextChild(a, k, c)
  {
  }

  /** An optional text node, read onto a footprint where that text is unset, sets it as written. */
  lemma HeaderTextRead(a: FootprintLibrary, k: TextField, t: Option<string>)
    requires TextOf(a, k).None?
    ensures Fold(a, Optional(TextNode(k, t)), LibraryStep()) == Some(WithText(a, k, t))
  {
    FoldOptional(a, TextNode(k, t), LibraryStep());
    if t.Some? {
      DispatchText(a, k, TextNode(k, t).value);
    } else {
      assert WithText(a, k, t) == a;
    }
  }

  lemma HeaderAttributesRead(a: FootprintLibrary, x: Option<FootprintAttributes>)
    requires a.attributes.None?
    ensures Fold(a, Optional(ReparsedAttributes(x)), LibraryStep()) == Some(a.(attributes := x))
  {
    FoldOptional(a, ReparsedAttributes(x), LibraryStep());
    if x.Some? {
      AttributesReparsed(x.value);
    }
  }

  lemma HeaderTeditRead(a: FootprintLibrary, ts: Option<UtcSeconds>)
    requires a.editTimestamp.None?
    requires ts.Some? ==> ts.value >= 0
    ensures Fold(a, Optional(TeditNode(ts)), LibraryStep()) == Some(a.(editTimestamp := ts))
  {
    FoldOptional(a, TeditNode(ts), LibraryStep());
    if ts.Some? {
      TimestampRoundTrip(ts.value);
    }
  }

  lemma HeaderModelRead(a: FootprintLibrary, m: Option<FootprintModel>)
    requires a.model.None?
    requires m.Some? ==> XyzVectors(m.value)
    ensures Fold(a, Optional(ModelNode(m)), LibraryStep()) == Some(a.(model := m))
  {
    FoldOptional(a, ModelNode(m), LibraryStep());
    if m.Some? {
      ModelRoundTrip(m.value);
    }
  }

  lemma HeaderVersionRead(a: FootprintLibrary, v: Option<USize>)
    requires a.version.None?
    ensures Fold(a, Optional(VersionNumber(v)), LibraryStep()) == Some(a.(version := v))
  {
    FoldOptional(a, VersionNumber(v), LibraryStep());
    if v.Some? {
      CastWhole(v.value, USIZE_MAX);
    }
  }

  /** The printed and parsed header children read onto the starting footprint as the header fields. */
  lemma HeaderRead(f: FootprintLibrary)
    requires f.model.Some? ==> XyzVectors(f.model.value)
    requires f.editTimestamp.Some? ==> f.editTimestamp.value >= 0
    ensures Fold(InitialLibrary(f.nodeIdentifier, f.footprintId),
                 LibraryHeader(f, ReparsedAttributes(f.attributes), VersionNumber(f.version)), LibraryStep())
         == Some(HeaderOf(f))
  {
    var a0 := InitialLibrary(f.nodeIdentifier, f.footprintId);
    var a1 := a0.(layer := f.layer);
    var a2 := WithText(a1, Tags, f.tags);
    var a3 := WithText(a2, Description, f.description);
    var a4 := a3.(attributes := f.attributes);
    var a5 := a4.(editTimestamp := f.editTimestamp);
    var a6 := a5.(model := f.model);
    var a7 := a6.(version := f.version);
    var a8 := WithText(a7, Generator, f.generator);
    var a9 := WithText(a8, GeneratorVersion, f.generatorVersion);
    HeaderLayerRead(a0, f.layer);
    HeaderTextRead(a1, Tags, f.tags);
    HeaderTextRead(a2, Description, f.description);
    HeaderAttributesRead(a3, f.attributes);
    HeaderTeditRead(a4, f.editTimestamp);
    HeaderModelRead(a5, f.model);
    HeaderVersionRead(a6, f.version);
    HeaderTextRead(a7, Generator, f.generator);
    HeaderTextRead(a8, GeneratorVersion, f.generatorVersion);
    FoldJoin8(a0, [WriteLayerNode(f.layer)], Optional(TextNode(Tags, f.tags)), Optional(TextNode(Description, f.description)),
              Optional(ReparsedAttributes(f.attributes)), Optional(TeditNode(f.editTimestamp)), Optional(ModelNode(f.model)),
              Optional(VersionNumber(f.version)), Optional(TextNode(Generator, f.generator)), LibraryStep(),
              a1, a2, a3, a4, a5, a6, a7, a8);
    FoldJoin(a0, [WriteLayerNode(f.layer)] + Optional(TextNode(Tags, f.tags)) + Optional(TextNode(Description, f.description))
                 + Optional(ReparsedAttributes(f.attributes)) + Optional(TeditNode(f.editTimestamp)) + Optional(ModelNode(f.model))
                 + Optional(VersionNumber(f.version)) + Optional(TextNode(Generator, f.generator)),
             Optional(TextNode(GeneratorVersion, f.generatorVersion)), LibraryStep(), a8, a9);
  }

  lemma DispatchElement(a: FootprintLibrary, k: ElementKind, c: SyntaxItem)
    requires c.name == ElementName(k)
    ensures LibraryChild(a, c) == Some(WithElements(a, k, ElementsOf(a, k) + [c]))
  {
  }

  /** Every node of a run named after kind `k` appends itself to that kind's list, whatever it is read onto. */
  lemma ElementSteps(k: ElementKind, items: seq<SyntaxItem>)
    requires NamedAs(items, k)
    ensures forall b: FootprintLibrary, i | 0 <= i < |items| :: LibraryChild(b, items[i]) == Some(WithElements(b, k, ElementsOf(b, k) + [items[i]]))
  {
    forall b: FootprintLibrary, i | 0 <= i < |items|
      ensures LibraryChild(b, items[i]) == Some(WithElements(b, k, ElementsOf(b, k) + [items[i]]))
    {
      DispatchElement(b, k, items[i]);
    }
  }

  /** The list view of one element kind behaves as a field: what is put is what is got, the last put wins. */
  lemma ElementLaws(k: ElementKind)
    ensures forall a: FootprintLibrary {:trigger WithElements(a, k, ElementsOf(a, k))} :: WithElements(a, k, ElementsOf(a, k)) == a
    ensures forall a: FootprintLibrary, xs: seq<SyntaxItem> {:trigger ElementsOf(WithElements(a, k, xs), k)}
              :: ElementsOf(WithElements(a, k, xs), k) == xs
    ensures forall a: FootprintLibrary, xs: seq<SyntaxItem>, ys: seq<SyntaxItem>
              {:trigger WithElements(WithElements(a, k, xs), k, ys)}
              :: WithElements(WithElements(a, k, xs), k, ys) == WithElements(a, k, ys)
  {
  }

  /** A run of element nodes of kind `k`, read onto a footprint with no such element yet, becomes that kind's list. */
  lemma ElementRunRead(a: FootprintLibrary, k: ElementKind, items: seq<SyntaxItem>)
    requires ElementsOf(a, k) == [] && NamedAs(items, k)
    ensures Fold(a, items, LibraryStep()) == Some(WithElements(a, k, items))
  {
    ElementSteps(k, items);
    ElementLaws(k);
    FoldCollect(a, items, items, (b: FootprintLibrary) => ElementsOf(b, k),
                (b: FootprintLibrary, xs: seq<SyntaxItem>) => WithElements(b, k, xs), LibraryStep());
    assert ElementsOf(a, k) + items == items;
  }

  /** The element lists of `f`, put onto `a`. */
  function ElementsPut(a: FootprintLibrary, f: FootprintLibrary): FootprintLibrary
  {
    a.(texts := f.texts, lines := f.lines, arcs := f.arcs, polygons := f.polygons, circles := f.circles,
       rectangles := f.rectangles, pads := f.pads, zones := f.zones)
  }

  /** The element nodes, in the writer's order of kinds, read onto a footprint with no elements as the element lists. */
  lemma ElementsRead(a: FootprintLibrary, f: FootprintLibrary)
    requires a.texts == [] && a.lines == [] && a.arcs == [] && a.polygons == [] && a.circles == []
    requires a.rectangles == [] && a.pads == [] && a.zones == []
    requires NamedAs(f.lines, Line) && NamedAs(f.polygons, Polygon) && NamedAs(f.circles, Circle)
    requires NamedAs(f.rectangles, Rectangle) && NamedAs(f.arcs, Arc) && NamedAs(f.texts, Text)
    requires NamedAs(f.pads, Pad) && NamedAs(f.zones, Zone)
    ensures Fold(a, LibraryElements(f), LibraryStep()) == Some(ElementsPut(a, f))
  {
    var a1 := WithElements(a, Text, f.texts);
    var a2 := WithElements(a1, Line, f.lines);
    var a3 := WithElements(a2, Arc, f.arcs);
    var a4 := WithElements(a3, Polygon, f.polygons);
    var a5 := WithElements(a4, Circle, f.circles);
    var a6 := WithElements(a5, Rectangle, f.rectangles);
    var a7 := WithElements(a6, Pad, f.pads);
    var a8 := WithElements(a7, Zone, f.zones);
    ElementRunRead(a, Text, f.texts);
    ElementRunRead(a1, Line, f.lines);
    ElementRunRead(a2, Arc, f.arcs);
    ElementRunRead(a3, Polygon, f.polygons);
    ElementRunRead(a4, Circle, f.circles);
    ElementRunRead(a5, Rectangle, f.rectangles);
    ElementRunRead(a6, Pad, f.pads);
    ElementRunRead(a7, Zone, f.zones);
    FoldJoin8(a, f.texts, f.lines, f.arcs, f.polygons, f.circles, f.rectangles, f.pads, f.zones, LibraryStep(),
              a1, a2, a3, a4, a5, a6, a7, a8);
  }

  lemma DispatchProperty(a: FootprintLibrary, c: SyntaxItem)
    requires c.name == "property"
    ensures LibraryChild(a, c) == (match ReadFootprintProperty(c) case None => None
                                   case Some(p) => Some(a.(properties := a.properties + [p])))
  {
  }

  /** A run of `property` nodes is read in order onto the properties read so far. */
  lemma PropertiesRead(a: FootprintLibrary, items: seq<SyntaxItem>, ps: seq<FootprintProperty>)
    requires PropertyNodes(items, ps)
    ensures Fold(a, items, LibraryStep()) == Some(a.(properties := a.properties + ps))
  {
    forall b: FootprintLibrary, i | 0 <= i < |items|
      ensures LibraryChild(b, items[i]) == Some(b.(properties := b.properties + [ps[i]]))
    {
      DispatchProperty(b, items[i]);
    }
    FoldCollect(a, items, ps, (b: FootprintLibrary) => b.properties,
                (b: FootprintLibrary, xs: seq<FootprintProperty>) => b.(properties := xs), LibraryStep());
  }

  /** Printed and parsed properties are `property` nodes that read back one by one as `PropertyBack` says. */
  lemma PropertiesReparsed(ps: seq<FootprintProperty>)
    requires forall i | 0 <= i < |ps| :: ps[i].position.name == "at"
    ensures PropertyNodes(Map(Map(ps, WriteFootprintProperty), Normalize), Map(ps, PropertyBack))
  {
    forall i | 0 <= i < |ps|
      ensures Normalize(WriteFootprintProperty(ps[i])).name == "property"
      ensures ReadFootprintProperty(Normalize(WriteFootprintProperty(ps[i]))) == Some(PropertyBack(ps[i]))
    {
      PropertyReparsed(ps[i]);
    }
  }

  lemma TrailerMarginRead(a: FootprintLibrary, n: Option<Num>)
    requires a.solderMaskMargin.None?
    ensures Fold(a, Optional(NumberChild("solder_mask_margin", n)), LibraryStep()) == Some(a.(solderMaskMargin := n))
  {
    FoldOptional(a, NumberChild("solder_mask_margin", n), LibraryStep());
  }

  /** The printed and parsed properties and the two trailing settings, read onto a footprint where none is set yet. */
  lemma TrailerRead(a: FootprintLibrary, f: FootprintLibrary)
    requires a.properties == [] && a.solderMaskMargin.None? && a.zoneConnect.None? && f.zoneConnect.None?
    requires forall i | 0 <= i < |f.properties| :: f.properties[i].position.name == "at"
    ensures Fold(a, LibraryTrailer(f, Map(Map(f.properties, WriteFootprintProperty), Normalize)), LibraryStep())
         == Some(a.(properties := Map(f.properties, PropertyBack), solderMaskMargin := f.solderMaskMargin,
                    zoneConnect := f.zoneConnect))
  {
    var ps := Map(Map(f.properties, WriteFootprintProperty), Normalize);
    var a1 := a.(properties := Map(f.properties, PropertyBack));
    var a2 := a1.(solderMaskMargin := f.solderMaskMargin);
    var a3 := a2.(zoneConnect := f.zoneConnect);
    PropertiesReparsed(f.properties);
    PropertiesRead(a, ps, Map(f.properties, PropertyBack));
    assert a.properties + Map(f.properties, PropertyBack) == Map(f.properties, PropertyBack);
    TrailerMarginRead(a1, f.solderMaskMargin);
    assert Optional(ZoneConnectNode(f.zoneConnect)) == [] && a3 == a2;
    FoldJoin(a, ps, Optional(NumberChild("solder_mask_margin", f.solderMaskMargin)), LibraryStep(), a1, a2);
    FoldJoin(a, ps + Optional(NumberChild("solder_mask_margin", f.solderMaskMargin)),
             Optional(ZoneConnectNode(f.zoneConnect)), LibraryStep(), a2, a3);
  }

  /** Normalising element nodes keeps their names. */
  lemma NamedNormal(items: seq<SyntaxItem>, k: ElementKind)
    requires NamedAs(items, k)
    ensures NamedAs(Map(items, Normalize), k)
  {
    forall i | 0 <= i < |items|
      ensures Normalize(items[i]).name == ElementName(k)
    {
      NormalizeNode(items[i]);
    }
  }

  /** The element lists of a footprint that reads back keep their names once normalised. */
  lemma NormalizedNamed(f: FootprintLibrary)
    requires Rereadable(f)
    ensures Rereadable(NormalizedElements(f).(properties := f.properties))
  {
    NamedNormal(f.lines, Line);
    NamedNormal(f.polygons, Polygon);
    NamedNormal(f.circles, Circle);
    NamedNormal(f.rectangles, Rectangle);
    NamedNormal(f.arcs, Arc);
    NamedNormal(f.texts, Text);
    NamedNormal(f.pads, Pad);
    NamedNormal(f.zones, Zone);
  }

  /** The header, element and trailer parts put together are the footprint read back. */
  lemma PartsAssemble(f: FootprintLibrary)
    ensures ElementsPut(HeaderOf(f), NormalizedElements(f)).(properties := Map(f.properties, PropertyBack),
                                                             solderMaskMargin := f.solderMaskMargin,
                                                             zoneConnect := f.zoneConnect)
         == LibraryBack(f)
  {
  }

  /** The printed and parsed children of `f` read onto the starting footprint as `f` read back. */
  lemma PartsRead(f: FootprintLibrary)
    requires Rereadable(f)
    ensures Fold(InitialLibrary(f.nodeIdentifier, f.footprintId),
                 LibraryHeader(f, ReparsedAttributes(f.attributes), VersionNumber(f.version))
                 + LibraryElements(NormalizedElements(f))
                 + LibraryTrailer(f, Map(Map(f.properties, WriteFootprintProperty), Normalize)), LibraryStep())
         == Some(LibraryBack(f))
  {
    var header := LibraryHeader(f, ReparsedAttributes(f.attributes), VersionNumber(f.version));
    var elements := LibraryElements(NormalizedElements(f));
    var trailer := LibraryTrailer(f, Map(Map(f.properties, WriteFootprintProperty), Normalize));
    var h := HeaderOf(f);
    var e := ElementsPut(h, NormalizedElements(f));
    var t := e.(properties := Map(f.properties, PropertyBack), solderMaskMargin := f.solderMaskMargin,
                zoneConnect := f.zoneConnect);
    HeaderRead(f);
    NormalizedNamed(f);
    ElementsRead(h, NormalizedElements(f));
    TrailerRead(e, f);
    FoldJoin(InitialLibrary(f.nodeIdentifier, f.footprintId), header, elements, LibraryStep(), h, e);
    FoldJoin(InitialLibrary(f.nodeIdentifier, f.footprintId), header + elements, trailer, LibraryStep(), e, t);
    PartsAssemble(f);
  }

  /**
   * `FootprintLibrary::serialize`, printed and parsed again, read by
   * `FootprintLibrary::deserialize`: the footprint comes back with its
   * element nodes in their normal form and each property as `PropertyBack`
   * describes it.
   */
  lemma LibraryRoundTrip(f: FootprintLibrary)
    requires Rereadable(f)
    ensures ReadFootprintLibrary(Retokenized(f)) == Some(LibraryBack(f))
  {
    RetokenizedLayout(f);
    PartsRead(f);
  }

  // ---------------------------------------------------------------------
  // What the reader refuses, and its defaults
  // ---------------------------------------------------------------------

  /**
   * A footprint with a `zone_connect` mode never reads back from what the
   * writer makes of it, printed or not: the reader looks for a nested
   * `zone_connection` child that the written node does not have.
   */
  lemma ZoneConnectFootprintUnreadable(f: FootprintLibrary)
    requires f.zoneConnect.Some?
    ensures ReadFootprintLibrary(Retokenized(f)).None?
    ensures ReadFootprintLibrary(WriteFootprintLibrary(f)).None?
  {
    var c := WriteZoneConnect(f.zoneConnect.value);
    var margin := Optional(NumberChild("solder_mask_margin", f.solderMaskMargin));
    var written := Map(f.properties, WriteFootprintProperty);
    var reparsed := Map(written, Normalize);
    assert LibraryTrailer(f, written) == written + margin + [c];
    assert LibraryTrailer(f, reparsed) == reparsed + margin + [c];
    ZoneConnectNodeRefused(f.zoneConnect.value);
    RetokenizedLayout(f);
    LastChildRefused(f, LibraryHeader(f, ReparsedAttributes(f.attributes), VersionNumber(f.version))
                        + LibraryElements(NormalizedElements(f)), reparsed + margin, c);
    LastChildRefused(f, LibraryHeader(f, AttributesNode(f.attributes), VersionWord(f.version)) + LibraryElements(f),
                     written + margin, c);
  }

  /**
   * The edit timestamp is written as a bare word of hexadecimal digits, and
   * the tokenizer makes a number of every word that parses as one. A
   * timestamp of 480 seconds is written `1E0`: that word becomes the number
   * 1, whose text `1` the reader takes as hexadecimal, so the footprint
   * comes back edited at 1 second.
   */
  lemma TeditWordRereadAsNumber(a: FootprintLibrary, rest: string)
    ensures TimestampText(480) == "1E0"
    ensures Tokenizer.EraseOpt(Tokenizer.LexRest(TimestampText(480) + " " + rest, 0))
         == Tokenizer.Prepend(Tokenizer.IdentifierToken(0, "1E0"), Tokenizer.EraseOpt(Tokenizer.LexRest(rest, 0)))
    ensures Tokenizer.Classify(Tokenizer.IdentifierToken(0, "1E0")) == Tokenizer.NumberToken(0, Finite(1.0))
    ensures LibraryChild(a, FromSingleArgument("tedit", Number(Finite(1.0), Neutral))) == Some(a.(editTimestamp := Some(1)))
  {
    TeditHexText();
    Tokenizer.LexWord("1E0", rest);
    TeditDigitsParse();
    TeditNumberRead(a);
  }

  /** 480 is `1E0` in upper-case hexadecimal. */
  lemma TeditHexText()
    ensures TimestampText(480) == "1E0"
  {
    assert HexText(480) == HexText(30) + [HexDigitChar(0)];
    assert HexText(30) == HexText(1) + [HexDigitChar(14)];
  }

  /** A `tedit` node holding the number 1 sets an edit timestamp of 1 second. */
  lemma TeditNumberRead(a: FootprintLibrary)
    ensures LibraryChild(a, FromSingleArgument("tedit", Number(Finite(1.0), Neutral))) == Some(a.(editTimestamp := Some(1)))
  {
    assert NumberText(Finite(1.0)) == NatText(1);
    assert HexValue("1") == Some(1) by {
      assert "1"[..0] == [];
    }
  }

  /** `1E0` parses as the number 1. */
  lemma TeditDigitsParse()
    ensures ParseF32("1E0") == Some(Finite(1.0))
  {
    var s := "1E0";
    assert Lower(s)[0] == '1';
    assert s[2..] == "0" && ExponentValue("0") == Some(0);
    assert DecimalFrom(s, 1, 1, 1, 0, false) == Some(Scaled(1, 0));
    assert DecimalFrom(s, 0, 0, 0, 0, false) == DecimalFrom(s, 1, 1, 1, 0, false);
    assert DecimalValue(s) == Some(1.0);
  }

  /** `(tedit "<hex>")`: the edit timestamp's hexadecimal text as a quoted string. */
  function TeditQuotedNode(ts: UtcSeconds): SyntaxItem
  {
    FromSingleArgument("tedit", QuotedString(TimestampText(ts), Neutral))
  }

  /**
   * Quoted, the hexadecimal text is lexed back as that text whatever its
   * digits, no word classification applies to it, and the reader sets
   * the timestamp it was written from.
   */
  lemma TeditQuotedRoundTrip(a: FootprintLibrary, ts: UtcSeconds, rest: string)
    requires ts >= 0
    ensures Tokenizer.EraseOpt(Tokenizer.LexRest("\"" + TimestampText(ts) + "\"" + rest, 0))
         == Tokenizer.Prepend(Tokenizer.QuotedStringToken(0, TimestampText(ts)), Tokenizer.EraseOpt(Tokenizer.LexRest(rest, 0)))
    ensures Tokenizer.Classify(Tokenizer.QuotedStringToken(0, TimestampText(ts)))
         == Tokenizer.QuotedStringToken(0, TimestampText(ts))
    ensures LibraryChild(a, Normalize(TeditQuotedNode(ts))) == Some(a.(editTimestamp := Some(ts)))
  {
    TimestampQuotable(ts);
    Tokenizer.LexQuoted(TimestampText(ts), rest);
    TeditQuotedRead(a, ts);
  }

  lemma TimestampQuotable(ts: I64)
    ensures forall i | 0 <= i < |TimestampText(ts)| :: TimestampText(ts)[i] != '"'
  {
    var t := TimestampText(ts);
    assert forall i | 0 <= i < |t| :: IsUpperHexDigit(t[i]);
  }

  lemma TeditQuotedRead(a: FootprintLibrary, ts: UtcSeconds)
    requires ts >= 0
    ensures LibraryChild(a, Normalize(TeditQuotedNode(ts))) == Some(a.(editTimestamp := Some(ts)))
  {
    var n := TeditQuotedNode(ts);
    assert Settled(n);
    NormalizeSettled(n);
    TeditChildRead(a, n, ts);
  }

  /** A `tedit` child whose first argument reads as a timestamp's hexadecimal text sets that timestamp. */
  lemma TeditChildRead(a: FootprintLibrary, c: SyntaxItem, ts: UtcSeconds)
    requires ts >= 0 && c.name == "tedit" && StringAt(c, 0) == Some(TimestampText(ts))
    ensures LibraryChild(a, c) == Some(a.(editTimestamp := Some(ts)))
  {
    TimestampRoundTrip(ts);
  }

  /**
   * A timestamp that `i64` holds but chrono does not, `i64::MAX` among them,
   * is written as its hexadecimal text, and reading that text back panics
   * in `Utc.timestamp_opt(..).unwrap()`.
   */
  lemma TeditBeyondUtcRefused(a: FootprintLibrary, c: SyntaxItem, secs: I64)
    requires secs > UTC_MAX_SECONDS && c.name == "tedit" && StringAt(c, 0) == Some(TimestampText(secs))
    ensures ParseHexI64(TimestampText(secs)) == Some(secs)
    ensures LibraryChild(a, c).None?
  {
    TimestampRoundTrip(secs);
  }

  /** The source's `zone_connect` branch refuses the written node, whatever was read before it. */
  lemma ZoneConnectNodeRefused(m: ZoneConnectMode)
    ensures forall a: FootprintLibrary :: LibraryChild(a, WriteZoneConnect(m)).None?
  {
    ZoneConnectAsWrittenRejectsOwnOutput(m);
    assert WriteZoneConnect(m).name == "zone_connect";
  }

  /** A footprint tree whose last child every reading refuses does not read. */
  lemma LastChildRefused(f: FootprintLibrary, front: seq<SyntaxItem>, trailer: seq<SyntaxItem>, c: SyntaxItem)
    requires forall a: FootprintLibrary :: LibraryChild(a, c).None?
    ensures ReadFootprintLibrary(SyntaxItem(f.nodeIdentifier, [QuotedString(f.footprintId, Neutral)], front + (trailer + [c]))).None?
  {
    assert front + (trailer + [c]) == (front + trailer) + [c];
    FoldSnoc(InitialLibrary(f.nodeIdentifier, f.footprintId), front + trailer, c, LibraryStep());
  }

  /** `get_number` panics on a `version` node that holds a word. */
  lemma VersionWordStep(a: FootprintLibrary, w: string)
    ensures LibraryChild(a, FromSingleArgument("version", Identifier(w, Neutral))).None?
  {
    var c := FromSingleArgument("version", Identifier(w, Neutral));
    assert c.name == "version" && NumberAt(c, 0).None?;
  }

  /**
   * A footprint with a version does not read back from its own tree: the
   * version is written as a word and read with `get_number`.
   */
  lemma LibraryDirectReadFails(f: FootprintLibrary)
    requires f.version.Some?
    ensures ReadFootprintLibrary(WriteFootprintLibrary(f)).None?
  {
    var s := WriteFootprintLibrary(f);
    var pre := [WriteLayerNode(f.layer)] + Optional(TextNode(Tags, f.tags)) + Optional(TextNode(Description, f.description))
               + Optional(AttributesNode(f.attributes)) + Optional(TeditNode(f.editTimestamp)) + Optional(ModelNode(f.model));
    var v := FromSingleArgument("version", Identifier(NatText(f.version.value), Neutral));
    assert s.children[|pre|] == v;
    forall a: FootprintLibrary
      ensures LibraryChild(a, s.children[|pre|]).None?
    {
      VersionWordStep(a, NatText(f.version.value));
    }
    FoldFails(InitialLibrary(s.name, f.footprintId), s.children, LibraryStep(), |pre|);
  }

  /** The child names the reader accepts. */
  predicate IsLibraryChildName(name: string)
  {
    name in {"layer", "descr", "tags", "version", "generator", "generator_version", "tedit", "fp_line", "fp_arc",
             "fp_text", "fp_poly", "fp_circle", "fp_rect", "zone", "zone_connect", "pad", "model", "attr", "property",
             "solder_mask_margin"}
  }

  /** A footprint node without a name argument, or with a child of any other name, is refused. */
  lemma LibraryRejects(s: SyntaxItem, k: nat)
    requires |s.arguments| == 0 || (k < |s.children| && !IsLibraryChildName(s.children[k].name))
    ensures ReadFootprintLibrary(s).None?
  {
    if |s.arguments| > 0 {
      FoldFails(InitialLibrary(s.name, GetString(s.arguments[0])), s.children, LibraryStep(), k);
    }
  }

  /** No child changes the footprint's name or node identifier, and only a `layer` child changes its layer. */
  lemma ChildKeeps(a: FootprintLibrary, x: SyntaxItem)
    requires LibraryChild(a, x).Some?
    ensures LibraryChild(a, x).value.footprintId == a.footprintId
    ensures LibraryChild(a, x).value.nodeIdentifier == a.nodeIdentifier
    ensures x.name != "layer" ==> LibraryChild(a, x).value.layer == a.layer
  {
    var k := ElementOfName(x.name);
    if k.Some? {
      DispatchElement(a, k.value, x);
    } else if x.name in {"descr", "tags", "generator", "generator_version"} {
      var t := if x.name == "descr" then Description else if x.name == "tags" then Tags
               else if x.name == "generator" then Generator else GeneratorVersion;
      DispatchText(a, t, x);
    }
  }

  /** Without a `layer` child the footprint stays on `F.Cu`. */
  lemma LayerDefault(s: SyntaxItem)
    requires ReadFootprintLibrary(s).Some?
    requires GetNamedChild(s, "layer").None?
    ensures ReadFootprintLibrary(s).value.layer == FCu
  {
    var a0 := InitialLibrary(s.name, GetString(s.arguments[0]));
    forall a: FootprintLibrary, x: SyntaxItem | a.layer == FCu && x in s.children && LibraryChild(a, x).Some?
      ensures LibraryChild(a, x).value.layer == FCu
    {
      ChildKeeps(a, x);
    }
    FoldKeeps(a0, s.children, LibraryStep(), (a: FootprintLibrary) => a.layer == FCu);
  }

  /** The footprint's name is its node's first argument and its node identifier the node's name. */
  lemma LibraryIdentity(s: SyntaxItem)
    requires ReadFootprintLibrary(s).Some?
    ensures |s.arguments| > 0
    ensures ReadFootprintLibrary(s).value.footprintId == GetString(s.arguments[0])
    ensures ReadFootprintLibrary(s).value.nodeIdentifier == s.name
  {
    var id := GetString(s.arguments[0]);
    var a0 := InitialLibrary(s.name, id);
    forall a: FootprintLibrary, x: SyntaxItem | a.footprintId == id && a.nodeIdentifier == s.name
                                               && x in s.children && LibraryChild(a, x).Some?
      ensures LibraryChild(a, x).value.footprintId == id && LibraryChild(a, x).value.nodeIdentifier == s.name
    {
      ChildKeeps(a, x);
    }
    FoldKeeps(a0, s.children, LibraryStep(), (a: FootprintLibrary) => a.footprintId == id && a.nodeIdentifier == s.name);
  }
}

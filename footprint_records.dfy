/**
 * The small records a footprint is made of, from
 * `src/kicad/model/footprint_library.rs`: the `attr` node, the pad `drill`,
 * a zone's `keepout` settings, a `property`, the 3D `model` reference, the
 * `zone_connect` mode and the hexadecimal `tedit` timestamp. Each has its
 * writer (`serialize`) and its reader (`deserialize`); a reader returns None
 * where the source panics.
 */
module FootprintRecords {
  import opened Wrappers
  import opened Numbers
  import opened Syntax
  import opened Folding
  import opened Common
  import opened Scalars
  import opened PcbLayers
  import opened TreeParser

  // ---------------------------------------------------------------------
  // FootprintAttributes: `(attr smd|through_hole [board_only] [exclude_from_pos_files] [exclude_from_bom])`
  // ---------------------------------------------------------------------

  datatype FootprintType = Smd | ThroughHole

  datatype FootprintAttributes = FootprintAttributes(footprintType: FootprintType, boardOnly: bool,
                                                     excludeFromPosFiles: bool, excludeFromBom: bool)

  function TypeName(t: FootprintType): string
  {
    match t
    case Smd => "smd"
    case ThroughHole => "through_hole"
  }

  /** The footprint type a word names; None is the panic on any other word. */
  function TypeOfName(w: string): (r: Option<FootprintType>)
    ensures r.Some? <==> w == "smd" || w == "through_hole"
    ensures r.Some? ==> TypeName(r.value) == w
  {
    if w == "smd" then Some(Smd) else if w == "through_hole" then Some(ThroughHole) else None
  }

  /** The flag word, when the flag is set. */
  function FlagWord(on: bool, word: string): Option<SyntaxArgument>
  {
    if on then Some(Identifier(word, Neutral)) else None
  }

  function FlagWords(a: FootprintAttributes): seq<SyntaxArgument>
  {
    Optional(FlagWord(a.boardOnly, "board_only")) + Optional(FlagWord(a.excludeFromPosFiles, "exclude_from_pos_files"))
    + Optional(FlagWord(a.excludeFromBom, "exclude_from_bom"))
  }

  /** The type word first, then one word per flag that is set. */
  function WriteAttributes(a: FootprintAttributes): SyntaxItem
  {
    SyntaxItem("attr", [Identifier(TypeName(a.footprintType), Start)] + FlagWords(a), [])
  }

  /** One argument after the type word: a flag word sets its flag, any other word is ignored. */
  function AttributeWord(a: FootprintAttributes, arg: SyntaxArgument): FootprintAttributes
  {
    var w := GetString(arg);
    if w == "board_only" then a.(boardOnly := true)
    else if w == "exclude_from_bom" then a.(excludeFromBom := true)
    else if w == "exclude_from_pos_files" then a.(excludeFromPosFiles := true)
    else a
  }

  function AttributeStep(): (FootprintAttributes, SyntaxArgument) -> Option<FootprintAttributes>
  {
    (a: FootprintAttributes, arg: SyntaxArgument) => Some(AttributeWord(a, arg))
  }

  /** `FootprintAttributes::deserialize` as a function: the type word, then the flags. */
  function ReadAttributes(s: SyntaxItem): Option<FootprintAttributes>
  {
    if |s.arguments| == 0 then None
    else
      var t :- TypeOfName(GetString(s.arguments[0]));
      Fold(FootprintAttributes(t, false, false, false), s.arguments[1..], AttributeStep())
  }

  /** `FootprintAttributes::deserialize`: the loop over the arguments after the first. */
  method DeserializeAttributes(syntax: SyntaxItem) returns (r: Option<FootprintAttributes>)
    ensures r == ReadAttributes(syntax)
  {
    if |syntax.arguments| == 0 {
      return None;
    }
    var t := TypeOfName(GetString(syntax.arguments[0]));
    if t.None? {
      return None;
    }
    var attributes := FootprintAttributes(t.value, false, false, false);
    var rest := syntax.arguments[1..];
    var i := 0;
    assert rest[0..] == rest;
    while i < |rest|
      invariant i <= |rest|
      invariant ReadAttributes(syntax) == Fold(attributes, rest[i..], AttributeStep())
    {
      FoldAdvance(attributes, rest, i, AttributeStep());
      var w := GetString(rest[i]);
      if w == "board_only" {
        attributes := attributes.(boardOnly := true);
      } else if w == "exclude_from_bom" {
        attributes := attributes.(excludeFromBom := true);
      } else if w == "exclude_from_pos_files" {
        attributes := attributes.(excludeFromPosFiles := true);
      }
      i := i + 1;
    }
    return Some(attributes);
  }

  /** The flag words, read onto the attributes with no flag set, set exactly the flags they were written for. */
  lemma FlagWordsRead(a: FootprintAttributes)
    ensures Fold(FootprintAttributes(a.footprintType, false, false, false), FlagWords(a), AttributeStep()) == Some(a)
  {
    var step := AttributeStep();
    var a0 := FootprintAttributes(a.footprintType, false, false, false);
    var a1 := a0.(boardOnly := a.boardOnly);
    var a2 := a1.(excludeFromPosFiles := a.excludeFromPosFiles);
    FoldOptional(a0, FlagWord(a.boardOnly, "board_only"), step);
    FoldOptional(a1, FlagWord(a.excludeFromPosFiles, "exclude_from_pos_files"), step);
    FoldOptional(a2, FlagWord(a.excludeFromBom, "exclude_from_bom"), step);
    FoldJoin(a0, Optional(FlagWord(a.boardOnly, "board_only")),
             Optional(FlagWord(a.excludeFromPosFiles, "exclude_from_pos_files")), step, a1, a2);
    FoldJoin(a0, Optional(FlagWord(a.boardOnly, "board_only"))
                 + Optional(FlagWord(a.excludeFromPosFiles, "exclude_from_pos_files")),
             Optional(FlagWord(a.excludeFromBom, "exclude_from_bom")), step, a2, a);
  }

  lemma AttributesRoundTrip(a: FootprintAttributes)
    ensures WriteAttributes(a).name == "attr"
    ensures ReadAttributes(WriteAttributes(a)) == Some(a)
  {
    var s := WriteAttributes(a);
    assert s.arguments[1..] == FlagWords(a);
    FlagWordsRead(a);
  }

  /** The flag words are placed None. */
  lemma FlagWordsNeutral(a: FootprintAttributes)
    ensures forall i | 0 <= i < |FlagWords(a)| :: FlagWords(a)[i].pref == Neutral
  {
  }

  /** Printed and parsed again, the type word loses its Start placement and stays first. */
  lemma AttributesNormalForm(a: FootprintAttributes)
    ensures Normalize(WriteAttributes(a)) == SyntaxItem("attr", [Identifier(TypeName(a.footprintType), Neutral)] + FlagWords(a), [])
  {
    var s := WriteAttributes(a);
    FlagWordsNeutral(a);
    assert s.arguments[1..] == FlagWords(a);
    NormalizeLeadingStart(s);
    NormalizeNode(s);
  }

  /** An `attr` node holding the type word, then exactly the flag words, reads as those attributes. */
  lemma ReadAttributesLayout(n: SyntaxItem, a: FootprintAttributes)
    requires |n.arguments| > 0 && GetString(n.arguments[0]) == TypeName(a.footprintType) && n.arguments[1..] == FlagWords(a)
    ensures ReadAttributes(n) == Some(a)
  {
    assert TypeOfName(GetString(n.arguments[0])) == Some(a.footprintType) by {
      match a.footprintType {
        case Smd =>
        case ThroughHole =>
      }
    }
    FlagWordsRead(a);
  }

  /** The attributes printed and parsed again read back. */
  lemma AttributesReparsed(a: FootprintAttributes)
    ensures Normalize(WriteAttributes(a)).name == "attr"
    ensures ReadAttributes(Normalize(WriteAttributes(a))) == Some(a)
  {
    var n := Normalize(WriteAttributes(a));
    AttributesNormalForm(a);
    assert n.arguments[1..] == FlagWords(a);
    ReadAttributesLayout(n, a);
  }

  /** Each argument sets the flag of its own word and keeps the type and the other flags. */
  lemma AttributeWordFields(a: FootprintAttributes, arg: SyntaxArgument)
    ensures AttributeWord(a, arg).footprintType == a.footprintType
    ensures AttributeWord(a, arg).boardOnly == (GetString(arg) == "board_only" || a.boardOnly)
    ensures AttributeWord(a, arg).excludeFromPosFiles == (GetString(arg) == "exclude_from_pos_files" || a.excludeFromPosFiles)
    ensures AttributeWord(a, arg).excludeFromBom == (GetString(arg) == "exclude_from_bom" || a.excludeFromBom)
  {
  }

  /**
   * The attributes are read exactly when the first argument is `smd` or
   * `through_hole`; that word is the type, and each flag is set exactly when
   * its word appears among the later arguments.
   */
  lemma AttributesRead(s: SyntaxItem)
    ensures ReadAttributes(s).Some? <==> |s.arguments| > 0 && (GetString(s.arguments[0]) == "smd" || GetString(s.arguments[0]) == "through_hole")
    ensures ReadAttributes(s).Some? ==>
      && TypeName(ReadAttributes(s).value.footprintType) == GetString(s.arguments[0])
      && (ReadAttributes(s).value.boardOnly <==> exists arg | arg in s.arguments[1..] :: GetString(arg) == "board_only")
      && (ReadAttributes(s).value.excludeFromPosFiles <==> exists arg | arg in s.arguments[1..] :: GetString(arg) == "exclude_from_pos_files")
      && (ReadAttributes(s).value.excludeFromBom <==> exists arg | arg in s.arguments[1..] :: GetString(arg) == "exclude_from_bom")
  {
    if |s.arguments| > 0 && TypeOfName(GetString(s.arguments[0])).Some? {
      var t := TypeOfName(GetString(s.arguments[0])).value;
      var a0 := FootprintAttributes(t, false, false, false);
      var rest := s.arguments[1..];
      var step := AttributeStep();
      FoldTotal(a0, rest, step);
      forall a: FootprintAttributes, arg: SyntaxArgument
        ensures step(a, arg).value.footprintType == a.footprintType
        ensures step(a, arg).value.boardOnly == (GetString(arg) == "board_only" || a.boardOnly)
        ensures step(a, arg).value.excludeFromPosFiles == (GetString(arg) == "exclude_from_pos_files" || a.excludeFromPosFiles)
        ensures step(a, arg).value.excludeFromBom == (GetString(arg) == "exclude_from_bom" || a.excludeFromBom)
      {
        AttributeWordFields(a, arg);
      }
      FoldKeeps(a0, rest, step, (a: FootprintAttributes) => a.footprintType == t);
      FoldPresence(a0, rest, step, (a: FootprintAttributes) => a.boardOnly, (arg: SyntaxArgument) => GetString(arg) == "board_only");
      FoldPresence(a0, rest, step, (a: FootprintAttributes) => a.excludeFromPosFiles,
                   (arg: SyntaxArgument) => GetString(arg) == "exclude_from_pos_files");
      FoldPresence(a0, rest, step, (a: FootprintAttributes) => a.excludeFromBom,
                   (arg: SyntaxArgument) => GetString(arg) == "exclude_from_bom");
    }
  }

  // ---------------------------------------------------------------------
  // DrillDefinition: `(drill [oval] diameter [width] [(offset x y)])`
  // ---------------------------------------------------------------------

  datatype DrillDefinition = DrillDefinition(oval: bool, diameter: Num, width: Option<Num>, offset: Option<Scalar2D>)

  function DefaultDrill(): DrillDefinition { DrillDefinition(false, Finite(0.0), None, None) }

  /** `oval` (placed first), the diameter, the width when set; the offset as a child. */
  function WriteDrill(d: DrillDefinition): SyntaxItem
  {
    SyntaxItem("drill",
      (if d.oval then [Identifier("oval", Start)] else []) + [Number(d.diameter, Neutral)]
      + Optional(if d.width.Some? then Some(Number(d.width.value, Neutral)) else None),
      Optional(if d.offset.Some? then Some(WriteScalar2D(d.offset.value)) else None))
  }

  /** The reader's state over the arguments: the definition so far and how many numbers it has seen (`num_index`). */
  datatype DrillScan = DrillScan(drill: DrillDefinition, numbers: nat)

  /** One argument: the first number is the diameter, the second the width, later ones are counted only; `oval` sets the flag. */
  function DrillArgument(st: DrillScan, a: SyntaxArgument): DrillScan
  {
    match a
    case Number(n, _) =>
      var d := if st.numbers == 0 then st.drill.(diameter := n)
               else if st.numbers == 1 then st.drill.(width := Some(n))
               else st.drill;
      DrillScan(d, st.numbers + 1)
    case Identifier(w, _) => if w == "oval" then st.(drill := st.drill.(oval := true)) else st
    case QuotedString(_, _) => st
  }

  /** The arguments applied in order. */
  function ScanDrill(st: DrillScan, args: seq<SyntaxArgument>): DrillScan
    decreases |args|
  {
    if args == [] then st else ScanDrill(DrillArgument(st, args[0]), args[1..])
  }

  /** `DrillDefinition::deserialize` as a function; only a malformed `offset` child makes it fail. */
  function ReadDrill(s: SyntaxItem): Option<DrillDefinition>
  {
    var d := ScanDrill(DrillScan(DefaultDrill(), 0), s.arguments).drill;
    match GetNamedChild(s, "offset")
    case None => Some(d)
    case Some(o) =>
      var p :- ReadScalar2D(o);
      Some(d.(offset := Some(p)))
  }

  lemma ScanDrillAdvance(st: DrillScan, args: seq<SyntaxArgument>, i: nat)
    requires i < |args|
    ensures ScanDrill(st, args[i..]) == ScanDrill(DrillArgument(st, args[i]), args[i + 1..])
  {
    assert args[i..][0] == args[i] && args[i..][1..] == args[i + 1..];
  }

  /** `DrillDefinition::deserialize`: the loop over the arguments with its number counter. */
  method DeserializeDrill(syntax: SyntaxItem) returns (r: Option<DrillDefinition>)
    ensures r == ReadDrill(syntax)
  {
    var definition := DefaultDrill();
    var numIndex := 0;
    var i := 0;
    assert syntax.arguments[0..] == syntax.arguments;
    while i < |syntax.arguments|
      invariant i <= |syntax.arguments|
      invariant ScanDrill(DrillScan(DefaultDrill(), 0), syntax.arguments)
             == ScanDrill(DrillScan(definition, numIndex), syntax.arguments[i..])
    {
      ScanDrillAdvance(DrillScan(definition, numIndex), syntax.arguments, i);
      match syntax.arguments[i] {
        case Number(n, _) =>
          if numIndex == 0 {
            definition := definition.(diameter := n);
          } else if numIndex == 1 {
            definition := definition.(width := Some(n));
          }
          numIndex := numIndex + 1;
        case Identifier(w, _) =>
          if w == "oval" {
            definition := definition.(oval := true);
          }
        case QuotedString(_, _) =>
      }
      i := i + 1;
    }
    assert syntax.arguments[i..] == [];
    var offset := GetNamedChild(syntax, "offset");
    if offset.Some? {
      var p := ReadScalar2D(offset.value);
      if p.None? {
        return None;
      }
      definition := definition.(offset := Some(p.value));
    }
    return Some(definition);
  }

  /** The numbers among the arguments, in order. */
  function NumbersIn(args: seq<SyntaxArgument>): seq<Num>
  {
    if args == [] then [] else (if args[0].Number? then [args[0].num] else []) + NumbersIn(args[1..])
  }

  predicate IsOvalWord(a: SyntaxArgument) { a.Identifier? && a.text == "oval" }

  /** What scanning the arguments does, in terms of the numbers among them and the `oval` words. */
  lemma {:induction false} ScanDrillSpec(st: DrillScan, args: seq<SyntaxArgument>)
    ensures ScanDrill(st, args).numbers == st.numbers + |NumbersIn(args)|
    ensures ScanDrill(st, args).drill.oval == (st.drill.oval || exists a | a in args :: IsOvalWord(a))
    ensures ScanDrill(st, args).drill.diameter
         == if st.numbers == 0 && |NumbersIn(args)| > 0 then NumbersIn(args)[0] else st.drill.diameter
    ensures ScanDrill(st, args).drill.width
         == if st.numbers == 0 && |NumbersIn(args)| > 1 then Some(NumbersIn(args)[1])
            else if st.numbers == 1 && |NumbersIn(args)| > 0 then Some(NumbersIn(args)[0])
            else st.drill.width
    ensures ScanDrill(st, args).drill.offset == st.drill.offset
    decreases |args|
  {
    if args != [] {
      var next := DrillArgument(st, args[0]);
      ScanDrillSpec(next, args[1..]);
      assert forall a | a in args :: a == args[0] || a in args[1..];
      assert args[0] in args;
      assert forall a | a in args[1..] :: a in args;
    }
  }

  /**
   * A drill that was read: `oval` exactly when an `oval` word is among the
   * arguments, the diameter is the first number (0 when there is none), the
   * width the second number (none when there is no second), and any later
   * numbers are ignored; the offset is present exactly when an `offset` child is.
   */
  lemma DrillRead(s: SyntaxItem)
    ensures ReadDrill(s).None? <==> GetNamedChild(s, "offset").Some? && ReadScalar2D(GetNamedChild(s, "offset").value).None?
    ensures ReadDrill(s).Some? ==>
      var d := ReadDrill(s).value;
      var ns := NumbersIn(s.arguments);
      && (d.oval <==> exists a | a in s.arguments :: IsOvalWord(a))
      && d.diameter == (if |ns| > 0 then ns[0] else Finite(0.0))
      && d.width == (if |ns| > 1 then Some(ns[1]) else None)
      && (d.offset.Some? <==> GetNamedChild(s, "offset").Some?)
  {
    ScanDrillSpec(DrillScan(DefaultDrill(), 0), s.arguments);
  }

  lemma ScanDrillCons(st: DrillScan, a: SyntaxArgument, rest: seq<SyntaxArgument>)
    ensures ScanDrill(st, [a] + rest) == ScanDrill(DrillArgument(st, a), rest)
  {
    assert ([a] + rest)[0] == a && ([a] + rest)[1..] == rest;
  }

  /** A drill whose offset carries the node name `offset` is read back from its written form. */
  lemma DrillRoundTrip(d: DrillDefinition)
    requires d.offset.Some? ==> d.offset.value.name == "offset"
    ensures WriteDrill(d).name == "drill"
    ensures ReadDrill(WriteDrill(d)) == Some(d)
  {
    var s := WriteDrill(d);
    var diameter := Number(d.diameter, Neutral);
    var w := Optional(if d.width.Some? then Some(Number(d.width.value, Neutral)) else None);
    var st0 := DrillScan(DefaultDrill(), 0);
    var st1 := if d.oval then st0.(drill := st0.drill.(oval := true)) else st0;
    if d.oval {
      assert s.arguments == [Identifier("oval", Start)] + ([diameter] + w);
      ScanDrillCons(st0, Identifier("oval", Start), [diameter] + w);
    } else {
      assert s.arguments == [diameter] + w;
    }
    ScanDrillCons(st1, diameter, w);
    var st2 := DrillScan(st1.drill.(diameter := d.diameter), 1);
    if d.width.Some? {
      assert w == [Number(d.width.value, Neutral)] + [];
      ScanDrillCons(st2, Number(d.width.value, Neutral), []);
    }
    var scanned := ScanDrill(st0, s.arguments).drill;
    assert scanned == d.(offset := None);
    if d.offset.Some? {
      assert s.children == [WriteScalar2D(d.offset.value)];
      assert GetNamedChild(s, "offset") == Some(WriteScalar2D(d.offset.value));
    }
  }

  // ---------------------------------------------------------------------
  // FootprintZoneKeepoutSettings: `(keepout (tracks a) (vias a) (pads a) (copperpour a) (footprints a))`
  // ---------------------------------------------------------------------

  datatype KeepoutSettings = KeepoutSettings(tracks: bool, vias: bool, pads: bool, copperPour: bool, footprints: bool)

  /** The five settings, each written as a child of its own name. */
  datatype Setting = Tracks | Vias | Pads | CopperPour | Footprints

  function SettingName(x: Setting): string
  {
    match x
    case Tracks => "tracks"
    case Vias => "vias"
    case Pads => "pads"
    case CopperPour => "copperpour"
    case Footprints => "footprints"
  }

  /** The setting a child name selects; None is the panic on any other name. */
  function SettingOfName(name: string): (r: Option<Setting>)
    ensures r.Some? ==> SettingName(r.value) == name
    ensures r.None? <==> name !in {"tracks", "vias", "pads", "copperpour", "footprints"}
  {
    match name
    case "tracks" => Some(Tracks)
    case "vias" => Some(Vias)
    case "pads" => Some(Pads)
    case "copperpour" => Some(CopperPour)
    case "footprints" => Some(Footprints)
    case _ => None
  }

  function Allowed(k: KeepoutSettings, x: Setting): bool
  {
    match x
    case Tracks => k.tracks
    case Vias => k.vias
    case Pads => k.pads
    case CopperPour => k.copperPour
    case Footprints => k.footprints
  }

  function SetAllowed(k: KeepoutSettings, x: Setting, allowed: bool): (r: KeepoutSettings)
    ensures Allowed(r, x) == allowed
    ensures forall y: Setting | y != x :: Allowed(r, y) == Allowed(k, y)
  {
    match x
    case Tracks => k.(tracks := allowed)
    case Vias => k.(vias := allowed)
    case Pads => k.(pads := allowed)
    case CopperPour => k.(copperPour := allowed)
    case Footprints => k.(footprints := allowed)
  }

  function DefaultKeepout(): KeepoutSettings { KeepoutSettings(false, false, false, false, false) }

  /** `(name allowed)` or `(name not_allowed)` for one setting. */
  function AllowedNode(k: KeepoutSettings, x: Setting): SyntaxItem
  {
    FromSingleArgument(SettingName(x), Identifier(if Allowed(k, x) then "allowed" else "not_allowed", Neutral))
  }

  /** The five setting nodes, in the order the writer emits them. */
  function KeepoutChildren(k: KeepoutSettings): seq<SyntaxItem>
  {
    [AllowedNode(k, Tracks), AllowedNode(k, Vias), AllowedNode(k, Pads), AllowedNode(k, CopperPour),
     AllowedNode(k, Footprints)]
  }

  function WriteKeepout(k: KeepoutSettings): SyntaxItem
  {
    SyntaxItem("keepout", [], KeepoutChildren(k))
  }

  /** One child: its first argument must exist, and the setting of its name is allowed exactly when that argument reads `allowed`. */
  function KeepoutChild(k: KeepoutSettings, c: SyntaxItem): Option<KeepoutSettings>
  {
    var w :- StringAt(c, 0);
    var x :- SettingOfName(c.name);
    Some(SetAllowed(k, x, w == "allowed"))
  }

  function KeepoutStep(): (KeepoutSettings, SyntaxItem) -> Option<KeepoutSettings>
  {
    (k: KeepoutSettings, c: SyntaxItem) => KeepoutChild(k, c)
  }

  /** `FootprintZoneKeepoutSettings::deserialize` as a function: everything starts as not allowed. */
  function ReadKeepout(s: SyntaxItem): Option<KeepoutSettings>
  {
    Fold(DefaultKeepout(), s.children, KeepoutStep())
  }

  /** `FootprintZoneKeepoutSettings::deserialize`: the loop over the children. */
  method DeserializeKeepout(syntax: SyntaxItem) returns (r: Option<KeepoutSettings>)
    ensures r == ReadKeepout(syntax)
  {
    var settings := DefaultKeepout();
    var i := 0;
    assert syntax.children[0..] == syntax.children;
    while i < |syntax.children|
      invariant i <= |syntax.children|
      invariant ReadKeepout(syntax) == Fold(settings, syntax.children[i..], KeepoutStep())
    {
      FoldAdvance(settings, syntax.children, i, KeepoutStep());
      var child := syntax.children[i];
      if |child.arguments| == 0 {
        return None;
      }
      var allowed := GetString(child.arguments[0]) == "allowed";
      match child.name {
        case "tracks" => settings := settings.(tracks := allowed);
        case "vias" => settings := settings.(vias := allowed);
        case "pads" => settings := settings.(pads := allowed);
        case "copperpour" => settings := settings.(copperPour := allowed);
        case "footprints" => settings := settings.(footprints := allowed);
        case _ => return None;
      }
      i := i + 1;
    }
    return Some(settings);
  }

  /** A setting's node, read onto any settings, sets that setting to the written value. */
  lemma AllowedNodeRead(a: KeepoutSettings, k: KeepoutSettings, x: Setting)
    ensures KeepoutChild(a, AllowedNode(k, x)) == Some(SetAllowed(a, x, Allowed(k, x)))
  {
    assert SettingOfName(SettingName(x)) == Some(x);
  }

  /** The five written nodes, read from the defaults, set every setting to its written value. */
  lemma KeepoutChildrenRead(k: KeepoutSettings)
    ensures Fold(DefaultKeepout(), KeepoutChildren(k), KeepoutStep()) == Some(k)
  {
    var step := KeepoutStep();
    var k0 := DefaultKeepout();
    var k1 := SetAllowed(k0, Tracks, k.tracks);
    var k2 := SetAllowed(k1, Vias, k.vias);
    var k3 := SetAllowed(k2, Pads, k.pads);
    var k4 := SetAllowed(k3, CopperPour, k.copperPour);
    var k5 := SetAllowed(k4, Footprints, k.footprints);
    AllowedNodeRead(k0, k, Tracks);
    AllowedNodeRead(k1, k, Vias);
    AllowedNodeRead(k2, k, Pads);
    AllowedNodeRead(k3, k, CopperPour);
    AllowedNodeRead(k4, k, Footprints);
    FoldFour(k0, AllowedNode(k, Tracks), AllowedNode(k, Vias), AllowedNode(k, Pads), AllowedNode(k, CopperPour),
             step, k1, k2, k3, k4);
    FoldOne(k4, AllowedNode(k, Footprints), step);
    FoldJoin(k0, [AllowedNode(k, Tracks), AllowedNode(k, Vias), AllowedNode(k, Pads), AllowedNode(k, CopperPour)],
             [AllowedNode(k, Footprints)], step, k4, k5);
    assert KeepoutChildren(k)
        == [AllowedNode(k, Tracks), AllowedNode(k, Vias), AllowedNode(k, Pads), AllowedNode(k, CopperPour)]
           + [AllowedNode(k, Footprints)];
    assert k5 == k;
  }

  lemma KeepoutRoundTrip(k: KeepoutSettings)
    ensures WriteKeepout(k).name == "keepout"
    ensures ReadKeepout(WriteKeepout(k)) == Some(k)
  {
    KeepoutChildrenRead(k);
  }

  /** A setting whose child is missing stays not allowed. */
  lemma KeepoutMissingNotAllowed(s: SyntaxItem, x: Setting)
    requires ReadKeepout(s).Some?
    requires GetNamedChild(s, SettingName(x)).None?
    ensures !Allowed(ReadKeepout(s).value, x)
  {
    FoldKeeps(DefaultKeepout(), s.children, KeepoutStep(), (k: KeepoutSettings) => !Allowed(k, x));
  }

  /** A child outside the five settings, or one without an argument, is rejected. */
  lemma KeepoutRejects(s: SyntaxItem, k: nat)
    requires k < |s.children|
    requires s.children[k].name !in {"tracks", "vias", "pads", "copperpour", "footprints"} || |s.children[k].arguments| == 0
    ensures ReadKeepout(s).None?
  {
    FoldFails(DefaultKeepout(), s.children, KeepoutStep(), k);
  }

  // ---------------------------------------------------------------------
  // FootprintProperty: `(property "key" "value" (at x y z) (layer "L") [(hide b)] [(unlocked b)] [(uuid "u")] (effects ..))`
  // ---------------------------------------------------------------------

  datatype FootprintProperty = FootprintProperty(key: string, value: Option<string>, position: Scalar3D, layer: PcbLayer,
                                                 hidden: Option<bool>, unlocked: Option<bool>, uuid: Option<string>,
                                                 effects: TextEffect)

  /** The value text as written: an absent value is the empty text. */
  function ValueText(value: Option<string>): string
  {
    if value.Some? then value.value else ""
  }

  /** The value as read: the empty text is no value. */
  function ValueOfText(text: string): (r: Option<string>)
    ensures r.None? <==> text == ""
    ensures r.Some? ==> r.value == text
  {
    if text == "" then None else Some(text)
  }

  /** The children a property is written with: position, layer, the optional flags and uuid, then the effects. */
  function PropertyChildren(p: FootprintProperty): seq<SyntaxItem>
  {
    PropertyChildList(p, WriteEffect(p.effects))
  }

  /** The children of a property as written, with `e` in place of the effects node. */
  function PropertyChildList(p: FootprintProperty, e: SyntaxItem): seq<SyntaxItem>
  {
    [WriteScalar3D(p.position), FromSingleArgument("layer", QuotedString(LayerName(p.layer), Neutral))]
    + Optional(FlagNode("hide", p.hidden)) + Optional(FlagNode("unlocked", p.unlocked))
    + Optional(QuotedNode("uuid", p.uuid)) + [e]
  }

  function WriteFootprintProperty(p: FootprintProperty): SyntaxItem
  {
    SyntaxItem("property", [QuotedString(p.key, Start), QuotedString(ValueText(p.value), Neutral)], PropertyChildren(p))
  }

  /** A yes/no child: true exactly when it has a first argument reading `yes`. */
  predicate YesArgument(c: SyntaxItem)
  {
    |c.arguments| > 0 && GetString(c.arguments[0]) == "yes"
  }

  /** One child of `property`. */
  function PropertyChild(p: FootprintProperty, c: SyntaxItem): Option<FootprintProperty>
  {
    match c.name
    case "at" => var pos :- ReadScalar3D(c); Some(p.(position := pos))
    case "layer" => var t :- StringAt(c, 0); var l :- ParseLayer(t); Some(p.(layer := l))
    case "hide" => Some(p.(hidden := Some(YesArgument(c))))
    case "unlocked" => Some(p.(unlocked := Some(YesArgument(c))))
    case "uuid" => var u :- StringAt(c, 0); Some(p.(uuid := Some(u)))
    case "effects" => var e :- ReadEffect(c); Some(p.(effects := e))
    case _ => None
  }

  function PropertyStep(): (FootprintProperty, SyntaxItem) -> Option<FootprintProperty>
  {
    (p: FootprintProperty, c: SyntaxItem) => PropertyChild(p, c)
  }

  /** The property a node's two arguments start: default position, layer `F.Cu`, default effects. */
  function InitialProperty(key: string, text: string): FootprintProperty
  {
    FootprintProperty(key, ValueOfText(text), DefaultScalar3D(), FCu, None, None, None, DefaultEffect())
  }

  /** `FootprintProperty::deserialize` as a function. */
  function ReadFootprintProperty(s: SyntaxItem): Option<FootprintProperty>
  {
    var key :- StringAt(s, 0);
    var text :- StringAt(s, 1);
    Fold(InitialProperty(key, text), s.children, PropertyStep())
  }

  /** `FootprintProperty::deserialize`: the loop over the children. */
  method DeserializeFootprintProperty(syntax: SyntaxItem) returns (r: Option<FootprintProperty>)
    ensures r == ReadFootprintProperty(syntax)
  {
    if |syntax.arguments| < 2 {
      return None;
    }
    var property := InitialProperty(GetString(syntax.arguments[0]), GetString(syntax.arguments[1]));
    var i := 0;
    assert syntax.children[0..] == syntax.children;
    while i < |syntax.children|
      invariant i <= |syntax.children|
      invariant ReadFootprintProperty(syntax) == Fold(property, syntax.children[i..], PropertyStep())
    {
      FoldAdvance(property, syntax.children, i, PropertyStep());
      var child := syntax.children[i];
      match child.name {
        case "at" =>
          var pos := ReadScalar3D(child);
          if pos.None? { return None; }
          property := property.(position := pos.value);
        case "layer" =>
          if |child.arguments| == 0 { return None; }
          var l := ParseLayer(GetString(child.arguments[0]));
          if l.None? { return None; }
          property := property.(layer := l.value);
        case "hide" =>
          property := property.(hidden := Some(|child.arguments| > 0 && GetString(child.arguments[0]) == "yes"));
        case "unlocked" =>
          property := property.(unlocked := Some(|child.arguments| > 0 && GetString(child.arguments[0]) == "yes"));
        case "uuid" =>
          if |child.arguments| == 0 { return None; }
          property := property.(uuid := Some(GetString(child.arguments[0])));
        case "effects" =>
          var e := DeserializeEffect(child);
          if e.None? { return None; }
          property := property.(effects := e.value);
        case _ =>
          return None;
      }
      i := i + 1;
    }
    return Some(property);
  }

  /** The property as it comes back: an empty value text reads as no value. */
  function PropertyBack(p: FootprintProperty): FootprintProperty
  {
    p.(value := ValueOfText(ValueText(p.value)))
  }

  lemma PropertyHeadRead(p: FootprintProperty)
    requires p.position.name == "at"
    ensures Fold(InitialProperty(p.key, ValueText(p.value)),
                 [WriteScalar3D(p.position), FromSingleArgument("layer", QuotedString(LayerName(p.layer), Neutral))],
                 PropertyStep())
         == Some(InitialProperty(p.key, ValueText(p.value)).(position := p.position, layer := p.layer))
  {
    var p0 := InitialProperty(p.key, ValueText(p.value));
    var p1 := p0.(position := p.position);
    var p2 := p1.(layer := p.layer);
    var at := WriteScalar3D(p.position);
    var layer := FromSingleArgument("layer", QuotedString(LayerName(p.layer), Neutral));
    Scalar3DRoundTrip(p.position);
    ParseLayerName(p.layer);
    assert PropertyChild(p0, at) == Some(p1);
    assert PropertyChild(p1, layer) == Some(p2);
    FoldTwo(p0, at, layer, PropertyStep(), p1, p2);
  }

  lemma HideRead(q: FootprintProperty, flag: Option<bool>)
    requires q.hidden.None?
    ensures Fold(q, Optional(FlagNode("hide", flag)), PropertyStep()) == Some(q.(hidden := flag))
  {
    FoldOptional(q, FlagNode("hide", flag), PropertyStep());
  }

  lemma UnlockedRead(q: FootprintProperty, flag: Option<bool>)
    requires q.unlocked.None?
    ensures Fold(q, Optional(FlagNode("unlocked", flag)), PropertyStep()) == Some(q.(unlocked := flag))
  {
    FoldOptional(q, FlagNode("unlocked", flag), PropertyStep());
  }

  lemma UuidRead(q: FootprintProperty, uuid: Option<string>)
    requires q.uuid.None?
    ensures Fold(q, Optional(QuotedNode("uuid", uuid)), PropertyStep()) == Some(q.(uuid := uuid))
  {
    FoldOptional(q, QuotedNode("uuid", uuid), PropertyStep());
  }

  lemma EffectsRead(q: FootprintProperty, e: SyntaxItem, x: TextEffect)
    requires e.name == "effects" && ReadEffect(e) == Some(x)
    ensures Fold(q, [e], PropertyStep()) == Some(q.(effects := x))
  {
    FoldOne(q, e, PropertyStep());
  }

  /** A property node whose arguments start with `key` and `text` and whose children read as `result` reads as `result`. */
  lemma ReadPropertyLayout(s: SyntaxItem, key: string, text: string, result: FootprintProperty)
    requires |s.arguments| >= 2 && GetString(s.arguments[0]) == key && GetString(s.arguments[1]) == text
    requires Fold(InitialProperty(key, text), s.children, PropertyStep()) == Some(result)
    ensures ReadFootprintProperty(s) == Some(result)
  {
  }

  /**
   * The written children, with any effects node that reads as the
   * property's effects, read onto the property the written arguments start,
   * give the property back.
   */
  lemma PropertyChildrenRead(p: FootprintProperty, e: SyntaxItem)
    requires p.position.name == "at"
    requires e.name == "effects" && ReadEffect(e) == Some(p.effects)
    ensures Fold(InitialProperty(p.key, ValueText(p.value)), PropertyChildList(p, e), PropertyStep()) == Some(PropertyBack(p))
  {
    var p0 := InitialProperty(p.key, ValueText(p.value));
    var p2 := p0.(position := p.position, layer := p.layer);
    var p3 := p2.(hidden := p.hidden);
    var p4 := p3.(unlocked := p.unlocked);
    var p5 := p4.(uuid := p.uuid);
    PropertyHeadRead(p);
    HideRead(p2, p.hidden);
    UnlockedRead(p3, p.unlocked);
    UuidRead(p4, p.uuid);
    EffectsRead(p5, e, p.effects);
    FoldJoin5(p0, [WriteScalar3D(p.position), FromSingleArgument("layer", QuotedString(LayerName(p.layer), Neutral))],
              Optional(FlagNode("hide", p.hidden)), Optional(FlagNode("unlocked", p.unlocked)),
              Optional(QuotedNode("uuid", p.uuid)), [e], PropertyStep(),
              p2, p3, p4, p5, p5.(effects := p.effects));
    PropertyBackFields(p, p5.(effects := p.effects));
  }

  lemma PropertyBackFields(p: FootprintProperty, q: FootprintProperty)
    requires q.key == p.key && q.value == ValueOfText(ValueText(p.value)) && q.position == p.position
    requires q.layer == p.layer && q.hidden == p.hidden && q.unlocked == p.unlocked && q.uuid == p.uuid
    requires q.effects == p.effects
    ensures q == PropertyBack(p)
  {
  }

  /**
   * A property whose position carries the node name `at` is read back from
   * its written form, except that an empty value comes back as no value.
   */
  lemma FootprintPropertyRoundTrip(p: FootprintProperty)
    requires p.position.name == "at"
    ensures WriteFootprintProperty(p).name == "property"
    ensures ReadFootprintProperty(WriteFootprintProperty(p)) == Some(PropertyBack(p))
  {
    EffectRoundTrip(p.effects);
    PropertyChildrenRead(p, WriteEffect(p.effects));
    ReadPropertyLayout(WriteFootprintProperty(p), p.key, ValueText(p.value), PropertyBack(p));
  }

  /** The position and layer children are placed None throughout. */
  lemma PropertyHeadNormal(p: FootprintProperty)
    ensures Map([WriteScalar3D(p.position), FromSingleArgument("layer", QuotedString(LayerName(p.layer), Neutral))], Normalize)
         == [WriteScalar3D(p.position), FromSingleArgument("layer", QuotedString(LayerName(p.layer), Neutral))]
  {
    var at, layer := WriteScalar3D(p.position), FromSingleArgument("layer", QuotedString(LayerName(p.layer), Neutral));
    assert Settled(at) && Settled(layer);
    NormalizeSettled(at);
    NormalizeSettled(layer);
    MapTwo(at, layer, Normalize);
  }

  /** Five runs of children of which the first four are their own normal forms: only the last node changes. */
  lemma NormalLastChanges(a: seq<SyntaxItem>, b: seq<SyntaxItem>, c: seq<SyntaxItem>, d: seq<SyntaxItem>, e: SyntaxItem)
    requires Map(a, Normalize) == a && Map(b, Normalize) == b && Map(c, Normalize) == c && Map(d, Normalize) == d
    ensures Map(a + b + c + d + [e], Normalize) == a + b + c + d + [Normalize(e)]
  {
    MapConcat(a, b, Normalize);
    MapConcat(a + b, c, Normalize);
    MapConcat(a + b + c, d, Normalize);
    MapConcat(a + b + c + d, [e], Normalize);
  }

  /** Printed and parsed again, the written children keep their form, except the effects node, which is normalised. */
  lemma PropertyChildrenReparsed(p: FootprintProperty, e: SyntaxItem)
    ensures Map(PropertyChildList(p, e), Normalize) == PropertyChildList(p, Normalize(e))
  {
    var front := [WriteScalar3D(p.position), FromSingleArgument("layer", QuotedString(LayerName(p.layer), Neutral))];
    var hides, unlocks, uuids := Optional(FlagNode("hide", p.hidden)), Optional(FlagNode("unlocked", p.unlocked)),
                                Optional(QuotedNode("uuid", p.uuid));
    assert PropertyChildList(p, e) == front + hides + unlocks + uuids + [e];
    assert PropertyChildList(p, Normalize(e)) == front + hides + unlocks + uuids + [Normalize(e)];
    PropertyHeadNormal(p);
    OptionalNormal(FlagNode("hide", p.hidden));
    OptionalNormal(FlagNode("unlocked", p.unlocked));
    OptionalNormal(QuotedNode("uuid", p.uuid));
    NormalLastChanges(front, hides, unlocks, uuids, e);
  }

  /** A property printed and parsed again: both arguments placed None, and only the effects child normalised. */
  lemma PropertyNormalForm(p: FootprintProperty)
    ensures Normalize(WriteFootprintProperty(p))
         == SyntaxItem("property", [QuotedString(p.key, Neutral), QuotedString(ValueText(p.value), Neutral)],
                       PropertyChildList(p, Normalize(WriteEffect(p.effects))))
  {
    var w := WriteFootprintProperty(p);
    NormalizeLeadingStart(w);
    NormalizeMapsChildren(w);
    PropertyChildrenReparsed(p, WriteEffect(p.effects));
  }

  /**
   * A property printed and parsed again reads back as from its tree: the
   * key loses its Start placement and the effects their End-placed `hide`,
   * neither of which the reader looks at.
   */
  lemma PropertyReparsed(p: FootprintProperty)
    requires p.position.name == "at"
    ensures Normalize(WriteFootprintProperty(p)).name == "property"
    ensures ReadFootprintProperty(Normalize(WriteFootprintProperty(p))) == Some(PropertyBack(p))
  {
    var e := Normalize(WriteEffect(p.effects));
    var n := SyntaxItem("property", [QuotedString(p.key, Neutral), QuotedString(ValueText(p.value), Neutral)],
                        PropertyChildList(p, e));
    PropertyNormalForm(p);
    EffectReparsed(p.effects);
    PropertyChildrenRead(p, e);
    ReadPropertyLayout(n, p.key, ValueText(p.value), PropertyBack(p));
  }

  /** The key and value of a property that was read are its first two arguments, an empty value text giving no value. */
  lemma PropertyKeyValue(s: SyntaxItem)
    requires ReadFootprintProperty(s).Some?
    ensures |s.arguments| >= 2
    ensures ReadFootprintProperty(s).value.key == GetString(s.arguments[0])
    ensures ReadFootprintProperty(s).value.value == ValueOfText(GetString(s.arguments[1]))
  {
    var p0 := InitialProperty(GetString(s.arguments[0]), GetString(s.arguments[1]));
    FoldKeeps(p0, s.children, PropertyStep(), (p: FootprintProperty) => p.key == p0.key && p.value == p0.value);
  }

  /** A child outside the six accepted names is rejected. */
  lemma PropertyRejectsUnknown(s: SyntaxItem, k: nat)
    requires |s.arguments| >= 2 && k < |s.children|
    requires s.children[k].name !in {"at", "layer", "hide", "unlocked", "uuid", "effects"}
    ensures ReadFootprintProperty(s).None?
  {
    FoldFails(InitialProperty(GetString(s.arguments[0]), GetString(s.arguments[1])), s.children, PropertyStep(), k);
  }

  // ---------------------------------------------------------------------
  // FootprintModel: `(model file [(at (xyz ..))] [(scale (xyz ..))] [(rotate (xyz ..))] [(offset (xyz ..))] [(opacity o)])`
  // ---------------------------------------------------------------------

  datatype FootprintModel = FootprintModel(file: string, at: Option<Scalar3D>, scale: Option<Scalar3D>,
                                           rotate: Option<Scalar3D>, offset: Option<Scalar3D>, opacity: Option<Num>)

  /** `from_single_child(name, v.serialize())` for a vector that is set. */
  function VectorNode(name: string, v: Option<Scalar3D>): Option<SyntaxItem>
  {
    if v.Some? then Some(FromSingleChild(name, WriteScalar3D(v.value))) else None
  }

  function WriteModel(m: FootprintModel): SyntaxItem
  {
    SyntaxItem("model", [Identifier(m.file, Neutral)],
      Optional(VectorNode("at", m.at)) + Optional(VectorNode("scale", m.scale)) + Optional(VectorNode("rotate", m.rotate))
      + Optional(VectorNode("offset", m.offset)) + Optional(NumberChild("opacity", m.opacity)))
  }

  /** The vector inside a wrapper node: its first child named `xyz`, which must exist. */
  function ReadVector(c: SyntaxItem): Option<Scalar3D>
  {
    var xyz :- GetNamedChild(c, "xyz");
    ReadScalar3D(xyz)
  }

  /** One child of `model`. */
  function ModelChild(m: FootprintModel, c: SyntaxItem): Option<FootprintModel>
  {
    match c.name
    case "at" => var v :- ReadVector(c); Some(m.(at := Some(v)))
    case "scale" => var v :- ReadVector(c); Some(m.(scale := Some(v)))
    case "rotate" => var v :- ReadVector(c); Some(m.(rotate := Some(v)))
    case "offset" => var v :- ReadVector(c); Some(m.(offset := Some(v)))
    case "opacity" => var o :- NumberAt(c, 0); Some(m.(opacity := Some(o)))
    case _ => None
  }

  function ModelStep(): (FootprintModel, SyntaxItem) -> Option<FootprintModel>
  {
    (m: FootprintModel, c: SyntaxItem) => ModelChild(m, c)
  }

  /** `FootprintModel::deserialize` as a function: the file, then the children. */
  function ReadModel(s: SyntaxItem): Option<FootprintModel>
  {
    var file :- StringAt(s, 0);
    Fold(FootprintModel(file, None, None, None, None, None), s.children, ModelStep())
  }

  /** `FootprintModel::deserialize`: the loop over the children. */
  method DeserializeModel(syntax: SyntaxItem) returns (r: Option<FootprintModel>)
    ensures r == ReadModel(syntax)
  {
    if |syntax.arguments| == 0 {
      return None;
    }
    var model := FootprintModel(GetString(syntax.arguments[0]), None, None, None, None, None);
    var i := 0;
    assert syntax.children[0..] == syntax.children;
    while i < |syntax.children|
      invariant i <= |syntax.children|
      invariant ReadModel(syntax) == Fold(model, syntax.children[i..], ModelStep())
    {
      FoldAdvance(model, syntax.children, i, ModelStep());
      var child := syntax.children[i];
      if child.name == "opacity" {
        var o := NumberAt(child, 0);
        if o.None? { return None; }
        model := model.(opacity := Some(o.value));
      } else {
        var v := ReadVector(child);
        match child.name {
          case "at" =>
            if v.None? { return None; }
            model := model.(at := Some(v.value));
          case "scale" =>
            if v.None? { return None; }
            model := model.(scale := Some(v.value));
          case "rotate" =>
            if v.None? { return None; }
            model := model.(rotate := Some(v.value));
          case "offset" =>
            if v.None? { return None; }
            model := model.(offset := Some(v.value));
          case _ =>
            return None;
        }
      }
      i := i + 1;
    }
    return Some(model);
  }

  /** The vectors are named `xyz`, the name the reader looks for inside each wrapper. */
  predicate XyzVectors(m: FootprintModel)
  {
    && (m.at.Some? ==> m.at.value.name == "xyz")
    && (m.scale.Some? ==> m.scale.value.name == "xyz")
    && (m.rotate.Some? ==> m.rotate.value.name == "xyz")
    && (m.offset.Some? ==> m.offset.value.name == "xyz")
  }

  lemma VectorRead(name: string, v: Scalar3D)
    requires v.name == "xyz"
    ensures ReadVector(FromSingleChild(name, WriteScalar3D(v))) == Some(v)
  {
    var c := FromSingleChild(name, WriteScalar3D(v));
    assert c.children[0].name == "xyz";
    NamedChildAt(c, 0);
  }

  lemma AtRead(q: FootprintModel, v: Option<Scalar3D>)
    requires q.at.None?
    requires v.Some? ==> v.value.name == "xyz"
    ensures Fold(q, Optional(VectorNode("at", v)), ModelStep()) == Some(q.(at := v))
  {
    if v.Some? { VectorRead("at", v.value); }
    FoldOptional(q, VectorNode("at", v), ModelStep());
  }

  lemma ScaleRead(q: FootprintModel, v: Option<Scalar3D>)
    requires q.scale.None?
    requires v.Some? ==> v.value.name == "xyz"
    ensures Fold(q, Optional(VectorNode("scale", v)), ModelStep()) == Some(q.(scale := v))
  {
    if v.Some? { VectorRead("scale", v.value); }
    FoldOptional(q, VectorNode("scale", v), ModelStep());
  }

  lemma RotateRead(q: FootprintModel, v: Option<Scalar3D>)
    requires q.rotate.None?
    requires v.Some? ==> v.value.name == "xyz"
    ensures Fold(q, Optional(VectorNode("rotate", v)), ModelStep()) == Some(q.(rotate := v))
  {
    if v.Some? { VectorRead("rotate", v.value); }
    FoldOptional(q, VectorNode("rotate", v), ModelStep());
  }

  lemma OffsetRead(q: FootprintModel, v: Option<Scalar3D>)
    requires q.offset.None?
    requires v.Some? ==> v.value.name == "xyz"
    ensures Fold(q, Optional(VectorNode("offset", v)), ModelStep()) == Some(q.(offset := v))
  {
    if v.Some? { VectorRead("offset", v.value); }
    FoldOptional(q, VectorNode("offset", v), ModelStep());
  }

  lemma OpacityRead(q: FootprintModel, o: Option<Num>)
    requires q.opacity.None?
    ensures Fold(q, Optional(NumberChild("opacity", o)), ModelStep()) == Some(q.(opacity := o))
  {
    FoldOptional(q, NumberChild("opacity", o), ModelStep());
  }

  /** An optional node placed None throughout gives a run of such nodes. */
  lemma OptionalSettled(o: Option<SyntaxItem>)
    requires o.Some? ==> Settled(o.value)
    ensures forall c | c in Optional(o) :: Settled(c)
  {
  }

  lemma VectorNodeSettled(name: string, v: Option<Scalar3D>)
    ensures forall c | c in Optional(VectorNode(name, v)) :: Settled(c)
  {
    if v.Some? {
      SettledNode(name, [], [WriteScalar3D(v.value)]);
    }
  }

  /** The model node is placed None throughout: its file word and the numbers of its vectors. */
  lemma ModelSettled(m: FootprintModel)
    ensures Settled(WriteModel(m))
  {
    var w := WriteModel(m);
    VectorNodeSettled("at", m.at);
    VectorNodeSettled("scale", m.scale);
    VectorNodeSettled("rotate", m.rotate);
    VectorNodeSettled("offset", m.offset);
    OptionalSettled(NumberChild("opacity", m.opacity));
    SettledNode(w.name, w.arguments, w.children);
  }

  lemma ModelRoundTrip(m: FootprintModel)
    requires XyzVectors(m)
    ensures WriteModel(m).name == "model"
    ensures ReadModel(WriteModel(m)) == Some(m)
  {
    var step := ModelStep();
    var m0 := FootprintModel(m.file, None, None, None, None, None);
    var m1 := m0.(at := m.at);
    var m2 := m1.(scale := m.scale);
    var m3 := m2.(rotate := m.rotate);
    var m4 := m3.(offset := m.offset);
    AtRead(m0, m.at);
    ScaleRead(m1, m.scale);
    RotateRead(m2, m.rotate);
    OffsetRead(m3, m.offset);
    OpacityRead(m4, m.opacity);
    FoldJoin5(m0, Optional(VectorNode("at", m.at)), Optional(VectorNode("scale", m.scale)),
              Optional(VectorNode("rotate", m.rotate)), Optional(VectorNode("offset", m.offset)),
              Optional(NumberChild("opacity", m.opacity)), step, m1, m2, m3, m4, m);
  }

  /** Each child sets the optional field of its own name and leaves the others as they were. */
  lemma ModelChildFields(m: FootprintModel, c: SyntaxItem)
    requires ModelChild(m, c).Some?
    ensures ModelChild(m, c).value.file == m.file
    ensures ModelChild(m, c).value.at.Some? == (c.name == "at" || m.at.Some?)
    ensures ModelChild(m, c).value.scale.Some? == (c.name == "scale" || m.scale.Some?)
    ensures ModelChild(m, c).value.rotate.Some? == (c.name == "rotate" || m.rotate.Some?)
    ensures ModelChild(m, c).value.offset.Some? == (c.name == "offset" || m.offset.Some?)
    ensures ModelChild(m, c).value.opacity.Some? == (c.name == "opacity" || m.opacity.Some?)
  {
  }

  /** The optional fields of a model that was read are present exactly when their child is. */
  lemma ModelOptionalFields(s: SyntaxItem)
    requires ReadModel(s).Some?
    ensures ReadModel(s).value.file == GetString(s.arguments[0])
    ensures ReadModel(s).value.at.Some? <==> GetNamedChild(s, "at").Some?
    ensures ReadModel(s).value.scale.Some? <==> GetNamedChild(s, "scale").Some?
    ensures ReadModel(s).value.rotate.Some? <==> GetNamedChild(s, "rotate").Some?
    ensures ReadModel(s).value.offset.Some? <==> GetNamedChild(s, "offset").Some?
    ensures ReadModel(s).value.opacity.Some? <==> GetNamedChild(s, "opacity").Some?
  {
    var step := ModelStep();
    var m0 := FootprintModel(GetString(s.arguments[0]), None, None, None, None, None);
    forall m: FootprintModel, c: SyntaxItem | step(m, c).Some?
      ensures step(m, c).value.file == m.file
      ensures step(m, c).value.at.Some? == (c.name == "at" || m.at.Some?)
      ensures step(m, c).value.scale.Some? == (c.name == "scale" || m.scale.Some?)
      ensures step(m, c).value.rotate.Some? == (c.name == "rotate" || m.rotate.Some?)
      ensures step(m, c).value.offset.Some? == (c.name == "offset" || m.offset.Some?)
      ensures step(m, c).value.opacity.Some? == (c.name == "opacity" || m.opacity.Some?)
    {
      ModelChildFields(m, c);
    }
    FoldKeeps(m0, s.children, step, (m: FootprintModel) => m.file == m0.file);
    FoldPresence(m0, s.children, step, (m: FootprintModel) => m.at.Some?, (c: SyntaxItem) => c.name == "at");
    FoldPresence(m0, s.children, step, (m: FootprintModel) => m.scale.Some?, (c: SyntaxItem) => c.name == "scale");
    FoldPresence(m0, s.children, step, (m: FootprintModel) => m.rotate.Some?, (c: SyntaxItem) => c.name == "rotate");
    FoldPresence(m0, s.children, step, (m: FootprintModel) => m.offset.Some?, (c: SyntaxItem) => c.name == "offset");
    FoldPresence(m0, s.children, step, (m: FootprintModel) => m.opacity.Some?, (c: SyntaxItem) => c.name == "opacity");
  }

  // ---------------------------------------------------------------------
  // ZoneConnectMode: `(zone_connect 0|1|2)`
  // ---------------------------------------------------------------------

  datatype ZoneConnectMode = NotConnected | ThermalRelief | SolidFill

  function ZoneConnectCode(m: ZoneConnectMode): nat
  {
    match m
    case NotConnected => 0
    case ThermalRelief => 1
    case SolidFill => 2
  }

  /** The mode a `u8` code names; None is the panic on any other code. */
  function ZoneConnectOfCode(k: nat): (r: Option<ZoneConnectMode>)
    ensures r.Some? <==> k <= 2
    ensures r.Some? ==> ZoneConnectCode(r.value) == k
  {
    if k == 0 then Some(NotConnected) else if k == 1 then Some(ThermalRelief) else if k == 2 then Some(SolidFill) else None
  }

  /** The footprint's `zone_connect` child: the mode's code as a number. */
  function WriteZoneConnect(m: ZoneConnectMode): SyntaxItem
  {
    FromSingleArgument("zone_connect", Number(Finite(ZoneConnectCode(m) as real), Neutral))
  }

  /**
   * The footprint reader's `zone_connect` branch as the source has it: it
   * looks for a `zone_connection` child inside the node and reads the code
   * from there, cast to `u8`; a missing child is the panic.
   */
  function ReadZoneConnectAsWritten(c: SyntaxItem): Option<ZoneConnectMode>
  {
    var inner :- GetNamedChild(c, "zone_connection");
    var n :- NumberAt(inner, 0);
    ZoneConnectOfCode(CastUnsigned(n, U8_MAX))
  }

  /** The `zone_connect` reader that matches the writer: the code is the node's own first argument, cast to `u8`. */
  function ReadZoneConnect(c: SyntaxItem): Option<ZoneConnectMode>
  {
    var n :- NumberAt(c, 0);
    ZoneConnectOfCode(CastUnsigned(n, U8_MAX))
  }

  /** The source's reader never accepts the node its own writer produces. */
  lemma ZoneConnectAsWrittenRejectsOwnOutput(m: ZoneConnectMode)
    ensures ReadZoneConnectAsWritten(WriteZoneConnect(m)).None?
  {
    assert WriteZoneConnect(m).children == [];
  }

  /** What the source's reader does accept: the code nested one level deeper. */
  lemma ZoneConnectAsWrittenReadsNested(m: ZoneConnectMode)
    ensures ReadZoneConnectAsWritten(FromSingleChild("zone_connect", WriteZoneConnect(m).(name := "zone_connection")))
         == Some(m)
  {
    var inner := WriteZoneConnect(m).(name := "zone_connection");
    NamedChildAt(FromSingleChild("zone_connect", inner), 0);
    CastWhole(ZoneConnectCode(m), U8_MAX);
  }

  lemma ZoneConnectRoundTrip(m: ZoneConnectMode)
    ensures WriteZoneConnect(m).name == "zone_connect"
    ensures ReadZoneConnect(WriteZoneConnect(m)) == Some(m)
  {
    CastWhole(ZoneConnectCode(m), U8_MAX);
  }

  /** The corrected reader accepts exactly the numbers whose `u8` cast is 0, 1 or 2. */
  lemma ZoneConnectCodes(c: SyntaxItem)
    ensures ReadZoneConnect(c).Some? <==> NumberAt(c, 0).Some? && CastUnsigned(NumberAt(c, 0).value, U8_MAX) <= 2
    ensures ReadZoneConnect(c).Some? ==> ZoneConnectCode(ReadZoneConnect(c).value) == CastUnsigned(NumberAt(c, 0).value, U8_MAX)
  {
  }

  // ---------------------------------------------------------------------
  // The edit timestamp: `(tedit <uppercase hex of the Unix seconds>)`
  // ---------------------------------------------------------------------

  predicate IsUpperHexDigit(c: char) { '0' <= c <= '9' || 'A' <= c <= 'F' }

  function HexDigitChar(d: nat): (c: char)
    requires d < 16
    ensures IsUpperHexDigit(c)
  {
    if d < 10 then ('0' as int + d) as char else ('A' as int + d - 10) as char
  }

  /** The value of a hexadecimal digit of either case; None for any other character. */
  function HexDigitValue(c: char): (r: Option<nat>)
    ensures r.Some? ==> r.value < 16
  {
    if '0' <= c <= '9' then Some(c as int - '0' as int)
    else if 'A' <= c <= 'F' then Some(c as int - 'A' as int + 10)
    else if 'a' <= c <= 'f' then Some(c as int - 'a' as int + 10)
    else None
  }

  /** `format!("{:X}", n)` for `n >= 0`: uppercase digits, most significant first, no leading zeros. */
  function HexText(n: nat): (r: string)
    ensures |r| > 0 && forall i | 0 <= i < |r| :: IsUpperHexDigit(r[i])
  {
    if n < 16 then [HexDigitChar(n)] else HexText(n / 16) + [HexDigitChar(n % 16)]
  }

  /** The value of a run of hexadecimal digits; None when one character is not a digit. */
  function HexValue(s: string): Option<nat>
  {
    if s == [] then Some(0)
    else
      var high :- HexValue(s[..|s| - 1]);
      var low :- HexDigitValue(s[|s| - 1]);
      Some(high * 16 + low)
  }

  /** `format!("{:X}", ts)` on an `i64`: a negative value prints as its 64-bit two's complement. */
  function TimestampText(ts: I64): string
  {
    HexText(if ts < 0 then ts + 0x1_0000_0000_0000_0000 else ts)
  }

  /**
   * `i64::from_str_radix(s, 16)`: an optional sign, then at least one digit
   * of either case; None for an empty digit run, a non-digit or a value
   * outside `i64`.
   */
  function ParseHexI64(s: string): (r: Option<I64>)
  {
    var negative := |s| > 0 && s[0] == '-';
    var digits := if |s| > 0 && (s[0] == '-' || s[0] == '+') then s[1..] else s;
    if digits == [] then None
    else
      var v :- HexValue(digits);
      var magnitude: int := v;
      if negative then (if magnitude <= I64_MAX + 1 then Some(-magnitude) else None)
      else (if magnitude <= I64_MAX then Some(magnitude) else None)
  }

  lemma {:induction false} HexTextValue(n: nat)
    ensures HexValue(HexText(n)) == Some(n)
    decreases n
  {
    var t := HexText(n);
    if n < 16 {
      assert t[..|t| - 1] == [];
    } else {
      HexTextValue(n / 16);
      assert t[..|t| - 1] == HexText(n / 16);
    }
  }

  /** A timestamp at or after 1970 is read back from its hexadecimal text. */
  lemma TimestampRoundTrip(ts: I64)
    requires ts >= 0
    ensures ParseHexI64(TimestampText(ts)) == Some(ts)
  {
    HexTextValue(ts);
    var t := TimestampText(ts);
    assert IsUpperHexDigit(t[0]);
  }

  /** A timestamp before 1970 prints as a two's complement too large for `i64`, so reading it back fails. */
  lemma NegativeTimestampUnreadable(ts: I64)
    requires ts < 0
    ensures ParseHexI64(TimestampText(ts)).None?
  {
    HexTextValue(ts + 0x1_0000_0000_0000_0000);
    var t := TimestampText(ts);
    assert IsUpperHexDigit(t[0]);
  }

  /** The parser's sign handling: a leading `-` negates the digits that follow. */
  lemma ParseHexNegative(digits: string)
    requires digits != [] && HexValue(digits).Some? && HexValue(digits).value <= I64_MAX + 1
    ensures ParseHexI64("-" + digits) == Some(-(HexValue(digits).value as int))
  {
    assert ("-" + digits)[1..] == digits;
  }
}

/**
 * The records of `src/kicad/model/common.rs` shared by symbols and
 * footprints: positions, ids, text effects (font and justification) and
 * stroke definitions, each with its S-expression writer (`serialize`) and
 * reader (`deserialize`). A reader returns None where the source panics.
 */
module Common {
  import opened Wrappers
  import opened Numbers
  import opened Syntax
  import opened Folding
  import opened SymbolStyles
  import opened TreeParser

  /** `SyntaxItem::from_single_argument(name, Number(v, None))` for an optional value. */
  function NumberChild(name: string, o: Option<Num>): Option<SyntaxItem>
  {
    if o.Some? then Some(FromSingleArgument(name, Number(o.value, Neutral))) else None
  }

  /** `(name yes)` or `(name no)` for a flag that is set. */
  function FlagNode(name: string, flag: Option<bool>): Option<SyntaxItem>
  {
    if flag.Some? then Some(FromSingleArgument(name, Identifier(if flag.value then "yes" else "no", Neutral))) else None
  }

  /** `(name "text")` for a text that is set. */
  function QuotedNode(name: string, text: Option<string>): Option<SyntaxItem>
  {
    if text.Some? then Some(FromSingleArgument(name, QuotedString(text.value, Neutral))) else None
  }

  // ---------------------------------------------------------------------
  // Position: `(at x y [angle])`
  // ---------------------------------------------------------------------

  datatype Position = Position(x: Num, y: Num, angle: Option<Num>)

  function WritePosition(p: Position): SyntaxItem
  {
    SyntaxItem("at", [Number(p.x, Neutral), Number(p.y, Neutral)]
                     + Optional(if p.angle.Some? then Some(Number(p.angle.value, Neutral)) else None), [])
  }

  /** `Position::deserialize`: two numbers and an optional third; None when one is missing or not a number. */
  function ReadPosition(s: SyntaxItem): Option<Position>
  {
    var x :- NumberAt(s, 0);
    var y :- NumberAt(s, 1);
    if |s.arguments| > 2 then
      var angle :- NumberAt(s, 2);
      Some(Position(x, y, Some(angle)))
    else
      Some(Position(x, y, None))
  }

  /** Two arguments without an angle, three with one, and the position is read back. */
  lemma PositionRoundTrip(p: Position)
    ensures |WritePosition(p).arguments| == if p.angle.Some? then 3 else 2
    ensures ReadPosition(WritePosition(p)) == Some(p)
  {
  }

  // ---------------------------------------------------------------------
  // Id: `(id n)`
  // ---------------------------------------------------------------------

  function WriteId(id: U32): SyntaxItem
  {
    SyntaxItem("id", [Number(Finite(id as real), Neutral)], [])
  }

  /** `Id::deserialize`: the first argument cast to `u32`. */
  function ReadId(s: SyntaxItem): (r: Option<U32>)
    ensures r.Some? <==> |s.arguments| > 0 && s.arguments[0].Number?
  {
    var n :- NumberAt(s, 0);
    Some(CastUnsigned(n, U32_MAX))
  }

  lemma IdRoundTrip(id: U32)
    ensures ReadId(WriteId(id)) == Some(id)
  {
    CastWhole(id, U32_MAX);
  }

  /** A fractional id is truncated toward zero; a negative one becomes 0. */
  lemma IdTruncates(v: real, p: PositionPreference)
    ensures ReadId(SyntaxItem("id", [Number(Finite(v), p)], [])) == Some(if v <= 0.0 then 0 else if v.Floor > U32_MAX then U32_MAX else v.Floor)
  {
  }

  // ---------------------------------------------------------------------
  // FontSize: `(size width height)`
  // ---------------------------------------------------------------------

  datatype FontSize = FontSize(width: Num, height: Num)

  function WriteFontSize(f: FontSize): SyntaxItem
  {
    SyntaxItem("size", [Number(f.width, Neutral), Number(f.height, Neutral)], [])
  }

  function ReadFontSize(s: SyntaxItem): (r: Option<FontSize>)
    ensures r.Some? <==> |s.arguments| >= 2 && s.arguments[0].Number? && s.arguments[1].Number?
  {
    var width :- NumberAt(s, 0);
    var height :- NumberAt(s, 1);
    Some(FontSize(width, height))
  }

  lemma FontSizeRoundTrip(f: FontSize)
    ensures ReadFontSize(WriteFontSize(f)) == Some(f)
  {
  }

  // ---------------------------------------------------------------------
  // TextJustify: `(justify [top|bottom] [left|right] [mirror])`
  // ---------------------------------------------------------------------

  datatype Horizontal = Left | Right
  datatype Vertical = Top | Bottom

  datatype TextJustify = TextJustify(horizontal: Option<Horizontal>, vertical: Option<Vertical>, mirror: bool)

  function DefaultJustify(): TextJustify { TextJustify(None, None, false) }

  function VerticalArgument(v: Option<Vertical>): Option<SyntaxArgument>
  {
    match v
    case None => None
    case Some(Top) => Some(Identifier("top", Neutral))
    case Some(Bottom) => Some(Identifier("bottom", Neutral))
  }

  function HorizontalArgument(h: Option<Horizontal>): Option<SyntaxArgument>
  {
    match h
    case None => None
    case Some(Left) => Some(Identifier("left", Neutral))
    case Some(Right) => Some(Identifier("right", Neutral))
  }

  function MirrorArgument(mirror: bool): Option<SyntaxArgument>
  {
    if mirror then Some(Identifier("mirror", Neutral)) else None
  }

  /** The vertical, horizontal and mirror words, each only when set. */
  function WriteJustify(j: TextJustify): SyntaxItem
  {
    SyntaxItem("justify",
      Optional(VerticalArgument(j.vertical)) + Optional(HorizontalArgument(j.horizontal)) + Optional(MirrorArgument(j.mirror)),
      [])
  }

  /** One argument of `justify`: a word sets its field; any other word is the panic. */
  function JustifyArgument(j: TextJustify, a: SyntaxArgument): Option<TextJustify>
  {
    match GetString(a)
    case "left" => Some(j.(horizontal := Some(Left)))
    case "right" => Some(j.(horizontal := Some(Right)))
    case "top" => Some(j.(vertical := Some(Top)))
    case "bottom" => Some(j.(vertical := Some(Bottom)))
    case "mirror" => Some(j.(mirror := true))
    case _ => None
  }

  function JustifyStep(): (TextJustify, SyntaxArgument) -> Option<TextJustify>
  {
    (j: TextJustify, a: SyntaxArgument) => JustifyArgument(j, a)
  }

  /** `TextJustify::deserialize` as a function: the arguments applied in order to the default. */
  function ReadJustify(s: SyntaxItem): Option<TextJustify>
  {
    Fold(DefaultJustify(), s.arguments, JustifyStep())
  }

  /** `TextJustify::deserialize`: the loop over the arguments. */
  method DeserializeJustify(syntax: SyntaxItem) returns (r: Option<TextJustify>)
    ensures r == ReadJustify(syntax)
  {
    var horizontal: Option<Horizontal> := None;
    var vertical: Option<Vertical> := None;
    var mirror := false;
    var i := 0;
    assert syntax.arguments[0..] == syntax.arguments;
    while i < |syntax.arguments|
      invariant i <= |syntax.arguments|
      invariant ReadJustify(syntax) == Fold(TextJustify(horizontal, vertical, mirror), syntax.arguments[i..], JustifyStep())
    {
      FoldAdvance(TextJustify(horizontal, vertical, mirror), syntax.arguments, i, JustifyStep());
      match GetString(syntax.arguments[i]) {
        case "left" => horizontal := Some(Left);
        case "right" => horizontal := Some(Right);
        case "top" => vertical := Some(Top);
        case "bottom" => vertical := Some(Bottom);
        case "mirror" => mirror := true;
        case _ => return None;
      }
      i := i + 1;
    }
    return Some(TextJustify(horizontal, vertical, mirror));
  }

  lemma VerticalStep(j: TextJustify, v: Option<Vertical>)
    requires j.vertical.None?
    ensures Fold(j, Optional(VerticalArgument(v)), JustifyStep()) == Some(j.(vertical := v))
  {
    FoldOptional(j, VerticalArgument(v), JustifyStep());
  }

  lemma HorizontalStep(j: TextJustify, h: Option<Horizontal>)
    requires j.horizontal.None?
    ensures Fold(j, Optional(HorizontalArgument(h)), JustifyStep()) == Some(j.(horizontal := h))
  {
    FoldOptional(j, HorizontalArgument(h), JustifyStep());
  }

  lemma MirrorStep(j: TextJustify, mirror: bool)
    requires !j.mirror
    ensures Fold(j, Optional(MirrorArgument(mirror)), JustifyStep()) == Some(j.(mirror := mirror))
  {
    FoldOptional(j, MirrorArgument(mirror), JustifyStep());
  }

  lemma JustifyRoundTrip(j: TextJustify)
    ensures ReadJustify(WriteJustify(j)) == Some(j)
  {
    var v := Optional(VerticalArgument(j.vertical));
    var h := Optional(HorizontalArgument(j.horizontal));
    var m := Optional(MirrorArgument(j.mirror));
    FoldConcat(DefaultJustify(), v + h, m, JustifyStep());
    FoldConcat(DefaultJustify(), v, h, JustifyStep());
    VerticalStep(DefaultJustify(), j.vertical);
    var j1 := DefaultJustify().(vertical := j.vertical);
    HorizontalStep(j1, j.horizontal);
    MirrorStep(j1.(horizontal := j.horizontal), j.mirror);
  }

  /** Later words override earlier ones: the last argument decides its field. */
  lemma JustifyLastWins(name: string, args: seq<SyntaxArgument>, a: SyntaxArgument, children: seq<SyntaxItem>)
    requires ReadJustify(SyntaxItem(name, args + [a], children)).Some?
    ensures var j := ReadJustify(SyntaxItem(name, args + [a], children)).value;
      && (GetString(a) == "left" ==> j.horizontal == Some(Left))
      && (GetString(a) == "right" ==> j.horizontal == Some(Right))
      && (GetString(a) == "top" ==> j.vertical == Some(Top))
      && (GetString(a) == "bottom" ==> j.vertical == Some(Bottom))
      && (GetString(a) == "mirror" ==> j.mirror)
  {
    FoldSnoc(DefaultJustify(), args, a, JustifyStep());
  }

  /** Any argument other than the five words makes the reader fail. */
  lemma JustifyRejectsUnknown(s: SyntaxItem, k: nat)
    requires k < |s.arguments|
    requires GetString(s.arguments[k]) !in {"left", "right", "top", "bottom", "mirror"}
    ensures ReadJustify(s) == None
  {
    FoldFails(DefaultJustify(), s.arguments, JustifyStep(), k);
  }

  // ---------------------------------------------------------------------
  // Font: `(font [italic] [bold] (size ..) [(face ..)] [(thickness ..)] [(line_spacing ..)])`
  // ---------------------------------------------------------------------

  datatype Font = Font(face: Option<string>, size: FontSize, thickness: Option<Num>, bold: bool, italic: bool,
                       lineSpacing: Option<Num>)

  function DefaultFont(): Font
  {
    Font(None, FontSize(Finite(0.0), Finite(0.0)), None, false, false, None)
  }

  function FaceChild(face: Option<string>): Option<SyntaxItem>
  {
    if face.Some? then Some(FromSingleArgument("face", QuotedString(face.value, Neutral))) else None
  }

  function WriteFont(f: Font): SyntaxItem
  {
    SyntaxItem("font",
      Optional(if f.italic then Some(Identifier("italic", Neutral)) else None)
      + Optional(if f.bold then Some(Identifier("bold", Neutral)) else None),
      [WriteFontSize(f.size)]
      + Optional(FaceChild(f.face))
      + Optional(NumberChild("thickness", f.thickness))
      + Optional(NumberChild("line_spacing", f.lineSpacing)))
  }

  /** One argument of `font`: `bold` or `italic`; anything else is the panic. */
  function FontArgument(f: Font, a: SyntaxArgument): Option<Font>
  {
    match GetString(a)
    case "bold" => Some(f.(bold := true))
    case "italic" => Some(f.(italic := true))
    case _ => None
  }

  /** One child of `font`; a `bold` child sets bold to whether its argument is `yes`. */
  function FontChild(f: Font, c: SyntaxItem): Option<Font>
  {
    match c.name
    case "face" =>
      var v :- StringAt(c, 0);
      Some(f.(face := Some(v)))
    case "thickness" =>
      var v :- NumberAt(c, 0);
      Some(f.(thickness := Some(v)))
    case "line_spacing" =>
      var v :- NumberAt(c, 0);
      Some(f.(lineSpacing := Some(v)))
    case "size" =>
      var v :- ReadFontSize(c);
      Some(f.(size := v))
    case "bold" =>
      var v :- StringAt(c, 0);
      Some(f.(bold := v == "yes"))
    case _ => None
  }

  function FontArgumentStep(): (Font, SyntaxArgument) -> Option<Font>
  {
    (f: Font, a: SyntaxArgument) => FontArgument(f, a)
  }

  function FontChildStep(): (Font, SyntaxItem) -> Option<Font>
  {
    (f: Font, c: SyntaxItem) => FontChild(f, c)
  }

  /** `Font::deserialize` as a function: the arguments, then the children, applied to the default. */
  function ReadFont(s: SyntaxItem): Option<Font>
  {
    Folding.Then(Fold(DefaultFont(), s.arguments, FontArgumentStep()), s.children, FontChildStep())
  }

  /** `Font::deserialize`: a loop over the arguments, then one over the children. */
  method DeserializeFont(syntax: SyntaxItem) returns (r: Option<Font>)
    ensures r == ReadFont(syntax)
  {
    var font := DefaultFont();
    var i := 0;
    assert syntax.arguments[0..] == syntax.arguments;
    while i < |syntax.arguments|
      invariant i <= |syntax.arguments|
      invariant Fold(DefaultFont(), syntax.arguments, FontArgumentStep()) == Fold(font, syntax.arguments[i..], FontArgumentStep())
    {
      FoldAdvance(font, syntax.arguments, i, FontArgumentStep());
      match GetString(syntax.arguments[i]) {
        case "bold" => font := font.(bold := true);
        case "italic" => font := font.(italic := true);
        case _ => return None;
      }
      i := i + 1;
    }
    var j := 0;
    assert syntax.children[0..] == syntax.children;
    while j < |syntax.children|
      invariant j <= |syntax.children|
      invariant ReadFont(syntax) == Fold(font, syntax.children[j..], FontChildStep())
    {
      FoldAdvance(font, syntax.children, j, FontChildStep());
      var child := syntax.children[j];
      match child.name {
        case "face" =>
          if |child.arguments| == 0 { return None; }
          font := font.(face := Some(GetString(child.arguments[0])));
        case "thickness" =>
          if |child.arguments| == 0 || !child.arguments[0].Number? { return None; }
          font := font.(thickness := Some(child.arguments[0].num));
        case "line_spacing" =>
          if |child.arguments| == 0 || !child.arguments[0].Number? { return None; }
          font := font.(lineSpacing := Some(child.arguments[0].num));
        case "size" =>
          var size := ReadFontSize(child);
          if size.None? { return None; }
          font := font.(size := size.value);
        case "bold" =>
          if |child.arguments| == 0 { return None; }
          font := font.(bold := GetString(child.arguments[0]) == "yes");
        case _ => return None;
      }
      j := j + 1;
    }
    return Some(font);
  }

  lemma FontArgumentsRead(f: Font)
    ensures Fold(DefaultFont(), WriteFont(f).arguments, FontArgumentStep())
         == Some(DefaultFont().(italic := f.italic, bold := f.bold))
  {
    var italic := if f.italic then Some(Identifier("italic", Neutral)) else None;
    var bold := if f.bold then Some(Identifier("bold", Neutral)) else None;
    FoldConcat(DefaultFont(), Optional(italic), Optional(bold), FontArgumentStep());
    FoldOptional(DefaultFont(), italic, FontArgumentStep());
    FoldOptional(DefaultFont().(italic := f.italic), bold, FontArgumentStep());
  }

  lemma FontChildrenRead(g: Font, f: Font)
    requires g.face.None? && g.thickness.None? && g.lineSpacing.None?
    ensures Fold(g, WriteFont(f).children, FontChildStep())
         == Some(g.(size := f.size, face := f.face, thickness := f.thickness, lineSpacing := f.lineSpacing))
  {
    var face := FaceChild(f.face);
    var thickness := NumberChild("thickness", f.thickness);
    var spacing := NumberChild("line_spacing", f.lineSpacing);
    var size := [WriteFontSize(f.size)];
    FoldConcat(g, size + Optional(face) + Optional(thickness), Optional(spacing), FontChildStep());
    FoldConcat(g, size + Optional(face), Optional(thickness), FontChildStep());
    FoldConcat(g, size, Optional(face), FontChildStep());
    var g1 := g.(size := f.size);
    assert Fold(g, size, FontChildStep()) == Some(g1) by {
      FontSizeRoundTrip(f.size);
      FoldOptional(g, Some(WriteFontSize(f.size)), FontChildStep());
    }
    FoldOptional(g1, face, FontChildStep());
    var g2 := g1.(face := f.face);
    FoldOptional(g2, thickness, FontChildStep());
    FoldOptional(g2.(thickness := f.thickness), spacing, FontChildStep());
  }

  lemma FontRoundTrip(f: Font)
    ensures ReadFont(WriteFont(f)) == Some(f)
  {
    FontArgumentsRead(f);
    FontChildrenRead(DefaultFont().(italic := f.italic, bold := f.bold), f);
  }

  // ---------------------------------------------------------------------
  // TextEffect: `(effects (font ..) [(justify ..)] [hide])`
  // ---------------------------------------------------------------------

  datatype TextEffect = TextEffect(font: Font, justify: TextJustify, hidden: bool)

  function DefaultEffect(): TextEffect { TextEffect(DefaultFont(), DefaultJustify(), false) }

  /** The `hide` word (placed last) when hidden; a `justify` child only when some justification or mirroring is set. */
  function WriteEffect(e: TextEffect): SyntaxItem
  {
    SyntaxItem("effects",
      if e.hidden then [Identifier("hide", End)] else [],
      [WriteFont(e.font)]
      + Optional(if e.justify.vertical.Some? || e.justify.horizontal.Some? || e.justify.mirror
                 then Some(WriteJustify(e.justify)) else None))
  }

  /** One child of `effects`: a `font` or a `justify`; anything else is the panic. */
  function EffectChild(e: TextEffect, c: SyntaxItem): Option<TextEffect>
  {
    match c.name
    case "font" =>
      var f :- ReadFont(c);
      Some(e.(font := f))
    case "justify" =>
      var j :- ReadJustify(c);
      Some(e.(justify := j))
    case _ => None
  }

  function EffectChildStep(): (TextEffect, SyntaxItem) -> Option<TextEffect>
  {
    (e: TextEffect, c: SyntaxItem) => EffectChild(e, c)
  }

  /** Hidden iff the first argument reads `hide`. */
  predicate HideArgument(s: SyntaxItem)
  {
    |s.arguments| > 0 && GetString(s.arguments[0]) == "hide"
  }

  /** `TextEffect::deserialize` as a function. */
  function ReadEffect(s: SyntaxItem): Option<TextEffect>
  {
    Fold(TextEffect(DefaultFont(), DefaultJustify(), HideArgument(s)), s.children, EffectChildStep())
  }

  /** `TextEffect::deserialize`: the loop over the children, reading each with its own deserializer. */
  method DeserializeEffect(syntax: SyntaxItem) returns (r: Option<TextEffect>)
    ensures r == ReadEffect(syntax)
  {
    var hidden := |syntax.arguments| > 0 && GetString(syntax.arguments[0]) == "hide";
    var font := DefaultFont();
    var justify := DefaultJustify();
    var i := 0;
    assert syntax.children[0..] == syntax.children;
    while i < |syntax.children|
      invariant i <= |syntax.children|
      invariant ReadEffect(syntax) == Fold(TextEffect(font, justify, hidden), syntax.children[i..], EffectChildStep())
    {
      FoldAdvance(TextEffect(font, justify, hidden), syntax.children, i, EffectChildStep());
      var child := syntax.children[i];
      match child.name {
        case "font" =>
          var f := DeserializeFont(child);
          if f.None? { return None; }
          font := f.value;
        case "justify" =>
          var j := DeserializeJustify(child);
          if j.None? { return None; }
          justify := j.value;
        case _ => return None;
      }
      i := i + 1;
    }
    return Some(TextEffect(font, justify, hidden));
  }

  lemma EffectRoundTrip(e: TextEffect)
    ensures ReadEffect(WriteEffect(e)) == Some(e)
  {
    var w := WriteEffect(e);
    assert HideArgument(w) == e.hidden;
    var e0 := TextEffect(DefaultFont(), DefaultJustify(), e.hidden);
    var justify := if e.justify.vertical.Some? || e.justify.horizontal.Some? || e.justify.mirror
                   then Some(WriteJustify(e.justify)) else None;
    FoldConcat(e0, [WriteFont(e.font)], Optional(justify), EffectChildStep());
    FontRoundTrip(e.font);
    var e1 := e0.(font := e.font);
    assert Fold(e0, [WriteFont(e.font)], EffectChildStep()) == Some(e1) by {
      FoldOptional(e0, Some(WriteFont(e.font)), EffectChildStep());
    }
    JustifyRoundTrip(e.justify);
    FoldOptional(e1, justify, EffectChildStep());
  }

  /** The normal form of a node holds the normal forms of its children, in order. */
  lemma NormalizeMapsChildren(t: SyntaxItem)
    ensures Normalize(t).name == t.name
    ensures Normalize(t).children == Map(t.children, Normalize)
  {
    NormalizeNode(t);
  }

  /** A node whose own arguments are placed None keeps them; its children are normalised in place. */
  lemma NormalizeNeutralNode(t: SyntaxItem)
    requires forall a | a in t.arguments :: a.pref == Neutral
    ensures Normalize(t) == SyntaxItem(t.name, t.arguments, Map(t.children, Normalize))
  {
    NormalizeNode(t);
    NormalizeNeutralArguments(t);
  }

  /** Nodes placed None throughout are their own normal forms. */
  lemma NormalizeSettledAll(cs: seq<SyntaxItem>)
    requires forall i | 0 <= i < |cs| :: Settled(cs[i])
    ensures Map(cs, Normalize) == cs
  {
    forall i | 0 <= i < |cs|
      ensures Map(cs, Normalize)[i] == cs[i]
    {
      NormalizeSettled(cs[i]);
    }
  }

  lemma PositionNormal(p: Position)
    ensures Normalize(WritePosition(p)) == WritePosition(p)
  {
    NormalizeSettled(WritePosition(p));
  }

  /** An optional node placed None throughout is its own normal form. */
  lemma OptionalNormal(o: Option<SyntaxItem>)
    requires o.Some? ==> Settled(o.value)
    ensures Map(Optional(o), Normalize) == Optional(o)
  {
    MapOptional(o, Normalize);
    if o.Some? {
      NormalizeSettled(o.value);
    }
  }

  lemma FontSettled(f: Font)
    ensures Settled(WriteFont(f))
  {
    var w := WriteFont(f);
    assert Settled(WriteFontSize(f.size));
    var face := FaceChild(f.face);
    var thickness := NumberChild("thickness", f.thickness);
    var spacing := NumberChild("line_spacing", f.lineSpacing);
    assert face.Some? ==> Settled(face.value);
    assert thickness.Some? ==> Settled(thickness.value);
    assert spacing.Some? ==> Settled(spacing.value);
    SettledNode(w.name, w.arguments, [WriteFontSize(f.size)] + Optional(face) + Optional(thickness) + Optional(spacing));
  }

  lemma JustifySettled(j: TextJustify)
    ensures Settled(WriteJustify(j))
  {
  }

  /**
   * Printed and parsed again, an effects node keeps its children as they
   * are and its `hide` word loses its End placement; it reads as the same
   * effects.
   */
  lemma EffectReparsed(e: TextEffect)
    ensures Normalize(WriteEffect(e)).name == "effects"
    ensures ReadEffect(Normalize(WriteEffect(e))) == Some(e)
  {
    var w := WriteEffect(e);
    var n := Normalize(w);
    EffectChildrenKept(e);
    EffectHideKept(e);
    assert n == SyntaxItem(w.name, n.arguments, w.children);
    EffectRoundTrip(e);
  }

  lemma EffectChildrenKept(e: TextEffect)
    ensures Normalize(WriteEffect(e)).name == "effects"
    ensures Normalize(WriteEffect(e)).children == WriteEffect(e).children
  {
    var justify := if e.justify.vertical.Some? || e.justify.horizontal.Some? || e.justify.mirror
                   then Some(WriteJustify(e.justify)) else None;
    FontSettled(e.font);
    JustifySettled(e.justify);
    assert forall c | c in [WriteFont(e.font)] + Optional(justify) :: Settled(c);
    NormalizeSettledChildren(WriteEffect(e));
  }

  lemma EffectHideKept(e: TextEffect)
    ensures HideArgument(Normalize(WriteEffect(e))) == e.hidden
  {
    var w := WriteEffect(e);
    if e.hidden {
      assert StableSort(w.arguments, PrefOrder(ArgumentPref())) == w.arguments;
      assert ResetAll(w.arguments) == [Identifier("hide", Neutral)] by {
        assert w.arguments[..0] == [];
      }
    }
  }

  /** Without a `font` child the font is the default one, and likewise for `justify`. */
  lemma MissingChildrenAreDefault(s: SyntaxItem)
    requires ReadEffect(s).Some?
    ensures GetNamedChild(s, "font").None? ==> ReadEffect(s).value.font == DefaultFont()
    ensures GetNamedChild(s, "justify").None? ==> ReadEffect(s).value.justify == DefaultJustify()
  {
    var e0 := TextEffect(DefaultFont(), DefaultJustify(), HideArgument(s));
    if GetNamedChild(s, "font").None? {
      FoldKeeps(e0, s.children, EffectChildStep(), ((e: TextEffect) => e.font == DefaultFont()));
    }
    if GetNamedChild(s, "justify").None? {
      FoldKeeps(e0, s.children, EffectChildStep(), ((e: TextEffect) => e.justify == DefaultJustify()));
    }
  }

  // ---------------------------------------------------------------------
  // StrokeDefinition: `(stroke (width w) [(type dash)] [(color r g b a)])`
  // ---------------------------------------------------------------------

  datatype StrokeDefinition = StrokeDefinition(width: Num, dash: Option<StrokeType>, color: Option<Color>)

  function StrokeTypeName(t: StrokeType): string
  {
    match t
    case Dash => "dash"
    case DashDot => "dash_dot"
    case DashDotDot => "dash_dot_dot"
    case Dot => "dot"
    case Default => "default"
    case Solid => "solid"
  }

  function StrokeTypeFromName(s: string): Option<StrokeType>
  {
    match s
    case "dash" => Some(Dash)
    case "dash_dot" => Some(DashDot)
    case "dash_dot_dot" => Some(DashDotDot)
    case "dot" => Some(Dot)
    case "default" => Some(Default)
    case "solid" => Some(Solid)
    case _ => None
  }

  /** The six dash names are a bijection with the stroke types. */
  lemma StrokeTypeNames(t: StrokeType, name: string)
    ensures StrokeTypeFromName(StrokeTypeName(t)) == Some(t)
    ensures StrokeTypeFromName(name).Some? ==> StrokeTypeName(StrokeTypeFromName(name).value) == name
  {
  }

  function WriteStroke(d: StrokeDefinition): SyntaxItem
  {
    SyntaxItem("stroke", [],
      [FromSingleArgument("width", Number(d.width, Neutral))]
      + Optional(if d.dash.Some? then Some(FromSingleArgument("type", Identifier(StrokeTypeName(d.dash.value), Neutral))) else None)
      + Optional(if d.color.Some? then Some(WriteColor(d.color.value)) else None))
  }

  lemma StrokeSettled(d: StrokeDefinition)
    ensures Settled(WriteStroke(d))
  {
    var w := WriteStroke(d);
    var dash := if d.dash.Some? then Some(FromSingleArgument("type", Identifier(StrokeTypeName(d.dash.value), Neutral))) else None;
    var color := if d.color.Some? then Some(WriteColor(d.color.value)) else None;
    assert Settled(FromSingleArgument("width", Number(d.width, Neutral)));
    assert dash.Some? ==> Settled(dash.value);
    assert color.Some? ==> Settled(color.value);
    SettledNode(w.name, w.arguments, [FromSingleArgument("width", Number(d.width, Neutral))] + Optional(dash) + Optional(color));
  }

  /** An optional `type` child: absent gives no dash type, an unknown name is the panic. */
  function ReadDash(t: Option<SyntaxItem>): Option<Option<StrokeType>>
  {
    match t
    case None => Some(None)
    case Some(c) =>
      var name :- StringAt(c, 0);
      var dash :- StrokeTypeFromName(name);
      Some(Some(dash))
  }

  /** An optional `color` child. */
  function ReadOptionalColor(t: Option<SyntaxItem>): Option<Option<Color>>
  {
    match t
    case None => Some(None)
    case Some(c) =>
      var color :- ReadColor(c);
      Some(Some(color))
  }

  /** `StrokeDefinition::deserialize`: the first child of each name; `width` is required. */
  function ReadStroke(s: SyntaxItem): (r: Option<StrokeDefinition>)
    ensures r.Some? ==> GetNamedChild(s, "width").Some?
    ensures r.Some? ==> (r.value.dash.Some? <==> GetNamedChild(s, "type").Some?)
    ensures r.Some? ==> (r.value.color.Some? <==> GetNamedChild(s, "color").Some?)
  {
    var w :- GetNamedChild(s, "width");
    var width :- NumberAt(w, 0);
    var dash :- ReadDash(GetNamedChild(s, "type"));
    var color :- ReadOptionalColor(GetNamedChild(s, "color"));
    Some(StrokeDefinition(width, dash, color))
  }

  lemma StrokeRoundTrip(d: StrokeDefinition)
    ensures ReadStroke(WriteStroke(d)) == Some(d)
  {
    var w := WriteStroke(d);
    if d.color.Some? {
      ColorRoundTrip(d.color.value);
    }
    assert GetNamedChild(w, "width") == Some(w.children[0]);
    if d.dash.Some? {
      assert w.children[1].name == "type";
      assert GetNamedChild(w, "type") == Some(w.children[1]);
      StrokeTypeNames(d.dash.value, "");
    }
    if d.color.Some? {
      var k := |w.children| - 1;
      assert w.children[k].name == "color";
      assert GetNamedChild(w, "color") == Some(w.children[k]);
    }
  }
}

/**
 * The value types of `src/kicad/model/symbol_library.rs` that other records
 * share: RGBA colours (with `Color::from_hex`), stroke dash types, fill
 * types and the two pin enumerations, each with its S-expression form.
 */
module SymbolStyles {
  import opened Wrappers
  import opened Numbers
  import opened Syntax

  /** Rust's `u8`. */
  type Byte = n: nat | n <= 0xff

  datatype Color = Color(r: Byte, g: Byte, b: Byte, a: Byte)

  // ---------------------------------------------------------------------
  // Color::from_hex
  // ---------------------------------------------------------------------

  predicate IsHexDigit(c: char)
  {
    '0' <= c <= '9' || 'a' <= c <= 'f' || 'A' <= c <= 'F'
  }

  predicate AllHex(s: string) { forall i | 0 <= i < |s| :: IsHexDigit(s[i]) }

  function HexDigitValue(c: char): (v: nat)
    requires IsHexDigit(c)
    ensures v < 16
  {
    if '0' <= c <= '9' then c as int - '0' as int
    else if 'a' <= c <= 'f' then c as int - 'a' as int + 10
    else c as int - 'A' as int + 10
  }

  /** The value of a run of hexadecimal digits, most significant first. */
  function HexValue(s: string): nat
    requires AllHex(s)
  {
    if s == [] then 0 else 16 * HexValue(s[..|s| - 1]) + HexDigitValue(s[|s| - 1])
  }

  /**
   * `u8::from_str_radix(s, 16)`: an optional `+`, then at least one hex
   * digit, with a value that fits in a byte; None is the error.
   */
  function ByteFromHex(s: string): (r: Option<Byte>)
    ensures r.Some? ==> |s| > 0 && (s[0] == '+' || IsHexDigit(s[0]))
  {
    if s == [] || s == "+" then None
    else
      var digits := if s[0] == '+' then s[1..] else s;
      if AllHex(digits) && HexValue(digits) <= 0xff then Some(HexValue(digits)) else None
  }

  /** `trim_start_matches('#')`. */
  function TrimHashes(s: string): (r: string)
    ensures r == [] || r[0] != '#'
    ensures |r| <= |s| && r == s[|s| - |r|..]
  {
    if s != [] && s[0] == '#' then TrimHashes(s[1..]) else s
  }

  predicate IsAscii(s: string) { forall i | 0 <= i < |s| :: s[i] as int < 128 }

  /**
   * `Color::from_hex`; None is the panic. The source matches on the byte
   * length of the trimmed text and slices it by bytes: any character outside
   * ASCII lands in some slice that is not a hex number (or is cut in half),
   * so such text is rejected before the length is looked at.
   */
  function FromHex(text: string): (r: Option<Color>)
    ensures r.Some? ==> IsAscii(TrimHashes(text))
    ensures r.Some? ==> |TrimHashes(text)| in {3, 4, 6, 8}
    ensures r.Some? && |TrimHashes(text)| in {3, 6} ==> r.value.a == 0xff
  {
    ColorFromDigits(TrimHashes(text))
  }

  /** The length dispatch of `from_hex`, after the `#` are trimmed. */
  function ColorFromDigits(s: string): (r: Option<Color>)
    ensures r.Some? ==> IsAscii(s) && |s| in {3, 4, 6, 8}
    ensures r.Some? && |s| in {3, 6} ==> r.value.a == 0xff
  {
    if !IsAscii(s) then None
    else if |s| == 3 then
      var r :- ByteFromHex([s[0], s[0]]);
      var g :- ByteFromHex([s[1], s[1]]);
      var b :- ByteFromHex([s[2], s[2]]);
      Some(Color(r, g, b, 0xff))
    else if |s| == 4 then
      var r :- ByteFromHex([s[0], s[0]]);
      var g :- ByteFromHex([s[1], s[1]]);
      var b :- ByteFromHex([s[2], s[2]]);
      var a :- ByteFromHex([s[3], s[3]]);
      Some(Color(r, g, b, a))
    else if |s| == 6 then
      var r :- ByteFromHex(s[0..2]);
      var g :- ByteFromHex(s[2..4]);
      var b :- ByteFromHex(s[4..6]);
      Some(Color(r, g, b, 0xff))
    else if |s| == 8 then
      var r :- ByteFromHex(s[0..2]);
      var g :- ByteFromHex(s[2..4]);
      var b :- ByteFromHex(s[4..6]);
      var a :- ByteFromHex(s[6..8]);
      Some(Color(r, g, b, a))
    else None
  }

  /** A lower-case hex digit, the reference printer `from_hex` is checked against. */
  function HexDigit(v: nat): (c: char)
    requires v < 16
    ensures IsHexDigit(c) && HexDigitValue(c) == v && c as int < 128 && c != '#'
  {
    if v < 10 then ('0' as int + v) as char else ('a' as int + v - 10) as char
  }

  function ByteHex(b: Byte): (r: string)
    ensures |r| == 2
  {
    [HexDigit(b / 16), HexDigit(b % 16)]
  }

  /** A colour as `RRGGBBAA`. */
  function HexText(c: Color): (r: string)
    ensures |r| == 8
  {
    ByteHex(c.r) + ByteHex(c.g) + ByteHex(c.b) + ByteHex(c.a)
  }

  lemma ByteHexRoundTrip(b: Byte)
    ensures ByteFromHex(ByteHex(b)) == Some(b)
  {
    var s := ByteHex(b);
    assert s[..1] == [s[0]];
    assert HexValue(s[..1]) == b / 16;
  }

  lemma HexPairs(s: string, w: string, x: string, y: string, z: string)
    requires |w| == |x| == |y| == |z| == 2 && s == w + x + y + z
    ensures s[0..2] == w && s[2..4] == x && s[4..6] == y && s[6..8] == z
  {
  }

  lemma AsciiHexText(c: Color)
    ensures IsAscii(HexText(c)) && HexText(c)[0] != '#'
  {
    var s := HexText(c);
    HexPairs(s, ByteHex(c.r), ByteHex(c.g), ByteHex(c.b), ByteHex(c.a));
    forall i | 0 <= i < 8
      ensures s[i] as int < 128
    {
      if i < 2 {
        assert s[i] == ByteHex(c.r)[i];
      } else if i < 4 {
        assert s[i] == ByteHex(c.g)[i - 2];
      } else if i < 6 {
        assert s[i] == ByteHex(c.b)[i - 4];
      } else {
        assert s[i] == ByteHex(c.a)[i - 6];
      }
    }
  }

  /** Every colour printed as `#RRGGBBAA` is read back by `from_hex`. */
  lemma FromHexOfHexText(c: Color)
    ensures FromHex("#" + HexText(c)) == Some(c)
  {
    var s := HexText(c);
    assert ("#" + s)[1..] == s;
    AsciiHexText(c);
    assert TrimHashes("#" + s) == s;
    HexPairs(s, ByteHex(c.r), ByteHex(c.g), ByteHex(c.b), ByteHex(c.a));
    ByteHexRoundTrip(c.r);
    ByteHexRoundTrip(c.g);
    ByteHexRoundTrip(c.b);
    ByteHexRoundTrip(c.a);
  }

  /** The six-digit form `#RRGGBB` is the same colour, fully opaque. */
  lemma FromHexOpaque(c: Color)
    ensures FromHex("#" + HexText(c)[..6]) == Some(c.(a := 0xff))
  {
    var s := HexText(c)[..6];
    AsciiHexText(c);
    assert ("#" + s)[1..] == s;
    assert TrimHashes("#" + s) == s;
    HexPairs(HexText(c), ByteHex(c.r), ByteHex(c.g), ByteHex(c.b), ByteHex(c.a));
    assert s[0..2] == ByteHex(c.r) && s[2..4] == ByteHex(c.g) && s[4..6] == ByteHex(c.b);
    ByteHexRoundTrip(c.r);
    ByteHexRoundTrip(c.g);
    ByteHexRoundTrip(c.b);
  }

  /** The three-digit form doubles each digit: `#abc` is `#aabbcc`. */
  lemma FromHexShortForm(x: char, y: char, z: char)
    requires x != '#'
    ensures FromHex([x, y, z]) == FromHex([x, x, y, y, z, z])
  {
    var long := [x, x, y, y, z, z];
    assert long[0..2] == [x, x] && long[2..4] == [y, y] && long[4..6] == [z, z];
    assert IsAscii([x, y, z]) <==> IsAscii(long) by {
      if IsAscii(long) {
        assert long[2] == y && long[4] == z;
      }
    }
  }

  /** The four-digit form doubles each digit too, alpha included. */
  lemma FromHexShortAlphaForm(x: char, y: char, z: char, w: char)
    requires x != '#'
    ensures FromHex([x, y, z, w]) == FromHex([x, x, y, y, z, z, w, w])
  {
    var long := [x, x, y, y, z, z, w, w];
    assert TrimHashes([x, y, z, w]) == [x, y, z, w] && TrimHashes(long) == long;
    assert long[0..2] == [x, x] && long[2..4] == [y, y] && long[4..6] == [z, z] && long[6..8] == [w, w];
    AsciiDoubled(x, y, z, w);
  }

  lemma AsciiDoubled(x: char, y: char, z: char, w: char)
    ensures IsAscii([x, y, z, w]) <==> IsAscii([x, x, y, y, z, z, w, w])
  {
    var short, long := [x, y, z, w], [x, x, y, y, z, z, w, w];
    if IsAscii(long) {
      forall i | 0 <= i < 4 ensures short[i] as int < 128 {
        assert short[i] == long[2 * i];
      }
    }
    if IsAscii(short) {
      forall i | 0 <= i < 8 ensures long[i] as int < 128 {
        assert long[i] == short[i / 2];
      }
    }
  }

  /** Any number of leading `#` is ignored. */
  lemma FromHexIgnoresHashes(s: string)
    ensures FromHex("#" + s) == FromHex(s)
  {
    assert ("#" + s)[1..] == s;
    assert TrimHashes("#" + s) == TrimHashes(s);
  }

  /**
   * A character that is neither a hex digit nor `+` is a panic, and so is a
   * `+` anywhere but at the head of a two-digit pair.
   */
  lemma FromHexNeedsDigits(text: string, i: nat)
    requires i < |TrimHashes(text)| && !IsHexDigit(TrimHashes(text)[i])
    requires TrimHashes(text)[i] != '+' || |TrimHashes(text)| in {3, 4} || i in {1, 3, 5, 7}
    ensures FromHex(text) == None
  {
    var s := TrimHashes(text);
    if |s| in {3, 4} {
      NonDigitByte([s[i], s[i]], 1);
      ShortDigitRejected(s, i);
    } else if |s| in {6, 8} {
      var p := if i < 2 then 0 else if i < 4 then 2 else if i < 6 then 4 else 6;
      assert s[p..p + 2][i - p] == s[i];
      NonDigitByte(s[p..p + 2], i - p);
      LongDigitRejected(s, p);
    }
  }

  /** `from_str_radix` rejects a non-digit, and a `+` anywhere but at the head. */
  lemma NonDigitByte(s: string, j: nat)
    requires j < |s| && !IsHexDigit(s[j]) && (s[j] != '+' || j > 0)
    ensures ByteFromHex(s) == None
  {
    if s != [] && s != "+" && s[0] == '+' {
      assert s[1..][j - 1] == s[j];
    }
  }

  lemma ShortDigitRejected(s: string, i: nat)
    requires |s| in {3, 4} && i < |s| && ByteFromHex([s[i], s[i]]) == None
    ensures ColorFromDigits(s) == None
  {
  }

  lemma LongDigitRejected(s: string, p: nat)
    requires |s| in {6, 8} && p + 2 <= |s| && p in {0, 2, 4, 6} && ByteFromHex(s[p..p + 2]) == None
    ensures ColorFromDigits(s) == None
  {
    if p == 0 {
    } else if p == 2 {
    } else if p == 4 {
    } else {
      assert p == 6;
    }
  }

  /**
   * `from_str_radix` accepts a leading `+`, so in the six- and eight-digit
   * forms a pair such as `+a` reads as the byte 10.
   */
  lemma FromHexAcceptsPlus()
    ensures FromHex("+a0000") == Some(Color(10, 0, 0, 0xff))
  {
    var s := "+a0000";
    assert TrimHashes(s) == s;
    assert s[0..2] == "+a" && s[2..4] == "00" && s[4..6] == "00";
    PlusByte();
    ZeroByte();
  }

  lemma PlusByte()
    ensures ByteFromHex("+a") == Some(10)
  {
    assert "+a"[1..] == "a";
    assert "a"[..0] == [];
  }

  lemma ZeroByte()
    ensures ByteFromHex("00") == Some(0)
  {
    assert "00"[..1] == "0";
    assert "0"[..0] == [];
  }

  // ---------------------------------------------------------------------
  // Color as `(color r g b a)`
  // ---------------------------------------------------------------------

  function WriteColor(c: Color): SyntaxItem
  {
    SyntaxItem("color", [Number(Finite(c.r as real), Neutral), Number(Finite(c.g as real), Neutral),
                         Number(Finite(c.b as real), Neutral), Number(Finite(c.a as real), Neutral)], [])
  }

  /** `Color::deserialize`: four numbers cast to `u8`; None when one is missing or not a number. */
  function ReadColor(s: SyntaxItem): (r: Option<Color>)
    ensures r.Some? <==> |s.arguments| >= 4 && forall k | 0 <= k < 4 :: s.arguments[k].Number?
  {
    var r :- NumberAt(s, 0);
    var g :- NumberAt(s, 1);
    var b :- NumberAt(s, 2);
    var a :- NumberAt(s, 3);
    Some(Color(CastUnsigned(r, U8_MAX), CastUnsigned(g, U8_MAX), CastUnsigned(b, U8_MAX), CastUnsigned(a, U8_MAX)))
  }

  lemma ColorRoundTrip(c: Color)
    ensures ReadColor(WriteColor(c)) == Some(c)
  {
    CastWhole(c.r, U8_MAX);
    CastWhole(c.g, U8_MAX);
    CastWhole(c.b, U8_MAX);
    CastWhole(c.a, U8_MAX);
  }

  // ---------------------------------------------------------------------
  // Stroke, fill and pin enumerations
  // ---------------------------------------------------------------------

  datatype StrokeType = Dash | DashDot | DashDotDot | Dot | Default | Solid

  datatype FillType = NoFill | Outline | Background

  function FillTypeName(t: FillType): string
  {
    match t
    case NoFill => "none"
    case Outline => "outline"
    case Background => "background"
  }

  function FillTypeFromName(s: string): Option<FillType>
  {
    match s
    case "none" => Some(NoFill)
    case "outline" => Some(Outline)
    case "background" => Some(Background)
    case _ => None
  }

  /** `FillDefinition::serialize`: `(fill (type <name>))`. */
  function WriteFill(t: FillType): SyntaxItem
  {
    SyntaxItem("fill", [], [SyntaxItem("type", [Identifier(FillTypeName(t), Neutral)], [])])
  }

  /** `FillDefinition::deserialize`; None when `type` is missing, empty or unknown. */
  function ReadFill(s: SyntaxItem): Option<FillType>
  {
    var t :- GetNamedChild(s, "type");
    var name :- StringAt(t, 0);
    FillTypeFromName(name)
  }

  /** The fill names are a bijection: each name is read back, and only those names are read. */
  lemma FillRoundTrip(t: FillType, name: string)
    ensures ReadFill(WriteFill(t)) == Some(t)
    ensures FillTypeFromName(name).Some? ==> FillTypeName(FillTypeFromName(name).value) == name
  {
  }

  datatype PinElectricalType =
    | Input | Output | Bidirectional | TriState | Passive | Free | Unspecified
    | PowerIn | PowerOut | OpenCollector | OpenEmitter | NoConnect

  function ElectricalTypeName(t: PinElectricalType): string
  {
    match t
    case Input => "input"
    case Output => "output"
    case Bidirectional => "bidirectional"
    case TriState => "tri_state"
    case Passive => "passive"
    case Free => "free"
    case Unspecified => "unspecified"
    case PowerIn => "power_in"
    case PowerOut => "power_out"
    case OpenCollector => "open_collector"
    case OpenEmitter => "open_emitter"
    case NoConnect => "no_connect"
  }

  function ElectricalTypeFromName(s: string): Option<PinElectricalType>
  {
    match s
    case "input" => Some(Input)
    case "output" => Some(Output)
    case "bidirectional" => Some(Bidirectional)
    case "tri_state" => Some(TriState)
    case "passive" => Some(Passive)
    case "free" => Some(Free)
    case "unspecified" => Some(Unspecified)
    case "power_in" => Some(PowerIn)
    case "power_out" => Some(PowerOut)
    case "open_collector" => Some(OpenCollector)
    case "open_emitter" => Some(OpenEmitter)
    case "no_connect" => Some(NoConnect)
    case _ => None
  }

  /** The twelve electrical types are written as distinct names and read back. */
  lemma ElectricalTypeRoundTrip(t: PinElectricalType, name: string)
    ensures ElectricalTypeFromName(ElectricalTypeName(t)) == Some(t)
    ensures ElectricalTypeFromName(name).Some? ==> ElectricalTypeName(ElectricalTypeFromName(name).value) == name
  {
  }

  datatype PinGraphicStyle =
    | Line | Inverted | Clock | InvertedClock | InputLow | ClockLow | OutputLow | EdgeClockHigh | NonLogic

  /** The names `SymbolPin::serialize` writes; `ClockLow` and `OutputLow` swap names here. */
  function WrittenStyleName(s: PinGraphicStyle): string
  {
    match s
    case Line => "line"
    case Inverted => "inverted"
    case Clock => "clock"
    case InvertedClock => "inverted_clock"
    case InputLow => "input_low"
    case ClockLow => "output_low"
    case OutputLow => "clock_low"
    case EdgeClockHigh => "edge_clock_high"
    case NonLogic => "non_logic"
  }

  /** The names `SymbolPin::deserialize` reads, each to the style it names. */
  function StyleFromName(s: string): Option<PinGraphicStyle>
  {
    match s
    case "line" => Some(Line)
    case "inverted" => Some(Inverted)
    case "clock" => Some(Clock)
    case "inverted_clock" => Some(InvertedClock)
    case "input_low" => Some(InputLow)
    case "output_low" => Some(OutputLow)
    case "clock_low" => Some(ClockLow)
    case "edge_clock_high" => Some(EdgeClockHigh)
    case "non_logic" => Some(NonLogic)
    case _ => None
  }

  /** The style a written style comes back as: the two swapped ones trade places. */
  function SwapLowStyles(s: PinGraphicStyle): PinGraphicStyle
  {
    match s
    case ClockLow => OutputLow
    case OutputLow => ClockLow
    case _ => s
  }

  /** Reading a written style gives the style back, except that ClockLow and OutputLow trade places. */
  lemma WrittenStyleReadsSwapped(s: PinGraphicStyle)
    ensures StyleFromName(WrittenStyleName(s)) == Some(SwapLowStyles(s))
    ensures StyleFromName(WrittenStyleName(s)) == Some(s) <==> s != ClockLow && s != OutputLow
  {
  }

  /** The name each style evidently should be written under: the one the reader maps to it. */
  function IntendedStyleName(s: PinGraphicStyle): string
  {
    match s
    case Line => "line"
    case Inverted => "inverted"
    case Clock => "clock"
    case InvertedClock => "inverted_clock"
    case InputLow => "input_low"
    case ClockLow => "clock_low"
    case OutputLow => "output_low"
    case EdgeClockHigh => "edge_clock_high"
    case NonLogic => "non_logic"
  }

  /** With the intended names every one of the nine styles round-trips, and the names are the reader's. */
  lemma IntendedStyleRoundTrip(s: PinGraphicStyle, name: string)
    ensures StyleFromName(IntendedStyleName(s)) == Some(s)
    ensures StyleFromName(name).Some? ==> IntendedStyleName(StyleFromName(name).value) == name
  {
  }
}

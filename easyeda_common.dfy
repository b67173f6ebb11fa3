/**
 * Pieces shared by the EasyEDA readers and converters: the error outcomes
 * of `src/easyeda/errors.rs`, the point of `src/easyeda/geometry.rs`, the
 * splitting of a record file into lines, and the indexing of a JSON object
 * by key.
 */
module EasyedaCommon {
  import opened Wrappers
  import opened Numbers
  import opened JsonReader
  import opened Scalars

  // ---------------------------------------------------------------------
  // Errors
  // ---------------------------------------------------------------------

  datatype ParserType = FootprintParser | SymbolParser

  /**
   * `ParserError`. `JsonError` stands for a line that serde_json refuses
   * as an array of values; its message is not modelled.
   */
  datatype ParserError =
    | JsonError
    | InvalidPropertyType(parser: ParserType, text: string)
    | InvalidArrayLength(parser: ParserType, text: string)
    | FormatError(parser: ParserType)

  /** `SymbolConverterError`; the unit errors' debug dumps of the name parts are not modelled. */
  datatype SymbolConverterError =
    | UnsupportedElement(element: string)
    | IncorrectUnitFormat
    | IncorrectUnitNumIdentifier
    | IncorrectUnitName

  /** `FootprintConverterError`; the pad shape error's debug dump of the pad is not modelled. */
  datatype FootprintConverterError =
    | UnsupportedPadShape
    | UnsupportedLayer(layer: string)
    | UnsupportedDrillRotation(rotation: nat)
    | UnsupportedInnerLayer(name: string)

  /**
   * How an operation ends without a result: an error it returns, or a
   * panic (`unwrap` of nothing, `assert!`, `panic!`, `todo!`,
   * `unreachable!` or an index out of range), which ends the program.
   */
  datatype Failure<E> = Raised(error: E) | Panicked

  /** `Option::unwrap`, in a reader or in the conversion: nothing is the panic. */
  function Unwrapped<T, E>(x: Option<T>): (r: Result<T, Failure<E>>)
    ensures r.Ok? <==> x.Some?
    ensures r.Ok? ==> r.value == x.value
    ensures r.Err? ==> r.error == Panicked
  {
    if x.Some? then Ok(x.value) else Err(Panicked)
  }

  // ---------------------------------------------------------------------
  // Points
  // ---------------------------------------------------------------------

  /** `Point2D`, its `f32` coordinates taken as exact reals. */
  datatype Point2D = Point2D(x: real, y: real)

  /** `impl Add for Point2D`. */
  function Plus(a: Point2D, b: Point2D): (r: Point2D)
    ensures r.x - a.x == b.x && r.y - a.y == b.y
  {
    Point2D(a.x + b.x, a.y + b.y)
  }

  /** `Point2D::to_scalar_2d`: the point as a named KiCad 2D scalar. */
  function ToScalar2D(p: Point2D, identifier: string): (r: Scalar2D)
    ensures r.name == identifier && r.x == Finite(p.x) && r.y == Finite(p.y)
  {
    Scalar2D(identifier, Finite(p.x), Finite(p.y))
  }

  // ---------------------------------------------------------------------
  // Lines
  // ---------------------------------------------------------------------

  predicate IsTerminator(c: char) { c == '\r' || c == '\n' }

  /** The pieces between terminators, always one more than there are terminators. */
  function SplitAll(text: string): (r: seq<string>)
    ensures |r| >= 1
  {
    if text == [] then [""]
    else
      var rest := SplitAll(text[1..]);
      if IsTerminator(text[0]) then [""] + rest else [[text[0]] + rest[0]] + rest[1..]
  }

  /**
   * `str::split_terminator(['\r', '\n'])`: the pieces between carriage
   * returns and line feeds, except that a terminator ending the text does
   * not start one more (empty) piece. A CR LF pair leaves an empty piece
   * between its two characters.
   */
  function SplitTerminator(text: string): (r: seq<string>)
  {
    var pieces := SplitAll(text);
    if pieces[|pieces| - 1] == "" then pieces[..|pieces| - 1] else pieces
  }

  /** The text without its terminators. */
  function Unterminated(text: string): string
  {
    if text == [] then [] else (if IsTerminator(text[0]) then [] else [text[0]]) + Unterminated(text[1..])
  }

  function Concat(pieces: seq<string>): string
  {
    if pieces == [] then [] else pieces[0] + Concat(pieces[1..])
  }

  /** Splitting keeps every character except the terminators, in order, and no piece holds a terminator. */
  lemma {:induction false} SplitAllSound(text: string)
    ensures Concat(SplitAll(text)) == Unterminated(text)
    ensures forall i, k | 0 <= i < |SplitAll(text)| && 0 <= k < |SplitAll(text)[i]| :: !IsTerminator(SplitAll(text)[i][k])
  {
    if text != [] {
      var rest := SplitAll(text[1..]);
      SplitAllSound(text[1..]);
      if IsTerminator(text[0]) {
        assert SplitAll(text) == [""] + rest;
        assert Concat([""] + rest) == "" + Concat(rest);
      } else {
        var r := SplitAll(text);
        assert r == [[text[0]] + rest[0]] + rest[1..];
        assert Concat(rest) == rest[0] + Concat(rest[1..]);
        assert Concat(r) == [text[0]] + rest[0] + Concat(rest[1..]);
        forall i, k | 0 <= i < |r| && 0 <= k < |r[i]|
          ensures !IsTerminator(r[i][k])
        {
          if i == 0 && k > 0 {
            assert r[0][k] == rest[0][k - 1];
          } else if i > 0 {
            assert r[i] == rest[i];
          }
        }
      }
    }
  }

  lemma {:induction false} ConcatDropsEmpty(pieces: seq<string>)
    requires pieces != [] && pieces[|pieces| - 1] == ""
    ensures Concat(pieces[..|pieces| - 1]) == Concat(pieces)
  {
    if |pieces| > 1 {
      ConcatDropsEmpty(pieces[1..]);
      assert pieces[1..][..|pieces[1..]| - 1] == pieces[..|pieces| - 1][1..];
    }
  }

  /** The lines of a record file hold every character but the terminators, in order, and no terminator. */
  lemma SplitTerminatorSound(text: string)
    ensures Concat(SplitTerminator(text)) == Unterminated(text)
    ensures forall i, k | 0 <= i < |SplitTerminator(text)| && 0 <= k < |SplitTerminator(text)[i]| ::
              !IsTerminator(SplitTerminator(text)[i][k])
  {
    SplitAllSound(text);
    var pieces := SplitAll(text);
    if pieces[|pieces| - 1] == "" {
      ConcatDropsEmpty(pieces);
      forall i, k | 0 <= i < |SplitTerminator(text)| && 0 <= k < |SplitTerminator(text)[i]|
        ensures !IsTerminator(SplitTerminator(text)[i][k])
      {
        assert SplitTerminator(text)[i] == pieces[i];
      }
    }
  }

  /** The lines that are not empty, in order. */
  function NonEmptyLines(lines: seq<string>): (r: seq<string>)
    ensures forall i | 0 <= i < |r| :: r[i] != ""
  {
    if lines == [] then []
    else if lines[0] == "" then NonEmptyLines(lines[1..])
    else [lines[0]] + NonEmptyLines(lines[1..])
  }

  /** Two lines separated by a line feed, with none at the end, are split back into those two lines. */
  lemma SplitTwoLines(a: string, b: string)
    requires a != [] && b != []
    requires forall k | 0 <= k < |a| :: !IsTerminator(a[k])
    requires forall k | 0 <= k < |b| :: !IsTerminator(b[k])
    ensures SplitTerminator(a + "\n" + b) == [a, b]
  {
    SplitNoTerminator(b);
    SplitLine(a, "\n" + b);
    assert ("\n" + b)[1..] == b;
    assert a + "\n" + b == a + ("\n" + b);
    assert SplitAll(a + "\n" + b) == [a, b];
  }

  lemma {:induction false} SplitNoTerminator(b: string)
    requires forall k | 0 <= k < |b| :: !IsTerminator(b[k])
    ensures SplitAll(b) == [b]
  {
    if b != [] {
      SplitNoTerminator(b[1..]);
      assert [b[0]] + b[1..] == b;
    }
  }

  lemma {:induction false} SplitLine(a: string, rest: string)
    requires forall k | 0 <= k < |a| :: !IsTerminator(a[k])
    requires rest != [] && IsTerminator(rest[0])
    ensures SplitAll(a + rest) == [a] + SplitAll(rest[1..])
  {
    if a == [] {
      assert a + rest == rest;
    } else {
      SplitLine(a[1..], rest);
      assert (a + rest)[1..] == a[1..] + rest;
      assert [a[0]] + a[1..] == a;
    }
  }

  // ---------------------------------------------------------------------
  // Debug text
  // ---------------------------------------------------------------------

  /** A character as `{:?}` writes it inside a string. */
  function EscapedChar(c: char): (r: string)
    ensures |r| >= 1
  {
    match c
    case '"' => "\\\""
    case '\\' => "\\\\"
    case '\n' => "\\n"
    case '\r' => "\\r"
    case '\t' => "\\t"
    case '\0' => "\\0"
    case _ => [c]
  }

  function Escaped(s: string): (r: string)
    ensures |r| >= |s|
  {
    if s == [] then [] else EscapedChar(s[0]) + Escaped(s[1..])
  }

  /**
   * `format!("{:?}", s)` of a string: the text between double quotes,
   * with quotes, backslashes, line feeds, carriage returns, tabs and NUL
   * escaped by a backslash.
   */
  function DebugText(s: string): (r: string)
    ensures |r| >= |s| + 2 && r[0] == '"' && r[|r| - 1] == '"'
  {
    "\"" + Escaped(s) + "\""
  }

  /** Text without any character that needs escaping is written as it is, in quotes. */
  lemma {:induction false} DebugPlainText(s: string)
    requires forall i | 0 <= i < |s| :: EscapedChar(s[i]) == [s[i]]
    ensures DebugText(s) == "\"" + s + "\""
  {
    PlainEscaped(s);
  }

  lemma {:induction false} PlainEscaped(s: string)
    requires forall i | 0 <= i < |s| :: EscapedChar(s[i]) == [s[i]]
    ensures Escaped(s) == s
  {
    if s != [] {
      PlainEscaped(s[1..]);
      assert [s[0]] + s[1..] == s;
    }
  }

  // ---------------------------------------------------------------------
  // Field values
  // ---------------------------------------------------------------------

  /** `as_array()`: the items of an array. */
  function ArrayOf(v: JsonValue): (r: Option<seq<JsonValue>>)
    ensures r.Some? <==> v.JArray?
    ensures r.Some? ==> r.value == v.items
  {
    if v.JArray? then Some(v.items) else None
  }

  /** `and_then(|s| if s.len() != 0 { Some(s) } else { None })`: an empty text counts as absent. */
  function NonEmpty(o: Option<string>): (r: Option<string>)
    ensures r.Some? <==> o.Some? && o.value != ""
    ensures r.Some? ==> r == o
  {
    if o.Some? && o.value != "" then o else None
  }

  // ---------------------------------------------------------------------
  // JSON objects
  // ---------------------------------------------------------------------

  /** The value of the last member with the key, or null (serde_json keeps the last duplicate). */
  function MemberOf(members: seq<(string, JsonValue)>, key: string): (r: JsonValue)
    ensures (forall i | 0 <= i < |members| :: members[i].0 != key) ==> r == JNull
    ensures (exists i | 0 <= i < |members| :: members[i].0 == key) ==>
              exists i | 0 <= i < |members| :: members[i].0 == key && r == members[i].1
                                                && forall j | i < j < |members| :: members[j].0 != key
  {
    if members == [] then JNull
    else if members[|members| - 1].0 == key then members[|members| - 1].1
    else
      var front := members[..|members| - 1];
      var r := MemberOf(front, key);
      assert forall i | 0 <= i < |front| :: front[i] == members[i];
      assert (exists i | 0 <= i < |members| :: members[i].0 == key) ==> exists i | 0 <= i < |front| :: front[i].0 == key;
      r
  }

  /** `value[key]`: a member of an object, and null for a missing key or a value that is not an object. */
  function Member(v: JsonValue, key: string): (r: JsonValue)
    ensures !v.JObject? ==> r == JNull
  {
    if v.JObject? then MemberOf(v.members, key) else JNull
  }
}

/**
 * The path expressions of EasyEDA shapes, as read by
 * `parse_path_expression` and measured by `expand_bbox_to_shape` in
 * `src/easyeda/footprint.rs`.
 *
 * A path is a flat JSON array of command names and numbers, in the manner
 * of SVG: `["M", x, y, "L", x, y, x, y, "ARC", rotation, x, y, ...]`. A
 * path may leave out its leading `M`, and a line command may be followed by
 * several coordinate pairs. The reader first puts the `M` back and gives
 * each extra pair its own `L`, then decodes one command after another,
 * scaling every length by the scale factor and turning the y axis upside
 * down for moves, lines, circles and rectangles (but not for arc ends).
 */
module EasyedaPaths {
  import opened Wrappers
  import opened JsonReader
  import opened EasyedaCommon

  datatype PathCommand =
    | MoveTo(position: Point2D)
    | LineTo(position: Point2D)
    | ArcTo(end: Point2D, rotation: real)
    | CenterArcTo(end: Point2D, rotation: real)
    | Circle(center: Point2D, radius: real)
    | Rectangle(start: Point2D, width: real, height: real, rotation: real, cornerRadius: real)

  const MoveToken: JsonValue := JString("M")
  const LineToken: JsonValue := JString("L")

  // ---------------------------------------------------------------------
  // The leading move
  // ---------------------------------------------------------------------

  /** `is_f64() || is_i64()`: a float, or an integer that fits in `i64`. */
  predicate IsF64OrI64(v: JsonValue)
  {
    v.JNumber? && (v.n.Float? || AsI64(v).Some?)
  }

  /**
   * The `M` put in front of a path that starts with a number. None is the
   * panic of `first().unwrap()` on an empty path.
   */
  function WithLeadingMove(path: seq<JsonValue>): (r: Option<seq<JsonValue>>)
    ensures r.Some? <==> path != []
    ensures r.Some? && IsF64OrI64(path[0]) ==> r.value == [MoveToken] + path
    ensures r.Some? && !IsF64OrI64(path[0]) ==> r.value == path
  {
    if path == [] then None
    else if IsF64OrI64(path[0]) then Some([MoveToken] + path)
    else Some(path)
  }

  // ---------------------------------------------------------------------
  // One `L` per coordinate pair
  // ---------------------------------------------------------------------

  /**
   * What the normalising loop makes of the rest of the path, given how many
   * numbers it has counted since the last `L` and whether it is inside a
   * line command. A string ends or starts a line command (only `L` starts
   * one, and resets the count); inside a line command, a number that comes
   * after an even, non-zero count gets an `L` in front of it and is then
   * counted as the first of a new pair. Anything else passes unchanged.
   */
  function Normalize(rest: seq<JsonValue>, counter: nat, isLine: bool): (r: seq<JsonValue>)
    ensures |r| >= |rest|
    decreases |rest|
  {
    if rest == [] then []
    else
      var v := rest[0];
      if v.JString? then
        var line := v.s == "L";
        [v] + Normalize(rest[1..], if line then 0 else counter, line)
      else if isLine && counter > 0 && counter % 2 == 0 then
        [LineToken, v] + Normalize(rest[1..], 1, true)
      else if isLine then
        [v] + Normalize(rest[1..], counter + 1, true)
      else
        [v] + Normalize(rest[1..], counter, false)
  }

  /** The normalised path: the loop starts at the fourth element, after the leading move and its two numbers. */
  function NormalizeLines(path: seq<JsonValue>): seq<JsonValue>
  {
    if |path| <= 3 then path else path[..3] + NormalizeFrom(path, 3, 0, false)
  }

  /** `Normalize` of the path from position k on. */
  function NormalizeFrom(path: seq<JsonValue>, k: nat, counter: nat, isLine: bool): seq<JsonValue>
    requires k <= |path|
  {
    Normalize(path[k..], counter, isLine)
  }

  /** A string ends the line command in progress, and an `L` starts one with a fresh count. */
  lemma NormalizeAtString(path: seq<JsonValue>, k: nat, counter: nat, isLine: bool)
    requires k < |path| && path[k].JString?
    ensures NormalizeFrom(path, k, counter, isLine)
            == [path[k]] + NormalizeFrom(path, k + 1, if path[k].s == "L" then 0 else counter, path[k].s == "L")
  {
    assert path[k..][1..] == path[k + 1..];
  }

  /** A number after a complete pair of a line command gets an `L` of its own. */
  lemma NormalizeInsert(path: seq<JsonValue>, k: nat, counter: nat)
    requires k < |path| && !path[k].JString? && counter > 0 && counter % 2 == 0
    ensures NormalizeFrom(path, k, counter, true) == [LineToken] + NormalizeFrom(path, k, 0, true)
  {
    assert path[k..][1..] == path[k + 1..];
  }

  /** Any other number is counted (inside a line command) and kept. */
  lemma NormalizeCount(path: seq<JsonValue>, k: nat, counter: nat, isLine: bool)
    requires k < |path| && !path[k].JString? && !(isLine && counter > 0 && counter % 2 == 0)
    ensures NormalizeFrom(path, k, counter, isLine)
            == [path[k]] + NormalizeFrom(path, k + 1, if isLine then counter + 1 else counter, isLine)
  {
    assert path[k..][1..] == path[k + 1..];
  }

  /**
   * The source's loop, which inserts into the path it walks: after an
   * insertion the cursor stands on the new `L`, so the number it displaced
   * is counted on the next turn.
   */
  method NormalizeLineCommands(input: seq<JsonValue>) returns (path: seq<JsonValue>)
    ensures path == NormalizeLines(input)
  {
    path := input;
    var lineCounter: nat := 0;
    var isLine := false;
    var i := 3;
    if |input| <= 3 {
      return;
    }
    ghost var k := 3;
    ghost var target := NormalizeLines(input);
    while i < |path|
      invariant 3 <= i <= |path| && 3 <= k <= |input| && |path| - i == |input| - k
      invariant path[i..] == input[k..]
      invariant path[..i] + NormalizeFrom(input, k, lineCounter, isLine) == target
      decreases |input| - k, lineCounter
    {
      var value := path[i];
      assert value == input[k];
      ghost var before := path[..i];
      ghost var todo := NormalizeFrom(input, k, lineCounter, isLine);
      ghost var emitted := value;
      if value.JString? {
        NormalizeAtString(input, k, lineCounter, isLine);
        isLine := value.s == "L";
        if isLine {
          lineCounter := 0;
        }
        k := k + 1;
      } else if isLine && lineCounter > 0 && lineCounter % 2 == 0 {
        NormalizeInsert(input, k, lineCounter);
        InsertAt(path, i, LineToken);
        path := path[..i] + [LineToken] + path[i..];
        emitted := LineToken;
        lineCounter := 0;
      } else {
        NormalizeCount(input, k, lineCounter, isLine);
        if isLine {
          lineCounter := lineCounter + 1;
        }
        k := k + 1;
      }
      assert path[i] == emitted && path[..i] == before;
      StepForward(path, i, before, todo, NormalizeFrom(input, k, lineCounter, isLine));
      i := i + 1;
    }
    assert path[..i] == path;
  }

  /** Inserting `x` at position i shifts the rest of the sequence by one. */
  lemma InsertAt(s: seq<JsonValue>, i: nat, x: JsonValue)
    requires i <= |s|
    ensures var t := s[..i] + [x] + s[i..];
      |t| == |s| + 1 && t[..i] == s[..i] && t[i] == x && t[i + 1..] == s[i..]
  {
    var t := s[..i] + [x] + s[i..];
    assert t[i + 1..] == s[i..];
  }

  /** One step of the loop: the element under the cursor moves from what is left to what is done. */
  lemma StepForward(path: seq<JsonValue>, i: nat, before: seq<JsonValue>, todo: seq<JsonValue>, next: seq<JsonValue>)
    requires i < |path| && path[..i] == before && todo == [path[i]] + next
    ensures path[..i + 1] + next == before + todo
  {
    assert path[..i + 1] == before + [path[i]];
  }

  /** The path without its `L` tokens. */
  function WithoutLineTokens(s: seq<JsonValue>): seq<JsonValue>
  {
    if s == [] then [] else (if s[0] == LineToken then [] else [s[0]]) + WithoutLineTokens(s[1..])
  }

  /** Normalising only ever inserts `L` tokens: everything else is kept, in order. */
  lemma {:induction false} NormalizeOnlyInsertsLines(rest: seq<JsonValue>, counter: nat, isLine: bool)
    ensures WithoutLineTokens(Normalize(rest, counter, isLine)) == WithoutLineTokens(rest)
    decreases |rest|
  {
    if rest != [] {
      var v := rest[0];
      var r := Normalize(rest, counter, isLine);
      if v.JString? {
        var line := v.s == "L";
        NormalizeOnlyInsertsLines(rest[1..], if line then 0 else counter, line);
        assert r[1..] == Normalize(rest[1..], if line then 0 else counter, line);
      } else if isLine && counter > 0 && counter % 2 == 0 {
        NormalizeOnlyInsertsLines(rest[1..], 1, true);
        assert r[1..][1..] == Normalize(rest[1..], 1, true);
      } else if isLine {
        NormalizeOnlyInsertsLines(rest[1..], counter + 1, true);
        assert r[1..] == Normalize(rest[1..], counter + 1, true);
      } else {
        NormalizeOnlyInsertsLines(rest[1..], counter, false);
        assert r[1..] == Normalize(rest[1..], counter, false);
      }
    }
  }

  /** The whole normalised path keeps every token of the input but the inserted `L`s. */
  lemma NormalizeLinesOnlyInserts(path: seq<JsonValue>)
    ensures WithoutLineTokens(NormalizeLines(path)) == WithoutLineTokens(path)
  {
    if |path| > 3 {
      NormalizeOnlyInsertsLines(path[3..], 0, false);
      WithoutLineTokensAppend(path[..3], path[3..]);
      WithoutLineTokensAppend(path[..3], Normalize(path[3..], 0, false));
      assert path[..3] + path[3..] == path;
    }
  }

  lemma {:induction false} WithoutLineTokensAppend(a: seq<JsonValue>, b: seq<JsonValue>)
    ensures WithoutLineTokens(a + b) == WithoutLineTokens(a) + WithoutLineTokens(b)
  {
    if a == [] {
      assert a + b == b;
    } else {
      var ab := a + b;
      assert ab[0] == a[0] && ab[1..] == a[1..] + b;
      var head := if a[0] == LineToken then [] else [a[0]];
      assert WithoutLineTokens(ab) == head + WithoutLineTokens(a[1..] + b);
      WithoutLineTokensAppend(a[1..], b);
      assert WithoutLineTokens(a) == head + WithoutLineTokens(a[1..]);
    }
  }

  /** Numbers only: no string among them. */
  predicate AllNumbers(nums: seq<JsonValue>)
  {
    forall i | 0 <= i < |nums| :: !nums[i].JString?
  }

  /** An `L` in front of every pair of numbers (and of a last, unpaired one). */
  function LinePairs(nums: seq<JsonValue>): seq<JsonValue>
  {
    if |nums| <= 2 then [LineToken] + nums else [LineToken, nums[0], nums[1]] + LinePairs(nums[2..])
  }

  /** Inside a line command whose count is even and non-zero, each pair gets its own `L`. */
  lemma {:induction false} NormalizeAfterPair(nums: seq<JsonValue>)
    requires nums != [] && AllNumbers(nums)
    ensures Normalize(nums, 2, true) == LinePairs(nums)
    decreases |nums|
  {
    var t1 := nums[1..];
    assert Normalize(nums, 2, true) == [LineToken, nums[0]] + Normalize(t1, 1, true);
    if |nums| >= 2 {
      var t2 := t1[1..];
      assert t2 == nums[2..];
      assert Normalize(t1, 1, true) == [nums[1]] + Normalize(t2, 2, true);
      if |nums| > 2 {
        NormalizeAfterPair(t2);
      }
    }
  }

  /**
   * A line command followed by coordinates only: normalising gives every
   * coordinate pair its own `L`.
   */
  lemma LineRunSplit(nums: seq<JsonValue>, counter: nat, isLine: bool)
    requires AllNumbers(nums)
    ensures Normalize([LineToken] + nums, counter, isLine) == LinePairs(nums)
  {
    assert ([LineToken] + nums)[1..] == nums;
    if nums != [] {
      var t1 := nums[1..];
      assert Normalize(nums, 0, true) == [nums[0]] + Normalize(t1, 1, true);
      if |nums| >= 2 {
        var t2 := t1[1..];
        assert t2 == nums[2..];
        assert Normalize(t1, 1, true) == [nums[1]] + Normalize(t2, 2, true);
        if |nums| > 2 {
          NormalizeAfterPair(t2);
        }
      }
    }
  }

  /** `M x y L x1 y1 x2 y2 ...` becomes `M x y L x1 y1 L x2 y2 ...`. */
  lemma MoveThenLines(x: JsonValue, y: JsonValue, nums: seq<JsonValue>)
    requires AllNumbers(nums)
    ensures NormalizeLines([MoveToken, x, y, LineToken] + nums) == [MoveToken, x, y] + LinePairs(nums)
  {
    var path := [MoveToken, x, y, LineToken] + nums;
    assert path[..3] == [MoveToken, x, y] && path[3..] == [LineToken] + nums;
    LineRunSplit(nums, 0, false);
  }

  // ---------------------------------------------------------------------
  // Decoding
  // ---------------------------------------------------------------------

  /** `next().unwrap().as_f64().unwrap()` at position k; None is either panic. */
  function Arg(t: seq<JsonValue>, k: nat): (r: Option<real>)
    ensures r.Some? <==> k < |t| && t[k].JNumber?
  {
    if k < |t| then AsF64(t[k]) else None
  }

  /**
   * The command at the head of the tokens, and how many tokens it takes.
   * None is a panic: a head that is not a string, an unknown command name, or
   * an argument that is missing or not a number. A rectangle's corner radius
   * is whatever token follows its rotation: absent, it is 0; present but not
   * a number (the next command's name, say), it panics.
   */
  function CommandOf(t: seq<JsonValue>, s: real): (r: Option<(PathCommand, nat)>)
    requires t != []
    ensures r.Some? ==> t[0].JString? && 1 <= r.value.1 <= |t|
  {
    var name :- AsStr(t[0]);
    match name
    case "M" =>
      var x :- Arg(t, 1); var y :- Arg(t, 2);
      Some((MoveTo(Point2D(x * s, -y * s)), 3))
    case "L" =>
      var x :- Arg(t, 1); var y :- Arg(t, 2);
      Some((LineTo(Point2D(x * s, -y * s)), 3))
    case "ARC" =>
      var rotation :- Arg(t, 1); var x :- Arg(t, 2); var y :- Arg(t, 3);
      Some((ArcTo(Point2D(x * s, y * s), rotation), 4))
    case "CARC" =>
      var rotation :- Arg(t, 1); var x :- Arg(t, 2); var y :- Arg(t, 3);
      Some((CenterArcTo(Point2D(x * s, y * s), rotation), 4))
    case "CIRCLE" =>
      var x :- Arg(t, 1); var y :- Arg(t, 2); var radius :- Arg(t, 3);
      Some((Circle(Point2D(x * s, -y * s), radius * s), 4))
    case "R" =>
      var x :- Arg(t, 1); var y :- Arg(t, 2); var width :- Arg(t, 3); var height :- Arg(t, 4);
      var rotation :- Arg(t, 5);
      if |t| > 6 then
        var corner :- Arg(t, 6);
        Some((Rectangle(Point2D(x * s, -y * s), width * s, height * s, rotation, corner * s), 7))
      else
        Some((Rectangle(Point2D(x * s, -y * s), width * s, height * s, rotation, 0.0), 6))
    case _ => None
  }

  /** The commands of a normalised path, in order; None when decoding panics. */
  function DecodeTokens(t: seq<JsonValue>, s: real): (r: Option<seq<PathCommand>>)
    ensures r.Some? ==> |r.value| <= |t| && (t != [] ==> r.value != [])
    decreases |t|
  {
    if t == [] then Some([])
    else
      var step :- CommandOf(t, s);
      var rest :- DecodeTokens(t[step.1..], s);
      Some([step.0] + rest)
  }

  /** `parse_path_expression`: the leading move, one `L` per pair, then the commands. */
  function ParsePath(path: seq<JsonValue>, s: real): (r: Option<seq<PathCommand>>)
    ensures r.Some? ==> r.value != []
  {
    var moved :- WithLeadingMove(path);
    DecodeTokens(NormalizeLines(moved), s)
  }

  /** The commands decoded so far in front of the decoding of the rest, if that does not panic. */
  function Prefixed(done: seq<PathCommand>, rest: Option<seq<PathCommand>>): Option<seq<PathCommand>>
  {
    if rest.Some? then Some(done + rest.value) else None
  }

  lemma PrefixedAssociative(done: seq<PathCommand>, c: PathCommand, rest: Option<seq<PathCommand>>)
    ensures Prefixed(done, Prefixed([c], rest)) == Prefixed(done + [c], rest)
  {
    if rest.Some? {
      assert done + ([c] + rest.value) == (done + [c]) + rest.value;
    }
  }

  /** One command taken off the head of the tokens. */
  lemma DecodeStep(t: seq<JsonValue>, s: real)
    requires t != []
    ensures CommandOf(t, s).None? ==> DecodeTokens(t, s).None?
    ensures CommandOf(t, s).Some? ==>
              DecodeTokens(t, s) == Prefixed([CommandOf(t, s).value.0], DecodeTokens(t[CommandOf(t, s).value.1..], s))
  {
  }

  /**
   * The loop's step: with `done` decoded in front of the tokens from `j`,
   * a failed command fails the whole decoding, and a decoded one moves to
   * the end of `done`.
   */
  lemma DecodeAdvance(tokens: seq<JsonValue>, j: nat, s: real, done: seq<PathCommand>)
    requires j < |tokens|
    ensures CommandOf(tokens[j..], s).None? ==> Prefixed(done, DecodeTokens(tokens[j..], s)).None?
    ensures CommandOf(tokens[j..], s).Some? ==>
              var (c, n) := CommandOf(tokens[j..], s).value;
              j + n <= |tokens|
              && Prefixed(done, DecodeTokens(tokens[j..], s)) == Prefixed(done + [c], DecodeTokens(tokens[j + n..], s))
  {
    DecodeStep(tokens[j..], s);
    var step := CommandOf(tokens[j..], s);
    if step.Some? {
      var (c, n) := step.value;
      assert tokens[j..][n..] == tokens[j + n..];
      PrefixedAssociative(done, c, DecodeTokens(tokens[j + n..], s));
    }
  }

  /** The decoding loop: take a command name, read its arguments, push the command. */
  method DecodeCommands(tokens: seq<JsonValue>, s: real) returns (r: Option<seq<PathCommand>>)
    ensures r == DecodeTokens(tokens, s)
  {
    var commands: seq<PathCommand> := [];
    var j := 0;
    ghost var target := DecodeTokens(tokens, s);
    assert tokens[j..] == tokens;
    assert target.Some? ==> [] + target.value == target.value;
    while j < |tokens|
      invariant 0 <= j <= |tokens|
      invariant Prefixed(commands, DecodeTokens(tokens[j..], s)) == target
      decreases |tokens| - j
    {
      var step := CommandOf(tokens[j..], s);
      DecodeAdvance(tokens, j, s, commands);
      if step.None? {
        return None;
      }
      var (command, taken) := step.value;
      commands := commands + [command];
      j := j + taken;
    }
    assert tokens[j..] == [] && commands + [] == commands;
    r := Some(commands);
  }

  /** `parse_path_expression`, step by step. */
  method ParsePathExpression(path: seq<JsonValue>, s: real) returns (r: Option<seq<PathCommand>>)
    ensures r == ParsePath(path, s)
  {
    if path == [] {
      return None;
    }
    var moved := path;
    if IsF64OrI64(path[0]) {
      moved := [MoveToken] + path;
    }
    var normalized := NormalizeLineCommands(moved);
    r := DecodeCommands(normalized, s);
  }

  // ---------------------------------------------------------------------
  // Writing commands back as tokens
  // ---------------------------------------------------------------------

  function Number(x: real): JsonValue { JNumber(Float(x)) }

  /**
   * The tokens a command is read from at scale `s`: lengths divided by the
   * scale, y negated where the reader negates it, and a rectangle always
   * with its corner radius.
   */
  function EncodeCommand(c: PathCommand, s: real): seq<JsonValue>
    requires s != 0.0
  {
    match c
    case MoveTo(p) => [MoveToken, Number(p.x / s), Number(-p.y / s)]
    case LineTo(p) => [LineToken, Number(p.x / s), Number(-p.y / s)]
    case ArcTo(e, rotation) => [JString("ARC"), Number(rotation), Number(e.x / s), Number(e.y / s)]
    case CenterArcTo(e, rotation) => [JString("CARC"), Number(rotation), Number(e.x / s), Number(e.y / s)]
    case Circle(center, radius) => [JString("CIRCLE"), Number(center.x / s), Number(-center.y / s), Number(radius / s)]
    case Rectangle(start, width, height, rotation, corner) =>
      [JString("R"), Number(start.x / s), Number(-start.y / s), Number(width / s), Number(height / s),
       Number(rotation), Number(corner / s)]
  }

  function EncodeCommands(cs: seq<PathCommand>, s: real): seq<JsonValue>
    requires s != 0.0
  {
    if cs == [] then [] else EncodeCommand(cs[0], s) + EncodeCommands(cs[1..], s)
  }

  lemma Rescale(x: real, s: real)
    requires s != 0.0
    ensures (x / s) * s == x && -(-x / s) * s == x
  {
  }

  lemma ArgOfNumber(t: seq<JsonValue>, k: nat, x: real)
    requires k < |t| && t[k] == Number(x)
    ensures Arg(t, k) == Some(x)
  {
  }

  /** A move or a line, written and read back. */
  lemma PointCommandOfEncoded(c: PathCommand, s: real, rest: seq<JsonValue>)
    requires s != 0.0 && (c.MoveTo? || c.LineTo?)
    ensures CommandOf(EncodeCommand(c, s) + rest, s) == Some((c, 3))
  {
    var p := c.position;
    var t := EncodeCommand(c, s) + rest;
    assert t[0] == (if c.MoveTo? then MoveToken else LineToken);
    ArgOfNumber(t, 1, p.x / s);
    ArgOfNumber(t, 2, -p.y / s);
    Rescale(p.x, s);
    Rescale(p.y, s);
    var r := CommandOf(t, s);
    assert r.Some? && r.value.1 == 3 && r.value.0.MoveTo? == c.MoveTo? && r.value.0.LineTo? == c.LineTo?;
    assert r.value.0.position.x == p.x && r.value.0.position.y == p.y;
  }

  /** An arc of either kind, written and read back. */
  lemma ArcCommandOfEncoded(c: PathCommand, s: real, rest: seq<JsonValue>)
    requires s != 0.0 && (c.ArcTo? || c.CenterArcTo?)
    ensures CommandOf(EncodeCommand(c, s) + rest, s) == Some((c, 4))
  {
    var t := EncodeCommand(c, s) + rest;
    assert t[0] == JString(if c.ArcTo? then "ARC" else "CARC");
    ArgOfNumber(t, 1, c.rotation);
    ArgOfNumber(t, 2, c.end.x / s);
    ArgOfNumber(t, 3, c.end.y / s);
    Rescale(c.end.x, s);
    Rescale(c.end.y, s);
    var r := CommandOf(t, s);
    assert r.Some? && r.value.1 == 4 && r.value.0.ArcTo? == c.ArcTo? && r.value.0.CenterArcTo? == c.CenterArcTo?;
    assert r.value.0.end.x == c.end.x && r.value.0.end.y == c.end.y && r.value.0.rotation == c.rotation;
  }

  /** A circle, written and read back. */
  lemma CircleCommandOfEncoded(c: PathCommand, s: real, rest: seq<JsonValue>)
    requires s != 0.0 && c.Circle?
    ensures CommandOf(EncodeCommand(c, s) + rest, s) == Some((c, 4))
  {
    var t := EncodeCommand(c, s) + rest;
    assert t[0] == JString("CIRCLE");
    ArgOfNumber(t, 1, c.center.x / s);
    ArgOfNumber(t, 2, -c.center.y / s);
    ArgOfNumber(t, 3, c.radius / s);
    Rescale(c.center.x, s);
    Rescale(c.center.y, s);
    Rescale(c.radius, s);
    var r := CommandOf(t, s);
    assert r.Some? && r.value.1 == 4 && r.value.0.Circle?;
    assert r.value.0.center.x == c.center.x && r.value.0.center.y == c.center.y && r.value.0.radius == c.radius;
  }

  /** Seven rectangle tokens are read as the rectangle, whatever follows them. */
  lemma RectangleRead(t: seq<JsonValue>, s: real, x: real, y: real, w: real, h: real, rotation: real, corner: real)
    requires |t| >= 7 && t[0] == JString("R")
    requires t[1] == Number(x) && t[2] == Number(y) && t[3] == Number(w) && t[4] == Number(h)
    requires t[5] == Number(rotation) && t[6] == Number(corner)
    ensures CommandOf(t, s) == Some((Rectangle(Point2D(x * s, -y * s), w * s, h * s, rotation, corner * s), 7))
  {
    ArgOfNumber(t, 1, x);
    ArgOfNumber(t, 2, y);
    ArgOfNumber(t, 3, w);
    ArgOfNumber(t, 4, h);
    ArgOfNumber(t, 5, rotation);
    ArgOfNumber(t, 6, corner);
    var r := CommandOf(t, s);
    assert r.Some? && r.value.1 == 7 && r.value.0.Rectangle?;
    assert r.value.0.start == Point2D(x * s, -y * s) && r.value.0.width == w * s && r.value.0.height == h * s;
    assert r.value.0.rotation == rotation && r.value.0.cornerRadius == corner * s;
  }

  /** A rectangle, written with its corner radius and read back. */
  lemma RectangleCommandOfEncoded(c: PathCommand, s: real, rest: seq<JsonValue>)
    requires s != 0.0 && c.Rectangle?
    ensures CommandOf(EncodeCommand(c, s) + rest, s) == Some((c, 7))
  {
    var t := EncodeCommand(c, s) + rest;
    RectangleRead(t, s, c.start.x / s, -c.start.y / s, c.width / s, c.height / s, c.rotation, c.cornerRadius / s);
    Rescale(c.start.x, s);
    Rescale(c.start.y, s);
    Rescale(c.width, s);
    Rescale(c.height, s);
    Rescale(c.cornerRadius, s);
    var r := CommandOf(t, s);
    assert r.Some? && r.value.1 == 7 && r.value.0.Rectangle?;
    assert r.value.0.start.x == c.start.x && r.value.0.start.y == c.start.y;
    assert r.value.0.width == c.width && r.value.0.height == c.height;
    assert r.value.0.rotation == c.rotation && r.value.0.cornerRadius == c.cornerRadius;
  }

  /** A command's tokens, whatever follows them, are read back as that command. */
  lemma CommandOfEncoded(c: PathCommand, s: real, rest: seq<JsonValue>)
    requires s != 0.0
    ensures CommandOf(EncodeCommand(c, s) + rest, s) == Some((c, |EncodeCommand(c, s)|))
  {
    if c.MoveTo? || c.LineTo? {
      PointCommandOfEncoded(c, s, rest);
    } else if c.ArcTo? || c.CenterArcTo? {
      ArcCommandOfEncoded(c, s, rest);
    } else if c.Circle? {
      CircleCommandOfEncoded(c, s, rest);
    } else {
      RectangleCommandOfEncoded(c, s, rest);
    }
  }

  /** Decoding the tokens of some commands gives those commands back. */
  lemma {:induction false} DecodeEncoded(cs: seq<PathCommand>, s: real)
    requires s != 0.0
    ensures DecodeTokens(EncodeCommands(cs, s), s) == Some(cs)
  {
    if cs != [] {
      var e := EncodeCommand(cs[0], s);
      var rest := EncodeCommands(cs[1..], s);
      CommandOfEncoded(cs[0], s, rest);
      assert (e + rest)[|e|..] == rest;
      DecodeEncoded(cs[1..], s);
      assert EncodeCommands(cs, s) == e + rest;
      assert [cs[0]] + cs[1..] == cs;
    }
  }

  /** A rectangle without a corner radius, followed by another command, takes that command's name as its radius and panics. */
  lemma RectangleTakesNextToken(s: real)
    ensures DecodeTokens([JString("R"), Number(1.0), Number(2.0), Number(3.0), Number(4.0), Number(0.0),
                          MoveToken, Number(0.0), Number(0.0)], s).None?
  {
  }

  /** At the end of the path, the corner radius defaults to 0. */
  lemma RectangleCornerDefault(s: real)
    ensures DecodeTokens([JString("R"), Number(1.0), Number(2.0), Number(3.0), Number(4.0), Number(5.0)], s)
            == Some([Rectangle(Point2D(s, -2.0 * s), 3.0 * s, 4.0 * s, 5.0, 0.0)])
  {
    var t := [JString("R"), Number(1.0), Number(2.0), Number(3.0), Number(4.0), Number(5.0)];
    var r := CommandOf(t, s);
    assert r.Some? && r.value.1 == 6 && r.value.0.Rectangle?;
    assert r.value.0.start == Point2D(s, -2.0 * s) && r.value.0.width == 3.0 * s && r.value.0.height == 4.0 * s;
    assert r.value.0.rotation == 5.0 && r.value.0.cornerRadius == 0.0;
    assert r.value.0 == Rectangle(Point2D(s, -2.0 * s), 3.0 * s, 4.0 * s, 5.0, 0.0);
    DecodeStep(t, s);
    assert t[6..] == [] && DecodeTokens(t[6..], s) == Some([]);
    assert [r.value.0] + [] == [r.value.0];
  }

  // ---------------------------------------------------------------------
  // Normalising leaves written commands alone
  // ---------------------------------------------------------------------

  /** Numbers outside a line command pass through the normalising loop untouched. */
  lemma {:induction false} NumbersPass(nums: seq<JsonValue>, rest: seq<JsonValue>, counter: nat)
    requires AllNumbers(nums)
    ensures Normalize(nums + rest, counter, false) == nums + Normalize(rest, counter, false)
  {
    if nums == [] {
      assert nums + rest == rest;
    } else {
      assert (nums + rest)[0] == nums[0] && (nums + rest)[1..] == nums[1..] + rest;
      NumbersPass(nums[1..], rest, counter);
    }
  }

  /** The two numbers of a line command, counted as one pair, need no further `L`. */
  lemma LinePairPasses(x: JsonValue, y: JsonValue, rest: seq<JsonValue>)
    requires !x.JString? && !y.JString?
    requires rest != [] ==> rest[0].JString?
    ensures Normalize([x, y] + rest, 0, true) == [x, y] + Normalize(rest, 2, true)
  {
    assert ([x, y] + rest)[1..] == [y] + rest;
    assert ([y] + rest)[1..] == rest;
  }

  /** The shape of a written command: a name, then numbers only; three tokens for a move or a line. */
  lemma EncodedShape(c: PathCommand, s: real)
    requires s != 0.0
    ensures var e := EncodeCommand(c, s);
            && 3 <= |e| <= 7 && e[0].JString? && (e[0].s == "L" <==> c.LineTo?) && AllNumbers(e[1..])
            && (|e| == 3 <==> c.MoveTo? || c.LineTo?)
  {
  }

  /** Written commands start with a command name. */
  lemma EncodedStartsWithName(cs: seq<PathCommand>, s: real)
    requires s != 0.0
    ensures EncodeCommands(cs, s) != [] ==> EncodeCommands(cs, s)[0].JString?
  {
    if cs != [] {
      EncodedShape(cs[0], s);
    }
  }

  /** A string at the head, seen by the normalising loop. */
  lemma HeadStep(v: JsonValue, t: seq<JsonValue>, counter: nat, isLine: bool)
    requires v.JString?
    ensures Normalize([v] + t, counter, isLine) == [v] + Normalize(t, if v.s == "L" then 0 else counter, v.s == "L")
  {
    assert ([v] + t)[1..] == t;
  }

  /** Written commands come out of the normalising loop as they went in, whatever its state. */
  lemma {:induction false} NormalizeEncoded(cs: seq<PathCommand>, s: real, counter: nat, isLine: bool)
    requires s != 0.0
    ensures Normalize(EncodeCommands(cs, s), counter, isLine) == EncodeCommands(cs, s)
  {
    if cs != [] {
      var e := EncodeCommand(cs[0], s);
      var rest := EncodeCommands(cs[1..], s);
      EncodedShape(cs[0], s);
      var name, nums := e[0], e[1..];
      assert e + rest == [name] + (nums + rest);
      HeadStep(name, nums + rest, counter, isLine);
      if cs[0].LineTo? {
        EncodedStartsWithName(cs[1..], s);
        assert nums == [nums[0], nums[1]];
        LinePairPasses(nums[0], nums[1], rest);
        NormalizeEncoded(cs[1..], s, 2, true);
      } else {
        NumbersPass(nums, rest, counter);
        NormalizeEncoded(cs[1..], s, counter, false);
      }
    }
  }

  /**
   * Tokens whose first three are left alone and whose next ones are numbers
   * pass the normalising loop when what follows them does.
   */
  lemma NormalizeLinesAfter(head: seq<JsonValue>, rest: seq<JsonValue>)
    requires |head| >= 3 && AllNumbers(head[3..]) && Normalize(rest, 0, false) == rest
    ensures NormalizeLines(head + rest) == head + rest
  {
    var tail := head[3..] + rest;
    NumbersPass(head[3..], rest, 0);
    SplitAtThree(head, rest);
    if |head + rest| > 3 {
      calc {
        NormalizeLines(head + rest);
        head[..3] + Normalize(tail, 0, false);
        head[..3] + tail;
        head + rest;
      }
    }
  }

  /** Where the normalising loop starts, in a path made of two parts. */
  lemma SplitAtThree(head: seq<JsonValue>, rest: seq<JsonValue>)
    requires |head| >= 3
    ensures (head + rest)[..3] == head[..3] && (head + rest)[3..] == head[3..] + rest
    ensures head[..3] + (head[3..] + rest) == head + rest
  {
  }

  /** Written commands come out of the whole normalisation as they went in. */
  lemma NormalizeLinesEncoded(cs: seq<PathCommand>, s: real)
    requires cs != [] && s != 0.0
    ensures NormalizeLines(EncodeCommands(cs, s)) == EncodeCommands(cs, s)
  {
    var e := EncodeCommand(cs[0], s);
    EncodedShape(cs[0], s);
    assert AllNumbers(e[3..]) by {
      forall i | 0 <= i < |e[3..]|
        ensures !e[3..][i].JString?
      {
        assert e[3..][i] == e[1..][i + 2];
      }
    }
    NormalizeEncoded(cs[1..], s, 0, false);
    NormalizeLinesAfter(e, EncodeCommands(cs[1..], s));
  }

  /**
   * The whole reader inverts the writer: the tokens of a non-empty list of
   * commands are parsed back into that list.
   */
  lemma ParseEncoded(cs: seq<PathCommand>, s: real)
    requires cs != [] && s != 0.0
    ensures ParsePath(EncodeCommands(cs, s), s) == Some(cs)
  {
    var t := EncodeCommands(cs, s);
    EncodedStartsWithName(cs, s);
    EncodedShape(cs[0], s);
    assert t != [];
    assert WithLeadingMove(t) == Some(t);
    NormalizeLinesEncoded(cs, s);
    DecodeEncoded(cs, s);
  }

  // ---------------------------------------------------------------------
  // Bounding boxes
  // ---------------------------------------------------------------------

  /** `f32::MAX`, where an empty box starts. */
  const F32_MAX: real := 340282346638528859811704183484516925440.0

  datatype BoundingBox = BoundingBox(min: Point2D, max: Point2D)

  /** The box before any shape: `min` at `f32::MAX`, `max` at `f32::MIN`. */
  const EmptyBox := BoundingBox(Point2D(F32_MAX, F32_MAX), Point2D(-F32_MAX, -F32_MAX))

  function Min(a: real, b: real): real { if a <= b then a else b }
  function Max(a: real, b: real): real { if a >= b then a else b }

  /** The box grown to the point, coordinate by coordinate. */
  function Include(b: BoundingBox, p: Point2D): (r: BoundingBox)
    ensures Covers(r, p)
    ensures r.min.x <= b.min.x && r.min.y <= b.min.y && b.max.x <= r.max.x && b.max.y <= r.max.y
  {
    BoundingBox(Point2D(Min(b.min.x, p.x), Min(b.min.y, p.y)), Point2D(Max(b.max.x, p.x), Max(b.max.y, p.y)))
  }

  predicate Covers(b: BoundingBox, p: Point2D)
  {
    b.min.x <= p.x <= b.max.x && b.min.y <= p.y <= b.max.y
  }

  /** The cosine and sine of an angle in degrees (`to_radians().cos()`, `.sin()`), which the model takes as given. */
  type Trig = real -> (real, real)

  /** The four corners of a rectangle turned about its start, in the source's order. */
  function Corners(start: Point2D, width: real, height: real, cosRot: real, sinRot: real): seq<Point2D>
  {
    [start,
     Point2D(start.x + width * cosRot, start.y + width * sinRot),
     Point2D(start.x - height * sinRot, start.y + height * cosRot),
     Point2D(start.x + width * cosRot - height * sinRot, start.y + width * sinRot + height * cosRot)]
  }

  function IncludeAll(b: BoundingBox, ps: seq<Point2D>): BoundingBox
    decreases |ps|
  {
    if ps == [] then b else IncludeAll(Include(b, ps[0]), ps[1..])
  }

  /**
   * `expand_bbox_to_shape`: the box grown to the command's point, to the
   * square around a circle, or to the corners of a rectangle. None is the
   * panic on a negative radius or a negative rectangle side.
   */
  function ExpandBox(c: PathCommand, b: BoundingBox, trig: Trig): (r: Option<BoundingBox>)
    ensures r.None? <==> (c.Circle? && c.radius < 0.0) || (c.Rectangle? && (c.width < 0.0 || c.height < 0.0))
  {
    match c
    case MoveTo(p) => Some(Include(b, p))
    case LineTo(p) => Some(Include(b, p))
    case ArcTo(e, _) => Some(Include(b, e))
    case CenterArcTo(e, _) => Some(Include(b, e))
    case Circle(center, radius) =>
      if radius < 0.0 then None
      else Some(BoundingBox(Point2D(Min(b.min.x, center.x - radius), Min(b.min.y, center.y - radius)),
                            Point2D(Max(b.max.x, center.x + radius), Max(b.max.y, center.y + radius))))
    case Rectangle(start, width, height, rotation, _) =>
      if width < 0.0 || height < 0.0 then None
      else
        var (cosRot, sinRot) := trig(rotation);
        Some(IncludeAll(b, Corners(start, width, height, cosRot, sinRot)))
  }

  /** The same, updating `min` and `max` in place, corner after corner for a rectangle. */
  method ExpandBBoxToShape(c: PathCommand, b: BoundingBox, trig: Trig) returns (r: Option<BoundingBox>)
    ensures r == ExpandBox(c, b, trig)
  {
    var min, max := b.min, b.max;
    match c {
      case MoveTo(p) =>
        min, max := Point2D(Min(min.x, p.x), Min(min.y, p.y)), Point2D(Max(max.x, p.x), Max(max.y, p.y));
      case LineTo(p) =>
        min, max := Point2D(Min(min.x, p.x), Min(min.y, p.y)), Point2D(Max(max.x, p.x), Max(max.y, p.y));
      case ArcTo(e, _) =>
        min, max := Point2D(Min(min.x, e.x), Min(min.y, e.y)), Point2D(Max(max.x, e.x), Max(max.y, e.y));
      case CenterArcTo(e, _) =>
        min, max := Point2D(Min(min.x, e.x), Min(min.y, e.y)), Point2D(Max(max.x, e.x), Max(max.y, e.y));
      case Circle(center, radius) =>
        if radius < 0.0 {
          return None;
        }
        min := Point2D(Min(min.x, center.x - radius), Min(min.y, center.y - radius));
        max := Point2D(Max(max.x, center.x + radius), Max(max.y, center.y + radius));
      case Rectangle(start, width, height, rotation, _) =>
        if width < 0.0 || height < 0.0 {
          return None;
        }
        var (cosRot, sinRot) := trig(rotation);
        var corners := Corners(start, width, height, cosRot, sinRot);
        for i := 0 to |corners|
          invariant IncludeAll(BoundingBox(min, max), corners[i..]) == IncludeAll(b, corners)
        {
          assert corners[i..][1..] == corners[i + 1..];
          min := Point2D(Min(min.x, corners[i].x), Min(min.y, corners[i].y));
          max := Point2D(Max(max.x, corners[i].x), Max(max.y, corners[i].y));
        }
        assert corners[|corners|..] == [];
    }
    r := Some(BoundingBox(min, max));
  }

  /** Growing a box keeps everything it already covered. */
  lemma {:induction false} IncludeAllGrows(b: BoundingBox, ps: seq<Point2D>, q: Point2D)
    requires Covers(b, q)
    ensures Covers(IncludeAll(b, ps), q)
    decreases |ps|
  {
    if ps != [] {
      IncludeAllGrows(Include(b, ps[0]), ps[1..], q);
    }
  }

  /** The grown box covers every point it was grown to, and everything the old box covered. */
  lemma {:induction false} IncludeAllCovers(b: BoundingBox, ps: seq<Point2D>)
    ensures forall i | 0 <= i < |ps| :: Covers(IncludeAll(b, ps), ps[i])
    ensures forall q | Covers(b, q) :: Covers(IncludeAll(b, ps), q)
    decreases |ps|
  {
    if ps != [] {
      IncludeAllCovers(Include(b, ps[0]), ps[1..]);
      IncludeAllGrows(Include(b, ps[0]), ps[1..], ps[0]);
      forall i | 1 <= i < |ps|
        ensures Covers(IncludeAll(b, ps), ps[i])
      {
        assert ps[i] == ps[1..][i - 1];
      }
    }
  }

  /**
   * An unrotated rectangle (cosine 1, sine 0) grows the box to cover its
   * start and its far corner, and the box keeps what it covered.
   */
  lemma UnrotatedRectangleCovered(start: Point2D, width: real, height: real, corner: real, b: BoundingBox, trig: Trig)
    requires width >= 0.0 && height >= 0.0 && trig(0.0) == (1.0, 0.0)
    ensures var r := ExpandBox(Rectangle(start, width, height, 0.0, corner), b, trig);
            && r.Some? && Covers(r.value, start) && Covers(r.value, Point2D(start.x + width, start.y + height))
            && forall q | Covers(b, q) :: Covers(r.value, q)
  {
    var corners := Corners(start, width, height, 1.0, 0.0);
    IncludeAllCovers(b, corners);
    assert corners[3] == Point2D(start.x + width, start.y + height);
  }

  /** A circle grows the box to cover its centre and the points a radius away along either axis. */
  lemma CircleCovered(center: Point2D, radius: real, b: BoundingBox, trig: Trig)
    requires radius >= 0.0
    ensures var r := ExpandBox(Circle(center, radius), b, trig);
            && r.Some? && Covers(r.value, center)
            && Covers(r.value, Point2D(center.x - radius, center.y - radius))
            && Covers(r.value, Point2D(center.x + radius, center.y + radius))
            && forall q | Covers(b, q) :: Covers(r.value, q)
  {
  }

  /** Starting from the empty box, a point within `f32` range yields the box of that point alone. */
  lemma FirstPointBox(p: Point2D, trig: Trig)
    requires -F32_MAX <= p.x <= F32_MAX && -F32_MAX <= p.y <= F32_MAX
    ensures ExpandBox(MoveTo(p), EmptyBox, trig) == Some(BoundingBox(p, p))
  {
  }
}

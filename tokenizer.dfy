/**
 * The character tokenizer of `src/kicad/syntax.rs` (`KiCadParser::tokenize`).
 *
 * `ScanAt` is the step the tokenizer takes at one offset and `LexRest` the
 * tokens it emits from an offset onwards, with every word run still raw;
 * `Lex` then turns each run into a Number token when it parses as `f32`
 * and into an Identifier token otherwise. `Tokenize` is the character loop
 * of the source, proved to compute `Lex`. A panic of the source is `None`.
 */
module Tokenizer {
  import opened Wrappers
  import opened Numbers

  /** Rust's `Token`; each token records the character offset the tokenizer had reached. */
  datatype Token =
    | OpenParen(pos: nat)
    | CloseParen(pos: nat)
    | IdentifierToken(pos: nat, text: string)
    | QuotedStringToken(pos: nat, text: string)
    | NumberToken(pos: nat, num: Num)

  /** `char::is_alphanumeric` on ASCII; the Unicode letters and digits beyond it are not modelled. */
  predicate IsAsciiAlphanumeric(c: char)
  {
    ('a' <= c <= 'z') || ('A' <= c <= 'Z') || ('0' <= c <= '9')
  }

  /** `is_char_identifier_or_numeric`: letters, digits and `_ - . * %`. */
  predicate IsCharIdentifierOrNumeric(c: char)
  {
    IsAsciiAlphanumeric(c) || c == '_' || c == '-' || c == '.' || c == '*' || c == '%'
  }

  predicate IsWhitespace(c: char) { c == ' ' || c == '\r' || c == '\n' }

  /** The characters that may end an identifier run without a panic. */
  predicate IsRunBreak(c: char) { c == ' ' || c == ')' || c == '\r' || c == '\n' }

  /** Index of the first `"` at or after `i`, or `|s|`. */
  function QuoteEnd(s: string, i: nat): (j: nat)
    requires i <= |s|
    ensures i <= j <= |s|
    decreases |s| - i
  {
    if i == |s| || s[i] == '"' then i else QuoteEnd(s, i + 1)
  }

  /** End of the identifier run that starts at `i`: the first offset that is not a word character. */
  function RunEnd(s: string, i: nat): (j: nat)
    requires i <= |s|
    ensures i <= j <= |s|
    decreases |s| - i
  {
    if i == |s| || !IsCharIdentifierOrNumeric(s[i]) then i else RunEnd(s, i + 1)
  }

  /** The characters from `i` up to the next `"`. */
  function QuotedText(s: string, i: nat): string
    requires i <= |s|
    decreases |s| - i
  {
    if i == |s| || s[i] == '"' then [] else [s[i]] + QuotedText(s, i + 1)
  }

  /** The characters of the identifier run that starts at `i`. */
  function RunText(s: string, i: nat): string
    requires i <= |s|
    decreases |s| - i
  {
    if i == |s| || !IsCharIdentifierOrNumeric(s[i]) then [] else [s[i]] + RunText(s, i + 1)
  }

  lemma {:induction false} QuotedTextIs(s: string, i: nat)
    requires i <= |s|
    ensures QuotedText(s, i) == s[i..QuoteEnd(s, i)]
    decreases |s| - i
  {
    if i < |s| && s[i] != '"' {
      QuotedTextIs(s, i + 1);
      assert s[i..QuoteEnd(s, i)] == [s[i]] + s[i + 1..QuoteEnd(s, i + 1)];
    }
  }

  lemma {:induction false} RunTextIs(s: string, i: nat)
    requires i <= |s|
    ensures RunText(s, i) == s[i..RunEnd(s, i)]
    decreases |s| - i
  {
    if i < |s| && IsCharIdentifierOrNumeric(s[i]) {
      RunTextIs(s, i + 1);
      assert s[i..RunEnd(s, i)] == [s[i]] + s[i + 1..RunEnd(s, i + 1)];
    }
  }

  /** QuoteEnd finds the first `"` at or after `i`: every offset `m` before which there is none and at which there is one (or the text ends). */
  lemma {:induction false} QuoteEndIs(s: string, i: nat, m: nat)
    requires i <= m <= |s|
    requires m < |s| ==> s[m] == '"'
    requires forall k | i <= k < m :: s[k] != '"'
    ensures QuoteEnd(s, i) == m
    decreases m - i
  {
    if i < m {
      QuoteEndIs(s, i + 1, m);
    }
  }

  /** RunEnd finds the end of the run: the offset `m` up to which all characters are word characters and at which one is not (or the text ends). */
  lemma {:induction false} RunEndIs(s: string, i: nat, m: nat)
    requires i <= m <= |s|
    requires m < |s| ==> !IsCharIdentifierOrNumeric(s[m])
    requires forall k | i <= k < m :: IsCharIdentifierOrNumeric(s[k])
    ensures RunEnd(s, i) == m
    decreases m - i
  {
    if i < m {
      RunEndIs(s, i + 1, m);
    }
  }

  /** A finished run is a Number token when it parses as `f32`, else an Identifier token. */
  function WordToken(text: string, pos: nat): Token
  {
    match ParseF32(text)
    case Some(n) => NumberToken(pos, n)
    case None => IdentifierToken(pos, text)
  }

  /**
   * What the tokenizer does at the front of the remaining input: skip
   * characters, emit a token, or panic. `next` counts the characters
   * consumed, and a token's offset is counted from the same front.
   */
  datatype Lexeme = Skip(next: nat) | Emit(token: Token, next: nat) | Panic

  /**
   * The step the tokenizer takes at the front of the non-empty remaining
   * input `t`. A word run is emitted raw, as an Identifier token holding its text.
   */
  function ScanAt(t: string): (r: Lexeme)
    requires |t| > 0
    ensures !r.Panic? ==> 0 < r.next <= |t|
  {
    var c := t[0];
    if IsWhitespace(c) then Skip(1)
    else if c == '(' then Emit(OpenParen(0), 1)
    else if c == ')' then Emit(CloseParen(0), 1)
    else if c == '"' then
      var j := QuoteEnd(t, 1);
      var next := if j < |t| then j + 1 else j;
      Emit(QuotedStringToken(next, QuotedText(t, 1)), next)
    else if IsCharIdentifierOrNumeric(c) then
      var j := RunEnd(t, 0);
      if j < |t| && !IsRunBreak(t[j]) then Panic else Emit(IdentifierToken(j, RunText(t, 0)), j)
    else Skip(1)
  }

  /** A token's offset moved on by `d`. */
  function Offset(t: Token, d: nat): Token
  {
    t.(pos := t.pos + d)
  }

  function Prepend(t: Token, rest: Option<seq<Token>>): Option<seq<Token>>
  {
    match rest
    case None => None
    case Some(ts) => Some([t] + ts)
  }

  function PrependAll(ts: seq<Token>, rest: Option<seq<Token>>): Option<seq<Token>>
  {
    match rest
    case None => None
    case Some(us) => Some(ts + us)
  }

  /**
   * The tokens emitted over the remaining input `t`, which starts at offset
   * `base` of the whole text, word runs raw; None is a panic.
   */
  function LexRest(t: string, base: nat): Option<seq<Token>>
    decreases |t|
  {
    if t == [] then Some([])
    else
      match ScanAt(t)
      case Panic => None
      case Skip(n) => LexRest(t[n..], base + n)
      case Emit(tok, n) => Prepend(Offset(tok, base), LexRest(t[n..], base + n))
  }

  /** A raw word run becomes a Number or an Identifier token; other tokens stay. */
  function Classify(t: Token): Token
  {
    if t.IdentifierToken? then WordToken(t.text, t.pos) else t
  }

  function ClassifyAll(ts: seq<Token>): (r: seq<Token>)
    ensures |r| == |ts|
  {
    if ts == [] then [] else [Classify(ts[0])] + ClassifyAll(ts[1..])
  }

  function ClassifyOpt(o: Option<seq<Token>>): Option<seq<Token>>
  {
    match o
    case None => None
    case Some(ts) => Some(ClassifyAll(ts))
  }

  /** The result of `tokenize` on the whole input. */
  function Lex(s: string): Option<seq<Token>>
  {
    ClassifyOpt(LexRest(s, 0))
  }

  lemma PrependAllStep(acc: seq<Token>, t: Token, rest: Option<seq<Token>>)
    ensures PrependAll(acc, Prepend(t, rest)) == PrependAll(acc + [t], rest)
  {
    if rest.Some? {
      assert acc + ([t] + rest.value) == (acc + [t]) + rest.value;
    }
  }

  /** Classifying one more token at the end. */
  lemma {:induction false} ClassifyAllSnoc(ts: seq<Token>, t: Token)
    ensures ClassifyAll(ts + [t]) == ClassifyAll(ts) + [Classify(t)]
  {
    if ts != [] {
      assert (ts + [t])[1..] == ts[1..] + [t];
      ClassifyAllSnoc(ts[1..], t);
    } else {
      assert [t][1..] == [];
    }
  }

  /** The inner loop over a quoted string: its text and the offset after the closing quote. */
  method ScanQuoted(input: string, open: nat) returns (text: string, next: nat)
    requires open < |input| && input[open] == '"'
    ensures var t := input[open..];
      var j := QuoteEnd(t, 1);
      text == QuotedText(t, 1) && next == open + (if j < |t| then j + 1 else j)
  {
    next := open + 1;
    text := "";
    var closed := false;
    while next < |input| && !closed
      invariant open + 1 <= next <= |input|
      invariant !closed ==> text == input[open + 1..next]
      invariant closed ==> next >= open + 2 && input[next - 1] == '"' && text == input[open + 1..next - 1]
      invariant forall k | open + 1 <= k < next - (if closed then 1 else 0) :: input[k] != '"'
      decreases |input| - next, if closed then 0 else 1
    {
      var c := input[next];
      next := next + 1;
      if c == '"' {
        closed := true;
      } else {
        text := text + [c];
      }
    }
    var j := if closed then next - 1 else next;
    var t := input[open..];
    QuoteEndIs(t, 1, j - open);
    QuotedTextIs(t, 1);
    assert t[1..j - open] == input[open + 1..j];
  }

  /** The inner loop over an identifier run: its text and the offset where it stops. */
  method ScanRun(input: string, start: nat) returns (text: string, end: nat)
    requires start <= |input|
    ensures var t := input[start..];
      end == start + RunEnd(t, 0) && text == RunText(t, 0)
  {
    end := start;
    text := "";
    while end < |input| && IsCharIdentifierOrNumeric(input[end])
      invariant start <= end <= |input|
      invariant text == input[start..end]
      invariant forall k | start <= k < end :: IsCharIdentifierOrNumeric(input[k])
    {
      text := text + [input[end]];
      end := end + 1;
    }
    var t := input[start..];
    RunEndIs(t, 0, end - start);
    RunTextIs(t, 0);
    assert t[0..end - start] == input[start..end];
  }

  /** The raw token a step emits, with its offset counted from the start of the whole text. */
  function Emitted(x: Lexeme, position: nat): Option<Token>
  {
    if x.Emit? then Some(Offset(x.token, position)) else None
  }

  function ClassifyOption(o: Option<Token>): Option<Token>
  {
    match o
    case None => None
    case Some(t) => Some(Classify(t))
  }

  /** The tokens an optional token contributes. */
  function Listed(o: Option<Token>): seq<Token>
  {
    match o
    case None => []
    case Some(t) => [t]
  }

  /**
   * One turn of the tokenizer's outer loop, at offset `position`: the token
   * it pushes (None for a skipped character), where it goes on, or a panic.
   * `raw` is the token before its word run is classified.
   */
  method Advance(input: string, position: nat) returns (token: Option<Token>, next: nat, panic: bool, ghost raw: Option<Token>)
    requires position < |input|
    ensures var x := ScanAt(input[position..]);
      (panic <==> x.Panic?)
      && (!x.Panic? ==> next == position + x.next && raw == Emitted(x, position))
      && (x.Panic? ==> raw.None? && position < next <= |input|)
      && token == ClassifyOption(raw)
  {
    var ch := input[position];
    assert input[position..][0] == ch;
    token, next, panic, raw := None, position + 1, false, None;
    if ch == '(' {
      token := Some(OpenParen(position));
      raw := token;
    } else if ch == ')' {
      token := Some(CloseParen(position));
      raw := token;
    } else if ch == '"' {
      var text;
      text, next := ScanQuoted(input, position);
      token := Some(QuotedStringToken(next, text));
      raw := token;
    } else if !IsWhitespace(ch) && IsCharIdentifierOrNumeric(ch) {
      var text;
      text, next := ScanRun(input, position);
      if next < |input| && !IsRunBreak(input[next]) {
        assert input[position..][next - position] == input[next];
        panic := true;
      } else {
        raw := Some(IdentifierToken(next, text));
        token := match ParseF32(text)
          case Some(n) => Some(NumberToken(next, n))
          case None => Some(IdentifierToken(next, text));
      }
    }
  }

  /** A turn of the outer loop that panics: nothing is tokenized. */
  lemma PanicTurn(s: string, i: nat)
    requires i < |s| && ScanAt(s[i..]).Panic?
    ensures LexRest(s[i..], i) == None
  {
  }

  /** A turn of the outer loop that does not panic moves the emitted token from the rest of the text to the tokens seen. */
  lemma Turn(s: string, i: nat, raws: seq<Token>, raw: Option<Token>, next: nat)
    requires i < |s|
    requires var x := ScanAt(s[i..]); !x.Panic? && next == i + x.next && raw == Emitted(x, i)
    ensures i < next <= |s|
    ensures PrependAll(raws, LexRest(s[i..], i)) == PrependAll(raws + Listed(raw), LexRest(s[next..], next))
  {
    var x := ScanAt(s[i..]);
    assert s[i..][x.next..] == s[next..];
    if x.Emit? {
      PrependAllStep(raws, Offset(x.token, i), LexRest(s[next..], next));
    } else {
      assert raws + [] == raws;
    }
  }

  /** Classifying the tokens seen, one more turn on. */
  lemma ClassifyTurn(raws: seq<Token>, raw: Option<Token>)
    ensures ClassifyAll(raws + Listed(raw)) == ClassifyAll(raws) + Listed(ClassifyOption(raw))
  {
    if raw.Some? {
      ClassifyAllSnoc(raws, raw.value);
    } else {
      assert raws + [] == raws;
      assert ClassifyAll(raws) + [] == ClassifyAll(raws);
    }
  }

  /** `KiCadParser::tokenize`, with `None` for the panic on a badly ended identifier run. */
  method Tokenize(input: string) returns (tokens: Option<seq<Token>>)
    ensures tokens == Lex(input)
  {
    var acc: seq<Token> := [];
    var position: nat := 0;
    ghost var raws: seq<Token> := [];
    assert input[0..] == input;
    if LexRest(input, 0).Some? {
      assert [] + LexRest(input, 0).value == LexRest(input, 0).value;
    }
    while position < |input|
      invariant position <= |input|
      invariant LexRest(input, 0) == PrependAll(raws, LexRest(input[position..], position))
      invariant acc == ClassifyAll(raws)
      decreases |input| - position
    {
      var token, next, panic, raw := Advance(input, position);
      if panic {
        PanicTurn(input, position);
        return None;
      }
      Turn(input, position, raws, raw, next);
      ClassifyTurn(raws, raw);
      raws := raws + Listed(raw);
      acc := acc + Listed(token);
      position := next;
    }
    assert input[position..] == [];
    assert raws + [] == raws;
    return Some(acc);
  }

  /** A token with its offset cleared, to compare token sequences by content. */
  function Erase(t: Token): Token
  {
    match t
    case OpenParen(_) => OpenParen(0)
    case CloseParen(_) => CloseParen(0)
    case IdentifierToken(_, w) => IdentifierToken(0, w)
    case QuotedStringToken(_, w) => QuotedStringToken(0, w)
    case NumberToken(_, n) => NumberToken(0, n)
  }

  function EraseAll(ts: seq<Token>): (r: seq<Token>)
    ensures |r| == |ts|
  {
    if ts == [] then [] else [Erase(ts[0])] + EraseAll(ts[1..])
  }

  function EraseOpt(o: Option<seq<Token>>): Option<seq<Token>>
  {
    match o
    case None => None
    case Some(ts) => Some(EraseAll(ts))
  }

  lemma ErasePrepend(t: Token, rest: Option<seq<Token>>)
    ensures EraseOpt(Prepend(t, rest)) == Prepend(Erase(t), EraseOpt(rest))
  {
    if rest.Some? {
      assert ([t] + rest.value)[1..] == rest.value;
    }
  }

  lemma EraseOffset(t: Token, d: nat, e: nat)
    ensures Erase(Offset(t, d)) == Erase(Offset(t, e))
  {
  }

  /** Lexing does not depend on where the remaining input starts, up to offsets. */
  lemma {:induction false} LexBase(t: string, a: nat, b: nat)
    ensures EraseOpt(LexRest(t, a)) == EraseOpt(LexRest(t, b))
    decreases |t|
  {
    if t != [] {
      var x := ScanAt(t);
      if !x.Panic? {
        LexBase(t[x.next..], a + x.next, b + x.next);
        if x.Emit? {
          ErasePrepend(Offset(x.token, a), LexRest(t[x.next..], a + x.next));
          ErasePrepend(Offset(x.token, b), LexRest(t[x.next..], b + x.next));
          EraseOffset(x.token, a, b);
        }
      }
    }
  }

  /** Clearing offsets and classifying word runs can be done in either order. */
  lemma {:induction false} EraseClassify(ts: seq<Token>)
    ensures EraseAll(ClassifyAll(ts)) == ClassifyAll(EraseAll(ts))
  {
    if ts != [] {
      EraseClassify(ts[1..]);
      assert EraseAll(ts)[1..] == EraseAll(ts[1..]);
      assert ClassifyAll(ts)[1..] == ClassifyAll(ts[1..]);
    }
  }

  /** The tokens the plain spelling below can carry. */
  predicate Spellable(t: Token)
  {
    match t
    case OpenParen(_) => true
    case CloseParen(_) => true
    case IdentifierToken(_, w) =>
      |w| > 0 && (forall i | 0 <= i < |w| :: IsCharIdentifierOrNumeric(w[i])) && ParseF32(w).None?
    case QuotedStringToken(_, w) => forall i | 0 <= i < |w| :: w[i] != '"'
    case NumberToken(_, n) => n.Finite? && n.value.Floor as real == n.value
  }

  /** A plain spelling of one token: words are followed by a space, strings are quoted. */
  function SpellToken(t: Token): string
  {
    match t
    case OpenParen(_) => "("
    case CloseParen(_) => ")"
    case IdentifierToken(_, w) => w + " "
    case QuotedStringToken(_, w) => "\"" + w + "\""
    case NumberToken(_, n) => NumberText(n) + " "
  }

  function Spell(ts: seq<Token>): string
  {
    if ts == [] then "" else SpellToken(ts[0]) + Spell(ts[1..])
  }

  /** The token a spelled token comes back as before word runs are classified. */
  function Raw(t: Token): Token
  {
    if t.NumberToken? then IdentifierToken(t.pos, NumberText(t.num)) else t
  }

  function RawAll(ts: seq<Token>): seq<Token>
  {
    if ts == [] then [] else [Raw(ts[0])] + RawAll(ts[1..])
  }

  /** The text of a whole number is a run of identifier characters. */
  lemma WholeNumberTextIsRun(k: int)
    ensures var w := NumberText(Finite(k as real));
      |w| > 0 && forall i | 0 <= i < |w| :: IsCharIdentifierOrNumeric(w[i])
  {
    WholeNumberText(k);
  }

  /** A word followed by a space lexes as one raw word token. */
  lemma LexWord(w: string, rest: string)
    requires |w| > 0 && forall i | 0 <= i < |w| :: IsCharIdentifierOrNumeric(w[i])
    ensures EraseOpt(LexRest(w + " " + rest, 0))
         == Prepend(IdentifierToken(0, w), EraseOpt(LexRest(rest, 0)))
  {
    var s := w + " " + rest;
    assert s == w + (" " + rest);
    RunEndIs(s, 0, |w|);
    assert s[0..|w|] == w;
    RunTextIs(s, 0);
    assert ScanAt(s) == Emit(IdentifierToken(|w|, w), |w|);
    assert s[|w|..] == " " + rest;
    assert ScanAt(" " + rest) == Skip(1);
    assert (" " + rest)[1..] == rest;
    assert LexRest(s, 0) == Prepend(IdentifierToken(|w|, w), LexRest(rest, |w| + 1));
    LexBase(rest, |w| + 1, 0);
    ErasePrepend(IdentifierToken(|w|, w), LexRest(rest, |w| + 1));
  }

  lemma LexQuoted(w: string, rest: string)
    requires forall i | 0 <= i < |w| :: w[i] != '"'
    ensures EraseOpt(LexRest("\"" + w + "\"" + rest, 0))
         == Prepend(QuotedStringToken(0, w), EraseOpt(LexRest(rest, 0)))
  {
    var q := "\"" + w + "\"";
    var s := q + rest;
    QuoteEndIs(s, 1, |w| + 1);
    assert s[1..|w| + 1] == w;
    QuotedTextIs(s, 1);
    assert ScanAt(s) == Emit(QuotedStringToken(|w| + 2, w), |w| + 2);
    assert s[|w| + 2..] == rest;
    LexBase(rest, |w| + 2, 0);
    ErasePrepend(QuotedStringToken(|w| + 2, w), LexRest(rest, |w| + 2));
  }

  lemma LexParen(t: Token, rest: string)
    requires t.OpenParen? || t.CloseParen?
    ensures EraseOpt(LexRest(SpellToken(t) + rest, 0))
         == Prepend(Erase(t), EraseOpt(LexRest(rest, 0)))
  {
    var s := SpellToken(t) + rest;
    assert s[1..] == rest;
    LexBase(rest, 1, 0);
    if t.OpenParen? {
      assert ScanAt(s) == Emit(OpenParen(0), 1);
      ErasePrepend(OpenParen(0), LexRest(rest, 1));
    } else {
      assert ScanAt(s) == Emit(CloseParen(0), 1);
      ErasePrepend(CloseParen(0), LexRest(rest, 1));
    }
  }

  /** One spelled token at the front of a text lexes back to its raw form. */
  lemma LexSpelledToken(t: Token, rest: string)
    requires Spellable(t)
    ensures EraseOpt(LexRest(SpellToken(t) + rest, 0))
         == Prepend(Erase(Raw(t)), EraseOpt(LexRest(rest, 0)))
  {
    match t
    case OpenParen(_) => LexParen(t, rest);
    case CloseParen(_) => LexParen(t, rest);
    case IdentifierToken(_, w) =>
      LexWord(w, rest);
    case QuotedStringToken(_, w) =>
      LexQuoted(w, rest);
    case NumberToken(_, n) =>
      WholeNumberTextIsRun(n.value.Floor);
      assert n == Finite(n.value.Floor as real);
      LexWord(NumberText(n), rest);
  }

  /** Classifying the raw form of a spellable token gives the token back. */
  lemma ClassifyRaw(t: Token)
    requires Spellable(t)
    ensures Classify(Erase(Raw(t))) == Erase(t)
  {
    if t.NumberToken? {
      var k := t.num.value.Floor;
      assert t.num == Finite(k as real);
      WholeNumberRoundTrip(k);
    }
  }

  lemma {:induction false} SpellRawRoundTrip(ts: seq<Token>)
    requires forall i | 0 <= i < |ts| :: Spellable(ts[i])
    ensures EraseOpt(LexRest(Spell(ts), 0)) == Some(EraseAll(RawAll(ts)))
  {
    if ts != [] {
      SpellRawRoundTrip(ts[1..]);
      LexSpelledToken(ts[0], Spell(ts[1..]));
    }
  }

  lemma {:induction false} ClassifyRawAll(ts: seq<Token>)
    requires forall i | 0 <= i < |ts| :: Spellable(ts[i])
    ensures ClassifyAll(EraseAll(RawAll(ts))) == EraseAll(ts)
  {
    if ts != [] {
      ClassifyRawAll(ts[1..]);
      ClassifyRaw(ts[0]);
    }
  }

  /** Tokenizing the spelling of well-formed tokens gives those tokens back, up to offsets. */
  lemma SpellRoundTrip(ts: seq<Token>)
    requires forall i | 0 <= i < |ts| :: Spellable(ts[i])
    ensures EraseOpt(Lex(Spell(ts))) == Some(EraseAll(ts))
  {
    SpellRawRoundTrip(ts);
    var raw := LexRest(Spell(ts), 0).value;
    EraseClassify(raw);
    ClassifyRawAll(ts);
  }

  /** A character that is neither white space, a bracket, a quote nor a word character is dropped. */
  lemma LexDropsStrayCharacter(c: char, rest: string)
    requires !IsWhitespace(c) && c != '(' && c != ')' && c != '"' && !IsCharIdentifierOrNumeric(c)
    ensures EraseOpt(Lex([c] + rest)) == EraseOpt(Lex(rest))
  {
    assert ScanAt([c] + rest) == Skip(1);
    assert ([c] + rest)[1..] == rest;
    LexBase(rest, 1, 0);
    if LexRest(rest, 0).Some? {
      EraseClassify(LexRest(rest, 0).value);
      EraseClassify(LexRest(rest, 1).value);
    }
  }

  /** A word run that stops at anything but a space, `)` or a line break makes the tokenizer panic. */
  lemma LexPanicsOnBadRunEnd(w: string, c: char, rest: string)
    requires |w| > 0 && forall i | 0 <= i < |w| :: IsCharIdentifierOrNumeric(w[i])
    requires !IsCharIdentifierOrNumeric(c) && !IsRunBreak(c)
    ensures Lex(w + [c] + rest) == None
  {
    var s := w + [c] + rest;
    RunEndIs(s, 0, |w|);
    assert s[|w|] == c;
    assert ScanAt(s) == Panic;
  }

  /**
   * Text inside a string is not escaped when printed, so a quote inside it
   * ends the string: `"a"b"` is read as the string `a`, and `b` onwards is
   * tokenized as what follows.
   */
  lemma LexQuoteInsideText(a: string, b: string, rest: string)
    requires forall i | 0 <= i < |a| :: a[i] != '"'
    ensures EraseOpt(LexRest("\"" + (a + "\"" + b) + "\"" + rest, 0))
         == Prepend(QuotedStringToken(0, a), EraseOpt(LexRest(b + "\"" + rest, 0)))
    ensures a != a + "\"" + b
  {
    assert "\"" + (a + "\"" + b) + "\"" + rest == "\"" + a + "\"" + (b + "\"" + rest);
    LexQuoted(a, b + "\"" + rest);
    assert |a + "\"" + b| > |a|;
  }

  /** A quote that is never closed takes the rest of the input as its text. */
  lemma LexUnterminatedString(w: string)
    requires forall i | 0 <= i < |w| :: w[i] != '"'
    ensures Lex("\"" + w) == Some([QuotedStringToken(|w| + 1, w)])
  {
    var s := "\"" + w;
    QuoteEndIs(s, 1, |s|);
    assert s[1..|w| + 1] == w;
    QuotedTextIs(s, 1);
    assert ScanAt(s) == Emit(QuotedStringToken(|w| + 1, w), |s|);
    var t := QuotedStringToken(|w| + 1, w);
    assert s[|s|..] == [];
    assert LexRest(s, 0) == Some([t] + []);
    assert [t] + [] == [t];
    assert ClassifyAll([t]) == [Classify(t)] + ClassifyAll([]);
  }
}

/**
 * The tree builder and the token generator of `src/kicad/syntax.rs`:
 * `parse_syntax_item` turns a token list into a `SyntaxItem` with a stack of
 * open nodes, and `generate_tokens` turns a tree back into tokens, placing
 * each node's arguments and child nodes by their `PositionPreference`.
 */
module TreeParser {
  import opened Wrappers
  import opened Syntax
  import opened Tokenizer

  // ---------------------------------------------------------------------
  // parse_syntax_item
  // ---------------------------------------------------------------------

  function AddArgument(item: SyntaxItem, a: SyntaxArgument): SyntaxItem
  {
    item.(arguments := item.arguments + [a])
  }

  function AddChild(item: SyntaxItem, child: SyntaxItem): SyntaxItem
  {
    item.(children := item.children + [child])
  }

  /**
   * What one token does to the stack of open nodes (the front of the
   * `VecDeque` is index 0); None is a panic.
   */
  function Step(stack: seq<SyntaxItem>, t: Token): Option<seq<SyntaxItem>>
  {
    match t
    case OpenParen(_) => Some([SyntaxItem("", [], [])] + stack)
    case CloseParen(_) =>
      if stack == [] then None
      else if |stack| == 1 then Some(stack)
      else Some([AddChild(stack[1], stack[0])] + stack[2..])
    case IdentifierToken(_, s) =>
      if stack == [] then None
      else if stack[0].name == "" then Some([stack[0].(name := s)] + stack[1..])
      else Some([AddArgument(stack[0], Identifier(s, Neutral))] + stack[1..])
    case QuotedStringToken(_, s) =>
      if stack == [] then None else Some([AddArgument(stack[0], QuotedString(s, Neutral))] + stack[1..])
    case NumberToken(_, n) =>
      if stack == [] then None else Some([AddArgument(stack[0], Number(n, Neutral))] + stack[1..])
  }

  /** The stack after all of `ts`, starting from `stack`. */
  function Run(stack: seq<SyntaxItem>, ts: seq<Token>): Option<seq<SyntaxItem>>
    decreases |ts|
  {
    if ts == [] then Some(stack)
    else
      match Step(stack, ts[0])
      case None => None
      case Some(next) => Run(next, ts[1..])
  }

  function Then(o: Option<seq<SyntaxItem>>, ts: seq<Token>): Option<seq<SyntaxItem>>
  {
    match o
    case None => None
    case Some(stack) => Run(stack, ts)
  }

  /** The result of `parse_syntax_item`: the front of the final stack; None is a panic. */
  function Parse(ts: seq<Token>): Option<SyntaxItem>
  {
    match Run([], ts)
    case None => None
    case Some(stack) => if stack == [] then None else Some(stack[0])
  }

  /** `KiCadParser::parse_syntax_item`, with `None` for its panics. */
  method ParseSyntaxItem(tokens: seq<Token>) returns (r: Option<SyntaxItem>)
    ensures r == Parse(tokens)
  {
    var items: seq<SyntaxItem> := [];
    var i := 0;
    while i < |tokens|
      invariant i <= |tokens|
      invariant Run([], tokens) == Run(items, tokens[i..])
    {
      ghost var before := items;
      RunFirst(items, tokens[i..]);
      assert tokens[i..][0] == tokens[i] && tokens[i..][1..] == tokens[i + 1..];
      match tokens[i] {
      case OpenParen(_) =>
        items := [SyntaxItem("", [], [])] + items;
      case CloseParen(_) =>
        if items == [] {
          return None;
        }
        var current := items[0];
        items := items[1..];
        if items != [] {
          assert items[0] == before[1] && items[1..] == before[2..];
          items := [AddChild(items[0], current)] + items[1..];
        } else {
          assert before == [current];
          items := [current];
        }
      case IdentifierToken(_, s) =>
        if items == [] {
          return None;
        }
        if items[0].name == "" {
          items := [items[0].(name := s)] + items[1..];
        } else {
          items := [AddArgument(items[0], Identifier(s, Neutral))] + items[1..];
        }
      case QuotedStringToken(_, s) =>
        if items == [] {
          return None;
        }
        items := [AddArgument(items[0], QuotedString(s, Neutral))] + items[1..];
      case NumberToken(_, n) =>
        if items == [] {
          return None;
        }
        items := [AddArgument(items[0], Number(n, Neutral))] + items[1..];
      }
      assert Step(before, tokens[i]) == Some(items);
      i := i + 1;
    }
    if items == [] {
      return None;
    }
    return Some(items[0]);
  }

  /** Running a non-empty token list is one step and then the rest. */
  lemma RunFirst(stack: seq<SyntaxItem>, ts: seq<Token>)
    requires ts != []
    ensures Run(stack, ts) == Then(Step(stack, ts[0]), ts[1..])
  {
  }

  /** `(` and a name open a fresh node with that name on the stack. */
  lemma RunOpen(stack: seq<SyntaxItem>, name: string, rest: seq<Token>)
    ensures Run(stack, [OpenParen(0), IdentifierToken(0, name)] + rest) == Run([SyntaxItem(name, [], [])] + stack, rest)
  {
    var ts := [OpenParen(0), IdentifierToken(0, name)] + rest;
    var unnamed := [SyntaxItem("", [], [])] + stack;
    assert ts[1..] == [IdentifierToken(0, name)] + rest;
    assert ts[1..][1..] == rest;
    assert unnamed[1..] == stack;
  }

  /** `)` closes the node on top of the stack. */
  lemma RunClose(item: SyntaxItem, stack: seq<SyntaxItem>, rest: seq<Token>)
    ensures Run([item] + stack, [CloseParen(0)] + rest) == Run(Close(stack, item), rest)
  {
    var closed := [item] + stack;
    var ts := [CloseParen(0)] + rest;
    assert ts[0] == CloseParen(0) && ts[1..] == rest;
    if stack == [] {
      assert closed == [item];
    } else {
      assert |closed| != 1;
      assert closed[0] == item && closed[1] == stack[0] && closed[2..] == stack[1..];
    }
  }

  // ---------------------------------------------------------------------
  // generate_tokens
  // ---------------------------------------------------------------------

  /** An element of `content_tokens`: a token and the preference it is sorted by. */
  type Entry = (Token, PositionPreference)

  /** The preference an entry is sorted by. */
  function EntryPref(): Entry -> PositionPreference
  {
    (e: Entry) => e.1
  }

  /** The preference an argument carries. */
  function ArgumentPref(): SyntaxArgument -> PositionPreference
  {
    (a: SyntaxArgument) => a.pref
  }

  function ArgumentToken(a: SyntaxArgument): Token
  {
    match a
    case QuotedString(s, _) => QuotedStringToken(0, s)
    case Identifier(s, _) => IdentifierToken(0, s)
    case Number(n, _) => NumberToken(0, n)
  }

  function ArgumentEntries(args: seq<SyntaxArgument>): seq<Entry>
  {
    if args == [] then []
    else ArgumentEntries(args[..|args| - 1]) + [(ArgumentToken(args[|args| - 1]), args[|args| - 1].pref)]
  }

  /** Tokens tagged with preference None, as a child's tokens are. */
  function Neutrals(ts: seq<Token>): seq<Entry>
  {
    if ts == [] then [] else Neutrals(ts[..|ts| - 1]) + [(ts[|ts| - 1], Neutral)]
  }

  /** The tokens of `content_tokens`, in order. */
  function Tokens(es: seq<Entry>): seq<Token>
  {
    if es == [] then [] else Tokens(es[..|es| - 1]) + [es[|es| - 1].0]
  }

  /** The entries of the children of `item` from the `i`-th on. */
  function ChildEntries(item: SyntaxItem, i: nat): seq<Entry>
    requires i <= |item.children|
    decreases item, |item.children| - i
  {
    if i == |item.children| then []
    else Neutrals(GenerateTokens(item.children[i])) + ChildEntries(item, i + 1)
  }

  /** The node's own content: its arguments, then its children's tokens. */
  function Content(item: SyntaxItem): seq<Entry>
    decreases item, |item.children| + 1
  {
    ArgumentEntries(item.arguments) + ChildEntries(item, 0)
  }

  /** `KiCadParser::generate_tokens`: offsets are all 0. */
  function GenerateTokens(item: SyntaxItem): seq<Token>
    decreases item, |item.children| + 2
  {
    [OpenParen(0), IdentifierToken(0, item.name)]
    + Tokens(StableSort(Content(item), PrefOrder(EntryPref())))
    + [CloseParen(0)]
  }

  // ---------------------------------------------------------------------
  // The round trip
  // ---------------------------------------------------------------------

  function Reset(a: SyntaxArgument): SyntaxArgument
  {
    a.(pref := Neutral)
  }

  function ResetAll(args: seq<SyntaxArgument>): seq<SyntaxArgument>
  {
    if args == [] then [] else ResetAll(args[..|args| - 1]) + [Reset(args[|args| - 1])]
  }

  /**
   * The tree that parsing the generated tokens gives back: each node's
   * arguments stably sorted by preference, with every preference None.
   */
  function Normalize(t: SyntaxItem): SyntaxItem
    decreases t, |t.children| + 1
  {
    SyntaxItem(t.name, ResetAll(StableSort(t.arguments, PrefOrder(ArgumentPref()))), NormalizeChildren(t, 0))
  }

  function NormalizeChildren(t: SyntaxItem, i: nat): seq<SyntaxItem>
    requires i <= |t.children|
    decreases t, |t.children| - i
  {
    if i == |t.children| then [] else [Normalize(t.children[i])] + NormalizeChildren(t, i + 1)
  }

  /** A node with at most one argument and at most one child keeps their order; the argument loses its placement. */
  lemma NormalizeSmall(t: SyntaxItem)
    requires |t.arguments| <= 1 && |t.children| <= 1
    ensures Normalize(t).arguments == ResetAll(t.arguments)
    ensures Normalize(t).children == if t.children == [] then [] else [Normalize(t.children[0])]
  {
    if |t.arguments| == 1 {
      assert StableSort(t.arguments, PrefOrder(ArgumentPref())) == t.arguments;
    }
    if |t.children| == 1 {
      assert NormalizeChildren(t, 1) == [];
    }
  }

  /** Arguments already placed None are left as they are. */
  lemma ResetNeutral(args: seq<SyntaxArgument>)
    requires forall a | a in args :: a.pref == Neutral
    ensures ResetAll(args) == args
  {
    if args != [] {
      ResetNeutral(args[..|args| - 1]);
      assert args == args[..|args| - 1] + [args[|args| - 1]];
    }
  }

  lemma {:induction false} NormalizeChildrenAt(t: SyntaxItem, i: nat)
    requires i <= |t.children|
    ensures |NormalizeChildren(t, i)| == |t.children| - i
    ensures forall k | 0 <= k < |t.children| - i :: NormalizeChildren(t, i)[k] == Normalize(t.children[i + k])
    decreases |t.children| - i
  {
    if i < |t.children| {
      NormalizeChildrenAt(t, i + 1);
    }
  }

  /** Normalising a node keeps its name and normalises each child in place. */
  lemma NormalizeNode(t: SyntaxItem)
    ensures Normalize(t).name == t.name
    ensures |Normalize(t).children| == |t.children|
    ensures forall i | 0 <= i < |t.children| :: Normalize(t).children[i] == Normalize(t.children[i])
  {
    NormalizeChildrenAt(t, 0);
  }

  /** A node whose own arguments are all placed None keeps them, in order. */
  lemma NormalizeNeutralArguments(t: SyntaxItem)
    requires forall a | a in t.arguments :: a.pref == Neutral
    ensures Normalize(t).arguments == t.arguments
  {
    SortAllNeutral(t.arguments, ArgumentPref());
    ResetNeutral(t.arguments);
  }

  /** A node whose first argument is placed Start and whose other arguments are placed None keeps them in order, all reset. */
  lemma NormalizeLeadingStart(t: SyntaxItem)
    requires |t.arguments| > 0 && t.arguments[0].pref == Start
    requires forall i | 1 <= i < |t.arguments| :: t.arguments[i].pref == Neutral
    ensures Normalize(t).arguments == [Reset(t.arguments[0])] + t.arguments[1..]
  {
    var head, rest := [t.arguments[0]], t.arguments[1..];
    assert t.arguments == head + rest;
    assert forall x | x in rest :: ArgumentPref()(x) == Neutral;
    PartitionNeutralTail(head, rest, ArgumentPref());
    FilterAll(head, HasPref(ArgumentPref(), Start));
    FilterNone(head, HasPref(ArgumentPref(), Neutral));
    FilterNone(head, HasPref(ArgumentPref(), End));
    assert StableSort(t.arguments, PrefOrder(ArgumentPref())) == head + rest;
    ResetAllConcat(head, rest);
    ResetNeutral(rest);
    assert ResetAll(head) == [Reset(t.arguments[0])] by {
      assert head[..0] == [];
    }
  }

  /** A tree placed None throughout is its own normal form: printing and parsing it gives it back unchanged. */
  lemma {:induction false} NormalizeSettled(t: SyntaxItem)
    requires Settled(t)
    ensures Normalize(t) == t
    decreases t
  {
    NormalizeNode(t);
    NormalizeNeutralArguments(t);
    forall i | 0 <= i < |t.children|
      ensures Normalize(t).children[i] == t.children[i]
    {
      NormalizeSettled(t.children[i]);
    }
  }

  /** A node whose children are placed None throughout keeps its children as they are. */
  lemma NormalizeSettledChildren(t: SyntaxItem)
    requires forall c | c in t.children :: Settled(c)
    ensures Normalize(t).name == t.name
    ensures Normalize(t).children == t.children
  {
    NormalizeNode(t);
    forall i | 0 <= i < |t.children|
      ensures Normalize(t).children[i] == t.children[i]
    {
      assert t.children[i] in t.children;
      NormalizeSettled(t.children[i]);
    }
  }

  /** Every node of the tree has a non-empty name. */
  predicate AllNamed(t: SyntaxItem)
  {
    t.name != "" && forall i | 0 <= i < |t.children| :: AllNamed(t.children[i])
  }

  /** What closing a finished node `item` does to the stack below it. */
  function Close(stack: seq<SyntaxItem>, item: SyntaxItem): seq<SyntaxItem>
  {
    if stack == [] then [item] else [AddChild(stack[0], item)] + stack[1..]
  }

  lemma {:induction false} TokensConcat(a: seq<Entry>, b: seq<Entry>)
    ensures Tokens(a + b) == Tokens(a) + Tokens(b)
    decreases |b|
  {
    if b == [] {
      assert a + b == a;
    } else {
      var init := b[..|b| - 1];
      assert (a + b)[..|a + b| - 1] == a + init;
      TokensConcat(a, init);
    }
  }

  lemma {:induction false} TokensOfNeutrals(ts: seq<Token>)
    ensures Tokens(Neutrals(ts)) == ts
    ensures forall e | e in Neutrals(ts) :: e.1 == Neutral
  {
    if ts != [] {
      var init := ts[..|ts| - 1];
      TokensOfNeutrals(init);
      assert Neutrals(ts)[..|Neutrals(ts)| - 1] == Neutrals(init);
      assert ts == init + [ts[|ts| - 1]];
    }
  }

  /** The tokens of the children from the `i`-th on: the `i`-th child's, then the others'. */
  lemma ChildTokens(item: SyntaxItem, i: nat)
    requires i < |item.children|
    ensures Tokens(ChildEntries(item, i)) == GenerateTokens(item.children[i]) + Tokens(ChildEntries(item, i + 1))
  {
    var g := GenerateTokens(item.children[i]);
    TokensConcat(Neutrals(g), ChildEntries(item, i + 1));
    TokensOfNeutrals(g);
  }

  lemma {:induction false} ChildEntriesAreNeutral(item: SyntaxItem, i: nat)
    requires i <= |item.children|
    ensures forall e | e in ChildEntries(item, i) :: e.1 == Neutral
    decreases |item.children| - i
  {
    if i < |item.children| {
      TokensOfNeutrals(GenerateTokens(item.children[i]));
      ChildEntriesAreNeutral(item, i + 1);
    }
  }

  lemma {:induction false} ResetAllConcat(a: seq<SyntaxArgument>, b: seq<SyntaxArgument>)
    ensures ResetAll(a + b) == ResetAll(a) + ResetAll(b)
    decreases |b|
  {
    if b == [] {
      assert a + b == a;
    } else {
      var init := b[..|b| - 1];
      assert (a + b)[..|a + b| - 1] == a + init;
      ResetAllConcat(a, init);
    }
  }

  lemma ArgumentEntriesAppend(args: seq<SyntaxArgument>, a: SyntaxArgument)
    ensures ArgumentEntries(args + [a]) == ArgumentEntries(args) + [(ArgumentToken(a), a.pref)]
  {
    assert (args + [a])[..|args|] == args;
  }

  /** Keeping the entries of one preference is keeping the arguments of that preference. */
  lemma {:induction false} FilterArgumentEntries(args: seq<SyntaxArgument>, p: PositionPreference)
    ensures Filter(ArgumentEntries(args), HasPref(EntryPref(), p)) == ArgumentEntries(Filter(args, HasPref(ArgumentPref(), p)))
  {
    if args != [] {
      var init, last := args[..|args| - 1], args[|args| - 1];
      var entry := (ArgumentToken(last), last.pref);
      assert args == init + [last];
      FilterArgumentEntries(init, p);
      ArgumentEntriesAppend(init, last);
      FilterAppend(ArgumentEntries(init), entry, HasPref(EntryPref(), p));
      FilterAppend(init, last, HasPref(ArgumentPref(), p));
      var kept := Filter(init, HasPref(ArgumentPref(), p));
      if last.pref == p {
        ArgumentEntriesAppend(kept, last);
      } else {
        assert kept + [] == kept;
        var keptEntries := Filter(ArgumentEntries(init), HasPref(EntryPref(), p));
        assert keptEntries + [] == keptEntries;
      }
    }
  }

  /** The sorted content of a node: Start arguments, None arguments and the children, End arguments. */
  lemma SortedContent(t: SyntaxItem)
    ensures var args := t.arguments;
      StableSort(Content(t), PrefOrder(EntryPref()))
      == ArgumentEntries(Filter(args, HasPref(ArgumentPref(), Start)))
         + (ArgumentEntries(Filter(args, HasPref(ArgumentPref(), Neutral))) + ChildEntries(t, 0))
         + ArgumentEntries(Filter(args, HasPref(ArgumentPref(), End)))
  {
    ChildEntriesAreNeutral(t, 0);
    PartitionNeutralTail(ArgumentEntries(t.arguments), ChildEntries(t, 0), EntryPref());
    FilterArgumentEntries(t.arguments, Start);
    FilterArgumentEntries(t.arguments, Neutral);
    FilterArgumentEntries(t.arguments, End);
  }

  /** The tokens of four consecutive groups of entries. */
  lemma TokensOfGroups(x: seq<Entry>, s: seq<Entry>, n: seq<Entry>, c: seq<Entry>, e: seq<Entry>)
    requires x == s + (n + c) + e
    ensures Tokens(x) == Tokens(s) + (Tokens(n) + Tokens(c)) + Tokens(e)
  {
    TokensConcat(s + (n + c), e);
    TokensConcat(s, n + c);
    TokensConcat(n, c);
  }

  /** The tokens of the sorted content, group by group. */
  lemma ContentTokens(t: SyntaxItem)
    ensures var args := t.arguments;
      Tokens(StableSort(Content(t), PrefOrder(EntryPref())))
      == Tokens(ArgumentEntries(Filter(args, HasPref(ArgumentPref(), Start))))
         + (Tokens(ArgumentEntries(Filter(args, HasPref(ArgumentPref(), Neutral)))) + Tokens(ChildEntries(t, 0)))
         + Tokens(ArgumentEntries(Filter(args, HasPref(ArgumentPref(), End))))
  {
    var args := t.arguments;
    SortedContent(t);
    TokensOfGroups(StableSort(Content(t), PrefOrder(EntryPref())),
      ArgumentEntries(Filter(args, HasPref(ArgumentPref(), Start))),
      ArgumentEntries(Filter(args, HasPref(ArgumentPref(), Neutral))),
      ChildEntries(t, 0),
      ArgumentEntries(Filter(args, HasPref(ArgumentPref(), End))));
  }

  lemma Regroup(a: seq<Token>, b: seq<Token>, c: seq<Token>, d: seq<Token>, rest: seq<Token>)
    ensures a + (b + c) + d + rest == a + (b + (c + (d + rest)))
  {
  }

  /** The arguments of a normalized node, group by group. */
  lemma NormalizedArguments(t: SyntaxItem)
    ensures Normalize(t).arguments
         == ResetAll(Filter(t.arguments, HasPref(ArgumentPref(), Start)))
            + ResetAll(Filter(t.arguments, HasPref(ArgumentPref(), Neutral)))
            + ResetAll(Filter(t.arguments, HasPref(ArgumentPref(), End)))
  {
    var args := t.arguments;
    SortByPrefPartitions(args, ArgumentPref());
    var s := Filter(args, HasPref(ArgumentPref(), Start));
    var n := Filter(args, HasPref(ArgumentPref(), Neutral));
    var e := Filter(args, HasPref(ArgumentPref(), End));
    ResetAllConcat(s, n);
    ResetAllConcat(s + n, e);
  }

  /** An argument token adds the argument, with preference None, to the named node on top. */
  lemma RunArgument(top: SyntaxItem, below: seq<SyntaxItem>, a: SyntaxArgument, rest: seq<Token>)
    requires top.name != ""
    ensures Run([top] + below, [ArgumentToken(a)] + rest) == Run([AddArgument(top, Reset(a))] + below, rest)
  {
    assert ([top] + below)[1..] == below;
    assert ([ArgumentToken(a)] + rest)[1..] == rest;
  }

  /** The arguments of `args` push their reset forms onto the named node on top. */
  lemma {:induction false} RunArguments(top: SyntaxItem, below: seq<SyntaxItem>, args: seq<SyntaxArgument>, rest: seq<Token>)
    requires top.name != ""
    ensures Run([top] + below, Tokens(ArgumentEntries(args)) + rest)
         == Run([top.(arguments := top.arguments + ResetAll(args))] + below, rest)
  {
    if args == [] {
      assert top.arguments + [] == top.arguments;
      assert [] + rest == rest;
    } else {
      var init, last := args[..|args| - 1], args[|args| - 1];
      var es := ArgumentEntries(args);
      assert es[..|es| - 1] == ArgumentEntries(init);
      assert Tokens(es) + rest == Tokens(ArgumentEntries(init)) + ([ArgumentToken(last)] + rest);
      RunArguments(top, below, init, [ArgumentToken(last)] + rest);
      var middle := top.(arguments := top.arguments + ResetAll(init));
      RunArgument(middle, below, last, rest);
      assert top.arguments + ResetAll(args) == middle.arguments + [Reset(last)];
    }
  }

  /** The tokens of the children from the `i`-th on, before `rest`. */
  lemma ChildStepTokens(item: SyntaxItem, i: nat, rest: seq<Token>)
    requires i < |item.children|
    ensures Tokens(ChildEntries(item, i)) + rest
         == GenerateTokens(item.children[i]) + (Tokens(ChildEntries(item, i + 1)) + rest)
  {
    ChildTokens(item, i);
  }

  /** Closing a finished child `n` onto the node on top, when `n` heads the children still to come. */
  lemma ChildStepStack(top: SyntaxItem, below: seq<SyntaxItem>, n: SyntaxItem, children: seq<SyntaxItem>, later: seq<SyntaxItem>)
    requires children == [n] + later
    ensures Close([top] + below, n) == [AddChild(top, n)] + below
    ensures top.children + children == AddChild(top, n).children + later
  {
  }

  /** The children from the `i`-th on are parsed back, normalized, as children of the node on top. */
  lemma {:induction false} RunChildren(top: SyntaxItem, below: seq<SyntaxItem>, item: SyntaxItem, i: nat, rest: seq<Token>)
    requires i <= |item.children|
    requires forall k | 0 <= k < |item.children| :: AllNamed(item.children[k])
    ensures Run([top] + below, Tokens(ChildEntries(item, i)) + rest)
         == Run([top.(children := top.children + NormalizeChildren(item, i))] + below, rest)
    decreases item, |item.children| - i
  {
    if i == |item.children| {
      assert top.children + [] == top.children;
      assert [] + rest == rest;
    } else {
      var more := Tokens(ChildEntries(item, i + 1)) + rest;
      ChildStepTokens(item, i, rest);
      GenerateParse(item.children[i], [top] + below, more);
      ChildStepStack(top, below, Normalize(item.children[i]), NormalizeChildren(item, i), NormalizeChildren(item, i + 1));
      RunChildren(AddChild(top, Normalize(item.children[i])), below, item, i + 1, rest);
    }
  }

  /**
   * The sorted content of `t` fills a freshly named node on top of the stack
   * into the normalized `t`.
   */
  lemma {:induction false} RunContent(t: SyntaxItem, below: seq<SyntaxItem>, rest: seq<Token>)
    requires AllNamed(t)
    ensures Run([SyntaxItem(t.name, [], [])] + below, Tokens(StableSort(Content(t), PrefOrder(EntryPref()))) + rest)
         == Run([Normalize(t)] + below, rest)
    decreases t, |t.children| + 1
  {
    var args := t.arguments;
    var fs := Filter(args, HasPref(ArgumentPref(), Start));
    var fn := Filter(args, HasPref(ArgumentPref(), Neutral));
    var fe := Filter(args, HasPref(ArgumentPref(), End));
    var ts, tn, tc, te := Tokens(ArgumentEntries(fs)), Tokens(ArgumentEntries(fn)), Tokens(ChildEntries(t, 0)), Tokens(ArgumentEntries(fe));
    ContentTokens(t);
    Regroup(ts, tn, tc, te, rest);
    var top0 := SyntaxItem(t.name, [], []);
    RunArguments(top0, below, fs, tn + (tc + (te + rest)));
    var top1 := top0.(arguments := [] + ResetAll(fs));
    RunArguments(top1, below, fn, tc + (te + rest));
    var top2 := top1.(arguments := top1.arguments + ResetAll(fn));
    RunChildren(top2, below, t, 0, te + rest);
    var top3 := top2.(children := [] + NormalizeChildren(t, 0));
    RunArguments(top3, below, fe, rest);
    NormalizedArguments(t);
    assert [] + ResetAll(fs) == ResetAll(fs);
    assert [] + NormalizeChildren(t, 0) == NormalizeChildren(t, 0);
  }

  /**
   * The tokens generated for `t`, followed by anything, act on the stack as
   * closing the normalized `t` onto it does.
   */
  lemma {:induction false} GenerateParse(t: SyntaxItem, stack: seq<SyntaxItem>, rest: seq<Token>)
    requires AllNamed(t)
    ensures Run(stack, GenerateTokens(t) + rest) == Run(Close(stack, Normalize(t)), rest)
    decreases t, |t.children| + 2
  {
    var body := Tokens(StableSort(Content(t), PrefOrder(EntryPref())));
    assert GenerateTokens(t) + rest == [OpenParen(0), IdentifierToken(0, t.name)] + (body + ([CloseParen(0)] + rest));
    RunOpen(stack, t.name, body + ([CloseParen(0)] + rest));
    RunContent(t, stack, [CloseParen(0)] + rest);
    RunClose(Normalize(t), stack, rest);
  }

  /**
   * Parsing the generated tokens gives the tree back, with each node's
   * arguments stably sorted by preference and every preference reset to None.
   */
  lemma ParseGenerated(t: SyntaxItem)
    requires AllNamed(t)
    ensures Parse(GenerateTokens(t)) == Some(Normalize(t))
  {
    GenerateParse(t, [], []);
    assert GenerateTokens(t) + [] == GenerateTokens(t);
  }

  // ---------------------------------------------------------------------
  // What the stack machine does with other token lists
  // ---------------------------------------------------------------------

  /** An empty token list panics at the final `unwrap`. */
  lemma ParseEmpty()
    ensures Parse([]) == None
  {
  }

  /** A list that does not start with `(` panics: there is no open node to fill or close. */
  lemma ParseNeedsOpenFirst(ts: seq<Token>)
    requires ts != [] && !ts[0].OpenParen?
    ensures Parse(ts) == None
  {
    RunFirst([], ts);
  }

  /** A missing final `)` is tolerated: the open root is the result. */
  lemma ParseWithoutFinalClose(t: SyntaxItem)
    requires AllNamed(t)
    ensures var g := GenerateTokens(t); Parse(g[..|g| - 1]) == Some(Normalize(t))
  {
    var g := GenerateTokens(t);
    var body := Tokens(StableSort(Content(t), PrefOrder(EntryPref())));
    assert g[..|g| - 1] == [OpenParen(0), IdentifierToken(0, t.name)] + (body + []);
    RunOpen([], t.name, body + []);
    RunContent(t, [], []);
    assert [SyntaxItem(t.name, [], [])] + [] == [SyntaxItem(t.name, [], [])];
    assert [Normalize(t)] + [] == [Normalize(t)];
  }

  /**
   * Closing the root leaves it on the stack, so a second top-level item
   * that follows is parsed as the root's last child.
   */
  lemma SecondTopLevelItemBecomesChild(a: SyntaxItem, b: SyntaxItem)
    requires AllNamed(a) && AllNamed(b)
    ensures Parse(GenerateTokens(a) + GenerateTokens(b)) == Some(AddChild(Normalize(a), Normalize(b)))
  {
    GenerateParse(a, [], GenerateTokens(b));
    GenerateParse(b, [Normalize(a)], []);
    assert GenerateTokens(b) + [] == GenerateTokens(b);
    assert Close([Normalize(a)], Normalize(b)) == [AddChild(Normalize(a), Normalize(b))];
  }

  /** Tokens are built into a tree by kind and text alone: their offsets do not matter. */
  lemma {:induction false} RunIgnoresOffsets(stack: seq<SyntaxItem>, ts: seq<Token>)
    ensures Run(stack, EraseAll(ts)) == Run(stack, ts)
    decreases |ts|
  {
    if ts != [] {
      var e := EraseAll(ts);
      assert e[0] == Erase(ts[0]) && e[1..] == EraseAll(ts[1..]);
      assert Step(stack, e[0]) == Step(stack, ts[0]);
      match Step(stack, ts[0])
      case None =>
      case Some(next) => RunIgnoresOffsets(next, ts[1..]);
    }
  }

  lemma ParseIgnoresOffsets(ts: seq<Token>)
    ensures Parse(EraseAll(ts)) == Parse(ts)
  {
    RunIgnoresOffsets([], ts);
  }

  // ---------------------------------------------------------------------
  // The shape of the generated tokens
  // ---------------------------------------------------------------------

  /** How a token changes the nesting depth. */
  function Delta(t: Token): int
  {
    if t.OpenParen? then 1 else if t.CloseParen? then -1 else 0
  }

  /** The nesting depth after the tokens: parentheses opened minus parentheses closed. */
  function Depth(ts: seq<Token>): int
  {
    if ts == [] then 0 else Depth(ts[..|ts| - 1]) + Delta(ts[|ts| - 1])
  }

  /** No prefix closes more than it opened, and the whole closes everything it opened. */
  predicate Balanced(ts: seq<Token>)
  {
    Depth(ts) == 0 && forall k | 0 <= k <= |ts| :: Depth(ts[..k]) >= 0
  }

  predicate ParenFree(ts: seq<Token>)
  {
    forall i | 0 <= i < |ts| :: Delta(ts[i]) == 0
  }

  lemma {:induction false} DepthConcat(a: seq<Token>, b: seq<Token>)
    ensures Depth(a + b) == Depth(a) + Depth(b)
    decreases |b|
  {
    if b == [] {
      assert a + b == a;
    } else {
      var init := b[..|b| - 1];
      assert (a + b)[..|a + b| - 1] == a + init;
      DepthConcat(a, init);
    }
  }

  lemma BalancedConcat(a: seq<Token>, b: seq<Token>)
    requires Balanced(a) && Balanced(b)
    ensures Balanced(a + b)
  {
    DepthConcat(a, b);
    forall k | 0 <= k <= |a + b|
      ensures Depth((a + b)[..k]) >= 0
    {
      if k <= |a| {
        assert (a + b)[..k] == a[..k];
      } else {
        assert (a + b)[..k] == a + b[..k - |a|];
        DepthConcat(a, b[..k - |a|]);
      }
    }
  }

  lemma {:induction false} ParenFreeDepth(ts: seq<Token>)
    requires ParenFree(ts)
    ensures Depth(ts) == 0
  {
    if ts != [] {
      ParenFreeDepth(ts[..|ts| - 1]);
    }
  }

  lemma ParenFreeBalanced(ts: seq<Token>)
    requires ParenFree(ts)
    ensures Balanced(ts)
  {
    ParenFreeDepth(ts);
    forall k | 0 <= k <= |ts|
      ensures Depth(ts[..k]) >= 0
    {
      ParenFreeDepth(ts[..k]);
    }
  }

  /** A node's opening parenthesis and name, then balanced content, then its closing parenthesis. */
  lemma WrappedBalanced(name: string, x: seq<Token>)
    requires Balanced(x)
    ensures var w := [OpenParen(0), IdentifierToken(0, name)] + x + [CloseParen(0)];
      Balanced(w) && forall k | 0 < k < |w| :: Depth(w[..k]) >= 1
  {
    var h := [OpenParen(0), IdentifierToken(0, name)];
    var w := h + x + [CloseParen(0)];
    assert h[..1] == [OpenParen(0)];
    DepthConcat(h, x);
    DepthConcat(h + x, [CloseParen(0)]);
    forall k | 0 <= k <= |w|
      ensures Depth(w[..k]) >= (if 0 < k < |w| then 1 else 0)
    {
      if k == 0 {
        assert w[..k] == [];
      } else if k == 1 {
        assert w[..k] == [OpenParen(0)];
      } else if k < |w| {
        assert w[..k] == h + x[..k - 2];
        DepthConcat(h, x[..k - 2]);
      } else {
        assert w[..k] == w;
      }
    }
  }

  /** Arguments, then balanced children, then arguments: balanced. */
  lemma GroupsBalanced(s: seq<Token>, n: seq<Token>, c: seq<Token>, e: seq<Token>)
    requires ParenFree(s) && ParenFree(n) && Balanced(c) && ParenFree(e)
    ensures Balanced(s + (n + c) + e)
  {
    ParenFreeBalanced(s);
    ParenFreeBalanced(n);
    ParenFreeBalanced(e);
    BalancedConcat(n, c);
    BalancedConcat(s, n + c);
    BalancedConcat(s + (n + c), e);
  }

  /** The tokens of arguments hold no parenthesis. */
  lemma {:induction false} ArgumentTokensParenFree(args: seq<SyntaxArgument>)
    ensures ParenFree(Tokens(ArgumentEntries(args)))
  {
    if args != [] {
      var init, last := args[..|args| - 1], args[|args| - 1];
      assert args == init + [last];
      ArgumentEntriesAppend(init, last);
      TokensConcat(ArgumentEntries(init), [(ArgumentToken(last), last.pref)]);
      ArgumentTokensParenFree(init);
    }
  }

  /**
   * The tokens generated for a node open with `(` and its name and end with
   * `)`; their parentheses balance, and the first one closes only at the end.
   */
  lemma {:induction false} GeneratedBalanced(t: SyntaxItem)
    ensures var g := GenerateTokens(t);
      |g| >= 3 && g[0] == OpenParen(0) && g[1] == IdentifierToken(0, t.name) && g[|g| - 1] == CloseParen(0)
      && Balanced(g) && forall k | 0 < k < |g| :: Depth(g[..k]) >= 1
    decreases t, |t.children| + 1
  {
    var args := t.arguments;
    var s := Tokens(ArgumentEntries(Filter(args, HasPref(ArgumentPref(), Start))));
    var n := Tokens(ArgumentEntries(Filter(args, HasPref(ArgumentPref(), Neutral))));
    var c := Tokens(ChildEntries(t, 0));
    var e := Tokens(ArgumentEntries(Filter(args, HasPref(ArgumentPref(), End))));
    ContentTokens(t);
    ArgumentTokensParenFree(Filter(args, HasPref(ArgumentPref(), Start)));
    ArgumentTokensParenFree(Filter(args, HasPref(ArgumentPref(), Neutral)));
    ArgumentTokensParenFree(Filter(args, HasPref(ArgumentPref(), End)));
    ChildrenBalanced(t, 0);
    GroupsBalanced(s, n, c, e);
    var g := GenerateTokens(t);
    assert g == [OpenParen(0), IdentifierToken(0, t.name)] + (s + (n + c) + e) + [CloseParen(0)];
    WrappedBalanced(t.name, s + (n + c) + e);
  }

  /** The tokens of the children from the `i`-th on balance. */
  lemma {:induction false} ChildrenBalanced(item: SyntaxItem, i: nat)
    requires i <= |item.children|
    ensures Balanced(Tokens(ChildEntries(item, i)))
    decreases item, |item.children| - i
  {
    if i == |item.children| {
      var none := Tokens(ChildEntries(item, i));
      assert none == [] && none[..0] == [];
    } else {
      ChildTokens(item, i);
      GeneratedBalanced(item.children[i]);
      ChildrenBalanced(item, i + 1);
      BalancedConcat(GenerateTokens(item.children[i]), Tokens(ChildEntries(item, i + 1)));
    }
  }
}

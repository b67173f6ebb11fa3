/**
 * KiCad S-expression trees (`src/kicad/syntax.rs`): a node has a name,
 * atomic arguments and child nodes. Each argument carries a
 * `PositionPreference` that decides where the token generator places it
 * among the node's content.
 */
module Syntax {
  import opened Wrappers
  import opened Numbers

  /** Rust's `PositionPreference::{Start, None, End}`; `Neutral` is `None`. */
  datatype PositionPreference = Start | Neutral | End

  function Rank(p: PositionPreference): nat
  {
    match p
    case Start => 0
    case Neutral => 1
    case End => 2
  }

  datatype SyntaxArgument =
    | Number(num: Num, pref: PositionPreference)
    | Identifier(text: string, pref: PositionPreference)
    | QuotedString(text: string, pref: PositionPreference)

  datatype SyntaxItem = SyntaxItem(name: string, arguments: seq<SyntaxArgument>, children: seq<SyntaxItem>)

  /** Every argument of the node and of all its descendants is placed None. */
  predicate Settled(t: SyntaxItem)
  {
    && (forall a | a in t.arguments :: a.pref == Neutral)
    && (forall i | 0 <= i < |t.children| :: Settled(t.children[i]))
  }

  /** A node is placed None throughout when its own arguments are and each of its children is. */
  lemma SettledNode(name: string, arguments: seq<SyntaxArgument>, children: seq<SyntaxItem>)
    requires forall a | a in arguments :: a.pref == Neutral
    requires forall c | c in children :: Settled(c)
    ensures Settled(SyntaxItem(name, arguments, children))
  {
    var t := SyntaxItem(name, arguments, children);
    forall i | 0 <= i < |children|
      ensures Settled(t.children[i])
    {
      assert children[i] in children;
    }
  }

  function FromArguments(name: string, arguments: seq<SyntaxArgument>): SyntaxItem
  {
    SyntaxItem(name, arguments, [])
  }

  function FromSingleArgument(name: string, argument: SyntaxArgument): SyntaxItem
  {
    SyntaxItem(name, [argument], [])
  }

  function FromSingleChild(name: string, child: SyntaxItem): SyntaxItem
  {
    SyntaxItem(name, [], [child])
  }

  /** Index of the first node of `cs` named `name`, or `|cs|` when there is none. */
  function FirstNamed(cs: seq<SyntaxItem>, name: string): (k: nat)
    ensures k <= |cs|
    ensures k < |cs| ==> cs[k].name == name
    ensures forall j | 0 <= j < k :: cs[j].name != name
  {
    if cs == [] then 0 else if cs[0].name == name then 0 else 1 + FirstNamed(cs[1..], name)
  }

  /** `SyntaxItem::get_named_child`: the first child with that name. */
  function GetNamedChild(item: SyntaxItem, name: string): (r: Option<SyntaxItem>)
    ensures r.None? <==> forall c | c in item.children :: c.name != name
    ensures r.Some? ==> r.value.name == name && r.value in item.children
  {
    var k := FirstNamed(item.children, name);
    if k < |item.children| then Some(item.children[k]) else None
  }

  /** A child is the first of its name when no earlier child has that name. */
  lemma NamedChildAt(item: SyntaxItem, k: nat)
    requires k < |item.children|
    requires forall j | 0 <= j < k :: item.children[j].name != item.children[k].name
    ensures GetNamedChild(item, item.children[k].name) == Some(item.children[k])
  {
  }

  /** The children named `name`, in order (the `filter` over children in the table readers). */
  function ChildrenNamed(cs: seq<SyntaxItem>, name: string): (r: seq<SyntaxItem>)
    ensures forall c | c in r :: c in cs && c.name == name
  {
    if cs == [] then []
    else (if cs[0].name == name then [cs[0]] else []) + ChildrenNamed(cs[1..], name)
  }

  /** A node of another name in front is filtered away. */
  lemma ChildrenNamedSkip(c: SyntaxItem, cs: seq<SyntaxItem>, name: string)
    requires c.name != name
    ensures ChildrenNamed([c] + cs, name) == ChildrenNamed(cs, name)
  {
    assert ([c] + cs)[1..] == cs;
  }

  /** When every node has the name, the filter keeps them all, in order. */
  lemma {:induction false} ChildrenNamedAll(cs: seq<SyntaxItem>, name: string)
    requires forall i | 0 <= i < |cs| :: cs[i].name == name
    ensures ChildrenNamed(cs, name) == cs
  {
    if cs != [] {
      ChildrenNamedAll(cs[1..], name);
      assert cs == [cs[0]] + cs[1..];
    }
  }

  /** `SyntaxItem::has_argument`: whole-argument comparison, preference included. */
  function HasArgument(item: SyntaxItem, argument: SyntaxArgument): bool
  {
    ContainsArgument(item.arguments, argument)
  }

  function ContainsArgument(arguments: seq<SyntaxArgument>, argument: SyntaxArgument): (r: bool)
    ensures r <==> argument in arguments
  {
    if arguments == [] then false
    else arguments[0] == argument || ContainsArgument(arguments[1..], argument)
  }

  /** `SyntaxArgument::get_number`; None is the panic on a non-number. */
  function GetNumber(a: SyntaxArgument): Option<Num>
  {
    if a.Number? then Some(a.num) else None
  }

  /** `SyntaxArgument::get_string`: the text of a word or string, the printed form of a number. */
  function GetString(a: SyntaxArgument): string
  {
    match a
    case Identifier(text, _) => text
    case QuotedString(text, _) => text
    case Number(n, _) => NumberText(n)
  }

  /** `arguments.get(k).unwrap().get_number()`: None when the argument is missing or not a number. */
  function NumberAt(item: SyntaxItem, k: nat): Option<Num>
  {
    if k < |item.arguments| then GetNumber(item.arguments[k]) else None
  }

  /** `arguments.get(k).unwrap().get_string()`: None when the argument is missing. */
  function StringAt(item: SyntaxItem, k: nat): Option<string>
  {
    if k < |item.arguments| then Some(GetString(item.arguments[k])) else None
  }

  /** A whole number argument reads back as the same number from its text. */
  lemma GetStringOfWholeNumber(k: int, p: PositionPreference)
    ensures ParseF32(GetString(Number(Finite(k as real), p))) == Some(Finite(k as real))
  {
    WholeNumberRoundTrip(k);
  }

  // ---------------------------------------------------------------------
  // Stable sorting (Rust's `sort_by` and itertools' `sorted_by_key`)
  // ---------------------------------------------------------------------

  /** Inserts `x` after the last element of `sorted` that is `le` it. */
  function Insert<T>(sorted: seq<T>, x: T, le: (T, T) -> bool): seq<T>
  {
    if sorted == [] || le(sorted[|sorted| - 1], x) then sorted + [x]
    else Insert(sorted[..|sorted| - 1], x, le) + [sorted[|sorted| - 1]]
  }

  /** Stable insertion sort under the total preorder `le`. */
  function StableSort<T>(xs: seq<T>, le: (T, T) -> bool): seq<T>
  {
    if xs == [] then [] else Insert(StableSort(xs[..|xs| - 1], le), xs[|xs| - 1], le)
  }

  lemma {:induction false} InsertPermutes<T>(sorted: seq<T>, x: T, le: (T, T) -> bool)
    ensures multiset(Insert(sorted, x, le)) == multiset(sorted) + multiset{x}
  {
    if sorted != [] && !le(sorted[|sorted| - 1], x) {
      var init := sorted[..|sorted| - 1];
      assert sorted == init + [sorted[|sorted| - 1]];
      InsertPermutes(init, x, le);
    }
  }

  /** Sorting only reorders: the result is a permutation of the input. */
  lemma {:induction false} SortPermutes<T>(xs: seq<T>, le: (T, T) -> bool)
    ensures multiset(StableSort(xs, le)) == multiset(xs)
  {
    if xs != [] {
      var init := xs[..|xs| - 1];
      assert xs == init + [xs[|xs| - 1]];
      SortPermutes(init, le);
      InsertPermutes(StableSort(init, le), xs[|xs| - 1], le);
    }
  }

  function Filter<T>(xs: seq<T>, keep: T -> bool): (r: seq<T>)
    ensures |r| <= |xs|
    ensures forall x | x in r :: x in xs && keep(x)
  {
    if xs == [] then [] else Filter(xs[..|xs| - 1], keep) + (if keep(xs[|xs| - 1]) then [xs[|xs| - 1]] else [])
  }

  /** The order `sort_by(|a, b| a.pref.cmp(&b.pref))` sorts by. */
  function PrefOrder<T>(pref: T -> PositionPreference): (T, T) -> bool
  {
    (a: T, b: T) => Rank(pref(a)) <= Rank(pref(b))
  }

  function HasPref<T>(pref: T -> PositionPreference, p: PositionPreference): T -> bool
  {
    (x: T) => pref(x) == p
  }

  /** Content sorted by preference: Start items, then None items, then End items, each in input order. */
  function PrefPartition<T>(xs: seq<T>, pref: T -> PositionPreference): seq<T>
  {
    Filter(xs, HasPref(pref, Start)) + Filter(xs, HasPref(pref, Neutral)) + Filter(xs, HasPref(pref, End))
  }

  lemma {:induction false} InsertAfterLarger<T>(a: seq<T>, e: seq<T>, x: T, pref: T -> PositionPreference)
    requires forall i | 0 <= i < |e| :: Rank(pref(e[i])) > Rank(pref(x))
    ensures Insert(a + e, x, PrefOrder(pref)) == Insert(a, x, PrefOrder(pref)) + e
  {
    var le := PrefOrder(pref);
    if e == [] {
      assert a + e == a;
    } else {
      var s, init, last := a + e, e[..|e| - 1], e[|e| - 1];
      assert s[..|s| - 1] == a + init && s[|s| - 1] == last;
      assert !le(last, x);
      assert Insert(s, x, le) == Insert(a + init, x, le) + [last];
      InsertAfterLarger(a, init, x, pref);
      assert e == init + [last];
    }
  }

  lemma FilterAppend<T>(xs: seq<T>, x: T, keep: T -> bool)
    ensures Filter(xs + [x], keep) == Filter(xs, keep) + (if keep(x) then [x] else [])
  {
    assert (xs + [x])[..|xs|] == xs;
  }

  lemma FilterAll<T>(xs: seq<T>, keep: T -> bool)
    requires forall x | x in xs :: keep(x)
    ensures Filter(xs, keep) == xs
  {
    if xs != [] {
      FilterAll(xs[..|xs| - 1], keep);
      assert xs == xs[..|xs| - 1] + [xs[|xs| - 1]];
    }
  }

  lemma FilterNone<T>(xs: seq<T>, keep: T -> bool)
    requires forall x | x in xs :: !keep(x)
    ensures Filter(xs, keep) == []
  {
    if xs != [] {
      FilterNone(xs[..|xs| - 1], keep);
    }
  }

  lemma FilterConcat<T>(xs: seq<T>, ys: seq<T>, keep: T -> bool)
    ensures Filter(xs + ys, keep) == Filter(xs, keep) + Filter(ys, keep)
  {
    if ys != [] {
      var init := ys[..|ys| - 1];
      assert xs + ys == (xs + init) + [ys[|ys| - 1]];
      assert ys == init + [ys[|ys| - 1]];
      FilterAppend(xs + init, ys[|ys| - 1], keep);
      FilterAppend(init, ys[|ys| - 1], keep);
      FilterConcat(xs, init, keep);
    } else {
      assert xs + ys == xs;
    }
  }

  /** Content all placed None is left in its order by the sort. */
  lemma SortAllNeutral<T>(xs: seq<T>, pref: T -> PositionPreference)
    requires forall x | x in xs :: pref(x) == Neutral
    ensures StableSort(xs, PrefOrder(pref)) == xs
  {
    SortByPrefPartitions(xs, pref);
    FilterNone(xs, HasPref(pref, Start));
    FilterAll(xs, HasPref(pref, Neutral));
    FilterNone(xs, HasPref(pref, End));
    assert [] + xs + [] == xs;
  }

  /** Sorting content whose tail is all None places that tail after the None items of the head. */
  lemma PartitionNeutralTail<T>(a: seq<T>, c: seq<T>, pref: T -> PositionPreference)
    requires forall x | x in c :: pref(x) == Neutral
    ensures StableSort(a + c, PrefOrder(pref))
         == Filter(a, HasPref(pref, Start)) + (Filter(a, HasPref(pref, Neutral)) + c) + Filter(a, HasPref(pref, End))
  {
    SortByPrefPartitions(a + c, pref);
    FilterConcat(a, c, HasPref(pref, Start));
    FilterConcat(a, c, HasPref(pref, Neutral));
    FilterConcat(a, c, HasPref(pref, End));
    FilterNone(c, HasPref(pref, Start));
    FilterAll(c, HasPref(pref, Neutral));
    FilterNone(c, HasPref(pref, End));
    var s, e := Filter(a, HasPref(pref, Start)), Filter(a, HasPref(pref, End));
    assert s + [] == s && e + [] == e;
  }

  /**
   * The stable sort by preference puts the Start items first, then the
   * None items, then the End items, each group in its input order.
   */
  lemma {:induction false} SortByPrefPartitions<T>(xs: seq<T>, pref: T -> PositionPreference)
    ensures StableSort(xs, PrefOrder(pref)) == PrefPartition(xs, pref)
  {
    if xs != [] {
      var init, x := xs[..|xs| - 1], xs[|xs| - 1];
      SortByPrefPartitions(init, pref);
      InsertIntoPartition(init, x, pref);
    }
  }

  lemma InsertIntoPartition<T>(init: seq<T>, x: T, pref: T -> PositionPreference)
    ensures Insert(PrefPartition(init, pref), x, PrefOrder(pref)) == PrefPartition(init + [x], pref)
  {
    var s, n, e := Filter(init, HasPref(pref, Start)), Filter(init, HasPref(pref, Neutral)), Filter(init, HasPref(pref, End));
    assert PrefPartition(init, pref) == s + n + e;
    FilterHasPref(init, pref, Start);
    FilterHasPref(init, pref, Neutral);
    FilterHasPref(init, pref, End);
    var after := PrefPartition(init + [x], pref);
    match pref(x)
    case End =>
      assert after == s + n + (e + [x]) by { AppendedToGroups(init, x, pref); }
      InsertEndItem(s, n, e, x, pref);
    case Neutral =>
      assert after == s + (n + [x]) + e by { AppendedToGroups(init, x, pref); }
      InsertNeutralItem(s, n, e, x, pref);
    case Start =>
      assert after == (s + [x]) + n + e by { AppendedToGroups(init, x, pref); }
      InsertStartItem(s, n, e, x, pref);
  }

  lemma AppendedToGroups<T>(init: seq<T>, x: T, pref: T -> PositionPreference)
    ensures var s, n, e := Filter(init, HasPref(pref, Start)), Filter(init, HasPref(pref, Neutral)), Filter(init, HasPref(pref, End));
      PrefPartition(init + [x], pref) ==
        match pref(x)
        case Start => (s + [x]) + n + e
        case Neutral => s + (n + [x]) + e
        case End => s + n + (e + [x])
  {
    var s, n, e := Filter(init, HasPref(pref, Start)), Filter(init, HasPref(pref, Neutral)), Filter(init, HasPref(pref, End));
    FilterAppend(init, x, HasPref(pref, Start));
    FilterAppend(init, x, HasPref(pref, Neutral));
    FilterAppend(init, x, HasPref(pref, End));
    match pref(x)
    case Start =>
      assert HasPref(pref, Start)(x) && !HasPref(pref, Neutral)(x) && !HasPref(pref, End)(x);
      assert n + [] == n && e + [] == e;
    case Neutral =>
      assert !HasPref(pref, Start)(x) && HasPref(pref, Neutral)(x) && !HasPref(pref, End)(x);
      assert s + [] == s && e + [] == e;
    case End =>
      assert !HasPref(pref, Start)(x) && !HasPref(pref, Neutral)(x) && HasPref(pref, End)(x);
      assert s + [] == s && n + [] == n;
  }

  lemma FilterHasPref<T>(xs: seq<T>, pref: T -> PositionPreference, p: PositionPreference)
    ensures forall y | y in Filter(xs, HasPref(pref, p)) :: pref(y) == p
  {
    forall y | y in Filter(xs, HasPref(pref, p)) ensures pref(y) == p {
      assert HasPref(pref, p)(y);
    }
  }

  lemma InsertEndItem<T>(s: seq<T>, n: seq<T>, e: seq<T>, x: T, pref: T -> PositionPreference)
    requires pref(x) == End
    ensures Insert(s + n + e, x, PrefOrder(pref)) == s + n + (e + [x])
  {
    if s + n + e != [] {
      assert (s + n + e)[|s + n + e| - 1] in s + n + e;
    }
  }

  lemma InsertNeutralItem<T>(s: seq<T>, n: seq<T>, e: seq<T>, x: T, pref: T -> PositionPreference)
    requires pref(x) == Neutral
    requires forall y | y in s :: pref(y) == Start
    requires forall y | y in n :: pref(y) == Neutral
    requires forall y | y in e :: pref(y) == End
    ensures Insert(s + n + e, x, PrefOrder(pref)) == s + (n + [x]) + e
  {
    assert forall i | 0 <= i < |e| :: Rank(pref(e[i])) > Rank(pref(x)) by {
      forall i | 0 <= i < |e| ensures Rank(pref(e[i])) > Rank(pref(x)) {
        assert e[i] in e;
      }
    }
    InsertAfterLarger(s + n, e, x, pref);
    if s + n != [] {
      assert (s + n)[|s + n| - 1] in s + n;
    }
  }

  lemma InsertStartItem<T>(s: seq<T>, n: seq<T>, e: seq<T>, x: T, pref: T -> PositionPreference)
    requires pref(x) == Start
    requires forall y | y in s :: pref(y) == Start
    requires forall y | y in n :: pref(y) == Neutral
    requires forall y | y in e :: pref(y) == End
    ensures Insert(s + n + e, x, PrefOrder(pref)) == (s + [x]) + n + e
  {
    assert forall i | 0 <= i < |n + e| :: Rank(pref((n + e)[i])) > Rank(pref(x)) by {
      forall i | 0 <= i < |n + e| ensures Rank(pref((n + e)[i])) > Rank(pref(x)) {
        assert (n + e)[i] in n || (n + e)[i] in e;
      }
    }
    assert s + n + e == s + (n + e);
    InsertAfterLarger(s, n + e, x, pref);
    if s != [] {
      assert s[|s| - 1] in s;
    }
  }

  // ---------------------------------------------------------------------
  // deep_equals
  // ---------------------------------------------------------------------

  /** Rust's `Ord` on `String`: lexicographic by character. */
  function LexLe(a: string, b: string): bool
  {
    if a == [] then true
    else if b == [] then false
    else if a[0] != b[0] then a[0] < b[0]
    else LexLe(a[1..], b[1..])
  }

  function NameOrder(): (SyntaxItem, SyntaxItem) -> bool
  {
    (a: SyntaxItem, b: SyntaxItem) => LexLe(a.name, b.name)
  }

  /** Child names that `deep_equals` drops from the other side before comparing. */
  predicate IsIgnoredChild(c: SyntaxItem)
  {
    c.name == "teardrop" || c.name == "thermal_bridge_angle"
  }

  function NotIgnored(): SyntaxItem -> bool
  {
    (c: SyntaxItem) => !IsIgnoredChild(c)
  }

  /** The spellings `deep_equals` accepts as equal inside a `fill` node. */
  predicate FillSynonyms(x: string, y: string)
  {
    (x == "yes" && y == "solid") || (x == "solid" && y == "yes")
    || (x == "no" && y == "none") || (x == "none" && y == "no")
  }

  predicate ArgumentsMatch(name: string, xs: seq<SyntaxArgument>, ys: seq<SyntaxArgument>)
    requires |xs| == |ys|
  {
    forall i | 0 <= i < |xs| ::
      GetString(xs[i]) == GetString(ys[i]) || (name == "fill" && FillSynonyms(GetString(xs[i]), GetString(ys[i])))
  }

  /** `SyntaxItem::deep_equals`. */
  function DeepEquals(a: SyntaxItem, b: SyntaxItem): bool
    decreases a
  {
    var mine := StableSort(a.children, NameOrder());
    var theirs := Filter(StableSort(b.children, NameOrder()), NotIgnored());
    SortPermutes(a.children, NameOrder());
    a.name == b.name
    && (|a.arguments| == |b.arguments| || a.name == "layers")
    && |mine| == |theirs|
    && (forall i | 0 <= i < |mine| :: assert mine[i] in multiset(a.children); DeepEquals(mine[i], theirs[i]))
    && (a.name == "layers" || ArgumentsMatch(a.name, a.arguments, b.arguments))
  }

  /** A tree in which no node has a child that `deep_equals` ignores. */
  predicate NoIgnoredChildren(t: SyntaxItem)
  {
    (forall i | 0 <= i < |t.children| :: !IsIgnoredChild(t.children[i]) && NoIgnoredChildren(t.children[i]))
  }

  /** Equal trees are `deep_equals` when no node carries an ignored child. */
  lemma {:induction false} DeepEqualsReflexive(t: SyntaxItem)
    requires NoIgnoredChildren(t)
    ensures DeepEquals(t, t)
  {
    var mine := StableSort(t.children, NameOrder());
    assert Filter(mine, NotIgnored()) == mine by {
      SortPermutes(t.children, NameOrder());
      forall c | c in mine ensures NotIgnored()(c) {
        assert c in multiset(t.children);
      }
      FilterAll(mine, NotIgnored());
    }
    assert forall i | 0 <= i < |mine| :: DeepEquals(mine[i], mine[i]) by {
      SortPermutes(t.children, NameOrder());
      forall i | 0 <= i < |mine| ensures DeepEquals(mine[i], mine[i]) {
        assert mine[i] in multiset(t.children);
        DeepEqualsReflexive(mine[i]);
      }
    }
    assert ArgumentsMatch(t.name, t.arguments, t.arguments);
  }

  /** Names must agree, and outside `layers` so must the argument counts. */
  lemma DeepEqualsNeedsNameAndArity(a: SyntaxItem, b: SyntaxItem)
    requires DeepEquals(a, b)
    ensures a.name == b.name
    ensures a.name != "layers" ==> |a.arguments| == |b.arguments|
  {
  }

  /** Inside `fill`, `yes` matches `solid` and `no` matches `none`. */
  lemma FillSpellingsMatch(x: string, y: string)
    requires FillSynonyms(x, y)
    ensures DeepEquals(FromSingleArgument("fill", Identifier(x, Neutral)), FromSingleArgument("fill", Identifier(y, Neutral)))
  {
    var a, b := FromSingleArgument("fill", Identifier(x, Neutral)), FromSingleArgument("fill", Identifier(y, Neutral));
    assert StableSort(a.children, NameOrder()) == [];
    assert StableSort(b.children, NameOrder()) == [];
    assert Filter([], NotIgnored()) == [];
  }

  /**
   * The comparison is one-sided: an ignored child on the right is dropped,
   * but the same child on the left is not.
   */
  lemma DeepEqualsIsOneSided()
    ensures var bare := SyntaxItem("pad", [], []);
            var extra := SyntaxItem("pad", [], [SyntaxItem("teardrop", [], [])]);
            DeepEquals(bare, extra) && !DeepEquals(extra, bare)
  {
    var bare := SyntaxItem("pad", [], []);
    var td := SyntaxItem("teardrop", [], []);
    var extra := SyntaxItem("pad", [], [td]);
    assert StableSort(bare.children, NameOrder()) == [];
    var sorted := StableSort(extra.children, NameOrder());
    assert extra.children[..0] == [];
    assert sorted == [td];
    assert Filter(sorted, NotIgnored()) == [] by {
      assert sorted[..0] == [];
    }
    assert Filter([], NotIgnored()) == [];
  }
}

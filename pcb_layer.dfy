/**
 * The board layers of a KiCad footprint (`PcbLayer`): their names
 * (`to_string` and `parse`), the copper set (`all_copper`), and the
 * `layers` node that lists several layers at once, where a complete
 * family such as every copper layer is written as one wildcard `*.Cu`.
 */
module PcbLayers {
  import opened Wrappers
  import opened Numbers
  import opened Syntax
  import opened Folding

  type InnerIndex = n: nat | 1 <= n <= 30 witness 1
  type UserIndex = n: nat | 1 <= n <= 9 witness 1

  /**
   * The 58 layers. `Inner(n)` is the inner copper layer `In<n>.Cu` and
   * `User(k)` the user layer `User.<k>`; the others are named after their
   * KiCad names without the dot.
   */
  datatype PcbLayer =
    | FCu | Inner(n: InnerIndex) | BCu
    | BAdhes | FAdhes | BPaste | FPaste | BSilkS | FSilkS | BMask | FMask
    | DwgsUser | CmtsUser | Eco1User | Eco2User | EdgeCuts
    | FCrtYd | BCrtYd | FFab | BFab
    | User(k: UserIndex)

  // ---------------------------------------------------------------------
  // Names
  // ---------------------------------------------------------------------

  /** The digit naming a user layer. */
  function UserDigit(k: UserIndex): char
  {
    ('0' as int + k) as char
  }

  /** The part of a layer's name before the dot: its side or kind. */
  function LayerPrefix(l: PcbLayer): string
  {
    match l
    case FCu => "F"
    case Inner(n) => "In" + NatText(n)
    case BCu => "B"
    case BAdhes => "B"
    case FAdhes => "F"
    case BPaste => "B"
    case FPaste => "F"
    case BSilkS => "B"
    case FSilkS => "F"
    case BMask => "B"
    case FMask => "F"
    case DwgsUser => "Dwgs"
    case CmtsUser => "Cmts"
    case Eco1User => "Eco1"
    case Eco2User => "Eco2"
    case EdgeCuts => "Edge"
    case FCrtYd => "F"
    case BCrtYd => "B"
    case FFab => "F"
    case BFab => "B"
    case User(_) => "User"
  }

  /** The part of a layer's name after the dot: its family. */
  function LayerSuffix(l: PcbLayer): string
  {
    match l
    case FCu => "Cu"
    case Inner(_) => "Cu"
    case BCu => "Cu"
    case BAdhes => "Adhes"
    case FAdhes => "Adhes"
    case BPaste => "Paste"
    case FPaste => "Paste"
    case BSilkS => "SilkS"
    case FSilkS => "SilkS"
    case BMask => "Mask"
    case FMask => "Mask"
    case DwgsUser => "User"
    case CmtsUser => "User"
    case Eco1User => "User"
    case Eco2User => "User"
    case EdgeCuts => "Cuts"
    case FCrtYd => "CrtYd"
    case BCrtYd => "CrtYd"
    case FFab => "Fab"
    case BFab => "Fab"
    case User(k) => [UserDigit(k)]
  }

  /** `PcbLayer::to_string`: the KiCad name, such as `F.Cu`, `In12.Cu` or `User.3`. */
  function LayerName(l: PcbLayer): string
  {
    LayerPrefix(l) + "." + LayerSuffix(l)
  }

  // ---------------------------------------------------------------------
  // Splitting at a separator (Rust's `str::split`)
  // ---------------------------------------------------------------------

  /** Index of the first `c` in `s`, or `|s|`. */
  function CharIndex(s: string, c: char): (k: nat)
    ensures k <= |s|
    ensures k < |s| ==> s[k] == c
    ensures forall j | 0 <= j < k :: s[j] != c
  {
    if s == [] then 0 else if s[0] == c then 0 else 1 + CharIndex(s[1..], c)
  }

  /** `s.split(c).collect::<Vec<&str>>()`: the pieces between the separators, at least one. */
  function SplitOn(s: string, c: char): (r: seq<string>)
    ensures |r| >= 1
    decreases |s|
  {
    var k := CharIndex(s, c);
    if k == |s| then [s] else [s[..k]] + SplitOn(s[k + 1..], c)
  }

  /** Two pieces come from exactly one separator between them. */
  lemma SplitTwoJoins(s: string, c: char)
    requires |SplitOn(s, c)| == 2
    ensures s == SplitOn(s, c)[0] + [c] + SplitOn(s, c)[1]
  {
    var k := CharIndex(s, c);
    var rest := s[k + 1..];
    assert CharIndex(rest, c) == |rest|;
    assert s == s[..k] + [c] + rest;
  }

  lemma {:induction false} CharIndexAfter(p: string, c: char, q: string)
    requires c !in p
    ensures CharIndex(p + [c] + q, c) == |p|
  {
    if p != [] {
      assert (p + [c] + q)[1..] == p[1..] + [c] + q;
      CharIndexAfter(p[1..], c, q);
    }
  }

  /** Joining two pieces without the separator and splitting again gives the pieces. */
  lemma SplitJoined(p: string, c: char, q: string)
    requires c !in p && c !in q
    ensures SplitOn(p + [c] + q, c) == [p, q]
  {
    var s := p + [c] + q;
    CharIndexAfter(p, c, q);
    assert s[..|p|] == p && s[|p| + 1..] == q;
    assert CharIndex(q, c) == |q|;
  }

  // ---------------------------------------------------------------------
  // Parsing a name
  // ---------------------------------------------------------------------

  /** The inner layer named `In<n>` with `n` written without leading zeros, 1 to 30. */
  function InnerOf(p: string): (r: Option<PcbLayer>)
    ensures r.Some? ==> r.value.Inner? && LayerPrefix(r.value) == p
  {
    if 3 <= |p| <= 4 && p[..2] == "In" && AllDigits(p[2..]) then
      var n := DigitsValue(p[2..]);
      if 1 <= n <= 30 && NatText(n) == p[2..] then
        assert p == p[..2] + p[2..];
        Some(Inner(n))
      else None
    else None
  }

  /** The user layer `User.<k>` for a single digit 1 to 9. */
  function UserOf(q: string): (r: Option<PcbLayer>)
    ensures r.Some? ==> r.value.User? && LayerSuffix(r.value) == q
  {
    if |q| == 1 && '1' <= q[0] <= '9' then
      var k: UserIndex := q[0] as int - '0' as int;
      assert q == [UserDigit(k)];
      Some(User(k))
    else None
  }

  /** The front layer for `F`, the back layer for `B`. */
  function Sided(p: string, front: PcbLayer, back: PcbLayer): (r: Option<PcbLayer>)
    ensures r.Some? ==> (p == "F" && r.value == front) || (p == "B" && r.value == back)
  {
    if p == "F" then Some(front) else if p == "B" then Some(back) else None
  }

  /** The drawing layer `<p>.User`. */
  function Drawing(p: string): (r: Option<PcbLayer>)
    ensures r.Some? ==> LayerPrefix(r.value) == p && LayerSuffix(r.value) == "User"
  {
    if p == "Dwgs" then Some(DwgsUser) else if p == "Cmts" then Some(CmtsUser)
    else if p == "Eco1" then Some(Eco1User) else if p == "Eco2" then Some(Eco2User) else None
  }

  /** The copper layer `<p>.Cu`. */
  function Copper(p: string): (r: Option<PcbLayer>)
    ensures r.Some? ==> LayerPrefix(r.value) == p && LayerSuffix(r.value) == "Cu"
  {
    if p == "F" || p == "B" then Sided(p, FCu, BCu) else InnerOf(p)
  }

  /** The layer named `<p>.<q>`, if there is one. */
  function LayerOfParts(p: string, q: string): (r: Option<PcbLayer>)
    ensures r.Some? ==> LayerPrefix(r.value) == p && LayerSuffix(r.value) == q
  {
    match q
    case "Cu" => Copper(p)
    case "Adhes" => Sided(p, FAdhes, BAdhes)
    case "Paste" => Sided(p, FPaste, BPaste)
    case "SilkS" => Sided(p, FSilkS, BSilkS)
    case "Mask" => Sided(p, FMask, BMask)
    case "User" => Drawing(p)
    case "Cuts" => if p == "Edge" then Some(EdgeCuts) else None
    case "CrtYd" => Sided(p, FCrtYd, BCrtYd)
    case "Fab" => Sided(p, FFab, BFab)
    case _ => if p == "User" then UserOf(q) else None
  }

  /** `PcbLayer::parse`: None is the panic on a name that is not one of the 58. */
  function ParseLayer(s: string): Option<PcbLayer>
  {
    var parts := SplitOn(s, '.');
    if |parts| == 2 then LayerOfParts(parts[0], parts[1]) else None
  }

  /** `PcbLayer::from`: the layer named by a node's first argument; None when it is missing or unknown. */
  function ReadLayerNode(item: SyntaxItem): Option<PcbLayer>
  {
    if |item.arguments| == 0 then None else ParseLayer(GetString(item.arguments[0]))
  }

  /** The `(layer <name>)` node a single-layer element writes. */
  function WriteLayerNode(l: PcbLayer): SyntaxItem
  {
    FromSingleArgument("layer", Identifier(LayerName(l), Neutral))
  }

  /** Neither half of a layer name holds a dot or an ampersand. */
  lemma NamePartsPlain(l: PcbLayer)
    ensures '.' !in LayerPrefix(l) && '.' !in LayerSuffix(l)
    ensures '&' !in LayerPrefix(l) && LayerPrefix(l) != "*" && LayerSuffix(l) != "*"
  {
    if l.Inner? {
      var d := NatText(l.n);
      assert LayerPrefix(l) == "In" + d;
      assert forall i | 0 <= i < |d| :: IsDigit(d[i]);
    }
  }

  /** A name splits at its dot into the two halves. */
  lemma NameSplits(l: PcbLayer)
    ensures SplitOn(LayerName(l), '.') == [LayerPrefix(l), LayerSuffix(l)]
  {
    NamePartsPlain(l);
    SplitJoined(LayerPrefix(l), '.', LayerSuffix(l));
  }

  lemma InnerParts(n: InnerIndex)
    ensures LayerOfParts(LayerPrefix(Inner(n)), "Cu") == Some(Inner(n))
  {
    var p := LayerPrefix(Inner(n));
    var d := NatText(n);
    NatTextValue(n);
    assert p[..2] == "In" && p[2..] == d;
    assert |d| <= 2 by {
      if n >= 10 {
        assert NatText(n / 10) == [('0' as int + n / 10) as char];
      }
    }
  }

  lemma UserParts(k: UserIndex)
    ensures LayerOfParts("User", LayerSuffix(User(k))) == Some(User(k))
  {
    var q := LayerSuffix(User(k));
    assert |q| == 1;
    assert q != "Cu" && q != "Adhes" && q != "Paste" && q != "SilkS" && q != "Mask";
    assert q != "User" && q != "Cuts" && q != "CrtYd" && q != "Fab";
  }

  /** The two halves of a name identify the layer. */
  lemma PartsIdentify(l: PcbLayer)
    ensures LayerOfParts(LayerPrefix(l), LayerSuffix(l)) == Some(l)
  {
    match l
    case Inner(n) => InnerParts(n);
    case User(k) => UserParts(k);
    case _ =>
  }

  /** Every layer's name parses back to that layer. */
  lemma ParseLayerName(l: PcbLayer)
    ensures ParseLayer(LayerName(l)) == Some(l)
  {
    NameSplits(l);
    PartsIdentify(l);
  }

  /** Only the names of layers parse, each to its own layer. */
  lemma ParseLayerSound(s: string)
    requires ParseLayer(s).Some?
    ensures LayerName(ParseLayer(s).value) == s
  {
    var parts := SplitOn(s, '.');
    SplitTwoJoins(s, '.');
  }

  /** Different layers have different names. */
  lemma NamesDistinct(a: PcbLayer, b: PcbLayer)
    requires LayerPrefix(a) == LayerPrefix(b) && LayerSuffix(a) == LayerSuffix(b)
    ensures a == b
  {
    PartsIdentify(a);
    PartsIdentify(b);
  }

  /** The `layer` node of a single-layer element reads back as that layer. */
  lemma LayerNodeRoundTrip(l: PcbLayer)
    ensures ReadLayerNode(WriteLayerNode(l)) == Some(l)
  {
    ParseLayerName(l);
  }

  // ---------------------------------------------------------------------
  // The enumeration order
  // ---------------------------------------------------------------------

  function InnerLayers(): (r: seq<PcbLayer>)
    ensures |r| == 30 && forall i | 0 <= i < 30 :: r[i] == Inner(i + 1)
  {
    seq(30, i requires 0 <= i < 30 => Inner(i + 1))
  }

  function UserLayers(): (r: seq<PcbLayer>)
    ensures |r| == 9 && forall i | 0 <= i < 9 :: r[i] == User(i + 1)
  {
    seq(9, i requires 0 <= i < 9 => User(i + 1))
  }

  /** `PcbLayer::all_copper`: front, the 30 inner layers in order, back. */
  function AllCopper(): seq<PcbLayer>
  {
    [FCu] + InnerLayers() + [BCu]
  }

  /** The technical layers between the copper and the numbered user layers, in declaration order. */
  function TechnicalLayers(): seq<PcbLayer>
  {
    [BAdhes, FAdhes, BPaste, FPaste, BSilkS, FSilkS, BMask, FMask,
     DwgsUser, CmtsUser, Eco1User, Eco2User, EdgeCuts, FCrtYd, BCrtYd, FFab, BFab]
  }

  /** `PcbLayer::iter()`: every layer in declaration order. */
  function AllLayers(): seq<PcbLayer>
  {
    AllCopper() + TechnicalLayers() + UserLayers()
  }

  /** The copper layers are exactly those of the `Cu` family, each listed once. */
  lemma AllCopperIsCopper(l: PcbLayer)
    ensures l in AllCopper() <==> LayerSuffix(l) == "Cu"
  {
    var inner := InnerLayers();
    if l.Inner? {
      assert inner[l.n - 1] == l;
    }
    if l in AllCopper() && l != FCu && l != BCu {
      assert l in inner;
    }
  }

  lemma AllCopperDistinct()
    ensures forall i, j | 0 <= i < j < |AllCopper()| :: AllCopper()[i] != AllCopper()[j]
  {
  }

  /** Every layer is enumerated. */
  lemma AllLayersListed(l: PcbLayer)
    ensures l in AllLayers()
  {
    var all := AllLayers();
    match l
    case FCu => assert all[0] == l;
    case Inner(n) => assert all[n] == l;
    case BCu => assert all[31] == l;
    case User(k) => assert all[49 + k - 1] == l;
    case _ => assert l in TechnicalLayers();
  }


  // ---------------------------------------------------------------------
  // Families: the runs `chunk_by` finds in the enumeration
  // ---------------------------------------------------------------------

  /** The families of the fixed layers, in enumeration order. */
  function BaseFamilies(): seq<string>
  {
    ["Cu", "Adhes", "Paste", "SilkS", "Mask", "User", "Cuts", "CrtYd", "Fab"]
  }

  /** The one-layer families `1` to `9` of the user layers. */
  function UserFamilies(): (r: seq<string>)
    ensures |r| == 9 && forall i | 0 <= i < 9 :: r[i] == [UserDigit(i + 1)]
  {
    seq(9, i requires 0 <= i < 9 => [UserDigit(i + 1)])
  }

  /** The families in enumeration order. */
  function Families(): seq<string>
  {
    BaseFamilies() + UserFamilies()
  }

  /** The layers of family `x`, in enumeration order. */
  function Family(x: string): seq<PcbLayer>
  {
    match x
    case "Cu" => AllCopper()
    case "Adhes" => [BAdhes, FAdhes]
    case "Paste" => [BPaste, FPaste]
    case "SilkS" => [BSilkS, FSilkS]
    case "Mask" => [BMask, FMask]
    case "User" => [DwgsUser, CmtsUser, Eco1User, Eco2User]
    case "Cuts" => [EdgeCuts]
    case "CrtYd" => [FCrtYd, BCrtYd]
    case "Fab" => [FFab, BFab]
    case _ =>
      match UserOf(x)
      case Some(u) => [u]
      case None => []
  }

  /** A layer belongs to the family its suffix names. */
  lemma FamilyHas(l: PcbLayer)
    ensures l in Family(LayerSuffix(l))
  {
    match l
    case Inner(n) => assert InnerLayers()[n - 1] == l;
    case User(k) => UserFamily(k);
    case _ =>
  }

  /** A member of family `x` has the suffix `x`. */
  lemma FamilyOnly(x: string, l: PcbLayer)
    requires l in Family(x)
    ensures LayerSuffix(l) == x
  {
    if x == "Cu" {
      AllCopperIsCopper(l);
    }
  }

  lemma FamilyMembers(x: string, l: PcbLayer)
    ensures l in Family(x) <==> LayerSuffix(l) == x
  {
    FamilyHas(l);
    if l in Family(x) {
      FamilyOnly(x, l);
    }
  }

  /** The family of a user layer is that layer alone. */
  lemma UserFamily(k: UserIndex)
    ensures Family([UserDigit(k)]) == [User(k)]
  {
    UserParts(k);
  }

  /** The layers of the families in `xs`, family after family. */
  function Runs(xs: seq<string>): seq<PcbLayer>
  {
    if xs == [] then [] else Family(xs[0]) + Runs(xs[1..])
  }

  lemma {:induction false} RunsConcat(xs: seq<string>, ys: seq<string>)
    ensures Runs(xs + ys) == Runs(xs) + Runs(ys)
  {
    if xs == [] {
      assert xs + ys == ys;
    } else {
      assert (xs + ys)[1..] == xs[1..] + ys;
      RunsConcat(xs[1..], ys);
    }
  }

  lemma SideRuns()
    ensures Runs(["Adhes", "Paste", "SilkS", "Mask"]) == [BAdhes, FAdhes, BPaste, FPaste, BSilkS, FSilkS, BMask, FMask]
  {
  }

  lemma DrawingRuns()
    ensures Runs(["User", "Cuts", "CrtYd", "Fab"]) == [DwgsUser, CmtsUser, Eco1User, Eco2User, EdgeCuts, FCrtYd, BCrtYd, FFab, BFab]
  {
  }

  lemma {:induction false} UserRuns(j: nat)
    requires j <= 9
    ensures Runs(UserFamilies()[j..]) == UserLayers()[j..]
    decreases 9 - j
  {
    if j < 9 {
      UserRuns(j + 1);
      UserFamily(j + 1);
      assert UserFamilies()[j..][1..] == UserFamilies()[j + 1..];
      assert UserLayers()[j..] == [User(j + 1)] + UserLayers()[j + 1..];
    }
  }

  lemma BaseSplit()
    ensures BaseFamilies() == ["Cu"] + (["Adhes", "Paste", "SilkS", "Mask"] + ["User", "Cuts", "CrtYd", "Fab"])
  {
  }

  lemma TechnicalSplit()
    ensures TechnicalLayers() == [BAdhes, FAdhes, BPaste, FPaste, BSilkS, FSilkS, BMask, FMask]
                               + [DwgsUser, CmtsUser, Eco1User, Eco2User, EdgeCuts, FCrtYd, BCrtYd, FFab, BFab]
  {
  }

  lemma CopperRun()
    ensures Runs(["Cu"]) == AllCopper()
  {
    assert Runs(["Cu"]) == AllCopper() + [];
  }

  lemma BaseRuns()
    ensures Runs(BaseFamilies()) == AllCopper() + TechnicalLayers()
  {
    var sides := ["Adhes", "Paste", "SilkS", "Mask"];
    var drawings := ["User", "Cuts", "CrtYd", "Fab"];
    BaseSplit();
    RunsConcat(["Cu"], sides + drawings);
    RunsConcat(sides, drawings);
    SideRuns();
    DrawingRuns();
    CopperRun();
    TechnicalSplit();
  }

  /**
   * The families, taken in order, make up the whole enumeration: each
   * family is one run of equal suffixes, which is how `chunk_by` groups
   * the layers.
   */
  lemma FamiliesAreRuns()
    ensures Runs(Families()) == AllLayers()
  {
    RunsConcat(BaseFamilies(), UserFamilies());
    BaseRuns();
    UserRuns(0);
    assert UserFamilies()[0..] == UserFamilies() && UserLayers()[0..] == UserLayers();
  }

  lemma BaseFamiliesDistinct()
    ensures forall i, j | 0 <= i < j < 9 :: BaseFamilies()[i] != BaseFamilies()[j]
  {
  }

  /** No family comes twice, so `chunk_by` meets each one once. */
  lemma FamiliesDistinct()
    ensures forall i, j | 0 <= i < j < |Families()| :: Families()[i] != Families()[j]
  {
    BaseFamiliesDistinct();
    var fs := Families();
    forall i, j | 0 <= i < j < |fs|
      ensures fs[i] != fs[j]
    {
      if j >= 9 {
        assert fs[j] == [UserDigit(j - 8)];
        if i >= 9 {
          assert fs[i] == [UserDigit(i - 8)];
          assert fs[i][0] != fs[j][0];
        } else {
          assert |fs[i]| >= 2;
        }
      }
    }
  }

  /** No family name holds a dot or is `*`. */
  lemma FamiliesPlain()
    ensures forall x | x in Families() :: '.' !in x && x != "*"
  {
    forall x | x in Families()
      ensures '.' !in x && x != "*"
    {
      if x !in BaseFamilies() {
        var i :| 0 <= i < 9 && UserFamilies()[i] == x;
      }
    }
  }

  /** Every layer's family is one of the families. */
  lemma SuffixIsFamily(l: PcbLayer)
    ensures LayerSuffix(l) in Families()
  {
    if l.User? {
      assert LayerSuffix(l) == Families()[9 + l.k - 1];
    } else {
      assert LayerSuffix(l) in BaseFamilies();
    }
  }

  // ---------------------------------------------------------------------
  // Writing a list of layers
  // ---------------------------------------------------------------------

  /** One entry of `layers_by_name`: a family's suffix and its layers. */
  datatype LayerGroup = LayerGroup(suffix: string, members: seq<PcbLayer>)

  function FamilyGroup(x: string): LayerGroup
  {
    LayerGroup(x, Family(x))
  }

  /** `layers_by_name`: the runs of `chunk_by` over the enumeration (see `FamiliesAreRuns`). */
  function Groups(): seq<LayerGroup>
  {
    Map(Families(), FamilyGroup)
  }

  /** Every layer of `names` is in the list (`names.iter().all(|l| list.contains(l))`). */
  predicate AllIn(names: seq<PcbLayer>, list: seq<PcbLayer>)
  {
    forall l | l in names :: l in list
  }

  /** Every layer of family `x` is in the list. */
  predicate Complete(layers: seq<PcbLayer>, x: string)
  {
    AllIn(Family(x), layers)
  }

  /** The suffixes of the groups among `groups` whose every layer is in the list, in order. */
  function Wildcards(groups: seq<LayerGroup>, layers: seq<PcbLayer>): seq<string>
  {
    if groups == [] then []
    else
      var g := groups[|groups| - 1];
      Wildcards(groups[..|groups| - 1], layers) + (if AllIn(g.members, layers) then [g.suffix] else [])
  }

  /** A layer that the wildcard of one of `groups` stands for. */
  predicate Absorbed(groups: seq<LayerGroup>, layers: seq<PcbLayer>, l: PcbLayer)
  {
    exists g | g in groups :: l in g.members && AllIn(g.members, layers)
  }

  /** The elements of `xs` that no wildcard of `groups` stands for, in order. */
  function Rest(xs: seq<PcbLayer>, groups: seq<LayerGroup>, layers: seq<PcbLayer>): seq<PcbLayer>
  {
    if xs == [] then []
    else (if Absorbed(groups, layers, xs[0]) then [] else [xs[0]]) + Rest(xs[1..], groups, layers)
  }

  /** The wildcard argument `*.<x>` standing for every layer of family `x`. */
  function WildcardWord(x: string): SyntaxArgument
  {
    Identifier("*." + x, Neutral)
  }

  function NameWord(l: PcbLayer): SyntaxArgument
  {
    Identifier(LayerName(l), Neutral)
  }

  /**
   * `Vec<PcbLayer>::serialize`: a wildcard for each family all of whose
   * layers are listed, in enumeration order, then the names of the layers
   * no wildcard stands for, in list order.
   */
  function WriteLayers(layers: seq<PcbLayer>): SyntaxItem
  {
    FromArguments("layers", Map(Wildcards(Groups(), layers), WildcardWord)
                            + Map(Rest(layers, Groups(), layers), NameWord))
  }

  /** `list.into_iter().filter(|l| !names.contains(l))`. */
  function Without(list: seq<PcbLayer>, names: seq<PcbLayer>): seq<PcbLayer>
  {
    if list == [] then [] else (if list[0] in names then [] else [list[0]]) + Without(list[1..], names)
  }

  lemma {:induction false} RestMembers(xs: seq<PcbLayer>, groups: seq<LayerGroup>, layers: seq<PcbLayer>, l: PcbLayer)
    ensures l in Rest(xs, groups, layers) <==> l in xs && !Absorbed(groups, layers, l)
  {
    if xs != [] {
      RestMembers(xs[1..], groups, layers, l);
      assert xs == [xs[0]] + xs[1..];
    }
  }

  lemma {:induction false} WildcardsMembers(groups: seq<LayerGroup>, layers: seq<PcbLayer>, x: string)
    ensures x in Wildcards(groups, layers) <==> exists g | g in groups :: g.suffix == x && AllIn(g.members, layers)
  {
    if groups != [] {
      var init, g := groups[..|groups| - 1], groups[|groups| - 1];
      WildcardsMembers(init, layers, x);
      assert groups == init + [g];
      if exists h | h in groups :: h.suffix == x && AllIn(h.members, layers) {
        var h :| h in groups && h.suffix == x && AllIn(h.members, layers);
        if h != g {
          assert h in init;
        }
      }
    }
  }

  lemma AbsorbedStep(groups: seq<LayerGroup>, g: LayerGroup, layers: seq<PcbLayer>, l: PcbLayer)
    ensures Absorbed(groups + [g], layers, l) <==> Absorbed(groups, layers, l) || (l in g.members && AllIn(g.members, layers))
  {
    if Absorbed(groups + [g], layers, l) {
      var h :| h in groups + [g] && l in h.members && AllIn(h.members, layers);
      if h != g {
        assert h in groups;
      }
    }
    if l in g.members && AllIn(g.members, layers) {
      assert g in groups + [g];
    }
    if Absorbed(groups, layers, l) {
      var h :| h in groups && l in h.members && AllIn(h.members, layers);
      assert h in groups + [g];
    }
  }

  lemma {:induction false} RestStep(xs: seq<PcbLayer>, layers: seq<PcbLayer>, done: seq<LayerGroup>, g: LayerGroup)
    ensures Rest(xs, done + [g], layers)
         == if AllIn(g.members, layers) then Without(Rest(xs, done, layers), g.members) else Rest(xs, done, layers)
  {
    if xs != [] {
      var l := xs[0];
      RestStep(xs[1..], layers, done, g);
      AbsorbedStep(done, g, layers, l);
      var r := Rest(xs, done, layers);
      var tail := Rest(xs[1..], done, layers);
      if Absorbed(done, layers, l) {
        assert r == tail;
      } else {
        assert r == [l] + tail;
        assert r[0] == l && r[1..] == tail;
      }
    }
  }

  lemma {:induction false} NothingAbsorbed(xs: seq<PcbLayer>, layers: seq<PcbLayer>)
    ensures Rest(xs, [], layers) == xs
  {
    if xs != [] {
      NothingAbsorbed(xs[1..], layers);
    }
  }

  /** No layer belongs to two of the groups. */
  predicate Disjoint(groups: seq<LayerGroup>)
  {
    forall i, j, l | 0 <= i < j < |groups| && l in groups[i].members :: l !in groups[j].members
  }

  /** One round of the serializer's first loop, on a group disjoint from those handled before. */
  lemma PassRound(layers: seq<PcbLayer>, done: seq<LayerGroup>, g: LayerGroup, list: seq<PcbLayer>, complete: bool)
    requires list == Rest(layers, done, layers)
    requires forall h, l | h in done && l in g.members :: l !in h.members
    requires complete <==> AllIn(g.members, list)
    ensures complete == AllIn(g.members, layers)
    ensures Wildcards(done + [g], layers) == Wildcards(done, layers) + (if complete then [g.suffix] else [])
    ensures Rest(layers, done + [g], layers) == if complete then Without(list, g.members) else list
  {
    forall l | l in g.members
      ensures l in list <==> l in layers
    {
      RestMembers(layers, done, layers, l);
    }
    RestStep(layers, layers, done, g);
    assert (done + [g])[..|done|] == done;
  }

  lemma PassOrder(groups: seq<LayerGroup>, i: nat)
    requires Disjoint(groups) && i < |groups|
    ensures groups[..i + 1] == groups[..i] + [groups[i]]
    ensures forall h, l | h in groups[..i] && l in groups[i].members :: l !in h.members
  {
    forall h, l | h in groups[..i] && l in groups[i].members
      ensures l !in h.members
    {
      var j :| 0 <= j < i && groups[..i][j] == h;
    }
  }

  /**
   * The serializer's first loop, over the groups in order: a wildcard for
   * each group whose layers are all still in the list, whose layers then
   * leave the list.
   */
  method WildcardPass(layers: seq<PcbLayer>, groups: seq<LayerGroup>) returns (arguments: seq<SyntaxArgument>, list: seq<PcbLayer>)
    requires Disjoint(groups)
    ensures arguments == Map(Wildcards(groups, layers), WildcardWord)
    ensures list == Rest(layers, groups, layers)
  {
    arguments := [];
    list := layers;
    NothingAbsorbed(layers, layers);
    assert groups[..0] == [];
    for i := 0 to |groups|
      invariant arguments == Map(Wildcards(groups[..i], layers), WildcardWord)
      invariant list == Rest(layers, groups[..i], layers)
    {
      var names := groups[i].members;
      var complete := forall l | l in names :: l in list;
      PassOrder(groups, i);
      PassRound(layers, groups[..i], groups[i], list, complete);
      if complete {
        MapSnoc(Wildcards(groups[..i], layers), groups[i].suffix, WildcardWord);
        list := Without(list, names);
        arguments := arguments + [WildcardWord(groups[i].suffix)];
      }
    }
    assert groups[..|groups|] == groups;
  }

  /** The serializer's second loop: the name of each layer left in the list, in order. */
  method NameWords(list: seq<PcbLayer>) returns (words: seq<SyntaxArgument>)
    ensures words == Map(list, NameWord)
  {
    words := [];
    for j := 0 to |list|
      invariant words == Map(list[..j], NameWord)
    {
      assert list[..j + 1] == list[..j] + [list[j]];
      MapSnoc(list[..j], list[j], NameWord);
      words := words + [NameWord(list[j])];
    }
    assert list[..|list|] == list;
  }

  /** The families are disjoint groups. */
  lemma GroupsDisjoint()
    ensures Disjoint(Groups())
  {
    FamiliesDistinct();
    var gs := Groups();
    forall i, j, l | 0 <= i < j < |gs| && l in gs[i].members
      ensures l !in gs[j].members
    {
      FamilyOnly(Families()[i], l);
      if l in gs[j].members {
        FamilyOnly(Families()[j], l);
      }
    }
  }

  /** The method the serializer runs, proved against `WriteLayers`. */
  method SerializeLayers(layers: seq<PcbLayer>) returns (item: SyntaxItem)
    ensures item == WriteLayers(layers)
  {
    GroupsDisjoint();
    var arguments, list := WildcardPass(layers, Groups());
    var words := NameWords(list);
    item := FromArguments("layers", arguments + words);
  }

  // ---------------------------------------------------------------------
  // Reading a list of layers
  // ---------------------------------------------------------------------

  /**
   * Whether the argument split into `parts` selects layer `l`: each half
   * equals the layer's or is `*`, or the family matches and the first half
   * is an `&`-separated list holding the layer's prefix.
   */
  predicate Selects(parts: seq<string>, l: PcbLayer)
    requires |parts| >= 2
  {
    var typeMatch := LayerPrefix(l) == parts[0] || parts[0] == "*";
    var nameMatch := LayerSuffix(l) == parts[1] || parts[1] == "*";
    (nameMatch && '&' in parts[0] && LayerPrefix(l) in SplitOn(parts[0], '&')) || (typeMatch && nameMatch)
  }

  /** The layers one argument selects; None is the panic on an argument without a dot. */
  function ArgumentLayers(a: SyntaxArgument): Option<set<PcbLayer>>
  {
    var parts := SplitOn(GetString(a), '.');
    if |parts| < 2 then None else Some(Selected(parts))
  }

  /** The layers the argument split into `parts` selects. */
  function Selected(parts: seq<string>): set<PcbLayer>
    requires |parts| >= 2
  {
    set l | l in AllLayers() && Selects(parts, l)
  }

  function LayersStep(): (set<PcbLayer>, SyntaxArgument) -> Option<set<PcbLayer>>
  {
    (acc: set<PcbLayer>, a: SyntaxArgument) =>
      match ArgumentLayers(a)
      case None => None
      case Some(ms) => Some(acc + ms)
  }

  /**
   * `Vec<PcbLayer>::deserialize`: every layer some argument selects. The
   * source collects them from a hash map, so only the set is modelled.
   */
  function ReadLayers(item: SyntaxItem): Option<set<PcbLayer>>
  {
    Fold({}, item.arguments, LayersStep())
  }

  /** The method the deserializer runs, proved against `ReadLayers`. */
  method DeserializeLayers(syntax: SyntaxItem) returns (r: Option<set<PcbLayer>>)
    ensures r == ReadLayers(syntax)
  {
    var layers: set<PcbLayer> := {};
    for i := 0 to |syntax.arguments|
      invariant ReadLayers(syntax) == Fold(layers, syntax.arguments[i..], LayersStep())
    {
      FoldAdvance(layers, syntax.arguments, i, LayersStep());
      var selected := ArgumentLayers(syntax.arguments[i]);
      if selected.None? {
        return None;
      }
      layers := layers + selected.value;
    }
    r := Some(layers);
  }

  /** The layers of family `x`. */
  function FamilySet(x: string): set<PcbLayer>
  {
    set l | l in AllLayers() && LayerSuffix(l) == x
  }

  lemma SelectedFamily(parts: seq<string>, x: string)
    requires |parts| >= 2
    requires forall m :: Selects(parts, m) <==> LayerSuffix(m) == x
    ensures Selected(parts) == FamilySet(x)
  {
  }

  lemma SelectedSingle(parts: seq<string>, l: PcbLayer)
    requires |parts| >= 2
    requires forall m :: Selects(parts, m) <==> m == l
    ensures Selected(parts) == {l}
  {
    AllLayersListed(l);
  }

  /** The wildcard of a family selects exactly that family. */
  lemma WildcardSelects(x: string)
    requires '.' !in x && x != "*"
    ensures ArgumentLayers(WildcardWord(x)) == Some(FamilySet(x))
  {
    assert "*." + x == "*" + ['.'] + x;
    SplitJoined("*", '.', x);
    SelectedFamily(["*", x], x);
  }

  lemma SelectsName(l: PcbLayer, m: PcbLayer)
    ensures Selects([LayerPrefix(l), LayerSuffix(l)], m) <==> m == l
  {
    NamePartsPlain(l);
    if LayerPrefix(m) == LayerPrefix(l) && LayerSuffix(m) == LayerSuffix(l) {
      NamesDistinct(m, l);
    }
  }

  /** A layer's name selects exactly that layer. */
  lemma NameSelects(l: PcbLayer)
    ensures ArgumentLayers(NameWord(l)) == Some({l})
  {
    NameSplits(l);
    forall m
      ensures Selects([LayerPrefix(l), LayerSuffix(l)], m) <==> m == l
    {
      SelectsName(l, m);
    }
    SelectedSingle([LayerPrefix(l), LayerSuffix(l)], l);
  }

  /** Adds the layers of family `x`. */
  function AddFamily(acc: set<PcbLayer>, x: string): set<PcbLayer>
  {
    acc + FamilySet(x)
  }

  function AddLayer(acc: set<PcbLayer>, l: PcbLayer): set<PcbLayer>
  {
    acc + {l}
  }

  /** An argument that selects `s` adds `s` to whatever was read before it. */
  lemma StepReads(a: SyntaxArgument, s: set<PcbLayer>)
    requires ArgumentLayers(a) == Some(s)
    ensures forall acc :: LayersStep()(acc, a) == Some(acc + s)
  {
  }

  lemma WildcardSteps(w: seq<string>)
    requires forall x | x in w :: '.' !in x && x != "*"
    ensures forall acc, x | x in w :: LayersStep()(acc, WildcardWord(x)) == Some(AddFamily(acc, x))
  {
    forall x | x in w
      ensures forall acc :: LayersStep()(acc, WildcardWord(x)) == Some(AddFamily(acc, x))
    {
      WildcardSelects(x);
      StepReads(WildcardWord(x), FamilySet(x));
    }
  }

  lemma NameSteps(u: seq<PcbLayer>)
    ensures forall acc, l | l in u :: LayersStep()(acc, NameWord(l)) == Some(AddLayer(acc, l))
  {
    forall l | l in u
      ensures forall acc :: LayersStep()(acc, NameWord(l)) == Some(AddLayer(acc, l))
    {
      NameSelects(l);
      StepReads(NameWord(l), {l});
    }
  }

  /** Adding sets one after another: a layer ends up in the result when it was there or one of the sets has it. */
  lemma {:induction false} AddedMembers<E>(acc: set<PcbLayer>, es: seq<E>, add: (set<PcbLayer>, E) -> set<PcbLayer>,
                                          has: (E, PcbLayer) -> bool, l: PcbLayer)
    requires forall a, e, m :: m in add(a, e) <==> m in a || has(e, m)
    ensures l in Appended(acc, es, add) <==> l in acc || exists e | e in es :: has(e, l)
    decreases |es|
  {
    if es != [] {
      AddedMembers(add(acc, es[0]), es[1..], add, has, l);
      assert es == [es[0]] + es[1..];
    }
  }

  predicate InFamily(x: string, m: PcbLayer)
  {
    m in AllLayers() && LayerSuffix(m) == x
  }

  lemma FamiliesAdded(acc: set<PcbLayer>, w: seq<string>, l: PcbLayer)
    ensures l in Appended(acc, w, AddFamily) <==> l in acc || (l in AllLayers() && LayerSuffix(l) in w)
  {
    AddedMembers(acc, w, AddFamily, InFamily, l);
  }

  lemma {:induction false} LayersAdded(acc: set<PcbLayer>, u: seq<PcbLayer>, l: PcbLayer)
    ensures l in Appended(acc, u, AddLayer) <==> l in acc || l in u
    decreases |u|
  {
    if u != [] {
      LayersAdded(AddLayer(acc, u[0]), u[1..], l);
      assert u == [u[0]] + u[1..];
    }
  }

  /** Reading the written arguments collects the families of the wildcards and the named layers. */
  lemma ReadWords(w: seq<string>, u: seq<PcbLayer>)
    requires forall x | x in w :: '.' !in x && x != "*"
    ensures Fold({}, Map(w, WildcardWord) + Map(u, NameWord), LayersStep())
         == Some(Appended(Appended({}, w, AddFamily), u, AddLayer))
  {
    WildcardSteps(w);
    NameSteps(u);
    FoldConcat({}, Map(w, WildcardWord), Map(u, NameWord), LayersStep());
    FoldMapped({}, w, WildcardWord, LayersStep(), AddFamily);
    FoldMapped(Appended({}, w, AddFamily), u, NameWord, LayersStep(), AddLayer);
  }

  /** A layer is in the list exactly when its family got a wildcard or its name was written. */
  lemma WrittenLayer(layers: seq<PcbLayer>, w: seq<string>, u: seq<PcbLayer>, l: PcbLayer)
    requires forall x :: x in w <==> x in Families() && Complete(layers, x)
    requires forall m :: m in u <==> m in layers && !Complete(layers, LayerSuffix(m))
    ensures l in layers <==> LayerSuffix(l) in w || l in u
  {
    SuffixIsFamily(l);
    FamilyHas(l);
  }

  lemma ReadWritten(layers: seq<PcbLayer>, w: seq<string>, u: seq<PcbLayer>)
    requires forall x :: x in w <==> x in Families() && Complete(layers, x)
    requires forall m :: m in u <==> m in layers && !Complete(layers, LayerSuffix(m))
    requires forall x | x in w :: '.' !in x && x != "*"
    ensures Fold({}, Map(w, WildcardWord) + Map(u, NameWord), LayersStep()) == Some(set l | l in layers)
  {
    ReadWords(w, u);
    var read := Appended(Appended({}, w, AddFamily), u, AddLayer);
    var listed := set l | l in layers;
    forall l
      ensures l in read <==> l in listed
    {
      LayersAdded(Appended({}, w, AddFamily), u, l);
      FamiliesAdded({}, w, l);
      AllLayersListed(l);
      WrittenLayer(layers, w, u, l);
    }
    assert read == listed;
  }

  /** The wildcards written are the complete families. */
  lemma WrittenWildcards(layers: seq<PcbLayer>, x: string)
    ensures x in Wildcards(Groups(), layers) <==> x in Families() && Complete(layers, x)
  {
    WildcardsMembers(Groups(), layers, x);
    if x in Families() && Complete(layers, x) {
      var i :| 0 <= i < |Families()| && Families()[i] == x;
      assert Groups()[i] == FamilyGroup(x);
    }
  }

  /** Over the family groups, a layer is stood for by a wildcard exactly when its family is complete. */
  lemma AbsorbedByFamily(gs: seq<LayerGroup>, fs: seq<string>, layers: seq<PcbLayer>, m: PcbLayer)
    requires |gs| == |fs| && forall i | 0 <= i < |fs| :: gs[i] == FamilyGroup(fs[i])
    requires LayerSuffix(m) in fs
    ensures Absorbed(gs, layers, m) <==> Complete(layers, LayerSuffix(m))
  {
    var x := LayerSuffix(m);
    if Complete(layers, x) {
      var i :| 0 <= i < |fs| && fs[i] == x;
      FamilyHas(m);
      assert gs[i] in gs && m in gs[i].members;
    }
    if Absorbed(gs, layers, m) {
      var g :| g in gs && m in g.members && AllIn(g.members, layers);
      var i :| 0 <= i < |gs| && gs[i] == g;
      FamilyOnly(fs[i], m);
    }
  }

  /** The names written are the listed layers whose family is not complete. */
  lemma WrittenNames(layers: seq<PcbLayer>, m: PcbLayer)
    ensures m in Rest(layers, Groups(), layers) <==> m in layers && !Complete(layers, LayerSuffix(m))
  {
    RestMembers(layers, Groups(), layers, m);
    SuffixIsFamily(m);
    AbsorbedByFamily(Groups(), Families(), layers, m);
  }

  /**
   * Writing a list of layers and reading it back gives the layers of the
   * list, as a set: the wildcards stand for their whole families and the
   * names for themselves.
   */
  lemma LayersRoundTrip(layers: seq<PcbLayer>)
    ensures ReadLayers(WriteLayers(layers)) == Some(set l | l in layers)
  {
    var w := Wildcards(Groups(), layers);
    var u := Rest(layers, Groups(), layers);
    forall x
      ensures x in w <==> x in Families() && Complete(layers, x)
    {
      WrittenWildcards(layers, x);
    }
    forall m
      ensures m in u <==> m in layers && !Complete(layers, LayerSuffix(m))
    {
      WrittenNames(layers, m);
    }
    FamiliesPlain();
    ReadWritten(layers, w, u);
  }
}

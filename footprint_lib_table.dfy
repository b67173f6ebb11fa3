/**
 * The footprint library table (`fp-lib-table`) of
 * `src/kicad/model/footprint_lib_table.rs`: a version and a list of
 * libraries, each a `lib` node whose name, type, uri, options and
 * description are quoted strings and whose `disabled` flag is an
 * argument-less node present exactly when the flag is set.
 */
module FootprintLibTables {
  import opened Wrappers
  import opened Numbers
  import opened Syntax
  import opened Folding

  datatype FootprintLibTableItem = FootprintLibTableItem(name: string, uri: string, libType: string, options: string,
                                                         description: string, disabled: bool)

  datatype FootprintLibTable = FootprintLibTable(version: U8, libraries: seq<FootprintLibTableItem>)

  // ---------------------------------------------------------------------
  // Pieces shared by both library tables
  // ---------------------------------------------------------------------

  /** `(version N)`, the `u8` widened to a float. */
  function VersionNode(version: U8): SyntaxItem
  {
    FromSingleArgument("version", Number(Finite(version as real), Neutral))
  }

  /** `get_named_child("version").unwrap().arguments.first().unwrap().get_number() as u8`. */
  function ReadVersion(s: SyntaxItem): (r: Option<U8>)
    ensures r.Some? <==> GetNamedChild(s, "version").Some? && NumberAt(GetNamedChild(s, "version").value, 0).Some?
  {
    var v :- GetNamedChild(s, "version");
    var n :- NumberAt(v, 0);
    Some(CastUnsigned(n, U8_MAX))
  }

  /** `(key "text")`. */
  function QuotedNode(key: string, text: string): SyntaxItem
  {
    FromSingleArgument(key, QuotedString(text, Neutral))
  }

  /** The first child named `key` exists and has an argument. */
  predicate HasTextChild(s: SyntaxItem, key: string)
  {
    GetNamedChild(s, key).Some? && |GetNamedChild(s, key).value.arguments| > 0
  }

  /** `get_named_child(key).unwrap().arguments.first().unwrap().get_string()`. */
  function ReadText(s: SyntaxItem, key: string): (r: Option<string>)
    ensures r.Some? <==> HasTextChild(s, key)
  {
    var c :- GetNamedChild(s, key);
    StringAt(c, 0)
  }

  /** Whether some child has the name (`get_named_child(key).is_some()`). */
  predicate HasChildNamed(s: SyntaxItem, key: string)
  {
    exists c | c in s.children :: c.name == key
  }

  /** The version node is read back as the same version. */
  lemma VersionRoundTrip(version: U8, rest: seq<SyntaxItem>, name: string)
    ensures ReadVersion(SyntaxItem(name, [], [VersionNode(version)] + rest)) == Some(version)
  {
    CastWhole(version, U8_MAX);
  }

  /**
   * The table's children, once the version node is filtered away, are the
   * written library nodes, all named `lib`.
   */
  lemma LibNodesKept(libs: seq<SyntaxItem>, version: U8)
    requires forall i | 0 <= i < |libs| :: libs[i].name == "lib"
    ensures ChildrenNamed([VersionNode(version)] + libs, "lib") == libs
  {
    ChildrenNamedSkip(VersionNode(version), libs, "lib");
    ChildrenNamedAll(libs, "lib");
  }

  // ---------------------------------------------------------------------
  // Items
  // ---------------------------------------------------------------------

  /** `FootprintLibTableItem::serialize`: name, type, uri, options, descr, then `(disabled)` when set. */
  function WriteFootprintLibTableItem(i: FootprintLibTableItem): (r: SyntaxItem)
  {
    SyntaxItem("lib", [],
               [QuotedNode("name", i.name), QuotedNode("type", i.libType), QuotedNode("uri", i.uri),
                QuotedNode("options", i.options), QuotedNode("descr", i.description)]
               + (if i.disabled then [FromArguments("disabled", [])] else []))
  }

  /**
   * `FootprintLibTableItem::deserialize`: each text from the first child of
   * its name; a missing child or one with no argument is the panic (None).
   * `disabled` is whether a `disabled` child exists at all.
   */
  function ReadFootprintLibTableItem(s: SyntaxItem): (r: Option<FootprintLibTableItem>)
    ensures r.Some? <==> HasTextChild(s, "name") && HasTextChild(s, "uri") && HasTextChild(s, "type")
                         && HasTextChild(s, "options") && HasTextChild(s, "descr")
    ensures r.Some? ==> (r.value.disabled <==> HasChildNamed(s, "disabled"))
  {
    var name :- ReadText(s, "name");
    var uri :- ReadText(s, "uri");
    var libType :- ReadText(s, "type");
    var options :- ReadText(s, "options");
    var description :- ReadText(s, "descr");
    Some(FootprintLibTableItem(name, uri, libType, options, description, GetNamedChild(s, "disabled").Some?))
  }

  /** A quoted node that is the first of its name gives its text. */
  lemma TextAt(s: SyntaxItem, k: nat, key: string, text: string)
    requires k < |s.children| && s.children[k] == QuotedNode(key, text)
    requires forall j | 0 <= j < k :: s.children[j].name != key
    ensures ReadText(s, key) == Some(text)
  {
    NamedChildAt(s, k);
  }

  /** Five quoted nodes in the writer's order give their five texts. */
  lemma TextsAt(s: SyntaxItem, name: string, libType: string, uri: string, options: string, description: string)
    requires |s.children| >= 5
    requires s.children[0] == QuotedNode("name", name) && s.children[1] == QuotedNode("type", libType)
    requires s.children[2] == QuotedNode("uri", uri) && s.children[3] == QuotedNode("options", options)
    requires s.children[4] == QuotedNode("descr", description)
    ensures ReadText(s, "name") == Some(name) && ReadText(s, "type") == Some(libType) && ReadText(s, "uri") == Some(uri)
    ensures ReadText(s, "options") == Some(options) && ReadText(s, "descr") == Some(description)
  {
    TextAt(s, 0, "name", name);
    assert "type" != "name";
    TextAt(s, 1, "type", libType);
    assert "uri" != "name" && "uri" != "type";
    TextAt(s, 2, "uri", uri);
    assert "options" != "name" && "options" != "type" && "options" != "uri";
    TextAt(s, 3, "options", options);
    assert "descr" != "name" && "descr" != "type" && "descr" != "uri" && "descr" != "options";
    TextAt(s, 4, "descr", description);
  }

  /** The five texts of a written item are read back from their own nodes. */
  lemma ItemTextsRead(i: FootprintLibTableItem)
    ensures var s := WriteFootprintLibTableItem(i);
            && ReadText(s, "name") == Some(i.name) && ReadText(s, "type") == Some(i.libType)
            && ReadText(s, "uri") == Some(i.uri) && ReadText(s, "options") == Some(i.options)
            && ReadText(s, "descr") == Some(i.description)
  {
    TextsAt(WriteFootprintLibTableItem(i), i.name, i.libType, i.uri, i.options, i.description);
  }

  /** A written item has a `disabled` node exactly when the flag is set. */
  lemma ItemFlagRead(i: FootprintLibTableItem)
    ensures GetNamedChild(WriteFootprintLibTableItem(i), "disabled").Some? == i.disabled
  {
    var s := WriteFootprintLibTableItem(i);
    assert s.children[0].name == "name" && s.children[1].name == "type" && s.children[2].name == "uri";
    assert s.children[3].name == "options" && s.children[4].name == "descr";
    assert "disabled" != "name" && "disabled" != "type" && "disabled" != "uri" && "disabled" != "options" && "disabled" != "descr";
    if i.disabled {
      assert s.children[5].name == "disabled";
    }
  }

  /** Every field of an item survives writing and reading, the flag included. */
  lemma ItemRoundTrip(i: FootprintLibTableItem)
    ensures WriteFootprintLibTableItem(i).name == "lib"
    ensures ReadFootprintLibTableItem(WriteFootprintLibTableItem(i)) == Some(i)
  {
    ItemTextsRead(i);
    ItemFlagRead(i);
  }

  // ---------------------------------------------------------------------
  // The table
  // ---------------------------------------------------------------------

  /** `FootprintLibTable::serialize`: the version, then one `lib` node per library, in order. */
  function WriteFootprintLibTable(t: FootprintLibTable): SyntaxItem
  {
    SyntaxItem("fp_lib_table", [], [VersionNode(t.version)] + Map(t.libraries, WriteFootprintLibTableItem))
  }

  /** The serializer's loop, pushing one library node after another. */
  method SerializeFootprintLibTable(t: FootprintLibTable) returns (r: SyntaxItem)
    ensures r == WriteFootprintLibTable(t)
    ensures r.name == "fp_lib_table" && |r.children| == |t.libraries| + 1 && r.children[0] == VersionNode(t.version)
    ensures forall i | 0 <= i < |t.libraries| :: r.children[i + 1] == WriteFootprintLibTableItem(t.libraries[i])
  {
    var children := [VersionNode(t.version)];
    for i := 0 to |t.libraries|
      invariant children == [VersionNode(t.version)] + Map(t.libraries[..i], WriteFootprintLibTableItem)
    {
      MapSnoc(t.libraries[..i], t.libraries[i], WriteFootprintLibTableItem);
      assert t.libraries[..i + 1] == t.libraries[..i] + [t.libraries[i]];
      children := children + [WriteFootprintLibTableItem(t.libraries[i])];
    }
    assert t.libraries[..|t.libraries|] == t.libraries;
    r := SyntaxItem("fp_lib_table", [], children);
  }

  /**
   * `FootprintLibTable::deserialize`: the version cast to `u8`, and the
   * `lib` children, in order, each read as an item; any other child is
   * ignored. None is a panic: no version, a version that is not a number,
   * or a library that cannot be read.
   */
  function ReadFootprintLibTable(s: SyntaxItem): (r: Option<FootprintLibTable>)
    ensures r.Some? <==> ReadVersion(s).Some? && MapAll(ChildrenNamed(s.children, "lib"), ReadFootprintLibTableItem).Some?
    ensures r.Some? ==> |r.value.libraries| == |ChildrenNamed(s.children, "lib")|
    ensures r.Some? ==> forall i | 0 <= i < |r.value.libraries| ::
                          ReadFootprintLibTableItem(ChildrenNamed(s.children, "lib")[i]) == Some(r.value.libraries[i])
  {
    var version :- ReadVersion(s);
    var libraries :- MapAll(ChildrenNamed(s.children, "lib"), ReadFootprintLibTableItem);
    Some(FootprintLibTable(version, libraries))
  }

  /** A table survives writing and reading: the version and every library, in order. */
  lemma TableRoundTrip(t: FootprintLibTable)
    ensures ReadFootprintLibTable(WriteFootprintLibTable(t)) == Some(t)
  {
    var libs := Map(t.libraries, WriteFootprintLibTableItem);
    forall i | 0 <= i < |libs|
      ensures libs[i].name == "lib"
    {
      ItemRoundTrip(t.libraries[i]);
    }
    LibNodesKept(libs, t.version);
    forall e | e in t.libraries
      ensures ReadFootprintLibTableItem(WriteFootprintLibTableItem(e)) == Some(e)
    {
      ItemRoundTrip(e);
    }
    MapAllMapped(t.libraries, WriteFootprintLibTableItem, ReadFootprintLibTableItem);
    VersionRoundTrip(t.version, libs, "fp_lib_table");
  }
}

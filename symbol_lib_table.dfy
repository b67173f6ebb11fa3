/**
 * The symbol library table (`sym-lib-table`) of
 * `src/kicad/model/symbol_lib_table.rs`: a version and a list of
 * libraries, each a `lib` node with quoted name, uri, type, options and
 * description, and `disabled` / `hidden` flags.
 *
 * The code as written does not read back its own output: the description is
 * written under `description` but read from `descr`, and the flags are
 * written as argument-less nodes present only when set but read by
 * unwrapping the node (missing: panic) and testing for an argument (the
 * written node has none: false). The `AsWritten` members model that code;
 * the others model the evident intent (the key `descr`, as in the footprint
 * table and in KiCad's own files, and flags read as node presence), and are
 * the ones proved to round-trip.
 */
module SymbolLibTables {
  import opened Wrappers
  import opened Numbers
  import opened Syntax
  import opened Folding
  import opened FootprintLibTables

  datatype SymbolLibTableItem = SymbolLibTableItem(name: string, uri: string, libType: string, options: string,
                                                   description: string, disabled: bool, hidden: bool)

  datatype SymbolLibTable = SymbolLibTable(version: U8, libraries: seq<SymbolLibTableItem>)

  /** `(name)` when the flag is set, nothing otherwise. */
  function FlagNodes(present: bool, name: string): seq<SyntaxItem>
  {
    if present then [FromArguments(name, [])] else []
  }

  // ---------------------------------------------------------------------
  // Items, as written
  // ---------------------------------------------------------------------

  /** `SymbolLibTableItem::serialize` as written: the description under the key `description`. */
  function WriteSymbolLibTableItemAsWritten(i: SymbolLibTableItem): SyntaxItem
  {
    SyntaxItem("lib", [],
               [QuotedNode("name", i.name), QuotedNode("uri", i.uri), QuotedNode("type", i.libType),
                QuotedNode("options", i.options), QuotedNode("description", i.description)]
               + FlagNodes(i.disabled, "disabled") + FlagNodes(i.hidden, "hidden"))
  }

  /**
   * `SymbolLibTableItem::deserialize` as written: the description from
   * `descr`; each flag from a node that must exist, set when that node has
   * an argument.
   */
  function ReadSymbolLibTableItemAsWritten(s: SyntaxItem): (r: Option<SymbolLibTableItem>)
    ensures r.Some? <==> HasTextChild(s, "name") && HasTextChild(s, "uri") && HasTextChild(s, "type")
                         && HasTextChild(s, "options") && HasTextChild(s, "descr")
                         && GetNamedChild(s, "disabled").Some? && GetNamedChild(s, "hidden").Some?
    ensures r.Some? ==> (r.value.disabled <==> GetNamedChild(s, "disabled").value.arguments != [])
    ensures r.Some? ==> (r.value.hidden <==> GetNamedChild(s, "hidden").value.arguments != [])
  {
    var name :- ReadText(s, "name");
    var uri :- ReadText(s, "uri");
    var libType :- ReadText(s, "type");
    var options :- ReadText(s, "options");
    var description :- ReadText(s, "descr");
    var disabled :- GetNamedChild(s, "disabled");
    var hidden :- GetNamedChild(s, "hidden");
    Some(SymbolLibTableItem(name, uri, libType, options, description, disabled.arguments != [], hidden.arguments != []))
  }

  /** No node of a written item is named `descr`, so reading it back always panics. */
  lemma AsWrittenRejectsOwnOutput(i: SymbolLibTableItem)
    ensures ReadSymbolLibTableItemAsWritten(WriteSymbolLibTableItemAsWritten(i)).None?
  {
    var s := WriteSymbolLibTableItemAsWritten(i);
    assert "descr" != "name" && "descr" != "uri" && "descr" != "type" && "descr" != "options";
    assert "descr" != "description" && "descr" != "disabled" && "descr" != "hidden";
    forall c | c in s.children
      ensures c.name != "descr"
    {
    }
  }

  /**
   * Even with the description key corrected, the flag reading as written
   * panics unless both flags were set, and then reads both as false.
   */
  lemma AsWrittenFlagsReadFalse(i: SymbolLibTableItem)
    ensures !(i.disabled && i.hidden) ==> ReadSymbolLibTableItemAsWritten(WriteSymbolLibTableItem(i)).None?
    ensures i.disabled && i.hidden ==>
              ReadSymbolLibTableItemAsWritten(WriteSymbolLibTableItem(i)) == Some(i.(disabled := false, hidden := false))
  {
    var s := WriteSymbolLibTableItem(i);
    ItemTextsAt(s, i);
    ItemFlagsAt(i);
  }

  // ---------------------------------------------------------------------
  // Items, as intended
  // ---------------------------------------------------------------------

  /** `SymbolLibTableItem::serialize` with the description under `descr`. */
  function WriteSymbolLibTableItem(i: SymbolLibTableItem): SyntaxItem
  {
    SyntaxItem("lib", [],
               [QuotedNode("name", i.name), QuotedNode("uri", i.uri), QuotedNode("type", i.libType),
                QuotedNode("options", i.options), QuotedNode("descr", i.description)]
               + FlagNodes(i.disabled, "disabled") + FlagNodes(i.hidden, "hidden"))
  }

  /** `SymbolLibTableItem::deserialize` with each flag read as the presence of its node. */
  function ReadSymbolLibTableItem(s: SyntaxItem): (r: Option<SymbolLibTableItem>)
    ensures r.Some? <==> HasTextChild(s, "name") && HasTextChild(s, "uri") && HasTextChild(s, "type")
                         && HasTextChild(s, "options") && HasTextChild(s, "descr")
    ensures r.Some? ==> (r.value.disabled <==> HasChildNamed(s, "disabled"))
    ensures r.Some? ==> (r.value.hidden <==> HasChildNamed(s, "hidden"))
  {
    var name :- ReadText(s, "name");
    var uri :- ReadText(s, "uri");
    var libType :- ReadText(s, "type");
    var options :- ReadText(s, "options");
    var description :- ReadText(s, "descr");
    Some(SymbolLibTableItem(name, uri, libType, options, description,
                            GetNamedChild(s, "disabled").Some?, GetNamedChild(s, "hidden").Some?))
  }

  /** Five quoted nodes in this writer's order give their five texts. */
  lemma ItemTextsAt(s: SyntaxItem, i: SymbolLibTableItem)
    requires |s.children| >= 5
    requires s.children[0] == QuotedNode("name", i.name) && s.children[1] == QuotedNode("uri", i.uri)
    requires s.children[2] == QuotedNode("type", i.libType) && s.children[3] == QuotedNode("options", i.options)
    requires s.children[4] == QuotedNode("descr", i.description)
    ensures ReadText(s, "name") == Some(i.name) && ReadText(s, "uri") == Some(i.uri) && ReadText(s, "type") == Some(i.libType)
    ensures ReadText(s, "options") == Some(i.options) && ReadText(s, "descr") == Some(i.description)
  {
    TextAt(s, 0, "name", i.name);
    assert "uri" != "name";
    TextAt(s, 1, "uri", i.uri);
    assert "type" != "name" && "type" != "uri";
    TextAt(s, 2, "type", i.libType);
    assert "options" != "name" && "options" != "uri" && "options" != "type";
    TextAt(s, 3, "options", i.options);
    assert "descr" != "name" && "descr" != "uri" && "descr" != "type" && "descr" != "options";
    TextAt(s, 4, "descr", i.description);
  }

  /** A written item has a `disabled` node exactly when disabled, and a `hidden` one exactly when hidden. */
  lemma ItemFlagsAt(i: SymbolLibTableItem)
    ensures GetNamedChild(WriteSymbolLibTableItem(i), "disabled") == if i.disabled then Some(FromArguments("disabled", [])) else None
    ensures GetNamedChild(WriteSymbolLibTableItem(i), "hidden") == if i.hidden then Some(FromArguments("hidden", [])) else None
  {
    var s := WriteSymbolLibTableItem(i);
    assert s.children[0].name == "name" && s.children[1].name == "uri" && s.children[2].name == "type";
    assert s.children[3].name == "options" && s.children[4].name == "descr";
    assert "disabled" != "name" && "disabled" != "uri" && "disabled" != "type" && "disabled" != "options"
        && "disabled" != "descr" && "disabled" != "hidden";
    assert "hidden" != "name" && "hidden" != "uri" && "hidden" != "type" && "hidden" != "options" && "hidden" != "descr";
    if i.disabled {
      assert s.children[5].name == "disabled";
    }
    if i.hidden {
      assert s.children[|s.children| - 1].name == "hidden";
    }
  }

  /** Every field of an item survives writing and reading, both flags included. */
  lemma SymbolItemRoundTrip(i: SymbolLibTableItem)
    ensures WriteSymbolLibTableItem(i).name == "lib"
    ensures ReadSymbolLibTableItem(WriteSymbolLibTableItem(i)) == Some(i)
  {
    ItemTextsAt(WriteSymbolLibTableItem(i), i);
    ItemFlagsAt(i);
  }

  // ---------------------------------------------------------------------
  // The table
  // ---------------------------------------------------------------------

  /** The table writer as intended: the version, then one intended `lib` node per library, in order. */
  function WriteSymbolLibTable(t: SymbolLibTable): SyntaxItem
  {
    SyntaxItem("sym_lib_table", [], [VersionNode(t.version)] + Map(t.libraries, WriteSymbolLibTableItem))
  }

  /** `SymbolLibTable::serialize`: the loop pushing one library node, as the source writes it, after another. */
  method SerializeSymbolLibTable(t: SymbolLibTable) returns (r: SyntaxItem)
    ensures r == WriteSymbolLibTableAsWritten(t)
    ensures r.name == "sym_lib_table" && |r.children| == |t.libraries| + 1 && r.children[0] == VersionNode(t.version)
    ensures forall i | 0 <= i < |t.libraries| :: r.children[i + 1] == WriteSymbolLibTableItemAsWritten(t.libraries[i])
  {
    var children := [VersionNode(t.version)];
    for i := 0 to |t.libraries|
      invariant children == [VersionNode(t.version)] + Map(t.libraries[..i], WriteSymbolLibTableItemAsWritten)
    {
      MapSnoc(t.libraries[..i], t.libraries[i], WriteSymbolLibTableItemAsWritten);
      assert t.libraries[..i + 1] == t.libraries[..i] + [t.libraries[i]];
      children := children + [WriteSymbolLibTableItemAsWritten(t.libraries[i])];
    }
    assert t.libraries[..|t.libraries|] == t.libraries;
    r := SyntaxItem("sym_lib_table", [], children);
  }

  /**
   * The table reader as intended, `SymbolLibTable::deserialize` over the
   * intended item reader: the version cast to `u8`, and the `lib` children,
   * in order, each read as an item; any other child is ignored.
   */
  function ReadSymbolLibTable(s: SyntaxItem): (r: Option<SymbolLibTable>)
    ensures r.Some? <==> ReadVersion(s).Some? && MapAll(ChildrenNamed(s.children, "lib"), ReadSymbolLibTableItem).Some?
    ensures r.Some? ==> |r.value.libraries| == |ChildrenNamed(s.children, "lib")|
    ensures r.Some? ==> forall i | 0 <= i < |r.value.libraries| ::
                          ReadSymbolLibTableItem(ChildrenNamed(s.children, "lib")[i]) == Some(r.value.libraries[i])
  {
    var version :- ReadVersion(s);
    var libraries :- MapAll(ChildrenNamed(s.children, "lib"), ReadSymbolLibTableItem);
    Some(SymbolLibTable(version, libraries))
  }

  /** A table survives writing and reading: the version and every library, in order. */
  lemma SymbolTableRoundTrip(t: SymbolLibTable)
    ensures ReadSymbolLibTable(WriteSymbolLibTable(t)) == Some(t)
  {
    var libs := Map(t.libraries, WriteSymbolLibTableItem);
    forall e | e in t.libraries
      ensures WriteSymbolLibTableItem(e).name == "lib"
      ensures ReadSymbolLibTableItem(WriteSymbolLibTableItem(e)) == Some(e)
    {
      SymbolItemRoundTrip(e);
    }
    LibNodesKept(libs, t.version);
    MapAllMapped(t.libraries, WriteSymbolLibTableItem, ReadSymbolLibTableItem);
    VersionRoundTrip(t.version, libs, "sym_lib_table");
  }

  /** `SymbolLibTable::deserialize` as written: the same table reader over the as-written item reader. */
  function ReadSymbolLibTableAsWritten(s: SyntaxItem): (r: Option<SymbolLibTable>)
    ensures r.Some? <==> ReadVersion(s).Some? && MapAll(ChildrenNamed(s.children, "lib"), ReadSymbolLibTableItemAsWritten).Some?
    ensures r.Some? ==> |r.value.libraries| == |ChildrenNamed(s.children, "lib")|
    ensures r.Some? ==> forall i | 0 <= i < |r.value.libraries| ::
                          ReadSymbolLibTableItemAsWritten(ChildrenNamed(s.children, "lib")[i]) == Some(r.value.libraries[i])
  {
    var version :- ReadVersion(s);
    var libraries :- MapAll(ChildrenNamed(s.children, "lib"), ReadSymbolLibTableItemAsWritten);
    Some(SymbolLibTable(version, libraries))
  }

  /** `SymbolLibTable::serialize`: the version, then one `lib` node per library as the source writes it, in order. */
  function WriteSymbolLibTableAsWritten(t: SymbolLibTable): SyntaxItem
  {
    SyntaxItem("sym_lib_table", [], [VersionNode(t.version)] + Map(t.libraries, WriteSymbolLibTableItemAsWritten))
  }

  /** As written, a table with at least one library cannot be read back from its own output. */
  lemma AsWrittenTableRejectsOwnOutput(t: SymbolLibTable)
    requires t.libraries != []
    ensures ReadSymbolLibTableAsWritten(WriteSymbolLibTableAsWritten(t)).None?
  {
    var libs := Map(t.libraries, WriteSymbolLibTableItemAsWritten);
    assert libs[0].name == "lib";
    forall i | 0 <= i < |libs|
      ensures libs[i].name == "lib"
    {
    }
    LibNodesKept(libs, t.version);
    AsWrittenRejectsOwnOutput(t.libraries[0]);
  }
}

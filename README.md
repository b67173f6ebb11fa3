# jlcrs core, modelled in Dafny

jlcrs converts EasyEDA (JLCPCB/LCSC) component data into KiCad symbol and
footprint libraries. This project models the converter's core and proves
properties about it. The core has four parts.

- **KiCad S-expressions** (`Syntax`, `Tokenizer`, `TreeParser`,
  `Numbers`):
  - the character tokenizer, which is a loop proved against its
    specification;
  - the stack-based tree builder `parse_syntax_item`;
  - the token generator, which stably sorts each node's content by
    position preference;
  - `get_named_child`, `has_argument` and `deep_equals`;
  - the printing and parsing of `f32` numbers, and Rust's saturating
    `as` casts.

  The round trip of the parser and the generator is proved.
- **KiCad typed models**. Each record has a writer (`serialize`) and a
  reader (`deserialize`), modelled as a fold over the children that starts
  from defaults and returns None where the source panics:
  - `Common`, `SymbolStyles`, `SymbolLibrary` and `SymbolUtils`, with its
    `SymbolEditor` class;
  - `Graphical` and `Scalars`;
  - `PcbLayers`: layer names, `all_copper`, and the wildcard compression
    and expansion of layer lists;
  - `FootprintRecords`, `Footprints` and `FootprintUtils`, with its
    `FootprintEditor` class;
  - the two library tables, `FootprintLibTables` and `SymbolLibTables`.

  For each record the model proves the round trips, or the exact way they
  fail.
- **EasyEDA readers** (`JsonReader`, `EasyedaFootprintRecords`,
  `EasyedaSymbolRecords`, `EasyedaCommon`):
  - the `JsonArrayReader` cursor, as a class whose reads advance an index;
  - the `parse_line` validators, which check a record's type tag and arity
    and then read its fields in order.
- **EasyEDA to KiCad conversion** (`EasyedaPaths`, `EasyedaShapes`,
  `EasyedaFootprint`, `EasyedaSymbol`):
  - the normaliser and decoder of path expressions, and the bounding box;
  - the classification of shapes into a container class that stands for
    `PrimitivesContainer`;
  - attribute routing, layer mapping, the drill rotation rule and the pad
    conversion;
  - the element conversion of symbols and the validation of multi-unit
    names.

`Folding` holds the generic fold that the deserializer loops share, and
`Wrappers` holds Option and Result.

Numbers are `Syntax.Num`: a finite `real`, an infinity, or NaN. A panic of
the source (`unwrap`, `panic!`, `todo!`, `assert!`) is None or an `Err`
outcome.

Where the source contradicts itself, the model follows the code as written.
Each such case is listed under "## Findings". For each one, the model
gives the as-written behaviour and, beside it, the evidently intended
definition with its property proved.

- The symbol writer follows the source. `SymbolLibrary.WritePin` spells
  ClockLow and OutputLow as each other.
- The footprint reader follows the source. Its `zone_connect` branch looks
  for a nested `zone_connection` child.
- The shape pipeline follows the source. Its offset turns every line into a
  move.
- The symbol library table has both versions side by side:
  - the `AsWritten` members follow the source, which writes `description`,
    reads `descr`, and reads its flags by their argument;
  - the plain members are the intended table, which is proved to round-trip.

## Model

In the rows below, "printed and parsed again at the token level" means `parse_syntax_item` applied to the tokens `generate_tokens` makes of the written tree (TreeParser.ParseGenerated). The step from those tokens to text and back is Tokenizer.SpellRoundTrip, which holds only for tokens whose spelling reads back as themselves: no `"` inside a quoted string, and no bare word that parses as a number (see "## Left out").

| member | source | states |
|---|---|---|
| Numbers.Lower | src/kicad/syntax.rs:212 | lower-casing keeps the length of the text |
| Numbers.FirstIndex | src/kicad/syntax.rs:212 | the index found is the first character satisfying the test, or the length when none does |
| Numbers.NatText | src/kicad/syntax.rs:154 | a whole number's digits are a non-empty run of decimal digits |
| Numbers.CastUnsigned | src/kicad/model/common.rs:134 | a float cast to an unsigned integer never exceeds the type's maximum |
| Numbers.DigitsValueAppend | src/kicad/syntax.rs:212 | one more digit at the end multiplies the value by ten and adds the digit |
| Numbers.NatTextValue | src/kicad/syntax.rs:154 | the digits printed for a whole number read back as that number |
| Numbers.LowerDigits | src/kicad/syntax.rs:212 | lower-casing leaves digits alone |
| Numbers.DigitsScan | src/kicad/syntax.rs:212 | scanning on through the rest of a run of digits accumulates the whole run's value |
| Numbers.DigitsAreDecimal | src/kicad/syntax.rs:212 | a run of digits is a decimal literal with that value |
| Numbers.DigitsAreNotWords | src/kicad/syntax.rs:212 | a run of digits is none of `inf`, `infinity`, `nan` in any case |
| Numbers.DigitsParse | src/kicad/syntax.rs:212 | a run of digits parses as an `f32` to that whole number |
| Numbers.WholeNumberText | src/kicad/syntax.rs:154 | a whole number prints as its sign and the digits of its magnitude, with no fraction |
| Numbers.ParseDigits | src/kicad/syntax.rs:212 | digits without a sign parse to their value |
| Numbers.ParseMinus | src/kicad/syntax.rs:212 | a minus sign in front of an unsigned number negates it |
| Numbers.WholeNumberRoundTrip | src/kicad/syntax.rs:153-154 | a whole number printed with `to_string` parses back as the same `f32` |
| Numbers.CastWhole | src/kicad/model/common.rs:134 | a whole number within range survives the `as` cast |
| Syntax.FirstNamed | src/kicad/syntax.rs:65-67 | the index found is that of the first child with the name, or the count when none has it |
| Syntax.GetNamedChild | src/kicad/syntax.rs:65-67 | `get_named_child` finds nothing exactly when no child has the name; otherwise it returns a child with that name |
| Syntax.NamedChildAt | src/kicad/syntax.rs:65-67 | a child that no earlier child shares its name with is the one found for its name |
| Syntax.ChildrenNamed | src/kicad/model/symbol_lib_table.rs:40-44 | the children kept by the filter are children with that name |
| Syntax.ChildrenNamedSkip | src/kicad/model/symbol_lib_table.rs:40-44 | a child of another name in front is filtered away |
| Syntax.ChildrenNamedAll | src/kicad/model/symbol_lib_table.rs:40-44 | when every child has the name, the filter keeps them all, in order |
| Syntax.ContainsArgument | src/kicad/syntax.rs:69-71 | `has_argument` holds exactly when an equal argument, preference included, is present |
| Syntax.GetStringOfWholeNumber | src/kicad/syntax.rs:148-158 | the text of a whole-number argument parses back as that number |
| Syntax.InsertPermutes | src/kicad/syntax.rs:306 | inserting into a sorted list adds exactly that element |
| Syntax.SortPermutes | src/kicad/syntax.rs:306 | the stable sort only reorders: its result is a permutation of its input |
| Syntax.Filter | src/kicad/syntax.rs:306 | a filter keeps only elements of its input that pass the test, and never more than the input |
| Syntax.InsertAfterLarger | src/kicad/syntax.rs:306 | an element goes before a tail of strictly later preference |
| Syntax.FilterAppend | src/kicad/syntax.rs:306 | filtering a list with one more element keeps that element exactly when it passes |
| Syntax.FilterAll | src/kicad/syntax.rs:306 | a filter that everything passes keeps the whole list |
| Syntax.FilterNone | src/kicad/syntax.rs:306 | a filter that nothing passes gives the empty list |
| Syntax.FilterConcat | src/kicad/syntax.rs:306 | filtering distributes over concatenation |
| Syntax.PartitionNeutralTail | src/kicad/syntax.rs:299-306 | sorted content whose tail is all neutral (the children) keeps that tail after the neutral arguments and before the End arguments |
| Syntax.SortByPrefPartitions | src/kicad/syntax.rs:126-130 | the stable sort by preference puts Start items first, then None items, then End items, each group in input order |
| Syntax.InsertIntoPartition | src/kicad/syntax.rs:306 | inserting one more element into the partition gives the partition of the longer list |
| Syntax.AppendedToGroups | src/kicad/syntax.rs:306 | one more element joins the end of its own preference group |
| Syntax.FilterHasPref | src/kicad/syntax.rs:306 | the elements kept for one preference all have it |
| Syntax.InsertEndItem | src/kicad/syntax.rs:306 | an End element is inserted after all the others |
| Syntax.InsertNeutralItem | src/kicad/syntax.rs:306 | a None element is inserted after the Start and None elements and before the End elements |
| Syntax.InsertStartItem | src/kicad/syntax.rs:306 | a Start element is inserted after the Start elements and before all others |
| Syntax.DeepEqualsReflexive | src/kicad/syntax.rs:73-121 | a tree without ignored children is `deep_equals` to itself |
| Syntax.DeepEqualsNeedsNameAndArity | src/kicad/syntax.rs:74-80 | `deep_equals` requires equal names and, outside `layers`, equal argument counts |
| Syntax.FillSpellingsMatch | src/kicad/syntax.rs:109-113 | inside `fill`, `yes` matches `solid` and `no` matches `none`, in either order |
| Syntax.DeepEqualsIsOneSided | src/kicad/syntax.rs:82-94 | the comparison is one-sided: a `teardrop` child is dropped on the right but not on the left |
| Folding.Optional | src/kicad/model/common.rs:81 | an optional entry contributes nothing when absent and exactly its value when present |
| Folding.FoldAdvance | src/kicad/model/symbol_library.rs:230-238 | one turn of a reader's loop over children takes the next child from those remaining |
| Folding.FoldConcat | src/kicad/model/symbol_library.rs:230-238 | reading children in two runs is reading them in one run |
| Folding.FoldSnoc | src/kicad/model/symbol_library.rs:230-238 | one child more at the end is one more step on what the others gave |
| Folding.FoldOptional | src/kicad/model/common.rs:81 | an optional child is one step when present and none when absent |
| Folding.FoldKeeps | src/kicad/model/symbol_library.rs:230-238 | a property every step keeps holds of a successful read |
| Folding.FoldTotal | src/kicad/model/symbol_library.rs:230-238 | a read whose step accepts every child succeeds |
| Folding.FoldFails | src/kicad/model/symbol_library.rs:230-238 | a child that no state accepts makes the whole read panic |
| Folding.FoldPresence | src/kicad/model/symbol_library.rs:230-238 | a successful read ends with a flag set exactly when it started set or some child sets it |
| Folding.FoldOne | src/kicad/model/symbol_library.rs:230-238 | reading one child is one step |
| Folding.FoldTwo | src/kicad/model/symbol_library.rs:230-238 | reading two children is their two steps in order |
| Folding.FoldThree | src/kicad/model/symbol_library.rs:230-238 | reading three children is their three steps in order |
| Folding.FoldFour | src/kicad/model/symbol_library.rs:230-238 | reading four children is their four steps in order |
| Folding.Map | src/kicad/model/footprint_lib_table.rs:47-50 | mapping gives one image per element, in order |
| Folding.MapSnoc | src/kicad/model/footprint_lib_table.rs:47-50 | mapping one more element appends its image |
| Folding.MapAll | src/kicad/model/footprint_library.rs:1085 | a mapped reader succeeds with one value per item, each what the item reads as; it fails exactly when some item cannot be read |
| Folding.MapAllMapped | src/kicad/model/footprint_library.rs:1085 | reading back written items whose reader inverts the writer gives the originals |
| Folding.FoldEach | src/kicad/model/symbol_library.rs:230-238 | children each read by one addition give all the additions, in order |
| Folding.FoldMapped | src/kicad/model/symbol_library.rs:230-238 | reading written elements, each read back by one addition, gives all the additions in order |
| Folding.ListLaws | src/kicad/model/symbol_library.rs:230-238 | a list field written then read gives what was written, and a second write overrides the first |
| Folding.FoldCollect | src/kicad/model/symbol_library.rs:230-238 | children each read by appending one value to a list field append all those values in order |
| Folding.FoldJoin | src/kicad/model/symbol_library.rs:230-238 | two successful runs of reading join into one |
| Folding.FoldJoin5 | src/kicad/model/symbol_library.rs:230-238 | five successful runs of reading join into one |
| Folding.FoldJoin8 | src/kicad/model/symbol_library.rs:230-238 | eight successful runs of reading join into one |
| Tokenizer.QuoteEnd | src/kicad/syntax.rs:190-196 | the end of a quoted string lies between its start and the end of the input |
| Tokenizer.RunEnd | src/kicad/syntax.rs:201-211 | the end of a word run lies between its start and the end of the input |
| Tokenizer.QuotedTextIs | src/kicad/syntax.rs:189-197 | the text of a quoted string is exactly the characters up to the closing quote |
| Tokenizer.RunTextIs | src/kicad/syntax.rs:200-211 | the text of a word run is exactly the characters up to its end |
| Tokenizer.QuoteEndIs | src/kicad/syntax.rs:190-196 | the quoted string ends at the first quote after the opening one, or at the end of the input |
| Tokenizer.RunEndIs | src/kicad/syntax.rs:201-211 | a word run ends at the first character that is not a word character, or at the end of the input |
| Tokenizer.ScanAt | src/kicad/syntax.rs:169-222 | a turn that does not panic consumes at least one character and no more than remain |
| Tokenizer.ClassifyAll | src/kicad/syntax.rs:212-216 | classifying word runs keeps the number of tokens |
| Tokenizer.PrependAllStep | src/kicad/syntax.rs:164-226 | the tokens seen so far and one more regroup with the tokens still to come |
| Tokenizer.ClassifyAllSnoc | src/kicad/syntax.rs:212-216 | classifying one more token appends its classification |
| Tokenizer.ScanQuoted | src/kicad/syntax.rs:186-198 | the inner loop over a quoted string returns its text and the offset after the closing quote, as the specification scans them |
| Tokenizer.ScanRun | src/kicad/syntax.rs:199-211 | the inner loop over a word run returns its text and the offset where it stops, as the specification scans them |
| Tokenizer.Advance | src/kicad/syntax.rs:169-222 | one turn of the outer loop pushes, skips or panics exactly as the specification's step does; a panicking turn yields no token and moves the offset forward, within the input |
| Tokenizer.PanicTurn | src/kicad/syntax.rs:209 | a turn that panics leaves nothing tokenized |
| Tokenizer.Turn | src/kicad/syntax.rs:169-222 | a turn that does not panic moves forward and moves its token from the text still to read to the tokens seen |
| Tokenizer.ClassifyTurn | src/kicad/syntax.rs:212-216 | the classified tokens seen grow by the classified token of the turn |
| Tokenizer.Tokenize | src/kicad/syntax.rs:164-226 | `tokenize` returns exactly the specification's tokens, or panics exactly when it does |
| Tokenizer.EraseAll | src/kicad/syntax.rs:164-226 | clearing offsets keeps the number of tokens |
| Tokenizer.ErasePrepend | src/kicad/syntax.rs:164-226 | clearing offsets commutes with putting a token in front |
| Tokenizer.EraseOffset | src/kicad/syntax.rs:164-226 | a token's offset is all that clearing offsets forgets |
| Tokenizer.LexBase | src/kicad/syntax.rs:164-226 | apart from offsets, the tokens do not depend on where the text starts |
| Tokenizer.EraseClassify | src/kicad/syntax.rs:212-216 | clearing offsets and classifying word runs can be done in either order |
| Tokenizer.WholeNumberTextIsRun | src/kicad/syntax.rs:421-423 | the text of a whole number is made of word characters only |
| Tokenizer.LexWord | src/kicad/syntax.rs:199-217 | a word followed by a space is one word token |
| Tokenizer.LexQuoted | src/kicad/syntax.rs:186-198 | a quoted text without quotes inside is one quoted-string token with that text |
| Tokenizer.LexParen | src/kicad/syntax.rs:176-185 | each parenthesis is exactly one parenthesis token |
| Tokenizer.LexSpelledToken | src/kicad/syntax.rs:169-222 | a spelled token in front of a text is read back as its raw form |
| Tokenizer.ClassifyRaw | src/kicad/syntax.rs:212-216 | classifying a spelled token's raw form gives the token back |
| Tokenizer.SpellRawRoundTrip | src/kicad/syntax.rs:164-226 | spelled tokens, separated by spaces, are read back as their raw forms |
| Tokenizer.ClassifyRawAll | src/kicad/syntax.rs:212-216 | classifying the raw forms gives the tokens back |
| Tokenizer.SpellRoundTrip | src/kicad/syntax.rs:164-226 | tokenizing the spelling of well-formed tokens gives those tokens back, offsets aside |
| Tokenizer.LexDropsStrayCharacter | src/kicad/syntax.rs:218-221 | a character that is no space, bracket, quote or word character is silently dropped |
| Tokenizer.LexPanicsOnBadRunEnd | src/kicad/syntax.rs:206-210 | a word run that stops at anything but a space, `)` or a line break panics |
| Tokenizer.LexQuoteInsideText | src/kicad/syntax.rs:186-196 | a quote inside a printed string's text ends the string there: `"a"b"` reads as the string `a`, and what follows is tokenized from `b` on |
| Tokenizer.LexUnterminatedString | src/kicad/syntax.rs:186-198 | a quote never closed takes the rest of the input as its text |
| TreeParser.ParseSyntaxItem | src/kicad/syntax.rs:228-281 | `parse_syntax_item` over its stack returns exactly the specification's tree, or panics exactly when it does |
| TreeParser.RunFirst | src/kicad/syntax.rs:231-278 | a non-empty token list is one step, then the rest |
| TreeParser.RunOpen | src/kicad/syntax.rs:233-239 | `(` and a name open a fresh node with that name on top of the stack |
| TreeParser.RunClose | src/kicad/syntax.rs:240-247 | `)` pops the top node and adds it as the last child of the node below, or puts it back when there is none |
| TreeParser.NormalizeSmall | src/kicad/syntax.rs:283-311 | a node with at most one argument and one child keeps their order; the argument loses its preference |
| TreeParser.TokensConcat | src/kicad/syntax.rs:307 | the tokens of concatenated content are the tokens of each part, in order |
| TreeParser.TokensOfNeutrals | src/kicad/syntax.rs:299-304 | child tokens enter the content unchanged, all with preference None |
| TreeParser.ChildTokens | src/kicad/syntax.rs:299-304 | the children's tokens are the first child's generated tokens, then the others' |
| TreeParser.ChildEntriesAreNeutral | src/kicad/syntax.rs:302 | every child token has preference None |
| TreeParser.ResetAllConcat | src/kicad/syntax.rs:255 | resetting preferences distributes over concatenation |
| TreeParser.ArgumentEntriesAppend | src/kicad/syntax.rs:291-297 | one more argument adds its token with its own preference |
| TreeParser.FilterArgumentEntries | src/kicad/syntax.rs:291-297 | the argument tokens of one preference are the tokens of the arguments with that preference |
| TreeParser.SortedContent | src/kicad/syntax.rs:306 | the sorted content is Start arguments, then None arguments and the children, then End arguments, each in its order |
| TreeParser.TokensOfGroups | src/kicad/syntax.rs:307 | the tokens of four consecutive groups are their tokens in order |
| TreeParser.ContentTokens | src/kicad/syntax.rs:306-307 | the content tokens are, group by group, those of the sorted content |
| TreeParser.Regroup | src/kicad/syntax.rs:307 | concatenation regroups freely |
| TreeParser.NormalizedArguments | src/kicad/syntax.rs:306 | the arguments of a read-back node are its arguments stably sorted by preference, with preferences reset |
| TreeParser.RunArgument | src/kicad/syntax.rs:248-276 | an argument token adds the argument, with preference None, to the named node on top |
| TreeParser.RunArguments | src/kicad/syntax.rs:248-276 | argument tokens add their arguments, in order and reset, to the named node on top |
| TreeParser.ChildStepTokens | src/kicad/syntax.rs:299-304 | the children's tokens from one child on are that child's, then the rest |
| TreeParser.ChildStepStack | src/kicad/syntax.rs:240-247 | closing a finished child adds it to the node on top |
| TreeParser.RunChildren | src/kicad/syntax.rs:228-281 | the children's tokens are read back, normalised, as the children of the node on top |
| TreeParser.RunContent | src/kicad/syntax.rs:228-311 | the sorted content of a node fills a freshly named node into its normalised form |
| TreeParser.GenerateParse | src/kicad/syntax.rs:228-311 | the tokens generated for a tree, followed by anything, act on the stack as closing the normalised tree onto it |
| TreeParser.ParseGenerated | src/kicad/syntax.rs:228-311 | parsing the generated tokens of a tree whose nodes are all named gives the tree back, with each node's arguments stably sorted by preference and every preference reset to None |
| TreeParser.NormalizeNode | src/kicad/syntax.rs:228-311 | normalising a node keeps its name and the number of its children and normalises each child in place |
| TreeParser.NormalizeLeadingStart | src/kicad/syntax.rs:248-276 | a node whose first argument is placed Start and the others None keeps its arguments in order, every placement reset |
| TreeParser.ParseEmpty | src/kicad/syntax.rs:280 | an empty token list panics at the final `unwrap` |
| TreeParser.ParseNeedsOpenFirst | src/kicad/syntax.rs:248-276 | a list that does not start with `(` panics |
| TreeParser.ParseWithoutFinalClose | src/kicad/syntax.rs:240-280 | a missing final `)` is tolerated: the open root is the result |
| TreeParser.SecondTopLevelItemBecomesChild | src/kicad/syntax.rs:240-247 | closing the root keeps it on the stack, so a second top-level item becomes its last child |
| TreeParser.RunIgnoresOffsets | src/kicad/syntax.rs:231-278 | tokens are built into a tree by kind and text alone; offsets do not matter |
| TreeParser.ParseIgnoresOffsets | src/kicad/syntax.rs:228-281 | parsing does not depend on token offsets |
| TreeParser.DepthConcat | src/kicad/syntax.rs:283-311 | the nesting depth after two token lists is the sum of their depths |
| TreeParser.BalancedConcat | src/kicad/syntax.rs:299-304 | balanced token lists stay balanced when joined |
| TreeParser.ParenFreeDepth | src/kicad/syntax.rs:291-297 | tokens without parentheses leave the depth unchanged |
| TreeParser.ParenFreeBalanced | src/kicad/syntax.rs:291-297 | tokens without parentheses are balanced |
| TreeParser.WrappedBalanced | src/kicad/syntax.rs:285-309 | balanced content between `(` with a name and `)` is balanced, and the first parenthesis closes only at the end |
| TreeParser.GroupsBalanced | src/kicad/syntax.rs:306-307 | arguments, balanced children, then arguments, in sorted order, are balanced |
| TreeParser.ArgumentTokensParenFree | src/kicad/syntax.rs:291-297 | the tokens of arguments hold no parenthesis |
| TreeParser.GeneratedBalanced | src/kicad/syntax.rs:283-311 | `generate_tokens` opens with `(` and the node's name, ends with `)`, balances its parentheses, and its first parenthesis closes only at the end |
| TreeParser.ChildrenBalanced | src/kicad/syntax.rs:299-304 | the children's generated tokens, one after another, are balanced |
| JsonReader.AsStr | src/easyeda/json_reader.rs:16-19 | a string is read exactly from a string element, as its text |
| JsonReader.AsU64 | src/easyeda/json_reader.rs:36-39 | an unsigned integer is read exactly from a non-negative integer element, as its value |
| JsonReader.AsI64 | src/easyeda/json_reader.rs:56-59 | a signed integer is read exactly from a negative integer or a non-negative one up to the `i64` maximum, as its value |
| JsonReader.AsF64 | src/easyeda/json_reader.rs:66-69 | a float is read exactly from a number element; an integer element gives a whole number |
| JsonReader.BoolOf | src/easyeda/json_reader.rs:71-79 | a boolean reads as itself, a non-negative integer as whether it is 1, anything else as nothing |
| JsonReader.CastU8 | src/easyeda/json_reader.rs:23 | `as u8` gives the value in range that agrees with the input modulo 2^8 |
| JsonReader.CastU16 | src/easyeda/json_reader.rs:28 | `as u16` gives the value in range that agrees with the input modulo 2^16 |
| JsonReader.CastU32 | src/easyeda/json_reader.rs:33 | `as u32` gives the value in range that agrees with the input modulo 2^32 |
| JsonReader.CastI8 | src/easyeda/json_reader.rs:43 | `as i8` gives the two's-complement value in range that agrees with the input modulo 2^8 |
| JsonReader.CastI16 | src/easyeda/json_reader.rs:48 | `as i16` gives the two's-complement value in range that agrees with the input modulo 2^16 |
| JsonReader.CastI32 | src/easyeda/json_reader.rs:53 | `as i32` gives the two's-complement value in range that agrees with the input modulo 2^32 |
| JsonReader.CastsKeepFittingValues | src/easyeda/json_reader.rs:21-54 | every narrowing cast keeps a value that fits the narrower type |
| JsonReader.U8Of | src/easyeda/json_reader.rs:21-24 | `read_u8` reads exactly what `read_u64` reads, cut to 8 bits |
| JsonReader.U16Of | src/easyeda/json_reader.rs:26-29 | `read_u16` reads exactly what `read_u64` reads, cut to 16 bits |
| JsonReader.U32Of | src/easyeda/json_reader.rs:31-34 | `read_u32` reads exactly what `read_u64` reads, cut to 32 bits |
| JsonReader.I8Of | src/easyeda/json_reader.rs:41-44 | `read_i8` reads exactly what `read_i64` reads, cut to 8 bits |
| JsonReader.I16Of | src/easyeda/json_reader.rs:46-49 | `read_i16` reads exactly what `read_i64` reads, cut to 16 bits |
| JsonReader.I32Of | src/easyeda/json_reader.rs:51-54 | `read_i32` reads exactly what `read_i64` reads, cut to 32 bits |
| JsonReader.JsonArrayReader.constructor | src/easyeda/json_reader.rs:12-14 | a new reader stands at the first element, with every element remaining |
| JsonReader.JsonArrayReader.Remaining | src/easyeda/json_reader.rs:96-98 | the elements remaining and the index add up to the length; none remain exactly when nothing can be read |
| JsonReader.JsonArrayReader.ReadValue | src/easyeda/json_reader.rs:81-84 | reading a value advances by one and returns the element, whatever it is |
| JsonReader.JsonArrayReader.ReadString | src/easyeda/json_reader.rs:16-19 | advances by one and returns the element read as a string |
| JsonReader.JsonArrayReader.ReadU64 | src/easyeda/json_reader.rs:36-39 | advances by one and returns the element read as an unsigned integer |
| JsonReader.JsonArrayReader.ReadU8 | src/easyeda/json_reader.rs:21-24 | advances by one and returns the element read as `u8` |
| JsonReader.JsonArrayReader.ReadU16 | src/easyeda/json_reader.rs:26-29 | advances by one and returns the element read as `u16` |
| JsonReader.JsonArrayReader.ReadU32 | src/easyeda/json_reader.rs:31-34 | advances by one and returns the element read as `u32` |
| JsonReader.JsonArrayReader.ReadI64 | src/easyeda/json_reader.rs:56-59 | advances by one and returns the element read as a signed integer |
| JsonReader.JsonArrayReader.ReadI8 | src/easyeda/json_reader.rs:41-44 | advances by one and returns the element read as `i8` |
| JsonReader.JsonArrayReader.ReadI16 | src/easyeda/json_reader.rs:46-49 | advances by one and returns the element read as `i16` |
| JsonReader.JsonArrayReader.ReadI32 | src/easyeda/json_reader.rs:51-54 | advances by one and returns the element read as `i32` |
| JsonReader.JsonArrayReader.ReadF64 | src/easyeda/json_reader.rs:66-69 | advances by one and returns the element read as a float |
| JsonReader.JsonArrayReader.ReadF32 | src/easyeda/json_reader.rs:61-64 | advances by one and returns the element read as a float |
| JsonReader.JsonArrayReader.ReadBool | src/easyeda/json_reader.rs:71-79 | advances by one and returns the element read as a boolean |
| JsonReader.JsonArrayReader.ReadEnum | src/easyeda/json_reader.rs:86-90 | skips one element, reads the next as an unsigned integer and decodes it: two elements are consumed, and a non-integer gives nothing |
| JsonReader.NarrowingExamples | src/easyeda/json_reader.rs:21-44 | 300 read as `u8` is 44 and 200 read as `i8` is -56 |
| JsonReader.BoolOfExamples | src/easyeda/json_reader.rs:71-79 | 1 reads as true, 0 and 2 as false, a string or a negative number as nothing |
| EasyedaCommon.Unwrapped | src/easyeda/symbol.rs:149-150 | an `unwrap` succeeds exactly on a present value, giving it, and otherwise panics; the record readers and the conversion share it |
| EasyedaCommon.Plus | src/easyeda/footprint.rs:611-617 | the sum of two points moves the first by exactly the second, coordinate by coordinate |
| EasyedaCommon.ToScalar2D | src/easyeda/geometry.rs:15-17 | the scalar has the given name and the point's two coordinates |
| EasyedaCommon.SplitAll | src/easyeda/footprint.rs:61 | splitting at every terminator gives at least one piece |
| EasyedaCommon.SplitAllSound | src/easyeda/footprint.rs:61 | the pieces hold every character of the text except the terminators, in order, and no piece holds a carriage return or line feed |
| EasyedaCommon.ConcatDropsEmpty | src/easyeda/footprint.rs:61 | dropping an empty last piece keeps the concatenated text |
| EasyedaCommon.SplitTerminatorSound | src/easyeda/footprint.rs:61 | `split_terminator` on carriage return and line feed keeps every other character in order and puts no terminator in any line |
| EasyedaCommon.NonEmptyLines | src/easyeda/footprint.rs:62-64 | the lines kept for parsing are all non-empty |
| EasyedaCommon.SplitTwoLines | src/easyeda/symbol.rs:22 | two lines joined by a line feed split back into those two lines |
| EasyedaCommon.SplitNoTerminator | src/easyeda/symbol.rs:22 | text without a terminator is one piece |
| EasyedaCommon.SplitLine | src/easyeda/symbol.rs:22 | a line followed by a terminator is split off in front of the split of the rest |
| EasyedaCommon.EscapedChar | src/easyeda/footprint.rs:265 | every character is written as at least one character by `{:?}` |
| EasyedaCommon.Escaped | src/easyeda/footprint.rs:265 | escaping never shortens a text |
| EasyedaCommon.DebugText | src/easyeda/footprint.rs:265 | the debug form of a text is quoted and at least as long as the text plus the quotes |
| EasyedaCommon.DebugPlainText | src/easyeda/footprint.rs:265 | text with nothing to escape is written as itself in double quotes |
| EasyedaCommon.PlainEscaped | src/easyeda/footprint.rs:265 | text with nothing to escape is its own escaping |
| EasyedaCommon.ArrayOf | src/easyeda/footprint.rs:272 | `as_array` gives the items exactly of an array, and nothing otherwise |
| EasyedaCommon.NonEmpty | src/easyeda/footprint.rs:1641 | an empty parent id counts as absent; any other is kept |
| EasyedaCommon.MemberOf | src/easyeda/footprint.rs:1384-1388 | a missing key gives null; a present key gives the value of its last occurrence |
| EasyedaCommon.Member | src/easyeda/footprint.rs:1384-1388 | indexing anything but an object gives null |
| EasyedaPaths.WithLeadingMove | src/easyeda/footprint.rs:816-819 | an empty path panics; a path starting with a number gets an `M` in front; any other path is kept |
| EasyedaPaths.Normalize | src/easyeda/footprint.rs:821-841 | normalising never shortens the path |
| EasyedaPaths.NormalizeAtString | src/easyeda/footprint.rs:827-831 | a string ends the line command in progress; an `L` starts one with a fresh count |
| EasyedaPaths.NormalizeInsert | src/easyeda/footprint.rs:833-835 | a number after a complete, non-empty set of pairs in a line command gets an `L` of its own and resets the count |
| EasyedaPaths.NormalizeCount | src/easyeda/footprint.rs:836-838 | any other number is kept, and counted inside a line command |
| EasyedaPaths.NormalizeLineCommands | src/easyeda/footprint.rs:821-841 | the loop that inserts into the path it walks ends with the path the normalising specification gives |
| EasyedaPaths.NormalizeOnlyInsertsLines | src/easyeda/footprint.rs:821-841 | normalising only inserts `L` tokens: without them the path is the input, in order |
| EasyedaPaths.NormalizeLinesOnlyInserts | src/easyeda/footprint.rs:821-841 | the whole normalisation keeps every token of the input apart from the inserted `L`s |
| EasyedaPaths.WithoutLineTokensAppend | src/easyeda/footprint.rs:821-841 | dropping the `L` tokens distributes over concatenation |
| EasyedaPaths.NormalizeAfterPair | src/easyeda/footprint.rs:832-838 | inside a line command, after a complete pair, each further pair of numbers gets its own `L` |
| EasyedaPaths.LineRunSplit | src/easyeda/footprint.rs:821-841 | an `L` followed by numbers only becomes one `L` per coordinate pair |
| EasyedaPaths.MoveThenLines | src/easyeda/footprint.rs:821-841 | `M x y L x1 y1 x2 y2 ...` becomes `M x y L x1 y1 L x2 y2 ...` |
| EasyedaPaths.Arg | src/easyeda/footprint.rs:852 | an argument is read exactly when the next token is present and a number |
| EasyedaPaths.CommandOf | src/easyeda/footprint.rs:846-894 | a decoded command starts with a command name and takes at least that token and no more than are left |
| EasyedaPaths.DecodeTokens | src/easyeda/footprint.rs:843-897 | a decoded path has no more commands than tokens, and at least one when there are tokens |
| EasyedaPaths.ParsePath | src/easyeda/footprint.rs:815-898 | a parsed path is never empty |
| EasyedaPaths.PrefixedAssociative | src/easyeda/footprint.rs:845-849 | pushing one command after those already decoded regroups freely |
| EasyedaPaths.DecodeStep | src/easyeda/footprint.rs:846-894 | a command that fails to decode fails the whole path; a decoded one is followed by the decoding of the tokens after it |
| EasyedaPaths.DecodeAdvance | src/easyeda/footprint.rs:846-894 | one turn of the decoding loop keeps its invariant |
| EasyedaPaths.DecodeCommands | src/easyeda/footprint.rs:843-897 | the decoding loop returns exactly the decoding specification's commands or panic |
| EasyedaPaths.ParsePathExpression | src/easyeda/footprint.rs:815-898 | `parse_path_expression` returns exactly what the specification gives: leading move, normalised lines, decoded commands |
| EasyedaPaths.Rescale | src/easyeda/footprint.rs:850-891 | dividing by the scale factor and multiplying back, with or without the y flip, is the identity |
| EasyedaPaths.ArgOfNumber | src/easyeda/footprint.rs:852 | a number token is read as its value |
| EasyedaPaths.PointCommandOfEncoded | src/easyeda/footprint.rs:850-861 | a move or a line written as tokens is read back, taking three tokens |
| EasyedaPaths.ArcCommandOfEncoded | src/easyeda/footprint.rs:862-875 | an arc of either kind written as tokens is read back, taking four tokens |
| EasyedaPaths.CircleCommandOfEncoded | src/easyeda/footprint.rs:876-882 | a circle written as tokens is read back, taking four tokens |
| EasyedaPaths.RectangleRead | src/easyeda/footprint.rs:883-892 | seven rectangle tokens are read as that rectangle, scaled with y flipped, whatever follows them |
| EasyedaPaths.RectangleCommandOfEncoded | src/easyeda/footprint.rs:883-892 | a rectangle written with its corner radius is read back, taking seven tokens |
| EasyedaPaths.CommandOfEncoded | src/easyeda/footprint.rs:849-894 | any command written as tokens is read back, whatever follows it |
| EasyedaPaths.DecodeEncoded | src/easyeda/footprint.rs:843-897 | decoding the tokens of a list of commands gives that list back |
| EasyedaPaths.RectangleTakesNextToken | src/easyeda/footprint.rs:891 | a rectangle without a corner radius followed by another command takes that command's name as its radius and panics |
| EasyedaPaths.RectangleCornerDefault | src/easyeda/footprint.rs:891 | a rectangle at the end of the path without a corner radius gets radius 0 |
| EasyedaPaths.NumbersPass | src/easyeda/footprint.rs:832 | numbers outside a line command pass the normalising loop untouched |
| EasyedaPaths.LinePairPasses | src/easyeda/footprint.rs:832-838 | the one pair of a line command needs no further `L` |
| EasyedaPaths.EncodedShape | src/easyeda/footprint.rs:849-894 | a written command is a name followed by numbers only; a move or a line is three tokens |
| EasyedaPaths.EncodedStartsWithName | src/easyeda/footprint.rs:847 | written commands start with a command name |
| EasyedaPaths.HeadStep | src/easyeda/footprint.rs:827-831 | a string at the head is kept and sets the line state by whether it is `L` |
| EasyedaPaths.NormalizeEncoded | src/easyeda/footprint.rs:821-841 | written commands pass the normalising loop unchanged, whatever its state |
| EasyedaPaths.NormalizeLinesAfter | src/easyeda/footprint.rs:824-841 | the first three tokens are skipped, so numbers among them are not counted |
| EasyedaPaths.NormalizeLinesEncoded | src/easyeda/footprint.rs:821-841 | written commands pass the whole normalisation unchanged |
| EasyedaPaths.ParseEncoded | src/easyeda/footprint.rs:815-898 | the reader inverts the writer: the tokens of a non-empty list of commands parse back to that list |
| EasyedaPaths.Include | src/easyeda/footprint.rs:1043-1047 | the grown box covers the point and everything the old box covered |
| EasyedaPaths.ExpandBox | src/easyeda/footprint.rs:1041-1104 | growing panics exactly on a circle with negative radius or a rectangle with a negative side |
| EasyedaPaths.ExpandBBoxToShape | src/easyeda/footprint.rs:1041-1104 | updating the box in place, corner after corner, gives exactly the specification's box |
| EasyedaPaths.IncludeAllGrows | src/easyeda/footprint.rs:1096-1101 | growing a box by several points keeps what it covered |
| EasyedaPaths.IncludeAllCovers | src/easyeda/footprint.rs:1096-1101 | the box grown by several points covers each of them and what it covered before |
| EasyedaPaths.UnrotatedRectangleCovered | src/easyeda/footprint.rs:1070-1102 | an unrotated rectangle grows the box to cover its start and far corner |
| EasyedaPaths.CircleCovered | src/easyeda/footprint.rs:1062-1069 | a circle grows the box to cover its centre and the points one radius away on each axis |
| EasyedaPaths.FirstPointBox | src/easyeda/footprint.rs:1043-1047 | from the empty box, a point within `f32` range gives the box of that point alone |
| EasyedaShapes.JoinNothing | src/easyeda/footprint.rs:620-813 | adding no shapes leaves a container's lists as they were, on either side |
| EasyedaShapes.JoinAssociative | src/easyeda/footprint.rs:620-813 | adding shapes in two rounds gives the same lists as adding them together |
| EasyedaShapes.CountJoin | src/easyeda/footprint.rs:620-813 | adding shapes adds their number to the container's count |
| EasyedaShapes.ThenAssociative | src/easyeda/footprint.rs:634-639 | the shapes of sub-paths added one after another regroup freely, a panic anywhere stopping the whole |
| EasyedaShapes.ShapeSink.constructor | src/easyeda/footprint.rs:620-623 | a new container holds no shapes |
| EasyedaShapes.ShapeSink.AddCircle | src/easyeda/footprint.rs:670-679 | `add_circle` appends the circle to the circles and changes nothing else |
| EasyedaShapes.ShapeSink.AddRectangle | src/easyeda/footprint.rs:683-694 | `add_rectangle` appends the rectangle to the rectangles and changes nothing else |
| EasyedaShapes.RectangleRecordUnreadable | src/easyeda/footprint.rs:683-692 | the `FootprintRectangle` built for an unrotated rectangle, with its start named `center`, does not read back from its written `fp_rect` |
| EasyedaShapes.CorrectedRectangleRecordRoundTrip | src/easyeda/footprint.rs:683-692 | with its start named `start`, the record holds both corners of the rectangle and reads back from its written `fp_rect` unchanged |
| EasyedaShapes.ShapeSink.AddLine | src/easyeda/footprint.rs:709-716 | `add_line` appends the line to the lines and changes nothing else |
| EasyedaShapes.ShapeSink.AddPolygon | src/easyeda/footprint.rs:737-745 | `add_polygon` appends the polygon to the polygons and changes nothing else |
| EasyedaShapes.ShapeSink.AddArc | src/easyeda/footprint.rs:757-766 | `add_arc` appends the arc to the arcs and changes nothing else |
| EasyedaShapes.Shifted | src/easyeda/footprint.rs:650-661 | the intended offset: it moves a command's points and keeps its kind, the line included (the corrected form of line 653) |
| EasyedaShapes.ShiftAll | src/easyeda/footprint.rs:650-661 | the offset path has one moved command per command, in order |
| EasyedaShapes.ShiftAllAsWritten | src/easyeda/footprint.rs:650-661 | the offset as the source applies it (and as the shape pipeline uses it): one command per command, in order, each line becoming a move |
| EasyedaShapes.ShiftKeepsClassification | src/easyeda/footprint.rs:641-661 | moving a path by the offset as the source does, lines turned into moves, does not change whether it is standalone or contains arcs |
| EasyedaShapes.JoinKeepsShape | src/easyeda/footprint.rs:665-702 | shapes in the call's layer and width, with non-negative circle and rectangle sizes, stay so when added together |
| EasyedaShapes.StandaloneShapesSound | src/easyeda/footprint.rs:665-702 | a path of circles and rectangles draws exactly when every command is drawable, and then gives one circle per circle and one rectangle per rectangle, in order, in the call's style |
| EasyedaShapes.AddStandaloneShapes | src/easyeda/footprint.rs:665-702 | the loop over a standalone path completes exactly when the specification draws, and appends exactly those shapes |
| EasyedaShapes.PolygonPoints | src/easyeda/footprint.rs:721-746 | an arc-free polygon has one point per move or line, in order; any other command is the `unreachable!` panic |
| EasyedaShapes.PolygonPointsOf | src/easyeda/footprint.rs:721-736 | the polygon loop pushes exactly the specification's points |
| EasyedaShapes.ArcPolygonPoints | src/easyeda/footprint.rs:771-808 | a polygon with arcs draws exactly when it has no circle or rectangle, has at least one point per command, and ends at the pen's last position |
| EasyedaShapes.ArcPolygonPointsOf | src/easyeda/footprint.rs:771-798 | the polygon loop with arcs pushes exactly the specification's points |
| EasyedaShapes.ArcPolygonAdvance | src/easyeda/footprint.rs:774-797 | one command of the loop with arcs keeps the loop's invariant |
| EasyedaShapes.ArcPolygonStep | src/easyeda/footprint.rs:774-797 | one command's points go after the points already pushed |
| EasyedaShapes.PathShapesOneShape | src/easyeda/footprint.rs:703-809 | a path that is not all circles and rectangles gives exactly one line, arc or polygon, in the call's style |
| EasyedaShapes.LineOrPolygonOneShape | src/easyeda/footprint.rs:703-747 | the arc-free case gives exactly one line or polygon |
| EasyedaShapes.ArcOrPolygonOneShape | src/easyeda/footprint.rs:748-809 | the case with arcs gives exactly one arc or polygon |
| EasyedaShapes.SimpleLineDrawn | src/easyeda/footprint.rs:706-718 | a move then a line gives one line between their points and nothing else |
| EasyedaShapes.PolygonDrawn | src/easyeda/footprint.rs:719-746 | any other arc-free path draws exactly when it is all moves and lines, and then gives one polygon through its points in order |
| EasyedaShapes.OffsetLineKeepsLine | src/easyeda/footprint.rs:650-718 | with the corrected offset, a move and a line still give one line with both ends moved |
| EasyedaShapes.OffsetLineAsWrittenIsPolygon | src/easyeda/footprint.rs:650-718 | as written, a move and a line with an offset give a two-point polygon and no line |
| EasyedaShapes.PopulateFootprintShapes | src/easyeda/footprint.rs:620-813 | `populate_footprint_shapes` completes exactly when the specification draws every sub-path, and appends exactly those shapes |
| EasyedaShapes.AddPathShapes | src/easyeda/footprint.rs:641-812 | one path's shapes are added exactly when the specification draws it |
| EasyedaShapes.AddLineOrPolygon | src/easyeda/footprint.rs:703-747 | the arc-free case adds exactly the specification's line or polygon |
| EasyedaShapes.AddArcOrPolygon | src/easyeda/footprint.rs:748-809 | the case with arcs adds exactly the specification's arc or polygon |
| EasyedaFootprintRecords.ReadHead | src/easyeda/footprint.rs:1376-1390 | reading a `HEAD` record gives the head of the field specification |
| EasyedaFootprintRecords.ReadDocType | src/easyeda/footprint.rs:1366-1375 | reading a `DOCTYPE` record gives kind and version of the field specification |
| EasyedaFootprintRecords.ReadLayer | src/easyeda/footprint.rs:1391-1406 | reading a `LAYER` record gives the layer of the field specification |
| EasyedaFootprintRecords.ReadPhysicalLayer | src/easyeda/footprint.rs:1407-1420 | reading a `LAYER_PHYS` record gives the physical layer of the field specification |
| EasyedaFootprintRecords.FillOf | src/easyeda/footprint.rs:1428-1445 | a fill is read with no attributes yet |
| EasyedaFootprintRecords.ReadFill | src/easyeda/footprint.rs:1428-1445 | reading a `FILL` record gives the fill of the field specification |
| EasyedaFootprintRecords.PolyOf | src/easyeda/footprint.rs:1446-1462 | a polygon is read with no attributes yet |
| EasyedaFootprintRecords.ReadPoly | src/easyeda/footprint.rs:1446-1462 | reading a `POLY` record gives the polygon of the field specification |
| EasyedaFootprintRecords.ReadPadTail | src/easyeda/footprint.rs:1497-1516 | the optional trailing pad fields are read only while the array lasts |
| EasyedaFootprintRecords.PadOf | src/easyeda/footprint.rs:1463-1517 | a pad is read with no attributes yet |
| EasyedaFootprintRecords.ReadPad | src/easyeda/footprint.rs:1463-1517 | reading a `PAD` record gives the pad of the field specification |
| EasyedaFootprintRecords.ReadViaTail | src/easyeda/footprint.rs:1518-1540 | the optional trailing via fields are read only while the array lasts |
| EasyedaFootprintRecords.ReadVia | src/easyeda/footprint.rs:1518-1540 | reading a `VIA` record gives the via of the field specification |
| EasyedaFootprintRecords.ReadNet | src/easyeda/footprint.rs:1541-1555 | reading a `NET` record gives the net of the field specification |
| EasyedaFootprintRecords.ReadRuleTemplate | src/easyeda/footprint.rs:1556-1564 | reading a `RULE_TEMPLATE` record gives the template of the field specification |
| EasyedaFootprintRecords.ReadRule | src/easyeda/footprint.rs:1565-1576 | reading a `RULE` record gives the rule of the field specification |
| EasyedaFootprintRecords.ReadPrimitive | src/easyeda/footprint.rs:1577-1587 | reading a `PRIMITIVE` record gives the primitive of the field specification |
| EasyedaFootprintRecords.ReadStringObject | src/easyeda/footprint.rs:1588-1612 | reading a `STRING` record gives the string object of the field specification |
| EasyedaFootprintRecords.ReadImage | src/easyeda/footprint.rs:1613-1631 | reading an `IMAGE` record gives the image of the field specification |
| EasyedaFootprintRecords.ReadAttribute | src/easyeda/footprint.rs:1633-1661 | reading an `ATTR` record gives the attribute of the field specification |
| EasyedaFootprintRecords.ReadCanvasTail | src/easyeda/footprint.rs:1662-1699 | the optional trailing canvas fields are read only while the array lasts |
| EasyedaFootprintRecords.ReadCanvas | src/easyeda/footprint.rs:1662-1699 | reading a `CANVAS` record gives the canvas of the field specification |
| EasyedaFootprintRecords.KindOf | src/easyeda/footprint.rs:1365-1701 | a recognised tag is the tag name of its record kind |
| EasyedaFootprintRecords.KindOfTagName | src/easyeda/footprint.rs:1365-1701 | each record's tag is recognised as that record and no other |
| EasyedaFootprintRecords.IgnoredTagsNameNoRecord | src/easyeda/footprint.rs:1632-1700 | the ignored tags (`FONT`, `RULE_SELECTOR`, `PREFERENCE`, …) name no record |
| EasyedaFootprintRecords.DecodeRecord | src/easyeda/footprint.rs:1365-1700 | a decoded fill, polygon or pad carries no attributes yet |
| EasyedaFootprintRecords.ReadRecord | src/easyeda/footprint.rs:1365-1700 | once the length is accepted, the reads of the record's arm give the record of the line's specification |
| EasyedaFootprintRecords.FootprintLine | src/easyeda/footprint.rs:1354-1702 | an empty array or an ignored tag is no record; a non-string tag is an invalid type; an unknown tag an invalid property type; a wrong field count an invalid array length; otherwise the record is read |
| EasyedaFootprintRecords.ParseFootprintLine | src/easyeda/footprint.rs:1354-1702 | the reader-based `parse_line` equals its specification `FootprintLine` |
| EasyedaFootprint.FillWith | src/easyeda/footprint.rs:121 | pushing onto a fill appends the attribute and changes no other field |
| EasyedaFootprint.PolyWith | src/easyeda/footprint.rs:123 | pushing onto a polygon keeps its id and path and appends the attribute |
| EasyedaFootprint.PadWith | src/easyeda/footprint.rs:125 | pushing onto a pad appends the attribute and keeps its id, number, layer, centre and hole |
| EasyedaFootprint.ParseFootprint | src/easyeda/footprint.rs:42-160 | the line loop and the final footprint equal the line-by-line specification, including the JSON, record, document-type, attribute and missing-canvas failures |
| EasyedaFootprint.AttachRules | src/easyeda/footprint.rs:116-129 | an attribute is attached exactly when it has no parent or its parent is a fill, a polygon or a pad; otherwise the parse panics |
| EasyedaFootprint.AttachTopLevel | src/easyeda/footprint.rs:117-118 | an attribute without parent is appended to the top-level attributes and nothing else changes |
| EasyedaFootprint.AttachToFill | src/easyeda/footprint.rs:120-121 | an attribute whose parent is a fill is appended to that fill; the other tables are unchanged |
| EasyedaFootprint.AttachToPolygon | src/easyeda/footprint.rs:122-123 | an attribute whose parent is a polygon and no fill is appended to that polygon; the other tables are unchanged |
| EasyedaFootprint.AttachToPad | src/easyeda/footprint.rs:124-125 | an attribute whose parent is a pad and no fill or polygon is appended to that pad; the other tables are unchanged |
| EasyedaFootprint.AttachKeepsRouted | src/easyeda/footprint.rs:116-129 | attaching an attribute keeps every attribute filed with its parent |
| EasyedaFootprint.AbsorbKeepsRouted | src/easyeda/footprint.rs:71-140 | taking in any record keeps every attribute filed with its parent and no polygon with a null path |
| EasyedaFootprint.AbsorbKeepsTables | src/easyeda/footprint.rs:71-140 | records other than fills, polygons, pads and attributes leave those four tables unchanged |
| EasyedaFootprint.CollectLinesRouted | src/easyeda/footprint.rs:61-141 | the whole line loop keeps the attributes filed with their parents |
| EasyedaFootprint.ParsedFootprintRouted | src/easyeda/footprint.rs:42-160 | in a parsed footprint attributes with a parent sit in the fill, polygon or pad of that id, the others are top-level, and no polygon has a null path |
| EasyedaFootprint.EmptyLinesSkipped | src/easyeda/footprint.rs:62-64 | removing the empty lines does not change the parse |
| EasyedaFootprint.LineWithoutRecordSkipped | src/easyeda/footprint.rs:66-69 | a line that carries no record leaves the tables unchanged |
| EasyedaFootprint.KicadLayerRules | src/easyeda/footprint.rs:210-262 | only `MULTI` maps to no layer; known types map to a destination layer or an unsupported inner layer for `SIGNAL`; an unknown type is an unsupported layer named in its debug form |
| EasyedaFootprint.SignalLayerNames | src/easyeda/footprint.rs:230-261 | a `SIGNAL` layer named `InnerN` maps to inner copper layer N, and only that name does |
| EasyedaFootprint.KicadLayerInner | src/easyeda/footprint.rs:210-262 | exactly the `SIGNAL` layers map to inner copper layers |
| EasyedaFootprint.DrillRotation | src/easyeda/footprint.rs:464 | the drill rotation after the cast and modulo is below 360 |
| EasyedaFootprint.RotatedHoleRules | src/easyeda/footprint.rs:463-474 | a rotation is accepted exactly when absent or a whole quarter turn after truncation; the parameters are swapped exactly for 90 and 270 |
| EasyedaFootprint.DrillRotationSymmetric | src/easyeda/footprint.rs:464 | the sign of the rotation does not matter |
| EasyedaFootprint.DrillRotationPeriodic | src/easyeda/footprint.rs:464 | a full turn more is the same drill rotation while the cast does not saturate |
| EasyedaFootprint.SaturatedRotationRefused | src/easyeda/footprint.rs:464-472 | a rotation past `u32::MAX` degrees saturates to 255 degrees after the modulo and is refused |
| EasyedaFootprint.PadOutlineRules | src/easyeda/footprint.rs:410-451 | a rectangle exactly for `RECT` with four entries, an oval for `ELLIPSE` or `OVAL` with three, a custom pad for `POLY`, else an unsupported pad shape |
| EasyedaFootprint.PadHoleRules | src/easyeda/footprint.rs:453-482 | a hole array makes a through-hole pad with a drill (oval exactly for a slot) of the two scaled parameters in some order; null makes a surface-mount pad |
| EasyedaFootprint.PadLayersRules | src/easyeda/footprint.rs:381-388 | a `MULTI` pad is on both masks and all copper layers; any other is on its own layer with the front mask and paste |
| EasyedaFootprint.ConvertPadRules | src/easyeda/footprint.rs:362-485 | a converted pad keeps its number, sits at the scaled centre with y negated, has the layers, outline and hole of its parts, and its paste margin is never negative |
| EasyedaSymbolRecords.ReadDocType | src/easyeda/symbol.rs:573-582 | reading a `DOCTYPE` record gives kind and version, both required strings, as the field specification says |
| EasyedaSymbolRecords.ReadLineStyle | src/easyeda/symbol.rs:597-610 | reading a `LINESTYLE` record gives its five fields (and the fill style only when a sixth is left); only the name is required |
| EasyedaSymbolRecords.ReadFontStyle | src/easyeda/symbol.rs:611-629 | reading a `FONTSTYLE` record gives its eleven fields; only the name is required |
| EasyedaSymbolRecords.ReadAttribute | src/easyeda/symbol.rs:649-667 | reading an `ATTR` record gives its eleven fields; id, key and lock are required and an empty parent counts as none |
| EasyedaSymbolRecords.ReadRectangle | src/easyeda/symbol.rs:668-685 | reading a `RECT` record gives its ten fields; all but the style are required |
| EasyedaSymbolRecords.ReadCircle | src/easyeda/symbol.rs:686-699 | reading a `CIRCLE` record gives its six fields; all but the style are required |
| EasyedaSymbolRecords.ReadEllipse | src/easyeda/symbol.rs:700-715 | reading an `ELLIPSE` record gives its eight fields, the sixth kept as a raw value; all but the style are required |
| EasyedaSymbolRecords.ReadArc | src/easyeda/symbol.rs:735-751 | reading an `ARC` record gives its nine fields; all but the style are required |
| EasyedaSymbolRecords.ReadObject | src/easyeda/symbol.rs:799-817 | reading an `OBJ` record gives its ten fields, all required |
| EasyedaSymbolRecords.U32Text | src/easyeda/symbol.rs:591 | printing a JSON value and parsing it as `u32` succeeds exactly for a non-negative integer that fits in 32 bits, giving that integer |
| EasyedaSymbolRecords.HeadOf | src/easyeda/symbol.rs:583-596 | a `HEAD` record fails only by a format error or a panic; a symbol type that is no `u32` is a format error; a read head holds the object's symbol type, version and origin |
| EasyedaSymbolRecords.ReadHead | src/easyeda/symbol.rs:583-596 | reading a `HEAD` record gives the head of the field specification, or its error |
| EasyedaSymbolRecords.ReadPart | src/easyeda/symbol.rs:630-648 | reading a `PART` record gives its id and the four numbers of its `BBOX`, or a panic |
| EasyedaSymbolRecords.ReadPolyLine | src/easyeda/symbol.rs:716-734 | reading a `POLY` record gives its id, its points read in pairs, closedness, style and lock |
| EasyedaSymbolRecords.ReadBezier | src/easyeda/symbol.rs:752-764 | reading a `BEZIER` record gives its id, its control points read from overlapping windows, style and lock |
| EasyedaSymbolRecords.TextOf | src/easyeda/symbol.rs:765-779 | a text read from its six fields is never locked |
| EasyedaSymbolRecords.ReadText | src/easyeda/symbol.rs:765-779 | reading a `TEXT` record gives the text of the field specification |
| EasyedaSymbolRecords.PinShapeOf | src/easyeda/symbol.rs:495-500 | a shape number names a shape exactly when it is 0 to 3, in the order plain, clock, inverted, inverted clock |
| EasyedaSymbolRecords.PinOf | src/easyeda/symbol.rs:780-798 | with ten fields the shape is plain; with eleven the shape is the eleventh field's number (the tenth is skipped) |
| EasyedaSymbolRecords.ReadPin | src/easyeda/symbol.rs:780-798 | reading a `PIN` record gives the pin of the field specification |
| EasyedaSymbolRecords.PointPairsRules | src/easyeda/symbol.rs:725-729 | a flat list is read as points exactly when it has even length and only numbers; point i is items 2i and 2i+1 |
| EasyedaSymbolRecords.PointWindowsRules | src/easyeda/symbol.rs:757-760 | the overlapping windows give one point fewer than there are coordinates, point i from items i and i+1, and succeed exactly when all are numbers |
| EasyedaSymbolRecords.KindOf | src/easyeda/symbol.rs:572-818 | a recognised tag is the tag name of its record kind |
| EasyedaSymbolRecords.KindOfTagName | src/easyeda/symbol.rs:572-818 | each record's tag is recognised as that record and no other |
| EasyedaSymbolRecords.ReadElement | src/easyeda/symbol.rs:572-817 | once the length is accepted, the reads of the record's arm give the element of the line's specification |
| EasyedaSymbolRecords.SymbolLine | src/easyeda/symbol.rs:561-820 | an empty array is no element; a tag that is not a string is an invalid type; an unknown tag is an invalid property type naming it; a known tag with the wrong field count is an invalid array length; otherwise the record is read |
| EasyedaSymbolRecords.ParseSymbolLine | src/easyeda/symbol.rs:561-820 | the reader-based `parse_line` equals its specification `SymbolLine` |
| EasyedaSymbol.SymbolOf | src/easyeda/symbol.rs:19-40 | a parsed symbol file never carries a part number |
| EasyedaSymbol.ParseSymbol | src/easyeda/symbol.rs:19-40 | the line loop (skip empty lines and lines without a record, stop at the first error) yields exactly the elements of the line-by-line specification |
| EasyedaSymbol.NextLine | src/easyeda/symbol.rs:22-34 | one loop step: a failing line ends the parse, otherwise its elements are appended after those already gathered |
| EasyedaSymbol.ElementsAppend | src/easyeda/symbol.rs:22-34 | parsing the concatenation of two runs of lines gives the first run's elements followed by the second's, or the first failure |
| EasyedaSymbol.EmptyLinesIgnored | src/easyeda/symbol.rs:23-25 | removing the empty lines does not change the parse |
| EasyedaSymbol.GetDesignator | src/easyeda/symbol.rs:42-56 | the value of the first `Designator` attribute without a (non-empty) parent; none when there is no such attribute |
| EasyedaSymbol.Millimetres | src/easyeda/symbol.rs:79 | a coordinate is multiplied by the scale factor 0.254 |
| EasyedaSymbol.PointAt | src/easyeda/symbol.rs:151-152 | a corner or centre is the scaled point with no angle |
| EasyedaSymbol.StrokeOf | src/easyeda/symbol.rs:154-158 | stroke width is the style's width or 0.254 unscaled, the dash is solid, the colour is present exactly when the style names one, and a colour text that is no colour panics |
| EasyedaSymbol.PolyLinePoints | src/easyeda/symbol.rs:204 | one scaled point per polyline point, in order |
| EasyedaSymbol.TextEffectFor | src/easyeda/symbol.rs:238-265 | default effects without a known font style; otherwise bold and italic exactly when the style says true, size half the scaled font size, alignment 0 or 1 as left/top and anything else as right/bottom, absent when the style has none |
| EasyedaSymbol.ChildAttributes | src/easyeda/symbol.rs:96-106 | every gathered attribute has a parent |
| EasyedaSymbol.LastAttribute | src/easyeda/symbol.rs:269-270 | the found attribute has the pin as parent and the key; one is found exactly when some attribute has both |
| EasyedaSymbol.CurrentSymbol | src/easyeda/symbol.rs:149 | the current symbol exists exactly when its index is in range, else a panic |
| EasyedaSymbol.LineStyleFor | src/easyeda/symbol.rs:150 | the style is found exactly when the element names one that was defined, else a panic |
| EasyedaSymbol.Redrawn | src/easyeda/symbol.rs:151 | drawing on a symbol changes only that symbol and keeps every name and the current index |
| EasyedaSymbol.Stroked | src/easyeda/symbol.rs:149-158 | the current symbol, the defined style and its stroke, or a panic |
| EasyedaSymbol.AddRectangle | src/easyeda/symbol.rs:148-163 | a `RECT` succeeds exactly when there is a current symbol and its style is defined with a readable colour, else it panics; it appends to the current symbol exactly one rectangle, between the two scaled corners, in the style's stroke, with a background fill, and changes nothing else |
| EasyedaSymbol.AddCircle | src/easyeda/symbol.rs:164-179 | a `CIRCLE` succeeds exactly when there is a current symbol and its style is defined with a readable colour, else it panics; it appends exactly one circle at the scaled centre, with the radius in millimetres, the style's stroke and an outline fill, and changes nothing else |
| EasyedaSymbol.AddEllipse | src/easyeda/symbol.rs:180-199 | drawing an ellipse keeps the symbols' names and the current symbol |
| EasyedaSymbol.AddPolyLine | src/easyeda/symbol.rs:200-214 | a `POLY` succeeds exactly when there is a current symbol and its style is defined with a readable colour, else it panics; it appends exactly one polyline through the scaled points in order, in the style's stroke, unfilled, and changes nothing else |
| EasyedaSymbol.AddArc | src/easyeda/symbol.rs:215-231 | an `ARC` succeeds exactly when there is a current symbol and its style is defined with a readable colour, else it panics; it appends exactly one arc through the three scaled points, in the style's stroke, unfilled, and changes nothing else |
| EasyedaSymbol.AddText | src/easyeda/symbol.rs:236-266 | a `TEXT` succeeds exactly when there is a current symbol, else it panics; it appends exactly one text with its string, at the scaled position with its rotation as angle, in the effects of its font style, and changes nothing else |
| EasyedaSymbol.AddPin | src/easyeda/symbol.rs:267-293 | drawing a pin keeps the symbols' names and the current symbol |
| EasyedaSymbol.LastDot | src/easyeda/symbol.rs:314 | the position of a dot with no dot after it; none when the name has no dot |
| EasyedaSymbol.Ids | src/easyeda/symbol.rs:310-312 | the names of the symbols, one per symbol, in order |
| EasyedaSymbol.Units | src/easyeda/symbol.rs:342-349 | one unit per symbol, in order, each renamed `<base>_<i>_1` with BOM and board flags cleared |
| EasyedaSymbol.PartIds | src/easyeda/symbol.rs:86-91 | one id per `PART` element |
| EasyedaSymbol.SymbolLibFrom | src/easyeda/symbol.rs:59-71 | succeeds exactly when the symbol converts; the library holds just that symbol, version 20211014, generator `easyeda-to-kicad`, no generator version |
| EasyedaSymbol.GatherAttributes | src/easyeda/symbol.rs:86-106 | the first pass collects the attributes with a parent, in order, and counts the parts |
| EasyedaSymbol.ConvertElements | src/easyeda/symbol.rs:109-301 | the element loop gives the state of the element-by-element conversion or its first failure |
| EasyedaSymbol.MakeUnits | src/easyeda/symbol.rs:342-349 | the renaming loop yields exactly the units of the specification |
| EasyedaSymbol.MakeRoot | src/easyeda/symbol.rs:303-355 | the root-building step equals the specification of the root (units or the single symbol) |
| EasyedaSymbol.ConvertSymbol | src/easyeda/symbol.rs:76-360 | the whole conversion equals its specification `SymbolFrom` |
| EasyedaSymbol.PartStep | src/easyeda/symbol.rs:131-141 | a `PART` always appends a new symbol (in the BOM and on the board) and makes it current |
| EasyedaSymbol.OtherStep | src/easyeda/symbol.rs:124-300 | every other element keeps the symbols' names, their number and the current index |
| EasyedaSymbol.CurrentStaysLast | src/easyeda/symbol.rs:93-139 | throughout the conversion the current index is the last symbol (or `usize::MAX` before the first part), and there is one symbol per `PART` |
| EasyedaSymbol.IdsStep | src/easyeda/symbol.rs:131-141 | one element adds its id to the symbol names exactly when it is a `PART` |
| EasyedaSymbol.PartsBecomeSymbols | src/easyeda/symbol.rs:109-141 | the symbols made are named after the `PART` elements in file order |
| EasyedaSymbol.DrawingNeedsPart | src/easyeda/symbol.rs:148-296 | any drawn element before the first `PART` panics |
| EasyedaSymbol.BezierStops | src/easyeda/symbol.rs:232-235 | a run of elements holding a Bézier curve never converts |
| EasyedaSymbol.BezierRejected | src/easyeda/symbol.rs:232-235 | a symbol holding a Bézier curve fails to become a symbol or a library |
| EasyedaSymbol.EllipseRule | src/easyeda/symbol.rs:180-199 | unequal radii are refused as an unsupported `Ellipse`; equal radii add one circle with the scaled centre and radius and outline fill |
| EasyedaSymbol.PinNeedsLabels | src/easyeda/symbol.rs:269-273 | a pin lacking a `NUMBER` or `NAME` attribute, or its value, panics |
| EasyedaSymbol.PinRule | src/easyeda/symbol.rs:267-293 | a pin adds one pin with the last NUMBER value as number, `~` as name exactly when the name repeats the number, scaled position and length, its rotation as angle, unspecified electrical type and the style of its shape |
| EasyedaSymbol.NatTextDigits | src/easyeda/symbol.rs:344 | the decimal text of a unit index reads back as that index |
| EasyedaSymbol.UnitNameOf | src/easyeda/symbol.rs:313-317 | `<base>.<n>` splits at its last dot into the base and n, whatever dots the base holds |
| EasyedaSymbol.UnitBaseRules | src/easyeda/symbol.rs:309-341 | the part names are accepted with base `b` exactly when there is one and part i is `b.<i+1>` |
| EasyedaSymbol.UnitNamesAccepted | src/easyeda/symbol.rs:309-341 | parts named `base.1`, `base.2`, … are accepted as units of `base` |
| EasyedaSymbol.ConvertedParts | src/easyeda/symbol.rs:86-141 | the converted symbols are named after the `PART`s, one each, in order |
| EasyedaSymbol.MultiUnitSymbol | src/easyeda/symbol.rs:303-349 | with several parts the result is a root in the BOM and on the board whose i-th unit came from part `<root>.<i+1>` and is named `<root>_<i+1>_1`, off the BOM and board |
| EasyedaSymbol.SinglePartSymbol | src/easyeda/symbol.rs:350-355 | with one part the result is that part's symbol, in the BOM and on the board |
| EasyedaSymbol.NoPartFails | src/easyeda/symbol.rs:350-351 | a symbol with no `PART` never converts |
| Common.PositionRoundTrip | src/kicad/model/common.rs:102-122 | a position is written with two arguments without an angle and three with one, and reads back unchanged |
| Common.ReadId | src/kicad/model/common.rs:133-135 | an id is read exactly when the first argument is a number |
| Common.IdRoundTrip | src/kicad/model/common.rs:124-136 | every `u32` id reads back unchanged |
| Common.IdTruncates | src/kicad/model/common.rs:134 | a fractional id is truncated toward zero, a negative one becomes 0, and one above `u32::MAX` saturates |
| Common.ReadFontSize | src/kicad/model/common.rs:280-285 | a font size is read exactly when the first two arguments are numbers |
| Common.FontSizeRoundTrip | src/kicad/model/common.rs:268-286 | every font size reads back unchanged |
| Common.DeserializeJustify | src/kicad/model/common.rs:201-223 | the loop over the arguments returns exactly what the reading specification gives |
| Common.VerticalStep | src/kicad/model/common.rs:201-223 | a written vertical word sets the vertical justification and nothing else |
| Common.HorizontalStep | src/kicad/model/common.rs:201-223 | a written horizontal word sets the horizontal justification and nothing else |
| Common.MirrorStep | src/kicad/model/common.rs:201-223 | a written `mirror` sets the mirror flag and nothing else |
| Common.JustifyRoundTrip | src/kicad/model/common.rs:179-223 | every justification, written with only its set parts, reads back unchanged |
| Common.JustifyLastWins | src/kicad/model/common.rs:201-223 | the last argument decides the field it names |
| Common.JustifyRejectsUnknown | src/kicad/model/common.rs:205-213 | any argument other than `left`, `right`, `top`, `bottom` or `mirror` panics |
| Common.DeserializeFont | src/kicad/model/common.rs:242-265 | the loops over the arguments and the children return exactly what the reading specification gives |
| Common.FontArgumentsRead | src/kicad/model/common.rs:245-251 | the written `italic` and `bold` words set exactly those flags |
| Common.FontChildrenRead | src/kicad/model/common.rs:253-262 | the written `size`, `face`, `thickness` and `line_spacing` children set exactly those fields |
| Common.FontRoundTrip | src/kicad/model/common.rs:225-265 | every font reads back unchanged |
| Common.DeserializeEffect | src/kicad/model/common.rs:157-176 | the loop over the children returns exactly what the reading specification gives |
| Common.EffectRoundTrip | src/kicad/model/common.rs:138-176 | every text effect, with its `hide` flag, reads back unchanged |
| Common.MissingChildrenAreDefault | src/kicad/model/common.rs:164-175 | without a `font` child the font is the default one, and without `justify` the justification is |
| Common.StrokeTypeNames | src/kicad/model/common.rs:72-96 | the six dash names and the stroke types correspond one to one |
| Common.ReadStroke | src/kicad/model/common.rs:85-99 | a stroke reads only with a `width` child; it has a dash exactly when it has a `type` child and a colour exactly when it has a `color` child |
| Common.StrokeRoundTrip | src/kicad/model/common.rs:65-100 | every stroke definition reads back unchanged |
| SymbolStyles.FromHex | src/kicad/model/symbol_library.rs:105-139 | leading `#` are trimmed; a colour is read only from ASCII text of 3, 4, 6 or 8 digits, and the 3- and 6-digit forms are fully opaque; anything else is the panic (None) |
| SymbolStyles.FromHexOfHexText | src/kicad/model/symbol_library.rs:105-139 | every colour printed as `#RRGGBBAA` is read back unchanged |
| SymbolStyles.FromHexOpaque | src/kicad/model/symbol_library.rs:124-129 | the six-digit form `#RRGGBB` is the same colour with alpha 255 |
| SymbolStyles.FromHexShortForm | src/kicad/model/symbol_library.rs:111-116 | the three-digit form reads as the six-digit form with each digit doubled |
| SymbolStyles.FromHexShortAlphaForm | src/kicad/model/symbol_library.rs:117-123 | the four-digit form reads as the eight-digit form with each digit doubled |
| SymbolStyles.FromHexIgnoresHashes | src/kicad/model/symbol_library.rs:107 | a leading `#` does not change the colour read |
| SymbolStyles.FromHexNeedsDigits | src/kicad/model/symbol_library.rs:110-138 | a character that is not a hex digit (or a `+` that is not at the head of a two-digit pair) makes `from_hex` panic |
| SymbolStyles.FromHexAcceptsPlus | src/kicad/model/symbol_library.rs:125 | `from_str_radix` accepts a leading `+`, so `+a0000` reads as the colour (10, 0, 0, 255) |
| SymbolStyles.ReadColor | src/kicad/model/symbol_library.rs:720-727 | a colour is read exactly when the item has at least four numeric arguments |
| SymbolStyles.ColorRoundTrip | src/kicad/model/symbol_library.rs:707-729 | every colour written as `(color r g b a)` reads back unchanged |
| SymbolStyles.FillRoundTrip | src/kicad/model/symbol_library.rs:678-705 | the three fill types are written as distinct names and read back; only those names are read |
| SymbolStyles.ElectricalTypeRoundTrip | src/kicad/model/symbol_library.rs:403-472 | the twelve electrical types are written as distinct names, each reads back, and only those names are read |
| SymbolStyles.WrittenStyleReadsSwapped | src/kicad/model/symbol_library.rs:417-485 | as written, a pin style reads back as itself except ClockLow and OutputLow, which trade places |
| SymbolStyles.IntendedStyleRoundTrip | src/kicad/model/symbol_library.rs:474-485 | with the names the reader uses, all nine pin styles round-trip, and only those names are read |
| SymbolLibrary.ArcRoundTrip | src/kicad/model/symbol_library.rs:507-540 | an arc written as `start`/`mid`/`end`/`stroke`/`fill` children reads back, with the angles of its three points dropped |
| SymbolLibrary.CircleRoundTrip | src/kicad/model/symbol_library.rs:542-567 | a circle reads back, with the angle of its centre dropped |
| SymbolLibrary.RectangleRoundTrip | src/kicad/model/symbol_library.rs:569-597 | a rectangle reads back, with the angles of its corners dropped |
| SymbolLibrary.PointsRoundTrip | src/kicad/model/symbol_library.rs:627-630 | a list of points written as `xy` children reads back in order, without angles |
| SymbolLibrary.LineRoundTrip | src/kicad/model/symbol_library.rs:599-658 | a polyline reads back with its points in order and its fill and stroke as written; a bezier is read by the same rules |
| SymbolLibrary.TextRoundTrip | src/kicad/model/symbol_library.rs:660-676 | a text item reads back unchanged |
| SymbolLibrary.TextReparsed | src/kicad/model/symbol_library.rs:660-676 | a text item, printed and parsed again at the token level, reads back unchanged, a hidden one included |
| SymbolLibrary.ReadHideChild | src/kicad/model/symbol_library.rs:391 | a property is hidden exactly when it has a `hide` child whose first argument is `yes`; no such child means visible |
| SymbolLibrary.PropertyRoundTrip | src/kicad/model/symbol_library.rs:359-396 | every property, including its `hide` flag and optional id, reads back unchanged |
| SymbolLibrary.PropertyReparsed | src/kicad/model/symbol_library.rs:359-396 | a property, printed and parsed again at the token level, reads back unchanged, its `hide` flag and its effects included |
| SymbolLibrary.DeserializePin | src/kicad/model/symbol_library.rs:446-505 | the pin reader's loop over the children computes the pin reader's specification, panics included |
| SymbolLibrary.LabelRoundTrip | src/kicad/model/symbol_library.rs:491-498 | a pin `name` or `number` child gives back its text and its effects |
| SymbolLibrary.LabelReparsed | src/kicad/model/symbol_library.rs:491-498 | a pin `name` or `number` child, printed and parsed again at the token level, still gives back its text and its effects |
| SymbolLibrary.PinChildrenRead | src/kicad/model/symbol_library.rs:487-500 | the pin children in the written order set the position and length, and the name and number when they are present |
| SymbolLibrary.PinRoundTrip | src/kicad/model/symbol_library.rs:398-505 | with the intended style names (the ones the reader uses), a pin reads back unchanged, apart from the effects of a missing name or number |
| SymbolLibrary.PinReparsed | src/kicad/model/symbol_library.rs:398-505 | a pin, printed and parsed again at the token level, reads back as it does from its written tree |
| SymbolLibrary.PinAsWrittenSwapsLowStyles | src/kicad/model/symbol_library.rs:398-505 | a pin written by `SymbolPin::serialize` reads back with ClockLow and OutputLow swapped; a pin with any other style reads back unchanged apart from unused effects |
| SymbolLibrary.ReadSymbolIsFold | src/kicad/model/symbol_library.rs:328-353 | the symbol reader is a fold of the one-child step over the children, in order |
| SymbolLibrary.DeserializeSymbolChild | src/kicad/model/symbol_library.rs:329-352 | one turn of the symbol reader's loop computes the one-child step, and panics on an unknown child name |
| SymbolLibrary.DeserializeSymbol | src/kicad/model/symbol_library.rs:302-356 | the symbol reader's loop computes the symbol reader's specification |
| SymbolLibrary.PinNamesRead | src/kicad/model/symbol_library.rs:344-348 | read directly from the tree, a written `pin_names` node sets the offset but not the hidden flag |
| SymbolLibrary.PinNumbersRead | src/kicad/model/symbol_library.rs:343 | a written `pin_numbers` node sets the hidden flag |
| SymbolLibrary.InBomRead | src/kicad/model/symbol_library.rs:338 | a written `in_bom` node sets the flag to its value |
| SymbolLibrary.ExtendsRead | src/kicad/model/symbol_library.rs:341 | a written `extends` node sets the parent id to its text |
| SymbolLibrary.AttributesRead | src/kicad/model/symbol_library.rs:338-342 | the written attribute nodes set `in_bom`, `on_board`, `extends`, `unit_name` and `exclude_from_sim` to the symbol's values |
| SymbolLibrary.HeaderRead | src/kicad/model/symbol_library.rs:245-280 | the header children of a written symbol set the header fields of the symbol read from them |
| SymbolLibrary.ElementsRead | src/kicad/model/symbol_library.rs:282-289 | the element children of a written symbol read back as the symbol's elements |
| SymbolLibrary.UnitsRead | src/kicad/model/symbol_library.rs:349 | a run of nested `symbol` children is read in order as the units |
| SymbolLibrary.SymbolRoundTrip | src/kicad/model/symbol_library.rs:244-356 | writing then reading a symbol gives it back, apart from what the writer drops or the reader cannot see, and with each pin's ClockLow and OutputLow swapped |
| SymbolLibrary.SymbolReparsed | src/kicad/model/symbol_library.rs:244-356 | a symbol written, printed, parsed again and read comes back as `ReparsedBack` gives it: what its written tree reads back as, with the hidden flag of `pin_names` kept, recursively through its units |
| SymbolLibrary.HeaderReparsed | src/kicad/model/symbol_library.rs:247-280 | the symbol header, printed and parsed again at the token level, sets every header field, the hidden pin-name flag included |
| SymbolLibrary.PinNamesReparsed | src/kicad/model/symbol_library.rs:344-348 | a written `pin_names` node, printed and parsed again at the token level, sets both the hidden flag and the offset; with no node neither changes |
| SymbolLibrary.SymbolPinStylesSwapped | src/kicad/model/symbol_library.rs:244-485 | a written symbol reads back with as many pins, in order, each with ClockLow and OutputLow swapped and every other style kept |
| SymbolLibrary.UnknownSymbolChild | src/kicad/model/symbol_library.rs:351 | a child with any other name makes the reader panic, whatever has been read so far |
| SymbolLibrary.UnknownChildFailsSymbol | src/kicad/model/symbol_library.rs:328-353 | one unknown child anywhere makes the whole symbol unreadable |
| SymbolLibrary.PinNamesAfterReparse | src/kicad/model/symbol_library.rs:344-348 | once the text is printed and parsed again at the token level, `hide` in `pin_names` is recognised, so the hidden flag and the offset both come back |
| SymbolLibrary.DeserializeSymbolLib | src/kicad/model/symbol_library.rs:222-241 | the library reader's loop computes the library reader's specification, panics included |
| SymbolLibrary.LibDirectReadFails | src/kicad/model/symbol_library.rs:208-233 | the library's own tree does not read back directly, because the version is written as a word and read as a number |
| SymbolLibrary.VersionWordIsNumber | src/kicad/model/symbol_library.rs:208 | the tokenizer reads the printed version word as a number token with the same value |
| SymbolLibrary.LibHeaderRead | src/kicad/model/symbol_library.rs:222-238 | the header children, with the version as a number, set the version, generator and generator version |
| SymbolLibrary.LibRoundTrip | src/kicad/model/symbol_library.rs:205-241 | a library written, printed, parsed again at the token level and read comes back with its version, generator and generator version, and each symbol as `ReparsedBack` gives it: read back as from its written tree, except that hidden pin names stay hidden |
| SymbolLibrary.RetokenizedLayout | src/kicad/model/symbol_library.rs:206-219 | printed and parsed again at the token level, the library node keeps its header children as written and holds each written symbol in normal form |
| SymbolLibrary.LibHeaderSettled | src/kicad/model/symbol_library.rs:207-213 | the header children, version as a number, are unchanged by printing and parsing again |
| SymbolLibrary.SymbolsReparsed | src/kicad/model/symbol_library.rs:214-231 | the written symbols, printed and parsed again at the token level, read back one by one as `ReparsedBack` gives them |
| PcbLayers.SplitJoined | src/kicad/model/footprint_library.rs:1985-1986 | two pieces joined by the separator, neither holding it, split back into those two pieces |
| PcbLayers.InnerOf | src/kicad/model/footprint_library.rs:454-484 | only a name `In<n>` with n from 1 to 30 names an inner copper layer, and its prefix is that name |
| PcbLayers.UserOf | src/kicad/model/footprint_library.rs:503-511 | only a digit 1 to 9 after `User.` names a user layer, and its suffix is that digit |
| PcbLayers.LayerOfParts | src/kicad/model/footprint_library.rs:452-513 | a layer found from the two halves of a name has exactly those halves |
| PcbLayers.ParseLayerName | src/kicad/model/footprint_library.rs:452-577 | every layer's name parses back to that layer |
| PcbLayers.ParseLayerSound | src/kicad/model/footprint_library.rs:452-513 | only the names of layers parse, each to the layer that prints as it; anything else is the panic |
| PcbLayers.NamesDistinct | src/kicad/model/footprint_library.rs:516-577 | different layers have different names |
| PcbLayers.LayerNodeRoundTrip | src/kicad/model/footprint_library.rs:579-582 | the `layer` node of a single-layer element reads back as that layer |
| PcbLayers.AllCopperIsCopper | src/kicad/model/footprint_library.rs:584-619 | the copper list holds exactly the layers of the `Cu` family |
| PcbLayers.AllCopperDistinct | src/kicad/model/footprint_library.rs:584-619 | the copper list holds each layer once |
| PcbLayers.AllLayersListed | src/kicad/model/footprint_library.rs:389-449 | the enumeration of layers holds every layer |
| PcbLayers.FamilyHas | src/kicad/model/footprint_library.rs:1982-1988 | a layer belongs to the family that its name's suffix names |
| PcbLayers.FamilyOnly | src/kicad/model/footprint_library.rs:1982-1988 | every member of family x has the suffix x |
| PcbLayers.UserFamily | src/kicad/model/footprint_library.rs:1982-1988 | the family of a user layer is that layer alone |
| PcbLayers.FamiliesAreRuns | src/kicad/model/footprint_library.rs:1982-1991 | the families, in order, make up the whole enumeration, each as one run of equal suffixes, which is how `chunk_by` groups the layers |
| PcbLayers.FamiliesDistinct | src/kicad/model/footprint_library.rs:1982-1991 | no family comes twice, so `chunk_by` meets each family once |
| PcbLayers.FamiliesPlain | src/kicad/model/footprint_library.rs:1982-1991 | no family name holds a dot or is `*` |
| PcbLayers.SuffixIsFamily | src/kicad/model/footprint_library.rs:1982-1991 | every layer's family is one of the families |
| PcbLayers.GroupsDisjoint | src/kicad/model/footprint_library.rs:1982-1991 | the family groups share no layer |
| PcbLayers.PassRound | src/kicad/model/footprint_library.rs:1993-2000 | one round of the first loop emits a wildcard exactly when the whole family is still listed, which is the case exactly when the whole family was in the input, and then takes the family out of the list |
| PcbLayers.WildcardPass | src/kicad/model/footprint_library.rs:1993-2000 | the first loop emits `*.<family>` for each complete family in order, and leaves the layers of the other families in the list |
| PcbLayers.NameWords | src/kicad/model/footprint_library.rs:2002-2004 | the second loop emits the name of each layer left, in order |
| PcbLayers.SerializeLayers | src/kicad/model/footprint_library.rs:1978-2011 | the serializer computes the written form: the wildcards of the complete families, then the names of the other layers |
| PcbLayers.DeserializeLayers | src/kicad/model/footprint_library.rs:2013-2041 | the deserializer's loop collects the layers each argument selects |
| PcbLayers.WildcardSelects | src/kicad/model/footprint_library.rs:2024-2036 | a wildcard `*.<family>` selects exactly the layers of that family |
| PcbLayers.NameSelects | src/kicad/model/footprint_library.rs:2024-2036 | a layer's name selects exactly that layer |
| PcbLayers.ReadWords | src/kicad/model/footprint_library.rs:2020-2038 | reading the wildcards and then the names collects the families of the wildcards and the named layers |
| PcbLayers.WrittenLayer | src/kicad/model/footprint_library.rs:1978-2041 | a layer is in the list exactly when its family got a wildcard or its own name was written |
| PcbLayers.WrittenWildcards | src/kicad/model/footprint_library.rs:1993-2000 | a wildcard is written exactly for each family that is complete in the list |
| PcbLayers.AbsorbedByFamily | src/kicad/model/footprint_library.rs:1993-2000 | over the family groups, a layer is covered by a wildcard exactly when its whole family is listed |
| PcbLayers.WrittenNames | src/kicad/model/footprint_library.rs:1993-2004 | the names written are exactly the listed layers whose family is not complete |
| PcbLayers.LayersRoundTrip | src/kicad/model/footprint_library.rs:1977-2042 | writing a list of layers and reading it back gives the layers of the list, as a set |
| Scalars.ReadScalar2D | src/kicad/model/footprint_library.rs:973-979 | a 2-D point is read exactly when the node's first two arguments are numbers; it keeps the node's name |
| Scalars.ReadScalar3D | src/kicad/model/footprint_library.rs:930-937 | a 3-D point is read exactly when the node's first three arguments are numbers; it keeps the node's name |
| Scalars.Scalar2DRoundTrip | src/kicad/model/footprint_library.rs:961-980 | a 2-D point is written under its own name and reads back unchanged |
| Scalars.Scalar3DRoundTrip | src/kicad/model/footprint_library.rs:917-939 | a 3-D point is written under its own name and reads back unchanged |
| Scalars.PointsRoundTrip | src/kicad/model/footprint_library.rs:1085 | a list of points written one node each reads back in the same order, names included |
| Graphical.DeserializeLine | src/kicad/model/graphical.rs:92-116 | the line reader's loop over the children computes the line reader's specification, panics included |
| Graphical.LineRoundTrip | src/kicad/model/graphical.rs:67-116 | a line is written as `gr_line` and, when its end points carry the names `start` and `end`, reads back unchanged |
| Graphical.LineChildFields | src/kicad/model/graphical.rs:102-111 | each child sets the optional field of its own name and leaves the others as they were |
| Graphical.LineOptionalFields | src/kicad/model/graphical.rs:92-116 | the angle, layer and uuid of a line that was read are present exactly when the node has a child of that name |
| Graphical.LineRejectsUnknown | src/kicad/model/graphical.rs:110 | a child named anything other than `start`, `end`, `width`, `angle`, `layers` or `uuid` makes the reader panic |
| Graphical.MisnamedPointRejected | src/kicad/model/graphical.rs:67-110 | a line whose start point has a name the reader does not know is written with a child its own reader rejects |
| Graphical.DeserializePolygon | src/kicad/model/graphical.rs:164-199 | the polygon reader's loop computes the polygon reader's specification, panics included |
| Graphical.PolygonRoundTrip | src/kicad/model/graphical.rs:118-199 | a polygon is written as `gr_poly` and reads back unchanged, its points in the same order |
| Graphical.PolygonChildFields | src/kicad/model/graphical.rs:173-194 | each child sets the optional field of its own name and leaves the others as they were |
| Graphical.PolygonOptionalFields | src/kicad/model/graphical.rs:164-199 | the width, layer, fill and uuid of a polygon that was read are present exactly when the node has a child of that name |
| Graphical.PolygonRejectsUnknown | src/kicad/model/graphical.rs:193 | a child named anything other than `pts`, `width`, `layers`, `fill` or `uuid` makes the reader panic |
| Graphical.DeserializeRectangle | src/kicad/model/graphical.rs:240-267 | the rectangle reader's loop computes the rectangle reader's specification, panics included |
| Graphical.RectangleRoundTrip | src/kicad/model/graphical.rs:201-267 | a rectangle is written as `gr_rect` and, when its corners are named `start` and `end`, reads back unchanged |
| Graphical.RectangleRejectsUnknown | src/kicad/model/graphical.rs:261 | a child named anything other than `start`, `end`, `width`, `layers`, `fill` or `uuid` makes the reader panic |
| Graphical.DeserializeCircle | src/kicad/model/graphical.rs:308-335 | the circle reader's loop computes the circle reader's specification, panics included |
| Graphical.CircleRoundTrip | src/kicad/model/graphical.rs:269-335 | a circle is written as `gr_circle` and, when its points are named `center` and `end`, reads back unchanged |
| Graphical.CircleRejectsUnknown | src/kicad/model/graphical.rs:329 | a child named anything other than `center`, `end`, `width`, `layers`, `fill` or `uuid` makes the reader panic |
| Graphical.DeserializeArc | src/kicad/model/graphical.rs:366-390 | the arc reader's loop computes the arc reader's specification, panics included |
| Graphical.ArcRoundTrip | src/kicad/model/graphical.rs:337-390 | an arc is written as `gr_arc` and, when its points are named `start`, `mid` and `end`, reads back unchanged |
| Graphical.ArcRejectsUnknown | src/kicad/model/graphical.rs:384 | a child named anything other than `start`, `mid`, `end`, `width`, `layers` or `uuid` makes the reader panic |
| Graphical.DeserializeCurve | src/kicad/model/graphical.rs:424-454 | the curve reader's loop computes the curve reader's specification, panics included |
| Graphical.CurveRoundTrip | src/kicad/model/graphical.rs:392-454 | a curve is written as `bezier` and reads back unchanged, its control points in the same order |
| Graphical.CurveRejectsUnknown | src/kicad/model/graphical.rs:448 | a child named anything other than `pts`, `width`, `layers` or `uuid` makes the reader panic |
| Graphical.DeserializeAnnotationBox | src/kicad/model/graphical.rs:470-484 | the annotation-box reader's loop computes its specification, panics included |
| Graphical.AnnotationBoxRoundTrip | src/kicad/model/graphical.rs:456-484 | a box is written as `gr_bbox` and, when its corners are named `start` and `end`, reads back unchanged |
| Graphical.AnnotationBoxRejectsUnknown | src/kicad/model/graphical.rs:480 | a child other than `start` and `end` makes the reader panic |
| Graphical.FillSpellings | src/kicad/model/graphical.rs:186-326 | a polygon reads `yes` or `solid` as filled, a rectangle and a circle read only `solid` as filled |
| FootprintRecords.TypeOfName | src/kicad/model/footprint_library.rs:777-781 | only `smd` and `through_hole` name a footprint type, each the type that prints as it; any other word is the panic |
| FootprintRecords.DeserializeAttributes | src/kicad/model/footprint_library.rs:775-799 | the attribute reader's loop computes the attribute reader's specification |
| FootprintRecords.FlagWordsRead | src/kicad/model/footprint_library.rs:786-796 | the flag words as written set exactly the flags of the attributes |
| FootprintRecords.AttributesRoundTrip | src/kicad/model/footprint_library.rs:751-799 | attributes are written as `attr` and read back unchanged |
| FootprintRecords.AttributesReparsed | src/kicad/model/footprint_library.rs:751-799 | attributes written as `attr`, printed and parsed again at the token level, read back unchanged |
| FootprintRecords.AttributeWordFields | src/kicad/model/footprint_library.rs:787-796 | each word after the type sets its own flag and leaves the type and the other flags as they were |
| FootprintRecords.AttributesRead | src/kicad/model/footprint_library.rs:775-799 | attributes are read exactly when the first argument is `smd` or `through_hole`; then the type prints as that word and each flag is set exactly when its word appears among the later arguments |
| FootprintRecords.DeserializeDrill | src/kicad/model/footprint_library.rs:2067-2101 | the drill reader's loop over the arguments computes the drill reader's specification |
| FootprintRecords.ScanDrillSpec | src/kicad/model/footprint_library.rs:2075-2093 | scanning the arguments counts the numbers, makes the drill oval when an `oval` word appears, and takes the diameter from the first number and the width from the second |
| FootprintRecords.DrillRead | src/kicad/model/footprint_library.rs:2067-2101 | a drill is read unless its `offset` child is not a 2-D point; it is oval exactly when an `oval` word appears, its diameter is the first number (else 0) and its width the second when there is one |
| FootprintRecords.DrillRoundTrip | src/kicad/model/footprint_library.rs:2044-2101 | a drill whose offset is named `offset` is written as `drill` and reads back unchanged |
| FootprintRecords.SettingOfName | src/kicad/model/footprint_library.rs:1694-1700 | only `tracks`, `vias`, `pads`, `copperpour` and `footprints` name a keepout setting, each the setting written under that name |
| FootprintRecords.SetAllowed | src/kicad/model/footprint_library.rs:1695-1700 | setting one permission changes that one and no other |
| FootprintRecords.DeserializeKeepout | src/kicad/model/footprint_library.rs:1683-1706 | the keepout reader's loop computes the keepout reader's specification |
| FootprintRecords.AllowedNodeRead | src/kicad/model/footprint_library.rs:1693-1700 | a written setting node sets its own permission to the written value |
| FootprintRecords.KeepoutChildrenRead | src/kicad/model/footprint_library.rs:1683-1706 | the written setting nodes, read from the defaults, give the settings back |
| FootprintRecords.KeepoutRoundTrip | src/kicad/model/footprint_library.rs:1636-1706 | keepout settings are written as `keepout` and read back unchanged |
| FootprintRecords.KeepoutMissingNotAllowed | src/kicad/model/footprint_library.rs:1684-1690 | a setting without a child of its name is not allowed |
| FootprintRecords.KeepoutRejects | src/kicad/model/footprint_library.rs:1693-1701 | a child with an unknown name, or with no argument, makes the reader panic |
| FootprintRecords.ValueOfText | src/kicad/model/footprint_library.rs:838-841 | an empty value text reads as no value; any other text reads as itself |
| FootprintRecords.DeserializeFootprintProperty | src/kicad/model/footprint_library.rs:835-864 | the property reader's loop computes the property reader's specification |
| FootprintRecords.HideRead | src/kicad/model/footprint_library.rs:854 | a written `hide` node sets the hidden flag to its value |
| FootprintRecords.UnlockedRead | src/kicad/model/footprint_library.rs:855 | a written `unlocked` node sets the unlocked flag to its value |
| FootprintRecords.UuidRead | src/kicad/model/footprint_library.rs:856 | a written `uuid` node sets the uuid to its text |
| FootprintRecords.EffectsRead | src/kicad/model/footprint_library.rs:857 | a written `effects` node sets the text effects |
| FootprintRecords.PropertyChildrenRead | src/kicad/model/footprint_library.rs:850-860 | the children of a written property, read from the initial property, set every field of the property |
| FootprintRecords.FootprintPropertyRoundTrip | src/kicad/model/footprint_library.rs:801-864 | a property whose position is named `at` is written as `property` and reads back unchanged, except that an empty value reads back as no value |
| FootprintRecords.PropertyReparsed | src/kicad/model/footprint_library.rs:801-864 | a property named `at`, printed and parsed again at the token level, reads back as it does from its written tree |
| FootprintRecords.PropertyChildrenReparsed | src/kicad/model/footprint_library.rs:802-833 | printing and parsing a property's children again changes only its effects node |
| FootprintRecords.PropertyKeyValue | src/kicad/model/footprint_library.rs:836-841 | a property that was read takes its key from the first argument and its value from the second |
| FootprintRecords.PropertyRejectsUnknown | src/kicad/model/footprint_library.rs:858 | a child named anything other than `at`, `layer`, `hide`, `unlocked`, `uuid` or `effects` makes the reader panic |
| FootprintRecords.DeserializeModel | src/kicad/model/footprint_library.rs:892-915 | the model reader's loop computes the model reader's specification |
| FootprintRecords.ModelRoundTrip | src/kicad/model/footprint_library.rs:866-915 | a 3-D model whose vectors are named `xyz` is written as `model` and reads back unchanged |
| FootprintRecords.ModelSettled | src/kicad/model/footprint_library.rs:866-890 | every argument of a written `model` node is placed None, so printing and parsing leave it as written |
| FootprintRecords.ModelChildFields | src/kicad/model/footprint_library.rs:902-910 | each child sets the optional field of its own name and leaves the file and the other fields as they were |
| FootprintRecords.ModelOptionalFields | src/kicad/model/footprint_library.rs:892-915 | a model that was read takes its file from the first argument, and each optional field is present exactly when the node has a child of that name |
| FootprintRecords.ZoneConnectOfCode | src/kicad/model/footprint_library.rs:730-735 | only the codes 0, 1 and 2 name a zone connection mode; any other code is the panic |
| FootprintRecords.ZoneConnectAsWrittenRejectsOwnOutput | src/kicad/model/footprint_library.rs:730-735 | the footprint reader as written never accepts the `zone_connect` node its own writer produces |
| FootprintRecords.ZoneConnectAsWrittenReadsNested | src/kicad/model/footprint_library.rs:730-735 | the footprint reader as written accepts the code only nested one level deeper, in a `zone_connection` child |
| FootprintRecords.ZoneConnectRoundTrip | src/kicad/model/footprint_library.rs:670-735 | with the code read from the node's own argument, every mode round-trips |
| FootprintRecords.ZoneConnectCodes | src/kicad/model/footprint_library.rs:730-735 | the corrected reader accepts exactly the numbers whose `u8` cast is 0, 1 or 2, and gives the mode with that code |
| FootprintRecords.HexText | src/kicad/model/footprint_library.rs:640 | a number printed with `{:X}` is a non-empty run of upper-case hex digits |
| FootprintRecords.HexTextValue | src/kicad/model/footprint_library.rs:640 | the upper-case hex text of a number has that number as its value |
| FootprintRecords.TimestampRoundTrip | src/kicad/model/footprint_library.rs:639-721 | a non-negative edit timestamp is printed as hex and parsed back by `i64::from_str_radix(_, 16)` unchanged |
| FootprintRecords.NegativeTimestampUnreadable | src/kicad/model/footprint_library.rs:639-721 | a negative timestamp is printed in two's complement, which `i64::from_str_radix` rejects (the panic) |
| FootprintRecords.ParseHexNegative | src/kicad/model/footprint_library.rs:721 | `from_str_radix` reads a leading `-` as the negative of the digits' value |
| Footprints.WithText | src/kicad/model/footprint_library.rs:716-720 | setting one text field of the footprint changes that field and no other |
| Footprints.ElementOfName | src/kicad/model/footprint_library.rs:723-736 | only `fp_line`, `fp_poly`, `fp_circle`, `fp_rect`, `fp_arc`, `fp_text`, `pad` and `zone` name an element list, each the list written under that name |
| Footprints.AddElement | src/kicad/model/footprint_library.rs:723-736 | an element child is appended to its own list and leaves the other lists as they were |
| Footprints.DeserializeLibraryChild | src/kicad/model/footprint_library.rs:714-744 | one turn of the footprint reader's loop computes the one-child step, and panics on an unknown child |
| Footprints.ReadTedit | src/kicad/model/footprint_library.rs:721 | a `tedit` child is read exactly when its first argument is text that `i64::from_str_radix(_, 16)` accepts and the seconds lie in chrono's range (years -262143 to 262142); the timestamp is those seconds |
| Footprints.TeditBeyondUtcRefused | src/kicad/model/footprint_library.rs:721 | a timestamp that fits `i64` but lies past chrono's last second, `i64::MAX` among them, parses back from its hex text and then panics in `Utc.timestamp_opt(..).unwrap()` |
| Footprints.DeserializeFootprintLibrary | src/kicad/model/footprint_library.rs:685-749 | the footprint reader's loop computes the footprint reader's specification, panics included |
| Footprints.HeaderLayerRead | src/kicad/model/footprint_library.rs:715 | a written `layer` node sets the footprint's layer |
| Footprints.HeaderTextRead | src/kicad/model/footprint_library.rs:716-720 | a written `descr`, `tags`, `generator` or `generator_version` node sets that text field |
| Footprints.HeaderAttributesRead | src/kicad/model/footprint_library.rs:738 | a written `attr` node sets the attributes |
| Footprints.HeaderTeditRead | src/kicad/model/footprint_library.rs:721 | a written `tedit` node with a non-negative timestamp sets the edit timestamp |
| Footprints.HeaderModelRead | src/kicad/model/footprint_library.rs:737 | a written `model` node sets the 3-D model |
| Footprints.HeaderVersionRead | src/kicad/model/footprint_library.rs:718 | a `version` node holding a number sets the version |
| Footprints.HeaderRead | src/kicad/model/footprint_library.rs:623-656 | the header children of a written footprint set its header fields |
| Footprints.ElementRunRead | src/kicad/model/footprint_library.rs:723-736 | a run of children of one element kind becomes that element list, in order |
| Footprints.ElementsRead | src/kicad/model/footprint_library.rs:657-664 | the element children of a written footprint become its element lists, in order |
| Footprints.PropertiesRead | src/kicad/model/footprint_library.rs:739 | a run of `property` children is appended to the properties, in order |
| Footprints.TrailerMarginRead | src/kicad/model/footprint_library.rs:741 | a written `solder_mask_margin` node sets the margin |
| Footprints.TrailerRead | src/kicad/model/footprint_library.rs:665-676 | the properties and the margin of a written footprint without a zone connection mode read back |
| Footprints.PropertiesReparsed | src/kicad/model/footprint_library.rs:665 | written properties, printed and parsed again at the token level, read back one by one as `PropertyBack` gives them |
| Footprints.PartsRead | src/kicad/model/footprint_library.rs:622-749 | the whole child list of a written footprint reads back as the footprint, apart from what the writer drops |
| Footprints.HeaderNormalForm | src/kicad/model/footprint_library.rs:623-656 | printed and parsed again at the token level, the header children are as written, with the version as a number and the attributes in normal form |
| Footprints.ElementsNormalForm | src/kicad/model/footprint_library.rs:657-664 | printed and parsed again at the token level, the element children are the normal forms of the stored element nodes, list by list |
| Footprints.TrailerNormalForm | src/kicad/model/footprint_library.rs:665-676 | printed and parsed again at the token level, the trailer is the properties in normal form followed by the margin and zone connection nodes as written |
| Footprints.RetokenizedLayout | src/kicad/model/footprint_library.rs:622-683 | the printed and parsed library node is the written header, elements and trailer, each in normal form |
| Footprints.NamedNormal | src/kicad/model/footprint_library.rs:723-736 | normalising an element list keeps every node under the name of its list |
| Footprints.TeditWordRereadAsNumber | src/kicad/model/footprint_library.rs:639-721 | an edit timestamp of 480 s is written as the word `1E0`, which the tokenizer reads as the number 1, so the library reads back a timestamp of 1 s |
| Footprints.TeditDigitsParse | src/kicad/syntax.rs:212-216 | the text `1E0` parses as the number 1 |
| Footprints.TeditQuotedRoundTrip | src/kicad/model/footprint_library.rs:639-721 | written as a quoted string, any non-negative edit timestamp is lexed as one string token and reads back unchanged |
| Footprints.LibraryRoundTrip | src/kicad/model/footprint_library.rs:622-749 | a footprint without a zone connection mode, written, printed, parsed again and read, comes back as `LibraryBack`: every header field, each element list with its nodes in the parser's normal form, and each property as it reads back from its own node |
| Footprints.ZoneConnectFootprintUnreadable | src/kicad/model/footprint_library.rs:670-735 | a footprint with a zone connection mode does not read back from the writer's tree, printed or not: the reader panics on the `zone_connect` node |
| FootprintRectangles.DeserializeRectangle | src/kicad/model/footprint_library.rs:1259-1286 | the loop over an `fp_rect` node's children computes `ReadRectangle`: it starts from the stroke, uuid and lock found by name and applies each child in order, refusing an unknown name |
| FootprintRectangles.InitialOfWritten | src/kicad/model/footprint_library.rs:1260-1269 | on a written rectangle the reader starts from its stroke and uuid, unlocked, at the default points and layer |
| FootprintRectangles.RectangleRoundTrip | src/kicad/model/footprint_library.rs:1228-1286 | a rectangle whose points are named `start` and `end` and that is not locked is written as `fp_rect` and reads back unchanged |
| FootprintRectangles.UnknownChildRefused | src/kicad/model/footprint_library.rs:1271-1283 | a child named other than the reader's eight names makes the read fail, whatever was read before it |
| FootprintRectangles.MislabelledStartUnreadable | src/kicad/model/footprint_library.rs:1231-1283 | a written rectangle whose first point is named other than the reader's names does not read back |
| Footprints.VersionWordStep | src/kicad/model/footprint_library.rs:718 | a `version` node holding a word makes the reader panic |
| Footprints.LibraryDirectReadFails | src/kicad/model/footprint_library.rs:638-718 | a footprint with a version does not read back from its own tree, because the version is written as a word and read as a number |
| Footprints.LibraryRejects | src/kicad/model/footprint_library.rs:686-743 | a footprint node without an argument, or with a child of an unknown name, makes the reader panic |
| Footprints.ChildKeeps | src/kicad/model/footprint_library.rs:713-745 | no child changes the footprint's id or node name, and only a `layer` child changes the layer |
| Footprints.LayerDefault | src/kicad/model/footprint_library.rs:696 | a footprint without a `layer` child is on F.Cu |
| Footprints.LibraryIdentity | src/kicad/model/footprint_library.rs:686-690 | a footprint that was read takes its id from the first argument and its node name from the node |
| FootprintLibTables.ReadVersion | src/kicad/model/footprint_lib_table.rs:46 | the version is read exactly when there is a `version` child whose first argument is a number |
| FootprintLibTables.ReadText | src/kicad/model/footprint_lib_table.rs:78-82 | a text field is read exactly when there is a child of that name whose first argument is a string |
| FootprintLibTables.VersionRoundTrip | src/kicad/model/footprint_lib_table.rs:30-46 | every `u8` version written first reads back unchanged |
| FootprintLibTables.LibNodesKept | src/kicad/model/footprint_lib_table.rs:47-48 | the filter on `lib` keeps every written library node and drops the version node |
| FootprintLibTables.ReadFootprintLibTableItem | src/kicad/model/footprint_lib_table.rs:76-85 | an entry is read exactly when all five text children are there, and it is disabled exactly when it has a `disabled` child |
| FootprintLibTables.ItemTextsRead | src/kicad/model/footprint_lib_table.rs:56-82 | each of the five text fields of a written entry reads back as written |
| FootprintLibTables.ItemFlagRead | src/kicad/model/footprint_lib_table.rs:65-67 | a written entry has a `disabled` child exactly when it is disabled |
| FootprintLibTables.ItemRoundTrip | src/kicad/model/footprint_lib_table.rs:55-86 | every entry is written as `lib` and reads back unchanged |
| FootprintLibTables.SerializeFootprintLibTable | src/kicad/model/footprint_lib_table.rs:28-42 | the serializer's loop writes the version first and then one node per library, in order |
| FootprintLibTables.ReadFootprintLibTable | src/kicad/model/footprint_lib_table.rs:44-52 | a table is read exactly when the version and every `lib` child read; it has one library per `lib` child, in order |
| FootprintLibTables.TableRoundTrip | src/kicad/model/footprint_lib_table.rs:27-53 | every table reads back unchanged |
| SymbolLibTables.ReadSymbolLibTableItemAsWritten | src/kicad/model/symbol_lib_table.rs:73-83 | the entry reader as written needs all five text children and both a `disabled` and a `hidden` child, and sets each flag only when that child has an argument |
| SymbolLibTables.AsWrittenRejectsOwnOutput | src/kicad/model/symbol_lib_table.rs:48-83 | the entry reader as written never accepts an entry its own writer produces, because the writer names the description `description` and the reader looks for `descr` |
| SymbolLibTables.AsWrittenFlagsReadFalse | src/kicad/model/symbol_lib_table.rs:58-81 | even with the description written as `descr`, the reader as written panics unless both flags are set, and then reads both as false |
| SymbolLibTables.ReadSymbolLibTableItem | src/kicad/model/symbol_lib_table.rs:73-83 | the corrected entry reader accepts exactly the entries with all five text children, and sets each flag exactly when a child of its name is present |
| SymbolLibTables.SymbolItemRoundTrip | src/kicad/model/symbol_lib_table.rs:48-84 | with the description written as `descr` and the flags read by presence, every entry round-trips |
| SymbolLibTables.SerializeSymbolLibTable | src/kicad/model/symbol_lib_table.rs:21-35 | the serializer's loop writes the version first and then one node per library as the source writes it (description under `description`), in order |
| SymbolLibTables.ReadSymbolLibTable | src/kicad/model/symbol_lib_table.rs:37-45 | the intended table reader: a table is read exactly when the version and every `lib` child read; it has one library per `lib` child, in order |
| SymbolLibTables.SymbolTableRoundTrip | src/kicad/model/symbol_lib_table.rs:20-46 | with the corrected entries, every table reads back unchanged |
| SymbolLibTables.ReadSymbolLibTableAsWritten | src/kicad/model/symbol_lib_table.rs:37-45 | `SymbolLibTable::deserialize`: a table is read exactly when the version and every `lib` child read as written; it has one library per `lib` child, in order |
| SymbolLibTables.AsWrittenTableRejectsOwnOutput | src/kicad/model/symbol_lib_table.rs:20-83 | a table with at least one library never reads back as written |
| SymbolUtils.WithHiddenProperty | src/kicad/model/symbol_utils.rs:5-21 | the symbol after `add_hidden_property`: exactly one property is appended after the existing ones and no other field changes; the new property has the given key and value, no id, position (0, 0) with angle 0, is not hidden itself, and its text effects are the default ones with `hide` set |
| SymbolUtils.WithProperty | src/kicad/model/symbol_utils.rs:23-36 | the symbol after `add_property`: exactly one property is appended and no other field changes; it has the given key and value, no id, position (x, y) with angle 0, default (visible) text effects, and is not hidden |
| SymbolUtils.SymbolEditor.AddHiddenProperty | src/kicad/model/symbol_utils.rs:5-21 | the in-place append: the edited symbol becomes exactly WithHiddenProperty of the old one |
| SymbolUtils.SymbolEditor.AddProperty | src/kicad/model/symbol_utils.rs:23-36 | the in-place append: the edited symbol becomes exactly WithProperty of the old one |
| SymbolUtils.ReadBackExtended | src/kicad/model/symbol_utils.rs:23-36 | what a symbol reads back as commutes with appending one property |
| SymbolUtils.AddedPropertyReadsBack | src/kicad/model/symbol_utils.rs:23-36 | a symbol with a property added by `add_property`, written and read back, carries the new property after the earlier ones |
| SymbolUtils.HiddenPropertyReadsBack | src/kicad/model/symbol_utils.rs:5-21 | a symbol with a property added by `add_hidden_property`, written and read back, carries the new property after the earlier ones |
| FootprintUtils.WithHiddenProperty | src/kicad/model/footprint_utils.rs:5-19 | the footprint after `add_hidden_property`: exactly one property is appended and no other field changes; it has the given key, value Some(value), position `at` (0, 0, 0), layer F.Fab, no uuid, hidden and unlocked set to Some(true), and default text effects with `hide` set |
| FootprintUtils.FootprintEditor.AddHiddenProperty | src/kicad/model/footprint_utils.rs:5-19 | the in-place append: the edited footprint becomes exactly WithHiddenProperty of the old one |
| FootprintUtils.AddKeepsRereadable | src/kicad/model/footprint_utils.rs:5-19 | adding a hidden property keeps a footprint inside the class of footprints that print, parse and read back |
| FootprintUtils.HiddenPropertyReadsBack | src/kicad/model/footprint_utils.rs:5-19 | a footprint with a hidden property added (non-empty value), printed, parsed at the token level and read back, ends with exactly that property after the earlier ones |

## Left out

- Numbers: every finite `f32` is an exact `real`. Rounding to the nearest `f32` and overflow to infinity are not modelled. Neither is the narrowing of JSON numbers (`as_f64() as f32`).
- Common.IdRoundTrip: proves that every `u32` id reads back, because the model keeps numbers exact. In the source an id above 2^24 passes through an `f32` and can be rounded.
- Tokenizer.IsCharIdentifierOrNumeric: accepts ASCII letters and digits only, where Rust's `char::is_alphanumeric` accepts every Unicode letter and digit. The model therefore differs on text with a non-ASCII letter or digit:
  - on `(aé)` the model ends the run at `é` and panics (invalid identifier), where the source reads the identifier `aé`;
  - on `(é)` the model drops `é`, where the source reads it as an identifier.
- Numbers.NumberText: prints whole numbers as `f32::to_string` does. Other values print their decimal expansion, cut after 17 digits, rather than the shortest digits that round-trip.
- `stringify_tokens` (src/kicad/syntax.rs:313-419) is not modelled as text: its newlines and indentation are cosmetic, and printing is modelled as tokens separated by spaces. One thing it does is not cosmetic: it writes a quoted string as its text between two quotes, with no escaping (syntax.rs:392-393). The tokenizer ends a string at the first quote (syntax.rs:186-196), so a text holding `"`, such as `0.1" pitch`, does not read back; Tokenizer.LexQuoteInsideText proves the cut. The round trips below are stated on the tokens and do not cover such texts.
- serde_json's text parsing is not modelled. The footprint parser takes it as its `json` parameter (a line to an optional array of JSON values), and the record readers start from parsed values. A line serde refuses is the `JsonError` outcome, without its message.
- HashMap iteration order is not modelled. The EasyEDA footprint's tables are maps keyed by id, and a deserialized layer list is stated as a set.
- Error payloads are dropped:
  - the `{:?}` text inside `IncorrectUnitFormat`, `IncorrectUnitNumIdentifier` and `IncorrectUnitName`;
  - the pad that `UnsupportedPadShape` dumps;
  - the message of `FormatError`.
- EasyedaCommon.DebugText: escapes only quotes, backslashes, line feeds, carriage returns, tabs and NUL. Rust's `{:?}` also escapes the other control characters and some non-printable Unicode.
- The trigonometry of arcs and rotations is not modelled: `get_arc_center`, `get_point_on_arc`, `get_arc_length`, `interpolate_arc_points`, and the cosine and sine of a rectangle's rotation. The shape functions take it as their `Geometry` parameter.
- `PrimitivesContainer` is not part of this model's sources. It is modelled by the `EasyedaShapes.ShapeSink` class, whose `add_*` methods append to five lists.
- `PcbLayer`'s own serializer is not part of this model's sources. Graphics use it for their `layers` child. The model takes it as the `Graphical.LayerCodec` parameter and assumes only that it writes a `layers` node that it reads back.
- `TextPosition` (src/kicad/model/symbol_library.rs:82, 672) is not part of this model's sources. It is modelled as `Common.Position`: x, y and an optional angle.
- A symbol's `beziers` and `objects` fields are not modelled. symbol_library.rs never writes or reads them. For an `OBJ` element, the symbol conversion checks only that there is a current symbol; the object itself is not stored.
- The KiCad footprint element records (`fp_line`, `fp_poly`, `fp_circle`, `fp_rect`, `fp_arc`, `fp_text`, `pad`, `zone`) are kept in the library as the syntax nodes they were read from. Of their own serializers only `fp_rect`'s is modelled, as `FootprintRectangles`, because the converter's rectangles go through it; the others are outside this model.
- EasyedaShapes.StandaloneShape: keeps a rectangle's corners as bare points, as the shape lists hold them. The names that `populate_footprint_shapes` gives them on the way into `add_rectangle` are applied by `EasyedaShapes.RectangleRecord`, which builds the `FootprintRectangle` the converter writes.
- FootprintRectangles.RectangleRoundTrip: requires the rectangle not to be locked, because `FootprintRectangle::serialize` never writes the `locked` flag, so a locked rectangle reads back unlocked.
- Most of the EasyEDA footprint's `try_into` (src/easyeda/footprint.rs:165-605) is not modelled: vias, strings, mechanical NPTH fills, and the `Reference`/`Value` properties placed from the bounding box. The pad conversion, the layer mapping, the drill rotation rule and the shape classification are modelled.
- EasyedaPaths.UnrotatedRectangleCovered: the covering property of `expand_bbox_to_shape` is proved for unrotated rectangles only. The computation itself, `EasyedaPaths.ExpandBox`, is modelled for every rotation, with the sine and cosine as its `trig` parameter.
- EasyedaFootprintRecords.ReadRecord: states that the record read equals `DecodeRecord` of the line's kind and elements. It does not state that the decoded record is of the same kind as its tag. That proof unfolds all seventeen record decoders at once and is too costly.
- The footprint's edit timestamp, a `DateTime<Utc>`, is modelled as whole seconds since the epoch (`Footprints.UtcSeconds`), within the range of current chrono releases: 1 January of year -262143 to 31 December of year 262142. The crate version is not part of this model's sources; an older chrono with a range one year wider on each side would accept a few more timestamps.
- `load_and_parse` file reads, `src/main.rs`, `src/dev.rs`, HTTP requests, STEP models and the command line are not modelled. They are I/O and foreign libraries.
- Footprints.LibraryRoundTrip: takes the printed text to tokenize back into the parsed tree node for node. A quoted text holding `"` (`descr`, `tags`, a property key or value) does not: it is printed unescaped and cut at that quote when read (Tokenizer.LexQuoteInsideText). The generator, generator version, model file name and edit timestamp are printed as bare words. The model takes each to come back as the same word, which holds for plain names but not for a word the tokenizer reads as a number; Footprints.TeditWordRereadAsNumber shows a timestamp that does not come back.
- SymbolLibrary.LibRoundTrip: takes every quoted text of the library to hold no `"`: property keys and values, text items, pin names and numbers. The source prints such a quote unescaped, so a text that holds one is cut at that quote when the file is read again (Tokenizer.LexQuoteInsideText).
- FootprintUtils.HiddenPropertyReadsBack: goes through the same token-level round trip as Footprints.LibraryRoundTrip. It therefore takes the key, the value and every other quoted text of the footprint (`descr`, `tags`, property texts) to hold no `"`; a text that does is cut at that quote when the printed file is read again.
- SymbolLibrary.LibRoundTrip: takes the generator name, printed as a bare word, to tokenize back as that word; a generator name that reads as a number would come back as its digits.
- Footprints.LibraryRoundTrip: covers only footprints with no zone connection mode. The reader panics on the node that the writer makes for that mode; Footprints.ZoneConnectFootprintUnreadable proves that failure.

## Findings

| source | as written | input that shows it | evidently intended | confidence | as-written member | corrected member |
|---|---|---|---|---|---|---|
| src/kicad/model/symbol_library.rs:417-485 | the pin writer spells `ClockLow` as `output_low` and `OutputLow` as `clock_low`, and the reader maps each name back literally | a symbol with one pin whose style is `ClockLow`: it reads back as `OutputLow` | each style written under the name the reader maps to it | not executed | SymbolLibrary.PinAsWrittenSwapsLowStyles | SymbolLibrary.PinRoundTrip |
| src/kicad/model/symbol_lib_table.rs:55-79 | an entry's description is written under `description` and read from `descr` | any `sym-lib-table` with one library: reading its own output panics | the key `descr`, as in the footprint table | not executed | SymbolLibTables.AsWrittenTableRejectsOwnOutput | SymbolLibTables.SymbolTableRoundTrip |
| src/kicad/model/symbol_lib_table.rs:58-81 | `disabled`/`hidden` are written as argument-less nodes only when set, but read by unwrapping the node and testing for an argument | an entry with either flag unset: reading panics; an entry with both set: both flags come back false | each flag read as the presence of its node | not executed | SymbolLibTables.AsWrittenFlagsReadFalse | SymbolLibTables.SymbolItemRoundTrip |
| src/kicad/model/footprint_library.rs:730-735 | the `zone_connect` branch looks for a nested `zone_connection` child, which the writer (670-676) never produces | a footprint with `zone_connect` set to any mode: deserializing its own output panics | the code read from the node's own first argument | not executed | Footprints.ZoneConnectFootprintUnreadable | FootprintRecords.ZoneConnectRoundTrip |
| src/easyeda/footprint.rs:653 | with an offset, every `LineTo` becomes a `MoveTo` | a pad path `M 0 0 L 10 0` with an offset: a two-point polygon is added instead of a line | the line moved by the offset and kept as a line | not executed | EasyedaShapes.OffsetLineAsWrittenIsPolygon | EasyedaShapes.OffsetLineKeepsLine |
| src/kicad/model/footprint_library.rs:639-721 | the edit timestamp is written as a bare hexadecimal word, and the tokenizer turns any word that `f32` parsing accepts into a number, whose text the reader then parses as hex | a footprint edited 480 s after the epoch: `tedit` is written `1E0`, read as the number 1, and the timestamp comes back as 1 s | the hexadecimal text written as a quoted string, so that it reads back as itself | not executed | Footprints.TeditWordRereadAsNumber | Footprints.TeditQuotedRoundTrip |
| src/easyeda/footprint.rs:683-692 | an unrotated EasyEDA rectangle becomes an `fp_rect` whose start point is named `center` | any unrotated footprint rectangle: the written `fp_rect` holds a `center` child, on which `FootprintRectangle::deserialize` panics | the start point named `start` | not executed | EasyedaShapes.RectangleRecordUnreadable | EasyedaShapes.CorrectedRectangleRecordRoundTrip |

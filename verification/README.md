# Verified models of the YAML pipeline, AlephBFT shutdown and reliable multicast

A Dafny 4.11 project beside the repository. It models the parts whose behaviour depends on state that no
finite set of examples settles, and proves what they promise. `dafny verify dfyconfig.toml` checks all of it.

What is modelled, and where:

- **YAML text layer** (`yaml/emitter.py` against `yaml/scanner.py`). `TextWriter.Writer` is the emitter's
  writing half with its cursors, column and flags; `TextCursor.Cursor` is the scanner's reading half over the
  buffer. `FlowScalars`, `PlainScalars`, `BlockScalars` and `ScalarTokens` say as functions what the scanner
  reads (sections 9.1 and 9.3 of YAML 1.1); `QuotedReading`, `DoubleQuoting`, `FlowWriting`, `Escapes`, `PlainReading`,
  `BlockReading`, `FoldedReading` and `ScalarReading` prove when this undoes what is written, and show the inputs
  for which it does not. `ScalarAnalysis` is the analysis that decides which style is safe.
- **YAML tokens.** `TokenScanner.Scanner` has the fetchers with indentation, possible simple keys and the queue
  that is inserted into while it is consumed; `TokenQueue` and `TokenNesting` hold the invariants and the layout
  law. What characters spell is a list of lexemes here. `TokenLayout` reads off the positions of the lexemes alone
  which are simple keys, which blocks are open, which tokens are added and which lexemes are mistakes, and
  `LayoutState` shows that the scanner's tables follow these rules.
- **YAML events.** `ParserMachine.Parser` is the pushdown parser, one method to a state; `Grammar` is a
  recursive-descent reference; `Continuations` gives every stack of states a meaning, and `ParserSteps` shows
  that each step keeps it; `GrammarBounds` counts events against tokens. `SyntaxTrees` says which tokens spell which
  trees without parsing anything; `TreesParse` and `TreesFound` prove that the parser accepts exactly these.
- **YAML graphs.** `GraphSerializer.Serializer` and `GraphComposer.Composer` turn a possibly cyclic graph into
  events and back; `Graphs`, `Anchors`, `Serializing` and `GraphRoundTrip` hold the specification and the
  isomorphism. `MergeConstructor.SafeConstructor` flattens merge keys in place; `MergeKeys` specifies that on any
  graph and `MergePrecedence` says on acyclic ones which value wins. `ComposedTrees` reads off the events what
  composing them must give, tags included.
- **YAML emission.** `StreamingEmitter.Emitter` holds events back until it knows enough of the future;
  `EmitterMachine` is the same emitter with the whole future at hand, `EmitterStructure` shows that it accepts
  every well-formed stream, `EmitterLookahead` when events stop waiting, and `EmittableGraphs` that the
  serializer's streams are such. `EmittedTrees` gives the syntax trees of what is emitted and what the parser makes of
  them, `EmittedTokens` shows over `OutputTokens` that the output is exactly their tokens, and `GraphThroughText`
  takes graphs through all of it and back. `EmitterPlaces` says what is written behind the scalars in every run, and
  `ScalarPlaces` that the scanner reads each of them in its place in the whole output; `SimpleKeys` says
  which simple keys the scanner has given up before it comes to their colon.
- **YAML input.** `StreamReader.Reader` is the lazily filled window over a stream of chunks.
- **Terminator** (`code/alephbft/consensus/src/terminator.rs`). A state machine over the awaits of
  `get_exit` and `terminate_sync` in a tree of components that may crash or grow at any time.
- **Reliable multicast** (`code/alephbft/rmc`, `code/alephbft/crypto`). `MulticastHandler.Handler` and
  `MulticastService.Service` over `Multisignatures`; `MulticastHistory` compares them with a two-line
  specification over any sequence of inputs, and `MulticastNetwork` adds faulty nodes.
- **Scheduler and node sets.** `Scheduler.DoublingDelayScheduler` and the `NodeSubset` codec.

Conventions. Text is a sequence of code points, surrogates included, since Python strings have them; in the text
layer it ends in the NUL the reader appends. An error raised by the source is `None`, `false` or an `Err`; its
message is not modelled. Nodes are known by number, so that sharing and cycles are data. Where a class method
refines a function, the function is independent of loops and buffers and is what the lemmas are about.

Where code and documentation differ, the code is followed: YAML 1.1 counts U+10FFFF as printable, but the analysis
compares with `< '\U0010ffff'`, so that code point always counts as special.

## Model

| member | source | states |
|---|---|---|
| `ScalarAnalysis.AnalyzeScalar` | yaml/emitter.py:626-784 | the flags collected in one pass with two look-behind flags are exactly the conditions stated over all positions of the text: which characters, breaks and indicators it has and where; each style is allowed exactly on those conditions |
| `ScalarReading.ChooseScalarStyle` | yaml/emitter.py:494-513 | the style chosen can be used for this event, in this place, by this analysis (plain: implicit, asked for and allowed by the context, and as a key neither empty nor of several lines; single quotes: allowed, and no key of several lines; block styles: asked for, outside brackets, no key), and it is preferred to every other one that can be |
| `ScalarReading.StyleIsChosenIff` | yaml/emitter.py:494-513 | a style is chosen if and only if it can be used and no style preferred to it can be |
| `TextWriter.Writer.ExpectScalar` | yaml/emitter.py:266-270 | main round trip: for every event style, a scanner no deeper than the scalar's surroundings (at the first key of a block mapping it is still at the block outside) makes one scalar token of the written text, with the same value and plainness, in front of anything that may stand behind it, exactly if the text holds no NEL where the style is single-quoted, literal or folded, and no line that starts with a space is folded where it is folded; with allow_unicode off only the last can happen. A double-quoted simple key is its text escaped character by character. A block scalar needs the scanner at the surroundings' indentation, a split double-quoted scalar one below the width. An implicit text with no style asked for and allowed as plain in its place is written as itself, if it is a simple key or has no spaces. Indentation is restored, and the output is what ScalarPlaces asks of a writer of scalars |
| `TextWriter.Writer.ProcessScalar` | yaml/emitter.py:515-535 | the scalar is written in the style chosen for the analysis of the text, a plain one without splitting as the text itself, and reads back as one token under the same conditions |
| `TextWriter.Writer.WriteDoubleQuoted` | yaml/emitter.py:926-978 | the loop over the mutable cursors and column writes the specified body, which reads back for every text when lines are not split or the indentation is below the width; without splitting it is the text with each character escaped on its own; everything written is printable |
| `TextWriter.Writer.ContinueLine` | yaml/emitter.py:960-978 | the pending run, a backslash, a line break and the indentation, and one more backslash in front of a space; column and cursor move accordingly |
| `DoubleQuoting.BodyReads` | yaml/emitter.py:926-978 | by induction over the rounds: what is written so far reads as what has been passed, and in the end as the text |
| `DoubleQuoting.SplitTextsReadBack` | yaml/emitter.py:926-978 | with splitting, from every column, all texts read back exactly when the indentation is below the width; at and beyond it a text is given that comes back with a backslash more |
| `TextWriter.Writer.WriteSingleQuoted` | yaml/emitter.py:854-906 | the loop over runs and cursors writes, character by character, the specified body: doubled quotes, a new line for a single space beyond the width, runs of breaks with the indentation behind them. every text the analysis allows for this style whose breaks are line feeds and separators reads back: doubled quotes, folded spaces, runs of breaks with the extra one for the fold |
| `TextWriter.Writer.WriteLiteral` | yaml/emitter.py:1045-1078 | for every text, what is written is the hints, a break and the lines, each non-empty one behind the indentation, each line feed replaced by the configured break; the stream stays open at the end exactly for the keep hint |
| `TextWriter.Writer.WriteFolded` | yaml/emitter.py:991-1043 | for every text, the loop over the cursors, the column and the leading-space flag writes the hints, a break and the specified lines: a single space beyond the width becomes a new line, a run of breaks between two lines without leading space is one longer; the stream stays open at the end exactly for the keep hint |
| `TextWriter.Writer.WritePlain` | yaml/emitter.py:1080-1137 | the loop over runs and cursors writes, character by character, the specified body: the text, with a new line for a single space beyond the width, and the text itself where no line is split. words and foldings are read back to the text by a scanner no deeper than the writer, and the first word stands unbroken at the start |
| `TextWriter.Writer.WriteIndent` | yaml/emitter.py:814-825 | the column afterwards is the indentation, behind a line break exactly where one is needed |
| `TextWriter.Writer.WriteIndicator` | yaml/emitter.py:800-812 | the indicator, a space in front exactly when asked for and missing, and the flags afterwards |
| `TextWriter.Writer.IncreaseIndent` | yaml/emitter.py:146-154 | the old indentation is pushed and the new one is a step deeper, none at the top of a block, the same where indentless |
| `Escapes.HexReads` | yaml/emitter.py:951-957 | the fixed-width hexadecimal digits of a code are hex digits of that width and have that value |
| `Escapes.ReadsEscape` | yaml/emitter.py:908-957 | every character's escape, by letter or by code, is read back as that character |
| `FlowScalars.EscapedItself` | yaml/scanner.py:1158-1183 | the escapes of space, tab, quote, slash and backslash read as the character, also those the emitter never writes |
| `FlowScalars.QuotedEnds` | yaml/scanner.py:1134-1156 | whatever text a quoted scalar is read from, it ends with its closing quote, and no line in it starts with a document separator |
| `QuotedReading.ReadsContinuation` | yaml/scanner.py:1185-1226 | an escaped line break with the indentation behind it reads as nothing |
| `QuotedReading.ReadsGuarded` | yaml/emitter.py:969-977 | a backslash in front of a run that starts with a space reads as the run |
| `QuotedReading.ReadsBreaks` | yaml/scanner.py:1228-1250 | a run of breaks as the emitter writes it, one more if it starts with a line feed, reads as the run |
| `QuotedReading.ReadsFold` | yaml/scanner.py:1228-1250 | a single break with the indentation behind it reads as a space |
| `QuotedReading.ReadsThen` | yaml/scanner.py:1185-1226 | texts that read back do so when written behind one another, unless blanks of one meet blanks of the other |
| `PlainReading.AllowedIsPlainWritable` | yaml/emitter.py:727-784 | what the analysis allows as plain, in block or flow, has only words and single gaps in which no character stops the scan |
| `PlainReading.StartsPlainScalar` | yaml/scanner.py:731-748 | such a text starts no other token, whatever the context and whatever stands behind it |
| `PlainReading.NextWord` | yaml/scanner.py:1311-1346 | a further word behind a gap, on the same line or folded, is read with the gap's value |
| `PlainReading.EndsPlainBehind` | yaml/scanner.py:1270-1309 | what ends a plain scalar: the end of the text, a value indicator, a flow indicator, the same behind spaces as after a complex key in braces, or on a new line, and a line that is less indented or a document separator |
| `PlainReading.PlainIsClean` | yaml/scanner.py:1270-1309 | whatever text a plain scalar is read from, the value holds no comment, no value indicator and in brackets no flow indicator, and neither starts nor ends with white space |
| `BlockReading.HintsRead` | yaml/emitter.py:980-989 | the hints are read back as the chomping and the indentation they were chosen for |
| `BlockReading.LiteralReads` | yaml/scanner.py:976-1050 | a literal scalar written with its hints comes back unchanged, with leading spaces and breaks, line feeds and separators mixed, and in the three chomping modes; the scan stops at what is less indented |
| `FoldedReading.FoldedReads` | yaml/scanner.py:976-1050 | a folded scalar written with its hints is read without error, and as the text exactly if the walk along its lines meets no fold in a line that starts with a space |
| `FoldedReading.FoldedLinesRead` | yaml/scanner.py:1005-1040 | line by line, for every text the analysis allows: folds and runs of breaks come back, or the value differs from the text in some place |
| `FoldedReading.FoldsALineIff` | yaml/emitter.py:1019-1022 | that walk is a condition on the text alone: some line starts with a space and holds a single space further behind its start than the width leaves room for |
| `FoldedReading.SegmentFacts` | yaml/emitter.py:1019-1022 | what is written on one line ends at the first break or the first single space beyond the width |
| `ScalarReading.DoubleIsOneScalar` | yaml/scanner.py:1134-1156 | a double-quoted body that reads back is one scalar token in every context |
| `ScalarReading.SingleIsOneScalar` | yaml/scanner.py:1134-1156 | a single-quoted body that reads back is one scalar token in front of anything but a quote |
| `ScalarReading.LiteralIsOneScalar` | yaml/scanner.py:640-649 | a written literal scalar is one scalar token in the block context |
| `ScalarReading.FoldedIsOneScalar` | yaml/scanner.py:640-649 | a written folded scalar is one scalar token with the value of the text if and only if no line that starts with a space was folded |
| `ScalarReading.FoldedIsLost` | yaml/emitter.py:1019-1022 | the failing input: at every indentation and width there is a text that the analysis allows and that the scanner reads back, from what write_folded makes of it, as another value |
| `ScalarReading.PlainIsOneScalar` | yaml/scanner.py:668-679 | a written plain scalar is one plain scalar token |
| `ScalarReading.NelIsLost` | yaml/scanner.py:1416-1435 | no single-quoted, literal or folded text whatever is read as a value with NEL, so a text with NEL never comes back in these styles |
| `ScalarReading.NelComesBackChanged` | yaml/emitter.py:727-784 | the failing input: a, NEL, b is allowed in both styles with allow_unicode on, and comes back with a space from single quotes and with a line feed from a literal |
| `TextCursor.Cursor.Forward` | yaml/reader.py:99-112 | the pointer moves over the characters and the column counts them without byte order marks |
| `TextCursor.Cursor.ScanLineBreak` | yaml/scanner.py:1416-1435 | CR LF, CR, LF and NEL become a line feed, LS and PS stay, anything else is no break; the pointer moves accordingly |
| `TextCursor.Cursor.ScanFlowScalarNonSpaces` | yaml/scanner.py:1185-1226 | one round reads a run, a quote pair, an escape or an escaped break as the specification's steps do, and fails where they fail |
| `TextCursor.Cursor.ScanFlowScalarSpaces` | yaml/scanner.py:1228-1250 | blanks and breaks fold as specified; a document separator or the end of the text is an error |
| `TextCursor.Cursor.ScanFlowScalarBreaks` | yaml/scanner.py:1252-1268 | the breaks collected and the position behind them, or the error at a document separator |
| `TextCursor.Cursor.ScanFlowScalar` | yaml/scanner.py:1134-1156 | the loops over the buffer compute the specification's value, position and errors |
| `TextCursor.Cursor.ScanPlain` | yaml/scanner.py:1270-1309 | the loops over the buffer compute the specification's value and position |
| `TextCursor.Cursor.ScanPlainSpaces` | yaml/scanner.py:1311-1346 | the gap behind a word, folded where it has breaks |
| `TextCursor.Cursor.ScanBlockScalar` | yaml/scanner.py:976-1050 | header, detected or given indentation, lines and chomping as specified, errors included |
| `TextCursor.Cursor.ScanBlockScalarIndicators` | yaml/scanner.py:1052-1090 | chomping and increment in either order, errors included |
| `TextCursor.Cursor.ScanBlockScalarIndentation` | yaml/scanner.py:1106-1119 | the leading breaks and the deepest indentation among them |
| `TextCursor.Cursor.ScanBlockScalarBreaks` | yaml/scanner.py:1121-1132 | the breaks between lines, skipping no more than the indentation |
| `TextCursor.Cursor.FetchScalar` | yaml/scanner.py:238-256 | the scalar token at the pointer, or none, as specified |
| `TokenScanner.Scanner.ScanAll` | yaml/scanner.py:135-141 | over a whole text: an error if and only if some lexeme is a mistake by the layout rules. Otherwise the tokens handed out are those the text spells, each once and in order, and the KEYs and starts of blocks that the layout rules give, at their indices and columns, each directly in front of what it belongs to; and if the flow brackets match, the layout law holds and nothing is open at the end: outside brackets every token stands in blocks at most as deep as its column, entries and KEYs at the column of theirs, and a BLOCK-END stands exactly where the column falls below the innermost block |
| `TokenScanner.Scanner.GetToken` | yaml/scanner.py:135-141 | a token is handed out only when it can no longer become a simple key, so later insertions stay inside the queue |
| `TokenScanner.Scanner.NeedMoreTokens` | yaml/scanner.py:145-154 | more is fetched exactly while nothing is queued or the next token is a possible simple key; an error only if the next lexeme is a mistake |
| `TokenScanner.Scanner.FetchMoreTokens` | yaml/scanner.py:156-260 | one lexeme is taken, with an error if and only if it is a mistake by the layout rules; its token is queued, and queue, keys, indentations, flow level and permission for keys are again what the layout rules make of the lexemes so far |
| `TokenScanner.Scanner.Approach` | yaml/scanner.py:158-166 | in front of the dispatch: keys that are too far away are gone, no block is deeper than the lexeme, and a key starting here would be required exactly if a block is open at its column |
| `TokenScanner.Scanner.Fetch` | yaml/scanner.py:169-256 | each lexeme is refused exactly if it drops a required key or starts an entry where none may start; else it puts its token at the end of the queue, adds the KEY and the start of a block that are due and nothing else, changes the flow level by its bracket, keeps or drops the key of its level, and allows a key behind it exactly as its fetcher says |
| `TokenScanner.Scanner.FetchValue` | yaml/scanner.py:545-599 | with a possible simple key, KEY (and BLOCK-MAPPING-START where the key opens a mapping) stands in front of the very token that started it; otherwise as for an explicit value, an error exactly where no key is allowed outside brackets; every key left still points at its queued token |
| `TokenScanner.Scanner.FetchBlockIndicator` | yaml/scanner.py:484-543 | BLOCK-ENTRY and KEY open a block exactly when deeper than the indentation; an error exactly where no key is allowed outside brackets or a required key is dropped |
| `TokenScanner.Scanner.FetchFlowCollectionStart` | yaml/scanner.py:430-445 | the level rises and the bracket may itself start a key of the outer level |
| `TokenScanner.Scanner.FetchFlowCollectionEnd` | yaml/scanner.py:453-468 | the level falls and no key stays above it |
| `TokenScanner.Scanner.FetchStreamEnd` | yaml/scanner.py:371-388 | at flow level 0 every open block is closed in front of STREAM-END and no key is left |
| `TokenScanner.Scanner.FetchAtMargin` | yaml/scanner.py:408-422 | directives and document indicators close every block at flow level 0 |
| `TokenScanner.Scanner.FetchKeyStarter` | yaml/scanner.py:601-632 | alias, anchor, tag and scalar tokens save a possible key that points at them |
| `TokenScanner.Scanner.UnwindIndent` | yaml/scanner.py:325-347 | one BLOCK-END for each level deeper than the column, no more and no fewer, and none in the flow context |
| `TokenScanner.Scanner.StalePossibleSimpleKeys` | yaml/scanner.py:279-293 | exactly the keys on an earlier line or too far back are dropped; an error exactly if one of them is required |
| `TokenScanner.Scanner.NextPossibleSimpleKey` | yaml/scanner.py:264-277 | the loop finds the least token number of the possible keys |
| `TokenQueue.LeastLevelIsNearest` | yaml/scanner.py:264-277 | the key of the least flow level is the nearest one, so the commented-out shortcut equals the loop |
| `TokenQueue.Queue.InsertKey` | yaml/scanner.py:549-567 | inserting KEY, behind BLOCK-MAPPING-START if the key is deeper than the innermost block, keeps the keys in order and pointing at their tokens, the layout law with one block more open, and that neighbours fit |
| `TokenQueue.Queue.TakeKeeps` | yaml/scanner.py:135-141 | handing out the first token keeps everything, if no key points at it |
| `TokenLayout.WaitingOnce` | yaml/scanner.py:103-109 | by the layout rules at most one key waits on each flow level |
| `TokenLayout.WaitingForbids` | yaml/scanner.py:93-101 | outside brackets no entry may start behind a key that waits on its line |
| `LayoutState.KeysFetched` | yaml/scanner.py:295-323 | the possible keys are at every lexeme exactly the keys that wait and are required or near |
| `LayoutState.ValueKey` | yaml/scanner.py:545-599 | at a colon a key of its level is possible exactly if the layout rules give the colon a simple key, which is that one |
| `LayoutState.DropIsMissed` | yaml/scanner.py:312-321 | a required key is dropped exactly if the lexeme misses it by the layout rules |
| `LayoutState.BlockStep` | yaml/scanner.py:325-355 | which columns have a block open behind a lexeme: those not deeper than it, and the one it opens |
| `LayoutState.AgreesNext` | yaml/scanner.py:156-260 | each lexeme takes the state that the layout rules make of those before it to the state they make of it as well |
| `ParserMachine.Parse` | yaml/__init__.py:40-49 | on every token list framed by one STREAM-START and one STREAM-END: it succeeds if and only if the tokens are the spelling of well-formed syntax trees of the grammar, with the events of exactly those trees; before an error it has emitted what the recursive-descent reference has; at most four events to a token |
| `TreesParse.StreamParses` | yaml/parser.py:2-60 | completeness, said without the parser: every well-formed list of syntax trees (block and flow collections, indentless sequences, single pairs, properties in either order, empty nodes spelled as nothing, KEY and VALUE each optional where the grammar has it so), spelled as tokens, is parsed to the nodes it means, to its last token |
| `TreesFound.AcceptedIsSpelled` | yaml/parser.py:2-60 | with the converse: the parser accepts a token list if and only if it is the spelling of well-formed syntax trees |
| `SyntaxTrees.TextSpellsTokens` | yaml/scanner.py:545-599 | the tokens of syntax trees are those their text spells, and besides only the KEYs and the starts and ends of blocks that the scanner adds |
| `ParserMachine.Parser.Step` | yaml/parser.py:94-112 | one state function turns what is still to come, by the grammar, into one event and what is then to come; states, marks and token position fit the state |
| `ParserMachine.Parser.PeekEvent` | yaml/parser.py:107-112 | the event that is due; at the end no state and no mark is left |
| `ParserMachine.Parser.GetEvent` | yaml/parser.py:114-121 | the event that is due is taken; an error exactly where the grammar has one |
| `ParserMachine.Parser.ParseStreamStart` | yaml/parser.py:127-137 | the stream starts and all its documents are to come |
| `ParserMachine.Parser.ParseImplicitDocumentStart` | yaml/parser.py:139-157 | a document without its indicator is opened, or the explicit case follows |
| `ParserMachine.Parser.ParseDocumentStart` | yaml/parser.py:159-188 | the next document or the end of the stream, with no state and no mark left there |
| `ParserMachine.Parser.ParseDocumentEnd` | yaml/parser.py:190-206 | the end of a document, explicit or not |
| `ParserMachine.Parser.ProcessDirectives` | yaml/parser.py:217-246 | the handles in force, the defaults added where not given; errors for a repeated or wrong version and a repeated handle |
| `ParserMachine.Parser.ParseNode` | yaml/parser.py:273-372 | alias, properties, scalar, empty scalar or the start of a collection, and what follows by the grammar |
| `ParserMachine.Parser.ParseAnchorAndTag` | yaml/parser.py:284-313 | anchor and tag in either order, and the tag resolved by its handle or an error |
| `ParserMachine.Parser.ParseBlockSequenceEntry` | yaml/parser.py:381-398 | an entry, an empty one, the end, or an error, as the grammar has it |
| `ParserMachine.Parser.ParseIndentlessSequenceEntry` | yaml/parser.py:402-415 | the same without an end token |
| `ParserMachine.Parser.ParseBlockMappingKey` | yaml/parser.py:427-444 | a key, an empty one, the end, or an error |
| `ParserMachine.Parser.ParseBlockMappingValue` | yaml/parser.py:446-458 | a value, or an empty one in front of KEY, VALUE or the end of the block, as the grammar has it, which TreesParse shows to be as the syntax trees have it |
| `ParserMachine.Parser.ParseFlowSequenceEntry` | yaml/parser.py:476-500 | an entry, a single-pair mapping, the end, or an error where a comma is missing |
| `ParserMachine.Parser.ParseFlowSequenceMappingKey` | yaml/parser.py:502-510 | the key of a single pair |
| `ParserMachine.Parser.ParseFlowSequenceMappingValue` | yaml/parser.py:512-524 | the value of a single pair |
| `ParserMachine.Parser.ParseFlowMappingKey` | yaml/parser.py:542-567 | a key, a key alone, the end, or an error where a comma is missing |
| `ParserMachine.Parser.ParseFlowMappingValue` | yaml/parser.py:569-581 | the value of a pair |
| `ParserSteps.NodeMoves` | yaml/parser.py:273-372 | what a node means to the machine in every case |
| `Continuations.ChainAfter` | yaml/parser.py:381-397 | pushing a state onto the stack puts what it means behind what is parsed first |
| `GrammarBounds.StreamBound` | yaml/parser.py:94-125 | the events of a token list, or those before its error, are at most four to a token although several states consume none |
| `GraphRoundTrip.GraphRoundTrips` | yaml/composer.py:50-138 | composing what was serialized from any rooted graph, shared or cyclic, succeeds and gives an isomorphic graph: nodes in the order they are first met, with the same kinds, tags, values, flow styles and links, and the tag left out only where it resolves to itself |
| `GraphThroughText.GraphComesThrough` | yaml/composer.py:50-138 | the round trip with what the emitter leaves out: composing the delivered tree of any serialized graph, without the tags that the chosen styles imply, gives as many nodes as are reachable, in the order they are first met, with the same values, links and tags; only a tag '!' may have become what the resolver answers |
| `GraphThroughText.GraphIsParsedBack` | yaml/__init__.py:51-60 | with the parser in between: the tokens that spell the emitted graph are parsed to one document, and what is composed of it is the graph, unless the document is an empty one that leaves no token |
| `Anchors.AnchorsMarkSharedNodes` | yaml/serializer.py:60-72 | the walk reaches exactly the reachable nodes; a node has an anchor exactly when it is referred to more than once, the root counting once from outside; no two anchors are the same |
| `Anchors.AnchorTextInjective` | yaml/serializer.py:74-76 | different numbers make different anchors |
| `Graphs.ReachableIsLeastClosed` | yaml/serializer.py:60-72 | the nodes met are the least set that holds the root and is closed, each met once |
| `GraphSerializer.Serializer.Serialize` | yaml/serializer.py:46-58 | one document is emitted, the event tree of the graph, and the tables are empty again |
| `GraphSerializer.Serializer.AnchorNode` | yaml/serializer.py:60-72 | the recursive walk over the mutable table is the specified one and ends on cycles |
| `GraphSerializer.Serializer.SerializeNode` | yaml/serializer.py:78-110 | an alias for a node written before, else the node with its children; the nodes written are those first met |
| `GraphComposer.Composer.ComposeDocument` | yaml/composer.py:50-61 | on the events of any document tree: an error exactly for an undefined alias or a repeated anchor; else as many nodes as start in the tree, in that order, each with its value or the numbers of its children, an alias as the number of the node with its anchor, and with the tag given, if there is one and it is not '!', else what the resolver answers for its own value and flags; the rest of the events is untouched |
| `ComposedTrees.DocumentComposes` | yaml/composer.py:63-138 | that statement for the specification, by numbering the starts of nodes in the events |
| `GraphComposer.Composer.ComposeNode` | yaml/composer.py:63-86 | the same for a node, with the anchors so far |
| `GraphComposer.Composer.ComposeSequenceNode` | yaml/composer.py:99-115 | the node is known under its anchor before its items are, so cycles close |
| `GraphComposer.Composer.ComposeMappingNode` | yaml/composer.py:117-138 | the same for keys and values |
| `EmittableGraphs.GraphIsEmitted` | yaml/serializer.py:46-110 | what is serialized from any graph with given tags the emitter accepts: every anchor is well formed, every alias has one, no error is raised and the stacks are empty at the end |
| `MergeKeys.FlattenSettles` | yaml/constructor.py:180-213 | on every node graph, even when mappings merge themselves, flattening leaves no merge key in the node, changes only mappings' pairs and value-key tags, and a second time changes nothing |
| `MergeKeys.TotalAfterDelete` | yaml/constructor.py:182-187 | each merge entry taken out lowers the number of merge entries in the whole graph by one, which bounds the recursion |
| `MergePrecedence.FlattenComputesFlat` | yaml/constructor.py:180-213 | where merges have no cycles, flattening in place fails exactly when the reference does, gives its pairs, and changes the flattened pairs of no other node |
| `MergePrecedence.FlatPrecedence` | yaml/constructor.py:180-213 | looking a key up in the flattened pairs: explicit keys come before merged ones, earlier mappings of a merge list before later ones, later merge keys before earlier ones |
| `MergeConstructor.SafeConstructor.FlattenMapping` | yaml/constructor.py:180-213 | the loop that deletes entries in place and recurses computes the specified store and ends |
| `MergeConstructor.SafeConstructor.ConstructMapping` | yaml/constructor.py:132-145 | the dictionary holds exactly the last value of every key of the flattened pairs; an error exactly for a node that is no mapping, a bad merge or a key without a hash |
| `MergeConstructor.ConstructedByPrecedence` | yaml/constructor.py:215-218 | every key of the constructed dictionary has the value the precedence rules give |
| `Terminator.Barrier` | code/alephbft/consensus/src/terminator.rs:79-166 | in every run without crashes over any tree: when any component is past its wait for permission, or the root has begun to give permits, every component has received its exit and has reported |
| `Terminator.NoDeadlock` | code/alephbft/consensus/src/terminator.rs:79-166 | once the root's exit is sent or dropped, in every reachable state, whatever has crashed, some live component can take its next step as long as one is left |
| `Terminator.BoundedRuns` | code/alephbft/consensus/src/terminator.rs:79-166 | a run has at most seven moves and ten more for every component added |
| `Terminator.InvAlways` | code/alephbft/consensus/src/terminator.rs:55-76 | in every run: each component hangs below its parent, and its channels are open exactly as long as their senders still wait |
| `Terminator.ExitAnswers` | code/alephbft/consensus/src/terminator.rs:55-76 | what get_exit returns, in every run: an error only below a parent that has crashed, Ok only below one whose own exit has come; and Ok for sure, exactly when it is past sending, below a parent that has not crashed |
| `Terminator.AnswerStays` | code/alephbft/consensus/src/terminator.rs:60-67 | an exit that was sent or closed stays that for the rest of the run, so that get_exit may keep its first answer |
| `Terminator.AllHaveReported` | code/alephbft/consensus/src/terminator.rs:105-128 | when the root is past gathering, every component has reported |
| `Terminator.MoveTakesAway` | code/alephbft/consensus/src/terminator.rs:79-166 | every move but adding a component takes away at least one of the steps left |
| `MulticastHistory.DoneExactlyWhenSeen` | code/alephbft/rmc/src/handler.rs:50-130 | after any sequence of starts and messages, valid, invalid, repeated and in any order, a hash is complete exactly when a valid complete multisignature has arrived or at least the threshold of distinct valid signers has been seen |
| `MulticastHistory.ReturnedOnce` | code/alephbft/rmc/src/handler.rs:50-130 | each hash is returned as completed exactly once if it is complete, else never |
| `MulticastHistory.QuorumCompletes` | code/alephbft/crypto/src/node.rs:87-89 | the signatures of the honest nodes alone complete a hash when fewer than a third are faulty |
| `MulticastNetwork.MultisignedWasStarted` | code/alephbft/rmc/src/handler.rs:50-130 | with unforgeable signatures, a hash multisigned at an honest node was started by at least the threshold less the faulty nodes, which is more than the faulty ones |
| `MulticastNetwork.QuorumsMeet` | code/alephbft/rmc/src/handler.rs:50-130 | any two multisigned hashes at honest nodes were started by a common honest node |
| `MulticastService.OneMultisignedBroadcast` | code/alephbft/rmc/src/service.rs:54-109 | over any sequence of inputs exactly one multisigned rebroadcast is scheduled for each completed hash, none for others |
| `MulticastService.OwnSignatureBroadcast` | code/alephbft/rmc/src/service.rs:54-70 | over any sequence of inputs a single signature is put up for broadcast exactly once for each start that leaves its hash incomplete, and it is the node's own |
| `MulticastService.Service.StartRmc` | code/alephbft/rmc/src/service.rs:54-70 | the answer and exactly the broadcast of the specification, due at once |
| `MulticastService.Service.ProcessMessage` | code/alephbft/rmc/src/service.rs:76-109 | the same for a message, due at once; nothing is scheduled for an error or for what is already complete |
| `MulticastHandler.Handler.OnStartRmc` | code/alephbft/rmc/src/handler.rs:50-59 | the new states and the answer: nothing for a complete hash, the multisignature if this completes it, else the node's own signature |
| `MulticastHandler.Handler.OnSignedHash` | code/alephbft/rmc/src/handler.rs:64-77 | an error exactly for an invalid signature; completed exactly when this signature completes the hash |
| `MulticastHandler.Handler.HandleSignedHash` | code/alephbft/rmc/src/handler.rs:79-100 | the state of the hash, and of no other, gains the signature |
| `MulticastHandler.Handler.OnMultisignedHash` | code/alephbft/rmc/src/handler.rs:105-123 | an error exactly for an incomplete or invalid multisignature of a hash not yet complete |
| `MulticastHandler.Handler.AlreadyCompleted` | code/alephbft/rmc/src/handler.rs:125-130 | whether the hash is complete |
| `Multisignatures.BootstrapSigns` | code/alephbft/crypto/src/signature.rs:228-244 | a first valid signature makes a multisignature of exactly that signer, complete exactly at the threshold |
| `Multisignatures.AddSignatureSigns` | code/alephbft/crypto/src/signature.rs:402-422 | a further valid signature adds exactly its signer, duplicates included, and completes exactly at the threshold |
| `Multisignatures.CompleteIsQuorum` | code/alephbft/crypto/src/signature.rs:488-496 | what the keychain accepts as complete holds valid signatures of at least the threshold of distinct nodes |
| `Multisignatures.QuorumsShareHonest` | code/alephbft/crypto/src/node.rs:87-89 | two quorums share an honest node when fewer than a third are faulty |
| `Multisignatures.QuorumIsMostlyHonest` | code/alephbft/crypto/src/node.rs:87-89 | a quorum has more honest nodes than there are faulty ones |
| `Multisignatures.HonestAreQuorum` | code/alephbft/crypto/src/node.rs:87-89 | the honest nodes are a quorum |
| `Scheduler.DoublingDelayScheduler.NextTask` | code/alephbft/rmc/src/scheduler.rs:105-128 | the task yielded is the one due first, not before it is due; due times never decrease; only its own slot fires |
| `Scheduler.DoublingDelayScheduler.NextTasksUntil` | code/alephbft/rmc/src/scheduler.rs:105-128 | for a positive initial delay every due task is reached after finitely many yields, however long the waits are overslept and although a task may be added after each yield: at most as many as there are firings due by then, of the tasks at the start and the added ones |
| `Scheduler.DoublingDelayScheduler.WithTasks` | code/alephbft/rmc/src/scheduler.rs:73-87 | every task is in the table and in the heap once, its first firing spread over the initial delay from the clock reading taken for it |
| `Scheduler.SpreadIsEven` | code/alephbft/rmc/src/scheduler.rs:73-87 | the first firings: the first at once, the others at equal distances of an n-th of the delay, all within it |
| `Scheduler.DoublingDelayScheduler.AddTaskAfter` | code/alephbft/rmc/src/scheduler.rs:89-96 | the task is due after the given time and no other slot changes |
| `Scheduler.NextFiring` | code/alephbft/rmc/src/scheduler.rs:105-128 | the firing behind the k-th is 2^k initial delays later, so the k-th is at the start plus (2^k - 1) initial delays |
| `Scheduler.HeapStep` | code/alephbft/rmc/src/scheduler.rs:105-128 | putting a task back keeps every index in the heap exactly once, at its due time |
| `Scheduler.YieldStep` | code/alephbft/rmc/src/scheduler.rs:105-128 | the least entry belongs to the slot due first, and after it fires heap and table agree again |
| `Scheduler.LaterTasksDoNotDelay` | code/alephbft/rmc/src/scheduler.rs:89-96 | a task added with a later first firing does not lengthen the wait for what is due before |
| `NodeSubset.RoundTripFits` | code/alephbft/crypto/src/node.rs:259-287 | decoding what was encoded gives the set back exactly when its size is below 2^32 |
| `NodeSubset.Canonical` | code/alephbft/crypto/src/node.rs:266-287 | every accepted pair of capacity and bytes is the encoding of what it decodes to: padding bits are zero |
| `NodeSubset.Decode` | code/alephbft/crypto/src/node.rs:267-286 | the loop that pops padding bits accepts exactly the specified pairs and returns the bits |
| `StreamReader.Reader.Peek` | yaml/reader.py:87-92 | the character of the whole text that many places on, however the stream is cut into chunks, and an allowed one |
| `StreamReader.Reader.Prefix` | yaml/reader.py:94-97 | the next characters of the whole text, fewer only at its end |
| `StreamReader.Reader.Forward` | yaml/reader.py:99-112 | the position moves on in the whole text; line and column are functions of what has been passed, a CR LF pair split across chunks included |
| `StreamReader.Reader.Update` | yaml/reader.py:146-175 | the window holds enough characters or all that are left; as long as no error is raised, every character read so far is allowed, and an error is raised only for a text with one that is not |
| `StreamReader.Reader.CheckPrintable` | yaml/reader.py:138-144 | whether every character of the chunk is allowed |
| `StreamReader.Reader.DetermineEncoding` | yaml/reader.py:122-135 | the first chunks are read until the window is ready |
| `StreamReader.Reader.UpdateRaw` | yaml/reader.py:177-185 | a chunk moves from the stream into the raw buffer and the rest of the text is the same |
| `StreamReader.ReaderOf` | yaml/reader.py:59-75 | a text given as a whole is refused exactly if it holds a character that is not allowed |
| `StreamReader.PositionStep` | yaml/reader.py:99-112 | whether a line ends can be seen in the window exactly as in the whole text |
| `StreamingEmitter.EmitAll` | yaml/emitter.py:111-116 | over any well-formed stream with valid anchors and tags, given event by event, no error is raised, all stacks are empty at the end, and the whole output is a list of tokens with white space between them: they are the spelling of the events as syntax trees, in order (brackets, dashes, question marks, colons, commas, anchors and aliases with their names, tags, scalars, document indicators), and at each of them the scanner starts a token of that kind |
| `StreamingEmitter.Emitter.Emit` | yaml/emitter.py:111-116 | events are handled in order, at most three stay queued, none behind the end of the stream, and an error is raised only where the offline emitter raises one; when the end of a document of a well-formed stream has been given, nothing is queued and all stacks are empty. What the handlers write is in the row of EmitAll |
| `StreamingEmitter.Emitter.NeedMoreEvents` | yaml/emitter.py:120-131 | more is needed exactly while the first event looks further ahead than is known |
| `StreamingEmitter.Emitter.NeedEvents` | yaml/emitter.py:133-144 | the loop stops exactly where the level falls below zero or the stream ends |
| `StreamingEmitter.Emitter.Dispatch` | yaml/emitter.py:160-455 | the state methods on the mutable fields do what the handlers of the offline emitter do |
| `StreamingEmitter.HandlesOne` | yaml/emitter.py:111-144 | every test for an empty sequence, mapping or document answers as if the whole future were known |
| `StreamingEmitter.NextMatters` | yaml/emitter.py:232-455 | only events that wait have a handler that looks at the next event |
| `EmitterStructure.NodeRuns` | yaml/emitter.py:232-420 | every node is accepted, in every context, and the machine behind its events, whatever event comes next, has the stacks of states and indentations as they were in front of it |
| `EmitterStructure.DocumentRuns` | yaml/emitter.py:175-230 | every document is accepted between documents, and the machine behind its events, whatever event comes next, is between documents again, with empty stacks |
| `EmitterStructure.StreamRuns` | yaml/emitter.py:160-455 | every stream of the grammar with acceptable anchors and tags is emitted without a structural error |
| `EmittedTokens.StreamSpells` | yaml/emitter.py:160-455 | the same for the emitter with the whole stream at hand: every stream with acceptable anchors and tags comes out as the tokens that spell its documents, each started by the scanner where it stands, with one more '...' where the end is open |
| `OutputTokens.PieceScanned` | yaml/scanner.py:169-256 | the first-token rule of the scanner at a token in an output of tokens and white space: a token of the kind written, and for an anchor or an alias the name written, provided that each stands apart from what it would run into |
| `EmittedTrees.PhraseDelivers` | yaml/emitter.py:232-420 | the syntax tree that spells a node in its place is well-formed, and means the node but for the tags and the nodes that are written as nothing |
| `EmittedTrees.DocumentsDelivered` | yaml/emitter.py:160-230 | what is written for a stream is well-formed, and parsed to its documents, if and only if the first document is not an empty one that leaves no token |
| `EmittedTrees.NullIsLost` | yaml/emitter.py:160-230 | the failing input: an empty plain scalar as the only node of the only document, without explicit start or end, leaves no token, and the parser finds no document |
| `EmitterLookahead.DocumentEndEndsWaits` | yaml/emitter.py:120-144 | whatever event is first in the queue, none waits any longer when the end of a document has been given |
| `EmitterPlaces.ShapeAlways` | yaml/emitter.py:160-455 | in every run the states and the indentations are stacked alike, the indentations growing, block collections below flow collections, and a simple key of a block mapping is no block collection |
| `EmitterPlaces.LineNext` | yaml/emitter.py:175-455 | in every run to the end of the stream, where a new line is due, however many collections end first, the next line is indented no deeper than the surroundings, or is a document separator, or the stream is over |
| `EmitterPlaces.SimpleValueFollows` | yaml/emitter.py:354-412 | behind a simple key, in braces and in a block mapping, a colon with white space is written at once |
| `ScalarPlaces.ScalarsAreFollowed` | yaml/emitter.py:111-455 | in every run to the end of the stream, what is written behind each scalar that is written at all is such that it may stand there for the scanner, in every style, in flow collections, behind simple keys and on new lines |
| `ScalarPlaces.ScalarsReadInPlace` | yaml/emitter.py:111-535 | whole outputs: in every run to the end of the stream each scalar is written as nothing, where it is empty and its style plain, or stands in the output, behind what the events before it have written, as text with the indicator of the style that choose_scalar_style gives for its event and place; and in front of it the scanner makes one scalar token with the value, plain exactly where that style is plain, if and only if the style carries the value (a split double-quoted scalar below the width). The writer of scalars is any that keeps the contract of ExpectScalar |
| `ScalarPlaces.StreamsReadInPlace` | yaml/emitter.py:111-535 | the same for every stream of the grammar with acceptable anchors and tags |
| `ScalarPlaces.TagByStyle` | yaml/emitter.py:469-492 | where the tests of the state machine are those of the analysis, the tag of a scalar is left out exactly where the plainness of the style it is then written in implies it |
| `SimpleKeys.QuotedKeyInTime` | yaml/scanner.py:279-293 | a double-quoted simple key is written on one line and is still a possible key at the colon exactly if its text is at most 1022 characters when escaped, as it always is without characters beyond the basic plane |
| `SimpleKeys.AstralKeyIsLost` | yaml/emitter.py:437-455 | the failing input: 103 characters beyond the basic plane are written as a simple key with allow_unicode off, and the scanner has given the key up at the colon |

## Left out

- TextWriter.Writer.ExpectScalar: what may stand behind a scalar is a premise (ScalarReading.Follows), which ScalarPlaces.ScalarsAreFollowed discharges for every run. Texts that do not come back are in ScalarReading.NelComesBackChanged (the scanner normalises NEL) and ScalarReading.FoldedIsLost (a fold in a line that starts with a space is read as a line feed).
- ScalarPlaces.ScalarsReadInPlace: that the scanner, when it comes to a scalar in block context, has the indentation of the scalar's surroundings is a premise (ScalarPlaces.ScannerAt).
- StreamingEmitter.EmitAll: at each token of the output the scanner starts that token, but the columns and lines of the output are not carried over to TokenLayout, so that the KEYs and blocks the scanner adds are those of the syntax trees is not stated. It is false for some keys: SimpleKeys.AstralKeyIsLost is one that the scanner gives up, because the emitter limits the length before escaping and the scanner the length in the text. Tags are written as what a parameter makes of them, '!' and no white space, which is not compared with scan_tag; `%` directives are not written.
- TextWriter.Writer.WriteDoubleQuoted: with splitting, reading back is promised only at an indentation below the width; deeper, the guarding backslash and a second split can meet, as DoubleQuoting.SplitTextsReadBack shows.
- TokenScanner.Scanner.ScanAll: which lexeme stands at which characters is a parameter; the choice of the token at the characters is PlainScalars.FirstToken, and of scalar tokens ScalarTokens. The layout law is stated where the flow brackets of the text match; where they do not, which the parser reports, the other laws still hold.
- ParserMachine.Parse: a mark is the number of a token, the minor number of `%YAML` is not kept, and tag tokens come as handle and suffix.
- GraphComposer.Composer.ComposeDocument: on events of the grammar, which is all the parser emits; on other event lists nothing is said.
- MergePrecedence.FlatPrecedence: on acyclic merges; on cyclic ones there is no well-founded precedence, and MergeKeys.FlattenSettles says what still holds.
- MulticastService.Service.ProcessMessage: messages are the multicast's two kinds with unchecked signatures; the call is atomic.
- Scheduler.DoublingDelayScheduler.WithTasks: the number of tasks is below 2^32, because the code casts it to u32; overflow of durations and instants is not modelled.
- NodeSubset.Decode: the capacity is what a u32 holds; the length prefix of the byte vector is given.
- EmitterMachine takes the text of scalars and tags (process_scalar, prepare_tag) as a parameter, with whether a scalar has several lines, canonical form and the widths. Indicators and indentation are the same functions in both (EmitterOutput).
- The styles of scalar events and nodes, document versions and tag directives, stream encodings, `%YAML` and `%TAG` text, byte order marks, marks and error messages.
- Byte input: StreamReader starts behind decoding, at chunks of characters.
- Resolution of implicit tags is a function that the serializer and the composer share; path resolvers are absent.
- Construction of Python objects, generators in two-phase construction and deep construction; a key's value is a function of its node.
- Python's recursion limit and its memory; open, close and dispose of the classes.
- Node objects are numbers in a store, so identity is kept but aliasing of Python lists outside the node graph is not; SafeConstructor keeps the gathered lists as values.
- Loops over children in the recursive methods of Serializer and Composer are methods of their own, with the same order of effects.
- The Rust futures: steps between two awaits are atomic, the clock is monotone, cancellation inside a future is absent, and a terminate_sync called before the exit has come counts as a crash. One-shot channels are states of the machine rather than objects.
- BinaryHeap is a multiset whose least element is taken; handle_task_termination, task_queue.rs and config.rs are absent.
- Signing and hashing: a keychain is a predicate that no faulty node can make true for an honest one, and data is identified with its hash.
- NodeMap, SCALE and bit-vector libraries, and NodeSubset's set operations, which are direct.

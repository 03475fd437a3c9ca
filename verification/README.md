# KCLVM core: a verified model

This project models seven parts of the KCLVM compiler and proves what they are for.

* **Package loader** (`LoaderSpec.dfy`, `Loader.dfy`, `LoaderOrder.dfy`, `LoaderPaths.dfy`): the depth-first import
  walk over a shared package map, with an empty module list as the mark of a package in progress and import statements
  rewritten on the way, and what the order of the imports decides. The file system and the parser are finite maps in
  `World`.
* **Lexer** (`LexerSpec.dfy`, `Lexer.dfy`, `LexerTexts.dfy`, `StringGrammar.dfy`, `Relexing.dfy`): the cursor state
  machine, a description of each token that does not move a cursor, what written comments, numbers, strings and words
  are lexed as, a grammar of string literals that does not scan, and the round trip from printed tokens to tokens.
* **Override engine** (`ConfigAst.dfy`, `NestAttr.dfy`, `MultiAssign.dfy`, `OverrideLaws.dfy`, `Override.dfy`,
  `OverrideMarks.dfy`, `OverrideModule.dfy`, `OverrideTwice.dfy`, `ImportPaths.dfy`, `AttrPaths.dfy`): the stateful
  walker that puts or deletes a field path in one target, on trees with duplicate keys, with the passes before it that
  split dotted keys and assignments to several targets, the insertion of import statements, and the listing of paths.
* **Package build cache** (`BuildCache.dfy`, `BuildCacheSafety.dfy`, `BuildCacheRuns.dfy`, `BuildCacheExact.dfy`,
  `BuildCacheSurvival.dfy`, `BuildCacheProgress.dfy`, `BuildCacheCompletion.dfy`): one cache directory of files with
  their names, the locks on them, and atomic steps of any number of compiler processes, in every interleaving.
* **Printers** (`TypePrinter.dfy`, `TypeDecoding.dfy`, `PrettyAst.dfy`, `PrintSpec.dfy`, `Printer.dfy`,
  `PrintUnique.dfy`, `PrintComplete.dfy`): the printed form of types, read back from the right, and the pretty printer
  with its indentation counter and comment queue over the whole syntax tree.
* **From printed text back to tokens** (`PrintLexing.dfy`, `PrintAtoms.dfy`, `PrintItems.dfy`, `PrintCells.dfy`,
  `PrintOk.dfy`, `PrintSteps.dfy`, `PrintTree.dfy`, `PrintMeaning.dfy`): the text of a whole module, in any layout and
  with its comments, is lexed as the tokens of its tree, which are written out for every form.
* **Import path fixing** (`Vfs.dfy`), which the loader applies twice.

`Strings.dfy`, `Numbers.dfy` and `Wrappers.dfy` hold what several parts share. `dafny verify dfyconfig.toml` checks
everything.

## What the code turns out to do

These are the places where the expected property fails, each with the exact condition under which it holds and a
concrete input on which it does not.

* **The cache can return a stale object, or one that is gone.** A set of packages is safe in all interleavings
  exactly when two things hold (`BuildCacheExact.SafeExactlyWhenSteady`). Every package is always a directory under
  the root without files that the loader passes over, or always a single file there, and no override changes it. And
  no names collide in the cache directory. Each way to fail is a run:
  * a directory and a `.k` file of one name: the file is digested and the directory is compiled; a file renamed to
    `_test.k`: the digest of the directory stays; an external package with something at its path under the root:
    that is digested; a vendored package: nothing is (`BuildCacheExact.OneLayoutGoesStale`);
  * a package that turns from a directory into a file and back (`BuildCacheExact.SwitchingFormsGoesStale`);
  * a package that an override changes before it is compiled (`BuildCacheExact.OverriddenGoesStale`);
  * an external package passed by name, whose digest is looked for and never recorded, so that every process builds
    it again and takes the object from those that use it (`BuildCacheExact.NamedOutsideIsRemoved`);
  * the package `info`, whose data file is the digest file (`BuildCacheExact.InfoPackageErasesRecords`);
  * `a` and `a.o`: the data file of one is the object of the other (`BuildCacheExact.DataFileReplacesObject`);
  * `a` and `a.o.lock`, or `info.lock` and two more packages: a data file takes the place of a lock file, and two
    processes hold the lock (`BuildCacheExact.DataFileReplacesLock`, `BuildCacheExact.DataFileReplacesInfoLock`).
* **Entries of the digest file can be lost**, in any layouts: exactly when there is a package `info`, or a package
  `info.lock` with at least two others (`BuildCacheSurvival.SurvivesExactlyWhenNamesKept`).
* **An import can name a package that its request does not find.** A path that is a loaded package already is left
  alone, whoever asks. A settled import is sure to name the package found exactly when its path is looked up or the
  request has the package's own names (`LoaderSpec.NamesWhatItFinds`). With a package `a` of the main program and an
  `a` inside an external package `ext`, the order of imports decides what `import a` inside `ext` becomes
  (`LoaderOrder.SamePathInTwoOrders`). When names are unambiguous among the requests that the program makes
  (`LoaderOrder.Unambiguous`), a run loads exactly the packages that those requests find, every import names the one
  it finds, and the order decides neither (`LoaderOrder.LoadedIsWanted`, `LoaderOrder.NamesItsTarget`,
  `LoaderOrder.ImportsAreFixed`). The program above meets the condition when the package inside `ext` is called `b`
  (`LoaderOrder.OwnNameIsUnambiguous`), and not when it is called `a` (`LoaderOrder.SharedNameIsAmbiguous`).
* **Fixing an import path twice** is the same as fixing it once exactly under a condition on the leading dots and
  the number of segments (`Vfs.FixingTwice`). In a hidden directory `.k` the import `.sub` becomes `.k.sub` and
  then `.k.k.sub` (`Vfs.HiddenDirectoryIsFixedTwice`). In the root directory an import of one leading dot also
  loses its trailing dots, and only there does fixing differ from popping segments (`Vfs.FixedIsStackResolve`).
* **A repeated import path can make the override engine insert past the end** of the module body, which panics;
  `ImportPaths.ApplyImportPaths` gives the exact condition, `ImportPaths.DistinctPathsFit` shows that repeats are
  needed for it, and `ImportPaths.RepeatedPathOverruns` is a module with one import.
* **Assignments to several targets can come out of order.** The pass that splits them inserts the new statements
  in the order of a hash map. The statements come out in place whatever that order is if and only if at most one
  of them has several targets (`MultiAssign.AlwaysInPlace`, for distinct statements);
  `MultiAssign.BackwardsTraversalReorders` has two where they do not. They are the same statements in any case
  (`OverrideModule.StatementsOverridden`).
* **A deleted path can stay in the listing** when another path of the configuration is spelled the same
  (`AttrPaths.DeletedPathIsListedOnlyAsAlias`). When the path `a.b` is deleted, a string key `"a.b"` keeps it listed
  (`AttrPaths.DottedStringKeyStaysListed`).
* **A printed string literal is not always read back.** The printer escapes quotes but not backslashes, and writes
  line breaks as they are. `Relexing.QuotedLexesBack` says exactly for which values one closed token comes back; a
  lone backslash before a quote closes the literal early (`Relexing.BackslashQuoteEndsEarly`).
* **An `else` block that starts with an `if` statement and goes on loses the rest of the block** when printed,
  because it is taken for an `elif`. Every statement of a module is written, in order, if and only if it has no
  such block (`PrintComplete.EveryStatementIsWritten`; a module with one is `PrintComplete.CutModule`, in
  `PrintComplete.ElseBlockIsCut`).
* **A comment before the `elif` of a conditional list item or entry cuts the word in two.** The printer writes `el`
  and then reaches the node, which prints the comments that are due. `PrintMeaning.CommentCutsElif`: the two halves
  are lexed as one word if and only if no comment is due there. `PrintMeaning.ElifIsCut` is a list in which one is.
* **A C-style octal can be marked as an integer without digits**: exactly when nothing but underscores follows its
  first two characters (`Relexing.OctalIsMarkedEmpty`), as in `07` (`Relexing.ShortOctalIsMarkedEmpty`).
* **A type name that spells a keyword** prints like the keyword's type, and only such a name is ambiguous
  (`TypeDecoding.ReservedNameIsAmbiguous`).

Comments in the code promise more than it does in two places. A package found twice or not at all is documented as
an error but is a diagnostic and no package. Comments in a block are said to make it several lines, but only do so
when one is waiting for every item.

## Model

| member | source | states |
|---|---|---|
| Loader.LoadProgram | kclvm/parser/src/lib.rs:244-318 | It succeeds whenever all files can be read. On success: the packages are exactly those reachable from the main one along rewritten imports, each loaded for a request that the program makes; every other import is empty, a plugin, builtin, missing or diagnosed; no empty mark survives and every module carries its package's name; each file of a package is parsed once. |
| Loader.Loader.LoadMain | kclvm/parser/src/lib.rs:279-318 | The main package is marked, parsed, and walked; what the run leaves satisfies the conditions of a loaded program. |
| Loader.Loader.LoadImportPackage | kclvm/parser/src/lib.rs:384-417 | Terminates on every import graph, cycles included; every import of the package ends settled; new packages are reachable from its modules. |
| Loader.Loader.LoadPackage | kclvm/parser/src/lib.rs:490-576 | What a request comes to, exactly: nothing when its path is skipped, otherwise the package it finds, unless that has no files and is not loaded. Only packages reachable from the one found are added, and one that is being loaded is not loaded again. |
| Loader.Loader.FindPackages | kclvm/parser/src/lib.rs:329-381 | The package found inside or outside but not both; none at all, or both, adds exactly one diagnostic. |
| Loader.Loader.FixRelImportPath | kclvm/parser/src/lib.rs:476-488 | Every import of the module is replaced by its fixed path and nothing else changes. |
| LoaderSpec.ShrinksStrictly | kclvm/parser/src/lib.rs:506-575 | The measure of the mutual recursion: package paths that can be found and are not yet keys strictly shrink with every mark. |
| LoaderSpec.ValidAfterFill | kclvm/parser/src/lib.rs:550-573 | Replacing the mark by the parsed modules keeps the invariant of the whole map. |
| LoaderSpec.LoadedIsClosed | kclvm/parser/src/lib.rs:384-417 | In a loaded program every package is complete and reachable, and every rewritten import is a loaded package or accounted for. |
| LoaderSpec.NamesWhatItFinds | kclvm/parser/src/lib.rs:490-576 | A settled import is sure to name the package its request finds if and only if its path is not skipped (empty, plugin, builtin, loaded or missing), or the request has the package's names already; which requests those are. |
| LoaderOrder.SamePathInTwoOrders | kclvm/parser/src/lib.rs:490-576 | Two runs of the loader: an import inside an external package comes to nothing after the main package's package of that path was loaded, and to the external package's own before. |
| LoaderOrder.LoadedIsWanted | kclvm/parser/src/lib.rs:384-576 | A run of a program whose names are unambiguous among the requests it makes loads exactly the main package and the packages that those requests find with files, and each is settled as what was found. |
| LoaderOrder.NamesItsTarget | kclvm/parser/src/lib.rs:384-417 | In such a run every settled import names what its request finds, whatever was loaded before, and keeps the path it asks for when nothing with files is found. |
| LoaderOrder.EveryRequestIsSettled | kclvm/parser/src/lib.rs:384-417 | In such a run every request that the program makes, through any chain of packages, is settled. |
| LoaderOrder.LoadedSetIsFixed | kclvm/parser/src/lib.rs:384-417 | Two runs of such a program whose statements are in different orders load the same packages. |
| LoaderOrder.ImportsAreFixed | kclvm/parser/src/lib.rs:384-417 | And file by file, the rewritten imports of the two runs are the same paths. |
| LoaderOrder.OwnNameIsUnambiguous | kclvm/parser/src/lib.rs:490-576 | The condition is met by a program with a package `a` of its own and an external package `ext` with a package `b`, which is imported from inside as `b` and from outside as `ext.b`. |
| LoaderOrder.SharedNameIsAmbiguous | kclvm/parser/src/lib.rs:490-576 | It is not met when the package inside `ext` is called `a` too, the program of `SamePathInTwoOrders`. |
| LoaderSpec.LoadedFromValid | kclvm/parser/src/lib.rs:279-318 | The invariant at the end of the walk gives every condition of a loaded program. |
| LoaderPaths.MainImportBecomes | kclvm/parser/src/lib.rs:384-417 | In any loaded program, an import in a main file has the path that popping one directory for each further leading dot gives; it keeps its name, and belongs to the main package unless it is external. |
| LoaderPaths.PkgImportBecomes | kclvm/parser/src/lib.rs:384-417 | In the files of every other package it has that path, or that path behind the package's name when there is such a package under the package's root. |
| LoaderPaths.DotsResolve | kclvm/config/src/vfs.rs:30-98 | The path with the directories written out: a file in nested directories, any number of leading dots, and the empty path when there are too many. |
| LoaderPaths.NestedRun | kclvm/parser/src/lib.rs:244-318 | A run on a program with `.sub` and `..sub` in its main file, `..base` in a package, a plugin and a builtin import: the four packages loaded, and every module and statement that comes out. |
| Lexer.Tokenize | kclvm/lexer/src/lib.rs:303-313 | Terminates on any input; the tokens are those described, and their byte lengths sum to the input's UTF-8 length. |
| Lexer.Cursor.Token | kclvm/lexer/src/lib.rs:401-593 | The kind and length of one token, for every first character and every lookahead. |
| Lexer.Cursor.EatOperator | kclvm/lexer/src/lib.rs:438-585 | The operator taken is the longest spelling the text starts with; none is taken only when no operator starts with the character. |
| Lexer.Cursor.EatOther | kclvm/lexer/src/lib.rs:428-593 | Spaces, operators, line continuations, emoji and unknown characters, as described without a cursor. |
| Lexer.Cursor.EatQuotedString | kclvm/lexer/src/kcl_cursor.rs:65-126 | Opening quotes, escapes, closing quotes and line breaks of a string, with the offset of its end. |
| Lexer.Cursor.EatIdent | kclvm/lexer/src/kcl_cursor.rs:137-150 | An identifier is the longest run of identifier characters, and invalid when an emoji follows. |
| Lexer.Cursor.Number | kclvm/lexer/src/number.rs:12-97 | Base, digits, fraction and exponent of a number, with empty digits and empty exponents flagged. |
| Lexer.Cursor.EatLitSuffix | kclvm/lexer/src/lib.rs:598-605 | A suffix is taken exactly when an identifier starts there. |
| Lexer.Cursor.EatWhile | kclvm/lexer/src/cursor.rs:87-93 | Takes the longest run satisfying the predicate and stops at the end of input. |
| LexerSpec.TokensPartition | kclvm/lexer/src/lib.rs:303-313 | Every token covers at least one byte, the tokens cut the text into pieces without gap or overlap, and a suffix starts inside its literal. |
| LexerSpec.LongestUnique | kclvm/lexer/src/lib.rs:51-248 | Two operators cannot both be the longest spelling at the start of a text: the documented spellings are all different. |
| LexerTexts.CommentLexes | kclvm/lexer/src/kcl_cursor.rs:24-34 | A comment is one token up to the end of its line, whatever else the line holds; then come the line end and the tokens of the rest. |
| LexerTexts.NumberTextLexes | kclvm/lexer/src/number.rs:12-97 | Binary, octal, hexadecimal and decimal digits with underscores, with or without a fraction and an exponent of either sign: one token with the base, and an empty exponent marked when it has no digit. |
| LexerTexts.NoDigitsAreMarked | kclvm/lexer/src/number.rs:12-97 | A base prefix with only underscores behind it is marked as an empty number. |
| LexerTexts.LineContinues | kclvm/lexer/src/lib.rs:578-585 | A backslash before a line end is one token with it, at the end of the text one by itself, and before anything else an error. |
| LexerTexts.BlankLexes | kclvm/lexer/src/lib.rs:401-593 | Tabs, spaces and line ends are tokens of their own. |
| LexerTexts.WhitespaceLexes | kclvm/lexer/src/lib.rs:401-593 | The other blank characters, by their code points, with their lengths in bytes. |
| LexerTexts.PlainStringLexes | kclvm/lexer/src/kcl_cursor.rs:36-126 | String literals in either quotes, raw or not, short or in triple quotes, are one closed token. |
| LexerTexts.UnclosedStringLexes | kclvm/lexer/src/kcl_cursor.rs:65-126 | A short literal that is not closed on its line ends there and is marked. |
| LexerTexts.EmojiLexes | kclvm/lexer/src/kcl_cursor.rs:137-150 | A name that goes on with an emoji, or a word that starts with one, is one invalid identifier up to the end of its letters, emoji and joiners. |
| LexerTexts.BytesAreUtf8 | kclvm/lexer/src/lib.rs:303-313 | Lengths count the bytes of the UTF-8 encoding of RFC 3629, section 3, which is written out and decoded again. |
| StringGrammar.ScanMeetsGrammar | kclvm/lexer/src/kcl_cursor.rs:79-126 | The scanner closes a string at a position if and only if the grammar of escapes, quotes and line breaks, stated with backslash parity, ends it there. |
| StringGrammar.StringTokenMeetsGrammar | kclvm/lexer/src/kcl_cursor.rs:36-126 | The same for whole tokens, raw strings and triple quotes included. |
| Relexing.RoundTrip | kclvm/lexer/src/lib.rs:51-248 | Operators, words, numbers and string literals written with single spaces between are read back as exactly those tokens with spaces between, if and only if every string literal is readable. |
| Relexing.PieceLexesBack | kclvm/lexer/src/lib.rs:401-618 | How one written piece is read depends only on its own text when the text ends or a space follows. |
| Relexing.QuotedLexesBack | kclvm/ast_pretty/src/node.rs:748-758 | A printed string literal, short or long, is one closed token covering its whole text if and only if its value is readable. |
| Relexing.ScanOfEscaped | kclvm/lexer/src/kcl_cursor.rs:79-126 | Where the scanner ends in an escaped value, by induction over the value. |
| Relexing.PlainTextIsReadable | kclvm/ast_pretty/src/node.rs:748-758 | Values without backslashes, and without line breaks in a short literal, are readable. |
| Relexing.BackslashQuoteEndsEarly | kclvm/ast_pretty/src/node.rs:748-758 | A short literal whose value is readable up to a lone backslash before a quote closes at that quote, before the end of its text: the token that comes out is that of the readable part and a pair of backslashes. |
| Relexing.NumberLexesBack | kclvm/ast_pretty/src/node.rs:737-746 | A printed non-negative integer with any suffix is one decimal token, not empty, its suffix starting where the digits end, its length that of the whole text. |
| Relexing.OctalIsMarkedEmpty | kclvm/lexer/src/number.rs:23-53 | Any text that starts with 0 and a digit: the number is flagged as having no digits if and only if only underscores follow those two characters in its run of digits. |
| Relexing.ShortOctalIsMarkedEmpty | kclvm/lexer/src/number.rs:23-53 | Every octal of two characters, followed by a space or the end, is flagged. |
| Relexing.OperatorLexesBack | kclvm/lexer/src/lib.rs:438-585 | Every operator followed by a space is read back as itself. |
| Relexing.WordLexesBack | kclvm/lexer/src/kcl_cursor.rs:130-150 | Every identifier before a boundary (the end, a blank, a bracket, a comma, a question mark, an equals sign, a colon, or a dot before a name) is read back as one identifier. |
| PrintTree.PrintedModuleLexes | kclvm/ast_pretty/src/node.rs:49-877 | The text of a printed module, in any layout and with all its comments, is lexed as the tokens of the module in order, with the blanks, line ends, commas between items and comments of the layout in the places that layout has. |
| PrintTree.PrintedExprLexes | kclvm/ast_pretty/src/node.rs:306-877 | The same for one expression of any form that is covered. |
| PrintMeaning.FormattingKeepsTokens | kclvm/ast_pretty/src/lib.rs:265-269 | Without blanks, line ends and comments these are the tokens of the tree, whatever the layout is, but for commas between items on one line and an `elif` that a comment has cut. |
| PrintMeaning.CommentCutsElif | kclvm/ast_pretty/src/node.rs:491-582 | The word `elif` of a conditional item is lexed as one word if and only if no comment is printed at the node that the source reaches inside it. |
| PrintMeaning.ListOnOneLine | kclvm/ast_pretty/src/node.rs:443-462 | Without comments waiting, items stand on one line if and only if they start on one line and the first one is not conditional. |
| PrintMeaning.ConfigOnOneLine | kclvm/ast_pretty/src/node.rs:610-651 | The same for entries, except that a single entry that holds a conditional entry, a configuration or a schema value stands on lines of its own. |
| PrintMeaning.InterpolatedText | kclvm/ast_pretty/src/node.rs:768-793 | The text of an interpolated string: escaped texts and `${`, value, format and `}` between its quotes. |
| PrintMeaning.ElifIsCut | kclvm/ast_pretty/src/node.rs:491-524 | A list with `if` on line 2, `elif` on line 5 and a comment on line 4: in every output that the printer can give, the comment stands between `el` and `if`. |
| PrintTree.KindTracks | kclvm/ast_pretty/src/node.rs:306-877 | Every expression, whatever was written before: what the printer writes is what the lexer's tokens say, and may stand where it does. |
| PrintTree.StmtTracks | kclvm/ast_pretty/src/node.rs:49-304 | The same for every statement: imports with aliases, assignments with types, augmented assignments, attributes, schemas and rules with headers, conditions and checks. |
| PrintTree.EntryTracks | kclvm/ast_pretty/src/node.rs:822-877 | A configuration entry is its key, index in brackets, `:`, `=` or `+=` as the lexer's tokens, its value, and the closing braces of a key that was taken apart. |
| PrintCells.RenderIsAtoms | kclvm/ast_pretty/src/lib.rs:195-260 | The printed text is made of the atoms of the tree and of the layout, each of which may stand before the next one. |
| PrintAtoms.AtomsReadBefore | kclvm/lexer/src/lib.rs:303-313 | Atoms each of which may stand before the next one are lexed one after the other. |
| PrintLexing.SignIsLongest | kclvm/lexer/src/lib.rs:438-585 | An operator stays the longest spelling before a text that starts with no character that lengthens operators; brackets, commas, colons and question marks stay so before every text. |
| NestAttr.FixedIsNormal | kclvm/sema/src/pre_process/config.rs:10-85 | After the pass every key at every depth is a single segment. |
| NestAttr.FixKeepsLeaves | kclvm/sema/src/pre_process/config.rs:10-85 | The pass keeps the ordered list of leaf values at every path. |
| OverrideLaws.PutAllLaw | kclvm/query/src/override.rs:332-422 | An update puts the value at every occurrence of the path, leaves the values at unrelated paths as they were and in order, and changes what lies above only below the path. |
| OverrideLaws.SchemaValuesAreEntered | kclvm/query/src/override.rs:332-422 | Updates, deletions and lookups go into the configuration of a schema value as into a plain one. |
| OverrideMarks.PutAllMarks | kclvm/query/src/override.rs:332-422 | An update keeps the key, operation and index of every entry that it finds, at the path, above it and elsewhere; an entry that it appends is at the path, under a name, with the override operation and index -1. |
| OverrideMarks.DeleteAllMarks | kclvm/query/src/override.rs:332-422 | A deletion leaves no entry at or below the path, and every other one with its key, operation and index. |
| OverrideMarks.FixKeepsMarks | kclvm/sema/src/pre_process/config.rs:14-72 | After the key pass the entries at every path are those that the dotted keys stand for: the last name has the operation, the names before it are unions, and the first one has the insert index. |
| OverrideMarks.FixedStmtIsPlain | kclvm/sema/src/pre_process/config.rs:10-85 | After the pass no key is dotted in any configuration anywhere in a statement, and a statement without dotted keys is left as it is. |
| OverrideLaws.PutReaches | kclvm/query/src/override.rs:332-422 | After an update the path occurs. |
| OverrideLaws.DeleteAllLaw | kclvm/query/src/override.rs:332-422 | A deletion leaves nothing at or below the path, and the values at unrelated paths as they were and in order. |
| OverrideLaws.DeleteTwice | kclvm/query/src/override.rs:332-422 | Deleting is idempotent and keeps keys single segments. |
| Override.OverrideTransformer.ReplaceConfigWithPathParts | kclvm/query/src/override.rs:332-422 | The loop over duplicate keys with the set of indices to delete has exactly the effect of the put or the deletion, and an update reports a change. |
| Override.OverrideTransformer.WalkModule | kclvm/ast/src/walker.rs:464-466 | The target count is 0 before each top-level statement, only targeted statements change, and the flag is set exactly when there is one. |
| Override.OverrideTransformer.WalkAssignStmt | kclvm/query/src/override.rs:257-275 | Only a schema value assigned to the target name alone is entered. |
| Override.OverrideTransformer.WalkUnificationStmt | kclvm/query/src/override.rs:241-255 | Only a unification whose first name is the target is entered. |
| Override.OverrideTransformer.WalkSchemaExpr | kclvm/query/src/override.rs:277-301 | The replacement is done when the count is positive, and the count is 0 afterwards. |
| Override.OverrideTransformer.WalkExpr | kclvm/query/src/override.rs:303-318 | With the count at 0 no expression changes, whatever it contains. |
| Override.ApplyOverrideOnModule | kclvm/query/src/override.rs:100-144 | The whole call: imports, the pass over nested keys, the splitting of assignments to several targets in some order, the walk, and the result flag; a panic exactly when an import cannot be inserted. |
| MultiAssign.TransformMultiAssign | kclvm/sema/src/pre_process/multi_assign.rs:18-43 | The statements after the insertions, for any order in which the map is traversed; each new statement assigns the value to one further target. |
| MultiAssign.AscendingSplits | kclvm/sema/src/pre_process/multi_assign.rs:18-43 | In source order every statement is followed directly by the assignments to its other targets. |
| MultiAssign.SplitKeepsAssignments | kclvm/sema/src/pre_process/multi_assign.rs:31-96 | In place, the split statements assign the same values to the same targets in the same order, each to at most one target, and other statements stay. |
| MultiAssign.InOrderOnlyIfAscending | kclvm/sema/src/pre_process/multi_assign.rs:18-43 | For distinct statements this is so if and only if the map is traversed in source order. |
| MultiAssign.AlwaysInPlace | kclvm/sema/src/pre_process/multi_assign.rs:18-43 | For distinct statements it is so in every order of the map if and only if at most one statement has several targets. |
| MultiAssign.BackwardsTraversalReorders | kclvm/sema/src/pre_process/multi_assign.rs:18-43 | Two assignments traversed backwards: the second name of the first one is assigned after the other assignment. |
| Override.TargetedConfig | kclvm/query/src/override.rs:240-319 | The configuration a targeted statement declares is the overridden form of its normal form. |
| Override.UpdateIsLawful | kclvm/query/src/override.rs:332-422 | An update of any targeted statement, dotted and duplicate keys included: the field occurs, every occurrence holds the new value, unrelated leaf values keep their values and order, the entries found keep their keys, operations and indices, and appended ones override. |
| OverrideTwice.UpdateAgain | kclvm/query/src/override.rs:332-422 | Repeating an update appends no entry at any depth, since the appended key is found once it is split; when the value needs no splitting itself, repeating changes nothing. |
| Override.DeletionIsLawful | kclvm/query/src/override.rs:332-422 | A deletion in any targeted statement: nothing is left at or below the field, unrelated leaf values keep their values and order, all other entries their keys, operations and indices, and repeating it changes nothing. |
| OverrideModule.StatementsOverridden | kclvm/query/src/override.rs:100-144 | For any module and any order of the splitting, the statements that come out are, up to order, those of the module with targets split, each normalised and overridden on its own. |
| OverrideModule.ModuleIsLawful | kclvm/query/src/override.rs:100-144 | For any module: every statement and every target of an assignment is there, changed by the law of the update or deletion when it is targeted and only normalised otherwise, and there is nothing else. |
| OverrideModule.OtherTargetsKept | kclvm/sema/src/pre_process/multi_assign.rs:31-96 | In an assignment to several targets, those that are not asked for keep the value, and the one asked for is overridden. |
| ImportPaths.ApplyImportPaths | kclvm/query/src/override.rs:185-227 | The resulting body, or a panic exactly when an insertion index lies past the end. |
| ImportPaths.ImportsApplied | kclvm/query/src/override.rs:185-227 | For distinct paths every path is imported afterwards, an inserted one stands at its own index, original statements keep their order, and reapplying changes nothing. |
| ImportPaths.ImportedAs | kclvm/query/src/override.rs:190-199 | A request counts as imported if and only if a statement imports that path without another name, or the request spells out path and name. |
| ImportPaths.DistinctPathsFit | kclvm/query/src/override.rs:185-227 | For distinct paths every insertion index is in range. |
| ImportPaths.RepeatedPathOverruns | kclvm/query/src/override.rs:185-227 | In a module that holds one import, a path requested again and again lets a later path be inserted out of range. |
| AttrPaths.GetAttrPathsFromConfigExpr | kclvm/ast/src/path.rs:60-67 | Lists the dotted form of exactly the paths that occur, in order. |
| AttrPaths.GetEntryPaths | kclvm/ast/src/path.rs:70-100 | The paths of one entry, none when its name is blank. |
| AttrPaths.OccursIffFound | kclvm/ast/src/path.rs:60-100 | A path of non-blank segments is listed exactly when a value is found at it. |
| AttrPaths.ListingInOrder | kclvm/ast/src/path.rs:60-100 | An entry is listed before what it holds, and both before the next entry. |
| AttrPaths.UpdatedPathIsListed | kclvm/query/src/override.rs:332-422 | After an update the dotted path is listed. |
| AttrPaths.DeletedPathIsListedOnlyAsAlias | kclvm/ast/src/path.rs:60-100 | After a deletion the dotted path is listed if and only if another path of the configuration is spelled the same. |
| AttrPaths.DottedStringKeyStaysListed | kclvm/ast/src/path.rs:26-58 | In any configuration a string key that spells a path of several segments keeps that path in the listing after its deletion. |
| BuildCache.OneFile | kclvm/parser/src/lib.rs:632-637 | A file of a directory is passed over if and only if its name ends in `_test.k` or starts with an underscore. |
| BuildCacheSafety.StepInv | kclvm/runner/src/assembler.rs:327-386 | For packages that keep one form and whose names do not collide: every step of every process keeps the invariant over locks, records, objects and what each process knows. |
| BuildCacheSafety.RunInv | kclvm/runner/src/assembler.rs:305-389 | It holds after every interleaving of starts, steps, exits and edits between runs. |
| BuildCacheSafety.OnlyOneWrites | kclvm/config/src/cache.rs:150-173 | While one process takes or holds the lock of the digest file no other one holds it, even when a data file has taken the place of the lock file. |
| BuildCacheSafety.CachedStays | kclvm/config/src/cache.rs:39-80 | A package found current stays current through every step of every process. |
| BuildCacheSafety.SafeRuns | kclvm/config/src/cache.rs:39-98 | Every object a process has collected was assembled from text with the digest of what the process compiles, and whenever a package's lock is free its recorded digest is the one its object was assembled from. |
| BuildCacheSafety.SteadySource | kclvm/config/src/cache.rs:176-207 | A directory without files that the loader passes over, or a single file: the cache digests what the loader compiles. |
| BuildCacheExact.GoesStale | kclvm/config/src/cache.rs:47-98 | A later process hits on the object of an earlier text, when the new sources are not checked or have the path and digest of the old ones. |
| BuildCacheExact.OneLayoutGoesStale | kclvm/config/src/cache.rs:176-207 | Directory and file together, files that the loader passes over, an external package with something at its path under the root, and a vendored package are each unsafe. |
| BuildCacheExact.SwitchingFormsGoesStale | kclvm/config/src/cache.rs:199-207 | A run that ends in a hit on an outdated object after a package turned into a file and back. |
| BuildCacheExact.OverriddenGoesStale | kclvm/query/src/override.rs:38-58 | A package that an override can change before it is compiled is unsafe. |
| BuildCacheExact.NamedOutsideIsRemoved | kclvm/config/src/cache.rs:58-75 | An external package passed by name is built again under a process that has collected its object. |
| BuildCacheExact.InfoPackageErasesRecords | kclvm/config/src/cache.rs:112-133 | A package `info`: a run in which its own object is removed under a process that has collected it. |
| BuildCacheExact.DataFileReplacesObject | kclvm/runner/src/assembler.rs:172-175 | Packages `a` and `a.o`: a run in which a process has collected a data file for an object. |
| BuildCacheExact.DataFileReplacesLock | kclvm/config/src/cache.rs:221-231 | Packages `a` and `a.o.lock`: a run in which two processes hold the lock of `a`, and one removes the object the other one has collected. |
| BuildCacheExact.DataFileReplacesInfoLock | kclvm/config/src/cache.rs:150-173 | Package `info.lock` and two more: a run in which two processes hold the lock of the digest file, and the record of one is lost. |
| BuildCacheExact.SafeExactlyWhenSteady | kclvm/config/src/cache.rs:39-231 | A set of packages is safe in all runs if and only if every package keeps one form under the root, without files that the loader passes over and without overrides, and no names collide in the cache directory. |
| BuildCacheSurvival.InfoEntriesSurvive | kclvm/config/src/cache.rs:150-173 | In any layouts: without a package `info`, and with at most one other beside `info.lock`, no action of any run changes any entry of the digest file, but for one that becomes the digest of its package's sources. |
| BuildCacheSurvival.WritersTogether | kclvm/config/src/cache.rs:150-173 | Then two processes that have read the digest file and hold its lock are at one package. |
| BuildCacheSurvival.SurvivesExactlyWhenNamesKept | kclvm/config/src/cache.rs:110-173 | For packages that may lie under the root that condition on the names is exact. |
| BuildCacheCompletion.EndsWithEverything | kclvm/runner/src/assembler.rs:305-392 | At any point of any run, what a process has collected and what is on its list are together, without overlap, the packages it was started with; it can end if and only if it has collected all of them. |
| BuildCacheCompletion.AllCanEnd | kclvm/runner/src/assembler.rs:305-392 | From every reachable state all processes can go on, by their own steps alone, to where each of them can end. |
| BuildCacheCompletion.StepsAreBounded | kclvm/runner/src/assembler.rs:327-386 | There is no endless run of steps: at most 17 for each package on the lists. |
| BuildCacheCompletion.LooksUp | kclvm/config/src/cache.rs:39-79 | A process that has locked its package takes the object from the cache if and only if the data file, the object, and for a checked package the recorded digest of its sources are there; otherwise it goes on to build, and no file changes before. |
| BuildCacheProgress.RunSound | kclvm/runner/src/assembler.rs:327-386 | For any packages and names, every run keeps every lock with a process whose program point says so. |
| BuildCacheProgress.SomeoneAdvances | kclvm/runner/src/assembler.rs:327-386 | While a process has a package left some process can take a step: who waits for a data lock that is also a package lock waits for a package with a shorter name. |
| BuildCacheProgress.NoDeadlock | kclvm/runner/src/assembler.rs:305-389 | No reachable state is stuck while a process has work left. |
| TypePrinter.ToStr | kclvm/ast/src/ast.rs:1518-1597 | Pushes exactly the printed form onto the string it is given. |
| TypePrinter.UnionToStr | kclvm/ast/src/ast.rs:1518-1597 | Prints the elements of a union with bars between. |
| TypeDecoding.PrintDeterminesType | kclvm/ast/src/ast.rs:1518-1597 | Two types print the same if and only if they are the same up to union nesting and the origin of names, for every string literal. |
| TypeDecoding.AllReadBack | kclvm/ast/src/ast.rs:1518-1597 | A printed list of elements, and the text before it, can be read back from the right. |
| TypeDecoding.FlatPrints | kclvm/ast/src/ast.rs:1518-1597 | Flattening nested unions does not change the printed form. |
| TypeDecoding.ReservedNameIsAmbiguous | kclvm/ast/src/ast.rs:1518-1597 | A name of one segment prints like some other type if and only if it spells a keyword, and then like the keyword's type. |
| TypeDecoding.WordsParseBack | kclvm/parser/src/parser/ty.rs:56-108 | The keywords that are printed for types are parsed as those types. |
| TypeDecoding.SignsOfTypes | kclvm/ast/src/ast.rs:1474-1597 | The brackets, braces, colons and bars around and between the parts of a printed type. |
| Numbers.SuffixRoundTrip | kclvm/ast/src/ast.rs:1052-1076 | A printed binary suffix is read as the same suffix. |
| Numbers.NumeralValue | kclvm/ast_pretty/src/node.rs:737-746 | A numeral's value is the number it was printed from. |
| Printer.PrintAstModule | kclvm/ast_pretty/src/lib.rs:265-269 | The code printed is the module's whatever its comments are; every line is indented by its depth; lists and configurations are on one line exactly by the rule; every comment is printed once and in order; with sorted comments each stands directly before the first node that starts on its line or later. |
| PrintUnique.OutputIsUnique | kclvm/ast_pretty/src/lib.rs:195-269 | These conditions leave one output: what is printed is a function of the module's code, the lines its nodes start on, and its comments. |
| PrintComplete.EveryStatementIsWritten | kclvm/ast_pretty/src/node.rs:118-144 | Every statement of a module, at every depth, is written in source order if and only if no else block starts with an if statement and goes on; otherwise fewer are written. |
| PrintComplete.ElseBlockIsCut | kclvm/ast_pretty/src/node.rs:118-144 | A module with an else block of an if statement and another statement, of which the other one is not written. |
| Printer.Printer.WriteModule | kclvm/ast_pretty/src/lib.rs:195-201 | The module and then the remaining comments, each indented by its depth; the indentation is what it was. |
| Printer.Printer.WriteAstComments | kclvm/ast_pretty/src/lib.rs:220-247 | Prints the queued comments up to the node's line at the node's indentation, and keeps order and conservation. |
| Printer.Printer.PopComments | kclvm/ast_pretty/src/lib.rs:226-244 | Takes the longest prefix of the queue up to the line. |
| Printer.Printer.HasCommentsOnNode | kclvm/ast_pretty/src/lib.rs:204-217 | A comment waits for the node exactly when the first queued one does. |
| Printer.Printer.InOneLine | kclvm/ast_pretty/src/node.rs:443-462 | One line exactly when all items start on one line, not all of them have comments waiting, and the first item is not conditional. |
| Printer.Printer.WalkStmt | kclvm/ast_pretty/src/node.rs:49-304 | Each statement form writes its shape with every width its depth, restores the indentation and keeps the comment order. |
| Printer.Printer.WalkIfStmt | kclvm/ast_pretty/src/node.rs:118-144 | Conditions, bodies one level deeper, and else branches, with every width its depth through every nesting. |
| Printer.Printer.WalkSchemaStmt | kclvm/ast_pretty/src/node.rs:156-253 | Decorators, header, documentation, mixins, index signature, body and checks of a schema, each at its depth. |
| Printer.Printer.WalkRuleStmt | kclvm/ast_pretty/src/node.rs:255-304 | Decorators, header, documentation and checks of a rule, each at its depth. |
| Printer.Printer.WalkExprKind | kclvm/ast_pretty/src/node.rs:306-803 | Each of the expression forms writes its shape with every width its depth, restores the indentation and keeps the comment order. |
| Printer.Printer.WalkListExpr | kclvm/ast_pretty/src/node.rs:443-480 | The items of a list, on one line by the rule or one level deeper on several, with the separators that go with it. |
| Printer.Printer.WalkListIfItem | kclvm/ast_pretty/src/node.rs:491-524 | Conditional list items with their else branches, the items one level deeper. |
| Printer.Printer.WalkConfigIfEntry | kclvm/ast_pretty/src/node.rs:549-582 | Conditional entries with their else branches, the entries one level deeper. |
| Printer.Printer.WalkConfigExpr | kclvm/ast_pretty/src/node.rs:610-651 | The entries of a configuration, on one line by the rule or one level deeper on several, with the separators that go with it. |
| Printer.Printer.WriteEntry | kclvm/ast_pretty/src/node.rs:822-844 | Key, index, operation, value and as many closing braces as the key opened. |
| Printer.Printer.WriteConfigKey | kclvm/ast_pretty/src/node.rs:846-877 | Keys with parts that are not plain names open one brace between parts. |
| Printer.Printer.WalkArguments | kclvm/ast_pretty/src/node.rs:698-720 | Parameters zipped with annotations and defaults. |
| PrintSpec.VisitKeepsOrder | kclvm/ast_pretty/src/lib.rs:220-247 | Reaching a node keeps every comment in its place. |
| PrintSpec.RestKeepsOrder | kclvm/ast_pretty/src/lib.rs:195-201 | A comment printed at the end comes after every node. |
| Vfs.FixImportPath | kclvm/config/src/vfs.rs:30-98 | The path computed from the directory of the file and the import path, on every branch. |
| Vfs.FixedIsStackResolve | kclvm/config/src/vfs.rs:30-98 | Fixing is popping one segment per extra leading dot and appending the rest, if and only if it is not an import of one leading dot with trailing dots in the root directory. |
| Vfs.ImportInDirectory | kclvm/config/src/vfs.rs:30-98 | For a file in nested directories: what an import with any number of leading dots is fixed to, and that fixing it again changes nothing. |
| Vfs.FixingTwice | kclvm/config/src/vfs.rs:30-98 | Fixing twice is fixing once if and only if the leading dots of the import and of the package path, and the number of segments, meet the condition given. |
| Vfs.HiddenDirectoryIsFixedTwice | kclvm/config/src/vfs.rs:30-98 | For the import `.sub` in the directory `.k` the condition fails: the first pass gives `.k.sub` and the second `.k.k.sub`. |

## Left out

- PrintTree.PrintedModuleLexes: interpolated strings, missing expressions, and starred values outside lists and calls are not covered; texts that come with the tree as text (types, documentation, import paths, raw strings, floats, debug forms of keys) are taken to end where their last token ends, which `PrintAtoms.AtomsAreText` gives for names, numbers, strings and signs next to each other.
- LexerSpec.TokenSpec: the Unicode tables behind identifier starts, identifier characters and emoji are parameters; only what they say about ASCII, that a start can continue and that it is no whitespace is assumed.
- Lexer.Cursor.Token: `first_token` is a single call of it; the token kinds the lexer never produces (block comments, carriage returns, `..`, `#`, boolean literals) do not exist in the model.
- Lexer: the parser-level lexer and the parser are not part of this model.
- Loader.LoadProgram: the file system, globbing, the package manager subprocess, environment variables and the parser are finite maps given to a run; the loops of one source function are split into methods.
- Loader.LoadProgram: the requests and the log of parsed files are kept for the statement only; the source has no such fields.
- LoaderOrder.LoadedSetIsFixed: the condition on names is enough, but not needed: whether a name that two packages share changes what is loaded depends on what the package that is passed over imports, and on whether any order of the statements reaches the other one first.
- Override.ApplyOverrideOnModule: statements and expressions are taken and returned instead of updated through references, so aliasing of syntax nodes is not modelled; positions and identifier contexts are dropped, and expression kinds that no override code treats specially share one constructor.
- Override.ApplyOverrideOnModule: an update without a value, an internal error in the source, is excluded by `Usable`; turning the value text into an expression is not modelled.
- Override.OverrideTransformer.ReplaceConfigWithPathParts: the boolean a deletion returns is not stated, because a later duplicate key overwrites it.
- NestAttr.FixKeepsLeaves: of the preprocessing passes only the splitting of nested keys and of assignments to several targets are modelled.
- BuildCacheSafety.SafeRuns: crashes and failing file operations, such as one between writing an object and its digest, are not modelled; edits happen only between runs; the main package is not cached. The digest is a parameter, and objects are compared by the digest of the text they were assembled from, so renaming a compiled file or moving text between files of a directory is no change.
- BuildCacheExact.SafeExactlyWhenSteady: opening a lock file and locking it are one step, and writing an object is one step. What else goes into an object (the import names of the whole program) is not part of this model.
- BuildCacheExact.SafeExactlyWhenSteady: the digest finds the files of a directory by putting its path into a glob pattern (kclvm/config/src/cache.rs:186-194). Under a root named like `x[1]` the pattern matches no file, every directory has the same digest, and later runs take stale objects; the model has no pattern characters in paths.
- BuildCacheSurvival.SurvivesExactlyWhenNamesKept: packages that can never lie under the root are never recorded; with them the condition on names is still enough, but not needed.
- Printer.PrintAstModule: the shape leaves out widths, and whether a list or configuration is on one line; both are stated by the layout next to it, since they depend on comments.
- Printer.PrintAstModule: hooks are the default ones that do nothing, and the configuration is the default one (comments written, four spaces).
- Printer.Printer.WalkListIfItem: an else node that is neither a list nor another condition stops the source with an internal error; the type of the model has no such node. The same holds for conditional entries and for a dictionary comprehension without a key.
- Printer.Printer.WriteConfigKey: whether a part is a plain name, decided by a regular expression, and the debug form of a part are given with the part.
- Printer.Printer.WalkExprKind: the display text of floats is given with the number, here and in the type printer.
- PrintComplete.EveryStatementIsWritten: parameters and comparators count as far as the printer pairs them.
- Vfs.FixImportPath: the relative directory that the path library computes is a parameter; a debug assertion on empty import paths is not modelled, as release builds go past it.
- Diagnostics, sessions, settings, the command line, plugins, code generation, the resolver and the C interface are not part of this model.

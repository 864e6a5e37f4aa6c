# A verified model of docgen

`docgen.go` turns the Go packages of a directory into Markdown files. Its heart is `astString`, which
prints the syntax tree of a Go type as text; around it, helpers lay out struct and interface blocks
and append headings, comments and fenced code to one output file a package.

The model asks what such a program is for. Does the printed text determine the type? Does Go read the
text as the same type? Does a reader of the finished file find the package in it?

| file | contents |
|---|---|
| `GoAst.dfy` | the syntax trees of `astString`'s type switch, `Printable` trees, erasure of array lengths and parameter tags |
| `Printer.dfy` | `astString` as a function, and as methods with the source's append-and-join loops |
| `Holes.dfy` | what stands around any part of a tree's text |
| `Entries.dfy` | a parameter list as its text shows it; `Canon`, the tree that a text determines |
| `Decoder.dfy` | a character-level reader, prefix decoding, the kernel of the printer |
| `Literals.dfy`, `GoGrammar.dfy`, `GoReading.dfy` | Go's tokens and type grammar, and what Go reads in the printed text |
| `Brackets.dfy`, `Size.dfy`, `OneLineTypes.dfy` | balance, visible arity and length of the text, which is one line |
| `Markdown.dfy` | a line reader for headings, fenced code and HTML, by the rules of CommonMark |
| `Document.dfy` | the emission methods of `docgen.go`, over an append-only output file |
| `DocumentText.dfy` | the document character by character |
| `SegmentReading.dfy`, `DocumentReading.dfy` | exactly when the whole file reads as it is meant |
| `Catalogue.dfy`, `Recovery.dfy` | rebuilding the package's listing from the file, and exactly when that succeeds |
| `FieldBlocks.dfy` | the fields of its types, likewise |
| `Collisions.dfy` | packages that no reader can tell apart by their documents |
| `GoDeclarations.dfy` | exactly when Go reads a type definition of the document as its declaration |
| `Packages.dfy` | the loop over packages, in any order |
| `Options.dfy`, `Sequences.dfy` | small helpers |

Results worth knowing before reading on:

* Whatever text Go reads as a type, on one or more lines, `astString` prints its tree as a text that
  Go reads as the same type up to array lengths (`SourceTypesSurvive`): `[5]int` prints as `[]int`,
  and nothing else is lost. This covers every type that docgen gets from the Go parser within the
  grammar below.
* `astString` drops array lengths and parameter tags. It also joins the names of a field with the
  separator of fields, so in a tree built by hand an unnamed identifier in front of a named field
  prints as one more name. Nothing else is lost: `PrinterKernel` says for all printable trees when
  two texts are equal, and `DecodableExactly` which texts are texts of such trees.
* No parentheses are printed around a channel's element type, so Go gives the `<-` of
  `chan <-chan T` to the first `chan`. `FaithfulExactly` proves that, inside the grammar's shape, a
  bidirectional channel directly over a receive-only one is the only tree that Go misreads, and
  `GoReadsMeaning` says what it reads instead. Go's parser makes no such tree: it keeps the
  parentheses of `chan (<-chan T)` as a node of their own, never leaves out the parameter list of a
  func type, and reports a list that mixes named and unnamed parameters as an error.
* The text of any part of a tree stands in the text of the tree between two texts that do not depend
  on the part. So what go/printer writes for a node that `astString` does not know comes out unchanged
  wherever the node stands, and the node's `%T` in parentheses if go/printer fails (`OpaqueText`).
* A type definition in the document is the declaration it was made from if and only if it is no
  alias, its types lose nothing, embedded fields are type names, and interfaces have no methods of
  their own (`DefinitionReadsExactly`): a method is printed as `Name func(...)`, the `=` of an alias
  is never printed, and array lengths are dropped.
* Comments are copied into the file as they are. `DocumentReadsExactly` proves that the file reads
  as meant, headings, code and HTML in order and every block closed, if and only if names are single
  lines, comments and source path close the fences and the HTML blocks they open, and no code has a
  line that closes a fence of three backquotes. Indented, tilde and longer fences count, and so do
  HTML comments and the other HTML blocks that run over empty lines. Failures of go/printer do no
  harm.
* For every document that reads as meant, `Recovery.DocumentListsPackage` proves that the listing of
  the package is rebuilt from it if and only if no comment has a heading like docgen's (a section's,
  `#### Methods`, or a name in backquotes at level 3 or 5) and no comment of a constant or variable
  has a code block. Code blocks elsewhere are told apart, as in a function whose comment has an
  example. Path and package comment, and they alone, may bring headings of sections, without code, if
  these rise in order and come before the first section of the package. Both conditions have a
  reason: `CodeBlocksCollide` and `HeadingsCollide` give different packages with one document.
* The text of a tree has at most nine characters a node besides its names, and nine is needed
  (`func() ()` has one node).

The Go grammar is that of the Go Programming Language Specification, sections "Tokens", "Array
types", "Slice types", "Pointer types", "Function types", "Map types", "Channel types", "Qualified
identifiers", "Type declarations", "Struct types", "Interface types", "String literals" and
"Semicolons", with `...` allowed on the final incoming parameter alone. Identifiers are taken a
little wider than there: every character outside ASCII counts as a letter. Headings, fences and HTML
are those of the CommonMark Specification, sections "ATX headings", "Fenced code blocks" and "HTML
blocks" (kinds 1 to 5).

## Model

| member | source | states |
|---|---|---|
| Printer.PrintNode | docgen.go:238-303 | the recursion with its cases computes `AstString`, for every tree, nil nodes and nil parameter lists included |
| Printer.PrintFieldList | docgen.go:264-281 | the field loop with its two append branches and the join computes `FieldListString` |
| Holes.HoleText | docgen.go:238-303 | for every tree with a hole, opaque and incomplete trees included, the filled tree prints as one fixed text, the filling's text, and another fixed text |
| Holes.OpaqueText | docgen.go:295-301 | wherever it stands, a node of the default case prints as what go/printer wrote, or as its kind in parentheses; a name as itself; a nil node as nothing |
| Printer.DirTextsSeparate | docgen.go:283-292 | no direction's text can be mistaken for another one with a different element: equal channel texts have equal directions and equal element texts |
| Printer.CollectNames | docgen.go:272-275 | the name loop collects exactly the field's names, in order |
| Entries.FlattenGroup | docgen.go:269-281 | grouping the entries a list shows loses none of them and keeps their order |
| Entries.GroupFlatten | docgen.go:269-281 | the entries give back the fields if and only if no unnamed identifier stands directly before a named field |
| Entries.ListText | docgen.go:264-281 | the text of a list is the text of its entries, joined names and joined fields alike |
| Entries.CanonText | docgen.go:238-294 | every tree has the same text as its canonical form |
| Entries.CanonIsErase | docgen.go:238-294 | lengths and tags are all that is lost if and only if every list of the tree is grouped |
| Decoder.DecodeTypeOk | docgen.go:238-294 | in front of anything that may follow a type, the text of any printable tree decodes to the canonical tree and leaves what follows untouched |
| Decoder.DecodeFieldsOk | docgen.go:268-281 | the text of a non-empty field list of any length decodes to its entries |
| Decoder.PrinterKernel | docgen.go:238-294 | two printable trees have equal texts if and only if their canonical forms are equal |
| Decoder.PrinterKernelGrouped | docgen.go:248-249 | on grouped trees, texts are equal if and only if the trees are equal up to array lengths and parameter tags |
| Decoder.DecodableExactly | docgen.go:238-294 | a text decodes if and only if it is the text of some printable tree, and then it is the text of the tree it decodes to, which is canonical |
| Decoder.MixedListsCollide | docgen.go:276-281 | for every name and named field, the mixed list prints as the field with one name more |
| Decoder.QualifiersCollide | docgen.go:250-251 | without a plain name as qualifier, two different trees share a text |
| GoReading.LeftmostChan | docgen.go:282-292 | the word `chan` in front of any tokens that read as a type reads as `ChanOf` that type |
| GoReading.GoMeaningIsErase | docgen.go:282-292 | Go's meaning of a tree is the tree (lengths erased) if and only if no bidirectional channel is directly over a receive-only one |
| GoReading.GoReadsMeaning | docgen.go:238-294 | for every printable tree of the grammar's shape, tokenising the text without its spaces and parsing it gives `GoMeaning` |
| GoReading.FaithfulExactly | docgen.go:238-294 | for every printable tree, Go reads the text back as the tree if and only if the tree has the grammar's shape and its channels are clear |
| GoReading.SourceTypesSurvive | docgen.go:238-294 | for every text, of any number of lines, that Go reads as a type, and every tree that differs from its reading in array lengths and parameter tags alone, the tree is printable and its text has the same reading |
| GoReading.ChannelsExactly | docgen.go:282-292 | given the shape, the reading differs exactly when some bidirectional channel is directly over a receive-only one |
| GoReading.ChannelsCollide | docgen.go:282-292 | for every element type, two different trees with different texts and the same Go reading |
| GoReading.MissingParamsMisread | docgen.go:254-263 | with a nil parameter list, Go reads the results as the parameters |
| Brackets.TypeScans | docgen.go:238-294 | from any stack of open brackets the text of a type returns to that stack, closers matching, with no comma at the depth it stands at |
| Brackets.ListScans | docgen.go:264-281 | one bracket deeper, a list shows one comma less than the sum over its fields of max(1, names), and none at any shallower depth |
| Brackets.TypeIsBalanced | docgen.go:238-294 | the whole text is balanced and no prefix of it closes what is not open |
| Size.SizeBound | docgen.go:238-303 | the text of any tree has at most the characters of its names plus nine a node |
| Size.SizeBoundIsTight | docgen.go:254-266 | a tree that needs nine characters for its only node |
| Document.TrimSpaceSplits | docgen.go:84-87 | trimming a comment removes white space at its two ends and nothing else |
| Document.TrimmedCharacters | docgen.go:84-87 | trimming ignores each of 25 listed white-space characters at either end, and keeps every other character |
| Document.VisibleEndsStay | docgen.go:84-87 | a text between visible ASCII characters is not changed |
| Document.TrimSpaceExactly | docgen.go:84-87 | whatever white space stands around a text with none at its ends, trimming gives that text |
| Document.OutFile.WriteString | docgen.go:124-128 | a write appends |
| Document.WriteToFile | docgen.go:124-128 | appends the content to the file |
| Document.PrintField | docgen.go:173-191 | one line: a tab, the same item that `astString` makes of a field, and the tag |
| Document.PrintFields | docgen.go:144-148 | the lines of all fields in order, none for a nil list |
| Document.PrintBlock | docgen.go:143-157 | header line, field lines, closing brace |
| Document.PrintDefinition | docgen.go:139-161 | what each kind of spec puts between the fences, nothing for a spec that is no type |
| Document.PrintFenced | docgen.go:138-162 | one fenced segment holding the definition |
| Document.PrintType | docgen.go:130-171 | heading, comment if any, fenced definition, then the type's own methods |
| Document.PrintMethods | docgen.go:164-170 | a heading and the methods in order, or nothing |
| Document.PrintMethod | docgen.go:193-207 | heading, comment if any, and a fenced block also when printing fails |
| Document.PrintFunc | docgen.go:209-222 | the same at its own heading level |
| Document.PrintDeclarations | docgen.go:224-236 | label and comment if any, and a fenced block also when printing fails; with a comment, the exact text with the kind in the label |
| Document.PrintHeader | docgen.go:79-87 | title, source path and the overview if there is a package comment |
| Document.PrintValueSection | docgen.go:89-103 | a section heading if and only if the list is non-empty, and its groups in order |
| Document.PrintTypeSection | docgen.go:105-111 | likewise for types |
| Document.PrintFuncSection | docgen.go:113-119 | likewise for functions |
| Document.WritePackage | docgen.go:79-119 | the file gets exactly the document `PackageText` of the package |
| Document.ValueWritten | docgen.go:224-236 | a group of constants or variables is written as `**kind:**`, the trimmed comment and a `go` fence, or as the fence alone |
| DocumentText.FuncWritten | docgen.go:209-222 | a function is written under its name at level 3, a failed printing leaving an empty line in the fence |
| DocumentText.MethodWritten | docgen.go:193-207 | the same for a method at level 5 |
| DocumentText.FieldWritten | docgen.go:173-191 | a field is written as a tab, its names, its type, its tag and a line end, for every type |
| DocumentText.DefinitionWritten | docgen.go:139-161 | the text of a definition for every kind of spec, with nil lists and specs that are no type |
| DocumentText.TypeWritten | docgen.go:130-171 | a type is written under its name at level 3, with its definition in a fence and its methods behind |
| DocumentText.MethodsWritten | docgen.go:164-170 | methods stand behind `#### Methods`, and without methods there is nothing |
| DocumentText.PackageWritten | docgen.go:79-119 | the whole document: title, source path and the five sections, each with its own heading and there only if it has something to show |
| DocumentText.MovedGroup | docgen.go:89-103 | a group with a comment that moves from the constants to the variables changes its label and its section, and nothing else |
| SegmentReading.ReadsExactly | docgen.go:130-236 | a sequence of segments laid out as docgen does reads as meant if and only if every segment is safe |
| DocumentReading.PackageSafe | docgen.go:79-119 | that is, name by name, comment by comment and code by code, the condition `SafePackage` |
| DocumentReading.DocumentReadsExactly | docgen.go:70-122 | the document of any package, under any source path, reads as its headings, code and HTML blocks in order, ending outside all of them, if and only if `SafePackage` |
| DocumentReading.OneLinePath | docgen.go:81 | a source path of one line always meets its part of the condition and brings no blocks |
| Catalogue.ReadsCalmly | docgen.go:89-236 | if no comment has a heading like docgen's, the blocks give back types with their own methods, and functions, each once and in order, and of the values all code blocks |
| Catalogue.UsualFront | docgen.go:79-87 | a path of one line and a package comment without headings like docgen's never hinder the reading |
| Recovery.Success | docgen.go:89-171 | what a successful reading tells of any blocks: the number of titles, sections in rising order, and only sections of values directly above code |
| Recovery.ReadListingExactly | docgen.go:79-236 | for every package, name and path, the blocks give back constants, variables, types with their own methods, and functions, each once and in order, if and only if `Recoverable` |
| Recovery.DocumentListsPackage | docgen.go:79-236 | the listing of a safe package is rebuilt from the text of its document alone if and only if `Recoverable` |
| Recovery.DocumentListsCalmly | docgen.go:79-236 | with code in the comments of values, everything but the values is still rebuilt from the text |
| Collisions.CodeBlocksCollide | docgen.go:224-236 | for every comment, code and neighbours, a constant whose comment ends in a code block has the document of two constants |
| Collisions.HeadingsCollide | docgen.go:83-103 | without a code block in any comment, a variable behind an overview with docgen's headings has the document of a constant |
| FieldBlocks.DecodeFieldLine | docgen.go:173-190 | a field's text, tags of several lines included, reads back as names, canonical type and tag, and leaves what follows |
| FieldBlocks.DecodeAllFields | docgen.go:144-148 | the texts of all fields together read back as the fields in order |
| OneLineTypes.TypeIsOneLine | docgen.go:238-294 | the text of a printable type never breaks the line |
| FieldBlocks.DefinitionOk | docgen.go:143-157 | a struct or interface block is safe inside a fence and reads back as its whole field list |
| FieldBlocks.DocumentGivesFields | docgen.go:105-157 | the fields of every struct and interface are rebuilt from the document alone |
| GoDeclarations.ElementReads | docgen.go:173-191 | Go reads a printed field line as the field, or interface element, if and only if `ElementOk` |
| GoDeclarations.MethodsAreLost | docgen.go:151-155 | no named element of an interface is read as an interface element |
| GoDeclarations.DefinitionReadsExactly | docgen.go:139-161 | Go reads a type definition as the declaration it was made from if and only if `DeclarationOk` |
| GoDeclarations.DocumentGivesDeclarations | docgen.go:105-162 | the same for the definitions rebuilt from the document alone |
| Packages.Directory.GeneratePackageDocs | docgen.go:70-122 | no file and an error when creation fails, else the package's document under its name followed by `.md` and no other change |
| Packages.Directory.GenerateDocs | docgen.go:39-68 | the error cases in their order, and otherwise the result of `Run`; no error if and only if there are packages and each one whose name does not end in `_test` gets its file |
| Packages.TestNames | docgen.go:57 | the packages left out are exactly those whose name is some text followed by `_test` |
| Packages.FileNameInjective | docgen.go:72 | different packages have different files |
| Packages.RunFailsIff | docgen.go:55-64 | the loop fails if and only if some package outside the tests cannot get its file |
| Packages.RunKeeps | docgen.go:55-66 | files that belong to no package outside the tests are untouched |
| Packages.RunSucceedsIff | docgen.go:55-64 | the loop gets through if and only if every package whose name does not end in `_test` gets its file |
| Packages.SuccessfulRun | docgen.go:55-72 | after a success the files are those from before and, for each package whose name does not end in `_test`, its document under its name followed by `.md` |
| Packages.RunWrites | docgen.go:55-66 | after a success every package outside the tests has its document in its file |
| Packages.OrderDoesNotMatter | docgen.go:55-67 | two orders of the same packages succeed or fail together, and leave the same files on success |
| Packages.FailedRun | docgen.go:62-64 | a failing loop has done exactly what the packages before the first failing one ask for |
| Packages.FilesListPackages | docgen.go:39-122 | after a successful run the listing of each safe package is rebuilt from its file if and only if the package is `Recoverable` |

## Left out

- The calls of go/printer: their texts, whether they fail, and the `%T` of a node are inputs. A tree with a node of the default case is printed by the model but is not `Printable`, so parenthesised, generic, struct and interface types inside a type are outside the decoding results.
- The wording of error messages: errors are the cases of `Error`, with the path or the package they name.
- Parsing directories, go/doc, `os.Stat`, console output and the command line: inputs or left out. Writes are taken to succeed, as a failed write only prints a warning.
- A channel direction other than send or receive is `Both`, as in the default case of the source.
- `printType` indexes the first spec of a declaration; a declaration without specs, which go/doc does not produce, is not modelled.
- The file of a package appears with its whole content when it is closed, not write by write.
- DocumentReadsExactly: of Markdown's blocks the reader knows ATX headings, fenced code and the HTML blocks of kinds 1 to 5. Block quotes, lists, setext headings, indented code and the HTML blocks that end at an empty line read as prose, line ends are single characters (Go's scanner drops carriage returns from comments), and the content of an indented fence keeps its indentation.
- DocumentListsPackage: stated of documents that read as meant; what a reader makes of the others is not determined by their parts.
- SourceTypesSurvive: Go comments inside a type's text are not part of the grammar.
- DefinitionReadsExactly: one field or element a line, as docgen writes them. Type parameters of a declaration, which docgen never prints, and struct and interface types inside a type are not part of the grammar.
- FailedRun: what a failing run leaves depends on the order of the packages, so only the prefix is determined.
- Generated protobuf code, load scripts and the thin wrappers in `pkg/` would only add easy members.

# GXL grammar, lexer and parser

GXL is a configuration language for builds and workflows. A GXL document
holds modules, `extern mod` declarations, environments, flows, functions and
activities. Annotations (`#[name(...)]`) can decorate them. Their bodies hold
properties and command statements. The language is defined by one tree-sitter
grammar, `grammar.js`. This project models that grammar as a deterministic
lexer and a recursive-descent parser written as total Dafny functions, and
proves what the grammar's rules promise about them.

Modules, in dependency order:

- `Results` (results.dfy): `Option` and `Result`.
- `Lexer` (lexer.dfy): the terminals of lines 17-22 and 178-220, and the
  whitespace between tokens (line 6).
  - The shape of each token kind is an explicit predicate, in place of the
    grammar's regular expressions.
  - `ScannedAt(s, i, t, afterDot)` says that `t` is a maximal token starting
    at index `i`. `afterDot` says that the previous token, comments aside, is
    `.`; there a word is an identifier (see below).
  - `Tiles(s, i, ts, afterDot)` says that `ts` covers `s[i..]` with only
    whitespace between the tokens.
  - `Lex` returns the tiling when there is one. Otherwise it returns the
    position where lexing is impossible and the reason.
  - `Lex` is proved complete, and the tiling is proved unique.
  - Keywords (`mod`, `env`, `flow`, `fn`, `activity`, `extern`, `path`, `git`,
    `channel`) are identifiers. The parser recognises them by position, as the
    `word` setting (line 8) makes tree-sitter do.
- `Syntax` (syntax.dfy): the syntax tree, with one datatype per rule.
  - The optional `;` after a closing `}` is recorded as a `semi` flag. This
    lets the tree be printed back exactly.
  - Also here: the structural well-formedness predicates and a printer from
    tree to lexemes.
- `Parser` (parser.dfy): one function per grammar rule. Each reads a sequence
  of lexemes and returns the node plus the lexemes after it, or the first error.
  - An error carries how many lexemes were left and what would have been
    accepted.
  - Every successful call is proved to have consumed exactly the printed form
    of a well-formed node.
- `RoundTrip` (roundtrip.dfy): the converse. Every well-formed node is parsed
  back from its printed form. From that and soundness: printing is injective,
  and re-parsing a printed parse changes nothing.
- `Gxl` (gxl.dfy): the whole pipeline from text to tree. It lexes, drops
  comments (an "extra", line 6), then parses `source_file`. A parsed tree
  written back as text with one space after each lexeme parses to the same tree.
- `LexFacts` (lexfacts.dfy): what comments, the annotation opener, strings and
  numbers look like in a lexed text.
- `GrammarFacts` (grammarfacts.dfy): what the grammar accepts and rejects
  where rules share a prefix, or where a rule restricts what a body may hold.

Three points of `grammar.js` that the model makes explicit:
- `builtin_name` (lines 178-192) is a `token(choice(...))` of ten names. A
  builtin name is therefore one token whatever follows it, including the `{`
  in `gx.vars { }`. Where a builtin command may start, the longest builtin
  name wins over the identifier `gx`.
- `dotted_name` (line 202) takes one or more `.identifier` segments. Right
  after its `.` only an identifier is valid, and tree-sitter lexes only the
  tokens valid in the current state. So in `a.gx.echo()` the word after the
  first `.` is the identifier `gx`. The lexer's after-dot mode does the same.
- An environment body (line 98) may start a `gx_vars_block` or a
  `builtin_command` (line 170). Both can begin with the text `gx.vars`, and
  the literal `"gx.vars"` of `gx_vars_block` (line 101) wins over
  `builtin_name`. So in an environment body `gx.vars` must be followed by `{`,
  while in flow and function bodies `gx.vars(...)` is a builtin command.

## Model

| member | source | states |
|---|---|---|
| `Lexer.ScanIdentChars` | grammar.js:220 | returns the end of the longest run of `[a-zA-Z0-9_]` characters from the given index: every character before it is one, and the one at it is not |
| `Lexer.ScanDigits` | grammar.js:217 | returns the end of the longest run of digits from the given index |
| `Lexer.ScanLine` | grammar.js:17 | returns the next newline, or the end of the text, and no newline lies before it |
| `Lexer.ScanNumber` | grammar.js:217 | the text taken is a number, and it cannot be extended: no digit follows, and a `.digit` follows only when the number already has its fraction |
| `Lexer.ScanStringBody` | grammar.js:215 | finds the first quote before which the text is a sequence of string units; when it finds none, no quote in the rest of the text closes the string |
| `Lexer.StringTextAt` | grammar.js:215 | a slice is a string token exactly when it is a quote, string units, and a quote |
| `Lexer.LongestPrefix` | grammar.js:178-192 | returns the longest of the given names that occurs at the index, or none when none occurs there |
| `Lexer.LexHash` | grammar.js:17-22 | at `#`, the token is the annotation opener exactly when `#[` follows, and a comment otherwise |
| `Lexer.LexString` | grammar.js:214-215 | at a quote, returns the string token there, or an unterminated-string error when no closing quote exists |
| `Lexer.LexNumber` | grammar.js:217 | at a digit, returns the maximal number token there |
| `Lexer.LexWord` | grammar.js:178-202 | at a letter or `_`, returns the maximal token there: right after a `.` always an identifier, elsewhere a builtin name or an identifier |
| `Lexer.LexBuiltin` | grammar.js:178-192 | when it is the longest builtin name at the index, that name is the token there |
| `Lexer.LexIdent` | grammar.js:220 | right after a `.`, or where no builtin name occurs, the token at a letter or `_` is the maximal identifier |
| `Lexer.NextToken` | grammar.js:17-22 | the token at a non-space character, with `#[` as the opener and any other `#` as a comment; otherwise an error at that index, with its reason |
| `Lexer.LexFrom` | grammar.js:6 | its tokens tile the rest of the text with only whitespace between them; an error lies at or after the start and says why no token fits there; any tiling is the one returned |
| `Lexer.Lex` | grammar.js:6-8 | the tokens tile the whole text, with a word right after `.` read as an identifier; or there is no tiling and the error names its position and reason; a tiling that exists is always the result |
| `Lexer.TilingUnique` | grammar.js:6 | a text has at most one tiling into tokens and whitespace |
| `Lexer.TokenAtUnique` | grammar.js:17-220 | at most one maximal token starts at any index |
| `Lexer.NotIdentAndBuiltin` | grammar.js:178-192 | in either lexing mode, an identifier token and a builtin-name token never start at the same index |
| `Lexer.TokensOfTiles` | grammar.js:6 | every token of a tiling lies in the text at or after its start and is a well-formed, maximal token at its own position |
| `Lexer.FailureHasNoToken` | grammar.js:215 | at the position of a lexical error no token starts |
| `Lexer.LexSpaced` | grammar.js:6 | well-formed, non-comment lexemes with no builtin name right after a `.`, written with one space after each, are lexed back to exactly those lexemes |
| `Parser.Expect` | grammar.js:11-226 | succeeds exactly when the next lexeme is the expected one, and then consumes only it; otherwise the error names that lexeme and is at the current position |
| `Parser.ExpectIdent` | grammar.js:220 | succeeds exactly when the next lexeme is an identifier, returns its name and consumes only it; otherwise an error expecting an identifier |
| `Parser.ExpectString` | grammar.js:214-215 | succeeds exactly when the next lexeme is a string, returns its text and consumes only it; otherwise an error expecting a string |
| `Parser.SkipSemi` | grammar.js:43 | the optional `;` after a closing `}` (also lines 61, 95, 115, 142, 163) is taken exactly when present, never an error, and nothing else is consumed |
| `Parser.ParseRefList` | grammar.js:224-226 | a `commaSep1` of identifiers: on success at least one name, in source order, and no `,` is left unread after it |
| `Parser.ParseSepRefList` | grammar.js:57 | the optional `: ref_list`: names are returned exactly when the separator came first |
| `Parser.ParseAnnotationArgs` | grammar.js:24 | the annotation's `commaSep1` of arguments: at least one, in source order |
| `Parser.ParseAnnotationArg` | grammar.js:28-32 | reads `key = string` or a bare string, and consumes exactly its printed form |
| `Parser.ParseAnnotationTail` | grammar.js:24-25 | reads the optional `( args )` and the closing `]` |
| `Parser.ParseAnnotation` | grammar.js:20-26 | reads `#[ name (args)? ]`; `#[` not followed by an identifier is an error one lexeme in, expecting an identifier |
| `Parser.ParseAnnotations` | grammar.js:54 | reads the repeated annotation prefix in order, and stops only where no `#[` follows |
| `Parser.ParseSourceFile` | grammar.js:11 | on success the input is exactly the printed form of a well-formed tree |
| `Parser.ParseTopLevelItems` | grammar.js:11 | reads items up to the end of input, all well formed, in order |
| `Parser.ParseTopLevelItem` | grammar.js:13 | a module or an extern module; input that starts with none of `mod`, `extern`, `#[` is an error naming those three |
| `Parser.ParseExternModule` | grammar.js:35-44 | reads `extern mod names { source } ;?` with at least one name |
| `Parser.ParseExternSource` | grammar.js:41 | the source is a path exactly when it starts with `path`; a leading word other than `path` or `git` is an error naming both |
| `Parser.ParsePathSource` | grammar.js:46 | reads `path = string ;` as a path source |
| `Parser.ParseGitSource` | grammar.js:48-49 | reads `git = string , channel = string ;` as a git source |
| `Parser.ParseModule` | grammar.js:52-62 | reads a module after its annotations, keeps those annotations on it, and returns a well-formed module |
| `Parser.ParseModuleItems` | grammar.js:59 | reads well-formed module items up to the closing `}`, in order |
| `Parser.ParseModuleItem` | grammar.js:66-74 | reads one well-formed module item together with its annotations |
| `Parser.ParseModuleItemBody` | grammar.js:66-74 | dispatches on the word after the annotations, and the item it returns carries exactly those annotations |
| `Parser.ParseProperty` | grammar.js:77-83 | reads `key = value ;` and consumes exactly its printed form |
| `Parser.ParseProperties` | grammar.js:161 | reads properties up to the closing `}`, in order |
| `Parser.ParseEnvironment` | grammar.js:86-96 | reads an environment after its annotations and returns a well-formed one with those annotations |
| `Parser.ParseEnvItems` | grammar.js:93 | reads well-formed environment items up to the closing `}`, in order |
| `Parser.ParseEnvItem` | grammar.js:98-101 | the item is a `gx.vars` block exactly when it starts with `gx.vars`, and `gx.vars` not followed by `{` is an error |
| `Parser.ParseGxVarsBlock` | grammar.js:100-101 | reads `gx.vars { props? }` with no trailing `;` |
| `Parser.ParseFlowDefinition` | grammar.js:104-116 | reads a flow definition after its annotations and returns a well-formed one with those annotations |
| `Parser.ParseFlowBefore` | grammar.js:108 | the optional ref-list prefix, closed by a vertical bar, is empty exactly when `@` comes first |
| `Parser.ParseFlowReference` | grammar.js:118-126 | reads `flow name : ref_list ;` with a non-empty list |
| `Parser.ParseFlowItems` | grammar.js:113 | reads well-formed flow items up to the closing `}`, in order |
| `Parser.ParseFlowItem` | grammar.js:128 | reads one command statement or property |
| `Parser.ParseFunctionDef` | grammar.js:131-143 | reads a function after its annotations and returns a well-formed one with those annotations |
| `Parser.ParseFunctionParams` | grammar.js:145 | the `commaSep1` of parameters: at least one, in source order |
| `Parser.ParseFunctionParam` | grammar.js:147-152 | the parameter is variadic exactly when it starts with `*` |
| `Parser.ParseParamName` | grammar.js:149-150 | reads the parameter name and keeps the variadic mark it was given |
| `Parser.ParseParamDefault` | grammar.js:151 | a default is present exactly when `=` follows the name |
| `Parser.ParseCommandStmts` | grammar.js:140 | reads well-formed command statements up to the closing `}`, in order |
| `Parser.ParseActivity` | grammar.js:155-164 | reads an activity after its annotations and keeps them on it |
| `Parser.ParseCommandStmt` | grammar.js:167-168 | the statement is a builtin command exactly when its first lexeme is a builtin name; it is well formed |
| `Parser.ParseCallArgs` | grammar.js:197-199 | reads `( props? )` |
| `Parser.ParseTarget` | grammar.js:196 | a dotted target has at least two segments |
| `Parser.ParseDottedName` | grammar.js:202 | reads identifiers joined by `.`, in order, and no `.` is left unread after them |
| `Parser.ParseCommandProps` | grammar.js:204 | the `commaSep1` of command properties: at least one, in source order |
| `Parser.ParseOptCommandProps` | grammar.js:174 | the optional `command_props` before a closing lexeme is empty exactly when that lexeme comes first |
| `Parser.ParseCommandProp` | grammar.js:206-211 | reads `key : value` and consumes exactly its printed form |
| `RoundTrip.RoundTripRefList` | grammar.js:64 | any non-empty list of names, printed with commas, is read back as the same list |
| `RoundTrip.RoundTripSepRefList` | grammar.js:57 | an optional `: ref_list` is read back as printed |
| `RoundTrip.RoundTripAnnotationArg` | grammar.js:28-32 | every annotation argument is read back as printed |
| `RoundTrip.RoundTripAnnotationArgs` | grammar.js:24 | every non-empty argument list is read back as printed |
| `RoundTrip.RoundTripFunctionParams` | grammar.js:145 | every non-empty parameter list is read back as printed |
| `RoundTrip.RoundTripCommandProps` | grammar.js:204 | every non-empty property list is read back as printed |
| `RoundTrip.RoundTripOptCommandProps` | grammar.js:174 | an optional property list before a closing lexeme is read back as printed |
| `RoundTrip.RoundTripAnnotationTail` | grammar.js:24-25 | the optional argument list and closing `]` are read back as printed |
| `RoundTrip.RoundTripAnnotation` | grammar.js:20-26 | every annotation is read back as printed |
| `RoundTrip.RoundTripAnnotations` | grammar.js:54 | every annotation prefix is read back as printed |
| `RoundTrip.RoundTripCommandProp` | grammar.js:206-211 | every command property is read back as printed |
| `RoundTrip.RoundTripCallArgs` | grammar.js:197-199 | every argument list in parentheses is read back as printed |
| `RoundTrip.RoundTripDotted` | grammar.js:202 | every non-empty dotted name is read back as printed |
| `RoundTrip.RoundTripTarget` | grammar.js:196 | every plain or dotted target is read back as printed |
| `RoundTrip.RoundTripCommandStmt` | grammar.js:167-176 | every well-formed command statement is read back as printed |
| `RoundTrip.RoundTripCommandStmts` | grammar.js:140 | every sequence of well-formed command statements before `}` is read back as printed |
| `RoundTrip.RoundTripProperty` | grammar.js:77-83 | every property is read back as printed |
| `RoundTrip.RoundTripProperties` | grammar.js:161 | every sequence of properties before `}` is read back as printed |
| `RoundTrip.RoundTripActivity` | grammar.js:155-164 | every activity is read back as printed, with or without its trailing `;` |
| `RoundTrip.RoundTripFunctionParam` | grammar.js:147-152 | every parameter is read back as printed |
| `RoundTrip.RoundTripFunctionDef` | grammar.js:131-143 | every well-formed function is read back as printed, with or without its trailing `;` |
| `RoundTrip.RoundTripGxVarsBlock` | grammar.js:100-101 | every `gx.vars` block is read back as printed |
| `RoundTrip.RoundTripEnvItem` | grammar.js:98 | every well-formed environment item is read back as printed |
| `RoundTrip.RoundTripEnvItems` | grammar.js:93 | every sequence of well-formed environment items before `}` is read back as printed |
| `RoundTrip.RoundTripEnvironment` | grammar.js:86-96 | every well-formed environment is read back as printed, with or without its trailing `;` |
| `RoundTrip.RoundTripFlowItem` | grammar.js:128 | every well-formed flow item is read back as printed |
| `RoundTrip.RoundTripFlowItems` | grammar.js:113 | every sequence of well-formed flow items before `}` is read back as printed |
| `RoundTrip.RoundTripFlowBefore` | grammar.js:108 | the optional ref-list prefix before `@` is read back as printed |
| `RoundTrip.RoundTripFlowDefinition` | grammar.js:104-116 | every well-formed flow definition is read back as printed, with or without its trailing `;` |
| `RoundTrip.RoundTripFlowReference` | grammar.js:118-126 | every flow reference with a non-empty list is read back as printed |
| `RoundTrip.FlowDefinitionAhead` | grammar.js:104-126 | a printed flow definition starts with `flow` and never looks like a flow reference |
| `RoundTrip.RoundTripModuleItemBody` | grammar.js:66-74 | every well-formed module item is read back as printed when its annotations are already read |
| `RoundTrip.RoundTripModuleItem` | grammar.js:66-74 | every well-formed module item with its annotations is read back as printed |
| `RoundTrip.RoundTripModuleItems` | grammar.js:59 | every sequence of well-formed module items before `}` is read back as printed |
| `RoundTrip.RoundTripModule` | grammar.js:52-62 | every well-formed module is read back as printed, with or without its trailing `;` |
| `RoundTrip.RoundTripExternSource` | grammar.js:41-49 | every path or git source is read back as printed |
| `RoundTrip.RoundTripExternModule` | grammar.js:35-44 | every extern module with at least one name is read back as printed, with or without its trailing `;` |
| `RoundTrip.RoundTripTopLevelItem` | grammar.js:13 | every well-formed top-level item is read back as printed |
| `RoundTrip.RoundTripTopLevelItems` | grammar.js:11 | every sequence of well-formed top-level items is read back as printed |
| `RoundTrip.RoundTripSourceFile` | grammar.js:11 | every well-formed tree is parsed back from its printed form |
| `RoundTrip.PrintInjective` | grammar.js:11 | two well-formed trees with the same printed form are equal: the grammar is unambiguous on them |
| `RoundTrip.ParseStable` | grammar.js:11 | printing a parsed tree and parsing it again gives the same result |
| `Gxl.Significant` | grammar.js:6 | keeps exactly the tokens that are not comments |
| `Gxl.ParseDocument` | grammar.js:6-11 | a lexical error is reported as such; a parsed tree is well formed and its printed form is exactly the text's non-comment lexemes; an error position lies within the text |
| `Gxl.SignificantDotSafe` | grammar.js:202 | in the non-comment lexemes of any tiling, no builtin name follows a `.` |
| `Gxl.ParseDocumentComplete` | grammar.js:6-11 | a text whose tiling, comments dropped, is the printed form of a well-formed tree parses to exactly that tree |
| `Gxl.RenderParses` | grammar.js:11 | a well-formed tree written as text is parsed back to the same tree |
| `Gxl.ParsedIsPrintable` | grammar.js:6 | the lexemes of a parsed tree are well formed, contain no comment, and have no builtin name right after a `.` |
| `Gxl.ReparseRendered` | grammar.js:11 | a parsed document, written back as text and parsed again, gives the same tree |
| `LexFacts.CommentToken` | grammar.js:17 | a comment starts with `#` but not `#[`, holds no newline, and ends at a newline or at the end of the text |
| `LexFacts.CommentsOfLex` | grammar.js:17 | in the lexing of any text, every comment has that shape; so `#[` never starts a comment and no comment crosses a newline |
| `LexFacts.AnnotationOpenerWins` | grammar.js:22 | where `#[` occurs at a token's start, that token is the annotation opener |
| `LexFacts.EscapedQuoteDoesNotClose` | grammar.js:215 | `"\"` does not end a string: a string token starting there is longer than three characters |
| `LexFacts.UnclosedString` | grammar.js:215 | an opening quote with no later quote is an unterminated-string error, and no string token starts there |
| `LexFacts.NumberTextIsPattern` | grammar.js:217 | the number predicate agrees with a direct reading of `\d+(\.\d+)?`, in both directions |
| `LexFacts.NumberStopsBeforeBareDot` | grammar.js:217 | after digits, a `.` with no digit after it is not part of the number |
| `LexFacts.NumberTakesFraction` | grammar.js:217 | digits, `.` and digits form one number token |
| `GrammarFacts.BuiltinNameToken` | grammar.js:178-192 | outside the after-dot mode, where a builtin name occurs and no identifier character follows it, the token there is that builtin name and nothing else |
| `GrammarFacts.BuiltinNameAfterDot` | grammar.js:202 | right after a `.`, where the text of a builtin name occurs, the token there is the identifier `gx` and nothing else |
| `GrammarFacts.CommandKind` | grammar.js:167-202 | a builtin command starts with its builtin-name lexeme; a call starts with an identifier; a dotted call has at least two segments joined by `.` |
| `GrammarFacts.CommandNeedsSemi` | grammar.js:167-168 | a builtin command or a call without its `;` is an error |
| `GrammarFacts.AnnotatedExternRejected` | grammar.js:13 | annotations before `extern` are an error: only a module takes annotations at the top level |
| `GrammarFacts.ExternOneSource` | grammar.js:41-42 | an extern module with a second source where `}` belongs is an error |
| `GrammarFacts.FlowDispatch` | grammar.js:104-126 | after `flow`, the item is a reference exactly when `name :` follows, and a definition otherwise |
| `GrammarFacts.FlowDefinitionNeedsAt` | grammar.js:109 | `flow name {` is an error: a definition's name needs `@` |
| `GrammarFacts.FlowReferenceNeedsRefs` | grammar.js:123-125 | `flow name : ;` is an error: a reference needs a non-empty list |
| `GrammarFacts.GxVarsTakesNoSemi` | grammar.js:100-101 | a `;` after a `gx.vars` block in an environment body is an error |
| `GrammarFacts.GxVarsCallOnlyInFlow` | grammar.js:98-101 | `gx.vars(...)` is read as a builtin command in a flow body and is an error in an environment body |
| `GrammarFacts.ActivityRejectsCommand` | grammar.js:161 | a command statement in an activity body is an error |
| `GrammarFacts.FunctionBodyRejectsProperty` | grammar.js:140 | a property in a function body is an error |
| `GrammarFacts.PropertyShape` | grammar.js:77-83 | `key = value` is accepted exactly when the value is a string or a number and `;` follows |

## Left out

- tree-sitter's generated LR/GLR tables, its conflict resolution, its error recovery and incremental re-parsing: the parser is deterministic and stops at the first error.
- A general regular-expression engine: the patterns of lines 17, 215, 217 and 220 are written as explicit predicates and scanners.
- Unicode whitespace: `\s` (line 6) is the fixed set of space, tab, line feed, vertical tab, form feed and carriage return.
- Line and column numbers: a lexical error carries its index in the text, and a parse error carries the count of lexemes left (turned into an index by `Gxl.ParseDocument`). Neither names the token found.
- Context-aware lexing in general: tree-sitter lexes only the tokens valid in the current parse state. The lexer tracks one bit of that state, whether the previous token was `.`, and otherwise reads a builtin name by longest match wherever one occurs. In the other states where a builtin name is not valid (a property key in a module or activity body, a name after `mod`, `@` or `#[`, a reference list, a property value) tree-sitter would read the identifier `gx`, and the `.` after it is not valid there either, so both reject the text.
- Keywords: where a module body may open an item, `env`, `flow`, `fn` and `activity` are taken as keywords and not as property keys, as keyword extraction does. So a property keyed by one of those words is not well formed in a module body.
- A backslash followed by a newline inside a string: the regular expression `.` in `\\.` (line 215) excludes the newline, so this is not an escape, and such a string is an error.
- The tree-sitter DSL import and the editor and language bindings (lines 1 and 3): they are packaging, not grammar.
- What happens after the tree is built: running flows and commands, fetching `extern mod` sources from a path or git, and variable substitution. None of it is in `grammar.js`.
- Source spans on tree nodes: the tree keeps names, values and the optional `;` flags, but no positions.

/**
  A deterministic recursive-descent parser for the rules of the GXL
  grammar, one function per rule. Each function takes the lexemes still to
  be read and returns the node it recognised together with the lexemes after
  it, or the first error.

  Every successful call is proved to have consumed exactly the printed form
  of the node it returns (`ts == PrintX(x, rest)`), and the node is proved
  well formed. So the parser invents nothing, drops nothing, and keeps every
  list in source order. The converse, that every well-formed node is parsed
  back from its printed form, is proved in module RoundTrip.

  Keywords are identifiers compared by text at the positions where the
  grammar expects them; elsewhere the same words are ordinary names.
*/
module Parser {
  import opened Results
  import opened Lexer
  import opened Syntax

  /** How many lexemes were left when parsing stopped, and what would have been accepted there. */
  datatype ParseError = ParseError(remaining: nat, expected: seq<string>)

  predicate StartsWith(ts: seq<Lexeme>, lx: Lexeme) {
    |ts| > 0 && ts[0] == lx
  }

  predicate StartsWithKind(ts: seq<Lexeme>, k: Kind) {
    |ts| > 0 && ts[0].kind == k
  }

  lemma SplitFirst(ts: seq<Lexeme>)
    requires |ts| > 0
    ensures ts == [ts[0]] + ts[1..]
  {
  }

  // ---------------------------------------------------------------------
  // Terminals
  // ---------------------------------------------------------------------

  function Expect(ts: seq<Lexeme>, lx: Lexeme): (r: Result<seq<Lexeme>, ParseError>)
    ensures r.Ok? <==> StartsWith(ts, lx)
    ensures r.Ok? ==> ts == [lx] + r.value
    ensures r.Err? ==> r.error == ParseError(|ts|, [lx.text])
  {
    if StartsWith(ts, lx) then Ok(ts[1..]) else Err(ParseError(|ts|, [lx.text]))
  }

  function ExpectIdent(ts: seq<Lexeme>): (r: Result<(string, seq<Lexeme>), ParseError>)
    ensures r.Ok? <==> StartsWithKind(ts, Ident)
    ensures r.Ok? ==> ts == [Id(r.value.0)] + r.value.1
    ensures r.Err? ==> r.error == ParseError(|ts|, ["identifier"])
  {
    if StartsWithKind(ts, Ident) then Ok((ts[0].text, ts[1..])) else Err(ParseError(|ts|, ["identifier"]))
  }

  function ExpectString(ts: seq<Lexeme>): (r: Result<(string, seq<Lexeme>), ParseError>)
    ensures r.Ok? <==> StartsWithKind(ts, Str)
    ensures r.Ok? ==> ts == [StrLit(r.value.0)] + r.value.1
    ensures r.Err? ==> r.error == ParseError(|ts|, ["string"])
  {
    if StartsWithKind(ts, Str) then Ok((ts[0].text, ts[1..])) else Err(ParseError(|ts|, ["string"]))
  }

  /** `optional(";")` after a closing `}`: taken when present, never an error. */
  function SkipSemi(ts: seq<Lexeme>): (r: (bool, seq<Lexeme>))
    ensures r.0 <==> StartsWith(ts, Sym(";"))
    ensures ts == PrintOptSemi(r.0, r.1)
    ensures |r.1| <= |ts|
  {
    if StartsWith(ts, Sym(";")) then (true, ts[1..]) else (false, ts)
  }

  // ---------------------------------------------------------------------
  // Lists built with commaSep1
  // ---------------------------------------------------------------------

  /** `ref_list: commaSep1(identifier)`, also the names of an extern module. */
  function ParseRefList(ts: seq<Lexeme>): (r: Result<(seq<string>, seq<Lexeme>), ParseError>)
    ensures r.Ok? ==> |r.value.0| >= 1 && ts == PrintRefList(r.value.0, r.value.1)
    ensures r.Ok? ==> !StartsWith(r.value.1, Sym(","))
    ensures r.Err? ==> r.error.remaining <= |ts|
    ensures r.Ok? ==> |r.value.1| < |ts|
    decreases |ts|
  {
    var first :- ExpectIdent(ts);
    if StartsWith(first.1, Sym(",")) then
      SplitFirst(first.1);
      var more :- ParseRefList(first.1[1..]);
      assert ([first.0] + more.0)[1..] == more.0;
      Ok(([first.0] + more.0, more.1))
    else
      Ok(([first.0], first.1))
  }

  /** `optional(seq(sep, ref_list))`, for `: ref_list` and `| ref_list`. */
  function ParseSepRefList(sep: string, ts: seq<Lexeme>): (r: Result<(seq<string>, seq<Lexeme>), ParseError>)
    ensures r.Ok? ==> ts == PrintSepRefList(sep, r.value.0, r.value.1)
    ensures r.Ok? ==> (|r.value.0| >= 1 <==> StartsWith(ts, Sym(sep)))
    ensures r.Err? ==> r.error.remaining <= |ts|
    ensures r.Ok? ==> |r.value.1| <= |ts|
  {
    if StartsWith(ts, Sym(sep)) then ParseRefList(ts[1..]) else Ok(([], ts))
  }

  function ParseAnnotationArgs(ts: seq<Lexeme>): (r: Result<(seq<AnnotationArg>, seq<Lexeme>), ParseError>)
    ensures r.Ok? ==> |r.value.0| >= 1 && ts == PrintAnnotationArgs(r.value.0, r.value.1)
    ensures r.Err? ==> r.error.remaining <= |ts|
    ensures r.Ok? ==> |r.value.1| < |ts|
    decreases |ts|
  {
    var first :- ParseAnnotationArg(ts);
    if StartsWith(first.1, Sym(",")) then
      SplitFirst(first.1);
      var more :- ParseAnnotationArgs(first.1[1..]);
      assert ([first.0] + more.0)[1..] == more.0;
      Ok(([first.0] + more.0, more.1))
    else
      Ok(([first.0], first.1))
  }

  function ParseFunctionParams(ts: seq<Lexeme>): (r: Result<(seq<FunctionParam>, seq<Lexeme>), ParseError>)
    ensures r.Ok? ==> |r.value.0| >= 1 && ts == PrintFunctionParams(r.value.0, r.value.1)
    ensures r.Err? ==> r.error.remaining <= |ts|
    ensures r.Ok? ==> |r.value.1| < |ts|
    decreases |ts|
  {
    var first :- ParseFunctionParam(ts);
    if StartsWith(first.1, Sym(",")) then
      SplitFirst(first.1);
      var more :- ParseFunctionParams(first.1[1..]);
      assert ([first.0] + more.0)[1..] == more.0;
      Ok(([first.0] + more.0, more.1))
    else
      Ok(([first.0], first.1))
  }

  function ParseCommandProps(ts: seq<Lexeme>): (r: Result<(seq<CommandProp>, seq<Lexeme>), ParseError>)
    ensures r.Ok? ==> |r.value.0| >= 1 && ts == PrintCommandProps(r.value.0, r.value.1)
    ensures r.Err? ==> r.error.remaining <= |ts|
    ensures r.Ok? ==> |r.value.1| < |ts|
    decreases |ts|
  {
    var first :- ParseCommandProp(ts);
    if StartsWith(first.1, Sym(",")) then
      SplitFirst(first.1);
      var more :- ParseCommandProps(first.1[1..]);
      assert ([first.0] + more.0)[1..] == more.0;
      Ok(([first.0] + more.0, more.1))
    else
      Ok(([first.0], first.1))
  }

  /** `optional(command_props)` followed by the lexeme `close`, which is consumed too. */
  function ParseOptCommandProps(ts: seq<Lexeme>, close: Lexeme): (r: Result<(seq<CommandProp>, seq<Lexeme>), ParseError>)
    ensures r.Ok? ==> ts == PrintCommandProps(r.value.0, [close] + r.value.1)
    ensures r.Ok? ==> (r.value.0 == [] <==> StartsWith(ts, close))
    ensures r.Err? ==> r.error.remaining <= |ts|
    ensures r.Ok? ==> |r.value.1| < |ts|
  {
    if StartsWith(ts, close) then Ok(([], ts[1..]))
    else
      var props :- ParseCommandProps(ts);
      var t :- Expect(props.1, close);
      Ok((props.0, t))
  }

  // ---------------------------------------------------------------------
  // Annotations
  // ---------------------------------------------------------------------

  /** `annotation_arg: choice(seq(key, "=", string), string)` */
  function ParseAnnotationArg(ts: seq<Lexeme>): (r: Result<(AnnotationArg, seq<Lexeme>), ParseError>)
    ensures r.Ok? ==> ts == PrintAnnotationArg(r.value.0, r.value.1)
    ensures r.Err? ==> r.error.remaining <= |ts|
    ensures r.Ok? ==> |r.value.1| < |ts|
  {
    if StartsWithKind(ts, Str) then
      Ok((BareArg(ts[0].text), ts[1..]))
    else if StartsWithKind(ts, Ident) then
      var t1 :- Expect(ts[1..], Sym("="));
      var value :- ExpectString(t1);
      Ok((KeyedArg(ts[0].text, value.0), value.1))
    else
      Err(ParseError(|ts|, ["identifier", "string"]))
  }

  /** `annotation: "#[" name optional("(" commaSep1(annotation_arg) ")") "]"` */
  function ParseAnnotation(ts: seq<Lexeme>): (r: Result<(Annotation, seq<Lexeme>), ParseError>)
    ensures r.Ok? ==> ts == PrintAnnotation(r.value.0, r.value.1)
    ensures r.Err? ==> r.error.remaining <= |ts|
    ensures r.Ok? ==> |r.value.1| < |ts|
    ensures StartsWith(ts, HashBracket) && !StartsWithKind(ts[1..], Ident) ==> r == Err(ParseError(|ts| - 1, ["identifier"]))
  {
    var t1 :- Expect(ts, HashBracket);
    var name :- ExpectIdent(t1);
    var rest :- ParseAnnotationTail(name.1);
    Ok((Annotation(name.0, rest.0), rest.1))
  }

  /** After the name: `]`, or `(` commaSep1(annotation_arg) `)` and then `]`. */
  function ParseAnnotationTail(ts: seq<Lexeme>): (r: Result<(seq<AnnotationArg>, seq<Lexeme>), ParseError>)
    ensures r.Ok? ==> ts == PrintAnnotationTail(r.value.0, r.value.1)
    ensures r.Err? ==> r.error.remaining <= |ts|
    ensures r.Ok? ==> |r.value.1| < |ts|
  {
    if StartsWith(ts, Sym("(")) then
      var args :- ParseAnnotationArgs(ts[1..]);
      var t2 :- Expect(args.1, Sym(")"));
      var t3 :- Expect(t2, Sym("]"));
      assert args.1 == [Sym(")")] + ([Sym("]")] + t3);
      SplitFirst(ts);
      Ok((args.0, t3))
    else
      var t3 :- Expect(ts, Sym("]"));
      Ok(([], t3))
  }

  /** `repeat(annotation)`: annotations are read while the next lexeme is `#[`. */
  function ParseAnnotations(ts: seq<Lexeme>): (r: Result<(seq<Annotation>, seq<Lexeme>), ParseError>)
    ensures r.Ok? ==> ts == PrintAnnotations(r.value.0, r.value.1)
    ensures r.Ok? ==> !StartsWith(r.value.1, HashBracket)
    ensures r.Err? ==> r.error.remaining <= |ts|
    ensures r.Ok? ==> |r.value.1| <= |ts|
    decreases |ts|
  {
    if StartsWith(ts, HashBracket) then
      var first :- ParseAnnotation(ts);
      var more :- ParseAnnotations(first.1);
      assert ([first.0] + more.0)[1..] == more.0;
      Ok(([first.0] + more.0, more.1))
    else
      Ok(([], ts))
  }

  // ---------------------------------------------------------------------
  // Top level
  // ---------------------------------------------------------------------

  /** `source_file: repeat(_top_level_item)`, which must use up all the input. */
  function ParseSourceFile(ts: seq<Lexeme>): (r: Result<SourceFile, ParseError>)
    ensures r.Ok? ==> WellFormedSourceFile(r.value) && ts == PrintSourceFile(r.value)
    ensures r.Err? ==> r.error.remaining <= |ts|
  {
    var items :- ParseTopLevelItems(ts);
    Ok(SourceFile(items))
  }

  function ParseTopLevelItems(ts: seq<Lexeme>): (r: Result<seq<TopLevelItem>, ParseError>)
    ensures r.Ok? ==> (forall k :: 0 <= k < |r.value| ==> WellFormedTopLevelItem(r.value[k]))
    ensures r.Ok? ==> ts == PrintTopLevelItems(r.value, [])
    ensures r.Err? ==> r.error.remaining <= |ts|
    decreases |ts|
  {
    if ts == [] then Ok([])
    else
      var first :- ParseTopLevelItem(ts);
      var more :- ParseTopLevelItems(first.1);
      assert ([first.0] + more)[1..] == more;
      Ok([first.0] + more)
  }

  /** `_top_level_item: choice(module, extern_module)`; only a module takes annotations. */
  function ParseTopLevelItem(ts: seq<Lexeme>): (r: Result<(TopLevelItem, seq<Lexeme>), ParseError>)
    ensures r.Ok? ==> WellFormedTopLevelItem(r.value.0) && ts == PrintTopLevelItem(r.value.0, r.value.1)
    ensures r.Err? ==> r.error.remaining <= |ts|
    ensures r.Ok? ==> |r.value.1| < |ts|
    ensures !StartsWith(ts, Id("extern")) && !StartsWith(ts, Id("mod")) && !StartsWith(ts, HashBracket) ==>
      r == Err(ParseError(|ts|, ["mod", "extern", "#["]))
  {
    if StartsWith(ts, Id("extern")) then
      var e :- ParseExternModule(ts);
      Ok((ExternDecl(e.0), e.1))
    else if StartsWith(ts, Id("mod")) || StartsWith(ts, HashBracket) then
      var anns :- ParseAnnotations(ts);
      var m :- ParseModule(anns.0, anns.1);
      Ok((ModuleDecl(m.0), m.1))
    else
      Err(ParseError(|ts|, ["mod", "extern", "#["]))
  }

  // ---------------------------------------------------------------------
  // Extern modules
  // ---------------------------------------------------------------------

  /** `extern_module: "extern" "mod" commaSep1(name) "{" choice(path_source, git_source) "}" optional(";")` */
  function ParseExternModule(ts: seq<Lexeme>): (r: Result<(ExternModule, seq<Lexeme>), ParseError>)
    ensures r.Ok? ==> |r.value.0.names| >= 1 && ts == PrintExternModule(r.value.0, r.value.1)
    ensures r.Err? ==> r.error.remaining <= |ts|
    ensures r.Ok? ==> |r.value.1| < |ts|
  {
    var t1 :- Expect(ts, Id("extern"));
    var t2 :- Expect(t1, Id("mod"));
    var names :- ParseRefList(t2);
    var t3 :- Expect(names.1, Sym("{"));
    var source :- ParseExternSource(t3);
    var t4 :- Expect(source.1, Sym("}"));
    var semi := SkipSemi(t4);
    Ok((ExternModule(names.0, source.0, semi.0), semi.1))
  }

  /** `choice(path_source, git_source)`, decided by the leading keyword. */
  function ParseExternSource(ts: seq<Lexeme>): (r: Result<(ExternSource, seq<Lexeme>), ParseError>)
    ensures r.Ok? ==> ts == PrintExternSource(r.value.0, r.value.1)
    ensures r.Ok? ==> (r.value.0.PathSource? <==> StartsWith(ts, Id("path")))
    ensures r.Err? ==> r.error.remaining <= |ts|
    ensures r.Ok? ==> |r.value.1| < |ts|
    ensures !StartsWith(ts, Id("path")) && !StartsWith(ts, Id("git")) ==> r == Err(ParseError(|ts|, ["path", "git"]))
  {
    if StartsWith(ts, Id("path")) then ParsePathSource(ts)
    else if StartsWith(ts, Id("git")) then ParseGitSource(ts)
    else Err(ParseError(|ts|, ["path", "git"]))
  }

  /** `path_source: "path" "=" string ";"` */
  function ParsePathSource(ts: seq<Lexeme>): (r: Result<(ExternSource, seq<Lexeme>), ParseError>)
    ensures r.Ok? ==> r.value.0.PathSource? && ts == PrintExternSource(r.value.0, r.value.1)
    ensures r.Err? ==> r.error.remaining <= |ts|
    ensures r.Ok? ==> |r.value.1| < |ts|
  {
    var t1 :- Expect(ts, Id("path"));
    var t2 :- Expect(t1, Sym("="));
    var path :- ExpectString(t2);
    var t3 :- Expect(path.1, Sym(";"));
    Ok((PathSource(path.0), t3))
  }

  /** `git_source: "git" "=" string "," "channel" "=" string ";"` */
  function ParseGitSource(ts: seq<Lexeme>): (r: Result<(ExternSource, seq<Lexeme>), ParseError>)
    ensures r.Ok? ==> r.value.0.GitSource? && ts == PrintExternSource(r.value.0, r.value.1)
    ensures r.Err? ==> r.error.remaining <= |ts|
    ensures r.Ok? ==> |r.value.1| < |ts|
  {
    var t1 :- Expect(ts, Id("git"));
    var t2 :- Expect(t1, Sym("="));
    var url :- ExpectString(t2);
    var t3 :- Expect(url.1, Sym(","));
    var t4 :- Expect(t3, Id("channel"));
    var t5 :- Expect(t4, Sym("="));
    var channel :- ExpectString(t5);
    var t6 :- Expect(channel.1, Sym(";"));
    Ok((GitSource(url.0, channel.0), t6))
  }

  // ---------------------------------------------------------------------
  // Modules
  // ---------------------------------------------------------------------

  /** `module`, from the `mod` keyword on; `anns` are the annotations already read. */
  function ParseModule(anns: seq<Annotation>, ts: seq<Lexeme>): (r: Result<(Module, seq<Lexeme>), ParseError>)
    ensures r.Ok? ==> r.value.0.annotations == anns && WellFormedModule(r.value.0)
    ensures r.Ok? ==> ts == PrintModule(r.value.0, r.value.1)
    ensures r.Err? ==> r.error.remaining <= |ts|
    ensures r.Ok? ==> |r.value.1| < |ts|
  {
    var t1 :- Expect(ts, Id("mod"));
    var name :- ExpectIdent(t1);
    var refs :- ParseSepRefList(":", name.1);
    var t2 :- Expect(refs.1, Sym("{"));
    var items :- ParseModuleItems(t2);
    var semi := SkipSemi(items.1);
    Ok((Module(anns, name.0, refs.0, items.0, semi.0), semi.1))
  }

  /** `repeat(_module_item)` up to the closing `}`. */
  function ParseModuleItems(ts: seq<Lexeme>): (r: Result<(seq<ModuleItem>, seq<Lexeme>), ParseError>)
    ensures r.Ok? ==> (forall k :: 0 <= k < |r.value.0| ==> WellFormedModuleItem(r.value.0[k]))
    ensures r.Ok? ==> ts == PrintModuleItems(r.value.0, [Sym("}")] + r.value.1)
    ensures r.Err? ==> r.error.remaining <= |ts|
    ensures r.Ok? ==> |r.value.1| < |ts|
    decreases |ts|
  {
    if StartsWith(ts, Sym("}")) then Ok(([], ts[1..]))
    else
      var first :- ParseModuleItem(ts);
      var more :- ParseModuleItems(first.1);
      assert ([first.0] + more.0)[1..] == more.0;
      Ok(([first.0] + more.0, more.1))
  }

  /**
    `flow ident :` can only begin a flow reference; everything else after
    `flow` is a flow definition.
  */
  predicate IsFlowReferenceAhead(ts: seq<Lexeme>) {
    |ts| >= 3 && ts[1].kind == Ident && ts[2] == Sym(":")
  }

  /** `_module_item`: the annotations first, then the item they belong to. */
  function ParseModuleItem(ts: seq<Lexeme>): (r: Result<(ModuleItem, seq<Lexeme>), ParseError>)
    ensures r.Ok? ==> WellFormedModuleItem(r.value.0) && ts == PrintModuleItem(r.value.0, r.value.1)
    ensures r.Err? ==> r.error.remaining <= |ts|
    ensures r.Ok? ==> |r.value.1| < |ts|
  {
    var anns :- ParseAnnotations(ts);
    ParseModuleItemBody(anns.0, anns.1)
  }

  /**
    The keyword decides which item follows the annotations `anns`; a plain
    identifier starts a property, which takes no annotations.
  */
  function ParseModuleItemBody(anns: seq<Annotation>, ts: seq<Lexeme>): (r: Result<(ModuleItem, seq<Lexeme>), ParseError>)
    ensures r.Ok? ==> ModuleItemAnnotations(r.value.0) == anns && WellFormedModuleItem(r.value.0)
    ensures r.Ok? ==> ts == PrintModuleItemBody(r.value.0, r.value.1)
    ensures r.Err? ==> r.error.remaining <= |ts|
    ensures r.Ok? ==> |r.value.1| < |ts|
  {
    if StartsWith(ts, Id("env")) then
      match ParseEnvironment(anns, ts)
      case Err(e) => Err(e)
      case Ok((env, rest)) => Ok((EnvItem(env), rest))
    else if StartsWith(ts, Id("flow")) && IsFlowReferenceAhead(ts) then
      match ParseFlowReference(anns, ts)
      case Err(e) => Err(e)
      case Ok((f, rest)) => Ok((FlowRefItem(f), rest))
    else if StartsWith(ts, Id("flow")) then
      match ParseFlowDefinition(anns, ts)
      case Err(e) => Err(e)
      case Ok((f, rest)) => Ok((FlowDefItem(f), rest))
    else if StartsWith(ts, Id("fn")) then
      match ParseFunctionDef(anns, ts)
      case Err(e) => Err(e)
      case Ok((f, rest)) => Ok((FnItem(f), rest))
    else if StartsWith(ts, Id("activity")) then
      match ParseActivity(anns, ts)
      case Err(e) => Err(e)
      case Ok((a, rest)) => Ok((ActivityItem(a), rest))
    else if anns == [] && StartsWithKind(ts, Ident) then
      match ParseProperty(ts)
      case Err(e) => Err(e)
      case Ok((p, rest)) => Ok((PropertyItem(p), rest))
    else
      Err(ParseError(|ts|, ["env", "flow", "fn", "activity"] + (if anns == [] then ["identifier", "}"] else [])))
  }

  // ---------------------------------------------------------------------
  // Properties
  // ---------------------------------------------------------------------

  /** `property: key "=" choice(string, number) ";"` */
  function ParseProperty(ts: seq<Lexeme>): (r: Result<(Property, seq<Lexeme>), ParseError>)
    ensures r.Ok? ==> ts == PrintProperty(r.value.0, r.value.1)
    ensures r.Err? ==> r.error.remaining <= |ts|
    ensures r.Ok? ==> |r.value.1| < |ts|
  {
    var key :- ExpectIdent(ts);
    var t1 :- Expect(key.1, Sym("="));
    var value :-
      if StartsWithKind(t1, Str) then Ok(StringValue(t1[0].text))
      else if StartsWithKind(t1, Num) then Ok(NumberValue(t1[0].text))
      else Err(ParseError(|t1|, ["string", "number"]));
    var t2 :- Expect(t1[1..], Sym(";"));
    Ok((Property(key.0, value), t2))
  }

  /** `repeat(property)` up to the closing `}` (the body of an activity). */
  function ParseProperties(ts: seq<Lexeme>): (r: Result<(seq<Property>, seq<Lexeme>), ParseError>)
    ensures r.Ok? ==> ts == PrintProperties(r.value.0, [Sym("}")] + r.value.1)
    ensures r.Err? ==> r.error.remaining <= |ts|
    ensures r.Ok? ==> |r.value.1| < |ts|
    decreases |ts|
  {
    if StartsWith(ts, Sym("}")) then Ok(([], ts[1..]))
    else if !StartsWithKind(ts, Ident) then Err(ParseError(|ts|, ["identifier", "}"]))
    else
      var first :- ParseProperty(ts);
      var more :- ParseProperties(first.1);
      assert ([first.0] + more.0)[1..] == more.0;
      Ok(([first.0] + more.0, more.1))
  }

  // ---------------------------------------------------------------------
  // Environments
  // ---------------------------------------------------------------------

  function ParseEnvironment(anns: seq<Annotation>, ts: seq<Lexeme>): (r: Result<(Environment, seq<Lexeme>), ParseError>)
    ensures r.Ok? ==> r.value.0.annotations == anns && WellFormedModuleItem(EnvItem(r.value.0))
    ensures r.Ok? ==> ts == PrintEnvironment(r.value.0, r.value.1)
    ensures r.Err? ==> r.error.remaining <= |ts|
    ensures r.Ok? ==> |r.value.1| < |ts|
  {
    var t1 :- Expect(ts, Id("env"));
    var name :- ExpectIdent(t1);
    var refs :- ParseSepRefList(":", name.1);
    var t2 :- Expect(refs.1, Sym("{"));
    var items :- ParseEnvItems(t2);
    var semi := SkipSemi(items.1);
    Ok((Environment(anns, name.0, refs.0, items.0, semi.0), semi.1))
  }

  function ParseEnvItems(ts: seq<Lexeme>): (r: Result<(seq<EnvItem>, seq<Lexeme>), ParseError>)
    ensures r.Ok? ==> (forall k :: 0 <= k < |r.value.0| ==> WellFormedEnvItem(r.value.0[k]))
    ensures r.Ok? ==> ts == PrintEnvItems(r.value.0, [Sym("}")] + r.value.1)
    ensures r.Err? ==> r.error.remaining <= |ts|
    ensures r.Ok? ==> |r.value.1| < |ts|
    decreases |ts|
  {
    if StartsWith(ts, Sym("}")) then Ok(([], ts[1..]))
    else
      var first :- ParseEnvItem(ts);
      var more :- ParseEnvItems(first.1);
      assert ([first.0] + more.0)[1..] == more.0;
      Ok(([first.0] + more.0, more.1))
  }

  /**
    `_env_item: choice(property, command_stmt, gx_vars_block)`: `gx.vars`
    opens a block, `identifier =` a property, any other identifier or builtin
    name a command. In an environment body the text `gx.vars` is the keyword
    of `gx_vars_block`, which tree-sitter prefers over the builtin name of
    the same text, so `gx.vars(...)` is no command there.
  */
  function ParseEnvItem(ts: seq<Lexeme>): (r: Result<(EnvItem, seq<Lexeme>), ParseError>)
    ensures r.Ok? ==> WellFormedEnvItem(r.value.0) && ts == PrintEnvItem(r.value.0, r.value.1)
    ensures r.Ok? ==> (r.value.0.EnvVars? <==> StartsWith(ts, Lexeme(Builtin, "gx.vars")))
    ensures StartsWith(ts, Lexeme(Builtin, "gx.vars")) && !StartsWith(ts[1..], Sym("{")) ==> r.Err?
    ensures r.Err? ==> r.error.remaining <= |ts|
    ensures r.Ok? ==> |r.value.1| < |ts|
  {
    if StartsWith(ts, Lexeme(Builtin, "gx.vars")) then
      var v :- ParseGxVarsBlock(ts);
      Ok((EnvVars(v.0), v.1))
    else if StartsWithKind(ts, Ident) && StartsWith(ts[1..], Sym("=")) then
      var p :- ParseProperty(ts);
      Ok((EnvProperty(p.0), p.1))
    else if StartsWithKind(ts, Ident) || StartsWithKind(ts, Builtin) then
      var c :- ParseCommandStmt(ts);
      Ok((EnvCommand(c.0), c.1))
    else
      Err(ParseError(|ts|, ["identifier", "builtin name", "gx.vars", "}"]))
  }

  /** `gx_vars_block: "gx.vars" "{" optional(command_props) "}"` */
  function ParseGxVarsBlock(ts: seq<Lexeme>): (r: Result<(GxVarsBlock, seq<Lexeme>), ParseError>)
    ensures r.Ok? ==> ts == PrintGxVarsBlock(r.value.0, r.value.1)
    ensures r.Err? ==> r.error.remaining <= |ts|
    ensures r.Ok? ==> |r.value.1| < |ts|
  {
    var t1 :- Expect(ts, Lexeme(Builtin, "gx.vars"));
    var t2 :- Expect(t1, Sym("{"));
    var props :- ParseOptCommandProps(t2, Sym("}"));
    Ok((GxVarsBlock(props.0), props.1))
  }

  // ---------------------------------------------------------------------
  // Flows
  // ---------------------------------------------------------------------

  /**
    `flow_definition: "flow" optional(seq(ref_list, "|")) "@" name
    optional(seq("|", ref_list)) "{" repeat(_flow_item) "}" optional(";")`
  */
  function ParseFlowDefinition(anns: seq<Annotation>, ts: seq<Lexeme>): (r: Result<(FlowDefinition, seq<Lexeme>), ParseError>)
    ensures r.Ok? ==> r.value.0.annotations == anns && WellFormedModuleItem(FlowDefItem(r.value.0))
    ensures r.Ok? ==> ts == PrintFlowDefinition(r.value.0, r.value.1)
    ensures r.Err? ==> r.error.remaining <= |ts|
    ensures r.Ok? ==> |r.value.1| < |ts|
  {
    var t1 :- Expect(ts, Id("flow"));
    var before :- ParseFlowBefore(t1);
    var t2 :- Expect(before.1, Sym("@"));
    var name :- ExpectIdent(t2);
    var after :- ParseSepRefList("|", name.1);
    var t3 :- Expect(after.1, Sym("{"));
    var items :- ParseFlowItems(t3);
    var semi := SkipSemi(items.1);
    Ok((FlowDefinition(anns, before.0, name.0, after.0, items.0, semi.0), semi.1))
  }

  /** `optional(seq(ref_list, "|"))`: absent exactly when `@` comes next. */
  function ParseFlowBefore(ts: seq<Lexeme>): (r: Result<(seq<string>, seq<Lexeme>), ParseError>)
    ensures r.Ok? ==> ts == PrintFlowBefore(r.value.0, r.value.1)
    ensures r.Ok? ==> (r.value.0 == [] <==> StartsWith(ts, Sym("@")))
    ensures r.Err? ==> r.error.remaining <= |ts|
    ensures r.Ok? ==> |r.value.1| <= |ts|
  {
    if StartsWith(ts, Sym("@")) then Ok(([], ts))
    else
      var refs :- ParseRefList(ts);
      var t :- Expect(refs.1, Sym("|"));
      Ok((refs.0, t))
  }

  /** `flow_reference: "flow" name ":" ref_list ";"` */
  function ParseFlowReference(anns: seq<Annotation>, ts: seq<Lexeme>): (r: Result<(FlowReference, seq<Lexeme>), ParseError>)
    ensures r.Ok? ==> r.value.0.annotations == anns && |r.value.0.refs| >= 1
    ensures r.Ok? ==> ts == PrintFlowReference(r.value.0, r.value.1)
    ensures r.Err? ==> r.error.remaining <= |ts|
    ensures r.Ok? ==> |r.value.1| < |ts|
  {
    var t1 :- Expect(ts, Id("flow"));
    var name :- ExpectIdent(t1);
    var t2 :- Expect(name.1, Sym(":"));
    var refs :- ParseRefList(t2);
    var t3 :- Expect(refs.1, Sym(";"));
    Ok((FlowReference(anns, name.0, refs.0), t3))
  }

  function ParseFlowItems(ts: seq<Lexeme>): (r: Result<(seq<FlowItem>, seq<Lexeme>), ParseError>)
    ensures r.Ok? ==> (forall k :: 0 <= k < |r.value.0| ==> WellFormedFlowItem(r.value.0[k]))
    ensures r.Ok? ==> ts == PrintFlowItems(r.value.0, [Sym("}")] + r.value.1)
    ensures r.Err? ==> r.error.remaining <= |ts|
    ensures r.Ok? ==> |r.value.1| < |ts|
    decreases |ts|
  {
    if StartsWith(ts, Sym("}")) then Ok(([], ts[1..]))
    else
      var first :- ParseFlowItem(ts);
      var more :- ParseFlowItems(first.1);
      assert ([first.0] + more.0)[1..] == more.0;
      Ok(([first.0] + more.0, more.1))
  }

  /** `_flow_item: choice(command_stmt, property)`: `identifier =` starts a property. */
  function ParseFlowItem(ts: seq<Lexeme>): (r: Result<(FlowItem, seq<Lexeme>), ParseError>)
    ensures r.Ok? ==> WellFormedFlowItem(r.value.0) && ts == PrintFlowItem(r.value.0, r.value.1)
    ensures r.Err? ==> r.error.remaining <= |ts|
    ensures r.Ok? ==> |r.value.1| < |ts|
  {
    if StartsWithKind(ts, Ident) && StartsWith(ts[1..], Sym("=")) then
      var p :- ParseProperty(ts);
      Ok((FlowProperty(p.0), p.1))
    else if StartsWithKind(ts, Ident) || StartsWithKind(ts, Builtin) then
      var c :- ParseCommandStmt(ts);
      Ok((FlowCommand(c.0), c.1))
    else
      Err(ParseError(|ts|, ["identifier", "builtin name", "}"]))
  }

  // ---------------------------------------------------------------------
  // Functions and activities
  // ---------------------------------------------------------------------

  /** `function_def: "fn" name "(" optional(function_params) ")" "{" repeat(command_stmt) "}" optional(";")` */
  function ParseFunctionDef(anns: seq<Annotation>, ts: seq<Lexeme>): (r: Result<(FunctionDef, seq<Lexeme>), ParseError>)
    ensures r.Ok? ==> r.value.0.annotations == anns && WellFormedModuleItem(FnItem(r.value.0))
    ensures r.Ok? ==> ts == PrintFunctionDef(r.value.0, r.value.1)
    ensures r.Err? ==> r.error.remaining <= |ts|
    ensures r.Ok? ==> |r.value.1| < |ts|
  {
    var t1 :- Expect(ts, Id("fn"));
    var name :- ExpectIdent(t1);
    var t2 :- Expect(name.1, Sym("("));
    var params :- if StartsWith(t2, Sym(")")) then Ok(([], t2)) else ParseFunctionParams(t2);
    var t3 :- Expect(params.1, Sym(")"));
    var t4 :- Expect(t3, Sym("{"));
    var body :- ParseCommandStmts(t4);
    var semi := SkipSemi(body.1);
    Ok((FunctionDef(anns, name.0, params.0, body.0, semi.0), semi.1))
  }

  /** `function_param: optional("*") name optional(seq("=", string))` */
  function ParseFunctionParam(ts: seq<Lexeme>): (r: Result<(FunctionParam, seq<Lexeme>), ParseError>)
    ensures r.Ok? ==> ts == PrintFunctionParam(r.value.0, r.value.1)
    ensures r.Ok? ==> (r.value.0.variadic <==> StartsWith(ts, Sym("*")))
    ensures r.Err? ==> r.error.remaining <= |ts|
    ensures r.Ok? ==> |r.value.1| < |ts|
  {
    if StartsWith(ts, Sym("*")) then
      SplitFirst(ts);
      ParseParamName(true, ts[1..])
    else
      ParseParamName(false, ts)
  }

  function ParseParamName(variadic: bool, ts: seq<Lexeme>): (r: Result<(FunctionParam, seq<Lexeme>), ParseError>)
    ensures r.Ok? ==> r.value.0.variadic == variadic && ts == PrintParamName(r.value.0, r.value.1)
    ensures r.Err? ==> r.error.remaining <= |ts|
    ensures r.Ok? ==> |r.value.1| < |ts|
  {
    var name :- ExpectIdent(ts);
    var default :- ParseParamDefault(name.1);
    Ok((FunctionParam(variadic, name.0, default.0), default.1))
  }

  function ParseParamDefault(ts: seq<Lexeme>): (r: Result<(Option<string>, seq<Lexeme>), ParseError>)
    ensures r.Ok? ==> ts == PrintParamDefault(r.value.0, r.value.1)
    ensures r.Ok? ==> (r.value.0.Some? <==> StartsWith(ts, Sym("=")))
    ensures r.Err? ==> r.error.remaining <= |ts|
    ensures r.Ok? ==> |r.value.1| <= |ts|
  {
    if StartsWith(ts, Sym("=")) then
      SplitFirst(ts);
      var value :- ExpectString(ts[1..]);
      Ok((Some(value.0), value.1))
    else
      Ok((None, ts))
  }

  /** `repeat(command_stmt)` up to the closing `}` (the body of a function). */
  function ParseCommandStmts(ts: seq<Lexeme>): (r: Result<(seq<CommandStmt>, seq<Lexeme>), ParseError>)
    ensures r.Ok? ==> (forall k :: 0 <= k < |r.value.0| ==> WellFormedCommand(r.value.0[k]))
    ensures r.Ok? ==> ts == PrintCommandStmts(r.value.0, [Sym("}")] + r.value.1)
    ensures r.Err? ==> r.error.remaining <= |ts|
    ensures r.Ok? ==> |r.value.1| < |ts|
    decreases |ts|
  {
    if StartsWith(ts, Sym("}")) then Ok(([], ts[1..]))
    else
      var first :- ParseCommandStmt(ts);
      var more :- ParseCommandStmts(first.1);
      assert ([first.0] + more.0)[1..] == more.0;
      Ok(([first.0] + more.0, more.1))
  }

  /** `activity: "activity" name "{" repeat(property) "}" optional(";")` */
  function ParseActivity(anns: seq<Annotation>, ts: seq<Lexeme>): (r: Result<(Activity, seq<Lexeme>), ParseError>)
    ensures r.Ok? ==> r.value.0.annotations == anns
    ensures r.Ok? ==> ts == PrintActivity(r.value.0, r.value.1)
    ensures r.Err? ==> r.error.remaining <= |ts|
    ensures r.Ok? ==> |r.value.1| < |ts|
  {
    var t1 :- Expect(ts, Id("activity"));
    var name :- ExpectIdent(t1);
    var t2 :- Expect(name.1, Sym("{"));
    var props :- ParseProperties(t2);
    var semi := SkipSemi(props.1);
    Ok((Activity(anns, name.0, props.0, semi.0), semi.1))
  }

  // ---------------------------------------------------------------------
  // Commands
  // ---------------------------------------------------------------------

  /**
    `command_stmt: seq(choice(builtin_command, call_expression), ";")`: a
    builtin-name lexeme makes a builtin command, an identifier a call.
  */
  function ParseCommandStmt(ts: seq<Lexeme>): (r: Result<(CommandStmt, seq<Lexeme>), ParseError>)
    ensures r.Ok? ==> WellFormedCommand(r.value.0) && ts == PrintCommandStmt(r.value.0, r.value.1)
    ensures r.Ok? ==> (r.value.0.BuiltinCommand? <==> StartsWithKind(ts, Builtin))
    ensures r.Err? ==> r.error.remaining <= |ts|
    ensures r.Ok? ==> |r.value.1| < |ts|
  {
    if StartsWithKind(ts, Builtin) then
      var props :- ParseCallArgs(ts[1..]);
      var t1 :- Expect(props.1, Sym(";"));
      Ok((BuiltinCommand(ts[0].text, props.0), t1))
    else
      var target :- ParseTarget(ts);
      var props :- ParseCallArgs(target.1);
      var t1 :- Expect(props.1, Sym(";"));
      Ok((CallExpression(target.0, props.0), t1))
  }

  /** `"(" optional(command_props) ")"`, shared by builtin commands and calls. */
  function ParseCallArgs(ts: seq<Lexeme>): (r: Result<(seq<CommandProp>, seq<Lexeme>), ParseError>)
    ensures r.Ok? ==> ts == PrintCallArgs(r.value.0, r.value.1)
    ensures r.Err? ==> r.error.remaining <= |ts|
    ensures r.Ok? ==> |r.value.1| < |ts|
  {
    var t1 :- Expect(ts, Sym("("));
    ParseOptCommandProps(t1, Sym(")"))
  }

  /** `choice(dotted_name, identifier)`: one segment is a plain name, more a dotted one. */
  function ParseTarget(ts: seq<Lexeme>): (r: Result<(Target, seq<Lexeme>), ParseError>)
    ensures r.Ok? ==> ts == PrintTarget(r.value.0, r.value.1)
    ensures r.Ok? && r.value.0.DottedTarget? ==> |r.value.0.segments| >= 2
    ensures r.Err? ==> r.error.remaining <= |ts|
    ensures r.Ok? ==> |r.value.1| < |ts|
  {
    var segs :- ParseDottedName(ts);
    if |segs.0| == 1 then Ok((PlainTarget(segs.0[0]), segs.1))
    else Ok((DottedTarget(segs.0), segs.1))
  }

  /** `seq(identifier, repeat(seq(".", identifier)))` */
  function ParseDottedName(ts: seq<Lexeme>): (r: Result<(seq<string>, seq<Lexeme>), ParseError>)
    ensures r.Ok? ==> |r.value.0| >= 1 && ts == PrintDotted(r.value.0, r.value.1)
    ensures r.Ok? ==> !StartsWith(r.value.1, Sym("."))
    ensures r.Err? ==> r.error.remaining <= |ts|
    ensures r.Ok? ==> |r.value.1| < |ts|
    decreases |ts|
  {
    var first :- ExpectIdent(ts);
    if StartsWith(first.1, Sym(".")) then
      SplitFirst(first.1);
      var more :- ParseDottedName(first.1[1..]);
      assert ([first.0] + more.0)[1..] == more.0;
      Ok(([first.0] + more.0, more.1))
    else
      Ok(([first.0], first.1))
  }

  /** `command_prop: key ":" choice(string, identifier)` */
  function ParseCommandProp(ts: seq<Lexeme>): (r: Result<(CommandProp, seq<Lexeme>), ParseError>)
    ensures r.Ok? ==> ts == PrintCommandProp(r.value.0, r.value.1)
    ensures r.Err? ==> r.error.remaining <= |ts|
    ensures r.Ok? ==> |r.value.1| < |ts|
  {
    var key :- ExpectIdent(ts);
    var t1 :- Expect(key.1, Sym(":"));
    var value :-
      if StartsWithKind(t1, Str) then Ok(PropString(t1[0].text))
      else if StartsWithKind(t1, Ident) then Ok(PropVariable(t1[0].text))
      else Err(ParseError(|t1|, ["string", "identifier"]));
    SplitFirst(t1);
    Ok((CommandProp(key.0, value), t1[1..]))
  }
}

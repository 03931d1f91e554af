/**
  Completeness of the parser: every well-formed tree is read back from its
  printed lexemes, and nothing after it is touched. Together with the
  soundness postconditions of module Parser this makes parsing and printing
  inverse to each other on well-formed trees.

  Each lemma `RoundTripX(x, tail)` states `ParseX(PrintX(x, tail)) ==
  Ok((x, tail))`. Its requirements on `tail` are the follow conditions of
  the grammar: what may not come right after the construct because the
  parser would take it as a continuation (a `,` after a comma list, a `;`
  after a `}` whose optional `;` is absent, ...).
*/
module RoundTrip {
  import opened Results
  import opened Lexer
  import opened Syntax
  import opened Parser

  /** A construct that opens with a word: an identifier, keyword, builtin name, string, number or `#[`. */
  predicate LeadsWithWord(ts: seq<Lexeme>) {
    |ts| > 0 && ts[0].kind != Punct
  }

  /** The optional `;` may be left out only when the next lexeme is not a `;`. */
  predicate SemiFollows(semi: bool, tail: seq<Lexeme>) {
    semi || !StartsWith(tail, Sym(";"))
  }

  // ---------------------------------------------------------------------
  // One step of each list parser that reads up to a closing `}`
  // ---------------------------------------------------------------------

  lemma CommandStmtsStep(ts: seq<Lexeme>)
    requires !StartsWith(ts, Sym("}")) && ParseCommandStmt(ts).Ok?
    requires ParseCommandStmts(ParseCommandStmt(ts).value.1).Ok?
    ensures ParseCommandStmts(ts) == Ok(([ParseCommandStmt(ts).value.0] + ParseCommandStmts(ParseCommandStmt(ts).value.1).value.0,
      ParseCommandStmts(ParseCommandStmt(ts).value.1).value.1))
  {
  }

  lemma PropertiesStep(ts: seq<Lexeme>)
    requires !StartsWith(ts, Sym("}")) && StartsWithKind(ts, Ident) && ParseProperty(ts).Ok?
    requires ParseProperties(ParseProperty(ts).value.1).Ok?
    ensures ParseProperties(ts) == Ok(([ParseProperty(ts).value.0] + ParseProperties(ParseProperty(ts).value.1).value.0,
      ParseProperties(ParseProperty(ts).value.1).value.1))
  {
  }

  lemma EnvItemsStep(ts: seq<Lexeme>)
    requires !StartsWith(ts, Sym("}")) && ParseEnvItem(ts).Ok?
    requires ParseEnvItems(ParseEnvItem(ts).value.1).Ok?
    ensures ParseEnvItems(ts) == Ok(([ParseEnvItem(ts).value.0] + ParseEnvItems(ParseEnvItem(ts).value.1).value.0,
      ParseEnvItems(ParseEnvItem(ts).value.1).value.1))
  {
  }

  lemma FlowItemsStep(ts: seq<Lexeme>)
    requires !StartsWith(ts, Sym("}")) && ParseFlowItem(ts).Ok?
    requires ParseFlowItems(ParseFlowItem(ts).value.1).Ok?
    ensures ParseFlowItems(ts) == Ok(([ParseFlowItem(ts).value.0] + ParseFlowItems(ParseFlowItem(ts).value.1).value.0,
      ParseFlowItems(ParseFlowItem(ts).value.1).value.1))
  {
  }

  lemma ModuleItemsStep(ts: seq<Lexeme>)
    requires !StartsWith(ts, Sym("}")) && ParseModuleItem(ts).Ok?
    requires ParseModuleItems(ParseModuleItem(ts).value.1).Ok?
    ensures ParseModuleItems(ts) == Ok(([ParseModuleItem(ts).value.0] + ParseModuleItems(ParseModuleItem(ts).value.1).value.0,
      ParseModuleItems(ParseModuleItem(ts).value.1).value.1))
  {
  }

  lemma AnnotationsStep(ts: seq<Lexeme>)
    requires StartsWith(ts, HashBracket) && ParseAnnotation(ts).Ok?
    requires ParseAnnotations(ParseAnnotation(ts).value.1).Ok?
    ensures ParseAnnotations(ts) == Ok(([ParseAnnotation(ts).value.0] + ParseAnnotations(ParseAnnotation(ts).value.1).value.0,
      ParseAnnotations(ParseAnnotation(ts).value.1).value.1))
  {
  }

  lemma TopLevelItemsStep(ts: seq<Lexeme>)
    requires ts != [] && ParseTopLevelItem(ts).Ok?
    requires ParseTopLevelItems(ParseTopLevelItem(ts).value.1).Ok?
    ensures ParseTopLevelItems(ts) == Ok([ParseTopLevelItem(ts).value.0] + ParseTopLevelItems(ParseTopLevelItem(ts).value.1).value)
  {
  }

  // ---------------------------------------------------------------------
  // One step of each comma- or dot-separated list parser
  // ---------------------------------------------------------------------

  lemma RefListStep(ts: seq<Lexeme>)
    requires ExpectIdent(ts).Ok?
    ensures !StartsWith(ExpectIdent(ts).value.1, Sym(",")) ==>
      ParseRefList(ts) == Ok(([ExpectIdent(ts).value.0], ExpectIdent(ts).value.1))
    ensures StartsWith(ExpectIdent(ts).value.1, Sym(",")) && ParseRefList(ExpectIdent(ts).value.1[1..]).Ok? ==>
      ParseRefList(ts) == Ok(([ExpectIdent(ts).value.0] + ParseRefList(ExpectIdent(ts).value.1[1..]).value.0,
        ParseRefList(ExpectIdent(ts).value.1[1..]).value.1))
  {
  }

  lemma AnnotationArgsStep(ts: seq<Lexeme>)
    requires ParseAnnotationArg(ts).Ok?
    ensures !StartsWith(ParseAnnotationArg(ts).value.1, Sym(",")) ==>
      ParseAnnotationArgs(ts) == Ok(([ParseAnnotationArg(ts).value.0], ParseAnnotationArg(ts).value.1))
    ensures StartsWith(ParseAnnotationArg(ts).value.1, Sym(",")) && ParseAnnotationArgs(ParseAnnotationArg(ts).value.1[1..]).Ok? ==>
      ParseAnnotationArgs(ts) == Ok(([ParseAnnotationArg(ts).value.0] + ParseAnnotationArgs(ParseAnnotationArg(ts).value.1[1..]).value.0,
        ParseAnnotationArgs(ParseAnnotationArg(ts).value.1[1..]).value.1))
  {
  }

  lemma FunctionParamsStep(ts: seq<Lexeme>)
    requires ParseFunctionParam(ts).Ok?
    ensures !StartsWith(ParseFunctionParam(ts).value.1, Sym(",")) ==>
      ParseFunctionParams(ts) == Ok(([ParseFunctionParam(ts).value.0], ParseFunctionParam(ts).value.1))
    ensures StartsWith(ParseFunctionParam(ts).value.1, Sym(",")) && ParseFunctionParams(ParseFunctionParam(ts).value.1[1..]).Ok? ==>
      ParseFunctionParams(ts) == Ok(([ParseFunctionParam(ts).value.0] + ParseFunctionParams(ParseFunctionParam(ts).value.1[1..]).value.0,
        ParseFunctionParams(ParseFunctionParam(ts).value.1[1..]).value.1))
  {
  }

  lemma CommandPropsStep(ts: seq<Lexeme>)
    requires ParseCommandProp(ts).Ok?
    ensures !StartsWith(ParseCommandProp(ts).value.1, Sym(",")) ==>
      ParseCommandProps(ts) == Ok(([ParseCommandProp(ts).value.0], ParseCommandProp(ts).value.1))
    ensures StartsWith(ParseCommandProp(ts).value.1, Sym(",")) && ParseCommandProps(ParseCommandProp(ts).value.1[1..]).Ok? ==>
      ParseCommandProps(ts) == Ok(([ParseCommandProp(ts).value.0] + ParseCommandProps(ParseCommandProp(ts).value.1[1..]).value.0,
        ParseCommandProps(ParseCommandProp(ts).value.1[1..]).value.1))
  {
  }

  lemma DottedStep(ts: seq<Lexeme>)
    requires ExpectIdent(ts).Ok?
    ensures !StartsWith(ExpectIdent(ts).value.1, Sym(".")) ==>
      ParseDottedName(ts) == Ok(([ExpectIdent(ts).value.0], ExpectIdent(ts).value.1))
    ensures StartsWith(ExpectIdent(ts).value.1, Sym(".")) && ParseDottedName(ExpectIdent(ts).value.1[1..]).Ok? ==>
      ParseDottedName(ts) == Ok(([ExpectIdent(ts).value.0] + ParseDottedName(ExpectIdent(ts).value.1[1..]).value.0,
        ParseDottedName(ExpectIdent(ts).value.1[1..]).value.1))
  {
  }

  // ---------------------------------------------------------------------
  // Terminals
  // ---------------------------------------------------------------------

  lemma ExpectPrinted(lx: Lexeme, tail: seq<Lexeme>)
    ensures Expect([lx] + tail, lx) == Ok(tail)
  {
    assert ([lx] + tail)[1..] == tail;
  }

  lemma ExpectIdentPrinted(name: string, tail: seq<Lexeme>)
    ensures ExpectIdent([Id(name)] + tail) == Ok((name, tail))
  {
    assert ([Id(name)] + tail)[1..] == tail;
  }

  lemma ExpectStringPrinted(raw: string, tail: seq<Lexeme>)
    ensures ExpectString([StrLit(raw)] + tail) == Ok((raw, tail))
  {
    assert ([StrLit(raw)] + tail)[1..] == tail;
  }

  lemma SkipSemiPrinted(semi: bool, tail: seq<Lexeme>)
    requires SemiFollows(semi, tail)
    ensures SkipSemi(PrintOptSemi(semi, tail)) == (semi, tail)
  {
    if semi {
      assert ([Sym(";")] + tail)[1..] == tail;
    }
  }

  // ---------------------------------------------------------------------
  // Lists built with commaSep1
  // ---------------------------------------------------------------------

  lemma {:induction false} RoundTripRefList(names: seq<string>, tail: seq<Lexeme>)
    requires |names| >= 1 && !StartsWith(tail, Sym(","))
    ensures ParseRefList(PrintRefList(names, tail)) == Ok((names, tail))
    decreases |names|
  {
    var more := if |names| == 1 then tail else [Sym(",")] + PrintRefList(names[1..], tail);
    var ts := PrintRefList(names, tail);
    assert ts == [Id(names[0])] + more;
    ExpectIdentPrinted(names[0], more);
    RefListStep(ts);
    if |names| > 1 {
      assert more[1..] == PrintRefList(names[1..], tail);
      RoundTripRefList(names[1..], tail);
      assert [names[0]] + names[1..] == names;
    } else {
      assert [names[0]] == names;
    }
  }

  lemma RoundTripSepRefList(sep: string, refs: seq<string>, tail: seq<Lexeme>)
    requires !StartsWith(tail, Sym(sep)) && !StartsWith(tail, Sym(","))
    ensures ParseSepRefList(sep, PrintSepRefList(sep, refs, tail)) == Ok((refs, tail))
  {
    if refs != [] {
      RoundTripRefList(refs, tail);
    }
  }

  lemma RoundTripAnnotationArg(arg: AnnotationArg, tail: seq<Lexeme>)
    ensures ParseAnnotationArg(PrintAnnotationArg(arg, tail)) == Ok((arg, tail))
  {
  }

  lemma {:induction false} RoundTripAnnotationArgs(args: seq<AnnotationArg>, tail: seq<Lexeme>)
    requires |args| >= 1 && !StartsWith(tail, Sym(","))
    ensures ParseAnnotationArgs(PrintAnnotationArgs(args, tail)) == Ok((args, tail))
    decreases |args|
  {
    if |args| == 1 {
      assert PrintAnnotationArgs(args, tail) == PrintAnnotationArg(args[0], tail);
      RoundTripAnnotationArg(args[0], tail);
      AnnotationArgsStep(PrintAnnotationArgs(args, tail));
      assert [args[0]] == args;
    } else {
      var more := [Sym(",")] + PrintAnnotationArgs(args[1..], tail);
      assert PrintAnnotationArgs(args, tail) == PrintAnnotationArg(args[0], more);
      RoundTripAnnotationArg(args[0], more);
      assert more[1..] == PrintAnnotationArgs(args[1..], tail);
      RoundTripAnnotationArgs(args[1..], tail);
      AnnotationArgsStep(PrintAnnotationArgs(args, tail));
      assert [args[0]] + args[1..] == args;
    }
  }

  lemma {:induction false} RoundTripFunctionParams(params: seq<FunctionParam>, tail: seq<Lexeme>)
    requires |params| >= 1 && !StartsWith(tail, Sym(",")) && !StartsWith(tail, Sym("="))
    ensures ParseFunctionParams(PrintFunctionParams(params, tail)) == Ok((params, tail))
    decreases |params|
  {
    if |params| == 1 {
      assert PrintFunctionParams(params, tail) == PrintFunctionParam(params[0], tail);
      RoundTripFunctionParam(params[0], tail);
      FunctionParamsStep(PrintFunctionParams(params, tail));
      assert [params[0]] == params;
    } else {
      var more := [Sym(",")] + PrintFunctionParams(params[1..], tail);
      assert PrintFunctionParams(params, tail) == PrintFunctionParam(params[0], more);
      RoundTripFunctionParam(params[0], more);
      assert more[1..] == PrintFunctionParams(params[1..], tail);
      RoundTripFunctionParams(params[1..], tail);
      FunctionParamsStep(PrintFunctionParams(params, tail));
      assert [params[0]] + params[1..] == params;
    }
  }

  lemma {:induction false} RoundTripCommandProps(props: seq<CommandProp>, tail: seq<Lexeme>)
    requires |props| >= 1 && !StartsWith(tail, Sym(","))
    ensures ParseCommandProps(PrintCommandProps(props, tail)) == Ok((props, tail))
    decreases |props|
  {
    if |props| == 1 {
      assert PrintCommandProps(props, tail) == PrintCommandProp(props[0], tail);
      RoundTripCommandProp(props[0], tail);
      CommandPropsStep(PrintCommandProps(props, tail));
      assert [props[0]] == props;
    } else {
      var more := [Sym(",")] + PrintCommandProps(props[1..], tail);
      assert PrintCommandProps(props, tail) == PrintCommandProp(props[0], more);
      RoundTripCommandProp(props[0], more);
      assert more[1..] == PrintCommandProps(props[1..], tail);
      RoundTripCommandProps(props[1..], tail);
      CommandPropsStep(PrintCommandProps(props, tail));
      assert [props[0]] + props[1..] == props;
    }
  }

  /** `close` is the punctuation that ends the optional list: `)` for a call, `}` for `gx.vars`. */
  lemma RoundTripOptCommandProps(props: seq<CommandProp>, close: Lexeme, tail: seq<Lexeme>)
    requires close.kind == Punct && close != Sym(",")
    ensures ParseOptCommandProps(PrintCommandProps(props, [close] + tail), close) == Ok((props, tail))
  {
    if props != [] {
      RoundTripCommandProps(props, [close] + tail);
    }
  }

  // ---------------------------------------------------------------------
  // Annotations
  // ---------------------------------------------------------------------

  lemma RoundTripAnnotationTail(args: seq<AnnotationArg>, tail: seq<Lexeme>)
    ensures ParseAnnotationTail(PrintAnnotationTail(args, tail)) == Ok((args, tail))
  {
    if args != [] {
      var inner := [Sym(")")] + ([Sym("]")] + tail);
      RoundTripAnnotationArgs(args, inner);
      ExpectPrinted(Sym(")"), [Sym("]")] + tail);
      ExpectPrinted(Sym("]"), tail);
      assert ([Sym("(")] + PrintAnnotationArgs(args, inner))[1..] == PrintAnnotationArgs(args, inner);
    } else {
      ExpectPrinted(Sym("]"), tail);
    }
  }

  lemma RoundTripAnnotation(a: Annotation, tail: seq<Lexeme>)
    ensures ParseAnnotation(PrintAnnotation(a, tail)) == Ok((a, tail))
  {
    var rest := PrintAnnotationTail(a.args, tail);
    ExpectPrinted(HashBracket, [Id(a.name)] + rest);
    ExpectIdentPrinted(a.name, rest);
    RoundTripAnnotationTail(a.args, tail);
  }

  lemma {:induction false} RoundTripAnnotations(anns: seq<Annotation>, tail: seq<Lexeme>)
    requires !StartsWith(tail, HashBracket)
    ensures ParseAnnotations(PrintAnnotations(anns, tail)) == Ok((anns, tail))
    decreases |anns|
  {
    if anns != [] {
      RoundTripAnnotations(anns[1..], tail);
      var more := PrintAnnotations(anns[1..], tail);
      var ts := PrintAnnotation(anns[0], more);
      assert PrintAnnotations(anns, tail) == ts;
      assert StartsWith(ts, HashBracket);
      RoundTripAnnotation(anns[0], more);
      AnnotationsStep(ts);
      assert [anns[0]] + anns[1..] == anns;
    }
  }

  // ---------------------------------------------------------------------
  // Commands
  // ---------------------------------------------------------------------

  lemma RoundTripCommandProp(p: CommandProp, tail: seq<Lexeme>)
    ensures ParseCommandProp(PrintCommandProp(p, tail)) == Ok((p, tail))
  {
  }

  lemma RoundTripCallArgs(props: seq<CommandProp>, tail: seq<Lexeme>)
    ensures ParseCallArgs(PrintCallArgs(props, tail)) == Ok((props, tail))
  {
    RoundTripOptCommandProps(props, Sym(")"), tail);
  }

  lemma {:induction false} RoundTripDotted(segs: seq<string>, tail: seq<Lexeme>)
    requires |segs| >= 1 && !StartsWith(tail, Sym("."))
    ensures ParseDottedName(PrintDotted(segs, tail)) == Ok((segs, tail))
    decreases |segs|
  {
    var more := if |segs| == 1 then tail else [Sym(".")] + PrintDotted(segs[1..], tail);
    var ts := PrintDotted(segs, tail);
    assert ts == [Id(segs[0])] + more;
    ExpectIdentPrinted(segs[0], more);
    DottedStep(ts);
    if |segs| > 1 {
      assert more[1..] == PrintDotted(segs[1..], tail);
      RoundTripDotted(segs[1..], tail);
      assert [segs[0]] + segs[1..] == segs;
    } else {
      assert [segs[0]] == segs;
    }
  }

  lemma RoundTripTarget(t: Target, tail: seq<Lexeme>)
    requires t.DottedTarget? ==> |t.segments| >= 2
    requires !StartsWith(tail, Sym("."))
    ensures ParseTarget(PrintTarget(t, tail)) == Ok((t, tail))
  {
    match t
    case PlainTarget(n) =>
      assert PrintTarget(t, tail) == PrintDotted([n], tail);
      RoundTripDotted([n], tail);
    case DottedTarget(segs) =>
      RoundTripDotted(segs, tail);
  }

  lemma RoundTripCommandStmt(c: CommandStmt, tail: seq<Lexeme>)
    requires WellFormedCommand(c)
    ensures ParseCommandStmt(PrintCommandStmt(c, tail)) == Ok((c, tail))
  {
    RoundTripCallArgs(c.props, [Sym(";")] + tail);
    if c.CallExpression? {
      RoundTripTarget(c.target, PrintCallArgs(c.props, [Sym(";")] + tail));
    }
  }

  lemma CommandStmtLeads(c: CommandStmt, tail: seq<Lexeme>)
    requires WellFormedCommand(c)
    ensures LeadsWithWord(PrintCommandStmt(c, tail))
    ensures StartsWith(PrintCommandStmt(c, tail)[1..], Sym("(")) || StartsWith(PrintCommandStmt(c, tail)[1..], Sym("."))
  {
  }

  lemma {:induction false} RoundTripCommandStmts(cmds: seq<CommandStmt>, tail: seq<Lexeme>)
    requires forall k :: 0 <= k < |cmds| ==> WellFormedCommand(cmds[k])
    ensures ParseCommandStmts(PrintCommandStmts(cmds, [Sym("}")] + tail)) == Ok((cmds, tail))
    decreases |cmds|
  {
    if cmds != [] {
      var more := PrintCommandStmts(cmds[1..], [Sym("}")] + tail);
      var ts := PrintCommandStmt(cmds[0], more);
      assert PrintCommandStmts(cmds, [Sym("}")] + tail) == ts;
      CommandStmtLeads(cmds[0], more);
      assert !StartsWith(ts, Sym("}"));
      RoundTripCommandStmt(cmds[0], more);
      assert forall k :: 0 <= k < |cmds[1..]| ==> cmds[1..][k] == cmds[k + 1];
      RoundTripCommandStmts(cmds[1..], tail);
      CommandStmtsStep(ts);
      assert [cmds[0]] + cmds[1..] == cmds;
    }
  }

  // ---------------------------------------------------------------------
  // Properties and activities
  // ---------------------------------------------------------------------

  lemma RoundTripProperty(p: Property, tail: seq<Lexeme>)
    ensures ParseProperty(PrintProperty(p, tail)) == Ok((p, tail))
  {
  }

  lemma {:induction false} RoundTripProperties(props: seq<Property>, tail: seq<Lexeme>)
    ensures ParseProperties(PrintProperties(props, [Sym("}")] + tail)) == Ok((props, tail))
    decreases |props|
  {
    if props != [] {
      var more := PrintProperties(props[1..], [Sym("}")] + tail);
      var ts := PrintProperty(props[0], more);
      assert PrintProperties(props, [Sym("}")] + tail) == ts;
      assert ts[0] == Id(props[0].key);
      RoundTripProperty(props[0], more);
      RoundTripProperties(props[1..], tail);
      PropertiesStep(ts);
      assert [props[0]] + props[1..] == props;
    }
  }

  lemma RoundTripActivity(a: Activity, tail: seq<Lexeme>)
    requires SemiFollows(a.semi, tail)
    ensures ParseActivity(a.annotations, PrintActivity(a, tail)) == Ok((a, tail))
  {
    RoundTripProperties(a.props, PrintOptSemi(a.semi, tail));
  }

  // ---------------------------------------------------------------------
  // Functions
  // ---------------------------------------------------------------------

  lemma RoundTripFunctionParam(p: FunctionParam, tail: seq<Lexeme>)
    requires !StartsWith(tail, Sym("="))
    ensures ParseFunctionParam(PrintFunctionParam(p, tail)) == Ok((p, tail))
  {
    var named := PrintParamName(p, tail);
    assert ParseParamDefault(PrintParamDefault(p.default, tail)) == Ok((p.default, tail));
    assert ParseParamName(p.variadic, named) == Ok((p, tail));
    if p.variadic {
      assert PrintFunctionParam(p, tail)[1..] == named;
    }
  }

  lemma RoundTripFunctionDef(f: FunctionDef, tail: seq<Lexeme>)
    requires WellFormedModuleItem(FnItem(f)) && SemiFollows(f.semi, tail)
    ensures ParseFunctionDef(f.annotations, PrintFunctionDef(f, tail)) == Ok((f, tail))
  {
    var afterBody := PrintOptSemi(f.semi, tail);
    var stmts := PrintCommandStmts(f.body, [Sym("}")] + afterBody);
    var body := [Sym("{")] + stmts;
    var params := PrintFunctionParams(f.params, [Sym(")")] + body);
    var named := [Id(f.name)] + ([Sym("(")] + params);
    ExpectPrinted(Id("fn"), named);
    ExpectIdentPrinted(f.name, [Sym("(")] + params);
    ExpectPrinted(Sym("("), params);
    if f.params != [] {
      RoundTripFunctionParams(f.params, [Sym(")")] + body);
      assert params[0] == PrintFunctionParam(f.params[0], if |f.params| == 1 then [Sym(")")] + body
        else [Sym(",")] + PrintFunctionParams(f.params[1..], [Sym(")")] + body))[0];
    }
    ExpectPrinted(Sym(")"), body);
    ExpectPrinted(Sym("{"), stmts);
    RoundTripCommandStmts(f.body, afterBody);
    SkipSemiPrinted(f.semi, tail);
  }

  // ---------------------------------------------------------------------
  // Environments
  // ---------------------------------------------------------------------

  lemma RoundTripGxVarsBlock(v: GxVarsBlock, tail: seq<Lexeme>)
    ensures ParseGxVarsBlock(PrintGxVarsBlock(v, tail)) == Ok((v, tail))
  {
    RoundTripOptCommandProps(v.props, Sym("}"), tail);
  }

  lemma RoundTripEnvItem(item: EnvItem, tail: seq<Lexeme>)
    requires WellFormedEnvItem(item)
    ensures ParseEnvItem(PrintEnvItem(item, tail)) == Ok((item, tail))
  {
    match item
    case EnvProperty(p) => RoundTripProperty(p, tail);
    case EnvCommand(c) =>
      CommandStmtLeads(c, tail);
      RoundTripCommandStmt(c, tail);
    case EnvVars(v) => RoundTripGxVarsBlock(v, tail);
  }

  lemma {:induction false} RoundTripEnvItems(items: seq<EnvItem>, tail: seq<Lexeme>)
    requires forall k :: 0 <= k < |items| ==> WellFormedEnvItem(items[k])
    ensures ParseEnvItems(PrintEnvItems(items, [Sym("}")] + tail)) == Ok((items, tail))
    decreases |items|
  {
    if items != [] {
      var more := PrintEnvItems(items[1..], [Sym("}")] + tail);
      var ts := PrintEnvItem(items[0], more);
      assert PrintEnvItems(items, [Sym("}")] + tail) == ts;
      if items[0].EnvCommand? {
        CommandStmtLeads(items[0].cmd, more);
      }
      assert !StartsWith(ts, Sym("}"));
      RoundTripEnvItem(items[0], more);
      assert forall k :: 0 <= k < |items[1..]| ==> items[1..][k] == items[k + 1];
      RoundTripEnvItems(items[1..], tail);
      EnvItemsStep(ts);
      assert [items[0]] + items[1..] == items;
    }
  }

  lemma RoundTripEnvironment(e: Environment, tail: seq<Lexeme>)
    requires WellFormedModuleItem(EnvItem(e)) && SemiFollows(e.semi, tail)
    ensures ParseEnvironment(e.annotations, PrintEnvironment(e, tail)) == Ok((e, tail))
  {
    var afterBody := PrintOptSemi(e.semi, tail);
    RoundTripEnvItems(e.items, afterBody);
    RoundTripSepRefList(":", e.refs, [Sym("{")] + PrintEnvItems(e.items, [Sym("}")] + afterBody));
  }

  // ---------------------------------------------------------------------
  // Flows
  // ---------------------------------------------------------------------

  lemma RoundTripFlowItem(item: FlowItem, tail: seq<Lexeme>)
    requires WellFormedFlowItem(item)
    ensures ParseFlowItem(PrintFlowItem(item, tail)) == Ok((item, tail))
  {
    match item
    case FlowProperty(p) => RoundTripProperty(p, tail);
    case FlowCommand(c) =>
      CommandStmtLeads(c, tail);
      RoundTripCommandStmt(c, tail);
  }

  lemma {:induction false} RoundTripFlowItems(items: seq<FlowItem>, tail: seq<Lexeme>)
    requires forall k :: 0 <= k < |items| ==> WellFormedFlowItem(items[k])
    ensures ParseFlowItems(PrintFlowItems(items, [Sym("}")] + tail)) == Ok((items, tail))
    decreases |items|
  {
    if items != [] {
      var more := PrintFlowItems(items[1..], [Sym("}")] + tail);
      var ts := PrintFlowItem(items[0], more);
      assert PrintFlowItems(items, [Sym("}")] + tail) == ts;
      if items[0].FlowCommand? {
        CommandStmtLeads(items[0].cmd, more);
      }
      assert !StartsWith(ts, Sym("}"));
      RoundTripFlowItem(items[0], more);
      assert forall k :: 0 <= k < |items[1..]| ==> items[1..][k] == items[k + 1];
      RoundTripFlowItems(items[1..], tail);
      FlowItemsStep(ts);
      assert [items[0]] + items[1..] == items;
    }
  }

  lemma RoundTripFlowBefore(before: seq<string>, tail: seq<Lexeme>)
    requires StartsWith(tail, Sym("@"))
    ensures ParseFlowBefore(PrintFlowBefore(before, tail)) == Ok((before, tail))
  {
    if before != [] {
      RoundTripRefList(before, [Sym("|")] + tail);
      ExpectPrinted(Sym("|"), tail);
    }
  }

  lemma RoundTripFlowDefinition(f: FlowDefinition, tail: seq<Lexeme>)
    requires WellFormedModuleItem(FlowDefItem(f)) && SemiFollows(f.semi, tail)
    ensures ParseFlowDefinition(f.annotations, PrintFlowDefinition(f, tail)) == Ok((f, tail))
  {
    var afterBody := PrintOptSemi(f.semi, tail);
    var items := PrintFlowItems(f.items, [Sym("}")] + afterBody);
    var body := [Sym("{")] + items;
    var after := PrintSepRefList("|", f.after, body);
    var named := [Sym("@")] + ([Id(f.name)] + after);
    ExpectPrinted(Id("flow"), PrintFlowBefore(f.before, named));
    RoundTripFlowBefore(f.before, named);
    ExpectPrinted(Sym("@"), [Id(f.name)] + after);
    ExpectIdentPrinted(f.name, after);
    RoundTripSepRefList("|", f.after, body);
    ExpectPrinted(Sym("{"), items);
    RoundTripFlowItems(f.items, afterBody);
    SkipSemiPrinted(f.semi, tail);
  }

  lemma RoundTripFlowReference(f: FlowReference, tail: seq<Lexeme>)
    requires |f.refs| >= 1
    ensures ParseFlowReference(f.annotations, PrintFlowReference(f, tail)) == Ok((f, tail))
  {
    RoundTripRefList(f.refs, [Sym(";")] + tail);
  }

  // ---------------------------------------------------------------------
  // Modules
  // ---------------------------------------------------------------------

  /** Whether the optional `;` of a module item is present; a property and a flow reference end in a mandatory `;`. */
  function ItemSemi(item: ModuleItem): bool {
    match item
    case PropertyItem(_) => true
    case EnvItem(e) => e.semi
    case FlowDefItem(f) => f.semi
    case FlowRefItem(_) => true
    case FnItem(f) => f.semi
    case ActivityItem(a) => a.semi
  }

  lemma RoundTripModuleItemBody(item: ModuleItem, tail: seq<Lexeme>)
    requires WellFormedModuleItem(item) && SemiFollows(ItemSemi(item), tail)
    ensures ParseModuleItemBody(ModuleItemAnnotations(item), PrintModuleItemBody(item, tail)) == Ok((item, tail))
  {
    var ts := PrintModuleItemBody(item, tail);
    match item
    case PropertyItem(p) =>
      assert ts[0] == Id(p.key);
      assert !StartsWith(ts, Id("env")) && !StartsWith(ts, Id("flow")) && !StartsWith(ts, Id("fn"));
      assert !StartsWith(ts, Id("activity")) && StartsWithKind(ts, Ident);
      RoundTripProperty(p, tail);
    case EnvItem(e) =>
      assert StartsWith(ts, Id("env"));
      RoundTripEnvironment(e, tail);
    case FlowDefItem(f) =>
      FlowDefinitionAhead(f, tail);
      assert !StartsWith(ts, Id("env"));
      RoundTripFlowDefinition(f, tail);
    case FlowRefItem(f) =>
      assert StartsWith(ts, Id("flow")) && IsFlowReferenceAhead(ts) && !StartsWith(ts, Id("env"));
      RoundTripFlowReference(f, tail);
    case FnItem(f) =>
      assert StartsWith(ts, Id("fn")) && !StartsWith(ts, Id("env")) && !StartsWith(ts, Id("flow"));
      RoundTripFunctionDef(f, tail);
    case ActivityItem(a) =>
      assert StartsWith(ts, Id("activity")) && !StartsWith(ts, Id("env")) && !StartsWith(ts, Id("flow"));
      assert !StartsWith(ts, Id("fn"));
      RoundTripActivity(a, tail);
  }

  /** After `flow`, a definition shows `@` or a list of names ending in `|`, never `name :`. */
  lemma FlowDefinitionAhead(f: FlowDefinition, tail: seq<Lexeme>)
    ensures StartsWith(PrintFlowDefinition(f, tail), Id("flow"))
    ensures !IsFlowReferenceAhead(PrintFlowDefinition(f, tail))
  {
    var ts := PrintFlowDefinition(f, tail);
    if f.before != [] && |ts| >= 3 {
      assert ts[1] == Id(f.before[0]);
      if |f.before| == 1 {
        assert ts[2] == Sym("|");
      } else {
        assert ts[2] == Sym(",");
      }
    }
  }

  lemma RoundTripModuleItem(item: ModuleItem, tail: seq<Lexeme>)
    requires WellFormedModuleItem(item) && SemiFollows(ItemSemi(item), tail)
    ensures ParseModuleItem(PrintModuleItem(item, tail)) == Ok((item, tail))
  {
    var body := PrintModuleItemBody(item, tail);
    assert body[0].kind == Ident;
    RoundTripAnnotations(ModuleItemAnnotations(item), body);
    RoundTripModuleItemBody(item, tail);
  }

  lemma ModuleItemLeads(item: ModuleItem, tail: seq<Lexeme>)
    ensures LeadsWithWord(PrintModuleItem(item, tail))
  {
    var anns := ModuleItemAnnotations(item);
    if anns != [] {
      assert PrintModuleItem(item, tail) == PrintAnnotation(anns[0], PrintAnnotations(anns[1..], PrintModuleItemBody(item, tail)));
    }
  }

  lemma {:induction false} RoundTripModuleItems(items: seq<ModuleItem>, tail: seq<Lexeme>)
    requires forall k :: 0 <= k < |items| ==> WellFormedModuleItem(items[k])
    ensures ParseModuleItems(PrintModuleItems(items, [Sym("}")] + tail)) == Ok((items, tail))
    decreases |items|
  {
    if items != [] {
      var more := PrintModuleItems(items[1..], [Sym("}")] + tail);
      if items[1..] != [] {
        assert items[1..][1..] == items[2..];
        assert more == PrintModuleItem(items[1], PrintModuleItems(items[2..], [Sym("}")] + tail));
        ModuleItemLeads(items[1], PrintModuleItems(items[2..], [Sym("}")] + tail));
      }
      assert SemiFollows(ItemSemi(items[0]), more);
      var ts := PrintModuleItem(items[0], more);
      assert PrintModuleItems(items, [Sym("}")] + tail) == ts;
      ModuleItemLeads(items[0], more);
      assert !StartsWith(ts, Sym("}"));
      RoundTripModuleItem(items[0], more);
      assert forall k :: 0 <= k < |items[1..]| ==> items[1..][k] == items[k + 1];
      RoundTripModuleItems(items[1..], tail);
      ModuleItemsStep(ts);
      assert [items[0]] + items[1..] == items;
    }
  }

  lemma RoundTripModule(m: Module, tail: seq<Lexeme>)
    requires WellFormedModule(m) && SemiFollows(m.semi, tail)
    ensures ParseModule(m.annotations, PrintModule(m, tail)) == Ok((m, tail))
  {
    var afterBody := PrintOptSemi(m.semi, tail);
    var items := PrintModuleItems(m.items, [Sym("}")] + afterBody);
    var refs := PrintSepRefList(":", m.refs, [Sym("{")] + items);
    ExpectPrinted(Id("mod"), [Id(m.name)] + refs);
    ExpectIdentPrinted(m.name, refs);
    RoundTripSepRefList(":", m.refs, [Sym("{")] + items);
    ExpectPrinted(Sym("{"), items);
    RoundTripModuleItems(m.items, afterBody);
    SkipSemiPrinted(m.semi, tail);
  }

  // ---------------------------------------------------------------------
  // Top level
  // ---------------------------------------------------------------------

  lemma RoundTripExternSource(src: ExternSource, tail: seq<Lexeme>)
    ensures ParseExternSource(PrintExternSource(src, tail)) == Ok((src, tail))
  {
    match src
    case PathSource(p) =>
      var t3 := [Sym(";")] + tail;
      var t2 := [StrLit(p)] + t3;
      var t1 := [Sym("=")] + t2;
      ExpectPrinted(Id("path"), t1);
      ExpectPrinted(Sym("="), t2);
      ExpectStringPrinted(p, t3);
      ExpectPrinted(Sym(";"), tail);
    case GitSource(u, c) =>
      var t7 := [Sym(";")] + tail;
      var t6 := [StrLit(c)] + t7;
      var t5 := [Sym("=")] + t6;
      var t4 := [Id("channel")] + t5;
      var t3 := [Sym(",")] + t4;
      var t2 := [StrLit(u)] + t3;
      var t1 := [Sym("=")] + t2;
      ExpectPrinted(Id("git"), t1);
      ExpectPrinted(Sym("="), t2);
      ExpectStringPrinted(u, t3);
      ExpectPrinted(Sym(","), t4);
      ExpectPrinted(Id("channel"), t5);
      ExpectPrinted(Sym("="), t6);
      ExpectStringPrinted(c, t7);
      ExpectPrinted(Sym(";"), tail);
  }

  lemma RoundTripExternModule(e: ExternModule, tail: seq<Lexeme>)
    requires |e.names| >= 1 && SemiFollows(e.semi, tail)
    ensures ParseExternModule(PrintExternModule(e, tail)) == Ok((e, tail))
  {
    var afterBrace := PrintOptSemi(e.semi, tail);
    var afterSource := [Sym("}")] + afterBrace;
    var source := PrintExternSource(e.source, afterSource);
    var names := PrintRefList(e.names, [Sym("{")] + source);
    ExpectPrinted(Id("extern"), [Id("mod")] + names);
    ExpectPrinted(Id("mod"), names);
    RoundTripRefList(e.names, [Sym("{")] + source);
    ExpectPrinted(Sym("{"), source);
    RoundTripExternSource(e.source, afterSource);
    ExpectPrinted(Sym("}"), afterBrace);
    SkipSemiPrinted(e.semi, tail);
  }

  function TopLevelSemi(item: TopLevelItem): bool {
    match item
    case ModuleDecl(m) => m.semi
    case ExternDecl(e) => e.semi
  }

  lemma RoundTripTopLevelItem(item: TopLevelItem, tail: seq<Lexeme>)
    requires WellFormedTopLevelItem(item) && SemiFollows(TopLevelSemi(item), tail)
    ensures ParseTopLevelItem(PrintTopLevelItem(item, tail)) == Ok((item, tail))
  {
    var ts := PrintTopLevelItem(item, tail);
    match item
    case ExternDecl(e) =>
      assert StartsWith(ts, Id("extern"));
      RoundTripExternModule(e, tail);
    case ModuleDecl(m) =>
      RoundTripModule(m, tail);
      RoundTripAnnotations(m.annotations, PrintModule(m, tail));
      if m.annotations != [] {
        assert ts == PrintAnnotation(m.annotations[0], PrintAnnotations(m.annotations[1..], PrintModule(m, tail)));
        assert StartsWith(ts, HashBracket);
      } else {
        assert StartsWith(ts, Id("mod"));
      }
      assert !StartsWith(ts, Id("extern"));
  }

  lemma TopLevelItemLeads(item: TopLevelItem, tail: seq<Lexeme>)
    ensures LeadsWithWord(PrintTopLevelItem(item, tail))
  {
    if item.ModuleDecl? && item.mod.annotations != [] {
      var anns := item.mod.annotations;
      assert PrintTopLevelItem(item, tail) == PrintAnnotation(anns[0], PrintAnnotations(anns[1..], PrintModule(item.mod, tail)));
    }
  }

  lemma {:induction false} RoundTripTopLevelItems(items: seq<TopLevelItem>)
    requires forall k :: 0 <= k < |items| ==> WellFormedTopLevelItem(items[k])
    ensures ParseTopLevelItems(PrintTopLevelItems(items, [])) == Ok(items)
    decreases |items|
  {
    if items != [] {
      assert forall k :: 0 <= k < |items[1..]| ==> items[1..][k] == items[k + 1];
      RoundTripTopLevelItems(items[1..]);
      var more := PrintTopLevelItems(items[1..], []);
      if items[1..] != [] {
        assert items[1..][1..] == items[2..];
        assert more == PrintTopLevelItem(items[1], PrintTopLevelItems(items[2..], []));
        TopLevelItemLeads(items[1], PrintTopLevelItems(items[2..], []));
      }
      assert SemiFollows(TopLevelSemi(items[0]), more);
      var ts := PrintTopLevelItem(items[0], more);
      assert PrintTopLevelItems(items, []) == ts;
      TopLevelItemLeads(items[0], more);
      RoundTripTopLevelItem(items[0], more);
      TopLevelItemsStep(ts);
      assert [items[0]] + items[1..] == items;
    }
  }

  /** A well-formed document is read back from its lexemes. */
  lemma RoundTripSourceFile(sf: SourceFile)
    requires WellFormedSourceFile(sf)
    ensures ParseSourceFile(PrintSourceFile(sf)) == Ok(sf)
  {
    RoundTripTopLevelItems(sf.items);
  }

  /** Printing is one-to-one on well-formed documents: the lexemes determine the tree. */
  lemma PrintInjective(a: SourceFile, b: SourceFile)
    requires WellFormedSourceFile(a) && WellFormedSourceFile(b)
    requires PrintSourceFile(a) == PrintSourceFile(b)
    ensures a == b
  {
    RoundTripSourceFile(a);
    RoundTripSourceFile(b);
  }

  /** Whatever the parser accepts it accepts exactly once: reprinting the tree and parsing again gives the same tree. */
  lemma ParseStable(ts: seq<Lexeme>)
    requires ParseSourceFile(ts).Ok?
    ensures ParseSourceFile(PrintSourceFile(ParseSourceFile(ts).value)) == ParseSourceFile(ts)
  {
    RoundTripSourceFile(ParseSourceFile(ts).value);
  }
}

/**
  What the grammar accepts and rejects where its rules share a prefix or
  restrict what a body may contain: builtin commands against calls, flow
  definitions against flow references, the one source of an extern module,
  the optional `;` that `gx.vars` lacks, and the contents of properties,
  activity bodies and function bodies.
*/
module GrammarFacts {
  import opened Results
  import opened Lexer
  import opened Syntax
  import opened Parser
  import opened RoundTrip

  // ---------------------------------------------------------------------
  // Builtin commands and calls
  // ---------------------------------------------------------------------

  /**
    Where the text holds one of the ten builtin names and no identifier
    character follows it, the token there is that builtin name, never an
    identifier `gx` or a longer name.
  */
  lemma BuiltinNameToken(s: string, i: nat, n: string)
    requires n in BuiltinNames && IsPrefixAt(n, s, i)
    requires i + |n| == |s| || !IsIdentChar(s[i + |n|])
    ensures ScannedAt(s, i, Token(Lexeme(Builtin, n), i), false)
    ensures forall t :: ScannedAt(s, i, t, false) ==> t.lexeme == Lexeme(Builtin, n)
  {
    BuiltinLength(n);
    forall m | m in BuiltinNames && IsPrefixAt(m, s, i) ensures |m| <= |n| {
      if |m| > |n| {
        LongerBuiltinContinues(s, i, n, m);
      }
    }
    var b := Token(Lexeme(Builtin, n), i);
    assert ScannedAt(s, i, b, false);
    forall t | ScannedAt(s, i, t, false) ensures t.lexeme == Lexeme(Builtin, n) {
      TokenAtUnique(s, i, t, b, false);
    }
  }

  /**
    Right after a `.`, where only the identifier of a `dotted_name` can
    follow, the text of a builtin name gives the identifier `gx`: so
    `a.gx.echo` is the dotted name `a`, `gx`, `echo`.
  */
  lemma BuiltinNameAfterDot(s: string, i: nat, n: string)
    requires n in BuiltinNames && IsPrefixAt(n, s, i)
    ensures ScannedAt(s, i, Token(Lexeme(Ident, "gx"), i), true)
    ensures forall t :: ScannedAt(s, i, t, true) ==> t.lexeme == Lexeme(Ident, "gx")
  {
    BuiltinNamesShape();
    assert s[i..i + |n|][..3] == s[i..i + 3];
    assert s[i] == 'g' && s[i + 1] == 'x' && s[i + 2] == '.';
    assert s[i..i + 2] == "gx";
    var g := Token(Lexeme(Ident, "gx"), i);
    assert IsIdentText("gx");
    assert ScannedAt(s, i, g, true);
    forall t | ScannedAt(s, i, t, true) ensures t.lexeme == Lexeme(Ident, "gx") {
      TokenAtUnique(s, i, t, g, true);
    }
  }

  lemma BuiltinLength(n: string)
    requires n in BuiltinNames
    ensures |n| >= 6
  {
    BuiltinNamesShape();
  }

  /** Of two builtin names found at the same place, the longer continues the shorter with an identifier character. */
  lemma LongerBuiltinContinues(s: string, i: nat, n: string, m: string)
    requires n in BuiltinNames && m in BuiltinNames && IsPrefixAt(n, s, i) && IsPrefixAt(m, s, i) && |m| > |n|
    ensures i + |n| < |s| && IsIdentChar(s[i + |n|])
  {
    BuiltinNamesShape();
    assert s[i + |n|] == s[i..i + |m|][|n|];
  }

  /** A builtin-name lexeme makes a builtin command; an identifier makes a call, plain or dotted. */
  lemma CommandKind(ts: seq<Lexeme>)
    requires ParseCommandStmt(ts).Ok?
    ensures ParseCommandStmt(ts).value.0.BuiltinCommand? ==> ts[0].kind == Builtin && ParseCommandStmt(ts).value.0.name == ts[0].text
    ensures ParseCommandStmt(ts).value.0.CallExpression? ==> ts[0].kind == Ident
    ensures ParseCommandStmt(ts).value.0.CallExpression? && ParseCommandStmt(ts).value.0.target.DottedTarget? ==>
      |ParseCommandStmt(ts).value.0.target.segments| >= 2 && ts[1] == Sym(".")
  {
    var c := ParseCommandStmt(ts).value.0;
    if c.CallExpression? && c.target.DottedTarget? {
      var rest := PrintCallArgs(c.props, [Sym(";")] + ParseCommandStmt(ts).value.1);
      var segs := c.target.segments;
      assert PrintDotted(segs, rest) == [Id(segs[0])] + ([Sym(".")] + PrintDotted(segs[1..], rest));
    }
  }

  /** A command statement ends in `;`: without it neither a builtin command nor a call is accepted. */
  lemma CommandNeedsSemi(c: CommandStmt, tail: seq<Lexeme>)
    requires WellFormedCommand(c) && !StartsWith(tail, Sym(";"))
    ensures c.BuiltinCommand? ==> ParseCommandStmt([Lexeme(Builtin, c.name)] + PrintCallArgs(c.props, tail)).Err?
    ensures c.CallExpression? ==> ParseCommandStmt(PrintTarget(c.target, PrintCallArgs(c.props, tail))).Err?
  {
    var args := PrintCallArgs(c.props, tail);
    RoundTripCallArgs(c.props, tail);
    match c
    case BuiltinCommand(name, _) =>
      assert ([Lexeme(Builtin, name)] + args)[1..] == args;
    case CallExpression(target, _) =>
      RoundTripTarget(target, args);
      assert PrintTarget(target, args)[0].kind == Ident;
  }

  // ---------------------------------------------------------------------
  // Extern modules
  // ---------------------------------------------------------------------

  /** An extern module takes no annotations: `#[...] extern ...` is an error. */
  lemma AnnotatedExternRejected(anns: seq<Annotation>, rest: seq<Lexeme>)
    requires anns != []
    ensures ParseTopLevelItem(PrintAnnotations(anns, [Id("extern")] + rest)).Err?
  {
    var ts := PrintAnnotations(anns, [Id("extern")] + rest);
    assert ts == PrintAnnotation(anns[0], PrintAnnotations(anns[1..], [Id("extern")] + rest));
    assert ts[0] == HashBracket;
    RoundTripAnnotations(anns, [Id("extern")] + rest);
  }

  /** An extern module holds exactly one source: a second one where `}` belongs is an error. */
  lemma ExternOneSource(names: seq<string>, first: ExternSource, second: ExternSource, tail: seq<Lexeme>)
    requires |names| >= 1
    ensures ParseExternModule([Id("extern")] + ([Id("mod")] + PrintRefList(names,
      [Sym("{")] + PrintExternSource(first, PrintExternSource(second, [Sym("}")] + tail))))).Err?
  {
    var after := PrintExternSource(second, [Sym("}")] + tail);
    var source := PrintExternSource(first, after);
    var list := PrintRefList(names, [Sym("{")] + source);
    ExpectPrinted(Id("extern"), [Id("mod")] + list);
    ExpectPrinted(Id("mod"), list);
    RoundTripRefList(names, [Sym("{")] + source);
    ExpectPrinted(Sym("{"), source);
    RoundTripExternSource(first, after);
    assert !StartsWith(after, Sym("}"));
  }

  // ---------------------------------------------------------------------
  // Flow definitions and flow references
  // ---------------------------------------------------------------------

  /** After `flow`, the item is a reference exactly when `name :` follows, and a definition otherwise. */
  lemma FlowDispatch(anns: seq<Annotation>, ts: seq<Lexeme>)
    requires StartsWith(ts, Id("flow")) && ParseModuleItemBody(anns, ts).Ok?
    ensures ParseModuleItemBody(anns, ts).value.0.FlowRefItem? || ParseModuleItemBody(anns, ts).value.0.FlowDefItem?
    ensures ParseModuleItemBody(anns, ts).value.0.FlowRefItem? <==> IsFlowReferenceAhead(ts)
  {
    var r := ParseModuleItemBody(anns, ts).value;
    if r.0.FlowDefItem? {
      FlowDefinitionAhead(r.0.flowDef, r.1);
    }
  }

  /** A flow definition needs `@` before its name: `flow name {` is an error. */
  lemma FlowDefinitionNeedsAt(anns: seq<Annotation>, name: string, rest: seq<Lexeme>)
    ensures ParseModuleItemBody(anns, [Id("flow")] + ([Id(name)] + ([Sym("{")] + rest))).Err?
  {
    var body := [Sym("{")] + rest;
    assert PrintRefList([name], body) == [Id(name)] + body;
    RoundTripRefList([name], body);
    ExpectPrinted(Id("flow"), [Id(name)] + body);
  }

  /** A flow reference needs a non-empty list after its `:`: `flow name : ;` is an error. */
  lemma FlowReferenceNeedsRefs(anns: seq<Annotation>, name: string, rest: seq<Lexeme>)
    ensures ParseModuleItemBody(anns, [Id("flow")] + ([Id(name)] + ([Sym(":")] + ([Sym(";")] + rest)))).Err?
  {
    var ts := [Id("flow")] + ([Id(name)] + ([Sym(":")] + ([Sym(";")] + rest)));
    assert IsFlowReferenceAhead(ts);
    ExpectPrinted(Id("flow"), ts[1..]);
    ExpectIdentPrinted(name, ts[2..]);
    ExpectPrinted(Sym(":"), ts[3..]);
  }

  // ---------------------------------------------------------------------
  // Bodies
  // ---------------------------------------------------------------------

  /** `gx.vars { ... }` has no optional `;`: in an environment body a `;` after it is an error. */
  lemma GxVarsTakesNoSemi(v: GxVarsBlock, tail: seq<Lexeme>)
    ensures ParseEnvItems(PrintGxVarsBlock(v, [Sym(";")] + tail)).Err?
  {
    RoundTripEnvItem(EnvVars(v), [Sym(";")] + tail);
  }

  /**
    `gx.vars(...)` is a builtin command in a flow body but an error in an
    environment body, where `gx.vars` must open a `gx_vars_block`.
  */
  lemma GxVarsCallOnlyInFlow(props: seq<CommandProp>, tail: seq<Lexeme>)
    ensures ParseFlowItem(PrintCommandStmt(BuiltinCommand("gx.vars", props), tail))
      == Ok((FlowCommand(BuiltinCommand("gx.vars", props)), tail))
    ensures ParseEnvItem(PrintCommandStmt(BuiltinCommand("gx.vars", props), tail)).Err?
  {
    var c := BuiltinCommand("gx.vars", props);
    RoundTripFlowItem(FlowCommand(c), tail);
    assert PrintCommandStmt(c, tail)[1..] == PrintCallArgs(props, [Sym(";")] + tail);
  }

  /** An activity body holds only properties: a command there is an error. */
  lemma ActivityRejectsCommand(c: CommandStmt, tail: seq<Lexeme>)
    requires WellFormedCommand(c)
    ensures ParseProperties(PrintCommandStmt(c, tail)).Err?
  {
    CommandStmtLeads(c, tail);
  }

  /** A function body holds only command statements: a property there is an error. */
  lemma FunctionBodyRejectsProperty(p: Property, tail: seq<Lexeme>)
    ensures ParseCommandStmts(PrintProperty(p, tail)).Err?
  {
    var ts := PrintProperty(p, tail);
    assert ParseDottedName(ts) == Ok(([p.key], ts[1..]));
  }

  /** A property's value is a string or a number, and the property ends in `;`. */
  lemma PropertyShape(key: string, value: Lexeme, tail: seq<Lexeme>)
    ensures ParseProperty([Id(key)] + ([Sym("=")] + ([value] + tail))).Ok? <==>
      (value.kind == Str || value.kind == Num) && StartsWith(tail, Sym(";"))
  {
    var ts := [Id(key)] + ([Sym("=")] + ([value] + tail));
    assert ts[1..] == [Sym("=")] + ([value] + tail);
    assert ts[1..][1..] == [value] + tail;
    assert ts[1..][1..][1..] == tail;
  }
}

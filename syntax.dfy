/**
  The syntax tree of a GXL document, one datatype per grammar rule, and the
  printer that turns a tree back into the lexemes it was parsed from.

  List fields that the grammar makes optional (`optional(commaSep1(...))`)
  are plain sequences: the empty sequence stands for the absent list. The
  optional `;` after a closing `}` is kept as the `semi` flag so that a tree
  determines its token sequence exactly.
*/
module Syntax {
  import opened Results
  import opened Lexer

  datatype SourceFile = SourceFile(items: seq<TopLevelItem>)

  datatype TopLevelItem = ModuleDecl(mod: Module) | ExternDecl(ext: ExternModule)

  datatype ExternModule = ExternModule(names: seq<string>, source: ExternSource, semi: bool)

  datatype ExternSource = PathSource(path: string) | GitSource(url: string, channel: string)

  datatype Module = Module(
    annotations: seq<Annotation>, name: string, refs: seq<string>, items: seq<ModuleItem>, semi: bool)

  datatype ModuleItem =
    | PropertyItem(prop: Property)
    | EnvItem(env: Environment)
    | FlowDefItem(flowDef: FlowDefinition)
    | FlowRefItem(flowRef: FlowReference)
    | FnItem(fn: FunctionDef)
    | ActivityItem(activity: Activity)

  /** `value` holds the literal's raw source text (quotes and escapes included). */
  datatype Property = Property(key: string, value: Value)

  datatype Value = StringValue(raw: string) | NumberValue(raw: string)

  datatype Environment = Environment(
    annotations: seq<Annotation>, name: string, refs: seq<string>, items: seq<EnvItem>, semi: bool)

  datatype EnvItem = EnvProperty(prop: Property) | EnvCommand(cmd: CommandStmt) | EnvVars(vars: GxVarsBlock)

  datatype GxVarsBlock = GxVarsBlock(props: seq<CommandProp>)

  /** `before` is the optional `ref_list |` ahead of `@name`, `after` the optional `| ref_list` behind it. */
  datatype FlowDefinition = FlowDefinition(
    annotations: seq<Annotation>, before: seq<string>, name: string, after: seq<string>,
    items: seq<FlowItem>, semi: bool)

  datatype FlowItem = FlowCommand(cmd: CommandStmt) | FlowProperty(prop: Property)

  datatype FlowReference = FlowReference(annotations: seq<Annotation>, name: string, refs: seq<string>)

  datatype FunctionDef = FunctionDef(
    annotations: seq<Annotation>, name: string, params: seq<FunctionParam>, body: seq<CommandStmt>,
    semi: bool)

  /** `variadic` is the `*` marker; `default` the raw text of the default string. */
  datatype FunctionParam = FunctionParam(variadic: bool, name: string, default: Option<string>)

  datatype Activity = Activity(annotations: seq<Annotation>, name: string, props: seq<Property>, semi: bool)

  datatype Annotation = Annotation(name: string, args: seq<AnnotationArg>)

  datatype AnnotationArg = KeyedArg(key: string, value: string) | BareArg(value: string)

  /** The two alternatives of `command_stmt`; the closing `;` is implied. */
  datatype CommandStmt =
    | BuiltinCommand(name: string, props: seq<CommandProp>)
    | CallExpression(target: Target, props: seq<CommandProp>)

  datatype Target = PlainTarget(name: string) | DottedTarget(segments: seq<string>)

  datatype CommandProp = CommandProp(key: string, value: PropValue)

  /** A string literal, or an identifier naming a variable. */
  datatype PropValue = PropString(raw: string) | PropVariable(name: string)

  // ---------------------------------------------------------------------
  // Lexemes used by the printer and the parser
  // ---------------------------------------------------------------------

  function Id(name: string): Lexeme { Lexeme(Ident, name) }

  function Sym(c: string): Lexeme { Lexeme(Punct, c) }

  function StrLit(raw: string): Lexeme { Lexeme(Str, raw) }

  const HashBracket := Lexeme(AnnotOpen, "#[")

  /** The keywords that open a module item other than a property. */
  const ModuleItemKeywords: set<string> := {"env", "flow", "fn", "activity"}

  // ---------------------------------------------------------------------
  // Structural well-formedness: what a tree must satisfy to be printable
  // and parsed back
  // ---------------------------------------------------------------------

  predicate WellFormedSourceFile(sf: SourceFile) {
    forall k :: 0 <= k < |sf.items| ==> WellFormedTopLevelItem(sf.items[k])
  }

  predicate WellFormedTopLevelItem(item: TopLevelItem) {
    match item
    case ModuleDecl(m) => WellFormedModule(m)
    case ExternDecl(e) => |e.names| >= 1
  }

  predicate WellFormedModule(m: Module) {
    forall k :: 0 <= k < |m.items| ==> WellFormedModuleItem(m.items[k])
  }

  /** A property in a module body may not be keyed by a keyword that opens another item. */
  predicate WellFormedModuleItem(item: ModuleItem) {
    match item
    case PropertyItem(p) => p.key !in ModuleItemKeywords
    case EnvItem(e) => forall k :: 0 <= k < |e.items| ==> WellFormedEnvItem(e.items[k])
    case FlowDefItem(f) => forall k :: 0 <= k < |f.items| ==> WellFormedFlowItem(f.items[k])
    case FlowRefItem(f) => |f.refs| >= 1
    case FnItem(f) => forall k :: 0 <= k < |f.body| ==> WellFormedCommand(f.body[k])
    case ActivityItem(_) => true
  }

  /** In an environment body `gx.vars` always opens a `gx_vars_block`, never a command. */
  predicate WellFormedEnvItem(item: EnvItem) {
    item.EnvCommand? ==> WellFormedCommand(item.cmd) && !(item.cmd.BuiltinCommand? && item.cmd.name == "gx.vars")
  }

  predicate WellFormedFlowItem(item: FlowItem) {
    item.FlowCommand? ==> WellFormedCommand(item.cmd)
  }

  /** A dotted target has at least two segments (`repeat1` in `dotted_name`). */
  predicate WellFormedCommand(c: CommandStmt) {
    c.CallExpression? && c.target.DottedTarget? ==> |c.target.segments| >= 2
  }

  // ---------------------------------------------------------------------
  // Printer
  //
  // `PrintX(x, tail)` is the lexemes of `x` followed by `tail`. Threading the
  // tail through keeps every printed form a right-nested chain, which is the
  // shape in which the parser consumes it.
  // ---------------------------------------------------------------------

  function PrintSourceFile(sf: SourceFile): seq<Lexeme> {
    PrintTopLevelItems(sf.items, [])
  }

  function PrintTopLevelItems(items: seq<TopLevelItem>, tail: seq<Lexeme>): seq<Lexeme>
    decreases |items|
  {
    if items == [] then tail else PrintTopLevelItem(items[0], PrintTopLevelItems(items[1..], tail))
  }

  function PrintTopLevelItem(item: TopLevelItem, tail: seq<Lexeme>): seq<Lexeme> {
    match item
    case ModuleDecl(m) => PrintAnnotations(m.annotations, PrintModule(m, tail))
    case ExternDecl(e) => PrintExternModule(e, tail)
  }

  function PrintOptSemi(semi: bool, tail: seq<Lexeme>): seq<Lexeme> {
    if semi then [Sym(";")] + tail else tail
  }

  function PrintExternModule(e: ExternModule, tail: seq<Lexeme>): seq<Lexeme> {
    [Id("extern")] + ([Id("mod")] + PrintRefList(e.names,
      [Sym("{")] + PrintExternSource(e.source, [Sym("}")] + PrintOptSemi(e.semi, tail))))
  }

  function PrintExternSource(src: ExternSource, tail: seq<Lexeme>): seq<Lexeme> {
    match src
    case PathSource(p) => [Id("path")] + ([Sym("=")] + ([StrLit(p)] + ([Sym(";")] + tail)))
    case GitSource(u, c) =>
      [Id("git")] + ([Sym("=")] + ([StrLit(u)] + ([Sym(",")] +
        ([Id("channel")] + ([Sym("=")] + ([StrLit(c)] + ([Sym(";")] + tail)))))))
  }

  /** `ref_list`: identifiers separated by commas. */
  function PrintRefList(names: seq<string>, tail: seq<Lexeme>): seq<Lexeme>
    decreases |names|
  {
    if names == [] then tail
    else [Id(names[0])] + (if |names| == 1 then tail else [Sym(",")] + PrintRefList(names[1..], tail))
  }

  /** An optional `sep ref_list`: `: ref_list` after a module or environment name, `| ref_list` after a flow name. */
  function PrintSepRefList(sep: string, refs: seq<string>, tail: seq<Lexeme>): seq<Lexeme> {
    if refs == [] then tail else [Sym(sep)] + PrintRefList(refs, tail)
  }

  function PrintAnnotations(anns: seq<Annotation>, tail: seq<Lexeme>): seq<Lexeme>
    decreases |anns|
  {
    if anns == [] then tail else PrintAnnotation(anns[0], PrintAnnotations(anns[1..], tail))
  }

  function PrintAnnotation(a: Annotation, tail: seq<Lexeme>): seq<Lexeme> {
    [HashBracket] + ([Id(a.name)] + PrintAnnotationTail(a.args, tail))
  }

  /** What follows the name: `]`, or the arguments in parentheses and then `]`. */
  function PrintAnnotationTail(args: seq<AnnotationArg>, tail: seq<Lexeme>): seq<Lexeme> {
    if args == [] then [Sym("]")] + tail
    else [Sym("(")] + PrintAnnotationArgs(args, [Sym(")")] + ([Sym("]")] + tail))
  }

  function PrintAnnotationArgs(args: seq<AnnotationArg>, tail: seq<Lexeme>): seq<Lexeme>
    decreases |args|
  {
    if args == [] then tail
    else PrintAnnotationArg(args[0], if |args| == 1 then tail else [Sym(",")] + PrintAnnotationArgs(args[1..], tail))
  }

  function PrintAnnotationArg(arg: AnnotationArg, tail: seq<Lexeme>): seq<Lexeme> {
    match arg
    case KeyedArg(k, v) => [Id(k)] + ([Sym("=")] + ([StrLit(v)] + tail))
    case BareArg(v) => [StrLit(v)] + tail
  }

  /** A module from its `mod` keyword on (its annotations are printed by the caller). */
  function PrintModule(m: Module, tail: seq<Lexeme>): seq<Lexeme> {
    [Id("mod")] + ([Id(m.name)] + PrintSepRefList(":", m.refs,
      [Sym("{")] + PrintModuleItems(m.items, [Sym("}")] + PrintOptSemi(m.semi, tail))))
  }

  function PrintModuleItems(items: seq<ModuleItem>, tail: seq<Lexeme>): seq<Lexeme>
    decreases |items|
  {
    if items == [] then tail else PrintModuleItem(items[0], PrintModuleItems(items[1..], tail))
  }

  function PrintModuleItem(item: ModuleItem, tail: seq<Lexeme>): seq<Lexeme> {
    PrintAnnotations(ModuleItemAnnotations(item), PrintModuleItemBody(item, tail))
  }

  /** The annotations in front of a module item; a property has none. */
  function ModuleItemAnnotations(item: ModuleItem): seq<Annotation> {
    match item
    case PropertyItem(_) => []
    case EnvItem(e) => e.annotations
    case FlowDefItem(f) => f.annotations
    case FlowRefItem(f) => f.annotations
    case FnItem(f) => f.annotations
    case ActivityItem(a) => a.annotations
  }

  /** A module item after its annotations, from its keyword (or property key) on. */
  function PrintModuleItemBody(item: ModuleItem, tail: seq<Lexeme>): seq<Lexeme> {
    match item
    case PropertyItem(p) => PrintProperty(p, tail)
    case EnvItem(e) => PrintEnvironment(e, tail)
    case FlowDefItem(f) => PrintFlowDefinition(f, tail)
    case FlowRefItem(f) => PrintFlowReference(f, tail)
    case FnItem(f) => PrintFunctionDef(f, tail)
    case ActivityItem(a) => PrintActivity(a, tail)
  }

  function PrintValue(v: Value): Lexeme {
    match v
    case StringValue(raw) => StrLit(raw)
    case NumberValue(raw) => Lexeme(Num, raw)
  }

  function PrintProperty(p: Property, tail: seq<Lexeme>): seq<Lexeme> {
    [Id(p.key)] + ([Sym("=")] + ([PrintValue(p.value)] + ([Sym(";")] + tail)))
  }

  function PrintProperties(props: seq<Property>, tail: seq<Lexeme>): seq<Lexeme>
    decreases |props|
  {
    if props == [] then tail else PrintProperty(props[0], PrintProperties(props[1..], tail))
  }

  function PrintEnvironment(e: Environment, tail: seq<Lexeme>): seq<Lexeme> {
    [Id("env")] + ([Id(e.name)] + PrintSepRefList(":", e.refs,
      [Sym("{")] + PrintEnvItems(e.items, [Sym("}")] + PrintOptSemi(e.semi, tail))))
  }

  function PrintEnvItems(items: seq<EnvItem>, tail: seq<Lexeme>): seq<Lexeme>
    decreases |items|
  {
    if items == [] then tail else PrintEnvItem(items[0], PrintEnvItems(items[1..], tail))
  }

  function PrintEnvItem(item: EnvItem, tail: seq<Lexeme>): seq<Lexeme> {
    match item
    case EnvProperty(p) => PrintProperty(p, tail)
    case EnvCommand(c) => PrintCommandStmt(c, tail)
    case EnvVars(v) => PrintGxVarsBlock(v, tail)
  }

  /** `gx.vars { ... }`, with no optional `;` after its `}`. */
  function PrintGxVarsBlock(v: GxVarsBlock, tail: seq<Lexeme>): seq<Lexeme> {
    [Lexeme(Builtin, "gx.vars")] + ([Sym("{")] + PrintCommandProps(v.props, [Sym("}")] + tail))
  }

  function PrintFlowDefinition(f: FlowDefinition, tail: seq<Lexeme>): seq<Lexeme> {
    [Id("flow")] + PrintFlowBefore(f.before,
      [Sym("@")] + ([Id(f.name)] + PrintSepRefList("|", f.after,
        [Sym("{")] + PrintFlowItems(f.items, [Sym("}")] + PrintOptSemi(f.semi, tail)))))
  }

  /** The optional `ref_list |` in front of a flow's `@name`. */
  function PrintFlowBefore(before: seq<string>, tail: seq<Lexeme>): seq<Lexeme> {
    if before == [] then tail else PrintRefList(before, [Sym("|")] + tail)
  }

  function PrintFlowItems(items: seq<FlowItem>, tail: seq<Lexeme>): seq<Lexeme>
    decreases |items|
  {
    if items == [] then tail else PrintFlowItem(items[0], PrintFlowItems(items[1..], tail))
  }

  function PrintFlowItem(item: FlowItem, tail: seq<Lexeme>): seq<Lexeme> {
    match item
    case FlowCommand(c) => PrintCommandStmt(c, tail)
    case FlowProperty(p) => PrintProperty(p, tail)
  }

  function PrintFlowReference(f: FlowReference, tail: seq<Lexeme>): seq<Lexeme> {
    [Id("flow")] + ([Id(f.name)] + ([Sym(":")] + PrintRefList(f.refs, [Sym(";")] + tail)))
  }

  function PrintFunctionDef(f: FunctionDef, tail: seq<Lexeme>): seq<Lexeme> {
    [Id("fn")] + ([Id(f.name)] + ([Sym("(")] + PrintFunctionParams(f.params,
      [Sym(")")] + ([Sym("{")] + PrintCommandStmts(f.body, [Sym("}")] + PrintOptSemi(f.semi, tail))))))
  }

  function PrintFunctionParams(params: seq<FunctionParam>, tail: seq<Lexeme>): seq<Lexeme>
    decreases |params|
  {
    if params == [] then tail
    else PrintFunctionParam(params[0], if |params| == 1 then tail else [Sym(",")] + PrintFunctionParams(params[1..], tail))
  }

  function PrintFunctionParam(p: FunctionParam, tail: seq<Lexeme>): seq<Lexeme> {
    if p.variadic then [Sym("*")] + PrintParamName(p, tail) else PrintParamName(p, tail)
  }

  /** A parameter after its optional `*`. */
  function PrintParamName(p: FunctionParam, tail: seq<Lexeme>): seq<Lexeme> {
    [Id(p.name)] + PrintParamDefault(p.default, tail)
  }

  function PrintParamDefault(d: Option<string>, tail: seq<Lexeme>): seq<Lexeme> {
    match d
    case None => tail
    case Some(v) => [Sym("=")] + ([StrLit(v)] + tail)
  }

  function PrintActivity(a: Activity, tail: seq<Lexeme>): seq<Lexeme> {
    [Id("activity")] + ([Id(a.name)] + ([Sym("{")] + PrintProperties(a.props, [Sym("}")] + PrintOptSemi(a.semi, tail))))
  }

  function PrintCommandStmts(cmds: seq<CommandStmt>, tail: seq<Lexeme>): seq<Lexeme>
    decreases |cmds|
  {
    if cmds == [] then tail else PrintCommandStmt(cmds[0], PrintCommandStmts(cmds[1..], tail))
  }

  function PrintCommandStmt(c: CommandStmt, tail: seq<Lexeme>): seq<Lexeme> {
    match c
    case BuiltinCommand(name, props) => [Lexeme(Builtin, name)] + PrintCallArgs(props, [Sym(";")] + tail)
    case CallExpression(target, props) => PrintTarget(target, PrintCallArgs(props, [Sym(";")] + tail))
  }

  /** `"(" optional(command_props) ")"` */
  function PrintCallArgs(props: seq<CommandProp>, tail: seq<Lexeme>): seq<Lexeme> {
    [Sym("(")] + PrintCommandProps(props, [Sym(")")] + tail)
  }

  function PrintTarget(t: Target, tail: seq<Lexeme>): seq<Lexeme> {
    match t
    case PlainTarget(n) => [Id(n)] + tail
    case DottedTarget(segs) => PrintDotted(segs, tail)
  }

  function PrintDotted(segs: seq<string>, tail: seq<Lexeme>): seq<Lexeme>
    decreases |segs|
  {
    if segs == [] then tail
    else [Id(segs[0])] + (if |segs| == 1 then tail else [Sym(".")] + PrintDotted(segs[1..], tail))
  }

  function PrintCommandProps(props: seq<CommandProp>, tail: seq<Lexeme>): seq<Lexeme>
    decreases |props|
  {
    if props == [] then tail
    else PrintCommandProp(props[0], if |props| == 1 then tail else [Sym(",")] + PrintCommandProps(props[1..], tail))
  }

  function PrintCommandProp(p: CommandProp, tail: seq<Lexeme>): seq<Lexeme> {
    [Id(p.key)] + ([Sym(":")] + ([PrintPropValue(p.value)] + tail))
  }

  function PrintPropValue(v: PropValue): Lexeme {
    match v
    case PropString(raw) => StrLit(raw)
    case PropVariable(n) => Id(n)
  }
}

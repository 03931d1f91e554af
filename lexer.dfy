/**
  The terminals of the GXL grammar: identifiers, strings, numbers, the ten
  `gx.*` builtin names, the `#[` annotation opener, single-character
  punctuation and line comments, plus the whitespace that separates them.

  The lexer works on the whole source text `s` and an index into it. Each
  token records its lexeme (kind and exact text) and the index where it starts.
  Keywords are not a token kind: `mod`, `env`, `flow`, ... are lexed as
  identifiers and the parser recognises them by position.
*/
module Lexer {
  import opened Results

  datatype Kind = Ident | Str | Num | Builtin | Comment | AnnotOpen | Punct

  /** What the parser sees of a token: its kind and its exact source text. */
  datatype Lexeme = Lexeme(kind: Kind, text: string)

  datatype Token = Token(lexeme: Lexeme, pos: nat)

  datatype LexError = UnterminatedString(pos: nat) | IllegalChar(pos: nat)

  // ---------------------------------------------------------------------
  // Character classes
  // ---------------------------------------------------------------------

  /** The whitespace skipped between tokens: space, tab, LF, VT, FF, CR. */
  predicate IsSpace(c: char) {
    c == ' ' || c == '\t' || c == '\n' || c == '\U{0B}' || c == '\U{0C}' || c == '\r'
  }

  predicate IsIdentStart(c: char) {
    ('a' <= c <= 'z') || ('A' <= c <= 'Z') || c == '_'
  }

  predicate IsDigit(c: char) {
    '0' <= c <= '9'
  }

  predicate IsIdentChar(c: char) {
    IsIdentStart(c) || IsDigit(c)
  }

  /** The single-character punctuation tokens of the grammar. */
  predicate IsPunct(c: char) {
    c in "{}()]:;,=|@.*"
  }

  /** The characters with which some token can begin. */
  predicate CanStartToken(c: char) {
    IsIdentStart(c) || IsDigit(c) || c == '"' || c == '#' || IsPunct(c)
  }

  // ---------------------------------------------------------------------
  // The shape of each kind of lexeme
  // ---------------------------------------------------------------------

  /** `[a-zA-Z_][a-zA-Z0-9_]*` */
  predicate IsIdentText(t: string) {
    |t| >= 1 && IsIdentStart(t[0]) && forall k :: 1 <= k < |t| ==> IsIdentChar(t[k])
  }

  /** `\d+(\.\d+)?`: digits with at most one dot, which has a digit on both sides. */
  predicate IsNumberText(t: string) {
    && |t| >= 1
    && IsDigit(t[0])
    && IsDigit(t[|t| - 1])
    && (forall k :: 0 <= k < |t| ==> IsDigit(t[k]) || t[k] == '.')
    && (forall j, k :: 0 <= j < k < |t| && t[j] == '.' ==> t[k] != '.')
  }

  /**
    The units between the quotes of a string: a character other than `"` and
    `\`, or `\` followed by any character except a newline (the regex `.`).
  */
  predicate IsStringBody(u: string)
    decreases |u|
  {
    if |u| == 0 then true
    else if u[0] == '\\' then |u| >= 2 && u[1] != '\n' && IsStringBody(u[2..])
    else u[0] != '"' && IsStringBody(u[1..])
  }

  predicate IsStringText(t: string) {
    |t| >= 2 && t[0] == '"' && t[|t| - 1] == '"' && IsStringBody(t[1..|t| - 1])
  }

  /** `#([^\[\n][^\n]*)?`: a `#` not followed by `[`, up to the end of the line. */
  predicate IsCommentText(t: string) {
    && |t| >= 1
    && t[0] == '#'
    && (|t| >= 2 ==> t[1] != '[')
    && (forall k :: 1 <= k < |t| ==> t[k] != '\n')
  }

  /** The closed set of builtin command names, in the order the grammar lists them. */
  const BuiltinNames: seq<string> := [
    "gx.echo", "gx.vars", "gx.cmd", "gx.read", "gx.tpl",
    "gx.assert", "gx.ver", "gx.read_cmd", "gx.read_stdin", "gx.read_file"
  ]

  /** `gx.` followed by at least three identifier characters. */
  predicate HasBuiltinShape(n: string) {
    && |n| >= 6 && n[0] == 'g' && n[1] == 'x' && n[2] == '.'
    && forall k :: 3 <= k < |n| ==> IsIdentChar(n[k])
  }

  lemma BuiltinNamesShape()
    ensures forall n :: n in BuiltinNames ==> HasBuiltinShape(n)
  {
    forall k | 0 <= k < |BuiltinNames| ensures HasBuiltinShape(BuiltinNames[k]) {
      var n := BuiltinNames[k];
      forall j | 3 <= j < |n| ensures IsIdentChar(n[j]) { }
    }
  }

  predicate WellFormed(lx: Lexeme) {
    match lx.kind
    case Ident => IsIdentText(lx.text)
    case Str => IsStringText(lx.text)
    case Num => IsNumberText(lx.text)
    case Builtin => lx.text in BuiltinNames
    case Comment => IsCommentText(lx.text)
    case AnnotOpen => lx.text == "#["
    case Punct => |lx.text| == 1 && IsPunct(lx.text[0])
  }

  predicate IsPrefixAt(p: string, s: string, i: nat) {
    i + |p| <= |s| && s[i..i + |p|] == p
  }

  /**
    Maximal munch: the token that starts at `start` and ends at `end` could
    not have been any longer.

    `afterDot` says that the previous token, comments aside, is `.`. The only
    token valid there is the identifier that continues a `dotted_name`, and
    tree-sitter lexes only the tokens valid in the current state: so after a
    `.` a word is an identifier even where a builtin name occurs, and
    elsewhere the longest builtin name wins over an identifier.
  */
  predicate EndsMaximally(s: string, lx: Lexeme, start: nat, end: nat, afterDot: bool)
    requires end <= |s|
  {
    match lx.kind
    case Ident =>
      && (end == |s| || !IsIdentChar(s[end]))
      && (afterDot || forall n :: n in BuiltinNames ==> !IsPrefixAt(n, s, start))
    case Num =>
      && (end == |s| || !IsDigit(s[end]))
      && ('.' !in lx.text ==> !(end + 1 < |s| && s[end] == '.' && IsDigit(s[end + 1])))
    case Comment => end == |s| || s[end] == '\n'
    case Builtin => !afterDot && forall n :: n in BuiltinNames && IsPrefixAt(n, s, start) ==> |n| <= |lx.text|
    case _ => true
  }

  predicate SpacesBetween(s: string, a: nat, b: nat)
    requires a <= b <= |s|
  {
    forall k :: a <= k < b ==> IsSpace(s[k])
  }

  /** Whether the token after `lx` follows a `.`; a comment is an extra and leaves this as it was. */
  function ModeAfter(afterDot: bool, lx: Lexeme): bool {
    if lx.kind == Comment then afterDot else lx == Lexeme(Punct, ".")
  }

  /**
    `ts` splits `s[i..]` into whitespace and tokens: every token is found in
    `s` at its position, is well formed and maximal, tokens appear in order
    without overlapping, and everything between them is whitespace.
    `afterDot` says whether the text before `i` ended with a `.` token.
  */
  predicate Tiles(s: string, i: nat, ts: seq<Token>, afterDot: bool)
    decreases |ts|
  {
    && i <= |s|
    && if ts == [] then SpacesBetween(s, i, |s|)
       else
         var t := ts[0];
         && i <= t.pos < |s|
         && SpacesBetween(s, i, t.pos)
         && ScannedAt(s, t.pos, t, afterDot)
         && Tiles(s, t.pos + |t.lexeme.text|, ts[1..], ModeAfter(afterDot, t.lexeme))
  }

  /** Why lexing stopped at `e.pos`. */
  predicate LexFailure(s: string, e: LexError) {
    match e
    case UnterminatedString(p) =>
      && p < |s| && s[p] == '"'
      && forall e :: p < e <= |s| ==> !IsStringText(s[p..e])
    case IllegalChar(p) =>
      p < |s| && !IsSpace(s[p]) && !CanStartToken(s[p])
  }

  // ---------------------------------------------------------------------
  // Scanners
  // ---------------------------------------------------------------------

  /** The end of the run of identifier characters starting at `j`. */
  function ScanIdentChars(s: string, j: nat): (e: nat)
    requires j <= |s|
    ensures j <= e <= |s|
    ensures forall k :: j <= k < e ==> IsIdentChar(s[k])
    ensures e == |s| || !IsIdentChar(s[e])
    decreases |s| - j
  {
    if j < |s| && IsIdentChar(s[j]) then ScanIdentChars(s, j + 1) else j
  }

  /** The end of the run of digits starting at `j`. */
  function ScanDigits(s: string, j: nat): (e: nat)
    requires j <= |s|
    ensures j <= e <= |s|
    ensures forall k :: j <= k < e ==> IsDigit(s[k])
    ensures e == |s| || !IsDigit(s[e])
    decreases |s| - j
  {
    if j < |s| && IsDigit(s[j]) then ScanDigits(s, j + 1) else j
  }

  /** The end of the line that contains `j` (the index of its `\n`, or `|s|`). */
  function ScanLine(s: string, j: nat): (e: nat)
    requires j <= |s|
    ensures j <= e <= |s|
    ensures forall k :: j <= k < e ==> s[k] != '\n'
    ensures e == |s| || s[e] == '\n'
    decreases |s| - j
  {
    if j < |s| && s[j] != '\n' then ScanLine(s, j + 1) else j
  }

  /** A number starting at digit `s[i]`; the fraction is taken only when a digit follows the dot. */
  function ScanNumber(s: string, i: nat): (e: nat)
    requires i < |s| && IsDigit(s[i])
    ensures i < e <= |s| && IsNumberText(s[i..e])
    ensures e == |s| || !IsDigit(s[e])
    ensures '.' !in s[i..e] ==> !(e + 1 < |s| && s[e] == '.' && IsDigit(s[e + 1]))
  {
    var d := ScanDigits(s, i);
    if d + 1 < |s| && s[d] == '.' && IsDigit(s[d + 1]) then
      var e := ScanDigits(s, d + 1);
      assert forall k :: i <= k < e && k != d ==> IsDigit(s[k]);
      e
    else
      assert forall k :: i <= k < d ==> s[k] != '.';
      d
  }

  /**
    Scans the units of a string body from `j` up to the closing quote and
    returns the quote's index. That quote is the only one that ends a valid
    body, and `None` means that no quote in `s[j..]` ends a valid body.
  */
  function ScanStringBody(s: string, j: nat): (r: Option<nat>)
    requires j <= |s|
    ensures r.Some? ==> j <= r.value < |s| && s[r.value] == '"' && IsStringBody(s[j..r.value])
    ensures r.Some? ==> forall q :: j <= q < |s| && s[q] == '"' && IsStringBody(s[j..q]) ==> q == r.value
    ensures r.None? ==> forall q :: j <= q < |s| && s[q] == '"' ==> !IsStringBody(s[j..q])
    decreases |s| - j
  {
    if j == |s| then None
    else if s[j] == '"' then
      assert forall q :: j < q < |s| ==> s[j..q][0] == '"';
      Some(j)
    else if s[j] == '\\' then
      if j + 1 < |s| && s[j + 1] != '\n' then
        var r := ScanStringBody(s, j + 2);
        assert forall q :: j + 2 <= q <= |s| ==> s[j..q][2..] == s[j + 2..q];
        r
      else
        None
    else
      var r := ScanStringBody(s, j + 1);
      assert forall q :: j + 1 <= q <= |s| ==> s[j..q][1..] == s[j + 1..q];
      r
  }

  /** A string token spanning `s[i..e]` is its quotes around a valid body. */
  lemma StringTextAt(s: string, i: nat, e: nat)
    requires i < e <= |s|
    ensures IsStringText(s[i..e]) <==> e >= i + 2 && s[i] == '"' && s[e - 1] == '"' && IsStringBody(s[i + 1..e - 1])
  {
    if e >= i + 2 {
      var t := s[i..e];
      var body := t[1..|t| - 1];
      var direct := s[i + 1..e - 1];
      forall k | 0 <= k < |body| ensures body[k] == direct[k] {
        assert body[k] == t[k + 1];
      }
      assert body == direct;
    }
  }

  /** Among `names`, the longest one that occurs in `s` at `i`. */
  function LongestPrefix(names: seq<string>, s: string, i: nat): (r: Option<string>)
    ensures r.Some? ==> r.value in names && IsPrefixAt(r.value, s, i)
    ensures r.Some? ==> forall n :: n in names && IsPrefixAt(n, s, i) ==> |n| <= |r.value|
    ensures r.None? ==> forall n :: n in names ==> !IsPrefixAt(n, s, i)
    decreases |names|
  {
    if names == [] then None
    else
      var longest := LongestPrefix(names[1..], s, i);
      if IsPrefixAt(names[0], s, i) && (longest.None? || |longest.value| < |names[0]|) then
        Some(names[0])
      else
        longest
  }

  // ---------------------------------------------------------------------
  // Tokens
  // ---------------------------------------------------------------------

  /** `t` is a well-formed, maximal token occurring in `s` at `i`, in the given lexing mode. */
  predicate ScannedAt(s: string, i: nat, t: Token, afterDot: bool) {
    && t.pos == i
    && |t.lexeme.text| > 0
    && IsPrefixAt(t.lexeme.text, s, i)
    && WellFormed(t.lexeme)
    && EndsMaximally(s, t.lexeme, i, i + |t.lexeme.text|, afterDot)
  }

  /** `t` is a token at `i` in one of the two modes. */
  predicate Scanned(s: string, i: nat, t: Token) {
    ScannedAt(s, i, t, false) || ScannedAt(s, i, t, true)
  }

  /** `#[` is the annotation opener; any other `#` starts a comment running to the end of the line. */
  function LexHash(s: string, i: nat): (t: Token)
    requires i < |s| && s[i] == '#'
    ensures ScannedAt(s, i, t, false) && ScannedAt(s, i, t, true)
    ensures t.lexeme.kind == AnnotOpen <==> IsPrefixAt("#[", s, i)
    ensures t.lexeme.kind == Comment <==> !IsPrefixAt("#[", s, i)
  {
    if IsPrefixAt("#[", s, i) then
      Token(Lexeme(AnnotOpen, "#["), i)
    else
      var e := ScanLine(s, i + 1);
      assert i + 1 < |s| ==> s[i + 1] != '[';
      Token(Lexeme(Comment, s[i..e]), i)
  }

  /** A string literal starting at the quote `s[i]`, or the error for a missing closing quote. */
  function LexString(s: string, i: nat): (r: Result<Token, LexError>)
    requires i < |s| && s[i] == '"'
    ensures r.Ok? ==> ScannedAt(s, i, r.value, false) && ScannedAt(s, i, r.value, true) && r.value.lexeme.kind == Str
    ensures r.Err? ==> r.error == UnterminatedString(i) && LexFailure(s, r.error)
  {
    match ScanStringBody(s, i + 1)
    case None =>
      forall e | i < e <= |s| ensures !IsStringText(s[i..e]) {
        StringTextAt(s, i, e);
      }
      Err(UnterminatedString(i))
    case Some(q) =>
      StringTextAt(s, i, q + 1);
      Ok(Token(Lexeme(Str, s[i..q + 1]), i))
  }

  function LexNumber(s: string, i: nat): (t: Token)
    requires i < |s| && IsDigit(s[i])
    ensures ScannedAt(s, i, t, false) && ScannedAt(s, i, t, true) && t.lexeme.kind == Num
  {
    var e := ScanNumber(s, i);
    Token(Lexeme(Num, s[i..e]), i)
  }

  /**
    After a `.`, an identifier. Elsewhere a builtin name when one occurs at
    `i` (the longest), otherwise an identifier.
  */
  function LexWord(s: string, i: nat, afterDot: bool): (t: Token)
    requires i < |s| && IsIdentStart(s[i])
    ensures ScannedAt(s, i, t, afterDot)
    ensures t.lexeme.kind == (if afterDot then Ident else t.lexeme.kind)
    ensures t.lexeme.kind == Builtin || t.lexeme.kind == Ident
  {
    if afterDot then LexIdent(s, i, true)
    else
      var longest := LongestPrefix(BuiltinNames, s, i);
      if longest.Some? then LexBuiltin(s, i, longest.value) else LexIdent(s, i, false)
  }

  function LexBuiltin(s: string, i: nat, name: string): (t: Token)
    requires name in BuiltinNames && IsPrefixAt(name, s, i)
    requires forall n :: n in BuiltinNames && IsPrefixAt(n, s, i) ==> |n| <= |name|
    ensures ScannedAt(s, i, t, false) && t.lexeme.kind == Builtin && t.lexeme.text == name
  {
    var t := Token(Lexeme(Builtin, name), i);
    assert |name| > 0 by { BuiltinNamesShape(); }
    assert WellFormed(t.lexeme);
    t
  }

  function LexIdent(s: string, i: nat, afterDot: bool): (t: Token)
    requires i < |s| && IsIdentStart(s[i])
    requires afterDot || forall n :: n in BuiltinNames ==> !IsPrefixAt(n, s, i)
    ensures ScannedAt(s, i, t, afterDot) && t.lexeme.kind == Ident
  {
    var e := ScanIdentChars(s, i + 1);
    var t := Token(Lexeme(Ident, s[i..e]), i);
    assert WellFormed(t.lexeme);
    assert EndsMaximally(s, t.lexeme, i, e, afterDot);
    t
  }

  /**
    The token that starts at `s[i]`, a character that is not whitespace.
    `#[` is always the annotation opener; any other `#` starts a comment.
  */
  function NextToken(s: string, i: nat, afterDot: bool): (r: Result<Token, LexError>)
    requires i < |s| && !IsSpace(s[i])
    ensures r.Ok? ==> ScannedAt(s, i, r.value, afterDot)
    ensures r.Ok? ==> (r.value.lexeme.kind == AnnotOpen <==> IsPrefixAt("#[", s, i))
    ensures r.Ok? ==> (r.value.lexeme.kind == Comment <==> s[i] == '#' && !IsPrefixAt("#[", s, i))
    ensures r.Err? ==> r.error.pos == i && LexFailure(s, r.error)
  {
    var c := s[i];
    AnnotOpenFirst(s, i);
    if c == '#' then Ok(LexHash(s, i))
    else if c == '"' then LexString(s, i)
    else if IsDigit(c) then Ok(LexNumber(s, i))
    else if IsIdentStart(c) then Ok(LexWord(s, i, afterDot))
    else if IsPunct(c) then Ok(Token(Lexeme(Punct, [c]), i))
    else Err(IllegalChar(i))
  }

  lemma AnnotOpenFirst(s: string, i: nat)
    requires i < |s|
    ensures IsPrefixAt("#[", s, i) ==> s[i] == '#'
  {
    if IsPrefixAt("#[", s, i) {
      assert s[i..i + 2][0] == s[i];
    }
  }

  /**
    Lexes `s[i..]`: whitespace is skipped, every other character belongs to a
    token. The result is the one tiling of `s[i..]` when there is one, and an
    error exactly when there is none.
  */
  function LexFrom(s: string, i: nat, afterDot: bool): (r: Result<seq<Token>, LexError>)
    requires i <= |s|
    ensures r.Ok? ==> Tiles(s, i, r.value, afterDot)
    ensures r.Err? ==> i <= r.error.pos && LexFailure(s, r.error)
    ensures forall ts :: Tiles(s, i, ts, afterDot) ==> r == Ok(ts)
    decreases |s| - i
  {
    if i == |s| then
      TilingsAtEnd(s, afterDot);
      Ok([])
    else if IsSpace(s[i]) then
      var r := LexFrom(s, i + 1, afterDot);
      TilingsAfterSpace(s, i, afterDot);
      if r.Ok? then TilesSkipSpace(s, i, r.value, afterDot); r else r
    else
      match NextToken(s, i, afterDot)
      case Err(e) =>
        NoTilingAtFailure(s, e, afterDot);
        Err(e)
      case Ok(t) =>
        TilingsAfterToken(s, i, t, afterDot);
        Prepend(s, t, afterDot, LexFrom(s, i + |t.lexeme.text|, ModeAfter(afterDot, t.lexeme)))
  }

  /** The token `t`, then the tokens lexed after it, or the error met there. */
  function Prepend(s: string, t: Token, afterDot: bool, r: Result<seq<Token>, LexError>): (q: Result<seq<Token>, LexError>)
    requires t.pos < |s| && ScannedAt(s, t.pos, t, afterDot)
    requires r.Ok? ==> Tiles(s, t.pos + |t.lexeme.text|, r.value, ModeAfter(afterDot, t.lexeme))
    ensures q.Ok? ==> Tiles(s, t.pos, q.value, afterDot)
    ensures r.Ok? ==> q == Ok([t] + r.value)
    ensures r.Err? ==> q == Err(r.error)
  {
    match r
    case Err(e) => Err(e)
    case Ok(rest) =>
      TilesCons(s, t, rest, afterDot);
      Ok([t] + rest)
  }

  lemma TilesSkipSpace(s: string, i: nat, ts: seq<Token>, afterDot: bool)
    requires i < |s| && IsSpace(s[i]) && Tiles(s, i + 1, ts, afterDot)
    ensures Tiles(s, i, ts, afterDot)
  {
  }

  lemma TilesCons(s: string, t: Token, rest: seq<Token>, afterDot: bool)
    requires t.pos < |s| && ScannedAt(s, t.pos, t, afterDot)
    requires Tiles(s, t.pos + |t.lexeme.text|, rest, ModeAfter(afterDot, t.lexeme))
    ensures Tiles(s, t.pos, [t] + rest, afterDot)
  {
    var ts := [t] + rest;
    assert ts[0] == t && ts[1..] == rest;
  }

  /** The whole text as a token stream, comments included. */
  function Lex(s: string): (r: Result<seq<Token>, LexError>)
    ensures r.Ok? ==> Tiles(s, 0, r.value, false)
    ensures r.Err? ==> LexFailure(s, r.error)
    ensures forall ts :: Tiles(s, 0, ts, false) ==> r == Ok(ts)
  {
    LexFrom(s, 0, false)
  }

  // ---------------------------------------------------------------------
  // Maximal munch determines the token
  // ---------------------------------------------------------------------

  /** An identifier run cannot stop short of another identifier run from the same start. */
  lemma IdentEndUnique(s: string, i: nat, e1: nat, e2: nat)
    requires i < e1 <= e2 <= |s|
    requires IsIdentText(s[i..e2])
    requires e1 == |s| || !IsIdentChar(s[e1])
    ensures e1 == e2
  {
  }

  /** A comment runs to the first newline, so two comments from one `#` end together. */
  lemma CommentEndUnique(s: string, i: nat, e1: nat, e2: nat)
    requires i < e1 <= e2 <= |s|
    requires IsCommentText(s[i..e2])
    requires e1 == |s| || s[e1] == '\n'
    ensures e1 == e2
  {
  }

  /**
    A maximal number cannot be a proper prefix of another number: the only
    character that could continue it is a dot, and a dot inside a number is
    followed by a digit, which maximality forbids.
  */
  lemma NumberEndUnique(s: string, i: nat, e1: nat, e2: nat)
    requires i < e1 <= e2 <= |s|
    requires IsNumberText(s[i..e1]) && IsNumberText(s[i..e2])
    requires e1 == |s| || !IsDigit(s[e1])
    requires '.' !in s[i..e1] ==> !(e1 + 1 < |s| && s[e1] == '.' && IsDigit(s[e1 + 1]))
    ensures e1 == e2
  {
  }

  /** Two maximal tokens of the same kind at the same index have the same length. */
  lemma SameKindSameLength(s: string, i: nat, t1: Token, t2: Token, afterDot: bool)
    requires ScannedAt(s, i, t1, afterDot) && ScannedAt(s, i, t2, afterDot)
    requires t1.lexeme.kind == t2.lexeme.kind
    requires |t1.lexeme.text| <= |t2.lexeme.text|
    ensures |t1.lexeme.text| == |t2.lexeme.text|
  {
    var e1 := i + |t1.lexeme.text|;
    var e2 := i + |t2.lexeme.text|;
    assert s[i..e1] == t1.lexeme.text && s[i..e2] == t2.lexeme.text;
    match t1.lexeme.kind
    case Ident => IdentEndUnique(s, i, e1, e2);
    case Comment => CommentEndUnique(s, i, e1, e2);
    case Num => NumberEndUnique(s, i, e1, e2);
    case Str => StringEndUnique(s, i, e1, e2);
    case Builtin =>
    case AnnotOpen =>
    case Punct =>
  }

  lemma StringEndUnique(s: string, i: nat, e1: nat, e2: nat)
    requires i < e1 <= e2 <= |s|
    requires IsStringText(s[i..e1]) && IsStringText(s[i..e2])
    ensures e1 == e2
  {
    StringTextAt(s, i, e1);
    StringTextAt(s, i, e2);
    var r := ScanStringBody(s, i + 1);
    assert r.Some? && e1 - 1 == r.value && e2 - 1 == r.value;
  }

  lemma AnnotOpenAt(s: string, i: nat)
    requires i + 1 < |s|
    ensures IsPrefixAt("#[", s, i) <==> s[i] == '#' && s[i + 1] == '['
  {
    if s[i] == '#' && s[i + 1] == '[' {
      assert s[i..i + 2] == "#[";
    }
    if IsPrefixAt("#[", s, i) {
      assert s[i..i + 2][1] == s[i + 1];
    }
  }

  /** What the characters at `i` say about the kind of a token that starts there. */
  predicate KindFits(s: string, i: nat, k: Kind)
    requires i < |s|
  {
    match k
    case Ident => IsIdentStart(s[i])
    case Builtin => IsIdentStart(s[i])
    case Str => s[i] == '"'
    case Num => IsDigit(s[i])
    case Comment => s[i] == '#' && !IsPrefixAt("#[", s, i)
    case AnnotOpen => IsPrefixAt("#[", s, i)
    case Punct => IsPunct(s[i])
  }

  lemma KindFitsToken(s: string, i: nat, t: Token, afterDot: bool)
    requires ScannedAt(s, i, t, afterDot)
    ensures i < |s| && KindFits(s, i, t.lexeme.kind)
  {
    var text := t.lexeme.text;
    assert s[i..i + |text|] == text;
    assert s[i] == text[0];
    match t.lexeme.kind
    case Builtin =>
      assert HasBuiltinShape(text) by { BuiltinNamesShape(); }
    case Comment =>
      if i + 1 < |s| {
        AnnotOpenAt(s, i);
        if |text| >= 2 {
          assert s[i + 1] == text[1];
        }
      }
    case _ =>
  }

  /** The first character decides the kind, up to the pairs Ident/Builtin and Comment/AnnotOpen. */
  lemma KindFitsUnique(s: string, i: nat, k1: Kind, k2: Kind)
    requires i < |s| && KindFits(s, i, k1) && KindFits(s, i, k2)
    ensures k1 == k2 || ({k1, k2} == {Ident, Builtin})
  {
  }

  /**
    In one mode an identifier and a builtin name never both start at an index:
    after a `.` there is no builtin name, and elsewhere an identifier never
    starts where a builtin name occurs.
  */
  lemma NotIdentAndBuiltin(s: string, i: nat, t1: Token, t2: Token, afterDot: bool)
    requires ScannedAt(s, i, t1, afterDot) && ScannedAt(s, i, t2, afterDot)
    requires t1.lexeme.kind == Ident
    ensures t2.lexeme.kind != Builtin
  {
  }

  lemma KindFromFirstChar(s: string, i: nat, t1: Token, t2: Token, afterDot: bool)
    requires ScannedAt(s, i, t1, afterDot) && ScannedAt(s, i, t2, afterDot)
    ensures t1.lexeme.kind == t2.lexeme.kind
  {
    KindFitsToken(s, i, t1, afterDot);
    KindFitsToken(s, i, t2, afterDot);
    KindFitsUnique(s, i, t1.lexeme.kind, t2.lexeme.kind);
    if t1.lexeme.kind == Ident {
      NotIdentAndBuiltin(s, i, t1, t2, afterDot);
    } else if t2.lexeme.kind == Ident {
      NotIdentAndBuiltin(s, i, t2, t1, afterDot);
    }
  }

  /** Lexing is deterministic: at most one well-formed, maximal token starts at any index. */
  lemma TokenAtUnique(s: string, i: nat, t1: Token, t2: Token, afterDot: bool)
    requires ScannedAt(s, i, t1, afterDot) && ScannedAt(s, i, t2, afterDot)
    ensures t1 == t2
  {
    KindFromFirstChar(s, i, t1, t2, afterDot);
    if |t1.lexeme.text| <= |t2.lexeme.text| {
      SameKindSameLength(s, i, t1, t2, afterDot);
    } else {
      SameKindSameLength(s, i, t2, t1, afterDot);
    }
  }

  /** Every lexeme starts with a character that can start a token, never with whitespace. */
  lemma LexemeStart(lx: Lexeme)
    requires WellFormed(lx)
    ensures |lx.text| > 0 && CanStartToken(lx.text[0]) && !IsSpace(lx.text[0])
  {
    if lx.kind == Builtin {
      BuiltinNamesShape();
    }
  }

  lemma TokenStart(s: string, i: nat, t: Token, afterDot: bool)
    requires ScannedAt(s, i, t, afterDot)
    ensures i < |s| && CanStartToken(s[i]) && !IsSpace(s[i])
  {
    var text := t.lexeme.text;
    LexemeStart(t.lexeme);
    assert s[i..i + |text|][0] == s[i];
  }

  /** Where lexing fails, no token can be scanned. */
  lemma FailureHasNoToken(s: string, e: LexError, t: Token, afterDot: bool)
    requires LexFailure(s, e)
    ensures !ScannedAt(s, e.pos, t, afterDot)
  {
    if ScannedAt(s, e.pos, t, afterDot) {
      TokenStart(s, e.pos, t, afterDot);
      if e.UnterminatedString? {
        KindFitsToken(s, e.pos, t, afterDot);
        KindFitsUnique(s, e.pos, t.lexeme.kind, Str);
      }
    }
  }

  /** The first token of a tiling, and the tiling that follows it. */
  lemma TilesHead(s: string, i: nat, ts: seq<Token>, afterDot: bool)
    requires Tiles(s, i, ts, afterDot) && ts != []
    ensures i <= ts[0].pos && SpacesBetween(s, i, ts[0].pos) && ScannedAt(s, ts[0].pos, ts[0], afterDot)
    ensures Tiles(s, ts[0].pos + |ts[0].lexeme.text|, ts[1..], ModeAfter(afterDot, ts[0].lexeme))
  {
    var t := ts[0];
    assert IsPrefixAt(t.lexeme.text, s, t.pos);
  }

  lemma TilesNonEmpty(s: string, i: nat, ts: seq<Token>, afterDot: bool)
    requires i < |s| && !IsSpace(s[i]) && Tiles(s, i, ts, afterDot)
    ensures ts != []
  {
  }

  /** A tiling from a character that is not whitespace begins with a token at that character. */
  lemma TilingFirst(s: string, i: nat, ts: seq<Token>, afterDot: bool)
    requires i < |s| && !IsSpace(s[i]) && Tiles(s, i, ts, afterDot)
    ensures ts != [] && ScannedAt(s, i, ts[0], afterDot)
    ensures Tiles(s, i + |ts[0].lexeme.text|, ts[1..], ModeAfter(afterDot, ts[0].lexeme)) && ts == [ts[0]] + ts[1..]
  {
    TilesNonEmpty(s, i, ts, afterDot);
    TilesHead(s, i, ts, afterDot);
    assert ts[0].pos == i;
  }

  lemma TilingsAtEnd(s: string, afterDot: bool)
    ensures forall ts :: Tiles(s, |s|, ts, afterDot) ==> ts == []
  {
  }

  lemma TilingsAfterSpace(s: string, i: nat, afterDot: bool)
    requires i < |s| && IsSpace(s[i])
    ensures forall ts :: Tiles(s, i, ts, afterDot) ==> Tiles(s, i + 1, ts, afterDot)
  {
    forall ts: seq<Token> | Tiles(s, i, ts, afterDot) ensures Tiles(s, i + 1, ts, afterDot) {
      if ts != [] {
        var t := ts[0];
        assert IsPrefixAt(t.lexeme.text, s, t.pos);
        TokenStart(s, t.pos, t, afterDot);
      }
    }
  }

  lemma NoTilingAtFailure(s: string, e: LexError, afterDot: bool)
    requires LexFailure(s, e)
    ensures forall ts :: !Tiles(s, e.pos, ts, afterDot)
  {
    forall ts: seq<Token> ensures !Tiles(s, e.pos, ts, afterDot) {
      if Tiles(s, e.pos, ts, afterDot) {
        TilingFirst(s, e.pos, ts, afterDot);
        FailureHasNoToken(s, e, ts[0], afterDot);
      }
    }
  }

  lemma TilingsAfterToken(s: string, i: nat, t: Token, afterDot: bool)
    requires ScannedAt(s, i, t, afterDot)
    ensures forall ts :: Tiles(s, i, ts, afterDot) ==>
      ts != [] && ts == [t] + ts[1..] && Tiles(s, i + |t.lexeme.text|, ts[1..], ModeAfter(afterDot, t.lexeme))
  {
    forall ts: seq<Token> | Tiles(s, i, ts, afterDot)
      ensures ts != [] && ts == [t] + ts[1..] && Tiles(s, i + |t.lexeme.text|, ts[1..], ModeAfter(afterDot, t.lexeme))
    {
      TokenStart(s, i, t, afterDot);
      TilingFirst(s, i, ts, afterDot);
      TokenAtUnique(s, i, ts[0], t, afterDot);
    }
  }

  /** A text has at most one tiling. */
  lemma TilingUnique(s: string, i: nat, ts1: seq<Token>, ts2: seq<Token>, afterDot: bool)
    requires Tiles(s, i, ts1, afterDot) && Tiles(s, i, ts2, afterDot)
    ensures ts1 == ts2
  {
    assert LexFrom(s, i, afterDot) == Ok(ts1);
  }

  // ---------------------------------------------------------------------
  // Lexing text written out with one space after each lexeme
  // ---------------------------------------------------------------------

  /** The lexemes of a token sequence, in order. */
  function Lexemes(ts: seq<Token>): (r: seq<Lexeme>)
    ensures |r| == |ts|
    ensures forall k :: 0 <= k < |ts| ==> r[k] == ts[k].lexeme
    decreases |ts|
  {
    if ts == [] then [] else [ts[0].lexeme] + Lexemes(ts[1..])
  }

  /** Every token of a tiling is a well-formed, maximal token at its own position. */
  lemma {:induction false} TokensOfTiles(s: string, i: nat, ts: seq<Token>, afterDot: bool)
    requires Tiles(s, i, ts, afterDot)
    ensures forall k :: 0 <= k < |ts| ==> i <= ts[k].pos < |s| && Scanned(s, ts[k].pos, ts[k])
    decreases |ts|
  {
    if ts != [] {
      var t := ts[0];
      assert IsPrefixAt(t.lexeme.text, s, t.pos);
      assert ScannedAt(s, t.pos, t, afterDot);
      TokensOfTiles(s, t.pos + |t.lexeme.text|, ts[1..], ModeAfter(afterDot, t.lexeme));
      forall k | 1 <= k < |ts| ensures ts[k] == ts[1..][k - 1] { }
    }
  }

  /** Each lexeme's text followed by one space. */
  function Spaced(ls: seq<Lexeme>): string
    decreases |ls|
  {
    if ls == [] then "" else ls[0].text + " " + Spaced(ls[1..])
  }

  /** Every lexeme is well formed and none is a comment. */
  predicate Plain(ls: seq<Lexeme>) {
    forall lx :: lx in ls ==> WellFormed(lx) && lx.kind != Comment
  }

  /** No builtin name follows a `.`, when lexing starts in mode `afterDot`. */
  predicate DotSafe(afterDot: bool, ls: seq<Lexeme>)
    decreases |ls|
  {
    ls != [] ==> (afterDot ==> ls[0].kind != Builtin) && DotSafe(ModeAfter(afterDot, ls[0]), ls[1..])
  }

  /** Lexemes the lexer can produce from a whole text and the parser keeps. */
  predicate Printable(ls: seq<Lexeme>) {
    Plain(ls) && DotSafe(false, ls)
  }

  lemma LexemesCons(t: Token, rest: seq<Token>)
    ensures Lexemes([t] + rest) == [t.lexeme] + Lexemes(rest)
  {
    assert ([t] + rest)[1..] == rest;
  }

  /** The tokens of `Spaced(ls)` when that text starts at index `i`. */
  function SpacedTokens(i: nat, ls: seq<Lexeme>): seq<Token>
    decreases |ls|
  {
    if ls == [] then [] else [Token(ls[0], i)] + SpacedTokens(i + |ls[0].text| + 1, ls[1..])
  }

  lemma {:induction false} SpacedTokensLexemes(i: nat, ls: seq<Lexeme>)
    ensures Lexemes(SpacedTokens(i, ls)) == ls
    decreases |ls|
  {
    if ls != [] {
      var rest := SpacedTokens(i + |ls[0].text| + 1, ls[1..]);
      SpacedTokensLexemes(i + |ls[0].text| + 1, ls[1..]);
      LexemesCons(Token(ls[0], i), rest);
      assert [ls[0]] + ls[1..] == ls;
    }
  }

  lemma SpacedSplit(s: string, i: nat, ls: seq<Lexeme>)
    requires i <= |s| && s[i..] == Spaced(ls) && ls != []
    ensures i + |ls[0].text| < |s|
    ensures s[i..i + |ls[0].text|] == ls[0].text
    ensures s[i + |ls[0].text|] == ' '
    ensures s[i + |ls[0].text| + 1..] == Spaced(ls[1..])
  {
    var t := ls[0].text;
    var rest := Spaced(ls[1..]);
    var u := s[i..];
    assert u == t + " " + rest;
    forall k | 0 <= k < |t| ensures s[i + k] == t[k] {
      assert u[k] == s[i + k];
    }
    assert u[|t|] == s[i + |t|];
    forall k | 0 <= k < |rest| ensures s[i + |t| + 1 + k] == rest[k] {
      assert u[|t| + 1 + k] == s[i + |t| + 1 + k];
    }
  }

  lemma PrintableFirst(lx: Lexeme)
    requires WellFormed(lx) && lx.kind != Comment
    ensures |lx.text| > 0
    ensures lx.kind == Builtin ==> HasBuiltinShape(lx.text)
  {
    if lx.kind == Builtin {
      BuiltinNamesShape();
    }
  }

  /** No builtin name occurs where an identifier is followed by whitespace. */
  lemma NoBuiltinAtIdent(s: string, i: nat, lx: Lexeme, n: string)
    requires lx.kind == Ident && WellFormed(lx)
    requires i + |lx.text| < |s| && s[i..i + |lx.text|] == lx.text && IsSpace(s[i + |lx.text|])
    requires HasBuiltinShape(n)
    ensures !IsPrefixAt(n, s, i)
  {
    var t := lx.text;
    var j := if |t| >= 3 then 2 else |t|;
    assert j < |n| && s[i + j] != n[j];
    assert i + |n| <= |s| ==> s[i..i + |n|][j] == s[i + j];
  }

  /** No longer builtin name occurs where a builtin name is followed by whitespace. */
  lemma NoLongerBuiltin(s: string, i: nat, lx: Lexeme, n: string)
    requires lx.kind == Builtin && HasBuiltinShape(lx.text)
    requires i + |lx.text| < |s| && s[i..i + |lx.text|] == lx.text && IsSpace(s[i + |lx.text|])
    requires HasBuiltinShape(n) && IsPrefixAt(n, s, i)
    ensures |n| <= |lx.text|
  {
  }

  /** A printable lexeme followed by whitespace is exactly the token scanned there. */
  lemma LexemeScannedAt(s: string, i: nat, lx: Lexeme, afterDot: bool)
    requires WellFormed(lx) && lx.kind != Comment && (afterDot ==> lx.kind != Builtin)
    requires i + |lx.text| < |s| && s[i..i + |lx.text|] == lx.text && IsSpace(s[i + |lx.text|])
    ensures ScannedAt(s, i, Token(lx, i), afterDot)
  {
    PrintableFirst(lx);
    BuiltinNamesShape();
    if lx.kind == Ident {
      forall n | n in BuiltinNames ensures !IsPrefixAt(n, s, i) {
        NoBuiltinAtIdent(s, i, lx, n);
      }
    } else if lx.kind == Builtin {
      forall n | n in BuiltinNames && IsPrefixAt(n, s, i) ensures |n| <= |lx.text| {
        NoLongerBuiltin(s, i, lx, n);
      }
    }
  }

  /** A printable lexeme and a space in front of a tiling extend it by one token. */
  lemma SpacedTilesStep(s: string, t: Token, rest: seq<Token>, afterDot: bool)
    requires WellFormed(t.lexeme) && t.lexeme.kind != Comment && (afterDot ==> t.lexeme.kind != Builtin)
    requires t.pos + |t.lexeme.text| < |s| && s[t.pos..t.pos + |t.lexeme.text|] == t.lexeme.text
    requires IsSpace(s[t.pos + |t.lexeme.text|])
    requires Tiles(s, t.pos + |t.lexeme.text| + 1, rest, ModeAfter(afterDot, t.lexeme))
    ensures Tiles(s, t.pos, [t] + rest, afterDot)
  {
    LexemeScannedAt(s, t.pos, t.lexeme, afterDot);
    TilesConsSpace(s, t, rest, afterDot);
  }

  lemma TilesConsSpace(s: string, t: Token, rest: seq<Token>, afterDot: bool)
    requires ScannedAt(s, t.pos, t, afterDot)
    requires t.pos + |t.lexeme.text| < |s| && IsSpace(s[t.pos + |t.lexeme.text|])
    requires Tiles(s, t.pos + |t.lexeme.text| + 1, rest, ModeAfter(afterDot, t.lexeme))
    ensures Tiles(s, t.pos, [t] + rest, afterDot)
  {
    TilesSkipSpace(s, t.pos + |t.lexeme.text|, rest, ModeAfter(afterDot, t.lexeme));
    TilesCons(s, t, rest, afterDot);
  }

  /** `s[i..]` holds the lexemes `ls`, each followed by one space. */
  predicate SpacedAt(s: string, i: nat, ls: seq<Lexeme>)
    decreases |ls|
  {
    if ls == [] then i == |s|
    else
      var e := i + |ls[0].text|;
      && e < |s| && s[i..e] == ls[0].text && s[e] == ' '
      && SpacedAt(s, e + 1, ls[1..])
  }

  lemma {:induction false} SpacedIsSpacedAt(s: string, i: nat, ls: seq<Lexeme>)
    requires i <= |s| && s[i..] == Spaced(ls)
    ensures SpacedAt(s, i, ls)
    decreases |ls|
  {
    if ls == [] {
      assert |s[i..]| == 0;
    } else {
      SpacedSplit(s, i, ls);
      SpacedIsSpacedAt(s, i + |ls[0].text| + 1, ls[1..]);
    }
  }

  lemma PlainTail(ls: seq<Lexeme>)
    requires Plain(ls) && ls != []
    ensures WellFormed(ls[0]) && ls[0].kind != Comment && Plain(ls[1..])
  {
    assert ls[0] in ls;
    forall m | m in ls[1..] ensures m in ls { }
  }

  /** One spaced lexeme in front of the tokens of the spaced text after it. */
  lemma SpacedTokensStep(s: string, i: nat, ls: seq<Lexeme>, afterDot: bool)
    requires ls != []
    requires WellFormed(ls[0]) && ls[0].kind != Comment && (afterDot ==> ls[0].kind != Builtin)
    requires i + |ls[0].text| < |s| && s[i..i + |ls[0].text|] == ls[0].text && s[i + |ls[0].text|] == ' '
    requires Tiles(s, i + |ls[0].text| + 1, SpacedTokens(i + |ls[0].text| + 1, ls[1..]), ModeAfter(afterDot, ls[0]))
    ensures Tiles(s, i, SpacedTokens(i, ls), afterDot)
  {
    var rest := SpacedTokens(i + |ls[0].text| + 1, ls[1..]);
    assert SpacedTokens(i, ls) == [Token(ls[0], i)] + rest;
    SpacedTilesStep(s, Token(ls[0], i), rest, afterDot);
  }

  /** What the first lexeme of a spaced, plain, dot-safe sequence contributes, and what is left. */
  lemma SpacedHead(s: string, i: nat, ls: seq<Lexeme>, afterDot: bool)
    requires SpacedAt(s, i, ls) && Plain(ls) && DotSafe(afterDot, ls) && ls != []
    ensures WellFormed(ls[0]) && ls[0].kind != Comment && (afterDot ==> ls[0].kind != Builtin)
    ensures i + |ls[0].text| < |s| && s[i..i + |ls[0].text|] == ls[0].text && s[i + |ls[0].text|] == ' '
    ensures SpacedAt(s, i + |ls[0].text| + 1, ls[1..]) && Plain(ls[1..]) && DotSafe(ModeAfter(afterDot, ls[0]), ls[1..])
  {
    PlainTail(ls);
  }

  lemma {:induction false} SpacedTiles(s: string, i: nat, ls: seq<Lexeme>, afterDot: bool)
    requires SpacedAt(s, i, ls) && Plain(ls) && DotSafe(afterDot, ls)
    ensures Tiles(s, i, SpacedTokens(i, ls), afterDot)
    decreases |ls|
  {
    if ls == [] {
      assert SpacedTokens(i, ls) == [];
    } else {
      SpacedHead(s, i, ls, afterDot);
      SpacedTiles(s, i + |ls[0].text| + 1, ls[1..], ModeAfter(afterDot, ls[0]));
      SpacedTokensStep(s, i, ls, afterDot);
    }
  }

  /** Printable lexemes written out with `Spaced` lex back to themselves. */
  lemma LexSpaced(ls: seq<Lexeme>)
    requires Printable(ls)
    ensures Lex(Spaced(ls)).Ok? && Lexemes(Lex(Spaced(ls)).value) == ls
  {
    var s := Spaced(ls);
    assert s[0..] == s;
    SpacedIsSpacedAt(s, 0, ls);
    SpacedTiles(s, 0, ls, false);
    SpacedTokensLexemes(0, ls);
  }
}

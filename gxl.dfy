/**
  A GXL document from text to tree: the text is lexed, comments are dropped
  (they are extras that may appear between any two tokens), and the lexemes
  that remain are parsed as a `source_file`.

  The theorems at the end connect the two directions at the level of text:
  a tree that comes out of the parser, written back out with one space after
  each lexeme, is parsed again to the very same tree.
*/
module Gxl {
  import opened Results
  import opened Lexer
  import opened Syntax
  import opened Parser
  import opened RoundTrip

  datatype SyntaxError =
    | LexicalError(lexError: LexError)
      /** `pos` is the index in the text of the token where parsing stopped, or the text's length at its end. */
    | UnexpectedToken(pos: nat, expected: seq<string>)

  /** The tokens the parser sees: comments are dropped wherever they occur. */
  function Significant(ts: seq<Token>): (r: seq<Token>)
    ensures forall t :: t in r ==> t in ts && t.lexeme.kind != Comment
    ensures forall t :: t in ts && t.lexeme.kind != Comment ==> t in r
    decreases |ts|
  {
    if ts == [] then []
    else if ts[0].lexeme.kind == Comment then Significant(ts[1..])
    else [ts[0]] + Significant(ts[1..])
  }

  lemma TokensInText(s: string, tokens: seq<Token>)
    requires Tiles(s, 0, tokens, false)
    ensures forall t :: t in tokens ==> t.pos < |s| && Scanned(s, t.pos, t)
  {
    TokensOfTiles(s, 0, tokens, false);
  }

  /** Dropping comments from a tiling leaves no builtin name right after a `.`. */
  lemma {:induction false} SignificantDotSafe(s: string, i: nat, ts: seq<Token>, afterDot: bool)
    requires Tiles(s, i, ts, afterDot)
    ensures DotSafe(afterDot, Lexemes(Significant(ts)))
    decreases |ts|
  {
    if ts != [] {
      var t := ts[0];
      SignificantDotSafe(s, t.pos + |t.lexeme.text|, ts[1..], ModeAfter(afterDot, t.lexeme));
      if t.lexeme.kind != Comment {
        assert Significant(ts) == [t] + Significant(ts[1..]);
        LexemesCons(t, Significant(ts[1..]));
      }
    }
  }

  /** Where in the text a parse error lies, from the number of significant tokens still unread. */
  function ErrorPos(s: string, sig: seq<Token>, remaining: nat): (p: nat)
    requires forall t :: t in sig ==> t.pos < |s|
    ensures p <= |s|
  {
    if 0 < remaining <= |sig| then sig[|sig| - remaining].pos else |s|
  }

  /** `source_file`, from text. */
  function ParseDocument(s: string): (r: Result<SourceFile, SyntaxError>)
    ensures Lex(s).Err? ==> r == Err(LexicalError(Lex(s).error))
    ensures r.Ok? ==> Lex(s).Ok? && WellFormedSourceFile(r.value)
    ensures r.Ok? ==> PrintSourceFile(r.value) == Lexemes(Significant(Lex(s).value))
    ensures r.Err? && r.error.UnexpectedToken? ==> r.error.pos <= |s|
  {
    match Lex(s)
    case Err(e) => Err(LexicalError(e))
    case Ok(tokens) =>
      TokensInText(s, tokens);
      var sig := Significant(tokens);
      match ParseSourceFile(Lexemes(sig))
      case Ok(sf) => Ok(sf)
      case Err(e) => Err(UnexpectedToken(ErrorPos(s, sig, e.remaining), e.expected))
  }

  /**
    Completeness on text: whenever the text splits into tokens whose
    significant lexemes are those of a well-formed tree, the text parses to
    that tree, whatever its comments and whitespace.
  */
  lemma ParseDocumentComplete(s: string, ts: seq<Token>, sf: SourceFile)
    requires Tiles(s, 0, ts, false) && WellFormedSourceFile(sf)
    requires Lexemes(Significant(ts)) == PrintSourceFile(sf)
    ensures ParseDocument(s) == Ok(sf)
  {
    assert Lex(s) == Ok(ts);
    RoundTripSourceFile(sf);
  }

  // ---------------------------------------------------------------------
  // Writing a tree back out as text
  // ---------------------------------------------------------------------

  /** A tree's lexemes, each followed by one space. */
  function Render(sf: SourceFile): string {
    Spaced(PrintSourceFile(sf))
  }

  lemma {:induction false} SignificantKeepsAll(ts: seq<Token>)
    requires forall k :: 0 <= k < |ts| ==> ts[k].lexeme.kind != Comment
    ensures Significant(ts) == ts
    decreases |ts|
  {
    if ts != [] {
      SignificantKeepsAll(ts[1..]);
    }
  }

  /** A well-formed tree of printable lexemes is parsed back from its rendering. */
  lemma RenderParses(sf: SourceFile)
    requires WellFormedSourceFile(sf) && Printable(PrintSourceFile(sf))
    ensures ParseDocument(Render(sf)) == Ok(sf)
  {
    var ls := PrintSourceFile(sf);
    LexSpaced(ls);
    var tokens := Lex(Render(sf)).value;
    forall k | 0 <= k < |tokens| ensures tokens[k].lexeme.kind != Comment {
      assert Lexemes(tokens)[k] in ls;
    }
    SignificantKeepsAll(tokens);
    RoundTripSourceFile(sf);
  }

  /** Everything the parser builds consists of printable lexemes. */
  lemma ParsedIsPrintable(s: string)
    requires ParseDocument(s).Ok?
    ensures Printable(PrintSourceFile(ParseDocument(s).value))
  {
    var tokens := Lex(s).value;
    TokensInText(s, tokens);
    var sig := Significant(tokens);
    forall lx | lx in Lexemes(sig) ensures WellFormed(lx) && lx.kind != Comment {
      var k :| 0 <= k < |sig| && Lexemes(sig)[k] == lx;
      assert sig[k] in sig;
    }
    SignificantDotSafe(s, 0, tokens, false);
  }

  /**
    Parse, render, parse again: the second parse gives the same tree. The
    rendering drops comments and normalises whitespace, and nothing else.
  */
  lemma ReparseRendered(s: string)
    requires ParseDocument(s).Ok?
    ensures ParseDocument(Render(ParseDocument(s).value)) == ParseDocument(s)
  {
    ParsedIsPrintable(s);
    RenderParses(ParseDocument(s).value);
  }
}

/**
  Properties of the terminals as the lexer produces them: comments, strings
  and numbers, each stated about the tokens the lexer returns and, for
  numbers, checked against the plain reading of the pattern `\d+(\.\d+)?`.
*/
module LexFacts {
  import opened Results
  import opened Lexer

  // ---------------------------------------------------------------------
  // Comments
  // ---------------------------------------------------------------------

  /** A comment token starts with `#` but not with `#[`, holds no newline and runs to the end of its line. */
  lemma CommentToken(s: string, t: Token)
    requires t.pos < |s| && Scanned(s, t.pos, t) && t.lexeme.kind == Comment
    ensures s[t.pos] == '#' && !IsPrefixAt("#[", s, t.pos)
    ensures forall k :: 0 <= k < |t.lexeme.text| ==> t.lexeme.text[k] != '\n'
    ensures t.pos + |t.lexeme.text| == |s| || (t.pos + |t.lexeme.text| < |s| && s[t.pos + |t.lexeme.text|] == '\n')
  {
    var text := t.lexeme.text;
    var end := t.pos + |text|;
    assert s[t.pos..end] == text;
    assert s[t.pos] == text[0];
    if |text| >= 2 {
      assert s[t.pos + 1] == text[1];
    }
    assert t.pos + 1 < |s| ==> s[t.pos + 1] != '[';
    assert t.pos + 2 <= |s| ==> s[t.pos..t.pos + 2][1] == s[t.pos + 1];
  }

  /** Every comment in a lexed text has the shape of `CommentToken`; so `#[` never starts a comment. */
  lemma CommentsOfLex(s: string)
    requires Lex(s).Ok?
    ensures forall t :: t in Lex(s).value && t.lexeme.kind == Comment ==>
      && t.pos < |s| && s[t.pos] == '#' && !IsPrefixAt("#[", s, t.pos)
      && '\n' !in t.lexeme.text
      && (t.pos + |t.lexeme.text| == |s| || (t.pos + |t.lexeme.text| < |s| && s[t.pos + |t.lexeme.text|] == '\n'))
  {
    var ts := Lex(s).value;
    TokensOfTiles(s, 0, ts, false);
    forall t | t in ts && t.lexeme.kind == Comment
      ensures && t.pos < |s| && s[t.pos] == '#' && !IsPrefixAt("#[", s, t.pos)
              && '\n' !in t.lexeme.text
              && (t.pos + |t.lexeme.text| == |s| || (t.pos + |t.lexeme.text| < |s| && s[t.pos + |t.lexeme.text|] == '\n'))
    {
      var k :| 0 <= k < |ts| && ts[k] == t;
      CommentToken(s, t);
    }
  }

  /** Wherever `#[` occurs at a token's start, that token is the annotation opener. */
  lemma AnnotationOpenerWins(s: string, t: Token)
    requires t.pos < |s| && Scanned(s, t.pos, t) && IsPrefixAt("#[", s, t.pos)
    ensures t.lexeme == Lexeme(AnnotOpen, "#[")
  {
    if t.lexeme.kind == Comment {
      CommentToken(s, t);
    }
    KindFitsToken(s, t.pos, t, ScannedAt(s, t.pos, t, true));
    AnnotOpenAt(s, t.pos);
    KindFitsUnique(s, t.pos, t.lexeme.kind, AnnotOpen);
  }

  // ---------------------------------------------------------------------
  // Strings
  // ---------------------------------------------------------------------

  /** After an opening quote, `\"` is an escaped quote: the string does not end there. */
  lemma EscapedQuoteDoesNotClose(s: string, i: nat)
    requires i + 2 < |s| && s[i] == '"' && s[i + 1] == '\\' && s[i + 2] == '"'
    ensures LexString(s, i).Ok? ==> |LexString(s, i).value.lexeme.text| > 3
  {
    StringTextAt(s, i, i + 3);
    StringTextAt(s, i, i + 2);
    assert s[i + 1..i + 2] == "\\";
    assert !IsStringText(s[i..i + 3]);
    assert !IsStringText(s[i..i + 2]);
    match LexString(s, i)
    case Err(_) =>
    case Ok(t) =>
      assert s[i..i + |t.lexeme.text|] == t.lexeme.text;
  }

  /** An opening quote with no quote after it: an error, and no string token starts there. */
  lemma UnclosedString(s: string, i: nat)
    requires i < |s| && s[i] == '"'
    requires forall q :: i < q < |s| ==> s[q] != '"'
    ensures LexString(s, i) == Err(UnterminatedString(i))
    ensures forall t :: Scanned(s, i, t) ==> t.lexeme.kind != Str
  {
    forall t | Scanned(s, i, t) ensures t.lexeme.kind != Str {
      var text := t.lexeme.text;
      assert s[i..i + |text|] == text;
      assert |text| >= 2 ==> s[i + |text| - 1] == text[|text| - 1];
    }
  }

  // ---------------------------------------------------------------------
  // Numbers
  // ---------------------------------------------------------------------

  predicate AllDigits(t: string) {
    |t| >= 1 && forall k :: 0 <= k < |t| ==> IsDigit(t[k])
  }

  /** `\d+(\.\d+)?` read directly: digits, or digits, a dot and digits. */
  predicate MatchesNumberPattern(t: string) {
    || AllDigits(t)
    || exists d :: 0 < d < |t| && t[d] == '.' && AllDigits(t[..d]) && AllDigits(t[d + 1..])
  }

  lemma NumberTextIsPattern(t: string)
    ensures IsNumberText(t) <==> MatchesNumberPattern(t)
  {
    if IsNumberText(t) && !AllDigits(t) {
      var d :| 0 <= d < |t| && t[d] == '.';
      assert 0 < d < |t| - 1;
      var frac := t[d + 1..];
      forall k | 0 <= k < |frac| ensures IsDigit(frac[k]) {
        assert frac[k] == t[d + 1 + k];
      }
      assert AllDigits(t[..d]) && AllDigits(frac);
    }
    if MatchesNumberPattern(t) && !AllDigits(t) {
      var d :| 0 < d < |t| && t[d] == '.' && AllDigits(t[..d]) && AllDigits(t[d + 1..]);
      forall k | 0 <= k < |t| && k != d ensures IsDigit(t[k]) {
        if k < d {
          assert t[..d][k] == t[k];
        } else {
          assert t[d + 1..][k - d - 1] == t[k];
        }
      }
      assert t[0] == t[..d][0];
      assert t[|t| - 1] == t[d + 1..][|t| - d - 2];
    }
  }

  /** Digits, then a dot that no digit follows: the number ends before the dot. */
  lemma NumberStopsBeforeBareDot(s: string, i: nat, d: nat)
    requires i < d < |s| && s[d] == '.' && (forall k :: i <= k < d ==> IsDigit(s[k]))
    requires !(d + 1 < |s| && IsDigit(s[d + 1]))
    ensures LexNumber(s, i).lexeme.text == s[i..d]
  {
    DigitsEnd(s, i, d);
  }

  /** Digits, a dot and more digits: the number takes the dot and the fraction. */
  lemma NumberTakesFraction(s: string, i: nat, d: nat, e: nat)
    requires i < d && d + 1 < e <= |s| && s[d] == '.'
    requires forall k :: i <= k < e && k != d ==> IsDigit(s[k])
    requires e == |s| || !IsDigit(s[e])
    ensures LexNumber(s, i).lexeme.text == s[i..e]
  {
    DigitsEnd(s, i, d);
    DigitsEnd(s, d + 1, e);
  }

  /** The digit run from `i` ends at the first non-digit `d`. */
  lemma DigitsEnd(s: string, i: nat, d: nat)
    requires i <= d <= |s| && (forall k :: i <= k < d ==> IsDigit(s[k]))
    requires d == |s| || !IsDigit(s[d])
    ensures ScanDigits(s, i) == d
  {
  }
}

/** What the scanner of modules/lexer.ts promises about the tokens it produces, stated over
    the functions `Scan`, `ScanAt` and `Lex` that its methods are proved to follow. */
module LexerFacts {
  import opened Tokens
  import opened Errors
  import opened CharClass
  import opened Lexer

  predicate AllDigits(s: string) {
    |s| > 0 && forall i | 0 <= i < |s| :: IsDigit(s[i])
  }

  /** Digits, a point, digits. */
  predicate IsFloatText(s: string) {
    exists d | 0 < d < |s| :: s[d] == '.' && AllDigits(s[..d]) && AllDigits(s[d + 1..])
  }

  /** Once the cursor is past the end it sees the sentinel, and the scan yields EOF and leaves
      the cursor past the end, so every later scan yields EOF again. */
  lemma EofIsSticky(src: string, p: nat)
    requires |src| <= p
    ensures At(src, p) == '\0'
    ensures Scan(src, p) == Ok(Scanned(Token("\0", EOF), p + 1))
    ensures |src| <= p + 1
  {
  }

  /** A leading space, tab or carriage return does not change the token that is scanned. */
  lemma BlankIsSkipped(src: string, p: nat)
    requires p < |src| && IsBlank(src[p])
    ensures Scan(src, p) == Scan(src, p + 1)
  {
  }

  /** A newline is a token of its own. */
  lemma NewlineIsToken(src: string, p: nat)
    requires p < |src| && src[p] == '\n'
    ensures Scan(src, p) == Ok(Scanned(Token("\n", NEWLINE), p + 1))
  {
  }

  /** A comment runs to the newline that ends it, which is the next token; a comment that runs
      to the end of the input is followed by EOF. */
  lemma CommentIsSkipped(src: string, p: nat)
    requires p < |src| && src[p] == '#'
    ensures var e := CommentEnd(src, p);
      && (e < |src| ==> Scan(src, p) == Ok(Scanned(Token("\n", NEWLINE), e + 1)))
      && (|src| <= e ==> Scan(src, p) == Ok(Scanned(Token("\0", EOF), e + 1)))
  {
  }

  /** The two-character operators take both characters; `=`, `>` and `<` alone are tokens
      of their own; `!` alone is not a token. */
  lemma Operators(src: string, q: nat)
    ensures At(src, q) == '=' && At(src, q + 1) == '=' ==> ScanAt(src, q) == Ok(Scanned(Token("==", EQEQ), q + 2))
    ensures At(src, q) == '!' && At(src, q + 1) == '=' ==> ScanAt(src, q) == Ok(Scanned(Token("!=", NOTEQ), q + 2))
    ensures At(src, q) == '>' && At(src, q + 1) == '=' ==> ScanAt(src, q) == Ok(Scanned(Token(">=", GTEQ), q + 2))
    ensures At(src, q) == '<' && At(src, q + 1) == '=' ==> ScanAt(src, q) == Ok(Scanned(Token("<=", LTEQ), q + 2))
    ensures At(src, q) == '=' && At(src, q + 1) != '=' ==> ScanAt(src, q) == Ok(Scanned(Token("=", EQ), q + 1))
    ensures At(src, q) == '>' && At(src, q + 1) != '=' ==> ScanAt(src, q) == Ok(Scanned(Token(">", GT), q + 1))
    ensures At(src, q) == '<' && At(src, q + 1) != '=' ==> ScanAt(src, q) == Ok(Scanned(Token("<", LT), q + 1))
    ensures At(src, q) == '!' && At(src, q + 1) != '=' ==> ScanAt(src, q) == Fail(UnknownToken('!'))
  {
  }

  /** A digit starts a number. */
  lemma DigitStartsNumber(src: string, q: nat)
    requires q < |src| && IsDigit(src[q])
    ensures ScanAt(src, q) == NumberLit(src, q)
  {
  }

  /** A run of digits that is not followed by a point is an integer whose lexeme is exactly the
      maximal run. */
  lemma IntegerToken(src: string, q: nat)
    requires q < |src| && IsDigit(src[q]) && At(src, DigitRunEnd(src, q) + 1) != '.'
    ensures NumberLit(src, q) == Ok(Scanned(Token(src[q..DigitRunEnd(src, q) + 1], INT_TYPE), DigitRunEnd(src, q) + 1))
    ensures AllDigits(src[q..DigitRunEnd(src, q) + 1])
    ensures !IsDigit(At(src, DigitRunEnd(src, q) + 1))
  {
    DigitSlice(src, q, DigitRunEnd(src, q));
  }

  /** A slice whose every position holds a digit is digits. */
  lemma DigitSlice(src: string, q: nat, e: nat)
    requires q <= e < |src| && IsDigit(src[q])
    requires forall m | q < m <= e :: m < |src| && IsDigit(src[m])
    ensures AllDigits(src[q..e + 1])
  {
    var w := src[q..e + 1];
    forall i | 0 <= i < |w|
      ensures IsDigit(w[i])
    {
      if i > 0 {
        var m := q + i;
        assert q < m <= e;
        assert w[i] == src[m];
      }
    }
  }

  /** Digits, a point and digits make a float whose lexeme is exactly that slice, both runs
      maximal. */
  lemma FloatToken(src: string, q: nat)
    requires q < |src| && IsDigit(src[q])
    requires At(src, DigitRunEnd(src, q) + 1) == '.' && IsDigit(At(src, DigitRunEnd(src, q) + 2))
    ensures var f := DigitRunEnd(src, DigitRunEnd(src, q) + 1);
      && NumberLit(src, q) == Ok(Scanned(Token(src[q..f + 1], FLOAT_TYPE), f + 1))
      && IsFloatText(src[q..f + 1]) && !IsDigit(At(src, f + 1))
  {
    var e := DigitRunEnd(src, q);
    var f := DigitRunEnd(src, e + 1);
    FloatShape(src, q, e, f);
  }

  lemma FloatShape(src: string, q: nat, e: nat, f: nat)
    requires q <= e && e + 1 < f < |src| && src[e + 1] == '.'
    requires forall m | q <= m <= e :: IsDigit(src[m])
    requires forall m | e + 1 < m <= f :: IsDigit(src[m])
    ensures IsFloatText(src[q..f + 1])
  {
    var w := src[q..f + 1];
    var d := e + 1 - q;
    assert w[..d] == src[q..e + 1];
    assert w[d + 1..] == src[e + 2..f + 1];
    assert w[d] == '.';
    assert AllDigits(w[..d]) && AllDigits(w[d + 1..]);
  }

  /** A point after the digits that is not followed by a digit fails the number. */
  lemma BadFloat(src: string, q: nat)
    requires q < |src| && IsDigit(src[q])
    requires At(src, DigitRunEnd(src, q) + 1) == '.' && !IsDigit(At(src, DigitRunEnd(src, q) + 2))
    ensures NumberLit(src, q) == Fail(InvalidFloat)
  {
    var e := DigitRunEnd(src, q);
    assert !IsDigit(At(src, e + 2));
  }

  /** A word is the maximal run of letters, digits and `_` that starts at a letter or `_`;
      its kind is the keyword lookup of exactly that lexeme. */
  lemma WordToken(src: string, q: nat)
    requires q < |src| && IsAlpha(src[q])
    ensures ScanAt(src, q) == WordLit(src, q)
    ensures var sc := WordLit(src, q).value; var w := sc.token.lexeme;
      && w == src[q..sc.next] && IsAlpha(w[0])
      && (forall i | 0 <= i < |w| :: IsWordChar(w[i]))
      && !IsWordChar(At(src, sc.next))
      && sc.token.kind == KeywordType(w)
  {
    DigitNotAlpha(src[q]);
  }

  /** A string token runs from its opening quote to the next quote, inclusive; without a
      closing quote the scan fails. */
  lemma StringToken(src: string, q: nat)
    requires q < |src| && src[q] == '"'
    ensures ScanAt(src, q) == StringLit(src, q)
    ensures var r := StringLit(src, q);
      && (r.Ok? ==> var w := r.value.token.lexeme;
            && r.value.token.kind == STR_TYPE && w == src[q..r.value.next]
            && 2 <= |w| && w[0] == '"' && w[|w| - 1] == '"'
            && forall i | 0 < i < |w| - 1 :: w[i] != '"')
      && (r.Fail? <==> forall m | q < m < |src| :: src[m] != '"')
      && (r.Fail? ==> r.error == UnterminatedString)
  {
  }

  /** A character literal is quote, character, quote, or the empty pair of quotes; anything
      else fails. */
  lemma CharToken(src: string, q: nat)
    requires q < |src| && src[q] == '\''
    ensures ScanAt(src, q) == CharLit(src, q)
    ensures var r := CharLit(src, q);
      && (r.Ok? ==> var w := r.value.token.lexeme;
            && r.value.token.kind == CHAR_TYPE && w == src[q..r.value.next]
            && (|w| == 2 || |w| == 3) && w[0] == '\'' && w[|w| - 1] == '\'')
      && (r.Fail? <==> At(src, q + 1) != '\'' && At(src, q + 2) != '\'')
      && (r.Fail? ==> r.error == InvalidChar)
  {
  }

  /** The kind of a word is the entry of the table with exactly that key when its code is at
      least 100, and IDENT when that code is lower or no key matches. */
  lemma KeywordLookup(w: string)
    ensures forall k | Name(k) == w :: KeywordType(w) == (if Tokens.Code(k) >= 100 then k else IDENT)
    ensures (forall k :: Name(k) != w) ==> KeywordType(w) == IDENT
  {
    NamedInverse(w);
    forall k | Name(k) == w
      ensures KeywordType(w) == (if Tokens.Code(k) >= 100 then k else IDENT)
    {
      NamedRoundTrip(k);
    }
  }

  /** Every key in the table with a code of 100 or more is a keyword: the statement words, but
      also the operator names, so the word `PLUS` scans as the `+` operator. Keys are
      case-sensitive. */
  lemma KeywordExamples()
    ensures KeywordType("PRINT") == PRINT
    ensures KeywordType("PLUS") == PLUS
    ensures KeywordType("IDENT") == IDENT
    ensures KeywordType("print") == IDENT
  {
  }
}

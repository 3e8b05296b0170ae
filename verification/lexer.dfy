/** The scanner (modules/lexer.ts). The pure functions below say which token the scanner
    produces from a cursor position; the class `Lexer` is the scanner itself, a cursor that
    `NextToken` advances character by character, and each of its methods is proved to do
    what the functions say. */
module Lexer {
  import opened Tokens
  import opened Errors
  import opened CharClass

  /** The character under a cursor: the NUL sentinel once the cursor is past the end. */
  function At(src: string, p: nat): char {
    if p < |src| then src[p] else '\0'
  }

  predicate IsBlank(c: char) {
    c == ' ' || c == '\t' || c == '\r'
  }

  predicate IsWordChar(c: char) {
    IsAlpha(c) || IsDigit(c)
  }

  /** The position of the first non-blank character at or after `p` (skipWhitespace). */
  function SkipBlanks(src: string, p: nat): (q: nat)
    ensures p <= q && !IsBlank(At(src, q))
    ensures forall m | p <= m < q :: m < |src| && IsBlank(src[m])
    decreases |src| - p
  {
    if IsBlank(At(src, p)) then SkipBlanks(src, p + 1) else p
  }

  /** The end of a comment that starts at `p`: the next newline, or the end of the input. */
  function CommentEnd(src: string, p: nat): (q: nat)
    ensures p <= q && (q >= |src| || src[q] == '\n')
    ensures forall m | p <= m < q :: m < |src| && At(src, m) != '\n'
    decreases |src| - p
  {
    if p >= |src| || src[p] == '\n' then p else CommentEnd(src, p + 1)
  }

  /** skipComment: a `#` comment runs up to, not including, the newline that ends it. */
  function AfterComment(src: string, p: nat): (q: nat)
    ensures p <= q
    ensures At(src, p) != '#' ==> q == p
  {
    if At(src, p) == '#' then CommentEnd(src, p) else p
  }

  /** Where the next token starts: blanks first, then at most one comment. */
  function TokenStart(src: string, p: nat): (q: nat)
    ensures p <= q
  {
    AfterComment(src, SkipBlanks(src, p))
  }

  /** The last position of the run of digits that follows `p` (peek-driven, so `p` itself is
      not inspected). */
  function DigitRunEnd(src: string, p: nat): (e: nat)
    ensures p <= e && !IsDigit(At(src, e + 1))
    ensures forall m | p < m <= e :: m < |src| && IsDigit(src[m])
    ensures p < |src| ==> e < |src|
    decreases |src| - p
  {
    if IsDigit(At(src, p + 1)) then DigitRunEnd(src, p + 1) else p
  }

  /** The last position of the run of letters, digits and `_` that follows `p`. */
  function WordEnd(src: string, p: nat): (e: nat)
    ensures p <= e && !IsWordChar(At(src, e + 1))
    ensures forall m | p < m <= e :: m < |src| && IsWordChar(src[m])
    ensures p < |src| ==> e < |src|
    decreases |src| - p
  {
    if IsWordChar(At(src, p + 1)) then WordEnd(src, p + 1) else p
  }

  /** The position of the closing `"` at or after `p`, if the input has one. */
  function StringEnd(src: string, p: nat): (r: Option<nat>)
    ensures r.Some? ==> p <= r.value < |src| && src[r.value] == '"'
    ensures r.Some? ==> forall m | p <= m < r.value :: src[m] != '"'
    ensures r.None? ==> forall m | p <= m < |src| :: src[m] != '"'
    decreases |src| - p
  {
    if p >= |src| then None
    else if src[p] == '"' then Some(p)
    else StringEnd(src, p + 1)
  }

  /** The characters that form a token on their own. */
  function Single(c: char): Option<TokenKind> {
    match c
    case '\n' => Some(NEWLINE)
    case ',' => Some(COMMA)
    case ':' => Some(COLON)
    case '(' => Some(PARLEFT)
    case ')' => Some(PARRIGHT)
    case '[' => Some(BRALEFT)
    case ']' => Some(BRARIGHT)
    case '+' => Some(PLUS)
    case '-' => Some(MINUS)
    case '*' => Some(ASTERISK)
    case '/' => Some(SLASH)
    case '^' => Some(CARET)
    case '%' => Some(PERCENT)
    case '&' => Some(AMPERSAND)
    case _ => None
  }

  /** keywordType: the kind whose key in the TokenType table is the word, when its code is at
      least 100; IDENT otherwise. Keys are unique, so the first entry the source's loop over the
      table meets is that one entry. */
  function KeywordType(w: string): TokenKind {
    match Named(w)
    case Some(k) => if Tokens.Code(k) >= 100 then k else IDENT
    case None => IDENT
  }

  /** A token with the cursor position just after it. */
  datatype Scanned = Scanned(token: Token, next: nat)

  /** A string literal opening at `q`: everything up to and including the closing quote. */
  function StringLit(src: string, q: nat): (r: Result<Scanned>)
    ensures r.Ok? ==> q < r.value.next <= |src|
  {
    match StringEnd(src, q + 1)
    case None => Fail(UnterminatedString)
    case Some(e) => Ok(Scanned(Token(src[q..e + 1], STR_TYPE), e + 1))
  }

  /** A character literal opening at `q`: either quote, character, quote, or two quotes. */
  function CharLit(src: string, q: nat): (r: Result<Scanned>)
    requires q < |src|
    ensures r.Ok? ==> q < r.value.next <= |src|
  {
    if At(src, q + 2) == '\'' then Ok(Scanned(Token(src[q..q + 3], CHAR_TYPE), q + 3))
    else if At(src, q + 1) != '\'' then Fail(InvalidChar)
    else Ok(Scanned(Token(src[q..q + 2], CHAR_TYPE), q + 2))
  }

  /** A number starting at `q`: digits, and for a float a point followed by more digits. */
  function NumberLit(src: string, q: nat): (r: Result<Scanned>)
    requires q < |src|
    ensures r.Ok? ==> q < r.value.next <= |src|
  {
    var e := DigitRunEnd(src, q);
    if At(src, e + 1) == '.' then
      if IsDigit(At(src, e + 2)) then
        var f := DigitRunEnd(src, e + 1);
        Ok(Scanned(Token(src[q..f + 1], FLOAT_TYPE), f + 1))
      else Fail(InvalidFloat)
    else Ok(Scanned(Token(src[q..e + 1], INT_TYPE), e + 1))
  }

  /** A word starting at `q`: a keyword or an identifier. */
  function WordLit(src: string, q: nat): (r: Result<Scanned>)
    requires q < |src|
    ensures r.Ok? ==> q < r.value.next <= |src|
  {
    var e := WordEnd(src, q);
    var w := src[q..e + 1];
    Ok(Scanned(Token(w, KeywordType(w)), e + 1))
  }

  /** The token whose first character is at `q`. */
  function ScanAt(src: string, q: nat): (r: Result<Scanned>)
    ensures r.Ok? ==> q < r.value.next
    ensures r.Ok? && r.value.token.kind != EOF ==> r.value.next <= |src|
  {
    var c := At(src, q);
    if c == '\0' then Ok(Scanned(Token([c], EOF), q + 1))
    else if Single(c).Some? then Ok(Scanned(Token([c], Single(c).value), q + 1))
    else if c == '=' then
      if At(src, q + 1) == '=' then Ok(Scanned(Token("==", EQEQ), q + 2))
      else Ok(Scanned(Token([c], EQ), q + 1))
    else if c == '!' && At(src, q + 1) == '=' then Ok(Scanned(Token("!=", NOTEQ), q + 2))
    else if c == '>' then
      if At(src, q + 1) == '=' then Ok(Scanned(Token(">=", GTEQ), q + 2))
      else Ok(Scanned(Token([c], GT), q + 1))
    else if c == '<' then
      if At(src, q + 1) == '=' then Ok(Scanned(Token("<=", LTEQ), q + 2))
      else Ok(Scanned(Token([c], LT), q + 1))
    else if c == '"' then StringLit(src, q)
    else if c == '\'' then CharLit(src, q)
    else if IsDigit(c) then NumberLit(src, q)
    else if IsAlpha(c) then WordLit(src, q)
    else Fail(UnknownToken(c))
  }

  /** nextToken: the token that starts at or after cursor `p`, with the cursor after it. */
  function Scan(src: string, p: nat): (r: Result<Scanned>)
    ensures r.Ok? ==> p < r.value.next
    ensures r.Ok? && r.value.token.kind != EOF ==> r.value.next <= |src|
  {
    ScanAt(src, TokenStart(src, p))
  }

  /** Everything the scanner yields from cursor `p` on, each token with the cursor after it:
      up to and including EOF, or up to the first failure, which is then recorded. */
  datatype Lexed = Lexed(items: seq<Scanned>, failure: Option<Error>)

  /** The cursor from which the `j`-th item was scanned. */
  function Before(p: nat, items: seq<Scanned>, j: nat): nat
    requires j <= |items|
  {
    if j == 0 then p else items[j - 1].next
  }

  function Lex(src: string, p: nat): (l: Lexed)
    requires p <= |src|
    ensures l.failure.None? ==> |l.items| > 0 && l.items[|l.items| - 1].token.kind == EOF
    ensures forall j | 0 <= j < |l.items| - 1 :: l.items[j].token.kind != EOF
    decreases |src| - p
  {
    match Scan(src, p)
    case Fail(e) => Lexed([], Some(e))
    case Ok(sc) =>
      if sc.token.kind == EOF then Lexed([sc], None)
      else
        var rest := Lex(src, sc.next);
        Lexed([sc] + rest.items, rest.failure)
  }

  /** One more scanned token that is not EOF moves from the tokens collected so far to the
      rest of the stream, which keeps the same outcome. */
  lemma LexCons(src: string, p: nat, sc: Scanned, items: seq<Scanned>)
    requires p <= |src| && Scan(src, p) == Ok(sc) && sc.token.kind != EOF
    ensures sc.next <= |src|
    ensures items + Lex(src, p).items == (items + [sc]) + Lex(src, sc.next).items
    ensures Lex(src, p).failure == Lex(src, sc.next).failure
  {
    assert Lex(src, p).items == [sc] + Lex(src, sc.next).items;
  }

  /** The stream ends where a scan fails or yields EOF. */
  lemma LexStops(src: string, p: nat)
    requires p <= |src|
    ensures Scan(src, p).Fail? ==> Lex(src, p) == Lexed([], Some(Scan(src, p).error))
    ensures Scan(src, p).Ok? && Scan(src, p).value.token.kind == EOF ==> Lex(src, p) == Lexed([Scan(src, p).value], None)
  {
  }

  /** The scanner: the source text, the cursor and the character under it. */
  class Lexer {
    const source: string
    var curPos: nat
    var curChar: char

    ghost predicate Valid()
      reads this
    {
      curChar == At(source, curPos)
    }

    constructor (src: string)
      ensures Valid() && source == src && curPos == 0
    {
      source := src;
      curPos := 0;
      curChar := if 0 < |src| then src[0] else '\0';
    }

    method NextChar()
      requires Valid()
      modifies this
      ensures Valid() && curPos == old(curPos) + 1
    {
      curPos := curPos + 1;
      if curPos >= |source| {
        curChar := '\0';
      } else {
        curChar := source[curPos];
      }
    }

    method PeekChar() returns (c: char)
      ensures c == At(source, curPos + 1)
    {
      if curPos + 1 >= |source| {
        c := '\0';
      } else {
        c := source[curPos + 1];
      }
    }

    method SkipWhitespace()
      requires Valid()
      modifies this
      ensures Valid() && curPos == SkipBlanks(source, old(curPos))
    {
      while curChar == ' ' || curChar == '\t' || curChar == '\r'
        invariant Valid() && SkipBlanks(source, curPos) == SkipBlanks(source, old(curPos))
        decreases |source| - curPos
      {
        NextChar();
      }
    }

    /** The source loops until a newline; the model also stops at the end of the input. */
    method SkipComment()
      requires Valid()
      modifies this
      ensures Valid() && curPos == AfterComment(source, old(curPos))
    {
      if curChar == '#' {
        while curPos < |source| && curChar != '\n'
          invariant Valid() && old(curPos) <= curPos
          invariant CommentEnd(source, curPos) == CommentEnd(source, old(curPos))
          decreases |source| - curPos
        {
          NextChar();
        }
      }
    }

    /** Reads a string literal; the cursor is left on its closing quote. */
    method ReadString() returns (r: Result<Token>)
      requires Valid() && curChar == '"'
      modifies this
      ensures Valid()
      ensures match StringLit(source, old(curPos))
              case Ok(sc) => r == Ok(sc.token) && curPos + 1 == sc.next
              case Fail(e) => r == Fail(e)
    {
      var startPos := curPos;
      NextChar();
      while curPos < |source| && curChar != '"'
        invariant Valid() && startPos < curPos
        invariant StringEnd(source, curPos) == StringEnd(source, startPos + 1)
        decreases |source| - curPos
      {
        NextChar();
      }
      if curPos >= |source| {
        return Fail(UnterminatedString);
      }
      r := Ok(Token(source[startPos..curPos + 1], STR_TYPE));
    }

    /** Reads a character literal; the cursor is left on its closing quote. */
    method ReadChar() returns (r: Result<Token>)
      requires Valid() && curChar == '\''
      modifies this
      ensures Valid()
      ensures old(curPos) < |source|
      ensures match CharLit(source, old(curPos))
              case Ok(sc) => r == Ok(sc.token) && curPos + 1 == sc.next
              case Fail(e) => r == Fail(e)
    {
      var startPos := curPos;
      NextChar();
      var peek := PeekChar();
      if peek == '\'' {
        NextChar();
      } else if curChar != '\'' {
        return Fail(InvalidChar);
      }
      r := Ok(Token(source[startPos..curPos + 1], CHAR_TYPE));
    }

    /** Advances over the digits that follow the cursor; returns the character after them. */
    method ReadDigits() returns (peek: char)
      requires Valid() && curPos < |source|
      modifies this
      ensures Valid() && curPos == DigitRunEnd(source, old(curPos)) && curPos < |source|
      ensures peek == At(source, curPos + 1)
    {
      peek := PeekChar();
      while IsDigit(peek)
        invariant Valid() && old(curPos) <= curPos < |source| && peek == At(source, curPos + 1)
        invariant DigitRunEnd(source, curPos) == DigitRunEnd(source, old(curPos))
        decreases |source| - curPos
      {
        NextChar();
        peek := PeekChar();
      }
    }

    /** Reads an integer or float literal; the cursor is left on its last digit. */
    method ReadNumber() returns (r: Result<Token>)
      requires Valid() && IsDigit(curChar)
      modifies this
      ensures Valid()
      ensures old(curPos) < |source|
      ensures match NumberLit(source, old(curPos))
              case Ok(sc) => r == Ok(sc.token) && curPos + 1 == sc.next
              case Fail(e) => r == Fail(e)
    {
      var startPos := curPos;
      var kind := INT_TYPE;
      var peek := ReadDigits();
      if peek == '.' {
        NextChar();
        kind := FLOAT_TYPE;
        peek := PeekChar();
        if IsDigit(peek) {
          peek := ReadDigits();
        } else {
          return Fail(InvalidFloat);
        }
      }
      r := Ok(Token(source[startPos..curPos + 1], kind));
    }

    /** Reads a keyword or identifier; the cursor is left on its last character. */
    method ReadWord() returns (token: Token)
      requires Valid() && IsAlpha(curChar)
      modifies this
      ensures Valid()
      ensures old(curPos) < |source|
      ensures WordLit(source, old(curPos)) == Ok(Scanned(token, curPos + 1))
    {
      var startPos := curPos;
      var peek := PeekChar();
      while IsAlpha(peek) || IsDigit(peek)
        invariant Valid() && startPos <= curPos < |source| && peek == At(source, curPos + 1)
        invariant WordEnd(source, curPos) == WordEnd(source, startPos)
        decreases |source| - curPos
      {
        NextChar();
        peek := PeekChar();
      }
      var word := source[startPos..curPos + 1];
      token := Token(word, KeywordType(word));
    }

    method NextToken() returns (r: Result<Token>)
      requires Valid()
      modifies this
      ensures Valid()
      ensures match Scan(source, old(curPos))
              case Ok(sc) => r == Ok(sc.token) && curPos == sc.next
              case Fail(e) => r == Fail(e)
    {
      SkipWhitespace();
      SkipComment();
      var token: Token;
      var c := curChar;
      var peek := PeekChar();
      if c == '\0' {
        token := Token([c], EOF);
      } else if Single(c).Some? {
        token := Token([c], Single(c).value);
      } else if c == '=' {
        if peek == '=' {
          token := Token("==", EQEQ);
          NextChar();
        } else {
          token := Token([c], EQ);
        }
      } else if c == '!' && peek == '=' {
        token := Token("!=", NOTEQ);
        NextChar();
      } else if c == '>' {
        if peek == '=' {
          token := Token(">=", GTEQ);
          NextChar();
        } else {
          token := Token([c], GT);
        }
      } else if c == '<' {
        if peek == '=' {
          token := Token("<=", LTEQ);
          NextChar();
        } else {
          token := Token([c], LT);
        }
      } else if c == '"' {
        token :- ReadString();
      } else if c == '\'' {
        token :- ReadChar();
      } else if IsDigit(c) {
        token :- ReadNumber();
      } else if IsAlpha(c) {
        token := ReadWord();
      } else {
        return Fail(UnknownToken(c));
      }
      NextChar();
      r := Ok(token);
    }
  }
}

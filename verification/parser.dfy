/** The parser of modules/parser.ts: a cursor over the tokens that the scanner hands over one
    `nextToken` call at a time, with one token of lookahead in `token`. Every method is proved
    to do what the rule of the same shape in module Grammar says, on the stream of tokens that
    the scanner yields from the start of the source: `pos` is the index of `token` in it. */
module Parsing {
  import opened Tokens
  import opened Errors
  import opened Values
  import opened Lexer
  import opened Ast
  import opened Grammar

  class Parser {
    const stream: Stream
    var pos: nat
    var token: Token

    /** `token` is the token under the cursor. */
    ghost predicate Valid()
      reads this
    {
      pos < |stream.items| && token == stream.items[pos].token
    }

    /** A method returning `r` did what the rule result `spec` says: on success it produced the
        same node and left the cursor where the rule stops; on failure it failed the same way. */
    ghost predicate Follows<T>(r: Result<T>, spec: Result<Parsed<T>>)
      reads this
    {
      match spec
      case Ok(p) => r == Ok(p.node) && pos == p.next && Valid()
      case Fail(e) => r == Fail(e)
    }

    ghost predicate Moved(r: Result<()>, spec: Result<nat>)
      reads this
    {
      match spec
      case Ok(j) => r.Ok? && pos == j && Valid()
      case Fail(e) => r == Fail(e)
    }

    /** The source's constructor pulls the first token, which fails when the first token
        cannot be scanned; here that failure is the empty stream, which `ParseSource` reports
        before a parser is made. */
    constructor (stream: Stream)
      requires |stream.items| > 0
      ensures Valid() && this.stream == stream && pos == 0
    {
      this.stream := stream;
      pos := 0;
      token := stream.items[0].token;
    }

    /** nextToken: the next token of the stream, or the failure that ends it. */
    method NextToken() returns (r: Result<()>)
      requires Valid() && token.kind != EOF
      modifies this
      ensures Moved(r, Advance(stream, old(pos)))
    {
      if pos + 1 < |stream.items| {
        pos := pos + 1;
        token := stream.items[pos].token;
        r := Ok(());
      } else {
        r := Fail(stream.failure.value);
      }
    }

    method Match(t: TokenKind) returns (r: Result<()>)
      requires Valid() && t != EOF
      modifies this
      ensures Moved(r, Expect(stream, old(pos), t))
    {
      if token.kind != t {
        return Fail(Expected([t], token.kind));
      }
      r := NextToken();
    }

    method MatchList(ts: seq<TokenKind>) returns (r: Result<TokenKind>)
      requires Valid() && EOF !in ts
      modifies this
      ensures Follows(r, ExpectOneOf(stream, old(pos), ts))
    {
      for k := 0 to |ts|
        invariant Valid() && pos == old(pos)
        invariant forall j | 0 <= j < k :: ts[j] != token.kind
      {
        if token.kind == ts[k] {
          var u :- Match(ts[k]);
          return Ok(ts[k]);
        }
      }
      r := Fail(Expected(ts, token.kind));
    }

    method Newline(force: bool) returns (r: Result<()>)
      requires Valid()
      modifies this
      ensures Moved(r, ParseNewline(stream, old(pos), force))
    {
      if force {
        var u :- Match(NEWLINE);
      }
      while token.kind == NEWLINE
        invariant Valid() && ParseNewline(stream, old(pos), force) == SkipNewlines(stream, pos)
        decreases |stream.items| - pos
      {
        var u :- NextToken();
      }
      r := Ok(());
    }

    // -------------------------------------------------------------- program and declarations

    method Parse() returns (r: Result<Ast.Program>)
      requires Valid()
      modifies this
      ensures r == Grammar.Parse(stream, old(pos))
    {
      var node :- Program();
      if token.kind == EOF {
        r := Ok(node);
      } else {
        r := Fail(BadSyntax);
      }
    }

    method Program() returns (r: Result<Ast.Program>)
      requires Valid()
      modifies this
      ensures Follows(r, ParseProgram(stream, old(pos)))
    {
      var u :- Newline(false);
      u :- Match(PROGRAM);
      u :- Match(IDENT);
      u :- Newline(true);
      var block :- Declare();
      u :- Match(BEGIN);
      u :- Newline(true);
      var compound :- Compound([END]);
      u :- Match(END);
      u :- Newline(false);
      r := Ok(Ast.Program(block, compound));
    }

    method Declare() returns (r: Result<Ast.Declare>)
      requires Valid()
      modifies this
      ensures Follows(r, ParseDeclare(stream, old(pos)))
    {
      var constants :- Constant();
      var variables :- Variable();
      r := Ok(Ast.Declare(constants, variables));
    }

    method Constant() returns (r: Result<seq<ConstantDecl>>)
      requires Valid()
      modifies this
      ensures Follows(r, ParseConstants(stream, old(pos)))
    {
      var constants: seq<ConstantDecl> := [];
      if token.kind == CONSTANTS {
        var u :- Match(CONSTANTS);
        u :- Newline(true);
        while token.kind != VARIABLES && token.kind != BEGIN
          invariant Valid() && ParseConstants(stream, old(pos)) == ConstantsFrom(stream, pos, constants)
          decreases |stream.items| - pos
        {
          var symbol := token.lexeme;
          u :- Match(IDENT);
          u :- Match(EQ);
          var value :- Expression();
          u :- Newline(true);
          constants := constants + [ConstantDecl(symbol, value)];
        }
      }
      r := Ok(constants);
    }

    method Variable() returns (r: Result<seq<VariableDecl>>)
      requires Valid()
      modifies this
      ensures Follows(r, ParseVariables(stream, old(pos)))
    {
      var variables: seq<VariableDecl> := [];
      if token.kind == VARIABLES {
        var u :- Match(VARIABLES);
        u :- Newline(true);
        while token.kind != BEGIN
          invariant Valid() && ParseVariables(stream, old(pos)) == VariablesFrom(stream, pos, variables)
          decreases |stream.items| - pos
        {
          var line :- DeclarationLine();
          variables := variables + line;
        }
      }
      r := Ok(variables);
    }

    /** One pass of the outer loop of `variable`. */
    method DeclarationLine() returns (r: Result<seq<VariableDecl>>)
      requires Valid()
      modifies this
      ensures Follows(r, ParseDeclarationLine(stream, old(pos)))
    {
      var symbols :- Names();
      var u :- Match(COLON);
      var typ :- TypeName();
      var size :- Index();
      u :- Newline(true);
      var line := DeclareEach(symbols, typ, size);
      r := Ok(line);
    }

    /** The identifiers of a declaration line. */
    method Names() returns (r: Result<seq<string>>)
      requires Valid()
      modifies this
      ensures Follows(r, ParseNames(stream, old(pos)))
    {
      var symbols := [token.lexeme];
      var u :- Match(IDENT);
      while token.kind == COMMA
        invariant Valid() && ParseNames(stream, old(pos)) == NamesFrom(stream, pos, symbols)
        decreases |stream.items| - pos
      {
        u :- Match(COMMA);
        symbols := symbols + [token.lexeme];
        u :- Match(IDENT);
      }
      r := Ok(symbols);
    }

    /** `type`. */
    method TypeName() returns (r: Result<TypeTag>)
      requires Valid()
      modifies this
      ensures Follows(r, ParseType(stream, old(pos)))
    {
      var t :- MatchList(TypeKinds);
      r := Ok(TagOf(t));
    }

    // -------------------------------------------------------------- statements

    method Compound(end: seq<TokenKind>) returns (r: Result<seq<Stmt>>)
      requires Valid()
      modifies this
      ensures Follows(r, ParseCompound(stream, old(pos), end))
      decreases |stream.items| - pos, 9
    {
      var children: seq<Stmt> := [];
      while token.kind !in [EOF] + end
        invariant Valid() && old(pos) <= pos
        invariant ParseCompound(stream, old(pos), end) == CompoundFrom(stream, pos, end, children)
        decreases |stream.items| - pos
      {
        var child :- Statement();
        var u :- Newline(true);
        children := children + [child];
      }
      r := Ok(children);
    }

    method Statement() returns (r: Result<Stmt>)
      requires Valid()
      modifies this
      ensures Follows(r, ParseStatement(stream, old(pos)))
      decreases |stream.items| - pos, 7
    {
      var matched :- MatchList(StatementKinds);
      StatementKindCases(matched);
      match matched
      case LET => r := AssignStmt();
      case PRINT => r := PrintStmt();
      case IF => r := IfStmt();
      case WHILE => r := WhileStmt();
      case FOR => r := ForStmt();
      case REPEAT => r := RepeatStmt();
      case SWITCH => r := SwitchStmt();
      case RESIZE => r := ResizeStmt();
    }

    method AssignStmt() returns (r: Result<Stmt>)
      requires Valid()
      modifies this
      ensures Follows(r, ParseAssign(stream, old(pos)))
    {
      var symbol := token.lexeme;
      var u :- Match(IDENT);
      var index :- Index();
      u :- Match(EQ);
      var value :- Expression();
      r := Ok(Assign(symbol, index, value));
    }

    method PrintStmt() returns (r: Result<Stmt>)
      requires Valid()
      modifies this
      ensures Follows(r, ParsePrint(stream, old(pos)))
    {
      var first :- Expression();
      var values := [first];
      while token.kind == COMMA
        invariant Valid()
        invariant ParsePrint(stream, old(pos)) ==
          (var vs :- PrintFrom(stream, pos, values); Ok(Parsed(Print(vs.node), vs.next)))
        decreases |stream.items| - pos
      {
        var u :- Match(COMMA);
        var value :- Expression();
        values := values + [value];
      }
      r := Ok(Print(values));
    }

    method IfStmt() returns (r: Result<Stmt>)
      requires Valid()
      modifies this
      ensures Follows(r, ParseIf(stream, old(pos)))
      decreases |stream.items| - pos, 6
    {
      var condition :- Expression();
      var u :- Match(THEN);
      u :- Newline(true);
      var ifCompound :- Compound([ELSE, ENDIF]);
      u :- ElsePart();
      var elseCompound :- Compound([ENDIF]);
      u :- Match(ENDIF);
      r := Ok(If(condition, ifCompound, elseCompound));
    }

    method ElsePart() returns (r: Result<()>)
      requires Valid()
      modifies this
      ensures Moved(r, ParseElse(stream, old(pos)))
    {
      if token.kind == ELSE {
        var u :- Match(ELSE);
        r := Newline(true);
      } else {
        r := Ok(());
      }
    }

    method WhileStmt() returns (r: Result<Stmt>)
      requires Valid()
      modifies this
      ensures Follows(r, ParseWhile(stream, old(pos)))
      decreases |stream.items| - pos, 6
    {
      var condition :- Expression();
      var u :- Match(DO);
      u :- Newline(true);
      var compound :- Compound([ENDWHILE]);
      u :- Match(ENDWHILE);
      r := Ok(While(condition, compound));
    }

    method ForStmt() returns (r: Result<Stmt>)
      requires Valid()
      modifies this
      ensures Follows(r, ParseFor(stream, old(pos)))
      decreases |stream.items| - pos, 6
    {
      var symbol := token.lexeme;
      var u :- Match(IDENT);
      u :- Match(FROM);
      var from :- Expression();
      u :- Match(TO);
      var to :- Expression();
      var step :- Step();
      u :- Newline(true);
      var compound :- Compound([ENDFOR]);
      u :- Match(ENDFOR);
      r := Ok(For(symbol, from, to, step, compound));
    }

    method Step() returns (r: Result<Expr>)
      requires Valid()
      modifies this
      ensures Follows(r, ParseStep(stream, old(pos)))
    {
      var step := Value(IntV(1));
      if token.kind == STEP {
        var u :- Match(STEP);
        step :- Expression();
      }
      r := Ok(step);
    }

    method RepeatStmt() returns (r: Result<Stmt>)
      requires Valid()
      modifies this
      ensures Follows(r, ParseRepeat(stream, old(pos)))
      decreases |stream.items| - pos, 6
    {
      var u :- Match(UNTIL);
      var condition :- Expression();
      u :- Newline(true);
      var compound :- Compound([ENDREPEAT]);
      u :- Match(ENDREPEAT);
      r := Ok(Repeat(condition, compound));
    }

    method SwitchStmt() returns (r: Result<Stmt>)
      requires Valid()
      modifies this
      ensures Follows(r, ParseSwitch(stream, old(pos)))
      decreases |stream.items| - pos, 6
    {
      var expression :- Expression();
      var u :- Newline(true);
      var caseList :- Cases();
      var compound :- Default();
      u :- Match(ENDSWITCH);
      r := Ok(Switch(expression, caseList, compound));
    }

    /** The CASE loop of `switch`. */
    method Cases() returns (r: Result<seq<Case>>)
      requires Valid()
      modifies this
      ensures Follows(r, CasesFrom(stream, old(pos), []))
      decreases |stream.items| - pos, 5
    {
      var caseList: seq<Case> := [];
      while token.kind == CASE
        invariant Valid() && old(pos) <= pos
        invariant CasesFrom(stream, old(pos), []) == CasesFrom(stream, pos, caseList)
        decreases |stream.items| - pos
      {
        var u :- Match(CASE);
        var value :- Expression();
        u :- Match(COLON);
        u :- Newline(true);
        var compound :- Compound([CASE, DEFAULT, ENDSWITCH]);
        caseList := caseList + [Case(value, compound)];
      }
      r := Ok(caseList);
    }

    /** The DEFAULT part of `switch`. */
    method Default() returns (r: Result<Fallback>)
      requires Valid()
      modifies this
      ensures Follows(r, ParseDefault(stream, old(pos)))
      decreases |stream.items| - pos, 5
    {
      if token.kind == DEFAULT {
        var u :- Match(DEFAULT);
        u :- Match(COLON);
        u :- Newline(true);
        var compound :- Compound([ENDSWITCH]);
        r := Ok(Fallback(compound));
      } else {
        r := Ok(NoFallback);
      }
    }

    method ResizeStmt() returns (r: Result<Stmt>)
      requires Valid()
      modifies this
      ensures Follows(r, ParseResize(stream, old(pos)))
    {
      var symbol := token.lexeme;
      var u :- Match(IDENT);
      u :- Match(TO);
      var value :- Expression();
      r := Ok(Resize(symbol, value));
    }

    // -------------------------------------------------------------- expressions

    method Expression() returns (r: Result<Expr>)
      requires Valid()
      modifies this
      ensures Follows(r, ParseExpression(stream, old(pos)))
      decreases |stream.items| - pos, 5, 2
    {
      var node :- Comparison();
      while token.kind == OR || token.kind == AND
        invariant Valid() && old(pos) < pos
        invariant ParseExpression(stream, old(pos)) == ExpressionFrom(stream, node, pos)
        decreases |stream.items| - pos
      {
        node :- JoinComparison(node);
      }
      r := Ok(node);
    }

    /** The body of the loop in `expression`. */
    method JoinComparison(left: Expr) returns (r: Result<Expr>)
      requires Valid() && (token.kind == OR || token.kind == AND)
      modifies this
      ensures Follows(r, ExpressionStep(stream, left, old(pos)))
      decreases |stream.items| - pos, 5, 0
    {
      var op := token.kind;
      var u :- Match(op);
      var right :- Comparison();
      BinaryOperator(op);
      r := Ok(Binary(left, BinOpOf(op).value, right));
    }

    method Comparison() returns (r: Result<Expr>)
      requires Valid()
      modifies this
      ensures Follows(r, ParseComparison(stream, old(pos)))
      decreases |stream.items| - pos, 4, |ComparisonKinds| + 1, 0
    {
      var node :- Addition();
      for k := 0 to |ComparisonKinds|
        invariant Valid() && old(pos) < pos
        invariant ParseComparison(stream, old(pos)) == ComparisonFrom(stream, node, pos, k)
      {
        node :- JoinAddition(node, k);
      }
      r := Ok(node);
    }

    /** The body of the loop in `comparison`, for the `k`-th operator of the list. */
    method JoinAddition(left: Expr, k: nat) returns (r: Result<Expr>)
      requires Valid() && k < |ComparisonKinds|
      modifies this
      ensures Follows(r, ComparisonStep(stream, left, old(pos), k))
      ensures r.Ok? ==> old(pos) <= pos
      decreases |stream.items| - pos, 4, |ComparisonKinds| - k, 0
    {
      var tokenType := ComparisonKinds[k];
      if token.kind == tokenType {
        var u :- Match(tokenType);
        var right :- Addition();
        BinaryOperator(tokenType);
        return Ok(Binary(left, BinOpOf(tokenType).value, right));
      }
      r := Ok(left);
    }

    method Addition() returns (r: Result<Expr>)
      requires Valid()
      modifies this
      ensures Follows(r, ParseAddition(stream, old(pos)))
      decreases |stream.items| - pos, 3, 2
    {
      var node :- Multiply();
      while token.kind in AdditionKinds
        invariant Valid() && old(pos) < pos
        invariant ParseAddition(stream, old(pos)) == AdditionFrom(stream, node, pos)
        decreases |stream.items| - pos
      {
        node :- JoinMultiply(node);
      }
      r := Ok(node);
    }

    /** The body of the loop in `addition`. */
    method JoinMultiply(left: Expr) returns (r: Result<Expr>)
      requires Valid() && token.kind in AdditionKinds
      modifies this
      ensures Follows(r, AdditionStep(stream, left, old(pos)))
      decreases |stream.items| - pos, 3, 0
    {
      var op := token.kind;
      var matched :- MatchList(AdditionKinds);
      var right :- Multiply();
      BinaryOperator(op);
      r := Ok(Binary(left, BinOpOf(op).value, right));
    }

    method Multiply() returns (r: Result<Expr>)
      requires Valid()
      modifies this
      ensures Follows(r, ParseMultiply(stream, old(pos)))
      decreases |stream.items| - pos, 2, 2
    {
      var node :- Exponent();
      while token.kind in MultiplyKinds
        invariant Valid() && old(pos) < pos
        invariant ParseMultiply(stream, old(pos)) == MultiplyFrom(stream, node, pos)
        decreases |stream.items| - pos
      {
        node :- JoinExponent(node);
      }
      r := Ok(node);
    }

    /** The body of the loop in `multiply`. */
    method JoinExponent(left: Expr) returns (r: Result<Expr>)
      requires Valid() && token.kind in MultiplyKinds
      modifies this
      ensures Follows(r, MultiplyStep(stream, left, old(pos)))
      decreases |stream.items| - pos, 2, 0
    {
      var op := token.kind;
      var matched :- MatchList(MultiplyKinds);
      var right :- Exponent();
      BinaryOperator(op);
      r := Ok(Binary(left, BinOpOf(op).value, right));
    }

    method Exponent() returns (r: Result<Expr>)
      requires Valid()
      modifies this
      ensures Follows(r, ParseExponent(stream, old(pos)))
      decreases |stream.items| - pos, 1, 1
    {
      var first :- Primary();
      var exponents := [first];
      while token.kind == CARET
        invariant Valid() && old(pos) < pos && |exponents| > 0
        invariant ParseExponent(stream, old(pos)) ==
          (var all :- ExponentsFrom(stream, exponents, pos); Ok(Parsed(PowChain(all.node), all.next)))
        decreases |stream.items| - pos
      {
        var u :- Match(CARET);
        var operand :- Primary();
        exponents := exponents + [operand];
      }
      if |exponents| <= 1 {
        r := Ok(exponents[0]);
      } else {
        var node := exponents[|exponents| - 1];
        for i := |exponents| - 1 downto 0
          invariant node == PowChain(exponents[i..])
        {
          assert exponents[i..][1..] == exponents[i + 1..];
          node := Binary(exponents[i], Pow, node);
        }
        r := Ok(node);
      }
    }

    method Primary() returns (r: Result<Expr>)
      requires Valid()
      modifies this
      ensures Follows(r, ParsePrimary(stream, old(pos)))
      decreases |stream.items| - pos, 0, 0
    {
      var t := token;
      var matched :- MatchList(PrimaryKinds);
      PrimaryKindCases(matched);
      match matched
      case INT_TYPE => r := Ok(Value(IntV(IntLiteral(t.lexeme))));
      case FLOAT_TYPE => r := Ok(Value(FloatV(FloatLiteral(t.lexeme))));
      case CHAR_TYPE => r := Ok(Value(CharV(Inner(t.lexeme))));
      case STR_TYPE => r := Ok(Value(StrV(Inner(t.lexeme))));
      case TRUE => r := Ok(Value(BoolV(true)));
      case FALSE => r := Ok(Value(BoolV(false)));
      case IDENT => r := Symbol(t.lexeme);
      case NOT =>
        var child :- Comparison();
        r := Ok(Unary(Not, child));
      case PLUS =>
        var child :- Primary();
        r := Ok(Unary(Positive, child));
      case MINUS =>
        var child :- Primary();
        r := Ok(Unary(Negative, child));
      case PARLEFT =>
        var node :- Expression();
        var u :- Match(PARRIGHT);
        r := Ok(node);
    }

    method Symbol(value: string) returns (r: Result<Expr>)
      requires Valid()
      modifies this
      ensures Follows(r, ParseSymbol(stream, value, old(pos)))
      decreases |stream.items| - pos, 7, 0
    {
      var index :- Index();
      r := Ok(Ast.Symbol(value, index));
    }

    /** `[ expression ]` or the null value node, as `symbol`, `assign` and `variable` read it. */
    method Index() returns (r: Result<Expr>)
      requires Valid()
      modifies this
      ensures Follows(r, ParseIndex(stream, old(pos)))
      decreases |stream.items| - pos, 6, 0
    {
      var index := NoIndex;
      if token.kind == BRALEFT {
        var u :- Match(BRALEFT);
        index :- Expression();
        u :- Match(BRARIGHT);
      }
      r := Ok(index);
    }
  }

  /** The for loop at the end of a declaration line: one declaration per identifier, in order,
      all with the same type and size. */
  method DeclareEach(symbols: seq<string>, typ: TypeTag, size: Expr) returns (line: seq<VariableDecl>)
    ensures line == Declarations(symbols, typ, size)
  {
    line := [];
    for k := 0 to |symbols|
      invariant |line| == k
      invariant forall j | 0 <= j < k :: line[j] == VariableDecl(symbols[j], typ, size)
    {
      line := line + [VariableDecl(symbols[k], typ, size)];
    }
  }

  /** The scanner's side of the pipeline: `nextToken` called until it yields EOF or fails,
      collecting every token with the cursor after it. */
  method Tokenize(src: string) returns (l: Lexed)
    ensures l == Lex(src, 0)
  {
    var lexer := new Lexer(src);
    var items: seq<Scanned> := [];
    while true
      invariant lexer.Valid() && lexer.source == src && lexer.curPos <= |src|
      invariant Lex(src, 0) == Lexed(items + Lex(src, lexer.curPos).items, Lex(src, lexer.curPos).failure)
      decreases |src| - lexer.curPos
    {
      ghost var before := lexer.curPos;
      LexStops(src, before);
      var t := lexer.NextToken();
      match t
      case Fail(e) =>
        assert items + [] == items;
        return Lexed(items, Some(e));
      case Ok(token) =>
        var sc := Scanned(token, lexer.curPos);
        if token.kind == EOF {
          return Lexed(items + [sc], None);
        }
        LexCons(src, before, sc, items);
        items := items + [sc];
    }
  }

  /** The scanner and the parser together: the result is the grammar's reading of every token
      the scanner yields from the start of the source. */
  method ParseSource(src: string) returns (r: Result<Program>)
    ensures r == ParseStream(Lex(src, 0))
  {
    var stream := Tokenize(src);
    if |stream.items| == 0 {
      return Fail(stream.failure.value);
    }
    var parser := new Parser(stream);
    r := parser.Parse();
  }
}

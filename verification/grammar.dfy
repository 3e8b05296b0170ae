/** The recursive-descent grammar of modules/parser.ts, as functions over the token stream the
    scanner yields. A cursor `i` indexes the current token; every rule returns the node it
    builds and the cursor after it, or the error that aborts parsing. Each loop of the source
    is a tail-recursive rule carrying what the loop has collected so far. The class `Parser`
    (module Parsing) runs the same grammar imperatively and is proved to follow these rules. */
module Grammar {
  import opened Tokens
  import opened Errors
  import opened Values
  import opened Lexer
  import opened Ast

  /** What the scanner can yield: EOF only as the last token, and a stream that stops without
      EOF stops at a lexing failure. */
  predicate WellFormed(l: Lexed) {
    && (l.failure.None? ==> |l.items| > 0 && l.items[|l.items| - 1].token.kind == EOF)
    && (forall j | 0 <= j < |l.items| - 1 :: l.items[j].token.kind != EOF)
  }

  type Stream = l: Lexed | WellFormed(l) witness Lexed([], Some(BadSyntax))

  datatype Parsed<T> = Parsed(node: T, next: nat)

  function Kind(s: Stream, i: nat): TokenKind
    requires i < |s.items|
  {
    s.items[i].token.kind
  }

  function Lexeme(s: Stream, i: nat): string
    requires i < |s.items|
  {
    s.items[i].token.lexeme
  }

  /** nextToken: the parser pulls the next token, and a lexing failure surfaces when the token
      after the current one cannot be scanned. The parser never pulls past EOF. */
  function Advance(s: Stream, i: nat): (r: Result<nat>)
    requires i < |s.items| && Kind(s, i) != EOF
    ensures r.Ok? <==> i + 1 < |s.items|
    ensures r.Ok? ==> r.value == i + 1
    ensures r.Fail? ==> s.failure == Some(r.error)
  {
    if i + 1 < |s.items| then Ok(i + 1) else Fail(s.failure.value)
  }

  /** match: consume a token of kind `t` or fail naming `t` and the kind found. */
  function Expect(s: Stream, i: nat, t: TokenKind): (r: Result<nat>)
    requires i < |s.items| && t != EOF
    ensures r.Ok? ==> Kind(s, i) == t && r.value == i + 1 < |s.items|
  {
    if Kind(s, i) != t then Fail(Expected([t], Kind(s, i))) else Advance(s, i)
  }

  /** matchList: consume the current token if its kind is one of `ts` and return that kind, or
      fail naming every kind of `ts`. */
  function ExpectOneOf(s: Stream, i: nat, ts: seq<TokenKind>): (r: Result<Parsed<TokenKind>>)
    requires i < |s.items| && EOF !in ts
    ensures r.Ok? ==> r.value.node == Kind(s, i) && r.value.node in ts && r.value.next == i + 1 < |s.items|
    ensures Kind(s, i) !in ts ==> r == Fail(Expected(ts, Kind(s, i)))
  {
    if Kind(s, i) in ts then
      var j :- Expect(s, i, Kind(s, i));
      Ok(Parsed(Kind(s, i), j))
    else Fail(Expected(ts, Kind(s, i)))
  }

  /** newline: with `force`, one NEWLINE is required; then every further NEWLINE is skipped. */
  function ParseNewline(s: Stream, i: nat, force: bool): (r: Result<nat>)
    requires i < |s.items|
    ensures r.Ok? ==> i <= r.value < |s.items| && Kind(s, r.value) != NEWLINE
    ensures r.Ok? && force ==> i < r.value
  {
    if force then
      var j :- Expect(s, i, NEWLINE);
      SkipNewlines(s, j)
    else SkipNewlines(s, i)
  }

  function SkipNewlines(s: Stream, i: nat): (r: Result<nat>)
    requires i < |s.items|
    ensures r.Ok? ==> i <= r.value < |s.items| && Kind(s, r.value) != NEWLINE
    ensures r.Ok? ==> forall j | i <= j < r.value :: Kind(s, j) == NEWLINE
    decreases |s.items| - i
  {
    if Kind(s, i) == NEWLINE then
      var j :- Advance(s, i);
      SkipNewlines(s, j)
    else Ok(i)
  }

  // ---------------------------------------------------------------- program and declarations

  /** parse: a program, then nothing but EOF. */
  function ParseStream(s: Stream): (r: Result<Program>)
  {
    if |s.items| == 0 then Fail(s.failure.value) else Parse(s, 0)
  }

  function Parse(s: Stream, i: nat): (r: Result<Program>)
    requires i < |s.items|
  {
    var p :- ParseProgram(s, i);
    if Kind(s, p.next) == EOF then Ok(p.node) else Fail(BadSyntax)
  }

  function ParseProgram(s: Stream, i: nat): (r: Result<Parsed<Program>>)
    requires i < |s.items|
    ensures r.Ok? ==> i < r.value.next < |s.items| && Kind(s, r.value.next) != NEWLINE
  {
    var a :- ParseNewline(s, i, false);
    var b :- Expect(s, a, PROGRAM);
    var c :- Expect(s, b, IDENT);
    var d :- ParseNewline(s, c, true);
    var decl :- ParseDeclare(s, d);
    var e :- Expect(s, decl.next, BEGIN);
    var f :- ParseNewline(s, e, true);
    var body :- ParseCompound(s, f, [END]);
    var g :- Expect(s, body.next, END);
    var h :- ParseNewline(s, g, false);
    Ok(Parsed(Program(decl.node, body.node), h))
  }

  function ParseDeclare(s: Stream, i: nat): (r: Result<Parsed<Declare>>)
    requires i < |s.items|
    ensures r.Ok? ==> i <= r.value.next < |s.items|
  {
    var c :- ParseConstants(s, i);
    var v :- ParseVariables(s, c.next);
    Ok(Parsed(Declare(c.node, v.node), v.next))
  }

  function ParseConstants(s: Stream, i: nat): (r: Result<Parsed<seq<ConstantDecl>>>)
    requires i < |s.items|
    ensures r.Ok? ==> i <= r.value.next < |s.items|
    ensures Kind(s, i) != CONSTANTS ==> r == Ok(Parsed([], i))
  {
    if Kind(s, i) == CONSTANTS then
      var j :- Expect(s, i, CONSTANTS);
      var k :- ParseNewline(s, j, true);
      ConstantsFrom(s, k, [])
    else Ok(Parsed([], i))
  }

  /** The loop of `constant`: one `name = expression` line until VARIABLES or BEGIN. */
  function ConstantsFrom(s: Stream, i: nat, acc: seq<ConstantDecl>): (r: Result<Parsed<seq<ConstantDecl>>>)
    requires i < |s.items|
    ensures r.Ok? ==> i <= r.value.next < |s.items|
    ensures r.Ok? ==> Kind(s, r.value.next) in {VARIABLES, BEGIN}
    ensures r.Ok? ==> |acc| <= |r.value.node|
    decreases |s.items| - i
  {
    if Kind(s, i) != VARIABLES && Kind(s, i) != BEGIN then
      var name := Lexeme(s, i);
      var a :- Expect(s, i, IDENT);
      var b :- Expect(s, a, EQ);
      var e :- ParseExpression(s, b);
      var n :- ParseNewline(s, e.next, true);
      ConstantsFrom(s, n, acc + [ConstantDecl(name, e.node)])
    else Ok(Parsed(acc, i))
  }

  function ParseVariables(s: Stream, i: nat): (r: Result<Parsed<seq<VariableDecl>>>)
    requires i < |s.items|
    ensures r.Ok? ==> i <= r.value.next < |s.items|
    ensures Kind(s, i) != VARIABLES ==> r == Ok(Parsed([], i))
  {
    if Kind(s, i) == VARIABLES then
      var j :- Expect(s, i, VARIABLES);
      var k :- ParseNewline(s, j, true);
      VariablesFrom(s, k, [])
    else Ok(Parsed([], i))
  }

  /** The loop of `variable`: one `a, b, ... : TYPE [size]` line until BEGIN. */
  function VariablesFrom(s: Stream, i: nat, acc: seq<VariableDecl>): (r: Result<Parsed<seq<VariableDecl>>>)
    requires i < |s.items|
    ensures r.Ok? ==> i <= r.value.next < |s.items| && Kind(s, r.value.next) == BEGIN
    ensures r.Ok? ==> |acc| <= |r.value.node|
    decreases |s.items| - i
  {
    if Kind(s, i) != BEGIN then
      var line :- ParseDeclarationLine(s, i);
      VariablesFrom(s, line.next, acc + line.node)
    else Ok(Parsed(acc, i))
  }

  /** One declaration line, up to and including its newlines. */
  function ParseDeclarationLine(s: Stream, i: nat): (r: Result<Parsed<seq<VariableDecl>>>)
    requires i < |s.items|
    ensures r.Ok? ==> i < r.value.next < |s.items|
  {
    var names :- ParseNames(s, i);
    var c :- Expect(s, names.next, COLON);
    var t :- ParseType(s, c);
    var size :- ParseIndex(s, t.next);
    var n :- ParseNewline(s, size.next, true);
    Ok(Parsed(Declarations(names.node, t.node, size.node), n))
  }

  /** The identifiers of a declaration line, separated by commas, in source order. */
  function ParseNames(s: Stream, i: nat): (r: Result<Parsed<seq<string>>>)
    requires i < |s.items|
    ensures r.Ok? ==> i < r.value.next < |s.items| && |r.value.node| > 0
  {
    var name := Lexeme(s, i);
    var a :- Expect(s, i, IDENT);
    NamesFrom(s, a, [name])
  }

  function NamesFrom(s: Stream, i: nat, acc: seq<string>): (r: Result<Parsed<seq<string>>>)
    requires i < |s.items|
    ensures r.Ok? ==> i <= r.value.next < |s.items| && Kind(s, r.value.next) != COMMA
    ensures r.Ok? ==> |acc| <= |r.value.node|
    decreases |s.items| - i
  {
    if Kind(s, i) == COMMA then
      var j :- Expect(s, i, COMMA);
      var name := Lexeme(s, j);
      var k :- Expect(s, j, IDENT);
      NamesFrom(s, k, acc + [name])
    else Ok(Parsed(acc, i))
  }

  /** The for loop at the end of a declaration line: one declaration per identifier. */
  function Declarations(names: seq<string>, t: TypeTag, size: Expr): (r: seq<VariableDecl>)
    ensures |r| == |names|
    ensures forall j | 0 <= j < |names| :: r[j] == VariableDecl(names[j], t, size)
  {
    if names == [] then [] else [VariableDecl(names[0], t, size)] + Declarations(names[1..], t, size)
  }

  const TypeKinds: seq<TokenKind> := [INTEGER, FLOAT, CHARACTER, STRING, BOOLEAN]

  /** type: a type keyword names the type tag of the variables it declares. */
  function ParseType(s: Stream, i: nat): (r: Result<Parsed<TypeTag>>)
    requires i < |s.items|
    ensures r.Ok? ==> r.value.next == i + 1 < |s.items| && Kind(s, i) in TypeKinds
    ensures r.Ok? ==> r.value.node in {IntType, FloatType, CharType, StrType, BoolType}
  {
    var m :- ExpectOneOf(s, i, TypeKinds);
    Ok(Parsed(TagOf(m.node), m.next))
  }

  function TagOf(k: TokenKind): TypeTag {
    match k
    case INTEGER => IntType
    case FLOAT => FloatType
    case CHARACTER => CharType
    case STRING => StrType
    case BOOLEAN => BoolType
    case _ => NullType
  }

  // ---------------------------------------------------------------- statements

  /** compound: statements, each followed by at least one newline, until EOF or one of the
      kinds in `ends`, which is not consumed. */
  function ParseCompound(s: Stream, i: nat, ends: seq<TokenKind>): (r: Result<Parsed<seq<Stmt>>>)
    requires i < |s.items|
    ensures r.Ok? ==> i <= r.value.next < |s.items| && Kind(s, r.value.next) in [EOF] + ends
    decreases |s.items| - i, 9
  {
    CompoundFrom(s, i, ends, [])
  }

  function CompoundFrom(s: Stream, i: nat, ends: seq<TokenKind>, acc: seq<Stmt>): (r: Result<Parsed<seq<Stmt>>>)
    requires i < |s.items|
    ensures r.Ok? ==> i <= r.value.next < |s.items| && Kind(s, r.value.next) in [EOF] + ends
    ensures r.Ok? ==> |acc| <= |r.value.node|
    decreases |s.items| - i, 8
  {
    if Kind(s, i) in [EOF] + ends then Ok(Parsed(acc, i))
    else
      var st :- ParseStatement(s, i);
      var j :- ParseNewline(s, st.next, true);
      CompoundFrom(s, j, ends, acc + [st.node])
  }

  const StatementKinds: seq<TokenKind> := [LET, PRINT, IF, WHILE, FOR, REPEAT, SWITCH, RESIZE]

  function ParseStatement(s: Stream, i: nat): (r: Result<Parsed<Stmt>>)
    requires i < |s.items|
    ensures r.Ok? ==> i < r.value.next < |s.items|
    decreases |s.items| - i, 7
  {
    var m :- ExpectOneOf(s, i, StatementKinds);
    StatementKindCases(m.node);
    match m.node
    case LET => ParseAssign(s, m.next)
    case PRINT => ParsePrint(s, m.next)
    case IF => ParseIf(s, m.next)
    case WHILE => ParseWhile(s, m.next)
    case FOR => ParseFor(s, m.next)
    case REPEAT => ParseRepeat(s, m.next)
    case SWITCH => ParseSwitch(s, m.next)
    case RESIZE => ParseResize(s, m.next)
  }

  lemma StatementKindCases(k: TokenKind)
    requires k in StatementKinds
    ensures k == LET || k == PRINT || k == IF || k == WHILE || k == FOR || k == REPEAT || k == SWITCH || k == RESIZE
  {
  }

  function ParseAssign(s: Stream, i: nat): (r: Result<Parsed<Stmt>>)
    requires i < |s.items|
    ensures r.Ok? ==> i < r.value.next < |s.items|
    decreases |s.items| - i, 6
  {
    var name := Lexeme(s, i);
    var a :- Expect(s, i, IDENT);
    var index :- ParseIndex(s, a);
    var b :- Expect(s, index.next, EQ);
    var value :- ParseExpression(s, b);
    Ok(Parsed(Assign(name, index.node, value.node), value.next))
  }

  function ParsePrint(s: Stream, i: nat): (r: Result<Parsed<Stmt>>)
    requires i < |s.items|
    ensures r.Ok? ==> i < r.value.next < |s.items|
    ensures r.Ok? ==> r.value.node.Print? && |r.value.node.values| > 0
  {
    var e :- ParseExpression(s, i);
    var values :- PrintFrom(s, e.next, [e.node]);
    Ok(Parsed(Print(values.node), values.next))
  }

  function PrintFrom(s: Stream, i: nat, acc: seq<Expr>): (r: Result<Parsed<seq<Expr>>>)
    requires i < |s.items|
    ensures r.Ok? ==> i <= r.value.next < |s.items| && Kind(s, r.value.next) != COMMA
    ensures r.Ok? ==> |acc| <= |r.value.node|
    decreases |s.items| - i
  {
    if Kind(s, i) == COMMA then
      var j :- Expect(s, i, COMMA);
      var e :- ParseExpression(s, j);
      PrintFrom(s, e.next, acc + [e.node])
    else Ok(Parsed(acc, i))
  }

  function ParseIf(s: Stream, i: nat): (r: Result<Parsed<Stmt>>)
    requires i < |s.items|
    ensures r.Ok? ==> i < r.value.next < |s.items|
    decreases |s.items| - i, 6
  {
    var cond :- ParseExpression(s, i);
    var a :- Expect(s, cond.next, THEN);
    var b :- ParseNewline(s, a, true);
    var thenPart :- ParseCompound(s, b, [ELSE, ENDIF]);
    var c :- ParseElse(s, thenPart.next);
    var elsePart :- ParseCompound(s, c, [ENDIF]);
    var d :- Expect(s, elsePart.next, ENDIF);
    Ok(Parsed(If(cond.node, thenPart.node, elsePart.node), d))
  }

  /** An optional ELSE and its newline. */
  function ParseElse(s: Stream, i: nat): (r: Result<nat>)
    requires i < |s.items|
    ensures r.Ok? ==> i <= r.value < |s.items|
    ensures Kind(s, i) != ELSE ==> r == Ok(i)
  {
    if Kind(s, i) == ELSE then
      var a :- Expect(s, i, ELSE);
      ParseNewline(s, a, true)
    else Ok(i)
  }

  function ParseWhile(s: Stream, i: nat): (r: Result<Parsed<Stmt>>)
    requires i < |s.items|
    ensures r.Ok? ==> i < r.value.next < |s.items|
    decreases |s.items| - i, 6
  {
    var cond :- ParseExpression(s, i);
    var a :- Expect(s, cond.next, DO);
    var b :- ParseNewline(s, a, true);
    var body :- ParseCompound(s, b, [ENDWHILE]);
    var c :- Expect(s, body.next, ENDWHILE);
    Ok(Parsed(While(cond.node, body.node), c))
  }

  function ParseFor(s: Stream, i: nat): (r: Result<Parsed<Stmt>>)
    requires i < |s.items|
    ensures r.Ok? ==> i < r.value.next < |s.items|
    decreases |s.items| - i, 6
  {
    var name := Lexeme(s, i);
    var a :- Expect(s, i, IDENT);
    var b :- Expect(s, a, FROM);
    var from :- ParseExpression(s, b);
    var c :- Expect(s, from.next, TO);
    var to :- ParseExpression(s, c);
    var step :- ParseStep(s, to.next);
    var d :- ParseNewline(s, step.next, true);
    var body :- ParseCompound(s, d, [ENDFOR]);
    var e :- Expect(s, body.next, ENDFOR);
    Ok(Parsed(For(name, from.node, to.node, step.node, body.node), e))
  }

  /** The step of a FOR: the expression after STEP, or the integer literal 1. */
  function ParseStep(s: Stream, i: nat): (r: Result<Parsed<Expr>>)
    requires i < |s.items|
    ensures r.Ok? ==> i <= r.value.next < |s.items|
    ensures Kind(s, i) != STEP ==> r == Ok(Parsed(Value(IntV(1)), i))
  {
    if Kind(s, i) == STEP then
      var a :- Expect(s, i, STEP);
      ParseExpression(s, a)
    else Ok(Parsed(Value(IntV(1)), i))
  }

  /** REPEAT UNTIL condition, newline, body, ENDREPEAT: the condition comes first. */
  function ParseRepeat(s: Stream, i: nat): (r: Result<Parsed<Stmt>>)
    requires i < |s.items|
    ensures r.Ok? ==> i < r.value.next < |s.items|
    decreases |s.items| - i, 6
  {
    var a :- Expect(s, i, UNTIL);
    var cond :- ParseExpression(s, a);
    var b :- ParseNewline(s, cond.next, true);
    var body :- ParseCompound(s, b, [ENDREPEAT]);
    var c :- Expect(s, body.next, ENDREPEAT);
    Ok(Parsed(Repeat(cond.node, body.node), c))
  }

  function ParseSwitch(s: Stream, i: nat): (r: Result<Parsed<Stmt>>)
    requires i < |s.items|
    ensures r.Ok? ==> i < r.value.next < |s.items|
    decreases |s.items| - i, 6
  {
    var subject :- ParseExpression(s, i);
    var a :- ParseNewline(s, subject.next, true);
    var cases :- CasesFrom(s, a, []);
    var default :- ParseDefault(s, cases.next);
    var b :- Expect(s, default.next, ENDSWITCH);
    Ok(Parsed(Switch(subject.node, cases.node, default.node), b))
  }

  /** The loop over CASE labels; each body ends at the next CASE, DEFAULT or ENDSWITCH. */
  function CasesFrom(s: Stream, i: nat, acc: seq<Case>): (r: Result<Parsed<seq<Case>>>)
    requires i < |s.items|
    ensures r.Ok? ==> i <= r.value.next < |s.items| && Kind(s, r.value.next) != CASE
    ensures r.Ok? ==> |acc| <= |r.value.node|
    decreases |s.items| - i, 5
  {
    if Kind(s, i) == CASE then
      var a :- Expect(s, i, CASE);
      var value :- ParseExpression(s, a);
      var b :- Expect(s, value.next, COLON);
      var c :- ParseNewline(s, b, true);
      var body :- ParseCompound(s, c, [CASE, DEFAULT, ENDSWITCH]);
      CasesFrom(s, body.next, acc + [Case(value.node, body.node)])
    else Ok(Parsed(acc, i))
  }

  function ParseDefault(s: Stream, i: nat): (r: Result<Parsed<Fallback>>)
    requires i < |s.items|
    ensures r.Ok? ==> i <= r.value.next < |s.items|
    ensures Kind(s, i) != DEFAULT ==> r == Ok(Parsed(NoFallback, i))
    decreases |s.items| - i, 5
  {
    if Kind(s, i) == DEFAULT then
      var a :- Expect(s, i, DEFAULT);
      var b :- Expect(s, a, COLON);
      var c :- ParseNewline(s, b, true);
      var body :- ParseCompound(s, c, [ENDSWITCH]);
      Ok(Parsed(Fallback(body.node), body.next))
    else Ok(Parsed(NoFallback, i))
  }

  function ParseResize(s: Stream, i: nat): (r: Result<Parsed<Stmt>>)
    requires i < |s.items|
    ensures r.Ok? ==> i < r.value.next < |s.items|
  {
    var name := Lexeme(s, i);
    var a :- Expect(s, i, IDENT);
    var b :- Expect(s, a, TO);
    var size :- ParseExpression(s, b);
    Ok(Parsed(Resize(name, size.node), size.next))
  }

  // ---------------------------------------------------------------- expressions

  /** expression: comparisons joined by AND and OR, left to right, at one level. */
  function ParseExpression(s: Stream, i: nat): (r: Result<Parsed<Expr>>)
    requires i < |s.items|
    ensures r.Ok? ==> i < r.value.next < |s.items|
    decreases |s.items| - i, 5, 2
  {
    var left :- ParseComparison(s, i);
    ExpressionFrom(s, left.node, left.next)
  }

  /** The loop of `expression` from operand `left` on: it runs while the token is OR or AND. */
  function ExpressionFrom(s: Stream, left: Expr, i: nat): (r: Result<Parsed<Expr>>)
    requires i < |s.items|
    ensures r.Ok? ==> i <= r.value.next < |s.items| && Kind(s, r.value.next) !in {OR, AND}
    decreases |s.items| - i, 5, 1
  {
    if Kind(s, i) == OR || Kind(s, i) == AND then
      var step :- ExpressionStep(s, left, i);
      ExpressionFrom(s, step.node, step.next)
    else Ok(Parsed(left, i))
  }

  /** One turn of that loop: the operator token, then the comparison on its right. */
  function ExpressionStep(s: Stream, left: Expr, i: nat): (r: Result<Parsed<Expr>>)
    requires i < |s.items| && (Kind(s, i) == OR || Kind(s, i) == AND)
    ensures r.Ok? ==> i < r.value.next < |s.items|
    decreases |s.items| - i, 5, 0
  {
    var k := Kind(s, i);
    var a :- Expect(s, i, k);
    var right :- ParseComparison(s, a);
    BinaryOperator(k);
    Ok(Parsed(Binary(left, BinOpOf(k).value, right.node), right.next))
  }

  const ComparisonKinds: seq<TokenKind> := [EQEQ, NOTEQ, GT, GTEQ, LT, LTEQ]

  /** comparison: an addition, then each comparison operator of the fixed list at most once,
      tried in list order. */
  function ParseComparison(s: Stream, i: nat): (r: Result<Parsed<Expr>>)
    requires i < |s.items|
    ensures r.Ok? ==> i < r.value.next < |s.items|
    decreases |s.items| - i, 4, |ComparisonKinds| + 1, 0
  {
    var left :- ParseAddition(s, i);
    ComparisonFrom(s, left.node, left.next, 0)
  }

  /** The loop of `comparison` from the `k`-th operator of the list on. */
  function ComparisonFrom(s: Stream, left: Expr, i: nat, k: nat): (r: Result<Parsed<Expr>>)
    requires i < |s.items| && k <= |ComparisonKinds|
    ensures r.Ok? ==> i <= r.value.next < |s.items|
    decreases |s.items| - i, 4, |ComparisonKinds| - k, 1
  {
    if k == |ComparisonKinds| then Ok(Parsed(left, i))
    else
      var step :- ComparisonStep(s, left, i, k);
      ComparisonFrom(s, step.node, step.next, k + 1)
  }

  /** One turn of that loop: when the token is the `k`-th operator, the operator and the
      addition on its right; otherwise nothing is read. */
  function ComparisonStep(s: Stream, left: Expr, i: nat, k: nat): (r: Result<Parsed<Expr>>)
    requires i < |s.items| && k < |ComparisonKinds|
    ensures r.Ok? ==> i <= r.value.next < |s.items|
    decreases |s.items| - i, 4, |ComparisonKinds| - k, 0
  {
    var t := ComparisonKinds[k];
    if Kind(s, i) == t then
      var a :- Expect(s, i, t);
      var right :- ParseAddition(s, a);
      BinaryOperator(t);
      Ok(Parsed(Binary(left, BinOpOf(t).value, right.node), right.next))
    else Ok(Parsed(left, i))
  }

  const AdditionKinds: seq<TokenKind> := [PLUS, MINUS, AMPERSAND]

  /** addition: multiplications joined by `+`, `-` and `&`, left to right. */
  function ParseAddition(s: Stream, i: nat): (r: Result<Parsed<Expr>>)
    requires i < |s.items|
    ensures r.Ok? ==> i < r.value.next < |s.items|
    decreases |s.items| - i, 3, 2
  {
    var left :- ParseMultiply(s, i);
    AdditionFrom(s, left.node, left.next)
  }

  function AdditionFrom(s: Stream, left: Expr, i: nat): (r: Result<Parsed<Expr>>)
    requires i < |s.items|
    ensures r.Ok? ==> i <= r.value.next < |s.items| && Kind(s, r.value.next) !in AdditionKinds
    decreases |s.items| - i, 3, 1
  {
    if Kind(s, i) in AdditionKinds then
      var step :- AdditionStep(s, left, i);
      AdditionFrom(s, step.node, step.next)
    else Ok(Parsed(left, i))
  }

  function AdditionStep(s: Stream, left: Expr, i: nat): (r: Result<Parsed<Expr>>)
    requires i < |s.items| && Kind(s, i) in AdditionKinds
    ensures r.Ok? ==> i < r.value.next < |s.items|
    decreases |s.items| - i, 3, 0
  {
    var op :- ExpectOneOf(s, i, AdditionKinds);
    var right :- ParseMultiply(s, op.next);
    BinaryOperator(op.node);
    Ok(Parsed(Binary(left, BinOpOf(op.node).value, right.node), right.next))
  }

  const MultiplyKinds: seq<TokenKind> := [ASTERISK, SLASH, PERCENT]

  /** multiply: exponents joined by `*`, `/` and `%`, left to right. */
  function ParseMultiply(s: Stream, i: nat): (r: Result<Parsed<Expr>>)
    requires i < |s.items|
    ensures r.Ok? ==> i < r.value.next < |s.items|
    decreases |s.items| - i, 2, 2
  {
    var left :- ParseExponent(s, i);
    MultiplyFrom(s, left.node, left.next)
  }

  function MultiplyFrom(s: Stream, left: Expr, i: nat): (r: Result<Parsed<Expr>>)
    requires i < |s.items|
    ensures r.Ok? ==> i <= r.value.next < |s.items| && Kind(s, r.value.next) !in MultiplyKinds
    decreases |s.items| - i, 2, 1
  {
    if Kind(s, i) in MultiplyKinds then
      var step :- MultiplyStep(s, left, i);
      MultiplyFrom(s, step.node, step.next)
    else Ok(Parsed(left, i))
  }

  function MultiplyStep(s: Stream, left: Expr, i: nat): (r: Result<Parsed<Expr>>)
    requires i < |s.items| && Kind(s, i) in MultiplyKinds
    ensures r.Ok? ==> i < r.value.next < |s.items|
    decreases |s.items| - i, 2, 0
  {
    var op :- ExpectOneOf(s, i, MultiplyKinds);
    var right :- ParseExponent(s, op.next);
    BinaryOperator(op.node);
    Ok(Parsed(Binary(left, BinOpOf(op.node).value, right.node), right.next))
  }

  /** Every operator token of the binary levels names a binary operator. */
  lemma BinaryOperator(k: TokenKind)
    requires k == OR || k == AND || k in ComparisonKinds || k in AdditionKinds || k in MultiplyKinds
    ensures BinOpOf(k).Some?
  {
  }

  /** exponent: primaries separated by `^`, collected and then folded to the right. */
  function ParseExponent(s: Stream, i: nat): (r: Result<Parsed<Expr>>)
    requires i < |s.items|
    ensures r.Ok? ==> i < r.value.next < |s.items|
    decreases |s.items| - i, 1, 1
  {
    var first :- ParsePrimary(s, i);
    var all :- ExponentsFrom(s, [first.node], first.next);
    Ok(Parsed(PowChain(all.node), all.next))
  }

  function ExponentsFrom(s: Stream, acc: seq<Expr>, i: nat): (r: Result<Parsed<seq<Expr>>>)
    requires i < |s.items|
    ensures r.Ok? ==> i <= r.value.next < |s.items| && Kind(s, r.value.next) != CARET
    ensures r.Ok? ==> |acc| <= |r.value.node|
    decreases |s.items| - i, 1, 0
  {
    if Kind(s, i) == CARET then
      var a :- Expect(s, i, CARET);
      var p :- ParsePrimary(s, a);
      ExponentsFrom(s, acc + [p.node], p.next)
    else Ok(Parsed(acc, i))
  }

  /** The fold at the end of `exponent`: the last operand is the innermost right operand. */
  function PowChain(es: seq<Expr>): (e: Expr)
    requires |es| > 0
  {
    if |es| == 1 then es[0] else Binary(es[0], Pow, PowChain(es[1..]))
  }

  const PrimaryKinds: seq<TokenKind> :=
    [INT_TYPE, FLOAT_TYPE, CHAR_TYPE, STR_TYPE, TRUE, FALSE, IDENT, NOT, PLUS, MINUS, PARLEFT]

  /** primary: a literal, a symbol, NOT over a whole comparison, unary `+`/`-` over one primary,
      or a parenthesised expression. */
  function ParsePrimary(s: Stream, i: nat): (r: Result<Parsed<Expr>>)
    requires i < |s.items|
    ensures r.Ok? ==> i < r.value.next < |s.items|
    decreases |s.items| - i, 0, 0
  {
    var w := Lexeme(s, i);
    var m :- ExpectOneOf(s, i, PrimaryKinds);
    PrimaryKindCases(m.node);
    match m.node
    case INT_TYPE => Ok(Parsed(Value(IntV(IntLiteral(w))), m.next))
    case FLOAT_TYPE => Ok(Parsed(Value(FloatV(FloatLiteral(w))), m.next))
    case CHAR_TYPE => Ok(Parsed(Value(CharV(Inner(w))), m.next))
    case STR_TYPE => Ok(Parsed(Value(StrV(Inner(w))), m.next))
    case TRUE => Ok(Parsed(Value(BoolV(true)), m.next))
    case FALSE => Ok(Parsed(Value(BoolV(false)), m.next))
    case IDENT => ParseSymbol(s, w, m.next)
    case NOT =>
      var c :- ParseComparison(s, m.next);
      Ok(Parsed(Unary(Not, c.node), c.next))
    case PLUS =>
      var p :- ParsePrimary(s, m.next);
      Ok(Parsed(Unary(Positive, p.node), p.next))
    case MINUS =>
      var p :- ParsePrimary(s, m.next);
      Ok(Parsed(Unary(Negative, p.node), p.next))
    case PARLEFT =>
      var e :- ParseExpression(s, m.next);
      var b :- Expect(s, e.next, PARRIGHT);
      Ok(Parsed(e.node, b))
  }

  lemma PrimaryKindCases(k: TokenKind)
    requires k in PrimaryKinds
    ensures || k == INT_TYPE || k == FLOAT_TYPE || k == CHAR_TYPE || k == STR_TYPE || k == TRUE
            || k == FALSE || k == IDENT || k == NOT || k == PLUS || k == MINUS || k == PARLEFT
  {
  }

  /** symbol: a name with an optional index. */
  function ParseSymbol(s: Stream, name: string, i: nat): (r: Result<Parsed<Expr>>)
    requires i < |s.items|
    ensures r.Ok? ==> i <= r.value.next < |s.items| && r.value.node.Symbol? && r.value.node.name == name
    decreases |s.items| - i, 7, 0
  {
    var index :- ParseIndex(s, i);
    Ok(Parsed(Symbol(name, index.node), index.next))
  }

  /** `[ expression ]`, or the null value node when no `[` follows: the index of a symbol or
      an assignment, and the size of a declared array. */
  function ParseIndex(s: Stream, i: nat): (r: Result<Parsed<Expr>>)
    requires i < |s.items|
    ensures r.Ok? ==> i <= r.value.next < |s.items|
    ensures Kind(s, i) != BRALEFT ==> r == Ok(Parsed(NoIndex, i))
    decreases |s.items| - i, 6, 0
  {
    if Kind(s, i) == BRALEFT then
      var a :- Expect(s, i, BRALEFT);
      var e :- ParseExpression(s, a);
      var b :- Expect(s, e.next, BRARIGHT);
      Ok(Parsed(e.node, b))
    else Ok(Parsed(NoIndex, i))
  }

  // ---------------------------------------------------------------- literal values

  function Digit(c: char): int {
    c as int - '0' as int
  }

  /** `Number(lexeme)` of an INT_TYPE lexeme, read as decimal digits. */
  function IntLiteral(w: string): int
  {
    if w == [] then 0 else 10 * IntLiteral(w[..|w| - 1]) + Digit(w[|w| - 1])
  }

  /** The position of the first `.` of a lexeme, or its length when there is none. */
  function PointAt(w: string): (d: nat)
    ensures d <= |w| && (d < |w| ==> w[d] == '.')
    ensures forall j | 0 <= j < d :: w[j] != '.'
  {
    if w == [] || w[0] == '.' then 0 else 1 + PointAt(w[1..])
  }

  /** `Number(lexeme)` of a FLOAT_TYPE lexeme, digits `.` digits, as an exact rational. */
  function FloatLiteral(w: string): real {
    var d := PointAt(w);
    if d == |w| then IntLiteral(w) as real
    else IntLiteral(w[..d]) as real + IntLiteral(w[d + 1..]) as real / Pow10(|w| - d - 1) as real
  }

  function Pow10(n: nat): (p: nat)
    ensures p > 0
  {
    if n == 0 then 1 else 10 * Pow10(n - 1)
  }

  /** `slice(1, -1)`: the text between the quotes of a CHAR_TYPE or STR_TYPE lexeme. */
  function Inner(w: string): string {
    if |w| < 2 then "" else w[1..|w| - 1]
  }
}

/** What the rules of modules/parser.ts promise about the trees they build: token matching,
    the end of a program, associativity and precedence of the expression levels, and the shape
    of declaration lines. */
module GrammarFacts {
  import opened Tokens
  import opened Errors
  import opened Values
  import opened Lexer
  import opened Ast
  import opened Grammar

  // ---------------------------------------------------------------- matching tokens

  /** match advances exactly one token when the kind is the expected one (or surfaces the
      scanning failure behind it), and otherwise fails naming both kinds without advancing. */
  lemma MatchAdvancesOne(s: Stream, i: nat, t: TokenKind)
    requires i < |s.items| && t != EOF
    ensures Kind(s, i) == t && i + 1 < |s.items| ==> Expect(s, i, t) == Ok(i + 1)
    ensures Kind(s, i) == t && i + 1 == |s.items| ==> s.failure.Some? && Expect(s, i, t) == Fail(s.failure.value)
    ensures Kind(s, i) != t ==> Expect(s, i, t) == Fail(Expected([t], Kind(s, i)))
  {
  }

  /** matchList consumes a token whose kind is in the list and returns that kind; any other
      kind fails naming the whole list. */
  lemma MatchListConsumes(s: Stream, i: nat, ts: seq<TokenKind>)
    requires i < |s.items| && EOF !in ts
    ensures Kind(s, i) in ts && i + 1 < |s.items| ==> ExpectOneOf(s, i, ts) == Ok(Parsed(Kind(s, i), i + 1))
    ensures Kind(s, i) !in ts ==> ExpectOneOf(s, i, ts) == Fail(Expected(ts, Kind(s, i)))
  {
  }

  /** parse returns the program exactly when the token after it is EOF; anything else after
      the final END and its newlines is a syntax error. */
  lemma ParseNeedsEof(s: Stream, i: nat)
    requires i < |s.items|
    ensures Parse(s, i).Ok? <==> ParseProgram(s, i).Ok? && Kind(s, ParseProgram(s, i).value.next) == EOF
    ensures Parse(s, i).Ok? ==> Parse(s, i).value == ParseProgram(s, i).value.node
    ensures ParseProgram(s, i).Ok? && Kind(s, ParseProgram(s, i).value.next) != EOF ==> Parse(s, i) == Fail(BadSyntax)
    ensures ParseProgram(s, i).Fail? ==> Parse(s, i) == Fail(ParseProgram(s, i).error)
  {
  }

  // ---------------------------------------------------------------- exponent

  /** `acc` put in front of the exponents a rule collected. */
  function Appended(acc: seq<Expr>, r: Result<Parsed<seq<Expr>>>): Result<Parsed<seq<Expr>>> {
    match r
    case Ok(p) => Ok(Parsed(acc + p.node, p.next))
    case Fail(e) => Fail(e)
  }

  /** The exponent loop only appends to what it has collected. */
  lemma {:induction false} ExponentsPrefix(s: Stream, acc: seq<Expr>, i: nat)
    requires i < |s.items|
    ensures ExponentsFrom(s, acc, i) == Appended(acc, ExponentsFrom(s, [], i))
    decreases |s.items| - i
  {
    if Kind(s, i) != CARET {
      assert acc + [] == acc;
    } else if i + 1 < |s.items| {
      var p := ParsePrimary(s, i + 1);
      ExponentsTurn(s, acc, i);
      ExponentsTurn(s, [], i);
      if p.Ok? {
        var e := p.value.node;
        var rest := ExponentsFrom(s, [], p.value.next);
        assert [] + [e] == [e];
        ExponentsPrefix(s, acc + [e], p.value.next);
        ExponentsPrefix(s, [e], p.value.next);
        assert ExponentsFrom(s, acc, i) == Appended(acc + [e], rest);
        assert ExponentsFrom(s, [], i) == Appended([e], rest);
        AppendedTwice(acc, e, rest);
      }
    }
  }

  /** One turn of the exponent loop: a `^` that is not the last token, then a primary. */
  lemma ExponentsTurn(s: Stream, acc: seq<Expr>, i: nat)
    requires i + 1 < |s.items| && Kind(s, i) == CARET
    ensures ParsePrimary(s, i + 1).Ok? ==>
      ExponentsFrom(s, acc, i) == ExponentsFrom(s, acc + [ParsePrimary(s, i + 1).value.node], ParsePrimary(s, i + 1).value.next)
    ensures ParsePrimary(s, i + 1).Fail? ==> ExponentsFrom(s, acc, i) == Fail(ParsePrimary(s, i + 1).error)
  {
  }

  lemma AppendedTwice(acc: seq<Expr>, e: Expr, r: Result<Parsed<seq<Expr>>>)
    ensures Appended(acc + [e], r) == Appended(acc, Appended([e], r))
  {
    if r.Ok? {
      assert acc + [e] + r.value.node == acc + ([e] + r.value.node);
    }
  }

  /** The exponents a rule collected, folded to the right as `exponent` does. */
  function Folded(r: Result<Parsed<seq<Expr>>>): Result<Parsed<Expr>>
    requires r.Ok? ==> |r.value.node| > 0
  {
    match r
    case Ok(p) => Ok(Parsed(PowChain(p.node), p.next))
    case Fail(e) => Fail(e)
  }

  /** `x` raised to the expression a rule read. */
  function Powered(x: Expr, r: Result<Parsed<Expr>>): Result<Parsed<Expr>> {
    match r
    case Ok(p) => Ok(Parsed(Binary(x, Pow, p.node), p.next))
    case Fail(e) => Fail(e)
  }

  /** `^` is right-associative. `exponent` reads a primary `x` and then, at a `^` at `j`,
      collects the rest of the chain and folds it to the right: the outcome is `x` raised to
      the whole exponent that starts after the `^`, never `x ^ y` raised further. */
  lemma ExponentRightNested(s: Stream, x: Expr, j: nat)
    requires j + 1 < |s.items| && Kind(s, j) == CARET
    ensures Folded(ExponentsFrom(s, [x], j)) == Powered(x, ParseExponent(s, j + 1))
  {
    ExponentsTurn(s, [x], j);
    var q := ParsePrimary(s, j + 1);
    if q.Ok? {
      var e := q.value.node;
      assert [x] + [e] == [x, e];
      var rest := ExponentsFrom(s, [], q.value.next);
      ExponentsPrefix(s, [x, e], q.value.next);
      ExponentsPrefix(s, [e], q.value.next);
      assert ExponentsFrom(s, [x], j) == Appended([x, e], rest);
      assert ParseExponent(s, j + 1) == Folded(Appended([e], rest));
      FoldedCons(x, e, rest);
    }
  }

  lemma FoldedCons(x: Expr, e: Expr, rest: Result<Parsed<seq<Expr>>>)
    ensures Folded(Appended([x, e], rest)) == Powered(x, Folded(Appended([e], rest)))
  {
    if rest.Ok? {
      var chain := [x, e] + rest.value.node;
      assert chain[1..] == [e] + rest.value.node;
    }
  }

  // ---------------------------------------------------------------- left-nested levels

  /** `e` is `base` with zero or more operators of `ops` applied on its right, each new one
      taking the previous tree as its left operand. */
  predicate LeftSpine(e: Expr, base: Expr, ops: set<BinOp>) {
    e == base || (e.Binary? && e.op in ops && LeftSpine(e.left, base, ops))
  }

  lemma {:induction false} SpineExtends(e: Expr, left: Expr, op: BinOp, right: Expr, ops: set<BinOp>)
    requires op in ops && LeftSpine(e, Binary(left, op, right), ops)
    ensures LeftSpine(e, left, ops)
  {
    if e != Binary(left, op, right) {
      SpineExtends(e.left, left, op, right, ops);
    }
  }

  /** `step` applies one operator of `ops` with `left` as its left operand. */
  predicate StepOnto(step: Expr, left: Expr, ops: set<BinOp>) {
    step.Binary? && step.left == left && step.op in ops
  }

  lemma AdditionStepOnto(s: Stream, left: Expr, i: nat)
    requires i < |s.items| && Kind(s, i) in AdditionKinds && AdditionStep(s, left, i).Ok?
    ensures StepOnto(AdditionStep(s, left, i).value.node, left, {Add, Sub, Concat})
  {
  }

  lemma MultiplyStepOnto(s: Stream, left: Expr, i: nat)
    requires i < |s.items| && Kind(s, i) in MultiplyKinds && MultiplyStep(s, left, i).Ok?
    ensures StepOnto(MultiplyStep(s, left, i).value.node, left, {Mul, Div, Mod})
  {
  }

  lemma ExpressionStepOnto(s: Stream, left: Expr, i: nat)
    requires i < |s.items| && (Kind(s, i) == OR || Kind(s, i) == AND) && ExpressionStep(s, left, i).Ok?
    ensures StepOnto(ExpressionStep(s, left, i).value.node, left, {And, Or})
  {
  }

  /** `+ - &` chains nest to the left: every operator joins everything before it. */
  lemma {:induction false} AdditionLeftNested(s: Stream, left: Expr, i: nat)
    requires i < |s.items|
    ensures AdditionFrom(s, left, i).Ok? ==> LeftSpine(AdditionFrom(s, left, i).value.node, left, {Add, Sub, Concat})
    decreases |s.items| - i
  {
    if Kind(s, i) in AdditionKinds {
      var step := AdditionStep(s, left, i);
      if step.Ok? {
        var e := step.value.node;
        AdditionStepOnto(s, left, i);
        AdditionLeftNested(s, e, step.value.next);
        var r := AdditionFrom(s, left, i);
        assert r == AdditionFrom(s, e, step.value.next);
        if r.Ok? {
          SpineExtends(r.value.node, left, e.op, e.right, {Add, Sub, Concat});
        }
      }
    }
  }

  /** `* / %` chains nest to the left. */
  lemma {:induction false} MultiplyLeftNested(s: Stream, left: Expr, i: nat)
    requires i < |s.items|
    ensures MultiplyFrom(s, left, i).Ok? ==> LeftSpine(MultiplyFrom(s, left, i).value.node, left, {Mul, Div, Mod})
    decreases |s.items| - i
  {
    if Kind(s, i) in MultiplyKinds {
      var step := MultiplyStep(s, left, i);
      if step.Ok? {
        var e := step.value.node;
        MultiplyStepOnto(s, left, i);
        MultiplyLeftNested(s, e, step.value.next);
        var r := MultiplyFrom(s, left, i);
        assert r == MultiplyFrom(s, e, step.value.next);
        if r.Ok? {
          SpineExtends(r.value.node, left, e.op, e.right, {Mul, Div, Mod});
        }
      }
    }
  }

  /** AND and OR share one level and nest to the left. */
  lemma {:induction false} ExpressionLeftNested(s: Stream, left: Expr, i: nat)
    requires i < |s.items|
    ensures ExpressionFrom(s, left, i).Ok? ==> LeftSpine(ExpressionFrom(s, left, i).value.node, left, {And, Or})
    decreases |s.items| - i
  {
    if Kind(s, i) == OR || Kind(s, i) == AND {
      var step := ExpressionStep(s, left, i);
      if step.Ok? {
        var e := step.value.node;
        ExpressionStepOnto(s, left, i);
        ExpressionLeftNested(s, e, step.value.next);
        var r := ExpressionFrom(s, left, i);
        assert r == ExpressionFrom(s, e, step.value.next);
        if r.Ok? {
          SpineExtends(r.value.node, left, e.op, e.right, {And, Or});
        }
      }
    }
  }

  // ---------------------------------------------------------------- comparison

  /** The place of a comparison operator in the list `comparison` walks. */
  function CmpIndex(op: BinOp): nat {
    match op
    case Equal => 0
    case NotEqual => 1
    case Greater => 2
    case GreaterEq => 3
    case Less => 4
    case LessEq => 5
    case _ => 6
  }

  /** `e` is `base` with comparison operators applied on its right whose places in the list
      lie in [lo, hi) and strictly increase from the innermost to the outermost. */
  predicate Ascending(e: Expr, base: Expr, lo: nat, hi: nat) {
    e == base || (e.Binary? && lo <= CmpIndex(e.op) < hi && Ascending(e.left, base, lo, CmpIndex(e.op)))
  }

  lemma {:induction false} AscendingWeaken(e: Expr, base: Expr, lo: nat, hi: nat)
    requires Ascending(e, base, lo + 1, hi)
    ensures Ascending(e, base, lo, hi)
  {
    if e != base {
      AscendingWeaken(e.left, base, lo, CmpIndex(e.op));
    }
  }

  lemma {:induction false} AscendingExtend(e: Expr, left: Expr, k: nat, right: Expr, hi: nat)
    requires k < |ComparisonKinds| && k < hi
    requires Ascending(e, Binary(left, BinOpOf(ComparisonKinds[k]).value, right), k + 1, hi)
    ensures Ascending(e, left, k, hi)
  {
    if e != Binary(left, BinOpOf(ComparisonKinds[k]).value, right) {
      AscendingExtend(e.left, left, k, right, CmpIndex(e.op));
    }
  }

  /** comparison applies each of `== != > >= < <=` at most once and in that order, so
      `a == b == c` is not a chain: the second `==` is left for the caller. */
  lemma {:induction false} ComparisonOnceEach(s: Stream, left: Expr, i: nat, k: nat)
    requires i < |s.items| && k <= |ComparisonKinds|
    ensures ComparisonFrom(s, left, i, k).Ok? ==> Ascending(ComparisonFrom(s, left, i, k).value.node, left, k, |ComparisonKinds|)
    decreases |ComparisonKinds| - k
  {
    if k < |ComparisonKinds| {
      var step := ComparisonStep(s, left, i, k);
      if step.Ok? {
        var x := step.value.node;
        ComparisonStepShape(s, left, i, k);
        ComparisonOnceEach(s, x, step.value.next, k + 1);
        var r := ComparisonFrom(s, left, i, k);
        assert r == ComparisonFrom(s, x, step.value.next, k + 1);
        if r.Ok? {
          if x == left {
            AscendingWeaken(r.value.node, left, k, |ComparisonKinds|);
          } else {
            assert x == Binary(left, BinOpOf(ComparisonKinds[k]).value, x.right);
            AscendingExtend(r.value.node, left, k, x.right, |ComparisonKinds|);
          }
        }
      }
    }
  }

  /** One turn of `comparison` either leaves the operand alone or applies the `k`-th operator
      to it. */
  lemma ComparisonStepShape(s: Stream, left: Expr, i: nat, k: nat)
    requires i < |s.items| && k < |ComparisonKinds| && ComparisonStep(s, left, i, k).Ok?
    ensures ComparisonStep(s, left, i, k).value.node != left ==>
      && ComparisonStep(s, left, i, k).value.node.Binary?
      && ComparisonStep(s, left, i, k).value.node.left == left
      && BinOpOf(ComparisonKinds[k]) == Some(ComparisonStep(s, left, i, k).value.node.op)
  {
    var t := ComparisonKinds[k];
    if Kind(s, i) == t {
      var a := Expect(s, i, t).value;
      var right := ParseAddition(s, a).value;
      BinaryOperator(t);
      assert ComparisonStep(s, left, i, k) == Ok(Parsed(Binary(left, BinOpOf(t).value, right.node), right.next));
    }
  }

  // ---------------------------------------------------------------- primary

  /** NOT takes a whole comparison as its operand. */
  lemma NotTakesComparison(s: Stream, i: nat)
    requires i + 1 < |s.items| && Kind(s, i) == NOT
    ensures ParsePrimary(s, i) == (var c :- ParseComparison(s, i + 1); Ok(Parsed(Unary(Not, c.node), c.next)))
  {
  }

  /** Unary `-` and `+` take a single primary as their operand. */
  lemma SignTakesPrimary(s: Stream, i: nat)
    requires i + 1 < |s.items| && (Kind(s, i) == MINUS || Kind(s, i) == PLUS)
    ensures ParsePrimary(s, i) ==
      (var p :- ParsePrimary(s, i + 1);
       Ok(Parsed(Unary(if Kind(s, i) == MINUS then Negative else Positive, p.node), p.next)))
  {
  }

  // ---------------------------------------------------------------- declarations

  /** From token `i` on, each of `names` is an identifier preceded by a comma. */
  predicate CommaNames(s: Stream, i: nat, names: seq<string>)
    decreases |names|
  {
    || names == []
    || (&& i + 1 < |s.items|
        && Kind(s, i) == COMMA && Kind(s, i + 1) == IDENT
        && names[0] == Lexeme(s, i + 1)
        && CommaNames(s, i + 2, names[1..]))
  }

  lemma CommaNamesCons(s: Stream, i: nat, rest: seq<string>)
    requires i + 1 < |s.items| && Kind(s, i) == COMMA && Kind(s, i + 1) == IDENT
    requires CommaNames(s, i + 2, rest)
    ensures CommaNames(s, i, [Lexeme(s, i + 1)] + rest)
  {
    assert ([Lexeme(s, i + 1)] + rest)[1..] == rest;
  }

  /** The `m`-th of those names sits at token `i + 2 * m + 1`, after its comma. */
  lemma {:induction false} CommaNameAt(s: Stream, i: nat, names: seq<string>, m: nat)
    requires CommaNames(s, i, names) && m < |names|
    ensures i + 2 * m + 1 < |s.items|
    ensures Kind(s, i + 2 * m) == COMMA && Kind(s, i + 2 * m + 1) == IDENT
    ensures names[m] == Lexeme(s, i + 2 * m + 1)
    decreases m
  {
    if m > 0 {
      CommaNameAt(s, i + 2, names[1..], m - 1);
      assert names[1..][m - 1] == names[m];
    }
  }

  /** `p` extends `acc` with names that each follow a comma, from token `i` to `p.next`. */
  predicate NamesTail(s: Stream, i: nat, acc: seq<string>, p: Parsed<seq<string>>) {
    && |acc| <= |p.node| && p.node[..|acc|] == acc
    && p.next == i + 2 * (|p.node| - |acc|)
    && CommaNames(s, i, p.node[|acc|..])
  }

  /** The names after the first one: a comma and an identifier each, in source order. */
  lemma {:induction false} NamesInOrder(s: Stream, i: nat, acc: seq<string>)
    requires i < |s.items|
    ensures NamesFrom(s, i, acc).Ok? ==> NamesTail(s, i, acc, NamesFrom(s, i, acc).value)
    decreases |s.items| - i
  {
    var r := NamesFrom(s, i, acc);
    if r.Ok? {
      if Kind(s, i) == COMMA {
        var name := Lexeme(s, i + 1);
        assert r == NamesFrom(s, i + 2, acc + [name]);
        NamesInOrder(s, i + 2, acc + [name]);
        TailCons(s, i, acc, name, r.value);
      } else {
        assert r.value == Parsed(acc, i);
        assert acc[|acc|..] == [];
      }
    }
  }

  lemma TailCons(s: Stream, i: nat, acc: seq<string>, name: string, p: Parsed<seq<string>>)
    requires i + 1 < |s.items| && Kind(s, i) == COMMA && Kind(s, i + 1) == IDENT && name == Lexeme(s, i + 1)
    requires NamesTail(s, i + 2, acc + [name], p)
    ensures NamesTail(s, i, acc, p)
  {
    var names := p.node;
    var acc' := acc + [name];
    assert names[..|acc|] == names[..|acc'|][..|acc|];
    assert names[|acc|..] == [name] + names[|acc'|..] by {
      assert names[|acc|] == names[..|acc'|][|acc|] == name;
    }
    CommaNamesCons(s, i, names[|acc'|..]);
  }

  /** The names of a declaration line are the identifiers at every second token, separated
      by commas, in source order. */
  predicate IdentsAt(s: Stream, i: nat, p: Parsed<seq<string>>) {
    && p.next == i + 2 * |p.node| - 1 && p.next < |s.items|
    && forall j | 0 <= j < |p.node| ::
         && Kind(s, i + 2 * j) == IDENT
         && p.node[j] == Lexeme(s, i + 2 * j)
         && (0 < j ==> Kind(s, i + 2 * j - 1) == COMMA)
  }

  /** `names` reads exactly such a list. */
  lemma NamesShape(s: Stream, i: nat)
    requires i < |s.items|
    ensures ParseNames(s, i).Ok? ==> IdentsAt(s, i, ParseNames(s, i).value)
  {
    var r := ParseNames(s, i);
    if r.Ok? {
      var first := [Lexeme(s, i)];
      assert Kind(s, i) == IDENT;
      assert r == NamesFrom(s, i + 1, first);
      NamesInOrder(s, i + 1, first);
      IdentsFromTail(s, i, first, r.value);
    }
  }

  lemma IdentsFromTail(s: Stream, i: nat, first: seq<string>, p: Parsed<seq<string>>)
    requires i < |s.items| && Kind(s, i) == IDENT && first == [Lexeme(s, i)]
    requires p.next < |s.items| && NamesTail(s, i + 1, first, p)
    ensures IdentsAt(s, i, p)
  {
    var names := p.node;
    forall j | 0 <= j < |names|
      ensures Kind(s, i + 2 * j) == IDENT && names[j] == Lexeme(s, i + 2 * j)
      ensures 0 < j ==> Kind(s, i + 2 * j - 1) == COMMA
    {
      if j == 0 {
        assert names[0] == names[..1][0] == first[0];
      } else {
        var tail := names[1..];
        var m := j - 1;
        assert tail[m] == names[j];
        CommaNameAt(s, i + 1, tail, m);
      }
    }
  }

  /** The shape of a declaration line `a, b : T [e]` that starts at token `i` and ends before
      `next`: one variable per identifier, in source order, all of type T and all with the same
      size expression; with no `[`, the size is the null value node. */
  predicate LineShape(s: Stream, i: nat, decls: seq<VariableDecl>, next: nat) {
    && i + 2 * |decls| + 1 < next <= |s.items|
    && LineNames(s, i, decls)
    && LineType(s, i, decls)
  }

  predicate LineNames(s: Stream, i: nat, decls: seq<VariableDecl>)
    requires i + 2 * |decls| < |s.items|
  {
    && |decls| > 0
    && (forall j | 0 <= j < |decls| ::
         && Kind(s, i + 2 * j) == IDENT
         && decls[j] == VariableDecl(Lexeme(s, i + 2 * j), decls[0].typ, decls[0].size))
  }

  predicate LineType(s: Stream, i: nat, decls: seq<VariableDecl>)
    requires 0 < |decls| && i + 2 * |decls| + 1 < |s.items|
  {
    && Kind(s, i + 2 * |decls| - 1) == COLON
    && decls[0].typ == TagOf(Kind(s, i + 2 * |decls|))
    && (Kind(s, i + 2 * |decls| + 1) != BRALEFT ==> decls[0].size == NoIndex)
  }

  /** Every declaration line that parses has that shape. */
  lemma DeclarationLineShape(s: Stream, i: nat)
    requires i < |s.items|
    ensures ParseDeclarationLine(s, i).Ok? ==>
      LineShape(s, i, ParseDeclarationLine(s, i).value.node, ParseDeclarationLine(s, i).value.next)
  {
    var names := ParseNames(s, i);
    if names.Ok? {
      var c := Expect(s, names.value.next, COLON);
      if c.Ok? {
        var t := ParseType(s, c.value);
        if t.Ok? {
          var size := ParseIndex(s, t.value.next);
          if size.Ok? {
            var n := ParseNewline(s, size.value.next, true);
            if n.Ok? {
              var decls := Declarations(names.value.node, t.value.node, size.value.node);
              assert ParseDeclarationLine(s, i) == Ok(Parsed(decls, n.value));
              NamesPart(s, i, names.value, decls, t.value.node, size.value.node);
              TypeTagOf(s, c.value);
              TypePart(s, i, names.value, c.value, t.value, size.value.node, decls);
            }
          }
        }
      }
    }
  }

  lemma NamesPart(s: Stream, i: nat, names: Parsed<seq<string>>, decls: seq<VariableDecl>, typ: TypeTag, size: Expr)
    requires i < |s.items| && ParseNames(s, i) == Ok(names)
    requires names.next + 1 < |s.items| && Kind(s, names.next) == COLON
    requires decls == Declarations(names.node, typ, size)
    ensures i + 2 * |decls| - 1 == names.next
    ensures LineNames(s, i, decls)
  {
    NamesShape(s, i);
    forall j | 0 <= j < |decls|
      ensures Kind(s, i + 2 * j) == IDENT
      ensures decls[j] == VariableDecl(Lexeme(s, i + 2 * j), decls[0].typ, decls[0].size)
    {
      assert decls[j] == VariableDecl(names.node[j], typ, size);
    }
  }

  lemma TypePart(s: Stream, i: nat, names: Parsed<seq<string>>, c: nat, t: Parsed<TypeTag>, size: Expr, decls: seq<VariableDecl>)
    requires names.next < |s.items| && Kind(s, names.next) == COLON && c == names.next + 1
    requires c < |s.items| && t.node == TagOf(Kind(s, c)) && t.next == c + 1
    requires t.next < |s.items| && (Kind(s, t.next) != BRALEFT ==> size == NoIndex)
    requires decls == Declarations(names.node, t.node, size)
    requires 0 < |decls| && i + 2 * |decls| - 1 == names.next
    ensures LineType(s, i, decls)
  {
    assert c == names.next + 1 == i + 2 * |decls|;
    assert t.next == c + 1;
    assert decls[0] == VariableDecl(names.node[0], t.node, size);
  }

  /** A type keyword declares its own type tag. */
  lemma TypeTagOf(s: Stream, c: nat)
    requires c < |s.items| && ParseType(s, c).Ok?
    ensures ParseType(s, c).value.node == TagOf(Kind(s, c))
  {
  }
}

/** What the operator rules of modules/interpreter.ts promise, stated over the functions of
    module Values. */
module ValueFacts {
  import opened Tokens
  import opened Errors
  import opened Values

  /** typecast keeps the JavaScript truthiness of every value, yields BOOL_TYPE exactly for
      numbers and texts, and a second typecast changes nothing. */
  lemma TypecastKeepsTruth(v: Val)
    ensures Truthy(Typecast(v)) == Truthy(v)
    ensures Tag(Typecast(v)) == (if IsNumber(v) || IsText(v) then BoolType else Tag(v))
    ensures !(IsNumber(v) || IsText(v)) ==> Typecast(v) == v
    ensures Typecast(Typecast(v)) == Typecast(v)
  {
  }

  /** Integer division and remainder truncate toward zero: the remainder has the sign of the
      dividend, is smaller than the divisor in magnitude, and completes the division. */
  lemma TruncDivRem(a: int, b: int)
    requires b != 0
    ensures a == b * TruncDiv(a, b) + JsRem(a, b)
    ensures Abs(JsRem(a, b)) < Abs(b)
    ensures 0 <= a ==> 0 <= JsRem(a, b)
    ensures a <= 0 ==> JsRem(a, b) <= 0
  {
    var q, r := Abs(a) / Abs(b), Abs(a) % Abs(b);
    SignedDivision(a, b, q, r);
  }

  /** Giving the quotient and remainder of the magnitudes the signs the truncating operators
      give them still completes the division. */
  lemma SignedDivision(a: int, b: int, q: int, r: int)
    requires b != 0 && Abs(a) == Abs(b) * q + r
    ensures a == b * (if (a < 0) == (b < 0) then q else -q) + (if a < 0 then -r else r)
  {
    if a < 0 && b < 0 {
      assert b * q == -(Abs(b) * q);
    } else if a < 0 {
      assert b * -q == -(Abs(b) * q);
    } else if b < 0 {
      assert b * -q == Abs(b) * q;
    }
  }

  /** The source's `/` and `%` on INT_TYPE are not Dafny's Euclidean ones. */
  lemma TruncationDiffers()
    ensures TruncDiv(-7, 2) == -3 && -7 / 2 == -4
    ensures JsRem(-7, 2) == -1 && -7 % 2 == 1
    ensures TruncDiv(7, -2) == -3 && JsRem(7, -2) == 1
  {
  }

  /** INT_TYPE `/` and `%` on a non-zero divisor give the truncated quotient and the remainder
      that completes it. */
  lemma IntDivisionTruncates(a: int, b: int, collate: (string, string) -> int)
    requires b != 0
    ensures Binary(Div, IntV(a), IntV(b), collate).Ok? && Binary(Mod, IntV(a), IntV(b), collate).Ok?
    ensures var q := Binary(Div, IntV(a), IntV(b), collate).value;
            var r := Binary(Mod, IntV(a), IntV(b), collate).value;
      && q.IntV? && r.IntV?
      && a == b * q.i + r.i && Abs(r.i) < Abs(b)
      && (0 <= a ==> 0 <= r.i) && (a <= 0 ==> r.i <= 0)
  {
    TruncDivRem(a, b);
  }

  /** `+ - * / ^` are rejected exactly when the operands are not both INT_TYPE and neither is
      FLOAT_TYPE; otherwise the result is INT_TYPE for two INT_TYPE operands and FLOAT_TYPE
      when either is FLOAT_TYPE. */
  lemma ArithTyping(op: BinOp, l: Val, r: Val, collate: (string, string) -> int)
    requires IsArith(op)
    ensures var res := Binary(op, l, r, collate);
      && (res == Fail(InvalidExpression) <==> !(l.IntV? && r.IntV?) && !(l.FloatV? || r.FloatV?))
      && (res.Ok? && l.IntV? && r.IntV? ==> res.value.IntV?)
      && (res.Ok? && (l.FloatV? || r.FloatV?) ==> res.value.FloatV?)
      && (l.IntV? && r.IntV? && (op == Add || op == Sub || op == Mul) ==> res.Ok?)
  {
  }

  /** The sum, difference and product of two integers are exact. */
  lemma IntArithExact(a: int, b: int, collate: (string, string) -> int)
    ensures Binary(Add, IntV(a), IntV(b), collate) == Ok(IntV(a + b))
    ensures Binary(Sub, IntV(a), IntV(b), collate) == Ok(IntV(a - b))
    ensures Binary(Mul, IntV(a), IntV(b), collate) == Ok(IntV(a * b))
  {
  }

  /** `%` is rejected exactly when an operand is not INT_TYPE. */
  lemma ModNeedsInts(l: Val, r: Val, collate: (string, string) -> int)
    ensures Binary(Mod, l, r, collate) == Fail(InvalidExpression) <==> !(l.IntV? && r.IntV?)
  {
  }

  /** `&` joins two texts into a STR_TYPE and rejects anything else. */
  lemma ConcatJoins(l: Val, r: Val, collate: (string, string) -> int)
    ensures IsText(l) && IsText(r) ==> Binary(Concat, l, r, collate) == Ok(StrV(Text(l) + Text(r)))
    ensures !(IsText(l) && IsText(r)) ==> Binary(Concat, l, r, collate) == Fail(InvalidExpression)
  {
  }

  /** `==` and `!=` never fail and always disagree; across type families `==` is false and
      `!=` is true, while the ordering operators reject such pairs. */
  lemma EqualityAcrossFamilies(l: Val, r: Val, op: BinOp, collate: (string, string) -> int)
    requires IsOrdering(op)
    ensures Binary(Equal, l, r, collate).Ok? && Binary(Equal, l, r, collate).value.BoolV?
    ensures Binary(NotEqual, l, r, collate) == Ok(BoolV(!Binary(Equal, l, r, collate).value.b))
    ensures SameFamilyEqual(l, r).None? ==>
      && Binary(Equal, l, r, collate) == Ok(BoolV(false))
      && Binary(op, l, r, collate).Fail?
    ensures Binary(op, l, r, collate).Fail? ==> Binary(op, l, r, collate).error == InvalidExpression
  {
  }

  /** A whole-array value is not even equal to itself, because `==` only compares numbers,
      texts and booleans. */
  lemma ArraysNeverEqual(v: Val, collate: (string, string) -> int)
    requires v.ArrV?
    ensures Binary(Equal, v, v, collate) == Ok(BoolV(false))
  {
  }

  /** On numbers the ordering operators are the mirror images and complements of each other. */
  lemma NumberOrdering(l: Val, r: Val, collate: (string, string) -> int)
    requires IsNumber(l) && IsNumber(r)
    ensures Binary(Greater, l, r, collate) == Binary(Less, r, l, collate)
    ensures Binary(GreaterEq, l, r, collate) == Binary(LessEq, r, l, collate)
    ensures Binary(GreaterEq, l, r, collate) == Ok(BoolV(!Binary(Less, l, r, collate).value.b))
  {
  }

  /** AND and OR coerce both operands and combine their truth; they never look at whether the
      left operand alone decides the result. */
  lemma AndOrTruth(l: Val, r: Val, collate: (string, string) -> int)
    requires Typecast(l).BoolV? && Typecast(r).BoolV?
    ensures Binary(And, l, r, collate) == Ok(BoolV(Holds(l) && Holds(r)))
    ensures Binary(Or, l, r, collate) == Ok(BoolV(Holds(l) || Holds(r)))
  {
  }

  /** NOT negates the coerced truth of its operand; unary `+` returns it unchanged; unary `-`
      checks no type and negates numbers. */
  lemma UnaryMeaning(v: Val)
    ensures Typecast(v).BoolV? ==> Unary(Not, v) == Ok(BoolV(!Holds(v)))
    ensures Unary(Positive, v) == Ok(v)
    ensures IsNumber(v) ==> Unary(Negative, v).Ok? && Tag(Unary(Negative, v).value) == Tag(v)
    ensures IsNumber(v) ==> Unary(Negative, Unary(Negative, v).value) == Ok(v)
    ensures IsNumber(v) ==> NumOf(Unary(Negative, v).value).value == -NumOf(v).value
  {
  }

  /** Powers add up their exponents. */
  lemma {:induction false} IntPowAdds(b: int, e1: nat, e2: nat)
    ensures IntPow(b, e1 + e2) == IntPow(b, e1) * IntPow(b, e2)
    decreases e1
  {
    if e1 > 0 {
      IntPowAdds(b, e1 - 1, e2);
      calc {
        IntPow(b, e1 + e2);
        b * IntPow(b, e1 - 1 + e2);
        b * (IntPow(b, e1 - 1) * IntPow(b, e2));
        (b * IntPow(b, e1 - 1)) * IntPow(b, e2);
      }
    }
  }
}

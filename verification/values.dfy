/** Runtime values of the interpreter (modules/interpreter.ts): the (value, type) pairs that
    evaluation produces, `typecast`, and the typing and arithmetic rules of the unary and
    binary operators. A value carries its type: the tag of a pair is `Tag(v)`.

    The source computes on JavaScript numbers, strings and booleans. Where it forms a pair
    whose JavaScript value does not fit the tag it carries (a number added to a string under
    FLOAT_TYPE, a negated string, a division by zero, a fractional power of INT_TYPE), the
    model stops with the model-only error `Unmodelled` instead of inventing that value. */
module Values {
  import opened Tokens
  import opened Errors

  datatype Val =
    | IntV(i: int)
    | FloatV(x: real)
    | CharV(c: string)
    | StrV(s: string)
    | BoolV(b: bool)
      // a whole array read as one value: its present elements, in order
    | ArrV(elems: seq<Val>)
    | NullV

  function Tag(v: Val): TypeTag {
    match v
    case IntV(_) => IntType
    case FloatV(_) => FloatType
    case CharV(_) => CharType
    case StrV(_) => StrType
    case BoolV(_) => BoolType
    case ArrV(_) => ArrType
    case NullV => NullType
  }

  predicate IsNumber(v: Val) {
    v.IntV? || v.FloatV?
  }

  predicate IsText(v: Val) {
    v.CharV? || v.StrV?
  }

  /** The text of a CHAR_TYPE or STR_TYPE value. */
  function Text(v: Val): string
    requires IsText(v)
  {
    if v.CharV? then v.c else v.s
  }

  /** The number JavaScript arithmetic reads from a value, when it is one the model computes
      with: numbers themselves, booleans as 1 and 0, null as 0. */
  function NumOf(v: Val): Option<real> {
    match v
    case IntV(i) => Some(i as real)
    case FloatV(x) => Some(x)
    case BoolV(b) => Some(if b then 1.0 else 0.0)
    case NullV => Some(0.0)
    case _ => None
  }

  /** typecast: numbers and texts become BOOL_TYPE (non-zero, non-empty); every other value,
      BOOL_TYPE included, is returned unchanged. */
  function Typecast(v: Val): Val {
    match v
    case IntV(i) => BoolV(i != 0)
    case FloatV(x) => BoolV(x != 0.0)
    case CharV(c) => BoolV(c != "")
    case StrV(s) => BoolV(s != "")
    case _ => v
  }

  /** JavaScript truthiness of a value that has been through `typecast`: a rendered array is a
      non-empty string, so it is true; null is false. */
  function Truthy(v: Val): bool {
    match v
    case BoolV(b) => b
    case ArrV(_) => true
    case NullV => false
    case IntV(i) => i != 0
    case FloatV(x) => x != 0.0
    case CharV(c) => c != ""
    case StrV(s) => s != ""
  }

  /** The test an IF, WHILE or REPEAT applies to its condition. */
  function Holds(v: Val): bool {
    Truthy(Typecast(v))
  }

  /** `Math.trunc(a / b)`: integer division rounded toward zero. */
  function TruncDiv(a: int, b: int): int
    requires b != 0
  {
    var q := Abs(a) / Abs(b);
    if (a < 0) == (b < 0) then q else -q
  }

  /** JavaScript `a % b` on integers: the remainder takes the sign of the dividend. */
  function JsRem(a: int, b: int): int
    requires b != 0
  {
    var r := Abs(a) % Abs(b);
    if a < 0 then -r else r
  }

  function Abs(a: int): nat {
    if a < 0 then -a else a
  }

  /** `Math.pow` on an integer base and a non-negative integer exponent. */
  function IntPow(b: int, e: nat): int {
    if e == 0 then 1 else b * IntPow(b, e - 1)
  }

  function RealPow(b: real, e: nat): real {
    if e == 0 then 1.0 else b * RealPow(b, e - 1)
  }

  datatype UnOp = Not | Positive | Negative

  datatype BinOp =
    | And | Or
    | Equal | NotEqual | Greater | GreaterEq | Less | LessEq
    | Add | Sub | Mul | Div | Pow | Mod | Concat

  /** The operators whose result is INT_TYPE for two INT_TYPE operands and FLOAT_TYPE when
      either operand is FLOAT_TYPE. */
  predicate IsArith(op: BinOp) {
    op == Add || op == Sub || op == Mul || op == Div || op == Pow
  }

  predicate IsOrdering(op: BinOp) {
    op == Greater || op == GreaterEq || op == Less || op == LessEq
  }

  /** The UNARY case of visit. */
  function Unary(op: UnOp, v: Val): Result<Val> {
    match op
    case Not =>
      var c := Typecast(v);
      if c.BoolV? then Ok(BoolV(!c.b)) else Fail(Unmodelled)
    case Positive => Ok(v)
    case Negative =>
      match v
      case IntV(i) => Ok(IntV(-i))
      case FloatV(x) => Ok(FloatV(-x))
      case _ => Fail(Unmodelled)
  }

  /** `+ - * / ^` once the operand types have been checked. */
  function IntArith(op: BinOp, a: int, b: int): Result<Val>
    requires IsArith(op)
  {
    match op
    case Add => Ok(IntV(a + b))
    case Sub => Ok(IntV(a - b))
    case Mul => Ok(IntV(a * b))
    case Div => if b == 0 then Fail(Unmodelled) else Ok(IntV(TruncDiv(a, b)))
    case Pow => if b < 0 then Fail(Unmodelled) else Ok(IntV(IntPow(a, b)))
  }

  function FloatArith(op: BinOp, x: real, y: real): Result<Val>
    requires IsArith(op)
  {
    match op
    case Add => Ok(FloatV(x + y))
    case Sub => Ok(FloatV(x - y))
    case Mul => Ok(FloatV(x * y))
    case Div => if y == 0.0 then Fail(Unmodelled) else Ok(FloatV(x / y))
    case Pow =>
      if y < 0.0 || y != y.Floor as real then Fail(Unmodelled)
      else Ok(FloatV(RealPow(x, y.Floor)))
  }

  /** JavaScript `==` on two operands of the same family. */
  function SameFamilyEqual(l: Val, r: Val): Option<bool> {
    if IsNumber(l) && IsNumber(r) then Some(NumOf(l) == NumOf(r))
    else if IsText(l) && IsText(r) then Some(Text(l) == Text(r))
    else if l.BoolV? && r.BoolV? then Some(l.b == r.b)
    else None
  }

  /** The four ordering tests; texts are ordered by the comparator that stands for
      `localeCompare`, whose result the source tests against exactly 1, 0 and -1. */
  function Order(op: BinOp, l: Val, r: Val, collate: (string, string) -> int): Result<Val>
    requires IsOrdering(op)
  {
    if IsNumber(l) && IsNumber(r) then
      var x := NumOf(l).value;
      var y := NumOf(r).value;
      Ok(BoolV(match op
        case Greater => x > y
        case GreaterEq => x >= y
        case Less => x < y
        case LessEq => x <= y))
    else if IsText(l) && IsText(r) then
      var c := collate(Text(l), Text(r));
      Ok(BoolV(match op
        case Greater => c == 1
        case GreaterEq => c == 1 || c == 0
        case Less => c == -1
        case LessEq => c == -1 || c == 0))
    else Fail(InvalidExpression)
  }

  /** The BINARY case of visit, once both operands have been evaluated. */
  function Binary(op: BinOp, l: Val, r: Val, collate: (string, string) -> int): Result<Val> {
    match op
    case And =>
      var a := Typecast(l);
      var b := Typecast(r);
      var v := if Truthy(a) then b else a;
      if v.BoolV? then Ok(v) else Fail(Unmodelled)
    case Or =>
      var a := Typecast(l);
      var b := Typecast(r);
      var v := if Truthy(a) then a else b;
      if v.BoolV? then Ok(v) else Fail(Unmodelled)
    case Equal =>
      var e := SameFamilyEqual(l, r);
      Ok(BoolV(e.Some? && e.value))
    case NotEqual =>
      var e := SameFamilyEqual(l, r);
      Ok(BoolV(e.None? || !e.value))
    case Greater => Order(op, l, r, collate)
    case GreaterEq => Order(op, l, r, collate)
    case Less => Order(op, l, r, collate)
    case LessEq => Order(op, l, r, collate)
    case Mod =>
      if l.IntV? && r.IntV? then
        if r.i == 0 then Fail(Unmodelled) else Ok(IntV(JsRem(l.i, r.i)))
      else Fail(InvalidExpression)
    case Concat =>
      if IsText(l) && IsText(r) then Ok(StrV(Text(l) + Text(r))) else Fail(InvalidExpression)
    case _ =>
      if l.IntV? && r.IntV? then IntArith(op, l.i, r.i)
      else if l.FloatV? || r.FloatV? then
        if NumOf(l).Some? && NumOf(r).Some? then FloatArith(op, NumOf(l).value, NumOf(r).value)
        else Fail(Unmodelled)
      else Fail(InvalidExpression)
  }
}

/** The syntax tree the parser builds (the node classes of modules/parser.ts). A compound
    statement is the sequence of its children; the null value node that stands for a missing
    index or array size is `Value(NullV)`; a SWITCH without DEFAULT has `NoFallback`. */
module Ast {
  import opened Tokens
  import opened Values

  datatype Expr =
    | Binary(left: Expr, op: BinOp, right: Expr)
    | Unary(uop: UnOp, child: Expr)
    | Value(v: Val)
    | Symbol(name: string, index: Expr)

  datatype Stmt =
    | Assign(target: string, index: Expr, value: Expr)
    | Print(values: seq<Expr>)
    | If(cond: Expr, thenPart: seq<Stmt>, elsePart: seq<Stmt>)
    | While(cond: Expr, body: seq<Stmt>)
    | For(counter: string, from: Expr, to: Expr, step: Expr, body: seq<Stmt>)
    | Repeat(until: Expr, body: seq<Stmt>)
    | Switch(subject: Expr, cases: seq<Case>, default: Fallback)
    | Resize(array: string, size: Expr)

  datatype Case = Case(value: Expr, body: seq<Stmt>)

  /** The DEFAULT part of a SWITCH, or its absence. */
  datatype Fallback = NoFallback | Fallback(body: seq<Stmt>)

  datatype ConstantDecl = ConstantDecl(name: string, value: Expr)

  datatype VariableDecl = VariableDecl(name: string, typ: TypeTag, size: Expr)

  datatype Declare = Declare(constants: seq<ConstantDecl>, variables: seq<VariableDecl>)

  datatype Program = Program(declare: Declare, body: seq<Stmt>)

  /** The null value node. */
  const NoIndex: Expr := Value(NullV)

  /** The binary operator an operator token stands for. */
  function BinOpOf(k: TokenKind): Option<BinOp> {
    match k
    case AND => Some(And)
    case OR => Some(Or)
    case EQEQ => Some(Equal)
    case NOTEQ => Some(NotEqual)
    case GT => Some(Greater)
    case GTEQ => Some(GreaterEq)
    case LT => Some(Less)
    case LTEQ => Some(LessEq)
    case PLUS => Some(Add)
    case MINUS => Some(Sub)
    case ASTERISK => Some(Mul)
    case SLASH => Some(Div)
    case CARET => Some(Pow)
    case PERCENT => Some(Mod)
    case AMPERSAND => Some(Concat)
    case _ => None
  }
}

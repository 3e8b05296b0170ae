/** The failures of the three stages (data/errors.ts), each with the catalogue number of its
    message template and the values that the template's placeholders receive, and the
    Result type that replaces throwing them. */
module Errors {
  import opened Tokens

  datatype Stage = Lexing | Parsing | Interpreting

  datatype Error =
    // lexing, catalogue 0..3
    | UnknownToken(c: char)
    | UnterminatedString
    | InvalidFloat
    | InvalidChar
    // parsing, catalogue 100..101
    | Expected(expected: seq<TokenKind>, got: TokenKind)
    | BadSyntax
    // interpreting, catalogue 200..211
    | NotDeclared(name: string)
    | AlreadyDeclared(name: string)
    | InvalidExpression
    | ConstantChange(name: string)
    | NoValue(name: string, at: Option<int>)
    | TypeMismatch(name: string, given: TypeTag, declared: TypeTag)
    | LoopType(found: TypeTag)
    | ArraySize
    | OutOfBounds(index: int)
    | NotArray(name: string)
    | IsArray(name: string)
    | IndexType
    // outside the catalogue: behaviour the model does not compute, and exhausted fuel
    | Unmodelled
    | OutOfFuel

  /** The catalogue number of the message template (-1 for the two model-only failures). */
  function Code(e: Error): int {
    match e
    case UnknownToken(_) => 0
    case UnterminatedString => 1
    case InvalidFloat => 2
    case InvalidChar => 3
    case Expected(_, _) => 100
    case BadSyntax => 101
    case NotDeclared(_) => 200
    case AlreadyDeclared(_) => 201
    case InvalidExpression => 202
    case ConstantChange(_) => 203
    case NoValue(_, _) => 204
    case TypeMismatch(_, _, _) => 205
    case LoopType(_) => 206
    case ArraySize => 207
    case OutOfBounds(_) => 208
    case NotArray(_) => 209
    case IsArray(_) => 210
    case IndexType => 211
    case Unmodelled => -1
    case OutOfFuel => -1
  }

  /** The stage named in the "[<STAGE> ERROR]" prefix of the message. */
  function StageOf(e: Error): Stage {
    if 0 <= Code(e) < 100 then Lexing
    else if 100 <= Code(e) < 200 then Parsing
    else Interpreting
  }

  datatype Result<T> = Ok(value: T) | Fail(error: Error) {
    predicate IsFailure() {
      Fail?
    }

    function PropagateFailure<U>(): Result<U>
      requires Fail?
    {
      Fail(error)
    }

    function Extract(): T
      requires Ok?
    {
      value
    }
  }
}

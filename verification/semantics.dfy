/** What `visit` in modules/interpreter.ts computes, as functions: expressions evaluate to a
    value against the symbol table, statements turn one state (the table and the lines printed
    so far) into the next or stop with the first error they meet.

    The source's loops may run forever; here every loop iteration spends one unit of `fuel`,
    and a loop that would need more stops with `OutOfFuel`. */
module Semantics {
  import opened Tokens
  import opened Errors
  import opened Values
  import opened Ast
  import opened Symbols

  /** What the statements act on: the symbol table and every printed line, in order. */
  datatype State = State(table: Table, output: seq<seq<Val>>)

  /** The comparison `localeCompare` performs, which the model takes as a parameter. */
  type Collate = (string, string) -> int

  const Initial: State := State(map[], [])

  /** The elements of an array that hold a value, in order: what reading a whole array renders
      between brackets. */
  function Present(elems: seq<Val>): seq<Val> {
    if elems == [] then []
    else
      var last := elems[|elems| - 1];
      Present(elems[..|elems| - 1]) + (if last == NullV then [] else [last])
  }

  /** The BINARY, UNARY, VALUE and SYMBOL cases of visit: operands left to right, a symbol's
      index before the symbol. */
  function Eval(e: Expr, t: Table, collate: Collate): Result<Val> {
    match e
    case Binary(left, op, right) =>
      var l :- Eval(left, t, collate);
      var r :- Eval(right, t, collate);
      Values.Binary(op, l, r, collate)
    case Unary(op, child) =>
      var v :- Eval(child, t, collate);
      Values.Unary(op, v)
    case Value(v) => Ok(v)
    case Symbol(name, index) =>
      var at :- Eval(index, t, collate);
      Read(t, name, at)
  }

  /** A symbol read once its index is known: without one the whole entry, otherwise the slot,
      which must hold a value. */
  function Read(t: Table, name: string, at: Val): Result<Val> {
    if at == NullV then
      var entry :- Lookup(t, name);
      match entry.cell
      case Scalar(v) => if v == NullV then Fail(NoValue(name, None)) else Ok(v)
      case Slots(elems) => Ok(ArrV(Present(elems)))
    else if !at.IntV? then Fail(IndexType)
    else
      var v :- Slot(t, name, at.i);
      if v == NullV then Fail(NoValue(name, Some(at.i))) else Ok(v)
  }

  /** The values of a PRINT, left to right. */
  function EvalAll(es: seq<Expr>, t: Table, collate: Collate): Result<seq<Val>> {
    if es == [] then Ok([])
    else
      var v :- Eval(es[0], t, collate);
      var rest :- EvalAll(es[1..], t, collate);
      Ok([v] + rest)
  }

  /** The value an ASSIGN stores into a name declared with type `declared`: BOOL_TYPE takes
      anything through typecast, FLOAT_TYPE also takes an INT_TYPE, every other type only its
      own. */
  function Coerce(name: string, declared: TypeTag, v: Val): Result<Val> {
    if declared == BoolType then Ok(Typecast(v))
    else if declared == FloatType && v.IntV? then Ok(FloatV(v.i as real))
    else if declared != Tag(v) then Fail(TypeMismatch(name, Tag(v), declared))
    else Ok(v)
  }

  /** CONSTANT: the name must be new; its value is evaluated only then. */
  function DeclareConstant(c: ConstantDecl, st: State, collate: Collate): Result<State> {
    if c.name in st.table then Fail(AlreadyDeclared(c.name))
    else
      var v :- Eval(c.value, st.table, collate);
      var t :- Assigned(st.table, c.name, v, Tag(v), true);
      Ok(st.(table := t))
  }

  /** VARIABLE: the size is evaluated first; no size makes a scalar without a value, a
      positive INT_TYPE size an array of that many empty slots. */
  function DeclareVariable(d: VariableDecl, st: State, collate: Collate): Result<State> {
    var size :- Eval(d.size, st.table, collate);
    if d.name in st.table then Fail(AlreadyDeclared(d.name))
    else if size == NullV then
      var t :- Assigned(st.table, d.name, NullV, d.typ, false);
      Ok(st.(table := t))
    else if size.IntV? && size.i > 0 then Ok(st.(table := WithArray(st.table, d.name, size.i, d.typ)))
    else Fail(ArraySize)
  }

  function DeclareConstants(cs: seq<ConstantDecl>, st: State, collate: Collate): Result<State> {
    if cs == [] then Ok(st)
    else
      var next :- DeclareConstant(cs[0], st, collate);
      DeclareConstants(cs[1..], next, collate)
  }

  function DeclareVariables(vs: seq<VariableDecl>, st: State, collate: Collate): Result<State> {
    if vs == [] then Ok(st)
    else
      var next :- DeclareVariable(vs[0], st, collate);
      DeclareVariables(vs[1..], next, collate)
  }

  /** DECLARE: every constant, then every variable, each in written order. */
  function DeclareAll(d: Declare, st: State, collate: Collate): Result<State> {
    var afterConstants :- DeclareConstants(d.constants, st, collate);
    DeclareVariables(d.variables, afterConstants, collate)
  }

  /** ASSIGN: the target must exist; the value is evaluated and fitted to the target's type,
      then the index is evaluated. Without an index the target must not be an array and must
      not be a constant, and it takes the fitted value and its type; with one, the slot is
      written. A BOOL_TYPE slot given a whole array would hold a text under BOOL_TYPE, which
      the model does not represent. */
  function ExecAssign(target: string, index: Expr, value: Expr, st: State, collate: Collate): Result<State> {
    var entry :- Lookup(st.table, target);
    var v :- Eval(value, st.table, collate);
    var stored :- Coerce(target, entry.typ, v);
    var at :- Eval(index, st.table, collate);
    Store(target, entry, stored, at, st)
  }

  /** The write that ends an ASSIGN, once the target's entry, the fitted value and the index
      are known. */
  function Store(target: string, entry: Entry, stored: Val, at: Val, st: State): Result<State> {
    if at == NullV then
      if entry.cell.Slots? then Fail(IsArray(target))
      else
        var t :- Assigned(st.table, target, stored, Tag(stored), false);
        Ok(st.(table := t))
    else if !at.IntV? then Fail(IndexType)
    else
      var t :- SlotWritten(st.table, target, stored, at.i);
      if !Fits(stored, entry.typ) then Fail(Unmodelled) else Ok(st.(table := t))
  }

  /** PRINT: one more line holding the values, in order. */
  function ExecPrint(values: seq<Expr>, st: State, collate: Collate): Result<State> {
    var line :- EvalAll(values, st.table, collate);
    Ok(st.(output := st.output + [line]))
  }

  /** The slots an array has after RESIZE to `size`: the old values that still fit, then empty
      slots. */
  function Resized(elems: seq<Val>, size: nat): seq<Val> {
    seq(size, k => if 0 <= k < |elems| then elems[k] else NullV)
  }

  /** RESIZE: the name must exist, the new size is evaluated, and then the name must be an
      array and the size a positive INT_TYPE. */
  function ExecResize(name: string, size: Expr, st: State, collate: Collate): Result<State> {
    var entry :- Lookup(st.table, name);
    var n :- Eval(size, st.table, collate);
    if !entry.cell.Slots? then Fail(NotArray(name))
    else if !(n.IntV? && n.i > 0) then Fail(ArraySize)
    else Ok(st.(table := st.table[name := Entry(Slots(Resized(entry.cell.elems, n.i)), entry.typ, false)]))
  }

  /** The first case, from `k` on, whose value equals the subject in value and type; cases
      after it are not evaluated. */
  function Choose(cases: seq<Case>, k: nat, subject: Val, t: Table, collate: Collate): (r: Result<Option<nat>>)
    requires k <= |cases|
    ensures r.Ok? && r.value.Some? ==> k <= r.value.value < |cases|
    decreases |cases| - k
  {
    if k == |cases| then Ok(None)
    else
      var v :- Eval(cases[k].value, t, collate);
      if v == subject then Ok(Some(k)) else Choose(cases, k + 1, subject, t, collate)
  }

  /** The statements of a compound, in order. */
  function ExecBlock(ss: seq<Stmt>, st: State, collate: Collate, fuel: nat): Result<State>
    decreases fuel, ss
  {
    if ss == [] then Ok(st)
    else
      var next :- Exec(ss[0], st, collate, fuel);
      ExecBlock(ss[1..], next, collate, fuel)
  }

  /** One statement. */
  function Exec(s: Stmt, st: State, collate: Collate, fuel: nat): Result<State>
    decreases fuel, s
  {
    match s
    case Assign(target, index, value) => ExecAssign(target, index, value, st, collate)
    case Print(values) => ExecPrint(values, st, collate)
    case If(cond, thenPart, elsePart) =>
      var c :- Eval(cond, st.table, collate);
      if Holds(c) then ExecBlock(thenPart, st, collate, fuel) else ExecBlock(elsePart, st, collate, fuel)
    case While(cond, body) => WhileLoop(cond, body, st, collate, fuel)
    case For(counter, from, to, step, body) =>
      var entry :- Lookup(st.table, counter);
      if entry.cell.Slots? then Fail(IsArray(counter))
      else if entry.typ != IntType then Fail(LoopType(entry.typ))
      else
        var f :- Eval(from, st.table, collate);
        var l :- Eval(to, st.table, collate);
        var d :- Eval(step, st.table, collate);
        if !f.IntV? then Fail(LoopType(Tag(f)))
        else if !l.IntV? then Fail(LoopType(Tag(l)))
        else if !d.IntV? then Fail(LoopType(Tag(d)))
        else ForLoop(counter, f.i, l.i, d.i, body, st, collate, fuel)
    case Repeat(until, body) => RepeatLoop(until, body, st, collate, fuel)
    case Switch(subject, cases, default) =>
      var v :- Eval(subject, st.table, collate);
      var chosen :- Choose(cases, 0, v, st.table, collate);
      if chosen.Some? then ExecBlock(cases[chosen.value].body, st, collate, fuel)
      else
        match default {
          case Fallback(body) => ExecBlock(body, st, collate, fuel)
          case NoFallback => Ok(st)
        }
    case Resize(name, size) => ExecResize(name, size, st, collate)
  }

  /** WHILE: the condition is tested before every round. */
  function WhileLoop(cond: Expr, body: seq<Stmt>, st: State, collate: Collate, fuel: nat): Result<State>
    decreases fuel, body
  {
    var c :- Eval(cond, st.table, collate);
    if !Holds(c) then Ok(st)
    else if fuel == 0 then Fail(OutOfFuel)
    else
      var next :- ExecBlock(body, st, collate, fuel - 1);
      WhileLoop(cond, body, next, collate, fuel - 1)
  }

  /** FOR: the counter takes `i`, `i + step`, ... while it does not pass `to`; the bounds were
      evaluated once, before the first round. */
  function ForLoop(counter: string, i: int, to: int, step: int, body: seq<Stmt>, st: State, collate: Collate, fuel: nat): Result<State>
    decreases fuel, body
  {
    if i > to then Ok(st)
    else if fuel == 0 then Fail(OutOfFuel)
    else
      var t :- Assigned(st.table, counter, IntV(i), IntType, false);
      var next :- ExecBlock(body, st.(table := t), collate, fuel - 1);
      ForLoop(counter, i + step, to, step, body, next, collate, fuel - 1)
  }

  /** REPEAT: the body runs, then the condition is tested; the loop ends once it holds. */
  function RepeatLoop(until: Expr, body: seq<Stmt>, st: State, collate: Collate, fuel: nat): Result<State>
    decreases fuel, body
  {
    if fuel == 0 then Fail(OutOfFuel)
    else
      var next :- ExecBlock(body, st, collate, fuel - 1);
      var c :- Eval(until, next.table, collate);
      if Holds(c) then Ok(next) else RepeatLoop(until, body, next, collate, fuel - 1)
  }

  /** PROGRAM: the declarations, then the body, from an empty table. */
  function ExecProgram(p: Program, collate: Collate, fuel: nat): Result<State> {
    var declared :- DeclareAll(p.declare, Initial, collate);
    ExecBlock(p.body, declared, collate, fuel)
  }
}

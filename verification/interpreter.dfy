/** The Interpreter class of modules/interpreter.ts: `visit`, one method per node category,
    walking the tree and updating its symbol table in place. Each method is proved to do what
    the matching function of module Semantics says: on success the table and the printed lines
    are that function's new state, on failure the error is the one it names. */
module Interpreting {
  import opened Tokens
  import opened Errors
  import opened Values
  import opened Lexer
  import opened Grammar
  import opened Ast
  import opened Parsing
  import opened Symbols
  import opened Semantics

  class Interpreter {
    const symbols: SymbolTable
    /** The lines `console.log` has printed, each as its values. */
    var output: seq<seq<Val>>
    const collate: Collate

    constructor (collate: Collate)
      ensures fresh(symbols) && Current() == Initial && this.collate == collate
    {
      symbols := new SymbolTable();
      output := [];
      this.collate := collate;
    }

    function Current(): State
      reads this, symbols
    {
      State(symbols.table, output)
    }

    /** The method's outcome `r` is the one `spec` describes, and on success its state is the
        current one. */
    ghost predicate Follows(r: Result<()>, spec: Result<State>)
      reads this, symbols
    {
      match spec
      case Ok(st) => r == Ok(()) && Current() == st
      case Fail(e) => r == Fail(e)
    }

    /** PROGRAM, on a fresh interpreter: the declarations, then the statements. */
    method Interpret(p: Program, fuel: nat) returns (r: Result<()>)
      requires Current() == Initial
      modifies this, symbols
      ensures Follows(r, ExecProgram(p, collate, fuel))
    {
      var u :- Declarations(p.declare);
      r := Compound(p.body, fuel);
    }

    /** DECLARE. */
    method Declarations(d: Declare) returns (r: Result<()>)
      modifies this, symbols
      ensures Follows(r, DeclareAll(d, old(Current()), collate))
    {
      var cs := d.constants;
      for k := 0 to |cs|
        invariant DeclareConstants(cs, old(Current()), collate) == DeclareConstants(cs[k..], Current(), collate)
      {
        assert cs[k..][1..] == cs[k + 1..];
        var u :- Constant(cs[k]);
      }
      assert cs[|cs|..] == [];
      var vs := d.variables;
      for k := 0 to |vs|
        invariant DeclareAll(d, old(Current()), collate) == DeclareVariables(vs[k..], Current(), collate)
      {
        assert vs[k..][1..] == vs[k + 1..];
        var u :- Variable(vs[k]);
      }
      assert vs[|vs|..] == [];
      r := Ok(());
    }

    /** CONSTANT. */
    method Constant(c: ConstantDecl) returns (r: Result<()>)
      modifies this, symbols
      ensures Follows(r, DeclareConstant(c, old(Current()), collate))
    {
      var declared := symbols.Has(c.name);
      if declared {
        return Fail(AlreadyDeclared(c.name));
      }
      var v :- Evaluate(c.value);
      var unchecked := symbols.Set(c.name, v, Tag(v), true);
      r := Ok(());
    }

    /** VARIABLE. */
    method Variable(d: VariableDecl) returns (r: Result<()>)
      modifies this, symbols
      ensures Follows(r, DeclareVariable(d, old(Current()), collate))
    {
      var size :- Evaluate(d.size);
      var declared := symbols.Has(d.name);
      if declared {
        return Fail(AlreadyDeclared(d.name));
      }
      if size == NullV {
        var unchecked := symbols.Set(d.name, NullV, d.typ, false);
      } else if size.IntV? && size.i > 0 {
        symbols.InitArray(d.name, size.i, d.typ);
      } else {
        return Fail(ArraySize);
      }
      r := Ok(());
    }

    /** COMPOUND: the children in order, stopping at the first failure. */
    method Compound(ss: seq<Stmt>, fuel: nat) returns (r: Result<()>)
      modifies this, symbols
      ensures Follows(r, ExecBlock(ss, old(Current()), collate, fuel))
      decreases fuel, ss, 2
    {
      for k := 0 to |ss|
        invariant ExecBlock(ss, old(Current()), collate, fuel) == ExecBlock(ss[k..], Current(), collate, fuel)
      {
        assert ss[k..][1..] == ss[k + 1..];
        var u :- Statement(ss[k], fuel);
      }
      assert ss[|ss|..] == [];
      r := Ok(());
    }

    /** The statement categories of visit. */
    method Statement(s: Stmt, fuel: nat) returns (r: Result<()>)
      modifies this, symbols
      ensures Follows(r, Exec(s, old(Current()), collate, fuel))
      decreases fuel, s, 1
    {
      match s
      case Assign(target, index, value) => r := AssignStmt(target, index, value);
      case Print(values) => r := PrintStmt(values);
      case If(_, _, _) => r := IfStmt(s, fuel);
      case While(_, _) => r := WhileStmt(s, fuel);
      case For(_, _, _, _, _) => r := ForStmt(s, fuel);
      case Repeat(_, _) => r := RepeatStmt(s, fuel);
      case Switch(_, _, _) => r := SwitchStmt(s, fuel);
      case Resize(name, size) => r := ResizeStmt(name, size);
    }

    /** BINARY, UNARY, VALUE and SYMBOL: evaluation reads the table and changes nothing. */
    method Evaluate(e: Expr) returns (r: Result<Val>)
      ensures r == Eval(e, symbols.table, collate)
      decreases e
    {
      match e
      case Binary(left, op, right) =>
        var l :- Evaluate(left);
        var rv :- Evaluate(right);
        r := Values.Binary(op, l, rv, collate);
      case Unary(op, child) =>
        var v :- Evaluate(child);
        r := Values.Unary(op, v);
      case Value(v) =>
        r := Ok(v);
      case Symbol(name, index) =>
        var at :- Evaluate(index);
        if at == NullV {
          var entry :- symbols.Get(name);
          if entry.cell == Scalar(NullV) {
            return Fail(NoValue(name, None));
          }
          if entry.cell.Slots? {
            var values := PresentValues(entry.cell.elems);
            r := Ok(ArrV(values));
          } else {
            r := Ok(entry.cell.v);
          }
        } else {
          if !at.IntV? {
            return Fail(IndexType);
          }
          var v :- symbols.GetArray(name, at.i);
          if v == NullV {
            return Fail(NoValue(name, Some(at.i)));
          }
          r := Ok(v);
        }
    }

    /** ASSIGN: the target's entry, the value fitted to its type, the index, then the write. */
    method AssignStmt(target: string, index: Expr, value: Expr) returns (r: Result<()>)
      modifies this, symbols
      ensures Follows(r, ExecAssign(target, index, value, old(Current()), collate))
    {
      var entry :- symbols.Get(target);
      var v :- Evaluate(value);
      var stored := v;
      if entry.typ == BoolType {
        stored := Typecast(v);
      } else if entry.typ == FloatType && v.IntV? {
        stored := FloatV(v.i as real);
      } else if entry.typ != Tag(v) {
        return Fail(TypeMismatch(target, Tag(v), entry.typ));
      }
      assert Coerce(target, entry.typ, v) == Ok(stored);
      var at :- Evaluate(index);
      r := Store(target, entry, stored, at);
    }

    /** The write of an ASSIGN: the whole name without an index, one slot with one. */
    method Store(target: string, entry: Entry, stored: Val, at: Val) returns (r: Result<()>)
      modifies symbols
      ensures Follows(r, Semantics.Store(target, entry, stored, at, old(Current())))
    {
      if at == NullV {
        if entry.cell.Slots? {
          return Fail(IsArray(target));
        }
        var u :- symbols.Set(target, stored, Tag(stored), false);
      } else {
        if !at.IntV? {
          return Fail(IndexType);
        }
        var u :- symbols.SetArray(target, stored, at.i);
        if !Fits(stored, entry.typ) {
          return Fail(Unmodelled);
        }
      }
      r := Ok(());
    }

    /** PRINT: the values left to right, then one line. */
    method PrintStmt(values: seq<Expr>) returns (r: Result<()>)
      modifies this
      ensures Follows(r, ExecPrint(values, old(Current()), collate))
    {
      var line: seq<Val> := [];
      assert values[0..] == values;
      PrefixedNothing(EvalAll(values, symbols.table, collate));
      for k := 0 to |values|
        invariant output == old(output)
        invariant EvalAll(values, symbols.table, collate) == Prefixed(line, EvalAll(values[k..], symbols.table, collate))
      {
        assert values[k..][0] == values[k] && values[k..][1..] == values[k + 1..];
        var v :- Evaluate(values[k]);
        PrefixedOneMore(line, v, EvalAll(values[k + 1..], symbols.table, collate));
        line := line + [v];
      }
      assert values[|values|..] == [] && line + [] == line;
      output := output + [line];
      r := Ok(());
    }

    /** IF. */
    method IfStmt(s: Stmt, fuel: nat) returns (r: Result<()>)
      requires s.If?
      modifies this, symbols
      ensures Follows(r, Exec(s, old(Current()), collate, fuel))
      decreases fuel, s, 0
    {
      var c :- Evaluate(s.cond);
      if Holds(c) {
        r := Compound(s.thenPart, fuel);
      } else {
        r := Compound(s.elsePart, fuel);
      }
    }

    /** WHILE: the condition is evaluated before the first round and after every round. */
    method WhileStmt(s: Stmt, fuel: nat) returns (r: Result<()>)
      requires s.While?
      modifies this, symbols
      ensures Follows(r, Exec(s, old(Current()), collate, fuel))
      decreases fuel, s, 0
    {
      assert Exec(s, old(Current()), collate, fuel) == WhileLoop(s.cond, s.body, old(Current()), collate, fuel);
      var c :- Evaluate(s.cond);
      var left: nat := fuel;
      while Holds(c)
        invariant left <= fuel
        invariant Eval(s.cond, symbols.table, collate) == Ok(c)
        invariant Exec(s, old(Current()), collate, fuel) == WhileLoop(s.cond, s.body, Current(), collate, left)
        decreases left
      {
        if left == 0 {
          return Fail(OutOfFuel);
        }
        var u :- Compound(s.body, left - 1);
        left := left - 1;
        c :- Evaluate(s.cond);
      }
      r := Ok(());
    }

    /** FOR: the counter must be an INT_TYPE scalar and the bounds and step INT_TYPE values;
        the counter is set before every round. */
    method ForStmt(s: Stmt, fuel: nat) returns (r: Result<()>)
      requires s.For?
      modifies this, symbols
      ensures Follows(r, Exec(s, old(Current()), collate, fuel))
      decreases fuel, s, 0
    {
      var entry :- symbols.Get(s.counter);
      if entry.cell.Slots? {
        return Fail(IsArray(s.counter));
      }
      if entry.typ != IntType {
        return Fail(LoopType(entry.typ));
      }
      var from :- Evaluate(s.from);
      var to :- Evaluate(s.to);
      var step :- Evaluate(s.step);
      if !from.IntV? {
        return Fail(LoopType(Tag(from)));
      }
      if !to.IntV? {
        return Fail(LoopType(Tag(to)));
      }
      if !step.IntV? {
        return Fail(LoopType(Tag(step)));
      }
      var i := from.i;
      var left: nat := fuel;
      assert Current() == old(Current());
      assert Exec(s, old(Current()), collate, fuel) == ForLoop(s.counter, i, to.i, step.i, s.body, Current(), collate, fuel);
      while i <= to.i
        invariant left <= fuel
        invariant Exec(s, old(Current()), collate, fuel) == ForLoop(s.counter, i, to.i, step.i, s.body, Current(), collate, left)
        decreases left
      {
        if left == 0 {
          return Fail(OutOfFuel);
        }
        var u :- symbols.Set(s.counter, IntV(i), IntType, false);
        u :- Compound(s.body, left - 1);
        i := i + step.i;
        left := left - 1;
      }
      r := Ok(());
    }

    /** REPEAT: the body runs before the condition is first evaluated. */
    method RepeatStmt(s: Stmt, fuel: nat) returns (r: Result<()>)
      requires s.Repeat?
      modifies this, symbols
      ensures Follows(r, Exec(s, old(Current()), collate, fuel))
      decreases fuel, s, 0
    {
      var left: nat := fuel;
      while true
        invariant left <= fuel
        invariant Exec(s, old(Current()), collate, fuel) == RepeatLoop(s.until, s.body, Current(), collate, left)
        decreases left
      {
        if left == 0 {
          return Fail(OutOfFuel);
        }
        var u :- Compound(s.body, left - 1);
        var c :- Evaluate(s.until);
        if Holds(c) {
          return Ok(());
        }
        left := left - 1;
      }
    }

    /** SWITCH: the cases are evaluated in order until one equals the subject in value and
        type; only that case's statements run, or the DEFAULT part when none does. */
    method SwitchStmt(s: Stmt, fuel: nat) returns (r: Result<()>)
      requires s.Switch?
      modifies this, symbols
      ensures Follows(r, Exec(s, old(Current()), collate, fuel))
      decreases fuel, s, 0
    {
      var subject :- Evaluate(s.subject);
      var cases := s.cases;
      for k := 0 to |cases|
        invariant Current() == old(Current())
        invariant Choose(cases, 0, subject, symbols.table, collate) == Choose(cases, k, subject, symbols.table, collate)
      {
        var v :- Evaluate(cases[k].value);
        if v == subject {
          r := Compound(cases[k].body, fuel);
          return;
        }
      }
      match s.default {
        case Fallback(body) => r := Compound(body, fuel);
        case NoFallback => r := Ok(());
      }
    }

    /** RESIZE: a fresh array of the new size, into which the old values are copied. */
    method ResizeStmt(name: string, size: Expr) returns (r: Result<()>)
      modifies this, symbols
      ensures Follows(r, ExecResize(name, size, old(Current()), collate))
    {
      var entry :- symbols.Get(name);
      var n :- Evaluate(size);
      if !entry.cell.Slots? {
        return Fail(NotArray(name));
      }
      if !(n.IntV? && n.i > 0) {
        return Fail(ArraySize);
      }
      var before := symbols.table;
      var copy := entry.cell.elems;
      symbols.InitArray(name, n.i, entry.typ);
      var slots := symbols.table[name].cell.elems;
      assert slots == Absent(n.i);
      for k := 0 to n.i
        invariant |slots| == n.i
        invariant forall j :: 0 <= j < n.i ==> slots[j] == (if j < k then Resized(copy, n.i)[j] else NullV)
      {
        slots := slots[k := if k < |copy| then copy[k] else NullV];
      }
      assert slots == Resized(copy, n.i);
      symbols.table := before[name := Entry(Slots(slots), entry.typ, false)];
      r := Ok(());
    }
  }

  /** A list of values put in front of the values of `r`, if it has any. */
  ghost function Prefixed(line: seq<Val>, r: Result<seq<Val>>): Result<seq<Val>> {
    match r
    case Ok(rest) => Ok(line + rest)
    case Fail(e) => Fail(e)
  }

  lemma PrefixedNothing(r: Result<seq<Val>>)
    ensures Prefixed([], r) == r
  {
    if r.Ok? {
      assert [] + r.value == r.value;
    }
  }

  lemma PrefixedOneMore(line: seq<Val>, v: Val, r: Result<seq<Val>>)
    ensures Prefixed(line, (var rest :- r; Ok([v] + rest))) == Prefixed(line + [v], r)
  {
    if r.Ok? {
      assert line + ([v] + r.value) == (line + [v]) + r.value;
    }
  }

  /** The elements of an array that hold a value, collected in order. */
  method PresentValues(elems: seq<Val>) returns (values: seq<Val>)
    ensures values == Present(elems)
  {
    values := [];
    for k := 0 to |elems|
      invariant values == Present(elems[..k])
    {
      assert elems[..k + 1][..k] == elems[..k];
      if elems[k] != NullV {
        values := values + [elems[k]];
      }
    }
    assert elems[..|elems|] == elems;
  }

  /** What running a source text prints, or the error that ends it. */
  function Outcome(src: string, collate: Collate, fuel: nat): Result<seq<seq<Val>>> {
    var p :- ParseStream(Lex(src, 0));
    var st :- ExecProgram(p, collate, fuel);
    Ok(st.output)
  }

  /** `main`: lex, parse and interpret one source text. */
  method RunSource(src: string, collate: Collate, fuel: nat) returns (r: Result<seq<seq<Val>>>)
    ensures r == Outcome(src, collate, fuel)
  {
    var p :- ParseSource(src);
    var interpreter := new Interpreter(collate);
    var u :- interpreter.Interpret(p, fuel);
    r := Ok(interpreter.output);
  }
}

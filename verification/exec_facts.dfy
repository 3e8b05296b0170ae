/** Two facts about whole executions, by induction over the statement functions of module
    Semantics: every stored value keeps agreeing with the type its entry reports, so a read
    yields the very (value, type) pair the source returns; and fuel only bounds the loops, so
    an outcome that did not run out of fuel stays the same with more. */
module ExecFacts {
  import opened Tokens
  import opened Errors
  import opened Values
  import opened Ast
  import opened Symbols
  import opened Semantics

  /** In a well-typed table every successful read has the type the entry reports: the
      declared element type for a slot, the entry's type for a scalar, ARR_TYPE for a whole
      array. */
  lemma ReadHasEntryType(t: Table, name: string, at: Val)
    requires WellTyped(t) && Read(t, name, at).Ok?
    ensures name in t
    ensures Tag(Read(t, name, at).value) == (if at == NullV && t[name].cell.Slots? then ArrType else t[name].typ)
  {
    assert EntryFits(t[name]);
  }

  lemma DeclareKeepsTypes(d: Declare, st: State, collate: Collate)
    requires WellTyped(st.table) && DeclareAll(d, st, collate).Ok?
    ensures WellTyped(DeclareAll(d, st, collate).value.table)
  {
    ConstantsKeepTypes(d.constants, st, collate);
    VariablesKeepTypes(d.variables, DeclareConstants(d.constants, st, collate).value, collate);
  }

  lemma {:induction false} ConstantsKeepTypes(cs: seq<ConstantDecl>, st: State, collate: Collate)
    requires WellTyped(st.table) && DeclareConstants(cs, st, collate).Ok?
    ensures WellTyped(DeclareConstants(cs, st, collate).value.table)
    decreases cs
  {
    if cs != [] {
      var v := Eval(cs[0].value, st.table, collate).value;
      UpdatesKeepTypes(st.table, cs[0].name, v, Tag(v), true, 0, 0);
      ConstantsKeepTypes(cs[1..], DeclareConstant(cs[0], st, collate).value, collate);
    }
  }

  lemma {:induction false} VariablesKeepTypes(vs: seq<VariableDecl>, st: State, collate: Collate)
    requires WellTyped(st.table) && DeclareVariables(vs, st, collate).Ok?
    ensures WellTyped(DeclareVariables(vs, st, collate).value.table)
    decreases vs
  {
    if vs != [] {
      var size := Eval(vs[0].size, st.table, collate).value;
      UpdatesKeepTypes(st.table, vs[0].name, NullV, vs[0].typ, false, if size.IntV? && size.i > 0 then size.i else 0, 0);
      VariablesKeepTypes(vs[1..], DeclareVariable(vs[0], st, collate).value, collate);
    }
  }

  lemma AssignKeepsTypes(target: string, index: Expr, value: Expr, st: State, collate: Collate)
    requires WellTyped(st.table) && ExecAssign(target, index, value, st, collate).Ok?
    ensures WellTyped(ExecAssign(target, index, value, st, collate).value.table)
  {
    var entry := st.table[target];
    var v := Eval(value, st.table, collate).value;
    var stored := Coerce(target, entry.typ, v).value;
    var at := Eval(index, st.table, collate).value;
    if at == NullV {
      UpdatesKeepTypes(st.table, target, stored, Tag(stored), false, 0, 0);
    } else {
      UpdatesKeepTypes(st.table, target, stored, entry.typ, false, 0, at.i);
    }
  }

  lemma ResizeKeepsTypes(name: string, size: Expr, st: State, collate: Collate)
    requires WellTyped(st.table) && ExecResize(name, size, st, collate).Ok?
    ensures WellTyped(ExecResize(name, size, st, collate).value.table)
  {
    var entry := st.table[name];
    assert EntryFits(entry);
    var u := ExecResize(name, size, st, collate).value.table;
    assert EntryFits(u[name]);
  }

  lemma {:induction false} BlockKeepsTypes(ss: seq<Stmt>, st: State, collate: Collate, fuel: nat)
    requires WellTyped(st.table) && ExecBlock(ss, st, collate, fuel).Ok?
    ensures WellTyped(ExecBlock(ss, st, collate, fuel).value.table)
    decreases fuel, ss
  {
    if ss != [] {
      ExecKeepsTypes(ss[0], st, collate, fuel);
      BlockKeepsTypes(ss[1..], Exec(ss[0], st, collate, fuel).value, collate, fuel);
    }
  }

  /** Every statement that succeeds leaves a well-typed table well-typed. */
  lemma {:induction false} ExecKeepsTypes(s: Stmt, st: State, collate: Collate, fuel: nat)
    requires WellTyped(st.table) && Exec(s, st, collate, fuel).Ok?
    ensures WellTyped(Exec(s, st, collate, fuel).value.table)
    decreases fuel, s
  {
    match s
    case Assign(target, index, value) => AssignKeepsTypes(target, index, value, st, collate);
    case Print(_) =>
    case If(cond, thenPart, elsePart) =>
      if Holds(Eval(cond, st.table, collate).value) {
        BlockKeepsTypes(thenPart, st, collate, fuel);
      } else {
        BlockKeepsTypes(elsePart, st, collate, fuel);
      }
    case While(cond, body) => WhileKeepsTypes(cond, body, st, collate, fuel);
    case For(counter, from, to, step, body) =>
      var f := Eval(from, st.table, collate).value;
      var l := Eval(to, st.table, collate).value;
      var d := Eval(step, st.table, collate).value;
      ForKeepsTypes(counter, f.i, l.i, d.i, body, st, collate, fuel);
    case Repeat(until, body) => RepeatKeepsTypes(until, body, st, collate, fuel);
    case Switch(subject, cases, default) =>
      var v := Eval(subject, st.table, collate).value;
      var chosen := Choose(cases, 0, v, st.table, collate).value;
      if chosen.Some? {
        BlockKeepsTypes(cases[chosen.value].body, st, collate, fuel);
      } else if default.Fallback? {
        BlockKeepsTypes(default.body, st, collate, fuel);
      }
    case Resize(name, size) => ResizeKeepsTypes(name, size, st, collate);
  }

  lemma {:induction false} WhileKeepsTypes(cond: Expr, body: seq<Stmt>, st: State, collate: Collate, fuel: nat)
    requires WellTyped(st.table) && WhileLoop(cond, body, st, collate, fuel).Ok?
    ensures WellTyped(WhileLoop(cond, body, st, collate, fuel).value.table)
    decreases fuel, body
  {
    if Holds(Eval(cond, st.table, collate).value) {
      BlockKeepsTypes(body, st, collate, fuel - 1);
      WhileKeepsTypes(cond, body, ExecBlock(body, st, collate, fuel - 1).value, collate, fuel - 1);
    }
  }

  lemma {:induction false} ForKeepsTypes(counter: string, i: int, to: int, step: int, body: seq<Stmt>, st: State, collate: Collate, fuel: nat)
    requires WellTyped(st.table) && ForLoop(counter, i, to, step, body, st, collate, fuel).Ok?
    ensures WellTyped(ForLoop(counter, i, to, step, body, st, collate, fuel).value.table)
    decreases fuel, body
  {
    if i <= to {
      UpdatesKeepTypes(st.table, counter, IntV(i), IntType, false, 0, 0);
      var bound := st.(table := Assigned(st.table, counter, IntV(i), IntType, false).value);
      BlockKeepsTypes(body, bound, collate, fuel - 1);
      ForKeepsTypes(counter, i + step, to, step, body, ExecBlock(body, bound, collate, fuel - 1).value, collate, fuel - 1);
    }
  }

  lemma {:induction false} RepeatKeepsTypes(until: Expr, body: seq<Stmt>, st: State, collate: Collate, fuel: nat)
    requires WellTyped(st.table) && RepeatLoop(until, body, st, collate, fuel).Ok?
    ensures WellTyped(RepeatLoop(until, body, st, collate, fuel).value.table)
    decreases fuel, body
  {
    BlockKeepsTypes(body, st, collate, fuel - 1);
    var next := ExecBlock(body, st, collate, fuel - 1).value;
    if !Holds(Eval(until, next.table, collate).value) {
      RepeatKeepsTypes(until, body, next, collate, fuel - 1);
    }
  }

  /** After a successful run every value in the table agrees with its entry's type. */
  lemma ProgramKeepsTypes(p: Program, collate: Collate, fuel: nat)
    requires ExecProgram(p, collate, fuel).Ok?
    ensures WellTyped(ExecProgram(p, collate, fuel).value.table)
  {
    DeclareKeepsTypes(p.declare, Initial, collate);
    BlockKeepsTypes(p.body, DeclareAll(p.declare, Initial, collate).value, collate, fuel);
  }

  /** Fuel only bounds the loops: a block whose outcome did not run out of fuel has the same
      outcome with any more fuel. */
  lemma {:induction false} BlockFuel(ss: seq<Stmt>, st: State, collate: Collate, fuel: nat, more: nat)
    requires fuel <= more && ExecBlock(ss, st, collate, fuel) != Fail(OutOfFuel)
    ensures ExecBlock(ss, st, collate, more) == ExecBlock(ss, st, collate, fuel)
    decreases fuel, ss
  {
    if ss != [] {
      ExecFuel(ss[0], st, collate, fuel, more);
      var first := Exec(ss[0], st, collate, fuel);
      if first.Ok? {
        BlockFuel(ss[1..], first.value, collate, fuel, more);
      }
    }
  }

  lemma {:induction false} ExecFuel(s: Stmt, st: State, collate: Collate, fuel: nat, more: nat)
    requires fuel <= more && Exec(s, st, collate, fuel) != Fail(OutOfFuel)
    ensures Exec(s, st, collate, more) == Exec(s, st, collate, fuel)
    decreases fuel, s
  {
    match s
    case Assign(_, _, _) =>
    case Print(_) =>
    case If(cond, thenPart, elsePart) =>
      var c := Eval(cond, st.table, collate);
      if c.Ok? {
        if Holds(c.value) {
          BlockFuel(thenPart, st, collate, fuel, more);
        } else {
          BlockFuel(elsePart, st, collate, fuel, more);
        }
      }
    case While(cond, body) => WhileFuel(cond, body, st, collate, fuel, more);
    case For(counter, from, to, step, body) =>
      var entry := Lookup(st.table, counter);
      var f := Eval(from, st.table, collate);
      var l := Eval(to, st.table, collate);
      var d := Eval(step, st.table, collate);
      if entry.Ok? && !entry.value.cell.Slots? && entry.value.typ == IntType && f.Ok? && l.Ok? && d.Ok?
         && f.value.IntV? && l.value.IntV? && d.value.IntV? {
        ForFuel(counter, f.value.i, l.value.i, d.value.i, body, st, collate, fuel, more);
      }
    case Repeat(until, body) => RepeatFuel(until, body, st, collate, fuel, more);
    case Switch(subject, cases, default) =>
      var v := Eval(subject, st.table, collate);
      if v.Ok? {
        var chosen := Choose(cases, 0, v.value, st.table, collate);
        if chosen.Ok? {
          if chosen.value.Some? {
            BlockFuel(cases[chosen.value.value].body, st, collate, fuel, more);
          } else if default.Fallback? {
            BlockFuel(default.body, st, collate, fuel, more);
          }
        }
      }
    case Resize(_, _) =>
  }

  lemma {:induction false} WhileFuel(cond: Expr, body: seq<Stmt>, st: State, collate: Collate, fuel: nat, more: nat)
    requires fuel <= more && WhileLoop(cond, body, st, collate, fuel) != Fail(OutOfFuel)
    ensures WhileLoop(cond, body, st, collate, more) == WhileLoop(cond, body, st, collate, fuel)
    decreases fuel, body
  {
    var c := Eval(cond, st.table, collate);
    if c.Ok? && Holds(c.value) {
      BlockFuel(body, st, collate, fuel - 1, more - 1);
      var next := ExecBlock(body, st, collate, fuel - 1);
      if next.Ok? {
        WhileFuel(cond, body, next.value, collate, fuel - 1, more - 1);
      }
    }
  }

  lemma {:induction false} ForFuel(counter: string, i: int, to: int, step: int, body: seq<Stmt>, st: State, collate: Collate, fuel: nat, more: nat)
    requires fuel <= more && ForLoop(counter, i, to, step, body, st, collate, fuel) != Fail(OutOfFuel)
    ensures ForLoop(counter, i, to, step, body, st, collate, more) == ForLoop(counter, i, to, step, body, st, collate, fuel)
    decreases fuel, body
  {
    if i <= to {
      var t := Assigned(st.table, counter, IntV(i), IntType, false);
      if t.Ok? {
        var bound := st.(table := t.value);
        BlockFuel(body, bound, collate, fuel - 1, more - 1);
        var next := ExecBlock(body, bound, collate, fuel - 1);
        if next.Ok? {
          ForFuel(counter, i + step, to, step, body, next.value, collate, fuel - 1, more - 1);
        }
      }
    }
  }

  lemma {:induction false} RepeatFuel(until: Expr, body: seq<Stmt>, st: State, collate: Collate, fuel: nat, more: nat)
    requires fuel <= more && RepeatLoop(until, body, st, collate, fuel) != Fail(OutOfFuel)
    ensures RepeatLoop(until, body, st, collate, more) == RepeatLoop(until, body, st, collate, fuel)
    decreases fuel, body
  {
    BlockFuel(body, st, collate, fuel - 1, more - 1);
    var next := ExecBlock(body, st, collate, fuel - 1);
    if next.Ok? {
      var c := Eval(until, next.value.table, collate);
      if c.Ok? && !Holds(c.value) {
        RepeatFuel(until, body, next.value, collate, fuel - 1, more - 1);
      }
    }
  }

  /** A program's outcome, unless it ran out of fuel, is the same with any more fuel. */
  lemma ProgramFuel(p: Program, collate: Collate, fuel: nat, more: nat)
    requires fuel <= more && ExecProgram(p, collate, fuel) != Fail(OutOfFuel)
    ensures ExecProgram(p, collate, more) == ExecProgram(p, collate, fuel)
  {
    var declared := DeclareAll(p.declare, Initial, collate);
    if declared.Ok? {
      BlockFuel(p.body, declared.value, collate, fuel, more);
    }
  }
}

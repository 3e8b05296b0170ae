/** What the interpreter promises about declarations, assignments, array access and the
    statements, stated over the functions of module Semantics. */
module SemanticsFacts {
  import opened Tokens
  import opened Errors
  import opened Values
  import opened Ast
  import opened Symbols
  import opened Semantics

  /** The names of a list of constants. */
  function ConstantNames(cs: seq<ConstantDecl>): set<string> {
    set k | 0 <= k < |cs| :: cs[k].name
  }

  function VariableNames(vs: seq<VariableDecl>): set<string> {
    set k | 0 <= k < |vs| :: vs[k].name
  }

  /** `after` holds every entry of `before` unchanged, plus entries for exactly `names`. */
  predicate Extends(before: State, after: State, names: set<string>) {
    && after.output == before.output
    && (forall n :: n in before.table ==> n in after.table && after.table[n] == before.table[n])
    && after.table.Keys == before.table.Keys + names
  }

  /** Successful constant declarations had fresh names, no two alike (there are as many
      names as declarations); each now names a constant scalar, and nothing else in the state
      changed. */
  lemma {:induction false} ConstantsDeclared(cs: seq<ConstantDecl>, st: State, collate: Collate)
    requires DeclareConstants(cs, st, collate).Ok?
    ensures var after := DeclareConstants(cs, st, collate).value;
      && Extends(st, after, ConstantNames(cs))
      && ConstantNames(cs) !! st.table.Keys
      && |ConstantNames(cs)| == |cs|
      && (forall n :: n in ConstantNames(cs) ==> after.table[n].constant && after.table[n].cell.Scalar?)
    decreases cs
  {
    if cs != [] {
      ConstantStep(cs[0], st, collate);
      var next := DeclareConstant(cs[0], st, collate).value;
      assert DeclareConstants(cs, st, collate) == DeclareConstants(cs[1..], next, collate);
      ConstantsDeclared(cs[1..], next, collate);
      var after := DeclareConstants(cs, st, collate).value;
      NamesSplit(cs);
      ExtendsChain(st, next, after, {cs[0].name}, ConstantNames(cs[1..]));
      assert cs[0].name !in ConstantNames(cs[1..]);
    }
  }

  lemma ConstantStep(c: ConstantDecl, st: State, collate: Collate)
    requires DeclareConstant(c, st, collate).Ok?
    ensures var next := DeclareConstant(c, st, collate).value;
      && Extends(st, next, {c.name}) && c.name !in st.table
      && next.table[c.name].constant && next.table[c.name].cell.Scalar?
  {
  }

  /** A constant's name is checked before its value is evaluated, the reverse of a
      variable's: a taken name fails even when the value would fail too. A new name is then
      a constant scalar holding the value under the value's own type. */
  lemma ConstantErrorOrder(c: ConstantDecl, st: State, collate: Collate)
    ensures c.name in st.table ==> DeclareConstant(c, st, collate) == Fail(AlreadyDeclared(c.name))
    ensures c.name !in st.table ==>
      var r := DeclareConstant(c, st, collate);
      var v := Eval(c.value, st.table, collate);
      && (v.Fail? ==> r == Fail(v.error))
      && (v.Ok? ==>
        && r.Ok? && r.value.output == st.output
        && r.value.table == st.table[c.name := Entry(Scalar(v.value), Tag(v.value), true)])
  {
  }

  lemma ExtendsChain(a: State, b: State, c: State, first: set<string>, second: set<string>)
    requires Extends(a, b, first) && Extends(b, c, second)
    ensures Extends(a, c, first + second)
  {
  }

  lemma NamesSplit(cs: seq<ConstantDecl>)
    requires cs != []
    ensures ConstantNames(cs) == {cs[0].name} + ConstantNames(cs[1..])
  {
    forall n | n in ConstantNames(cs)
      ensures n == cs[0].name || n in ConstantNames(cs[1..])
    {
      var k :| 0 <= k < |cs| && cs[k].name == n;
      if k > 0 {
        assert cs[1..][k - 1].name == n;
      }
    }
  }

  /** A variable declaration succeeds exactly when its size evaluates to nothing or to a
      positive INT_TYPE and its name is new: then the name is a variable scalar without a value,
      or a variable array with exactly that many empty slots, under the declared type. */
  lemma VariableDeclared(d: VariableDecl, st: State, collate: Collate)
    ensures var r := DeclareVariable(d, st, collate);
      var size := Eval(d.size, st.table, collate);
      && (r.Ok? <==> size.Ok? && d.name !in st.table && (size.value == NullV || (size.value.IntV? && size.value.i > 0)))
      && (size.Ok? && d.name in st.table ==> r == Fail(AlreadyDeclared(d.name)))
      && (r.Ok? ==>
        && Extends(st, r.value, {d.name})
        && r.value.table[d.name] ==
          Entry(if size.value == NullV then Scalar(NullV) else Slots(Absent(size.value.i)), d.typ, false))
  {
  }

  /** Successful variable declarations had fresh names, no two alike; each now names a
      variable, never a constant, and nothing else changed. */
  lemma {:induction false} VariablesDeclared(vs: seq<VariableDecl>, st: State, collate: Collate)
    requires DeclareVariables(vs, st, collate).Ok?
    ensures var after := DeclareVariables(vs, st, collate).value;
      && Extends(st, after, VariableNames(vs))
      && VariableNames(vs) !! st.table.Keys
      && |VariableNames(vs)| == |vs|
      && (forall n :: n in VariableNames(vs) ==> !after.table[n].constant)
    decreases vs
  {
    if vs != [] {
      VariableStep(vs[0], st, collate);
      var next := DeclareVariable(vs[0], st, collate).value;
      assert DeclareVariables(vs, st, collate) == DeclareVariables(vs[1..], next, collate);
      VariablesDeclared(vs[1..], next, collate);
      var after := DeclareVariables(vs, st, collate).value;
      VariableNamesSplit(vs);
      ExtendsChain(st, next, after, {vs[0].name}, VariableNames(vs[1..]));
      assert vs[0].name !in VariableNames(vs[1..]);
    }
  }

  lemma VariableStep(d: VariableDecl, st: State, collate: Collate)
    requires DeclareVariable(d, st, collate).Ok?
    ensures var next := DeclareVariable(d, st, collate).value;
      Extends(st, next, {d.name}) && d.name !in st.table && !next.table[d.name].constant
  {
  }

  lemma VariableNamesSplit(vs: seq<VariableDecl>)
    requires vs != []
    ensures VariableNames(vs) == {vs[0].name} + VariableNames(vs[1..])
  {
    forall n | n in VariableNames(vs)
      ensures n == vs[0].name || n in VariableNames(vs[1..])
    {
      var k :| 0 <= k < |vs| && vs[k].name == n;
      if k > 0 {
        assert vs[1..][k - 1].name == n;
      }
    }
  }

  /** DECLARE handles every constant before any variable: a successful declaration part has
      no variable named like a constant, every constant name is a constant and every variable
      name a variable. */
  lemma DeclareAllSeparates(d: Declare, st: State, collate: Collate)
    requires DeclareAll(d, st, collate).Ok?
    ensures var after := DeclareAll(d, st, collate).value;
      && Extends(st, after, ConstantNames(d.constants) + VariableNames(d.variables))
      && ConstantNames(d.constants) !! VariableNames(d.variables)
      && (forall n :: n in ConstantNames(d.constants) ==> after.table[n].constant)
      && (forall n :: n in VariableNames(d.variables) ==> !after.table[n].constant)
  {
    var mid := DeclareConstants(d.constants, st, collate).value;
    ConstantsDeclared(d.constants, st, collate);
    VariablesDeclared(d.variables, mid, collate);
    var after := DeclareAll(d, st, collate).value;
    ExtendsChain(st, mid, after, ConstantNames(d.constants), VariableNames(d.variables));
  }

  /** Fitting a value to a declared type: BOOL_TYPE takes everything and keeps its truth,
      FLOAT_TYPE also takes INT_TYPE numbers at the same value, every other type only its own;
      the fitted value has the declared type except for a whole array or nothing put into a
      BOOL_TYPE, which keep their own. */
  lemma CoerceMeaning(name: string, typ: TypeTag, v: Val)
    ensures Coerce(name, typ, v).Ok? <==> typ == BoolType || (typ == FloatType && v.IntV?) || typ == Tag(v)
    ensures Coerce(name, typ, v).Fail? ==> Coerce(name, typ, v).error == TypeMismatch(name, Tag(v), typ)
    ensures Coerce(name, typ, v).Ok? ==>
      var stored := Coerce(name, typ, v).value;
      && (Tag(stored) == typ || (typ == BoolType && stored == v && (v.ArrV? || v.NullV?)))
      && (typ == BoolType ==> Holds(stored) == Holds(v))
      && (typ != BoolType ==> NumOf(stored) == NumOf(v))
  {
  }

  /** An assignment without an index checks, in this order, that the name exists (before the
      value is even evaluated), that the value fits the name's type, that the name is not an
      array and that it is not a constant; it then replaces that one entry, whose value reads
      back. */
  lemma AssignWhole(target: string, value: Expr, st: State, collate: Collate)
    ensures target !in st.table ==> ExecAssign(target, NoIndex, value, st, collate) == Fail(NotDeclared(target))
    ensures target in st.table && Eval(value, st.table, collate).Ok? ==>
      var r := ExecAssign(target, NoIndex, value, st, collate);
      var e := st.table[target];
      var fitted := Coerce(target, e.typ, Eval(value, st.table, collate).value);
      && (fitted.Fail? ==> r == Fail(fitted.error))
      && (fitted.Ok? && e.cell.Slots? ==> r == Fail(IsArray(target)))
      && (fitted.Ok? && e.cell.Scalar? && e.constant ==> r == Fail(ConstantChange(target)))
      && (r.Ok? <==> fitted.Ok? && e.cell.Scalar? && !e.constant)
      && (r.Ok? ==>
        && r.value.table == st.table[target := Entry(Scalar(fitted.value), Tag(fitted.value), false)]
        && r.value.output == st.output
        && (fitted.value != NullV ==> Eval(Symbol(target, NoIndex), r.value.table, collate) == Ok(fitted.value)))
  {
  }

  /** An assignment to slot `k` succeeds exactly when the name is an array with a slot `k`
      and the value fits its element type; it then changes that slot alone, which reads back
      the stored value, and nothing else in the state. */
  lemma AssignSlot(target: string, k: int, value: Expr, st: State, collate: Collate)
    requires Eval(value, st.table, collate).Ok?
    ensures var r := ExecAssign(target, Value(IntV(k)), value, st, collate);
      target in st.table ==>
      var e := st.table[target];
      var fitted := Coerce(target, e.typ, Eval(value, st.table, collate).value);
      && (r.Ok? <==> fitted.Ok? && Slot(st.table, target, k).Ok? && Fits(fitted.value, e.typ))
      && (r.Ok? ==>
        && Slot(r.value.table, target, k) == Ok(fitted.value)
        && (fitted.value != NullV ==> Eval(Symbol(target, Value(IntV(k))), r.value.table, collate) == Ok(fitted.value))
        && (forall j :: j != k ==> Slot(r.value.table, target, j) == Slot(st.table, target, j))
        && (forall other :: other != target ==> Lookup(r.value.table, other) == Lookup(st.table, other))
        && r.value.output == st.output)
  {
    var v := Eval(value, st.table, collate).value;
    if target in st.table {
      var fitted := Coerce(target, st.table[target].typ, v);
      if fitted.Ok? {
        SlotWrittenMeaning(st.table, target, fitted.value, k);
      }
    }
  }

  /** Reading with an index needs an INT_TYPE index naming an existing slot that holds a
      value; reading without one needs a scalar holding a value, or gives an array's present
      elements as one ARR_TYPE value. */
  lemma ReadRules(t: Table, name: string, at: Val)
    ensures at != NullV && !at.IntV? ==> Read(t, name, at) == Fail(IndexType)
    ensures at.IntV? ==>
      && (Read(t, name, at).Ok? <==> Slot(t, name, at.i).Ok? && Slot(t, name, at.i).value != NullV)
      && (Slot(t, name, at.i) == Ok(NullV) ==> Read(t, name, at) == Fail(NoValue(name, Some(at.i))))
      && (Read(t, name, at).Ok? ==> Read(t, name, at) == Slot(t, name, at.i))
    ensures at == NullV && name in t ==>
      && (t[name].cell == Scalar(NullV) ==> Read(t, name, at) == Fail(NoValue(name, None)))
      && (t[name].cell.Slots? ==> Read(t, name, at) == Ok(ArrV(Present(t[name].cell.elems))))
      && (Read(t, name, at).Ok? ==> Read(t, name, at).value != NullV)
  {
  }

  /** A whole array reads as its elements that hold a value, in order: no empty slot shows,
      every value does, and an array with no empty slot reads as all of it. */
  lemma PresentMeaning(elems: seq<Val>)
    ensures forall x :: x in Present(elems) <==> x in elems && x != NullV
    ensures |Present(elems)| <= |elems|
    ensures (forall k :: 0 <= k < |elems| ==> elems[k] != NullV) ==> Present(elems) == elems
  {
    PresentMembers(elems);
    PresentShorter(elems);
    if forall k :: 0 <= k < |elems| ==> elems[k] != NullV {
      PresentAll(elems);
    }
  }

  lemma {:induction false} PresentMembers(elems: seq<Val>)
    ensures forall x :: x in Present(elems) <==> x in elems && x != NullV
    decreases |elems|
  {
    if elems != [] {
      var init := elems[..|elems| - 1];
      var last := elems[|elems| - 1];
      PresentMembers(init);
      assert elems == init + [last];
      assert Present(elems) == Present(init) + (if last == NullV then [] else [last]);
      forall x
        ensures x in elems <==> x in init || x == last
      {
        if x in elems {
          var k :| 0 <= k < |elems| && elems[k] == x;
          if k < |elems| - 1 {
            assert init[k] == x;
          }
        }
      }
    }
  }

  lemma {:induction false} PresentShorter(elems: seq<Val>)
    ensures |Present(elems)| <= |elems|
    decreases |elems|
  {
    if elems != [] {
      PresentShorter(elems[..|elems| - 1]);
    }
  }

  lemma {:induction false} PresentAll(elems: seq<Val>)
    requires forall k :: 0 <= k < |elems| ==> elems[k] != NullV
    ensures Present(elems) == elems
    decreases |elems|
  {
    if elems != [] {
      var init := elems[..|elems| - 1];
      assert forall k :: 0 <= k < |init| ==> init[k] == elems[k];
      PresentAll(init);
      assert elems == init + [elems[|elems| - 1]];
    }
  }

  /** RESIZE succeeds exactly on an existing array and a positive INT_TYPE size; the array
      then has exactly that many slots, keeps the values of the slots both sizes share, has
      empty new slots and keeps its element type, and nothing else changes. */
  lemma ResizeMeaning(name: string, size: Expr, st: State, collate: Collate)
    ensures name !in st.table ==> ExecResize(name, size, st, collate) == Fail(NotDeclared(name))
    ensures var r := ExecResize(name, size, st, collate);
      var n := Eval(size, st.table, collate);
      && (r.Ok? <==> name in st.table && n.Ok? && st.table[name].cell.Slots? && n.value.IntV? && n.value.i > 0)
      && (r.Ok? ==>
        var before := st.table[name].cell.elems;
        var e := r.value.table[name];
        && e.typ == st.table[name].typ && !e.constant && e.cell.Slots?
        && |e.cell.elems| == n.value.i
        && (forall j :: 0 <= j < n.value.i && j < |before| ==> e.cell.elems[j] == before[j])
        && (forall j :: |before| <= j < n.value.i ==> e.cell.elems[j] == NullV)
        && (forall other :: other != name ==> Lookup(r.value.table, other) == Lookup(st.table, other))
        && r.value.output == st.output)
  {
  }

  /** RESIZE checks, in this order, that the name exists, that the size evaluates, that the
      name is an array and that the size is a positive INT_TYPE. */
  lemma ResizeErrorOrder(name: string, size: Expr, st: State, collate: Collate)
    ensures name !in st.table ==> ExecResize(name, size, st, collate) == Fail(NotDeclared(name))
    ensures name in st.table ==>
      var r := ExecResize(name, size, st, collate);
      var n := Eval(size, st.table, collate);
      && (n.Fail? ==> r == Fail(n.error))
      && (n.Ok? && !st.table[name].cell.Slots? ==> r == Fail(NotArray(name)))
      && (n.Ok? && st.table[name].cell.Slots? && !(n.value.IntV? && n.value.i > 0) ==> r == Fail(ArraySize))
  {
  }

  /** FOR checks, in this order, that the counter exists, that it is not an array and that it
      is INT_TYPE; only then are the start, the bound and the step evaluated, all three before
      any of their types is checked. */
  lemma ForErrorOrder(counter: string, from: Expr, to: Expr, step: Expr, body: seq<Stmt>, st: State, collate: Collate, fuel: nat)
    ensures var r := Exec(For(counter, from, to, step, body), st, collate, fuel);
      && (counter !in st.table ==> r == Fail(NotDeclared(counter)))
      && (counter in st.table && st.table[counter].cell.Slots? ==> r == Fail(IsArray(counter)))
      && (counter in st.table && st.table[counter].cell.Scalar? && st.table[counter].typ != IntType ==>
        r == Fail(LoopType(st.table[counter].typ)))
    ensures counter in st.table && st.table[counter].cell.Scalar? && st.table[counter].typ == IntType ==>
      var r := Exec(For(counter, from, to, step, body), st, collate, fuel);
      var f := Eval(from, st.table, collate);
      var l := Eval(to, st.table, collate);
      var d := Eval(step, st.table, collate);
      && (f.Fail? ==> r == Fail(f.error))
      && (f.Ok? && l.Fail? ==> r == Fail(l.error))
      && (f.Ok? && l.Ok? && d.Fail? ==> r == Fail(d.error))
      && (f.Ok? && l.Ok? && d.Ok? ==>
        && (!f.value.IntV? ==> r == Fail(LoopType(Tag(f.value))))
        && (f.value.IntV? && !l.value.IntV? ==> r == Fail(LoopType(Tag(l.value))))
        && (f.value.IntV? && l.value.IntV? && !d.value.IntV? ==> r == Fail(LoopType(Tag(d.value))))
        && (f.value.IntV? && l.value.IntV? && d.value.IntV? ==>
          r == ForLoop(counter, f.value.i, l.value.i, d.value.i, body, st, collate, fuel)))
  {
  }

  /** FOR runs only with a declared, non-array INT_TYPE counter and INT_TYPE bounds and step. */
  lemma ForNeedsIntegers(counter: string, from: Expr, to: Expr, step: Expr, body: seq<Stmt>, st: State, collate: Collate, fuel: nat)
    requires Exec(For(counter, from, to, step, body), st, collate, fuel).Ok?
    ensures counter in st.table && st.table[counter].cell.Scalar? && st.table[counter].typ == IntType
    ensures Eval(from, st.table, collate).Ok? && Eval(from, st.table, collate).value.IntV?
    ensures Eval(to, st.table, collate).Ok? && Eval(to, st.table, collate).value.IntV?
    ensures Eval(step, st.table, collate).Ok? && Eval(step, st.table, collate).value.IntV?
  {
  }

  /** With a positive step and enough fuel, an empty FOR body leaves the counter at the last
      value of `from`, `from + step`, ... that does not pass `to`. */
  lemma {:induction false} ForCounterEnds(counter: string, from: int, to: int, step: int, st: State, collate: Collate, fuel: nat)
    requires step > 0 && from <= to && fuel > (to - from) / step
    requires !(counter in st.table && st.table[counter].constant)
    ensures from <= from + step * ((to - from) / step) <= to < from + step * ((to - from) / step) + step
    ensures ForLoop(counter, from, to, step, [], st, collate, fuel) ==
      Ok(st.(table := st.table[counter := Entry(Scalar(IntV(from + step * ((to - from) / step))), IntType, false)]))
    decreases fuel
  {
    var q := (to - from) / step;
    QuotientBounds(to - from, step);
    var t := st.table[counter := Entry(Scalar(IntV(from)), IntType, false)];
    assert ExecBlock([], st.(table := t), collate, fuel - 1) == Ok(st.(table := t));
    assert ForLoop(counter, from, to, step, [], st, collate, fuel)
      == ForLoop(counter, from + step, to, step, [], st.(table := t), collate, fuel - 1);
    if from + step <= to {
      NextCounter(from, to, step);
      ForCounterEnds(counter, from + step, to, step, st.(table := t), collate, fuel - 1);
      var last := from + step * q;
      assert t[counter := Entry(Scalar(IntV(last)), IntType, false)]
        == st.table[counter := Entry(Scalar(IntV(last)), IntType, false)];
    } else {
      assert q == 0;
    }
  }

  /** The last counter value seen from `from + step` is the one seen from `from`. */
  lemma NextCounter(from: int, to: int, step: int)
    requires step > 0 && from + step <= to
    ensures (to - (from + step)) / step == (to - from) / step - 1
    ensures from + step + step * ((to - (from + step)) / step) == from + step * ((to - from) / step)
  {
    var q := (to - from) / step;
    QuotientStep(to - from, step);
    assert to - (from + step) == (to - from) - step;
    assert step * (q - 1) == step * q - step;
  }

  lemma QuotientBounds(a: int, step: int)
    requires 0 <= a && step > 0
    ensures 0 <= a / step && step * (a / step) <= a < step * (a / step) + step
    ensures a < step ==> a / step == 0
  {
  }

  lemma QuotientStep(a: int, step: int)
    requires step > 0 && a >= step
    ensures (a - step) / step == a / step - 1
  {
    var q, r := a / step, a % step;
    var q', r' := (a - step) / step, (a - step) % step;
    assert step * (q' - q + 1) == r - r' by {
      assert a == step * q + r;
      assert a - step == step * q' + r';
    }
    SmallMultiple(step, q' - q + 1);
  }

  lemma SmallMultiple(step: int, x: int)
    requires step > 0 && -step < step * x < step
    ensures x == 0
  {
  }

  /** With a step that is not positive, a FOR whose first round runs never ends: with an empty
      body every amount of fuel runs out. */
  lemma {:induction false} ForNonPositiveStepRunsOut(counter: string, from: int, to: int, step: int, st: State, collate: Collate, fuel: nat)
    requires step <= 0 && from <= to
    requires !(counter in st.table && st.table[counter].constant)
    ensures ForLoop(counter, from, to, step, [], st, collate, fuel) == Fail(OutOfFuel)
    decreases fuel
  {
    if fuel > 0 {
      var t := st.table[counter := Entry(Scalar(IntV(from)), IntType, false)];
      ForNonPositiveStepRunsOut(counter, from + step, to, step, st.(table := t), collate, fuel - 1);
    }
  }

  /** The case chosen from `k` on is the first whose value evaluates to the subject: every case
      before it evaluated to something else. No case is chosen only when every case from `k`
      on evaluated to something else. */
  lemma {:induction false} ChooseFirst(cases: seq<Case>, k: nat, subject: Val, t: Table, collate: Collate)
    requires k <= |cases|
    ensures var r := Choose(cases, k, subject, t, collate);
      && (r.Ok? && r.value.Some? ==>
        && Eval(cases[r.value.value].value, t, collate) == Ok(subject)
        && forall j :: k <= j < r.value.value ==> Differs(cases, j, subject, t, collate))
      && (r == Ok(None) ==> forall j :: k <= j < |cases| ==> Differs(cases, j, subject, t, collate))
    decreases |cases| - k
  {
    if k < |cases| {
      ChooseFirst(cases, k + 1, subject, t, collate);
    }
  }

  /** The value of case `j` evaluates, to something other than the subject. */
  predicate Differs(cases: seq<Case>, j: nat, subject: Val, t: Table, collate: Collate)
    requires j < |cases|
  {
    Eval(cases[j].value, t, collate).Ok? && Eval(cases[j].value, t, collate).value != subject
  }

  /** Case `k` is the first whose value equals the subject. */
  predicate FirstEqual(cases: seq<Case>, k: nat, subject: Val, t: Table, collate: Collate)
    requires k < |cases|
  {
    Eval(cases[k].value, t, collate) == Ok(subject) && forall j :: 0 <= j < k ==> Differs(cases, j, subject, t, collate)
  }

  predicate NoneEqual(cases: seq<Case>, subject: Val, t: Table, collate: Collate) {
    forall j :: 0 <= j < |cases| ==> Differs(cases, j, subject, t, collate)
  }

  /** SWITCH runs the statements of the first case equal to the subject and nothing else;
      when no case is equal, it runs the DEFAULT part, or nothing if there is none. */
  lemma SwitchRunsFirstMatch(subject: Expr, cases: seq<Case>, default: Fallback, st: State, collate: Collate, fuel: nat)
    requires Eval(subject, st.table, collate).Ok?
    ensures forall k :: 0 <= k < |cases| && FirstEqual(cases, k, Eval(subject, st.table, collate).value, st.table, collate) ==>
      Exec(Switch(subject, cases, default), st, collate, fuel) == ExecBlock(cases[k].body, st, collate, fuel)
    ensures NoneEqual(cases, Eval(subject, st.table, collate).value, st.table, collate) ==>
      Exec(Switch(subject, cases, default), st, collate, fuel) ==
        (if default.Fallback? then ExecBlock(default.body, st, collate, fuel) else Ok(st))
  {
    var v := Eval(subject, st.table, collate).value;
    forall k | 0 <= k < |cases| && FirstEqual(cases, k, v, st.table, collate)
      ensures Exec(Switch(subject, cases, default), st, collate, fuel) == ExecBlock(cases[k].body, st, collate, fuel)
    {
      ChooseFinds(cases, 0, k, v, st.table, collate);
    }
    if NoneEqual(cases, v, st.table, collate) {
      ChooseMisses(cases, 0, v, st.table, collate);
    }
  }

  lemma {:induction false} ChooseFinds(cases: seq<Case>, k: nat, m: nat, subject: Val, t: Table, collate: Collate)
    requires k <= m < |cases| && Eval(cases[m].value, t, collate) == Ok(subject)
    requires forall j :: k <= j < m ==> Differs(cases, j, subject, t, collate)
    ensures Choose(cases, k, subject, t, collate) == Ok(Some(m))
    decreases m - k
  {
    if k < m {
      assert Differs(cases, k, subject, t, collate);
      ChooseFinds(cases, k + 1, m, subject, t, collate);
    }
  }

  lemma {:induction false} ChooseMisses(cases: seq<Case>, k: nat, subject: Val, t: Table, collate: Collate)
    requires k <= |cases|
    requires forall j :: k <= j < |cases| ==> Differs(cases, j, subject, t, collate)
    ensures Choose(cases, k, subject, t, collate) == Ok(None)
    decreases |cases| - k
  {
    if k < |cases| {
      assert Differs(cases, k, subject, t, collate);
      ChooseMisses(cases, k + 1, subject, t, collate);
    }
  }

  /** A condition that only ever evaluates to something typecast turns into BOOL_TYPE. */
  ghost predicate Boolean(cond: Expr, collate: Collate) {
    forall t: Table :: Eval(cond, t, collate).Ok? ==> Typecast(Eval(cond, t, collate).value).BoolV?
  }

  /** `REPEAT body UNTIL c` is the body once, then `WHILE NOT c DO body`, round for round. */
  lemma {:induction false} RepeatIsBodyThenWhile(until: Expr, body: seq<Stmt>, st: State, collate: Collate, fuel: nat)
    requires Boolean(until, collate)
    ensures RepeatLoop(until, body, st, collate, fuel + 1) ==
      (var next :- ExecBlock(body, st, collate, fuel); WhileLoop(Unary(Not, until), body, next, collate, fuel))
    decreases fuel
  {
    var first := ExecBlock(body, st, collate, fuel);
    if first.Ok? {
      var next := first.value;
      var c := Eval(until, next.table, collate);
      if c.Ok? {
        assert Eval(Unary(Not, until), next.table, collate) == Ok(BoolV(!Holds(c.value)));
        if !Holds(c.value) && fuel > 0 {
          RepeatIsBodyThenWhile(until, body, next, collate, fuel - 1);
        }
      }
    }
  }
}

/** The symbol table of modules/interpreter.ts: one entry per declared name, holding either a
    single value or the slots of an array, the declared (or last assigned) type, and whether
    the name is a constant. The JavaScript map is the field `table`, which every updating
    method reassigns; the functions below say what each method leaves in it.

    A slot or a scalar holding `NullV` has no value yet: reading it is an error. */
module Symbols {
  import opened Tokens
  import opened Errors
  import opened Values

  datatype Cell = Scalar(v: Val) | Slots(elems: seq<Val>)

  datatype Entry = Entry(cell: Cell, typ: TypeTag, constant: bool)

  type Table = map<string, Entry>

  /** The slots of a freshly created array: all without a value. */
  function Absent(n: nat): seq<Val> {
    seq(n, _ => NullV)
  }

  /** `get`: the entry of a declared name. */
  function Lookup(t: Table, name: string): Result<Entry> {
    if name in t then Ok(t[name]) else Fail(NotDeclared(name))
  }

  /** `set`: a constant cannot be overwritten; anything else becomes a scalar entry. */
  function Assigned(t: Table, name: string, v: Val, typ: TypeTag, constant: bool): Result<Table> {
    if name in t && t[name].constant then Fail(ConstantChange(name))
    else Ok(t[name := Entry(Scalar(v), typ, constant)])
  }

  /** `initArray`: a variable array of `size` empty slots, replacing whatever had the name. */
  function WithArray(t: Table, name: string, size: nat, typ: TypeTag): Table {
    t[name := Entry(Slots(Absent(size)), typ, false)]
  }

  /** `getArray`: the slot at a 1-based index. */
  function Slot(t: Table, name: string, index: int): Result<Val> {
    if name !in t then Fail(NotDeclared(name))
    else if !t[name].cell.Slots? then Fail(NotArray(name))
    else if index <= 0 || index > |t[name].cell.elems| then Fail(OutOfBounds(index))
    else Ok(t[name].cell.elems[index - 1])
  }

  /** `setArray`: a write to the slot at a 1-based index. An undeclared name is reported as
      not being an array, since the source never checks for it. */
  function SlotWritten(t: Table, name: string, v: Val, index: int): Result<Table> {
    if name !in t || !t[name].cell.Slots? then Fail(NotArray(name))
    else if index <= 0 || index > |t[name].cell.elems| then Fail(OutOfBounds(index))
    else
      var e := t[name];
      Ok(t[name := e.(cell := Slots(e.cell.elems[index - 1 := v]))])
  }

  /** A stored value agrees with the type its entry reports: reading it back yields the pair
      the source returns. */
  predicate Fits(v: Val, typ: TypeTag) {
    v == NullV || Tag(v) == typ
  }

  predicate EntryFits(e: Entry) {
    match e.cell
    case Scalar(v) => Fits(v, e.typ)
    case Slots(elems) => forall k :: 0 <= k < |elems| ==> Fits(elems[k], e.typ)
  }

  predicate WellTyped(t: Table) {
    forall name :: name in t ==> EntryFits(t[name])
  }

  class SymbolTable {
    var table: Table

    constructor ()
      ensures table == map[]
    {
      table := map[];
    }

    method Has(name: string) returns (b: bool)
      ensures b <==> Lookup(table, name).Ok?
    {
      b := name in table;
    }

    method Get(name: string) returns (r: Result<Entry>)
      ensures r == Lookup(table, name)
    {
      if name !in table {
        return Fail(NotDeclared(name));
      }
      r := Ok(table[name]);
    }

    method Set(name: string, v: Val, typ: TypeTag, constant: bool) returns (r: Result<()>)
      modifies this
      ensures match Assigned(old(table), name, v, typ, constant)
        case Ok(t) => r == Ok(()) && table == t
        case Fail(e) => r == Fail(e) && table == old(table)
    {
      if name in table && table[name].constant {
        return Fail(ConstantChange(name));
      }
      table := table[name := Entry(Scalar(v), typ, constant)];
      r := Ok(());
    }

    method InitArray(name: string, size: nat, typ: TypeTag)
      modifies this
      ensures table == WithArray(old(table), name, size, typ)
    {
      var slots: seq<Val> := [];
      for i := 0 to size
        invariant slots == Absent(i)
      {
        slots := slots + [NullV];
      }
      table := table[name := Entry(Slots(slots), typ, false)];
    }

    method GetArray(name: string, index: int) returns (r: Result<Val>)
      ensures r == Slot(table, name, index)
    {
      if name !in table {
        return Fail(NotDeclared(name));
      }
      var entry := table[name];
      if !entry.cell.Slots? {
        return Fail(NotArray(name));
      }
      var slots := entry.cell.elems;
      if index <= 0 || index > |slots| {
        return Fail(OutOfBounds(index));
      }
      r := Ok(slots[index - 1]);
    }

    method SetArray(name: string, v: Val, index: int) returns (r: Result<()>)
      modifies this
      ensures match SlotWritten(old(table), name, v, index)
        case Ok(t) => r == Ok(()) && table == t
        case Fail(e) => r == Fail(e) && table == old(table)
    {
      if name !in table || !table[name].cell.Slots? {
        return Fail(NotArray(name));
      }
      var entry := table[name];
      var slots := entry.cell.elems;
      if index <= 0 || index > |slots| {
        return Fail(OutOfBounds(index));
      }
      table := table[name := entry.(cell := Slots(slots[index - 1 := v]))];
      r := Ok(());
    }
  }

  /** `set` fails exactly on a constant; otherwise the name reads back as the new scalar and
      every other name keeps its entry. */
  lemma AssignedMeaning(t: Table, name: string, v: Val, typ: TypeTag, constant: bool)
    ensures Assigned(t, name, v, typ, constant).Fail? <==> Lookup(t, name).Ok? && Lookup(t, name).value.constant
    ensures Assigned(t, name, v, typ, constant).Fail? ==> Assigned(t, name, v, typ, constant).error == ConstantChange(name)
    ensures Assigned(t, name, v, typ, constant).Ok? ==>
      var u := Assigned(t, name, v, typ, constant).value;
      && Lookup(u, name) == Ok(Entry(Scalar(v), typ, constant))
      && (forall other :: other != name ==> Lookup(u, other) == Lookup(t, other))
  {
  }

  /** A new array has exactly `size` slots, all without a value, and leaves the other names
      alone. */
  lemma WithArrayMeaning(t: Table, name: string, size: nat, typ: TypeTag, index: int)
    ensures Slot(WithArray(t, name, size, typ), name, index) ==
      (if 1 <= index <= size then Ok(NullV) else Fail(OutOfBounds(index)))
    ensures forall other :: other != name ==> Lookup(WithArray(t, name, size, typ), other) == Lookup(t, other)
    ensures !Lookup(WithArray(t, name, size, typ), name).value.constant
  {
  }

  /** A slot can be written exactly where it can be read, except that reading an undeclared
      name reports it undeclared; after the write that slot reads back the new value, and every
      other slot and every other name are unchanged, as are the array's length, type and
      constness. */
  lemma SlotWrittenMeaning(t: Table, name: string, v: Val, index: int)
    ensures SlotWritten(t, name, v, index).Ok? <==> Slot(t, name, index).Ok?
    ensures name in t && SlotWritten(t, name, v, index).Fail? ==>
      SlotWritten(t, name, v, index).error == Slot(t, name, index).error
    ensures SlotWritten(t, name, v, index).Ok? ==>
      var u := SlotWritten(t, name, v, index).value;
      && Slot(u, name, index) == Ok(v)
      && (forall j :: j != index ==> Slot(u, name, j) == Slot(t, name, j))
      && (forall other :: other != name ==> Lookup(u, other) == Lookup(t, other))
      && u[name].typ == t[name].typ && u[name].constant == t[name].constant
      && |u[name].cell.elems| == |t[name].cell.elems|
  {
  }

  /** Every update keeps each stored value in agreement with its entry's type, provided the
      value written fits the type it is stored under. */
  lemma UpdatesKeepTypes(t: Table, name: string, v: Val, typ: TypeTag, constant: bool, size: nat, index: int)
    requires WellTyped(t)
    ensures Fits(v, typ) && Assigned(t, name, v, typ, constant).Ok? ==> WellTyped(Assigned(t, name, v, typ, constant).value)
    ensures WellTyped(WithArray(t, name, size, typ))
    ensures name in t && Fits(v, t[name].typ) && SlotWritten(t, name, v, index).Ok? ==>
      WellTyped(SlotWritten(t, name, v, index).value)
  {
    var u := WithArray(t, name, size, typ);
    assert EntryFits(u[name]);
    if name in t && Fits(v, t[name].typ) && SlotWritten(t, name, v, index).Ok? {
      var w := SlotWritten(t, name, v, index).value;
      assert EntryFits(w[name]);
    }
  }
}

/** The column builders of one table, appended to in place, one cell at a time. A name that is not
    in the schema, or a builder of the wrong type, would make the program panic: here it is a
    precondition, discharged at every call. */
module Builders {
  import opened Attributes
  import opened Columns
  import opened GoNumbers

  /** The stored integer gives the count back, modulo 2^64. */
  lemma CountRecovered(v: nat)
    requires v < TWO_TO_64
    ensures ToInt64(v) % TWO_TO_64 == v
    ensures MIN_INT64 <= ToInt64(v) <= MAX_INT64
  {
  }

  datatype Exemplar = Exemplar(attrs: map<string, Raw>, time: nat, value: Number, spanId: string, traceId: string)

  /** `numberValue`: a value never set reads as the double 0. */
  function NumberValue(v: Number): F64 {
    match v
    case IntNumber(i) => OfInt(i)
    case DoubleNumber(f) => f
    case NoNumber => Given(Finite(0))
  }

  /** `serviceName` of a resource with these attributes. */
  function ServiceText(attrs: map<string, Raw>): Columns.Text {
    if "service.name" !in attrs then Plain("")
    else match attrs["service.name"]
      case Text(s) => Plain(s)
      case v => Rendered(v)
  }

  const EXEMPLAR_TYPE := ListOfStruct([
    Part(FilteredAttributes, TText), Part(TimeUnix, TInt64), Part(Value, TFloat64), Part(SpanId, TText),
    Part(TraceId, TText)])

  function Json(attrs: map<string, Raw>): Cell {
    TextCell(JsonText(AttributesJson(attrs)))
  }

  function ExemplarCell(e: Exemplar): Cell {
    StructCell([Json(e.attrs), Int64Cell(ToInt64(e.time)), FloatCell(NumberValue(e.value)),
                TextCell(Plain(e.spanId)), TextCell(Plain(e.traceId))])
  }

  function ExemplarCells(es: seq<Exemplar>): seq<Cell> {
    seq(|es|, k requires 0 <= k < |es| => ExemplarCell(es[k]))
  }

  function FloatCells(vs: seq<F64>): seq<Cell> {
    seq(|vs|, k requires 0 <= k < |vs| => FloatCell(vs[k]))
  }

  function CountCells(vs: seq<nat>): seq<Cell> {
    seq(|vs|, k requires 0 <= k < |vs| => Int64Cell(ToInt64(vs[k])))
  }

  /* ---- one value at the end of a buffer ---- */

  function PushText(p: Prim, t: Text): Prim
    requires p.TextBuffer?
  {
    TextBuffer(p.texts + [t])
  }

  function PushInt64(p: Prim, i: int): Prim
    requires p.Int64Buffer?
  {
    Int64Buffer(p.ints + [i])
  }

  function PushFloat(p: Prim, f: F64): Prim
    requires p.FloatBuffer?
  {
    FloatBuffer(p.floats + [f], p.valid + [true])
  }

  lemma PushCells(p: Prim)
    ensures p.TextBuffer? ==> forall t :: PrimCells(PushText(p, t)) == PrimCells(p) + [TextCell(t)]
    ensures p.Int64Buffer? ==> forall i :: PrimCells(PushInt64(p, i)) == PrimCells(p) + [Int64Cell(i)]
    ensures p.FloatBuffer? && |p.floats| == |p.valid| ==>
      forall f :: PrimCells(PushFloat(p, f)) == PrimCells(p) + [FloatCell(f)]
  {
  }

  class BuilderSet {
    const schema: seq<Field>
    var cols: seq<Column>
    var rows: nat

    /** The rows finished so far, and the cells of the row being appended. */
    ghost var done: seq<Row>
    ghost var part: Row

    ghost predicate Valid()
      reads this
    {
      rows == |done| && Columns.Holds(schema, cols, done, part)
    }

    constructor (schema: seq<Field>)
      requires Distinct(schema)
      ensures Valid() && this.schema == schema && done == [] && part == []
    {
      this.schema := schema;
      cols := seq(|schema|, i requires 0 <= i < |schema| => EmptyColumn(schema[i].typ));
      rows, done, part := 0, [], [];
    }

    /** The cell goes to its column; nothing else changes. */
    twostate predicate Appended(cell: Cell)
      reads this
    {
      Valid() && rows == old(rows) && done == old(done) && part == old(part) + [cell]
    }

    /** The next column of the current row has this name and type: rows are filled in schema order. */
    ghost predicate CanAppend(name: Name, t: ColumnType)
      reads this
    {
      Valid() && |part| < |schema| && schema[|part|] == Field(name, t)
    }

    method Str(name: Name, v: Text)
      requires CanAppend(name, Scalar(TText))
      modifies this`cols, this`part
      ensures Appended(TextCell(v))
    {
      var i := Index(schema, name);
      assert Index(schema, schema[|part|].name) == |part|;
      assert ColumnHolds(schema[i], i, cols[i], done, part);
      var col := Cells(PushText(cols[i].p, v));
      PushCells(cols[i].p);
      CellAppended(schema, cols, done, part, col, TextCell(v));
      cols := cols[i := col];
      part := part + [TextCell(v)];
    }

    method I64(name: Name, v: int)
      requires CanAppend(name, Scalar(TInt64))
      modifies this`cols, this`part
      ensures Appended(Int64Cell(v))
    {
      var i := Index(schema, name);
      assert Index(schema, schema[|part|].name) == |part|;
      assert ColumnHolds(schema[i], i, cols[i], done, part);
      var col := Cells(PushInt64(cols[i].p, v));
      PushCells(cols[i].p);
      CellAppended(schema, cols, done, part, col, Int64Cell(v));
      cols := cols[i := col];
      part := part + [Int64Cell(v)];
    }

    method I32(name: Name, v: int)
      requires CanAppend(name, Scalar(TInt32))
      modifies this`cols, this`part
      ensures Appended(Int32Cell(v))
    {
      var i := Index(schema, name);
      assert Index(schema, schema[|part|].name) == |part|;
      assert ColumnHolds(schema[i], i, cols[i], done, part);
      var col := Cells(Int32Buffer(cols[i].p.ints + [v]));
      assert PrimCells(col.p) == PrimCells(cols[i].p) + [Int32Cell(v)];
      CellAppended(schema, cols, done, part, col, Int32Cell(v));
      cols := cols[i := col];
      part := part + [Int32Cell(v)];
    }

    method F64(name: Name, v: F64)
      requires CanAppend(name, Scalar(TFloat64))
      modifies this`cols, this`part
      ensures Appended(FloatCell(v))
    {
      var i := Index(schema, name);
      assert Index(schema, schema[|part|].name) == |part|;
      assert ColumnHolds(schema[i], i, cols[i], done, part);
      var col := Cells(PushFloat(cols[i].p, v));
      PushCells(cols[i].p);
      CellAppended(schema, cols, done, part, col, FloatCell(v));
      cols := cols[i := col];
      part := part + [FloatCell(v)];
    }

    /** An unset optional becomes a null, which no value reads as. */
    method F64OrNull(name: Name, has: bool, v: F64)
      requires CanAppend(name, NullableFloat)
      modifies this`cols, this`part
      ensures Appended(if has then FloatCell(v) else NullCell)
    {
      var i := Index(schema, name);
      assert Index(schema, schema[|part|].name) == |part|;
      assert ColumnHolds(schema[i], i, cols[i], done, part);
      var p := cols[i].p;
      var col;
      if has {
        col := Cells(PushFloat(p, v));
        PushCells(p);
      } else {
        col := Cells(FloatBuffer(p.floats + [Given(Finite(0))], p.valid + [false]));
        assert PrimCells(col.p) == PrimCells(p) + [NullCell];
      }
      CellAppended(schema, cols, done, part, col, if has then FloatCell(v) else NullCell);
      cols := cols[i := col];
      part := part + [if has then FloatCell(v) else NullCell];
    }

    method Boolean(name: Name, v: bool)
      requires CanAppend(name, Scalar(TBool))
      modifies this`cols, this`part
      ensures Appended(BoolCell(v))
    {
      var i := Index(schema, name);
      assert Index(schema, schema[|part|].name) == |part|;
      assert ColumnHolds(schema[i], i, cols[i], done, part);
      var col := Cells(BoolBuffer(cols[i].p.bools + [v]));
      assert PrimCells(col.p) == PrimCells(cols[i].p) + [BoolCell(v)];
      CellAppended(schema, cols, done, part, col, BoolCell(v));
      cols := cols[i := col];
      part := part + [BoolCell(v)];
    }

    /** Starts a list at the end of its child buffer, and takes the child with the items appended. */
    method List(name: Name, t: ColumnType, child: Child, ghost items: seq<Cell>)
      requires CanAppend(name, t) && (t.ListOf? || t.ListOfStruct?)
      requires ChildOk(ChildOf(name, t), t) && ChildOk(child, t)
      requires ChildCells(child, t) == ChildCells(ChildOf(name, t), t) + items
      modifies this`cols, this`part
      ensures Appended(ListCell(items))
    {
      var i := Index(schema, name);
      assert Index(schema, schema[|part|].name) == |part|;
      assert ColumnHolds(schema[i], i, cols[i], done, part);
      var col := Lists(cols[i].offsets + [ChildLen(cols[i].child)], child);
      ListAppended(cols[i].offsets, cols[i].child, child, t, items);
      CellAppended(schema, cols, done, part, col, ListCell(items));
      cols := cols[i := col];
      part := part + [ListCell(items)];
    }

    /** `ValueBuilder` of a list column. */
    function ChildOf(name: Name, t: ColumnType): (c: Child)
      requires CanAppend(name, t) && (t.ListOf? || t.ListOfStruct?)
      reads this
      ensures ChildOk(c, t)
    {
      assert Index(schema, schema[|part|].name) == |part|;
      assert ColumnHolds(schema[|part|], |part|, cols[|part|], done, part);
      cols[Index(schema, name)].child
    }

    method F64List(name: Name, vs: seq<F64>)
      requires CanAppend(name, ListOf(TFloat64))
      modifies this`cols, this`part
      ensures Appended(ListCell(FloatCells(vs)))
    {
      var child := AppendFloats(ChildOf(name, ListOf(TFloat64)), vs);
      List(name, ListOf(TFloat64), child, FloatCells(vs));
    }

    method I64ListFromUint(name: Name, vs: seq<nat>)
      requires CanAppend(name, ListOf(TInt64))
      modifies this`cols, this`part
      ensures Appended(ListCell(CountCells(vs)))
    {
      var child := AppendCounts(ChildOf(name, ListOf(TInt64)), vs);
      List(name, ListOf(TInt64), child, CountCells(vs));
    }

    method ExemplarList(name: Name, es: seq<Exemplar>)
      requires CanAppend(name, EXEMPLAR_TYPE)
      modifies this`cols, this`part
      ensures Appended(ListCell(ExemplarCells(es)))
    {
      var child := AppendExemplars(ChildOf(name, EXEMPLAR_TYPE), es);
      List(name, EXEMPLAR_TYPE, child, ExemplarCells(es));
    }

    /** The row is complete once every column has its cell. */
    method EndRow()
      requires Valid() && |part| == |schema|
      modifies this`rows, this`done, this`part
      ensures Valid() && part == [] && done == old(done) + [old(part)] && rows == old(rows) + 1
    {
      RowCompleted(schema, cols, done, part);
      rows := rows + 1;
      done := done + [part];
      part := [];
    }

    /** `NewRecordBatch`: it would panic if the columns differed in length. */
    method NewRecordBatch() returns (r: Record)
      requires Valid() && part == []
      ensures Reads(r, done) && r.schema == schema
    {
      HoldsReads(schema, cols, done);
      r := Record(schema, rows, cols);
    }
  }

  /** The text of an attribute map, as it goes into a string column. */
  method AttributesText(attrs: map<string, Raw>) returns (t: Columns.Text)
    ensures TextCell(t) == Json(attrs)
  {
    var json := AttributesToJSON(attrs);
    t := JsonText(json);
  }

  method AppendFloats(c: Child, vs: seq<F64>) returns (c': Child)
    requires ChildOk(c, ListOf(TFloat64))
    ensures ChildOk(c', ListOf(TFloat64))
    ensures ChildCells(c', ListOf(TFloat64)) == ChildCells(c, ListOf(TFloat64)) + FloatCells(vs)
  {
    var p := c.p;
    for k := 0 to |vs|
      invariant PrimOk(p, TFloat64) && PrimCells(p) == PrimCells(c.p) + FloatCells(vs[..k])
    {
      PushCells(p);
      assert FloatCells(vs[..k + 1]) == FloatCells(vs[..k]) + [FloatCell(vs[k])];
      p := PushFloat(p, vs[k]);
    }
    assert vs[..|vs|] == vs;
    c' := Values(p);
  }

  method AppendCounts(c: Child, vs: seq<nat>) returns (c': Child)
    requires ChildOk(c, ListOf(TInt64))
    ensures ChildOk(c', ListOf(TInt64))
    ensures ChildCells(c', ListOf(TInt64)) == ChildCells(c, ListOf(TInt64)) + CountCells(vs)
  {
    var p := c.p;
    for k := 0 to |vs|
      invariant PrimOk(p, TInt64) && PrimCells(p) == PrimCells(c.p) + CountCells(vs[..k])
    {
      PushCells(p);
      assert CountCells(vs[..k + 1]) == CountCells(vs[..k]) + [Int64Cell(ToInt64(vs[k]))];
      p := PushInt64(p, ToInt64(vs[k]));
    }
    assert vs[..|vs|] == vs;
    c' := Values(p);
  }

  /** For each exemplar the struct is opened and then each of its fields gets one value. */
  method AppendExemplars(c: Child, es: seq<Exemplar>) returns (st: Child)
    requires ChildOk(c, EXEMPLAR_TYPE)
    ensures ChildOk(st, EXEMPLAR_TYPE)
    ensures ChildCells(st, EXEMPLAR_TYPE) == ChildCells(c, EXEMPLAR_TYPE) + ExemplarCells(es)
  {
    st := c;
    for k := 0 to |es|
      invariant ChildOk(st, EXEMPLAR_TYPE)
      invariant ChildCells(st, EXEMPLAR_TYPE) == ChildCells(c, EXEMPLAR_TYPE) + ExemplarCells(es[..k])
    {
      assert ExemplarCells(es[..k + 1]) == ExemplarCells(es[..k]) + [ExemplarCell(es[k])];
      st := AppendExemplar(st, es[k]);
    }
    assert es[..|es|] == es;
  }

  method AppendExemplar(c: Child, e: Exemplar) returns (st: Child)
    requires ChildOk(c, EXEMPLAR_TYPE)
    ensures ChildOk(st, EXEMPLAR_TYPE)
    ensures ChildCells(st, EXEMPLAR_TYPE) == ChildCells(c, EXEMPLAR_TYPE) + [ExemplarCell(e)]
  {
    st := Structs(c.len + 1, c.fields);
    var json := AttributesText(e.attrs);
    st := st.(fields := st.fields[0 := PushText(st.fields[0], json)]);
    st := st.(fields := st.fields[1 := PushInt64(st.fields[1], ToInt64(e.time))]);
    st := st.(fields := st.fields[2 := PushFloat(st.fields[2], NumberValue(e.value))]);
    st := st.(fields := st.fields[3 := PushText(st.fields[3], Plain(e.spanId))]);
    st := st.(fields := st.fields[4 := PushText(st.fields[4], Plain(e.traceId))]);
    ghost var cell := [Json(e.attrs), Int64Cell(ToInt64(e.time)), FloatCell(NumberValue(e.value)),
                       TextCell(Plain(e.spanId)), TextCell(Plain(e.traceId))];
    StructAppended(c, st, EXEMPLAR_TYPE, cell);
  }

  /** One value pushed to every field of a struct child is one struct more. */
  lemma StructAppended(c: Child, st: Child, t: ColumnType, cell: seq<Cell>)
    requires t.ListOfStruct? && ChildOk(c, t) && st.Structs? && st.len == c.len + 1
    requires |st.fields| == |c.fields| == |cell|
    requires forall f :: 0 <= f < |cell| ==>
      PrimOk(st.fields[f], t.parts[f].p) && PrimCells(st.fields[f]) == PrimCells(c.fields[f]) + [cell[f]]
    ensures ChildOk(st, t) && ChildCells(st, t) == ChildCells(c, t) + [StructCell(cell)]
  {
    forall f | 0 <= f < |cell| ensures PrimLen(st.fields[f]) == st.len {
      assert |PrimCells(st.fields[f])| == PrimLen(st.fields[f]);
    }
    forall k | 0 <= k < c.len ensures ChildCells(st, t)[k] == ChildCells(c, t)[k] {
      forall f | 0 <= f < |cell| ensures PrimCell(st.fields[f], k) == PrimCell(c.fields[f], k) {
        assert PrimCells(st.fields[f])[k] == PrimCells(c.fields[f])[k];
      }
      assert ChildCells(st, t)[k].fields == ChildCells(c, t)[k].fields;
    }
    forall f | 0 <= f < |cell| ensures PrimCell(st.fields[f], c.len) == cell[f] {
      assert PrimCells(st.fields[f])[c.len] == cell[f];
    }
    assert ChildCells(st, t)[c.len].fields == cell;
  }
}

/** Append-only column buffers of one table, and the rows they stand for.

    A list column keeps one start offset per row into a child buffer; a struct child keeps one
    buffer per field, all of one length; a float buffer keeps a validity bit per value. */
module Columns {
  import opened Attributes
  import opened GoNumbers
  import opened Options

  /** All column names of the exporter's tables, spelled as in the schemas. */
  datatype Name =
    | ResourceAttributes | ResourceSchemaUrl | ScopeName | ScopeVersion | ScopeAttributes | ScopeSchemaUrl
    | ServiceName | MetricName | MetricDescription | MetricUnit | PointAttributes | StartTimeUnix | TimeUnix | Flags
    | Value | Exemplars | AggregationTemporality | IsMonotonic
    | Count | SumOfValues | BucketCounts | ExplicitBounds | Min | Max
    | Scale | ZeroCount | PositiveOffset | PositiveBucketCounts | NegativeOffset | NegativeBucketCounts
    | ValueAtQuantiles
    | Timestamp | TraceId | SpanId | ParentSpanId | TraceState | SpanName | SpanKind | SpanAttributes
    | Duration | StatusCode | StatusMessage | Events | Links
    | FilteredAttributes | QuantileName | EventName

  /** A string cell: plain text, the JSON of an attribute map, or a non-string attribute as a string. */
  datatype Text = Plain(s: string) | JsonText(j: Json) | Rendered(v: Raw)

  /* ---- buffers ---- */

  datatype PrimType = TText | TInt64 | TInt32 | TFloat64 | TBool

  /** A field of the structs in a list. */
  datatype Part = Part(name: Name, p: PrimType)

  datatype ColumnType = Scalar(p: PrimType) | NullableFloat | ListOf(p: PrimType) | ListOfStruct(parts: seq<Part>)

  datatype Field = Field(name: Name, typ: ColumnType)

  datatype Prim =
    | TextBuffer(texts: seq<Text>)
    | Int64Buffer(ints: seq<int>)
    | Int32Buffer(ints: seq<int>)
    | FloatBuffer(floats: seq<F64>, valid: seq<bool>)
    | BoolBuffer(bools: seq<bool>)

  datatype Child = Values(p: Prim) | Structs(len: nat, fields: seq<Prim>)

  datatype Column = Cells(p: Prim) | Lists(offsets: seq<nat>, child: Child)

  /* ---- what the buffers mean ---- */

  datatype Cell =
    | TextCell(t: Text) | Int64Cell(i: int) | Int32Cell(i: int) | FloatCell(f: F64) | NullCell | BoolCell(b: bool)
    | ListCell(items: seq<Cell>) | StructCell(fields: seq<Cell>)

  /** One cell per column, in schema order. */
  type Row = seq<Cell>

  predicate PrimOk(p: Prim, t: PrimType) {
    match t
    case TText => p.TextBuffer?
    case TInt64 => p.Int64Buffer?
    case TInt32 => p.Int32Buffer?
    case TFloat64 => p.FloatBuffer? && |p.valid| == |p.floats|
    case TBool => p.BoolBuffer?
  }

  function PrimLen(p: Prim): nat {
    match p
    case TextBuffer(ts) => |ts|
    case Int64Buffer(ns) => |ns|
    case Int32Buffer(ns) => |ns|
    case FloatBuffer(fs, _) => |fs|
    case BoolBuffer(bs) => |bs|
  }

  function PrimCell(p: Prim, k: nat): Cell
    requires k < PrimLen(p) && (p.FloatBuffer? ==> |p.valid| == |p.floats|)
  {
    match p
    case TextBuffer(ts) => TextCell(ts[k])
    case Int64Buffer(ns) => Int64Cell(ns[k])
    case Int32Buffer(ns) => Int32Cell(ns[k])
    case FloatBuffer(fs, valid) => if valid[k] then FloatCell(fs[k]) else NullCell
    case BoolBuffer(bs) => BoolCell(bs[k])
  }

  function PrimCells(p: Prim): (cs: seq<Cell>)
    requires p.FloatBuffer? ==> |p.valid| == |p.floats|
    ensures |cs| == PrimLen(p)
  {
    seq(PrimLen(p), k requires 0 <= k < PrimLen(p) => PrimCell(p, k))
  }

  /** Struct fields are aligned: each has one value per struct. */
  predicate ChildOk(c: Child, t: ColumnType) {
    match t
    case ListOf(p) => c.Values? && PrimOk(c.p, p)
    case ListOfStruct(parts) =>
      && c.Structs? && |c.fields| == |parts|
      && forall f :: 0 <= f < |parts| ==> PrimOk(c.fields[f], parts[f].p) && PrimLen(c.fields[f]) == c.len
    case _ => false
  }

  function ChildLen(c: Child): nat {
    match c case Values(p) => PrimLen(p) case Structs(len, _) => len
  }

  function ChildCells(c: Child, t: ColumnType): (cs: seq<Cell>)
    requires ChildOk(c, t)
    ensures |cs| == ChildLen(c)
  {
    match c
    case Values(p) => PrimCells(p)
    case Structs(len, fields) =>
      seq(len, k requires 0 <= k < len =>
        StructCell(seq(|fields|, f requires 0 <= f < |fields| => PrimCell(fields[f], k))))
  }

  /** Offsets ascend and stay within the child. */
  predicate ColumnOk(c: Column, t: ColumnType) {
    match t
    case Scalar(p) => c.Cells? && PrimOk(c.p, p)
    case NullableFloat => c.Cells? && PrimOk(c.p, TFloat64)
    case _ =>
      c.Lists? && ChildOk(c.child, t) && Ascending(c.offsets, ChildLen(c.child))
  }

  function ColumnLen(c: Column): nat {
    match c case Cells(p) => PrimLen(p) case Lists(offsets, _) => |offsets|
  }

  /** Where the list of row `r` ends: at the next row's start, or at the end of the child. */
  function ListEnd(offsets: seq<nat>, n: nat, r: nat): nat
    requires r < |offsets|
  {
    if r + 1 < |offsets| then offsets[r + 1] else n
  }

  /** Offsets that ascend and stay within `n` child cells. */
  predicate Ascending(offsets: seq<nat>, n: nat) {
    forall r :: 0 <= r < |offsets| ==> offsets[r] <= ListEnd(offsets, n, r) <= n
  }

  function Slices(offsets: seq<nat>, cells: seq<Cell>): (cs: seq<Cell>)
    requires Ascending(offsets, |cells|)
    ensures |cs| == |offsets|
  {
    seq(|offsets|, r requires 0 <= r < |offsets| => ListCell(cells[offsets[r]..ListEnd(offsets, |cells|, r)]))
  }

  /** The cells of a column, one per row. */
  function Decode(c: Column, t: ColumnType): (cs: seq<Cell>)
    requires ColumnOk(c, t)
    ensures |cs| == ColumnLen(c)
  {
    match c
    case Cells(p) => PrimCells(p)
    case Lists(offsets, child) => Slices(offsets, ChildCells(child, t))
  }

  function EmptyPrim(t: PrimType): Prim {
    match t
    case TText => TextBuffer([])
    case TInt64 => Int64Buffer([])
    case TInt32 => Int32Buffer([])
    case TFloat64 => FloatBuffer([], [])
    case TBool => BoolBuffer([])
  }

  function EmptyColumn(t: ColumnType): (c: Column)
    ensures ColumnOk(c, t) && Decode(c, t) == []
  {
    match t
    case Scalar(p) => Cells(EmptyPrim(p))
    case NullableFloat => Cells(EmptyPrim(TFloat64))
    case ListOf(p) => Lists([], Values(EmptyPrim(p)))
    case ListOfStruct(parts) =>
      Lists([], Structs(0, seq(|parts|, f requires 0 <= f < |parts| => EmptyPrim(parts[f].p))))
  }

  /** Starting a list and then appending `items` to the child makes one more list cell, and leaves
      the earlier ones as they were. */
  lemma SlicesAppended(offsets: seq<nat>, cells: seq<Cell>, items: seq<Cell>)
    requires Ascending(offsets, |cells|)
    ensures Ascending(offsets + [|cells|], |cells + items|)
    ensures Slices(offsets + [|cells|], cells + items) == Slices(offsets, cells) + [ListCell(items)]
  {
    var offsets', cells' := offsets + [|cells|], cells + items;
    assert cells'[|cells|..|cells'|] == items;
    forall r | 0 <= r < |offsets|
      ensures ListEnd(offsets', |cells'|, r) == ListEnd(offsets, |cells|, r)
      ensures cells'[offsets'[r]..ListEnd(offsets', |cells'|, r)] == cells[offsets[r]..ListEnd(offsets, |cells|, r)]
    {
      assert offsets[r] <= ListEnd(offsets, |cells|, r) <= |cells|;
      if r + 1 < |offsets| { assert offsets'[r + 1] == offsets[r + 1]; }
    }
    assert ListEnd(offsets', |cells'|, |offsets|) == |cells'|;
  }

  lemma ListAppended(offsets: seq<nat>, child: Child, child': Child, t: ColumnType, items: seq<Cell>)
    requires ColumnOk(Lists(offsets, child), t) && ChildOk(child', t) && (t.ListOf? || t.ListOfStruct?)
    requires ChildCells(child', t) == ChildCells(child, t) + items
    ensures ColumnOk(Lists(offsets + [ChildLen(child)], child'), t)
    ensures Decode(Lists(offsets + [ChildLen(child)], child'), t)
      == Decode(Lists(offsets, child), t) + [ListCell(items)]
  {
    SlicesAppended(offsets, ChildCells(child, t), items);
  }

  /* ---- the builder set ---- */

  function Index(schema: seq<Field>, name: Name): (i: nat)
    ensures i <= |schema|
    ensures i < |schema| ==> schema[i].name == name
    ensures forall j :: 0 <= j < i ==> schema[j].name != name
  {
    if schema == [] then 0
    else if schema[0].name == name then 0
    else 1 + Index(schema[1..], name)
  }

  /** The cell of a row in the column of this name. */
  function CellOf(schema: seq<Field>, row: Row, name: Name): Option<Cell> {
    var i := Index(schema, name);
    if i < |schema| && i < |row| then Some(row[i]) else None
  }

  function PartIndex(parts: seq<Part>, name: Name): (i: nat)
    ensures i <= |parts|
    ensures i < |parts| ==> parts[i].name == name
  {
    if parts == [] then 0
    else if parts[0].name == name then 0
    else 1 + PartIndex(parts[1..], name)
  }

  /** The field of this name of a struct cell. */
  function PartOf(t: ColumnType, cell: Cell, name: Name): Option<Cell> {
    if !t.ListOfStruct? || !cell.StructCell? then None else
    var i := PartIndex(t.parts, name);
    if i < |t.parts| && i < |cell.fields| then Some(cell.fields[i]) else None
  }

  /* ---- what a cell should say ---- */

  predicate IsText(c: Option<Cell>, s: string) {
    c == Some(TextCell(Plain(s)))
  }

  predicate IsJson(c: Option<Cell>, j: Json) {
    c == Some(TextCell(JsonText(j)))
  }

  /** The service name of a resource: text as it is, any other value rendered, none as nothing. */
  predicate IsService(c: Option<Cell>, attrs: map<string, Raw>) {
    if "service.name" !in attrs then IsText(c, "")
    else if attrs["service.name"].Text? then IsText(c, attrs["service.name"].s)
    else c == Some(TextCell(Rendered(attrs["service.name"])))
  }

  predicate IsList(c: Option<Cell>, n: nat) {
    c.Some? && c.value.ListCell? && |c.value.items| == n
  }

  /** No column is listed twice: each is found by its own name. */
  ghost predicate Distinct(schema: seq<Field>) {
    forall i {:trigger Index(schema, schema[i].name)} :: 0 <= i < |schema| ==> Index(schema, schema[i].name) == i
  }

  ghost predicate Rectangular(schema: seq<Field>, rows: seq<Row>) {
    forall r :: 0 <= r < |rows| ==> |rows[r]| == |schema|
  }

  /** One column of a list of rows. */
  function ColumnOf(rows: seq<Row>, i: nat): seq<Cell>
    requires forall r :: 0 <= r < |rows| ==> i < |rows[r]|
  {
    seq(|rows|, r requires 0 <= r < |rows| => rows[r][i])
  }

  /** Column `i` holds the rows `done` and, if it is already set, the cell of one more row. */
  ghost predicate ColumnHolds(f: Field, i: nat, col: Column, done: seq<Row>, part: Row)
    requires forall r :: 0 <= r < |done| ==> i < |done[r]|
  {
    && ColumnOk(col, f.typ)
    && Decode(col, f.typ) == ColumnOf(done, i) + if i < |part| then [part[i]] else []
  }

  /** The buffers hold the rows `done` and the first cells, `part`, of one more row. */
  ghost predicate Holds(schema: seq<Field>, cols: seq<Column>, done: seq<Row>, part: Row) {
    && Distinct(schema) && |cols| == |schema| && Rectangular(schema, done) && |part| <= |schema|
    && (forall i {:trigger cols[i]} :: 0 <= i < |schema| ==> ColumnHolds(schema[i], i, cols[i], done, part))
  }

  /** A cell is found under the name of its column. */
  lemma FoundAt(schema: seq<Field>, row: Row, i: nat)
    requires Distinct(schema) && i < |schema| && i < |row|
    ensures CellOf(schema, row, schema[i].name) == Some(row[i])
  {
    assert Index(schema, schema[i].name) == i;
  }

  lemma Found(schema: seq<Field>, row: Row, i: nat, name: Name, cell: Cell)
    requires Distinct(schema) && i < |schema| && schema[i].name == name && i < |row| && row[i] == cell
    ensures CellOf(schema, row, name) == Some(cell)
  {
    FoundAt(schema, row, i);
  }

  lemma {:induction false} PartFound(ps: seq<Part>, i: nat)
    requires i < |ps| && forall j :: 0 <= j < i ==> ps[j].name != ps[i].name
    ensures PartIndex(ps, ps[i].name) == i
  {
    if i > 0 {
      PartFound(ps[1..], i - 1);
    }
  }

  lemma StructFound(t: ColumnType, cells: seq<Cell>, i: nat, name: Name)
    requires t.ListOfStruct? && i < |t.parts| && i < |cells| && t.parts[i].name == name
    requires forall j :: 0 <= j < i ==> t.parts[j].name != name
    ensures PartOf(t, StructCell(cells), name) == Some(cells[i])
  {
    PartFound(t.parts, i);
  }

  lemma CellAppended(schema: seq<Field>, cols: seq<Column>, done: seq<Row>, part: Row, col: Column, cell: Cell)
    requires Holds(schema, cols, done, part) && |part| < |schema|
    requires var i := |part|;
      ColumnOk(col, schema[i].typ) && Decode(col, schema[i].typ) == Decode(cols[i], schema[i].typ) + [cell]
    ensures Holds(schema, cols[|part| := col], done, part + [cell])
  {
    forall k | 0 <= k < |schema| ensures ColumnHolds(schema[k], k, cols[|part| := col][k], done, part + [cell]) {
      assert ColumnHolds(schema[k], k, cols[k], done, part);
    }
  }

  /** Once every column has its cell the row is complete. */
  lemma RowCompleted(schema: seq<Field>, cols: seq<Column>, done: seq<Row>, part: Row)
    requires Holds(schema, cols, done, part) && |part| == |schema|
    ensures Holds(schema, cols, done + [part], [])
  {
    forall i | 0 <= i < |schema| ensures ColumnHolds(schema[i], i, cols[i], done + [part], []) {
      assert ColumnHolds(schema[i], i, cols[i], done, part);
      assert ColumnOf(done + [part], i) == ColumnOf(done, i) + [part[i]];
    }
  }

  /** A finished table: all columns have the same length. */
  datatype Record = Record(schema: seq<Field>, rows: nat, cols: seq<Column>)

  predicate RecordOk(r: Record) {
    && |r.cols| == |r.schema|
    && forall i :: 0 <= i < |r.schema| ==> ColumnOk(r.cols[i], r.schema[i].typ) && ColumnLen(r.cols[i]) == r.rows
  }

  /** Reading a table back: the record says exactly the rows `rows`, cell by cell. */
  ghost predicate Reads(r: Record, rows: seq<Row>) {
    && RecordOk(r) && r.rows == |rows| && Rectangular(r.schema, rows)
    && forall i, k :: 0 <= i < |r.schema| && 0 <= k < |rows| ==> Decode(r.cols[i], r.schema[i].typ)[k] == rows[k][i]
  }

  /** Row `k` as it is read from the columns. */
  function DecodedRow(r: Record, k: nat): (row: Row)
    requires RecordOk(r) && k < r.rows
    ensures |row| == |r.schema|
  {
    seq(|r.schema|, i requires 0 <= i < |r.schema| => Decode(r.cols[i], r.schema[i].typ)[k])
  }

  lemma HoldsReads(schema: seq<Field>, cols: seq<Column>, done: seq<Row>)
    requires Holds(schema, cols, done, [])
    ensures Reads(Record(schema, |done|, cols), done)
  {
    forall i | 0 <= i < |schema|
      ensures ColumnOk(cols[i], schema[i].typ) && Decode(cols[i], schema[i].typ) == ColumnOf(done, i)
    {
      assert ColumnHolds(schema[i], i, cols[i], done, []);
    }
  }

  lemma RowDecoded(r: Record, rows: seq<Row>, k: nat)
    requires Reads(r, rows) && k < |rows|
    ensures DecodedRow(r, k) == rows[k]
  {
  }

  /** A record reads as only one list of rows. */
  lemma ReadsOnce(r: Record, a: seq<Row>, b: seq<Row>)
    requires Reads(r, a) && Reads(r, b)
    ensures a == b
  {
    forall k | 0 <= k < |a| ensures a[k] == b[k] {
      forall i | 0 <= i < |r.schema| ensures a[k][i] == b[k][i] {
        assert Decode(r.cols[i], r.schema[i].typ)[k] == a[k][i];
      }
    }
  }
}

/** Flattening a traces tree into one table with two list-of-struct columns. */
module TracesTable {
  import opened Attributes
  import opened Columns
  import opened GoNumbers
  import opened Options
  import opened Builders
  import opened Schemas

  type Attrs = map<string, Raw>

  datatype Event = Event(time: nat, name: string, attrs: Attrs)

  datatype Link = Link(traceId: string, spanId: string, traceState: string, attrs: Attrs)

  datatype Span = Span(
    start: nat, end: nat, traceId: string, spanId: string, parentSpanId: string, traceState: string, name: string,
    kind: string, attrs: Attrs, statusCode: string, statusMessage: string, events: seq<Event>, links: seq<Link>)

  datatype ScopeSpans = ScopeSpans(name: string, version: string, spans: seq<Span>)
  datatype ResourceSpans = ResourceSpans(attrs: Attrs, scopes: seq<ScopeSpans>)
  type Tree = seq<ResourceSpans>

  /** What all spans of a scope share. */
  datatype Meta = Meta(service: Columns.Text, resAttrs: Columns.Text, scopeName: string, scopeVersion: string)

  function MetaOf(r: ResourceSpans, s: ScopeSpans): Meta {
    Meta(ServiceText(r.attrs), JsonText(AttributesJson(r.attrs)), s.name, s.version)
  }

  function Str(s: string): Cell { TextCell(Plain(s)) }

  /** The stored duration: 0 unless the span ends after it starts. */
  function DurationOf(s: Span): int {
    if s.end > s.start then ToInt64(s.end - s.start) else 0
  }

  /** For the uint64 clock readings of a span, the stored duration is how long it took, never less
      than 0, exactly when it took less than 2^63 ns. A longer one comes out negative. */
  lemma DurationIsElapsed(s: Span)
    requires s.start < TWO_TO_64 && s.end < TWO_TO_64
    ensures (DurationOf(s) == if s.end > s.start then s.end - s.start else 0) <==> s.end - s.start < TWO_TO_63
    ensures s.end - s.start >= TWO_TO_63 <==> DurationOf(s) < 0
  {
  }

  /** 2^63 ns, some 292 years, is the first that does not fit. */
  lemma LongestWraps(s: Span)
    requires s.start == 0 && s.end == TWO_TO_63
    ensures DurationOf(s) == MIN_INT64 != s.end - s.start
  {
  }

  function EventCell(e: Event): Cell {
    StructCell([Int64Cell(ToInt64(e.time)), Str(e.name), Builders.Json(e.attrs)])
  }

  function EventCells(es: seq<Event>): seq<Cell> {
    seq(|es|, k requires 0 <= k < |es| => EventCell(es[k]))
  }

  function LinkCell(l: Link): Cell {
    StructCell([Str(l.traceId), Str(l.spanId), Str(l.traceState), Builders.Json(l.attrs)])
  }

  function LinkCells(ls: seq<Link>): seq<Cell> {
    seq(|ls|, k requires 0 <= k < |ls| => LinkCell(ls[k]))
  }

  /** A span's row up to its resource; up to its status; and the whole row. */
  function SpanCells(s: Span, m: Meta): (row: Row)
    ensures |row| == 9
  {
    []
    + [Int64Cell(ToInt64(s.start))]
    + [Str(s.traceId)]
    + [Str(s.spanId)]
    + [Str(s.parentSpanId)]
    + [Str(s.traceState)]
    + [Str(s.name)]
    + [Str(s.kind)]
    + [TextCell(m.service)]
    + [TextCell(m.resAttrs)]
  }

  function StatusCells(s: Span, m: Meta): (row: Row)
    ensures |row| == 15
  {
    SpanCells(s, m)
    + [Str(m.scopeName)]
    + [Str(m.scopeVersion)]
    + [Builders.Json(s.attrs)]
    + [Int64Cell(DurationOf(s))]
    + [Str(s.statusCode)]
    + [Str(s.statusMessage)]
  }

  function SpanRow(s: Span, m: Meta): (row: Row)
    ensures |row| == 17
  {
    StatusCells(s, m) + [ListCell(EventCells(s.events))] + [ListCell(LinkCells(s.links))]
  }

  /* ---- the rows of a tree, in document order ---- */

  function ScopeRows(r: ResourceSpans, s: ScopeSpans, n: nat): (rows: seq<Row>)
    requires n <= |s.spans|
    ensures |rows| == n
  {
    seq(n, k requires 0 <= k < n => SpanRow(s.spans[k], MetaOf(r, s)))
  }

  function ResourceRows(r: ResourceSpans, n: nat): seq<Row>
    requires n <= |r.scopes|
  {
    if n == 0 then [] else ResourceRows(r, n - 1) + ScopeRows(r, r.scopes[n - 1], |r.scopes[n - 1].spans|)
  }

  function RowsUpTo(t: Tree, n: nat): seq<Row>
    requires n <= |t|
  {
    if n == 0 then [] else RowsUpTo(t, n - 1) + ResourceRows(t[n - 1], |t[n - 1].scopes|)
  }

  function ResourceCount(r: ResourceSpans, n: nat): nat
    requires n <= |r.scopes|
  {
    if n == 0 then 0 else ResourceCount(r, n - 1) + |r.scopes[n - 1].spans|
  }

  function CountUpTo(t: Tree, n: nat): nat
    requires n <= |t|
  {
    if n == 0 then 0 else CountUpTo(t, n - 1) + ResourceCount(t[n - 1], |t[n - 1].scopes|)
  }

  /** All rows of a tree. */
  function TreeRows(t: Tree): seq<Row> {
    RowsUpTo(t, |t|)
  }

  /** How many spans a tree has. */
  function TreeCount(t: Tree): nat {
    CountUpTo(t, |t|)
  }

  predicate IsSpan(t: Tree, i: nat, j: nat, k: nat) {
    i < |t| && j < |t[i].scopes| && k < |t[i].scopes[j].spans|
  }

  /** The row number of the k-th span of the j-th scope of the i-th resource: the number of spans
      before it in the document. */
  function RowNumber(t: Tree, i: nat, j: nat, k: nat): nat
    requires IsSpan(t, i, j, k)
  {
    CountUpTo(t, i) + ResourceCount(t[i], j) + k
  }

  lemma {:induction false} ResourceRowsAt(r: ResourceSpans, n: nat, j: nat, k: nat)
    requires j < n <= |r.scopes| && k < |r.scopes[j].spans|
    ensures |ResourceRows(r, n)| == ResourceCount(r, n) && |ResourceRows(r, j)| == ResourceCount(r, j)
    ensures ResourceCount(r, j) + k < ResourceCount(r, n)
    ensures ResourceRows(r, n)[ResourceCount(r, j) + k] == SpanRow(r.scopes[j].spans[k], MetaOf(r, r.scopes[j]))
  {
    ResourceRowsCounted(r, n);
    ResourceRowsCounted(r, j);
    ResourceRowsCounted(r, n - 1);
    if j < n - 1 {
      ResourceRowsAt(r, n - 1, j, k);
    }
  }

  lemma {:induction false} ResourceRowsCounted(r: ResourceSpans, n: nat)
    requires n <= |r.scopes|
    ensures |ResourceRows(r, n)| == ResourceCount(r, n)
  {
    if n > 0 { ResourceRowsCounted(r, n - 1); }
  }

  lemma {:induction false} RowsCounted(t: Tree, n: nat)
    requires n <= |t|
    ensures |RowsUpTo(t, n)| == CountUpTo(t, n)
  {
    if n > 0 {
      RowsCounted(t, n - 1);
      ResourceRowsCounted(t[n - 1], |t[n - 1].scopes|);
    }
  }

  /** Every span has its row, at the number of spans before it; and there are no more rows than spans. */
  lemma {:induction false} SpanHasItsRow(t: Tree, n: nat, i: nat, j: nat, k: nat)
    requires i < n <= |t| && IsSpan(t, i, j, k)
    ensures |RowsUpTo(t, n)| == CountUpTo(t, n)
    ensures RowNumber(t, i, j, k) < CountUpTo(t, n)
    ensures RowsUpTo(t, n)[RowNumber(t, i, j, k)] == SpanRow(t[i].scopes[j].spans[k], MetaOf(t[i], t[i].scopes[j]))
  {
    RowsCounted(t, n);
    RowsCounted(t, n - 1);
    if i < n - 1 { SpanHasItsRow(t, n - 1, i, j, k); } else { ResourceRowsAt(t[i], |t[i].scopes|, j, k); }
  }

  lemma {:induction false} ResourceRowIsASpan(r: ResourceSpans, n: nat, row: nat) returns (j: nat, k: nat)
    requires n <= |r.scopes| && row < ResourceCount(r, n)
    ensures j < n && k < |r.scopes[j].spans| && ResourceCount(r, j) + k == row
  {
    if row < ResourceCount(r, n - 1) {
      j, k := ResourceRowIsASpan(r, n - 1, row);
    } else {
      j, k := n - 1, row - ResourceCount(r, n - 1);
    }
  }

  /** Every row is some span's. */
  lemma {:induction false} RowIsASpan(t: Tree, n: nat, row: nat) returns (i: nat, j: nat, k: nat)
    requires n <= |t| && row < |RowsUpTo(t, n)|
    ensures i < n && IsSpan(t, i, j, k) && RowNumber(t, i, j, k) == row
  {
    RowsCounted(t, n);
    RowsCounted(t, n - 1);
    if row < CountUpTo(t, n - 1) {
      i, j, k := RowIsASpan(t, n - 1, row);
    } else {
      i := n - 1;
      j, k := ResourceRowIsASpan(t[i], |t[i].scopes|, row - CountUpTo(t, i));
    }
  }

  /* ---- what the table says about a span, column by column ---- */

  predicate IsEvent(cell: Cell, e: Event) {
    && PartOf(EVENT_TYPE, cell, Timestamp) == Some(Int64Cell(ToInt64(e.time)))
    && IsText(PartOf(EVENT_TYPE, cell, EventName), e.name)
    && IsJson(PartOf(EVENT_TYPE, cell, PointAttributes), AttributesJson(e.attrs))
  }

  predicate IsLink(cell: Cell, l: Link) {
    && IsText(PartOf(LINK_TYPE, cell, TraceId), l.traceId)
    && IsText(PartOf(LINK_TYPE, cell, SpanId), l.spanId)
    && IsText(PartOf(LINK_TYPE, cell, TraceState), l.traceState)
    && IsJson(PartOf(LINK_TYPE, cell, PointAttributes), AttributesJson(l.attrs))
  }

  predicate AreEvents(c: Option<Cell>, es: seq<Event>) {
    IsList(c, |es|) && forall k :: 0 <= k < |es| ==> IsEvent(c.value.items[k], es[k])
  }

  predicate AreLinks(c: Option<Cell>, ls: seq<Link>) {
    IsList(c, |ls|) && forall k :: 0 <= k < |ls| ==> IsLink(c.value.items[k], ls[k])
  }

  predicate IdentitySays(schema: seq<Field>, row: Row, s: Span) {
    && CellOf(schema, row, Timestamp) == Some(Int64Cell(ToInt64(s.start)))
    && IsText(CellOf(schema, row, TraceId), s.traceId)
    && IsText(CellOf(schema, row, SpanId), s.spanId)
    && IsText(CellOf(schema, row, ParentSpanId), s.parentSpanId)
    && IsText(CellOf(schema, row, TraceState), s.traceState)
    && IsText(CellOf(schema, row, SpanName), s.name)
    && IsText(CellOf(schema, row, SpanKind), s.kind)
  }

  predicate OriginSays(schema: seq<Field>, row: Row, r: ResourceSpans, scope: ScopeSpans) {
    && IsService(CellOf(schema, row, ServiceName), r.attrs)
    && IsJson(CellOf(schema, row, ResourceAttributes), AttributesJson(r.attrs))
    && IsText(CellOf(schema, row, ScopeName), scope.name)
    && IsText(CellOf(schema, row, ScopeVersion), scope.version)
  }

  predicate DetailSays(schema: seq<Field>, row: Row, s: Span) {
    && IsJson(CellOf(schema, row, SpanAttributes), AttributesJson(s.attrs))
    && CellOf(schema, row, Duration) == Some(Int64Cell(if s.end > s.start then ToInt64(s.end - s.start) else 0))
    && IsText(CellOf(schema, row, StatusCode), s.statusCode)
    && IsText(CellOf(schema, row, StatusMessage), s.statusMessage)
    && AreEvents(CellOf(schema, row, Events), s.events)
    && AreLinks(CellOf(schema, row, Links), s.links)
  }

  /** The row says this span of this scope and resource. */
  predicate SpanSays(schema: seq<Field>, row: Row, r: ResourceSpans, scope: ScopeSpans, s: Span) {
    IdentitySays(schema, row, s) && OriginSays(schema, row, r, scope) && DetailSays(schema, row, s)
  }

  lemma EventsTold(es: seq<Event>)
    ensures AreEvents(Some(ListCell(EventCells(es))), es)
  {
    forall k | 0 <= k < |es| ensures IsEvent(EventCells(es)[k], es[k]) {
      EventTold(es[k]);
    }
  }

  lemma EventTold(e: Event)
    ensures IsEvent(EventCell(e), e)
  {
    var cells := EventCell(e).fields;
    StructFound(EVENT_TYPE, cells, 0, Timestamp);
    StructFound(EVENT_TYPE, cells, 1, EventName);
    StructFound(EVENT_TYPE, cells, 2, PointAttributes);
  }

  lemma LinksTold(ls: seq<Link>)
    ensures AreLinks(Some(ListCell(LinkCells(ls))), ls)
  {
    forall k | 0 <= k < |ls| ensures IsLink(LinkCells(ls)[k], ls[k]) {
      LinkFound(LINK_TYPE, LinkCell(ls[k]).fields);
    }
  }

  lemma LinkFound(t: ColumnType, cells: seq<Cell>)
    requires t.ListOfStruct? && |t.parts| == |cells| == 4
    requires t.parts[0].name == TraceId && t.parts[1].name == SpanId && t.parts[2].name == TraceState
    requires t.parts[3].name == PointAttributes
    ensures PartOf(t, StructCell(cells), TraceId) == Some(cells[0])
    ensures PartOf(t, StructCell(cells), SpanId) == Some(cells[1])
    ensures PartOf(t, StructCell(cells), TraceState) == Some(cells[2])
    ensures PartOf(t, StructCell(cells), PointAttributes) == Some(cells[3])
  {
    StructFound(t, cells, 0, TraceId);
    StructFound(t, cells, 1, SpanId);
    StructFound(t, cells, 2, TraceState);
    StructFound(t, cells, 3, PointAttributes);
  }

  /** The columns of the table, by position. */
  ghost predicate HasNames(s: seq<Field>) {
    && |s| == 17
    && s[0].name == Timestamp && s[1].name == TraceId && s[2].name == SpanId && s[3].name == ParentSpanId
    && s[4].name == TraceState && s[5].name == SpanName && s[6].name == SpanKind && s[7].name == ServiceName
    && s[8].name == ResourceAttributes && s[9].name == ScopeName && s[10].name == ScopeVersion
    && s[11].name == SpanAttributes && s[12].name == Duration && s[13].name == StatusCode
    && s[14].name == StatusMessage && s[15].name == Events && s[16].name == Links
  }

  lemma TracesColumns()
    ensures HasNames(TracesSchema())
  {
    NamesInOrder(TracesSchema());
  }

  lemma NamesInOrder(s: seq<Field>)
    requires |s| == 17 && forall i :: 0 <= i < 17 ==> s[i] == SpanField(i)
    ensures HasNames(s)
  {
    assert s[0] == SpanField(0) && s[1] == SpanField(1) && s[2] == SpanField(2) && s[3] == SpanField(3);
    assert s[4] == SpanField(4) && s[5] == SpanField(5) && s[6] == SpanField(6) && s[7] == SpanField(7);
    assert s[8] == SpanField(8) && s[9] == SpanField(9) && s[10] == SpanField(10) && s[11] == SpanField(11);
    assert s[12] == SpanField(12) && s[13] == SpanField(13) && s[14] == SpanField(14) && s[15] == SpanField(15);
    assert s[16] == SpanField(16);
  }

  /** The cells of a span's row. */
  ghost predicate IdentityAt(row: Row, s: Span) {
    && |row| == 17
    && row[0] == Int64Cell(ToInt64(s.start)) && row[1] == Str(s.traceId) && row[2] == Str(s.spanId)
    && row[3] == Str(s.parentSpanId) && row[4] == Str(s.traceState) && row[5] == Str(s.name) && row[6] == Str(s.kind)
  }

  ghost predicate OriginAt(row: Row, m: Meta) {
    && |row| == 17 && row[7] == TextCell(m.service) && row[8] == TextCell(m.resAttrs)
    && row[9] == Str(m.scopeName) && row[10] == Str(m.scopeVersion)
  }

  ghost predicate DetailAt(row: Row, s: Span) {
    && |row| == 17 && row[11] == Builders.Json(s.attrs)
    && row[12] == Int64Cell(DurationOf(s)) && row[13] == Str(s.statusCode) && row[14] == Str(s.statusMessage)
    && row[15] == ListCell(EventCells(s.events)) && row[16] == ListCell(LinkCells(s.links))
  }

  lemma IdentityCells(s: Span, m: Meta)
    ensures IdentityAt(SpanRow(s, m), s)
  {
    var a, b, c := SpanCells(s, m), StatusCells(s, m), SpanRow(s, m);
    assert forall i :: 0 <= i < 9 ==> c[i] == b[i] == a[i];
  }

  lemma OriginCells(s: Span, m: Meta)
    ensures OriginAt(SpanRow(s, m), m)
  {
    var a, b, c := SpanCells(s, m), StatusCells(s, m), SpanRow(s, m);
    assert a[7] == TextCell(m.service) && a[8] == TextCell(m.resAttrs);
    assert b[7] == a[7] && b[8] == a[8];
    assert forall i :: 7 <= i < 11 ==> c[i] == b[i];
  }

  lemma DetailCells(s: Span, m: Meta)
    ensures DetailAt(SpanRow(s, m), s)
  {
    var b, c := StatusCells(s, m), SpanRow(s, m);
    assert forall i :: 11 <= i < 15 ==> c[i] == b[i];
  }

  lemma IdentityFound(schema: seq<Field>, row: Row, s: Span)
    requires Columns.Distinct(schema) && HasNames(schema) && IdentityAt(row, s)
    ensures IdentitySays(schema, row, s)
  {
    Found(schema, row, 0, Timestamp, row[0]);
    Found(schema, row, 1, TraceId, row[1]);
    Found(schema, row, 2, SpanId, row[2]);
    Found(schema, row, 3, ParentSpanId, row[3]);
    Found(schema, row, 4, TraceState, row[4]);
    Found(schema, row, 5, SpanName, row[5]);
    Found(schema, row, 6, SpanKind, row[6]);
  }

  lemma OriginFound(schema: seq<Field>, row: Row, m: Meta)
    requires Columns.Distinct(schema) && HasNames(schema) && OriginAt(row, m)
    ensures CellOf(schema, row, ServiceName) == Some(TextCell(m.service))
    ensures CellOf(schema, row, ResourceAttributes) == Some(TextCell(m.resAttrs))
    ensures IsText(CellOf(schema, row, ScopeName), m.scopeName)
    ensures IsText(CellOf(schema, row, ScopeVersion), m.scopeVersion)
  {
    Found(schema, row, 7, ServiceName, row[7]);
    Found(schema, row, 8, ResourceAttributes, row[8]);
    Found(schema, row, 9, ScopeName, row[9]);
    Found(schema, row, 10, ScopeVersion, row[10]);
  }

  lemma DetailFound(schema: seq<Field>, row: Row, s: Span)
    requires Columns.Distinct(schema) && HasNames(schema) && DetailAt(row, s)
    ensures IsJson(CellOf(schema, row, SpanAttributes), AttributesJson(s.attrs))
    ensures CellOf(schema, row, Duration) == Some(Int64Cell(DurationOf(s)))
    ensures IsText(CellOf(schema, row, StatusCode), s.statusCode)
    ensures IsText(CellOf(schema, row, StatusMessage), s.statusMessage)
    ensures CellOf(schema, row, Events) == Some(ListCell(EventCells(s.events)))
    ensures CellOf(schema, row, Links) == Some(ListCell(LinkCells(s.links)))
  {
    Found(schema, row, 11, SpanAttributes, row[11]);
    Found(schema, row, 12, Duration, row[12]);
    Found(schema, row, 13, StatusCode, row[13]);
    Found(schema, row, 14, StatusMessage, row[14]);
    Found(schema, row, 15, Events, row[15]);
    Found(schema, row, 16, Links, row[16]);
  }

  /** The row of a span says it. */
  lemma SpanTold(schema: seq<Field>, r: ResourceSpans, scope: ScopeSpans, s: Span)
    requires Columns.Distinct(schema) && HasNames(schema)
    ensures SpanSays(schema, SpanRow(s, MetaOf(r, scope)), r, scope, s)
  {
    var m := MetaOf(r, scope);
    IdentityCells(s, m);
    OriginCells(s, m);
    DetailCells(s, m);
    SpanFound(schema, SpanRow(s, m), r, scope, s);
  }

  lemma SpanFound(schema: seq<Field>, row: Row, r: ResourceSpans, scope: ScopeSpans, s: Span)
    requires Columns.Distinct(schema) && HasNames(schema)
    requires IdentityAt(row, s) && OriginAt(row, MetaOf(r, scope)) && DetailAt(row, s)
    ensures SpanSays(schema, row, r, scope, s)
  {
    IdentityFound(schema, row, s);
    OriginFound(schema, row, MetaOf(r, scope));
    OriginTold(schema, row, r, scope);
    DetailFound(schema, row, s);
    DetailTold(schema, row, s);
  }

  lemma OriginTold(schema: seq<Field>, row: Row, r: ResourceSpans, scope: ScopeSpans)
    requires CellOf(schema, row, ServiceName) == Some(TextCell(MetaOf(r, scope).service))
    requires CellOf(schema, row, ResourceAttributes) == Some(TextCell(MetaOf(r, scope).resAttrs))
    requires IsText(CellOf(schema, row, ScopeName), MetaOf(r, scope).scopeName)
    requires IsText(CellOf(schema, row, ScopeVersion), MetaOf(r, scope).scopeVersion)
    ensures OriginSays(schema, row, r, scope)
  {
  }

  lemma DetailTold(schema: seq<Field>, row: Row, s: Span)
    requires IsJson(CellOf(schema, row, SpanAttributes), AttributesJson(s.attrs))
    requires CellOf(schema, row, Duration) == Some(Int64Cell(DurationOf(s)))
    requires IsText(CellOf(schema, row, StatusCode), s.statusCode)
    requires IsText(CellOf(schema, row, StatusMessage), s.statusMessage)
    requires CellOf(schema, row, Events) == Some(ListCell(EventCells(s.events)))
    requires CellOf(schema, row, Links) == Some(ListCell(LinkCells(s.links)))
    ensures DetailSays(schema, row, s)
  {
    EventsTold(s.events);
    LinksTold(s.links);
  }

  /** The table says every span of the tree, at the number of spans before it. */
  ghost predicate TableSays(td: Tree, rec: Record) {
    && RecordOk(rec) && rec.rows == TreeCount(td)
    && forall i: nat, j: nat, k: nat :: IsSpan(td, i, j, k) ==> SpanSaidAt(td, rec, i, j, k)
  }

  ghost predicate SpanSaidAt(td: Tree, rec: Record, i: nat, j: nat, k: nat)
    requires RecordOk(rec) && IsSpan(td, i, j, k)
  {
    var n := RowNumber(td, i, j, k);
    n < rec.rows && SpanSays(rec.schema, DecodedRow(rec, n), td[i], td[i].scopes[j], td[i].scopes[j].spans[k])
  }

  lemma TableTold(td: Tree, rec: Record)
    requires rec.schema == TracesSchema() && Reads(rec, TreeRows(td)) && rec.rows == TreeCount(td)
    ensures TableSays(td, rec)
  {
    TracesDistinct();
    TracesColumns();
    forall i: nat, j: nat, k: nat | IsSpan(td, i, j, k) ensures SpanSaidAt(td, rec, i, j, k) {
      SpanHasItsRow(td, |td|, i, j, k);
      var n := RowNumber(td, i, j, k);
      RowDecoded(rec, TreeRows(td), n);
      SpanTold(rec.schema, td[i], td[i].scopes[j], td[i].scopes[j].spans[k]);
    }
  }

  /* ---- appending ---- */

  ghost predicate Ready(bs: BuilderSet)
    reads bs
  {
    bs.Valid() && bs.part == [] && bs.schema == TracesSchema()
  }

  method AppendSpanRow(bs: BuilderSet, s: Span, m: Meta)
    requires Ready(bs)
    modifies bs
    ensures Ready(bs) && bs.done == old(bs.done) + [SpanRow(s, m)]
  {
    AppendIdentity(bs, s, m);
    AppendStatus(bs, s, m);
    EventList(bs, s.events);
    LinkList(bs, s.links);
    bs.EndRow();
  }

  method AppendIdentity(bs: BuilderSet, s: Span, m: Meta)
    requires Ready(bs)
    modifies bs`cols, bs`part
    ensures bs.Valid() && bs.rows == old(bs.rows) && bs.done == old(bs.done) && bs.part == SpanCells(s, m)
  {
    bs.I64(Timestamp, ToInt64(s.start));
    bs.Str(TraceId, Plain(s.traceId));
    bs.Str(SpanId, Plain(s.spanId));
    bs.Str(ParentSpanId, Plain(s.parentSpanId));
    bs.Str(TraceState, Plain(s.traceState));
    bs.Str(SpanName, Plain(s.name));
    bs.Str(SpanKind, Plain(s.kind));
    bs.Str(ServiceName, m.service);
    bs.Str(ResourceAttributes, m.resAttrs);
  }

  /** The columns from the scope to the status. */
  method AppendStatus(bs: BuilderSet, s: Span, m: Meta)
    requires bs.Valid() && bs.schema == TracesSchema() && bs.part == SpanCells(s, m)
    modifies bs`cols, bs`part
    ensures bs.Valid() && bs.rows == old(bs.rows) && bs.done == old(bs.done) && bs.part == StatusCells(s, m)
  {
    bs.Str(ScopeName, Plain(m.scopeName));
    bs.Str(ScopeVersion, Plain(m.scopeVersion));
    var attrs := AttributesText(s.attrs);
    bs.Str(SpanAttributes, attrs);
    var duration := 0;
    if s.end > s.start {
      duration := ToInt64(s.end - s.start);
    }
    bs.I64(Duration, duration);
    bs.Str(StatusCode, Plain(s.statusCode));
    bs.Str(StatusMessage, Plain(s.statusMessage));
  }

  method EventList(bs: BuilderSet, es: seq<Event>)
    requires bs.CanAppend(Events, EVENT_TYPE)
    modifies bs`cols, bs`part
    ensures bs.Appended(ListCell(EventCells(es)))
  {
    var child := AppendEvents(bs.ChildOf(Events, EVENT_TYPE), es);
    bs.List(Events, EVENT_TYPE, child, EventCells(es));
  }

  method LinkList(bs: BuilderSet, ls: seq<Link>)
    requires bs.CanAppend(Links, LINK_TYPE)
    modifies bs`cols, bs`part
    ensures bs.Appended(ListCell(LinkCells(ls)))
  {
    var child := AppendLinks(bs.ChildOf(Links, LINK_TYPE), ls);
    bs.List(Links, LINK_TYPE, child, LinkCells(ls));
  }

  method AppendEvents(c: Child, es: seq<Event>) returns (st: Child)
    requires ChildOk(c, EVENT_TYPE)
    ensures ChildOk(st, EVENT_TYPE) && ChildCells(st, EVENT_TYPE) == ChildCells(c, EVENT_TYPE) + EventCells(es)
  {
    st := c;
    for k := 0 to |es|
      invariant ChildOk(st, EVENT_TYPE) && ChildCells(st, EVENT_TYPE) == ChildCells(c, EVENT_TYPE) + EventCells(es[..k])
    {
      assert EventCells(es[..k + 1]) == EventCells(es[..k]) + [EventCell(es[k])];
      st := AppendEvent(st, es[k]);
    }
    assert es[..|es|] == es;
  }

  method AppendEvent(c: Child, e: Event) returns (st: Child)
    requires ChildOk(c, EVENT_TYPE)
    ensures ChildOk(st, EVENT_TYPE) && ChildCells(st, EVENT_TYPE) == ChildCells(c, EVENT_TYPE) + [EventCell(e)]
  {
    st := Structs(c.len + 1, c.fields);
    st := st.(fields := st.fields[0 := PushInt64(st.fields[0], ToInt64(e.time))]);
    st := st.(fields := st.fields[1 := PushText(st.fields[1], Plain(e.name))]);
    var attrs := AttributesText(e.attrs);
    st := st.(fields := st.fields[2 := PushText(st.fields[2], attrs)]);
    StructAppended(c, st, EVENT_TYPE, [Int64Cell(ToInt64(e.time)), Str(e.name), Builders.Json(e.attrs)]);
  }

  method AppendLinks(c: Child, ls: seq<Link>) returns (st: Child)
    requires ChildOk(c, LINK_TYPE)
    ensures ChildOk(st, LINK_TYPE) && ChildCells(st, LINK_TYPE) == ChildCells(c, LINK_TYPE) + LinkCells(ls)
  {
    st := c;
    for k := 0 to |ls|
      invariant ChildOk(st, LINK_TYPE) && ChildCells(st, LINK_TYPE) == ChildCells(c, LINK_TYPE) + LinkCells(ls[..k])
    {
      assert LinkCells(ls[..k + 1]) == LinkCells(ls[..k]) + [LinkCell(ls[k])];
      st := AppendLink(st, ls[k]);
    }
    assert ls[..|ls|] == ls;
  }

  method AppendLink(c: Child, l: Link) returns (st: Child)
    requires ChildOk(c, LINK_TYPE)
    ensures ChildOk(st, LINK_TYPE) && ChildCells(st, LINK_TYPE) == ChildCells(c, LINK_TYPE) + [LinkCell(l)]
  {
    st := Structs(c.len + 1, c.fields);
    st := st.(fields := st.fields[0 := PushText(st.fields[0], Plain(l.traceId))]);
    st := st.(fields := st.fields[1 := PushText(st.fields[1], Plain(l.spanId))]);
    st := st.(fields := st.fields[2 := PushText(st.fields[2], Plain(l.traceState))]);
    var attrs := AttributesText(l.attrs);
    st := st.(fields := st.fields[3 := PushText(st.fields[3], attrs)]);
    StructAppended(c, st, LINK_TYPE, [Str(l.traceId), Str(l.spanId), Str(l.traceState), Builders.Json(l.attrs)]);
  }

  /** The table of a tree, read back, is the rows of its spans; a tree without spans gives a table
      without rows. */
  method TracesToRecord(td: Tree) returns (out: Record)
    ensures out.rows == TreeCount(td)
    ensures out.schema == TracesSchema()
    ensures Reads(out, TreeRows(td))
    ensures TableSays(td, out)
  {
    TracesDistinct();
    RowsCounted(td, |td|);
    var bs := new BuilderSet(TracesSchema());
    for i := 0 to |td|
      invariant Ready(bs) && bs.done == RowsUpTo(td, i)
    {
      AppendResource(bs, td[i]);
    }
    out := bs.NewRecordBatch();
    TableTold(td, out);
  }

  method AppendResource(bs: BuilderSet, r: ResourceSpans)
    requires Ready(bs)
    modifies bs
    ensures Ready(bs) && bs.done == old(bs.done) + ResourceRows(r, |r.scopes|)
  {
    var service, resAttrs := SharedTexts(r);
    for j := 0 to |r.scopes|
      invariant Ready(bs) && bs.done == old(bs.done) + ResourceRows(r, j)
    {
      AppendScope(bs, r, r.scopes[j], Meta(service, resAttrs, r.scopes[j].name, r.scopes[j].version));
      OneMoreScope(old(bs.done), r, j);
    }
  }

  lemma OneMoreScope(before: seq<Row>, r: ResourceSpans, j: nat)
    requires j < |r.scopes|
    ensures before + ResourceRows(r, j) + ScopeRows(r, r.scopes[j], |r.scopes[j].spans|)
      == before + ResourceRows(r, j + 1)
  {
  }

  method SharedTexts(r: ResourceSpans) returns (service: Columns.Text, resAttrs: Columns.Text)
    ensures forall s: ScopeSpans :: MetaOf(r, s) == Meta(service, resAttrs, s.name, s.version)
  {
    service := ServiceText(r.attrs);
    resAttrs := AttributesText(r.attrs);
  }

  method AppendScope(bs: BuilderSet, ghost r: ResourceSpans, s: ScopeSpans, m: Meta)
    requires Ready(bs) && m == MetaOf(r, s)
    modifies bs
    ensures Ready(bs) && bs.done == old(bs.done) + ScopeRows(r, s, |s.spans|)
  {
    for k := 0 to |s.spans|
      invariant Ready(bs) && bs.done == old(bs.done) + ScopeRows(r, s, k)
    {
      AppendSpanRow(bs, s.spans[k], m);
      assert ScopeRows(r, s, k + 1) == ScopeRows(r, s, k) + [SpanRow(s.spans[k], MetaOf(r, s))];
    }
  }
}

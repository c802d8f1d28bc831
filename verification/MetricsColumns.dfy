/** What the metrics tables say about a data point, column by column: every value of the point, of
    its metric, scope and resource is under the name the schema gives it. */
module MetricsColumns {
  import opened Attributes
  import opened Columns
  import opened GoNumbers
  import opened Options
  import opened Builders
  import opened Schemas
  import opened MetricsRows

  /* ---- what a column should say ---- */

  /** An integer as its float, a value never set as 0. */
  predicate IsNumber(c: Option<Cell>, v: Number) {
    match v
    case IntNumber(i) => c == Some(FloatCell(OfInt(i)))
    case DoubleNumber(f) => c == Some(FloatCell(f))
    case NoNumber => c == Some(FloatCell(Given(Finite(0))))
  }

  predicate IsOptional(c: Option<Cell>, v: Opt) {
    c == Some(if v.Is? then FloatCell(Given(v.f)) else NullCell)
  }

  predicate AreCounts(c: Option<Cell>, ns: seq<nat>) {
    IsList(c, |ns|) && forall k :: 0 <= k < |ns| ==> c.value.items[k] == Int64Cell(ToInt64(ns[k]))
  }

  predicate AreFloats(c: Option<Cell>, fs: seq<F64>) {
    IsList(c, |fs|) && forall k :: 0 <= k < |fs| ==> c.value.items[k] == FloatCell(fs[k])
  }

  predicate IsExemplar(cell: Cell, e: Exemplar) {
    && IsJson(PartOf(EXEMPLAR_TYPE, cell, FilteredAttributes), AttributesJson(e.attrs))
    && PartOf(EXEMPLAR_TYPE, cell, TimeUnix) == Some(Int64Cell(ToInt64(e.time)))
    && IsNumber(PartOf(EXEMPLAR_TYPE, cell, Value), e.value)
    && IsText(PartOf(EXEMPLAR_TYPE, cell, SpanId), e.spanId)
    && IsText(PartOf(EXEMPLAR_TYPE, cell, TraceId), e.traceId)
  }

  predicate AreExemplars(c: Option<Cell>, es: seq<Exemplar>) {
    IsList(c, |es|) && forall k :: 0 <= k < |es| ==> IsExemplar(c.value.items[k], es[k])
  }

  predicate IsQuantile(cell: Cell, q: Quantile) {
    && PartOf(QUANTILE_TYPE, cell, QuantileName) == Some(FloatCell(Given(q.quantile)))
    && PartOf(QUANTILE_TYPE, cell, Value) == Some(FloatCell(Given(q.value)))
  }

  predicate AreQuantiles(c: Option<Cell>, qs: seq<Quantile>) {
    IsList(c, |qs|) && forall k :: 0 <= k < |qs| ==> IsQuantile(c.value.items[k], qs[k])
  }

  /** The columns that every kind of point has. */
  predicate CommonSays(schema: seq<Field>, row: Row, m: Meta, p: PointMeta) {
    && IsJson(CellOf(schema, row, ResourceAttributes), m.resAttrs)
    && IsText(CellOf(schema, row, ResourceSchemaUrl), m.resSchemaUrl)
    && IsText(CellOf(schema, row, ScopeName), m.scopeName)
    && IsText(CellOf(schema, row, ScopeVersion), m.scopeVersion)
    && IsJson(CellOf(schema, row, ScopeAttributes), m.scopeAttrs)
    && IsText(CellOf(schema, row, ScopeSchemaUrl), m.scopeSchemaUrl)
    && CellOf(schema, row, ServiceName) == Some(TextCell(m.service))
    && IsText(CellOf(schema, row, MetricName), m.name)
    && IsText(CellOf(schema, row, MetricDescription), m.desc)
    && IsText(CellOf(schema, row, MetricUnit), m.unit)
    && IsJson(CellOf(schema, row, PointAttributes), AttributesJson(p.attrs))
    && CellOf(schema, row, StartTimeUnix) == Some(Int64Cell(ToInt64(p.start)))
    && CellOf(schema, row, TimeUnix) == Some(Int64Cell(ToInt64(p.time)))
    && CellOf(schema, row, Flags) == Some(Int32Cell(ToInt32(p.flags)))
  }

  /** The same of a point of this metric, scope and resource. */
  predicate SharedSays(schema: seq<Field>, row: Row, r: ResourceMetrics, s: ScopeMetrics, m: Metric, p: PointMeta) {
    && IsService(CellOf(schema, row, ServiceName), r.attrs)
    && CommonSays(schema, row, Meta(
         resAttrs := AttributesJson(r.attrs), resSchemaUrl := r.schemaUrl,
         scopeName := s.name, scopeVersion := s.version,
         scopeAttrs := AttributesJson(s.attrs), scopeSchemaUrl := s.schemaUrl,
         service := ServiceText(r.attrs), name := m.name, desc := m.desc, unit := m.unit), p)
  }

  predicate GaugeSays(schema: seq<Field>, row: Row, p: NumberPoint) {
    && IsNumber(CellOf(schema, row, Value), p.value)
    && AreExemplars(CellOf(schema, row, Exemplars), p.exemplars)
  }

  predicate SumSays(schema: seq<Field>, row: Row, p: NumberPoint, temporality: int, monotonic: bool) {
    && IsNumber(CellOf(schema, row, Value), p.value)
    && CellOf(schema, row, AggregationTemporality) == Some(Int32Cell(temporality))
    && CellOf(schema, row, IsMonotonic) == Some(BoolCell(monotonic))
    && AreExemplars(CellOf(schema, row, Exemplars), p.exemplars)
  }

  predicate HistogramSays(schema: seq<Field>, row: Row, p: HistogramPoint, temporality: int) {
    && CellOf(schema, row, Count) == Some(Int64Cell(ToInt64(p.count)))
    && IsOptional(CellOf(schema, row, SumOfValues), p.sum)
    && AreCounts(CellOf(schema, row, BucketCounts), p.buckets)
    && AreFloats(CellOf(schema, row, ExplicitBounds), p.bounds)
    && IsOptional(CellOf(schema, row, Min), p.min)
    && IsOptional(CellOf(schema, row, Max), p.max)
    && CellOf(schema, row, AggregationTemporality) == Some(Int32Cell(temporality))
    && AreExemplars(CellOf(schema, row, Exemplars), p.exemplars)
  }

  predicate ExpHistogramSays(schema: seq<Field>, row: Row, p: ExpPoint, temporality: int) {
    && CellOf(schema, row, Count) == Some(Int64Cell(ToInt64(p.count)))
    && IsOptional(CellOf(schema, row, SumOfValues), p.sum)
    && CellOf(schema, row, Scale) == Some(Int32Cell(p.scale))
    && CellOf(schema, row, ZeroCount) == Some(Int64Cell(ToInt64(p.zeroCount)))
    && CellOf(schema, row, PositiveOffset) == Some(Int32Cell(p.posOffset))
    && AreCounts(CellOf(schema, row, PositiveBucketCounts), p.pos)
    && CellOf(schema, row, NegativeOffset) == Some(Int32Cell(p.negOffset))
    && AreCounts(CellOf(schema, row, NegativeBucketCounts), p.neg)
    && IsOptional(CellOf(schema, row, Min), p.min)
    && IsOptional(CellOf(schema, row, Max), p.max)
    && CellOf(schema, row, AggregationTemporality) == Some(Int32Cell(temporality))
    && AreExemplars(CellOf(schema, row, Exemplars), p.exemplars)
  }

  predicate SummarySays(schema: seq<Field>, row: Row, p: SummaryPoint) {
    && CellOf(schema, row, Count) == Some(Int64Cell(ToInt64(p.count)))
    && CellOf(schema, row, SumOfValues) == Some(FloatCell(Given(p.sum)))
    && AreQuantiles(CellOf(schema, row, ValueAtQuantiles), p.quantiles)
  }

  /** The row says the data point at this place. */
  predicate PointSays(kind: Kind, schema: seq<Field>, row: Row, t: Tree, a: Place)
    requires IsPoint(kind, t, a)
  {
    var r := t[a.i];
    var s := r.scopes[a.j];
    var m := s.metrics[a.k];
    match m.data
    case NoData => false
    case GaugeData(ps) =>
      kind == Gauge && SharedSays(schema, row, r, s, m, ps[a.p].meta) && GaugeSays(schema, row, ps[a.p])
    case SumData(ps, temporality, monotonic) =>
      && kind == Sum && SharedSays(schema, row, r, s, m, ps[a.p].meta)
      && SumSays(schema, row, ps[a.p], temporality, monotonic)
    case HistogramData(ps, temporality) =>
      && kind == Histogram && SharedSays(schema, row, r, s, m, ps[a.p].meta)
      && HistogramSays(schema, row, ps[a.p], temporality)
    case ExpHistogramData(ps, temporality) =>
      && kind == ExpHistogram && SharedSays(schema, row, r, s, m, ps[a.p].meta)
      && ExpHistogramSays(schema, row, ps[a.p], temporality)
    case SummaryData(ps) =>
      kind == Summary && SharedSays(schema, row, r, s, m, ps[a.p].meta) && SummarySays(schema, row, ps[a.p])
  }

  /** The table says the data points of its kind, row by row in document order, and no others. */
  ghost predicate TableSays(kind: Kind, t: Tree, rec: Record) {
    && RecordOk(rec)
    && exists ps: seq<Place> ::
         && |ps| == rec.rows && Ascend(ps) && (forall a: Place :: IsPoint(kind, t, a) <==> a in ps)
         && forall k :: 0 <= k < |ps| ==> PointSays(kind, rec.schema, DecodedRow(rec, k), t, ps[k])
  }

  /* ---- what the rows say ---- */

  /** The stored int32 gives the uint32 back, modulo 2^32. */
  lemma Int32Recovered(v: nat)
    requires v < TWO_TO_32
    ensures ToInt32(v) % TWO_TO_32 == v && -0x8000_0000 <= ToInt32(v) <= 0x7fff_ffff
  {
  }

  ghost predicate HasCommon(s: seq<Field>) {
    && |s| >= 14
    && s[0] == Schemas.Str(ResourceAttributes) && s[1] == Schemas.Str(ResourceSchemaUrl)
    && s[2] == Schemas.Str(ScopeName) && s[3] == Schemas.Str(ScopeVersion) && s[4] == Schemas.Str(ScopeAttributes)
    && s[5] == Schemas.Str(ScopeSchemaUrl) && s[6] == Schemas.Str(ServiceName) && s[7] == Schemas.Str(MetricName)
    && s[8] == Schemas.Str(MetricDescription) && s[9] == Schemas.Str(MetricUnit)
    && s[10] == Schemas.Str(PointAttributes) && s[11] == I64(StartTimeUnix) && s[12] == I64(TimeUnix)
    && s[13] == I32(Flags)
  }

  lemma CommonColumns(kind: Kind)
    ensures HasCommon(MetricsSchema(kind))
  {
  }

  /** The cells that every row begins with are under the right names. */
  lemma CommonTold(schema: seq<Field>, row: Row, m: Meta, p: PointMeta)
    requires Distinct(schema) && HasCommon(schema) && CommonRow(m, p) <= row
    ensures CommonSays(schema, row, m, p)
  {
    CommonCells(m, p);
    assert CommonAt(row, m, p);
    ScopeFound(schema, row, m, p);
    MetricFound(schema, row, m, p);
    PointFound(schema, row, m, p);
  }

  ghost predicate CommonAt(row: Row, m: Meta, p: PointMeta) {
    && |row| >= 14
    && row[0] == TextCell(JsonText(m.resAttrs)) && row[1] == MetricsRows.Str(m.resSchemaUrl)
    && row[2] == MetricsRows.Str(m.scopeName) && row[3] == MetricsRows.Str(m.scopeVersion)
    && row[4] == TextCell(JsonText(m.scopeAttrs)) && row[5] == MetricsRows.Str(m.scopeSchemaUrl)
    && row[6] == TextCell(m.service) && row[7] == MetricsRows.Str(m.name) && row[8] == MetricsRows.Str(m.desc)
    && row[9] == MetricsRows.Str(m.unit) && row[10] == Builders.Json(p.attrs)
    && row[11] == Int64Cell(ToInt64(p.start)) && row[12] == Int64Cell(ToInt64(p.time))
    && row[13] == Int32Cell(ToInt32(p.flags))
  }

  lemma CommonCells(m: Meta, p: PointMeta)
    ensures CommonAt(CommonRow(m, p), m, p)
  {
    var a, b, c := ScopeCells(m), MetricCells(m), CommonRow(m, p);
    assert |a| == 6 && |b| == 10;
    assert forall i :: 0 <= i < 6 ==> b[i] == a[i];
    assert forall i :: 0 <= i < 10 ==> c[i] == b[i];
  }

  lemma ScopeFound(schema: seq<Field>, row: Row, m: Meta, p: PointMeta)
    requires Distinct(schema) && HasCommon(schema) && CommonAt(row, m, p)
    ensures IsJson(CellOf(schema, row, ResourceAttributes), m.resAttrs)
    ensures IsText(CellOf(schema, row, ResourceSchemaUrl), m.resSchemaUrl)
    ensures IsText(CellOf(schema, row, ScopeName), m.scopeName)
    ensures IsText(CellOf(schema, row, ScopeVersion), m.scopeVersion)
    ensures IsJson(CellOf(schema, row, ScopeAttributes), m.scopeAttrs)
    ensures IsText(CellOf(schema, row, ScopeSchemaUrl), m.scopeSchemaUrl)
  {
    Found(schema, row, 0, ResourceAttributes, row[0]);
    Found(schema, row, 1, ResourceSchemaUrl, row[1]);
    Found(schema, row, 2, ScopeName, row[2]);
    Found(schema, row, 3, ScopeVersion, row[3]);
    Found(schema, row, 4, ScopeAttributes, row[4]);
    Found(schema, row, 5, ScopeSchemaUrl, row[5]);
  }

  lemma MetricFound(schema: seq<Field>, row: Row, m: Meta, p: PointMeta)
    requires Distinct(schema) && HasCommon(schema) && CommonAt(row, m, p)
    ensures CellOf(schema, row, ServiceName) == Some(TextCell(m.service))
    ensures IsText(CellOf(schema, row, MetricName), m.name)
    ensures IsText(CellOf(schema, row, MetricDescription), m.desc)
    ensures IsText(CellOf(schema, row, MetricUnit), m.unit)
  {
    Found(schema, row, 6, ServiceName, row[6]);
    Found(schema, row, 7, MetricName, row[7]);
    Found(schema, row, 8, MetricDescription, row[8]);
    Found(schema, row, 9, MetricUnit, row[9]);
  }

  lemma PointFound(schema: seq<Field>, row: Row, m: Meta, p: PointMeta)
    requires Distinct(schema) && HasCommon(schema) && CommonAt(row, m, p)
    ensures IsJson(CellOf(schema, row, PointAttributes), AttributesJson(p.attrs))
    ensures CellOf(schema, row, StartTimeUnix) == Some(Int64Cell(ToInt64(p.start)))
    ensures CellOf(schema, row, TimeUnix) == Some(Int64Cell(ToInt64(p.time)))
    ensures CellOf(schema, row, Flags) == Some(Int32Cell(ToInt32(p.flags)))
  {
    Found(schema, row, 10, PointAttributes, row[10]);
    Found(schema, row, 11, StartTimeUnix, row[11]);
    Found(schema, row, 12, TimeUnix, row[12]);
    Found(schema, row, 13, Flags, row[13]);
  }

  /** The names of the columns of one kind of table, behind the common ones. */
  ghost predicate HasOwn(s: seq<Field>, kind: Kind) {
    && |s| == 14 + OwnCount(kind)
    && match kind
       case Gauge => s[14].name == Value && s[15].name == Exemplars
       case Sum =>
         && s[14].name == Value && s[15].name == AggregationTemporality && s[16].name == IsMonotonic
         && s[17].name == Exemplars
       case Histogram =>
         && s[14].name == Count && s[15].name == SumOfValues && s[16].name == BucketCounts
         && s[17].name == ExplicitBounds && s[18].name == Min && s[19].name == Max
         && s[20].name == AggregationTemporality && s[21].name == Exemplars
       case ExpHistogram =>
         && s[14].name == Count && s[15].name == SumOfValues && s[16].name == Scale && s[17].name == ZeroCount
         && s[18].name == PositiveOffset && s[19].name == PositiveBucketCounts && s[20].name == NegativeOffset
         && s[21].name == NegativeBucketCounts && s[22].name == Min && s[23].name == Max
         && s[24].name == AggregationTemporality && s[25].name == Exemplars
       case Summary => s[14].name == Count && s[15].name == SumOfValues && s[16].name == ValueAtQuantiles
  }

  lemma OwnColumns(kind: Kind)
    ensures HasOwn(MetricsSchema(kind), kind)
  {
    if kind == ExpHistogram {
      ExpColumns(MetricsSchema(kind));
    } else if kind == Histogram {
      HistogramColumns(MetricsSchema(kind));
    }
  }

  lemma HistogramColumns(s: seq<Field>)
    requires |s| == 22 && forall i :: 14 <= i < 22 ==> s[i] == OwnField(Histogram, i - 14)
    ensures HasOwn(s, Histogram)
  {
    assert s[14] == OwnField(Histogram, 0) && s[15] == OwnField(Histogram, 1) && s[16] == OwnField(Histogram, 2);
    assert s[17] == OwnField(Histogram, 3) && s[18] == OwnField(Histogram, 4) && s[19] == OwnField(Histogram, 5);
    assert s[20] == OwnField(Histogram, 6) && s[21] == OwnField(Histogram, 7);
  }

  lemma ExpColumns(s: seq<Field>)
    requires |s| == 26 && forall i :: 14 <= i < 26 ==> s[i] == OwnField(ExpHistogram, i - 14)
    ensures HasOwn(s, ExpHistogram)
  {
    assert s[14] == OwnField(ExpHistogram, 0) && s[15] == OwnField(ExpHistogram, 1);
    assert s[16] == OwnField(ExpHistogram, 2) && s[17] == OwnField(ExpHistogram, 3);
    assert s[18] == OwnField(ExpHistogram, 4) && s[19] == OwnField(ExpHistogram, 5);
    assert s[20] == OwnField(ExpHistogram, 6) && s[21] == OwnField(ExpHistogram, 7);
    assert s[22] == OwnField(ExpHistogram, 8) && s[23] == OwnField(ExpHistogram, 9);
    assert s[24] == OwnField(ExpHistogram, 10) && s[25] == OwnField(ExpHistogram, 11);
  }

  lemma CountsTold(ns: seq<nat>)
    ensures AreCounts(Some(ListCell(CountCells(ns))), ns)
  {
  }

  lemma FloatsTold(fs: seq<F64>)
    ensures AreFloats(Some(ListCell(FloatCells(fs))), fs)
  {
  }

  lemma ExemplarsTold(es: seq<Exemplar>)
    ensures AreExemplars(Some(ListCell(ExemplarCells(es))), es)
  {
    forall k | 0 <= k < |es| ensures IsExemplar(ExemplarCells(es)[k], es[k]) {
      ExemplarTold(es[k]);
    }
  }

  lemma ExemplarTold(e: Exemplar)
    ensures IsExemplar(ExemplarCell(e), e)
  {
    ExemplarFound(EXEMPLAR_TYPE, ExemplarCell(e).fields);
  }

  lemma ExemplarFound(t: ColumnType, cells: seq<Cell>)
    requires t.ListOfStruct? && |t.parts| == |cells| == 5
    requires t.parts[0].name == FilteredAttributes && t.parts[1].name == TimeUnix && t.parts[2].name == Value
    requires t.parts[3].name == SpanId && t.parts[4].name == TraceId
    ensures PartOf(t, StructCell(cells), FilteredAttributes) == Some(cells[0])
    ensures PartOf(t, StructCell(cells), TimeUnix) == Some(cells[1])
    ensures PartOf(t, StructCell(cells), Value) == Some(cells[2])
    ensures PartOf(t, StructCell(cells), SpanId) == Some(cells[3])
    ensures PartOf(t, StructCell(cells), TraceId) == Some(cells[4])
  {
    StructFound(t, cells, 0, FilteredAttributes);
    StructFound(t, cells, 1, TimeUnix);
    StructFound(t, cells, 2, Value);
    StructFound(t, cells, 3, SpanId);
    StructFound(t, cells, 4, TraceId);
  }

  lemma QuantilesTold(qs: seq<Quantile>)
    ensures AreQuantiles(Some(ListCell(QuantileCells(qs))), qs)
  {
    forall k | 0 <= k < |qs| ensures IsQuantile(QuantileCells(qs)[k], qs[k]) {
      var cells := QuantileCells(qs)[k].fields;
      StructFound(QUANTILE_TYPE, cells, 0, QuantileName);
      StructFound(QUANTILE_TYPE, cells, 1, Value);
    }
  }

  lemma GaugeTold(schema: seq<Field>, row: Row, m: Meta, p: NumberPoint)
    requires Distinct(schema) && HasOwn(schema, Gauge) && row == GaugeRow(m, p)
    ensures GaugeSays(schema, row, p)
  {
    Found(schema, row, 14, Value, FloatCell(NumberValue(p.value)));
    Found(schema, row, 15, Exemplars, ListCell(ExemplarCells(p.exemplars)));
    ExemplarsTold(p.exemplars);
  }

  lemma SumTold(schema: seq<Field>, row: Row, m: Meta, p: NumberPoint, temporality: int, monotonic: bool)
    requires Distinct(schema) && HasOwn(schema, Sum) && row == SumRow(m, p, temporality, monotonic)
    ensures SumSays(schema, row, p, temporality, monotonic)
  {
    Found(schema, row, 14, Value, FloatCell(NumberValue(p.value)));
    Found(schema, row, 15, AggregationTemporality, Int32Cell(temporality));
    Found(schema, row, 16, IsMonotonic, BoolCell(monotonic));
    Found(schema, row, 17, Exemplars, ListCell(ExemplarCells(p.exemplars)));
    ExemplarsTold(p.exemplars);
  }

  lemma HistogramTold(schema: seq<Field>, row: Row, m: Meta, p: HistogramPoint, temporality: int)
    requires Distinct(schema) && HasOwn(schema, Histogram) && row == HistogramRow(m, p, temporality)
    ensures HistogramSays(schema, row, p, temporality)
  {
    HistogramCells(m, p, temporality);
    HistogramBuckets(schema, row, p, temporality);
    HistogramRest(schema, row, p, temporality);
  }

  /** The own cells of a histogram's row. */
  ghost predicate HistogramAt(row: Row, p: HistogramPoint, temporality: int) {
    && |row| == 22
    && row[14] == Int64Cell(ToInt64(p.count)) && row[15] == Nullable(p.sum)
    && row[16] == ListCell(CountCells(p.buckets)) && row[17] == ListCell(FloatCells(p.bounds))
    && row[18] == Nullable(p.min) && row[19] == Nullable(p.max)
    && row[20] == Int32Cell(temporality) && row[21] == ListCell(ExemplarCells(p.exemplars))
  }

  lemma HistogramCells(m: Meta, p: HistogramPoint, temporality: int)
    ensures HistogramAt(HistogramRow(m, p, temporality), p, temporality)
  {
    var row, cells := HistogramRow(m, p, temporality), HistogramBucketCells(m, p);
    assert forall i :: 14 <= i < 18 ==> row[i] == cells[i];
  }

  lemma HistogramBuckets(schema: seq<Field>, row: Row, p: HistogramPoint, temporality: int)
    requires Distinct(schema) && HasOwn(schema, Histogram) && HistogramAt(row, p, temporality)
    ensures CellOf(schema, row, Count) == Some(Int64Cell(ToInt64(p.count)))
    ensures IsOptional(CellOf(schema, row, SumOfValues), p.sum)
    ensures AreCounts(CellOf(schema, row, BucketCounts), p.buckets)
    ensures AreFloats(CellOf(schema, row, ExplicitBounds), p.bounds)
  {
    Found(schema, row, 14, Count, row[14]);
    Found(schema, row, 15, SumOfValues, row[15]);
    Found(schema, row, 16, BucketCounts, row[16]);
    Found(schema, row, 17, ExplicitBounds, row[17]);
    CountsTold(p.buckets);
    FloatsTold(p.bounds);
  }

  lemma HistogramRest(schema: seq<Field>, row: Row, p: HistogramPoint, temporality: int)
    requires Distinct(schema) && HasOwn(schema, Histogram) && HistogramAt(row, p, temporality)
    ensures IsOptional(CellOf(schema, row, Min), p.min) && IsOptional(CellOf(schema, row, Max), p.max)
    ensures CellOf(schema, row, AggregationTemporality) == Some(Int32Cell(temporality))
    ensures AreExemplars(CellOf(schema, row, Exemplars), p.exemplars)
  {
    Found(schema, row, 18, Min, row[18]);
    Found(schema, row, 19, Max, row[19]);
    Found(schema, row, 20, AggregationTemporality, row[20]);
    Found(schema, row, 21, Exemplars, row[21]);
    ExemplarsTold(p.exemplars);
  }

  lemma ExpHistogramTold(schema: seq<Field>, row: Row, m: Meta, p: ExpPoint, temporality: int)
    requires Distinct(schema) && HasOwn(schema, ExpHistogram) && row == ExpHistogramRow(m, p, temporality)
    ensures ExpHistogramSays(schema, row, p, temporality)
  {
    ExpCells(m, p, temporality);
    ExpScalars(schema, row, p, temporality);
    ExpBuckets(schema, row, p, temporality);
    ExpRest(schema, row, p, temporality);
  }

  /** The own cells of an exponential histogram's row. */
  ghost predicate ExpAt(row: Row, p: ExpPoint, temporality: int) {
    && |row| == 26
    && row[14] == Int64Cell(ToInt64(p.count)) && row[15] == Nullable(p.sum) && row[16] == Int32Cell(p.scale)
    && row[17] == Int64Cell(ToInt64(p.zeroCount))
    && row[18] == Int32Cell(p.posOffset) && row[19] == ListCell(CountCells(p.pos))
    && row[20] == Int32Cell(p.negOffset) && row[21] == ListCell(CountCells(p.neg))
    && row[22] == Nullable(p.min) && row[23] == Nullable(p.max)
    && row[24] == Int32Cell(temporality) && row[25] == ListCell(ExemplarCells(p.exemplars))
  }

  lemma ExpCells(m: Meta, p: ExpPoint, temporality: int)
    ensures ExpAt(ExpHistogramRow(m, p, temporality), p, temporality)
  {
    var row, cells := ExpHistogramRow(m, p, temporality), ExpBucketCells(m, p);
    assert forall i :: 14 <= i < 20 ==> row[i] == cells[i];
  }

  lemma ExpScalars(schema: seq<Field>, row: Row, p: ExpPoint, temporality: int)
    requires Distinct(schema) && HasOwn(schema, ExpHistogram) && ExpAt(row, p, temporality)
    ensures CellOf(schema, row, Count) == Some(Int64Cell(ToInt64(p.count)))
    ensures IsOptional(CellOf(schema, row, SumOfValues), p.sum)
    ensures CellOf(schema, row, Scale) == Some(Int32Cell(p.scale))
    ensures CellOf(schema, row, ZeroCount) == Some(Int64Cell(ToInt64(p.zeroCount)))
  {
    Found(schema, row, 14, Count, row[14]);
    Found(schema, row, 15, SumOfValues, row[15]);
    Found(schema, row, 16, Scale, row[16]);
    Found(schema, row, 17, ZeroCount, row[17]);
  }

  lemma ExpBuckets(schema: seq<Field>, row: Row, p: ExpPoint, temporality: int)
    requires Distinct(schema) && HasOwn(schema, ExpHistogram) && ExpAt(row, p, temporality)
    ensures CellOf(schema, row, PositiveOffset) == Some(Int32Cell(p.posOffset))
    ensures AreCounts(CellOf(schema, row, PositiveBucketCounts), p.pos)
    ensures CellOf(schema, row, NegativeOffset) == Some(Int32Cell(p.negOffset))
    ensures AreCounts(CellOf(schema, row, NegativeBucketCounts), p.neg)
  {
    Found(schema, row, 18, PositiveOffset, row[18]);
    Found(schema, row, 19, PositiveBucketCounts, row[19]);
    Found(schema, row, 20, NegativeOffset, row[20]);
    Found(schema, row, 21, NegativeBucketCounts, row[21]);
    CountsTold(p.pos);
    CountsTold(p.neg);
  }

  lemma ExpRest(schema: seq<Field>, row: Row, p: ExpPoint, temporality: int)
    requires Distinct(schema) && HasOwn(schema, ExpHistogram) && ExpAt(row, p, temporality)
    ensures IsOptional(CellOf(schema, row, Min), p.min) && IsOptional(CellOf(schema, row, Max), p.max)
    ensures CellOf(schema, row, AggregationTemporality) == Some(Int32Cell(temporality))
    ensures AreExemplars(CellOf(schema, row, Exemplars), p.exemplars)
  {
    Found(schema, row, 22, Min, row[22]);
    Found(schema, row, 23, Max, row[23]);
    Found(schema, row, 24, AggregationTemporality, row[24]);
    Found(schema, row, 25, Exemplars, row[25]);
    ExemplarsTold(p.exemplars);
  }

  lemma SummaryTold(schema: seq<Field>, row: Row, m: Meta, p: SummaryPoint)
    requires Distinct(schema) && HasOwn(schema, Summary) && row == SummaryRow(m, p)
    ensures SummarySays(schema, row, p)
  {
    Found(schema, row, 14, Count, Int64Cell(ToInt64(p.count)));
    Found(schema, row, 15, SumOfValues, FloatCell(Given(p.sum)));
    Found(schema, row, 16, ValueAtQuantiles, ListCell(QuantileCells(p.quantiles)));
    QuantilesTold(p.quantiles);
  }

  lemma SharedTold(kind: Kind, row: Row, r: ResourceMetrics, s: ScopeMetrics, m: Metric, p: PointMeta)
    requires CommonRow(MetaOf(r, s, m), p) <= row
    ensures SharedSays(MetricsSchema(kind), row, r, s, m, p)
  {
    MetricsDistinct(kind);
    CommonColumns(kind);
    CommonTold(MetricsSchema(kind), row, MetaOf(r, s, m), p);
  }

  /** The row of a data point says it. */
  lemma PointTold(kind: Kind, t: Tree, a: Place)
    requires IsPoint(kind, t, a)
    ensures PointSays(kind, MetricsSchema(kind), RowAt(kind, t, a), t, a)
  {
    var r := t[a.i];
    var s := r.scopes[a.j];
    var m := s.metrics[a.k];
    var schema, meta, row := MetricsSchema(kind), MetaOf(r, s, m), RowAt(kind, t, a);
    MetricsDistinct(kind);
    OwnColumns(kind);
    match m.data
    case GaugeData(ps) =>
      SharedTold(kind, row, r, s, m, ps[a.p].meta);
      GaugeTold(schema, row, meta, ps[a.p]);
    case SumData(ps, temporality, monotonic) =>
      SharedTold(kind, row, r, s, m, ps[a.p].meta);
      SumTold(schema, row, meta, ps[a.p], temporality, monotonic);
    case HistogramData(_, _) => BucketPointTold(kind, t, a);
    case ExpHistogramData(_, _) => BucketPointTold(kind, t, a);
    case SummaryData(ps) =>
      SharedTold(kind, row, r, s, m, ps[a.p].meta);
      SummaryTold(schema, row, meta, ps[a.p]);
  }

  lemma BucketPointTold(kind: Kind, t: Tree, a: Place)
    requires IsPoint(kind, t, a) && (kind == Histogram || kind == ExpHistogram)
    ensures PointSays(kind, MetricsSchema(kind), RowAt(kind, t, a), t, a)
  {
    var r := t[a.i];
    var s := r.scopes[a.j];
    var m := s.metrics[a.k];
    var schema, meta, row := MetricsSchema(kind), MetaOf(r, s, m), RowAt(kind, t, a);
    MetricsDistinct(kind);
    OwnColumns(kind);
    match m.data
    case HistogramData(ps, temporality) =>
      SharedTold(kind, row, r, s, m, ps[a.p].meta);
      HistogramTold(schema, row, meta, ps[a.p], temporality);
    case ExpHistogramData(ps, temporality) =>
      SharedTold(kind, row, r, s, m, ps[a.p].meta);
      ExpHistogramTold(schema, row, meta, ps[a.p], temporality);
  }

  /** A table that reads back as the rows of a tree says its data points. */
  lemma TableTold(kind: Kind, t: Tree, rec: Record)
    requires rec.schema == MetricsSchema(kind) && Reads(rec, TreeRows(kind, t))
    ensures TableSays(kind, t, rec)
  {
    var ps, rows := Places(kind, t, |t|), TreeRows(kind, t);
    RowsFollowTheDocument(kind, t);
    forall k | 0 <= k < |ps| ensures PointSays(kind, rec.schema, DecodedRow(rec, k), t, ps[k]) {
      assert ps[k] in ps && rows[k] == RowAt(kind, t, ps[k]);
      RowDecoded(rec, rows, k);
      PointTold(kind, t, ps[k]);
    }
  }

  /** There is such a table exactly if there is such a data point. */
  lemma RowsOfPoints(kind: Kind, t: Tree)
    ensures TreeRows(kind, t) != [] <==> exists a: Place :: IsPoint(kind, t, a)
  {
    var ps := Places(kind, t, |t|);
    RowsFollowTheDocument(kind, t);
    if a: Place :| IsPoint(kind, t, a) {
      assert a in ps;
    }
    if ps != [] {
      assert ps[0] in ps;
    }
  }
}

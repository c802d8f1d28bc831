/** Flattening a metrics tree into the five tables, one column builder append at a time. */
module MetricsTable {
  import opened Attributes
  import opened Columns
  import opened GoNumbers
  import opened Builders
  import opened Schemas
  import opened MetricsRows
  import opened MetricsColumns

  /** Between two rows, with these rows appended at the end. */
  twostate predicate Added(bs: BuilderSet, rows: seq<Row>)
    reads bs
  {
    bs.Valid() && bs.part == [] && bs.done == old(bs.done) + rows
  }

  /** The current row now has these cells, and nothing else changed. */
  twostate predicate HasRow(bs: BuilderSet, cells: Row)
    reads bs
  {
    bs.Valid() && bs.rows == old(bs.rows) && bs.done == old(bs.done) && bs.part == cells
  }

  method CommonScope(bs: BuilderSet, m: Meta)
    requires bs.Valid() && bs.part == [] && HasCommon(bs.schema)
    modifies bs`cols, bs`part
    ensures HasRow(bs, ScopeCells(m))
  {
    bs.Str(ResourceAttributes, JsonText(m.resAttrs));
    bs.Str(ResourceSchemaUrl, Plain(m.resSchemaUrl));
    bs.Str(ScopeName, Plain(m.scopeName));
    bs.Str(ScopeVersion, Plain(m.scopeVersion));
    bs.Str(ScopeAttributes, JsonText(m.scopeAttrs));
    bs.Str(ScopeSchemaUrl, Plain(m.scopeSchemaUrl));
  }

  method CommonMetric(bs: BuilderSet, m: Meta)
    requires bs.Valid() && HasCommon(bs.schema) && bs.part == ScopeCells(m)
    modifies bs`cols, bs`part
    ensures HasRow(bs, MetricCells(m))
  {
    bs.Str(ServiceName, m.service);
    bs.Str(MetricName, Plain(m.name));
    bs.Str(MetricDescription, Plain(m.desc));
    bs.Str(MetricUnit, Plain(m.unit));
  }

  method CommonPoint(bs: BuilderSet, m: Meta, p: PointMeta)
    requires bs.Valid() && HasCommon(bs.schema) && bs.part == MetricCells(m)
    modifies bs`cols, bs`part
    ensures HasRow(bs, CommonRow(m, p))
  {
    var attrs := AttributesText(p.attrs);
    bs.Str(PointAttributes, attrs);
    bs.I64(StartTimeUnix, ToInt64(p.start));
    bs.I64(TimeUnix, ToInt64(p.time));
    bs.I32(Flags, ToInt32(p.flags));
  }

  /** The fourteen columns every kind of point has. */
  method Common(bs: BuilderSet, m: Meta, p: PointMeta)
    requires bs.Valid() && bs.part == [] && HasCommon(bs.schema)
    modifies bs`cols, bs`part
    ensures HasRow(bs, CommonRow(m, p))
  {
    CommonScope(bs, m);
    CommonMetric(bs, m);
    CommonPoint(bs, m, p);
  }

  /** The builders of one table, between two rows. */
  ghost predicate Ready(bs: BuilderSet, kind: Kind)
    reads bs
  {
    bs.Valid() && bs.part == [] && bs.schema == MetricsSchema(kind)
  }

  method AppendGauge(bs: BuilderSet, m: Meta, p: NumberPoint)
    requires Ready(bs, Gauge)
    modifies bs
    ensures Added(bs, [GaugeRow(m, p)])
  {
    CommonColumns(Gauge);
    Common(bs, m, p.meta);
    bs.F64(Value, NumberValue(p.value));
    bs.ExemplarList(Exemplars, p.exemplars);
    bs.EndRow();
  }

  method AppendSum(bs: BuilderSet, m: Meta, p: NumberPoint, temporality: int, monotonic: bool)
    requires Ready(bs, Sum)
    modifies bs
    ensures Added(bs, [SumRow(m, p, temporality, monotonic)])
  {
    CommonColumns(Sum);
    Common(bs, m, p.meta);
    bs.F64(Value, NumberValue(p.value));
    bs.I32(AggregationTemporality, temporality);
    bs.Boolean(IsMonotonic, monotonic);
    bs.ExemplarList(Exemplars, p.exemplars);
    bs.EndRow();
  }

  method AppendHistogram(bs: BuilderSet, m: Meta, p: HistogramPoint, temporality: int)
    requires Ready(bs, Histogram)
    modifies bs
    ensures Added(bs, [HistogramRow(m, p, temporality)])
  {
    CommonColumns(Histogram);
    Common(bs, m, p.meta);
    bs.I64(Count, ToInt64(p.count));
    bs.F64OrNull(SumOfValues, p.sum.Is?, OrZero(p.sum));
    bs.I64ListFromUint(BucketCounts, p.buckets);
    bs.F64List(ExplicitBounds, p.bounds);
    AppendHistogramRest(bs, m, p, temporality);
  }

  method AppendHistogramRest(bs: BuilderSet, m: Meta, p: HistogramPoint, temporality: int)
    requires bs.Valid() && bs.schema == MetricsSchema(Histogram) && bs.part == HistogramBucketCells(m, p)
    modifies bs
    ensures Added(bs, [HistogramRow(m, p, temporality)])
  {
    bs.F64OrNull(Min, p.min.Is?, OrZero(p.min));
    bs.F64OrNull(Max, p.max.Is?, OrZero(p.max));
    bs.I32(AggregationTemporality, temporality);
    bs.ExemplarList(Exemplars, p.exemplars);
    bs.EndRow();
  }

  method AppendExpHistogram(bs: BuilderSet, m: Meta, p: ExpPoint, temporality: int)
    requires Ready(bs, ExpHistogram)
    modifies bs
    ensures Added(bs, [ExpHistogramRow(m, p, temporality)])
  {
    CommonColumns(ExpHistogram);
    Common(bs, m, p.meta);
    bs.I64(Count, ToInt64(p.count));
    bs.F64OrNull(SumOfValues, p.sum.Is?, OrZero(p.sum));
    bs.I32(Scale, p.scale);
    bs.I64(ZeroCount, ToInt64(p.zeroCount));
    bs.I32(PositiveOffset, p.posOffset);
    bs.I64ListFromUint(PositiveBucketCounts, p.pos);
    AppendExpRest(bs, m, p, temporality);
  }

  method AppendExpRest(bs: BuilderSet, m: Meta, p: ExpPoint, temporality: int)
    requires bs.Valid() && bs.schema == MetricsSchema(ExpHistogram) && bs.part == ExpBucketCells(m, p)
    modifies bs
    ensures Added(bs, [ExpHistogramRow(m, p, temporality)])
  {
    bs.I32(NegativeOffset, p.negOffset);
    bs.I64ListFromUint(NegativeBucketCounts, p.neg);
    bs.F64OrNull(Min, p.min.Is?, OrZero(p.min));
    bs.F64OrNull(Max, p.max.Is?, OrZero(p.max));
    bs.I32(AggregationTemporality, temporality);
    bs.ExemplarList(Exemplars, p.exemplars);
    bs.EndRow();
  }

  method AppendSummary(bs: BuilderSet, m: Meta, p: SummaryPoint)
    requires Ready(bs, Summary)
    modifies bs
    ensures Added(bs, [SummaryRow(m, p)])
  {
    CommonColumns(Summary);
    Common(bs, m, p.meta);
    bs.I64(Count, ToInt64(p.count));
    bs.F64(SumOfValues, Given(p.sum));
    QuantileList(bs, p.quantiles);
    bs.EndRow();
  }

  method QuantileList(bs: BuilderSet, qs: seq<Quantile>)
    requires bs.CanAppend(ValueAtQuantiles, QUANTILE_TYPE)
    modifies bs`cols, bs`part
    ensures bs.Appended(ListCell(QuantileCells(qs)))
  {
    var child := AppendQuantiles(bs.ChildOf(ValueAtQuantiles, QUANTILE_TYPE), qs);
    bs.List(ValueAtQuantiles, QUANTILE_TYPE, child, QuantileCells(qs));
  }

  /** Reading an optional that is not set gives 0. */
  function OrZero(v: Opt): GoNumbers.F64 {
    Given(if v.Is? then v.f else Finite(0))
  }

  method AppendQuantiles(c: Child, qs: seq<Quantile>) returns (st: Child)
    requires ChildOk(c, QUANTILE_TYPE)
    ensures ChildOk(st, QUANTILE_TYPE)
    ensures ChildCells(st, QUANTILE_TYPE) == ChildCells(c, QUANTILE_TYPE) + QuantileCells(qs)
  {
    st := c;
    for k := 0 to |qs|
      invariant ChildOk(st, QUANTILE_TYPE)
      invariant ChildCells(st, QUANTILE_TYPE) == ChildCells(c, QUANTILE_TYPE) + QuantileCells(qs[..k])
    {
      assert QuantileCells(qs[..k + 1]) == QuantileCells(qs[..k]) + [QuantileCells(qs)[k]];
      ghost var before := st;
      st := Structs(st.len + 1, st.fields);
      st := st.(fields := st.fields[0 := PushFloat(st.fields[0], Given(qs[k].quantile))]);
      st := st.(fields := st.fields[1 := PushFloat(st.fields[1], Given(qs[k].value))]);
      StructAppended(before, st, QUANTILE_TYPE, [FloatCell(Given(qs[k].quantile)), FloatCell(Given(qs[k].value))]);
    }
    assert qs[..|qs|] == qs;
  }

  lemma OneMorePoint(before: seq<Row>, rows: seq<Row>, i: nat)
    requires i < |rows|
    ensures before + rows[..i] + [rows[i]] == before + rows[..i + 1]
  {
  }

  method AppendGauges(bs: BuilderSet, m: Meta, ps: seq<NumberPoint>)
    requires Ready(bs, Gauge)
    modifies bs
    ensures Ready(bs, Gauge) && bs.done == old(bs.done) + MetricRows(Gauge, m, GaugeData(ps))
  {
    ghost var rows := MetricRows(Gauge, m, GaugeData(ps));
    for i := 0 to |ps|
      invariant Ready(bs, Gauge) && bs.done == old(bs.done) + rows[..i]
    {
      AppendGauge(bs, m, ps[i]);
      OneMorePoint(old(bs.done), rows, i);
    }
    assert rows[..|ps|] == rows;
  }

  method AppendSums(bs: BuilderSet, m: Meta, ps: seq<NumberPoint>, temporality: int, monotonic: bool)
    requires Ready(bs, Sum)
    modifies bs
    ensures Ready(bs, Sum) && bs.done == old(bs.done) + MetricRows(Sum, m, SumData(ps, temporality, monotonic))
  {
    ghost var rows := MetricRows(Sum, m, SumData(ps, temporality, monotonic));
    for i := 0 to |ps|
      invariant Ready(bs, Sum) && bs.done == old(bs.done) + rows[..i]
    {
      AppendSum(bs, m, ps[i], temporality, monotonic);
      OneMorePoint(old(bs.done), rows, i);
    }
    assert rows[..|ps|] == rows;
  }

  method AppendHistograms(bs: BuilderSet, m: Meta, ps: seq<HistogramPoint>, temporality: int)
    requires Ready(bs, Histogram)
    modifies bs
    ensures Ready(bs, Histogram) && bs.done == old(bs.done) + MetricRows(Histogram, m, HistogramData(ps, temporality))
  {
    ghost var rows := MetricRows(Histogram, m, HistogramData(ps, temporality));
    for i := 0 to |ps|
      invariant Ready(bs, Histogram) && bs.done == old(bs.done) + rows[..i]
    {
      AppendHistogram(bs, m, ps[i], temporality);
      OneMorePoint(old(bs.done), rows, i);
    }
    assert rows[..|ps|] == rows;
  }

  method AppendExpHistograms(bs: BuilderSet, m: Meta, ps: seq<ExpPoint>, temporality: int)
    requires Ready(bs, ExpHistogram)
    modifies bs
    ensures Ready(bs, ExpHistogram)
    ensures bs.done == old(bs.done) + MetricRows(ExpHistogram, m, ExpHistogramData(ps, temporality))
  {
    ghost var rows := MetricRows(ExpHistogram, m, ExpHistogramData(ps, temporality));
    for i := 0 to |ps|
      invariant Ready(bs, ExpHistogram) && bs.done == old(bs.done) + rows[..i]
    {
      AppendExpHistogram(bs, m, ps[i], temporality);
      OneMorePoint(old(bs.done), rows, i);
    }
    assert rows[..|ps|] == rows;
  }

  method AppendSummaries(bs: BuilderSet, m: Meta, ps: seq<SummaryPoint>)
    requires Ready(bs, Summary)
    modifies bs
    ensures Ready(bs, Summary) && bs.done == old(bs.done) + MetricRows(Summary, m, SummaryData(ps))
  {
    ghost var rows := MetricRows(Summary, m, SummaryData(ps));
    for i := 0 to |ps|
      invariant Ready(bs, Summary) && bs.done == old(bs.done) + rows[..i]
    {
      AppendSummary(bs, m, ps[i]);
      OneMorePoint(old(bs.done), rows, i);
    }
    assert rows[..|ps|] == rows;
  }

  /** One builder set for each kind, all different objects. */
  ghost predicate AllReady(sets: map<Kind, BuilderSet>)
    reads sets.Values
  {
    && (forall k: Kind :: k in sets && Ready(sets[k], k))
    && (forall j: Kind, k: Kind :: j != k ==> sets[j] != sets[k])
  }

  lemma OtherTables(m: Meta, d: Data)
    ensures forall k :: RowCount(k, d) == 0 ==> MetricRows(k, m, d) == []
  {
  }

  method AppendMetric(sets: map<Kind, BuilderSet>, m: Metric, meta: Meta)
    requires AllReady(sets)
    modifies sets.Values
    ensures AllReady(sets)
    ensures forall k: Kind :: sets[k].done == old(sets[k].done) + MetricRows(k, meta, m.data)
  {
    OtherTables(meta, m.data);
    match m.data
    case NoData =>
    case GaugeData(ps) => AppendGauges(sets[Gauge], meta, ps);
    case SumData(ps, temporality, monotonic) => AppendSums(sets[Sum], meta, ps, temporality, monotonic);
    case HistogramData(ps, temporality) => AppendHistograms(sets[Histogram], meta, ps, temporality);
    case ExpHistogramData(ps, temporality) => AppendExpHistograms(sets[ExpHistogram], meta, ps, temporality);
    case SummaryData(ps) => AppendSummaries(sets[Summary], meta, ps);
  }

  method MetricsToRecords(md: Tree) returns (out: map<Kind, Record>)
    ensures forall kind: Kind :: kind in out <==> TreeRows(kind, md) != []
    ensures forall kind :: kind in out ==> out[kind].rows == |TreeRows(kind, md)|
    ensures forall kind :: kind in out ==> out[kind].schema == MetricsSchema(kind)
    ensures forall kind :: kind in out ==> Reads(out[kind], TreeRows(kind, md))
    ensures forall kind: Kind :: kind in out <==> exists a: Place :: IsPoint(kind, md, a)
    ensures forall kind :: kind in out ==> TableSays(kind, md, out[kind])
  {
    var sets := NewSets();
    for i := 0 to |md|
      invariant AllReady(sets) && fresh(sets.Values)
      invariant forall k: Kind :: sets[k].done == RowsUpTo(k, md, i)
    {
      AppendResource(sets, md[i]);
    }
    out := NonEmptyRecords(sets);
    forall kind: Kind
      ensures kind in out <==> exists a: Place :: IsPoint(kind, md, a)
      ensures kind in out ==> TableSays(kind, md, out[kind])
    {
      RowsOfPoints(kind, md);
      if kind in out { TableTold(kind, md, out[kind]); }
    }
  }

  method NewSet(kind: Kind) returns (bs: BuilderSet)
    ensures fresh(bs) && Ready(bs, kind) && bs.done == []
  {
    MetricsDistinct(kind);
    bs := new BuilderSet(MetricsSchema(kind));
  }

  method NewSets() returns (sets: map<Kind, BuilderSet>)
    ensures AllReady(sets) && fresh(sets.Values)
    ensures forall k: Kind :: sets[k].done == []
  {
    var gauge := NewSet(Gauge);
    var sum := NewSet(Sum);
    var histogram := NewSet(Histogram);
    var expHistogram := NewSet(ExpHistogram);
    var summary := NewSet(Summary);
    sets := map[Gauge := gauge, Sum := sum, Histogram := histogram, ExpHistogram := expHistogram, Summary := summary];
    forall k: Kind ensures k in sets && Ready(sets[k], k) && sets[k].done == [] {
      match k case Gauge => case Sum => case Histogram => case ExpHistogram => case Summary =>
    }
    forall j: Kind, k: Kind | j != k ensures sets[j] != sets[k] {
      match j case Gauge => case Sum => case Histogram => case ExpHistogram => case Summary =>
    }
  }

  method AppendResource(sets: map<Kind, BuilderSet>, r: ResourceMetrics)
    requires AllReady(sets)
    modifies sets.Values
    ensures AllReady(sets)
    ensures forall k: Kind :: sets[k].done == old(sets[k].done) + ResourceRows(k, r, |r.scopes|)
  {
    for j := 0 to |r.scopes|
      invariant AllReady(sets)
      invariant forall k: Kind :: sets[k].done == old(sets[k].done) + ResourceRows(k, r, j)
    {
      AppendScope(sets, r, r.scopes[j]);
      forall k: Kind ensures sets[k].done == old(sets[k].done) + ResourceRows(k, r, j + 1) {
        OneMoreScope(old(sets[k].done), k, r, j);
      }
    }
  }

  lemma OneMoreScope(before: seq<Row>, k: Kind, r: ResourceMetrics, j: nat)
    requires j < |r.scopes|
    ensures before + ResourceRows(k, r, j) + ScopeRows(k, r, r.scopes[j], |r.scopes[j].metrics|)
      == before + ResourceRows(k, r, j + 1)
  {
  }

  method AppendScope(sets: map<Kind, BuilderSet>, r: ResourceMetrics, s: ScopeMetrics)
    requires AllReady(sets)
    modifies sets.Values
    ensures AllReady(sets)
    ensures forall k: Kind :: sets[k].done == old(sets[k].done) + ScopeRows(k, r, s, |s.metrics|)
  {
    for i := 0 to |s.metrics|
      invariant AllReady(sets)
      invariant forall k: Kind :: sets[k].done == old(sets[k].done) + ScopeRows(k, r, s, i)
    {
      AppendMetricOf(sets, r, s, s.metrics[i]);
      forall k: Kind ensures sets[k].done == old(sets[k].done) + ScopeRows(k, r, s, i + 1) {
        OneMoreMetric(old(sets[k].done), k, r, s, i);
      }
    }
  }

  lemma OneMoreMetric(before: seq<Row>, k: Kind, r: ResourceMetrics, s: ScopeMetrics, i: nat)
    requires i < |s.metrics|
    ensures before + ScopeRows(k, r, s, i) + RowsOf(k, r, s, s.metrics[i]) == before + ScopeRows(k, r, s, i + 1)
  {
  }

  method AppendMetricOf(sets: map<Kind, BuilderSet>, r: ResourceMetrics, s: ScopeMetrics, m: Metric)
    requires AllReady(sets)
    modifies sets.Values
    ensures AllReady(sets)
    ensures forall k: Kind :: sets[k].done == old(sets[k].done) + RowsOf(k, r, s, m)
  {
    var meta := NewMeta(r, s, m);
    AppendMetric(sets, m, meta);
  }

  method NewMeta(r: ResourceMetrics, s: ScopeMetrics, m: Metric) returns (meta: Meta)
    ensures meta == MetaOf(r, s, m)
  {
    var resAttrs := AttributesToJSON(r.attrs);
    var scopeAttrs := AttributesToJSON(s.attrs);
    var service := ServiceText(r.attrs);
    meta := Meta(resAttrs, r.schemaUrl, s.name, s.version, scopeAttrs, s.schemaUrl, service, m.name, m.desc, m.unit);
  }

  /** A record for each kind that got a row; the kinds come in any order. */
  method NonEmptyRecords(sets: map<Kind, BuilderSet>) returns (out: map<Kind, Record>)
    requires AllReady(sets)
    ensures forall k: Kind :: k in out <==> sets[k].done != []
    ensures forall k :: k in out ==> out[k].schema == MetricsSchema(k) && Reads(out[k], sets[k].done)
  {
    out := map[];
    var left := sets.Keys;
    while left != {}
      invariant left <= sets.Keys && out.Keys !! left
      invariant forall k: Kind :: k !in left ==> (k in out <==> sets[k].done != [])
      invariant forall k :: k in out ==> out[k].schema == MetricsSchema(k) && Reads(out[k], sets[k].done)
      decreases left
    {
      var kind :| kind in left;
      left := left - {kind};
      assert Ready(sets[kind], kind);
      if sets[kind].rows > 0 {
        var r := sets[kind].NewRecordBatch();
        out := out[kind := r];
      }
    }
  }
}

/** A metrics tree, and the table rows its data points stand for. */
module MetricsRows {
  import opened Attributes
  import opened Columns
  import opened GoNumbers
  import opened Builders
  import opened Schemas

  type Attrs = map<string, Raw>

  datatype PointMeta = PointMeta(attrs: Attrs, start: nat, time: nat, flags: nat)

  datatype Opt = Unset | Is(f: Float)

  datatype Quantile = Quantile(quantile: Float, value: Float)

  datatype NumberPoint = NumberPoint(meta: PointMeta, value: Number, exemplars: seq<Exemplar>)

  datatype HistogramPoint = HistogramPoint(
    meta: PointMeta, count: nat, sum: Opt, buckets: seq<nat>, bounds: seq<F64>,
    min: Opt, max: Opt, exemplars: seq<Exemplar>)

  datatype ExpPoint = ExpPoint(
    meta: PointMeta, count: nat, sum: Opt, scale: int, zeroCount: nat, posOffset: int, pos: seq<nat>,
    negOffset: int, neg: seq<nat>, min: Opt, max: Opt, exemplars: seq<Exemplar>)

  datatype SummaryPoint = SummaryPoint(meta: PointMeta, count: nat, sum: Float, quantiles: seq<Quantile>)

  /** `NoData` is a metric whose type was never set: the exporter skips it. */
  datatype Data =
    | NoData
    | GaugeData(gauges: seq<NumberPoint>)
    | SumData(sums: seq<NumberPoint>, temporality: int, monotonic: bool)
    | HistogramData(hists: seq<HistogramPoint>, temporality: int)
    | ExpHistogramData(exps: seq<ExpPoint>, temporality: int)
    | SummaryData(summaries: seq<SummaryPoint>)

  datatype Metric = Metric(name: string, desc: string, unit: string, data: Data)
  datatype ScopeMetrics = ScopeMetrics(
    name: string, version: string, attrs: Attrs, schemaUrl: string, metrics: seq<Metric>)
  datatype ResourceMetrics = ResourceMetrics(attrs: Attrs, schemaUrl: string, scopes: seq<ScopeMetrics>)
  type Tree = seq<ResourceMetrics>

  /** The cells every data point of a metric shares. */
  datatype Meta = Meta(
    resAttrs: Json, resSchemaUrl: string,
    scopeName: string, scopeVersion: string, scopeAttrs: Json, scopeSchemaUrl: string,
    service: Columns.Text, name: string, desc: string, unit: string)

  function MetaOf(r: ResourceMetrics, s: ScopeMetrics, m: Metric): Meta {
    Meta(AttributesJson(r.attrs), r.schemaUrl, s.name, s.version, AttributesJson(s.attrs), s.schemaUrl,
         ServiceText(r.attrs), m.name, m.desc, m.unit)
  }

  /* ---- rows ---- */

  function Str(s: string): Cell { TextCell(Plain(s)) }

  function Nullable(v: Opt): Cell { if v.Is? then FloatCell(Given(v.f)) else NullCell }

  /** The cells a data point has from its resource and scope; with those of its metric; and with
      those of every kind of point. */
  function ScopeCells(m: Meta): Row {
    []
    + [TextCell(JsonText(m.resAttrs))]
    + [Str(m.resSchemaUrl)]
    + [Str(m.scopeName)]
    + [Str(m.scopeVersion)]
    + [TextCell(JsonText(m.scopeAttrs))]
    + [Str(m.scopeSchemaUrl)]
  }

  function MetricCells(m: Meta): Row {
    ScopeCells(m) + [TextCell(m.service)] + [Str(m.name)] + [Str(m.desc)] + [Str(m.unit)]
  }

  function CommonRow(m: Meta, p: PointMeta): (row: Row)
    ensures |row| == 14
  {
    MetricCells(m)
    + [Builders.Json(p.attrs)]
    + [Int64Cell(ToInt64(p.start))]
    + [Int64Cell(ToInt64(p.time))]
    + [Int32Cell(ToInt32(p.flags))]
  }

  function GaugeRow(m: Meta, p: NumberPoint): Row {
    CommonRow(m, p.meta) + [FloatCell(NumberValue(p.value))] + [ListCell(ExemplarCells(p.exemplars))]
  }

  function SumRow(m: Meta, p: NumberPoint, temporality: int, monotonic: bool): Row {
    CommonRow(m, p.meta)
    + [FloatCell(NumberValue(p.value))]
    + [Int32Cell(temporality)]
    + [BoolCell(monotonic)]
    + [ListCell(ExemplarCells(p.exemplars))]
  }

  /** A histogram's row up to its bounds. */
  function HistogramBucketCells(m: Meta, p: HistogramPoint): (row: Row)
    ensures |row| == 18
  {
    CommonRow(m, p.meta)
    + [Int64Cell(ToInt64(p.count))]
    + [Nullable(p.sum)]
    + [ListCell(CountCells(p.buckets))]
    + [ListCell(FloatCells(p.bounds))]
  }

  function HistogramRow(m: Meta, p: HistogramPoint, temporality: int): Row {
    HistogramBucketCells(m, p)
    + [Nullable(p.min)]
    + [Nullable(p.max)]
    + [Int32Cell(temporality)]
    + [ListCell(ExemplarCells(p.exemplars))]
  }

  /** An exponential histogram's row up to its positive buckets. */
  function ExpBucketCells(m: Meta, p: ExpPoint): (row: Row)
    ensures |row| == 20
  {
    CommonRow(m, p.meta)
    + [Int64Cell(ToInt64(p.count))]
    + [Nullable(p.sum)]
    + [Int32Cell(p.scale)]
    + [Int64Cell(ToInt64(p.zeroCount))]
    + [Int32Cell(p.posOffset)]
    + [ListCell(CountCells(p.pos))]
  }

  function ExpHistogramRow(m: Meta, p: ExpPoint, temporality: int): Row {
    ExpBucketCells(m, p)
    + [Int32Cell(p.negOffset)]
    + [ListCell(CountCells(p.neg))]
    + [Nullable(p.min)]
    + [Nullable(p.max)]
    + [Int32Cell(temporality)]
    + [ListCell(ExemplarCells(p.exemplars))]
  }

  function QuantileCells(qs: seq<Quantile>): seq<Cell> {
    seq(|qs|, k requires 0 <= k < |qs| => StructCell([FloatCell(Given(qs[k].quantile)), FloatCell(Given(qs[k].value))]))
  }

  function SummaryRow(m: Meta, p: SummaryPoint): Row {
    CommonRow(m, p.meta)
    + [Int64Cell(ToInt64(p.count))]
    + [FloatCell(Given(p.sum))]
    + [ListCell(QuantileCells(p.quantiles))]
  }

  /* ---- what a row keeps of its point ---- */

  predicate AllCounts(vs: seq<nat>) {
    forall k :: 0 <= k < |vs| ==> vs[k] < TWO_TO_64
  }

  lemma CountsRead(a: seq<nat>, b: seq<nat>)
    requires AllCounts(a) && AllCounts(b) && CountCells(a) == CountCells(b)
    ensures a == b
  {
    assert |CountCells(a)| == |a| && |CountCells(b)| == |b|;
    forall k | 0 <= k < |a| ensures a[k] == b[k] {
      assert CountCells(a)[k] == CountCells(b)[k];
      CountRecovered(a[k]);
      CountRecovered(b[k]);
    }
  }

  lemma FloatsRead(a: seq<F64>, b: seq<F64>)
    requires FloatCells(a) == FloatCells(b)
    ensures a == b
  {
    assert |FloatCells(a)| == |a| && |FloatCells(b)| == |b|;
    forall k | 0 <= k < |a| ensures a[k] == b[k] {
      assert FloatCells(a)[k] == FloatCells(b)[k];
    }
  }

  /** Two histogram points with the same row have the same counts (uint64), buckets, bounds and
      optional sum, minimum and maximum: an unset one is told from every value. */
  lemma HistogramRowKeeps(m: Meta, p: HistogramPoint, q: HistogramPoint, t: int, u: int)
    requires HistogramRow(m, p, t) == HistogramRow(m, q, u)
    requires p.count < TWO_TO_64 && q.count < TWO_TO_64 && AllCounts(p.buckets) && AllCounts(q.buckets)
    ensures p.count == q.count && p.buckets == q.buckets && p.bounds == q.bounds && t == u
    ensures p.sum == q.sum && p.min == q.min && p.max == q.max
  {
    var a, b := HistogramRow(m, p, t), HistogramRow(m, q, u);
    assert a[14] == b[14] && a[15] == b[15] && a[18] == b[18] && a[19] == b[19];
    assert a[16] == b[16] && a[17] == b[17];
    assert a[20] == b[20];
    CountRecovered(p.count);
    CountRecovered(q.count);
    CountsRead(p.buckets, q.buckets);
    FloatsRead(p.bounds, q.bounds);
  }

  lemma ExpHistogramRowKeeps(m: Meta, p: ExpPoint, q: ExpPoint, t: int, u: int)
    requires ExpHistogramRow(m, p, t) == ExpHistogramRow(m, q, u)
    requires p.count < TWO_TO_64 && q.count < TWO_TO_64 && p.zeroCount < TWO_TO_64 && q.zeroCount < TWO_TO_64
    ensures p.count == q.count && p.zeroCount == q.zeroCount && p.scale == q.scale && t == u
    ensures p.sum == q.sum && p.min == q.min && p.max == q.max
  {
    var a, b := ExpHistogramRow(m, p, t), ExpHistogramRow(m, q, u);
    assert a[14] == b[14] && a[15] == b[15] && a[22] == b[22] && a[23] == b[23];
    assert a[17] == b[17] && a[16] == b[16] && a[24] == b[24];
    CountRecovered(p.count);
    CountRecovered(q.count);
    CountRecovered(p.zeroCount);
    CountRecovered(q.zeroCount);
  }

  lemma ExpHistogramRowKeepsBuckets(m: Meta, p: ExpPoint, q: ExpPoint, t: int, u: int)
    requires ExpHistogramRow(m, p, t) == ExpHistogramRow(m, q, u)
    requires AllCounts(p.pos) && AllCounts(q.pos) && AllCounts(p.neg) && AllCounts(q.neg)
    ensures p.posOffset == q.posOffset && p.pos == q.pos && p.negOffset == q.negOffset && p.neg == q.neg
  {
    var a, b := ExpHistogramRow(m, p, t), ExpHistogramRow(m, q, u);
    assert a[18] == b[18] && a[20] == b[20];
    assert a[19] == b[19] && a[21] == b[21];
    CountsRead(p.pos, q.pos);
    CountsRead(p.neg, q.neg);
  }

  /** How many rows a metric has in the table of this kind. */
  function RowCount(kind: Kind, d: Data): nat {
    match d
    case NoData => 0
    case GaugeData(ps) => if kind == Gauge then |ps| else 0
    case SumData(ps, _, _) => if kind == Sum then |ps| else 0
    case HistogramData(ps, _) => if kind == Histogram then |ps| else 0
    case ExpHistogramData(ps, _) => if kind == ExpHistogram then |ps| else 0
    case SummaryData(ps) => if kind == Summary then |ps| else 0
  }

  function PointRow(kind: Kind, m: Meta, d: Data, i: nat): Row
    requires i < RowCount(kind, d)
  {
    match d
    case GaugeData(ps) => GaugeRow(m, ps[i])
    case SumData(ps, temporality, monotonic) => SumRow(m, ps[i], temporality, monotonic)
    case HistogramData(ps, temporality) => HistogramRow(m, ps[i], temporality)
    case ExpHistogramData(ps, temporality) => ExpHistogramRow(m, ps[i], temporality)
    case SummaryData(ps) => SummaryRow(m, ps[i])
  }

  function MetricRows(kind: Kind, m: Meta, d: Data): seq<Row> {
    seq(RowCount(kind, d), i requires 0 <= i < RowCount(kind, d) => PointRow(kind, m, d, i))
  }

  function RowsOf(kind: Kind, r: ResourceMetrics, s: ScopeMetrics, m: Metric): seq<Row> {
    MetricRows(kind, MetaOf(r, s, m), m.data)
  }

  function ScopeRows(kind: Kind, r: ResourceMetrics, s: ScopeMetrics, n: nat): seq<Row>
    requires n <= |s.metrics|
  {
    if n == 0 then [] else ScopeRows(kind, r, s, n - 1) + RowsOf(kind, r, s, s.metrics[n - 1])
  }

  function ResourceRows(kind: Kind, r: ResourceMetrics, n: nat): seq<Row>
    requires n <= |r.scopes|
  {
    if n == 0 then [] else
      ResourceRows(kind, r, n - 1) + ScopeRows(kind, r, r.scopes[n - 1], |r.scopes[n - 1].metrics|)
  }

  /** The rows of the first `n` resources in the table of one kind. */
  function RowsUpTo(kind: Kind, t: Tree, n: nat): seq<Row>
    requires n <= |t|
  {
    if n == 0 then [] else RowsUpTo(kind, t, n - 1) + ResourceRows(kind, t[n - 1], |t[n - 1].scopes|)
  }

  /** All rows of a tree in the table of one kind. */
  function TreeRows(kind: Kind, t: Tree): seq<Row> {
    RowsUpTo(kind, t, |t|)
  }

  /* ---- the same rows, told by position in the document ---- */

  /** A data point: the j-th scope of the i-th resource, its k-th metric, the p-th point. */
  datatype Place = Place(i: nat, j: nat, k: nat, p: nat)

  predicate Before(a: Place, b: Place) {
    a.i < b.i || (a.i == b.i && (a.j < b.j || (a.j == b.j && (a.k < b.k || (a.k == b.k && a.p < b.p)))))
  }

  predicate HasMetricAt(t: Tree, a: Place) {
    a.i < |t| && a.j < |t[a.i].scopes| && a.k < |t[a.i].scopes[a.j].metrics|
  }

  function MetricAt(t: Tree, a: Place): Metric
    requires HasMetricAt(t, a)
  {
    t[a.i].scopes[a.j].metrics[a.k]
  }

  predicate IsPoint(kind: Kind, t: Tree, a: Place) {
    HasMetricAt(t, a) && a.p < RowCount(kind, MetricAt(t, a).data)
  }

  /** The row of one data point. */
  function RowAt(kind: Kind, t: Tree, a: Place): Row
    requires IsPoint(kind, t, a)
  {
    var r := t[a.i];
    PointRow(kind, MetaOf(r, r.scopes[a.j], MetricAt(t, a)), MetricAt(t, a).data, a.p)
  }

  function MetricPlaces(kind: Kind, t: Tree, i: nat, j: nat, k: nat): seq<Place>
    requires HasMetricAt(t, Place(i, j, k, 0))
  {
    var count := RowCount(kind, t[i].scopes[j].metrics[k].data);
    seq(count, p requires 0 <= p < count => Place(i, j, k, p))
  }

  function ScopePlaces(kind: Kind, t: Tree, i: nat, j: nat, n: nat): seq<Place>
    requires i < |t| && j < |t[i].scopes| && n <= |t[i].scopes[j].metrics|
  {
    if n == 0 then [] else ScopePlaces(kind, t, i, j, n - 1) + MetricPlaces(kind, t, i, j, n - 1)
  }

  function ResourcePlaces(kind: Kind, t: Tree, i: nat, n: nat): seq<Place>
    requires i < |t| && n <= |t[i].scopes|
  {
    if n == 0 then [] else
      ResourcePlaces(kind, t, i, n - 1) + ScopePlaces(kind, t, i, n - 1, |t[i].scopes[n - 1].metrics|)
  }

  function Places(kind: Kind, t: Tree, n: nat): seq<Place>
    requires n <= |t|
  {
    if n == 0 then [] else Places(kind, t, n - 1) + ResourcePlaces(kind, t, n - 1, |t[n - 1].scopes|)
  }

  /** Row r is the data point at the r-th place. */
  ghost predicate Told(kind: Kind, t: Tree, ps: seq<Place>, rows: seq<Row>) {
    Pairwise((a, row) => IsPoint(kind, t, a) && row == RowAt(kind, t, a), ps, rows)
  }

  ghost predicate Pairwise<A, B>(related: (A, B) -> bool, a: seq<A>, b: seq<B>) {
    |a| == |b| && forall r :: 0 <= r < |a| ==> related(a[r], b[r])
  }

  lemma PairwiseAppended<A, B>(related: (A, B) -> bool, a: seq<A>, x: seq<A>, b: seq<B>, y: seq<B>)
    requires Pairwise(related, a, b) && Pairwise(related, x, y)
    ensures Pairwise(related, a + x, b + y)
  {
  }

  ghost predicate Ascend(ps: seq<Place>) {
    forall r, q :: 0 <= r < q < |ps| ==> Before(ps[r], ps[q])
  }

  lemma ToldAppended(kind: Kind, t: Tree, a: seq<Place>, b: seq<Place>, x: seq<Row>, y: seq<Row>)
    requires Told(kind, t, a, x) && Told(kind, t, b, y)
    ensures Told(kind, t, a + b, x + y)
  {
    PairwiseAppended((a, row) => IsPoint(kind, t, a) && row == RowAt(kind, t, a), a, b, x, y);
  }

  lemma MetricTold(kind: Kind, t: Tree, i: nat, j: nat, k: nat)
    requires HasMetricAt(t, Place(i, j, k, 0))
    ensures Told(kind, t, MetricPlaces(kind, t, i, j, k), RowsOf(kind, t[i], t[i].scopes[j], t[i].scopes[j].metrics[k]))
  {
    var m := t[i].scopes[j].metrics[k];
    forall p | 0 <= p < RowCount(kind, m.data)
      ensures IsPoint(kind, t, MetricPlaces(kind, t, i, j, k)[p])
      ensures RowsOf(kind, t[i], t[i].scopes[j], m)[p] == RowAt(kind, t, MetricPlaces(kind, t, i, j, k)[p])
    {
      assert MetricAt(t, Place(i, j, k, p)) == m;
    }
  }

  lemma {:induction false} ScopeTold(kind: Kind, t: Tree, i: nat, j: nat, n: nat)
    requires i < |t| && j < |t[i].scopes| && n <= |t[i].scopes[j].metrics|
    ensures Told(kind, t, ScopePlaces(kind, t, i, j, n), ScopeRows(kind, t[i], t[i].scopes[j], n))
  {
    if n > 0 {
      var s := t[i].scopes[j];
      ScopeTold(kind, t, i, j, n - 1);
      MetricTold(kind, t, i, j, n - 1);
      ToldAppended(kind, t, ScopePlaces(kind, t, i, j, n - 1), MetricPlaces(kind, t, i, j, n - 1),
                   ScopeRows(kind, t[i], s, n - 1), RowsOf(kind, t[i], s, s.metrics[n - 1]));
    }
  }

  lemma {:induction false} ResourceTold(kind: Kind, t: Tree, i: nat, n: nat)
    requires i < |t| && n <= |t[i].scopes|
    ensures Told(kind, t, ResourcePlaces(kind, t, i, n), ResourceRows(kind, t[i], n))
  {
    if n > 0 {
      var all := |t[i].scopes[n - 1].metrics|;
      ResourceTold(kind, t, i, n - 1);
      ScopeTold(kind, t, i, n - 1, all);
      ToldAppended(kind, t, ResourcePlaces(kind, t, i, n - 1), ScopePlaces(kind, t, i, n - 1, all),
                   ResourceRows(kind, t[i], n - 1), ScopeRows(kind, t[i], t[i].scopes[n - 1], all));
    }
  }

  lemma {:induction false} TreeTold(kind: Kind, t: Tree, n: nat)
    requires n <= |t|
    ensures Told(kind, t, Places(kind, t, n), RowsUpTo(kind, t, n))
  {
    if n > 0 {
      var all := |t[n - 1].scopes|;
      TreeTold(kind, t, n - 1);
      ResourceTold(kind, t, n - 1, all);
      ToldAppended(kind, t, Places(kind, t, n - 1), ResourcePlaces(kind, t, n - 1, all),
                   RowsUpTo(kind, t, n - 1), ResourceRows(kind, t[n - 1], all));
    }
  }

  lemma AscendAppended(a: seq<Place>, b: seq<Place>)
    requires Ascend(a) && Ascend(b)
    requires forall r, q :: 0 <= r < |a| && 0 <= q < |b| ==> Before(a[r], b[q])
    ensures Ascend(a + b)
  {
  }

  lemma {:induction false} ScopeInOrder(kind: Kind, t: Tree, i: nat, j: nat, n: nat)
    requires i < |t| && j < |t[i].scopes| && n <= |t[i].scopes[j].metrics|
    ensures Ascend(ScopePlaces(kind, t, i, j, n))
    ensures forall a :: a in ScopePlaces(kind, t, i, j, n) ==> a.i == i && a.j == j && a.k < n
    ensures forall a: Place ::
      IsPoint(kind, t, a) && a.i == i && a.j == j && a.k < n ==> a in ScopePlaces(kind, t, i, j, n)
  {
    if n > 0 {
      ScopeInOrder(kind, t, i, j, n - 1);
      AscendAppended(ScopePlaces(kind, t, i, j, n - 1), MetricPlaces(kind, t, i, j, n - 1));
      forall a: Place | IsPoint(kind, t, a) && a.i == i && a.j == j && a.k == n - 1
        ensures a in ScopePlaces(kind, t, i, j, n)
      {
        assert MetricPlaces(kind, t, i, j, n - 1)[a.p] == a;
      }
    }
  }

  lemma {:induction false} ResourceInOrder(kind: Kind, t: Tree, i: nat, n: nat)
    requires i < |t| && n <= |t[i].scopes|
    ensures Ascend(ResourcePlaces(kind, t, i, n))
    ensures forall a :: a in ResourcePlaces(kind, t, i, n) ==> a.i == i && a.j < n
    ensures forall a: Place :: IsPoint(kind, t, a) && a.i == i && a.j < n ==> a in ResourcePlaces(kind, t, i, n)
  {
    if n > 0 {
      var all := |t[i].scopes[n - 1].metrics|;
      ResourceInOrder(kind, t, i, n - 1);
      ScopeInOrder(kind, t, i, n - 1, all);
      AscendAppended(ResourcePlaces(kind, t, i, n - 1), ScopePlaces(kind, t, i, n - 1, all));
    }
  }

  lemma {:induction false} TreeInOrder(kind: Kind, t: Tree, n: nat)
    requires n <= |t|
    ensures Ascend(Places(kind, t, n))
    ensures forall a :: a in Places(kind, t, n) ==> a.i < n
    ensures forall a: Place :: IsPoint(kind, t, a) && a.i < n ==> a in Places(kind, t, n)
  {
    if n > 0 {
      var all := |t[n - 1].scopes|;
      TreeInOrder(kind, t, n - 1);
      ResourceInOrder(kind, t, n - 1, all);
      AscendAppended(Places(kind, t, n - 1), ResourcePlaces(kind, t, n - 1, all));
    }
  }

  /** Row r of a table is the r-th data point of its kind in document order: the places ascend, each
      is a data point of the kind, and every data point of the kind is among them. */
  lemma RowsFollowTheDocument(kind: Kind, t: Tree)
    ensures var ps := Places(kind, t, |t|);
      && Told(kind, t, ps, TreeRows(kind, t)) && Ascend(ps)
      && forall a: Place :: IsPoint(kind, t, a) <==> a in ps
  {
    TreeTold(kind, t, |t|);
    TreeInOrder(kind, t, |t|);
  }

  /** How many data points a metric has, of whichever type. */
  function Size(d: Data): nat {
    match d
    case NoData => 0
    case GaugeData(ps) => |ps|
    case SumData(ps, _, _) => |ps|
    case HistogramData(ps, _) => |ps|
    case ExpHistogramData(ps, _) => |ps|
    case SummaryData(ps) => |ps|
  }

  /** Every data point of a known type has exactly one row in exactly one of the five tables. */
  lemma EveryPointInOneTable(t: Tree, a: Place)
    requires HasMetricAt(t, a) && a.p < Size(MetricAt(t, a).data)
    ensures exists kind, r :: 0 <= r < |Places(kind, t, |t|)| && Places(kind, t, |t|)[r] == a
    ensures forall k1, k2, r1, r2 ::
      && 0 <= r1 < |Places(k1, t, |t|)| && Places(k1, t, |t|)[r1] == a
      && 0 <= r2 < |Places(k2, t, |t|)| && Places(k2, t, |t|)[r2] == a
      ==> k1 == k2 && r1 == r2
  {
    var kind := match MetricAt(t, a).data
      case NoData => Gauge
      case GaugeData(_) => Gauge
      case SumData(_, _, _) => Sum
      case HistogramData(_, _) => Histogram
      case ExpHistogramData(_, _) => ExpHistogram
      case SummaryData(_) => Summary;
    forall k ensures Ascend(Places(k, t, |t|)) && forall b: Place :: IsPoint(k, t, b) <==> b in Places(k, t, |t|) {
      RowsFollowTheDocument(k, t);
    }
    assert IsPoint(kind, t, a) && a in Places(kind, t, |t|);
    var r :| 0 <= r < |Places(kind, t, |t|)| && Places(kind, t, |t|)[r] == a;
    forall k1, k2, r1, r2 |
      && 0 <= r1 < |Places(k1, t, |t|)| && Places(k1, t, |t|)[r1] == a
      && 0 <= r2 < |Places(k2, t, |t|)| && Places(k2, t, |t|)[r2] == a
      ensures k1 == k2 && r1 == r2
    {
      assert IsPoint(k1, t, a) && IsPoint(k2, t, a);
    }
  }
}

/** Turning collected points into OTLP metrics. */
module MetricsBuilder {
  import opened GoNumbers
  import opened Options
  import opened TableCollector
  import SnmpConfig

  /** The Go types bound what a value can hold. */
  predicate InRange(v: Value) {
    match v
    case IntV(i) => MIN_INT64 <= i <= MAX_INT64
    case Int64V(i) => MIN_INT64 <= i <= MAX_INT64
    case UintV(i) => 0 <= i < TWO_TO_64
    case Uint32V(i) => 0 <= i < TWO_TO_32
    case Uint64V(i) => 0 <= i < TWO_TO_64
    case _ => true
  }

  datatype NumberPoint = NumberPoint(number: Number, attrs: map<string, string>, at: int)

  datatype Instrument = Gauge | Sum(monotonic: bool, temporality: Temporality)

  datatype Temporality = Unspecified | Delta | Cumulative

  datatype Metric = Metric(
    name: string, unit: string, description: string, instrument: Instrument, points: seq<NumberPoint>)

  datatype Attribute = Str(s: string) | Int(i: int)

  const SCOPE := "go.olly.garden/grafts/receiver/snmpreceiver"

  /** One resource with one scope. */
  datatype Metrics = Metrics(resource: map<string, Attribute>, scope: string, metrics: seq<Metric>)

  predicate IsSupportedNumber(v: Value) {
    !v.Other?
  }

  /** `setDataPointValue`. */
  function NumberOf(v: Value): Number
    requires IsSupportedNumber(v)
  {
    match v
    case IntV(i) => IntNumber(ToInt64(i))
    case Int64V(i) => IntNumber(i)
    case UintV(i) => if i > MAX_INT64 then DoubleNumber(OfInt(i)) else IntNumber(ToInt64(i))
    case Uint32V(i) => IntNumber(ToInt64(i))
    case Uint64V(i) => if i > MAX_INT64 then DoubleNumber(OfInt(i)) else IntNumber(ToInt64(i))
    case Float32V(f) => DoubleNumber(Given(f))
    case Float64V(f) => DoubleNumber(Given(f))
  }

  /** The integer a value stands for, if it is one. */
  function IntegerOf(v: Value): Option<int> {
    match v
    case IntV(i) => Some(i)
    case Int64V(i) => Some(i)
    case UintV(i) => Some(i)
    case Uint32V(i) => Some(i)
    case Uint64V(i) => Some(i)
    case _ => None
  }

  /** No conversion wraps: an integer that fits 64 signed bits arrives as itself, and one that does
      not arrives as the float of itself. */
  lemma NoWraparound(v: Value)
    requires InRange(v) && IntegerOf(v).Some?
    ensures IsSupportedNumber(v)
    ensures var i := IntegerOf(v).value;
      NumberOf(v) == if MIN_INT64 <= i <= MAX_INT64 then IntNumber(i) else DoubleNumber(OfInt(i))
  {
  }

  function InstrumentOf(kind: string): Option<Instrument> {
    match kind
    case "gauge" => Some(Gauge)
    case "counter" => Some(Sum(true, Cumulative))
    case "up_down_counter" => Some(Sum(false, Cumulative))
    case _ => None
  }

  /** The type of metric that a configured type stands for. */
  predicate IsInstrument(kind: string, x: Instrument) {
    || (kind == "gauge" && x == Gauge)
    || (kind == "counter" && x == Sum(monotonic := true, temporality := Cumulative))
    || (kind == "up_down_counter" && x == Sum(monotonic := false, temporality := Cumulative))
  }

  /** Every type that validation lets through is built, and no other. */
  lemma KnownKinds(kind: string)
    ensures InstrumentOf(kind).Some? <==> kind in SnmpConfig.METRIC_KINDS
    ensures InstrumentOf(kind).Some? <==> kind == "gauge" || kind == "counter" || kind == "up_down_counter"
    ensures InstrumentOf(kind).Some? ==> IsInstrument(kind, InstrumentOf(kind).value)
  {
  }

  /** Floats arrive as they are, and of all values only the non-numbers do not arrive. */
  lemma FloatsArrive(v: Value)
    ensures v.Float32V? ==> IsSupportedNumber(v) && NumberOf(v) == DoubleNumber(Given(v.f))
    ensures v.Float64V? ==> IsSupportedNumber(v) && NumberOf(v) == DoubleNumber(Given(v.f))
    ensures !IsSupportedNumber(v) ==> v.Other?
  {
  }

  /** The numeric points, in order. */
  function Numeric(points: seq<DataPoint>): seq<NumberPoint> {
    if points == [] then [] else
    var n := |points| - 1;
    var p := points[n];
    Numeric(points[..n]) + if IsSupportedNumber(p.value) then [NumberPoint(NumberOf(p.value), p.attrs, p.at)] else []
  }

  /** The metrics of known type, in order, each with its numeric points. */
  function Converted(collected: seq<Collected>): seq<Metric> {
    if collected == [] then [] else
    var n := |collected| - 1;
    var c := collected[n];
    Converted(collected[..n])
      + if InstrumentOf(c.kind).Some?
        then [Metric(c.name, c.unit, c.description, InstrumentOf(c.kind).value, Numeric(c.points))] else []
  }

  /** Host and port cannot be overridden. */
  function Resource(host: string, port: int, attrs: map<string, string>): map<string, Attribute> {
    (map k | k in attrs :: Str(attrs[k]))["snmp.host" := Str(host)]["snmp.port" := Int(port)]
  }

  method AppendPoints(points: seq<DataPoint>) returns (out: seq<NumberPoint>)
    ensures out == Numeric(points)
  {
    out := [];
    for i := 0 to |points|
      invariant out == Numeric(points[..i])
    {
      assert points[..i + 1][..i] == points[..i];
      if !IsSupportedNumber(points[i].value) { continue; }
      out := out + [NumberPoint(NumberOf(points[i].value), points[i].attrs, points[i].at)];
    }
    assert points[..|points|] == points;
  }

  method PutResource(host: string, port: int, attrs: map<string, string>) returns (r: map<string, Attribute>)
    ensures r == Resource(host, port, attrs)
  {
    r := map["snmp.host" := Str(host), "snmp.port" := Int(port)];
    assert "snmp.host" != "snmp.port" by { assert "snmp.host"[5] != "snmp.port"[5]; }
    var left := attrs.Keys;
    while left != {}
      invariant left <= attrs.Keys
      invariant r.Keys == attrs.Keys - left + {"snmp.host", "snmp.port"}
      invariant forall k :: k in r ==>
        r[k] == if k == "snmp.host" then Str(host) else if k == "snmp.port" then Int(port) else Str(attrs[k])
      decreases left
    {
      var k :| k in left;
      left := left - {k};
      if k == "snmp.host" || k == "snmp.port" { continue; }
      r := r[k := Str(attrs[k])];
    }
  }

  /** `BuildMetrics`. */
  method BuildMetrics(host: string, port: int, attrs: map<string, string>, collected: seq<Collected>)
    returns (md: Option<Metrics>)
    ensures md ==
      if collected == [] then None else Some(Metrics(Resource(host, port, attrs), SCOPE, Converted(collected)))
    ensures md.Some? ==>
      && md.value.scope == "go.olly.garden/grafts/receiver/snmpreceiver"
      && md.value.resource.Keys == attrs.Keys + {"snmp.host", "snmp.port"}
      && md.value.resource["snmp.host"] == Str(host) && md.value.resource["snmp.port"] == Int(port)
      && forall k :: k in attrs && k != "snmp.host" && k != "snmp.port" ==> md.value.resource[k] == Str(attrs[k])
  {
    if |collected| == 0 {
      return None;
    }
    var resource := PutResource(host, port, attrs);
    var metrics: seq<Metric> := [];
    for i := 0 to |collected|
      invariant metrics == Converted(collected[..i])
    {
      var c := collected[i];
      assert collected[..i + 1][..i] == collected[..i];
      if c.kind == "gauge" {
        var points := AppendPoints(c.points);
        metrics := metrics + [Metric(c.name, c.unit, c.description, Gauge, points)];
      } else if c.kind == "counter" {
        var points := AppendPoints(c.points);
        metrics := metrics + [Metric(c.name, c.unit, c.description, Sum(true, Cumulative), points)];
      } else if c.kind == "up_down_counter" {
        var points := AppendPoints(c.points);
        metrics := metrics + [Metric(c.name, c.unit, c.description, Sum(false, Cumulative), points)];
      }
    }
    assert collected[..|collected|] == collected;
    return Some(Metrics(resource, SCOPE, metrics));
  }

  /** The k-th numeric point of a metric is found in the output at the position that counts the
      numeric points before it: nothing is dropped, added, duplicated or moved. */
  lemma {:induction false} NumericPosition(points: seq<DataPoint>, k: nat)
    requires k < |points| && IsSupportedNumber(points[k].value)
    ensures |Numeric(points[..k])| < |Numeric(points)|
    ensures Numeric(points)[|Numeric(points[..k])|]
      == NumberPoint(NumberOf(points[k].value), points[k].attrs, points[k].at)
  {
    var n := |points| - 1;
    if k == n {
    } else {
      NumericPosition(points[..n], k);
      assert points[..n][..k] == points[..k];
    }
  }

  lemma {:induction false} NumericCount(points: seq<DataPoint>)
    ensures |Numeric(points)| == |set k | 0 <= k < |points| && IsSupportedNumber(points[k].value)|
  {
    if points != [] {
      var n := |points| - 1;
      NumericCount(points[..n]);
      var before := set k | 0 <= k < |points[..n]| && IsSupportedNumber(points[..n][k].value);
      var all := set k | 0 <= k < |points| && IsSupportedNumber(points[k].value);
      if IsSupportedNumber(points[n].value) {
        assert all == before + {n};
      } else {
        assert all == before;
      }
    }
  }

  /** Metric `i` comes out if and only if its type is known: at the position that counts the metrics of
      known type before it, as itself, with its numeric points. */
  lemma {:induction false} ConvertedAt(collected: seq<Collected>, i: nat)
    requires i < |collected| && InstrumentOf(collected[i].kind).Some?
    ensures var c, k := collected[i], |Converted(collected[..i])|;
      && k < |Converted(collected)|
      && Converted(collected)[k]
        == Metric(c.name, c.unit, c.description, InstrumentOf(c.kind).value, Numeric(c.points))
      && IsInstrument(c.kind, Converted(collected)[k].instrument)
  {
    var n := |collected| - 1;
    if i < n {
      ConvertedAt(collected[..n], i);
      assert collected[..n][..i] == collected[..i];
    }
  }

  lemma {:induction false} ConvertedCount(collected: seq<Collected>)
    ensures |Converted(collected)| == |set i | 0 <= i < |collected| && InstrumentOf(collected[i].kind).Some?|
  {
    if collected != [] {
      var n := |collected| - 1;
      ConvertedCount(collected[..n]);
      var before := set i | 0 <= i < |collected[..n]| && InstrumentOf(collected[..n][i].kind).Some?;
      var all := set i | 0 <= i < |collected| && InstrumentOf(collected[i].kind).Some?;
      if InstrumentOf(collected[n].kind).Some? {
        assert all == before + {n};
      } else {
        assert all == before;
      }
    }
  }

  /** A point comes out if and only if it is that of a numeric point. */
  lemma {:induction false} NumericIff(points: seq<DataPoint>, q: NumberPoint)
    ensures q in Numeric(points) <==> exists k :: 0 <= k < |points| && IsPointOf(q, points[k])
  {
    if points != [] {
      var n := |points| - 1;
      NumericIff(points[..n], q);
      assert forall k :: 0 <= k < n ==> points[..n][k] == points[k];
      if q in Numeric(points[..n]) {
        var k :| 0 <= k < n && IsPointOf(q, points[..n][k]);
        assert IsPointOf(q, points[k]);
      }
    }
  }

  predicate IsPointOf(q: NumberPoint, d: DataPoint) {
    IsSupportedNumber(d.value) && q == NumberPoint(NumberOf(d.value), d.attrs, d.at)
  }

  /** The number the table has for a metric in a row, with the attributes of the row. */
  ghost predicate NumberAt(g: Group, agent: Agent, show: Value -> string, now: int, i: nat, x: string, q: NumberPoint)
    requires i < |g.metrics|
  {
    && HasRow(g, agent, i, x)
    && var v := agent(g.metrics[i].oid).value[Cell(g.metrics[i].oid, x)];
       IsSupportedNumber(v) && q.number == NumberOf(v) && q.at == now && AttributesSay(g, agent, show, x, q.attrs)
  }

  /** Collecting a table and building its metrics, as `BuildMetrics` returns them: metric `i` comes out
      if and only if its type is known, and its points are exactly those of the numeric values it has
      in rows of the table, each with the attributes of its row. */
  lemma TableToMetrics(g: Group, agent: Agent, show: Value -> string, now: int, order: seq<string>, r: seq<Collected>,
                       host: string, port: int, attrs: map<string, string>, md: Metrics, i: nat)
    requires g.metrics != [] && agent(g.metrics[0].oid).Some?
    requires Enumerates(order, Indexes(g, agent(g.metrics[0].oid).value)) && JoinOf(g, agent, show, now, order, r)
    requires md == Metrics(Resource(host, port, attrs), SCOPE, Converted(r))
    requires i < |g.metrics| && InstrumentOf(g.metrics[i].kind).Some?
    ensures var k := |Converted(r[..i])|;
      && k < |md.metrics|
      && md.metrics[k].name == g.metrics[i].name && md.metrics[k].unit == g.metrics[i].unit
      && md.metrics[k].description == g.metrics[i].description
      && IsInstrument(g.metrics[i].kind, md.metrics[k].instrument)
      && forall q :: q in md.metrics[k].points <==> exists x :: NumberAt(g, agent, show, now, i, x, q)
  {
    ConvertedAt(r, i);
    JoinSays(g, agent, show, now, order, r, i);
    forall q ensures q in Numeric(r[i].points) <==> exists x :: NumberAt(g, agent, show, now, i, x, q) {
      RowPoints(g, agent, show, now, i, r[i], q);
    }
  }

  lemma RowPoints(g: Group, agent: Agent, show: Value -> string, now: int, i: nat, c: Collected, q: NumberPoint)
    requires i < |g.metrics| && MetricSays(g, agent, show, now, i, c)
    ensures q in Numeric(c.points) <==> exists x :: NumberAt(g, agent, show, now, i, x, q)
  {
    var rows :| RowsSay(g, agent, show, now, i, rows, c.points);
    NumericIff(c.points, q);
    if q in Numeric(c.points) {
      var k :| 0 <= k < |c.points| && IsPointOf(q, c.points[k]);
      PointHasNumber(g, agent, show, now, i, rows, c.points, k, q);
    }
    if x :| NumberAt(g, agent, show, now, i, x, q) {
      assert x in rows;
      var k :| 0 <= k < |rows| && rows[k] == x;
      NumberIsPoint(g, agent, show, now, i, rows, c.points, k, q);
    }
  }

  lemma PointHasNumber(g: Group, agent: Agent, show: Value -> string, now: int, i: nat, rows: seq<string>,
                       points: seq<DataPoint>, k: nat, q: NumberPoint)
    requires i < |g.metrics| && RowsSay(g, agent, show, now, i, rows, points)
    requires k < |points| && IsPointOf(q, points[k])
    ensures NumberAt(g, agent, show, now, i, rows[k], q)
  {
    assert rows[k] in rows && TableCollector.PointSays(g, agent, show, now, g.metrics[i], rows[k], points[k]);
  }

  lemma NumberIsPoint(g: Group, agent: Agent, show: Value -> string, now: int, i: nat, rows: seq<string>,
                      points: seq<DataPoint>, k: nat, q: NumberPoint)
    requires i < |g.metrics| && RowsSay(g, agent, show, now, i, rows, points)
    requires k < |points| && NumberAt(g, agent, show, now, i, rows[k], q)
    ensures IsPointOf(q, points[k])
  {
    assert TableCollector.PointSays(g, agent, show, now, g.metrics[i], rows[k], points[k]);
    AttributesDetermined(g, agent, show, rows[k], q.attrs, points[k].attrs);
  }
}

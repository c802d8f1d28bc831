/** The column lists of the metric and trace tables. */
module Schemas {
  import opened Columns
  import opened Builders

  datatype Kind = Gauge | Sum | Histogram | ExpHistogram | Summary

  const QUANTILE_TYPE := ListOfStruct([Part(QuantileName, TFloat64), Part(Value, TFloat64)])
  const EVENT_TYPE := ListOfStruct([Part(Timestamp, TInt64), Part(EventName, TText), Part(PointAttributes, TText)])
  const LINK_TYPE := ListOfStruct([
    Part(TraceId, TText), Part(SpanId, TText), Part(TraceState, TText), Part(PointAttributes, TText)])

  function Str(name: Name): Field { Field(name, Scalar(TText)) }
  function I64(name: Name): Field { Field(name, Scalar(TInt64)) }
  function I32(name: Name): Field { Field(name, Scalar(TInt32)) }
  function F64(name: Name): Field { Field(name, Scalar(TFloat64)) }
  function F64Nullable(name: Name): Field { Field(name, NullableFloat) }
  function Counts(name: Name): Field { Field(name, ListOf(TInt64)) }

  /** The columns every metrics table begins with. */
  function CommonField(i: nat): Field
    requires i < 14
  {
    match i
    case 0 => Str(ResourceAttributes)
    case 1 => Str(ResourceSchemaUrl)
    case 2 => Str(ScopeName)
    case 3 => Str(ScopeVersion)
    case 4 => Str(ScopeAttributes)
    case 5 => Str(ScopeSchemaUrl)
    case 6 => Str(ServiceName)
    case 7 => Str(MetricName)
    case 8 => Str(MetricDescription)
    case 9 => Str(MetricUnit)
    case 10 => Str(PointAttributes)
    case 11 => I64(StartTimeUnix)
    case 12 => I64(TimeUnix)
    case _ => I32(Flags)
  }

  function OwnCount(kind: Kind): nat {
    match kind case Gauge => 2 case Sum => 4 case Histogram => 8 case ExpHistogram => 12 case Summary => 3
  }

  /** The columns of one kind of table. */
  function OwnField(kind: Kind, i: nat): Field
    requires i < OwnCount(kind)
  {
    match kind
    case Gauge => if i == 0 then F64(Value) else Field(Exemplars, EXEMPLAR_TYPE)
    case Sum => (
      match i
      case 0 => F64(Value)
      case 1 => I32(AggregationTemporality)
      case 2 => Field(IsMonotonic, Scalar(TBool))
      case _ => Field(Exemplars, EXEMPLAR_TYPE))
    case Histogram => (
      match i
      case 0 => I64(Count)
      case 1 => F64Nullable(SumOfValues)
      case 2 => Counts(BucketCounts)
      case 3 => Field(ExplicitBounds, ListOf(TFloat64))
      case 4 => F64Nullable(Min)
      case 5 => F64Nullable(Max)
      case 6 => I32(AggregationTemporality)
      case _ => Field(Exemplars, EXEMPLAR_TYPE))
    case ExpHistogram => (
      match i
      case 0 => I64(Count)
      case 1 => F64Nullable(SumOfValues)
      case 2 => I32(Scale)
      case 3 => I64(ZeroCount)
      case 4 => I32(PositiveOffset)
      case 5 => Counts(PositiveBucketCounts)
      case 6 => I32(NegativeOffset)
      case 7 => Counts(NegativeBucketCounts)
      case 8 => F64Nullable(Min)
      case 9 => F64Nullable(Max)
      case 10 => I32(AggregationTemporality)
      case _ => Field(Exemplars, EXEMPLAR_TYPE))
    case Summary => (
      match i
      case 0 => I64(Count)
      case 1 => F64(SumOfValues)
      case _ => Field(ValueAtQuantiles, QUANTILE_TYPE))
  }

  function MetricsField(kind: Kind, i: nat): Field
    requires i < 14 + OwnCount(kind)
  {
    if i < 14 then CommonField(i) else OwnField(kind, i - 14)
  }

  function MetricsSchema(kind: Kind): seq<Field> {
    seq(14 + OwnCount(kind), i requires 0 <= i < 14 + OwnCount(kind) => MetricsField(kind, i))
  }

  function SpanField(i: nat): Field
    requires i < 17
  {
    match i
    case 0 => I64(Timestamp)
    case 1 => Str(TraceId)
    case 2 => Str(SpanId)
    case 3 => Str(ParentSpanId)
    case 4 => Str(TraceState)
    case 5 => Str(SpanName)
    case 6 => Str(SpanKind)
    case 7 => Str(ServiceName)
    case 8 => Str(ResourceAttributes)
    case 9 => Str(ScopeName)
    case 10 => Str(ScopeVersion)
    case 11 => Str(SpanAttributes)
    case 12 => I64(Duration)
    case 13 => Str(StatusCode)
    case 14 => Str(StatusMessage)
    case 15 => Field(Events, EVENT_TYPE)
    case _ => Field(Links, LINK_TYPE)
  }

  function TracesSchema(): seq<Field> {
    seq(17, i requires 0 <= i < 17 => SpanField(i))
  }

  /* ---- no column is listed twice, so a name finds its own column ---- */

  /** The position of a column in a metrics table of this kind; past the end if it has no such column. */
  function MetricsIndex(kind: Kind, n: Name): nat {
    match n
    case ResourceAttributes => 0
    case ResourceSchemaUrl => 1
    case ScopeName => 2
    case ScopeVersion => 3
    case ScopeAttributes => 4
    case ScopeSchemaUrl => 5
    case ServiceName => 6
    case MetricName => 7
    case MetricDescription => 8
    case MetricUnit => 9
    case PointAttributes => 10
    case StartTimeUnix => 11
    case TimeUnix => 12
    case Flags => 13
    case _ => 14 + OwnIndex(kind, n)
  }

  function OwnIndex(kind: Kind, n: Name): nat {
    match kind
    case Gauge => (match n case Value => 0 case Exemplars => 1 case _ => 2)
    case Sum => (
      match n case Value => 0 case AggregationTemporality => 1 case IsMonotonic => 2 case Exemplars => 3 case _ => 4)
    case Histogram => (
      match n
      case Count => 0 case SumOfValues => 1 case BucketCounts => 2 case ExplicitBounds => 3 case Min => 4 case Max => 5
      case AggregationTemporality => 6 case Exemplars => 7 case _ => 8)
    case ExpHistogram => (
      match n
      case Count => 0 case SumOfValues => 1 case Scale => 2 case ZeroCount => 3 case PositiveOffset => 4
      case PositiveBucketCounts => 5 case NegativeOffset => 6 case NegativeBucketCounts => 7 case Min => 8 case Max => 9
      case AggregationTemporality => 10 case Exemplars => 11 case _ => 12)
    case Summary => (match n case Count => 0 case SumOfValues => 1 case ValueAtQuantiles => 2 case _ => 3)
  }

  function SpanIndex(n: Name): nat {
    match n
    case Timestamp => 0 case TraceId => 1 case SpanId => 2 case ParentSpanId => 3 case TraceState => 4
    case SpanName => 5 case SpanKind => 6 case ServiceName => 7 case ResourceAttributes => 8 case ScopeName => 9
    case ScopeVersion => 10 case SpanAttributes => 11 case Duration => 12 case StatusCode => 13
    case StatusMessage => 14 case Events => 15 case Links => 16
    case _ => 17
  }

  lemma CommonPosition(kind: Kind, i: nat)
    requires i < 14
    ensures MetricsIndex(kind, CommonField(i).name) == i
  {
  }

  lemma OwnPosition(kind: Kind, i: nat)
    requires i < OwnCount(kind)
    ensures MetricsIndex(kind, OwnField(kind, i).name) == 14 + i
  {
    match kind
    case ExpHistogram => if i < 6 {} else {}
    case Histogram => if i < 4 {} else {}
    case _ =>
  }

  lemma MetricsDistinct(kind: Kind)
    ensures Distinct(MetricsSchema(kind))
  {
    var s := MetricsSchema(kind);
    forall i | 0 <= i < |s| ensures MetricsIndex(kind, s[i].name) == i {
      if i < 14 { CommonPosition(kind, i); } else { OwnPosition(kind, i - 14); }
    }
    forall i | 0 <= i < |s| ensures Index(s, s[i].name) == i {
      assert MetricsIndex(kind, s[Index(s, s[i].name)].name) == Index(s, s[i].name);
    }
  }

  lemma SpanPosition(i: nat)
    requires i < 17
    ensures SpanIndex(SpanField(i).name) == i
  {
    if i < 6 {} else if i < 12 {} else {}
  }

  lemma TracesDistinct()
    ensures Distinct(TracesSchema())
  {
    var s := TracesSchema();
    forall i | 0 <= i < |s| ensures SpanIndex(s[i].name) == i {
      SpanPosition(i);
    }
    forall i | 0 <= i < |s| ensures Index(s, s[i].name) == i {
      assert SpanIndex(s[Index(s, s[i].name)].name) == Index(s, s[i].name);
    }
  }
}

/** The OpenTelemetry data the exporter and the processor read: a batch is a
    list of resource groups, each with its attributes and a list of scope
    groups, each with a name, a version and the records (spans, log records
    or metrics). Only the parts the modelled code reads are kept. */
module Pdata {
  import opened GoTypes

  /** A `pcommon.Value`. Double, bytes, map and slice values are carried as
      the text `Value.AsString` renders for them, since their formatting is
      library code and nothing here inspects them further. */
  datatype AnyValue =
    | Empty
    | Str(s: string)
    | Bool(b: bool)
    | Int(i: Int64)
    | Other(text: string)

  /** `Value.AsString`. */
  function AsString(v: AnyValue): string
  {
    match v
    case Empty => ""
    case Str(s) => s
    case Bool(b) => if b then "true" else "false"
    case Int(i) => FormatInt(i)
    case Other(text) => text
  }

  datatype KeyValue = KeyValue(key: string, value: AnyValue)

  /** A `pcommon.Map`: key/value pairs in their stored (and `Range`) order. */
  type AttrMap = seq<KeyValue>

  ghost predicate UniqueKeys(m: AttrMap)
  {
    forall i, j :: 0 <= i < j < |m| ==> m[i].key != m[j].key
  }

  function KeysOf(m: AttrMap): set<string>
  {
    set kv | kv in m :: kv.key
  }

  /** Pair i is the last one in `attrs` with its key. */
  ghost predicate LastWithKey(attrs: AttrMap, i: int)
    requires 0 <= i < |attrs|
  {
    forall j :: i < j < |attrs| ==> attrs[j].key != attrs[i].key
  }

  // ----- identifiers -----

  type TraceId = b: seq<Byte> | |b| == 16 witness [0, 0, 0, 0, 0, 0, 0, 0, 0, 0, 0, 0, 0, 0, 0, 0]
  type SpanId = b: seq<Byte> | |b| == 8 witness [0, 0, 0, 0, 0, 0, 0, 0]

  /** `TraceID.IsEmpty` / `SpanID.IsEmpty`: every byte is zero. */
  predicate IsEmptyId(id: seq<Byte>)
  {
    forall i :: 0 <= i < |id| ==> id[i] == 0
  }

  /** `TraceID.String` / `SpanID.String`: "" for the empty id, otherwise
      the lower-case hex of the bytes. */
  function IdString(id: seq<Byte>): string
  {
    if IsEmptyId(id) then "" else HexEncode(id)
  }

  // ----- the common tree -----

  datatype Resource = Resource(attrs: AttrMap)

  datatype InstrumentationScope = InstrumentationScope(name: string, version: string, attrs: AttrMap)

  // ----- traces -----

  datatype Span = Span(
    traceId: TraceId,
    spanId: SpanId,
    parentSpanId: SpanId,
    name: string,
    kind: Int32,
    startTimestamp: Uint64,
    endTimestamp: Uint64,
    statusCode: Int32,
    statusMessage: string,
    attrs: AttrMap)

  datatype ScopeSpans = ScopeSpans(scope: InstrumentationScope, spans: seq<Span>)
  datatype ResourceSpans = ResourceSpans(resource: Resource, scopeSpans: seq<ScopeSpans>)
  datatype Traces = Traces(resourceSpans: seq<ResourceSpans>)

  // ----- logs -----

  datatype LogRecord = LogRecord(
    timestamp: Uint64,
    observedTimestamp: Uint64,
    severityNumber: Int32,
    severityText: string,
    body: AnyValue,
    traceId: TraceId,
    spanId: SpanId,
    flags: Uint32,
    attrs: AttrMap)

  datatype ScopeLogs = ScopeLogs(scope: InstrumentationScope, logRecords: seq<LogRecord>)
  datatype ResourceLogs = ResourceLogs(resource: Resource, scopeLogs: seq<ScopeLogs>)
  datatype Logs = Logs(resourceLogs: seq<ResourceLogs>)

  // ----- metrics -----

  /** A float64, carried by its bits: values are copied, never computed on. */
  datatype Float64 = Float64(bits: bv64)

  const ZeroFloat: Float64 := Float64(0)

  /** The value of a gauge or sum point; `NoNumber` is a point whose value
      type is `NumberDataPointValueTypeEmpty`. */
  datatype NumberValue = NoNumber | IntNumber(i: Int64) | DoubleNumber(d: Float64)

  datatype NumberDataPoint = NumberDataPoint(
    attrs: AttrMap, startTimestamp: Uint64, timestamp: Uint64, value: NumberValue)

  /** A histogram, exponential-histogram or summary point: of its fields the
      exporter reads the attributes, both timestamps and the sum. */
  datatype DistributionPoint = DistributionPoint(
    attrs: AttrMap, startTimestamp: Uint64, timestamp: Uint64, sum: Float64)

  /** `AggregationTemporality`; `TemporalityCode` is any other stored code. */
  datatype AggregationTemporality =
    | TemporalityUnspecified
    | Delta
    | Cumulative
    | TemporalityCode(code: Int32)

  /** The metric's data, by `Metric.Type()`; `NoData` is `MetricTypeEmpty`. */
  datatype MetricData =
    | NoData
    | Gauge(points: seq<NumberDataPoint>)
    | Sum(points: seq<NumberDataPoint>, temporality: AggregationTemporality, isMonotonic: bool)
    | Histogram(dists: seq<DistributionPoint>, temporality: AggregationTemporality)
    | ExponentialHistogram(dists: seq<DistributionPoint>, temporality: AggregationTemporality)
    | Summary(dists: seq<DistributionPoint>)

  datatype Metric = Metric(name: string, description: string, unit: string, data: MetricData)

  datatype ScopeMetrics = ScopeMetrics(scope: InstrumentationScope, metrics: seq<Metric>)
  datatype ResourceMetrics = ResourceMetrics(resource: Resource, scopeMetrics: seq<ScopeMetrics>)
  datatype Metrics = Metrics(resourceMetrics: seq<ResourceMetrics>)

  // ----- record counts (`SpanCount`, `LogRecordCount`, `DataPointCount`) -----

  function ScopeSpansCount(sss: seq<ScopeSpans>): nat
  {
    if sss == [] then 0 else |sss[0].spans| + ScopeSpansCount(sss[1..])
  }

  function SpanCount(td: Traces): nat
  {
    ResourceSpansCount(td.resourceSpans)
  }

  function ResourceSpansCount(rss: seq<ResourceSpans>): nat
  {
    if rss == [] then 0 else ScopeSpansCount(rss[0].scopeSpans) + ResourceSpansCount(rss[1..])
  }

  function ScopeLogsCount(sls: seq<ScopeLogs>): nat
  {
    if sls == [] then 0 else |sls[0].logRecords| + ScopeLogsCount(sls[1..])
  }

  function ResourceLogsCount(rls: seq<ResourceLogs>): nat
  {
    if rls == [] then 0 else ScopeLogsCount(rls[0].scopeLogs) + ResourceLogsCount(rls[1..])
  }

  function LogRecordCount(ld: Logs): nat
  {
    ResourceLogsCount(ld.resourceLogs)
  }

  /** Data points of one metric; an empty-typed metric has none. */
  function PointCount(data: MetricData): nat
  {
    match data
    case NoData => 0
    case Gauge(points) => |points|
    case Sum(points, _, _) => |points|
    case Histogram(dists, _) => |dists|
    case ExponentialHistogram(dists, _) => |dists|
    case Summary(dists) => |dists|
  }

  function MetricsPointCount(ms: seq<Metric>): nat
  {
    if ms == [] then 0 else PointCount(ms[0].data) + MetricsPointCount(ms[1..])
  }

  function ScopeMetricsCount(sms: seq<ScopeMetrics>): nat
  {
    if sms == [] then 0 else MetricsPointCount(sms[0].metrics) + ScopeMetricsCount(sms[1..])
  }

  function ResourceMetricsCount(rms: seq<ResourceMetrics>): nat
  {
    if rms == [] then 0 else ScopeMetricsCount(rms[0].scopeMetrics) + ResourceMetricsCount(rms[1..])
  }

  function DataPointCount(md: Metrics): nat
  {
    ResourceMetricsCount(md.resourceMetrics)
  }

  // ----- what an export call carries -----

  /** `pipeline.Signal`; `OtherSignal` is any signal the exporter does not
      handle (profiles, say). */
  datatype Signal = SignalTraces | SignalMetrics | SignalLogs | OtherSignal(name: string)

  /** The batch handed to the blob name template (`telemetryData any`). */
  datatype Telemetry = TracesData(traces: Traces) | MetricsData(metrics: Metrics) | LogsData(logs: Logs)

  /** An id's text is empty exactly when the id is empty. */
  lemma IdStringEmptyIff(id: seq<Byte>)
    ensures IdString(id) == "" <==> IsEmptyId(id)
  {
  }

  /** A non-empty id's text decodes back to the id. */
  lemma IdStringRoundTrip(id: seq<Byte>)
    requires !IsEmptyId(id)
    ensures HexDecode(IdString(id)) == id
  {
    HexRoundTrip(id);
  }
}

/** The columnar (Parquet) marshaller: it flattens the resource / scope /
    record tree into one row per span, log record or metric data point,
    copying the resource's attributes and the scope's name and version onto
    every row, and hands the rows to the Parquet writer. */
module ParquetMarshaller {
  import opened Wrappers
  import opened GoTypes
  import opened Pdata

  type Bytes = seq<Byte>
  type StringMap = map<string, string>

  // ----- row schemas -----

  datatype SpanRow = SpanRow(
    traceId: string,
    spanId: string,
    parentSpanId: string,
    name: string,
    kind: Int32,
    startTimeUnixNano: Int64,
    endTimeUnixNano: Int64,
    statusCode: Int32,
    statusMessage: string,
    resourceAttributes: StringMap,
    spanAttributes: StringMap,
    scopeName: string,
    scopeVersion: string)

  datatype LogRow = LogRow(
    timestamp: Int64,
    observedTimestamp: Int64,
    severityNumber: Int32,
    severityText: string,
    body: string,
    traceId: string,
    spanId: string,
    flags: Uint32,
    resourceAttributes: StringMap,
    logAttributes: StringMap,
    scopeName: string,
    scopeVersion: string)

  /** A metric row; fields a metric kind does not set keep Go's zero value. */
  datatype MetricRow = MetricRow(
    name: string,
    description: string,
    unit: string,
    metricType: string,
    timeUnixNano: Int64,
    valueType: string,
    intValue: Int64,
    doubleValue: Float64,
    resourceAttributes: StringMap,
    metricAttributes: StringMap,
    scopeName: string,
    scopeVersion: string,
    isMonotonic: bool,
    aggregationTemporality: string,
    startTimeUnixNano: Int64)

  // ----- flattening lists of row groups -----

  /** The rows of every group, group after group. */
  function Concat<T>(groups: seq<seq<T>>): seq<T>
  {
    if groups == [] then [] else groups[0] + Concat(groups[1..])
  }

  /** Appending one more group appends its rows: the step of every
      row-building loop. */
  lemma {:induction false} ConcatSnoc<T>(groups: seq<seq<T>>, last: seq<T>)
    ensures Concat(groups + [last]) == Concat(groups) + last
  {
    if groups != [] {
      assert (groups + [last])[1..] == groups[1..] + [last];
      ConcatSnoc(groups[1..], last);
    }
  }

  /** Concat of the first i + 1 groups. */
  lemma ConcatPrefixStep<T>(groups: seq<seq<T>>, i: nat)
    requires i < |groups|
    ensures Concat(groups[..i + 1]) == Concat(groups[..i]) + groups[i]
  {
    assert groups[..i + 1] == groups[..i] + [groups[i]];
    ConcatSnoc(groups[..i], groups[i]);
  }

  /** Row k of group i sits after all rows of the groups before it. */
  lemma {:induction false} ConcatIndex<T>(groups: seq<seq<T>>, i: nat, k: nat)
    requires i < |groups| && k < |groups[i]|
    ensures |Concat(groups[..i])| + k < |Concat(groups)|
    ensures Concat(groups)[|Concat(groups[..i])| + k] == groups[i][k]
  {
    if i == 0 {
      assert groups[..0] == [];
    } else {
      assert groups[..i][1..] == groups[1..][..i - 1];
      ConcatIndex(groups[1..], i - 1, k);
    }
  }

  lemma PrefixStep<T>(s: seq<T>, k: nat)
    requires k < |s|
    ensures s[..k + 1] == s[..k] + [s[k]]
  {
  }

  lemma AppendAssoc<T>(a: seq<T>, b: seq<T>, c: seq<T>)
    ensures (a + b) + c == a + (b + c)
  {
  }

  /** Every row comes from some group. */
  lemma {:induction false} ConcatMember<T>(groups: seq<seq<T>>, x: T)
    requires x in Concat(groups)
    ensures exists i, k :: 0 <= i < |groups| && 0 <= k < |groups[i]| && groups[i][k] == x
  {
    if x in groups[0] {
      var k :| 0 <= k < |groups[0]| && groups[0][k] == x;
      assert groups[0][k] == x;
    } else {
      ConcatMember(groups[1..], x);
      var i, k :| 0 <= i < |groups[1..]| && 0 <= k < |groups[1..][i]| && groups[1..][i][k] == x;
      assert groups[i + 1][k] == x;
    }
  }

  // ----- attributesToMap -----

  /** `attributesToMap`: each key mapped to its value's string form. A
      `pcommon.Map` never repeats a key; were one repeated, the later pair
      would win, as `Range` visits pairs in order. */
  function FlattenAttributes(attrs: AttrMap): (m: StringMap)
    ensures m.Keys == KeysOf(attrs)
    ensures forall i :: 0 <= i < |attrs| && LastWithKey(attrs, i) ==>
      m[attrs[i].key] == AsString(attrs[i].value)
  {
    if attrs == [] then map[]
    else
      var init := attrs[..|attrs| - 1];
      var last := attrs[|attrs| - 1];
      assert attrs == init + [last];
      FlattenAttributes(init)[last.key := AsString(last.value)]
  }

  /** With unique keys (the `pcommon.Map` invariant), every source pair
      appears in the flattened map. */
  lemma FlattenUniqueKeys(attrs: AttrMap)
    requires UniqueKeys(attrs)
    ensures FlattenAttributes(attrs).Keys == KeysOf(attrs)
    ensures forall i :: 0 <= i < |attrs| ==>
      FlattenAttributes(attrs)[attrs[i].key] == AsString(attrs[i].value)
  {
    forall i | 0 <= i < |attrs|
      ensures LastWithKey(attrs, i)
    {
    }
  }

  /** `attributesToMap`, filling the map in place pair by pair. */
  method AttributesToMap(attrs: AttrMap) returns (m: StringMap)
    ensures m == FlattenAttributes(attrs)
  {
    m := map[];
    var i := 0;
    while i < |attrs|
      invariant 0 <= i <= |attrs|
      invariant m == FlattenAttributes(attrs[..i])
    {
      assert attrs[..i + 1][..i] == attrs[..i];
      m := m[attrs[i].key := AsString(attrs[i].value)];
      i := i + 1;
    }
    assert attrs[..|attrs|] == attrs;
  }

  // ----- marshalToParquet -----

  /** What the Parquet writer (with Snappy compression) does with a
      non-empty row list: the encoded bytes, or the error of `Write` or of
      `Close`. */
  datatype EncodeOutcome = Encoded(bytes: Bytes) | WriteFailed(reason: string) | CloseFailed(reason: string)

  /** `marshalToParquet`: no rows give an empty payload and no error, before
      the writer is consulted. */
  function MarshalToParquet<T>(rows: seq<T>, encode: seq<T> -> EncodeOutcome): (r: Result<Bytes, string>)
    ensures rows == [] ==> r == Success([])
    ensures rows != [] ==> (r.Success? <==> encode(rows).Encoded?)
    ensures rows != [] && encode(rows).Encoded? ==> r == Success(encode(rows).bytes)
    ensures rows != [] && encode(rows).WriteFailed? ==>
              r == Failure("failed to write parquet data: " + encode(rows).reason)
    ensures rows != [] && encode(rows).CloseFailed? ==>
              r == Failure("failed to close parquet writer: " + encode(rows).reason)
  {
    if |rows| == 0 then Success([])
    else
      match encode(rows)
      case Encoded(b) => Success(b)
      case WriteFailed(e) => Failure("failed to write parquet data: " + e)
      case CloseFailed(e) => Failure("failed to close parquet writer: " + e)
  }

  // ----- traces -----

  /** The row `MarshalTraces` builds for one span. */
  function SpanRowOf(resourceAttrs: StringMap, scopeName: string, scopeVersion: string, span: Span): (row: SpanRow)
    ensures row.parentSpanId == "" <==> IsEmptyId(span.parentSpanId)
  {
    SpanRow(
      IdString(span.traceId),
      IdString(span.spanId),
      if IsEmptyId(span.parentSpanId) then "" else IdString(span.parentSpanId),
      span.name,
      span.kind,
      Int64OfUint64(span.startTimestamp),
      Int64OfUint64(span.endTimestamp),
      span.statusCode,
      span.statusMessage,
      resourceAttrs,
      FlattenAttributes(span.attrs),
      scopeName,
      scopeVersion)
  }

  function ScopeSpansRows(resourceAttrs: StringMap, ss: ScopeSpans): seq<SpanRow>
  {
    seq(|ss.spans|, k requires 0 <= k < |ss.spans| =>
      SpanRowOf(resourceAttrs, ss.scope.name, ss.scope.version, ss.spans[k]))
  }

  function ScopeSpansGroups(resourceAttrs: StringMap, sss: seq<ScopeSpans>): seq<seq<SpanRow>>
  {
    seq(|sss|, j requires 0 <= j < |sss| => ScopeSpansRows(resourceAttrs, sss[j]))
  }

  function ResourceSpansRows(rs: ResourceSpans): seq<SpanRow>
  {
    Concat(ScopeSpansGroups(FlattenAttributes(rs.resource.attrs), rs.scopeSpans))
  }

  function ResourceSpansGroups(rss: seq<ResourceSpans>): seq<seq<SpanRow>>
  {
    seq(|rss|, i requires 0 <= i < |rss| => ResourceSpansRows(rss[i]))
  }

  /** The rows of a trace batch, resource by resource, scope by scope, span
      by span. */
  function TraceRows(td: Traces): seq<SpanRow>
  {
    Concat(ResourceSpansGroups(td.resourceSpans))
  }

  /** The innermost loop of `MarshalTraces`: one row per span of a scope
      group, appended to the rows built so far. */
  method AppendSpanRows(spans: seq<SpanRow>, resourceAttrs: StringMap, ss: ScopeSpans)
    returns (out: seq<SpanRow>)
    ensures out == spans + ScopeSpansRows(resourceAttrs, ss)
  {
    out := spans;
    var scopeName := ss.scope.name;
    var scopeVersion := ss.scope.version;
    ghost var scopeRows := ScopeSpansRows(resourceAttrs, ss);
    var k := 0;
    while k < |ss.spans|
      invariant 0 <= k <= |ss.spans|
      invariant out == spans + scopeRows[..k]
    {
      var span := ss.spans[k];
      var parentSpanId := "";
      if !IsEmptyId(span.parentSpanId) {
        parentSpanId := IdString(span.parentSpanId);
      }
      var spanAttrs := AttributesToMap(span.attrs);
      var row := SpanRow(
        IdString(span.traceId),
        IdString(span.spanId),
        parentSpanId,
        span.name,
        span.kind,
        Int64OfUint64(span.startTimestamp),
        Int64OfUint64(span.endTimestamp),
        span.statusCode,
        span.statusMessage,
        resourceAttrs,
        spanAttrs,
        scopeName,
        scopeVersion);
      assert scopeRows[k] == SpanRowOf(resourceAttrs, scopeName, scopeVersion, span);
      PrefixStep(scopeRows, k);
      out := out + [row];
      k := k + 1;
    }
    assert scopeRows[..k] == scopeRows;
  }

  /** `parquetMarshaller.MarshalTraces`: loops over resources and scopes
      appending one row per span, then the writer. */
  method MarshalTraces(td: Traces, encode: seq<SpanRow> -> EncodeOutcome) returns (r: Result<Bytes, string>)
    ensures r == MarshalToParquet(TraceRows(td), encode)
  {
    var spans: seq<SpanRow> := [];
    ghost var groups := ResourceSpansGroups(td.resourceSpans);
    assert groups[..0] == [];
    var i := 0;
    while i < |td.resourceSpans|
      invariant 0 <= i <= |td.resourceSpans|
      invariant spans == Concat(groups[..i])
    {
      var rs := td.resourceSpans[i];
      var resourceAttrs := AttributesToMap(rs.resource.attrs);
      ghost var scopeGroups := ScopeSpansGroups(resourceAttrs, rs.scopeSpans);
      assert scopeGroups[..0] == [];
      var j := 0;
      while j < |rs.scopeSpans|
        invariant 0 <= j <= |rs.scopeSpans|
        invariant spans == Concat(groups[..i]) + Concat(scopeGroups[..j])
      {
        assert scopeGroups[j] == ScopeSpansRows(resourceAttrs, rs.scopeSpans[j]);
        spans := AppendSpanRows(spans, resourceAttrs, rs.scopeSpans[j]);
        AppendAssoc(Concat(groups[..i]), Concat(scopeGroups[..j]), scopeGroups[j]);
        ConcatPrefixStep(scopeGroups, j);
        j := j + 1;
      }
      assert scopeGroups[..j] == scopeGroups;
      ConcatPrefixStep(groups, i);
      i := i + 1;
    }
    assert groups[..i] == groups;
    r := MarshalToParquet(spans, encode);
  }

  // ----- what the trace rows are -----

  lemma {:induction false} ScopeSpansRowCount(resourceAttrs: StringMap, sss: seq<ScopeSpans>)
    ensures |Concat(ScopeSpansGroups(resourceAttrs, sss))| == ScopeSpansCount(sss)
  {
    if sss != [] {
      assert ScopeSpansGroups(resourceAttrs, sss)[1..] == ScopeSpansGroups(resourceAttrs, sss[1..]);
      ScopeSpansRowCount(resourceAttrs, sss[1..]);
    }
  }

  lemma {:induction false} ResourceSpansRowCount(rss: seq<ResourceSpans>)
    ensures |Concat(ResourceSpansGroups(rss))| == ResourceSpansCount(rss)
  {
    if rss != [] {
      assert ResourceSpansGroups(rss)[1..] == ResourceSpansGroups(rss[1..]);
      ScopeSpansRowCount(FlattenAttributes(rss[0].resource.attrs), rss[0].scopeSpans);
      ResourceSpansRowCount(rss[1..]);
    }
  }

  /** One row per span: the row count is the batch's span count. */
  lemma TraceRowCount(td: Traces)
    ensures |TraceRows(td)| == SpanCount(td)
  {
    ResourceSpansRowCount(td.resourceSpans);
  }

  /** Span k of scope group j of a resource becomes the row after the rows
      of the scope groups before it, and that row carries the resource's
      flattened attributes and the scope's name and version. */
  lemma SpanRowInResource(rs: ResourceSpans, j: nat, k: nat)
    requires j < |rs.scopeSpans| && k < |rs.scopeSpans[j].spans|
    ensures var ss := rs.scopeSpans[j];
            var n := ScopeSpansCount(rs.scopeSpans[..j]) + k;
            n < |ResourceSpansRows(rs)| &&
            ResourceSpansRows(rs)[n] == SpanRowOf(FlattenAttributes(rs.resource.attrs), ss.scope.name, ss.scope.version, ss.spans[k])
  {
    var ra := FlattenAttributes(rs.resource.attrs);
    var groups := ScopeSpansGroups(ra, rs.scopeSpans);
    assert groups[..j] == ScopeSpansGroups(ra, rs.scopeSpans[..j]);
    ScopeSpansRowCount(ra, rs.scopeSpans[..j]);
    ConcatIndex(groups, j, k);
  }

  /** Row q of resource group i of a trace batch comes after the rows of the
      resource groups before it: resources keep their order. */
  lemma ResourceSpansRowInBatch(td: Traces, i: nat, q: nat)
    requires i < |td.resourceSpans| && q < |ResourceSpansRows(td.resourceSpans[i])|
    ensures var n := ResourceSpansCount(td.resourceSpans[..i]) + q;
            n < |TraceRows(td)| && TraceRows(td)[n] == ResourceSpansRows(td.resourceSpans[i])[q]
  {
    var groups := ResourceSpansGroups(td.resourceSpans);
    assert groups[..i] == ResourceSpansGroups(td.resourceSpans[..i]);
    ResourceSpansRowCount(td.resourceSpans[..i]);
    ConcatIndex(groups, i, q);
  }

  /** `row` is the row of span k of scope j of resource i. */
  ghost predicate IsSpanRowOf(td: Traces, row: SpanRow, i: int, j: int, k: int)
  {
    0 <= i < |td.resourceSpans| && IsResourceSpanRowOf(td.resourceSpans[i], row, j, k)
  }

  /** `row` is the row of span k of scope j of the resource group `rs`. */
  ghost predicate IsResourceSpanRowOf(rs: ResourceSpans, row: SpanRow, j: int, k: int)
  {
    && 0 <= j < |rs.scopeSpans|
    && 0 <= k < |rs.scopeSpans[j].spans|
    && var ss := rs.scopeSpans[j];
       row == SpanRowOf(FlattenAttributes(rs.resource.attrs), ss.scope.name, ss.scope.version, ss.spans[k])
  }

  lemma ResourceSpansRowOrigin(rs: ResourceSpans, row: SpanRow)
    requires row in ResourceSpansRows(rs)
    ensures exists j, k :: IsResourceSpanRowOf(rs, row, j, k)
  {
    var groups := ScopeSpansGroups(FlattenAttributes(rs.resource.attrs), rs.scopeSpans);
    ConcatMember(groups, row);
    var j, k :| 0 <= j < |groups| && 0 <= k < |groups[j]| && groups[j][k] == row;
    assert IsResourceSpanRowOf(rs, row, j, k);
  }

  /** No row is made up: each is the row of some span of the batch. */
  lemma TraceRowOrigin(td: Traces, row: SpanRow)
    requires row in TraceRows(td)
    ensures exists i, j, k :: IsSpanRowOf(td, row, i, j, k)
  {
    var groups := ResourceSpansGroups(td.resourceSpans);
    ConcatMember(groups, row);
    var i, m :| 0 <= i < |groups| && 0 <= m < |groups[i]| && groups[i][m] == row;
    ResourceSpansRowOrigin(td.resourceSpans[i], row);
    var j, k :| IsResourceSpanRowOf(td.resourceSpans[i], row, j, k);
    assert IsSpanRowOf(td, row, i, j, k);
  }

  /** A resource attribute shared by every resource of the batch shows up,
      as its string form, in every row. */
  lemma TraceRowsCarryResourceAttribute(td: Traces, kv: KeyValue)
    requires forall rs :: rs in td.resourceSpans ==> UniqueKeys(rs.resource.attrs) && kv in rs.resource.attrs
    ensures forall row :: row in TraceRows(td) ==>
      kv.key in row.resourceAttributes && row.resourceAttributes[kv.key] == AsString(kv.value)
  {
    forall row | row in TraceRows(td)
      ensures kv.key in row.resourceAttributes && row.resourceAttributes[kv.key] == AsString(kv.value)
    {
      TraceRowOrigin(td, row);
      var i, j, k :| IsSpanRowOf(td, row, i, j, k);
      var attrs := td.resourceSpans[i].resource.attrs;
      FlattenUniqueKeys(attrs);
      var n :| 0 <= n < |attrs| && attrs[n] == kv;
    }
  }

  /** A batch without spans marshals to an empty payload, whatever the
      writer would do. */
  lemma TracesWithoutSpansMarshalEmpty(td: Traces, encode: seq<SpanRow> -> EncodeOutcome)
    requires SpanCount(td) == 0
    ensures MarshalToParquet(TraceRows(td), encode) == Success([])
  {
    TraceRowCount(td);
  }

  // ----- logs -----

  /** The row `MarshalLogs` builds for one log record. */
  function LogRowOf(resourceAttrs: StringMap, scopeName: string, scopeVersion: string, lr: LogRecord): (row: LogRow)
    ensures row.traceId == "" <==> IsEmptyId(lr.traceId)
    ensures row.spanId == "" <==> IsEmptyId(lr.spanId)
  {
    LogRow(
      Int64OfUint64(lr.timestamp),
      Int64OfUint64(lr.observedTimestamp),
      lr.severityNumber,
      lr.severityText,
      AsString(lr.body),
      if IsEmptyId(lr.traceId) then "" else IdString(lr.traceId),
      if IsEmptyId(lr.spanId) then "" else IdString(lr.spanId),
      lr.flags,
      resourceAttrs,
      FlattenAttributes(lr.attrs),
      scopeName,
      scopeVersion)
  }

  function ScopeLogsRows(resourceAttrs: StringMap, sl: ScopeLogs): seq<LogRow>
  {
    seq(|sl.logRecords|, k requires 0 <= k < |sl.logRecords| =>
      LogRowOf(resourceAttrs, sl.scope.name, sl.scope.version, sl.logRecords[k]))
  }

  function ScopeLogsGroups(resourceAttrs: StringMap, sls: seq<ScopeLogs>): seq<seq<LogRow>>
  {
    seq(|sls|, j requires 0 <= j < |sls| => ScopeLogsRows(resourceAttrs, sls[j]))
  }

  function ResourceLogsRows(rl: ResourceLogs): seq<LogRow>
  {
    Concat(ScopeLogsGroups(FlattenAttributes(rl.resource.attrs), rl.scopeLogs))
  }

  function ResourceLogsGroups(rls: seq<ResourceLogs>): seq<seq<LogRow>>
  {
    seq(|rls|, i requires 0 <= i < |rls| => ResourceLogsRows(rls[i]))
  }

  /** The rows of a log batch, resource by resource, scope by scope, record
      by record. */
  function LogRows(ld: Logs): seq<LogRow>
  {
    Concat(ResourceLogsGroups(ld.resourceLogs))
  }

  /** The innermost loop of `MarshalLogs`: one row per log record of a scope
      group, appended to the rows built so far. */
  method AppendLogRows(logs: seq<LogRow>, resourceAttrs: StringMap, sl: ScopeLogs)
    returns (out: seq<LogRow>)
    ensures out == logs + ScopeLogsRows(resourceAttrs, sl)
  {
    out := logs;
    var scopeName := sl.scope.name;
    var scopeVersion := sl.scope.version;
    ghost var scopeRows := ScopeLogsRows(resourceAttrs, sl);
    var k := 0;
    while k < |sl.logRecords|
      invariant 0 <= k <= |sl.logRecords|
      invariant out == logs + scopeRows[..k]
    {
      var logRecord := sl.logRecords[k];
      var traceId := "";
      if !IsEmptyId(logRecord.traceId) {
        traceId := IdString(logRecord.traceId);
      }
      var spanId := "";
      if !IsEmptyId(logRecord.spanId) {
        spanId := IdString(logRecord.spanId);
      }
      var logAttrs := AttributesToMap(logRecord.attrs);
      var row := LogRow(
        Int64OfUint64(logRecord.timestamp),
        Int64OfUint64(logRecord.observedTimestamp),
        logRecord.severityNumber,
        logRecord.severityText,
        AsString(logRecord.body),
        traceId,
        spanId,
        logRecord.flags,
        resourceAttrs,
        logAttrs,
        scopeName,
        scopeVersion);
      assert scopeRows[k] == LogRowOf(resourceAttrs, scopeName, scopeVersion, logRecord);
      PrefixStep(scopeRows, k);
      out := out + [row];
      k := k + 1;
    }
    assert scopeRows[..k] == scopeRows;
  }

  /** `parquetMarshaller.MarshalLogs`: loops over resources and scopes
      appending one row per log record, then the writer. */
  method MarshalLogs(ld: Logs, encode: seq<LogRow> -> EncodeOutcome) returns (r: Result<Bytes, string>)
    ensures r == MarshalToParquet(LogRows(ld), encode)
  {
    var logs: seq<LogRow> := [];
    ghost var groups := ResourceLogsGroups(ld.resourceLogs);
    assert groups[..0] == [];
    var i := 0;
    while i < |ld.resourceLogs|
      invariant 0 <= i <= |ld.resourceLogs|
      invariant logs == Concat(groups[..i])
    {
      var rl := ld.resourceLogs[i];
      var resourceAttrs := AttributesToMap(rl.resource.attrs);
      ghost var scopeGroups := ScopeLogsGroups(resourceAttrs, rl.scopeLogs);
      assert scopeGroups[..0] == [];
      var j := 0;
      while j < |rl.scopeLogs|
        invariant 0 <= j <= |rl.scopeLogs|
        invariant logs == Concat(groups[..i]) + Concat(scopeGroups[..j])
      {
        assert scopeGroups[j] == ScopeLogsRows(resourceAttrs, rl.scopeLogs[j]);
        logs := AppendLogRows(logs, resourceAttrs, rl.scopeLogs[j]);
        AppendAssoc(Concat(groups[..i]), Concat(scopeGroups[..j]), scopeGroups[j]);
        ConcatPrefixStep(scopeGroups, j);
        j := j + 1;
      }
      assert scopeGroups[..j] == scopeGroups;
      ConcatPrefixStep(groups, i);
      i := i + 1;
    }
    assert groups[..i] == groups;
    r := MarshalToParquet(logs, encode);
  }

  lemma {:induction false} ScopeLogsRowCount(resourceAttrs: StringMap, sls: seq<ScopeLogs>)
    ensures |Concat(ScopeLogsGroups(resourceAttrs, sls))| == ScopeLogsCount(sls)
  {
    if sls != [] {
      assert ScopeLogsGroups(resourceAttrs, sls)[1..] == ScopeLogsGroups(resourceAttrs, sls[1..]);
      ScopeLogsRowCount(resourceAttrs, sls[1..]);
    }
  }

  lemma {:induction false} ResourceLogsRowCount(rls: seq<ResourceLogs>)
    ensures |Concat(ResourceLogsGroups(rls))| == ResourceLogsCount(rls)
  {
    if rls != [] {
      assert ResourceLogsGroups(rls)[1..] == ResourceLogsGroups(rls[1..]);
      ScopeLogsRowCount(FlattenAttributes(rls[0].resource.attrs), rls[0].scopeLogs);
      ResourceLogsRowCount(rls[1..]);
    }
  }

  /** One row per log record. */
  lemma LogRowCount(ld: Logs)
    ensures |LogRows(ld)| == LogRecordCount(ld)
  {
    ResourceLogsRowCount(ld.resourceLogs);
  }

  /** Record k of scope group j of a resource becomes the row after the rows
      of the scope groups before it, and that row carries the resource's
      flattened attributes and the scope's name and version. */
  lemma LogRowInResource(rl: ResourceLogs, j: nat, k: nat)
    requires j < |rl.scopeLogs| && k < |rl.scopeLogs[j].logRecords|
    ensures var sl := rl.scopeLogs[j];
            var n := ScopeLogsCount(rl.scopeLogs[..j]) + k;
            n < |ResourceLogsRows(rl)| &&
            ResourceLogsRows(rl)[n] == LogRowOf(FlattenAttributes(rl.resource.attrs), sl.scope.name, sl.scope.version, sl.logRecords[k])
  {
    var ra := FlattenAttributes(rl.resource.attrs);
    var groups := ScopeLogsGroups(ra, rl.scopeLogs);
    assert groups[..j] == ScopeLogsGroups(ra, rl.scopeLogs[..j]);
    ScopeLogsRowCount(ra, rl.scopeLogs[..j]);
    ConcatIndex(groups, j, k);
  }

  /** Row q of resource group i of a log batch comes after the rows of the
      resource groups before it. */
  lemma ResourceLogsRowInBatch(ld: Logs, i: nat, q: nat)
    requires i < |ld.resourceLogs| && q < |ResourceLogsRows(ld.resourceLogs[i])|
    ensures var n := ResourceLogsCount(ld.resourceLogs[..i]) + q;
            n < |LogRows(ld)| && LogRows(ld)[n] == ResourceLogsRows(ld.resourceLogs[i])[q]
  {
    var groups := ResourceLogsGroups(ld.resourceLogs);
    assert groups[..i] == ResourceLogsGroups(ld.resourceLogs[..i]);
    ResourceLogsRowCount(ld.resourceLogs[..i]);
    ConcatIndex(groups, i, q);
  }

  /** `row` is the row of record k of scope j of resource i. */
  ghost predicate IsLogRowOf(ld: Logs, row: LogRow, i: int, j: int, k: int)
  {
    0 <= i < |ld.resourceLogs| && IsResourceLogRowOf(ld.resourceLogs[i], row, j, k)
  }

  /** `row` is the row of record k of scope j of the resource group `rl`. */
  ghost predicate IsResourceLogRowOf(rl: ResourceLogs, row: LogRow, j: int, k: int)
  {
    && 0 <= j < |rl.scopeLogs|
    && 0 <= k < |rl.scopeLogs[j].logRecords|
    && var sl := rl.scopeLogs[j];
       row == LogRowOf(FlattenAttributes(rl.resource.attrs), sl.scope.name, sl.scope.version, sl.logRecords[k])
  }

  lemma ResourceLogsRowOrigin(rl: ResourceLogs, row: LogRow)
    requires row in ResourceLogsRows(rl)
    ensures exists j, k :: IsResourceLogRowOf(rl, row, j, k)
  {
    var groups := ScopeLogsGroups(FlattenAttributes(rl.resource.attrs), rl.scopeLogs);
    ConcatMember(groups, row);
    var j, k :| 0 <= j < |groups| && 0 <= k < |groups[j]| && groups[j][k] == row;
    assert IsResourceLogRowOf(rl, row, j, k);
  }

  /** Each log row is the row of some record of the batch. */
  lemma LogRowOrigin(ld: Logs, row: LogRow)
    requires row in LogRows(ld)
    ensures exists i, j, k :: IsLogRowOf(ld, row, i, j, k)
  {
    var groups := ResourceLogsGroups(ld.resourceLogs);
    ConcatMember(groups, row);
    var i, m :| 0 <= i < |groups| && 0 <= m < |groups[i]| && groups[i][m] == row;
    ResourceLogsRowOrigin(ld.resourceLogs[i], row);
    var j, k :| IsResourceLogRowOf(ld.resourceLogs[i], row, j, k);
    assert IsLogRowOf(ld, row, i, j, k);
  }

  /** A batch without log records marshals to an empty payload. */
  lemma LogsWithoutRecordsMarshalEmpty(ld: Logs, encode: seq<LogRow> -> EncodeOutcome)
    requires LogRecordCount(ld) == 0
    ensures MarshalToParquet(LogRows(ld), encode) == Success([])
  {
    LogRowCount(ld);
  }

  // ----- metrics -----

  /** The temporality column of sum, histogram and exponential-histogram
      rows. */
  function TemporalityName(t: AggregationTemporality): (name: string)
    ensures name == "delta" <==> t.Delta?
    ensures name == "cumulative" <==> t.Cumulative?
    ensures name == "unspecified" <==> !t.Delta? && !t.Cumulative?
  {
    match t
    case Delta => "delta"
    case Cumulative => "cumulative"
    case _ => "unspecified"
  }

  /** The `Type` column of a metric's rows. */
  function MetricTypeName(data: MetricData): string
  {
    match data
    case NoData => ""
    case Gauge(_) => "gauge"
    case Sum(_, _, _) => "sum"
    case Histogram(_, _) => "histogram"
    case ExponentialHistogram(_, _) => "exponential_histogram"
    case Summary(_) => "summary"
  }

  /** The value type switch of the gauge and sum extractors: an int point
      sets `ValueType` to "int" and `IntValue`, a double point "double" and
      `DoubleValue`; any other point leaves all three at their zero values. */
  function ValueTypeName(v: NumberValue): string
  {
    match v
    case IntNumber(_) => "int"
    case DoubleNumber(_) => "double"
    case NoNumber => ""
  }

  function IntColumn(v: NumberValue): Int64
  {
    if v.IntNumber? then v.i else 0
  }

  function DoubleColumn(v: NumberValue): Float64
  {
    if v.DoubleNumber? then v.d else ZeroFloat
  }

  /** A gauge or sum row. */
  function NumberRow(m: Metric, typeName: string, resourceAttrs: StringMap, scopeName: string, scopeVersion: string,
                     dp: NumberDataPoint, startTime: Int64, isMonotonic: bool, temporality: string): MetricRow
  {
    MetricRow(m.name, m.description, m.unit, typeName, Int64OfUint64(dp.timestamp),
              ValueTypeName(dp.value), IntColumn(dp.value), DoubleColumn(dp.value),
              resourceAttrs, FlattenAttributes(dp.attrs), scopeName, scopeVersion,
              isMonotonic, temporality, startTime)
  }

  /** A histogram, exponential-histogram or summary row: the sum stands for
      the value, always as a double. */
  function DistributionRow(m: Metric, typeName: string, resourceAttrs: StringMap, scopeName: string, scopeVersion: string,
                           dp: DistributionPoint, temporality: string): MetricRow
  {
    MetricRow(m.name, m.description, m.unit, typeName, Int64OfUint64(dp.timestamp),
              "double", 0, dp.sum, resourceAttrs, FlattenAttributes(dp.attrs), scopeName, scopeVersion,
              false, temporality, Int64OfUint64(dp.startTimestamp))
  }

  /** The rows of one metric: one per data point, none for a metric of any
      other type. */
  function RowsOfMetric(resourceAttrs: StringMap, scopeName: string, scopeVersion: string, m: Metric): seq<MetricRow>
  {
    match m.data
    case NoData => []
    case Gauge(points) =>
      seq(|points|, p requires 0 <= p < |points| =>
        NumberRow(m, "gauge", resourceAttrs, scopeName, scopeVersion, points[p], 0, false, ""))
    case Sum(points, t, mono) =>
      seq(|points|, p requires 0 <= p < |points| =>
        NumberRow(m, "sum", resourceAttrs, scopeName, scopeVersion, points[p],
                  Int64OfUint64(points[p].startTimestamp), mono, TemporalityName(t)))
    case Histogram(dists, t) =>
      seq(|dists|, p requires 0 <= p < |dists| =>
        DistributionRow(m, "histogram", resourceAttrs, scopeName, scopeVersion, dists[p], TemporalityName(t)))
    case ExponentialHistogram(dists, t) =>
      seq(|dists|, p requires 0 <= p < |dists| =>
        DistributionRow(m, "exponential_histogram", resourceAttrs, scopeName, scopeVersion, dists[p], TemporalityName(t)))
    case Summary(dists) =>
      seq(|dists|, p requires 0 <= p < |dists| =>
        DistributionRow(m, "summary", resourceAttrs, scopeName, scopeVersion, dists[p], ""))
  }

  /** `extractGaugeMetrics`. */
  method ExtractGaugeMetrics(m: Metric, resourceAttrs: StringMap, scopeName: string, scopeVersion: string)
    returns (rows: seq<MetricRow>)
    requires m.data.Gauge?
    ensures rows == RowsOfMetric(resourceAttrs, scopeName, scopeVersion, m)
  {
    rows := [];
    var points := m.data.points;
    var i := 0;
    while i < |points|
      invariant 0 <= i <= |points|
      invariant rows == RowsOfMetric(resourceAttrs, scopeName, scopeVersion, m)[..i]
    {
      var dp := points[i];
      var metricAttrs := AttributesToMap(dp.attrs);
      var pm := MetricRow(m.name, m.description, m.unit, "gauge", Int64OfUint64(dp.timestamp),
                          "", 0, ZeroFloat, resourceAttrs, metricAttrs, scopeName, scopeVersion,
                          false, "", 0);
      match dp.value {
        case IntNumber(v) =>
          pm := pm.(valueType := "int", intValue := v);
        case DoubleNumber(v) =>
          pm := pm.(valueType := "double", doubleValue := v);
        case NoNumber =>
      }
      PrefixStep(RowsOfMetric(resourceAttrs, scopeName, scopeVersion, m), i);
      rows := rows + [pm];
      i := i + 1;
    }
  }

  /** `extractSumMetrics`. */
  method ExtractSumMetrics(m: Metric, resourceAttrs: StringMap, scopeName: string, scopeVersion: string)
    returns (rows: seq<MetricRow>)
    requires m.data.Sum?
    ensures rows == RowsOfMetric(resourceAttrs, scopeName, scopeVersion, m)
  {
    rows := [];
    var points := m.data.points;
    var aggregationTemporality := "unspecified";
    match m.data.temporality {
      case Delta =>
        aggregationTemporality := "delta";
      case Cumulative =>
        aggregationTemporality := "cumulative";
      case _ =>
    }
    assert aggregationTemporality == TemporalityName(m.data.temporality);
    var i := 0;
    while i < |points|
      invariant 0 <= i <= |points|
      invariant rows == RowsOfMetric(resourceAttrs, scopeName, scopeVersion, m)[..i]
    {
      var dp := points[i];
      var metricAttrs := AttributesToMap(dp.attrs);
      var pm := MetricRow(m.name, m.description, m.unit, "sum", Int64OfUint64(dp.timestamp),
                          "", 0, ZeroFloat, resourceAttrs, metricAttrs, scopeName, scopeVersion,
                          m.data.isMonotonic, aggregationTemporality, Int64OfUint64(dp.startTimestamp));
      match dp.value {
        case IntNumber(v) =>
          pm := pm.(valueType := "int", intValue := v);
        case DoubleNumber(v) =>
          pm := pm.(valueType := "double", doubleValue := v);
        case NoNumber =>
      }
      PrefixStep(RowsOfMetric(resourceAttrs, scopeName, scopeVersion, m), i);
      rows := rows + [pm];
      i := i + 1;
    }
  }

  /** `extractHistogramMetrics`. */
  method ExtractHistogramMetrics(m: Metric, resourceAttrs: StringMap, scopeName: string, scopeVersion: string)
    returns (rows: seq<MetricRow>)
    requires m.data.Histogram?
    ensures rows == RowsOfMetric(resourceAttrs, scopeName, scopeVersion, m)
  {
    rows := [];
    var dists := m.data.dists;
    var aggregationTemporality := "unspecified";
    match m.data.temporality {
      case Delta =>
        aggregationTemporality := "delta";
      case Cumulative =>
        aggregationTemporality := "cumulative";
      case _ =>
    }
    assert aggregationTemporality == TemporalityName(m.data.temporality);
    var i := 0;
    while i < |dists|
      invariant 0 <= i <= |dists|
      invariant rows == RowsOfMetric(resourceAttrs, scopeName, scopeVersion, m)[..i]
    {
      var dp := dists[i];
      var metricAttrs := AttributesToMap(dp.attrs);
      var pm := MetricRow(m.name, m.description, m.unit, "histogram", Int64OfUint64(dp.timestamp),
                          "double", 0, dp.sum, resourceAttrs, metricAttrs, scopeName, scopeVersion,
                          false, aggregationTemporality, Int64OfUint64(dp.startTimestamp));
      PrefixStep(RowsOfMetric(resourceAttrs, scopeName, scopeVersion, m), i);
      rows := rows + [pm];
      i := i + 1;
    }
  }

  /** `extractSummaryMetrics`: summaries carry no temporality. */
  method ExtractSummaryMetrics(m: Metric, resourceAttrs: StringMap, scopeName: string, scopeVersion: string)
    returns (rows: seq<MetricRow>)
    requires m.data.Summary?
    ensures rows == RowsOfMetric(resourceAttrs, scopeName, scopeVersion, m)
  {
    rows := [];
    var dists := m.data.dists;
    var i := 0;
    while i < |dists|
      invariant 0 <= i <= |dists|
      invariant rows == RowsOfMetric(resourceAttrs, scopeName, scopeVersion, m)[..i]
    {
      var dp := dists[i];
      var metricAttrs := AttributesToMap(dp.attrs);
      var pm := MetricRow(m.name, m.description, m.unit, "summary", Int64OfUint64(dp.timestamp),
                          "double", 0, dp.sum, resourceAttrs, metricAttrs, scopeName, scopeVersion,
                          false, "", Int64OfUint64(dp.startTimestamp));
      PrefixStep(RowsOfMetric(resourceAttrs, scopeName, scopeVersion, m), i);
      rows := rows + [pm];
      i := i + 1;
    }
  }

  /** `extractExponentialHistogramMetrics`. */
  method ExtractExponentialHistogramMetrics(m: Metric, resourceAttrs: StringMap, scopeName: string, scopeVersion: string)
    returns (rows: seq<MetricRow>)
    requires m.data.ExponentialHistogram?
    ensures rows == RowsOfMetric(resourceAttrs, scopeName, scopeVersion, m)
  {
    rows := [];
    var dists := m.data.dists;
    var aggregationTemporality := "unspecified";
    match m.data.temporality {
      case Delta =>
        aggregationTemporality := "delta";
      case Cumulative =>
        aggregationTemporality := "cumulative";
      case _ =>
    }
    assert aggregationTemporality == TemporalityName(m.data.temporality);
    var i := 0;
    while i < |dists|
      invariant 0 <= i <= |dists|
      invariant rows == RowsOfMetric(resourceAttrs, scopeName, scopeVersion, m)[..i]
    {
      var dp := dists[i];
      var metricAttrs := AttributesToMap(dp.attrs);
      var pm := MetricRow(m.name, m.description, m.unit, "exponential_histogram", Int64OfUint64(dp.timestamp),
                          "double", 0, dp.sum, resourceAttrs, metricAttrs, scopeName, scopeVersion,
                          false, aggregationTemporality, Int64OfUint64(dp.startTimestamp));
      PrefixStep(RowsOfMetric(resourceAttrs, scopeName, scopeVersion, m), i);
      rows := rows + [pm];
      i := i + 1;
    }
  }

  function MetricGroups(resourceAttrs: StringMap, scopeName: string, scopeVersion: string, ms: seq<Metric>): seq<seq<MetricRow>>
  {
    seq(|ms|, k requires 0 <= k < |ms| => RowsOfMetric(resourceAttrs, scopeName, scopeVersion, ms[k]))
  }

  function ScopeMetricsRows(resourceAttrs: StringMap, sm: ScopeMetrics): seq<MetricRow>
  {
    Concat(MetricGroups(resourceAttrs, sm.scope.name, sm.scope.version, sm.metrics))
  }

  function ScopeMetricsGroups(resourceAttrs: StringMap, sms: seq<ScopeMetrics>): seq<seq<MetricRow>>
  {
    seq(|sms|, j requires 0 <= j < |sms| => ScopeMetricsRows(resourceAttrs, sms[j]))
  }

  function ResourceMetricsRows(rm: ResourceMetrics): seq<MetricRow>
  {
    Concat(ScopeMetricsGroups(FlattenAttributes(rm.resource.attrs), rm.scopeMetrics))
  }

  function ResourceMetricsGroups(rms: seq<ResourceMetrics>): seq<seq<MetricRow>>
  {
    seq(|rms|, i requires 0 <= i < |rms| => ResourceMetricsRows(rms[i]))
  }

  /** The rows of a metric batch, resource by resource, scope by scope,
      metric by metric, data point by data point. */
  function MetricsRows(md: Metrics): seq<MetricRow>
  {
    Concat(ResourceMetricsGroups(md.resourceMetrics))
  }

  /** The innermost loop of `MarshalMetrics`: the metrics of a scope group,
      each handed to the extractor of its type; a metric of no known type
      adds nothing. */
  method AppendScopeMetricsRows(metrics: seq<MetricRow>, resourceAttrs: StringMap, sm: ScopeMetrics)
    returns (out: seq<MetricRow>)
    ensures out == metrics + ScopeMetricsRows(resourceAttrs, sm)
  {
    out := metrics;
    var scopeName := sm.scope.name;
    var scopeVersion := sm.scope.version;
    ghost var groups := MetricGroups(resourceAttrs, scopeName, scopeVersion, sm.metrics);
    assert groups[..0] == [];
    var k := 0;
    while k < |sm.metrics|
      invariant 0 <= k <= |sm.metrics|
      invariant out == metrics + Concat(groups[..k])
    {
      var metric := sm.metrics[k];
      var rows: seq<MetricRow> := [];
      match metric.data {
        case Gauge(_) =>
          rows := ExtractGaugeMetrics(metric, resourceAttrs, scopeName, scopeVersion);
        case Sum(_, _, _) =>
          rows := ExtractSumMetrics(metric, resourceAttrs, scopeName, scopeVersion);
        case Histogram(_, _) =>
          rows := ExtractHistogramMetrics(metric, resourceAttrs, scopeName, scopeVersion);
        case Summary(_) =>
          rows := ExtractSummaryMetrics(metric, resourceAttrs, scopeName, scopeVersion);
        case ExponentialHistogram(_, _) =>
          rows := ExtractExponentialHistogramMetrics(metric, resourceAttrs, scopeName, scopeVersion);
        case NoData =>
      }
      assert rows == groups[k];
      AppendAssoc(metrics, Concat(groups[..k]), groups[k]);
      ConcatPrefixStep(groups, k);
      out := out + rows;
      k := k + 1;
    }
    assert groups[..k] == groups;
  }

  /** `parquetMarshaller.MarshalMetrics`: loops over resources and scopes
      collecting the rows of every metric, then the writer. */
  method MarshalMetrics(md: Metrics, encode: seq<MetricRow> -> EncodeOutcome) returns (r: Result<Bytes, string>)
    ensures r == MarshalToParquet(MetricsRows(md), encode)
  {
    var metrics: seq<MetricRow> := [];
    ghost var groups := ResourceMetricsGroups(md.resourceMetrics);
    assert groups[..0] == [];
    var i := 0;
    while i < |md.resourceMetrics|
      invariant 0 <= i <= |md.resourceMetrics|
      invariant metrics == Concat(groups[..i])
    {
      var rm := md.resourceMetrics[i];
      var resourceAttrs := AttributesToMap(rm.resource.attrs);
      ghost var scopeGroups := ScopeMetricsGroups(resourceAttrs, rm.scopeMetrics);
      assert scopeGroups[..0] == [];
      var j := 0;
      while j < |rm.scopeMetrics|
        invariant 0 <= j <= |rm.scopeMetrics|
        invariant metrics == Concat(groups[..i]) + Concat(scopeGroups[..j])
      {
        assert scopeGroups[j] == ScopeMetricsRows(resourceAttrs, rm.scopeMetrics[j]);
        metrics := AppendScopeMetricsRows(metrics, resourceAttrs, rm.scopeMetrics[j]);
        AppendAssoc(Concat(groups[..i]), Concat(scopeGroups[..j]), scopeGroups[j]);
        ConcatPrefixStep(scopeGroups, j);
        j := j + 1;
      }
      assert scopeGroups[..j] == scopeGroups;
      ConcatPrefixStep(groups, i);
      i := i + 1;
    }
    assert groups[..i] == groups;
    r := MarshalToParquet(metrics, encode);
  }

  /** A metric yields one row per data point. */
  lemma RowsOfMetricCount(resourceAttrs: StringMap, scopeName: string, scopeVersion: string, m: Metric)
    ensures |RowsOfMetric(resourceAttrs, scopeName, scopeVersion, m)| == PointCount(m.data)
  {
  }

  /** Row p of a metric: the metric's identity and its type literal, the
      resource and scope columns, and no start time for a gauge. */
  lemma MetricRowIdentity(resourceAttrs: StringMap, scopeName: string, scopeVersion: string, m: Metric, p: nat)
    requires p < PointCount(m.data)
    ensures var row := RowsOfMetric(resourceAttrs, scopeName, scopeVersion, m)[p];
            && row.name == m.name && row.description == m.description && row.unit == m.unit
            && row.metricType == MetricTypeName(m.data)
            && row.resourceAttributes == resourceAttrs
            && row.scopeName == scopeName && row.scopeVersion == scopeVersion
            && (m.data.Gauge? ==> row.startTimeUnixNano == 0)
  {
  }

  /** Gauge and sum rows carry the point's value in the column of its type:
      `"int"` exactly for int points, `"double"` exactly for double points,
      an empty value type otherwise. */
  lemma NumberRowValue(resourceAttrs: StringMap, scopeName: string, scopeVersion: string, m: Metric, p: nat)
    requires m.data.Gauge? || m.data.Sum?
    requires p < |m.data.points|
    ensures var row := RowsOfMetric(resourceAttrs, scopeName, scopeVersion, m)[p];
            var v := m.data.points[p].value;
            && (row.valueType == "int" <==> v.IntNumber?)
            && (row.valueType == "double" <==> v.DoubleNumber?)
            && (row.valueType == "" <==> v.NoNumber?)
            && (v.IntNumber? ==> row.intValue == v.i && row.doubleValue == ZeroFloat)
            && (v.DoubleNumber? ==> row.doubleValue == v.d && row.intValue == 0)
            && row.metricAttributes == FlattenAttributes(m.data.points[p].attrs)
  {
  }

  /** Histogram, exponential-histogram and summary rows store the point's
      sum as a double. */
  lemma DistributionRowValue(resourceAttrs: StringMap, scopeName: string, scopeVersion: string, m: Metric, p: nat)
    requires m.data.Histogram? || m.data.ExponentialHistogram? || m.data.Summary?
    requires p < |m.data.dists|
    ensures var row := RowsOfMetric(resourceAttrs, scopeName, scopeVersion, m)[p];
            && row.valueType == "double"
            && row.doubleValue == m.data.dists[p].sum
            && row.intValue == 0
            && row.metricAttributes == FlattenAttributes(m.data.dists[p].attrs)
  {
  }

  /** Only sum rows can be monotonic; sum, histogram and
      exponential-histogram rows name their temporality, gauge and summary
      rows leave it empty. */
  lemma MetricRowTemporality(resourceAttrs: StringMap, scopeName: string, scopeVersion: string, m: Metric, p: nat)
    requires p < PointCount(m.data)
    ensures var row := RowsOfMetric(resourceAttrs, scopeName, scopeVersion, m)[p];
            && (row.isMonotonic <==> m.data.Sum? && m.data.isMonotonic)
            && (m.data.Sum? || m.data.Histogram? || m.data.ExponentialHistogram? ==>
                  row.aggregationTemporality == TemporalityName(m.data.temporality))
            && (m.data.Gauge? || m.data.Summary? ==> row.aggregationTemporality == "")
  {
  }

  lemma {:induction false} MetricGroupsRowCount(resourceAttrs: StringMap, scopeName: string, scopeVersion: string, ms: seq<Metric>)
    ensures |Concat(MetricGroups(resourceAttrs, scopeName, scopeVersion, ms))| == MetricsPointCount(ms)
  {
    if ms != [] {
      assert MetricGroups(resourceAttrs, scopeName, scopeVersion, ms)[1..]
          == MetricGroups(resourceAttrs, scopeName, scopeVersion, ms[1..]);
      RowsOfMetricCount(resourceAttrs, scopeName, scopeVersion, ms[0]);
      MetricGroupsRowCount(resourceAttrs, scopeName, scopeVersion, ms[1..]);
    }
  }

  lemma {:induction false} ScopeMetricsRowCount(resourceAttrs: StringMap, sms: seq<ScopeMetrics>)
    ensures |Concat(ScopeMetricsGroups(resourceAttrs, sms))| == ScopeMetricsCount(sms)
  {
    if sms != [] {
      assert ScopeMetricsGroups(resourceAttrs, sms)[1..] == ScopeMetricsGroups(resourceAttrs, sms[1..]);
      MetricGroupsRowCount(resourceAttrs, sms[0].scope.name, sms[0].scope.version, sms[0].metrics);
      ScopeMetricsRowCount(resourceAttrs, sms[1..]);
    }
  }

  lemma {:induction false} ResourceMetricsRowCount(rms: seq<ResourceMetrics>)
    ensures |Concat(ResourceMetricsGroups(rms))| == ResourceMetricsCount(rms)
  {
    if rms != [] {
      assert ResourceMetricsGroups(rms)[1..] == ResourceMetricsGroups(rms[1..]);
      ScopeMetricsRowCount(FlattenAttributes(rms[0].resource.attrs), rms[0].scopeMetrics);
      ResourceMetricsRowCount(rms[1..]);
    }
  }

  /** One row per data point of a gauge, sum, histogram, exponential
      histogram or summary; metrics of any other type add none. */
  lemma MetricsRowCount(md: Metrics)
    ensures |MetricsRows(md)| == DataPointCount(md)
  {
    ResourceMetricsRowCount(md.resourceMetrics);
  }

  /** Row p of metric k sits after the rows of the metrics before it in its
      scope group. */
  lemma MetricRowInScope(resourceAttrs: StringMap, sm: ScopeMetrics, k: nat, p: nat)
    requires k < |sm.metrics| && p < PointCount(sm.metrics[k].data)
    ensures var n := MetricsPointCount(sm.metrics[..k]) + p;
            var rows := ScopeMetricsRows(resourceAttrs, sm);
            n < |rows| && rows[n] == RowsOfMetric(resourceAttrs, sm.scope.name, sm.scope.version, sm.metrics[k])[p]
  {
    var groups := MetricGroups(resourceAttrs, sm.scope.name, sm.scope.version, sm.metrics);
    assert groups[..k] == MetricGroups(resourceAttrs, sm.scope.name, sm.scope.version, sm.metrics[..k]);
    MetricGroupsRowCount(resourceAttrs, sm.scope.name, sm.scope.version, sm.metrics[..k]);
    RowsOfMetricCount(resourceAttrs, sm.scope.name, sm.scope.version, sm.metrics[k]);
    ConcatIndex(groups, k, p);
  }

  lemma ScopeMetricsGroupsPrefix(resourceAttrs: StringMap, sms: seq<ScopeMetrics>, j: nat)
    requires j <= |sms|
    ensures ScopeMetricsGroups(resourceAttrs, sms)[..j] == ScopeMetricsGroups(resourceAttrs, sms[..j])
  {
  }

  /** Row q of scope group j sits after the rows of the scope groups before
      it in its resource group. */
  lemma ScopeMetricsRowInResource(rm: ResourceMetrics, j: nat, q: nat)
    requires j < |rm.scopeMetrics|
    requires q < |ScopeMetricsRows(FlattenAttributes(rm.resource.attrs), rm.scopeMetrics[j])|
    ensures var ra := FlattenAttributes(rm.resource.attrs);
            var n := ScopeMetricsCount(rm.scopeMetrics[..j]) + q;
            n < |ResourceMetricsRows(rm)| && ResourceMetricsRows(rm)[n] == ScopeMetricsRows(ra, rm.scopeMetrics[j])[q]
  {
    var ra := FlattenAttributes(rm.resource.attrs);
    var groups := ScopeMetricsGroups(ra, rm.scopeMetrics);
    ScopeMetricsGroupsPrefix(ra, rm.scopeMetrics, j);
    ScopeMetricsRowCount(ra, rm.scopeMetrics[..j]);
    ConcatIndex(groups, j, q);
  }

  /** Row q of resource group i sits after the rows of the resource groups
      before it. */
  lemma ResourceMetricsRowInBatch(md: Metrics, i: nat, q: nat)
    requires i < |md.resourceMetrics| && q < |ResourceMetricsRows(md.resourceMetrics[i])|
    ensures var n := ResourceMetricsCount(md.resourceMetrics[..i]) + q;
            n < |MetricsRows(md)| && MetricsRows(md)[n] == ResourceMetricsRows(md.resourceMetrics[i])[q]
  {
    var groups := ResourceMetricsGroups(md.resourceMetrics);
    assert groups[..i] == ResourceMetricsGroups(md.resourceMetrics[..i]);
    ResourceMetricsRowCount(md.resourceMetrics[..i]);
    ConcatIndex(groups, i, q);
  }

  /** `row` is the row of point p of metric k of the scope group `sm`. */
  ghost predicate IsScopeMetricRowOf(resourceAttrs: StringMap, sm: ScopeMetrics, row: MetricRow, k: int, p: int)
  {
    && 0 <= k < |sm.metrics|
    && var rows := RowsOfMetric(resourceAttrs, sm.scope.name, sm.scope.version, sm.metrics[k]);
       0 <= p < |rows| && row == rows[p]
  }

  /** `row` is the row of point p of metric k of scope j of resource i. */
  ghost predicate IsMetricRowOf(md: Metrics, row: MetricRow, i: int, j: int, k: int, p: int)
  {
    && 0 <= i < |md.resourceMetrics|
    && 0 <= j < |md.resourceMetrics[i].scopeMetrics|
    && var rm := md.resourceMetrics[i];
       IsScopeMetricRowOf(FlattenAttributes(rm.resource.attrs), rm.scopeMetrics[j], row, k, p)
  }

  lemma ScopeMetricsRowOrigin(resourceAttrs: StringMap, sm: ScopeMetrics, row: MetricRow)
    requires row in ScopeMetricsRows(resourceAttrs, sm)
    ensures exists k, p :: IsScopeMetricRowOf(resourceAttrs, sm, row, k, p)
  {
    var groups := MetricGroups(resourceAttrs, sm.scope.name, sm.scope.version, sm.metrics);
    ConcatMember(groups, row);
    var k, p :| 0 <= k < |groups| && 0 <= p < |groups[k]| && groups[k][p] == row;
    assert IsScopeMetricRowOf(resourceAttrs, sm, row, k, p);
  }

  lemma ResourceMetricsRowOrigin(rm: ResourceMetrics, row: MetricRow)
    requires row in ResourceMetricsRows(rm)
    ensures exists j, k, p :: 0 <= j < |rm.scopeMetrics|
                             && IsScopeMetricRowOf(FlattenAttributes(rm.resource.attrs), rm.scopeMetrics[j], row, k, p)
  {
    var ra := FlattenAttributes(rm.resource.attrs);
    var groups := ScopeMetricsGroups(ra, rm.scopeMetrics);
    ConcatMember(groups, row);
    var j, b :| 0 <= j < |groups| && 0 <= b < |groups[j]| && groups[j][b] == row;
    ScopeMetricsRowOrigin(ra, rm.scopeMetrics[j], row);
  }

  /** Each metric row is the row of some data point of the batch. */
  lemma MetricRowOrigin(md: Metrics, row: MetricRow)
    requires row in MetricsRows(md)
    ensures exists i, j, k, p :: IsMetricRowOf(md, row, i, j, k, p)
  {
    var groups := ResourceMetricsGroups(md.resourceMetrics);
    ConcatMember(groups, row);
    var i, a :| 0 <= i < |groups| && 0 <= a < |groups[i]| && groups[i][a] == row;
    var rm := md.resourceMetrics[i];
    ResourceMetricsRowOrigin(rm, row);
    var j, k, p :| 0 <= j < |rm.scopeMetrics|
                   && IsScopeMetricRowOf(FlattenAttributes(rm.resource.attrs), rm.scopeMetrics[j], row, k, p);
    assert IsMetricRowOf(md, row, i, j, k, p);
  }

  /** A batch without data points (no metrics, or only metrics of no known
      type) marshals to an empty payload. */
  lemma MetricsWithoutPointsMarshalEmpty(md: Metrics, encode: seq<MetricRow> -> EncodeOutcome)
    requires DataPointCount(md) == 0
    ensures MarshalToParquet(MetricsRows(md), encode) == Success([])
  {
    MetricsRowCount(md);
  }
}

/** The lookup functions a blob name template may call (`tempFuncs`), and a
    small template language made of literal text and calls to them, enough
    to state when executing a template fails.

    Each lookup guards only the emptiness of the collections it walks: an
    index into a non-empty collection that is out of range makes the
    collection's `At` panic, which the template engine turns into an
    execution error. */
module TemplateFuncs {
  import opened Wrappers
  import opened GoTypes
  import opened Pdata

  /** The `any` a lookup returns: `nil`, the raw value of an attribute, an
      element of the batch, or the zero value of an element type. */
  datatype TemplateValue =
    | Nil
    | Raw(value: AnyValue)
    | MetricValue(metric: Metric)
    | SpanValue(span: Span)
    | LogRecordValue(logRecord: LogRecord)
    | ZeroMetric
    | ZeroSpan
    | ZeroLogRecord

  /** A call either returns a value or fails; a failure aborts the template. */
  datatype CallResult = Returned(value: TemplateValue) | CallFailed(reason: string)

  /** The panic of a pdata slice's `At` with an index outside the slice. */
  const IndexPanic: CallResult := CallFailed("index out of range")

  /** `index` addresses an element of a collection of `n` elements. */
  predicate InRange(index: int, n: nat)
  {
    0 <= index < n
  }

  /** `pcommon.Map.Get`: the value of the first pair with `key`. */
  function GetAttr(attrs: AttrMap, key: string): (r: Option<AnyValue>)
    ensures r.Some? <==> key in KeysOf(attrs)
    ensures r.Some? ==> exists i :: FirstWithKey(attrs, key, i) && attrs[i].value == r.value
  {
    if attrs == [] then None
    else if attrs[0].key == key then
      assert FirstWithKey(attrs, key, 0);
      Some(attrs[0].value)
    else
      var rest := GetAttr(attrs[1..], key);
      if rest.Some? then
        assert exists i :: FirstWithKey(attrs, key, i) && attrs[i].value == rest.value by {
          var i :| FirstWithKey(attrs[1..], key, i) && attrs[1..][i].value == rest.value;
          assert FirstWithKey(attrs, key, i + 1);
        }
        rest
      else
        rest
  }

  /** Pair i is the first pair with `key`. */
  ghost predicate FirstWithKey(attrs: AttrMap, key: string, i: int)
  {
    && 0 <= i < |attrs|
    && attrs[i].key == key
    && forall j :: 0 <= j < i ==> attrs[j].key != key
  }

  /** `getAttrStandalone`: the raw value of the attribute, `nil` when absent. */
  function AttrValue(attrs: AttrMap, key: string): (v: TemplateValue)
    ensures v.Nil? <==> key !in KeysOf(attrs)
    ensures v.Raw? ==> GetAttr(attrs, key) == Some(v.value)
  {
    match GetAttr(attrs, key)
    case Some(value) => Raw(value)
    case None => Nil
  }

  // ----- resource attribute lookups -----

  /** `getResourceSpanAttr`. */
  function GetResourceSpanAttr(td: Traces, rmIndex: int, key: string): (r: CallResult)
    ensures |td.resourceSpans| == 0 ==> r == Returned(Nil)
    ensures InRange(rmIndex, |td.resourceSpans|) ==>
              r == Returned(AttrValue(td.resourceSpans[rmIndex].resource.attrs, key))
    ensures r.CallFailed? <==> |td.resourceSpans| > 0 && !InRange(rmIndex, |td.resourceSpans|)
  {
    var rss := td.resourceSpans;
    if |rss| > 0 then
      if InRange(rmIndex, |rss|) then Returned(AttrValue(rss[rmIndex].resource.attrs, key)) else IndexPanic
    else
      Returned(Nil)
  }

  /** `getResourceMetricAttr`. */
  function GetResourceMetricAttr(md: Metrics, rmIndex: int, key: string): (r: CallResult)
    ensures |md.resourceMetrics| == 0 ==> r == Returned(Nil)
    ensures InRange(rmIndex, |md.resourceMetrics|) ==>
              r == Returned(AttrValue(md.resourceMetrics[rmIndex].resource.attrs, key))
    ensures r.CallFailed? <==> |md.resourceMetrics| > 0 && !InRange(rmIndex, |md.resourceMetrics|)
  {
    var rms := md.resourceMetrics;
    if |rms| > 0 then
      if InRange(rmIndex, |rms|) then Returned(AttrValue(rms[rmIndex].resource.attrs, key)) else IndexPanic
    else
      Returned(Nil)
  }

  /** `getResourceLogAttr`. */
  function GetResourceLogAttr(ld: Logs, rlIndex: int, key: string): (r: CallResult)
    ensures |ld.resourceLogs| == 0 ==> r == Returned(Nil)
    ensures InRange(rlIndex, |ld.resourceLogs|) ==>
              r == Returned(AttrValue(ld.resourceLogs[rlIndex].resource.attrs, key))
    ensures r.CallFailed? <==> |ld.resourceLogs| > 0 && !InRange(rlIndex, |ld.resourceLogs|)
  {
    var rls := ld.resourceLogs;
    if |rls| > 0 then
      if InRange(rlIndex, |rls|) then Returned(AttrValue(rls[rlIndex].resource.attrs, key)) else IndexPanic
    else
      Returned(Nil)
  }

  // ----- scope attribute lookups -----

  /** Both indices address a scope group of the traces. */
  predicate ScopeSpansPath(td: Traces, rmIndex: int, ilsIndex: int)
  {
    InRange(rmIndex, |td.resourceSpans|) && InRange(ilsIndex, |td.resourceSpans[rmIndex].scopeSpans|)
  }

  /** Where the lookup panics: a non-empty level indexed outside its
      bounds (an empty level is guarded and never indexed). */
  predicate ScopeSpansFault(td: Traces, rmIndex: int, ilsIndex: int)
  {
    |td.resourceSpans| > 0
    && (!InRange(rmIndex, |td.resourceSpans|)
        || (|td.resourceSpans[rmIndex].scopeSpans| > 0 && !InRange(ilsIndex, |td.resourceSpans[rmIndex].scopeSpans|)))
  }

  /** `getScopeSpanAttr`. */
  function GetScopeSpanAttr(td: Traces, rmIndex: int, ilsIndex: int, key: string): (r: CallResult)
    ensures |td.resourceSpans| == 0 ==> r == Returned(Nil)
    ensures ScopeSpansPath(td, rmIndex, ilsIndex) ==>
              r == Returned(AttrValue(td.resourceSpans[rmIndex].scopeSpans[ilsIndex].scope.attrs, key))
    ensures r.CallFailed? ==> !ScopeSpansPath(td, rmIndex, ilsIndex)
    ensures r.CallFailed? <==> ScopeSpansFault(td, rmIndex, ilsIndex)
    ensures r.Returned? && !ScopeSpansPath(td, rmIndex, ilsIndex) ==> r == Returned(Nil)
    ensures r == Returned(Nil) && !ScopeSpansPath(td, rmIndex, ilsIndex) ==>
              |td.resourceSpans| == 0 || (InRange(rmIndex, |td.resourceSpans|) && |td.resourceSpans[rmIndex].scopeSpans| == 0)
  {
    var rss := td.resourceSpans;
    if |rss| > 0 then
      if !InRange(rmIndex, |rss|) then IndexPanic
      else if |rss[rmIndex].scopeSpans| > 0 then
        var sss := rss[rmIndex].scopeSpans;
        if InRange(ilsIndex, |sss|) then Returned(AttrValue(sss[ilsIndex].scope.attrs, key)) else IndexPanic
      else
        Returned(Nil)
    else
      Returned(Nil)
  }

  /** Both indices address a scope group of the metrics. */
  predicate ScopeMetricsPath(md: Metrics, rmIndex: int, ilmIndex: int)
  {
    InRange(rmIndex, |md.resourceMetrics|) && InRange(ilmIndex, |md.resourceMetrics[rmIndex].scopeMetrics|)
  }

  /** Where the lookup panics: a non-empty level indexed outside its
      bounds (an empty level is guarded and never indexed). */
  predicate ScopeMetricsFault(md: Metrics, rmIndex: int, ilmIndex: int)
  {
    |md.resourceMetrics| > 0
    && (!InRange(rmIndex, |md.resourceMetrics|)
        || (|md.resourceMetrics[rmIndex].scopeMetrics| > 0 && !InRange(ilmIndex, |md.resourceMetrics[rmIndex].scopeMetrics|)))
  }

  /** `getScopeMetricAttr`. */
  function GetScopeMetricAttr(md: Metrics, rmIndex: int, ilmIndex: int, key: string): (r: CallResult)
    ensures |md.resourceMetrics| == 0 ==> r == Returned(Nil)
    ensures ScopeMetricsPath(md, rmIndex, ilmIndex) ==>
              r == Returned(AttrValue(md.resourceMetrics[rmIndex].scopeMetrics[ilmIndex].scope.attrs, key))
    ensures r.CallFailed? ==> !ScopeMetricsPath(md, rmIndex, ilmIndex)
    ensures r.CallFailed? <==> ScopeMetricsFault(md, rmIndex, ilmIndex)
    ensures r.Returned? && !ScopeMetricsPath(md, rmIndex, ilmIndex) ==> r == Returned(Nil)
    ensures r == Returned(Nil) && !ScopeMetricsPath(md, rmIndex, ilmIndex) ==>
              |md.resourceMetrics| == 0 || (InRange(rmIndex, |md.resourceMetrics|) && |md.resourceMetrics[rmIndex].scopeMetrics| == 0)
  {
    var rms := md.resourceMetrics;
    if |rms| > 0 then
      if !InRange(rmIndex, |rms|) then IndexPanic
      else if |rms[rmIndex].scopeMetrics| > 0 then
        var sms := rms[rmIndex].scopeMetrics;
        if InRange(ilmIndex, |sms|) then Returned(AttrValue(sms[ilmIndex].scope.attrs, key)) else IndexPanic
      else
        Returned(Nil)
    else
      Returned(Nil)
  }

  /** Both indices address a scope group of the logs. */
  predicate ScopeLogsPath(ld: Logs, rlIndex: int, ilsIndex: int)
  {
    InRange(rlIndex, |ld.resourceLogs|) && InRange(ilsIndex, |ld.resourceLogs[rlIndex].scopeLogs|)
  }

  /** Where the lookup panics: a non-empty level indexed outside its
      bounds (an empty level is guarded and never indexed). */
  predicate ScopeLogsFault(ld: Logs, rlIndex: int, ilsIndex: int)
  {
    |ld.resourceLogs| > 0
    && (!InRange(rlIndex, |ld.resourceLogs|)
        || (|ld.resourceLogs[rlIndex].scopeLogs| > 0 && !InRange(ilsIndex, |ld.resourceLogs[rlIndex].scopeLogs|)))
  }

  /** `getScopeLogAttr`. */
  function GetScopeLogAttr(ld: Logs, rlIndex: int, ilsIndex: int, key: string): (r: CallResult)
    ensures |ld.resourceLogs| == 0 ==> r == Returned(Nil)
    ensures ScopeLogsPath(ld, rlIndex, ilsIndex) ==>
              r == Returned(AttrValue(ld.resourceLogs[rlIndex].scopeLogs[ilsIndex].scope.attrs, key))
    ensures r.CallFailed? ==> !ScopeLogsPath(ld, rlIndex, ilsIndex)
    ensures r.CallFailed? <==> ScopeLogsFault(ld, rlIndex, ilsIndex)
    ensures r.Returned? && !ScopeLogsPath(ld, rlIndex, ilsIndex) ==> r == Returned(Nil)
    ensures r == Returned(Nil) && !ScopeLogsPath(ld, rlIndex, ilsIndex) ==>
              |ld.resourceLogs| == 0 || (InRange(rlIndex, |ld.resourceLogs|) && |ld.resourceLogs[rlIndex].scopeLogs| == 0)
  {
    var rls := ld.resourceLogs;
    if |rls| > 0 then
      if !InRange(rlIndex, |rls|) then IndexPanic
      else if |rls[rlIndex].scopeLogs| > 0 then
        var sls := rls[rlIndex].scopeLogs;
        if InRange(ilsIndex, |sls|) then Returned(AttrValue(sls[ilsIndex].scope.attrs, key)) else IndexPanic
      else
        Returned(Nil)
    else
      Returned(Nil)
  }

  // ----- element lookups -----

  /** The three indices address a metric of the batch. */
  predicate MetricPath(md: Metrics, rmIndex: int, ilmIndex: int, metricIndex: int)
  {
    ScopeMetricsPath(md, rmIndex, ilmIndex)
    && InRange(metricIndex, |md.resourceMetrics[rmIndex].scopeMetrics[ilmIndex].metrics|)
  }

  /** Where the lookup panics: on the way to the scope as for the scope
      lookups, or a non-empty element list indexed outside its bounds. */
  predicate MetricFault(md: Metrics, rmIndex: int, ilmIndex: int, metricIndex: int)
  {
    ScopeMetricsFault(md, rmIndex, ilmIndex)
    || (ScopeMetricsPath(md, rmIndex, ilmIndex)
        && |md.resourceMetrics[rmIndex].scopeMetrics[ilmIndex].metrics| > 0
        && !InRange(metricIndex, |md.resourceMetrics[rmIndex].scopeMetrics[ilmIndex].metrics|))
  }

  /** `getMetric`: the addressed metric, the zero metric when a collection on
      the way is empty. */
  function GetMetric(md: Metrics, rmIndex: int, ilmIndex: int, metricIndex: int): (r: CallResult)
    ensures |md.resourceMetrics| == 0 ==> r == Returned(ZeroMetric)
    ensures MetricPath(md, rmIndex, ilmIndex, metricIndex) ==>
              r == Returned(MetricValue(md.resourceMetrics[rmIndex].scopeMetrics[ilmIndex].metrics[metricIndex]))
    ensures r.CallFailed? ==> !MetricPath(md, rmIndex, ilmIndex, metricIndex)
    ensures r.CallFailed? <==> MetricFault(md, rmIndex, ilmIndex, metricIndex)
    ensures r.Returned? && !MetricPath(md, rmIndex, ilmIndex, metricIndex) ==> r == Returned(ZeroMetric)
    ensures r.Returned? ==> r.value.MetricValue? || r.value.ZeroMetric?
  {
    var rms := md.resourceMetrics;
    if |rms| > 0 then
      if !InRange(rmIndex, |rms|) then IndexPanic
      else if |rms[rmIndex].scopeMetrics| > 0 then
        var sms := rms[rmIndex].scopeMetrics;
        if !InRange(ilmIndex, |sms|) then IndexPanic
        else if |sms[ilmIndex].metrics| > 0 then
          var ms := sms[ilmIndex].metrics;
          if InRange(metricIndex, |ms|) then Returned(MetricValue(ms[metricIndex])) else IndexPanic
        else
          Returned(ZeroMetric)
      else
        Returned(ZeroMetric)
    else
      Returned(ZeroMetric)
  }

  /** The three indices address a span of the batch. */
  predicate SpanPath(td: Traces, rmIndex: int, ilsIndex: int, spanIndex: int)
  {
    ScopeSpansPath(td, rmIndex, ilsIndex)
    && InRange(spanIndex, |td.resourceSpans[rmIndex].scopeSpans[ilsIndex].spans|)
  }

  /** Where the lookup panics: on the way to the scope as for the scope
      lookups, or a non-empty element list indexed outside its bounds. */
  predicate SpanFault(td: Traces, rmIndex: int, ilsIndex: int, spanIndex: int)
  {
    ScopeSpansFault(td, rmIndex, ilsIndex)
    || (ScopeSpansPath(td, rmIndex, ilsIndex)
        && |td.resourceSpans[rmIndex].scopeSpans[ilsIndex].spans| > 0
        && !InRange(spanIndex, |td.resourceSpans[rmIndex].scopeSpans[ilsIndex].spans|))
  }

  /** `getSpan`: the addressed span, the zero span when a collection on the
      way is empty. */
  function GetSpan(td: Traces, rmIndex: int, ilsIndex: int, spanIndex: int): (r: CallResult)
    ensures |td.resourceSpans| == 0 ==> r == Returned(ZeroSpan)
    ensures SpanPath(td, rmIndex, ilsIndex, spanIndex) ==>
              r == Returned(SpanValue(td.resourceSpans[rmIndex].scopeSpans[ilsIndex].spans[spanIndex]))
    ensures r.CallFailed? ==> !SpanPath(td, rmIndex, ilsIndex, spanIndex)
    ensures r.CallFailed? <==> SpanFault(td, rmIndex, ilsIndex, spanIndex)
    ensures r.Returned? && !SpanPath(td, rmIndex, ilsIndex, spanIndex) ==> r == Returned(ZeroSpan)
    ensures r.Returned? ==> r.value.SpanValue? || r.value.ZeroSpan?
  {
    var rss := td.resourceSpans;
    if |rss| > 0 then
      if !InRange(rmIndex, |rss|) then IndexPanic
      else if |rss[rmIndex].scopeSpans| > 0 then
        var sss := rss[rmIndex].scopeSpans;
        if !InRange(ilsIndex, |sss|) then IndexPanic
        else if |sss[ilsIndex].spans| > 0 then
          var spans := sss[ilsIndex].spans;
          if InRange(spanIndex, |spans|) then Returned(SpanValue(spans[spanIndex])) else IndexPanic
        else
          Returned(ZeroSpan)
      else
        Returned(ZeroSpan)
    else
      Returned(ZeroSpan)
  }

  /** The three indices address a log record of the batch. */
  predicate LogRecordPath(ld: Logs, rlIndex: int, ilsIndex: int, logIndex: int)
  {
    ScopeLogsPath(ld, rlIndex, ilsIndex)
    && InRange(logIndex, |ld.resourceLogs[rlIndex].scopeLogs[ilsIndex].logRecords|)
  }

  /** Where the lookup panics: on the way to the scope as for the scope
      lookups, or a non-empty element list indexed outside its bounds. */
  predicate LogRecordFault(ld: Logs, rlIndex: int, ilsIndex: int, logIndex: int)
  {
    ScopeLogsFault(ld, rlIndex, ilsIndex)
    || (ScopeLogsPath(ld, rlIndex, ilsIndex)
        && |ld.resourceLogs[rlIndex].scopeLogs[ilsIndex].logRecords| > 0
        && !InRange(logIndex, |ld.resourceLogs[rlIndex].scopeLogs[ilsIndex].logRecords|))
  }

  /** `getLogRecord`: the addressed record, the zero record when a collection
      on the way is empty. */
  function GetLogRecord(ld: Logs, rlIndex: int, ilsIndex: int, logIndex: int): (r: CallResult)
    ensures |ld.resourceLogs| == 0 ==> r == Returned(ZeroLogRecord)
    ensures LogRecordPath(ld, rlIndex, ilsIndex, logIndex) ==>
              r == Returned(LogRecordValue(ld.resourceLogs[rlIndex].scopeLogs[ilsIndex].logRecords[logIndex]))
    ensures r.CallFailed? ==> !LogRecordPath(ld, rlIndex, ilsIndex, logIndex)
    ensures r.CallFailed? <==> LogRecordFault(ld, rlIndex, ilsIndex, logIndex)
    ensures r.Returned? && !LogRecordPath(ld, rlIndex, ilsIndex, logIndex) ==> r == Returned(ZeroLogRecord)
    ensures r.Returned? ==> r.value.LogRecordValue? || r.value.ZeroLogRecord?
  {
    var rls := ld.resourceLogs;
    if |rls| > 0 then
      if !InRange(rlIndex, |rls|) then IndexPanic
      else if |rls[rlIndex].scopeLogs| > 0 then
        var sls := rls[rlIndex].scopeLogs;
        if !InRange(ilsIndex, |sls|) then IndexPanic
        else if |sls[ilsIndex].logRecords| > 0 then
          var lrs := sls[ilsIndex].logRecords;
          if InRange(logIndex, |lrs|) then Returned(LogRecordValue(lrs[logIndex])) else IndexPanic
        else
          Returned(ZeroLogRecord)
      else
        Returned(ZeroLogRecord)
    else
      Returned(ZeroLogRecord)
  }

  /** The lookups guard emptiness only: with a single resource group, asking
      for the second one fails instead of returning `nil`. */
  lemma ResourceIndexPastEndFails(td: Traces, key: string)
    requires |td.resourceSpans| == 1
    ensures GetResourceSpanAttr(td, 1, key) == IndexPanic
    ensures GetResourceSpanAttr(td, -1, key) == IndexPanic
  {
  }

  // ----- templates -----

  /** A call of one of the lookups with the template's data (`.`) as its
      first argument. */
  datatype FuncCall =
    | ResourceSpanAttr(rmIndex: int, key: string)
    | ResourceMetricAttr(rmIndex: int, key: string)
    | ResourceLogAttr(rlIndex: int, key: string)
    | ScopeSpanAttr(rmIndex: int, ilsIndex: int, key: string)
    | ScopeMetricAttr(rmIndex: int, ilmIndex: int, key: string)
    | ScopeLogAttr(rlIndex: int, ilsIndex: int, key: string)
    | MetricAt(rmIndex: int, ilmIndex: int, metricIndex: int)
    | SpanAt(rmIndex: int, ilsIndex: int, spanIndex: int)
    | LogRecordAt(rlIndex: int, ilsIndex: int, logIndex: int)

  /** The template engine refuses a batch of the wrong kind for a lookup's
      first parameter. */
  const WrongType: CallResult := CallFailed("wrong type for value")

  /** Calling a lookup on the batch the template is executed with. */
  function Apply(call: FuncCall, data: Telemetry): (r: CallResult)
    ensures call.ResourceSpanAttr? || call.ScopeSpanAttr? || call.SpanAt? ==> (r == WrongType <==> !data.TracesData?)
    ensures call.ResourceMetricAttr? || call.ScopeMetricAttr? || call.MetricAt? ==> (r == WrongType <==> !data.MetricsData?)
    ensures call.ResourceLogAttr? || call.ScopeLogAttr? || call.LogRecordAt? ==> (r == WrongType <==> !data.LogsData?)
  {
    match call
    case ResourceSpanAttr(i, key) =>
      if data.TracesData? then GetResourceSpanAttr(data.traces, i, key) else WrongType
    case ResourceMetricAttr(i, key) =>
      if data.MetricsData? then GetResourceMetricAttr(data.metrics, i, key) else WrongType
    case ResourceLogAttr(i, key) =>
      if data.LogsData? then GetResourceLogAttr(data.logs, i, key) else WrongType
    case ScopeSpanAttr(i, j, key) =>
      if data.TracesData? then GetScopeSpanAttr(data.traces, i, j, key) else WrongType
    case ScopeMetricAttr(i, j, key) =>
      if data.MetricsData? then GetScopeMetricAttr(data.metrics, i, j, key) else WrongType
    case ScopeLogAttr(i, j, key) =>
      if data.LogsData? then GetScopeLogAttr(data.logs, i, j, key) else WrongType
    case MetricAt(i, j, k) =>
      if data.MetricsData? then GetMetric(data.metrics, i, j, k) else WrongType
    case SpanAt(i, j, k) =>
      if data.TracesData? then GetSpan(data.traces, i, j, k) else WrongType
    case LogRecordAt(i, j, k) =>
      if data.LogsData? then GetLogRecord(data.logs, i, j, k) else WrongType
  }

  /** A parsed template: literal text and lookup actions, in order. */
  datatype Part = Text(text: string) | Action(call: FuncCall)

  type Template = seq<Part>

  /** Part i is an action whose call fails on `data`. */
  predicate FailsAt(t: Template, data: Telemetry, i: int)
  {
    0 <= i < |t| && t[i].Action? && Apply(t[i].call, data).CallFailed?
  }

  /** `Template.Execute`: the text of the parts in order, each action
      printed by `render`; the first failing call aborts the execution and
      its partial output is discarded by the exporter. */
  function Execute(t: Template, data: Telemetry, render: TemplateValue -> string): (r: Option<string>)
    ensures r.None? <==> exists i :: FailsAt(t, data, i)
  {
    if t == [] then Some("")
    else
      var head: Option<string> :=
        match t[0]
        case Text(s) => Some(s)
        case Action(call) =>
          (match Apply(call, data)
           case Returned(v) => Some(render(v))
           case CallFailed(_) => None);
      var rest := Execute(t[1..], data, render);
      if head.None? then
        assert FailsAt(t, data, 0);
        None
      else if rest.None? then
        assert exists i :: FailsAt(t, data, i) by {
          var i :| FailsAt(t[1..], data, i);
          assert FailsAt(t, data, i + 1);
        }
        None
      else
        assert forall i :: FailsAt(t, data, i) ==> i == 0 || FailsAt(t[1..], data, i - 1);
        Some(head.value + rest.value)
  }

  /** The text of a template made only of literal parts. */
  function LiteralText(t: Template): string
  {
    if t == [] then "" else (if t[0].Text? then t[0].text else "") + LiteralText(t[1..])
  }

  /** A template without actions renders its literal text, whatever the
      batch. */
  lemma {:induction false} LiteralTemplateRenders(t: Template, data: Telemetry, render: TemplateValue -> string)
    requires forall i :: 0 <= i < |t| ==> t[i].Text?
    ensures Execute(t, data, render) == Some(LiteralText(t))
  {
    if t != [] {
      LiteralTemplateRenders(t[1..], data, render);
    }
  }

  /** A template that reads a resource group past the end of a non-empty
      trace batch fails to execute. */
  lemma OutOfRangeResourceFails(t: Template, td: Traces, render: TemplateValue -> string, i: nat, rmIndex: int, key: string)
    requires i < |t| && t[i] == Action(ResourceSpanAttr(rmIndex, key))
    requires |td.resourceSpans| > 0 && !InRange(rmIndex, |td.resourceSpans|)
    ensures Execute(t, TracesData(td), render).None?
  {
    assert FailsAt(t, TracesData(td), i);
  }
}

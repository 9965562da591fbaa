/** The trust gateway processor: a batch passes when the attributes of its
    first resource carry every required header and, when API keys are
    configured, an `X-API-Key` string among them; a batch that fails is
    replaced by an empty one. The receiver is expected to have copied the
    request headers into those resource attributes. */
module TrustGateway {
  import opened Wrappers
  import opened Pdata

  /** The processor's configuration. */
  datatype ProcessorConfig = ProcessorConfig(requiredHeaders: seq<string>, validApiKeys: seq<string>)

  /** `createDefaultConfig`: one required header, no API keys. */
  const DefaultConfig := ProcessorConfig(["X-App-Token"], [])

  const ApiKeyHeader := "X-API-Key"

  /** The `interface{}` `validateTelemetry` receives: one of the three
      resource slices, or anything else. */
  datatype Resources =
    | ResourceSpansSlice(resourceSpans: seq<ResourceSpans>)
    | ResourceMetricsSlice(resourceMetrics: seq<ResourceMetrics>)
    | ResourceLogsSlice(resourceLogs: seq<ResourceLogs>)
    | OtherResources

  /** The `interface{}` `extractAttributes` receives: a `pcommon.Map`, whose
      `Range` callback takes a `pcommon.Value`, or a value whose `Range`
      callback takes `interface{}` values, the only kind the type assertion
      accepts. */
  datatype AttrArgument = PcommonMap(attrs: AttrMap) | AnyValueRanger(attrs: AttrMap)

  // ----- attribute maps -----

  /** The map ranging over `attrs` builds: each key with the value of its
      last pair. */
  function RawAttributes(attrs: AttrMap): (m: map<string, AnyValue>)
    ensures m.Keys == KeysOf(attrs)
    ensures forall i :: 0 <= i < |attrs| && LastWithKey(attrs, i) ==> m[attrs[i].key] == attrs[i].value
  {
    if attrs == [] then map[]
    else
      var init := attrs[..|attrs| - 1];
      var last := attrs[|attrs| - 1];
      assert attrs == init + [last];
      var before := RawAttributes(init);
      StoreLast(init, last, before);
      before[last.key := last.value]
  }

  /** Storing one more pair keeps the map in step with the pairs: its keys
      are all the keys, and each key holds the value of its last pair. */
  lemma StoreLast(init: AttrMap, last: KeyValue, before: map<string, AnyValue>)
    requires before.Keys == KeysOf(init)
    requires forall i :: 0 <= i < |init| && LastWithKey(init, i) ==> before[init[i].key] == init[i].value
    ensures var after := before[last.key := last.value];
            && after.Keys == KeysOf(init + [last])
            && forall i :: 0 <= i < |init + [last]| && LastWithKey(init + [last], i) ==>
                 after[(init + [last])[i].key] == (init + [last])[i].value
  {
    var attrs := init + [last];
    var after := before[last.key := last.value];
    assert KeysOf(attrs) == KeysOf(init) + {last.key} by {
      forall k | k in KeysOf(attrs) ensures k in KeysOf(init) + {last.key} {
        var kv :| kv in attrs && kv.key == k;
        if kv != last {
          assert kv in init;
        }
      }
    }
    forall i | 0 <= i < |attrs| && LastWithKey(attrs, i)
      ensures after[attrs[i].key] == attrs[i].value
    {
      if i < |init| {
        assert attrs[|init|].key != attrs[i].key;
        assert LastWithKey(init, i) by {
          forall j | i < j < |init| ensures init[j].key != init[i].key {
            assert attrs[j] == init[j];
          }
        }
      }
    }
  }

  /** A map with no attributes: what `extractAttributes` returns for a
      `pcommon.Map`. */
  function NoAttributes(attrs: AttrMap): map<string, AnyValue>
  {
    map[]
  }

  /** The range loop: every pair stored in order, later pairs overwriting
      earlier ones. */
  method CollectAttributes(attrs: AttrMap) returns (result: map<string, AnyValue>)
    ensures result == RawAttributes(attrs)
  {
    result := map[];
    var i := 0;
    while i < |attrs|
      invariant 0 <= i <= |attrs|
      invariant result == RawAttributes(attrs[..i])
    {
      assert attrs[..i + 1][..i] == attrs[..i];
      result := result[attrs[i].key := attrs[i].value];
      i := i + 1;
    }
    assert attrs[..i] == attrs;
  }

  /** `extractAttributes` as written: the type assertion fails for a
      `pcommon.Map`, so the result is empty. */
  method ExtractAttributes(arg: AttrArgument) returns (result: map<string, AnyValue>)
    ensures arg.PcommonMap? ==> result == map[]
    ensures arg.AnyValueRanger? ==> result == RawAttributes(arg.attrs)
  {
    result := map[];
    if arg.AnyValueRanger? {
      result := CollectAttributes(arg.attrs);
    }
  }

  // ----- the attribute check -----

  /** The index of the first header of the list missing from `present`. */
  function FirstMissing(headers: seq<string>, present: set<string>): (r: Option<nat>)
    ensures r.None? <==> forall h :: h in headers ==> h in present
    ensures r.Some? ==> r.value < |headers| && headers[r.value] !in present
    ensures r.Some? ==> forall j :: 0 <= j < r.value ==> headers[j] in present
  {
    if headers == [] then None
    else if headers[0] !in present then Some(0)
    else
      match FirstMissing(headers[1..], present)
      case None =>
        assert forall h :: h in headers ==> h == headers[0] || h in headers[1..];
        None
      case Some(k) => Some(k + 1)
  }

  /** The two checks on the extracted attributes: required headers in list
      order, then the API key. */
  function AttributeCheck(cfg: ProcessorConfig, attrs: map<string, AnyValue>): Option<string>
  {
    match FirstMissing(cfg.requiredHeaders, attrs.Keys)
    case Some(k) => Some("missing required header: " + cfg.requiredHeaders[k])
    case None =>
      if |cfg.validApiKeys| > 0 then
        if ApiKeyHeader !in attrs then Some("missing X-API-Key header")
        else if !attrs[ApiKeyHeader].Str? then Some("X-API-Key must be a string")
        else if attrs[ApiKeyHeader].s !in cfg.validApiKeys then Some("invalid API key")
        else None
      else None
  }

  /** The attributes pass exactly when every required header is present
      and, with API keys configured, the key is a string in the list. */
  lemma AttributeCheckPassesIff(cfg: ProcessorConfig, attrs: map<string, AnyValue>)
    ensures AttributeCheck(cfg, attrs) == None <==>
              && (forall h :: h in cfg.requiredHeaders ==> h in attrs)
              && (|cfg.validApiKeys| > 0 ==>
                    ApiKeyHeader in attrs && attrs[ApiKeyHeader].Str? && attrs[ApiKeyHeader].s in cfg.validApiKeys)
  {
  }

  /** A missing header is reported before anything about the API key, and
      it is the first missing one in list order. */
  lemma FirstMissingHeaderReported(cfg: ProcessorConfig, attrs: map<string, AnyValue>, i: nat)
    requires i < |cfg.requiredHeaders| && cfg.requiredHeaders[i] !in attrs
    requires forall j :: 0 <= j < i ==> cfg.requiredHeaders[j] in attrs
    ensures AttributeCheck(cfg, attrs) == Some("missing required header: " + cfg.requiredHeaders[i])
  {
    FirstMissingAt(cfg.requiredHeaders, attrs.Keys, i);
  }

  /** A missing header preceded only by present ones is the first missing. */
  lemma {:induction false} FirstMissingAt(headers: seq<string>, present: set<string>, i: nat)
    requires i < |headers| && headers[i] !in present
    requires forall j :: 0 <= j < i ==> headers[j] in present
    ensures FirstMissing(headers, present) == Some(i)
  {
    if i > 0 {
      assert headers[0] in present;
      assert forall j :: 0 <= j < i - 1 ==> headers[1..][j] == headers[j + 1];
      FirstMissingAt(headers[1..], present, i - 1);
    }
  }

  /** The header loop and the API key loop of `validateTelemetry`. */
  method CheckAttributes(cfg: ProcessorConfig, attrs: map<string, AnyValue>) returns (err: Option<string>)
    ensures err == AttributeCheck(cfg, attrs)
  {
    var i := 0;
    while i < |cfg.requiredHeaders|
      invariant 0 <= i <= |cfg.requiredHeaders|
      invariant forall j :: 0 <= j < i ==> cfg.requiredHeaders[j] in attrs
    {
      var header := cfg.requiredHeaders[i];
      if header !in attrs {
        FirstMissingHeaderReported(cfg, attrs, i);
        return Some("missing required header: " + header);
      }
      i := i + 1;
    }
    assert FirstMissing(cfg.requiredHeaders, attrs.Keys).None?;

    if |cfg.validApiKeys| > 0 {
      if ApiKeyHeader !in attrs {
        return Some("missing X-API-Key header");
      }
      var apiKey := attrs[ApiKeyHeader];
      if !apiKey.Str? {
        return Some("X-API-Key must be a string");
      }
      var valid := false;
      var k := 0;
      while k < |cfg.validApiKeys|
        invariant 0 <= k <= |cfg.validApiKeys|
        invariant valid <==> apiKey.s in cfg.validApiKeys[..k]
      {
        if apiKey.s == cfg.validApiKeys[k] {
          valid := true;
          break;
        }
        k := k + 1;
      }
      assert !valid ==> cfg.validApiKeys[..k] == cfg.validApiKeys;
      if !valid {
        return Some("invalid API key");
      }
    }
    return None;
  }

  // ----- validateTelemetry -----

  /** No rule configured. */
  predicate NoRules(cfg: ProcessorConfig)
  {
    |cfg.requiredHeaders| == 0 && |cfg.validApiKeys| == 0
  }

  /** `validateTelemetry` with `attrsOf` standing for the attribute
      extraction: only the first resource's attributes are consulted. */
  function Validation(cfg: ProcessorConfig, resources: Resources, attrsOf: AttrMap -> map<string, AnyValue>): Option<string>
  {
    if NoRules(cfg) then None
    else
      match resources
      case ResourceSpansSlice(rss) =>
        if |rss| == 0 then Some("no resource spans found") else AttributeCheck(cfg, attrsOf(rss[0].resource.attrs))
      case ResourceMetricsSlice(rms) =>
        if |rms| == 0 then Some("no resource metrics found") else AttributeCheck(cfg, attrsOf(rms[0].resource.attrs))
      case ResourceLogsSlice(rls) =>
        if |rls| == 0 then Some("no resource logs found") else AttributeCheck(cfg, attrsOf(rls[0].resource.attrs))
      case OtherResources => Some("unknown resource type")
  }

  /** The attributes of the first resource of a slice. */
  function FirstResourceAttrs(resources: Resources): Option<AttrMap>
  {
    match resources
    case ResourceSpansSlice(rss) => if |rss| == 0 then None else Some(rss[0].resource.attrs)
    case ResourceMetricsSlice(rms) => if |rms| == 0 then None else Some(rms[0].resource.attrs)
    case ResourceLogsSlice(rls) => if |rls| == 0 then None else Some(rls[0].resource.attrs)
    case OtherResources => None
  }

  /** `validateTelemetry` as written: attributes go through
      `extractAttributes`, which yields an empty map. */
  method ValidateTelemetryAsWritten(cfg: ProcessorConfig, resources: Resources) returns (err: Option<string>)
    ensures err == Validation(cfg, resources, NoAttributes)
  {
    if NoRules(cfg) {
      return None;
    }
    var attrs: map<string, AnyValue>;
    match resources {
      case ResourceSpansSlice(rss) =>
        if |rss| == 0 {
          return Some("no resource spans found");
        }
        attrs := ExtractAttributes(PcommonMap(rss[0].resource.attrs));
      case ResourceMetricsSlice(rms) =>
        if |rms| == 0 {
          return Some("no resource metrics found");
        }
        attrs := ExtractAttributes(PcommonMap(rms[0].resource.attrs));
      case ResourceLogsSlice(rls) =>
        if |rls| == 0 {
          return Some("no resource logs found");
        }
        attrs := ExtractAttributes(PcommonMap(rls[0].resource.attrs));
      case OtherResources =>
        return Some("unknown resource type");
    }
    err := CheckAttributes(cfg, attrs);
  }

  /** `validateTelemetry` with the attribute extraction it evidently
      intends: the first resource's attributes, raw values by key. */
  method ValidateTelemetry(cfg: ProcessorConfig, resources: Resources) returns (err: Option<string>)
    ensures err == Validation(cfg, resources, RawAttributes)
  {
    if NoRules(cfg) {
      return None;
    }
    var attrs: map<string, AnyValue>;
    match resources {
      case ResourceSpansSlice(rss) =>
        if |rss| == 0 {
          return Some("no resource spans found");
        }
        attrs := CollectAttributes(rss[0].resource.attrs);
      case ResourceMetricsSlice(rms) =>
        if |rms| == 0 {
          return Some("no resource metrics found");
        }
        attrs := CollectAttributes(rms[0].resource.attrs);
      case ResourceLogsSlice(rls) =>
        if |rls| == 0 {
          return Some("no resource logs found");
        }
        attrs := CollectAttributes(rls[0].resource.attrs);
      case OtherResources =>
        return Some("unknown resource type");
    }
    err := CheckAttributes(cfg, attrs);
  }

  /** Without rules every batch passes, even an empty one. */
  lemma NoRulesAcceptAll(cfg: ProcessorConfig, resources: Resources, attrsOf: AttrMap -> map<string, AnyValue>)
    requires NoRules(cfg)
    ensures Validation(cfg, resources, attrsOf) == None
  {
  }

  /** With any rule, a batch without resources is rejected. */
  lemma EmptyBatchRejected(cfg: ProcessorConfig, resources: Resources, attrsOf: AttrMap -> map<string, AnyValue>)
    requires !NoRules(cfg) && FirstResourceAttrs(resources).None?
    ensures Validation(cfg, resources, attrsOf).Some?
  {
  }

  /** Only the first resource is consulted: batches whose first resources
      carry the same attributes get the same verdict, whatever follows. */
  lemma OnlyFirstResourceConsulted(cfg: ProcessorConfig, r1: Resources, r2: Resources, attrsOf: AttrMap -> map<string, AnyValue>)
    requires FirstResourceAttrs(r1).Some? && FirstResourceAttrs(r1) == FirstResourceAttrs(r2)
    requires r1.ResourceSpansSlice? == r2.ResourceSpansSlice?
    requires r1.ResourceMetricsSlice? == r2.ResourceMetricsSlice?
    ensures Validation(cfg, r1, attrsOf) == Validation(cfg, r2, attrsOf)
  {
  }

  /** With the intended extraction, a batch passes exactly when its first
      resource carries the required headers and a listed API key. */
  lemma ValidationPassesIff(cfg: ProcessorConfig, resources: Resources)
    requires !NoRules(cfg)
    ensures Validation(cfg, resources, RawAttributes) == None <==>
              && FirstResourceAttrs(resources).Some?
              && var attrs := RawAttributes(FirstResourceAttrs(resources).value);
                 && (forall h :: h in cfg.requiredHeaders ==> h in attrs)
                 && (|cfg.validApiKeys| > 0 ==>
                       ApiKeyHeader in attrs && attrs[ApiKeyHeader].Str? && attrs[ApiKeyHeader].s in cfg.validApiKeys)
  {
    if FirstResourceAttrs(resources).Some? {
      AttributeCheckPassesIff(cfg, RawAttributes(FirstResourceAttrs(resources).value));
    }
  }

  /** As written, once any rule is configured no batch passes: the
      extracted attributes are always empty. */
  lemma AsWrittenRejectsEverything(cfg: ProcessorConfig, resources: Resources)
    requires !NoRules(cfg)
    ensures Validation(cfg, resources, NoAttributes).Some?
  {
    if FirstResourceAttrs(resources).Some? {
      AttributeCheckPassesIff(cfg, map[]);
      if |cfg.requiredHeaders| > 0 {
        assert cfg.requiredHeaders[0] in cfg.requiredHeaders;
      }
    }
  }

  /** The default configuration, and a trace batch whose resource carries
      the required `X-App-Token`: as written the batch is rejected, with the
      intended extraction it passes. */
  lemma DefaultConfigRejectsAuthenticatedTraces()
    ensures var td := ResourceSpansSlice([ResourceSpans(Resource([KeyValue("X-App-Token", Str("t0k3n"))]), [])]);
            && Validation(DefaultConfig, td, NoAttributes) == Some("missing required header: X-App-Token")
            && Validation(DefaultConfig, td, RawAttributes) == None
  {
    var attrs := [KeyValue("X-App-Token", Str("t0k3n"))];
    assert RawAttributes(attrs) == map["X-App-Token" := Str("t0k3n")] by {
      assert attrs[..0] == [];
    }
    assert NoAttributes(attrs).Keys == {};
    assert FirstMissing(DefaultConfig.requiredHeaders, {}) == Some(0);
    assert "missing required header: " + DefaultConfig.requiredHeaders[0] == "missing required header: X-App-Token";
  }

  // ----- processTraces, processMetrics, processLogs -----

  /** `processTraces`: the batch itself when it validates, a new empty batch
      otherwise; the error is always nil. */
  function ProcessTraces(cfg: ProcessorConfig, td: Traces): (r: (Traces, Option<string>))
    ensures r.1 == None
    ensures Validation(cfg, ResourceSpansSlice(td.resourceSpans), RawAttributes) == None ==> r.0 == td
    ensures Validation(cfg, ResourceSpansSlice(td.resourceSpans), RawAttributes).Some? ==> r.0 == Traces([])
  {
    if Validation(cfg, ResourceSpansSlice(td.resourceSpans), RawAttributes).Some? then (Traces([]), None) else (td, None)
  }

  /** `processMetrics`. */
  function ProcessMetrics(cfg: ProcessorConfig, md: Metrics): (r: (Metrics, Option<string>))
    ensures r.1 == None
    ensures Validation(cfg, ResourceMetricsSlice(md.resourceMetrics), RawAttributes) == None ==> r.0 == md
    ensures Validation(cfg, ResourceMetricsSlice(md.resourceMetrics), RawAttributes).Some? ==> r.0 == Metrics([])
  {
    if Validation(cfg, ResourceMetricsSlice(md.resourceMetrics), RawAttributes).Some? then (Metrics([]), None) else (md, None)
  }

  /** `processLogs`. */
  function ProcessLogs(cfg: ProcessorConfig, ld: Logs): (r: (Logs, Option<string>))
    ensures r.1 == None
    ensures Validation(cfg, ResourceLogsSlice(ld.resourceLogs), RawAttributes) == None ==> r.0 == ld
    ensures Validation(cfg, ResourceLogsSlice(ld.resourceLogs), RawAttributes).Some? ==> r.0 == Logs([])
  {
    if Validation(cfg, ResourceLogsSlice(ld.resourceLogs), RawAttributes).Some? then (Logs([]), None) else (ld, None)
  }

  /** A processed batch is the input or empty, and nothing of a rejected
      batch reaches the next consumer. */
  lemma ProcessedTracesInputOrEmpty(cfg: ProcessorConfig, td: Traces)
    ensures ProcessTraces(cfg, td).0 == td || SpanCount(ProcessTraces(cfg, td).0) == 0
  {
  }

  /** Processing is idempotent: a batch that passed passes again. */
  lemma ProcessTracesIdempotent(cfg: ProcessorConfig, td: Traces)
    ensures ProcessTraces(cfg, ProcessTraces(cfg, td).0) == ProcessTraces(cfg, td)
  {
  }
}

/** The Azure Blob exporter: choosing the marshaller, naming a blob, the
    upload request `consumeData` makes, and `start`, which builds the
    storage client for the configured authentication and parses the blob
    name templates.

    The clock, the random source, the Azure SDK and the template engine's
    printing of values are outside the model: they are parameters. */
module BlobExporter {
  import opened Wrappers
  import opened GoTypes
  import opened Pdata
  import opened ExporterConfig
  import opened TemplateFuncs

  type Bytes = seq<Byte>

  // ----- newMarshaller -----

  /** The three marshallers. */
  datatype Format = JsonFormat | ProtoFormat | ParquetFormat
  {
    /** The marshaller's `format()`. */
    function Name(): string
    {
      match this
      case JsonFormat => FormatJson
      case ProtoFormat => FormatProto
      case ParquetFormat => FormatParquet
    }
  }

  /** `newMarshaller`: one marshaller per supported format name. */
  function NewMarshaller(formatType: string): (r: Result<Format, string>)
    ensures r.Success? <==> IsSupportedFormat(formatType)
    ensures r.Success? ==> r.value.Name() == formatType
    ensures r.Failure? ==> r.error == "unsupported format type: " + formatType
  {
    if formatType == FormatJson then Success(JsonFormat)
    else if formatType == FormatProto then Success(ProtoFormat)
    else if formatType == FormatParquet then Success(ParquetFormat)
    else Failure("unsupported format type: " + formatType)
  }

  /** A configuration `Validate` accepts always has a marshaller. */
  lemma ValidConfigHasMarshaller(c: Config)
    requires Validate(c) == None
    ensures NewMarshaller(c.formatType).Success?
  {
  }

  // ----- randomInRange -----

  /** `randomInRange(low, hi)`: `rand.IntN(hi - low)` draws from the
      entropy; `IntN` panics (None) unless `hi - low` is positive. */
  function RandomInRange(low: int, hi: int, entropy: nat): (r: Option<int>)
    ensures r.Some? <==> low < hi
    ensures r.Some? ==> low <= r.value < hi
  {
    if low < hi then Some(low + entropy % (hi - low)) else None
  }

  /** Every value of the range can be drawn. */
  lemma RandomInRangeCoversRange(low: int, hi: int, v: int)
    requires low <= v < hi
    ensures exists entropy: nat :: RandomInRange(low, hi, entropy) == Some(v)
  {
    assert RandomInRange(low, hi, v - low) == Some(v);
  }

  // ----- file extensions -----

  /** `filepath.Ext` with `/` as the separator: the suffix from the last dot
      of the last path element, or "" when that element has no dot. */
  function Ext(path: string): (ext: string)
    ensures |ext| <= |path| && path[|path| - |ext|..] == ext
    ensures ext != "" ==> ext[0] == '.'
    ensures forall i :: 1 <= i < |ext| ==> ext[i] != '.' && ext[i] != '/'
    ensures ext == "" ==> NoDotInLastElement(path)
  {
    if path == "" then ""
    else
      var c := path[|path| - 1];
      var init := path[..|path| - 1];
      assert path == init + [c];
      if c == '/' then
        ""
      else if c == '.' then "."
      else
        var e := Ext(init);
        if e == "" then
          ""
        else
          assert path[|path| - |e + [c]|..] == init[|init| - |e|..] + [c];
          e + [c]
  }

  /** Every dot of `path` is followed by a separator. */
  ghost predicate NoDotInLastElement(path: string)
  {
    forall i :: 0 <= i < |path| && path[i] == '.' ==> '/' in path[i + 1..]
  }

  /** `strings.TrimSuffix`. */
  function TrimSuffix(s: string, suffix: string): (r: string)
    ensures |suffix| <= |s| && s[|s| - |suffix|..] == suffix ==> r + suffix == s
    ensures !(|suffix| <= |s| && s[|s| - |suffix|..] == suffix) ==> r == s
  {
    if |suffix| <= |s| && s[|s| - |suffix|..] == suffix then s[..|s| - |suffix|] else s
  }

  /** Splitting a pattern at its extension loses nothing. */
  lemma ExtSplit(pattern: string)
    ensures TrimSuffix(pattern, Ext(pattern)) + Ext(pattern) == pattern
  {
  }

  // ----- generateBlobName -----

  /** The parsed templates, one per signal; None where none was parsed. */
  datatype BlobNameTemplates = BlobNameTemplates(metrics: Option<Template>, logs: Option<Template>, traces: Option<Template>)

  const NoTemplates := BlobNameTemplates(None, None, None)

  /** What naming reads from outside: `time.Now().Format` applied to a
      layout, the random source behind `rand.IntN`, and how the template
      engine prints a looked-up value. */
  datatype NamingEnv = NamingEnv(formatTime: string -> string, entropy: nat, render: TemplateValue -> string)

  /** A blob name, an error, or the panic of `rand.IntN` on a range that is
      not positive. */
  datatype NameOutcome = Named(name: string) | NameFailed(error: string) | NamePanicked

  /** `%v` of a signal. */
  function SignalName(signal: Signal): string
  {
    match signal
    case SignalTraces => "traces"
    case SignalMetrics => "metrics"
    case SignalLogs => "logs"
    case OtherSignal(name) => name
  }

  /** The static pattern configured for a signal. */
  function StaticPattern(bnf: BlobNameFormat, signal: Signal): string
  {
    match signal
    case SignalMetrics => bnf.metricsFormat
    case SignalLogs => bnf.logsFormat
    case SignalTraces => bnf.tracesFormat
    case OtherSignal(_) => ""
  }

  function TemplateFor(templates: BlobNameTemplates, signal: Signal): Option<Template>
  {
    match signal
    case SignalMetrics => templates.metrics
    case SignalLogs => templates.logs
    case SignalTraces => templates.traces
    case OtherSignal(_) => None
  }

  /** The layout the name is built from: the template's output when
      templates are enabled, one was parsed for the signal and it executes;
      the static pattern otherwise. */
  function ChosenPattern(bnf: BlobNameFormat, templates: BlobNameTemplates, signal: Signal, data: Telemetry,
                         render: TemplateValue -> string): (pattern: string)
    ensures !bnf.templateEnabled || TemplateFor(templates, signal).None? ==> pattern == StaticPattern(bnf, signal)
    ensures bnf.templateEnabled && TemplateFor(templates, signal).Some? ==>
              match Execute(TemplateFor(templates, signal).value, data, render)
              case Some(out) => pattern == out
              case None => pattern == StaticPattern(bnf, signal)
  {
    var staticPattern := StaticPattern(bnf, signal);
    var t := TemplateFor(templates, signal);
    if bnf.templateEnabled && t.Some? then
      match Execute(t.value, data, render)
      case Some(out) => out
      case None => staticPattern
    else
      staticPattern
  }

  /** The name built from a layout and a serial number: before the
      extension the time-formatted layout without its extension, then `_`
      and the serial, then the extension; otherwise the serial after the
      whole time-formatted layout. */
  function SerialName(pattern: string, serial: int, beforeExtension: bool, formatTime: string -> string): string
  {
    if beforeExtension then
      var ext := Ext(pattern);
      formatTime(TrimSuffix(pattern, ext)) + "_" + FormatInt(serial) + ext
    else
      formatTime(pattern) + "_" + FormatInt(serial)
  }

  /** `generateBlobName`. */
  function GenerateBlobName(bnf: BlobNameFormat, templates: BlobNameTemplates, signal: Signal, data: Telemetry,
                            env: NamingEnv): (r: NameOutcome)
    ensures signal.OtherSignal? <==> r.NameFailed?
    ensures r.NameFailed? ==> r.error == "unsupported signal type: " + SignalName(signal)
    ensures r.NamePanicked? <==> !signal.OtherSignal? && bnf.serialNumRange <= 0
    ensures r.Named? ==>
              exists serial :: 0 <= serial < bnf.serialNumRange &&
                r.name == SerialName(ChosenPattern(bnf, templates, signal, data, env.render), serial,
                                     bnf.serialNumBeforeExtension, env.formatTime)
  {
    if signal.OtherSignal? then NameFailed("unsupported signal type: " + SignalName(signal))
    else
      var pattern := ChosenPattern(bnf, templates, signal, data, env.render);
      match RandomInRange(0, bnf.serialNumRange, env.entropy)
      case None => NamePanicked
      case Some(serial) => Named(SerialName(pattern, serial, bnf.serialNumBeforeExtension, env.formatTime))
  }

  /** A template that fails to execute (an index past the end of the batch,
      a lookup for another signal) leaves the name the static pattern
      gives. */
  lemma TemplateFailureFallsBack(bnf: BlobNameFormat, templates: BlobNameTemplates, signal: Signal, data: Telemetry,
                                 env: NamingEnv)
    requires TemplateFor(templates, signal).Some?
    requires Execute(TemplateFor(templates, signal).value, data, env.render).None?
    ensures GenerateBlobName(bnf, templates, signal, data, env) == GenerateBlobName(bnf, NoTemplates, signal, data, env)
  {
  }

  /** With templates disabled, parsed templates are ignored. */
  lemma TemplatesDisabledIgnored(bnf: BlobNameFormat, templates: BlobNameTemplates, signal: Signal, data: Telemetry,
                                 env: NamingEnv)
    requires !bnf.templateEnabled
    ensures GenerateBlobName(bnf, templates, signal, data, env) == GenerateBlobName(bnf, NoTemplates, signal, data, env)
  {
  }

  /** A trace template reading a resource group past the end of a non-empty
      batch names the blob after the static pattern. */
  lemma OutOfRangeLookupUsesStaticName(bnf: BlobNameFormat, templates: BlobNameTemplates, td: Traces, env: NamingEnv,
                                       i: nat, rmIndex: int, key: string)
    requires templates.traces.Some? && i < |templates.traces.value|
    requires templates.traces.value[i] == Action(ResourceSpanAttr(rmIndex, key))
    requires |td.resourceSpans| > 0 && !InRange(rmIndex, |td.resourceSpans|)
    ensures GenerateBlobName(bnf, templates, SignalTraces, TracesData(td), env)
         == GenerateBlobName(bnf, NoTemplates, SignalTraces, TracesData(td), env)
  {
    OutOfRangeResourceFails(templates.traces.value, td, env.render, i, rmIndex, key);
    TemplateFailureFallsBack(bnf, templates, SignalTraces, TracesData(td), env);
  }

  /** With the serial before the extension the name is, in order, the
      time-formatted layout without its extension, `_`, the digits of the
      serial and the layout's extension. */
  lemma SerialNameBeforeExtension(pattern: string, serial: nat, formatTime: string -> string)
    ensures var name := SerialName(pattern, serial, true, formatTime);
            var head := formatTime(TrimSuffix(pattern, Ext(pattern)));
            && IsPrefix(head + "_", name)
            && IsSuffix(NatToDecimal(serial) + Ext(pattern), name)
            && |name| == |head| + 1 + |NatToDecimal(serial)| + |Ext(pattern)|
  {
    assert FormatInt(serial) == NatToDecimal(serial);
    ThreeParts(formatTime(TrimSuffix(pattern, Ext(pattern))), NatToDecimal(serial), Ext(pattern));
  }

  /** With the serial at the end the name is the time-formatted layout,
      `_` and the digits of the serial. */
  lemma SerialNameAtEnd(pattern: string, serial: nat, formatTime: string -> string)
    ensures var name := SerialName(pattern, serial, false, formatTime);
            var head := formatTime(pattern);
            && IsPrefix(head + "_", name)
            && IsSuffix(NatToDecimal(serial), name)
            && |name| == |head| + 1 + |NatToDecimal(serial)|
  {
    var head := formatTime(pattern);
    var digits := NatToDecimal(serial);
    assert SerialName(pattern, serial, false, formatTime) == (head + "_") + digits;
    Split(head + "_", digits);
  }

  /** `head_digits` followed by `ext`, split at the `_` and at the digits. */
  lemma ThreeParts(head: string, digits: string, ext: string)
    ensures var name := head + "_" + digits + ext;
            && IsPrefix(head + "_", name)
            && IsSuffix(digits + ext, name)
            && |name| == |head| + 1 + |digits| + |ext|
  {
    Regroup(head + "_", digits, ext, "");
    Split(head + "_", digits + ext);
  }

  lemma Regroup<T>(a: seq<T>, b: seq<T>, c: seq<T>, d: seq<T>)
    ensures ((a + b) + c) + d == a + ((b + c) + d)
  {
  }

  predicate IsSuffix(tail: string, s: string)
  {
    |tail| <= |s| && s[|s| - |tail|..] == tail
  }

  predicate IsPrefix(head: string, s: string)
  {
    |head| <= |s| && s[..|head|] == head
  }

  /** A concatenation starts with its first part, ends with its second and
      is as long as both. */
  lemma Split(head: string, tail: string)
    ensures IsPrefix(head, head + tail) && IsSuffix(tail, head + tail)
    ensures |head + tail| == |head| + |tail|
  {
  }

  /** Two serials give the same name only if they are equal: the serial is
      what keeps blobs of the same layout apart. */
  lemma {:induction false} SerialNameInjective(pattern: string, a: nat, b: nat, beforeExtension: bool,
                                               formatTime: string -> string)
    requires SerialName(pattern, a, beforeExtension, formatTime) == SerialName(pattern, b, beforeExtension, formatTime)
    ensures a == b
  {
    var head := if beforeExtension then formatTime(TrimSuffix(pattern, Ext(pattern))) else formatTime(pattern);
    var ext := if beforeExtension then Ext(pattern) else "";
    var da := NatToDecimal(a);
    var db := NatToDecimal(b);
    assert SerialName(pattern, a, beforeExtension, formatTime) == head + "_" + da + ext;
    assert SerialName(pattern, b, beforeExtension, formatTime) == head + "_" + db + ext;
    var na := head + "_" + da + ext;
    var nb := head + "_" + db + ext;
    assert |da| == |db|;
    assert da == na[|head| + 1..|head| + 1 + |da|];
    assert db == nb[|head| + 1..|head| + 1 + |db|];
    NatToDecimalInjective(a, b);
  }

  /** `Validate` does not look at the serial range: a configuration it
      accepts with a range of zero makes every naming call panic. */
  lemma ZeroSerialRangePanics(c: Config, signal: Signal, data: Telemetry, templates: BlobNameTemplates, env: NamingEnv)
    requires Validate(c) == None
    requires c.blobNameFormat.serialNumRange == 0 && !signal.OtherSignal?
    ensures Validate(c.(blobNameFormat := c.blobNameFormat.(serialNumRange := 1))) == None
    ensures GenerateBlobName(c.blobNameFormat, templates, signal, data, env) == NamePanicked
  {
  }

  // ----- consumeData -----

  /** UTF-8, as Go's `[]byte(s)`: one byte below 0x80, then two, three or
      four bytes, the lead byte announcing the length and every later byte
      a continuation byte. */
  function Utf8Char(c: char): (bs: Bytes)
    ensures 1 <= |bs| <= 4
    ensures (c as int) < 0x80 ==> bs == [c as int]
    ensures |bs| == 2 <==> 0x80 <= c as int < 0x800
    ensures |bs| == 3 <==> 0x800 <= c as int < 0x1_0000
    ensures |bs| == 2 ==> 0xC0 <= bs[0] < 0xE0
    ensures |bs| == 3 ==> 0xE0 <= bs[0] < 0xF0
    ensures |bs| == 4 ==> 0xF0 <= bs[0] < 0xF8
    ensures forall k :: 1 <= k < |bs| ==> 0x80 <= bs[k] < 0xC0
  {
    var n := c as int;
    if n < 0x80 then [n]
    else if n < 0x800 then [0xC0 + n / 0x40, 0x80 + n % 0x40]
    else if n < 0x1_0000 then [0xE0 + n / 0x1000, 0x80 + (n / 0x40) % 0x40, 0x80 + n % 0x40]
    else [0xF0 + n / 0x4_0000, 0x80 + (n / 0x1000) % 0x40, 0x80 + (n / 0x40) % 0x40, 0x80 + n % 0x40]
  }

  /** Every character of `s` is below 0x80. */
  predicate IsAscii(s: string)
  {
    forall k :: 0 <= k < |s| ==> (s[k] as int) < 0x80
  }

  /** `bs` holds the codes of the characters of `s`, one byte each. */
  predicate CodesOf(bs: Bytes, s: string)
  {
    |bs| == |s| && forall k :: 0 <= k < |s| ==> bs[k] == s[k] as int
  }

  /** The bytes of a string: its characters' encodings in order; an ASCII
      string gives one byte per character, the character's code. */
  function Utf8(s: string): (bs: Bytes)
    ensures |bs| >= |s|
    ensures IsAscii(s) ==> CodesOf(bs, s)
  {
    if s == "" then []
    else
      var rest := Utf8(s[1..]);
      assert forall k :: 0 <= k < |s[1..]| ==> s[1..][k] == s[k + 1];
      Utf8Char(s[0]) + rest
  }

  /** Encoding distributes over concatenation: the separator's bytes are
      the bytes of its parts in order. */
  lemma {:induction false} Utf8Append(a: string, b: string)
    ensures Utf8(a + b) == Utf8(a) + Utf8(b)
  {
    if a != "" {
      HeadTail(a, b);
      assert Utf8(a + b) == Utf8Char(a[0]) + Utf8(a[1..] + b);
      Utf8Append(a[1..], b);
      assert Utf8(a) == Utf8Char(a[0]) + Utf8(a[1..]);
      Regroup(Utf8Char(a[0]), Utf8(a[1..]), Utf8(b), []);
    } else {
      assert a + b == b;
    }
  }

  lemma HeadTail<T>(a: seq<T>, b: seq<T>)
    requires a != []
    ensures (a + b)[0] == a[0] && (a + b)[1..] == a[1..] + b
  {
  }

  /** The upload `consumeData` issues. */
  datatype UploadRequest =
    | AppendBlock(container: string, blob: string, data: Bytes)
    | UploadStream(container: string, blob: string, data: Bytes)

  /** The outcome of `consumeData`: nil, an error, or the panic of naming. */
  datatype ExportOutcome = Exported | ExportFailed(error: string) | ExportPanicked

  /** The request made (if any) and the outcome. */
  datatype Consumed = Consumed(request: Option<UploadRequest>, outcome: ExportOutcome)

  /** The container a signal's blobs go to. */
  function ContainerFor(containers: TelemetryConfig, signal: Signal): Option<string>
  {
    match signal
    case SignalMetrics => Some(containers.metrics)
    case SignalLogs => Some(containers.logs)
    case SignalTraces => Some(containers.traces)
    case OtherSignal(_) => None
  }

  /** The bytes appended to an append blob: the payload, then the separator
      when one is configured. */
  function AppendPayload(data: Bytes, separator: string): (out: Bytes)
    ensures separator == "" ==> out == data
    ensures |out| >= |data| && out[..|data|] == data
    ensures out[|data|..] == Utf8(separator)
  {
    if separator != "" then data + Utf8(separator) else data
  }

  /** `consumeData`: name the blob, pick the signal's container, then append
      to an append blob or upload a block blob. `uploadError` is what the
      storage call returns. */
  function ConsumeData(config: Config, templates: BlobNameTemplates, data: Telemetry, payload: Bytes, signal: Signal,
                       env: NamingEnv, uploadError: Option<string>): (r: Consumed)
    ensures signal.OtherSignal? ==>
              r == Consumed(None, ExportFailed("failed to generate blobname: unsupported signal type: " + SignalName(signal)))
    ensures !signal.OtherSignal? && config.blobNameFormat.serialNumRange <= 0 ==> r == Consumed(None, ExportPanicked)
    ensures r.request.Some? <==> !signal.OtherSignal? && config.blobNameFormat.serialNumRange > 0
    ensures r.request.Some? ==>
              && Some(r.request.value.container) == ContainerFor(config.container, signal)
              && GenerateBlobName(config.blobNameFormat, templates, signal, data, env) == Named(r.request.value.blob)
              && (r.request.value.AppendBlock? <==> config.appendBlob.enabled)
              && (r.request.value.AppendBlock? ==> r.request.value.data == AppendPayload(payload, config.appendBlob.separator))
              && (r.request.value.UploadStream? ==> r.request.value.data == payload)
              && (r.outcome == Exported <==> uploadError.None?)
              && (uploadError.Some? ==> r.outcome == ExportFailed("failed to upload data: " + uploadError.value))
  {
    match GenerateBlobName(config.blobNameFormat, templates, signal, data, env)
    case NameFailed(e) =>
      assert "failed to generate blobname: " + e
          == "failed to generate blobname: unsupported signal type: " + SignalName(signal);
      Consumed(None, ExportFailed("failed to generate blobname: " + e))
    case NamePanicked => Consumed(None, ExportPanicked)
    case Named(blobName) =>
      var containerName := ContainerFor(config.container, signal).value;
      var request :=
        if config.appendBlob.enabled then AppendBlock(containerName, blobName, AppendPayload(payload, config.appendBlob.separator))
        else UploadStream(containerName, blobName, payload);
      match uploadError
      case Some(e) => Consumed(Some(request), ExportFailed("failed to upload data: " + e))
      case None => Consumed(Some(request), Exported)
  }

  /** The signal a batch is exported as. */
  function SignalOf(data: Telemetry): Signal
  {
    match data
    case TracesData(_) => SignalTraces
    case MetricsData(_) => SignalMetrics
    case LogsData(_) => SignalLogs
  }

  /** `ConsumeTraces`, `ConsumeMetrics` and `ConsumeLogs`: the batch is
      marshalled first (`marshalled` is the marshaller's result) and a
      marshal error ends the call before any blob is named. */
  function ConsumeBatch(config: Config, templates: BlobNameTemplates, data: Telemetry, marshalled: Result<Bytes, string>,
                        env: NamingEnv, uploadError: Option<string>): (r: Consumed)
    ensures marshalled.Failure? ==>
              r == Consumed(None, ExportFailed("failed to marshal " + SignalName(SignalOf(data)) + ": " + marshalled.error))
    ensures marshalled.Success? ==> r == ConsumeData(config, templates, data, marshalled.value, SignalOf(data), env, uploadError)
  {
    match marshalled
    case Failure(e) => Consumed(None, ExportFailed("failed to marshal " + SignalName(SignalOf(data)) + ": " + e))
    case Success(payload) => ConsumeData(config, templates, data, payload, SignalOf(data), env, uploadError)
  }

  /** Through the three entry points the unsupported-signal error cannot
      occur: a marshalled batch with a positive serial range always reaches
      the storage call, in its signal's container. */
  lemma MarshalledBatchIsUploaded(config: Config, templates: BlobNameTemplates, data: Telemetry, payload: Bytes,
                                  env: NamingEnv, uploadError: Option<string>)
    requires config.blobNameFormat.serialNumRange > 0
    ensures var r := ConsumeBatch(config, templates, data, Success(payload), env, uploadError);
            && r.request.Some?
            && Some(r.request.value.container) == ContainerFor(config.container, SignalOf(data))
            && (r.outcome == Exported <==> uploadError.None?)
  {
  }

  /** Two batches appended with a newline separator follow each other in
      the blob, each ended by a newline. */
  lemma AppendsWithNewlineAreDelimited(a: Bytes, b: Bytes)
    ensures AppendPayload(a, "\n") + AppendPayload(b, "\n") == a + [0x0A] + b + [0x0A]
  {
    assert Utf8("\n") == [0x0A];
  }

  // ----- start -----

  /** The credentials `start` can build. */
  datatype Credential =
    | ClientSecretCredential(tenantId: string, clientId: string, clientSecret: string)
    | ManagedIdentityCredential(identity: Option<string>)
    | WorkloadIdentityCredential(clientId: string, tenantId: string, tokenFile: string)
    | DefaultAzureCredential

  /** The storage client `start` builds. */
  datatype BlobClient =
    | ClientFromConnectionString(connectionString: string)
    | ClientWithCredential(url: string, credential: Credential)

  /** No client yet; a client wrapper whose SDK client could not be built
      (`start` installs the wrapper before building); a working client. */
  datatype ClientState = NoClient | Unconnected | Connected(client: BlobClient)

  /** What the Azure SDK constructors return: an error message or success. */
  datatype AzureSdk = AzureSdk(
    connectionStringError: string -> Option<string>,
    credentialError: Credential -> Option<string>,
    clientError: (string, Credential) -> Option<string>)

  /** The credential `start` builds for an auth type, None for connection
      strings and unsupported types. */
  function CredentialFor(auth: Authentication): (cred: Option<Credential>)
    ensures cred.Some? <==> auth.authType in {ServicePrincipal, SystemManagedIdentity, UserManagedIdentity, WorkloadIdentity, DefaultCredentials}
  {
    if auth.authType == ServicePrincipal then Some(ClientSecretCredential(auth.tenantId, auth.clientId, auth.clientSecret))
    else if auth.authType == SystemManagedIdentity then Some(ManagedIdentityCredential(None))
    else if auth.authType == UserManagedIdentity then Some(ManagedIdentityCredential(Some(auth.clientId)))
    else if auth.authType == WorkloadIdentity then Some(WorkloadIdentityCredential(auth.clientId, auth.tenantId, auth.federatedTokenFile))
    else if auth.authType == DefaultCredentials then Some(DefaultAzureCredential)
    else None
  }

  /** The client `start` builds for a configuration. */
  function ClientFor(c: Config): (client: Option<BlobClient>)
    ensures client.Some? <==>
              c.auth.authType in {ConnectionString, ServicePrincipal, SystemManagedIdentity, UserManagedIdentity, WorkloadIdentity, DefaultCredentials}
    ensures c.auth.authType == ConnectionString ==> client == Some(ClientFromConnectionString(c.auth.connectionString))
    ensures client.Some? && c.auth.authType != ConnectionString ==> client.value.ClientWithCredential? && client.value.url == c.url
  {
    if c.auth.authType == ConnectionString then Some(ClientFromConnectionString(c.auth.connectionString))
    else
      match CredentialFor(c.auth)
      case Some(cred) => Some(ClientWithCredential(c.url, cred))
      case None => None
  }

  /** The words the credential and client errors of an auth type use. */
  function CredentialErrorPrefix(authType: AuthType): string
  {
    if authType == ServicePrincipal then "failed to create service principal credential: "
    else if authType == SystemManagedIdentity then "failed to create system managed identity credential: "
    else if authType == UserManagedIdentity then "failed to create user managed identity credential: "
    else if authType == WorkloadIdentity then "failed to create workload identity credential: "
    else "failed to create default Azure credential: "
  }

  function ClientErrorPrefix(authType: AuthType): string
  {
    if authType == ConnectionString then "failed to create client from connection string: "
    else if authType == ServicePrincipal then "failed to create client with service principal: "
    else if authType == SystemManagedIdentity then "failed to create client with system managed identity: "
    else if authType == UserManagedIdentity then "failed to create client with user managed identity: "
    else if authType == WorkloadIdentity then "failed to create client with workload identity: "
    else "failed to create client with default credentials: "
  }

  /** The error building the client yields, if any: the credential first,
      then the client. */
  function ConnectError(c: Config, sdk: AzureSdk): (err: Option<string>)
    ensures ClientFor(c).None? ==> err == Some("unsupported authentication type: " + c.auth.authType)
    ensures c.auth.authType == ConnectionString ==>
              match sdk.connectionStringError(c.auth.connectionString)
              case Some(e) => err == Some("failed to create client from connection string: " + e)
              case None => err == None
    ensures CredentialFor(c.auth).Some? ==>
              var cred := CredentialFor(c.auth).value;
              match sdk.credentialError(cred)
              case Some(e) => err == Some(CredentialErrorPrefix(c.auth.authType) + e)
              case None =>
                match sdk.clientError(c.url, cred)
                case Some(e) => err == Some(ClientErrorPrefix(c.auth.authType) + e)
                case None => err == None
  {
    if c.auth.authType == ConnectionString then
      match sdk.connectionStringError(c.auth.connectionString)
      case Some(e) => Some(ClientErrorPrefix(c.auth.authType) + e)
      case None => None
    else
      match CredentialFor(c.auth)
      case None => Some("unsupported authentication type: " + c.auth.authType)
      case Some(cred) =>
        match sdk.credentialError(cred)
        case Some(e) => Some(CredentialErrorPrefix(c.auth.authType) + e)
        case None =>
          match sdk.clientError(c.url, cred)
          case Some(e) => Some(ClientErrorPrefix(c.auth.authType) + e)
          case None => None
  }

  /** A configuration `Validate` accepts can still fail to start: the auth
      type is checked only by `start`. */
  lemma UnsupportedAuthPassesValidateFailsStart(c: Config, sdk: AzureSdk)
    requires c.auth.authType !in {ConnectionString, SystemManagedIdentity, UserManagedIdentity, ServicePrincipal,
                                  WorkloadIdentity, DefaultCredentials}
    requires c.url != "" && IsSupportedFormat(c.formatType)
    ensures Validate(c) == None
    ensures ClientFor(c).None?
    ensures ConnectError(c, sdk) == Some("unsupported authentication type: " + c.auth.authType)
  {
    UnknownAuthTypePassesValidate(c);
  }

  /** `azureBlobExporter`: the configuration it was created with and the
      state `start` sets up. */
  class Exporter {
    const config: Config
    var marshaller: Option<Format>
    var client: ClientState
    var templates: BlobNameTemplates

    /** `newAzureBlobExporter`. */
    constructor(config: Config)
      ensures this.config == config
      ensures marshaller == None && client == NoClient && templates == NoTemplates
    {
      this.config := config;
      marshaller := None;
      client := NoClient;
      templates := NoTemplates;
    }

    /** `start`: the marshaller, then the client for the auth type, then
        (when enabled) the metrics, logs and traces templates in that order;
        the first failure ends the call. `parse(name, text)` is the template
        parser. */
    method Start(sdk: AzureSdk, parse: (string, string) -> Result<Template, string>) returns (err: Option<string>)
      modifies this
      ensures NewMarshaller(config.formatType).Failure? ==>
                && err == Some(NewMarshaller(config.formatType).error)
                && marshaller == None && client == old(client) && templates == old(templates)
      ensures NewMarshaller(config.formatType).Success? ==>
                && marshaller == Some(NewMarshaller(config.formatType).value)
                && (ConnectError(config, sdk).Some? ==>
                      err == ConnectError(config, sdk) && client == Unconnected && templates == old(templates))
                && (ConnectError(config, sdk).None? ==> client == Connected(ClientFor(config).value))
      ensures NewMarshaller(config.formatType).Success? && ConnectError(config, sdk).None? &&
              !config.blobNameFormat.templateEnabled ==>
                err == None && templates == old(templates)
      ensures NewMarshaller(config.formatType).Success? && ConnectError(config, sdk).None? &&
              config.blobNameFormat.templateEnabled ==>
                TemplatesParsed(parse, old(templates), templates, err)
    {
      var m := NewMarshaller(config.formatType);
      if m.Failure? {
        marshaller := None;
        return Some(m.error);
      }
      marshaller := Some(m.value);

      var authType := config.auth.authType;
      client := Unconnected;
      var built: BlobClient;
      if authType == ConnectionString {
        var e := sdk.connectionStringError(config.auth.connectionString);
        if e.Some? {
          return Some("failed to create client from connection string: " + e.value);
        }
        built := ClientFromConnectionString(config.auth.connectionString);
      } else {
        var cred := CredentialFor(config.auth);
        if cred.None? {
          return Some("unsupported authentication type: " + authType);
        }
        var e := sdk.credentialError(cred.value);
        if e.Some? {
          return Some(CredentialErrorPrefix(authType) + e.value);
        }
        e := sdk.clientError(config.url, cred.value);
        if e.Some? {
          return Some(ClientErrorPrefix(authType) + e.value);
        }
        built := ClientWithCredential(config.url, cred.value);
      }
      client := Connected(built);

      if config.blobNameFormat.templateEnabled {
        err := ParseTemplates(parse);
        return;
      }
      return None;
    }

    /** What parsing the three templates leaves behind: the first template
        that fails to parse is cleared and its error returned, the ones
        before it are set and the ones after it untouched. */
    ghost predicate TemplatesParsed(parse: (string, string) -> Result<Template, string>,
                                    before: BlobNameTemplates, after: BlobNameTemplates, err: Option<string>)
    {
      var bnf := config.blobNameFormat;
      var m := parse("metrics", bnf.metricsFormat);
      var l := parse("logs", bnf.logsFormat);
      var t := parse("traces", bnf.tracesFormat);
      if m.Failure? then
        err == Some("failed to parse metrics blob name template: " + m.error)
        && after == before.(metrics := None)
      else if l.Failure? then
        err == Some("failed to parse logs blob name template: " + l.error)
        && after == before.(metrics := Some(m.value), logs := None)
      else if t.Failure? then
        err == Some("failed to parse traces blob name template: " + t.error)
        && after == BlobNameTemplates(Some(m.value), Some(l.value), None)
      else
        err == None && after == BlobNameTemplates(Some(m.value), Some(l.value), Some(t.value))
    }

    /** The template part of `start`: metrics, then logs, then traces. */
    method ParseTemplates(parse: (string, string) -> Result<Template, string>) returns (err: Option<string>)
      modifies this`templates
      ensures TemplatesParsed(parse, old(templates), templates, err)
    {
      var parsed := parse("metrics", config.blobNameFormat.metricsFormat);
      if parsed.Failure? {
        templates := templates.(metrics := None);
        return Some("failed to parse metrics blob name template: " + parsed.error);
      }
      templates := templates.(metrics := Some(parsed.value));

      parsed := parse("logs", config.blobNameFormat.logsFormat);
      if parsed.Failure? {
        templates := templates.(logs := None);
        return Some("failed to parse logs blob name template: " + parsed.error);
      }
      templates := templates.(logs := Some(parsed.value));

      parsed := parse("traces", config.blobNameFormat.tracesFormat);
      if parsed.Failure? {
        templates := templates.(traces := None);
        return Some("failed to parse traces blob name template: " + parsed.error);
      }
      templates := templates.(traces := Some(parsed.value));
      return None;
    }
  }
}

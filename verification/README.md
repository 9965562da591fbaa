# otel-trust-gateway: the Azure Blob exporter and the trust gateway processor

This project models two OpenTelemetry Collector components from the
otel-trust-gateway repository.

The **Azure Blob exporter** does the following:

- checks its configuration (`Config.Validate`);
- picks a marshaller for the configured format;
- on `start`, builds a storage client for the configured authentication
  type and parses the per-signal blob name templates;
- for each batch, marshals it (the Parquet marshaller flattens spans, log
  records and metric data points into rows), names a blob and uploads the
  payload.

A blob name comes from a static time layout or a template, with a random
serial number either before the extension or at the end. The templates
look values up in the batch by index through nine helper functions. The
upload either appends to an append blob (with an optional separator) or
uploads a block blob.

The **trust gateway processor** checks that the first resource of each
batch carries the required headers and a listed API key. A batch that
fails the check is replaced by an empty batch.

Modules:

- `Wrappers`: `Option` and `Result`.
- `GoTypes`: Go integer widths, the `int64(uint64)` conversion, decimal and
  hexadecimal formatting.
- `Pdata`: the telemetry tree (resources, scopes, spans, log records,
  metrics, data points), attribute values and their `AsString` text, trace
  and span ids, counts.
- `ExporterConfig`: the exporter's configuration and `Validate`.
- `ParquetMarshaller`: row construction, with the row loops as methods proved
  against specification functions on the batch.
- `TemplateFuncs`: the template lookup functions and a small template
  executor.
- `BlobExporter`: `newMarshaller`, `randomInRange`, `generateBlobName`,
  `consumeData`, and the exporter object with `start`.
- `TrustGateway`: `validateTelemetry`, `extractAttributes` and the three
  `process*` functions.

Some things are parameters of the model rather than part of it:

- the clock (`NamingEnv.formatTime`);
- the random source (`NamingEnv.entropy`);
- the way the template engine prints a value (`NamingEnv.render`);
- the template parser (`parse`);
- the Azure SDK's failures (`AzureSdk`);
- the outcome of the upload (`uploadError`);
- the Parquet encoder (`encode`).

## Model

| member | source | states |
|---|---|---|
| GoTypes.Int64OfUint64 | src/otel-collector/exporter/azureblobexporter/parquet_marshaller.go:104-105 | the `int64` of a nanosecond timestamp is congruent to it modulo 2^64, and is negative exactly when the timestamp is at least 2^63 |
| GoTypes.NatToDecimal | src/otel-collector/exporter/azureblobexporter/exporter.go:370 | `%d` of a natural number is a non-empty digit string without a leading zero unless the number is 0 |
| GoTypes.FormatInt | src/otel-collector/exporter/azureblobexporter/exporter.go:373 | `%d` of an integer: the digits of a non-negative number, and a `-` followed by the digits of the magnitude for a negative one |
| GoTypes.FormatIntInjective | src/otel-collector/exporter/azureblobexporter/exporter.go:369-373 | distinct integers print differently |
| GoTypes.DecimalRoundTrip | src/otel-collector/exporter/azureblobexporter/exporter.go:370 | reading the printed digits back gives the number: the serial is recoverable from the name |
| GoTypes.NatToDecimalInjective | src/otel-collector/exporter/azureblobexporter/exporter.go:370 | distinct serials print differently |
| GoTypes.HexEncode | src/otel-collector/exporter/azureblobexporter/parquet_marshaller.go:99-100 | the hex form of an id has two lower-case hex digits per byte |
| GoTypes.HexRoundTrip | src/otel-collector/exporter/azureblobexporter/parquet_marshaller.go:99-100 | decoding the hex form of an id gives the id back |
| Pdata.IdStringEmptyIff | src/otel-collector/exporter/azureblobexporter/parquet_marshaller.go:93-96 | an id prints as "" exactly when it is all zero |
| Pdata.IdStringRoundTrip | src/otel-collector/exporter/azureblobexporter/parquet_marshaller.go:99-101 | the printed form of a non-empty id decodes back to the id |
| ExporterConfig.AuthFieldsError | src/otel-collector/exporter/azureblobexporter/config.go:100-120 | for each authentication type, which empty fields are reported and with which message; the other types need no fields |
| ExporterConfig.Validate | src/otel-collector/exporter/azureblobexporter/config.go:95-127 | a missing URL is reported first unless the type is connection string; then the authentication fields; the unknown-format error exactly when the earlier checks pass and the format is not json, proto or parquet; no error exactly when every check passes |
| ExporterConfig.ValidateReportsFirstFailure | src/otel-collector/exporter/azureblobexporter/config.go:95-127 | `Validate` returns the first failing check in source order, or nil when none fails |
| ExporterConfig.ServicePrincipalNeedsSecret | src/otel-collector/exporter/azureblobexporter/config.go:105-108 | a service principal without a client secret never validates |
| ExporterConfig.UnknownAuthTypePassesValidate | src/otel-collector/exporter/azureblobexporter/config.go:100-120 | an authentication type outside the known six passes validation when the URL and the format are set |
| ParquetMarshaller.FlattenAttributes | src/otel-collector/exporter/azureblobexporter/parquet_marshaller.go:209-216 | the flattened map has exactly the attribute keys, and each key maps to the `AsString` text of its last value |
| ParquetMarshaller.FlattenUniqueKeys | src/otel-collector/exporter/azureblobexporter/parquet_marshaller.go:209-216 | with unique keys, every attribute appears in the map with its own text |
| ParquetMarshaller.AttributesToMap | src/otel-collector/exporter/azureblobexporter/parquet_marshaller.go:209-216 | the range loop builds the flattened map |
| ParquetMarshaller.MarshalToParquet | src/otel-collector/exporter/azureblobexporter/parquet_marshaller.go:399-419 | zero rows give empty bytes and no error without consulting the writer; otherwise the encoder's bytes on success, a write error wrapped as "failed to write parquet data: ", a close error as "failed to close parquet writer: " |
| ParquetMarshaller.SpanRowOf | src/otel-collector/exporter/azureblobexporter/parquet_marshaller.go:93-112 | the parent span id column is empty exactly when the span has no parent |
| ParquetMarshaller.AppendSpanRows | src/otel-collector/exporter/azureblobexporter/parquet_marshaller.go:90-114 | the span loop appends the scope's rows, in order, after the rows already gathered |
| ParquetMarshaller.MarshalTraces | src/otel-collector/exporter/azureblobexporter/parquet_marshaller.go:78-119 | the nested loops produce one row per span in resource, scope, span order and hand them to the writer |
| ParquetMarshaller.ScopeSpansRowCount | src/otel-collector/exporter/azureblobexporter/parquet_marshaller.go:85-115 | the rows of a resource's scopes number its spans |
| ParquetMarshaller.ResourceSpansRowCount | src/otel-collector/exporter/azureblobexporter/parquet_marshaller.go:81-116 | the rows of a list of resources number their spans |
| ParquetMarshaller.TraceRowCount | src/otel-collector/exporter/azureblobexporter/parquet_marshaller.go:78-119 | a trace batch gives exactly `SpanCount` rows |
| ParquetMarshaller.SpanRowInResource | src/otel-collector/exporter/azureblobexporter/parquet_marshaller.go:85-115 | span k of scope j sits right after the spans of the earlier scopes, with the resource's attributes and its scope's name and version |
| ParquetMarshaller.ResourceSpansRowInBatch | src/otel-collector/exporter/azureblobexporter/parquet_marshaller.go:81-116 | the rows of resource i follow the rows of all earlier resources |
| ParquetMarshaller.ResourceSpansRowOrigin | src/otel-collector/exporter/azureblobexporter/parquet_marshaller.go:85-115 | every row of a resource comes from one of its spans |
| ParquetMarshaller.TraceRowOrigin | src/otel-collector/exporter/azureblobexporter/parquet_marshaller.go:78-119 | every row comes from a span of the batch: no row is invented |
| ParquetMarshaller.TraceRowsCarryResourceAttribute | src/otel-collector/exporter/azureblobexporter/parquet_marshaller.go:83 | an attribute every resource carries appears, as text, in every span row |
| ParquetMarshaller.TracesWithoutSpansMarshalEmpty | src/otel-collector/exporter/azureblobexporter/parquet_marshaller.go:400-402 | a trace batch without spans marshals to empty bytes |
| ParquetMarshaller.LogRowOf | src/otel-collector/exporter/azureblobexporter/parquet_marshaller.go:136-159 | the trace and span id columns are empty exactly when the record's ids are |
| ParquetMarshaller.AppendLogRows | src/otel-collector/exporter/azureblobexporter/parquet_marshaller.go:133-161 | the record loop appends the scope's rows, in order |
| ParquetMarshaller.MarshalLogs | src/otel-collector/exporter/azureblobexporter/parquet_marshaller.go:121-166 | one row per log record, in resource, scope, record order, handed to the writer |
| ParquetMarshaller.ScopeLogsRowCount | src/otel-collector/exporter/azureblobexporter/parquet_marshaller.go:128-163 | the rows of a resource's scopes number its log records |
| ParquetMarshaller.ResourceLogsRowCount | src/otel-collector/exporter/azureblobexporter/parquet_marshaller.go:124-164 | the rows of a list of resources number their log records |
| ParquetMarshaller.LogRowCount | src/otel-collector/exporter/azureblobexporter/parquet_marshaller.go:121-166 | a log batch gives exactly `LogRecordCount` rows |
| ParquetMarshaller.LogRowInResource | src/otel-collector/exporter/azureblobexporter/parquet_marshaller.go:128-163 | record k of scope j sits right after the records of the earlier scopes, with its resource's and scope's columns |
| ParquetMarshaller.ResourceLogsRowInBatch | src/otel-collector/exporter/azureblobexporter/parquet_marshaller.go:124-164 | the rows of resource i follow the rows of all earlier resources |
| ParquetMarshaller.ResourceLogsRowOrigin | src/otel-collector/exporter/azureblobexporter/parquet_marshaller.go:128-163 | every row of a resource comes from one of its log records |
| ParquetMarshaller.LogRowOrigin | src/otel-collector/exporter/azureblobexporter/parquet_marshaller.go:121-166 | every row comes from a log record of the batch |
| ParquetMarshaller.LogsWithoutRecordsMarshalEmpty | src/otel-collector/exporter/azureblobexporter/parquet_marshaller.go:400-402 | a log batch without records marshals to empty bytes |
| ParquetMarshaller.TemporalityName | src/otel-collector/exporter/azureblobexporter/parquet_marshaller.go:255-261 | "delta" and "cumulative" exactly for those temporalities; "unspecified" for every other value |
| ParquetMarshaller.ExtractGaugeMetrics | src/otel-collector/exporter/azureblobexporter/parquet_marshaller.go:218-249 | the loop yields the gauge's rows, one per data point |
| ParquetMarshaller.ExtractSumMetrics | src/otel-collector/exporter/azureblobexporter/parquet_marshaller.go:251-293 | the loop yields the sum's rows, one per data point, with its temporality and monotonicity |
| ParquetMarshaller.ExtractHistogramMetrics | src/otel-collector/exporter/azureblobexporter/parquet_marshaller.go:295-331 | the loop yields the histogram's rows, one per data point |
| ParquetMarshaller.ExtractSummaryMetrics | src/otel-collector/exporter/azureblobexporter/parquet_marshaller.go:333-360 | the loop yields the summary's rows, one per data point |
| ParquetMarshaller.ExtractExponentialHistogramMetrics | src/otel-collector/exporter/azureblobexporter/parquet_marshaller.go:362-397 | the loop yields the exponential histogram's rows, one per data point |
| ParquetMarshaller.AppendScopeMetricsRows | src/otel-collector/exporter/azureblobexporter/parquet_marshaller.go:180-196 | the metric loop with its type switch appends each metric's rows in order; a metric of no known type adds none |
| ParquetMarshaller.MarshalMetrics | src/otel-collector/exporter/azureblobexporter/parquet_marshaller.go:168-201 | one row per data point, in resource, scope, metric, point order, handed to the writer |
| ParquetMarshaller.RowsOfMetricCount | src/otel-collector/exporter/azureblobexporter/parquet_marshaller.go:184-195 | a metric gives as many rows as it has data points |
| ParquetMarshaller.MetricRowIdentity | src/otel-collector/exporter/azureblobexporter/parquet_marshaller.go:224-234 | every row of a metric carries its name, description, unit and type name, and the resource and scope columns; a gauge row has no start time |
| ParquetMarshaller.NumberRowValue | src/otel-collector/exporter/azureblobexporter/parquet_marshaller.go:236-243 | a gauge or sum row has type "int" exactly for int points and "double" exactly for double points, fills only that point's value column (both left empty for a point with no value), and carries the point's own attributes |
| ParquetMarshaller.DistributionRowValue | src/otel-collector/exporter/azureblobexporter/parquet_marshaller.go:295-331 | histogram, exponential histogram and summary rows are "double" rows holding the point's sum, with the point's own attributes |
| ParquetMarshaller.MetricRowTemporality | src/otel-collector/exporter/azureblobexporter/parquet_marshaller.go:251-331 | only a monotonic sum gives monotonic rows; sum, histogram and exponential histogram rows name their temporality; gauge and summary rows leave it empty |
| ParquetMarshaller.MetricGroupsRowCount | src/otel-collector/exporter/azureblobexporter/parquet_marshaller.go:180-196 | the rows of a scope's metrics number their data points |
| ParquetMarshaller.ScopeMetricsRowCount | src/otel-collector/exporter/azureblobexporter/parquet_marshaller.go:175-197 | the rows of a resource's scopes number their data points |
| ParquetMarshaller.ResourceMetricsRowCount | src/otel-collector/exporter/azureblobexporter/parquet_marshaller.go:171-198 | the rows of a list of resources number their data points |
| ParquetMarshaller.MetricsRowCount | src/otel-collector/exporter/azureblobexporter/parquet_marshaller.go:168-201 | a metrics batch gives exactly `DataPointCount` rows |
| ParquetMarshaller.MetricRowInScope | src/otel-collector/exporter/azureblobexporter/parquet_marshaller.go:180-196 | point p of metric k sits right after the points of the earlier metrics |
| ParquetMarshaller.ScopeMetricsRowInResource | src/otel-collector/exporter/azureblobexporter/parquet_marshaller.go:175-197 | the rows of scope j follow the rows of the earlier scopes |
| ParquetMarshaller.ResourceMetricsRowInBatch | src/otel-collector/exporter/azureblobexporter/parquet_marshaller.go:171-198 | the rows of resource i follow the rows of all earlier resources |
| ParquetMarshaller.ScopeMetricsRowOrigin | src/otel-collector/exporter/azureblobexporter/parquet_marshaller.go:180-196 | every row of a scope is a data point of one of its metrics |
| ParquetMarshaller.ResourceMetricsRowOrigin | src/otel-collector/exporter/azureblobexporter/parquet_marshaller.go:175-197 | every row of a resource is a data point of one of its metrics |
| ParquetMarshaller.MetricRowOrigin | src/otel-collector/exporter/azureblobexporter/parquet_marshaller.go:168-201 | every row comes from a data point of the batch |
| ParquetMarshaller.MetricsWithoutPointsMarshalEmpty | src/otel-collector/exporter/azureblobexporter/parquet_marshaller.go:400-402 | a metrics batch without data points marshals to empty bytes |
| TemplateFuncs.GetAttr | src/otel-collector/exporter/azureblobexporter/exporter.go:45-50 | a key is found exactly when some attribute has it, and the value is that of its first occurrence |
| TemplateFuncs.AttrValue | src/otel-collector/exporter/azureblobexporter/exporter.go:45-50 | `getAttrStandalone` returns nil exactly when the key is absent, and the raw value otherwise |
| TemplateFuncs.GetResourceSpanAttr | src/otel-collector/exporter/azureblobexporter/exporter.go:53-59 | nil for an empty batch, the attribute for an index in range, and a panic exactly for a non-empty batch with an index out of range |
| TemplateFuncs.GetResourceMetricAttr | src/otel-collector/exporter/azureblobexporter/exporter.go:60-66 | the same for metric batches |
| TemplateFuncs.GetResourceLogAttr | src/otel-collector/exporter/azureblobexporter/exporter.go:67-73 | the same for log batches |
| TemplateFuncs.GetScopeSpanAttr | src/otel-collector/exporter/azureblobexporter/exporter.go:74-83 | nil for an empty batch; the scope attribute along a valid path; a panic exactly when a non-empty resource or scope level is indexed out of range; nil in every other case off a valid path, which happens only at an empty level |
| TemplateFuncs.GetScopeMetricAttr | src/otel-collector/exporter/azureblobexporter/exporter.go:84-93 | the same for metric batches: panic exactly at a non-empty level indexed out of range, nil at an empty level |
| TemplateFuncs.GetScopeLogAttr | src/otel-collector/exporter/azureblobexporter/exporter.go:94-103 | the same for log batches: panic exactly at a non-empty level indexed out of range, nil at an empty level |
| TemplateFuncs.GetMetric | src/otel-collector/exporter/azureblobexporter/exporter.go:104-115 | the zero metric for an empty batch; the metric along a valid path; a panic exactly when a non-empty resource, scope or metric level is indexed out of range; the zero metric in every other case off a valid path |
| TemplateFuncs.GetSpan | src/otel-collector/exporter/azureblobexporter/exporter.go:116-127 | the same for spans: the span along a valid path, a panic exactly at a non-empty level indexed out of range, the zero span otherwise |
| TemplateFuncs.GetLogRecord | src/otel-collector/exporter/azureblobexporter/exporter.go:128-139 | the same for log records: the record along a valid path, a panic exactly at a non-empty level indexed out of range, the zero record otherwise |
| TemplateFuncs.ResourceIndexPastEndFails | src/otel-collector/exporter/azureblobexporter/exporter.go:53-59 | an illustration of `GetResourceSpanAttr`: with one resource, index 1 and index -1 both panic, because only emptiness is guarded |
| TemplateFuncs.Apply | src/otel-collector/exporter/azureblobexporter/exporter.go:52-140 | a lookup applied to a batch of another signal fails with a wrong-type error exactly then |
| TemplateFuncs.Execute | src/otel-collector/exporter/azureblobexporter/exporter.go:329-335 | template execution fails exactly when some action in it fails |
| TemplateFuncs.LiteralTemplateRenders | src/otel-collector/exporter/azureblobexporter/exporter.go:327-335 | a template of plain text renders to that text |
| TemplateFuncs.OutOfRangeResourceFails | src/otel-collector/exporter/azureblobexporter/exporter.go:53-59 | a template that looks up a resource past the end of a non-empty batch fails to execute |
| BlobExporter.NewMarshaller | src/otel-collector/exporter/azureblobexporter/exporter.go:191-202 | a marshaller exactly for json, proto and parquet, whose format is the one asked for; otherwise the unsupported-format error |
| BlobExporter.ValidConfigHasMarshaller | src/otel-collector/exporter/azureblobexporter/exporter.go:191-202 | a configuration that validates always gets a marshaller |
| BlobExporter.RandomInRange | src/otel-collector/exporter/azureblobexporter/exporter.go:187-189 | a value in `[low, hi)` exactly when the range is non-empty; a panic otherwise |
| BlobExporter.RandomInRangeCoversRange | src/otel-collector/exporter/azureblobexporter/exporter.go:187-189 | every value of the range can be drawn |
| BlobExporter.Ext | src/otel-collector/exporter/azureblobexporter/exporter.go:367 | the extension is a suffix that starts with `.` and has no further `.` or `/`; it is empty only when the last path element has no dot |
| BlobExporter.TrimSuffix | src/otel-collector/exporter/azureblobexporter/exporter.go:368 | the suffix is removed when present, and the string is unchanged otherwise |
| BlobExporter.ExtSplit | src/otel-collector/exporter/azureblobexporter/exporter.go:367-368 | the layout without its extension, followed by the extension, is the layout |
| BlobExporter.ChosenPattern | src/otel-collector/exporter/azureblobexporter/exporter.go:324-360 | the template's output when templates are enabled, parsed and execute; the static layout in every other case |
| BlobExporter.GenerateBlobName | src/otel-collector/exporter/azureblobexporter/exporter.go:318-377 | an error exactly for an unsupported signal; a panic exactly for a range that is not positive; otherwise the chosen layout with a serial in `[0, range)` |
| BlobExporter.TemplateFailureFallsBack | src/otel-collector/exporter/azureblobexporter/exporter.go:329-335 | a template that fails to execute gives the same name as having no template |
| BlobExporter.TemplatesDisabledIgnored | src/otel-collector/exporter/azureblobexporter/exporter.go:327 | with templates disabled, parsed templates change nothing |
| BlobExporter.OutOfRangeLookupUsesStaticName | src/otel-collector/exporter/azureblobexporter/exporter.go:349-360 | a trace template that looks up a resource out of range falls back to the static name |
| BlobExporter.SerialNameBeforeExtension | src/otel-collector/exporter/azureblobexporter/exporter.go:365-370 | with the serial before the extension the name is exactly the formatted layout without its extension, `_`, the serial's digits, then the extension |
| BlobExporter.SerialNameAtEnd | src/otel-collector/exporter/azureblobexporter/exporter.go:371-374 | otherwise the name is exactly the formatted layout, `_` and the serial's digits |
| BlobExporter.SerialNameInjective | src/otel-collector/exporter/azureblobexporter/exporter.go:365-374 | for a fixed layout and time, different serials give different names |
| BlobExporter.ZeroSerialRangePanics | src/otel-collector/exporter/azureblobexporter/exporter.go:369 | a configuration with serial range 0 passes validation, yet every supported signal panics when named |
| BlobExporter.Utf8 | src/otel-collector/exporter/azureblobexporter/exporter.go:435 | an ASCII separator gives one byte per character, its code; never fewer bytes than characters |
| BlobExporter.Utf8Char | src/otel-collector/exporter/azureblobexporter/exporter.go:435 | one byte below 0x80, otherwise two, three or four bytes by code point range, with the lead byte announcing the length and continuation bytes in 0x80-0xBF |
| BlobExporter.Utf8Append | src/otel-collector/exporter/azureblobexporter/exporter.go:435 | the bytes of a concatenation are the bytes of its parts in order |
| BlobExporter.AppendPayload | src/otel-collector/exporter/azureblobexporter/exporter.go:432-436 | the payload is unchanged at the front and the separator's bytes follow it; no separator leaves the payload alone |
| BlobExporter.ConsumeData | src/otel-collector/exporter/azureblobexporter/exporter.go:413-454 | the naming error and panic pass through and nothing is uploaded; otherwise exactly one request to the signal's container under the generated name, an append with separator or a block upload, and success exactly when the storage call succeeds |
| BlobExporter.ConsumeBatch | src/otel-collector/exporter/azureblobexporter/exporter.go:383-411 | a marshal error is reported for the signal before any naming; otherwise `consumeData` on the marshalled bytes |
| BlobExporter.MarshalledBatchIsUploaded | src/otel-collector/exporter/azureblobexporter/exporter.go:383-411 | through the three entry points the unsupported-signal error cannot occur: a marshalled batch with a positive serial range is always uploaded to its signal's container, successfully exactly when the storage call succeeds |
| BlobExporter.AppendsWithNewlineAreDelimited | src/otel-collector/exporter/azureblobexporter/exporter.go:432-437 | two appends with a newline separator store each payload followed by a newline |
| BlobExporter.CredentialFor | src/otel-collector/exporter/azureblobexporter/exporter.go:213-293 | a credential exactly for the five credential-based authentication types |
| BlobExporter.ClientFor | src/otel-collector/exporter/azureblobexporter/exporter.go:213-293 | a connection string gives a client from it; credential types give a client for the configured URL; any other type gives none |
| BlobExporter.ConnectError | src/otel-collector/exporter/azureblobexporter/exporter.go:213-293 | an unsupported type gives the unsupported-authentication error; a connection string fails exactly with its SDK error; a credential type fails first on the credential, then on the client, each with its type's wording, and succeeds when both succeed |
| BlobExporter.UnsupportedAuthPassesValidateFailsStart | src/otel-collector/exporter/azureblobexporter/exporter.go:291-293 | every type outside the known six, with a URL and a supported format, passes validation, yet `start` fails with "unsupported authentication type: " and the type |
| BlobExporter.Exporter.constructor | src/otel-collector/exporter/azureblobexporter/exporter.go:178-185 | a new exporter holds its configuration, with no marshaller, no client and no templates |
| BlobExporter.Exporter.Start | src/otel-collector/exporter/azureblobexporter/exporter.go:204-316 | the marshaller error stops everything; a client error leaves the client unset; otherwise the client is built and, when enabled, the templates are parsed |
| BlobExporter.Exporter.ParseTemplates | src/otel-collector/exporter/azureblobexporter/exporter.go:297-313 | metrics, logs and traces templates are parsed in order; the first failure is reported, and the templates after it are not touched |
| TrustGateway.RawAttributes | processor/trustgatewayprocessor/processor.go:118-130 | the map has exactly the attribute keys, each with the value of its last occurrence |
| TrustGateway.CollectAttributes | processor/trustgatewayprocessor/processor.go:123-126 | the range loop builds that map |
| TrustGateway.ExtractAttributes | processor/trustgatewayprocessor/processor.go:118-130 | a `pcommon.Map` fails the type assertion and gives an empty map; a value of the asserted interface gives its attributes |
| TrustGateway.FirstMissing | processor/trustgatewayprocessor/processor.go:84-88 | none is missing exactly when all headers are present; otherwise the first missing one in list order |
| TrustGateway.AttributeCheckPassesIff | processor/trustgatewayprocessor/processor.go:83-114 | the attributes pass exactly when every required header is present and, with keys configured, the API key is a listed string |
| TrustGateway.FirstMissingHeaderReported | processor/trustgatewayprocessor/processor.go:84-88 | the first missing header is the one reported, before any API key check |
| TrustGateway.CheckAttributes | processor/trustgatewayprocessor/processor.go:83-114 | the two loops return the attribute check's verdict and message |
| TrustGateway.ValidateTelemetryAsWritten | processor/trustgatewayprocessor/processor.go:53-115 | the validator as written: the verdict on the empty map that `extractAttributes` returns |
| TrustGateway.ValidateTelemetry | processor/trustgatewayprocessor/processor.go:53-115 | the validator on the first resource's own attributes |
| TrustGateway.NoRulesAcceptAll | processor/trustgatewayprocessor/processor.go:55-58 | with no rules configured, every batch passes |
| TrustGateway.EmptyBatchRejected | processor/trustgatewayprocessor/processor.go:63-81 | with a rule, a batch without resources, or of an unknown kind, is rejected |
| TrustGateway.OnlyFirstResourceConsulted | processor/trustgatewayprocessor/processor.go:63-78 | batches whose first resources agree get the same verdict |
| TrustGateway.ValidationPassesIff | processor/trustgatewayprocessor/processor.go:53-115 | with the intended extraction, a batch passes exactly when its first resource carries the required headers and a listed API key |
| TrustGateway.AsWrittenRejectsEverything | processor/trustgatewayprocessor/processor.go:118-130 | as written, once any rule is configured no batch passes |
| TrustGateway.DefaultConfigRejectsAuthenticatedTraces | processor/trustgatewayprocessor/processor.go:118-130 | under the default configuration a trace batch carrying `X-App-Token` is rejected as written and accepted by the corrected validator |
| TrustGateway.ProcessTraces | processor/trustgatewayprocessor/processor.go:19-27 | the error is always nil; a valid batch passes through unchanged and an invalid one becomes an empty batch |
| TrustGateway.ProcessMetrics | processor/trustgatewayprocessor/processor.go:30-38 | the same for metrics |
| TrustGateway.ProcessLogs | processor/trustgatewayprocessor/processor.go:41-49 | the same for logs |
| TrustGateway.ProcessedTracesInputOrEmpty | processor/trustgatewayprocessor/processor.go:19-27 | the output is the input or holds no span |
| TrustGateway.ProcessTracesIdempotent | processor/trustgatewayprocessor/processor.go:19-27 | processing an output again changes nothing |

## Left out

- The Azure SDK is not modelled. Client and credential construction failures are inputs (`AzureSdk`), and the storage call's result is an input (`uploadError`).
- The Parquet writer and its Snappy compression are not modelled. Their outcome is the `encode` parameter of `MarshalToParquet`.
- The JSON and proto marshallers are not modelled; only their format names are.
- The wall clock (`time.Now().Format`) is the `formatTime` parameter, and `rand.IntN` is drawn from the `entropy` parameter.
- The template engine's printing of values is the `render` parameter.
- The template language is reduced to text and single lookup actions. Parsing is the `parse` parameter of `Start`.
- Floating-point values are kept as their 64-bit patterns, with no arithmetic.
- `AsString` of doubles, byte slices, maps and slices is carried as text already formatted (`AnyValue.Other`).
- Logging (`zap`) is not modelled; the warning on template fallback is one such log call.
- Go panics are modelled as outcomes (`NamePanicked`, `ExportPanicked`, `CallFailed`) rather than as unwinding.
- Utf8: a character is encoded by code point range; surrogate code points, which Go replaces by U+FFFD, are not distinguished.
- `Capabilities`, the factories and the retry and queue settings of the exporter helper are not modelled; they only wire the component into the collector.
- The processor's `Config.Validate` always returns nil and is not modelled.
- `TrustGateway.ProcessTraces`, `TrustGateway.ProcessMetrics` and `TrustGateway.ProcessLogs` use the corrected validator (see Findings). `TrustGateway.ValidateTelemetryAsWritten` models the code as written.

Behaviour of the code worth noting:

- The template lookups guard only against an empty level. An index out of range in a non-empty batch panics; template execution turns the panic into an error, and `generateBlobName` falls back to the static layout (`OutOfRangeLookupUsesStaticName`).
- The append separator is written after each payload, not before it (`AppendsWithNewlineAreDelimited`). Two appends of `A` and `B` with `"\n"` store `A\nB\n`.
- An authentication type outside the known six passes `Validate` and only fails in `start` (`UnsupportedAuthPassesValidateFailsStart`).
- A serial range of 0 passes `Validate` but makes naming panic (`ZeroSerialRangePanics`).

## Findings

| source | as written | input that shows it | evidently intended | confidence | as-written member | corrected member |
|---|---|---|---|---|---|---|
| processor/trustgatewayprocessor/processor.go:118-130 | `extractAttributes` type-asserts its argument to a `Range` whose callback takes `interface{}` values. A `pcommon.Map`'s `Range` callback takes `pcommon.Value`, so the assertion fails and the map is always empty. With any rule configured, every batch is rejected. | the default configuration (required header `X-App-Token`) and a trace batch whose resource carries `X-App-Token` | the first resource's attributes, keyed by name, are checked: the batch passes | not executed | TrustGateway.AsWrittenRejectsEverything | TrustGateway.ValidationPassesIff |

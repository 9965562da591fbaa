/** The Azure Blob exporter's configuration and its `Validate` check. The
    retry settings and the encoding-extension overrides are carried by the
    configuration but read by nothing modelled here, so they are omitted. */
module ExporterConfig {
  import opened Wrappers
  import opened GoTypes

  /** `AuthType` is a Go string type: any string can be configured. */
  type AuthType = string

  const ConnectionString: AuthType := "connection_string"
  const SystemManagedIdentity: AuthType := "system_managed_identity"
  const UserManagedIdentity: AuthType := "user_managed_identity"
  const ServicePrincipal: AuthType := "service_principal"
  const WorkloadIdentity: AuthType := "workload_identity"
  const DefaultCredentials: AuthType := "default_credentials"

  const FormatJson: string := "json"
  const FormatProto: string := "proto"
  const FormatParquet: string := "parquet"

  datatype Authentication = Authentication(
    authType: AuthType,
    tenantId: string,
    clientId: string,
    clientSecret: string,
    connectionString: string,
    federatedTokenFile: string)

  /** Container names per signal. */
  datatype TelemetryConfig = TelemetryConfig(logs: string, metrics: string, traces: string)

  datatype BlobNameFormat = BlobNameFormat(
    metricsFormat: string,
    logsFormat: string,
    tracesFormat: string,
    serialNumRange: Int64,
    serialNumBeforeExtension: bool,
    templateEnabled: bool,
    params: map<string, string>)

  datatype AppendBlob = AppendBlob(enabled: bool, separator: string)

  datatype Config = Config(
    url: string,
    container: TelemetryConfig,
    auth: Authentication,
    blobNameFormat: BlobNameFormat,
    formatType: string,
    appendBlob: AppendBlob)

  /** The errors `Validate` returns, one per check; `Message` is the text
      of the Go error. */
  datatype ConfigError =
    | UrlRequired
    | ConnectionStringRequired
    | ServicePrincipalFieldsRequired
    | UserManagedIdentityClientIdRequired
    | WorkloadIdentityFieldsRequired
    | UnknownFormat(formatType: string)
  {
    function Message(): string
    {
      match this
      case UrlRequired => "url cannot be empty when auth type is not connection_string"
      case ConnectionStringRequired => "connection_string cannot be empty when auth type is connection_string"
      case ServicePrincipalFieldsRequired => "tenant_id, client_id and client_secret cannot be empty when auth type is service-principal"
      case UserManagedIdentityClientIdRequired => "client_id cannot be empty when auth type is user_managed_identity"
      case WorkloadIdentityFieldsRequired => "tenant_id, client_id and federated_token_file cannot be empty when auth type is workload_identity"
      case UnknownFormat(f) => "unknown format type: " + f
    }
  }

  predicate IsSupportedFormat(formatType: string)
  {
    formatType == FormatJson || formatType == FormatProto || formatType == FormatParquet
  }

  /** The per-variant field check of `Validate`'s switch. Variants without a
      case (system and default credentials, and any unrecognised string)
      have no fields to check. */
  function AuthFieldsError(auth: Authentication): (err: Option<ConfigError>)
    ensures auth.authType == ConnectionString ==>
      (err.Some? <==> auth.connectionString == "")
    ensures auth.authType == ServicePrincipal ==>
      (err.Some? <==> auth.tenantId == "" || auth.clientId == "" || auth.clientSecret == "")
    ensures auth.authType == UserManagedIdentity ==>
      (err.Some? <==> auth.clientId == "")
    ensures auth.authType == WorkloadIdentity ==>
      (err.Some? <==> auth.tenantId == "" || auth.clientId == "" || auth.federatedTokenFile == "")
    ensures auth.authType !in {ConnectionString, ServicePrincipal, UserManagedIdentity, WorkloadIdentity} ==>
      err == None
    ensures err.Some? ==> !err.value.UrlRequired? && !err.value.UnknownFormat?
  {
    if auth.authType == ConnectionString then
      if auth.connectionString == "" then Some(ConnectionStringRequired) else None
    else if auth.authType == ServicePrincipal then
      if auth.tenantId == "" || auth.clientId == "" || auth.clientSecret == "" then Some(ServicePrincipalFieldsRequired) else None
    else if auth.authType == UserManagedIdentity then
      if auth.clientId == "" then Some(UserManagedIdentityClientIdRequired) else None
    else if auth.authType == WorkloadIdentity then
      if auth.tenantId == "" || auth.clientId == "" || auth.federatedTokenFile == "" then Some(WorkloadIdentityFieldsRequired) else None
    else None
  }

  /** `Config.Validate`: None is Go's nil. */
  function Validate(c: Config): (err: Option<ConfigError>)
    // the URL is needed by every variant but connection_string
    ensures c.url == "" && c.auth.authType != ConnectionString ==> err == Some(UrlRequired)
    ensures c.auth.authType == ConnectionString && c.auth.connectionString != "" && IsSupportedFormat(c.formatType) ==>
      err == None
    // the per-variant fields are checked only once the URL check passed
    ensures (c.url != "" || c.auth.authType == ConnectionString) && AuthFieldsError(c.auth).Some? ==>
      err == AuthFieldsError(c.auth)
    // the format is checked last
    ensures err == Some(UnknownFormat(c.formatType)) <==>
      (c.url != "" || c.auth.authType == ConnectionString) && AuthFieldsError(c.auth).None? && !IsSupportedFormat(c.formatType)
    ensures err == None <==>
      (c.url != "" || c.auth.authType == ConnectionString) && AuthFieldsError(c.auth).None? && IsSupportedFormat(c.formatType)
  {
    if c.url == "" && c.auth.authType != ConnectionString then Some(UrlRequired)
    else if AuthFieldsError(c.auth).Some? then AuthFieldsError(c.auth)
    else if !IsSupportedFormat(c.formatType) then Some(UnknownFormat(c.formatType))
    else None
  }

  /** Every check `Validate` makes, each contributing its message when it
      fails, in the order the source lists them. */
  function FailedChecks(c: Config): seq<ConfigError>
  {
    (if c.url == "" && c.auth.authType != ConnectionString then [UrlRequired] else [])
    + (match AuthFieldsError(c.auth) case Some(e) => [e] case None => [])
    + (if !IsSupportedFormat(c.formatType) then [UnknownFormat(c.formatType)] else [])
  }

  /** The first failing check wins, and only a configuration that fails no
      check is accepted. */
  lemma ValidateReportsFirstFailure(c: Config)
    ensures Validate(c) == if FailedChecks(c) == [] then None else Some(FailedChecks(c)[0])
  {
  }

  /** A service principal without a client secret is refused, whatever the
      other fields hold (URL, tenant, client id, format). */
  lemma ServicePrincipalNeedsSecret(c: Config)
    requires c.auth.authType == ServicePrincipal && c.auth.clientSecret == ""
    ensures Validate(c).Some?
  {
  }

  /** An unrecognised auth type passes `Validate` whenever the URL and
      format are fine: only `start` rejects it. */
  lemma UnknownAuthTypePassesValidate(c: Config)
    requires c.auth.authType !in {ConnectionString, SystemManagedIdentity, UserManagedIdentity, ServicePrincipal, WorkloadIdentity, DefaultCredentials}
    requires c.url != "" && IsSupportedFormat(c.formatType)
    ensures Validate(c) == None
  {
  }
}

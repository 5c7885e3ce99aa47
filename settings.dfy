/** The Azure Monitor datasource options record, its normalisation by
    `ConfigEditor.keyFill` and the two credential checks of the editor. */
module Settings {
  import opened Js

  /** The plain settings (`jsonData`) the editor reads or writes; every other
      key of the object is kept in `others`, which the editor never touches. */
  datatype JsonData = JsonData(
    cloudName: Option<string>,
    tenantId: Option<string>,
    clientId: Option<string>,
    logAnalyticsTenantId: Option<string>,
    logAnalyticsClientId: Option<string>,
    appInsightsAppId: Option<string>,
    azureLogAnalyticsSameAs: Option<bool>,
    subscriptionId: Option<string>,
    logAnalyticsSubscriptionId: Option<string>,
    logAnalyticsDefaultWorkspace: Option<string>,
    others: map<string, string>)

  /** `secureJsonData`: new secret values by key. A key can be an own property
      whose value is `undefined`, hence the inner Option. */
  type SecretValues = map<string, Option<string>>

  /** `secureJsonFields`: for each key, whether the server already stores that secret. */
  type SecretFlags = map<string, bool>

  /** The datasource options object handed to the editor by the host. */
  datatype DataSourceSettings = DataSourceSettings(
    id: Option<int>,
    jsonData: JsonData,
    secureJsonData: Option<SecretValues>,
    secureJsonFields: Option<SecretFlags>)

  const DefaultCloudName: string := "azuremonitor"
  const ClientSecret: string := "clientSecret"
  const LogAnalyticsClientSecret: string := "logAnalyticsClientSecret"
  const AppInsightsApiKey: string := "appInsightsApiKey"

  /** The secret keys keyFill makes sure `secureJsonData` has. */
  function SecretKeys(): set<string>
  {
    {ClientSecret, LogAnalyticsClientSecret, AppInsightsApiKey}
  }

  /** The `secureJsonFields` object keyFill creates when there is none:
      two flags, not three. */
  function InitialSecretFlags(): SecretFlags
  {
    map[ClientSecret := false, LogAnalyticsClientSecret := false]
  }

  /** The two integrations whose credentials the editor checks. */
  datatype Integration = AzureMonitor | LogAnalytics

  function ClientIdOf(kind: Integration, j: JsonData): Option<string>
  {
    match kind
    case AzureMonitor => j.clientId
    case LogAnalytics => j.logAnalyticsClientId
  }

  function TenantIdOf(kind: Integration, j: JsonData): Option<string>
  {
    match kind
    case AzureMonitor => j.tenantId
    case LogAnalytics => j.logAnalyticsTenantId
  }

  function SecretKeyOf(kind: Integration): string
  {
    match kind
    case AzureMonitor => ClientSecret
    case LogAnalytics => LogAnalyticsClientSecret
  }

  /** The subscription-id field each integration's subscription fetch defaults. */
  function SubscriptionIdOf(kind: Integration, j: JsonData): Option<string>
  {
    match kind
    case AzureMonitor => j.subscriptionId
    case LogAnalytics => j.logAnalyticsSubscriptionId
  }

  function WithSubscriptionId(kind: Integration, j: JsonData, v: Option<string>): JsonData
  {
    match kind
    case AzureMonitor => j.(subscriptionId := v)
    case LogAnalytics => j.(logAnalyticsSubscriptionId := v)
  }

  /** Both secret objects exist, so the credential checks can dereference them. */
  predicate SecretsPresent(s: DataSourceSettings)
  {
    s.secureJsonData.Some? && s.secureJsonFields.Some?
  }

  /** What keyFill establishes: the six string settings defined (the cloud
      name non-empty), the shared-credentials flag on for a record without an
      id, the three secret keys present and a `secureJsonFields` object. */
  predicate Normalised(s: DataSourceSettings)
  {
    && Truthy(s.jsonData.cloudName)
    && s.jsonData.tenantId.Some?
    && s.jsonData.clientId.Some?
    && s.jsonData.logAnalyticsTenantId.Some?
    && s.jsonData.logAnalyticsClientId.Some?
    && s.jsonData.appInsightsAppId.Some?
    && (!NonZero(s.id) ==> IsTrue(s.jsonData.azureLogAnalyticsSameAs))
    && SecretsPresent(s)
    && SecretKeys() <= s.secureJsonData.value.Keys
  }

  /** `after` is what `before || fallback` leaves in a string setting. */
  predicate FilledFrom(before: Option<string>, after: Option<string>, fallback: string)
  {
    && after.Some?
    && (Truthy(before) ==> after == before)
    && (!Truthy(before) ==> after.value == fallback)
  }

  /** Adds `key` with an empty value unless it is already an own property. */
  function AddMissing(m: SecretValues, key: string): (r: SecretValues)
    ensures r.Keys == m.Keys + {key}
    ensures forall k :: k in m ==> r[k] == m[k]
    ensures key !in m ==> r[key] == Some("")
  {
    if key in m then m else m[key := Some("")]
  }

  /** keyFill's defaults for `jsonData`: the six string settings, and the
      shared-credentials flag forced on for a record without an id. */
  function FilledJsonData(id: Option<int>, j: JsonData): (r: JsonData)
    ensures FilledFrom(j.cloudName, r.cloudName, DefaultCloudName)
    ensures FilledFrom(j.tenantId, r.tenantId, "")
    ensures FilledFrom(j.clientId, r.clientId, "")
    ensures FilledFrom(j.logAnalyticsTenantId, r.logAnalyticsTenantId, "")
    ensures FilledFrom(j.logAnalyticsClientId, r.logAnalyticsClientId, "")
    ensures FilledFrom(j.appInsightsAppId, r.appInsightsAppId, "")
    ensures !NonZero(id) ==> r.azureLogAnalyticsSameAs == Some(true)
    ensures NonZero(id) ==> r.azureLogAnalyticsSameAs == j.azureLogAnalyticsSameAs
    ensures r.subscriptionId == j.subscriptionId
    ensures r.logAnalyticsSubscriptionId == j.logAnalyticsSubscriptionId
    ensures r.logAnalyticsDefaultWorkspace == j.logAnalyticsDefaultWorkspace
    ensures r.others == j.others
  {
    j.(cloudName := Some(Or(j.cloudName, DefaultCloudName)),
       tenantId := Some(Or(j.tenantId, "")),
       clientId := Some(Or(j.clientId, "")),
       logAnalyticsTenantId := Some(Or(j.logAnalyticsTenantId, "")),
       logAnalyticsClientId := Some(Or(j.logAnalyticsClientId, "")),
       appInsightsAppId := Some(Or(j.appInsightsAppId, "")),
       azureLogAnalyticsSameAs := if NonZero(id) then j.azureLogAnalyticsSameAs else Some(true))
  }

  /** keyFill's defaults for `secureJsonData`: the object is created when
      missing and each of the three keys added with an empty value unless it
      is already an own property, whatever its value. */
  function FilledSecretValues(secrets: Option<SecretValues>): (r: SecretValues)
    ensures secrets.Some? ==> r.Keys == secrets.value.Keys + SecretKeys()
    ensures secrets.None? ==> r.Keys == SecretKeys()
    ensures secrets.Some? ==> forall k :: k in secrets.value ==> r[k] == secrets.value[k]
    ensures forall k :: k in r && (secrets.None? || k !in secrets.value) ==> r[k] == Some("")
  {
    var m := if secrets.Some? then secrets.value else map[];
    AddMissing(AddMissing(AddMissing(m, ClientSecret), LogAnalyticsClientSecret), AppInsightsApiKey)
  }

  /** keyFill as a function of the record it is given. */
  function KeyFilled(s: DataSourceSettings): (r: DataSourceSettings)
    ensures Normalised(r)
    ensures r.id == s.id
    ensures r.jsonData == FilledJsonData(s.id, s.jsonData)
    ensures r.secureJsonData == Some(FilledSecretValues(s.secureJsonData))
    // presence flags: created with two flags only when absent, otherwise left as found
    ensures s.secureJsonFields.Some? ==> r.secureJsonFields == s.secureJsonFields
    ensures s.secureJsonFields.None? ==> r.secureJsonFields == Some(InitialSecretFlags())
  {
    DataSourceSettings(
      s.id,
      FilledJsonData(s.id, s.jsonData),
      Some(FilledSecretValues(s.secureJsonData)),
      if s.secureJsonFields.Some? then s.secureJsonFields else Some(InitialSecretFlags()))
  }

  /** A record keyFill has already normalised is a fixed point of keyFill. */
  lemma KeyFilledFixesNormalised(s: DataSourceSettings)
    requires Normalised(s)
    ensures KeyFilled(s) == s
  {
  }

  /** keyFill is idempotent. */
  lemma KeyFilledIdempotent(s: DataSourceSettings)
    ensures KeyFilled(KeyFilled(s)) == KeyFilled(s)
  {
  }

  /** keyFill does not complete an existing `secureJsonFields`, and the one it
      creates has no `appInsightsApiKey` flag. */
  lemma KeyFilledLeavesPresenceFlagsIncomplete(s: DataSourceSettings)
    requires s.secureJsonFields.None? || s.secureJsonFields == Some(map[])
    ensures AppInsightsApiKey !in KeyFilled(s).secureJsonFields.value
  {
  }

  /** The credential rule shared by both integrations: a secret stored on the
      server or a new one entered, and a client id and a tenant id. This is the
      reference form that the two source-shaped checks below are proved equal to. */
  predicate CredentialsComplete(kind: Integration, s: DataSourceSettings)
    requires SecretsPresent(s)
  {
    var key := SecretKeyOf(kind);
    && ((key in s.secureJsonFields.value && s.secureJsonFields.value[key])
        || (key in s.secureJsonData.value && Truthy(s.secureJsonData.value[key])))
    && Truthy(ClientIdOf(kind, s.jsonData))
    && Truthy(TenantIdOf(kind, s.jsonData))
  }

  /** Whether a flag in `secureJsonFields` is truthy (a missing key is `undefined`). */
  predicate FlagSet(flags: SecretFlags, key: string)
  {
    key in flags && flags[key]
  }

  /** Whether a value in `secureJsonData` is truthy. */
  predicate SecretEntered(secrets: SecretValues, key: string)
  {
    key in secrets && Truthy(secrets[key])
  }

  /** `hasNecessaryCredentials`, with the source's two early returns. */
  function HasNecessaryCredentials(s: DataSourceSettings): (r: bool)
    requires SecretsPresent(s)
    ensures r == CredentialsComplete(AzureMonitor, s)
  {
    if !FlagSet(s.secureJsonFields.value, ClientSecret) && !SecretEntered(s.secureJsonData.value, ClientSecret) then
      false
    else if !Truthy(s.jsonData.clientId) || !Truthy(s.jsonData.tenantId) then
      false
    else
      true
  }

  /** `logAnalyticsHasNecessaryCredentials`, with the source's two early returns. */
  function LogAnalyticsHasNecessaryCredentials(s: DataSourceSettings): (r: bool)
    requires SecretsPresent(s)
    ensures r == CredentialsComplete(LogAnalytics, s)
  {
    if !FlagSet(s.secureJsonFields.value, LogAnalyticsClientSecret)
       && !SecretEntered(s.secureJsonData.value, LogAnalyticsClientSecret) then
      false
    else if !Truthy(s.jsonData.logAnalyticsClientId) || !Truthy(s.jsonData.logAnalyticsTenantId) then
      false
    else
      true
  }

  /** The check each integration's subscription fetch starts with. */
  function HasCredentials(kind: Integration, s: DataSourceSettings): (r: bool)
    requires SecretsPresent(s)
    ensures r == CredentialsComplete(kind, s)
  {
    match kind
    case AzureMonitor => HasNecessaryCredentials(s)
    case LogAnalytics => LogAnalyticsHasNecessaryCredentials(s)
  }

  /** The options object, which keyFill updates in place field by field. */
  class Options {
    var id: Option<int>
    var jsonData: JsonData
    var secureJsonData: Option<SecretValues>
    var secureJsonFields: Option<SecretFlags>

    /** The record this object currently holds. */
    function Value(): DataSourceSettings
      reads this
    {
      DataSourceSettings(id, jsonData, secureJsonData, secureJsonFields)
    }

    constructor (s: DataSourceSettings)
      ensures Value() == s
    {
      id := s.id;
      jsonData := s.jsonData;
      secureJsonData := s.secureJsonData;
      secureJsonFields := s.secureJsonFields;
    }

    /** `ConfigEditor.keyFill`: fills in defaults on this object. */
    method KeyFill()
      modifies this
      ensures Value() == KeyFilled(old(Value()))
    {
      jsonData := jsonData.(cloudName := Some(Or(jsonData.cloudName, DefaultCloudName)));
      jsonData := jsonData.(tenantId := Some(Or(jsonData.tenantId, "")));
      jsonData := jsonData.(clientId := Some(Or(jsonData.clientId, "")));
      jsonData := jsonData.(logAnalyticsTenantId := Some(Or(jsonData.logAnalyticsTenantId, "")));
      jsonData := jsonData.(logAnalyticsClientId := Some(Or(jsonData.logAnalyticsClientId, "")));
      jsonData := jsonData.(appInsightsAppId := Some(Or(jsonData.appInsightsAppId, "")));

      if !NonZero(id) {
        jsonData := jsonData.(azureLogAnalyticsSameAs := Some(true));
      }

      if secureJsonData.None? {
        secureJsonData := Some(map[]);
      }
      if ClientSecret !in secureJsonData.value {
        secureJsonData := Some(secureJsonData.value[ClientSecret := Some("")]);
      }
      if LogAnalyticsClientSecret !in secureJsonData.value {
        secureJsonData := Some(secureJsonData.value[LogAnalyticsClientSecret := Some("")]);
      }
      if AppInsightsApiKey !in secureJsonData.value {
        secureJsonData := Some(secureJsonData.value[AppInsightsApiKey := Some("")]);
      }

      if secureJsonFields.None? {
        secureJsonFields := Some(InitialSecretFlags());
      }
    }
  }
}

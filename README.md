# Azure Monitor datasource settings editor

A model of the logic inside Grafana's Azure Monitor `ConfigEditor`
(`public/app/plugins/datasource/grafana-azure-monitor-datasource/ConfigEditor.tsx`):

- `keyFill`, which normalises a possibly partial datasource options object in
  place: string settings fall back through JavaScript `||`, the
  shared-credentials flag is forced on for a record without an id, and the
  secret objects are created when missing;
- the two credential checks, `hasNecessaryCredentials` and
  `logAnalyticsHasNecessaryCredentials`;
- the subscription and workspace fetches, with the remote lists as inputs:
  `{value, text}` entries become `{value, label}` options, and the selected
  subscription id / default workspace default to the first entry fetched;
- the order of `init`.

Files:

- `js.dfy` (module `Js`): JavaScript properties that may be missing
  (`Option`), truthiness, and `x || fallback` on strings.
- `settings.dfy` (module `Settings`): the options record, `KeyFilled` (keyFill
  as a function) and its parts, the `Options` class whose `KeyFill` method
  updates the object field by field and is proved equal to `KeyFilled`, and the
  credential predicates.
- `editor.dfy` (module `Editor`): the option lists, the subscription, workspace
  and init steps as functions over an `EditorState` value, and the
  `ConfigEditor` class whose methods are proved equal to those steps.

Modelling choices:

- A string setting is `Option<string>`, truthy when present and non-empty. The
  shared-credentials flag is `Option<bool>`, truthy when `Some(true)`. The
  datasource id is `Option<int>`, truthy when present and non-zero.
- `secureJsonData` maps each own property to `Option<string>`: keyFill's
  `hasOwnProperty` test sees a key whose value is `undefined`, while the
  credential checks treat that value as falsy.
- The remote clients are inputs: each subscription step takes the list the
  remote call would return (`None` for a falsy result, read as `[]` as the
  source's `|| []` does), and the workspace step takes the remote call as a
  function of the log-analytics subscription id it is made with.
- `onOptionsChange` is modelled as the host adopting the new options object at
  once; `getDerivedStateFromProps` then passes it through keyFill again, which
  `KeyFilledFixesNormalised` shows changes nothing. `setState` takes effect
  before the next step of `init`.

keyFill creates `secureJsonFields` with only `clientSecret` and
`logAnalyticsClientSecret` (ConfigEditor.tsx:80-85) and never adds a missing
key to an existing one (`KeyFilledLeavesPresenceFlagsIncomplete`).

## Model

| member | source | states |
|---|---|---|
| `Settings.FilledJsonData` | public/app/plugins/datasource/grafana-azure-monitor-datasource/ConfigEditor.tsx:53-62 | the cloud name becomes `azuremonitor` when absent or empty and is kept otherwise; the five id settings are defined afterwards, a non-empty value kept and an absent or empty one made `''`; the shared-credentials flag becomes `true` when the id is falsy and is untouched otherwise; every other `jsonData` field is untouched |
| `Settings.FilledSecretValues` | public/app/plugins/datasource/grafana-azure-monitor-datasource/ConfigEditor.tsx:64-78 | `secureJsonData` ends with exactly its old keys plus the three secret keys; every key already present keeps its value, even an empty or undefined one; only missing keys are added, with `''` |
| `Settings.KeyFilled` | public/app/plugins/datasource/grafana-azure-monitor-datasource/ConfigEditor.tsx:52-88 | the result is normalised; the id is kept; `secureJsonFields` is created as `{clientSecret: false, logAnalyticsClientSecret: false}` only when absent and is otherwise left as found |
| `Settings.Options.KeyFill` | public/app/plugins/datasource/grafana-azure-monitor-datasource/ConfigEditor.tsx:52-88 | the in-place, field-by-field update leaves the object holding exactly `KeyFilled` of what it held before |
| `Settings.KeyFilledFixesNormalised` | public/app/plugins/datasource/grafana-azure-monitor-datasource/ConfigEditor.tsx:45-50 | keyFill changes nothing on a record it has already normalised, so re-running it on every props update is harmless |
| `Settings.KeyFilledIdempotent` | public/app/plugins/datasource/grafana-azure-monitor-datasource/ConfigEditor.tsx:52-88 | applying keyFill twice gives the same record as applying it once |
| `Settings.KeyFilledLeavesPresenceFlagsIncomplete` | public/app/plugins/datasource/grafana-azure-monitor-datasource/ConfigEditor.tsx:80-85 | when `secureJsonFields` is absent or empty, keyFill leaves it without an `appInsightsApiKey` flag |
| `Settings.HasNecessaryCredentials` | public/app/plugins/datasource/grafana-azure-monitor-datasource/ConfigEditor.tsx:103-113 | true iff (the client secret is stored or a non-empty one was entered) and the client id and tenant id are both non-empty |
| `Settings.LogAnalyticsHasNecessaryCredentials` | public/app/plugins/datasource/grafana-azure-monitor-datasource/ConfigEditor.tsx:115-128 | the same rule over the log-analytics secret, client id and tenant id |
| `Settings.HasCredentials` | public/app/plugins/datasource/grafana-azure-monitor-datasource/ConfigEditor.tsx:149-152 | the guard each subscription fetch starts with is the shared credential rule applied to that integration's fields |
| `Editor.ToSelectable` | public/app/plugins/datasource/grafana-azure-monitor-datasource/ConfigEditor.tsx:157-162 | the option list has the fetched list's length and order, each option keeping the entry's value and taking its text as label |
| `Editor.DefaultSubscription` | public/app/plugins/datasource/grafana-azure-monitor-datasource/ConfigEditor.tsx:164-171 | with no options nothing changes; an id already set is never overwritten; an unset id becomes the first option's value; no other field changes |
| `Editor.SubscriptionStep` | public/app/plugins/datasource/grafana-azure-monitor-datasource/ConfigEditor.tsx:149-204 | without sufficient credentials, or with an empty fetched list, the state is unchanged; a normalised record stays normalised |
| `Editor.SubscriptionStepDefaults` | public/app/plugins/datasource/grafana-azure-monitor-datasource/ConfigEditor.tsx:156-203 | on a normalised record a fetch with credentials and a non-empty list sets the integration's subscription id to the existing non-empty id or else the first entry's value, stores the option list for that integration, and changes nothing else; otherwise nothing changes |
| `Editor.FirstSubscriptionSelected` | public/app/plugins/datasource/grafana-azure-monitor-datasource/ConfigEditor.tsx:149-175 | with tenant id, client id and a stored secret, and no subscription selected, fetching `[{value: 'sub1', text: 'Sub One'}]` selects `sub1` and lists one option labelled `Sub One` |
| `Editor.WorkspaceStep` | public/app/plugins/datasource/grafana-azure-monitor-datasource/ConfigEditor.tsx:206-234 | a no-op unless (shared credentials and some subscription) or some log-analytics subscription; otherwise, with a non-empty result, stores the workspace options and defaults an unset default workspace to the first one; a set default is kept; nothing but the default workspace and the workspace list changes |
| `Editor.InitSequence` | public/app/plugins/datasource/grafana-azure-monitor-datasource/ConfigEditor.tsx:93-101 | the three steps in order keep the record normalised and its id unchanged |
| `Editor.InitOrder` | public/app/plugins/datasource/grafana-azure-monitor-datasource/ConfigEditor.tsx:93-101 | with the shared-credentials flag set, init is the primary subscription step then the workspace step; without it, the log-analytics subscription step runs between them |
| `Editor.InitKeepsSelections` | public/app/plugins/datasource/grafana-azure-monitor-datasource/ConfigEditor.tsx:93-101 | init never overwrites a subscription id, log-analytics subscription id or default workspace that is already set |
| `Editor.ConfigEditor.constructor` | public/app/plugins/datasource/grafana-azure-monitor-datasource/ConfigEditor.tsx:22-43 | the host's options object is normalised in place and stays normalised; without an id it is the editor's config, the lists are empty and the state is `KeyFilled` of the given record; with an id the state is what `InitSequence` gives from there, and the config is that object or one the host adopted |
| `Editor.ConfigEditor.GetSubscriptions` | public/app/plugins/datasource/grafana-azure-monitor-datasource/ConfigEditor.tsx:149-204 | reports whether the remote call is made (exactly when the credentials suffice) and leaves the editor in the state `SubscriptionStep` gives |
| `Editor.ConfigEditor.GetWorkspaces` | public/app/plugins/datasource/grafana-azure-monitor-datasource/ConfigEditor.tsx:206-234 | reports whether the remote call is made (exactly when the guard allows), updates the same options object in place, and leaves the editor in the state `WorkspaceStep` gives |
| `Editor.ConfigEditor.Init` | public/app/plugins/datasource/grafana-azure-monitor-datasource/ConfigEditor.tsx:93-101 | leaves the editor in the state `InitSequence` gives |

## Left out

- `render` and the sub-forms it composes: presentation only.
- React plumbing: the constructor's `onOptionsChange` call, `onConfigUpdate`,
  and re-renders; `getDerivedStateFromProps` appears only as keyFill re-run on
  the object the host adopts after a subscription step.
- `onLoadSubscriptions`: an HTTP save followed by fetches that are not awaited.
  It would bump `version` by one before refetching; the model has no `version`.
- The proxy URL built from the id: host wiring.
- The remote clients `AzureMonitorDatasource` and `AzureLogAnalyticsDatasource`
  are not part of this model; their results are inputs.
- Rejected fetches: the source has no handling, so a failure would abort the
  rest of `init`; the model covers only fetches that complete.
- Asynchrony: `init` is modelled as completing its steps in order. The real
  constructor returns before they finish.
- Non-string values in string settings, a `secureJsonData` that is an own
  property holding `null`, and a missing `jsonData` object (all of which make
  the source throw or behave by JavaScript coercion) are outside the types used.
- A falsy result from the workspace fetch: unlike the subscription fetches,
  `getWorkspaces` has no `|| []`, so `.map` would throw; the workspace input is
  a list, so the model covers only fetches that return one.
- A `secureJsonFields` own property holding `null` or `undefined`: keyFill's
  `hasOwnProperty` test leaves it in place and both credential checks would
  then throw; `secureJsonFields` is either absent or a map in the model.

/** The Azure Monitor `ConfigEditor`: it fetches the subscription and
    workspace lists once credentials allow, and defaults the selected
    subscription and workspace to the first entry fetched. The remote lists
    are inputs of the model. */
module Editor {
  import opened Js
  import opened Settings

  /** An entry as the remote clients return it. */
  datatype RemoteEntry = RemoteEntry(value: string, text: string)

  /** An entry as the dropdowns show it (`caption` is its `label` property). */
  datatype SelectableValue = SelectableValue(value: string, caption: string)

  /** `list.map(e => ({ value: e.value, label: e.text }))`. */
  function ToSelectable(entries: seq<RemoteEntry>): (r: seq<SelectableValue>)
    ensures |r| == |entries|
    ensures forall i :: 0 <= i < |entries| ==> r[i].value == entries[i].value && r[i].caption == entries[i].text
  {
    if entries == [] then []
    else [SelectableValue(entries[0].value, entries[0].text)] + ToSelectable(entries[1..])
  }

  /** `(await fetch) || []`: a missing list reads as empty. */
  function OrEmpty(fetched: Option<seq<RemoteEntry>>): seq<RemoteEntry>
  {
    if fetched.Some? then fetched.value else []
  }

  /** The `jsonData` a subscription fetch hands to the host: the integration's
      subscription id defaults to the first option when the list is non-empty. */
  function DefaultSubscription(kind: Integration, j: JsonData, options: seq<SelectableValue>): (r: JsonData)
    ensures |options| == 0 ==> r == j
    ensures Truthy(SubscriptionIdOf(kind, j)) ==> r == j
    ensures |options| > 0 && !Truthy(SubscriptionIdOf(kind, j)) ==> SubscriptionIdOf(kind, r) == Some(options[0].value)
    ensures WithSubscriptionId(kind, r, SubscriptionIdOf(kind, j)) == j
  {
    if |options| > 0 then WithSubscriptionId(kind, j, Some(Or(SubscriptionIdOf(kind, j), options[0].value)))
    else j
  }

  /** The editor's state: the options record and the three fetched lists. */
  datatype EditorState = EditorState(
    config: DataSourceSettings,
    subscriptions: seq<SelectableValue>,
    logAnalyticsSubscriptions: seq<SelectableValue>,
    logAnalyticsWorkspaces: seq<SelectableValue>)

  function SubscriptionsOf(kind: Integration, st: EditorState): seq<SelectableValue>
  {
    match kind
    case AzureMonitor => st.subscriptions
    case LogAnalytics => st.logAnalyticsSubscriptions
  }

  function WithSubscriptions(kind: Integration, st: EditorState, options: seq<SelectableValue>): EditorState
  {
    match kind
    case AzureMonitor => st.(subscriptions := options)
    case LogAnalytics => st.(logAnalyticsSubscriptions := options)
  }

  /** `getSubscriptions` (kind AzureMonitor) and `getLogAnalyticsSubscriptions`
      (kind LogAnalytics), given what the remote call would return. The host
      adopts the new options object, which is then passed through keyFill again. */
  function SubscriptionStep(kind: Integration, st: EditorState, fetched: Option<seq<RemoteEntry>>): (r: EditorState)
    requires SecretsPresent(st.config)
    ensures Normalised(st.config) ==> Normalised(r.config)
    ensures !HasCredentials(kind, st.config) ==> r == st
    ensures HasCredentials(kind, st.config) && |OrEmpty(fetched)| == 0 ==> r == st
  {
    if !HasCredentials(kind, st.config) then st
    else
      var options := ToSelectable(OrEmpty(fetched));
      if |options| > 0 then
        var next := st.config.(jsonData := DefaultSubscription(kind, st.config.jsonData, options));
        WithSubscriptions(kind, st.(config := KeyFilled(next)), options)
      else st
  }

  /** The guard of `getWorkspaces`: shared credentials with at least one
      subscription, or at least one log-analytics subscription. */
  predicate WorkspaceFetchAllowed(st: EditorState)
  {
    (IsTrue(st.config.jsonData.azureLogAnalyticsSameAs) && |st.subscriptions| > 0)
    || |st.logAnalyticsSubscriptions| > 0
  }

  /** `getWorkspaces`, given the remote call as a function of the subscription
      id it is made with. */
  function WorkspaceStep(st: EditorState, workspacesFor: Option<string> -> seq<RemoteEntry>): (r: EditorState)
    ensures !WorkspaceFetchAllowed(st) ==> r == st
    ensures r.subscriptions == st.subscriptions && r.logAnalyticsSubscriptions == st.logAnalyticsSubscriptions
    ensures r.config == st.config.(jsonData := st.config.jsonData.(
      logAnalyticsDefaultWorkspace := r.config.jsonData.logAnalyticsDefaultWorkspace))
    ensures Truthy(st.config.jsonData.logAnalyticsDefaultWorkspace) ==> r.config == st.config
    ensures
      var ws := workspacesFor(st.config.jsonData.logAnalyticsSubscriptionId);
      WorkspaceFetchAllowed(st) && |ws| > 0 ==>
        && r.logAnalyticsWorkspaces == ToSelectable(ws)
        && (!Truthy(st.config.jsonData.logAnalyticsDefaultWorkspace) ==>
              r.config.jsonData.logAnalyticsDefaultWorkspace == Some(ws[0].value))
    ensures
      WorkspaceFetchAllowed(st) && |workspacesFor(st.config.jsonData.logAnalyticsSubscriptionId)| == 0 ==> r == st
  {
    if !WorkspaceFetchAllowed(st) then st
    else
      var j := st.config.jsonData;
      var workspaces := ToSelectable(workspacesFor(j.logAnalyticsSubscriptionId));
      if |workspaces| > 0 then
        var j' := j.(logAnalyticsDefaultWorkspace := Some(Or(j.logAnalyticsDefaultWorkspace, workspaces[0].value)));
        st.(config := st.config.(jsonData := j'), logAnalyticsWorkspaces := workspaces)
      else st
  }

  /** `init`: the primary subscriptions, then the log-analytics subscriptions
      unless the credentials are shared, then the workspaces. */
  function InitSequence(st: EditorState, primary: Option<seq<RemoteEntry>>, logAnalytics: Option<seq<RemoteEntry>>,
                        workspacesFor: Option<string> -> seq<RemoteEntry>): (r: EditorState)
    requires Normalised(st.config)
    ensures Normalised(r.config)
    ensures r.config.id == st.config.id
  {
    var afterPrimary := SubscriptionStep(AzureMonitor, st, primary);
    var afterLogAnalytics :=
      if IsTrue(afterPrimary.config.jsonData.azureLogAnalyticsSameAs) then afterPrimary
      else SubscriptionStep(LogAnalytics, afterPrimary, logAnalytics);
    WorkspaceStep(afterLogAnalytics, workspacesFor)
  }

  /** On a normalised record a subscription fetch changes at most the
      integration's subscription id and its list; an id already set is kept. */
  lemma SubscriptionStepDefaults(kind: Integration, st: EditorState, fetched: Option<seq<RemoteEntry>>)
    requires Normalised(st.config)
    ensures var r := SubscriptionStep(kind, st, fetched);
      var options := ToSelectable(OrEmpty(fetched));
      var id := SubscriptionIdOf(kind, st.config.jsonData);
      && r.config == st.config.(jsonData := WithSubscriptionId(kind, st.config.jsonData, SubscriptionIdOf(kind, r.config.jsonData)))
      && r.logAnalyticsWorkspaces == st.logAnalyticsWorkspaces
      && (if HasCredentials(kind, st.config) && |options| > 0 then
            && SubscriptionIdOf(kind, r.config.jsonData) == (if Truthy(id) then id else Some(options[0].value))
            && SubscriptionsOf(kind, r) == options
            && r == WithSubscriptions(kind, st, options).(config := r.config)
          else r == st)
  {
  }

  /** The order of `init`: with shared credentials the log-analytics
      subscription fetch is skipped, otherwise it runs between the other two. */
  lemma InitOrder(st: EditorState, primary: Option<seq<RemoteEntry>>, logAnalytics: Option<seq<RemoteEntry>>,
                  workspacesFor: Option<string> -> seq<RemoteEntry>)
    requires Normalised(st.config)
    ensures IsTrue(st.config.jsonData.azureLogAnalyticsSameAs) ==>
      InitSequence(st, primary, logAnalytics, workspacesFor)
        == WorkspaceStep(SubscriptionStep(AzureMonitor, st, primary), workspacesFor)
    ensures !IsTrue(st.config.jsonData.azureLogAnalyticsSameAs) ==>
      InitSequence(st, primary, logAnalytics, workspacesFor)
        == WorkspaceStep(SubscriptionStep(LogAnalytics, SubscriptionStep(AzureMonitor, st, primary), logAnalytics), workspacesFor)
  {
  }

  /** `init` never overwrites a subscription id or default workspace that is already set. */
  lemma InitKeepsSelections(st: EditorState, primary: Option<seq<RemoteEntry>>, logAnalytics: Option<seq<RemoteEntry>>,
                            workspacesFor: Option<string> -> seq<RemoteEntry>)
    requires Normalised(st.config)
    ensures var r := InitSequence(st, primary, logAnalytics, workspacesFor);
      && (Truthy(st.config.jsonData.subscriptionId) ==> r.config.jsonData.subscriptionId == st.config.jsonData.subscriptionId)
      && (Truthy(st.config.jsonData.logAnalyticsSubscriptionId) ==>
            r.config.jsonData.logAnalyticsSubscriptionId == st.config.jsonData.logAnalyticsSubscriptionId)
      && (Truthy(st.config.jsonData.logAnalyticsDefaultWorkspace) ==>
            r.config.jsonData.logAnalyticsDefaultWorkspace == st.config.jsonData.logAnalyticsDefaultWorkspace)
  {
    var afterPrimary := SubscriptionStep(AzureMonitor, st, primary);
    SubscriptionStepDefaults(AzureMonitor, st, primary);
    if !IsTrue(afterPrimary.config.jsonData.azureLogAnalyticsSameAs) {
      SubscriptionStepDefaults(LogAnalytics, afterPrimary, logAnalytics);
    }
  }

  /** An existing record with a primary tenant id, client id and a stored
      client secret, whose subscription list holds one entry, selects that
      subscription and lists it under its display text. */
  lemma FirstSubscriptionSelected(st: EditorState, tenantId: string, clientId: string)
    requires Normalised(st.config)
    requires st.config.jsonData.tenantId == Some(tenantId) && tenantId != ""
    requires st.config.jsonData.clientId == Some(clientId) && clientId != ""
    requires st.config.secureJsonFields.value == map[ClientSecret := true]
    requires !Truthy(st.config.jsonData.subscriptionId)
    ensures var r := SubscriptionStep(AzureMonitor, st, Some([RemoteEntry("sub1", "Sub One")]));
      && r.config.jsonData.subscriptionId == Some("sub1")
      && r.subscriptions == [SelectableValue("sub1", "Sub One")]
  {
  }

  /** The editor component: its state and the options object it edits. */
  class ConfigEditor {
    var config: Options
    var subscriptions: seq<SelectableValue>
    var logAnalyticsSubscriptions: seq<SelectableValue>
    var logAnalyticsWorkspaces: seq<SelectableValue>

    function State(): EditorState
      reads this, config
    {
      EditorState(config.Value(), subscriptions, logAnalyticsSubscriptions, logAnalyticsWorkspaces)
    }

    /** The editor always works on a record keyFill has normalised. */
    ghost predicate Valid()
      reads this, config
    {
      Normalised(config.Value())
    }

    /** The constructor: keyFill on the host's options object in place, empty
        lists, and `init` when the record has an id. */
    constructor (options: Options, primary: Option<seq<RemoteEntry>>, logAnalytics: Option<seq<RemoteEntry>>,
                 workspacesFor: Option<string> -> seq<RemoteEntry>)
      modifies options
      ensures Valid()
      ensures Normalised(options.Value())
      ensures config == options || fresh(config)
      ensures !NonZero(old(options.id)) ==> config == options
      ensures var start := EditorState(KeyFilled(old(options.Value())), [], [], []);
        State() == if NonZero(old(options.id)) then InitSequence(start, primary, logAnalytics, workspacesFor) else start
    {
      options.KeyFill();
      config := options;
      subscriptions := [];
      logAnalyticsSubscriptions := [];
      logAnalyticsWorkspaces := [];
      new;
      if NonZero(options.id) {
        Init(primary, logAnalytics, workspacesFor);
      }
    }

    /** `getSubscriptions` / `getLogAnalyticsSubscriptions`. */
    method GetSubscriptions(kind: Integration, fetched: Option<seq<RemoteEntry>>) returns (called: bool)
      requires Valid()
      modifies this
      ensures Valid()
      ensures config == old(config) || fresh(config)
      ensures called == HasCredentials(kind, old(config.Value()))
      ensures State() == SubscriptionStep(kind, old(State()), fetched)
    {
      called := HasCredentials(kind, config.Value());
      if !called {
        return;
      }
      var options := ToSelectable(OrEmpty(fetched));
      if |options| > 0 {
        var next := new Options(config.Value().(jsonData := DefaultSubscription(kind, config.jsonData, options)));
        next.KeyFill();
        config := next;
        match kind
        case AzureMonitor => subscriptions := options;
        case LogAnalytics => logAnalyticsSubscriptions := options;
      }
    }

    /** `getWorkspaces`: updates the default workspace on the options object in place. */
    method GetWorkspaces(workspacesFor: Option<string> -> seq<RemoteEntry>) returns (called: bool)
      requires Valid()
      modifies this, config
      ensures config == old(config)
      ensures Valid()
      ensures called == WorkspaceFetchAllowed(old(State()))
      ensures State() == WorkspaceStep(old(State()), workspacesFor)
    {
      var sameAs := IsTrue(config.jsonData.azureLogAnalyticsSameAs) && |subscriptions| > 0;
      if !sameAs && |logAnalyticsSubscriptions| == 0 {
        return false;
      }
      called := true;
      var workspaces := ToSelectable(workspacesFor(config.jsonData.logAnalyticsSubscriptionId));
      if |workspaces| > 0 {
        config.jsonData := config.jsonData.(
          logAnalyticsDefaultWorkspace := Some(Or(config.jsonData.logAnalyticsDefaultWorkspace, workspaces[0].value)));
        logAnalyticsWorkspaces := workspaces;
      }
    }

    /** `init`. */
    method Init(primary: Option<seq<RemoteEntry>>, logAnalytics: Option<seq<RemoteEntry>>,
                workspacesFor: Option<string> -> seq<RemoteEntry>)
      requires Valid()
      modifies this, config
      ensures Valid()
      ensures config == old(config) || fresh(config)
      ensures Normalised(old(config).Value())
      ensures State() == InitSequence(old(State()), primary, logAnalytics, workspacesFor)
    {
      var _ := GetSubscriptions(AzureMonitor, primary);
      if !IsTrue(config.jsonData.azureLogAnalyticsSameAs) {
        var _ := GetSubscriptions(LogAnalytics, logAnalytics);
      }
      var _ := GetWorkspaces(workspacesFor);
    }
  }
}

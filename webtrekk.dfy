/**
 * The tracker object: initialisation, the activity counter, building and gating requests,
 * and the single-flight trigger of the request processor.
 */
module Tracker {
  import opened Wrappers
  import opened TrackingParameter
  import opened Configuration
  import opened Preferences
  import opened Sampling
  import opened RequestStore
  import opened RequestBuilder

  datatype Hook = BeforeRequest | AfterRequest

  /** One invocation of a plugin hook on a request. */
  datatype PluginCall = PluginCall(plugin: string, hook: Hook, request: Params)

  /** One call of `hook` on every plugin, in registration order. */
  function HookCalls(plugins: seq<string>, hook: Hook, request: Params): (calls: seq<PluginCall>)
    ensures |calls| == |plugins|
    ensures forall i :: 0 <= i < |plugins| ==> calls[i] == PluginCall(plugins[i], hook, request)
  {
    if plugins == [] then []
    else HookCalls(plugins[..|plugins| - 1], hook, request) + [PluginCall(plugins[|plugins| - 1], hook, request)]
  }

  /** The IllegalStateExceptions of the activity calls. */
  datatype TrackerError = NotInitialized | NoActivityStarted

  /** Why `initWebtrekk` fails. */
  datatype InitError =
    | ConfigurationFailed(reason: ConfigurationError)
    | InvalidMaximumRequests(maxRequests: int)

  /** What initialisation takes from the device and the application package. */
  datatype Environment = Environment(
    configurationString: Option<string>,          // the unit-test override of the bundled text
    configurationResource: Option<string>,        // res/raw/webtrekk_config, None when it cannot be opened
    everId: string,                               // the stored ever-id
    everIdValue: int,                             // Long.valueOf(everId)
    firstStart: bool,                             // HelperFunctions.firstStart
    deviceParameter: Params,                      // depth, timezone, user agent, language
    autoCustomParameter: map<string, string>,     // the values initAutoCustomParameter collects
    plugins: seq<string>,                         // the plugins enabled by the configuration
    backupFile: Option<string>)                   // the backup file left by an earlier run

  class Webtrekk {
    /** The XML configuration parser. */
    const parse: Parser
    /** `TrackingRequest.getUrlString`. */
    const urlOf: (Params, TrackingConfiguration) -> string

    /** Whether a context was given; a second initialisation then returns at once. */
    var hasContext: bool
    var requestUrlStore: RequestUrlStore?
    var trackingConfiguration: Option<TrackingConfiguration>
    var isSampling: bool
    var isOptout: bool
    var plugins: seq<string>
    /** Every plugin hook invoked so far, in order. */
    var pluginCalls: seq<PluginCall>
    var currentActivityName: string
    var activityCount: nat
    /** A submitted request processor that is not done yet (`requestProcessorFuture`). */
    var requestInFlight: bool
    var globalTrackingParameter: Params
    var customParameter: map<string, string>
    var autoCustomParameter: map<string, string>
    var webtrekkParameter: Params
    var internalParameter: Params
    var preferences: SharedPreferences

    ghost predicate Valid()
      reads this, requestUrlStore
    {
      requestUrlStore != null ==> requestUrlStore.Valid() && trackingConfiguration.Some? && hasContext
    }

    /** The check `track`, `startActivity` and `stopActivity` start with. */
    predicate Initialized()
      reads this
    {
      requestUrlStore != null && trackingConfiguration.Some?
    }

    constructor (parse: Parser, urlOf: (Params, TrackingConfiguration) -> string, preferences: SharedPreferences)
      ensures Valid() && !hasContext && !Initialized() && requestUrlStore == null
      ensures this.parse == parse && this.urlOf == urlOf && this.preferences == preferences
      ensures trackingConfiguration == None && activityCount == 0 && !requestInFlight && pluginCalls == []
      ensures !isSampling && !isOptout && plugins == [] && currentActivityName == []
      ensures globalTrackingParameter == map[] && customParameter == map[] && autoCustomParameter == map[]
      ensures webtrekkParameter == map[] && internalParameter == map[]
    {
      this.parse := parse;
      this.urlOf := urlOf;
      this.preferences := preferences;
      hasContext := false;
      requestUrlStore := null;
      trackingConfiguration := None;
      isSampling, isOptout := false, false;
      plugins, pluginCalls := [], [];
      currentActivityName := [];
      activityCount := 0;
      requestInFlight := false;
      globalTrackingParameter := map[];
      customParameter, autoCustomParameter := map[], map[];
      webtrekkParameter, internalParameter := map[], map[];
    }

    // -------------------------------------------------------------------------
    // Initialisation

    /** `initTrackingConfiguration`: the bundled configuration, possibly replaced by a newer cached one. */
    method InitTrackingConfiguration(configurationString: Option<string>, resource: Option<string>)
      returns (r: Outcome<ConfigurationError>)
      modifies this`trackingConfiguration
      ensures var sel := SelectConfiguration(configurationString, resource, preferences.configuration, parse);
        && (r.Pass? <==> sel.Success?)
        && (sel.Success? ==> trackingConfiguration == Some(sel.value.configuration))
        && (sel.Failure? ==> r.error == sel.error)
        && (sel.Failure? && sel.error.InvalidConfiguration? ==> trackingConfiguration == Some(sel.error.configuration))
        && (sel.Failure? && !sel.error.InvalidConfiguration? ==> trackingConfiguration == old(trackingConfiguration))
    {
      var text := BundledText(configurationString, resource);
      if text.Failure? {
        return Fail(text.error);
      }
      var bundled := parse(text.value);
      if bundled.None? {
        return Fail(UnparsableConfiguration);
      }
      var active := ActiveConfiguration(bundled.value, preferences.configuration, parse);
      trackingConfiguration := Some(active);
      if !IsValidConfiguration(active) {
        return Fail(InvalidConfiguration(active));
      }
      return Pass;
    }

    /** `initOptedOut`: the stored opt-out flag, false when none is stored. */
    method InitOptedOut()
      modifies this`isOptout
      ensures isOptout == preferences.optedOut.GetOr(false)
    {
      isOptout := preferences.optedOut.GetOr(false);
    }

    /** `initSampling`: the cached decision when the rate is unchanged, otherwise a new one, stored. */
    method InitSampling(everIdValue: int)
      requires trackingConfiguration.Some?
      modifies this`isSampling, this`preferences
      ensures SamplingState(isSampling, preferences) == CachedSampling(old(preferences), trackingConfiguration.value.sampling, everIdValue)
    {
      var rate := trackingConfiguration.value.sampling;
      if preferences.isSampling.Some? {
        isSampling := preferences.isSampling.value;
        if preferences.sampling.GetOr(-1) == rate {
          return;
        }
      }
      isSampling := IsSampledOut(everIdValue, rate);
      preferences := preferences.(isSampling := Some(isSampling), sampling := Some(rate));
    }

    /** `initInternalParameter`: force a new session, and flag the first start of the app. */
    method InitInternalParameter(firstStart: bool)
      modifies this`internalParameter
      ensures internalParameter == old(internalParameter)[ForceNewSession := "1"][AppFirstStart := if firstStart then "1" else "0"]
    {
      internalParameter := internalParameter[ForceNewSession := "1"];
      if firstStart {
        internalParameter := internalParameter[AppFirstStart := "1"];
      } else {
        internalParameter := internalParameter[AppFirstStart := "0"];
      }
    }

    /**
     * The steps of `initWebtrekk` after the configuration: opt-out, sampling, internal
     * parameters, the static webtrekk parameters, automatic custom parameters, plugins.
     */
    method InitParameters(env: Environment)
      requires trackingConfiguration.Some?
      modifies this`isOptout, this`isSampling, this`preferences, this`internalParameter
      modifies this`webtrekkParameter, this`autoCustomParameter, this`plugins
      ensures ParametersInitialised(env)
    {
      InitOptedOut();
      InitSampling(env.everIdValue);
      InitInternalParameter(env.firstStart);
      // initWebtrekkParameter: the static device facts, the sampling rate and the ever-id
      webtrekkParameter := Add(webtrekkParameter, env.deviceParameter);
      webtrekkParameter := webtrekkParameter[SamplingRate := IntToString(trackingConfiguration.value.sampling)];
      webtrekkParameter := webtrekkParameter[EverId := env.everId];
      // initAutoCustomParameter and initPlugins
      autoCustomParameter := autoCustomParameter + env.autoCustomParameter;
      plugins := env.plugins;
    }

    /** What `InitParameters` leaves behind, relative to the state before it. */
    twostate predicate ParametersInitialised(env: Environment)
      reads this
      requires trackingConfiguration.Some?
    {
      var c := trackingConfiguration.value;
      && isOptout == old(preferences).optedOut.GetOr(false)
      && SamplingState(isSampling, preferences) == CachedSampling(old(preferences), c.sampling, env.everIdValue)
      && internalParameter == old(internalParameter)[ForceNewSession := "1"][AppFirstStart := if env.firstStart then "1" else "0"]
      && webtrekkParameter == Add(old(webtrekkParameter), env.deviceParameter)[SamplingRate := IntToString(c.sampling)][EverId := env.everId]
      && autoCustomParameter == old(autoCustomParameter) + env.autoCustomParameter
      && plugins == env.plugins
    }

    /** `initWebtrekk`'s last steps: the request store with the configured capacity, empty global parameters. */
    method InitRequestUrlStore(backup: Option<string>) returns (r: Outcome<InitError>)
      requires trackingConfiguration.Some?
      modifies this`requestUrlStore, this`globalTrackingParameter
      ensures var m := trackingConfiguration.value.maxRequests;
        && (m < 1 ==> r == Fail(InvalidMaximumRequests(m)) && unchanged(this))
        && (m >= 1 ==>
              && r == Pass && requestUrlStore != null && fresh(requestUrlStore) && requestUrlStore.Valid()
              && requestUrlStore.maximumRequests == m
              && requestUrlStore.requestList == [] && requestUrlStore.requestStoreFile == backup
              && globalTrackingParameter == map[])
    {
      var store := RequestUrlStore.Create(trackingConfiguration.value.maxRequests, backup);
      if store.None? {
        return Fail(InvalidMaximumRequests(trackingConfiguration.value.maxRequests));
      }
      requestUrlStore := store.value;
      globalTrackingParameter := map[];
      return Pass;
    }

    /** Nothing after `initTrackingConfiguration` ran: the state it would have set is as before. */
    twostate predicate LaterStepsSkipped()
      reads this
    {
      && isOptout == old(isOptout) && isSampling == old(isSampling) && preferences == old(preferences)
      && internalParameter == old(internalParameter) && webtrekkParameter == old(webtrekkParameter)
      && autoCustomParameter == old(autoCustomParameter) && plugins == old(plugins)
      && globalTrackingParameter == old(globalTrackingParameter)
    }

    /** `initWebtrekk`: runs once; a second call returns without doing anything. */
    method InitWebtrekk(env: Environment) returns (r: Outcome<InitError>)
      requires Valid() && (!hasContext ==> requestUrlStore == null)
      modifies this`hasContext, this`trackingConfiguration, this`isOptout, this`isSampling, this`preferences
      modifies this`internalParameter, this`webtrekkParameter, this`autoCustomParameter, this`plugins
      modifies this`requestUrlStore, this`globalTrackingParameter
      ensures Valid() && hasContext
      ensures old(hasContext) ==> r == Pass && unchanged(this)
      ensures !old(hasContext) ==>
        var sel := SelectConfiguration(env.configurationString, env.configurationResource, old(preferences).configuration, parse);
        && (sel.Failure? ==>
              && r == Fail(ConfigurationFailed(sel.error)) && requestUrlStore == null
              && trackingConfiguration ==
                   (if sel.error.InvalidConfiguration? then Some(sel.error.configuration) else old(trackingConfiguration))
              && LaterStepsSkipped())
        && (sel.Success? ==> trackingConfiguration == Some(sel.value.configuration) && ParametersInitialised(env))
        && (sel.Success? && sel.value.configuration.maxRequests < 1 ==>
              && r == Fail(InvalidMaximumRequests(sel.value.configuration.maxRequests)) && requestUrlStore == null
              && globalTrackingParameter == old(globalTrackingParameter))
        && (sel.Success? && sel.value.configuration.maxRequests >= 1 ==>
              && r == Pass && Initialized() && fresh(requestUrlStore)
              && requestUrlStore.maximumRequests == sel.value.configuration.maxRequests
              && requestUrlStore.requestList == [] && requestUrlStore.requestStoreFile == env.backupFile
              && globalTrackingParameter == map[])
    {
      if hasContext {
        return Pass;
      }
      hasContext := true;
      var configured := InitTrackingConfiguration(env.configurationString, env.configurationResource);
      if configured.Fail? {
        return Fail(ConfigurationFailed(configured.error));
      }
      InitParameters(env);
      r := InitRequestUrlStore(env.backupFile);
    }

    // -------------------------------------------------------------------------
    // Building and gating requests

    /** The tracker state a request is built from. */
    function Context(): RequestContext
      reads this, requestUrlStore
      requires Initialized()
    {
      RequestContext(currentActivityName, webtrekkParameter, globalTrackingParameter, trackingConfiguration.value,
                     internalParameter, customParameter, autoCustomParameter, |requestUrlStore.requestList|)
    }

    /** `updateDynamicParameter`: orientation, connection and queue size; the current resolution. */
    method UpdateDynamicParameter(facts: DynamicFacts)
      requires Initialized()
      modifies this`autoCustomParameter, this`webtrekkParameter
      ensures autoCustomParameter == DynamicAutoCustomParameter(old(Context()), facts)
      ensures webtrekkParameter == DynamicWebtrekkParameter(old(Context()), facts)
    {
      autoCustomParameter := autoCustomParameter["screenOrientation" := facts.orientation];
      autoCustomParameter := autoCustomParameter["connectionType" := facts.connection];
      autoCustomParameter := autoCustomParameter["requestUrlStoreSize" := NatToString(requestUrlStore.Size())];
      webtrekkParameter := webtrekkParameter[ScreenResolution := facts.resolution];
    }

    /** The action branch of `createTrackingRequest`: nothing of the tracker's state changes. */
    method ActionRequest(tp: Params, facts: DynamicFacts) returns (request: Params)
      requires Initialized() && ActionName in tp
      ensures request == Overlay(ActionLayers(Context(), tp, facts))
    {
      request := map[ActivityName := currentActivityName];
      request := request[Timestamp := facts.timestamp];
      var device: Params := map[];
      if ScreenResolution in webtrekkParameter {
        device := device[ScreenResolution := webtrekkParameter[ScreenResolution]];
      }
      if ScreenDepth in webtrekkParameter {
        device := device[ScreenDepth := webtrekkParameter[ScreenDepth]];
      }
      if UserAgent in webtrekkParameter {
        device := device[UserAgent := webtrekkParameter[UserAgent]];
      }
      assert device == ActionFacts(webtrekkParameter);
      request := Add(Add(request, device), tp);
      OverlayOfThree(BaseLayer(currentActivityName, facts), device, tp);
    }

    /** The configured parameters of the current activity, then its mapping name as the activity name. */
    method AddActivityConfiguration(p: Params) returns (q: Params)
      requires Initialized()
      ensures q == Add(Add(p, ActivityLayer(Context())), MappingLayer(Context()))
    {
      q := p;
      var configured := trackingConfiguration.value;
      if currentActivityName in configured.activityConfigurations {
        var activityConfiguration := configured.activityConfigurations[currentActivityName];
        q := Add(q, activityConfiguration.activityTrackingParameter);
        if activityConfiguration.mappingName.Some? {
          q := q[ActivityName := activityConfiguration.mappingName.value];
        } else {
          assert Add(q, map[]) == q;
        }
      } else {
        assert Add(Add(p, map[]), map[]) == p;
      }
    }

    /**
     * `createTrackingRequest`: an action request from the base layer, three device facts
     * and the call's parameters; otherwise the full override hierarchy and the custom mapping.
     */
    method CreateTrackingRequest(tp: Params, facts: DynamicFacts) returns (request: Params)
      requires Initialized()
      modifies this`webtrekkParameter, this`autoCustomParameter, this`customParameter
      ensures request == BuildRequest(old(Context()), tp, facts)
      ensures ActionName in tp ==> unchanged(this)
      ensures ActionName !in tp ==>
        && webtrekkParameter == DynamicWebtrekkParameter(old(Context()), facts)
        && autoCustomParameter == DynamicAutoCustomParameter(old(Context()), facts)
        && customParameter == CustomMapping(old(Context()), facts)
    {
      if ActionName in tp {
        request := ActionRequest(tp, facts);
        return;
      }
      ghost var ctx := Context();
      UpdateDynamicParameter(facts);
      var trackingParameter := LayeredParameter(tp, facts);
      assert trackingParameter == Overlay(FullLayers(ctx, tp, facts));
      customParameter := customParameter + autoCustomParameter;
      request := ApplyMapping(trackingParameter, customParameter);
    }

    /** The full branch's parameters: eight layers, each one overriding the ones before it. */
    method LayeredParameter(tp: Params, facts: DynamicFacts) returns (trackingParameter: Params)
      requires Initialized()
      ensures trackingParameter == Overlay([
        BaseLayer(currentActivityName, facts), webtrekkParameter, globalTrackingParameter,
        trackingConfiguration.value.globalTrackingParameter, tp,
        ActivityLayer(Context()), MappingLayer(Context()), internalParameter])
    {
      trackingParameter := map[ActivityName := currentActivityName];
      trackingParameter := trackingParameter[Timestamp := facts.timestamp];
      ghost var base := trackingParameter;
      trackingParameter := Add(trackingParameter, webtrekkParameter);
      trackingParameter := Add(trackingParameter, globalTrackingParameter);
      trackingParameter := Add(trackingParameter, trackingConfiguration.value.globalTrackingParameter);
      trackingParameter := Add(trackingParameter, tp);
      trackingParameter := AddActivityConfiguration(trackingParameter);
      trackingParameter := Add(trackingParameter, internalParameter);
      OverlayOfEight([base, webtrekkParameter, globalTrackingParameter,
        trackingConfiguration.value.globalTrackingParameter, tp,
        ActivityLayer(Context()), MappingLayer(Context()), internalParameter]);
      assert base == BaseLayer(currentActivityName, facts);
    }

    /** Calls `hook` of every plugin on `request`, in order. */
    method CallHooks(hook: Hook, request: Params)
      modifies this`pluginCalls
      ensures pluginCalls == old(pluginCalls) + HookCalls(plugins, hook, request)
    {
      for i := 0 to |plugins|
        invariant pluginCalls == old(pluginCalls) + HookCalls(plugins[..i], hook, request)
      {
        assert plugins[..i + 1][..i] == plugins[..i];
        pluginCalls := pluginCalls + [PluginCall(plugins[i], hook, request)];
      }
      assert plugins[..|plugins|] == plugins;
    }

    /**
     * `addRequest`: the before hooks, the store only when neither opted out nor sampled
     * out, the after hooks, then the one-shot internal flags and "appUpdated" reset to "0".
     */
    method AddRequest(request: Params)
      requires Valid() && Initialized()
      modifies this`pluginCalls, this`internalParameter, this`autoCustomParameter, requestUrlStore`requestList
      ensures pluginCalls == old(pluginCalls) + HookCalls(plugins, BeforeRequest, request) + HookCalls(plugins, AfterRequest, request)
      ensures requestUrlStore.requestList ==
        if isOptout || isSampling then old(requestUrlStore.requestList)
        else Appended(old(requestUrlStore.requestList), requestUrlStore.maximumRequests, urlOf(request, trackingConfiguration.value))
      ensures internalParameter == old(internalParameter)[ForceNewSession := "0"][AppFirstStart := "0"]
      ensures autoCustomParameter == old(autoCustomParameter)["appUpdated" := "0"]
    {
      CallHooks(BeforeRequest, request);
      if !isOptout && !isSampling {
        requestUrlStore.Add(urlOf(request, trackingConfiguration.value));
      }
      CallHooks(AfterRequest, request);
      internalParameter := internalParameter[ForceNewSession := "0"][AppFirstStart := "0"];
      autoCustomParameter := autoCustomParameter["appUpdated" := "0"];
    }

    /** Whether `track` gets past its three early returns. */
    predicate Trackable(tp: Option<Params>)
      reads this
    {
      Initialized() && activityCount > 0 && tp.Some?
    }

    /** The state after one tracked request for `tp`, relative to the state before. */
    twostate predicate Tracked(tp: Params, facts: DynamicFacts)
      reads this, requestUrlStore
      requires old(Initialized()) && requestUrlStore == old(requestUrlStore) && requestUrlStore.maximumRequests >= 1
    {
      var ctx := old(Context());
      var request := BuildRequest(ctx, tp, facts);
      && requestUrlStore.requestList ==
        (if old(isOptout || isSampling) then old(requestUrlStore.requestList)
         else Appended(old(requestUrlStore.requestList), requestUrlStore.maximumRequests, urlOf(request, ctx.configuration)))
      && pluginCalls == old(pluginCalls) + HookCalls(plugins, BeforeRequest, request) + HookCalls(plugins, AfterRequest, request)
      && internalParameter == old(internalParameter)[ForceNewSession := "0"][AppFirstStart := "0"]
      && webtrekkParameter == (if ActionName in tp then old(webtrekkParameter) else DynamicWebtrekkParameter(ctx, facts))
      && customParameter == (if ActionName in tp then old(customParameter) else CustomMapping(ctx, facts))
      && autoCustomParameter ==
        (if ActionName in tp then old(autoCustomParameter) else DynamicAutoCustomParameter(ctx, facts))["appUpdated" := "0"]
    }

    /** `track(tp)`: nothing happens before initialisation, with no running activity, or for a null `tp`. */
    method Track(tp: Option<Params>, facts: DynamicFacts)
      requires Valid()
      modifies this`webtrekkParameter, this`autoCustomParameter, this`customParameter
      modifies this`pluginCalls, this`internalParameter, requestUrlStore
      ensures Valid()
      ensures !old(Trackable(tp)) ==> unchanged(this) && (requestUrlStore != null ==> unchanged(requestUrlStore))
      ensures old(Trackable(tp)) ==> Tracked(tp.value, facts)
      ensures requestUrlStore != null ==> requestUrlStore.requestStoreFile == old(requestUrlStore.requestStoreFile)
    {
      if requestUrlStore == null || trackingConfiguration.None? {
        return;
      }
      if activityCount == 0 {
        return;
      }
      if tp.None? {
        return;
      }
      var request := CreateTrackingRequest(tp.value, facts);
      AddRequest(request);
    }

    /** Whether auto tracking applies to the current activity: its own flag, else the global one. */
    function AutoTrackEnabled(): bool
      reads this
      requires trackingConfiguration.Some?
    {
      var configured := trackingConfiguration.value;
      if currentActivityName in configured.activityConfigurations
      then configured.activityConfigurations[currentActivityName].autoTrack
      else configured.autoTracked
    }

    /** `autoTrackActivity`: tracks an empty request when auto tracking applies to the current activity. */
    method AutoTrackActivity(facts: DynamicFacts)
      requires Valid() && trackingConfiguration.Some?
      modifies this`webtrekkParameter, this`autoCustomParameter, this`customParameter
      modifies this`pluginCalls, this`internalParameter, requestUrlStore
      ensures Valid()
      ensures !old(AutoTrackEnabled() && Trackable(Some(map[]))) ==>
        unchanged(this) && (requestUrlStore != null ==> unchanged(requestUrlStore))
      ensures old(AutoTrackEnabled() && Trackable(Some(map[]))) ==> Tracked(map[], facts)
      ensures requestUrlStore != null ==> requestUrlStore.requestStoreFile == old(requestUrlStore.requestStoreFile)
    {
      var autoTrack := trackingConfiguration.value.autoTracked;
      if currentActivityName in trackingConfiguration.value.activityConfigurations {
        autoTrack := trackingConfiguration.value.activityConfigurations[currentActivityName].autoTrack;
      }
      if autoTrack {
        Track(Some(map[]), facts);
      }
    }

    // -------------------------------------------------------------------------
    // Activity counter and delivery trigger

    /**
     * `onSendIntervalOver`: a request processor is submitted only when requests are queued
     * and no earlier one is still running. A running one leaves everything as it is.
     */
    method OnSendIntervalOver() returns (submitted: bool)
      requires requestUrlStore != null
      modifies this`requestInFlight
      ensures submitted <==> !old(requestInFlight) && requestUrlStore.Size() > 0
      ensures requestInFlight == (old(requestInFlight) || submitted)
    {
      submitted := requestUrlStore.Size() > 0 && !requestInFlight;
      if submitted {
        requestInFlight := true;
      }
    }

    /** The submitted request processor finishes: its future is done. */
    method RequestProcessorFinished()
      modifies this`requestInFlight
      ensures !requestInFlight
    {
      requestInFlight := false;
    }

    /** The state after the first activity starts: the backup is loaded and deleted, then a flush is tried. */
    twostate predicate FirstActivityStarted()
      reads this, requestUrlStore
      requires requestUrlStore != null && requestUrlStore == old(requestUrlStore)
    {
      && requestUrlStore.requestList == old(requestUrlStore.requestList) + BackupLines(old(requestUrlStore.requestStoreFile))
      && requestUrlStore.requestStoreFile == None
      && requestInFlight == (old(requestInFlight) || |requestUrlStore.requestList| > 0)
    }

    /** `startActivity`: counts the activity and makes it current; the first one restores the backup. */
    method StartActivity(activityName: string) returns (r: Outcome<TrackerError>)
      requires Valid()
      modifies this`activityCount, this`currentActivityName, this`requestInFlight
      modifies requestUrlStore
      ensures Valid()
      ensures r == (if old(Initialized()) then Pass else Fail(NotInitialized))
      ensures r.Fail? ==> unchanged(this)
      ensures r.Pass? ==> activityCount == old(activityCount) + 1 && currentActivityName == activityName
      ensures r.Pass? && activityCount == 1 ==> FirstActivityStarted()
      ensures r.Pass? && activityCount != 1 ==> unchanged(requestUrlStore) && requestInFlight == old(requestInFlight)
    {
      if requestUrlStore == null || trackingConfiguration.None? {
        return Fail(NotInitialized);
      }
      activityCount := activityCount + 1;
      currentActivityName := activityName;
      if activityCount == 1 {
        requestUrlStore.LoadRequestsFromFile();
        requestUrlStore.DeleteRequestsFile();
        var _ := OnSendIntervalOver();
      }
      return Pass;
    }

    /** `stopActivity`: uncounts an activity; the last one tries a flush and saves the backup. */
    method StopActivity() returns (r: Outcome<TrackerError>)
      requires Valid()
      modifies this`activityCount, this`customParameter, this`requestInFlight, requestUrlStore
      ensures Valid()
      ensures r == (if !old(Initialized()) then Fail(NotInitialized)
                    else if old(activityCount) == 0 then Fail(NoActivityStarted)
                    else Pass)
      ensures r.Fail? ==> unchanged(this) && (requestUrlStore != null ==> unchanged(requestUrlStore))
      ensures r.Pass? ==> activityCount == old(activityCount) - 1 && customParameter == map[]
      ensures requestUrlStore != null ==> requestUrlStore.requestList == old(requestUrlStore.requestList)
      ensures r.Pass? && activityCount == 0 ==>
        && requestInFlight == (old(requestInFlight) || |requestUrlStore.requestList| > 0)
        && requestUrlStore.requestStoreFile == Some(Joined(requestUrlStore.requestList))
      ensures r.Pass? && activityCount > 0 ==> unchanged(requestUrlStore) && requestInFlight == old(requestInFlight)
    {
      if requestUrlStore == null || trackingConfiguration.None? {
        return Fail(NotInitialized);
      }
      if activityCount == 0 {
        return Fail(NoActivityStarted);
      }
      activityCount := activityCount - 1;
      customParameter := map[];
      if activityCount == 0 {
        var _ := OnSendIntervalOver();
        requestUrlStore.SaveRequestsToFile();
      }
      return Pass;
    }

    /** `stopTracking`: empties the queue and forgets every running activity. */
    method StopTracking()
      requires Valid()
      modifies this`activityCount, requestUrlStore
      ensures Valid()
      ensures activityCount == 0
      ensures requestUrlStore != null ==> requestUrlStore.requestList == []
      ensures requestUrlStore != null ==> requestUrlStore.requestStoreFile == old(requestUrlStore.requestStoreFile)
    {
      if requestUrlStore != null {
        requestUrlStore.Clear();
      }
      activityCount := 0;
    }

    /** `setOptout`: records a changed opt-out flag in the preferences; the queue is left as it is. */
    method SetOptout(optout: bool)
      modifies this`isOptout, this`preferences
      ensures isOptout == optout
      ensures preferences == if old(isOptout) == optout then old(preferences) else old(preferences).(optedOut := Some(optout))
    {
      if isOptout == optout {
        return;
      }
      isOptout := optout;
      preferences := preferences.(optedOut := Some(isOptout));
    }
  }
}

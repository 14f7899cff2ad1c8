/**
 * The override hierarchy of `createTrackingRequest`: the parameters of a request are the
 * overlay of a fixed sequence of layers, later layers overwriting earlier ones.
 */
module RequestBuilder {
  import opened Wrappers
  import opened TrackingParameter
  import opened Configuration

  /** What changes with every request: the clock and the device's current state. */
  datatype DynamicFacts = DynamicFacts(timestamp: string, resolution: string, orientation: string, connection: string)

  /** The tracker state `createTrackingRequest` reads. */
  datatype RequestContext = RequestContext(
    activityName: string,
    webtrekkParameter: Params,
    globalParameter: Params,
    configuration: TrackingConfiguration,
    internalParameter: Params,
    customParameter: map<string, string>,
    autoCustomParameter: map<string, string>,
    storeSize: nat)

  function DigitChar(d: nat): (c: char)
    requires d < 10
    ensures '0' <= c <= '9' && DigitValue(c) == d
  {
    ('0' as int + d) as char
  }

  /** The value of a decimal digit character. */
  function DigitValue(c: char): int
  {
    c as int - '0' as int
  }

  /** The number a string of decimal digits denotes, most significant digit first. */
  function DecimalValue(s: string): int
  {
    if s == [] then 0 else 10 * DecimalValue(s[..|s| - 1]) + DigitValue(s[|s| - 1])
  }

  /** `String.valueOf(n)` for a non-negative number: its decimal digits. */
  function NatToString(n: nat): (s: string)
    ensures 1 <= |s| && forall i :: 0 <= i < |s| ==> '0' <= s[i] <= '9'
    ensures n < 10 <==> |s| == 1
  {
    if n < 10 then [DigitChar(n)] else NatToString(n / 10) + [DigitChar(n % 10)]
  }

  /** The digits `NatToString` produces denote the number, with a leading zero only for 0. */
  lemma {:induction false} NatToStringDenotes(n: nat)
    ensures DecimalValue(NatToString(n)) == n
    ensures NatToString(n)[0] == '0' <==> n == 0
  {
    if n >= 10 {
      NatToStringDenotes(n / 10);
      var s := NatToString(n);
      assert s[..|s| - 1] == NatToString(n / 10);
    }
  }

  /** `String.valueOf(i)` for any integer: a minus sign for negatives, then the digits of the magnitude. */
  function IntToString(i: int): (s: string)
    ensures 1 <= |s|
    ensures i < 0 <==> s[0] == '-'
  {
    if i < 0 then "-" + NatToString(-i) else NatToString(i)
  }

  /** The string `IntToString` produces denotes the number, with no leading zeros. */
  lemma IntToStringDenotes(i: int)
    ensures var s := IntToString(i);
      && (i >= 0 ==> DecimalValue(s) == i && (s[0] == '0' <==> i == 0))
      && (i < 0 ==> 2 <= |s| && DecimalValue(s[1..]) == -i && s[1] != '0')
  {
    if i < 0 {
      NatToStringDenotes(-i);
      assert IntToString(i)[1..] == NatToString(-i);
    } else {
      NatToStringDenotes(i);
    }
  }

  /** The first layer: the current activity's name and the timestamp. */
  function BaseLayer(activityName: string, facts: DynamicFacts): Params
  {
    map[ActivityName := activityName, Timestamp := facts.timestamp]
  }

  const ActionFactKeys: set<Parameter> := {ScreenResolution, ScreenDepth, UserAgent}

  /** The device facts an action request carries, where the tracker already has them. */
  function ActionFacts(webtrekkParameter: Params): (r: Params)
    ensures r.Keys == webtrekkParameter.Keys * ActionFactKeys
    ensures forall k :: k in r ==> r[k] == webtrekkParameter[k]
  {
    map k | k in webtrekkParameter && k in ActionFactKeys :: webtrekkParameter[k]
  }

  /** The layers of an action request: base layer, three device facts, the call's parameters. */
  function ActionLayers(ctx: RequestContext, tp: Params, facts: DynamicFacts): seq<Params>
  {
    [BaseLayer(ctx.activityName, facts), ActionFacts(ctx.webtrekkParameter), tp]
  }

  /** `updateDynamicParameter` on the webtrekk parameters: the current screen resolution. */
  function DynamicWebtrekkParameter(ctx: RequestContext, facts: DynamicFacts): Params
  {
    ctx.webtrekkParameter[ScreenResolution := facts.resolution]
  }

  /** `updateDynamicParameter` on the automatic custom parameters. */
  function DynamicAutoCustomParameter(ctx: RequestContext, facts: DynamicFacts): map<string, string>
  {
    ctx.autoCustomParameter["screenOrientation" := facts.orientation]
      ["connectionType" := facts.connection]
      ["requestUrlStoreSize" := NatToString(ctx.storeSize)]
  }

  /** The custom parameters after `putAll(autoCustomParameter)`: automatic values win. */
  function CustomMapping(ctx: RequestContext, facts: DynamicFacts): map<string, string>
  {
    ctx.customParameter + DynamicAutoCustomParameter(ctx, facts)
  }

  /** The configured parameters of the current activity, empty when it has no configuration. */
  function ActivityLayer(ctx: RequestContext): Params
  {
    if ctx.activityName in ctx.configuration.activityConfigurations
    then ctx.configuration.activityConfigurations[ctx.activityName].activityTrackingParameter
    else map[]
  }

  /** The configured mapping name of the current activity, replacing its name. */
  function MappingLayer(ctx: RequestContext): Params
  {
    if ctx.activityName in ctx.configuration.activityConfigurations
      && ctx.configuration.activityConfigurations[ctx.activityName].mappingName.Some?
    then map[ActivityName := ctx.configuration.activityConfigurations[ctx.activityName].mappingName.value]
    else map[]
  }

  /** The layers of a full request, earliest (weakest) first. */
  function FullLayers(ctx: RequestContext, tp: Params, facts: DynamicFacts): (layers: seq<Params>)
    ensures |layers| == 8
  {
    [ BaseLayer(ctx.activityName, facts),
      DynamicWebtrekkParameter(ctx, facts),
      ctx.globalParameter,
      ctx.configuration.globalTrackingParameter,
      tp,
      ActivityLayer(ctx),
      MappingLayer(ctx),
      ctx.internalParameter ]
  }

  /** The parameters of the request `createTrackingRequest` builds for `tp`. */
  function BuildRequest(ctx: RequestContext, tp: Params, facts: DynamicFacts): Params
  {
    if ActionName in tp then Overlay(ActionLayers(ctx, tp, facts))
    else ApplyMapping(Overlay(FullLayers(ctx, tp, facts)), CustomMapping(ctx, facts))
  }

  /** The overlay of the full layers, one layer added after the other as `createTrackingRequest` does. */
  lemma FullLayersInOrder(ctx: RequestContext, tp: Params, facts: DynamicFacts)
    ensures var l := FullLayers(ctx, tp, facts);
      Overlay(l) == Add(Add(Add(Add(Add(Add(Add(l[0], l[1]), l[2]), l[3]), l[4]), l[5]), l[6]), l[7])
  {
    OverlayOfEight(FullLayers(ctx, tp, facts));
  }

  // ---------------------------------------------------------------------------
  // Properties of the action branch

  /**
   * An action request holds only the activity name, the timestamp, resolution, depth,
   * user agent and the call's own parameters; the call's values are taken as given, and the
   * device facts the call does not set keep the values the tracker holds.
   */
  lemma ActionRequestContents(ctx: RequestContext, tp: Params, facts: DynamicFacts)
    requires ActionName in tp
    ensures var r := BuildRequest(ctx, tp, facts);
      && r.Keys == {ActivityName, Timestamp} + ctx.webtrekkParameter.Keys * ActionFactKeys + tp.Keys
      && (forall k :: k in tp ==> r[k] == tp[k])
      && (forall k :: k in ActionFactKeys && k in ctx.webtrekkParameter && k !in tp ==> r[k] == ctx.webtrekkParameter[k])
      && (ActivityName !in tp ==> r[ActivityName] == ctx.activityName)
      && (Timestamp !in tp ==> r[Timestamp] == facts.timestamp)
  {
    var base, device := BaseLayer(ctx.activityName, facts), ActionFacts(ctx.webtrekkParameter);
    OverlayOfThree(base, device, tp);
    var r := BuildRequest(ctx, tp, facts);
    assert r == Add(Add(base, device), tp);
    assert r.Keys == base.Keys + device.Keys + tp.Keys;
  }

  /** No session or internal parameter reaches an action request unless the call passes it. */
  lemma ActionRequestHasNoInternalParameters(ctx: RequestContext, tp: Params, facts: DynamicFacts, k: Parameter)
    requires ActionName in tp && k !in tp
    requires k !in {ActivityName, Timestamp, ScreenResolution, ScreenDepth, UserAgent}
    ensures k !in BuildRequest(ctx, tp, facts)
  {
    ActionRequestContents(ctx, tp, facts);
  }

  // ---------------------------------------------------------------------------
  // Properties of the full branch

  /** The keys of a full request are the keys of all its layers together. */
  lemma FullRequestKeys(ctx: RequestContext, tp: Params, facts: DynamicFacts, k: Parameter)
    requires ActionName !in tp
    ensures k in BuildRequest(ctx, tp, facts) <==> exists i :: 0 <= i < 8 && k in FullLayers(ctx, tp, facts)[i]
  {
    OverlayKeys(FullLayers(ctx, tp, facts), k);
  }

  /**
   * Precedence: the value of a key in a full request is the value of the last layer that
   * has it, passed through the custom parameter mapping.
   */
  lemma FullRequestPrecedence(ctx: RequestContext, tp: Params, facts: DynamicFacts, i: nat, k: Parameter)
    requires ActionName !in tp
    requires i < 8 && k in FullLayers(ctx, tp, facts)[i]
    requires forall j :: i < j < 8 ==> k !in FullLayers(ctx, tp, facts)[j]
    ensures var r := BuildRequest(ctx, tp, facts);
      k in r && r[k] == Mapped(FullLayers(ctx, tp, facts)[i][k], CustomMapping(ctx, facts))
  {
    OverlayLastWriterWins(FullLayers(ctx, tp, facts), i, k);
  }

  /** The internal parameters (force-new-session, first start) override every other layer. */
  lemma InternalParametersWin(ctx: RequestContext, tp: Params, facts: DynamicFacts, k: Parameter)
    requires ActionName !in tp && k in ctx.internalParameter
    ensures var r := BuildRequest(ctx, tp, facts);
      k in r && r[k] == Mapped(ctx.internalParameter[k], CustomMapping(ctx, facts))
  {
    FullRequestPrecedence(ctx, tp, facts, 7, k);
  }

  /** The call's parameters override the device facts and both kinds of global parameters. */
  lemma CallParametersOverrideGlobals(ctx: RequestContext, tp: Params, facts: DynamicFacts, k: Parameter)
    requires ActionName !in tp && k in tp
    requires k !in ActivityLayer(ctx) && k !in MappingLayer(ctx) && k !in ctx.internalParameter
    ensures var r := BuildRequest(ctx, tp, facts);
      k in r && r[k] == Mapped(tp[k], CustomMapping(ctx, facts))
  {
    FullRequestPrecedence(ctx, tp, facts, 4, k);
  }

  /** The configured global parameters override the ones set in code. */
  lemma ConfigGlobalsOverrideCodeGlobals(ctx: RequestContext, tp: Params, facts: DynamicFacts, k: Parameter)
    requires ActionName !in tp && k in ctx.configuration.globalTrackingParameter
    requires k !in tp && k !in ActivityLayer(ctx) && k !in MappingLayer(ctx) && k !in ctx.internalParameter
    ensures var r := BuildRequest(ctx, tp, facts);
      k in r && r[k] == Mapped(ctx.configuration.globalTrackingParameter[k], CustomMapping(ctx, facts))
  {
    FullRequestPrecedence(ctx, tp, facts, 3, k);
  }

  /** The activity's configured parameters override the call's parameters. */
  lemma ActivityParametersOverrideCall(ctx: RequestContext, tp: Params, facts: DynamicFacts, k: Parameter)
    requires ActionName !in tp && k in ActivityLayer(ctx)
    requires k !in MappingLayer(ctx) && k !in ctx.internalParameter
    ensures var r := BuildRequest(ctx, tp, facts);
      k in r && r[k] == Mapped(ActivityLayer(ctx)[k], CustomMapping(ctx, facts))
  {
    FullRequestPrecedence(ctx, tp, facts, 5, k);
  }

  /** A configured mapping name replaces the activity name, unless an internal parameter sets it. */
  lemma MappingNameRenamesActivity(ctx: RequestContext, tp: Params, facts: DynamicFacts, name: string)
    requires ActionName !in tp && ActivityName !in ctx.internalParameter
    requires ctx.activityName in ctx.configuration.activityConfigurations
    requires ctx.configuration.activityConfigurations[ctx.activityName].mappingName == Some(name)
    ensures var r := BuildRequest(ctx, tp, facts);
      ActivityName in r && r[ActivityName] == Mapped(name, CustomMapping(ctx, facts))
  {
    FullRequestPrecedence(ctx, tp, facts, 6, ActivityName);
  }

  /** Without any override, a full request carries the current activity name and the timestamp. */
  lemma BaseLayerSurvives(ctx: RequestContext, tp: Params, facts: DynamicFacts, k: Parameter)
    requires ActionName !in tp && k in {ActivityName, Timestamp}
    requires forall j :: 1 <= j < 8 ==> k !in FullLayers(ctx, tp, facts)[j]
    ensures var r := BuildRequest(ctx, tp, facts);
      k in r && r[k] == Mapped(if k == ActivityName then ctx.activityName else facts.timestamp, CustomMapping(ctx, facts))
  {
    FullRequestPrecedence(ctx, tp, facts, 0, k);
  }

  /** A full request always carries the current screen resolution unless a later layer sets it. */
  lemma ResolutionIsRefreshed(ctx: RequestContext, tp: Params, facts: DynamicFacts)
    requires ActionName !in tp
    requires forall j :: 2 <= j < 8 ==> ScreenResolution !in FullLayers(ctx, tp, facts)[j]
    ensures var r := BuildRequest(ctx, tp, facts);
      ScreenResolution in r && r[ScreenResolution] == Mapped(facts.resolution, CustomMapping(ctx, facts))
  {
    FullRequestPrecedence(ctx, tp, facts, 1, ScreenResolution);
  }
}

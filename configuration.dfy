/**
 * The tracking configuration and the choice, at initialisation, between the bundled
 * configuration and the one cached in the shared preferences.
 */
module Configuration {
  import opened Wrappers
  import opened TrackingParameter

  /** The per-activity part of the configuration. */
  datatype ActivityConfiguration = ActivityConfiguration(
    className: string,
    mappingName: Option<string>,
    autoTrack: bool,
    activityTrackingParameter: Params)

  datatype TrackingConfiguration = TrackingConfiguration(
    version: int,
    trackId: string,
    trackDomain: string,
    sendDelay: int,
    maxRequests: int,
    sampling: int,
    autoTracked: bool,
    enableRemoteConfiguration: bool,
    trackingConfigurationUrl: string,
    globalTrackingParameter: Params,
    activityConfigurations: map<string, ActivityConfiguration>)

  /** `validateConfiguration`: track id and domain present, a positive send delay. */
  predicate IsValidConfiguration(c: TrackingConfiguration)
  {
    c.trackId != [] && c.trackDomain != [] && c.sendDelay > 0
  }

  /** A bundled configuration text shorter than this is the shipped placeholder. */
  const MinimumConfigurationLength: nat := 80

  /** The XML parser: None where it throws. */
  type Parser = string -> Option<TrackingConfiguration>

  /** Why initialisation cannot go on (each an IllegalStateException in the source). */
  datatype ConfigurationError =
    | MissingResource
    | PlaceholderResource
    | UnparsableConfiguration
    | InvalidConfiguration(configuration: TrackingConfiguration)

  /** The configuration that becomes active, and the URL handed to the download task, if any. */
  datatype Selection = Selection(configuration: TrackingConfiguration, downloadUrl: Option<string>)

  /**
   * The text to parse first: the test override when given, otherwise the bundled
   * resource, which must exist and must not be the placeholder.
   */
  function BundledText(configurationString: Option<string>, resource: Option<string>): (r: Result<string, ConfigurationError>)
    ensures configurationString.Some? ==> r == Success(configurationString.value)
    ensures configurationString.None? && resource.None? ==> r == Failure(MissingResource)
    ensures configurationString.None? && resource.Some? ==>
      r == if |resource.value| < MinimumConfigurationLength then Failure(PlaceholderResource) else Success(resource.value)
  {
    match configurationString
    case Some(s) => Success(s)
    case None =>
      match resource
      case None => Failure(MissingResource)
      case Some(s) => if |s| < MinimumConfigurationLength then Failure(PlaceholderResource) else Success(s)
  }

  /**
   * The configuration after looking at the cache: a cached configuration that parses
   * replaces the bundled one only when remote configuration is enabled and its version is
   * strictly greater.
   */
  function ActiveConfiguration(bundled: TrackingConfiguration, cached: Option<string>, parse: Parser): (c: TrackingConfiguration)
    ensures c == bundled || (bundled.enableRemoteConfiguration && c.version > bundled.version)
    ensures c.version >= bundled.version
    ensures (bundled.enableRemoteConfiguration && cached.Some? && parse(cached.value).Some?
      && parse(cached.value).value.version > bundled.version) ==> c == parse(cached.value).value
    ensures !bundled.enableRemoteConfiguration || cached.None? || parse(cached.value).None? ==> c == bundled
  {
    if bundled.enableRemoteConfiguration && cached.Some? then
      match parse(cached.value)
      case None => bundled
      case Some(fromCache) => if fromCache.version > bundled.version then fromCache else bundled
    else bundled
  }

  /** `initTrackingConfiguration`: the configuration that becomes active, or why initialisation fails. */
  function SelectConfiguration(configurationString: Option<string>, resource: Option<string>, cached: Option<string>, parse: Parser)
    : (r: Result<Selection, ConfigurationError>)
    ensures r.Success? ==> IsValidConfiguration(r.value.configuration)
    ensures r.Failure? && r.error.InvalidConfiguration? ==> !IsValidConfiguration(r.error.configuration)
    ensures configurationString.None? && resource.None? ==> r == Failure(MissingResource)
    ensures configurationString.None? && resource.Some? && |resource.value| < MinimumConfigurationLength ==>
      r == Failure(PlaceholderResource)
    ensures BundledText(configurationString, resource).Success? ==>
      var text := BundledText(configurationString, resource).value;
      && (parse(text).None? ==> r == Failure(UnparsableConfiguration))
      && (parse(text).Some? ==>
        var active := ActiveConfiguration(parse(text).value, cached, parse);
        && (r.Success? <==> IsValidConfiguration(active))
        && (r.Success? ==> r.value.configuration == active)
        && (r.Success? ==> (r.value.downloadUrl.Some? <==> parse(text).value.enableRemoteConfiguration))
        && (r.Failure? ==> r.error == InvalidConfiguration(active)))
  {
    match BundledText(configurationString, resource)
    case Failure(e) => Failure(e)
    case Success(text) =>
      match parse(text)
      case None => Failure(UnparsableConfiguration)
      case Some(bundled) =>
        var active := ActiveConfiguration(bundled, cached, parse);
        var url := if bundled.enableRemoteConfiguration then Some(active.trackingConfigurationUrl) else None;
        if IsValidConfiguration(active) then Success(Selection(active, url)) else Failure(InvalidConfiguration(active))
  }

  /** A cached configuration of equal or lower version never replaces the bundled one. */
  lemma CachedNotNewerIgnored(bundled: TrackingConfiguration, cached: string, parse: Parser)
    requires parse(cached).Some? && parse(cached).value.version <= bundled.version
    ensures ActiveConfiguration(bundled, Some(cached), parse) == bundled
  {
  }
}

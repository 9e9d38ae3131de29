/** Construction of an `HttpServer` from its configuration
  * (Kalinda.Server/HttpServer.cs: the constructors, `EnsureConfig`,
  * `ApplyConfiguration` and the composition of the listener URL). */
module Configuration {
  import opened Wrappers
  import opened Decimal

  /** The configuration record a server is built from.  Optional values are
    * C# nullables; `absolutePath` and `host` may be `null`. */
  datatype HttpServerConfiguration = HttpServerConfiguration(
    host: Option<string>,
    absolutePath: Option<string>,
    sslEnabled: bool,
    port: Option<int>,
    shutdownTimeout: Option<int>,
    maxServerTasks: int,
    minServerTasks: int,
    drainEntityBodyTimeout: Option<int>,
    entityBodyArrivalTimeout: Option<int>,
    headerWait: Option<int>,
    idleConnectionTimeout: Option<int>,
    requestInQueueTimeout: Option<int>,
    httpRequestQueueLength: Option<int>,
    minSendBytesPerSecond: Option<nat>)

  /** The exceptions construction can throw. */
  datatype ConfigError =
    | MissingConfig              // UriFormatException "missing config"
    | MissingAbsolutePath        // UriFormatException "missing absolute path"
    | AbsolutePathNotRooted      // UriFormatException "absolute path must start with forward slash"
    | EmptyHost                  // ArgumentException from the DnsEndPoint constructor
    | PortOutOfRange             // ArgumentOutOfRangeException from the DnsEndPoint constructor
    | NegativeMinServerTasks     // ArgumentOutOfRangeException "MinServerTasks"
    | NegativeMaxServerTasks     // ArgumentOutOfRangeException "MaxServerTasks"
    | MinExceedsMax              // InvalidOperationException

  // Field initialisers and fallbacks of HttpServer.
  const DefaultMaxServerTasks: int := 1000
  const DefaultShutdownTimeoutMilli: int := 120 * 1000
  const DefaultHttpRequestQueueLength: int := 1000
  const DefaultHost: string := "localhost"
  const DefaultPort: int := 8080
  const MaxPort: int := 65535

  /** `Environment.ProcessorCount / 2`; the processor count is an input. */
  function DefaultMinServerTasks(processorCount: nat): nat {
    processorCount / 2
  }

  // ---------------------------------------------------------------
  // The convenience constructors only fill in a configuration record.

  function EmptyConfiguration(): HttpServerConfiguration {
    HttpServerConfiguration(None, None, false, None, None, 0, 0, None, None, None, None, None, None, None)
  }

  /** Every setting a convenience constructor does not take is left unset:
    * both task bounds 0 and every nullable setting `null`. */
  predicate OtherSettingsUnset(c: HttpServerConfiguration) {
    && c.shutdownTimeout.None? && c.maxServerTasks == 0 && c.minServerTasks == 0
    && c.drainEntityBodyTimeout.None? && c.entityBodyArrivalTimeout.None? && c.headerWait.None?
    && c.idleConnectionTimeout.None? && c.requestInQueueTimeout.None?
    && c.httpRequestQueueLength.None? && c.minSendBytesPerSecond.None?
  }

  /** `HttpServer(host, absolutePath)`. */
  function HostPathConfiguration(host: Option<string>, absolutePath: Option<string>): (c: HttpServerConfiguration)
    ensures c.host == host && c.absolutePath == absolutePath
    ensures c.port.None? && !c.sslEnabled && OtherSettingsUnset(c)
  {
    EmptyConfiguration().(host := host, absolutePath := absolutePath)
  }

  /** `HttpServer(host, port, absolutePath)`. */
  function HostPortPathConfiguration(host: Option<string>, port: int, absolutePath: Option<string>): (c: HttpServerConfiguration)
    ensures c.host == host && c.absolutePath == absolutePath
    ensures c.port == Some(port) && !c.sslEnabled && OtherSettingsUnset(c)
  {
    EmptyConfiguration().(host := host, port := Some(port), absolutePath := absolutePath)
  }

  /** `HttpServer(host, port, sslEnabled, absolutePath)`. */
  function HostPortSslPathConfiguration(host: Option<string>, port: int, sslEnabled: bool, absolutePath: Option<string>): (c: HttpServerConfiguration)
    ensures c.host == host && c.absolutePath == absolutePath
    ensures c.port == Some(port) && c.sslEnabled == sslEnabled && OtherSettingsUnset(c)
  {
    EmptyConfiguration().(host := host, port := Some(port), sslEnabled := sslEnabled, absolutePath := absolutePath)
  }

  // ---------------------------------------------------------------
  // EnsureConfig

  /** `char.IsWhiteSpace`: the Unicode space, line and paragraph separators,
    * the ASCII controls U+0009..U+000D, and U+0085. */
  predicate IsWhiteSpace(c: char) {
    || c == ' ' || ('\t' <= c <= '\r') || c == '\U{0085}' || c == '\U{00A0}' || c == '\U{1680}'
    || ('\U{2000}' <= c <= '\U{200A}') || c == '\U{2028}' || c == '\U{2029}' || c == '\U{202F}'
    || c == '\U{205F}' || c == '\U{3000}'
  }

  /** `string.IsNullOrWhiteSpace` (which also covers `string.IsNullOrEmpty`). */
  predicate IsNullOrWhiteSpace(s: Option<string>) {
    s.None? || forall i :: 0 <= i < |s.value| ==> IsWhiteSpace(s.value[i])
  }

  predicate StartsWithSlash(s: string) {
    |s| > 0 && s[0] == '/'
  }

  function EnsureConfig(config: Option<HttpServerConfiguration>): (r: Outcome<ConfigError>)
    ensures r == Fail(MissingConfig) <==> config.None?
  {
    if config.None? then Fail(MissingConfig)
    else if IsNullOrWhiteSpace(config.value.absolutePath) then Fail(MissingAbsolutePath)
    else if !StartsWithSlash(config.value.absolutePath.value) then Fail(AbsolutePathNotRooted)
    else Pass
  }

  /** The one path check that matters: a configuration passes exactly when its
    * absolute path is present and starts with '/'; nothing else about the path
    * is examined. */
  lemma EnsureConfigAccepts(config: Option<HttpServerConfiguration>)
    ensures EnsureConfig(config).Pass? <==>
      config.Some? && config.value.absolutePath.Some? && StartsWithSlash(config.value.absolutePath.value)
    // A null, empty or blank path is reported as missing ...
    ensures config.Some? && IsNullOrWhiteSpace(config.value.absolutePath) ==>
      EnsureConfig(config) == Fail(MissingAbsolutePath)
    // ... and any other path without its leading slash as not rooted.
    ensures config.Some? && config.value.absolutePath.Some? && !IsNullOrWhiteSpace(config.value.absolutePath)
            && !StartsWithSlash(config.value.absolutePath.value) ==>
      EnsureConfig(config) == Fail(AbsolutePathNotRooted)
  {
    if config.Some? && config.value.absolutePath.Some? && StartsWithSlash(config.value.absolutePath.value) {
      assert !IsWhiteSpace(config.value.absolutePath.value[0]);
    }
  }

  // ---------------------------------------------------------------
  // ApplyConfiguration

  /** The host name, port and scheme the listener prefix is built from. */
  datatype EndPoint = EndPoint(host: string, port: nat, sslEnabled: bool)

  /** What `ApplyConfiguration` stores in the server.  A listener timeout of
    * `None` is the listener's own default, which the server never read. */
  datatype ServerSettings = ServerSettings(
    minServerTasks: int,
    maxServerTasks: int,
    shutdownTimeoutMilli: int,
    httpRequestQueueLength: int,
    drainEntityBodyTimeout: Option<int>,
    entityBodyArrivalTimeout: Option<int>,
    headerWait: Option<int>,
    idleConnectionTimeout: Option<int>,
    requestInQueueTimeout: Option<int>,
    minSendBytesPerSecond: Option<int>)

  datatype AppliedConfiguration = AppliedConfiguration(endPoint: EndPoint, settings: ServerSettings)

  /** A configured task bound: a positive value overrides the default, zero
    * keeps the default, a negative value is refused. */
  function TaskBound(configured: int, default: int, negative: ConfigError): (r: Result<int, ConfigError>)
    ensures configured > 0 ==> r == Ok(configured)
    ensures configured == 0 ==> r == Ok(default)
    ensures configured < 0 ==> r == Err(negative)
  {
    if configured > 0 then Ok(configured)
    else if configured < 0 then Err(negative)
    else Ok(default)
  }

  /** The argument checks of `new DnsEndPoint(host, port)`. */
  function NewEndPoint(host: string, port: int, sslEnabled: bool): (r: Result<EndPoint, ConfigError>)
    ensures r.Ok? <==> host != "" && 0 <= port <= MaxPort
    ensures r.Ok? ==> r.value == EndPoint(host, port, sslEnabled)
  {
    if host == "" then Err(EmptyHost)
    else if port < 0 || port > MaxPort then Err(PortOutOfRange)
    else Ok(EndPoint(host, port, sslEnabled))
  }

  function ApplyConfiguration(config: HttpServerConfiguration, processorCount: nat): (r: Result<AppliedConfiguration, ConfigError>)
    ensures r.Ok? ==> r.value.endPoint.host != "" && r.value.endPoint.port <= MaxPort
    ensures r.Ok? ==> 0 <= r.value.settings.minServerTasks <= r.value.settings.maxServerTasks
  {
    match NewEndPoint(config.host.GetOr(DefaultHost), config.port.GetOr(DefaultPort), config.sslEnabled)
    case Err(e) => Err(e)
    case Ok(endPoint) =>
      match TaskBound(config.minServerTasks, DefaultMinServerTasks(processorCount), NegativeMinServerTasks)
      case Err(e) => Err(e)
      case Ok(minTasks) =>
        match TaskBound(config.maxServerTasks, DefaultMaxServerTasks, NegativeMaxServerTasks)
        case Err(e) => Err(e)
        case Ok(maxTasks) =>
          if minTasks > maxTasks then Err(MinExceedsMax)
          else
            Ok(AppliedConfiguration(endPoint, ServerSettings(
              minTasks,
              maxTasks,
              config.shutdownTimeout.GetOr(DefaultShutdownTimeoutMilli),
              config.httpRequestQueueLength.GetOr(DefaultHttpRequestQueueLength),
              config.drainEntityBodyTimeout,
              config.entityBodyArrivalTimeout,
              config.headerWait,
              config.idleConnectionTimeout,
              config.requestInQueueTimeout,
              if config.minSendBytesPerSecond.Some? then Some(config.minSendBytesPerSecond.value as int) else None)))
  }

  /** The effective bound a configured value stands for once it is accepted. */
  function EffectiveBound(configured: int, default: int): int {
    if configured == 0 then default else configured
  }

  /** When `ApplyConfiguration` succeeds, and what it then stores: host and port
    * default to "localhost" and 8080, the task bounds follow `TaskBound`, and
    * the effective bounds satisfy 0 <= min <= max. */
  lemma ApplyConfigurationOutcome(config: HttpServerConfiguration, processorCount: nat)
    ensures var host := config.host.GetOr(DefaultHost);
            var port := config.port.GetOr(DefaultPort);
            var minTasks := EffectiveBound(config.minServerTasks, DefaultMinServerTasks(processorCount));
            var maxTasks := EffectiveBound(config.maxServerTasks, DefaultMaxServerTasks);
            ApplyConfiguration(config, processorCount).Ok? <==>
              host != "" && 0 <= port <= MaxPort && config.minServerTasks >= 0 && config.maxServerTasks >= 0
              && minTasks <= maxTasks
    ensures ApplyConfiguration(config, processorCount).Ok? ==>
      var a := ApplyConfiguration(config, processorCount).value;
      && a.endPoint == EndPoint(config.host.GetOr(DefaultHost), config.port.GetOr(DefaultPort), config.sslEnabled)
      && a.settings.minServerTasks == EffectiveBound(config.minServerTasks, DefaultMinServerTasks(processorCount))
      && a.settings.maxServerTasks == EffectiveBound(config.maxServerTasks, DefaultMaxServerTasks)
      && 0 <= a.settings.minServerTasks <= a.settings.maxServerTasks
      && a.settings.shutdownTimeoutMilli == config.shutdownTimeout.GetOr(DefaultShutdownTimeoutMilli)
      && a.settings.httpRequestQueueLength == config.httpRequestQueueLength.GetOr(DefaultHttpRequestQueueLength)
      && a.settings.drainEntityBodyTimeout == config.drainEntityBodyTimeout
      && a.settings.entityBodyArrivalTimeout == config.entityBodyArrivalTimeout
      && a.settings.headerWait == config.headerWait
      && a.settings.idleConnectionTimeout == config.idleConnectionTimeout
      && a.settings.requestInQueueTimeout == config.requestInQueueTimeout
      && a.settings.minSendBytesPerSecond ==
           (if config.minSendBytesPerSecond.Some? then Some(config.minSendBytesPerSecond.value as int) else None)
  {
  }

  /** The `DnsEndPoint` constructor accepts the host and port, after their defaults. */
  predicate ValidEndPoint(config: HttpServerConfiguration) {
    config.host.GetOr(DefaultHost) != "" && 0 <= config.port.GetOr(DefaultPort) <= MaxPort
  }

  /** Which exception `ApplyConfiguration` throws: the end point is checked
    * first, then the minimum, then the maximum, then their order. */
  lemma ApplyConfigurationErrors(config: HttpServerConfiguration, processorCount: nat)
    ensures config.host == Some("") ==> ApplyConfiguration(config, processorCount) == Err(EmptyHost)
    ensures config.host != Some("") && (config.port.GetOr(DefaultPort) < 0 || config.port.GetOr(DefaultPort) > MaxPort)
      ==> ApplyConfiguration(config, processorCount) == Err(PortOutOfRange)
    ensures ApplyConfiguration(config, processorCount) == Err(NegativeMinServerTasks) <==>
      ValidEndPoint(config) && config.minServerTasks < 0
    ensures ApplyConfiguration(config, processorCount) == Err(NegativeMaxServerTasks) <==>
      ValidEndPoint(config) && config.minServerTasks >= 0 && config.maxServerTasks < 0
    ensures ApplyConfiguration(config, processorCount) == Err(MinExceedsMax) <==>
      && ValidEndPoint(config) && config.minServerTasks >= 0 && config.maxServerTasks >= 0
      && EffectiveBound(config.minServerTasks, DefaultMinServerTasks(processorCount)) > EffectiveBound(config.maxServerTasks, DefaultMaxServerTasks)
  {
  }

  // ---------------------------------------------------------------
  // The listener prefix

  function Scheme(sslEnabled: bool): string {
    if sslEnabled then "https://" else "http://"
  }

  /** ":port", left out for the default HTTP port 80 only. */
  function PortSuffix(port: nat): string {
    if port != 80 then ":" + DecimalString(port) else ""
  }

  /** The prefix registered with the listener: scheme, host, port suffix and
    * absolute path, with a '/' appended unless it already ends in one. */
  function ListenerUrl(endPoint: EndPoint, absolutePath: string): (url: string)
    ensures |url| > 0 && url[|url| - 1] == '/'
  {
    var url := Scheme(endPoint.sslEnabled) + endPoint.host + PortSuffix(endPoint.port) + absolutePath;
    url + if url[|url| - 1] != '/' then "/" else ""
  }

  /** The scheme is "https://" exactly when SSL is enabled, "http://" otherwise. */
  lemma ListenerUrlScheme(endPoint: EndPoint, absolutePath: string)
    requires endPoint.host != ""
    ensures var url := ListenerUrl(endPoint, absolutePath);
      && |url| >= 8
      && (url[..8] == "https://" <==> endPoint.sslEnabled)
      && (!endPoint.sslEnabled ==> url[..7] == "http://")
  {
    var url := ListenerUrl(endPoint, absolutePath);
    var scheme := Scheme(endPoint.sslEnabled);
    assert url[..|scheme|] == scheme;
    if !endPoint.sslEnabled {
      assert url[..8][4] == ':';
    }
  }

  /** The port suffix is empty exactly for port 80; otherwise it is ':'
    * followed by digits that read back as the port. */
  lemma PortSuffixRules(port: nat)
    ensures PortSuffix(port) == "" <==> port == 80
    ensures port != 80 ==>
      var s := PortSuffix(port);
      s[0] == ':' && AllDigits(s[1..]) && DecimalValue(s[1..]) == port
  {
    if port != 80 {
      assert PortSuffix(port)[1..] == DecimalString(port);
      DecimalRoundTrip(port);
    }
  }

  /** The URL always ends in '/', and when the path already does, nothing is
    * appended to the composed prefix. */
  lemma ListenerUrlTrailingSlash(endPoint: EndPoint, absolutePath: string)
    ensures var url := ListenerUrl(endPoint, absolutePath);
      var prefix := Scheme(endPoint.sslEnabled) + endPoint.host + PortSuffix(endPoint.port);
      && url[|url| - 1] == '/'
      && (|absolutePath| > 0 && absolutePath[|absolutePath| - 1] == '/' ==> url == prefix + absolutePath)
      && (|absolutePath| > 0 && absolutePath[|absolutePath| - 1] != '/' ==> url == prefix + absolutePath + "/")
  {
  }

  // ---------------------------------------------------------------
  // The whole constructor

  datatype Construction = Construction(endPoint: EndPoint, settings: ServerSettings, listenerUrl: string)

  /** `new HttpServer(config)`: `EnsureConfig`, then `ApplyConfiguration`, then the prefix. */
  function Construct(config: Option<HttpServerConfiguration>, processorCount: nat): (r: Result<Construction, ConfigError>)
    ensures r.Ok? ==> EnsureConfig(config).Pass? && ApplyConfiguration(config.value, processorCount).Ok?
  {
    match EnsureConfig(config)
    case Fail(e) => Err(e)
    case Pass =>
      match ApplyConfiguration(config.value, processorCount)
      case Err(e) => Err(e)
      case Ok(applied) =>
        Ok(Construction(applied.endPoint, applied.settings, ListenerUrl(applied.endPoint, config.value.absolutePath.value)))
  }

  /** A constructed server has a rooted path, bounds 0 <= min <= max, and a
    * prefix made of its scheme, host, port suffix and path, ending in '/'. */
  lemma ConstructOutcome(config: Option<HttpServerConfiguration>, processorCount: nat)
    ensures Construct(config, processorCount).Ok? <==>
      EnsureConfig(config).Pass? && ApplyConfiguration(config.value, processorCount).Ok?
    ensures Construct(config, processorCount).Ok? ==>
      var c := Construct(config, processorCount).value;
      var path := config.value.absolutePath.value;
      && StartsWithSlash(path)
      && 0 <= c.settings.minServerTasks <= c.settings.maxServerTasks
      && |c.listenerUrl| > 0 && c.listenerUrl[|c.listenerUrl| - 1] == '/'
      && c.listenerUrl[..|Scheme(c.endPoint.sslEnabled)|] == Scheme(c.endPoint.sslEnabled)
      && (c.listenerUrl == Scheme(c.endPoint.sslEnabled) + c.endPoint.host + PortSuffix(c.endPoint.port) + path
          || c.listenerUrl == Scheme(c.endPoint.sslEnabled) + c.endPoint.host + PortSuffix(c.endPoint.port) + path + "/")
  {
    if Construct(config, processorCount).Ok? {
      EnsureConfigAccepts(config);
      ApplyConfigurationOutcome(config.value, processorCount);
      var c := Construct(config, processorCount).value;
      ListenerUrlTrailingSlash(c.endPoint, config.value.absolutePath.value);
    }
  }

  // ---------------------------------------------------------------
  // Worked examples

  /** "api" lacks its leading slash and is refused. */
  lemma RelativePathRefused(processorCount: nat)
    ensures Construct(Some(HostPathConfiguration(Some("kalinda"), Some("api"))), processorCount) == Err(AbsolutePathNotRooted)
  {
    var path := "api";
    assert !IsWhiteSpace(path[0]);
    assert !IsNullOrWhiteSpace(Some(path));
    assert !StartsWithSlash(path);
    assert EnsureConfig(Some(HostPathConfiguration(Some("kalinda"), Some(path)))) == Fail(AbsolutePathNotRooted);
  }

  /** A minimum of 5 over a maximum of 2 is refused. */
  lemma MinAboveMaxRefused(processorCount: nat)
    ensures Construct(Some(HostPathConfiguration(None, Some("/api")).(minServerTasks := 5, maxServerTasks := 2)), processorCount)
      == Err(MinExceedsMax)
  {
    assert !IsWhiteSpace('/');
  }

  /** The two defaults clash on a machine with more than 2001 processors:
    * ProcessorCount / 2 then exceeds 1000 and construction fails. */
  lemma DefaultBoundsClash(processorCount: nat)
    requires processorCount > 2001
    ensures Construct(Some(HostPathConfiguration(None, Some("/api"))), processorCount) == Err(MinExceedsMax)
  {
    assert !IsWhiteSpace('/');
  }

  /** With nothing but a path configured the prefix is http://localhost:8080/api/. */
  lemma DefaultPrefix(processorCount: nat)
    requires processorCount <= 2001
    ensures Construct(Some(HostPathConfiguration(None, Some("/api"))), processorCount).Ok?
    ensures Construct(Some(HostPathConfiguration(None, Some("/api"))), processorCount).value.listenerUrl
      == "http://localhost:8080/api/"
  {
    assert !IsWhiteSpace('/');
    assert DecimalString(8080) == "8080";
  }
}

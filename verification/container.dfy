/** The decisions a ConsulContainer makes before the container library runs it:
    image name, exposed ports, environment, TLS path rewrite, start-up command
    and the port the readiness check waits on. The Docker calls themselves
    (`withExposedPorts`, `withEnv`, `withCommand`, waiting) are represented by the
    `Plan` they would be given. */
module Container {
  import opened Wrappers
  import opened Configuration
  import AgentCommand

  // ---------------------------------------------------------------------------
  // Container options (the ConsulContainerOption enum and its defaults).

  datatype OptionKey = BindInterface | BindAddress | ClientInterface | ClientAddress

  function OptionName(k: OptionKey): string {
    match k
    case BindInterface => "CONSUL_BIND_INTERFACE"
    case BindAddress => "CONSUL_BIND_ADDRESS"
    case ClientInterface => "CONSUL_CLIENT_INTERFACE"
    case ClientAddress => "CONSUL_CLIENT_ADDRESS"
  }

  function OptionDefault(k: OptionKey): string {
    match k
    case BindInterface => "eth0"
    case BindAddress => ""
    case ClientInterface => ""
    case ClientAddress => ""
  }

  const LocalConfigName: string := "CONSUL_LOCAL_CONFIG"

  /** The options map is keyed by the enum constants. */
  type Options = map<OptionKey, string>

  /** `getOrDefault` accepts any Java object as key; an enum constant never
      equals a String, so a lookup by name finds nothing. */
  datatype LookupKey = ByConstant(key: OptionKey) | ByName(name: string)

  function GetOrDefault(m: Options, key: LookupKey, default: string): string {
    match key
    case ByConstant(k) => if k in m then m[k] else default
    case ByName(_) => default
  }

  // ---------------------------------------------------------------------------
  // Constants.

  const ImageRepository: string := "consul"
  const DefaultVersion: string := "1.4.0-rc1"

  datatype PortKind = Http | Https | DnsPort

  function DefaultPort(kind: PortKind): int {
    match kind
    case Http => 8500
    case Https => 8501
    case DnsPort => 8600
  }

  const CaPath: string := "/consul/config/ca"
  const CertPath: string := "/consul/config/cert"
  const KeyPath: string := "/consul/config/key"

  // ---------------------------------------------------------------------------
  // The container and its constructors.

  /** What a container holds. `command` is always `None` for org.jetax, whose
      container has no command field. */
  datatype Container = Container(
    pkg: Package,
    image: string,
    config: Option<Config>,
    options: Options,
    command: Option<AgentCommand.Command>,
    waitTimeout: Option<int>)

  /** The image name: repository, a colon, and the version or the default one. */
  function ImageName(version: Option<string>): (r: string)
    ensures |r| >= |ImageRepository| + 1
    ensures r[..|ImageRepository| + 1] == ImageRepository + ":"
    ensures r[|ImageRepository| + 1..] == (if version.Some? then version.value else DefaultVersion)
  {
    ImageRepository + ":" + version.GetOr(DefaultVersion)
  }

  /** `new ConsulContainer()`: default image, empty options, nothing else. */
  function NoArgContainer(pkg: Package): (c: Container)
    ensures c.image == ImageName(None)
    ensures c.config.None? && c.command.None? && c.waitTimeout.None? && c.options == map[]
  {
    Container(pkg, ImageRepository + ":" + DefaultVersion, None, map[], None, None)
  }

  /** `new ConsulContainer(configuration)`. */
  function ConfigContainer(pkg: Package, config: Option<Config>): (c: Container)
    ensures c.pkg == pkg && c.image == ImageName(None) && c.config == config
    ensures c.options == map[] && c.command.None? && c.waitTimeout.None?
  {
    NoArgContainer(pkg).(config := config)
  }

  /** org.jetax `new ConsulContainer(options)`: replaces the options only. */
  function OptionsContainer(options: Options): (c: Container)
    ensures c.pkg == Jetax && c.image == ImageName(None) && c.config.None?
    ensures c.options == options && c.command.None? && c.waitTimeout.None?
  {
    NoArgContainer(Jetax).(options := options)
  }

  /** com.hmhco five-argument constructor used by the builder. */
  function FullContainer(config: Option<Config>, options: Options, command: Option<AgentCommand.Command>,
                         version: Option<string>, waitTimeout: Option<int>): (c: Container)
    ensures c.pkg == Hmhco && c.image == ImageName(version)
    ensures c.config == config && c.options == options && c.command == command && c.waitTimeout == waitTimeout
  {
    Container(Hmhco, ImageName(version), config, options, command, waitTimeout)
  }

  /** org.jetax four-argument constructor: no command. */
  function JetaxFullContainer(config: Option<Config>, options: Options,
                              version: Option<string>, waitTimeout: Option<int>): (c: Container)
    ensures c.pkg == Jetax && c.image == ImageName(version) && c.command.None?
    ensures c.config == config && c.options == options && c.waitTimeout == waitTimeout
  {
    Container(Jetax, ImageName(version), config, options, None, waitTimeout)
  }

  // ---------------------------------------------------------------------------
  // Ports.

  function ConfiguredPorts(c: Container): Option<Ports> {
    if c.config.Some? then c.config.value.ports else None
  }

  function Pick(p: Ports, kind: PortKind): Option<int> {
    match kind
    case Http => p.http
    case Https => p.https
    case DnsPort => p.dns
  }

  /** `getHttpPort`, `getHttpsPort`, `getDnsPort`: the configured port when the
      configuration, its Ports object and that port are all non-null, otherwise
      8500, 8501 or 8600. */
  function ServicePort(c: Container, kind: PortKind): (r: int)
    ensures ConfiguredPorts(c).Some? && Pick(ConfiguredPorts(c).value, kind).Some? ==>
              r == Pick(ConfiguredPorts(c).value, kind).value
    ensures ConfiguredPorts(c).None? || Pick(ConfiguredPorts(c).value, kind).None? ==>
              r == DefaultPort(kind)
  {
    if c.config != None && c.config.value.ports != None && Pick(c.config.value.ports.value, kind) != None
    then Pick(c.config.value.ports.value, kind).value
    else DefaultPort(kind)
  }

  /** `bindPorts`: the Ports object's list when there is one, else the three
      default ports. */
  function ExposedPorts(c: Container): (r: seq<int>)
    ensures ConfiguredPorts(c).Some? ==> r == PortsToExpose(ConfiguredPorts(c).value)
    ensures ConfiguredPorts(c).None? ==> r == [8500, 8501, 8600]
  {
    if c.config.Some? && c.config.value.ports.Some? then PortsToExpose(c.config.value.ports.value)
    else [DefaultPort(Http), DefaultPort(Https), DefaultPort(DnsPort)]
  }

  /** Exposed ports and port getters agree whenever each getter reports a port
      that is really exposed: with no Ports object, or with all three set, the
      exposed list is exactly [http, https, dns] as the getters report them. */
  lemma ExposedPortsMatchGetters(c: Container)
    requires ConfiguredPorts(c).None? ||
             (var p := ConfiguredPorts(c).value; p.http.Some? && p.https.Some? && p.dns.Some?)
    ensures ExposedPorts(c) == [ServicePort(c, Http), ServicePort(c, Https), ServicePort(c, DnsPort)]
  {
  }

  /** The readiness check waits on `getHttpPort()`. That port is exposed when
      there is no Ports object or when it sets http; with a Ports object that
      leaves http null it is exposed only if https or dns happens to be 8500. */
  lemma HealthCheckPortExposure(c: Container)
    ensures ConfiguredPorts(c).None? || ConfiguredPorts(c).value.http.Some? ==>
              ServicePort(c, Http) in ExposedPorts(c)
    ensures ConfiguredPorts(c).Some? && ConfiguredPorts(c).value.http.None? ==>
              (ServicePort(c, Http) in ExposedPorts(c) <==>
               ConfiguredPorts(c).value.https == Some(8500) || ConfiguredPorts(c).value.dns == Some(8500))
  {
  }

  // ---------------------------------------------------------------------------
  // TLS files (`copyFiles`): only the path rewrite is modelled.

  predicate CopiesTls(config: Option<Config>) {
    config.Some? && config.value.tlsConfig.Some? && TlsEnabled(config.value.tlsConfig.value)
  }

  /** With TLS enabled, the configuration's CA, cert and key paths become the
      fixed in-container paths; every other field, and any configuration
      without enabled TLS, is left as it was. */
  function RewriteTls(config: Option<Config>): (r: Option<Config>)
    ensures r.Some? <==> config.Some?
    ensures CopiesTls(config) ==>
              r.value.caFile == Some(CaPath) && r.value.certFile == Some(CertPath) && r.value.keyFile == Some(KeyPath)
    ensures CopiesTls(config) ==>
              r.value.(caFile := config.value.caFile, certFile := config.value.certFile, keyFile := config.value.keyFile)
              == config.value
    ensures !CopiesTls(config) ==> r == config
  {
    if CopiesTls(config) then
      Some(config.value.(caFile := Some(CaPath), certFile := Some(CertPath), keyFile := Some(KeyPath)))
    else config
  }

  /** The rewrite keeps the class-path names, so applying it again changes
      nothing: every cluster member re-running it on a shared configuration
      sees the same paths. */
  lemma RewriteTlsIdempotent(config: Option<Config>)
    ensures RewriteTls(RewriteTls(config)) == RewriteTls(config)
    ensures CopiesTls(RewriteTls(config)) == CopiesTls(config)
  {
  }

  // ---------------------------------------------------------------------------
  // Environment.

  /** An environment variable the container sets: one per option, and the
      local configuration. */
  datatype EnvName = OptionVar(key: OptionKey) | LocalConfigVar

  function EnvVarName(n: EnvName): string {
    match n
    case OptionVar(k) => OptionName(k)
    case LocalConfigVar => LocalConfigName
  }

  /** The variable names are pairwise distinct, so a map keyed by `EnvName` is
      the container's name-keyed environment. */
  lemma EnvVarNamesDistinct(m: EnvName, n: EnvName)
    requires m != n
    ensures EnvVarName(m) != EnvVarName(n)
  {
    var a := EnvVarName(m);
    var b := EnvVarName(n);
    if |a| == |b| {
      // the same-length pairs already differ at index 7
      assert a[7] != b[7];
    }
  }

  /** An environment value: plain text, or the configuration as written by the
      JSON library (outside this model). */
  datatype EnvValue = Text(text: string) | ConfigJson(config: Config)

  /** One entry per option, valued by `lookup`. */
  function OptionEntries(lookup: OptionKey -> string): map<EnvName, EnvValue> {
    map[
      OptionVar(BindInterface) := Text(lookup(BindInterface)),
      OptionVar(BindAddress) := Text(lookup(BindAddress)),
      OptionVar(ClientInterface) := Text(lookup(ClientInterface)),
      OptionVar(ClientAddress) := Text(lookup(ClientAddress))]
  }

  lemma OptionEntriesCover(lookup: OptionKey -> string)
    ensures OptionEntries(lookup).Keys ==
      {OptionVar(BindInterface), OptionVar(BindAddress), OptionVar(ClientInterface), OptionVar(ClientAddress)}
    ensures forall k :: OptionVar(k) in OptionEntries(lookup) && OptionEntries(lookup)[OptionVar(k)] == Text(lookup(k))
  {
    forall k
      ensures OptionVar(k) in OptionEntries(lookup) && OptionEntries(lookup)[OptionVar(k)] == Text(lookup(k))
    {
      match k
      case BindInterface =>
      case BindAddress =>
      case ClientInterface =>
      case ClientAddress =>
    }
  }

  /** The environment built from a given lookup of each option. */
  function EnvWith(c: Container, lookup: OptionKey -> string): (env: map<EnvName, EnvValue>)
    ensures forall k :: OptionVar(k) in env && env[OptionVar(k)] == Text(lookup(k))
    ensures LocalConfigVar in env <==> c.config.Some?
    ensures c.config.Some? ==> env[LocalConfigVar] == ConfigJson(c.config.value)
    ensures |env| == if c.config.Some? then 5 else 4
  {
    var opts := OptionEntries(lookup);
    OptionEntriesCover(lookup);
    if c.config.Some? then
      var env := opts[LocalConfigVar := ConfigJson(c.config.value)];
      assert env.Keys == opts.Keys + {LocalConfigVar};
      assert forall k :: env[OptionVar(k)] == opts[OptionVar(k)];
      env
    else opts
  }

  /** `setEnv` as written: each option is looked up by its NAME string in a map
      keyed by enum constants, so the lookup always falls back to the default. */
  function Environment(c: Container): map<EnvName, EnvValue> {
    EnvWith(c, k => GetOrDefault(c.options, ByName(OptionName(k)), OptionDefault(k)))
  }

  /** `setEnv` as evidently intended: each option looked up by its constant. */
  function IntendedEnvironment(c: Container): map<EnvName, EnvValue> {
    EnvWith(c, k => GetOrDefault(c.options, ByConstant(k), OptionDefault(k)))
  }

  /** One entry per option plus the local configuration only when a
      configuration is present. */
  lemma EnvironmentSize(c: Container)
    ensures |Environment(c)| == if c.config.Some? then 5 else 4
    ensures |IntendedEnvironment(c)| == |Environment(c)|
  {
  }

  /** As written, options never reach the environment: every option value is its
      default whatever the options map holds. */
  lemma OptionsIgnored(c: Container, k: OptionKey, v: string)
    ensures Environment(c)[OptionVar(k)] == Text(OptionDefault(k))
    ensures Environment(c.(options := c.options[k := v])) == Environment(c)
  {
  }

  /** Intended behaviour: an option set in the map is what the environment
      carries; an unset one falls back to its default. */
  lemma IntendedEnvironmentHonoursOptions(c: Container, k: OptionKey)
    ensures k in c.options ==> IntendedEnvironment(c)[OptionVar(k)] == Text(c.options[k])
    ensures k !in c.options ==> IntendedEnvironment(c)[OptionVar(k)] == Text(OptionDefault(k))
  {
  }

  /** The intended environment differs from the written one as soon as an
      option is set to something other than its default. */
  lemma OverrideLostAsWritten(c: Container, v: string)
    requires v != "eth0"
    ensures IntendedEnvironment(c.(options := c.options[BindInterface := v]))[OptionVar(BindInterface)] == Text(v)
    ensures Environment(c.(options := c.options[BindInterface := v]))[OptionVar(BindInterface)] == Text("eth0")
  {
  }

  // ---------------------------------------------------------------------------
  // configure().

  /** What `configure` hands to the container library. */
  datatype Plan = Plan(
    config: Option<Config>,
    exposedPorts: seq<int>,
    env: map<EnvName, EnvValue>,
    waitPort: int,
    startupTimeout: Option<int>,
    command: Option<string>)

  /** `configure`: com.hmhco first rewrites the TLS paths (so the written
      configuration carries the in-container paths), then binds ports, sets the
      environment, waits on the http port, applies the timeout when non-null and
      overrides the command only when a command object exists. org.jetax has no
      TLS copy and never sets a command. The environment is the intended one
      (see README, Findings). */
  function Configure(c: Container): (p: Plan)
    ensures c.pkg == Hmhco ==> p.config == RewriteTls(c.config)
    ensures c.pkg == Jetax ==> p.config == c.config
    ensures p.exposedPorts == ExposedPorts(c)
    ensures p.env == IntendedEnvironment(c.(config := p.config))
    ensures p.waitPort == ServicePort(c, Http)
    ensures p.startupTimeout == c.waitTimeout
    ensures p.command.Some? <==> c.pkg == Hmhco && c.command.Some?
    ensures p.command.Some? ==> p.command.value == AgentCommand.ToCommand(c.command.value)
  {
    var config := if c.pkg == Hmhco then RewriteTls(c.config) else c.config;
    var c' := c.(config := config);
    Plan(
      config,
      ExposedPorts(c'),
      IntendedEnvironment(c'),
      ServicePort(c', Http),
      c.waitTimeout,
      if c.pkg == Hmhco && c.command.Some? then Some(AgentCommand.ToCommand(c.command.value)) else None)
  }

  /** With TLS enabled, the configuration written into CONSUL_LOCAL_CONFIG
      points at the copied files, not at the class-path names. */
  lemma WrittenConfigUsesContainerPaths(c: Container)
    requires c.pkg == Hmhco && CopiesTls(c.config)
    ensures Configure(c).env[LocalConfigVar].config.caFile == Some(CaPath)
    ensures Configure(c).env[LocalConfigVar].config.certFile == Some(CertPath)
    ensures Configure(c).env[LocalConfigVar].config.keyFile == Some(KeyPath)
  {
  }

  /** A container made by the no-argument or configuration constructor keeps
      the image's own command, and an org.jetax options-only container has no
      local configuration entry. */
  lemma ConstructorsLeaveCommandAlone(pkg: Package, config: Option<Config>, options: Options)
    ensures Configure(NoArgContainer(pkg)).command.None?
    ensures Configure(ConfigContainer(pkg, config)).command.None?
    ensures LocalConfigVar !in Configure(OptionsContainer(options)).env
    ensures |Configure(OptionsContainer(options)).env| == 4
  {
    EnvironmentSize(OptionsContainer(options));
  }
}

/** ConsulContainerBuilder: a fluent builder holding one configuration, one
    options map and one command, plus the version, cluster size and wait
    timeout. Each `with*` call is a record update here; a call that would throw
    part-way returns the state reached before the throw with the failure. */
module Builder {
  import opened Wrappers
  import opened Failures
  import opened Configuration
  import Container
  import AgentCommand
  import Cluster
  import SharedCommand

  const DefaultWaitTimeout: int := 30
  const DefaultClusterSize: int := 1

  datatype Builder = Builder(
    pkg: Package,
    options: Container.Options,
    config: Config,
    command: AgentCommand.Command,
    clusterSize: int,
    version: Option<string>,
    waitTimeout: int)

  /** The state a shortcut leaves behind, and the exception it threw if any. */
  datatype Step = Step(builder: Builder, failure: Option<Failure>)

  /** The no-argument constructor. */
  function New(pkg: Package): (b: Builder)
    ensures b.pkg == pkg && b.config == EmptyConfig() && b.options == map[]
    ensures b.command == AgentCommand.Default()
    ensures b.version == Some(Container.DefaultVersion)
    ensures b.clusterSize == 1 && b.waitTimeout == 30
  {
    Builder(pkg, map[], EmptyConfig(), AgentCommand.Default(), DefaultClusterSize,
            Some(Container.DefaultVersion), DefaultWaitTimeout)
  }

  // ---------------------------------------------------------------------------
  // Plain setters.

  function WithOptions(b: Builder, options: Container.Options): (r: Builder)
    ensures r.options == options && r.(options := b.options) == b
  {
    b.(options := options)
  }

  /** `withOption` puts one entry into the options map. */
  function WithOption(b: Builder, key: Container.OptionKey, value: string): (r: Builder)
    ensures key in r.options && r.options[key] == value
    ensures forall k :: k != key ==> (k in r.options <==> k in b.options)
    ensures forall k :: k != key && k in b.options ==> r.options[k] == b.options[k]
    ensures r.(options := b.options) == b
  {
    b.(options := b.options[key := value])
  }

  function WithConfig(b: Builder, config: Config): (r: Builder)
    ensures r.config == config && r.(config := b.config) == b
  {
    b.(config := config)
  }

  /** A null version is stored as is; the container then falls back to the
      default image tag. */
  function WithContainerVersion(b: Builder, version: Option<string>): (r: Builder)
    ensures r.version == version && r.(version := b.version) == b
  {
    b.(version := version)
  }

  function WithDatacenter(b: Builder, datacenter: Option<string>): (r: Builder)
    ensures r.config.datacenter == datacenter
    ensures r.config.(datacenter := b.config.datacenter) == b.config && r.(config := b.config) == b
  {
    b.(config := b.config.(datacenter := datacenter))
  }

  function WithAcl(b: Builder, acl: Option<Acl>): (r: Builder)
    ensures r.config.acl == acl
    ensures r.config.(acl := b.config.acl) == b.config && r.(config := b.config) == b
  {
    b.(config := b.config.(acl := acl))
  }

  function WithPorts(b: Builder, ports: Option<Ports>): (r: Builder)
    ensures r.config.ports == ports
    ensures r.config.(ports := b.config.ports) == b.config && r.(config := b.config) == b
  {
    b.(config := b.config.(ports := ports))
  }

  /** `withWaitTimeout`: a null argument keeps the current timeout. */
  function WithWaitTimeout(b: Builder, seconds: Option<int>): (r: Builder)
    ensures seconds.None? ==> r == b
    ensures seconds.Some? ==> r.waitTimeout == seconds.value && r.(waitTimeout := b.waitTimeout) == b
  {
    if seconds.Some? then b.(waitTimeout := seconds.value) else b
  }

  /** A later non-null timeout wins; a later null one changes nothing. */
  lemma WaitTimeoutLastNonNullWins(b: Builder, s: int, t: Option<int>)
    ensures WithWaitTimeout(WithWaitTimeout(b, Some(s)), t).waitTimeout == (if t.Some? then t.value else s)
    ensures WithWaitTimeout(WithWaitTimeout(b, Some(s)), None) == WithWaitTimeout(b, Some(s))
  {
  }

  // ---------------------------------------------------------------------------
  // ACL shortcuts.

  /** Only the configuration's `acl` field may differ between `b` and `r`. */
  ghost predicate OnlyAclChanged(b: Builder, r: Builder) {
    r.(config := b.config) == b && r.config.(acl := b.config.acl) == b.config
  }

  /** `initAcl`: installs a fresh ACL when there is none, otherwise changes
      nothing. */
  function InitAcl(b: Builder): (r: Builder)
    ensures r.config.acl.Some? && OnlyAclChanged(b, r)
    ensures b.config.acl.Some? ==> r == b
    ensures b.config.acl.None? ==> r.config.acl.value == FreshAcl(b.pkg)
  {
    if b.config.acl.None? then b.(config := b.config.(acl := Some(FreshAcl(b.pkg)))) else b
  }

  lemma InitAclIdempotent(b: Builder)
    ensures InitAcl(InitAcl(b)) == InitAcl(b)
  {
  }

  /** `withACLEnabled`. */
  function WithAclEnabled(b: Builder): (r: Builder)
    ensures OnlyAclChanged(b, r) && r.config.acl.Some? && r.config.acl.value.enabled == Some(true)
    ensures var a := InitAcl(b).config.acl.value; r.config.acl.value.(enabled := a.enabled) == a
  {
    var b' := InitAcl(b);
    b'.(config := b'.config.(acl := Some(b'.config.acl.value.(enabled := Some(true)))))
  }

  /** `withACLDefaultPolicy`. */
  function WithAclDefaultPolicy(b: Builder, policy: Option<string>): (r: Builder)
    ensures OnlyAclChanged(b, r) && r.config.acl.Some? && r.config.acl.value.defaultPolicy == policy
    ensures var a := InitAcl(b).config.acl.value; r.config.acl.value.(defaultPolicy := a.defaultPolicy) == a
  {
    var b' := InitAcl(b);
    b'.(config := b'.config.(acl := Some(b'.config.acl.value.(defaultPolicy := policy))))
  }

  /** The tokens with a shortcut of their own. */
  datatype TokenKind = MasterToken | AgentToken | ReplicationToken | DefaultToken

  function TokenOf(t: Tokens, kind: TokenKind): Option<string> {
    match kind
    case MasterToken => t.master
    case AgentToken => t.agent
    case ReplicationToken => t.replication
    case DefaultToken => t.defaultToken
  }

  /** One token setter: its own token changes, no other. */
  function SetToken(t: Tokens, kind: TokenKind, value: Option<string>): (r: Tokens)
    ensures TokenOf(r, kind) == value
    ensures forall k :: k != kind ==> TokenOf(r, k) == TokenOf(t, k)
    ensures r.agentMaster == t.agentMaster
  {
    match kind
    case MasterToken => t.(master := value)
    case AgentToken => t.(agent := value)
    case ReplicationToken => t.(replication := value)
    case DefaultToken => t.(defaultToken := value)
  }

  /** `withMasterToken`, `withAgentToken`, `withReplicationToken`,
      `withDefaultToken`: ensure an ACL, then set the token through
      `getTokens()`, which throws when the ACL holds no Tokens record. The ACL
      installed before the throw stays installed. */
  function WithToken(b: Builder, kind: TokenKind, value: Option<string>): (r: Step)
    ensures OnlyAclChanged(b, r.builder) && r.builder.config.acl.Some?
    ensures r.failure.Some? <==> InitAcl(b).config.acl.value.tokens.None?
    ensures r.failure.Some? ==> r.failure.value == NullPointer && r.builder == InitAcl(b)
    ensures r.failure.None? ==>
              var a := InitAcl(b).config.acl.value;
              var t := r.builder.config.acl.value.tokens;
              t.Some? && r.builder.config.acl.value.(tokens := a.tokens) == a &&
              TokenOf(t.value, kind) == value &&
              (forall k :: k != kind ==> TokenOf(t.value, k) == TokenOf(a.tokens.value, k)) &&
              t.value.agentMaster == a.tokens.value.agentMaster
  {
    var b' := InitAcl(b);
    var a := b'.config.acl.value;
    if a.tokens.None? then Step(b', Some(NullPointer))
    else Step(b'.(config := b'.config.(acl := Some(a.(tokens := Some(SetToken(a.tokens.value, kind, value)))))), None)
  }

  /** The shortcut sequence of the configuration test on a com.hmhco builder:
      every setting survives the later ones, because `initAcl` reuses the ACL
      the first shortcut installed. */
  lemma AclShortcutsAccumulate(master: string, agent: string, replication: string, policy: string)
    ensures var b0 := WithAclEnabled(New(Hmhco));
            var s1 := WithToken(b0, MasterToken, Some(master));
            var s2 := WithToken(s1.builder, AgentToken, Some(agent));
            var s3 := WithToken(s2.builder, ReplicationToken, Some(replication));
            var b4 := WithAclDefaultPolicy(s3.builder, Some(policy));
            var acl := BuildConfig(b4).acl;
            s1.failure.None? && s2.failure.None? && s3.failure.None? &&
            acl.Some? && acl.value.enabled == Some(true) && acl.value.defaultPolicy == Some(policy) &&
            acl.value.tokens.Some? &&
            acl.value.tokens.value.master == Some(master) &&
            acl.value.tokens.value.agent == Some(agent) &&
            acl.value.tokens.value.replication == Some(replication)
  {
  }

  /** org.jetax: `initAcl` installs an ACL without Tokens, so a token shortcut
      on a builder without an ACL always throws; it succeeds only once an ACL
      carrying Tokens was supplied through `withACL`. */
  lemma JetaxTokenShortcutNeedsTokens(b: Builder, kind: TokenKind, value: Option<string>, tokens: Tokens)
    requires b.pkg == Jetax
    ensures b.config.acl.None? ==> WithToken(b, kind, value).failure == Some(NullPointer)
    ensures WithToken(WithAcl(b, Some(FreshAcl(Jetax).(tokens := Some(tokens)))), kind, value).failure.None?
  {
  }

  /** In com.hmhco a token shortcut on a builder without an ACL cannot throw. */
  lemma HmhcoTokenShortcutSucceeds(b: Builder, kind: TokenKind, value: Option<string>)
    requires b.pkg == Hmhco && b.config.acl.None?
    ensures WithToken(b, kind, value).failure.None?
  {
  }

  // ---------------------------------------------------------------------------
  // Command shortcuts.

  function Dev(b: Builder): (r: Builder)
    ensures r.command.dev && r.command.(dev := b.command.dev) == b.command && r.(command := b.command) == b
  {
    b.(command := AgentCommand.SetDev(b.command, true))
  }

  function Ui(b: Builder): (r: Builder)
    ensures r.command.ui && r.command.(ui := b.command.ui) == b.command && r.(command := b.command) == b
  {
    b.(command := AgentCommand.SetUi(b.command, true))
  }

  /** `join`: sets the join address and the retry flag together. */
  function Join(b: Builder, address: Option<string>, retry: bool): (r: Builder)
    ensures r.command.join == address && r.command.retryJoin == retry
    ensures r.command.(join := b.command.join, retryJoin := b.command.retryJoin) == b.command
    ensures r.(command := b.command) == b
  {
    b.(command := AgentCommand.SetRetryJoin(AgentCommand.SetJoin(b.command, address), retry))
  }

  /** `ui()` on a fresh builder is overridden by development mode, which the
      fresh command already has on. */
  lemma UiHiddenByDev()
    ensures AgentCommand.ToCommand(Ui(New(Hmhco)).command) == AgentCommand.ToCommand(New(Hmhco).command)
  {
    AgentCommand.RenderingDependsOnlyOnObserved(Ui(New(Hmhco)).command, New(Hmhco).command);
  }

  // ---------------------------------------------------------------------------
  // build(), cluster(), buildConfig().

  /** com.hmhco `build`: a container over the builder's own configuration,
      options and command. (The org.jetax `build` calls a constructor its
      container does not declare.) */
  function Build(b: Builder): (c: Container.Container)
    requires b.pkg == Hmhco
    ensures c == Container.FullContainer(Some(b.config), b.options, Some(b.command), b.version, Some(b.waitTimeout))
  {
    Container.Container(Hmhco, Container.ImageName(b.version), Some(b.config), b.options, Some(b.command),
                        Some(b.waitTimeout))
  }

  /** A fresh builder's container: the default image, the default ports
      exposed, readiness on 8500 within 30 seconds, and `agent -client 0.0.0.0 -dev`. */
  lemma FreshBuildPlan()
    ensures var c := Build(New(Hmhco));
            var p := Container.Configure(c);
            c.image == Container.ImageName(None) &&
            p.exposedPorts == [8500, 8501, 8600] && p.waitPort == 8500 &&
            p.startupTimeout == Some(30) &&
            p.command == Some("agent -client 0.0.0.0 -dev")
  {
    AgentCommand.DefaultRendersDev();
    var c := Build(New(Hmhco));
    assert c.config == Some(EmptyConfig()) && !Container.CopiesTls(c.config);
    assert Container.ConfiguredPorts(c).None?;
  }

  /** `buildConfig` hands out the builder's configuration itself. */
  function BuildConfig(b: Builder): Config {
    b.config
  }

  /** `cluster(size, network)`: a null or non-positive size throws before any
      cluster exists; otherwise a cluster of `size` empty slots. */
  function ClusterWith(b: Builder, size: Option<int>, network: Option<Cluster.NetId>)
    : (r: Result<Cluster.Cluster<Handle>, Failure>)
    ensures r.Err? <==> size.None? || size.value < 1
    ensures r.Err? ==> r.error == InvalidClusterSize(size)
    ensures r.Ok? ==> r.value.network == network && |r.value.slots| == size.value
    ensures r.Ok? ==> forall i :: 0 <= i < |r.value.slots| ==> r.value.slots[i].None?
  {
    if size.None? || size.value < 1 then Err(InvalidClusterSize(size))
    else Ok(Cluster.New(size.value, network).value)
  }

  /** `cluster(size)`: no network. */
  function ClusterOf(b: Builder, size: Option<int>): (r: Result<Cluster.Cluster<Handle>, Failure>)
    ensures r.Err? <==> size.None? || size.value < 1
    ensures r.Err? ==> r.error == InvalidClusterSize(size)
    ensures r.Ok? ==> r.value.network.None? && |r.value.slots| == size.value
    ensures r.Ok? ==> forall i :: 0 <= i < |r.value.slots| ==> r.value.slots[i].None?
  {
    ClusterWith(b, size, None)
  }

  /** A container handle of a builder-made cluster: the built container and
      the slot it was built for. Every slot gets an equal container, but each
      is a container of its own, whose start can succeed or throw on its own. */
  datatype Handle = Handle(slot: nat, container: Container.Container)

  /** The factory of a builder-made cluster is `this::build`. Docker's answers
      stay parameters, per slot: whether that container's `start()` returns,
      and the networks it reports. */
  function BuilderHost(b: Builder, startOk: nat -> bool,
                       networks: nat -> seq<(Cluster.NetId, Cluster.Ip)>)
    : Cluster.Host<Handle>
    requires b.pkg == Hmhco
  {
    Cluster.Host(i => Handle(i, Build(b)), (h: Handle) => h.container.command.Some?,
                 (h: Handle) => startOk(h.slot), (h: Handle) => networks(h.slot))
  }

  /** The address the members of a builder-made cluster join. */
  function AnchorIp(network: Option<Cluster.NetId>, networks: nat -> seq<(Cluster.NetId, Cluster.Ip)>): Cluster.Ip
    requires |networks(0)| > 0
  {
    Cluster.AnchorAddress(networks(0), network).value
  }

  /** The host of a builder-made cluster answers per slot. */
  lemma BuilderHostPerSlot(b: Builder, startOk: nat -> bool, networks: nat -> seq<(Cluster.NetId, Cluster.Ip)>)
    requires b.pkg == Hmhco
    ensures var host := BuilderHost(b, startOk, networks);
            forall i: nat :: host.create(i) == Handle(i, Build(b)) && host.hasCommand(host.create(i)) &&
                             host.startOk(host.create(i)) == startOk(i) &&
                             host.networks(host.create(i)) == networks(i) &&
                             (Cluster.MemberOk(host, i) <==> startOk(i))
  {
  }

  /** `start()` on a cluster the builder made: `size` empty slots, `size >= 1`.
      A built container always has a command, so it halts only because a
      start threw or the anchor reported no network. Members already started
      stay in their slots when a later one throws. */
  method StartBuilt(b: Builder, c: Cluster.Cluster<Handle>,
                    startOk: nat -> bool, networks: nat -> seq<(Cluster.NetId, Cluster.Ip)>)
    returns (r: Cluster.Cluster<Handle>, trace: seq<Cluster.Event>,
             halt: Option<Cluster.Halt>, launches: seq<SharedCommand.Launch>)
    requires b.pkg == Hmhco
    requires |c.slots| >= 1 && forall i :: 0 <= i < |c.slots| ==> c.slots[i].None?
    ensures |r.slots| == |c.slots| && r.network == c.network
    ensures halt.Some? ==> halt.value.failure == StartFailed || halt.value.failure == NoSuchElement
    ensures halt.Some? && halt.value.slot == 0 <==> !startOk(0) || |networks(0)| == 0
    ensures halt.None? <==> startOk(0) && |networks(0)| > 0 && forall i :: 1 <= i < |c.slots| ==> startOk(i)
    // the anchor's start threw: nothing stored, nothing launched
    ensures !startOk(0) ==>
              halt == Some(Cluster.Halt(0, StartFailed)) && launches == [] && r == c &&
              trace == Cluster.Bootstrap(0, c.network) + [Cluster.StartRefused(0)]
    // the anchor came up without a network: it stays in slot 0, launched
    ensures startOk(0) && |networks(0)| == 0 ==>
              halt == Some(Cluster.Halt(0, NoSuchElement)) && launches == [SharedCommand.Launch(0, b.command)] &&
              trace == Cluster.AnchorEvents(c.network) &&
              forall i :: 0 <= i < |c.slots| ==> r.slots[i] == (if i == 0 then Some(Handle(0, Build(b))) else None)
    // member k's start threw: slots below k keep their containers, k and later are empty
    ensures halt.Some? && halt.value.slot > 0 ==>
              halt.value.slot < |c.slots| && halt.value.failure == StartFailed &&
              !startOk(halt.value.slot) && (forall i :: 1 <= i < halt.value.slot ==> startOk(i)) &&
              |networks(0)| > 0 &&
              (forall i :: 0 <= i < |c.slots| ==>
                 r.slots[i] == (if i < halt.value.slot then Some(Handle(i, Build(b))) else None)) &&
              launches == SharedCommand.StartLaunches(b.command, AnchorIp(c.network, networks), halt.value.slot) &&
              trace == Cluster.AnchorEvents(c.network) +
                       Cluster.JoinPhase(halt.value.slot, c.network, AnchorIp(c.network, networks)) +
                       Cluster.Bootstrap(halt.value.slot, c.network) +
                       [Cluster.JoinSet(halt.value.slot, AnchorIp(c.network, networks)),
                        Cluster.RetrySet(halt.value.slot), Cluster.StartRefused(halt.value.slot)]
    ensures halt.None? ==>
              |networks(0)| > 0 &&
              (forall i :: 0 <= i < |c.slots| ==> r.slots[i] == Some(Handle(i, Build(b)))) &&
              launches == SharedCommand.StartLaunches(b.command, AnchorIp(c.network, networks), |c.slots|) &&
              trace == Cluster.AnchorEvents(c.network) +
                       Cluster.JoinPhase(|c.slots|, c.network, AnchorIp(c.network, networks))
  {
    var host := BuilderHost(b, startOk, networks);
    BuilderHostPerSlot(b, startOk, networks);
    r, trace, halt := Cluster.Start(c, host);
    var s0 := SharedCommand.Copies(map[], []);
    launches := SharedCommand.RunIsolated(b.command, s0, trace).launches;
    if halt.None? {
      SharedCommand.IsolatedStart(b.command, c.network, Cluster.Address(c, host), |c.slots|);
    } else if halt.value.slot > 0 {
      SharedCommand.IsolatedHaltAtMember(b.command, c.network, Cluster.Address(c, host), halt.value.slot, host);
    } else if !startOk(0) {
      SharedCommand.IsolatedRefusedAnchor(b.command, c.network);
    } else {
      SharedCommand.IsolatedAnchor(b.command, s0, c.network);
    }
  }

  /** `cluster(size, network).start()` on a com.hmhco builder: the size check
      first, then `start` on the fresh cluster.
      The launches are those of the corrected program, in which each container
      holds a private copy of the builder's command (see README, Findings).
      Within one start, whatever its outcome, they equal the launches as written
      (`SharedCommand.SharingInvisibleWithinOneStart`,
      `SharedCommand.SharingInvisibleAtAnchorHalt`,
      `SharedCommand.HaltedSharingInvisible`); the code differs in that
      the builder's own command is left holding the join afterwards. */
  method StartBuilderCluster(b: Builder, size: Option<int>, network: Option<Cluster.NetId>,
                             startOk: nat -> bool,
                             networks: nat -> seq<(Cluster.NetId, Cluster.Ip)>)
    returns (r: Result<Cluster.Cluster<Handle>, Failure>, trace: seq<Cluster.Event>,
             halt: Option<Cluster.Halt>, launches: seq<SharedCommand.Launch>)
    requires b.pkg == Hmhco
    ensures r.Err? <==> size.None? || size.value < 1
    ensures r.Err? ==> r.error == InvalidClusterSize(size) && trace == [] && halt.None? && launches == []
    ensures r.Ok? ==> |r.value.slots| == size.value && r.value.network == network
    ensures halt.Some? ==> halt.value.failure == StartFailed || halt.value.failure == NoSuchElement
    ensures r.Ok? ==> (halt.Some? && halt.value.slot == 0 <==> !startOk(0) || |networks(0)| == 0)
    ensures r.Ok? ==> (halt.None? <==> startOk(0) && |networks(0)| > 0 &&
                                       forall i :: 1 <= i < size.value ==> startOk(i))
    ensures r.Ok? && !startOk(0) ==>
              halt == Some(Cluster.Halt(0, StartFailed)) && launches == [] &&
              trace == Cluster.Bootstrap(0, network) + [Cluster.StartRefused(0)] &&
              forall i :: 0 <= i < size.value ==> r.value.slots[i].None?
    ensures r.Ok? && startOk(0) && |networks(0)| == 0 ==>
              halt == Some(Cluster.Halt(0, NoSuchElement)) && launches == [SharedCommand.Launch(0, b.command)] &&
              trace == Cluster.AnchorEvents(network) &&
              forall i :: 0 <= i < size.value ==> r.value.slots[i] == (if i == 0 then Some(Handle(0, Build(b))) else None)
    ensures halt.Some? && halt.value.slot > 0 ==>
              r.Ok? && halt.value.slot < size.value && halt.value.failure == StartFailed &&
              !startOk(halt.value.slot) && (forall i :: 1 <= i < halt.value.slot ==> startOk(i)) &&
              |networks(0)| > 0 &&
              (forall i :: 0 <= i < size.value ==>
                 r.value.slots[i] == (if i < halt.value.slot then Some(Handle(i, Build(b))) else None)) &&
              launches == SharedCommand.StartLaunches(b.command, AnchorIp(network, networks), halt.value.slot) &&
              trace == Cluster.AnchorEvents(network) +
                       Cluster.JoinPhase(halt.value.slot, network, AnchorIp(network, networks)) +
                       Cluster.Bootstrap(halt.value.slot, network) +
                       [Cluster.JoinSet(halt.value.slot, AnchorIp(network, networks)),
                        Cluster.RetrySet(halt.value.slot), Cluster.StartRefused(halt.value.slot)]
    ensures r.Ok? && halt.None? ==>
              |networks(0)| > 0 &&
              (forall i :: 0 <= i < size.value ==> r.value.slots[i] == Some(Handle(i, Build(b)))) &&
              launches == SharedCommand.StartLaunches(b.command, AnchorIp(network, networks), size.value) &&
              trace == Cluster.AnchorEvents(network) + Cluster.JoinPhase(size.value, network, AnchorIp(network, networks))
  {
    var made := ClusterWith(b, size, network);
    if made.Err? {
      return made, [], None, [];
    }
    var started;
    started, trace, halt, launches := StartBuilt(b, made.value, startOk, networks);
    r := Ok(started);
  }
}

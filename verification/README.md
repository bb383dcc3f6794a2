# Consul test containers, modelled in Dafny

This project models the logic of the Consul test-container library. The library
starts Consul agents in Docker containers for integration tests. Two Java
packages carry it: `com.hmhco.testcontainers.consul` and its older near-copy
`org.jetax.testcontainers.consul`. One Dafny model serves both. Where the two
packages differ, the difference is explicit through `Configuration.Package`:

- a fresh ACL has a Tokens record in com.hmhco and none in org.jetax;
- only com.hmhco copies TLS files and overrides the container command;
- only org.jetax has an options-only container constructor.

The modules follow the Java classes:

- `AgentCommand` (`command.dfy`): `ConsulCommand`, its four fields, setters and
  `toCommand`. It also gives the command line a reading as words: `Words`,
  `Split`, and `Parse` back to what the agent observes. These state what the
  rendering means.
- `Configuration` (`configuration.dfy`): `ConsulConfiguration` and its nested
  `Ports`, `ACL`, `Tokens`, `DNS` and `TLSConfig` records. Every Java
  reference becomes an `Option`. It covers the port filter, the TLS switch and
  the serialized key of every field.
- `Container` (`container.dfy`): the decisions `ConsulContainer` makes before
  Docker runs it. These are the image name, default and exposed ports, the TLS
  path rewrite and the environment. The `Plan` that `configure` hands to the
  container library collects them.
- `Cluster` (`cluster.dfy`): `ConsulCluster`, generic over the container
  handle. Docker's answers are a `Host` parameter and every call is an
  `Event`. `Start` is a method whose loop fills the slots; its contract covers
  success, each way of failing, and the exact event trace.
- `Builder` (`builder.dfy`): `ConsulContainerBuilder`, with the ACL shortcuts
  modelled as record updates. A shortcut that throws returns the state it
  reached before the throw.
- `SharedCommand` (`sharing.dfy`): which command object each container of a
  builder-made cluster starts with (see Findings).
- `Wrappers` and `Failures` (`wrappers.dfy`): `Option`, `Result`, and the Java
  exceptions the code can raise.

The model follows the code as written, including where its behaviour is surprising:

- The `ConsulCluster` constructor does not validate the size. Only the
  builder's `cluster` rejects a null size or a size below 1. A negative size
  fails inside the constructor, in the array allocation.
- With size 0, `start` still creates and starts the anchor. It then fails
  storing it into slot 0 (`Cluster.Start`, `IndexOutOfBounds(0)`).
- An exception from a member's `stop()` ends `stop` at once. No other slot is
  attempted (see Left out).

## Model

| member | source | states |
|---|---|---|
| `AgentCommand.SetDev` | src/main/java/com/hmhco/testcontainers/consul/ConsulCommand.java:36-38 | writes dev; ui, join and retryJoin keep their values |
| `AgentCommand.SetUi` | src/main/java/com/hmhco/testcontainers/consul/ConsulCommand.java:52-54 | writes ui; the other three fields keep their values |
| `AgentCommand.SetJoin` | src/main/java/com/hmhco/testcontainers/consul/ConsulCommand.java:68-70 | writes the join address (possibly null); the other fields keep their values |
| `AgentCommand.SetRetryJoin` | src/main/java/com/hmhco/testcontainers/consul/ConsulCommand.java:84-86 | writes retryJoin; the other fields keep their values |
| `AgentCommand.ToCommand` | src/main/java/com/hmhco/testcontainers/consul/ConsulCommand.java:93-108 | every rendered command begins with `agent -client 0.0.0.0`; it is longer than the prefix plus one mode flag exactly when a usable join address is set |
| `AgentCommand.RenderedIsSpaced` | src/main/java/com/hmhco/testcontainers/consul/ConsulCommand.java:94-106 | the rendering is `agent` followed by `-client 0.0.0.0`, the mode flag, `-join a`, `-retry-join a`, each word preceded by one space, in exactly that order |
| `AgentCommand.RenderedWords` | src/main/java/org/jetax/testcontainers/consul/ConsulCommand.java:46-62 | splitting the rendering at spaces gives back exactly the word vector: prefix, mode flag, join flags with the same address after both |
| `AgentCommand.ParseRendered` | src/main/java/com/hmhco/testcontainers/consul/ConsulCommand.java:95-106 | round trip: the words read back to the command's mode, join target and retry flag. So `-dev` appears iff dev is set; `-ui` iff ui is set and dev is not; `-join a` iff the address is non-null and non-empty; `-retry-join a` iff, in addition, retryJoin is set |
| `AgentCommand.RenderingDependsOnlyOnObserved` | src/main/java/com/hmhco/testcontainers/consul/ConsulCommand.java:95-105 | commands with the same mode, join target and retry render identically: ui is ignored in dev mode, and retryJoin is ignored without a usable address |
| `AgentCommand.RenderingDeterminesObserved` | src/main/java/org/jetax/testcontainers/consul/ConsulCommand.java:48-58 | conversely, two commands that render alike have the same mode, join target and retry flag |
| `AgentCommand.DefaultRendersDev` | src/main/java/com/hmhco/testcontainers/consul/ConsulCommand.java:20-22 | a fresh command (dev on, ui off, no join, no retry) renders exactly `agent -client 0.0.0.0 -dev` |
| `AgentCommand.DevJoinRenders` | src/main/java/com/hmhco/testcontainers/consul/ConsulCommand.java:101-105 | a dev agent told to join a non-empty address with retry renders `agent -client 0.0.0.0 -dev -join a -retry-join a` |
| `AgentCommand.RetryWithoutJoinIsInert` | src/main/java/org/jetax/testcontainers/consul/ConsulCommand.java:54-58 | setting retryJoin without a usable join address leaves the rendering unchanged |
| `Configuration.FreshAcl` | src/main/java/com/hmhco/testcontainers/consul/ConsulConfiguration.java:334-336 | a fresh ACL has every field null except the tokens. Tokens are present and empty exactly in com.hmhco; org.jetax's generated no-argument constructor leaves tokens null |
| `Configuration.Somes` | src/main/java/com/hmhco/testcontainers/consul/ConsulConfiguration.java:262-264 | the non-null filter keeps exactly the present values, as many as there are present entries |
| `Configuration.SomesPlacement` | src/main/java/org/jetax/testcontainers/consul/ConsulConfiguration.java:93-97 | the filter keeps order: a present entry lands at the index given by the number of present entries before it |
| `Configuration.PortsToExpose` | src/main/java/com/hmhco/testcontainers/consul/ConsulConfiguration.java:261-265 | the present ports among http, https, dns, in that order. At most three; empty iff all three are null; http first, https next, dns last when present |
| `Configuration.TlsNeedsAllThree` | src/main/java/com/hmhco/testcontainers/consul/ConsulConfiguration.java:503-505 | TLS is enabled iff the key, cert and CA names are all non-null and non-empty; nulling or emptying any one turns it off |
| `Configuration.KeyRoundTrip` | src/main/java/org/jetax/testcontainers/consul/ConsulConfiguration.java:17-79 | every serialized field has its own key and reads back to the same field. This includes the legacy `aclAgenMasterToken` and `aclAgenToken` under `acl_agent_master_token` and `acl_agent_token` |
| `Configuration.WrittenFields` | src/main/java/com/hmhco/testcontainers/consul/ConsulConfiguration.java:54-217 | the fields written are exactly the non-null, non-transient ones |
| `Configuration.EmptyConfigWritesNothing` | src/main/java/com/hmhco/testcontainers/consul/ConsulConfiguration.java:26-27 | a fresh configuration has every field null, so nothing is written |
| `Configuration.NodeNameOnlyWritesNodeName` | src/test/java/com/hmhco/testcontainers/consul/ConsulConfigurationTest.java:18-28 | a configuration with only the node name set is written with the single key `node_name` |
| `Configuration.LegacyAclWritesFlatKeys` | src/main/java/com/hmhco/testcontainers/consul/ConsulConfiguration.java:163-217 | the deprecated flat ACL fields are written under their own top-level keys, never merged into `acl` |
| `Configuration.TlsConfigNotWritten` | src/main/java/com/hmhco/testcontainers/consul/ConsulConfiguration.java:156 | the transient TLS class-path names never change what is written |
| `Container.ImageName` | src/main/java/com/hmhco/testcontainers/consul/ConsulContainer.java:71 | the image is `consul:` followed by the version, or by `1.4.0-rc1` when the version is null |
| `Container.NoArgContainer` | src/main/java/com/hmhco/testcontainers/consul/ConsulContainer.java:44-47 | default image, empty options, and no configuration, command or timeout |
| `Container.ConfigContainer` | src/main/java/com/hmhco/testcontainers/consul/ConsulContainer.java:54-57 | the container has the given package and configuration, the default image, no options, no command and no wait timeout |
| `Container.OptionsContainer` | src/main/java/org/jetax/testcontainers/consul/ConsulContainer.java:38-41 | org.jetax: the container has the given options, the default image, and no configuration, command or wait timeout |
| `Container.FullContainer` | src/main/java/com/hmhco/testcontainers/consul/ConsulContainer.java:68-76 | the five-argument constructor keeps the given configuration, options, command and timeout, and picks the image from the version |
| `Container.JetaxFullContainer` | src/main/java/org/jetax/testcontainers/consul/ConsulContainer.java:43-49 | the org.jetax four-argument constructor: the same without a command |
| `Container.ServicePort` | src/main/java/com/hmhco/testcontainers/consul/ConsulContainer.java:143-174 | the configured http/https/dns port when the configuration, its Ports and that port are all non-null; otherwise 8500, 8501 or 8600 |
| `Container.ExposedPorts` | src/main/java/com/hmhco/testcontainers/consul/ConsulContainer.java:100-107 | the Ports object's filtered list when one exists, otherwise exactly [8500, 8501, 8600] |
| `Container.ExposedPortsMatchGetters` | src/main/java/org/jetax/testcontainers/consul/ConsulContainer.java:68-108 | without a Ports object, or with all three ports set, the exposed list is exactly what the three getters report, in order |
| `Container.HealthCheckPortExposure` | src/main/java/com/hmhco/testcontainers/consul/ConsulContainer.java:84-86 | the readiness port is exposed when http is configured or no Ports object exists. A Ports object without http exposes it only if https or dns is 8500 |
| `Container.RewriteTls` | src/main/java/com/hmhco/testcontainers/consul/ConsulContainer.java:122-136 | with TLS present and enabled, the CA, cert and key paths become `/consul/config/ca`, `/consul/config/cert` and `/consul/config/key`, and nothing else changes; otherwise the configuration is untouched |
| `Container.RewriteTlsIdempotent` | src/main/java/com/hmhco/testcontainers/consul/ConsulContainer.java:133-135 | applying the rewrite twice equals applying it once, and it does not switch TLS on or off |
| `Container.EnvVarNamesDistinct` | src/main/java/com/hmhco/testcontainers/consul/ConsulContainerOptions.java:21-45 | the four option variables and `CONSUL_LOCAL_CONFIG` have pairwise distinct names |
| `Container.EnvWith` | src/main/java/com/hmhco/testcontainers/consul/ConsulContainer.java:109-117 | one entry per option with its looked-up value, plus `CONSUL_LOCAL_CONFIG` exactly when a configuration is present: 5 entries or 4 |
| `Container.EnvironmentSize` | src/main/java/org/jetax/testcontainers/consul/ConsulContainer.java:77-85 | the environment as written and as intended both have 4 entries, or 5 with a configuration |
| `Container.OptionsIgnored` | src/main/java/com/hmhco/testcontainers/consul/ConsulContainer.java:111-112 | as written, every option variable carries its default whatever the options map holds |
| `Container.IntendedEnvironmentHonoursOptions` | src/main/java/com/hmhco/testcontainers/consul/ConsulContainer.java:110-113 | looked up by the enum constant, a set option reaches the environment and an unset one falls back to its default |
| `Container.OverrideLostAsWritten` | src/main/java/org/jetax/testcontainers/consul/ConsulContainer.java:78-81 | an interface other than `eth0` set through the options is lost as written and kept as intended |
| `Container.Configure` | src/main/java/com/hmhco/testcontainers/consul/ConsulContainer.java:79-97 | TLS is rewritten first (com.hmhco only); the exposed ports, the environment of the rewritten configuration, and readiness on the http port follow; the timeout applies only when non-null; the command is overridden only in com.hmhco with a command object |
| `Container.WrittenConfigUsesContainerPaths` | src/main/java/com/hmhco/testcontainers/consul/ConsulContainer.java:80-82 | because files are copied before the environment is set, the configuration written into the container names the in-container TLS paths |
| `Container.ConstructorsLeaveCommandAlone` | src/main/java/org/jetax/testcontainers/consul/ConsulContainer.java:51-65 | the no-argument and configuration constructors leave the image's own command; an options-only container gets no local configuration entry |
| `Cluster.New` | src/main/java/com/hmhco/testcontainers/consul/ConsulCluster.java:31-36 | exactly `size` slots, all empty, in index order (what `getContainers` lists). Only a negative size fails, in the array allocation |
| `Cluster.Find` | src/main/java/com/hmhco/testcontainers/consul/ConsulCluster.java:80-81 | the entry for a network id is found iff the anchor reports that id, and it is the first such entry |
| `Cluster.AnchorAddress` | src/main/java/com/hmhco/testcontainers/consul/ConsulCluster.java:78-85 | fails iff the anchor reports no network. Otherwise it is the requested network's address when reported, else the first reported address; it is always one of the anchor's own addresses |
| `Cluster.AddressOnRequestedNetwork` | src/main/java/org/jetax/testcontainers/consul/ConsulCluster.java:53-56 | when the requested network is reported at any position, the chosen address belongs to that network |
| `Cluster.Start` | src/main/java/com/hmhco/testcontainers/consul/ConsulCluster.java:41-47 | halts at slot 0 iff the anchor does not come up: its start throws (StartFailed), there is no slot 0 (IndexOutOfBounds), or it reports no network (NoSuchElement), each with its exact trace. Succeeds iff, in addition, every member has a command and starts; then every slot holds its container and the trace is the anchor's events followed by the join phase |
| `Cluster.JoinMembers` | src/main/java/com/hmhco/testcontainers/consul/ConsulCluster.java:93-101 | a halt at member k means members 1..k-1 succeeded and member k did not (NullPointer without a command, else StartFailed). Slots below k hold their containers and later slots are unchanged (no rollback), and the trace ends with member k's partial events |
| `Cluster.FactoryCalledPerSlot` | src/main/java/org/jetax/testcontainers/consul/ConsulCluster.java:26-32 | a successful start calls the factory exactly `size` times |
| `Cluster.JoinPhaseBlocks` | src/main/java/com/hmhco/testcontainers/consul/ConsulCluster.java:93-100 | member i's events (created, attached, join set, retry set, started) come as one block right after those of members 1..i-1, and every later event concerns a higher slot: its join is set before its start, and members run strictly in slot order |
| `Cluster.JoinsTargetAnchor` | src/main/java/com/hmhco/testcontainers/consul/ConsulCluster.java:44-46 | every join names the anchor's address, and only slots 1..size-1 get one; with size 1 the join phase is empty |
| `Cluster.EveryMemberJoins` | src/main/java/org/jetax/testcontainers/consul/ConsulCluster.java:62-70 | every member 1..size-1 gets the join address, the retry flag and a start |
| `Cluster.StopEvents` | src/main/java/com/hmhco/testcontainers/consul/ConsulCluster.java:52-58 | stop stops exactly the non-empty slots, each once, in increasing slot order |
| `Cluster.StopAfterStart` | src/main/java/org/jetax/testcontainers/consul/ConsulCluster.java:34-40 | after a successful start every slot is stopped in order. After a start that halted at member k on a fresh cluster, exactly slots 0..k-1 are stopped |
| `Builder.New` | src/main/java/com/hmhco/testcontainers/consul/ConsulContainerBuilder.java:50-57 | a fresh builder has version `1.4.0-rc1`, wait timeout 30, cluster size 1, an empty configuration and options, and the default command |
| `Builder.WithOptions` | src/main/java/com/hmhco/testcontainers/consul/ConsulContainerBuilder.java:65-68 | replaces the options and nothing else |
| `Builder.WithOption` | src/main/java/com/hmhco/testcontainers/consul/ConsulContainerBuilder.java:77-80 | sets one option; every other option and field is unchanged |
| `Builder.WithConfig` | src/main/java/com/hmhco/testcontainers/consul/ConsulContainerBuilder.java:87-90 | replaces the configuration and nothing else |
| `Builder.WithContainerVersion` | src/main/java/com/hmhco/testcontainers/consul/ConsulContainerBuilder.java:98-101 | stores the version, null included, and nothing else |
| `Builder.WithDatacenter` | src/main/java/com/hmhco/testcontainers/consul/ConsulContainerBuilder.java:109-112 | writes the datacenter field only |
| `Builder.WithAcl` | src/main/java/com/hmhco/testcontainers/consul/ConsulContainerBuilder.java:119-122 | writes the acl field only |
| `Builder.WithPorts` | src/main/java/com/hmhco/testcontainers/consul/ConsulContainerBuilder.java:246-249 | writes the ports field only |
| `Builder.WithWaitTimeout` | src/main/java/com/hmhco/testcontainers/consul/ConsulContainerBuilder.java:234-239 | a null timeout leaves the builder unchanged; a non-null one replaces the timeout and nothing else |
| `Builder.WaitTimeoutLastNonNullWins` | src/main/java/org/jetax/testcontainers/consul/ConsulContainerBuilder.java:141-146 | after two calls, the timeout is the last non-null one |
| `Builder.InitAcl` | src/main/java/com/hmhco/testcontainers/consul/ConsulContainerBuilder.java:192-196 | installs a fresh ACL only when none exists and touches nothing else; an existing ACL is kept as is |
| `Builder.InitAclIdempotent` | src/main/java/org/jetax/testcontainers/consul/ConsulContainerBuilder.java:117-121 | calling initAcl twice equals calling it once |
| `Builder.WithAclEnabled` | src/main/java/com/hmhco/testcontainers/consul/ConsulContainerBuilder.java:172-176 | enables the ACL; every other ACL and configuration field is as after initAcl |
| `Builder.WithAclDefaultPolicy` | src/main/java/com/hmhco/testcontainers/consul/ConsulContainerBuilder.java:183-187 | sets the default policy; every other ACL and configuration field is as after initAcl |
| `Builder.SetToken` | src/main/java/com/hmhco/testcontainers/consul/ConsulContainerBuilder.java:129-166 | each token shortcut writes its own token and no other |
| `Builder.WithToken` | src/main/java/org/jetax/testcontainers/consul/ConsulContainerBuilder.java:65-96 | ensures an ACL, then throws NullPointer iff that ACL has no Tokens record (the installed ACL stays). Otherwise it writes exactly its token, leaving other tokens, ACL fields and configuration fields unchanged |
| `Builder.AclShortcutsAccumulate` | src/test/java/com/hmhco/testcontainers/consul/ConsulConfigurationTest.java:58-77 | in com.hmhco, enabling ACL, then master, agent and replication tokens, then a default policy, keeps every setting |
| `Builder.JetaxTokenShortcutNeedsTokens` | src/main/java/org/jetax/testcontainers/consul/ConsulContainerBuilder.java:117-121 | in org.jetax a token shortcut on a builder without an ACL always throws NullPointer; it succeeds once an ACL carrying Tokens is supplied |
| `Builder.HmhcoTokenShortcutSucceeds` | src/main/java/com/hmhco/testcontainers/consul/ConsulConfiguration.java:334-336 | in com.hmhco a token shortcut on a builder without an ACL never throws |
| `Builder.Dev` | src/main/java/com/hmhco/testcontainers/consul/ConsulContainerBuilder.java:202-205 | turns dev on; nothing else changes |
| `Builder.Ui` | src/main/java/com/hmhco/testcontainers/consul/ConsulContainerBuilder.java:211-214 | turns ui on; nothing else changes |
| `Builder.Join` | src/main/java/com/hmhco/testcontainers/consul/ConsulContainerBuilder.java:222-226 | sets both the join address and the retry flag, and nothing else |
| `Builder.UiHiddenByDev` | src/main/java/org/jetax/testcontainers/consul/ConsulContainerBuilder.java:130-133 | ui() on a fresh builder does not change the rendered command, because dev is already on |
| `Builder.Build` | src/main/java/com/hmhco/testcontainers/consul/ConsulContainerBuilder.java:255-257 | the container gets the builder's own configuration, options, command, version and timeout |
| `Builder.FreshBuildPlan` | src/main/java/com/hmhco/testcontainers/consul/ConsulContainerBuilder.java:13-15 | a fresh builder's container runs image `consul:1.4.0-rc1` with `agent -client 0.0.0.0 -dev`. It exposes 8500, 8501 and 8600 and waits on 8500 for 30 seconds |
| `Builder.ClusterWith` | src/main/java/com/hmhco/testcontainers/consul/ConsulContainerBuilder.java:266-271 | fails with InvalidClusterSize iff the size is null or below 1, before any cluster exists; otherwise `size` empty slots on the given network |
| `Builder.ClusterOf` | src/main/java/com/hmhco/testcontainers/consul/ConsulContainerBuilder.java:278-280 | `cluster(size)` fails with InvalidClusterSize iff the size is null or below 1; otherwise `size` empty slots and no network, as `cluster(size, null)` |
| `Builder.StartBuilt` | src/main/java/com/hmhco/testcontainers/consul/ConsulCluster.java:73-101 | on a fresh builder-made cluster each slot's start succeeds or throws on its own. Halts at slot 0 iff the anchor throws (nothing stored or launched) or reports no network (anchor kept in slot 0, launched). A throw at member k keeps slots below k filled and k onwards empty, with the anchor and members 1..k-1 launched. Success iff every start returns; then slot i holds the container built for slot i. In every case the event trace is the anchor's events, the join phase up to the halt, and the failing member's creation, join, retry and refused start |
| `Builder.StartBuilderCluster` | src/main/java/com/hmhco/testcontainers/consul/ConsulContainerBuilder.java:255-271 | fails with InvalidClusterSize iff the size is null or below 1, before anything starts. Otherwise it halts at slot 0 iff the anchor's start throws or it reports no network, and succeeds iff, in addition, every member's start returns. If the anchor throws, nothing is stored or launched. Without a network, the anchor stays in slot 0. If member k throws, slots below k hold their containers, the rest stay empty, and the anchor and members 1..k-1 have launched. On success slot i holds the container built for it; the anchor launches with the builder's command and every member with the joined command. Each outcome also fixes the event trace |
| `SharedCommand.Joined` | src/main/java/com/hmhco/testcontainers/consul/ConsulCluster.java:96-98 | after bootstrapNext, the command joins the given address with retry on; dev and ui are kept |
| `SharedCommand.SharedStart` | src/main/java/com/hmhco/testcontainers/consul/ConsulCluster.java:93-100 | with one command object shared by all containers, a start of n slots launches the anchor with the original command and each member with the join. From two slots on, the shared object is left holding the join |
| `SharedCommand.SharedStartRewritesBuilder` | src/main/java/com/hmhco/testcontainers/consul/ConsulContainerBuilder.java:255-257 | as written, the builder's own command holds the anchor's address with retry after a start of two or more slots |
| `SharedCommand.SecondStartAnchorJoins` | src/main/java/com/hmhco/testcontainers/consul/ConsulContainerBuilder.java:266-271 | as written, a second cluster from the same builder starts its anchor with `-join a -retry-join a` of the first cluster's anchor, where the first ran plain `-dev` |
| `SharedCommand.IsolatedStart` | src/main/java/com/hmhco/testcontainers/consul/ConsulCluster.java:44-46 | with a private copy per container, every start launches the anchor with the builder's command and each member with the joined copy |
| `SharedCommand.SharingInvisibleWithinOneStart` | src/main/java/org/jetax/testcontainers/consul/ConsulCluster.java:62-70 | within one successful start the shared and private-copy versions launch the same commands; the anchor always gets the builder's command |
| `SharedCommand.SharedMemberFailure` | src/main/java/com/hmhco/testcontainers/consul/ConsulCluster.java:93-99 | as written, a member whose start throws launches nothing. If it had a command object, the join and retry were already written into the shared command |
| `SharedCommand.SharingInvisibleAtAnchorHalt` | src/main/java/com/hmhco/testcontainers/consul/ConsulCluster.java:73-85 | a start that stops at the anchor launches the same in both versions: nothing if the anchor's start throws, and the anchor once with the builder's command if it reports no network |
| `SharedCommand.HaltedSharingInvisible` | src/main/java/com/hmhco/testcontainers/consul/ConsulCluster.java:93-101 | a start that halts at member k launches the same in both versions: the anchor and members 1..k-1, as in the first k launches of a successful start |

## Left out

- Docker and Testcontainers calls are not modelled: `start`, `stop`, `withNetwork`, reading the container's network settings, `withExposedPorts`, `withEnv`, `withCommand`. Their answers are parameters (`Cluster.Host`), and the calls become `Cluster.Event`s or fields of `Container.Plan`.
- Readiness waiting (HTTP polling of `/v1/status/leader` with a wall-clock timeout) is external. Only the port waited on and the timeout value are modelled.
- The JSON text of `CONSUL_LOCAL_CONFIG` is produced by a reflective library. The model keeps the configuration value (`Container.EnvValue.ConfigJson`) and, in `Configuration`, the key of each field and which fields are written. Key order and nested-object text are not modelled.
- Copying the TLS files from the class path (`MountableFile`) is not modelled, only the path rewrite.
- The network map is a sequence, and its "first" entry is the first element. The iteration order of the `Map` the container reports decides the real first entry; that order is outside the model.
- The handle factory is called once per slot, in slot order, so a handle is identified by its slot. In a builder-made cluster each slot's container is built alike, while its start outcome and reported networks are per-slot parameters (`Builder.BuilderHost`).
- `stop()` failures are not modelled. In the code an exception from one member's stop ends `stop` without attempting the remaining slots.
- The `Boolean` setters of `ConsulCommand` throw on a null argument; the model's setters take `bool`. No caller in the core passes null.
- A null builder configuration is not modelled: the builder always holds one. In the code `withConfig(null)` is harmless to `build`, `buildConfig` and `start`, because every use in the container is null-guarded: the container gets no `CONSUL_LOCAL_CONFIG` and the default ports. Only the configuration shortcuts (`withDatacenter`, `withACL`, the ACL and token shortcuts, `withPorts`) then throw NullPointer.
- A null options map is not modelled either. After `withOptions(null)`, `withOption` throws NullPointer, and so does the start of any container built from it, since `setEnv` reads the map unguarded.
- Aliasing of the builder's configuration and options: containers are values here. The TLS rewrite every container applies to the shared configuration is covered by `Container.RewriteTlsIdempotent`. The shared command is covered by `SharedCommand`.
- `Builder.Build` requires a com.hmhco builder. The org.jetax `build` calls a five-argument container constructor that org.jetax does not declare. Likewise org.jetax `bootstrapNext` calls `getConsulCommand`, which its container lacks. The cluster model therefore describes the org.jetax cluster as if that method existed.
- `AgentCommand.ParseRendered`, `AgentCommand.RenderedWords` and `AgentCommand.RenderingDeterminesObserved` require a join address without spaces. The rendering itself is stated for every address by `AgentCommand.RenderedIsSpaced`, but a space inside the address makes the words ambiguous.
- `Container.Configure`: the environment is computed with the corrected option lookup (see Findings), not the one the code uses.
- `Builder.StartBuilderCluster`: launches are given for the corrected program, each container holding a private copy of the builder's command. Within one start, whatever its outcome, they equal the launches as written (`SharedCommand.SharingInvisibleWithinOneStart`, `SharedCommand.SharingInvisibleAtAnchorHalt`, `SharedCommand.HaltedSharingInvisible`). The method does not state that, in the code, the builder's own command is left holding the join; `SharedCommand.SharedStartRewritesBuilder` states that.

## Findings

| source | as written | input that shows it | evidently intended | confidence | as-written member | corrected member |
|---|---|---|---|---|---|---|
| src/main/java/com/hmhco/testcontainers/consul/ConsulContainer.java:111-112 | `setEnv` looks each option up with `getOptionName()`, a String, in a map keyed by the option enum, so the lookup never matches (the same in org.jetax at lines 79-80) | `withOption(BIND_INTERFACE, "eth1")`, then build: the container still gets `CONSUL_BIND_INTERFACE=eth0` | look the option up by its enum constant, so a set option reaches the environment | high; not executed | `Container.OptionsIgnored` | `Container.IntendedEnvironmentHonoursOptions` |
| src/main/java/com/hmhco/testcontainers/consul/ConsulContainerBuilder.java:255-257 | `build` hands every container the builder's own command object. `bootstrapNext` sets join and retry on that object, so after a cluster of two or more starts, the builder itself holds the join | fresh builder, `cluster(2)` started with the anchor at 172.17.0.2, then a second `cluster(2)` from the same builder: its anchor starts with `agent -client 0.0.0.0 -dev -join 172.17.0.2 -retry-join 172.17.0.2` | each container holds its own copy of the command, and the builder's command is unchanged by a start | medium; not executed | `SharedCommand.SecondStartAnchorJoins` | `SharedCommand.IsolatedStart` |

The rest of the model uses the corrected behaviour:

- `Container.Configure` uses the intended environment.
- `Builder.StartBuilderCluster` replays the start with a private copy per container (`SharedCommand.RunIsolated`).

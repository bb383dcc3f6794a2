/** The agent configuration records (ConsulConfiguration and its nested Ports,
    ACL, Tokens, DNS and TLSConfig classes). Every Java reference field becomes an
    `Option`; Lombok accessors become plain field reads and record updates. Both
    Java packages declare the same fields with the same serialized keys; they
    differ only in what a fresh ACL holds (see `FreshAcl`). */
module Configuration {
  import opened Wrappers

  /** Which of the two Java packages a value comes from. */
  datatype Package = Hmhco | Jetax

  datatype Ports = Ports(http: Option<int>, https: Option<int>, dns: Option<int>)

  datatype Tokens = Tokens(
    agent: Option<string>,
    agentMaster: Option<string>,
    defaultToken: Option<string>,
    master: Option<string>,
    replication: Option<string>)

  datatype Acl = Acl(
    enabled: Option<bool>,
    tokenReplication: Option<bool>,
    policyTtl: Option<string>,
    tokenTtl: Option<string>,
    defaultPolicy: Option<string>,
    downPolicy: Option<string>,
    tokens: Option<Tokens>)

  datatype Dns = Dns(
    allowStale: Option<bool>,
    disableCompression: Option<bool>,
    enableTruncate: Option<bool>,
    maxStale: Option<string>,
    nodeTtl: Option<string>,
    onlyPassing: Option<string>)

  /** Class-path names of the TLS files to copy into the container. */
  datatype TlsConfig = TlsConfig(caFile: Option<string>, certFile: Option<string>, keyFile: Option<string>)

  /** The top-level configuration. The `acl*` fields at the end are the flat
      ACL settings deprecated since Consul 1.4.0; they coexist with `acl` and are
      never merged into it. */
  datatype Config = Config(
    datacenter: Option<string>,
    nodeName: Option<string>,
    isServer: Option<bool>,
    keyFile: Option<string>,
    certFile: Option<string>,
    caFile: Option<string>,
    logLevel: Option<string>,
    enableDebug: Option<bool>,
    rejoinAfterLeave: Option<bool>,
    primaryDatacenter: Option<string>,
    verifyIncoming: Option<bool>,
    verifyOutgoing: Option<bool>,
    ports: Option<Ports>,
    acl: Option<Acl>,
    dns: Option<Dns>,
    tlsConfig: Option<TlsConfig>,
    aclAgentMasterToken: Option<string>,
    aclAgentToken: Option<string>,
    aclDatacenter: Option<string>,
    aclDefaultPolicy: Option<string>,
    aclDownPolicy: Option<string>,
    aclMasterToken: Option<string>,
    aclReplicationToken: Option<string>)

  /** The no-argument constructor: every field null. */
  function EmptyConfig(): Config {
    Config(None, None, None, None, None, None, None, None, None, None, None, None,
           None, None, None, None, None, None, None, None, None, None, None)
  }

  function EmptyTokens(): Tokens {
    Tokens(None, None, None, None, None)
  }

  /** A freshly constructed ACL. In com.hmhco the constructor installs an empty
      Tokens record; org.jetax has no constructor body, so tokens stay null. */
  function FreshAcl(pkg: Package): (a: Acl)
    ensures a.enabled.None? && a.tokenReplication.None? && a.policyTtl.None?
    ensures a.tokenTtl.None? && a.defaultPolicy.None? && a.downPolicy.None?
    ensures a.tokens.Some? <==> pkg == Hmhco
    ensures a.tokens.Some? ==> a.tokens.value == EmptyTokens()
  {
    match pkg
    case Hmhco => Acl(None, None, None, None, None, None, Some(EmptyTokens()))
    case Jetax => Acl(None, None, None, None, None, None, None)
  }

  // ---------------------------------------------------------------------------
  // Ports to expose: the non-null ports, in declaration order.

  /** How many entries of `xs` are present. */
  function CountSome(xs: seq<Option<int>>): nat
    ensures CountSome(xs) <= |xs|
  {
    if |xs| == 0 then 0 else (if xs[0].Some? then 1 else 0) + CountSome(xs[1..])
  }

  lemma CountSomeSplit(xs: seq<Option<int>>, i: nat)
    requires 0 < i <= |xs|
    ensures CountSome(xs[..i]) == (if xs[0].Some? then 1 else 0) + CountSome(xs[1..][..i-1])
  {
    assert xs[..i][1..] == xs[1..][..i-1];
  }

  /** The present values of `xs`, keeping their order (`Stream.filter(nonNull)`). */
  function Somes(xs: seq<Option<int>>): (r: seq<int>)
    ensures |r| == CountSome(xs)
    ensures forall x :: x in r <==> Some(x) in xs
  {
    if |xs| == 0 then []
    else
      var rest := Somes(xs[1..]);
      assert xs == [xs[0]] + xs[1..];
      if xs[0].Some? then [xs[0].value] + rest else rest
  }

  /** Order is kept: each present entry lands at the position given by the
      number of present entries before it. */
  lemma {:induction false} SomesPlacement(xs: seq<Option<int>>, i: nat)
    requires i < |xs| && xs[i].Some?
    ensures CountSome(xs[..i]) < |Somes(xs)|
    ensures Somes(xs)[CountSome(xs[..i])] == xs[i].value
    decreases i
  {
    if i > 0 {
      CountSomeSplit(xs, i);
      assert xs[1..][i - 1] == xs[i];
      SomesPlacement(xs[1..], i - 1);
      var rest := Somes(xs[1..]);
      if xs[0].Some? {
        assert Somes(xs) == [xs[0].value] + rest;
      } else {
        assert Somes(xs) == rest;
      }
    } else {
      assert xs[..0] == [];
    }
  }

  /** `Ports.getPortsToExpose`: the configured ports among http, https and dns,
      in that order, absent ones dropped. */
  function PortsToExpose(p: Ports): (r: seq<int>)
    ensures |r| <= 3
    ensures r == [] <==> p.http.None? && p.https.None? && p.dns.None?
    ensures |r| == (if p.http.Some? then 1 else 0) + (if p.https.Some? then 1 else 0) + (if p.dns.Some? then 1 else 0)
    ensures p.http.Some? ==> r[0] == p.http.value
    ensures p.https.Some? ==> r[if p.http.Some? then 1 else 0] == p.https.value
    ensures p.dns.Some? ==> r[|r| - 1] == p.dns.value
    ensures forall x :: x in r <==> Some(x) in [p.http, p.https, p.dns]
  {
    PortsPlacement(p);
    Somes([p.http, p.https, p.dns])
  }

  lemma PortsPlacement(p: Ports)
    ensures var xs := [p.http, p.https, p.dns];
      && CountSome(xs) == (if p.http.Some? then 1 else 0) + (if p.https.Some? then 1 else 0) + (if p.dns.Some? then 1 else 0)
      && (p.http.Some? ==> Somes(xs)[0] == p.http.value)
      && (p.https.Some? ==> Somes(xs)[if p.http.Some? then 1 else 0] == p.https.value)
      && (p.dns.Some? ==> Somes(xs)[|Somes(xs)| - 1] == p.dns.value)
  {
    var xs := [p.http, p.https, p.dns];
    assert xs[1..] == [p.https, p.dns] && xs[1..][1..] == [p.dns] && xs[1..][1..][1..] == [];
    assert xs[..0] == [] && xs[..1] == [p.http] && xs[..2] == [p.http, p.https];
    assert xs[..1][1..] == [] && xs[..2][1..] == [p.https] && [p.https][1..] == [];
    if p.http.Some? { SomesPlacement(xs, 0); }
    if p.https.Some? { SomesPlacement(xs, 1); }
    if p.dns.Some? { SomesPlacement(xs, 2); }
  }

  // ---------------------------------------------------------------------------
  // TLS

  /** `StringUtils.isNotEmpty`: non-null and at least one character. */
  predicate NotEmpty(s: Option<string>) {
    s.Some? && |s.value| > 0
  }

  /** `TLSConfig.tlsEnabled`. */
  predicate TlsEnabled(t: TlsConfig) {
    NotEmpty(t.keyFile) && NotEmpty(t.certFile) && NotEmpty(t.caFile)
  }

  /** TLS is on only with all three names present and non-empty: dropping or
      emptying any one of them turns it off. */
  lemma TlsNeedsAllThree(t: TlsConfig, key: string, cert: string, ca: string)
    ensures TlsEnabled(TlsConfig(Some(ca), Some(cert), Some(key))) <==> key != "" && cert != "" && ca != ""
    ensures !TlsEnabled(t.(keyFile := None)) && !TlsEnabled(t.(certFile := None)) && !TlsEnabled(t.(caFile := None))
    ensures !TlsEnabled(t.(keyFile := Some(""))) && !TlsEnabled(t.(certFile := Some(""))) &&
            !TlsEnabled(t.(caFile := Some("")))
  {
  }

  // ---------------------------------------------------------------------------
  // Serialized keys. The JSON text itself is produced by a reflective library
  // outside this model; what the source fixes is the key of each field, that
  // null fields are skipped and that the transient TLS field is never written.

  datatype Field =
    | Datacenter | NodeName | Server | KeyFile | CertFile | CaFile | LogLevel
    | EnableDebug | RejoinAfterLeave | PrimaryDatacenter | VerifyIncoming
    | VerifyOutgoing | PortsField | AclField | DnsField | TlsConfigField
    | AclAgentMasterToken | AclAgentToken | AclDatacenter | AclDefaultPolicy
    | AclDownPolicy | AclMasterToken | AclReplicationToken

  const AllFields: seq<Field> := [
    Datacenter, NodeName, Server, KeyFile, CertFile, CaFile, LogLevel,
    EnableDebug, RejoinAfterLeave, PrimaryDatacenter, VerifyIncoming,
    VerifyOutgoing, PortsField, AclField, DnsField, TlsConfigField,
    AclAgentMasterToken, AclAgentToken, AclDatacenter, AclDefaultPolicy,
    AclDownPolicy, AclMasterToken, AclReplicationToken]

  /** Only the TLS class-path names are transient. */
  predicate Transient(f: Field) {
    f == TlsConfigField
  }

  /** The key each non-transient field is written under. */
  function Key(f: Field): string
    requires !Transient(f)
  {
    match f
    case Datacenter => "datacenter"
    case NodeName => "node_name"
    case Server => "server"
    case KeyFile => "key_file"
    case CertFile => "cert_file"
    case CaFile => "ca_file"
    case LogLevel => "log_level"
    case EnableDebug => "enable_debug"
    case RejoinAfterLeave => "rejoin_after_leave"
    case PrimaryDatacenter => "primary_datacenter"
    case VerifyIncoming => "verify_incoming"
    case VerifyOutgoing => "verify_outgoing"
    case PortsField => "ports"
    case AclField => "acl"
    case DnsField => "dns"
    case AclAgentMasterToken => "acl_agent_master_token"
    case AclAgentToken => "acl_agent_token"
    case AclDatacenter => "acl_datacenter"
    case AclDefaultPolicy => "acl_default_policy"
    case AclDownPolicy => "acl_down_policy"
    case AclMasterToken => "acl_master_token"
    case AclReplicationToken => "acl_replication_token"
  }

  /** Reads a key back to its field, looking only among the keys of its
      length. */
  function FieldOfKey(k: string): Option<Field> {
    match |k|
    case 3 => if k == "acl" then Some(AclField) else if k == "dns" then Some(DnsField) else None
    case 5 => if k == "ports" then Some(PortsField) else None
    case 6 => if k == "server" then Some(Server) else None
    case 7 => if k == "ca_file" then Some(CaFile) else None
    case 8 => if k == "key_file" then Some(KeyFile) else None
    case 9 => if k == "node_name" then Some(NodeName) else if k == "cert_file" then Some(CertFile) else if k == "log_level" then Some(LogLevel) else None
    case 10 => if k == "datacenter" then Some(Datacenter) else None
    case 12 => if k == "enable_debug" then Some(EnableDebug) else None
    case 14 => if k == "acl_datacenter" then Some(AclDatacenter) else None
    case 15 => if k == "verify_incoming" then Some(VerifyIncoming) else if k == "verify_outgoing" then Some(VerifyOutgoing) else if k == "acl_agent_token" then Some(AclAgentToken) else if k == "acl_down_policy" then Some(AclDownPolicy) else None
    case 16 => if k == "acl_master_token" then Some(AclMasterToken) else None
    case 18 => if k == "rejoin_after_leave" then Some(RejoinAfterLeave) else if k == "primary_datacenter" then Some(PrimaryDatacenter) else if k == "acl_default_policy" then Some(AclDefaultPolicy) else None
    case 21 => if k == "acl_replication_token" then Some(AclReplicationToken) else None
    case 22 => if k == "acl_agent_master_token" then Some(AclAgentMasterToken) else None
    case _ => None
  }

  /** Every serialized field has its own key: reading the key back gives the
      field, so no two fields collide in the written object. */
  lemma KeyRoundTrip(f: Field)
    requires !Transient(f)
    ensures FieldOfKey(Key(f)) == Some(f)
  {
  }

  lemma AllFieldsComplete(f: Field)
    ensures f in AllFields
  {
    match f
    case Datacenter => assert AllFields[0] == f;
    case NodeName => assert AllFields[1] == f;
    case Server => assert AllFields[2] == f;
    case KeyFile => assert AllFields[3] == f;
    case CertFile => assert AllFields[4] == f;
    case CaFile => assert AllFields[5] == f;
    case LogLevel => assert AllFields[6] == f;
    case EnableDebug => assert AllFields[7] == f;
    case RejoinAfterLeave => assert AllFields[8] == f;
    case PrimaryDatacenter => assert AllFields[9] == f;
    case VerifyIncoming => assert AllFields[10] == f;
    case VerifyOutgoing => assert AllFields[11] == f;
    case PortsField => assert AllFields[12] == f;
    case AclField => assert AllFields[13] == f;
    case DnsField => assert AllFields[14] == f;
    case TlsConfigField => assert AllFields[15] == f;
    case AclAgentMasterToken => assert AllFields[16] == f;
    case AclAgentToken => assert AllFields[17] == f;
    case AclDatacenter => assert AllFields[18] == f;
    case AclDefaultPolicy => assert AllFields[19] == f;
    case AclDownPolicy => assert AllFields[20] == f;
    case AclMasterToken => assert AllFields[21] == f;
    case AclReplicationToken => assert AllFields[22] == f;
  }

  /** Whether a field is non-null in `c`. */
  predicate Present(c: Config, f: Field) {
    match f
    case Datacenter => c.datacenter.Some?
    case NodeName => c.nodeName.Some?
    case Server => c.isServer.Some?
    case KeyFile => c.keyFile.Some?
    case CertFile => c.certFile.Some?
    case CaFile => c.caFile.Some?
    case LogLevel => c.logLevel.Some?
    case EnableDebug => c.enableDebug.Some?
    case RejoinAfterLeave => c.rejoinAfterLeave.Some?
    case PrimaryDatacenter => c.primaryDatacenter.Some?
    case VerifyIncoming => c.verifyIncoming.Some?
    case VerifyOutgoing => c.verifyOutgoing.Some?
    case PortsField => c.ports.Some?
    case AclField => c.acl.Some?
    case DnsField => c.dns.Some?
    case TlsConfigField => c.tlsConfig.Some?
    case AclAgentMasterToken => c.aclAgentMasterToken.Some?
    case AclAgentToken => c.aclAgentToken.Some?
    case AclDatacenter => c.aclDatacenter.Some?
    case AclDefaultPolicy => c.aclDefaultPolicy.Some?
    case AclDownPolicy => c.aclDownPolicy.Some?
    case AclMasterToken => c.aclMasterToken.Some?
    case AclReplicationToken => c.aclReplicationToken.Some?
  }

  /** The fields the configuration is written with: the non-null,
      non-transient ones. */
  function WrittenFields(c: Config): (fs: set<Field>)
    ensures forall f :: f in fs <==> !Transient(f) && Present(c, f)
  {
    forall f | !Transient(f) && Present(c, f)
      ensures f in AllFields
    {
      AllFieldsComplete(f);
    }
    set f | f in AllFields && !Transient(f) && Present(c, f)
  }

  /** The top-level keys of the written object. */
  function WrittenKeys(c: Config): set<string> {
    set f | f in WrittenFields(c) :: Key(f)
  }

  /** A fresh configuration writes nothing. */
  lemma EmptyConfigWritesNothing()
    ensures WrittenKeys(EmptyConfig()) == {}
  {
    assert WrittenFields(EmptyConfig()) == {};
  }

  /** Setting only the node name writes only `node_name`. */
  lemma NodeNameOnlyWritesNodeName(n: string)
    ensures WrittenKeys(EmptyConfig().(nodeName := Some(n))) == {"node_name"}
  {
    assert WrittenFields(EmptyConfig().(nodeName := Some(n))) == {NodeName};
  }

  /** The legacy flat ACL fields are written under their own keys, next to (and
      never merged into) the structured `acl` block. */
  lemma LegacyAclWritesFlatKeys(dc: string, token: string, policy: string)
    ensures WrittenKeys(EmptyConfig().(aclDatacenter := Some(dc), aclMasterToken := Some(token),
                                       aclDefaultPolicy := Some(policy)))
            == {"acl_datacenter", "acl_default_policy", "acl_master_token"}
  {
    var c := EmptyConfig().(aclDatacenter := Some(dc), aclMasterToken := Some(token), aclDefaultPolicy := Some(policy));
    assert WrittenFields(c) == {AclDatacenter, AclDefaultPolicy, AclMasterToken};
  }

  /** The TLS class-path names never reach the written configuration. */
  lemma TlsConfigNotWritten(c: Config, t: Option<TlsConfig>)
    ensures WrittenFields(c.(tlsConfig := t)) == WrittenFields(c)
  {
    var c' := c.(tlsConfig := t);
    assert forall f :: !Transient(f) ==> (Present(c', f) <==> Present(c, f));
  }
}

/** Compiling nodes to gost resources (internal/gostmgr/config.go). */
module GostConfig {
  import opened Wrappers
  import opened Text
  import opened GostNode

  datatype Login = Login(username: string, password: string)

  datatype Handler = Handler(kind: string, auth: Option<Login>)

  datatype Listener = Listener(kind: string, auth: Option<Login>, metadata: map<string, string>)

  datatype Service = Service(name: string, addr: string, quotas: seq<string>, limiter: string, climiter: string,
                             handler: Handler, listener: Listener, target: Option<string>, stats: bool)

  datatype Quota = Quota(name: string, limit: string, startsAt: string, expiresAt: string, direction: string,
      file: string)

  datatype Limiter = Limiter(name: string, limit: string)

  datatype Config = Config(services: seq<Service>, quotas: seq<Quota>, limiters: seq<Limiter>,
      climiters: seq<Limiter>) {
    function Plus(c: Config): Config {
      Config(services + c.services, quotas + c.quotas, limiters + c.limiters, climiters + c.climiters)
    }
  }

  const NOTHING := Config([], [], [], [])

  /** What the compiler is given besides the nodes: the quota file, and the time window of each quota period. */
  datatype Options = Options(quotaFile: string, window: string -> (string, string))

  // ---------- services ----------

  function Address(port: int): string {
    ":" + Itoa(port)
  }

  function RelayService(name: string, port: int, network: string, target: string): Service {
    Service(name, Address(port), [], "", "", Handler(network, None), Listener(network, None, map[]), Some(target),
        false)
  }

  function NodeAuth(n: Node, protocol: string): Option<Login> {
    match ProtocolSpec(protocol)
    case None => None
    case Some(p) =>
      match p.auth
      case Shadow => Some(Login(n.gostCipher, n.gostPassword))
      case UserOnly => Some(Login(n.gostUsername, ""))
      case UserPass => Some(Login(n.gostUsername, n.gostPassword))
      case NoAuth => None
  }

  predicate SSH(transport: string) {
    transport == "ssh" || transport == "sshd"
  }

  function ProxyMetadata(n: Node, transport: string): map<string, string> {
    var base := if transport == "dtls" then map["flightInterval" := "500ms", "mtu" := "1200"] else map[];
    var t := TransportSpec(transport);
    if t.Some? && t.value.path && TrimSpace(n.gostPath) != "" then base["path" := TrimSpace(n.gostPath)] else base
  }

  function ProxyServices(n: Node, port: int): seq<Service> {
    var protocol, transport := NodeProtocol(n), NodeTransport(n);
    var auth := NodeAuth(n, protocol);
    var handler := Handler(protocol, if SSH(transport) then None else auth);
    var channelAuth := if SSH(transport) then Some(Login(n.gostUsername, n.gostPassword)) else None;
    var listener := Listener(transport, channelAuth, ProxyMetadata(n, transport));
    [Service(TCPName(n.id), Address(port), [], "", "", handler, listener, None, false)]
    + (if n.udp && protocol == "ss" then
         [Service(UDPName(n.id), Address(port), [], "", "", Handler("ssu", auth), Listener("udp", None, map[]), None,
             false)]
       else [])
  }

  /** The network that a relayed node listens on. */
  function RelayNetwork(n: Node): string {
    var t := TransportSpec(NodeTransport(n));
    if n.mode == "gost" && t.Some? && t.value.network == UDP then "udp" else "tcp"
  }

  function RelayServices(n: Node): seq<Service> {
    var target := n.targetHost + ":" + Itoa(n.targetPort);
    [RelayService(TCPName(n.id), n.listenPort, RelayNetwork(n), target)]
    + (if n.udp && RelayNetwork(n) == "tcp" then [RelayService(UDPName(n.id), n.listenPort, "udp", target)] else [])
  }

  function BareServices(n: Node): seq<Service> {
    if n.mode == "gost" && n.gostLocal then ProxyServices(n, n.listenPort) else RelayServices(n)
  }

  // ---------- limits ----------

  predicate HasQuota(n: Node) {
    n.quota.enabled && n.quota.bytes > 0
  }

  predicate HasRate(n: Node) {
    n.rate.enabled && (n.rate.inBps > 0 || n.rate.outBps > 0)
  }

  function QuotaOf(n: Node, opts: Options): Quota {
    var w := opts.window(n.quota.period);
    Quota(QuotaName(n.id), Itoa(n.quota.bytes) + "B", w.0, w.1, n.quota.direction, opts.quotaFile)
  }

  function QuotasOf(n: Node, opts: Options): seq<Quota> {
    if HasQuota(n) then [QuotaOf(n, opts)] else []
  }

  function LimitersOf(n: Node): seq<Limiter> {
    if HasRate(n) then [Limiter(LimiterName(n.id), "$ " + Itoa(n.rate.inBps) + " " + Itoa(n.rate.outBps))] else []
  }

  function CLimitersOf(n: Node): seq<Limiter> {
    if n.connLimit > 0 then [Limiter(CLimiterName(n.id), "$ " + Itoa(n.connLimit))] else []
  }

  /** The names under which a node's services refer to its limits. */
  function QuotaRefs(n: Node): seq<string> {
    if HasQuota(n) then [QuotaName(n.id)] else []
  }

  function LimiterRef(n: Node): string {
    if HasRate(n) then LimiterName(n.id) else ""
  }

  function CLimiterRef(n: Node): string {
    if n.connLimit > 0 then CLimiterName(n.id) else ""
  }

  function Limited(n: Node, s: Service): Service {
    s.(quotas := QuotaRefs(n), limiter := LimiterRef(n), climiter := CLimiterRef(n), stats := true)
  }

  function LimitAll(n: Node, ss: seq<Service>): (r: seq<Service>)
    ensures |r| == |ss| && forall i :: 0 <= i < |ss| ==> r[i] == Limited(n, ss[i])
  {
    seq(|ss|, i requires 0 <= i < |ss| => Limited(n, ss[i]))
  }

  // ---------- the compiler ----------

  predicate Active(n: Node) {
    n.enabled && !n.IsReality()
  }

  /** What one node contributes. */
  function Compile(n: Node, opts: Options): Config {
    if !Active(n) then NOTHING
    else
      Config(LimitAll(n, BareServices(n)), QuotasOf(n, opts), LimitersOf(n), CLimitersOf(n))
  }

  function BuildConfig(nodes: seq<Node>, opts: Options): Config {
    if nodes == [] then NOTHING else Compile(nodes[0], opts).Plus(BuildConfig(nodes[1..], opts))
  }

  lemma {:induction false} PlusAssoc(a: Config, b: Config, c: Config)
    ensures a.Plus(b).Plus(c) == a.Plus(b.Plus(c))
    ensures NOTHING.Plus(a) == a == a.Plus(NOTHING)
  {
  }

  /** Compiling distributes over concatenation. */
  lemma {:induction false} BuildConcat(a: seq<Node>, b: seq<Node>, opts: Options)
    ensures BuildConfig(a + b, opts) == BuildConfig(a, opts).Plus(BuildConfig(b, opts))
  {
    if a == [] {
      assert a + b == b;
      PlusAssoc(BuildConfig(b, opts), NOTHING, NOTHING);
    } else {
      assert (a + b)[1..] == a[1..] + b;
      BuildConcat(a[1..], b, opts);
      PlusAssoc(Compile(a[0], opts), BuildConfig(a[1..], opts), BuildConfig(b, opts));
    }
  }

  lemma {:induction false} BuildOne(n: Node, opts: Options)
    ensures BuildConfig([n], opts) == Compile(n, opts)
  {
    assert [n][1..] == [];
    PlusAssoc(Compile(n, opts), NOTHING, NOTHING);
  }

  // ---------- the source's own form: slices that grow, services filled in place ----------

  method BuildProxyServices(n: Node, port: int) returns (services: seq<Service>)
    ensures services == ProxyServices(n, port)
  {
    var protocol, transport := NodeProtocol(n), NodeTransport(n);
    var auth := NodeAuth(n, protocol);
    var handler := Handler(protocol, auth);
    var listener := Listener(transport, None, map[]);
    if transport == "dtls" {
      listener := listener.(metadata := map["flightInterval" := "500ms", "mtu" := "1200"]);
    }
    if transport == "ssh" || transport == "sshd" {
      handler := handler.(auth := None);
      listener := listener.(auth := Some(Login(n.gostUsername, n.gostPassword)));
    }
    var t := TransportSpec(transport);
    if t.Some? && t.value.path && TrimSpace(n.gostPath) != "" {
      listener := listener.(metadata := listener.metadata["path" := TrimSpace(n.gostPath)]);
    }
    services := [Service(TCPName(n.id), Address(port), [], "", "", handler, listener, None, false)];
    if n.udp && protocol == "ss" {
      services := services
        + [Service(UDPName(n.id), Address(port), [], "", "", Handler("ssu", NodeAuth(n, protocol)),
            Listener("udp", None, map[]), None, false)];
    }
  }

  method BuildRelayServices(n: Node) returns (services: seq<Service>)
    ensures services == RelayServices(n)
  {
    var target := n.targetHost + ":" + Itoa(n.targetPort);
    var network := "tcp";
    if n.mode == "gost" {
      var t := TransportSpec(NodeTransport(n));
      if t.Some? && t.value.network == UDP {
        network := "udp";
      }
    }
    services := [RelayService(TCPName(n.id), n.listenPort, network, target)];
    if n.udp && network == "tcp" {
      services := services + [RelayService(UDPName(n.id), n.listenPort, "udp", target)];
    }
  }

  method AddQuota(cfg: Config, n: Node, opts: Options) returns (out: Config, quotas: seq<string>)
    ensures out == cfg.(quotas := cfg.quotas + QuotasOf(n, opts)) && quotas == QuotaRefs(n)
  {
    out, quotas := cfg, [];
    if n.quota.enabled && n.quota.bytes > 0 {
      var qname := QuotaName(n.id);
      var w := opts.window(n.quota.period);
      var q := Quota(qname, Itoa(n.quota.bytes) + "B", w.0, w.1, n.quota.direction, opts.quotaFile);
      out := out.(quotas := out.quotas + [q]);
      quotas := [qname];
    }
  }

  method AddLimiters(cfg: Config, n: Node) returns (out: Config, limiter: string, climiter: string)
    ensures out == cfg.(limiters := cfg.limiters + LimitersOf(n), climiters := cfg.climiters + CLimitersOf(n))
    ensures limiter == LimiterRef(n) && climiter == CLimiterRef(n)
  {
    out, limiter, climiter := cfg, "", "";
    if n.rate.enabled && (n.rate.inBps > 0 || n.rate.outBps > 0) {
      limiter := LimiterName(n.id);
      out := out.(limiters := out.limiters + [Limiter(limiter, "$ " + Itoa(n.rate.inBps) + " " + Itoa(n.rate.outBps))]);
    }
    if n.connLimit > 0 {
      climiter := CLimiterName(n.id);
      out := out.(climiters := out.climiters + [Limiter(climiter, "$ " + Itoa(n.connLimit))]);
    }
  }

  method AddServices(cfg: Config, n: Node, quotas: seq<string>, limiter: string, climiter: string) returns (out: Config)
    requires quotas == QuotaRefs(n) && limiter == LimiterRef(n) && climiter == CLimiterRef(n)
    ensures out == cfg.(services := cfg.services + LimitAll(n, BareServices(n)))
  {
    var services: seq<Service>;
    if n.mode == "gost" && n.gostLocal {
      services := BuildProxyServices(n, n.listenPort);
    } else {
      services := BuildRelayServices(n);
    }
    out := Attach(cfg, n, services, quotas, limiter, climiter);
  }

  /** The limits are filled into each service, and the services appended. */
  method Attach(cfg: Config, n: Node, services: seq<Service>, quotas: seq<string>, limiter: string,
                climiter: string) returns (out: Config)
    requires quotas == QuotaRefs(n) && limiter == LimiterRef(n) && climiter == CLimiterRef(n)
    ensures out == cfg.(services := cfg.services + LimitAll(n, services))
  {
    out := cfg;
    ghost var all := LimitAll(n, services);
    for i := 0 to |services|
      invariant out == cfg.(services := cfg.services + all[..i])
    {
      var service := services[i].(quotas := quotas, limiter := limiter, climiter := climiter, stats := true);
      assert all[..i + 1] == all[..i] + [service];
      out := out.(services := out.services + [service]);
    }
    assert all[..|services|] == all;
  }

  method AddNode(cfg: Config, n: Node, opts: Options) returns (out: Config)
    requires Active(n)
    ensures out == cfg.Plus(Compile(n, opts))
  {
    var quotas, limiter, climiter;
    out, quotas := AddQuota(cfg, n, opts);
    out, limiter, climiter := AddLimiters(out, n);
    out := AddServices(out, n, quotas, limiter, climiter);
  }

  method BuildConfigLoop(nodes: seq<Node>, opts: Options) returns (cfg: Config)
    ensures cfg == BuildConfig(nodes, opts)
  {
    cfg := NOTHING;
    assert nodes[..0] == [];
    for k := 0 to |nodes|
      invariant cfg == BuildConfig(nodes[..k], opts)
    {
      var n := nodes[k];
      assert nodes[..k + 1] == nodes[..k] + [n];
      BuildConcat(nodes[..k], [n], opts);
      BuildOne(n, opts);
      if !n.enabled || n.IsReality() {
        PlusAssoc(cfg, NOTHING, NOTHING);
        continue;
      }
      cfg := AddNode(cfg, n, opts);
    }
    assert nodes[..|nodes|] == nodes;
  }
}

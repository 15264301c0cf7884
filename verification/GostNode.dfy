/** Nodes as gost sees them: naming (internal/model/model.go), protocol and transport tables and validation
    (internal/gostmgr/protocol.go). */
module GostNode {
  import opened Wrappers
  import opened Text

  datatype QuotaSpec = QuotaSpec(enabled: bool, period: string, bytes: int, direction: string)

  datatype RateSpec = RateSpec(enabled: bool, inBps: int, outBps: int)

  datatype Node = Node(id: string, mode: string, enabled: bool, udp: bool, listenPort: int,
                       targetHost: string, targetPort: int,
                       gostLocal: bool, gostProtocol: string, gostTransport: string,
                       gostUsername: string, gostCipher: string, gostPassword: string, gostPath: string,
                       quota: QuotaSpec, rate: RateSpec, connLimit: int)
  {
    predicate IsReality() {
      mode == "reality"
    }
  }

  // ---------- names ----------

  function TCPName(id: string): string {
    "node-" + id + "-tcp"
  }

  function UDPName(id: string): string {
    "node-" + id + "-udp"
  }

  function QuotaName(id: string): string {
    "quota-" + id
  }

  function LimiterName(id: string): string {
    "limiter-" + id
  }

  function CLimiterName(id: string): string {
    "climiter-" + id
  }

  function ServiceNames(n: Node): seq<string> {
    if n.IsReality() then []
    else [TCPName(n.id)]
         + (if n.udp && (!n.gostLocal || n.mode != "gost" || n.gostProtocol == "" || n.gostProtocol == "ss")
             then [UDPName(n.id)] else [])
  }

  lemma {:induction false} Inside(pre: string, id: string, post: string)
    ensures |pre + id + post| == |pre| + |id| + |post| && (pre + id + post)[|pre|..|pre| + |id|] == id
  {
  }

  /** Names tell nodes and roles apart. */
  lemma {:induction false} NamesDistinct(a: string, b: string)
    ensures TCPName(a) == TCPName(b) <==> a == b
    ensures UDPName(a) == UDPName(b) <==> a == b
    ensures TCPName(a) != UDPName(b)
    ensures QuotaName(a) == QuotaName(b) <==> a == b
    ensures LimiterName(a) == LimiterName(b) <==> a == b
    ensures CLimiterName(a) == CLimiterName(b) <==> a == b
  {
    Inside("node-", a, "-tcp");
    Inside("node-", b, "-tcp");
    Inside("node-", a, "-udp");
    Inside("node-", b, "-udp");
    var s, t := TCPName(a), UDPName(b);
    assert s[|s| - 1] == 'p' && t[|t| - 1] == 'p' && s[|s| - 2] == 'c' && t[|t| - 2] == 'd';
    assert QuotaName(a)[6..] == a && QuotaName(b)[6..] == b;
    assert LimiterName(a)[8..] == a && LimiterName(b)[8..] == b;
    assert CLimiterName(a)[9..] == a && CLimiterName(b)[9..] == b;
  }

  // ---------- the tables ----------

  datatype Auth = UserPass | UserOnly | Shadow | NoAuth

  datatype Protocol = Protocol(name: string, defaultTransport: string, auth: Auth)

  datatype Network = TCP | UDP | Raw

  datatype Transport = Transport(name: string, network: Network, path: bool, localOnly: bool)

  function ProtocolNamed(v: string): Option<Protocol> {
    if v == "http" || v == "socks5" || v == "relay" then Some(Protocol(v, "tcp", UserPass))
    else if v == "http2" then Some(Protocol(v, "http2", UserPass))
    else if v == "socks4" || v == "socks4a" then Some(Protocol(v, "tcp", UserOnly))
    else if v == "ss" then Some(Protocol(v, "tcp", Shadow))
    else if v == "ssu" then Some(Protocol(v, "udp", Shadow))
    else if v == "sni" then Some(Protocol(v, "tcp", NoAuth))
    else None
  }

  function TransportNamed(v: string): Option<Transport> {
    if v in {"ws", "wss", "mws", "mwss", "h2", "h2c", "grpc"} then Some(Transport(v, TCP, true, false))
    else if v in {"tcp", "mtcp", "tls", "mtls", "http2", "pht", "phts", "ssh", "sshd", "ohttp", "otls"} then
      Some(Transport(v, TCP, false, false))
    else if v in {"udp", "dtls", "kcp", "quic", "h3", "http3", "wt"} then Some(Transport(v, UDP, false, false))
    else if v in {"icmp", "icmp6", "ftcp"} then Some(Transport(v, Raw, false, true))
    else None
  }

  function Normal(v: string): string {
    ToLower(TrimSpace(v))
  }

  function ProtocolSpec(v: string): Option<Protocol> {
    ProtocolNamed(Normal(v))
  }

  function TransportSpec(v: string): Option<Transport> {
    TransportNamed(Normal(v))
  }

  function NodeProtocol(n: Node): string {
    if TrimSpace(n.gostProtocol) == "" then "ss" else Normal(n.gostProtocol)
  }

  function NodeTransport(n: Node): string {
    if TrimSpace(n.gostTransport) != "" then Normal(n.gostTransport)
    else
      match ProtocolSpec(NodeProtocol(n))
      case Some(p) => p.defaultTransport
      case None => "tcp"
  }

  // ---------- validation ----------

  datatype Invalid = UnknownProtocol | UnknownTransport | LocalOnly | UDPChannel | NeedsUDPChannel | NeedsHTTP2
                   | SharedSSHAuth | UDPNotShadowsocks | PortTaken

  function ValidateGostNode(n: Node): Option<Invalid> {
    var p := ProtocolSpec(NodeProtocol(n));
    var t := TransportSpec(NodeTransport(n));
    if p.None? then Some(UnknownProtocol)
    else if t.None? then Some(UnknownTransport)
    else if t.value.localOnly && !n.gostLocal then Some(LocalOnly)
    else if t.value.name == "udp" && p.value.name != "ssu" && p.value.name != "relay" then Some(UDPChannel)
    else if p.value.name == "ssu" && t.value.name != "udp" then Some(NeedsUDPChannel)
    else if p.value.name == "http2" && t.value.name != "http2" then Some(NeedsHTTP2)
    else if (t.value.name == "ssh" || t.value.name == "sshd")
        && (p.value.name == "ss" || p.value.name == "ssu") then Some(SharedSSHAuth)
    else if n.udp && p.value.name != "ss" then Some(UDPNotShadowsocks)
    else if n.udp && t.value.network != TCP then Some(PortTaken)
    else None
  }

  /** What the panel's node builder stores: lower case, no outer blanks. */
  predicate Normalised(n: Node) {
    n.gostProtocol == Normal(n.gostProtocol) && n.gostTransport == Normal(n.gostTransport)
  }

  // ---------- names out of the tables ----------

  lemma {:induction false} LowerTrimmed(s: string)
    requires Trimmed(s)
    ensures Trimmed(ToLower(s)) && ToLower(ToLower(s)) == ToLower(s)
  {
  }

  lemma {:induction false} NormalTwice(s: string)
    ensures Normal(Normal(s)) == Normal(s)
  {
    TrimSpaceFixed(s);
    LowerTrimmed(TrimSpace(s));
    TrimSpaceFixed(Normal(s));
  }

  predicate Word(s: string) {
    s != "" && forall i :: 0 <= i < |s| ==> 'a' <= s[i] <= 'z' || '0' <= s[i] <= '9'
  }

  lemma {:induction false} ProtocolWord(v: string)
    requires ProtocolNamed(v).Some?
    ensures Word(v) && ProtocolNamed(v).value.name == v && Word(ProtocolNamed(v).value.defaultTransport)
    ensures v != "vmess"
  {
  }

  lemma {:induction false} StreamWord(v: string)
    requires v in {"tcp", "mtcp", "tls", "mtls", "http2", "pht", "phts", "ssh", "sshd", "ohttp", "otls"}
    ensures Word(v)
  {
  }

  lemma {:induction false} PacketWord(v: string)
    requires v in {"udp", "dtls", "kcp", "quic", "h3", "http3", "wt", "icmp", "icmp6", "ftcp"}
    ensures Word(v)
  {
  }

  lemma {:induction false} TransportWord(v: string)
    requires TransportNamed(v).Some?
    ensures Word(v)
  {
    if TransportNamed(v).value.path {
    } else if TransportNamed(v).value.network.TCP? {
      StreamWord(v);
    } else {
      PacketWord(v);
    }
  }

  lemma {:induction false} WordNormal(v: string)
    requires Word(v)
    ensures Normal(v) == v
  {
    assert Trimmed(v);
    TrimSpaceFixed(v);
    assert ToLower(v) == v;
  }

  lemma {:induction false} ProtocolNormal(n: Node)
    ensures Normal(NodeProtocol(n)) == NodeProtocol(n)
  {
    NormalTwice(n.gostProtocol);
    WordNormal("ss");
  }

  lemma {:induction false} DefaultNormal(v: string)
    requires ProtocolSpec(v).Some?
    ensures Normal(ProtocolSpec(v).value.defaultTransport) == ProtocolSpec(v).value.defaultTransport
  {
    ProtocolWord(Normal(v));
    WordNormal(ProtocolSpec(v).value.defaultTransport);
  }

  lemma {:induction false} TransportNormal(n: Node)
    ensures Normal(NodeTransport(n)) == NodeTransport(n)
  {
    NormalTwice(n.gostTransport);
    WordNormal("tcp");
    if ProtocolSpec(NodeProtocol(n)).Some? {
      DefaultNormal(NodeProtocol(n));
    }
  }

  lemma {:induction false} ValidSpecs(n: Node)
    requires ValidateGostNode(n).None?
    ensures ProtocolSpec(NodeProtocol(n)).Some? && TransportSpec(NodeTransport(n)).Some?
  {
  }

  /** A valid node's protocol and transport are names out of the tables. */
  lemma {:induction false} ValidNames(n: Node)
    requires ValidateGostNode(n).None?
    ensures var p, t := NodeProtocol(n), NodeTransport(n);
            && Normal(p) == p && ProtocolNamed(p).Some? && Normal(t) == t && TransportNamed(t).Some?
  {
    ValidSpecs(n);
    ProtocolNormal(n);
    TransportNormal(n);
  }
}

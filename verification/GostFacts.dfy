/** What holds of every compiled configuration: names, references, ports, and the engine state it stands for. */
module GostFacts {
  import opened Wrappers
  import opened Text
  import opened GostNode
  import opened GostConfig

  // ---------- the sampler's names and the compiler's names ----------

  function NamesOf(ss: seq<Service>): (r: seq<string>)
    ensures |r| == |ss| && forall i :: 0 <= i < |ss| ==> r[i] == ss[i].name
  {
    seq(|ss|, i requires 0 <= i < |ss| => ss[i].name)
  }

  /** Where the second service is emitted. */
  predicate EmitsUDP(n: Node) {
    n.udp && if n.mode == "gost" && n.gostLocal then NodeProtocol(n) == "ss" else RelayNetwork(n) == "tcp"
  }

  /** Where the sampler expects it. */
  predicate ExpectsUDP(n: Node) {
    n.udp && (!n.gostLocal || n.mode != "gost" || n.gostProtocol == "" || n.gostProtocol == "ss")
  }

  lemma {:induction false} EmittedNames(n: Node, opts: Options)
    requires Active(n)
    ensures NamesOf(Compile(n, opts).services) == [TCPName(n.id)] + if EmitsUDP(n) then [UDPName(n.id)] else []
  {
  }

  /** The sampler's service names are exactly the emitted ones if and only if both sides agree on the second service. */
  lemma {:induction false} NamesAgreeIff(n: Node, opts: Options)
    requires Active(n)
    ensures NamesOf(Compile(n, opts).services) == ServiceNames(n) <==> (EmitsUDP(n) <==> ExpectsUDP(n))
  {
    EmittedNames(n, opts);
    var a, b := NamesOf(Compile(n, opts).services), ServiceNames(n);
    assert |a| == 1 + (if EmitsUDP(n) then 1 else 0) && |b| == 1 + (if ExpectsUDP(n) then 1 else 0);
  }

  lemma {:induction false} NormalEmpty(n: Node)
    requires Normalised(n)
    ensures NodeProtocol(n) == "ss" <==> n.gostProtocol == "" || n.gostProtocol == "ss"
  {
    if TrimSpace(n.gostProtocol) == "" {
      assert ToLower("") == "";
    }
    assert TrimSpace("") == "";
    if n.gostProtocol == "ss" {
      TrimSpaceFixed("ss");
    }
  }

  lemma {:induction false} LocalAgrees(n: Node)
    requires n.mode == "gost" && n.gostLocal && Normalised(n)
    ensures EmitsUDP(n) <==> ExpectsUDP(n)
  {
    NormalEmpty(n);
  }

  /** The channel of a node is itself UDP. */
  predicate UDPChannelled(n: Node) {
    var t := TransportSpec(NodeTransport(n));
    t.Some? && t.value.network == UDP
  }

  lemma {:induction false} ValidChannel(n: Node)
    requires ValidateGostNode(n).None? && n.udp
    ensures !UDPChannelled(n)
  {
  }

  lemma {:induction false} RelayedAgrees(n: Node)
    requires n.mode != "gost" || (!n.gostLocal && (n.udp ==> !UDPChannelled(n)))
    ensures EmitsUDP(n) <==> ExpectsUDP(n)
  {
  }

  lemma {:induction false} ValidAgrees(n: Node)
    requires n.mode == "gost" ==> ValidateGostNode(n).None? && Normalised(n)
    ensures EmitsUDP(n) <==> ExpectsUDP(n)
  {
    if n.mode == "gost" && n.gostLocal {
      LocalAgrees(n);
    } else {
      if n.mode == "gost" && n.udp {
        ValidChannel(n);
      }
      RelayedAgrees(n);
    }
  }

  /** Sampler and compiler agree on every enabled link node, and on every gost node that validation accepts with its
      protocol normalised. */
  lemma {:induction false} SamplerAndCompilerAgree(n: Node, opts: Options)
    requires Active(n)
    requires n.mode == "gost" ==> ValidateGostNode(n).None? && Normalised(n)
    ensures NamesOf(Compile(n, opts).services) == ServiceNames(n)
  {
    ValidAgrees(n);
    NamesAgreeIff(n, opts);
  }

  // ---------- ports ----------

  predicate ListensUDP(l: Listener) {
    var t := TransportSpec(l.kind);
    t.Some? && t.value.network == UDP
  }

  /** No two services listen at one address over UDP, nor two over anything else. */
  predicate NoDoubleListen(ss: seq<Service>) {
    forall i, j :: 0 <= i < j < |ss| && ss[i].addr == ss[j].addr ==>
        ListensUDP(ss[i].listener) != ListensUDP(ss[j].listener)
  }

  lemma {:induction false} UDPKinds()
    ensures TransportSpec("udp") == Some(Transport("udp", UDP, false, false))
    ensures TransportSpec("tcp") == Some(Transport("tcp", TCP, false, false))
  {
    TrimSpaceFixed("udp");
    TrimSpaceFixed("tcp");
    assert ToLower("udp") == "udp" && ToLower("tcp") == "tcp";
  }

  lemma {:induction false} LimitsListenAlike(n: Node, ss: seq<Service>)
    ensures NoDoubleListen(LimitAll(n, ss)) <==> NoDoubleListen(ss)
  {
    var r := LimitAll(n, ss);
    assert forall i :: 0 <= i < |ss| ==> r[i].addr == ss[i].addr && r[i].listener == ss[i].listener;
  }

  lemma {:induction false} PairListens(a: Service, b: Service)
    requires a.addr == b.addr && ListensUDP(b.listener)
    ensures NoDoubleListen([a, b]) <==> !ListensUDP(a.listener)
  {
    var ss := [a, b];
    assert ss[0] == a && ss[1] == b;
  }

  lemma {:induction false} OneListens(a: Service)
    ensures NoDoubleListen([a])
  {
  }

  lemma {:induction false} ProxyListens(n: Node)
    ensures NoDoubleListen(ProxyServices(n, n.listenPort)) <==> !(n.udp && NodeProtocol(n) == "ss" && UDPChannelled(n))
  {
    UDPKinds();
    var ss := ProxyServices(n, n.listenPort);
    if n.udp && NodeProtocol(n) == "ss" {
      PairListens(ss[0], ss[1]);
      assert ss == [ss[0], ss[1]];
    } else {
      OneListens(ss[0]);
      assert ss == [ss[0]];
    }
  }

  lemma {:induction false} RelayListens(n: Node)
    ensures NoDoubleListen(RelayServices(n))
  {
    UDPKinds();
    var ss := RelayServices(n);
    if n.udp && RelayNetwork(n) == "tcp" {
      PairListens(ss[0], ss[1]);
      assert ss == [ss[0], ss[1]];
    } else {
      OneListens(ss[0]);
      assert ss == [ss[0]];
    }
  }

  /** A node listens twice on one port and network exactly when it is a local Shadowsocks node with the UDP extension
      over a channel that is itself UDP. */
  lemma {:induction false} NoDoubleListenIff(n: Node, opts: Options)
    requires Active(n)
    ensures NoDoubleListen(Compile(n, opts).services)
            <==> !(n.mode == "gost" && n.gostLocal && n.udp && NodeProtocol(n) == "ss" && UDPChannelled(n))
  {
    LimitsListenAlike(n, BareServices(n));
    if n.mode == "gost" && n.gostLocal {
      ProxyListens(n);
    } else {
      RelayListens(n);
    }
  }

  /** Validation refuses just that. */
  lemma {:induction false} ValidListensOnce(n: Node, opts: Options)
    requires Active(n) && (n.mode == "gost" ==> ValidateGostNode(n).None?)
    ensures NoDoubleListen(Compile(n, opts).services)
  {
    if n.mode == "gost" && n.udp {
      ValidChannel(n);
    }
    NoDoubleListenIff(n, opts);
  }

  // ---------- what a compiled service does ----------

  /** The protocols that ask for a username and password, for a username only, for a cipher and password. */
  predicate AsksPassword(p: string) {
    p == "http" || p == "http2" || p == "socks5" || p == "relay"
  }

  predicate AsksUser(p: string) {
    p == "socks4" || p == "socks4a"
  }

  predicate AsksCipher(p: string) {
    p == "ss" || p == "ssu"
  }

  /** What each protocol asks its clients for. */
  function LoginOf(n: Node, p: string): Option<Login> {
    if AsksPassword(p) then Some(Login(n.gostUsername, n.gostPassword))
    else if AsksUser(p) then Some(Login(n.gostUsername, ""))
    else if AsksCipher(p) then Some(Login(n.gostCipher, n.gostPassword))
    else None
  }

  lemma {:induction false} AuthNames(v: string)
    ensures var p := ProtocolNamed(v);
            && (AsksPassword(v) ==> p.Some? && p.value.auth == UserPass)
            && (AsksUser(v) ==> p.Some? && p.value.auth == UserOnly)
            && (AsksCipher(v) ==> p.Some? && p.value.auth == Shadow)
            && (p.Some? ==> if AsksPassword(v) || AsksUser(v) || AsksCipher(v) then p.value.auth != NoAuth
                            else v == "sni" && p.value.auth == NoAuth)
  {
  }

  lemma {:induction false} AuthIsLogin(n: Node, protocol: string)
    requires Normal(protocol) == protocol
    ensures NodeAuth(n, protocol) == LoginOf(n, protocol)
  {
    AuthNames(protocol);
  }

  /** A local node's main service: the node's protocol over its channel. Over SSH the channel asks for the username and
      password, over anything else the protocol asks for its login. */
  predicate ServesProxy(n: Node, s: Service) {
    && s.handler.kind == NodeProtocol(n) && s.listener.kind == NodeTransport(n) && s.target.None?
    && if NodeTransport(n) == "ssh" || NodeTransport(n) == "sshd" then
         s.handler.auth.None? && s.listener.auth == Some(Login(n.gostUsername, n.gostPassword))
       else
         s.listener.auth.None? && s.handler.auth == LoginOf(n, NodeProtocol(n))
  }

  /** A relayed node's service: what comes in over a network goes to the target over the same network, with no login. */
  predicate Forwards(n: Node, s: Service, network: string) {
    && s.handler == Handler(network, None) && s.listener == Listener(network, None, map[])
    && s.target == Some(n.targetHost + ":" + Itoa(n.targetPort))
  }

  /** Every emitted service listens on the node's port, is counted, and carries all of the node's limits; what it does
      is told by its name. */
  lemma {:induction false} CompiledService(n: Node, opts: Options, s: Service)
    requires s in Compile(n, opts).services
    ensures n.enabled && n.mode != "reality" && s.addr == ":" + Itoa(n.listenPort) && s.stats
    ensures s.quotas == if n.quota.enabled && n.quota.bytes > 0 then [QuotaName(n.id)] else []
    ensures s.limiter == if n.rate.enabled && (n.rate.inBps > 0 || n.rate.outBps > 0) then LimiterName(n.id) else ""
    ensures s.climiter == if n.connLimit > 0 then CLimiterName(n.id) else ""
    ensures s.name == TCPName(n.id) ==>
              if n.mode == "gost" && n.gostLocal then ServesProxy(n, s) else Forwards(n, s, RelayNetwork(n))
    ensures s.name != TCPName(n.id) ==>
              s.name == UDPName(n.id)
              && if n.mode == "gost" && n.gostLocal then ServesDatagrams(n, s) else Forwards(n, s, "udp")
  {
    NamesDistinct(n.id, n.id);
    var bare := BareServices(n);
    var i :| 0 <= i < |bare| && s == Limited(n, bare[i]);
    if n.mode == "gost" && n.gostLocal {
      ProxyServiceAt(n, i);
    } else {
      RelayServiceAt(n, i);
    }
  }

  /** The second service of a local Shadowsocks node. */
  predicate ServesDatagrams(n: Node, s: Service) {
    && s.handler == Handler("ssu", Some(Login(n.gostCipher, n.gostPassword)))
    && s.listener == Listener("udp", None, map[]) && s.target.None?
  }

  lemma {:induction false} ProxyServiceAt(n: Node, i: nat)
    requires i < |ProxyServices(n, n.listenPort)|
    ensures var s := ProxyServices(n, n.listenPort)[i];
            && s.addr == ":" + Itoa(n.listenPort)
            && if i == 0 then s.name == TCPName(n.id) && ServesProxy(n, s)
               else s.name == UDPName(n.id) && ServesDatagrams(n, s)
  {
    ProtocolNormal(n);
    AuthIsLogin(n, NodeProtocol(n));
  }

  lemma {:induction false} RelayServiceAt(n: Node, i: nat)
    requires i < |RelayServices(n)|
    ensures var s := RelayServices(n)[i];
            && s.addr == ":" + Itoa(n.listenPort)
            && if i == 0 then s.name == TCPName(n.id) && Forwards(n, s, RelayNetwork(n))
               else s.name == UDPName(n.id) && Forwards(n, s, "udp")
  {
  }

  lemma {:induction false} SSHWords(w: string)
    requires SSH(w)
    ensures Normal(w) == w
  {
    assert Trimmed(w);
    TrimSpaceFixed(w);
    assert forall i :: 0 <= i < |w| ==> Lower(w[i]) == w[i];
  }

  lemma {:induction false} ShadowNames(v: string)
    ensures ProtocolNamed(v).Some? && ProtocolNamed(v).value.auth == Shadow <==> v == "ss" || v == "ssu"
    ensures ProtocolNamed(v).Some? ==> ProtocolNamed(v).value.name == v
    ensures TransportNamed(v).Some? ==> TransportNamed(v).value.name == v
  {
  }

  /** Validation keeps Shadowsocks off the SSH channels, which have a login of their own. */
  lemma {:induction false} NoShadowOverSSH(n: Node)
    requires ValidateGostNode(n).None? && SSH(NodeTransport(n))
    ensures ProtocolSpec(NodeProtocol(n)).Some? && ProtocolSpec(NodeProtocol(n)).value.auth != Shadow
  {
    SSHWords(NodeTransport(n));
    ShadowNames(Normal(NodeProtocol(n)));
    ShadowNames(NodeTransport(n));
  }

  /** A valid local node never loses its credential: its main service asks for the login of its protocol, over SSH for
      the username and password; Shadowsocks never runs over SSH, and only sni asks for nothing. */
  lemma {:induction false} ValidCarriesLogin(n: Node, opts: Options, s: Service)
    requires s in Compile(n, opts).services && s.name == TCPName(n.id)
    requires n.mode == "gost" && n.gostLocal && ValidateGostNode(n).None?
    ensures var p, ssh := NodeProtocol(n), NodeTransport(n) == "ssh" || NodeTransport(n) == "sshd";
            && (AsksPassword(p) || AsksUser(p) || AsksCipher(p) || p == "sni")
            && (ssh ==> !AsksCipher(p) && s.handler.auth.None?
                        && s.listener.auth == Some(Login(n.gostUsername, n.gostPassword)))
            && (!ssh ==> s.listener.auth.None? && s.handler.auth == LoginOf(n, p))
  {
    CompiledService(n, opts, s);
    ValidNames(n);
    AuthNames(NodeProtocol(n));
    if SSH(NodeTransport(n)) {
      NoShadowOverSSH(n);
    }
  }

  /** The channels that run over UDP. */
  predicate Datagrams(t: string) {
    t == "udp" || t == "dtls" || t == "kcp" || t == "quic" || t == "h3" || t == "http3" || t == "wt"
  }

  predicate RawChannel(t: string) {
    t == "icmp" || t == "icmp6" || t == "ftcp"
  }

  lemma {:induction false} NetworkNames(t: string)
    requires TransportNamed(t).Some?
    ensures TransportNamed(t).value.network == if Datagrams(t) then UDP else if RawChannel(t) then Raw else TCP
    ensures TransportNamed(t).value.localOnly <==> RawChannel(t)
  {
  }

  /** What a node of protocol p over channel t must meet, rule by rule. */
  predicate Fits(n: Node, p: string, t: string, raw: bool, datagrams: bool) {
    && (raw ==> n.gostLocal)
    && (t == "udp" ==> p == "ssu" || p == "relay")
    && (p == "ssu" ==> t == "udp")
    && (p == "http2" ==> t == "http2")
    && (t == "ssh" || t == "sshd" ==> p != "ss" && p != "ssu")
    && (n.udp ==> p == "ss" && !datagrams && !raw)
  }

  lemma {:induction false} RulesOf(n: Node, p: string, t: string, c: Transport)
    requires p == NodeProtocol(n) && t == NodeTransport(n) && ProtocolSpec(p).Some? && ProtocolSpec(p).value.name == p
    requires TransportSpec(t) == Some(c) && c.name == t && (c.localOnly <==> c.network == Raw)
    ensures ValidateGostNode(n).None? <==> Fits(n, p, t, c.network == Raw, c.network == UDP)
  {
  }

  /** A node is valid exactly when its protocol and channel are known and it meets every rule. */
  lemma {:induction false} ValidIff(n: Node)
    ensures var p, t := NodeProtocol(n), NodeTransport(n);
            ValidateGostNode(n).None?
            <==> ProtocolNamed(p).Some? && TransportNamed(t).Some? && Fits(n, p, t, RawChannel(t), Datagrams(t))
  {
    var p, t := NodeProtocol(n), NodeTransport(n);
    ProtocolNormal(n);
    TransportNormal(n);
    if ProtocolNamed(p).Some? && TransportNamed(t).Some? {
      ShadowNames(p);
      ShadowNames(t);
      NetworkNames(t);
      NotBoth(t);
      RulesOf(n, p, t, TransportNamed(t).value);
    }
  }

  lemma {:induction false} NotBoth(t: string)
    ensures !(Datagrams(t) && RawChannel(t))
  {
  }

  /** A valid relayed node is forwarded over the network its channel runs on; raw channels are local only. */
  lemma {:induction false} ValidRelayNetwork(n: Node)
    requires n.mode == "gost" && !n.gostLocal && ValidateGostNode(n).None?
    ensures !RawChannel(NodeTransport(n))
    ensures RelayNetwork(n) == if Datagrams(NodeTransport(n)) then "udp" else "tcp"
  {
    ValidNames(n);
    NetworkNames(NodeTransport(n));
  }

  // ---------- limits ----------

  /** A text cut at its blanks. */
  function Words(s: string): seq<string>
    decreases |s|
  {
    var i := IndexByte(s, ' ');
    if i < 0 then [s] else [s[..i]] + Words(s[i + 1..])
  }

  lemma {:induction false} FirstWord(a: string, s: string)
    requires ' ' !in a
    ensures Words(a) == [a] && Words(a + " " + s) == [a] + Words(s)
  {
    var t := a + [' '] + s;
    assert a + " " + s == t;
    IndexAfter(a, ' ', s);
    assert t[..|a|] == a && t[|a| + 1..] == s;
  }

  /** `text` says `n`. */
  predicate Says(text: string, n: int) {
    Atoi(text) == Some(n)
  }

  lemma {:induction false} Number(n: int)
    requires -MAX_INT64 - 1 <= n <= MAX_INT64
    ensures Says(Itoa(n), n) && ' ' !in Itoa(n)
  {
    AtoiItoa(n);
  }

  lemma {:induction false} RateText(dollar: string, a: string, b: string)
    requires ' ' !in dollar && ' ' !in a && ' ' !in b
    ensures Words(dollar + " " + (a + " " + b)) == [dollar, a, b] && Words(dollar + " " + a) == [dollar, a]
  {
    FirstWord(dollar, a + " " + b);
    FirstWord(a, b);
    FirstWord(b, "");
    FirstWord(dollar, a);
  }

  predicate Int64(x: int) {
    -MAX_INT64 - 1 <= x <= MAX_INT64
  }

  /** The limiter says the rate, first in, then out. */
  predicate RateReads(n: Node, l: Limiter) {
    var w := Words(l.limit);
    l.name == LimiterName(n.id) && |w| == 3 && w[0] == "$" && Says(w[1], n.rate.inBps) && Says(w[2], n.rate.outBps)
  }

  predicate ConnReads(n: Node, l: Limiter) {
    var w := Words(l.limit);
    l.name == CLimiterName(n.id) && |w| == 2 && w[0] == "$" && Says(w[1], n.connLimit)
  }

  /** The quota says its bytes, in its direction and window. */
  predicate QuotaReads(n: Node, opts: Options, q: Quota) {
    var k := |q.limit| - 1;
    && k >= 0 && q.limit[k] == 'B' && Says(q.limit[..k], n.quota.bytes)
    && q.name == QuotaName(n.id) && q.direction == n.quota.direction && q.file == opts.quotaFile
    && (q.startsAt, q.expiresAt) == opts.window(n.quota.period)
  }

  lemma {:induction false} Regroup(d: string, s: string, a: string, b: string)
    ensures d + s + a + s + b == d + s + (a + s + b)
  {
  }

  lemma {:induction false} RateWords(a: string, b: string)
    requires ' ' !in a && ' ' !in b
    ensures Words("$ " + a + " " + b) == ["$", a, b]
  {
    RateText("$", a, b);
    Regroup("$", " ", a, b);
    assert "$" + " " == "$ ";
  }

  lemma {:induction false} RateLimiter(n: Node)
    requires Int64(n.rate.inBps) && Int64(n.rate.outBps) && n.rate.enabled && (n.rate.inBps > 0 || n.rate.outBps > 0)
    ensures |LimitersOf(n)| == 1 && RateReads(n, LimitersOf(n)[0])
  {
    Number(n.rate.inBps);
    Number(n.rate.outBps);
    RateWords(Itoa(n.rate.inBps), Itoa(n.rate.outBps));
  }

  lemma {:induction false} ConnLimiter(n: Node)
    requires 0 < n.connLimit <= MAX_INT64
    ensures |CLimitersOf(n)| == 1 && ConnReads(n, CLimitersOf(n)[0])
  {
    Number(n.connLimit);
    RateText("$", Itoa(n.connLimit), "");
    assert "$" + " " + Itoa(n.connLimit) == "$ " + Itoa(n.connLimit);
  }

  lemma {:induction false} QuotaLimit(n: Node, opts: Options)
    requires n.quota.enabled && 0 < n.quota.bytes <= MAX_INT64
    ensures |QuotasOf(n, opts)| == 1 && QuotaReads(n, opts, QuotasOf(n, opts)[0])
  {
    var q := Itoa(n.quota.bytes);
    Number(n.quota.bytes);
    assert (q + "B")[..|q|] == q;
  }

  /** What a node's limits say when gost reads them: bytes a second in and out, connections, bytes of quota; a limit
      that is not set, or not positive, is not emitted. */
  lemma {:induction false} LimitsRead(n: Node, opts: Options)
    requires n.enabled && n.mode != "reality" && n.quota.bytes <= MAX_INT64 && n.connLimit <= MAX_INT64
    requires Int64(n.rate.inBps) && Int64(n.rate.outBps)
    ensures var c := Compile(n, opts);
            && (if n.rate.enabled && (n.rate.inBps > 0 || n.rate.outBps > 0)
                then |c.limiters| == 1 && RateReads(n, c.limiters[0]) else c.limiters == [])
            && (if n.connLimit > 0 then |c.climiters| == 1 && ConnReads(n, c.climiters[0]) else c.climiters == [])
            && (if n.quota.enabled && n.quota.bytes > 0 then |c.quotas| == 1 && QuotaReads(n, opts, c.quotas[0])
                else c.quotas == [])
  {
    if n.rate.enabled && (n.rate.inBps > 0 || n.rate.outBps > 0) {
      RateLimiter(n);
    }
    if n.connLimit > 0 {
      ConnLimiter(n);
    }
    if n.quota.enabled && n.quota.bytes > 0 {
      QuotaLimit(n, opts);
    }
  }

  // ---------- names across nodes ----------

  datatype Kind = Services | Quotas | Limiters | CLimiters

  datatype Key = Key(kind: Kind, name: string)

  function QuotaNames(qs: seq<Quota>): (r: seq<string>)
    ensures |r| == |qs| && forall i :: 0 <= i < |qs| ==> r[i] == qs[i].name
  {
    seq(|qs|, i requires 0 <= i < |qs| => qs[i].name)
  }

  function LimiterNames(ls: seq<Limiter>): (r: seq<string>)
    ensures |r| == |ls| && forall i :: 0 <= i < |ls| ==> r[i] == ls[i].name
  {
    seq(|ls|, i requires 0 <= i < |ls| => ls[i].name)
  }

  function KindNames(c: Config, k: Kind): seq<string> {
    match k
    case Services => NamesOf(c.services)
    case Quotas => QuotaNames(c.quotas)
    case Limiters => LimiterNames(c.limiters)
    case CLimiters => LimiterNames(c.climiters)
  }

  lemma {:induction false} KindNamesPlus(a: Config, b: Config, k: Kind)
    ensures KindNames(a.Plus(b), k) == KindNames(a, k) + KindNames(b, k)
  {
  }

  /** The names that belong to a node. */
  function OwnNames(id: string, k: Kind): set<string> {
    match k
    case Services => {TCPName(id), UDPName(id)}
    case Quotas => {QuotaName(id)}
    case Limiters => {LimiterName(id)}
    case CLimiters => {CLimiterName(id)}
  }

  predicate Own(id: string, key: Key) {
    key.name in OwnNames(id, key.kind)
  }

  lemma {:induction false} OwnDisjoint(a: string, b: string, key: Key)
    requires a != b && Own(a, key)
    ensures !Own(b, key)
  {
    NamesDistinct(a, b);
    NamesDistinct(b, a);
  }

  predicate DistinctIds(nodes: seq<Node>) {
    forall i, j :: 0 <= i < j < |nodes| ==> nodes[i].id != nodes[j].id
  }

  lemma {:induction false} TwoNames(t: string, u: string, both: bool)
    requires t != u
    ensures var names := [t] + if both then [u] else [];
            NoDuplicates(names) && forall x :: x in names ==> x in {t, u}
  {
  }

  lemma {:induction false} CompiledServiceNames(n: Node, opts: Options)
    ensures var names := NamesOf(Compile(n, opts).services);
            NoDuplicates(names) && forall x :: x in names ==> x in OwnNames(n.id, Services)
  {
    NamesDistinct(n.id, n.id);
    if Active(n) {
      EmittedNames(n, opts);
      TwoNames(TCPName(n.id), UDPName(n.id), EmitsUDP(n));
    }
  }

  lemma {:induction false} CompiledNames(n: Node, opts: Options, k: Kind)
    ensures NoDuplicates(KindNames(Compile(n, opts), k))
    ensures forall x :: x in KindNames(Compile(n, opts), k) ==> x in OwnNames(n.id, k)
  {
    if k == Services {
      CompiledServiceNames(n, opts);
    }
  }

  lemma {:induction false} NamesHaveOwner(nodes: seq<Node>, opts: Options, k: Kind, x: string)
    requires x in KindNames(BuildConfig(nodes, opts), k)
    ensures exists n :: n in nodes && x in OwnNames(n.id, k)
  {
    if nodes != [] {
      var a, b := Compile(nodes[0], opts), BuildConfig(nodes[1..], opts);
      KindNamesPlus(a, b, k);
      if x in KindNames(a, k) {
        CompiledNames(nodes[0], opts, k);
        assert nodes[0] in nodes;
      } else {
        NamesHaveOwner(nodes[1..], opts, k, x);
        var n :| n in nodes[1..] && x in OwnNames(n.id, k);
        assert n in nodes;
      }
    }
  }

  lemma {:induction false} NoDupJoin(a: seq<string>, b: seq<string>)
    requires NoDuplicates(a) && NoDuplicates(b) && forall x :: x in a ==> x !in b
    ensures NoDuplicates(a + b)
  {
    var s := a + b;
    forall i, j | 0 <= i < j < |s|
      ensures s[i] != s[j]
    {
      assert i < |a| ==> s[i] in a;
      assert j >= |a| ==> s[j] in b;
    }
  }

  /** For distinct ids no two resources of a kind share a name. */
  lemma {:induction false} AllNamesDistinct(nodes: seq<Node>, opts: Options, k: Kind)
    requires DistinctIds(nodes)
    ensures NoDuplicates(KindNames(BuildConfig(nodes, opts), k))
  {
    if nodes != [] {
      var n, a, b := nodes[0], Compile(nodes[0], opts), BuildConfig(nodes[1..], opts);
      AllNamesDistinct(nodes[1..], opts, k);
      KindNamesPlus(a, b, k);
      CompiledNames(n, opts, k);
      forall x | x in KindNames(a, k)
        ensures x !in KindNames(b, k)
      {
        if x in KindNames(b, k) {
          NamesHaveOwner(nodes[1..], opts, k, x);
          var m :| m in nodes[1..] && x in OwnNames(m.id, k);
          OwnDisjoint(n.id, m.id, Key(k, x));
        }
      }
      NoDupJoin(KindNames(a, k), KindNames(b, k));
    }
  }

  // ---------- references ----------

  /** Everything a service refers to is defined. */
  predicate Resolves(c: Config, s: Service) {
    && (forall q :: q in s.quotas ==> q in KindNames(c, Quotas))
    && (s.limiter != "" ==> s.limiter in KindNames(c, Limiters))
    && (s.climiter != "" ==> s.climiter in KindNames(c, CLimiters))
  }

  lemma {:induction false} ResolvesInPlus(a: Config, b: Config, s: Service)
    requires Resolves(a, s) || Resolves(b, s)
    ensures Resolves(a.Plus(b), s)
  {
    KindNamesPlus(a, b, Quotas);
    KindNamesPlus(a, b, Limiters);
    KindNamesPlus(a, b, CLimiters);
  }

  lemma {:induction false} CompiledResolves(n: Node, opts: Options, s: Service)
    requires s in Compile(n, opts).services
    ensures Resolves(Compile(n, opts), s)
  {
    var c := Compile(n, opts);
    if HasQuota(n) {
      assert KindNames(c, Quotas)[0] == QuotaName(n.id);
    }
    if HasRate(n) {
      assert KindNames(c, Limiters)[0] == LimiterName(n.id);
    }
    if n.connLimit > 0 {
      assert KindNames(c, CLimiters)[0] == CLimiterName(n.id);
    }
  }

  lemma {:induction false} AllResolve(nodes: seq<Node>, opts: Options, s: Service)
    requires s in BuildConfig(nodes, opts).services
    ensures Resolves(BuildConfig(nodes, opts), s)
  {
    if nodes != [] {
      var a, b := Compile(nodes[0], opts), BuildConfig(nodes[1..], opts);
      if s in a.services {
        CompiledResolves(nodes[0], opts, s);
      } else {
        AllResolve(nodes[1..], opts, s);
      }
      ResolvesInPlus(a, b, s);
    }
  }

  predicate DefinedOnce(names: seq<string>, x: string) {
    exists i :: 0 <= i < |names| && names[i] == x && forall j :: 0 <= j < |names| && names[j] == x ==> j == i
  }

  lemma {:induction false} OnceIfNoDup(names: seq<string>, x: string)
    requires NoDuplicates(names) && x in names
    ensures DefinedOnce(names, x)
  {
    var i :| 0 <= i < |names| && names[i] == x;
    assert forall j :: 0 <= j < |names| && names[j] == x ==> j == i;
  }

  /** Every quota and limiter reference resolves to exactly one definition. */
  lemma {:induction false} ReferencesResolveOnce(nodes: seq<Node>, opts: Options, s: Service)
    requires DistinctIds(nodes) && s in BuildConfig(nodes, opts).services
    ensures var c := BuildConfig(nodes, opts);
            && (forall q :: q in s.quotas ==> DefinedOnce(KindNames(c, Quotas), q))
            && (s.limiter != "" ==> DefinedOnce(KindNames(c, Limiters), s.limiter))
            && (s.climiter != "" ==> DefinedOnce(KindNames(c, CLimiters), s.climiter))
  {
    var c := BuildConfig(nodes, opts);
    AllResolve(nodes, opts, s);
    AllNamesDistinct(nodes, opts, Quotas);
    AllNamesDistinct(nodes, opts, Limiters);
    AllNamesDistinct(nodes, opts, CLimiters);
    forall q | q in s.quotas
      ensures DefinedOnce(KindNames(c, Quotas), q)
    {
      OnceIfNoDup(KindNames(c, Quotas), q);
    }
    if s.limiter != "" {
      OnceIfNoDup(KindNames(c, Limiters), s.limiter);
    }
    if s.climiter != "" {
      OnceIfNoDup(KindNames(c, CLimiters), s.climiter);
    }
  }
}

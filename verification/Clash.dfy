/** Clash proxies from parsed links (internal/link/link.go, ClashProxy), and what a relay changes in them. */
module Clash {
  import opened Wrappers
  import opened Text
  import opened Query
  import opened Link
  import opened LinkSS

  datatype Value = Txt(s: string) | Number(n: int) | Flag(b: bool) | Items(items: seq<string>) | Table(entries: Proxy)

  type Proxy = map<string, Value>

  datatype ClashError = NoCipher | NoUuid | NoPassword | NoObject | Unsupported

  /** The parameters that the URI schemes look up in the query, apart from SNI and Host. */
  datatype Params = Params(flow: string, security: string, fingerprint: string, publicKey: string, shortId: string,
                           path: string, service: string, insecure: string, allowInsecure: string,
                           obfs: string, obfsPassword: string, alpn: string, congestion: string, relayMode: string,
                           disableSni: string, disableSNI: string)

  function ParamsOf(ps: Pairs): Params {
    Params(GetFirst(ps, ["flow"]), GetFirst(ps, ["security", "tls"]), GetFirst(ps, ["fp", "fingerprint"]),
           GetFirst(ps, ["pbk"]), GetFirst(ps, ["sid"]), GetFirst(ps, ["path"]), GetFirst(ps, ["serviceName"]),
           GetFirst(ps, ["insecure"]), GetFirst(ps, ["allowInsecure"]), GetFirst(ps, ["obfs"]),
           GetFirst(ps, ["obfs-password"]), GetFirst(ps, ["alpn"]), GetFirst(ps, ["congestion-controller"]),
           GetFirst(ps, ["udp-relay-mode"]), GetFirst(ps, ["disable-sni"]), GetFirst(ps, ["disableSNI"]))
  }

  function PutText(p: Proxy, k: string, v: string): Proxy {
    if v != "" then p[k := Txt(v)] else p
  }

  function PutFlag(p: Proxy, k: string, on: bool): Proxy {
    if on then p[k := Flag(true)] else p
  }

  function PutTable(p: Proxy, k: string, on: bool, t: Proxy): Proxy {
    if on then p[k := Table(t)] else p
  }

  function Base(name: string, kind: string, server: string, port: int): Proxy {
    map["name" := Txt(name), "type" := Txt(kind), "server" := Txt(server), "port" := Number(port)]
  }

  /** The options of a transport: the path, then the Host where the transport keeps it. */
  function WsOpts(path: string, hostHdr: string): Proxy {
    PutTable(PutText(map[], "path", path), "headers", hostHdr != "", map["Host" := Txt(hostHdr)])
  }

  function H2Opts(path: string, hostHdr: string): Proxy {
    var opts := PutText(map[], "path", path);
    if hostHdr != "" then opts["host" := Items([hostHdr])] else opts
  }

  function ClashTransport(p: Proxy, network: string, path: string, hostHdr: string, grpcSvc: string): Proxy {
    var n := ToLower(network);
    if n == "ws" || n == "websocket" then p["network" := Txt("ws")]["ws-opts" := Table(WsOpts(path, hostHdr))]
    else if n == "grpc" then p["network" := Txt("grpc")]["grpc-opts" := Table(map["grpc-service-name" := Txt(grpcSvc)])]
    else if n == "h2" then p["network" := Txt("h2")]["h2-opts" := Table(H2Opts(path, hostHdr))]
    else p
  }

  function RealityOpts(q: Params): Proxy {
    PutText(map["public-key" := Txt(q.publicKey)], "short-id", q.shortId)
  }

  function VlessTls(p: Proxy, sni: string, q: Params): Proxy {
    var t := PutText(p["tls" := Flag(true)]["skip-cert-verify" := Flag(false)], "servername", sni);
    PutTable(PutText(t, "client-fingerprint", q.fingerprint), "reality-opts", q.publicKey != "", RealityOpts(q))
  }

  function ClashVless(i: Info, name: string, q: Params, sniFallback: string): Result<Proxy, ClashError> {
    var uuid := TrimSpace(i.userinfo);
    if uuid == "" then Err(NoUuid)
    else
      var p := PutText(Base(name, "vless", i.host, i.port)["uuid" := Txt(uuid)]["udp" := Flag(true)], "flow", q.flow);
      var tls := i.tls || ToLower(q.security) in {"tls", "reality", "xtls"};
      var t := if tls then VlessTls(p, OrElse(i.sni, sniFallback), q) else p;
      Ok(ClashTransport(t, i.transport, q.path, i.hostHdr, q.service))
  }

  function ClashTrojan(i: Info, name: string, q: Params, sniFallback: string): Result<Proxy, ClashError> {
    var pass := TrimSpace(i.userinfo);
    if pass == "" then Err(NoPassword)
    else
      var p := Base(name, "trojan", i.host, i.port)["password" := Txt(pass)]["tls" := Flag(true)]
                 ["skip-cert-verify" := Flag(false)]["udp" := Flag(true)];
      var t := PutText(PutText(p, "sni", OrElse(i.sni, sniFallback)), "client-fingerprint", q.fingerprint);
      Ok(ClashTransport(t, i.transport, q.path, i.hostHdr, q.service))
  }

  predicate Insecure(q: Params) {
    q.insecure == "1" || Folds(q.allowInsecure, "true")
  }

  function ClashHysteria2(i: Info, name: string, q: Params, sniFallback: string): Result<Proxy, ClashError> {
    var pass := TrimSpace(i.userinfo);
    if pass == "" then Err(NoPassword)
    else
      var p := PutText(Base(name, "hysteria2", i.host, i.port)["password" := Txt(pass)], "sni",
          OrElse(i.sni, sniFallback));
      var v := PutFlag(p, "skip-cert-verify", Insecure(q));
      Ok(if q.obfs != "" then PutText(v["obfs" := Txt(q.obfs)], "obfs-password", q.obfsPassword) else v)
  }

  /** strings.Split(s, ","). */
  function SplitComma(s: string): seq<string>
    decreases |s|
  {
    var k := IndexByte(s, ',');
    if k < 0 then [s] else [s[..k]] + SplitComma(s[k + 1..])
  }

  /** A tuic userinfo: uuid and password around the first ':'. */
  function UuidPass(ui: string): (string, string) {
    var k := IndexByte(ui, ':');
    if k >= 0 then (ui[..k], ui[k + 1..]) else (ui, "")
  }

  function TuicOptions(p: Proxy, q: Params): Proxy {
    var a := if q.alpn != "" then p["alpn" := Items(SplitComma(q.alpn))] else p;
    var c := PutText(PutText(a, "congestion-controller", q.congestion), "udp-relay-mode", q.relayMode);
    PutFlag(PutFlag(c, "disable-sni", q.disableSni == "1" || Folds(q.disableSNI, "true")), "skip-cert-verify",
        Insecure(q))
  }

  function ClashTuic(i: Info, name: string, q: Params, sniFallback: string): Result<Proxy, ClashError> {
    var c := UuidPass(TrimSpace(i.userinfo));
    if c.0 == "" then Err(NoUuid)
    else
      var p := Base(name, "tuic", i.host, i.port)["uuid" := Txt(c.0)]["password" := Txt(c.1)];
      Ok(TuicOptions(PutText(p, "sni", OrElse(i.sni, sniFallback)), q))
  }

  function ClashSS(i: Info, name: string): Result<Proxy, ClashError> {
    var c := Cipher(i);
    if c.0 == "" then Err(NoCipher)
    else Ok(Base(name, "ss", i.host, i.port)["cipher" := Txt(c.0)]["password" := Txt(c.1)]["udp" := Flag(true)])
  }

  function VmessTls(p: Proxy, sni: string): Proxy {
    PutText(p["tls" := Flag(true)]["skip-cert-verify" := Flag(false)], "servername", sni)
  }

  function ClashVmess(i: Info, name: string): Result<Proxy, ClashError> {
    if i.vmess.None? then Err(NoObject)
    else
      var m := i.vmess.value;
      if AsString(m, "id") == "" then Err(NoUuid)
      else
        var p := Base(name, "vmess", i.host,
            i.port)["uuid" := Txt(AsString(m, "id"))]["alterId" := Number(ToInt(m, "aid"))]
                   ["cipher" := Txt("auto")]["udp" := Flag(true)];
        var t := if i.tls then VmessTls(p, OrElse(i.sni, AsString(m, "sni"))) else p;
        Ok(ClashTransport(t, i.transport, AsString(m, "path"), i.hostHdr, AsString(m, "serviceName")))
  }

  function ClashProxy(i: Info, given: string): Result<Proxy, ClashError> {
    var name := OrElse(OrElse(given, i.name), i.host);
    var ps := ParseQuery(i.rawQuery);
    var q := ParamsOf(ps);
    if i.scheme == "ss" then ClashSS(i, name)
    else if i.scheme == "vmess" then ClashVmess(i, name)
    else if i.scheme == "vless" then ClashVless(i, name, q, GetFirst(ps, ["sni", "servername", "peer"]))
    else if i.scheme in {"trojan", "trojan-go"} then
      ClashTrojan(i, name, q, GetFirst(ps, ["sni", "peer", "servername"]))
    else if i.scheme in {"hysteria2", "hy2"} then
      ClashHysteria2(i, name, q, GetFirst(ps, ["sni", "peer", "obfs-password"]))
    else if i.scheme == "tuic" then ClashTuic(i, name, q, GetFirst(ps, ["sni", "peer"]))
    else Err(Unsupported)
  }

  // ---------- what a relay changes ----------

  /** Options that agree on everything but the Host. */
  ghost predicate SameOpts(a: Option<Value>, b: Option<Value>) {
    || a == b
    || (a.Some? && b.Some? && a.value.Table? && b.value.Table?
        && (forall k :: k != "headers" && k != "host" ==> Lookup(a.value.entries, k) == Lookup(b.value.entries, k)))
  }

  predicate Fixed(k: string, sniSame: bool, hostSame: bool) {
    && k !in {"server", "port"}
    && (sniSame || k !in {"sni", "servername"})
    && (hostSame || k !in {"ws-opts", "h2-opts"})
  }

  /** q is p at another address; the server name and the Host differ only where they may. */
  ghost predicate Relocated(p: Proxy, q: Proxy, host: string, port: int, sniSame: bool, hostSame: bool) {
    && Lookup(q, "server") == Some(Txt(host)) && Lookup(q, "port") == Some(Number(port))
    && "server" in p && "port" in p
    && (forall k :: Fixed(k, sniSame, hostSame) ==> Lookup(p, k) == Lookup(q, k))
    && SameOpts(Lookup(p, "ws-opts"), Lookup(q, "ws-opts")) && SameOpts(Lookup(p, "h2-opts"), Lookup(q, "h2-opts"))
  }

  /** When nothing may differ, only server and port are replaced. */
  lemma {:induction false} RelocatedExactly(p: Proxy, q: Proxy, host: string, port: int)
    requires Relocated(p, q, host, port, true, true)
    ensures q == p["server" := Txt(host)]["port" := Number(port)]
  {
    var r := p["server" := Txt(host)]["port" := Number(port)];
    forall k
      ensures Lookup(r, k) == Lookup(q, k)
    {
      assert k !in {"server", "port"} ==> Fixed(k, true, true);
    }
    assert forall k :: (k in r <==> Lookup(r, k).Some?) && (k in q <==> Lookup(q, k).Some?);
  }

  lemma {:induction false} BothPut(p: Proxy, q: Proxy, k: string, v: Value, host: string, port: int, s: bool, h: bool)
    requires Relocated(p, q, host, port, s, h) && k !in {"server", "port"}
    ensures Relocated(p[k := v], q[k := v], host, port, s, h)
  {
  }

  lemma {:induction false} BothText(p: Proxy, q: Proxy, k: string, v: string, host: string, port: int, s: bool, h: bool)
    requires Relocated(p, q, host, port, s, h) && k !in {"server", "port"}
    ensures Relocated(PutText(p, k, v), PutText(q, k, v), host, port, s, h)
  {
    BothPut(p, q, k, Txt(v), host, port, s, h);
  }

  lemma {:induction false} BothSni(p: Proxy, q: Proxy, k: string, v: string, w: string, host: string, port: int,
                                   s: bool, h: bool)
    requires Relocated(p, q, host, port, s, h) && k in {"sni", "servername"} && (s ==> v == w)
    ensures Relocated(PutText(p, k, v), PutText(q, k, w), host, port, s, h)
  {
  }

  lemma {:induction false} BothOpts(p: Proxy, q: Proxy, k: string, v: Proxy, w: Proxy, host: string, port: int, s: bool,
                                    h: bool)
    requires Relocated(p, q, host, port, s, h) && k in {"ws-opts", "h2-opts"} && (h ==> v == w)
    requires forall x :: x != "headers" && x != "host" ==> Lookup(v, x) == Lookup(w, x)
    ensures Relocated(p[k := Table(v)], q[k := Table(w)], host, port, s, h)
  {
  }

  lemma {:induction false} BothTransport(p: Proxy, q: Proxy, network: string, path: string, hdr: string, hdr2: string,
                                         svc: string,
                                         host: string, port: int, s: bool, h: bool)
    requires Relocated(p, q, host, port, s, h) && (h ==> hdr == hdr2)
    ensures Relocated(ClashTransport(p, network, path, hdr, svc), ClashTransport(q, network, path, hdr2, svc), host,
        port, s, h)
  {
    var n := ToLower(network);
    if n == "ws" || n == "websocket" {
      var p1, q1 := p["network" := Txt("ws")], q["network" := Txt("ws")];
      BothPut(p, q, "network", Txt("ws"), host, port, s, h);
      BothOpts(p1, q1, "ws-opts", WsOpts(path, hdr), WsOpts(path, hdr2), host, port, s, h);
    } else if n == "grpc" {
      var p1, q1 := p["network" := Txt("grpc")], q["network" := Txt("grpc")];
      BothPut(p, q, "network", Txt("grpc"), host, port, s, h);
      BothPut(p1, q1, "grpc-opts", Table(map["grpc-service-name" := Txt(svc)]), host, port, s, h);
    } else if n == "h2" {
      var p1, q1 := p["network" := Txt("h2")], q["network" := Txt("h2")];
      BothPut(p, q, "network", Txt("h2"), host, port, s, h);
      BothOpts(p1, q1, "h2-opts", H2Opts(path, hdr), H2Opts(path, hdr2), host, port, s, h);
    }
  }
}

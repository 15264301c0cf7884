/** A relay moves a Clash proxy to another address and changes nothing else. */
module ClashRelay {
  import opened Wrappers
  import opened Text
  import opened Query
  import opened HostPort
  import opened Link
  import opened LinkReparse
  import opened LinkMeaning
  import opened LinkSS
  import opened LinkVmess
  import opened Clash

  // ---------- what a proxy carries ----------

  /** The keys of a proxy that are neither its address, its credential nor its server name. */
  predicate Optional(k: string) {
    k in {"udp", "flow", "tls", "skip-cert-verify", "client-fingerprint", "reality-opts", "obfs", "obfs-password",
          "alpn", "congestion-controller", "udp-relay-mode", "disable-sni", "network", "ws-opts", "grpc-opts",
          "h2-opts"}
  }

  lemma {:induction false} TransportKeeps(p: Proxy, network: string, path: string, hdr: string, svc: string, k: string)
    requires !Optional(k)
    ensures Lookup(ClashTransport(p, network, path, hdr, svc), k) == Lookup(p, k)
  {
  }

  lemma {:induction false} TlsSays(p: Proxy, sni: string, q: Params, k: string)
    requires !Optional(k)
    ensures var name := if k == "servername" && sni != "" then Some(Txt(sni)) else Lookup(p, k);
            Lookup(VlessTls(p, sni, q), k) == name == Lookup(VmessTls(p, sni), k)
  {
  }

  lemma {:induction false} TuicOptionsKeep(p: Proxy, q: Params, k: string)
    requires !Optional(k)
    ensures Lookup(TuicOptions(p, q), k) == Lookup(p, k)
  {
  }

  function TextOrNone(v: string): Option<Value> {
    if v != "" then Some(Txt(v)) else None
  }

  /** The server name of a proxy: given with TLS, when it is not empty. */
  function NameWith(on: bool, sni: string): Option<Value> {
    if on then TextOrNone(sni) else None
  }

  /** What a proxy holds under a key that is not optional: its address and credential, and the server name under
      `sniKey`; nothing else. */
  function Carried(name: string, kind: string, i: Info, secrets: Proxy, sniKey: string, sni: Option<Value>,
                   k: string): Option<Value>
  {
    if k == sniKey then sni
    else if k in secrets then Some(secrets[k])
    else Lookup(Base(name, kind, i.host, i.port), k)
  }

  /** A vless proxy: its address, its uuid, and its server name exactly when it is secured. */
  lemma {:induction false} VlessCarries(i: Info, name: string, q: Params, f: string, k: string)
    requires ClashVless(i, name, q, f).Ok? && !Optional(k)
    ensures var secured := i.tls || ToLower(q.security) in {"tls", "reality", "xtls"};
            Lookup(ClashVless(i, name, q, f).value, k)
            == Carried(name, "vless", i, map["uuid" := Txt(TrimSpace(i.userinfo))], "servername",
                       NameWith(secured, OrElse(i.sni, f)), k)
  {
    var p := PutText(Base(name, "vless", i.host, i.port)["uuid" := Txt(TrimSpace(i.userinfo))]["udp" := Flag(true)],
        "flow", q.flow);
    var secured := i.tls || ToLower(q.security) in {"tls", "reality", "xtls"};
    TlsSays(p, OrElse(i.sni, f), q, k);
    TransportKeeps(if secured then VlessTls(p, OrElse(i.sni, f), q) else p, i.transport, q.path, i.hostHdr, q.service,
        k);
  }

  /** A trojan proxy: its address, its password, its SNI. */
  lemma {:induction false} TrojanCarries(i: Info, name: string, q: Params, f: string, k: string)
    requires ClashTrojan(i, name, q, f).Ok? && !Optional(k)
    ensures Lookup(ClashTrojan(i, name, q, f).value, k)
         == Carried(name, "trojan", i, map["password" := Txt(TrimSpace(i.userinfo))], "sni",
                    TextOrNone(OrElse(i.sni, f)), k)
  {
  }

  /** A hysteria2 proxy: its address, its password, its SNI. */
  lemma {:induction false} Hysteria2Carries(i: Info, name: string, q: Params, f: string, k: string)
    requires ClashHysteria2(i, name, q, f).Ok? && !Optional(k)
    ensures Lookup(ClashHysteria2(i, name, q, f).value, k)
         == Carried(name, "hysteria2", i, map["password" := Txt(TrimSpace(i.userinfo))], "sni",
                    TextOrNone(OrElse(i.sni, f)), k)
  {
  }

  /** A tuic proxy: its address, its uuid and password, its SNI. */
  lemma {:induction false} TuicCarries(i: Info, name: string, q: Params, f: string, k: string)
    requires ClashTuic(i, name, q, f).Ok? && !Optional(k)
    ensures var c := UuidPass(TrimSpace(i.userinfo));
            Lookup(ClashTuic(i, name, q, f).value, k)
            == Carried(name, "tuic", i, map["uuid" := Txt(c.0), "password" := Txt(c.1)], "sni",
                       TextOrNone(OrElse(i.sni, f)), k)
  {
    var c := UuidPass(TrimSpace(i.userinfo));
    var p := Base(name, "tuic", i.host, i.port)["uuid" := Txt(c.0)]["password" := Txt(c.1)];
    TuicOptionsKeep(PutText(p, "sni", OrElse(i.sni, f)), q, k);
  }

  /** The credential of a vmess proxy. */
  function VmessSecrets(m: Object): Proxy {
    map["uuid" := Txt(AsString(m, "id")), "alterId" := Number(ToInt(m, "aid")), "cipher" := Txt("auto")]
  }

  lemma {:induction false} VmessHead(i: Info, m: Object, name: string, k: string)
    requires !Optional(k)
    ensures var p := Base(name, "vmess", i.host, i.port)["uuid" := Txt(AsString(m, "id"))]
                       ["alterId" := Number(ToInt(m, "aid"))]["cipher" := Txt("auto")]["udp" := Flag(true)];
            Lookup(p, k) == Carried(name, "vmess", i, VmessSecrets(m), "servername", None, k)
  {
  }

  /** A vmess proxy: its address, its uuid, alterId and cipher, and with TLS its server name. */
  lemma {:induction false} VmessCarries(i: Info, name: string, k: string)
    requires ClashVmess(i, name).Ok? && !Optional(k)
    ensures i.vmess.Some?
            && var m := i.vmess.value;
               Lookup(ClashVmess(i, name).value, k)
               == Carried(name, "vmess", i, VmessSecrets(m), "servername",
                          NameWith(i.tls, OrElse(i.sni, AsString(m, "sni"))), k)
  {
    var m := i.vmess.value;
    var p := Base(name, "vmess", i.host, i.port)["uuid" := Txt(AsString(m, "id"))]
               ["alterId" := Number(ToInt(m, "aid"))]["cipher" := Txt("auto")]["udp" := Flag(true)];
    var sni := OrElse(i.sni, AsString(m, "sni"));
    VmessHead(i, m, name, k);
    TlsSays(p, sni, ParamsOf([]), k);
    TransportKeeps(if i.tls then VmessTls(p, sni) else p, i.transport, AsString(m, "path"), i.hostHdr,
        AsString(m, "serviceName"), k);
  }

  /** An ss proxy: its address, its method and password. */
  lemma {:induction false} SSCarries(i: Info, name: string, k: string)
    requires ClashSS(i, name).Ok? && !Optional(k)
    ensures Lookup(ClashSS(i, name).value, k)
         == Carried(name, "ss", i, map["cipher" := Txt(Cipher(i).0), "password" := Txt(Cipher(i).1)], "sni", None, k)
  {
  }

  // ---------- two proxies ----------

  /** The two conversions fail alike, or the second proxy is the first at the second address. */
  ghost predicate Moved(a: Result<Proxy, ClashError>, b: Result<Proxy, ClashError>, j: Info, s: bool, h: bool) {
    if a.Err? then b == a else b.Ok? && Relocated(a.value, b.value, j.host, j.port, s, h)
  }

  /** What the conversion looks at, apart from SNI and Host. */
  ghost predicate SameInputs(i: Info, j: Info, h: bool) {
    && j.scheme == i.scheme && j.userinfo == i.userinfo && j.transport == i.transport && j.tls == i.tls
    && (h ==> j.hostHdr == i.hostHdr)
  }

  lemma {:induction false} BaseMoves(name: string, kind: string, server: string, port: int, server2: string, port2: int,
                                     s: bool, h: bool)
    ensures Relocated(Base(name, kind, server, port), Base(name, kind, server2, port2), server2, port2, s, h)
  {
  }

  lemma {:induction false} BothFlag(p: Proxy, q: Proxy, k: string, on: bool, host: string, port: int, s: bool, h: bool)
    requires Relocated(p, q, host, port, s, h) && k !in {"server", "port"}
    ensures Relocated(PutFlag(p, k, on), PutFlag(q, k, on), host, port, s, h)
  {
    BothPut(p, q, k, Flag(true), host, port, s, h);
  }

  lemma {:induction false} VlessSecured(p: Proxy, q: Proxy, sni: string, sni2: string, x: Params, host: string,
                                        port: int, s: bool, h: bool)
    requires Relocated(p, q, host, port, s, h) && (s ==> sni == sni2)
    ensures Relocated(VlessTls(p, sni, x), VlessTls(q, sni2, x), host, port, s, h)
  {
    var p1, q1 := p["tls" := Flag(true)], q["tls" := Flag(true)];
    BothPut(p, q, "tls", Flag(true), host, port, s, h);
    var p2, q2 := p1["skip-cert-verify" := Flag(false)], q1["skip-cert-verify" := Flag(false)];
    BothPut(p1, q1, "skip-cert-verify", Flag(false), host, port, s, h);
    var p3, q3 := PutText(p2, "servername", sni), PutText(q2, "servername", sni2);
    BothSni(p2, q2, "servername", sni, sni2, host, port, s, h);
    var p4, q4 := PutText(p3, "client-fingerprint", x.fingerprint), PutText(q3, "client-fingerprint", x.fingerprint);
    BothText(p3, q3, "client-fingerprint", x.fingerprint, host, port, s, h);
    BothPut(p4, q4, "reality-opts", Table(RealityOpts(x)), host, port, s, h);
  }

  lemma {:induction false} VlessMoves(i: Info, j: Info, name: string, x: Params, f: string, g: string, s: bool, h: bool)
    requires SameInputs(i, j, h) && (s ==> OrElse(i.sni, f) == OrElse(j.sni, g))
    ensures Moved(ClashVless(i, name, x, f), ClashVless(j, name, x, g), j, s, h)
  {
    var uuid := TrimSpace(i.userinfo);
    var p, q := Base(name, "vless", i.host, i.port), Base(name, "vless", j.host, j.port);
    BaseMoves(name, "vless", i.host, i.port, j.host, j.port, s, h);
    var p1, q1 := p["uuid" := Txt(uuid)], q["uuid" := Txt(uuid)];
    BothPut(p, q, "uuid", Txt(uuid), j.host, j.port, s, h);
    var p2, q2 := p1["udp" := Flag(true)], q1["udp" := Flag(true)];
    BothPut(p1, q1, "udp", Flag(true), j.host, j.port, s, h);
    var p3, q3 := PutText(p2, "flow", x.flow), PutText(q2, "flow", x.flow);
    BothText(p2, q2, "flow", x.flow, j.host, j.port, s, h);
    VlessSecured(p3, q3, OrElse(i.sni, f), OrElse(j.sni, g), x, j.host, j.port, s, h);
    var on := i.tls || ToLower(x.security) in {"tls", "reality", "xtls"};
    var p4 := if on then VlessTls(p3, OrElse(i.sni, f), x) else p3;
    var q4 := if on then VlessTls(q3, OrElse(j.sni, g), x) else q3;
    BothTransport(p4, q4, i.transport, x.path, i.hostHdr, j.hostHdr, x.service, j.host, j.port, s, h);
  }

  lemma {:induction false} TrojanMoves(i: Info, j: Info, name: string, x: Params, f: string, g: string, s: bool,
                                       h: bool)
    requires SameInputs(i, j, h) && (s ==> OrElse(i.sni, f) == OrElse(j.sni, g))
    ensures Moved(ClashTrojan(i, name, x, f), ClashTrojan(j, name, x, g), j, s, h)
  {
    var pass := TrimSpace(i.userinfo);
    var p, q := Base(name, "trojan", i.host, i.port), Base(name, "trojan", j.host, j.port);
    BaseMoves(name, "trojan", i.host, i.port, j.host, j.port, s, h);
    var p1, q1 := p["password" := Txt(pass)], q["password" := Txt(pass)];
    BothPut(p, q, "password", Txt(pass), j.host, j.port, s, h);
    var p2, q2 := p1["tls" := Flag(true)], q1["tls" := Flag(true)];
    BothPut(p1, q1, "tls", Flag(true), j.host, j.port, s, h);
    var p3, q3 := p2["skip-cert-verify" := Flag(false)], q2["skip-cert-verify" := Flag(false)];
    BothPut(p2, q2, "skip-cert-verify", Flag(false), j.host, j.port, s, h);
    var p4, q4 := p3["udp" := Flag(true)], q3["udp" := Flag(true)];
    BothPut(p3, q3, "udp", Flag(true), j.host, j.port, s, h);
    var p5, q5 := PutText(p4, "sni", OrElse(i.sni, f)), PutText(q4, "sni", OrElse(j.sni, g));
    BothSni(p4, q4, "sni", OrElse(i.sni, f), OrElse(j.sni, g), j.host, j.port, s, h);
    var p6, q6 := PutText(p5, "client-fingerprint", x.fingerprint), PutText(q5, "client-fingerprint", x.fingerprint);
    BothText(p5, q5, "client-fingerprint", x.fingerprint, j.host, j.port, s, h);
    BothTransport(p6, q6, i.transport, x.path, i.hostHdr, j.hostHdr, x.service, j.host, j.port, s, h);
  }

  lemma {:induction false} Hysteria2Moves(i: Info, j: Info, name: string, x: Params, f: string, g: string, s: bool,
                                          h: bool)
    requires SameInputs(i, j, h) && (s ==> OrElse(i.sni, f) == OrElse(j.sni, g))
    ensures Moved(ClashHysteria2(i, name, x, f), ClashHysteria2(j, name, x, g), j, s, h)
  {
    var pass := TrimSpace(i.userinfo);
    var p, q := Base(name, "hysteria2", i.host, i.port), Base(name, "hysteria2", j.host, j.port);
    BaseMoves(name, "hysteria2", i.host, i.port, j.host, j.port, s, h);
    var p1, q1 := p["password" := Txt(pass)], q["password" := Txt(pass)];
    BothPut(p, q, "password", Txt(pass), j.host, j.port, s, h);
    var p2, q2 := PutText(p1, "sni", OrElse(i.sni, f)), PutText(q1, "sni", OrElse(j.sni, g));
    BothSni(p1, q1, "sni", OrElse(i.sni, f), OrElse(j.sni, g), j.host, j.port, s, h);
    var p3, q3 := PutFlag(p2, "skip-cert-verify", Insecure(x)), PutFlag(q2, "skip-cert-verify", Insecure(x));
    BothFlag(p2, q2, "skip-cert-verify", Insecure(x), j.host, j.port, s, h);
    var p4, q4 := p3["obfs" := Txt(x.obfs)], q3["obfs" := Txt(x.obfs)];
    BothPut(p3, q3, "obfs", Txt(x.obfs), j.host, j.port, s, h);
    BothText(p4, q4, "obfs-password", x.obfsPassword, j.host, j.port, s, h);
  }

  lemma {:induction false} TuicEnds(p: Proxy, q: Proxy, x: Params, host: string, port: int, s: bool, h: bool)
    requires Relocated(p, q, host, port, s, h)
    ensures Relocated(TuicOptions(p, x), TuicOptions(q, x), host, port, s, h)
  {
    var alpn := Items(SplitComma(x.alpn));
    BothPut(p, q, "alpn", alpn, host, port, s, h);
    var p1, q1 := if x.alpn != "" then p["alpn" := alpn] else p, if x.alpn != "" then q["alpn" := alpn] else q;
    var p2, q2 := PutText(p1, "congestion-controller", x.congestion),
        PutText(q1, "congestion-controller", x.congestion);
    BothText(p1, q1, "congestion-controller", x.congestion, host, port, s, h);
    var p3, q3 := PutText(p2, "udp-relay-mode", x.relayMode), PutText(q2, "udp-relay-mode", x.relayMode);
    BothText(p2, q2, "udp-relay-mode", x.relayMode, host, port, s, h);
    var off := x.disableSni == "1" || Folds(x.disableSNI, "true");
    var p4, q4 := PutFlag(p3, "disable-sni", off), PutFlag(q3, "disable-sni", off);
    BothFlag(p3, q3, "disable-sni", off, host, port, s, h);
    BothFlag(p4, q4, "skip-cert-verify", Insecure(x), host, port, s, h);
  }

  lemma {:induction false} TuicMoves(i: Info, j: Info, name: string, x: Params, f: string, g: string, s: bool, h: bool)
    requires SameInputs(i, j, h) && (s ==> OrElse(i.sni, f) == OrElse(j.sni, g))
    ensures Moved(ClashTuic(i, name, x, f), ClashTuic(j, name, x, g), j, s, h)
  {
    var c := UuidPass(TrimSpace(i.userinfo));
    var p, q := Base(name, "tuic", i.host, i.port), Base(name, "tuic", j.host, j.port);
    BaseMoves(name, "tuic", i.host, i.port, j.host, j.port, s, h);
    var p1, q1 := p["uuid" := Txt(c.0)], q["uuid" := Txt(c.0)];
    BothPut(p, q, "uuid", Txt(c.0), j.host, j.port, s, h);
    var p2, q2 := p1["password" := Txt(c.1)], q1["password" := Txt(c.1)];
    BothPut(p1, q1, "password", Txt(c.1), j.host, j.port, s, h);
    var p3, q3 := PutText(p2, "sni", OrElse(i.sni, f)), PutText(q2, "sni", OrElse(j.sni, g));
    BothSni(p2, q2, "sni", OrElse(i.sni, f), OrElse(j.sni, g), j.host, j.port, s, h);
    TuicEnds(p3, q3, x, j.host, j.port, s, h);
  }

  // ---------- the query side ----------

  lemma {:induction false} SameParams(ps: Pairs, sni: string, host: string)
    ensures ParamsOf(ps + Pair("sni", sni) + Pair("host", host)) == ParamsOf(ps)
  {
    OtherKeys(ps, sni, host, ["flow"]);
    OtherKeys(ps, sni, host, ["security", "tls"]);
    OtherKeys(ps, sni, host, ["fp", "fingerprint"]);
    OtherKeys(ps, sni, host, ["pbk"]);
    OtherKeys(ps, sni, host, ["sid"]);
    OtherKeys(ps, sni, host, ["path"]);
    OtherKeys(ps, sni, host, ["serviceName"]);
    OtherKeys(ps, sni, host, ["insecure"]);
    OtherKeys(ps, sni, host, ["allowInsecure"]);
    OtherKeys(ps, sni, host, ["obfs"]);
    OtherKeys(ps, sni, host, ["obfs-password"]);
    OtherKeys(ps, sni, host, ["alpn"]);
    OtherKeys(ps, sni, host, ["congestion-controller"]);
    OtherKeys(ps, sni, host, ["udp-relay-mode"]);
    OtherKeys(ps, sni, host, ["disable-sni"]);
    OtherKeys(ps, sni, host, ["disableSNI"]);
  }

  lemma {:induction false} RelayedParams(i: Info)
    requires Bytes(i.host)
    ensures ParamsOf(ParseQuery(NewQuery(i, "", ""))) == ParamsOf(ParseQuery(i.rawQuery))
  {
    FreshParams(i);
    NewPairs(i, "", "");
    SameParams(ParseQuery(i.rawQuery), SniParam(i, ""), HostParam(i, ""));
  }

  /** ClashProxy on URI links, with the SNI fallbacks that its scheme looks up. */
  lemma {:induction false} URIMoves(i: Info, j: Info, name: string, s: bool, h: bool)
    requires i.scheme != "ss" && i.scheme != "vmess" && SameInputs(i, j, h) && name != ""
    requires ParamsOf(ParseQuery(j.rawQuery)) == ParamsOf(ParseQuery(i.rawQuery))
    requires s ==> i.sni != "" && j.sni == i.sni
    ensures Moved(ClashProxy(i, name), ClashProxy(j, name), j, s, h)
  {
    var x := ParamsOf(ParseQuery(i.rawQuery));
    var ps, qs := ParseQuery(i.rawQuery), ParseQuery(j.rawQuery);
    if i.scheme == "vless" {
      VlessMoves(i, j, name, x, GetFirst(ps, ["sni", "servername", "peer"]),
          GetFirst(qs, ["sni", "servername", "peer"]), s, h);
    } else if i.scheme in {"trojan", "trojan-go"} {
      TrojanMoves(i, j, name, x, GetFirst(ps, ["sni", "peer", "servername"]),
          GetFirst(qs, ["sni", "peer", "servername"]), s, h);
    } else if i.scheme in {"hysteria2", "hy2"} {
      Hysteria2Moves(i, j, name, x, GetFirst(ps, ["sni", "peer", "obfs-password"]),
          GetFirst(qs, ["sni", "peer", "obfs-password"]), s, h);
    } else if i.scheme == "tuic" {
      TuicMoves(i, j, name, x, GetFirst(ps, ["sni", "peer"]), GetFirst(qs, ["sni", "peer"]), s, h);
    }
  }

  // ---------- the theorems ----------

  /** The name under which the Clash proxy of a relayed link is shown. */
  function ShownName(given: string, link: string, host: string): string {
    OrElse(OrElse(given, link), host)
  }

  lemma {:induction false} ShownTwice(j: Info, name: string)
    requires j.host != ""
    ensures ClashProxy(j, name) == ClashProxy(j, ShownName(name, j.name, j.host))
  {
  }

  /** What a link means after a relay: white space at the end of a nameless link's query is lost. */
  function Kept(i: Info, relayName: string): Info {
    if EndKept(i, relayName) then i else Shortened(i)
  }

  lemma {:induction false} RelayedInputs(i: Info, host: string, port: int, name: string)
    requires URIForm(i) && Bytes(i.host)
    ensures var j, k := Relayed(i, host, port, name), Kept(i, name);
            && SameInputs(k, j, k.hostHdr == j.hostHdr) && (k.sni != "" ==> j.sni == k.sni)
            && (k.hostHdr != "" || !NeedsHost(k) ==> k.hostHdr == j.hostHdr)
            && ParamsOf(ParseQuery(j.rawQuery)) == ParamsOf(ParseQuery(k.rawQuery)) && j.host == host && j.port == port
  {
    ReadQueryIs(i, name);
    if EndKept(i, name) {
      RelayKeepsMeaning(i, host, port, name);
      RelayedParams(i);
    }
  }

  lemma {:induction false} URIRelayed(i: Info, j: Info, k: Info, name: string)
    requires i.scheme != "ss" && i.scheme != "vmess" && k.scheme == i.scheme && j.host != ""
    requires SameInputs(k, j, k.hostHdr == j.hostHdr) && (k.sni != "" ==> j.sni == k.sni)
    requires k.hostHdr != "" || !NeedsHost(k) ==> k.hostHdr == j.hostHdr
    requires ParamsOf(ParseQuery(j.rawQuery)) == ParamsOf(ParseQuery(k.rawQuery))
    ensures var a, b := ClashProxy(k, ShownName(name, j.name, j.host)), ClashProxy(j, name);
            && Moved(a, b, j, k.sni != "", k.hostHdr == j.hostHdr)
            && (k.sni != "" && (k.hostHdr != "" || !NeedsHost(k)) && a.Ok?
                ==> b == Ok(a.value["server" := Txt(j.host)]["port" := Number(j.port)]))
  {
    var shown := ShownName(name, j.name, j.host);
    ShownTwice(j, name);
    URIMoves(k, j, shown, k.sni != "", k.hostHdr == j.hostHdr);
    ExactMove(ClashProxy(k, shown), ClashProxy(j, shown), j, k.sni != "", k.hostHdr == j.hostHdr);
  }

  /** The Clash proxy of a relayed URI link is the original's at the relay's address: both conversions fail with the
      same error, or every key but the server, its name and the Host agrees. When the link names its SNI, and its Host
      where the transport wants one, only server and port are replaced. (A nameless link is taken without the white
      space at the end of its query.) */
  lemma {:induction false} URIClashRelay(i: Info, host: string, port: int, relayName: string, name: string, json: Codec)
    requires URIForm(i) && Bytes(i.host) && Bytes(NewName(i, relayName))
    requires PlainHost(host) && 0 < port <= 65535
    ensures var first := Parse(RewriteURI(i, host, port, relayName, "", ""), json);
            var k := Kept(i, relayName);
            && first.Ok? && first.value.host == host && first.value.port == port
            && var a, b := ClashProxy(k, ShownName(name, NewName(i, relayName), host)), ClashProxy(first.value, name);
               && Moved(a, b, first.value, k.sni != "", k.hostHdr == first.value.hostHdr)
               && (k.sni != "" && (k.hostHdr != "" || !NeedsHost(k)) && a.Ok?
                   ==> b == Ok(a.value["server" := Txt(host)]["port" := Number(port)]))
  {
    Reparsed(i, host, port, relayName, json);
    RelayedInputs(i, host, port, relayName);
    URIRelayed(i, Relayed(i, host, port, relayName), Kept(i, relayName), name);
  }

  lemma {:induction false} ExactMove(a: Result<Proxy, ClashError>, b: Result<Proxy, ClashError>, j: Info, s: bool,
                                     h: bool)
    requires Moved(a, b, j, s, h)
    ensures s && h && a.Ok? ==> b == Ok(a.value["server" := Txt(j.host)]["port" := Number(j.port)])
  {
    if s && h && a.Ok? {
      RelocatedExactly(a.value, b.value, j.host, j.port);
    }
  }

  lemma {:induction false} SSMoves(i: Info, j: Info, name: string)
    requires Cipher(j) == Cipher(i)
    ensures Moved(ClashSS(i, name), ClashSS(j, name), j, true, true)
  {
    var c := Cipher(i);
    var p, q := Base(name, "ss", i.host, i.port), Base(name, "ss", j.host, j.port);
    BaseMoves(name, "ss", i.host, i.port, j.host, j.port, true, true);
    var p1, q1 := p["cipher" := Txt(c.0)], q["cipher" := Txt(c.0)];
    BothPut(p, q, "cipher", Txt(c.0), j.host, j.port, true, true);
    var p2, q2 := p1["password" := Txt(c.1)], q1["password" := Txt(c.1)];
    BothPut(p1, q1, "password", Txt(c.1), j.host, j.port, true, true);
    BothPut(p2, q2, "udp", Flag(true), j.host, j.port, true, true);
  }

  lemma {:induction false} SSRelayed(i: Info, j: Info, name: string)
    requires i.scheme == "ss" && j.scheme == "ss" && j.host != "" && Cipher(j) == Cipher(i)
    ensures var a := ClashProxy(i, ShownName(name, j.name, j.host));
            ClashProxy(j, name) == if a.Err? then a
                                   else Ok(a.value["server" := Txt(j.host)]["port" := Number(j.port)])
  {
    var shown := ShownName(name, j.name, j.host);
    ShownTwice(j, name);
    SSMoves(i, j, shown);
    ExactMove(ClashSS(i, shown), ClashSS(j, shown), j, true, true);
  }

  /** The Clash proxy of a relayed ss link: server and port replaced, nothing else, whichever spelling the link came
      in. With an '@' in the query there is no relayed link to convert. */
  lemma {:induction false} SSClashRelay(i: Info, host: string, port: int, relayName: string, name: string, json: Codec)
    requires SSForm(i) && Bytes(NewName(i, relayName)) && PlainHost(host) && 0 < port <= 65535
    ensures var first := Parse(Rewrite(i, host, port, relayName, "", "", json).value, json);
            && (first.Ok? <==> '@' !in i.rawQuery)
            && (first.Ok? ==>
                  var a := ClashProxy(i, ShownName(name, NewName(i, relayName), host));
                  ClashProxy(first.value, name) == if a.Err? then a
                    else Ok(a.value["server" := Txt(host)]["port" := Number(port)]))
  {
    SSReparsesIff(i, host, port, relayName, "", "", json);
    EmptyDecodes();
    if '@' !in i.rawQuery {
      SSRelayed(i, Parse(Rewrite(i, host, port, relayName, "", "", json).value, json).value, name);
    }
  }

  lemma {:induction false} VmessMoves(i: Info, m: Object, j: Info, n: Object, name: string, s: bool, h: bool)
    requires i.vmess == Some(m) && j.vmess == Some(n) && SameInputs(i, j, h)
    requires AsString(n, "id") == AsString(m, "id") && ToInt(n, "aid") == ToInt(m, "aid")
    requires AsString(n, "path") == AsString(m, "path") && AsString(n, "serviceName") == AsString(m, "serviceName")
    requires s ==> i.sni != "" && j.sni == i.sni
    ensures Moved(ClashVmess(i, name), ClashVmess(j, name), j, s, h)
  {
    var id := AsString(m, "id");
    var p, q := Base(name, "vmess", i.host, i.port), Base(name, "vmess", j.host, j.port);
    BaseMoves(name, "vmess", i.host, i.port, j.host, j.port, s, h);
    var p1, q1 := p["uuid" := Txt(id)], q["uuid" := Txt(id)];
    BothPut(p, q, "uuid", Txt(id), j.host, j.port, s, h);
    var p2, q2 := p1["alterId" := Number(ToInt(m, "aid"))], q1["alterId" := Number(ToInt(m, "aid"))];
    BothPut(p1, q1, "alterId", Number(ToInt(m, "aid")), j.host, j.port, s, h);
    var p3, q3 := p2["cipher" := Txt("auto")], q2["cipher" := Txt("auto")];
    BothPut(p2, q2, "cipher", Txt("auto"), j.host, j.port, s, h);
    var p4, q4 := p3["udp" := Flag(true)], q3["udp" := Flag(true)];
    BothPut(p3, q3, "udp", Flag(true), j.host, j.port, s, h);
    VmessEnds(i, j, p4, q4, OrElse(i.sni, AsString(m, "sni")), OrElse(j.sni, AsString(n, "sni")),
              AsString(m, "path"), AsString(m, "serviceName"), s, h);
  }

  lemma {:induction false} VmessEnds(i: Info, j: Info, p: Proxy, q: Proxy, sni: string, sni2: string, path: string,
                                     svc: string, s: bool, h: bool)
    requires SameInputs(i, j, h) && Relocated(p, q, j.host, j.port, s, h) && (s ==> sni == sni2)
    ensures Relocated(ClashTransport(if i.tls then VmessTls(p, sni) else p, i.transport, path, i.hostHdr, svc),
                      ClashTransport(if j.tls then VmessTls(q, sni2) else q, j.transport, path, j.hostHdr, svc),
                          j.host, j.port, s, h)
  {
    var p1, q1 := p["tls" := Flag(true)], q["tls" := Flag(true)];
    BothPut(p, q, "tls", Flag(true), j.host, j.port, s, h);
    var p2, q2 := p1["skip-cert-verify" := Flag(false)], q1["skip-cert-verify" := Flag(false)];
    BothPut(p1, q1, "skip-cert-verify", Flag(false), j.host, j.port, s, h);
    BothSni(p2, q2, "servername", sni, sni2, j.host, j.port, s, h);
    BothTransport(if i.tls then VmessTls(p, sni) else p, if j.tls then VmessTls(q, sni2) else q,
                  i.transport, path, i.hostHdr, j.hostHdr, svc, j.host, j.port, s, h);
  }

  lemma {:induction false} UntouchedKeys(m: Object, n: Object)
    requires forall k :: !Touched(k) ==> Lookup(n, k) == Lookup(m, k)
    ensures AsString(n, "id") == AsString(m, "id") && ToInt(n, "aid") == ToInt(m, "aid")
    ensures AsString(n, "path") == AsString(m, "path") && AsString(n, "serviceName") == AsString(m, "serviceName")
  {
    assert !Touched("id") && !Touched("aid") && !Touched("path") && !Touched("serviceName");
  }

  /** The Clash proxy of a relayed vmess link; address and name come back as the codec prints them. */
  lemma {:induction false} VmessClashRelay(i: Info, m: Object, host: string, port: int, relayName: string, name: string,
                                           json: Codec)
    requires VmessForm(i, m) && Mends(json) && Repaired(json, m) == m && host != "" && 0 < port <= 65535
    requires Prints(json, NewObject(i, m, host, port, relayName, "", ""))
    ensures var first := Parse(VmessLink(NewObject(i, m, host, port, relayName, "", ""), json), json);
            && first.Ok? && first.value.host == json.repair(host) && first.value.port == port
            && var shown := ShownName(name, NewName(i, json.repair(relayName)), json.repair(host));
               Moved(ClashProxy(i, shown), ClashProxy(first.value, name), first.value, i.sni != "",
                     i.hostHdr == first.value.hostHdr)
  {
    assert Ascii("");
    VmessReparses(i, m, host, port, relayName, "", "", json);
    var n := NewObject(i, m, json.repair(host), port, json.repair(relayName), "", "");
    var j := Parse(VmessLink(NewObject(i, m, host, port, relayName, "", ""), json), json).value;
    UntouchedKeys(m, n);
    VmessMoves(i, m, j, n, ShownName(name, j.name, j.host), i.sni != "", i.hostHdr == j.hostHdr);
    ShownTwice(j, name);
  }
}

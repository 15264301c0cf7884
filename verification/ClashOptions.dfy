/** What each optional key of a Clash proxy (internal/link/link.go, ClashProxy) says, read off the link's query, and
    where its address comes from: the order in which the conversion fills the keys does not show. */
module ClashOptions {
  import opened Wrappers
  import opened Text
  import opened Query
  import opened HostPort
  import opened Link
  import opened LinkMeaning
  import opened LinkSS
  import opened LinkReading
  import opened Clash
  import opened ClashRelay
  import opened Printers

  // ---------- the query's parameters ----------

  lemma {:induction false} VlessParams(ps: Pairs)
    ensures var q := ParamsOf(ps);
            && q.flow == Get(ps, "flow") && q.security == SecurityIn(ps)
            && q.fingerprint == OrElse(Get(ps, "fp"), Get(ps, "fingerprint"))
            && q.publicKey == Get(ps, "pbk") && q.shortId == Get(ps, "sid")
            && q.path == Get(ps, "path") && q.service == Get(ps, "serviceName")
  {
    First1(ps, "flow");
    First2(ps, "security", "tls");
    First2(ps, "fp", "fingerprint");
    First1(ps, "pbk");
    First1(ps, "sid");
    First1(ps, "path");
    First1(ps, "serviceName");
  }

  lemma {:induction false} TuicParams(ps: Pairs)
    ensures var q := ParamsOf(ps);
            && q.insecure == Get(ps, "insecure") && q.allowInsecure == Get(ps, "allowInsecure")
            && q.obfs == Get(ps, "obfs") && q.obfsPassword == Get(ps, "obfs-password") && q.alpn == Get(ps, "alpn")
            && q.congestion == Get(ps, "congestion-controller") && q.relayMode == Get(ps, "udp-relay-mode")
            && q.disableSni == Get(ps, "disable-sni") && q.disableSNI == Get(ps, "disableSNI")
  {
    First1(ps, "insecure");
    First1(ps, "allowInsecure");
    First1(ps, "obfs");
    First1(ps, "obfs-password");
    First1(ps, "alpn");
    First1(ps, "congestion-controller");
    First1(ps, "udp-relay-mode");
    First1(ps, "disable-sni");
    First1(ps, "disableSNI");
  }

  // ---------- layers ----------

  function FlagIf(on: bool, value: bool): Option<Value> {
    if on then Some(Flag(value)) else None
  }

  function TextIf(on: bool, v: string): Option<Value> {
    if on then TextOrNone(v) else None
  }

  /** A table of up to two entries. */
  function Entries(a: string, v: Option<Value>, b: string, w: Option<Value>): Proxy {
    (if v.Some? then map[a := v.value] else map[]) + (if w.Some? then map[b := w.value] else map[])
  }

  predicate TransportKey(k: string) {
    k == "network" || k == "ws-opts" || k == "grpc-opts" || k == "h2-opts"
  }

  predicate WsKind(network: string) {
    ToLower(network) == "ws" || ToLower(network) == "websocket"
  }

  /** The transport's keys: its name, and its path with the Host, or its service. */
  function TransportOption(network: string, path: string, hdr: string, service: string, k: string): Option<Value> {
    var n := ToLower(network);
    if k == "network" then
      if WsKind(network) then Some(Txt("ws")) else if n == "grpc" || n == "h2" then Some(Txt(n)) else None
    else if k == "ws-opts" && WsKind(network) then
      Some(Table(Entries("path", TextOrNone(path), "headers",
                         if hdr != "" then Some(Table(map["Host" := Txt(hdr)])) else None)))
    else if k == "grpc-opts" && n == "grpc" then Some(Table(map["grpc-service-name" := Txt(service)]))
    else if k == "h2-opts" && n == "h2" then
      Some(Table(Entries("path", TextOrNone(path), "host", if hdr != "" then Some(Items([hdr])) else None)))
    else None
  }

  lemma {:induction false} OptsAre(path: string, hdr: string)
    ensures WsOpts(path, hdr) == Entries("path", TextOrNone(path), "headers",
                                         if hdr != "" then Some(Table(map["Host" := Txt(hdr)])) else None)
    ensures H2Opts(path, hdr) == Entries("path", TextOrNone(path), "host",
                                         if hdr != "" then Some(Items([hdr])) else None)
  {
  }

  lemma {:induction false} TransportLayer(p: Proxy, network: string, path: string, hdr: string, service: string,
                                          k: string)
    requires TransportKey(k) ==> k !in p
    ensures Lookup(ClashTransport(p, network, path, hdr, service), k)
         == if TransportKey(k) then TransportOption(network, path, hdr, service, k) else Lookup(p, k)
  {
    OptsAre(path, hdr);
  }

  // ---------- vless ----------

  /** The options that come with TLS. */
  function TlsOption(secured: bool, fingerprint: string, pbk: string, sid: string, k: string): Option<Value> {
    if k == "tls" then FlagIf(secured, true)
    else if k == "skip-cert-verify" then FlagIf(secured, false)
    else if k == "client-fingerprint" then TextIf(secured, fingerprint)
    else if k == "reality-opts" && secured && pbk != "" then
      Some(Table(Entries("public-key", Some(Txt(pbk)), "short-id", TextOrNone(sid))))
    else None
  }

  /** What an optional key of a vless proxy says. */
  function VlessOption(i: Info, ps: Pairs, k: string): Option<Value> {
    if k == "udp" then Some(Flag(true))
    else if k == "flow" then TextOrNone(Get(ps, "flow"))
    else if TransportKey(k) then TransportOption(i.transport, Get(ps, "path"), i.hostHdr, Get(ps, "serviceName"), k)
    else
      TlsOption(i.tls || TLSWord(SecurityIn(ps)), OrElse(Get(ps, "fp"), Get(ps, "fingerprint")), Get(ps, "pbk"),
        Get(ps, "sid"), k)
  }

  lemma {:induction false} RealityOptsAre(q: Params)
    ensures RealityOpts(q) == Entries("public-key", Some(Txt(q.publicKey)), "short-id", TextOrNone(q.shortId))
  {
  }

  predicate TlsKey(k: string) {
    k == "tls" || k == "skip-cert-verify" || k == "client-fingerprint" || k == "reality-opts"
  }

  lemma {:induction false} TlsLayer(p: Proxy, sni: string, q: Params, k: string)
    requires Optional(k) && (TlsKey(k) ==> k !in p)
    ensures Lookup(VlessTls(p, sni, q), k)
         == if TlsKey(k) then TlsOption(true, q.fingerprint, q.publicKey, q.shortId, k) else Lookup(p, k)
  {
    RealityOptsAre(q);
  }

  lemma {:induction false} SecuredLayer(p: Proxy, secured: bool, sni: string, q: Params, k: string)
    requires Optional(k) && (TlsKey(k) ==> k !in p)
    ensures Lookup(if secured then VlessTls(p, sni, q) else p, k)
         == if TlsKey(k) then TlsOption(secured, q.fingerprint, q.publicKey, q.shortId, k) else Lookup(p, k)
  {
    TlsLayer(p, sni, q, k);
  }

  lemma {:induction false} VlessLayer(base: Proxy, uuid: string, flow: string, k: string)
    requires Optional(k) && k !in base
    ensures Lookup(PutText(base["uuid" := Txt(uuid)]["udp" := Flag(true)], "flow", flow), k)
         == if k == "udp" then Some(Flag(true)) else if k == "flow" then TextOrNone(flow) else None
  {
  }

  lemma {:induction false} BareBase(name: string, kind: string, server: string, port: int, k: string)
    requires Optional(k)
    ensures k !in Base(name, kind, server, port)
  {
  }

  /** The same, from the parameters as ClashProxy looks them up. */
  function VlessWith(i: Info, q: Params, k: string): Option<Value> {
    if k == "udp" then Some(Flag(true))
    else if k == "flow" then TextOrNone(q.flow)
    else if TransportKey(k) then TransportOption(i.transport, q.path, i.hostHdr, q.service, k)
    else TlsOption(i.tls || TLSWord(q.security), q.fingerprint, q.publicKey, q.shortId, k)
  }

  lemma {:induction false} VlessLayers(base: Proxy, uuid: string, secured: bool, sni: string, network: string,
                                       hdr: string, q: Params, k: string)
    requires Optional(k) && k !in base
    ensures var p := PutText(base["uuid" := Txt(uuid)]["udp" := Flag(true)], "flow", q.flow);
            Lookup(ClashTransport(if secured then VlessTls(p, sni, q) else p, network, q.path, hdr, q.service), k)
            == if k == "udp" then Some(Flag(true))
               else if k == "flow" then TextOrNone(q.flow)
               else if TransportKey(k) then TransportOption(network, q.path, hdr, q.service, k)
               else TlsOption(secured, q.fingerprint, q.publicKey, q.shortId, k)
  {
    var p := PutText(base["uuid" := Txt(uuid)]["udp" := Flag(true)], "flow", q.flow);
    VlessLayer(base, uuid, q.flow, k);
    SecuredLayer(p, secured, sni, q, k);
    TransportLayer(if secured then VlessTls(p, sni, q) else p, network, q.path, hdr, q.service, k);
  }

  lemma {:induction false} VlessFields(i: Info, name: string, q: Params, f: string, k: string)
    requires ClashVless(i, name, q, f).Ok? && Optional(k)
    ensures Lookup(ClashVless(i, name, q, f).value, k) == VlessWith(i, q, k)
  {
    BareBase(name, "vless", i.host, i.port, k);
    VlessLayers(Base(name, "vless", i.host, i.port), TrimSpace(i.userinfo), i.tls || TLSWord(q.security),
        OrElse(i.sni, f), i.transport, i.hostHdr, q, k);
  }

  lemma {:induction false} VlessQuery(i: Info, ps: Pairs, k: string)
    ensures VlessWith(i, ParamsOf(ps), k) == VlessOption(i, ps, k)
  {
    VlessParams(ps);
  }

  /** Every optional key of a vless proxy is read off the query: flow, fingerprint and REALITY's public key and short id
      each from its own parameter, the last three only with TLS. */
  lemma {:induction false} VlessOptions(i: Info, given: string, k: string)
    requires i.scheme == "vless" && ClashProxy(i, given).Ok? && Optional(k)
    ensures Lookup(ClashProxy(i, given).value, k) == VlessOption(i, ParseQuery(i.rawQuery), k)
  {
    var ps, name := ParseQuery(i.rawQuery), OrElse(OrElse(given, i.name), i.host);
    VlessFields(i, name, ParamsOf(ps), GetFirst(ps, ["sni", "servername", "peer"]), k);
    VlessQuery(i, ps, k);
  }

  // ---------- trojan ----------

  function TrojanOption(i: Info, ps: Pairs, k: string): Option<Value> {
    if k == "udp" then Some(Flag(true))
    else if TransportKey(k) then TransportOption(i.transport, Get(ps, "path"), i.hostHdr, Get(ps, "serviceName"), k)
    else TlsOption(true, OrElse(Get(ps, "fp"), Get(ps, "fingerprint")), "", "", k)
  }

  lemma {:induction false} TrojanLayers(base: Proxy, pass: string, sni: string, network: string, hdr: string, q: Params,
                                        k: string)
    requires Optional(k) && k !in base
    ensures var p := base["password" := Txt(pass)]["tls" := Flag(true)]["skip-cert-verify" := Flag(false)]
                       ["udp" := Flag(true)];
            var t := PutText(PutText(p, "sni", sni), "client-fingerprint", q.fingerprint);
            Lookup(ClashTransport(t, network, q.path, hdr, q.service), k)
            == if k == "udp" then Some(Flag(true))
               else if TransportKey(k) then TransportOption(network, q.path, hdr, q.service, k)
               else TlsOption(true, q.fingerprint, "", "", k)
  {
    var p := base["password" := Txt(pass)]["tls" := Flag(true)]["skip-cert-verify" := Flag(false)]
               ["udp" := Flag(true)];
    TransportLayer(PutText(PutText(p, "sni", sni), "client-fingerprint", q.fingerprint), network, q.path, hdr,
        q.service, k);
  }

  lemma {:induction false} TrojanOptions(i: Info, given: string, k: string)
    requires i.scheme in {"trojan", "trojan-go"} && ClashProxy(i, given).Ok? && Optional(k)
    ensures Lookup(ClashProxy(i, given).value, k) == TrojanOption(i, ParseQuery(i.rawQuery), k)
  {
    var ps, name := ParseQuery(i.rawQuery), OrElse(OrElse(given, i.name), i.host);
    VlessParams(ps);
    BareBase(name, "trojan", i.host, i.port, k);
    TrojanLayers(Base(name, "trojan", i.host, i.port), TrimSpace(i.userinfo),
        OrElse(i.sni, GetFirst(ps, ["sni", "peer", "servername"])), i.transport, i.hostHdr, ParamsOf(ps), k);
  }

  // ---------- hysteria2 and tuic ----------

  predicate Unchecked(insecure: string, allowInsecure: string) {
    insecure == "1" || ToLower(allowInsecure) == "true"
  }

  function Hysteria2Option(ps: Pairs, k: string): Option<Value> {
    if k == "skip-cert-verify" then FlagIf(Unchecked(Get(ps, "insecure"), Get(ps, "allowInsecure")), true)
    else if k == "obfs" then TextOrNone(Get(ps, "obfs"))
    else if k == "obfs-password" then TextIf(Get(ps, "obfs") != "", Get(ps, "obfs-password"))
    else None
  }

  lemma {:induction false} Hysteria2Layers(base: Proxy, pass: string, sni: string, q: Params, k: string)
    requires Optional(k) && k !in base
    ensures var v := PutFlag(PutText(base["password" := Txt(pass)], "sni", sni), "skip-cert-verify", Insecure(q));
            Lookup(if q.obfs != "" then PutText(v["obfs" := Txt(q.obfs)], "obfs-password", q.obfsPassword) else v, k)
            == if k == "skip-cert-verify" then FlagIf(Unchecked(q.insecure, q.allowInsecure), true)
               else if k == "obfs" then TextOrNone(q.obfs)
               else if k == "obfs-password" then TextIf(q.obfs != "", q.obfsPassword)
               else None
  {
  }

  lemma {:induction false} Hysteria2Case(i: Info, given: string)
    requires i.scheme in {"hysteria2", "hy2"}
    ensures var ps := ParseQuery(i.rawQuery);
            ClashProxy(i, given)
            == ClashHysteria2(i, OrElse(OrElse(given, i.name), i.host), ParamsOf(ps),
                              GetFirst(ps, ["sni", "peer", "obfs-password"]))
  {
  }

  lemma {:induction false} Hysteria2Fields(i: Info, name: string, q: Params, f: string, k: string)
    requires ClashHysteria2(i, name, q, f).Ok? && Optional(k)
    ensures Lookup(ClashHysteria2(i, name, q, f).value, k)
         == if k == "skip-cert-verify" then FlagIf(Unchecked(q.insecure, q.allowInsecure), true)
            else if k == "obfs" then TextOrNone(q.obfs)
            else if k == "obfs-password" then TextIf(q.obfs != "", q.obfsPassword)
            else None
  {
    BareBase(name, "hysteria2", i.host, i.port, k);
    Hysteria2Layers(Base(name, "hysteria2", i.host, i.port), TrimSpace(i.userinfo), OrElse(i.sni, f), q, k);
  }

  lemma {:induction false} Hysteria2Options(i: Info, given: string, k: string)
    requires i.scheme in {"hysteria2", "hy2"} && ClashProxy(i, given).Ok? && Optional(k)
    ensures Lookup(ClashProxy(i, given).value, k) == Hysteria2Option(ParseQuery(i.rawQuery), k)
  {
    var ps := ParseQuery(i.rawQuery);
    Hysteria2Case(i, given);
    Hysteria2Fields(i, OrElse(OrElse(given, i.name), i.host), ParamsOf(ps),
        GetFirst(ps, ["sni", "peer", "obfs-password"]), k);
    TuicParams(ps);
  }

  lemma {:induction false} SniNotOptional(k: string)
    requires k == "sni"
    ensures !Optional(k)
  {
  }

  lemma {:induction false} FallbackName(i: Info, ps: Pairs)
    requires Says(i, ps) && i.sni == ""
    ensures GetFirst(ps, ["sni", "peer", "obfs-password"]) == Get(ps, "obfs-password")
  {
    First3(ps, "sni", "peer", "obfs-password");
  }

  /** The server name of a hysteria2 proxy falls back to the obfuscation password: it is the link's, or absent with it,
      if and only if the link names a server or has no such password. */
  lemma {:induction false} Hysteria2SniIff(i: Info, given: string, k: string)
    requires i.scheme == "hysteria2" && ClashProxy(i, given).Ok? && Says(i, ParseQuery(i.rawQuery)) && k == "sni"
    ensures Lookup(ClashProxy(i, given).value, k) == TextOrNone(i.sni)
            <==> i.sni != "" || Get(ParseQuery(i.rawQuery), "obfs-password") == ""
  {
    var ps := ParseQuery(i.rawQuery);
    var f := GetFirst(ps, ["sni", "peer", "obfs-password"]);
    Hysteria2Case(i, given);
    SniNotOptional(k);
    Hysteria2Carries(i, OrElse(OrElse(given, i.name), i.host), ParamsOf(ps), f, k);
    if i.sni == "" {
      FallbackName(i, ps);
    }
  }

  function AlpnOption(alpn: string): Option<Value> {
    if alpn != "" then Some(Items(SplitComma(alpn))) else None
  }

  /** What an optional key of a tuic proxy says, from the parameters as ClashProxy looks them up. */
  function TuicWith(q: Params, k: string): Option<Value> {
    if k == "alpn" then AlpnOption(q.alpn)
    else if k == "congestion-controller" then TextOrNone(q.congestion)
    else if k == "udp-relay-mode" then TextOrNone(q.relayMode)
    else if k == "disable-sni" then FlagIf(Unchecked(q.disableSni, q.disableSNI), true)
    else if k == "skip-cert-verify" then FlagIf(Unchecked(q.insecure, q.allowInsecure), true)
    else None
  }

  function TuicOption(ps: Pairs, k: string): Option<Value> {
    if k == "alpn" then AlpnOption(Get(ps, "alpn"))
    else if k == "congestion-controller" then TextOrNone(Get(ps, "congestion-controller"))
    else if k == "udp-relay-mode" then TextOrNone(Get(ps, "udp-relay-mode"))
    else if k == "disable-sni" then FlagIf(Unchecked(Get(ps, "disable-sni"), Get(ps, "disableSNI")), true)
    else if k == "skip-cert-verify" then FlagIf(Unchecked(Get(ps, "insecure"), Get(ps, "allowInsecure")), true)
    else None
  }

  lemma {:induction false} TuicLayer(p: Proxy, q: Params, k: string)
    requires Optional(k) && k !in p
    ensures Lookup(TuicOptions(p, q), k) == TuicWith(q, k)
  {
  }

  lemma {:induction false} TuicBase(base: Proxy, uuid: string, pass: string, sni: string, k: string)
    requires Optional(k) && k !in base
    ensures k !in PutText(base["uuid" := Txt(uuid)]["password" := Txt(pass)], "sni", sni)
  {
  }

  lemma {:induction false} TuicFields(i: Info, name: string, q: Params, f: string, k: string)
    requires ClashTuic(i, name, q, f).Ok? && Optional(k)
    ensures Lookup(ClashTuic(i, name, q, f).value, k) == TuicWith(q, k)
  {
    var c, base := UuidPass(TrimSpace(i.userinfo)), Base(name, "tuic", i.host, i.port);
    BareBase(name, "tuic", i.host, i.port, k);
    TuicBase(base, c.0, c.1, OrElse(i.sni, f), k);
    TuicLayer(PutText(base["uuid" := Txt(c.0)]["password" := Txt(c.1)], "sni", OrElse(i.sni, f)), q, k);
  }

  /** A tuic userinfo is cut at its first ':'. */
  lemma {:induction false} UuidPassCuts(ui: string)
    ensures var c := UuidPass(ui); ':' !in c.0 && ui == if ':' in ui then c.0 + ":" + c.1 else c.0
    ensures ':' !in ui ==> UuidPass(ui).1 == ""
  {
    var k := IndexByte(ui, ':');
    if k >= 0 {
      assert ui == ui[..k] + ":" + ui[k + 1..];
    }
  }

  lemma {:induction false} TuicName(s: string)
    requires s == "tuic"
    ensures s != "ss" && s != "vmess" && s != "vless"
    ensures s != "trojan" && s != "trojan-go" && s != "hysteria2" && s != "hy2"
  {
    assert |s| == 4 && s[0] == 't';
  }

  lemma {:induction false} TuicCase(i: Info, given: string)
    requires i.scheme == "tuic"
    ensures var ps := ParseQuery(i.rawQuery);
            ClashProxy(i, given)
            == ClashTuic(i, OrElse(OrElse(given, i.name), i.host), ParamsOf(ps), GetFirst(ps, ["sni", "peer"]))
  {
    TuicName(i.scheme);
  }

  lemma {:induction false} TuicQuery(ps: Pairs, k: string)
    ensures TuicWith(ParamsOf(ps), k) == TuicOption(ps, k)
  {
    TuicParams(ps);
  }

  lemma {:induction false} TuicKeys(i: Info, given: string, k: string)
    requires i.scheme == "tuic" && ClashProxy(i, given).Ok? && Optional(k)
    ensures Lookup(ClashProxy(i, given).value, k) == TuicOption(ParseQuery(i.rawQuery), k)
  {
    var ps := ParseQuery(i.rawQuery);
    TuicCase(i, given);
    TuicFields(i, OrElse(OrElse(given, i.name), i.host), ParamsOf(ps), GetFirst(ps, ["sni", "peer"]), k);
    TuicQuery(ps, k);
  }

  /** The pieces joined by commas again. */
  function JoinComma(items: seq<string>): string
    requires items != []
  {
    if |items| == 1 then items[0] else items[0] + "," + JoinComma(items[1..])
  }

  /** A list of protocols is cut at its commas and nowhere else. */
  lemma {:induction false} SplitJoins(s: string)
    ensures SplitComma(s) != [] && JoinComma(SplitComma(s)) == s
    ensures forall x :: x in SplitComma(s) ==> ',' !in x
    decreases |s|
  {
    var k := IndexByte(s, ',');
    if k >= 0 {
      SplitJoins(s[k + 1..]);
      var rest := SplitComma(s[k + 1..]);
      assert ([s[..k]] + rest)[1..] == rest;
      assert s == s[..k] + "," + s[k + 1..];
    }
  }

  // ---------- vmess and ss ----------

  function VmessOption(i: Info, m: Object, k: string): Option<Value> {
    if k == "udp" then Some(Flag(true))
    else if TransportKey(k) then
      TransportOption(i.transport, AsString(m, "path"), i.hostHdr, AsString(m, "serviceName"), k)
    else TlsOption(i.tls, "", "", "", k)
  }

  lemma {:induction false} VmessLayer(p: Proxy, secured: bool, sni: string, k: string)
    requires Optional(k) && (k == "udp" || k !in p)
    ensures Lookup(if secured then VmessTls(p, sni) else p, k)
         == if TlsKey(k) then TlsOption(secured, "", "", "", k) else Lookup(p, k)
  {
  }

  lemma {:induction false} VmessBase(base: Proxy, id: string, aid: int, k: string)
    requires Optional(k) && k !in base
    ensures Lookup(base["uuid" := Txt(id)]["alterId" := Number(aid)]["cipher" := Txt("auto")]["udp" := Flag(true)], k)
         == if k == "udp" then Some(Flag(true)) else None
  {
  }

  lemma {:induction false} VmessOptions(i: Info, name: string, k: string)
    requires ClashVmess(i, name).Ok? && Optional(k)
    ensures i.vmess.Some? && Lookup(ClashVmess(i, name).value, k) == VmessOption(i, i.vmess.value, k)
  {
    var m := i.vmess.value;
    var base := Base(name, "vmess", i.host, i.port);
    var p := base["uuid" := Txt(AsString(m, "id"))]["alterId" := Number(ToInt(m, "aid"))]
               ["cipher" := Txt("auto")]["udp" := Flag(true)];
    var sni := OrElse(i.sni, AsString(m, "sni"));
    BareBase(name, "vmess", i.host, i.port, k);
    VmessBase(base, AsString(m, "id"), ToInt(m, "aid"), k);
    VmessLayer(p, i.tls, sni, k);
    TransportLayer(if i.tls then VmessTls(p, sni) else p, i.transport, AsString(m, "path"), i.hostHdr,
        AsString(m, "serviceName"), k);
  }

  // ---------- the address ----------

  predicate AddressKey(k: string) {
    k == "name" || k == "type" || k == "server" || k == "port"
  }

  function TypeOf(scheme: string): string {
    if scheme == "trojan-go" then "trojan" else if scheme == "hy2" then "hysteria2" else scheme
  }

  lemma {:induction false} AddressApart(k: string)
    requires AddressKey(k)
    ensures !Optional(k) && k != "uuid" && k != "password" && k != "cipher" && k != "alterId"
    ensures k != "sni" && k != "servername"
  {
  }

  lemma {:induction false} BaseAddress(name: string, kind: string, host: string, port: int, k: string)
    requires AddressKey(k)
    ensures Lookup(Base(name, kind, host, port), k)
         == if k == "name" then Some(Txt(name)) else if k == "type" then Some(Txt(kind))
            else if k == "server" then Some(Txt(host)) else Some(Number(port))
  {
  }

  ghost predicate Addressed(r: Result<Proxy, ClashError>, name: string, kind: string, i: Info, k: string) {
    r.Ok? ==> Lookup(r.value, k) == Lookup(Base(name, kind, i.host, i.port), k)
  }

  lemma {:induction false} SSAddressed(i: Info, name: string, k: string)
    requires AddressKey(k)
    ensures Addressed(ClashSS(i, name), name, "ss", i, k)
  {
    AddressApart(k);
    if ClashSS(i, name).Ok? {
      SSCarries(i, name, k);
    }
  }

  lemma {:induction false} VmessAddressed(i: Info, name: string, k: string)
    requires AddressKey(k)
    ensures Addressed(ClashVmess(i, name), name, "vmess", i, k)
  {
    AddressApart(k);
    if ClashVmess(i, name).Ok? {
      VmessCarries(i, name, k);
    }
  }

  lemma {:induction false} VlessAddressed(i: Info, name: string, q: Params, f: string, k: string)
    requires AddressKey(k)
    ensures Addressed(ClashVless(i, name, q, f), name, "vless", i, k)
  {
    AddressApart(k);
    if ClashVless(i, name, q, f).Ok? {
      VlessCarries(i, name, q, f, k);
    }
  }

  lemma {:induction false} TrojanAddressed(i: Info, name: string, q: Params, f: string, k: string)
    requires AddressKey(k)
    ensures Addressed(ClashTrojan(i, name, q, f), name, "trojan", i, k)
  {
    AddressApart(k);
    if ClashTrojan(i, name, q, f).Ok? {
      TrojanCarries(i, name, q, f, k);
    }
  }

  lemma {:induction false} Hysteria2Addressed(i: Info, name: string, q: Params, f: string, k: string)
    requires AddressKey(k)
    ensures Addressed(ClashHysteria2(i, name, q, f), name, "hysteria2", i, k)
  {
    AddressApart(k);
    if ClashHysteria2(i, name, q, f).Ok? {
      Hysteria2Carries(i, name, q, f, k);
    }
  }

  lemma {:induction false} TuicAddressed(i: Info, name: string, q: Params, f: string, k: string)
    requires AddressKey(k)
    ensures Addressed(ClashTuic(i, name, q, f), name, "tuic", i, k)
  {
    AddressApart(k);
    if ClashTuic(i, name, q, f).Ok? {
      TuicCarries(i, name, q, f, k);
    }
  }

  lemma {:induction false} TypeNames(s: string)
    ensures s == "ss" || s == "vmess" || s == "vless" || s == "trojan" || s == "hysteria2" || s == "tuic" ==>
              TypeOf(s) == s
  {
  }

  /** The name of a proxy is the given one, else the link's, else its host; its kind goes by the scheme, its server and
      port are the link's. */
  lemma {:induction false} ProxyAddress(i: Info, given: string, k: string)
    requires ClashProxy(i, given).Ok? && AddressKey(k)
    ensures Lookup(ClashProxy(i, given).value, k)
         == if k == "name" then Some(Txt(OrElse(OrElse(given, i.name), i.host)))
            else if k == "type" then Some(Txt(TypeOf(i.scheme)))
            else if k == "server" then Some(Txt(i.host)) else Some(Number(i.port))
  {
    BaseAddress(OrElse(OrElse(given, i.name), i.host), TypeOf(i.scheme), i.host, i.port, k);
    var name, ps := OrElse(OrElse(given, i.name), i.host), ParseQuery(i.rawQuery);
    var q := ParamsOf(ps);
    TypeNames(i.scheme);
    if i.scheme == "ss" {
      SSAddressed(i, name, k);
    } else if i.scheme == "vmess" {
      VmessAddressed(i, name, k);
    } else if i.scheme == "vless" {
      VlessAddressed(i, name, q, GetFirst(ps, ["sni", "servername", "peer"]), k);
    } else if i.scheme in {"trojan", "trojan-go"} {
      TrojanAddressed(i, name, q, GetFirst(ps, ["sni", "peer", "servername"]), k);
    } else if i.scheme in {"hysteria2", "hy2"} {
      Hysteria2Addressed(i, name, q, GetFirst(ps, ["sni", "peer", "obfs-password"]), k);
    } else {
      TuicAddressed(i, name, q, GetFirst(ps, ["sni", "peer"]), k);
    }
  }

  /** What the conversion needs of a link, by its scheme; None for a scheme that it does not know. */
  function Needed(i: Info): Option<string> {
    if i.scheme == "ss" then Some(Cipher(i).0)
    else if i.scheme == "vmess" then Some(if i.vmess.Some? then AsString(i.vmess.value, "id") else "")
    else if i.scheme == "tuic" then Some(UuidPass(TrimSpace(i.userinfo)).0)
    else if i.scheme == "vless" || i.scheme == "trojan" || i.scheme == "trojan-go" || i.scheme == "hysteria2"
      || i.scheme == "hy2" then Some(TrimSpace(i.userinfo))
    else None
  }

  /** A link is converted exactly when its scheme is known and what it needs is not empty; an unknown scheme is refused
      as such. */
  lemma {:induction false} ConvertsIff(i: Info, given: string)
    ensures ClashProxy(i, given).Ok? <==> Needed(i).Some? && Needed(i).value != ""
    ensures ClashProxy(i, given) == Err(Unsupported) <==> Needed(i).None?
  {
    if i.scheme == "tuic" {
      TuicName(i.scheme);
      TuicCase(i, given);
    }
  }

  // ---------- from a printed REALITY link to its proxy ----------

  /** What the proxy of a REALITY node holds. */
  function RealityKey(c: RealityCred, host: string, port: int, name: string, k: string): Option<Value> {
    if k == "name" then Some(Txt(name))
    else if k == "type" then Some(Txt("vless"))
    else if k == "server" then Some(Txt(host))
    else if k == "port" then Some(Number(port))
    else if k == "uuid" then Some(Txt(TrimSpace(c.uuid)))
    else if k == "servername" then TextOrNone(c.serverName)
    else if k == "udp" then Some(Flag(true))
    else if k == "flow" then Some(Txt("xtls-rprx-vision"))
    else TlsOption(true, "chrome", c.publicKey, c.shortId, k)
  }

  lemma {:induction false} RealityGets(c: RealityCred, ps: Pairs)
    requires forall key :: Get(ps, key) == RealityValue(c, key)
    ensures Get(ps, "flow") == "xtls-rprx-vision" && Get(ps, "pbk") == c.publicKey && Get(ps, "sid") == c.shortId
    ensures OrElse(Get(ps, "fp"), Get(ps, "fingerprint")) == "chrome"
  {
  }

  lemma {:induction false} PlainTransport(network: string, path: string, hdr: string, service: string, k: string)
    requires network == "tcp" && TransportKey(k)
    ensures TransportOption(network, path, hdr, service, k) == None
    ensures k != "udp" && k != "flow" && !TlsKey(k)
  {
    assert ToLower(network) == network;
  }

  lemma {:induction false} RealityOption(i: Info, c: RealityCred, ps: Pairs, k: string)
    requires forall key :: Get(ps, key) == RealityValue(c, key)
    requires i.tls && i.transport == "tcp" && Optional(k)
    ensures VlessOption(i, ps, k)
         == if k == "udp" then Some(Flag(true)) else if k == "flow" then Some(Txt("xtls-rprx-vision"))
            else TlsOption(true, "chrome", c.publicKey, c.shortId, k)
  {
    RealityGets(c, ps);
    if TransportKey(k) {
      PlainTransport(i.transport, Get(ps, "path"), i.hostHdr, Get(ps, "serviceName"), k);
    }
  }

  lemma {:induction false} OptionalKey(c: RealityCred, host: string, port: int, name: string, k: string)
    requires Optional(k)
    ensures RealityKey(c, host, port, name, k)
         == if k == "udp" then Some(Flag(true)) else if k == "flow" then Some(Txt("xtls-rprx-vision"))
            else TlsOption(true, "chrome", c.publicKey, c.shortId, k)
  {
  }

  lemma {:induction false} PlainKey(c: RealityCred, i: Info, name: string, k: string)
    requires !Optional(k) && !AddressKey(k)
    ensures RealityKey(c, i.host, i.port, name, k)
         == Carried(name, "vless", i, map["uuid" := Txt(TrimSpace(c.uuid))], "servername", TextOrNone(c.serverName), k)
  {
    assert !TlsKey(k);
  }

  lemma {:induction false} VlessOk(i: Info, given: string)
    requires i.scheme == "vless" && TrimSpace(i.userinfo) != ""
    ensures ClashProxy(i, given).Ok?
  {
  }

  lemma {:induction false} VlessName(i: Info, given: string, k: string)
    requires i.scheme == "vless" && ClashProxy(i, given).Ok? && !Optional(k) && i.tls && i.sni != ""
    ensures Lookup(ClashProxy(i, given).value, k)
         == Carried(OrElse(OrElse(given, i.name), i.host), "vless", i, map["uuid" := Txt(TrimSpace(i.userinfo))],
                    "servername", Some(Txt(i.sni)), k)
  {
    var ps := ParseQuery(i.rawQuery);
    VlessCarries(i, OrElse(OrElse(given, i.name), i.host), ParamsOf(ps), GetFirst(ps, ["sni", "servername", "peer"]),
        k);
  }

  lemma {:induction false} RealityInfoProxy(i: Info, c: RealityCred, given: string, k: string)
    requires i.scheme == "vless" && i.userinfo == c.uuid && TrimSpace(c.uuid) != "" && i.tls && i.transport == "tcp"
    requires i.sni == c.serverName && c.serverName != ""
    requires forall key :: Get(ParseQuery(i.rawQuery), key) == RealityValue(c, key)
    ensures ClashProxy(i, given).Ok?
    ensures Lookup(ClashProxy(i, given).value, k)
         == RealityKey(c, i.host, i.port, OrElse(OrElse(given, i.name), i.host), k)
  {
    var name := OrElse(OrElse(given, i.name), i.host);
    VlessOk(i, given);
    if Optional(k) {
      VlessOptions(i, given, k);
      RealityOption(i, c, ParseQuery(i.rawQuery), k);
      OptionalKey(c, i.host, i.port, name, k);
    } else if AddressKey(k) {
      ProxyAddress(i, given, k);
    } else {
      VlessName(i, given, k);
      PlainKey(c, i, name, k);
    }
  }

  /** From the node to the client: the Clash proxy of the link that the panel prints for a REALITY node holds exactly
      the node's address, uuid, server name, public key and short id, each under its own key, and the fixed flow and
      fingerprint; nothing else. */
  lemma {:induction false} RealityProxy(c: RealityCred, port: int, host: string, name: string, given: string,
                                        json: Codec, k: string)
    requires PlainCred(c) && PlainHost(host) && 0 < port <= 65535 && Bytes(name)
    requires TrimSpace(c.uuid) != "" && c.serverName != ""
    ensures var p := Parse(ClientURL(c, port, host, name), json);
            && p.Ok? && ClashProxy(p.value, given).Ok?
            && Lookup(ClashProxy(p.value, given).value, k)
               == RealityKey(c, host, port, OrElse(OrElse(given, name), host), k)
  {
    ClientURLReadsBack(c, port, host, name, json);
    RealityInfoProxy(Parse(ClientURL(c, port, host, name), json).value, c, given, k);
  }
}

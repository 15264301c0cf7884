/** What a parsed link says (internal/link/link.go): its transport, TLS, server name, Host and need for UDP, read off
    its scheme and query, or off its vmess object; links spelled from arbitrary parts that say so; and what a relay
    fills in. */
module LinkReading {
  import opened Wrappers
  import opened Text
  import opened Percent
  import opened Query
  import opened HostPort
  import opened Base64
  import opened Link
  import opened LinkMeaning
  import opened LinkReparse
  import opened LinkSS
  import opened LinkVmess
  import opened Printers

  /** Protocols that run over UDP themselves. */
  predicate UDPScheme(s: string) {
    || s == "hysteria2" || s == "hy2" || s == "hysteria" || s == "tuic"
    || s == "wireguard" || s == "wg" || s == "juicity"
  }

  /** Transports that run over UDP, in any case. */
  predicate UDPKind(kind: string) {
    ToLower(kind) == "kcp" || ToLower(kind) == "quic"
  }

  /** Protocols that are never without TLS. */
  predicate TLSScheme(s: string) {
    s == "trojan" || s == "trojan-go" || s == "hysteria2" || s == "hy2" || s == "hysteria" || s == "tuic"
  }

  predicate TLSWord(s: string) {
    ToLower(s) == "tls" || ToLower(s) == "reality" || ToLower(s) == "xtls"
  }

  /** What the query says of the transport and of the security; an empty value counts as none. */
  function KindIn(ps: Pairs): string {
    OrElse(OrElse(Get(ps, "type"), Get(ps, "net")), Get(ps, "headerType"))
  }

  function SecurityIn(ps: Pairs): string {
    OrElse(Get(ps, "security"), Get(ps, "tls"))
  }

  function ServerNameIn(ps: Pairs): string {
    OrElse(OrElse(Get(ps, "sni"), Get(ps, "peer")), Get(ps, "servername"))
  }

  /** The meaning of a link with these pairs in its query. */
  predicate Says(i: Info, ps: Pairs) {
    && i.transport == OrElse(ToLower(KindIn(ps)), "tcp")
    && (i.tls <==> TLSScheme(i.scheme) || TLSWord(SecurityIn(ps)))
    && i.sni == ServerNameIn(ps) && i.hostHdr == Get(ps, "host")
    && (i.udp <==> UDPScheme(i.scheme) || UDPKind(KindIn(ps)))
  }

  /** The meaning of a vmess link with this object. */
  predicate ObjectSays(i: Info, m: Object) {
    && i.transport == OrElse(ToLower(AsString(m, "net")), "tcp")
    && (i.tls <==> ToLower(AsString(m, "tls")) == "tls" || ToLower(AsString(m, "tls")) == "reality")
    && i.host == AsString(m, "add") && i.port == ToInt(m, "port") && i.name == AsString(m, "ps")
    && i.sni == AsString(m, "sni") && i.hostHdr == AsString(m, "host")
    && (i.udp <==> UDPKind(AsString(m, "net")))
  }

  lemma {:induction false} KindLower(t: string)
    ensures var k := OrElse(ToLower(t), "tcp");
            (ToLower(k) == "kcp" <==> ToLower(t) == "kcp") && (ToLower(k) == "quic" <==> ToLower(t) == "quic")
  {
    assert ToLower(ToLower(t)) == ToLower(t);
    assert ToLower("tcp")[0] == 't';
  }

  lemma {:induction false} PartsSay(raw: string, scheme: string, userinfo: string, host: string, port: int,
                                    name: string, query: string)
    ensures Says(FromParts(raw, scheme, userinfo, host, port, name, query), ParseQuery(query))
  {
    var ps := ParseQuery(query);
    First3(ps, "type", "net", "headerType");
    First2(ps, "security", "tls");
    First3(ps, "sni", "peer", "servername");
    KindLower(KindIn(ps));
  }

  lemma {:induction false} ObjectMeans(raw: string, m: Object)
    ensures ObjectSays(VmessParts(raw, m), m)
  {
    KindLower(AsString(m, "net"));
  }

  lemma {:induction false} ParsedObject(link: string, json: Codec)
    requires Parse(link, json).Ok? && Parse(link, json).value.scheme == "vmess"
    ensures var i := Parse(link, json).value; i.vmess.Some? && VmessForm(i, i.vmess.value)
  {
    ParseSteps(link, json);
    var raw := TrimSpace(link);
    var idx := IndexSep(raw);
    ParsedScheme(raw, ToLower(raw[..idx]), raw[idx + 3..], json);
    var text := ParsedVmessBody(raw, raw[idx + 3..], json);
  }

  /** An ss link is plain TCP without TLS. */
  predicate Bare(i: Info) {
    i.transport == "tcp" && !i.tls && i.sni == "" && i.hostHdr == "" && !i.udp
  }

  lemma {:induction false} SSBare(link: string, json: Codec)
    requires Parse(link, json).Ok? && Parse(link, json).value.scheme == "ss"
    ensures Bare(Parse(link, json).value)
  {
    ParsedSS(link, json);
  }

  /** Every parsed link says what its query says, a vmess link what its object says, and an ss link is bare. */
  lemma {:induction false} ParsedSays(link: string, json: Codec)
    requires Parse(link, json).Ok?
    ensures var i := Parse(link, json).value;
            if i.scheme == "vmess" then i.vmess.Some? && ObjectSays(i, i.vmess.value)
            else if i.scheme == "ss" then Bare(i)
            else Says(i, ParseQuery(i.rawQuery))
  {
    var i := Parse(link, json).value;
    if i.scheme == "vmess" {
      ParsedObject(link, json);
      ObjectMeans(i.raw, i.vmess.value);
    } else if i.scheme == "ss" {
      SSBare(link, json);
    } else {
      ParsedForm(link, json);
      PartsSay(i.raw, i.scheme, i.userinfo, i.host, i.port, i.name, i.rawQuery);
    }
  }

  /** A link spelled from any parts, with any plain parameters, parses and says what these parameters say. */
  lemma {:induction false} SpelledSays(scheme: string, userinfo: string, authority: string, host: string, port: int,
                                       ps: Pairs, name: string, json: Codec)
    requires Spellable(scheme, userinfo, authority, host, port, PlainQuery(ps)) && PlainPairs(ps)
    requires Bytes(name) && name != ""
    ensures var p := Parse(Spell(scheme, userinfo, authority, PlainQuery(ps), EncodeFragment(name)), json);
            && p.Ok? && p.value.scheme == scheme && p.value.userinfo == userinfo
            && p.value.host == host && p.value.port == port && p.value.name == name && Says(p.value, ps)
  {
    ParseSpelled(scheme, userinfo, authority, host, port, PlainQuery(ps), name, json);
    PlainParses(ps);
    PartsSay(TrimSpace(Spell(scheme, userinfo, authority, PlainQuery(ps), EncodeFragment(name))), scheme, userinfo,
        host, port, name, PlainQuery(ps));
  }

  lemma {:induction false} NoKeyNoValue(ps: Pairs, k: string)
    ensures !HasKey(ps, k) ==> Get(ps, k) == ""
  {
    if ps != [] {
      NoKeyNoValue(ps[1..], k);
    }
  }

  lemma {:induction false} KindOfPair(ps: Pairs)
    requires |ps| == 1 && ps[0].0 == "type" && UDPKind(ps[0].1)
    ensures UDPKind(KindIn(ps))
  {
    assert ToLower(ps[0].1) != "";
  }

  lemma {:induction false} NoKind(ps: Pairs)
    requires !HasKey(ps, "type") && !HasKey(ps, "net") && !HasKey(ps, "headerType")
    ensures !UDPKind(KindIn(ps))
  {
    NoKeyNoValue(ps, "type");
    NoKeyNoValue(ps, "net");
    NoKeyNoValue(ps, "headerType");
  }

  lemma {:induction false} PlainScheme(s: string)
    requires s == "vless" || s == "trojan"
    ensures !UDPScheme(s)
  {
  }

  /** Over UDP: every hysteria, hysteria2 and tuic link, whatever its parameters; a vless or trojan link of transport
      kcp or quic, in any case; no vless or trojan link without a transport. */
  lemma {:induction false} UDPInputs(scheme: string, userinfo: string, authority: string, host: string, port: int,
                                     ps: Pairs, name: string, json: Codec)
    requires Spellable(scheme, userinfo, authority, host, port, PlainQuery(ps)) && PlainPairs(ps)
    requires Bytes(name) && name != ""
    ensures var p := Parse(Spell(scheme, userinfo, authority, PlainQuery(ps), EncodeFragment(name)), json);
            && p.Ok?
            && (scheme == "hysteria2" || scheme == "hy2" || scheme == "hysteria" || scheme == "tuic" ==> p.value.udp)
            && (|ps| == 1 && ps[0].0 == "type" && UDPKind(ps[0].1) ==> p.value.udp)
            && (scheme == "vless" || scheme == "trojan" ==>
                  !HasKey(ps, "type") && !HasKey(ps, "net") && !HasKey(ps, "headerType") ==> !p.value.udp)
  {
    SpelledSays(scheme, userinfo, authority, host, port, ps, name, json);
    if |ps| == 1 && ps[0].0 == "type" && UDPKind(ps[0].1) {
      KindOfPair(ps);
    } else if scheme == "vless" || scheme == "trojan" {
      PlainScheme(scheme);
      if !HasKey(ps, "type") && !HasKey(ps, "net") && !HasKey(ps, "headerType") {
        NoKind(ps);
      }
    }
  }

  // ---------- what a relay fills in ----------

  /** The transports that carry a Host header. */
  predicate HostKind(t: string) {
    t == "ws" || t == "websocket" || t == "httpupgrade" || t == "mws" || t == "http"
  }

  lemma {:induction false} Needs(i: Info)
    requires URIForm(i)
    ensures NeedsSni(i) <==> i.tls
    ensures NeedsHost(i) <==> HostKind(i.transport)
  {
    PartsSay(i.raw, i.scheme, i.userinfo, i.host, i.port, i.name, i.rawQuery);
  }

  /** From i to j a server name is filled in where a link with TLS has none, and a Host where a transport that carries
      one has none: the old address, and nothing else changes. */
  predicate FilledIn(i: Info, j: Info) {
    var ps := ParseQuery(i.rawQuery);
    && j.sni == (if i.tls && i.sni == "" && !HasKey(ps, "sni") then i.host else i.sni)
    && j.hostHdr == (if HostKind(i.transport) && !HasKey(ps, "host") then i.host else i.hostHdr)
  }

  lemma {:induction false} SameMeaningFills(i: Info, j: Info)
    requires URIForm(i) && SameMeaning(i, j)
    ensures FilledIn(i, j)
  {
    Needs(i);
    NoKeyNoValue(ParseQuery(i.rawQuery), "host");
  }

  /** What a relay of a named link fills in. */
  lemma {:induction false} RelayFills(link: string, host: string, port: int, name: string, json: Codec)
    requires Bytes(link) && Parse(link, json).Ok? && Parse(link, json).value.name != ""
    requires Parse(link, json).value.scheme != "vmess" && Parse(link, json).value.scheme != "ss"
    requires PlainHost(host) && 0 < port <= 65535 && Bytes(name)
    ensures var r := Rewrite(Parse(link, json).value, host, port, name, "", "", json);
            r.Some? && Parse(r.value, json).Ok? && FilledIn(Parse(link, json).value, Parse(r.value, json).value)
  {
    var i := Parse(link, json).value;
    RelayTheorem(link, host, port, name, json);
    ParsedForm(link, json);
    SameMeaningFills(i, Parse(Rewrite(i, host, port, name, "", "", json).value, json).value);
  }

  /** A rewrite is refused exactly for an empty host or a port out of range. */
  lemma {:induction false} RefusedIff(i: Info, host: string, port: int, name: string, sni: string, hdr: string,
                                      json: Codec)
    ensures Rewrite(i, host, port, name, sni, hdr, json).None? <==> host == "" || port < 1 || port > 65535
  {
  }

  // ---------- vmess ----------

  lemma {:induction false} MarkEnds(t: string, tail: string)
    requires '?' !in t && '#' !in t && tail != "" && (tail[0] == '?' || tail[0] == '#')
    ensures BeforeMark(t + tail) == t
  {
    if t == "" {
      assert t + tail == tail;
    } else {
      assert (t + tail)[1..] == t[1..] + tail && (t + tail)[0] == t[0];
      MarkEnds(t[1..], tail);
    }
  }

  lemma {:induction false} SolidText(t: string, tail: string)
    requires t != "" && Solid(t[0]) && tail != "" && Solid(tail[|tail| - 1])
    ensures TrimSpace(t + tail) == t + tail
  {
    var s := t + tail;
    assert s[0] == t[0] && s[|s| - 1] == tail[|tail| - 1];
    TrimSpaceFixed(s);
  }

  lemma {:induction false} EncodedStart(text: string)
    requires text != ""
    ensures var t := Encode(false, true, text); t != "" && Solid(t[0]) && '?' !in t && '#' !in t
  {
    PaddedAlphabet(text);
    AlphabetText(Encode(false, true, text));
    assert Encode(false, true, text)[0] in Encode(false, true, text);
  }

  lemma {:induction false} ReadMarked(raw: string, t: string, tail: string, m: Object, json: Codec)
    requires Prints(json, m) && AsString(Repaired(json, m), "add") != "" && t == Encode(false, true, json.encode(m))
    requires tail != "" && (tail[0] == '?' || tail[0] == '#') && Solid(tail[|tail| - 1])
    ensures ParseVmess(raw, t + tail, json) == Ok(VmessParts(raw, Repaired(json, m)))
  {
    EncodedStart(json.encode(m));
    SolidText(t, tail);
    MarkEnds(t, tail);
    LooseInvertsAll(false, true, json.encode(m));
  }

  lemma {:induction false} GoodBody(i: Info, body: Result<Info, Error>)
    requires body == Ok(i) && 0 < i.port <= 65535 && i.host != ""
    ensures Checked(body) == body
  {
  }

  lemma {:induction false} TailParses(r: string, scheme: string, t: string, tail: string, m: Object, json: Codec)
    requires scheme == "vmess" && Prints(json, m) && t == Encode(false, true, json.encode(m))
    requires r == scheme + "://" + (t + tail) && TrimSpace(r) == r && ValidScheme(scheme)
    requires var d := Repaired(json, m); AsString(d, "add") != "" && 0 < ToInt(d, "port") <= 65535
    requires tail != "" && (tail[0] == '?' || tail[0] == '#') && Solid(tail[|tail| - 1])
    ensures Parse(r, json) == Ok(VmessParts(r, Repaired(json, m)))
  {
    ParseBegins(r, scheme, t + tail, json);
    ReadMarked(r, t, tail, m, json);
    GoodBody(VmessParts(r, Repaired(json, m)), ParseBody(r, scheme, t + tail, json));
  }

  lemma {:induction false} TailSolid(t: string, tail: string)
    requires tail != "" && Solid(tail[|tail| - 1])
    ensures t + tail != "" && Solid((t + tail)[|t + tail| - 1])
  {
    assert (t + tail)[|t + tail| - 1] == tail[|tail| - 1];
  }

  /** A query or fragment behind a vmess object says nothing. */
  lemma {:induction false} VmessTailIgnored(scheme: string, m: Object, tail: string, json: Codec)
    requires scheme == "vmess" && Prints(json, m)
    requires var d := Repaired(json, m); AsString(d, "add") != "" && 0 < ToInt(d, "port") <= 65535
    requires tail != "" && (tail[0] == '?' || tail[0] == '#') && Solid(tail[|tail| - 1])
    ensures var r := VmessLink(m, json) + tail; Parse(r, json) == Ok(VmessParts(r, Repaired(json, m)))
  {
    var t := Encode(false, true, json.encode(m));
    LinkText(scheme, m, json);
    Assoc(scheme + "://", t, tail);
    TailSolid(t, tail);
    PrintedTrim(scheme, t + tail);
    TailParses(VmessLink(m, json) + tail, scheme, t, tail, m, json);
  }

  /** Numbers of a vmess object: text counts without the white space around it, and like the number it spells. */
  lemma {:induction false} NumberSays(m: Object, k: string, s: string, n: int)
    requires -MAX_INT64 - 1 <= n <= MAX_INT64 && TrimSpace(s) == Itoa(n)
    ensures ToInt(m[k := Str(s)], k) == n == ToInt(m[k := Num(n, 0)], k)
  {
    AtoiItoa(n);
  }

  /** A number of a vmess object is cut toward zero: the result is the next integer on zero's side. */
  lemma {:induction false} TruncateCuts(mantissa: int, exponent: int)
    requires exponent >= 0
    ensures var r: int := Truncate(mantissa, -exponent);
            var p := PowerOfTwo(exponent);
            if mantissa >= 0 then r * p <= mantissa < r * p + p else r * p - p < mantissa <= r * p
    ensures Truncate(mantissa, exponent) == mantissa * PowerOfTwo(exponent)
  {
    var p := PowerOfTwo(exponent);
    CutBelow(if mantissa >= 0 then mantissa else -mantissa, p);
  }

  lemma {:induction false} CutBelow(x: nat, p: nat)
    requires p > 0
    ensures x / p * p <= x < x / p * p + p
    ensures -(x / p) * p == -(x / p * p)
  {
  }
}

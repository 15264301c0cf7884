/** The two other printers of share links: singbox.ClientURL (internal/singbox/singbox.go) and, for Shadowsocks over
    TCP, gostmgr.GostClientURL (internal/gostmgr/protocol.go). What they print, link.Parse reads back. */
module Printers {
  import opened Wrappers
  import opened Text
  import opened Percent
  import opened Query
  import opened HostPort
  import opened Base64
  import opened Link
  import opened LinkReparse
  import opened LinkMeaning
  import opened LinkSS

  /** net.JoinHostPort. */
  function NetJoin(host: string, port: int): string {
    if ':' in host then "[" + host + "]:" + Itoa(port) else host + ":" + Itoa(port)
  }

  lemma {:induction false} NetJoinAgrees(host: string, port: int)
    requires '[' !in host
    ensures NetJoin(host, port) == JoinHostPort(host, port)
  {
  }

  // ---------- queries spelled without escapes ----------

  /** key=value pairs joined by '&', as a format string writes them. */
  function PlainQuery(ps: Pairs): string {
    if ps == [] then ""
    else if |ps| == 1 then ps[0].0 + "=" + ps[0].1
    else ps[0].0 + "=" + ps[0].1 + "&" + PlainQuery(ps[1..])
  }

  predicate PlainChar(c: char) {
    c != '&' && c != ';' && c != '%' && c != '+' && c != '#' && c != '='
  }

  predicate PlainText(s: string) {
    forall i :: 0 <= i < |s| ==> PlainChar(s[i])
  }

  predicate PlainPairs(ps: Pairs) {
    ps == [] || (PlainText(ps[0].0) && PlainText(ps[0].1) && PlainPairs(ps[1..]))
  }

  lemma {:induction false} PlainUnescapes(s: string)
    requires PlainText(s)
    ensures QueryUnescape(s) == Some(s)
  {
    if s != "" {
      assert PlainChar(s[0]);
      PlainUnescapes(s[1..]);
      UnescapePlain(s[0], s[1..]);
      assert s == [s[0]] + s[1..];
    }
  }

  lemma {:induction false} PlainHas(s: string)
    requires PlainText(s)
    ensures '&' !in s && ';' !in s && '#' !in s && '=' !in s
  {
  }

  lemma {:induction false} PlainOne(k: string, v: string)
    requires PlainText(k) && PlainText(v)
    ensures ParseQuery(k + "=" + v) == [(k, v)] && '#' !in k + "=" + v
  {
    PlainHas(k);
    PlainHas(v);
    PlainUnescapes(k);
    PlainUnescapes(v);
    ParseOne(k, v);
  }

  lemma {:induction false} PlainJoin(one: string, rest: string, p: (string, string), ps: Pairs)
    requires ParseQuery(one) == [p] && ParseQuery(rest) == ps && '#' !in one && '#' !in rest
    ensures ParseQuery(one + "&" + rest) == [p] + ps && '#' !in one + "&" + rest
  {
    ParseJoin(one, rest);
  }

  /** A plainly spelled query reads back as its pairs. */
  lemma {:induction false} PlainParses(ps: Pairs)
    requires PlainPairs(ps)
    ensures ParseQuery(PlainQuery(ps)) == ps && '#' !in PlainQuery(ps)
  {
    if ps == [] {
      ParseEmpty();
    } else {
      PlainOne(ps[0].0, ps[0].1);
      assert ps == [ps[0]] + ps[1..];
      if |ps| > 1 {
        PlainParses(ps[1..]);
        PlainJoin(ps[0].0 + "=" + ps[0].1, PlainQuery(ps[1..]), ps[0], ps[1..]);
      }
    }
  }

  // ---------- singbox.ClientURL ----------

  datatype RealityCred = RealityCred(uuid: string, serverName: string, publicKey: string, shortId: string)

  function Cons(k: string, v: string, rest: Pairs): Pairs {
    [(k, v)] + rest
  }

  /** The parameters that ClientURL prints, in order. */
  function RealityPairs(c: RealityCred): Pairs {
    Cons("encryption", "none", Cons("security", "reality",
        Cons("type", "tcp", Cons("sni", c.serverName, Cons("fp", "chrome",
    Cons("pbk", c.publicKey, Cons("sid", c.shortId, Cons("flow", "xtls-rprx-vision", []))))))))
  }

  function ClientURL(c: RealityCred, port: int, host: string, name: string): string {
    "vless://" + (c.uuid + "@" + NetJoin(host, port) + "?" + PlainQuery(RealityPairs(c)) + "#" + UrlEscape(name))
  }

  /** A credential that cannot be mistaken for link syntax. */
  predicate PlainCred(c: RealityCred) {
    && '#' !in c.uuid && '?' !in c.uuid
    && PlainText(c.serverName) && PlainText(c.publicKey) && PlainText(c.shortId)
  }

  lemma {:induction false} BodyGroups(u: string, a: string, q: string, f: string)
    ensures u + "@" + a + "?" + q + "#" + f == ((u + ['@'] + a) + ['?'] + q) + ['#'] + f
  {
  }

  lemma {:induction false} HeadRead(raw: string, scheme: string, rest: string, u: string, a: string, host: string,
                                    port: int, q: string, f: string)
    requires After(rest, '#') == f && After(Before(rest, '#'), '?') == q
    requires Before(Before(rest, '#'), '?') == u + ['@'] + a
    requires '@' !in a && SplitHostPort(a) == Some((host, port))
    ensures ParseURI(raw, scheme, rest) == Ok(FromParts(raw, scheme, u, host, port, DecodeFragment(f), q))
  {
    var h := u + ['@'] + a;
    LastIndexBefore(u, '@', a);
    assert h[..|u|] == u && h[|u| + 1..] == a;
  }

  lemma {:induction false} BodyRead(raw: string, scheme: string, u: string, a: string, host: string, port: int,
                                    q: string, f: string)
    requires '#' !in u && '?' !in u && '#' !in a && '?' !in a && '@' !in a && '#' !in q
    requires SplitHostPort(a) == Some((host, port))
    ensures ParseURI(raw, scheme, u + "@" + a + "?" + q + "#" + f)
        == Ok(FromParts(raw, scheme, u, host, port, DecodeFragment(f), q))
  {
    BodyGroups(u, a, q, f);
    var h := u + ['@'] + a;
    assert '#' !in h + ['?'] + q && '?' !in h;
    CutAt(h + ['?'] + q, '#', f);
    CutAt(h, '?', q);
    HeadRead(raw, scheme, (h + ['?'] + q) + ['#'] + f, u, a, host, port, q, f);
  }

  lemma {:induction false} ConsPlain(k: string, v: string, rest: Pairs)
    requires PlainText(k) && PlainText(v) && PlainPairs(rest)
    ensures PlainPairs(Cons(k, v, rest))
  {
    assert Cons(k, v, rest)[1..] == rest;
  }

  lemma {:induction false} ConsGet(k: string, v: string, rest: Pairs, key: string)
    ensures Get(Cons(k, v, rest), key) == if k == key then v else Get(rest, key)
  {
    assert Cons(k, v, rest)[1..] == rest;
  }

  lemma {:induction false} FixedText()
    ensures PlainText("encryption") && PlainText("none") && PlainText("security") && PlainText("reality")
    ensures PlainText("type")
    ensures PlainText("tcp") && PlainText("sni") && PlainText("fp") && PlainText("chrome") && PlainText("pbk")
    ensures PlainText("sid")
    ensures PlainText("flow") && PlainText("xtls-rprx-vision")
  {
  }

  lemma {:induction false} RealityPairsPlain(c: RealityCred)
    requires PlainText(c.serverName) && PlainText(c.publicKey) && PlainText(c.shortId)
    ensures PlainPairs(RealityPairs(c))
  {
    FixedText();
    var p7 := Cons("flow", "xtls-rprx-vision", []);
    ConsPlain("flow", "xtls-rprx-vision", []);
    var p6 := Cons("sid", c.shortId, p7);
    ConsPlain("sid", c.shortId, p7);
    var p5 := Cons("pbk", c.publicKey, p6);
    ConsPlain("pbk", c.publicKey, p6);
    var p4 := Cons("fp", "chrome", p5);
    ConsPlain("fp", "chrome", p5);
    var p3 := Cons("sni", c.serverName, p4);
    ConsPlain("sni", c.serverName, p4);
    var p2 := Cons("type", "tcp", p3);
    ConsPlain("type", "tcp", p3);
    var p1 := Cons("security", "reality", p2);
    ConsPlain("security", "reality", p2);
    ConsPlain("encryption", "none", p1);
  }

  /** What each key of the printed query says. */
  function RealityValue(c: RealityCred, key: string): string {
    if key == "encryption" then "none" else if key == "security" then "reality" else if key == "type" then "tcp"
    else if key == "sni" then c.serverName else if key == "fp" then "chrome" else if key == "pbk" then c.publicKey
    else if key == "sid" then c.shortId else if key == "flow" then "xtls-rprx-vision" else ""
  }

  lemma {:induction false} RealityGet(c: RealityCred, key: string)
    ensures Get(RealityPairs(c), key) == RealityValue(c, key)
  {
    var p7 := Cons("flow", "xtls-rprx-vision", []);
    var p6 := Cons("sid", c.shortId, p7);
    var p5 := Cons("pbk", c.publicKey, p6);
    var p4 := Cons("fp", "chrome", p5);
    var p3 := Cons("sni", c.serverName, p4);
    var p2 := Cons("type", "tcp", p3);
    var p1 := Cons("security", "reality", p2);
    ConsGet("encryption", "none", p1, key);
    ConsGet("security", "reality", p2, key);
    ConsGet("type", "tcp", p3, key);
    ConsGet("sni", c.serverName, p4, key);
    ConsGet("fp", "chrome", p5, key);
    ConsGet("pbk", c.publicKey, p6, key);
    ConsGet("sid", c.shortId, p7, key);
    ConsGet("flow", "xtls-rprx-vision", [], key);
  }

  lemma {:induction false} RealityMeaning(c: RealityCred, ps: Pairs)
    requires ps == RealityPairs(c)
    ensures TransportOf(ps) == "tcp" && TlsOf("vless", ps) && SniOf(ps) == c.serverName && Get(ps, "host") == ""
  {
    RealityGet(c, "type");
    RealityGet(c, "security");
    RealityGet(c, "sni");
    RealityGet(c, "peer");
    RealityGet(c, "servername");
    RealityGet(c, "host");
    First3(ps, "sni", "peer", "servername");
    assert ToLower("tcp") == "tcp" && ToLower("reality") == "reality";
  }

  lemma {:induction false} EndsSolid(a: string, f: string)
    requires forall c :: c in f ==> Solid(c)
    ensures var r := a + "#" + f; Solid(r[|r| - 1])
  {
    var r := a + "#" + f;
    assert f != "" ==> f[|f| - 1] in f;
    assert r[|r| - 1] == if f == "" then '#' else f[|f| - 1];
  }

  lemma {:induction false} EscapedSolid(name: string)
    ensures forall c :: c in UrlEscape(name) ==> Solid(c)
  {
    EscapeAlphabet(name);
  }

  lemma {:induction false} PrintedParse(scheme: string, u: string, a: string, host: string, port: int, q: string,
                                        f: string, json: Codec)
    requires ValidScheme(scheme) && scheme != "vmess" && scheme != "ss" && forall c :: c in f ==> Solid(c)
    requires '#' !in u && '?' !in u && '#' !in a && '?' !in a && '@' !in a && '#' !in q
    requires SplitHostPort(a) == Some((host, port)) && host != "" && 0 < port <= 65535
    ensures var r := scheme + "://" + (u + "@" + a + "?" + q + "#" + f);
            Parse(r, json) == Ok(FromParts(r, scheme, u, host, port, DecodeFragment(f), q))
  {
    var rest := u + "@" + a + "?" + q + "#" + f;
    var r := scheme + "://" + rest;
    EndsSolid(u + "@" + a + "?" + q, f);
    TrimEnding(scheme, rest);
    BodyRead(r, scheme, u, a, host, port, q, f);
    ParseTrimmed(r, scheme, rest, json, FromParts(r, scheme, u, host, port, DecodeFragment(f), q));
  }

  lemma {:induction false} ClientURLParts(scheme: string, c: RealityCred, port: int, host: string, name: string)
    requires scheme == "vless"
    ensures ValidScheme(scheme)
    ensures ClientURL(c, port, host, name)
         == scheme + "://" + (c.uuid + "@" + NetJoin(host, port) + "?" + PlainQuery(RealityPairs(c)) + "#"
             + UrlEscape(name))
  {
    assert scheme + "://" == "vless://";
  }

  /** What the panel prints for a REALITY node, the panel reads: address, name, credential and every parameter come
      back, for any host without link delimiters (IPv6 included) and any name at all. */
  lemma {:induction false} ClientURLReadsBack(c: RealityCred, port: int, host: string, name: string, json: Codec)
    requires PlainCred(c) && PlainHost(host) && 0 < port <= 65535 && Bytes(name)
    ensures var p := Parse(ClientURL(c, port, host, name), json);
            && p.Ok?
            && p.value.scheme == "vless" && p.value.userinfo == c.uuid && p.value.host == host && p.value.port == port
            && p.value.name == name && p.value.transport == "tcp" && p.value.tls && p.value.sni == c.serverName
            && forall key :: Get(ParseQuery(p.value.rawQuery), key) == RealityValue(c, key)
  {
    var scheme, ps := "vless", RealityPairs(c);
    ClientURLParts(scheme, c, port, host, name);
    NetJoinAgrees(host, port);
    AuthorityForm(host, port);
    RealityPairsPlain(c);
    PlainParses(ps);
    EscapedSolid(name);
    PrintedParse(scheme, c.uuid, NetJoin(host, port), host, port, PlainQuery(ps), UrlEscape(name), json);
    FragmentRoundTrip(name);
    RealityMeaning(c, ps);
    forall key
      ensures Get(ps, key) == RealityValue(c, key)
    {
      RealityGet(c, key);
    }
  }

  // ---------- gostmgr.GostClientURL, Shadowsocks over TCP ----------

  /** net/url's escape in a component that keeps the characters of `keep`. */
  function EscapeBut(s: string, keep: string): string {
    if s == "" then ""
    else (if Unreserved(s[0]) || s[0] in keep then [s[0]] else PercentByte(s[0])) + EscapeBut(s[1..], keep)
  }

  const USER_KEEPS := "$&+,;="
  const HOST_KEEPS := "!$&'()*+,;=:[]<>\""
  const FRAGMENT_KEEPS := "$&+,/:;=?@!()*"

  /** The userinfo of a Shadowsocks node: RawURLEncoding of cipher:password. */
  function GostCred(cipher: string, password: string): string {
    Encode(true, false, cipher + ":" + password)
  }

  /** GostClientURL of an ss node over its default transport, tcp: no query; a fragment if the name is not blank. */
  function GostSSURL(scheme: string, cipher: string, password: string, host: string, port: int, name: string): string {
    Spell(scheme, EscapeBut(GostCred(cipher, password), USER_KEEPS),
        EscapeBut(NetJoin(TrimSpace(host), port), HOST_KEEPS), "",
          GostFragment(name))
  }

  lemma {:induction false} KeptText(s: string, keep: string)
    requires forall c :: c in s ==> Unreserved(c) || c in keep
    ensures EscapeBut(s, keep) == s
  {
    if s != "" {
      KeptText(s[1..], keep);
    }
  }

  lemma {:induction false} URLSymbols(url: bool, a: int, b: int, c: int)
    requires url && 0 <= a < 256 && 0 <= b < 256 && 0 <= c < 256
    ensures forall x :: x in Encode1(url, a) || x in Encode2(url, a, b) || x in Encode3(url, a, b, c) ==> Unreserved(x)
  {
  }

  lemma {:induction false} URLAlphabet(url: bool, s: string)
    requires url
    ensures forall x :: x in RawEncode(url, s) ==> Unreserved(x)
  {
    if |s| == 1 {
      URLSymbols(url, ByteOf(s[0]), 0, 0);
    } else if |s| == 2 {
      URLSymbols(url, ByteOf(s[0]), ByteOf(s[1]), 0);
    } else if |s| > 2 {
      URLAlphabet(url, s[3..]);
      URLSymbols(url, ByteOf(s[0]), ByteOf(s[1]), ByteOf(s[2]));
    }
  }

  /** net/url leaves every '+' of a fragment alone, and the parser then reads it as a blank. */
  function PlusToBlank(s: string): (r: string)
    ensures |r| == |s|
  {
    seq(|s|, i requires 0 <= i < |s| => if s[i] == '+' then ' ' else s[i])
  }

  lemma {:induction false} BlankStep(s: string)
    requires s != ""
    ensures PlusToBlank(s) == [if s[0] == '+' then ' ' else s[0]] + PlusToBlank(s[1..])
  {
  }

  lemma {:induction false} KeepDecodes(s: string, keep: string)
    requires Bytes(s) && '%' !in keep && '+' in keep
    ensures QueryUnescape(EscapeBut(s, keep)) == Some(PlusToBlank(s))
  {
    if s != "" {
      KeepDecodes(s[1..], keep);
      BlankStep(s);
      if Unreserved(s[0]) || s[0] in keep {
        UnescapePlain(s[0], EscapeBut(s[1..], keep));
      } else {
        UnescapeByte(s[0], EscapeBut(s[1..], keep));
      }
    }
  }

  lemma {:induction false} KeepChars(s: string, keep: string)
    ensures forall c :: c in EscapeBut(s, keep) ==> Unreserved(c) || c == '%' || c in keep
    ensures forall c :: c in keep && c in s ==> c in EscapeBut(s, keep)
    ensures s != "" ==> EscapeBut(s, keep) != ""
  {
    if s != "" {
      KeepChars(s[1..], keep);
    }
  }

  predicate HostText(h: string) {
    forall i :: 0 <= i < |h| ==> Unreserved(h[i]) || h[i] == ':'
  }

  lemma {:induction false} AuthorityKept(h: string, port: nat)
    requires HostText(h)
    ensures EscapeBut(NetJoin(h, port), HOST_KEEPS) == NetJoin(h, port)
  {
    var keep := HOST_KEEPS;
    assert ':' in keep && '[' in keep && ']' in keep;
    DecimalChars(port);
    KeptText(NetJoin(h, port), keep);
  }

  lemma {:induction false} HostTextPlain(h: string)
    requires HostText(h) && h != ""
    ensures PlainHost(h)
  {
  }

  lemma {:induction false} CredPrinted(cipher: string, password: string)
    requires Bytes(cipher) && Bytes(password) && ':' !in cipher
    ensures var u := GostCred(cipher, password);
            && EscapeBut(u, USER_KEEPS) == u && u != "" && CredentialText(u)
            && Credential(DecodeLoose(u).value) == (cipher, password)
  {
    var url, text := true, cipher + ":" + password;
    URLAlphabet(url, text);
    CredText(url, text);
    KeptText(GostCred(cipher, password), USER_KEEPS);
    assert text == cipher + [':'] + password;
    IndexAfter(cipher, ':', password);
    assert text[..|cipher|] == cipher && text[|cipher| + 1..] == password;
  }

  lemma {:induction false} CredText(url: bool, text: string)
    requires url && Bytes(text) && text != ""
    ensures var u := Encode(url, false, text);
            u == RawEncode(url, text) && u != "" && Trimmed(u) && (forall c :: c in u ==> Acceptable(c))
                && DecodeLoose(u) == Some(text)
  {
    LooseInvertsAll(url, false, text);
    EncodedAlphabet(url, text);
    AppendNothing(RawEncode(url, text));
  }

  lemma {:induction false} FragmentKept(name: string, keep: string)
    requires Bytes(name) && '@' in keep && '+' in keep && '%' !in keep && forall c :: c in keep ==> Solid(c)
    ensures var f := EscapeBut(name, keep);
            && (forall c :: c in f ==> Solid(c)) && ('@' in f <==> '@' in name)
            && DecodeFragment(f) == PlusToBlank(name)
            && (f != "" <==> name != "")
  {
    KeepChars(name, keep);
    KeepDecodes(name, keep);
    AtOnlyKept(name, keep);
  }

  lemma {:induction false} FragmentKeeps()
    ensures var keep := FRAGMENT_KEEPS; '@' in keep && '+' in keep && '%' !in keep && forall c :: c in keep ==> Solid(c)
  {
    var keep := FRAGMENT_KEEPS;
    assert keep[9] == '@' && keep[2] == '+';
  }

  lemma {:induction false} AtOnlyKept(s: string, keep: string)
    ensures '@' in EscapeBut(s, keep) ==> '@' in s
  {
    if s != "" {
      AtOnlyKept(s[1..], keep);
      assert '@' !in PercentByte(s[0]);
    }
  }

  /** The fragment that is printed for a name. */
  function GostFragment(name: string): string {
    if TrimSpace(name) != "" then EscapeBut(name, FRAGMENT_KEEPS) else ""
  }

  lemma {:induction false} SpellBody(scheme: string, u: string, a: string, f: string)
    requires ValidScheme(scheme) && u != "" && a != "" && Solid(a[|a| - 1]) && forall c :: c in f ==> Solid(c)
    ensures TrimSpace(Spell(scheme, u, a, "", f)) == scheme + "://" + Body(u, a, "", f) == Spell(scheme, u, a, "", f)
  {
    SpellGroups(scheme, u, a, "", f);
    var h := Head(u, a);
    AppendNothing(h);
    assert h[|h| - 1] == a[|a| - 1];
    var rest := Body(u, a, "", f);
    assert f != "" ==> f[|f| - 1] in f;
    assert rest[|rest| - 1] == if f == "" then h[|h| - 1] else f[|f| - 1];
    TrimEnding(scheme, rest);
  }

  /** A Shadowsocks link printed for gost reads back, with the same method, password, host and port, exactly when the
      node's name holds no '@'. (The name itself comes back with '+' as blanks.) */
  lemma {:induction false} GostSSReadsBackIff(scheme: string, cipher: string, password: string, host: string, port: int,
                                              name: string, json: Codec)
    requires scheme == "ss" && Bytes(cipher) && Bytes(password) && ':' !in cipher && Bytes(name)
    requires HostText(TrimSpace(host)) && TrimSpace(host) != "" && 0 < port <= 65535
    ensures var p := Parse(GostSSURL(scheme, cipher, password, host, port, name), json);
            && (p.Ok? <==> TrimSpace(name) == "" || '@' !in name)
            && (p.Ok? ==> && p.value.scheme == "ss" && p.value.host == TrimSpace(host) && p.value.port == port
                          && Cipher(p.value) == (cipher, password)
                          && p.value.name == if TrimSpace(name) == "" then "" else PlusToBlank(name))
  {
    var h, u, f := TrimSpace(host), GostCred(cipher, password), GostFragment(name);
    var a, r := NetJoin(h, port), GostSSURL(scheme, cipher, password, host, port, name);
    SSValid(scheme);
    HostTextPlain(h);
    NetJoinAgrees(h, port);
    AuthorityForm(h, port);
    AuthorityKept(h, port);
    CredPrinted(cipher, password);
    FragmentKeeps();
    FragmentKept(name, FRAGMENT_KEEPS);
    SpellBody(scheme, u, a, f);
    ParseShown(r, scheme, u, a, h, port, "", "", f, json);
  }
}

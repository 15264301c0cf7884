/** Share links (internal/link/link.go): parsing, and rewriting the address to a relay.

    vmess links are handled as their JSON object; the JSON text codec is a parameter. */
module Link {
  import opened Wrappers
  import opened Text
  import opened Percent
  import opened Query
  import opened HostPort
  import opened Base64

  /** A JSON value of a vmess object; a number is the float64 mantissa * 2^exponent. */
  datatype Json = Str(s: string) | Num(mantissa: int, exponent: int) | Other(text: string)

  type Object = map<string, Json>

  /** encoding/json on objects, as text to object and back. `repair` is what a string comes back as: bytes that are no
      UTF-8 are replaced when an object is printed. */
  datatype Codec = Codec(decode: string -> Option<Object>, encode: Object -> string, repair: string -> string)

  function RepairedValue(json: Codec, v: Json): Json {
    if v.Str? then Str(json.repair(v.s)) else v
  }

  function Repaired(json: Codec, m: Object): Object {
    map k | k in m :: RepairedValue(json, m[k])
  }

  predicate Ascii(s: string) {
    forall i :: 0 <= i < |s| ==> s[i] < 128 as char
  }

  /** Replacing bytes leaves ASCII text alone, never empties a string and need not be done twice; objects that were read
      need none of it. */
  ghost predicate Mends(json: Codec) {
    && (forall s :: json.repair(json.repair(s)) == json.repair(s) && (json.repair(s) == "" <==> s == ""))
    && (forall s :: Ascii(s) ==> json.repair(s) == s)
    && (forall t :: json.decode(t).Some? ==> Repaired(json, json.decode(t).value) == json.decode(t).value)
  }

  /** The text printed for this object reads back as this object, but for the bytes that were replaced. */
  ghost predicate Prints(json: Codec, m: Object) {
    json.encode(m) != "" && Bytes(json.encode(m)) && json.decode(json.encode(m)) == Some(Repaired(json, m))
  }

  datatype Info = Info(raw: string, scheme: string, host: string, port: int, name: string, transport: string,
                       tls: bool, sni: string, hostHdr: string, udp: bool,
                       userinfo: string, rawQuery: string,
                       vmess: Option<Object>, legacySS: Option<(string, string)>)

  datatype Error = EmptyLink | NoScheme | BadScheme | BadVmess | NoAddress | BadBase64 | BadHostPort | BadPort | NoHost

  // ---------- what a query says ----------

  function TransportOf(ps: Pairs): string {
    var t := ToLower(GetFirst(ps, ["type", "net", "headerType"]));
    if t == "" then "tcp" else t
  }

  function TlsOf(scheme: string, ps: Pairs): bool {
    var sec := ToLower(GetFirst(ps, ["security", "tls"]));
    || scheme in {"trojan", "trojan-go", "hysteria2", "hy2", "hysteria", "tuic"}
    || sec in {"tls", "reality", "xtls"}
  }

  const SNI_KEYS := ["sni", "peer", "servername"]

  function SniOf(ps: Pairs): string {
    GetFirst(ps, SNI_KEYS)
  }

  function NeedsUDP(scheme: string, transport: string): bool {
    || scheme in {"hysteria2", "hy2", "hysteria", "tuic", "wireguard", "wg", "juicity"}
    || ToLower(transport) in {"kcp", "quic"}
  }

  /** The Info of a URI link with these parts; everything else follows from them. */
  function FromParts(raw: string, scheme: string, userinfo: string, host: string, port: int,
                     name: string, query: string): Info
  {
    var ps := ParseQuery(query);
    Info(raw, scheme, host, port, name, TransportOf(ps), TlsOf(scheme, ps), SniOf(ps), Get(ps, "host"),
         NeedsUDP(scheme, TransportOf(ps)), userinfo, query, None, None)
  }

  /** The Info of an ss link. */
  function SSParts(raw: string, userinfo: string, host: string, port: int, name: string, query: string,
                   legacy: Option<(string, string)>): Info
  {
    Info(raw, "ss", host, port, name, "tcp", false, "", "", false, userinfo, query, None, legacy)
  }

  // ---------- parsing ----------

  predicate SchemeChar(c: char, i: nat) {
    'a' <= c <= 'z' || '0' <= c <= '9' || c == '+' || c == '-' || c == '.' || (c == ' ' && i > 0)
  }

  predicate ValidScheme(s: string) {
    s != "" && forall i :: 0 <= i < |s| ==> SchemeChar(s[i], i)
  }

  /** The text before the first c, and the text after it ("" when there is none). */
  function Before(s: string, c: char): string {
    var i := IndexByte(s, c);
    if i < 0 then s else s[..i]
  }

  function After(s: string, c: char): string {
    var i := IndexByte(s, c);
    if i < 0 then "" else s[i + 1..]
  }

  function ParseURI(raw: string, scheme: string, rest: string): Result<Info, Error> {
    var frag, body := After(rest, '#'), Before(rest, '#');
    var query, head := After(body, '?'), Before(body, '?');
    var at := LastIndexByte(head, '@');
    var userinfo := if at >= 0 then head[..at] else "";
    var hp := SplitHostPort(if at >= 0 then head[at + 1..] else head);
    if hp.None? then Err(BadHostPort)
    else Ok(FromParts(raw, scheme, userinfo, hp.value.0, hp.value.1, DecodeFragment(frag), query))
  }

  /** ss://base64(method:password)@host:port?plugin#name, when what stands before the last '@' decodes so. */
  function ModernHead(rest: string): Option<string> {
    var at := LastIndexByte(rest, '@');
    if at <= 0 then None
    else
      var u := DecodeLoose(rest[..at]);
      if u.Some? && ':' in u.value then Some(rest[..at]) else None
  }

  function ParseModernSS(raw: string, head: string, tail: string): Result<Info, Error> {
    var frag, body := After(tail, '#'), Before(tail, '#');
    var hp := SplitHostPort(Before(body, '?'));
    if hp.None? then Err(BadHostPort)
    else Ok(SSParts(raw, TrimSpace(head), hp.value.0, hp.value.1, DecodeFragment(frag), After(body, '?'), None))
  }

  /** The credential of an old-style link, cut at its first ':'. */
  function Credential(cred: string): (string, string) {
    var k := IndexByte(cred, ':');
    if k >= 0 then (cred[..k], cred[k + 1..]) else ("", "")
  }

  /** ss://base64(method:password@host:port)#name */
  function ParseLegacySS(raw: string, rest: string): Result<Info, Error> {
    var frag, body := After(rest, '#'), Before(rest, '#');
    var decoded := DecodeLoose(Before(body, '?'));
    if decoded.None? then Err(BadBase64)
    else
      var at := LastIndexByte(decoded.value, '@');
      if at < 0 then Err(NoAddress)
      else
        var hp := SplitHostPort(decoded.value[at + 1..]);
        if hp.None? then Err(BadHostPort)
        else
          var c := Credential(decoded.value[..at]);
          Ok(SSParts(raw, Encode(false, true, c.0 + ":" + c.1), hp.value.0, hp.value.1,
                     DecodeFragment(frag), After(body, '?'), Some(c)))
  }

  function ParseSS(raw: string, rest: string): Result<Info, Error> {
    var head := ModernHead(rest);
    if head.Some? then ParseModernSS(raw, head.value, rest[|head.value| + 1..]) else ParseLegacySS(raw, rest)
  }

  function AsString(m: Object, k: string): string {
    if k in m && m[k].Str? then m[k].s else ""
  }

  function PowerOfTwo(n: nat): (p: nat)
    ensures p > 0
  {
    if n == 0 then 1 else 2 * PowerOfTwo(n - 1)
  }

  /** int(x) of the float mantissa * 2^exponent: truncation toward zero. */
  function Truncate(mantissa: int, exponent: int): int {
    if exponent >= 0 then mantissa * PowerOfTwo(exponent)
    else if mantissa >= 0 then mantissa / PowerOfTwo(-exponent)
    else -(-mantissa / PowerOfTwo(-exponent))
  }

  function ToInt(m: Object, k: string): int {
    if k !in m then 0
    else
      match m[k]
      case Num(mantissa, exponent) => Truncate(mantissa, exponent)
      case Str(s) => AtoiValue(TrimSpace(s))
      case Other(_) => 0
  }

  /** strings.EqualFold against a lower-case word. */
  predicate Folds(s: string, word: string) {
    ToLower(s) == word
  }

  /** The Info of a vmess object. */
  function VmessParts(raw: string, m: Object): Info {
    var t := ToLower(AsString(m, "net"));
    var transport := if t == "" then "tcp" else t;
    Info(raw, "vmess", AsString(m, "add"), ToInt(m, "port"), AsString(m, "ps"), transport,
         Folds(AsString(m, "tls"), "tls") || Folds(AsString(m, "tls"), "reality"),
         AsString(m, "sni"), AsString(m, "host"), NeedsUDP("vmess", transport), "", "", Some(m), None)
  }

  /** The text before the first '?' or '#'. */
  function BeforeMark(s: string): string {
    if s == "" || s[0] == '?' || s[0] == '#' then "" else [s[0]] + BeforeMark(s[1..])
  }

  function ParseVmess(raw: string, rest: string, json: Codec): Result<Info, Error> {
    var data := DecodeLoose(BeforeMark(TrimSpace(rest)));
    if data.None? then Err(BadBase64)
    else
      var m := json.decode(data.value);
      if m.None? then Err(BadVmess)
      else if AsString(m.value, "add") == "" then Err(NoAddress)
      else Ok(VmessParts(raw, m.value))
  }

  function ParseBody(raw: string, scheme: string, rest: string, json: Codec): Result<Info, Error> {
    if scheme == "vmess" then ParseVmess(raw, rest, json)
    else if scheme == "ss" then ParseSS(raw, rest)
    else ParseURI(raw, scheme, rest)
  }

  function Checked(r: Result<Info, Error>): Result<Info, Error> {
    if r.Err? then r
    else if r.value.port <= 0 || r.value.port > 65535 then Err(BadPort)
    else if r.value.host == "" then Err(NoHost)
    else r
  }

  function Parse(link: string, json: Codec): Result<Info, Error> {
    var raw := TrimSpace(link);
    if raw == "" then Err(EmptyLink)
    else
      var idx := IndexSep(raw);
      if idx <= 0 then Err(NoScheme)
      else
        var scheme := ToLower(raw[..idx]);
        if !ValidScheme(scheme) then Err(BadScheme)
        else Checked(ParseBody(raw, scheme, raw[idx + 3..], json))
  }

  // ---------- rewriting ----------

  predicate IsWS(transport: string) {
    transport in {"ws", "websocket", "httpupgrade", "mws"}
  }

  function AddParam(query: string, k: string, v: string): string {
    if v == "" then query
    else (if query != "" then query + "&" else "") + (QueryEscape(k) + "=" + QueryEscape(v))
  }

  predicate NeedsSni(i: Info) {
    i.tls || i.scheme in {"trojan", "hysteria2", "hy2", "tuic"}
  }

  predicate NeedsHost(i: Info) {
    IsWS(i.transport) || i.transport == "http"
  }

  /** The value given to a new `sni` parameter; "" when none is added. */
  function SniParam(i: Info, sni: string): string {
    if !NeedsSni(i) then ""
    else if sni != "" then sni
    else if SniOf(ParseQuery(i.rawQuery)) == "" then i.host
    else ""
  }

  function HostParam(i: Info, hdr: string): string {
    if !NeedsHost(i) then ""
    else if hdr != "" then hdr
    else if Get(ParseQuery(i.rawQuery), "host") == "" then i.host
    else ""
  }

  function NewQuery(i: Info, sni: string, hdr: string): string {
    AddParam(AddParam(i.rawQuery, "sni", SniParam(i, sni)), "host", HostParam(i, hdr))
  }

  /** A URI link spelled from its parts. */
  function Spell(scheme: string, userinfo: string, authority: string, query: string, frag: string): string {
    scheme + "://" + (if userinfo != "" then userinfo + "@" else "") + authority
    + (if query != "" then "?" + query else "") + (if frag != "" then "#" + frag else "")
  }

  function NewName(i: Info, name: string): string {
    if name != "" then name else i.name
  }

  function RewriteURI(i: Info, host: string, port: int, name: string, sni: string, hdr: string): string {
    Spell(i.scheme, i.userinfo, JoinHostPort(host, port), NewQuery(i, sni, hdr), EncodeFragment(NewName(i, name)))
  }

  function OrElse(a: string, b: string): string {
    if a != "" then a else b
  }

  /** The vmess object with the new address; SNI and, over WebSocket, Host are filled in when TLS is on. */
  function NewObject(i: Info, m: Object, host: string, port: int, name: string, sni: string, hdr: string): Object {
    var m1 := m["add" := Str(host)]["port" := Str(Itoa(port))];
    var m2 := if name != "" then m1["ps" := Str(name)] else m1;
    var m3 := if i.tls then m2["sni" := Str(OrElse(OrElse(sni, i.sni), i.host))] else m2;
    if i.tls && IsWS(i.transport) then m3["host" := Str(OrElse(OrElse(hdr, i.hostHdr), i.host))] else m3
  }

  function VmessLink(m: Object, json: Codec): string {
    "vmess://" + Encode(false, true, json.encode(m))
  }

  function Rewrite(i: Info, host: string, port: int, name: string, sni: string, hdr: string,
                   json: Codec): Option<string> {
    if host == "" || port <= 0 || port > 65535 then None
    else if i.vmess.Some? then Some(VmessLink(NewObject(i, i.vmess.value, host, port, name, sni, hdr), json))
    else Some(RewriteURI(i, host, port, name, sni, hdr))
  }

  // ---------- the source's own form: a query grown step by step, an object patched key by key ----------

  class Rewriter {
    const info: Info
    var query: string
    var obj: Object

    constructor (info: Info)
      ensures this.info == info && query == info.rawQuery && obj == info.vmess.GetOr(map[])
    {
      this.info, query, obj := info, info.rawQuery, info.vmess.GetOr(map[]);
    }

    method Add(k: string, v: string)
      modifies this`query
      ensures query == AddParam(old(query), k, v)
    {
      if v == "" {
        return;
      }
      if query != "" {
        query := query + "&";
      }
      query := query + (QueryEscape(k) + "=" + QueryEscape(v));
    }

    method Defaults(sni: string, hdr: string)
      requires query == info.rawQuery
      modifies this`query
      ensures query == NewQuery(info, sni, hdr)
    {
      var vals := ParseQuery(info.rawQuery);
      if info.tls || info.scheme in {"trojan", "hysteria2", "hy2", "tuic"} {
        if sni != "" {
          Add("sni", sni);
        } else if GetFirst(vals, SNI_KEYS) == "" {
          Add("sni", info.host);
        }
      }
      if IsWS(info.transport) || info.transport == "http" {
        if hdr != "" {
          Add("host", hdr);
        } else if Get(vals, "host") == "" {
          Add("host", info.host);
        }
      }
    }

    method Write(host: string, port: int, name: string) returns (out: string)
      ensures out == Spell(info.scheme, info.userinfo, JoinHostPort(host, port), query,
          EncodeFragment(NewName(info, name)))
    {
      NonEmptyFragment(NewName(info, name));
      out := info.scheme + "://";
      AppendNothing(out);
      if info.userinfo != "" {
        out := out + (info.userinfo + "@");
      }
      out := out + JoinHostPort(host, port);
      AppendNothing(out);
      if query != "" {
        out := out + ("?" + query);
      }
      AppendNothing(out);
      if name != "" {
        out := out + ("#" + EncodeFragment(name));
      } else if info.name != "" {
        out := out + ("#" + EncodeFragment(info.name));
      }
    }

    method URI(host: string, port: int, name: string, sni: string, hdr: string) returns (out: string)
      requires query == info.rawQuery
      modifies this`query
      ensures out == RewriteURI(info, host, port, name, sni, hdr)
    {
      Defaults(sni, hdr);
      out := Write(host, port, name);
    }

    method Vmess(host: string, port: int, name: string, sni: string, hdr: string)
      requires info.vmess == Some(obj)
      modifies this`obj
      ensures obj == NewObject(info, old(obj), host, port, name, sni, hdr)
    {
      obj := obj["add" := Str(host)];
      obj := obj["port" := Str(Itoa(port))];
      if name != "" {
        obj := obj["ps" := Str(name)];
      }
      if info.tls {
        var s := sni;
        if s == "" {
          s := info.sni;
        }
        if s == "" {
          s := info.host;
        }
        obj := obj["sni" := Str(s)];
        if IsWS(info.transport) {
          var h := hdr;
          if h == "" {
            h := info.hostHdr;
          }
          if h == "" {
            h := info.host;
          }
          obj := obj["host" := Str(h)];
        }
      }
    }
  }

  lemma {:induction false} AppendNothing(s: string)
    ensures s + "" == s
  {
  }

  lemma {:induction false} NonEmptyFragment(name: string)
    ensures EncodeFragment(name) == "" <==> name == ""
  {
    EncodersAgree(name);
    EscapeAlphabet(name);
  }
}

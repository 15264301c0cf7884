/** A local gost node and its printed address agree: the compiled service (internal/gostmgr/config.go) asks for the
    login that the address carries, and speaks the protocol, over the channel and on the path, that the address names
    (internal/gostmgr/protocol.go). */
module GostLogins {
  import opened Wrappers
  import opened Text
  import opened Percent
  import opened Query
  import opened Base64
  import opened LinkMeaning
  import opened Printers
  import opened GostNode
  import opened GostConfig
  import opened GostFacts
  import opened GostURLs

  // ---------- reading a userinfo ----------

  /** Percent-decoding outside a query: '+' stands for itself. */
  function Unescape(s: string): Option<string>
    decreases |s|
  {
    if s == "" then Some("")
    else if s[0] == '%' then
      if |s| < 3 || HexValue(s[1]).None? || HexValue(s[2]).None? then None
      else
        var rest := Unescape(s[3..]);
        if rest.None? then None
        else Some([(HexValue(s[1]).value * 16 + HexValue(s[2]).value) as char] + rest.value)
    else
      var rest := Unescape(s[1..]);
      if rest.None? then None else Some([s[0]] + rest.value)
  }

  /** Username and password, cut at the first ':' and decoded; a password that is not there is empty. */
  function ReadUserinfo(u: string): Option<Login> {
    var i := IndexByte(u, ':');
    var user, password := Unescape(if i < 0 then u else u[..i]), Unescape(if i < 0 then "" else u[i + 1..]);
    if user.None? || password.None? then None else Some(Login(user.value, password.value))
  }

  /** Cipher and password of a Shadowsocks address, in Base64. */
  function ReadCipher(u: string): Option<Login> {
    var text := DecodeLoose(Unescape(u).GetOr("")).GetOr("");
    var i := IndexByte(text, ':');
    if i < 0 then None else Some(Login(text[..i], text[i + 1..]))
  }

  /** What an address with this userinfo logs in with. */
  function Carried(protocol: string, u: Option<string>): Option<Login> {
    if u.None? then None
    else if protocol == "ss" || protocol == "ssu" then ReadCipher(u.value)
    else ReadUserinfo(u.value)
  }

  lemma {:induction false} UnescapeOne(c: char, rest: string)
    requires c < 256 as char && Unescape(rest).Some?
    ensures Unescape(PercentByte(c) + rest) == Some([c] + Unescape(rest).value)
    ensures c != '%' ==> Unescape([c] + rest) == Some([c] + Unescape(rest).value)
  {
    HexRoundTrip(c);
    var s := PercentByte(c) + rest;
    assert s[3..] == rest && s[1] == HexDigit(c as int / 16) && s[2] == HexDigit(c as int % 16);
    assert ([c] + rest)[1..] == rest;
  }

  /** Decoding inverts the userinfo encoder on every byte string, whatever bytes it keeps. */
  lemma {:induction false} UnescapeInverts(s: string, keep: string)
    requires Bytes(s) && '%' !in keep
    ensures Unescape(EscapeBut(s, keep)) == Some(s)
  {
    if s != "" {
      UnescapeInverts(s[1..], keep);
      UnescapeOne(s[0], EscapeBut(s[1..], keep));
      assert s == [s[0]] + s[1..];
    }
  }

  lemma {:induction false} PairReads(user: string, password: string, keep: string)
    requires Bytes(user) && Bytes(password) && '%' !in keep && ':' !in keep
    requires keep == USER_KEEPS
    ensures ReadUserinfo(UserPassword(user, password)) == Some(Login(user, password))
    ensures ReadUserinfo(EscapeBut(user, keep)) == Some(Login(user, ""))
  {
    var a, b := EscapeBut(user, keep), EscapeBut(password, keep);
    UnescapeInverts(user, keep);
    UnescapeInverts(password, keep);
    KeepChars(user, keep);
    var u := a + [':'] + b;
    assert a + ":" + b == u;
    IndexAfter(a, ':', b);
    assert u[..|a|] == a && u[|a| + 1..] == b;
  }

  lemma {:induction false} CutCipher(e: string, u: string, text: string, cipher: string, password: string)
    requires Unescape(e) == Some(u) && DecodeLoose(u) == Some(text)
    requires text == cipher + [':'] + password && ':' !in cipher
    ensures ReadCipher(e) == Some(Login(cipher, password))
  {
    IndexAfter(cipher, ':', password);
    assert text[..|cipher|] == cipher && text[|cipher| + 1..] == password;
  }

  lemma {:induction false} CredBytes(text: string)
    requires Bytes(text) && text != ""
    ensures var u := Encode(true, false, text); Bytes(u) && DecodeLoose(u) == Some(text)
  {
    CredText(true, text);
    var u := Encode(true, false, text);
    forall i | 0 <= i < |u|
      ensures u[i] < 256 as char
    {
      assert u[i] in u;
    }
  }

  lemma {:induction false} CipherReads(cipher: string, password: string)
    requires Bytes(cipher) && Bytes(password) && ':' !in cipher
    ensures ReadCipher(EscapeBut(GostCred(cipher, password), USER_KEEPS)) == Some(Login(cipher, password))
  {
    var text := cipher + [':'] + password;
    assert cipher + ":" + password == text;
    CredBytes(text);
    UserKeeps();
    UnescapeInverts(GostCred(cipher, password), USER_KEEPS);
    CutCipher(EscapeBut(GostCred(cipher, password), USER_KEEPS), GostCred(cipher, password), text, cipher, password);
  }

  // ---------- the address and the service ----------

  lemma {:induction false} UserKeeps()
    ensures '%' !in USER_KEEPS && ':' !in USER_KEEPS
  {
  }

  /** What an address carries, by the protocol's name: `c`, `up` and `un` print cipher and password, username and
      password, and the username. */
  function PrintedBy(p: string, ssh: bool, c: string, up: string, un: string): Option<string> {
    if AsksCipher(p) then Some(c)
    else if ssh || AsksPassword(p) then Some(up)
    else if AsksUser(p) then Some(un)
    else None
  }

  lemma {:induction false} PrintedByName(n: Node, p: string, t: string)
    requires Normal(p) == p && (AsksPassword(p) || AsksUser(p) || AsksCipher(p) || p == "sni")
    ensures GostUser(n, p, t)
         == PrintedBy(p, t == "ssh" || t == "sshd", EscapeBut(GostCred(n.gostCipher, n.gostPassword), USER_KEEPS),
                      UserPassword(n.gostUsername, n.gostPassword), EscapeBut(n.gostUsername, USER_KEEPS))
  {
    AuthNames(p);
  }

  lemma {:induction false} CarriedBy(n: Node, p: string, ssh: bool, c: string, up: string, un: string)
    requires ReadCipher(c) == Some(Login(n.gostCipher, n.gostPassword))
    requires ReadUserinfo(up) == Some(Login(n.gostUsername, n.gostPassword))
    requires ReadUserinfo(un) == Some(Login(n.gostUsername, ""))
    ensures Carried(p, PrintedBy(p, ssh, c, up, un))
         == if ssh && !AsksCipher(p) then Some(Login(n.gostUsername, n.gostPassword)) else LoginOf(n, p)
  {
  }

  lemma {:induction false} CarriedByName(n: Node, p: string, t: string)
    requires Normal(p) == p && (AsksPassword(p) || AsksUser(p) || AsksCipher(p) || p == "sni")
    requires Bytes(n.gostUsername) && Bytes(n.gostPassword) && Bytes(n.gostCipher) && ':' !in n.gostCipher
    ensures Carried(p, GostUser(n, p, t))
         == if (t == "ssh" || t == "sshd") && !AsksCipher(p) then Some(Login(n.gostUsername, n.gostPassword))
            else LoginOf(n, p)
  {
    PrintedByName(n, p, t);
    UserKeeps();
    PairReads(n.gostUsername, n.gostPassword, USER_KEEPS);
    CipherReads(n.gostCipher, n.gostPassword);
    CarriedBy(n, p, t == "ssh" || t == "sshd", EscapeBut(GostCred(n.gostCipher, n.gostPassword), USER_KEEPS),
        UserPassword(n.gostUsername, n.gostPassword), EscapeBut(n.gostUsername, USER_KEEPS));
  }

  /** The main service of every valid local node asks, over SSH in its channel and otherwise in its protocol, for
      exactly the login that the node's printed address carries. */
  lemma {:induction false} AddressLogsIn(n: Node, opts: Options, s: Service)
    requires s in Compile(n, opts).services && s.name == TCPName(n.id)
    requires n.mode == "gost" && n.gostLocal && ValidateGostNode(n).None?
    requires Bytes(n.gostUsername) && Bytes(n.gostPassword) && Bytes(n.gostCipher) && ':' !in n.gostCipher
    ensures var p, t := NodeProtocol(n), NodeTransport(n);
            Carried(p, GostUser(n, p, t)) == if t == "ssh" || t == "sshd" then s.listener.auth else s.handler.auth
  {
    ValidCarriesLogin(n, opts, s);
    ValidNames(n);
    CarriedByName(n, NodeProtocol(n), NodeTransport(n));
  }

  /** Protocol and channel of an address's scheme; the channel may go unsaid. */
  function ReadScheme(scheme: string): (string, string) {
    var i := IndexByte(scheme, '+');
    if i >= 0 then (scheme[..i], scheme[i + 1..])
    else (scheme, if scheme == "http2" then "http2" else if scheme == "ssu" then "udp" else "tcp")
  }

  lemma {:induction false} DefaultNames(p: string)
    requires ProtocolNamed(p).Some?
    ensures ProtocolNamed(p).value.defaultTransport
         == if p == "http2" then "http2" else if p == "ssu" then "udp" else "tcp"
  {
  }

  lemma {:induction false} SchemeReads(p: string, t: string)
    requires Normal(p) == p && ProtocolNamed(p).Some? && Word(t)
    ensures ReadScheme(GostScheme(p, t)) == (p, t)
  {
    ProtocolWord(p);
    DefaultNames(p);
    assert '+' !in p;
    var s := p + ['+'] + t;
    assert p + "+" + t == s;
    IndexAfter(p, '+', t);
    assert s[..|p|] == p && s[|p| + 1..] == t;
  }

  lemma {:induction false} TwoRead(a: string, b: string, c: string, d: string, key: string)
    requires PlainText(a) && PlainText(b) && PlainText(c) && PlainText(d)
    ensures Get(ParseQuery(TwoPairs(a, b, c, d)), key) == if a == key then b else if c == key then d else ""
  {
    PlainOne(a, b);
    PlainOne(c, d);
    PlainJoin(a + "=" + b, c + "=" + d, (a, b), [(c, d)]);
    ConsGet(a, b, [(c, d)], key);
    ConsGet(c, d, [], key);
    assert Cons(c, d, []) == [(c, d)];
  }

  lemma {:induction false} PathRead(p: string, key: string)
    requires Bytes(p)
    ensures Get(ParseQuery("path=" + QueryEscape(p)), key) == if key == "path" then p else ""
  {
    KeepPlain("path");
    assert "path=" == "path" + "=";
    EscapeParses("path", p);
    ConsGet("path", p, [], key);
    assert Cons("path", p, []) == [("path", p)];
  }

  lemma {:induction false} PlainWords()
    ensures PlainText("flightInterval") && PlainText("500ms") && PlainText("mtu") && PlainText("1200")
  {
  }

  lemma {:induction false} TwoEntries(a: string, b: string, c: string, d: string, key: string)
    requires a != c
    ensures Lookup(map[a := b, c := d], key).GetOr("") == if a == key then b else if c == key then d else ""
  {
  }

  lemma {:induction false} DtlsQueryOf(n: Node, t: string)
    requires t == "dtls" && Normal(t) == t
    ensures GostQuery(n.gostPath, t) == TwoPairs("flightInterval", "500ms", "mtu", "1200")
    ensures ProxyMetadata(n, t) == map["flightInterval" := "500ms", "mtu" := "1200"]
  {
  }

  lemma {:induction false} DtlsRead(n: Node, t: string, key: string)
    requires t == "dtls" && Normal(t) == t
    ensures Get(ParseQuery(GostQuery(n.gostPath, t)), key) == Lookup(ProxyMetadata(n, t), key).GetOr("")
  {
    PlainWords();
    TwoRead("flightInterval", "500ms", "mtu", "1200", key);
    TwoEntries("flightInterval", "500ms", "mtu", "1200", key);
    DtlsQueryOf(n, t);
  }

  /** The channel's parameters are those of the address's query. */
  lemma {:induction false} MetadataRead(n: Node, t: string, key: string)
    requires Bytes(n.gostPath) && Normal(t) == t
    ensures Get(ParseQuery(GostQuery(n.gostPath, t)), key) == Lookup(ProxyMetadata(n, t), key).GetOr("")
  {
    if t == "dtls" {
      DtlsRead(n, t, key);
    } else {
      TrimBytes(n.gostPath);
      PathRead(TrimSpace(n.gostPath), key);
      ParseEmpty();
    }
  }

  lemma {:induction false} MainMetadata(n: Node, opts: Options, s: Service)
    requires s in Compile(n, opts).services && s.name == TCPName(n.id) && n.mode == "gost" && n.gostLocal
    ensures s.listener.metadata == ProxyMetadata(n, NodeTransport(n))
  {
    NamesDistinct(n.id, n.id);
    var bare := BareServices(n);
    var i :| 0 <= i < |bare| && s == Limited(n, bare[i]);
  }

  /** The main service of every valid local node speaks the protocol that the address's scheme names, over the channel
      it names, with exactly the parameters of the address's query. */
  lemma {:induction false} AddressReaches(n: Node, opts: Options, s: Service, key: string)
    requires s in Compile(n, opts).services && s.name == TCPName(n.id)
    requires n.mode == "gost" && n.gostLocal && ValidateGostNode(n).None? && Bytes(n.gostPath)
    ensures var p, t := NodeProtocol(n), NodeTransport(n);
            && ReadScheme(GostScheme(p, t)) == (s.handler.kind, s.listener.kind)
            && Get(ParseQuery(GostQuery(n.gostPath, t)), key) == Lookup(s.listener.metadata, key).GetOr("")
  {
    ValidNames(n);
    TransportWord(NodeTransport(n));
    CompiledService(n, opts, s);
    SchemeReads(NodeProtocol(n), NodeTransport(n));
    MainMetadata(n, opts, s);
    MetadataRead(n, NodeTransport(n), key);
  }
}

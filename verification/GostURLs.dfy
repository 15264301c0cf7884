/** gostmgr.GostClientURL (internal/gostmgr/protocol.go) for every protocol and transport, and link.Parse on what it
    prints. */
module GostURLs {
  import opened Wrappers
  import opened Text
  import opened Percent
  import opened Query
  import opened HostPort
  import opened Link
  import opened LinkReparse
  import opened LinkMeaning
  import opened Printers
  import opened GostNode

  /** gostScheme: the protocol, and the transport when it is not the protocol's default. */
  function GostScheme(protocol: string, transport: string): string {
    var p := ProtocolSpec(protocol);
    if transport == "" || (p.Some? && transport == p.value.defaultTransport) then protocol
    else protocol + "+" + transport
  }

  function UserPassword(user: string, password: string): string {
    EscapeBut(user, USER_KEEPS) + ":" + EscapeBut(password, USER_KEEPS)
  }

  /** What stands before the '@', if anything does. */
  function UserText(n: Node, auth: Auth, transport: string): Option<string> {
    if auth.Shadow? then Some(EscapeBut(GostCred(n.gostCipher, n.gostPassword), USER_KEEPS))
    else if transport == "ssh" || transport == "sshd" then Some(UserPassword(n.gostUsername, n.gostPassword))
    else if auth.NoAuth? then None
    else if auth.UserOnly? then Some(EscapeBut(n.gostUsername, USER_KEEPS))
    else Some(UserPassword(n.gostUsername, n.gostPassword))
  }

  /** gostUser. */
  function GostUser(n: Node, protocol: string, transport: string): Option<string> {
    var p := ProtocolSpec(protocol);
    UserText(n, if p.Some? then p.value.auth else UserPass, transport)
  }

  function TwoPairs(a: string, b: string, c: string, d: string): string {
    a + "=" + b + "&" + (c + "=" + d)
  }

  /** The printed query: the path of a transport that has one, or the two fixed parameters of dtls. */
  function GostQuery(path: string, transport: string): string {
    var t := TransportSpec(transport);
    if t.Some? && t.value.path && TrimSpace(path) != "" then "path=" + QueryEscape(TrimSpace(path))
    else if transport == "dtls" then TwoPairs("flightInterval", "500ms", "mtu", "1200")
    else ""
  }

  /** net/url's text of a URL without a path. */
  function URLText(scheme: string, user: Option<string>, authority: string, query: string, frag: string): string {
    scheme + "://" + (((if user.Some? then user.value + "@" else "") + authority + Opt('?', query)) + Opt('#', frag))
  }

  /** GostClientURL of a valid node whose display name is `name`. */
  function GostURL(n: Node, host: string, port: int, name: string): string {
    var protocol, transport := NodeProtocol(n), NodeTransport(n);
    URLText(GostScheme(protocol, transport), GostUser(n, protocol, transport),
            EscapeBut(NetJoin(TrimSpace(host), port), HOST_KEEPS), GostQuery(n.gostPath, transport),
            GostFragment(name))
  }

  lemma {:induction false} WordScheme(p: string, t: string)
    requires Word(p) && Word(t)
    ensures ValidScheme(p) && ValidScheme(p + "+" + t)
  {
  }

  /** The scheme of a valid node; it is neither vmess nor, but for Shadowsocks over tcp, ss. */
  lemma {:induction false} SchemeOfValid(n: Node)
    requires ValidateGostNode(n).None?
    ensures var scheme := GostScheme(NodeProtocol(n), NodeTransport(n));
            && ValidScheme(scheme) && scheme != "vmess"
            && (scheme == "ss" <==> NodeProtocol(n) == "ss" && NodeTransport(n) == "tcp")
  {
    var p, t := NodeProtocol(n), NodeTransport(n);
    ValidNames(n);
    ProtocolWord(p);
    TransportWord(t);
    WordScheme(p, t);
    PlusDiffers(p, t);
  }

  lemma {:induction false} PlusDiffers(p: string, t: string)
    ensures var s := p + "+" + t; s != "vmess" && s != "ss"
  {
    var s := p + "+" + t;
    assert s[|p|] == '+';
    assert '+' !in "vmess" && '+' !in "ss";
  }

  /** Escaped text holds a mark only if the mark is kept. */
  lemma {:induction false} NoMarkKept(s: string, keep: string)
    requires '@' !in keep && '?' !in keep && '#' !in keep
    ensures var e := EscapeBut(s, keep); '@' !in e && '?' !in e && '#' !in e
  {
    KeepChars(s, keep);
  }

  lemma {:induction false} JoinedMarks(a: string, b: string)
    requires '@' !in a && '?' !in a && '#' !in a && '@' !in b && '?' !in b && '#' !in b
    ensures var u := a + ":" + b; '@' !in u && '?' !in u && '#' !in u
  {
  }

  lemma {:induction false} UserMarks(n: Node, auth: Auth, transport: string)
    ensures var u := UserText(n, auth, transport).GetOr(""); '@' !in u && '?' !in u && '#' !in u
  {
    var keep := USER_KEEPS;
    assert '@' !in keep && '?' !in keep && '#' !in keep;
    NoMarkKept(GostCred(n.gostCipher, n.gostPassword), keep);
    NoMarkKept(n.gostUsername, keep);
    NoMarkKept(n.gostPassword, keep);
    JoinedMarks(EscapeBut(n.gostUsername, keep), EscapeBut(n.gostPassword, keep));
  }

  lemma {:induction false} EscapedTail(pre: string, e: string)
    requires '#' !in pre && e != "" && forall c :: c in e ==> EscapeChar(c)
    ensures var q := pre + e; '#' !in q && Solid(q[|q| - 1])
  {
    var q := pre + e;
    assert q[|q| - 1] == e[|e| - 1] && e[|e| - 1] in e;
  }

  lemma {:induction false} TwoPlain(a: string, b: string, c: string, d: string, key: string)
    requires PlainText(a) && PlainText(b) && PlainText(c) && PlainText(d) && key != a && key != c
    requires d != "" && Solid(d[|d| - 1])
    ensures var q := TwoPairs(a, b, c, d); Get(ParseQuery(q), key) == "" && '#' !in q && Solid(q[|q| - 1])
  {
    PlainOne(a, b);
    PlainOne(c, d);
    PlainJoin(a + "=" + b, c + "=" + d, (a, b), [(c, d)]);
    ConsGet(a, b, [(c, d)], key);
    ConsGet(c, d, [], key);
    assert Cons(c, d, []) == [(c, d)];
  }

  lemma {:induction false} DtlsQuery()
    ensures var q := TwoPairs("flightInterval", "500ms", "mtu", "1200");
            Get(ParseQuery(q), "path") == "" && '#' !in q && Solid(q[|q| - 1])
  {
    TwoPlain("flightInterval", "500ms", "mtu", "1200", "path");
  }

  lemma {:induction false} QueryMarks(path: string, transport: string)
    ensures var q := GostQuery(path, transport);
            '#' !in q && (q != "" ==> Solid(q[|q| - 1]))
  {
    EscapedChars(TrimSpace(path));
    if TrimSpace(path) != "" {
      EscapedTail("path=", QueryEscape(TrimSpace(path)));
    }
    DtlsQuery();
  }

  /** The path comes back from the printed query. */
  lemma {:induction false} QueryPath(path: string, transport: string)
    requires Bytes(path)
    ensures Get(ParseQuery(GostQuery(path, transport)), "path")
         == if TransportSpec(transport).Some? && TransportSpec(transport).value.path then TrimSpace(path) else ""
  {
    var p := TrimSpace(path);
    TrimBytes(path);
    EscapeParses("path", p);
    ParseEmpty();
    DtlsQuery();
    PathKey(p);
  }

  lemma {:induction false} PathKey(p: string)
    requires ParseQuery(QueryEscape("path") + "=" + QueryEscape(p)) == [("path", p)]
    ensures Get(ParseQuery("path=" + QueryEscape(p)), "path") == p
  {
    KeepPlain("path");
    assert "path=" == "path" + "=";
  }

  lemma {:induction false} KeepPlain(s: string)
    requires forall i :: 0 <= i < |s| ==> Unreserved(s[i])
    ensures QueryEscape(s) == s
  {
    if s != "" {
      KeepPlain(s[1..]);
    }
  }

  /** Where the text before the query is cut. */
  lemma {:induction false} LeadParts(user: Option<string>, authority: string)
    requires '@' !in authority && '@' !in user.GetOr("")
    ensures var h := (if user.Some? then user.value + "@" else "") + authority;
            var at := LastIndexByte(h, '@');
            && (if at >= 0 then h[..at] else "") == user.GetOr("")
            && (if at >= 0 then h[at + 1..] else h) == authority
  {
    var h := (if user.Some? then user.value + "@" else "") + authority;
    if user.Some? {
      assert h == user.value + ['@'] + authority;
      LastIndexBefore(user.value, '@', authority);
      assert h[..|user.value|] == user.value && h[|user.value| + 1..] == authority;
    } else {
      assert h == authority;
    }
  }

  lemma {:induction false} URLRead(raw: string, scheme: string, user: Option<string>, authority: string, host: string,
                                   port: int, query: string, frag: string)
    requires '@' !in authority && '?' !in authority && '#' !in authority && '#' !in query
    requires var u := user.GetOr(""); '@' !in u && '?' !in u && '#' !in u
    requires SplitHostPort(authority) == Some((host, port))
    ensures var h := (if user.Some? then user.value + "@" else "") + authority;
            ParseURI(raw, scheme, (h + Opt('?', query)) + Opt('#', frag))
            == Ok(FromParts(raw, scheme, user.GetOr(""), host, port, DecodeFragment(frag), query))
  {
    var h := (if user.Some? then user.value + "@" else "") + authority;
    assert '#' !in h && '?' !in h;
    CutTail(h + Opt('?', query), '#', frag);
    CutTail(h, '?', query);
    LeadParts(user, authority);
  }

  lemma {:induction false} URLEnd(h: string, query: string, frag: string)
    requires h != "" && Solid(h[|h| - 1]) && (query != "" ==> Solid(query[|query| - 1]))
    requires forall c :: c in frag ==> Solid(c)
    ensures var rest := (h + Opt('?', query)) + Opt('#', frag); rest != "" && Solid(rest[|rest| - 1])
  {
    var rest := (h + Opt('?', query)) + Opt('#', frag);
    if frag != "" {
      assert rest[|rest| - 1] == frag[|frag| - 1] && frag[|frag| - 1] in frag;
    } else if query != "" {
      assert rest[|rest| - 1] == query[|query| - 1];
    } else {
      assert rest[|rest| - 1] == h[|h| - 1];
    }
  }

  lemma {:induction false} URLParses(scheme: string, user: Option<string>, authority: string, host: string, port: int,
                                     query: string, frag: string, json: Codec)
    requires ValidScheme(scheme) && scheme != "vmess" && scheme != "ss"
    requires '@' !in authority && '?' !in authority && '#' !in authority && '#' !in query
    requires authority != "" && Solid(authority[|authority| - 1]) && (query != "" ==> Solid(query[|query| - 1]))
    requires var u := user.GetOr(""); '@' !in u && '?' !in u && '#' !in u
    requires SplitHostPort(authority) == Some((host, port)) && host != "" && 0 < port <= 65535
    requires forall c :: c in frag ==> Solid(c)
    ensures var r := URLText(scheme, user, authority, query, frag);
            Parse(r, json) == Ok(FromParts(r, scheme, user.GetOr(""), host, port, DecodeFragment(frag), query))
  {
    var h, r := (if user.Some? then user.value + "@" else "") + authority, URLText(scheme, user, authority, query,
        frag);
    var rest := (h + Opt('?', query)) + Opt('#', frag);
    assert h[|h| - 1] == authority[|authority| - 1];
    URLEnd(h, query, frag);
    TrimEnding(scheme, rest);
    URLRead(r, scheme, user, authority, host, port, query, frag);
    ParseTrimmed(r, scheme, rest, json,
        FromParts(r, scheme, user.GetOr(""), host, port, DecodeFragment(frag), query));
  }

  lemma {:induction false} GostFragmentReads(name: string)
    requires Bytes(name)
    ensures var f := GostFragment(name);
            && (forall c :: c in f ==> Solid(c))
            && DecodeFragment(f) == if TrimSpace(name) == "" then "" else PlusToBlank(name)
  {
    FragmentKeeps();
    FragmentKept(name, FRAGMENT_KEEPS);
  }

  /** Every valid gost node but Shadowsocks over tcp: its printed address reads back, whatever its name, credential and
      path hold, with its scheme, its userinfo as printed, host, port and path. (The name comes back with '+' as
      blanks.) */
  lemma {:induction false} GostURLReadsBack(n: Node, host: string, port: int, name: string, json: Codec)
    requires ValidateGostNode(n).None? && !(NodeProtocol(n) == "ss" && NodeTransport(n) == "tcp")
    requires HostText(TrimSpace(host)) && TrimSpace(host) != "" && 0 < port <= 65535
    requires Bytes(name) && Bytes(n.gostPath)
    ensures var r, p, t := GostURL(n, host, port, name), NodeProtocol(n), NodeTransport(n);
            var q := GostQuery(n.gostPath, t);
            && Parse(r, json) == Ok(FromParts(r, GostScheme(p, t), GostUser(n, p, t).GetOr(""), TrimSpace(host), port,
                                              if TrimSpace(name) == "" then "" else PlusToBlank(name), q))
            && Get(ParseQuery(q), "path") == if TransportSpec(t).value.path then TrimSpace(n.gostPath) else ""
  {
    var h, p, t := TrimSpace(host), NodeProtocol(n), NodeTransport(n);
    SchemeOfValid(n);
    HostTextPlain(h);
    NetJoinAgrees(h, port);
    AuthorityForm(h, port);
    AuthorityKept(h, port);
    UserMarks(n, if ProtocolSpec(p).Some? then ProtocolSpec(p).value.auth else UserPass, t);
    QueryMarks(n.gostPath, t);
    QueryPath(n.gostPath, t);
    GostFragmentReads(name);
    URLParses(GostScheme(p, t), GostUser(n, p, t), NetJoin(h, port), h, port, GostQuery(n.gostPath, t),
        GostFragment(name), json);
  }

  lemma {:induction false} URLIsSpelled(scheme: string, user: string, authority: string, frag: string)
    requires user != ""
    ensures URLText(scheme, Some(user), authority, "", frag) == Spell(scheme, user, authority, "", frag)
  {
    SpellGroups(scheme, user, authority, "", frag);
  }

  lemma {:induction false} SSNames(protocol: string, transport: string)
    requires protocol == "ss" && transport == "tcp"
    ensures ProtocolSpec(protocol) == Some(Protocol(protocol, transport, Shadow))
    ensures TransportSpec(transport) == Some(Transport(transport, TCP, false, false))
  {
    assert Word(protocol) && Word(transport);
    WordNormal(protocol);
    WordNormal(transport);
  }

  lemma {:induction false} UserOfSS(n: Node, protocol: string, transport: string)
    requires ProtocolSpec(protocol) == Some(Protocol(protocol, transport, Shadow))
    requires TransportSpec(transport) == Some(Transport(transport, TCP, false, false)) && transport != "dtls"
    ensures GostUser(n, protocol, transport) == Some(EscapeBut(GostCred(n.gostCipher, n.gostPassword), USER_KEEPS))
    ensures GostScheme(protocol, transport) == protocol && GostQuery(n.gostPath, transport) == ""
  {
  }

  /** Shadowsocks over tcp is printed as the simple link of GostSSReadsBackIff. */
  lemma {:induction false} GostURLOfSS(n: Node, host: string, port: int, name: string)
    requires NodeProtocol(n) == "ss" && NodeTransport(n) == "tcp" && Bytes(n.gostCipher) && Bytes(n.gostPassword)
    ensures GostURL(n, host, port, name)
         == GostSSURL(NodeProtocol(n), n.gostCipher, n.gostPassword, host, port, name)
  {
    var text := n.gostCipher + ":" + n.gostPassword;
    CredText(true, text);
    KeepChars(GostCred(n.gostCipher, n.gostPassword), USER_KEEPS);
    SSNames(NodeProtocol(n), NodeTransport(n));
    UserOfSS(n, NodeProtocol(n), NodeTransport(n));
    URLIsSpelled(NodeProtocol(n), EscapeBut(GostCred(n.gostCipher, n.gostPassword), USER_KEEPS),
        EscapeBut(NetJoin(TrimSpace(host), port), HOST_KEEPS), GostFragment(name));
  }
}

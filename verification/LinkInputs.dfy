/** Links that parse and that a rewrite does not keep: the conditions of the rewriting theorems do fail. */
module LinkInputs {
  import opened Wrappers
  import opened Text
  import opened Percent
  import opened Query
  import opened HostPort
  import opened Base64
  import opened Link
  import opened LinkReparse
  import opened LinkMeaning
  import opened LinkSS
  import opened Printers

  // ---------- an old-style ss link with '@' in its query ----------

  /** The text inside an old-style link. */
  function OldText(cred: string, host: string, port: int): string {
    cred + "@" + JoinHostPort(host, port)
  }

  function OldStyle(scheme: string, cred: string, host: string, port: int, query: string, name: string): string {
    Spell(scheme, "", Encode(false, true, OldText(cred, host, port)), query, EncodeFragment(name))
  }

  lemma {:induction false} OldBase(text: string)
    requires Bytes(text) && text != ""
    ensures var e := Encode(false, true, text);
            && e != "" && '@' !in e && '?' !in e && '#' !in e && Solid(e[|e| - 1]) && DecodeLoose(e) == Some(text)
  {
    PaddedAlphabet(text);
    AlphabetText(Encode(false, true, text));
    LooseInvertsAll(false, true, text);
  }

  /** Text with a '?' is no base64 in any dialect. */
  lemma {:induction false} MarkNeverDecodes(s: string)
    requires '?' in s
    ensures DecodeLoose(s).None?
  {
    TrimKeeps(s, '?');
    if DecodeLoose(s).Some? {
      LooseAccepts(s);
    }
  }

  /** The last '@', if any, is behind the mark, so the text before it is no base64. */
  lemma {:induction false} NoModernHead(e: string, q: string)
    requires '@' !in e && (q == "" || q[0] == '?')
    ensures ModernHead(e + q).None?
  {
    var s := e + q;
    var at := LastIndexByte(s, '@');
    if at > 0 {
      assert forall k :: 0 <= k < |e| ==> s[k] == e[k];
      assert s[|e|] == q[0] && s[..at][|e|] == q[0];
      MarkNeverDecodes(s[..at]);
    }
  }

  lemma {:induction false} LastAtCut(cred: string, a: string)
    requires '@' !in a
    ensures var t := cred + "@" + a; LastIndexByte(t, '@') == |cred| && t[..|cred|] == cred && t[|cred| + 1..] == a
  {
    assert cred + "@" + a == cred + ['@'] + a;
    LastIndexBefore(cred, '@', a);
  }

  lemma {:induction false} OldTextParts(cred: string, host: string, port: nat)
    requires PlainHost(host) && port <= 65535
    ensures var t := OldText(cred, host, port);
            var at := LastIndexByte(t, '@');
            at == |cred| && t[..at] == cred && SplitHostPort(t[at + 1..]) == Some((host, port))
  {
    AuthorityForm(host, port);
    LastAtCut(cred, JoinHostPort(host, port));
  }

  lemma {:induction false} OldBytes(cred: string, host: string, port: nat)
    requires Bytes(cred) && Bytes(host)
    ensures Bytes(OldText(cred, host, port)) && OldText(cred, host, port) != ""
  {
    DecimalChars(port);
    assert Bytes(Decimal(port)) by {
      forall k | 0 <= k < |Decimal(port)|
        ensures Decimal(port)[k] < 256 as char
      {
        assert Decimal(port)[k] in Decimal(port);
      }
    }
  }

  lemma {:induction false} OldRead(raw: string, e: string, rest: string, cred: string, host: string, port: nat,
                                   query: string, frag: string)
    requires PlainHost(host) && port <= 65535 && DecodeLoose(e) == Some(OldText(cred, host, port))
    requires After(rest, '#') == frag && Before(Before(rest, '#'), '?') == e && After(Before(rest, '#'), '?') == query
    ensures var c := Credential(cred);
            ParseLegacySS(raw, rest) == Ok(SSParts(raw, Encode(false, true, c.0 + ":" + c.1), host, port,
                                                   DecodeFragment(frag), query, Some(c)))
  {
    OldTextParts(cred, host, port);
  }

  lemma {:induction false} OldHead(e: string, query: string, frag: string)
    requires '@' !in e
    ensures ModernHead((Head("", e) + Opt('?', query)) + Opt('#', frag)).None? || '@' in frag || query == ""
  {
    if '@' !in frag && query != "" {
      assert Head("", e) == e;
      Assoc(e, Opt('?', query), Opt('#', frag));
      NoModernHead(e, Opt('?', query) + Opt('#', frag));
    }
  }

  lemma {:induction false} OldBody(raw: string, e: string, cred: string, host: string, port: nat, query: string,
                                   frag: string)
    requires PlainHost(host) && port <= 65535 && DecodeLoose(e) == Some(OldText(cred, host, port))
    requires '@' !in e && '?' !in e && '#' !in e && '#' !in query && query != "" && '@' !in frag
    ensures var c := Credential(cred);
            ParseSS(raw, (Head("", e) + Opt('?', query)) + Opt('#', frag))
            == Ok(SSParts(raw, Encode(false, true, c.0 + ":" + c.1), host, port, DecodeFragment(frag), query, Some(c)))
  {
    var rest := (Head("", e) + Opt('?', query)) + Opt('#', frag);
    OldHead(e, query, frag);
    ReadLegacy(raw, rest);
    BodyCuts("", e, query, frag);
    assert Head("", e) == e;
    OldRead(raw, e, rest, cred, host, port, query, frag);
  }

  lemma {:induction false} OldTrim(scheme: string, e: string, query: string, name: string)
    requires scheme == "ss" && e != "" && Solid(e[|e| - 1]) && name != ""
    ensures var frag := EncodeFragment(name);
            && TrimSpace(Spell(scheme, "", e, query, frag))
                == scheme + "://" + ((Head("", e) + Opt('?', query)) + Opt('#', frag))
            && '@' !in frag
  {
    SSValid(scheme);
    EscapedChars(name);
    TrimSpelled(scheme, "", e, query, EncodeFragment(name));
    assert !EscapeChar('@');
  }

  /** Every old-style link with a name and a query reads back as its parts, whatever the query holds. */
  lemma {:induction false} OldStyleParses(scheme: string, cred: string, host: string, port: nat, query: string,
                                          name: string, json: Codec)
    requires scheme == "ss" && Bytes(cred) && PlainHost(host) && Bytes(host) && 0 < port <= 65535
    requires query != "" && '#' !in query && name != "" && Bytes(name)
    ensures var r, c := OldStyle(scheme, cred, host, port, query, name), Credential(cred);
            Parse(r, json) == Ok(SSParts(TrimSpace(r), Encode(false, true, c.0 + ":" + c.1), host, port, name, query,
                                         Some(c)))
  {
    OldBytes(cred, host, port);
    OldBase(OldText(cred, host, port));
    FragmentRoundTrip(name);
    OldFrom(scheme, Encode(false, true, OldText(cred, host, port)), cred, host, port, query, name, json);
  }

  lemma {:induction false} OldFrom(scheme: string, e: string, cred: string, host: string, port: nat, query: string,
                                   name: string, json: Codec)
    requires scheme == "ss" && PlainHost(host) && 0 < port <= 65535
    requires DecodeLoose(e) == Some(OldText(cred, host, port)) && e != "" && Solid(e[|e| - 1])
    requires '@' !in e && '?' !in e && '#' !in e && '#' !in query && query != "" && name != ""
    ensures var r, c := Spell(scheme, "", e, query, EncodeFragment(name)), Credential(cred);
            Parse(r, json) == Ok(SSParts(TrimSpace(r), Encode(false, true, c.0 + ":" + c.1), host, port,
                                         DecodeFragment(EncodeFragment(name)), query, Some(c)))
  {
    var frag := EncodeFragment(name);
    var r := Spell(scheme, "", e, query, frag);
    OldTrim(scheme, e, query, name);
    OldBody(TrimSpace(r), e, cred, host, port, query, frag);
    ParseTrimmedSS(r, scheme, (Head("", e) + Opt('?', query)) + Opt('#', frag), json);
  }

  /** So each of them with an '@' in its query parses and, rewritten, does not: for one, the link of `a:b@h:1` with the
      query `@` and the name `n`. */
  lemma {:induction false} AtQueryLost(scheme: string, cred: string, host: string, port: nat, query: string,
                                       name: string, relay: string, relayPort: int, json: Codec)
    requires scheme == "ss" && Bytes(cred) && PlainHost(host) && Bytes(host) && 0 < port <= 65535
    requires '@' in query && '#' !in query && name != "" && Bytes(name)
    requires PlainHost(relay) && 0 < relayPort <= 65535
    ensures var p := Parse(OldStyle(scheme, cred, host, port, query, name), json);
            && p.Ok?
            && var r := Rewrite(p.value, relay, relayPort, "", "", "", json);
               r.Some? && Parse(r.value, json).Err?
  {
    var r := OldStyle(scheme, cred, host, port, query, name);
    OldStyleParses(scheme, cred, host, port, query, name, json);
    ParsedSS(r, json);
    SSReparsesIff(Parse(r, json).value, relay, relayPort, "", "", "", json);
  }

  lemma {:induction false} AtQueryInput(json: Codec)
    ensures var p := Parse(OldStyle("ss", "a:b", "h", 1, "@", "n"), json);
            && p.Ok?
            && var r := Rewrite(p.value, "r", 2, "", "", "", json);
               r.Some? && Parse(r.value, json).Err?
  {
    AtQueryLost("ss", "a:b", "h", 1, "@", "n", "r", 2, json);
  }

  // ---------- an SNI override that is ignored ----------

  /** No SNI override takes effect on a link that the panel prints for a REALITY node. */
  lemma {:induction false} RealityIgnoresSni(c: RealityCred, port: int, host: string, name: string, relay: string,
                                             relayPort: int, sni: string, json: Codec)
    requires PlainCred(c) && c.serverName != "" && PlainHost(host) && Bytes(host) && 0 < port <= 65535 && Bytes(name)
    requires PlainHost(relay) && 0 < relayPort <= 65535 && Bytes(sni) && sni != ""
    ensures var p := Parse(ClientURL(c, port, host, name), json);
            && p.Ok?
            && var r := Rewrite(p.value, relay, relayPort, "", sni, "", json);
               r.Some? && Parse(r.value, json).Ok? && Parse(r.value, json).value.sni == c.serverName
  {
    ClientURLReadsBack(c, port, host, name, json);
    ParsedForm(ClientURL(c, port, host, name), json);
    var i := Parse(ClientURL(c, port, host, name), json).value;
    GetMissing(ParseQuery(i.rawQuery), "sni");
    assert Get(ParseQuery(i.rawQuery), "sni") == RealityValue(c, "sni");
    RewriteIsURI(i, relay, relayPort, "", sni, "", json);
    OverriddenParse(i, relay, relayPort, "", sni, "", json);
    OverriddenSni(i, Parse(RewriteURI(i, relay, relayPort, "", sni, ""), json).value, sni, "");
  }

  // ---------- white space at the end of a query ----------

  lemma {:induction false} MarkCuts(h: string, query: string, rest: string)
    requires '#' !in h && '?' !in h && '#' !in query && rest == h + ("?" + query) + "#"
    ensures After(rest, '#') == "" && Before(Before(rest, '#'), '?') == h && After(Before(rest, '#'), '?') == query
  {
    var body := h + ("?" + query);
    assert rest == body + ['#'] + "";
    CutAt(body, '#', "");
    assert body == h + ['?'] + query;
    CutAt(h, '?', query);
  }

  lemma {:induction false} HeadMarks(userinfo: string, authority: string)
    requires '#' !in userinfo && '?' !in userinfo && '#' !in authority && '?' !in authority
    ensures var h := Head(userinfo, authority); '#' !in h && '?' !in h
  {
  }

  /** A link that ends in an empty fragment keeps the white space before it. */
  lemma {:induction false} EmptyMarkParses(scheme: string, userinfo: string, authority: string, host: string, port: int,
                                           query: string, json: Codec)
    requires Spellable(scheme, userinfo, authority, host, port, query) && query != ""
    ensures var r := scheme + "://" + (Head(userinfo, authority) + ("?" + query) + "#");
            Parse(r, json) == Ok(FromParts(r, scheme, userinfo, host, port, "", query))
  {
    var rest := Head(userinfo, authority) + ("?" + query) + "#";
    var r := scheme + "://" + rest;
    TrimEnding(scheme, rest);
    HeadMarks(userinfo, authority);
    MarkCuts(Head(userinfo, authority), query, rest);
    ParseCut(r, scheme, rest, userinfo, authority, host, port, query, "");
    ParseTrimmed(r, scheme, rest, json, FromParts(r, scheme, userinfo, host, port, "", query));
  }

  lemma {:induction false} PlainSni(v: string)
    requires PlainText(v)
    ensures var ps := ParseQuery("sni=" + v);
            && SniOf(ps) == v && Get(ps, "host") == "" && TransportOf(ps) == "tcp" && '#' !in "sni=" + v
  {
    PlainOne("sni", v);
    assert "sni" + "=" + v == "sni=" + v;
    SoleSni(v, [("sni", v)]);
  }

  lemma {:induction false} SoleSni(v: string, ps: Pairs)
    requires ps == [("sni", v)]
    ensures SniOf(ps) == v && Get(ps, "host") == "" && TransportOf(ps) == "tcp"
  {
    SoleGet(v, ps, "sni");
    SoleGet(v, ps, "peer");
    SoleGet(v, ps, "servername");
    SoleGet(v, ps, "type");
    SoleGet(v, ps, "net");
    SoleGet(v, ps, "headerType");
    SoleGet(v, ps, "host");
    First3(ps, "sni", "peer", "servername");
    First3(ps, "type", "net", "headerType");
    assert ToLower("") == "";
  }

  lemma {:induction false} SoleGet(v: string, ps: Pairs, key: string)
    requires ps == [("sni", v)]
    ensures Get(ps, key) == if key == "sni" then v else ""
  {
    assert ps[1..] == [];
  }

  lemma {:induction false} BlankTail(v: string)
    requires v != "" && Solid(v[|v| - 1])
    ensures TrailingSpace(v + " ") == 1 && TrimRight("sni=" + (v + " ")) == "sni=" + v && v + " " != v
  {
    var s := "sni=" + (v + " ");
    assert s[..|s| - 1] == "sni=" + v;
    TrimSolidEnd("sni=" + v);
  }

  lemma {:induction false} BlankQuery(i: Info, query: string, v: string)
    requires i.rawQuery == query && SniOf(ParseQuery(query)) == v != "" && !NeedsHost(i)
    ensures NewQuery(i, "", "") == query
  {
  }

  lemma {:induction false} BlankModes(raw: string, scheme: string, userinfo: string, host: string, port: int,
                                      query: string, v: string)
    requires '#' !in query && SniOf(ParseQuery(query)) == v && TransportOf(ParseQuery(query)) == "tcp"
    ensures var i := FromParts(raw, scheme, userinfo, host, port, "", query); i.sni == v && !NeedsHost(i)
  {
  }

  lemma {:induction false} BlankRelayed(i: Info, query: string, v: string, relay: string, relayPort: int)
    requires i == FromParts(i.raw, i.scheme, i.userinfo, i.host, i.port, "", query)
    requires query == "sni=" + (v + " ") && v != "" && PlainText(v) && Solid(v[|v| - 1])
    ensures i.sni == v + " " && Relayed(i, relay, relayPort, "").sni == v
  {
    PlainSni(v + " ");
    PlainSni(v);
    BlankTail(v);
    BlankModes(i.raw, i.scheme, i.userinfo, i.host, i.port, query, v + " ");
    BlankQuery(i, query, v + " ");
  }

  /** A nameless trojan link whose server name ends in a blank loses the blank on the way through a relay. */
  lemma {:induction false} BlankLost(scheme: string, userinfo: string, authority: string, host: string, port: int,
                                     v: string, relay: string, relayPort: int, json: Codec)
    requires scheme == "trojan" && v != "" && PlainText(v) && Solid(v[|v| - 1]) && Bytes(host)
    requires Spellable(scheme, userinfo, authority, host, port, "sni=" + (v + " "))
    requires PlainHost(relay) && 0 < relayPort <= 65535
    ensures var p := Parse(scheme + "://" + (Head(userinfo, authority) + ("?" + ("sni=" + (v + " "))) + "#"), json);
            && p.Ok? && p.value.sni == v + " "
            && var r := Rewrite(p.value, relay, relayPort, "", "", "", json);
               r.Some? && Parse(r.value, json).Ok? && Parse(r.value, json).value.sni == v
  {
    var query := "sni=" + (v + " ");
    var link := scheme + "://" + (Head(userinfo, authority) + ("?" + query) + "#");
    EmptyMarkParses(scheme, userinfo, authority, host, port, query, json);
    ParsedForm(link, json);
    BlankRelayed(Parse(link, json).value, query, v, relay, relayPort);
    Reparsed(Parse(link, json).value, relay, relayPort, "", json);
  }

  // ---------- keys with an empty value ----------

  lemma {:induction false} EmptySniQuery(query: string, v: string)
    requires query == "sni=" + v && v == ""
    ensures var ps := ParseQuery(query);
            SniOf(ps) == "" && HasKey(ps, "sni") && Get(ps, "host") == "" && TransportOf(ps) == "tcp"
  {
    PlainSni(v);
    PlainOne("sni", v);
    assert "sni" + "=" + v == query;
  }

  /** An `sni=` without a value keeps a trojan link from getting its old address as SNI, and shows up in a chain. */
  lemma {:induction false} EmptySniInput(scheme: string, userinfo: string, authority: string, host: string, port: int,
                                         query: string, name: string, a: string, portA: int, b: string, portB: int,
                                         json: Codec)
    requires scheme == "trojan" && query == "sni=" + "" && Spellable(scheme, userinfo, authority, host, port, query)
    requires Bytes(host) && Bytes(name) && name != ""
    requires PlainHost(a) && 0 < portA <= 65535 && PlainHost(b) && 0 < portB <= 65535
    ensures var p := Parse(Spell(scheme, userinfo, authority, query, EncodeFragment(name)), json);
            && p.Ok?
            && var first := Parse(RewriteURI(p.value, a, portA, "", "", ""), json);
               && first.Ok? && first.value.sni == ""
               && Rewrite(first.value, b, portB, "", "", "", json) != Rewrite(p.value, b, portB, "", "", "", json)
  {
    var link := Spell(scheme, userinfo, authority, query, EncodeFragment(name));
    ParseSpelled(scheme, userinfo, authority, host, port, query, name, json);
    ParsedForm(link, json);
    EmptySniQuery(query, "");
    EmptyBlocks(Parse(link, json).value, a, portA, b, portB, json);
  }

  lemma {:induction false} EmptyBlocks(i: Info, a: string, portA: int, b: string, portB: int, json: Codec)
    requires URIForm(i) && Bytes(i.host) && Bytes(i.name) && i.name != "" && (EmptySni(i) || EmptyHost(i))
    requires PlainHost(a) && 0 < portA <= 65535 && PlainHost(b) && 0 < portB <= 65535
    ensures var first := Parse(RewriteURI(i, a, portA, "", "", ""), json);
            && first.Ok?
            && (EmptySni(i) ==> first.value.sni == "") && (EmptyHost(i) ==> first.value.hostHdr == "")
            && Rewrite(first.value, b, portB, "", "", "", json) != Rewrite(i, b, portB, "", "", "", json)
  {
    Reparsed(i, a, portA, "", json);
    RelayKeepsMeaning(i, a, portA, "");
    ChainInvisibleIff(i, a, portA, "", b, portB, "", json);
  }

  /** A WebSocket query with a Host. */
  function WsPairs(v: string): Pairs {
    [("type", "ws")] + [("host", v)]
  }

  lemma {:induction false} WsPairsSay(v: string, ps: Pairs)
    requires ps == WsPairs(v)
    ensures Get(ps, "host") == v && HasKey(ps, "host") && TransportOf(ps) == "ws"
  {
    assert ps[1..] == [("host", v)];
    FirstStep(ps, "type", ["net", "headerType"]);
    assert ["type"] + ["net", "headerType"] == ["type", "net", "headerType"];
    assert ToLower("ws") == "ws";
  }

  lemma {:induction false} TwoKeys(one: string, k: string, v: string, two: string, l: string, w: string)
    requires one == k + "=" + v && two == l + "=" + w && PlainText(k) && PlainText(v) && PlainText(l) && PlainText(w)
    ensures ParseQuery(one + "&" + two) == [(k, v)] + [(l, w)]
  {
    PlainOne(k, v);
    PlainOne(l, w);
    PlainJoin(one, two, (k, v), [(l, w)]);
  }

  lemma {:induction false} WsQuery(v: string, query: string)
    requires PlainText(v) && query == "type=ws" + "&" + ("host=" + v)
    ensures ParseQuery(query) == WsPairs(v)
  {
    assert "type" + "=" + "ws" == "type=ws" && "host" + "=" + v == "host=" + v;
    TwoKeys("type=ws", "type", "ws", "host=" + v, "host", v);
  }

  lemma {:induction false} WsLink(i: Info, v: string)
    requires i == FromParts(i.raw, i.scheme, i.userinfo, i.host, i.port, i.name, i.rawQuery)
    requires ParseQuery(i.rawQuery) == WsPairs(v)
    ensures NeedsHost(i) && i.hostHdr == v && HasKey(ParseQuery(i.rawQuery), "host")
  {
    WsPairsSay(v, ParseQuery(i.rawQuery));
  }

  /** A `host=` without a value does the same to the Host of a WebSocket link. */
  lemma {:induction false} EmptyHostInput(scheme: string, userinfo: string, authority: string, host: string, port: int,
                                          query: string, name: string, a: string, portA: int, b: string, portB: int,
                                          json: Codec)
    requires query == "type=ws" + "&" + ("host=" + "") && Spellable(scheme, userinfo, authority, host, port, query)
    requires Bytes(host) && Bytes(name) && name != ""
    requires PlainHost(a) && 0 < portA <= 65535 && PlainHost(b) && 0 < portB <= 65535
    ensures var p := Parse(Spell(scheme, userinfo, authority, query, EncodeFragment(name)), json);
            && p.Ok?
            && var first := Parse(RewriteURI(p.value, a, portA, "", "", ""), json);
               && first.Ok? && first.value.hostHdr == ""
               && Rewrite(first.value, b, portB, "", "", "", json) != Rewrite(p.value, b, portB, "", "", "", json)
  {
    var link := Spell(scheme, userinfo, authority, query, EncodeFragment(name));
    ParseSpelled(scheme, userinfo, authority, host, port, query, name, json);
    ParsedForm(link, json);
    WsQuery("", query);
    WsLink(Parse(link, json).value, "");
    EmptyBlocks(Parse(link, json).value, a, portA, b, portB, json);
  }

  /** A WebSocket link that names its Host keeps it whatever override is given. */
  lemma {:induction false} HostOverrideIgnored(scheme: string, userinfo: string, authority: string, host: string,
                                               port: int, v: string, query: string, name: string, relay: string,
                                               relayPort: int, hdr: string, json: Codec)
    requires PlainText(v) && query == "type=ws" + "&" + ("host=" + v)
    requires Spellable(scheme, userinfo, authority, host, port, query) && Bytes(host) && Bytes(name) && name != ""
    requires PlainHost(relay) && 0 < relayPort <= 65535 && Bytes(hdr) && hdr != ""
    ensures var p := Parse(Spell(scheme, userinfo, authority, query, EncodeFragment(name)), json);
            && p.Ok?
            && var r := Parse(RewriteURI(p.value, relay, relayPort, "", "", hdr), json);
               r.Ok? && r.value.hostHdr == v
  {
    var link := Spell(scheme, userinfo, authority, query, EncodeFragment(name));
    ParseSpelled(scheme, userinfo, authority, host, port, query, name, json);
    ParsedForm(link, json);
    WsQuery(v, query);
    var i := Parse(link, json).value;
    WsLink(i, v);
    OverriddenParse(i, relay, relayPort, "", "", hdr, json);
    OverriddenHost(i, Parse(RewriteURI(i, relay, relayPort, "", "", hdr), json).value, "", hdr);
  }
}

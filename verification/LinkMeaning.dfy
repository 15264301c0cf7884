/** What a rewrite keeps and what it fills in, and why a chain of relays is invisible. */
module LinkMeaning {
  import opened Wrappers
  import opened Text
  import opened Percent
  import opened Query
  import opened HostPort
  import opened Link
  import opened LinkReparse

  // ---------- the first of several keys ----------

  lemma {:induction false} FirstStep(ps: Pairs, a: string, rest: seq<string>)
    ensures GetFirst(ps, [a] + rest) == OrElse(Get(ps, a), GetFirst(ps, rest))
  {
    assert ([a] + rest)[1..] == rest;
  }

  lemma {:induction false} First1(ps: Pairs, a: string)
    ensures GetFirst(ps, [a]) == Get(ps, a)
  {
    FirstStep(ps, a, []);
    assert [a] + [] == [a];
  }

  lemma {:induction false} First2(ps: Pairs, a: string, b: string)
    ensures GetFirst(ps, [a, b]) == OrElse(Get(ps, a), Get(ps, b))
  {
    FirstStep(ps, a, [b]);
    First1(ps, b);
    assert [a] + [b] == [a, b];
  }

  lemma {:induction false} First3(ps: Pairs, a: string, b: string, c: string)
    ensures GetFirst(ps, [a, b, c]) == OrElse(OrElse(Get(ps, a), Get(ps, b)), Get(ps, c))
  {
    FirstStep(ps, a, [b, c]);
    First2(ps, b, c);
    assert [a] + [b, c] == [a, b, c];
  }

  // ---------- the pairs of the rewritten query ----------

  function Pair(k: string, v: string): Pairs {
    if v == "" then [] else [(k, v)]
  }

  lemma {:induction false} EscapeSafe(s: string)
    ensures var e := QueryEscape(s); '&' !in e && ';' !in e && '=' !in e
  {
    EscapeAlphabet(s);
  }

  lemma {:induction false} EscapeParses(k: string, v: string)
    requires Bytes(k) && Bytes(v)
    ensures ParseQuery(QueryEscape(k) + "=" + QueryEscape(v)) == [(k, v)]
  {
    EscapeSafe(k);
    EscapeSafe(v);
    QueryRoundTrip(k);
    QueryRoundTrip(v);
    ParseOne(QueryEscape(k), QueryEscape(v));
  }

  /** A parameter is added at the end of the list of pairs. */
  lemma {:induction false} AddParamPairs(query: string, k: string, v: string)
    requires Bytes(k) && Bytes(v)
    ensures ParseQuery(AddParam(query, k, v)) == ParseQuery(query) + Pair(k, v)
  {
    EscapeParses(k, v);
    if v != "" {
      if query == "" {
        ParseEmpty();
        assert AddParam(query, k, v) == QueryEscape(k) + "=" + QueryEscape(v);
        assert [] + Pair(k, v) == Pair(k, v);
      } else {
        ParseJoin(query, QueryEscape(k) + "=" + QueryEscape(v));
      }
    } else {
      assert ParseQuery(query) + [] == ParseQuery(query);
    }
  }

  lemma {:induction false} TwoParams(query: string, k: string, v: string, k2: string, v2: string)
    requires Bytes(k) && Bytes(v) && Bytes(k2) && Bytes(v2)
    ensures ParseQuery(AddParam(AddParam(query, k, v), k2, v2)) == ParseQuery(query) + Pair(k, v) + Pair(k2, v2)
  {
    AddParamPairs(query, k, v);
    AddParamPairs(AddParam(query, k, v), k2, v2);
  }

  /** The pairs of a rewritten query: the old ones, then sni, then host. */
  lemma {:induction false} NewPairs(i: Info, sni: string, hdr: string)
    requires Bytes(SniParam(i, sni)) && Bytes(HostParam(i, hdr))
    ensures ParseQuery(NewQuery(i, sni, hdr))
         == ParseQuery(i.rawQuery) + Pair("sni", SniParam(i, sni)) + Pair("host", HostParam(i, hdr))
  {
    TwoParams(i.rawQuery, "sni", SniParam(i, sni), "host", HostParam(i, hdr));
  }

  lemma {:induction false} GetPair(k: string, v: string, key: string)
    ensures Get(Pair(k, v), key) == if k == key then v else ""
    ensures HasKey(Pair(k, v), key) <==> k == key && v != ""
  {
  }

  /** First-match lookup in the new pairs: an old key keeps its old first value. */
  lemma {:induction false} GetNew(ps: Pairs, sni: string, host: string, k: string)
    ensures Get(ps + Pair("sni", sni) + Pair("host", host), k)
         == if HasKey(ps, k) then Get(ps, k) else if k == "sni" then sni else if k == "host" then host else ""
  {
    var a, b := Pair("sni", sni), Pair("host", host);
    GetJoin(ps, a + b, k);
    GetJoin(a, b, k);
    GetPair("sni", sni, k);
    GetPair("host", host, k);
    assert (ps + a) + b == ps + (a + b);
  }

  /** Keys other than sni and host read as before. */
  lemma {:induction false} OtherKey(ps: Pairs, sni: string, host: string, k: string)
    requires k != "sni" && k != "host"
    ensures Get(ps + Pair("sni", sni) + Pair("host", host), k) == Get(ps, k)
  {
    GetNew(ps, sni, host, k);
    GetMissing(ps, k);
  }

  lemma {:induction false} OtherKeys(ps: Pairs, sni: string, host: string, keys: seq<string>)
    requires "sni" !in keys && "host" !in keys
    ensures GetFirst(ps + Pair("sni", sni) + Pair("host", host), keys) == GetFirst(ps, keys)
  {
    if keys != [] {
      OtherKey(ps, sni, host, keys[0]);
      OtherKeys(ps, sni, host, keys[1..]);
    }
  }

  /** The server name seen in the new pairs. */
  lemma {:induction false} NewSni(ps: Pairs, sni: string, host: string)
    ensures SniOf(ps + Pair("sni", sni) + Pair("host", host))
         == if HasKey(ps, "sni") || sni == "" then SniOf(ps) else sni
  {
    var qs := ps + Pair("sni", sni) + Pair("host", host);
    GetNew(ps, sni, host, "sni");
    GetMissing(ps, "sni");
    var rest := ["peer", "servername"];
    OtherKeys(ps, sni, host, rest);
    assert SNI_KEYS[1..] == rest;
  }

  // ---------- meaning ----------

  /** A default is needed for a key that is present with an empty first value. */
  predicate EmptySni(i: Info) {
    NeedsSni(i) && i.sni == "" && HasKey(ParseQuery(i.rawQuery), "sni")
  }

  predicate EmptyHost(i: Info) {
    NeedsHost(i) && i.hostHdr == "" && HasKey(ParseQuery(i.rawQuery), "host")
  }

  /** The link carries a name, or its query does not end in white space. */
  predicate EndKept(i: Info, name: string) {
    NewName(i, name) != "" || TrailingSpace(NewQuery(i, "", "")) == 0
  }

  /** The query that is read back after a rewrite without overrides. */
  function ReadQuery(i: Info, name: string): string {
    if NewName(i, name) == "" then TrimRight(NewQuery(i, "", "")) else NewQuery(i, "", "")
  }

  /** The link that is read back after a rewrite without overrides. */
  function Relayed(i: Info, host: string, port: int, name: string): Info {
    FromParts(TrimSpace(RewriteURI(i, host, port, name, "", "")), i.scheme, i.userinfo, host, port,
              NewName(i, name), ReadQuery(i, name))
  }

  lemma {:induction false} Reparsed(i: Info, host: string, port: int, name: string, json: Codec)
    requires URIForm(i) && PlainHost(host) && 0 < port <= 65535 && Bytes(NewName(i, name))
    ensures Rewrite(i, host, port, name, "", "", json) == Some(RewriteURI(i, host, port, name, "", ""))
    ensures Parse(RewriteURI(i, host, port, name, "", ""), json) == Ok(Relayed(i, host, port, name))
  {
    RewriteReparses(i, host, port, name, "", "", json);
  }

  lemma {:induction false} SolidTail(p: string, q: string)
    requires q != "" && forall c :: c in q ==> EscapeChar(c)
    ensures TrailingSpace(p + q) == 0
  {
    assert q[|q| - 1] in q && (p + q)[|p + q| - 1] == q[|q| - 1];
  }

  /** An added parameter ends in no white space. */
  lemma {:induction false} AddParamEnd(query: string, k: string, v: string)
    ensures AddParam(query, k, v) == query || TrailingSpace(AddParam(query, k, v)) == 0
  {
    if v != "" {
      var front := if query != "" then query + "&" else "";
      EscapedChars(v);
      SolidTail(front + (QueryEscape(k) + "="), QueryEscape(v));
      Assoc(front, QueryEscape(k) + "=", QueryEscape(v));
    }
  }

  /** So a new query that ends in white space is the old one. */
  lemma {:induction false} NewQueryEnd(i: Info, sni: string, hdr: string)
    ensures NewQuery(i, sni, hdr) == i.rawQuery || TrailingSpace(NewQuery(i, sni, hdr)) == 0
  {
    AddParamEnd(i.rawQuery, "sni", SniParam(i, sni));
    AddParamEnd(AddParam(i.rawQuery, "sni", SniParam(i, sni)), "host", HostParam(i, hdr));
  }

  lemma {:induction false} ReadQueryIs(i: Info, name: string)
    ensures ReadQuery(i, name) == if EndKept(i, name) then NewQuery(i, "", "") else TrimRight(i.rawQuery)
    ensures !EndKept(i, name) ==> NewQuery(i, "", "") == i.rawQuery
  {
    NewQueryEnd(i, "", "");
  }

  lemma {:induction false} FreshParams(i: Info)
    requires Bytes(i.host)
    ensures Bytes(SniParam(i, "")) && Bytes(HostParam(i, ""))
  {
  }

  /** Transport and TLS are read from keys that a rewrite does not add. */
  lemma {:induction false} SameModes(scheme: string, ps: Pairs, sni: string, host: string)
    ensures var qs := ps + Pair("sni", sni) + Pair("host", host);
            TransportOf(qs) == TransportOf(ps) && TlsOf(scheme, qs) == TlsOf(scheme, ps)
  {
    OtherKeys(ps, sni, host, ["type", "net", "headerType"]);
    OtherKeys(ps, sni, host, ["security", "tls"]);
  }

  lemma {:induction false} NewHost(ps: Pairs, sni: string, host: string)
    ensures Get(ps + Pair("sni", sni) + Pair("host", host), "host")
         == if HasKey(ps, "host") || host == "" then Get(ps, "host") else host
  {
    GetNew(ps, sni, host, "host");
    GetMissing(ps, "host");
  }

  lemma {:induction false} AddParamGrows(query: string, k: string, v: string)
    ensures v == "" ==> AddParam(query, k, v) == query
    ensures v != "" ==> |AddParam(query, k, v)| > |query|
  {
  }

  lemma {:induction false} TwoParamsGrow(query: string, k: string, v: string, k2: string, v2: string)
    ensures var p := AddParam(AddParam(query, k, v), k2, v2);
            if v == "" && v2 == "" then p == query else |p| > |query|
  {
    AddParamGrows(query, k, v);
    AddParamGrows(AddParam(query, k, v), k2, v2);
  }

  /** What a relay keeps: transport, TLS, the need for UDP and the userinfo stay; SNI and Host are the
      original ones, or, where the link needs one and has none, the original address. An empty-valued
      `sni=` or `host=` is the one thing that stands in the way of that default. */
  ghost predicate SameMeaning(i: Info, j: Info) {
    && j.scheme == i.scheme && j.userinfo == i.userinfo
    && j.transport == i.transport && j.tls == i.tls && j.udp == i.udp
    && j.sni == (if i.sni == "" && NeedsSni(i) && !EmptySni(i) then i.host else i.sni)
    && j.hostHdr == (if i.hostHdr == "" && NeedsHost(i) && !EmptyHost(i) then i.host else i.hostHdr)
  }

  lemma {:induction false} RelayKeepsMeaning(i: Info, host: string, port: int, name: string)
    requires URIForm(i) && Bytes(i.host) && EndKept(i, name)
    ensures SameMeaning(i, Relayed(i, host, port, name))
  {
    var ps, s, h := ParseQuery(i.rawQuery), SniParam(i, ""), HostParam(i, "");
    ReadQueryIs(i, name);
    FreshParams(i);
    NewPairs(i, "", "");
    SameModes(i.scheme, ps, s, h);
    NewSni(ps, s, h);
    NewHost(ps, s, h);
  }

  /** The link without the white space at the end of its query. */
  function Shortened(i: Info): Info {
    FromParts(i.raw, i.scheme, i.userinfo, i.host, i.port, i.name, TrimRight(i.rawQuery))
  }

  /** The white space at the end of the query says nothing. */
  predicate IdleEnd(i: Info) {
    var t := Shortened(i);
    t.transport == i.transport && t.tls == i.tls && t.udp == i.udp && t.sni == i.sni && t.hostHdr == i.hostHdr
  }

  lemma {:induction false} NothingAdded(i: Info)
    requires PlainHost(i.host) && i == FromParts(i.raw, i.scheme, i.userinfo, i.host, i.port, i.name, i.rawQuery)
    requires NewQuery(i, "", "") == i.rawQuery
    ensures (NeedsSni(i) ==> i.sni != "") && (NeedsHost(i) ==> i.hostHdr != "")
  {
    TwoParamsGrow(i.rawQuery, "sni", SniParam(i, ""), "host", HostParam(i, ""));
  }

  /** White space that is lost at the end of the query changes the meaning unless it says nothing. */
  lemma {:induction false} ShortenedMeaningIff(i: Info, host: string, port: int, name: string)
    requires URIForm(i) && !EndKept(i, name)
    ensures SameMeaning(i, Relayed(i, host, port, name)) <==> IdleEnd(i)
  {
    ReadQueryIs(i, name);
    NothingAdded(i);
  }

  lemma {:induction false} OverriddenSni(i: Info, j: Info, sni: string, hdr: string)
    requires Bytes(i.host) && Bytes(sni) && Bytes(hdr) && sni != "" && NeedsSni(i)
    requires j.sni == SniOf(ParseQuery(NewQuery(i, sni, hdr)))
    ensures j.sni == if HasKey(ParseQuery(i.rawQuery), "sni") then SniOf(ParseQuery(i.rawQuery)) else sni
  {
    var ps, s, h := ParseQuery(i.rawQuery), SniParam(i, sni), HostParam(i, hdr);
    NewPairs(i, sni, hdr);
    NewSni(ps, s, h);
  }

  /** A query with an override ends in that override or in a default, so nothing is lost at its end. */
  lemma {:induction false} OverriddenParse(i: Info, host: string, port: int, name: string, sni: string, hdr: string,
                                           json: Codec)
    requires URIForm(i) && PlainHost(host) && 0 < port <= 65535 && Bytes(NewName(i, name))
    requires SniParam(i, sni) != "" || HostParam(i, hdr) != ""
    ensures var p := Parse(RewriteURI(i, host, port, name, sni, hdr), json);
            && p.Ok? && p.value.sni == SniOf(ParseQuery(NewQuery(i, sni, hdr)))
            && p.value.hostHdr == Get(ParseQuery(NewQuery(i, sni, hdr)), "host")
  {
    TwoParamsGrow(i.rawQuery, "sni", SniParam(i, sni), "host", HostParam(i, hdr));
    NewQueryEnd(i, sni, hdr);
    URIReparses(i, host, port, name, sni, hdr, json);
  }

  /** An SNI override is appended: it takes effect exactly when no sni key was there, or it changes nothing. */
  lemma {:induction false} OverrideTakesEffectIff(i: Info, host: string, port: int, name: string, sni: string,
          hdr: string, json: Codec)
    requires URIForm(i) && PlainHost(host) && 0 < port <= 65535 && Bytes(NewName(i, name))
    requires Bytes(i.host) && Bytes(sni) && Bytes(hdr) && sni != "" && NeedsSni(i)
    ensures var p := Parse(RewriteURI(i, host, port, name, sni, hdr), json);
            p.Ok? && (p.value.sni == sni <==> !HasKey(ParseQuery(i.rawQuery), "sni") || i.sni == sni)
  {
    OverriddenParse(i, host, port, name, sni, hdr, json);
    OverriddenSni(i, Parse(RewriteURI(i, host, port, name, sni, hdr), json).value, sni, hdr);
  }

  lemma {:induction false} OverriddenHost(i: Info, j: Info, sni: string, hdr: string)
    requires Bytes(i.host) && Bytes(sni) && Bytes(hdr) && hdr != "" && NeedsHost(i)
    requires j.hostHdr == Get(ParseQuery(NewQuery(i, sni, hdr)), "host")
    ensures j.hostHdr == if HasKey(ParseQuery(i.rawQuery), "host") then Get(ParseQuery(i.rawQuery), "host") else hdr
  {
    NewPairs(i, sni, hdr);
    NewHost(ParseQuery(i.rawQuery), SniParam(i, sni), HostParam(i, hdr));
  }

  /** A Host override likewise. */
  lemma {:induction false} HostOverrideTakesEffectIff(i: Info, host: string, port: int, name: string, sni: string,
                                                      hdr: string, json: Codec)
    requires URIForm(i) && PlainHost(host) && 0 < port <= 65535 && Bytes(NewName(i, name))
    requires Bytes(i.host) && Bytes(sni) && Bytes(hdr) && hdr != "" && NeedsHost(i)
    ensures var p := Parse(RewriteURI(i, host, port, name, sni, hdr), json);
            p.Ok? && (p.value.hostHdr == hdr <==> !HasKey(ParseQuery(i.rawQuery), "host") || i.hostHdr == hdr)
  {
    OverriddenParse(i, host, port, name, sni, hdr, json);
    OverriddenHost(i, Parse(RewriteURI(i, host, port, name, sni, hdr), json).value, sni, hdr);
  }

  // ---------- from the text of a link ----------

  lemma {:induction false} TrimBytes(s: string)
    requires Bytes(s)
    ensures Bytes(TrimSpace(s))
  {
    LeftBytes(s);
  }

  lemma {:induction false} LeftBytes(s: string)
    requires Bytes(s)
    ensures Bytes(TrimLeft(s))
    decreases |s|
  {
    var n := LeadingSpace(s);
    if n != 0 {
      LeftBytes(s[n..]);
    }
  }

  lemma {:induction false} UnescapeBytes(s: string)
    requires Bytes(s) && QueryUnescape(s).Some?
    ensures Bytes(QueryUnescape(s).value)
    decreases |s|
  {
    if s != "" {
      UnescapeBytes(s[if s[0] == '%' then 3 else 1..]);
    }
  }

  lemma {:induction false} FragmentBytes(f: string)
    requires Bytes(f)
    ensures Bytes(DecodeFragment(f))
  {
    if QueryUnescape(f).Some? {
      UnescapeBytes(f);
    }
  }

  lemma {:induction false} BytesIn(s: string, t: string)
    requires Bytes(t) && forall c :: c in s ==> c in t
    ensures Bytes(s)
  {
    forall k | 0 <= k < |s|
      ensures s[k] < 256 as char
    {
      assert s[k] in t;
    }
  }

  lemma {:induction false} ParsedBodyBytes(raw: string, scheme: string, rest: string)
    requires Bytes(rest) && ParseURI(raw, scheme, rest).Ok?
    ensures Bytes(ParseURI(raw, scheme, rest).value.host) && Bytes(ParseURI(raw, scheme, rest).value.name)
  {
    var frag, body := After(rest, '#'), Before(rest, '#');
    var head := Before(body, '?');
    CutChars(rest, '#');
    CutChars(body, '?');
    BytesIn(frag, rest);
    FragmentBytes(frag);
    var at := LastIndexByte(head, '@');
    var authority := if at >= 0 then head[at + 1..] else head;
    assert forall x :: x in authority ==> x in head;
    SplitHostClean(authority);
    var host := SplitHostPort(authority).value.0;
    assert forall x :: x in host ==> x in rest;
    BytesIn(host, rest);
  }

  lemma {:induction false} ParsedBytes(link: string, json: Codec)
    requires Bytes(link) && Parse(link, json).Ok?
    requires Parse(link, json).value.scheme != "vmess" && Parse(link, json).value.scheme != "ss"
    ensures Bytes(Parse(link, json).value.host) && Bytes(Parse(link, json).value.name)
  {
    ParsedURI(link, json);
    TrimBytes(link);
    var raw := TrimSpace(link);
    var idx := IndexSep(raw);
    ParsedBodyBytes(raw, ToLower(raw[..idx]), raw[idx + 3..]);
  }

  /** A rewrite preserves meaning: every link that parses (vless, trojan, hysteria2, tuic and the other URI forms) can
      be rewritten to any plain host, valid port and name, and what is read back is at the new address. It means the
      same exactly when the link carries a name, or no white space at the end of its query said anything. */
  lemma {:induction false} RelayTheorem(link: string, host: string, port: int, name: string, json: Codec)
    requires Bytes(link) && Parse(link, json).Ok?
    requires Parse(link, json).value.scheme != "vmess" && Parse(link, json).value.scheme != "ss"
    requires PlainHost(host) && 0 < port <= 65535 && Bytes(name)
    ensures var i := Parse(link, json).value;
            var r := Rewrite(i, host, port, name, "", "", json);
            && r.Some? && Parse(r.value, json).Ok?
            && var j := Parse(r.value, json).value;
               && j.host == host && j.port == port && j.name == NewName(i, name)
               && (SameMeaning(i, j) <==> EndKept(i, name) || IdleEnd(i))
  {
    var i := Parse(link, json).value;
    ParsedForm(link, json);
    ParsedBytes(link, json);
    Reparsed(i, host, port, name, json);
    if EndKept(i, name) {
      RelayKeepsMeaning(i, host, port, name);
    } else {
      ShortenedMeaningIff(i, host, port, name);
    }
  }

  // ---------- relay chains ----------

  lemma {:induction false} Cancel(p: string, x: string, y: string)
    ensures p + x == p + y ==> x == y
  {
    assert (p + x)[|p|..] == x && (p + y)[|p|..] == y;
  }

  /** A link's query and fragment can be told from its text. */
  lemma {:induction false} SpellInjective(scheme: string, userinfo: string, authority: string, q: string, f: string,
                                          p: string, g: string)
    requires '#' !in q && '#' !in p
    ensures Spell(scheme, userinfo, authority, q, f) == Spell(scheme, userinfo, authority, p, g) <==> q == p && f == g
  {
    var front := scheme + "://" + Head(userinfo, authority);
    SpellTail(scheme, userinfo, authority, q, f);
    SpellTail(scheme, userinfo, authority, p, g);
    Cancel(front, Opt('?', q) + Opt('#', f), Opt('?', p) + Opt('#', g));
    CutTail(Opt('?', q), '#', f);
    CutTail(Opt('?', p), '#', g);
    Cancel("?", q, p);
  }

  lemma {:induction false} SpellTail(scheme: string, userinfo: string, authority: string, q: string, f: string)
    ensures Spell(scheme, userinfo, authority, q, f)
         == scheme + "://" + Head(userinfo, authority) + (Opt('?', q) + Opt('#', f))
  {
    var a, h := scheme + "://", Head(userinfo, authority);
    SpellGroups(scheme, userinfo, authority, q, f);
    Assoc(h, Opt('?', q), Opt('#', f));
    Assoc(a, h, Opt('?', q) + Opt('#', f));
  }

  /** What the second relay adds to the query of the first: a default only where an empty value blocked it before. */
  lemma {:induction false} SecondRelay(i: Info, j: Info)
    requires URIForm(i) && Bytes(i.host) && j.host != "" && SameMeaning(i, j)
    requires j == FromParts(j.raw, i.scheme, i.userinfo, j.host, j.port, j.name, NewQuery(i, "", ""))
    ensures SniParam(j, "") != "" <==> EmptySni(i)
    ensures HostParam(j, "") != "" <==> EmptyHost(i)
  {
    GetMissing(ParseQuery(i.rawQuery), "host");
    assert SniParam(j, "") != "" <==> NeedsSni(j) && j.sni == "";
    assert HostParam(j, "") != "" <==> NeedsHost(j) && j.hostHdr == "";
  }

  /** When the second relay's query is that of a direct rewrite. */
  lemma {:induction false} SecondQueryIff(i: Info, a: string, portA: int, nameA: string)
    requires URIForm(i) && Bytes(i.host) && a != ""
    ensures NewQuery(Relayed(i, a, portA, nameA), "", "") == NewQuery(i, "", "")
            <==> !EmptySni(i) && !EmptyHost(i) && EndKept(i, nameA)
  {
    var j := Relayed(i, a, portA, nameA);
    ReadQueryIs(i, nameA);
    if EndKept(i, nameA) {
      RelayKeepsMeaning(i, a, portA, nameA);
      SecondRelay(i, j);
      TwoParamsGrow(j.rawQuery, "sni", SniParam(j, ""), "host", HostParam(j, ""));
    } else {
      NewQueryEnd(j, "", "");
    }
  }

  lemma {:induction false} FragmentsDiffer(m: string, n: string)
    requires Bytes(m) && Bytes(n)
    ensures EncodeFragment(m) == EncodeFragment(n) <==> m == n
  {
    FragmentRoundTrip(m);
    FragmentRoundTrip(n);
  }

  /** When the second relay's name is that of a direct rewrite. */
  predicate NameKept(i: Info, nameA: string, nameB: string) {
    nameB != "" || nameA == "" || nameA == i.name
  }

  lemma {:induction false} SecondNameIff(i: Info, j: Info, nameA: string, nameB: string)
    requires Bytes(i.name) && Bytes(NewName(i, nameA)) && j.name == NewName(i, nameA)
    ensures EncodeFragment(NewName(j, nameB)) == EncodeFragment(NewName(i, nameB)) <==> NameKept(i, nameA, nameB)
  {
    FragmentsDiffer(i.name, NewName(i, nameA));
  }

  lemma {:induction false} RelayedChain(i: Info, a: string, portA: int, nameA: string, b: string, portB: int,
                                        nameB: string)
    requires URIForm(i) && Bytes(i.host) && Bytes(i.name) && Bytes(NewName(i, nameA)) && a != ""
    ensures RewriteURI(Relayed(i, a, portA, nameA), b, portB, nameB, "", "") == RewriteURI(i, b, portB, nameB, "", "")
            <==> !EmptySni(i) && !EmptyHost(i) && EndKept(i, nameA) && NameKept(i, nameA, nameB)
  {
    var j := Relayed(i, a, portA, nameA);
    SecondQueryIff(i, a, portA, nameA);
    SecondNameIff(i, j, nameA, nameB);
    NewQueryChars(i, "", "");
    NewQueryChars(j, "", "");
    SpellInjective(i.scheme, i.userinfo, JoinHostPort(b, portB), NewQuery(j, "", ""),
        EncodeFragment(NewName(j, nameB)), NewQuery(i, "", ""), EncodeFragment(NewName(i, nameB)));
  }

  lemma {:induction false} RelayedIsURI(i: Info, a: string, portA: int, nameA: string, b: string, portB: int,
                                        nameB: string, json: Codec)
    requires b != "" && 0 < portB <= 65535
    ensures var j := Relayed(i, a, portA, nameA);
            Rewrite(j, b, portB, nameB, "", "", json) == Some(RewriteURI(j, b, portB, nameB, "", ""))
  {
  }

  /** Relay chaining is invisible: a link rewritten to relay A, parsed, and rewritten to relay B is letter for letter
      the link rewritten to B directly, exactly when no empty-valued `sni=` or `host=` blocks a default, the first
      link does not end in white space, and the first relay's name does not show. */
  lemma {:induction false} ChainInvisibleIff(i: Info, a: string, portA: int, nameA: string, b: string, portB: int,
                                             nameB: string, json: Codec)
    requires URIForm(i) && Bytes(i.host) && Bytes(i.name) && Bytes(NewName(i, nameA))
    requires PlainHost(a) && 0 < portA <= 65535 && b != "" && 0 < portB <= 65535
    ensures var first := Parse(RewriteURI(i, a, portA, nameA, "", ""), json);
            && first.Ok?
            && (Rewrite(first.value, b, portB, nameB, "", "", json) == Rewrite(i, b, portB, nameB, "", "", json)
                <==> !EmptySni(i) && !EmptyHost(i) && EndKept(i, nameA) && NameKept(i, nameA, nameB))
  {
    Reparsed(i, a, portA, nameA, json);
    RelayedChain(i, a, portA, nameA, b, portB, nameB);
    RewriteIsURI(i, b, portB, nameB, "", "", json);
    RelayedIsURI(i, a, portA, nameA, b, portB, nameB, json);
  }

  /** So a rewrite is idempotent: reading the rewritten link and rewriting it to the same relay gives the same link. */
  lemma {:induction false} RewriteIdempotentIff(i: Info, a: string, port: int, name: string, json: Codec)
    requires URIForm(i) && Bytes(i.host) && Bytes(i.name) && Bytes(NewName(i, name))
    requires PlainHost(a) && 0 < port <= 65535
    ensures var first := Parse(RewriteURI(i, a, port, name, "", ""), json);
            && first.Ok?
            && (Rewrite(first.value, a, port, name, "", "", json) == Rewrite(i, a, port, name, "", "", json)
                <==> !EmptySni(i) && !EmptyHost(i) && EndKept(i, name))
  {
    ChainInvisibleIff(i, a, port, name, a, port, name, json);
  }
}

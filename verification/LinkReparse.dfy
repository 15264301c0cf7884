/** Parsing what was rewritten: a rewritten link reads back as the same link at the new address. */
module LinkReparse {
  import opened Wrappers
  import opened Text
  import opened Percent
  import opened HostPort
  import opened Link

  // ---------- cutting at a mark ----------

  lemma {:induction false} CutAt(a: string, c: char, b: string)
    requires c !in a
    ensures Before(a + [c] + b, c) == a && After(a + [c] + b, c) == b
  {
    var s := a + [c] + b;
    IndexAfter(a, c, b);
    assert s[..|a|] == a && s[|a| + 1..] == b;
  }

  /** `tail` is either empty or starts with the mark. */
  lemma {:induction false} CutTail(a: string, c: char, b: string)
    requires c !in a
    ensures Before(a + (if b != "" then [c] + b else ""), c) == a
    ensures After(a + (if b != "" then [c] + b else ""), c) == b
  {
    if b != "" {
      CutAt(a, c, b);
      assert a + ([c] + b) == a + [c] + b;
    } else {
      assert a + "" == a;
    }
  }

  lemma {:induction false} CutChars(s: string, c: char)
    ensures c !in Before(s, c)
    ensures forall x :: x in Before(s, c) ==> x in s
    ensures forall x :: x in After(s, c) ==> x in s
  {
  }

  // ---------- trimming ----------

  lemma {:induction false} TrailingSame(p: string, q: string)
    requires p != "" && Solid(p[|p| - 1])
    ensures TrailingSpace(p + q) == TrailingSpace(q)
  {
    var s, k, m := p + q, |p + q|, |q|;
    assert m >= 1 ==> s[k - 1] == q[m - 1];
    assert m >= 2 ==> s[k - 2] == q[m - 2];
    assert m >= 3 ==> s[k - 3] == q[m - 3];
    assert s[k - m - 1] == p[|p| - 1];
  }

  lemma {:induction false} TrimRightKeeps(p: string, q: string)
    requires p != "" && Solid(p[|p| - 1])
    ensures TrimRight(p + q) == p + TrimRight(q)
    decreases |q|
  {
    var n := TrailingSpace(q);
    TrailingSame(p, q);
    if n != 0 {
      var rest := q[..|q| - n];
      assert (p + q)[..|p + q| - n] == p + rest;
      TrimRightKeeps(p, rest);
    }
  }

  lemma {:induction false} TrimSolidEnd(s: string)
    requires s != "" && Solid(s[|s| - 1])
    ensures TrimRight(s) == s
  {
    TrimRightKeeps(s, "");
    assert s + "" == s;
    assert TrimRight("") == "";
  }

  lemma {:induction false} TrimSolidStart(s: string)
    requires s != "" && Solid(s[0])
    ensures TrimSpace(s) == TrimRight(s)
  {
  }

  // ---------- the parts of a spelled link ----------

  /** What a spelled link can be cut apart at: no part holds a mark that would be found too early. */
  ghost predicate Separable(scheme: string, userinfo: string, authority: string, query: string) {
    && ValidScheme(scheme)
    && '#' !in userinfo && '?' !in userinfo
    && '#' !in authority && '?' !in authority && '@' !in authority
    && '#' !in query
  }

  function Head(userinfo: string, authority: string): string {
    (if userinfo != "" then userinfo + "@" else "") + authority
  }

  function Opt(mark: char, text: string): string {
    if text != "" then [mark] + text else ""
  }

  /** Spell, grouped the way it is cut apart. */
  lemma {:induction false} SpellGroups(scheme: string, userinfo: string, authority: string, query: string, frag: string)
    ensures Spell(scheme, userinfo, authority, query, frag)
         == scheme + "://" + ((Head(userinfo, authority) + Opt('?', query)) + Opt('#', frag))
  {
    var user := if userinfo != "" then userinfo + "@" else "";
    assert "?" + query == ['?'] + query && "#" + frag == ['#'] + frag;
    Regroup4(scheme + "://", user, authority, Opt('?', query), Opt('#', frag));
  }

  lemma {:induction false} Regroup4(a: string, b: string, c: string, d: string, e: string)
    ensures a + b + c + d + e == a + (((b + c) + d) + e)
  {
  }

  lemma {:induction false} SchemeIndex(scheme: string, rest: string)
    requires ValidScheme(scheme)
    ensures var s := scheme + "://" + rest;
            && IndexSep(s) == |scheme| > 0 && s[..|scheme|] == scheme && s[|scheme| + 3..] == rest
    ensures ToLower(scheme) == scheme
    ensures Solid((scheme + "://" + rest)[0])
  {
    var s := scheme + "://" + rest;
    assert ':' !in scheme;
    IndexSepAfter(scheme, rest);
    assert SchemeChar(scheme[0], 0);
    assert s[0] == scheme[0];
    forall i | 0 <= i < |scheme|
      ensures Lower(scheme[i]) == scheme[i]
    {
      assert SchemeChar(scheme[i], i);
    }
  }

  lemma {:induction false} HeadParts(userinfo: string, authority: string)
    requires '@' !in authority
    ensures var h := Head(userinfo, authority);
            var at := LastIndexByte(h, '@');
            && (if at >= 0 then h[..at] else "") == userinfo
            && (if at >= 0 then h[at + 1..] else h) == authority
  {
    var h := Head(userinfo, authority);
    if userinfo != "" {
      assert h == userinfo + ['@'] + authority;
      LastIndexBefore(userinfo, '@', authority);
      assert h[..|userinfo|] == userinfo && h[|userinfo| + 1..] == authority;
    } else {
      assert h == authority;
    }
  }

  lemma {:induction false} ParseCut(raw: string, scheme: string, rest: string, userinfo: string, authority: string,
                                    host: string, port: int, query: string, frag: string)
    requires After(rest, '#') == frag
    requires Before(Before(rest, '#'), '?') == Head(userinfo, authority) && After(Before(rest, '#'), '?') == query
    requires '@' !in authority && SplitHostPort(authority) == Some((host, port))
    ensures ParseURI(raw, scheme, rest) == Ok(FromParts(raw, scheme, userinfo, host, port, DecodeFragment(frag), query))
  {
    HeadParts(userinfo, authority);
  }

  /** Where a spelled body is cut. */
  lemma {:induction false} BodyCuts(userinfo: string, authority: string, query: string, frag: string)
    requires '#' !in userinfo && '?' !in userinfo && '#' !in authority && '?' !in authority && '#' !in query
    ensures var rest := (Head(userinfo, authority) + Opt('?', query)) + Opt('#', frag);
            && After(rest, '#') == frag
            && Before(Before(rest, '#'), '?') == Head(userinfo, authority) && After(Before(rest, '#'), '?') == query
  {
    var h := Head(userinfo, authority);
    assert '#' !in h && '?' !in h;
    CutTail(h + Opt('?', query), '#', frag);
    CutTail(h, '?', query);
  }

  /** The same for a body that ends in its query, which may have been trimmed to nothing. */
  lemma {:induction false} BareCuts(userinfo: string, authority: string, query: string)
    requires '#' !in userinfo && '?' !in userinfo && '#' !in authority && '?' !in authority && '#' !in query
    ensures var rest := (Head(userinfo, authority) + ("?" + query)) + "";
            && After(rest, '#') == ""
            && Before(Before(rest, '#'), '?') == Head(userinfo, authority) && After(Before(rest, '#'), '?') == query
  {
    var h := Head(userinfo, authority);
    assert '#' !in h && '?' !in h;
    var body := h + ("?" + query);
    AppendNothing(body);
    CutTail(body, '#', "");
    assert body == h + ['?'] + query;
    CutAt(h, '?', query);
  }

  // ---------- links that Parse produced ----------

  /** The form of a successfully parsed URI link. */
  ghost predicate URIForm(i: Info) {
    && ValidScheme(i.scheme) && i.scheme != "vmess" && i.scheme != "ss"
    && '#' !in i.userinfo && '?' !in i.userinfo && '#' !in i.rawQuery
    && PlainHost(i.host) && 0 < i.port <= 65535
    && i == FromParts(i.raw, i.scheme, i.userinfo, i.host, i.port, i.name, i.rawQuery)
  }

  lemma {:induction false} HostOfAuthority(authority: string)
    requires SplitHostPort(authority).Some? && '@' !in authority && '?' !in authority && '#' !in authority
    requires SplitHostPort(authority).value.0 != ""
    ensures PlainHost(SplitHostPort(authority).value.0)
  {
    SplitHostClean(authority);
  }

  lemma {:induction false} AfterLastAt(s: string)
    ensures var at := LastIndexByte(s, '@'); '@' !in (if at >= 0 then s[at + 1..] else s)
  {
  }

  lemma {:induction false} HeadChars(head: string)
    requires '#' !in head && '?' !in head
    ensures var at := LastIndexByte(head, '@');
            var userinfo, authority := if at >= 0 then head[..at] else "", if at >= 0 then head[at + 1..] else head;
            && '#' !in userinfo && '?' !in userinfo
            && '@' !in authority && '#' !in authority && '?' !in authority
  {
    AfterLastAt(head);
  }

  lemma {:induction false} ParsedBodyForm(raw: string, scheme: string, rest: string)
    requires ValidScheme(scheme) && scheme != "vmess" && scheme != "ss"
    requires Checked(ParseURI(raw, scheme, rest)).Ok?
    ensures URIForm(ParseURI(raw, scheme, rest).value)
  {
    var body := Before(rest, '#');
    var head := Before(body, '?');
    var at := LastIndexByte(head, '@');
    var userinfo, authority := if at >= 0 then head[..at] else "", if at >= 0 then head[at + 1..] else head;
    CutChars(rest, '#');
    CutChars(body, '?');
    HeadChars(head);
    HostOfAuthority(authority);
  }

  lemma {:induction false} VmessScheme(raw: string, rest: string, json: Codec)
    ensures ParseVmess(raw, rest, json).Ok? ==> ParseVmess(raw, rest, json).value.scheme == "vmess"
  {
  }

  lemma {:induction false} SSScheme(raw: string, rest: string)
    ensures ParseSS(raw, rest).Ok? ==> ParseSS(raw, rest).value.scheme == "ss"
  {
  }

  lemma {:induction false} URIScheme(raw: string, scheme: string, rest: string)
    ensures ParseURI(raw, scheme, rest).Ok? ==> ParseURI(raw, scheme, rest).value.scheme == scheme
  {
  }

  lemma {:induction false} ParsedScheme(raw: string, scheme: string, rest: string, json: Codec)
    requires ParseBody(raw, scheme, rest, json).Ok?
    ensures ParseBody(raw, scheme, rest, json).value.scheme == scheme
  {
    VmessScheme(raw, rest, json);
    SSScheme(raw, rest);
    URIScheme(raw, scheme, rest);
  }

  /** Parse, when it succeeds, read the body of the trimmed link. */
  lemma {:induction false} ParseSteps(link: string, json: Codec)
    requires Parse(link, json).Ok?
    ensures var raw := TrimSpace(link);
            var idx := IndexSep(raw);
            && idx > 0 && ValidScheme(ToLower(raw[..idx]))
            && Parse(link, json) == Checked(ParseBody(raw, ToLower(raw[..idx]), raw[idx + 3..], json))
  {
  }

  /** A link of another scheme than vmess and ss was read by ParseURI. */
  lemma {:induction false} ParsedURI(link: string, json: Codec)
    requires Parse(link, json).Ok? && Parse(link, json).value.scheme != "vmess"
    requires Parse(link, json).value.scheme != "ss"
    ensures var raw := TrimSpace(link);
            var idx := IndexSep(raw);
            && idx > 0
            && var scheme := ToLower(raw[..idx]);
               && ValidScheme(scheme) && scheme != "vmess" && scheme != "ss"
               && var r := ParseURI(raw, scheme, raw[idx + 3..]);
                  Parse(link, json) == Checked(r) == r
  {
    ParseSteps(link, json);
    var raw := TrimSpace(link);
    var idx := IndexSep(raw);
    ParsedScheme(raw, ToLower(raw[..idx]), raw[idx + 3..], json);
  }

  /** Every successfully parsed link of another scheme than vmess and ss has that form. */
  lemma {:induction false} ParsedForm(link: string, json: Codec)
    requires Parse(link, json).Ok? && Parse(link, json).value.scheme != "vmess"
    requires Parse(link, json).value.scheme != "ss"
    ensures URIForm(Parse(link, json).value)
  {
    ParsedURI(link, json);
    var raw := TrimSpace(link);
    var idx := IndexSep(raw);
    ParsedBodyForm(raw, ToLower(raw[..idx]), raw[idx + 3..]);
  }

  // ---------- the rewritten query ----------

  lemma {:induction false} EscapedChars(s: string)
    ensures forall c :: c in QueryEscape(s) ==> EscapeChar(c)
    ensures forall c :: c in EncodeFragment(s) ==> EscapeChar(c)
    ensures s != "" ==> QueryEscape(s) != "" && EncodeFragment(s) != ""
  {
    EscapeAlphabet(s);
    EncodersAgree(s);
  }

  lemma {:induction false} AddParamChars(query: string, k: string, v: string)
    requires '#' !in query
    ensures '#' !in AddParam(query, k, v)
  {
    EscapedChars(k);
    EscapedChars(v);
  }

  lemma {:induction false} NewQueryChars(i: Info, sni: string, hdr: string)
    requires '#' !in i.rawQuery
    ensures '#' !in NewQuery(i, sni, hdr)
  {
    AddParamChars(i.rawQuery, "sni", SniParam(i, sni));
    AddParamChars(AddParam(i.rawQuery, "sni", SniParam(i, sni)), "host", HostParam(i, hdr));
  }

  lemma {:induction false} AuthorityForm(host: string, port: nat)
    requires PlainHost(host) && port <= 65535
    ensures SplitHostPort(JoinHostPort(host, port)) == Some((host, port))
    ensures var a := JoinHostPort(host, port);
            && '@' !in a && '?' !in a && '#' !in a && a != "" && Solid(a[|a| - 1])
  {
    JoinSplit(host, port);
    DecimalChars(port);
    JoinChars(host, Decimal(port));
  }

  lemma {:induction false} JoinChars(host: string, d: string)
    requires PlainHost(host) && d != "" && Digits(d)
    ensures var a := host + ":" + d; '@' !in a && '?' !in a && '#' !in a && Solid(a[|a| - 1])
    ensures var a := "[" + host + "]:" + d; '@' !in a && '?' !in a && '#' !in a && Solid(a[|a| - 1])
  {
    assert Digit(d[|d| - 1]);
  }

  /** A link that ends in its fragment or its address is left as it is. */
  lemma {:induction false} TrimEnding(scheme: string, rest: string)
    requires ValidScheme(scheme) && rest != "" && Solid(rest[|rest| - 1])
    ensures TrimSpace(scheme + "://" + rest) == scheme + "://" + rest
  {
    var s := scheme + "://" + rest;
    SchemeIndex(scheme, rest);
    TrimSolidStart(s);
    TrimSolidEnd(s);
  }

  /** A link that ends in its query loses the white space at the query's end. */
  lemma {:induction false} TrimQuery(scheme: string, head: string, query: string)
    requires ValidScheme(scheme)
    ensures TrimSpace(scheme + "://" + (head + ("?" + query))) == scheme + "://" + (head + ("?" + TrimRight(query)))
  {
    var a := scheme + "://";
    SchemeIndex(scheme, head + ("?" + query));
    TrimSolidStart(a + (head + ("?" + query)));
    TailGroup(a, head, "?", query);
    TailGroup(a, head, "?", TrimRight(query));
    TrimRightKeeps(a + (head + "?"), query);
  }

  lemma {:induction false} TailGroup(a: string, h: string, m: string, q: string)
    ensures a + (h + (m + q)) == (a + (h + m)) + q
  {
  }

  /** What trimming leaves of a spelled link. */
  lemma {:induction false} TrimSpelled(scheme: string, userinfo: string, authority: string, query: string, frag: string)
    requires ValidScheme(scheme) && authority != "" && Solid(authority[|authority| - 1])
    requires forall c :: c in frag ==> EscapeChar(c)
    ensures TrimSpace(Spell(scheme, userinfo, authority, query, frag))
         == scheme + "://" + ((Head(userinfo, authority)
            + (if frag == "" && query != "" then "?" + TrimRight(query) else Opt('?', query))) + Opt('#', frag))
  {
    var h, q, f := Head(userinfo, authority), Opt('?', query), Opt('#', frag);
    SpellGroups(scheme, userinfo, authority, query, frag);
    assert h[|h| - 1] == authority[|authority| - 1];
    var rest := (h + q) + f;
    if frag != "" {
      assert rest[|rest| - 1] == frag[|frag| - 1];
      assert frag[|frag| - 1] in frag;
      TrimEnding(scheme, rest);
    } else {
      AppendNothing(h + q);
      AppendNothing(h + ("?" + TrimRight(query)));
      if query == "" {
        AppendNothing(h);
        TrimEnding(scheme, rest);
      } else {
        TrimQuery(scheme, h, query);
      }
    }
  }

  // ---------- the main theorem ----------

  lemma {:induction false} ParseBegins(r: string, scheme: string, rest: string, json: Codec)
    requires ValidScheme(scheme) && TrimSpace(r) == scheme + "://" + rest
    ensures Parse(r, json) == Checked(ParseBody(TrimSpace(r), scheme, rest, json))
  {
    SchemeIndex(scheme, rest);
  }

  lemma {:induction false} ParseTrimmed(r: string, scheme: string, rest: string, json: Codec, i: Info)
    requires ValidScheme(scheme) && scheme != "vmess" && scheme != "ss" && TrimSpace(r) == scheme + "://" + rest
    requires ParseURI(TrimSpace(r), scheme, rest) == Ok(i) && i.host != "" && 0 < i.port <= 65535
    ensures Parse(r, json) == Ok(i)
  {
    ParseBegins(r, scheme, rest, json);
  }

  /** The parts of a link that can be spelled and read back. */
  ghost predicate Spellable(scheme: string, userinfo: string, authority: string, host: string, port: int,
                            query: string) {
    && Separable(scheme, userinfo, authority, query) && scheme != "vmess" && scheme != "ss"
    && authority != "" && Solid(authority[|authority| - 1])
    && SplitHostPort(authority) == Some((host, port)) && host != "" && 0 < port <= 65535
  }

  lemma {:induction false} ParseNamed(scheme: string, userinfo: string, authority: string, host: string, port: int,
                                      query: string, frag: string, json: Codec)
    requires Spellable(scheme, userinfo, authority, host, port, query)
    requires (frag != "" || query == "") && forall c :: c in frag ==> EscapeChar(c)
    ensures var r := Spell(scheme, userinfo, authority, query, frag);
            Parse(r, json) == Ok(FromParts(TrimSpace(r), scheme, userinfo, host, port, DecodeFragment(frag), query))
  {
    var r, rest := Spell(scheme, userinfo, authority, query, frag), (Head(userinfo, authority) + Opt('?', query))
        + Opt('#', frag);
    TrimSpelled(scheme, userinfo, authority, query, frag);
    BodyCuts(userinfo, authority, query, frag);
    ParseCut(TrimSpace(r), scheme, rest, userinfo, authority, host, port, query, frag);
    ParseTrimmed(r, scheme, rest, json,
        FromParts(TrimSpace(r), scheme, userinfo, host, port, DecodeFragment(frag), query));
  }

  lemma {:induction false} ParseNameless(scheme: string, userinfo: string, authority: string, host: string, port: int,
                                         query: string, json: Codec)
    requires Spellable(scheme, userinfo, authority, host, port, query) && query != ""
    ensures var r := Spell(scheme, userinfo, authority, query, "");
            Parse(r, json) == Ok(FromParts(TrimSpace(r), scheme, userinfo, host, port, "", TrimRight(query)))
  {
    var r, q := Spell(scheme, userinfo, authority, query, ""), TrimRight(query);
    var rest := (Head(userinfo, authority) + ("?" + q)) + "";
    TrimSpelled(scheme, userinfo, authority, query, "");
    BareCuts(userinfo, authority, q);
    ParseCut(TrimSpace(r), scheme, rest, userinfo, authority, host, port, q, "");
    ParseTrimmed(r, scheme, rest, json, FromParts(TrimSpace(r), scheme, userinfo, host, port, "", q));
  }

  /** A spelled link reads back as its parts. */
  lemma {:induction false} ParseSpelled(scheme: string, userinfo: string, authority: string, host: string, port: int,
                                        query: string, name: string, json: Codec)
    requires Spellable(scheme, userinfo, authority, host, port, query) && Bytes(name)
    ensures var r := Spell(scheme, userinfo, authority, query, EncodeFragment(name));
            Parse(r, json) == Ok(FromParts(TrimSpace(r), scheme, userinfo, host, port, name,
                                           if name == "" then TrimRight(query) else query))
  {
    EscapedChars(name);
    FragmentRoundTrip(name);
    NonEmptyFragment(name);
    if name == "" && query != "" {
      ParseNameless(scheme, userinfo, authority, host, port, query, json);
    } else {
      assert TrimRight("") == "";
      ParseNamed(scheme, userinfo, authority, host, port, query, EncodeFragment(name), json);
    }
  }

  lemma {:induction false} RewriteIsURI(i: Info, host: string, port: int, name: string, sni: string, hdr: string,
                                        json: Codec)
    requires URIForm(i) && host != "" && 0 < port <= 65535
    ensures Rewrite(i, host, port, name, sni, hdr, json) == Some(RewriteURI(i, host, port, name, sni, hdr))
  {
  }

  lemma {:induction false} URIReparses(i: Info, host: string, port: int, name: string, sni: string, hdr: string,
                                       json: Codec)
    requires URIForm(i) && PlainHost(host) && 0 < port <= 65535 && Bytes(NewName(i, name))
    ensures var r := RewriteURI(i, host, port, name, sni, hdr);
            Parse(r, json) == Ok(FromParts(TrimSpace(r), i.scheme, i.userinfo, host, port, NewName(i, name),
              if NewName(i, name) == "" then TrimRight(NewQuery(i, sni, hdr)) else NewQuery(i, sni, hdr)))
  {
    NewQueryChars(i, sni, hdr);
    AuthorityForm(host, port);
    ParseSpelled(i.scheme, i.userinfo, JoinHostPort(host, port), host, port, NewQuery(i, sni, hdr), NewName(i, name),
        json);
  }

  /** Rewriting keeps the link: whatever parsed, rewritten to a plain host and read again, is the same scheme and
      userinfo at the new host, port and name, with the rewritten query. Only a link without any name can lose
      something: white space at the very end of its query. */
  lemma {:induction false} RewriteReparses(i: Info, host: string, port: int, name: string, sni: string, hdr: string,
                                           json: Codec)
    requires URIForm(i) && PlainHost(host) && 0 < port <= 65535 && Bytes(NewName(i, name))
    ensures var r := Rewrite(i, host, port, name, sni, hdr, json);
            && r.Some?
            && var query := NewQuery(i, sni, hdr);
               Parse(r.value, json) == Ok(FromParts(TrimSpace(r.value), i.scheme, i.userinfo, host, port,
                 NewName(i, name), if NewName(i, name) == "" then TrimRight(query) else query))
  {
    RewriteIsURI(i, host, port, name, sni, hdr, json);
    URIReparses(i, host, port, name, sni, hdr, json);
  }

  /** The new host comes back exactly when it is a plain one: no brackets, '@', '?' or '#', and not empty. */
  lemma {:induction false} HostComesBackIff(i: Info, host: string, port: int, name: string, json: Codec)
    requires URIForm(i) && 0 < port <= 65535 && Bytes(NewName(i, name))
    ensures (var r := Rewrite(i, host, port, name, "", "", json);
             r.Some? && var p := Parse(r.value, json); p.Ok? && p.value.scheme == i.scheme && p.value.host == host)
            <==> PlainHost(host)
  {
    if PlainHost(host) {
      RewriteReparses(i, host, port, name, "", "", json);
    }
    var r := Rewrite(i, host, port, name, "", "", json);
    if r.Some? && Parse(r.value, json).Ok? && Parse(r.value, json).value.scheme == i.scheme {
      ParsedForm(r.value, json);
    }
  }
}

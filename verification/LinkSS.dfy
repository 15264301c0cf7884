/** ss links: both spellings (SIP002 and the old all-in-one base64) through a rewrite and back. */
module LinkSS {
  import opened Wrappers
  import opened Text
  import opened Percent
  import opened HostPort
  import opened Base64
  import opened Link
  import opened LinkReparse
  import opened LinkMeaning

  // ---------- trimming keeps what is not white space ----------

  lemma {:induction false} LeftKeeps(s: string, c: char)
    requires c in s && Solid(c)
    ensures c in TrimLeft(s)
    decreases |s|
  {
    var n := LeadingSpace(s);
    if n != 0 {
      assert s == s[..n] + s[n..];
      assert c !in s[..n];
      LeftKeeps(s[n..], c);
    }
  }

  lemma {:induction false} RightKeeps(s: string, c: char)
    requires c in s && Solid(c)
    ensures c in TrimRight(s)
    decreases |s|
  {
    var n := TrailingSpace(s);
    if n != 0 {
      var k := |s| - n;
      assert s == s[..k] + s[k..];
      assert c !in s[k..];
      RightKeeps(s[..k], c);
    }
  }

  lemma {:induction false} TrimKeeps(s: string, c: char)
    requires c in s && Solid(c)
    ensures c in TrimSpace(s)
  {
    LeftKeeps(s, c);
    RightKeeps(TrimLeft(s), c);
  }

  /** Text with an '@' is no base64 in any dialect. */
  lemma {:induction false} AtNeverDecodes(s: string)
    requires '@' in s
    ensures DecodeLoose(s).None?
  {
    TrimKeeps(s, '@');
    if DecodeLoose(s).Some? {
      LooseAccepts(s);
    }
  }

  // ---------- decoded text is bytes ----------

  lemma {:induction false} RawBytes(url: bool, t: string)
    requires RawDecode(url, t).Some?
    ensures Bytes(RawDecode(url, t).value)
  {
    if |t| >= 4 {
      RawBytes(url, t[4..]);
    }
  }

  lemma {:induction false} TryBytes(t: string)
    requires TryFrom(t, 0).Some?
    ensures Bytes(TryFrom(t, 0).value)
  {
    TryAll(t);
    RawBytes(RawDecode(false, t).None?, t);
  }

  lemma {:induction false} LooseBytes(s: string)
    requires DecodeLoose(s).Some?
    ensures Bytes(DecodeLoose(s).value)
  {
    var t := Cleaned(s);
    var u := if TryFrom(TrimEquals(t), 0).Some? then t else SpaceToPlus(t);
    TryBytes(TrimEquals(u));
  }

  // ---------- the form of a parsed ss link ----------

  /** A userinfo that stands for a credential `method:password`. */
  ghost predicate CredentialText(u: string) {
    && Trimmed(u) && (forall c :: c in u ==> Acceptable(c))
    && DecodeLoose(u).Some? && ':' in DecodeLoose(u).value
  }

  /** Method and password of an ss link, as clashSS finds them. */
  function Cipher(i: Info): (string, string) {
    if i.legacySS.Some? then i.legacySS.value
    else if i.userinfo != "" && DecodeLoose(i.userinfo).Some? then Credential(DecodeLoose(i.userinfo).value)
    else ("", "")
  }

  ghost predicate SSForm(i: Info) {
    && i == SSParts(i.raw, i.userinfo, i.host, i.port, i.name, i.rawQuery, i.legacySS)
    && 0 < i.port <= 65535 && '#' !in i.rawQuery
    && CredentialText(i.userinfo) && Cipher(i) == Credential(DecodeLoose(i.userinfo).value)
    && (i.legacySS.None? ==> '@' !in i.rawQuery)
  }

  lemma {:induction false} EmptyDecodes()
    ensures DecodeLoose("") == Some("")
  {
    LooseInvertsAll(false, false, "");
  }

  lemma {:induction false} HeadText(head: string)
    requires DecodeLoose(head).Some? && ':' in DecodeLoose(head).value
    ensures CredentialText(TrimSpace(head)) && DecodeLoose(TrimSpace(head)) == DecodeLoose(head)
    ensures TrimSpace(head) != ""
  {
    LooseTrims(head);
    LooseAccepts(head);
    TrimSpaceFixed(head);
    EmptyDecodes();
  }

  lemma {:induction false} ModernForm(raw: string, head: string, tail: string)
    requires DecodeLoose(head).Some? && ':' in DecodeLoose(head).value && '@' !in tail
    requires Checked(ParseModernSS(raw, head, tail)).Ok?
    ensures SSForm(ParseModernSS(raw, head, tail).value)
  {
    HeadText(head);
    CutChars(tail, '#');
    CutChars(Before(tail, '#'), '?');
  }

  /** Printing an old-style credential in SIP002 form: it decodes to what was cut out of the old text. */
  lemma {:induction false} CredentialKept(cred: string)
    requires Bytes(cred)
    ensures var c := Credential(cred);
            var u := Encode(false, true, c.0 + ":" + c.1);
            CredentialText(u) && Credential(DecodeLoose(u).value) == c && u != ""
  {
    var c := Credential(cred);
    var text := c.0 + ":" + c.1;
    LooseInvertsAll(false, true, text);
    EncodedText(text);
    EmptyDecodes();
    assert text == c.0 + [':'] + c.1;
    IndexAfter(c.0, ':', c.1);
    assert text[..|c.0|] == c.0 && text[|c.0| + 1..] == c.1;
  }

  lemma {:induction false} EncodedText(s: string)
    ensures var u := Encode(false, true, s); Trimmed(u) && forall c :: c in u ==> Acceptable(c)
  {
    PaddedAlphabet(s);
    AlphabetText(Encode(false, true, s));
  }

  lemma {:induction false} LegacyForm(raw: string, rest: string)
    requires Checked(ParseLegacySS(raw, rest)).Ok?
    ensures SSForm(ParseLegacySS(raw, rest).value)
  {
    var body := Before(rest, '#');
    CutChars(rest, '#');
    CutChars(body, '?');
    LooseBytes(Before(body, '?'));
    var d := DecodeLoose(Before(body, '?')).value;
    CredentialKept(d[..LastIndexByte(d, '@')]);
  }

  lemma {:induction false} ReadModern(raw: string, rest: string)
    requires ModernHead(rest).Some?
    ensures var h := ModernHead(rest).value;
            && 0 < |h| < |rest| && DecodeLoose(h).Some? && ':' in DecodeLoose(h).value && '@' !in rest[|h| + 1..]
            && ParseSS(raw, rest) == ParseModernSS(raw, h, rest[|h| + 1..])
  {
  }

  lemma {:induction false} ReadLegacy(raw: string, rest: string)
    requires ModernHead(rest).None?
    ensures ParseSS(raw, rest) == ParseLegacySS(raw, rest)
  {
  }

  lemma {:induction false} ParsedSSBody(raw: string, rest: string)
    requires Checked(ParseSS(raw, rest)).Ok?
    ensures SSForm(ParseSS(raw, rest).value)
  {
    var head := ModernHead(rest);
    if head.Some? {
      ReadModern(raw, rest);
      ModernForm(raw, head.value, rest[|head.value| + 1..]);
    } else {
      ReadLegacy(raw, rest);
      LegacyForm(raw, rest);
    }
  }

  /** Every successfully parsed ss link has that form, whichever way it was spelled. */
  lemma {:induction false} ParsedSS(link: string, json: Codec)
    requires Parse(link, json).Ok? && Parse(link, json).value.scheme == "ss"
    ensures SSForm(Parse(link, json).value)
  {
    ParseSteps(link, json);
    var raw := TrimSpace(link);
    var idx := IndexSep(raw);
    ParsedScheme(raw, ToLower(raw[..idx]), raw[idx + 3..], json);
    ParsedSSBody(raw, raw[idx + 3..]);
  }

  // ---------- reading a spelled ss link ----------

  /** The text after "ss://" of a spelled link, for a query as the trimmed link shows it. */
  function Body(userinfo: string, authority: string, q: string, frag: string): string {
    (Head(userinfo, authority) + q) + Opt('#', frag)
  }

  /** A query as a link shows it. */
  ghost predicate Shown(q: string, query: string) {
    q == Opt('?', query) || q == "?" + query
  }

  lemma {:induction false} BodyAt(userinfo: string, authority: string, q: string, frag: string)
    requires userinfo != ""
    ensures Body(userinfo, authority, q, frag) == userinfo + ['@'] + ((authority + q) + Opt('#', frag))
  {
  }

  lemma {:induction false} TailCuts(authority: string, q: string, query: string, frag: string)
    requires Shown(q, query) && '#' !in authority && '?' !in authority && '#' !in query
    ensures var tail := (authority + q) + Opt('#', frag);
            After(tail, '#') == frag && Before(Before(tail, '#'), '?') == authority
                && After(Before(tail, '#'), '?') == query
  {
    CutTail(authority + q, '#', frag);
    if query == "" && q == "" {
      assert authority + q == authority;
      CutTail(authority, '?', query);
    } else {
      assert authority + q == authority + ['?'] + query;
      CutAt(authority, '?', query);
    }
  }

  lemma {:induction false} HeadFound(u: string, tail: string)
    requires CredentialText(u) && u != "" && '@' !in tail
    ensures ModernHead(u + ['@'] + tail) == Some(u) && (u + ['@'] + tail)[|u| + 1..] == tail
  {
    var rest := u + ['@'] + tail;
    LastIndexBefore(u, '@', tail);
    assert rest[..|u|] == u && rest[|u| + 1..] == tail;
  }

  lemma {:induction false} TailRead(raw: string, u: string, authority: string, host: string, port: int,
                                    q: string, query: string, frag: string)
    requires Trimmed(u) && SplitHostPort(authority) == Some((host, port))
    requires Shown(q, query) && '#' !in authority && '?' !in authority && '#' !in query
    ensures ParseModernSS(raw, u, (authority + q) + Opt('#', frag))
        == Ok(SSParts(raw, u, host, port, DecodeFragment(frag), query, None))
  {
    TailCuts(authority, q, query, frag);
    TrimSpaceFixed(u);
  }

  lemma {:induction false} SpelledModern(raw: string, u: string, authority: string, host: string, port: int,
                                         q: string, query: string, frag: string)
    requires CredentialText(u) && u != "" && SplitHostPort(authority) == Some((host, port))
    requires Shown(q, query) && '#' !in authority && '?' !in authority && '@' !in authority && '#' !in query
    requires '@' !in query
    requires '@' !in frag
    ensures ParseSS(raw, Body(u, authority, q, frag))
        == Ok(SSParts(raw, u, host, port, DecodeFragment(frag), query, None))
  {
    BodyAt(u, authority, q, frag);
    HeadFound(u, (authority + q) + Opt('#', frag));
    ReadModern(raw, Body(u, authority, q, frag));
    TailRead(raw, u, authority, host, port, q, query, frag);
  }

  lemma {:induction false} LastAtLeast(s: string, c: char, k: nat)
    requires k < |s| && s[k] == c
    ensures LastIndexByte(s, c) >= k
  {
    if k > 0 {
      LastAtLeast(s[1..], c, k - 1);
    }
  }

  lemma {:induction false} NoHead(u: string, tail: string)
    requires u != "" && '@' in tail
    ensures ModernHead(u + ['@'] + tail).None?
  {
    var s := u + ['@'] + tail;
    var k :| 0 <= k < |tail| && tail[k] == '@';
    LastAtLeast(s, '@', |u| + 1 + k);
    var at := LastIndexByte(s, '@');
    assert s[..at][|u|] == '@';
    AtNeverDecodes(s[..at]);
  }

  lemma {:induction false} NoLegacy(raw: string, u: string, authority: string, q: string, query: string, frag: string)
    requires u != "" && '#' !in u && '?' !in u && Shown(q, query)
    requires '#' !in authority && '?' !in authority && '#' !in query
    ensures ParseLegacySS(raw, Body(u, authority, q, frag)) == Err(BadBase64)
  {
    var h := Head(u, authority);
    assert '@' in h && '#' !in h && '?' !in h;
    TailCuts(h, q, query, frag);
    AtNeverDecodes(h);
  }

  lemma {:induction false} AtInTail(authority: string, q: string, query: string, frag: string)
    requires Shown(q, query) && ('@' in query || '@' in frag)
    ensures '@' in (authority + q) + Opt('#', frag)
  {
    assert '@' in q || '@' in Opt('#', frag);
  }

  /** With an '@' after the address the link is cut at the wrong place, and neither spelling is recognised. */
  lemma {:induction false} SpelledBroken(raw: string, u: string, authority: string, q: string, query: string,
                                         frag: string)
    requires u != "" && '#' !in u && '?' !in u && Shown(q, query) && ('@' in query || '@' in frag)
    requires '#' !in authority && '?' !in authority && '#' !in query
    ensures ParseSS(raw, Body(u, authority, q, frag)) == Err(BadBase64)
  {
    BodyAt(u, authority, q, frag);
    AtInTail(authority, q, query, frag);
    NoHead(u, (authority + q) + Opt('#', frag));
    NoLegacy(raw, u, authority, q, query, frag);
    ReadLegacy(raw, Body(u, authority, q, frag));
  }

  // ---------- rewriting ----------

  lemma {:induction false} QueryUntouched(i: Info, sni: string, hdr: string)
    requires i.scheme == "ss" && !i.tls && i.transport == "tcp"
    ensures NewQuery(i, sni, hdr) == i.rawQuery
  {
  }

  /** An ss link is rewritten to SIP002 form, its query as it was, whatever overrides are given. */
  lemma {:induction false} RewriteSS(i: Info, host: string, port: int, name: string, sni: string, hdr: string,
                                     json: Codec)
    requires i.scheme == "ss" && !i.tls && i.transport == "tcp" && i.vmess.None? && host != "" && 0 < port <= 65535
    ensures Rewrite(i, host, port, name, sni, hdr, json)
         == Some(Spell(i.scheme, i.userinfo, JoinHostPort(host, port), i.rawQuery, EncodeFragment(NewName(i, name))))
  {
    QueryUntouched(i, sni, hdr);
  }

  // ---------- the theorems ----------

  lemma {:induction false} SSValid(scheme: string)
    requires scheme == "ss"
    ensures ValidScheme(scheme)
  {
  }

  lemma {:induction false} ParseTrimmedSS(r: string, scheme: string, rest: string, json: Codec)
    requires scheme == "ss" && TrimSpace(r) == scheme + "://" + rest
    ensures Parse(r, json) == Checked(ParseSS(TrimSpace(r), rest))
  {
    SSValid(scheme);
    ParseBegins(r, scheme, rest, json);
  }

  lemma {:induction false} NoMarks(u: string)
    requires forall c :: c in u ==> Acceptable(c)
    ensures '#' !in u && '?' !in u
  {
    assert !Acceptable('#') && !Acceptable('?');
  }

  /** What a link in this shape reads as. */
  lemma {:induction false} ParseShown(r: string, scheme: string, u: string, authority: string, host: string, port: int,
                                      q: string, query: string, frag: string, json: Codec)
    requires CredentialText(u) && u != "" && scheme == "ss"
    requires TrimSpace(r) == scheme + "://" + Body(u, authority, q, frag)
    requires Shown(q, query) && '#' !in authority && '?' !in authority && '@' !in authority && '#' !in query
    requires SplitHostPort(authority) == Some((host, port)) && host != "" && 0 < port <= 65535
    ensures Parse(r, json) == if '@' in query || '@' in frag then Err(BadBase64)
                              else Ok(SSParts(TrimSpace(r), u, host, port, DecodeFragment(frag), query, None))
  {
    NoMarks(u);
    ParseTrimmedSS(r, scheme, Body(u, authority, q, frag), json);
    if '@' in query || '@' in frag {
      SpelledBroken(TrimSpace(r), u, authority, q, query, frag);
    } else {
      SpelledModern(TrimSpace(r), u, authority, host, port, q, query, frag);
    }
  }

  /** The query as the trimmed link shows it, and what it is then. */
  function KeptQuery(query: string, frag: string): string {
    if frag == "" then TrimRight(query) else query
  }

  /** Trimming the end of a query takes no '@' away and adds nothing. */
  lemma {:induction false} KeptMarks(query: string, frag: string)
    ensures '@' in KeptQuery(query, frag) <==> '@' in query
    ensures '#' !in query ==> '#' !in KeptQuery(query, frag)
  {
    if '@' in query {
      RightKeeps(query, '@');
    }
  }

  lemma {:induction false} TrimShown(scheme: string, u: string, authority: string, query: string,
                                     frag: string) returns (q: string)
    requires ValidScheme(scheme) && authority != "" && Solid(authority[|authority| - 1])
    requires forall c :: c in frag ==> EscapeChar(c)
    ensures TrimSpace(Spell(scheme, u, authority, query, frag)) == scheme + "://" + Body(u, authority, q, frag)
    ensures Shown(q, KeptQuery(query, frag)) && '@' !in frag
  {
    assert !EscapeChar('@');
    TrimSpelled(scheme, u, authority, query, frag);
    assert TrimRight("") == "";
    q := if frag == "" && query != "" then "?" + TrimRight(query) else Opt('?', query);
  }

  lemma {:induction false} ParseSpelledSS(scheme: string, u: string, authority: string, host: string, port: int,
                                          query: string, frag: string, json: Codec)
    requires scheme == "ss"
    requires CredentialText(u) && u != "" && forall c :: c in frag ==> EscapeChar(c)
    requires '#' !in authority && '?' !in authority && '@' !in authority && authority != ""
    requires Solid(authority[|authority| - 1])
    requires SplitHostPort(authority) == Some((host, port)) && host != "" && 0 < port <= 65535 && '#' !in query
    ensures var r := Spell(scheme, u, authority, query, frag);
            Parse(r, json) == if '@' in query then Err(BadBase64)
                              else Ok(SSParts(TrimSpace(r), u, host, port, DecodeFragment(frag),
                                  KeptQuery(query, frag), None))
  {
    SSValid(scheme);
    KeptMarks(query, frag);
    var q := TrimShown(scheme, u, authority, query, frag);
    ParseShown(Spell(scheme, u, authority, query, frag), scheme, u, authority, host, port, q, KeptQuery(query, frag),
        frag, json);
  }

  /** An ss link rewritten to a plain host reads back, with the same method and password, exactly when its query holds
      no '@'; only an old-style link can have one. */
  lemma {:induction false} SSReparsesIff(i: Info, host: string, port: int, name: string, sni: string, hdr: string,
                                         json: Codec)
    requires SSForm(i) && PlainHost(host) && 0 < port <= 65535 && Bytes(NewName(i, name))
    ensures var r := Rewrite(i, host, port, name, sni, hdr, json);
            && r.Some?
            && (Parse(r.value, json).Ok? <==> '@' !in i.rawQuery)
            && ('@' !in i.rawQuery ==>
                  Parse(r.value, json) == Ok(SSParts(TrimSpace(r.value), i.userinfo, host, port, NewName(i, name),
                                                     KeptQuery(i.rawQuery, NewName(i, name)), None)))
  {
    RewriteSS(i, host, port, name, sni, hdr, json);
    EmptyDecodes();
    AuthorityForm(host, port);
    var n := NewName(i, name);
    EscapedChars(n);
    NonEmptyFragment(n);
    FragmentRoundTrip(n);
    ParseSpelledSS(i.scheme, i.userinfo, JoinHostPort(host, port), host, port, i.rawQuery, EncodeFragment(n), json);
  }

  lemma {:induction false} ParsedSSBytes(link: string, json: Codec)
    requires Bytes(link) && Parse(link, json).Ok? && Parse(link, json).value.scheme == "ss"
    ensures Bytes(Parse(link, json).value.name)
  {
    ParseSteps(link, json);
    TrimBytes(link);
    var raw := TrimSpace(link);
    var idx := IndexSep(raw);
    ParsedScheme(raw, ToLower(raw[..idx]), raw[idx + 3..], json);
    SSNameBytes(raw, raw[idx + 3..]);
  }

  lemma {:induction false} SSNameBytes(raw: string, rest: string)
    requires Bytes(rest) && ParseSS(raw, rest).Ok?
    ensures Bytes(ParseSS(raw, rest).value.name)
  {
    var head := ModernHead(rest);
    if head.Some? {
      ReadModern(raw, rest);
      FragmentBytes(After(rest[|head.value| + 1..], '#'));
    } else {
      ReadLegacy(raw, rest);
      FragmentBytes(After(rest, '#'));
    }
  }

  /** A rewrite keeps the credential: every ss link that parses, old-style or SIP002, is rewritten to a link that reads
      back at the new address with the same method and password, unless its query holds an '@'; then it does not
      read back at all. */
  lemma {:induction false} SSRelayTheorem(link: string, host: string, port: int, name: string, json: Codec)
    requires Bytes(link) && Parse(link, json).Ok? && Parse(link, json).value.scheme == "ss"
    requires PlainHost(host) && 0 < port <= 65535 && Bytes(name)
    ensures var i := Parse(link, json).value;
            var r := Rewrite(i, host, port, name, "", "", json);
            && r.Some?
            && var p := Parse(r.value, json);
               && (p.Ok? <==> '@' !in i.rawQuery)
               && (p.Ok? ==> && p.value.scheme == "ss" && p.value.host == host && p.value.port == port
                             && p.value.name == NewName(i, name) && Cipher(p.value) == Cipher(i))
  {
    var i := Parse(link, json).value;
    ParsedSS(link, json);
    ParsedSSBytes(link, json);
    SSReparsesIff(i, host, port, name, "", "", json);
    EmptyDecodes();
  }

  lemma {:induction false} ShortQueryDiffers(i: Info, name: string)
    requires i.scheme == "ss" && !i.tls && i.transport == "tcp"
    ensures KeptQuery(i.rawQuery, NewName(i, name)) == i.rawQuery <==> EndKept(i, name)
  {
    QueryUntouched(i, "", "");
  }

  /** The second rewrite of what was read back from the first. */
  lemma {:induction false} SSSecond(i: Info, j: Info, nameA: string, b: string, portB: int, nameB: string, json: Codec)
    requires SSForm(i) && Bytes(i.name) && Bytes(NewName(i, nameA)) && b != "" && 0 < portB <= 65535
    requires j == SSParts(j.raw, i.userinfo, j.host, j.port, NewName(i, nameA),
                          KeptQuery(i.rawQuery, NewName(i, nameA)), None)
    ensures Rewrite(j, b, portB, nameB, "", "", json) == Rewrite(i, b, portB, nameB, "", "", json)
            <==> EndKept(i, nameA) && NameKept(i, nameA, nameB)
  {
    RewriteSS(i, b, portB, nameB, "", "", json);
    RewriteSS(j, b, portB, nameB, "", "", json);
    ShortQueryDiffers(i, nameA);
    SecondNameIff(i, j, nameA, nameB);
    KeptMarks(i.rawQuery, NewName(i, nameA));
    SpellInjective(i.scheme, i.userinfo, JoinHostPort(b, portB), j.rawQuery, EncodeFragment(NewName(j, nameB)),
        i.rawQuery, EncodeFragment(NewName(i, nameB)));
  }

  /** Relay chaining is invisible for ss links exactly when the query holds no '@', the first link does not end in
      white space, and the first relay's name does not show. */
  lemma {:induction false} SSChainInvisibleIff(i: Info, a: string, portA: int, nameA: string, b: string, portB: int,
                                               nameB: string, json: Codec)
    requires SSForm(i) && Bytes(i.name) && Bytes(NewName(i, nameA))
    requires PlainHost(a) && 0 < portA <= 65535 && b != "" && 0 < portB <= 65535
    ensures var first := Parse(Rewrite(i, a, portA, nameA, "", "", json).value, json);
            && first.Ok?
            && Rewrite(first.value, b, portB, nameB, "", "", json) == Rewrite(i, b, portB, nameB, "", "", json)
            <==> '@' !in i.rawQuery && EndKept(i, nameA) && NameKept(i, nameA, nameB)
  {
    SSReparsesIff(i, a, portA, nameA, "", "", json);
    if '@' !in i.rawQuery {
      var j := Parse(Rewrite(i, a, portA, nameA, "", "", json).value, json).value;
      SSSecond(i, j, nameA, b, portB, nameB, json);
    }
  }
}

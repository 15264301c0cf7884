/** Host and port: net.SplitHostPort and the link package's splitHostPort and joinHostPort. */
module HostPort {
  import opened Wrappers
  import opened Text

  /** net.SplitHostPort; None for every malformed address. */
  function NetSplit(s: string): Option<(string, string)> {
    var i := LastIndexByte(s, ':');
    if i < 0 then None
    else if s[0] == '[' then
      var end := IndexByte(s, ']');
      if end < 0 || end + 1 != i then None
      else if '[' in s[1..] || ']' in s[end + 1..] then None
      else Some((s[1..end], s[i + 1..]))
    else if ':' in s[..i] || '[' in s || ']' in s then None
    else Some((s[..i], s[i + 1..]))
  }

  predicate Bracket(c: char) {
    c == '[' || c == ']'
  }

  /** strings.Trim(s, "[]"). */
  function TrimBrackets(s: string): string
    decreases |s|
  {
    if s != "" && Bracket(s[0]) then TrimBrackets(s[1..])
    else if s != "" && Bracket(s[|s| - 1]) then TrimBrackets(s[..|s| - 1])
    else s
  }

  /** splitHostPort: the port as any integer Atoi accepts. */
  function SplitHostPort(s: string): Option<(string, int)> {
    var hp := NetSplit(s);
    if hp.None? || Atoi(hp.value.1).None? then None
    else Some((TrimBrackets(hp.value.0), Atoi(hp.value.1).value))
  }

  /** joinHostPort: an address with a colon gets brackets unless it starts with one. */
  function JoinHostPort(host: string, port: int): string {
    if ':' in host && !(host != "" && host[0] == '[') then "[" + host + "]:" + Itoa(port)
    else host + ":" + Itoa(port)
  }

  /** A host that can stand in a link: no brackets, no userinfo, query or fragment mark. */
  predicate PlainHost(h: string) {
    h != "" && '[' !in h && ']' !in h && '@' !in h && '?' !in h && '#' !in h
  }

  lemma {:induction false} TrimNothing(s: string)
    requires '[' !in s && ']' !in s
    ensures TrimBrackets(s) == s
  {
  }

  lemma {:induction false} DecimalChars(n: nat)
    ensures forall c :: c in Decimal(n) ==> Digit(c)
  {
  }

  /** What is split off is never a host with brackets, and trimming brackets off it does nothing. */
  lemma {:induction false} SplitHostClean(s: string)
    requires NetSplit(s).Some?
    ensures '[' !in NetSplit(s).value.0 && ']' !in NetSplit(s).value.0
    ensures TrimBrackets(NetSplit(s).value.0) == NetSplit(s).value.0
    ensures forall c :: c in NetSplit(s).value.0 ==> c in s
  {
    var host := NetSplit(s).value.0;
    var i := LastIndexByte(s, ':');
    if s[0] == '[' {
      var end := IndexByte(s, ']');
      forall k | 0 <= k < |host|
        ensures host[k] != '[' && host[k] != ']' && host[k] in s
      {
        assert host[k] == s[k + 1] == s[1..][k] == s[..end][k + 1];
      }
    } else {
      forall k | 0 <= k < |host|
        ensures host[k] != '[' && host[k] != ']' && host[k] in s
      {
        assert host[k] == s[k];
      }
    }
    TrimNothing(host);
  }

  lemma {:induction false} JoinSplitBare(host: string, d: string)
    requires '[' !in host && ']' !in host && ':' !in host
    requires ':' !in d && '[' !in d && ']' !in d
    ensures NetSplit(host + ":" + d) == Some((host, d))
  {
    var s := host + ":" + d;
    assert s == host + [':'] + d;
    LastIndexBefore(host, ':', d);
    assert s[..|host|] == host && s[|host| + 1..] == d;
    assert s[0] == if host == "" then ':' else host[0];
  }

  lemma {:induction false} JoinSplitBracketed(host: string, d: string)
    requires '[' !in host && ']' !in host
    requires ':' !in d && '[' !in d && ']' !in d
    ensures NetSplit("[" + host + "]:" + d) == Some((host, d))
  {
    var s, open := "[" + host + "]:" + d, "[" + host;
    assert s == (open + "]") + [':'] + d;
    LastIndexBefore(open + "]", ':', d);
    assert s == open + [']'] + (":" + d);
    IndexAfter(open, ']', ":" + d);
    assert s[1..] == host + "]:" + d;
    assert s[|host| + 2..] == ":" + d;
    assert s[1..|host| + 1] == host && s[|host| + 3..] == d;
  }

  predicate NoBrackets(s: string) {
    '[' !in s && ']' !in s
  }

  lemma {:induction false} SplitForms(s: string)
    requires NetSplit(s).Some?
    ensures var (h, p) := NetSplit(s).value;
            && NoBrackets(h) && NoBrackets(p) && ':' !in p
            && ((s == h + ":" + p && ':' !in h) || s == "[" + h + "]:" + p)
  {
    var i := LastIndexByte(s, ':');
    if s[0] == '[' {
      assert s == "[" + s[1..i - 1] + "]:" + s[i + 1..];
    } else {
      assert s == s[..i] + ":" + s[i + 1..];
    }
    SplitHostClean(s);
  }

  /** An address is accepted exactly as host and port joined by the only colon, or with the host in brackets; brackets
      stand nowhere else. */
  lemma {:induction false} NetSplitIff(s: string, h: string, p: string)
    ensures NetSplit(s) == Some((h, p))
            <==> && NoBrackets(h) && NoBrackets(p) && ':' !in p
                 && ((s == h + ":" + p && ':' !in h) || s == "[" + h + "]:" + p)
  {
    if NetSplit(s).Some? {
      SplitForms(s);
    }
    if NoBrackets(h) && NoBrackets(p) && ':' !in p {
      if s == h + ":" + p && ':' !in h {
        JoinSplitBare(h, p);
      } else if s == "[" + h + "]:" + p {
        JoinSplitBracketed(h, p);
      }
    }
  }

  /** Joining and splitting: a host without brackets and a port come back, IPv6 included. */
  lemma {:induction false} JoinSplit(host: string, port: nat)
    requires host != "" && '[' !in host && ']' !in host && port <= MAX_INT64
    ensures SplitHostPort(JoinHostPort(host, port)) == Some((host, port))
  {
    var d := Decimal(port);
    DecimalChars(port);
    AtoiItoa(port);
    TrimNothing(host);
    if ':' in host {
      JoinSplitBracketed(host, d);
    } else {
      JoinSplitBare(host, d);
    }
  }
}

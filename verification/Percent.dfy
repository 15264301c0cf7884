/** Percent-encoding: net/url's QueryEscape and QueryUnescape, the link package's fragment codec on top of them
    (internal/link/link.go), and the byte loop of internal/singbox/singbox.go. */
module Percent {
  import opened Wrappers
  import opened Text

  predicate Unreserved(c: char) {
    'A' <= c <= 'Z' || 'a' <= c <= 'z' || '0' <= c <= '9' || c == '-' || c == '_' || c == '.' || c == '~'
  }

  function HexDigit(n: int): (c: char)
    requires 0 <= n < 16
    ensures '0' <= c <= '9' || 'A' <= c <= 'F'
  {
    if n < 10 then ('0' as int + n) as char else ('A' as int + n - 10) as char
  }

  function HexValue(c: char): (r: Option<int>)
    ensures r.Some? ==> 0 <= r.value < 16
  {
    if '0' <= c <= '9' then Some(c as int - '0' as int)
    else if 'a' <= c <= 'f' then Some(c as int - 'a' as int + 10)
    else if 'A' <= c <= 'F' then Some(c as int - 'A' as int + 10)
    else None
  }

  function PercentByte(c: char): (s: string)
    ensures |s| == 3
  {
    ['%', HexDigit(c as int / 16 % 16), HexDigit(c as int % 16)]
  }

  // ---------- encoders ----------

  function QueryEscape(s: string): string {
    if s == "" then ""
    else
      (if Unreserved(s[0]) then [s[0]] else if s[0] == ' ' then "+" else PercentByte(s[0])) + QueryEscape(s[1..])
  }

  /** strings.ReplaceAll(s, "+", "%20"). */
  function PlusToPercent(s: string): string {
    if s == "" then ""
    else (if s[0] == '+' then "%20" else [s[0]]) + PlusToPercent(s[1..])
  }

  function EncodeFragment(name: string): string {
    PlusToPercent(QueryEscape(name))
  }

  /** What singbox's urlEscape produces. */
  function UrlEscape(s: string): string {
    if s == "" then ""
    else (if Unreserved(s[0]) then [s[0]] else PercentByte(s[0])) + UrlEscape(s[1..])
  }

  lemma {:induction false} UrlEscapeAppend(s: string, c: char)
    ensures UrlEscape(s + [c]) == UrlEscape(s) + if Unreserved(c) then [c] else PercentByte(c)
  {
    var t := s + [c];
    if s == "" {
      assert t[1..] == "" && UrlEscape("") == "";
      assert UrlEscape(t) == (if Unreserved(c) then [c] else PercentByte(c)) + UrlEscape(t[1..]);
    } else {
      assert t[1..] == s[1..] + [c];
      UrlEscapeAppend(s[1..], c);
    }
  }

  /** singbox's urlEscape, as the source's loop that appends to a buffer. */
  method UrlEscapeLoop(s: string) returns (b: string)
    ensures b == UrlEscape(s)
  {
    b := "";
    for i := 0 to |s|
      invariant b == UrlEscape(s[..i])
    {
      var c := s[i];
      assert s[..i + 1] == s[..i] + [c];
      UrlEscapeAppend(s[..i], c);
      if 'A' <= c <= 'Z' || 'a' <= c <= 'z' || '0' <= c <= '9' || c == '-' || c == '_' || c == '.' || c == '~' {
        b := b + [c];
        continue;
      }
      b := b + ['%', HexDigit(c as int / 16 % 16), HexDigit(c as int % 16)];
    }
    assert s[..|s|] == s;
  }

  // ---------- decoders ----------

  function QueryUnescape(s: string): Option<string>
    decreases |s|
  {
    if s == "" then Some("")
    else if s[0] == '%' then
      if |s| < 3 || HexValue(s[1]).None? || HexValue(s[2]).None? then None
      else
        var rest := QueryUnescape(s[3..]);
        if rest.None? then None
        else Some([(HexValue(s[1]).value * 16 + HexValue(s[2]).value) as char] + rest.value)
    else
      var rest := QueryUnescape(s[1..]);
      if rest.None? then None else Some([if s[0] == '+' then ' ' else s[0]] + rest.value)
  }

  /** A fragment that does not decode is taken as it stands. */
  function DecodeFragment(f: string): string {
    if f == "" then "" else QueryUnescape(f).GetOr(f)
  }

  // ---------- round trips ----------

  lemma {:induction false} HexRoundTrip(c: char)
    requires c < 256 as char
    ensures c as int / 16 % 16 == c as int / 16
    ensures HexValue(HexDigit(c as int / 16)) == Some(c as int / 16)
    ensures HexValue(HexDigit(c as int % 16)) == Some(c as int % 16)
    ensures ((c as int / 16) * 16 + c as int % 16) as char == c
  {
  }

  /** Decoding what one escaped byte and then `rest` encode. */
  lemma {:induction false} UnescapeByte(c: char, rest: string)
    requires c < 256 as char && QueryUnescape(rest).Some?
    ensures QueryUnescape(PercentByte(c) + rest) == Some([c] + QueryUnescape(rest).value)
  {
    HexRoundTrip(c);
    var s := PercentByte(c) + rest;
    assert s[3..] == rest && s[1] == HexDigit(c as int / 16) && s[2] == HexDigit(c as int % 16);
  }

  lemma {:induction false} UnescapePlain(c: char, rest: string)
    requires c != '%' && QueryUnescape(rest).Some?
    ensures QueryUnescape([c] + rest) == Some([if c == '+' then ' ' else c] + QueryUnescape(rest).value)
  {
    var s := [c] + rest;
    assert s[1..] == rest;
  }

  lemma {:induction false} QueryRoundTrip(s: string)
    requires Bytes(s)
    ensures QueryUnescape(QueryEscape(s)) == Some(s)
  {
    if s != "" {
      QueryRoundTrip(s[1..]);
      var rest := QueryEscape(s[1..]);
      if Unreserved(s[0]) {
        UnescapePlain(s[0], rest);
      } else if s[0] == ' ' {
        UnescapePlain('+', rest);
        assert "+" == ['+'];
      } else {
        UnescapeByte(s[0], rest);
      }
      assert s == [s[0]] + s[1..];
    }
  }

  lemma {:induction false} UrlRoundTrip(s: string)
    requires Bytes(s)
    ensures QueryUnescape(UrlEscape(s)) == Some(s)
  {
    if s != "" {
      UrlRoundTrip(s[1..]);
      if Unreserved(s[0]) {
        UnescapePlain(s[0], UrlEscape(s[1..]));
      } else {
        UnescapeByte(s[0], UrlEscape(s[1..]));
      }
      assert s == [s[0]] + s[1..];
    }
  }

  lemma {:induction false} PlusAppend(a: string, b: string)
    ensures PlusToPercent(a + b) == PlusToPercent(a) + PlusToPercent(b)
  {
    if a == "" {
      assert a + b == b;
    } else {
      assert (a + b)[1..] == a[1..] + b;
      PlusAppend(a[1..], b);
    }
  }

  lemma {:induction false} PlusKeeps(s: string)
    requires '+' !in s
    ensures PlusToPercent(s) == s
  {
    if s != "" {
      PlusKeeps(s[1..]);
    }
  }

  /** The two fragment encoders are one function. */
  lemma {:induction false} EncodersAgree(s: string)
    ensures EncodeFragment(s) == UrlEscape(s)
  {
    if s != "" {
      EncodersAgree(s[1..]);
      var head := if Unreserved(s[0]) then [s[0]] else if s[0] == ' ' then "+" else PercentByte(s[0]);
      PlusAppend(head, QueryEscape(s[1..]));
      if s[0] == ' ' {
        assert PlusToPercent("+") == "%20" + PlusToPercent("");
        assert PercentByte(' ') == "%20";
      } else {
        PlusKeeps(head);
      }
    }
  }

  /** decodeFragment inverts both encoders on every byte string. */
  lemma {:induction false} FragmentRoundTrip(s: string)
    requires Bytes(s)
    ensures DecodeFragment(EncodeFragment(s)) == s == DecodeFragment(UrlEscape(s))
  {
    EncodersAgree(s);
    UrlRoundTrip(s);
  }

  /** UrlEscape as a printer that writes its hexadecimal digits small. */
  function SmallEscape(s: string): string {
    if s == "" then ""
    else (if Unreserved(s[0]) then [s[0]] else ToLower(PercentByte(s[0]))) + SmallEscape(s[1..])
  }

  lemma {:induction false} SmallByte(c: char, rest: string)
    requires c < 256 as char && QueryUnescape(rest).Some?
    ensures QueryUnescape(ToLower(PercentByte(c)) + rest) == Some([c] + QueryUnescape(rest).value)
  {
    HexRoundTrip(c);
    var p, s := ToLower(PercentByte(c)), ToLower(PercentByte(c)) + rest;
    assert s[3..] == rest && s[0] == '%';
    assert s[1] == Lower(HexDigit(c as int / 16)) && s[2] == Lower(HexDigit(c as int % 16));
  }

  lemma {:induction false} SmallUnescape(s: string)
    requires Bytes(s)
    ensures QueryUnescape(SmallEscape(s)) == Some(s)
  {
    if s != "" {
      SmallUnescape(s[1..]);
      if Unreserved(s[0]) {
        UnescapePlain(s[0], SmallEscape(s[1..]));
      } else {
        SmallByte(s[0], SmallEscape(s[1..]));
      }
      assert s == [s[0]] + s[1..];
    }
  }

  /** Capital and small hexadecimal digits decode alike (section 2.1 of RFC 3986). */
  lemma {:induction false} SmallRoundTrip(s: string)
    requires Bytes(s)
    ensures DecodeFragment(SmallEscape(s)) == s == DecodeFragment(UrlEscape(s))
  {
    UrlRoundTrip(s);
    SmallUnescape(s);
  }

  // ---------- the alphabet of encoded text ----------

  predicate EscapeChar(c: char) {
    Unreserved(c) || c == '%' || c == '+'
  }

  predicate Escaped(s: string) {
    forall i :: 0 <= i < |s| ==> EscapeChar(s[i])
  }

  /** Encoded text contains no link delimiter and no white space, and is empty only for empty text. */
  lemma {:induction false} EscapeAlphabet(s: string)
    ensures Escaped(QueryEscape(s)) && Escaped(UrlEscape(s))
    ensures |QueryEscape(s)| >= |s| && |UrlEscape(s)| >= |s|
  {
    if s != "" {
      EscapeAlphabet(s[1..]);
    }
  }
}

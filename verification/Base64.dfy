/** Base64 (sections 4 and 5 of RFC 4648) and the lenient decoder of internal/link/link.go, which tries the
    standard and the URL alphabet, padded and unpadded, in turn. */
module Base64 {
  import opened Wrappers
  import opened Text

  predicate InAlphabet(c: char) {
    'A' <= c <= 'Z' || 'a' <= c <= 'z' || '0' <= c <= '9' || c == '+' || c == '/' || c == '-' || c == '_'
  }

  /** `url` selects the URL-safe alphabet. */
  function Symbol(url: bool, i: int): (c: char)
    requires 0 <= i < 64
    ensures InAlphabet(c)
  {
    if i < 26 then ('A' as int + i) as char
    else if i < 52 then ('a' as int + i - 26) as char
    else if i < 62 then ('0' as int + i - 52) as char
    else if i == 62 then (if url then '-' else '+')
    else if url then '_' else '/'
  }

  function Sextet(url: bool, c: char): (r: Option<int>)
    ensures r.Some? ==> 0 <= r.value < 64 && InAlphabet(c)
  {
    if 'A' <= c <= 'Z' then Some(c as int - 'A' as int)
    else if 'a' <= c <= 'z' then Some(c as int - 'a' as int + 26)
    else if '0' <= c <= '9' then Some(c as int - '0' as int + 52)
    else if c == (if url then '-' else '+') then Some(62)
    else if c == (if url then '_' else '/') then Some(63)
    else None
  }

  // ---------- encoding ----------

  function Encode1(url: bool, a: int): string
    requires 0 <= a < 256
  {
    [Symbol(url, a / 4), Symbol(url, a % 4 * 16)]
  }

  function Encode2(url: bool, a: int, b: int): string
    requires 0 <= a < 256 && 0 <= b < 256
  {
    [Symbol(url, a / 4), Symbol(url, a % 4 * 16 + b / 16), Symbol(url, b % 16 * 4)]
  }

  function Encode3(url: bool, a: int, b: int, c: int): string
    requires 0 <= a < 256 && 0 <= b < 256 && 0 <= c < 256
  {
    [Symbol(url, a / 4), Symbol(url, a % 4 * 16 + b / 16), Symbol(url, b % 16 * 4 + c / 64), Symbol(url, c % 64)]
  }

  function ByteOf(c: char): (b: int)
    ensures 0 <= b < 256
    ensures c < 256 as char ==> b == c as int
  {
    c as int % 256
  }

  /** Unpadded encoding. */
  function RawEncode(url: bool, s: string): string {
    if |s| == 0 then ""
    else if |s| == 1 then Encode1(url, ByteOf(s[0]))
    else if |s| == 2 then Encode2(url, ByteOf(s[0]), ByteOf(s[1]))
    else Encode3(url, ByteOf(s[0]), ByteOf(s[1]), ByteOf(s[2])) + RawEncode(url, s[3..])
  }

  function Padding(n: nat): string {
    if n % 3 == 1 then "==" else if n % 3 == 2 then "=" else ""
  }

  function Encode(url: bool, padded: bool, s: string): string {
    RawEncode(url, s) + if padded then Padding(|s|) else ""
  }

  // ---------- decoding ----------

  /** Decoding text without padding; left-over low bits are ignored, one left-over symbol is an error. */
  function RawDecode(url: bool, t: string): Option<string> {
    if |t| == 0 then Some("")
    else if |t| == 1 then None
    else
      var w, x := Sextet(url, t[0]), Sextet(url, t[1]);
      if w.None? || x.None? then None
      else
        var a := (w.value * 4 + x.value / 16) as char;
        if |t| == 2 then Some([a])
        else
          var y := Sextet(url, t[2]);
          if y.None? then None
          else
            var b := (x.value % 16 * 16 + y.value / 4) as char;
            if |t| == 3 then Some([a, b])
            else
              var z := Sextet(url, t[3]);
              if z.None? then None
              else
                var rest := RawDecode(url, t[4..]);
                if rest.None? then None
                else Some([a, b, (y.value % 4 * 64 + z.value) as char] + rest.value)
  }

  /** DecodeString on text that does not end in '=': a padded encoding wants whole quanta. */
  function DecodeString(url: bool, padded: bool, t: string): Option<string> {
    if padded && |t| % 4 != 0 then None else RawDecode(url, t)
  }

  /** Drops the characters that are in `cut`. */
  function Without(s: string, cut: string): string {
    if s == "" then ""
    else if s[0] in cut then Without(s[1..], cut)
    else [s[0]] + Without(s[1..], cut)
  }

  function SpaceToPlus(s: string): (r: string)
    ensures |r| == |s|
  {
    seq(|s|, i requires 0 <= i < |s| => if s[i] == ' ' then '+' else s[i])
  }

  /** strings.TrimRight(s, "="). */
  function TrimEquals(s: string): (r: string)
    ensures r <= s && (r == "" || r[|r| - 1] != '=')
  {
    if s != "" && s[|s| - 1] == '=' then TrimEquals(s[..|s| - 1]) else s
  }

  /** The k-th attempt: StdEncoding, RawStdEncoding, URLEncoding, RawURLEncoding. */
  function Attempt(t: string, k: nat): Option<string> {
    DecodeString(k >= 2, k % 2 == 0, t)
  }

  /** The first attempt from the k-th on that accepts t. */
  function TryFrom(t: string, k: nat): Option<string>
    requires k <= 4
    decreases 4 - k
  {
    if k == 4 then None else if Attempt(t, k).Some? then Attempt(t, k) else TryFrom(t, k + 1)
  }

  function Cleaned(s: string): string {
    Without(TrimSpace(s), "\n\r\t")
  }

  /** The cleaned text as it is; if no encoding accepts that, with its blanks read as '+'. */
  function DecodeCleaned(t: string): Option<string> {
    var first := TryFrom(TrimEquals(t), 0);
    if first.Some? || ' ' !in t then first else TryFrom(TrimEquals(SpaceToPlus(t)), 0)
  }

  /** decodeBase64Loose. */
  function DecodeLoose(s: string): Option<string> {
    DecodeCleaned(Cleaned(s))
  }

  /** One candidate against the four encodings. */
  method TryEncodings(trimmed: string) returns (r: Option<string>)
    ensures r == TryFrom(trimmed, 0)
  {
    for k := 0 to 4
      invariant TryFrom(trimmed, 0) == TryFrom(trimmed, k)
    {
      r := DecodeString(k >= 2, k % 2 == 0, trimmed);
      if r.Some? {
        return;
      }
    }
    r := None;
  }

  /** decodeBase64Loose, as the source's loop over candidates. */
  method DecodeBase64Loose(s: string) returns (r: Option<string>)
    ensures r == DecodeLoose(s)
  {
    var t := Without(TrimSpace(s), "\n\r\t");
    var candidates := [t];
    if ' ' in t {
      candidates := [t, SpaceToPlus(t)];
    }
    for c := 0 to |candidates|
      invariant c > 0 ==> TryFrom(TrimEquals(t), 0).None?
      invariant c > 1 ==> TryFrom(TrimEquals(SpaceToPlus(t)), 0).None?
    {
      var cand := candidates[c];
      assert cand == if c == 0 then t else SpaceToPlus(t);
      r := TryEncodings(TrimEquals(cand));
      if r.Some? {
        assert r == DecodeCleaned(t);
        return;
      }
    }
    r := None;
  }

  // ---------- round trips ----------

  lemma {:induction false} SextetSymbol(url: bool, i: int)
    requires 0 <= i < 64
    ensures Sextet(url, Symbol(url, i)) == Some(i)
  {
  }

  lemma {:induction false} Recombine(a: int, b: int, c: int)
    requires 0 <= a < 256 && 0 <= b < 256 && 0 <= c < 256
    ensures a / 4 * 4 + (a % 4 * 16 + b / 16) / 16 == a
    ensures (a % 4 * 16 + b / 16) % 16 * 16 + (b % 16 * 4 + c / 64) / 4 == b
    ensures (b % 16 * 4 + c / 64) % 4 * 64 + c % 64 == c
  {
  }

  /** Decoding four symbols and what follows them. */
  lemma {:induction false} DecodeQuad(url: bool, w: int, x: int, y: int, z: int, rest: string)
    requires 0 <= w < 64 && 0 <= x < 64 && 0 <= y < 64 && 0 <= z < 64 && RawDecode(url, rest).Some?
    ensures RawDecode(url, [Symbol(url, w), Symbol(url, x), Symbol(url, y), Symbol(url, z)] + rest)
         == Some([(w * 4 + x / 16) as char, (x % 16 * 16 + y / 4) as char, (y % 4 * 64 + z) as char]
                 + RawDecode(url, rest).value)
  {
    var t := [Symbol(url, w), Symbol(url, x), Symbol(url, y), Symbol(url, z)] + rest;
    SextetSymbol(url, w);
    SextetSymbol(url, x);
    SextetSymbol(url, y);
    SextetSymbol(url, z);
    assert t[4..] == rest;
  }

  lemma {:induction false} DecodeThree(url: bool, w: int, x: int, y: int)
    requires 0 <= w < 64 && 0 <= x < 64 && 0 <= y < 64
    ensures RawDecode(url, [Symbol(url, w), Symbol(url, x)]) == Some([(w * 4 + x / 16) as char])
    ensures RawDecode(url, [Symbol(url, w), Symbol(url, x), Symbol(url, y)])
         == Some([(w * 4 + x / 16) as char, (x % 16 * 16 + y / 4) as char])
  {
    SextetSymbol(url, w);
    SextetSymbol(url, x);
    SextetSymbol(url, y);
  }

  /** The four sextets of three bytes. */
  lemma {:induction false} Sextets(url: bool, a: char, b: char, c: char) returns (w: int, x: int, y: int, z: int)
    requires a < 256 as char && b < 256 as char && c < 256 as char
    ensures 0 <= w < 64 && 0 <= x < 64 && 0 <= y < 64 && 0 <= z < 64
    ensures Encode3(url, a as int, b as int, c as int)
        == [Symbol(url, w), Symbol(url, x), Symbol(url, y), Symbol(url, z)]
    ensures (w * 4 + x / 16) as char == a && (x % 16 * 16 + y / 4) as char == b && (y % 4 * 64 + z) as char == c
  {
    var i, j, k := a as int, b as int, c as int;
    w, x, y, z := i / 4, i % 4 * 16 + j / 16, j % 16 * 4 + k / 64, k % 64;
    Recombine(i, j, k);
    assert w * 4 + x / 16 == i && x % 16 * 16 + y / 4 == j && y % 4 * 64 + z == k;
  }

  lemma {:induction false} DecodeBlock(url: bool, a: char, b: char, c: char, rest: string)
    requires a < 256 as char && b < 256 as char && c < 256 as char && RawDecode(url, rest).Some?
    ensures RawDecode(url, Encode3(url, a as int, b as int, c as int) + rest)
         == Some([a, b, c] + RawDecode(url, rest).value)
  {
    var w, x, y, z := Sextets(url, a, b, c);
    DecodeQuad(url, w, x, y, z, rest);
  }

  lemma {:induction false} DecodeTail1(url: bool, a: char)
    requires a < 256 as char
    ensures RawDecode(url, Encode1(url, a as int)) == Some([a])
  {
    var w, x := a as int / 4, a as int % 4 * 16;
    DecodeThree(url, w, x, 0);
    assert w * 4 + x / 16 == a as int;
  }

  lemma {:induction false} DecodeTail2(url: bool, a: char, b: char)
    requires a < 256 as char && b < 256 as char
    ensures RawDecode(url, Encode2(url, a as int, b as int)) == Some([a, b])
  {
    var i, j := a as int, b as int;
    var w, x, y := i / 4, i % 4 * 16 + j / 16, j % 16 * 4;
    Recombine(i, j, 0);
    assert w * 4 + x / 16 == i && x % 16 * 16 + y / 4 == j;
    DecodeThree(url, w, x, y);
    assert Encode2(url, i, j) == [Symbol(url, w), Symbol(url, x), Symbol(url, y)];
  }

  lemma {:induction false} TailRoundTrip(url: bool, s: string)
    requires Bytes(s) && |s| <= 2
    ensures RawDecode(url, RawEncode(url, s)) == Some(s)
  {
    if |s| == 1 {
      DecodeTail1(url, s[0]);
      var t := RawEncode(url, s);
      assert t == Encode1(url, s[0] as int);
      assert s == [s[0]];
    } else if |s| == 2 {
      DecodeTail2(url, s[0], s[1]);
      var t := RawEncode(url, s);
      assert t == Encode2(url, s[0] as int, s[1] as int);
      assert s == [s[0], s[1]];
    }
  }

  lemma {:induction false} EncodeStep(url: bool, s: string)
    requires Bytes(s) && |s| > 2
    ensures RawEncode(url, s) == Encode3(url, s[0] as int, s[1] as int, s[2] as int) + RawEncode(url, s[3..])
    ensures s == [s[0], s[1], s[2]] + s[3..]
  {
  }

  lemma {:induction false} RawRoundTrip(url: bool, s: string)
    requires Bytes(s)
    ensures RawDecode(url, RawEncode(url, s)) == Some(s)
  {
    if |s| <= 2 {
      TailRoundTrip(url, s);
    } else {
      RawRoundTrip(url, s[3..]);
      EncodeStep(url, s);
      DecodeBlock(url, s[0], s[1], s[2], RawEncode(url, s[3..]));
    }
  }

  /** Decoders that accept the same text agree on it. */
  lemma {:induction false} DecodersAgree(t: string)
    requires RawDecode(false, t).Some? && RawDecode(true, t).Some?
    ensures RawDecode(false, t) == RawDecode(true, t)
  {
    if |t| >= 4 {
      DecodersAgree(t[4..]);
    }
  }

  /** The four attempts amount to: the standard alphabet if it accepts the text, else the URL alphabet. */
  lemma {:induction false} TryAll(t: string)
    ensures TryFrom(t, 0) == if RawDecode(false, t).Some? then RawDecode(false, t) else RawDecode(true, t)
  {
    assert TryFrom(t, 4) == None;
    assert TryFrom(t, 3) == RawDecode(true, t);
    assert TryFrom(t, 2) == RawDecode(true, t);
    assert TryFrom(t, 1) == if RawDecode(false, t).Some? then RawDecode(false, t) else RawDecode(true, t);
  }

  lemma {:induction false} EncodedAlphabet(url: bool, s: string)
    ensures forall i :: 0 <= i < |RawEncode(url, s)| ==> InAlphabet(RawEncode(url, s)[i])
  {
    if |s| > 2 {
      EncodedAlphabet(url, s[3..]);
      var block := Encode3(url, ByteOf(s[0]), ByteOf(s[1]), ByteOf(s[2]));
      assert forall i :: 0 <= i < |block| ==> InAlphabet(block[i]);
    }
  }

  lemma {:induction false} PaddedAlphabet(s: string)
    ensures var t := Encode(false, true, s);
            (forall c :: c in t ==> InAlphabet(c) || c == '=') && (s != "" ==> t != "")
  {
    EncodedAlphabet(false, s);
  }

  /** Text in the alphabet, with padding, has no link mark and nothing to trim. */
  lemma {:induction false} AlphabetText(t: string)
    requires forall c :: c in t ==> InAlphabet(c) || c == '='
    ensures '@' !in t && '?' !in t && '#' !in t && Trimmed(t) && (t != "" ==> Solid(t[|t| - 1]))
  {
    if t != "" {
      assert t[0] in t && t[|t| - 1] in t;
    }
  }

  lemma {:induction false} TrimPadding(t: string, n: nat)
    requires t == "" || t[|t| - 1] != '='
    ensures TrimEquals(t) == t && TrimEquals(t + Padding(n)) == t
  {
    var one := t + "=";
    assert one[..|t|] == t;
    var two := t + "==";
    assert two[..|t| + 1] == one;
    assert t + "" == t;
  }

  lemma {:induction false} NothingToDrop(s: string, cut: string)
    requires forall i :: 0 <= i < |s| ==> s[i] !in cut
    ensures Without(s, cut) == s
  {
    if s != "" {
      NothingToDrop(s[1..], cut);
    }
  }

  lemma {:induction false} CleanAlready(t: string)
    requires forall i :: 0 <= i < |t| ==> InAlphabet(t[i]) || t[i] == '='
    ensures Cleaned(t) == t
  {
    assert Trimmed(t);
    TrimSpaceFixed(t);
    NothingToDrop(t, "\n\r\t");
  }

  /** The lenient decoder inverts all four encodings on every byte string. */
  lemma {:induction false} LooseInvertsAll(url: bool, padded: bool, s: string)
    requires Bytes(s)
    ensures DecodeLoose(Encode(url, padded, s)) == Some(s)
  {
    var raw, t := RawEncode(url, s), Encode(url, padded, s);
    EncodedAlphabet(url, s);
    CleanAlready(t);
    TrimPadding(raw, |s|);
    assert raw + "" == raw;
    TryAll(raw);
    RawRoundTrip(url, s);
    if url && RawDecode(false, raw).Some? {
      DecodersAgree(raw);
    }
  }

  // ---------- what the decoder accepts ----------

  predicate Acceptable(c: char) {
    InAlphabet(c) || c in "= \n\r\t"
  }

  lemma {:induction false} RawAccepts(url: bool, t: string)
    requires RawDecode(url, t).Some?
    ensures forall i :: 0 <= i < |t| ==> InAlphabet(t[i])
  {
    if |t| >= 4 {
      RawAccepts(url, t[4..]);
      forall i | 4 <= i < |t|
        ensures InAlphabet(t[i])
      {
        assert t[i] == t[4..][i - 4];
      }
    }
  }

  lemma {:induction false} TrimEqualsChars(s: string)
    ensures forall i :: |TrimEquals(s)| <= i < |s| ==> s[i] == '='
  {
    if s != "" && s[|s| - 1] == '=' {
      TrimEqualsChars(s[..|s| - 1]);
    }
  }

  lemma {:induction false} WithoutChars(s: string, cut: string)
    ensures forall c :: c in s ==> c in cut || c in Without(s, cut)
  {
    if s != "" {
      WithoutChars(s[1..], cut);
    }
  }

  /** Text that one round of attempts accepts. */
  lemma {:induction false} TryAccepts(u: string)
    requires TryFrom(TrimEquals(u), 0).Some?
    ensures forall i :: 0 <= i < |u| ==> InAlphabet(u[i]) || u[i] == '='
  {
    var raw := TrimEquals(u);
    TryAll(raw);
    RawAccepts(RawDecode(false, raw).None?, raw);
    TrimEqualsChars(u);
    forall i | 0 <= i < |u|
      ensures InAlphabet(u[i]) || u[i] == '='
    {
      if i < |raw| {
        assert raw[i] == u[i];
      }
    }
  }

  /** Text that decodes holds, between its outer white space, only base64 symbols, '=', and inner blanks. */
  lemma {:induction false} LooseAccepts(s: string)
    requires DecodeLoose(s).Some?
    ensures forall c :: c in TrimSpace(s) ==> Acceptable(c)
  {
    var t := Cleaned(s);
    var u := if TryFrom(TrimEquals(t), 0).Some? then t else SpaceToPlus(t);
    TryAccepts(u);
    forall c | c in t
      ensures Acceptable(c)
    {
      var i :| 0 <= i < |t| && t[i] == c;
      assert InAlphabet(u[i]) || u[i] == '=';
    }
    WithoutChars(TrimSpace(s), "\n\r\t");
  }

  /** Outer white space does not matter. */
  lemma {:induction false} LooseTrims(s: string)
    ensures DecodeLoose(TrimSpace(s)) == DecodeLoose(s)
  {
    TrimSpaceFixed(s);
    TrimSpaceFixed(TrimSpace(s));
  }
}

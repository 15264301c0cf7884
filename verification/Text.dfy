/** Go strings as byte strings: each `char` of a `string` is one byte. */
module Text {
  import opened Wrappers

  /** Every character is a byte. */
  predicate Bytes(s: string) {
    forall i :: 0 <= i < |s| ==> s[i] < 256 as char
  }

  // ---------- searching ----------

  /** strings.IndexByte: the first place of c, or -1. */
  function IndexByte(s: string, c: char): (i: int)
    ensures -1 <= i < |s|
    ensures i >= 0 ==> s[i] == c && c !in s[..i]
    ensures i < 0 ==> c !in s
  {
    if s == "" then -1
    else if s[0] == c then 0
    else
      var i := IndexByte(s[1..], c);
      if i < 0 then -1
      else
        assert s[..i + 1] == [s[0]] + s[1..][..i];
        i + 1
  }

  /** strings.LastIndex of one byte: the last place of c, or -1. */
  function LastIndexByte(s: string, c: char): (i: int)
    ensures -1 <= i < |s|
    ensures i >= 0 ==> s[i] == c && c !in s[i + 1..]
    ensures i < 0 ==> c !in s
  {
    if s == "" then -1
    else
      var i := LastIndexByte(s[1..], c);
      if i >= 0 then
        assert s[i + 2..] == s[1..][i + 1..];
        i + 1
      else if s[0] == c then 0 else -1
  }

  /** strings.Index(s, "://"). */
  function IndexSep(s: string): (i: int)
    ensures -1 <= i <= |s| - 3 || i == -1
    ensures i >= 0 ==> s[i..i + 3] == "://"
  {
    if |s| < 3 then -1
    else if s[..3] == "://" then 0
    else
      var i := IndexSep(s[1..]);
      if i < 0 then -1
      else
        assert s[i + 1..i + 4] == s[1..][i..i + 3];
        i + 1
  }

  lemma {:induction false} IndexAfter(a: string, c: char, b: string)
    requires c !in a
    ensures IndexByte(a + [c] + b, c) == |a|
  {
    if a != "" {
      assert (a + [c] + b)[1..] == a[1..] + [c] + b;
      IndexAfter(a[1..], c, b);
    }
  }

  lemma {:induction false} LastIndexBefore(a: string, c: char, b: string)
    requires c !in b
    ensures LastIndexByte(a + [c] + b, c) == |a|
  {
    var s := a + [c] + b;
    if a == "" {
      assert s[1..] == b;
    } else {
      assert s[1..] == a[1..] + [c] + b;
      LastIndexBefore(a[1..], c, b);
    }
  }

  lemma {:induction false} IndexSepAfter(a: string, b: string)
    requires ':' !in a
    ensures IndexSep(a + "://" + b) == |a|
  {
    var s := a + "://" + b;
    if a == "" {
      assert s[..3] == "://";
    } else {
      assert s[0] == a[0];
      assert s[..3][0] == a[0];
      assert s[1..] == a[1..] + "://" + b;
      IndexSepAfter(a[1..], b);
    }
  }

  // ---------- case and white space ----------

  /** ASCII lower case; other bytes are kept. */
  function Lower(c: char): char {
    if 'A' <= c <= 'Z' then (c as int + 32) as char else c
  }

  function ToLower(s: string): (r: string)
    ensures |r| == |s| && forall i :: 0 <= i < |s| ==> r[i] == Lower(s[i])
  {
    seq(|s|, i requires 0 <= i < |s| => Lower(s[i]))
  }

  predicate AsciiSpace(c: char) {
    c == ' ' || '\t' <= c <= '\r'
  }

  /** An ASCII character that is no white space. */
  predicate Solid(c: char) {
    c < 128 as char && !AsciiSpace(c)
  }

  /** Two bytes that encode a white-space rune (U+0085, U+00A0). */
  predicate Space2(a: char, b: char) {
    a as int == 0xC2 && (b as int == 0x85 || b as int == 0xA0)
  }

  /** Three bytes that encode a white-space rune (U+1680, U+2000-200A, U+2028, U+2029, U+202F, U+205F, U+3000). */
  predicate Space3(a: char, b: char, c: char) {
    || (a as int == 0xE1 && b as int == 0x9A && c as int == 0x80)
    || (a as int == 0xE2 && b as int == 0x80 &&
        (0x80 <= c as int <= 0x8A || c as int == 0xA8 || c as int == 0xA9 || c as int == 0xAF))
    || (a as int == 0xE2 && b as int == 0x81 && c as int == 0x9F)
    || (a as int == 0xE3 && b as int == 0x80 && c as int == 0x80)
  }

  /** The length of the white-space rune that s starts with, or 0. */
  function LeadingSpace(s: string): (n: nat)
    ensures n <= |s|
  {
    if |s| >= 1 && AsciiSpace(s[0]) then 1
    else if |s| >= 2 && Space2(s[0], s[1]) then 2
    else if |s| >= 3 && Space3(s[0], s[1], s[2]) then 3
    else 0
  }

  /** The length of the white-space rune that s ends with, or 0. */
  function TrailingSpace(s: string): (n: nat)
    ensures n <= |s|
  {
    var k := |s|;
    if k >= 1 && AsciiSpace(s[k - 1]) then 1
    else if k >= 2 && Space2(s[k - 2], s[k - 1]) then 2
    else if k >= 3 && Space3(s[k - 3], s[k - 2], s[k - 1]) then 3
    else 0
  }

  function TrimLeft(s: string): (r: string)
    ensures LeadingSpace(r) == 0
    decreases |s|
  {
    var n := LeadingSpace(s);
    if n == 0 then s else TrimLeft(s[n..])
  }

  function TrimRight(s: string): (r: string)
    ensures TrailingSpace(r) == 0
    ensures r <= s
    decreases |s|
  {
    var n := TrailingSpace(s);
    if n == 0 then s else TrimRight(s[..|s| - n])
  }

  /** strings.TrimSpace. */
  function TrimSpace(s: string): string {
    TrimRight(TrimLeft(s))
  }

  /** No white space at either end. */
  predicate Trimmed(s: string) {
    LeadingSpace(s) == 0 && TrailingSpace(s) == 0
  }

  lemma {:induction false} TrimSpaceFixed(s: string)
    ensures TrimSpace(s) == s <==> Trimmed(s)
    ensures Trimmed(TrimSpace(s))
  {
    var l := TrimLeft(s);
    TrimRightLeading(l);
    if TrimSpace(s) == s {
      assert LeadingSpace(TrimRight(l)) == 0;
    }
  }

  /** Trimming the right end cannot make the left end a white-space rune. */
  lemma {:induction false} TrimRightLeading(s: string)
    requires LeadingSpace(s) == 0
    ensures LeadingSpace(TrimRight(s)) == 0
    decreases |s|
  {
    var n := TrailingSpace(s);
    if n != 0 {
      var t := s[..|s| - n];
      assert LeadingSpace(t) == 0;
      TrimRightLeading(t);
    }
  }

  // ---------- decimal numbers ----------

  predicate Digit(c: char) {
    '0' <= c <= '9'
  }

  predicate Digits(s: string) {
    forall i :: 0 <= i < |s| ==> Digit(s[i])
  }

  /** The decimal digits of n, as fmt's %d and strconv.Itoa print them. */
  function Decimal(n: nat): (s: string)
    ensures |s| > 0 && Digits(s)
  {
    if n < 10 then [('0' as int + n) as char]
    else Decimal(n / 10) + [('0' as int + n % 10) as char]
  }

  function Itoa(n: int): string {
    if n < 0 then "-" + Decimal(-n) else Decimal(n)
  }

  function Value(s: string): nat
    requires Digits(s)
  {
    if s == "" then 0 else 10 * Value(s[..|s| - 1]) + (s[|s| - 1] as int - '0' as int)
  }

  const MAX_INT64: int := 0x7fff_ffff_ffff_ffff

  function SignedValue(neg: bool, digits: string): Option<int> {
    if digits == "" || !Digits(digits) then None
    else
      var v: int := Value(digits);
      var n := if neg then -v else v;
      if -MAX_INT64 - 1 <= n <= MAX_INT64 then Some(n) else None
  }

  /** strconv.Atoi on a 64-bit platform: an optional sign, at least one digit, nothing else, in range. */
  function Atoi(s: string): Option<int> {
    if s != "" && s[0] == '-' then SignedValue(true, s[1..])
    else if s != "" && s[0] == '+' then SignedValue(false, s[1..])
    else SignedValue(false, s)
  }

  /** What strconv.Atoi gives when its error is ignored: the bound for a number out of range, else 0. */
  function AtoiValue(s: string): int {
    var signed := s != "" && (s[0] == '-' || s[0] == '+');
    var digits := if signed then s[1..] else s;
    if Atoi(s).Some? then Atoi(s).value
    else if digits == "" || !Digits(digits) then 0
    else if s[0] == '-' then -MAX_INT64 - 1
    else MAX_INT64
  }

  lemma {:induction false} ValueDecimal(n: nat)
    ensures Value(Decimal(n)) == n
  {
    if n >= 10 {
      ValueDecimal(n / 10);
      assert Decimal(n)[..|Decimal(n)| - 1] == Decimal(n / 10);
    } else {
      assert Decimal(n)[..0] == "";
    }
  }

  /** Printing and reading back an int64. */
  lemma {:induction false} AtoiItoa(n: int)
    requires -MAX_INT64 - 1 <= n <= MAX_INT64
    ensures Atoi(Itoa(n)) == Some(n)
  {
    if n < 0 {
      ValueDecimal(-n);
      assert ("-" + Decimal(-n))[1..] == Decimal(-n);
    } else {
      ValueDecimal(n);
      assert Digit(Decimal(n)[0]);
    }
  }
}

/** Fixed-width big-endian keys, and why ordering them as byte strings orders the numbers they hold. */
module BigEndian {
  type Byte = x: int | 0 <= x < 256

  function Pow256(n: nat): (p: nat)
    ensures p > 0
  {
    if n == 0 then 1 else 256 * Pow256(n - 1)
  }

  const TWO_64: int := 0x1_0000_0000_0000_0000
  const TWO_63: int := 0x8000_0000_0000_0000

  lemma {:induction false} Pow256Of8()
    ensures Pow256(8) == TWO_64
  {
    assert Pow256(2) == 0x1_0000;
    assert Pow256(4) == 0x1_0000_0000;
    assert Pow256(6) == 0x1_0000_0000_0000;
  }

  /** Fills the buffer with the low-order bytes of x, most significant first. */
  function Encode(buf: seq<Byte>, x: nat): (k: seq<Byte>)
    ensures |k| == |buf|
  {
    if buf == [] then []
    else
      var p := Pow256(|buf| - 1);
      [(x / p) % 256] + Encode(buf[1..], x % p)
  }

  /** An eight-byte buffer. */
  function Buffer8(): (buf: seq<Byte>)
    ensures |buf| == 8
  {
    seq(8, i => 0)
  }

  function Decode(k: seq<Byte>): nat {
    if k == [] then 0 else k[0] * Pow256(|k| - 1) + Decode(k[1..])
  }

  /** Byte-string order, as the database keeps its keys. */
  predicate Less(a: seq<Byte>, b: seq<Byte>) {
    if b == [] then false
    else if a == [] then true
    else a[0] < b[0] || (a[0] == b[0] && Less(a[1..], b[1..]))
  }

  lemma {:induction false} DecodeBound(k: seq<Byte>)
    ensures Decode(k) < Pow256(|k|)
  {
    if k != [] {
      DecodeBound(k[1..]);
      ScaleDown(k[0], 256, Pow256(|k| - 1));
    }
  }

  /** A digit below the base leaves room for one more unit of weight p. */
  lemma {:induction false} ScaleDown(a: nat, b: nat, p: nat)
    requires a < b
    ensures a * p + p <= b * p
  {
    var c := b - a - 1;
    assert b * p == (c + (a + 1)) * p == c * p + (a + 1) * p;
    assert (a + 1) * p == a * p + p;
  }

  lemma {:induction false} DecodeEncode(buf: seq<Byte>, x: nat)
    requires x < Pow256(|buf|)
    ensures Decode(Encode(buf, x)) == x
  {
    if buf != [] {
      var p := Pow256(|buf| - 1);
      DivBelow(x, p);
      DecodeEncode(buf[1..], x % p);
      assert Encode(buf, x)[1..] == Encode(buf[1..], x % p);
    }
  }

  lemma {:induction false} DivBelow(x: nat, p: nat)
    requires p > 0 && x < 256 * p
    ensures 0 <= x / p < 256 && (x / p) % 256 == x / p && x == (x / p) * p + x % p && 0 <= x % p < p
  {
  }

  /** Keys of one width sort as the numbers they hold. */
  lemma {:induction false} OrderPreserved(a: seq<Byte>, b: seq<Byte>)
    requires |a| == |b|
    ensures Less(a, b) <==> Decode(a) < Decode(b)
  {
    if a != [] {
      var p := Pow256(|a| - 1);
      OrderPreserved(a[1..], b[1..]);
      DecodeBound(a[1..]);
      DecodeBound(b[1..]);
      if a[0] < b[0] {
        ScaleDown(a[0], b[0], p);
      } else if b[0] < a[0] {
        ScaleDown(b[0], a[0], p);
      }
    }
  }

  lemma {:induction false} LessTotal(a: seq<Byte>, b: seq<Byte>)
    ensures Less(a, b) || a == b || Less(b, a)
    ensures Less(a, b) ==> a != b && !Less(b, a)
  {
    if a != [] && b != [] {
      LessTotal(a[1..], b[1..]);
      assert a == [a[0]] + a[1..] && b == [b[0]] + b[1..];
    }
  }

  lemma {:induction false} LessTransitive(a: seq<Byte>, b: seq<Byte>, c: seq<Byte>)
    requires Less(a, b) && Less(b, c)
    ensures Less(a, c)
  {
    if a != [] && b != [] && c != [] && a[0] == b[0] == c[0] {
      LessTransitive(a[1..], b[1..], c[1..]);
    }
  }
}

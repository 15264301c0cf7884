/** net/url's query strings: ParseQuery as an ordered list of pairs, and the first-match lookup of Values.Get. */
module Query {
  import opened Wrappers
  import opened Text
  import opened Percent

  type Pairs = seq<(string, string)>

  /** The segments of a query string: the texts between its '&' marks. */
  function Segments(q: string): (r: seq<string>)
    ensures |r| > 0
    decreases |q|
  {
    var i := IndexByte(q, '&');
    if i < 0 then [q] else [q[..i]] + Segments(q[i + 1..])
  }

  /** What one segment contributes: nothing when it is empty, holds a semicolon, or does not decode. */
  function Segment(seg: string): Pairs {
    if seg == "" || ';' in seg then []
    else
      var e := IndexByte(seg, '=');
      var key := QueryUnescape(if e < 0 then seg else seg[..e]);
      var val := QueryUnescape(if e < 0 then "" else seg[e + 1..]);
      if key.None? || val.None? then [] else [(key.value, val.value)]
  }

  function Collect(segs: seq<string>): Pairs {
    if segs == [] then [] else Segment(segs[0]) + Collect(segs[1..])
  }

  /** url.ParseQuery, its error ignored as the link package does. */
  function ParseQuery(q: string): Pairs {
    Collect(Segments(q))
  }

  /** Values.Get: the first value of key k, or "". */
  function Get(ps: Pairs, k: string): string {
    if ps == [] then "" else if ps[0].0 == k then ps[0].1 else Get(ps[1..], k)
  }

  predicate HasKey(ps: Pairs, k: string) {
    ps != [] && (ps[0].0 == k || HasKey(ps[1..], k))
  }

  /** The first non-empty Get over the keys, in order. */
  function GetFirst(ps: Pairs, keys: seq<string>): string {
    if keys == [] then ""
    else if Get(ps, keys[0]) != "" then Get(ps, keys[0])
    else GetFirst(ps, keys[1..])
  }

  lemma {:induction false} SegmentsStep(h: string, t: string)
    requires '&' !in h
    ensures Segments(h + "&" + t) == [h] + Segments(t)
  {
    var q := h + ['&'] + t;
    IndexAfter(h, '&', t);
    assert q[..|h|] == h && q[|h| + 1..] == t;
  }

  lemma {:induction false} Regroup<T>(h: seq<T>, m: seq<T>, t: seq<T>, b: seq<T>)
    ensures (h + m + t) + m + b == h + m + (t + m + b)
  {
  }

  lemma {:induction false} SegmentsJoin(a: string, b: string)
    ensures Segments(a + "&" + b) == Segments(a) + Segments(b)
    decreases |a|
  {
    var i := IndexByte(a, '&');
    if i < 0 {
      SegmentsStep(a, b);
    } else {
      var h, t := a[..i], a[i + 1..];
      assert a == h + "&" + t;
      Regroup(h, "&", t, b);
      SegmentsJoin(t, b);
      SegmentsStep(h, t + "&" + b);
      Assoc([h], Segments(t), Segments(b));
    }
  }

  lemma {:induction false} CollectJoin(a: seq<string>, b: seq<string>)
    ensures Collect(a + b) == Collect(a) + Collect(b)
  {
    if a == [] {
      assert a + b == b;
    } else {
      assert (a + b)[1..] == a[1..] + b;
      CollectJoin(a[1..], b);
    }
  }

  /** Two query strings joined by '&' parse to both lists of pairs in order. */
  lemma {:induction false} ParseJoin(a: string, b: string)
    ensures ParseQuery(a + "&" + b) == ParseQuery(a) + ParseQuery(b)
  {
    SegmentsJoin(a, b);
    CollectJoin(Segments(a), Segments(b));
  }

  lemma {:induction false} ParseSingle(q: string)
    requires '&' !in q
    ensures ParseQuery(q) == Segment(q)
  {
    assert Segments(q) == [q];
    assert [q][1..] == [];
    assert Collect([q]) == Segment(q) + Collect([]);
  }

  lemma {:induction false} ParseEmpty()
    ensures ParseQuery("") == []
  {
    ParseSingle("");
  }

  /** A query of one key and value that are spelled without '&', ';', and, in the key, '='. */
  lemma {:induction false} ParseOne(key: string, val: string)
    requires '&' !in key && '&' !in val && ';' !in key && ';' !in val && '=' !in key
    requires QueryUnescape(key).Some? && QueryUnescape(val).Some?
    ensures ParseQuery(key + "=" + val) == [(QueryUnescape(key).value, QueryUnescape(val).value)]
  {
    var q := key + "=" + val;
    assert q == key + ['='] + val;
    IndexAfter(key, '=', val);
    assert q[..|key|] == key && q[|key| + 1..] == val;
    ParseSingle(q);
  }

  lemma {:induction false} GetJoin(a: Pairs, b: Pairs, k: string)
    ensures Get(a + b, k) == if HasKey(a, k) then Get(a, k) else Get(b, k)
  {
    if a == [] {
      assert a + b == b;
    } else {
      assert (a + b)[1..] == a[1..] + b;
      GetJoin(a[1..], b, k);
    }
  }

  lemma {:induction false} GetMissing(a: Pairs, k: string)
    ensures !HasKey(a, k) ==> Get(a, k) == ""
  {
    if a != [] {
      GetMissing(a[1..], k);
    }
  }
}

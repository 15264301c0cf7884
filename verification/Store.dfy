/** The hourly traffic buckets of internal/store/store.go: one key-value bucket per node, keyed by the
    big-endian hour, read through a cursor. The buckets are proved to be an index over the log of samples. */
module Store {
  import opened Wrappers
  import opened BigEndian
  import opened Traffic

  type Key = seq<Byte>

  /** An int64 as the uint64 of the same bits, and back. */
  function ToUint64(x: int): nat
    requires -TWO_63 <= x < TWO_63
  {
    if x >= 0 then x else x + TWO_64
  }

  function ToInt64(u: nat): int
    requires u < TWO_64
  {
    if u < TWO_63 then u else u - TWO_64
  }

  function HourKey(ts: int): (k: Key)
    requires -TWO_63 <= ts < TWO_63
    ensures |k| == 8
  {
    Encode(Buffer8(), ToUint64(ts))
  }

  function KeyHour(k: Key): (ts: int)
    requires |k| == 8
    ensures -TWO_63 <= ts < TWO_63
  {
    Pow256Of8();
    DecodeBound(k);
    ToInt64(Decode(k))
  }

  /** The stored value: both sums as big-endian uint64. */
  function Pack(b: Bytes): (v: seq<Byte>)
    ensures |v| == 16
  {
    Encode(Buffer8(), b.inBytes % TWO_64) + Encode(Buffer8(), b.outBytes % TWO_64)
  }

  function Unpack(v: seq<Byte>): Bytes
    requires |v| == 16
  {
    Bytes(Decode(v[..8]), Decode(v[8..]))
  }

  function Wrap(b: Bytes): Bytes {
    Bytes(b.inBytes % TWO_64, b.outBytes % TWO_64)
  }

  lemma {:induction false} UnpackPack(b: Bytes)
    ensures Unpack(Pack(b)) == Wrap(b)
  {
    Pow256Of8();
    DecodeEncode(Buffer8(), b.inBytes % TWO_64);
    DecodeEncode(Buffer8(), b.outBytes % TWO_64);
    assert Pack(b)[..8] == Encode(Buffer8(), b.inBytes % TWO_64)
        && Pack(b)[8..] == Encode(Buffer8(), b.outBytes % TWO_64);
  }

  lemma {:induction false} KeyRoundTrip(ts: int)
    requires -TWO_63 <= ts < TWO_63
    ensures KeyHour(HourKey(ts)) == ts
  {
    Pow256Of8();
    DecodeEncode(Buffer8(), ToUint64(ts));
  }

  /** From 1970 on, the key order is the time order; an hour before 1970 sorts after all of them. */
  lemma {:induction false} KeyOrder(a: int, b: int)
    requires -TWO_63 <= a < TWO_63 && -TWO_63 <= b < TWO_63
    ensures Less(HourKey(a), HourKey(b)) <==> if (a >= 0) == (b >= 0) then a < b else a >= 0
  {
    Pow256Of8();
    DecodeEncode(Buffer8(), ToUint64(a));
    DecodeEncode(Buffer8(), ToUint64(b));
    OrderPreserved(HourKey(a), HourKey(b));
  }

  // ---------- the sample log ----------

  ghost predicate Logged(log: seq<Sample>, id: string, hour: int) {
    exists i :: 0 <= i < |log| && log[i].id == id && log[i].hour == hour
  }

  /** The samples not before `before`, in order. */
  function Since(log: seq<Sample>, before: int): seq<Sample> {
    if log == [] then []
    else if log[0].hour >= before then [log[0]] + Since(log[1..], before)
    else Since(log[1..], before)
  }

  lemma {:induction false} RangeCons(s: Sample, log: seq<Sample>, id: string, from: int, to: int, k: nat)
    requires k <= |log|
    ensures RangeUpTo([s] + log, id, from, to, k + 1)
         == if InRange(s, id, from, to) then s.bytes.Plus(RangeUpTo(log, id, from, to, k))
             else RangeUpTo(log, id, from, to, k)
  {
    var l := [s] + log;
    if k == 0 {
      assert RangeUpTo(l, id, from, to, 0) == ZERO;
    } else {
      RangeCons(s, log, id, from, to, k - 1);
      assert l[k] == log[k - 1];
    }
  }

  /** Pruning removes from every range exactly what lies before the cut. */
  lemma {:induction false} RangeSince(log: seq<Sample>, before: int, id: string, from: int, to: int)
    ensures RangeSum(Since(log, before), id, from, to)
         == RangeSum(log, id, if from < before then before else from, to)
    ensures forall h :: Logged(Since(log, before), id, h) <==> h >= before && Logged(log, id, h)
    ensures forall s :: s in Since(log, before) ==> s in log
  {
    if log != [] {
      var s, rest := log[0], log[1..];
      var from' := if from < before then before else from;
      RangeSince(rest, before, id, from, to);
      assert log == [s] + rest;
      RangeCons(s, rest, id, from', to, |rest|);
      LoggedCons(s, rest, id);
      if s.hour >= before {
        RangeCons(s, Since(rest, before), id, from, to, |Since(rest, before)|);
        LoggedCons(s, Since(rest, before), id);
      }
    }
  }

  lemma {:induction false} LoggedCons(s: Sample, log: seq<Sample>, id: string)
    ensures forall h :: Logged([s] + log, id, h) <==> (s.id == id && s.hour == h) || Logged(log, id, h)
  {
    forall h
      ensures Logged([s] + log, id, h) <==> (s.id == id && s.hour == h) || Logged(log, id, h)
    {
      var l := [s] + log;
      if s.id == id && s.hour == h {
        assert l[0].hour == h;
      } else if Logged(log, id, h) {
        var i :| 0 <= i < |log| && log[i].id == id && log[i].hour == h;
        assert l[i + 1] == log[i];
      }
    }
  }

  // ---------- points read back ----------

  datatype Point = Point(ts: int, bytes: Bytes)

  ghost predicate Sorted(out: seq<Point>) {
    forall i, j :: 0 <= i < j < |out| ==> out[i].ts < out[j].ts
  }

  ghost predicate HasPoint(out: seq<Point>, ts: int) {
    exists i :: 0 <= i < |out| && out[i].ts == ts
  }

  /** The first k points together. */
  function PointSum(out: seq<Point>, k: nat): Bytes
    requires k <= |out|
  {
    if k == 0 then ZERO else PointSum(out, k - 1).Plus(out[k - 1].bytes)
  }

  lemma {:induction false} WrapAdd(a: nat, b: nat, c: nat)
    requires a % TWO_64 == b % TWO_64
    ensures (a + c) % TWO_64 == (b + c) % TWO_64
  {
  }

  lemma {:induction false} WrapPlus(a: Bytes, b: Bytes, c: Bytes)
    requires Wrap(a) == Wrap(b)
    ensures Wrap(a.Plus(c)) == Wrap(b.Plus(c)) && Wrap(c.Plus(a)) == Wrap(c.Plus(b))
  {
    WrapAdd(a.inBytes, b.inBytes, c.inBytes);
    WrapAdd(a.outBytes, b.outBytes, c.outBytes);
  }

  /** The hours [from, to) split at `mid`. */
  lemma {:induction false} RangeSplit(log: seq<Sample>, id: string, from: int, mid: int, to: int, k: nat)
    requires from <= mid <= to && k <= |log|
    ensures RangeUpTo(log, id, from, to, k) == RangeUpTo(log, id, from, mid, k).Plus(RangeUpTo(log, id, mid, to, k))
  {
    if k > 0 {
      RangeSplit(log, id, from, mid, to, k - 1);
    }
  }

  lemma {:induction false} RangeQuiet(log: seq<Sample>, id: string, from: int, to: int, k: nat)
    requires k <= |log| && forall h :: from <= h < to ==> !Logged(log, id, h)
    ensures RangeUpTo(log, id, from, to, k) == ZERO
  {
    if k > 0 {
      RangeQuiet(log, id, from, to, k - 1);
      if InRange(log[k - 1], id, from, to) {
        assert Logged(log, id, log[k - 1].hour);
      }
    }
  }

  /** The hours [from, to) of which `ts` is the last one logged. */
  lemma {:induction false} LastHour(log: seq<Sample>, id: string, from: int, ts: int, to: int)
    requires from <= ts < to && forall h :: ts < h < to ==> !Logged(log, id, h)
    ensures RangeSum(log, id, from, to) == RangeSum(log, id, from, ts).Plus(HourSum(log, id, ts))
  {
    RangeSplit(log, id, from, ts, to, |log|);
    RangeSplit(log, id, ts, ts + 1, to, |log|);
    RangeQuiet(log, id, ts + 1, to, |log|);
  }

  lemma {:induction false} WrapSums(a: Bytes, b: Bytes, c: Bytes)
    requires Wrap(a) == Wrap(b)
    ensures Wrap(a.Plus(Wrap(c))) == Wrap(b.Plus(c))
  {
    WrapPlus(a, b, Wrap(c));
    WrapPlus(Wrap(c), c, b);
  }

  /** Sorted points that cover exactly the logged hours of [from, to), each with its hour's sum modulo 2^64,
      sum to the logged samples of that range modulo 2^64. */
  lemma {:induction false} PointsCoverRange(log: seq<Sample>, id: string, out: seq<Point>, k: nat, from: int, to: int)
    requires Sorted(out) && k <= |out|
    requires forall ts :: from <= ts < to && Logged(log, id, ts) ==> HasPoint(out[..k], ts)
    requires forall i :: 0 <= i < k ==> from <= out[i].ts < to && out[i].bytes == Wrap(HourSum(log, id, out[i].ts))
    ensures Wrap(PointSum(out, k)) == Wrap(RangeSum(log, id, from, to))
  {
    if k == 0 {
      RangeQuiet(log, id, from, to, |log|);
    } else {
      var ts := out[k - 1].ts;
      DropLast(out, k);
      PointsCoverRange(log, id, out, k - 1, from, ts);
      LastHour(log, id, from, ts, to);
      WrapSums(PointSum(out, k - 1), RangeSum(log, id, from, ts), HourSum(log, id, ts));
    }
  }

  lemma {:induction false} DropLast(out: seq<Point>, k: nat)
    requires Sorted(out) && 0 < k <= |out|
    ensures forall t :: t < out[k - 1].ts && HasPoint(out[..k], t) ==> HasPoint(out[..k - 1], t)
    ensures forall t :: out[k - 1].ts < t ==> !HasPoint(out[..k], t)
  {
    forall t | t < out[k - 1].ts && HasPoint(out[..k], t)
      ensures HasPoint(out[..k - 1], t)
    {
      var i :| 0 <= i < k && out[..k][i].ts == t;
      assert out[..k - 1][i].ts == t;
    }
  }

  // ---------- the store ----------

  /** The smallest key not before `k`, as a cursor's Seek finds it. */
  ghost predicate IsSeek(keys: set<Key>, k: Key, r: Option<Key>) {
    && (r.None? ==> forall x :: x in keys ==> Less(x, k))
    && (r.Some? ==> r.value in keys && !Less(r.value, k)
                    && forall x :: x in keys && !Less(x, k) ==> x == r.value || Less(r.value, x))
  }

  method Seek(keys: set<Key>, k: Key) returns (r: Option<Key>)
    ensures IsSeek(keys, k, r)
  {
    r := None;
    var todo := keys;
    while todo != {}
      invariant todo <= keys && IsSeek(keys - todo, k, r)
      decreases todo
    {
      var x :| x in todo;
      todo := todo - {x};
      forall y | y in keys
        ensures x == y || Less(x, y) || Less(y, x)
        ensures r.Some? && Less(x, r.value) && Less(r.value, y) ==> Less(x, y)
      {
        LessTotal(x, y);
        if r.Some? && Less(x, r.value) && Less(r.value, y) {
          LessTransitive(x, r.value, y);
        }
      }
      if !Less(x, k) && (r.None? || Less(x, r.value)) {
        r := Some(x);
      }
    }
    assert keys - todo == keys;
  }

  ghost predicate HourKeys(keys: set<Key>) {
    forall k :: k in keys ==> |k| == 8 && 0 <= KeyHour(k) && HourKey(KeyHour(k)) == k
  }

  /** The cursor stands on the first stored hour that is not before `c`. */
  ghost predicate AtHour(keys: set<Key>, k: Option<Key>, c: nat) {
    && (k.Some? ==> k.value in keys && |k.value| == 8 && KeyHour(k.value) >= c)
    && forall h :: c <= h < TWO_63 && HourKey(h) in keys ==>
         k.Some? && |k.value| == 8 && KeyHour(k.value) <= h
  }

  /** Seeking by key is seeking by time; from before 1970 the cursor starts past every stored hour. */
  lemma {:induction false} SeekByHour(keys: set<Key>, start: int, r: Option<Key>)
    requires HourKeys(keys) && -TWO_63 <= start < TWO_63 && IsSeek(keys, HourKey(start), r)
    ensures start >= 0 ==> AtHour(keys, r, start)
    ensures start < 0 ==> r.None?
  {
    KeyRoundTrip(start);
    if r.Some? {
      KeyOrder(KeyHour(r.value), start);
    }
    if start >= 0 {
      forall h | start <= h < TWO_63 && HourKey(h) in keys
        ensures r.Some? && KeyHour(r.value) <= h
      {
        KeyOrder(h, start);
        KeyRoundTrip(h);
        if r.Some? {
          KeyOrder(KeyHour(r.value), h);
        }
      }
    }
  }

  /** Stepping the cursor goes to the next stored hour. */
  lemma {:induction false} NextByHour(keys: set<Key>, k: Key, r: Option<Key>)
    requires HourKeys(keys) && k in keys && IsSeek(keys - {k}, k, r)
    ensures AtHour(keys, r, KeyHour(k) + 1)
  {
    if r.Some? {
      KeyOrder(KeyHour(r.value), KeyHour(k));
    }
    forall h | KeyHour(k) + 1 <= h < TWO_63 && HourKey(h) in keys
      ensures r.Some? && KeyHour(r.value) <= h
    {
      KeyOrder(h, KeyHour(k));
      KeyRoundTrip(h);
      if r.Some? {
        KeyOrder(KeyHour(r.value), h);
      }
    }
  }

  lemma {:induction false} LoggedAppend(log: seq<Sample>, s: Sample, id: string, h: int)
    ensures Logged(log + [s], id, h) <==> Logged(log, id, h) || (s.id == id && s.hour == h)
  {
    var l := log + [s];
    if s.id == id && s.hour == h {
      assert l[|log|].hour == h;
    } else if Logged(log, id, h) {
      var i :| 0 <= i < |log| && log[i].id == id && log[i].hour == h;
      assert l[i] == log[i];
    }
  }

  /** Points appended in time order extend the set of covered hours by one. */
  lemma {:induction false} AppendPoint(out: seq<Point>, p: Point)
    ensures forall ts :: HasPoint(out + [p], ts) <==> HasPoint(out, ts) || ts == p.ts
  {
    var o := out + [p];
    forall ts
      ensures HasPoint(o, ts) <==> HasPoint(out, ts) || ts == p.ts
    {
      if ts == p.ts {
        assert o[|out|].ts == ts;
      } else if HasPoint(out, ts) {
        var i :| 0 <= i < |out| && out[i].ts == ts;
        assert o[i].ts == ts;
      }
    }
  }

  /** A bucket without its hours before `before`. */
  function Kept(sub: map<Key, seq<Byte>>, before: int): map<Key, seq<Byte>>
    requires HourKeys(sub.Keys)
  {
    map k | k in sub && KeyHour(k) >= before :: sub[k]
  }

  lemma {:induction false} FirstByHour(keys: set<Key>, r: Option<Key>)
    requires HourKeys(keys) && IsSeek(keys, [], r)
    ensures AtHour(keys, r, 0)
  {
    forall h | 0 <= h < TWO_63 && HourKey(h) in keys
      ensures r.Some? && KeyHour(r.value) <= h
    {
      KeyRoundTrip(h);
      if r.Some? {
        KeyOrder(KeyHour(r.value), h);
      }
    }
  }

  type Bucket = map<Key, seq<Byte>>

  /** One hour of a node's bucket: stored exactly when logged, with the sum of its samples modulo 2^64. */
  ghost predicate HourIndexed(sub: Bucket, log: seq<Sample>, id: string, h: int)
    requires -TWO_63 <= h < TWO_63
  {
    && (HourKey(h) in sub <==> Logged(log, id, h))
    && (HourKey(h) in sub ==> sub[HourKey(h)] == Pack(HourSum(log, id, h)))
  }

  /** A node's bucket is an index over the node's samples. */
  ghost predicate Indexed(sub: Bucket, log: seq<Sample>, id: string) {
    && HourKeys(sub.Keys)
    && forall h :: 0 <= h < TWO_63 ==> HourIndexed(sub, log, id, h)
  }

  function SubBucket(t: map<string, Bucket>, id: string): Bucket {
    if id in t then t[id] else map[]
  }

  /** What AddTraffic leaves in the bucket of its node. */
  function AddTo(sub: Bucket, hour: int, d: Bytes): Bucket
    requires -TWO_63 <= hour < TWO_63
  {
    var key := HourKey(hour);
    var sum := if key in sub && |sub[key]| == 16 then Unpack(sub[key]) else ZERO;
    sub[key := Pack(sum.Plus(d))]
  }

  lemma {:induction false} SumWraps(total: Bytes, d: Bytes)
    ensures Pack(Wrap(total).Plus(d)) == Pack(total.Plus(d))
  {
    WrapPlus(Wrap(total), total, d);
  }

  lemma {:induction false} AddToHour(sub: Bucket, log: seq<Sample>, id: string, hour: int, d: Bytes)
    requires 0 <= hour < TWO_63 && HourIndexed(sub, log, id, hour)
    ensures HourIndexed(AddTo(sub, hour, d), log + [Sample(id, hour, d)], id, hour)
  {
    var s, total := Sample(id, hour, d), HourSum(log, id, hour);
    LoggedAppend(log, s, id, hour);
    RangeAppend(log, s, id, hour, hour + 1);
    assert HourSum(log + [s], id, hour) == total.Plus(d);
    if HourKey(hour) in sub {
      UnpackPack(total);
      SumWraps(total, d);
    } else {
      RangeQuiet(log, id, hour, hour + 1, |log|);
    }
  }

  /** A sample of another node or another hour. */
  lemma {:induction false} OtherSample(sub: Bucket, log: seq<Sample>, id: string, h: int, s: Sample)
    requires -TWO_63 <= h < TWO_63 && HourIndexed(sub, log, id, h) && (s.id != id || s.hour != h)
    ensures HourIndexed(sub, log + [s], id, h)
  {
    LoggedAppend(log, s, id, h);
    RangeAppend(log, s, id, h, h + 1);
  }

  lemma {:induction false} AddToIndexed(sub: Bucket, log: seq<Sample>, id: string, hour: int, d: Bytes)
    requires Indexed(sub, log, id) && 0 <= hour < TWO_63
    ensures Indexed(AddTo(sub, hour, d), log + [Sample(id, hour, d)], id)
  {
    KeyRoundTrip(hour);
    var added, s := AddTo(sub, hour, d), Sample(id, hour, d);
    forall h | 0 <= h < TWO_63
      ensures HourIndexed(added, log + [s], id, h)
    {
      assert HourIndexed(sub, log, id, h);
      if h == hour {
        AddToHour(sub, log, id, hour, d);
      } else {
        OtherHour(sub, log, id, hour, d, h);
        OtherSample(added, log, id, h, s);
      }
    }
  }

  lemma {:induction false} OtherHour(sub: Bucket, log: seq<Sample>, id: string, hour: int, d: Bytes, h: int)
    requires -TWO_63 <= h < TWO_63 && -TWO_63 <= hour < TWO_63 && h != hour && HourIndexed(sub, log, id, h)
    ensures HourIndexed(AddTo(sub, hour, d), log, id, h)
  {
    KeyRoundTrip(h);
    KeyRoundTrip(hour);
    assert HourKey(h) != HourKey(hour);
  }

  lemma {:induction false} OtherIndexed(sub: Bucket, log: seq<Sample>, id: string, s: Sample)
    requires Indexed(sub, log, id) && s.id != id
    ensures Indexed(sub, log + [s], id)
  {
    forall h | 0 <= h < TWO_63
      ensures HourIndexed(sub, log + [s], id, h)
    {
      OtherSample(sub, log, id, h, s);
    }
  }

  lemma {:induction false} KeptIndexed(sub: Bucket, log: seq<Sample>, id: string, before: int)
    requires Indexed(sub, log, id)
    ensures Indexed(Kept(sub, before), Since(log, before), id)
  {
    forall h | 0 <= h < TWO_63
      ensures HourIndexed(Kept(sub, before), Since(log, before), id, h)
    {
      assert HourIndexed(sub, log, id, h);
      KeyRoundTrip(h);
      RangeSince(log, before, id, h, h + 1);
    }
  }

  /** What a range read from hour `start` >= 0 has collected when the hours before `c` have been read. */
  ghost predicate ReadUpTo(out: seq<Point>, log: seq<Sample>, id: string, start: int, to: int, c: int) {
    && Sorted(out)
    && (forall ts :: HasPoint(out, ts) <==> start <= ts < to && ts < c && Logged(log, id, ts))
    && forall i :: 0 <= i < |out| ==> out[i].bytes == Wrap(HourSum(log, id, out[i].ts))
  }

  /** The next stored hour has been read. */
  lemma {:induction false} Advance(sub: Bucket, out: seq<Point>, log: seq<Sample>, id: string, start: int, to: int,
                                   c: nat, k: Key)
    requires Indexed(sub, log, id) && 0 <= start <= c && ReadUpTo(out, log, id, start, to, c)
    requires AtHour(sub.Keys, Some(k), c)
    requires KeyHour(k) < to
    ensures |sub[k]| == 16
    ensures ReadUpTo(out + [Point(KeyHour(k), Unpack(sub[k]))], log, id, start, to, KeyHour(k) + 1)
  {
    var ts := KeyHour(k);
    assert HourKey(ts) == k;
    assert HourIndexed(sub, log, id, ts);
    UnpackPack(HourSum(log, id, ts));
    var p := Point(ts, Unpack(sub[k]));
    AppendPoint(out, p);
    forall i | 0 <= i < |out|
      ensures out[i].ts < ts
    {
      assert HasPoint(out, out[i].ts);
    }
    forall t
      ensures HasPoint(out + [p], t) <==> start <= t < to && t < ts + 1 && Logged(log, id, t)
    {
      if c <= t <= ts {
        assert HourIndexed(sub, log, id, t);
      }
    }
  }

  /** Nothing stored is left to read. */
  lemma {:induction false} ReadAll(sub: Bucket, out: seq<Point>, log: seq<Sample>, id: string, start: int, to: int,
                                   c: int)
    requires Indexed(sub, log, id) && 0 <= start <= c <= TWO_63 && ReadUpTo(out, log, id, start, to, c)
    requires forall h :: c <= h < TWO_63 && h < to ==> HourKey(h) !in sub
    ensures ReadUpTo(out, log, id, start, to, TWO_63)
  {
    forall h | c <= h < TWO_63 && h < to
      ensures !Logged(log, id, h)
    {
      assert HourIndexed(sub, log, id, h);
    }
  }

  lemma {:induction false} CoveredRange(out: seq<Point>, log: seq<Sample>, id: string, start: int, to: int)
    requires forall s :: s in log ==> s.hour < TWO_63
    requires 0 <= start && ReadUpTo(out, log, id, start, to, TWO_63)
    ensures Wrap(PointSum(out, |out|)) == Wrap(RangeSum(log, id, start, to))
  {
    forall i | 0 <= i < |out|
      ensures start <= out[i].ts < to
    {
      assert HasPoint(out, out[i].ts);
    }
    assert out[..|out|] == out;
    forall ts | start <= ts < to && Logged(log, id, ts)
      ensures HasPoint(out, ts)
    {
      var i :| 0 <= i < |log| && log[i].id == id && log[i].hour == ts;
      assert log[i] in log;
    }
    PointsCoverRange(log, id, out, |out|, start, to);
  }

  /** The cursor loop of a range read. */
  method Scan(sub: Bucket, ghost log: seq<Sample>, ghost id: string, start: int, to: int) returns (out: seq<Point>)
    requires Indexed(sub, log, id) && -TWO_63 <= start < TWO_63
    ensures start >= 0 ==> ReadUpTo(out, log, id, start, to, TWO_63)
    ensures start < 0 ==> out == []
  {
    out := [];
    var k := Seek(sub.Keys, HourKey(start));
    SeekByHour(sub.Keys, start, k);
    if start < 0 {
      return;
    }
    ghost var c: nat := start;
    while k.Some?
      invariant start <= c <= TWO_63 && AtHour(sub.Keys, k, c) && ReadUpTo(out, log, id, start, to, c)
      decreases if k.Some? then TWO_63 - KeyHour(k.value) else 0
    {
      assert HourIndexed(sub, log, id, KeyHour(k.value));
      if |k.value| == 8 && |sub[k.value]| == 16 {
        var ts := KeyHour(k.value);
        if ts >= to {
          break;
        }
        Advance(sub, out, log, id, start, to, c, k.value);
        out := out + [Point(ts, Unpack(sub[k.value]))];
      }
      var next := Seek(sub.Keys - {k.value}, k.value);
      NextByHour(sub.Keys, k.value, next);
      c := KeyHour(k.value) + 1;
      k := next;
    }
    ReadAll(sub, out, log, id, start, to, c);
  }

  /** The keys of one bucket that lie before the cut, collected by cursor. */
  method Doomed(sub: Bucket, before: int) returns (doomed: set<Key>)
    requires HourKeys(sub.Keys)
    ensures sub - doomed == Kept(sub, before)
  {
    doomed := {};
    var k := Seek(sub.Keys, []);
    FirstByHour(sub.Keys, k);
    ghost var c: nat := 0;
    while k.Some?
      invariant AtHour(sub.Keys, k, c)
      invariant forall x :: x in doomed <==> x in sub.Keys && KeyHour(x) < before && KeyHour(x) < c
      decreases if k.Some? then TWO_63 - KeyHour(k.value) else 0
    {
      if |k.value| == 8 {
        if KeyHour(k.value) >= before {
          break;
        }
        doomed := doomed + {k.value};
      }
      var next := Seek(sub.Keys - {k.value}, k.value);
      NextByHour(sub.Keys, k.value, next);
      forall x | x in sub.Keys && c <= KeyHour(x) <= KeyHour(k.value)
        ensures x == k.value
      {
        assert HourKey(KeyHour(x)) == x && HourKey(KeyHour(k.value)) == k.value;
      }
      c := KeyHour(k.value) + 1;
      k := next;
    }
    forall x | x in sub.Keys && c <= KeyHour(x)
      ensures KeyHour(x) >= before
    {
      assert HourKey(KeyHour(x)) == x;
    }
  }

  lemma {:induction false} AddedValid(t: map<string, Bucket>, u: map<string, Bucket>, log: seq<Sample>,
                                      id: string, hour: int, d: Bytes)
    requires 0 <= hour < TWO_63 && u == t[id := AddTo(SubBucket(t, id), hour, d)]
    requires forall i :: Indexed(SubBucket(t, i), log, i)
    ensures forall i :: Indexed(SubBucket(u, i), log + [Sample(id, hour, d)], i)
  {
    forall i
      ensures Indexed(SubBucket(u, i), log + [Sample(id, hour, d)], i)
    {
      assert Indexed(SubBucket(t, i), log, i);
      if i == id {
        AddToIndexed(SubBucket(t, i), log, id, hour, d);
      } else {
        OtherIndexed(SubBucket(t, i), log, i, Sample(id, hour, d));
      }
    }
  }

  class Store {
    var traffic: map<string, Bucket>
    /** The samples added and not pruned; never read by the code. */
    ghost var log: seq<Sample>

    constructor ()
      ensures Valid() && log == []
    {
      traffic, log := map[], [];
    }

    ghost predicate Valid()
      reads this
    {
      && (forall s :: s in log ==> 0 <= s.hour < TWO_63)
      && forall id :: Indexed(SubBucket(traffic, id), log, id)
    }

    method AddTraffic(id: string, hour: int, d: Bytes)
      requires Valid() && 0 <= hour < TWO_63
      modifies this
      ensures Valid()
      ensures log == if d.IsZero() then old(log) else old(log) + [Sample(id, hour, d)]
    {
      if d.IsZero() {
        return;
      }
      var sub: Bucket := if id in traffic then traffic[id] else map[];
      var key := HourKey(hour);
      var sum := ZERO;
      if key in sub && |sub[key]| == 16 {
        sum := Unpack(sub[key]);
      }
      ghost var before, added := traffic, AddTo(sub, hour, d);
      sub := sub[key := Pack(sum.Plus(d))];
      assert sub == added;
      traffic := traffic[id := sub];
      AddedValid(before, traffic, log, id, hour, d);
      log := log + [Sample(id, hour, d)];
    }

    /** The points of the hours from the hour of `from` up to, not including, `to`. */
    method RangeTraffic(id: string, from: int, to: int) returns (out: seq<Point>)
      requires Valid() && -TWO_63 <= from < TWO_63
      ensures from > -3600 ==> ReadUpTo(out, log, id, LocalHourStart(from), to, TWO_63)
      ensures from > -3600 ==> Wrap(PointSum(out, |out|)) == Wrap(RangeSum(log, id, LocalHourStart(from), to))
      ensures from <= -3600 ==> out == []
    {
      var start := LocalHourStart(from);
      assert Indexed(SubBucket(traffic, id), log, id);
      if id !in traffic {
        out := [];
        if start >= 0 {
          ReadAll(SubBucket(traffic, id), out, log, id, start, to, start);
        }
      } else {
        out := Scan(traffic[id], log, id, start, to);
      }
      if start >= 0 {
        CoveredRange(out, log, id, start, to);
      }
    }

    /** PruneTraffic: every bucket loses its hours before `before`. */
    method PruneTraffic(before: int)
      requires Valid()
      modifies this
      ensures Valid() && log == Since(old(log), before)
    {
      forall id | id in traffic
        ensures HourKeys(traffic[id].Keys)
      {
        assert Indexed(SubBucket(traffic, id), log, id);
      }
      var todo := traffic.Keys;
      while todo != {}
        invariant log == old(log) && traffic.Keys == old(traffic).Keys && todo <= traffic.Keys
        invariant forall id :: id in traffic ==> HourKeys(old(traffic)[id].Keys)
        invariant forall id :: id in traffic ==>
                    traffic[id] == if id in todo then old(traffic)[id] else Kept(old(traffic)[id], before)
        decreases todo
      {
        var name :| name in todo;
        todo := todo - {name};
        var doomed := Doomed(traffic[name], before);
        traffic := traffic[name := traffic[name] - doomed];
      }
      forall id
        ensures Indexed(SubBucket(traffic, id), Since(log, before), id)
      {
        KeptIndexed(SubBucket(old(traffic), id), log, id, before);
        assert SubBucket(traffic, id) == Kept(SubBucket(old(traffic), id), before);
      }
      RangeSince(log, before, "", 0, 0);
      log := Since(log, before);
    }
  }
}

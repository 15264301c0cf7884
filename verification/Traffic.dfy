/** Byte counts in both directions, hours, and the log of traffic samples that the hourly store keeps. */
module Traffic {
  /** `inBytes` is client upload, `outBytes` client download. */
  datatype Bytes = Bytes(inBytes: nat, outBytes: nat) {
    // the empty `reads` clause only keeps the verifier from evaluating sums of literals
    function Plus(b: Bytes): Bytes
      reads {}
    {
      Bytes(inBytes + b.inBytes, outBytes + b.outBytes)
    }

    predicate IsZero() {
      inBytes == 0 && outBytes == 0
    }

    predicate AtMost(b: Bytes) {
      inBytes <= b.inBytes && outBytes <= b.outBytes
    }
  }

  const ZERO := Bytes(0, 0)

  /** How far a cumulative counter has moved; a counter that went back counts as not moved. */
  function Delta(prev: nat, cur: nat): (d: nat)
    ensures prev <= cur ==> prev + d == cur
    ensures cur <= prev ==> d == 0
  {
    (if cur >= prev then cur else prev) - prev
  }

  function BytesDelta(prev: Bytes, cur: Bytes): Bytes {
    Bytes(Delta(prev.inBytes, cur.inBytes), Delta(prev.outBytes, cur.outBytes))
  }

  datatype Sample = Sample(id: string, hour: int, bytes: Bytes)

  /** The bytes that the first k samples of the log attribute to node `id`. */
  function SumUpTo(log: seq<Sample>, id: string, k: nat): Bytes
    requires k <= |log|
  {
    if k == 0 then ZERO
    else if log[k - 1].id == id then SumUpTo(log, id, k - 1).Plus(log[k - 1].bytes)
    else SumUpTo(log, id, k - 1)
  }

  /** All bytes that the log attributes to node `id`. */
  function LogSum(log: seq<Sample>, id: string): Bytes {
    SumUpTo(log, id, |log|)
  }

  lemma {:induction false} SumUpToPrefix(log: seq<Sample>, more: seq<Sample>, id: string, k: nat)
    requires k <= |log|
    ensures SumUpTo(log + more, id, k) == SumUpTo(log, id, k)
  {
    if k > 0 {
      SumUpToPrefix(log, more, id, k - 1);
    }
  }

  lemma {:induction false} LogSumAppend(log: seq<Sample>, s: Sample, id: string)
    ensures LogSum(log + [s], id)
         == if s.id == id then LogSum(log, id).Plus(s.bytes) else LogSum(log, id)
  {
    SumUpToPrefix(log, [s], id, |log|);
  }

  // ---------- hours ----------

  /** The start of the hour of ts; Go's remainder takes the sign of its left operand. */
  function LocalHourStart(ts: int): int {
    if ts >= 0 then ts - ts % 3600 else ts + (-ts) % 3600
  }

  /** The result is a full hour, and `ts` lies in that hour; before 1970 the truncating remainder makes it the hour's
      end instead. */
  lemma {:induction false} HourHolds(ts: int)
    ensures LocalHourStart(ts) % 3600 == 0
    ensures ts >= 0 ==> LocalHourStart(ts) <= ts < LocalHourStart(ts) + 3600
    ensures ts < 0 ==> LocalHourStart(ts) - 3600 < ts <= LocalHourStart(ts)
  {
  }

  predicate InRange(s: Sample, id: string, from: int, to: int) {
    s.id == id && from <= s.hour < to
  }

  /** What the first k samples say about node `id` in the hours [from, to). */
  function RangeUpTo(log: seq<Sample>, id: string, from: int, to: int, k: nat): Bytes
    requires k <= |log|
  {
    if k == 0 then ZERO
    else if InRange(log[k - 1], id, from, to) then RangeUpTo(log, id, from, to, k - 1).Plus(log[k - 1].bytes)
    else RangeUpTo(log, id, from, to, k - 1)
  }

  function RangeSum(log: seq<Sample>, id: string, from: int, to: int): Bytes {
    RangeUpTo(log, id, from, to, |log|)
  }

  function HourSum(log: seq<Sample>, id: string, hour: int): Bytes {
    RangeSum(log, id, hour, hour + 1)
  }

  lemma {:induction false} RangePrefix(log: seq<Sample>, more: seq<Sample>, id: string, from: int, to: int, k: nat)
    requires k <= |log|
    ensures RangeUpTo(log + more, id, from, to, k) == RangeUpTo(log, id, from, to, k)
  {
    if k > 0 {
      RangePrefix(log, more, id, from, to, k - 1);
    }
  }

  lemma {:induction false} RangeAppend(log: seq<Sample>, s: Sample, id: string, from: int, to: int)
    ensures RangeSum(log + [s], id, from, to)
         == if InRange(s, id, from, to) then RangeSum(log, id, from, to).Plus(s.bytes) else RangeSum(log, id, from, to)
  {
    RangePrefix(log, [s], id, from, to, |log|);
  }

  /** Samples of one hour, added at the end, raise exactly the ranges that hold the hour, each by what they hold of the
      node. */
  lemma {:induction false} RangesGrow(log: seq<Sample>, more: seq<Sample>, hour: int, id: string, from: int, to: int)
    requires forall s :: s in more ==> s.hour == hour
    ensures if from <= hour < to
            then RangeSum(log + more, id, from, to).Plus(LogSum(log, id))
                 == RangeSum(log, id, from, to).Plus(LogSum(log + more, id))
            else RangeSum(log + more, id, from, to) == RangeSum(log, id, from, to)
  {
    if more == [] {
      assert log + more == log;
    } else {
      var n := |more| - 1;
      RangesGrow(log, more[..n], hour, id, from, to);
      assert log + more == (log + more[..n]) + [more[n]];
      RangeAppend(log + more[..n], more[n], id, from, to);
      LogSumAppend(log + more[..n], more[n], id);
    }
  }
}

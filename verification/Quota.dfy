/** Quotas: what the panel counts in a quota window (internal/controller/controller.go, WindowUsed), how it reconciles
    the engine's counters with that, and what REALITY nodes are charged (internal/controller/sampler.go). */
module Quota {
  import opened Wrappers
  import opened BigEndian
  import opened Traffic
  import opened Store
  import GostConfig
  import GostNode
  import Text

  // ---------- what a direction counts ----------

  function Counted(direction: string, b: Bytes): nat {
    if direction == "in" then b.inBytes else if direction == "out" then b.outBytes else b.inBytes + b.outBytes
  }

  /** The charge of a REALITY node: anything but "in" counts both ways. */
  function RealityCounted(direction: string, b: Bytes): nat {
    b.inBytes + if direction != "in" then b.outBytes else 0
  }

  /** The two engines charge alike exactly when the direction is not "out", or nothing came in. */
  lemma {:induction false} DirectionsAgreeIff(direction: string, b: Bytes)
    ensures RealityCounted(direction, b) == Counted(direction, b) <==> direction != "out" || b.inBytes == 0
  {
  }

  // ---------- exact sums over points ----------

  /** Every hour of the range stays below 2^64 in both directions. */
  predicate Small(b: Bytes) {
    b.inBytes + b.outBytes < TWO_64
  }

  lemma {:induction false} RangeMonotone(log: seq<Sample>, id: string, from: int, to: int, from2: int, to2: int, k: nat)
    requires k <= |log| && from2 <= from && to <= to2
    ensures RangeUpTo(log, id, from, to, k).AtMost(RangeUpTo(log, id, from2, to2, k))
  {
    if k > 0 {
      RangeMonotone(log, id, from, to, from2, to2, k - 1);
    }
  }

  lemma {:induction false} HourSmall(log: seq<Sample>, id: string, hour: int, from: int, to: int)
    requires from <= hour < to && Small(RangeSum(log, id, from, to))
    ensures Wrap(HourSum(log, id, hour)) == HourSum(log, id, hour)
  {
    RangeMonotone(log, id, hour, hour + 1, from, to, |log|);
  }

  /** Sorted points that cover exactly the logged hours of [from, to) sum to the logged samples of that range. */
  lemma {:induction false} PointsExact(log: seq<Sample>, id: string, out: seq<Point>, k: nat, from: int, to: int)
    requires Sorted(out) && k <= |out|
    requires forall ts :: from <= ts < to && Logged(log, id, ts) ==> HasPoint(out[..k], ts)
    requires forall i :: 0 <= i < k ==> from <= out[i].ts < to && out[i].bytes == HourSum(log, id, out[i].ts)
    ensures PointSum(out, k) == RangeSum(log, id, from, to)
  {
    if k == 0 {
      RangeQuiet(log, id, from, to, |log|);
    } else {
      var ts := out[k - 1].ts;
      DropLast(out, k);
      PointsExact(log, id, out, k - 1, from, ts);
      LastHour(log, id, from, ts, to);
    }
  }

  /** What a range read returns, when nothing overflows. */
  lemma {:induction false} ReadExact(out: seq<Point>, log: seq<Sample>, id: string, start: int, to: int)
    requires 0 <= start && ReadUpTo(out, log, id, start, to, TWO_63) && forall s :: s in log ==> s.hour < TWO_63
    requires Small(RangeSum(log, id, start, to))
    ensures PointSum(out, |out|) == RangeSum(log, id, start, to)
  {
    forall i | 0 <= i < |out|
      ensures start <= out[i].ts < to && out[i].bytes == HourSum(log, id, out[i].ts)
    {
      assert HasPoint(out, out[i].ts);
      HourSmall(log, id, out[i].ts, start, to);
    }
    assert out[..|out|] == out;
    forall ts | start <= ts < to && Logged(log, id, ts)
      ensures HasPoint(out, ts)
    {
      var i :| 0 <= i < |log| && log[i].id == id && log[i].hour == ts;
      assert log[i] in log;
    }
    PointsExact(log, id, out, |out|, start, to);
  }

  // ---------- the quota window ----------

  /** Where the window starts: the engine's window or the quota's own start, whichever is later. */
  function WindowFrom(startsAt: Option<int>, since: int): int {
    var from := startsAt.GetOr(0);
    if since > from then since else from
  }

  /** What a window counts, on the log of samples. A start an hour or more before 1970 reads nothing. */
  function WindowUsed(log: seq<Sample>, id: string, direction: string, from: int, now: int): nat {
    if from <= -3600 then 0 else Counted(direction, RangeSum(log, id, LocalHourStart(from), now + 1))
  }

  /** Nothing in the window overflows a uint64. */
  ghost predicate WindowSmall(log: seq<Sample>, id: string, from: int, now: int) {
    from > -3600 ==> Small(RangeSum(log, id, LocalHourStart(from), now + 1))
  }

  /** The use of a `total` quota is the uses of `in` and `out` together. */
  lemma {:induction false} TotalIsBoth(log: seq<Sample>, id: string, from: int, now: int)
    ensures WindowUsed(log, id, "total", from, now)
        == WindowUsed(log, id, "in", from, now) + WindowUsed(log, id, "out", from, now)
  {
  }

  /** What one sample adds to the use of node `id`'s quota: its bytes in the quota's direction, if its hour is neither
      before the hour of the engine's window nor before that of the quota's own start, and has begun by `now`. */
  function Share(s: Sample, id: string, direction: string, startsAt: int, since: int, now: int): nat {
    if s.id == id && LocalHourStart(startsAt) <= s.hour && LocalHourStart(since) <= s.hour <= now then
      if direction == "in" then s.bytes.inBytes
      else if direction == "out" then s.bytes.outBytes
      else s.bytes.inBytes + s.bytes.outBytes
    else 0
  }

  function Shares(log: seq<Sample>, id: string, direction: string, startsAt: int, since: int, now: int, k: nat): nat
    requires k <= |log|
  {
    if k == 0 then 0
    else
      Shares(log, id, direction, startsAt, since, now, k - 1) + Share(log[k - 1], id, direction, startsAt, since, now)
  }

  /** What the panel should count: the shares of all samples. When both starts lie an hour or more before 1970 it counts
      nothing. */
  function DueUse(log: seq<Sample>, id: string, direction: string, startsAt: int, since: int, now: int): nat {
    if startsAt <= -3600 && since <= -3600 then 0 else Shares(log, id, direction, startsAt, since, now, |log|)
  }

  /** The panel's count is the shares of all samples, from both starts on. */
  lemma {:induction false} UseIsDue(log: seq<Sample>, id: string, direction: string, startsAt: Option<int>, since: int,
                                    now: int)
    ensures WindowUsed(log, id, direction, WindowFrom(startsAt, since), now)
         == DueUse(log, id, direction, startsAt.GetOr(0), since, now)
  {
    var from := WindowFrom(startsAt, since);
    LaterHour(startsAt.GetOr(0), since);
    if from > -3600 {
      SharesOf(log, id, direction, startsAt.GetOr(0), since, LocalHourStart(from), now, |log|);
    }
  }

  lemma {:induction false} LaterHour(a: int, b: int)
    ensures LocalHourStart(Max(a, b)) == Max(LocalHourStart(a), LocalHourStart(b))
  {
    HourHolds(a);
    HourHolds(b);
  }

  lemma {:induction false} SharesOf(log: seq<Sample>, id: string, direction: string, startsAt: int, since: int,
                                    hour: int, now: int, k: nat)
    requires k <= |log| && hour == Max(LocalHourStart(startsAt), LocalHourStart(since))
    ensures Counted(direction, RangeUpTo(log, id, hour, now + 1, k))
         == Shares(log, id, direction, startsAt, since, now, k)
  {
    if k > 0 {
      SharesOf(log, id, direction, startsAt, since, hour, now, k - 1);
    }
  }

  /** Sampling only raises the use, by exactly the bytes of a sample whose hour is not before the hour of either start;
      any other sample leaves it alone. */
  lemma {:induction false} SamplingRaises(log: seq<Sample>, s: Sample, id: string, direction: string,
                                          startsAt: Option<int>, since: int, now: int)
    ensures var from, a := WindowFrom(startsAt, since), startsAt.GetOr(0);
            WindowUsed(log + [s], id, direction, from, now)
            == WindowUsed(log, id, direction, from, now)
               + (if a <= -3600 && since <= -3600 then 0 else Share(s, id, direction, a, since, now))
  {
    UseIsDue(log, id, direction, startsAt, since, now);
    UseIsDue(log + [s], id, direction, startsAt, since, now);
    SharesPrefix(log, [s], id, direction, startsAt.GetOr(0), since, now, |log|);
  }

  lemma {:induction false} SharesPrefix(log: seq<Sample>, more: seq<Sample>, id: string, direction: string,
                                        startsAt: int, since: int, now: int, k: nat)
    requires k <= |log|
    ensures Shares(log + more, id, direction, startsAt, since, now, k)
         == Shares(log, id, direction, startsAt, since, now, k)
  {
    if k > 0 {
      SharesPrefix(log, more, id, direction, startsAt, since, now, k - 1);
    }
  }

  // ---------- hours and seconds ----------

  /** A sample with the second at which it was taken; the store keeps only its hour. */
  datatype Timed = Timed(id: string, ts: int, bytes: Bytes)

  function Hourly(t: seq<Timed>): (log: seq<Sample>)
    ensures |log| == |t| && forall i :: 0 <= i < |t| ==> log[i] == Sample(t[i].id, LocalHourStart(t[i].ts), t[i].bytes)
  {
    seq(|t|, i requires 0 <= i < |t| => Sample(t[i].id, LocalHourStart(t[i].ts), t[i].bytes))
  }

  /** What the first k samples say about the seconds [from, to). */
  function Between(t: seq<Timed>, id: string, from: int, to: int, k: nat): Bytes
    requires k <= |t|
  {
    if k == 0 then ZERO
    else if t[k - 1].id == id && from <= t[k - 1].ts < to then Between(t, id, from, to, k - 1).Plus(t[k - 1].bytes)
    else Between(t, id, from, to, k - 1)
  }

  lemma {:induction false} HourBounds(ts: int, from: int)
    requires ts >= 0 && from >= 0
    ensures LocalHourStart(from) <= from < LocalHourStart(from) + 3600
    ensures LocalHourStart(ts) >= LocalHourStart(from) <==> ts >= LocalHourStart(from)
  {
    HourBase(ts);
    HourBase(from);
  }

  lemma {:induction false} HourBase(ts: int)
    requires ts >= 0
    ensures LocalHourStart(ts) == 3600 * (ts / 3600) <= ts < 3600 * (ts / 3600) + 3600
  {
  }

  /** What the hourly log counts from a window's start: the bytes since that second, and those of its hour before it. */
  lemma {:induction false} OvershootUpTo(t: seq<Timed>, id: string, from: int, now: int, k: nat)
    requires k <= |t| && from >= 0 && forall s :: s in t ==> 0 <= s.ts <= now
    ensures RangeUpTo(Hourly(t), id, LocalHourStart(from), now + 1, k)
         == Between(t, id, from, now + 1, k).Plus(Between(t, id, LocalHourStart(from), from, k))
  {
    if k > 0 {
      OvershootUpTo(t, id, from, now, k - 1);
      assert t[k - 1] in t;
      HourBounds(t[k - 1].ts, from);
      HourBase(t[k - 1].ts);
    }
  }

  lemma {:induction false} CountedPlus(direction: string, a: Bytes, b: Bytes)
    ensures Counted(direction, a.Plus(b)) == Counted(direction, a) + Counted(direction, b)
  {
  }

  /** The use exceeds what was carried since the later of the engine's window and the quota's own start by exactly the
      part of that start's hour before it, which spans less than an hour. */
  lemma {:induction false} Overshoot(t: seq<Timed>, id: string, direction: string, startsAt: Option<int>, since: int,
                                     now: int, later: int)
    requires later == Max(startsAt.GetOr(0), since) >= 0 && forall s :: s in t ==> 0 <= s.ts <= now
    ensures WindowUsed(Hourly(t), id, direction, WindowFrom(startsAt, since), now)
         == Counted(direction, Between(t, id, later, now + 1, |t|))
             + Counted(direction, Between(t, id, LocalHourStart(later), later, |t|))
    ensures 0 <= later - LocalHourStart(later) < 3600
  {
    OvershootUpTo(t, id, later, now, |t|);
    CountedPlus(direction, Between(t, id, later, now + 1, |t|), Between(t, id, LocalHourStart(later), later, |t|));
    HourBase(later);
  }

  // ---------- reconciling the engine ----------

  datatype Config = Config(limit: string, direction: string, startsAt: string, expiresAt: string)

  /** An engine quota: its configuration, the start of its window in Unix seconds, its counter. */
  datatype EngineQuota = EngineQuota(config: Config, startsAt: int, used: nat)

  type Engine = map<string, EngineQuota>

  /** A node with the start of its quota and the present window of its quota period. */
  datatype QuotaNode = QuotaNode(node: GostNode.Node, since: int, window: (string, string)) {
    /** What the engine should hold. */
    function Want(): Config {
      Config(Text.Itoa(node.quota.bytes) + "B", node.quota.direction, window.0, window.1)
    }
  }

  predicate Eligible(n: QuotaNode) {
    !n.node.IsReality() && n.node.enabled && n.node.quota.enabled && n.node.quota.bytes > 0
  }

  function NameOf(n: QuotaNode): string {
    GostNode.QuotaName(n.node.id)
  }

  /** What reconciling wants is what compiling the node emits: a node with a quota that has been applied is found as
      wanted. */
  lemma {:induction false} WantIsCompiled(n: QuotaNode, opts: GostConfig.Options)
    requires opts.window(n.node.quota.period) == n.window
    ensures var emitted := GostConfig.Compile(n.node, opts).quotas;
            && (Eligible(n) <==> |emitted| == 1)
            && (Eligible(n) ==>
                  var q := emitted[0];
                  q.name == NameOf(n) && Config(q.limit, q.direction, q.startsAt, q.expiresAt) == n.Want())
  {
  }

  /** Which of a node's calls succeed: creating or updating the quota, finding it again, reading the buckets, resetting.
      */
  datatype Calls = Calls(put: bool, find: bool, read: bool, reset: bool)

  const ALL_GOOD := Calls(true, true, true, true)

  /** What the engine holds after a successful create or update. */
  datatype Made = Made(startsAt: int, used: nat)

  function UsedNow(log: seq<Sample>, n: QuotaNode, q: EngineQuota, now: int, read: bool): nat {
    if !read then 0 else WindowUsed(log, n.node.id, n.node.quota.direction, WindowFrom(Some(q.startsAt), n.since), now)
  }

  function Restored(e: Engine, log: seq<Sample>, n: QuotaNode, q: EngineQuota, now: int, c: Calls): Engine {
    var used := UsedNow(log, n, q, now, c.read);
    if used <= q.used || !c.reset || NameOf(n) !in e then e else e[NameOf(n) := e[NameOf(n)].(used := used)]
  }

  /** One node's turn; `listed` is the quota as the list at the start of the round showed it. */
  function Turn(e: Engine, log: seq<Sample>, n: QuotaNode, listed: Option<EngineQuota>, made: Made, now: int,
                c: Calls): Engine {
    if !Eligible(n) then e
    else if listed.Some? && listed.value.config == n.Want() then Restored(e, log, n, listed.value, now, c)
    else if !c.put then e
    else
      var q := EngineQuota(n.Want(), made.startsAt, made.used);
      var put := e[NameOf(n) := q];
      if c.find then Restored(put, log, n, q, now, c)
      else if listed.Some? then Restored(put, log, n, listed.value, now, c)
      else put
  }

  /** The first k nodes' turns. */
  function Turns(e: Engine, log: seq<Sample>, ns: seq<QuotaNode>, made: seq<Made>, now: int, cs: seq<Calls>,
                 k: nat): Engine
    requires k <= |ns| == |made| == |cs|
  {
    if k == 0 then e
    else Turn(Turns(e, log, ns, made, now, cs, k - 1), log, ns[k - 1], Lookup(e, NameOf(ns[k - 1])), made[k - 1], now,
        cs[k - 1])
  }

  lemma {:induction false} TurnElsewhere(e: Engine, log: seq<Sample>, n: QuotaNode, listed: Option<EngineQuota>,
                                         made: Made, now: int, c: Calls, name: string)
    requires name != NameOf(n)
    ensures Lookup(Turn(e, log, n, listed, made, now, c), name) == Lookup(e, name)
  {
  }

  ghost predicate DistinctNodes(ns: seq<QuotaNode>) {
    forall i, j :: 0 <= i < j < |ns| ==> ns[i].node.id != ns[j].node.id
  }

  /** A node's quota moves only in the node's own turn. */
  lemma {:induction false} TurnsAt(e: Engine, log: seq<Sample>, ns: seq<QuotaNode>, made: seq<Made>, now: int,
                                   cs: seq<Calls>, k: nat, i: nat)
    requires DistinctNodes(ns) && k <= |ns| == |made| == |cs| && i < |ns|
    ensures var own := Lookup(e, NameOf(ns[i]));
            Lookup(Turns(e, log, ns, made, now, cs, k), NameOf(ns[i]))
            == if i < k then Lookup(Turn(e, log, ns[i], own, made[i], now, cs[i]), NameOf(ns[i])) else own
  {
    if k > 0 {
      TurnsAt(e, log, ns, made, now, cs, k - 1, i);
      var p, n := Turns(e, log, ns, made, now, cs, k - 1), ns[k - 1];
      if i == k - 1 {
        TurnLocal(p, e, log, n, Lookup(e, NameOf(n)), made[i], now, cs[i]);
      } else {
        GostNode.NamesDistinct(ns[i].node.id, n.node.id);
        TurnElsewhere(p, log, n, Lookup(e, NameOf(n)), made[k - 1], now, cs[k - 1], NameOf(ns[i]));
      }
    }
  }

  lemma {:induction false} TurnLocal(p: Engine, e: Engine, log: seq<Sample>, n: QuotaNode, listed: Option<EngineQuota>,
                                     made: Made, now: int, c: Calls)
    requires Lookup(p, NameOf(n)) == Lookup(e, NameOf(n))
    ensures Lookup(Turn(p, log, n, listed, made, now, c), NameOf(n))
        == Lookup(Turn(e, log, n, listed, made, now, c), NameOf(n))
  {
  }

  /** The counter that reconciling starts from: the listed one if the quota is as wanted, else the one just made. */
  function Starting(e: Engine, n: QuotaNode, made: Made): EngineQuota {
    var listed := Lookup(e, NameOf(n));
    if listed.Some? && listed.value.config == n.Want() then listed.value
    else EngineQuota(n.Want(), made.startsAt, made.used)
  }

  /** Reconciling only raises use: when the calls of an enabled gost node with a quota succeed, its quota ends as wanted
      with its counter at the greater of the engine's count and the shares of all samples in the window; any other node
      keeps its quota as it was. */
  lemma {:induction false} ReconcileRaises(e: Engine, log: seq<Sample>, ns: seq<QuotaNode>, made: seq<Made>, now: int,
                                           cs: seq<Calls>, i: nat)
    requires DistinctNodes(ns) && |ns| == |made| == |cs| && i < |ns|
    ensures var r, n := Lookup(Turns(e, log, ns, made, now, cs, |ns|), NameOf(ns[i])), ns[i].node;
            if n.IsReality() || !n.enabled || !n.quota.enabled || n.quota.bytes <= 0 then r == Lookup(e, NameOf(ns[i]))
            else cs[i] == ALL_GOOD ==>
              var q := Starting(e, ns[i], made[i]);
              r == Some(q.(used := Max(q.used, DueUse(log, n.id, n.quota.direction, q.startsAt, ns[i].since, now))))
  {
    var q := Starting(e, ns[i], made[i]);
    TurnsAt(e, log, ns, made, now, cs, |ns|, i);
    UseIsDue(log, ns[i].node.id, ns[i].node.quota.direction, Some(q.startsAt), ns[i].since, now);
  }

  /** Even with failing calls a counter that is listed as wanted is never lowered. */
  lemma {:induction false} NeverLowered(e: Engine, log: seq<Sample>, ns: seq<QuotaNode>, made: seq<Made>, now: int,
                                        cs: seq<Calls>, i: nat)
    requires DistinctNodes(ns) && |ns| == |made| == |cs| && i < |ns|
    requires NameOf(ns[i]) in e && e[NameOf(ns[i])].config == ns[i].Want()
    ensures var r := Lookup(Turns(e, log, ns, made, now, cs, |ns|), NameOf(ns[i]));
            r.Some? && r.value.used >= e[NameOf(ns[i])].used && r.value.config == ns[i].Want()
  {
    TurnsAt(e, log, ns, made, now, cs, |ns|, i);
  }

  /** When a quota that was not as wanted has been made but cannot be found again, the panel's count of the old window
      is held against the old counter; a quota that is new keeps what the engine made of it. */
  lemma {:induction false} UnfoundTurn(e: Engine, log: seq<Sample>, n: QuotaNode, listed: Option<EngineQuota>,
                                       made: Made, now: int)
    requires Eligible(n) && (listed.Some? ==> listed.value.config != n.Want())
    ensures var r := Turn(e, log, n, listed, made, now, Calls(true, false, true, true));
            var due := if listed.None? then 0
                       else DueUse(log, n.node.id, n.node.quota.direction, listed.value.startsAt, n.since, now);
            Lookup(r, NameOf(n))
            == Some(EngineQuota(n.Want(), made.startsAt,
                                if listed.Some? && due > listed.value.used then due else made.used))
  {
    if listed.Some? {
      UseIsDue(log, n.node.id, n.node.quota.direction, Some(listed.value.startsAt), n.since, now);
    }
  }

  /** ResetNodeTraffic sets the engine's counter to zero and leaves the buckets and the quota's start alone: the next
      reconciliation brings the window's use back, so the reset holds exactly when the window had counted nothing. */
  lemma {:induction false} ResetComesBack(e: Engine, log: seq<Sample>, n: QuotaNode, made: Made, now: int)
    requires Eligible(n) && NameOf(n) in e && e[NameOf(n)].config == n.Want()
    ensures var zeroed := e[NameOf(n) := e[NameOf(n)].(used := 0)];
            var r := Turn(zeroed, log, n, Lookup(zeroed, NameOf(n)), made, now, ALL_GOOD);
            var due := DueUse(log, n.node.id, n.node.quota.direction, e[NameOf(n)].startsAt, n.since, now);
            r[NameOf(n)].used == due && (r[NameOf(n)].used == 0 <==> due == 0)
  {
    UseIsDue(log, n.node.id, n.node.quota.direction, Some(e[NameOf(n)].startsAt), n.since, now);
  }

  // ---------- the source's own form ----------

  predicate Int64(x: int) {
    -TWO_63 <= x < TWO_63
  }

  class Reconciler {
    const store: Store
    var quotas: Engine

    constructor (store: Store, quotas: Engine)
      ensures this.store == store && this.quotas == quotas
    {
      this.store, this.quotas := store, quotas;
    }

    method CountPoints(pts: seq<Point>, direction: string) returns (used: nat)
      ensures used == Counted(direction, PointSum(pts, |pts|))
    {
      used := 0;
      for i := 0 to |pts|
        invariant used == Counted(direction, PointSum(pts, i))
      {
        var p := pts[i].bytes;
        CountedPlus(direction, PointSum(pts, i), p);
        if direction == "in" {
          used := used + p.inBytes;
        } else if direction == "out" {
          used := used + p.outBytes;
        } else {
          used := used + (p.inBytes + p.outBytes);
        }
      }
    }

    /** WindowUsed; a failed read counts nothing. */
    method CountWindow(n: QuotaNode, startsAt: Option<int>, now: int, read: bool) returns (used: nat)
      requires store.Valid() && Int64(n.since) && (startsAt.Some? ==> Int64(startsAt.value))
      requires WindowSmall(store.log, n.node.id, WindowFrom(startsAt, n.since), now)
      ensures used == if !read then 0
                      else DueUse(store.log, n.node.id, n.node.quota.direction, startsAt.GetOr(0), n.since, now)
    {
      var from := if startsAt.Some? then startsAt.value else 0;
      if n.since > from {
        from := n.since;
      }
      if !read {
        return 0;
      }
      var pts := store.RangeTraffic(n.node.id, from, now + 1);
      used := CountPoints(pts, n.node.quota.direction);
      if from > -3600 {
        ReadExact(pts, store.log, n.node.id, LocalHourStart(from), now + 1);
      }
      UseIsDue(store.log, n.node.id, n.node.quota.direction, startsAt, n.since, now);
    }

    /** restoreQuotaUsage. */
    method Restore(n: QuotaNode, q: EngineQuota, now: int, c: Calls)
      requires store.Valid() && Int64(n.since) && Int64(q.startsAt)
      requires WindowSmall(store.log, n.node.id, WindowFrom(Some(q.startsAt), n.since), now)
      modifies this`quotas
      ensures quotas == Restored(old(quotas), store.log, n, q, now, c)
    {
      UseIsDue(store.log, n.node.id, n.node.quota.direction, Some(q.startsAt), n.since, now);
      var panelUsed := CountWindow(n, Some(q.startsAt), now, c.read);
      if panelUsed <= q.used {
        return;
      }
      if c.reset && NameOf(n) in quotas {
        quotas := quotas[NameOf(n) := quotas[NameOf(n)].(used := panelUsed)];
      }
    }

    ghost predicate Readable(n: QuotaNode, q: EngineQuota, now: int)
      reads this, store
    {
      Int64(q.startsAt) && WindowSmall(store.log, n.node.id, WindowFrom(Some(q.startsAt), n.since), now)
    }

    method OneTurn(n: QuotaNode, index: Engine, made: Made, now: int, c: Calls)
      requires store.Valid() && Int64(n.since) && Readable(n, EngineQuota(n.Want(), made.startsAt, made.used), now)
      requires NameOf(n) in index ==> Readable(n, index[NameOf(n)], now)
      modifies this`quotas
      ensures quotas == Turn(old(quotas), store.log, n, Lookup(index, NameOf(n)), made, now, c)
    {
      if n.node.IsReality() || !n.node.enabled || !n.node.quota.enabled || n.node.quota.bytes <= 0 {
        return;
      }
      var name, want, cur := NameOf(n), n.Want(), Lookup(index, NameOf(n));
      if cur.None? || cur.value.config != want {
        if !c.put {
          return;
        }
        quotas := quotas[name := EngineQuota(want, made.startsAt, made.used)];
        if c.find {
          cur := Some(quotas[name]);
        }
      }
      if cur.Some? {
        Restore(n, cur.value, now, c);
      }
    }

    /** Reconcile: one listing of the engine's quotas, then every node's turn. */
    method Reconcile(ns: seq<QuotaNode>, made: seq<Made>, now: int, listOk: bool, cs: seq<Calls>) returns (ok: bool)
      requires |ns| == |made| == |cs| && store.Valid()
      requires forall i :: 0 <= i < |ns| ==>
                 && Int64(ns[i].since) && Readable(ns[i], EngineQuota(ns[i].Want(), made[i].startsAt, made[i].used),
                     now)
                 && (NameOf(ns[i]) in quotas ==> Readable(ns[i], quotas[NameOf(ns[i])], now))
      modifies this`quotas
      ensures ok == listOk
      ensures quotas == if listOk then Turns(old(quotas), store.log, ns, made, now, cs, |ns|) else old(quotas)
    {
      if !listOk {
        return false;
      }
      var index := quotas;
      for i := 0 to |ns|
        invariant quotas == Turns(index, store.log, ns, made, now, cs, i)
      {
        OneTurn(ns[i], index, made[i], now, cs[i]);
      }
      ok := true;
    }

    /** The charge of a REALITY node: its period's points, or its totals when the quota never resets; a failed read
        counts nothing. */
    method RealityUse(id: string, direction: string, periodStart: int, total: Bytes, now: int,
                      read: bool) returns (used: nat)
      requires store.Valid() && Int64(periodStart) && WindowSmall(store.log, id, periodStart, now)
      ensures var b := if periodStart <= 0 then total
                       else if !read then ZERO
                       else RangeSum(store.log, id, LocalHourStart(periodStart), now + 1);
              used == if direction == "in" then b.inBytes else b.inBytes + b.outBytes
    {
      used := 0;
      if periodStart > 0 {
        if read {
          var pts := store.RangeTraffic(id, periodStart, now + 1);
          ReadExact(pts, store.log, id, LocalHourStart(periodStart), now + 1);
          for i := 0 to |pts|
            invariant used == RealityCounted(direction, PointSum(pts, i))
          {
            used := used + pts[i].bytes.inBytes;
            if direction != "in" {
              used := used + pts[i].bytes.outBytes;
            }
          }
        }
      } else if direction == "in" {
        used := total.inBytes;
      } else {
        used := total.inBytes + total.outBytes;
      }
    }
  }
}

/** One sampling round of internal/controller/sampler.go, and the traffic reset of
    internal/controller/controller.go.

    The value-level functions say what one round does to one node's ledger; class `Sampler`
    carries out the same round over all nodes, in place, in the order of the source. */
module Ledger {
  import opened Wrappers
  import opened Traffic

  /** The persisted counters of a node: totals, last engine counter seen, engine process id. */
  datatype NodeRec = NodeRec(total: Bytes, counter: Bytes, pid: int)

  /** One node's ledger: the cached record, the volatile baseline, the stored record, and
      the sample log of the store (shared by all nodes). */
  datatype Ledger = Ledger(rec: NodeRec, last: Option<Bytes>, saved: Option<NodeRec>, log: seq<Sample>) {
    /** The baseline the next round subtracts. */
    function Baseline(): Bytes {
      last.GetOr(rec.counter)
    }
  }

  /** Which of the two database writes of a round succeed. */
  datatype Writes = Writes(addOk: bool, saveOk: bool)

  /** What a sing-box instance reports; `pid` is 0 when no process runs. */
  datatype Stats = Stats(pid: int, bytes: Bytes)

  // ---------- one node, one round ----------

  function AddTraffic(log: seq<Sample>, id: string, hour: int, d: Bytes, ok: bool): seq<Sample> {
    if d.IsZero() || !ok then log else log + [Sample(id, hour, d)]
  }

  /** Takes the difference against `prev`, adds it to the bucket and the totals, and moves the baseline. */
  function Commit(id: string, l: Ledger, prev: Bytes, cur: Bytes, pid: int, hour: int, w: Writes): Ledger {
    var d := BytesDelta(prev, cur);
    if !d.IsZero() || l.last.None? then
      var rec := NodeRec(l.rec.total.Plus(d), cur, pid);
      Ledger(rec, Some(cur), if w.saveOk then Some(rec) else l.saved, AddTraffic(l.log, id, hour, d, w.addOk))
    else
      l.(last := Some(cur))
  }

  function GostRound(id: string, l: Ledger, cur: Bytes, hour: int, w: Writes): Ledger {
    Commit(id, l, l.Baseline(), cur, l.rec.pid, hour, w)
  }

  /** The baseline for a sing-box reading: void when the process is not the recorded one. */
  function RealityBaseline(l: Ledger, st: Stats): Bytes {
    if st.pid > 0 && l.rec.pid != st.pid then ZERO else l.Baseline()
  }

  function RealityRound(id: string, l: Ledger, st: Stats, hour: int, w: Writes): Ledger {
    if l.rec.pid == -1 then
      var rec := NodeRec(l.rec.total, st.bytes, st.pid);
      l.(rec := rec, last := Some(st.bytes), saved := if w.saveOk then Some(rec) else l.saved)
    else
      Commit(id, l, RealityBaseline(l, st), st.bytes, st.pid, hour, w)
  }

  /** The record that a traffic reset leaves. `st` is what the engine reports at that moment. */
  function ResetRec(reality: bool, st: Stats): NodeRec {
    if reality && st.pid > 0 then NodeRec(ZERO, st.bytes, st.pid) else NodeRec(ZERO, ZERO, -1)
  }

  function ResetLedger(l: Ledger, reality: bool, st: Stats, saveOk: bool): Ledger {
    var rec := ResetRec(reality, st);
    Ledger(rec, None, if saveOk then Some(rec) else l.saved, l.log)
  }

  /** What a round leaves in the log: one sample of exactly what the totals grew by, in the round's hour, if they grew
      and the write succeeds. */
  ghost predicate Stored(id: string, log: seq<Sample>, total: Bytes, log2: seq<Sample>, total2: Bytes, hour: int,
                         addOk: bool)
  {
    && total.AtMost(total2)
    && log2 == if total == total2 || !addOk then log else log + [Sample(id, hour, BytesDelta(total, total2))]
  }

  lemma {:induction false} GostStored(id: string, l: Ledger, cur: Bytes, hour: int, w: Writes)
    ensures var r := GostRound(id, l, cur, hour, w); Stored(id, l.log, l.rec.total, r.log, r.rec.total, hour, w.addOk)
  {
  }

  lemma {:induction false} RealityStored(id: string, l: Ledger, st: Stats, hour: int, w: Writes)
    ensures var r := RealityRound(id, l, st, hour, w); Stored(id, l.log, l.rec.total, r.log, r.rec.total, hour, w.addOk)
  {
  }

  // ---------- readings ----------

  /** One row of the engine's service list; a row may lack its status. */
  datatype Row = Row(name: string, stats: Option<Bytes>)

  /** The first k rows by name: a later row replaces an earlier one, a row without status reads as zero. */
  function RowsByName(rows: seq<Row>, k: nat): map<string, Bytes>
    requires k <= |rows|
  {
    if k == 0 then map[] else RowsByName(rows, k - 1)[rows[k - 1].name := rows[k - 1].stats.GetOr(ZERO)]
  }

  function ByName(rows: seq<Row>): map<string, Bytes> {
    RowsByName(rows, |rows|)
  }

  /** A service's reading is what the last row of its name says, zero if that row has no status. */
  lemma {:induction false} LastRowWins(rows: seq<Row>, j: nat, k: nat)
    requires j < k <= |rows| && forall i :: j < i < k ==> rows[i].name != rows[j].name
    ensures rows[j].name in RowsByName(rows, k)
    ensures RowsByName(rows, k)[rows[j].name] == if rows[j].stats.Some? then rows[j].stats.value else ZERO
  {
    if j + 1 < k {
      LastRowWins(rows, j, k - 1);
    }
  }

  lemma {:induction false} NoRowNoReading(rows: seq<Row>, n: string, k: nat)
    requires k <= |rows| && forall i :: 0 <= i < k ==> rows[i].name != n
    ensures n !in RowsByName(rows, k)
  {
    if k > 0 {
      NoRowNoReading(rows, n, k - 1);
    }
  }

  /** The counters of the first k services together; a service not in the reading contributes nothing. */
  function SumFirst(names: seq<string>, byName: map<string, Bytes>, k: nat): Bytes
    requires k <= |names|
  {
    if k == 0 then ZERO
    else if names[k - 1] in byName then SumFirst(names, byName, k - 1).Plus(byName[names[k - 1]])
    else SumFirst(names, byName, k - 1)
  }

  function SumOver(names: seq<string>, byName: map<string, Bytes>): Bytes {
    SumFirst(names, byName, |names|)
  }

  // ---------- all nodes, one round ----------

  datatype NodeView = NodeView(id: string, reality: bool, services: seq<string>, rec: NodeRec)

  datatype World = World(nodes: seq<NodeView>, last: map<string, Bytes>,
                         saved: map<string, NodeRec>, log: seq<Sample>) {
    function LedgerOf(i: nat): Ledger
      requires i < |nodes|
    {
      Ledger(nodes[i].rec, Lookup(last, nodes[i].id), Lookup(saved, nodes[i].id), log)
    }

    /** Replaces node i's ledger. */
    function With(i: nat, l: Ledger): World
      requires i < |nodes| && l.last.Some?
    {
      World(nodes[i := nodes[i].(rec := l.rec)], last[nodes[i].id := l.last.value],
            if l.saved.Some? then saved[nodes[i].id := l.saved.value] else saved, l.log)
    }

    ghost predicate DistinctIds() {
      forall i, j :: 0 <= i < j < |nodes| ==> nodes[i].id != nodes[j].id
    }
  }

  function GostStep(w: World, i: nat, byName: map<string, Bytes>, hour: int, ws: Writes): (r: World)
    requires i < |w.nodes|
    ensures |r.nodes| == |w.nodes|
  {
    if w.nodes[i].reality then w
    else w.With(i, GostRound(w.nodes[i].id, w.LedgerOf(i), SumOver(w.nodes[i].services, byName), hour, ws))
  }

  /** The gost loop over the first k nodes. */
  function GostLoop(w: World, k: nat, byName: map<string, Bytes>, hour: int, ws: seq<Writes>): (r: World)
    requires k <= |w.nodes| == |ws|
    ensures |r.nodes| == |w.nodes|
  {
    if k == 0 then w else GostStep(GostLoop(w, k - 1, byName, hour, ws), k - 1, byName, hour, ws[k - 1])
  }

  function StatsOf(stats: map<string, Stats>, id: string): Stats {
    if id in stats then stats[id] else Stats(0, ZERO)
  }

  function RealityStep(w: World, i: nat, stats: map<string, Stats>, hour: int, ws: Writes): (r: World)
    requires i < |w.nodes|
    ensures |r.nodes| == |w.nodes|
  {
    if !w.nodes[i].reality then w
    else w.With(i, RealityRound(w.nodes[i].id, w.LedgerOf(i), StatsOf(stats, w.nodes[i].id), hour, ws))
  }

  function RealityLoop(w: World, k: nat, stats: map<string, Stats>, hour: int, ws: seq<Writes>): (r: World)
    requires k <= |w.nodes| == |ws|
    ensures |r.nodes| == |w.nodes|
  {
    if k == 0 then w else RealityStep(RealityLoop(w, k - 1, stats, hour, ws), k - 1, stats, hour, ws[k - 1])
  }

  /** The log only grows, by samples of one hour. */
  ghost predicate Extends(log: seq<Sample>, longer: seq<Sample>, hour: int) {
    log <= longer && forall k :: |log| <= k < |longer| ==> longer[k].hour == hour
  }

  lemma {:induction false} GostLoopLog(w: World, k: nat, byName: map<string, Bytes>, hour: int, ws: seq<Writes>)
    requires k <= |w.nodes| == |ws|
    ensures Extends(w.log, GostLoop(w, k, byName, hour, ws).log, hour)
  {
    if k > 0 {
      var p := GostLoop(w, k - 1, byName, hour, ws);
      GostLoopLog(w, k - 1, byName, hour, ws);
      GostStored(p.nodes[k - 1].id, p.LedgerOf(k - 1), SumOver(p.nodes[k - 1].services, byName), hour, ws[k - 1]);
    }
  }

  lemma {:induction false} RealityLoopLog(w: World, k: nat, stats: map<string, Stats>, hour: int, ws: seq<Writes>)
    requires k <= |w.nodes| == |ws|
    ensures Extends(w.log, RealityLoop(w, k, stats, hour, ws).log, hour)
  {
    if k > 0 {
      var p := RealityLoop(w, k - 1, stats, hour, ws);
      RealityLoopLog(w, k - 1, stats, hour, ws);
      RealityStored(p.nodes[k - 1].id, p.LedgerOf(k - 1), StatsOf(stats, p.nodes[k - 1].id), hour, ws[k - 1]);
    }
  }

  function ResetWorld(w: World, i: nat, st: Stats, saveOk: bool): World
    requires i < |w.nodes|
  {
    var l := ResetLedger(w.LedgerOf(i), w.nodes[i].reality, st, saveOk);
    World(w.nodes[i := w.nodes[i].(rec := l.rec)], w.last - {w.nodes[i].id},
          if l.saved.Some? then w.saved[w.nodes[i].id := l.saved.value] else w.saved, w.log)
  }

  // ---------- the controller ----------

  class Node {
    const id: string
    const reality: bool
    const services: seq<string>
    var totalIn: nat
    var totalOut: nat
    var counterIn: nat
    var counterOut: nat
    var counterPid: int

    constructor (id: string, reality: bool, services: seq<string>, rec: NodeRec)
      ensures View() == NodeView(id, reality, services, rec)
    {
      this.id, this.reality, this.services := id, reality, services;
      totalIn, totalOut := rec.total.inBytes, rec.total.outBytes;
      counterIn, counterOut, counterPid := rec.counter.inBytes, rec.counter.outBytes, rec.pid;
    }

    function Rec(): NodeRec
      reads this
    {
      NodeRec(Bytes(totalIn, totalOut), Bytes(counterIn, counterOut), counterPid)
    }

    function View(): NodeView
      reads this
    {
      NodeView(id, reality, services, Rec())
    }
  }

  class Sampler {
    var nodes: seq<Node>
    var last: map<string, Bytes>
    var saved: map<string, NodeRec>
    var log: seq<Sample>

    constructor (nodes: seq<Node>, saved: map<string, NodeRec>, log: seq<Sample>)
      ensures this.nodes == nodes && last == map[] && this.saved == saved && this.log == log
    {
      this.nodes, last, this.saved, this.log := nodes, map[], saved, log;
    }

    ghost predicate Distinct()
      reads this
    {
      forall i, j :: 0 <= i < j < |nodes| ==> nodes[i] != nodes[j]
    }

    ghost function View(): World
      reads this, nodes
    {
      World(seq(|nodes|, i requires 0 <= i < |nodes| reads this, nodes => nodes[i].View()), last, saved, log)
    }

    /** The state is `w`, said node by node. */
    ghost predicate Shows(w: World)
      reads this, nodes
    {
      && |w.nodes| == |nodes| && (forall i :: 0 <= i < |nodes| ==> w.nodes[i] == nodes[i].View())
      && w.last == last && w.saved == saved && w.log == log
    }

    lemma {:induction false} ShowsView(w: World)
      ensures Shows(w) <==> w == View()
    {
    }

    /** Store.AddTraffic and Store.SaveNode; a failed write changes nothing. */
    method StoreTraffic(id: string, hour: int, d: Bytes, ok: bool)
      modifies this`log
      ensures log == AddTraffic(old(log), id, hour, d, ok)
    {
      if !d.IsZero() && ok {
        log := log + [Sample(id, hour, d)];
      }
    }

    method SaveNode(n: Node, ok: bool)
      modifies this`saved
      ensures saved == if ok then old(saved)[n.id := n.Rec()] else old(saved)
    {
      if ok {
        saved := saved[n.id := n.Rec()];
      }
    }

    method ReadRows(rows: seq<Row>) returns (byName: map<string, Bytes>)
      ensures byName == ByName(rows)
    {
      byName := map[];
      for k := 0 to |rows|
        invariant byName == RowsByName(rows, k)
      {
        byName := byName[rows[k].name := rows[k].stats.GetOr(ZERO)];
      }
    }

    method SumServices(names: seq<string>, byName: map<string, Bytes>) returns (cur: Bytes)
      ensures cur == SumOver(names, byName)
    {
      var inSum: nat, outSum: nat := 0, 0;
      for k := 0 to |names|
        invariant Bytes(inSum, outSum) == SumFirst(names, byName, k)
      {
        if names[k] in byName {
          inSum := inSum + byName[names[k]].inBytes;
          outSum := outSum + byName[names[k]].outBytes;
        }
      }
      cur := Bytes(inSum, outSum);
    }

    ghost function LedgerOf(n: Node): Ledger
      reads this, n
    {
      Ledger(n.Rec(), Lookup(last, n.id), Lookup(saved, n.id), log)
    }

    /** Adds `d` to the bucket and the totals of `n`, moves its counter, and stores it. */
    method Record(n: Node, d: Bytes, cur: Bytes, pid: int, hour: int, ws: Writes)
      modifies this`saved, this`log, n
      ensures n.Rec() == NodeRec(old(n.Rec()).total.Plus(d), cur, pid)
      ensures log == AddTraffic(old(log), n.id, hour, d, ws.addOk)
      ensures saved == if ws.saveOk then old(saved)[n.id := n.Rec()] else old(saved)
    {
      StoreTraffic(n.id, hour, d, ws.addOk);
      n.totalIn := n.totalIn + d.inBytes;
      n.totalOut := n.totalOut + d.outBytes;
      n.counterIn := cur.inBytes;
      n.counterOut := cur.outBytes;
      n.counterPid := pid;
      SaveNode(n, ws.saveOk);
    }

    /** The bookkeeping at the end of a node's round, in place. */
    method Settle(n: Node, prev: Bytes, cur: Bytes, pid: int, hour: int, ws: Writes)
      modifies this`last, this`saved, this`log, n
      ensures LedgerOf(n) == Commit(n.id, old(LedgerOf(n)), prev, cur, pid, hour, ws)
      ensures last == old(last)[n.id := cur]
      ensures saved == old(saved) || saved == old(saved)[n.id := n.Rec()]
    {
      var seen := n.id in last;
      var dIn, dOut := Delta(prev.inBytes, cur.inBytes), Delta(prev.outBytes, cur.outBytes);
      last := last[n.id := cur];
      if dIn > 0 || dOut > 0 || !seen {
        Record(n, Bytes(dIn, dOut), cur, pid, hour, ws);
      }
    }

    /** The sentinel branch after a reset: the engine's counter becomes the baseline and nothing is added. */
    method Adopt(n: Node, st: Stats, saveOk: bool)
      modifies this`last, this`saved, n
      ensures n.Rec() == NodeRec(old(n.Rec()).total, st.bytes, st.pid)
      ensures last == old(last)[n.id := st.bytes]
      ensures saved == if saveOk then old(saved)[n.id := n.Rec()] else old(saved)
    {
      last := last[n.id := st.bytes];
      n.counterIn, n.counterOut := st.bytes.inBytes, st.bytes.outBytes;
      n.counterPid := st.pid;
      SaveNode(n, saveOk);
    }

    /** A gost node's round. */
    method GostNode(n: Node, byName: map<string, Bytes>, hour: int, ws: Writes)
      modifies this`last, this`saved, this`log, n
      ensures Stored(n.id, old(log), old(n.Rec()).total, log, n.Rec().total, hour, ws.addOk)
      ensures LedgerOf(n) == GostRound(n.id, old(LedgerOf(n)), SumOver(n.services, byName), hour, ws)
      ensures n.id in last && last == old(last)[n.id := last[n.id]]
      ensures saved == old(saved) || saved == old(saved)[n.id := n.Rec()]
    {
      var cur := SumServices(n.services, byName);
      var prev := if n.id in last then last[n.id] else Bytes(n.counterIn, n.counterOut);
      GostStored(n.id, LedgerOf(n), cur, hour, ws);
      Settle(n, prev, cur, n.counterPid, hour, ws);
    }

    /** A sing-box node's round. */
    method RealityNode(n: Node, st: Stats, hour: int, ws: Writes)
      modifies this`last, this`saved, this`log, n
      ensures Stored(n.id, old(log), old(n.Rec()).total, log, n.Rec().total, hour, ws.addOk)
      ensures LedgerOf(n) == RealityRound(n.id, old(LedgerOf(n)), st, hour, ws)
      ensures n.id in last && last == old(last)[n.id := last[n.id]]
      ensures saved == old(saved) || saved == old(saved)[n.id := n.Rec()]
    {
      RealityStored(n.id, LedgerOf(n), st, hour, ws);
      var prev := if n.id in last then last[n.id] else Bytes(n.counterIn, n.counterOut);
      if st.pid > 0 && n.counterPid != st.pid {
        prev := ZERO;
      }
      if n.counterPid == -1 {
        Adopt(n, st, ws.saveOk);
      } else {
        Settle(n, prev, st.bytes, st.pid, hour, ws);
      }
    }

    method GostBody(ghost w: World, i: nat, byName: map<string, Bytes>, hour: int, ws: Writes)
      requires Distinct() && Shows(w) && i < |nodes|
      modifies this`last, this`saved, this`log, nodes[i]
      ensures Shows(GostStep(w, i, byName, hour, ws))
    {
      if !nodes[i].reality {
        GostNode(nodes[i], byName, hour, ws);
        ghost var l := LedgerOf(nodes[i]);
        assert saved == w.With(i, l).saved;
      }
    }

    method SampleGost(rows: seq<Row>, hour: int, ws: seq<Writes>)
      requires Distinct() && |ws| == |nodes|
      modifies this`last, this`saved, this`log, nodes
      ensures View() == GostLoop(old(View()), |nodes|, ByName(rows), hour, ws)
    {
      var byName := ReadRows(rows);
      ghost var before := View();
      ghost var w := before;
      ShowsView(before);
      for i := 0 to |nodes|
        invariant |before.nodes| == |nodes| && w == GostLoop(before, i, byName, hour, ws) && Shows(w)
      {
        GostBody(w, i, byName, hour, ws[i]);
        w := GostStep(w, i, byName, hour, ws[i]);
      }
      ShowsView(w);
    }

    method RealityBody(ghost w: World, i: nat, stats: map<string, Stats>, hour: int, ws: Writes)
      requires Distinct() && Shows(w) && i < |nodes|
      modifies this`last, this`saved, this`log, nodes[i]
      ensures Shows(RealityStep(w, i, stats, hour, ws))
    {
      var n := nodes[i];
      if n.reality {
        RealityNode(n, if n.id in stats then stats[n.id] else Stats(0, ZERO), hour, ws);
        ghost var l := LedgerOf(n);
        assert saved == w.With(i, l).saved;
      }
    }

    method SampleReality(stats: map<string, Stats>, hour: int, ws: seq<Writes>)
      requires Distinct() && |ws| == |nodes|
      modifies this`last, this`saved, this`log, nodes
      ensures View() == RealityLoop(old(View()), |nodes|, stats, hour, ws)
    {
      ghost var before := View();
      ghost var w := before;
      ShowsView(before);
      for i := 0 to |nodes|
        invariant |before.nodes| == |nodes| && w == RealityLoop(before, i, stats, hour, ws) && Shows(w)
      {
        RealityBody(w, i, stats, hour, ws[i]);
        w := RealityStep(w, i, stats, hour, ws[i]);
      }
      ShowsView(w);
    }

    /** A whole round at time `now`. `busy` says that another round holds the lock; `rows` is None when the
        gost API cannot be read. The sing-box half runs in either case. */
    method SampleOnce(busy: bool, rows: Option<seq<Row>>, stats: map<string, Stats>, now: int,
                      gostWrites: seq<Writes>, realityWrites: seq<Writes>)
      requires Distinct() && |gostWrites| == |nodes| == |realityWrites|
      modifies this`last, this`saved, this`log, nodes
      ensures busy ==> View() == old(View())
      ensures !busy && rows.None? ==>
                View() == RealityLoop(old(View()), |nodes|, stats, LocalHourStart(now), realityWrites)
      ensures !busy && rows.Some? ==>
                var hour := LocalHourStart(now);
                View() == RealityLoop(GostLoop(old(View()), |nodes|, ByName(rows.value), hour, gostWrites),
                                      |nodes|, stats, hour, realityWrites)
      ensures Extends(old(log), log, LocalHourStart(now))
    {
      if busy {
        return;
      }
      var hour := LocalHourStart(now);
      if rows.Some? {
        GostLoopLog(View(), |nodes|, ByName(rows.value), hour, gostWrites);
        SampleGost(rows.value, hour, gostWrites);
      }
      RealityLoopLog(View(), |nodes|, stats, hour, realityWrites);
      SampleReality(stats, hour, realityWrites);
    }

    method ResetNode(n: Node, st: Stats, saveOk: bool)
      modifies this`last, this`saved, n
      ensures n.Rec() == ResetRec(n.reality, st)
      ensures last == old(last) - {n.id}
      ensures saved == if saveOk then old(saved)[n.id := n.Rec()] else old(saved)
    {
      n.totalIn, n.totalOut := 0, 0;
      last := last - {n.id};
      if n.reality && st.pid > 0 {
        n.counterIn, n.counterOut := st.bytes.inBytes, st.bytes.outBytes;
        n.counterPid := st.pid;
      } else {
        n.counterIn, n.counterOut := 0, 0;
        n.counterPid := -1;
      }
      SaveNode(n, saveOk);
    }

    /** ResetNodeTraffic. `quotaOk` is the outcome of resetting the engine's quota counter (true when the
        node has no quota); when that fails nothing changes. The result is whether an error was avoided. */
    method ResetNodeTraffic(i: nat, quotaOk: bool, st: Stats, saveOk: bool) returns (ok: bool)
      requires Distinct() && i < |nodes|
      modifies this`last, this`saved, nodes[i]
      ensures ok == (quotaOk && saveOk)
      ensures View() == if quotaOk then ResetWorld(old(View()), i, st, saveOk) else old(View())
    {
      if !quotaOk {
        return false;
      }
      ghost var w := View();
      ShowsView(w);
      ResetNode(nodes[i], st, saveOk);
      assert ResetWorld(w, i, st, saveOk).saved == saved;
      ShowsView(ResetWorld(w, i, st, saveOk));
      return saveOk;
    }
  }

  // ---------- each node's ledger moves as if it were alone ----------

  /** The same ledger for node `id`: equal records and baseline, and logs that credit `id` equally. */
  ghost predicate Agree(id: string, l: Ledger, m: Ledger) {
    && l.rec == m.rec && l.last == m.last && l.saved == m.saved
    && LogSum(l.log, id) == LogSum(m.log, id)
  }

  /** What one commit adds to the log sums: its own delta for its own node, nothing for the others. */
  lemma {:induction false} CommitLog(id: string, l: Ledger, prev: Bytes, cur: Bytes, pid: int, hour: int, w: Writes,
                                     other: string)
    ensures LogSum(Commit(id, l, prev, cur, pid, hour, w).log, other)
         == if other == id && w.addOk then LogSum(l.log, other).Plus(BytesDelta(prev, cur)) else LogSum(l.log, other)
  {
    LogSumAppend(l.log, Sample(id, hour, BytesDelta(prev, cur)), other);
  }

  lemma {:induction false} WithOther(w: World, i: nat, l: Ledger, j: nat)
    requires i < |w.nodes| && j < |w.nodes| && w.nodes[i].id != w.nodes[j].id
    requires l.last.Some? && LogSum(l.log, w.nodes[j].id) == LogSum(w.log, w.nodes[j].id)
    ensures Agree(w.nodes[j].id, w.With(i, l).LedgerOf(j), w.LedgerOf(j))
  {
  }

  ghost predicate SameNodes(w: World, v: World) {
    && |w.nodes| == |v.nodes|
    && forall i :: 0 <= i < |w.nodes| ==> w.nodes[i].(rec := v.nodes[i].rec) == v.nodes[i]
  }

  /** What a whole round does to node i's ledger. */
  function NodeRound(n: NodeView, l: Ledger, byName: map<string, Bytes>, stats: map<string, Stats>,
                     hour: int, gw: Writes, rw: Writes): Ledger
  {
    if n.reality then RealityRound(n.id, l, StatsOf(stats, n.id), hour, rw)
    else GostRound(n.id, l, SumOver(n.services, byName), hour, gw)
  }

  lemma {:induction false} CommitAgrees(id: string, l: Ledger, m: Ledger, prev: Bytes, cur: Bytes, pid: int, hour: int,
                                        w: Writes)
    requires Agree(id, l, m)
    ensures Agree(id, Commit(id, l, prev, cur, pid, hour, w), Commit(id, m, prev, cur, pid, hour, w))
  {
    CommitLog(id, l, prev, cur, pid, hour, w, id);
    CommitLog(id, m, prev, cur, pid, hour, w, id);
  }

  lemma {:induction false} NodeRoundAgrees(n: NodeView, l: Ledger, m: Ledger, byName: map<string, Bytes>,
                                           stats: map<string, Stats>,
                        hour: int, gw: Writes, rw: Writes)
    requires Agree(n.id, l, m)
    ensures Agree(n.id, NodeRound(n, l, byName, stats, hour, gw, rw), NodeRound(n, m, byName, stats, hour, gw, rw))
  {
    var st := StatsOf(stats, n.id);
    if !n.reality {
      CommitAgrees(n.id, l, m, l.Baseline(), SumOver(n.services, byName), l.rec.pid, hour, gw);
    } else if l.rec.pid != -1 {
      CommitAgrees(n.id, l, m, RealityBaseline(l, st), st.bytes, st.pid, hour, rw);
    }
  }

  /** Putting l at node m: node i's ledger is l there, and elsewhere as before if l's log adds nothing to it. */
  lemma {:induction false} WithPerNode(w: World, p: World, m: nat, l: Ledger, i: nat)
    requires w.DistinctIds() && SameNodes(w, p) && m < |w.nodes| && i < |w.nodes| && l.last.Some?
    requires i != m ==> LogSum(l.log, w.nodes[i].id) == LogSum(p.log, w.nodes[i].id)
    requires l.saved.None? ==> p.LedgerOf(m).saved.None?
    ensures SameNodes(w, p.With(m, l))
    ensures Agree(w.nodes[i].id, p.With(m, l).LedgerOf(i), if i == m then l else p.LedgerOf(i))
  {
    if i != m {
      WithOther(p, m, l, i);
    }
  }

  lemma {:induction false} GostStepPerNode(w: World, p: World, m: nat, byName: map<string, Bytes>, hour: int,
                                           ws: Writes, i: nat, own: Bytes)
    requires w.DistinctIds() && SameNodes(w, p) && m < |w.nodes| && i < |w.nodes| && !w.nodes[m].reality
    requires own == SumOver(w.nodes[i].services, byName)
    requires i == m ==> Agree(w.nodes[i].id, p.LedgerOf(i), w.LedgerOf(i))
    ensures var r, n := GostStep(p, m, byName, hour, ws), w.nodes[i];
            && SameNodes(w, r)
            && Agree(n.id, r.LedgerOf(i),
                     if i == m then GostRound(n.id, w.LedgerOf(i), own, hour, ws) else p.LedgerOf(i))
  {
    var v, n := w.nodes[m], w.nodes[i];
    var cur := SumOver(v.services, byName);
    var l := GostRound(v.id, p.LedgerOf(m), cur, hour, ws);
    if i == m {
      CommitAgrees(n.id, p.LedgerOf(m), w.LedgerOf(m), p.LedgerOf(m).Baseline(), cur, p.LedgerOf(m).rec.pid, hour, ws);
    } else {
      CommitLog(v.id, p.LedgerOf(m), p.LedgerOf(m).Baseline(), cur, p.LedgerOf(m).rec.pid, hour, ws, n.id);
    }
    WithPerNode(w, p, m, l, i);
  }

  lemma {:induction false} RealityStepPerNode(w: World, p: World, m: nat, stats: map<string, Stats>, hour: int,
                                              ws: Writes, i: nat)
    requires w.DistinctIds() && SameNodes(w, p) && m < |w.nodes| && i < |w.nodes| && w.nodes[m].reality
    requires i == m ==> Agree(w.nodes[i].id, p.LedgerOf(i), w.LedgerOf(i))
    ensures var r, n := RealityStep(p, m, stats, hour, ws), w.nodes[i];
            && SameNodes(w, r)
            && Agree(n.id, r.LedgerOf(i), if i == m
                                          then RealityRound(n.id, w.LedgerOf(i), StatsOf(stats, n.id), hour, ws)
                                          else p.LedgerOf(i))
  {
    var v, n := w.nodes[m], w.nodes[i];
    var st := StatsOf(stats, v.id);
    var l := RealityRound(v.id, p.LedgerOf(m), st, hour, ws);
    if i == m {
      CommitAgrees(n.id, p.LedgerOf(m), w.LedgerOf(m), RealityBaseline(p.LedgerOf(m), st), st.bytes, st.pid, hour, ws);
    } else {
      CommitLog(v.id, p.LedgerOf(m), RealityBaseline(p.LedgerOf(m), st), st.bytes, st.pid, hour, ws, n.id);
    }
    WithPerNode(w, p, m, l, i);
  }

  lemma {:induction false} GostLoopPerNode(w: World, k: nat, byName: map<string, Bytes>, hour: int, ws: seq<Writes>,
                                           i: nat, own: Bytes)
    requires w.DistinctIds() && k <= |w.nodes| == |ws| && i < |w.nodes|
    requires own == SumOver(w.nodes[i].services, byName)
    ensures var r, n := GostLoop(w, k, byName, hour, ws), w.nodes[i];
            && SameNodes(w, r)
            && Agree(n.id, r.LedgerOf(i), if i < k && !n.reality then GostRound(n.id, w.LedgerOf(i), own, hour, ws[i])
                                          else w.LedgerOf(i))
  {
    if k > 0 {
      var p := GostLoop(w, k - 1, byName, hour, ws);
      GostLoopPerNode(w, k - 1, byName, hour, ws, i, own);
      if w.nodes[k - 1].reality {
        assert GostLoop(w, k, byName, hour, ws) == p;
      } else {
        GostStepPerNode(w, p, k - 1, byName, hour, ws[k - 1], i, own);
      }
    }
  }

  lemma {:induction false} RealityLoopPerNode(w: World, k: nat, stats: map<string, Stats>, hour: int, ws: seq<Writes>,
                                              i: nat)
    requires w.DistinctIds() && k <= |w.nodes| == |ws| && i < |w.nodes|
    ensures var r, n := RealityLoop(w, k, stats, hour, ws), w.nodes[i];
            && SameNodes(w, r)
            && Agree(n.id, r.LedgerOf(i), if i < k && n.reality
                                          then RealityRound(n.id, w.LedgerOf(i), StatsOf(stats, n.id), hour, ws[i])
                                          else w.LedgerOf(i))
  {
    if k > 0 {
      RealityLoopPerNode(w, k - 1, stats, hour, ws, i);
      if w.nodes[k - 1].reality {
        RealityStepPerNode(w, RealityLoop(w, k - 1, stats, hour, ws), k - 1, stats, hour, ws[k - 1], i);
      }
    }
  }

  /** A whole round gives every node exactly its own round's ledger, whatever happens to the other nodes. */
  lemma {:induction false} RoundPerNode(w: World, byName: map<string, Bytes>, stats: map<string, Stats>, hour: int,
                     gws: seq<Writes>, rws: seq<Writes>, i: nat)
    requires w.DistinctIds() && |gws| == |w.nodes| == |rws| && i < |w.nodes|
    ensures var r := RealityLoop(GostLoop(w, |w.nodes|, byName, hour, gws), |w.nodes|, stats, hour, rws);
            && SameNodes(w, r)
            && Agree(w.nodes[i].id, r.LedgerOf(i),
                     NodeRound(w.nodes[i], w.LedgerOf(i), byName, stats, hour, gws[i], rws[i]))
  {
    var n, g := w.nodes[i], GostLoop(w, |w.nodes|, byName, hour, gws);
    GostLoopPerNode(w, |w.nodes|, byName, hour, gws, i, SumOver(n.services, byName));
    RealityLoopPerNode(g, |w.nodes|, stats, hour, rws, i);
    if n.reality {
      NodeRoundAgrees(n, g.LedgerOf(i), w.LedgerOf(i), byName, stats, hour, rws[i], rws[i]);
    }
  }

  /** From log to log2 only samples of the round's hour were added, and a range of node `id`'s hours that holds it has
      grown by exactly what the node's total grew by, if the bucket's write succeeded; every other range, and every
      range after a failed write, is as before. */
  ghost predicate LandsInHour(id: string, log: seq<Sample>, total: Bytes, log2: seq<Sample>, total2: Bytes, hour: int,
                              addOk: bool, from: int, to: int)
  {
    && Extends(log, log2, hour)
    && if from <= hour < to && addOk
       then RangeSum(log2, id, from, to).Plus(total) == RangeSum(log, id, from, to).Plus(total2)
       else RangeSum(log2, id, from, to) == RangeSum(log, id, from, to)
  }

  lemma {:induction false} SumLands(id: string, log: seq<Sample>, total: Bytes, log2: seq<Sample>, total2: Bytes,
                                    hour: int, addOk: bool, from: int, to: int)
    requires Extends(log, log2, hour)
    requires if addOk then LogSum(log2, id).Plus(total) == LogSum(log, id).Plus(total2)
             else LogSum(log2, id) == LogSum(log, id)
    ensures LandsInHour(id, log, total, log2, total2, hour, addOk, from, to)
  {
    assert log + log2[|log|..] == log2;
    RangesGrow(log, log2[|log|..], hour, id, from, to);
  }

  /** The log credits the node with what its total grows by. */
  lemma {:induction false} NodeRoundSum(n: NodeView, l: Ledger, byName: map<string, Bytes>, stats: map<string, Stats>,
                                        hour: int, gw: Writes, rw: Writes)
    ensures var r := NodeRound(n, l, byName, stats, hour, gw, rw);
            if (if n.reality then rw else gw).addOk
            then LogSum(r.log, n.id).Plus(l.rec.total) == LogSum(l.log, n.id).Plus(r.rec.total)
            else LogSum(r.log, n.id) == LogSum(l.log, n.id)
  {
    var r := NodeRound(n, l, byName, stats, hour, gw, rw);
    if n.reality {
      RealityStored(n.id, l, StatsOf(stats, n.id), hour, rw);
    } else {
      GostStored(n.id, l, SumOver(n.services, byName), hour, gw);
    }
    LogSumAppend(l.log, Sample(n.id, hour, BytesDelta(l.rec.total, r.rec.total)), n.id);
  }

  /** A whole round lands in its own hour, for every node and every range of hours. */
  lemma {:induction false} RoundHours(w: World, byName: map<string, Bytes>, stats: map<string, Stats>, hour: int,
                                      gws: seq<Writes>, rws: seq<Writes>, i: nat, from: int, to: int)
    requires w.DistinctIds() && |gws| == |w.nodes| == |rws| && i < |w.nodes|
    ensures var r := RealityLoop(GostLoop(w, |w.nodes|, byName, hour, gws), |w.nodes|, stats, hour, rws);
            var n := w.nodes[i];
            LandsInHour(n.id, w.log, n.rec.total, r.log, r.nodes[i].rec.total, hour,
                        (if n.reality then rws[i] else gws[i]).addOk, from, to)
  {
    var n, g := w.nodes[i], GostLoop(w, |w.nodes|, byName, hour, gws);
    var r := RealityLoop(g, |w.nodes|, stats, hour, rws);
    GostLoopLog(w, |w.nodes|, byName, hour, gws);
    RealityLoopLog(g, |w.nodes|, stats, hour, rws);
    RoundPerNode(w, byName, stats, hour, gws, rws, i);
    NodeRoundSum(n, w.LedgerOf(i), byName, stats, hour, gws[i], rws[i]);
    SumLands(n.id, w.log, n.rec.total, r.log, r.nodes[i].rec.total, hour, (if n.reality then rws[i] else gws[i]).addOk,
        from, to);
  }

  /** The same of a round that cannot read the gost API. */
  lemma {:induction false} UnreadableHours(w: World, stats: map<string, Stats>, hour: int, rws: seq<Writes>, i: nat,
                                           from: int, to: int)
    requires w.DistinctIds() && |w.nodes| == |rws| && i < |w.nodes|
    ensures var r, n := RealityLoop(w, |w.nodes|, stats, hour, rws), w.nodes[i];
            LandsInHour(n.id, w.log, n.rec.total, r.log, r.nodes[i].rec.total, hour, rws[i].addOk, from, to)
  {
    var n, r := w.nodes[i], RealityLoop(w, |w.nodes|, stats, hour, rws);
    RealityLoopLog(w, |w.nodes|, stats, hour, rws);
    RealityLoopPerNode(w, |w.nodes|, stats, hour, rws, i);
    NodeRoundSum(n, w.LedgerOf(i), map[], stats, hour, rws[i], rws[i]);
    SumLands(n.id, w.log, n.rec.total, r.log, r.nodes[i].rec.total, hour, rws[i].addOk, from, to);
  }
}

/** Whole runs of the traffic ledger of one node: transfers, engine restarts, sampling rounds with
    failing writes, panel crashes and panel restarts, and reloads of the cached records by the panel's
    handlers, in any order and number.

    The bytes really carried are tracked beside the ledger and never read by it. */
module LedgerRuns {
  import opened Wrappers
  import opened Traffic
  import opened Ledger

  // ---------- gost nodes ----------

  /** `engine` maps each live service of the node to its counter; `inflated` collects what crashed
      rounds had already put in the buckets; `dropped` and `droppedSaved` are what reloads have taken
      out of the cached totals, and out of the stored ones. */
  datatype GostSys = GostSys(led: Ledger, engine: map<string, Bytes>, carried: Bytes, inflated: Bytes,
                             dropped: Bytes, droppedSaved: Bytes)

  datatype GostEvent =
    | Transfer(service: string, bytes: Bytes)  // a live service carries traffic
    | Create(service: string)                  // a service appears with a zero counter
    | Clear(service: string)                   // a service restarts in place: its counter goes to zero
    | Vanish(service: string)                  // a service disappears and its counter is lost
    | Round(hour: int, writes: Writes)         // a sampling round
    | CrashInRound(hour: int, addOk: bool)     // the panel dies between AddTraffic and SaveNode
    | Restart                                  // the panel dies and starts again
    | Refresh                                  // LoadNodes: the cached record is read from the database again
    | Resave                                   // a handler stores the cached record (toggle, new token)

  /** What a panel restart leaves: the stored record, no volatile baseline. */
  function Reload(l: Ledger): Ledger {
    l.(rec := if l.saved.Some? then l.saved.value else l.rec, last := None)
  }

  /** LoadNodes: the stored record replaces the cached one, and the live baseline stays. */
  function Refreshed(l: Ledger): Ledger {
    l.(rec := if l.saved.Some? then l.saved.value else l.rec)
  }

  /** What the cached totals lose in a reload, on top of what was missing. */
  function DroppedAfter(l: Ledger, dropped: Bytes, droppedSaved: Bytes): Bytes {
    if l.saved.None? then dropped
    else if l.last.None? then droppedSaved
    else dropped.Plus(BytesDelta(l.saved.value.total, l.rec.total))
  }

  /** Whether a gost round gets as far as SaveNode. */
  predicate GostSaves(l: Ledger, cur: Bytes) {
    l.last.None? || !BytesDelta(l.Baseline(), cur).IsZero()
  }

  function GostNext(id: string, names: seq<string>, s: GostSys, e: GostEvent): GostSys {
    match e
    case Transfer(n, b) =>
      if n in names && n in s.engine then s.(engine := s.engine[n := s.engine[n].Plus(b)], carried := s.carried.Plus(b))
      else s
    case Create(n) =>
      if n in s.engine then s else s.(engine := s.engine[n := ZERO])
    case Clear(n) =>
      if n in s.engine then s.(engine := s.engine[n := ZERO]) else s
    case Vanish(n) =>
      s.(engine := s.engine - {n})
    case Round(h, w) =>
      var cur := SumOver(names, s.engine);
      s.(led := GostRound(id, s.led, cur, h, w),
         droppedSaved := if GostSaves(s.led, cur) && w.saveOk then s.dropped else s.droppedSaved)
    case CrashInRound(h, addOk) =>
      var d := BytesDelta(s.led.Baseline(), SumOver(names, s.engine));
      s.(led := Reload(s.led.(log := AddTraffic(s.led.log, id, h, d, addOk))),
         inflated := if addOk then s.inflated.Plus(d) else s.inflated, dropped := s.droppedSaved)
    case Restart =>
      s.(led := Reload(s.led), dropped := s.droppedSaved)
    case Refresh =>
      s.(led := Refreshed(s.led), dropped := DroppedAfter(s.led, s.dropped, s.droppedSaved))
    case Resave =>
      if s.led.saved == Some(s.led.rec) then s
      else s.(led := s.led.(saved := Some(s.led.rec)), droppedSaved := s.dropped)
  }

  /** The state after the first k events. */
  function GostAfter(id: string, names: seq<string>, s: GostSys, es: seq<GostEvent>, k: nat): GostSys
    requires k <= |es|
  {
    if k == 0 then s else GostNext(id, names, GostAfter(id, names, s, es, k - 1), es[k - 1])
  }

  function GostRun(id: string, names: seq<string>, s: GostSys, es: seq<GostEvent>): GostSys {
    GostAfter(id, names, s, es, |es|)
  }

  /** A node just created: nothing carried, nothing counted, the zero record stored. */
  function NewNode(log: seq<Sample>): GostSys {
    var rec := NodeRec(ZERO, ZERO, 0);
    GostSys(Ledger(rec, None, Some(rec), log), map[], ZERO, ZERO, ZERO, ZERO)
  }

  /** `total` plus what the engine has counted beyond `base` stays within `carried`. */
  ghost predicate Covered(total: Bytes, base: Bytes, cur: Bytes, carried: Bytes) {
    total.Plus(BytesDelta(base, cur)).AtMost(carried)
  }

  /** The inductive invariant: either total, the cached and the stored one, with either baseline, its own counter and
      the live one. */
  ghost predicate GostCovered(names: seq<string>, s: GostSys) {
    var cur, l := SumOver(names, s.engine), s.led;
    && l.saved.Some?
    && Covered(l.rec.total, l.rec.counter, cur, s.carried)
    && Covered(l.saved.value.total, l.saved.value.counter, cur, s.carried)
    && (l.last.Some? ==> && Covered(l.rec.total, l.last.value, cur, s.carried)
                         && Covered(l.saved.value.total, l.last.value, cur, s.carried))
  }

  lemma {:induction false} SumFirstUpdate(names: seq<string>, m: map<string, Bytes>, n: string, v: Bytes, k: nat)
    requires NoDuplicates(names) && k <= |names|
    ensures n !in names[..k] ==> SumFirst(names, m[n := v], k) == SumFirst(names, m, k)
    ensures n in names[..k] ==>
              SumFirst(names, m[n := v], k).Plus(if n in m then m[n] else ZERO) == SumFirst(names, m, k).Plus(v)
  {
    if k > 0 {
      SumFirstUpdate(names, m, n, v, k - 1);
      assert names[..k] == names[..k - 1] + [names[k - 1]];
    }
  }

  lemma {:induction false} SumOverUpdate(names: seq<string>, m: map<string, Bytes>, n: string, v: Bytes)
    requires NoDuplicates(names)
    ensures n !in names ==> SumOver(names, m[n := v]) == SumOver(names, m)
    ensures n in names ==>
              SumOver(names, m[n := v]).Plus(if n in m then m[n] else ZERO) == SumOver(names, m).Plus(v)
  {
    SumFirstUpdate(names, m, n, v, |names|);
    assert names[..|names|] == names;
  }

  lemma {:induction false} SumFirstRemove(names: seq<string>, m: map<string, Bytes>, n: string, k: nat)
    requires k <= |names|
    ensures SumFirst(names, m - {n}, k).AtMost(SumFirst(names, m, k))
  {
    if k > 0 {
      SumFirstRemove(names, m, n, k - 1);
    }
  }

  /** The counters move by at most d while d is carried. */
  lemma {:induction false} EngineCovered(names: seq<string>, s: GostSys, t: GostSys, d: Bytes)
    requires GostCovered(names, s) && t.led == s.led && t.carried == s.carried.Plus(d)
    requires SumOver(names, t.engine).AtMost(SumOver(names, s.engine).Plus(d))
    ensures GostCovered(names, t)
  {
  }

  lemma {:induction false} EngineMoves(id: string, names: seq<string>, s: GostSys, e: GostEvent)
    requires NoDuplicates(names) && (e.Transfer? || e.Create? || e.Clear? || e.Vanish?)
    ensures var t, d := GostNext(id, names, s, e), if e.Transfer? && e.service in names && e.service in s.engine
                                                    then e.bytes else ZERO;
            && t.led == s.led && t.carried == s.carried.Plus(d)
            && SumOver(names, t.engine).AtMost(SumOver(names, s.engine).Plus(d))
  {
    match e
    case Transfer(n, b) =>
      if n in s.engine {
        SumOverUpdate(names, s.engine, n, s.engine[n].Plus(b));
      }
    case Create(n) =>
      SumOverUpdate(names, s.engine, n, ZERO);
    case Clear(n) =>
      SumOverUpdate(names, s.engine, n, ZERO);
    case Vanish(n) =>
      SumFirstRemove(names, s.engine, n, |names|);
  }

  lemma {:induction false} LedgerCovered(id: string, names: seq<string>, s: GostSys, e: GostEvent)
    requires GostCovered(names, s) && !e.Transfer? && !e.Create? && !e.Clear? && !e.Vanish?
    ensures GostCovered(names, GostNext(id, names, s, e))
  {
  }

  lemma {:induction false} GostStepCovered(id: string, names: seq<string>, s: GostSys, e: GostEvent)
    requires NoDuplicates(names) && GostCovered(names, s)
    ensures GostCovered(names, GostNext(id, names, s, e))
  {
    if e.Transfer? || e.Create? || e.Clear? || e.Vanish? {
      EngineMoves(id, names, s, e);
      EngineCovered(names, s, GostNext(id, names, s, e),
          if e.Transfer? && e.service in names && e.service in s.engine then e.bytes else ZERO);
    } else {
      LedgerCovered(id, names, s, e);
    }
  }

  lemma {:induction false} GostRunCovered(id: string, names: seq<string>, s: GostSys, es: seq<GostEvent>, k: nat)
    requires NoDuplicates(names) && GostCovered(names, s) && k <= |es|
    ensures GostCovered(names, GostAfter(id, names, s, es, k))
  {
    if k > 0 {
      GostRunCovered(id, names, s, es, k - 1);
      GostStepCovered(id, names, GostAfter(id, names, s, es, k - 1), es[k - 1]);
    }
  }

  /** Never over-count: in every run, the cached and the stored totals stay within the bytes carried. */
  lemma {:induction false} NeverOverCount(id: string, names: seq<string>, log: seq<Sample>, es: seq<GostEvent>)
    requires NoDuplicates(names)
    ensures var s := GostRun(id, names, NewNode(log), es);
            && s.led.rec.total.AtMost(s.carried)
            && s.led.saved.Some? && s.led.saved.value.total.AtMost(s.carried)
  {
    var s := NewNode(log);
    EmptySum(names, s.engine, |names|);
    GostRunCovered(id, names, s, es, |es|);
  }

  lemma {:induction false} EmptySum(names: seq<string>, m: map<string, Bytes>, k: nat)
    requires m == map[] && k <= |names|
    ensures SumFirst(names, m, k) == ZERO
  {
    if k > 0 {
      EmptySum(names, m, k - 1);
    }
  }

  // ----- exactness -----

  /** No engine counter is ever lost. */
  ghost predicate EngineSteady(es: seq<GostEvent>) {
    forall e :: e in es ==> !e.Clear? && !e.Vanish?
  }

  /** `total` plus what the engine has counted beyond `base` is what was carried. */
  ghost predicate Balanced(total: Bytes, base: Bytes, cur: Bytes, carried: Bytes) {
    && base.AtMost(cur)
    && total.inBytes + (cur.inBytes - base.inBytes) == carried.inBytes
    && total.outBytes + (cur.outBytes - base.outBytes) == carried.outBytes
  }

  ghost predicate GostBalanced(names: seq<string>, s: GostSys) {
    var cur, l := SumOver(names, s.engine), s.led;
    && l.saved.Some? && l.saved.value.total.AtMost(l.rec.total)
    && Balanced(l.rec.total.Plus(s.dropped), l.Baseline(), cur, s.carried)
    && Balanced(l.saved.value.total.Plus(s.droppedSaved), l.saved.value.counter, cur, s.carried)
    && (l.last.Some? ==> l.saved == Some(l.rec) || l.rec.counter == l.last.value)
  }

  /** What the services' counters do to their sum. */
  lemma {:induction false} EngineBalanced(id: string, names: seq<string>, p: GostSys, e: GostEvent)
    requires NoDuplicates(names) && GostBalanced(names, p) && (e.Transfer? || e.Create?)
    ensures GostBalanced(names, GostNext(id, names, p, e))
  {
    if e.Transfer? && e.service in p.engine {
      SumOverUpdate(names, p.engine, e.service, p.engine[e.service].Plus(e.bytes));
    } else if e.Create? {
      SumOverUpdate(names, p.engine, e.service, ZERO);
    }
  }

  lemma {:induction false} LedgerBalanced(id: string, names: seq<string>, p: GostSys, e: GostEvent)
    requires GostBalanced(names, p) && !e.Transfer? && !e.Create? && !e.Clear? && !e.Vanish?
    ensures GostBalanced(names, GostNext(id, names, p, e))
  {
  }

  lemma {:induction false} GostRunBalanced(id: string, names: seq<string>, s: GostSys, es: seq<GostEvent>, k: nat)
    requires NoDuplicates(names) && GostBalanced(names, s) && EngineSteady(es) && k <= |es|
    ensures GostBalanced(names, GostAfter(id, names, s, es, k))
  {
    if k > 0 {
      var p, e := GostAfter(id, names, s, es, k - 1), es[k - 1];
      GostRunBalanced(id, names, s, es, k - 1);
      if e.Transfer? || e.Create? {
        EngineBalanced(id, names, p, e);
      } else {
        LedgerBalanced(id, names, p, e);
      }
    }
  }

  /** Exactness: while no engine counter is lost, totals plus what the engine has counted since the baseline are the
      bytes carried, over any number of panel restarts, crashed rounds and failed writes, exactly when no reload has
      dropped anything; otherwise precisely what was dropped is missing. */
  lemma {:induction false} ExactWithoutEngineLoss(id: string, names: seq<string>, log: seq<Sample>, es: seq<GostEvent>)
    requires NoDuplicates(names) && EngineSteady(es)
    ensures var s := GostRun(id, names, NewNode(log), es);
            var cur := SumOver(names, s.engine);
            && Balanced(s.led.rec.total.Plus(s.dropped), s.led.Baseline(), cur, s.carried)
            && (Balanced(s.led.rec.total, s.led.Baseline(), cur, s.carried) <==> s.dropped.IsZero())
  {
    var s := NewNode(log);
    EmptySum(names, s.engine, |names|);
    GostRunBalanced(id, names, s, es, |es|);
  }

  /** A run that loses bytes for good: a transfer of b, a round whose record cannot be stored, a reload of the cached
      records, and a round that stores what is left. */
  function LosingRun(n: string, b: Bytes, h: int): seq<GostEvent> {
    [Create(n), Round(h, Writes(true, true)), Transfer(n, b), Round(h, Writes(true, false)), Refresh,
     Round(h, Writes(true, true))]
  }

  lemma {:induction false} LostForGood(id: string, n: string, b: Bytes, h: int, log: seq<Sample>)
    ensures var s := GostRun(id, [n], NewNode(log), LosingRun(n, b, h));
            s.carried == b == s.dropped && s.led.rec.total == ZERO && s.led.saved == Some(s.led.rec)
  {
    var names, es, s0 := [n], LosingRun(n, b, h), NewNode(log);
    var s1 := GostNext(id, names, s0, es[0]);
    OneService(n, s1.engine);
    var s2 := GostNext(id, names, s1, es[1]);
    var s3 := GostNext(id, names, s2, es[2]);
    OneService(n, s3.engine);
    var s4 := GostNext(id, names, s3, es[3]);
    var s5 := GostNext(id, names, s4, es[4]);
    var s6 := GostNext(id, names, s5, es[5]);
    assert GostAfter(id, names, s0, es, 0) == s0;
    assert GostAfter(id, names, s0, es, 1) == s1;
    assert GostAfter(id, names, s0, es, 2) == s2;
    assert GostAfter(id, names, s0, es, 3) == s3;
    assert GostAfter(id, names, s0, es, 4) == s4;
    assert GostAfter(id, names, s0, es, 5) == s5;
    assert GostAfter(id, names, s0, es, 6) == s6;
  }

  lemma {:induction false} OneService(n: string, m: map<string, Bytes>)
    requires n in m
    ensures SumOver([n], m) == m[n]
  {
    assert SumFirst([n], m, 1) == SumFirst([n], m, 0).Plus(m[n]);
  }

  /** A reload drops what the cached record counts and the stored one does not, if a round has been sampled since the
      panel started. */
  lemma {:induction false} ReloadDropsIff(id: string, names: seq<string>, p: GostSys)
    requires GostBalanced(names, p) && p.dropped.IsZero() && p.droppedSaved.IsZero()
    ensures GostNext(id, names, p, Refresh).dropped.IsZero()
            <==> p.led.last.None? || p.led.saved.value.total == p.led.rec.total
  {
  }

  lemma {:induction false} NoReloadNothingDropped(id: string, names: seq<string>, log: seq<Sample>,
                                                  es: seq<GostEvent>, k: nat)
    requires (forall e :: e in es ==> !e.Refresh?) && k <= |es|
    ensures var s := GostAfter(id, names, NewNode(log), es, k); s.dropped == s.droppedSaved == ZERO
  {
    if k > 0 {
      NoReloadNothingDropped(id, names, log, es, k - 1);
    }
  }

  // ----- conservation between totals and buckets -----

  /** No database write fails. */
  ghost predicate WritesSucceed(es: seq<GostEvent>) {
    forall e :: e in es ==> (e.Round? ==> e.writes == Writes(true, true)) && (e.CrashInRound? ==> e.addOk)
  }

  /** What an event adds to `inflated`: for a crashed round its own delta, else nothing. */
  function CrashDelta(names: seq<string>, s: GostSys, e: GostEvent): Bytes {
    if e.CrashInRound? then BytesDelta(s.led.Baseline(), SumOver(names, s.engine)) else ZERO
  }

  /** The deltas of the crashed rounds among the first k events, together. */
  function CrashDeltas(id: string, names: seq<string>, s: GostSys, es: seq<GostEvent>, k: nat): Bytes
    requires k <= |es|
  {
    if k == 0 then ZERO
    else CrashDeltas(id, names, s, es, k - 1).Plus(CrashDelta(names, GostAfter(id, names, s, es, k - 1), es[k - 1]))
  }

  /** Conservation: with no failed write the stored record is the cached one, the buckets hold the totals plus exactly
      the deltas of the rounds that a crash cut between their two writes, and no reload drops anything. */
  lemma {:induction false} BucketsMatchTotals(id: string, names: seq<string>, log: seq<Sample>, es: seq<GostEvent>,
                                              k: nat)
    requires WritesSucceed(es) && LogSum(log, id) == ZERO && k <= |es|
    ensures var s := GostAfter(id, names, NewNode(log), es, k);
            && s.led.saved == Some(s.led.rec)
            && LogSum(s.led.log, id) == s.led.rec.total.Plus(s.inflated)
            && s.inflated == CrashDeltas(id, names, NewNode(log), es, k)
            && s.dropped == s.droppedSaved == ZERO
  {
    if k > 0 {
      BucketsMatchTotals(id, names, log, es, k - 1);
      BucketsStep(id, names, GostAfter(id, names, NewNode(log), es, k - 1), es[k - 1]);
    }
  }

  lemma {:induction false} BucketsStep(id: string, names: seq<string>, p: GostSys, e: GostEvent)
    requires p.led.saved == Some(p.led.rec) && LogSum(p.led.log, id) == p.led.rec.total.Plus(p.inflated)
    requires (e.Round? ==> e.writes == Writes(true, true)) && (e.CrashInRound? ==> e.addOk)
    requires p.dropped == p.droppedSaved == ZERO
    ensures var s := GostNext(id, names, p, e);
            && s.led.saved == Some(s.led.rec) && s.dropped == s.droppedSaved == ZERO
            && LogSum(s.led.log, id) == s.led.rec.total.Plus(s.inflated)
            && s.inflated == p.inflated.Plus(CrashDelta(names, p, e))
  {
    var cur := SumOver(names, p.engine);
    if e.Round? {
      CommitLog(id, p.led, p.led.Baseline(), cur, p.led.rec.pid, e.hour, e.writes, id);
    } else if e.CrashInRound? {
      LogSumAppend(p.led.log, Sample(id, e.hour, BytesDelta(p.led.Baseline(), cur)), id);
    }
  }

  /** What an event adds to the buckets: a round, what the total grows by; a crashed round, what the services counted
      beyond the baseline; nothing if the bucket's write fails. */
  function Credit(id: string, names: seq<string>, s: GostSys, e: GostEvent): Bytes {
    match e
    case Round(_, w) =>
      if w.addOk then BytesDelta(s.led.rec.total, GostNext(id, names, s, e).led.rec.total) else ZERO
    case CrashInRound(_, addOk) =>
      if addOk then BytesDelta(s.led.Baseline(), SumOver(names, s.engine)) else ZERO
    case _ => ZERO
  }

  /** The credits of those of the first k events whose hour is in [from, to). */
  function CreditsIn(id: string, names: seq<string>, s: GostSys, es: seq<GostEvent>, k: nat, from: int, to: int): Bytes
    requires k <= |es|
  {
    if k == 0 then ZERO
    else if (es[k - 1].Round? || es[k - 1].CrashInRound?) && from <= es[k - 1].hour < to then
      var e, before := es[k - 1], GostAfter(id, names, s, es, k - 1);
      CreditsIn(id, names, s, es, k - 1, from, to).Plus(Credit(id, names, before, e))
    else CreditsIn(id, names, s, es, k - 1, from, to)
  }

  lemma {:induction false} CreditLands(id: string, names: seq<string>, p: GostSys, e: GostEvent, from: int, to: int)
    ensures RangeSum(GostNext(id, names, p, e).led.log, id, from, to)
            == if (e.Round? || e.CrashInRound?) && from <= e.hour < to
               then RangeSum(p.led.log, id, from, to).Plus(Credit(id, names, p, e))
               else RangeSum(p.led.log, id, from, to)
  {
    var cur := SumOver(names, p.engine);
    if e.Round? {
      var r := GostRound(id, p.led, cur, e.hour, e.writes);
      GostStored(id, p.led, cur, e.hour, e.writes);
      RangeAppend(p.led.log, Sample(id, e.hour, BytesDelta(p.led.rec.total, r.rec.total)), id, from, to);
    } else if e.CrashInRound? {
      RangeAppend(p.led.log, Sample(id, e.hour, BytesDelta(p.led.Baseline(), cur)), id, from, to);
    }
  }

  /** In every run, failing writes and crashes included, each round lands in its own hour: any range of hours holds what
      it held at the start and exactly the credits of the rounds of those hours. */
  lemma {:induction false} RoundsLandInTheirHours(id: string, names: seq<string>, s: GostSys, es: seq<GostEvent>,
                                                  k: nat, from: int, to: int)
    requires k <= |es|
    ensures RangeSum(GostAfter(id, names, s, es, k).led.log, id, from, to)
            == RangeSum(s.led.log, id, from, to).Plus(CreditsIn(id, names, s, es, k, from, to))
  {
    if k > 0 {
      RoundsLandInTheirHours(id, names, s, es, k - 1, from, to);
      CreditLands(id, names, GostAfter(id, names, s, es, k - 1), es[k - 1], from, to);
    }
  }

  // ---------- REALITY nodes ----------

  datatype Process = Process(pid: int, counter: Bytes)

  /** `memOrigin` and `diskOrigin` are the bytes carried when the cached, respectively the stored, record was
      last reset; `dropped` and `droppedSaved` are as for gost nodes. */
  datatype RealitySys = RealitySys(led: Ledger, process: Option<Process>, carried: Bytes,
                                   memOrigin: Bytes, diskOrigin: Bytes, dropped: Bytes, droppedSaved: Bytes)
  {
    /** A complete reading, or "no process". */
    function Reading(): Stats {
      if process.Some? then Stats(process.value.pid, process.value.counter) else Stats(0, ZERO)
    }
  }

  datatype RealityEvent =
    | Carry(bytes: Bytes)                     // the running process carries traffic
    | Launch(pid: int)                        // a new process replaces whatever ran; its pid may be an old one
    | Exit                                    // the process ends
    | Poll(hour: int, writes: Writes)         // a sampling round
    | PollCrash(hour: int, addOk: bool)       // the panel dies between AddTraffic and SaveNode
    | Reboot                                  // the panel dies and starts again
    | Reset(saveOk: bool)                     // ResetNodeTraffic
    | Reread                                  // LoadNodes: the cached record is read from the database again
    | Restore                                 // a handler stores the cached record (toggle, new token)

  /** Whether a round gets as far as SaveNode. */
  predicate Saves(l: Ledger, st: Stats) {
    l.rec.pid == -1 || l.last.None? || !BytesDelta(RealityBaseline(l, st), st.bytes).IsZero()
  }

  function RealityNext(id: string, s: RealitySys, e: RealityEvent): RealitySys {
    var st := s.Reading();
    match e
    case Carry(b) =>
      if s.process.None? then s
      else s.(process := Some(Process(s.process.value.pid, s.process.value.counter.Plus(b))),
          carried := s.carried.Plus(b))
    case Launch(pid) =>
      if pid > 0 then s.(process := Some(Process(pid, ZERO))) else s
    case Exit =>
      s.(process := None)
    case Poll(h, w) =>
      var saves := Saves(s.led, st) && w.saveOk;
      s.(led := RealityRound(id, s.led, st, h, w), diskOrigin := if saves then s.memOrigin else s.diskOrigin,
         droppedSaved := if saves then s.dropped else s.droppedSaved)
    case PollCrash(h, addOk) =>
      var d := BytesDelta(RealityBaseline(s.led, st), st.bytes);
      var log := if s.led.rec.pid == -1 then s.led.log else AddTraffic(s.led.log, id, h, d, addOk);
      s.(led := Reload(s.led.(log := log)), memOrigin := s.diskOrigin, dropped := s.droppedSaved)
    case Reboot =>
      s.(led := Reload(s.led), memOrigin := s.diskOrigin, dropped := s.droppedSaved)
    case Reset(saveOk) =>
      s.(led := ResetLedger(s.led, true, st, saveOk), memOrigin := s.carried,
         diskOrigin := if saveOk then s.carried else s.diskOrigin,
         dropped := ZERO, droppedSaved := if saveOk then ZERO else s.droppedSaved)
    case Reread =>
      s.(led := Refreshed(s.led), memOrigin := s.diskOrigin,
         dropped := DroppedAfter(s.led, s.dropped, s.droppedSaved))
    case Restore =>
      if s.led.saved == Some(s.led.rec) then s
      else s.(led := s.led.(saved := Some(s.led.rec)), diskOrigin := s.memOrigin, droppedSaved := s.dropped)
  }

  /** The state after the first k events. */
  function RealityAfter(id: string, s: RealitySys, es: seq<RealityEvent>, k: nat): RealitySys
    requires k <= |es|
  {
    if k == 0 then s else RealityNext(id, RealityAfter(id, s, es, k - 1), es[k - 1])
  }

  function RealityRun(id: string, s: RealitySys, es: seq<RealityEvent>): RealitySys {
    RealityAfter(id, s, es, |es|)
  }

  function NewRealityNode(log: seq<Sample>): RealitySys {
    var rec := NodeRec(ZERO, ZERO, 0);
    RealitySys(Ledger(rec, None, Some(rec), log), None, ZERO, ZERO, ZERO, ZERO, ZERO)
  }

  /** What the next complete reading would add to a record with baseline `base` and process id `pid`. */
  function Pending(base: Bytes, pid: int, st: Stats): Bytes {
    if pid == -1 then ZERO
    else BytesDelta(if st.pid > 0 && pid != st.pid then ZERO else base, st.bytes)
  }

  /** `origin` plus a record's total plus what the next complete reading adds to it stays within `carried`. */
  ghost predicate Within(origin: Bytes, rec: NodeRec, base: Bytes, st: Stats, carried: Bytes) {
    origin.Plus(rec.total).Plus(Pending(base, rec.pid, st)).AtMost(carried)
  }

  ghost predicate RealityCovered(s: RealitySys) {
    var l, st := s.led, s.Reading();
    && l.saved.Some? && (s.process.Some? ==> s.process.value.pid > 0)
    && Within(s.memOrigin, l.rec, l.rec.counter, st, s.carried)
    && Within(s.diskOrigin, l.saved.value, l.saved.value.counter, st, s.carried)
    && (l.last.Some? ==> && Within(s.memOrigin, l.rec, l.last.value, st, s.carried)
                         && Covered(s.memOrigin.Plus(l.rec.total), l.last.value, st.bytes, s.carried)
                         && Covered(s.diskOrigin.Plus(l.saved.value.total), l.last.value, st.bytes, s.carried))
  }

  /** A reading can only grow by what is carried, or fall back to zero with the process. */
  lemma {:induction false} WithinMoves(origin: Bytes, rec: NodeRec, base: Bytes, st: Stats, st2: Stats, d: Bytes,
                                       carried: Bytes)
    requires Within(origin, rec, base, st, carried)
    requires st2 == Stats(st.pid, st.bytes.Plus(d)) || st2.bytes.IsZero()
    ensures Within(origin, rec, base, st2, carried.Plus(d))
  {
  }

  lemma {:induction false} CoveredMoves(total: Bytes, base: Bytes, cur: Bytes, cur2: Bytes, d: Bytes, carried: Bytes)
    requires Covered(total, base, cur, carried) && (cur2 == cur.Plus(d) || cur2.IsZero())
    ensures Covered(total, base, cur2, carried.Plus(d))
  {
  }

  lemma {:induction false} ProcessCovered(s: RealitySys, t: RealitySys, d: Bytes)
    requires RealityCovered(s) && t.led == s.led && t.memOrigin == s.memOrigin && t.diskOrigin == s.diskOrigin
    requires t.carried == s.carried.Plus(d) && (t.process.Some? ==> t.process.value.pid > 0)
    requires t.Reading() == Stats(s.Reading().pid, s.Reading().bytes.Plus(d)) || t.Reading().bytes.IsZero()
    ensures RealityCovered(t)
  {
    var l, st, st2 := s.led, s.Reading(), t.Reading();
    WithinMoves(s.memOrigin, l.rec, l.rec.counter, st, st2, d, s.carried);
    WithinMoves(s.diskOrigin, l.saved.value, l.saved.value.counter, st, st2, d, s.carried);
    if l.last.Some? {
      WithinMoves(s.memOrigin, l.rec, l.last.value, st, st2, d, s.carried);
      CoveredMoves(s.memOrigin.Plus(l.rec.total), l.last.value, st.bytes, st2.bytes, d, s.carried);
      CoveredMoves(s.diskOrigin.Plus(l.saved.value.total), l.last.value, st.bytes, st2.bytes, d, s.carried);
    }
  }

  /** After a round the cached record's baseline is the reading, so nothing is pending for it. */
  lemma {:induction false} NothingPending(origin: Bytes, rec: NodeRec, st: Stats, carried: Bytes)
    requires origin.Plus(rec.total).AtMost(carried)
    ensures Covered(origin.Plus(rec.total), st.bytes, st.bytes, carried)
    ensures rec.pid == st.pid || rec.pid == -1 || st.pid <= 0 ==> Within(origin, rec, st.bytes, st, carried)
  {
  }

  lemma {:induction false} AdoptCovered(id: string, s: RealitySys, h: int, w: Writes)
    requires RealityCovered(s) && s.led.rec.pid == -1
    ensures RealityCovered(RealityNext(id, s, Poll(h, w)))
  {
    var r, st := RealityNext(id, s, Poll(h, w)), s.Reading();
    NothingPending(s.memOrigin, r.led.rec, st, s.carried);
    NothingPending(r.diskOrigin, r.led.saved.value, st, s.carried);
  }

  /** Moving a baseline to the reading keeps the bound. */
  lemma {:induction false} Rebased(origin: Bytes, rec: NodeRec, base: Bytes, st: Stats, carried: Bytes)
    requires Within(origin, rec, base, st, carried)
    ensures Within(origin, rec, st.bytes, st, carried)
    ensures Covered(origin.Plus(rec.total), st.bytes, st.bytes, carried)
  {
  }

  /** A round that adds what was pending. */
  lemma {:induction false} Counted(origin: Bytes, rec: NodeRec, base: Bytes, st: Stats, carried: Bytes)
    requires Within(origin, rec, base, st, carried)
    ensures var after := NodeRec(rec.total.Plus(Pending(base, rec.pid, st)), st.bytes, st.pid);
            Within(origin, after, st.bytes, st, carried)
            && Covered(origin.Plus(after.total), st.bytes, st.bytes, carried)
  {
  }

  lemma {:induction false} CountCovered(id: string, s: RealitySys, h: int, w: Writes)
    requires RealityCovered(s) && s.led.rec.pid != -1
    ensures RealityCovered(RealityNext(id, s, Poll(h, w)))
  {
    var l, st := s.led, s.Reading();
    assert RealityBaseline(l, st) == if st.pid > 0 && l.rec.pid != st.pid then ZERO else l.Baseline();
    Rebased(s.memOrigin, l.rec, l.Baseline(), st, s.carried);
    Rebased(s.diskOrigin, l.saved.value, l.saved.value.counter, st, s.carried);
    Counted(s.memOrigin, l.rec, l.Baseline(), st, s.carried);
  }

  lemma {:induction false} RereadCovered(id: string, s: RealitySys)
    requires RealityCovered(s)
    ensures RealityCovered(RealityNext(id, s, Reread))
  {
  }

  lemma {:induction false} RealityStepCovered(id: string, s: RealitySys, e: RealityEvent)
    requires RealityCovered(s)
    ensures RealityCovered(RealityNext(id, s, e))
  {
    if e.Poll? {
      if s.led.rec.pid == -1 {
        AdoptCovered(id, s, e.hour, e.writes);
      } else {
        CountCovered(id, s, e.hour, e.writes);
      }
    } else if e.Reread? {
      RereadCovered(id, s);
    } else if e.Carry? || e.Launch? || e.Exit? {
      ProcessCovered(s, RealityNext(id, s, e), if e.Carry? && s.process.Some? then e.bytes else ZERO);
    }
  }

  lemma {:induction false} RealityRunCovered(id: string, s: RealitySys, es: seq<RealityEvent>, k: nat)
    requires RealityCovered(s) && k <= |es|
    ensures RealityCovered(RealityAfter(id, s, es, k))
  {
    if k > 0 {
      RealityRunCovered(id, s, es, k - 1);
      RealityStepCovered(id, RealityAfter(id, s, es, k - 1), es[k - 1]);
    }
  }

  /** Over every run of process replacements (pid reuse included), panel restarts, crashed rounds, failed writes,
      reloads and resets, the totals never exceed the bytes carried since the reset that their record goes back to. */
  lemma {:induction false} RealityNeverOverCounts(id: string, log: seq<Sample>, es: seq<RealityEvent>)
    ensures var s := RealityRun(id, NewRealityNode(log), es);
            && s.memOrigin.Plus(s.led.rec.total).AtMost(s.carried)
            && s.led.saved.Some? && s.diskOrigin.Plus(s.led.saved.value.total).AtMost(s.carried)
  {
    RealityRunCovered(id, NewRealityNode(log), es, |es|);
  }

  ghost predicate RealityBalanced(s: RealitySys) {
    var l := s.led;
    && s.process.Some? && s.process.value.pid > 0 && l.saved.Some?
    && s.memOrigin == s.diskOrigin && l.saved.value.total.AtMost(l.rec.total)
    && l.rec.pid == l.saved.value.pid == s.process.value.pid
    && Balanced(s.memOrigin.Plus(l.rec.total).Plus(s.dropped), l.Baseline(), s.process.value.counter, s.carried)
    && Balanced(s.memOrigin.Plus(l.saved.value.total).Plus(s.droppedSaved), l.saved.value.counter,
                s.process.value.counter, s.carried)
    && (l.last.Some? ==> l.saved == Some(l.rec) || l.rec.counter == l.last.value)
  }

  /** What happens while one process lives. */
  predicate Steady(e: RealityEvent) {
    e.Carry? || e.Poll? || e.PollCrash? || e.Reboot? || e.Reread? || e.Restore?
  }

  lemma {:induction false} PollBalanced(id: string, s: RealitySys, h: int, w: Writes)
    requires RealityBalanced(s)
    ensures var r := RealityNext(id, s, Poll(h, w)); RealityBalanced(r) && r.memOrigin == s.memOrigin
  {
  }

  lemma {:induction false} RealityStepBalanced(id: string, s: RealitySys, e: RealityEvent)
    requires RealityBalanced(s) && Steady(e)
    ensures var r := RealityNext(id, s, e); RealityBalanced(r) && r.memOrigin == s.memOrigin
  {
    if e.Poll? {
      PollBalanced(id, s, e.hour, e.writes);
    }
  }

  lemma {:induction false} RealityRunBalanced(id: string, s: RealitySys, es: seq<RealityEvent>, k: nat)
    requires RealityBalanced(s) && (forall e :: e in es ==> Steady(e)) && k <= |es|
    ensures var r := RealityAfter(id, s, es, k); RealityBalanced(r) && r.memOrigin == s.memOrigin
  {
    if k > 0 {
      RealityRunBalanced(id, s, es, k - 1);
      RealityStepBalanced(id, RealityAfter(id, s, es, k - 1), es[k - 1]);
    }
  }

  /** After a stored reset with the engine running, and while that process lives, the totals are exactly the bytes
      carried since the reset, less what the engine has not been asked about yet, exactly when no reload has dropped
      anything; otherwise precisely what was dropped is missing. */
  lemma {:induction false} RealityExactAfterReset(id: string, s: RealitySys, es: seq<RealityEvent>)
    requires s.process.Some? && s.process.value.pid > 0 && forall e :: e in es ==> Steady(e)
    ensures var r := RealityRun(id, RealityNext(id, s, Reset(true)), es);
            && r.memOrigin == s.carried && r.process.Some?
            && var counted, cur := s.carried.Plus(r.led.rec.total), r.process.value.counter;
               && Balanced(counted.Plus(r.dropped), r.led.Baseline(), cur, r.carried)
               && (Balanced(counted, r.led.Baseline(), cur, r.carried) <==> r.dropped.IsZero())
  {
    RealityRunBalanced(id, RealityNext(id, s, Reset(true)), es, |es|);
  }

  // ----- conservation between totals and buckets -----

  ghost predicate PollsStored(es: seq<RealityEvent>) {
    forall e :: e in es ==> && (e.Poll? ==> e.writes == Writes(true, true)) && (e.PollCrash? ==> e.addOk)
                            && (e.Reset? ==> e.saveOk)
  }

  /** What the buckets hold beyond the totals because of an event: a crashed round's own delta, or the totals that a
      reset clears. */
  function Beyond(s: RealitySys, e: RealityEvent): Bytes {
    var st := s.Reading();
    if e.PollCrash? && s.led.rec.pid != -1 then BytesDelta(RealityBaseline(s.led, st), st.bytes)
    else if e.Reset? then s.led.rec.total
    else ZERO
  }

  function AllBeyond(id: string, s: RealitySys, es: seq<RealityEvent>, k: nat): Bytes
    requires k <= |es|
  {
    if k == 0 then ZERO else AllBeyond(id, s, es, k - 1).Plus(Beyond(RealityAfter(id, s, es, k - 1), es[k - 1]))
  }

  lemma {:induction false} RealityBucketsStep(id: string, p: RealitySys, e: RealityEvent)
    requires p.led.saved == Some(p.led.rec) && PollsStored([e])
    ensures var s := RealityNext(id, p, e);
            && s.led.saved == Some(s.led.rec)
            && LogSum(s.led.log, id).Plus(p.led.rec.total)
               == LogSum(p.led.log, id).Plus(s.led.rec.total).Plus(Beyond(p, e))
  {
    var st := p.Reading();
    assert e in [e];
    if e.Poll? && p.led.rec.pid != -1 {
      CommitLog(id, p.led, RealityBaseline(p.led, st), st.bytes, st.pid, e.hour, e.writes, id);
    } else if e.PollCrash? {
      LogSumAppend(p.led.log, Sample(id, e.hour, BytesDelta(RealityBaseline(p.led, st), st.bytes)), id);
    }
  }

  /** Conservation for REALITY nodes: with no failed write the stored record is the cached one, and the buckets hold the
      totals plus exactly the deltas of crashed rounds and the totals that resets cleared. */
  lemma {:induction false} RealityBucketsMatchTotals(id: string, log: seq<Sample>, es: seq<RealityEvent>, k: nat)
    requires PollsStored(es) && LogSum(log, id) == ZERO && k <= |es|
    ensures var s := RealityAfter(id, NewRealityNode(log), es, k);
            && s.led.saved == Some(s.led.rec)
            && LogSum(s.led.log, id) == s.led.rec.total.Plus(AllBeyond(id, NewRealityNode(log), es, k))
  {
    if k > 0 {
      RealityBucketsMatchTotals(id, log, es, k - 1);
      RealityBucketsStep(id, RealityAfter(id, NewRealityNode(log), es, k - 1), es[k - 1]);
    }
  }

  /** What an event adds to the buckets of a REALITY node; a round after a reset only sets the baseline. */
  function RealityCredit(id: string, s: RealitySys, e: RealityEvent): Bytes {
    var st := s.Reading();
    match e
    case Poll(_, w) =>
      if w.addOk then BytesDelta(s.led.rec.total, RealityNext(id, s, e).led.rec.total) else ZERO
    case PollCrash(_, addOk) =>
      if addOk && s.led.rec.pid != -1 then BytesDelta(RealityBaseline(s.led, st), st.bytes) else ZERO
    case _ => ZERO
  }

  function RealityCreditsIn(id: string, s: RealitySys, es: seq<RealityEvent>, k: nat, from: int, to: int): Bytes
    requires k <= |es|
  {
    if k == 0 then ZERO
    else if (es[k - 1].Poll? || es[k - 1].PollCrash?) && from <= es[k - 1].hour < to then
      RealityCreditsIn(id, s, es, k - 1, from, to).Plus(RealityCredit(id, RealityAfter(id, s, es, k - 1), es[k - 1]))
    else RealityCreditsIn(id, s, es, k - 1, from, to)
  }

  lemma {:induction false} RealityCreditLands(id: string, p: RealitySys, e: RealityEvent, from: int, to: int)
    ensures RangeSum(RealityNext(id, p, e).led.log, id, from, to)
            == if (e.Poll? || e.PollCrash?) && from <= e.hour < to
               then RangeSum(p.led.log, id, from, to).Plus(RealityCredit(id, p, e))
               else RangeSum(p.led.log, id, from, to)
  {
    var st := p.Reading();
    if e.Poll? {
      var r := RealityRound(id, p.led, st, e.hour, e.writes);
      RealityStored(id, p.led, st, e.hour, e.writes);
      RangeAppend(p.led.log, Sample(id, e.hour, BytesDelta(p.led.rec.total, r.rec.total)), id, from, to);
    } else if e.PollCrash? {
      RangeAppend(p.led.log, Sample(id, e.hour, BytesDelta(RealityBaseline(p.led, st), st.bytes)), id, from, to);
    }
  }

  /** The same for REALITY nodes, resets included. */
  lemma {:induction false} PollsLandInTheirHours(id: string, s: RealitySys, es: seq<RealityEvent>, k: nat, from: int,
                                                 to: int)
    requires k <= |es|
    ensures RangeSum(RealityAfter(id, s, es, k).led.log, id, from, to)
            == RangeSum(s.led.log, id, from, to).Plus(RealityCreditsIn(id, s, es, k, from, to))
  {
    if k > 0 {
      PollsLandInTheirHours(id, s, es, k - 1, from, to);
      RealityCreditLands(id, RealityAfter(id, s, es, k - 1), es[k - 1], from, to);
    }
  }

  // ---------- where the code departs from this ----------

  /** A live process whose API read fails is reported with its pid and zero counters. The next complete round then
      adds the whole counter again, where it should have added only what was new. The two agree exactly when
      nothing had been counted before. */
  lemma {:induction false} FailedReadRecounts(id: string, l: Ledger, pid: int, cur: Bytes, h: int, w: Writes)
    requires pid > 0 && l.rec.pid == pid && l.Baseline().AtMost(cur)
    ensures var missed := RealityRound(id, l, Stats(pid, ZERO), h, w);
            var after := RealityRound(id, missed, Stats(pid, cur), h, w);
            var right := RealityRound(id, l, Stats(pid, cur), h, w);
            && after.rec.total == l.rec.total.Plus(cur)
            && (after.rec.total == right.rec.total <==> l.Baseline().IsZero())
  {
  }

  /** Editing a node copies the totals but not the engine counters. */
  function EditRec(rec: NodeRec): NodeRec {
    NodeRec(rec.total, ZERO, 0)
  }

  /** A running REALITY process is then counted from zero again; that is right exactly when it had counted
      nothing before the edit. */
  lemma {:induction false} EditRecounts(id: string, l: Ledger, pid: int, cur: Bytes, h: int, w: Writes)
    requires pid > 0 && l.rec.pid == pid && l.Baseline().AtMost(cur)
    ensures var after := RealityRound(id, l.(rec := EditRec(l.rec)), Stats(pid, cur), h, w);
            var right := RealityRound(id, l, Stats(pid, cur), h, w);
            && after.rec.total == l.rec.total.Plus(cur)
            && (after.rec.total == right.rec.total <==> l.Baseline().IsZero())
  {
  }

  /** A gost node's live baseline survives the edit, so while the panel runs nothing is counted twice once a first round
      has been sampled; after a panel restart before the next saving round the whole counter is added again. That is
      right exactly when nothing had been counted before the edit. */
  lemma {:induction false} GostEditRecounts(id: string, l: Ledger, cur: Bytes, h: int, w: Writes)
    requires l.Baseline().AtMost(cur)
    ensures var edited := l.(rec := EditRec(l.rec), saved := Some(EditRec(l.rec)));
            var right := GostRound(id, l, cur, h, w).rec.total;
            && (GostRound(id, edited, cur, h, w).rec.total == right <==> l.last.Some? || l.Baseline().IsZero())
            && GostRound(id, Reload(edited), cur, h, w).rec.total == l.rec.total.Plus(cur)
            && (GostRound(id, Reload(edited), cur, h, w).rec.total == right <==> l.Baseline().IsZero())
  {
  }

  /** The reset of a gost node sets the baseline to zero, and the gost round never looks at the sentinel: the first
      round after it re-adds the engine's whole counter. The totals then count only later bytes exactly when
      the engine's counters stood at zero at the reset. */
  lemma {:induction false} GostResetRecounts(id: string, names: seq<string>, s: GostSys, h: int, w: Writes,
                                             saveOk: bool)
    ensures var cur := SumOver(names, s.engine);
            var after := GostRound(id, ResetLedger(s.led, false, Stats(0, ZERO), saveOk), cur, h, w);
            && after.rec.total == cur
            && (Covered(after.rec.total, after.Baseline(), cur, ZERO) <==> cur.IsZero())
  {
    var cur, l := SumOver(names, s.engine), ResetLedger(s.led, false, Stats(0, ZERO), saveOk);
    DeltaFromZero(cur);
    assert l.Baseline() == ZERO && l.rec.total == ZERO;
    var after := GostRound(id, l, cur, h, w);
    assert after.rec == NodeRec(ZERO.Plus(BytesDelta(ZERO, cur)), cur, -1);
  }

  lemma {:induction false} DeltaFromZero(cur: Bytes)
    ensures BytesDelta(ZERO, cur) == cur && ZERO.Plus(cur) == cur
    ensures BytesDelta(cur, ZERO) == ZERO == BytesDelta(cur, cur)
  {
  }

  predicate Between(a: nat, b: nat, c: nat) {
    a <= b <= c || c <= b <= a
  }

  /** Two rounds in place of one give the same total exactly when the first reading lies between the baseline and the
      second reading, in each direction. */
  lemma {:induction false} TwoReadingsIff(id: string, l: Ledger, seen: Bytes, cur: Bytes, h: int, w: Writes)
    ensures var base := l.Baseline();
            GostRound(id, GostRound(id, l, seen, h, w), cur, h, w).rec.total == GostRound(id, l, cur, h, w).rec.total
            <==> && Between(base.inBytes, seen.inBytes, cur.inBytes)
                 && Between(base.outBytes, seen.outBytes, cur.outBytes)
  {
  }

  /** Rows of the same services in which some lack their status and no other counter is higher. */
  predicate Lacking(bare: seq<Row>, full: seq<Row>) {
    && |bare| == |full|
    && forall k :: 0 <= k < |bare| ==>
         bare[k].name == full[k].name && bare[k].stats.GetOr(ZERO).AtMost(full[k].stats.GetOr(ZERO))
  }

  ghost predicate Below(a: map<string, Bytes>, b: map<string, Bytes>) {
    a.Keys == b.Keys && forall n :: n in a ==> a[n].AtMost(b[n])
  }

  lemma {:induction false} LackingBelow(bare: seq<Row>, full: seq<Row>, k: nat)
    requires Lacking(bare, full) && k <= |bare|
    ensures Below(RowsByName(bare, k), RowsByName(full, k))
  {
    if k > 0 {
      LackingBelow(bare, full, k - 1);
    }
  }

  lemma {:induction false} SumBelow(names: seq<string>, a: map<string, Bytes>, b: map<string, Bytes>, k: nat)
    requires Below(a, b) && k <= |names|
    ensures SumFirst(names, a, k).AtMost(SumFirst(names, b, k))
  {
    if k > 0 {
      SumBelow(names, a, b, k - 1);
    }
  }

  /** A service row without status reads as zero. A round over a reading with such rows, of any number of services,
      followed by a round over a complete one is right exactly when the incomplete reading does not fall below what had
      been counted. */
  lemma {:induction false} MissingStatusIff(id: string, names: seq<string>, l: Ledger, bare: seq<Row>, full: seq<Row>,
                                            h: int, w: Writes)
    requires Lacking(bare, full) && l.Baseline().AtMost(SumOver(names, ByName(full)))
    ensures var seen, cur := SumOver(names, ByName(bare)), SumOver(names, ByName(full));
            GostRound(id, GostRound(id, l, seen, h, w), cur, h, w).rec.total == GostRound(id, l, cur, h, w).rec.total
            <==> l.Baseline().AtMost(seen)
  {
    LackingBelow(bare, full, |bare|);
    SumBelow(names, ByName(bare), ByName(full), |names|);
    TwoReadingsIff(id, l, SumOver(names, ByName(bare)), SumOver(names, ByName(full)), h, w);
  }

  /** For a node with one service the whole counter is added again; that is right exactly when the node had been counted
      from zero. */
  lemma {:induction false} MissingStatusRecounts(id: string, n: string, l: Ledger, cur: Bytes, bare: seq<Row>,
          full: seq<Row>, h: int, w: Writes)
    requires bare == [Row(n, None)] && full == [Row(n, Some(cur))] && l.Baseline().AtMost(cur)
    ensures var missed := GostRound(id, l, SumOver([n], ByName(bare)), h, w);
            var after := GostRound(id, missed, SumOver([n], ByName(full)), h, w);
            var right := GostRound(id, l, SumOver([n], ByName(full)), h, w);
            && after.rec.total == l.rec.total.Plus(cur)
            && (after.rec.total == right.rec.total <==> l.Baseline().IsZero())
  {
    OneRow(bare, n);
    OneRow(full, n);
    MissingStatusIff(id, [n], l, bare, full, h, w);
    ZeroRead(id, l, ZERO, cur, h, w);
  }

  lemma {:induction false} ZeroRead(id: string, l: Ledger, zero: Bytes, cur: Bytes, h: int, w: Writes)
    requires l.Baseline().AtMost(cur) && zero.IsZero()
    ensures GostRound(id, GostRound(id, l, zero, h, w), cur, h, w).rec.total == l.rec.total.Plus(cur)
  {
  }

  lemma {:induction false} OneRow(rows: seq<Row>, n: string)
    requires |rows| == 1 && rows[0].name == n
    ensures SumOver([n], ByName(rows)) == rows[0].stats.GetOr(ZERO)
  {
    var names, m := [n], ByName(rows);
    assert m == RowsByName(rows, 0)[n := rows[0].stats.GetOr(ZERO)];
    assert SumFirst(names, m, 1) == SumFirst(names, m, 0).Plus(m[n]);
  }
}

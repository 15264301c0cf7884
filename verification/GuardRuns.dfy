/** The login guard over runs of both its maps: failed and successful logins, overflows and periodic cleanups. */
module GuardRuns {
  import opened Wrappers
  import opened Guard

  datatype Tables = Tables(byIP: Table, byUser: Table)

  /** A login attempt that Blocked let through at `admitted` and that failed at `at`, one that succeeded, or a periodic
      cleanup. */
  datatype Happening =
    | Failed(ip: string, user: string, admitted: int, at: int)
    | Succeeded(ip: string, user: string)
    | Swept(at: int)

  ghost predicate Moves(s: Tables, h: Happening, t: Tables) {
    match h
    case Failed(ip, user, _, at) => FailedFrom(s.byIP, s.byUser, ip, user, at, t.byIP, t.byUser)
    case Succeeded(ip, user) => t == Tables(s.byIP - {ip}, s.byUser - {user})
    case Swept(at) => Cleaned(s.byIP, t.byIP, at) && Cleaned(s.byUser, t.byUser, at)
  }

  function Waiting(s: Tables, ip: string, user: string, now: int): int {
    Max(0, Max(Wait(Lookup(s.byIP, ip), now), Wait(Lookup(s.byUser, user), now)))
  }

  predicate Admitted(s: Tables, h: Happening, clock: int) {
    match h
    case Failed(ip, user, admitted, at) => clock <= admitted <= at && Waiting(s, ip, user, admitted) == 0
    case Succeeded(_, _) => true
    case Swept(at) => clock <= at
  }

  function Clock(h: Happening, clock: int): int {
    if h.Succeeded? then clock else h.at
  }

  /** The maps before the first happening, between any two, and after the last. */
  ghost predicate Run(ts: seq<Tables>, hs: seq<Happening>, clock: int)
    decreases |hs|
  {
    && |ts| == |hs| + 1
    && (hs != [] ==> && Admitted(ts[0], hs[0], clock) && Moves(ts[0], hs[0], ts[1])
                     && Run(ts[1..], hs[1..], Clock(hs[0], clock)))
  }

  // ---------- one key of one map ----------

  /** The map of addresses or of accounts, and the key an attempt counts for there. */
  function Side(s: Tables, users: bool): Table {
    if users then s.byUser else s.byIP
  }

  function KeyOf(h: Happening, users: bool): string
    requires !h.Swept?
  {
    if users then h.user else h.ip
  }

  /** The map after a failure's count, before any cleanup. */
  function Counted(s: Tables, h: Happening, users: bool): Table
    requires h.Failed?
  {
    Bump(Side(s, users), KeyOf(h, users), h.at)
  }

  predicate Overflows(s: Tables, h: Happening)
    requires h.Failed?
  {
    |Counted(s, h, false)| > MAX_ENTRIES || |Counted(s, h, true)| > MAX_ENTRIES
  }

  /** A cleanup of m to r takes key k for capacity, not because it is idle. */
  predicate Evicts(m: Table, r: Table, k: string, now: int) {
    k in m && k !in r && |Guard.Swept(m, now)| > MAX_ENTRIES
  }

  /** No success clears key k, and no cleanup takes it for capacity. */
  predicate Spares(s: Tables, h: Happening, t: Tables, users: bool, k: string) {
    match h
    case Failed(_, _, _, at) => Overflows(s, h) ==> !Evicts(Counted(s, h, users), Side(t, users), k, at)
    case Succeeded(_, _) => KeyOf(h, users) != k
    case Swept(at) => !Evicts(Side(s, users), Side(t, users), k, at)
  }

  predicate Spared(ts: seq<Tables>, hs: seq<Happening>, users: bool, k: string)
    requires |ts| == |hs| + 1
  {
    forall i :: 0 <= i < |hs| ==> Spares(ts[i], hs[i], ts[i + 1], users, k)
  }

  /** What a happening is for key k. */
  function ForKey(s: Tables, h: Happening, users: bool, k: string): seq<Event> {
    match h
    case Failed(_, _, admitted, at) =>
      (if KeyOf(h, users) == k then [Failure(admitted, at)] else []) + if Overflows(s, h) then [Sweep(at)] else []
    case Succeeded(_, _) => []
    case Swept(at) => [Sweep(at)]
  }

  function AllForKey(ts: seq<Tables>, hs: seq<Happening>, users: bool, k: string): seq<Event>
    requires |ts| == |hs| + 1
    decreases |hs|
  {
    if hs == [] then [] else ForKey(ts[0], hs[0], users, k) + AllForKey(ts[1..], hs[1..], users, k)
  }

  /** When the attempts that counted for key k failed. */
  function FailTimes(hs: seq<Happening>, users: bool, k: string): seq<int> {
    if hs == [] then []
    else (if hs[0].Failed? && KeyOf(hs[0], users) == k then [hs[0].at] else []) + FailTimes(hs[1..], users, k)
  }

  function Steps(e: Option<Entry>, evs: seq<Event>): Option<Entry>
    decreases |evs|
  {
    if evs == [] then e else Steps(Step(e, evs[0]), evs[1..])
  }

  lemma {:induction false} OneStep(e: Option<Entry>, a: Event)
    ensures Steps(e, [a]) == Step(e, a)
  {
    assert [a][1..] == [];
  }

  lemma {:induction false} TwoSteps(e: Option<Entry>, a: Event, b: Event)
    ensures Steps(e, [a, b]) == Step(Step(e, a), b)
  {
    assert [a, b][1..] == [b];
    OneStep(Step(e, a), b);
  }

  /** A failure moves each key's entry as its own events say. */
  lemma {:induction false} FailMoves(s: Tables, h: Happening, t: Tables, users: bool, k: string)
    requires h.Failed? && k != "" && Moves(s, h, t) && Spares(s, h, t, users, k)
    ensures Lookup(Side(t, users), k) == Steps(Lookup(Side(s, users), k), ForKey(s, h, users, k))
  {
    var e, m := Lookup(Side(s, users), k), Counted(s, h, users);
    var f, w := Failure(h.admitted, h.at), Sweep(h.at);
    FailIsStep(Side(s, users), KeyOf(h, users), k, h.admitted, h.at);
    OneStep(e, f);
    OneStep(e, w);
    TwoSteps(e, f, w);
    assert [f] + [w] == [f, w] && [f] + [] == [f] && [] + [w] == [w];
    if Overflows(s, h) {
      CleanupIsStep(m, Side(t, users), k, h.at);
    }
  }

  lemma {:induction false} HappeningMoves(s: Tables, h: Happening, t: Tables, users: bool, k: string)
    requires k != "" && Moves(s, h, t) && Spares(s, h, t, users, k)
    ensures Lookup(Side(t, users), k) == Steps(Lookup(Side(s, users), k), ForKey(s, h, users, k))
  {
    match h
    case Failed(_, _, _, _) =>
      FailMoves(s, h, t, users, k);
    case Swept(at) =>
      OneStep(Lookup(Side(s, users), k), Sweep(at));
      CleanupIsStep(Side(s, users), Side(t, users), k, at);
    case Succeeded(_, _) =>
  }

  lemma {:induction false} LegalJoin(e: Option<Entry>, clock: int, now: int, a: seq<Event>, b: seq<Event>)
    requires |a| <= 2 && Legal(e, clock, a) && (forall i :: 0 <= i < |a| ==> a[i].at == now) && clock <= now
    requires Legal(Steps(e, a), now, b)
    ensures Legal(e, clock, a + b)
    decreases |a|
  {
    if a == [] {
      assert a + b == b;
      LegalEarlier(e, clock, now, b);
    } else {
      assert (a + b)[1..] == a[1..] + b && (a + b)[0] == a[0];
      LegalJoin(Step(e, a[0]), now, now, a[1..], b);
    }
  }

  lemma {:induction false} LegalEarlier(e: Option<Entry>, clock: int, now: int, evs: seq<Event>)
    requires clock <= now && Legal(e, now, evs)
    ensures Legal(e, clock, evs)
  {
  }

  lemma {:induction false} MarksJoin(e: Option<Entry>, a: seq<Event>, b: seq<Event>)
    ensures Marks(e, a + b) == Marks(e, a) + Marks(Steps(e, a), b)
    decreases |a|
  {
    if a == [] {
      assert a + b == b;
    } else {
      assert (a + b)[1..] == a[1..] + b && (a + b)[0] == a[0];
      MarksJoin(Step(e, a[0]), a[1..], b);
    }
  }

  function Times(ms: seq<Mark>): (r: seq<int>)
    ensures |r| == |ms| && forall i :: 0 <= i < |ms| ==> r[i] == ms[i].at
  {
    seq(|ms|, i requires 0 <= i < |ms| => ms[i].at)
  }

  lemma {:induction false} MarksOf(e: Option<Entry>, f: Event, w: Event)
    requires f.Failure? && w.Sweep?
    ensures Times(Marks(e, [f])) == [f.at] == Times(Marks(e, [f, w])) && Times(Marks(e, [w])) == []
  {
    MarksJoin(e, [f], [w]);
    assert [f] + [w] == [f, w];
    assert [w][1..] == [] && [f][1..] == [];
    OneStep(e, f);
  }

  lemma {:induction false} ForKeyLegal(s: Tables, h: Happening, clock: int, users: bool, k: string)
    requires Admitted(s, h, clock)
    ensures var e, evs := Lookup(Side(s, users), k), ForKey(s, h, users, k);
            && |evs| <= 2 && Legal(e, clock, evs) && clock <= Clock(h, clock)
            && (forall i :: 0 <= i < |evs| ==> evs[i].at == Clock(h, clock))
            && Times(Marks(e, evs)) == if h.Failed? && KeyOf(h, users) == k then [h.at] else []
  {
    var e := Lookup(Side(s, users), k);
    if h.Failed? {
      var f, w := Failure(h.admitted, h.at), Sweep(h.at);
      assert [f] + [w] == [f, w] && [f] + [] == [f] && [] + [w] == [w];
      assert [f, w][1..] == [w] && [w][1..] == [] && [f][1..] == [];
      MarksOf(e, f, w);
    } else if h.Swept? {
      assert [Sweep(h.at)][1..] == [];
    }
  }

  lemma {:induction false} JoinRuns(e: Option<Entry>, clock: int, now: int, a: seq<Event>, b: seq<Event>,
                                    x: seq<int>, y: seq<int>)
    requires |a| <= 2 && Legal(e, clock, a) && (forall i :: 0 <= i < |a| ==> a[i].at == now) && clock <= now
    requires Legal(Steps(e, a), now, b) && Times(Marks(e, a)) == x && Times(Marks(Steps(e, a), b)) == y
    ensures Legal(e, clock, a + b) && Times(Marks(e, a + b)) == x + y
  {
    LegalJoin(e, clock, now, a, b);
    MarksJoin(e, a, b);
  }

  lemma {:induction false} SparedTail(ts: seq<Tables>, hs: seq<Happening>, users: bool, k: string)
    requires |ts| == |hs| + 1 && hs != [] && Spared(ts, hs, users, k)
    ensures Spares(ts[0], hs[0], ts[1], users, k) && Spared(ts[1..], hs[1..], users, k)
  {
    forall i | 0 <= i < |hs| - 1
      ensures Spares(ts[1..][i], hs[1..][i], ts[1..][i + 1], users, k)
    {
      assert Spares(ts[i + 1], hs[i + 1], ts[i + 2], users, k);
    }
  }

  /** A run of the guard is, for each key that is spared, a legal run of the key's entry, with the same failures. */
  lemma {:induction false} RunForKey(ts: seq<Tables>, hs: seq<Happening>, clock: int, users: bool, k: string)
    requires k != "" && Run(ts, hs, clock) && Spared(ts, hs, users, k)
    ensures var e, evs := Lookup(Side(ts[0], users), k), AllForKey(ts, hs, users, k);
            Legal(e, clock, evs) && Times(Marks(e, evs)) == FailTimes(hs, users, k)
    decreases |hs|
  {
    if hs != [] {
      SparedTail(ts, hs, users, k);
      RunForKey(ts[1..], hs[1..], Clock(hs[0], clock), users, k);
      HappeningMoves(ts[0], hs[0], ts[1], users, k);
      ForKeyLegal(ts[0], hs[0], clock, users, k);
      JoinRuns(Lookup(Side(ts[0], users), k), clock, Clock(hs[0], clock), ForKey(ts[0], hs[0], users, k),
          AllForKey(ts[1..], hs[1..], users, k), if hs[0].Failed? && KeyOf(hs[0], users) == k then [hs[0].at] else [],
          FailTimes(hs[1..], users, k));
    }
  }

  /** The rate bound on the guard itself: in any run of its two maps, for an address or an account that is unknown at
      first, while no login of it succeeds and it is not evicted for capacity, six failed attempts in a row span at
      least a minute, whatever other addresses and accounts do. */
  lemma {:induction false} SixAttemptsSpanAMinute(ts: seq<Tables>, hs: seq<Happening>, clock: int, users: bool,
                                                  k: string, i: nat)
    requires k != "" && Run(ts, hs, clock) && Spared(ts, hs, users, k) && k !in Side(ts[0], users)
    requires i + 5 < |FailTimes(hs, users, k)|
    ensures FailTimes(hs, users, k)[i + 5] - FailTimes(hs, users, k)[i] >= MINUTE
  {
    RunForKey(ts, hs, clock, users, k);
    SixFailuresSpanAMinute(clock, AllForKey(ts, hs, users, k), i);
  }
}

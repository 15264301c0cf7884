/** The login guard of internal/server/security.go: failures per address and per account, a growing cool-down, and
    bounded maps. Times are integers in nanoseconds; the zero time of `until` is None. */
module Guard {
  import opened Wrappers

  const MINUTE := 60_000_000_000
  const HOUR := 60 * MINUTE
  const FREE_ATTEMPTS := 5
  const MAX_ENTRIES := 8192

  datatype Entry = Entry(fails: nat, until: Option<int>, seen: int)

  type Table = map<string, Entry>

  function Cooldown(fails: nat): int {
    if fails >= 20 then 30 * MINUTE
    else if fails >= 10 then 5 * MINUTE
    else if fails >= FREE_ATTEMPTS then MINUTE
    else 0
  }

  /** now.After(until); the zero time lies before every clock reading. */
  predicate After(now: int, until: Option<int>) {
    until.None? || now > until.value
  }

  /** How long an entry still blocks. */
  function Wait(e: Option<Entry>, now: int): int {
    if e.None? || e.value.until.None? then 0 else e.value.until.value - now
  }

  /** A failure: past a cool-down the count starts again. */
  function Bumped(e: Option<Entry>, now: int): Entry {
    var was := e.GetOr(Entry(0, None, now));
    var past := was.until.Some? && now > was.until.value;
    var fails := (if past then 0 else was.fails) + 1;
    Entry(fails, if Cooldown(fails) > 0 then Some(now + Cooldown(fails)) else if past then None else was.until, now)
  }

  function Bump(m: Table, key: string, now: int): Table {
    if key == "" then m else m[key := Bumped(Lookup(m, key), now)]
  }

  /** Past its cool-down and not seen for over an hour. */
  predicate Idle(e: Entry, now: int) {
    After(now, e.until) && now - e.seen > HOUR
  }

  function Swept(m: Table, now: int): (r: Table)
    ensures r.Keys <= m.Keys
  {
    map k | k in m && !Idle(m[k], now) :: m[k]
  }

  /** What a cleanup may leave: the idle entries go, and over capacity only entries no more recently seen than every
      survivor. */
  ghost predicate Cleaned(m: Table, r: Table, now: int) {
    var p := Swept(m, now);
    && r.Keys <= p.Keys && (forall k :: k in r ==> r[k] == m[k])
    && |r| == (if |p| <= MAX_ENTRIES then |p| else MAX_ENTRIES)
    && forall gone, kept :: gone in p && gone !in r && kept in r ==> p[gone].seen <= p[kept].seen
  }

  /** What a failed attempt does to both maps: the counts move, and over capacity both are cleaned. */
  ghost predicate FailedFrom(byIP: Table, byUser: Table, ip: string, user: string, now: int, byIP2: Table,
                             byUser2: Table) {
    var p, q := Bump(byIP, ip, now), Bump(byUser, user, now);
    if |p| > MAX_ENTRIES || |q| > MAX_ENTRIES then Cleaned(p, byIP2, now) && Cleaned(q, byUser2, now)
    else byIP2 == p && byUser2 == q
  }

  // ---------- the guard ----------

  class LoginGuard {
    var byIP: Table
    var byUser: Table

    constructor ()
      ensures byIP == map[] && byUser == map[]
    {
      byIP, byUser := map[], map[];
    }

    /** How long the caller must wait: the longer of the two, and never negative. */
    method Blocked(ip: string, user: string, now: int) returns (wait: int)
      ensures wait == Max(0, Max(Wait(Lookup(byIP, ip), now), Wait(Lookup(byUser, user), now)))
    {
      wait := 0;
      var entries := [Lookup(byIP, ip), Lookup(byUser, user)];
      for i := 0 to 2
        invariant wait == if i == 0 then 0
                          else if i == 1 then Max(0, Wait(Lookup(byIP, ip), now))
                          else Max(0, Max(Wait(Lookup(byIP, ip), now), Wait(Lookup(byUser, user), now)))
      {
        var e := entries[i];
        if e.None? || e.value.until.None? {
          continue;
        }
        var d := e.value.until.value - now;
        if d > wait {
          wait := d;
        }
      }
    }

    /** A failed attempt. Afterwards neither map holds more than 8192 entries. */
    method Fail(ip: string, user: string, now: int)
      modifies this
      ensures |byIP| <= 8192 && |byUser| <= 8192
      ensures FailedFrom(old(byIP), old(byUser), ip, user, now, byIP, byUser)
    {
      byIP := BumpEntry(byIP, ip, now);
      if user != "" {
        byUser := BumpEntry(byUser, user, now);
      }
      if |byIP| > MAX_ENTRIES || |byUser| > MAX_ENTRIES {
        CleanupLocked(now);
      }
    }

    method Success(ip: string, user: string)
      modifies this
      ensures byIP == old(byIP) - {ip} && byUser == old(byUser) - {user}
    {
      byIP, byUser := byIP - {ip}, byUser - {user};
    }

    method CleanupLocked(now: int)
      modifies this
      ensures Cleaned(old(byIP), byIP, now) && Cleaned(old(byUser), byUser, now)
    {
      byIP := CleanTable(byIP, now);
      byUser := CleanTable(byUser, now);
    }
  }

  method BumpEntry(m: Table, key: string, now: int) returns (r: Table)
    ensures r == Bump(m, key, now)
  {
    if key == "" {
      return m;
    }
    var e := if key in m then m[key] else Entry(0, None, now);
    if e.until.Some? && now > e.until.value {
      e := e.(fails := 0, until := None);
    }
    e := e.(fails := e.fails + 1, seen := now);
    var d := Cooldown(e.fails);
    if d > 0 {
      e := e.(until := Some(now + d));
    }
    r := m[key := e];
  }

  /** Both passes over one map. */
  method CleanTable(m: Table, now: int) returns (r: Table)
    ensures Cleaned(m, r, now)
  {
    r := m;
    var todo := m.Keys;
    while todo != {}
      invariant todo <= m.Keys
      invariant r == map k | k in m && (k in todo || !Idle(m[k], now)) :: m[k]
      decreases todo
    {
      var k :| k in todo;
      todo := todo - {k};
      if After(now, r[k].until) && now - r[k].seen > HOUR {
        r := r - {k};
      }
    }
    assert r == Swept(m, now);
    if |r| <= MAX_ENTRIES {
      return;
    }
    r := Evict(r);
  }

  /** The keys of a map, least recently seen first. */
  ghost predicate BySeen(m: Table, keys: seq<string>) {
    && (forall i :: 0 <= i < |keys| ==> keys[i] in m)
    && (forall i, j :: 0 <= i < j < |keys| ==> keys[i] != keys[j] && m[keys[i]].seen <= m[keys[j]].seen)
    && |keys| == |m|
  }

  /** What sort.Slice leaves, by repeatedly taking the least recently seen key that is left. */
  method SortBySeen(m: Table) returns (keys: seq<string>)
    ensures BySeen(m, keys)
  {
    keys := [];
    var left := m.Keys;
    while left != {}
      invariant left <= m.Keys && |keys| + |left| == |m|
      invariant forall i :: 0 <= i < |keys| ==> keys[i] in m && keys[i] !in left
      invariant forall i, j :: 0 <= i < j < |keys| ==> keys[i] != keys[j] && m[keys[i]].seen <= m[keys[j]].seen
      invariant forall i, k :: 0 <= i < |keys| && k in left ==> m[keys[i]].seen <= m[k].seen
      decreases left
    {
      var k := Oldest(m, left);
      left := left - {k};
      keys := keys + [k];
    }
  }

  method Oldest(m: Table, left: set<string>) returns (k: string)
    requires left != {} && left <= m.Keys
    ensures k in left && forall x :: x in left ==> m[k].seen <= m[x].seen
  {
    k :| k in left;
    var todo := left - {k};
    while todo != {}
      invariant todo <= left && k in left
      invariant forall x :: x in left - todo ==> m[k].seen <= m[x].seen
      decreases todo
    {
      var x :| x in todo;
      todo := todo - {x};
      if m[x].seen < m[k].seen {
        k := x;
      }
    }
  }

  method Evict(m: Table) returns (r: Table)
    requires |m| > MAX_ENTRIES
    ensures r.Keys <= m.Keys && |r| == MAX_ENTRIES && forall k :: k in r ==> r[k] == m[k]
    ensures forall gone, kept :: gone in m && gone !in r && kept in r ==> m[gone].seen <= m[kept].seen
  {
    var keys := SortBySeen(m);
    r := m;
    for i := 0 to |keys| - MAX_ENTRIES
      invariant r.Keys <= m.Keys && |r| == |m| - i && forall k :: k in r ==> r[k] == m[k]
      invariant forall k :: k in m ==> (k in r <==> k !in keys[..i])
    {
      assert keys[i] !in keys[..i];
      assert keys[..i + 1] == keys[..i] + [keys[i]];
      assert r.Keys - {keys[i]} == (r - {keys[i]}).Keys;
      r := r - {keys[i]};
    }
    forall gone, kept | gone in m && gone !in r && kept in r
      ensures m[gone].seen <= m[kept].seen
    {
      Covers(m, keys, kept);
    }
  }

  /** Keys without repetition, as many as the map has, are all of them. */
  lemma {:induction false} Covers(m: Table, keys: seq<string>, k: string)
    requires BySeen(m, keys) && k in m
    ensures k in keys
  {
    var s := set i | 0 <= i < |keys| :: keys[i];
    SizeOf(keys, |keys|);
    assert s == set i | 0 <= i < |keys| :: keys[i];
    if k !in keys {
      assert s <= m.Keys - {k};
      SubsetSize(s, m.Keys - {k});
    }
  }

  lemma {:induction false} SizeOf(keys: seq<string>, n: nat)
    requires n <= |keys| && forall i, j :: 0 <= i < j < |keys| ==> keys[i] != keys[j]
    ensures |set i | 0 <= i < n :: keys[i]| == n
  {
    var s := set i | 0 <= i < n :: keys[i];
    if n > 0 {
      var t := set i | 0 <= i < n - 1 :: keys[i];
      SizeOf(keys, n - 1);
      assert s == t + {keys[n - 1]};
      assert keys[n - 1] !in t;
    } else {
      assert s == {};
    }
  }

  lemma {:induction false} SubsetSize(a: set<string>, b: set<string>)
    requires a <= b
    ensures |a| <= |b|
  {
    assert a + (b - a) == b;
  }

  // ---------- the rate bound ----------

  /** What happens to one key while it is neither cleared by a success nor evicted for capacity: a failure at `at` that
      Blocked let through at `admitted`, or a cleanup pass. */
  datatype Event = Failure(admitted: int, at: int) | Sweep(at: int)

  function Step(e: Option<Entry>, ev: Event): Option<Entry> {
    match ev
    case Failure(_, at) => Some(Bumped(e, at))
    case Sweep(at) => if e.Some? && Idle(e.value, at) then None else e
  }

  /** Fail moves a key's entry by one such step. */
  lemma {:induction false} FailIsStep(m: Table, key: string, other: string, admitted: int, now: int)
    ensures Lookup(Bump(m, key, now), other)
         == if key == "" || other != key then Lookup(m, other) else Step(Lookup(m, key), Failure(admitted, now))
  {
  }

  /** So does a cleanup, unless it takes the key for capacity. */
  lemma {:induction false} CleanupIsStep(m: Table, r: Table, key: string, now: int)
    requires Cleaned(m, r, now)
    ensures || Lookup(r, key) == Step(Lookup(m, key), Sweep(now))
            || (key in m && key !in r && |Swept(m, now)| > 8192)
  {
    var p := Swept(m, now);
    if |p| <= MAX_ENTRIES && key in p.Keys && key !in r.Keys {
      SubsetSize(r.Keys, p.Keys - {key});
    }
  }

  /** A cleanup never forgets a key that is in its cool-down, or was seen within the hour, unless it takes the key for
      capacity. */
  lemma {:induction false} CoolingStays(m: Table, r: Table, key: string, now: int)
    requires Cleaned(m, r, now) && key in m
    requires (m[key].until.Some? && now <= m[key].until.value) || now - m[key].seen <= 3_600_000_000_000
    ensures Lookup(r, key) == Some(m[key]) || |Swept(m, now)| > 8192
  {
    CleanupIsStep(m, r, key, now);
  }

  /** It forgets every other key. */
  lemma {:induction false} StaleGoes(m: Table, r: Table, key: string, now: int)
    requires Cleaned(m, r, now) && key in m
    requires (m[key].until.Some? ==> now > m[key].until.value) && now - m[key].seen > 3_600_000_000_000
    ensures key !in r
  {
    assert key !in Swept(m, now).Keys;
  }

  /** Time does not run backwards, and failures come after admission. */
  predicate Legal(e: Option<Entry>, clock: int, evs: seq<Event>)
    decreases |evs|
  {
    evs == []
    || (match evs[0]
        case Failure(admitted, at) => clock <= admitted <= at && Wait(e, admitted) <= 0
            && Legal(Step(e, evs[0]), at, evs[1..])
        case Sweep(at) => clock <= at && Legal(Step(e, evs[0]), at, evs[1..]))
  }

  /** A failure as the run records it: when, and the count it left. */
  datatype Mark = Mark(at: int, fails: nat)

  function Marks(e: Option<Entry>, evs: seq<Event>): seq<Mark>
    decreases |evs|
  {
    if evs == [] then []
    else
      var next := Step(e, evs[0]);
      (if evs[0].Failure? then [Mark(evs[0].at, next.value.fails)] else []) + Marks(next, evs[1..])
  }

  /** In nanoseconds: nothing for the first four failures, then a minute, from the tenth on five, from the twentieth
      thirty. */
  function Due(fails: nat): nat {
    if fails < 5 then 0
    else if fails < 10 then 60_000_000_000
    else if fails < 20 then 300_000_000_000
    else 1_800_000_000_000
  }

  /** Two failures in a row: the count goes on, after a cool-down only at the very instant it ends; or it starts again,
      later than that, or more than an hour on. */
  predicate Linked(a: Mark, b: Mark) {
    if b.fails == a.fails + 1 then a.at <= b.at && (a.fails >= 5 ==> b.at == a.at + Due(a.fails))
    else b.fails == 1 && b.at - a.at > if a.fails >= 5 then Due(a.fails) else 3_600_000_000_000
  }

  predicate Chained(ms: seq<Mark>) {
    forall i :: 0 <= i && i + 1 < |ms| ==> Linked(ms[i], ms[i + 1])
  }

  /** What the entry says about the last failure. */
  predicate Remembers(e: Option<Entry>, last: Mark, clock: int) {
    last.at <= clock
    && match e
       case None => clock - last.at > HOUR
       case Some(x) => x.fails == last.fails && x.seen == last.at
                       && x.until == if Cooldown(last.fails) > 0 then Some(last.at + Cooldown(last.fails)) else None
  }

  lemma {:induction false} BumpLinks(e: Option<Entry>, last: Mark, clock: int, admitted: int, at: int)
    requires Remembers(e, last, clock) && clock <= admitted <= at && Wait(e, admitted) <= 0
    ensures var m := Mark(at, Bumped(e, at).fails); Linked(last, m) && Remembers(Some(Bumped(e, at)), m, at)
  {
  }

  lemma {:induction false} ChainCons(a: Mark, ms: seq<Mark>)
    requires Chained(ms) && (ms != [] ==> Linked(a, ms[0]))
    ensures Chained([a] + ms)
  {
    var all := [a] + ms;
    forall i | 0 <= i && i + 1 < |all|
      ensures Linked(all[i], all[i + 1])
    {
      assert i > 0 ==> all[i] == ms[i - 1];
    }
  }

  lemma {:induction false} RunChained(e: Option<Entry>, last: Mark, clock: int, evs: seq<Event>)
    requires Remembers(e, last, clock) && Legal(e, clock, evs)
    ensures Chained([last] + Marks(e, evs))
    decreases |evs|
  {
    if evs == [] {
    } else {
      var next, rest := Step(e, evs[0]), evs[1..];
      if evs[0].Failure? {
        var m := Mark(evs[0].at, next.value.fails);
        BumpLinks(e, last, clock, evs[0].admitted, evs[0].at);
        RunChained(next, m, evs[0].at, rest);
        ChainCons(last, [m] + Marks(next, rest));
      } else {
        RunChained(next, last, evs[0].at, rest);
        assert Marks(e, evs) == Marks(next, rest);
      }
    }
  }

  /** The ladder of cool-downs: in every run of a key each failure follows the one before as `Linked` says. */
  lemma {:induction false} CountsClimb(clock: int, evs: seq<Event>)
    requires Legal(None, clock, evs)
    ensures Chained(Marks(None, evs))
    decreases |evs|
  {
    if evs != [] {
      var e: Option<Entry> := None;
      var next, rest := Step(e, evs[0]), evs[1..];
      if evs[0].Failure? {
        RunChained(next, Mark(evs[0].at, next.value.fails), evs[0].at, rest);
      } else {
        CountsClimb(evs[0].at, rest);
        assert Marks(e, evs) == Marks(next, rest);
      }
    }
  }

  /** A failure's count is at least one. */
  lemma {:induction false} MarksCount(e: Option<Entry>, evs: seq<Event>)
    ensures forall m :: m in Marks(e, evs) ==> m.fails >= 1
    decreases |evs|
  {
    if evs != [] {
      MarksCount(Step(e, evs[0]), evs[1..]);
    }
  }

  /** The first failure of an unknown key counts one. */
  lemma {:induction false} FirstMark(clock: int, evs: seq<Event>)
    requires Legal(None, clock, evs) && Marks(None, evs) != []
    ensures Marks(None, evs)[0].fails == 1
    decreases |evs|
  {
    var e: Option<Entry> := None;
    var next, rest := Step(e, evs[0]), evs[1..];
    if !evs[0].Failure? {
      FirstMark(evs[0].at, rest);
      assert Marks(e, evs) == Marks(next, rest);
    }
  }

  /** A failure at the very instant at which the cool-down of the one before ends. */
  predicate OnTheDot(a: Mark, b: Mark) {
    a.fails >= 5 && b.at == a.at + Due(a.fails)
  }

  lemma {:induction false} UpToFive(ms: seq<Mark>, k: nat)
    requires Chained(ms) && k < |ms| && 1 <= ms[0].fails <= 5
    requires forall i :: 0 <= i < k ==> !OnTheDot(ms[i], ms[i + 1])
    ensures 1 <= ms[k].fails <= 5
  {
    if k > 0 {
      UpToFive(ms, k - 1);
      assert Linked(ms[k - 1], ms[k]);
    }
  }

  /** The longer cool-downs are out of reach of failures that follow one another: a count goes past five if and only if
      some failure falls on the very instant at which a cool-down ends. */
  lemma {:induction false} LadderIff(clock: int, evs: seq<Event>)
    requires Legal(None, clock, evs)
    ensures var ms := Marks(None, evs);
            (exists m :: m in ms && m.fails > 5) <==> exists i :: 0 <= i && i + 1 < |ms| && OnTheDot(ms[i], ms[i + 1])
  {
    var ms := Marks(None, evs);
    CountsClimb(clock, evs);
    if i :| 0 <= i && i + 1 < |ms| && OnTheDot(ms[i], ms[i + 1]) {
      assert Linked(ms[i], ms[i + 1]);
      assert ms[i + 1] in ms && ms[i + 1].fails > 5;
    } else {
      forall k | 0 <= k < |ms|
        ensures ms[k].fails <= 5
      {
        FirstMark(clock, evs);
        UpToFive(ms, k);
      }
    }
  }

  /** The rate bound: in any run of admitted failures and cleanups of a key, with no success and no capacity eviction of
      it, six failures in a row span at least a minute. */
  lemma {:induction false} SixFailuresSpanAMinute(clock: int, evs: seq<Event>, i: nat)
    requires Legal(None, clock, evs) && i + 5 < |Marks(None, evs)|
    ensures Marks(None, evs)[i + 5].at - Marks(None, evs)[i].at >= MINUTE
  {
    var ms := Marks(None, evs);
    CountsClimb(clock, evs);
    MarksCount(None, evs);
    assert ms[i] in ms;
    assert Linked(ms[i], ms[i + 1]) && Linked(ms[i + 1], ms[i + 2]) && Linked(ms[i + 2], ms[i + 3]);
    assert Linked(ms[i + 3], ms[i + 4]) && Linked(ms[i + 4], ms[i + 5]);
  }
}

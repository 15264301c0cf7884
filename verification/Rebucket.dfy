/** The statistics view (internal/server/handlers_nodes.go, handleNodeStats): hourly points merged into larger steps,
    the steps sorted in place as internal/store/store.go sorts nodes. */
module Rebucket {
  import opened Traffic
  import opened Store

  // ---------- the in-place sort ----------

  ghost predicate SortedBy<T(!new)>(s: seq<T>, key: T -> int) {
    forall i, j :: 0 <= i < j < |s| ==> key(s[i]) <= key(s[j])
  }

  /** Sorted but for the element at j, which may be too small for its place. */
  ghost predicate SortedBut<T(!new)>(s: seq<T>, key: T -> int, n: nat, j: nat) {
    forall a, b :: 0 <= a < b <= n && b < |s| && b != j ==> key(s[a]) <= key(s[b])
  }

  function Swapped<T>(s: seq<T>, j: nat): seq<T>
    requires 0 < j < |s|
  {
    s[j := s[j - 1]][j - 1 := s[j]]
  }

  lemma {:induction false} SwapSameElements<T>(s: seq<T>, j: nat)
    requires 0 < j < |s|
    ensures multiset(Swapped(s, j)) == multiset(s)
  {
  }

  lemma {:induction false} SwapSinks<T(!new)>(s: seq<T>, key: T -> int, n: nat, j: nat)
    requires 0 < j <= n < |s| && SortedBut(s, key, n, j) && key(s[j]) < key(s[j - 1])
    ensures SortedBut(Swapped(s, j), key, n, j - 1)
  {
    var t := Swapped(s, j);
    forall a, b | 0 <= a < b <= n && b != j - 1
      ensures key(t[a]) <= key(t[b])
    {
      if b == j {
        assert a < j - 1 ==> key(s[a]) <= key(s[j - 1]);
      } else if b > j {
        assert key(s[j - 1]) <= key(s[b]) && key(s[j]) <= key(s[b]) && key(s[a]) <= key(s[b]);
      }
    }
  }

  method SinkLast<T(!new)>(a: array<T>, key: T -> int, i: nat)
    requires i < a.Length && SortedBy(a[..i], key)
    modifies a
    ensures SortedBy(a[..i + 1], key) && multiset(a[..]) == multiset(old(a[..]))
  {
    var j := i;
    assert SortedBut(a[..], key, i, i) by {
      assert forall x :: 0 <= x < i ==> a[..][x] == a[..i][x];
    }
    while j > 0 && key(a[j]) < key(a[j - 1])
      invariant 0 <= j <= i && multiset(a[..]) == multiset(old(a[..])) && SortedBut(a[..], key, i, j)
    {
      ghost var s := a[..];
      SwapSameElements(s, j);
      SwapSinks(s, key, i, j);
      a[j], a[j - 1] := a[j - 1], a[j];
      assert a[..] == Swapped(s, j);
      j := j - 1;
    }
    Settled(a[..], key, i, j);
    assert a[..i + 1] == a[..][..i + 1];
  }

  lemma {:induction false} Settled<T(!new)>(s: seq<T>, key: T -> int, n: nat, j: nat)
    requires j <= n < |s| && SortedBut(s, key, n, j) && (j > 0 ==> key(s[j - 1]) <= key(s[j]))
    ensures SortedBy(s[..n + 1], key)
  {
    var t := s[..n + 1];
    forall a, b | 0 <= a < b < |t|
      ensures key(t[a]) <= key(t[b])
    {
      if b == j {
        assert a < j - 1 ==> key(s[a]) <= key(s[j - 1]);
      } else {
        assert key(s[a]) <= key(s[b]);
      }
    }
  }

  /** The insertion sort of both files. */
  method InsertionSort<T(!new)>(a: array<T>, key: T -> int)
    modifies a
    ensures SortedBy(a[..], key) && multiset(a[..]) == multiset(old(a[..]))
  {
    var i := 1;
    while i < a.Length
      invariant 1 <= i && SortedBy(a[..if i <= a.Length then i else a.Length], key)
      invariant multiset(a[..]) == multiset(old(a[..]))
    {
      SinkLast(a, key, i);
      i := i + 1;
    }
    assert a[..] == a[..if i <= a.Length then i else a.Length];
  }

  // ---------- steps ----------

  /** ts - ts % step, with Go's remainder. */
  function StepOf(ts: int, step: int): int
    requires step > 0
  {
    if ts >= 0 then ts - ts % step else ts + (-ts) % step
  }

  /** A step starts at a multiple of its length; from 1970 on a point lies in its step, less than a step's length after
      the start. (Before 1970 the truncating remainder makes it the step's end.) */
  lemma {:induction false} StepHolds(ts: int, step: int)
    requires step > 0
    ensures ts >= 0 ==> StepOf(ts, step) == ts / step * step && 0 <= StepOf(ts, step) <= ts < StepOf(ts, step) + step
    ensures ts < 0 ==> StepOf(ts, step) == -(-ts / step * step) && StepOf(ts, step) - step < ts <= StepOf(ts, step) <= 0
  {
    Remainder(ts, step);
    Remainder(-ts, step);
  }

  lemma {:induction false} Remainder(x: int, step: int)
    requires step > 0
    ensures x == x / step * step + x % step && 0 <= x % step < step
    ensures x >= 0 ==> x % step <= x
  {
    if x >= 0 {
      assert x / step * step >= 0;
    }
  }

  /** The bytes of the first k points that fall into the step starting at `start`. */
  function StepSum(pts: seq<Point>, step: int, start: int, k: nat): Bytes
    requires step > 0 && k <= |pts|
  {
    if k == 0 then ZERO
    else if StepOf(pts[k - 1].ts, step) == start then StepSum(pts, step, start, k - 1).Plus(pts[k - 1].bytes)
    else StepSum(pts, step, start, k - 1)
  }

  lemma {:induction false} AtLeast(a: int, step: int)
    requires a >= 1 && step > 0
    ensures a * step >= step
    decreases a
  {
    if a > 1 {
      AtLeast(a - 1, step);
      Distribute(a, 1, step);
    }
  }

  lemma {:induction false} Distribute(a: int, b: int, step: int)
    ensures (a - b) * step == a * step - b * step
  {
  }

  lemma {:induction false} SameMultiple(p: int, q: int, step: int)
    requires step > 0 && p * step - step < q * step < p * step + step
    ensures p == q
  {
    Distribute(p, q, step);
    Distribute(q, p, step);
    if p < q {
      AtLeast(q - p, step);
    } else if q < p {
      AtLeast(p - q, step);
    }
  }

  /** From 1970 on, two points fall into one step exactly when one lies in the step's length after the other's start. */
  lemma {:induction false} InStepIff(ts: int, other: int, step: int)
    requires step > 0 && ts >= 0 && other >= 0
    ensures var start := StepOf(other, step); StepOf(ts, step) == start <==> start <= ts < start + step
  {
    StepHolds(ts, step);
    StepHolds(other, step);
    if StepOf(other, step) <= ts < StepOf(other, step) + step {
      SameMultiple(ts / step, other / step, step);
    }
  }

  /** The bytes of the first k points in [from, to). */
  function SpanSum(pts: seq<Point>, from: int, to: int, k: nat): Bytes
    requires k <= |pts|
  {
    if k == 0 then ZERO
    else if from <= pts[k - 1].ts < to then SpanSum(pts, from, to, k - 1).Plus(pts[k - 1].bytes)
    else SpanSum(pts, from, to, k - 1)
  }

  /** From 1970 on, what a point's step holds is what lies in the step's length after its start. */
  lemma {:induction false} StepIsSpan(pts: seq<Point>, step: int, other: int, k: nat)
    requires step > 0 && other >= 0 && k <= |pts| && forall i :: 0 <= i < k ==> pts[i].ts >= 0
    ensures var start := StepOf(other, step); StepSum(pts, step, start, k) == SpanSum(pts, start, start + step, k)
  {
    if k > 0 {
      StepIsSpan(pts, step, other, k - 1);
      InStepIff(pts[k - 1].ts, other, step);
    }
  }

  /** The starts of the steps that the first k points fall into. */
  function StartSet(pts: seq<Point>, step: int, k: nat): set<int>
    requires step > 0 && k <= |pts|
  {
    if k == 0 then {} else StartSet(pts, step, k - 1) + {StepOf(pts[k - 1].ts, step)}
  }

  lemma {:induction false} StartOfPoint(pts: seq<Point>, step: int, start: int, k: nat) returns (j: nat)
    requires step > 0 && k <= |pts| && start in StartSet(pts, step, k)
    ensures j < k && StepOf(pts[j].ts, step) == start
  {
    if StepOf(pts[k - 1].ts, step) == start {
      j := k - 1;
    } else {
      j := StartOfPoint(pts, step, start, k - 1);
    }
  }

  /** The first n of these steps together. */
  function StepsSum(pts: seq<Point>, step: int, starts: seq<int>, k: nat, n: nat): Bytes
    requires step > 0 && k <= |pts| && n <= |starts|
  {
    if n == 0 then ZERO else StepsSum(pts, step, starts, k, n - 1).Plus(StepSum(pts, step, starts[n - 1], k))
  }

  ghost predicate Distinct(s: seq<int>) {
    forall i, j :: 0 <= i < j < |s| ==> s[i] != s[j]
  }

  /** One more point adds its bytes to the steps exactly when its step is among them. */
  lemma {:induction false} StepsSumPoint(pts: seq<Point>, step: int, starts: seq<int>, k: nat, n: nat)
    requires step > 0 && 0 < k <= |pts| && n <= |starts| && Distinct(starts)
    ensures var hit := StepOf(pts[k - 1].ts, step) in starts[..n];
            StepsSum(pts, step, starts, k, n)
            == if hit then StepsSum(pts, step, starts, k - 1, n).Plus(pts[k - 1].bytes)
                else StepsSum(pts, step, starts, k - 1, n)
  {
    if n > 0 {
      StepsSumPoint(pts, step, starts, k, n - 1);
      assert starts[..n] == starts[..n - 1] + [starts[n - 1]];
    }
  }

  lemma {:induction false} NothingYet(pts: seq<Point>, step: int, starts: seq<int>, n: nat)
    requires step > 0 && n <= |starts|
    ensures StepsSum(pts, step, starts, 0, n) == ZERO
  {
    if n > 0 {
      NothingYet(pts, step, starts, n - 1);
    }
  }

  /** Merging conserves traffic: distinct steps that cover the points hold together what the points hold. */
  lemma {:induction false} StepsConserve(pts: seq<Point>, step: int, starts: seq<int>, k: nat)
    requires step > 0 && k <= |pts| && Distinct(starts)
    requires forall x :: x in StartSet(pts, step, k) ==> x in starts
    ensures StepsSum(pts, step, starts, k, |starts|) == PointSum(pts, k)
  {
    if k == 0 {
      NothingYet(pts, step, starts, |starts|);
    } else {
      StepsConserve(pts, step, starts, k - 1);
      StepsSumPoint(pts, step, starts, k, |starts|);
      assert starts[..|starts|] == starts;
    }
  }

  // ---------- the handler's loop ----------

  /** The steps met by the first k points, in order of first meeting, with their sums. */
  ghost predicate Collected(pts: seq<Point>, step: int, k: nat, buckets: map<int, Bytes>, order: seq<int>)
    requires step > 0 && k <= |pts|
  {
    && Distinct(order) && (forall x :: x in order <==> x in buckets)
    && buckets.Keys == StartSet(pts, step, k)
    && forall x :: x in buckets ==> buckets[x] == StepSum(pts, step, x, k)
  }

  lemma {:induction false} UnmetStep(pts: seq<Point>, step: int, start: int, k: nat)
    requires step > 0 && k <= |pts| && start !in StartSet(pts, step, k)
    ensures StepSum(pts, step, start, k) == ZERO
  {
    if k > 0 {
      UnmetStep(pts, step, start, k - 1);
    }
  }

  method Collect(pts: seq<Point>, step: int) returns (buckets: map<int, Bytes>, order: seq<int>)
    requires step > 0
    ensures Collected(pts, step, |pts|, buckets, order)
  {
    buckets, order := map[], [];
    for k := 0 to |pts|
      invariant Collected(pts, step, k, buckets, order)
    {
      var key := StepOf(pts[k].ts, step);
      var b := ZERO;
      if key in buckets {
        b := buckets[key];
      } else {
        UnmetStep(pts, step, key, k);
        order := order + [key];
      }
      buckets := buckets[key := b.Plus(pts[k].bytes)];
    }
  }

  lemma {:induction false} SameElements(a: seq<int>, b: seq<int>)
    requires multiset(a) == multiset(b) && Distinct(a)
    ensures Distinct(b) && forall x :: x in b <==> x in a
  {
    forall x
      ensures x in b <==> x in a
    {
      assert x in multiset(a) <==> x in a;
      assert x in multiset(b) <==> x in b;
    }
    CountsOnce(a, |a|);
    forall i, j | 0 <= i < j < |b|
      ensures b[i] != b[j]
    {
      if b[i] == b[j] {
        TwiceCounts(b, i, j);
      }
    }
  }

  lemma {:induction false} CountsOnce(a: seq<int>, n: nat)
    requires n <= |a| && Distinct(a)
    ensures forall x :: multiset(a[..n])[x] <= 1
    ensures n == |a| ==> forall x :: multiset(a)[x] <= 1
  {
    if n > 0 {
      CountsOnce(a, n - 1);
      assert a[..n] == a[..n - 1] + [a[n - 1]];
      assert a[n - 1] !in a[..n - 1];
    }
    assert a[..|a|] == a;
  }

  lemma {:induction false} TwiceCounts(b: seq<int>, i: nat, j: nat)
    requires i < j < |b| && b[i] == b[j]
    ensures multiset(b)[b[i]] >= 2
  {
    assert b == b[..j] + b[j..];
    assert b[i] == b[..j][i] && b[j] == b[j..][0];
    assert multiset(b) == multiset(b[..j]) + multiset(b[j..]);
    assert b[i] in multiset(b[..j]) && b[i] in multiset(b[j..]);
  }

  lemma {:induction false} ReadOut(pts: seq<Point>, step: int, starts: seq<int>, out: seq<Point>, n: nat)
    requires step > 0 && |out| == |starts| && n <= |starts|
    requires forall i :: 0 <= i < |starts| ==> out[i] == Point(starts[i], StepSum(pts, step, starts[i], |pts|))
    ensures PointSum(out, n) == StepsSum(pts, step, starts, |pts|, n)
  {
    if n > 0 {
      ReadOut(pts, step, starts, out, n - 1);
    }
  }

  /** The buckets as points, in the order of their starts. */
  method InOrder(pts: seq<Point>, step: int, starts: seq<int>, buckets: map<int, Bytes>) returns (out: seq<Point>)
    requires step > 0 && forall x :: x in starts ==> x in buckets && buckets[x] == StepSum(pts, step, x, |pts|)
    ensures |out| == |starts|
    ensures forall i :: 0 <= i < |starts| ==> out[i] == Point(starts[i], StepSum(pts, step, starts[i], |pts|))
  {
    out := [];
    for i := 0 to |starts|
      invariant |out| == i
      invariant forall j :: 0 <= j < i ==> out[j] == Point(starts[j], StepSum(pts, step, starts[j], |pts|))
    {
      assert starts[i] in starts;
      out := out + [Point(starts[i], buckets[starts[i]])];
    }
  }

  /** From 1970 on the view's points, each holding the sum of a step that was met, hold what lies in the step's length
      after their start. */
  lemma {:induction false} SpansOf(pts: seq<Point>, step: int, out: seq<Point>)
    requires step > 0 && forall i :: 0 <= i < |out| ==> out[i].ts in StartSet(pts, step, |pts|)
    requires forall i :: 0 <= i < |out| ==> out[i].bytes == StepSum(pts, step, out[i].ts, |pts|)
    requires forall i :: 0 <= i < |pts| ==> pts[i].ts >= 0
    ensures forall i :: 0 <= i < |out| ==> out[i].bytes == SpanSum(pts, out[i].ts, out[i].ts + step, |pts|)
  {
    forall i | 0 <= i < |out|
      ensures out[i].bytes == SpanSum(pts, out[i].ts, out[i].ts + step, |pts|)
    {
      var j := StartOfPoint(pts, step, out[i].ts, |pts|);
      StepIsSpan(pts, step, pts[j].ts, |pts|);
    }
  }

  /** The points of the view: strictly sorted, one for every step that has a point and none for another, each with its
      step's sum (SpansOf says what that is); and together they hold exactly what the hourly points hold. */
  method Rebucket(pts: seq<Point>, step: int) returns (out: seq<Point>)
    requires step > 0
    ensures Sorted(out)
    ensures forall i :: 0 <= i < |out| ==> out[i].bytes == StepSum(pts, step, out[i].ts, |pts|)
    ensures forall x :: HasPoint(out, x) <==> x in StartSet(pts, step, |pts|)
    ensures PointSum(out, |out|) == PointSum(pts, |pts|)
  {
    var buckets, order := Collect(pts, step);
    var a := new int[|order|](i requires 0 <= i < |order| => order[i]);
    assert a[..] == order;
    InsertionSort(a, (x: int) => x);
    var starts := a[..];
    SameElements(order, starts);
    assert forall x :: x in starts ==> x in buckets;
    out := InOrder(pts, step, starts, buckets);
    StepsConserve(pts, step, starts, |pts|);
    ReadOut(pts, step, starts, out, |starts|);
    forall x
      ensures HasPoint(out, x) <==> x in StartSet(pts, step, |pts|)
    {
      PointsAt(starts, out, x);
    }
  }

  lemma {:induction false} PointsAt(starts: seq<int>, out: seq<Point>, x: int)
    requires |out| == |starts| && forall i :: 0 <= i < |out| ==> out[i].ts == starts[i]
    ensures HasPoint(out, x) <==> x in starts
  {
    if x in starts {
      var j :| 0 <= j < |starts| && starts[j] == x;
      assert out[j].ts == x;
    }
  }
}

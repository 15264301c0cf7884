/** The live gost engine: the REST calls of internal/gostmgr/client.go on maps from names to resources, and the state
    that a compiled configuration stands for. */
module GostEngine {
  import opened Wrappers
  import opened GostNode
  import opened GostConfig
  import opened GostFacts

  datatype Resource = SvcR(service: Service) | QuotaR(quota: Quota) | LimiterR(limiter: Limiter)

  type State = map<Key, Resource>

  datatype Item = Item(key: Key, res: Resource)

  // ---------- calls ----------

  /** What happens to one call: it arrives and is answered, it never arrives, or only its answer is lost. */
  datatype Fate = Delivered | Lost | Unanswered

  datatype Reply = Done | Exists | Missing | Broken

  function PostReply(e: State, k: Key, f: Fate): Reply {
    if f != Delivered then Broken else if k in e then Exists else Done
  }

  function PostAfter(e: State, k: Key, r: Resource, f: Fate): State {
    if f == Lost || k in e then e else e[k := r]
  }

  function PutReply(e: State, k: Key, f: Fate): Reply {
    if f != Delivered then Broken else if k in e then Done else Missing
  }

  function PutAfter(e: State, k: Key, r: Resource, f: Fate): State {
    if f == Lost || k !in e then e else e[k := r]
  }

  function DeleteReply(e: State, k: Key, f: Fate): Reply {
    if f != Delivered then Broken else if k in e then Done else Missing
  }

  function DeleteAfter(e: State, k: Key, f: Fate): State {
    if f == Lost then e else e - {k}
  }

  class Engine {
    var state: State
    var calls: nat
    const fate: nat -> Fate

    constructor (state: State, fate: nat -> Fate)
      ensures this.state == state && this.calls == 0 && this.fate == fate
    {
      this.state, this.calls, this.fate := state, 0, fate;
    }

    method Post(k: Key, r: Resource) returns (reply: Reply)
      modifies this
      ensures calls == old(calls) + 1
      ensures reply == PostReply(old(state), k, fate(old(calls)))
      ensures state == PostAfter(old(state), k, r, fate(old(calls)))
    {
      reply, state, calls := PostReply(state, k, fate(calls)), PostAfter(state, k, r, fate(calls)), calls + 1;
    }

    method Put(k: Key, r: Resource) returns (reply: Reply)
      modifies this
      ensures calls == old(calls) + 1
      ensures reply == PutReply(old(state), k, fate(old(calls)))
      ensures state == PutAfter(old(state), k, r, fate(old(calls)))
    {
      reply, state, calls := PutReply(state, k, fate(calls)), PutAfter(state, k, r, fate(calls)), calls + 1;
    }

    method Remove(k: Key) returns (reply: Reply)
      modifies this
      ensures calls == old(calls) + 1
      ensures reply == DeleteReply(old(state), k, fate(old(calls)))
      ensures state == DeleteAfter(old(state), k, fate(old(calls)))
    {
      reply, state, calls := DeleteReply(state, k, fate(calls)), DeleteAfter(state, k, fate(calls)), calls + 1;
    }

    /** Create, and update what already exists: services and quotas in ApplyNode, limiters in UpsertLimiter. */
    method Upsert(k: Key, r: Resource) returns (ok: bool)
      modifies this
      ensures ok ==> state == old(state)[k := r]
      ensures state == old(state) || state == old(state)[k := r]
      ensures calls > old(calls) && (Reliable(fate) ==> ok)
    {
      var reply := Post(k, r);
      if reply == Exists {
        reply := Put(k, r);
      }
      ok := reply == Done;
    }

    /** A deletion; "not found" is as good as done. */
    method Delete(k: Key) returns (ok: bool)
      modifies this
      ensures ok ==> state == old(state) - {k}
      ensures state == old(state) || state == old(state) - {k}
      ensures calls > old(calls) && (Reliable(fate) ==> ok)
    {
      var reply := Remove(k);
      ok := reply != Broken;
    }

    /** One kind of resource of a configuration, in order; stops at the first failure. */
    method UpsertAll(items: seq<Item>) returns (ok: bool)
      modifies this
      ensures ok ==> state == PutAll(old(state), items)
      ensures forall k :: (forall i :: 0 <= i < |items| ==> items[i].key != k) ==>
          Lookup(state, k) == Lookup(old(state), k)
      ensures Reliable(fate) ==> ok
    {
      for i := 0 to |items|
        invariant state == PutAll(old(state), items[..i])
        invariant forall k :: (forall i :: 0 <= i < |items| ==> items[i].key != k) ==>
            Lookup(state, k) == Lookup(old(state), k)
      {
        assert items[..i + 1] == items[..i] + [items[i]];
        PutAllAppend(old(state), items[..i], items[i]);
        ok := Upsert(items[i].key, items[i].res);
        if !ok {
          return false;
        }
      }
      assert items[..|items|] == items;
      ok := true;
    }
  }

  ghost predicate Reliable(fate: nat -> Fate) {
    forall i :: fate(i) == Delivered
  }

  // ---------- states as lists of items ----------

  function PutAll(e: State, items: seq<Item>): State
    decreases |items|
  {
    if items == [] then e else PutAll(e[items[0].key := items[0].res], items[1..])
  }

  /** The last item under a key. */
  function LastOf(items: seq<Item>, k: Key): Option<Resource> {
    if items == [] then None
    else
      var r := LastOf(items[1..], k);
      if r.Some? then r else if items[0].key == k then Some(items[0].res) else None
  }

  lemma {:induction false} PutAllAppend(e: State, items: seq<Item>, x: Item)
    ensures PutAll(e, items + [x]) == PutAll(e, items)[x.key := x.res]
    decreases |items|
  {
    if items == [] {
      assert items + [x] == [x] && [x][1..] == [];
    } else {
      assert (items + [x])[1..] == items[1..] + [x];
      PutAllAppend(e[items[0].key := items[0].res], items[1..], x);
    }
  }

  lemma {:induction false} PutAllAt(e: State, items: seq<Item>, k: Key)
    ensures Lookup(PutAll(e, items), k) == if LastOf(items, k).Some? then LastOf(items, k) else Lookup(e, k)
    decreases |items|
  {
    if items != [] {
      PutAllAt(e[items[0].key := items[0].res], items[1..], k);
    }
  }

  lemma {:induction false} LastOfJoin(a: seq<Item>, b: seq<Item>, k: Key)
    ensures LastOf(a + b, k) == if LastOf(b, k).Some? then LastOf(b, k) else LastOf(a, k)
  {
    if a == [] {
      assert a + b == b;
    } else {
      assert (a + b)[1..] == a[1..] + b;
      LastOfJoin(a[1..], b, k);
    }
  }

  lemma {:induction false} LastOfNone(items: seq<Item>, k: Key)
    ensures LastOf(items, k).None? <==> forall i :: 0 <= i < |items| ==> items[i].key != k
  {
    if items != [] {
      LastOfNone(items[1..], k);
      assert forall i :: 1 <= i < |items| ==> items[i] == items[1..][i - 1];
    }
  }

  // ---------- the state of a configuration ----------

  function Items(c: Config, k: Kind): (r: seq<Item>)
    ensures |r| == |KindNames(c, k)|
    ensures forall i :: 0 <= i < |r| ==> r[i].key == Key(k, KindNames(c, k)[i])
  {
    match k
    case Services =>
      seq(|c.services|, i requires 0 <= i < |c.services| => Item(Key(k, c.services[i].name), SvcR(c.services[i])))
    case Quotas =>
      seq(|c.quotas|, i requires 0 <= i < |c.quotas| => Item(Key(k, c.quotas[i].name), QuotaR(c.quotas[i])))
    case Limiters =>
      seq(|c.limiters|, i requires 0 <= i < |c.limiters| => Item(Key(k, c.limiters[i].name), LimiterR(c.limiters[i])))
    case CLimiters =>
      seq(|c.climiters|, i requires 0 <= i < |c.climiters| =>
        Item(Key(k, c.climiters[i].name), LimiterR(c.climiters[i])))
  }

  /** What an engine freshly started on the configuration holds. */
  function Load(c: Config): State {
    PutAll(PutAll(PutAll(PutAll(map[], Items(c, Services)), Items(c, Quotas)), Items(c, Limiters)), Items(c, CLimiters))
  }

  lemma {:induction false} OtherKind(c: Config, j: Kind, k: Key)
    requires k.kind != j
    ensures LastOf(Items(c, j), k).None?
  {
    LastOfNone(Items(c, j), k);
  }

  lemma {:induction false} LoadAt(c: Config, k: Key)
    ensures Lookup(Load(c), k) == LastOf(Items(c, k.kind), k)
  {
    var e0: State := map[];
    var e1 := PutAll(e0, Items(c, Services));
    var e2 := PutAll(e1, Items(c, Quotas));
    var e3 := PutAll(e2, Items(c, Limiters));
    PutAllAt(e0, Items(c, Services), k);
    PutAllAt(e1, Items(c, Quotas), k);
    PutAllAt(e2, Items(c, Limiters), k);
    PutAllAt(e3, Items(c, CLimiters), k);
    forall j | j != k.kind
      ensures LastOf(Items(c, j), k).None?
    {
      OtherKind(c, j, k);
    }
  }

  lemma {:induction false} ItemsPlus(a: Config, b: Config, k: Kind)
    ensures Items(a.Plus(b), k) == Items(a, k) + Items(b, k)
  {
  }

  lemma {:induction false} LoadPlusAt(a: Config, b: Config, k: Key)
    ensures Lookup(Load(a.Plus(b)), k) == if k in Load(b) then Lookup(Load(b), k) else Lookup(Load(a), k)
  {
    LoadAt(a, k);
    LoadAt(b, k);
    LoadAt(a.Plus(b), k);
    ItemsPlus(a, b, k.kind);
    LastOfJoin(Items(a, k.kind), Items(b, k.kind), k);
  }

  lemma {:induction false} LoadOwned(n: Node, opts: Options, k: Key)
    requires k in Load(Compile(n, opts))
    ensures Own(n.id, k)
  {
    var c := Compile(n, opts);
    LoadAt(c, k);
    LastOfNone(Items(c, k.kind), k);
    CompiledNames(n, opts, k.kind);
  }

  /** What the full configuration says under a key nobody owns: nothing. */
  lemma {:induction false} LoadForeign(nodes: seq<Node>, opts: Options, k: Key)
    requires forall n :: n in nodes ==> !Own(n.id, k)
    ensures k !in Load(BuildConfig(nodes, opts))
  {
    if nodes == [] {
      LoadAt(NOTHING, k);
    } else {
      var a, b := Compile(nodes[0], opts), BuildConfig(nodes[1..], opts);
      LoadForeign(nodes[1..], opts, k);
      LoadPlusAt(a, b, k);
      if k in Load(a) {
        LoadOwned(nodes[0], opts, k);
      }
    }
  }

  /** What the full configuration says under a node's names: what the node's own compilation says. */
  lemma {:induction false} LoadOwn(nodes: seq<Node>, opts: Options, i: nat, k: Key)
    requires DistinctIds(nodes) && i < |nodes| && Own(nodes[i].id, k)
    ensures Lookup(Load(BuildConfig(nodes, opts)), k) == Lookup(Load(Compile(nodes[i], opts)), k)
  {
    var a, b := Compile(nodes[0], opts), BuildConfig(nodes[1..], opts);
    LoadPlusAt(a, b, k);
    if i == 0 {
      forall m | m in nodes[1..]
        ensures !Own(m.id, k)
      {
        OwnDisjoint(nodes[0].id, m.id, k);
      }
      LoadForeign(nodes[1..], opts, k);
    } else {
      LoadOwn(nodes[1..], opts, i - 1, k);
      if k in Load(a) {
        LoadOwned(nodes[0], opts, k);
        OwnDisjoint(nodes[0].id, nodes[i].id, k);
      }
    }
  }

  lemma {:induction false} SameState(a: State, b: State)
    requires forall k :: Lookup(a, k) == Lookup(b, k)
    ensures a == b
  {
    assert forall k :: k in a <==> Lookup(a, k).Some?;
    assert forall k :: k in b <==> Lookup(b, k).Some?;
  }
}

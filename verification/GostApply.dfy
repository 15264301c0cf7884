/** Patching the live engine one node at a time (internal/controller/controller.go, ApplyNode and RemoveNode). */
module GostApply {
  import opened Wrappers
  import opened GostNode
  import opened GostConfig
  import opened GostFacts
  import opened GostEngine

  // ---------- what applying and removing a node should come to ----------

  function Without(e: State, id: string): (r: State)
    ensures forall k :: Lookup(r, k) == if Own(id, k) then None else Lookup(e, k)
  {
    map k | k in e && !Own(id, k) :: e[k]
  }

  /** The engine with one node's resources rebuilt from its configuration, and everything else as it was. */
  function Rebuilt(e: State, n: Node, opts: Options): State {
    Without(e, n.id) + Load(Compile(n, opts))
  }

  lemma {:induction false} RebuiltAt(e: State, n: Node, opts: Options, k: Key)
    ensures Lookup(Rebuilt(e, n, opts), k) == if Own(n.id, k) then Lookup(Load(Compile(n, opts)), k) else Lookup(e, k)
  {
    if k in Load(Compile(n, opts)) {
      LoadOwned(n, opts, k);
    }
  }

  function Kept(e: State, n: Node, opts: Options, kept: set<Key>): State {
    Rebuilt(e, n, opts) + map k | k in e && k in kept :: e[k]
  }

  lemma {:induction false} KeptAt(e: State, n: Node, opts: Options, kept: set<Key>, k: Key)
    requires forall x :: x in kept ==> Own(n.id, x) && x !in Load(Compile(n, opts))
    ensures Lookup(Kept(e, n, opts, kept), k)
         == if k in kept then Lookup(e, k) else if Own(n.id, k) then Lookup(Load(Compile(n, opts)), k) else Lookup(e, k)
  {
    RebuiltAt(e, n, opts, k);
  }

  // ---------- the steps ----------

  predicate AllUnder(items: seq<Item>, own: Key) {
    forall i :: 0 <= i < |items| ==> items[i].key == own
  }

  /** Quotas, limiters, connection limiters: the compiled ones are put, and when there is none the old one is deleted, a
      failed deletion being ignored. */
  method ApplyLimits(cl: Engine, items: seq<Item>, own: Key) returns (ok: bool, ghost kept: bool)
    requires AllUnder(items, own)
    modifies cl
    ensures forall k :: k != own ==> Lookup(cl.state, k) == Lookup(old(cl.state), k)
    ensures ok ==> Lookup(cl.state, own) == if kept then Lookup(old(cl.state), own) else LastOf(items, own)
    ensures kept ==> items == []
    ensures Reliable(cl.fate) ==> ok && !kept
  {
    kept := false;
    ok := cl.UpsertAll(items);
    if !ok {
      return;
    }
    PutAllAt(old(cl.state), items, own);
    LastOfNone(items, own);
    if |items| == 0 {
      var done := cl.Delete(own);
      kept := !done && own in cl.state;
    } else {
      assert items[0].key == own;
    }
  }

  /** Quotas, rate limiters and connection limiters of one node, in that order; the first failure that is not ignored
      ends it. */
  method ApplyAllLimits(cl: Engine, qs: seq<Item>, ls: seq<Item>, cs: seq<Item>, q: Key, l: Key,
                        c: Key) returns (ok: bool, ghost kept: set<Key>)
    requires AllUnder(qs, q) && AllUnder(ls, l) && AllUnder(cs, c) && q != l && q != c && l != c
    modifies cl
    ensures forall k :: k != q && k != l && k != c ==> Lookup(cl.state, k) == Lookup(old(cl.state), k)
    ensures ok ==> Lookup(cl.state, q) == if q in kept then Lookup(old(cl.state), q) else LastOf(qs, q)
    ensures ok ==> Lookup(cl.state, l) == if l in kept then Lookup(old(cl.state), l) else LastOf(ls, l)
    ensures ok ==> Lookup(cl.state, c) == if c in kept then Lookup(old(cl.state), c) else LastOf(cs, c)
    ensures forall k :: k in kept ==> (k == q && qs == []) || (k == l && ls == []) || (k == c && cs == [])
    ensures Reliable(cl.fate) ==> ok && kept == {}
  {
    kept := {};
    ghost var one;
    ok, one := ApplyLimits(cl, qs, q);
    if !ok {
      return;
    }
    kept := if one then kept + {q} else kept;
    ok, one := ApplyLimits(cl, ls, l);
    if !ok {
      return;
    }
    kept := if one then kept + {l} else kept;
    ok, one := ApplyLimits(cl, cs, c);
    kept := if one then kept + {c} else kept;
  }

  /** The services: the compiled ones are put, the node's other service is deleted. */
  method ApplyServices(cl: Engine, items: seq<Item>, id: string) returns (ok: bool)
    requires forall i :: 0 <= i < |items| ==> items[i].key.kind == Services && Own(id, items[i].key)
    modifies cl
    ensures forall k: Key :: k.kind != Services || !Own(id, k) ==> Lookup(cl.state, k) == Lookup(old(cl.state), k)
    ensures ok ==> forall k: Key :: k.kind == Services && Own(id, k) ==> Lookup(cl.state, k) == LastOf(items, k)
    ensures Reliable(cl.fate) ==> ok
  {
    ok := cl.UpsertAll(items);
    if !ok {
      return;
    }
    forall k
      ensures Lookup(cl.state, k) == if LastOf(items, k).Some? then LastOf(items, k) else Lookup(old(cl.state), k)
      ensures LastOf(items, k).None? <==> forall i :: 0 <= i < |items| ==> items[i].key != k
    {
      PutAllAt(old(cl.state), items, k);
      LastOfNone(items, k);
    }
    ok := DropUnexpected(cl, items, TCPName(id));
    if !ok {
      return;
    }
    ok := DropUnexpected(cl, items, UDPName(id));
  }

  method DropUnexpected(cl: Engine, items: seq<Item>, name: string) returns (ok: bool)
    requires forall i :: 0 <= i < |items| ==> items[i].key.kind == Services
    modifies cl
    ensures forall k :: k != Key(Services, name) ==> Lookup(cl.state, k) == Lookup(old(cl.state), k)
    ensures ok && LastOf(items, Key(Services, name)).None? ==> Lookup(cl.state, Key(Services, name)).None?
    ensures LastOf(items, Key(Services, name)).Some? ==> cl.state == old(cl.state)
    ensures Reliable(cl.fate) ==> ok
  {
    LastOfNone(items, Key(Services, name));
    var expected := set i | 0 <= i < |items| :: items[i].key.name;
    if name in expected {
      return true;
    }
    assert forall i :: 0 <= i < |items| ==> items[i].key.name in expected;
    ok := cl.Delete(Key(Services, name));
  }

  lemma {:induction false} ItemsOwned(n: Node, opts: Options, k: Kind)
    ensures forall i :: 0 <= i < |Items(Compile(n, opts), k)| ==>
              Items(Compile(n, opts), k)[i].key.kind == k && Own(n.id, Items(Compile(n, opts), k)[i].key)
  {
    CompiledNames(n, opts, k);
    var names := KindNames(Compile(n, opts), k);
    assert forall i :: 0 <= i < |names| ==> names[i] in names;
  }

  lemma {:induction false} LimitsUnder(n: Node, opts: Options)
    ensures var c := Compile(n, opts);
            && AllUnder(Items(c, Quotas), Key(Quotas, QuotaName(n.id)))
            && AllUnder(Items(c, Limiters), Key(Limiters, LimiterName(n.id)))
            && AllUnder(Items(c, CLimiters), Key(CLimiters, CLimiterName(n.id)))
  {
    ItemsOwned(n, opts, Quotas);
    ItemsOwned(n, opts, Limiters);
    ItemsOwned(n, opts, CLimiters);
  }

  lemma {:induction false} OwnLimits(id: string)
    ensures forall k: Key :: Own(id, k) && k.kind != Services ==>
              || k == Key(Quotas, QuotaName(id)) || k == Key(Limiters, LimiterName(id))
              || k == Key(CLimiters, CLimiterName(id))
  {
  }

  lemma {:induction false} KeptUnloaded(cfg: Config, kept: set<Key>)
    requires forall k: Key :: k in kept ==> Items(cfg, k.kind) == []
    ensures forall k :: k in kept ==> k !in Load(cfg)
  {
    forall k | k in kept
      ensures k !in Load(cfg)
    {
      LoadAt(cfg, k);
    }
  }

  /** The leftovers are quotas or limiters of the node that its configuration does not have. */
  ghost predicate Leftover(n: Node, opts: Options, kept: set<Key>) {
    forall k: Key :: k in kept ==> Own(n.id, k) && k.kind != Services && k !in Load(Compile(n, opts))
  }

  /** The node's quotas and limiters are its configuration's, its services and everybody else's resources as before. */
  ghost predicate LimitsApplied(e: State, after: State, n: Node, opts: Options, kept: set<Key>) {
    && (forall k: Key :: k.kind == Services || !Own(n.id, k) ==> Lookup(after, k) == Lookup(e, k))
    && (forall k: Key :: k.kind != Services && Own(n.id, k) ==>
          Lookup(after, k) == if k in kept then Lookup(e, k) else LastOf(Items(Compile(n, opts), k.kind), k))
  }

  lemma {:induction false} ApplyComposes(e: State, between: State, after: State, n: Node, opts: Options, kept: set<Key>)
    requires LimitsApplied(e, between, n, opts, kept) && Leftover(n, opts, kept)
    requires forall k: Key :: k.kind != Services || !Own(n.id, k) ==> Lookup(after, k) == Lookup(between, k)
    requires forall k: Key :: k.kind == Services && Own(n.id, k) ==>
        Lookup(after, k) == LastOf(Items(Compile(n, opts), Services), k)
    ensures after == Kept(e, n, opts, kept)
  {
    forall k
      ensures Lookup(after, k) == Lookup(Kept(e, n, opts, kept), k)
    {
      LoadAt(Compile(n, opts), k);
      KeptAt(e, n, opts, kept, k);
    }
    SameState(after, Kept(e, n, opts, kept));
  }

  class Controller {
    const engine: Engine
    const opts: Options
    /** the stored nodes, and the configuration file */
    var nodes: seq<Node>
    var file: Config

    constructor (engine: Engine, opts: Options, nodes: seq<Node>)
      ensures this.engine == engine && this.opts == opts && this.nodes == nodes && file == BuildConfig(nodes, opts)
    {
      this.engine, this.opts, this.nodes, this.file := engine, opts, nodes, BuildConfig(nodes, opts);
    }

    /** The file is replaced in one step, or not at all. */
    method SyncConfigFile(disk: bool) returns (ok: bool)
      modifies this`file
      ensures ok == disk && file == if disk then BuildConfig(nodes, opts) else old(file)
    {
      if disk {
        file := BuildConfigLoop(nodes, opts);
      }
      ok := disk;
    }

    method ApplyNodeLimits(n: Node, cfg: Config) returns (ok: bool, ghost kept: set<Key>)
      requires cfg == Compile(n, opts)
      modifies engine
      ensures ok ==> LimitsApplied(old(engine.state), engine.state, n, opts, kept)
      ensures forall k: Key :: !Own(n.id, k) ==> Lookup(engine.state, k) == Lookup(old(engine.state), k)
      ensures Leftover(n, opts, kept)
      ensures Reliable(engine.fate) ==> ok && kept == {}
    {
      LimitsUnder(n, opts);
      OwnLimits(n.id);
      var q, l, c := Key(Quotas, QuotaName(n.id)), Key(Limiters, LimiterName(n.id)), Key(CLimiters, CLimiterName(n.id));
      ok, kept := ApplyAllLimits(engine, Items(cfg, Quotas), Items(cfg, Limiters), Items(cfg, CLimiters), q, l, c);
      KeptUnloaded(cfg, kept);
    }

    /** ApplyNode. On success the node's names hold exactly what a full rebuild would put there, whatever the engine
        held before; only an old quota or limiter whose ignored deletion failed may be left (`kept`). Other names never
        change. */
    method ApplyNode(n: Node, disk: bool, singBox: bool) returns (ok: bool, ghost kept: set<Key>)
      modifies engine, this`file
      ensures n.IsReality() ==> ok == singBox && engine.state == old(engine.state) && file == old(file)
      ensures forall k :: !Own(n.id, k) ==> Lookup(engine.state, k) == Lookup(old(engine.state), k)
      ensures Leftover(n, opts, kept)
      ensures ok && !n.IsReality() ==> engine.state == Kept(old(engine.state), n, opts, kept)
      ensures file == if ok && !n.IsReality() then BuildConfig(nodes, opts) else old(file)
      ensures Reliable(engine.fate) && !n.IsReality() ==> ok == disk && kept == {}
    {
      kept := {};
      if n.IsReality() {
        return singBox, {};
      }
      var cfg := BuildConfigLoop([n], opts);
      BuildOne(n, opts);
      ok, kept := ApplyNodeLimits(n, cfg);
      if !ok {
        return;
      }
      ItemsOwned(n, opts, Services);
      ghost var between := engine.state;
      ok := ApplyServices(engine, Items(cfg, Services), n.id);
      if !ok {
        return;
      }
      ApplyComposes(old(engine.state), between, engine.state, n, opts, kept);
      ok := SyncConfigFile(disk);
    }

    /** RemoveNode: every name of the node is deleted, failures remembered but not stopping the rest. The file is
        written from the store, which still holds the node. `gone` tells that every deletion succeeded. */
    method RemoveNode(n: Node, disk: bool) returns (ok: bool, ghost gone: bool)
      modifies engine, this`file
      ensures n.IsReality() ==> ok && gone && engine.state == old(engine.state) && file == old(file)
      ensures forall k :: !Own(n.id, k) ==> Lookup(engine.state, k) == Lookup(old(engine.state), k)
      ensures gone && !n.IsReality() ==> engine.state == Without(old(engine.state), n.id)
      ensures !n.IsReality() ==> ok == (gone && disk) && file == if disk then BuildConfig(nodes, opts) else old(file)
      ensures Reliable(engine.fate) ==> gone
    {
      if n.IsReality() {
        return true, true;
      }
      var names := [Key(Services, TCPName(n.id)), Key(Services, UDPName(n.id)), Key(Quotas, QuotaName(n.id)),
                    Key(Limiters, LimiterName(n.id)), Key(CLimiters, CLimiterName(n.id))];
      ok := DeleteAll(names);
      if ok {
        SameState(engine.state, Without(old(engine.state), n.id));
      }
      gone := ok;
      var synced := SyncConfigFile(disk);
      ok := ok && synced;
    }

    method DeleteAll(names: seq<Key>) returns (ok: bool)
      modifies engine
      ensures forall k :: k !in names ==> Lookup(engine.state, k) == Lookup(old(engine.state), k)
      ensures ok ==> forall k :: k in names ==> Lookup(engine.state, k).None?
      ensures Reliable(engine.fate) ==> ok
    {
      ok := true;
      for i := 0 to |names|
        invariant forall k :: k !in names ==> Lookup(engine.state, k) == Lookup(old(engine.state), k)
        invariant ok ==> forall j :: 0 <= j < i ==> Lookup(engine.state, names[j]).None?
        invariant Reliable(engine.fate) ==> ok
      {
        var one := engine.Delete(names[i]);
        ok := ok && one;
      }
    }
  }
}

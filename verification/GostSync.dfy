/** When an engine holds what a full rebuild of the stored nodes would give, and what changing one node does to that. */
module GostSync {
  import opened Wrappers
  import opened GostNode
  import opened GostConfig
  import opened GostFacts
  import opened GostEngine
  import opened GostApply

  ghost predicate InSync(e: State, nodes: seq<Node>, opts: Options) {
    DistinctIds(nodes) && e == Load(BuildConfig(nodes, opts))
  }

  // ---------- what is loaded, key by key ----------

  /** The full configuration under a key: its owner's compilation, or nothing. */
  lemma {:induction false} LoadByOwner(nodes: seq<Node>, opts: Options, k: Key)
    requires DistinctIds(nodes)
    ensures (exists i :: 0 <= i < |nodes| && Own(nodes[i].id, k)
                      && Lookup(Load(BuildConfig(nodes, opts)), k) == Lookup(Load(Compile(nodes[i], opts)), k))
         || ((forall n :: n in nodes ==> !Own(n.id, k)) && k !in Load(BuildConfig(nodes, opts)))
  {
    if i :| 0 <= i < |nodes| && Own(nodes[i].id, k) {
      LoadOwn(nodes, opts, i, k);
    } else {
      assert forall n :: n in nodes ==> !Own(n.id, k);
      LoadForeign(nodes, opts, k);
    }
  }

  /** The engine depends on which nodes are stored, not on their order. */
  lemma {:induction false} OrderFree(a: seq<Node>, b: seq<Node>, opts: Options)
    requires DistinctIds(a) && DistinctIds(b) && forall n :: n in a <==> n in b
    ensures Load(BuildConfig(a, opts)) == Load(BuildConfig(b, opts))
  {
    var x, y := Load(BuildConfig(a, opts)), Load(BuildConfig(b, opts));
    forall k
      ensures Lookup(x, k) == Lookup(y, k)
    {
      LoadByOwner(a, opts, k);
      if i :| 0 <= i < |a| && Own(a[i].id, k) {
        assert a[i] in b;
        var j :| 0 <= j < |b| && b[j] == a[i];
        LoadOwn(a, opts, i, k);
        LoadOwn(b, opts, j, k);
      } else {
        assert forall n :: n in b ==> n in a;
        LoadForeign(b, opts, k);
      }
    }
    SameState(x, y);
  }

  // ---------- one handler at a time ----------

  /** An engine that agrees with the configuration of `nodes` except under one id's names. */
  ghost predicate SyncedOutside(e: State, nodes: seq<Node>, opts: Options, id: string) {
    forall k :: !Own(id, k) ==> Lookup(e, k) == Lookup(Load(BuildConfig(nodes, opts)), k)
  }

  lemma {:induction false} AppendOutside(nodes: seq<Node>, n: Node, opts: Options)
    ensures SyncedOutside(Load(BuildConfig(nodes, opts)), nodes + [n], opts, n.id)
  {
    forall k | !Own(n.id, k)
      ensures Lookup(Load(BuildConfig(nodes, opts)), k) == Lookup(Load(BuildConfig(nodes + [n], opts)), k)
    {
      BuildConcat(nodes, [n], opts);
      BuildOne(n, opts);
      LoadPlusAt(BuildConfig(nodes, opts), Compile(n, opts), k);
      if k in Load(Compile(n, opts)) {
        LoadOwned(n, opts, k);
      }
    }
  }

  lemma {:induction false} ReplaceIds(nodes: seq<Node>, i: nat, n: Node)
    requires DistinctIds(nodes) && i < |nodes| && n.id == nodes[i].id
    ensures DistinctIds(nodes[i := n]) && forall j :: 0 <= j < |nodes| ==> nodes[i := n][j].id == nodes[j].id
  {
  }

  lemma {:induction false} ReplaceOutsideAt(nodes: seq<Node>, i: nat, n: Node, opts: Options, k: Key)
    requires DistinctIds(nodes) && i < |nodes| && n.id == nodes[i].id && !Own(n.id, k)
    ensures Lookup(Load(BuildConfig(nodes, opts)), k) == Lookup(Load(BuildConfig(nodes[i := n], opts)), k)
  {
    ReplaceIds(nodes, i, n);
    if j :| 0 <= j < |nodes| && Own(nodes[j].id, k) {
      LoadOwn(nodes, opts, j, k);
      LoadOwn(nodes[i := n], opts, j, k);
    } else {
      LoadForeign(nodes, opts, k);
      LoadForeign(nodes[i := n], opts, k);
    }
  }

  lemma {:induction false} ReplaceOutside(nodes: seq<Node>, i: nat, n: Node, opts: Options)
    requires DistinctIds(nodes) && i < |nodes| && n.id == nodes[i].id
    ensures DistinctIds(nodes[i := n]) && SyncedOutside(Load(BuildConfig(nodes, opts)), nodes[i := n], opts, n.id)
  {
    ReplaceIds(nodes, i, n);
    forall k | !Own(n.id, k)
      ensures Lookup(Load(BuildConfig(nodes, opts)), k) == Lookup(Load(BuildConfig(nodes[i := n], opts)), k)
    {
      ReplaceOutsideAt(nodes, i, n, opts, k);
    }
  }

  /** Rebuilding one node on an engine in sync outside its names brings the whole engine in sync. */
  lemma {:induction false} RebuildSyncs(e: State, nodes: seq<Node>, i: nat, opts: Options)
    requires DistinctIds(nodes) && i < |nodes| && SyncedOutside(e, nodes, opts, nodes[i].id)
    ensures InSync(Rebuilt(e, nodes[i], opts), nodes, opts)
  {
    forall k
      ensures Lookup(Rebuilt(e, nodes[i], opts), k) == Lookup(Load(BuildConfig(nodes, opts)), k)
    {
      RebuiltAt(e, nodes[i], opts, k);
      if Own(nodes[i].id, k) {
        LoadOwn(nodes, opts, i, k);
      }
    }
    SameState(Rebuilt(e, nodes[i], opts), Load(BuildConfig(nodes, opts)));
  }

  /** Removing one id's names from an engine in sync outside them, when no stored node has that id. */
  lemma {:induction false} RemoveSyncs(e: State, nodes: seq<Node>, id: string, opts: Options)
    requires DistinctIds(nodes) && SyncedOutside(e, nodes, opts, id) && forall n :: n in nodes ==> n.id != id
    ensures InSync(Without(e, id), nodes, opts)
  {
    forall k
      ensures Lookup(Without(e, id), k) == Lookup(Load(BuildConfig(nodes, opts)), k)
    {
      if Own(id, k) {
        forall n | n in nodes
          ensures !Own(n.id, k)
        {
          OwnDisjoint(id, n.id, k);
        }
        LoadForeign(nodes, opts, k);
      }
    }
    SameState(Without(e, id), Load(BuildConfig(nodes, opts)));
  }

  function Dropped(nodes: seq<Node>, i: nat): seq<Node>
    requires i < |nodes|
  {
    nodes[..i] + nodes[i + 1..]
  }

  lemma {:induction false} DropFacts(nodes: seq<Node>, i: nat)
    requires DistinctIds(nodes) && i < |nodes|
    ensures var d := Dropped(nodes, i);
            && DistinctIds(d) && (forall n :: n in d ==> n in nodes && n.id != nodes[i].id)
            && forall n :: n in nodes && n.id != nodes[i].id ==> n in d
  {
    var d := Dropped(nodes, i);
    assert forall j :: 0 <= j < |d| ==> d[j] == nodes[if j < i then j else j + 1];
    forall n | n in nodes && n.id != nodes[i].id
      ensures n in d
    {
      var j :| 0 <= j < |nodes| && nodes[j] == n;
      assert d[if j < i then j else j - 1] == n;
    }
  }

  lemma {:induction false} DropOutside(nodes: seq<Node>, i: nat, opts: Options)
    requires DistinctIds(nodes) && i < |nodes|
    ensures SyncedOutside(Load(BuildConfig(nodes, opts)), Dropped(nodes, i), opts, nodes[i].id)
  {
    var d := Dropped(nodes, i);
    DropFacts(nodes, i);
    forall k | !Own(nodes[i].id, k)
      ensures Lookup(Load(BuildConfig(nodes, opts)), k) == Lookup(Load(BuildConfig(d, opts)), k)
    {
      LoadByOwner(nodes, opts, k);
      if j :| 0 <= j < |nodes| && Own(nodes[j].id, k) {
        assert nodes[j] in d;
        var m :| 0 <= m < |d| && d[m] == nodes[j];
        LoadOwn(nodes, opts, j, k);
        LoadOwn(d, opts, m, k);
      } else {
        LoadForeign(d, opts, k);
      }
    }
  }

  // ---------- what an edit leaves behind ----------

  /** Compiled services tell whether a node is active. */
  lemma {:induction false} InactiveIff(n: Node, opts: Options)
    ensures |Compile(n, opts).services| == 0 <==> !Active(n)
    ensures !Active(n) ==> Compile(n, opts) == NOTHING
  {
  }

  /** Deleting a node writes the configuration file while the node is still stored: the file lists exactly the remaining
      nodes if and only if the deleted one contributed nothing. */
  lemma {:induction false} FileAfterDeleteIff(nodes: seq<Node>, i: nat, opts: Options)
    requires i < |nodes|
    ensures BuildConfig(nodes, opts) == BuildConfig(Dropped(nodes, i), opts) <==> !Active(nodes[i])
  {
    var a, b, n := nodes[..i], nodes[i + 1..], nodes[i];
    assert nodes == a + [n] + b;
    BuildConcat(a + [n], b, opts);
    BuildConcat(a, [n], opts);
    BuildOne(n, opts);
    BuildConcat(a, b, opts);
    InactiveIff(n, opts);
    PlusAssoc(BuildConfig(a, opts), NOTHING, NOTHING);
    var x, y := BuildConfig(nodes, opts), BuildConfig(Dropped(nodes, i), opts);
    assert |x.services| == |y.services| + |Compile(n, opts).services|;
  }

  lemma {:induction false} ActiveLoads(n: Node, opts: Options)
    requires Active(n)
    ensures Key(Services, TCPName(n.id)) in Load(Compile(n, opts))
  {
    var c, k := Compile(n, opts), Key(Services, TCPName(n.id));
    LoadAt(c, k);
    EmittedNames(n, opts);
    LastOfNone(Items(c, Services), k);
    assert Items(c, Services)[0].key == k;
  }

  lemma {:induction false} InactiveLoads(n: Node, opts: Options, k: Key)
    requires !Active(n)
    ensures k !in Load(Compile(n, opts))
  {
    LoadAt(Compile(n, opts), k);
  }

  /** Turning a node into a reality node applies nothing to gost: the engine is then in sync if and only if the node had
      contributed nothing before. */
  lemma {:induction false} RealitySwitchIff(nodes: seq<Node>, i: nat, n: Node, opts: Options)
    requires DistinctIds(nodes) && i < |nodes| && n.id == nodes[i].id && n.IsReality()
    ensures InSync(Load(BuildConfig(nodes, opts)), nodes[i := n], opts) <==> !Active(nodes[i])
  {
    var e, next := Load(BuildConfig(nodes, opts)), nodes[i := n];
    ReplaceOutside(nodes, i, n, opts);
    if Active(nodes[i]) {
      var k := Key(Services, TCPName(n.id));
      ActiveLoads(nodes[i], opts);
      LoadOwn(nodes, opts, i, k);
      LoadOwn(next, opts, i, k);
      InactiveLoads(n, opts, k);
    } else {
      forall k
        ensures Lookup(e, k) == Lookup(Load(BuildConfig(next, opts)), k)
      {
        if Own(n.id, k) {
          LoadOwn(nodes, opts, i, k);
          LoadOwn(next, opts, i, k);
          InactiveLoads(n, opts, k);
          InactiveLoads(nodes[i], opts, k);
        }
      }
      SameState(e, Load(BuildConfig(next, opts)));
    }
  }

  // ---------- one node's names decide ----------

  /** Under the node's names the engine holds what the node compiles to. */
  ghost predicate Holds(e: State, n: Node, opts: Options) {
    forall k :: Own(n.id, k) ==> Lookup(e, k) == Lookup(Load(Compile(n, opts)), k)
  }

  /** When an engine is in sync outside one stored node's names, that node's names decide. */
  lemma {:induction false} HeldSyncsIff(e: State, nodes: seq<Node>, i: nat, opts: Options)
    requires DistinctIds(nodes) && i < |nodes| && SyncedOutside(e, nodes, opts, nodes[i].id)
    ensures InSync(e, nodes, opts) <==> Holds(e, nodes[i], opts)
  {
    var all := Load(BuildConfig(nodes, opts));
    forall k | Own(nodes[i].id, k)
      ensures Lookup(all, k) == Lookup(Load(Compile(nodes[i], opts)), k)
    {
      LoadOwn(nodes, opts, i, k);
    }
    if Holds(e, nodes[i], opts) {
      SameState(e, all);
    }
  }

  /** Empty names are what an inactive node compiles to, and no active one does. */
  lemma {:induction false} EmptyHoldsIff(e: State, n: Node, opts: Options)
    requires forall k :: Own(n.id, k) ==> Lookup(e, k).None?
    ensures Holds(e, n, opts) <==> !Active(n)
  {
    if Active(n) {
      ActiveLoads(n, opts);
      LoadOwned(n, opts, Key(Services, TCPName(n.id)));
    } else {
      forall k | Own(n.id, k)
        ensures Lookup(Load(Compile(n, opts)), k).None?
      {
        InactiveLoads(n, opts, k);
      }
    }
  }

  /** Two forms of one node that load alike. */
  lemma {:induction false} LoadsAlikeIff(e: State, m: Node, n: Node, opts: Options)
    requires m.id == n.id && Holds(e, m, opts)
    ensures Holds(e, n, opts) <==> Load(Compile(m, opts)) == Load(Compile(n, opts))
  {
    var x, y := Load(Compile(m, opts)), Load(Compile(n, opts));
    if Holds(e, n, opts) {
      forall k
        ensures Lookup(x, k) == Lookup(y, k)
      {
        if k in x {
          LoadOwned(m, opts, k);
        }
        if k in y {
          LoadOwned(n, opts, k);
        }
      }
      SameState(x, y);
    }
  }

  lemma {:induction false} AppendIds(nodes: seq<Node>, n: Node)
    requires DistinctIds(nodes) && forall m :: m in nodes ==> m.id != n.id
    ensures DistinctIds(nodes + [n])
  {
    assert forall j :: 0 <= j < |nodes| ==> nodes[j] in nodes;
  }

  /** An engine in sync holds nothing under the names of a node that is not stored. */
  lemma {:induction false} StrangerEmpty(nodes: seq<Node>, id: string, opts: Options, k: Key)
    requires Own(id, k) && forall m :: m in nodes ==> m.id != id
    ensures k !in Load(BuildConfig(nodes, opts))
  {
    forall m | m in nodes
      ensures !Own(m.id, k)
    {
      OwnDisjoint(id, m.id, k);
    }
    LoadForeign(nodes, opts, k);
  }

  /** Storing a new node without applying it keeps an engine in sync exactly when the node is inactive. */
  lemma {:induction false} StoredSyncsIff(e: State, nodes: seq<Node>, n: Node, opts: Options)
    requires InSync(e, nodes, opts) && forall m :: m in nodes ==> m.id != n.id
    ensures InSync(e, nodes + [n], opts) <==> !Active(n)
  {
    AppendIds(nodes, n);
    AppendOutside(nodes, n, opts);
    HeldSyncsIff(e, nodes + [n], |nodes|, opts);
    forall k | Own(n.id, k)
      ensures Lookup(e, k).None?
    {
      StrangerEmpty(nodes, n.id, opts, k);
    }
    EmptyHoldsIff(e, n, opts);
  }

  /** Storing another form of a node without applying it, exactly when both forms load alike. */
  lemma {:induction false} RestoredSyncsIff(e: State, nodes: seq<Node>, i: nat, n: Node, opts: Options)
    requires InSync(e, nodes, opts) && i < |nodes| && n.id == nodes[i].id
    ensures InSync(e, nodes[i := n], opts) <==> Load(Compile(nodes[i], opts)) == Load(Compile(n, opts))
  {
    ReplaceOutside(nodes, i, n, opts);
    HeldSyncsIff(e, nodes, i, opts);
    HeldSyncsIff(e, nodes[i := n], i, opts);
    LoadsAlikeIff(e, nodes[i], n, opts);
  }

  /** Forgetting a node without removing it, exactly when the node is inactive. */
  lemma {:induction false} ForgottenSyncsIff(e: State, nodes: seq<Node>, i: nat, opts: Options)
    requires InSync(e, nodes, opts) && i < |nodes|
    ensures InSync(e, Dropped(nodes, i), opts) <==> !Active(nodes[i])
  {
    var n := nodes[i];
    DropFacts(nodes, i);
    if Active(n) {
      var k := Key(Services, TCPName(n.id));
      ActiveLoads(n, opts);
      LoadOwned(n, opts, k);
      LoadOwn(nodes, opts, i, k);
      StrangerEmpty(Dropped(nodes, i), n.id, opts, k);
    } else {
      FileAfterDeleteIff(nodes, i, opts);
    }
  }

  /** Removing a node's resources while it stays stored, exactly when the node is inactive. */
  lemma {:induction false} EmptiedSyncsIff(e: State, nodes: seq<Node>, i: nat, opts: Options)
    requires DistinctIds(nodes) && i < |nodes| && SyncedOutside(e, nodes, opts, nodes[i].id)
    ensures InSync(Without(e, nodes[i].id), nodes, opts) <==> !Active(nodes[i])
  {
    HeldSyncsIff(Without(e, nodes[i].id), nodes, i, opts);
    EmptyHoldsIff(Without(e, nodes[i].id), nodes[i], opts);
  }
}

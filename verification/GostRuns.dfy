/** The node handlers over whole runs (internal/server/handlers_nodes.go), with failing writes of the store and of the
    configuration file, failing engine calls, and restarts of gost and of the panel: when the live engine is what a full
    rebuild of the stored nodes would give. */
module GostRuns {
  import opened Wrappers
  import opened GostNode
  import opened GostConfig
  import opened GostFacts
  import opened GostEngine
  import opened GostApply
  import opened GostSync

  // ---------- steps ----------

  /** The live engine, the configuration file, and the stored nodes. */
  datatype Sys = Sys(engine: State, file: Config, nodes: seq<Node>)

  /** What a handler can come to. `mid` is the engine that a failed apply leaves behind; `wrote` tells whether
      RemoveNode could write the file. */
  datatype Event =
    | Refused                                         // the node cannot be stored: nothing is done
    | Created(n: Node)
    | CreateUndone(n: Node, mid: State, wrote: bool)  // the apply failed; removed and forgotten again
    | CreateKept(n: Node, mid: State, wrote: bool)    // the same, but the node cannot be deleted from the store
    | Updated(i: nat, n: Node)
    | UpdateUndone(i: nat, mid: State)                // the apply failed; the old node is stored and applied again
    | UpdateKept(i: nat, n: Node, mid: State)         // n is stored and its apply failed: nothing was rolled back
    | Deleted(i: nat, wrote: bool)
    | DeleteKept(i: nat, wrote: bool)                 // removed from gost, but it cannot be deleted from the store
    | EngineRestart                                   // gost ended and was started again on the file
    | PanelStart                                      // the panel writes the file and starts gost on it

  /** ApplyNode and RemoveNode on the gost engine: a reality node has nothing there. */
  function Applied(e: State, n: Node, opts: Options): State {
    if n.IsReality() then e else Rebuilt(e, n, opts)
  }

  function Removed(e: State, n: Node): State {
    if n.IsReality() then e else Without(e, n.id)
  }

  /** The file after n was applied or removed while `nodes` were stored; a reality node does not touch it. */
  function Written(file: Config, n: Node, wrote: bool, nodes: seq<Node>, opts: Options): Config {
    if wrote && !n.IsReality() then BuildConfig(nodes, opts) else file
  }

  /** Whatever fails, only the resources under the node's own names can change. */
  ghost predicate OthersKept(e: State, mid: State, id: string) {
    forall k :: !Own(id, k) ==> Lookup(mid, k) == Lookup(e, k)
  }

  predicate Unknown(nodes: seq<Node>, id: string) {
    forall m :: m in nodes ==> m.id != id
  }

  /** A new node has a new id, and an edit keeps the id; toggles are edits. */
  ghost predicate Possible(s: Sys, ev: Event) {
    match ev
    case Created(n) => Unknown(s.nodes, n.id)
    case CreateUndone(n, mid, _) =>
      Unknown(s.nodes, n.id) && OthersKept(s.engine, mid, n.id) && (n.IsReality() ==> mid == s.engine)
    case CreateKept(n, mid, _) =>
      Unknown(s.nodes, n.id) && OthersKept(s.engine, mid, n.id) && (n.IsReality() ==> mid == s.engine)
    case Updated(i, n) => i < |s.nodes| && n.id == s.nodes[i].id
    case UpdateUndone(i, mid) => i < |s.nodes| && OthersKept(s.engine, mid, s.nodes[i].id)
    case UpdateKept(i, n, mid) => i < |s.nodes| && n.id == s.nodes[i].id && OthersKept(s.engine, mid, n.id)
    case Deleted(i, _) => i < |s.nodes|
    case DeleteKept(i, _) => i < |s.nodes|
    case _ => true
  }

  ghost function Next(s: Sys, ev: Event, opts: Options): Sys
    requires Possible(s, ev)
  {
    match ev
    case Refused => s
    case Created(n) =>
      var all := s.nodes + [n];
      Sys(Applied(s.engine, n, opts), Written(s.file, n, true, all, opts), all)
    case CreateUndone(n, mid, wrote) =>
      Sys(Removed(mid, n), Written(s.file, n, wrote, s.nodes + [n], opts), s.nodes)
    case CreateKept(n, mid, wrote) =>
      Sys(Removed(mid, n), Written(s.file, n, wrote, s.nodes + [n], opts), s.nodes + [n])
    case Updated(i, n) =>
      var all := s.nodes[i := n];
      Sys(Applied(s.engine, n, opts), Written(s.file, n, true, all, opts), all)
    case UpdateUndone(i, mid) =>
      var n := s.nodes[i];
      Sys(Applied(mid, n, opts), Written(s.file, n, true, s.nodes, opts), s.nodes)
    case UpdateKept(i, n, mid) => Sys(mid, s.file, s.nodes[i := n])
    case Deleted(i, wrote) =>
      var n := s.nodes[i];
      Sys(Removed(s.engine, n), Written(s.file, n, wrote, s.nodes, opts), Dropped(s.nodes, i))
    case DeleteKept(i, wrote) =>
      var n := s.nodes[i];
      Sys(Removed(s.engine, n), Written(s.file, n, wrote, s.nodes, opts), s.nodes)
    case EngineRestart => Sys(Load(s.file), s.file, s.nodes)
    case PanelStart => Sys(Load(BuildConfig(s.nodes, opts)), BuildConfig(s.nodes, opts), s.nodes)
  }

  ghost predicate EngineSynced(s: Sys, opts: Options) {
    InSync(s.engine, s.nodes, opts)
  }

  /** An engine started on the file would be in sync. */
  ghost predicate FileSynced(s: Sys, opts: Options) {
    InSync(Load(s.file), s.nodes, opts)
  }

  // ---------- the engine, step by step ----------

  /** When a handler leaves the engine in sync: no active gost node is turned into a reality node; no failed change of a
      reality node into a gost node has touched the engine; a node whose apply failed is stored only if all of it
      arrived; and no active node stays stored that was removed from the engine. */
  ghost predicate Clean(s: Sys, ev: Event, opts: Options)
    requires Possible(s, ev)
  {
    match ev
    case CreateKept(n, _, _) => !Active(n)
    case Updated(i, n) => n.IsReality() ==> !Active(s.nodes[i])
    case UpdateUndone(i, mid) => s.nodes[i].IsReality() ==> mid == s.engine
    case UpdateKept(i, n, mid) => Holds(mid, n, opts)
    case DeleteKept(i, _) => !Active(s.nodes[i])
    case _ => true
  }

  lemma {:induction false} CreatedSyncs(e: State, nodes: seq<Node>, n: Node, opts: Options)
    requires InSync(e, nodes, opts) && Unknown(nodes, n.id)
    ensures InSync(Applied(e, n, opts), nodes + [n], opts)
  {
    AppendIds(nodes, n);
    if n.IsReality() {
      StoredSyncsIff(e, nodes, n, opts);
    } else {
      AppendOutside(nodes, n, opts);
      RebuildSyncs(e, nodes + [n], |nodes|, opts);
    }
  }

  lemma {:induction false} CreateKeptSyncsIff(e: State, mid: State, nodes: seq<Node>, n: Node, opts: Options)
    requires InSync(e, nodes, opts) && Unknown(nodes, n.id) && OthersKept(e, mid, n.id)
    requires n.IsReality() ==> mid == e
    ensures InSync(Removed(mid, n), nodes + [n], opts) <==> !Active(n)
  {
    if n.IsReality() {
      StoredSyncsIff(e, nodes, n, opts);
    } else {
      AppendIds(nodes, n);
      AppendOutside(nodes, n, opts);
      EmptiedSyncsIff(mid, nodes + [n], |nodes|, opts);
    }
  }

  lemma {:induction false} UpdatedSyncsIff(e: State, nodes: seq<Node>, i: nat, n: Node, opts: Options)
    requires InSync(e, nodes, opts) && i < |nodes| && n.id == nodes[i].id
    ensures InSync(Applied(e, n, opts), nodes[i := n], opts) <==> (n.IsReality() ==> !Active(nodes[i]))
  {
    if n.IsReality() {
      RealitySwitchIff(nodes, i, n, opts);
    } else {
      ReplaceOutside(nodes, i, n, opts);
      RebuildSyncs(e, nodes[i := n], i, opts);
    }
  }

  lemma {:induction false} UpdateKeptSyncsIff(e: State, mid: State, nodes: seq<Node>, i: nat, n: Node, opts: Options)
    requires InSync(e, nodes, opts) && i < |nodes| && n.id == nodes[i].id && OthersKept(e, mid, n.id)
    ensures InSync(mid, nodes[i := n], opts) <==> Holds(mid, n, opts)
  {
    ReplaceOutside(nodes, i, n, opts);
    HeldSyncsIff(mid, nodes[i := n], i, opts);
  }

  lemma {:induction false} DeletedSyncs(e: State, nodes: seq<Node>, i: nat, opts: Options)
    requires InSync(e, nodes, opts) && i < |nodes|
    ensures InSync(Removed(e, nodes[i]), Dropped(nodes, i), opts)
  {
    DropFacts(nodes, i);
    if nodes[i].IsReality() {
      ForgottenSyncsIff(e, nodes, i, opts);
    } else {
      DropOutside(nodes, i, opts);
      RemoveSyncs(e, Dropped(nodes, i), nodes[i].id, opts);
    }
  }

  /** Deleting a node from gost that then stays stored: in sync exactly when the node is inactive. */
  lemma {:induction false} DeleteKeptSyncsIff(e: State, nodes: seq<Node>, i: nat, opts: Options)
    requires InSync(e, nodes, opts) && i < |nodes|
    ensures InSync(Removed(e, nodes[i]), nodes, opts) <==> !Active(nodes[i])
  {
    if !nodes[i].IsReality() {
      EmptiedSyncsIff(e, nodes, i, opts);
    }
  }

  /** Every outcome of every handler keeps the engine in sync exactly when it is clean. */
  lemma {:induction false} StepSyncIff(s: Sys, ev: Event, opts: Options)
    requires EngineSynced(s, opts) && Possible(s, ev) && !ev.EngineRestart?
    ensures EngineSynced(Next(s, ev, opts), opts) <==> Clean(s, ev, opts)
  {
    match ev
    case Created(n) =>
      CreatedSyncs(s.engine, s.nodes, n, opts);
    case CreateUndone(n, mid, _) =>
      if !n.IsReality() {
        RemoveSyncs(mid, s.nodes, n.id, opts);
      }
    case CreateKept(n, mid, _) =>
      CreateKeptSyncsIff(s.engine, mid, s.nodes, n, opts);
    case Updated(i, n) =>
      UpdatedSyncsIff(s.engine, s.nodes, i, n, opts);
    case UpdateUndone(i, mid) =>
      if !s.nodes[i].IsReality() {
        RebuildSyncs(mid, s.nodes, i, opts);
      }
    case UpdateKept(i, n, mid) =>
      UpdateKeptSyncsIff(s.engine, mid, s.nodes, i, n, opts);
    case Deleted(i, _) =>
      DeletedSyncs(s.engine, s.nodes, i, opts);
    case DeleteKept(i, _) =>
      DeleteKeptSyncsIff(s.engine, s.nodes, i, opts);
    case Refused =>
    case PanelStart =>
  }

  // ---------- the file, step by step ----------

  /** When a handler leaves a file that was in sync so: RemoveNode writes it while the removed node is still stored,
      and a failed apply or a reality node does not write it at all. */
  predicate FileClean(s: Sys, ev: Event, opts: Options)
    requires ev.Updated? || ev.UpdateKept? || ev.Deleted? ==> ev.i < |s.nodes|
  {
    match ev
    case CreateUndone(n, _, wrote) => !wrote || !Active(n)
    case CreateKept(n, _, wrote) => wrote || !Active(n)
    case Updated(i, n) => n.IsReality() ==> !Active(s.nodes[i])
    case UpdateKept(i, n, _) => Load(Compile(s.nodes[i], opts)) == Load(Compile(n, opts))
    case Deleted(i, _) => !Active(s.nodes[i])
    case _ => true
  }

  lemma {:induction false} CreateFileIff(file: Config, nodes: seq<Node>, n: Node, wrote: bool, opts: Options)
    requires InSync(Load(file), nodes, opts) && Unknown(nodes, n.id)
    ensures var all := nodes + [n];
            var f := Load(Written(file, n, wrote, all, opts));
            && (InSync(f, all, opts) <==> wrote || !Active(n))
            && (InSync(f, nodes, opts) <==> !wrote || !Active(n))
  {
    var all := nodes + [n];
    AppendIds(nodes, n);
    StoredSyncsIff(Load(file), nodes, n, opts);
    assert Dropped(all, |nodes|) == nodes;
    ForgottenSyncsIff(Load(BuildConfig(all, opts)), all, |nodes|, opts);
  }

  lemma {:induction false} CreateFileStep(s: Sys, ev: Event, opts: Options)
    requires FileSynced(s, opts) && Possible(s, ev) && (ev.Created? || ev.CreateUndone? || ev.CreateKept?)
    ensures FileSynced(Next(s, ev, opts), opts) <==> FileClean(s, ev, opts)
  {
    CreateFileIff(s.file, s.nodes, ev.n, if ev.Created? then true else ev.wrote, opts);
  }

  lemma {:induction false} UpdateFileStep(s: Sys, ev: Event, opts: Options)
    requires FileSynced(s, opts) && Possible(s, ev) && (ev.Updated? || ev.UpdateKept?)
    ensures FileSynced(Next(s, ev, opts), opts) <==> FileClean(s, ev, opts)
  {
    if ev.Updated? {
      UpdatedSyncsIff(Load(s.file), s.nodes, ev.i, ev.n, opts);
      ReplaceOutside(s.nodes, ev.i, ev.n, opts);
    } else {
      RestoredSyncsIff(Load(s.file), s.nodes, ev.i, ev.n, opts);
    }
  }

  /** Every outcome of every handler, and a restart of gost, keeps the file in sync exactly when it is clean for the
      file. */
  lemma {:induction false} FileStepIff(s: Sys, ev: Event, opts: Options)
    requires FileSynced(s, opts) && Possible(s, ev)
    ensures FileSynced(Next(s, ev, opts), opts) <==> FileClean(s, ev, opts)
  {
    if ev.Created? || ev.CreateUndone? || ev.CreateKept? {
      CreateFileStep(s, ev, opts);
    } else if ev.Updated? || ev.UpdateKept? {
      UpdateFileStep(s, ev, opts);
    } else if ev.Deleted? {
      ForgottenSyncsIff(Load(s.file), s.nodes, ev.i, opts);
    }
  }

  lemma {:induction false} RestartIff(s: Sys, opts: Options)
    ensures EngineSynced(Next(s, EngineRestart, opts), opts) <==> FileSynced(s, opts)
  {
  }

  /** So when gost ends right after a handler and is started again on the file, the engine is in sync exactly when the
      handler was clean for the file. Deleting an active node is not: the node's services come back. */
  lemma {:induction false} RestartAfterIff(s: Sys, ev: Event, opts: Options)
    requires FileSynced(s, opts) && Possible(s, ev)
    ensures EngineSynced(Next(Next(s, ev, opts), EngineRestart, opts), opts) <==> FileClean(s, ev, opts)
  {
    FileStepIff(s, ev, opts);
    RestartIff(Next(s, ev, opts), opts);
  }

  /** A start of the panel repairs whatever went wrong. */
  lemma {:induction false} PanelStartRepairs(s: Sys, opts: Options)
    requires DistinctIds(s.nodes)
    ensures var t := Next(s, PanelStart, opts); t.nodes == s.nodes && EngineSynced(t, opts) && FileSynced(t, opts)
  {
  }

  // ---------- runs ----------

  /** The event writes the file from exactly the nodes that are then stored. */
  predicate Rewrites(s: Sys, ev: Event)
    requires ev.UpdateUndone? || ev.Deleted? || ev.DeleteKept? ==> ev.i < |s.nodes|
  {
    match ev
    case Created(n) => !n.IsReality()
    case CreateUndone(n, _, wrote) => wrote && !n.IsReality() && !Active(n)
    case CreateKept(n, _, wrote) => wrote && !n.IsReality()
    case Updated(_, n) => !n.IsReality()
    case UpdateUndone(i, _) => !s.nodes[i].IsReality()
    case Deleted(i, wrote) => wrote && !s.nodes[i].IsReality() && !Active(s.nodes[i])
    case DeleteKept(i, wrote) => wrote && !s.nodes[i].IsReality()
    case PanelStart => true
    case _ => false
  }

  /** Whether the file is known to be in sync after the event, from what was known before. */
  ghost function StillKnown(s: Sys, known: bool, ev: Event, opts: Options): bool
    requires Possible(s, ev)
  {
    Rewrites(s, ev) || (known && FileClean(s, ev, opts))
  }

  lemma {:induction false} RewriteSyncs(s: Sys, ev: Event, opts: Options)
    requires DistinctIds(s.nodes) && Possible(s, ev) && Rewrites(s, ev)
    ensures FileSynced(Next(s, ev, opts), opts)
  {
    match ev
    case Created(n) =>
      AppendIds(s.nodes, n);
    case CreateUndone(n, mid, _) =>
      AppendIds(s.nodes, n);
      assert Dropped(s.nodes + [n], |s.nodes|) == s.nodes;
      ForgottenSyncsIff(Load(BuildConfig(s.nodes + [n], opts)), s.nodes + [n], |s.nodes|, opts);
    case CreateKept(n, mid, _) =>
      AppendIds(s.nodes, n);
    case Updated(i, n) =>
      ReplaceOutside(s.nodes, i, n, opts);
    case Deleted(i, _) =>
      ForgottenSyncsIff(Load(BuildConfig(s.nodes, opts)), s.nodes, i, opts);
    case UpdateUndone(i, mid) =>
    case DeleteKept(i, _) =>
    case PanelStart =>
  }

  /** Every handler is clean, and gost is restarted only while the file is known to be in sync. */
  ghost predicate LegalRun(s: Sys, known: bool, evs: seq<Event>, opts: Options)
    decreases |evs|
  {
    evs == []
    || (&& Possible(s, evs[0]) && Clean(s, evs[0], opts) && (evs[0].EngineRestart? ==> known)
        && LegalRun(Next(s, evs[0], opts), StillKnown(s, known, evs[0], opts), evs[1..], opts))
  }

  ghost function After(s: Sys, known: bool, evs: seq<Event>, opts: Options): Sys
    requires LegalRun(s, known, evs, opts)
    decreases |evs|
  {
    if evs == [] then s
    else After(Next(s, evs[0], opts), StillKnown(s, known, evs[0], opts), evs[1..], opts)
  }

  lemma {:induction false} StepKeeps(s: Sys, known: bool, ev: Event, opts: Options)
    requires EngineSynced(s, opts) && (known ==> FileSynced(s, opts))
    requires Possible(s, ev) && Clean(s, ev, opts) && (ev.EngineRestart? ==> known)
    ensures var t := Next(s, ev, opts);
            EngineSynced(t, opts) && (StillKnown(s, known, ev, opts) ==> FileSynced(t, opts))
  {
    if !ev.EngineRestart? {
      StepSyncIff(s, ev, opts);
    }
    if Rewrites(s, ev) {
      RewriteSyncs(s, ev, opts);
    } else if known {
      FileStepIff(s, ev, opts);
    }
  }

  /** Incremental apply equals full rebuild: any run of creations, edits, toggles and deletions of gost and reality
      nodes, with failing writes and calls, roll-backs and restarts, whose handlers are clean and which restarts gost
      only while the file is known to be in sync, leaves the engine exactly what a full rebuild of the stored nodes
      gives. */
  lemma {:induction false} RunKeepsSync(s: Sys, known: bool, evs: seq<Event>, opts: Options)
    requires EngineSynced(s, opts) && (known ==> FileSynced(s, opts)) && LegalRun(s, known, evs, opts)
    ensures EngineSynced(After(s, known, evs, opts), opts)
    decreases |evs|
  {
    if evs != [] {
      StepKeeps(s, known, evs[0], opts);
      RunKeepsSync(Next(s, evs[0], opts), StillKnown(s, known, evs[0], opts), evs[1..], opts);
    }
  }

  /** The panel before its first node. */
  const EMPTY := Sys(map[], NOTHING, [])

  lemma {:induction false} EmptySynced(opts: Options)
    ensures EngineSynced(EMPTY, opts) && FileSynced(EMPTY, opts)
  {
    assert Items(NOTHING, Services) == Items(NOTHING, Quotas) == [];
    assert Items(NOTHING, Limiters) == Items(NOTHING, CLimiters) == [];
  }

  /** Two runs that end with the same nodes end with the same engine, whatever order they went in. */
  lemma {:induction false} RunsConverge(a: seq<Event>, b: seq<Event>, opts: Options)
    requires LegalRun(EMPTY, true, a, opts) && LegalRun(EMPTY, true, b, opts)
    requires forall n :: n in After(EMPTY, true, a, opts).nodes <==> n in After(EMPTY, true, b, opts).nodes
    ensures After(EMPTY, true, a, opts).engine == After(EMPTY, true, b, opts).engine
  {
    EmptySynced(opts);
    RunKeepsSync(EMPTY, true, a, opts);
    RunKeepsSync(EMPTY, true, b, opts);
    OrderFree(After(EMPTY, true, a, opts).nodes, After(EMPTY, true, b, opts).nodes, opts);
  }

  // ---------- the handlers ----------

  class Server {
    const ctl: Controller

    constructor (ctl: Controller)
      ensures this.ctl == ctl
    {
      this.ctl := ctl;
    }

    ghost function Now(): Sys
      reads ctl, ctl.engine
    {
      Sys(ctl.engine.state, ctl.file, ctl.nodes)
    }

    /** Whether an apply goes through when every call of the engine does: for gost nodes if the file can be written, for
        reality nodes if sing-box takes the node. */
    predicate Takes(n: Node, disk: bool, singBox: bool) {
      if n.IsReality() then singBox else disk
    }

    /** handleCreateNode: save, apply, and on failure remove and forget. `stored` and `forgot` are the outcomes of
        SaveNode and DeleteNode. `clean` tells that no engine call failed whose failure is ignored. */
    method Create(n: Node, stored: bool, disk: bool, singBox: bool, disk2: bool, forgot: bool)
      returns (ok: bool, ghost clean: bool, ghost ev: Event)
      requires forall m :: m in ctl.nodes ==> m.id != n.id
      modifies ctl, ctl.engine
      ensures ctl.nodes == if ok || (stored && !forgot) then old(ctl.nodes) + [n] else old(ctl.nodes)
      ensures OthersKept(old(ctl.engine.state), ctl.engine.state, n.id)
      ensures clean ==> Possible(old(Now()), ev) && Now() == Next(old(Now()), ev, ctl.opts)
      ensures clean ==> if !stored then ev == Refused && !ok
                        else if ok then ev == Created(n)
                        else if forgot then ev.CreateUndone? && ev.n == n && ev.wrote == disk2
                        else ev.CreateKept? && ev.n == n && ev.wrote == disk2
      ensures Reliable(ctl.engine.fate) ==> clean && ok == (stored && Takes(n, disk, singBox))
    {
      if !stored {
        return false, true, Refused;
      }
      ctl.nodes := ctl.nodes + [n];
      ghost var kept, gone;
      ok, kept := ctl.ApplyNode(n, disk, singBox);
      if ok {
        clean, ev := n.IsReality() || kept == {}, Created(n);
        NothingKept(old(ctl.engine.state), n, ctl.opts, kept);
      } else {
        ghost var mid := ctl.engine.state;
        var removed;
        removed, gone := ctl.RemoveNode(n, disk2);
        if forgot {
          ctl.nodes := ctl.nodes[..|ctl.nodes| - 1];
        }
        clean, ev := gone, if forgot then CreateUndone(n, mid, disk2) else CreateKept(n, mid, disk2);
      }
    }

    /** The roll-back of an update: save and apply the old node. `undone` tells that the apply went through. */
    method RollBack(i: nat, was: Node, disk: bool, singBox: bool) returns (ghost clean: bool, ghost undone: bool)
      requires i < |ctl.nodes|
      modifies ctl, ctl.engine
      ensures ctl.nodes == old(ctl.nodes)[i := was]
      ensures OthersKept(old(ctl.engine.state), ctl.engine.state, was.id)
      ensures clean && undone ==> ctl.engine.state == Applied(old(ctl.engine.state), was, ctl.opts)
      ensures ctl.file == if undone then Written(old(ctl.file), was, true, ctl.nodes, ctl.opts) else old(ctl.file)
      ensures undone || clean
      ensures Reliable(ctl.engine.fate) ==> clean && (disk ==> undone)
    {
      ctl.nodes := ctl.nodes[i := was];
      ghost var kept;
      var again;
      again, kept := ctl.ApplyNode(was, disk, singBox);
      NothingKept(old(ctl.engine.state), was, ctl.opts, kept);
      undone := again || was.IsReality();
      clean := !undone || was.IsReality() || kept == {};
    }

    /** handleUpdateNode: save and apply the new node; on failure save and apply the old one again, unless it cannot be
        saved. `stored` and `restored` are the outcomes of the two SaveNode calls. */
    method Update(i: nat, n: Node, stored: bool, disk: bool, singBox: bool, restored: bool, disk2: bool, singBox2: bool)
      returns (ok: bool, ghost clean: bool, ghost ev: Event)
      requires i < |ctl.nodes| && n.id == ctl.nodes[i].id
      modifies ctl, ctl.engine
      ensures ctl.nodes == if ok || (stored && !restored) then old(ctl.nodes)[i := n] else old(ctl.nodes)
      ensures OthersKept(old(ctl.engine.state), ctl.engine.state, n.id)
      ensures clean ==> Possible(old(Now()), ev) && Now() == Next(old(Now()), ev, ctl.opts)
      ensures clean ==> if !stored then ev == Refused && !ok
                        else if ok then ev == Updated(i, n)
                        else if !restored then ev == UpdateKept(i, n, ctl.engine.state)
                        else || (ev.UpdateUndone? && ev.i == i)
                             || ev == UpdateKept(i, old(ctl.nodes[i]), ctl.engine.state)
      ensures clean && n.IsReality() && ev.UpdateUndone? ==> ev.mid == old(ctl.engine.state)
      ensures Reliable(ctl.engine.fate) ==> clean && ok == (stored && Takes(n, disk, singBox))
      ensures Reliable(ctl.engine.fate) && stored && !ok && restored && disk2 ==> ev.UpdateUndone?
    {
      if !stored {
        return false, true, Refused;
      }
      var was := ctl.nodes[i];
      ctl.nodes := ctl.nodes[i := n];
      ghost var kept;
      ok, kept := ctl.ApplyNode(n, disk, singBox);
      ghost var mid := ctl.engine.state;
      if ok {
        clean, ev := n.IsReality() || kept == {}, Updated(i, n);
        NothingKept(old(ctl.engine.state), n, ctl.opts, kept);
      } else if restored {
        ghost var undone;
        clean, undone := RollBack(i, was, disk2, singBox2);
        assert ctl.nodes == old(ctl.nodes);
        ev := if undone then UpdateUndone(i, mid) else UpdateKept(i, was, ctl.engine.state);
      } else {
        clean, ev := true, UpdateKept(i, n, mid);
      }
    }

    /** handleToggleNode: save and apply; there is no roll-back. */
    method Toggle(i: nat, enabled: bool, stored: bool, disk: bool, singBox: bool)
      returns (ok: bool, ghost clean: bool, ghost ev: Event)
      requires i < |ctl.nodes|
      modifies ctl, ctl.engine
      ensures var n := old(ctl.nodes[i]).(enabled := enabled);
              && ctl.nodes == (if stored then old(ctl.nodes)[i := n] else old(ctl.nodes))
              && OthersKept(old(ctl.engine.state), ctl.engine.state, n.id)
              && (clean ==> Possible(old(Now()), ev) && Now() == Next(old(Now()), ev, ctl.opts))
              && (clean ==> if !stored then ev == Refused && !ok
                            else if ok then ev == Updated(i, n)
                            else ev == UpdateKept(i, n, ctl.engine.state))
              && (Reliable(ctl.engine.fate) ==> clean && ok == (stored && Takes(n, disk, singBox)))
    {
      if !stored {
        return false, true, Refused;
      }
      var n := ctl.nodes[i].(enabled := enabled);
      ctl.nodes := ctl.nodes[i := n];
      ghost var kept;
      ok, kept := ctl.ApplyNode(n, disk, singBox);
      if ok {
        clean, ev := n.IsReality() || kept == {}, Updated(i, n);
        NothingKept(old(ctl.engine.state), n, ctl.opts, kept);
      } else {
        clean, ev := true, UpdateKept(i, n, ctl.engine.state);
      }
    }

    /** handleDeleteNode: remove from the engine, errors ignored, then from the store. */
    method Delete(i: nat, disk: bool, forgot: bool) returns (ok: bool, ghost clean: bool, ghost ev: Event)
      requires i < |ctl.nodes|
      modifies ctl, ctl.engine
      ensures ok == forgot && ctl.nodes == if forgot then Dropped(old(ctl.nodes), i) else old(ctl.nodes)
      ensures OthersKept(old(ctl.engine.state), ctl.engine.state, old(ctl.nodes[i]).id)
      ensures ev == if forgot then Deleted(i, disk) else DeleteKept(i, disk)
      ensures clean ==> Possible(old(Now()), ev) && Now() == Next(old(Now()), ev, ctl.opts)
      ensures ctl.file == if disk && !old(ctl.nodes[i]).IsReality() then BuildConfig(old(ctl.nodes), ctl.opts)
                          else old(ctl.file)
      ensures Reliable(ctl.engine.fate) ==> clean
    {
      var removed;
      removed, clean := ctl.RemoveNode(ctl.nodes[i], disk);
      if forgot {
        ctl.nodes := ctl.nodes[..i] + ctl.nodes[i + 1..];
      }
      ok, ev := forgot, if forgot then Deleted(i, disk) else DeleteKept(i, disk);
    }
  }

  lemma {:induction false} NothingKept(e: State, n: Node, opts: Options, kept: set<Key>)
    ensures kept == {} ==> Kept(e, n, opts, kept) == Rebuilt(e, n, opts)
  {
  }
}

/** Runs of a whole mesh: convergence of every reachable state. */
module NetRuns {
  import opened VersionVectors
  import opened CopyNames
  import opened Versions
  import opened Decisions
  import opened Conflict
  import opened StoreModel
  import opened StoreLaws
  import opened OpSets
  import opened Resolution
  import opened ReplicaModel
  import opened Convergence

  type Net = map<NodeId, StoreState>

  datatype Step =
    | LocalWrite(node: NodeId, path: string, hash: Hash, mode: nat, meta: Option<Meta>)
    | LocalDelete(node: NodeId, path: string, mode: nat)
    | LocalRename(node: NodeId, source: string, target: string)
    | Deliver(node: NodeId, op: Op)

  function ChangeOf(h: Hashes, s: Step): LocalChange
    requires s.LocalWrite? || s.LocalDelete?
  {
    if s.LocalWrite? then LocalChange(s.path, Write, s.mode, h.sizeOf(s.hash), Some(s.hash), s.meta)
    else LocalChange(s.path, Delete, s.mode, 0, None, None)
  }

  /** There is something to move, and somewhere to move it. */
  predicate IsMove(st: StoreState, source: string, target: string) {
    source != target && source in st.files && !st.files[source].tombstone
  }

  /** The histories of the two paths count the same of every other node. */
  predicate LineagesAgree(st: StoreState, source: string, target: string) {
    var s, t := VvAt(st.files, source), VvAt(st.files, target);
    NothingForeign(s, t, st.node) && NothingForeign(t, s, st.node)
  }

  /**
   A node acts; a file is moved between paths whose lineages agree, and no
   conflict copy is moved; only ops some node has emitted are ever delivered,
   in any order, any number of times.
   */
  predicate Enabled(h: Hashes, net: Net, s: Step) {
    && s.node in net
    && (s.LocalRename? && IsMove(net[s.node], s.source, s.target) ==> !IsCopyName(s.source) && LineagesAgree(net[s.node], s.source, s.target))
    && (s.Deliver? ==>
          && s.op.origin in net && s.op in net[s.op.origin].oplog
          && (s.op.Id() !in net[s.node].applied ==> !Unsettled(h, net[s.node], s.op) && !SourceUnsettled(h, net[s.node], s.op)))
  }

  function Act(h: Hashes, st: StoreState, s: Step): StoreState {
    match s
    case Deliver(_, op) => Receive(h, st, op)
    case LocalRename(_, source, target) => AppendLocalRename(h, st, source, target).0
    case _ => AppendLocal(h, st, ChangeOf(h, s)).0
  }

  function Next(h: Hashes, net: Net, s: Step): Net {
    if s.node in net then net[s.node := Act(h, net[s.node], s)] else net
  }

  function Start(nodes: set<NodeId>): Net {
    map n | n in nodes :: Init(n)
  }

  function After(h: Hashes, net: Net, run: seq<Step>): Net
    decreases |run|
  {
    if run == [] then net else After(h, Next(h, net, run[0]), run[1..])
  }

  predicate ValidRun(h: Hashes, net: Net, run: seq<Step>)
    decreases |run|
  {
    run == [] || (Enabled(h, net, run[0]) && ValidRun(h, Next(h, net, run[0]), run[1..]))
  }

  // ---------------------------------------------------------------- invariants

  /** Every log holds proper ops, each also held by its origin, under unique ids. */
  ghost predicate LogOk(h: Hashes, net: Net, n: NodeId)
    requires n in net
  {
    && net[n].node == n && UniqueIds(net[n].oplog) && AllProper(h, net[n].oplog)
    && forall o :: o in net[n].oplog ==> o.origin in net && o in net[o.origin].oplog
  }

  ghost predicate LogsOk(h: Hashes, net: Net) {
    forall n {:trigger LogOk(h, net, n)} :: n in net ==> LogOk(h, net, n)
  }

  /** All ops emitted for `p`, as seen from it. */
  ghost function EmittedAt(net: Net, p: string): set<Op> {
    set n, o | n in net && o in OpsAt(net[n].oplog, p) :: o
  }

  /** A node's own component at `p` is at least what op `o` claims of it. */
  ghost predicate CountOk(net: Net, p: string, n: NodeId, o: Op)
    requires n in net
  {
    Get(o.vv, n) <= Get(VvAt(net[n].files, p), n)
  }

  /** What holds at `p` when `all` is everything emitted for it. */
  ghost predicate PathOkFor(h: Hashes, net: Net, p: string, all: set<Op>) {
    && Causal(all)
    && (forall n, o {:trigger CountOk(net, p, n, o)} :: n in net && o in all ==> CountOk(net, p, n, o))
    && forall n {:trigger RowOk(h, net[n], p)} :: n in net ==> RowOk(h, net[n], p)
  }

  ghost predicate PathOk(h: Hashes, net: Net, p: string) {
    PathOkFor(h, net, p, EmittedAt(net, p))
  }

  /** The logs are in order, and so is every path that is not a copy name. */
  ghost predicate NetOk(h: Hashes, net: Net) {
    LogsOk(h, net) && forall p {:trigger PathOk(h, net, p)} :: !IsCopyName(p) ==> PathOk(h, net, p)
  }

  lemma EmittedIs(net: Net, p: string, o: Op)
    ensures o in EmittedAt(net, p) <==> exists n :: n in net && o in OpsAt(net[n].oplog, p)
  {
  }

  lemma HeldIsEmitted(net: Net, p: string, n: NodeId)
    requires n in net
    ensures OpsAt(net[n].oplog, p) <= EmittedAt(net, p)
  {
  }

  lemma ViewIsHeld(oplog: seq<Op>, p: string, o: Op)
    requires o in oplog && Affects(o, p)
    ensures View(o, p) in OpsAt(oplog, p)
  {
  }

  lemma StartOk(h: Hashes, nodes: set<NodeId>)
    ensures NetOk(h, Start(nodes))
  {
    forall p | !IsCopyName(p) ensures PathOk(h, Start(nodes), p) {
      assert EmittedAt(Start(nodes), p) == {};
    }
  }

  /** Everything emitted is plain as its path sees it. */
  lemma EmittedIsPlain(h: Hashes, net: Net, p: string, v: Op)
    requires LogsOk(h, net) && v in EmittedAt(net, p)
    ensures Plain(h, v)
  {
    EmittedIs(net, p, v);
    var n :| n in net && v in OpsAt(net[n].oplog, p);
    assert LogOk(h, net, n);
    HeldIsPlain(h, net[n].oplog, p, v);
  }

  lemma HeldIsPlain(h: Hashes, oplog: seq<Op>, p: string, v: Op)
    requires AllProper(h, oplog) && v in OpsAt(oplog, p)
    ensures Plain(h, v) && v.path == p
  {
    var o :| o in oplog && Affects(o, p) && View(o, p) == v;
    assert Proper(h, o);
    ViewIsPlain(h, o, p);
  }

  // --------------------------------------------------------------------- logs

  lemma UniqueIdIsSameOp(oplog: seq<Op>, a: Op, b: Op)
    requires UniqueIds(oplog) && a in oplog && b in oplog && a.Id() == b.Id()
    ensures a == b
  {
    var i :| 0 <= i < |oplog| && oplog[i] == a;
    var j :| 0 <= j < |oplog| && oplog[j] == b;
  }

  /** An emitted op whose id is logged is itself logged. */
  lemma LoggedIsHeld(h: Hashes, net: Net, n: NodeId, op: Op)
    requires LogsOk(h, net) && n in net && op.origin in net && op in net[op.origin].oplog
    ensures Logged(net[n].oplog, op.Id()) ==> op in net[n].oplog
  {
    if Logged(net[n].oplog, op.Id()) {
      var o :| o in net[n].oplog && o.Id() == op.Id();
      assert LogOk(h, net, n) && LogOk(h, net, op.origin);
      UniqueIdIsSameOp(net[op.origin].oplog, o, op);
    }
  }

  /** The op a step records at its node, if any. */
  function StepOp(h: Hashes, st: StoreState, s: Step): Option<Op> {
    match s
    case Deliver(_, op) => if op.Id() in st.applied then None else Some(op)
    case LocalRename(_, source, target) => if IsMove(st, source, target) then Some(RenameOp(h, st, source, target)) else None
    case _ => var c := ChangeOf(h, s); if IsNoOp(h, Load(st.files, c.path), c) then None else Some(LocalOp(h, st, c))
  }

  lemma ActLog(h: Hashes, st: StoreState, s: Step)
    requires s.Deliver? ==> s.op.WellFormed()
    ensures Act(h, st, s).node == st.node
    ensures StepOp(h, st, s).None? ==> Act(h, st, s) == st
    ensures StepOp(h, st, s).Some? ==> Act(h, st, s).oplog == InsertOp(st.oplog, StepOp(h, st, s).value)
  {
    if s.Deliver? && s.op.Id() !in st.applied {
      ReceiveLogs(h, st, s.op);
    }
  }

  /** A live row that means some ops carries their content and size. */
  lemma LiveRow(h: Hashes, st: StoreState, p: string)
    requires AllProper(h, st.oplog) && RowOk(h, st, p) && p in st.files && !st.files[p].tombstone
    ensures st.files[p].hash.Some? && st.files[p].size == h.sizeOf(st.files[p].hash.value)
  {
    var w := WinnerOf(h, OpsAt(st.oplog, p), st.files[p]);
    HeldIsPlain(h, st.oplog, p, w);
  }

  lemma StepOpIsProper(h: Hashes, st: StoreState, s: Step)
    requires AllProper(h, st.oplog) && StepOp(h, st, s).Some? && (s.Deliver? ==> Proper(h, s.op))
    requires s.LocalRename? ==> RowOk(h, st, s.source)
    ensures Proper(h, StepOp(h, st, s).value)
  {
    if s.LocalRename? {
      LiveRow(h, st, s.source);
    }
  }

  lemma StepOpIsLogged(h: Hashes, st: StoreState, s: Step)
    requires StepOp(h, st, s).Some? && (s.Deliver? ==> s.op.WellFormed())
    ensures (s.Deliver? ==> s.op in st.oplog) ==> StepOp(h, st, s).value in Act(h, st, s).oplog
  {
    ActLog(h, st, s);
    FreshId(st.oplog, st.node);
  }

  lemma StepKeepsLogs(h: Hashes, net: Net, s: Step)
    requires NetOk(h, net) && Enabled(h, net, s)
    ensures LogsOk(h, Next(h, net, s))
  {
    var st := net[s.node];
    assert LogOk(h, net, s.node);
    if s.Deliver? {
      assert LogOk(h, net, s.op.origin) && Proper(h, s.op);
    }
    ActLog(h, st, s);
    if StepOp(h, st, s).Some? {
      var op := StepOp(h, st, s).value;
      if s.LocalRename? {
        assert PathOk(h, net, s.source) && RowOk(h, st, s.source);
      }
      StepOpIsProper(h, st, s);
      StepOpIsLogged(h, st, s);
      OpKeepsLogs(h, net, s.node, Act(h, st, s), op);
    } else {
      assert Next(h, net, s) == net;
    }
  }

  lemma OpKeepsLogs(h: Hashes, net: Net, m: NodeId, st: StoreState, op: Op)
    requires LogsOk(h, net) && m in net && st.node == m && st.oplog == InsertOp(net[m].oplog, op) && Proper(h, op)
    requires op.origin in net && (op.origin == m || op in net[op.origin].oplog) && (op.origin == m ==> op in st.oplog)
    ensures LogsOk(h, net[m := st])
  {
    assert LogOk(h, net, m);
    InsertKeepsIds(net[m].oplog, op);
    var net' := net[m := st];
    forall n | n in net' ensures LogOk(h, net', n) {
      assert LogOk(h, net, n);
      StepLogAt(h, net, m, st, op, n);
    }
  }

  /** One log grows by a proper op its origin holds; every log stays in order. */
  lemma StepLogAt(h: Hashes, net: Net, m: NodeId, st: StoreState, op: Op, n: NodeId)
    requires m in net && n in net && LogOk(h, net, n) && LogOk(h, net, m) && st.node == m
    requires st.oplog == InsertOp(net[m].oplog, op) && UniqueIds(st.oplog)
    requires Proper(h, op) && op.origin in net && (op.origin == m || op in net[op.origin].oplog) && (op.origin == m ==> op in st.oplog)
    ensures LogOk(h, net[m := st], n)
  {
    var net' := net[m := st];
    forall o | o in net'[n].oplog ensures Proper(h, o) && o.origin in net' && o in net'[o.origin].oplog {
      if o in net[n].oplog {
        assert o in net[o.origin].oplog;
      }
    }
  }

  // --------------------------------------------------------- deliveries at a path

  lemma VvClimbs(a: map<string, Version>, b: map<string, Version>, p: string, n: NodeId)
    requires Climbs(a, b)
    ensures Get(VvAt(a, p), n) <= Get(VvAt(b, p), n)
  {
    if p in a {
      LeqAt(a[p].vv, b[p].vv, n);
    }
  }

  lemma SameRow(h: Hashes, a: StoreState, b: StoreState, p: string)
    requires Load(a.files, p) == Load(b.files, p) && OpsAt(a.oplog, p) == OpsAt(b.oplog, p) && RowOk(h, a, p)
    ensures RowOk(h, b, p)
  {
  }

  /** One node's set at `p` grows by `more`. */
  lemma EmittedGrows(net: Net, n: NodeId, st: StoreState, p: string, more: set<Op>)
    requires n in net && OpsAt(st.oplog, p) == OpsAt(net[n].oplog, p) + more
    ensures EmittedAt(net[n := st], p) == EmittedAt(net, p) + more
  {
    var net' := net[n := st];
    forall o ensures o in EmittedAt(net', p) <==> o in EmittedAt(net, p) + more {
      if o in EmittedAt(net', p) {
        var m :| m in net' && o in OpsAt(net'[m].oplog, p);
        assert o in more || o in OpsAt(net[m].oplog, p);
      }
      if o in EmittedAt(net, p) {
        var m :| m in net && o in OpsAt(net[m].oplog, p);
        assert o in OpsAt(net'[m].oplog, p);
      }
      if o in more {
        assert o in OpsAt(net'[n].oplog, p);
      }
    }
  }

  /** A delivery adds nothing to what was emitted. */
  lemma DeliveryEmitsNothing(h: Hashes, net: Net, n: NodeId, op: Op, p: string)
    requires LogsOk(h, net) && n in net && op.origin in net && op in net[op.origin].oplog
    ensures EmittedAt(net[n := Receive(h, net[n], op)], p) == EmittedAt(net, p)
  {
    assert LogOk(h, net, op.origin) && Proper(h, op);
    if op.Id() in net[n].applied {
      assert net[n := Receive(h, net[n], op)] == net;
    } else {
      ReceiveLogs(h, net[n], op);
      LoggedIsHeld(h, net, n, op);
      OpsAtInsert(net[n].oplog, op, p);
      EmittedGrows(net, n, Receive(h, net[n], op), p, Adds(op, p));
      AddsIsEmitted(net, op, p);
      assert EmittedAt(net, p) + Adds(op, p) == EmittedAt(net, p);
    }
  }

  lemma AddsIsEmitted(net: Net, op: Op, p: string)
    requires op.origin in net && op in net[op.origin].oplog
    ensures Adds(op, p) <= EmittedAt(net, p)
  {
    if Affects(op, p) {
      ViewIsHeld(net[op.origin].oplog, p, op);
      HeldIsEmitted(net, p, op.origin);
    }
  }

  lemma DeliveryKeepsRow(h: Hashes, net: Net, s: Step, p: string, all: set<Op>)
    requires LogsOk(h, net) && Enabled(h, net, s) && s.Deliver? && !IsCopyName(p)
    requires all == EmittedAt(net, p) && Causal(all) && RowOk(h, net[s.node], p)
    ensures RowOk(h, Receive(h, net[s.node], s.op), p)
  {
    var n, op := s.node, s.op;
    assert LogOk(h, net, op.origin) && LogOk(h, net, n);
    assert Proper(h, op);
    if !Affects(op, p) {
      ReceiveFrame(h, net[n], op, p);
      SameRow(h, net[n], Receive(h, net[n], op), p);
    } else if op.Id() !in net[n].applied {
      LoggedIsHeld(h, net, n, op);
      HeldIsEmitted(net, p, n);
      AddsIsEmitted(net, op, p);
      ReceiveKeepsRow(h, net[n], op, p, all);
    }
  }

  /** Replacing one node's state by a climbed one keeps the path's invariant. */
  lemma ReplaceKeepsPath(h: Hashes, net: Net, n: NodeId, st': StoreState, p: string, all: set<Op>)
    requires n in net && PathOkFor(h, net, p, all) && RowOk(h, st', p) && Climbs(net[n].files, st'.files)
    ensures PathOkFor(h, net[n := st'], p, all)
  {
    var net' := net[n := st'];
    forall m, o | m in net' && o in all ensures CountOk(net', p, m, o) {
      assert CountOk(net, p, m, o);
      if m == n {
        VvClimbs(net[n].files, st'.files, p, n);
      }
    }
    forall m | m in net' ensures RowOk(h, net'[m], p) {
      assert m != n ==> RowOk(h, net[m], p);
    }
  }

  lemma DeliveryKeepsPath(h: Hashes, net: Net, s: Step, p: string)
    requires LogsOk(h, net) && Enabled(h, net, s) && s.Deliver? && PathOk(h, net, p) && !IsCopyName(p)
    ensures PathOk(h, Next(h, net, s), p)
  {
    var st := net[s.node];
    DeliveryEmitsNothing(h, net, s.node, s.op, p);
    assert RowOk(h, st, p);
    DeliveryKeepsRow(h, net, s, p, EmittedAt(net, p));
    ReceiveClimbs(h, st, s.op);
    ReplaceKeepsPath(h, net, s.node, Receive(h, st, s.op), p, EmittedAt(net, p));
  }

  // --------------------------------------------------------- local ops at a path

  /**
   Emitting `e` at a path: the log gains it, the row becomes it, and its vector
   is the row's, joined with a lineage `x` that counts no other node further,
   one own count up.
   */
  ghost predicate EmitsAt(h: Hashes, st: StoreState, st': StoreState, e: Op, p: string, x: VersionVector) {
    && e.origin == st.node == st'.node && Affects(e, p) && Proper(h, e) && st'.oplog == st.oplog + [e]
    && Load(st'.files, p) == Some(OpRow(View(e, p), e.vv)) && Climbs(st.files, st'.files)
    && e.vv == Increment(Join(x, VvAt(st.files, p)), st.node) && NothingForeign(x, VvAt(st.files, p), st.node)
  }

  lemma JoinNothing(s: VersionVector)
    ensures Join(s, map[]) == s && Join(map[], s) == s
  {
    JoinAbsorbs(map[], s);
  }

  /** A change that is not a no-op logs its op and installs it as the row. */
  lemma AppendEffect(h: Hashes, st: StoreState, c: LocalChange)
    requires c.WellFormed() && c.kind != Rename && !IsNoOp(h, Load(st.files, c.path), c)
    ensures var st' := AppendLocal(h, st, c).0;
            var e := LocalOp(h, st, c);
            && st'.oplog == st.oplog + [e] && st'.files == st.files[c.path := OpRow(e, e.vv)]
  {
    FreshId(st.oplog, st.node);
  }

  lemma ChangeEmits(h: Hashes, st: StoreState, s: Step)
    requires s.LocalWrite? || s.LocalDelete?
    requires !IsNoOp(h, Load(st.files, s.path), ChangeOf(h, s))
    ensures var c := ChangeOf(h, s); EmitsAt(h, st, AppendLocal(h, st, c).0, LocalOp(h, st, c), s.path, map[])
  {
    var c := ChangeOf(h, s);
    AppendEffect(h, st, c);
    AppendClimbs(h, st, c);
    JoinNothing(VvAt(st.files, c.path));
  }

  lemma RenameEffect(h: Hashes, st: StoreState, source: string, target: string)
    requires IsMove(st, source, target)
    ensures var st' := AppendLocalRename(h, st, source, target).0;
            var e := RenameOp(h, st, source, target);
            && st'.oplog == st.oplog + [e] && st'.node == st.node
            && st'.files == st.files[source := SourceTombstone(e.vv, e.uuid)][target := Version(false, e.hash, e.meta, e.mode, e.size, e.vv, e.uuid)]
            && e.vv == Increment(Join(st.files[source].vv, VvAt(st.files, target)), st.node)
  {
    FreshId(st.oplog, st.node);
    JoinNothing(st.files[source].vv);
  }

  lemma RenameEmitsAt(h: Hashes, st: StoreState, source: string, target: string, p: string)
    requires IsMove(st, source, target) && LineagesAgree(st, source, target) && (p == source || p == target)
    requires Proper(h, RenameOp(h, st, source, target))
    ensures EmitsAt(h, st, AppendLocalRename(h, st, source, target).0, RenameOp(h, st, source, target), p,
                    VvAt(st.files, if p == source then target else source))
  {
    RenameEffect(h, st, source, target);
    RenameClimbs(h, st, source, target);
    SameJoin(VvAt(st.files, source), VvAt(st.files, target));
  }

  lemma SameJoin(a: VersionVector, b: VersionVector)
    ensures Join(a, b) == Join(b, a)
  {
    JoinSemilattice(a, b, a);
  }

  /** The new op lies above everything its node holds for the path. */
  lemma EmittedDominates(h: Hashes, st: StoreState, st': StoreState, e: Op, p: string, x: VersionVector, o: Op)
    requires EmitsAt(h, st, st', e, p, x) && RowOk(h, st, p) && o in OpsAt(st.oplog, p)
    ensures Less(o.vv, e.vv)
  {
    EmitsAbove(x, VvAt(st.files, p), st.node);
    LessTransitive(o.vv, st.files[p].vv, e.vv);
  }

  lemma EmittedMeans(h: Hashes, st: StoreState, st': StoreState, e: Op, p: string, x: VersionVector)
    requires EmitsAt(h, st, st', e, p, x) && RowOk(h, st, p)
    ensures OpsAt(st'.oplog, p) == OpsAt(st.oplog, p) + {View(e, p)} && RowOk(h, st', p)
  {
    var s, v := OpsAt(st.oplog, p), View(e, p);
    OpsAtAppend(st.oplog, e, p);
    ViewIsPlain(h, e, p);
    forall o | o in s ensures Less(o.vv, v.vv) {
      EmittedDominates(h, st, st', e, p, x, o);
    }
    DominatingMeaning(h, s, v, OpRow(v, v.vv));
    assert v in s + {v};
  }

  lemma HeldJoin(h: Hashes, st: StoreState, p: string)
    requires RowOk(h, st, p)
    ensures IsJoin(VvAt(st.files, p), OpsAt(st.oplog, p))
  {
  }

  /** Causal closure survives a local op. */
  lemma LocalKeepsCausal(h: Hashes, net: Net, n: NodeId, st': StoreState, e: Op, p: string, x: VersionVector)
    requires LogsOk(h, net) && n in net && PathOk(h, net, p) && EmitsAt(h, net[n], st', e, p, x)
    ensures Causal(EmittedAt(net, p) + {View(e, p)})
  {
    var all := EmittedAt(net, p);
    assert LogOk(h, net, n) && RowOk(h, net[n], p);
    HeldJoin(h, net[n], p);
    HeldIsEmitted(net, p, n);
    forall o | o in all ensures Get(o.vv, n) <= Get(VvAt(net[n].files, p), n) && Get(o.vv, o.origin) > 0 {
      assert CountOk(net, p, n, o);
      EmittedIsPlain(h, net, p, o);
    }
    assert View(e, p).Id() == e.Id();
    CausalExtends(all, OpsAt(net[n].oplog, p), x, VvAt(net[n].files, p), View(e, p));
  }

  /** The new op claims of other nodes no more than some op already emitted. */
  lemma EmittedCounts(h: Hashes, net: Net, n: NodeId, st': StoreState, e: Op, p: string, x: VersionVector, m: NodeId)
    requires n in net && m in net && net[n].node == n && m != n && PathOk(h, net, p) && EmitsAt(h, net[n], st', e, p, x)
    ensures CountOk(net, p, m, View(e, p))
  {
    HeldCount(h, net, n, p, m);
    assert Get(e.vv, m) == Get(Join(x, VvAt(net[n].files, p)), m);
  }

  /** A row claims of another node no more than that node counts itself. */
  lemma HeldCount(h: Hashes, net: Net, n: NodeId, p: string, m: NodeId)
    requires n in net && m in net && PathOk(h, net, p)
    ensures Get(VvAt(net[n].files, p), m) <= Get(VvAt(net[m].files, p), m)
  {
    assert RowOk(h, net[n], p);
    if p in net[n].files && m in net[n].files[p].vv {
      var o := MeaningHasWitness(h, OpsAt(net[n].oplog, p), net[n].files[p], m);
      HeldIsEmitted(net, p, n);
      assert CountOk(net, p, m, o);
    }
  }

  lemma EmissionKeepsPath(h: Hashes, net: Net, n: NodeId, st': StoreState, e: Op, p: string, x: VersionVector)
    requires LogsOk(h, net) && n in net && PathOk(h, net, p) && EmitsAt(h, net[n], st', e, p, x)
    ensures PathOk(h, net[n := st'], p)
  {
    var all, v := EmittedAt(net, p), View(e, p);
    assert LogOk(h, net, n) && RowOk(h, net[n], p);
    EmittedMeans(h, net[n], st', e, p, x);
    EmittedGrows(net, n, st', p, {v});
    LocalKeepsCausal(h, net, n, st', e, p, x);
    ReplaceKeepsPath(h, net, n, st', p, all);
    EmissionCounts(h, net, n, st', e, p, x, net[n := st']);
    AddOpKeepsPath(h, net[n := st'], p, all, v);
  }

  lemma EmissionCounts(h: Hashes, net: Net, n: NodeId, st': StoreState, e: Op, p: string, x: VersionVector, net': Net)
    requires n in net && net[n].node == n && PathOk(h, net, p) && EmitsAt(h, net[n], st', e, p, x) && net' == net[n := st']
    ensures forall m {:trigger CountOk(net', p, m, View(e, p))} :: m in net' ==> CountOk(net', p, m, View(e, p))
  {
    forall m | m in net' ensures CountOk(net', p, m, View(e, p)) {
      if m != n {
        EmittedCounts(h, net, n, st', e, p, x, m);
      }
    }
  }

  lemma AddOpKeepsPath(h: Hashes, net: Net, p: string, all: set<Op>, v: Op)
    requires PathOkFor(h, net, p, all) && Causal(all + {v}) && forall m {:trigger CountOk(net, p, m, v)} :: m in net ==> CountOk(net, p, m, v)
    ensures PathOkFor(h, net, p, all + {v})
  {
    forall m, o | m in net && o in all + {v} ensures CountOk(net, p, m, o) {
      if o in all {
        assert CountOk(net, p, m, o);
      }
    }
  }

  /** A path a local op does not affect stays as it is. */
  lemma EmissionFrame(h: Hashes, net: Net, n: NodeId, st': StoreState, e: Op, p: string)
    requires n in net && PathOk(h, net, p) && !Affects(e, p) && st'.oplog == net[n].oplog + [e]
    requires Load(st'.files, p) == Load(net[n].files, p) && Climbs(net[n].files, st'.files)
    ensures PathOk(h, net[n := st'], p)
  {
    assert RowOk(h, net[n], p);
    OpsAtAppend(net[n].oplog, e, p);
    EmittedGrows(net, n, st', p, {});
    SameRow(h, net[n], st', p);
    ReplaceKeepsPath(h, net, n, st', p, EmittedAt(net, p));
  }

  lemma ChangeKeepsPath(h: Hashes, net: Net, s: Step, p: string)
    requires LogsOk(h, net) && s.node in net && PathOk(h, net, p) && (s.LocalWrite? || s.LocalDelete?)
    ensures PathOk(h, Next(h, net, s), p)
  {
    var c, st := ChangeOf(h, s), net[s.node];
    if IsNoOp(h, Load(st.files, c.path), c) {
      assert Next(h, net, s) == net;
    } else {
      ChangeEmits(h, st, s);
      if p == c.path {
        EmissionKeepsPath(h, net, s.node, AppendLocal(h, st, c).0, LocalOp(h, st, c), p, map[]);
      } else {
        AppendEffect(h, st, c);
        EmissionFrame(h, net, s.node, AppendLocal(h, st, c).0, LocalOp(h, st, c), p);
      }
    }
  }

  lemma RenameKeepsPath(h: Hashes, net: Net, s: Step, p: string)
    requires NetOk(h, net) && Enabled(h, net, s) && s.LocalRename? && !IsCopyName(p)
    ensures PathOk(h, Next(h, net, s), p)
  {
    var st := net[s.node];
    assert PathOk(h, net, p);
    if !IsMove(st, s.source, s.target) {
      assert Next(h, net, s) == net;
    } else {
      assert LogOk(h, net, s.node) && PathOk(h, net, s.source) && RowOk(h, st, s.source);
      MoveKeepsPath(h, net, s.node, s.source, s.target, p);
    }
  }

  lemma MoveKeepsPath(h: Hashes, net: Net, n: NodeId, source: string, target: string, p: string)
    requires LogsOk(h, net) && n in net && PathOk(h, net, p) && IsMove(net[n], source, target) && LineagesAgree(net[n], source, target)
    requires AllProper(h, net[n].oplog) && RowOk(h, net[n], source)
    ensures PathOk(h, net[n := AppendLocalRename(h, net[n], source, target).0], p)
  {
    if p == target || p == source {
      StepOpIsProper(h, net[n], LocalRename(n, source, target));
      MoveKeepsAffected(h, net, n, source, target, p);
    } else {
      MoveKeepsOther(h, net, n, source, target, p);
    }
  }

  lemma MoveKeepsAffected(h: Hashes, net: Net, n: NodeId, source: string, target: string, p: string)
    requires LogsOk(h, net) && n in net && PathOk(h, net, p) && IsMove(net[n], source, target) && LineagesAgree(net[n], source, target)
    requires Proper(h, RenameOp(h, net[n], source, target)) && (p == source || p == target)
    ensures PathOk(h, net[n := AppendLocalRename(h, net[n], source, target).0], p)
  {
    var st := net[n];
    RenameEmitsAt(h, st, source, target, p);
    EmissionKeepsPath(h, net, n, AppendLocalRename(h, st, source, target).0, RenameOp(h, st, source, target), p,
                      VvAt(st.files, if p == source then target else source));
  }

  lemma MoveKeepsOther(h: Hashes, net: Net, n: NodeId, source: string, target: string, p: string)
    requires n in net && PathOk(h, net, p) && IsMove(net[n], source, target) && p != source && p != target
    ensures PathOk(h, net[n := AppendLocalRename(h, net[n], source, target).0], p)
  {
    var st := net[n];
    RenameEffect(h, st, source, target);
    RenameClimbs(h, st, source, target);
    EmissionFrame(h, net, n, AppendLocalRename(h, st, source, target).0, RenameOp(h, st, source, target), p);
  }

  /** Every step keeps every non-copy path's invariant. */
  lemma StepKeepsPath(h: Hashes, net: Net, s: Step, p: string)
    requires NetOk(h, net) && Enabled(h, net, s) && !IsCopyName(p)
    ensures PathOk(h, Next(h, net, s), p)
  {
    assert PathOk(h, net, p);
    match s {
      case Deliver(_, _) => DeliveryKeepsPath(h, net, s, p);
      case LocalRename(_, _, _) => RenameKeepsPath(h, net, s, p);
      case _ => ChangeKeepsPath(h, net, s, p);
    }
  }

  lemma StepKeepsNet(h: Hashes, net: Net, s: Step)
    requires NetOk(h, net) && Enabled(h, net, s)
    ensures NetOk(h, Next(h, net, s))
  {
    StepKeepsLogs(h, net, s);
    forall p | !IsCopyName(p) ensures PathOk(h, Next(h, net, s), p) {
      StepKeepsPath(h, net, s, p);
    }
  }

  lemma {:induction false} RunKeepsNet(h: Hashes, net: Net, run: seq<Step>)
    requires NetOk(h, net) && ValidRun(h, net, run)
    ensures NetOk(h, After(h, net, run))
    decreases |run|
  {
    if run != [] {
      StepKeepsNet(h, net, run[0]);
      RunKeepsNet(h, Next(h, net, run[0]), run[1..]);
    }
  }

  // ------------------------------------------------------------------- theorems

  /**
   Refinement by causal closure, for every run: emitted ops of a path, renames
   included, are causally closed, and each replica's incrementally kept row is
   the largest-key undominated op of everything it received, with all their
   vectors joined. An op some received op supersedes never wins.
   */
  lemma RowIsMeaningOfOps(h: Hashes, nodes: set<NodeId>, run: seq<Step>, n: NodeId, p: string)
    requires ValidRun(h, Start(nodes), run) && n in nodes && !IsCopyName(p)
    ensures var net := After(h, Start(nodes), run);
            && n in net && Causal(EmittedAt(net, p))
            && (OpsAt(net[n].oplog, p) != {} <==> p in net[n].files)
            && (p in net[n].files ==> Means(h, OpsAt(net[n].oplog, p), net[n].files[p]))
  {
    StartOk(h, nodes);
    RunKeepsNet(h, Start(nodes), run);
    NodesStay(h, Start(nodes), run);
    var net := After(h, Start(nodes), run);
    assert n in net && PathOk(h, net, p) && RowOk(h, net[n], p);
  }

  lemma {:induction false} NodesStay(h: Hashes, net: Net, run: seq<Step>)
    ensures After(h, net, run).Keys == net.Keys
    decreases |run|
  {
    if run != [] {
      NodesStay(h, Next(h, net, run[0]), run[1..]);
    }
  }

  /**
   Convergence: in every run, two replicas that have received the same set of
   ops for a path hold the same row for it, in every field, if the metadata
   hash tells those ops' snapshots apart.
   */
  lemma Converges(h: Hashes, nodes: set<NodeId>, run: seq<Step>, a: NodeId, b: NodeId, p: string)
    requires ValidRun(h, Start(nodes), run) && a in nodes && b in nodes && !IsCopyName(p)
    requires var net := After(h, Start(nodes), run);
             && a in net && b in net && OpsAt(net[a].oplog, p) == OpsAt(net[b].oplog, p)
             && h.TellsMetas(Metas(OpsAt(net[a].oplog, p)))
    ensures var net := After(h, Start(nodes), run);
            Load(net[a].files, p) == Load(net[b].files, p)
  {
    RowIsMeaningOfOps(h, nodes, run, a, p);
    RowIsMeaningOfOps(h, nodes, run, b, p);
    StartOk(h, nodes);
    RunKeepsNet(h, Start(nodes), run);
    var net := After(h, Start(nodes), run);
    if p in net[a].files {
      assert LogOk(h, net, a);
      forall o | o in OpsAt(net[a].oplog, p) ensures Plain(h, o) {
        HeldIsPlain(h, net[a].oplog, p, o);
      }
      MeaningIsUnique(h, OpsAt(net[a].oplog, p), net[a].files[p], net[b].files[p]);
    }
  }
}

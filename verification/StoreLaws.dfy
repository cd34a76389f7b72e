/** What every sequence of store commands keeps. */
module StoreLaws {
  import opened VersionVectors
  import opened CopyNames
  import opened Versions
  import opened Decisions
  import opened Conflict
  import opened PlanLaws
  import opened StoreModel

  /** No row disappears, no vector falls, and a row changes only when its vector strictly grows. */
  ghost predicate Climbs(a: map<string, Version>, b: map<string, Version>) {
    forall p :: p in a ==> p in b && Leq(a[p].vv, b[p].vv) && (a[p].vv == b[p].vv ==> a[p] == b[p])
  }

  datatype Command =
    | DoAppend(change: LocalChange)
    | DoRename(source: string, target: string)
    | DoApply(op: Op, decision: Decision)
    | DoReconcile(path: string, row: Version)
    | DoResolve(at: string, remote: Version, staged: seq<Planned>)
    | DoAdvanceRecv(peer: NodeId, origin: NodeId, upTo: int)
    | DoAck(acker: NodeId, ackTo: int)

  function Exec(h: Hashes, st: StoreState, c: Command): StoreState {
    match c
    case DoAppend(change) => AppendLocal(h, st, change).0
    case DoRename(source, target) => AppendLocalRename(h, st, source, target).0
    case DoApply(op, decision) => ApplyRemote(st, op, decision).0
    case DoReconcile(path, row) => ReconcileUpsert(st, path, row).0
    case DoResolve(path, remote, staged) => ResolveRows(h, st, path, remote, staged).0
    case DoAdvanceRecv(peer, origin, upTo) => st.(recv := Raise(st.recv, peer, origin, upTo))
    case DoAck(acker, ackTo) => st.(acked := Raise(st.acked, acker, st.node, ackTo))
  }

  function ExecAll(h: Hashes, st: StoreState, cs: seq<Command>): StoreState
    decreases |cs|
  {
    if cs == [] then st else ExecAll(h, Exec(h, st, cs[0]), cs[1..])
  }

  lemma ClimbsTransitive(a: map<string, Version>, b: map<string, Version>, c: map<string, Version>)
    requires Climbs(a, b) && Climbs(b, c)
    ensures Climbs(a, c)
  {
    forall p | p in a ensures p in c && Leq(a[p].vv, c[p].vv) && (a[p].vv == c[p].vv ==> a[p] == c[p]) {
      LeqTransitive(a[p].vv, b[p].vv, c[p].vv);
      if a[p].vv == c[p].vv {
        LeqAntisymmetric(a[p].vv, b[p].vv);
      }
    }
  }

  lemma UpdateClimbs(files: map<string, Version>, path: string, row: Version)
    requires path in files ==> Less(files[path].vv, row.vv)
    ensures Climbs(files, files[path := row])
  {
  }

  // ---------------------------------------------------------------- committing

  /** Committing a plan with distinct paths writes exactly its rows. */
  lemma {:induction false} CommitIs(files: map<string, Version>, rows: seq<Planned>)
    requires DistinctPaths(rows)
    ensures forall i :: 0 <= i < |rows| ==> rows[i].path in Commit(files, rows) && Commit(files, rows)[rows[i].path] == rows[i].row
    ensures forall p :: !PlannedAt(rows, p) ==> Load(Commit(files, rows), p) == Load(files, p)
  {
    if rows != [] {
      var init := rows[..|rows| - 1];
      CommitIs(files, init);
      forall p | !PlannedAt(rows, p) ensures Load(Commit(files, rows), p) == Load(files, p) {
        assert rows[|rows| - 1].path != p;
        assert forall i :: 0 <= i < |init| ==> init[i] == rows[i];
      }
    }
  }

  lemma CommitClimbs(files: map<string, Version>, rows: seq<Planned>)
    requires DistinctPaths(rows) && forall i :: 0 <= i < |rows| ==> Lifts(files, rows[i])
    ensures Climbs(files, Commit(files, rows))
  {
    CommitIs(files, rows);
    var out := Commit(files, rows);
    forall p | p in files ensures p in out && Leq(files[p].vv, out[p].vv) && (files[p].vv == out[p].vv ==> files[p] == out[p]) {
      if PlannedAt(rows, p) {
        var i :| 0 <= i < |rows| && rows[i].path == p;
        assert Lifts(files, rows[i]);
      } else {
        assert Load(out, p) == Load(files, p);
      }
    }
  }

  /** A derived plan lifts the conflicted row strictly, and covers the remote version. */
  lemma ResolutionLifts(h: Hashes, st: StoreState, path: string, remote: Version)
    requires Decide(Load(st.files, path), remote.vv) == Decision.Concurrent
    requires DerivedPlan(h, st, path, remote).Some?
    ensures var rs := DerivedPlan(h, st, path, remote).value;
            && rs != [] && rs[0].path == path && DistinctPaths(rs)
            && Leq(remote.vv, rs[0].row.vv)
            && forall i :: 0 <= i < |rs| ==> Lifts(st.files, rs[i]) && (i > 0 ==> IsCopyName(rs[i].path))
  {
    var cs := Candidates(st, path, remote);
    PlanShape(h, path, cs, st.files);
    DecideMeaning(Load(st.files, path), remote.vv);
    var base := History(st.oplog, path) + [remote];
    var row := st.files[path];
    assert remote in base;
    assert remote in cs;
    JoinAllCovers(cs, remote);
    if Leq(row.vv, JoinAll(base)) {
      assert cs == base;
    } else {
      assert row in cs;
      JoinAllCovers(cs, row);
    }
    assert Less(row.vv, JoinAll(cs));
  }

  lemma ResolveClimbs(h: Hashes, st: StoreState, path: string, remote: Version, staged: seq<Planned>)
    ensures Climbs(st.files, ResolveRows(h, st, path, remote, staged).0.files)
  {
    if ResolveRows(h, st, path, remote, staged).1 == Resolved {
      ResolutionLifts(h, st, path, remote);
      CommitClimbs(st.files, DerivedPlan(h, st, path, remote).value);
    }
  }

  // ------------------------------------------------------------ rows only climb

  lemma JoinLifts(files: map<string, Version>, path: string, vv: VersionVector)
    requires Decide(Load(files, path), vv) == Apply
    ensures Join(VvAt(files, path), vv) == vv
    ensures path in files ==> Less(files[path].vv, vv)
  {
    DecideMeaning(Load(files, path), vv);
    assert Leq(VvAt(files, path), vv);
    JoinAbsorbs(VvAt(files, path), vv);
  }

  lemma PathEffectClimbs(files: map<string, Version>, op: Op, decision: Decision)
    ensures Climbs(files, ApplyAtPath(files, op, decision).0)
  {
    if Decide(Load(files, op.path), op.vv) == Apply {
      JoinLifts(files, op.path, op.vv);
      UpdateClimbs(files, op.path, OpRow(op, op.vv));
    }
  }

  lemma SourceEffectClimbs(files: map<string, Version>, op: Op)
    ensures Climbs(files, ApplyAtSource(files, op))
  {
    if op.kind == Rename && op.pathOld.Some? && Decide(Load(files, op.pathOld.value), op.vv) == Apply {
      JoinLifts(files, op.pathOld.value, op.vv);
      UpdateClimbs(files, op.pathOld.value, SourceTombstone(op.vv, op.uuid));
    }
  }

  lemma ApplyClimbs(st: StoreState, op: Op, decision: Decision)
    ensures Climbs(st.files, ApplyRemote(st, op, decision).0.files)
  {
    var files := ApplyAtPath(st.files, op, decision).0;
    PathEffectClimbs(st.files, op, decision);
    SourceEffectClimbs(files, op);
    ClimbsTransitive(st.files, files, ApplyAtSource(files, op));
  }

  /** An op touches the row of its own path, a rename that of its source too, and nothing else. */
  lemma ApplyFrame(st: StoreState, op: Op, decision: Decision, p: string)
    requires p != op.path && op.pathOld != Some(p)
    ensures Load(ApplyRemote(st, op, decision).0.files, p) == Load(st.files, p)
  {
  }

  lemma AppendClimbs(h: Hashes, st: StoreState, c: LocalChange)
    ensures Climbs(st.files, AppendLocal(h, st, c).0.files)
  {
    IncrementClimbs(VvAt(st.files, c.path), st.node);
  }

  lemma RenameClimbs(h: Hashes, st: StoreState, source: string, target: string)
    ensures Climbs(st.files, AppendLocalRename(h, st, source, target).0.files)
  {
    if source != target && source in st.files && !st.files[source].tombstone {
      var op := RenameOp(h, st, source, target);
      var src := st.files[source];
      var base := if target in st.files then Join(src.vv, st.files[target].vv) else src.vv;
      IncrementClimbs(base, st.node);
      if target in st.files {
        JoinIsLeastUpperBound(src.vv, st.files[target].vv, base);
        LessTransitive(st.files[target].vv, base, op.vv);
      }
      LessTransitive(src.vv, base, op.vv);
      var half := st.files[source := SourceTombstone(op.vv, op.uuid)];
      UpdateClimbs(st.files, source, SourceTombstone(op.vv, op.uuid));
      var row := Version(false, op.hash, op.meta, op.mode, op.size, op.vv, op.uuid);
      UpdateClimbs(half, target, row);
      ClimbsTransitive(st.files, half, half[target := row]);
    }
  }

  lemma ReconcileClimbs(st: StoreState, path: string, row: Version)
    ensures Climbs(st.files, ReconcileUpsert(st, path, row).0.files)
  {
    if Decide(Load(st.files, path), row.vv) == Apply {
      JoinLifts(st.files, path, row.vv);
      UpdateClimbs(st.files, path, row.(vv := row.vv));
    }
  }

  lemma ExecClimbs(h: Hashes, st: StoreState, c: Command)
    ensures Climbs(st.files, Exec(h, st, c).files)
  {
    match c
    case DoAppend(change) => AppendClimbs(h, st, change);
    case DoRename(source, target) => RenameClimbs(h, st, source, target);
    case DoApply(op, decision) => ApplyClimbs(st, op, decision);
    case DoReconcile(path, row) => ReconcileClimbs(st, path, row);
    case DoResolve(path, remote, staged) => ResolveClimbs(h, st, path, remote, staged);
    case DoAdvanceRecv(_, _, _) =>
    case DoAck(_, _) =>
  }

  /** Rows only climb, across every sequence of commands from every state. */
  lemma {:induction false} RowsOnlyClimb(h: Hashes, st: StoreState, cs: seq<Command>)
    ensures Climbs(st.files, ExecAll(h, st, cs).files)
    decreases |cs|
  {
    if cs != [] {
      ExecClimbs(h, st, cs[0]);
      RowsOnlyClimb(h, Exec(h, st, cs[0]), cs[1..]);
      ClimbsTransitive(st.files, Exec(h, st, cs[0]).files, ExecAll(h, st, cs).files);
    }
  }

  /**
   A tombstone is only ever left by a strictly dominating version: after any
   commands, an op its vector covers still leaves the path's row untouched,
   whatever decision its caller computed and when.
   */
  lemma TombstoneHolds(h: Hashes, st: StoreState, cs: seq<Command>, path: string, op: Op, decision: Decision)
    requires path in st.files && st.files[path].tombstone
    requires op.path == path && Leq(op.vv, st.files[path].vv)
    ensures var late := ExecAll(h, st, cs);
            && path in late.files
            && (late.files[path].tombstone || Less(st.files[path].vv, late.files[path].vv))
            && Load(ApplyRemote(late, op, decision).0.files, path) == Load(late.files, path)
  {
    RowsOnlyClimb(h, st, cs);
    var late := ExecAll(h, st, cs);
    LeqTransitive(op.vv, st.files[path].vv, late.files[path].vv);
    DecideMeaning(Load(late.files, path), op.vv);
  }

  // ------------------------------------------------------------ stale decisions

  /** The op took the place of a strictly older row at `p`: its own path if `applied`, or a rename's source. */
  predicate Replaces(files: map<string, Version>, out: map<string, Version>, op: Op, p: string, applied: bool) {
    && (p in files ==> Less(files[p].vv, op.vv))
    && ((p == op.path && applied && Load(out, p) == Some(OpRow(op, op.vv))) ||
        (op.kind == Rename && op.pathOld == Some(p) && Load(out, p) == Some(SourceTombstone(op.vv, op.uuid))))
  }

  /**
   Stale-decision safety for ops: whatever was decided, and when, with any
   commands since, the commit replaces a row only with a version that
   strictly dominates the row present at commit, at the op's path or at a
   rename's source; and the op is recorded either way.
   */
  lemma StaleApplyIsSafe(h: Hashes, before: StoreState, cs: seq<Command>, op: Op, decision: Decision, p: string)
    ensures var now := ExecAll(h, before, cs);
            var (after, outcome) := ApplyRemote(now, op, decision);
            && (Load(after.files, p) == Load(now.files, p) || Replaces(now.files, after.files, op, p, outcome == Effective(Apply)))
            && (outcome == RenameWithoutSource ==> after == now)
            && (outcome != RenameWithoutSource && op.Id() !in now.applied ==> Logged(after.oplog, op.Id()) && op.Id() in after.applied)
  {
    var now := ExecAll(h, before, cs);
    CommitAt(now.files, op, decision, p);
    var after := ApplyRemote(now, op, decision).0;
    if op.Id() !in now.applied && !Logged(now.oplog, op.Id()) && after != now {
      assert (now.oplog + [op])[|now.oplog|] == op;
    }
  }

  /** What the two path effects of an op do at one path. */
  lemma CommitAt(files: map<string, Version>, op: Op, decision: Decision, p: string)
    ensures var (mid, effective) := ApplyAtPath(files, op, decision);
            var out := ApplyAtSource(mid, op);
            Load(out, p) == Load(files, p) || Replaces(files, out, op, p, effective == Apply)
  {
    var mid := ApplyAtPath(files, op, decision).0;
    if Decide(Load(files, op.path), op.vv) == Apply {
      JoinLifts(files, op.path, op.vv);
    }
    if op.kind == Rename && op.pathOld.Some? && Decide(Load(mid, op.pathOld.value), op.vv) == Apply {
      JoinLifts(mid, op.pathOld.value, op.vv);
    }
  }

  /**
   Stale-decision safety for resolutions: with any commands between planning
   and commit, only the plan derived from the state at commit is written;
   every other outcome writes nothing; and once resolved, the same remote
   version is ignored.
   */
  lemma StalePlanIsSafe(h: Hashes, before: StoreState, cs: seq<Command>, path: string, remote: Version, staged: seq<Planned>)
    ensures var now := ExecAll(h, before, cs);
            var (after, outcome) := ResolveRows(h, now, path, remote, staged);
            && (outcome != Resolved ==> after == now)
            && (outcome == Resolved ==>
                 && Some(staged) == DerivedPlan(h, now, path, remote)
                 && after == now.(files := Commit(now.files, staged))
                 && Climbs(now.files, after.files)
                 && forall again :: ResolveRows(h, after, path, remote, again) == (after, NotConcurrent(Ignore)))
  {
    var now := ExecAll(h, before, cs);
    var (after, outcome) := ResolveRows(h, now, path, remote, staged);
    if outcome == Resolved {
      ResolveClimbs(h, now, path, remote, staged);
      ResolutionLifts(h, now, path, remote);
      CommitIs(now.files, staged);
      assert after.files[staged[0].path] == staged[0].row;
      DecideMeaning(Load(after.files, path), remote.vv);
    }
  }

  // ------------------------------------------------------- own sequence numbers

  ghost predicate UniqueIds(oplog: seq<Op>) {
    forall i, j :: 0 <= i < j < |oplog| ==> oplog[i].Id() != oplog[j].Id()
  }

  /** The log holds each op id once and the node's own numbers are exactly 1..n. */
  ghost predicate OwnSeqsDense(st: StoreState) {
    && UniqueIds(st.oplog)
    && forall k: nat :: Logged(st.oplog, (st.node, k)) <==> 1 <= k <= LatestSeq(st.oplog, st.node)
  }

  lemma InsertKeepsIds(oplog: seq<Op>, op: Op)
    requires UniqueIds(oplog)
    ensures UniqueIds(InsertOp(oplog, op))
    ensures forall id :: Logged(InsertOp(oplog, op), id) <==> Logged(oplog, id) || id == op.Id()
  {
    var out := InsertOp(oplog, op);
    forall id ensures Logged(out, id) <==> Logged(oplog, id) || id == op.Id() {
      if !Logged(oplog, op.Id()) {
        assert out == oplog + [op];
        assert op in out;
        if Logged(oplog, id) {
          var o :| o in oplog && o.Id() == id;
          assert o in out;
        }
      }
    }
  }

  lemma LatestAfterInsert(oplog: seq<Op>, op: Op, n: NodeId)
    requires op.origin == n ==> Logged(oplog, op.Id()) || op.seqno == LatestSeq(oplog, n) + 1
    ensures LatestSeq(InsertOp(oplog, op), n) ==
            if op.origin == n && !Logged(oplog, op.Id()) then op.seqno else LatestSeq(oplog, n)
  {
    if !Logged(oplog, op.Id()) {
      assert (oplog + [op])[..|oplog|] == oplog;
    }
  }

  /** A command that records a remote op under our own name records one we have or the very next one. */
  predicate RespectsOrigin(st: StoreState, c: Command) {
    c.DoApply? && c.op.origin == st.node && c.op.Id() !in st.applied && !(c.op.kind == Rename && c.op.pathOld.None?) ==>
      Logged(st.oplog, c.op.Id()) || c.op.seqno == LatestSeq(st.oplog, st.node) + 1
  }

  lemma InsertKeepsDense(st: StoreState, op: Op)
    requires OwnSeqsDense(st)
    requires op.origin == st.node ==> Logged(st.oplog, op.Id()) || op.seqno == LatestSeq(st.oplog, st.node) + 1
    ensures OwnSeqsDense(st.(oplog := InsertOp(st.oplog, op)))
  {
    InsertKeepsIds(st.oplog, op);
    LatestAfterInsert(st.oplog, op, st.node);
  }

  /** The log after a command: unchanged, or with one op inserted. */
  function CommandOp(h: Hashes, st: StoreState, c: Command): Option<Op> {
    match c
    case DoAppend(change) => Some(LocalOp(h, st, change))
    case DoRename(source, target) => if source in st.files then Some(RenameOp(h, st, source, target)) else None
    case DoApply(op, _) => Some(op)
    case _ => None
  }

  lemma CommandLog(h: Hashes, st: StoreState, c: Command)
    ensures Exec(h, st, c).node == st.node
    ensures var log := Exec(h, st, c).oplog;
            log == st.oplog || (CommandOp(h, st, c).Some? && log == InsertOp(st.oplog, CommandOp(h, st, c).value))
  {
  }

  lemma CommandOpInTurn(h: Hashes, st: StoreState, c: Command)
    requires RespectsOrigin(st, c) && Exec(h, st, c).oplog != st.oplog && CommandOp(h, st, c).Some?
    ensures var op := CommandOp(h, st, c).value;
            op.origin == st.node ==> Logged(st.oplog, op.Id()) || op.seqno == LatestSeq(st.oplog, st.node) + 1
  {
  }

  lemma SameLogDense(a: StoreState, b: StoreState)
    requires OwnSeqsDense(a) && a.oplog == b.oplog && a.node == b.node
    ensures OwnSeqsDense(b)
  {
  }

  lemma ExecKeepsDense(h: Hashes, st: StoreState, c: Command)
    requires OwnSeqsDense(st) && RespectsOrigin(st, c)
    ensures OwnSeqsDense(Exec(h, st, c)) && Exec(h, st, c).node == st.node
  {
    CommandLog(h, st, c);
    if Exec(h, st, c).oplog == st.oplog {
      SameLogDense(st, Exec(h, st, c));
    } else {
      var op := CommandOp(h, st, c).value;
      CommandOpInTurn(h, st, c);
      InsertKeepsDense(st, op);
      SameLogDense(st.(oplog := InsertOp(st.oplog, op)), Exec(h, st, c));
    }
  }

  /** Recording an op of our own out of turn leaves a hole, or a number zero. */
  lemma OutOfTurnBreaks(st: StoreState, op: Op)
    requires OwnSeqsDense(st) && op.origin == st.node
    requires !Logged(st.oplog, op.Id()) && op.seqno != LatestSeq(st.oplog, st.node) + 1
    ensures !OwnSeqsDense(st.(oplog := InsertOp(st.oplog, op)))
  {
    InsertKeepsIds(st.oplog, op);
    var latest := LatestSeq(st.oplog, st.node);
    var out := st.(oplog := InsertOp(st.oplog, op));
    assert (st.oplog + [op])[..|st.oplog|] == st.oplog;
    assert op.Id() == (st.node, op.seqno);
    if op.seqno > latest {
      assert LatestSeq(out.oplog, st.node) == op.seqno;
      assert !Logged(out.oplog, (st.node, latest + 1));
    } else {
      assert op.seqno == 0;
      assert Logged(out.oplog, (st.node, op.seqno));
    }
  }

  /**
   Each command keeps the node's own numbers exactly 1..n, if and only if it
   does not record a foreign-delivered op under our own name out of turn. The
   store does not check this; the receiving connection does.
   */
  lemma DenseExactly(h: Hashes, st: StoreState, c: Command)
    requires OwnSeqsDense(st)
    ensures OwnSeqsDense(Exec(h, st, c)) <==> RespectsOrigin(st, c)
  {
    if RespectsOrigin(st, c) {
      ExecKeepsDense(h, st, c);
    } else {
      OutOfTurnBreaks(st, c.op);
      var out := Exec(h, st, c);
      if OwnSeqsDense(out) {
        SameLogDense(out, st.(oplog := InsertOp(st.oplog, c.op)));
      }
    }
  }

  /** Every command of the run records own ops in turn. */
  predicate OwnOpsInTurn(h: Hashes, st: StoreState, cs: seq<Command>)
    decreases |cs|
  {
    cs == [] || (RespectsOrigin(st, cs[0]) && OwnOpsInTurn(h, Exec(h, st, cs[0]), cs[1..]))
  }

  /** Own numbers are exactly 1..n after every run of commands that records own ops in turn. */
  lemma {:induction false} OwnNumbersAreDense(h: Hashes, st: StoreState, cs: seq<Command>)
    requires OwnSeqsDense(st) && OwnOpsInTurn(h, st, cs)
    ensures OwnSeqsDense(ExecAll(h, st, cs))
    decreases |cs|
  {
    if cs != [] {
      ExecKeepsDense(h, st, cs[0]);
      OwnNumbersAreDense(h, Exec(h, st, cs[0]), cs[1..]);
    }
  }

  lemma {:induction false} LatestIsBound(oplog: seq<Op>, n: NodeId, o: Op)
    requires o in oplog && o.origin == n
    ensures o.seqno <= LatestSeq(oplog, n)
  {
    var init := oplog[..|oplog| - 1];
    assert oplog == init + [oplog[|oplog| - 1]];
    if o in init {
      LatestIsBound(init, n, o);
    }
  }

  lemma FreshId(oplog: seq<Op>, n: NodeId)
    ensures !Logged(oplog, (n, LatestSeq(oplog, n) + 1))
  {
    if Logged(oplog, (n, LatestSeq(oplog, n) + 1)) {
      var o :| o in oplog && o.Id() == (n, LatestSeq(oplog, n) + 1);
      LatestIsBound(oplog, n, o);
    }
  }
}

/** What each store command leaves behind, field by field (src/oplog.rs). */
module StoreEffects {
  import opened VersionVectors
  import opened CopyNames
  import opened Versions
  import opened Decisions
  import opened Conflict
  import opened PlanLaws
  import opened PlanKeeps
  import opened StoreModel
  import opened StoreLaws
  import Model = ReplicaModel
  import opened OpSets

  // ------------------------------------------------------------- local changes

  /** A live row with this content and this metadata hash stands at `p`. */
  predicate Stands(h: Hashes, files: map<string, Version>, p: string, hash: Option<Hash>, meta: Option<Meta>) {
    p in files && !files[p].tombstone && files[p].hash == hash && h.MetaHash(files[p].meta) == h.MetaHash(meta)
  }

  /** After a local write its content stands, and the write is a no-op exactly when it stood before. */
  lemma LocalWriteStands(h: Hashes, st: StoreState, c: LocalChange)
    requires c.kind == Write
    ensures var (after, r) := AppendLocal(h, st, c);
            && Stands(h, after.files, c.path, c.hash, c.meta)
            && (r == NoOp <==> Stands(h, st.files, c.path, c.hash, c.meta)) && (r == NoOp ==> after == st)
  {
  }

  /** Writing the same again changes nothing. */
  lemma SecondWriteIsNoOp(h: Hashes, st: StoreState, c: LocalChange)
    requires c.kind == Write
    ensures var after := AppendLocal(h, st, c).0; AppendLocal(h, after, c) == (after, NoOp)
  {
    LocalWriteStands(h, st, c);
  }

  /** After a local delete no live row is left, and it is a no-op exactly when there was none. */
  lemma LocalDeleteClears(h: Hashes, st: StoreState, c: LocalChange)
    requires c.kind == Delete
    ensures var (after, r) := AppendLocal(h, st, c);
            && (c.path in after.files ==> after.files[c.path].tombstone)
            && (r == NoOp <==> !(c.path in st.files && !st.files[c.path].tombstone)) && (r == NoOp ==> after == st)
  {
  }

  /** The op a local change emits says what was asked for, one count above what was there, and the row says the same. */
  lemma LocalChangeEmits(h: Hashes, st: StoreState, c: LocalChange)
    requires c.kind != Rename && AppendLocal(h, st, c).1.Appended? && c.WellFormed()
    ensures var (after, r) := AppendLocal(h, st, c);
            var o, row := r.op, after.files[c.path];
            && o.origin == st.node && o.seqno == LatestSeq(st.oplog, st.node) + 1
            && o.kind == c.kind && o.path == c.path && o.pathOld == None
            && o.hash == c.hash && o.meta == c.meta && o.mode == c.mode && o.size == c.size && o.uuid.Some?
            && row.tombstone == (c.kind == Delete) && row.hash == c.hash && row.meta == c.meta && row.mode == c.mode && row.size == c.size
            && row.vv == o.vv && row.uuid == o.uuid
            && (forall n :: Get(o.vv, n) == Get(VvAt(st.files, c.path), n) + if n == st.node then 1 else 0)
            && (forall q :: q != c.path ==> Load(after.files, q) == Load(st.files, q))
            && after == st.(files := after.files, oplog := after.oplog)
  {
  }

  /** A file keeps its identity until it is written again over a tombstone. */
  lemma LocalIdentity(h: Hashes, st: StoreState, c: LocalChange)
    requires c.kind != Rename && AppendLocal(h, st, c).1.Appended?
    ensures var o := AppendLocal(h, st, c).1.op;
            var fresh_ := c.path !in st.files || (st.files[c.path].tombstone && c.kind == Write);
            && (fresh_ ==> o.uuid == Some(h.freshUuid(st.node, o.seqno, c.path)))
            && (!fresh_ && st.files[c.path].uuid.Some? ==> o.uuid == st.files[c.path].uuid)
            && (!fresh_ && st.files[c.path].uuid.None? ==> o.uuid == Some(h.migrationUuid(c.path)))
  {
  }

  // ------------------------------------------------------------- local renames

  /** The file moved whole: content, metadata, mode, size and identity are at the target, nothing is at the source. */
  lemma LocalRenameMoves(h: Hashes, st: StoreState, source: string, target: string)
    requires AppendLocalRename(h, st, source, target).1.Appended?
    ensures source in st.files && !st.files[source].tombstone && source != target
    ensures var (after, r) := AppendLocalRename(h, st, source, target);
            var was, t, s := st.files[source], after.files[target], after.files[source];
            && !t.tombstone && t.hash == was.hash && t.meta == was.meta && t.mode == was.mode && t.size == was.size
            && (was.uuid.Some? ==> t.uuid == was.uuid)
            && s.tombstone && s.hash == None && s.meta == None && s.vv == t.vv && s.uuid == t.uuid
            && (forall q :: q != source && q != target ==> Load(after.files, q) == Load(st.files, q))
  {
  }

  /** Its op carries the same, under the merged lineage one count up. */
  lemma LocalRenameEmits(h: Hashes, st: StoreState, source: string, target: string)
    requires AppendLocalRename(h, st, source, target).1.Appended?
    ensures source in st.files
    ensures var (after, r) := AppendLocalRename(h, st, source, target);
            var was, o := st.files[source], r.op;
            && o.kind == Rename && o.path == target && o.pathOld == Some(source) && o.origin == st.node
            && o.seqno == LatestSeq(st.oplog, st.node) + 1
            && o.hash == was.hash && o.meta == was.meta && o.mode == was.mode && o.size == was.size
            && o.vv == after.files[target].vv && o.uuid == after.files[target].uuid
            && Less(was.vv, o.vv) && (target in st.files ==> Less(st.files[target].vv, o.vv))
  {
    var was := st.files[source];
    var base := if target in st.files then Join(was.vv, st.files[target].vv) else was.vv;
    IncrementClimbs(base, st.node);
    if target in st.files {
      JoinIsLeastUpperBound(was.vv, st.files[target].vv, base);
      LessTransitive(st.files[target].vv, base, Increment(base, st.node));
      LessTransitive(was.vv, base, Increment(base, st.node));
    }
  }

  /** A rename is refused exactly when there is nothing to move or nowhere to move it. */
  lemma RenameNoOpExactly(h: Hashes, st: StoreState, source: string, target: string)
    ensures var (after, r) := AppendLocalRename(h, st, source, target);
            && (r == NoOp <==> source == target || source !in st.files || st.files[source].tombstone)
            && (r == NoOp ==> after == st) && (r == NoOp || r.Appended?)
  {
  }

  // --------------------------------------------------------------- remote ops

  /** The op's own path: applied exactly when decided so and still dominating at commit, with all the op carries. */
  lemma RemoteOpAtPath(st: StoreState, op: Op, decision: Decision)
    requires op.Id() !in st.applied && op.WellFormed() && op.pathOld != Some(op.path)
    ensures var after := ApplyRemote(st, op, decision).0;
            var wins := decision == Apply && (op.path in st.files ==> Less(st.files[op.path].vv, op.vv));
            && (!wins ==> Load(after.files, op.path) == Load(st.files, op.path))
            && (wins ==>
                 && op.path in after.files && after.files[op.path].vv == op.vv && after.files[op.path].uuid == op.uuid
                 && after.files[op.path].tombstone == (op.kind == Delete) && after.files[op.path].mode == op.mode
                 && after.files[op.path].hash == op.hash && after.files[op.path].meta == op.meta
                 && after.files[op.path].size == if op.kind == Delete then 0 else op.size)
  {
    DecideMeaning(Load(st.files, op.path), op.vv);
    if Decide(Load(st.files, op.path), op.vv) == Apply {
      JoinLifts(st.files, op.path, op.vv);
    }
  }

  /**
   A rename's source, for every decision the caller passed: cleared exactly when
   the op strictly dominates what is there, or nothing is; else left as it is.
   */
  lemma RemoteRenameAtSource(st: StoreState, op: Op, decision: Decision, q: string)
    requires op.Id() !in st.applied && op.kind == Rename && op.pathOld == Some(q) && q != op.path
    ensures var after := ApplyRemote(st, op, decision).0;
            var clears := q in st.files ==> Less(st.files[q].vv, op.vv);
            && (!clears ==> Load(after.files, q) == Load(st.files, q))
            && (clears ==> q in after.files && after.files[q] == Version(true, None, None, 0, 0, op.vv, op.uuid))
  {
    var mid := ApplyAtPath(st.files, op, decision).0;
    assert Load(mid, q) == Load(st.files, q);
    DecideMeaning(Load(mid, q), op.vv);
    if Decide(Load(mid, q), op.vv) == Apply {
      JoinLifts(mid, q, op.vv);
    }
  }

  /** Nothing else changes, and the op is recorded once, its cursor raised. */
  lemma RemoteOpElsewhere(st: StoreState, op: Op, decision: Decision)
    requires op.Id() !in st.applied && op.WellFormed()
    ensures var after := ApplyRemote(st, op, decision).0;
            && (forall q :: q != op.path && op.pathOld != Some(q) ==> Load(after.files, q) == Load(st.files, q))
            && after.applied == st.applied + {op.Id()} && Logged(after.oplog, op.Id())
            && (!Logged(st.oplog, op.Id()) ==> after.oplog == st.oplog + [op])
            && Cursor(after.recv, op.origin, op.origin) >= op.seqno && after.acked == st.acked && after.node == st.node
  {
    if !Logged(st.oplog, op.Id()) {
      assert (st.oplog + [op])[|st.oplog|] == op;
    }
  }

  /** A redelivered op raises the cursor at most. */
  lemma RedeliveryIsIdle(st: StoreState, op: Op, decision: Decision)
    requires op.Id() in st.applied
    ensures var after := ApplyRemote(st, op, decision).0;
            after == st.(recv := after.recv) && Cursor(after.recv, op.origin, op.origin) >= op.seqno
  {
  }

  /**
   A quarantined rename still clears its source, although its content was never
   written at the target.
   */
  lemma QuarantinedRenameClearsSource(st: StoreState, op: Op, q: string)
    requires op.Id() !in st.applied && op.WellFormed() && op.pathOld == Some(q) && q != op.path
    requires q in st.files ==> Less(st.files[q].vv, op.vv)
    ensures var after := ApplyRemote(st, op, Quarantined).0;
            q in after.files && after.files[q].tombstone && Load(after.files, op.path) == Load(st.files, op.path)
  {
    RemoteOpAtPath(st, op, Quarantined);
    RemoteRenameAtSource(st, op, Quarantined, q);
  }

  /** The whole receive step clears a dominated source too. */
  lemma ReceivedRenameClearsSource(h: Hashes, st: StoreState, op: Op, q: string)
    requires op.Id() !in st.applied && op.WellFormed() && op.pathOld == Some(q) && q != op.path && !IsCopyName(q)
    requires q in st.files ==> Less(st.files[q].vv, op.vv)
    ensures var after := Model.Receive(h, st, op);
            q in after.files && after.files[q] == Version(true, None, None, 0, 0, op.vv, op.uuid)
  {
    var decision := Decide(Load(st.files, op.path), op.vv);
    var resolved := if decision == Decision.Concurrent then Model.Resolve(h, st, op.path, OpVersion(op)) else st;
    if decision == Decision.Concurrent {
      Model.ResolveFrame(h, st, op.path, OpVersion(op), q);
    }
    assert Load(resolved.files, q) == Load(st.files, q);
    RemoteRenameAtSource(resolved, op, decision, q);
    var mid := Model.ReceiveAtPath(h, st, op);
    DecideMeaning(Load(mid.files, q), op.vv);
  }

  /** A received op that dominates takes its path, with all it carries. */
  lemma ReceivedOpTakesPath(h: Hashes, st: StoreState, op: Op)
    requires op.Id() !in st.applied && op.WellFormed() && op.pathOld != Some(op.path) && (op.kind == Rename ==> !IsCopyName(op.path))
    requires op.path in st.files ==> Less(st.files[op.path].vv, op.vv)
    ensures var after := Model.Receive(h, st, op);
            && op.path in after.files && after.files[op.path].vv == op.vv && after.files[op.path].tombstone == (op.kind == Delete)
            && after.files[op.path].hash == op.hash && after.files[op.path].meta == op.meta && after.files[op.path].mode == op.mode
            && after.files[op.path].uuid == op.uuid
  {
    DecideMeaning(Load(st.files, op.path), op.vv);
    RemoteOpAtPath(st, op, Apply);
    var mid := Model.ReceiveAtPath(h, st, op);
    if op.kind == Rename {
      Model.ResolveFrame(h, mid, op.pathOld.value, Model.SourceVersion(op), op.path);
    }
  }

  /** A resolution that derives a plan leaves the conflicted path at or above the remote version. */
  lemma ResolveCovers(h: Hashes, st: StoreState, path: string, remote: Version)
    requires Decide(Load(st.files, path), remote.vv) == Decision.Concurrent && DerivedPlan(h, st, path, remote).Some?
    ensures var files := Model.Resolve(h, st, path, remote).files; path in files && Leq(remote.vv, files[path].vv)
  {
    ResolutionLifts(h, st, path, remote);
    CommitIs(st.files, DerivedPlan(h, st, path, remote).value);
  }

  predicate CoveredAt(files: map<string, Version>, path: string, vv: VersionVector) {
    path in files && Leq(vv, files[path].vv)
  }

  lemma StaysCovered(a: map<string, Version>, b: map<string, Version>, path: string, vv: VersionVector)
    requires CoveredAt(a, path, vv) && Climbs(a, b)
    ensures CoveredAt(b, path, vv)
  {
    LeqTransitive(vv, a[path].vv, b[path].vv);
  }

  /** Recording an op leaves its path covered, unless the caller withheld it or found a conflict. */
  lemma AppliedIsCovered(st: StoreState, op: Op)
    requires op.Id() !in st.applied && op.WellFormed() && Decide(Load(st.files, op.path), op.vv) == Apply
    ensures CoveredAt(ApplyRemote(st, op, Apply).0.files, op.path, op.vv)
  {
    JoinLifts(st.files, op.path, op.vv);
    var mid := ApplyAtPath(st.files, op, Apply).0;
    assert CoveredAt(mid, op.path, op.vv);
    if op.kind == Rename && Decide(Load(mid, op.pathOld.value), op.vv) == Apply {
      JoinLifts(mid, op.pathOld.value, op.vv);
    }
  }

  lemma PathCovered(h: Hashes, st: StoreState, op: Op)
    requires op.Id() !in st.applied && op.WellFormed() && !Model.Unsettled(h, st, op)
    ensures CoveredAt(Model.ReceiveAtPath(h, st, op).files, op.path, op.vv)
  {
    var decision := Decide(Load(st.files, op.path), op.vv);
    DecideMeaning(Load(st.files, op.path), op.vv);
    if decision == Apply {
      AppliedIsCovered(st, op);
    } else {
      var resolved := if decision == Decision.Concurrent then Model.Resolve(h, st, op.path, OpVersion(op)) else st;
      if decision == Decision.Concurrent {
        ResolveCovers(h, st, op.path, OpVersion(op));
      }
      ApplyClimbs(resolved, op, decision);
      StaysCovered(resolved.files, ApplyRemote(resolved, op, decision).0.files, op.path, op.vv);
    }
  }

  /** Once received, an op is covered wherever it has an effect, but for conflicts past the copy-depth limit. */
  lemma ReceivedIsCovered(h: Hashes, st: StoreState, op: Op)
    requires op.Id() !in st.applied && op.WellFormed()
    ensures !Model.Unsettled(h, st, op) ==> CoveredAt(Model.Receive(h, st, op).files, op.path, op.vv)
    ensures op.kind == Rename && !Model.SourceUnsettled(h, st, op) ==>
              CoveredAt(Model.Receive(h, st, op).files, op.pathOld.value, op.vv)
  {
    var mid := Model.ReceiveAtPath(h, st, op);
    if op.kind == Rename {
      Model.ResolveClimbsToo(h, mid, op.pathOld.value, Model.SourceVersion(op));
      SourceCovered(h, st, op);
    }
    if !Model.Unsettled(h, st, op) {
      PathCovered(h, st, op);
      if op.kind == Rename && Decide(Load(mid.files, op.pathOld.value), op.vv) == Decision.Concurrent {
        StaysCovered(mid.files, Model.Receive(h, st, op).files, op.path, op.vv);
      }
    }
  }

  lemma SourceCovered(h: Hashes, st: StoreState, op: Op)
    requires op.Id() !in st.applied && op.WellFormed() && op.kind == Rename
    ensures var mid := Model.ReceiveAtPath(h, st, op);
            !Model.SourceUnsettled(h, st, op) ==> CoveredAt(Model.Receive(h, st, op).files, op.pathOld.value, op.vv)
  {
    var mid := Model.ReceiveAtPath(h, st, op);
    var q := op.pathOld.value;
    NeverLeftToApply(h, st, op);
    DecideMeaning(Load(mid.files, q), op.vv);
    if Decide(Load(mid.files, q), op.vv) == Decision.Concurrent && !Model.SourceUnsettled(h, st, op) {
      ResolveCovers(h, mid, q, Model.SourceVersion(op));
    }
  }

  /** The commit itself clears a source the op dominates, so none is left to clear. */
  lemma NeverLeftToApply(h: Hashes, st: StoreState, op: Op)
    requires op.Id() !in st.applied && op.WellFormed() && op.kind == Rename
    ensures Decide(Load(Model.ReceiveAtPath(h, st, op).files, op.pathOld.value), op.vv) != Apply
  {
    var decision := Decide(Load(st.files, op.path), op.vv);
    var resolved := if decision == Decision.Concurrent then Model.Resolve(h, st, op.path, OpVersion(op)) else st;
    var files := ApplyAtPath(resolved.files, op, decision).0;
    var q := op.pathOld.value;
    assert Model.ReceiveAtPath(h, st, op).files == ApplyAtSource(files, op);
    DecideMeaning(Load(ApplyAtSource(files, op), q), op.vv);
    if Decide(Load(files, q), op.vv) == Apply {
      JoinLifts(files, q, op.vv);
    }
  }

  /**
   Rename against modify: a concurrent write at the source that nobody dominates
   brings the source back, live, with at least its rank, both lineages absorbed.
   */
  lemma ModifyBeatsRename(h: Hashes, st: StoreState, op: Op, q: string, o: Op)
    requires op.Id() !in st.applied && op.WellFormed() && op.pathOld == Some(q)
    requires var mid := Model.ReceiveAtPath(h, st, op);
             && Decide(Load(mid.files, q), op.vv) == Decision.Concurrent && !Model.SourceUnsettled(h, st, op)
             && o in mid.oplog && o.kind == Write && o.path == q
             && (forall c :: c in Candidates(mid, q, Model.SourceVersion(op)) && c != AsCandidate(o, q) ==> !Leq(o.vv, c.vv))
    ensures var files := Model.Receive(h, st, op).files;
            && q in files && !files[q].tombstone && Leq(o.vv, files[q].vv) && Leq(op.vv, files[q].vv)
            && RankedHash(AsCandidate(o, q)) <= RankedHash(files[q])
  {
    var mid := Model.ReceiveAtPath(h, st, op);
    var remote := Model.SourceVersion(op);
    var cs := Candidates(mid, q, remote);
    LoggedCandidate(mid.oplog, o, q);
    var v := AsCandidate(o, q);
    assert v in cs;
    IsMaximal(h, cs, v);
    WinnerIsLargest(h, q, cs, mid.files, v);
    ResolutionLifts(h, mid, q, remote);
    CommitIs(mid.files, DerivedPlan(h, mid, q, remote).value);
    PlanShape(h, q, cs, mid.files);
    JoinAllCovers(cs, v);
  }

  // ------------------------------------------------------------- anti-entropy

  /** A reconciled row is taken whole exactly when it strictly dominates or is new, and nothing else changes. */
  lemma ReconciledRow(st: StoreState, path: string, row: Version)
    ensures var after := ReconcileUpsert(st, path, row).0;
            var wins := path in st.files ==> Less(st.files[path].vv, row.vv);
            && Load(after.files, path) == (if wins then Some(row) else Load(st.files, path))
            && (forall q :: q != path ==> Load(after.files, q) == Load(st.files, q)) && after == st.(files := after.files)
  {
    DecideMeaning(Load(st.files, path), row.vv);
    if Decide(Load(st.files, path), row.vv) == Apply {
      JoinLifts(st.files, path, row.vv);
    }
  }

  // ------------------------------------------------------- renames as candidates

  lemma {:induction false} LoggedCandidate(oplog: seq<Op>, o: Op, path: string)
    requires o in oplog && Affects(o, path)
    ensures AsCandidate(o, path) in History(oplog, path)
    decreases |oplog|
  {
    var init, last := oplog[..|oplog| - 1], oplog[|oplog| - 1];
    if o != last {
      assert o in init;
      LoggedCandidate(init, o, path);
    }
  }

  /**
   After a local rename, the target's history holds the file, live, with the
   content it had and the vector of the new row, and the source's history holds
   a tombstone with that vector.
   */
  lemma RenameInHistories(h: Hashes, st: StoreState, source: string, target: string)
    requires AppendLocalRename(h, st, source, target).1.Appended?
    ensures source in st.files
    ensures var after := AppendLocalRename(h, st, source, target).0;
            var was, row := st.files[source], after.files[target];
            && Version(false, was.hash, was.meta, was.mode, was.size, row.vv, row.uuid) in History(after.oplog, target)
            && Version(true, None, None, 0, 0, row.vv, row.uuid) in History(after.oplog, source)
  {
    FreshId(st.oplog, st.node);
    LocalRenameMoves(h, st, source, target);
    LocalRenameEmits(h, st, source, target);
    var (after, r) := AppendLocalRename(h, st, source, target);
    assert after.oplog == st.oplog + [r.op];
    assert after.oplog[|st.oplog|] == r.op;
    LoggedCandidate(after.oplog, r.op, source);
    LoggedCandidate(after.oplog, r.op, target);
  }

  /** A candidate nothing else dominates or equals is one of the maximal ones. */
  lemma IsMaximal(h: Hashes, cs: seq<Version>, v: Version)
    requires v in cs && forall c :: c in cs && c != v ==> !Leq(v.vv, c.vv)
    ensures v in Antichain(h, cs)
  {
    AntichainBasics(h, cs);
    var x := MemberAbove(h, cs, v);
    assert x in cs;
  }

  lemma {:induction false} HistoryBelow(oplog: seq<Op>, path: string, vv: VersionVector)
    requires forall o :: o in oplog && Affects(o, path) ==> Less(o.vv, vv)
    ensures forall v :: v in History(oplog, path) ==> Less(v.vv, vv)
    decreases |oplog|
  {
    if oplog != [] {
      HistoryBelow(oplog[..|oplog| - 1], path, vv);
      assert oplog[|oplog| - 1] in oplog;
    }
  }

  /**
   A conflict with a renamed file: the file was moved to `target`, a concurrent
   version of `target` arrives. Whatever plan is derived keeps the moved content
   and the arriving one.
   */
  lemma RenameSurvivesConflict(h: Hashes, st: StoreState, source: string, target: string, remote: Version)
    requires AppendLocalRename(h, st, source, target).1.Appended?
    requires source in st.files && st.files[source].hash.Some? && remote.WellFormed() && remote.hash.Some?
    requires var after := AppendLocalRename(h, st, source, target).0;
             && (forall o :: o in st.oplog && Affects(o, target) ==> Less(o.vv, after.files[target].vv))
             && Decide(Load(after.files, target), remote.vv) == Decision.Concurrent && DerivedPlan(h, after, target, remote).Some?
             && (forall v :: v in Candidates(after, target, remote) ==> v.WellFormed()) && RowsWellFormed(after.files)
             && h.Tells(AtHand(Candidates(after, target, remote), after.files))
    ensures var after := AppendLocalRename(h, st, source, target).0;
            var rs := DerivedPlan(h, after, target, remote).value;
            && Kept(h, rs, after.files, st.files[source].hash.value, h.NamingHash(st.files[source].meta))
            && Kept(h, rs, after.files, remote.hash.value, h.NamingHash(remote.meta))
  {
    var after := AppendLocalRename(h, st, source, target).0;
    var cs := Candidates(after, target, remote);
    var v := MovedIsMaximal(h, st, source, target, remote);
    PlanKeepsContent(h, target, cs, after.files);
  }

  /** The moved file and the arriving version are both maximal. */
  lemma MovedIsMaximal(h: Hashes, st: StoreState, source: string, target: string, remote: Version) returns (v: Version)
    requires AppendLocalRename(h, st, source, target).1.Appended?
    requires source in st.files
    requires var after := AppendLocalRename(h, st, source, target).0;
             && (forall o :: o in st.oplog && Affects(o, target) ==> Less(o.vv, after.files[target].vv))
             && Decide(Load(after.files, target), remote.vv) == Decision.Concurrent
    ensures var after := AppendLocalRename(h, st, source, target).0;
            && v.hash == st.files[source].hash && v.meta == st.files[source].meta
            && v in Antichain(h, Candidates(after, target, remote)) && remote in Antichain(h, Candidates(after, target, remote))
  {
    FreshId(st.oplog, st.node);
    LocalRenameMoves(h, st, source, target);
    LocalRenameEmits(h, st, source, target);
    var (after, r) := AppendLocalRename(h, st, source, target);
    var row := after.files[target];
    v := AsCandidate(r.op, target);
    assert after.oplog == st.oplog + [r.op];
    assert after.oplog[..|st.oplog|] == st.oplog;
    HistoryBelow(st.oplog, target, row.vv);
    assert History(after.oplog, target) == History(st.oplog, target) + [v];
    TwoTops(h, History(st.oplog, target), v, remote, row);
  }

  lemma TwoTops(h: Hashes, old_: seq<Version>, v: Version, remote: Version, row: Version)
    requires (forall x :: x in old_ ==> Less(x.vv, v.vv)) && row.vv == v.vv
    requires !Leq(v.vv, remote.vv) && !Leq(remote.vv, v.vv)
    ensures var cs := old_ + [v] + [remote]; v in Antichain(h, cs) && remote in Antichain(h, cs) && Leq(row.vv, JoinAll(cs))
  {
    var cs := old_ + [v] + [remote];
    assert cs[|old_|] == v && cs[|old_| + 1] == remote;
    forall c | c in cs && c != v ensures !Leq(v.vv, c.vv) {
      if c in old_ && Leq(v.vv, c.vv) {
        LeqAntisymmetric(v.vv, c.vv);
      }
    }
    forall c | c in cs && c != remote ensures !Leq(remote.vv, c.vv) {
      if c in old_ && Leq(remote.vv, c.vv) {
        LeqTransitive(remote.vv, c.vv, v.vv);
      }
    }
    IsMaximal(h, cs, v);
    IsMaximal(h, cs, remote);
    JoinAllCovers(cs, v);
  }
}

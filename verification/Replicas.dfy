/** The simulated node: a store plus a file system it keeps in step (src/replica.rs). */
module Replicas {
  import StoreEffects
  import opened VersionVectors
  import opened CopyNames
  import opened Versions
  import opened Decisions
  import opened Conflict
  import opened PlanLaws
  import opened PlanKeeps
  import opened StoreModel
  import opened StoreLaws
  import opened Stores
  import opened OpSets
  import Model = ReplicaModel

  type Fs = map<string, Hash>

  function At(fs: Fs, p: string): Option<Hash> {
    if p in fs then Some(fs[p]) else None
  }

  /** The content a row promises on disk. */
  function Promised(r: Version): Option<Hash> {
    if r.tombstone then None else r.hash
  }

  function LiveAt(files: map<string, Version>, p: string): Option<Hash> {
    if p in files then Promised(files[p]) else None
  }

  /** The live rows of the index, as the invariant check collects them. */
  function Live(files: map<string, Version>): Fs {
    map p | p in files && LiveAt(files, p).Some? :: LiveAt(files, p).value
  }

  /** Disk and index agree, except possibly at `skip`. */
  ghost predicate AgreeBut(fs: Fs, files: map<string, Version>, skip: Option<string>) {
    forall p :: Some(p) != skip ==> At(fs, p) == LiveAt(files, p)
  }

  lemma AgreeIsLive(fs: Fs, files: map<string, Version>)
    ensures AgreeBut(fs, files, None) <==> fs == Live(files)
  {
    assert forall p :: At(Live(files), p) == LiveAt(files, p);
    if AgreeBut(fs, files, None) {
      assert forall p :: p in fs <==> At(fs, p).Some?;
      assert forall p :: p in Live(files) <==> At(Live(files), p).Some?;
      assert fs.Keys == Live(files).Keys;
      assert forall p :: p in fs ==> fs[p] == At(fs, p).value && Live(files)[p] == At(Live(files), p).value;
    }
  }

  ghost predicate LogWellFormed(oplog: seq<Op>) {
    forall o :: o in oplog ==> o.WellFormed()
  }

  /** Live rows carry content and logged ops are well formed. */
  ghost predicate Sound(st: StoreState) {
    RowsWellFormed(st.files) && LogWellFormed(st.oplog)
  }

  // --------------------------------------------------- soundness of the commands

  lemma {:induction false} HistorySound(oplog: seq<Op>, path: string)
    requires LogWellFormed(oplog)
    ensures forall v :: v in History(oplog, path) ==> v.WellFormed()
  {
    if oplog != [] {
      var init := oplog[..|oplog| - 1];
      assert forall o :: o in init ==> o in oplog;
      assert oplog[|oplog| - 1] in oplog;
      HistorySound(init, path);
    }
  }

  ghost predicate PlanSound(rows: seq<Planned>) {
    forall i :: 0 <= i < |rows| ==> rows[i].row.WellFormed()
  }

  /** The settled row of a collision is live and carries content. */
  lemma SettleSound(h: Hashes, cp: string, e: Version, c: Version)
    requires e.WellFormed() && c.hash.Some? && Compare(CopyVv(h, cp), e.vv) == Ord3.Concurrent
    ensures Settle(h, cp, e, c).row.WellFormed()
  {
    NestedPair(h, e, CopyRow(h, cp, c));
  }

  lemma {:induction false} ChainSound(h: Hashes, cp: string, c: Version, depth: nat, rows: seq<Planned>, files: map<string, Version>)
    requires RowsWellFormed(files) && PlanSound(rows) && c.hash.Some?
    ensures var r := Chain(h, cp, c, depth, rows, files); r.Some? ==> PlanSound(r.value)
    decreases MAX_COPY_DEPTH - depth
  {
    if depth + 1 > MAX_COPY_DEPTH || PlannedAt(rows, cp) {
    } else if cp !in files || Compare(CopyVv(h, cp), files[cp].vv) == Dominates {
      AppendPlanSound(rows, Planned(cp, CopyRow(h, cp, c)));
    } else if Compare(CopyVv(h, cp), files[cp].vv) == Ord3.Concurrent {
      CollisionSound(h, cp, c, depth, rows, files);
    }
  }

  lemma AppendPlanSound(rows: seq<Planned>, r: Planned)
    requires PlanSound(rows) && (r.row.WellFormed() || (!r.row.tombstone && r.row.hash.Some?))
    ensures PlanSound(rows + [r])
  {
  }

  lemma {:induction false} CollisionSound(h: Hashes, cp: string, c: Version, depth: nat, rows: seq<Planned>, files: map<string, Version>)
    requires RowsWellFormed(files) && PlanSound(rows) && c.hash.Some? && depth < MAX_COPY_DEPTH && !PlannedAt(rows, cp)
    requires cp in files && Compare(CopyVv(h, cp), files[cp].vv) == Ord3.Concurrent
    ensures var r := Chain(h, cp, c, depth, rows, files); r.Some? ==> PlanSound(r.value)
    decreases MAX_COPY_DEPTH - depth, 0
  {
    var s := Settle(h, cp, files[cp], c);
    assert s.row.WellFormed() by {
      SettleSound(h, cp, files[cp], c);
    }
    AppendPlanSound(rows, Planned(cp, s.row));
    if s.next.Some? {
      ChainSound(h, CopyPath(h, cp, s.next.value), s.next.value, depth + 1, rows + [Planned(cp, s.row)], files);
    }
  }

  lemma {:induction false} LosersSound(h: Hashes, path: string, wk: Key, losers: seq<Version>, rows: seq<Planned>, files: map<string, Version>)
    requires RowsWellFormed(files) && PlanSound(rows)
    ensures var r := PlanLosers(h, path, wk, losers, rows, files); r.Some? ==> PlanSound(r.value)
    decreases |losers|
  {
    if losers != [] {
      var l := losers[0];
      if l.hash.Some? && KeyOf(h, l) != wk {
        ChainSound(h, CopyPath(h, path, l), l, 0, rows, files);
      }
      var r := PlanLoser(h, path, wk, l, rows, files);
      if r.Some? {
        LosersSound(h, path, wk, losers[1..], r.value, files);
      }
    }
  }

  lemma ResolveSound(h: Hashes, st: StoreState, path: string, remote: Version)
    requires Sound(st) && remote.WellFormed()
    ensures Sound(Model.Resolve(h, st, path, remote))
  {
    if Model.Resolve(h, st, path, remote) != st {
      ResolutionLifts(h, st, path, remote);
      PlanIsSound(h, st, path, remote);
      CommitSound(st.files, DerivedPlan(h, st, path, remote).value);
    }
  }

  lemma CandidatesSound(st: StoreState, path: string, remote: Version)
    requires Sound(st) && remote.WellFormed()
    ensures forall v :: v in Candidates(st, path, remote) ==> v.WellFormed()
  {
    HistorySound(st.oplog, path);
  }

  lemma PlanIsSound(h: Hashes, st: StoreState, path: string, remote: Version)
    requires Sound(st) && remote.WellFormed() && DerivedPlan(h, st, path, remote).Some?
    ensures PlanSound(DerivedPlan(h, st, path, remote).value)
  {
    var cs := Candidates(st, path, remote);
    CandidatesSound(st, path, remote);
    AntichainBasics(h, cs);
    PlanShape(h, path, cs, st.files);
    var a := Antichain(h, cs);
    assert a[0] in cs;
    LosersSound(h, path, KeyOf(h, a[0]), a[1..], [Planned(path, WinnerRow(h, a, JoinAll(cs)))], st.files);
  }

  lemma CommitSound(files: map<string, Version>, rows: seq<Planned>)
    requires RowsWellFormed(files) && PlanSound(rows) && DistinctPaths(rows)
    ensures RowsWellFormed(Commit(files, rows))
  {
    CommitIs(files, rows);
    var out := Commit(files, rows);
    forall q | q in out ensures out[q].WellFormed() {
      if PlannedAt(rows, q) {
        var i :| 0 <= i < |rows| && rows[i].path == q;
      } else {
        assert Load(out, q) == Load(files, q);
      }
    }
  }

  lemma ApplySound(st: StoreState, op: Op, decision: Decision)
    requires Sound(st) && op.WellFormed()
    ensures Sound(ApplyRemote(st, op, decision).0)
  {
    var files := ApplyAtPath(st.files, op, decision).0;
    assert RowsWellFormed(files);
    assert RowsWellFormed(ApplyAtSource(files, op));
  }

  lemma AppendSound(h: Hashes, st: StoreState, c: LocalChange)
    requires Sound(st) && c.WellFormed() && c.kind != Rename
    ensures Sound(AppendLocal(h, st, c).0)
  {
  }

  lemma RenameSound(h: Hashes, st: StoreState, source: string, target: string)
    requires Sound(st)
    ensures Sound(AppendLocalRename(h, st, source, target).0)
  {
  }

  // -------------------------------------------------------------- reconciliation

  function ReconcileOne(h: Hashes, st: StoreState, path: string, row: Version): StoreState {
    match Decide(Load(st.files, path), row.vv)
    case Apply => ReconcileUpsert(st, path, row).0
    case Concurrent => Model.Resolve(h, st, path, row)
    case _ => st
  }

  function ReconcileAll(h: Hashes, st: StoreState, rows: seq<(string, Version)>): StoreState
    decreases |rows|
  {
    if rows == [] then st
    else
      var last := rows[|rows| - 1];
      ReconcileOne(h, ReconcileAll(h, st, rows[..|rows| - 1]), last.0, last.1)
  }

  // ------------------------------------------------------------------ the replica

  class Replica {
    const store: Store
    var fs: Fs

    /** The quiesced-point invariant: the file system holds exactly the live rows. */
    ghost predicate Valid()
      reads this, store
    {
      Sound(store.State()) && fs == Live(store.files)
    }

    constructor (node: NodeId)
      ensures Valid() && fresh(store) && store.State() == Init(node)
    {
      store := new Store(node);
      fs := map[];
    }

    method LocalWrite(h: Hashes, path: string, hash: Hash, size: nat, mode: nat, meta: Option<Meta>) returns (r: AppendOutcome)
      requires Valid()
      modifies this, store
      ensures Valid()
      ensures (store.State(), r) == AppendLocal(h, old(store.State()), LocalChange(path, Write, mode, size, Some(hash), meta))
    {
      var c := LocalChange(path, Write, mode, size, Some(hash), meta);
      AppendSound(h, store.State(), c);
      AgreeIsLive(fs, store.files);
      fs := fs[path := hash];
      r := store.AppendLocal(h, c);
      AgreeIsLive(fs, store.files);
    }

    method LocalDelete(h: Hashes, path: string, mode: nat) returns (r: AppendOutcome)
      requires Valid()
      modifies this, store
      ensures Valid()
      ensures (store.State(), r) == AppendLocal(h, old(store.State()), LocalChange(path, Delete, mode, 0, None, None))
    {
      var c := LocalChange(path, Delete, mode, 0, None, None);
      AppendSound(h, store.State(), c);
      AgreeIsLive(fs, store.files);
      fs := fs - {path};
      r := store.AppendLocal(h, c);
      AgreeIsLive(fs, store.files);
    }

    method LocalRename(h: Hashes, source: string, target: string) returns (r: AppendOutcome)
      requires Valid()
      modifies this, store
      ensures Valid()
      ensures (store.State(), r) == AppendLocalRename(h, old(store.State()), source, target)
    {
      RenameSound(h, store.State(), source, target);
      AgreeIsLive(fs, store.files);
      assert At(fs, source) == LiveAt(store.files, source);
      if source in fs {
        var hash := fs[source];
        fs := fs - {source};
        fs := fs[target := hash];
      }
      r := store.AppendLocalRename(h, source, target);
      AgreeIsLive(fs, store.files);
    }

    /** Make the file system agree with the committed row of one path. */
    method SyncFsFromRow(path: string)
      requires Sound(store.State()) && AgreeBut(fs, store.files, Some(path))
      modifies this
      ensures fs == Live(store.files)
    {
      if path in store.files && !store.files[path].tombstone {
        if store.files[path].hash.Some? {
          fs := fs[path := store.files[path].hash.value];
        }
      } else {
        fs := fs - {path};
      }
      AgreeIsLive(fs, store.files);
    }

    /** Copy the committed rows of a resolution into the file system. */
    method MirrorRows(path: string)
      modifies this
      ensures forall p :: At(fs, p) == if p in store.files && (p == path || IsCopyName(p)) then LiveAt(store.files, p) else At(old(fs), p)
    {
      var todo := store.files.Keys;
      while todo != {}
        invariant todo <= store.files.Keys
        invariant forall p :: At(fs, p) == (if p in store.files && p !in todo && (p == path || IsCopyName(p)) then LiveAt(store.files, p) else At(old(fs), p))
        decreases |todo|
      {
        var p :| p in todo;
        todo := todo - {p};
        if p == path || IsCopyName(p) {
          var row := store.files[p];
          if row.hash.Some? && !row.tombstone {
            fs := fs[p := row.hash.value];
          } else {
            fs := fs - {p};
          }
        }
      }
    }

    /** The retry loop every conflict runs: the first round returns the plan, the next commits it. */
    method ResolveConflict(h: Hashes, path: string, remote: Version)
      requires Valid() && remote.WellFormed()
      modifies this, store
      ensures Valid()
      ensures store.State() == Model.Resolve(h, old(store.State()), path, remote)
    {
      ghost var st := store.State();
      var plan := [];
      var tries := 0;
      var done := false;
      while tries < 5 && !done
        invariant fs == old(fs)
        invariant done ==> store.State() == Model.Resolve(h, st, path, remote)
        invariant !done ==> store.State() == st && tries <= 1
        invariant tries == 0 ==> plan == []
        invariant tries == 1 ==> Some(plan) == DerivedPlan(h, st, path, remote)
        decreases 5 - tries
      {
        FirstRoundIsStale(h, st, path, remote);
        var outcome := store.ResolveRows(h, path, remote, plan);
        match outcome {
          case Resolved => done := true;
          case Stale(rederived) => plan := rederived;
          case NotConcurrent(_) => return;
          case Unresolvable => return;
        }
        tries := tries + 1;
      }
      AgreeIsLive(fs, st.files);
      MirrorRows(path);
      MirrorAgrees(h, st, path, remote, old(fs), fs);
      ResolveSound(h, st, path, remote);
      AgreeIsLive(fs, store.files);
    }

    /** The disk effect of an op about to be applied. */
    method ApplyToFs(op: Op)
      requires op.WellFormed()
      modifies this
      ensures fs == FsEffect(old(fs), store.files, op)
    {
      match op.kind {
        case Write => fs := fs[op.path := op.hash.value];
        case Delete => fs := fs - {op.path};
        case Rename =>
          fs := fs[op.path := op.hash.value];
          if Decide(Load(store.files, op.pathOld.value), op.vv) == Apply {
            fs := fs - {op.pathOld.value};
          }
      }
    }

    /** The full receive path for one op; afterwards the file system matches the index again. */
    method Receive(h: Hashes, op: Op) returns (r: Option<Decision>)
      requires Valid() && op.WellFormed()
      modifies this, store
      ensures Valid()
      ensures store.State() == Model.Receive(h, old(store.State()), op)
      ensures r == if op.Id() in old(store.applied) then None else Some(Decide(Load(old(store.files), op.path), op.vv))
      ensures op.Id() !in old(store.applied) && TakesPath(old(store.files), op) ==> At(fs, op.path) == op.hash
      ensures op.Id() !in old(store.applied) && ClearsSource(old(store.files), op) ==> op.pathOld.value !in fs
    {
      if op.Id() in store.applied {
        return None;
      }
      var decision := Decide(Load(store.files, op.path), op.vv);
      ghost var st := store.State();
      DiskAfterReceive(h, st, op);
      AgreeIsLive(fs, store.files);
      if decision == Apply {
        EffectAgrees(st, op, fs);
        ApplyToFs(op);
      } else if decision == Decision.Concurrent {
        ResolveConflict(h, op.path, OpVersion(op));
        AgreeIsLive(fs, store.files);
      }
      ghost var mid := store.State();
      ApplySound(mid, op, decision);
      if decision != Apply {
        RecordedAgrees(mid, op, decision, fs);
      }
      var effective := store.ApplyRemote(op, decision);
      if op.kind == Rename {
        SourceStep(h, op);
      } else {
        AgreeIsLive(fs, store.files);
      }
      return Some(effective.decision);
    }

    /** A rename's second path effect: repair the source from its row, then resolve what did not dominate. */
    method SourceStep(h: Hashes, op: Op)
      requires op.WellFormed() && op.kind == Rename && Sound(store.State()) && AgreeBut(fs, store.files, op.pathOld)
      modifies this, store
      ensures Valid()
      ensures store.State() ==
              if Decide(Load(old(store.files), op.pathOld.value), op.vv) == Decision.Concurrent
              then Model.Resolve(h, old(store.State()), op.pathOld.value, Model.SourceVersion(op))
              else old(store.State())
    {
      var source := op.pathOld.value;
      var decision := Decide(Load(store.files, source), op.vv);
      SyncFsFromRow(source);
      if decision == Decision.Concurrent {
        ResolveConflict(h, source, Model.SourceVersion(op));
      }
    }

    /** One anti-entropy pass over the rows of a remote snapshot. */
    method ReconcileFrom(h: Hashes, rows: seq<(string, Version)>)
      requires Valid() && forall i :: 0 <= i < |rows| ==> rows[i].1.WellFormed()
      modifies this, store
      ensures Valid()
      ensures store.State() == ReconcileAll(h, old(store.State()), rows)
    {
      for i := 0 to |rows|
        invariant Valid()
        invariant store.State() == ReconcileAll(h, old(store.State()), rows[..i])
      {
        assert rows[..i + 1][..i] == rows[..i];
        ReconcileRow(h, rows[i].0, rows[i].1);
      }
      assert rows[..|rows|] == rows;
    }

    method ReconcileRow(h: Hashes, path: string, row: Version)
      requires Valid() && row.WellFormed()
      modifies this, store
      ensures Valid()
      ensures store.State() == ReconcileOne(h, old(store.State()), path, row)
    {
      var decision := Decide(Load(store.files, path), row.vv);
      if decision == Apply {
        AgreeIsLive(fs, store.files);
        var effective := store.ReconcileUpsert(path, row);
        if row.hash.Some? && !row.tombstone {
          fs := fs[path := row.hash.value];
        } else {
          fs := fs - {path};
        }
        AgreeIsLive(fs, store.files);
      } else if decision == Decision.Concurrent {
        ResolveConflict(h, path, row);
      }
    }
  }

  /** The op strictly dominates what is at its path, and is not moved onto itself. */
  predicate TakesPath(files: map<string, Version>, op: Op) {
    op.pathOld != Some(op.path) && (op.kind == Rename ==> !IsCopyName(op.path)) && (op.path in files ==> Less(files[op.path].vv, op.vv))
  }

  /** The op is a rename that strictly dominates what is at its source. */
  predicate ClearsSource(files: map<string, Version>, op: Op) {
    && op.kind == Rename && op.pathOld.Some? && op.pathOld.value != op.path && !IsCopyName(op.pathOld.value)
    && (op.pathOld.value in files ==> Less(files[op.pathOld.value].vv, op.vv))
  }

  /** What the disk holds at the paths of a received op, once disk and index agree. */
  lemma DiskAfterReceive(h: Hashes, st: StoreState, op: Op)
    requires op.WellFormed() && op.Id() !in st.applied
    ensures TakesPath(st.files, op) ==> At(Live(Model.Receive(h, st, op).files), op.path) == op.hash
    ensures ClearsSource(st.files, op) ==> op.pathOld.value !in Live(Model.Receive(h, st, op).files)
  {
    if TakesPath(st.files, op) {
      StoreEffects.ReceivedOpTakesPath(h, st, op);
    }
    if ClearsSource(st.files, op) {
      StoreEffects.ReceivedRenameClearsSource(h, st, op, op.pathOld.value);
    }
  }

  function FsEffect(fs: Fs, files: map<string, Version>, op: Op): Fs
    requires op.WellFormed()
  {
    match op.kind
    case Write => fs[op.path := op.hash.value]
    case Delete => fs - {op.path}
    case Rename =>
      var moved := fs[op.path := op.hash.value];
      if Decide(Load(files, op.pathOld.value), op.vv) == Apply then moved - {op.pathOld.value} else moved
  }

  /** After the commit the disk effect is what the rows say, but for a rename's source. */
  lemma EffectAgrees(st: StoreState, op: Op, fs: Fs)
    requires op.WellFormed() && AgreeBut(fs, st.files, None) && op.Id() !in st.applied
    requires Decide(Load(st.files, op.path), op.vv) == Apply
    ensures AgreeBut(FsEffect(fs, st.files, op), ApplyRemote(st, op, Apply).0.files, op.pathOld)
  {
    var files := ApplyAtPath(st.files, op, Apply).0;
    var after := FsEffect(fs, st.files, op);
    forall p | Some(p) != op.pathOld ensures At(after, p) == LiveAt(ApplyAtSource(files, op), p) {
      assert Load(ApplyAtSource(files, op), p) == Load(files, p);
      assert At(after, p) == if p == op.path then op.hash else At(fs, p);
    }
  }

  /** Recording an op that is not applied leaves disk and index apart at most at a rename's source. */
  lemma RecordedAgrees(st: StoreState, op: Op, decision: Decision, fs: Fs)
    requires AgreeBut(fs, st.files, None) && decision != Apply
    ensures AgreeBut(fs, ApplyRemote(st, op, decision).0.files, op.pathOld)
  {
  }

  /** A plan is never empty, so empty staging never matches. */
  lemma FirstRoundIsStale(h: Hashes, st: StoreState, path: string, remote: Version)
    ensures Decide(Load(st.files, path), remote.vv) == Decision.Concurrent && DerivedPlan(h, st, path, remote).Some? ==>
            DerivedPlan(h, st, path, remote).value != []
  {
    if Decide(Load(st.files, path), remote.vv) == Decision.Concurrent && DerivedPlan(h, st, path, remote).Some? {
      ResolutionLifts(h, st, path, remote);
    }
  }

  /** Mirroring the conflicted path and the copy names restores agreement everywhere. */
  lemma MirrorAgrees(h: Hashes, st: StoreState, path: string, remote: Version, before: Fs, after: Fs)
    requires AgreeBut(before, st.files, None)
    requires var files := Model.Resolve(h, st, path, remote).files;
             forall p :: At(after, p) == if p in files && (p == path || IsCopyName(p)) then LiveAt(files, p) else At(before, p)
    ensures AgreeBut(after, Model.Resolve(h, st, path, remote).files, None)
  {
    var files := Model.Resolve(h, st, path, remote).files;
    Model.ResolveClimbsToo(h, st, path, remote);
    forall p ensures At(after, p) == LiveAt(files, p) {
      if p in files && p != path && !IsCopyName(p) {
        Model.ResolveFrame(h, st, path, remote, p);
        assert Load(files, p) == Load(st.files, p);
      }
    }
  }
}

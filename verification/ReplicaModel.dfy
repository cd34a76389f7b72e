/** The receive path of one node as a state transformer, one step per op (src/replica.rs). */
module ReplicaModel {
  import opened VersionVectors
  import opened CopyNames
  import opened Versions
  import opened Decisions
  import opened Conflict
  import opened PlanLaws
  import opened StoreModel
  import opened StoreLaws
  import opened OpSets

  /** The settled result of the retry loop: the authoritative plan committed, or nothing. */
  function Resolve(h: Hashes, st: StoreState, path: string, remote: Version): StoreState {
    var plan := DerivedPlan(h, st, path, remote);
    if Decide(Load(st.files, path), remote.vv) == Decision.Concurrent && plan.Some?
    then st.(files := Commit(st.files, plan.value))
    else st
  }

  function SourceVersion(op: Op): Version {
    SourceTombstone(op.vv, op.uuid)
  }

  /** Decide, resolve a conflict at the op's path, record the op. */
  function ReceiveAtPath(h: Hashes, st: StoreState, op: Op): StoreState {
    var decision := Decide(Load(st.files, op.path), op.vv);
    var resolved := if decision == Decision.Concurrent then Resolve(h, st, op.path, OpVersion(op)) else st;
    ApplyRemote(resolved, op, decision).0
  }

  function Receive(h: Hashes, st: StoreState, op: Op): StoreState {
    if op.Id() in st.applied then st
    else
      var mid := ReceiveAtPath(h, st, op);
      if op.kind == Rename && op.pathOld.Some? && Decide(Load(mid.files, op.pathOld.value), op.vv) == Decision.Concurrent
      then Resolve(h, mid, op.pathOld.value, SourceVersion(op))
      else mid
  }

  /** A conflict at the op's path that the copy-depth limit refuses to settle. */
  predicate Unsettled(h: Hashes, st: StoreState, op: Op) {
    Decide(Load(st.files, op.path), op.vv) == Decision.Concurrent && DerivedPlan(h, st, op.path, OpVersion(op)).None?
  }

  /** A conflict at a rename's source that the copy-depth limit refuses to settle. */
  predicate SourceUnsettled(h: Hashes, st: StoreState, op: Op) {
    && op.kind == Rename && op.pathOld.Some?
    && var mid := ReceiveAtPath(h, st, op);
       && Decide(Load(mid.files, op.pathOld.value), op.vv) == Decision.Concurrent
       && DerivedPlan(h, mid, op.pathOld.value, SourceVersion(op)).None?
  }

  /** Outside copy names, a resolution writes the conflicted path and nothing else. */
  lemma ResolveFrame(h: Hashes, st: StoreState, path: string, remote: Version, p: string)
    requires !IsCopyName(p) && p != path
    ensures Load(Resolve(h, st, path, remote).files, p) == Load(st.files, p)
  {
    if Resolve(h, st, path, remote) != st {
      ResolutionLifts(h, st, path, remote);
      CommitIs(st.files, DerivedPlan(h, st, path, remote).value);
    }
  }

  /** At the conflicted path it writes the first planned row. */
  lemma ResolveWrites(h: Hashes, st: StoreState, path: string, remote: Version)
    requires Decide(Load(st.files, path), remote.vv) == Decision.Concurrent
    requires DerivedPlan(h, st, path, remote).Some?
    ensures Antichain(h, Candidates(st, path, remote)) != []
    ensures var cs := Candidates(st, path, remote);
            Load(Resolve(h, st, path, remote).files, path) == Some(WinnerRow(h, Antichain(h, cs), JoinAll(cs)))
  {
    ResolutionLifts(h, st, path, remote);
    PlanShape(h, path, Candidates(st, path, remote), st.files);
    CommitIs(st.files, DerivedPlan(h, st, path, remote).value);
  }

  lemma ResolveClimbsToo(h: Hashes, st: StoreState, path: string, remote: Version)
    ensures Climbs(st.files, Resolve(h, st, path, remote).files)
  {
    var plan := DerivedPlan(h, st, path, remote);
    if plan.Some? {
      ResolveClimbs(h, st, path, remote, plan.value);
    }
  }

  lemma ReceiveAtPathClimbs(h: Hashes, st: StoreState, op: Op)
    ensures Climbs(st.files, ReceiveAtPath(h, st, op).files)
  {
    var decision := Decide(Load(st.files, op.path), op.vv);
    var resolved := if decision == Decision.Concurrent then Resolve(h, st, op.path, OpVersion(op)) else st;
    ResolveClimbsToo(h, st, op.path, OpVersion(op));
    ApplyClimbs(resolved, op, decision);
    ClimbsTransitive(st.files, resolved.files, ApplyRemote(resolved, op, decision).0.files);
  }

  /** Receiving an op, a rename's resolution at its source included, never lowers a row. */
  lemma ReceiveClimbs(h: Hashes, st: StoreState, op: Op)
    ensures Climbs(st.files, Receive(h, st, op).files)
  {
    if op.Id() !in st.applied {
      var mid := ReceiveAtPath(h, st, op);
      ReceiveAtPathClimbs(h, st, op);
      if op.pathOld.Some? {
        ResolveClimbsToo(h, mid, op.pathOld.value, SourceVersion(op));
        ClimbsTransitive(st.files, mid.files, Resolve(h, mid, op.pathOld.value, SourceVersion(op)).files);
      }
    }
  }
}

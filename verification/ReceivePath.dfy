/**
 The receive path of one op as src/net.rs runs it, as a function: what the
 store is left with, whatever other commands land between its own, and whether
 the connection survives. Undisturbed, it is exactly the receive step of a replica.
 */
module ReceivePath {
  import opened VersionVectors
  import opened Versions
  import opened Decisions
  import opened Conflict
  import opened PlanLaws
  import opened StoreModel
  import opened StoreLaws
  import OpSets
  import Model = ReplicaModel

  /** Rounds before a resolution gives up under interference. */
  const ROUNDS: nat := 4

  /** How fetching and writing content ended. */
  datatype Fetch = Fetched | Permanent | Transient

  /** What goes on around one resolution: other commands before each round, and how staging its plan ends. */
  datatype Round = Round(noise: seq<Command>, staging: Fetch)

  /** The circumstances of one received op. */
  datatype Weather = Weather(fetch: Fetch, noise: seq<Command>, first: seq<Round>, second: seq<Round>, third: seq<Round>)

  /** The rounds of `resolve_concurrent_at`. */
  function Rounds(h: Hashes, st: StoreState, path: string, remote: Version, rounds: seq<Round>, staged: seq<Planned>): (StoreState, bool)
    decreases |rounds|
  {
    if rounds == [] then (st, true)
    else
      var now := ExecAll(h, st, rounds[0].noise);
      var (after, r) := ResolveRows(h, now, path, remote, staged);
      if !r.Stale? || rounds[0].staging == Permanent then (after, true)
      else if rounds[0].staging == Transient then (after, false)
      else Rounds(h, after, path, remote, rounds[1..], r.plan)
  }

  /** What follows the commit: a downgraded apply, then a rename's source, are resolved. */
  function Follow(h: Hashes, st: StoreState, op: Op, decision: Decision, effective: Decision, env: Weather): (StoreState, bool) {
    var (mid, ok) := if decision == Apply && effective == Decision.Concurrent
                     then Rounds(h, st, op.path, OpSets.OpVersion(op), env.second, []) else (st, true);
    if ok && op.kind == Rename && decision != Quarantined && op.pathOld.Some?
       && Decide(Load(mid.files, op.pathOld.value), op.vv) == Decision.Concurrent
    then Rounds(h, mid, op.pathOld.value, Model.SourceVersion(op), env.third, [])
    else (mid, ok)
  }

  function CommitThenFollow(h: Hashes, st: StoreState, op: Op, decision: Decision, env: Weather): (StoreState, bool) {
    var (after, outcome) := ApplyRemote(st, op, decision);
    if outcome.RenameWithoutSource? then (after, false) else Follow(h, after, op, decision, outcome.decision, env)
  }

  /** The decision the op is committed with. */
  function Committed(decision: Decision, fetch: Fetch): Decision {
    if decision == Apply && fetch == Permanent then Quarantined else decision
  }

  function Process(h: Hashes, st: StoreState, op: Op, env: Weather): (StoreState, bool) {
    var decision := Decide(Load(st.files, op.path), op.vv);
    if op.Id() in st.applied then (st, true)
    else if decision == Apply && env.fetch == Transient then (st, false)
    else
      var (mid, ok) := if decision == Decision.Concurrent then Rounds(h, st, op.path, OpSets.OpVersion(op), env.first, []) else (st, true);
      if !ok then (mid, false)
      else CommitThenFollow(h, ExecAll(h, mid, env.noise), op, Committed(decision, env.fetch), env)
  }

  // ------------------------------------------------------------- calm weather

  predicate CalmRounds(rounds: seq<Round>) {
    |rounds| == ROUNDS && forall i :: 0 <= i < |rounds| ==> rounds[i] == Round([], Fetched)
  }

  /** Nothing else touches the store, and every fetch succeeds. */
  predicate Calm(env: Weather) {
    env.fetch == Fetched && env.noise == [] && CalmRounds(env.first) && CalmRounds(env.second) && CalmRounds(env.third)
  }

  /** Undisturbed, the second round commits the plan the first one was told. */
  lemma CalmRoundsResolve(h: Hashes, st: StoreState, path: string, remote: Version, rounds: seq<Round>)
    requires CalmRounds(rounds)
    ensures Rounds(h, st, path, remote, rounds, []) == (Model.Resolve(h, st, path, remote), true)
  {
    assert ExecAll(h, st, []) == st;
    var r := ResolveRows(h, st, path, remote, []).1;
    if r.Stale? {
      SecondRound(h, st, path, remote, rounds);
    } else {
      OneRound(h, st, path, remote);
    }
  }

  lemma OneRound(h: Hashes, st: StoreState, path: string, remote: Version)
    requires !ResolveRows(h, st, path, remote, []).1.Stale?
    ensures ResolveRows(h, st, path, remote, []).0 == st == Model.Resolve(h, st, path, remote)
  {
    if Decide(Load(st.files, path), remote.vv) == Decision.Concurrent && DerivedPlan(h, st, path, remote).Some? {
      ResolutionLifts(h, st, path, remote);
    }
  }

  lemma SecondRound(h: Hashes, st: StoreState, path: string, remote: Version, rounds: seq<Round>)
    requires CalmRounds(rounds) && ResolveRows(h, st, path, remote, []).1.Stale?
    ensures Rounds(h, st, path, remote, rounds, []) == (Model.Resolve(h, st, path, remote), true)
  {
    var plan := DerivedPlan(h, st, path, remote).value;
    assert ExecAll(h, st, []) == st;
    assert rounds[1..][0] == Round([], Fetched);
    assert Rounds(h, st, path, remote, rounds, []) == Rounds(h, st, path, remote, rounds[1..], plan);
    assert ResolveRows(h, st, path, remote, plan) == (st.(files := Commit(st.files, plan)), Resolved);
  }

  /**
   Undisturbed, the receive path of the engine is the receive step of a replica,
   which the run theorems are about.
   */
  lemma CalmIsReceive(h: Hashes, st: StoreState, op: Op, env: Weather)
    requires Calm(env) && op.WellFormed()
    ensures Process(h, st, op, env) == (Model.Receive(h, st, op), true)
  {
    if op.Id() !in st.applied {
      var decision := Decide(Load(st.files, op.path), op.vv);
      DecideMeaning(Load(st.files, op.path), op.vv);
      CalmRoundsResolve(h, st, op.path, OpSets.OpVersion(op), env.first);
      var mid := if decision == Decision.Concurrent then Model.Resolve(h, st, op.path, OpSets.OpVersion(op)) else st;
      assert ExecAll(h, mid, []) == mid;
      CalmCommit(h, mid, op, decision, env);
    }
  }

  lemma CalmCommit(h: Hashes, st: StoreState, op: Op, decision: Decision, env: Weather)
    requires Calm(env) && op.WellFormed() && op.Id() !in st.applied && decision != Quarantined
    requires decision == Apply ==> Decide(Load(st.files, op.path), op.vv) == Apply
    ensures var after := ApplyRemote(st, op, decision).0;
            CommitThenFollow(h, st, op, decision, env) ==
            (if op.kind == Rename && Decide(Load(after.files, op.pathOld.value), op.vv) == Decision.Concurrent
             then Model.Resolve(h, after, op.pathOld.value, Model.SourceVersion(op)) else after, true)
  {
    var after := ApplyRemote(st, op, decision).0;
    if op.kind == Rename {
      CalmRoundsResolve(h, after, op.pathOld.value, Model.SourceVersion(op), env.third);
    }
  }

  // --------------------------------------------------------------- any weather

  /**
   Fetched and still dominating at commit, a write or delete is applied: the row
   is the op's, whatever else the store did in between.
   */
  lemma FetchedIsApplied(h: Hashes, st: StoreState, op: Op, env: Weather)
    requires op.kind != Rename && op.Id() !in st.applied && env.fetch == Fetched
    requires Decide(Load(st.files, op.path), op.vv) == Apply
    requires var now := ExecAll(h, st, env.noise); op.Id() !in now.applied && Decide(Load(now.files, op.path), op.vv) == Apply
    ensures var now := ExecAll(h, st, env.noise);
            var (after, ok) := Process(h, st, op, env);
            && ok && op.Id() in after.applied && op.path in after.files
            && after.files[op.path].tombstone == (op.kind == Delete) && after.files[op.path].vv == op.vv
            && (op.kind == Write ==> after.files[op.path].hash == op.hash && after.files[op.path].meta == op.meta
                                     && after.files[op.path].mode == op.mode && after.files[op.path].size == op.size)
            && (op.kind == Delete ==> after.files[op.path].hash == None && after.files[op.path].meta == None)
            && forall q :: q != op.path ==> Load(after.files, q) == Load(now.files, q)
  {
    var now := ExecAll(h, st, env.noise);
    JoinLifts(now.files, op.path, op.vv);
  }

  /**
   Content that can never be had: the op is recorded, and no row changes but a
   rename's source that the op strictly dominates.
   */
  lemma PermanentIsQuarantined(h: Hashes, st: StoreState, op: Op, env: Weather)
    requires op.Id() !in st.applied && env.fetch == Permanent && op.WellFormed() && Decide(Load(st.files, op.path), op.vv) == Apply
    requires op.Id() !in ExecAll(h, st, env.noise).applied
    ensures var now := ExecAll(h, st, env.noise);
            var (after, ok) := Process(h, st, op, env);
            && ok && op.Id() in after.applied
            && forall q :: !(op.pathOld == Some(q) && (q in now.files ==> Less(now.files[q].vv, op.vv))) ==> Load(after.files, q) == Load(now.files, q)
  {
    var now := ExecAll(h, st, env.noise);
    if op.pathOld.Some? {
      DecideMeaning(Load(now.files, op.pathOld.value), op.vv);
    }
  }

  /**
   A write that lands during the transfer turns a stale Apply into a conflict:
   the op is recorded, then resolved against it, and the row covers both.
   */
  lemma DowngradedIsResolved(h: Hashes, st: StoreState, op: Op, env: Weather)
    requires op.kind != Rename && op.Id() !in st.applied && env.fetch == Fetched && CalmRounds(env.second)
    requires Decide(Load(st.files, op.path), op.vv) == Apply
    requires var now := ExecAll(h, st, env.noise);
             && op.Id() !in now.applied && Decide(Load(now.files, op.path), op.vv) == Decision.Concurrent
             && DerivedPlan(h, ApplyRemote(now, op, Apply).0, op.path, OpSets.OpVersion(op)).Some?
    ensures var now := ExecAll(h, st, env.noise);
            var (after, ok) := Process(h, st, op, env);
            && ok && op.Id() in after.applied && op.path in after.files && op.path in now.files
            && Leq(op.vv, after.files[op.path].vv) && Less(now.files[op.path].vv, after.files[op.path].vv)
  {
    DowngradedCommit(h, ExecAll(h, st, env.noise), op, env);
  }

  lemma DowngradedCommit(h: Hashes, now: StoreState, op: Op, env: Weather)
    requires op.kind != Rename && CalmRounds(env.second)
    requires op.Id() !in now.applied && Decide(Load(now.files, op.path), op.vv) == Decision.Concurrent
    requires DerivedPlan(h, ApplyRemote(now, op, Apply).0, op.path, OpSets.OpVersion(op)).Some?
    ensures var (after, ok) := CommitThenFollow(h, now, op, Apply, env);
            && ok && op.Id() in after.applied && op.path in after.files && op.path in now.files
            && Leq(op.vv, after.files[op.path].vv) && Less(now.files[op.path].vv, after.files[op.path].vv)
  {
    var recorded := ApplyRemote(now, op, Apply).0;
    assert recorded.files == now.files && op.Id() in recorded.applied;
    FollowsUp(h, recorded, op, env);
  }

  lemma FollowsUp(h: Hashes, st: StoreState, op: Op, env: Weather)
    requires op.kind != Rename && CalmRounds(env.second) && Decide(Load(st.files, op.path), op.vv) == Decision.Concurrent
    requires DerivedPlan(h, st, op.path, OpSets.OpVersion(op)).Some?
    ensures var (after, ok) := Follow(h, st, op, Apply, Decision.Concurrent, env);
            && ok && after == st.(files := after.files) && op.path in after.files && op.path in st.files
            && Leq(op.vv, after.files[op.path].vv) && Less(st.files[op.path].vv, after.files[op.path].vv)
  {
    CalmRoundsResolve(h, st, op.path, OpSets.OpVersion(op), env.second);
    ResolvedLifts(h, st, op.path, OpSets.OpVersion(op));
  }

  lemma ResolvedLifts(h: Hashes, st: StoreState, path: string, remote: Version)
    requires Decide(Load(st.files, path), remote.vv) == Decision.Concurrent && DerivedPlan(h, st, path, remote).Some?
    ensures var after := Model.Resolve(h, st, path, remote);
            && path in st.files && path in after.files && after == st.(files := after.files)
            && Leq(remote.vv, after.files[path].vv) && Less(st.files[path].vv, after.files[path].vv)
  {
    ResolutionLifts(h, st, path, remote);
    CommitIs(st.files, DerivedPlan(h, st, path, remote).value);
  }

  /** Staging that fails leaves the store as it was; for good, the op goes on, and for now, the connection ends. */
  lemma StagingFails(h: Hashes, st: StoreState, path: string, remote: Version, rounds: seq<Round>)
    requires rounds != [] && rounds[0].staging != Fetched && Decide(Load(ExecAll(h, st, rounds[0].noise).files, path), remote.vv) == Decision.Concurrent
    requires DerivedPlan(h, ExecAll(h, st, rounds[0].noise), path, remote).Some?
    ensures Rounds(h, st, path, remote, rounds, []) == (ExecAll(h, st, rounds[0].noise), rounds[0].staging == Permanent)
  {
    ResolutionLifts(h, ExecAll(h, st, rounds[0].noise), path, remote);
  }

  /** Content that cannot be had now: nothing is recorded, and the connection ends. */
  lemma TransientEnds(h: Hashes, st: StoreState, op: Op, env: Weather)
    requires op.Id() !in st.applied && env.fetch == Transient && Decide(Load(st.files, op.path), op.vv) == Apply
    ensures Process(h, st, op, env) == (st, false)
  {
  }
}

/** The durable store as state transformers, one per command, over the op log and the file index (src/oplog.rs, src/state.rs). */
module StoreModel {
  import opened VersionVectors
  import opened Versions
  import opened Decisions
  import opened Conflict

  /** The tables of one node. `oplog` is in arrival order. */
  datatype StoreState = StoreState(
    node: NodeId,
    files: map<string, Version>,
    oplog: seq<Op>,
    applied: set<OpId>,
    recv: map<(NodeId, NodeId), int>,
    acked: map<(NodeId, NodeId), int>)

  function Init(node: NodeId): StoreState {
    StoreState(node, map[], [], {}, map[], map[])
  }

  datatype LocalChange = LocalChange(path: string, kind: OpType, mode: nat, size: nat, hash: Option<Hash>, meta: Option<Meta>)
  {
    /** What the watcher and the scanner hand over: deletes carry nothing. */
    predicate WellFormed() {
      && (kind == Delete <==> hash.None?)
      && (kind == Delete ==> meta.None? && size == 0)
    }
  }

  datatype AppendOutcome = Appended(op: Op) | NoOp | RenameIsNotAChange

  datatype ApplyOutcome = Effective(decision: Decision) | RenameWithoutSource

  datatype ResolveOutcome = Resolved | NotConcurrent(decision: Decision) | Stale(plan: seq<Planned>) | Unresolvable

  function Load(files: map<string, Version>, path: string): Option<Version> {
    if path in files then Some(files[path]) else None
  }

  function VvAt(files: map<string, Version>, path: string): VersionVector {
    if path in files then files[path].vv else map[]
  }

  function Cursor(table: map<(NodeId, NodeId), int>, peer: NodeId, origin: NodeId): int {
    if (peer, origin) in table then table[(peer, origin)] else 0
  }

  /** A cursor only moves forward. */
  function Raise(table: map<(NodeId, NodeId), int>, peer: NodeId, origin: NodeId, upTo: int): map<(NodeId, NodeId), int> {
    var cur := Cursor(table, peer, origin);
    table[(peer, origin) := if upTo > cur then upTo else cur]
  }

  function LatestSeq(oplog: seq<Op>, origin: NodeId): nat {
    if oplog == [] then 0
    else
      var rest := LatestSeq(oplog[..|oplog| - 1], origin);
      var last := oplog[|oplog| - 1];
      if last.origin == origin && last.seqno > rest then last.seqno else rest
  }

  predicate Logged(oplog: seq<Op>, id: OpId) {
    exists o :: o in oplog && o.Id() == id
  }

  /** The op id is unique in the log: a second insert is ignored. */
  function InsertOp(oplog: seq<Op>, op: Op): seq<Op> {
    if Logged(oplog, op.Id()) then oplog else oplog + [op]
  }

  // ------------------------------------------------------------ local changes

  predicate IsNoOp(h: Hashes, local: Option<Version>, c: LocalChange) {
    match c.kind
    case Write =>
      local.Some? && !local.value.tombstone && local.value.hash == c.hash
      && h.MetaHash(local.value.meta) == h.MetaHash(c.meta)
    case Delete => local.None? || local.value.tombstone
    case Rename => false
  }

  function LocalUuid(h: Hashes, st: StoreState, c: LocalChange, seqno: nat): Uuid {
    if c.path in st.files && !(c.kind == Write && st.files[c.path].tombstone) then
      if st.files[c.path].uuid.Some? then st.files[c.path].uuid.value else h.migrationUuid(c.path)
    else h.freshUuid(st.node, seqno, c.path)
  }

  function LocalOp(h: Hashes, st: StoreState, c: LocalChange): Op {
    var seqno := LatestSeq(st.oplog, st.node) + 1;
    Op(st.node, seqno, c.kind, c.path, None, Some(LocalUuid(h, st, c, seqno)), c.mode, c.size, c.hash, c.meta,
       Increment(VvAt(st.files, c.path), st.node))
  }

  function AppendLocal(h: Hashes, st: StoreState, c: LocalChange): (StoreState, AppendOutcome) {
    if c.kind == Rename then (st, RenameIsNotAChange)
    else if IsNoOp(h, Load(st.files, c.path), c) then (st, NoOp)
    else
      var op := LocalOp(h, st, c);
      var row := Version(c.kind == Delete, c.hash, c.meta, c.mode, c.size, op.vv, op.uuid);
      (st.(oplog := InsertOp(st.oplog, op), files := st.files[c.path := row]), Appended(op))
  }

  function RenameOp(h: Hashes, st: StoreState, source: string, target: string): Op
    requires source in st.files
  {
    var src := st.files[source];
    var uuid := if src.uuid.Some? then src.uuid.value else h.migrationUuid(source);
    Op(st.node, LatestSeq(st.oplog, st.node) + 1, Rename, target, Some(source), Some(uuid), src.mode, src.size, src.hash, src.meta,
       Increment(if target in st.files then Join(src.vv, st.files[target].vv) else src.vv, st.node))
  }

  function SourceTombstone(vv: VersionVector, uuid: Option<Uuid>): Version {
    Version(true, None, None, 0, 0, vv, uuid)
  }

  function AppendLocalRename(h: Hashes, st: StoreState, source: string, target: string): (StoreState, AppendOutcome) {
    if source == target || source !in st.files || st.files[source].tombstone then (st, NoOp)
    else
      var op := RenameOp(h, st, source, target);
      var files := st.files[source := SourceTombstone(op.vv, op.uuid)];
      (st.(oplog := InsertOp(st.oplog, op),
           files := files[target := Version(false, op.hash, op.meta, op.mode, op.size, op.vv, op.uuid)]), Appended(op))
  }

  // --------------------------------------------------------------- remote ops

  /** The row an applied op leaves at its own path. */
  function OpRow(op: Op, vv: VersionVector): Version {
    if op.kind == Delete then Version(true, None, None, op.mode, 0, vv, op.uuid)
    else Version(false, op.hash, op.meta, op.mode, op.size, vv, op.uuid)
  }

  /** The first path effect: re-validated against the row present at commit. */
  function ApplyAtPath(files: map<string, Version>, op: Op, decision: Decision): (map<string, Version>, Decision) {
    if decision != Apply then (files, decision)
    else
      var effective := Decide(Load(files, op.path), op.vv);
      if effective != Apply then (files, effective)
      else (files[op.path := OpRow(op, Join(VvAt(files, op.path), op.vv))], Apply)
  }

  /** A rename's second path effect, decided for the source path alone. */
  function ApplyAtSource(files: map<string, Version>, op: Op): map<string, Version> {
    if op.kind != Rename || op.pathOld.None? then files
    else if Decide(Load(files, op.pathOld.value), op.vv) != Apply then files
    else files[op.pathOld.value := SourceTombstone(Join(VvAt(files, op.pathOld.value), op.vv), op.uuid)]
  }

  function ApplyRemote(st: StoreState, op: Op, decision: Decision): (StoreState, ApplyOutcome) {
    var recv := Raise(st.recv, op.origin, op.origin, op.seqno);
    if op.Id() in st.applied then (st.(recv := recv), Effective(decision))
    else if op.kind == Rename && op.pathOld.None? then (st, RenameWithoutSource)
    else
      var (files, effective) := ApplyAtPath(st.files, op, decision);
      (st.(oplog := InsertOp(st.oplog, op), files := ApplyAtSource(files, op), applied := st.applied + {op.Id()}, recv := recv),
       Effective(effective))
  }

  // ------------------------------------------------------------- anti-entropy

  function ReconcileUpsert(st: StoreState, path: string, row: Version): (StoreState, Decision) {
    var effective := Decide(Load(st.files, path), row.vv);
    if effective != Apply then (st, effective)
    else (st.(files := st.files[path := row.(vv := Join(VvAt(st.files, path), row.vv))]), Apply)
  }

  // --------------------------------------------------------------- resolution

  predicate Affects(op: Op, path: string) {
    op.path == path || op.pathOld == Some(path)
  }

  /** An op as a candidate at `path`: a rename seen from its source is a tombstone. */
  function AsCandidate(op: Op, path: string): Version {
    if op.kind == Delete || (op.kind == Rename && op.path != path)
    then Version(true, None, None, 0, 0, op.vv, op.uuid)
    else Version(false, op.hash, op.meta, op.mode, op.size, op.vv, op.uuid)
  }

  function History(oplog: seq<Op>, path: string): seq<Version> {
    if oplog == [] then []
    else
      var last := oplog[|oplog| - 1];
      History(oplog[..|oplog| - 1], path) + if Affects(last, path) then [AsCandidate(last, path)] else []
  }

  /** History and remote version; the row joins only when they do not explain its vector. */
  function Candidates(st: StoreState, path: string, remote: Version): seq<Version> {
    var cs := History(st.oplog, path) + [remote];
    if path in st.files && !Leq(st.files[path].vv, JoinAll(cs)) then cs + [st.files[path]] else cs
  }

  function Commit(files: map<string, Version>, rows: seq<Planned>): map<string, Version> {
    if rows == [] then files
    else Commit(files, rows[..|rows| - 1])[rows[|rows| - 1].path := rows[|rows| - 1].row]
  }

  function DerivedPlan(h: Hashes, st: StoreState, path: string, remote: Version): Option<seq<Planned>> {
    Plan(h, path, Candidates(st, path, remote), st.files)
  }

  function ResolveRows(h: Hashes, st: StoreState, path: string, remote: Version, staged: seq<Planned>): (StoreState, ResolveOutcome) {
    var decision := Decide(Load(st.files, path), remote.vv);
    if decision != Decision.Concurrent then (st, NotConcurrent(decision))
    else
      var derived := DerivedPlan(h, st, path, remote);
      if derived.None? then (st, Unresolvable)
      else if derived.value != staged then (st, Stale(derived.value))
      else (st.(files := Commit(st.files, derived.value)), Resolved)
  }
}

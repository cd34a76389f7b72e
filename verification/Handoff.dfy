/**
 The join and live-stream handoff between a pusher and a subscriber
 (src/net.rs, src/oplog.rs): snapshot, frontier, cursor, stream and acks, over
 any number of overlapping sessions that may end at any point, with both
 stores free to run any other command in between.
 */
module Handoff {
  import opened VersionVectors
  import opened Versions
  import opened Decisions
  import opened Conflict
  import opened StoreModel
  import opened StoreLaws
  import opened NetRuns
  import ReplicaModel
  import Replicas

  /** One connection, from Hello to the live stream. Everything in it is lost when it ends. */
  datatype Session =
    | Hello(resume: int)
    | Pulling(resume: int, rows: map<string, Version>, frontier: int, done: set<string>)
    | Ready(start: int)
    | Live(cursor: int, sent: int, pushed: seq<Op>, handled: seq<int>, acks: seq<int>)

  datatype World = World(p: StoreState, s: StoreState, sessions: map<nat, Session>)

  datatype Event =
    | PusherRuns(c: Command)
    | SubscriberRuns(c: Command)
    | Connect(id: nat)
    | Snapshot(id: nat)
    | PullLeaf(id: nat, path: string)
    | Handoff(id: nat)
    | Subscribe(id: nat)
    | Push(id: nat, op: Op)
    | Publish(id: nat)
    | Receive(id: nat, decision: Decision)
    | SendAck(id: nat)
    | TakeAck(id: nat)
    | Drop(id: nat)

  /** The subscriber's durable cursor over the pusher's ops. */
  function RecvCursor(w: World): int { Cursor(w.s.recv, w.p.node, w.p.node) }

  /** What the pusher has durably recorded as acknowledged. */
  function Acked(w: World): int { Cursor(w.p.acked, w.s.node, w.p.node) }

  predicate Own(w: World, o: Op) {
    o in w.p.oplog && o.origin == w.p.node
  }

  /** `op` is the next own op after `cursor`, as ops_since orders them. */
  predicate IsNext(p: StoreState, cursor: int, op: Op) {
    && op in p.oplog && op.origin == p.node && op.seqno > cursor
    && forall o :: o in p.oplog && o.origin == p.node && o.seqno > cursor ==> op.seqno <= o.seqno
  }

  predicate Covered(files: map<string, Version>, path: string, vv: VersionVector) {
    path in files && Leq(vv, files[path].vv)
  }

  /** Every path an op affects is covered: its own and, for a rename, its source. */
  predicate CoveredOp(files: map<string, Version>, o: Op) {
    Covered(files, o.path, o.vv) && (o.pathOld.Some? ==> Covered(files, o.pathOld.value, o.vv))
  }

  /** The other commands of either store leave this link's cursor, acks and origin alone. */
  predicate Enabled(w: World, e: Event) {
    match e
    case PusherRuns(c) => !(c.DoApply? && c.op.origin == w.p.node) && !(c.DoAck? && c.acker == w.s.node)
    case SubscriberRuns(c) => !(c.DoApply? && c.op.origin == w.p.node) && !(c.DoAdvanceRecv? && c.origin == w.p.node)
    case Connect(id) => id !in w.sessions
    case Snapshot(id) => id in w.sessions && w.sessions[id].Hello?
    case PullLeaf(id, path) => id in w.sessions && w.sessions[id].Pulling? && path in w.sessions[id].rows
    case Handoff(id) => id in w.sessions && w.sessions[id].Pulling?
    case Subscribe(id) => id in w.sessions && w.sessions[id].Ready?
    case Push(id, op) => id in w.sessions && w.sessions[id].Live? && IsNext(w.p, w.sessions[id].cursor, op)
    case Publish(id) => id in w.sessions && w.sessions[id].Live?
    case Receive(id, _) => id in w.sessions && w.sessions[id].Live? && w.sessions[id].pushed != []
    case SendAck(id) => id in w.sessions && w.sessions[id].Live? && w.sessions[id].handled != []
    case TakeAck(id) => id in w.sessions && w.sessions[id].Live? && w.sessions[id].acks != []
    case Drop(id) => id in w.sessions
  }

  /** A leaf is done once the local row covers it; a skipped leaf stays undone. */
  function PullOne(h: Hashes, w: World, id: nat, path: string): World
    requires id in w.sessions && w.sessions[id].Pulling? && path in w.sessions[id].rows
  {
    var x := w.sessions[id];
    var s' := Replicas.ReconcileOne(h, w.s, path, x.rows[path]);
    if Covered(s'.files, path, x.rows[path].vv)
    then w.(s := s', sessions := w.sessions[id := x.(done := x.done + {path})])
    else w.(s := s')
  }

  /** The cursor moves to the snapshot's frontier, whatever the pull skipped. */
  function HandOver(w: World, id: nat): World
    requires id in w.sessions && w.sessions[id].Pulling?
  {
    var x := w.sessions[id];
    var start := if x.frontier > x.resume then x.frontier else x.resume;
    var s' := if start > x.resume then w.s.(recv := Raise(w.s.recv, w.p.node, w.p.node, start)) else w.s;
    w.(s := s', sessions := w.sessions[id := Ready(start)])
  }

  /** Redelivery only re-acks; otherwise the op is committed before its ack may leave. */
  function TakeOp(w: World, id: nat, decision: Decision): World
    requires id in w.sessions && w.sessions[id].Live? && w.sessions[id].pushed != []
  {
    var x := w.sessions[id];
    var op := x.pushed[0];
    var x' := x.(pushed := x.pushed[1..], handled := x.handled + [op.seqno]);
    if op.Id() in w.s.applied then w.(sessions := w.sessions[id := x'])
    else
      var (s', outcome) := ApplyRemote(w.s, op, decision);
      if outcome.RenameWithoutSource? then w.(sessions := w.sessions - {id})
      else w.(s := s', sessions := w.sessions[id := x'])
  }

  /** An ack beyond the published frontier ends the connection. */
  function RecordAck(w: World, id: nat): World
    requires id in w.sessions && w.sessions[id].Live? && w.sessions[id].acks != []
  {
    var x := w.sessions[id];
    if x.acks[0] > x.sent then w.(sessions := w.sessions - {id})
    else w.(p := w.p.(acked := Raise(w.p.acked, w.s.node, w.p.node, x.acks[0])),
            sessions := w.sessions[id := x.(acks := x.acks[1..])])
  }

  function Step(h: Hashes, w: World, e: Event): World
    requires Enabled(w, e)
  {
    match e
    case PusherRuns(c) => w.(p := Exec(h, w.p, c))
    case SubscriberRuns(c) => w.(s := Exec(h, w.s, c))
    case Connect(id) => w.(sessions := w.sessions[id := Hello(RecvCursor(w))])
    case Snapshot(id) => w.(sessions := w.sessions[id := Pulling(w.sessions[id].resume, w.p.files, LatestSeq(w.p.oplog, w.p.node), {})])
    case PullLeaf(id, path) => PullOne(h, w, id, path)
    case Handoff(id) => HandOver(w, id)
    case Subscribe(id) => w.(sessions := w.sessions[id := Live(w.sessions[id].start, w.sessions[id].start, [], [], [])])
    case Push(id, op) => w.(sessions := w.sessions[id := w.sessions[id].(cursor := op.seqno, pushed := w.sessions[id].pushed + [op])])
    case Publish(id) => w.(sessions := w.sessions[id := w.sessions[id].(sent := w.sessions[id].cursor)])
    case Receive(id, decision) => TakeOp(w, id, decision)
    case SendAck(id) => w.(sessions := w.sessions[id := w.sessions[id].(handled := w.sessions[id].handled[1..], acks := w.sessions[id].acks + [w.sessions[id].handled[0]])])
    case TakeAck(id) => RecordAck(w, id)
    case Drop(id) => w.(sessions := w.sessions - {id})
  }

  // ---------------------------------------------------------------- the invariant

  /** The subscriber has dealt with `o`: recorded it, or holds rows that cover it wherever it has an effect. */
  predicate Dealt(s: StoreState, o: Op) {
    o.Id() in s.applied || CoveredOp(s.files, o)
  }

  ghost predicate DealtUpTo(w: World, n: int) {
    forall o :: Own(w, o) && o.seqno <= n ==> Dealt(w.s, o)
  }

  /** The pusher's own numbers are dense and its rows cover its own ops. */
  ghost predicate PusherOk(p: StoreState) {
    && OwnSeqsDense(p)
    && forall o :: o in p.oplog && o.origin == p.node ==> CoveredOp(p.files, o)
  }

  ghost predicate CursorOk(w: World) {
    && 0 <= RecvCursor(w) <= LatestSeq(w.p.oplog, w.p.node)
    && DealtUpTo(w, RecvCursor(w))
    && (forall id :: id in w.s.applied && id.0 == w.p.node ==> id.1 <= RecvCursor(w))
    && Acked(w) <= RecvCursor(w)
  }

  ghost predicate AllAtMost(q: seq<int>, n: int) {
    forall i :: 0 <= i < |q| ==> q[i] <= n
  }

  /** The frames in flight are the own ops right after what was received. */
  ghost predicate InFlight(w: World, cursor: int, pushed: seq<Op>) {
    forall i :: 0 <= i < |pushed| ==> Own(w, pushed[i]) && pushed[i].seqno == cursor - |pushed| + 1 + i
  }

  ghost predicate SessionOk(w: World, x: Session) {
    match x
    case Hello(resume) => 0 <= resume <= RecvCursor(w)
    case Pulling(resume, rows, frontier, done) =>
      && 0 <= resume <= RecvCursor(w) && frontier <= LatestSeq(w.p.oplog, w.p.node)
      && (forall o :: Own(w, o) && o.seqno <= frontier ==> CoveredOp(rows, o))
      && (forall q :: q in done ==> q in rows && Covered(w.s.files, q, rows[q].vv))
    case Ready(start) => 0 <= start <= RecvCursor(w)
    case Live(cursor, sent, pushed, handled, acks) =>
      && 0 <= cursor - |pushed| <= RecvCursor(w) && cursor <= LatestSeq(w.p.oplog, w.p.node)
      && InFlight(w, cursor, pushed)
      && AllAtMost(handled, RecvCursor(w)) && AllAtMost(acks, RecvCursor(w))
  }

  ghost predicate SessionsOk(w: World) {
    forall id {:trigger SessionOk(w, w.sessions[id])} :: id in w.sessions ==> SessionOk(w, w.sessions[id])
  }

  ghost predicate Inv(w: World) {
    w.p.node != w.s.node && PusherOk(w.p) && CursorOk(w) && SessionsOk(w)
  }

  // ------------------------------------------------------------------- monotonicity

  /** How a world may move under a session that is not touched: logs and rows grow, the cursor climbs. */
  ghost predicate Grows(a: World, b: World) {
    && a.p.node == b.p.node && a.s.node == b.s.node
    && (forall o :: Own(b, o) ==> Own(a, o) || o.seqno > LatestSeq(a.p.oplog, a.p.node))
    && (forall o :: Own(a, o) ==> Own(b, o))
    && LatestSeq(a.p.oplog, a.p.node) <= LatestSeq(b.p.oplog, b.p.node)
    && Climbs(a.s.files, b.s.files) && a.s.applied <= b.s.applied
    && RecvCursor(a) <= RecvCursor(b)
  }

  lemma CoveredClimbs(a: map<string, Version>, b: map<string, Version>, path: string, vv: VersionVector)
    requires Climbs(a, b) && Covered(a, path, vv)
    ensures Covered(b, path, vv)
  {
    LeqTransitive(vv, a[path].vv, b[path].vv);
  }

  lemma CoveredOpClimbs(a: map<string, Version>, b: map<string, Version>, o: Op)
    requires Climbs(a, b) && CoveredOp(a, o)
    ensures CoveredOp(b, o)
  {
    CoveredClimbs(a, b, o.path, o.vv);
    if o.pathOld.Some? {
      CoveredClimbs(a, b, o.pathOld.value, o.vv);
    }
  }

  lemma DealtGrows(a: World, b: World, n: int)
    requires Grows(a, b) && DealtUpTo(a, n) && n <= LatestSeq(a.p.oplog, a.p.node)
    ensures DealtUpTo(b, n)
  {
    forall o | Own(b, o) && o.seqno <= n ensures Dealt(b.s, o) {
      assert Own(a, o) && Dealt(a.s, o);
      if CoveredOp(a.s.files, o) {
        CoveredOpClimbs(a.s.files, b.s.files, o);
      }
    }
  }

  lemma SessionGrows(a: World, b: World, x: Session)
    requires Grows(a, b) && SessionOk(a, x)
    ensures SessionOk(b, x)
  {
    if x.Pulling? {
      forall q | q in x.done ensures q in x.rows && Covered(b.s.files, q, x.rows[q].vv) {
        CoveredClimbs(a.s.files, b.s.files, q, x.rows[q].vv);
      }
    }
  }

  /** All sessions but one carry over; that one must be shown good. */
  lemma SessionsGrow(a: World, b: World, id: nat)
    requires SessionsOk(a) && Grows(a, b) && b.sessions - {id} == a.sessions - {id}
    requires id in b.sessions ==> SessionOk(b, b.sessions[id])
    ensures SessionsOk(b)
  {
    forall i | i in b.sessions ensures SessionOk(b, b.sessions[i]) {
      if i != id {
        assert i in b.sessions - {id} && i in a.sessions - {id};
        assert b.sessions[i] == (b.sessions - {id})[i] == (a.sessions - {id})[i] == a.sessions[i];
        assert SessionOk(a, a.sessions[i]);
        SessionGrows(a, b, a.sessions[i]);
      }
    }
  }

  // ------------------------------------------------------------- either store runs

  lemma PusherLog(h: Hashes, p: StoreState, c: Command, o: Op)
    requires OwnSeqsDense(p) && !(c.DoApply? && c.op.origin == p.node)
    requires o in Exec(h, p, c).oplog && o.origin == p.node && o !in p.oplog
    ensures CommandOp(h, p, c) == Some(o) && !c.DoApply? && o.seqno == LatestSeq(p.oplog, p.node) + 1
    ensures Exec(h, p, c).oplog == InsertOp(p.oplog, o)
  {
    CommandLog(h, p, c);
  }

  /** A freshly appended own op is what the rows of the paths it affects say. */
  lemma OwnOpIsRow(h: Hashes, p: StoreState, c: Command)
    requires (c.DoAppend? || c.DoRename?) && Exec(h, p, c).oplog != p.oplog && CommandOp(h, p, c).Some?
    ensures var o := CommandOp(h, p, c).value; CoveredOp(Exec(h, p, c).files, o)
  {
  }

  lemma PusherStaysCovered(h: Hashes, p: StoreState, c: Command, o: Op)
    requires PusherOk(p) && !(c.DoApply? && c.op.origin == p.node)
    requires o in Exec(h, p, c).oplog && o.origin == p.node
    ensures CoveredOp(Exec(h, p, c).files, o)
  {
    if o in p.oplog {
      ExecClimbs(h, p, c);
      CoveredOpClimbs(p.files, Exec(h, p, c).files, o);
    } else {
      PusherLog(h, p, c, o);
      OwnOpIsRow(h, p, c);
    }
  }

  lemma PusherLatest(h: Hashes, p: StoreState, c: Command)
    requires OwnSeqsDense(p) && !(c.DoApply? && c.op.origin == p.node)
    ensures LatestSeq(p.oplog, p.node) <= LatestSeq(Exec(h, p, c).oplog, p.node)
    ensures forall o :: o in p.oplog ==> o in Exec(h, p, c).oplog
  {
    CommandLog(h, p, c);
    if CommandOp(h, p, c).Some? {
      LatestAfterInsert(p.oplog, CommandOp(h, p, c).value, p.node);
    }
  }

  lemma PusherKeeps(h: Hashes, w: World, c: Command)
    requires Inv(w) && Enabled(w, PusherRuns(c))
    ensures PusherOk(Exec(h, w.p, c)) && Grows(w, w.(p := Exec(h, w.p, c)))
  {
    ExecKeepsDense(h, w.p, c);
    PusherLatest(h, w.p, c);
    var w' := w.(p := Exec(h, w.p, c));
    PusherStaysOk(h, w.p, c);
    forall o | Own(w', o) ensures Own(w, o) || o.seqno > LatestSeq(w.p.oplog, w.p.node) {
      if o !in w.p.oplog {
        PusherLog(h, w.p, c, o);
      }
    }
  }

  lemma PusherStaysOk(h: Hashes, p: StoreState, c: Command)
    requires PusherOk(p) && !(c.DoApply? && c.op.origin == p.node)
    ensures var p' := Exec(h, p, c); forall o :: o in p'.oplog && o.origin == p.node ==> CoveredOp(p'.files, o)
  {
    var p' := Exec(h, p, c);
    forall o | o in p'.oplog && o.origin == p.node ensures CoveredOp(p'.files, o) {
      PusherStaysCovered(h, p, c, o);
    }
  }

  lemma PusherAcked(h: Hashes, w: World, c: Command)
    requires Enabled(w, PusherRuns(c))
    ensures Cursor(Exec(h, w.p, c).acked, w.s.node, w.p.node) == Acked(w) && Exec(h, w.p, c).node == w.p.node
  {
  }

  lemma PusherStep(h: Hashes, w: World, c: Command)
    requires Inv(w) && Enabled(w, PusherRuns(c))
    ensures Inv(w.(p := Exec(h, w.p, c)))
  {
    var w' := w.(p := Exec(h, w.p, c));
    PusherKeeps(h, w, c);
    PusherAcked(h, w, c);
    DealtGrows(w, w', RecvCursor(w));
    FreshSession(w, w');
  }

  /** No session changed: they all carry over. */
  lemma FreshSession(a: World, b: World)
    requires SessionsOk(a) && Grows(a, b) && b.sessions == a.sessions
    ensures SessionsOk(b)
  {
    forall i | i in b.sessions ensures SessionOk(b, b.sessions[i]) {
      assert SessionOk(a, a.sessions[i]);
      SessionGrows(a, b, a.sessions[i]);
    }
  }

  lemma SubscriberTables(h: Hashes, w: World, c: Command)
    requires Enabled(w, SubscriberRuns(c))
    ensures var s' := Exec(h, w.s, c);
            && s'.node == w.s.node && Cursor(s'.recv, w.p.node, w.p.node) == RecvCursor(w)
            && w.s.applied <= s'.applied && (forall id :: id in s'.applied - w.s.applied ==> id.0 != w.p.node)
  {
  }

  lemma SubscriberStep(h: Hashes, w: World, c: Command)
    requires Inv(w) && Enabled(w, SubscriberRuns(c))
    ensures Inv(w.(s := Exec(h, w.s, c)))
    ensures RecvCursor(w.(s := Exec(h, w.s, c))) == RecvCursor(w)
  {
    var w' := w.(s := Exec(h, w.s, c));
    ExecClimbs(h, w.s, c);
    SubscriberTables(h, w, c);
    DealtGrows(w, w', RecvCursor(w));
    FreshSession(w, w');
  }

  // ------------------------------------------------------------------ session steps

  /** A step that only rewrites one session. */
  lemma SessionStep(w: World, id: nat, x: Session)
    requires Inv(w) && SessionOk(w, x)
    ensures Inv(w.(sessions := w.sessions[id := x]))
  {
    var w' := w.(sessions := w.sessions[id := x]);
    assert SessionOk(w', x);
    assert DealtUpTo(w', RecvCursor(w'));
    assert w'.sessions - {id} == w.sessions - {id};
    SessionsGrow(w, w', id);
  }

  lemma DropStep(w: World, id: nat)
    requires Inv(w)
    ensures Inv(w.(sessions := w.sessions - {id}))
  {
    var w' := w.(sessions := w.sessions - {id});
    assert DealtUpTo(w', RecvCursor(w'));
    assert w'.sessions - {id} == w.sessions - {id};
    SessionsGrow(w, w', id);
  }

  /** The snapshot covers exactly the own ops up to its frontier. */
  lemma SnapshotOk(w: World, resume: int)
    requires Inv(w) && 0 <= resume <= RecvCursor(w)
    ensures SessionOk(w, Pulling(resume, w.p.files, LatestSeq(w.p.oplog, w.p.node), {}))
  {
  }

  lemma PullTables(h: Hashes, s: StoreState, path: string, row: Version)
    ensures SameTables(s, Replicas.ReconcileOne(h, s, path, row)) && Climbs(s.files, Replicas.ReconcileOne(h, s, path, row).files)
  {
    if Decide(Load(s.files, path), row.vv) == Apply {
      ReconcileClimbs(s, path, row);
    } else {
      ResolveTables(h, s, path, row);
    }
  }

  /** Only the rows differ. */
  predicate SameTables(a: StoreState, b: StoreState) {
    b == a.(files := b.files)
  }

  lemma ResolveTables(h: Hashes, s: StoreState, path: string, row: Version)
    ensures SameTables(s, ReplicaModel.Resolve(h, s, path, row)) && Climbs(s.files, ReplicaModel.Resolve(h, s, path, row).files)
    ensures SameTables(s, s) && Climbs(s.files, s.files)
  {
    ReplicaModel.ResolveClimbsToo(h, s, path, row);
  }

  lemma PullStep(h: Hashes, w: World, id: nat, path: string)
    requires Inv(w) && Enabled(w, PullLeaf(id, path))
    ensures Inv(PullOne(h, w, id, path)) && RecvCursor(PullOne(h, w, id, path)) == RecvCursor(w)
  {
    var x := w.sessions[id];
    assert SessionOk(w, x);
    var s' := Replicas.ReconcileOne(h, w.s, path, x.rows[path]);
    PullTables(h, w.s, path, x.rows[path]);
    var w' := w.(s := s');
    DealtGrows(w, w', RecvCursor(w));
    FreshSession(w, w');
    SessionGrows(w, w', x);
    if Covered(s'.files, path, x.rows[path].vv) {
      SessionStep(w', id, x.(done := x.done + {path}));
    }
  }

  /** Raising the cursor over dealt ops keeps the invariant. */
  lemma RaiseStep(w: World, upTo: int)
    requires Inv(w) && upTo <= LatestSeq(w.p.oplog, w.p.node) && DealtUpTo(w, upTo)
    ensures var w' := w.(s := w.s.(recv := Raise(w.s.recv, w.p.node, w.p.node, upTo)));
            Inv(w') && RecvCursor(w') >= upTo && RecvCursor(w') >= RecvCursor(w)
  {
    var w' := w.(s := w.s.(recv := Raise(w.s.recv, w.p.node, w.p.node, upTo)));
    assert DealtUpTo(w', RecvCursor(w'));
    FreshSession(w, w');
  }

  /** A pull that skipped no leaf has dealt with every op up to the frontier. */
  lemma CompletePullDeals(w: World, x: Session)
    requires Inv(w) && x.Pulling? && SessionOk(w, x) && x.done == x.rows.Keys
    ensures DealtUpTo(w, x.frontier)
  {
    forall o | Own(w, o) && o.seqno <= x.frontier ensures Dealt(w.s, o) {
      assert CoveredOp(x.rows, o);
      PulledCovers(w, x, o, o.path);
      if o.pathOld.Some? {
        PulledCovers(w, x, o, o.pathOld.value);
      }
    }
  }

  /** A pulled leaf covers locally what it covered in the snapshot. */
  lemma PulledCovers(w: World, x: Session, o: Op, q: string)
    requires x.Pulling? && SessionOk(w, x) && q in x.done && Covered(x.rows, q, o.vv)
    ensures Covered(w.s.files, q, o.vv)
  {
    LeqTransitive(o.vv, x.rows[q].vv, w.s.files[q].vv);
  }

  lemma HandoffStep(w: World, id: nat)
    requires Inv(w) && Enabled(w, Handoff(id)) && w.sessions[id].done == w.sessions[id].rows.Keys
    ensures Inv(HandOver(w, id)) && RecvCursor(HandOver(w, id)) >= RecvCursor(w)
  {
    var x := w.sessions[id];
    assert SessionOk(w, x);
    CompletePullDeals(w, x);
    var start := if x.frontier > x.resume then x.frontier else x.resume;
    if start > x.resume {
      RaiseStep(w, start);
      SessionStep(w.(s := w.s.(recv := Raise(w.s.recv, w.p.node, w.p.node, start))), id, Ready(start));
    } else {
      SessionStep(w, id, Ready(start));
    }
  }

  /** Dense numbering makes the next own op the successor of the cursor. */
  lemma NextIsSuccessor(w: World, cursor: int, op: Op)
    requires OwnSeqsDense(w.p) && 0 <= cursor <= LatestSeq(w.p.oplog, w.p.node) && IsNext(w.p, cursor, op)
    ensures op.seqno == cursor + 1 && op.seqno <= LatestSeq(w.p.oplog, w.p.node)
  {
    LatestIsBound(w.p.oplog, w.p.node, op);
    assert Logged(w.p.oplog, (w.p.node, cursor + 1));
    var o :| o in w.p.oplog && o.Id() == (w.p.node, cursor + 1);
  }

  lemma PushStep(w: World, id: nat, op: Op)
    requires Inv(w) && Enabled(w, Push(id, op))
    ensures SessionOk(w, w.sessions[id].(cursor := op.seqno, pushed := w.sessions[id].pushed + [op]))
  {
    var x := w.sessions[id];
    assert SessionOk(w, x);
    NextIsSuccessor(w, x.cursor, op);
  }

  lemma SendAckStep(w: World, id: nat)
    requires Inv(w) && Enabled(w, SendAck(id))
    ensures var x := w.sessions[id]; SessionOk(w, x.(handled := x.handled[1..], acks := x.acks + [x.handled[0]]))
  {
    assert SessionOk(w, w.sessions[id]);
  }

  /** Committing the first op in flight moves the cursor over it and nothing else. */
  lemma CommitMovesCursor(w: World, op: Op, decision: Decision)
    requires Inv(w) && Own(w, op) && op.seqno <= RecvCursor(w) + 1 && op.Id() !in w.s.applied
    requires ApplyRemote(w.s, op, decision).1.Effective?
    ensures var w' := w.(s := ApplyRemote(w.s, op, decision).0);
            Inv(w') && RecvCursor(w') >= RecvCursor(w) && RecvCursor(w') >= op.seqno
  {
    var w' := w.(s := ApplyRemote(w.s, op, decision).0);
    ApplyClimbs(w.s, op, decision);
    LatestIsBound(w.p.oplog, w.p.node, op);
    assert Grows(w, w');
    DealtGrows(w, w', RecvCursor(w));
    CommitDeals(w, w', op);
    FreshSession(w, w');
  }

  lemma CommitDeals(w: World, w': World, op: Op)
    requires w'.p == w.p && OwnSeqsDense(w.p) && Own(w, op) && op.Id() in w'.s.applied
    requires DealtUpTo(w', RecvCursor(w)) && RecvCursor(w') <= RecvCursor(w) + 1
    requires RecvCursor(w') > RecvCursor(w) ==> op.seqno == RecvCursor(w')
    ensures DealtUpTo(w', RecvCursor(w'))
  {
    forall o | Own(w', o) && o.seqno <= RecvCursor(w') ensures Dealt(w'.s, o) {
      if o.seqno > RecvCursor(w) {
        assert o.Id() == op.Id();
      }
    }
  }

  lemma ReceiveStep(w: World, id: nat, decision: Decision)
    requires Inv(w) && Enabled(w, Receive(id, decision))
    ensures Inv(TakeOp(w, id, decision)) && RecvCursor(TakeOp(w, id, decision)) >= RecvCursor(w)
  {
    var x := w.sessions[id];
    assert SessionOk(w, x);
    var op := x.pushed[0];
    assert Own(w, op) && op.seqno == x.cursor - |x.pushed| + 1;
    var x' := x.(pushed := x.pushed[1..], handled := x.handled + [op.seqno]);
    if op.Id() in w.s.applied {
      assert op.seqno <= RecvCursor(w);
      TakenOk(w, w, x, x');
      SessionStep(w, id, x');
    } else if ApplyRemote(w.s, op, decision).1.RenameWithoutSource? {
      DropStep(w, id);
    } else {
      CommitMovesCursor(w, op, decision);
      var w' := w.(s := ApplyRemote(w.s, op, decision).0);
      TakenOk(w, w', x, x');
      SessionStep(w', id, x');
    }
  }

  lemma TakenOk(w: World, w': World, x: Session, x': Session)
    requires x.Live? && x.pushed != [] && SessionOk(w, x) && w'.p == w.p && RecvCursor(w') >= RecvCursor(w)
    requires RecvCursor(w') >= x.pushed[0].seqno
    requires x' == x.(pushed := x.pushed[1..], handled := x.handled + [x.pushed[0].seqno])
    ensures SessionOk(w', x')
  {
    forall i | 0 <= i < |x'.pushed| ensures Own(w', x'.pushed[i]) && x'.pushed[i].seqno == x'.cursor - |x'.pushed| + 1 + i {
      assert x'.pushed[i] == x.pushed[i + 1];
      assert Own(w, x.pushed[i + 1]);
    }
  }

  lemma AckStep(w: World, id: nat)
    requires Inv(w) && Enabled(w, TakeAck(id))
    ensures Inv(RecordAck(w, id))
  {
    var x := w.sessions[id];
    assert SessionOk(w, x);
    if x.acks[0] > x.sent {
      DropStep(w, id);
    } else {
      var w' := w.(p := w.p.(acked := Raise(w.p.acked, w.s.node, w.p.node, x.acks[0])));
      SamePusherLog(w, w');
      SessionStep(w', id, x.(acks := x.acks[1..]));
    }
  }

  lemma SamePusherLog(w: World, w': World)
    requires Inv(w) && w'.s == w.s && w'.sessions == w.sessions
    requires w'.p.oplog == w.p.oplog && w'.p.files == w.p.files && w'.p.node == w.p.node && Acked(w') <= RecvCursor(w')
    ensures Inv(w')
  {
    SameLogDense(w.p, w'.p);
    assert Grows(w, w');
    DealtGrows(w, w', RecvCursor(w));
    FreshSession(w, w');
  }

  // ------------------------------------------------------------------------- runs

  /** The gate's proviso: a handoff happens only after a pull that skipped no leaf. */
  predicate Complete(w: World, e: Event)
    requires Enabled(w, e)
  {
    e.Handoff? ==> w.sessions[e.id].done == w.sessions[e.id].rows.Keys
  }

  lemma GateStepKeeps(h: Hashes, w: World, e: Event)
    requires Inv(w) && Enabled(w, e) && Complete(w, e)
    requires e.Connect? || e.Snapshot? || e.PullLeaf? || e.Handoff? || e.Subscribe? || e.Drop?
    ensures Inv(Step(h, w, e)) && RecvCursor(Step(h, w, e)) >= RecvCursor(w)
  {
    match e
    case Connect(id) => SessionStep(w, id, Hello(RecvCursor(w)));
    case Snapshot(id) => SnapshotStep(w, id);
    case PullLeaf(id, path) => PullStep(h, w, id, path);
    case Handoff(id) => HandoffStep(w, id);
    case Subscribe(id) => SubscribeStep(w, id);
    case Drop(id) => DropStep(w, id);
  }

  lemma LiveStepKeeps(h: Hashes, w: World, e: Event)
    requires Inv(w) && Enabled(w, e)
    requires e.Push? || e.Publish? || e.Receive? || e.SendAck? || e.TakeAck?
    ensures Inv(Step(h, w, e)) && RecvCursor(Step(h, w, e)) >= RecvCursor(w)
  {
    match e
    case Push(id, op) =>
      PushStep(w, id, op);
      SessionStep(w, id, w.sessions[id].(cursor := op.seqno, pushed := w.sessions[id].pushed + [op]));
    case Publish(id) => PublishStep(w, id);
    case Receive(id, decision) => ReceiveStep(w, id, decision);
    case SendAck(id) =>
      SendAckStep(w, id);
      SessionStep(w, id, w.sessions[id].(handled := w.sessions[id].handled[1..], acks := w.sessions[id].acks + [w.sessions[id].handled[0]]));
    case TakeAck(id) => AckStep(w, id);
  }

  /** Every complete step keeps the invariant, and the cursor never falls. */
  lemma StepKeepsInv(h: Hashes, w: World, e: Event)
    requires Inv(w) && Enabled(w, e) && Complete(w, e)
    ensures Inv(Step(h, w, e)) && RecvCursor(Step(h, w, e)) >= RecvCursor(w)
  {
    if e.PusherRuns? {
      PusherStep(h, w, e.c);
    } else if e.SubscriberRuns? {
      SubscriberStep(h, w, e.c);
    } else if e.Push? || e.Publish? || e.Receive? || e.SendAck? || e.TakeAck? {
      LiveStepKeeps(h, w, e);
    } else {
      GateStepKeeps(h, w, e);
    }
  }

  lemma SnapshotStep(w: World, id: nat)
    requires Inv(w) && Enabled(w, Snapshot(id))
    ensures Inv(w.(sessions := w.sessions[id := Pulling(w.sessions[id].resume, w.p.files, LatestSeq(w.p.oplog, w.p.node), {})]))
  {
    assert SessionOk(w, w.sessions[id]);
    SnapshotOk(w, w.sessions[id].resume);
    SessionStep(w, id, Pulling(w.sessions[id].resume, w.p.files, LatestSeq(w.p.oplog, w.p.node), {}));
  }

  lemma SubscribeStep(w: World, id: nat)
    requires Inv(w) && Enabled(w, Subscribe(id))
    ensures Inv(w.(sessions := w.sessions[id := Live(w.sessions[id].start, w.sessions[id].start, [], [], [])]))
  {
    assert SessionOk(w, w.sessions[id]);
    SessionStep(w, id, Live(w.sessions[id].start, w.sessions[id].start, [], [], []));
  }

  lemma PublishStep(w: World, id: nat)
    requires Inv(w) && Enabled(w, Publish(id))
    ensures Inv(w.(sessions := w.sessions[id := w.sessions[id].(sent := w.sessions[id].cursor)]))
  {
    assert SessionOk(w, w.sessions[id]);
    SessionStep(w, id, w.sessions[id].(sent := w.sessions[id].cursor));
  }

  ghost predicate ValidRun(h: Hashes, w: World, es: seq<Event>)
    decreases |es|
  {
    es == [] || (Enabled(w, es[0]) && Complete(w, es[0]) && ValidRun(h, Step(h, w, es[0]), es[1..]))
  }

  ghost function After(h: Hashes, w: World, es: seq<Event>): World
    requires ValidRun(h, w, es)
    decreases |es|
  {
    if es == [] then w else After(h, Step(h, w, es[0]), es[1..])
  }

  lemma {:induction false} RunKeepsInv(h: Hashes, w: World, es: seq<Event>)
    requires Inv(w) && ValidRun(h, w, es)
    ensures Inv(After(h, w, es)) && RecvCursor(After(h, w, es)) >= RecvCursor(w)
    decreases |es|
  {
    if es != [] {
      StepKeepsInv(h, w, es[0]);
      RunKeepsInv(h, Step(h, w, es[0]), es[1..]);
    }
  }

  function FreshWorld(p: NodeId, s: NodeId): World {
    World(StoreModel.Init(p), StoreModel.Init(s), map[])
  }

  /**
   Join handoff safety: over every run of sessions, disconnects, crashes and
   other store commands, in which each gating pull skips no leaf, every pusher
   op at or below the subscriber's cursor is recorded there or covered by the
   rows of every path it affects, the cursor never falls, and the recorded ack
   never passes the cursor.
   */
  lemma HandoffIsSafe(h: Hashes, p: NodeId, s: NodeId, es: seq<Event>, more: seq<Event>)
    requires p != s && ValidRun(h, FreshWorld(p, s), es) && ValidRun(h, After(h, FreshWorld(p, s), es), more)
    ensures var w := After(h, FreshWorld(p, s), es);
            && (forall o :: o in w.p.oplog && o.origin == w.p.node && o.seqno <= RecvCursor(w) ==>
                 o.Id() in w.s.applied || CoveredOp(w.s.files, o))
            && Acked(w) <= RecvCursor(w) <= RecvCursor(After(h, w, more))
  {
    assert Inv(FreshWorld(p, s));
    RunKeepsInv(h, FreshWorld(p, s), es);
    RunKeepsInv(h, After(h, FreshWorld(p, s), es), more);
  }

  /** The subscriber's row at `q` covers every op of the pusher that affects `q` between cursor and frontier. */
  ghost predicate RowCovers(w: World, q: string, frontier: int) {
    forall o :: Own(w, o) && Affects(o, q) && RecvCursor(w) < o.seqno <= frontier ==> Covered(w.s.files, q, o.vv)
  }

  /**
   The code advances the cursor even when the pull skipped leaves. The handoff
   stays safe if and only if, at every skipped leaf, the subscriber's row
   covers what the pusher did there between cursor and frontier, be it as the
   target or as the source of an op.
   */
  lemma HandoffExactly(w: World, id: nat)
    requires Inv(w) && Enabled(w, Handoff(id))
    ensures var x := w.sessions[id];
            var w' := HandOver(w, id);
            DealtUpTo(w', RecvCursor(w')) <==> forall q :: q in x.rows.Keys - x.done ==> RowCovers(w, q, x.frontier)
  {
    var x := w.sessions[id];
    var w' := HandOver(w, id);
    assert SessionOk(w, x);
    if forall q :: q in x.rows.Keys - x.done ==> RowCovers(w, q, x.frontier) {
      forall o | Own(w', o) && o.seqno <= RecvCursor(w') ensures Dealt(w'.s, o) {
        assert Own(w, o);
        if o.seqno > RecvCursor(w) {
          CoveredAt(w, x, o, o.path);
          if o.pathOld.Some? {
            CoveredAt(w, x, o, o.pathOld.value);
          }
        }
      }
    }
    if DealtUpTo(w', RecvCursor(w')) {
      forall q | q in x.rows.Keys - x.done ensures RowCovers(w, q, x.frontier) {
        SafeMeansCovered(w, id, q);
      }
    }
  }

  /** Pulled or not, a path an op affects is covered when the skipped leaves are. */
  lemma CoveredAt(w: World, x: Session, o: Op, q: string)
    requires x.Pulling? && SessionOk(w, x) && Own(w, o) && RecvCursor(w) < o.seqno <= x.frontier && Affects(o, q)
    requires forall p :: p in x.rows.Keys - x.done ==> RowCovers(w, p, x.frontier)
    ensures Covered(w.s.files, q, o.vv)
  {
    assert CoveredOp(x.rows, o);
    if q in x.done {
      PulledCovers(w, x, o, q);
    } else {
      assert RowCovers(w, q, x.frontier);
    }
  }

  /** Beyond the cursor nothing of the pusher is recorded yet, so being dealt with is being covered. */
  lemma SafeMeansCovered(w: World, id: nat, q: string)
    requires Inv(w) && Enabled(w, Handoff(id)) && DealtUpTo(HandOver(w, id), RecvCursor(HandOver(w, id)))
    ensures RowCovers(w, q, w.sessions[id].frontier)
  {
    var x, w' := w.sessions[id], HandOver(w, id);
    assert SessionOk(w, x);
    forall o | Own(w, o) && Affects(o, q) && RecvCursor(w) < o.seqno <= x.frontier ensures Covered(w.s.files, q, o.vv) {
      assert Own(w', o) && o.seqno <= RecvCursor(w');
      assert Dealt(w'.s, o);
      assert o.Id().0 == w.p.node;
    }
  }

  /** A join ends with the stream starting right after every own op the pusher had logged at the snapshot. */
  lemma JoinReachesFrontier(h: Hashes, w: World, id: nat)
    requires Inv(w) && Enabled(w, Snapshot(id))
    ensures var pulling := Step(h, w, Snapshot(id));
            Enabled(pulling, Handoff(id)) &&
            var ready := Step(h, pulling, Handoff(id));
            && Enabled(ready, Subscribe(id)) && ready.sessions[id] == Ready(LatestSeq(w.p.oplog, w.p.node))
            && RecvCursor(ready) == LatestSeq(w.p.oplog, w.p.node)
            && Step(h, ready, Subscribe(id)).sessions[id] == Live(RecvCursor(ready), RecvCursor(ready), [], [], [])
  {
    assert SessionOk(w, w.sessions[id]);
  }

  /** The pusher has written one file; a session has its snapshot and has pulled nothing. */
  function OneWrite(h: Hashes): World {
    var p := AppendLocal(h, StoreModel.Init(1), LocalChange("a", Write, 0, 0, Some(7), None)).0;
    World(p, StoreModel.Init(2), map[0 := Pulling(0, p.files, LatestSeq(p.oplog, 1), {})])
  }

  /** The proviso is needed: skipping the one leaf moves the cursor past an op nobody has. */
  lemma SkippedLeafPassesOver(h: Hashes)
    ensures var w := OneWrite(h);
            Inv(w) && Enabled(w, Handoff(0)) && !DealtUpTo(HandOver(w, 0), RecvCursor(HandOver(w, 0)))
  {
    var fresh_ := FreshWorld(1, 2);
    var c := LocalChange("a", Write, 0, 0, Some(7), None);
    assert Inv(fresh_);
    PusherStep(h, fresh_, DoAppend(c));
    var w1 := fresh_.(p := Exec(h, fresh_.p, DoAppend(c)));
    SnapshotOk(w1, 0);
    SessionStep(w1, 0, Pulling(0, w1.p.files, LatestSeq(w1.p.oplog, 1), {}));
    OpIsPassed(h, OneWrite(h));
  }

  lemma OpIsPassed(h: Hashes, w: World)
    requires w == OneWrite(h)
    ensures !DealtUpTo(HandOver(w, 0), RecvCursor(HandOver(w, 0)))
  {
    var op := LocalOp(h, StoreModel.Init(1), LocalChange("a", Write, 0, 0, Some(7), None));
    assert w.p.oplog == [op];
    assert w.p.oplog[..0] == [];
    assert LatestSeq([], 1) == 0;
    assert LatestSeq([op], 1) == 1;
    var w' := HandOver(w, 0);
    assert Own(w', op) && RecvCursor(w') == 1 && !Dealt(w'.s, op);
  }

  // ---------------------------------------------------------- a skipped source

  function FirstWrite(): LocalChange { LocalChange("a", Write, 0, 0, Some(7), None) }

  function WriteOp(h: Hashes): Op { LocalOp(h, StoreModel.Init(1), FirstWrite()) }

  function WroteA(h: Hashes): StoreState { AppendLocal(h, StoreModel.Init(1), FirstWrite()).0 }

  function GotA(h: Hashes): StoreState { ApplyRemote(StoreModel.Init(2), WriteOp(h), Apply).0 }

  lemma WroteAIs(h: Hashes)
    ensures var p, o := WroteA(h), WriteOp(h);
            && p.node == 1 && p.oplog == [o] && p.files.Keys == {"a"} && !p.files["a"].tombstone && p.files["a"].vv == map[1 := 1]
            && o.origin == 1 && o.seqno == 1 && o.path == "a" && o.pathOld == None && o.vv == map[1 := 1] && LatestSeq(p.oplog, 1) == 1
  {
    var o := WriteOp(h);
    assert [o][..0] == [];
    assert LatestSeq([], 1) == 0;
  }

  lemma GotAIs(h: Hashes)
    ensures var s := GotA(h);
            && s.node == 2 && s.files.Keys == {"a"} && s.files["a"].vv == map[1 := 1]
            && s.applied == {(1, 1)} && Cursor(s.recv, 1, 1) == 1 && ApplyRemote(StoreModel.Init(2), WriteOp(h), Apply).1.Effective?
  {
    WroteAIs(h);
    JoinLifts(map[], "a", WriteOp(h).vv);
  }

  function RenamedB(h: Hashes): StoreState { AppendLocalRename(h, WroteA(h), "a", "b").0 }

  /** The rename: from "a", to "b", one count up. */
  lemma RenamedBIs(h: Hashes, p: StoreState, p': StoreState)
    requires p.node == 1 && |p.oplog| == 1 && p.files.Keys == {"a"} && !p.files["a"].tombstone && p.files["a"].vv == map[1 := 1]
    requires LatestSeq(p.oplog, 1) == 1 && p.oplog[0].seqno == 1 && p.oplog[0].origin == 1
    requires p' == AppendLocalRename(h, p, "a", "b").0
    ensures |p'.oplog| == 2 && p'.node == 1 && LatestSeq(p'.oplog, 1) == 2 && p'.files.Keys == {"a", "b"}
    ensures var o := p'.oplog[1]; o.origin == 1 && o.seqno == 2 && o.path == "b" && o.pathOld == Some("a") && o.vv == map[1 := 2]
  {
    var o := RenameOp(h, p, "a", "b");
    assert !Logged(p.oplog, o.Id());
    assert p'.oplog == p.oplog + [o];
    assert p'.oplog[..1] == p.oplog;
  }

  /** The pusher wrote "a" and renamed it to "b"; the subscriber has the write, and a session to pull the rest. */
  function RenameWorld(h: Hashes): World {
    World(RenamedB(h), GotA(h), map[0 := Pulling(1, RenamedB(h).files, LatestSeq(RenamedB(h).oplog, 1), {})])
  }

  lemma RenameWorldOk(h: Hashes)
    ensures Inv(RenameWorld(h))
  {
    var w0 := FreshWorld(1, 2);
    var write, rename := DoAppend(FirstWrite()), DoRename("a", "b");
    assert Inv(w0);
    PusherStep(h, w0, write);
    var w1 := w0.(p := WroteA(h));
    WroteAIs(h);
    GotAIs(h);
    assert Own(w1, WriteOp(h));
    CommitMovesCursor(w1, WriteOp(h), Apply);
    var w2 := w1.(s := GotA(h));
    PusherStep(h, w2, rename);
    var w3 := w2.(p := RenamedB(h));
    SnapshotOk(w3, 1);
    SessionStep(w3, 0, Pulling(1, w3.p.files, LatestSeq(w3.p.oplog, 1), {}));
    assert w3.(sessions := w3.sessions[0 := Pulling(1, w3.p.files, LatestSeq(w3.p.oplog, 1), {})]) == RenameWorld(h);
  }

  /** Pulling a leaf that is absent locally installs it and touches no other row. */
  lemma PullsNewLeaf(h: Hashes, w: World, id: nat, q: string)
    requires id in w.sessions && w.sessions[id].Pulling? && q in w.sessions[id].rows && q !in w.s.files
    ensures var w' := PullOne(h, w, id, q);
            && w'.p == w.p && w'.s.applied == w.s.applied && w'.s.recv == w.s.recv && w'.s.node == w.s.node
            && w'.sessions == w.sessions[id := w.sessions[id].(done := w.sessions[id].done + {q})]
            && forall t :: t != q ==> Load(w'.s.files, t) == Load(w.s.files, t)
  {
    var row := w.sessions[id].rows[q];
    JoinLifts(w.s.files, q, row.vv);
  }

  /**
   A skipped leaf can be the source of a rename: the target is pulled, the
   cursor moves over the rename, and the file it removed stays.
   */
  lemma SkippedSourceStays(h: Hashes)
    ensures var w := PullOne(h, RenameWorld(h), 0, "b");
            && Inv(w) && Enabled(w, Handoff(0)) && "b" in w.sessions[0].done && !RowCovers(w, "a", w.sessions[0].frontier)
            && !DealtUpTo(HandOver(w, 0), RecvCursor(HandOver(w, 0)))
  {
    RenameWorldOk(h);
    WroteAIs(h);
    GotAIs(h);
    RenamedBIs(h, WroteA(h), RenamedB(h));
    SourceSkipped(h, RenameWorld(h));
  }

  /** Pulling the rename's target alone and handing over leaves its source behind. */
  lemma SourceSkipped(h: Hashes, w: World)
    requires Inv(w) && 0 in w.sessions && w.sessions[0] == Pulling(1, w.p.files, 2, {}) && w.p.node == 1 && RecvCursor(w) == 1
    requires |w.p.oplog| == 2 && "b" in w.p.files && w.s.files.Keys == {"a"} && w.s.files["a"].vv == map[1 := 1] && (1, 2) !in w.s.applied
    requires var o := w.p.oplog[1]; o.origin == 1 && o.seqno == 2 && o.pathOld == Some("a") && o.vv == map[1 := 2]
    ensures var w' := PullOne(h, w, 0, "b");
            && Inv(w') && Enabled(w', Handoff(0)) && "b" in w'.sessions[0].done && !RowCovers(w', "a", w'.sessions[0].frontier)
            && !DealtUpTo(HandOver(w', 0), RecvCursor(HandOver(w', 0)))
  {
    PullStep(h, w, 0, "b");
    PullsNewLeaf(h, w, 0, "b");
    var w' := PullOne(h, w, 0, "b");
    assert Load(w'.s.files, "a") == Load(w.s.files, "a");
    SourceLeft(w', w.p.oplog[1]);
  }

  lemma SourceLeft(w: World, o: Op)
    requires Inv(w) && 0 in w.sessions && w.sessions[0].Pulling? && Own(w, o) && o.pathOld == Some("a") && o.seqno == 2 && o.vv == map[1 := 2]
    requires w.p.node == 1 && w.sessions[0].frontier == 2 && w.sessions[0].resume == 1 && RecvCursor(w) == 1
    requires "a" in w.s.files && w.s.files["a"].vv == map[1 := 1] && (1, 2) !in w.s.applied
    ensures !RowCovers(w, "a", 2) && !DealtUpTo(HandOver(w, 0), RecvCursor(HandOver(w, 0)))
  {
    assert o.vv[1] == 2 && Get(w.s.files["a"].vv, 1) == 1;
    assert !Covered(w.s.files, "a", o.vv);
    var w' := HandOver(w, 0);
    assert Own(w', o) && RecvCursor(w') == 2 && !Dealt(w'.s, o);
  }
}

/**
 Strong eventual consistency: in every run of local writes, deletes and renames
 and of op receipts in any order with duplicates, a replica's row for a path is
 the meaning of the set of ops it has received for that path.
 */
module Convergence {
  import opened VersionVectors
  import opened CopyNames
  import opened Versions
  import opened Decisions
  import opened Conflict
  import opened PlanLaws
  import opened StoreModel
  import opened StoreLaws
  import opened OpSets
  import opened Resolution
  import opened ReplicaModel

  /** What an op is at a path it affects: a rename is a write at its target and a delete at its source. */
  function View(o: Op, p: string): (v: Op)
    ensures v.vv == o.vv && v.uuid == o.uuid && v.Id() == o.Id()
  {
    if o.kind != Rename then o
    else if o.path == p then o.(kind := Write, pathOld := None)
    else Op(o.origin, o.seqno, Delete, p, None, o.uuid, 0, 0, None, None, o.vv)
  }

  /** An op as a node emits it: its own component counts it, and nothing is moved onto itself. */
  predicate Proper(h: Hashes, o: Op) {
    && o.WellFormed() && o.pathOld != Some(o.path) && Get(o.vv, o.origin) > 0
    && o.size == (if o.kind == Delete then 0 else h.sizeOf(o.hash.value))
  }

  lemma ViewIsPlain(h: Hashes, o: Op, p: string)
    requires Proper(h, o) && Affects(o, p)
    ensures Plain(h, View(o, p)) && View(o, p).path == p && Stands(AsCandidate(o, p), View(o, p))
    ensures OpVersion(View(o, p)) == if o.path == p then OpVersion(o) else SourceVersion(o)
  {
  }

  /** The ops a store has recorded for a path, as that path sees them. */
  ghost function OpsAt(oplog: seq<Op>, p: string): set<Op> {
    set o | o in oplog && Affects(o, p) :: View(o, p)
  }

  /** The row is exactly what the ops mean. */
  ghost predicate RowMeans(h: Hashes, s: set<Op>, r: Option<Version>) {
    if s == {} then r.None? else r.Some? && Means(h, s, r.value)
  }

  /** The row at `p` is exactly what the recorded ops mean. */
  ghost predicate RowOk(h: Hashes, st: StoreState, p: string) {
    RowMeans(h, OpsAt(st.oplog, p), Load(st.files, p))
  }

  ghost predicate AllPlain(h: Hashes, ops: seq<Op>) {
    forall o {:trigger Plain(h, o)} :: o in ops ==> Plain(h, o)
  }

  ghost predicate AllProper(h: Hashes, oplog: seq<Op>) {
    forall o {:trigger Proper(h, o)} :: o in oplog ==> Proper(h, o)
  }

  /** The ops of the log that touch `p`, as seen from it, in arrival order. */
  ghost function Touching(oplog: seq<Op>, p: string): seq<Op> {
    if oplog == [] then []
    else Touching(oplog[..|oplog| - 1], p) + if Affects(oplog[|oplog| - 1], p) then [View(oplog[|oplog| - 1], p)] else []
  }

  /** What one more op adds at a path. */
  ghost function Adds(o: Op, p: string): set<Op> {
    if Affects(o, p) then {View(o, p)} else {}
  }

  lemma OpsAtAppend(oplog: seq<Op>, e: Op, p: string)
    ensures OpsAt(oplog + [e], p) == OpsAt(oplog, p) + Adds(e, p)
  {
    forall o ensures o in oplog + [e] <==> o in oplog || o == e {
    }
  }

  lemma OpsAtInsert(oplog: seq<Op>, op: Op, p: string)
    requires Logged(oplog, op.Id()) ==> op in oplog
    ensures OpsAt(InsertOp(oplog, op), p) == OpsAt(oplog, p) + Adds(op, p)
  {
    if !Logged(oplog, op.Id()) {
      OpsAtAppend(oplog, op, p);
    }
  }

  lemma {:induction false} TouchingIs(oplog: seq<Op>, p: string)
    ensures OpSet(Touching(oplog, p)) == OpsAt(oplog, p)
  {
    if oplog != [] {
      var init, last := oplog[..|oplog| - 1], oplog[|oplog| - 1];
      assert oplog == init + [last];
      TouchingIs(init, p);
      OpsAtAppend(init, last, p);
      assert OpSet(Touching(oplog, p)) == OpSet(Touching(init, p)) + Adds(last, p);
    }
  }

  lemma {:induction false} HistoryStandsFor(h: Hashes, oplog: seq<Op>, p: string)
    requires AllProper(h, oplog)
    ensures StandsFor(History(oplog, p), Touching(oplog, p)) && AllPlain(h, Touching(oplog, p))
  {
    if oplog != [] {
      var init, last := oplog[..|oplog| - 1], oplog[|oplog| - 1];
      assert last in oplog && Proper(h, last);
      assert forall o :: o in init ==> o in oplog;
      HistoryStandsFor(h, init, p);
      if Affects(last, p) {
        ViewIsPlain(h, last, p);
      }
    }
  }

  /** The recorded ops explain the row, so the row is never a candidate itself. */
  lemma OpsExplainRow(h: Hashes, st: StoreState, p: string, s: set<Op>, v: Op, cs: seq<Version>, ops: seq<Op>)
    requires RowMeans(h, s, Load(st.files, p)) && cs == History(st.oplog, p) + [OpVersion(v)]
    requires StandsFor(cs, ops) && s <= OpSet(ops)
    ensures Candidates(st, p, OpVersion(v)) == cs
  {
    if p in st.files {
      JoinAllIsJoin(cs, ops);
      JoinIsLeast(s, st.files[p].vv, JoinAll(cs));
    }
  }

  /** What the received ops and the arriving one look like to the planner. */
  lemma CandidatesStandFor(h: Hashes, oplog: seq<Op>, p: string, v: Op) returns (ops: seq<Op>)
    requires AllProper(h, oplog) && Plain(h, v)
    ensures StandsFor(History(oplog, p) + [OpVersion(v)], ops)
    ensures OpSet(ops) == OpsAt(oplog, p) + {v} && AllPlain(h, ops)
  {
    HistoryStandsFor(h, oplog, p);
    TouchingIs(oplog, p);
    ops := Touching(oplog, p) + [v];
    assert OpSet(ops) == OpSet(Touching(oplog, p)) + {v};
  }

  lemma AboveIsTip(s: set<Op>, v: VersionVector, op: Op)
    requires (forall o :: o in s ==> Leq(o.vv, v)) && !Leq(op.vv, v)
    ensures op in Tip(s + {op})
  {
    forall x | x in s + {op} ensures !Less(op.vv, x.vv) {
      if x in s && Leq(op.vv, x.vv) {
        LeqTransitive(op.vv, x.vv, v);
      }
    }
  }

  lemma NotCoveredWitness(s: set<Op>, v: VersionVector, u: VersionVector) returns (x: Op)
    requires IsJoin(v, s) && !Leq(v, u)
    ensures x in s && !Leq(x.vv, u)
  {
    var n :| n in v && !(v[n] <= Get(u, n));
    x :| x in s && v[n] <= Get(x.vv, n);
    if Leq(x.vv, u) {
      LeqAt(x.vv, u, n);
    }
  }

  /** An op concurrent with the row leaves at least two maximal ops. */
  lemma ConcurrentIsContested(h: Hashes, s: set<Op>, v: VersionVector, op: Op, cs: seq<Version>, ops: seq<Op>)
    requires IsJoin(v, s) && !Leq(op.vv, v) && !Leq(v, op.vv)
    requires OpSet(ops) == s + {op} && StandsFor(cs, ops)
    ensures Contested(s + {op}) && Antichain(h, cs) != []
  {
    AboveIsTip(s, v, op);
    var x := NotCoveredWitness(s, v, op.vv);
    var y := TipAbove(h, cs, ops, x);
    TwoMembers(Tip(s + {op}), y, op);
  }

  lemma TwoMembers(t: set<Op>, a: Op, b: Op)
    requires a in t && b in t && a != b
    ensures forall o :: t != {o}
  {
    forall o ensures t != {o} {
      assert t == {o} ==> a in {o} && b in {o};
    }
  }

  lemma TipAbove(h: Hashes, cs: seq<Version>, ops: seq<Op>, x: Op) returns (y: Op)
    requires StandsFor(cs, ops) && x in OpSet(ops)
    ensures y in Tip(OpSet(ops)) && Leq(x.vv, y.vv) && Antichain(h, cs) != []
  {
    var i :| 0 <= i < |ops| && ops[i] == x;
    assert Stands(cs[i], x);
    var m := MemberAbove(h, cs, cs[i]);
    y := MemberIsTip(h, cs, ops, m);
  }

  /** The log holds the ops the row means, and at most the arriving one besides. */
  ghost predicate Arriving(oplog: seq<Op>, p: string, s: set<Op>, v: Op) {
    s <= OpsAt(oplog, p) <= s + {v}
  }

  /** Resolving a conflict leaves the meaning of the enlarged op set. */
  lemma ResolvedMeans(h: Hashes, st: StoreState, p: string, s: set<Op>, v: Op, all: set<Op>)
    requires AllProper(h, st.oplog) && Plain(h, v) && RowMeans(h, s, Load(st.files, p)) && Arriving(st.oplog, p, s, v)
    requires Causal(all) && v in all && s <= all
    requires Decide(Load(st.files, p), v.vv) == Decision.Concurrent && DerivedPlan(h, st, p, OpVersion(v)).Some?
    ensures RowMeans(h, s + {v}, Load(Resolve(h, st, p, OpVersion(v)).files, p))
  {
    var cs := Candidates(st, p, OpVersion(v));
    var ops := StoreCandidates(h, st, p, s, v);
    ResolveWrites(h, st, p, OpVersion(v));
    ConflictRowMeans(h, st.files, p, s, v, all, cs, ops);
    assert v in s + {v};
  }

  lemma StoreCandidates(h: Hashes, st: StoreState, p: string, s: set<Op>, v: Op) returns (ops: seq<Op>)
    requires AllProper(h, st.oplog) && Plain(h, v) && RowMeans(h, s, Load(st.files, p)) && Arriving(st.oplog, p, s, v)
    ensures StandsFor(Candidates(st, p, OpVersion(v)), ops) && OpSet(ops) == s + {v} && AllPlain(h, ops)
  {
    ops := CandidatesStandFor(h, st.oplog, p, v);
    assert OpSet(ops) == s + {v};
    OpsExplainRow(h, st, p, s, v, History(st.oplog, p) + [OpVersion(v)], ops);
  }

  lemma InsertProper(h: Hashes, oplog: seq<Op>, op: Op)
    requires AllProper(h, oplog) && Proper(h, op)
    ensures AllProper(h, InsertOp(oplog, op))
  {
  }

  lemma ConflictRowMeans(h: Hashes, files: map<string, Version>, p: string, s: set<Op>, v: Op, all: set<Op>, cs: seq<Version>, ops: seq<Op>)
    requires RowMeans(h, s, Load(files, p)) && Decide(Load(files, p), v.vv) == Decision.Concurrent
    requires Causal(all) && v in all && s <= all
    requires StandsFor(cs, ops) && OpSet(ops) == s + {v} && AllPlain(h, ops) && Antichain(h, cs) != []
    ensures Means(h, s + {v}, WinnerRow(h, Antichain(h, cs), JoinAll(cs)))
  {
    ArrivalIsContested(h, files, p, s, v, cs, ops);
    CausalIsDistinct(all, s + {v});
    WinnerRowMeansOps(h, cs, ops, s + {v});
  }

  lemma ArrivalIsContested(h: Hashes, files: map<string, Version>, p: string, s: set<Op>, v: Op, cs: seq<Version>, ops: seq<Op>)
    requires RowMeans(h, s, Load(files, p)) && Decide(Load(files, p), v.vv) == Decision.Concurrent
    requires StandsFor(cs, ops) && OpSet(ops) == s + {v}
    ensures Contested(s + {v})
  {
    DecideMeaning(Load(files, p), v.vv);
    ConcurrentIsContested(h, s, files[p].vv, v, cs, ops);
  }

  lemma WinnerRowMeansOps(h: Hashes, cs: seq<Version>, ops: seq<Op>, s: set<Op>)
    requires StandsFor(cs, ops) && OpSet(ops) == s && DistinctVectors(s) && AllPlain(h, ops)
    requires Contested(s) && Antichain(h, cs) != []
    ensures Means(h, s, WinnerRow(h, Antichain(h, cs), JoinAll(cs)))
  {
    WinnerRowMeans(h, cs, ops);
  }

  /** An op above the row becomes the row. */
  lemma AppliedMeans(h: Hashes, files: map<string, Version>, p: string, s: set<Op>, v: Op)
    requires Plain(h, v) && RowMeans(h, s, Load(files, p)) && Decide(Load(files, p), v.vv) == Apply
    ensures RowMeans(h, s + {v}, Some(OpRow(v, Join(VvAt(files, p), v.vv))))
  {
    JoinLifts(files, p, v.vv);
    forall o | o in s ensures Less(o.vv, v.vv) {
      LessTransitive(o.vv, files[p].vv, v.vv);
    }
    DominatingMeaning(h, s, v, OpRow(v, v.vv));
    assert v in s + {v};
  }

  /** An op below the row changes nothing. */
  lemma IgnoredMeans(h: Hashes, files: map<string, Version>, p: string, s: set<Op>, v: Op, all: set<Op>)
    requires Plain(h, v) && RowMeans(h, s, Load(files, p)) && Causal(all) && v in all && s <= all
    requires Decide(Load(files, p), v.vv) == Ignore
    ensures RowMeans(h, s + {v}, Load(files, p))
  {
    DecideMeaning(Load(files, p), v.vv);
    CoveredMeaning(h, all, s, files[p], v);
    assert v in s + {v};
  }

  // -------------------------------------------------------------- the receive step

  /** The row a receipt leaves at the op's own path. */
  function RowAfter(h: Hashes, st: StoreState, op: Op): Option<Version> {
    match Decide(Load(st.files, op.path), op.vv)
    case Apply => Some(OpRow(op, Join(VvAt(st.files, op.path), op.vv)))
    case Concurrent => Load(Resolve(h, st, op.path, OpVersion(op)).files, op.path)
    case _ => Load(st.files, op.path)
  }

  /** The row a rename's receipt leaves at its source. */
  function SourceAfter(h: Hashes, st: StoreState, op: Op, q: string): Option<Version> {
    match Decide(Load(st.files, q), op.vv)
    case Apply => Some(SourceTombstone(Join(VvAt(st.files, q), op.vv), op.uuid))
    case Concurrent => Load(Resolve(h, ReceiveAtPath(h, st, op), q, SourceVersion(op)).files, q)
    case _ => Load(st.files, q)
  }

  lemma ReceiveLogs(h: Hashes, st: StoreState, op: Op)
    requires op.WellFormed() && op.Id() !in st.applied
    ensures Receive(h, st, op).oplog == ReceiveAtPath(h, st, op).oplog == InsertOp(st.oplog, op)
    ensures Receive(h, st, op).node == st.node
  {
  }

  /** Before the source's turn, a receipt changes the op's own path and copy names, and clears a dominated source. */
  lemma AtPathFrame(h: Hashes, st: StoreState, op: Op, p: string)
    requires !IsCopyName(p) && p != op.path && op.pathOld != Some(p)
    ensures Load(ReceiveAtPath(h, st, op).files, p) == Load(st.files, p)
  {
    var decision := Decide(Load(st.files, op.path), op.vv);
    var resolved := if decision == Decision.Concurrent then Resolve(h, st, op.path, OpVersion(op)) else st;
    ResolveFrame(h, st, op.path, OpVersion(op), p);
    ApplyFrame(resolved, op, decision, p);
  }

  lemma AtSource(h: Hashes, st: StoreState, op: Op, q: string)
    requires op.WellFormed() && op.Id() !in st.applied && op.pathOld == Some(q) && q != op.path && !IsCopyName(q)
    ensures var mid := ReceiveAtPath(h, st, op).files;
            Load(mid, q) == if Decide(Load(st.files, q), op.vv) == Apply then SourceAfter(h, st, op, q) else Load(st.files, q)
  {
    ResolveFrame(h, st, op.path, OpVersion(op), q);
    var decision := Decide(Load(st.files, op.path), op.vv);
    var resolved := if decision == Decision.Concurrent then Resolve(h, st, op.path, OpVersion(op)) else st;
    var files := ApplyAtPath(resolved.files, op, decision).0;
    assert Load(files, q) == Load(st.files, q);
  }

  lemma ReceiveAtTarget(h: Hashes, st: StoreState, op: Op)
    requires op.WellFormed() && op.Id() !in st.applied && op.pathOld != Some(op.path) && !IsCopyName(op.path)
    ensures Load(Receive(h, st, op).files, op.path) == RowAfter(h, st, op)
  {
    DecideMeaning(Load(st.files, op.path), op.vv);
    if op.kind == Rename {
      ResolveFrame(h, ReceiveAtPath(h, st, op), op.pathOld.value, SourceVersion(op), op.path);
    }
  }

  lemma ReceiveAtSource(h: Hashes, st: StoreState, op: Op, q: string)
    requires op.WellFormed() && op.Id() !in st.applied && op.pathOld == Some(q) && q != op.path && !IsCopyName(q)
    ensures Load(Receive(h, st, op).files, q) == SourceAfter(h, st, op, q)
  {
    AtSource(h, st, op, q);
    var mid := ReceiveAtPath(h, st, op);
    DecideMeaning(Load(st.files, q), op.vv);
    DecideMeaning(Load(mid.files, q), op.vv);
    if Decide(Load(st.files, q), op.vv) == Apply {
      JoinLifts(st.files, q, op.vv);
    }
  }

  lemma ReceiveFrame(h: Hashes, st: StoreState, op: Op, p: string)
    requires op.WellFormed() && !IsCopyName(p) && !Affects(op, p)
    ensures Load(Receive(h, st, op).files, p) == Load(st.files, p)
    ensures OpsAt(Receive(h, st, op).oplog, p) == OpsAt(st.oplog, p)
  {
    if op.Id() !in st.applied {
      AtPathFrame(h, st, op, p);
      if op.kind == Rename {
        ResolveFrame(h, ReceiveAtPath(h, st, op), op.pathOld.value, SourceVersion(op), p);
      }
      ReceiveLogs(h, st, op);
      InsertElsewhere(st.oplog, op, p);
    }
  }

  lemma InsertElsewhere(oplog: seq<Op>, op: Op, p: string)
    requires !Affects(op, p)
    ensures OpsAt(InsertOp(oplog, op), p) == OpsAt(oplog, p)
  {
    if !Logged(oplog, op.Id()) {
      OpsAtAppend(oplog, op, p);
    }
  }

  lemma TargetMeans(h: Hashes, st: StoreState, op: Op, all: set<Op>)
    requires AllProper(h, st.oplog) && Proper(h, op) && RowOk(h, st, op.path)
    requires Causal(all) && View(op, op.path) in all && OpsAt(st.oplog, op.path) <= all && !Unsettled(h, st, op)
    ensures RowMeans(h, OpsAt(st.oplog, op.path) + {View(op, op.path)}, RowAfter(h, st, op))
  {
    var p := op.path;
    var s, v := OpsAt(st.oplog, p), View(op, p);
    ViewIsPlain(h, op, p);
    DecideMeaning(Load(st.files, p), op.vv);
    match Decide(Load(st.files, p), op.vv) {
      case Concurrent => ResolvedMeans(h, st, p, s, v, all);
      case Apply => AppliedMeans(h, st.files, p, s, v);
      case _ => IgnoredMeans(h, st.files, p, s, v, all);
    }
  }

  lemma SourceMeans(h: Hashes, st: StoreState, op: Op, q: string, all: set<Op>)
    requires AllProper(h, st.oplog) && Proper(h, op) && op.Id() !in st.applied && op.pathOld == Some(q) && !IsCopyName(q) && RowOk(h, st, q)
    requires (Logged(st.oplog, op.Id()) ==> op in st.oplog) && !SourceUnsettled(h, st, op)
    requires Causal(all) && View(op, q) in all && OpsAt(st.oplog, q) <= all
    ensures RowMeans(h, OpsAt(st.oplog, q) + {View(op, q)}, SourceAfter(h, st, op, q))
  {
    var s, v := OpsAt(st.oplog, q), View(op, q);
    ViewIsPlain(h, op, q);
    DecideMeaning(Load(st.files, q), op.vv);
    match Decide(Load(st.files, q), op.vv) {
      case Concurrent => SourceResolved(h, st, op, q, all);
      case Apply => AppliedMeans(h, st.files, q, s, v);
      case _ => IgnoredMeans(h, st.files, q, s, v, all);
    }
  }

  /** The source is resolved with the op in the log already. */
  lemma SourceResolved(h: Hashes, st: StoreState, op: Op, q: string, all: set<Op>)
    requires AllProper(h, st.oplog) && Proper(h, op) && op.Id() !in st.applied && op.pathOld == Some(q) && !IsCopyName(q) && RowOk(h, st, q)
    requires (Logged(st.oplog, op.Id()) ==> op in st.oplog) && !SourceUnsettled(h, st, op)
    requires Causal(all) && View(op, q) in all && OpsAt(st.oplog, q) <= all
    requires Decide(Load(st.files, q), op.vv) == Decision.Concurrent
    ensures RowMeans(h, OpsAt(st.oplog, q) + {View(op, q)}, SourceAfter(h, st, op, q))
  {
    var mid := ReceiveAtPath(h, st, op);
    AtSource(h, st, op, q);
    ReceiveLogs(h, st, op);
    OpsAtInsert(st.oplog, op, q);
    ViewIsPlain(h, op, q);
    InsertProper(h, st.oplog, op);
    ResolvedMeans(h, mid, q, OpsAt(st.oplog, q), View(op, q), all);
  }

  /** What a receipt owes the invariant. */
  ghost predicate Extended(h: Hashes, st: StoreState, op: Op, p: string, st': StoreState) {
    OpsAt(st'.oplog, p) == OpsAt(st.oplog, p) + {View(op, p)} && RowOk(h, st', p)
  }

  /** Receiving an op extends the recorded set by it, at each path it affects, and keeps the row its meaning. */
  lemma ReceiveKeepsRow(h: Hashes, st: StoreState, op: Op, p: string, all: set<Op>)
    requires AllProper(h, st.oplog) && Proper(h, op) && Affects(op, p) && !IsCopyName(p)
    requires RowOk(h, st, p) && Causal(all) && View(op, p) in all && OpsAt(st.oplog, p) <= all
    requires !Unsettled(h, st, op) && !SourceUnsettled(h, st, op) && (Logged(st.oplog, op.Id()) ==> op in st.oplog)
    requires op.Id() !in st.applied
    ensures Extended(h, st, op, p, Receive(h, st, op))
  {
    ReceiveLogs(h, st, op);
    OpsAtInsert(st.oplog, op, p);
    if p == op.path {
      TargetMeans(h, st, op, all);
      ReceiveAtTarget(h, st, op);
    } else {
      SourceMeans(h, st, op, p, all);
      ReceiveAtSource(h, st, op, p);
    }
  }

  lemma CausalIsDistinct(all: set<Op>, s: set<Op>)
    requires Causal(all) && s <= all
    ensures DistinctVectors(s)
  {
    forall o, x | o in s && x in s && o.vv == x.vv ensures o == x {
      assert CausalPair(o, x);
    }
  }
}

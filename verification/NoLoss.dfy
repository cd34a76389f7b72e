/**
 No silent loss: in every run where users leave copy names alone and move files
 only between paths whose lineages agree, each received version that nothing
 received supersedes is the row of its path or is preserved, content and durable
 metadata, at its derived copy path. Such runs also never meet the copy-depth
 limit, so nothing is excluded.
 */
module NoLoss {
  import opened VersionVectors
  import opened CopyNames
  import opened Versions
  import opened Decisions
  import opened Conflict
  import opened PlanLaws
  import opened PlanKeeps
  import opened StoreModel
  import opened StoreLaws
  import opened OpSets
  import opened Resolution
  import opened ReplicaModel
  import opened Convergence
  import opened NetRuns

  /** A version of the run: well formed, and what it carries is known. */
  predicate Known(known: set<Content>, v: Version) {
    v.WellFormed() && (v.hash.Some? ==> v.Carried() in known)
  }

  /** A copy row carries exactly the known content and durable metadata its name was derived from. */
  ghost predicate CopyRowOk(h: Hashes, known: set<Content>, q: string, r: Version) {
    && r.vv == CopyVv(h, q)
    && forall base, x :: x in known && q == CopyPathFor(base, h.DigestOf(x)) ==> Carries(h, r, x.hash, h.NamingHash(x.meta))
  }

  /** Every row is of the run, and copy rows are faithful to their names. */
  ghost predicate CopiesOk(h: Hashes, known: set<Content>, files: map<string, Version>) {
    && (forall q {:trigger CopyRowOk(h, known, q, files[q])} :: q in files && IsCopyName(q) ==> CopyRowOk(h, known, q, files[q]))
    && RowsKnown(known, files)
  }

  ghost predicate RowsKnown(known: set<Content>, files: map<string, Version>) {
    forall q {:trigger Known(known, files[q])} :: q in files ==> Known(known, files[q])
  }

  // ------------------------------------------------------------- clean planning

  lemma CopyRowIsOk(h: Hashes, known: set<Content>, base: string, l: Version)
    requires h.TellsCopies(known) && l.hash.Some? && Known(known, l)
    ensures var cp := CopyPath(h, base, l); Known(known, CopyRow(h, cp, l)) && CopyRowOk(h, known, cp, CopyRow(h, cp, l))
  {
    var cp := CopyPath(h, base, l);
    forall b, x | x in known && cp == CopyPathFor(b, h.DigestOf(x)) ensures Carries(h, CopyRow(h, cp, l), x.hash, h.NamingHash(x.meta)) {
      CopyPathInjective(base, h.DigestOf(l.Carried()), b, h.DigestOf(x));
    }
  }

  /** Planned copy rows are faithful to their names. */
  ghost predicate PlannedOk(h: Hashes, known: set<Content>, rows: seq<Planned>) {
    forall i {:trigger rows[i]} :: 1 <= i < |rows| ==> CopyRowOk(h, known, rows[i].path, rows[i].row) && Known(known, rows[i].row)
  }

  predicate HasPlace(rows: seq<Planned>, files: map<string, Version>, cp: string) {
    PlannedAt(rows, cp) || cp in files
  }

  /** With faithful copy rows a loser is placed at its own name at once. */
  lemma CleanLoser(h: Hashes, known: set<Content>, path: string, wk: Key, l: Version, rows: seq<Planned>, files: map<string, Version>)
    requires h.TellsCopies(known) && CopiesOk(h, known, files) && rows != [] && PlannedOk(h, known, rows) && Known(known, l)
    ensures var r := PlanLoser(h, path, wk, l, rows, files);
            && r.Some? && rows <= r.value && PlannedOk(h, known, r.value)
            && (l.hash.Some? && KeyOf(h, l) != wk ==> HasPlace(r.value, files, CopyPath(h, path, l)))
  {
    if l.hash.Some? && KeyOf(h, l) != wk {
      var cp := CopyPath(h, path, l);
      CopyPathIsCopyName(path, h.digest(l.hash.value, h.NamingHash(l.meta)));
      CopyRowIsOk(h, known, path, l);
      assert cp in files ==> CopyRowOk(h, known, cp, files[cp]);
      var rs := rows + [Planned(cp, CopyRow(h, cp, l))];
      assert rs[|rows|].path == cp;
    }
  }

  lemma {:induction false} CleanLosers(h: Hashes, known: set<Content>, path: string, wk: Key, losers: seq<Version>, rows: seq<Planned>, files: map<string, Version>)
    requires h.TellsCopies(known) && CopiesOk(h, known, files) && rows != [] && PlannedOk(h, known, rows)
    requires forall l :: l in losers ==> Known(known, l)
    ensures var r := PlanLosers(h, path, wk, losers, rows, files);
            && r.Some? && rows <= r.value && PlannedOk(h, known, r.value)
            && forall l :: l in losers && l.hash.Some? && KeyOf(h, l) != wk ==> HasPlace(r.value, files, CopyPath(h, path, l))
    decreases |losers|
  {
    if losers != [] {
      CleanLoser(h, known, path, wk, losers[0], rows, files);
      var mid := PlanLoser(h, path, wk, losers[0], rows, files).value;
      CleanLosers(h, known, path, wk, losers[1..], mid, files);
      var rs := PlanLosers(h, path, wk, losers[1..], mid, files).value;
      forall l | l in losers && l.hash.Some? && KeyOf(h, l) != wk ensures HasPlace(rs, files, CopyPath(h, path, l)) {
        if l == losers[0] {
          PlaceStays(mid, rs, files, CopyPath(h, path, l));
        } else {
          assert l in losers[1..];
        }
      }
    }
  }

  lemma PlaceStays(a: seq<Planned>, b: seq<Planned>, files: map<string, Version>, cp: string)
    requires a <= b && HasPlace(a, files, cp)
    ensures HasPlace(b, files, cp)
  {
    if PlannedAt(a, cp) {
      var i :| 0 <= i < |a| && a[i].path == cp;
      assert b[i].path == cp;
    }
  }

  /** A clean plan exists, its copy rows are faithful, and every loser has a place. */
  lemma CleanPlan(h: Hashes, known: set<Content>, path: string, cs: seq<Version>, files: map<string, Version>)
    requires h.TellsCopies(known) && CopiesOk(h, known, files) && Antichain(h, cs) != []
    requires forall v :: v in cs ==> Known(known, v)
    ensures var a := Antichain(h, cs);
            var r := Plan(h, path, cs, files);
            && r.Some? && PlannedOk(h, known, r.value) && r.value != [] && Known(known, r.value[0].row)
            && forall l :: l in a && l.hash.Some? && KeyOf(h, l) != KeyOf(h, a[0]) ==> HasPlace(r.value, files, CopyPath(h, path, l))
  {
    var a := Antichain(h, cs);
    AntichainBasics(h, cs);
    assert a[0] in a && Known(known, a[0]);
    forall l | l in a[1..] ensures Known(known, l) {
      assert l in a;
    }
    CleanLosers(h, known, path, KeyOf(h, a[0]), a[1..], [Planned(path, WinnerRow(h, a, JoinAll(cs)))], files);
  }

  lemma CandidatesGiveMember(h: Hashes, st: StoreState, path: string, remote: Version)
    ensures Antichain(h, Candidates(st, path, remote)) != []
  {
    var cs := Candidates(st, path, remote);
    assert remote in cs by {
      assert cs[|History(st.oplog, path)|] == remote;
    }
    var x := MemberAbove(h, cs, remote);
  }

  /** The ops of a log are of the run. */
  ghost predicate OpsKnown(known: set<Content>, oplog: seq<Op>) {
    forall o {:trigger Known(known, OpVersion(o))} :: o in oplog ==> Known(known, OpVersion(o))
  }

  lemma {:induction false} HistoryKnown(known: set<Content>, oplog: seq<Op>, path: string)
    requires OpsKnown(known, oplog)
    ensures forall v :: v in History(oplog, path) ==> Known(known, v)
  {
    if oplog != [] {
      var init, last := oplog[..|oplog| - 1], oplog[|oplog| - 1];
      assert OpsKnown(known, init) by {
        forall o | o in init ensures Known(known, OpVersion(o)) {
          assert o in oplog;
        }
      }
      HistoryKnown(known, init, path);
      assert last in oplog;
      assert Known(known, OpVersion(last));
      assert Known(known, AsCandidate(last, path));
    }
  }

  lemma CandidatesKnown(known: set<Content>, st: StoreState, path: string, remote: Version)
    requires OpsKnown(known, st.oplog) && RowsKnown(known, st.files) && Known(known, remote)
    ensures forall v :: v in Candidates(st, path, remote) ==> Known(known, v)
  {
    HistoryKnown(known, st.oplog, path);
    assert path in st.files ==> Known(known, st.files[path]);
  }

  /** Committing a clean plan keeps every copy row faithful. */
  lemma CleanResolve(h: Hashes, known: set<Content>, st: StoreState, path: string, remote: Version)
    requires h.TellsCopies(known) && CopiesOk(h, known, st.files) && OpsKnown(known, st.oplog) && Known(known, remote) && !IsCopyName(path)
    ensures CopiesOk(h, known, Resolve(h, st, path, remote).files)
    ensures DerivedPlan(h, st, path, remote).Some?
  {
    CandidatesGiveMember(h, st, path, remote);
    CandidatesKnown(known, st, path, remote);
    CleanPlan(h, known, path, Candidates(st, path, remote), st.files);
    if Decide(Load(st.files, path), remote.vv) == Decision.Concurrent {
      ResolutionLifts(h, st, path, remote);
      var rs := DerivedPlan(h, st, path, remote).value;
      CommitCopies(h, known, st.files, rs);
    }
  }

  lemma CommitCopies(h: Hashes, known: set<Content>, files: map<string, Version>, rs: seq<Planned>)
    requires CopiesOk(h, known, files) && PlannedOk(h, known, rs) && DistinctPaths(rs) && rs != [] && !IsCopyName(rs[0].path) && Known(known, rs[0].row)
    ensures CopiesOk(h, known, Commit(files, rs))
  {
    CommitIs(files, rs);
    var out := Commit(files, rs);
    forall q | q in out && IsCopyName(q) ensures CopyRowOk(h, known, q, out[q]) {
      if PlannedAt(rs, q) {
        var i :| 0 <= i < |rs| && rs[i].path == q;
        assert i >= 1;
      } else {
        assert Load(out, q) == Load(files, q);
        assert CopyRowOk(h, known, q, files[q]);
      }
    }
    forall q | q in out ensures Known(known, out[q]) {
      if PlannedAt(rs, q) {
        var i :| 0 <= i < |rs| && rs[i].path == q;
      } else {
        assert Load(out, q) == Load(files, q);
        assert Known(known, files[q]);
      }
    }
  }

  // ------------------------------------------------------------------- safety

  /** Op `o` is the path's row, or its content and durable metadata stand at its copy path. */
  ghost predicate Safe(h: Hashes, files: map<string, Version>, o: Op)
    requires o.hash.Some?
  {
    || (o.path in files && KeyOf(h, files[o.path]) == OpKey(h, o))
    || (var cp := CopyPath(h, o.path, OpVersion(o));
        cp in files && Carries(h, files[cp], o.hash.value, h.NamingHash(o.meta)))
  }

  /** Every undominated op with content among `s` is safe. */
  ghost predicate AllSafeIn(h: Hashes, files: map<string, Version>, s: set<Op>) {
    forall o {:trigger Safe(h, files, o)} :: o in Tip(s) && o.hash.Some? ==> Safe(h, files, o)
  }

  /** Every undominated op with content recorded for `p` is safe. */
  ghost predicate AllSafe(h: Hashes, st: StoreState, p: string) {
    AllSafeIn(h, st.files, OpsAt(st.oplog, p))
  }

  lemma PlacedCarries(h: Hashes, known: set<Content>, files: map<string, Version>, base: string, v: Version)
    requires CopiesOk(h, known, files) && v.hash.Some? && v.Carried() in known && CopyPath(h, base, v) in files
    ensures Carries(h, files[CopyPath(h, base, v)], v.hash.value, h.NamingHash(v.meta))
  {
    var cp := CopyPath(h, base, v);
    CopyPathIsCopyName(base, h.DigestOf(v.Carried()));
    assert CopyRowOk(h, known, cp, files[cp]);
  }

  lemma PlaceIsCommitted(files: map<string, Version>, rs: seq<Planned>, cp: string)
    requires DistinctPaths(rs) && HasPlace(rs, files, cp)
    ensures cp in Commit(files, rs)
  {
    CommitIs(files, rs);
    if PlannedAt(rs, cp) {
      var i :| 0 <= i < |rs| && rs[i].path == cp;
      assert rs[i].path in Commit(files, rs);
    } else {
      assert Load(Commit(files, rs), cp) == Load(files, cp);
    }
  }

  /** The candidate that stands for a tip op, among well-formed candidates. */
  lemma TipCandidate(h: Hashes, st: StoreState, p: string, s: set<Op>, v: Op, o: Op) returns (c: Version)
    requires AllProper(h, st.oplog) && Plain(h, v) && RowMeans(h, s, Load(st.files, p)) && Arriving(st.oplog, p, s, v)
    requires DistinctVectors(s + {v}) && o in Tip(s + {v})
    ensures Plain(h, o) && Stands(c, o)
    ensures var a := Antichain(h, Candidates(st, p, OpVersion(v))); c in a && a[0].WellFormed()
  {
    var ops := StoreCandidates(h, st, p, s, v);
    c := TipStandIn(h, Candidates(st, p, OpVersion(v)), ops, s + {v}, o);
  }

  lemma TipStandIn(h: Hashes, cs: seq<Version>, ops: seq<Op>, s: set<Op>, o: Op) returns (v: Version)
    requires StandsFor(cs, ops) && AllPlain(h, ops) && OpSet(ops) == s && DistinctVectors(s) && o in Tip(s)
    ensures Plain(h, o) && Stands(v, o) && v in Antichain(h, cs) && Antichain(h, cs)[0].WellFormed()
  {
    v := TipIsMember(h, cs, ops, o);
    assert o in OpSet(ops);
    assert Plain(h, o);
    var w := MemberIsTip(h, cs, ops, Antichain(h, cs)[0]);
    assert w in OpSet(ops);
    assert Plain(h, w);
  }

  /** After a resolution, a tip op is the winner's content or sits at its copy path. */
  lemma ResolvedIsSafe(h: Hashes, known: set<Content>, st: StoreState, p: string, s: set<Op>, v: Op, o: Op)
    requires h.TellsCopies(known) && AllProper(h, st.oplog) && Plain(h, v) && RowMeans(h, s, Load(st.files, p)) && Arriving(st.oplog, p, s, v)
    requires CopiesOk(h, known, st.files) && OpsKnown(known, st.oplog) && Known(known, OpVersion(v))
    requires DistinctVectors(s + {v}) && !IsCopyName(p) && Decide(Load(st.files, p), v.vv) == Decision.Concurrent
    requires o in Tip(s + {v}) && o.hash.Some? && o.path == p
    ensures Safe(h, Resolve(h, st, p, OpVersion(v)).files, o)
  {
    var c := TipCandidate(h, st, p, s, v, o);
    StandsKey(h, c, o);
    ResolvedMember(h, known, st, p, OpVersion(v), Candidates(st, p, OpVersion(v)), c);
  }

  lemma ResolvedMember(h: Hashes, known: set<Content>, st: StoreState, path: string, remote: Version, cs: seq<Version>, v: Version)
    requires h.TellsCopies(known) && CopiesOk(h, known, st.files) && !IsCopyName(path) && cs == Candidates(st, path, remote)
    requires OpsKnown(known, st.oplog) && Known(known, remote)
    requires Decide(Load(st.files, path), remote.vv) == Decision.Concurrent
    requires v in Antichain(h, cs) && v.hash.Some? && v.WellFormed() && Antichain(h, cs)[0].WellFormed()
    ensures var out := Resolve(h, st, path, remote).files;
            || (path in out && KeyOf(h, out[path]) == KeyOf(h, v))
            || (CopyPath(h, path, v) in out && Carries(h, out[CopyPath(h, path, v)], v.hash.value, h.NamingHash(v.meta)))
  {
    var a := Antichain(h, cs);
    CandidatesKnown(known, st, path, remote);
    AntichainBasics(h, cs);
    CleanPlan(h, known, path, cs, st.files);
    CleanResolve(h, known, st, path, remote);
    ResolveWrites(h, st, path, remote);
    var out := Resolve(h, st, path, remote).files;
    if KeyOf(h, v) == KeyOf(h, a[0]) {
      assert KeyOf(h, out[path]) == KeyOf(h, a[0]);
    } else {
      ResolutionLifts(h, st, path, remote);
      PlaceIsCommitted(st.files, DerivedPlan(h, st, path, remote).value, CopyPath(h, path, v));
      PlacedCarries(h, known, out, path, v);
    }
  }

  // ------------------------------------------------------------------ one node

  /** What a clean run keeps at one node. */
  ghost predicate NodeOk(h: Hashes, known: set<Content>, st: StoreState) {
    && CopiesOk(h, known, st.files) && OpsKnown(known, st.oplog)
    && forall o {:trigger NamesFiles(o)} :: o in st.oplog ==> NamesFiles(o)
  }

  /** The op's paths are not copy names. */
  predicate NamesFiles(o: Op) {
    !IsCopyName(o.path) && (o.pathOld.Some? ==> !IsCopyName(o.pathOld.value))
  }

  ghost predicate AtPath(s: set<Op>, p: string) {
    forall o :: o in s ==> o.path == p
  }

  lemma HeldAtPath(h: Hashes, oplog: seq<Op>, p: string)
    requires AllProper(h, oplog)
    ensures AtPath(OpsAt(oplog, p), p)
  {
    forall v | v in OpsAt(oplog, p) ensures v.path == p {
      HeldIsPlain(h, oplog, p, v);
    }
  }

  lemma SafeFrame(h: Hashes, a: map<string, Version>, b: map<string, Version>, s: set<Op>, t: set<Op>, p: string)
    requires AllSafeIn(h, a, s) && Tip(s) == Tip(t) && AtPath(t, p)
    requires Load(a, p) == Load(b, p) && CopiesKept(a, b)
    ensures AllSafeIn(h, b, t)
  {
    forall o | o in Tip(t) && o.hash.Some? ensures Safe(h, b, o) {
      assert o in t && Safe(h, a, o);
      CopyPathIsCopyName(o.path, h.digest(o.hash.value, h.NamingHash(o.meta)));
    }
  }

  /** Rows at copy names are never replaced. */
  ghost predicate CopiesKept(a: map<string, Version>, b: map<string, Version>) {
    forall q :: q in a && IsCopyName(q) ==> q in b && b[q] == a[q]
  }

  /** Between faithful states a copy row cannot change: its vector is fixed by its name. */
  lemma FaithfulCopiesStay(h: Hashes, known: set<Content>, a: map<string, Version>, b: map<string, Version>)
    requires CopiesOk(h, known, a) && CopiesOk(h, known, b) && Climbs(a, b)
    ensures CopiesKept(a, b)
  {
    forall q | q in a && IsCopyName(q) ensures q in b && b[q] == a[q] {
      assert CopyRowOk(h, known, q, a[q]) && CopyRowOk(h, known, q, b[q]);
    }
  }

  /** An op that dominates all it meets is alone at the tip and is the row. */
  lemma DominatingIsSafe(h: Hashes, s: set<Op>, e: Op, files: map<string, Version>, o: Op)
    requires (forall x :: x in s ==> Less(x.vv, e.vv)) && e.WellFormed() && o in Tip(s + {e}) && o.hash.Some?
    requires e.path in files && files[e.path] == OpRow(e, e.vv) && e.kind != Rename
    ensures Safe(h, files, o)
  {
    DominatingTip(s, e);
    assert o in {e};
  }

  lemma UpdateCopies(h: Hashes, known: set<Content>, files: map<string, Version>, p: string, row: Version)
    requires CopiesOk(h, known, files) && !IsCopyName(p) && Known(known, row)
    ensures CopiesOk(h, known, files[p := row])
  {
    var out := files[p := row];
    forall q | q in out && IsCopyName(q) ensures CopyRowOk(h, known, q, out[q]) {
      assert CopyRowOk(h, known, q, files[q]);
    }
    forall q | q in out ensures Known(known, out[q]) {
      assert q != p ==> Known(known, files[q]);
    }
  }

  lemma ApplyKeepsCopies(h: Hashes, known: set<Content>, files: map<string, Version>, op: Op, decision: Decision)
    requires CopiesOk(h, known, files) && !IsCopyName(op.path) && op.WellFormed() && Known(known, OpVersion(op))
    ensures CopiesOk(h, known, ApplyAtPath(files, op, decision).0)
  {
    UpdateCopies(h, known, files, op.path, OpRow(op, Join(VvAt(files, op.path), op.vv)));
  }

  lemma ClearKeepsCopies(h: Hashes, known: set<Content>, files: map<string, Version>, op: Op)
    requires CopiesOk(h, known, files) && NamesFiles(op)
    ensures CopiesOk(h, known, ApplyAtSource(files, op))
  {
    if op.pathOld.Some? {
      var q := op.pathOld.value;
      UpdateCopies(h, known, files, q, SourceTombstone(Join(VvAt(files, q), op.vv), op.uuid));
    }
  }

  /** The tables after the op's own path was dealt with. */
  lemma CleanAtPath(h: Hashes, known: set<Content>, st: StoreState, op: Op)
    requires h.TellsCopies(known) && CopiesOk(h, known, st.files) && NamesFiles(op) && op.WellFormed()
    requires OpsKnown(known, st.oplog) && Known(known, OpVersion(op))
    ensures CopiesOk(h, known, ReceiveAtPath(h, st, op).files) && !Unsettled(h, st, op)
  {
    CleanResolve(h, known, st, op.path, OpVersion(op));
    var decision := Decide(Load(st.files, op.path), op.vv);
    var resolved := if decision == Decision.Concurrent then Resolve(h, st, op.path, OpVersion(op)) else st;
    RecordKeepsCopies(h, known, resolved, op, decision);
  }

  lemma RecordKeepsCopies(h: Hashes, known: set<Content>, st: StoreState, op: Op, decision: Decision)
    requires CopiesOk(h, known, st.files) && NamesFiles(op) && op.WellFormed() && Known(known, OpVersion(op))
    ensures CopiesOk(h, known, ApplyRemote(st, op, decision).0.files)
  {
    ApplyKeepsCopies(h, known, st.files, op, decision);
    ClearKeepsCopies(h, known, ApplyAtPath(st.files, op, decision).0, op);
  }

  lemma InsertKnown(known: set<Content>, oplog: seq<Op>, op: Op)
    requires OpsKnown(known, oplog) && Known(known, OpVersion(op))
    ensures OpsKnown(known, InsertOp(oplog, op))
  {
    forall o | o in InsertOp(oplog, op) ensures Known(known, OpVersion(o)) {
      assert o in oplog || o == op;
    }
  }

  lemma CleanReceiveCopies(h: Hashes, known: set<Content>, st: StoreState, op: Op)
    requires h.TellsCopies(known) && CopiesOk(h, known, st.files) && NamesFiles(op) && op.WellFormed() && op.Id() !in st.applied
    requires OpsKnown(known, st.oplog) && Known(known, OpVersion(op))
    ensures CopiesOk(h, known, Receive(h, st, op).files) && !Unsettled(h, st, op) && !SourceUnsettled(h, st, op)
  {
    CleanAtPath(h, known, st, op);
    if op.kind == Rename {
      var mid := ReceiveAtPath(h, st, op);
      ReceiveLogs(h, st, op);
      InsertKnown(known, st.oplog, op);
      CleanResolve(h, known, mid, op.pathOld.value, SourceVersion(op));
    }
  }

  /** Copies are never replaced by a receipt. */
  lemma ReceiveKeepsCopies(h: Hashes, known: set<Content>, st: StoreState, op: Op)
    requires h.TellsCopies(known) && CopiesOk(h, known, st.files) && NamesFiles(op) && op.WellFormed() && op.Id() !in st.applied
    requires OpsKnown(known, st.oplog) && Known(known, OpVersion(op))
    ensures CopiesKept(st.files, Receive(h, st, op).files)
  {
    CleanReceiveCopies(h, known, st, op);
    ReceiveClimbs(h, st, op);
    FaithfulCopiesStay(h, known, st.files, Receive(h, st, op).files);
  }

  /** What receiving asks for, at a path the op affects. */
  ghost predicate Receivable(h: Hashes, known: set<Content>, st: StoreState, op: Op, p: string, all: set<Op>) {
    && h.TellsCopies(known) && AllProper(h, st.oplog) && Proper(h, op) && RowOk(h, st, p) && CopiesOk(h, known, st.files)
    && OpsKnown(known, st.oplog) && Known(known, OpVersion(op)) && NamesFiles(op) && Affects(op, p)
    && Causal(all) && View(op, p) in all && OpsAt(st.oplog, p) <= all
    && op.Id() !in st.applied && (Logged(st.oplog, op.Id()) ==> op in st.oplog)
  }

  lemma Grown(h: Hashes, known: set<Content>, st: StoreState, op: Op, p: string, all: set<Op>)
    requires Receivable(h, known, st, op, p, all)
    ensures var s, v := OpsAt(st.oplog, p), View(op, p);
            && OpsAt(Receive(h, st, op).oplog, p) == OpsAt(ReceiveAtPath(h, st, op).oplog, p) == s + {v}
            && AtPath(s + {v}, p) && DistinctVectors(s + {v}) && Plain(h, v) && !IsCopyName(p)
  {
    GrownLog(h, st, op, p);
    ViewIsPlain(h, op, p);
    GrownSet(h, st.oplog, p, View(op, p), all);
  }

  lemma GrownLog(h: Hashes, st: StoreState, op: Op, p: string)
    requires op.WellFormed() && op.Id() !in st.applied && (Logged(st.oplog, op.Id()) ==> op in st.oplog) && Affects(op, p)
    ensures OpsAt(Receive(h, st, op).oplog, p) == OpsAt(ReceiveAtPath(h, st, op).oplog, p) == OpsAt(st.oplog, p) + {View(op, p)}
  {
    ReceiveLogs(h, st, op);
    OpsAtInsert(st.oplog, op, p);
  }

  lemma GrownSet(h: Hashes, oplog: seq<Op>, p: string, v: Op, all: set<Op>)
    requires AllProper(h, oplog) && v.path == p && Causal(all) && v in all && OpsAt(oplog, p) <= all
    ensures AtPath(OpsAt(oplog, p) + {v}, p) && DistinctVectors(OpsAt(oplog, p) + {v})
  {
    HeldAtPath(h, oplog, p);
    CausalIsDistinct(all, OpsAt(oplog, p) + {v});
  }

  lemma ResolvedAllSafe(h: Hashes, known: set<Content>, st: StoreState, p: string, s: set<Op>, v: Op)
    requires h.TellsCopies(known) && AllProper(h, st.oplog) && Plain(h, v) && RowMeans(h, s, Load(st.files, p)) && Arriving(st.oplog, p, s, v)
    requires CopiesOk(h, known, st.files) && OpsKnown(known, st.oplog) && Known(known, OpVersion(v)) && AtPath(s + {v}, p)
    requires DistinctVectors(s + {v}) && !IsCopyName(p) && Decide(Load(st.files, p), v.vv) == Decision.Concurrent
    ensures AllSafeIn(h, Resolve(h, st, p, OpVersion(v)).files, s + {v})
  {
    forall o | o in Tip(s + {v}) && o.hash.Some? ensures Safe(h, Resolve(h, st, p, OpVersion(v)).files, o) {
      assert o in s + {v};
      ResolvedIsSafe(h, known, st, p, s, v, o);
    }
  }

  /** A conflict at the op's own path. */
  lemma SafeConflict(h: Hashes, known: set<Content>, st: StoreState, op: Op, all: set<Op>)
    requires Receivable(h, known, st, op, op.path, all) && Decide(Load(st.files, op.path), op.vv) == Decision.Concurrent
    ensures AllSafe(h, Receive(h, st, op), op.path)
  {
    var p := op.path;
    var s, v := OpsAt(st.oplog, p), View(op, p);
    Grown(h, known, st, op, p, all);
    ViewIsPlain(h, op, p);
    ResolvedAllSafe(h, known, st, p, s, v);
    var resolved := Resolve(h, st, p, OpVersion(op));
    ConflictKeepsCopies(h, known, st, op);
    ReceiveAtTarget(h, st, op);
    SafeFrame(h, resolved.files, Receive(h, st, op).files, s + {v}, s + {v}, p);
  }

  /** What a resolution at the op's own path placed is not replaced afterwards. */
  lemma ConflictKeepsCopies(h: Hashes, known: set<Content>, st: StoreState, op: Op)
    requires h.TellsCopies(known) && CopiesOk(h, known, st.files) && NamesFiles(op) && op.WellFormed() && op.Id() !in st.applied
    requires OpsKnown(known, st.oplog) && Known(known, OpVersion(op)) && Decide(Load(st.files, op.path), op.vv) == Decision.Concurrent
    ensures CopiesKept(Resolve(h, st, op.path, OpVersion(op)).files, Receive(h, st, op).files)
  {
    var resolved, mid, end := Resolve(h, st, op.path, OpVersion(op)), ReceiveAtPath(h, st, op), Receive(h, st, op);
    CleanResolve(h, known, st, op.path, OpVersion(op));
    CleanReceiveCopies(h, known, st, op);
    ApplyClimbs(resolved, op, Decision.Concurrent);
    if op.kind == Rename {
      ResolveClimbsToo(h, mid, op.pathOld.value, SourceVersion(op));
      ClimbsTransitive(resolved.files, mid.files, Resolve(h, mid, op.pathOld.value, SourceVersion(op)).files);
    }
    assert Climbs(resolved.files, end.files);
    FaithfulCopiesStay(h, known, resolved.files, end.files);
  }

  /** A conflict at a rename's source. */
  lemma SafeSourceConflict(h: Hashes, known: set<Content>, st: StoreState, op: Op, q: string, all: set<Op>)
    requires Receivable(h, known, st, op, q, all) && q != op.path && Decide(Load(st.files, q), op.vv) == Decision.Concurrent
    ensures AllSafe(h, Receive(h, st, op), q)
  {
    var s, v := OpsAt(st.oplog, q), View(op, q);
    Grown(h, known, st, op, q, all);
    ViewIsPlain(h, op, q);
    AtSource(h, st, op, q);
    CleanAtPath(h, known, st, op);
    ReceiveLogs(h, st, op);
    InsertKnown(known, st.oplog, op);
    SourceSafe(h, known, ReceiveAtPath(h, st, op), st.oplog, op, q, s, v);
  }

  lemma SourceSafe(h: Hashes, known: set<Content>, mid: StoreState, oplog: seq<Op>, op: Op, q: string, s: set<Op>, v: Op)
    requires h.TellsCopies(known) && AllProper(h, oplog) && Proper(h, op) && mid.oplog == InsertOp(oplog, op)
    requires Plain(h, v) && RowMeans(h, s, Load(mid.files, q)) && OpsAt(mid.oplog, q) == s + {v} && AtPath(s + {v}, q)
    requires CopiesOk(h, known, mid.files) && OpsKnown(known, mid.oplog) && Known(known, OpVersion(v))
    requires DistinctVectors(s + {v}) && !IsCopyName(q) && Decide(Load(mid.files, q), v.vv) == Decision.Concurrent
    ensures AllSafeIn(h, Resolve(h, mid, q, OpVersion(v)).files, s + {v})
  {
    InsertProper(h, oplog, op);
    ResolvedAllSafe(h, known, mid, q, s, v);
  }

  /** An op that dominates its path. */
  lemma SafeApply(h: Hashes, known: set<Content>, st: StoreState, op: Op, p: string, all: set<Op>)
    requires Receivable(h, known, st, op, p, all) && Decide(Load(st.files, p), op.vv) == Apply
    ensures AllSafe(h, Receive(h, st, op), p)
  {
    var s, v := OpsAt(st.oplog, p), View(op, p);
    Grown(h, known, st, op, p, all);
    JoinLifts(st.files, p, op.vv);
    forall o | o in s ensures Less(o.vv, v.vv) {
      LessTransitive(o.vv, st.files[p].vv, op.vv);
    }
    if p == op.path {
      ReceiveAtTarget(h, st, op);
    } else {
      ReceiveAtSource(h, st, op, p);
    }
    var out := Receive(h, st, op).files;
    assert p in out && out[p] == OpRow(v, v.vv);
    forall o | o in Tip(s + {v}) && o.hash.Some? ensures Safe(h, out, o) {
      DominatingIsSafe(h, s, v, out, o);
    }
  }

  /** An op below what is there. */
  lemma SafeIgnore(h: Hashes, known: set<Content>, st: StoreState, op: Op, p: string, all: set<Op>)
    requires Receivable(h, known, st, op, p, all) && AllSafe(h, st, p) && Decide(Load(st.files, p), op.vv) == Ignore
    ensures AllSafe(h, Receive(h, st, op), p)
  {
    var s, v := OpsAt(st.oplog, p), View(op, p);
    Grown(h, known, st, op, p, all);
    DecideMeaning(Load(st.files, p), op.vv);
    LeqAt(op.vv, st.files[p].vv, op.origin);
    assert v.origin == op.origin by {
      assert v.Id() == op.Id();
    }
    var x := ReachedIsCovered(all, s, st.files[p].vv, v);
    assert CausalPair(v, x);
    CoveredTip(s, v, x);
    if p == op.path {
      ReceiveAtTarget(h, st, op);
    } else {
      ReceiveAtSource(h, st, op, p);
    }
    ReceiveKeepsCopies(h, known, st, op);
    SafeFrame(h, st.files, Receive(h, st, op).files, s, s + {v}, p);
  }

  lemma SafeElsewhere(h: Hashes, known: set<Content>, st: StoreState, op: Op, p: string)
    requires h.TellsCopies(known) && CopiesOk(h, known, st.files) && NamesFiles(op) && op.WellFormed() && AllProper(h, st.oplog)
    requires OpsKnown(known, st.oplog) && Known(known, OpVersion(op)) && op.Id() !in st.applied
    requires !Affects(op, p) && !IsCopyName(p) && AllSafe(h, st, p)
    ensures AllSafe(h, Receive(h, st, op), p)
  {
    ReceiveFrame(h, st, op, p);
    ReceiveKeepsCopies(h, known, st, op);
    HeldAtPath(h, st.oplog, p);
    SafeFrame(h, st.files, Receive(h, st, op).files, OpsAt(st.oplog, p), OpsAt(st.oplog, p), p);
  }

  lemma ReceiveKeepsSafe(h: Hashes, known: set<Content>, st: StoreState, op: Op, p: string, all: set<Op>)
    requires Receivable(h, known, st, op, p, all) && AllSafe(h, st, p)
    ensures AllSafe(h, Receive(h, st, op), p)
  {
    DecideMeaning(Load(st.files, p), op.vv);
    match Decide(Load(st.files, p), op.vv) {
      case Apply => SafeApply(h, known, st, op, p, all);
      case Concurrent =>
        if p == op.path {
          SafeConflict(h, known, st, op, all);
        } else {
          SafeSourceConflict(h, known, st, op, p, all);
        }
      case _ => SafeIgnore(h, known, st, op, p, all);
    }
  }

  // ------------------------------------------------------------------ the mesh

  /** Steps of a run in which users leave copy names alone, and move files between paths whose lineages agree. */
  predicate Clean(net: Net, s: Step) {
    && s.node in net
    && match s
       case Deliver(_, op) => op.origin in net && op in net[op.origin].oplog
       case LocalRename(n, source, target) =>
         !IsCopyName(source) && !IsCopyName(target) && (IsMove(net[n], source, target) ==> LineagesAgree(net[n], source, target))
       case _ => !IsCopyName(s.path)
  }

  /** What a step writes is known. */
  predicate WritesKnown(known: set<Content>, s: Step) {
    s.LocalWrite? ==> Content(s.hash, s.meta) in known
  }

  /** Everything users write during a run. */
  function Written(run: seq<Step>): set<Content> {
    set s | s in run && s.LocalWrite? :: Content(s.hash, s.meta)
  }

  predicate CleanRun(h: Hashes, net: Net, run: seq<Step>)
    decreases |run|
  {
    run == [] || (Clean(net, run[0]) && CleanRun(h, Next(h, net, run[0]), run[1..]))
  }

  ghost predicate MeshOk(h: Hashes, known: set<Content>, net: Net) {
    forall n {:trigger NodeOk(h, known, net[n])} :: n in net ==> NodeOk(h, known, net[n])
  }

  ghost predicate MeshSafe(h: Hashes, net: Net, p: string) {
    forall n {:trigger AllSafe(h, net[n], p)} :: n in net ==> AllSafe(h, net[n], p)
  }

  /** Clean steps are enabled: no resolution is ever refused for depth. */
  lemma CleanIsEnabled(h: Hashes, known: set<Content>, net: Net, s: Step)
    requires h.TellsCopies(known) && LogsOk(h, net) && MeshOk(h, known, net) && Clean(net, s)
    ensures Enabled(h, net, s)
  {
    if s.Deliver? && s.op.Id() !in net[s.node].applied {
      Deliverable(h, known, net, s);
      CleanReceiveCopies(h, known, net[s.node], s.op);
    }
  }

  lemma Deliverable(h: Hashes, known: set<Content>, net: Net, s: Step)
    requires LogsOk(h, net) && MeshOk(h, known, net) && Clean(net, s) && s.Deliver?
    ensures Proper(h, s.op) && NamesFiles(s.op) && Known(known, OpVersion(s.op))
    ensures NodeOk(h, known, net[s.node]) && AllProper(h, net[s.node].oplog)
  {
    assert LogOk(h, net, s.op.origin) && LogOk(h, net, s.node) && Proper(h, s.op);
    assert NodeOk(h, known, net[s.op.origin]) && NodeOk(h, known, net[s.node]);
    assert NamesFiles(s.op);
  }

  lemma DeliverKeepsNode(h: Hashes, known: set<Content>, net: Net, s: Step)
    requires h.TellsCopies(known) && LogsOk(h, net) && MeshOk(h, known, net) && Clean(net, s) && s.Deliver?
    ensures NodeOk(h, known, Receive(h, net[s.node], s.op))
  {
    var st := net[s.node];
    Deliverable(h, known, net, s);
    if s.op.Id() !in st.applied {
      CleanReceiveCopies(h, known, st, s.op);
      ReceiveLogs(h, st, s.op);
      InsertKnown(known, st.oplog, s.op);
    }
  }

  /** Appending a known op that names no copies, with its rows, keeps the node in order. */
  lemma AppendKeepsNode(h: Hashes, known: set<Content>, st: StoreState, e: Op, files: map<string, Version>)
    requires NodeOk(h, known, st) && Known(known, OpVersion(e)) && NamesFiles(e) && CopiesOk(h, known, files)
    ensures NodeOk(h, known, st.(oplog := st.oplog + [e], files := files))
  {
    forall o | o in st.oplog + [e] ensures Known(known, OpVersion(o)) && NamesFiles(o) {
      assert o in st.oplog || o == e;
    }
  }

  lemma LocalKeepsNode(h: Hashes, known: set<Content>, st: StoreState, c: LocalChange)
    requires NodeOk(h, known, st) && c.WellFormed() && c.kind != Rename && !IsCopyName(c.path)
    requires c.hash.Some? ==> Content(c.hash.value, c.meta) in known
    ensures NodeOk(h, known, AppendLocal(h, st, c).0)
  {
    if !IsNoOp(h, Load(st.files, c.path), c) {
      AppendEffect(h, st, c);
      var e := LocalOp(h, st, c);
      UpdateCopies(h, known, st.files, c.path, OpRow(e, e.vv));
      AppendKeepsNode(h, known, st, e, st.files[c.path := OpRow(e, e.vv)]);
    }
  }

  lemma MoveKeepsNode(h: Hashes, known: set<Content>, st: StoreState, source: string, target: string)
    requires NodeOk(h, known, st) && !IsCopyName(source) && !IsCopyName(target) && IsMove(st, source, target)
    ensures NodeOk(h, known, AppendLocalRename(h, st, source, target).0)
  {
    var e, st' := RenameOp(h, st, source, target), AppendLocalRename(h, st, source, target).0;
    RenameEffect(h, st, source, target);
    assert Known(known, st.files[source]);
    var cleared := st.files[source := SourceTombstone(e.vv, e.uuid)];
    UpdateCopies(h, known, st.files, source, SourceTombstone(e.vv, e.uuid));
    UpdateCopies(h, known, cleared, target, Version(false, e.hash, e.meta, e.mode, e.size, e.vv, e.uuid));
    AppendKeepsNode(h, known, st, e, st'.files);
  }

  lemma CleanKeepsNode(h: Hashes, known: set<Content>, net: Net, s: Step)
    requires h.TellsCopies(known) && LogsOk(h, net) && MeshOk(h, known, net) && Clean(net, s) && WritesKnown(known, s)
    ensures NodeOk(h, known, Act(h, net[s.node], s))
  {
    assert NodeOk(h, known, net[s.node]);
    match s {
      case Deliver(_, _) => DeliverKeepsNode(h, known, net, s);
      case LocalRename(n, source, target) =>
        if IsMove(net[n], source, target) {
          MoveKeepsNode(h, known, net[n], source, target);
        }
      case _ => LocalKeepsNode(h, known, net[s.node], ChangeOf(h, s));
    }
  }

  lemma CleanKeepsMesh(h: Hashes, known: set<Content>, net: Net, s: Step)
    requires h.TellsCopies(known) && LogsOk(h, net) && MeshOk(h, known, net) && Clean(net, s) && WritesKnown(known, s)
    ensures MeshOk(h, known, Next(h, net, s))
  {
    CleanKeepsNode(h, known, net, s);
    var net' := Next(h, net, s);
    forall n | n in net' ensures NodeOk(h, known, net'[n]) {
      assert n != s.node ==> NodeOk(h, known, net[n]);
    }
  }

  lemma DeliverKeepsSafe(h: Hashes, known: set<Content>, net: Net, s: Step, p: string)
    requires h.TellsCopies(known) && LogsOk(h, net) && MeshOk(h, known, net) && Clean(net, s) && s.Deliver?
    requires PathOk(h, net, p) && AllSafe(h, net[s.node], p) && !IsCopyName(p)
    ensures AllSafe(h, Receive(h, net[s.node], s.op), p)
  {
    var n, op := s.node, s.op;
    Deliverable(h, known, net, s);
    if op.Id() !in net[n].applied {
      if !Affects(op, p) {
        SafeElsewhere(h, known, net[n], op, p);
      } else {
        LoggedIsHeld(h, net, n, op);
        HeldIsEmitted(net, p, n);
        AddsIsEmitted(net, op, p);
        assert RowOk(h, net[n], p);
        ReceiveKeepsSafe(h, known, net[n], op, p, EmittedAt(net, p));
      }
    }
  }

  /** A local op is alone at the tip of the paths it affects, and is their row. */
  lemma EmissionIsSafe(h: Hashes, st: StoreState, st': StoreState, e: Op, p: string, x: VersionVector)
    requires RowOk(h, st, p) && EmitsAt(h, st, st', e, p, x)
    ensures AllSafe(h, st', p)
  {
    var s, v := OpsAt(st.oplog, p), View(e, p);
    EmittedMeans(h, st, st', e, p, x);
    ViewIsPlain(h, e, p);
    forall o | o in s ensures Less(o.vv, v.vv) {
      EmittedDominates(h, st, st', e, p, x, o);
    }
    forall o | o in Tip(s + {v}) && o.hash.Some? ensures Safe(h, st'.files, o) {
      DominatingIsSafe(h, s, v, st'.files, o);
    }
  }

  lemma EmissionElsewhere(h: Hashes, st: StoreState, st': StoreState, e: Op, p: string)
    requires AllProper(h, st.oplog) && AllSafe(h, st, p) && !Affects(e, p) && st'.oplog == st.oplog + [e]
    requires Load(st'.files, p) == Load(st.files, p) && CopiesKept(st.files, st'.files)
    ensures AllSafe(h, st', p)
  {
    OpsAtAppend(st.oplog, e, p);
    HeldAtPath(h, st.oplog, p);
    SafeFrame(h, st.files, st'.files, OpsAt(st.oplog, p), OpsAt(st'.oplog, p), p);
  }

  lemma ChangeIsSafe(h: Hashes, st: StoreState, s: Step)
    requires (s.LocalWrite? || s.LocalDelete?) && RowOk(h, st, s.path) && !IsNoOp(h, Load(st.files, s.path), ChangeOf(h, s))
    ensures AllSafe(h, AppendLocal(h, st, ChangeOf(h, s)).0, s.path)
  {
    var c := ChangeOf(h, s);
    ChangeEmits(h, st, s);
    EmissionIsSafe(h, st, AppendLocal(h, st, c).0, LocalOp(h, st, c), s.path, map[]);
  }

  lemma ChangeElsewhere(h: Hashes, st: StoreState, c: LocalChange, p: string)
    requires c.WellFormed() && c.kind != Rename && !IsNoOp(h, Load(st.files, c.path), c) && !IsCopyName(c.path) && p != c.path
    requires AllProper(h, st.oplog) && AllSafe(h, st, p)
    ensures AllSafe(h, AppendLocal(h, st, c).0, p)
  {
    AppendEffect(h, st, c);
    EmissionElsewhere(h, st, AppendLocal(h, st, c).0, LocalOp(h, st, c), p);
  }

  lemma ChangeKeepsSafe(h: Hashes, st: StoreState, s: Step, p: string)
    requires (s.LocalWrite? || s.LocalDelete?) && !IsCopyName(s.path) && AllProper(h, st.oplog) && RowOk(h, st, p) && AllSafe(h, st, p)
    ensures AllSafe(h, AppendLocal(h, st, ChangeOf(h, s)).0, p)
  {
    var c := ChangeOf(h, s);
    if !IsNoOp(h, Load(st.files, c.path), c) {
      if p == c.path {
        ChangeIsSafe(h, st, s);
      } else {
        ChangeElsewhere(h, st, c, p);
      }
    }
  }

  lemma MoveIsSafe(h: Hashes, st: StoreState, source: string, target: string, p: string)
    requires IsMove(st, source, target) && LineagesAgree(st, source, target) && (p == source || p == target)
    requires Proper(h, RenameOp(h, st, source, target)) && RowOk(h, st, p)
    ensures AllSafe(h, AppendLocalRename(h, st, source, target).0, p)
  {
    RenameEmitsAt(h, st, source, target, p);
    EmissionIsSafe(h, st, AppendLocalRename(h, st, source, target).0, RenameOp(h, st, source, target), p,
                   VvAt(st.files, if p == source then target else source));
  }

  lemma MoveElsewhere(h: Hashes, st: StoreState, source: string, target: string, p: string)
    requires IsMove(st, source, target) && !IsCopyName(source) && !IsCopyName(target) && p != source && p != target
    requires AllProper(h, st.oplog) && AllSafe(h, st, p)
    ensures AllSafe(h, AppendLocalRename(h, st, source, target).0, p)
  {
    RenameEffect(h, st, source, target);
    EmissionElsewhere(h, st, AppendLocalRename(h, st, source, target).0, RenameOp(h, st, source, target), p);
  }

  lemma MoveKeepsSafe(h: Hashes, st: StoreState, source: string, target: string, p: string)
    requires IsMove(st, source, target) && LineagesAgree(st, source, target) && !IsCopyName(source) && !IsCopyName(target)
    requires AllProper(h, st.oplog) && RowOk(h, st, source) && RowOk(h, st, p) && AllSafe(h, st, p)
    ensures AllSafe(h, AppendLocalRename(h, st, source, target).0, p)
  {
    if p == source || p == target {
      StepOpIsProper(h, st, LocalRename(st.node, source, target));
      MoveIsSafe(h, st, source, target, p);
    } else {
      MoveElsewhere(h, st, source, target, p);
    }
  }

  lemma CleanKeepsSafe(h: Hashes, known: set<Content>, net: Net, s: Step, p: string)
    requires h.TellsCopies(known) && NetOk(h, net) && MeshOk(h, known, net) && Clean(net, s)
    requires MeshSafe(h, net, p) && !IsCopyName(p)
    ensures MeshSafe(h, Next(h, net, s), p)
  {
    ActKeepsSafe(h, known, net, s, p);
    var net' := Next(h, net, s);
    forall n | n in net' ensures AllSafe(h, net'[n], p) {
      assert n != s.node ==> AllSafe(h, net[n], p);
    }
  }

  lemma ActKeepsSafe(h: Hashes, known: set<Content>, net: Net, s: Step, p: string)
    requires h.TellsCopies(known) && NetOk(h, net) && MeshOk(h, known, net) && Clean(net, s)
    requires MeshSafe(h, net, p) && !IsCopyName(p)
    ensures AllSafe(h, Act(h, net[s.node], s), p)
  {
    var st := net[s.node];
    assert LogOk(h, net, s.node) && PathOk(h, net, p) && AllSafe(h, st, p) && RowOk(h, st, p);
    match s {
      case Deliver(_, _) => DeliverKeepsSafe(h, known, net, s, p);
      case LocalRename(_, source, target) =>
        if IsMove(st, source, target) {
          assert PathOk(h, net, source) && RowOk(h, st, source);
          MoveKeepsSafe(h, st, source, target, p);
        }
      case _ => ChangeKeepsSafe(h, st, s, p);
    }
  }

  lemma {:induction false} CleanRunKeeps(h: Hashes, known: set<Content>, net: Net, run: seq<Step>, p: string)
    requires h.TellsCopies(known) && NetOk(h, net) && MeshOk(h, known, net) && MeshSafe(h, net, p)
    requires CleanRun(h, net, run) && !IsCopyName(p) && forall i :: 0 <= i < |run| ==> WritesKnown(known, run[i])
    ensures ValidRun(h, net, run)
    ensures MeshOk(h, known, After(h, net, run)) && MeshSafe(h, After(h, net, run), p)
    decreases |run|
  {
    if run != [] {
      CleanIsEnabled(h, known, net, run[0]);
      StepKeepsNet(h, net, run[0]);
      CleanKeepsMesh(h, known, net, run[0]);
      CleanKeepsSafe(h, known, net, run[0], p);
      CleanRunKeeps(h, known, Next(h, net, run[0]), run[1..], p);
    }
  }

  lemma StartIsSafe(h: Hashes, known: set<Content>, nodes: set<NodeId>, p: string)
    ensures MeshOk(h, known, Start(nodes)) && MeshSafe(h, Start(nodes), p)
  {
    var net := Start(nodes);
    forall n | n in net ensures NodeOk(h, known, net[n]) && AllSafe(h, net[n], p) {
      assert OpsAt(net[n].oplog, p) == {};
    }
  }

  /** Op `o` is the path's row, or its content with the same durable metadata stands at its copy path. */
  ghost predicate Preserved(h: Hashes, files: map<string, Version>, o: Op)
    requires o.hash.Some?
  {
    || (o.path in files && KeyOf(h, files[o.path]) == OpKey(h, o))
    || (var cp := CopyPath(h, o.path, OpVersion(o));
        cp in files && !files[cp].tombstone && files[cp].hash == o.hash && SameDurable(files[cp].meta, o.meta))
  }

  lemma SafeIsPreserved(h: Hashes, known: set<Content>, files: map<string, Version>, o: Op)
    requires o.hash.Some? && Known(known, OpVersion(o)) && CopiesOk(h, known, files) && h.TellsDurables(known) && Safe(h, files, o)
    ensures Preserved(h, files, o)
  {
    var cp := CopyPath(h, o.path, OpVersion(o));
    if cp in files && Carries(h, files[cp], o.hash.value, h.NamingHash(o.meta)) {
      assert Known(known, files[cp]);
      assert files[cp].Carried().meta == files[cp].meta && OpVersion(o).Carried().meta == o.meta;
    }
  }

  /** What a path sees of a known op is known. */
  lemma HeldIsKnown(h: Hashes, known: set<Content>, oplog: seq<Op>, p: string, v: Op)
    requires AllProper(h, oplog) && OpsKnown(known, oplog) && v in OpsAt(oplog, p)
    ensures Known(known, OpVersion(v))
  {
    var o :| o in oplog && Affects(o, p) && View(o, p) == v;
    assert Known(known, OpVersion(o)) && Proper(h, o);
  }

  /**
   No silent loss, for every clean run from fresh stores with any delivery
   order and any repetition, and any hash functions that tell apart what was
   written in it: resolution is never refused, and at every replica each
   received content-bearing op, write or rename, that no other received op
   dominates is the row of its path, or stands with its content and durable
   metadata at its derived copy path.
   */
  lemma NoSilentLoss(h: Hashes, nodes: set<NodeId>, run: seq<Step>, n: NodeId, p: string, o: Op)
    requires h.TellsCopies(Written(run)) && h.TellsDurables(Written(run))
    requires CleanRun(h, Start(nodes), run) && n in nodes && !IsCopyName(p)
    requires var net := After(h, Start(nodes), run);
             n in net && o in Tip(OpsAt(net[n].oplog, p)) && o.hash.Some?
    ensures ValidRun(h, Start(nodes), run)
    ensures Preserved(h, After(h, Start(nodes), run)[n].files, o)
  {
    var known := Written(run);
    forall i | 0 <= i < |run| ensures WritesKnown(known, run[i]) {
      assert run[i] in run;
    }
    StartOk(h, nodes);
    StartIsSafe(h, known, nodes, p);
    CleanRunKeeps(h, known, Start(nodes), run, p);
    RunKeepsNet(h, Start(nodes), run);
    var net := After(h, Start(nodes), run);
    assert AllSafe(h, net[n], p) && NodeOk(h, known, net[n]) && LogOk(h, net, n);
    HeldIsKnown(h, known, net[n].oplog, p, o);
    SafeIsPreserved(h, known, net[n].files, o);
  }
}

/**
 What the vector of a rename claims (src/oplog.rs, append_local_rename). It
 joins the lineages of two paths, so it may cover versions of one path that only
 the other path's history accounts for.
 */
module RenameLineage {
  import opened VersionVectors
  import opened CopyNames
  import opened Versions
  import opened Decisions
  import opened StoreModel
  import opened StoreLaws
  import opened StoreEffects
  import opened OpSets
  import Model = ReplicaModel

  /** Whatever `claim` covers was seen, unless it counts node `n` further than `n` itself had. */
  ghost predicate ClaimsOnlySeen(claim: VersionVector, seen: VersionVector, n: NodeId) {
    forall r: VersionVector :: Leq(r, claim) && Get(r, n) <= Get(seen, n) ==> Leq(r, seen)
  }

  lemma NoForeignNoClaim(s: VersionVector, t: VersionVector, n: NodeId, r: VersionVector)
    requires NothingForeign(s, t, n) && Leq(r, Increment(Join(s, t), n)) && Get(r, n) <= Get(t, n)
    ensures Leq(r, t)
  {
    var claim := Increment(Join(s, t), n);
    forall m | m in r ensures r[m] <= Get(t, m) {
      LeqAt(r, claim, m);
      if m != n {
        assert Get(claim, m) == Get(Join(s, t), m);
      }
    }
  }

  lemma ClaimExactly(s: VersionVector, t: VersionVector, n: NodeId)
    ensures ClaimsOnlySeen(Increment(Join(s, t), n), t, n) <==> NothingForeign(s, t, n)
  {
    var claim := Increment(Join(s, t), n);
    if NothingForeign(s, t, n) {
      forall r: VersionVector | Leq(r, claim) && Get(r, n) <= Get(t, n) ensures Leq(r, t) {
        NoForeignNoClaim(s, t, n, r);
      }
    } else {
      var m :| m in s && m != n && s[m] > Get(t, m);
      var r: VersionVector := map[m := s[m]];
      assert Get(claim, m) == Get(Join(s, t), m);
      assert Leq(r, claim) && r[m] > Get(t, m);
    }
  }

  lemma JoinNothing(s: VersionVector)
    ensures Join(s, map[]) == s && Join(map[], s) == s
  {
    JoinAbsorbs(map[], s);
  }

  lemma RenameVector(h: Hashes, st: StoreState, source: string, target: string)
    requires AppendLocalRename(h, st, source, target).1.Appended?
    ensures source in st.files
    ensures AppendLocalRename(h, st, source, target).1.op.vv ==
            Increment(Join(st.files[source].vv, VvAt(st.files, target)), st.node)
  {
    JoinNothing(st.files[source].vv);
  }

  /** A write or delete claims only what its node had seen at the path. */
  lemma ChangeClaimsOnlySeen(h: Hashes, st: StoreState, c: LocalChange)
    requires AppendLocal(h, st, c).1.Appended?
    ensures ClaimsOnlySeen(AppendLocal(h, st, c).1.op.vv, VvAt(st.files, c.path), st.node)
  {
    JoinNothing(VvAt(st.files, c.path));
    ClaimExactly(map[], VvAt(st.files, c.path), st.node);
  }

  /**
   A rename does so at its target exactly when the source counts no other node
   beyond the target, and at its source exactly when it is the other way round.
   */
  lemma RenameClaimsExactly(h: Hashes, st: StoreState, source: string, target: string)
    requires AppendLocalRename(h, st, source, target).1.Appended?
    ensures source in st.files
    ensures var v, s, t := AppendLocalRename(h, st, source, target).1.op.vv, st.files[source].vv, VvAt(st.files, target);
            && (ClaimsOnlySeen(v, t, st.node) <==> NothingForeign(s, t, st.node))
            && (ClaimsOnlySeen(v, s, st.node) <==> NothingForeign(t, s, st.node))
  {
    RenameVector(h, st, source, target);
    var s, t := st.files[source].vv, VvAt(st.files, target);
    ClaimExactly(s, t, st.node);
    ClaimExactly(t, s, st.node);
    JoinSemilattice(s, t, t);
  }

  // ------------------------------------------------------- what receivers make of it

  /** A version at the target that the renamer, node `n`, had not seen. */
  predicate Unseen(r: VersionVector, seen: VersionVector, n: NodeId) {
    !Leq(r, seen) && Get(r, n) <= Get(seen, n)
  }

  /** Every receiver that holds an unseen version at the path treats the op as a conflict. */
  ghost predicate UnseenConflict(vv: VersionVector, seen: VersionVector, n: NodeId) {
    forall r: Version {:trigger Decide(Some(r), vv)} :: Unseen(r.vv, seen, n) ==> Decide(Some(r), vv) == Decision.Concurrent
  }

  lemma UnseenIsNewer(r: Version, vv: VersionVector, seen: VersionVector, n: NodeId)
    requires Get(vv, n) > Get(seen, n) && Unseen(r.vv, seen, n)
    ensures Decide(Some(r), vv) == Decision.Concurrent <==> !Leq(r.vv, vv)
    ensures Decide(Some(r), vv) == Apply <==> Leq(r.vv, vv)
  {
    DecideMeaning(Some(r), vv);
    if Leq(vv, r.vv) {
      LeqAt(vv, r.vv, n);
    }
  }

  lemma ConflictsExactly(vv: VersionVector, seen: VersionVector, n: NodeId)
    requires Get(vv, n) > Get(seen, n)
    ensures UnseenConflict(vv, seen, n) <==> ClaimsOnlySeen(vv, seen, n)
  {
    if ClaimsOnlySeen(vv, seen, n) {
      forall r: Version | Unseen(r.vv, seen, n) ensures Decide(Some(r), vv) == Decision.Concurrent {
        UnseenIsNewer(r, vv, seen, n);
      }
    } else {
      var v: VersionVector :| Leq(v, vv) && Get(v, n) <= Get(seen, n) && !Leq(v, seen);
      var r := Version(false, Some(1), None, 0, 0, v, None);
      UnseenIsNewer(r, vv, seen, n);
    }
  }

  /**
   A renamed file never silently replaces a version of the target that the
   renamer had not seen, if and only if the source counts no other node beyond
   the target at the time of the rename.
   */
  lemma RenameConflictsExactly(h: Hashes, st: StoreState, source: string, target: string)
    requires AppendLocalRename(h, st, source, target).1.Appended?
    ensures source in st.files
    ensures UnseenConflict(AppendLocalRename(h, st, source, target).1.op.vv, VvAt(st.files, target), st.node) <==>
            NothingForeign(st.files[source].vv, VvAt(st.files, target), st.node)
  {
    RenameClaimsExactly(h, st, source, target);
    RenameVector(h, st, source, target);
    var s, t := st.files[source].vv, VvAt(st.files, target);
    ConflictsExactly(Increment(Join(s, t), st.node), t, st.node);
  }

  /** A write or delete never does. */
  lemma ChangeConflicts(h: Hashes, st: StoreState, c: LocalChange)
    requires AppendLocal(h, st, c).1.Appended?
    ensures UnseenConflict(AppendLocal(h, st, c).1.op.vv, VvAt(st.files, c.path), st.node)
  {
    ChangeClaimsOnlySeen(h, st, c);
    ConflictsExactly(AppendLocal(h, st, c).1.op.vv, VvAt(st.files, c.path), st.node);
  }

  // --------------------------------------------------------------- the step of a run

  function Put(path: string, hash: Hash): LocalChange {
    LocalChange(path, Write, 0, 0, Some(hash), None)
  }

  function Live(hash: Hash, vv: VersionVector, uuid: Option<Uuid>): Version {
    Version(false, Some(hash), None, 0, 0, vv, uuid)
  }

  lemma FirstWrite(h: Hashes, st: StoreState, path: string, hash: Hash) returns (after: StoreState, o: Op)
    requires path !in st.files
    ensures AppendLocal(h, st, Put(path, hash)) == (after, Appended(o))
    ensures o.kind == Write && o.path == path && o.pathOld == None && o.hash == Some(hash) && o.meta == None && o.mode == 0 && o.size == 0
    ensures o.Id() == (st.node, LatestSeq(st.oplog, st.node) + 1) && o.vv == map[st.node := 1]
    ensures after == st.(oplog := st.oplog + [o], files := st.files[path := Live(hash, map[st.node := 1], o.uuid)])
  {
    FreshId(st.oplog, st.node);
    o := LocalOp(h, st, Put(path, hash));
    after := AppendLocal(h, st, Put(path, hash)).0;
  }

  lemma Moves(h: Hashes, st: StoreState, source: string, target: string) returns (after: StoreState, o: Op)
    requires source in st.files && !st.files[source].tombstone && source != target && target !in st.files
    ensures AppendLocalRename(h, st, source, target) == (after, Appended(o))
    ensures o.kind == Rename && o.path == target && o.pathOld == Some(source) && o.vv == Increment(st.files[source].vv, st.node)
    ensures o.hash == st.files[source].hash && o.meta == st.files[source].meta && o.mode == st.files[source].mode && o.size == st.files[source].size
    ensures o.Id() == (st.node, LatestSeq(st.oplog, st.node) + 1)
    ensures after.oplog == st.oplog + [o] && after.applied == st.applied
    ensures after.files == st.files[source := SourceTombstone(o.vv, o.uuid)][target := Version(false, o.hash, o.meta, o.mode, o.size, o.vv, o.uuid)]
  {
    FreshId(st.oplog, st.node);
    o := RenameOp(h, st, source, target);
    after := AppendLocalRename(h, st, source, target).0;
  }

  /** A write of a path nobody has here yet. */
  lemma Arrives(h: Hashes, st: StoreState, op: Op) returns (after: StoreState)
    requires op.Id() !in st.applied && op.kind == Write && op.path !in st.files && !Logged(st.oplog, op.Id())
    ensures after == Model.Receive(h, st, op)
    ensures after.files == st.files[op.path := Version(false, op.hash, op.meta, op.mode, op.size, op.vv, op.uuid)]
    ensures after.oplog == st.oplog + [op] && after.applied == st.applied + {op.Id()} && after.node == st.node
  {
    after := Model.Receive(h, st, op);
    JoinNothing(op.vv);
  }

  /** A write below what is here is recorded and no more. */
  lemma ArrivesLate(h: Hashes, st: StoreState, op: Op) returns (after: StoreState)
    requires op.Id() !in st.applied && op.kind == Write && op.path in st.files && Leq(op.vv, st.files[op.path].vv)
    ensures after == Model.Receive(h, st, op)
    ensures after.files == st.files && op.Id() in after.applied
  {
    after := Model.Receive(h, st, op);
    DecideMeaning(Load(st.files, op.path), op.vv);
  }

  /** A rename whose source is older here: the source is cleared, the target taken exactly when it is older too. */
  lemma RenameArrives(h: Hashes, st: StoreState, op: Op, q: string) returns (after: StoreState)
    requires op.Id() !in st.applied && op.kind == Rename && op.pathOld == Some(q) && q != op.path && !Logged(st.oplog, op.Id())
    requires q in st.files && Less(st.files[q].vv, op.vv) && op.path in st.files && (Less(st.files[op.path].vv, op.vv) || st.files[op.path].vv == op.vv)
    ensures after == Model.Receive(h, st, op)
    ensures var takes := st.files[op.path].vv != op.vv;
            var mid := if takes then st.files[op.path := Version(false, op.hash, op.meta, op.mode, op.size, op.vv, op.uuid)] else st.files;
            after.files == mid[q := SourceTombstone(op.vv, op.uuid)]
    ensures after.oplog == st.oplog + [op] && after.applied == st.applied + {op.Id()} && after.node == st.node
  {
    after := Model.Receive(h, st, op);
    DecideMeaning(Load(st.files, op.path), op.vv);
    if st.files[op.path].vv != op.vv {
      JoinLifts(st.files, op.path, op.vv);
    }
    var mid := ApplyAtPath(st.files, op, Decide(Load(st.files, op.path), op.vv)).0;
    assert Load(mid, q) == Load(st.files, q);
    DecideMeaning(Load(mid, q), op.vv);
    JoinLifts(mid, q, op.vv);
    DecideMeaning(Load(ApplyAtSource(mid, op), q), op.vv);
  }

  // --------------------------------------------------------------------- two runs

  /** No row holds this content. */
  ghost predicate Gone(files: map<string, Version>, hash: Hash) {
    forall p :: p in files ==> files[p].hash != Some(hash)
  }

  /** Node 1 writes `a`, then `b`. */
  lemma WritesBoth(h: Hashes, a: string, b: string, x: Hash, y: Hash) returns (s1: StoreState, o1: Op, s3: StoreState, o2: Op)
    requires a != b
    ensures AppendLocal(h, Init(1), Put(a, x)) == (s1, Appended(o1)) && AppendLocal(h, s1, Put(b, y)) == (s3, Appended(o2))
    ensures s3.files == map[a := Live(x, map[1 := 1], o1.uuid), b := Live(y, map[1 := 1], o2.uuid)] && s3.applied == {} && s3.oplog == [o1, o2]
    ensures IsPut(o1, a, x) && IsPut(o2, b, y) && o1.Id() == (1, 1) && o2.Id() == (1, 2)
  {
    s1, o1 := FirstWrite(h, Init(1), a, x);
    SecondNumber(o1);
    s3, o2 := FirstWrite(h, s1, b, y);
  }

  /** A node that holds nothing receives a write and moves it. */
  lemma MovesOn(h: Hashes, n: NodeId, o: Op, a: string, b: string, x: Hash) returns (s2: StoreState, s4: StoreState, r: Op)
    requires a != b && IsPut(o, a, x)
    ensures Model.Receive(h, Init(n), o) == s2 && b !in s2.files && AppendLocalRename(h, s2, a, b) == (s4, Appended(r))
    ensures s4.files == map[a := SourceTombstone(r.vv, r.uuid), b := Live(x, r.vv, r.uuid)] && s4.applied == {o.Id()}
    ensures IsMoveOf(r, a, b, x) && r.origin == n && r.vv == Increment(map[o.origin := 1], n)
  {
    s2 := Arrives(h, Init(n), o);
    s4, r := Moves(h, s2, a, b);
  }

  /**
   A write lost: node 1 writes `b` while node 2, which has not seen that, renames
   node 1's `a` to `b`. Each then receives the other's op. No row of either node
   holds the content of that write, and no copy was made.
   */
  lemma RenameLosesWrite(h: Hashes, a: string, b: string, x: Hash, y: Hash)
    returns (s1: StoreState, o1: Op, s2: StoreState, s3: StoreState, o2: Op, s4: StoreState, r: Op, end1: StoreState, end2: StoreState)
    requires a != b && x != y
    ensures AppendLocal(h, Init(1), Put(a, x)) == (s1, Appended(o1)) && Model.Receive(h, Init(2), o1) == s2
    ensures AppendLocal(h, s1, Put(b, y)) == (s3, Appended(o2)) && b !in s2.files
    ensures AppendLocalRename(h, s2, a, b) == (s4, Appended(r))
    ensures Model.Receive(h, s3, r) == end1 && Model.Receive(h, s4, o2) == end2
    ensures Gone(end1.files, y) && Gone(end2.files, y)
  {
    s1, o1, s3, o2 := WritesBoth(h, a, b, x, y);
    s2, s4, r := MovesOn(h, 2, o1, a, b, x);
    end1 := Overwritten(h, s3, o1, o2, r, a, b, x, y);
    end2 := ComesTooLate(h, s4, o2, r, a, b, x, y);
  }

  lemma Overwritten(h: Hashes, s3: StoreState, o1: Op, o2: Op, r: Op, a: string, b: string, x: Hash, y: Hash) returns (end: StoreState)
    requires a != b && x != y && IsMoveOf(r, a, b, x) && r.origin == 2 && r.vv == Increment(map[1 := 1], 2)
    requires s3.files == map[a := Live(x, map[1 := 1], o1.uuid), b := Live(y, map[1 := 1], o2.uuid)]
    requires s3.applied == {} && s3.oplog == [o1, o2] && o1.origin == o2.origin == 1
    ensures Model.Receive(h, s3, r) == end && Gone(end.files, y)
  {
    Lineage(1, 2);
    NotYetLogged(s3.oplog, r);
    end := RenameArrives(h, s3, r, a);
  }

  lemma ComesTooLate(h: Hashes, s4: StoreState, o2: Op, r: Op, a: string, b: string, x: Hash, y: Hash) returns (end: StoreState)
    requires a != b && x != y && IsPut(o2, b, y) && o2.Id() == (1, 2) && s4.applied == {(1, 1)} && r.vv == Increment(map[1 := 1], 2)
    requires s4.files == map[a := SourceTombstone(r.vv, r.uuid), b := Live(x, r.vv, r.uuid)]
    ensures Model.Receive(h, s4, o2) == end && Gone(end.files, y)
  {
    Lineage(1, 2);
    end := ArrivesLate(h, s4, o2);
  }

  /** A first write of `hash` at `path`. */
  predicate IsPut(o: Op, path: string, hash: Hash) {
    && o.kind == Write && o.path == path && o.pathOld == None && o.hash == Some(hash) && o.meta == None && o.mode == 0 && o.size == 0
    && o.vv == map[o.origin := 1]
  }

  /** A move of a file that holds `hash`. */
  predicate IsMoveOf(r: Op, source: string, target: string, hash: Hash) {
    && r.kind == Rename && r.path == target && r.pathOld == Some(source) && r.hash == Some(hash) && r.meta == None && r.mode == 0 && r.size == 0
  }

  lemma Lineage(m: NodeId, n: NodeId)
    requires m != n
    ensures Increment(map[m := 1], n) == map[m := 1, n := 1]
    ensures Less(map[m := 1], map[m := 1, n := 1]) && Less(map[n := 1], map[m := 1, n := 1])
  {
    var v: VersionVector := map[m := 1, n := 1];
    assert n in v && n !in map[m := 1] && m in v && m !in map[n := 1];
  }

  lemma SecondNumber(o: Op)
    requires o.seqno == 1
    ensures LatestSeq([o], o.origin) == 1
  {
    assert [o][..0] == [];
    assert LatestSeq([], o.origin) == 0;
  }

  lemma NotYetLogged(oplog: seq<Op>, op: Op)
    requires forall o :: o in oplog ==> o.origin != op.origin || o.seqno != op.seqno
    ensures !Logged(oplog, op.Id())
  {
  }

  /** Anti-entropy leaves both rows at `p` as they are. */
  ghost predicate Stuck(a: StoreState, b: StoreState, p: string) {
    && p in a.files && p in b.files && a.files[p].hash != b.files[p].hash
    && ReconcileUpsert(a, p, b.files[p]) == (a, Ignore) && ReconcileUpsert(b, p, a.files[p]) == (b, Ignore)
  }

  lemma EqualVectorsStick(a: StoreState, b: StoreState, p: string)
    requires p in a.files && p in b.files && a.files[p].vv == b.files[p].vv && a.files[p].hash != b.files[p].hash
    ensures Stuck(a, b, p)
  {
    DecideMeaning(Some(a.files[p]), b.files[p].vv);
    DecideMeaning(Some(b.files[p]), a.files[p].vv);
  }

  /** A node that wrote `mine` receives `theirs`. */
  lemma HoldsTwo(h: Hashes, st: StoreState, mine: string, theirs: string, o: Op, got: Op, x: Hash, y: Hash) returns (t: StoreState)
    requires mine != theirs && o.origin == st.node != got.origin && IsPut(got, theirs, y)
    requires st.files == map[mine := Live(x, map[st.node := 1], o.uuid)] && st.oplog == [o] && st.applied == {}
    ensures Model.Receive(h, st, got) == t && t.node == st.node && t.oplog == [o, got] && t.applied == {got.Id()}
    ensures t.files == map[mine := Live(x, map[st.node := 1], o.uuid), theirs := Live(y, map[got.origin := 1], got.uuid)]
  {
    NotYetLogged(st.oplog, got);
    t := Arrives(h, st, got);
  }

  /** And moves it to `p`. */
  lemma TakesOver(h: Hashes, t: StoreState, mine: string, theirs: string, p: string, o: Op, got: Op, x: Hash, y: Hash)
    returns (u: StoreState, r: Op)
    requires mine != theirs && mine != p && theirs != p && o.origin == t.node != got.origin && o.seqno == 1 && t.oplog == [o, got]
    requires t.files == map[mine := Live(x, map[t.node := 1], o.uuid), theirs := Live(y, map[got.origin := 1], got.uuid)]
    ensures AppendLocalRename(h, t, theirs, p) == (u, Appended(r)) && u.oplog == [o, got, r] && u.applied == t.applied && u.node == t.node
    ensures u.files == map[mine := Live(x, map[t.node := 1], o.uuid), theirs := SourceTombstone(r.vv, r.uuid), p := Live(y, r.vv, r.uuid)]
    ensures IsMoveOf(r, theirs, p, y) && r.Id() == (t.node, 2) && r.vv == map[got.origin := 1, t.node := 1]
  {
    OwnNumber(o, got);
    Lineage(got.origin, t.node);
    u, r := Moves(h, t, theirs, p);
  }

  /** The other node's rename arrives: its vector is that of the row at `p`, so only its source goes. */
  lemma PassesBy(h: Hashes, u: StoreState, mine: string, theirs: string, p: string, o: Op, got: Op, r: Op, other: Op, x: Hash, y: Hash)
    returns (end: StoreState)
    requires mine != theirs && mine != p && theirs != p && o.origin == u.node == r.origin && got.origin == other.origin != u.node && x != y
    requires u.files == map[mine := Live(x, map[u.node := 1], o.uuid), theirs := SourceTombstone(r.vv, r.uuid), p := Live(y, r.vv, r.uuid)]
    requires u.oplog == [o, got, r] && u.applied == {got.Id()} && got.seqno == 1 && other.seqno == 2
    requires IsMoveOf(other, mine, p, x) && other.vv == r.vv == map[got.origin := 1, u.node := 1]
    ensures Model.Receive(h, u, other) == end && end.oplog == [o, got, r, other]
    ensures p in end.files && end.files[p] == Live(y, r.vv, r.uuid) && Gone(end.files, x)
  {
    Lineage(got.origin, u.node);
    NotYetLogged(u.oplog, other);
    end := RenameArrives(h, u, other, mine);
    Cleared(u.files, end.files, mine, theirs, p, other, x);
  }

  lemma Cleared(before: map<string, Version>, after: map<string, Version>, mine: string, theirs: string, p: string, other: Op, x: Hash)
    requires before.Keys == {mine, theirs, p} && after == before[mine := SourceTombstone(other.vv, other.uuid)]
    requires before[theirs].hash == None && before[p].hash != Some(x)
    ensures Gone(after, x)
  {
  }

  lemma SameLineage(m: NodeId, n: NodeId)
    ensures var v: VersionVector := map[m := 1, n := 1]; v == map[n := 1, m := 1]
  {
  }

  /**
   Replicas apart until someone writes again: nodes 2 and 3 hold each other's file, and each
   renames the other's to `p`. The two renames carry one vector, so each is
   ignored where the other happened. Both nodes have recorded the same ops, `p`
   differs, neither delivery nor anti-entropy will change that, and each node has
   lost the content the other one kept.
   */
  lemma RenamesDiverge(h: Hashes, b: string, c: string, p: string, x: Hash, y: Hash)
    returns (s2: StoreState, o2: Op, s3: StoreState, o3: Op, t2: StoreState, t3: StoreState,
             u2: StoreState, r2: Op, u3: StoreState, r3: Op, end2: StoreState, end3: StoreState)
    requires b != c && b != p && c != p && x != y
    ensures AppendLocal(h, Init(2), Put(b, x)) == (s2, Appended(o2)) && AppendLocal(h, Init(3), Put(c, y)) == (s3, Appended(o3))
    ensures Model.Receive(h, s2, o3) == t2 && Model.Receive(h, s3, o2) == t3
    ensures AppendLocalRename(h, t2, c, p) == (u2, Appended(r2)) && AppendLocalRename(h, t3, b, p) == (u3, Appended(r3))
    ensures Model.Receive(h, u2, r3) == end2 && Model.Receive(h, u3, r2) == end3
    ensures r2.vv == r3.vv && Stuck(end2, end3, p) && Gone(end2.files, x) && Gone(end3.files, y)
    ensures end2.oplog == [o2, o3, r2, r3] && end3.oplog == [o3, o2, r3, r2]
  {
    s2, o2 := FirstWrite(h, Init(2), b, x);
    s3, o3 := FirstWrite(h, Init(3), c, y);
    t2 := HoldsTwo(h, s2, b, c, o2, o3, x, y);
    t3 := HoldsTwo(h, s3, c, b, o3, o2, y, x);
    u2, r2 := TakesOver(h, t2, b, c, p, o2, o3, x, y);
    u3, r3 := TakesOver(h, t3, c, b, p, o3, o2, y, x);
    SameLineage(2, 3);
    end2 := PassesBy(h, u2, b, c, p, o2, o3, r2, r3, x, y);
    end3 := PassesBy(h, u3, c, b, p, o3, o2, r3, r2, y, x);
    EqualVectorsStick(end2, end3, p);
  }

  lemma OwnNumber(mine: Op, theirs: Op)
    requires mine.seqno == 1 && theirs.origin != mine.origin
    ensures LatestSeq([mine, theirs], mine.origin) == 1
  {
    assert [mine, theirs][..1] == [mine];
    SecondNumber(mine);
  }
}

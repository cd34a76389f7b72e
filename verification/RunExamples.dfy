/** A run with a real conflict: what the theorems about runs ask for can be met, and what they then give. */
module RunExamples {
  import opened VersionVectors
  import opened CopyNames
  import opened Versions
  import opened Decisions
  import opened StoreModel
  import opened StoreLaws
  import opened OpSets
  import opened Convergence
  import opened NetRuns
  import opened NoLoss
  import opened PlanCoalescing
  import ReplicaModel
  import opened Conflict
  import opened PlanLaws
  import StoreEffects
  import RenameLineage

  /** Node `n` writes content `hash` at path "a". */
  function Writes(n: NodeId, hash: Hash): Step {
    LocalWrite(n, "a", hash, 0, None)
  }

  function Change(h: Hashes, hash: Hash): LocalChange {
    LocalChange("a", Write, 0, h.sizeOf(hash), Some(hash), None)
  }

  /** The op that write emits on a fresh store. */
  function Emits(h: Hashes, n: NodeId, hash: Hash): Op {
    LocalOp(h, Init(n), Change(h, hash))
  }

  function Wrote(h: Hashes, n: NodeId, hash: Hash): StoreState {
    AppendLocal(h, Init(n), Change(h, hash)).0
  }

  lemma WroteIs(h: Hashes, n: NodeId, hash: Hash)
    ensures var st := Wrote(h, n, hash);
            && st.oplog == [Emits(h, n, hash)] && st.applied == {} && st.node == n
            && st == Act(h, Init(n), Writes(n, hash))
  {
    AppendEffect(h, Init(n), Change(h, hash));
  }

  lemma EmitsIs(h: Hashes, n: NodeId, hash: Hash)
    ensures var o := Emits(h, n, hash);
            o.vv == map[n := 1] && o.origin == n && o.path == "a" && o.hash == Some(hash) && o.meta == None && o.kind == Write && o.WellFormed()
  {
  }

  /** Both nodes write the same path, then each receives the other's op. */
  function Crossing(h: Hashes): seq<Step> {
    [Writes(1, 1), Writes(2, 3), Deliver(1, Emits(h, 2, 3)), Deliver(2, Emits(h, 1, 1))]
  }

  function Met(h: Hashes): Net {
    map[1 := ReplicaModel.Receive(h, Wrote(h, 1, 1), Emits(h, 2, 3)), 2 := ReplicaModel.Receive(h, Wrote(h, 2, 3), Emits(h, 1, 1))]
  }

  lemma PlainName()
    ensures !IsCopyName("a")
  {
  }

  lemma RunFour(h: Hashes, net: Net, run: seq<Step>)
    requires |run| == 4
    ensures var n1 := Next(h, net, run[0]);
            var n2 := Next(h, n1, run[1]);
            var n3 := Next(h, n2, run[2]);
            && After(h, net, run) == Next(h, n3, run[3])
            && (CleanRun(h, net, run) <==> Clean(net, run[0]) && Clean(n1, run[1]) && Clean(n2, run[2]) && Clean(n3, run[3]))
  {
    var r1, r2, r3 := run[1..], run[2..], run[3..];
    assert r1[1..] == r2 && r2[1..] == r3 && r3[1..] == [];
    assert r1[0] == run[1] && r2[0] == run[2] && r3[0] == run[3];
    var n1 := Next(h, net, run[0]);
    var n2 := Next(h, n1, run[1]);
    var n3 := Next(h, n2, run[2]);
    assert After(h, n3, r3) == After(h, Next(h, n3, run[3]), []) == Next(h, n3, run[3]);
    assert After(h, n2, r2) == After(h, n3, r3) && After(h, n1, r1) == After(h, n2, r2);
    assert CleanRun(h, n3, r3) <==> Clean(n3, run[3]);
    assert CleanRun(h, n2, r2) <==> Clean(n2, run[2]) && CleanRun(h, n3, r3);
    assert CleanRun(h, n1, r1) <==> Clean(n1, run[1]) && CleanRun(h, n2, r2);
  }

  lemma StepIs(h: Hashes, net: Net, s: Step, st: StoreState)
    requires s.node in net && Act(h, net[s.node], s) == st
    ensures Next(h, net, s) == net[s.node := st]
  {
  }

  lemma Writing(h: Hashes, w1: Step, w2: Step, a: StoreState, b: StoreState)
    requires w1.LocalWrite? && w2.LocalWrite? && w1.node == 1 && w2.node == 2 && !IsCopyName(w1.path) && !IsCopyName(w2.path)
    requires Act(h, Init(1), w1) == a && Act(h, Init(2), w2) == b
    ensures var n1 := Next(h, Start({1, 2}), w1);
            Clean(Start({1, 2}), w1) && Clean(n1, w2) && Next(h, n1, w2) == map[1 := a, 2 := b]
  {
    var n0 := Start({1, 2});
    assert n0 == map[1 := Init(1), 2 := Init(2)];
    StepIs(h, n0, w1, a);
    StepIs(h, n0[1 := a], w2, b);
    assert n0[1 := a][2 := b] == map[1 := a, 2 := b];
  }

  lemma Delivers(h: Hashes, net: Net, n: NodeId, op: Op, st: StoreState)
    requires n in net && op.origin in net && op in net[op.origin].oplog && ReplicaModel.Receive(h, net[n], op) == st
    ensures Clean(net, Deliver(n, op)) && Next(h, net, Deliver(n, op)) == net[n := st]
  {
  }

  lemma BothDelivered(h: Hashes, a: StoreState, b: StoreState, o1: Op, o2: Op)
    requires a.oplog == [o1] && b.oplog == [o2] && a.applied == {} && o1.origin == 1 && o2.origin == 2 && o1.WellFormed() && o2.WellFormed()
    ensures var a', b' := ReplicaModel.Receive(h, a, o2), ReplicaModel.Receive(h, b, o1);
            var n2: Net := map[1 := a, 2 := b];
            var n3: Net := map[1 := a', 2 := b];
            && Clean(n2, Deliver(1, o2)) && Next(h, n2, Deliver(1, o2)) == n3
            && Clean(n3, Deliver(2, o1)) && Next(h, n3, Deliver(2, o1)) == map[1 := a', 2 := b']
  {
    var a', b' := ReplicaModel.Receive(h, a, o2), ReplicaModel.Receive(h, b, o1);
    Holds(h, a, o1, o2);
    Swap(h, a, b, o2, 1, a', b);
    Swap(h, a', b, o1, 2, a', b');
  }

  lemma Swap(h: Hashes, a: StoreState, b: StoreState, op: Op, n: NodeId, a': StoreState, b': StoreState)
    requires (n == 1 && ReplicaModel.Receive(h, a, op) == a' && b' == b) || (n == 2 && ReplicaModel.Receive(h, b, op) == b' && a' == a)
    requires (op.origin == 1 && op in a.oplog) || (op.origin == 2 && op in b.oplog)
    ensures var net: Net := map[1 := a, 2 := b];
            Clean(net, Deliver(n, op)) && Next(h, net, Deliver(n, op)) == map[1 := a', 2 := b']
  {
    var net: Net := map[1 := a, 2 := b];
    Delivers(h, net, n, op, if n == 1 then a' else b');
    assert net[n := if n == 1 then a' else b'] == map[1 := a', 2 := b'];
  }

  /** The run is clean, and ends with both nodes holding both ops. */
  lemma CrossingRuns(h: Hashes)
    ensures CleanRun(h, Start({1, 2}), Crossing(h)) && After(h, Start({1, 2}), Crossing(h)) == Met(h)
  {
    PlainName();
    WroteIs(h, 1, 1);
    WroteIs(h, 2, 3);
    EmitsIs(h, 1, 1);
    EmitsIs(h, 2, 3);
    Writing(h, Writes(1, 1), Writes(2, 3), Wrote(h, 1, 1), Wrote(h, 2, 3));
    BothDelivered(h, Wrote(h, 1, 1), Wrote(h, 2, 3), Emits(h, 1, 1), Emits(h, 2, 3));
    RunFour(h, Start({1, 2}), Crossing(h));
  }

  lemma Holds(h: Hashes, st: StoreState, mine: Op, theirs: Op)
    requires st.oplog == [mine] && st.applied == {} && mine.origin != theirs.origin && theirs.WellFormed()
    ensures ReplicaModel.Receive(h, st, theirs).oplog == [mine, theirs]
  {
    ReceiveLogs(h, st, theirs);
    assert !Logged(st.oplog, theirs.Id());
  }

  lemma HoldsAt(st: StoreState, x: Op, y: Op)
    requires st.oplog == [x, y] && x.path == "a" && y.path == "a" && x.kind == y.kind == Write
    ensures OpsAt(st.oplog, "a") == {x, y}
  {
    assert View(x, "a") == x && View(y, "a") == y;
    OpsAtAppend([], x, "a");
    OpsAtAppend([x], y, "a");
    assert [] + [x] == [x] && [x] + [y] == [x, y];
    assert OpsAt([], "a") == {};
  }

  lemma BothHeld(h: Hashes)
    ensures var o1, o2 := Emits(h, 1, 1), Emits(h, 2, 3);
            OpsAt(Met(h)[1].oplog, "a") == {o1, o2} && OpsAt(Met(h)[2].oplog, "a") == {o1, o2}
  {
    var o1, o2 := Emits(h, 1, 1), Emits(h, 2, 3);
    WroteIs(h, 1, 1);
    WroteIs(h, 2, 3);
    EmitsIs(h, 1, 1);
    EmitsIs(h, 2, 3);
    Holds(h, Wrote(h, 1, 1), o1, o2);
    Holds(h, Wrote(h, 2, 3), o2, o1);
    HoldsAt(Met(h)[1], o1, o2);
    HoldsAt(Met(h)[2], o2, o1);
    assert {o2, o1} == {o1, o2};
  }

  /** Neither op dominates the other. */
  lemma RealConflict(h: Hashes)
    ensures var o1, o2 := Emits(h, 1, 1), Emits(h, 2, 3);
            o1 != o2 && o1 in Tip({o1, o2}) && o2 in Tip({o1, o2})
  {
    EmitsIs(h, 1, 1);
    EmitsIs(h, 2, 3);
    ApartVectors(1, 2);
    CompareMeaning(map[1 := 1], map[2 := 1]);
  }

  /** Two replicas with one op set, two of its ops undominated and different in content, and one row. */
  ghost predicate ConflictSettled(h: Hashes, net: Net, p: string) {
    && net.Keys == {1, 2} && OpsAt(net[1].oplog, p) == OpsAt(net[2].oplog, p) && h.TellsMetas(Metas(OpsAt(net[1].oplog, p)))
    && (exists x, y :: x in Tip(OpsAt(net[1].oplog, p)) && y in Tip(OpsAt(net[1].oplog, p)) && x.hash != y.hash)
    && Load(net[1].files, p) == Load(net[2].files, p)
  }

  lemma SettledWhen(h: Hashes, run: seq<Step>, net: Net, p: string, x: Op, y: Op)
    requires ValidRun(h, Start({1, 2}), run) && After(h, Start({1, 2}), run) == net && !IsCopyName(p) && net.Keys == {1, 2}
    requires OpsAt(net[1].oplog, p) == {x, y} && OpsAt(net[2].oplog, p) == {x, y} && x.meta == y.meta
    requires x in Tip({x, y}) && y in Tip({x, y}) && x.hash != y.hash
    ensures ConflictSettled(h, net, p)
  {
    assert Metas({x, y}) == {x.meta};
    Converges(h, {1, 2}, run, 1, 2, p);
  }

  /**
   A run that meets all that convergence asks for, with two undominated ops of
   different content; both replicas end with one and the same row.
   */
  lemma ConvergenceOfConflict()
    ensures var h := ExampleHashes();
            ValidRun(h, Start({1, 2}), Crossing(h)) && ConflictSettled(h, After(h, Start({1, 2}), Crossing(h)), "a")
  {
    LoserPreserved(1);
    CrossingSettles(ExampleHashes());
  }

  lemma CrossingSettles(h: Hashes)
    requires ValidRun(h, Start({1, 2}), Crossing(h))
    ensures ConflictSettled(h, After(h, Start({1, 2}), Crossing(h)), "a")
  {
    CrossingRuns(h);
    BothHeld(h);
    RealConflict(h);
    EmitsIs(h, 1, 1);
    EmitsIs(h, 2, 3);
    PlainName();
    SettledWhen(h, Crossing(h), Met(h), "a", Emits(h, 1, 1), Emits(h, 2, 3));
  }

  lemma WrittenIs(h: Hashes)
    ensures Written(Crossing(h)) == {Content(1, None), Content(3, None)}
  {
    var run := Crossing(h);
    assert run[0] in run && run[1] in run;
    assert forall s :: s in run ==> s == run[0] || s == run[1] || s == run[2] || s == run[3];
  }

  /** Two contents without metadata and with different digests are told apart. */
  lemma TellsTwo(h: Hashes, a: Content, b: Content)
    requires h.HexDigests() && a.meta == None && b.meta == None && h.DigestOf(a) != h.DigestOf(b)
    ensures h.TellsCopies({a, b}) && h.TellsDurables({a, b})
  {
  }

  lemma ExampleTellsThese()
    ensures ExampleHashes().TellsCopies({Content(1, None), Content(3, None)})
    ensures ExampleHashes().TellsDurables({Content(1, None), Content(3, None)})
  {
    ExampleHex();
    ExampleDigest(Content(1, None));
    ExampleDigest(Content(3, None));
    TellsTwo(ExampleHashes(), Content(1, None), Content(3, None));
  }

  /** Everything no-loss asks for, and what it gives. */
  ghost predicate NothingLost(h: Hashes, run: seq<Step>, n: NodeId, p: string, o: Op) {
    && h.TellsCopies(Written(run)) && h.TellsDurables(Written(run)) && CleanRun(h, Start({1, 2}), run) && ValidRun(h, Start({1, 2}), run)
    && var net := After(h, Start({1, 2}), run);
       n in net && o in Tip(OpsAt(net[n].oplog, p)) && o.hash.Some? && Preserved(h, net[n].files, o)
  }

  lemma LostNothing(h: Hashes, run: seq<Step>, net: Net, n: NodeId, p: string, o: Op)
    requires h.TellsCopies(Written(run)) && h.TellsDurables(Written(run)) && CleanRun(h, Start({1, 2}), run) && !IsCopyName(p)
    requires After(h, Start({1, 2}), run) == net && n in {1, 2} && n in net && o in Tip(OpsAt(net[n].oplog, p)) && o.hash.Some?
    ensures NothingLost(h, run, n, p, o)
  {
    NoSilentLoss(h, {1, 2}, run, n, p, o);
  }

  /** Hash functions that exist, a clean run with two concurrent writes: each is preserved on both nodes. */
  lemma LoserPreserved(n: NodeId)
    requires n == 1 || n == 2
    ensures var h := ExampleHashes();
            NothingLost(h, Crossing(h), n, "a", Emits(h, 1, 1)) && NothingLost(h, Crossing(h), n, "a", Emits(h, 2, 3))
  {
    var h := ExampleHashes();
    CrossingRuns(h);
    BothHeld(h);
    RealConflict(h);
    EmitsIs(h, 1, 1);
    EmitsIs(h, 2, 3);
    WrittenIs(h);
    ExampleTellsThese();
    PlainName();
    LostNothing(h, Crossing(h), Met(h), n, "a", Emits(h, 1, 1));
    LostNothing(h, Crossing(h), Met(h), n, "a", Emits(h, 2, 3));
  }

  // ------------------------------------------------------ a rename in a conflict

  /** Node 1 holds "a" with content 5. */
  function Holding(): StoreState {
    Init(1).(files := map["a" := Version(false, Some(5), None, 7, 9, map[1 := 1], Some(4))])
  }

  /** What the rename to "b" leaves at "b". */
  function Moved(): Version { Version(false, Some(5), None, 7, 9, map[1 := 2], Some(4)) }

  /** What another node wrote at "b" meanwhile. */
  function Arriving(): Version { Version(false, Some(3), None, 0, 2, map[2 := 1], Some(6)) }

  lemma AfterMove(h: Hashes)
    ensures var (after, r) := AppendLocalRename(h, Holding(), "a", "b");
            && r.Appended? && after.oplog == [r.op] && AsCandidate(r.op, "b") == Moved() && Affects(r.op, "b")
            && "b" in after.files && after.files["b"] == Moved() && forall p :: p in after.files ==> |p| <= 1
  {
    assert Increment(map[1 := 1], 1) == map[1 := 2];
  }

  lemma MovedCandidates(h: Hashes)
    ensures Candidates(AppendLocalRename(h, Holding(), "a", "b").0, "b", Arriving()) == [Moved(), Arriving()]
  {
    AfterMove(h);
    var (after, r) := AppendLocalRename(h, Holding(), "a", "b");
    assert [r.op][..0] == [];
    assert History([], "b") == [];
    assert History([r.op], "b") == [Moved()];
    var cs := [Moved()] + [Arriving()];
    JoinAllCovers(cs, Moved());
  }

  lemma FarApart()
    ensures Compare(map[2 := 1], map[1 := 2]) == Ord3.Concurrent
  {
    CompareMeaning(map[2 := 1], map[1 := 2]);
    assert Get(map[2 := 1], 2) == 1 && Get(map[1 := 2], 2) == 0 && Get(map[1 := 2], 1) == 2 && Get(map[2 := 1], 1) == 0;
  }

  /** Both contents are kept: the moved one stays at "b", the arriving one gets the copy. */
  lemma RenameConflict(h: Hashes)
    requires h.HexDigests()
    ensures var after := AppendLocalRename(h, Holding(), "a", "b").0;
            var plan := DerivedPlan(h, after, "b", Arriving());
            && Decide(Load(after.files, "b"), Arriving().vv) == Decision.Concurrent
            && plan.Some? && |plan.value| == 2
            && plan.value[0].path == "b" && plan.value[0].row.hash == Some(5) && plan.value[0].row.mode >= 7
            && plan.value[1].path == CopyPath(h, "b", Arriving()) && plan.value[1].row.hash == Some(3)
  {
    AfterMove(h);
    MovedCandidates(h);
    FarApart();
    ConflictPlanned(h, AppendLocalRename(h, Holding(), "a", "b").0, "b", Moved(), Arriving());
  }

  /** The larger of two concurrent versions stays, the other is copied. */
  lemma ConflictPlanned(h: Hashes, st: StoreState, path: string, w: Version, l: Version)
    requires h.HexDigests() && path in st.files && st.files[path] == w && forall p :: p in st.files ==> |p| <= |path|
    requires Candidates(st, path, l) == [w, l] && Compare(l.vv, w.vv) == Ord3.Concurrent
    requires !w.tombstone && !l.tombstone && w.hash.Some? && l.hash.Some? && w.hash.value > l.hash.value
    ensures var plan := DerivedPlan(h, st, path, l);
            && Decide(Load(st.files, path), l.vv) == Decision.Concurrent
            && plan.Some? && |plan.value| == 2
            && plan.value[0].path == path && plan.value[0].row.hash == w.hash && plan.value[0].row.mode >= w.mode
            && plan.value[1].path == CopyPath(h, path, l) && plan.value[1].row.hash == l.hash
  {
    NestedPair(h, w, l);
    TwoPlanned(h, path, w, l, st.files);
  }

  /** A plan for two concurrent versions, the first of larger key, with no file of a longer name around. */
  lemma TwoPlanned(h: Hashes, path: string, w: Version, l: Version, files: map<string, Version>)
    requires h.HexDigests() && l.hash.Some? && !w.tombstone && Antichain(h, [w, l]) == [w, l] && KeyOf(h, w) != KeyOf(h, l)
    requires forall p :: p in files ==> |p| <= |path|
    ensures var plan := Plan(h, path, [w, l], files);
            && plan.Some? && |plan.value| == 2
            && plan.value[0].path == path && plan.value[0].row.hash == w.hash && plan.value[0].row.mode >= w.mode
            && plan.value[1].path == CopyPath(h, path, l) && plan.value[1].row.hash == l.hash
  {
    var top := Planned(path, WinnerRow(h, [w, l], JoinAll([w, l])));
    CopyPathGrows(path, h.DigestOf(l.Carried()));
    FreeCopyIsWhole(h, path, l, 0, [top], files);
    assert [w, l][1..] == [l];
    OneLoser(h, path, KeyOf(h, w), l, [top], files);
    TopBounds(h, KeyOf(h, w), [w, l], w);
  }

  lemma OneLoser(h: Hashes, path: string, wk: Key, l: Version, rows: seq<Planned>, files: map<string, Version>)
    requires PlanLoser(h, path, wk, l, rows, files).Some?
    ensures PlanLosers(h, path, wk, [l], rows, files) == PlanLoser(h, path, wk, l, rows, files)
  {
    assert [l][1..] == [];
    var placed := PlanLoser(h, path, wk, l, rows, files);
    assert PlanLosers(h, path, wk, [], placed.value, files) == placed;
  }

  // ---------------------------------------------------------- a run with a rename

  /** A mesh of nodes 1 and 2. */
  function Pair(a: StoreState, b: StoreState): Net {
    map[1 := a, 2 := b]
  }

  lemma PairStep(h: Hashes, a: StoreState, b: StoreState, s: Step)
    requires s.node == 1 || s.node == 2
    ensures Next(h, Pair(a, b), s) == if s.node == 1 then Pair(Act(h, a, s), b) else Pair(a, Act(h, b, s))
  {
    var st := Act(h, if s.node == 1 then a else b, s);
    StepIs(h, Pair(a, b), s, st);
    PairUpdate(a, b, st);
  }

  lemma PairUpdate(a: StoreState, b: StoreState, st: StoreState)
    ensures Pair(a, b)[1 := st] == Pair(st, b) && Pair(a, b)[2 := st] == Pair(a, st)
  {
  }

  lemma PairRun(h: Hashes, run: seq<Step>, s1: StoreState, s2: StoreState, s3: StoreState, end: StoreState)
    requires |run| == 4 && run[0].node == 1 && run[1].node == 1 && run[2].node == 2 && run[3].node == 1
    requires Act(h, Init(1), run[0]) == s1 && Act(h, s1, run[1]) == s2 && Act(h, Init(2), run[2]) == s3 && Act(h, s2, run[3]) == end
    requires Clean(Pair(Init(1), Init(2)), run[0]) && Clean(Pair(s1, Init(2)), run[1])
    requires Clean(Pair(s2, Init(2)), run[2]) && Clean(Pair(s2, s3), run[3])
    ensures CleanRun(h, Start({1, 2}), run) && After(h, Start({1, 2}), run) == Pair(end, s3)
  {
    StartIsPair();
    PairStep(h, Init(1), Init(2), run[0]);
    PairStep(h, s1, Init(2), run[1]);
    PairStep(h, s2, Init(2), run[2]);
    PairStep(h, s2, s3, run[3]);
    ThroughFour(h, run, Start({1, 2}), Pair(s1, Init(2)), Pair(s2, Init(2)), Pair(s2, s3), Pair(end, s3));
  }

  lemma StartIsPair()
    ensures Start({1, 2}) == Pair(Init(1), Init(2))
  {
  }

  /** A run of four steps by way of these meshes. */
  lemma ThroughFour(h: Hashes, run: seq<Step>, n0: Net, n1: Net, n2: Net, n3: Net, n4: Net)
    requires |run| == 4 && Next(h, n0, run[0]) == n1 && Next(h, n1, run[1]) == n2 && Next(h, n2, run[2]) == n3 && Next(h, n3, run[3]) == n4
    requires Clean(n0, run[0]) && Clean(n1, run[1]) && Clean(n2, run[2]) && Clean(n3, run[3])
    ensures CleanRun(h, n0, run) && After(h, n0, run) == n4
  {
    RunFour(h, n0, run);
  }

  /** Node 1 writes `a` and moves it to `b`; node 2 writes `b`; node 1 receives that. */
  function Moving(a: string, b: string, w: Op): seq<Step> {
    [LocalWrite(1, a, 1, 0, None), LocalRename(1, a, b), LocalWrite(2, b, 3, 0, None), Deliver(1, w)]
  }

  lemma OwnLineage(st: StoreState, a: string, b: string)
    requires st.node == 1 && VvAt(st.files, a) == map[1 := 1] && b !in st.files
    ensures LineagesAgree(st, a, b)
  {
  }

  lemma MovingIsClean(a: string, b: string, w: Op, s1: StoreState, s2: StoreState, s3: StoreState)
    requires !IsCopyName(a) && !IsCopyName(b) && w in s3.oplog && w.origin == 2
    requires s1.node == 1 && VvAt(s1.files, a) == map[1 := 1] && b !in s1.files
    ensures var run := Moving(a, b, w);
            && Clean(Pair(Init(1), Init(2)), run[0]) && Clean(Pair(s1, Init(2)), run[1])
            && Clean(Pair(s2, Init(2)), run[2]) && Clean(Pair(s2, s3), run[3])
  {
    OwnLineage(s1, a, b);
  }

  lemma TwoAtTarget(x: Op, r: Op, w: Op, b: string)
    requires x.kind == Write && x.path != b && x.pathOld == None && r.kind == Rename && r.path == b && w.kind == Write && w.path == b
    ensures OpsAt([x, r, w], b) == {View(r, b), w}
  {
    OpsAtAppend([], x, b);
    OpsAtAppend([x], r, b);
    OpsAtAppend([x, r], w, b);
    assert [] + [x] == [x] && [x] + [r] == [x, r] && [x, r] + [w] == [x, r, w];
    assert OpsAt([], b) == {} && !Affects(x, b) && View(w, b) == w;
  }

  lemma BothTips(v: Op, w: Op)
    requires v.vv == map[1 := 2] && w.vv == map[2 := 1]
    ensures v in Tip({v, w}) && w in Tip({v, w})
  {
    FarApart();
    CompareMeaning(map[2 := 1], map[1 := 2]);
  }

  lemma MovingWritten(a: string, b: string, w: Op)
    ensures Written(Moving(a, b, w)) == {Content(1, None), Content(3, None)}
  {
    var run := Moving(a, b, w);
    assert run[0] in run && run[2] in run;
    assert forall s :: s in run ==> s == run[0] || s == run[1] || s == run[2] || s == run[3];
  }

  lemma SameChange(h: Hashes, n: NodeId, p: string, hash: Hash)
    requires h.sizeOf(hash) == 0
    ensures ChangeOf(h, LocalWrite(n, p, hash, 0, None)) == RenameLineage.Put(p, hash)
  {
  }

  /** What the two nodes hold before the delivery, for hash functions under which content has no size. */
  lemma BeforeDelivery(h: Hashes, a: string, b: string) returns (s1: StoreState, o: Op, s2: StoreState, r: Op, s3: StoreState, w: Op)
    requires a != b && h.sizeOf(1) == 0 && h.sizeOf(3) == 0
    ensures Act(h, Init(1), Moving(a, b, w)[0]) == s1 && Act(h, s1, Moving(a, b, w)[1]) == s2 && Act(h, Init(2), Moving(a, b, w)[2]) == s3
    ensures s1.node == 1 && VvAt(s1.files, a) == map[1 := 1] && b !in s1.files
    ensures s2.oplog == [o, r] && s3.oplog == [w] && s2.applied == {}
    ensures o.kind == Write && o.path == a && o.pathOld == None && o.origin == 1
    ensures r.kind == Rename && r.path == b && r.hash == Some(1) && r.vv == map[1 := 2] && r.origin == 1
    ensures w.kind == Write && w.path == b && w.hash == Some(3) && w.vv == map[2 := 1] && w.origin == 2 && w.WellFormed()
  {
    SameChange(h, 1, a, 1);
    SameChange(h, 2, b, 3);
    s1, o := RenameLineage.FirstWrite(h, Init(1), a, 1);
    s2, r := RenameLineage.Moves(h, s1, a, b);
    s3, w := RenameLineage.FirstWrite(h, Init(2), b, 3);
    assert Increment(map[1 := 1], 1) == map[1 := 2];
  }

  lemma MovingEnds(h: Hashes, a: string, b: string) returns (w: Op, v: Op, net: Net)
    requires a != b && !IsCopyName(a) && !IsCopyName(b) && h.sizeOf(1) == 0 && h.sizeOf(3) == 0
    ensures CleanRun(h, Start({1, 2}), Moving(a, b, w)) && After(h, Start({1, 2}), Moving(a, b, w)) == net && 1 in net
    ensures OpsAt(net[1].oplog, b) == {v, w} && v.vv == map[1 := 2] && w.vv == map[2 := 1] && v.hash == Some(1) && w.hash == Some(3)
  {
    var s1, o, s2, r, s3;
    s1, o, s2, r, s3, w := BeforeDelivery(h, a, b);
    var end := ReplicaModel.Receive(h, s2, w);
    net := Pair(end, s3);
    v := View(r, b);
    MovingIsClean(a, b, w, s1, s2, s3);
    PairRun(h, Moving(a, b, w), s1, s2, s3, end);
    MovingLog(h, s2, o, r, w, b);
  }

  lemma MovingLog(h: Hashes, st: StoreState, o: Op, r: Op, w: Op, b: string)
    requires st.oplog == [o, r] && st.applied == {} && o.origin == r.origin == 1 && w.origin == 2 && w.WellFormed()
    requires o.kind == Write && o.path != b && o.pathOld == None && r.kind == Rename && r.path == b && w.kind == Write && w.path == b
    ensures OpsAt(ReplicaModel.Receive(h, st, w).oplog, b) == {View(r, b), w}
  {
    RenameLineage.NotYetLogged(st.oplog, w);
    ReceiveLogs(h, st, w);
    assert st.oplog + [w] == [o, r, w];
    TwoAtTarget(o, r, w, b);
  }

  /** A rename and a concurrent write at its target: both contents are preserved. */
  lemma RenamePreserved(a: string, b: string) returns (w: Op, v: Op)
    requires a != b && !IsCopyName(a) && !IsCopyName(b)
    ensures v.hash == Some(1) && w.hash == Some(3)
    ensures var h := ExampleHashes(); NothingLost(h, Moving(a, b, w), 1, b, v) && NothingLost(h, Moving(a, b, w), 1, b, w)
  {
    var h := ExampleHashes();
    var net;
    w, v, net := MovingEnds(h, a, b);
    BothTips(v, w);
    MovingWritten(a, b, w);
    ExampleTellsThese();
    LostNothing(h, Moving(a, b, w), net, 1, b, v);
    LostNothing(h, Moving(a, b, w), net, 1, b, w);
  }
}

/** What a pull does to the store: a pruned pull is a full one, and opposite pulls equalize (src/merkle.rs, src/replica.rs). */
module MerkleEffects {
  import opened VersionVectors
  import opened Versions
  import opened Decisions
  import opened StoreModel
  import opened StoreLaws
  import Model = ReplicaModel
  import opened Replicas
  import opened TreePaths
  import opened MerkleTrees
  import opened MerklePulls

  /** `rows` is the index `files`, keyed by components instead of text. */
  ghost predicate Mirrors(rows: Rows, files: map<string, Version>) {
    && (forall p {:trigger MirrorAt(rows, files, p)} :: p in rows ==> MirrorAt(rows, files, p))
    && (forall t {:trigger HasPath(rows, t)} :: t in files ==> HasPath(rows, t))
  }

  ghost predicate MirrorAt(rows: Rows, files: map<string, Version>, p: Path)
    requires p in rows
  {
    Normal(p) && Load(files, Text(p)) == Some(rows[p])
  }

  ghost predicate HasPath(rows: Rows, t: string) {
    exists p :: p in rows && Text(p) == t
  }

  /** The remote rows of a list of leaf paths, as they are handed to the store. */
  function Leaves(b: Rows, ps: seq<Path>): seq<(string, Version)>
    requires AllIn(b, ps)
  {
    seq(|ps|, i requires 0 <= i < |ps| => (Text(ps[i]), b[ps[i]]))
  }

  ghost predicate AllIn(b: Rows, ps: seq<Path>) {
    forall i :: 0 <= i < |ps| ==> ps[i] in b
  }

  lemma ReconcileLast(h: Hashes, st: StoreState, b: Rows, ps: seq<Path>, p: Path)
    requires AllIn(b, ps) && p in b
    ensures AllIn(b, ps + [p])
    ensures ReconcileAll(h, st, Leaves(b, ps + [p])) == ReconcileOne(h, ReconcileAll(h, st, Leaves(b, ps)), Text(p), b[p])
  {
    var rows := Leaves(b, ps + [p]);
    assert rows[..|ps|] == Leaves(b, ps);
  }

  // -------------------------------------------------------- pruned equals full

  lemma OneClimbs(h: Hashes, st: StoreState, path: string, row: Version)
    ensures Climbs(st.files, ReconcileOne(h, st, path, row).files)
  {
    ReconcileClimbs(st, path, row);
    Model.ResolveClimbsToo(h, st, path, row);
  }

  lemma {:induction false} AllClimb(h: Hashes, st: StoreState, rows: seq<(string, Version)>)
    ensures Climbs(st.files, ReconcileAll(h, st, rows).files)
    decreases |rows|
  {
    if rows != [] {
      var last := rows[|rows| - 1];
      var mid := ReconcileAll(h, st, rows[..|rows| - 1]);
      AllClimb(h, st, rows[..|rows| - 1]);
      OneClimbs(h, mid, last.0, last.1);
      ClimbsTransitive(st.files, mid.files, ReconcileOne(h, mid, last.0, last.1).files);
    }
  }

  /** A row already covered changes nothing. */
  lemma CoveredIsIgnored(h: Hashes, st: StoreState, path: string, row: Version)
    requires path in st.files && Leq(row.vv, st.files[path].vv)
    ensures ReconcileOne(h, st, path, row) == st
  {
    DecideMeaning(Load(st.files, path), row.vv);
  }

  lemma EqualLeafIsIgnored(h: Hashes, st: StoreState, a: Rows, b: Rows, before: seq<(string, Version)>, p: Path)
    requires SameLeaf(h, a, b, p) && MirrorAt(a, st.files, p)
    ensures var mid := ReconcileAll(h, st, before);
            ReconcileOne(h, mid, Text(p), b[p]) == mid
  {
    AllClimb(h, st, before);
    var mid := ReconcileAll(h, st, before);
    assert Text(p) in st.files && st.files[Text(p)].vv == b[p].vv;
    CoveredIsIgnored(h, mid, Text(p), b[p]);
  }

  /** The leaves of `ps` that are missing or different in `a`. */
  ghost function Remaining(h: Hashes, a: Rows, b: Rows, ps: seq<Path>): seq<Path>
    decreases |ps|
  {
    if ps == [] then []
    else Keep(h, a, b, Remaining(h, a, b, ps[..|ps| - 1]), ps[|ps| - 1])
  }

  ghost function Keep(h: Hashes, a: Rows, b: Rows, kept: seq<Path>, p: Path): seq<Path> {
    if SameLeaf(h, a, b, p) then kept else kept + [p]
  }

  /** Two lists of remote leaves leave the same store. */
  ghost predicate SameOutcome(h: Hashes, st: StoreState, b: Rows, ps: seq<Path>, qs: seq<Path>) {
    AllIn(b, ps) && AllIn(b, qs) && ReconcileAll(h, st, Leaves(b, ps)) == ReconcileAll(h, st, Leaves(b, qs))
  }

  /** Leaving out equal leaves never changes the outcome, wherever they stand in the list. */
  lemma {:induction false} PrunedPullIsFullPull(h: Hashes, st: StoreState, a: Rows, b: Rows, ps: seq<Path>)
    requires Mirrors(a, st.files) && AllIn(b, ps)
    ensures SameOutcome(h, st, b, Remaining(h, a, b, ps), ps)
    decreases |ps|
  {
    if ps != [] {
      var init, last := ps[..|ps| - 1], ps[|ps| - 1];
      PrunedPullIsFullPull(h, st, a, b, init);
      KeepLast(h, st, a, b, init, Remaining(h, a, b, init), last);
      RemainingUnfolds(h, a, b, ps);
    }
  }

  lemma RemainingUnfolds(h: Hashes, a: Rows, b: Rows, ps: seq<Path>)
    requires ps != []
    ensures var init, last := ps[..|ps| - 1], ps[|ps| - 1];
            init + [last] == ps && Remaining(h, a, b, ps) == Keep(h, a, b, Remaining(h, a, b, init), last)
  {
  }

  lemma KeepLast(h: Hashes, st: StoreState, a: Rows, b: Rows, ps: seq<Path>, kept: seq<Path>, p: Path)
    requires Mirrors(a, st.files) && SameOutcome(h, st, b, kept, ps) && p in b
    ensures SameOutcome(h, st, b, Keep(h, a, b, kept, p), ps + [p])
  {
    ReconcileLast(h, st, b, ps, p);
    if SameLeaf(h, a, b, p) {
      assert MirrorAt(a, st.files, p);
      EqualLeafIsIgnored(h, st, a, b, Leaves(b, ps), p);
    } else {
      ReconcileLast(h, st, b, kept, p);
    }
  }

  /** One pull makes every local vector cover the remote's, given that each conflict met was settled. */
  lemma {:induction false} PullCovers(h: Hashes, st: StoreState, rows: seq<(string, Version)>, k: nat)
    requires Settles(h, st, rows) && k < |rows|
    ensures var out := ReconcileAll(h, st, rows).files;
            rows[k].0 in out && Leq(rows[k].1.vv, out[rows[k].0].vv)
    decreases |rows|
  {
    var init, last := rows[..|rows| - 1], rows[|rows| - 1];
    var mid := ReconcileAll(h, st, init);
    if k < |init| {
      PullCovers(h, st, init, k);
      OneClimbs(h, mid, last.0, last.1);
      var out := ReconcileAll(h, st, rows).files;
      LeqTransitive(rows[k].1.vv, mid.files[rows[k].0].vv, out[rows[k].0].vv);
    } else {
      OneCovers(h, mid, last.0, last.1);
    }
  }

  /** No conflict met along the way exceeds the copy-depth limit. */
  predicate Settles(h: Hashes, st: StoreState, rows: seq<(string, Version)>)
    decreases |rows|
  {
    rows == [] ||
    (var init, last := rows[..|rows| - 1], rows[|rows| - 1];
     && Settles(h, st, init)
     && var mid := ReconcileAll(h, st, init);
        Decide(Load(mid.files, last.0), last.1.vv) == Decision.Concurrent ==> DerivedPlan(h, mid, last.0, last.1).Some?)
  }

  lemma OneCovers(h: Hashes, st: StoreState, path: string, row: Version)
    requires Decide(Load(st.files, path), row.vv) == Decision.Concurrent ==> DerivedPlan(h, st, path, row).Some?
    ensures var out := ReconcileOne(h, st, path, row).files;
            path in out && Leq(row.vv, out[path].vv)
  {
    DecideMeaning(Load(st.files, path), row.vv);
    if Decide(Load(st.files, path), row.vv) == Decision.Concurrent {
      ConflictCovers(h, st, path, row);
    } else if Decide(Load(st.files, path), row.vv) == Apply {
      JoinLifts(st.files, path, row.vv);
    }
  }

  lemma ConflictCovers(h: Hashes, st: StoreState, path: string, row: Version)
    requires Decide(Load(st.files, path), row.vv) == Decision.Concurrent && DerivedPlan(h, st, path, row).Some?
    ensures var out := Model.Resolve(h, st, path, row).files;
            path in out && Leq(row.vv, out[path].vv)
  {
    ResolutionLifts(h, st, path, row);
    var rs := DerivedPlan(h, st, path, row).value;
    CommitIs(st.files, rs);
    assert Commit(st.files, rs)[rs[0].path] == rs[0].row;
  }

  // ------------------------------------------------------ opposite pulls

  /** The two versions of a path are ordered, and equal vectors mean equal rows. */
  predicate Ordered2(l: Option<Version>, r: Version) {
    l.Some? ==> (Leq(l.value.vv, r.vv) || Leq(r.vv, l.value.vv)) && (l.value.vv == r.vv ==> l.value == r)
  }

  function Newest(l: Option<Version>, r: Option<Version>): Option<Version> {
    if l.None? then r
    else if r.None? then l
    else if Less(l.value.vv, r.value.vv) then r
    else l
  }

  lemma OneNewest(h: Hashes, st: StoreState, path: string, row: Version, t: string)
    requires Ordered2(Load(st.files, path), row)
    ensures Load(ReconcileOne(h, st, path, row).files, t)
            == if t == path then Newest(Load(st.files, t), Some(row)) else Load(st.files, t)
  {
    DecideMeaning(Load(st.files, path), row.vv);
    if Decide(Load(st.files, path), row.vv) == Apply {
      JoinLifts(st.files, path, row.vv);
    }
  }

  ghost predicate DistinctTexts(rows: seq<(string, Version)>) {
    forall i, j :: 0 <= i < j < |rows| ==> rows[i].0 != rows[j].0
  }

  /** Distinct rows, none of them concurrent with the index. */
  ghost predicate NoConflicts(files: map<string, Version>, rows: seq<(string, Version)>) {
    DistinctTexts(rows) && forall i :: 0 <= i < |rows| ==> Ordered2(Load(files, rows[i].0), rows[i].1)
  }

  lemma NoConflictsInit(files: map<string, Version>, rows: seq<(string, Version)>)
    requires rows != [] && NoConflicts(files, rows)
    ensures NoConflicts(files, rows[..|rows| - 1]) && Unlisted(rows[..|rows| - 1], rows[|rows| - 1].0)
  {
  }

  ghost predicate Unlisted(rows: seq<(string, Version)>, t: string) {
    forall i :: 0 <= i < |rows| ==> rows[i].0 != t
  }

  /** A pull without conflicts leaves every path it does not list as it was. */
  lemma {:induction false} PullLeavesRest(h: Hashes, st: StoreState, rows: seq<(string, Version)>, t: string)
    requires NoConflicts(st.files, rows) && Unlisted(rows, t)
    ensures Load(ReconcileAll(h, st, rows).files, t) == Load(st.files, t)
    decreases |rows|
  {
    if rows != [] {
      var init, last := rows[..|rows| - 1], rows[|rows| - 1];
      NoConflictsInit(st.files, rows);
      PullLeavesRest(h, st, init, t);
      PullLeavesRest(h, st, init, last.0);
      OneNewest(h, ReconcileAll(h, st, init), last.0, last.1, t);
    }
  }

  /** Without conflicts a pull takes, at each listed path, the newer of the two versions. */
  lemma {:induction false} PullTakesNewest(h: Hashes, st: StoreState, rows: seq<(string, Version)>, k: nat)
    requires NoConflicts(st.files, rows) && k < |rows|
    ensures Load(ReconcileAll(h, st, rows).files, rows[k].0) == Newest(Load(st.files, rows[k].0), Some(rows[k].1))
    decreases |rows|
  {
    NoConflictsInit(st.files, rows);
    LastRow(h, st, rows, rows[k].0);
    if k < |rows| - 1 {
      PullTakesNewest(h, st, rows[..|rows| - 1], k);
    }
  }

  /** What the last row of a pull does at one path. */
  lemma LastRow(h: Hashes, st: StoreState, rows: seq<(string, Version)>, t: string)
    requires rows != [] && NoConflicts(st.files, rows)
    ensures var init, last := rows[..|rows| - 1], rows[|rows| - 1];
            Load(ReconcileAll(h, st, rows).files, t)
            == if t == last.0 then Newest(Load(st.files, t), Some(last.1)) else Load(ReconcileAll(h, st, init).files, t)
  {
    var init, last := rows[..|rows| - 1], rows[|rows| - 1];
    NoConflictsInit(st.files, rows);
    PullLeavesRest(h, st, init, last.0);
    OneNewest(h, ReconcileAll(h, st, init), last.0, last.1, t);
  }

  /** One pruned pull makes every local vector cover the remote's, at every remote path. */
  lemma OnePullCovers(h: Hashes, st: StoreState, a: Rows, b: Rows, handled: seq<Path>, p: Path)
    requires Mirrors(a, st.files) && PulledLeaves(h, a, b, handled) && AllIn(b, handled) && p in b
    requires Settles(h, st, Leaves(b, handled))
    ensures var out := ReconcileAll(h, st, Leaves(b, handled)).files;
            Text(p) in out && Leq(b[p].vv, out[Text(p)].vv)
  {
    if p in handled {
      var k :| 0 <= k < |handled| && handled[k] == p;
      PullCovers(h, st, Leaves(b, handled), k);
    } else {
      assert SameLeaf(h, a, b, p);
      assert MirrorAt(a, st.files, p);
      AllClimb(h, st, Leaves(b, handled));
    }
  }

  /** What `ReconcilePull` promises of the leaves it handles. */
  ghost predicate PulledLeaves(h: Hashes, a: Rows, b: Rows, handled: seq<Path>) {
    Distinct(handled) && forall p :: p in handled <==> p in b && !SameLeaf(h, a, b, p)
  }

  lemma PulledAreRows(h: Hashes, a: Rows, b: Rows, handled: seq<Path>)
    requires PulledLeaves(h, a, b, handled)
    ensures AllIn(b, handled)
  {
    forall i | 0 <= i < |handled| ensures handled[i] in b {
      assert handled[i] in handled;
    }
  }

  /** No path is concurrent, and equal vectors mean equal rows. */
  ghost predicate ConflictFree(fa: map<string, Version>, fb: map<string, Version>) {
    forall t :: t in fb ==> Ordered2(Load(fa, t), fb[t])
  }

  /** A pruned pull between conflict-free replicas leaves the newer version at every path. */
  lemma PrunedTakesNewest(h: Hashes, st: StoreState, a: Rows, b: Rows, fb: map<string, Version>, handled: seq<Path>, t: string)
    requires Mirrors(a, st.files) && Mirrors(b, fb) && ConflictFree(st.files, fb) && PulledLeaves(h, a, b, handled)
    ensures AllIn(b, handled)
    ensures Load(ReconcileAll(h, st, Leaves(b, handled)).files, t) == Newest(Load(st.files, t), Load(fb, t))
  {
    PulledAreRows(h, a, b, handled);
    var rows := Leaves(b, handled);
    PulledRows(st.files, b, fb, handled);
    if i :| 0 <= i < |rows| && rows[i].0 == t {
      assert Load(fb, rows[i].0) == Some(rows[i].1);
      PullTakesNewest(h, st, rows, i);
    } else {
      PullLeavesRest(h, st, rows, t);
      assert forall i :: 0 <= i < |handled| ==> rows[i].0 == Text(handled[i]);
      NotPulled(h, st, a, b, fb, handled, t);
    }
  }

  lemma PulledRows(fa: map<string, Version>, b: Rows, fb: map<string, Version>, ps: seq<Path>)
    requires Mirrors(b, fb) && ConflictFree(fa, fb) && Distinct(ps) && AllIn(b, ps)
    ensures DistinctTexts(Leaves(b, ps))
    ensures forall i :: 0 <= i < |ps| ==> var r := Leaves(b, ps)[i]; Load(fb, r.0) == Some(r.1) && Ordered2(Load(fa, r.0), r.1)
  {
    forall i | 0 <= i < |ps| ensures Normal(ps[i]) && Load(fb, Text(ps[i])) == Some(b[ps[i]]) {
      assert MirrorAt(b, fb, ps[i]);
    }
    TextsDistinct(b, ps);
  }

  lemma TextsDistinct(b: Rows, ps: seq<Path>)
    requires Distinct(ps) && forall i :: 0 <= i < |ps| ==> ps[i] in b && Normal(ps[i])
    ensures DistinctTexts(Leaves(b, ps))
  {
    forall i, j | 0 <= i < j < |ps| ensures Text(ps[i]) != Text(ps[j]) {
      if Text(ps[i]) == Text(ps[j]) {
        TextInjective(ps[i], ps[j]);
      }
    }
  }

  lemma NotPulled(h: Hashes, st: StoreState, a: Rows, b: Rows, fb: map<string, Version>, handled: seq<Path>, t: string)
    requires Mirrors(a, st.files) && Mirrors(b, fb) && ConflictFree(st.files, fb) && PulledLeaves(h, a, b, handled)
    requires forall i :: 0 <= i < |handled| ==> Text(handled[i]) != t
    ensures Load(st.files, t) == Newest(Load(st.files, t), Load(fb, t))
  {
    if t in fb {
      assert HasPath(b, t);
      var p :| p in b && Text(p) == t;
      assert p !in handled;
      assert SameLeaf(h, a, b, p);
      assert MirrorAt(a, st.files, p) && MirrorAt(b, fb, p);
    }
  }

  lemma NewestIsSymmetric(l: Option<Version>, r: Option<Version>)
    requires r.Some? ==> Ordered2(l, r.value)
    ensures Newest(l, r) == Newest(r, l) && Newest(r, Newest(l, r)) == Newest(l, r)
  {
    if l.Some? && r.Some? && Leq(l.value.vv, r.value.vv) && Leq(r.value.vv, l.value.vv) {
      LeqAntisymmetric(l.value.vv, r.value.vv);
    }
  }

  lemma SameLoads(fa: map<string, Version>, fb: map<string, Version>)
    requires forall t :: Load(fa, t) == Load(fb, t)
    ensures fa == fb
  {
    assert forall t :: t in fa <==> Load(fa, t).Some?;
    assert forall t :: t in fb <==> Load(fb, t).Some?;
    assert forall t :: t in fa ==> fa[t] == Load(fa, t).value;
    assert forall t :: t in fb ==> fb[t] == Load(fb, t).value;
  }

  lemma ConflictFreeSymmetric(fa: map<string, Version>, fb: map<string, Version>)
    requires ConflictFree(fa, fb)
    ensures ConflictFree(fb, fa)
  {
    forall t | t in fa ensures Ordered2(Load(fb, t), fa[t]) {
      assert t in fb ==> Ordered2(Load(fa, t), fb[t]);
    }
  }

  /**
   Opposite pulls equalize: each side pulls the leaves its descent found in
   the other's snapshot, and both end with the same row map.
   */
  lemma OppositePullsEqualize(h: Hashes, sa: StoreState, sb: StoreState, a: Rows, b: Rows, fromB: seq<Path>, fromA: seq<Path>)
    requires Mirrors(a, sa.files) && Mirrors(b, sb.files) && ConflictFree(sa.files, sb.files)
    requires PulledLeaves(h, a, b, fromB) && PulledLeaves(h, b, a, fromA)
    ensures AllIn(b, fromB)
    ensures AllIn(a, fromA)
    ensures ReconcileAll(h, sa, Leaves(b, fromB)).files == ReconcileAll(h, sb, Leaves(a, fromA)).files
  {
    PulledAreRows(h, a, b, fromB);
    PulledAreRows(h, b, a, fromA);
    ConflictFreeSymmetric(sa.files, sb.files);
    var fa, fb := ReconcileAll(h, sa, Leaves(b, fromB)).files, ReconcileAll(h, sb, Leaves(a, fromA)).files;
    forall t ensures Load(fa, t) == Load(fb, t) {
      PrunedTakesNewest(h, sa, a, b, sb.files, fromB, t);
      PrunedTakesNewest(h, sb, b, a, sa.files, fromA, t);
      NewestIsSymmetric(Load(sa.files, t), Load(sb.files, t));
    }
    SameLoads(fa, fb);
  }

  /** The same when the second pull starts only after the first has finished. */
  lemma PullThenPullBack(h: Hashes, sa: StoreState, sb: StoreState, a: Rows, b: Rows, a': Rows, fromB: seq<Path>, fromA: seq<Path>)
    requires Mirrors(a, sa.files) && Mirrors(b, sb.files) && ConflictFree(sa.files, sb.files)
    requires PulledLeaves(h, a, b, fromB) && PulledLeaves(h, b, a', fromA)
    requires AllIn(b, fromB)
    requires Mirrors(a', ReconcileAll(h, sa, Leaves(b, fromB)).files)
    ensures AllIn(a', fromA)
    ensures ReconcileAll(h, sb, Leaves(a', fromA)).files == ReconcileAll(h, sa, Leaves(b, fromB)).files
  {
    PulledAreRows(h, b, a', fromA);
    var fa, fb := ReconcileAll(h, sa, Leaves(b, fromB)).files, ReconcileAll(h, sb, Leaves(a', fromA)).files;
    forall t ensures Load(fa, t) == Newest(Load(sa.files, t), Load(sb.files, t)) {
      PrunedTakesNewest(h, sa, a, b, sb.files, fromB, t);
    }
    StillConflictFree(sa.files, sb.files, fa);
    forall t ensures Load(fa, t) == Load(fb, t) {
      PrunedTakesNewest(h, sb, b, a', fa, fromA, t);
      NewestIsSymmetric(Load(sa.files, t), Load(sb.files, t));
    }
    SameLoads(fa, fb);
  }

  lemma StillConflictFree(fa: map<string, Version>, fb: map<string, Version>, merged: map<string, Version>)
    requires ConflictFree(fa, fb) && forall t :: Load(merged, t) == Newest(Load(fa, t), Load(fb, t))
    ensures ConflictFree(fb, merged)
  {
    forall t | t in merged ensures Ordered2(Load(fb, t), merged[t]) {
      assert t in fb ==> Ordered2(Load(fa, t), fb[t]);
      assert Load(merged, t) == Newest(Load(fa, t), Load(fb, t));
    }
  }

  // ------------------------------------------------------------- a whole session

  /** Build both trees, descend, hand each differing leaf to the store. */
  method Session(h: Hashes, local: Replica, a: Rows, b: Rows) returns (handled: seq<Path>)
    requires local.Valid() && Mirrors(a, local.store.files) && TreeShaped(a.Keys) && TreeShaped(b.Keys)
    requires forall p :: p in b ==> b[p].WellFormed()
    modifies local, local.store
    ensures local.Valid() && PulledLeaves(h, a, b, handled)
    ensures AllIn(b, handled)
    ensures local.store.State() == ReconcileAll(h, old(local.store.State()), Leaves(b, handled))
  {
    var mine, mineRoot := Build(h, a);
    var theirs, theirsRoot := Build(h, b);
    var requests;
    handled, requests := ReconcilePull(h, mine, mineRoot, theirs, theirsRoot, a, b);
    PulledAreRows(h, a, b, handled);
    local.ReconcileFrom(h, Leaves(b, handled));
  }
}

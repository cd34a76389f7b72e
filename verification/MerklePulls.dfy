/** The pull driver (src/merkle.rs): the pruned descent visits exactly what a full comparison would. */
module MerklePulls {
  import opened Versions
  import opened TreePaths
  import opened MerkleTrees

  /** A node of the remote tree whose leaf, or whose subtree, is not the same locally. */
  ghost predicate Differs(h: Hashes, a: Rows, b: Rows, x: Path) {
    if x in b then !SameLeaf(h, a, b, x) else IsDir(b.Keys, x) && !SameBelow(h, a, b, x)
  }

  /** A difference shows in every directory above it. */
  lemma DiffersAbove(h: Hashes, a: Rows, b: Rows, d: Path, x: Path)
    requires TreeShaped(b.Keys) && Differs(h, a, b, x) && d < x
    ensures Differs(h, a, b, d) && d !in b && Named(b.Keys, d, x[|d|])
  {
    var p: Path;
    if x in b {
      p := x;
    } else {
      p :| p in b.Keys && x < p;
    }
    assert d < p && d + [x[|d|]] <= p;
    if SameBelow(h, a, b, d) {
      SameBelowDeeper(h, a, b, d, x);
    }
  }

  lemma SameBelowDeeper(h: Hashes, a: Rows, b: Rows, d: Path, x: Path)
    requires SameBelow(h, a, b, d) && d < x
    ensures SameBelow(h, a, b, x) && (x in b ==> SameLeaf(h, a, b, x))
  {
    forall q | x < q && (q in a || q in b) ensures SameLeaf(h, a, b, q) {
      assert d < q;
    }
  }

  /** The pruning rule decides exactly whether the child differs. */
  lemma PruneRule(h: Hashes, a: Rows, b: Rows, local: Dirs, remote: Dirs, d: Path, n: string)
    requires TreeShaped(a.Keys) && TreeShaped(b.Keys) && IsTree(local, h, a) && IsTree(remote, h, b)
    requires d in remote && n in remote[d]
    ensures (n in Listed(local, d) && Listed(local, d)[n].hash == remote[d][n].hash) <==> !Differs(h, a, b, d + [n])
    ensures remote[d][n].isDir <==> d + [n] !in b
    ensures remote[d][n].isDir ==> IsDir(b.Keys, d + [n])
  {
    assert FinalAt(remote, h, b, d) && FinalAt(local, h, a, d);
    assert Named(b.Keys, d, n);
    ListedNames(h, a, local, d, n);
    if d + [n] in b {
      assert n in Listed(local, d) && d + [n] in a ==> Listed(local, d)[n].hash == LeafHash(h, d + [n], a[d + [n]]);
      assert d + [n] in a ==> Named(a.Keys, d, n);
    } else {
      Deeper(b.Keys, d, n);
      PruneDir(h, a, b, local, d, n);
    }
  }

  lemma ListedNames(h: Hashes, a: Rows, local: Dirs, d: Path, n: string)
    requires IsTree(local, h, a)
    ensures n in Listed(local, d) <==> Named(a.Keys, d, n)
    ensures n in Listed(local, d) ==> Listed(local, d)[n].hash == EntryOf(h, a, d, n).hash
  {
    assert FinalAt(local, h, a, d);
    if d !in local && Named(a.Keys, d, n) {
      NoNames(a.Keys, d, n);
      assert false;
    }
  }

  lemma PruneDir(h: Hashes, a: Rows, b: Rows, local: Dirs, d: Path, n: string)
    requires TreeShaped(a.Keys) && TreeShaped(b.Keys) && IsTree(local, h, a)
    requires IsDir(b.Keys, d + [n]) && d + [n] !in b
    ensures (n in Listed(local, d) && Listed(local, d)[n].hash == DirHash(h, b, d + [n])) <==> SameBelow(h, a, b, d + [n])
  {
    ListedNames(h, a, local, d, n);
    var e := d + [n];
    PruningIsExact(h, a, b, e);
    if SameBelow(h, a, b, e) {
      var p :| p in b.Keys && e < p;
      assert SameLeaf(h, a, b, p);
      assert p in a.Keys && e <= p;
    }
  }

  // ------------------------------------------------------------- the work list

  /** A pull in progress: `todo` is what is left of directory `dir`'s listing. */
  datatype Pull = Pull(queue: seq<Path>, dir: Path, todo: set<string>, handled: seq<Path>, requests: seq<Path>)

  ghost predicate Distinct(s: seq<Path>) {
    forall i, j :: 0 <= i < j < |s| ==> s[i] != s[j]
  }

  ghost predicate Under(queue: seq<Path>, x: Path) {
    exists i :: 0 <= i < |queue| && queue[i] <= x
  }

  ghost predicate InTodo(s: Pull, x: Path) {
    s.dir < x && x[|s.dir|] in s.todo
  }

  ghost predicate Open(s: Pull, x: Path) {
    Under(s.queue, x) || InTodo(s, x)
  }

  ghost predicate Seen(s: Pull, x: Path) {
    x in s.handled || x in s.requests
  }

  /** Nothing differing is lost and nothing is visited for no reason. */
  ghost predicate Exact(h: Hashes, a: Rows, b: Rows, s: Pull, x: Path) {
    && (Differs(h, a, b, x) ==> Seen(s, x) || Open(s, x))
    && (Seen(s, x) ==> Differs(h, a, b, x) && !Open(s, x))
    && (x in s.handled ==> x in b) && (x in s.requests ==> x !in b)
  }

  /** Queued directories differ, none lies inside another or inside the open listing. */
  ghost predicate Queued(h: Hashes, a: Rows, b: Rows, s: Pull) {
    && (forall i :: 0 <= i < |s.queue| ==> s.queue[i] !in b && Differs(h, a, b, s.queue[i]))
    && (forall i, j :: 0 <= i < j < |s.queue| ==> !(s.queue[i] <= s.queue[j]) && !(s.queue[j] <= s.queue[i]))
    && (forall i :: 0 <= i < |s.queue| ==> !InTodo(s, s.queue[i]) && (s.todo != {} ==> !(s.queue[i] <= s.dir)))
  }

  ghost predicate PullOk(h: Hashes, a: Rows, b: Rows, s: Pull) {
    && Queued(h, a, b, s) && Distinct(s.handled) && Distinct(s.requests)
    && forall x {:trigger Exact(h, a, b, s, x)} :: Exact(h, a, b, s, x)
  }

  lemma UnderPush(queue: seq<Path>, d: Path, x: Path)
    ensures Under(queue + [d], x) <==> Under(queue, x) || d <= x
  {
    var q := queue + [d];
    if Under(queue, x) {
      var i :| 0 <= i < |queue| && queue[i] <= x;
      assert q[i] <= x;
    }
    if d <= x {
      assert q[|queue|] <= x;
    }
  }

  lemma Comparable(p: Path, q: Path, x: Path)
    requires p <= x && q <= x
    ensures p <= q || q <= p
  {
    assert p == x[..|p|] && q == x[..|q|];
  }

  lemma PrefixOrEqual(p: Path, x: Path)
    ensures p <= x <==> p < x || p == x
  {
    if p <= x && |p| == |x| {
      assert x == x[..|p|];
    }
  }

  function Popped(s: Pull, names: set<string>): Pull
    requires |s.queue| > 0
  {
    var last := |s.queue| - 1;
    Pull(s.queue[..last], s.queue[last], names, s.handled, s.requests + [s.queue[last]])
  }

  lemma PopQueued(h: Hashes, a: Rows, b: Rows, s: Pull, names: set<string>)
    requires |s.queue| > 0 && Queued(h, a, b, s)
    ensures Queued(h, a, b, Popped(s, names))
    ensures !Under(Popped(s, names).queue, s.queue[|s.queue| - 1])
    ensures forall x :: s.queue[|s.queue| - 1] <= x ==> !Under(Popped(s, names).queue, x)
  {
    var q := s.queue[|s.queue| - 1];
    var rest := s.queue[..|s.queue| - 1];
    forall x | q <= x ensures !Under(rest, x) {
      forall i | 0 <= i < |rest| ensures !(rest[i] <= x) {
        assert !(s.queue[i] <= q) && !(q <= s.queue[i]);
        if rest[i] <= x {
          Comparable(rest[i], q, x);
        }
      }
    }
    assert forall i :: 0 <= i < |rest| ==> !(q < rest[i]);
  }

  lemma PopExact(h: Hashes, a: Rows, b: Rows, s: Pull, names: set<string>, x: Path)
    requires TreeShaped(b.Keys) && |s.queue| > 0 && s.todo == {} && Exact(h, a, b, s, x)
    requires forall n :: n in names <==> Named(b.Keys, s.queue[|s.queue| - 1], n)
    requires Differs(h, a, b, s.queue[|s.queue| - 1]) && s.queue[|s.queue| - 1] !in b
    requires s.queue[|s.queue| - 1] <= x ==> !Under(s.queue[..|s.queue| - 1], x)
    ensures Exact(h, a, b, Popped(s, names), x)
  {
    var q, s' := s.queue[|s.queue| - 1], Popped(s, names);
    UnderPush(s'.queue, q, x);
    assert s'.queue + [q] == s.queue;
    PrefixOrEqual(q, x);
    if q < x && Differs(h, a, b, x) {
      DiffersAbove(h, a, b, q, x);
    }
  }

  /** Taking a directory off the queue and asking for its listing. */
  lemma PopOk(h: Hashes, a: Rows, b: Rows, s: Pull, names: set<string>)
    requires TreeShaped(b.Keys) && |s.queue| > 0 && s.todo == {} && PullOk(h, a, b, s)
    requires forall n :: n in names <==> Named(b.Keys, s.queue[|s.queue| - 1], n)
    ensures PullOk(h, a, b, Popped(s, names)) && s.queue[|s.queue| - 1] !in s.requests
  {
    var q, s' := s.queue[|s.queue| - 1], Popped(s, names);
    PopQueued(h, a, b, s, names);
    assert Exact(h, a, b, s, q);
    assert Under(s.queue, q);
    forall x ensures Exact(h, a, b, s', x) {
      assert Exact(h, a, b, s, x);
      PopExact(h, a, b, s, names, x);
    }
  }

  // ------------------------------------------------------- one child at a time

  function Pruned(s: Pull, n: string): Pull {
    s.(todo := s.todo - {n})
  }

  function Pushed(s: Pull, n: string): Pull {
    s.(todo := s.todo - {n}, queue := s.queue + [s.dir + [n]])
  }

  function Handled(s: Pull, n: string): Pull {
    s.(todo := s.todo - {n}, handled := s.handled + [s.dir + [n]])
  }

  lemma TodoStep(s: Pull, n: string, x: Path)
    requires n in s.todo
    ensures InTodo(s, x) <==> InTodo(Pruned(s, n), x) || s.dir + [n] <= x
    ensures s.dir + [n] <= x ==> !InTodo(Pruned(s, n), x)
  {
    if s.dir < x {
      assert s.dir + [x[|s.dir|]] <= x;
    }
    if s.dir + [n] <= x {
      assert s.dir < x && x[|s.dir|] == n;
    }
  }

  lemma NotQueued(h: Hashes, a: Rows, b: Rows, s: Pull, n: string, x: Path)
    requires Queued(h, a, b, s) && n in s.todo && s.dir + [n] <= x
    ensures !Under(s.queue, x)
  {
    var e := s.dir + [n];
    if Under(s.queue, x) {
      var i :| 0 <= i < |s.queue| && s.queue[i] <= x;
      Comparable(s.queue[i], e, x);
      PrefixOrEqual(s.queue[i], e);
      TodoStep(s, n, s.queue[i]);
    }
  }

  lemma PruneOk(h: Hashes, a: Rows, b: Rows, s: Pull, n: string)
    requires TreeShaped(b.Keys) && PullOk(h, a, b, s) && n in s.todo && !Differs(h, a, b, s.dir + [n])
    ensures PullOk(h, a, b, Pruned(s, n))
  {
    var s' := Pruned(s, n);
    forall x ensures Exact(h, a, b, s', x) {
      assert Exact(h, a, b, s, x);
      TodoStep(s, n, x);
      PrefixOrEqual(s.dir + [n], x);
      if s.dir + [n] < x && Differs(h, a, b, x) {
        DiffersAbove(h, a, b, s.dir + [n], x);
      }
    }
    QueuedLess(h, a, b, s, n);
  }

  lemma QueuedLess(h: Hashes, a: Rows, b: Rows, s: Pull, n: string)
    requires Queued(h, a, b, s) && n in s.todo
    ensures Queued(h, a, b, Pruned(s, n))
  {
    forall i | 0 <= i < |s.queue| ensures !InTodo(Pruned(s, n), s.queue[i]) {
      TodoStep(s, n, s.queue[i]);
    }
  }

  lemma HandleExact(h: Hashes, a: Rows, b: Rows, s: Pull, n: string, x: Path)
    requires TreeShaped(b.Keys) && Queued(h, a, b, s) && Exact(h, a, b, s, x) && n in s.todo
    requires Differs(h, a, b, s.dir + [n]) && s.dir + [n] in b
    ensures Exact(h, a, b, Handled(s, n), x)
  {
    var e := s.dir + [n];
    TodoStep(s, n, x);
    PrefixOrEqual(e, x);
    if e <= x {
      NotQueued(h, a, b, s, n, x);
    }
    if e < x && Differs(h, a, b, x) {
      DiffersAbove(h, a, b, e, x);
    }
  }

  lemma HandleOk(h: Hashes, a: Rows, b: Rows, s: Pull, n: string)
    requires TreeShaped(b.Keys) && PullOk(h, a, b, s) && n in s.todo
    requires Differs(h, a, b, s.dir + [n]) && s.dir + [n] in b
    ensures PullOk(h, a, b, Handled(s, n))
  {
    var s', e := Handled(s, n), s.dir + [n];
    forall x ensures Exact(h, a, b, s', x) {
      assert Exact(h, a, b, s, x);
      HandleExact(h, a, b, s, n, x);
    }
    HandledQueue(h, a, b, s, n);
    assert Exact(h, a, b, s, e);
    TodoStep(s, n, e);
    DistinctPush(s.handled, e);
  }

  lemma HandledQueue(h: Hashes, a: Rows, b: Rows, s: Pull, n: string)
    requires Queued(h, a, b, s) && n in s.todo
    ensures Queued(h, a, b, Handled(s, n))
  {
    QueuedLess(h, a, b, s, n);
    forall x ensures InTodo(Handled(s, n), x) == InTodo(Pruned(s, n), x) {
    }
  }

  lemma DistinctPush(s: seq<Path>, x: Path)
    requires Distinct(s) && x !in s
    ensures Distinct(s + [x])
  {
  }

  lemma PushQueued(h: Hashes, a: Rows, b: Rows, s: Pull, n: string)
    requires Queued(h, a, b, s) && n in s.todo && Differs(h, a, b, s.dir + [n]) && s.dir + [n] !in b
    ensures Queued(h, a, b, Pushed(s, n))
  {
    var s', e := Pushed(s, n), s.dir + [n];
    QueuedLess(h, a, b, s, n);
    forall i | 0 <= i < |s.queue| ensures !(s.queue[i] <= e) && !(e <= s.queue[i]) {
      NotQueued(h, a, b, s, n, e);
      TodoStep(s, n, s.queue[i]);
    }
    TodoStep(s, n, e);
    forall i | 0 <= i < |s'.queue| ensures !InTodo(s', s'.queue[i]) && !(s'.queue[i] <= s.dir) {
      if i < |s.queue| {
        assert s'.queue[i] == s.queue[i];
        assert !InTodo(Pruned(s, n), s.queue[i]);
      } else {
        assert !InTodo(Pruned(s, n), e);
      }
    }
  }

  lemma PushOk(h: Hashes, a: Rows, b: Rows, s: Pull, n: string)
    requires TreeShaped(b.Keys) && PullOk(h, a, b, s) && n in s.todo
    requires Differs(h, a, b, s.dir + [n]) && s.dir + [n] !in b
    ensures PullOk(h, a, b, Pushed(s, n))
  {
    var s', e := Pushed(s, n), s.dir + [n];
    PushQueued(h, a, b, s, n);
    forall x ensures Exact(h, a, b, s', x) {
      assert Exact(h, a, b, s, x);
      TodoStep(s, n, x);
      UnderPush(s.queue, e, x);
      assert InTodo(s', x) == InTodo(Pruned(s, n), x);
    }
  }

  // ------------------------------------------------------------------ the loops

  /** Compare one directory's listing with the local one. */
  method PullListing(h: Hashes, local: Dirs, remote: Dirs, ghost a: Rows, ghost b: Rows, start: Pull) returns (s: Pull)
    requires TreeShaped(a.Keys) && TreeShaped(b.Keys) && IsTree(local, h, a) && IsTree(remote, h, b)
    requires PullOk(h, a, b, start) && start.dir in remote && start.todo <= remote[start.dir].Keys
    ensures PullOk(h, a, b, s) && s.todo == {} && s.requests == start.requests
  {
    s := start;
    while s.todo != {}
      invariant PullOk(h, a, b, s) && s.dir == start.dir && s.todo <= remote[s.dir].Keys && s.requests == start.requests
      decreases |s.todo|
    {
      var n :| n in s.todo;
      PruneRule(h, a, b, local, remote, s.dir, n);
      var mine, theirs := Listed(local, s.dir), remote[s.dir][n];
      if n in mine && mine[n].hash == theirs.hash {
        PruneOk(h, a, b, s, n);
        s := Pruned(s, n);
      } else if theirs.isDir {
        PushOk(h, a, b, s, n);
        s := Pushed(s, n);
      } else {
        HandleOk(h, a, b, s, n);
        s := Handled(s, n);
      }
    }
  }

  /** Remote directories not asked for yet. */
  ghost function Unasked(b: Rows, requests: seq<Path>): set<Path> {
    ({[]} + set p, i | p in b && 0 <= i < |p| :: p[..i]) - set d | d in requests
  }

  lemma AskedShrinks(b: Rows, requests: seq<Path>, d: Path)
    requires IsDir(b.Keys, d) && d !in requests
    ensures |Unasked(b, requests + [d])| < |Unasked(b, requests)|
  {
    assert d in Unasked(b, requests) by {
      if d != [] {
        var p :| p in b.Keys && d < p;
        assert p[..|d|] == d;
      }
    }
    assert Unasked(b, requests + [d]) == Unasked(b, requests) - {d};
  }

  lemma StartOk(h: Hashes, a: Rows, b: Rows)
    requires TreeShaped(b.Keys) && Differs(h, a, b, [])
    ensures PullOk(h, a, b, Pull([[]], [], {}, [], []))
  {
    var s := Pull([[]], [], {}, [], []);
    forall x ensures Exact(h, a, b, s, x) {
      assert s.queue[0] <= x;
    }
  }

  lemma NoneDiffers(h: Hashes, a: Rows, b: Rows, x: Path)
    requires TreeShaped(b.Keys) && !Differs(h, a, b, [])
    ensures !Differs(h, a, b, x)
  {
    if x != [] && Differs(h, a, b, x) {
      DiffersAbove(h, a, b, [], x);
    }
  }

  lemma Finished(h: Hashes, a: Rows, b: Rows, s: Pull)
    requires PullOk(h, a, b, s) && s.queue == [] && s.todo == {}
    ensures forall x :: Differs(h, a, b, x) <==> x in s.handled || x in s.requests
    ensures forall x :: (x in s.handled ==> x in b) && (x in s.requests ==> x !in b)
  {
    forall x ensures (Differs(h, a, b, x) <==> x in s.handled || x in s.requests) && (x in s.handled ==> x in b) && (x in s.requests ==> x !in b) {
      assert Exact(h, a, b, s, x);
      assert !Under(s.queue, x);
    }
  }

  /**
   `reconcile_pull`: the leaves handled are exactly the remote leaves missing or
   different locally, and one listing is requested for exactly the remote
   directories under which the indexes differ, each once.
   */
  method ReconcilePull(h: Hashes, local: Dirs, localRoot: NodeHash, remote: Dirs, remoteRoot: NodeHash, ghost a: Rows, ghost b: Rows)
    returns (handled: seq<Path>, requests: seq<Path>)
    requires TreeShaped(a.Keys) && TreeShaped(b.Keys) && IsTree(local, h, a) && IsTree(remote, h, b)
    requires localRoot == DirHash(h, a, []) && remoteRoot == DirHash(h, b, [])
    ensures Distinct(handled) && forall p :: p in handled <==> p in b && !SameLeaf(h, a, b, p)
    ensures Distinct(requests) && forall d :: d in requests <==> d !in b && IsDir(b.Keys, d) && !SameBelow(h, a, b, d)
  {
    PruningIsExact(h, a, b, []);
    if remoteRoot == localRoot {
      forall x ensures !Differs(h, a, b, x) {
        NoneDiffers(h, a, b, x);
      }
      return [], [];
    }
    StartOk(h, a, b);
    var s := Pull([[]], [], {}, [], []);
    while s.queue != []
      invariant PullOk(h, a, b, s) && s.todo == {}
      decreases |Unasked(b, s.requests)|
    {
      var dir := s.queue[|s.queue| - 1];
      assert FinalAt(remote, h, b, dir);
      PopOk(h, a, b, s, remote[dir].Keys);
      AskedShrinks(b, s.requests, dir);
      s := PullListing(h, local, remote, a, b, Popped(s, remote[dir].Keys));
    }
    Finished(h, a, b, s);
    return s.handled, s.requests;
  }
}

/**
 Merkle trees over the file index (src/merkle.rs). Hashes are symbolic terms,
 which is collision freedom: a leaf hash is the fields it covers, a directory
 hash is the set of its entries, and the two never meet.
 */
module MerkleTrees {
  import opened Basics
  import opened VersionVectors
  import opened Versions
  import opened TreePaths
  import opened CopyNames

  /** The fields a leaf hash covers; mode and size ride the row but are not hashed. */
  datatype LeafKey = LeafKey(path: Path, tombstone: bool, content: Hash, uuid: Uuid, meta: Hash, vv: VersionVector)

  datatype NodeHash = Pending | Leaf(key: LeafKey) | Listing(entries: set<Entry>)

  /** What a directory hash absorbs for one child. */
  datatype Entry = Entry(name: string, hash: NodeHash, isDir: bool)

  datatype Child = Child(hash: NodeHash, isDir: bool)

  type Children = map<string, Child>

  type Dirs = map<Path, Children>

  type Rows = map<Path, Version>

  function LeafHash(h: Hashes, p: Path, r: Version): NodeHash {
    Leaf(LeafKey(p, r.tombstone, if r.hash.Some? then r.hash.value else NO_HASH,
                 if r.uuid.Some? then r.uuid.value else 0, h.MetaHash(r.meta), r.vv))
  }

  function HashChildren(c: Children): NodeHash {
    Listing(set n | n in c :: Entry(n, c[n].hash, c[n].isDir))
  }

  // ------------------------------------------------------- what a tree must be

  /** Normalized paths, none of which is a directory prefix of another. */
  ghost predicate TreeShaped(k: set<Path>) {
    && (forall p :: p in k ==> p != [] && Normal(p))
    && (forall p, q :: p in k && q in k ==> !(p < q))
  }

  ghost predicate IsDir(k: set<Path>, d: Path) {
    d == [] || exists p :: p in k && d < p
  }

  /** `n` is listed in directory `d`. */
  ghost predicate Named(k: set<Path>, d: Path, n: string) {
    exists p :: p in k && d + [n] <= p
  }

  ghost function Names(k: set<Path>, d: Path): (s: set<string>)
    ensures forall n :: n in s <==> Named(k, d, n)
  {
    var s := set p | p in k && d < p :: p[|d|];
    forall n ensures n in s <==> Named(k, d, n) {
      NameIn(k, d, n);
    }
    s
  }

  lemma NameIn(k: set<Path>, d: Path, n: string)
    ensures Named(k, d, n) <==> exists p :: p in k && d < p && p[|d|] == n
  {
    if p :| p in k && d < p && p[|d|] == n {
      assert d + [n] <= p;
    }
    if Named(k, d, n) {
      var p :| p in k && d + [n] <= p;
      assert p[..|d|] == d && p[|d|] == n;
    }
  }

  ghost function MaxLen(k: set<Path>): (n: nat)
    ensures forall p :: p in k ==> |p| <= n
  {
    if k == {} then 0
    else
      var p :| p in k;
      var rest := MaxLen(k - {p});
      if |p| > rest then |p| else rest
  }

  ghost function Height(k: set<Path>, d: Path): nat {
    if |d| < MaxLen(k) then MaxLen(k) - |d| else 0
  }

  /** The hash of a directory, by recursion over the index. */
  ghost function DirHash(h: Hashes, rows: Rows, d: Path): NodeHash
    decreases Height(rows.Keys, d), 0
  {
    Listing(set n | n in Names(rows.Keys, d) :: EntryOf(h, rows, d, n))
  }

  ghost function EntryOf(h: Hashes, rows: Rows, d: Path, n: string): Entry
    requires Named(rows.Keys, d, n)
    decreases Height(rows.Keys, d), 0, 0
  {
    if d + [n] in rows then Entry(n, LeafHash(h, d + [n], rows[d + [n]]), false)
    else
      Deeper(rows.Keys, d, n);
      Entry(n, DirHash(h, rows, d + [n]), true)
  }

  /** A name that is not a leaf leads to a deeper path. */
  lemma Deeper(k: set<Path>, d: Path, n: string)
    requires Named(k, d, n) && d + [n] !in k
    ensures IsDir(k, d + [n]) && Height(k, d + [n]) < Height(k, d)
  {
    var p :| p in k && d + [n] <= p;
    assert d + [n] != p;
    assert |d + [n]| < |p| <= MaxLen(k);
  }

  /** Everything a directory hash says about one name. */
  lemma EntryIn(h: Hashes, rows: Rows, d: Path, e: Entry)
    ensures e in DirHash(h, rows, d).entries <==> Named(rows.Keys, d, e.name) && e == EntryOf(h, rows, d, e.name)
  {
  }

  // ------------------------------------------------------------ exact pruning

  /** The leaf at `p` exists on both sides with the same hashed fields. */
  ghost predicate SameLeaf(h: Hashes, a: Rows, b: Rows, p: Path) {
    p in a && p in b && LeafHash(h, p, a[p]) == LeafHash(h, p, b[p])
  }

  /** Equal leaf hashes say that kind, content, identity, metadata hash and vector are all equal, and nothing less. */
  lemma SameLeafMeans(h: Hashes, a: Rows, b: Rows, p: Path)
    requires p in a && p in b
    ensures SameLeaf(h, a, b, p) <==>
            && a[p].tombstone == b[p].tombstone && a[p].vv == b[p].vv && h.MetaHash(a[p].meta) == h.MetaHash(b[p].meta)
            && OrZero(a[p].hash) == OrZero(b[p].hash) && OrZero(a[p].uuid) == OrZero(b[p].uuid)
  {
  }

  /** A missing hash or identity is hashed as zeros. */
  function OrZero(x: Option<nat>): nat {
    if x.Some? then x.value else 0
  }

  /** The two indexes agree on everything under `d`. */
  ghost predicate SameBelow(h: Hashes, a: Rows, b: Rows, d: Path) {
    forall p {:trigger SameLeaf(h, a, b, p)} :: d < p && (p in a || p in b) ==> SameLeaf(h, a, b, p)
  }

  /** Pruning is sound: a leaf under equal directory hashes is on both sides. */
  lemma {:induction false} EqualHashSameLeaf(h: Hashes, a: Rows, b: Rows, d: Path, p: Path)
    requires TreeShaped(a.Keys) && DirHash(h, a, d) == DirHash(h, b, d) && p in a && d < p
    ensures SameLeaf(h, a, b, p)
    decreases |p| - |d|
  {
    var n := p[|d|];
    assert d + [n] <= p;
    var e := EntryOf(h, a, d, n);
    EntryIn(h, a, d, e);
    EntryIn(h, b, d, e);
    if d + [n] in a {
      assert !(d + [n] < p);
      assert p == d + [n];
    } else {
      assert d + [n] != p;
      EqualHashSameLeaf(h, a, b, d + [n], p);
    }
  }

  lemma SameNames(h: Hashes, a: Rows, b: Rows, d: Path, n: string)
    requires SameBelow(h, a, b, d) && Named(a.Keys, d, n)
    ensures Named(b.Keys, d, n) && SameBelow(h, a, b, d + [n])
    ensures d + [n] in a || d + [n] in b ==> SameLeaf(h, a, b, d + [n])
  {
    var p :| p in a.Keys && d + [n] <= p;
    assert d < p && d < d + [n];
    assert SameLeaf(h, a, b, p);
    assert p in b.Keys && d + [n] <= p;
    forall q | d + [n] < q && (q in a || q in b) ensures SameLeaf(h, a, b, q) {
      assert d < q;
    }
  }

  lemma SameBelowSymmetric(h: Hashes, a: Rows, b: Rows, d: Path)
    requires SameBelow(h, a, b, d)
    ensures SameBelow(h, b, a, d)
  {
    forall p | d < p && (p in a || p in b) ensures SameLeaf(h, b, a, p) {
      assert SameLeaf(h, a, b, p);
    }
  }

  /** Pruning is complete: equal rows underneath give equal hashes. */
  lemma {:induction false} SameRowsEqualHash(h: Hashes, a: Rows, b: Rows, d: Path)
    requires SameBelow(h, a, b, d)
    ensures DirHash(h, a, d) == DirHash(h, b, d)
    decreases Height(a.Keys, d)
  {
    SameBelowSymmetric(h, a, b, d);
    forall e ensures e in DirHash(h, a, d).entries <==> e in DirHash(h, b, d).entries {
      EntryIn(h, a, d, e);
      EntryIn(h, b, d, e);
      if Named(a.Keys, d, e.name) {
        SameNames(h, a, b, d, e.name);
        SameEntry(h, a, b, d, e.name);
      } else if Named(b.Keys, d, e.name) {
        SameNames(h, b, a, d, e.name);
      }
    }
  }

  lemma {:induction false} SameEntry(h: Hashes, a: Rows, b: Rows, d: Path, n: string)
    requires Named(a.Keys, d, n) && Named(b.Keys, d, n) && SameBelow(h, a, b, d + [n])
    requires d + [n] in a || d + [n] in b ==> SameLeaf(h, a, b, d + [n])
    ensures EntryOf(h, a, d, n) == EntryOf(h, b, d, n)
    decreases Height(a.Keys, d), 0
  {
    if d + [n] !in a {
      Deeper(a.Keys, d, n);
      SameRowsEqualHash(h, a, b, d + [n]);
    }
  }

  /** Two directories hash alike exactly when the rows under them are the same. */
  lemma PruningIsExact(h: Hashes, a: Rows, b: Rows, d: Path)
    requires TreeShaped(a.Keys) && TreeShaped(b.Keys)
    ensures DirHash(h, a, d) == DirHash(h, b, d) <==> SameBelow(h, a, b, d)
  {
    if DirHash(h, a, d) == DirHash(h, b, d) {
      forall p | d < p && (p in a || p in b) ensures SameLeaf(h, a, b, p) {
        if p in a {
          EqualHashSameLeaf(h, a, b, d, p);
        } else {
          EqualHashSameLeaf(h, b, a, d, p);
        }
      }
    }
    if SameBelow(h, a, b, d) {
      SameRowsEqualHash(h, a, b, d);
    }
  }

  // ------------------------------------------------------------------ building

  /** What a listing holds for `n` once the directories of `done` are hashed. */
  ghost function Expected(h: Hashes, rows: Rows, done: set<Path>, d: Path, n: string): Child {
    if d + [n] in rows then Child(LeafHash(h, d + [n], rows[d + [n]]), false)
    else if d + [n] in done then Child(DirHash(h, rows, d + [n]), true)
    else Child(Pending, true)
  }

  ghost predicate Lists(c: Children, h: Hashes, rows: Rows, done: set<Path>, d: Path) {
    forall n {:trigger Named(rows.Keys, d, n)} {:trigger n in c} ::
      (n in c <==> Named(rows.Keys, d, n)) && (n in c ==> c[n] == Expected(h, rows, done, d, n))
  }

  /** `d` is present exactly when it is a directory, and then lists what it should. */
  ghost predicate DirOk(dirs: Dirs, h: Hashes, rows: Rows, done: set<Path>, d: Path) {
    (d in dirs <==> IsDir(rows.Keys, d)) && (d in dirs ==> Lists(dirs[d], h, rows, done, d))
  }

  ghost predicate TreeOk(dirs: Dirs, h: Hashes, rows: Rows, done: set<Path>) {
    forall d {:trigger DirOk(dirs, h, rows, done, d)} :: DirOk(dirs, h, rows, done, d)
  }

  function Listed(dirs: Dirs, d: Path): Children {
    if d in dirs then dirs[d] else map[]
  }

  function Put(dirs: Dirs, d: Path, n: string, c: Child): Dirs {
    dirs[d := Listed(dirs, d)[n := c]]
  }

  /** Mid-way through entering `p`: its ancestors of depth `i` and more know it, the others do not. */
  ghost predicate EnterOk(dirs: Dirs, h: Hashes, rows: Rows, p: Path, row: Version, i: nat, d: Path) {
    if d < p && |d| >= i then d in dirs && Lists(dirs[d], h, rows[p := row], {}, d)
    else DirOk(dirs, h, rows, {}, d)
  }

  ghost predicate Entering(dirs: Dirs, h: Hashes, rows: Rows, p: Path, row: Version, i: nat) {
    forall d {:trigger EnterOk(dirs, h, rows, p, row, i, d)} :: EnterOk(dirs, h, rows, p, row, i, d)
  }

  /** What entering `p` writes into its ancestor at depth `i`. */
  function EntryFor(h: Hashes, p: Path, row: Version, i: nat): Child {
    if i + 1 == |p| then Child(LeafHash(h, p, row), false) else Child(Pending, true)
  }

  lemma NamedStep(k: set<Path>, p: Path, d: Path, n: string)
    ensures Named(k + {p}, d, n) <==> Named(k, d, n) || d + [n] <= p
  {
    if Named(k, d, n) {
      var q :| q in k && d + [n] <= q;
      assert q in k + {p};
    }
    if d + [n] <= p {
      assert p in k + {p};
    }
  }

  lemma NoNames(k: set<Path>, d: Path, n: string)
    requires !IsDir(k, d)
    ensures !Named(k, d, n)
  {
  }

  /** An absent directory lists nothing. */
  lemma ListedIs(dirs: Dirs, h: Hashes, rows: Rows, d: Path)
    requires DirOk(dirs, h, rows, {}, d)
    ensures Lists(Listed(dirs, d), h, rows, {}, d)
  {
    if d !in dirs {
      forall n ensures !Named(rows.Keys, d, n) {
        NoNames(rows.Keys, d, n);
      }
    }
  }

  /** One ancestor's listing, after its entry for `p` is written. */
  lemma ListsStep(c: Children, h: Hashes, rows: Rows, p: Path, row: Version, i: nat)
    requires TreeShaped(rows.Keys + {p}) && p !in rows && i < |p| && Lists(c, h, rows, {}, p[..i])
    ensures Lists(c[p[i] := EntryFor(h, p, row, i)], h, rows[p := row], {}, p[..i])
    ensures i + 1 < |p| && p[i] in c ==> c[p[i]] == Child(Pending, true)
  {
    var d, rows' := p[..i], rows[p := row];
    var c' := c[p[i] := EntryFor(h, p, row, i)];
    assert rows'.Keys == rows.Keys + {p};
    assert d + [p[i]] == p[..i + 1];
    assert i + 1 < |p| ==> p[..i + 1] < p;
    forall n ensures (n in c' <==> Named(rows'.Keys, d, n)) && (n in c' ==> c'[n] == Expected(h, rows', {}, d, n)) {
      NamedStep(rows.Keys, p, d, n);
      assert n in c <==> Named(rows.Keys, d, n);
      assert (d + [n])[i] == n;
      if n == p[i] {
        assert i + 1 == |p| ==> d + [n] == p;
      } else {
        assert !(d + [n] <= p);
      }
    }
  }

  lemma EnterLevelAt(dirs: Dirs, h: Hashes, rows: Rows, p: Path, row: Version, i: nat, d: Path)
    requires i < |p| && EnterOk(dirs, h, rows, p, row, i + 1, d) && d != p[..i]
    ensures EnterOk(Put(dirs, p[..i], p[i], EntryFor(h, p, row, i)), h, rows, p, row, i, d)
  {
    if d < p && |d| >= i {
      assert d == p[..|d|];
    }
  }

  /** Writing one ancestor's entry moves the frontier up one level. */
  lemma EnterLevel(dirs: Dirs, h: Hashes, rows: Rows, p: Path, row: Version, i: nat)
    requires TreeShaped(rows.Keys + {p}) && p !in rows && i < |p| && Entering(dirs, h, rows, p, row, i + 1)
    ensures Entering(Put(dirs, p[..i], p[i], EntryFor(h, p, row, i)), h, rows, p, row, i)
    ensures i + 1 < |p| && p[i] in Listed(dirs, p[..i]) ==> Listed(dirs, p[..i])[p[i]] == Child(Pending, true)
  {
    var d := p[..i];
    assert EnterOk(dirs, h, rows, p, row, i + 1, d);
    ListedIs(dirs, h, rows, d);
    ListsStep(Listed(dirs, d), h, rows, p, row, i);
    var out := Put(dirs, d, p[i], EntryFor(h, p, row, i));
    forall e ensures EnterOk(out, h, rows, p, row, i, e) {
      if e != d {
        assert EnterOk(dirs, h, rows, p, row, i + 1, e);
        EnterLevelAt(dirs, h, rows, p, row, i, e);
      }
    }
  }

  lemma StartEntering(dirs: Dirs, h: Hashes, rows: Rows, p: Path, row: Version)
    requires TreeOk(dirs, h, rows, {})
    ensures Entering(dirs, h, rows, p, row, |p|)
  {
    forall d ensures EnterOk(dirs, h, rows, p, row, |p|, d) {
      assert DirOk(dirs, h, rows, {}, d);
    }
  }

  /** A directory that is no ancestor of `p` does not see it. */
  lemma Elsewhere(dirs: Dirs, h: Hashes, rows: Rows, p: Path, row: Version, d: Path)
    requires p !in rows && p != [] && !(d < p) && DirOk(dirs, h, rows, {}, d)
    ensures DirOk(dirs, h, rows[p := row], {}, d)
  {
    var rows' := rows[p := row];
    assert rows'.Keys == rows.Keys + {p};
    assert d != [];
    assert IsDir(rows'.Keys, d) <==> IsDir(rows.Keys, d);
    if d in dirs {
      forall n ensures (n in dirs[d] <==> Named(rows'.Keys, d, n)) && (n in dirs[d] ==> dirs[d][n] == Expected(h, rows', {}, d, n)) {
        NamedStep(rows.Keys, p, d, n);
        assert d < d + [n];
        assert !(d + [n] <= p);
        assert n in dirs[d] <==> Named(rows.Keys, d, n);
      }
    }
  }

  lemma EnteredAll(dirs: Dirs, h: Hashes, rows: Rows, p: Path, row: Version)
    requires p !in rows && p != [] && Entering(dirs, h, rows, p, row, 0)
    ensures TreeOk(dirs, h, rows[p := row], {})
  {
    var rows' := rows[p := row];
    forall d ensures DirOk(dirs, h, rows', {}, d) {
      assert EnterOk(dirs, h, rows, p, row, 0, d);
      if d < p {
        assert p in rows'.Keys;
      } else {
        Elsewhere(dirs, h, rows, p, row, d);
      }
    }
  }

  /** Put a leaf into the listing of its own directory. */
  method EnterLeaf(h: Hashes, start: Dirs, ghost rows: Rows, p: Path, row: Version) returns (dirs: Dirs)
    requires TreeShaped(rows.Keys + {p}) && p !in rows && p != [] && TreeOk(start, h, rows, {})
    ensures Entering(dirs, h, rows, p, row, |p| - 1)
  {
    StartEntering(start, h, rows, p, row);
    EnterLevel(start, h, rows, p, row, |p| - 1);
    dirs := Put(start, Parent(p), Name(p), Child(LeafHash(h, p, row), false));
  }

  /** Make sure an ancestor directory is listed by its own parent. */
  method EnterAncestor(h: Hashes, start: Dirs, ghost rows: Rows, ghost p: Path, ghost row: Version, dir: Path) returns (dirs: Dirs)
    requires TreeShaped(rows.Keys + {p}) && p !in rows && dir != [] && |dir| < |p| && dir == p[..|dir|]
    requires Entering(start, h, rows, p, row, |dir|)
    ensures Entering(dirs, h, rows, p, row, |dir| - 1)
  {
    var up, name := Parent(dir), Name(dir);
    assert up == p[..|dir| - 1] && name == p[|dir| - 1];
    EnterLevel(start, h, rows, p, row, |dir| - 1);
    var kids := Listed(start, up);
    var entry := if name in kids then kids[name].(isDir := true) else Child(Pending, true);
    assert entry == EntryFor(h, p, row, |dir| - 1);
    dirs := Put(start, up, name, entry);
  }

  /** Enter one leaf and the chain of its ancestors. */
  method EnterRow(h: Hashes, start: Dirs, ghost rows: Rows, p: Path, row: Version) returns (dirs: Dirs)
    requires TreeShaped(rows.Keys + {p}) && p !in rows && p != [] && TreeOk(start, h, rows, {})
    ensures TreeOk(dirs, h, rows[p := row], {})
  {
    dirs := EnterLeaf(h, start, rows, p, row);
    var dir := Parent(p);
    while dir != []
      invariant |dir| < |p| && dir == p[..|dir|]
      invariant Entering(dirs, h, rows, p, row, |dir|)
      decreases |dir|
    {
      dirs := EnterAncestor(h, dirs, rows, p, row, dir);
      dir := Parent(dir);
    }
    EnteredAll(dirs, h, rows, p, row);
  }

  // ------------------------------------------------------- bottom-up hashing

  /** With all its subdirectories hashed, a listing hashes to the directory's hash. */
  lemma FinalListing(c: Children, h: Hashes, rows: Rows, done: set<Path>, d: Path)
    requires Lists(c, h, rows, done, d)
    requires forall n :: Named(rows.Keys, d, n) && d + [n] !in rows ==> d + [n] in done
    ensures HashChildren(c) == DirHash(h, rows, d)
  {
    forall e ensures e in HashChildren(c).entries <==> e in DirHash(h, rows, d).entries {
      EntryIn(h, rows, d, e);
      assert e in HashChildren(c).entries <==> e.name in c && e == Entry(e.name, c[e.name].hash, c[e.name].isDir);
      assert e.name in c <==> Named(rows.Keys, d, e.name);
    }
  }

  /** A directory other than the root is listed, as a directory, by its parent. */
  lemma ParentLists(rows: Rows, d: Path)
    requires TreeShaped(rows.Keys) && IsDir(rows.Keys, d) && d != []
    ensures d !in rows && Parent(d) + [Name(d)] == d
    ensures IsDir(rows.Keys, Parent(d)) && Named(rows.Keys, Parent(d), Name(d))
  {
    var p :| p in rows.Keys && d < p;
    assert Parent(d) < p && Parent(d) + [Name(d)] <= p;
  }

  lemma OtherParent(dirs: Dirs, h: Hashes, rows: Rows, done: set<Path>, d: Path, e: Path)
    requires DirOk(dirs, h, rows, done, e) && (d == [] || e != Parent(d))
    ensures DirOk(dirs, h, rows, done + {d}, e)
  {
    if e in dirs {
      forall n ensures (n in dirs[e] <==> Named(rows.Keys, e, n)) && (n in dirs[e] ==> dirs[e][n] == Expected(h, rows, done + {d}, e, n)) {
        assert Parent(e + [n]) == e;
        assert n in dirs[e] <==> Named(rows.Keys, e, n);
      }
    }
  }

  lemma ItsParent(c: Children, h: Hashes, rows: Rows, done: set<Path>, d: Path)
    requires d != [] && d !in rows && Parent(d) + [Name(d)] == d && Named(rows.Keys, Parent(d), Name(d))
    requires Lists(c, h, rows, done, Parent(d))
    ensures Name(d) in c && Lists(c[Name(d) := c[Name(d)].(hash := DirHash(h, rows, d))], h, rows, done + {d}, Parent(d))
  {
    var up := Parent(d);
    assert Name(d) in c;
    var c' := c[Name(d) := c[Name(d)].(hash := DirHash(h, rows, d))];
    forall n ensures (n in c' <==> Named(rows.Keys, up, n)) && (n in c' ==> c'[n] == Expected(h, rows, done + {d}, up, n)) {
      assert n in c <==> Named(rows.Keys, up, n);
      assert Name(up + [n]) == n;
    }
  }

  /** Recording one directory's hash in its parent. */
  lemma HashStep(dirs: Dirs, h: Hashes, rows: Rows, done: set<Path>, d: Path)
    requires TreeShaped(rows.Keys) && TreeOk(dirs, h, rows, done) && d in dirs && d != []
    ensures Parent(d) in dirs && Name(d) in dirs[Parent(d)]
    ensures var c := dirs[Parent(d)][Name(d)];
            TreeOk(Put(dirs, Parent(d), Name(d), c.(hash := DirHash(h, rows, d))), h, rows, done + {d})
  {
    assert DirOk(dirs, h, rows, done, d);
    ParentLists(rows, d);
    var up := Parent(d);
    assert DirOk(dirs, h, rows, done, up);
    ItsParent(dirs[up], h, rows, done, d);
    var out := Put(dirs, up, Name(d), dirs[up][Name(d)].(hash := DirHash(h, rows, d)));
    var done' := done + {d};
    forall e ensures DirOk(out, h, rows, done', e) {
      assert DirOk(dirs, h, rows, done, e);
      if e != up {
        OtherParent(dirs, h, rows, done, d, e);
      }
    }
  }

  lemma RootHasNoParent(dirs: Dirs, h: Hashes, rows: Rows, done: set<Path>)
    requires TreeOk(dirs, h, rows, done)
    ensures TreeOk(dirs, h, rows, done + {[]})
  {
    var done' := done + {[]};
    forall e ensures DirOk(dirs, h, rows, done', e) {
      assert DirOk(dirs, h, rows, done, e);
      OtherParent(dirs, h, rows, done, [], e);
    }
  }

  /** `order` holds the directories of the index in text order. */
  ghost predicate Ordered(order: seq<Path>, k: set<Path>) {
    Sorted(order) && forall d :: d in order <==> IsDir(k, d)
  }

  ghost function From(order: seq<Path>, i: nat): set<Path> {
    set j | i <= j < |order| :: order[j]
  }

  lemma FromStep(order: seq<Path>, i: nat)
    requires i < |order|
    ensures From(order, i) == From(order, i + 1) + {order[i]}
  {
  }

  /** Reverse text order: every subdirectory is hashed before its directory. */
  lemma ChildDone(rows: Rows, order: seq<Path>, i: nat, n: string)
    requires TreeShaped(rows.Keys) && Ordered(order, rows.Keys) && i < |order|
    requires Named(rows.Keys, order[i], n) && order[i] + [n] !in rows
    ensures order[i] + [n] in From(order, i + 1)
  {
    var e := order[i] + [n];
    Deeper(rows.Keys, order[i], n);
    NormalDir(rows.Keys, e);
    assert e in order;
    LaterInOrder(order, i, e);
  }

  lemma NormalDir(k: set<Path>, d: Path)
    requires TreeShaped(k) && IsDir(k, d)
    ensures Normal(d)
  {
    if d != [] {
      var p :| p in k && d < p;
      NormalPrefix(p, d);
    }
  }

  lemma NormalPrefix(p: Path, d: Path)
    requires Normal(p) && d <= p
    ensures Normal(d)
  {
    forall i | 0 <= i < |d| ensures d[i] != "" && Free(d[i], '/') {
      assert d[i] == p[i];
    }
  }

  lemma LaterInOrder(order: seq<Path>, i: nat, e: Path)
    requires Sorted(order) && i < |order| && e in order && Normal(e) && e != [] && Parent(e) == order[i]
    ensures e in From(order, i + 1)
  {
    var j :| 0 <= j < |order| && order[j] == e;
    ContentsAfter(order, i, j);
  }

  /** Hash one directory and patch the hash into its parent's listing. */
  method HashOne(h: Hashes, start: Dirs, ghost rows: Rows, ghost order: seq<Path>, ghost i: nat, d: Path) returns (dirs: Dirs, hash: NodeHash)
    requires TreeShaped(rows.Keys) && Ordered(order, rows.Keys) && i < |order| && d == order[i]
    requires TreeOk(start, h, rows, From(order, i + 1))
    ensures TreeOk(dirs, h, rows, From(order, i)) && hash == DirHash(h, rows, d)
  {
    FromStep(order, i);
    ReadyToHash(h, start, rows, order, i);
    hash := HashChildren(start[d]);
    if d == [] {
      RootHasNoParent(start, h, rows, From(order, i + 1));
      dirs := start;
    } else {
      HashStep(start, h, rows, From(order, i + 1), d);
      dirs := Put(start, Parent(d), Name(d), start[Parent(d)][Name(d)].(hash := hash));
    }
  }

  lemma ReadyToHash(h: Hashes, dirs: Dirs, rows: Rows, order: seq<Path>, i: nat)
    requires TreeShaped(rows.Keys) && Ordered(order, rows.Keys) && i < |order|
    requires TreeOk(dirs, h, rows, From(order, i + 1))
    ensures order[i] in dirs && HashChildren(dirs[order[i]]) == DirHash(h, rows, order[i])
  {
    var d, done := order[i], From(order, i + 1);
    assert d in order;
    assert DirOk(dirs, h, rows, done, d);
    forall n | Named(rows.Keys, d, n) && d + [n] !in rows ensures d + [n] in done {
      ChildDone(rows, order, i, n);
    }
    FinalListing(dirs[d], h, rows, done, d);
  }

  /** A finished tree: each directory of the index, with the final hash of each child. */
  ghost predicate IsTree(dirs: Dirs, h: Hashes, rows: Rows) {
    forall d {:trigger FinalAt(dirs, h, rows, d)} :: FinalAt(dirs, h, rows, d)
  }

  ghost predicate FinalAt(dirs: Dirs, h: Hashes, rows: Rows, d: Path) {
    && (d in dirs <==> IsDir(rows.Keys, d))
    && (d in dirs ==> forall n {:trigger Named(rows.Keys, d, n)} {:trigger n in dirs[d]} ::
                        && (n in dirs[d] <==> Named(rows.Keys, d, n))
                        && (n in dirs[d] ==> Entry(n, dirs[d][n].hash, dirs[d][n].isDir) == EntryOf(h, rows, d, n)))
  }

  lemma AllDone(dirs: Dirs, h: Hashes, rows: Rows, done: set<Path>)
    requires TreeOk(dirs, h, rows, done) && forall d :: IsDir(rows.Keys, d) ==> d in done
    ensures IsTree(dirs, h, rows)
  {
    forall d ensures FinalAt(dirs, h, rows, d) {
      assert DirOk(dirs, h, rows, done, d);
      if d in dirs {
        forall n | Named(rows.Keys, d, n) ensures n in dirs[d] && Entry(n, dirs[d][n].hash, dirs[d][n].isDir) == EntryOf(h, rows, d, n) {
          if d + [n] !in rows {
            Deeper(rows.Keys, d, n);
          }
        }
      }
    }
  }

  lemma OrderedKeys(dirs: Dirs, h: Hashes, rows: Rows, order: seq<Path>)
    requires TreeOk(dirs, h, rows, {}) && Sorted(order) && forall d :: d in order <==> d in dirs.Keys
    ensures Ordered(order, rows.Keys)
  {
    forall d ensures d in order <==> IsDir(rows.Keys, d) {
      assert DirOk(dirs, h, rows, {}, d);
    }
  }

  lemma FromAll(order: seq<Path>, k: set<Path>)
    requires Ordered(order, k)
    ensures From(order, |order|) == {} && forall d :: IsDir(k, d) ==> d in From(order, 0)
  {
    forall d | IsDir(k, d) ensures d in From(order, 0) {
      assert d in order;
    }
  }

  /** The second half of `build`: hash listings in reverse text order, so bottom up. */
  method HashDirs(h: Hashes, start: Dirs, ghost rows: Rows) returns (dirs: Dirs, root: NodeHash)
    requires TreeShaped(rows.Keys) && TreeOk(start, h, rows, {})
    ensures IsTree(dirs, h, rows) && root == DirHash(h, rows, [])
  {
    dirs := start;
    var order := SortedKeys(dirs.Keys);
    OrderedKeys(dirs, h, rows, order);
    FromAll(order, rows.Keys);
    var i := |order|;
    root := Pending;
    while i > 0
      invariant 0 <= i <= |order|
      invariant TreeOk(dirs, h, rows, From(order, i))
      invariant [] in From(order, i) ==> root == DirHash(h, rows, [])
    {
      i := i - 1;
      FromStep(order, i);
      var hash: NodeHash;
      dirs, hash := HashOne(h, dirs, rows, order, i, order[i]);
      if order[i] == [] {
        root := hash;
      }
    }
    AllDone(dirs, h, rows, From(order, 0));
  }

  lemma EmptyTree(h: Hashes)
    ensures TreeOk(map[[] := map[]], h, map[], {})
  {
    var dirs: Dirs := map[[] := map[]];
    var rows: Rows := map[];
    forall d ensures DirOk(dirs, h, rows, {}, d) {
    }
  }

  lemma ShapedPart(k: set<Path>, part: set<Path>)
    requires TreeShaped(k) && part <= k
    ensures TreeShaped(part)
  {
  }

  lemma PartStep(entered: Rows, rows: Rows, todo: set<Path>, p: Path)
    requires TreeShaped(rows.Keys) && Part(entered, rows, todo) && p in todo
    ensures p in rows && p !in entered && p != [] && TreeShaped(entered.Keys + {p})
    ensures Part(entered[p := rows[p]], rows, todo - {p})
  {
    ShapedPart(rows.Keys, entered.Keys + {p});
    assert entered[p := rows[p]].Keys == entered.Keys + {p};
  }

  /**
   `MerkleTree::build`: every directory of the index is listed with the final
   hash of each child, so a directory is hashed only after all below it.
   */
  method Build(h: Hashes, rows: Rows) returns (dirs: Dirs, root: NodeHash)
    requires TreeShaped(rows.Keys)
    ensures IsTree(dirs, h, rows) && root == DirHash(h, rows, [])
  {
    dirs := map[[] := map[]];
    EmptyTree(h);
    var todo := rows.Keys;
    ghost var entered: Rows := map[];
    while todo != {}
      invariant Part(entered, rows, todo) && TreeOk(dirs, h, entered, {})
      decreases |todo|
    {
      var p :| p in todo;
      PartStep(entered, rows, todo, p);
      dirs := EnterRow(h, dirs, entered, p, rows[p]);
      entered := entered[p := rows[p]];
      todo := todo - {p};
    }
    assert entered == rows;
    dirs, root := HashDirs(h, dirs, rows);
  }
}

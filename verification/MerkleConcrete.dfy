/**
 Merkle trees with real hashes: the byte strings of directories (src/merkle.rs)
 have no length prefixes, yet in trees built from an index they determine
 everything below, because every leaf hash covers the leaf's full path. This is
 what lets `MerkleTrees` compute with terms instead.
 */
module MerkleConcrete {
  import opened Basics
  import opened SignedEntries
  import opened MerkleBytes
  import opened Versions
  import opened TreePaths
  import opened MerkleTrees

  /** How names and leaf fields are written as bytes, and the hash function. */
  datatype Coding = Coding(text: string -> Bytes, fields: LeafKey -> LeafFields, hash: Bytes -> Bytes)

  // ---------------------------------------------------------- the hashed strings

  lemma {:induction false} LargestExists(s: set<string>)
    requires s != {}
    ensures exists m :: m in s && forall x :: x in s ==> StrLeq(x, m)
  {
    var x :| x in s;
    if s == {x} {
      StrTotal(x, x);
    } else {
      var rest := s - {x};
      LargestExists(rest);
      var m :| m in rest && forall y :: y in rest ==> StrLeq(y, m);
      StrTotal(x, m);
      StrTotal(x, x);
      var top := if StrLeq(x, m) then m else x;
      forall y | y in s ensures StrLeq(y, top) {
        if y != x && top == x {
          StrTransitive(y, m, x);
        }
      }
    }
  }

  /** The names of a directory in the order its sorted map lists them. */
  ghost function Order(s: set<string>): (ns: seq<string>)
    ensures forall n :: n in ns <==> n in s
  {
    if s == {} then []
    else
      LargestExists(s);
      var m :| m in s && forall x :: x in s ==> StrLeq(x, m);
      Order(s - {m}) + [m]
  }

  function KeyAt(h: Hashes, rows: Rows, p: Path): LeafKey
    requires p in rows
  {
    LeafHash(h, p, rows[p]).key
  }

  ghost function LeafString(cd: Coding, h: Hashes, rows: Rows, p: Path): Bytes
    requires p in rows
  {
    LeafBytes(cd.fields(KeyAt(h, rows, p)))
  }

  ghost predicate AllNamed(rows: Rows, d: Path, ns: seq<string>) {
    forall i :: 0 <= i < |ns| ==> Named(rows.Keys, d, ns[i])
  }

  /** What is hashed for a directory: each child's name, 0x01, flag and hash, in order. */
  ghost function DirString(cd: Coding, h: Hashes, rows: Rows, d: Path): Bytes
    decreases Height(rows.Keys, d), 1, 0, 0
  {
    var ns := Order(Names(rows.Keys, d));
    OrderNamed(rows, d);
    ListString(cd, h, rows, d, ns)
  }

  ghost function ListString(cd: Coding, h: Hashes, rows: Rows, d: Path, ns: seq<string>): Bytes
    requires AllNamed(rows, d, ns)
    decreases Height(rows.Keys, d), 0, |ns|, 1
  {
    if ns == [] then []
    else ListString(cd, h, rows, d, ns[..|ns| - 1]) + ChildString(cd, h, rows, d, ns[|ns| - 1])
  }

  ghost function ChildString(cd: Coding, h: Hashes, rows: Rows, d: Path, n: string): Bytes
    requires Named(rows.Keys, d, n)
    decreases Height(rows.Keys, d), 0, 0, 0
  {
    cd.text(n) + [1] + (Flag(d + [n] !in rows) +
                        if d + [n] in rows then cd.hash(LeafString(cd, h, rows, d + [n]))
                        else
                          Deeper(rows.Keys, d, n);
                          cd.hash(DirString(cd, h, rows, d + [n])))
  }

  /** The hash a child contributes. */
  ghost function ChildHash(cd: Coding, h: Hashes, rows: Rows, d: Path, n: string): Bytes
    requires Named(rows.Keys, d, n)
  {
    if d + [n] in rows then cd.hash(LeafString(cd, h, rows, d + [n])) else cd.hash(DirString(cd, h, rows, d + [n]))
  }

  lemma OrderNamed(rows: Rows, d: Path)
    ensures AllNamed(rows, d, Order(Names(rows.Keys, d)))
  {
    var ns := Order(Names(rows.Keys, d));
    forall i | 0 <= i < |ns| ensures Named(rows.Keys, d, ns[i]) {
      assert ns[i] in ns;
    }
  }

  lemma ChildStringIs(cd: Coding, h: Hashes, rows: Rows, d: Path, n: string)
    requires Named(rows.Keys, d, n)
    ensures ChildString(cd, h, rows, d, n) == cd.text(n) + [1] + (Flag(d + [n] !in rows) + ChildHash(cd, h, rows, d, n))
  {
  }

  // ----------------------------------------------------------- what is assumed

  /** Leaf fields have their widths and are told apart, and so are the strings hashed in the two trees. */
  ghost predicate Faithful(cd: Coding, h: Hashes, a: Rows, b: Rows) {
    Wide(cd) && LeavesTold(cd, h, a, b) && DirsTold(cd, h, a, b)
  }

  /** A hash is 32 bytes. */
  ghost predicate Wide(cd: Coding) {
    forall x :: |cd.hash(x)| == 32
  }

  ghost predicate LeavesTold(cd: Coding, h: Hashes, a: Rows, b: Rows) {
    forall p, q {:trigger KeyAt(h, a, p), KeyAt(h, b, q)} :: p in a && q in b ==> LeafTold(cd, h, a, b, p, q)
  }

  ghost predicate DirsTold(cd: Coding, h: Hashes, a: Rows, b: Rows) {
    forall d, e {:trigger DirString(cd, h, a, d), DirString(cd, h, b, e)} :: IsDir(a.Keys, d) && IsDir(b.Keys, e) ==> DirTold(cd, h, a, b, d, e)
  }

  /** Different leaves have different fields, and their strings different hashes. */
  ghost predicate LeafTold(cd: Coding, h: Hashes, a: Rows, b: Rows, p: Path, q: Path)
    requires p in a && q in b
  {
    && SizedLeaf(cd.fields(KeyAt(h, a, p))) && SizedLeaf(cd.fields(KeyAt(h, b, q)))
    && (cd.fields(KeyAt(h, a, p)) == cd.fields(KeyAt(h, b, q)) ==> KeyAt(h, a, p) == KeyAt(h, b, q))
    && (cd.hash(LeafString(cd, h, a, p)) == cd.hash(LeafString(cd, h, b, q)) ==> LeafString(cd, h, a, p) == LeafString(cd, h, b, q))
  }

  ghost predicate DirTold(cd: Coding, h: Hashes, a: Rows, b: Rows, d: Path, e: Path) {
    cd.hash(DirString(cd, h, a, d)) == cd.hash(DirString(cd, h, b, e)) ==> DirString(cd, h, a, d) == DirString(cd, h, b, e)
  }

  lemma LeafHashTells(cd: Coding, h: Hashes, a: Rows, b: Rows, p: Path, q: Path)
    requires Faithful(cd, h, a, b) && p in a && q in b && cd.hash(LeafString(cd, h, a, p)) == cd.hash(LeafString(cd, h, b, q))
    ensures p == q && KeyAt(h, a, p) == KeyAt(h, b, q)
  {
    assert LeafTold(cd, h, a, b, p, q);
    LeafDetermined(cd.fields(KeyAt(h, a, p)), cd.fields(KeyAt(h, b, q)));
  }

  lemma DirHashTells(cd: Coding, h: Hashes, a: Rows, b: Rows, d: Path, e: Path)
    requires Faithful(cd, h, a, b) && IsDir(a.Keys, d) && IsDir(b.Keys, e) && cd.hash(DirString(cd, h, a, d)) == cd.hash(DirString(cd, h, b, e))
    ensures DirString(cd, h, a, d) == DirString(cd, h, b, e)
  {
    assert DirTold(cd, h, a, b, d, e);
  }

  // ------------------------------------------------------------- the last child

  /** Strings that end in a flag and a 32-byte hash end in the same ones if they are equal. */
  lemma SameEnd(s: Bytes, x: bool, u: Bytes, t: Bytes, y: bool, v: Bytes)
    requires |u| == 32 && |v| == 32 && s + (Flag(x) + u) == t + (Flag(y) + v)
    ensures s == t && x == y && u == v
  {
    assert |s + (Flag(x) + u)| == |s| + 33 && |t + (Flag(y) + v)| == |t| + 33;
    Split(s, Flag(x) + u, t, Flag(y) + v);
    Split(Flag(x), u, Flag(y), v);
    assert Flag(x)[0] == Flag(y)[0];
  }

  /** Equal listings, not both empty, end in a child of the same kind and hash, after equal beginnings. */
  lemma SameLastChild(cd: Coding, h: Hashes, a: Rows, b: Rows, d: Path, e: Path, ns: seq<string>, ms: seq<string>)
    requires Wide(cd) && AllNamed(a, d, ns) && AllNamed(b, e, ms) && ns != [] && ms != []
    requires ListString(cd, h, a, d, ns) == ListString(cd, h, b, e, ms)
    ensures var n, m := ns[|ns| - 1], ms[|ms| - 1];
            && (d + [n] in a <==> e + [m] in b) && ChildHash(cd, h, a, d, n) == ChildHash(cd, h, b, e, m)
            && ListString(cd, h, a, d, ns[..|ns| - 1]) + cd.text(n) + [1] == ListString(cd, h, b, e, ms[..|ms| - 1]) + cd.text(m) + [1]
  {
    EndsInChild(cd, h, a, d, ns);
    EndsInChild(cd, h, b, e, ms);
    var n, m := ns[|ns| - 1], ms[|ms| - 1];
    var s, t := ListString(cd, h, a, d, ns[..|ns| - 1]), ListString(cd, h, b, e, ms[..|ms| - 1]);
    SameEnd(s + cd.text(n) + [1], d + [n] !in a, ChildHash(cd, h, a, d, n), t + cd.text(m) + [1], e + [m] !in b, ChildHash(cd, h, b, e, m));
  }

  lemma EndsInChild(cd: Coding, h: Hashes, rows: Rows, d: Path, ns: seq<string>)
    requires Wide(cd) && AllNamed(rows, d, ns) && ns != []
    ensures var n := ns[|ns| - 1];
            && |ChildHash(cd, h, rows, d, n)| == 32
            && ListString(cd, h, rows, d, ns) ==
               ListString(cd, h, rows, d, ns[..|ns| - 1]) + cd.text(n) + [1] + (Flag(d + [n] !in rows) + ChildHash(cd, h, rows, d, n))
  {
    ChildStringIs(cd, h, rows, d, ns[|ns| - 1]);
  }

  /** Where following the last child ends. */
  ghost function LastPath(rows: Rows, d: Path): Path
    requires Names(rows.Keys, d) != {}
    decreases Height(rows.Keys, d)
  {
    var n := LastName(rows, d);
    if d + [n] in rows then d + [n]
    else
      Deeper(rows.Keys, d, n);
      DirsHaveNames(rows.Keys, d + [n]);
      LastPath(rows, d + [n])
  }

  ghost function LastName(rows: Rows, d: Path): (n: string)
    requires Names(rows.Keys, d) != {}
    ensures Named(rows.Keys, d, n)
  {
    var ns := Order(Names(rows.Keys, d));
    OrderNamed(rows, d);
    OrderNonEmpty(rows, d);
    ns[|ns| - 1]
  }

  lemma OrderNonEmpty(rows: Rows, d: Path)
    requires Names(rows.Keys, d) != {}
    ensures Order(Names(rows.Keys, d)) != []
  {
    var n :| n in Names(rows.Keys, d);
    assert n in Order(Names(rows.Keys, d));
  }

  lemma DirsHaveNames(k: set<Path>, d: Path)
    requires d != [] && IsDir(k, d)
    ensures Names(k, d) != {}
  {
    var p :| p in k && d < p;
    assert d + [p[|d|]] <= p;
    assert Named(k, d, p[|d|]);
  }

  lemma {:induction false} LastPathBelow(rows: Rows, d: Path)
    requires Names(rows.Keys, d) != {}
    ensures d + [LastName(rows, d)] <= LastPath(rows, d)
    decreases Height(rows.Keys, d)
  {
    var n := LastName(rows, d);
    if d + [n] !in rows {
      Deeper(rows.Keys, d, n);
      DirsHaveNames(rows.Keys, d + [n]);
      LastPathBelow(rows, d + [n]);
      assert d + [n] <= d + [n] + [LastName(rows, d + [n])];
    }
  }

  /** Directories with equal strings, wherever they are, have the same last leaf. */
  lemma {:induction false} SameLastLeaf(cd: Coding, h: Hashes, a: Rows, b: Rows, d: Path, e: Path)
    requires Faithful(cd, h, a, b) && Names(a.Keys, d) != {} && Names(b.Keys, e) != {}
    requires DirString(cd, h, a, d) == DirString(cd, h, b, e)
    ensures LastPath(a, d) == LastPath(b, e)
    decreases Height(a.Keys, d)
  {
    var n, m := LastName(a, d), LastName(b, e);
    LastChildren(cd, h, a, b, d, e);
    if d + [n] in a {
      LeafHashTells(cd, h, a, b, d + [n], e + [m]);
    } else {
      Deeper(a.Keys, d, n);
      Deeper(b.Keys, e, m);
      DirHashTells(cd, h, a, b, d + [n], e + [m]);
      DirsHaveNames(a.Keys, d + [n]);
      DirsHaveNames(b.Keys, e + [m]);
      SameLastLeaf(cd, h, a, b, d + [n], e + [m]);
    }
  }

  lemma LastChildren(cd: Coding, h: Hashes, a: Rows, b: Rows, d: Path, e: Path)
    requires Faithful(cd, h, a, b) && Names(a.Keys, d) != {} && Names(b.Keys, e) != {}
    requires DirString(cd, h, a, d) == DirString(cd, h, b, e)
    ensures var n, m := LastName(a, d), LastName(b, e);
            (d + [n] in a <==> e + [m] in b) && ChildHash(cd, h, a, d, n) == ChildHash(cd, h, b, e, m)
  {
    OrderNamed(a, d);
    OrderNamed(b, e);
    OrderNonEmpty(a, d);
    OrderNonEmpty(b, e);
    SameLastChild(cd, h, a, b, d, e, Order(Names(a.Keys, d)), Order(Names(b.Keys, e)));
  }

  /** Two children of one directory with the same kind and hash have the same name. */
  lemma SameName(cd: Coding, h: Hashes, a: Rows, b: Rows, d: Path, n: string, m: string)
    requires Faithful(cd, h, a, b) && Named(a.Keys, d, n) && Named(b.Keys, d, m)
    requires (d + [n] in a <==> d + [m] in b) && ChildHash(cd, h, a, d, n) == ChildHash(cd, h, b, d, m)
    ensures n == m && SameChild(cd, h, a, b, d, n)
  {
    if d + [n] in a {
      LeafHashTells(cd, h, a, b, d + [n], d + [m]);
      assert (d + [n])[|d|] == (d + [m])[|d|];
    } else {
      Deeper(a.Keys, d, n);
      Deeper(b.Keys, d, m);
      DirHashTells(cd, h, a, b, d + [n], d + [m]);
      DirsHaveNames(a.Keys, d + [n]);
      DirsHaveNames(b.Keys, d + [m]);
      SameLastLeaf(cd, h, a, b, d + [n], d + [m]);
      LastPathBelow(a, d + [n]);
      LastPathBelow(b, d + [m]);
      NameInPath(d, n, LastPath(a, d + [n]), [LastName(a, d + [n])]);
      NameInPath(d, m, LastPath(b, d + [m]), [LastName(b, d + [m])]);
    }
  }

  lemma NameInPath(d: Path, n: string, p: Path, rest: Path)
    requires d + [n] + rest <= p
    ensures |d| < |p| && p[|d|] == n
  {
    assert (d + [n] + rest)[|d|] == n;
  }

  /** The child `n` is on both sides, of one kind, with the same leaf or the same string. */
  ghost predicate SameChild(cd: Coding, h: Hashes, a: Rows, b: Rows, d: Path, n: string) {
    && Named(a.Keys, d, n) && Named(b.Keys, d, n) && (d + [n] in a <==> d + [n] in b)
    && (if d + [n] in a then SameLeaf(h, a, b, d + [n]) else DirString(cd, h, a, d + [n]) == DirString(cd, h, b, d + [n]))
  }

  /** Equal listings at one directory, read from the end, are the same children. */
  lemma {:induction false} SameListing(cd: Coding, h: Hashes, a: Rows, b: Rows, d: Path, ns: seq<string>, ms: seq<string>)
    requires Faithful(cd, h, a, b) && AllNamed(a, d, ns) && AllNamed(b, d, ms)
    requires ListString(cd, h, a, d, ns) == ListString(cd, h, b, d, ms)
    ensures ns == ms && forall i :: 0 <= i < |ns| ==> SameChild(cd, h, a, b, d, ns[i])
    decreases |ns|
  {
    OnlyEmptyIsEmpty(cd, h, a, d, ns);
    OnlyEmptyIsEmpty(cd, h, b, d, ms);
    if ns != [] {
      SameLastChild(cd, h, a, b, d, d, ns, ms);
      var n, m := ns[|ns| - 1], ms[|ms| - 1];
      var s, t := ListString(cd, h, a, d, ns[..|ns| - 1]), ListString(cd, h, b, d, ms[..|ms| - 1]);
      LastSame(cd, h, a, b, d, n, m, s, t);
      SameListing(cd, h, a, b, d, ns[..|ns| - 1], ms[..|ms| - 1]);
      SameSnoc(cd, h, a, b, d, ns, ms);
    }
  }

  lemma SameSnoc(cd: Coding, h: Hashes, a: Rows, b: Rows, d: Path, ns: seq<string>, ms: seq<string>)
    requires ns != [] && ms != [] && ns[..|ns| - 1] == ms[..|ms| - 1] && ns[|ns| - 1] == ms[|ms| - 1]
    requires SameChild(cd, h, a, b, d, ns[|ns| - 1])
    requires var init := ns[..|ns| - 1]; forall i :: 0 <= i < |init| ==> SameChild(cd, h, a, b, d, init[i])
    ensures ns == ms && forall i :: 0 <= i < |ns| ==> SameChild(cd, h, a, b, d, ns[i])
  {
    Snoc(ns);
    Snoc(ms);
    var init := ns[..|ns| - 1];
    forall i | 0 <= i < |ns| ensures SameChild(cd, h, a, b, d, ns[i]) {
      assert i < |init| ==> ns[i] == init[i];
    }
  }

  lemma Snoc(ns: seq<string>)
    requires ns != []
    ensures ns == ns[..|ns| - 1] + [ns[|ns| - 1]]
  {
  }

  lemma LastSame(cd: Coding, h: Hashes, a: Rows, b: Rows, d: Path, n: string, m: string, s: Bytes, t: Bytes)
    requires Faithful(cd, h, a, b) && Named(a.Keys, d, n) && Named(b.Keys, d, m)
    requires (d + [n] in a <==> d + [m] in b) && ChildHash(cd, h, a, d, n) == ChildHash(cd, h, b, d, m)
    requires s + cd.text(n) + [1] == t + cd.text(m) + [1]
    ensures n == m && SameChild(cd, h, a, b, d, n) && s == t
  {
    SameName(cd, h, a, b, d, n, m);
    SameFront(s, t, cd.text(n));
  }

  lemma SameFront(s: Bytes, t: Bytes, name: Bytes)
    requires s + name + [1] == t + name + [1]
    ensures s == t
  {
    assert |s + name + [1]| == |s| + |name| + 1 && |t + name + [1]| == |t| + |name| + 1;
    assert s == (s + name + [1])[..|s|] && t == (t + name + [1])[..|t|];
  }

  lemma OnlyEmptyIsEmpty(cd: Coding, h: Hashes, rows: Rows, d: Path, ns: seq<string>)
    requires AllNamed(rows, d, ns)
    ensures ns == [] <==> ListString(cd, h, rows, d, ns) == []
  {
    if ns != [] {
      ChildStringIs(cd, h, rows, d, ns[|ns| - 1]);
    }
  }

  // ------------------------------------------------------------- the theorem

  /** Equal strings at one directory mean equal terms: pruning on real hashes is sound. */
  lemma {:induction false} StringsDetermine(cd: Coding, h: Hashes, a: Rows, b: Rows, d: Path)
    requires Faithful(cd, h, a, b) && DirString(cd, h, a, d) == DirString(cd, h, b, d)
    ensures DirHash(h, a, d) == DirHash(h, b, d)
    decreases Height(a.Keys, d)
  {
    var ns, ms := Order(Names(a.Keys, d)), Order(Names(b.Keys, d));
    OrderNamed(a, d);
    OrderNamed(b, d);
    SameListing(cd, h, a, b, d, ns, ms);
    forall e ensures e in DirHash(h, a, d).entries <==> e in DirHash(h, b, d).entries {
      EntryIn(h, a, d, e);
      EntryIn(h, b, d, e);
      assert Named(a.Keys, d, e.name) <==> e.name in ns;
      assert Named(b.Keys, d, e.name) <==> e.name in ms;
      if e.name in ns {
        assert SameChild(cd, h, a, b, d, e.name);
        if d + [e.name] !in a {
          Deeper(a.Keys, d, e.name);
          StringsDetermine(cd, h, a, b, d + [e.name]);
        }
      }
    }
  }

  /** Equal rows underneath give equal strings. */
  lemma {:induction false} RowsDetermineStrings(cd: Coding, h: Hashes, a: Rows, b: Rows, d: Path)
    requires SameBelow(h, a, b, d)
    ensures DirString(cd, h, a, d) == DirString(cd, h, b, d)
    decreases Height(a.Keys, d), 1, 0
  {
    SameBelowSymmetric(h, a, b, d);
    forall n ensures Named(a.Keys, d, n) <==> Named(b.Keys, d, n) {
      if Named(a.Keys, d, n) {
        SameNames(h, a, b, d, n);
      } else if Named(b.Keys, d, n) {
        SameNames(h, b, a, d, n);
      }
    }
    assert Names(a.Keys, d) == Names(b.Keys, d);
    OrderNamed(a, d);
    OrderNamed(b, d);
    ListsAlike(cd, h, a, b, d, Order(Names(a.Keys, d)));
  }

  lemma {:induction false} ListsAlike(cd: Coding, h: Hashes, a: Rows, b: Rows, d: Path, ns: seq<string>)
    requires SameBelow(h, a, b, d) && AllNamed(a, d, ns) && AllNamed(b, d, ns)
    ensures ListString(cd, h, a, d, ns) == ListString(cd, h, b, d, ns)
    decreases Height(a.Keys, d), 0, |ns|
  {
    if ns != [] {
      var n := ns[|ns| - 1];
      ListsAlike(cd, h, a, b, d, ns[..|ns| - 1]);
      SameNames(h, a, b, d, n);
      ChildStringIs(cd, h, a, d, n);
      ChildStringIs(cd, h, b, d, n);
      if d + [n] !in a {
        Deeper(a.Keys, d, n);
        RowsDetermineStrings(cd, h, a, b, d + [n]);
      }
    }
  }

  /**
   Real hashes prune exactly: for two indexes and a hash that tells apart the
   strings hashed for them, two directories at one path have equal hashes, equal
   strings, equal terms and equal rows underneath all at once.
   */
  lemma RealHashesPruneExactly(cd: Coding, h: Hashes, a: Rows, b: Rows, d: Path)
    requires Faithful(cd, h, a, b) && TreeShaped(a.Keys) && TreeShaped(b.Keys) && IsDir(a.Keys, d) && IsDir(b.Keys, d)
    ensures cd.hash(DirString(cd, h, a, d)) == cd.hash(DirString(cd, h, b, d)) <==> SameBelow(h, a, b, d)
    ensures DirString(cd, h, a, d) == DirString(cd, h, b, d) <==> DirHash(h, a, d) == DirHash(h, b, d)
    ensures DirHash(h, a, d) == DirHash(h, b, d) <==> SameBelow(h, a, b, d)
  {
    PruningIsExact(h, a, b, d);
    if cd.hash(DirString(cd, h, a, d)) == cd.hash(DirString(cd, h, b, d)) {
      DirHashTells(cd, h, a, b, d, d);
    }
    if DirString(cd, h, a, d) == DirString(cd, h, b, d) {
      StringsDetermine(cd, h, a, b, d);
    }
    if SameBelow(h, a, b, d) {
      RowsDetermineStrings(cd, h, a, b, d);
    }
  }

  /** No leaf of one tree hashes like a directory of the other. */
  ghost predicate Unmixed(cd: Coding, h: Hashes, a: Rows, b: Rows) {
    && (forall p, e {:trigger KeyAt(h, a, p), DirString(cd, h, b, e)} :: p in a && IsDir(b.Keys, e) ==> KindTold(cd, h, a, b, p, e))
    && (forall q, d {:trigger KeyAt(h, b, q), DirString(cd, h, a, d)} :: q in b && IsDir(a.Keys, d) ==> KindTold(cd, h, b, a, q, d))
  }

  ghost predicate KindTold(cd: Coding, h: Hashes, a: Rows, b: Rows, p: Path, e: Path)
    requires p in a
  {
    cd.hash(LeafString(cd, h, a, p)) != cd.hash(DirString(cd, h, b, e))
  }

  /**
   The pruning rule on real hashes, child by child: the hashes are equal, the
   flag not consulted, exactly when the child is the same leaf on both sides or
   a directory on both with the same rows underneath.
   */
  lemma RealPruneRule(cd: Coding, h: Hashes, a: Rows, b: Rows, d: Path, n: string)
    requires Faithful(cd, h, a, b) && Unmixed(cd, h, a, b) && TreeShaped(a.Keys) && TreeShaped(b.Keys)
    requires Named(a.Keys, d, n) && Named(b.Keys, d, n)
    ensures ChildHash(cd, h, a, d, n) == ChildHash(cd, h, b, d, n) <==>
            SameLeaf(h, a, b, d + [n]) || (d + [n] !in a && d + [n] !in b && SameBelow(h, a, b, d + [n]))
  {
    var x := d + [n];
    if x in a && x in b {
      if ChildHash(cd, h, a, d, n) == ChildHash(cd, h, b, d, n) {
        LeafHashTells(cd, h, a, b, x, x);
      }
    } else if x in a {
      Deeper(b.Keys, d, n);
      assert KindTold(cd, h, a, b, x, x);
    } else if x in b {
      Deeper(a.Keys, d, n);
      assert KindTold(cd, h, b, a, x, x);
    } else {
      Deeper(a.Keys, d, n);
      Deeper(b.Keys, d, n);
      RealHashesPruneExactly(cd, h, a, b, x);
    }
  }

  // ------------------------------------------------- the assumptions can be met

  lemma OrderOfOne(n: string)
    ensures Order({n}) == [n]
  {
    assert {n} - {n} == {};
    assert Order({}) == [];
  }

  lemma OnlyChild(cd: Coding, h: Hashes, rows: Rows, d: Path, n: string)
    requires Names(rows.Keys, d) == {n}
    ensures Named(rows.Keys, d, n)
    ensures DirString(cd, h, rows, d) == cd.text(n) + [1] + (Flag(d + [n] !in rows) + ChildHash(cd, h, rows, d, n))
  {
    OrderOfOne(n);
    OrderNamed(rows, d);
    assert n in Names(rows.Keys, d);
    assert [n][..0] == [];
    assert ListString(cd, h, rows, d, []) == [];
    ChildStringIs(cd, h, rows, d, n);
  }

  /** An index of one file in one directory. */
  function OneFile(dir: string, name: string): Rows {
    map[[dir, name] := Version(false, Some(1), None, 0, 0, map[1 := 1], None)]
  }

  lemma NamedInOne(p: Path, d: Path, n: string)
    requires d < p
    ensures Named({p}, d, n) <==> n == p[|d|]
  {
    assert (d + [n])[|d|] == n;
    if n == p[|d|] {
      assert d + [n] <= p;
    }
  }

  lemma OneFileDirs(dir: string, name: string, d: Path)
    ensures IsDir(OneFile(dir, name).Keys, d) <==> d == [] || d == [dir]
    ensures Names(OneFile(dir, name).Keys, []) == {dir} && Names(OneFile(dir, name).Keys, [dir]) == {name}
  {
    var k := OneFile(dir, name).Keys;
    assert k == {[dir, name]};
    assert [dir, name] in k;
    forall n ensures Named(k, [], n) <==> n == dir {
      NamedInOne([dir, name], [], n);
    }
    forall n ensures Named(k, [dir], n) <==> n == name {
      NamedInOne([dir, name], [dir], n);
    }
    if IsDir(k, d) && d != [] {
      assert d < [dir, name];
      assert d == [dir, name][..1];
    }
    assert [dir] < [dir, name];
  }

  function Ascii(s: string): (t: Bytes)
    ensures |t| == |s|
  {
    if s == "" then [] else [s[0] as int % 255 + 1] + Ascii(s[1..])
  }

  lemma {:induction false} AsciiHasNoZero(s: string)
    ensures FreeOf(Ascii(s), 0)
  {
    if s != "" {
      AsciiHasNoZero(s[1..]);
    }
  }

  /** A toy hash: the length, then the first 31 bytes. */
  function Digest32(x: Bytes): (t: Bytes)
    ensures |t| == 32 && t[0] == |x| % 256 && forall i :: 0 <= i < 31 ==> t[i + 1] == if i < |x| then x[i] else 0
  {
    [|x| % 256] + seq<Byte>(31, i requires 0 <= i => if i < |x| then x[i] else 0)
  }

  function ExampleFields(k: LeafKey): LeafFields {
    LeafFields(Ascii(Text(k.path)), k.tombstone, BigEndian(k.content, 32), BigEndian(k.uuid, 16), BigEndian(k.meta, 32), [])
  }

  function ExampleCoding(): Coding {
    Coding(s => Ascii(s), k => ExampleFields(k), x => Digest32(x))
  }

  lemma ExampleLeaf(h: Hashes, dir: string, name: string)
    requires |dir| == 3
    ensures var rows, p := OneFile(dir, name), [dir, name];
            && SizedLeaf(ExampleFields(KeyAt(h, rows, p))) && |ExampleFields(KeyAt(h, rows, p)).path| == 4 + |name|
            && |LeafString(ExampleCoding(), h, rows, p)| == 94 + |name|
  {
    var p := [dir, name];
    assert Parent(p) == [dir];
    assert Text(p) == dir + "/" + name;
    AsciiHasNoZero(Text(p));
  }

  /** A coding whose texts keep their length and whose hashes start with the length of what they hash. */
  ghost predicate Measures(cd: Coding) {
    && (forall s :: |cd.text(s)| == |s|)
    && (forall x :: |cd.hash(x)| == 32 && cd.hash(x)[0] == |x| % 256)
    && (forall x, i :: 0 <= i < 31 && i < |x| ==> cd.hash(x)[i + 1] == x[i])
  }

  lemma ExampleMeasures()
    ensures Measures(ExampleCoding())
  {
  }

  lemma InnerString(cd: Coding, h: Hashes, dir: string, name: string)
    requires Measures(cd)
    ensures |DirString(cd, h, OneFile(dir, name), [dir])| == 34 + |name|
  {
    OneFileDirs(dir, name, []);
    OnlyChild(cd, h, OneFile(dir, name), [dir], name);
  }

  lemma Laid(name: Bytes, inner: Bytes)
    requires |name| == 3 && |inner| == 32
    ensures var s := name + [1] + (Flag(true) + inner); |s| == 37 && s[5] == inner[0]
  {
  }

  lemma OuterString(cd: Coding, h: Hashes, dir: string, name: string)
    requires Measures(cd) && |dir| == 3
    ensures var s := DirString(cd, h, OneFile(dir, name), []); |s| == 37 && s[5] == (34 + |name|) % 256
  {
    OuterIs(cd, h, dir, name);
    InnerString(cd, h, dir, name);
    Laid(cd.text(dir), cd.hash(DirString(cd, h, OneFile(dir, name), [dir])));
  }

  lemma OuterIs(cd: Coding, h: Hashes, dir: string, name: string)
    ensures var rows := OneFile(dir, name);
            DirString(cd, h, rows, []) == cd.text(dir) + [1] + (Flag(true) + cd.hash(DirString(cd, h, rows, [dir])))
  {
    var rows := OneFile(dir, name);
    OneFileDirs(dir, name, []);
    OnlyChild(cd, h, rows, [], dir);
    assert [] + [dir] == [dir] && [dir] !in rows;
  }

  /** Strings of different length, or with different sixth bytes, hash differently. */
  lemma Apart(cd: Coding, s: Bytes, t: Bytes)
    requires Measures(cd) && |s| < 256 && |t| < 256 && (|s| != |t| || (|s| > 5 && s[5] != t[5]))
    ensures cd.hash(s) != cd.hash(t)
  {
    if |s| != |t| {
      assert cd.hash(s)[0] != cd.hash(t)[0];
    } else {
      assert cd.hash(s)[5 + 1] == s[5] && cd.hash(t)[5 + 1] == t[5];
    }
  }

  /** Length, and for the root the byte that tells what lies below. */
  predicate Measured(s: Bytes, d: Path, name: string) {
    if d == [] then |s| == 37 && s[5] == (34 + |name|) % 256 else |s| == 34 + |name|
  }

  lemma DirMeasure(cd: Coding, h: Hashes, dir: string, name: string, d: Path)
    requires Measures(cd) && |dir| == 3 && IsDir(OneFile(dir, name).Keys, d)
    ensures Measured(DirString(cd, h, OneFile(dir, name), d), d, name)
  {
    OneFileDirs(dir, name, d);
    if d == [] {
      OuterMeasure(cd, h, dir, name);
    } else {
      InnerMeasure(cd, h, dir, name);
    }
  }

  lemma OuterMeasure(cd: Coding, h: Hashes, dir: string, name: string)
    requires Measures(cd) && |dir| == 3
    ensures Measured(DirString(cd, h, OneFile(dir, name), []), [], name)
  {
    OuterString(cd, h, dir, name);
  }

  lemma InnerMeasure(cd: Coding, h: Hashes, dir: string, name: string)
    requires Measures(cd)
    ensures Measured(DirString(cd, h, OneFile(dir, name), [dir]), [dir], name)
  {
    InnerString(cd, h, dir, name);
  }

  lemma MeasuresApart(cd: Coding, s: Bytes, d: Path, x: string, t: Bytes, e: Path, y: string)
    requires Measures(cd) && |x| == 1 && |y| == 2 && Measured(s, d, x) && Measured(t, e, y)
    ensures cd.hash(s) != cd.hash(t)
  {
    Apart(cd, s, t);
  }

  lemma MeasuredApart(cd: Coding, h: Hashes, dir: string, x: string, y: string, d: Path, e: Path)
    requires Measures(cd) && |dir| == 3 && |x| == 1 && |y| == 2 && IsDir(OneFile(dir, x).Keys, d) && IsDir(OneFile(dir, y).Keys, e)
    ensures DirTold(cd, h, OneFile(dir, x), OneFile(dir, y), d, e)
  {
    DirMeasure(cd, h, dir, x, d);
    DirMeasure(cd, h, dir, y, e);
    MeasuresApart(cd, DirString(cd, h, OneFile(dir, x), d), d, x, DirString(cd, h, OneFile(dir, y), e), e, y);
  }

  lemma ExampleLeafTold(h: Hashes, dir: string, x: string, y: string)
    requires |dir| == 3 && |x| == 1 && |y| == 2
    ensures LeafTold(ExampleCoding(), h, OneFile(dir, x), OneFile(dir, y), [dir, x], [dir, y])
  {
    ExampleLeaf(h, dir, x);
    ExampleLeaf(h, dir, y);
    ExampleMeasures();
    var cd := ExampleCoding();
    Apart(cd, LeafString(cd, h, OneFile(dir, x), [dir, x]), LeafString(cd, h, OneFile(dir, y), [dir, y]));
  }

  lemma ExampleDirsTold(cd: Coding, h: Hashes, dir: string, x: string, y: string)
    requires Measures(cd) && |dir| == 3 && |x| == 1 && |y| == 2
    ensures DirsTold(cd, h, OneFile(dir, x), OneFile(dir, y))
  {
    var a, b := OneFile(dir, x), OneFile(dir, y);
    forall d, e | IsDir(a.Keys, d) && IsDir(b.Keys, e) ensures DirTold(cd, h, a, b, d, e) {
      MeasuredApart(cd, h, dir, x, y, d, e);
    }
  }

  lemma ExampleLeavesTold(h: Hashes, dir: string, x: string, y: string)
    requires |dir| == 3 && |x| == 1 && |y| == 2
    ensures LeavesTold(ExampleCoding(), h, OneFile(dir, x), OneFile(dir, y))
  {
    ExampleLeafTold(h, dir, x, y);
  }

  lemma ExampleFaithful(h: Hashes, dir: string, x: string, y: string)
    requires |dir| == 3 && |x| == 1 && |y| == 2
    ensures Faithful(ExampleCoding(), h, OneFile(dir, x), OneFile(dir, y))
  {
    ExampleMeasures();
    ExampleDirsTold(ExampleCoding(), h, dir, x, y);
    ExampleLeavesTold(h, dir, x, y);
  }

  lemma LeafApart(cd: Coding, s: Bytes, x: string, t: Bytes, e: Path, y: string)
    requires Measures(cd) && |x| < 3 && |y| < 3 && |s| == 94 + |x| && Measured(t, e, y)
    ensures cd.hash(s) != cd.hash(t)
  {
    Apart(cd, s, t);
  }

  lemma KindsApart(cd: Coding, h: Hashes, dir: string, mine: string, theirs: string, e: Path)
    requires Measures(cd) && |dir| == 3 && |mine| < 3 && |theirs| < 3 && IsDir(OneFile(dir, theirs).Keys, e)
    requires |LeafString(cd, h, OneFile(dir, mine), [dir, mine])| == 94 + |mine|
    ensures KindTold(cd, h, OneFile(dir, mine), OneFile(dir, theirs), [dir, mine], e)
  {
    DirMeasure(cd, h, dir, theirs, e);
    LeafApart(cd, LeafString(cd, h, OneFile(dir, mine), [dir, mine]), mine, DirString(cd, h, OneFile(dir, theirs), e), e, theirs);
  }

  lemma ExampleKinds(h: Hashes, dir: string, mine: string, theirs: string, e: Path)
    requires |dir| == 3 && |mine| < 3 && |theirs| < 3 && IsDir(OneFile(dir, theirs).Keys, e)
    ensures KindTold(ExampleCoding(), h, OneFile(dir, mine), OneFile(dir, theirs), [dir, mine], e)
  {
    ExampleLeaf(h, dir, mine);
    ExampleMeasures();
    KindsApart(ExampleCoding(), h, dir, mine, theirs, e);
  }

  lemma ExampleUnmixed(h: Hashes, dir: string, x: string, y: string)
    requires |dir| == 3 && |x| < 3 && |y| < 3
    ensures Unmixed(ExampleCoding(), h, OneFile(dir, x), OneFile(dir, y))
  {
    var cd, a, b := ExampleCoding(), OneFile(dir, x), OneFile(dir, y);
    forall p, e | p in a && IsDir(b.Keys, e) ensures KindTold(cd, h, a, b, p, e) {
      ExampleKinds(h, dir, x, y, e);
    }
    forall q, d | q in b && IsDir(a.Keys, d) ensures KindTold(cd, h, b, a, q, d) {
      ExampleKinds(h, dir, y, x, d);
    }
  }

  /** Two different trees, each with a nested directory, and a coding that meets all that is assumed. */
  lemma AssumptionsCanBeMet(h: Hashes)
    ensures TreeShaped(OneFile("dir", "x").Keys) && TreeShaped(OneFile("dir", "yy").Keys)
    ensures Faithful(ExampleCoding(), h, OneFile("dir", "x"), OneFile("dir", "yy"))
    ensures Unmixed(ExampleCoding(), h, OneFile("dir", "x"), OneFile("dir", "yy"))
  {
    ExampleFaithful(h, "dir", "x", "yy");
    ExampleUnmixed(h, "dir", "x", "yy");
    Shaped("dir", "x");
    Shaped("dir", "yy");
  }

  lemma Shaped(dir: string, name: string)
    requires Normal([dir, name])
    ensures TreeShaped(OneFile(dir, name).Keys)
  {
  }
}

/** Plan completeness: no content a plan displaces is dropped, whatever occupies the copy names. */
module PlanKeeps {
  import opened VersionVectors
  import opened CopyNames
  import opened Versions
  import opened Conflict

  /** Row `r` carries content `c` under durable metadata `n`. */
  predicate Carries(h: Hashes, r: Version, c: Hash, n: Hash) {
    !r.tombstone && r.hash == Some(c) && h.NamingHash(r.meta) == n
  }

  ghost predicate InRows(h: Hashes, rows: seq<Planned>, c: Hash, n: Hash) {
    exists i :: 0 <= i < |rows| && Carries(h, rows[i].row, c, n)
  }

  /** A copy name of this content already holds a row that covers the copy. */
  predicate StandsAt(h: Hashes, files: map<string, Version>, base: string, c: Hash, n: Hash) {
    var q := CopyPathFor(base, h.digest(c, n));
    q in files && Leq(CopyVv(h, q), files[q].vv)
  }

  /**
   Content `c` is in a planned row, or behind its copy name next to a planned
   path: the conflicted path itself or a link of a chain that started there,
   where the row already covers its copy.
   */
  ghost predicate Kept(h: Hashes, rows: seq<Planned>, files: map<string, Version>, c: Hash, n: Hash) {
    InRows(h, rows, c, n) || exists base :: PlannedAt(rows, base) && StandsAt(h, files, base, c, n)
  }

  /** Whatever known content the path `q` is a copy name of is kept. */
  ghost predicate NameKept(h: Hashes, known: set<Content>, rows: seq<Planned>, files: map<string, Version>, q: string) {
    forall base, x :: x in known && q == CopyPathFor(base, h.DigestOf(x)) ==> Kept(h, rows, files, x.hash, h.NamingHash(x.meta))
  }

  /** The content a planned row replaces is kept. */
  ghost predicate DisplacedKept(h: Hashes, rows: seq<Planned>, files: map<string, Version>, q: string) {
    q in files && files[q].vv != map[] && files[q].hash.Some? ==>
      Kept(h, rows, files, files[q].hash.value, h.NamingHash(files[q].meta))
  }

  lemma KeptGrows(h: Hashes, a: seq<Planned>, b: seq<Planned>, files: map<string, Version>, c: Hash, n: Hash)
    requires a <= b && Kept(h, a, files, c, n)
    ensures Kept(h, b, files, c, n)
  {
    if InRows(h, a, c, n) {
      var i :| 0 <= i < |a| && Carries(h, a[i].row, c, n);
      assert Carries(h, b[i].row, c, n);
    } else {
      var base :| PlannedAt(a, base) && StandsAt(h, files, base, c, n);
      PlannedGrows(a, b, base);
    }
  }

  lemma JustPlanned(rows: seq<Planned>, r: Planned)
    ensures PlannedAt(rows + [r], r.path)
  {
    assert (rows + [r])[|rows|] == r;
  }

  lemma PlannedGrows(a: seq<Planned>, b: seq<Planned>, path: string)
    requires a <= b && PlannedAt(a, path)
    ensures PlannedAt(b, path)
  {
    var i :| 0 <= i < |a| && a[i].path == path;
    assert b[i].path == path;
  }

  lemma NameKeptGrows(h: Hashes, known: set<Content>, a: seq<Planned>, b: seq<Planned>, files: map<string, Version>, q: string)
    requires a <= b
    ensures NameKept(h, known, a, files, q) ==> NameKept(h, known, b, files, q)
    ensures DisplacedKept(h, a, files, q) ==> DisplacedKept(h, b, files, q)
  {
    if NameKept(h, known, a, files, q) {
      forall base, x | x in known && q == CopyPathFor(base, h.DigestOf(x)) ensures Kept(h, b, files, x.hash, h.NamingHash(x.meta)) {
        KeptGrows(h, a, b, files, x.hash, h.NamingHash(x.meta));
      }
    }
    if DisplacedKept(h, a, files, q) && q in files && files[q].vv != map[] && files[q].hash.Some? {
      KeptGrows(h, a, b, files, files[q].hash.value, h.NamingHash(files[q].meta));
    }
  }

  /** Every content that stands in the index is known. */
  ghost predicate FilesKnown(known: set<Content>, files: map<string, Version>) {
    forall q :: q in files && files[q].hash.Some? ==> files[q].Carried() in known
  }

  /** A copy name belongs to one known content, so keeping that content settles the name. */
  lemma NameIsOneContent(h: Hashes, known: set<Content>, base: string, c: Content, rows: seq<Planned>, files: map<string, Version>)
    requires h.Tells(known) && c in known && Kept(h, rows, files, c.hash, h.NamingHash(c.meta))
    ensures NameKept(h, known, rows, files, CopyPathFor(base, h.DigestOf(c)))
  {
    forall b, x | x in known && CopyPathFor(base, h.DigestOf(c)) == CopyPathFor(b, h.DigestOf(x)) ensures Kept(h, rows, files, x.hash, h.NamingHash(x.meta)) {
      CopyPathInjective(base, h.DigestOf(c), b, h.DigestOf(x));
    }
  }

  /** Rows settled before this chain, then rows of this chain that are still pending. */
  ghost predicate Progress(h: Hashes, known: set<Content>, rows: seq<Planned>, k: nat, files: map<string, Version>, cp: string) {
    && 1 <= k <= |rows|
    && (forall i :: 1 <= i < k ==> NameKept(h, known, rows, files, rows[i].path) && DisplacedKept(h, rows, files, rows[i].path))
    && |rows[0].path| < |cp|
    && (forall i :: k <= i < |rows| ==> |rows[i].path| < |cp|)
  }

  /** What a finished chain guarantees: its content kept, and every row it added settled. */
  ghost predicate Settles(h: Hashes, known: set<Content>, rows: seq<Planned>, k: nat, files: map<string, Version>, c: Version, rs: seq<Planned>)
    requires c.hash.Some?
  {
    && rows <= rs && k <= |rows|
    && Kept(h, rs, files, c.hash.value, h.NamingHash(c.meta))
    && (forall i :: 1 <= i < k || |rows| <= i < |rs| ==> NameKept(h, known, rs, files, rs[i].path) && DisplacedKept(h, rs, files, rs[i].path))
  }

  lemma OldStaySettled(h: Hashes, known: set<Content>, rows: seq<Planned>, k: nat, files: map<string, Version>, cp: string, rs: seq<Planned>)
    requires Progress(h, known, rows, k, files, cp) && rows <= rs
    ensures forall i :: 1 <= i < k ==> NameKept(h, known, rs, files, rs[i].path) && DisplacedKept(h, rs, files, rs[i].path)
  {
    forall i | 1 <= i < k ensures NameKept(h, known, rs, files, rs[i].path) && DisplacedKept(h, rs, files, rs[i].path) {
      assert rs[i] == rows[i];
      NameKeptGrows(h, known, rows, rs, files, rows[i].path);
    }
  }

  /** The copy name is already planned: by an earlier chain for the same content. */
  lemma CoalescedSettles(h: Hashes, known: set<Content>, base: string, c: Version, rows: seq<Planned>, k: nat, files: map<string, Version>)
    requires h.Tells(known) && c.hash.Some? && c.Carried() in known
    requires var cp := CopyPath(h, base, c); Progress(h, known, rows, k, files, cp) && PlannedAt(rows, cp)
    ensures Settles(h, known, rows, k, files, c, rows)
  {
    var cp := CopyPath(h, base, c);
    var i :| 0 <= i < |rows| && rows[i].path == cp;
    assert 1 <= i < k;
    NameKeptUse(h, known, rows, files, base, c.Carried());
  }

  lemma NameKeptUse(h: Hashes, known: set<Content>, rows: seq<Planned>, files: map<string, Version>, base: string, c: Content)
    requires c in known && NameKept(h, known, rows, files, CopyPathFor(base, h.DigestOf(c)))
    ensures Kept(h, rows, files, c.hash, h.NamingHash(c.meta))
  {
  }

  /** A row placed at the copy name itself. */
  lemma PlacedSettles(h: Hashes, known: set<Content>, base: string, c: Version, rows: seq<Planned>, k: nat, files: map<string, Version>, row: Version)
    requires h.Tells(known) && c.hash.Some? && c.Carried() in known
    requires Progress(h, known, rows, k, files, CopyPath(h, base, c))
    requires Carries(h, row, c.hash.value, h.NamingHash(c.meta))
    requires DisplacedKept(h, rows + [Planned(CopyPath(h, base, c), row)], files, CopyPath(h, base, c))
    ensures Settles(h, known, rows, k, files, c, rows + [Planned(CopyPath(h, base, c), row)])
  {
    var cp := CopyPath(h, base, c);
    var rs := rows + [Planned(cp, row)];
    assert Carries(h, rs[|rows|].row, c.hash.value, h.NamingHash(c.meta));
    NameIsOneContent(h, known, base, c.Carried(), rs, files);
    OldStaySettled(h, known, rows, k, files, cp, rs);
  }

  lemma CoveredSettles(h: Hashes, known: set<Content>, base: string, c: Version, rows: seq<Planned>, k: nat, files: map<string, Version>)
    requires c.hash.Some? && PlannedAt(rows, base)
    requires var cp := CopyPath(h, base, c);
             Progress(h, known, rows, k, files, cp) && cp in files && Compare(CopyVv(h, cp), files[cp].vv) in {Equal, Dominated}
    ensures Settles(h, known, rows, k, files, c, rows)
  {
    var cp := CopyPath(h, base, c);
    CompareMeaning(CopyVv(h, cp), files[cp].vv);
    assert StandsAt(h, files, base, c.hash.value, h.NamingHash(c.meta));
  }

  /** The row of a collision carries `c`, and any next link carries what it displaced. */
  predicate PlacesCopy(h: Hashes, s: Settled, e: Version, c: Version)
    requires c.hash.Some?
  {
    && Carries(h, s.row, c.hash.value, h.NamingHash(c.meta))
    && (e.hash.Some? ==> Carries(h, s.row, e.hash.value, h.NamingHash(e.meta)) || s.next.Some?)
    && (s.next.Some? ==> SameContent(s.next.value, e))
  }

  /** The row of a collision keeps `e`, and the next link carries `c`. */
  predicate PushesCopy(h: Hashes, s: Settled, e: Version, c: Version) {
    && s.next.Some? && SameContent(s.next.value, c)
    && e.hash.Some? && Carries(h, s.row, e.hash.value, h.NamingHash(e.meta))
  }

  lemma SettleKeepsBoth(h: Hashes, cp: string, e: Version, c: Version)
    requires e.hash.Some? ==> h.TellsMetas({e.meta, c.meta})
    requires c.hash.Some? && e.WellFormed() && Compare(CopyVv(h, cp), e.vv) == Concurrent
    ensures var s := Settle(h, cp, e, c); PlacesCopy(h, s, e, c) || PushesCopy(h, s, e, c)
  {
    var a := CopyRow(h, cp, c);
    NestedPair(h, e, a);
    if KeyOf(h, e) == KeyOf(h, a) {
      EqualContents(h, e, a);
    }
  }

  predicate SameContent(a: Version, b: Version) {
    a.hash == b.hash && a.meta == b.meta
  }

  lemma EqualContents(h: Hashes, a: Version, b: Version)
    requires h.TellsMetas({a.meta, b.meta}) && KeyOf(h, a) == KeyOf(h, b) && a.WellFormed() && !b.tombstone && b.hash.Some?
    ensures SameContent(a, b)
  {
  }

  ghost predicate RowsWellFormed(files: map<string, Version>) {
    forall q :: q in files ==> files[q].WellFormed()
  }

  /** The next link of a chain starts from the same progress, one name longer. */
  lemma NextProgress(h: Hashes, known: set<Content>, rows: seq<Planned>, k: nat, files: map<string, Version>, cp: string, row: Version, l: Version)
    requires h.HexDigests() && l.hash.Some? && Progress(h, known, rows, k, files, cp)
    ensures Progress(h, known, rows + [Planned(cp, row)], k, files, CopyPath(h, cp, l))
  {
    var rs := rows + [Planned(cp, row)];
    CopyPathGrows(cp, h.digest(l.hash.value, h.NamingHash(l.meta)));
    OldStaySettled(h, known, rows, k, files, cp, rs);
  }

  /** A file and a copy of known contents are told apart by their metadata hashes. */
  lemma PairTold(h: Hashes, known: set<Content>, files: map<string, Version>, cp: string, c: Version)
    requires h.Tells(known) && FilesKnown(known, files) && cp in files && files[cp].WellFormed() && c.hash.Some? && c.Carried() in known
    ensures files[cp].hash.Some? ==> h.TellsMetas({files[cp].meta, c.meta})
  {
    if files[cp].hash.Some? {
      assert files[cp].Carried().meta == files[cp].meta && c.Carried().meta == c.meta;
      assert {files[cp].meta, c.meta} <= set x | x in known :: x.meta;
    }
  }

  /** A collision settles both contents, and what it pushes further is known too. */
  lemma NextIsKnown(h: Hashes, known: set<Content>, files: map<string, Version>, cp: string, c: Version)
    requires h.Tells(known) && FilesKnown(known, files) && cp in files && files[cp].WellFormed() && c.hash.Some? && c.Carried() in known
    requires Compare(CopyVv(h, cp), files[cp].vv) == Concurrent
    ensures var s := Settle(h, cp, files[cp], c);
            && (PlacesCopy(h, s, files[cp], c) || PushesCopy(h, s, files[cp], c))
            && (s.next.Some? ==> s.next.value.hash.Some? && s.next.value.Carried() in known)
  {
    PairTold(h, known, files, cp, c);
    SettleKeepsBoth(h, cp, files[cp], c);
  }

  /** Closing one link: its row is settled once both contents are kept. */
  lemma LinkSettles(h: Hashes, known: set<Content>, base: string, c: Version, rows: seq<Planned>, k: nat, files: map<string, Version>, row: Version, l: Version, rs: seq<Planned>)
    requires h.Tells(known) && c.hash.Some? && c.Carried() in known && l.hash.Some? && k <= |rows|
    requires var cp := CopyPath(h, base, c);
             && Settles(h, known, rows + [Planned(cp, row)], k, files, l, rs)
             && Kept(h, rs, files, c.hash.value, h.NamingHash(c.meta)) && DisplacedKept(h, rs, files, cp)
    ensures Settles(h, known, rows, k, files, c, rs)
  {
    var cp := CopyPath(h, base, c);
    var mid := rows + [Planned(cp, row)];
    assert rs[|rows|] == mid[|rows|];
    NameIsOneContent(h, known, base, c.Carried(), rs, files);
  }

  lemma CarriedIsKept(h: Hashes, rows: seq<Planned>, files: map<string, Version>, i: nat, c: Hash, n: Hash)
    requires i < |rows| && Carries(h, rows[i].row, c, n)
    ensures Kept(h, rows, files, c, n)
  {
  }

  lemma PushedSettles(h: Hashes, known: set<Content>, base: string, c: Version, rows: seq<Planned>, k: nat, files: map<string, Version>, s: Settled, rs: seq<Planned>)
    requires h.Tells(known) && c.hash.Some? && c.Carried() in known && s.next.Some? && s.next.value.hash.Some? && k <= |rows|
    requires var cp := CopyPath(h, base, c);
             && cp in files && (PlacesCopy(h, s, files[cp], c) || PushesCopy(h, s, files[cp], c))
             && Settles(h, known, rows + [Planned(cp, s.row)], k, files, s.next.value, rs)
    ensures Settles(h, known, rows, k, files, c, rs)
  {
    var cp := CopyPath(h, base, c);
    var e := files[cp];
    var mid := rows + [Planned(cp, s.row)];
    assert rs[|rows|] == mid[|rows|];
    if PlacesCopy(h, s, e, c) {
      CarriedIsKept(h, rs, files, |rows|, c.hash.value, h.NamingHash(c.meta));
    } else {
      CarriedIsKept(h, rs, files, |rows|, e.hash.value, h.NamingHash(e.meta));
    }
    LinkSettles(h, known, base, c, rows, k, files, s.row, s.next.value, rs);
  }

  lemma {:induction false} ChainKeeps(h: Hashes, known: set<Content>, base: string, c: Version, depth: nat, rows: seq<Planned>, k: nat, files: map<string, Version>)
    requires h.Tells(known) && RowsWellFormed(files) && FilesKnown(known, files) && c.hash.Some? && c.Carried() in known && depth <= MAX_COPY_DEPTH
    requires PlannedAt(rows, base) && Progress(h, known, rows, k, files, CopyPath(h, base, c))
    ensures var r := Chain(h, CopyPath(h, base, c), c, depth, rows, files);
            r.Some? ==> Settles(h, known, rows, k, files, c, r.value)
    decreases MAX_COPY_DEPTH - depth
  {
    var cp := CopyPath(h, base, c);
    if depth + 1 > MAX_COPY_DEPTH {
    } else if PlannedAt(rows, cp) {
      CoalescedSettles(h, known, base, c, rows, k, files);
    } else if cp !in files || Compare(CopyVv(h, cp), files[cp].vv) == Dominates {
      FreshSettles(h, known, base, c, rows, k, files);
    } else if Compare(CopyVv(h, cp), files[cp].vv) != Concurrent {
      CoveredSettles(h, known, base, c, rows, k, files);
    } else {
      CollisionKeeps(h, known, base, c, depth, rows, k, files);
    }
  }

  /** An empty-history row is the only one a copy vector dominates. */
  lemma FreshSettles(h: Hashes, known: set<Content>, base: string, c: Version, rows: seq<Planned>, k: nat, files: map<string, Version>)
    requires h.Tells(known) && c.hash.Some? && c.Carried() in known && Progress(h, known, rows, k, files, CopyPath(h, base, c))
    requires var cp := CopyPath(h, base, c); cp !in files || Compare(CopyVv(h, cp), files[cp].vv) == Dominates
    ensures var cp := CopyPath(h, base, c); Settles(h, known, rows, k, files, c, rows + [Planned(cp, CopyRow(h, cp, c))])
  {
    var cp := CopyPath(h, base, c);
    if cp in files {
      CompareMeaning(CopyVv(h, cp), files[cp].vv);
      OnlyEmptyBelow(files[cp].vv, h.copyOrigin(cp));
    }
    PlacedSettles(h, known, base, c, rows, k, files, CopyRow(h, cp, c));
  }

  lemma OnlyEmptyBelow(v: VersionVector, n: NodeId)
    requires Less(v, map[n := 1])
    ensures v == map[]
  {
  }

  lemma {:induction false} CollisionKeeps(h: Hashes, known: set<Content>, base: string, c: Version, depth: nat, rows: seq<Planned>, k: nat, files: map<string, Version>)
    requires h.Tells(known) && RowsWellFormed(files) && FilesKnown(known, files) && c.hash.Some? && c.Carried() in known && depth < MAX_COPY_DEPTH
    requires Progress(h, known, rows, k, files, CopyPath(h, base, c)) && !PlannedAt(rows, CopyPath(h, base, c))
    requires var cp := CopyPath(h, base, c); cp in files && Compare(CopyVv(h, cp), files[cp].vv) == Concurrent
    ensures var r := Chain(h, CopyPath(h, base, c), c, depth, rows, files);
            r.Some? ==> Settles(h, known, rows, k, files, c, r.value)
    decreases MAX_COPY_DEPTH - depth, 1
  {
    var cp := CopyPath(h, base, c);
    var s := Settle(h, cp, files[cp], c);
    if s.next.Some? {
      assert Progress(h, known, rows + [Planned(cp, s.row)], k, files, CopyPath(h, cp, s.next.value)) by {
        NextProgress(h, known, rows, k, files, cp, s.row, s.next.value);
      }
      PushedLinkSettles(h, known, base, c, depth, rows, k, files, s);
    } else {
      LastLinkSettles(h, known, base, c, rows, k, files, s);
    }
  }

  lemma {:induction false} PushedLinkSettles(h: Hashes, known: set<Content>, base: string, c: Version, depth: nat, rows: seq<Planned>, k: nat, files: map<string, Version>, s: Settled)
    requires h.Tells(known) && RowsWellFormed(files) && FilesKnown(known, files) && c.hash.Some? && c.Carried() in known && k <= |rows| && depth < MAX_COPY_DEPTH
    requires !PlannedAt(rows, CopyPath(h, base, c))
    requires var cp := CopyPath(h, base, c); cp in files && Compare(CopyVv(h, cp), files[cp].vv) == Concurrent && s == Settle(h, cp, files[cp], c)
    requires s.next.Some?
    requires var cp := CopyPath(h, base, c); Progress(h, known, rows + [Planned(cp, s.row)], k, files, CopyPath(h, cp, s.next.value))
    ensures var r := Chain(h, CopyPath(h, base, c), c, depth, rows, files);
            r.Some? ==> Settles(h, known, rows, k, files, c, r.value)
    decreases MAX_COPY_DEPTH - depth, 0
  {
    var cp := CopyPath(h, base, c);
    var rows' := rows + [Planned(cp, s.row)];
    var r := Chain(h, CopyPath(h, cp, s.next.value), s.next.value, depth + 1, rows', files);
    LinkGoesOn(h, cp, c, depth, rows, files);
    if r.Some? {
      NextIsKnown(h, known, files, cp, c);
      JustPlanned(rows, Planned(cp, s.row));
      ChainKeeps(h, known, cp, s.next.value, depth + 1, rows', k, files);
      PushedSettles(h, known, base, c, rows, k, files, s, r.value);
    }
  }

  /** A link that collides and has a loser goes on at the next name. */
  lemma LinkGoesOn(h: Hashes, cp: string, c: Version, depth: nat, rows: seq<Planned>, files: map<string, Version>)
    requires depth < MAX_COPY_DEPTH && !PlannedAt(rows, cp) && cp in files && Compare(CopyVv(h, cp), files[cp].vv) == Concurrent
    requires Settle(h, cp, files[cp], c).next.Some?
    ensures var s := Settle(h, cp, files[cp], c);
            Chain(h, cp, c, depth, rows, files)
            == Chain(h, CopyPath(h, cp, s.next.value), s.next.value, depth + 1, rows + [Planned(cp, s.row)], files)
  {
  }

  lemma LastLinkSettles(h: Hashes, known: set<Content>, base: string, c: Version, rows: seq<Planned>, k: nat, files: map<string, Version>, s: Settled)
    requires h.Tells(known) && RowsWellFormed(files) && FilesKnown(known, files) && c.hash.Some? && c.Carried() in known && Progress(h, known, rows, k, files, CopyPath(h, base, c))
    requires var cp := CopyPath(h, base, c); cp in files && Compare(CopyVv(h, cp), files[cp].vv) == Concurrent && s == Settle(h, cp, files[cp], c)
    requires s.next.None?
    ensures Settles(h, known, rows, k, files, c, rows + [Planned(CopyPath(h, base, c), s.row)])
  {
    var cp := CopyPath(h, base, c);
    var mid := rows + [Planned(cp, s.row)];
    PairTold(h, known, files, cp, c);
    SettleKeepsBoth(h, cp, files[cp], c);
    if files[cp].hash.Some? {
      CarriedIsKept(h, mid, files, |rows|, files[cp].hash.value, h.NamingHash(files[cp].meta));
    }
    PlacedSettles(h, known, base, c, rows, k, files, s.row);
  }

  // ----------------------------------------------------------------- whole plans

  /** All copy rows of a plan under construction are settled. */
  ghost predicate AllSettled(h: Hashes, known: set<Content>, rows: seq<Planned>, files: map<string, Version>, path: string) {
    && rows != [] && rows[0].path == path
    && (forall i :: 1 <= i < |rows| ==> NameKept(h, known, rows, files, rows[i].path) && DisplacedKept(h, rows, files, rows[i].path))
  }

  lemma LoserKept(h: Hashes, known: set<Content>, path: string, wk: Key, l: Version, rows: seq<Planned>, files: map<string, Version>)
    requires h.Tells(known) && RowsWellFormed(files) && FilesKnown(known, files) && AllSettled(h, known, rows, files, path)
    requires l.hash.Some? ==> l.Carried() in known
    ensures var r := PlanLoser(h, path, wk, l, rows, files);
            r.Some? ==>
              && rows <= r.value && AllSettled(h, known, r.value, files, path)
              && (l.hash.Some? && KeyOf(h, l) != wk ==> Kept(h, r.value, files, l.hash.value, h.NamingHash(l.meta)))
  {
    if l.hash.Some? && KeyOf(h, l) != wk {
      CopyPathGrows(path, h.digest(l.hash.value, h.NamingHash(l.meta)));
      ChainKeeps(h, known, path, l, 0, rows, |rows|, files);
    }
  }

  lemma {:induction false} LosersKept(h: Hashes, known: set<Content>, path: string, wk: Key, losers: seq<Version>, rows: seq<Planned>, files: map<string, Version>)
    requires h.Tells(known) && RowsWellFormed(files) && FilesKnown(known, files) && AllSettled(h, known, rows, files, path)
    requires forall l :: l in losers && l.hash.Some? ==> l.Carried() in known
    ensures var r := PlanLosers(h, path, wk, losers, rows, files);
            r.Some? ==>
              && rows <= r.value && AllSettled(h, known, r.value, files, path)
              && forall l :: l in losers && l.hash.Some? && KeyOf(h, l) != wk ==> Kept(h, r.value, files, l.hash.value, h.NamingHash(l.meta))
    decreases |losers|
  {
    if losers != [] {
      LoserKept(h, known, path, wk, losers[0], rows, files);
      var r := PlanLoser(h, path, wk, losers[0], rows, files);
      if r.Some? {
        LosersKept(h, known, path, wk, losers[1..], r.value, files);
        LosersKeptStep(h, path, wk, losers, rows, r.value, files);
      }
    }
  }

  lemma LosersKeptStep(h: Hashes, path: string, wk: Key, losers: seq<Version>, rows: seq<Planned>, mid: seq<Planned>, files: map<string, Version>)
    requires losers != [] && rows <= mid
    requires var l := losers[0]; l.hash.Some? && KeyOf(h, l) != wk ==> Kept(h, mid, files, l.hash.value, h.NamingHash(l.meta))
    requires var r := PlanLosers(h, path, wk, losers[1..], mid, files);
             r.Some? ==>
               && mid <= r.value
               && forall l :: l in losers[1..] && l.hash.Some? && KeyOf(h, l) != wk ==> Kept(h, r.value, files, l.hash.value, h.NamingHash(l.meta))
    ensures var r := PlanLosers(h, path, wk, losers[1..], mid, files);
            r.Some? ==>
              && rows <= r.value
              && forall l :: l in losers && l.hash.Some? && KeyOf(h, l) != wk ==> Kept(h, r.value, files, l.hash.value, h.NamingHash(l.meta))
  {
    var r := PlanLosers(h, path, wk, losers[1..], mid, files);
    if r.Some? {
      forall l | l in losers && l.hash.Some? && KeyOf(h, l) != wk ensures Kept(h, r.value, files, l.hash.value, h.NamingHash(l.meta)) {
        if l == losers[0] {
          KeptGrows(h, mid, r.value, files, l.hash.value, h.NamingHash(l.meta));
        } else {
          assert l in losers[1..];
        }
      }
    }
  }

  /** The contents a plan has to do with: its candidates and the rows of the index. */
  ghost function AtHand(cs: seq<Version>, files: map<string, Version>): set<Content> {
    (set v | v in cs && v.hash.Some? :: v.Carried()) + (set q | q in files && files[q].hash.Some? :: files[q].Carried())
  }

  /**
   Plan completeness with name collisions: in every plan, each maximal version
   with content is in a planned row or behind a copy name whose row already
   covers its copy; and so is the content of every row the plan displaces at a
   copy name. The hash functions need only tell apart the contents at hand.
   */
  lemma PlanKeepsContent(h: Hashes, path: string, cs: seq<Version>, files: map<string, Version>)
    requires h.Tells(AtHand(cs, files)) && RowsWellFormed(files) && (forall v :: v in cs ==> v.WellFormed())
    requires Plan(h, path, cs, files).Some?
    ensures var rs := Plan(h, path, cs, files).value;
            && (forall v :: v in Antichain(h, cs) && v.hash.Some? ==> Kept(h, rs, files, v.hash.value, h.NamingHash(v.meta)))
            && (forall i :: 1 <= i < |rs| ==> DisplacedKept(h, rs, files, rs[i].path))
  {
    var a, known := Antichain(h, cs), AtHand(cs, files);
    AntichainBasics(h, cs);
    var wk := KeyOf(h, a[0]);
    var top := Planned(path, WinnerRow(h, a, JoinAll(cs)));
    forall l | l in a[1..] && l.hash.Some? ensures l.Carried() in known {
      assert l in cs;
    }
    LosersKept(h, known, path, wk, a[1..], [top], files);
    var rs := Plan(h, path, cs, files).value;
    assert rs[0] == top;
    forall v | v in a && v.hash.Some? ensures Kept(h, rs, files, v.hash.value, h.NamingHash(v.meta)) {
      if KeyOf(h, v) == wk {
        WinnerCarries(h, known, v, a[0]);
        CarriedIsKept(h, rs, files, 0, v.hash.value, h.NamingHash(v.meta));
      } else {
        assert v in a[1..];
      }
    }
  }

  lemma WinnerCarries(h: Hashes, known: set<Content>, v: Version, w: Version)
    requires h.Tells(known) && v.WellFormed() && w.WellFormed() && v.hash.Some? && v.Carried() in known
    requires KeyOf(h, v) == KeyOf(h, w) && (w.hash.Some? ==> w.Carried() in known)
    ensures w.hash == v.hash && w.meta == v.meta && !w.tombstone
  {
    assert w.hash.Some?;
    assert {v.meta, w.meta} <= set x | x in known :: x.meta by {
      assert v.Carried().meta == v.meta && w.Carried().meta == w.meta;
    }
    EqualKeys(h, v, w);
  }
}

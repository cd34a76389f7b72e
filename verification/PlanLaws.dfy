/** The shape of every plan: what it touches and how far it lifts what it touches. */
module PlanLaws {
  import opened VersionVectors
  import opened CopyNames
  import opened Versions
  import opened Conflict

  ghost predicate DistinctPaths(rows: seq<Planned>) {
    forall i, j :: 0 <= i < j < |rows| ==> rows[i].path != rows[j].path
  }

  /** A planned row strictly dominates the row it replaces. */
  predicate Lifts(files: map<string, Version>, r: Planned) {
    r.path in files ==> Less(files[r.path].vv, r.row.vv)
  }

  /** `rs` adds to `rows` only distinct copy names, each lifting what it replaces. */
  ghost predicate AddsCopies(files: map<string, Version>, rows: seq<Planned>, rs: seq<Planned>) {
    && rows <= rs
    && DistinctPaths(rs)
    && forall i :: |rows| <= i < |rs| ==> IsCopyName(rs[i].path) && Lifts(files, rs[i])
  }

  lemma AddsCopiesTransitive(files: map<string, Version>, a: seq<Planned>, b: seq<Planned>, c: seq<Planned>)
    requires AddsCopies(files, a, b) && AddsCopies(files, b, c)
    ensures AddsCopies(files, a, c)
  {
    assert forall i :: 0 <= i < |b| ==> b[i] == c[i];
  }

  lemma AddOne(files: map<string, Version>, rows: seq<Planned>, r: Planned)
    requires DistinctPaths(rows) && !PlannedAt(rows, r.path) && IsCopyName(r.path) && Lifts(files, r)
    ensures AddsCopies(files, rows, rows + [r])
  {
  }

  lemma ConcurrentJoinLifts(a: VersionVector, b: VersionVector)
    requires Compare(b, a) == Concurrent
    ensures Less(a, Join(a, b))
  {
    CompareMeaning(b, a);
    JoinIsLeastUpperBound(a, b, a);
  }

  lemma {:induction false} ChainAddsCopies(h: Hashes, cp: string, content: Version, depth: nat, rows: seq<Planned>, files: map<string, Version>)
    requires DistinctPaths(rows) && IsCopyName(cp)
    ensures var r := Chain(h, cp, content, depth, rows, files);
            r.Some? ==> AddsCopies(files, rows, r.value)
    decreases MAX_COPY_DEPTH - depth, 0
  {
    if depth + 1 > MAX_COPY_DEPTH || PlannedAt(rows, cp) {
    } else if cp !in files || Compare(CopyVv(h, cp), files[cp].vv) == Dominates {
      if cp in files {
        CompareMeaning(CopyVv(h, cp), files[cp].vv);
      }
      AddOne(files, rows, Planned(cp, CopyRow(h, cp, content)));
    } else if Compare(CopyVv(h, cp), files[cp].vv) == Concurrent {
      var s := Settle(h, cp, files[cp], content);
      ConcurrentJoinLifts(files[cp].vv, CopyVv(h, cp));
      var rows' := rows + [Planned(cp, s.row)];
      AddOne(files, rows, Planned(cp, s.row));
      if s.next.Some? {
        ChainNext(h, cp, s.next.value, depth + 1, rows, rows', files);
      }
    }
  }

  lemma ChainNext(h: Hashes, cp: string, l: Version, depth: nat, rows: seq<Planned>, rows': seq<Planned>, files: map<string, Version>)
    requires l.hash.Some? && 0 < depth <= MAX_COPY_DEPTH
    requires AddsCopies(files, rows, rows')
    ensures var r := Chain(h, CopyPath(h, cp, l), l, depth, rows', files);
            r.Some? ==> AddsCopies(files, rows, r.value)
    decreases MAX_COPY_DEPTH - depth, 1
  {
    CopyPathIsCopyName(cp, h.digest(l.hash.value, h.NamingHash(l.meta)));
    ChainAddsCopies(h, CopyPath(h, cp, l), l, depth, rows', files);
    var r := Chain(h, CopyPath(h, cp, l), l, depth, rows', files);
    if r.Some? {
      AddsCopiesTransitive(files, rows, rows', r.value);
    }
  }

  lemma LoserAddsCopies(h: Hashes, path: string, wk: Key, l: Version, rows: seq<Planned>, files: map<string, Version>)
    requires DistinctPaths(rows)
    ensures var r := PlanLoser(h, path, wk, l, rows, files);
            r.Some? ==> AddsCopies(files, rows, r.value)
  {
    if l.hash.Some? {
      CopyPathIsCopyName(path, h.digest(l.hash.value, h.NamingHash(l.meta)));
      ChainAddsCopies(h, CopyPath(h, path, l), l, 0, rows, files);
    }
  }

  lemma {:induction false} LosersAddCopies(h: Hashes, path: string, wk: Key, losers: seq<Version>, rows: seq<Planned>, files: map<string, Version>)
    requires DistinctPaths(rows)
    ensures var r := PlanLosers(h, path, wk, losers, rows, files);
            r.Some? ==> AddsCopies(files, rows, r.value)
    decreases |losers|
  {
    if losers != [] {
      LoserAddsCopies(h, path, wk, losers[0], rows, files);
      var r := PlanLoser(h, path, wk, losers[0], rows, files);
      if r.Some? {
        LosersAddCopies(h, path, wk, losers[1..], r.value, files);
        var rs := PlanLosers(h, path, wk, losers[1..], r.value, files);
        if rs.Some? {
          AddsCopiesTransitive(files, rows, r.value, rs.value);
        }
      }
    }
  }

  /** Every plan is the winner's row followed by distinct copy rows, each lifting what it replaces. */
  lemma PlanShape(h: Hashes, path: string, cs: seq<Version>, files: map<string, Version>)
    requires Plan(h, path, cs, files).Some?
    ensures Antichain(h, cs) != []
    ensures var rs := Plan(h, path, cs, files).value;
            var top := Planned(path, WinnerRow(h, Antichain(h, cs), JoinAll(cs)));
            AddsCopies(files, [top], rs) && rs[0] == top
  {
    var maximal := Antichain(h, cs);
    var top := Planned(path, WinnerRow(h, maximal, JoinAll(cs)));
    LosersAddCopies(h, path, KeyOf(h, maximal[0]), maximal[1..], [top], files);
  }

  lemma {:induction false} JoinAllCovers(cs: seq<Version>, c: Version)
    requires c in cs
    ensures Leq(c.vv, JoinAll(cs))
  {
    var init, last := cs[..|cs| - 1], cs[|cs| - 1];
    assert cs == init + [last];
    JoinIsLeastUpperBound(JoinAll(init), last.vv, last.vv);
    if c in init {
      JoinAllCovers(init, c);
      LeqTransitive(c.vv, JoinAll(init), JoinAll(cs));
    }
  }

  lemma {:induction false} JoinAllLeast(cs: seq<Version>, v: VersionVector)
    requires forall c :: c in cs ==> Leq(c.vv, v)
    ensures Leq(JoinAll(cs), v)
  {
    if cs != [] {
      JoinAllLeast(cs[..|cs| - 1], v);
      JoinIsLeastUpperBound(JoinAll(cs[..|cs| - 1]), cs[|cs| - 1].vv, v);
    }
  }

  function RankedHash(v: Version): Hash {
    if v.hash.None? then NO_HASH else v.hash.value
  }

  /**
   Who wins: a live version over a deletion, then the larger content hash, then
   the larger metadata hash, among the versions nobody dominates.
   */
  lemma WinnerIsLargest(h: Hashes, path: string, cs: seq<Version>, files: map<string, Version>, v: Version)
    requires Plan(h, path, cs, files).Some? && v in Antichain(h, cs)
    ensures Plan(h, path, cs, files).value != []
    ensures var top := Plan(h, path, cs, files).value[0];
            && top.path == path
            && (!v.tombstone ==> !top.row.tombstone && RankedHash(v) <= RankedHash(top.row))
            && (!v.tombstone && RankedHash(v) == RankedHash(top.row) ==>
                  && h.MetaHash(v.meta) <= h.MetaHash(top.row.meta)
                  && (h.MetaHash(v.meta) == h.MetaHash(top.row.meta) ==> v.mode <= top.row.mode && OptLeq(v.uuid, top.row.uuid)))
  {
    PlanShape(h, path, cs, files);
    AntichainBasics(h, cs);
    var maximal := Antichain(h, cs);
    var i :| 0 <= i < |maximal| && maximal[i] == v;
    assert KeyLeq(KeyOf(h, v), KeyOf(h, maximal[0]));
    TopBounds(h, KeyOf(h, maximal[0]), maximal, v);
  }

  lemma {:induction false} TopBounds(h: Hashes, k: Key, s: seq<Version>, v: Version)
    requires v in s
    ensures KeyOf(h, v) == k ==> v.mode <= TopMode(h, k, s) && OptLeq(v.uuid, TopUuid(h, k, s))
    decreases |s|
  {
    if KeyOf(h, v) == k {
      var init, last := s[..|s| - 1], s[|s| - 1];
      assert s == init + [last];
      if v in init {
        TopBounds(h, k, init, v);
      }
    }
  }

  /** The winner is one of the versions nobody dominates, and what it carries is carried over. */
  lemma WinnerIsCandidate(h: Hashes, path: string, cs: seq<Version>, files: map<string, Version>) returns (w: Version)
    requires Plan(h, path, cs, files).Some?
    ensures w in Antichain(h, cs) && w in cs && Plan(h, path, cs, files).value != []
    ensures var row := Plan(h, path, cs, files).value[0].row;
            row.tombstone == w.tombstone && row.hash == w.hash && (!w.tombstone ==> row.meta == w.meta && row.size == w.size)
  {
    PlanShape(h, path, cs, files);
    AntichainBasics(h, cs);
    w := Antichain(h, cs)[0];
  }

  /** All live versions that nobody dominates say the same. */
  ghost predicate Agreed(h: Hashes, s: seq<Version>) {
    forall u, v :: u in s && v in s && !u.tombstone && !v.tombstone ==> u.hash == v.hash && h.MetaHash(u.meta) == h.MetaHash(v.meta)
  }

  /** Deletions, and versions that say the same, are never copied: the plan is the winner's row alone. */
  lemma AgreementNeedsNoCopy(h: Hashes, path: string, cs: seq<Version>, files: map<string, Version>)
    requires cs != [] && (forall c :: c in cs ==> c.WellFormed()) && Agreed(h, Antichain(h, cs))
    ensures Plan(h, path, cs, files).Some? && |Plan(h, path, cs, files).value| == 1
  {
    AntichainBasics(h, cs);
    var x := MemberAbove(h, cs, cs[0]);
    var maximal := Antichain(h, cs);
    var w := maximal[0];
    forall i | 1 <= i < |maximal| ensures maximal[i].hash.None? || KeyOf(h, maximal[i]) == KeyOf(h, w) {
      assert maximal[i] in maximal && w in maximal;
      assert KeyLeq(KeyOf(h, maximal[i]), KeyOf(h, w));
    }
    NothingToCopy(h, path, KeyOf(h, w), maximal[1..], [Planned(path, WinnerRow(h, maximal, JoinAll(cs)))], files);
  }

  lemma {:induction false} NothingToCopy(h: Hashes, path: string, wk: Key, losers: seq<Version>, rows: seq<Planned>, files: map<string, Version>)
    requires forall i :: 0 <= i < |losers| ==> losers[i].hash.None? || KeyOf(h, losers[i]) == wk
    ensures PlanLosers(h, path, wk, losers, rows, files) == Some(rows)
    decreases |losers|
  {
    if losers != [] {
      NothingToCopy(h, path, wk, losers[1..], rows, files);
    }
  }

  /** Real files stand at `n` copy names, each one link longer than the one before. */
  ghost predicate Occupied(files: map<string, Version>, len: nat, n: nat)
    decreases n
  {
    n == 0 || ((exists p :: p in files && |p| == len && IsCopyName(p)) && Occupied(files, len + 31, n - 1))
  }

  /** A chain is refused only when four nested copy names are occupied, and never adds more than four rows. */
  lemma RefusedWhenOccupied(h: Hashes, cp: string, content: Version, rows: seq<Planned>, files: map<string, Version>)
    requires h.HexDigests() && IsCopyName(cp)
    ensures var r := Chain(h, cp, content, 0, rows, files);
            if r.None? then Occupied(files, |cp|, 4) else |r.value| <= |rows| + 4
  {
    ChainReaches(h, cp, content, 0, rows, files);
  }

  /** What a chain may still do with `left` links to go. */
  ghost predicate Reaches(files: map<string, Version>, cp: string, rows: seq<Planned>, r: Option<seq<Planned>>, left: nat) {
    if r.None? then Occupied(files, |cp|, left) else |r.value| <= |rows| + left
  }

  lemma {:induction false} ChainReaches(h: Hashes, cp: string, content: Version, depth: nat, rows: seq<Planned>, files: map<string, Version>)
    requires h.HexDigests() && IsCopyName(cp) && depth <= MAX_COPY_DEPTH
    ensures Reaches(files, cp, rows, Chain(h, cp, content, depth, rows, files), MAX_COPY_DEPTH - depth)
    decreases MAX_COPY_DEPTH - depth, 1
  {
    if depth < MAX_COPY_DEPTH && !PlannedAt(rows, cp) && cp in files && Compare(CopyVv(h, cp), files[cp].vv) == Concurrent {
      var s := Settle(h, cp, files[cp], content);
      if s.next.Some? {
        CopyIsLonger(h, cp, s.next.value);
        LinkReaches(h, cp, CopyPath(h, cp, s.next.value), s.next.value, depth, rows, rows + [Planned(cp, s.row)], files);
      }
    }
  }

  lemma LinkReaches(h: Hashes, cp: string, cp': string, l: Version, depth: nat, rows: seq<Planned>, rows': seq<Planned>, files: map<string, Version>)
    requires h.HexDigests() && IsCopyName(cp) && cp in files && IsCopyName(cp') && |cp'| == |cp| + 31 && depth < MAX_COPY_DEPTH && |rows'| == |rows| + 1
    ensures Reaches(files, cp, rows, Chain(h, cp', l, depth + 1, rows', files), MAX_COPY_DEPTH - depth)
    decreases MAX_COPY_DEPTH - depth, 0
  {
    ChainReaches(h, cp', l, depth + 1, rows', files);
    OneMoreLink(files, cp, cp', rows, rows', Chain(h, cp', l, depth + 1, rows', files), MAX_COPY_DEPTH - depth - 1);
  }

  lemma CopyIsLonger(h: Hashes, cp: string, l: Version)
    requires h.HexDigests() && l.hash.Some?
    ensures IsCopyName(CopyPath(h, cp, l)) && |CopyPath(h, cp, l)| == |cp| + 31
  {
    CopyPathIsCopyName(cp, h.digest(l.hash.value, h.NamingHash(l.meta)));
    CopyPathGrows(cp, h.digest(l.hash.value, h.NamingHash(l.meta)));
  }

  lemma OneMoreLink(files: map<string, Version>, cp: string, cp': string, rows: seq<Planned>, rows': seq<Planned>, r: Option<seq<Planned>>, left: nat)
    requires cp in files && IsCopyName(cp) && |cp'| == |cp| + 31 && |rows'| == |rows| + 1 && Reaches(files, cp', rows', r, left)
    ensures Reaches(files, cp, rows, r, left + 1)
  {
  }

  /** A copy placed at a free name is the loser itself, in every field but vector and identity, which the name fixes. */
  lemma FreeCopyIsWhole(h: Hashes, base: string, l: Version, depth: nat, rows: seq<Planned>, files: map<string, Version>)
    requires l.hash.Some? && depth < MAX_COPY_DEPTH && !PlannedAt(rows, CopyPath(h, base, l)) && CopyPath(h, base, l) !in files
    ensures var cp := CopyPath(h, base, l);
            var r := Chain(h, cp, l, depth, rows, files);
            && r.Some? && |r.value| == |rows| + 1 && rows <= r.value && r.value[|rows|].path == cp
            && var row := r.value[|rows|].row;
               && !row.tombstone && row.hash == l.hash && row.meta == l.meta && row.mode == l.mode && row.size == l.size
               && row.vv == map[h.copyOrigin(cp) := 1] && row.uuid == Some(h.copyOrigin(cp))
  {
  }

  /** The row that settles a collision is the larger of the two versions, live, with both vectors absorbed. */
  lemma SettledRowIsLarger(h: Hashes, cp: string, e: Version, c: Version)
    requires Compare(CopyVv(h, cp), e.vv) == Concurrent
    ensures var a := CopyRow(h, cp, c);
            var s := Settle(h, cp, e, c);
            var (w, l) := if KeyLeq(KeyOf(h, a), KeyOf(h, e)) then (e, a) else (a, e);
            && s.row.hash == w.hash && s.row.meta == w.meta && s.row.size == w.size && !s.row.tombstone
            && (KeyOf(h, a) != KeyOf(h, e) ==> s.row.mode == w.mode && (w.uuid.Some? ==> s.row.uuid == w.uuid))
            && (KeyOf(h, a) == KeyOf(h, e) ==> s.row.mode >= e.mode && s.row.mode >= c.mode && (s.row.mode == e.mode || s.row.mode == c.mode))
            && (s.next.Some? ==> s.next.value == l) && (s.next.Some? <==> l.hash.Some? && KeyOf(h, a) != KeyOf(h, e))
            && Less(e.vv, s.row.vv) && Leq(CopyVv(h, cp), s.row.vv)
  {
    NestedPair(h, e, CopyRow(h, cp, c));
    ConcurrentJoinLifts(e.vv, CopyVv(h, cp));
    JoinIsLeastUpperBound(e.vv, CopyVv(h, cp), e.vv);
  }
}

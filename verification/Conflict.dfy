/** Deterministic conflict resolution, the pure half (src/conflict.rs). */
module Conflict {
  import opened VersionVectors
  import opened CopyNames
  import opened Versions

  const MAX_COPY_DEPTH: nat := 4

  /** One row a resolution will commit. */
  datatype Planned = Planned(path: string, row: Version)

  // ---------------------------------------------------------------- antichain

  predicate Covers(keep: seq<Version>, c: Version) {
    exists k :: k in keep && Leq(c.vv, k.vv)
  }

  function Undominated(keep: seq<Version>, c: Version): seq<Version> {
    if keep == [] then []
    else
      var last := keep[|keep| - 1];
      Undominated(keep[..|keep| - 1], c) + if Less(last.vv, c.vv) then [] else [last]
  }

  /** What one candidate does to the versions kept so far. */
  function Sift(keep: seq<Version>, c: Version): seq<Version> {
    if Covers(keep, c) then keep else Undominated(keep, c) + [c]
  }

  function Survivors(cs: seq<Version>): seq<Version> {
    if cs == [] then [] else Sift(Survivors(cs[..|cs| - 1]), cs[|cs| - 1])
  }

  function InsertDesc(h: Hashes, v: Version, s: seq<Version>): seq<Version> {
    if s == [] || KeyLeq(KeyOf(h, s[0]), KeyOf(h, v)) then [v] + s
    else [s[0]] + InsertDesc(h, v, s[1..])
  }

  /** The stable sort by descending key. */
  function SortDesc(h: Hashes, s: seq<Version>): seq<Version> {
    if s == [] then [] else InsertDesc(h, s[0], SortDesc(h, s[1..]))
  }

  function Antichain(h: Hashes, cs: seq<Version>): seq<Version> {
    SortDesc(h, Survivors(cs))
  }

  ghost predicate PairwiseConcurrent(s: seq<Version>) {
    forall i, j :: 0 <= i < j < |s| ==> Compare(s[i].vv, s[j].vv) == Concurrent
  }

  ghost predicate SortedDesc(h: Hashes, s: seq<Version>) {
    forall i, j :: 0 <= i < j < |s| ==> KeyLeq(KeyOf(h, s[j]), KeyOf(h, s[i]))
  }

  lemma {:induction false} UndominatedIs(keep: seq<Version>, c: Version)
    ensures forall x :: x in Undominated(keep, c) <==> x in keep && !Less(x.vv, c.vv)
    ensures PairwiseConcurrent(keep) ==> PairwiseConcurrent(Undominated(keep, c))
  {
    if keep != [] {
      var init := keep[..|keep| - 1];
      var last := keep[|keep| - 1];
      UndominatedIs(init, c);
      assert keep == init + [last];
      if PairwiseConcurrent(keep) {
        assert PairwiseConcurrent(init);
        ConcurrentPush(init, Undominated(init, c), last);
      }
    }
  }

  /** A part of a concurrent list stays concurrent with what came after the list. */
  lemma ConcurrentPush(all: seq<Version>, part: seq<Version>, last: Version)
    requires PairwiseConcurrent(all + [last]) && PairwiseConcurrent(part) && forall x :: x in part ==> x in all
    ensures PairwiseConcurrent(part + [last])
  {
    forall i | 0 <= i < |part| ensures Compare(part[i].vv, last.vv) == Concurrent {
      assert part[i] in all;
      var k :| 0 <= k < |all| && all[k] == part[i];
      assert (all + [last])[k] == part[i] && (all + [last])[|all|] == last;
    }
  }

  /** The survivors are candidates, mutually concurrent, and cover every candidate. */
  lemma {:induction false} SurvivorsExact(cs: seq<Version>)
    ensures forall x :: x in Survivors(cs) ==> x in cs
    ensures PairwiseConcurrent(Survivors(cs))
    ensures forall c :: c in cs ==> Covers(Survivors(cs), c)
  {
    if cs != [] {
      var init := cs[..|cs| - 1];
      var c := cs[|cs| - 1];
      SurvivorsExact(init);
      assert cs == init + [c];
      var keep := Survivors(init);
      SiftKeepsConcurrent(keep, c);
      forall d | d in cs ensures Covers(Survivors(cs), d) {
        if d in init {
          SiftStillCovers(keep, c, d);
        } else if !Covers(keep, c) {
          CoversItself(Sift(keep, c), c);
        }
      }
    }
  }

  lemma CoversItself(keep: seq<Version>, c: Version)
    requires c in keep
    ensures Covers(keep, c)
  {
    assert Leq(c.vv, c.vv);
  }

  lemma SiftKeepsConcurrent(keep: seq<Version>, c: Version)
    requires PairwiseConcurrent(keep)
    ensures PairwiseConcurrent(Sift(keep, c))
    ensures forall x :: x in Sift(keep, c) ==> x in keep || x == c
    ensures Covers(keep, c) || c in Sift(keep, c)
  {
    UndominatedIs(keep, c);
    if !Covers(keep, c) {
      var u := Undominated(keep, c);
      forall i | 0 <= i < |u| ensures Compare(u[i].vv, c.vv) == Concurrent {
        assert u[i] in u;
        CompareMeaning(u[i].vv, c.vv);
      }
    }
  }

  lemma SiftStillCovers(keep: seq<Version>, c: Version, d: Version)
    requires Covers(keep, d)
    ensures Covers(Sift(keep, c), d)
  {
    var k :| k in keep && Leq(d.vv, k.vv);
    UndominatedIs(keep, c);
    if !Covers(keep, c) && Less(k.vv, c.vv) {
      LeqTransitive(d.vv, k.vv, c.vv);
      assert c in Sift(keep, c);
    } else {
      assert k in Sift(keep, c);
    }
  }

  lemma {:induction false} InsertDescIs(h: Hashes, v: Version, s: seq<Version>)
    requires SortedDesc(h, s)
    ensures SortedDesc(h, InsertDesc(h, v, s))
    ensures multiset(InsertDesc(h, v, s)) == multiset(s) + multiset{v}
  {
    if s == [] {
    } else if KeyLeq(KeyOf(h, s[0]), KeyOf(h, v)) {
      InsertFirst(h, v, s);
    } else {
      InsertDescIs(h, v, s[1..]);
      assert s == [s[0]] + s[1..];
      InsertLater(h, v, s, InsertDesc(h, v, s[1..]));
    }
  }

  lemma InsertLater(h: Hashes, v: Version, s: seq<Version>, t: seq<Version>)
    requires SortedDesc(h, s) && s != [] && !KeyLeq(KeyOf(h, s[0]), KeyOf(h, v))
    requires SortedDesc(h, t) && multiset(t) == multiset(s[1..]) + multiset{v}
    ensures SortedDesc(h, [s[0]] + t)
  {
    forall j | 0 <= j < |t| ensures KeyLeq(KeyOf(h, t[j]), KeyOf(h, s[0])) {
      assert t[j] in multiset(t);
      KeyTotalOrder(KeyOf(h, s[0]), KeyOf(h, v), KeyOf(h, v));
    }
  }

  lemma InsertFirst(h: Hashes, v: Version, s: seq<Version>)
    requires SortedDesc(h, s) && s != [] && KeyLeq(KeyOf(h, s[0]), KeyOf(h, v))
    ensures SortedDesc(h, [v] + s)
  {
    forall j | 0 <= j < |s| ensures KeyLeq(KeyOf(h, s[j]), KeyOf(h, v)) {
      KeyTotalOrder(KeyOf(h, s[j]), KeyOf(h, s[0]), KeyOf(h, v));
    }
  }

  lemma {:induction false} SortDescIs(h: Hashes, s: seq<Version>)
    ensures SortedDesc(h, SortDesc(h, s))
    ensures multiset(SortDesc(h, s)) == multiset(s)
  {
    if s != [] {
      SortDescIs(h, s[1..]);
      InsertDescIs(h, s[0], SortDesc(h, s[1..]));
      assert s == [s[0]] + s[1..];
    }
  }

  lemma AntichainBasics(h: Hashes, cs: seq<Version>)
    ensures PairwiseConcurrent(Antichain(h, cs))
    ensures SortedDesc(h, Antichain(h, cs))
    ensures forall x :: x in Antichain(h, cs) <==> x in Survivors(cs)
    ensures forall x :: x in Antichain(h, cs) ==> x in cs
  {
    SurvivorsExact(cs);
    SortDescIs(h, Survivors(cs));
    SameMembers(Antichain(h, cs), Survivors(cs));
    ConcurrencyIsOrderFree(Survivors(cs), Antichain(h, cs));
  }

  /** Every candidate is covered by a member of the antichain. */
  lemma MemberAbove(h: Hashes, cs: seq<Version>, c: Version) returns (x: Version)
    requires c in cs
    ensures x in Antichain(h, cs) && Leq(c.vv, x.vv)
  {
    SurvivorsExact(cs);
    AntichainBasics(h, cs);
    assert Covers(Survivors(cs), c);
    x :| x in Survivors(cs) && Leq(c.vv, x.vv);
  }

  /** No candidate dominates a member of the antichain. */
  lemma MemberIsMaximal(h: Hashes, cs: seq<Version>, x: Version, c: Version)
    requires x in Antichain(h, cs) && c in cs
    ensures !Less(x.vv, c.vv)
  {
    if Less(x.vv, c.vv) {
      AntichainBasics(h, cs);
      var k := MemberAbove(h, cs, c);
      LessTransitive(x.vv, c.vv, k.vv);
      ConcurrentMembers(Antichain(h, cs), x, k);
    }
  }

  /**
   `antichain` returns exactly the maximal candidates: its members are
   candidates nobody dominates, they are pairwise concurrent, every candidate
   is covered by one of them, and they come largest key first.
   */
  lemma AntichainExact(h: Hashes, cs: seq<Version>)
    ensures forall x, c :: x in Antichain(h, cs) && c in cs ==> !Less(x.vv, c.vv)
    ensures forall x :: x in Antichain(h, cs) ==> x in cs
    ensures forall c :: c in cs ==> exists x :: x in Antichain(h, cs) && Leq(c.vv, x.vv)
    ensures PairwiseConcurrent(Antichain(h, cs)) && SortedDesc(h, Antichain(h, cs))
  {
    AntichainBasics(h, cs);
    forall x, c | x in Antichain(h, cs) && c in cs ensures !Less(x.vv, c.vv) {
      MemberIsMaximal(h, cs, x, c);
    }
    forall c | c in cs ensures exists x :: x in Antichain(h, cs) && Leq(c.vv, x.vv) {
      var x := MemberAbove(h, cs, c);
    }
  }

  lemma SameMembers(a: seq<Version>, b: seq<Version>)
    requires multiset(a) == multiset(b)
    ensures |a| == |b|
    ensures forall x :: x in a <==> x in b
  {
    assert |multiset(a)| == |a| && |multiset(b)| == |b|;
    forall x ensures x in a <==> x in b {
      assert x in a <==> x in multiset(a);
      assert x in b <==> x in multiset(b);
    }
  }

  /** Members with different vectors of a pairwise concurrent list are concurrent. */
  lemma ConcurrentMembers(s: seq<Version>, x: Version, y: Version)
    requires PairwiseConcurrent(s) && x in s && y in s && x != y
    ensures Compare(x.vv, y.vv) == Concurrent
    ensures !Leq(x.vv, y.vv) && !Leq(y.vv, x.vv)
  {
    var i :| 0 <= i < |s| && s[i] == x;
    var j :| 0 <= j < |s| && s[j] == y;
    assert Compare(s[if i < j then i else j].vv, s[if i < j then j else i].vv) == Concurrent;
    CompareMeaning(x.vv, y.vv);
    CompareMeaning(y.vv, x.vv);
  }

  lemma ConcurrentNoDuplicates(s: seq<Version>, x: Version)
    requires PairwiseConcurrent(s)
    ensures multiset(s)[x] <= 1
  {
    if s != [] {
      var init, last := s[..|s| - 1], s[|s| - 1];
      assert s == init + [last];
      ConcurrentNoDuplicates(init, x);
      assert forall i :: 0 <= i < |init| ==> Compare(s[i].vv, last.vv) == Concurrent;
    }
  }

  lemma ConcurrencyIsOrderFree(s: seq<Version>, t: seq<Version>)
    requires PairwiseConcurrent(s) && multiset(s) == multiset(t)
    ensures PairwiseConcurrent(t)
  {
    SameMembers(s, t);
    forall i, j | 0 <= i < j < |t| ensures Compare(t[i].vv, t[j].vv) == Concurrent {
      if t[i] == t[j] {
        ConcurrentNoDuplicates(s, t[i]);
        TwoOccurrences(t, i, j);
        assert false;
      }
      ConcurrentMembers(s, t[i], t[j]);
    }
  }

  lemma TwoOccurrences(t: seq<Version>, i: int, j: int)
    requires 0 <= i < j < |t| && t[i] == t[j]
    ensures multiset(t)[t[i]] >= 2
  {
    assert t == t[..i] + [t[i]] + t[i + 1..j] + [t[j]] + t[j + 1..];
  }

  /** The nested loops of `antichain`, editing `keep` in place, then the sort. */
  method AntichainLoop(h: Hashes, cs: seq<Version>) returns (r: seq<Version>)
    ensures r == Antichain(h, cs)
  {
    var keep := [];
    for n := 0 to |cs|
      invariant keep == Survivors(cs[..n])
    {
      SurvivorsExact(cs[..n]);
      assert cs[..n + 1][..n] == cs[..n];
      keep := SiftLoop(keep, cs[n]);
    }
    assert cs[..|cs|] == cs;
    r := SortDesc(h, keep);
  }

  /** One candidate against `keep`: stop when covered, remove what it dominates. */
  method SiftLoop(start: seq<Version>, c: Version) returns (keep: seq<Version>)
    requires PairwiseConcurrent(start)
    ensures keep == Sift(start, c)
  {
    keep := start;
    var i := 0;
    ghost var j := 0;
    assert start[0..] == start;
    while i < |keep|
      invariant AtStep(start, c, j, keep, i)
      invariant forall m :: 0 <= m < j ==> !Leq(c.vv, start[m].vv)
      decreases |keep| - i
    {
      NextStep(start, c, j, keep, i);
      var o := CompareByKeys(c.vv, keep[i].vv);
      CompareMeaning(c.vv, keep[i].vv);
      if o == Dominated || o == Equal {
        CoveredStops(start, c, j, keep, i);
        return;
      } else if o == Dominates {
        keep := keep[..i] + keep[i + 1..];
      } else {
        i := i + 1;
      }
      j := j + 1;
    }
    UncoveredAppends(start, c, j, keep, i);
    keep := keep + [c];
  }

  lemma CoveredStops(start: seq<Version>, c: Version, j: nat, keep: seq<Version>, i: nat)
    requires PairwiseConcurrent(start) && AtStep(start, c, j, keep, i) && j < |start| && Leq(c.vv, start[j].vv)
    ensures keep == Sift(start, c)
  {
    CoveredRemovesNothing(start, j, c);
  }

  lemma UncoveredAppends(start: seq<Version>, c: Version, j: nat, keep: seq<Version>, i: nat)
    requires AtStep(start, c, j, keep, i) && i >= |keep|
    requires forall m :: 0 <= m < j ==> !Leq(c.vv, start[m].vv)
    ensures keep + [c] == Sift(start, c)
  {
    assert start[..j] == start;
  }

  /** The first `j` of `start` are sifted down to the first `i` of `keep`. */
  ghost predicate AtStep(start: seq<Version>, c: Version, j: nat, keep: seq<Version>, i: nat) {
    && j <= |start|
    && keep == Undominated(start[..j], c) + start[j..]
    && i == |Undominated(start[..j], c)|
  }

  lemma NextStep(start: seq<Version>, c: Version, j: nat, keep: seq<Version>, i: nat)
    requires AtStep(start, c, j, keep, i) && i < |keep|
    ensures j < |start| && keep[i] == start[j]
    ensures Less(start[j].vv, c.vv) ==> AtStep(start, c, j + 1, keep[..i] + keep[i + 1..], i)
    ensures !Less(start[j].vv, c.vv) ==> AtStep(start, c, j + 1, keep, i + 1)
  {
    UndominatedNext(start, j, c);
    var u := Undominated(start[..j], c);
    assert keep == u + [start[j]] + start[j + 1..];
  }

  lemma UndominatedNext(start: seq<Version>, j: nat, c: Version)
    requires j < |start|
    ensures start[j..] == [start[j]] + start[j + 1..]
    ensures Undominated(start[..j + 1], c) ==
            Undominated(start[..j], c) + if Less(start[j].vv, c.vv) then [] else [start[j]]
  {
    assert start[..j + 1][..j] == start[..j];
  }

  /** A covered candidate cannot dominate anything kept, so the early exit lost nothing. */
  lemma CoveredRemovesNothing(start: seq<Version>, j: nat, c: Version)
    requires PairwiseConcurrent(start) && j < |start| && Leq(c.vv, start[j].vv)
    ensures Undominated(start[..j], c) + start[j..] == start && Covers(start, c)
  {
    forall m | 0 <= m < j ensures !Less(start[m].vv, c.vv) {
      assert Compare(start[m].vv, start[j].vv) == Concurrent;
      if Less(start[m].vv, c.vv) {
        LessTransitive(start[m].vv, c.vv, start[j].vv);
      }
    }
    UndominatedAll(start[..j], c);
    assert start[j] in start;
  }

  lemma {:induction false} UndominatedAll(keep: seq<Version>, c: Version)
    requires forall m :: 0 <= m < |keep| ==> !Less(keep[m].vv, c.vv)
    ensures Undominated(keep, c) == keep
  {
    if keep != [] {
      UndominatedAll(keep[..|keep| - 1], c);
      assert keep == keep[..|keep| - 1] + [keep[|keep| - 1]];
    }
  }

  // --------------------------------------------------------------------- plan

  function JoinAll(cs: seq<Version>): VersionVector {
    if cs == [] then map[] else Join(JoinAll(cs[..|cs| - 1]), cs[|cs| - 1].vv)
  }

  /** Largest mode among the members of `s` with key `k`. */
  function TopMode(h: Hashes, k: Key, s: seq<Version>): nat {
    if s == [] then 0
    else
      var rest := TopMode(h, k, s[..|s| - 1]);
      var last := s[|s| - 1];
      if KeyOf(h, last) == k && last.mode > rest then last.mode else rest
  }

  /** Largest identity among the members of `s` with key `k`. */
  function TopUuid(h: Hashes, k: Key, s: seq<Version>): Option<Uuid> {
    if s == [] then None
    else
      var rest := TopUuid(h, k, s[..|s| - 1]);
      var last := s[|s| - 1];
      if KeyOf(h, last) == k then OptMax(rest, last.uuid) else rest
  }

  /** The row committed at the conflicted path itself. */
  function WinnerRow(h: Hashes, maximal: seq<Version>, vv: VersionVector): Version
    requires maximal != []
  {
    var w := maximal[0];
    var k := KeyOf(h, w);
    Version(
      w.tombstone,
      w.hash,
      if w.tombstone then None else w.meta,
      if w.tombstone then 0 else TopMode(h, k, maximal),
      if w.tombstone then 0 else w.size,
      vv,
      TopUuid(h, k, maximal))
  }

  function CopyPath(h: Hashes, path: string, v: Version): string
    requires v.hash.Some?
  {
    CopyPathFor(path, h.digest(v.hash.value, h.NamingHash(v.meta)))
  }

  function CopyVv(h: Hashes, cp: string): VersionVector {
    map[h.copyOrigin(cp) := 1]
  }

  function CopyRow(h: Hashes, cp: string, v: Version): Version {
    v.(tombstone := false, vv := CopyVv(h, cp), uuid := Some(h.copyOrigin(cp)))
  }

  predicate PlannedAt(rows: seq<Planned>, path: string) {
    exists i :: 0 <= i < |rows| && rows[i].path == path
  }

  /** Two concurrent versions both survive, larger key first. */
  lemma NestedPair(h: Hashes, a: Version, b: Version)
    requires Compare(b.vv, a.vv) == Concurrent
    ensures Antichain(h, [a, b]) ==
            if KeyLeq(KeyOf(h, b), KeyOf(h, a)) then [a, b] else [b, a]
  {
    var cs := [a, b];
    assert cs[..1] == [a] && cs[..1][..0] == [];
    assert Survivors([]) == [];
    assert Survivors([a]) == [a];
    CompareMeaning(b.vv, a.vv);
    assert !Covers([a], b);
    assert [a][..0] == [];
    assert Undominated([a], b) == [a];
    assert Survivors(cs) == [a, b];
    assert cs[1..] == [b];
    assert [b][1..] == [];
    assert SortDesc(h, []) == [];
    assert SortDesc(h, [b]) == [b];
    assert SortDesc(h, cs) == InsertDesc(h, a, [b]);
    assert InsertDesc(h, a, []) == [a];
  }

  /** The row that settles a copy name a real file already occupies. */
  function NestedRow(h: Hashes, cp: string, w: Version, l: Version, vv: VersionVector): Version {
    var tie := KeyOf(h, w) == KeyOf(h, l);
    Version(
      false,
      w.hash,
      w.meta,
      if tie && l.mode > w.mode then l.mode else w.mode,
      w.size,
      vv,
      if tie then OptMax(w.uuid, l.uuid) else if w.uuid.Some? then w.uuid else Some(h.copyOrigin(cp)))
  }

  /** The outcome of a collision: the settled row, and the loser to push further. */
  datatype Settled = Settled(row: Version, next: Option<Version>)

  function Settle(h: Hashes, cp: string, existing: Version, content: Version): (r: Settled)
    requires Compare(CopyVv(h, cp), existing.vv) == Concurrent
    ensures r.next.Some? ==> r.next.value.hash.Some?
    ensures r.row.vv == Join(existing.vv, CopyVv(h, cp))
  {
    NestedPair(h, existing, CopyRow(h, cp, content));
    var nested := Antichain(h, [existing, CopyRow(h, cp, content)]);
    var w, l := nested[0], nested[1];
    Settled(NestedRow(h, cp, w, l, Join(existing.vv, CopyVv(h, cp))),
            if l.hash.Some? && KeyOf(h, l) != KeyOf(h, w) then Some(l) else None)
  }

  /** Place `content` at `cp`, pushing the loser of a collision one link further. */
  function Chain(h: Hashes, cp: string, content: Version, depth: nat, rows: seq<Planned>, files: map<string, Version>): Option<seq<Planned>>
    decreases MAX_COPY_DEPTH - depth
  {
    if depth + 1 > MAX_COPY_DEPTH then None
    else if PlannedAt(rows, cp) then Some(rows)
    else if cp !in files || Compare(CopyVv(h, cp), files[cp].vv) == Dominates then
      Some(rows + [Planned(cp, CopyRow(h, cp, content))])
    else if Compare(CopyVv(h, cp), files[cp].vv) != Concurrent then Some(rows)
    else
      var s := Settle(h, cp, files[cp], content);
      if s.next.Some?
      then Chain(h, CopyPath(h, cp, s.next.value), s.next.value, depth + 1, rows + [Planned(cp, s.row)], files)
      else Some(rows + [Planned(cp, s.row)])
  }

  function PlanLoser(h: Hashes, path: string, wk: Key, l: Version, rows: seq<Planned>, files: map<string, Version>): Option<seq<Planned>> {
    if l.hash.None? || KeyOf(h, l) == wk then Some(rows)
    else Chain(h, CopyPath(h, path, l), l, 0, rows, files)
  }

  function PlanLosers(h: Hashes, path: string, wk: Key, losers: seq<Version>, rows: seq<Planned>, files: map<string, Version>): Option<seq<Planned>> {
    if losers == [] then Some(rows)
    else
      match PlanLoser(h, path, wk, losers[0], rows, files)
      case None => None
      case Some(rows') => PlanLosers(h, path, wk, losers[1..], rows', files)
  }

  /**
   The row plan for one conflicted path: the winner over the antichain with
   every candidate's vector absorbed, then one copy chain per losing version.
   `None` when there is no candidate or a chain exceeds MAX_COPY_DEPTH.
   */
  function Plan(h: Hashes, path: string, cs: seq<Version>, files: map<string, Version>): Option<seq<Planned>> {
    var maximal := Antichain(h, cs);
    if maximal == [] then None
    else
      PlanLosers(h, path, KeyOf(h, maximal[0]), maximal[1..],
                 [Planned(path, WinnerRow(h, maximal, JoinAll(cs)))], files)
  }

  /** The loops of `plan_candidates`. */
  method PlanCandidates(h: Hashes, path: string, cs: seq<Version>, files: map<string, Version>) returns (r: Option<seq<Planned>>)
    ensures r == Plan(h, path, cs, files)
  {
    var maximal := AntichainLoop(h, cs);
    if maximal == [] {
      return None;
    }
    var vv := MergeAllVectors(cs);
    r := PlanLosersLoop(h, path, maximal, [Planned(path, WinnerRow(h, maximal, vv))], files);
  }

  /** The merged vector of all candidates. */
  method MergeAllVectors(cs: seq<Version>) returns (vv: VersionVector)
    ensures vv == JoinAll(cs)
  {
    vv := map[];
    for n := 0 to |cs|
      invariant vv == JoinAll(cs[..n])
    {
      assert cs[..n + 1][..n] == cs[..n];
      vv := Merge(vv, cs[n].vv);
    }
    assert cs[..|cs|] == cs;
  }

  /** The loop over the losing members. */
  method PlanLosersLoop(h: Hashes, path: string, maximal: seq<Version>, start: seq<Planned>, files: map<string, Version>) returns (r: Option<seq<Planned>>)
    requires maximal != []
    ensures r == PlanLosers(h, path, KeyOf(h, maximal[0]), maximal[1..], start, files)
  {
    var wk, rows, i := KeyOf(h, maximal[0]), start, 1;
    while i < |maximal|
      invariant 1 <= i <= |maximal|
      invariant PlanLosers(h, path, wk, maximal[1..], start, files) == PlanLosers(h, path, wk, maximal[i..], rows, files)
    {
      var l := maximal[i];
      assert maximal[i..][1..] == maximal[i + 1..];
      if l.hash.Some? && KeyOf(h, l) != wk {
        var placed := ChainLoop(h, CopyPath(h, path, l), l, rows, files);
        if placed.None? {
          return None;
        }
        rows := placed.value;
      }
      i := i + 1;
    }
    r := Some(rows);
  }

  /** The `while let Some(..) = link.take()` loop for one loser. */
  method ChainLoop(h: Hashes, cp0: string, content0: Version, rows0: seq<Planned>, files: map<string, Version>) returns (r: Option<seq<Planned>>)
    ensures r == Chain(h, cp0, content0, 0, rows0, files)
  {
    var link := Some((cp0, content0));
    var rows := rows0;
    var depth := 0;
    while link.Some?
      invariant link.Some? ==> depth <= MAX_COPY_DEPTH
      invariant Chain(h, cp0, content0, 0, rows0, files) ==
                if link.Some? then Chain(h, link.value.0, link.value.1, depth, rows, files) else Some(rows)
      decreases if link.Some? then MAX_COPY_DEPTH + 1 - depth else 0
    {
      var (cp, content) := link.value;
      link := None;
      depth := depth + 1;
      if depth > MAX_COPY_DEPTH {
        return None;
      }
      if PlannedAt(rows, cp) {
        break;
      }
      var cvv := CopyVv(h, cp);
      if cp !in files {
        rows := rows + [Planned(cp, CopyRow(h, cp, content))];
      } else {
        var existing := files[cp];
        var o := CompareByKeys(cvv, existing.vv);
        match o
        case Dominates =>
          rows := rows + [Planned(cp, CopyRow(h, cp, content))];
        case Equal =>
        case Dominated =>
        case Concurrent =>
          NestedPair(h, existing, CopyRow(h, cp, content));
          var nested := AntichainLoop(h, [existing, CopyRow(h, cp, content)]);
          var w, l := nested[0], nested[1];
          var nvv := Merge(existing.vv, cvv);
          rows := rows + [Planned(cp, NestedRow(h, cp, w, l, nvv))];
          if l.hash.Some? && KeyOf(h, l) != KeyOf(h, w) {
            link := Some((CopyPath(h, cp, l), l));
          }
      }
    }
    r := Some(rows);
  }
}

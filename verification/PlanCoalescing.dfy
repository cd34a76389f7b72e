/** Two losers that share a copy name, and the debug assertions of `plan_candidates` about them (src/conflict.rs). */
module PlanCoalescing {
  import opened VersionVectors
  import opened CopyNames
  import opened Versions
  import opened Conflict
  import opened PlanLaws
  import opened PlanKeeps

  /** What a chain commits at the name of one of its links. */
  function LinkRow(h: Hashes, cp: string, c: Version, files: map<string, Version>): Version {
    if cp in files && Compare(CopyVv(h, cp), files[cp].vv) == Concurrent then Settle(h, cp, files[cp], c).row
    else CopyRow(h, cp, c)
  }

  /** A link at a fresh name commits its row next, unless the row there already covers the copy. */
  lemma LinkCommits(h: Hashes, cp: string, c: Version, depth: nat, rows: seq<Planned>, files: map<string, Version>)
    requires DistinctPaths(rows) && !PlannedAt(rows, cp) && IsCopyName(cp) && Chain(h, cp, c, depth, rows, files).Some?
    requires cp in files ==> Compare(CopyVv(h, cp), files[cp].vv) in {Dominates, Concurrent}
    ensures var rs := Chain(h, cp, c, depth, rows, files).value;
            |rs| > |rows| && rs[|rows|] == Planned(cp, LinkRow(h, cp, c, files))
  {
    if cp in files && Compare(CopyVv(h, cp), files[cp].vv) == Concurrent {
      CollisionCommits(h, cp, c, depth, rows, files);
    }
  }

  lemma CollisionCommits(h: Hashes, cp: string, c: Version, depth: nat, rows: seq<Planned>, files: map<string, Version>)
    requires DistinctPaths(rows) && !PlannedAt(rows, cp) && IsCopyName(cp) && Chain(h, cp, c, depth, rows, files).Some?
    requires cp in files && Compare(CopyVv(h, cp), files[cp].vv) == Concurrent
    ensures var rs := Chain(h, cp, c, depth, rows, files).value;
            |rs| > |rows| && rs[|rows|] == Planned(cp, Settle(h, cp, files[cp], c).row)
  {
    var s := Settle(h, cp, files[cp], c);
    var rows' := rows + [Planned(cp, s.row)];
    var rs := Chain(h, cp, c, depth, rows, files);
    if s.next.Some? {
      assert rs == Chain(h, CopyPath(h, cp, s.next.value), s.next.value, depth + 1, rows', files);
      ConcurrentJoinLifts(files[cp].vv, CopyVv(h, cp));
      NextExtends(h, cp, s, depth, rows, files);
      assert rows' <= rs.value;
    }
  }

  lemma NextExtends(h: Hashes, cp: string, s: Settled, depth: nat, rows: seq<Planned>, files: map<string, Version>)
    requires DistinctPaths(rows) && !PlannedAt(rows, cp) && IsCopyName(cp) && s.next.Some? && s.next.value.hash.Some?
    requires cp in files && Less(files[cp].vv, s.row.vv)
    ensures var rows' := rows + [Planned(cp, s.row)];
            var r := Chain(h, CopyPath(h, cp, s.next.value), s.next.value, depth + 1, rows', files);
            r.Some? ==> rows' <= r.value
  {
    AddOne(files, rows, Planned(cp, s.row));
    CopyPathIsCopyName(cp, h.DigestOf(s.next.value.Carried()));
    ChainAddsCopies(h, CopyPath(h, cp, s.next.value), s.next.value, depth + 1, rows + [Planned(cp, s.row)], files);
  }

  /** A real file of larger key and other content occupies the copy name. */
  predicate OtherFileWins(h: Hashes, files: map<string, Version>, cp: string, c: Version) {
    && cp in files && Compare(CopyVv(h, cp), files[cp].vv) == Concurrent
    && KeyLeq(KeyOf(h, CopyRow(h, cp, c)), KeyOf(h, files[cp]))
    && (files[cp].hash != c.hash || h.NamingHash(files[cp].meta) != h.NamingHash(c.meta))
  }

  /** The two assertions: the row planned at the name carries the content and durable metadata of `d`. */
  predicate AssertionsHold(h: Hashes, planned: Planned, d: Version) {
    planned.row.hash == d.hash && h.NamingHash(planned.row.meta) == h.NamingHash(d.meta)
  }

  /**
   A link for `d` meets the name an earlier link for `c` was planned at, with any
   rows planned since. The assertions hold if and only if no real file of larger
   key and other content won the name from `c`.
   */
  lemma CoalescingAssertion(h: Hashes, base: string, c: Version, d: Version, depth: nat, rows: seq<Planned>, since: seq<Planned>, files: map<string, Version>)
    requires h.HexDigests() && c.hash.Some? && d.hash.Some? && h.TellsNames({c.Carried(), d.Carried()})
    requires CopyPath(h, base, c) == CopyPath(h, base, d) && DistinctPaths(since) && !PlannedAt(rows, CopyPath(h, base, c))
    requires var cp := CopyPath(h, base, c);
             && (cp in files ==> Compare(CopyVv(h, cp), files[cp].vv) in {Dominates, Concurrent})
             && Chain(h, cp, c, depth, rows, files).Some? && rows <= Chain(h, cp, c, depth, rows, files).value <= since
    ensures var cp := CopyPath(h, base, c);
            && |since| > |rows| && since[|rows|].path == cp
            && (AssertionsHold(h, since[|rows|], d) <==> !OtherFileWins(h, files, cp, c))
  {
    var cp := CopyPath(h, base, c);
    assert DistinctPaths(rows) by {
      assert forall i :: 0 <= i < |rows| ==> rows[i] == since[i];
    }
    SameName(h, base, c, d);
    CopyPathIsCopyName(base, h.DigestOf(c.Carried()));
    LinkCommits(h, cp, c, depth, rows, files);
    if cp in files && Compare(CopyVv(h, cp), files[cp].vv) == Concurrent {
      NestedPair(h, files[cp], CopyRow(h, cp, c));
    }
  }

  lemma SameName(h: Hashes, base: string, c: Version, d: Version)
    requires h.HexDigests() && c.hash.Some? && d.hash.Some? && h.TellsNames({c.Carried(), d.Carried()})
    requires CopyPath(h, base, c) == CopyPath(h, base, d)
    ensures c.hash == d.hash && h.NamingHash(c.meta) == h.NamingHash(d.meta)
  {
    CopyPathInjective(base, h.DigestOf(c.Carried()), base, h.DigestOf(d.Carried()));
  }

  // ---------------------------------------------------------------- the input

  lemma {:induction false} SurvivorsOfConcurrent(cs: seq<Version>)
    requires PairwiseConcurrent(cs)
    ensures Survivors(cs) == cs
  {
    if cs != [] {
      var init, last := cs[..|cs| - 1], cs[|cs| - 1];
      assert cs == init + [last];
      SurvivorsOfConcurrent(init);
      ConcurrentSifts(init, last);
    }
  }

  lemma ConcurrentSifts(keep: seq<Version>, c: Version)
    requires PairwiseConcurrent(keep + [c])
    ensures Sift(keep, c) == keep + [c]
  {
    var all := keep + [c];
    forall i | 0 <= i < |keep| ensures !Leq(c.vv, keep[i].vv) && !Less(keep[i].vv, c.vv) {
      assert all[i] == keep[i] && all[|keep|] == c;
      CompareMeaning(keep[i].vv, c.vv);
    }
    UndominatedAll(keep, c);
  }

  lemma {:induction false} SortOfSorted(h: Hashes, cs: seq<Version>)
    requires SortedDesc(h, cs)
    ensures SortDesc(h, cs) == cs
  {
    if cs != [] {
      SortOfSorted(h, cs[1..]);
      assert cs == [cs[0]] + cs[1..];
    }
  }

  /** Concurrent versions in key order are their own antichain. */
  lemma AntichainOfSorted(h: Hashes, cs: seq<Version>)
    requires PairwiseConcurrent(cs) && SortedDesc(h, cs)
    ensures Antichain(h, cs) == cs
  {
    SurvivorsOfConcurrent(cs);
    SortOfSorted(h, cs);
  }

  lemma ApartVectors(m: NodeId, n: NodeId)
    requires m != n
    ensures Compare(map[m := 1], map[n := 1]) == Concurrent
  {
    var a: VersionVector, b: VersionVector := map[m := 1], map[n := 1];
    assert a[m] == 1 && Get(b, m) == 0 && b[n] == 1 && Get(a, n) == 0;
  }

  const PLAIN: Durable := Durable(0, 0, 0, None, [])

  function Touched(ns: nat): Option<Meta> {
    Some(Meta(PLAIN, 0, 0, 0, ns))
  }

  /** Hash functions that tell apart all that the example mentions. */
  function ExampleHashes(): Hashes {
    Hashes((m: Meta) => m.mtimeNs + 1, (d: Durable) => 1,
           (c: Hash, n: Hash) => if c == 1 then "0000000000000001" else if c == 2 then "0000000000000002" else "0000000000000003",
           (p: string) => |p|, (n: NodeId, k: nat, p: string) => k, (p: string) => |p|, (c: Hash) => 0)
  }

  /** A winner, and two losers of one content that differ in modification time only. */
  function ExampleWinner(): Version { Version(false, Some(3), Touched(0), 0, 0, map[1 := 1], None) }
  function FirstLoser(): Version { Version(false, Some(1), Touched(1), 0, 0, map[2 := 1], None) }
  function SecondLoser(): Version { Version(false, Some(1), Touched(0), 0, 0, map[3 := 1], None) }

  function ExampleCandidates(): seq<Version> { [ExampleWinner(), FirstLoser(), SecondLoser()] }

  function SharedName(): string { CopyPath(ExampleHashes(), "a", FirstLoser()) }

  /** A file someone wrote at the name the losers share. */
  function Squatter(): Version { Version(false, Some(2), Touched(0), 0, 0, map[0 := 1], None) }

  function ExampleFiles(): map<string, Version> { map[SharedName() := Squatter()] }

  lemma ExampleAntichain()
    ensures Antichain(ExampleHashes(), ExampleCandidates()) == ExampleCandidates()
  {
    var h, cs := ExampleHashes(), ExampleCandidates();
    ApartVectors(1, 2);
    ApartVectors(1, 3);
    ApartVectors(2, 3);
    assert PairwiseConcurrent(cs);
    assert KeyOf(h, cs[0]) == Key(1, 3, 1) && KeyOf(h, cs[1]) == Key(1, 1, 2) && KeyOf(h, cs[2]) == Key(1, 1, 1);
    assert SortedDesc(h, cs);
    AntichainOfSorted(h, cs);
  }

  lemma ExampleHex()
    ensures ExampleHashes().HexDigests()
  {
  }

  lemma ExampleName()
    ensures |SharedName()| == 32 && IsCopyName(SharedName())
    ensures CopyPath(ExampleHashes(), "a", SecondLoser()) == SharedName()
    ensures Compare(CopyVv(ExampleHashes(), SharedName()), Squatter().vv) == Concurrent
  {
    var h := ExampleHashes();
    ExampleHex();
    CopyPathGrows("a", h.DigestOf(FirstLoser().Carried()));
    CopyPathIsCopyName("a", h.DigestOf(FirstLoser().Carried()));
    ApartVectors(32, 0);
  }

  /** A loser pushed off the only occupied name by the file there lands one name further. */
  lemma PushedOff(h: Hashes, cp: string, c: Version, top: Planned, files: map<string, Version>)
    requires h.HexDigests() && c.hash.Some? && files.Keys == {cp} && Compare(CopyVv(h, cp), files[cp].vv) == Concurrent
    requires var a, b := KeyOf(h, CopyRow(h, cp, c)), KeyOf(h, files[cp]); KeyLeq(a, b) && a != b
    requires |top.path| < |cp|
    ensures var r := Chain(h, cp, c, 0, [top], files);
            && r.Some? && |r.value| == 3 && [top] <= r.value
            && r.value[1].path == cp && r.value[1].row.hash == files[cp].hash
  {
    FileWins(h, cp, files[cp], c);
    var s := Settle(h, cp, files[cp], c);
    var rows := [top] + [Planned(cp, s.row)];
    CopyPathGrows(cp, h.DigestOf(s.next.value.Carried()));
    LandsFurther(h, cp, s.next.value, rows, files);
    LinkGoesOn(h, cp, c, 0, [top], files);
  }

  lemma FileWins(h: Hashes, cp: string, e: Version, c: Version)
    requires c.hash.Some? && Compare(CopyVv(h, cp), e.vv) == Concurrent
    requires var a, b := KeyOf(h, CopyRow(h, cp, c)), KeyOf(h, e); KeyLeq(a, b) && a != b
    ensures var s := Settle(h, cp, e, c); s.next == Some(CopyRow(h, cp, c)) && s.row.hash == e.hash
  {
    NestedPair(h, e, CopyRow(h, cp, c));
  }

  lemma ExampleChain(top: Planned)
    requires top.path == "a"
    ensures var r := Chain(ExampleHashes(), SharedName(), FirstLoser(), 0, [top], ExampleFiles());
            && r.Some? && |r.value| == 3 && [top] <= r.value
            && r.value[1].path == SharedName() && r.value[1].row.hash == Squatter().hash
  {
    var h, cp, c, files := ExampleHashes(), SharedName(), FirstLoser(), ExampleFiles();
    ExampleName();
    ExampleHex();
    assert KeyOf(h, files[cp]) == Key(1, 2, 1) && KeyOf(h, CopyRow(h, cp, c)) == Key(1, 1, 2);
    PushedOff(h, cp, c, top, files);
  }

  /** A second loser whose name is planned adds nothing. */
  lemma SecondAddsNothing(h: Hashes, path: string, cs: seq<Version>, files: map<string, Version>, first: seq<Planned>)
    requires Antichain(h, cs) == cs && |cs| == 3 && cs[2].hash.Some? && PlannedAt(first, CopyPath(h, path, cs[2]))
    requires PlanLoser(h, path, KeyOf(h, cs[0]), cs[1], [Planned(path, WinnerRow(h, cs, JoinAll(cs)))], files) == Some(first)
    ensures Plan(h, path, cs, files) == Some(first)
  {
    var wk := KeyOf(h, cs[0]);
    assert cs[1..][1..] == [cs[2]] && [cs[2]][1..] == [];
    assert PlanLoser(h, path, wk, cs[2], first, files) == Some(first);
    assert PlanLosers(h, path, wk, [], first, files) == Some(first);
    assert PlanLosers(h, path, wk, [cs[2]], first, files) == Some(first);
  }

  lemma LandsFurther(h: Hashes, cp: string, l: Version, rows: seq<Planned>, files: map<string, Version>)
    requires l.hash.Some? && files.Keys == {cp} && |CopyPath(h, cp, l)| > |cp|
    requires forall i :: 0 <= i < |rows| ==> |rows[i].path| <= |cp|
    ensures var q := CopyPath(h, cp, l); Chain(h, q, l, 1, rows, files) == Some(rows + [Planned(q, CopyRow(h, q, l))])
  {
    var q := CopyPath(h, cp, l);
    assert !PlannedAt(rows, q) && q !in files;
  }

  /** The turn of the second loser finds a row at its name that does not carry it; the call still returns a plan. */
  predicate FailsOn(h: Hashes, path: string, cs: seq<Version>, files: map<string, Version>) {
    var a := Antichain(h, cs);
    && |a| == 3 && a[2].hash.Some? && KeyOf(h, a[2]) != KeyOf(h, a[0])
    && var first := PlanLoser(h, path, KeyOf(h, a[0]), a[1], [Planned(path, WinnerRow(h, a, JoinAll(cs)))], files);
       && first.Some? && |first.value| == 3 && first.value[1].path == CopyPath(h, path, a[2])
       && !AssertionsHold(h, first.value[1], a[2]) && Plan(h, path, cs, files) == first
  }

  lemma FailsWhenPushedOff(h: Hashes, path: string, cs: seq<Version>, files: map<string, Version>, cp: string)
    requires Antichain(h, cs) == cs && |cs| == 3 && cs[1].hash.Some? && cs[2].hash.Some?
    requires KeyOf(h, cs[1]) != KeyOf(h, cs[0]) && KeyOf(h, cs[2]) != KeyOf(h, cs[0])
    requires CopyPath(h, path, cs[1]) == cp == CopyPath(h, path, cs[2]) && cp in files && files[cp].hash != cs[2].hash
    requires var r := Chain(h, cp, cs[1], 0, [Planned(path, WinnerRow(h, cs, JoinAll(cs)))], files);
             r.Some? && |r.value| == 3 && r.value[1].path == cp && r.value[1].row.hash == files[cp].hash
    ensures FailsOn(h, path, cs, files)
  {
    var first := Chain(h, cp, cs[1], 0, [Planned(path, WinnerRow(h, cs, JoinAll(cs)))], files);
    assert PlannedAt(first.value, cp);
    SecondAddsNothing(h, path, cs, files, first.value);
  }

  /** A call of `plan_candidates` on which the assertions fail. */
  lemma AssertionsFail()
    ensures FailsOn(ExampleHashes(), "a", ExampleCandidates(), ExampleFiles())
  {
    var h, cs, files := ExampleHashes(), ExampleCandidates(), ExampleFiles();
    ExampleAntichain();
    ExampleName();
    ExampleKeys();
    ExampleChain(Planned("a", WinnerRow(h, cs, JoinAll(cs))));
    FailsWhenPushedOff(h, "a", cs, files, SharedName());
  }

  lemma ExampleKeys()
    ensures var h := ExampleHashes();
            KeyOf(h, ExampleWinner()) == Key(1, 3, 1) && KeyOf(h, FirstLoser()) == Key(1, 1, 2) && KeyOf(h, SecondLoser()) == Key(1, 1, 1)
  {
  }

  lemma AtHandOf(w: Version, c: Version, d: Version, q: string, file: Version)
    requires w.hash.Some? && c.hash.Some? && d.hash.Some? && file.hash.Some?
    ensures AtHand([w, c, d], map[q := file]) == {w.Carried(), c.Carried(), d.Carried(), file.Carried()}
  {
    var cs, files := [w, c, d], map[q := file];
    assert w in cs && c in cs && d in cs && q in files && files[q] == file;
    assert forall v :: v in cs ==> v == w || v == c || v == d;
  }

  function ExampleContents(): set<Content> {
    {Content(3, Touched(0)), Content(1, Touched(1)), Content(1, Touched(0)), Content(2, Touched(0))}
  }

  lemma ExampleDigest(x: Content)
    ensures |ExampleHashes().DigestOf(x)| == 16
    ensures ExampleHashes().DigestOf(x)[15] == if x.hash == 1 then '1' else if x.hash == 2 then '2' else '3'
  {
  }

  lemma ExampleNames()
    ensures ExampleHashes().TellsNames(ExampleContents())
  {
    var h := ExampleHashes();
    forall x, y | x in ExampleContents() && y in ExampleContents() && h.DigestOf(x) == h.DigestOf(y)
      ensures x.hash == y.hash && h.NamingHash(x.meta) == h.NamingHash(y.meta)
    {
      ExampleDigest(x);
      ExampleDigest(y);
    }
  }

  lemma ExampleMetas(ms: set<Option<Meta>>)
    requires forall m :: m in ms ==> m == Touched(0) || m == Touched(1)
    ensures ExampleHashes().TellsMetas(ms)
  {
    assert ExampleHashes().MetaHash(Touched(0)) == 1 && ExampleHashes().MetaHash(Touched(1)) == 2;
  }

  lemma ExampleTold()
    ensures ExampleHashes().Tells(ExampleContents())
  {
    ExampleHex();
    ExampleNames();
    var ms := set x | x in ExampleContents() :: x.meta;
    forall m | m in ms ensures m == Touched(0) || m == Touched(1) {
    }
    ExampleMetas(ms);
  }

  /**
   All that plan completeness asks of its input, two losers with one taken name
   among it, and what it then gives: the losers' content and the file's are kept.
   */
  ghost predicate KeptThough(h: Hashes, path: string, cs: seq<Version>, files: map<string, Version>) {
    && h.Tells(AtHand(cs, files)) && RowsWellFormed(files) && (forall v :: v in cs ==> v.WellFormed()) && FailsOn(h, path, cs, files)
    && var l, rs := Antichain(h, cs)[2], Plan(h, path, cs, files).value;
       && Kept(h, rs, files, l.hash.value, h.NamingHash(l.meta)) && DisplacedKept(h, rs, files, CopyPath(h, path, l))
  }

  lemma BothKept(h: Hashes, path: string, cs: seq<Version>, files: map<string, Version>)
    requires h.Tells(AtHand(cs, files)) && RowsWellFormed(files) && (forall v :: v in cs ==> v.WellFormed()) && FailsOn(h, path, cs, files)
    ensures KeptThough(h, path, cs, files)
  {
    PlanKeepsContent(h, path, cs, files);
    var l, rs := Antichain(h, cs)[2], Plan(h, path, cs, files).value;
    assert l in Antichain(h, cs);
    assert DisplacedKept(h, rs, files, rs[1].path);
  }

  lemma ExampleWellFormed()
    ensures RowsWellFormed(ExampleFiles()) && forall v :: v in ExampleCandidates() ==> v.WellFormed()
  {
  }

  /** On the very input on which the assertions fail, no content is lost. */
  lemma NothingLostInExample()
    ensures KeptThough(ExampleHashes(), "a", ExampleCandidates(), ExampleFiles())
  {
    AtHandOf(ExampleWinner(), FirstLoser(), SecondLoser(), SharedName(), Squatter());
    ExampleTold();
    ExampleWellFormed();
    AssertionsFail();
    BothKept(ExampleHashes(), "a", ExampleCandidates(), ExampleFiles());
  }
}

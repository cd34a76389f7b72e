/**
 A config reload does not take the lock that serializes merges, so it can land
 between staging and commit of `merge_signed` (src/membership.rs). These are the
 steps of the two, and exactly what such a reload breaks.
 */
module MembershipRaces {
  import opened Basics
  import opened SignedEntries
  import opened Rosters
  import opened Versions

  /** One membership with at most one merge under way. */
  datatype Race = Race(key: Option<PubKey>, roster: Roster, disk: seq<Entry>, staged: Option<Roster>)

  datatype Step = Stage(entry: Entry) | Save(entries: seq<Entry>) | Swap | Reload(key: Option<PubKey>)

  /** Merges are serialized; a save writes the staged roster; a reload comes at any time. */
  ghost predicate Enabled(st: Race, s: Step) {
    match s
    case Stage(_) => st.staged.None?
    case Save(entries) => st.staged.Some? && IsSnapshot(st.staged.value, entries)
    case Swap => st.staged.Some?
    case Reload(_) => true
  }

  function Loaded(c: Crypto, key: Option<PubKey>, disk: seq<Entry>): Roster {
    if key.None? then map[] else MergeAll(c, key.value, map[], disk)
  }

  function Next(c: Crypto, st: Race, s: Step): Race {
    match s
    case Stage(e) =>
      if st.key.None? then st
      else
        var (staged, outcome) := MergeEntry(c, st.key.value, st.roster, e);
        if outcome == Applied then st.(staged := Some(staged)) else st
    case Save(entries) => st.(disk := entries)
    case Swap => if st.staged.Some? then st.(roster := st.staged.value, staged := None) else st
    case Reload(key) => st.(key := key, roster := Loaded(c, key, st.disk))
  }

  /** Every live entry was verified under the key now configured; without one there is none. */
  ghost predicate KeyFits(c: Crypto, key: Option<PubKey>, r: Roster) {
    if key.None? then r == map[] else VerifiedBy(c, key.value, r)
  }

  lemma {:induction false} LoadFits(c: Crypto, pk: PubKey, disk: seq<Entry>)
    ensures VerifiedBy(c, pk, MergeAll(c, pk, map[], disk))
    decreases |disk|
  {
    if disk != [] {
      LoadFits(c, pk, disk[..|disk| - 1]);
    }
  }

  /** What is live, and what is staged, fits the key. */
  ghost predicate AllFit(c: Crypto, st: Race) {
    KeyFits(c, st.key, st.roster) && (st.staged.Some? ==> KeyFits(c, st.key, st.staged.value))
  }

  ghost predicate Serial(c: Crypto, st: Race, run: seq<Step>)
    decreases |run|
  {
    run == [] ||
    (Enabled(st, run[0]) && (run[0].Reload? ==> st.staged.None?) && Serial(c, Next(c, st, run[0]), run[1..]))
  }

  function Run(c: Crypto, st: Race, run: seq<Step>): Race
    decreases |run|
  {
    if run == [] then st else Run(c, Next(c, st, run[0]), run[1..])
  }

  /** If no reload comes while a merge is under way, what is live fits the key over every run. */
  lemma {:induction false} SerialRunsFit(c: Crypto, st: Race, run: seq<Step>)
    requires AllFit(c, st) && Serial(c, st, run)
    ensures AllFit(c, Run(c, st, run))
    decreases |run|
  {
    if run != [] {
      if run[0].Reload? && run[0].key.Some? {
        LoadFits(c, run[0].key.value, st.disk);
      }
      SerialRunsFit(c, Next(c, st, run[0]), run[1..]);
    }
  }

  /** Every entry the merge leaves live would be accepted under `pk` too. */
  ghost predicate AlsoSigned(c: Crypto, pk: PubKey, r: Roster, e: Entry) {
    c.Verify(pk, e) && forall n :: n in r && n != e.node ==> c.Verify(pk, r[n])
  }

  /**
   A merge of `e` with a reload to `key` between its staging and its commit,
   before or after its save: afterwards the live roster fits the new key if and
   only if there is one and it accepts `e` and all the merge kept.
   */
  lemma ReloadDuringMerge(c: Crypto, st: Race, e: Entry, key: Option<PubKey>, entries: seq<Entry>, saveFirst: bool)
    requires st.staged.None? && st.key.Some? && KeyFits(c, st.key, st.roster)
    requires MergeEntry(c, st.key.value, st.roster, e).1 == Applied
    ensures var run := if saveFirst then [Stage(e), Save(entries), Reload(key), Swap] else [Stage(e), Reload(key), Save(entries), Swap];
            var end := Run(c, st, run);
            && end.key == key && end.roster == st.roster[e.node := e]
            && (KeyFits(c, key, end.roster) <==> key.Some? && AlsoSigned(c, key.value, st.roster, e))
  {
    var run := if saveFirst then [Stage(e), Save(entries), Reload(key), Swap] else [Stage(e), Reload(key), Save(entries), Swap];
    RunFour(c, st, run);
    var end := st.roster[e.node := e];
    if key.Some? && AlsoSigned(c, key.value, st.roster, e) {
      forall n | n in end ensures c.Verify(key.value, end[n]) {
      }
    }
    if key.Some? && VerifiedBy(c, key.value, end) {
      assert c.Verify(key.value, end[e.node]);
      forall n | n in st.roster && n != e.node ensures c.Verify(key.value, st.roster[n]) {
        assert end[n] == st.roster[n];
      }
    }
    assert e.node in end;
  }

  lemma RunFour(c: Crypto, st: Race, run: seq<Step>)
    requires |run| == 4
    ensures Run(c, st, run) == Next(c, Next(c, Next(c, Next(c, st, run[0]), run[1]), run[2]), run[3])
  {
    var r1, r2, r3 := run[1..], run[2..], run[3..];
    assert r1[0] == run[1] && r2[0] == run[2] && r3[0] == run[3];
    assert r1[1..] == r2 && r2[1..] == r3 && r3[1..] == [];
    var s1 := Next(c, st, run[0]);
    var s2 := Next(c, s1, run[1]);
    var s3 := Next(c, s2, run[2]);
    assert Run(c, s3, r3) == Run(c, Next(c, s3, run[3]), []) == Next(c, s3, run[3]);
    assert Run(c, s2, r2) == Run(c, s3, r3) && Run(c, s1, r1) == Run(c, s2, r2);
  }

  /** A signature names its key. */
  function OneKeyEach(): Crypto {
    Crypto((x: seq<Byte>) => |x|, (pk: PubKey, x: seq<Byte>, sig: seq<Byte>) => |sig| == pk)
  }

  function SignedByOne(): Entry {
    Entry(1, V4(1, 5), 9, 1, Add, [7])
  }

  /** The key is rotated from 1 to 2 while an entry signed under 1 is being merged: it stays live under 2. */
  lemma RotationLeavesOldEntry()
    ensures var c, e := OneKeyEach(), SignedByOne();
            var st := Race(Some(1), map[], [], None);
            var run := [Stage(e), Save([e]), Reload(Some(2)), Swap];
            && Enabled(st, run[0]) && Enabled(Next(c, st, run[0]), run[1]) && KeyFits(c, st.key, st.roster)
            && Run(c, st, run).roster == map[1 := e] && Run(c, st, run).key == Some(2)
            && !KeyFits(c, Run(c, st, run).key, Run(c, st, run).roster)
  {
    var c, e := OneKeyEach(), SignedByOne();
    var st := Race(Some(1), map[], [], None);
    assert MergeEntry(c, 1, map[], e) == (map[1 := e], Applied);
    ReloadDuringMerge(c, st, e, Some(2), [e], true);
    assert !c.Verify(2, e);
    assert IsSnapshot(map[1 := e], [e]);
  }
}

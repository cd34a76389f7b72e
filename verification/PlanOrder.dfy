/** Planning is a function of the candidate SET: order and repetition do not matter. */
module PlanOrder {
  import opened VersionVectors
  import opened Versions
  import opened Conflict
  import opened PlanLaws
  import opened Resolution

  ghost predicate SameSet(a: seq<Version>, b: seq<Version>) {
    forall v :: v in a <==> v in b
  }

  /** A vector names one version of the path. */
  ghost predicate VectorsDetermine(cs: seq<Version>) {
    forall a, b :: a in cs && b in cs && a.vv == b.vv ==> a == b
  }

  /** The metadata snapshots of the candidates. */
  ghost function MetasOf(cs: seq<Version>): set<Option<Meta>> {
    set v | v in cs :: v.meta
  }

  /** Equal keys mean equal size, and equal mode too below the winning key `wk`. */
  ghost predicate KeysDetermine(h: Hashes, cs: seq<Version>, wk: Key) {
    forall a, b :: a in cs && b in cs && KeyOf(h, a) == KeyOf(h, b) ==>
      a.size == b.size && (KeyOf(h, a) != wk ==> a.mode == b.mode)
  }

  lemma AntichainMembers(h: Hashes, a: seq<Version>, b: seq<Version>, x: Version)
    requires SameSet(a, b) && VectorsDetermine(a) && x in Antichain(h, a)
    ensures x in Antichain(h, b)
  {
    AntichainBasics(h, a);
    AntichainBasics(h, b);
    var y := MemberAbove(h, b, x);
    MemberIsMaximal(h, a, x, y);
  }

  lemma AntichainSet(h: Hashes, a: seq<Version>, b: seq<Version>)
    requires SameSet(a, b) && VectorsDetermine(a)
    ensures multiset(Antichain(h, a)) == multiset(Antichain(h, b))
  {
    var s, t := Antichain(h, a), Antichain(h, b);
    AntichainBasics(h, a);
    AntichainBasics(h, b);
    assert VectorsDetermine(b);
    forall x ensures multiset(s)[x] == multiset(t)[x] {
      ConcurrentNoDuplicates(s, x);
      ConcurrentNoDuplicates(t, x);
      if x in s {
        AntichainMembers(h, a, b, x);
      }
      if x in t {
        AntichainMembers(h, b, a, x);
      }
      assert x in s <==> x in multiset(s);
      assert x in t <==> x in multiset(t);
    }
  }

  ghost predicate SameKeys(h: Hashes, s: seq<Version>, t: seq<Version>) {
    |s| == |t| && forall i :: 0 <= i < |s| ==> KeyOf(h, s[i]) == KeyOf(h, t[i])
  }

  /** Two sorted arrangements of the same versions read the same keys in the same places. */
  lemma {:induction false} SortedSameKeys(h: Hashes, s: seq<Version>, t: seq<Version>)
    requires SortedDesc(h, s) && SortedDesc(h, t) && multiset(s) == multiset(t)
    ensures SameKeys(h, s, t)
  {
    SameMembers(s, t);
    if s != [] {
      assert s[0] in t;
      var j :| 0 <= j < |t| && t[j] == s[0];
      var u := t[..j] + t[j + 1..];
      RemoveOne(s, t, j);
      assert SortedDesc(h, s[1..]);
      assert SortedDesc(h, u);
      SortedSameKeys(h, s[1..], u);
      HeadKeys(h, s, t, j);
      ShiftedKeys(h, s, t, j);
    }
  }

  lemma RemoveOne(s: seq<Version>, t: seq<Version>, j: nat)
    requires s != [] && multiset(s) == multiset(t) && j < |t| && t[j] == s[0]
    ensures multiset(s[1..]) == multiset(t[..j] + t[j + 1..])
  {
    assert s == [s[0]] + s[1..];
    assert t == t[..j] + [t[j]] + t[j + 1..];
    Cancel(multiset(s[1..]), multiset(t[..j] + t[j + 1..]), s[0]);
  }

  lemma ShiftedKeys(h: Hashes, s: seq<Version>, t: seq<Version>, j: nat)
    requires s != [] && |s| == |t| && j < |t| && SameKeys(h, s[1..], t[..j] + t[j + 1..])
    requires forall i :: 0 <= i <= j ==> KeyOf(h, t[i]) == KeyOf(h, s[0])
    ensures SameKeys(h, s, t)
  {
    var u := t[..j] + t[j + 1..];
    forall i | 1 <= i < |s| ensures KeyOf(h, s[i]) == KeyOf(h, t[i]) {
      assert s[i] == s[1..][i - 1];
      assert u[i - 1] == if i - 1 < j then t[i - 1] else t[i];
    }
  }

  lemma Cancel(a: multiset<Version>, b: multiset<Version>, x: Version)
    requires multiset{x} + a == multiset{x} + b
    ensures a == b
  {
    forall y ensures a[y] == b[y] {
      assert (multiset{x} + a)[y] == (multiset{x} + b)[y];
    }
  }

  /** Everything in `t` up to an occurrence of the head of `s` carries the top key. */
  lemma HeadKeys(h: Hashes, s: seq<Version>, t: seq<Version>, j: nat)
    requires s != [] && SortedDesc(h, s) && SortedDesc(h, t) && multiset(s) == multiset(t)
    requires j < |t| && t[j] == s[0]
    ensures forall i :: 0 <= i <= j ==> KeyOf(h, t[i]) == KeyOf(h, s[0])
  {
    SameMembers(s, t);
    forall i | 0 <= i <= j ensures KeyOf(h, t[i]) == KeyOf(h, s[0]) {
      assert t[i] in s;
      var m :| 0 <= m < |s| && s[m] == t[i];
      KeyTotalOrder(KeyOf(h, t[i]), KeyOf(h, s[0]), KeyOf(h, s[0]));
      KeyTotalOrder(KeyOf(h, s[0]), KeyOf(h, s[0]), KeyOf(h, s[0]));
    }
  }

  lemma JoinAllSet(a: seq<Version>, b: seq<Version>)
    requires SameSet(a, b)
    ensures JoinAll(a) == JoinAll(b)
  {
    forall c | c in a ensures Leq(c.vv, JoinAll(b)) { JoinAllCovers(b, c); }
    forall c | c in b ensures Leq(c.vv, JoinAll(a)) { JoinAllCovers(a, c); }
    JoinAllLeast(a, JoinAll(b));
    JoinAllLeast(b, JoinAll(a));
    LeqAntisymmetric(JoinAll(a), JoinAll(b));
  }

  lemma TopsSet(h: Hashes, k: Key, s: seq<Version>, t: seq<Version>)
    requires SameSet(s, t)
    ensures TopMode(h, k, s) == TopMode(h, k, t) && TopUuid(h, k, s) == TopUuid(h, k, t)
  {
    TopModeIs(h, k, s);
    TopModeIs(h, k, t);
    TopUuidIs(h, k, s);
    TopUuidIs(h, k, t);
    assert HasKey(h, k, s) <==> HasKey(h, k, t);
  }

  /** The parts of a version a copy chain can see. */
  predicate SameBody(a: Version, b: Version) {
    a.hash == b.hash && a.meta == b.meta && a.mode == b.mode && a.size == b.size
  }

  lemma LoserBody(h: Hashes, path: string, wk: Key, a: Version, b: Version, rows: seq<Planned>, files: map<string, Version>)
    requires KeyOf(h, a) == KeyOf(h, b) && (a.hash.None? <==> b.hash.None?)
    requires KeyOf(h, a) != wk ==> SameBody(a, b)
    ensures PlanLoser(h, path, wk, a, rows, files) == PlanLoser(h, path, wk, b, rows, files)
  {
    if KeyOf(h, a) != wk && a.hash.Some? {
      var cp := CopyPath(h, path, a);
      assert cp == CopyPath(h, path, b);
      assert CopyRow(h, cp, a) == CopyRow(h, cp, b);
    }
  }

  lemma {:induction false} LosersBody(h: Hashes, path: string, wk: Key, s: seq<Version>, t: seq<Version>, rows: seq<Planned>, files: map<string, Version>)
    requires SameKeys(h, s, t)
    requires forall i :: 0 <= i < |s| ==> (s[i].hash.None? <==> t[i].hash.None?) && (KeyOf(h, s[i]) != wk ==> SameBody(s[i], t[i]))
    ensures PlanLosers(h, path, wk, s, rows, files) == PlanLosers(h, path, wk, t, rows, files)
    decreases |s|
  {
    if s != [] {
      LoserBody(h, path, wk, s[0], t[0], rows, files);
      var r := PlanLoser(h, path, wk, s[0], rows, files);
      if r.Some? {
        LosersBody(h, path, wk, s[1..], t[1..], r.value, files);
      }
    }
  }

  /** Members of the two arrangements at one place agree on all a plan reads. */
  lemma PlacesAgree(h: Hashes, cs: seq<Version>, wk: Key, a: Version, b: Version)
    requires h.TellsMetas(MetasOf(cs)) && KeysDetermine(h, cs, wk) && a in cs && b in cs
    requires a.WellFormed() && b.WellFormed() && KeyOf(h, a) == KeyOf(h, b)
    ensures a.tombstone == b.tombstone && a.hash == b.hash && a.meta == b.meta && a.size == b.size
    ensures KeyOf(h, a) != wk ==> SameBody(a, b)
  {
    assert {a.meta, b.meta} <= MetasOf(cs);
    EqualKeys(h, a, b);
  }

  lemma WinnerRowSet(h: Hashes, cs: seq<Version>, s: seq<Version>, t: seq<Version>, vv: VersionVector)
    requires h.TellsMetas(MetasOf(cs)) && s != [] && multiset(s) == multiset(t) && SameKeys(h, s, t)
    requires KeysDetermine(h, cs, KeyOf(h, s[0])) && (forall v :: v in s ==> v in cs && v.WellFormed())
    ensures WinnerRow(h, s, vv) == WinnerRow(h, t, vv)
  {
    SameMembers(s, t);
    assert t[0] in s;
    PlacesAgree(h, cs, KeyOf(h, s[0]), s[0], t[0]);
    TopsSet(h, KeyOf(h, s[0]), s, t);
  }

  lemma LosersSet(h: Hashes, path: string, cs: seq<Version>, s: seq<Version>, t: seq<Version>, rows: seq<Planned>, files: map<string, Version>)
    requires h.TellsMetas(MetasOf(cs)) && s != [] && multiset(s) == multiset(t) && SameKeys(h, s, t)
    requires KeysDetermine(h, cs, KeyOf(h, s[0])) && (forall v :: v in s ==> v in cs && v.WellFormed())
    ensures PlanLosers(h, path, KeyOf(h, s[0]), s[1..], rows, files) == PlanLosers(h, path, KeyOf(h, t[0]), t[1..], rows, files)
  {
    var wk := KeyOf(h, s[0]);
    SameMembers(s, t);
    var s1, t1 := s[1..], t[1..];
    forall i | 0 <= i < |s1| ensures (s1[i].hash.None? <==> t1[i].hash.None?) && (KeyOf(h, s1[i]) != wk ==> SameBody(s1[i], t1[i])) {
      assert s1[i] == s[i + 1] && t1[i] == t[i + 1];
      assert s[i + 1] in s && t[i + 1] in s;
      PlacesAgree(h, cs, wk, s[i + 1], t[i + 1]);
    }
    LosersBody(h, path, wk, s1, t1, rows, files);
  }

  /**
   Order freedom: any permutation or repetition of the candidates gives the
   same plan, or the same refusal, over the same rows.
   */
  lemma PlanIsOrderFree(h: Hashes, path: string, a: seq<Version>, b: seq<Version>, files: map<string, Version>)
    requires h.TellsMetas(MetasOf(a)) && SameSet(a, b) && VectorsDetermine(a) && (forall v :: v in a ==> v.WellFormed())
    requires Antichain(h, a) != [] ==> KeysDetermine(h, a, KeyOf(h, Antichain(h, a)[0]))
    ensures Plan(h, path, a, files) == Plan(h, path, b, files)
  {
    var s, t := Antichain(h, a), Antichain(h, b);
    AntichainSet(h, a, b);
    AntichainBasics(h, a);
    AntichainBasics(h, b);
    SortedSameKeys(h, s, t);
    JoinAllSet(a, b);
    if s != [] {
      LosersSet(h, path, a, s, t, [Planned(path, WinnerRow(h, s, JoinAll(a)))], files);
      WinnerRowSet(h, a, s, t, JoinAll(a));
    }
  }
}

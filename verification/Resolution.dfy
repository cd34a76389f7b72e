/** A derived winner row is the meaning of the op set it was derived from. */
module Resolution {
  import opened VersionVectors
  import opened Versions
  import opened Conflict
  import opened PlanLaws
  import opened OpSets

  /** `v` is op `o` as a candidate; a delete's mode and size are not part of it. */
  predicate Stands(v: Version, o: Op) {
    if o.kind == Delete
    then v.tombstone && v.hash == None && v.meta == None && v.vv == o.vv && v.uuid == o.uuid
    else v == OpVersion(o)
  }

  /** The candidate list stands, one for one, for the op list. */
  ghost predicate StandsFor(cs: seq<Version>, ops: seq<Op>) {
    |cs| == |ops| && forall i :: 0 <= i < |cs| ==> Stands(cs[i], ops[i])
  }

  ghost function OpSet(ops: seq<Op>): set<Op> { set o | o in ops }

  ghost predicate DistinctVectors(s: set<Op>) {
    forall o, x :: o in s && x in s && o.vv == x.vv ==> o == x
  }

  lemma StandsKey(h: Hashes, v: Version, o: Op)
    requires Stands(v, o) && o.WellFormed()
    ensures KeyOf(h, v) == OpKey(h, o) && v.vv == o.vv && v.uuid == o.uuid
    ensures v.tombstone == (o.kind == Delete) && v.hash == o.hash
    ensures o.kind != Delete ==> v.meta == o.meta && v.mode == o.mode && v.size == o.size
  {
  }

  /** A member of the antichain stands for an op of the tip. */
  lemma MemberIsTip(h: Hashes, cs: seq<Version>, ops: seq<Op>, v: Version) returns (o: Op)
    requires StandsFor(cs, ops) && v in Antichain(h, cs)
    ensures o in Tip(OpSet(ops)) && Stands(v, o)
  {
    AntichainBasics(h, cs);
    var i :| 0 <= i < |cs| && cs[i] == v;
    o := ops[i];
    forall x | x in OpSet(ops) ensures !Less(o.vv, x.vv) {
      var j :| 0 <= j < |ops| && ops[j] == x;
      assert Stands(cs[j], x);
      MemberIsMaximal(h, cs, v, cs[j]);
    }
  }

  /** An op of the tip is stood for by a member of the antichain. */
  lemma TipIsMember(h: Hashes, cs: seq<Version>, ops: seq<Op>, o: Op) returns (v: Version)
    requires StandsFor(cs, ops) && DistinctVectors(OpSet(ops)) && o in Tip(OpSet(ops))
    ensures v in Antichain(h, cs) && Stands(v, o)
  {
    AntichainBasics(h, cs);
    var j :| 0 <= j < |ops| && ops[j] == o;
    assert cs[j] in cs && Stands(cs[j], o);
    v := MemberAbove(h, cs, cs[j]);
    var i :| 0 <= i < |cs| && cs[i] == v;
    assert ops[i] in OpSet(ops) && Stands(v, ops[i]);
    assert !Less(o.vv, ops[i].vv);
  }

  ghost predicate HasKey(h: Hashes, k: Key, s: seq<Version>) {
    exists v :: v in s && KeyOf(h, v) == k
  }

  lemma {:induction false} TopModeIs(h: Hashes, k: Key, s: seq<Version>)
    ensures forall v :: v in s && KeyOf(h, v) == k ==> v.mode <= TopMode(h, k, s)
    ensures HasKey(h, k, s) ==> exists v :: v in s && KeyOf(h, v) == k && v.mode == TopMode(h, k, s)
    ensures !HasKey(h, k, s) ==> TopMode(h, k, s) == 0
  {
    if s != [] {
      var init, last := s[..|s| - 1], s[|s| - 1];
      assert s == init + [last];
      TopModeIs(h, k, init);
      assert last in s;
      if HasKey(h, k, init) {
        var v :| v in init && KeyOf(h, v) == k && v.mode == TopMode(h, k, init);
        assert v in s;
      }
    }
  }

  lemma {:induction false} TopUuidIs(h: Hashes, k: Key, s: seq<Version>)
    ensures forall v :: v in s && KeyOf(h, v) == k ==> OptLeq(v.uuid, TopUuid(h, k, s))
    ensures HasKey(h, k, s) ==> exists v :: v in s && KeyOf(h, v) == k && v.uuid == TopUuid(h, k, s)
    ensures !HasKey(h, k, s) ==> TopUuid(h, k, s) == None
  {
    if s != [] {
      var init, last := s[..|s| - 1], s[|s| - 1];
      assert s == init + [last];
      TopUuidIs(h, k, init);
      assert last in s;
      if HasKey(h, k, init) {
        var v :| v in init && KeyOf(h, v) == k && v.uuid == TopUuid(h, k, init);
        assert v in s;
      }
    }
  }

  lemma {:induction false} JoinAllAttained(cs: seq<Version>, n: NodeId)
    requires n in JoinAll(cs)
    ensures exists c :: c in cs && JoinAll(cs)[n] <= Get(c.vv, n)
  {
    var init, last := cs[..|cs| - 1], cs[|cs| - 1];
    assert cs == init + [last];
    var j := JoinAll(cs);
    assert j[n] == Get(j, n);
    if Get(last.vv, n) >= Get(JoinAll(init), n) {
      assert last in cs;
    } else {
      JoinAllAttained(init, n);
      var c :| c in init && JoinAll(init)[n] <= Get(c.vv, n);
      assert c in cs;
    }
  }

  lemma JoinAllIsJoin(cs: seq<Version>, ops: seq<Op>)
    requires StandsFor(cs, ops)
    ensures IsJoin(JoinAll(cs), OpSet(ops))
  {
    var j := JoinAll(cs);
    forall o | o in OpSet(ops) ensures Leq(o.vv, j) {
      var i :| 0 <= i < |ops| && ops[i] == o;
      assert cs[i] in cs && Stands(cs[i], o);
      JoinAllCovers(cs, cs[i]);
    }
    forall n | n in j ensures exists o :: o in OpSet(ops) && j[n] <= Get(o.vv, n) {
      JoinAllAttained(cs, n);
      var c :| c in cs && j[n] <= Get(c.vv, n);
      var i :| 0 <= i < |cs| && cs[i] == c;
      assert ops[i] in OpSet(ops) && Stands(c, ops[i]);
    }
  }

  /** A set whose tip no single op is. */
  ghost predicate Contested(s: set<Op>) {
    forall o :: Tip(s) != {o}
  }

  lemma WinnerIsWinner(h: Hashes, cs: seq<Version>, ops: seq<Op>) returns (w: Op)
    requires StandsFor(cs, ops) && DistinctVectors(OpSet(ops)) && (forall o :: o in OpSet(ops) ==> o.WellFormed())
    requires Antichain(h, cs) != []
    ensures IsWinner(h, OpSet(ops), w) && Stands(Antichain(h, cs)[0], w)
  {
    var a := Antichain(h, cs);
    AntichainBasics(h, cs);
    w := MemberIsTip(h, cs, ops, a[0]);
    forall t | t in Tip(OpSet(ops)) ensures KeyLeq(OpKey(h, t), OpKey(h, w)) {
      var v := TipIsMember(h, cs, ops, t);
      StandsKey(h, v, t);
      StandsKey(h, a[0], w);
      var i :| 0 <= i < |a| && a[i] == v;
      KeyTotalOrder(OpKey(h, w), OpKey(h, w), OpKey(h, w));
    }
  }

  lemma WinnerMode(h: Hashes, cs: seq<Version>, ops: seq<Op>, w: Op)
    requires StandsFor(cs, ops) && DistinctVectors(OpSet(ops)) && (forall o :: o in OpSet(ops) ==> o.WellFormed())
    requires Antichain(h, cs) != [] && w in Tip(OpSet(ops)) && Stands(Antichain(h, cs)[0], w) && w.kind != Delete
    ensures ModeIs(h, OpSet(ops), w, TopMode(h, OpKey(h, w), Antichain(h, cs)))
  {
    var a := Antichain(h, cs);
    var k := OpKey(h, w);
    TopModeIs(h, k, a);
    StandsKey(h, a[0], w);
    assert HasKey(h, k, a);
    forall t | Tied(h, OpSet(ops), w, t) ensures t.mode <= TopMode(h, k, a) {
      var v := TipIsMember(h, cs, ops, t);
      StandsKey(h, v, t);
    }
    var v :| v in a && KeyOf(h, v) == k && v.mode == TopMode(h, k, a);
    var t := MemberIsTip(h, cs, ops, v);
    StandsKey(h, v, t);
    assert Tied(h, OpSet(ops), w, t);
  }

  lemma WinnerUuid(h: Hashes, cs: seq<Version>, ops: seq<Op>, w: Op)
    requires StandsFor(cs, ops) && DistinctVectors(OpSet(ops)) && (forall o :: o in OpSet(ops) ==> o.WellFormed())
    requires Antichain(h, cs) != [] && w in Tip(OpSet(ops)) && Stands(Antichain(h, cs)[0], w)
    ensures UuidIs(h, OpSet(ops), w, TopUuid(h, OpKey(h, w), Antichain(h, cs)))
  {
    var a := Antichain(h, cs);
    var k := OpKey(h, w);
    TopUuidIs(h, k, a);
    StandsKey(h, a[0], w);
    assert HasKey(h, k, a);
    forall t | Tied(h, OpSet(ops), w, t) ensures OptLeq(t.uuid, TopUuid(h, k, a)) {
      var v := TipIsMember(h, cs, ops, t);
      StandsKey(h, v, t);
    }
    var v :| v in a && KeyOf(h, v) == k && v.uuid == TopUuid(h, k, a);
    var t := MemberIsTip(h, cs, ops, v);
    StandsKey(h, v, t);
    assert Tied(h, OpSet(ops), w, t);
  }

  /** The winner row of a contested plan is what the op set means. */
  lemma WinnerRowMeans(h: Hashes, cs: seq<Version>, ops: seq<Op>)
    requires StandsFor(cs, ops) && DistinctVectors(OpSet(ops)) && (forall o :: o in OpSet(ops) ==> Plain(h, o))
    requires Contested(OpSet(ops)) && Antichain(h, cs) != []
    ensures Means(h, OpSet(ops), WinnerRow(h, Antichain(h, cs), JoinAll(cs)))
  {
    var a := Antichain(h, cs);
    var row := WinnerRow(h, a, JoinAll(cs));
    JoinAllIsJoin(cs, ops);
    var w := WinnerIsWinner(h, cs, ops);
    StandsKey(h, a[0], w);
    WinnerUuid(h, cs, ops, w);
    if w.kind != Delete {
      WinnerMode(h, cs, ops, w);
    }
    assert RowFrom(h, OpSet(ops), w, row);
  }
}

/**
 The meaning of a path's row as a function of the SET of ops received for it,
 and the causal closure that makes the incrementally kept row agree with it.
 */
module OpSets {
  import opened VersionVectors
  import opened Versions

  function OpVersion(op: Op): Version {
    Version(op.kind == Delete, op.hash, op.meta, op.mode, op.size, op.vv, op.uuid)
  }

  function OpKey(h: Hashes, op: Op): Key { KeyOf(h, OpVersion(op)) }

  /** An op as writes and deletes emit it: its own component counts it. */
  predicate Plain(h: Hashes, o: Op) {
    && o.kind != Rename && o.WellFormed()
    && o.size == (if o.kind == Delete then 0 else h.sizeOf(o.hash.value))
    && Get(o.vv, o.origin) > 0
  }

  /**
   Causal closure: reaching an op's count at its origin means covering its
   whole vector; and a vector names one op.
   */
  ghost predicate Causal(s: set<Op>) {
    forall o, x {:trigger CausalPair(o, x)} :: o in s && x in s ==> CausalPair(o, x)
  }

  ghost predicate CausalPair(o: Op, x: Op) {
    && (Get(o.vv, o.origin) <= Get(x.vv, o.origin) ==> Leq(o.vv, x.vv))
    && (o.vv == x.vv ==> o == x)
  }

  /** The ops nobody in the set dominates. */
  ghost function Tip(s: set<Op>): set<Op> {
    set o | o in s && forall x :: x in s ==> !Less(o.vv, x.vv)
  }

  /** `v` is the join of the vectors of `s`. */
  ghost predicate IsJoin(v: VersionVector, s: set<Op>) {
    && (forall o :: o in s ==> Leq(o.vv, v))
    && (forall n :: n in v ==> exists o :: o in s && v[n] <= Get(o.vv, n))
  }

  ghost predicate IsWinner(h: Hashes, s: set<Op>, w: Op) {
    w in Tip(s) && forall t :: t in Tip(s) ==> KeyLeq(OpKey(h, t), OpKey(h, w))
  }

  ghost predicate Tied(h: Hashes, s: set<Op>, w: Op, t: Op) {
    t in Tip(s) && OpKey(h, t) == OpKey(h, w)
  }

  /** The mode of a winning write is the largest among tied writes; a contested tombstone has mode 0. */
  ghost predicate ModeIs(h: Hashes, s: set<Op>, w: Op, mode: nat) {
    if w.kind == Delete then mode == (if Tip(s) == {w} then w.mode else 0)
    else
      && (forall t :: Tied(h, s, w, t) ==> t.mode <= mode)
      && (exists t :: Tied(h, s, w, t) && t.mode == mode)
  }

  ghost predicate UuidIs(h: Hashes, s: set<Op>, w: Op, uuid: Option<Uuid>) {
    && (forall t :: Tied(h, s, w, t) ==> OptLeq(t.uuid, uuid))
    && (exists t :: Tied(h, s, w, t) && t.uuid == uuid)
  }

  /** Row `r` is what the op set `s` means: the largest undominated version with every vector absorbed. */
  ghost predicate Means(h: Hashes, s: set<Op>, r: Version) {
    && IsJoin(r.vv, s)
    && exists w :: IsWinner(h, s, w) && RowFrom(h, s, w, r)
  }

  ghost predicate RowFrom(h: Hashes, s: set<Op>, w: Op, r: Version) {
    && r.tombstone == (w.kind == Delete)
    && r.hash == w.hash && r.meta == w.meta && r.size == w.size
    && ModeIs(h, s, w, r.mode) && UuidIs(h, s, w, r.uuid)
  }

  /** The metadata snapshots a set of ops carries. */
  ghost function Metas(s: set<Op>): set<Option<Meta>> {
    set o | o in s :: o.meta
  }

  /** Strong convergence in one line: an op set means one row. */
  lemma MeaningIsUnique(h: Hashes, s: set<Op>, r: Version, q: Version)
    requires h.TellsMetas(Metas(s)) && forall o :: o in s ==> Plain(h, o)
    requires Means(h, s, r) && Means(h, s, q)
    ensures r == q
  {
    var v := WinnerOf(h, s, r);
    var w := WinnerOf(h, s, q);
    WinnersTie(h, s, v, w);
    MeantVector(h, s, r, q);
    TiedWinnersSameRow(h, s, v, w, r, q);
  }

  lemma WinnerOf(h: Hashes, s: set<Op>, r: Version) returns (w: Op)
    requires Means(h, s, r)
    ensures w in s && w in Tip(s) && IsWinner(h, s, w) && RowFrom(h, s, w, r)
  {
    w :| IsWinner(h, s, w) && RowFrom(h, s, w, r);
  }

  lemma MeantVector(h: Hashes, s: set<Op>, r: Version, q: Version)
    requires Means(h, s, r) && Means(h, s, q)
    ensures r.vv == q.vv
  {
    JoinIsUnique(s, r.vv, q.vv);
  }

  lemma WinnersTie(h: Hashes, s: set<Op>, v: Op, w: Op)
    requires h.TellsMetas(Metas(s)) && IsWinner(h, s, v) && IsWinner(h, s, w)
    ensures OpKey(h, v) == OpKey(h, w) && h.TellsMetas({v.meta, w.meta})
  {
    KeyTotalOrder(OpKey(h, v), OpKey(h, w), OpKey(h, w));
    assert {v.meta, w.meta} <= Metas(s);
  }

  /** Every component of a meaning comes from one of the ops. */
  lemma MeaningHasWitness(h: Hashes, s: set<Op>, r: Version, n: NodeId) returns (o: Op)
    requires Means(h, s, r) && n in r.vv
    ensures o in s && r.vv[n] <= Get(o.vv, n)
  {
    o :| o in s && r.vv[n] <= Get(o.vv, n);
  }

  lemma TiedWinnersSameRow(h: Hashes, s: set<Op>, v: Op, w: Op, r: Version, q: Version)
    requires h.TellsMetas({v.meta, w.meta}) && Plain(h, v) && Plain(h, w) && v in Tip(s) && w in Tip(s) && OpKey(h, v) == OpKey(h, w)
    requires RowFrom(h, s, v, r) && RowFrom(h, s, w, q) && r.vv == q.vv
    ensures r == q
  {
    EqualKeys(h, OpVersion(v), OpVersion(w));
    ModeIsUnique(h, s, v, w, r.mode, q.mode);
    UuidIsUnique(h, s, v, w, r.uuid, q.uuid);
  }

  lemma ModeIsUnique(h: Hashes, s: set<Op>, v: Op, w: Op, a: nat, b: nat)
    requires v in Tip(s) && w in Tip(s) && OpKey(h, v) == OpKey(h, w) && v.kind != Rename && w.kind != Rename
    requires ModeIs(h, s, v, a) && ModeIs(h, s, w, b)
    ensures a == b
  {
    if v.kind == Delete {
      if Tip(s) == {v} {
        assert w in {v};
      }
    } else {
      var t :| Tied(h, s, v, t) && t.mode == a;
      var u :| Tied(h, s, w, u) && u.mode == b;
      assert Tied(h, s, w, t) && Tied(h, s, v, u);
    }
  }

  lemma UuidIsUnique(h: Hashes, s: set<Op>, v: Op, w: Op, a: Option<Uuid>, b: Option<Uuid>)
    requires OpKey(h, v) == OpKey(h, w)
    requires UuidIs(h, s, v, a) && UuidIs(h, s, w, b)
    ensures a == b
  {
    var t :| Tied(h, s, v, t) && t.uuid == a;
    var u :| Tied(h, s, w, u) && u.uuid == b;
    assert Tied(h, s, w, t) && Tied(h, s, v, u);
  }

  lemma JoinIsUnique(s: set<Op>, a: VersionVector, b: VersionVector)
    requires IsJoin(a, s) && IsJoin(b, s)
    ensures a == b
  {
    JoinIsLeast(s, a, b);
    JoinIsLeast(s, b, a);
    LeqAntisymmetric(a, b);
  }

  lemma JoinIsLeast(s: set<Op>, a: VersionVector, b: VersionVector)
    requires IsJoin(a, s) && forall o :: o in s ==> Leq(o.vv, b)
    ensures Leq(a, b)
  {
    forall n | n in a ensures a[n] <= Get(b, n) {
      var o :| o in s && a[n] <= Get(o.vv, n);
      LeqAt(o.vv, b, n);
    }
  }

  /**
   Refinement by causal closure: in a causal set, a kept vector that reaches an
   op's count at its origin covers the op, through one op already merged.
   */
  lemma ReachedIsCovered(all: set<Op>, s: set<Op>, v: VersionVector, o: Op) returns (x: Op)
    requires Causal(all) && s <= all && IsJoin(v, s) && o in all
    requires 0 < Get(o.vv, o.origin) <= Get(v, o.origin)
    ensures x in s && Leq(o.vv, x.vv) && Leq(o.vv, v)
  {
    assert o.origin in v;
    x :| x in s && v[o.origin] <= Get(x.vv, o.origin);
    assert CausalPair(o, x);
    LeqTransitive(o.vv, x.vv, v);
  }

  /** An op above everything received becomes the whole tip. */
  lemma DominatingTip(s: set<Op>, e: Op)
    requires forall o :: o in s ==> Less(o.vv, e.vv)
    ensures Tip(s + {e}) == {e}
  {
    assert e in Tip(s + {e}) by {
      forall x | x in s + {e} ensures !Less(e.vv, x.vv) {
        if x in s && Less(e.vv, x.vv) {
          LessTransitive(x.vv, e.vv, x.vv);
        }
      }
    }
  }

  lemma DominatingMeaning(h: Hashes, s: set<Op>, e: Op, r: Version)
    requires forall o :: o in s ==> Less(o.vv, e.vv)
    requires r.vv == e.vv && r.tombstone == (e.kind == Delete) && r.hash == e.hash && r.meta == e.meta
    requires r.size == e.size && r.mode == e.mode && r.uuid == e.uuid
    ensures Means(h, s + {e}, r)
  {
    DominatingTip(s, e);
    var t := s + {e};
    assert IsWinner(h, t, e) by {
      KeyTotalOrder(OpKey(h, e), OpKey(h, e), OpKey(h, e));
    }
    assert Tied(h, t, e, e);
    assert forall x :: Tied(h, t, e, x) ==> x in {e};
    assert UuidIs(h, t, e, r.uuid);
    assert IsJoin(r.vv, t) by {
      forall n | n in r.vv ensures exists o :: o in t && r.vv[n] <= Get(o.vv, n) {
        assert e in t && r.vv[n] <= Get(e.vv, n);
      }
    }
    assert RowFrom(h, t, e, r);
  }

  /** An op at or below a received one leaves the tip alone. */
  lemma CoveredTip(s: set<Op>, o: Op, x: Op)
    requires x in s && Leq(o.vv, x.vv) && CausalPair(o, x)
    ensures Tip(s + {o}) == Tip(s)
  {
    if o in s {
      assert s + {o} == s;
    } else {
      BelowLeavesTip(s, o, x);
    }
  }

  lemma JoinStillCovers(s: set<Op>, v: VersionVector, o: Op)
    requires IsJoin(v, s) && Leq(o.vv, v)
    ensures IsJoin(v, s + {o})
  {
    forall n | n in v ensures exists y :: y in s + {o} && v[n] <= Get(y.vv, n) {
      var y :| y in s && v[n] <= Get(y.vv, n);
      assert y in s + {o};
    }
  }

  lemma BelowLeavesTip(s: set<Op>, o: Op, x: Op)
    requires o !in s && x in s && Less(o.vv, x.vv)
    ensures Tip(s + {o}) == Tip(s)
  {
    forall y | y in s ensures y in Tip(s + {o}) <==> y in Tip(s) {
      if y in Tip(s) && Less(y.vv, o.vv) {
        LessTransitive(y.vv, o.vv, x.vv);
      }
    }
    assert o !in Tip(s + {o});
  }

  /** An op already covered by the kept vector leaves the meaning alone. */
  lemma CoveredMeaning(h: Hashes, all: set<Op>, s: set<Op>, r: Version, o: Op)
    requires Causal(all) && s <= all && o in all && Means(h, s, r) && Leq(o.vv, r.vv) && Get(o.vv, o.origin) > 0
    ensures Means(h, s + {o}, r)
  {
    LeqAt(o.vv, r.vv, o.origin);
    var x := ReachedIsCovered(all, s, r.vv, o);
    CoveredTip(s, o, x);
    JoinStillCovers(s, r.vv, o);
    SameTipSameMeaning(h, s, s + {o}, r);
  }

  lemma SameTipSameMeaning(h: Hashes, s: set<Op>, t: set<Op>, r: Version)
    requires Means(h, s, r) && Tip(s) == Tip(t) && IsJoin(r.vv, t)
    ensures Means(h, t, r)
  {
    var w :| IsWinner(h, s, w) && RowFrom(h, s, w, r);
    assert forall x :: Tied(h, t, w, x) <==> Tied(h, s, w, x);
    assert IsWinner(h, t, w);
    assert ModeIs(h, t, w, r.mode);
    assert UuidIs(h, t, w, r.uuid);
    assert RowFrom(h, t, w, r);
  }

  // ------------------------------------------------------------------- emission

  /** Apart from node `n`, vector `s` counts nobody beyond `t`. */
  predicate NothingForeign(s: VersionVector, t: VersionVector, n: NodeId) {
    forall m :: m in s && m != n ==> s[m] <= Get(t, m)
  }

  /**
   Causal closure survives a new op whose vector joins what its node holds, `t`,
   with a lineage `s` that counts no other node beyond it.
   */
  lemma CausalExtends(all: set<Op>, held: set<Op>, s: VersionVector, t: VersionVector, e: Op)
    requires Causal(all) && held <= all && IsJoin(t, held) && e.vv == Increment(Join(s, t), e.origin)
    requires forall o :: o in all ==> Get(o.vv, e.origin) <= Get(t, e.origin) && Get(o.vv, o.origin) > 0
    requires NothingForeign(s, t, e.origin)
    ensures Causal(all + {e})
  {
    forall o, x | o in all + {e} && x in all + {e} ensures CausalPair(o, x) {
      if o in all && x !in all {
        HeldBelow(all, held, s, t, e, o);
      } else if o !in all && x in all {
        assert Get(e.vv, e.origin) > Get(t, e.origin);
      } else if o in all && x in all {
        assert CausalPair(o, x);
      }
    }
  }

  lemma HeldBelow(all: set<Op>, held: set<Op>, s: VersionVector, t: VersionVector, e: Op, o: Op)
    requires Causal(all) && held <= all && IsJoin(t, held) && e.vv == Increment(Join(s, t), e.origin) && o in all
    requires Get(o.vv, e.origin) <= Get(t, e.origin) && Get(o.vv, o.origin) > 0 && NothingForeign(s, t, e.origin)
    ensures CausalPair(o, e)
  {
    assert Get(e.vv, e.origin) > Get(t, e.origin);
    if Get(o.vv, o.origin) <= Get(e.vv, o.origin) {
      CountIsSeen(s, t, e, o);
      var x := ReachedIsCovered(all, held, t, o);
      EmitsAbove(s, t, e.origin);
      LeqTransitive(o.vv, t, e.vv);
    }
  }

  lemma CountIsSeen(s: VersionVector, t: VersionVector, e: Op, o: Op)
    requires e.vv == Increment(Join(s, t), e.origin) && NothingForeign(s, t, e.origin)
    requires Get(o.vv, e.origin) <= Get(t, e.origin) && Get(o.vv, o.origin) <= Get(e.vv, o.origin)
    ensures Get(o.vv, o.origin) <= Get(t, o.origin)
  {
    if o.origin != e.origin {
      assert Get(e.vv, o.origin) == Get(Join(s, t), o.origin);
    }
  }

  lemma EmitsAbove(s: VersionVector, t: VersionVector, n: NodeId)
    ensures Less(t, Increment(Join(s, t), n))
  {
    JoinIsLeastUpperBound(s, t, t);
    IncrementClimbs(Join(s, t), n);
    LessTransitive(t, Join(s, t), Increment(Join(s, t), n));
  }
}

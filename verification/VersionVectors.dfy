/** Per-file version vectors (src/vv.rs): the causal partial order and its join. */
module VersionVectors {

  type NodeId = nat

  /** A stored counter is never zero, so map equality is causal equality. */
  type Count = c: int | c > 0 witness 1

  type VersionVector = map<NodeId, Count>

  datatype Ord3 = Dominates | Dominated | Equal | Concurrent

  /** Component for `n`; an absent component is causally zero. */
  function Get(v: VersionVector, n: NodeId): nat {
    if n in v then v[n] else 0
  }

  /** `b` covers `a` on every component. */
  predicate Leq(a: VersionVector, b: VersionVector) {
    forall n :: n in a ==> a[n] <= Get(b, n)
  }

  /** Strict causal order. */
  predicate Less(a: VersionVector, b: VersionVector) {
    Leq(a, b) && a != b
  }

  function Compare(a: VersionVector, b: VersionVector): Ord3 {
    if a == b then Equal
    else if Leq(b, a) then Dominates
    else if Leq(a, b) then Dominated
    else Concurrent
  }

  function Increment(v: VersionVector, n: NodeId): VersionVector {
    v[n := Get(v, n) + 1]
  }

  /** Componentwise maximum. */
  function Join(a: VersionVector, b: VersionVector): (r: VersionVector)
    ensures forall n :: Get(r, n) == if Get(a, n) >= Get(b, n) then Get(a, n) else Get(b, n)
  {
    map n | n in a.Keys + b.Keys :: if Get(a, n) >= Get(b, n) then Get(a, n) else Get(b, n)
  }

  lemma LeqAt(a: VersionVector, b: VersionVector, n: NodeId)
    requires Leq(a, b)
    ensures Get(a, n) <= Get(b, n)
  {
  }

  lemma LeqTransitive(a: VersionVector, b: VersionVector, c: VersionVector)
    requires Leq(a, b) && Leq(b, c)
    ensures Leq(a, c)
  {
    forall n | n in a ensures a[n] <= Get(c, n) {
      LeqAt(b, c, n);
    }
  }

  /** The normal form makes mutual covering the same as equality. */
  lemma LeqAntisymmetric(a: VersionVector, b: VersionVector)
    requires Leq(a, b) && Leq(b, a)
    ensures a == b
  {
    assert a.Keys == b.Keys by {
      assert forall n :: n in a ==> n in b;
      assert forall n :: n in b ==> n in a;
    }
  }

  lemma LessTransitive(a: VersionVector, b: VersionVector, c: VersionVector)
    requires Leq(a, b) && Leq(b, c) && (a != b || b != c)
    ensures Less(a, c)
  {
    LeqTransitive(a, b, c);
    if a == c {
      LeqAntisymmetric(a, b);
    }
  }

  /** `Join` is the least upper bound of its arguments. */
  lemma JoinIsLeastUpperBound(a: VersionVector, b: VersionVector, c: VersionVector)
    ensures Leq(a, Join(a, b)) && Leq(b, Join(a, b))
    ensures Leq(a, c) && Leq(b, c) ==> Leq(Join(a, b), c)
  {
    var j := Join(a, b);
    assert forall n :: n in a ==> a[n] <= Get(j, n);
    if Leq(a, c) && Leq(b, c) {
      forall n | n in j ensures j[n] <= Get(c, n) {
        LeqAt(a, c, n);
        LeqAt(b, c, n);
        assert j[n] == Get(j, n);
      }
    }
  }

  /** Joining a covered vector changes nothing. */
  lemma JoinAbsorbs(a: VersionVector, b: VersionVector)
    requires Leq(a, b)
    ensures Join(a, b) == b && Join(b, a) == b
  {
    JoinIsLeastUpperBound(a, b, b);
    JoinIsLeastUpperBound(b, a, b);
    LeqAntisymmetric(Join(a, b), b);
    LeqAntisymmetric(Join(b, a), b);
  }

  /** Idempotent, commutative, associative: what makes delivery order irrelevant. */
  lemma JoinSemilattice(a: VersionVector, b: VersionVector, c: VersionVector)
    ensures Join(a, a) == a
    ensures Join(a, b) == Join(b, a)
    ensures Join(Join(a, b), c) == Join(a, Join(b, c))
  {
    JoinAbsorbs(a, a);
    SameComponents(Join(a, b), Join(b, a));
    JoinAssociates(a, b, c);
  }

  lemma JoinAssociates(a: VersionVector, b: VersionVector, c: VersionVector)
    ensures Join(Join(a, b), c) == Join(a, Join(b, c))
  {
    var l, r := Join(Join(a, b), c), Join(a, Join(b, c));
    forall n ensures Get(l, n) == Get(r, n) {
      assert Get(l, n) == Max3(Get(a, n), Get(b, n), Get(c, n));
    }
    SameComponents(l, r);
  }

  function Max3(x: nat, y: nat, z: nat): nat {
    if x >= y && x >= z then x else if y >= z then y else z
  }

  lemma SameComponents(a: VersionVector, b: VersionVector)
    requires forall n :: Get(a, n) == Get(b, n)
    ensures a == b
  {
    assert forall n :: n in a ==> a[n] == Get(a, n);
    assert forall n :: n in b ==> b[n] == Get(b, n);
    LeqAntisymmetric(a, b);
  }

  lemma IncrementClimbs(v: VersionVector, n: NodeId)
    ensures Less(v, Increment(v, n))
  {
    var r := Increment(v, n);
    assert Get(r, n) == Get(v, n) + 1;
  }

  /** The four outcomes in terms of covering; exactly one holds for every pair. */
  lemma CompareMeaning(a: VersionVector, b: VersionVector)
    ensures Compare(a, b) == Equal <==> Leq(a, b) && Leq(b, a)
    ensures Compare(a, b) == Dominates <==> Less(b, a)
    ensures Compare(a, b) == Dominated <==> Less(a, b)
    ensures Compare(a, b) == Concurrent <==> !Leq(a, b) && !Leq(b, a)
    ensures Compare(a, b) == Equal <==> a == b
  {
    if Leq(a, b) && Leq(b, a) {
      LeqAntisymmetric(a, b);
    }
  }

  /** The key loop of `compare`, with its early exit, agrees with the covering order. */
  method CompareByKeys(a: VersionVector, b: VersionVector) returns (r: Ord3)
    ensures r == Compare(a, b)
  {
    var selfGt, otherGt := false, false;
    var todo := a.Keys + b.Keys;
    while todo != {}
      invariant todo <= a.Keys + b.Keys
      invariant selfGt <==> exists n :: n in (a.Keys + b.Keys) - todo && Get(a, n) > Get(b, n)
      invariant otherGt <==> exists n :: n in (a.Keys + b.Keys) - todo && Get(b, n) > Get(a, n)
      invariant !(selfGt && otherGt)
      decreases |todo|
    {
      var n :| n in todo;
      ghost var seen := (a.Keys + b.Keys) - todo;
      todo := todo - {n};
      assert (a.Keys + b.Keys) - todo == seen + {n};
      if Get(a, n) > Get(b, n) {
        selfGt := true;
      } else if Get(b, n) > Get(a, n) {
        otherGt := true;
      }
      if selfGt && otherGt {
        ConcurrentWitness(a, b);
        return Concurrent;
      }
    }
    CompareMeaning(a, b);
    assert !selfGt ==> Leq(a, b) by {
      if !selfGt {
        forall n | n in a ensures a[n] <= Get(b, n) {
          assert n in (a.Keys + b.Keys) - todo;
        }
      }
    }
    assert !otherGt ==> Leq(b, a) by {
      if !otherGt {
        forall n | n in b ensures b[n] <= Get(a, n) {
          assert n in (a.Keys + b.Keys) - todo;
        }
      }
    }
    if selfGt {
      return Dominates;
    } else if otherGt {
      return Dominated;
    } else {
      return Equal;
    }
  }

  lemma ConcurrentWitness(a: VersionVector, b: VersionVector)
    requires exists n :: n in a.Keys + b.Keys && Get(a, n) > Get(b, n)
    requires exists n :: n in a.Keys + b.Keys && Get(b, n) > Get(a, n)
    ensures Compare(a, b) == Concurrent
  {
    var n :| n in a.Keys + b.Keys && Get(a, n) > Get(b, n);
    var m :| m in a.Keys + b.Keys && Get(b, m) > Get(a, m);
    assert n in a && m in b;
    assert !Leq(a, b) && !Leq(b, a);
  }

  /** The entry loop of `merge` computes the join and keeps the normal form. */
  method Merge(self: VersionVector, other: VersionVector) returns (r: VersionVector)
    ensures r == Join(self, other)
  {
    r := self;
    var todo := other.Keys;
    while todo != {}
      invariant todo <= other.Keys
      invariant forall n :: Get(r, n) == if n in other.Keys - todo then Get(Join(self, other), n) else Get(self, n)
      decreases |todo|
    {
      var n :| n in todo;
      todo := todo - {n};
      if other[n] > Get(r, n) {
        r := r[n := other[n]];
      }
    }
    SameComponents(r, Join(self, other));
  }
}

/** The membership roster: one last-writer-wins register per node (src/membership.rs). */
module Rosters {
  import opened Basics
  import opened SignedEntries

  type PubKey = nat

  /** The cryptography the roster rests on; theorems hold for any, `CollisionFree` where they say so. */
  datatype Crypto = Crypto(hash: seq<Byte> -> nat, checks: (PubKey, seq<Byte>, seq<Byte>) -> bool)
  {
    ghost predicate CollisionFree() {
      forall x, y :: hash(x) == hash(y) ==> x == y
    }

    /** A signature is checked over the canonical bytes. */
    predicate Verify(pk: PubKey, e: Entry) {
      checks(pk, Canonical(e), e.sig)
    }
  }

  lemma CollisionFreeExists(checks: (PubKey, seq<Byte>, seq<Byte>) -> bool)
    ensures Crypto(Number, checks).CollisionFree()
  {
    forall x, y | Number(x) == Number(y) ensures x == y {
      NumberInjective(x, y);
    }
  }

  /** Larger wins: epoch, then Remove over Add, then the content hash. */
  datatype OrderKey = OrderKey(epoch: nat, rank: nat, hash: nat)

  function KeyOf(c: Crypto, e: Entry): OrderKey {
    OrderKey(e.epoch, if e.kind == Add then 0 else 1, c.hash(Canonical(e)))
  }

  predicate Below(a: OrderKey, b: OrderKey) {
    || a.epoch < b.epoch
    || (a.epoch == b.epoch && a.rank < b.rank)
    || (a.epoch == b.epoch && a.rank == b.rank && a.hash <= b.hash)
  }

  lemma BelowIsTotal(a: OrderKey, b: OrderKey, d: OrderKey)
    ensures Below(a, a) && (Below(a, b) || Below(b, a))
    ensures Below(a, b) && Below(b, a) ==> a == b
    ensures Below(a, b) && Below(b, d) ==> Below(a, d)
  {
  }

  /** Entries of equal rank in the order say the same thing. */
  lemma EqualKeysEqualIntents(c: Crypto, a: Entry, b: Entry)
    requires c.CollisionFree() && WellSized(a) && WellSized(b)
    ensures KeyOf(c, a) == KeyOf(c, b) <==> Intent(a) == Intent(b)
  {
    CanonicalIsIntent(a, b);
  }

  type Roster = map<Id, Entry>

  datatype MergeOutcome = Applied | Superseded | Rejected

  /** The single insertion point: verify, then keep the larger. */
  function MergeEntry(c: Crypto, pk: PubKey, r: Roster, e: Entry): (Roster, MergeOutcome) {
    if !c.Verify(pk, e) then (r, Rejected)
    else if e.node in r && Below(KeyOf(c, e), KeyOf(c, r[e.node])) then (r, Superseded)
    else (r[e.node := e], Applied)
  }

  function MergeAll(c: Crypto, pk: PubKey, r: Roster, es: seq<Entry>): Roster
    decreases |es|
  {
    if es == [] then r else MergeEntry(c, pk, MergeAll(c, pk, r, es[..|es| - 1]), es[|es| - 1]).0
  }

  // -------------------------------------------------------- what a merge means

  /** Something on offer for node `n`: what the roster held, or a verified entry. */
  ghost predicate Offered(c: Crypto, pk: PubKey, r: Roster, es: seq<Entry>, n: Id, e: Entry) {
    (n in r && e == r[n]) || (e in es && e.node == n && c.Verify(pk, e))
  }

  /** `win` is a largest of the entries on offer; there is none exactly when nothing is. */
  ghost predicate Wins(c: Crypto, pk: PubKey, r: Roster, es: seq<Entry>, n: Id, out: Roster) {
    && (n in out ==> Offered(c, pk, r, es, n, out[n]))
    && forall e {:trigger Offered(c, pk, r, es, n, e)} :: Offered(c, pk, r, es, n, e) ==> n in out && Below(KeyOf(c, e), KeyOf(c, out[n]))
  }

  lemma OfferedStep(c: Crypto, pk: PubKey, r: Roster, es: seq<Entry>, n: Id, e: Entry)
    requires es != []
    ensures var init, last := es[..|es| - 1], es[|es| - 1];
            Offered(c, pk, r, es, n, e) <==> Offered(c, pk, r, init, n, e) || (e == last && last.node == n && c.Verify(pk, last))
  {
    assert es == es[..|es| - 1] + [es[|es| - 1]];
  }

  /** Merging leaves, at every node, a largest of the entries on offer. */
  lemma {:induction false} MergeTakesLargest(c: Crypto, pk: PubKey, r: Roster, es: seq<Entry>, n: Id)
    ensures Wins(c, pk, r, es, n, MergeAll(c, pk, r, es))
    decreases |es|
  {
    if es != [] {
      var init, last := es[..|es| - 1], es[|es| - 1];
      MergeTakesLargest(c, pk, r, init, n);
      var mid, out := MergeAll(c, pk, r, init), MergeAll(c, pk, r, es);
      if n in out {
        OfferedStep(c, pk, r, es, n, out[n]);
      }
      forall e | Offered(c, pk, r, es, n, e) ensures n in out && Below(KeyOf(c, e), KeyOf(c, out[n])) {
        OfferedStep(c, pk, r, es, n, e);
        assert Offered(c, pk, r, init, n, e) ==> n in mid && Below(KeyOf(c, e), KeyOf(c, mid[n]));
      }
    }
  }

  /** Every entry sits under its own node and has the fixed widths. */
  ghost predicate RosterOk(r: Roster) {
    forall n :: n in r ==> r[n].node == n && WellSized(r[n])
  }

  ghost predicate Sized(es: seq<Entry>) {
    forall e :: e in es ==> WellSized(e)
  }

  /** Every entry was verified under `pk`. */
  ghost predicate VerifiedBy(c: Crypto, pk: PubKey, r: Roster) {
    forall n :: n in r ==> c.Verify(pk, r[n])
  }

  lemma MergeKeepsOk(c: Crypto, pk: PubKey, r: Roster, e: Entry)
    requires RosterOk(r) && VerifiedBy(c, pk, r) && WellSized(e)
    ensures RosterOk(MergeEntry(c, pk, r, e).0) && VerifiedBy(c, pk, MergeEntry(c, pk, r, e).0)
  {
  }

  lemma {:induction false} MergeAllKeepsOk(c: Crypto, pk: PubKey, r: Roster, es: seq<Entry>)
    requires RosterOk(r) && VerifiedBy(c, pk, r) && Sized(es)
    ensures RosterOk(MergeAll(c, pk, r, es)) && VerifiedBy(c, pk, MergeAll(c, pk, r, es))
    decreases |es|
  {
    if es != [] {
      MergeAllKeepsOk(c, pk, r, es[..|es| - 1]);
      assert es[|es| - 1] in es;
      MergeKeepsOk(c, pk, MergeAll(c, pk, r, es[..|es| - 1]), es[|es| - 1]);
    }
  }

  /** The same winners, up to signature and address scope. */
  ghost predicate Same(r: Roster, s: Roster) {
    r.Keys == s.Keys && forall n :: n in r ==> Intent(r[n]) == Intent(s[n])
  }

  /** Two merges with the same offers choose the same winner. */
  lemma SameOffersSameWinner(c: Crypto, pk: PubKey, r: Roster, es: seq<Entry>, r': Roster, es': seq<Entry>, n: Id, out: Roster, out': Roster)
    requires c.CollisionFree() && RosterOk(out) && RosterOk(out')
    requires Wins(c, pk, r, es, n, out) && Wins(c, pk, r', es', n, out')
    requires forall e {:trigger Offered(c, pk, r, es, n, e)} {:trigger Offered(c, pk, r', es', n, e)} ::
               Offered(c, pk, r, es, n, e) <==> Offered(c, pk, r', es', n, e)
    ensures n in out <==> n in out'
    ensures n in out ==> Intent(out[n]) == Intent(out'[n])
  {
    if n in out {
      assert Offered(c, pk, r', es', n, out[n]);
    }
    if n in out' {
      assert Offered(c, pk, r, es, n, out'[n]);
    }
    if n in out && n in out' {
      BelowIsTotal(KeyOf(c, out[n]), KeyOf(c, out'[n]), KeyOf(c, out[n]));
      EqualKeysEqualIntents(c, out[n], out'[n]);
    }
  }

  /** Roster convergence: any order, grouping or repetition of the same verified entries gives the same winners. */
  lemma MergeIsOrderFree(c: Crypto, pk: PubKey, r: Roster, es: seq<Entry>, fs: seq<Entry>)
    requires c.CollisionFree() && RosterOk(r) && VerifiedBy(c, pk, r) && Sized(es) && Sized(fs)
    requires forall e :: c.Verify(pk, e) ==> (e in es <==> e in fs)
    ensures Same(MergeAll(c, pk, r, es), MergeAll(c, pk, r, fs))
  {
    var out, out' := MergeAll(c, pk, r, es), MergeAll(c, pk, r, fs);
    MergeAllKeepsOk(c, pk, r, es);
    MergeAllKeepsOk(c, pk, r, fs);
    forall n ensures (n in out <==> n in out') && (n in out ==> Intent(out[n]) == Intent(out'[n])) {
      MergeTakesLargest(c, pk, r, es, n);
      MergeTakesLargest(c, pk, r, fs, n);
      SameOffersSameWinner(c, pk, r, es, r, fs, n, out, out');
    }
    assert out.Keys == out'.Keys;
  }

  // -------------------------------------------------- byte for byte, or not

  /** The two lists offer the same verified entries. */
  ghost predicate SameVerified(c: Crypto, pk: PubKey, es: seq<Entry>, fs: seq<Entry>) {
    forall e :: c.Verify(pk, e) ==> (e in es <==> e in fs)
  }

  /** Whatever the order, grouping and repetition, the very same roster results. */
  ghost predicate ByteIdentical(c: Crypto, pk: PubKey, r: Roster, es: seq<Entry>) {
    forall fs {:trigger SameVerified(c, pk, es, fs)} :: SameVerified(c, pk, es, fs) ==> MergeAll(c, pk, r, es) == MergeAll(c, pk, r, fs)
  }

  /** `e` will take its node's register: strictly above what is there, and nothing on offer is above it. */
  ghost predicate Tops(c: Crypto, pk: PubKey, r: Roster, es: seq<Entry>, e: Entry) {
    && c.Verify(pk, e)
    && (e.node in r ==> !Below(KeyOf(c, e), KeyOf(c, r[e.node])))
    && forall x :: x in es && x.node == e.node && c.Verify(pk, x) ==> Below(KeyOf(c, x), KeyOf(c, e))
  }

  /** Two different entries on offer that could each take their node's register. */
  ghost predicate Tie(c: Crypto, pk: PubKey, r: Roster, es: seq<Entry>, e: Entry, f: Entry) {
    e != f && e in es && f in es && e.node == f.node && Tops(c, pk, r, es, e) && Tops(c, pk, r, es, f)
  }

  lemma {:induction false} MergeAppend(c: Crypto, pk: PubKey, r: Roster, es: seq<Entry>, fs: seq<Entry>)
    ensures MergeAll(c, pk, r, es + fs) == MergeAll(c, pk, MergeAll(c, pk, r, es), fs)
    decreases |fs|
  {
    if fs == [] {
      assert es + fs == es;
    } else {
      var all := es + fs;
      assert all[..|all| - 1] == es + fs[..|fs| - 1] && all[|all| - 1] == fs[|fs| - 1];
      MergeAppend(c, pk, r, es, fs[..|fs| - 1]);
    }
  }

  /** A register nothing on offer is above keeps the very entry it holds. */
  lemma {:induction false} RegisterStays(c: Crypto, pk: PubKey, r: Roster, es: seq<Entry>, n: Id)
    requires n in r && forall x :: x in es && x.node == n && c.Verify(pk, x) ==> Below(KeyOf(c, x), KeyOf(c, r[n]))
    ensures var out := MergeAll(c, pk, r, es); n in out && out[n] == r[n]
    decreases |es|
  {
    if es != [] {
      var init, last := es[..|es| - 1], es[|es| - 1];
      assert last in es && forall x :: x in init ==> x in es;
      RegisterStays(c, pk, r, init, n);
    }
  }

  /** The first of the entries that could take the register does. */
  lemma FirstTakes(c: Crypto, pk: PubKey, r: Roster, es: seq<Entry>, e: Entry)
    requires Tops(c, pk, r, es, e)
    ensures var out := MergeAll(c, pk, r, [e] + es); e.node in out && out[e.node] == e
  {
    MergeAppend(c, pk, r, [e], es);
    var mid := r[e.node := e];
    assert [e][..0] == [];
    assert MergeAll(c, pk, r, [e]) == mid;
    RegisterStays(c, pk, mid, es, e.node);
  }

  /** Without a tie at `n`, its register ends with the same entry. */
  lemma NoTieAt(c: Crypto, pk: PubKey, r: Roster, es: seq<Entry>, fs: seq<Entry>, n: Id)
    requires SameVerified(c, pk, es, fs) && forall e, f :: !Tie(c, pk, r, es, e, f)
    ensures var out, out' := MergeAll(c, pk, r, es), MergeAll(c, pk, r, fs);
            (n in out <==> n in out') && (n in out ==> out[n] == out'[n])
  {
    if n in r && forall x :: x in es && x.node == n && c.Verify(pk, x) ==> Below(KeyOf(c, x), KeyOf(c, r[n])) {
      RegisterStays(c, pk, r, es, n);
      RegisterStays(c, pk, r, fs, n);
    } else {
      MergeTakesLargest(c, pk, r, es, n);
      MergeTakesLargest(c, pk, r, fs, n);
      TakenTops(c, pk, r, es, fs, n);
    }
  }

  lemma TakenTops(c: Crypto, pk: PubKey, r: Roster, es: seq<Entry>, fs: seq<Entry>, n: Id)
    requires SameVerified(c, pk, es, fs)
    requires !(n in r && forall x :: x in es && x.node == n && c.Verify(pk, x) ==> Below(KeyOf(c, x), KeyOf(c, r[n])))
    requires Wins(c, pk, r, es, n, MergeAll(c, pk, r, es)) && Wins(c, pk, r, fs, n, MergeAll(c, pk, r, fs))
    requires forall e, f :: !Tie(c, pk, r, es, e, f)
    ensures var out, out' := MergeAll(c, pk, r, es), MergeAll(c, pk, r, fs);
            (n in out <==> n in out') && (n in out ==> out[n] == out'[n])
  {
    var out, out' := MergeAll(c, pk, r, es), MergeAll(c, pk, r, fs);
    forall x ensures Offered(c, pk, r, es, n, x) <==> Offered(c, pk, r, fs, n, x) {
    }
    if n in out {
      assert Offered(c, pk, r, fs, n, out[n]);
      WinnerTops(c, pk, r, es, n, out);
    }
    if n in out' {
      assert Offered(c, pk, r, es, n, out'[n]);
      WinnerTops(c, pk, r, fs, n, out');
    }
    if n in out && n in out' {
      assert Tops(c, pk, r, es, out'[n]);
      assert !Tie(c, pk, r, es, out[n], out'[n]);
    }
  }

  /** Where something on offer is above the register, the winner tops it. */
  lemma WinnerTops(c: Crypto, pk: PubKey, r: Roster, es: seq<Entry>, n: Id, out: Roster)
    requires Wins(c, pk, r, es, n, out) && n in out
    requires !(n in r && forall x :: x in es && x.node == n && c.Verify(pk, x) ==> Below(KeyOf(c, x), KeyOf(c, r[n])))
    ensures out[n] in es && out[n].node == n && Tops(c, pk, r, es, out[n])
  {
    forall x | x in es && x.node == n && c.Verify(pk, x) ensures Below(KeyOf(c, x), KeyOf(c, out[n])) {
      assert Offered(c, pk, r, es, n, x);
    }
    if n in r {
      var x :| x in es && x.node == n && c.Verify(pk, x) && !Below(KeyOf(c, x), KeyOf(c, r[n]));
      if Below(KeyOf(c, out[n]), KeyOf(c, r[n])) {
        BelowIsTotal(KeyOf(c, x), KeyOf(c, out[n]), KeyOf(c, r[n]));
      }
      BelowIsTotal(KeyOf(c, r[n]), KeyOf(c, r[n]), KeyOf(c, r[n]));
    }
  }

  /**
   When rosters converge byte for byte: every list offering the same verified
   entries leaves the very same roster, if and only if no two different entries
   tie for a register, at the largest key on offer and strictly above what the
   register holds.
   */
  lemma ByteIdenticalExactly(c: Crypto, pk: PubKey, r: Roster, es: seq<Entry>)
    ensures ByteIdentical(c, pk, r, es) <==> forall e, f :: !Tie(c, pk, r, es, e, f)
  {
    if forall e, f :: !Tie(c, pk, r, es, e, f) {
      forall fs | SameVerified(c, pk, es, fs) ensures MergeAll(c, pk, r, es) == MergeAll(c, pk, r, fs) {
        var out, out' := MergeAll(c, pk, r, es), MergeAll(c, pk, r, fs);
        forall n ensures (n in out <==> n in out') && (n in out ==> out[n] == out'[n]) {
          NoTieAt(c, pk, r, es, fs, n);
        }
        assert out.Keys == out'.Keys;
      }
    } else {
      var e, f :| Tie(c, pk, r, es, e, f);
      TieDivides(c, pk, r, es, e, f);
    }
  }

  lemma TieDivides(c: Crypto, pk: PubKey, r: Roster, es: seq<Entry>, e: Entry, f: Entry)
    requires Tie(c, pk, r, es, e, f)
    ensures !ByteIdentical(c, pk, r, es)
  {
    FirstTakes(c, pk, r, es, e);
    FirstTakes(c, pk, r, es, f);
    assert SameVerified(c, pk, es, [e] + es) && SameVerified(c, pk, es, [f] + es);
    assert MergeAll(c, pk, r, [e] + es) != MergeAll(c, pk, r, [f] + es);
  }

  lemma {:induction false} SmallFits(n: nat, w: nat)
    requires n < 256 && w > 0
    ensures Fits(n, w)
  {
    if w > 1 {
      SmallFits(0, w - 1);
    }
  }

  /** One member at an IPv6 address, in two scopes: the signature is the same, for it covers neither flow nor scope. */
  function Scoped(scope: nat): Entry {
    Entry(1, V6(1, 5, 0, scope), 9, 1, Add, [7])
  }

  /** Two literal entries that share their signature: whichever comes first stays. */
  lemma ScopesDiverge(c: Crypto, pk: PubKey)
    requires c.Verify(pk, Scoped(0))
    ensures WellSized(Scoped(0)) && WellSized(Scoped(3)) && c.Verify(pk, Scoped(3))
    ensures MergeAll(c, pk, map[], [Scoped(0), Scoped(3)]) != MergeAll(c, pk, map[], [Scoped(3), Scoped(0)])
    ensures !ByteIdentical(c, pk, map[], [Scoped(0), Scoped(3)])
  {
    ScopedSized(0);
    ScopedSized(3);
    assert Canonical(Scoped(0)) == Canonical(Scoped(3));
    PairDiverges(c, pk, Scoped(0), Scoped(3));
  }

  lemma ScopedSized(scope: nat)
    ensures WellSized(Scoped(scope))
  {
    SmallFits(1, 16);
    SmallFits(9, 32);
    SmallFits(1, 8);
    SmallFits(5, 2);
  }

  /** Any two different entries for one node with one key part the rosters of the two orders. */
  lemma PairDiverges(c: Crypto, pk: PubKey, e: Entry, f: Entry)
    requires c.Verify(pk, e) && c.Verify(pk, f) && e != f && e.node == f.node && KeyOf(c, e) == KeyOf(c, f)
    ensures MergeAll(c, pk, map[], [e, f]) != MergeAll(c, pk, map[], [f, e])
    ensures !ByteIdentical(c, pk, map[], [e, f])
  {
    assert Tops(c, pk, map[], [e, f], e) && Tops(c, pk, map[], [e, f], f);
    TieDivides(c, pk, map[], [e, f], e, f);
    FirstTakes(c, pk, map[], [f], e);
    FirstTakes(c, pk, map[], [e], f);
    assert [e] + [f] == [e, f] && [f] + [e] == [f, e];
  }

  // ---------------------------------------------------------------- the lattice

  /** `s` is at or above `r` at every node. */
  ghost predicate Covers(c: Crypto, r: Roster, s: Roster) {
    forall n :: n in r ==> n in s && Below(KeyOf(c, r[n]), KeyOf(c, s[n]))
  }

  lemma CoversTransitive(c: Crypto, r: Roster, s: Roster, t: Roster)
    requires Covers(c, r, s) && Covers(c, s, t)
    ensures Covers(c, r, t)
  {
  }

  lemma MergeClimbs(c: Crypto, pk: PubKey, r: Roster, e: Entry)
    ensures Covers(c, r, MergeEntry(c, pk, r, e).0)
  {
    if e.node in r {
      BelowIsTotal(KeyOf(c, e), KeyOf(c, r[e.node]), KeyOf(c, e));
    }
  }

  lemma {:induction false} MergeAllClimbs(c: Crypto, pk: PubKey, r: Roster, es: seq<Entry>)
    ensures Covers(c, r, MergeAll(c, pk, r, es))
    decreases |es|
  {
    if es != [] {
      var mid := MergeAll(c, pk, r, es[..|es| - 1]);
      MergeAllClimbs(c, pk, r, es[..|es| - 1]);
      MergeClimbs(c, pk, mid, es[|es| - 1]);
      CoversTransitive(c, r, mid, MergeAll(c, pk, r, es));
    }
  }

  /** An entry stamped with the epoch `next_epoch_for` hands out always wins. */
  function NextEpochFor(r: Roster, n: Id): nat {
    if n in r then r[n].epoch + 1 else 1
  }

  lemma NextEpochWins(c: Crypto, pk: PubKey, r: Roster, e: Entry)
    requires c.Verify(pk, e)
    ensures e.epoch >= NextEpochFor(r, e.node) ==> MergeEntry(c, pk, r, e) == (r[e.node := e], Applied)
    ensures e.node in r && e.epoch < r[e.node].epoch ==> MergeEntry(c, pk, r, e) == (r, Superseded)
    ensures 0 < e.epoch < NextEpochFor(r, e.node) ==> e.node in r && e.epoch <= r[e.node].epoch
  {
  }

  /** What it takes to take a register: a good signature, and a larger epoch, or a Remove against an Add, or no smaller a hash. */
  predicate Beats(c: Crypto, e: Entry, held: Entry) {
    || e.epoch > held.epoch
    || (e.epoch == held.epoch && e.kind == Remove && held.kind == Add)
    || (e.epoch == held.epoch && e.kind == held.kind && c.hash(Canonical(e)) > c.hash(Canonical(held)))
  }

  /** The three outcomes of a merge, exactly; a register only ever changes to the entry merged. */
  lemma OutcomeExactly(c: Crypto, pk: PubKey, r: Roster, e: Entry)
    ensures var (out, outcome) := MergeEntry(c, pk, r, e);
            && (outcome == Rejected <==> !c.Verify(pk, e))
            && (outcome == Applied <==> c.Verify(pk, e) && (e.node in r ==> Beats(c, e, r[e.node])))
            && out == if outcome == Applied then r[e.node := e] else r
  {
  }

  /** An entry merged already is superseded, so gossip settles. */
  lemma SecondMergeIsIdle(c: Crypto, pk: PubKey, r: Roster, e: Entry)
    ensures var out := MergeEntry(c, pk, r, e).0;
            MergeEntry(c, pk, out, e) == (out, if c.Verify(pk, e) then Superseded else Rejected)
  {
    OutcomeExactly(c, pk, r, e);
  }

  // ----------------------------------------------------------------- snapshots

  ghost predicate Ascending(es: seq<Entry>) {
    forall i, j :: 0 <= i < j < |es| ==> es[i].node < es[j].node
  }

  /** The winners in id order: what is saved, gossiped and digested. */
  ghost predicate IsSnapshot(r: Roster, es: seq<Entry>) {
    Ascending(es) && (forall e :: e in es ==> e.node in r && r[e.node] == e) && (forall n :: n in r ==> r[n] in es)
  }

  lemma SnapshotSize(r: Roster, es: seq<Entry>)
    requires RosterOk(r) && IsSnapshot(r, es)
    ensures Sized(es)
  {
  }

  /** Walking the sorted map. */
  method Snapshot(r: Roster) returns (es: seq<Entry>)
    requires RosterOk(r)
    ensures IsSnapshot(r, es)
  {
    es := [];
    var todo := r.Keys;
    while todo != {}
      invariant Walked(r, es, todo)
      decreases |todo|
    {
      var n := Least(todo);
      WalkStep(r, es, todo, n);
      es := es + [r[n]];
      todo := todo - {n};
    }
  }

  /** Mid-walk: `es` lists everything outside `todo`, and all of it comes first. */
  ghost predicate Walked(r: Roster, es: seq<Entry>, todo: set<Id>) {
    && todo <= r.Keys && Ascending(es)
    && (forall e :: e in es ==> e.node in r && r[e.node] == e)
    && (forall n :: n in r && n !in todo ==> r[n] in es)
    && (forall e, n :: e in es && n in todo ==> e.node < n)
  }

  lemma WalkStep(r: Roster, es: seq<Entry>, todo: set<Id>, n: Id)
    requires RosterOk(r) && Walked(r, es, todo) && n in todo && forall m :: m in todo ==> n <= m
    ensures Walked(r, es + [r[n]], todo - {n})
  {
    var out := es + [r[n]];
    assert r[n].node == n;
    forall i, j | 0 <= i < j < |out| ensures out[i].node < out[j].node {
      if j == |es| {
        assert es[i] in es;
      }
    }
    forall m | m in r && m !in todo - {n} ensures r[m] in out {
      if m != n {
        assert r[m] in es;
      } else {
        assert out[|es|] == r[n];
      }
    }
  }

  method Least(s: set<Id>) returns (n: Id)
    requires s != {}
    ensures n in s && forall m :: m in s ==> n <= m
  {
    n :| n in s;
    var todo := s - {n};
    while todo != {}
      invariant n in s && todo <= s && forall m :: m in s && m !in todo ==> n <= m
      decreases |todo|
    {
      var m :| m in todo;
      todo := todo - {m};
      if m < n {
        n := m;
      }
    }
  }

  ghost function Nodes(es: seq<Entry>): set<Id> {
    set e | e in es :: e.node
  }

  lemma NodesTail(es: seq<Entry>)
    requires es != [] && Ascending(es)
    ensures Ascending(es[1..]) && es[0].node in Nodes(es)
    ensures Nodes(es[1..]) == Nodes(es) - {es[0].node}
    ensures forall n :: n in Nodes(es) ==> es[0].node <= n
  {
    assert es[0] in es;
    assert es == [es[0]] + es[1..];
    assert forall e :: e in es[1..] ==> es[0].node < e.node;
  }

  /** Ascending lists over the same nodes line up. */
  lemma {:induction false} AscendingLineUp(es: seq<Entry>, fs: seq<Entry>)
    requires Ascending(es) && Ascending(fs) && Nodes(es) == Nodes(fs)
    ensures |es| == |fs| && forall i :: 0 <= i < |es| ==> es[i].node == fs[i].node
    decreases |es|
  {
    if es != [] {
      NodesTail(es);
    }
    if fs != [] {
      NodesTail(fs);
    }
    if es != [] && fs != [] {
      AscendingLineUp(es[1..], fs[1..]);
      LineUpHeads(es, fs);
    }
  }

  lemma LineUpHeads(es: seq<Entry>, fs: seq<Entry>)
    requires es != [] && |es| == |fs| && es[0].node == fs[0].node
    requires forall i :: 0 <= i < |es| - 1 ==> es[1..][i].node == fs[1..][i].node
    ensures forall i :: 0 <= i < |es| ==> es[i].node == fs[i].node
  {
    forall i | 0 < i < |es| ensures es[i].node == fs[i].node {
      assert es[1..][i - 1].node == fs[1..][i - 1].node;
    }
  }

  /** Equal digest inputs, equal winners: the digest decides convergence exactly. */
  lemma DigestDecides(r: Roster, s: Roster, es: seq<Entry>, fs: seq<Entry>)
    requires RosterOk(r) && RosterOk(s) && IsSnapshot(r, es) && IsSnapshot(s, fs)
    ensures Transcript(es) == Transcript(fs) <==> Same(r, s)
  {
    SnapshotSize(r, es);
    SnapshotSize(s, fs);
    TranscriptDetermines(es, fs);
    if SameIntents(es, fs) {
      IntentsToRosters(r, s, es, fs);
    }
    if Same(r, s) {
      RostersToIntents(r, s, es, fs);
    }
  }

  lemma IntentsToRosters(r: Roster, s: Roster, es: seq<Entry>, fs: seq<Entry>)
    requires RosterOk(r) && RosterOk(s) && IsSnapshot(r, es) && IsSnapshot(s, fs) && SameIntents(es, fs)
    ensures Same(r, s)
  {
    IntentsCarry(r, s, es, fs);
    IntentsCarry(s, r, fs, es);
    assert r.Keys == s.Keys;
  }

  lemma IntentsCarry(r: Roster, s: Roster, es: seq<Entry>, fs: seq<Entry>)
    requires RosterOk(r) && IsSnapshot(r, es) && IsSnapshot(s, fs) && SameIntents(es, fs)
    ensures r.Keys <= s.Keys && forall n :: n in r ==> Intent(r[n]) == Intent(s[n])
  {
    forall n | n in r ensures n in s && Intent(r[n]) == Intent(s[n]) {
      IntentCarries(r, s, es, fs, n);
    }
  }

  lemma IntentCarries(r: Roster, s: Roster, es: seq<Entry>, fs: seq<Entry>, n: Id)
    requires RosterOk(r) && IsSnapshot(r, es) && IsSnapshot(s, fs) && SameIntents(es, fs) && n in r
    ensures n in s && Intent(r[n]) == Intent(s[n])
  {
    assert r[n] in es;
    var i :| 0 <= i < |es| && es[i] == r[n];
    assert Intent(es[i]).node == es[i].node && Intent(fs[i]).node == fs[i].node;
    assert fs[i] in fs;
  }

  lemma RostersToIntents(r: Roster, s: Roster, es: seq<Entry>, fs: seq<Entry>)
    requires RosterOk(r) && RosterOk(s) && IsSnapshot(r, es) && IsSnapshot(s, fs) && Same(r, s)
    ensures SameIntents(es, fs)
  {
    SnapshotNodes(r, es);
    SnapshotNodes(s, fs);
    AscendingLineUp(es, fs);
    forall i | 0 <= i < |es| ensures Intent(es[i]) == Intent(fs[i]) {
      assert es[i] in es && fs[i] in fs;
    }
  }

  lemma SnapshotNodes(r: Roster, es: seq<Entry>)
    requires RosterOk(r) && IsSnapshot(r, es)
    ensures Nodes(es) == r.Keys
  {
    forall n | n in r ensures n in Nodes(es) {
      assert r[n] in es;
    }
  }

  /** A saved roster loads back unchanged under the key that verified it. */
  lemma SaveLoadRoundTrip(c: Crypto, pk: PubKey, r: Roster, es: seq<Entry>)
    requires RosterOk(r) && VerifiedBy(c, pk, r) && IsSnapshot(r, es)
    ensures MergeAll(c, pk, map[], es) == r
  {
    var out := MergeAll(c, pk, map[], es);
    forall n ensures (n in out <==> n in r) && (n in out ==> out[n] == r[n]) {
      MergeTakesLargest(c, pk, map[], es, n);
      if n in r {
        assert Offered(c, pk, map[], es, n, r[n]);
      }
    }
    assert out.Keys == r.Keys;
  }
}

/** Membership at run time: staged merges with disk as the commit point, the derived views, and gossip (src/membership.rs, src/gossip.rs). */
module Memberships {
  import opened Basics
  import opened SignedEntries
  import opened Rosters
  import opened Versions

  datatype Peer = Peer(node: Id, addr: Addr, fingerprint: nat)

  /** Where persisting can fail: before the rename nothing is durable, after it everything is. */
  datatype SaveFault = NoFault | BeforeRename | AfterRename

  datatype MergeResult = Merged(outcome: MergeOutcome) | NoAdminKey | SaveFailed

  // ------------------------------------------------------------------ every run

  /** The live roster, and the one a load from disk would give. */
  datatype Live = Live(roster: Roster, durable: Roster)

  /** What can happen while the admin key stays the same; `Restart` is also a reload of the intent file. */
  datatype Command = Merge(entry: Entry, fault: SaveFault) | Restart

  function Step(c: Crypto, pk: PubKey, st: Live, cmd: Command): Live {
    match cmd
    case Restart => Live(st.durable, st.durable)
    case Merge(e, fault) =>
      var (staged, outcome) := MergeEntry(c, pk, st.roster, e);
      if outcome != Applied || fault == BeforeRename then st
      else if fault == AfterRename then Live(st.roster, staged)
      else Live(staged, staged)
  }

  function Run(c: Crypto, pk: PubKey, st: Live, cmds: seq<Command>): Live
    decreases |cmds|
  {
    if cmds == [] then st else Step(c, pk, Run(c, pk, st, cmds[..|cmds| - 1]), cmds[|cmds| - 1])
  }

  lemma StepClimbs(c: Crypto, pk: PubKey, st: Live, cmd: Command)
    requires Covers(c, st.roster, st.durable)
    ensures var out := Step(c, pk, st, cmd);
            Covers(c, st.roster, out.roster) && Covers(c, out.roster, out.durable)
  {
    if cmd.Merge? {
      MergeClimbs(c, pk, st.roster, cmd.entry);
    }
    SelfCovers(c, st.roster);
    SelfCovers(c, st.durable);
  }

  lemma SelfCovers(c: Crypto, r: Roster)
    ensures Covers(c, r, r)
  {
  }

  /** Over every run, with saves failing anywhere, disk is at or above the live roster and the live roster only climbs. */
  lemma {:induction false} DiskCoversLive(c: Crypto, pk: PubKey, st: Live, cmds: seq<Command>)
    requires Covers(c, st.roster, st.durable)
    ensures var out := Run(c, pk, st, cmds);
            Covers(c, st.roster, out.roster) && Covers(c, out.roster, out.durable)
    decreases |cmds|
  {
    if cmds == [] {
      SelfCovers(c, st.roster);
    } else {
      var mid := Run(c, pk, st, cmds[..|cmds| - 1]);
      DiskCoversLive(c, pk, st, cmds[..|cmds| - 1]);
      StepClimbs(c, pk, mid, cmds[|cmds| - 1]);
      CoversTransitive(c, st.roster, mid.roster, Run(c, pk, st, cmds).roster);
    }
  }

  /** `e` was offered for merging during the run. */
  ghost predicate Submitted(cmds: seq<Command>, e: Entry) {
    exists i :: 0 <= i < |cmds| && cmds[i].Merge? && cmds[i].entry == e
  }

  ghost predicate Known(st: Live, cmds: seq<Command>, e: Entry) {
    (e.node in st.roster && st.roster[e.node] == e) || (e.node in st.durable && st.durable[e.node] == e) || Submitted(cmds, e)
  }

  /** Every entry live or durable was there at the start or was submitted, with a good signature. */
  ghost predicate Traced(c: Crypto, pk: PubKey, st: Live, cmds: seq<Command>, r: Roster) {
    forall n {:trigger r[n]} :: n in r ==> r[n].node == n && Known(st, cmds, r[n]) && c.Verify(pk, r[n])
  }

  lemma KnownGrows(st: Live, cmds: seq<Command>, cmd: Command, e: Entry)
    ensures Known(st, cmds, e) ==> Known(st, cmds + [cmd], e)
    ensures cmd.Merge? && cmd.entry == e ==> Known(st, cmds + [cmd], e)
  {
    var all := cmds + [cmd];
    if Submitted(cmds, e) {
      var i :| 0 <= i < |cmds| && cmds[i].Merge? && cmds[i].entry == e;
      assert all[i] == cmds[i];
    }
    assert all[|cmds|] == cmd;
  }

  lemma TracedStep(c: Crypto, pk: PubKey, st: Live, cmds: seq<Command>, cmd: Command, mid: Live)
    requires Traced(c, pk, st, cmds, mid.roster) && Traced(c, pk, st, cmds, mid.durable)
    ensures var out := Step(c, pk, mid, cmd);
            Traced(c, pk, st, cmds + [cmd], out.roster) && Traced(c, pk, st, cmds + [cmd], out.durable)
  {
    TracedGrows(c, pk, st, cmds, cmd, mid.roster);
    TracedGrows(c, pk, st, cmds, cmd, mid.durable);
    if cmd.Merge? {
      KnownGrows(st, cmds, cmd, cmd.entry);
      TracedMerge(c, pk, st, cmds + [cmd], mid.roster, cmd.entry);
    }
  }

  lemma TracedMerge(c: Crypto, pk: PubKey, st: Live, cmds: seq<Command>, r: Roster, e: Entry)
    requires Traced(c, pk, st, cmds, r) && Known(st, cmds, e)
    ensures Traced(c, pk, st, cmds, MergeEntry(c, pk, r, e).0)
  {
  }

  lemma TracedGrows(c: Crypto, pk: PubKey, st: Live, cmds: seq<Command>, cmd: Command, r: Roster)
    requires Traced(c, pk, st, cmds, r)
    ensures Traced(c, pk, st, cmds + [cmd], r)
  {
    forall n | n in r ensures r[n].node == n && Known(st, cmds + [cmd], r[n]) && c.Verify(pk, r[n]) {
      KnownGrows(st, cmds, cmd, r[n]);
    }
  }

  lemma {:induction false} NothingFromNowhere(c: Crypto, pk: PubKey, st: Live, cmds: seq<Command>)
    requires RosterOk(st.roster) && RosterOk(st.durable) && VerifiedBy(c, pk, st.roster) && VerifiedBy(c, pk, st.durable)
    ensures var out := Run(c, pk, st, cmds);
            Traced(c, pk, st, cmds, out.roster) && Traced(c, pk, st, cmds, out.durable)
    decreases |cmds|
  {
    if cmds != [] {
      var init, last := cmds[..|cmds| - 1], cmds[|cmds| - 1];
      NothingFromNowhere(c, pk, st, init);
      assert cmds == init + [last];
      TracedStep(c, pk, st, init, last, Run(c, pk, st, init));
    }
  }

  /** The peer `n` stands for: signed intent beats a seed, a signed Remove evicts even a seeded node. */
  function EffectiveAt(our: Id, seeds: seq<Peer>, r: Roster, n: Id): Option<Peer> {
    if n in r && n != our then
      if r[n].kind == Add then Some(Peer(n, r[n].addr, r[n].fingerprint)) else None
    else SeedAt(seeds, n)
  }

  function SeedAt(seeds: seq<Peer>, n: Id): Option<Peer> {
    if seeds == [] then None
    else if seeds[|seeds| - 1].node == n then Some(seeds[|seeds| - 1])
    else SeedAt(seeds[..|seeds| - 1], n)
  }

  /**
   Anti-resurrection: once a node is removed at an epoch, no later state of any
   run has it effective again, under any seeds, unless its winner is a verified
   Add of a larger epoch that was submitted during the run or already durable.
   */
  lemma RemovedStaysOut(c: Crypto, pk: PubKey, st: Live, cmds: seq<Command>, our: Id, seeds: seq<Peer>, n: Id)
    requires RosterOk(st.roster) && RosterOk(st.durable) && VerifiedBy(c, pk, st.roster) && VerifiedBy(c, pk, st.durable)
    requires Covers(c, st.roster, st.durable) && n in st.roster && st.roster[n].kind == Remove && n != our
    ensures var out := Run(c, pk, st, cmds).roster;
            EffectiveAt(our, seeds, out, n).Some? ==>
              && n in out && out[n].kind == Add && out[n].epoch > st.roster[n].epoch && c.Verify(pk, out[n])
              && (Submitted(cmds, out[n]) || (n in st.durable && st.durable[n] == out[n]))
  {
    DiskCoversLive(c, pk, st, cmds);
    NothingFromNowhere(c, pk, st, cmds);
    var out := Run(c, pk, st, cmds).roster;
    assert n in out && Below(Rosters.KeyOf(c, st.roster[n]), Rosters.KeyOf(c, out[n]));
    if EffectiveAt(our, seeds, out, n).Some? {
      assert Known(st, cmds, out[n]);
    }
  }

  // ------------------------------------------------------------------ the object

  class Membership {
    const crypto: Crypto
    const our: Id
    var adminKey: Option<PubKey>
    var seeds: seq<Peer>
    var roster: Roster
    var disk: seq<Entry>
    var effective: map<Id, Peer>
    var allowlist: set<nat>
    var changed: nat

    /** The dial targets are the effective peers, and the allowlist is exactly their fingerprints. */
    ghost predicate ViewsOk()
      reads this
    {
      Matches(effective, our, seeds, roster) && AllowOk(effective, allowlist)
    }

    ghost predicate RosterIsOk()
      reads this
    {
      && RosterOk(roster) && Sized(disk)
      && (adminKey.None? ==> roster == map[])
      && (adminKey.Some? ==> VerifiedBy(crypto, adminKey.value, roster) && Covers(crypto, roster, Durable()))
    }

    /** What a restart would load. */
    ghost function Durable(): Roster
      reads this
    {
      if adminKey.None? then map[] else MergeAll(crypto, adminKey.value, map[], disk)
    }

    ghost predicate Valid()
      reads this
    {
      RosterIsOk() && ViewsOk()
    }

    ghost function State(): Live
      reads this
    {
      Live(roster, Durable())
    }

    /** Load and re-verify the roster file under the configured key. */
    constructor (crypto: Crypto, our: Id, key: Option<PubKey>, seeds: seq<Peer>, file: seq<Entry>)
      requires Sized(file)
      ensures Valid() && adminKey == key && this.seeds == seeds && disk == file
      ensures this.crypto == crypto && this.our == our && roster == Durable()
    {
      this.crypto := crypto;
      this.our := our;
      adminKey := key;
      this.seeds := seeds;
      disk := file;
      roster := map[];
      effective := map[];
      allowlist := {};
      changed := 0;
      new;
      LoadRoster();
      Recompute();
    }

    method LoadRoster()
      requires Sized(disk)
      modifies this`roster
      ensures roster == Durable() && RosterIsOk()
    {
      roster := map[];
      if adminKey.None? {
        return;
      }
      var pk := adminKey.value;
      for i := 0 to |disk|
        invariant roster == MergeAll(crypto, pk, map[], disk[..i])
      {
        assert disk[..i + 1][..i] == disk[..i];
        roster := MergeEntry(crypto, pk, roster, disk[i]).0;
      }
      assert disk[..|disk|] == disk;
      MergeAllKeepsOk(crypto, pk, map[], disk);
      SelfCovers(crypto, roster);
    }

    /** Rebuild the views: seeds first, then roster Adds override and Removes drop. */
    method Recompute()
      requires RosterOk(roster)
      modifies this`effective, this`allowlist
      ensures ViewsOk() && ViewsRight(our, seeds, roster, effective, allowlist)
    {
      var eff := EffectivePeers(our, seeds, roster);
      effective := eff;
      allowlist := set n | n in eff :: eff[n].fingerprint;
      ViewsMean(our, seeds, roster, effective, allowlist);
    }

    /** Write the staged roster; the rename decides what a restart would load. */
    method Persist(staged: Roster, fault: SaveFault) returns (ok: bool)
      requires adminKey.Some? && RosterOk(staged) && VerifiedBy(crypto, adminKey.value, staged) && Sized(disk)
      modifies this`disk
      ensures Sized(disk) && (ok <==> fault == NoFault)
      ensures Durable() == if fault == BeforeRename then old(Durable()) else staged
    {
      if fault == BeforeRename {
        return false;
      }
      disk := Snapshot(staged);
      SnapshotSize(staged, disk);
      SaveLoadRoundTrip(crypto, adminKey.value, staged, disk);
      return fault == NoFault;
    }

    /**
     The mutation entry point: stage on a copy, persist the staged roster, and
     only then let the live state change. A failed save changes nothing live.
     */
    method MergeSigned(e: Entry, fault: SaveFault) returns (result: MergeResult)
      requires Valid() && WellSized(e)
      modifies this
      ensures Valid() && adminKey == old(adminKey) && seeds == old(seeds)
      ensures result == NoAdminKey <==> adminKey.None?
      ensures adminKey.None? ==> State() == old(State())
      ensures adminKey.Some? ==> State() == Step(crypto, adminKey.value, old(State()), Merge(e, fault))
      ensures result.Merged? ==> result.outcome == MergeEntry(crypto, adminKey.value, old(roster), e).1
      ensures adminKey.Some? ==> (result == SaveFailed <==> fault != NoFault && MergeEntry(crypto, adminKey.value, old(roster), e).1 == Applied)
      ensures result == SaveFailed ==> roster == old(roster) && effective == old(effective) && allowlist == old(allowlist)
      ensures changed == if result == Merged(Applied) then old(changed) + 1 else old(changed)
    {
      if adminKey.None? {
        return NoAdminKey;
      }
      var pk := adminKey.value;
      var (staged, outcome) := MergeEntry(crypto, pk, roster, e);
      if outcome == Applied {
        MergeKeepsOk(crypto, pk, roster, e);
        MergeClimbs(crypto, pk, roster, e);
        var saved := Commit(staged, fault);
        return if saved then Merged(Applied) else SaveFailed;
      }
      return Merged(outcome);
    }

    /** Persist, and only after that swap in the staged roster and rebuild the views. */
    method Commit(staged: Roster, fault: SaveFault) returns (saved: bool)
      requires Valid() && adminKey.Some? && RosterOk(staged) && VerifiedBy(crypto, adminKey.value, staged)
      requires Covers(crypto, roster, staged)
      modifies this
      ensures Valid() && adminKey == old(adminKey) && seeds == old(seeds) && (saved <==> fault == NoFault)
      ensures State() ==
              if fault == BeforeRename then old(State())
              else if fault == AfterRename then Live(old(roster), staged)
              else Live(staged, staged)
      ensures !saved ==> effective == old(effective) && allowlist == old(allowlist)
      ensures changed == if saved then old(changed) + 1 else old(changed)
    {
      saved := Persist(staged, fault);
      if saved {
        roster := staged;
        SelfCovers(crypto, staged);
        Recompute();
        changed := changed + 1;
      }
    }

    /** Re-apply intent: new seeds, maybe a new key, and the roster re-verified from disk. */
    method ApplyReload(key: Option<PubKey>, peers: seq<Peer>)
      requires Valid()
      modifies this
      ensures Valid() && adminKey == key && seeds == peers && disk == old(disk) && changed == old(changed) + 1
      ensures roster == Durable()
      ensures key.Some? && key == old(adminKey) ==> State() == Step(crypto, key.value, old(State()), Restart)
    {
      adminKey := key;
      seeds := peers;
      LoadRoster();
      Recompute();
      changed := changed + 1;
    }

    /** Merge received entries one by one; a failing save skips that entry only. */
    method MergeBatch(entries: seq<Entry>, faults: seq<SaveFault>) returns (applied: nat)
      requires Valid() && Sized(entries) && |faults| == |entries|
      modifies this
      ensures Valid() && adminKey == old(adminKey) && seeds == old(seeds)
      ensures adminKey.None? ==> roster == old(roster) && applied == 0
      ensures adminKey.Some? ==> applied == Won(crypto, adminKey.value, old(roster), entries, faults)
      ensures adminKey.Some? ==> roster == MergeAll(crypto, adminKey.value, old(roster), Surviving(entries, faults))
    {
      applied := 0;
      for i := 0 to |entries|
        invariant Valid() && adminKey == old(adminKey) && seeds == old(seeds)
        invariant adminKey.None? ==> roster == old(roster) && applied == 0
        invariant adminKey.Some? ==> Batched(crypto, adminKey.value, old(roster), entries[..i], faults[..i], roster, applied)
      {
        assert entries[i] in entries;
        ghost var before := roster;
        var won := MergeOne(entries[i], faults[i]);
        if adminKey.Some? {
          BatchNext(crypto, adminKey.value, old(roster), entries, faults, i, before, roster, applied);
        }
        if won {
          applied := applied + 1;
        }
      }
      assert entries[..|entries|] == entries && faults[..|faults|] == faults;
    }

    /** One entry of a batch. */
    method MergeOne(e: Entry, fault: SaveFault) returns (won: bool)
      requires Valid() && WellSized(e)
      modifies this
      ensures Valid() && adminKey == old(adminKey) && seeds == old(seeds)
      ensures adminKey.None? ==> roster == old(roster) && !won
      ensures adminKey.Some? ==> roster == (if fault == NoFault then MergeEntry(crypto, adminKey.value, old(roster), e).0 else old(roster))
      ensures adminKey.Some? ==> won == (fault == NoFault && MergeEntry(crypto, adminKey.value, old(roster), e).1 == Applied)
    {
      var result := MergeSigned(e, fault);
      assert roster == State().roster;
      won := result == Merged(Applied);
    }
  }

  // ------------------------------------------------------------- view helpers

  function PeerAt(eff: map<Id, Peer>, n: Id): Option<Peer> {
    if n in eff then Some(eff[n]) else None
  }

  ghost predicate Matches(eff: map<Id, Peer>, our: Id, seeds: seq<Peer>, r: Roster) {
    forall n {:trigger PeerAt(eff, n)} {:trigger n in eff} :: PeerAt(eff, n) == EffectiveAt(our, seeds, r, n)
  }

  /** The effect of one roster entry; our own entry is skipped. */
  function WithEntry(eff: map<Id, Peer>, our: Id, e: Entry): map<Id, Peer> {
    if e.node == our then eff
    else if e.kind == Add then eff[e.node := Peer(e.node, e.addr, e.fingerprint)]
    else eff - {e.node}
  }

  lemma MatchStep(eff: map<Id, Peer>, our: Id, seeds: seq<Peer>, seen: Roster, e: Entry)
    requires Matches(eff, our, seeds, seen)
    ensures Matches(WithEntry(eff, our, e), our, seeds, seen[e.node := e])
  {
    var out, seen' := WithEntry(eff, our, e), seen[e.node := e];
    forall n ensures PeerAt(out, n) == EffectiveAt(our, seeds, seen', n) {
      assert PeerAt(eff, n) == EffectiveAt(our, seeds, seen, n);
    }
  }

  ghost predicate AllowOk(eff: map<Id, Peer>, allow: set<nat>) {
    forall fp :: fp in allow <==> exists n :: n in eff && eff[n].fingerprint == fp
  }

  /** A seed for `n`; the last one counts. */
  ghost predicate SeedFor(seeds: seq<Peer>, n: Id, p: Peer) {
    exists i :: 0 <= i < |seeds| && seeds[i] == p && p.node == n && forall j :: i < j < |seeds| ==> seeds[j].node != n
  }

  /** What signed intent says of `n`: our own entry is no business of ours. */
  predicate Signed(our: Id, roster: Roster, n: Id) {
    n in roster && n != our
  }

  /** The views, in terms of seeds and signed entries alone. */
  ghost predicate ViewsRight(our: Id, seeds: seq<Peer>, roster: Roster, eff: map<Id, Peer>, allow: set<nat>) {
    && (forall n :: Signed(our, roster, n) && roster[n].kind == Add ==>
          n in eff && eff[n] == Peer(n, roster[n].addr, roster[n].fingerprint) && roster[n].fingerprint in allow)
    && (forall n :: Signed(our, roster, n) && roster[n].kind == Remove ==> n !in eff)
    && (forall n, p :: !Signed(our, roster, n) && SeedFor(seeds, n, p) ==> n in eff && eff[n] == p && p.fingerprint in allow)
    && (forall n :: n in eff ==> (Signed(our, roster, n) && roster[n].kind == Add) || (!Signed(our, roster, n) && SeedFor(seeds, n, eff[n])))
    && (forall fp :: fp in allow ==> exists n :: n in eff && eff[n].fingerprint == fp)
  }

  lemma {:induction false} SeedAtIs(seeds: seq<Peer>, n: Id)
    ensures SeedAt(seeds, n).Some? ==> SeedFor(seeds, n, SeedAt(seeds, n).value)
    ensures forall p :: SeedFor(seeds, n, p) ==> SeedAt(seeds, n) == Some(p)
    decreases |seeds|
  {
    if seeds != [] {
      var init, last := seeds[..|seeds| - 1], seeds[|seeds| - 1];
      SeedAtIs(init, n);
      if last.node == n {
        assert SeedFor(seeds, n, last);
      } else {
        SeedCarries(seeds, n);
      }
    }
  }

  lemma SeedCarries(seeds: seq<Peer>, n: Id)
    requires seeds != [] && seeds[|seeds| - 1].node != n
    ensures forall p :: SeedFor(seeds[..|seeds| - 1], n, p) <==> SeedFor(seeds, n, p)
  {
    var init := seeds[..|seeds| - 1];
    forall p ensures SeedFor(init, n, p) <==> SeedFor(seeds, n, p) {
      if SeedFor(init, n, p) {
        var i :| 0 <= i < |init| && init[i] == p && p.node == n && forall j :: i < j < |init| ==> init[j].node != n;
        assert seeds[i] == p;
        forall j | i < j < |seeds| ensures seeds[j].node != n {
          assert j < |init| ==> seeds[j] == init[j];
        }
      }
      if SeedFor(seeds, n, p) {
        var i :| 0 <= i < |seeds| && seeds[i] == p && p.node == n && forall j :: i < j < |seeds| ==> seeds[j].node != n;
        assert init[i] == p;
      }
    }
  }

  /** The views that match are the right ones. */
  lemma ViewsMean(our: Id, seeds: seq<Peer>, roster: Roster, eff: map<Id, Peer>, allow: set<nat>)
    requires Matches(eff, our, seeds, roster) && AllowOk(eff, allow)
    ensures ViewsRight(our, seeds, roster, eff, allow)
  {
    forall n ensures PeerAt(eff, n) == EffectiveAt(our, seeds, roster, n) {
      SeedAtIs(seeds, n);
    }
    forall n | n in eff ensures eff[n].fingerprint in allow {
    }
    forall n | Signed(our, roster, n) && roster[n].kind == Add
      ensures n in eff && eff[n] == Peer(n, roster[n].addr, roster[n].fingerprint) && roster[n].fingerprint in allow
    {
      assert PeerAt(eff, n) == EffectiveAt(our, seeds, roster, n);
    }
    forall n | Signed(our, roster, n) && roster[n].kind == Remove ensures n !in eff {
      assert PeerAt(eff, n) == EffectiveAt(our, seeds, roster, n);
    }
    forall n, p | !Signed(our, roster, n) && SeedFor(seeds, n, p) ensures n in eff && eff[n] == p && p.fingerprint in allow {
      SeedAtIs(seeds, n);
      assert PeerAt(eff, n) == EffectiveAt(our, seeds, roster, n);
    }
    forall n | n in eff ensures (Signed(our, roster, n) && roster[n].kind == Add) || (!Signed(our, roster, n) && SeedFor(seeds, n, eff[n])) {
      SeedAtIs(seeds, n);
      assert PeerAt(eff, n) == EffectiveAt(our, seeds, roster, n);
    }
  }

  method EffectivePeers(our: Id, seeds: seq<Peer>, roster: Roster) returns (eff: map<Id, Peer>)
    requires RosterOk(roster)
    ensures Matches(eff, our, seeds, roster)
  {
    eff := SeedPeers(seeds);
    var todo := roster.Keys;
    ghost var seen: Roster := map[];
    while todo != {}
      invariant Part(seen, roster, todo) && Matches(eff, our, seeds, seen)
      decreases |todo|
    {
      var n :| n in todo;
      todo := todo - {n};
      MatchStep(eff, our, seeds, seen, roster[n]);
      eff := WithEntry(eff, our, roster[n]);
      seen := seen[n := roster[n]];
    }
    assert seen == roster;
  }

  method SeedPeers(seeds: seq<Peer>) returns (eff: map<Id, Peer>)
    ensures forall our :: Matches(eff, our, seeds, map[])
  {
    eff := map[];
    for i := 0 to |seeds|
      invariant forall n :: PeerAt(eff, n) == SeedAt(seeds[..i], n)
    {
      assert seeds[..i + 1][..i] == seeds[..i];
      eff := eff[seeds[i].node := seeds[i]];
    }
    assert seeds[..|seeds|] == seeds;
  }

  /** The entries whose save did not fail. */
  function Surviving(es: seq<Entry>, faults: seq<SaveFault>): seq<Entry>
    requires |es| == |faults|
  {
    if es == [] then []
    else Surviving(es[..|es| - 1], faults[..|es| - 1]) + if faults[|es| - 1] == NoFault then [es[|es| - 1]] else []
  }

  /** How many entries of a batch won and were saved. */
  function Won(c: Crypto, pk: PubKey, r: Roster, es: seq<Entry>, faults: seq<SaveFault>): nat
    requires |es| == |faults|
  {
    if es == [] then 0
    else
      var init, fs := es[..|es| - 1], faults[..|es| - 1];
      var won := MergeEntry(c, pk, MergeAll(c, pk, r, Surviving(init, fs)), es[|es| - 1]).1 == Applied;
      Won(c, pk, r, init, fs) + if won && faults[|es| - 1] == NoFault then 1 else 0
  }

  /** What merging a batch has come to. */
  ghost predicate Batched(c: Crypto, pk: PubKey, r: Roster, es: seq<Entry>, faults: seq<SaveFault>, roster: Roster, applied: nat)
    requires |es| == |faults|
  {
    roster == MergeAll(c, pk, r, Surviving(es, faults)) && applied == Won(c, pk, r, es, faults)
  }

  lemma BatchNext(c: Crypto, pk: PubKey, r: Roster, es: seq<Entry>, faults: seq<SaveFault>, i: nat, before: Roster, after: Roster, applied: nat)
    requires |es| == |faults| && i < |es| && Batched(c, pk, r, es[..i], faults[..i], before, applied)
    requires after == if faults[i] == NoFault then MergeEntry(c, pk, before, es[i]).0 else before
    ensures var won := faults[i] == NoFault && MergeEntry(c, pk, before, es[i]).1 == Applied;
            Batched(c, pk, r, es[..i + 1], faults[..i + 1], after, if won then applied + 1 else applied)
  {
    assert es[..i + 1][..i] == es[..i] && faults[..i + 1][..i] == faults[..i];
    var part := Surviving(es[..i], faults[..i]);
    assert (part + [es[i]])[..|part|] == part && part + [] == part;
  }

  lemma {:induction false} AllSurvive(es: seq<Entry>, faults: seq<SaveFault>)
    requires |es| == |faults| && forall i :: 0 <= i < |faults| ==> faults[i] == NoFault
    ensures Surviving(es, faults) == es
    decreases |es|
  {
    if es != [] {
      AllSurvive(es[..|es| - 1], faults[..|es| - 1]);
      assert es == es[..|es| - 1] + [es[|es| - 1]];
    }
  }

  // --------------------------------------------------------------------- gossip

  /** "replicore-roster-digest-v1" and a zero byte. */
  const DIGEST_TAG: seq<Byte> := [114, 101, 112, 108, 105, 99, 111, 114, 101, 45, 114, 111, 115, 116, 101, 114, 45, 100, 105, 103, 101, 115, 116, 45, 118, 49, 0]

  function Digest(c: Crypto, snapshot: seq<Entry>): nat {
    c.hash(DIGEST_TAG + Transcript(snapshot))
  }

  /** Digests agree exactly when the rosters have the same winners. */
  lemma DigestsAgree(c: Crypto, r: Roster, s: Roster, es: seq<Entry>, fs: seq<Entry>)
    requires c.CollisionFree() && RosterOk(r) && RosterOk(s) && IsSnapshot(r, es) && IsSnapshot(s, fs)
    ensures Digest(c, es) == Digest(c, fs) <==> Same(r, s)
  {
    DigestDecides(r, s, es, fs);
    if Digest(c, es) == Digest(c, fs) {
      Split(DIGEST_TAG, Transcript(es), DIGEST_TAG, Transcript(fs));
    }
  }

  /** At node `n`, `out` holds what the larger of the two rosters says. */
  ghost predicate JoinsAt(c: Crypto, r: Roster, s: Roster, out: Roster, n: Id) {
    && (n in out <==> n in r || n in s)
    && (n in r ==> Below(Rosters.KeyOf(c, r[n]), Rosters.KeyOf(c, out[n])))
    && (n in s ==> Below(Rosters.KeyOf(c, s[n]), Rosters.KeyOf(c, out[n])))
    && (n in out ==> (n in r && Intent(out[n]) == Intent(r[n])) || (n in s && Intent(out[n]) == Intent(s[n])))
  }

  ghost predicate IsJoin(c: Crypto, r: Roster, s: Roster, out: Roster) {
    forall n {:trigger JoinsAt(c, r, s, out, n)} :: JoinsAt(c, r, s, out, n)
  }

  lemma MergeSnapshotIsJoin(c: Crypto, pk: PubKey, r: Roster, s: Roster, es: seq<Entry>)
    requires RosterOk(s) && VerifiedBy(c, pk, s) && IsSnapshot(s, es)
    ensures IsJoin(c, r, s, MergeAll(c, pk, r, es))
  {
    var out := MergeAll(c, pk, r, es);
    forall n ensures JoinsAt(c, r, s, out, n) {
      JoinAt(c, pk, r, s, es, n);
    }
  }

  lemma JoinAt(c: Crypto, pk: PubKey, r: Roster, s: Roster, es: seq<Entry>, n: Id)
    requires RosterOk(s) && VerifiedBy(c, pk, s) && IsSnapshot(s, es)
    ensures JoinsAt(c, r, s, MergeAll(c, pk, r, es), n)
  {
    MergeTakesLargest(c, pk, r, es, n);
    if n in r {
      assert Offered(c, pk, r, es, n, r[n]);
    }
    if n in s {
      assert s[n] in es;
      assert Offered(c, pk, r, es, n, s[n]);
    }
  }

  /** There is one join, up to what is not signed. */
  lemma JoinIsUnique(c: Crypto, r: Roster, s: Roster, j: Roster, k: Roster)
    requires c.CollisionFree() && RosterOk(r) && RosterOk(s) && RosterOk(j) && RosterOk(k)
    requires IsJoin(c, r, s, j) && IsJoin(c, r, s, k)
    ensures Same(j, k)
  {
    forall n ensures (n in j <==> n in k) && (n in j ==> Intent(j[n]) == Intent(k[n])) {
      assert JoinsAt(c, r, s, j, n) && JoinsAt(c, r, s, k, n);
      if n in j {
        JoinBelow(c, r, s, j, k, n);
        JoinBelow(c, r, s, k, j, n);
        BelowIsTotal(Rosters.KeyOf(c, j[n]), Rosters.KeyOf(c, k[n]), Rosters.KeyOf(c, j[n]));
        EqualKeysEqualIntents(c, j[n], k[n]);
      }
    }
    assert j.Keys == k.Keys;
  }

  lemma JoinBelow(c: Crypto, r: Roster, s: Roster, j: Roster, k: Roster, n: Id)
    requires c.CollisionFree() && RosterOk(r) && RosterOk(s) && RosterOk(j) && n in j
    requires JoinsAt(c, r, s, j, n) && JoinsAt(c, r, s, k, n)
    ensures n in k && Below(Rosters.KeyOf(c, j[n]), Rosters.KeyOf(c, k[n]))
  {
    if n in r && Intent(j[n]) == Intent(r[n]) {
      EqualKeysEqualIntents(c, j[n], r[n]);
    } else {
      EqualKeysEqualIntents(c, j[n], s[n]);
    }
  }

  /** Merging back what already absorbed us lands on the same join. */
  lemma PushBackIsJoin(c: Crypto, r: Roster, s: Roster, a: Roster, b: Roster)
    requires IsJoin(c, r, s, a) && IsJoin(c, s, a, b)
    ensures IsJoin(c, r, s, b)
  {
    forall n ensures JoinsAt(c, r, s, b, n) {
      assert JoinsAt(c, r, s, a, n) && JoinsAt(c, s, a, b, n);
    }
  }

  /** Rosters with the same winners are their own join. */
  lemma SameIsJoin(c: Crypto, r: Roster, s: Roster)
    requires c.CollisionFree() && RosterOk(r) && RosterOk(s) && Same(r, s)
    ensures IsJoin(c, r, s, r) && IsJoin(c, r, s, s)
  {
    forall n ensures JoinsAt(c, r, s, r, n) && JoinsAt(c, r, s, s, n) {
      if n in r {
        EqualKeysEqualIntents(c, r[n], s[n]);
      }
    }
  }

  /** `out` is at or above `r`, and every entry of it comes from `r` or from `s`. */
  ghost predicate Between(c: Crypto, r: Roster, s: Roster, out: Roster) {
    Covers(c, r, out) && forall n :: n in out ==> (n in r && out[n] == r[n]) || (n in s && out[n] == s[n])
  }

  lemma {:induction false} SurvivorsAreOffered(es: seq<Entry>, faults: seq<SaveFault>)
    requires |es| == |faults|
    ensures forall e :: e in Surviving(es, faults) ==> e in es
    decreases |es|
  {
    if es != [] {
      SurvivorsAreOffered(es[..|es| - 1], faults[..|es| - 1]);
      assert es == es[..|es| - 1] + [es[|es| - 1]];
    }
  }

  /** Merging any part of a snapshot stays between the rosters. */
  lemma MergePartIsBetween(c: Crypto, pk: PubKey, r: Roster, s: Roster, es: seq<Entry>, part: seq<Entry>)
    requires IsSnapshot(s, es) && forall e :: e in part ==> e in es
    ensures Between(c, r, s, MergeAll(c, pk, r, part))
  {
    var out := MergeAll(c, pk, r, part);
    MergeAllClimbs(c, pk, r, part);
    forall n | n in out ensures (n in r && out[n] == r[n]) || (n in s && out[n] == s[n]) {
      MergeTakesLargest(c, pk, r, part, n);
      assert Offered(c, pk, r, part, n, out[n]);
    }
  }

  /** No save of the exchange fails. */
  ghost predicate Faultless(faults: nat -> SaveFault) {
    forall i: nat :: faults(i) == NoFault
  }

  /** Merge a whole snapshot; the saves that fail leave their entries out. */
  method Absorb(m: Membership, ghost s: Roster, snapshot: seq<Entry>, faults: nat -> SaveFault)
    requires m.Valid() && RosterOk(s) && IsSnapshot(s, snapshot)
    modifies m
    ensures m.Valid() && m.adminKey == old(m.adminKey)
    ensures Between(m.crypto, old(m.roster), s, m.roster)
    ensures m.adminKey.Some? && VerifiedBy(m.crypto, m.adminKey.value, s) && Faultless(faults) ==> IsJoin(m.crypto, old(m.roster), s, m.roster)
  {
    SnapshotSize(s, snapshot);
    var fs := seq(|snapshot|, i requires 0 <= i => faults(i));
    var applied := m.MergeBatch(snapshot, fs);
    if m.adminKey.Some? {
      SurvivorsAreOffered(snapshot, fs);
      MergePartIsBetween(m.crypto, m.adminKey.value, old(m.roster), s, snapshot, Surviving(snapshot, fs));
      if VerifiedBy(m.crypto, m.adminKey.value, s) && Faultless(faults) {
        AllSurvive(snapshot, fs);
        MergeSnapshotIsJoin(m.crypto, m.adminKey.value, old(m.roster), s, snapshot);
      }
    } else {
      SelfCovers(m.crypto, m.roster);
    }
  }

  /** The digests of the two rosters are equal. */
  ghost predicate SameDigest(c: Crypto, r: Roster, s: Roster) {
    forall es, fs :: IsSnapshot(r, es) && IsSnapshot(s, fs) ==> Digest(c, es) == Digest(c, fs)
  }

  lemma SameHaveSameDigest(c: Crypto, r: Roster, s: Roster)
    requires c.CollisionFree() && RosterOk(r) && RosterOk(s) && Same(r, s)
    ensures SameDigest(c, r, s)
  {
    forall es, fs | IsSnapshot(r, es) && IsSnapshot(s, fs) ensures Digest(c, es) == Digest(c, fs) {
      DigestsAgree(c, r, s, es, fs);
    }
  }

  /** Both sides are at the join of what they held, with the same winners and equal digests. */
  ghost predicate Converged(c: Crypto, r: Roster, s: Roster, a: Roster, b: Roster) {
    IsJoin(c, r, s, a) && IsJoin(c, r, s, b) && Same(a, b) && SameDigest(c, a, b)
  }

  lemma SameConverged(c: Crypto, r: Roster, s: Roster)
    requires c.CollisionFree() && RosterOk(r) && RosterOk(s) && Same(r, s)
    ensures Converged(c, r, s, r, s)
  {
    SameIsJoin(c, r, s);
    SameHaveSameDigest(c, r, s);
  }

  lemma JoinsConverged(c: Crypto, r: Roster, s: Roster, a: Roster, b: Roster)
    requires c.CollisionFree() && RosterOk(r) && RosterOk(s) && RosterOk(a) && RosterOk(b)
    requires IsJoin(c, r, s, a) && IsJoin(c, s, a, b)
    ensures Converged(c, r, s, a, b)
  {
    PushBackIsJoin(c, r, s, a, b);
    JoinIsUnique(c, r, s, a, b);
    SameHaveSameDigest(c, a, b);
  }

  lemma SelfBetween(c: Crypto, r: Roster, s: Roster)
    ensures Between(c, r, s, r)
  {
    SelfCovers(c, r);
  }

  /** What comes by way of the other side comes from one of the two. */
  lemma BetweenBack(c: Crypto, r: Roster, s: Roster, a: Roster, b: Roster)
    requires Between(c, r, s, a) && Between(c, s, a, b)
    ensures Between(c, s, r, b)
  {
  }

  /**
   One exchange: digest, then their snapshot, then ours. Whatever the keys and
   whichever saves fail, neither side loses or invents anything. With one key
   and no failing save, both sides end at the join of the two rosters, with
   equal digests.
   */
  method Exchange(initiator: Membership, responder: Membership, initiatorFaults: nat -> SaveFault, responderFaults: nat -> SaveFault)
    requires initiator != responder && initiator.Valid() && responder.Valid()
    requires initiator.crypto == responder.crypto && initiator.crypto.CollisionFree()
    modifies initiator, responder
    ensures initiator.Valid() && responder.Valid()
    ensures initiator.adminKey == old(initiator.adminKey) && responder.adminKey == old(responder.adminKey)
    ensures Between(initiator.crypto, old(initiator.roster), old(responder.roster), initiator.roster)
    ensures Between(initiator.crypto, old(responder.roster), old(initiator.roster), responder.roster)
    ensures initiator.adminKey == responder.adminKey && Faultless(initiatorFaults) && Faultless(responderFaults) ==>
              Converged(initiator.crypto, old(initiator.roster), old(responder.roster), initiator.roster, responder.roster)
  {
    ghost var c, r, s := initiator.crypto, initiator.roster, responder.roster;
    SelfBetween(c, r, s);
    SelfBetween(c, s, r);
    if initiator.adminKey.None? {
      if responder.adminKey.None? {
        SameConverged(c, r, s);
      }
      return;
    }
    var ours := Snapshot(initiator.roster);
    var theirs := Snapshot(responder.roster);
    DigestsAgree(c, r, s, ours, theirs);
    if Digest(initiator.crypto, ours) == Digest(responder.crypto, theirs) {
      SameConverged(c, r, s);
      return;
    }
    Absorb(initiator, s, theirs, initiatorFaults);
    var back := Snapshot(initiator.roster);
    ghost var a := initiator.roster;
    Absorb(responder, a, back, responderFaults);
    BetweenBack(c, r, s, a, responder.roster);
    if initiator.adminKey == responder.adminKey && Faultless(initiatorFaults) && Faultless(responderFaults) {
      JoinsConverged(c, r, s, a, responder.roster);
    }
  }
}

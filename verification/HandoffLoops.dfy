/**
 The loops of a connection (src/net.rs), each proved to be a run of the handoff
 machine, with other commands of the subscriber's store landing between any two
 of its own.
 */
module HandoffLoops {
  import opened Versions
  import opened VersionVectors
  import opened StoreModel
  import opened StoreLaws
  import opened Stores
  import opened Decisions
  import opened Conflict
  import OpSets
  import ReplicaModel
  import opened ReceivePath
  import Handoff

  /** Each op is the next own op after the one before it. */
  predicate NextChain(p: StoreState, cursor: int, ops: seq<Op>)
    decreases |ops|
  {
    ops == [] || (NextChain(p, cursor, ops[..|ops| - 1]) && Handoff.IsNext(p, LastSeq(cursor, ops[..|ops| - 1]), ops[|ops| - 1]))
  }

  function LastSeq(cursor: int, ops: seq<Op>): int {
    if ops == [] then cursor else ops[|ops| - 1].seqno
  }

  /** No own op lies beyond `cursor`. */
  predicate Exhausted(p: StoreState, cursor: int) {
    forall o :: o in p.oplog && o.origin == p.node ==> o.seqno <= cursor
  }

  /** The smallest own op beyond `cursor`, by a scan of the log. */
  method NextOp(p: Store, cursor: int) returns (r: Option<Op>)
    ensures r.Some? ==> Handoff.IsNext(p.State(), cursor, r.value)
    ensures r.None? ==> Exhausted(p.State(), cursor)
  {
    r := None;
    for i := 0 to |p.oplog|
      invariant r.Some? ==> r.value in p.oplog && r.value.origin == p.node && r.value.seqno > cursor
      invariant forall j :: 0 <= j < i && p.oplog[j].origin == p.node && p.oplog[j].seqno > cursor ==>
                              r.Some? && r.value.seqno <= p.oplog[j].seqno
    {
      var o := p.oplog[i];
      if o.origin == p.node && o.seqno > cursor && (r.None? || o.seqno < r.value.seqno) {
        r := Some(o);
      }
    }
  }

  /** `ops_since`: own ops after `cursor`, ascending, at most `limit`; fewer only when there are no more. */
  method OpsSince(p: Store, cursor: int, limit: nat) returns (ops: seq<Op>)
    ensures |ops| <= limit && NextChain(p.State(), cursor, ops)
    ensures |ops| < limit ==> Exhausted(p.State(), LastSeq(cursor, ops))
  {
    ops := [];
    while |ops| < limit
      invariant |ops| <= limit && NextChain(p.State(), cursor, ops)
    {
      var next := NextOp(p, LastSeq(cursor, ops));
      if next.None? {
        return;
      }
      assert (ops + [next.value])[..|ops|] == ops;
      ops := ops + [next.value];
    }
  }

  // ------------------------------------------------------------- runs, extended

  lemma {:induction false} RunAppend(h: Hashes, w: Handoff.World, es: seq<Handoff.Event>, e: Handoff.Event)
    requires Handoff.ValidRun(h, w, es)
    requires var a := Handoff.After(h, w, es); Handoff.Enabled(a, e) && Handoff.Complete(a, e)
    ensures Handoff.ValidRun(h, w, es + [e])
    ensures Handoff.After(h, w, es + [e]) == Handoff.Step(h, Handoff.After(h, w, es), e)
    decreases |es|
  {
    if es == [] {
      assert es + [e] == [e] && [e][1..] == [];
    } else {
      assert (es + [e])[0] == es[0] && (es + [e])[1..] == es[1..] + [e];
      RunAppend(h, Handoff.Step(h, w, es[0]), es[1..], e);
    }
  }

  /** `es` takes `w` to `w'`. */
  ghost predicate Leads(h: Hashes, w: Handoff.World, es: seq<Handoff.Event>, w': Handoff.World) {
    Handoff.ValidRun(h, w, es) && Handoff.After(h, w, es) == w'
  }

  /** A world in which session `id` is live with these variables. */
  ghost function WithLive(w: Handoff.World, id: nat, cursor: int, sent: int, wire: seq<Op>): Handoff.World
    requires id in w.sessions && w.sessions[id].Live?
  {
    w.(sessions := w.sessions[id := w.sessions[id].(cursor := cursor, sent := sent, pushed := wire)])
  }

  /** Writing one frame and publishing its number. */
  lemma PushAndPublish(h: Hashes, w: Handoff.World, es: seq<Handoff.Event>, id: nat, cursor: int, sent: int, wire: seq<Op>, op: Op)
    requires id in w.sessions && w.sessions[id].Live? && Leads(h, w, es, WithLive(w, id, cursor, sent, wire))
    requires Handoff.IsNext(w.p, cursor, op)
    ensures Leads(h, w, es + [Handoff.Push(id, op)] + [Handoff.Publish(id)], WithLive(w, id, op.seqno, op.seqno, wire + [op]))
  {
    RunAppend(h, w, es, Handoff.Push(id, op));
    var mid := WithLive(w, id, op.seqno, sent, wire + [op]);
    assert Handoff.Step(h, WithLive(w, id, cursor, sent, wire), Handoff.Push(id, op)) == mid;
    RunAppend(h, w, es + [Handoff.Push(id, op)], Handoff.Publish(id));
    assert Handoff.Step(h, mid, Handoff.Publish(id)) == WithLive(w, id, op.seqno, op.seqno, wire + [op]);
  }

  lemma ChainStep(p: StoreState, cursor: int, ops: seq<Op>, i: nat)
    requires NextChain(p, cursor, ops) && i < |ops|
    ensures Handoff.IsNext(p, LastSeq(cursor, ops[..i]), ops[i])
    decreases |ops|
  {
    if i < |ops| - 1 {
      ChainStep(p, cursor, ops[..|ops| - 1], i);
      assert ops[..|ops| - 1][..i] == ops[..i];
    }
  }

  // --------------------------------------------------------------- the two loops

  /** The pusher's variables for one connection. */
  class Outbound {
    var cursor: int
    var sent: int
    var wire: seq<Op>

    constructor (resume: int)
      ensures cursor == resume && sent == resume && wire == []
    {
      cursor := resume;
      sent := resume;
      wire := [];
    }

    ghost predicate Shows(w: Handoff.World, id: nat)
      reads this
    {
      && id in w.sessions && w.sessions[id].Live?
      && w.sessions[id].cursor == cursor && w.sessions[id].sent == sent && w.sessions[id].pushed == wire
    }

    /**
     One round of `push_ops`: stream a batch in ascending order, moving the
     cursor before each frame and publishing the frontier after it. The round
     is a run of the handoff machine.
     */
    method PushBatch(h: Hashes, p: Store, limit: nat, ghost w: Handoff.World, ghost id: nat)
      returns (ops: seq<Op>, ghost es: seq<Handoff.Event>)
      requires Shows(w, id) && w.p == p.State()
      modifies this
      ensures |ops| <= limit && NextChain(p.State(), old(cursor), ops) && wire == old(wire) + ops
      ensures cursor == LastSeq(old(cursor), ops) && sent == LastSeq(old(sent), ops)
      ensures |ops| < limit ==> Exhausted(p.State(), cursor)
      ensures Leads(h, w, es, WithLive(w, id, cursor, sent, wire))
    {
      ops := OpsSince(p, cursor, limit);
      es := [];
      assert WithLive(w, id, cursor, sent, wire) == w;
      for i := 0 to |ops|
        invariant wire == old(wire) + ops[..i]
        invariant cursor == LastSeq(old(cursor), ops[..i]) && sent == LastSeq(old(sent), ops[..i])
        invariant Leads(h, w, es, WithLive(w, id, cursor, sent, wire))
      {
        ChainStep(p.State(), old(cursor), ops, i);
        PushAndPublish(h, w, es, id, cursor, sent, wire, ops[i]);
        assert ops[..i + 1] == ops[..i] + [ops[i]];
        cursor := ops[i].seqno;
        wire := wire + [ops[i]];
        sent := cursor;
        es := es + [Handoff.Push(id, ops[i])] + [Handoff.Publish(id)];
      }
      assert ops[..|ops|] == ops;
    }

    /**
     `absorb_acks` over the frames that have arrived: record each ack of our own
     ops up to the published frontier; the first beyond it, or naming another
     origin, ends the connection. Also a run.
     */
    method AbsorbAcks(h: Hashes, p: Store, peer: NodeId, inbox: seq<Ack>, ghost w: Handoff.World, ghost id: nat)
      returns (ok: bool, ghost es: seq<Handoff.Event>)
      requires Shows(w, id) && w.p == p.State() && w.s.node == peer && w.sessions[id].acks == OwnAcks(p.node, inbox)
      modifies p
      ensures ok <==> forall i :: 0 <= i < |inbox| ==> inbox[i].origin == p.node && inbox[i].upTo <= sent
      ensures ok ==> Leads(h, w, es, w.(p := p.State(), sessions := w.sessions[id := w.sessions[id].(acks := [])]))
      ensures !ok ==> Leads(h, w, es, w.(p := p.State(), sessions := w.sessions - {id}))
    {
      es := [];
      assert inbox[0..] == inbox;
      assert WithAcks(w, p.State(), id, OwnAcks(p.node, inbox)) == w;
      for i := 0 to |inbox|
        invariant forall j :: 0 <= j < i ==> inbox[j].origin == p.node && inbox[j].upTo <= sent
        invariant p.node == w.p.node
        invariant Leads(h, w, es, WithAcks(w, p.State(), id, OwnAcks(p.node, inbox[i..])))
      {
        ghost var mid := WithAcks(w, p.State(), id, OwnAcks(p.node, inbox[i..]));
        assert inbox[i..][0] == inbox[i] && inbox[i..][1..] == inbox[i + 1..];
        if inbox[i].origin != p.node {
          DropIsStep(h, w, es, mid, id);
          assert mid.sessions - {id} == w.sessions - {id};
          return false, es + [Handoff.Drop(id)];
        }
        RunAppend(h, w, es, Handoff.TakeAck(id));
        es := es + [Handoff.TakeAck(id)];
        if inbox[i].upTo > sent {
          assert mid.sessions - {id} == w.sessions - {id};
          return false, es;
        }
        AckStep(h, w, p.State(), id, OwnAcks(p.node, inbox[i..]));
        p.AdvanceAck(peer, inbox[i].upTo);
      }
      return true, es;
    }
  }

  /** Taking an ack within the frontier records it and no more. */
  lemma AckStep(h: Hashes, w: Handoff.World, p: StoreState, id: nat, acks: seq<int>)
    requires id in w.sessions && w.sessions[id].Live? && acks != [] && acks[0] <= w.sessions[id].sent && p.node == w.p.node
    ensures Handoff.Step(h, WithAcks(w, p, id, acks), Handoff.TakeAck(id)) ==
            WithAcks(w, p.(acked := Raise(p.acked, w.s.node, p.node, acks[0])), id, acks[1..])
  {
  }

  /** An ack frame as it arrives. */
  datatype Ack = Ack(origin: NodeId, upTo: int)

  /** The acks of `node`'s ops, up to the first frame that names another origin. */
  function OwnAcks(node: NodeId, inbox: seq<Ack>): seq<int> {
    if inbox == [] || inbox[0].origin != node then [] else [inbox[0].upTo] + OwnAcks(node, inbox[1..])
  }

  ghost function WithAcks(w: Handoff.World, p: StoreState, id: nat, acks: seq<int>): Handoff.World
    requires id in w.sessions && w.sessions[id].Live?
  {
    w.(p := p, sessions := w.sessions[id := w.sessions[id].(acks := acks)])
  }

  // ---------------------------------------------------------------- interference

  /** Any store command, carried out by the store. */
  method Perform(h: Hashes, s: Store, c: Command)
    modifies s
    ensures s.State() == Exec(h, old(s.State()), c)
  {
    match c {
      case DoAppend(change) =>
        var r := s.AppendLocal(h, change);
      case DoRename(source, target) =>
        var r := s.AppendLocalRename(h, source, target);
      case DoApply(op, decision) =>
        var r := s.ApplyRemote(op, decision);
      case DoReconcile(path, row) =>
        var r := s.ReconcileUpsert(path, row);
      case DoResolve(path, remote, staged) =>
        var r := s.ResolveRows(h, path, remote, staged);
      case DoAdvanceRecv(peer, origin, upTo) =>
        s.AdvanceRecvCursor(peer, origin, upTo);
      case DoAck(acker, ackTo) =>
        s.AdvanceAck(acker, ackTo);
    }
  }

  /** Commands that leave the ops and the cursor of the pushing peer to its connection. */
  predicate Quiet(peer: NodeId, cs: seq<Command>) {
    forall i :: 0 <= i < |cs| ==> !(cs[i].DoApply? && cs[i].op.origin == peer) && !(cs[i].DoAdvanceRecv? && cs[i].origin == peer)
  }

  lemma CommandIsStep(h: Hashes, w0: Handoff.World, es: seq<Handoff.Event>, w: Handoff.World, c: Command)
    requires Leads(h, w0, es, w)
    requires !(c.DoApply? && c.op.origin == w.p.node) && !(c.DoAdvanceRecv? && c.origin == w.p.node)
    ensures Leads(h, w0, es + [Handoff.SubscriberRuns(c)], w.(s := Exec(h, w.s, c)))
  {
    RunAppend(h, w0, es, Handoff.SubscriberRuns(c));
  }

  /** The same ops of `peer` are recorded. */
  ghost predicate SameApplied(peer: NodeId, a: set<OpId>, b: set<OpId>) {
    forall id: OpId :: id.0 == peer ==> (id in a <==> id in b)
  }

  /** No op of `peer` stops being recorded. */
  ghost predicate OnlyMore(peer: NodeId, a: set<OpId>, b: set<OpId>) {
    forall id: OpId :: id.0 == peer && id in a ==> id in b
  }

  /** Others use the store meanwhile; an op of the pushing peer is not recorded by them. */
  method Interfere(h: Hashes, s: Store, cs: seq<Command>, ghost w0: Handoff.World, ghost before: seq<Handoff.Event>, ghost w: Handoff.World)
    returns (ghost es: seq<Handoff.Event>)
    requires Leads(h, w0, before, w) && w.s == s.State() && Quiet(w.p.node, cs)
    modifies s
    ensures Leads(h, w0, es, w.(s := s.State()))
    ensures SameApplied(w.p.node, old(s.applied), s.applied)
    ensures s.State() == ExecAll(h, old(s.State()), cs)
  {
    es := before;
    assert w.(s := s.State()) == w && cs[0..] == cs;
    for i := 0 to |cs|
      invariant Leads(h, w0, es, w.(s := s.State()))
      invariant SameApplied(w.p.node, old(s.applied), s.applied)
      invariant ExecAll(h, s.State(), cs[i..]) == ExecAll(h, old(s.State()), cs)
    {
      assert cs[i..][0] == cs[i] && cs[i..][1..] == cs[i + 1..];
      CommandIsStep(h, w0, es, w.(s := s.State()), cs[i]);
      QuietApplied(h, s.State(), cs[i], w.p.node);
      Perform(h, s, cs[i]);
      es := es + [Handoff.SubscriberRuns(cs[i])];
    }
  }

  lemma QuietApplied(h: Hashes, st: StoreState, c: Command, peer: NodeId)
    requires !(c.DoApply? && c.op.origin == peer)
    ensures SameApplied(peer, st.applied, Exec(h, st, c).applied)
  {
  }

  // -------------------------------------------------------------- the subscriber

  predicate QuietRounds(peer: NodeId, rounds: seq<Round>) {
    forall i :: 0 <= i < |rounds| ==> Quiet(peer, rounds[i].noise)
  }

  /**
   `resolve_concurrent_at`: ask for the plan, stage it, commit it, and start
   over when the state has moved; every round is a store command of the run. A
   permanent staging failure leaves the conflict to a later session, a transient
   one ends the connection.
   */
  method ResolveConcurrentAt(h: Hashes, s: Store, path: string, remote: Version, rounds: seq<Round>,
                             ghost w0: Handoff.World, ghost before: seq<Handoff.Event>, ghost w: Handoff.World)
    returns (ok: bool, ghost es: seq<Handoff.Event>)
    requires Leads(h, w0, before, w) && w.s == s.State() && |rounds| == ROUNDS && QuietRounds(w.p.node, rounds)
    modifies s
    ensures Leads(h, w0, es, w.(s := s.State()))
    ensures (s.State(), ok) == Rounds(h, old(s.State()), path, remote, rounds, [])
    ensures SameApplied(w.p.node, old(s.applied), s.applied)
  {
    es := before;
    assert w.(s := s.State()) == w;
    var staged: seq<Planned> := [];
    assert rounds[0..] == rounds;
    for i := 0 to ROUNDS
      invariant Leads(h, w0, es, w.(s := s.State()))
      invariant SameApplied(w.p.node, old(s.applied), s.applied)
      invariant Rounds(h, s.State(), path, remote, rounds[i..], staged) == Rounds(h, old(s.State()), path, remote, rounds, [])
    {
      RoundAt(h, s.State(), path, remote, rounds, i, staged);
      var r;
      r, es := ResolveRound(h, s, path, remote, staged, rounds[i].noise, w0, es, w.(s := s.State()));
      if !r.Stale? || rounds[i].staging == Permanent {
        return true, es;
      }
      if rounds[i].staging == Transient {
        return false, es;
      }
      staged := r.plan;
    }
    return true, es;
  }

  lemma RoundAt(h: Hashes, st: StoreState, path: string, remote: Version, rounds: seq<Round>, i: nat, staged: seq<Planned>)
    requires i < |rounds|
    ensures var (after, r) := ResolveRows(h, ExecAll(h, st, rounds[i].noise), path, remote, staged);
            Rounds(h, st, path, remote, rounds[i..], staged) ==
            if !r.Stale? || rounds[i].staging == Permanent then (after, true)
            else if rounds[i].staging == Transient then (after, false)
            else Rounds(h, after, path, remote, rounds[i + 1..], r.plan)
  {
    assert rounds[i..][0] == rounds[i] && rounds[i..][1..] == rounds[i + 1..];
  }

  /** One round: whatever else happens first, then one attempt to commit. */
  method ResolveRound(h: Hashes, s: Store, path: string, remote: Version, staged: seq<Planned>, noise: seq<Command>,
                      ghost w0: Handoff.World, ghost before: seq<Handoff.Event>, ghost w: Handoff.World)
    returns (r: ResolveOutcome, ghost es: seq<Handoff.Event>)
    requires Leads(h, w0, before, w) && w.s == s.State() && Quiet(w.p.node, noise)
    modifies s
    ensures Leads(h, w0, es, w.(s := s.State()))
    ensures SameApplied(w.p.node, old(s.applied), s.applied)
    ensures (s.State(), r) == ResolveRows(h, ExecAll(h, old(s.State()), noise), path, remote, staged)
  {
    es := Interfere(h, s, noise, w0, before, w);
    CommandIsStep(h, w0, es, w.(s := s.State()), DoResolve(path, remote, staged));
    es := es + [Handoff.SubscriberRuns(DoResolve(path, remote, staged))];
    r := s.ResolveRows(h, path, remote, staged);
  }

  predicate QuietWeather(peer: NodeId, x: Weather) {
    && Quiet(peer, x.noise) && |x.first| == |x.second| == |x.third| == ROUNDS
    && QuietRounds(peer, x.first) && QuietRounds(peer, x.second) && QuietRounds(peer, x.third)
  }

  /** The session after its first frame was dealt with and acked. */
  function Acked(x: Handoff.Session): Handoff.Session
    requires x.Live? && x.pushed != []
  {
    x.(pushed := x.pushed[1..], acks := x.acks + [x.pushed[0].seqno])
  }

  function Noted(x: Handoff.Session): Handoff.Session
    requires x.Live? && x.pushed != []
  {
    x.(pushed := x.pushed[1..], handled := x.handled + [x.pushed[0].seqno])
  }

  lemma AckIsStep(h: Hashes, w0: Handoff.World, es: seq<Handoff.Event>, w: Handoff.World, id: nat, x: Handoff.Session)
    requires x.Live? && x.pushed != [] && x.handled == []
    requires id in w.sessions && w.sessions[id] == Noted(x) && Leads(h, w0, es, w)
    ensures Leads(h, w0, es + [Handoff.SendAck(id)], w.(sessions := w.sessions[id := Acked(x)]))
  {
    RunAppend(h, w0, es, Handoff.SendAck(id));
    assert Noted(x).handled == [x.pushed[0].seqno];
    assert Noted(x).(handled := Noted(x).handled[1..], acks := Noted(x).acks + [Noted(x).handled[0]]) == Acked(x);
  }

  lemma DropIsStep(h: Hashes, w0: Handoff.World, es: seq<Handoff.Event>, w: Handoff.World, id: nat)
    requires id in w.sessions && Leads(h, w0, es, w)
    ensures Leads(h, w0, es + [Handoff.Drop(id)], w.(sessions := w.sessions - {id}))
  {
    RunAppend(h, w0, es, Handoff.Drop(id));
  }

  lemma EndsDropped(h: Hashes, w0: Handoff.World, es: seq<Handoff.Event>, w: Handoff.World, id: nat, st: StoreState)
    requires id in w.sessions && w.sessions[id].Live? && w.sessions[id].pushed != []
    requires Leads(h, w0, es, w.(s := st, sessions := w.sessions[id := Noted(w.sessions[id])]))
    ensures Leads(h, w0, es + [Handoff.Drop(id)], w.(s := st, sessions := w.sessions - {id}))
  {
    var mid := w.(s := st, sessions := w.sessions[id := Noted(w.sessions[id])]);
    DropIsStep(h, w0, es, mid, id);
    assert mid.sessions - {id} == w.sessions - {id};
  }

  lemma EndsAcked(h: Hashes, w0: Handoff.World, es: seq<Handoff.Event>, w: Handoff.World, id: nat, st: StoreState)
    requires id in w.sessions && w.sessions[id].Live? && w.sessions[id].pushed != [] && w.sessions[id].handled == []
    requires Leads(h, w0, es, w.(s := st, sessions := w.sessions[id := Noted(w.sessions[id])]))
    ensures Leads(h, w0, es + [Handoff.SendAck(id)], w.(s := st, sessions := w.sessions[id := Acked(w.sessions[id])]))
  {
    var x := w.sessions[id];
    var mid := w.(s := st, sessions := w.sessions[id := Noted(x)]);
    AckIsStep(h, w0, es, mid, id, x);
    assert mid.sessions[id := Acked(x)] == w.sessions[id := Acked(x)];
  }

  lemma ReceiveIsStep(h: Hashes, w0: Handoff.World, es: seq<Handoff.Event>, w: Handoff.World, id: nat, decision: Decision)
    requires id in w.sessions && w.sessions[id].Live? && w.sessions[id].pushed != [] && Leads(h, w0, es, w)
    ensures Leads(h, w0, es + [Handoff.Receive(id, decision)], Handoff.TakeOp(w, id, decision))
  {
    RunAppend(h, w0, es, Handoff.Receive(id, decision));
  }

  /**
   `process_remote_op` and its ack: redelivery only re-acks; otherwise decide,
   fetch, resolve a conflict, commit, then resolve what a downgrade or a rename
   source left concurrent. Whatever else happens to the store in between, it is
   a run of the handoff machine in which the op is dealt with before its ack, or
   the connection ends.
   */
  method ProcessRemoteOp(h: Hashes, s: Store, op: Op, env: Weather, ghost w: Handoff.World, ghost id: nat)
    returns (ok: bool, ghost es: seq<Handoff.Event>)
    requires w.s == s.State() && id in w.sessions && w.sessions[id].Live? && w.sessions[id].handled == []
    requires w.sessions[id].pushed != [] && w.sessions[id].pushed[0] == op && op.origin == w.p.node
    requires QuietWeather(w.p.node, env)
    modifies s
    ensures ok ==> Leads(h, w, es, w.(s := s.State(), sessions := w.sessions[id := Acked(w.sessions[id])]))
    ensures !ok ==> Leads(h, w, es, w.(s := s.State(), sessions := w.sessions - {id}))
    ensures ok ==> op.Id() in s.applied
    ensures OnlyMore(w.p.node, old(s.applied), s.applied)
    ensures (s.State(), ok) == Process(h, old(s.State()), op, env)
  {
    es := [];
    ghost var x := w.sessions[id];
    if op.Id() in s.applied {
      ReceiveIsStep(h, w, es, w, id, Ignore);
      es := es + [Handoff.Receive(id, Ignore)];
      AckIsStep(h, w, es, w.(sessions := w.sessions[id := Noted(x)]), id, x);
      es := es + [Handoff.SendAck(id)];
      return true, es;
    }
    var decision := Decide(Load(s.files, op.path), op.vv);
    if decision == Apply && env.fetch == Transient {
      DropIsStep(h, w, es, w, id);
      return false, es + [Handoff.Drop(id)];
    }
    if decision == Apply && env.fetch == Permanent {
      decision := Quarantined;
    }
    if decision == Decision.Concurrent {
      var settled;
      settled, es := ResolveConcurrentAt(h, s, op.path, OpSets.OpVersion(op), env.first, w, es, w);
      if !settled {
        DropIsStep(h, w, es, w.(s := s.State()), id);
        return false, es + [Handoff.Drop(id)];
      }
    }
    es := Interfere(h, s, env.noise, w, es, w.(s := s.State()));
    ok, es := CommitAndFollowUp(h, s, op, decision, env, w, es, w.(s := s.State()), id);
  }

  /** The durable commit, what follows it, and the ack. */
  method CommitAndFollowUp(h: Hashes, s: Store, op: Op, decision: Decision, env: Weather,
                           ghost w0: Handoff.World, ghost before: seq<Handoff.Event>, ghost w: Handoff.World, ghost id: nat)
    returns (ok: bool, ghost es: seq<Handoff.Event>)
    requires Leads(h, w0, before, w) && w.s == s.State() && id in w.sessions && w.sessions[id].Live? && w.sessions[id].handled == []
    requires w.sessions[id].pushed != [] && w.sessions[id].pushed[0] == op && op.origin == w.p.node
    requires op.Id() !in s.applied && QuietWeather(w.p.node, env)
    modifies s
    ensures ok ==> Leads(h, w0, es, w.(s := s.State(), sessions := w.sessions[id := Acked(w.sessions[id])]))
    ensures !ok ==> Leads(h, w0, es, w.(s := s.State(), sessions := w.sessions - {id}))
    ensures ok ==> op.Id() in s.applied
    ensures OnlyMore(w.p.node, old(s.applied), s.applied)
    ensures (s.State(), ok) == CommitThenFollow(h, old(s.State()), op, decision, env)
  {
    ghost var x := w.sessions[id];
    ReceiveIsStep(h, w0, before, w, id, decision);
    es := before + [Handoff.Receive(id, decision)];
    var outcome := s.ApplyRemote(op, decision);
    if outcome.RenameWithoutSource? {
      return false, es;
    }
    ghost var mid := w.(s := s.State(), sessions := w.sessions[id := Noted(x)]);
    assert Leads(h, w0, es, mid);
    ok, es := FollowUp(h, s, op, decision, outcome.decision, env, w0, es, mid);
    if !ok {
      EndsDropped(h, w0, es, w, id, s.State());
      return false, es + [Handoff.Drop(id)];
    }
    EndsAcked(h, w0, es, w, id, s.State());
    return true, es + [Handoff.SendAck(id)];
  }

  /** Resolve what a downgraded apply, or a rename's source, left concurrent. */
  method FollowUp(h: Hashes, s: Store, op: Op, decision: Decision, effective: Decision, env: Weather,
                  ghost w0: Handoff.World, ghost before: seq<Handoff.Event>, ghost w: Handoff.World)
    returns (ok: bool, ghost es: seq<Handoff.Event>)
    requires Leads(h, w0, before, w) && w.s == s.State() && op.origin == w.p.node && QuietWeather(w.p.node, env)
    modifies s
    ensures Leads(h, w0, es, w.(s := s.State()))
    ensures SameApplied(w.p.node, old(s.applied), s.applied)
    ensures (s.State(), ok) == Follow(h, old(s.State()), op, decision, effective, env)
  {
    ok, es := true, before;
    assert w.(s := s.State()) == w;
    if decision == Apply && effective == Decision.Concurrent {
      ok, es := ResolveConcurrentAt(h, s, op.path, OpSets.OpVersion(op), env.second, w0, es, w);
    }
    if ok && op.kind == Rename && decision != Quarantined && op.pathOld.Some? {
      var source := op.pathOld.value;
      if Decide(Load(s.files, source), op.vv) == Decision.Concurrent {
        ok, es := ResolveConcurrentAt(h, s, source, ReplicaModel.SourceVersion(op), env.third, w0, es, w.(s := s.State()));
      }
    }
  }

  /** The end of the gate: the cursor moves to the snapshot's frontier, and the stream resumes after it. */
  method JoinHandoff(h: Hashes, s: Store, peer: NodeId, resume: int, frontier: int, ghost w: Handoff.World, ghost id: nat)
    returns (start: int)
    requires w.s == s.State() && w.p.node == peer && id in w.sessions && w.sessions[id].Pulling?
    requires w.sessions[id].resume == resume && w.sessions[id].frontier == frontier
    modifies s
    ensures start == if frontier > resume then frontier else resume
    ensures Handoff.HandOver(w, id) == w.(s := s.State(), sessions := w.sessions[id := Handoff.Ready(start)])
  {
    start := if frontier > resume then frontier else resume;
    if start > resume {
      s.AdvanceRecvCursor(peer, peer, start);
    }
  }

  // ------------------------------------------------------------- the whole loop

  lemma {:induction false} RunConcat(h: Hashes, w: Handoff.World, es: seq<Handoff.Event>, mid: Handoff.World, fs: seq<Handoff.Event>, w': Handoff.World)
    requires Leads(h, w, es, mid) && Leads(h, mid, fs, w')
    ensures Leads(h, w, es + fs, w')
    decreases |es|
  {
    if es == [] {
      assert es + fs == fs;
    } else {
      assert (es + fs)[0] == es[0] && (es + fs)[1..] == es[1..] + fs;
      RunConcat(h, Handoff.Step(h, w, es[0]), es[1..], mid, fs, w');
    }
  }

  function Seqnos(ops: seq<Op>): seq<int> {
    if ops == [] then [] else Seqnos(ops[..|ops| - 1]) + [ops[|ops| - 1].seqno]
  }

  /** The session with its first `k` frames dealt with and acked. */
  ghost function Drained(x: Handoff.Session, frames: seq<Op>, k: nat): Handoff.Session
    requires x.Live? && k <= |frames|
  {
    x.(pushed := frames[k..], acks := x.acks + Seqnos(frames[..k]))
  }

  lemma DrainsOne(x: Handoff.Session, frames: seq<Op>, k: nat)
    requires x.Live? && k < |frames|
    ensures Drained(x, frames, k).pushed != [] && Drained(x, frames, k).pushed[0] == frames[k]
    ensures Acked(Drained(x, frames, k)) == Drained(x, frames, k + 1)
  {
    assert frames[k..][1..] == frames[k + 1..];
    assert frames[..k + 1][..k] == frames[..k];
    assert x.acks + Seqnos(frames[..k]) + [frames[k].seqno] == x.acks + Seqnos(frames[..k + 1]);
  }

  /** The first `k` frames are recorded. */
  ghost predicate Recorded(applied: set<OpId>, frames: seq<Op>, k: nat)
    requires k <= |frames|
  {
    forall i :: 0 <= i < k ==> frames[i].Id() in applied
  }

  lemma StillRecorded(peer: NodeId, a: set<OpId>, b: set<OpId>, frames: seq<Op>, k: nat)
    requires k < |frames| && Recorded(a, frames, k) && OnlyMore(peer, a, b) && frames[k].Id() in b
    requires forall i :: 0 <= i < k ==> frames[i].origin == peer
    ensures Recorded(b, frames, k + 1)
  {
  }

  /**
   `subscription_io`'s loop over the frames in flight: a frame of another origin
   or a transient failure ends the connection, every other one is recorded, then
   acked. Whatever lands in between, the loop is a run of the handoff machine, so
   it keeps the handoff invariant and never lowers the cursor.
   */
  method Subscription(h: Hashes, s: Store, peer: NodeId, frames: seq<Op>, env: seq<Weather>, ghost w: Handoff.World, ghost id: nat)
    returns (ok: bool, ghost es: seq<Handoff.Event>, ghost end: Handoff.World)
    requires w.s == s.State() && w.p.node == peer && id in w.sessions && w.sessions[id].Live? && w.sessions[id].handled == []
    requires w.sessions[id].pushed == frames && |env| == |frames| && forall i :: 0 <= i < |env| ==> QuietWeather(peer, env[i])
    modifies s
    ensures Leads(h, w, es, end)
    ensures end == w.(s := s.State(), sessions := if ok then w.sessions[id := Drained(w.sessions[id], frames, |frames|)] else w.sessions - {id})
    ensures ok ==> Recorded(s.applied, frames, |frames|)
    ensures Handoff.Inv(w) ==> Handoff.Inv(end) && Handoff.RecvCursor(end) >= Handoff.RecvCursor(w)
  {
    es, end := [], w;
    ghost var x := w.sessions[id];
    assert frames[0..] == frames && x.acks + Seqnos(frames[..0]) == x.acks;
    for i := 0 to |frames|
      invariant end == w.(s := s.State(), sessions := w.sessions[id := Drained(x, frames, i)])
      invariant Leads(h, w, es, end)
      invariant Recorded(s.applied, frames, i) && forall j :: 0 <= j < i ==> frames[j].origin == peer
    {
      DrainsOne(x, frames, i);
      if frames[i].origin != peer {
        DropIsStep(h, w, es, end, id);
        es := es + [Handoff.Drop(id)];
        end := end.(sessions := end.sessions - {id});
        assert end.sessions == w.sessions - {id};
        KeepsInvariant(h, w, es, end);
        return false, es, end;
      }
      ghost var before := s.applied;
      ghost var step;
      ok, step := ProcessRemoteOp(h, s, frames[i], env[i], end, id);
      ghost var next := end.(s := s.State(), sessions := if ok then end.sessions[id := Drained(x, frames, i + 1)] else end.sessions - {id});
      RunConcat(h, w, es, end, step, next);
      es, end := es + step, next;
      if !ok {
        assert end.sessions == w.sessions - {id};
        KeepsInvariant(h, w, es, end);
        return;
      }
      StillRecorded(peer, before, s.applied, frames, i);
    }
    ok := true;
    KeepsInvariant(h, w, es, end);
  }

  lemma KeepsInvariant(h: Hashes, w: Handoff.World, es: seq<Handoff.Event>, w': Handoff.World)
    requires Leads(h, w, es, w')
    ensures Handoff.Inv(w) ==> Handoff.Inv(w') && Handoff.RecvCursor(w') >= Handoff.RecvCursor(w)
  {
    if Handoff.Inv(w) {
      Handoff.RunKeepsInv(h, w, es);
    }
  }
}

/** The durable store object: tables updated in place, one command at a time (src/oplog.rs). */
module Stores {
  import opened VersionVectors
  import opened Versions
  import opened Decisions
  import opened Conflict
  import opened Model = StoreModel

  class Store {
    const node: NodeId
    var files: map<string, Version>
    var oplog: seq<Op>
    var applied: set<OpId>
    var recv: map<(NodeId, NodeId), int>
    var acked: map<(NodeId, NodeId), int>

    function State(): StoreState
      reads this
    {
      StoreState(node, files, oplog, applied, recv, acked)
    }

    constructor (node: NodeId)
      ensures State() == Init(node)
    {
      this.node := node;
      files, oplog, applied, recv, acked := map[], [], {}, map[], map[];
    }

    method AppendLocal(h: Hashes, c: LocalChange) returns (r: AppendOutcome)
      modifies this
      ensures (State(), r) == Model.AppendLocal(h, old(State()), c)
    {
      if c.kind == Rename {
        return RenameIsNotAChange;
      }
      var local := Load(files, c.path);
      if IsNoOp(h, local, c) {
        return NoOp;
      }
      var latest := LatestSeqLoop(node);
      var uuid := LocalUuid(h, State(), c, latest + 1);
      var vv := Increment(if local.Some? then local.value.vv else map[], node);
      var op := Op(node, latest + 1, c.kind, c.path, None, Some(uuid), c.mode, c.size, c.hash, c.meta, vv);
      if !Logged(oplog, op.Id()) {
        oplog := oplog + [op];
      }
      files := files[c.path := Version(c.kind == Delete, c.hash, c.meta, c.mode, c.size, vv, Some(uuid))];
      return Appended(op);
    }

    method LatestSeqLoop(origin: NodeId) returns (m: nat)
      ensures m == LatestSeq(oplog, origin)
    {
      m := 0;
      for i := 0 to |oplog|
        invariant m == LatestSeq(oplog[..i], origin)
      {
        assert oplog[..i + 1][..i] == oplog[..i];
        if oplog[i].origin == origin && oplog[i].seqno > m {
          m := oplog[i].seqno;
        }
      }
      assert oplog[..|oplog|] == oplog;
    }

    method AppendLocalRename(h: Hashes, source: string, target: string) returns (r: AppendOutcome)
      modifies this
      ensures (State(), r) == Model.AppendLocalRename(h, old(State()), source, target)
    {
      if source == target || source !in files || files[source].tombstone {
        return NoOp;
      }
      var src := files[source];
      var latest := LatestSeqLoop(node);
      var uuid := if src.uuid.Some? then src.uuid.value else h.migrationUuid(source);
      var vv := src.vv;
      if target in files {
        vv := Merge(vv, files[target].vv);
      }
      vv := Increment(vv, node);
      var op := Op(node, latest + 1, Rename, target, Some(source), Some(uuid), src.mode, src.size, src.hash, src.meta, vv);
      if !Logged(oplog, op.Id()) {
        oplog := oplog + [op];
      }
      files := files[source := SourceTombstone(vv, Some(uuid))];
      files := files[target := Version(false, src.hash, src.meta, src.mode, src.size, vv, Some(uuid))];
      return Appended(op);
    }

    method ApplyRemote(op: Op, decision: Decision) returns (r: ApplyOutcome)
      modifies this
      ensures (State(), r) == Model.ApplyRemote(old(State()), op, decision)
    {
      var effective := decision;
      if op.Id() !in applied {
        if op.kind == Rename && op.pathOld.None? {
          return RenameWithoutSource;
        }
        if !Logged(oplog, op.Id()) {
          oplog := oplog + [op];
        }
        if decision == Apply {
          effective := Decide(Load(files, op.path), op.vv);
          if effective == Apply {
            var vv := Merge(VvAt(files, op.path), op.vv);
            files := files[op.path := OpRow(op, vv)];
          }
        }
        if op.kind == Rename {
          var source := op.pathOld.value;
          if Decide(Load(files, source), op.vv) == Apply {
            var vv := Merge(VvAt(files, source), op.vv);
            files := files[source := SourceTombstone(vv, op.uuid)];
          }
        }
        applied := applied + {op.Id()};
      }
      recv := Raise(recv, op.origin, op.origin, op.seqno);
      return Effective(effective);
    }

    method ReconcileUpsert(path: string, row: Version) returns (effective: Decision)
      modifies this
      ensures (State(), effective) == Model.ReconcileUpsert(old(State()), path, row)
    {
      effective := Decide(Load(files, path), row.vv);
      if effective == Apply {
        var vv := Merge(VvAt(files, path), row.vv);
        files := files[path := row.(vv := vv)];
      }
    }

    method OpsAsCandidates(path: string) returns (cs: seq<Version>)
      ensures cs == History(oplog, path)
    {
      cs := [];
      for i := 0 to |oplog|
        invariant cs == History(oplog[..i], path)
      {
        assert oplog[..i + 1][..i] == oplog[..i];
        if Affects(oplog[i], path) {
          cs := cs + [AsCandidate(oplog[i], path)];
        }
      }
      assert oplog[..|oplog|] == oplog;
    }

    /** Candidates of a resolution, with the coverage test on the current row. */
    method GatherCandidates(path: string, remote: Version) returns (cs: seq<Version>)
      requires path in files
      ensures cs == Candidates(State(), path, remote)
    {
      cs := OpsAsCandidates(path);
      cs := cs + [remote];
      var coverage: VersionVector := map[];
      for n := 0 to |cs|
        invariant coverage == JoinAll(cs[..n])
      {
        assert cs[..n + 1][..n] == cs[..n];
        coverage := Merge(coverage, cs[n].vv);
      }
      assert cs[..|cs|] == cs;
      var o := CompareByKeys(coverage, files[path].vv);
      CompareMeaning(coverage, files[path].vv);
      if o != Dominates && o != Equal {
        cs := cs + [files[path]];
      }
    }

    method UpsertAll(rows: seq<Planned>)
      modifies this
      ensures State() == old(State()).(files := Commit(old(files), rows))
    {
      for n := 0 to |rows|
        invariant State() == old(State()).(files := Commit(old(files), rows[..n]))
      {
        assert rows[..n + 1][..n] == rows[..n];
        files := files[rows[n].path := rows[n].row];
      }
      assert rows[..|rows|] == rows;
    }

    method ResolveRows(h: Hashes, path: string, remote: Version, staged: seq<Planned>) returns (r: ResolveOutcome)
      modifies this
      ensures (State(), r) == Model.ResolveRows(h, old(State()), path, remote, staged)
    {
      var decision := Decide(Load(files, path), remote.vv);
      if decision != Decision.Concurrent {
        return NotConcurrent(decision);
      }
      var cs := GatherCandidates(path, remote);
      var derived := PlanCandidates(h, path, cs, files);
      if derived.None? {
        return Unresolvable;
      }
      if derived.value != staged {
        return Stale(derived.value);
      }
      UpsertAll(derived.value);
      return Resolved;
    }

    method AdvanceRecvCursor(peer: NodeId, origin: NodeId, upTo: int)
      modifies this
      ensures State() == old(State()).(recv := Raise(old(recv), peer, origin, upTo))
    {
      recv := Raise(recv, peer, origin, upTo);
    }

    method AdvanceAck(peer: NodeId, upTo: int)
      modifies this
      ensures State() == old(State()).(acked := Raise(old(acked), peer, node, upTo))
    {
      acked := Raise(acked, peer, node, upTo);
    }
  }
}

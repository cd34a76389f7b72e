/** The apply / ignore / concurrent decision (src/decide.rs). */
module Decisions {
  import opened VersionVectors
  import opened Versions

  datatype Decision = Apply | Ignore | Concurrent | Quarantined

  function Decide(local: Option<Version>, remote: VersionVector): Decision {
    if local.None? then Apply
    else
      match Compare(remote, local.value.vv)
      case Dominates => Apply
      case Dominated => Ignore
      case Equal => Ignore
      case Concurrent => Decision.Concurrent
  }

  /** The decision read as a statement about covering. */
  lemma DecideMeaning(local: Option<Version>, remote: VersionVector)
    ensures Decide(local, remote) == Apply <==> local.None? || Less(local.value.vv, remote)
    ensures Decide(local, remote) == Ignore <==> local.Some? && Leq(remote, local.value.vv)
    ensures Decide(local, remote) == Decision.Concurrent <==>
            local.Some? && !Leq(remote, local.value.vv) && !Leq(local.value.vv, remote)
    ensures Decide(local, remote) != Quarantined
  {
    if local.Some? {
      CompareMeaning(remote, local.value.vv);
    }
  }
}

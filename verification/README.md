# Replicore, modelled and proved in Dafny

Replicore keeps one directory tree the same on many nodes, every one of which may
write. This project models the parts of it that have to be right for that to work, and
proves what they promise for every input, every run or every reachable state.

- **Causal store and conflict resolution** (`VersionVectors`, `Decisions`, `CopyNames`,
  `Versions`, `Conflict`, `PlanLaws`, `PlanOrder`, `PlanKeeps`, `PlanCoalescing`,
  `StoreModel`, `Stores`, `StoreLaws`, `StoreEffects`, `ReplicaModel`, `Replicas`). Each
  store command is a function on the node's tables (`StoreModel`); the class
  `Stores.Store` updates its tables in place and is proved to compute those functions, so
  the laws about the functions are laws about the class. `StoreEffects` says field by
  field what each command leaves behind. `Replicas.Replica` adds the file system.
- **Renames** (`RenameLineage`). What the vector of a rename claims, exactly when that is no
  more than its node had seen, and two runs that show what happens when it is more.
- **Whole runs of a mesh** (`OpSets`, `Resolution`, `Convergence`, `NetRuns`, `NoLoss`,
  `RunExamples`).
  Any number of nodes write, delete and rename; any op emitted may be delivered to any node,
  in any order, any number of times. A path's row is then proved to be a function of the
  *set* of ops received for it (`OpSets.Means`), which gives convergence, and no
  undominated content is lost, as long as files are moved between paths whose lineages
  agree (`NetRuns.LineagesAgree`).
- **Join and live-stream handoff** (`Handoff`, `ReceivePath`, `HandoffLoops`). Pusher, subscriber and any
  number of overlapping sessions as one state machine, with crashes and disconnects
  anywhere and both stores free to run other commands in between. The loops of a
  connection are methods on the stores, each proved to be a run of that machine whatever
  else lands between its store calls. `ReceivePath` is the receive path as a function of
  the store, the op and all that happens around it; undisturbed it is the receive step the
  run theorems are about.
- **Merkle anti-entropy** (`TreePaths`, `TreePages`, `MerkleTrees`, `MerkleBytes`,
  `MerkleConcrete`, `MerklePulls`, `MerkleEffects`). Building, paging, pruned descent, what a
  pull does to the store, and why hashes may be taken as terms.
- **Membership and gossip** (`SignedEntries`, `Rosters`, `Memberships`, `MembershipRaces`).
- **Token bucket** (`TokenBuckets`) and **chunks with sparse assembly** (`Chunks`).

Hash functions are parameters, and a theorem assumes of them only that they tell apart the
finitely many things it is about: `Hashes.TellsMetas` the metadata snapshots of the ops or
candidates at hand, `Hashes.TellsCopies` and `Hashes.TellsDurables` the contents written in
the run or present in the plan. `RunExamples` and `PlanCoalescing` give hash functions, runs
and plans with real conflicts that meet these assumptions. Roster and chunk hashes are
unbounded numbers, collision free where a theorem says so (`Crypto.CollisionFree`,
`Chunks.CollisionFree`), which a numbering of byte strings meets
(`Basics.NumberInjective`). Merkle hashes are symbolic terms, which
`MerkleConcrete.RealHashesPruneExactly` justifies: with real 32-byte hashes that tell apart
the strings hashed for two indexes, two directories hash alike exactly when their terms are
equal. Signature checking is an
uninterpreted predicate of key, canonical bytes and signature. Clocks and failures are
arguments.

Places where the code does not do what its comments or its own assertions say are kept as
they are and stated exactly:

- Renames can break convergence and lose content, although tests/rename.rs:5-13 promises
  neither happens. A rename's vector joins the lineages of two paths and may cover a version
  of the target that its node never saw. `RenameLineage.RenameLosesWrite` is a concurrent
  write replaced without a copy; `RenameLineage.RenamesDiverge` is two renames with one vector
  that leave two replicas with the same ops and different rows until someone writes again. A
  rename never replaces a version its node had not seen if and only if the source's vector
  counts no other node beyond the target's (`RenameLineage.RenameConflictsExactly`); writes
  and deletes never do (`RenameLineage.ChangeConflicts`). With that condition at both paths of
  every rename, convergence and no silent loss are proved for runs with renames
  (`NetRuns.Converges`, `NoLoss.NoSilentLoss`). A file only its own node has written, moved to
  a new name, always meets it.
- A quarantined rename is said to touch neither side (src/net.rs:1694-1695), but its commit
  clears the source whenever the op dominates it, with the content nowhere at the target
  (`StoreEffects.QuarantinedRenameClearsSource`).
- The join handoff moves the cursor even when the gating pull skipped a leaf.
  `Handoff.SkippedLeafPassesOver` is an op nobody holds below the cursor,
  `Handoff.SkippedSourceStays` a rename whose source file stays;
  `Handoff.HandoffExactly` says when the handoff is safe, in both directions.
- A config reload may land between staging and commit of a merge. Then what is live fits the
  new key if and only if that key accepts everything the merge leaves
  (`MembershipRaces.ReloadDuringMerge`, failing in `MembershipRaces.RotationLeavesOldEntry`);
  without such a reload it always does (`MembershipRaces.SerialRunsFit`).
- `apply_remote` records an op under the node's own name at any number. Own sequence
  numbers stay exactly 1..n if and only if such an op comes in turn
  (`StoreLaws.DenseExactly`); the connection that receives ops checks the origin.
- The two debug assertions of `plan_candidates` on coalesced copies hold if and only if no
  real file of larger key took the copy name from the first loser
  (`PlanCoalescing.CoalescingAssertion`). `PlanCoalescing.AssertionsFail` is a call on which
  they fail, and `PlanCoalescing.NothingLostInExample` shows that this very call loses
  nothing.
- Rosters do not converge byte for byte as the header of src/membership.rs says. They do if
  and only if no two different entries tie for a register
  (`Rosters.ByteIdenticalExactly`). The signature covers neither the flow label nor the scope
  of an IPv6 address, so one signature fits two entries (`Rosters.ScopesDiverge`).
- Re-inserting a chunk leaves a corrupt chunk of that name in place. A chunk-and-assemble
  pass succeeds if and only if there was none (`Chunks.RoundTrip`); each failing pass drops
  one, so retrying always gets there (`Chunks.RetryUntilAssembled`).

## Model

| member | source | states |
|---|---|---|
| `VersionVectors.Join` | src/vv.rs:59-67 | every component of a merge is the larger of the two |
| `VersionVectors.Merge` | src/vv.rs:59-67 | the entry loop computes the join and never stores a zero |
| `VersionVectors.JoinSemilattice` | src/vv.rs:56-67 | merging is idempotent, commutative and associative |
| `VersionVectors.JoinIsLeastUpperBound` | src/vv.rs:56-67 | the merge covers both histories and nothing smaller does |
| `VersionVectors.CompareByKeys` | src/vv.rs:70-92 | the two-flag key loop with its early exit decides the causal order |
| `VersionVectors.CompareMeaning` | src/vv.rs:28-38 | the four outcomes in terms of covering, each an if-and-only-if |
| `VersionVectors.LeqAntisymmetric` | src/vv.rs:109-122 | without stored zeros, mutual covering is equality of vectors |
| `VersionVectors.IncrementClimbs` | src/vv.rs:52-54 | a local write strictly dominates its predecessor |
| `Decisions.DecideMeaning` | src/decide.rs:56-69 | apply iff strictly newer or unknown, ignore iff covered, concurrent iff neither covers |
| `CopyNames.CopyPathInjective` | src/conflict.rs:379-392 | equal copy paths come from the same path and digest, for all paths |
| `CopyNames.CopyKeepsDirectory` | src/conflict.rs:379-392 | a copy stays in the directory of the original |
| `CopyNames.CopyKeepsExtension` | src/conflict.rs:379-392 | a copy keeps the extension |
| `CopyNames.CopyPathFormat` | src/conflict.rs:379-392 | the marker goes between stem and extension in the same directory; a leading dot is no extension, only the last dot counts, dots in directories do not |
| `CopyNames.CopyPathGrows` | src/conflict.rs:379-392 | a copy path is 31 characters longer, so a collision chain never revisits a path |
| `CopyNames.CopyPathIsCopyName` | src/conflict.rs:379-392 | every copy path embeds the copy marker |
| `Versions.KeyTotalOrder` | src/conflict.rs:114-121 | winner keys are totally ordered |
| `Versions.EqualKeys` | src/conflict.rs:114-121 | equal keys mean equal kind, content and metadata |
| `Conflict.AntichainExact` | src/conflict.rs:160-181 | exactly the maximal candidates, pairwise concurrent, each candidate covered by one, largest key first |
| `Conflict.AntichainLoop` | src/conflict.rs:164-181 | the nested loops that edit `keep` compute that antichain |
| `Conflict.SiftLoop` | src/conflict.rs:166-178 | one candidate against `keep`: the early `continue` loses nothing |
| `Conflict.PlanCandidates` | src/conflict.rs:207-365 | the planning loops compute the plan function |
| `Conflict.ChainLoop` | src/conflict.rs:265-361 | the link loop with its depth limit computes the copy chain |
| `Conflict.NestedPair` | src/conflict.rs:324-333 | a collision's nested antichain always has two members, larger key first |
| `PlanLaws.PlanShape` | src/conflict.rs:207-365 | a plan is the winner's row, then distinct copy names, each row strictly above what it replaces |
| `PlanCoalescing.LinkCommits` | src/conflict.rs:266-345 | which row a link commits at a fresh name, at any depth of the chain |
| `PlanCoalescing.CoalescingAssertion` | src/conflict.rs:275-289 | the debug assertions hold iff no larger real file took the copy name from the earlier link |
| `PlanCoalescing.AssertionsFail` | src/conflict.rs:275-289 | a call with a winner, two losers of one name and a file at that name on which they fail |
| `PlanCoalescing.NothingLostInExample` | src/conflict.rs:246-363 | that call meets all that plan completeness asks for, and keeps both contents |
| `PlanLaws.JoinAllCovers` | src/conflict.rs:216-219 | the winner's vector absorbs every candidate |
| `PlanLaws.WinnerIsLargest` | src/conflict.rs:10-27 | among undominated versions live beats deleted, then larger content hash, then larger metadata hash; full ties take the largest mode and identity |
| `PlanLaws.WinnerIsCandidate` | src/conflict.rs:221-245 | the winner's row carries an undominated candidate's kind, content, metadata and size |
| `PlanLaws.AgreementNeedsNoCopy` | src/conflict.rs:246-263 | deletions, and versions of one content and metadata, are never copied |
| `PlanLaws.FreeCopyIsWhole` | src/conflict.rs:292-317 | a copy at a free name keeps the loser's content, full metadata, mode and size, with the vector and identity the name fixes |
| `PlanLaws.SettledRowIsLarger` | src/conflict.rs:321-358 | a collision's row is the larger version, live, both vectors absorbed; the other is carried on unless the keys tie |
| `PlanLaws.RefusedWhenOccupied` | src/conflict.rs:265-274 | a chain is refused only when real files stand at four nested copy names, and never adds more than four rows |
| `PlanOrder.PlanIsOrderFree` | src/conflict.rs:183-207 | any permutation or repetition of the candidates gives the same plan or the same refusal |
| `PlanKeeps.PlanKeepsContent` | src/conflict.rs:246-363 | every losing maximal version, and every displaced copy-name row, is in the plan or behind its copy name next to a planned path, where the row covers its copy |
| `PlanKeeps.SettleKeepsBoth` | src/conflict.rs:321-358 | a collision commits one content and carries the other to the next name |
| `Stores.Store.AppendLocal` | src/oplog.rs:829-912 | commits the local op and its row, or nothing for a no-op |
| `Stores.Store.LatestSeqLoop` | src/oplog.rs:767-773 | the largest sequence number of an origin |
| `Stores.Store.AppendLocalRename` | src/oplog.rs:923-981 | one op, a source tombstone and a target row under the merged lineage |
| `Stores.Store.ApplyRemote` | src/oplog.rs:990-1097 | idempotent; re-validates the decision; the source effect runs whatever was decided; cursor bump |
| `Stores.Store.ReconcileUpsert` | src/oplog.rs:1233-1254 | writes the row only if it still dominates, files only |
| `Stores.Store.OpsAsCandidates` | src/oplog.rs:1260-1311 | the path's history, a rename being a tombstone at its source |
| `Stores.Store.GatherCandidates` | src/oplog.rs:1346-1366 | history and remote version, with the row only if they do not explain its vector |
| `Stores.Store.UpsertAll` | src/oplog.rs:1375-1388 | commits the plan's rows and nothing else |
| `Stores.Store.ResolveRows` | src/oplog.rs:1332-1390 | commits exactly the re-derived plan; every other outcome leaves the tables alone |
| `Stores.Store.AdvanceRecvCursor` | src/oplog.rs:1435-1448 | the cursor moves to the larger value |
| `Stores.Store.AdvanceAck` | src/oplog.rs:1211-1224 | the ack moves to the larger value |
| `StoreLaws.RowsOnlyClimb` | src/oplog.rs:829-1097 | over every sequence of commands no row disappears, no vector falls, and a row changes only when its vector strictly grows |
| `StoreLaws.TombstoneHolds` | src/oplog.rs:1002-1046 | after any commands an op below a tombstone's vector still does not touch the path |
| `StoreLaws.StaleApplyIsSafe` | src/oplog.rs:1002-1073 | whatever was decided and whatever commands came since, a row is replaced only by a version strictly above the row present at commit, renames included |
| `StoreLaws.StalePlanIsSafe` | src/oplog.rs:1332-1390 | only the plan of the state at commit is written; other outcomes write nothing; afterwards the same version is ignored |
| `StoreLaws.ResolutionLifts` | src/oplog.rs:1366-1388 | a derived plan covers the remote version and lifts every row it touches |
| `StoreLaws.CommitIs` | src/oplog.rs:1375-1388 | committing distinct rows writes exactly those |
| `StoreLaws.DenseExactly` | src/oplog.rs:990-1003 | a command keeps own numbers exactly 1..n iff it records no own op out of turn |
| `StoreLaws.OwnNumbersAreDense` | src/oplog.rs:829-912 | so own numbers are 1..n after every such run |
| `StoreEffects.LocalWriteStands` | src/oplog.rs:829-912 | after a local write a live row with its content and metadata hash stands; it is a no-op iff one stood before |
| `StoreEffects.SecondWriteIsNoOp` | src/oplog.rs:841-851 | the same write again changes nothing |
| `StoreEffects.LocalDeleteClears` | src/oplog.rs:829-912 | after a local delete no live row is left; it is a no-op iff there was none |
| `StoreEffects.LocalChangeEmits` | src/oplog.rs:829-912 | op and row carry all that was asked for, one own count above what was there; no other path changes |
| `StoreEffects.LocalIdentity` | src/oplog.rs:829-912 | identity is kept until a write over a tombstone or at a new path mints one |
| `StoreEffects.LocalRenameMoves` | src/oplog.rs:923-981 | content, metadata, mode, size and identity are at the target, a tombstone of the same vector at the source, nothing else changes |
| `StoreEffects.LocalRenameEmits` | src/oplog.rs:923-981 | its op carries the same and strictly dominates both rows |
| `StoreEffects.RenameNoOpExactly` | src/oplog.rs:929-939 | refused iff source and target are one or no live source row is there |
| `StoreEffects.RemoteOpAtPath` | src/oplog.rs:1002-1046 | the path takes all the op carries iff it was decided so and still strictly dominates at commit |
| `StoreEffects.RemoteRenameAtSource` | src/oplog.rs:1047-1073 | for every decision, the source becomes a tombstone under the op's vector iff the op dominates it or nothing is there |
| `StoreEffects.RemoteOpElsewhere` | src/oplog.rs:990-1097 | no other path changes; the op is logged and recorded once and the cursor reaches it |
| `StoreEffects.RedeliveryIsIdle` | src/oplog.rs:990-1003 | a redelivered op raises the cursor at most |
| `StoreEffects.QuarantinedRenameClearsSource` | src/oplog.rs:1047-1073 | even a quarantined rename clears a source it dominates, and leaves the target |
| `StoreEffects.ReceivedRenameClearsSource` | src/replica.rs:172-241 | a whole receive step leaves the tombstone at a dominated source |
| `StoreEffects.ReceivedOpTakesPath` | src/replica.rs:172-241 | and the op's content, metadata, mode and identity at a dominated path |
| `StoreEffects.ReceivedIsCovered` | src/replica.rs:172-241 | a received op is covered at its path and, for a rename, at its source, but for conflicts past the copy-depth limit |
| `StoreEffects.ModifyBeatsRename` | src/replica.rs:219-239 | a concurrent undominated write at a rename's source brings the source back, live, with at least its rank |
| `StoreEffects.ReconciledRow` | src/oplog.rs:1233-1254 | a reconciled row is taken whole iff it strictly dominates or is new |
| `StoreEffects.RenameInHistories` | src/oplog.rs:1260-1311 | after a rename the target's history holds the file live with the row's vector, the source's a tombstone with it |
| `StoreEffects.RenameSurvivesConflict` | src/oplog.rs:1332-1390 | in a conflict with a concurrent version at the target, any derived plan keeps the moved content and the other one |
| `RunExamples.RenameConflict` | src/oplog.rs:1332-1390 | such a conflict and its plan: the moved file stays, the arriving one is copied |
| `RenameLineage.RenameClaimsExactly` | src/oplog.rs:945-949 | a rename's vector covers only what its node had seen at the target iff the source counts no other node beyond the target, and likewise at the source |
| `RenameLineage.RenameConflictsExactly` | src/oplog.rs:945-949 | every receiver holding a target version the renamer had not seen treats the rename as a conflict iff that holds |
| `RenameLineage.ChangeConflicts` | src/oplog.rs:829-912 | for writes and deletes every unseen version is a conflict |
| `OpSets.CausalExtends` | src/oplog.rs:945-949 | the ops of a path stay causally closed under a new op whose vector adds no foreign lineage to what its node holds |
| `RenameLineage.RenameLosesWrite` | src/oplog.rs:945-949 | a run of two nodes, for any two paths and contents, after which a concurrent write is in no row of either |
| `RenameLineage.RenamesDiverge` | src/oplog.rs:945-949 | a run of two nodes, for any three paths, that ends with the same ops and different rows which no delivery or anti-entropy changes |
| `ReplicaModel.ResolveFrame` | src/replica.rs:276-302 | resolving touches the conflicted path and copy names only |
| `ReplicaModel.ReceiveClimbs` | src/replica.rs:172-241 | receiving an op, a rename's source included, never lowers a row |
| `OpSets.MeaningIsUnique` | src/conflict.rs:28-46 | a set of ops means at most one row, in every field |
| `OpSets.ReachedIsCovered` | src/conflict.rs:28-43 | reaching an op's count at its origin is covering its whole vector |
| `Resolution.WinnerRowMeans` | src/oplog.rs:1354-1374 | the planned winner row is what the set of ops means |
| `Convergence.OpsExplainRow` | src/oplog.rs:1354-1366 | on the op plane, renames included, the row is never a candidate of its own |
| `Convergence.ReceiveKeepsRow` | src/replica.rs:172-241 | at its path and, for a rename, at its source, receiving an op extends the recorded set by it and leaves the row that set means |
| `Convergence.ReceiveFrame` | src/replica.rs:172-241 | no other ordinary path changes |
| `NetRuns.LocalKeepsCausal` | src/oplog.rs:829-981 | a local write, delete or rename keeps the emitted ops causally closed at every path it affects |
| `NetRuns.StepKeepsPath` | src/replica.rs:87-241 | every step of the mesh keeps the path invariant |
| `NetRuns.RowIsMeaningOfOps` | src/conflict.rs:28-43 | in every run of writes, deletes, renames between agreeing lineages and deliveries, each row is the largest-key undominated op received, with all vectors joined; a superseded op never wins |
| `NetRuns.Converges` | src/oplog.rs:1313-1331 | in every such run, replicas that received the same ops for a path have the same row, all fields, if the metadata hash tells those ops apart |
| `RunExamples.ConvergenceOfConflict` | src/replica.rs:172-241 | a run with two undominated writes of different content that meets this, and its one row |
| `NoLoss.CleanPlan` | src/conflict.rs:246-363 | when users leave copy names alone a plan always exists and every loser gets its own name |
| `NoLoss.FaithfulCopiesStay` | src/conflict.rs:397-410 | a copy row, once there, is never replaced |
| `NoLoss.NoSilentLoss` | src/conflict.rs:28-46 | in every such run in which users leave copy names alone, each undominated content received, written or moved, is its path's row or stands, with its durable metadata, at its copy path, if the hashes tell apart what was written |
| `RunExamples.LoserPreserved` | src/conflict.rs:246-363 | hash functions and a clean run with two concurrent writes that meet this, both preserved on both nodes |
| `RunExamples.RenamePreserved` | src/oplog.rs:923-981 | a clean run with a rename and a concurrent write at its target, both contents preserved |
| `Replicas.AgreeIsLive` | src/replica.rs:350-364 | pointwise agreement of disk and index is equality with the live rows |
| `Replicas.Replica.constructor` | src/replica.rs:79-85 | a new replica has an empty disk and index |
| `Replicas.Replica.LocalWrite` | src/replica.rs:90-145 | commits the write; afterwards disk equals index |
| `Replicas.Replica.LocalDelete` | src/replica.rs:147-163 | commits the delete; afterwards disk equals index |
| `Replicas.Replica.LocalRename` | src/replica.rs:259-269 | commits the rename; afterwards disk equals index |
| `Replicas.Replica.SyncFsFromRow` | src/replica.rs:245-255 | repairs the one path on which disk and index may differ |
| `Replicas.Replica.MirrorRows` | src/replica.rs:291-301 | exactly the conflicted path and the copy names take their row's content |
| `Replicas.Replica.ResolveConflict` | src/replica.rs:276-302 | the retry loop settles on the authoritative plan; disk equals index |
| `Replicas.Replica.ApplyToFs` | src/replica.rs:178-200 | the disk effect of an op about to be applied |
| `Replicas.Replica.Receive` | src/replica.rs:172-241 | the receive step for writes, deletes and renames; disk equals index, with the op's content at a path it dominates and nothing at a source it dominates; answers the decision, or `None` on redelivery |
| `Replicas.Replica.SourceStep` | src/replica.rs:219-239 | a rename's source is repaired and, if concurrent, resolved |
| `Replicas.Replica.ReconcileRow` | src/replica.rs:309-339 | one anti-entropy row: applied, resolved or ignored; disk equals index |
| `Replicas.Replica.ReconcileFrom` | src/replica.rs:308-341 | a whole pass over a remote snapshot |
| `Handoff.StepKeepsInv` | src/net.rs:922-1039 | every step of either side keeps the handoff invariant; the cursor never falls |
| `Handoff.HandoffIsSafe` | src/net.rs:1476-1518 | over every run with complete gating pulls, each pusher op at or below the cursor is recorded or covered at every path it affects, the cursor never falls, the ack never passes it |
| `Handoff.JoinReachesFrontier` | src/net.rs:1476-1518 | a join ends with cursor and stream right after every own op the pusher had logged at the snapshot |
| `Handoff.HandoffExactly` | src/net.rs:1501-1511 | a handoff is safe iff at every skipped leaf the local row covers what the pusher did there, as target or source, up to the frontier |
| `Handoff.SkippedLeafPassesOver` | src/net.rs:1501-1511 | a skipped leaf puts an op nobody holds below the cursor |
| `Handoff.SkippedSourceStays` | src/net.rs:1501-1511 | a skipped leaf that is a rename's source keeps the file although the target was pulled |
| `ReceivePath.CalmRoundsResolve` | src/net.rs:1782-1850 | undisturbed, the retry loop commits the authoritative plan in its second round |
| `ReceivePath.CalmIsReceive` | src/net.rs:1612-1748 | undisturbed, the receive path is exactly the receive step of src/replica.rs |
| `ReceivePath.FetchedIsApplied` | src/net.rs:1620-1666 | fetched and still dominating at commit, the op's row stands, whatever else ran |
| `ReceivePath.PermanentIsQuarantined` | src/net.rs:1633-1643 | content that can never be had: recorded, and no row changes but a dominated rename source |
| `ReceivePath.TransientEnds` | src/net.rs:1644-1647 | content that cannot be had now: nothing is recorded and the connection ends |
| `ReceivePath.DowngradedIsResolved` | src/net.rs:1666-1691 | a write landing during the transfer turns the op into a conflict that is resolved; the row covers both |
| `ReceivePath.StagingFails` | src/net.rs:1817-1838 | failed staging leaves the store alone; only a transient failure ends the connection |
| `HandoffLoops.OpsSince` | src/oplog.rs:1110-1185 | own ops after the cursor, ascending, at most the limit, fewer only when there are no more |
| `HandoffLoops.Outbound.PushBatch` | src/net.rs:973-1006 | streams exactly the next own ops, publishing the frontier after each frame, as a run of the machine |
| `HandoffLoops.Outbound.AbsorbAcks` | src/net.rs:1010-1039 | records acks up to the published frontier; ends the connection iff one lies beyond it or names another origin |
| `HandoffLoops.Perform` | src/oplog.rs:616-732 | every store command as the store carries it out |
| `HandoffLoops.ResolveConcurrentAt` | src/net.rs:1782-1850 | the bounded retry loop under interference ends exactly as its rounds say and only ever commits store commands of the run |
| `HandoffLoops.ProcessRemoteOp` | src/net.rs:1612-1748 | with other commands between any two store calls: the store ends exactly as the receive path says; the op is durably recorded before its ack, or the connection ends |
| `HandoffLoops.CommitAndFollowUp` | src/net.rs:1666-1748 | commit, then resolve what a downgrade or a rename source left concurrent, then ack, or end without an ack |
| `HandoffLoops.JoinHandoff` | src/net.rs:1501-1511 | the cursor and the resume point after the gate |
| `HandoffLoops.Subscription` | src/net.rs:1570-1602 | the loop over all frames in flight: each is recorded before its ack or the connection ends; it keeps the handoff invariant and never lowers the cursor |
| `TreePaths.TextInjective` | src/merkle.rs:121-131 | joining components is injective, so splitting the last one off inverts it |
| `TreePaths.ParentFirst` | src/merkle.rs:162-164 | a directory's text sorts strictly before everything inside it |
| `TreePaths.SortedKeys` | src/merkle.rs:163-163 | the directory prefixes in text order |
| `TreePages.ChildrenPage` | src/merkle.rs:208-235 | up to `limit` names strictly after the given one, and whether any remain |
| `TreePages.PagesMeet` | src/merkle.rs:208-235 | asking after the last name continues exactly where the page stopped |
| `TreePages.ChargePage` | src/net.rs:2392-2400 | a page is charged, in bytes, iff its names are in bounds and the total stays in budget |
| `TreePages.WidthIsLeast` | src/net.rs:2392-2400 | a name's length counts for each character the fewest bytes of UTF-8 that can hold it |
| `TreePages.TakePage` | src/net.rs:2384-2407 | any responder's page is refused iff oversized, empty yet unfinished, or out of bounds or budget |
| `TreePages.AcceptedCount` | src/net.rs:2392-2400 | what the requester holds of one directory is at most 986,895 children, whatever the responder sends |
| `TreePages.Children` | src/net.rs:2366-2411 | from an honest responder: the whole listing, each child once in order, iff every name is in bounds and the listing fits the budget |
| `TreePages.Collect` | src/net.rs:2366-2411 | from any responder: exactly the listings whose pages are all accepted, so always within bounds and budget |
| `MerkleBytes.LeafDetermined` | src/merkle.rs:96-110 | the bytes of a leaf determine every hashed field, serialized vector included |
| `MerkleTrees.PruningIsExact` | src/merkle.rs:184-192 | two directories hash alike iff the hashed fields of all rows under them agree |
| `MerkleTrees.SameLeafMeans` | src/merkle.rs:96-110 | equal leaf hashes are equality of kind, content, identity, metadata hash and vector, mode and size aside |
| `MerkleTrees.EnterRow` | src/merkle.rs:141-160 | entering a row lists it and its chain of ancestors, and changes no other listing |
| `MerkleTrees.HashOne` | src/merkle.rs:164-178 | hashing a directory whose subdirectories are done gives its final hash and patches its parent |
| `MerkleTrees.HashDirs` | src/merkle.rs:162-179 | in reverse text order every directory hash is final before its parent is hashed |
| `MerkleTrees.Build` | src/merkle.rs:135-182 | the tree lists exactly the directories of the index, each child with its final hash |
| `MerkleConcrete.RealHashesPruneExactly` | src/merkle.rs:184-192 | with real hashes, two directories at one path hash alike iff their strings, their terms and all rows under them agree, though the strings have no length prefixes |
| `MerkleConcrete.RealPruneRule` | src/merkle.rs:317-325 | child hashes are equal, the flag not consulted, iff the child is the same leaf or a directory with the same rows |
| `MerkleConcrete.SameLastLeaf` | src/merkle.rs:96-110 | directories with equal strings, wherever they are, have the same last leaf, because a leaf hash covers its full path |
| `MerkleConcrete.AssumptionsCanBeMet` | src/merkle.rs:96-192 | two different nested trees and a coding that meet what these assume |
| `MerklePulls.PruneRule` | src/merkle.rs:317-325 | the hash comparison prunes a child iff its leaf or whole subtree agrees locally |
| `MerklePulls.PullListing` | src/merkle.rs:316-326 | comparing one listing keeps the work-list invariant |
| `MerklePulls.ReconcilePull` | src/merkle.rs:300-335 | handles exactly the remote leaves missing or different, each once; requests exactly the directories under which the indexes differ, each once |
| `MerkleEffects.PrunedPullIsFullPull` | src/merkle.rs:15-31 | leaving out equal leaves gives the same store as ingesting every remote row, in any order |
| `MerkleEffects.PullCovers` | src/merkle.rs:337-392 | after a pull every remote vector is covered locally, given each conflict met was settled |
| `MerkleEffects.OnePullCovers` | src/merkle.rs:300-392 | one pruned pull makes every local vector cover the remote's, at every remote path |
| `MerkleEffects.PullTakesNewest` | src/merkle.rs:337-392 | without conflicts a pull leaves the newer of the two versions at each listed path |
| `MerkleEffects.PullLeavesRest` | src/merkle.rs:337-392 | and every other path as it was |
| `MerkleEffects.OppositePullsEqualize` | src/merkle.rs:18-24 | without conflicts, pulls in both directions leave equal row maps |
| `MerkleEffects.PullThenPullBack` | src/merkle.rs:18-24 | the same when the second pull starts after the first |
| `MerkleEffects.Session` | src/merkle.rs:300-335 | a whole session: build, descend, ingest; disk equals index afterwards |
| `SignedEntries.CanonicalEntryBytes` | src/admin.rs:120-145 | the buffer filled field by field is the canonical layout |
| `SignedEntries.CanonicalEnds` | src/admin.rs:120-145 | 84 or 96 bytes by address family, of which the last alone tells an Add from a Remove |
| `SignedEntries.BigEndianInjective` | src/admin.rs:120-145 | fixed-width numbers are determined by their bytes |
| `SignedEntries.PrefixFree` | src/admin.rs:120-145 | canonical bytes determine the signed intent and no entry is a prefix of another |
| `SignedEntries.CanonicalIsIntent` | src/admin.rs:120-145 | equal bytes iff equal intent |
| `SignedEntries.TranscriptDetermines` | src/membership.rs:200-207 | equal digest inputs iff equal lists of intents |
| `Rosters.EqualKeysEqualIntents` | src/membership.rs:105-111 | equal order keys iff equal intents |
| `Rosters.MergeTakesLargest` | src/membership.rs:154-165 | merging leaves at each node a largest of the verified entries on offer, and nothing unverified |
| `Rosters.MergeIsOrderFree` | src/membership.rs:154-165 | any order, grouping or repetition of the same verified entries gives the same winners |
| `Rosters.ByteIdenticalExactly` | src/membership.rs:11-16 | every order, grouping and repetition leaves the very same roster iff no two different entries tie for a register |
| `Rosters.ScopesDiverge` | src/membership.rs:73-85 | two literal entries with one signature, of which the first to arrive stays |
| `Rosters.MergeAllClimbs` | src/membership.rs:154-165 | no merge lowers a register |
| `Rosters.NextEpochWins` | src/membership.rs:193-195 | an entry at the handed-out epoch always wins, one below the winner's epoch never does |
| `Rosters.OutcomeExactly` | src/membership.rs:105-165 | the three outcomes of a merge, exactly: a larger epoch, or a Remove against an Add, or a larger content hash takes the register |
| `Rosters.SecondMergeIsIdle` | src/membership.rs:154-165 | an entry merged again changes nothing |
| `Rosters.Snapshot` | src/membership.rs:178-180 | the winners in id order |
| `Rosters.DigestDecides` | src/membership.rs:200-207 | equal digest inputs iff the same winners |
| `Rosters.SaveLoadRoundTrip` | src/membership.rs:213-259 | a saved roster loads back unchanged under the same key |
| `Memberships.DiskCoversLive` | src/membership.rs:445-466 | over every run, with saves failing at any stage, disk is at or above the live roster, which only climbs |
| `Memberships.NothingFromNowhere` | src/membership.rs:445-466 | every live entry was there at the start or was submitted with a good signature |
| `Memberships.RemovedStaysOut` | src/membership.rs:401-466 | a node removed at an epoch is effective again only through a verified Add of a larger epoch |
| `Memberships.Membership.constructor` | src/membership.rs:378-396 | loads the verified roster and derives the views |
| `Memberships.Membership.LoadRoster` | src/membership.rs:213-234 | the live roster is what the file holds, re-verified under the key |
| `Memberships.Membership.Recompute` | src/membership.rs:401-432 | dial targets are the effective peers and the allowlist is exactly their fingerprints, each traced to an Add or an unsigned seed |
| `Memberships.EffectivePeers` | src/membership.rs:402-428 | seeds first, Adds override, Removes evict, our own entry skipped |
| `Memberships.ViewsMean` | src/membership.rs:401-432 | every Add but our own is dialled at its address and fingerprint and allowed; every allowed fingerprint is such an Add's or an unsigned seed's; a removed node is in neither |
| `Memberships.Membership.Persist` | src/membership.rs:239-259 | the rename decides what a restart loads |
| `Memberships.Membership.Commit` | src/membership.rs:454-464 | live state changes only after the save succeeded |
| `Memberships.Membership.MergeSigned` | src/membership.rs:445-466 | one step of the run model; a failed save leaves roster, views and counter untouched |
| `Memberships.Membership.ApplyReload` | src/membership.rs:471-480 | re-verifies from disk under the new key and rebuilds the views |
| `MembershipRaces.SerialRunsFit` | src/membership.rs:445-480 | over every run of stages, saves, commits and reloads in which no reload interrupts a merge, every live entry was verified under the key configured |
| `MembershipRaces.ReloadDuringMerge` | src/membership.rs:445-480 | with a reload inside a merge that holds iff the new key accepts the entry and all the merge kept |
| `MembershipRaces.RotationLeavesOldEntry` | src/membership.rs:471-480 | a key rotation that leaves an entry of the old key live |
| `Memberships.Membership.MergeBatch` | src/gossip.rs:59-67 | merges every received entry whose save succeeds, one by one, and counts those that won |
| `Memberships.DigestsAgree` | src/membership.rs:200-207 | equal digests iff the same winners |
| `Memberships.MergeSnapshotIsJoin` | src/gossip.rs:86-98 | absorbing a snapshot gives the join of the two rosters |
| `Memberships.JoinIsUnique` | src/gossip.rs:15-18 | there is one join |
| `Memberships.Exchange` | src/gossip.rs:71-133 | whatever the keys and failing saves, neither side loses or invents an entry; with one key and no failure both end at the join of their rosters with equal digests |
| `TokenBuckets.TokenBucket.constructor` | src/qos.rs:77-85 | a bucket starts empty |
| `TokenBuckets.TokenBucket.RefillNow` | src/qos.rs:101-111 | credit for the time passed, at most one second's worth; unlimited is zero |
| `TokenBuckets.TokenBucket.ChangeRate` | src/qos.rs:87-95 | refills at the old rate, then switches |
| `TokenBuckets.TokenBucket.Acquire` | src/qos.rs:115-129 | debits at once and waits out the debt |
| `TokenBuckets.RateIsBounded` | src/qos.rs:77-129 | bytes debited from s on and returned by t are at most cap·(t−s)+cap, however acquires overlap and rates change below the cap |
| `TokenBuckets.RateFromCreation` | src/qos.rs:77-129 | from creation on, at most cap·(t−t0) |
| `TokenBuckets.BoundIsTight` | src/qos.rs:101-129 | a run that meets the bound exactly |
| `TokenBuckets.TokensAreConserved` | src/qos.rs:87-129 | over every run balance, debits and clamped credit add up to what was earned: no caller waits for more than its debt |
| `TokenBuckets.UnlimitedForgives` | src/qos.rs:87-129 | retuning to unlimited and back leaves neither debt nor credit, whatever was taken meanwhile |
| `Chunks.Cas.PutVerified` | src/chunk.rs:109-139 | verified before writing; an existing chunk is left as it is |
| `Chunks.Cas.Read` | src/chunk.rs:149-165 | re-verified; a corrupt chunk is dropped |
| `Chunks.ChunkFileIntoCas` | src/chunk.rs:234-264 | the manifest of the pieces and the store with every absent piece added |
| `Chunks.ManifestMeans` | src/chunk.rs:234-264 | the manifest names the whole and every piece in order; lengths are exact below four gigabytes |
| `Chunks.PutIsGood` | src/chunk.rs:109-165 | a stored piece reads back iff no corrupt chunk already had its name |
| `Chunks.OutFile.WriteAll` | src/chunk.rs:299-299 | exactly the bytes at the position change; a gap reads as zeros |
| `Chunks.Emit` | src/chunk.rs:294-301 | a zero chunk is skipped over, any other written at the offset |
| `Chunks.OverlayIsData` | src/chunk.rs:289-307 | the file is the data iff no hole uncovers old bytes, trailing holes included |
| `Chunks.AssembleFromCas` | src/chunk.rs:271-309 | succeeds iff every chunk is good, with their bytes and hash; else stops at the first bad one and drops it if corrupt |
| `Chunks.ChunkedIsGood` | src/chunk.rs:234-309 | after chunking, the manifest assembles iff the store held no corrupt chunk of these names |
| `Chunks.RoundTrip` | src/chunk.rs:234-309 | for every split of every byte string: the original bytes and their hash, iff the store was clean; a failure heals one chunk |
| `Chunks.RetryUntilAssembled` | src/chunk.rs:142-148 | retrying always ends with the original bytes |

## Left out

- NetRuns.Converges: renames move no conflict copy and only between paths whose lineages agree; without that it is false of the code (`RenameLineage`). Rows bootstrapped without ops are not in these runs, because there a path's vector does not determine its op history; the store laws, stale-decision safety, the handoff and disk-equals-index do cover them.
- Resolutions that exceed the copy depth limit are the `None` plan. `NetRuns.Converges` is stated for runs without one; `NoLoss.NoSilentLoss` proves that none occurs when users leave copy names alone.
- PlanOrder.PlanIsOrderFree: assumes that equal vectors mean equal versions and that losers with equal keys have equal size and mode, as the source relies on; the first of two tied losers gives the copy its mode.
- NetRuns.Converges: one receive is one step, as in src/replica.rs; with another command between resolving and recording an op, as src/net.rs allows, only the store laws and `HandoffLoops` apply.
- Replicas.Replica.Receive: the repair after a downgraded apply is not modelled, because nothing else touches the store between decision and commit in src/replica.rs; `StoreLaws.StaleApplyIsSafe` covers the commit when something does.
- Handoff.HandoffIsSafe: both ends and the wire are one value with one step per frame; tasks, streams and their scheduling are the order of steps. Other commands of either store are free except those that would act for this link.
- HandoffLoops.ProcessRemoteOp: fetching, staging and repairing files on disk are outcomes given as arguments.
- MerkleTrees.Build: paths are component lists, proved to correspond to their text; no path is a directory prefix of another.
- MerkleConcrete.RealPruneRule: takes as given that no leaf of one index hashes like a directory of the other; that their strings never coincide is not proved.
- MerkleEffects.Session: the leaves found are ingested after the descent instead of during it; the descent reads only the two snapshots. Skipped and failed leaves of a real session are not modelled here, but in `Handoff`.
- MerkleEffects.OppositePullsEqualize: for replicas without concurrent paths and with equal rows at equal vectors.
- TokenBuckets.RateIsBounded: balances are reals, not 64-bit floats, and the rate stays above zero; the limiter that combines buckets, its lanes and schedules are not modelled.
- Memberships.Membership.ApplyReload: one step; a failing load and a changed roster path are not modelled, and a reload during a merge is the subject of `MembershipRaces`.
- Chunks.ChunkFileIntoCas: cut points are arbitrary pieces and I/O errors other than missing and corrupt chunks are not modelled.
- Counters, epochs and sequence numbers are unbounded; 64-bit overflow is not modelled.
- Stores.Store.AppendLocal: the manifest stored with a local append and its mismatch error are not modelled, because no other modelled command reads manifests.
- Uuid migration, the SQLite schema, serialization other than the hashed vector, and fsync.
- Quarantine, retries and backoff, pause gates, join lifecycle, peer registry, suppression, and the fetching and staging of content.
- TLS, QUIC, certificates and signature arithmetic; the watcher, scanner, metadata system calls, control socket, health, statistics, configuration and command line.

# The Raft core of mimori, modelled and verified in Dafny

mimori is a replicated key-value store. Its consensus layer, `internal/raft`, implements the algorithm of
"In Search of an Understandable Consensus Algorithm (Extended Version)" by Ongaro and Ousterhout. This project
models that layer, restart and snapshots included, together with the loop in `cmd/mimorid/main.go` that
applies committed commands to the store, and proves what the layer is for: no two nodes ever apply
different commands at one index, across lost, delayed and duplicated messages, crashes and log compaction.

`dafny verify dfyconfig.toml` checks everything.

## How it is built

| layer | modules |
|---|---|
| the node, updated in place, handler by handler | `Raft` (classes `MetaStore` and `Raft`), `Restarting.KVStore`, `Batching.SendBatches` |
| the node as a value, one function per handler | `Types`, `Server` |
| the cluster: nodes, calls in flight, one event per critical section, and the history of a run | `Cluster` |
| the paper's protocol on uncompacted logs: votes, logs of past leaders, acknowledgements | `Quorums`, `Election`, `Protocol`, `ProtocolSteps` |
| the cluster refines the protocol, event by event | `Membership`, `Votes`, `Offices`, `Compaction`, `Logs`, `Simulation`, `Advances`, `Safety` |
| guarantees for every run | `Theorems`; what the stores hold, `Replicas`; each event as a step of one node, `Projection`; runs that break the guarantees, `Scenarios` |
| one node or one pair of nodes | `Handlers`, `Merging`, `Batching`, `CatchUp`, `Counting`, `Invisible`, `NodeRuns`, `Histories`, `Restarting`, `Delivery` |

Each method of class `Raft` is proved to turn `State()` into what the function of `Server` gives, so the theorems about
those functions are about the methods. A handler, with the disk writes it makes, is one step. Messages are never
removed from the network, so any of them may be lost, delayed, reordered or delivered again; a vote call
returns at most once. `TimeoutNow` is two events in the cluster, the term it carries and the election it
forces. Every node is configured with every other node, once. Inductions are written out: no proof uses
Dafny's automatic induction.

## What the safety theorems assume

The code departs from Figure 2 of the paper in several places. `Cluster.Assumed` names what a run must
satisfy for the theorems; nothing in the handlers is repaired. Election safety needs only `FreshVote` and
`FixedMembership`, and one vote per term only `FixedMembership`.

| assumption | the code, in `internal/raft` | what happens without it |
|---|---|---|
| `FreshVote`: a granted vote is counted only in the term it was asked for | rpc_client.go:54, raft.go:464-487 | `Scenarios.StaleVoteElectsTwo`: two leaders in one term |
| `FreshAck`: a success is recorded only for a request of the leader's current term | rpc_client.go:155-206 | `Scenarios.StaleAckLosesCommit`: a later leader lacks a committed entry |
| `TightClamp`: once the request is merged, the clamp to the own last index is no looser than the one to the last new entry | rpc.go:167-175 | `Batching.ClampIff`: exactly then the clamp is the paper's; `OneBatchIsTight`: it always is with at most 100 entries pending |
| `SaneSnapshot`: a snapshot is not below the base, and if it is beyond the commit index the local log ends by it or matches it | rpc.go:200-237 | `NodeRuns.InstallShapeIff`: below the base even the log's shape is lost. That an install may move the commit and applied indices back is harmless to these theorems and not assumed away |
| a request starts right after its previous index | rpc_client.go:244-255 | `Batching.GaplessIff` says when a batch is skipped, `Merging.MergeShapeIff` what the gap does |
| `FixedMembership`: no configuration change is proposed | raft.go:890-944 | `Counting.TwoChangesMayMiss`: disjoint quorums after two changes |
| `DurableAcks`: a term in which the node acknowledged entries is on its disk when it crashes | raft.go:468-472 | `Scenarios.LostTermUndoesApplied`: an applied entry is replaced |
| `BuiltByLeader`: a request is built by the leader of the term it carries | rpc_client.go:59-65, 337-365 | `Scenarios.LateHeartbeatUndoesApplied`: an applied entry is replaced |
| a snapshot and the log cut at it reach the disk together (built into `Server.Compact`) | raft.go:291-315 | `NodeRuns.TornRestartIff`: the restarted log has the wrong shape |

`DurableAcks` fails because `handleVoteResponse` adopts a higher term without saving it, and `BuiltByLeader` because
`sendHeartbeats` and `sendSnapshotToFollower` read the term without looking at the role. `Scenarios.AssumedRunsApply` is a run
with elections, a deposed leader, a commit and an application that satisfies every assumption.

Where comments and code disagree the code is modelled: `replayConfigChanges` is described as replaying committed
changes but replays every retained entry; snapshot creation is described as leader-only, but its function does not
check the role.

## Model

| member | source | states |
|---|---|---|
| Theorems.OneVotePerTerm | internal/raft/rpc.go:35-77 | in every run with fixed membership a node grants at most one candidate per term, whatever crashes and however replies are counted, although one term bump is never saved |
| Theorems.ElectionSafety | internal/raft/raft.go:439-497 | with fresh votes, no two different nodes ever became leader in the same term, across crashes |
| Theorems.LogMatching | internal/raft/rpc.go:118-157 | in every reachable state, two logs with the same term at an index agree on every entry both still hold up to it, through proposals, truncation, compaction and snapshot install |
| Theorems.LeaderCompleteness | internal/raft/raft.go:609-635 | an entry committed by counting in term t is in the log, or below the base, of every leader of term t or later |
| Theorems.StateMachineSafety | internal/raft/raft.go:527-571 | no two nodes ever applied different entries at one index, over the whole history of a run |
| Theorems.ProposalApplied | internal/raft/raft.go:579-603 | the entry applied, by any node and at any later time, at the index a proposal returned is the proposed one if and only if it is of the term it was proposed in |
| Theorems.AppliedIsKept | internal/raft/rpc.go:132-157 | an entry a node applied is never truncated: the node holds it, or a snapshot covering it, in every later state, restarts included |
| Replicas.StoreIsFold | cmd/mimorid/main.go:44-72 | across crashes that lose what is in flight and make the node apply again, a store that has consumed through n, at or beyond everything it ever consumed, is the fold of the entries its node applied at 1..n, each once and in order, unless the applied index once jumped ahead of what was handed out |
| Replicas.ReplicasAgree | cmd/mimorid/main.go:44-72 | two such stores that have consumed through the same index are equal |
| Replicas.UnsnappedReplicasAgree | internal/raft/raft.go:266-270 | without a snapshotter, as in the daemon, no applied index ever jumps, so any two stores at their fronts that have consumed through the same index are equal |
| Replicas.MoveOk | internal/raft/raft.go:527-571 | every event of the cluster, every send to the channel and every consumption keeps, for each node, the store the fold of what it was fed and everything handed out recorded as applied by that node |
| Projection.EventsAreSafeSteps | internal/raft/rpc.go:132-157 | every event of an assumed run changes at most one node, by one step, and an accepted request is contiguous and conflicts only above what is applied |
| Projection.RequestsAreSafe | internal/raft/rpc.go:132-157 | any request in flight that is not stale for a node conflicts with its log only above its commit index |
| Theorems.SoundMatchIndex | internal/raft/raft.go:617-634 | whatever index a leader believes a peer holds was committed before, or the peer acknowledged the leader that far in this term, although match indices start at the base and are raised after failed snapshot calls |
| Theorems.NothingOutOfRange | internal/raft/rpc_client.go:73-96 | in an assumed run a leader's next index for a peer never lies beyond the end of its log, so that collecting entries never panics, and a request that needs no snapshot starts above the base |
| Theorems.LogShape | internal/raft/raft.go:219-246 | in every reachable state of the cluster position k of a log holds index base + k |
| Theorems.InitRefines | internal/raft/raft.go:109-197 | first boot of every node on an empty disk is the protocol's initial state |
| Theorems.AssumedRunRefines | internal/raft/raft.go:109-197 | every state of an assumed run stands for a state of the paper's protocol that satisfies its invariant |
| Safety.NextRefines | internal/raft/rpc.go:80-179 | every assumed event, from any sound state, leads to a state that stands for a sound protocol state in which past leaders' logs, acknowledgements and wins are kept |
| Membership.NextStatic | internal/raft/raft.go:745-804 | without configuration changes, peer lists and identities stay as configured through every event, restarts included |
| Votes.NextVotes | internal/raft/rpc.go:35-77 | every event is a step of the vote protocol: ballots in memory and on disk, and every grant, correspond |
| Offices.NextOffices | internal/raft/raft.go:464-497 | every event with fresh votes is a step of the election protocol: the vote counter is the number of distinct voters of the term, and a leader has a majority |
| Election.MajorityIsFirst | internal/raft/raft.go:479-485 | a candidate with a majority is the first of its term |
| Protocol.LogMatching | internal/raft/rpc.go:118-130 | logs built from leaders' logs with equal terms at an index agree up to it |
| Protocol.LeaderCompleteness | internal/raft/rpc.go:49-73 | an entry chosen in term t is in the log every later leader starts from, by induction on terms from quorum overlap and the up-to-date check |
| Protocol.CommitsAgree | internal/raft/raft.go:609-635 | any two nodes agree on every index both know to be committed |
| ProtocolSteps.GrantKeeps | internal/raft/rpc.go:66-73 | granting a vote keeps the protocol invariant, including what the voter promises about its acknowledged entries |
| ProtocolSteps.TakeOfficeKeeps | internal/raft/raft.go:489-497 | taking office with a majority keeps it |
| ProtocolSteps.ProposeKeeps | internal/raft/raft.go:588-594 | appending a proposal keeps it |
| ProtocolSteps.AcceptKeeps | internal/raft/rpc.go:132-175 | accepting a leader's log, by append or by snapshot, keeps it: nothing acknowledged, voted on or committed is undone |
| ProtocolSteps.AdvanceCommitKeeps | internal/raft/raft.go:617-634 | committing an entry of the own term acknowledged by a majority keeps it |
| ProtocolSteps.RestartKeeps | internal/raft/raft.go:109-197 | losing what is not on disk keeps it, if the last acknowledged term is on disk |
| Compaction.MergeCompacts | internal/raft/rpc.go:132-157 | the append loop on a compacted log is acceptance of the leader's log on the full one |
| Compaction.InstallCompacts | internal/raft/rpc.go:216-228 | installing a snapshot on a log that ends by it or matches it is acceptance of the leader's log through its index |
| Compaction.CutCompacts | internal/raft/raft.go:300-314 | compaction at an index leaves the same full log |
| Scenarios.StaleVoteElectsTwo | internal/raft/rpc_client.go:43-54 | a run that satisfies everything but vote freshness and has two leaders in term 2 |
| Scenarios.StaleAckLosesCommit | internal/raft/rpc_client.go:155-206 | a run that satisfies everything but freshness of acknowledgements, in which the leader of term 4 lacks an entry committed in term 3 |
| Scenarios.LostTermUndoesApplied | internal/raft/raft.go:468-472 | a run that satisfies everything but durability of acknowledged terms, in which a node loses an entry it applied |
| Scenarios.LateHeartbeatUndoesApplied | internal/raft/rpc_client.go:59-111 | a run that satisfies everything except that a deposed leader builds a request, without a gap, in which a node loses an entry it applied |
| Scenarios.AssumedRunsApply | internal/raft/raft.go:527-571 | a run that satisfies every assumption and applies an entry after a change of leader |
| Quorums.Overlap | internal/raft/raft.go:450-457 | two majorities of one membership share a node |
| Quorums.OverlapAcrossOneChange | internal/raft/raft.go:450-457 | so do majorities of memberships that differ by one node |
| Counting.QuorumsMeet | internal/raft/raft.go:479-485 | an election quorum of one peer list and a commit quorum of another share a node when the lists are at most one step apart |
| Counting.ChangeIsOneStep | internal/raft/raft.go:770-800 | applying a change of another node keeps the peer list free of repeats and of the node itself, and moves the membership by at most that node |
| Counting.QuorumsMeetAcrossChange | internal/raft/raft.go:770-800 | quorums before and after one applied change share a node |
| Counting.TwoChangesMayMiss | internal/raft/raft.go:770-800 | quorums two changes apart may be disjoint |
| Counting.KthLargest | internal/raft/raft.go:623-632 | at least k values reach n exactly when the k-th largest of them does |
| Counting.CommitIsOrderStatistic | internal/raft/raft.go:609-635 | with ascending log terms, the downward scan commits the majority-th largest of the last index and the match indices if it is new and of the current term, and otherwise nothing |
| Merging.MergeExtends | internal/raft/rpc.go:132-157 | a request without a conflict leaves the longer of the two logs |
| Merging.MergeCuts | internal/raft/rpc.go:142-156 | a request with a conflict leaves the log cut at the first one, followed by the rest of the request |
| Merging.MergeHolds | internal/raft/rpc.go:132-157 | after the merge the log has its shape, holds every entry of the request from the base on, and keeps what lies before the request |
| Merging.MergeKeepsIff | internal/raft/rpc.go:142-149 | the log is unchanged if and only if it held the request already |
| Merging.MergeAgain | internal/raft/rpc.go:142-149 | a repeated request, or any stale part of it, changes nothing |
| Merging.MergeInTwo | internal/raft/rpc.go:132-157 | two requests in a row are one longer request |
| Merging.MergeKeepsThrough | internal/raft/rpc.go:142-149 | without a conflict at or below an index, everything through it is kept |
| Merging.MergeShapeIff | internal/raft/rpc.go:151-156 | the log keeps its shape if and only if there is no gap before the request |
| Batching.SendBatches | internal/raft/rpc_client.go:214-279 | the requests sent are those of the batching function, heartbeat and skipped batches included |
| Batching.GaplessIff | internal/raft/rpc_client.go:244-273 | no request has a gap if and only if no batch is sent after a skipped one |
| Batching.BatchesEqualOne | internal/raft/rpc_client.go:232-278 | handled in order, the batches leave the follower in the state one unbatched request does, log, commit index and disk |
| Batching.AllAcceptedIff | internal/raft/rpc.go:119-130 | every batch of an acceptable request is accepted if and only if the first one reaches the follower's base or is the only one |
| Batching.SecondBatchRejected | internal/raft/rpc.go:119-130 | with the check skipped at index 0, a follower compacted beyond the first batch rejects the second although it takes the unbatched request |
| Batching.ClampIff | internal/raft/rpc.go:167-175 | the follower's commit index is the paper's if and only if the clamp is tight |
| Batching.OneBatchIsTight | internal/raft/rpc_client.go:93-111 | with at most 100 entries pending the clamp is tight for every follower |
| Batching.BatchesAreSends | internal/raft/rpc_client.go:232-278 | every batch, whatever was skipped, is a send step of the cluster |
| CatchUp.RoundProgress | internal/raft/rpc_client.go:168-203 | a request and its reply end the catch-up or bring it closer in the order of back-off distance, then entries left |
| CatchUp.CatchesUp | internal/raft/rpc_client.go:87-111 | from a stable leader whose back-off can meet the follower's log, a bounded number of rounds ends with the follower holding the leader's log and the leader knowing it |
| CatchUp.CatchesUpUnchecked | internal/raft/rpc.go:119-130 | so it does from a leader that can back off to index 0, which is never checked, if its first batch reaches the follower's base |
| CatchUp.NeverCatchesUp | internal/raft/rpc_client.go:170-176 | otherwise no round ever changes the follower's log, and the next index never falls to the snapshot, so that none is ever sent |
| CatchUp.CatchesUpIff | internal/raft/rpc_client.go:168-203 | a stable leader catches a follower up if and only if back-off can meet its log or can reach index 0 with a first batch that reaches the follower's base |
| Invisible.CompactionIsInvisible | internal/raft/raft.go:266-318 | over any run of elections, votes, appends, replies, proposals, commits, applications and snapshots, leading and following, a compacting node answers, commits and applies as one that keeps its full log, provided requests of a current leader start at or above the base and, if accepted, are contiguous and contradict nothing committed |
| Invisible.LateAnswerShows | internal/raft/rpc_client.go:188-203 | a late success to a heartbeat from below the base must be left out: after one, the two nodes commit differently |
| Invisible.VoteIsSame | internal/raft/rpc.go:49-64 | the vote and the node after it are those of the full log |
| Invisible.OfficeIsSame | internal/raft/raft.go:489-497 | a new leader believes its peers to hold its base, which no commit tells from the 0 of a full log |
| Invisible.AppendIsSame | internal/raft/rpc.go:118-175 | acceptance or refusal, merged log and commit index are those of the full log, for any previous index at or above the base |
| Invisible.ReplyIsSame | internal/raft/rpc_client.go:155-206 | step-down, match indices above the commit index and the commit after a reply are those of the full log |
| Invisible.CountIsSame | internal/raft/raft.go:609-635 | the commit advance is that of the full log |
| Invisible.ApplyIsSame | internal/raft/raft.go:535-549 | the entry applied is that of the full log |
| Invisible.SnapIsSame | internal/raft/raft.go:266-318 | a snapshot changes nothing but what is stored |
| Handlers.StrangersRefused | internal/raft/rpc.go:24-29 | a vote or append request from a node that is neither the node itself nor one of its peers is refused and changes nothing, its term included |
| Handlers.VoteIff | internal/raft/rpc.go:11-78 | a vote is granted if and only if the candidate is a member, its term is current, its last entry is not behind and the vote of that term is free or already its own; the grant is on disk |
| Handlers.AppendIff | internal/raft/rpc.go:80-179 | a request is accepted if and only if its sender is a member of a current term and the log holds the previous entry in that term, or the request starts at index 0 |
| Handlers.ElectionIs | internal/raft/raft.go:439-462 | a removed node does not campaign; any other campaigns in the next term with its own vote saved, and leads at once exactly if it has no peers |
| Handlers.TimeoutNowIs | internal/raft/rpc.go:295-333 | the known leader of a current term starts an election in the term after the one it names, and any other call changes nothing |
| Handlers.TimeoutNowIsTwoEvents | internal/raft/rpc.go:312-332 | an accepted call does to the node what the two events that stand for it in the cluster do, and they change no other node |
| Handlers.VoteReplyIs | internal/raft/raft.go:464-497 | a candidate takes office exactly with the vote that makes a majority of all nodes |
| Handlers.ProposeIs | internal/raft/raft.go:579-603 | only a leader accepts a command, and the log, in memory and on disk, then ends with it at the index returned |
| Handlers.AddedPeerCountsForNothing | internal/raft/raft.go:770-782 | an added peer counts towards no index until it answers, and makes no index committable |
| Handlers.RemovedPeerNoLongerCounts | internal/raft/raft.go:784-800 | a removed peer counts no more, and all others as before |
| Handlers.OwnChange | internal/raft/raft.go:753-768 | a node that removes itself follows nobody, has no peers, says so on disk and no longer campaigns |
| Handlers.SnapshotCarries | internal/raft/raft.go:266-318 | a snapshot is taken exactly if the log holds the last applied entry, and carries the data given |
| Histories.RemovedNeverLeads | internal/raft/raft.go:439-442 | over every run of a node, whatever it is sent and however often it restarts, a node that applied its own removal is a follower and does not campaign |
| Histories.MatchMoves | internal/raft/rpc_client.go:192-203 | the exact effect of every step on a match index: what a success, a snapshot call or taking office books, what a change or a restart forgets |
| Histories.MatchIsBooked | internal/raft/raft.go:489-497 | over every run, a match index is 0 or was booked by a success, a snapshot call or taking office, and nothing wrote it since |
| Histories.NextMoves | internal/raft/rpc_client.go:168-203 | the exact effect of every step on a next index, back-off and restart included |
| Histories.SnapshotIsLast | internal/raft/raft.go:137-149 | over every run, the snapshot in memory and on disk is the last one taken or installed, data included |
| Histories.BootStandsAtSnapshot | internal/raft/raft.go:128-150 | whatever the log file says, a restarted node with a snapshot has committed and applied exactly that far, passes a check at its index in its term, and keeps every entry of the file but an old boundary |
| Histories.LeaderIsLast | internal/raft/rpc.go:106-116 | over every run, the known leader is the last sender of a current request, the node office was handed to, or the node itself, and nobody after a restart or its own removal |
| NodeRuns.RunIsTidy | internal/raft/raft.go:219-246 | over every run of one node, restarts included, in which accepted requests are contiguous and no snapshot below the base is installed, the log in memory and on disk keeps its shape |
| NodeRuns.EntryAtIsExact | internal/raft/raft.go:234-246 | in each of those states lookup by absolute index finds exactly the entry of that index, from the base through the last index |
| NodeRuns.InstallShapeIff | internal/raft/rpc.go:216-228 | a snapshot keeps the shape if and only if it is at most one below the base |
| NodeRuns.TornRestartIff | internal/raft/raft.go:137-149 | a restart with an older log beside the snapshot keeps the shape if and only if the two still meet |
| Restarting.Reapplied | internal/raft/raft.go:186-190 | entries s+1..n on top of entries 1..m, with s at most m at most n, leave every key as entries 1..n do once |
| Restarting.Rewound | internal/raft/raft.go:186-190 | indices visited in any order that starts at 1 and never skips ahead, whatever the number of restarts, leave every key as visiting 1..n once, n being the last visited, if no entry beyond n touches the key |
| Restarting.StoreConverges | cmd/mimorid/main.go:44-72 | a store that holds 1..m and applies s+1..n again equals one that applied 1..n once |
| Restarting.KVStore.ApplyLoop | cmd/mimorid/main.go:44-72 | draining the channel leaves the store of applying its commands in order; other commands change nothing |
| Restarting.PeersConverge | internal/raft/raft.go:745-804 | a peer list saved after 1..m, with s+1..n applied again, names the peers of 1..n, self-removal included |
| Restarting.PeersStayClean | internal/raft/raft.go:770-792 | the peer list never has repeats and never names the node |
| Restarting.RestartPeers | internal/raft/raft.go:714-741 | a restart applies exactly the retained commands to the saved list, or to the initial one if the saved list is empty |
| Restarting.RestartConverges | internal/raft/raft.go:113-117 | after a restart the node lists the peers it would list had it never stopped |
| Restarting.RemovalRememberedIff | internal/raft/raft.go:753-767 | the node's own removal is remembered if and only if a removal entry is retained or none was compacted away |
| Restarting.ForgetsRemoval | internal/raft/raft.go:113-117 | a compacted removal is forgotten: the node is back with its initial peers |
| Delivery.DeliveredInOrder | internal/raft/raft.go:535-566 | since the last start or install, what the store consumed followed by what is in flight is the log through lastApplied, each index once and in order |
| Delivery.WaitsInOrder | internal/raft/raft.go:641-654 | at the moment a wait is released lastApplied has reached its index, and a pending wait is for a later index than lastApplied ever had, the one being handed out, or one an install moved over |
| Delivery.SettleReleases | internal/raft/raft.go:556-560 | back from the channel, the applier releases the call that waits on the applied index, and no other |
| Delivery.WaitKeptIff | internal/raft/raft.go:641-654 | until the node restarts, a call is released or pending if and only if no later call on its index took its place while it waited |
| Delivery.ReleasedIsHandedOut | internal/raft/raft.go:553-560 | when a call is released an entry of its index has been handed out, and is the log's, unless an install put the applied index there |
| Delivery.ProposalIsLater | internal/raft/raft.go:588-602 | the index a proposal returns lies beyond everything applied and holds the command, so that a wait on it is not released at once |
| Delivery.ProposalAcked | internal/api/server.go:77-84 | with no restart or install in between, a wait on the index a proposal returned is released only after an entry of that index was handed out, later than the proposal |
| Raft.MetaStore.Save | internal/raft/meta.go:49-75 | the durable record is the given term, vote and peers |
| Raft.MetaStore.Load | internal/raft/meta.go:25-46 | returns the record last saved, or that of a first boot |
| Raft.Raft.constructor | internal/raft/raft.go:109-197 | the node is what a boot from the files on disk gives, replayed configuration included |
| Raft.Raft.AlignLog | internal/raft/raft.go:128-150 | the loaded log and its base, aligned with the snapshot |
| Raft.Raft.ReplayConfigChanges | internal/raft/raft.go:714-741 | every retained configuration entry is applied once, in order |
| Raft.Raft.SetProgress | internal/raft/raft.go:493-497 | every peer's indices are set, and no other |
| Raft.Raft.LastLogIndex | internal/raft/raft.go:219-224 | the index of the last entry, or the base of an empty log |
| Raft.Raft.EntryAt | internal/raft/raft.go:234-246 | the entry at an absolute index, if the log holds it |
| Raft.Raft.IsKnownNode | internal/raft/raft.go:383-396 | true exactly for the node itself and its peers, never for the empty name, said of the fields |
| Raft.Raft.StepUp | internal/raft/rpc.go:41-47 | a higher term is adopted as follower without a vote, and saved |
| Raft.Raft.StartElection | internal/raft/raft.go:439-462 | a node that was not removed campaigns in the next term with its own vote saved, and leads at once if alone; a removed one is unchanged |
| Raft.Raft.BecomeLeader | internal/raft/raft.go:489-497 | the node leads, sends from the end of its log and believes its peers to hold its base |
| Raft.Raft.RequestVote | internal/raft/rpc.go:11-78 | new state and reply of a vote request, in all its refusals |
| Raft.Raft.HandleVoteResponse | internal/raft/raft.go:464-487 | new state after a vote reply, with the term bump that is not saved |
| Raft.Raft.TimeoutNow | internal/raft/rpc.go:295-333 | only the known leader of a current term can force an election, and it does: the node campaigns in the term after the one named, unless removed |
| Raft.Raft.HoldsPrevious | internal/raft/rpc.go:118-130 | the consistency check: index 0, or an entry of the given term at that index, which is not below the base |
| Raft.Raft.AppendEntries | internal/raft/rpc.go:80-179 | new state and reply of an append request, in all its refusals |
| Raft.Raft.MergeEntries | internal/raft/rpc.go:132-157 | the loop computes the merge |
| Raft.Raft.LearnCommit | internal/raft/rpc.go:159-175 | the log is saved and the commit index clamped to it |
| Raft.Raft.Propose | internal/raft/raft.go:579-603 | a leader appends and saves the command and returns the index its log now ends at; others refuse |
| Raft.Raft.CountHolders | internal/raft/raft.go:623-628 | the number of nodes believed to hold an index, self included |
| Raft.Raft.UpdateCommitIndex | internal/raft/raft.go:609-635 | the loop commits the largest committable index, if any |
| Raft.Raft.PendingFor | internal/raft/rpc_client.go:73-111 | whether the peer needs a snapshot, or its next index lies beyond the log and the call panics, and otherwise the request and exactly the entries pending for it |
| Raft.Raft.HandleAppendResponse | internal/raft/rpc_client.go:155-209 | new state after an append reply, and when it counts as success |
| Raft.Raft.CompactedLog | internal/raft/raft.go:300-311 | the loop keeps a boundary entry and the entries after it |
| Raft.Raft.CreateSnapshot | internal/raft/raft.go:266-318 | a snapshot at lastApplied, log and disk cut there; without a snapshotter, or if it or the save fails, nothing |
| Raft.Raft.InstallSnapshot | internal/raft/rpc.go:181-250 | new state after a snapshot install, and the data handed to the restorer; stale terms refused |
| Raft.Raft.ApplyConfigChange | internal/raft/raft.go:745-804 | new peers, indices and record after a change of the node itself or of another; an added peer starts with match index 0, and a node that removes itself follows |
| Raft.Raft.RemovePeer | internal/raft/raft.go:784-794 | the peer is gone from the list and from both index maps |
| Raft.Raft.ApplyNext | internal/raft/raft.go:535-553 | the next committed entry, if the log holds it, is applied and handed out |

## Left out

- gRPC, HTTP, dashboard, command line and Go client, the connection pool, metrics, logging and health pings: plumbing with only easy properties.
- Encodings and files (JSON, Pebble, protobuf): commands are a datatype, the store is a map, every save is an atomic overwrite that succeeds, and terms and indices are unbounded.
- Time: election timeouts, heartbeat tickers and sleeps are events that may happen at any moment; read leases (`HasReadLease`) are not modelled.
- Linearizable reads, and what an acknowledged client may read back: a wait is by index, not by entry, and is released once an entry of that index is handed out, not once it is stored. `Delivery.ProposalAcked` and `Theorems.ProposalApplied` say what an acknowledgement is worth.
- Safety while membership changes: the code does not limit itself to one pending change; what is proved about changes is quorum overlap across one step and convergence of the peer list.
- `proposeConfigChange`, `AddNodeInternal`, `RemoveNodeInternal` and the checks of `TransferLeadershipInternal`: a configuration change is an ordinary proposal in the model, and a transfer is the `TimeoutNow` call it makes.
- Snapshot contents: the data a snapshotter returns is carried along but not related to the store, and what a restorer does with it is not modelled. The daemon registers neither; `Replicas` makes no claim about a store after its node's applied index jumped ahead.
- Liveness beyond one stable leader and one follower.
- The applier goroutine, its channel and the waits are a state machine on values in `Delivery` and `Replicas`, not a class; only its step under the lock, `Raft.Raft.ApplyNext`, updates fields in place.
- Raft.Raft.AppendEntries: the election timestamp is not modelled, here and in every other handler that resets it.
- Raft.Raft.CreateSnapshot: the time stamp of a snapshot is not modelled, and the save of the cut log, whose error the code ignores, succeeds.
- Raft.Raft.InstallSnapshot: both saves, whose errors the code only logs, succeed.
- Invisible.CompactionIsInvisible: installs and restarts, where a compacted node does differ from one with its full log, are not among the operations.
- Theorems.StateMachineSafety: holds for runs with the assumptions listed above, not for every run of the code; `Scenarios` shows that the unassumed runs do break it or its companions.
- No run is given that breaks a theorem for lack of `TightClamp` or `SaneSnapshot` alone; what is proved about them is the exact condition on one call.

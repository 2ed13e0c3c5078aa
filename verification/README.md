# Orthrus, verified

A Dafny model of Orthrus, a multi-leader Byzantine fault tolerant ordering service, and proofs of what it is for: peers
agree on the log, nothing is lost or ordered twice on the way, and balances do not depend on the order in which the
partial logs of different leaders are applied. `dafny verify dfyconfig.toml` checks everything.

| files | what they model |
|---|---|
| `collections.dfy`, `arithmetic.dfy` | shared facts about sets, sequences and remainders |
| `quorums.dfy` | fault bound and quorums |
| `voting.dfy` | an abstract voting protocol for one slot: accepted proposals, votes, claims in view changes, conditions A and B |
| `pbft_peer.dfy` | the PBFT handlers of one peer as functions from state and message to state and messages |
| `pbft_safety.dfy`, `pbft_proof.dfy` | the system of peers, faulty peers and the network; its refinement to voting; agreement |
| `pbft_newview.dfy` | building and validating NEWVIEW messages |
| `pbft_prepared.dfy`, `pbft_equivocation.dfy` | when correct peers can prepare different digests |
| `pbft_instance.dfy` | the instance object and its loops, proved to do what the functions of `pbft_peer.dfy` say |
| `pbft_runs.dfy` | NEWVIEWs in runs; calls of the instance as steps of runs |
| `pbft_work.dfy`, `pbft_progress.dfy` | what decides a slot, exactly; runs in which all correct peers decide, at once and after a view change |
| `pbft_lostflag.dfy`, `pbft_flags.dfy` | when correct peers turn down a NEWVIEW of a correct leader |
| `ladon.dfy`, `ladon_lead.dfy` | delaying, gap-filling and releasing blocks; proposing by rank |
| `bucket.dfy`, `bucketgroup.dfy`, `admission.dfy` | request storage: linked lists, batch cutting, watermarks and index pruning |
| `log.dfy`, `backlog.dfy`, `checkpoint.dfy` | the log, message hand-over and checkpoints under all interleavings |
| `segments.dfy`, `bucketassignment.dfy`, `leaderpolicies.dfy` | the epoch manager |
| `ledger.dfy`, `ledger_steps.dfy` | account balances; instances that update them at the same time |

## How to read the main results

**Agreement.** `PbftSafety.Step` is one handler call of a correct peer, or any message by a faulty one. Messages are never
removed, so they may be delayed, repeated and reordered; timeouts may fire at any time; and whether the Ladon layer
releases a block with a commit quorum (`release`) is left open at every step. `PbftSafety.Project` maps the state of one
slot to the voting protocol. `PbftProof.StepKeeps` shows that every step keeps the invariant and maps to a voting step,
and `PbftProof.Agreement`, `PbftProof.CommittedCarried` and `PbftProof.AcceptedSafe` follow for all runs. Digests stand
for batches. The aborted flag is not part of the digest (orderer/pbftinstance.go:2433-2437), so agreement does not
cover it.

That there is something to agree on is shown by runs. `PbftProgress.CanDecideIff` gives, for every slot and digest, a run
in which all correct peers decide it in view 0, and `PbftProgress.DecideAfterViewChange` one in which they decide it after
a view change.

The assumptions are n = 3f+1, at most f faulty peers, senders that cannot be forged, and view-change messages inside a
NEWVIEW that were really sent if their sender is correct. `Quorums.QuorumsMeetIff` shows that n = 3f+1 is needed. Signing
and checking are stubs in the source (orderer/pbftorderer.go:250-258).

**Interleavings.** `Log`, `Backlog` and `Admission` are step systems whose steps are the sections a lock protects and the
accesses to concurrent maps between them. A run is any sequence of enabled steps. Beside them, classes model the same
operations as written, run by one thread. What is under way can always finish: `Log.CanFinish` and
`Backlog.CanHandOverAll` continue every run to a state in which all entries and messages have been delivered.

**Objects.** Code that updates objects is modelled by classes whose methods are tied to a function of the old state or to
a ghost sequence: `PbftInstance.Instance`, `Ladon.Announcer`, `Bucket.Bucket` (a heap-allocated doubly linked list),
`BucketGroup.BucketGroup`, `Admission.Buffer`, `Log.Log`, `Backlog.Backlog`, `Segments.Manager`,
`LeaderPolicies.Backoff`, `LeaderPolicies.Blacklist`, `Ledger.Ledger`, `Checkpoint.Checkpointer`.

## What the proofs found

- A PREPARE from the leader counts toward preparedness like any other (orderer/pbftinstance.go:2444-2473), although a
  correct leader sends none, so a certificate has only 2f senders and a faulty leader may be one of them. Correct peers can prepare different digests in view 0 exactly if its leader is faulty and there are at least
  f - 1 faulty peers (`PbftEquivocation.CanDifferIff`). Agreement still holds, because a decision needs 2f+1 COMMITs.
- A PREPARE is sent to others only, and the leader sends none, so a single node never decides anything
  (`PbftProgress.CanDecideIff`).
- A NEWVIEW is accepted from any sender, and with VIEWCHANGEs for later views (orderer/pbftinstance.go:2035-2068).
  Agreement does not need these checks.
- With more than 2f+1 VIEWCHANGEs, for every f, the batch chosen for a slot can depend on map iteration order
  (`PbftNewView.ChoicesUniqueIff`), and a validator can turn down what a leader built as soon as it could
  (`PbftNewView.NeverRejectedIff`). With exactly 2f+1 and all aborted flags neither can happen.
- While a new leader waits for a missing batch, a batch without the aborted flag may replace the empty batch of an
  abandoned slot (`PbftNewView.FetchReadyIff`). In runs this is the only reason why correct peers turn down a NEWVIEW
  that a correct leader built from 2f+1 VIEWCHANGEs (`PbftRuns.NewViewRejectedIff`, `PbftRuns.NewViewAcceptedIff`).
  There is a run in which it happens exactly if f >= 1, the segment has two slots, and some leader is correct
  (`PbftFlags.CanBeRejectedIff`).
- Proposals by rank use the number of nodes, while the numbers of a segment are as far apart as its epoch has leaders.
  `LadonLead.AlwaysMemberIff` says exactly when proposals stay inside the segment. Where all nodes lead, it is when the
  segment's first number and its ID agree modulo their number (`LadonLead.AllLeadIff`), which is so if the epoch length is
  a multiple of it (`LadonLead.IssuedSegmentsPlaced`). `LadonLead.IssuedPlacedIff` gives the condition on epoch lengths,
  leaders and nodes for all segments ever issued. One of four nodes banned is enough to break it
  (`LadonLead.OneOfFourBanned`).
- The bucket of a request depends on its sender field alone (request/request.go:315-318), so one client request sent
  with two sender fields is admitted to two buckets (`Admission.SplitAdmitsBoth`); with one sender field it is admitted
  once (`Admission.OnceOverall`).
- A message that arrives at the backlog is stashed even after it has been passed on (orderer/common.go:139-153). It is
  not passed on twice, because a segment subscribes once (`Backlog.HandedOverOnce`).
- Segments depend on the order of the leader list: two lists give every number the same leader only if they agree on all
  leaders that get a number (`Segments.SameLeadersIff`). The combined policy returns its leaders in map iteration order
  (manager/leaderpolicies.go:227-233), so peers that use it may disagree on segments. The bucket assignment does not have
  this problem (`BucketAssignment.OrderFree`).
- Segments are kept in a map by leader (manager/mirmanager.go:283-319), so a list that repeats a leader loses numbers
  (`Segments.NoneLostIff`). The policies return lists without repetitions.
- Balances are read and written without a lock (account/balance.go:135-144), while every instance announces on its own.
  The balances are right in every interleaving exactly if no known account is updated by one batch and changed by another
  (`LedgerSteps.ConfluentIff`). Exclusive access to single accounts is enough for order-independence
  (`LedgerSteps.ConcurrentConfluence`); whole batches need not be applied at once.
- The comment on the request constructor says that the signature has not been checked, but the flag is set to true
  (request/request.go:179). The model follows the code, so a request in a bucket is never replaced.

## Model

| member | source | states |
|---|---|---|
| `Quorums.WeakQuorumHasCorrect` | membership/membership.go:185-200 | f+1 peers always include a correct one |
| `Quorums.QuorumsShareCorrect` | membership/membership.go:185-200 | with n = 3f+1 any two quorums of 2f+1 peers share a correct peer |
| `Quorums.SplitExists` | membership/membership.go:185-200 | for every other n, two quorums that have only faulty peers in common |
| `Quorums.QuorumsMeetIff` | membership/membership.go:185-200 | the quorum size is sound if and only if n = 3f+1 |
| `Voting.ChoosableShrinks` | orderer/pbftinstance.go:2444-2512 | what can still be decided in a view only ever gets less |
| `Voting.CondBExcludes` | orderer/pbftinstance.go:2109-2134 | if condition B holds, nothing was or can be decided in an earlier view |
| `Voting.CondAExcludes` | orderer/pbftinstance.go:2135-2176 | if conditions A1 and A2 hold for an entry, no other digest was or can be decided in an earlier view |
| `Voting.JustifiedIsSafe` | orderer/pbftinstance.go:2099-2191 | whatever A1/A2/B justify is safe in the new view |
| `Voting.NextInv` | orderer/pbftinstance.go:538-939 | every vote step keeps: accepted proposals are safe, votes follow accepted proposals, claims are truthful |
| `Voting.ChosenAgree` | orderer/pbftinstance.go:2444-2512 | two digests with commit quorums for one slot, in any views, are equal |
| `PbftProof.StartInv` | orderer/pbftinstance.go:164-222 | the invariant holds of the initial system |
| `PbftProof.ProjectNext` | orderer/pbftinstance.go:538-939 | refinement: a peer that changes its ballot as a voter may, and sends messages that match, makes a step of the voting protocol |
| `PbftProof.ViewChangeTruthful` | orderer/pbftinstance.go:1388-1400 | the P and Q entries a correct peer reports are its highest prepared and preprepared views and digests |
| `PbftProof.AllowedJustified` | orderer/pbftinstance.go:2099-2191 | a choice the code allows is justified in the voting protocol |
| `PbftProof.ReproposeOk` | orderer/pbftinstance.go:1677-1719 | the batch the new leader selects for a slot is justified, and is the decided one if the leader has decided |
| `PbftProof.CheckpointIsInitial` | orderer/pbftinstance.go:1408-1415 | a genuine view-change set admits only the checkpoint -1 |
| `PbftProof.StepKeeps` | orderer/pbftinstance.go:538-2249 | every step of a correct or faulty peer keeps the invariant, is a voting step for every slot, and undoes no decision |
| `PbftProof.RunInv` | orderer/pbftinstance.go:538-2249 | the invariant holds in every state of every run |
| `PbftProof.ReachableRunnable` | orderer/pbftinstance.go:2559-2646 | in every run the handlers find the state of the current view, so no step gets stuck on missing state |
| `PbftProof.CommittedForever` | orderer/pbftinstance.go:2608-2622 | a decided slot stays decided, with its digest, for the rest of the run |
| `PbftProof.CommittedCarried` | orderer/pbftinstance.go:2608-2622 | a decided slot is decided with the same digest in every later view its peer enters |
| `PbftProof.Agreement` | orderer/pbftinstance.go:538-2249 | in no run do two correct peers decide different digests for one sequence number, at any times, in any views |
| `PbftProof.AcceptedSafe` | orderer/pbftinstance.go:2102-2249 | every proposal a correct peer works on is safe: no other digest was or can still be decided in an earlier view |
| `PbftNewView.ChoiceUnique` | orderer/pbftinstance.go:1611-1728 | with exactly 2f+1 VIEWCHANGEs at most one choice is allowed per slot, so map order does not matter |
| `PbftNewView.ChoiceNotUniqueBeyondQuorum` | orderer/pbftinstance.go:1611-1728 | for every f and every larger set of senders, VIEWCHANGEs that allow both B and any given A entry, and nothing as long as a given sender has not reported |
| `PbftNewView.ChoicesUniqueIff` | orderer/pbftinstance.go:1611-1728 | for every f and k >= 2f+1: all sets of k VIEWCHANGEs allow at most one choice per slot if and only if k = 2f+1 |
| `PbftNewView.BuildReady` | orderer/pbftinstance.go:1611-1737 | after building, every slot has a reproposal for its choice, with all aborted flags |
| `PbftNewView.FetchReadyIff` | orderer/pbftinstance.go:1822-1894 | a fetched batch keeps the choices, and keeps the flags if and only if it is not one that fits an abandoned slot and lacks the flag |
| `PbftNewView.ReadySendsBuilt` | orderer/pbftinstance.go:1917-1936 | the NEWVIEW sent holds exactly the chosen batches and the collected VIEWCHANGEs, and has the flags if and only if the leader has them |
| `PbftNewView.BuiltAcceptedIff` | orderer/pbftinstance.go:2013-2191 | a peer that has not passed the view can find choices that justify what was built from 2f+1 VIEWCHANGEs if and only if no flag is lost |
| `PbftNewView.ValidatorAgrees` | orderer/pbftinstance.go:2099-2191 | with exactly 2f+1 VIEWCHANGEs the validator's recomputation, in any order, agrees with the leader's choice |
| `PbftNewView.BuiltRejectedIff` | orderer/pbftinstance.go:2099-2191 | a NEWVIEW built from 2f+1 VIEWCHANGEs gives a slot for refusal, whatever order is used, if and only if the slot is abandoned and its flag is lost |
| `PbftNewView.BuiltIsRejected` | orderer/pbftinstance.go:2099-2191 | for every larger set of senders, a NEWVIEW with all flags that is turned down, and an order of arrival in which the leader can build it with the last VIEWCHANGE and not before |
| `PbftNewView.NeverRejectedIff` | orderer/pbftinstance.go:2099-2191 | no NEWVIEW built as soon as possible, from k VIEWCHANGEs of members and with all flags, is turned down if and only if k = 2f+1 |
| `PbftRuns.NewViewRejectedIff` | orderer/pbftinstance.go:1896-2191 | in every run, a NEWVIEW sent by a correct leader with 2f+1 VIEWCHANGEs is turned down for a slot if and only if the slot's empty batch has lost its aborted flag |
| `PbftRuns.NewViewAcceptedIff` | orderer/pbftinstance.go:2013-2191 | in every run, a correct peer that has not passed the view can take such a NEWVIEW if and only if no slot has lost its flag |
| `PbftLostFlag.LoseFlag` | orderer/pbftinstance.go:1738-1894 | if f >= 1 and there are two slots, then for every correct leader a run in which it sends a NEWVIEW with 2f+1 VIEWCHANGEs that has lost a flag |
| `PbftFlags.UnflagNeeds` | orderer/pbftinstance.go:1611-1894 | a flag lost in a run implies f >= 1, two slots and a correct leader |
| `PbftFlags.CanBeRejectedIff` | orderer/pbftinstance.go:1738-2191 | in some run correct peers turn down a NEWVIEW that a correct leader built from 2f+1 VIEWCHANGEs if and only if f >= 1, there are two slots and some leader is correct |
| `PbftWork.CommitDecidesIff` | orderer/pbftinstance.go:827-939 | a COMMIT decides a slot if and only if the slot is prepared, its block is released, and the senders whose COMMIT was counted or matches are a quorum |
| `PbftWork.ReleaseDecidesIff` | orderer/pbftinstance.go:880-939 | a block held back is decided on release if and only if a quorum has been counted |
| `PbftWork.PrepareDecidesIff` | orderer/pbftinstance.go:697-760 | a PREPARE prepares a slot, and makes the peer send COMMIT, if and only if there is a proposal and 2f senders match it |
| `PbftWork.ProposalIff` | orderer/pbftinstance.go:538-640 | exactly when a proposal is taken up, and exactly when it makes the peer leave its view |
| `PbftWork.FirstReportCounts` | orderer/pbftinstance.go:1506-1530 | the first VIEWCHANGE of a sender counts until the view is set up, and no later one replaces it |
| `PbftWork.VotesElsewhere` | orderer/pbftinstance.go:697-880 | votes for other views, or during a view change, change nothing |
| `PbftProgress.CanDecideIff` | orderer/pbftinstance.go:410-939 | with a correct leader of view 0, all correct peers can decide any digest for any slot if and only if f >= 1 |
| `PbftProgress.AloneNothingDecided` | orderer/pbftinstance.go:642-695 | in no run does a single node decide anything |
| `PbftProgress.DecideAfterViewChange` | orderer/pbftinstance.go:1345-2249 | for every correct leader and every digest, a run in which all correct peers decide, after a view change, what one of them had prepared, and one in which they decide an abandoned slot as empty |
| `PbftRuns.EndsIsPath` | orderer/pbftinstance.go:538-2011 | from every state that meets the invariant, what a handler of the instance does is a sequence of steps of the system |
| `PbftRuns.MissingIsPath` | orderer/pbftinstance.go:1822-1894 | the same for a fetched batch |
| `PbftPrepared.RunZero` | orderer/pbftinstance.go:538-825 | in every run: PREPAREs of correct peers agree with their slots of view 0, prepared slots have 2f of them, and proposals go back to the leader |
| `PbftPrepared.DifferNeeds` | orderer/pbftinstance.go:2444-2473 | correct peers that prepare different digests for a slot of view 0 have a faulty leader and at least f-1 faulty peers |
| `PbftEquivocation.Equivocate` | orderer/pbftinstance.go:2444-2473 | whenever that is so, a run in which two correct peers prepare different digests |
| `PbftEquivocation.CanDifferIff` | orderer/pbftinstance.go:2444-2473 | correct peers can prepare different digests in view 0 if and only if its leader is faulty and there are at least f-1 faulty peers |
| `PbftInstance.CheckPrepared` | orderer/pbftinstance.go:2444-2473 | the counting loop decides preparedness: a proposal and 2f matching PREPAREs |
| `PbftInstance.MarkCommits` | orderer/pbftinstance.go:2475-2512 | the loop marks and counts exactly the matching COMMITs not counted before |
| `PbftInstance.CheckCommits` | orderer/pbftinstance.go:2475-2512 | true if and only if the slot is prepared and a quorum of matching COMMITs has been counted over all calls |
| `PbftInstance.Advance` | orderer/pbftinstance.go:745-939 | preparing, then committing, as far as the messages allow; a COMMIT is sent exactly when the slot becomes prepared |
| `PbftInstance.FindProposal` | orderer/pbftinstance.go:2540-2551 | the proposal of the highest earlier view that has one |
| `PbftInstance.CollectView` | orderer/pbftinstance.go:1388-1400 | one view's contribution to the P and Q sets |
| `PbftInstance.CollectSets` | orderer/pbftinstance.go:1388-1400 | the loops over views build the P and Q sets of highest entries |
| `PbftInstance.CheckA` | orderer/pbftinstance.go:2135-2176 | the counting loops decide A1 and A2 |
| `PbftInstance.Choose` | orderer/pbftinstance.go:1611-1728 | finds an allowed choice if and only if there is one |
| `PbftInstance.FindCheckpoint` | orderer/pbftinstance.go:2070-2092 | the search finds -1 or a stable point that a weak quorum holds, and the highest of all stable points if a weak quorum holds it |
| `PbftInstance.Validate` | orderer/pbftinstance.go:2099-2191 | accepts only if every slot has an allowed choice that the NEWVIEW satisfies, refuses only for a slot that has none or does not match one |
| `PbftInstance.ChooseAll` | orderer/pbftinstance.go:1611-1728 | choices for all slots, or a slot without any |
| `PbftInstance.ReproposeAll` | orderer/pbftinstance.go:1629-1719 | the batches to propose again, and whether one is missing |
| `PbftInstance.CarryAll` | orderer/pbftinstance.go:2608-2622 | the slots of a new view carry decisions over |
| `PbftInstance.InstallAll` | orderer/pbftinstance.go:2227-2249 | the slots after taking over the proposals of a NEWVIEW |
| `PbftInstance.Instance.constructor` | orderer/pbftinstance.go:164-222 | initial state |
| `PbftInstance.Instance.HandlePreprepare` | orderer/pbftinstance.go:538-695 | state and messages after a PREPREPARE: ignored, suspected, or accepted and prepared; the outcome of checking its requests is a parameter |
| `PbftInstance.Instance.HandlePrepare` | orderer/pbftinstance.go:745-825 | state and messages after a PREPARE |
| `PbftInstance.Instance.HandleCommit` | orderer/pbftinstance.go:880-940 | state after a COMMIT; nothing is sent |
| `PbftInstance.Instance.StartView` | orderer/pbftinstance.go:2559-2646 | state on entering a view |
| `PbftInstance.Instance.SendViewChange` | orderer/pbftinstance.go:1370-1480 | state and VIEWCHANGE message on leaving a view |
| `PbftInstance.Instance.HandleViewChange` | orderer/pbftinstance.go:1482-1546 | the VIEWCHANGE is recorded and, with enough of them, a new view is set up |
| `PbftInstance.Instance.MaybeSendNewView` | orderer/pbftinstance.go:1548-1744 | the new view is built if and only if there are enough VIEWCHANGEs and a choice for every slot, and announced if nothing is missing |
| `PbftInstance.Instance.HandleMissingPreprepareRequest` | orderer/pbftinstance.go:1780-1820 | the proposal asked for is sent if there is one; nothing else changes |
| `PbftInstance.Instance.HandleMissingPreprepare` | orderer/pbftinstance.go:1822-1894 | while batches are missing, a fitting batch is taken over, and NEWVIEW is sent exactly when no batch is missing any more |
| `PbftInstance.Instance.SendNewView` | orderer/pbftinstance.go:1896-2011 | state and NEWVIEW message of the new leader, or nothing sent if its timer has fired |
| `PbftInstance.Instance.HandleNewView` | orderer/pbftinstance.go:2013-2249 | ignored, refused, answered by leaving the view, too late, fatal for view 0, or accepted and installed, each with its reason and the state and messages it leaves |
| `Ladon.ArriveOk` | orderer/pbftinstance.go:538-571 | messages for a block keep the announced prefix and strand no block |
| `Ladon.WaitIsOk` | orderer/pbftinstance.go:1096-1138 | registering a block behind an earlier one with messages leaves it held |
| `Ladon.CommitOk` | orderer/pbftinstance.go:1171-1222 | announcing the next block extends the prefix and releases its waiters |
| `Ladon.QuorumOk` | orderer/pbftinstance.go:1069-1090 | a block that reaches its commit quorum is the only new one to deal with |
| `Ladon.Announcer.Announce` | orderer/pbftinstance.go:1069-1224 | terminates, keeps the prefix gap-free and leaves no other block stranded |
| `Ladon.Announcer.FindBlocker` | orderer/pbftinstance.go:1096-1138 | an earlier unannounced block with messages, if there is one |
| `Ladon.Announcer.FillUpTo` | orderer/pbftinstance.go:1144-1163 | fills the gap before a block with empty entries; filled blocks have no waiters |
| `Ladon.Announcer.CommitAndRelease` | orderer/pbftinstance.go:1171-1224 | announces a block and then its waiters, least first |
| `Ladon.Announcer.constructor` | orderer/pbftinstance.go:164-222 | nothing announced, nothing waiting |
| `Ladon.Announcer.Receive` | orderer/pbftinstance.go:745-825 | a vote for a block announces and strands nothing |
| `Ladon.Announcer.Propose` | orderer/pbftinstance.go:538-695 | a proposal is kept for a block that has none; nothing is announced or stranded |
| `Ladon.Announcer.OnCommitQuorum` | orderer/pbftinstance.go:880-940 | every ready block is announced or held by an earlier block with messages; announced blocks stay, the last of them is a real one, and proposals and votes are untouched |
| `Ladon.Announcer.HandleMissingEntry` | orderer/pbftinstance.go:1019-1067 | the same for an entry obtained elsewhere, which becomes the proposal and is ready, unless the block is committed |
| `Ladon.AllReadyAnnounced` | orderer/pbftinstance.go:1197-1222 | if every earlier block is announced or has no messages, a ready block has been announced with its batch |
| `LadonLead.Highest` | orderer/pbftinstance.go:355-362 | the highest of the received ranks |
| `LadonLead.ProposalPlaced` | orderer/pbftinstance.go:366-395 | a proposal lies between the next number and the last, and in a segment that fits is a member of it |
| `LadonLead.AlwaysMemberIff` | orderer/pbftinstance.go:366-395 | for any number of leaders and nodes and all ranks, proposals stay inside the segment if and only if no target lies in it, or the first one is a member and is the only one or the number of leaders divides the number of nodes |
| `LadonLead.Stray` | orderer/pbftinstance.go:366-395 | otherwise, a rank that leads the leader out of the segment |
| `LadonLead.AllLeadIff` | orderer/pbftinstance.go:366-395 | where all nodes lead, a segment of several numbers keeps its proposals inside if and only if it is aligned |
| `LadonLead.Propose` | orderer/pbftinstance.go:249-409 | the proposals are strictly increasing and end with the last number; each is the least number from the next one on that is above all ranks known then, or the last number; in a segment that fits they are members |
| `LadonLead.IssuedSegmentsPlaced` | manager/mirmanager.go:258-319 | with all n nodes leading and n dividing the epoch length, every issued segment is aligned, so all its proposals are members |
| `LadonLead.EpochPlacedIff` | manager/mirmanager.go:258-319 | the proposals of all segments of an epoch stay inside them if and only if the condition on epoch length, leaders, nodes and start holds |
| `LadonLead.IssuedPlacedIff` | manager/mirmanager.go:258-319 | for any leaders in all epochs, all proposals of all issued segments are members if and only if every epoch meets that condition |
| `LadonLead.FirstEpochIff` | manager/mirmanager.go:258-319 | for the first epoch the condition is that the number of leaders divides that of nodes or no segment reaches beyond the number of nodes |
| `LadonLead.OneOfFourBanned` | orderer/pbftinstance.go:366-395 | four nodes, three leaders, twelve numbers: rank 0 makes the first leader propose 4, which is not in its segment |
| `Bucket.DecideIs` | request/bucket.go:133-228 | exactly when a request is present, inserted, put in place of another, or worth another attempt after a signature check |
| `Bucket.BucketNrIs` | request/request.go:315-318 | the bucket of a request is the remainder of its sender ID |
| `Bucket.ChainIff` | request/bucket.go:384-398 | a request has a neighbour or is first if and only if it is in the list |
| `Bucket.ChainDistinct` | request/bucket.go:228-250 | the links admit no repetition, hence no cycle |
| `Bucket.ChainUnlink` | request/bucket.go:411-425 | joining the neighbours of a request leaves the links of the list without it |
| `Bucket.CutExact` | request/bucket.go:324-363 | what is taken are the first n valid requests, in order, or all of them |
| `Bucket.TakenAndLeft` | request/bucket.go:324-363 | taken and left together are what there was |
| `Bucket.RunIs` | request/bucket.go:324-363 | taking one by one and putting back those passed over is taking a prefix |
| `Bucket.MinusAllIn` | request/bucket.go:366-373 | removing several requests leaves exactly the others |
| `Bucket.Bucket.constructor` | request/bucket.go:68-73 | an empty bucket |
| `Bucket.Bucket.Linked` | request/bucket.go:384-398 | membership can be read off the links |
| `Bucket.Bucket.Append` | request/bucket.go:230-250 | the list with the request at its end; links and counter stay consistent |
| `Bucket.Bucket.Prepend` | request/bucket.go:252-281 | the list with the request at its start, unless it is in the list |
| `Bucket.Bucket.PrependMultiple` | request/bucket.go:288-318 | the list with the requests at its start, in order |
| `Bucket.Bucket.Remove` | request/bucket.go:384-429 | the list without the request; the index stays |
| `Bucket.Bucket.RemoveAll` | request/bucket.go:366-373 | the list without the requests |
| `Bucket.Bucket.Add` | request/bucket.go:133-226 | present, refused, replaced, to be retried or appended, with the list and index each case leaves |
| `Bucket.Bucket.RemoveFirst` | request/bucket.go:324-363 | takes the first n valid requests and leaves the rest in order |
| `Bucket.Bucket.PruneIndex` | request/bucket.go:435-458 | the index loses exactly the entries the watermarks have passed |
| `BucketGroup.TakeExact` | request/bucket.go:324-363 | one bucket: the first min(n, valid) valid requests, the others left in order, nothing lost |
| `BucketGroup.CutCount` | request/bucketgroup.go:87-136 | the batch has min(size, valid in all buckets) requests, even if the counted total is wrong |
| `BucketGroup.CutDrains` | request/bucketgroup.go:106-136 | each bucket gives its first valid requests, at least an equal share of the smaller of size and total as far as it has them, and keeps the others |
| `BucketGroup.CutConserves` | request/bucketgroup.go:118-136 | nothing is lost or duplicated and only valid requests are taken |
| `BucketGroup.CutDistinct` | request/bucketgroup.go:118-136 | the batch has no repetitions |
| `BucketGroup.BucketGroup.CountRequests` | request/bucketgroup.go:249-255 | the number of requests in all buckets |
| `BucketGroup.BucketGroup.CutBatch` | request/bucketgroup.go:87-136 | the loops compute the two rounds; the batch is distinct and of the exact size; every bucket gives its equal share; all buckets stay well formed |
| `Admission.ClimbsToFirstGap` | request/buffer.go:152-162 | the watermark moves to the first number that is not committed |
| `Admission.Buffer.Add` | request/buffer.go:82-125 | admits exactly the numbers in the window and keeps those ahead of it while there is room |
| `Admission.Buffer.AdvanceWatermarks` | request/buffer.go:132-181 | the watermark moves to the first number that is not committed, the committed ones above stay recorded, and the kept requests are handed out to be added again |
| `Admission.StepKeeps` | request/request.go:172-303 | every step keeps: an ID ever appended is indexed or below its client's watermark |
| `Admission.RunKeeps` | request/request.go:172-303 | the same over all runs of concurrent adds, removals, advances and pruning |
| `Admission.NoReadmission` | request/request.go:187-303 | no request ID is ever appended twice to a bucket |
| `Admission.BackOnlyByPrepend` | request/bucket.go:252-281 | in every run, a request that has left the list returns only by a step that prepends it |
| `Admission.RemovedStaysOut` | request/bucket.go:366-382 | in every run, a removed request is out of the list until a step prepends it |
| `Admission.PrependedStays` | request/bucket.go:252-281 | in every run, a prepended request is in the list until a step removes it |
| `Admission.AdmittedExactly` | request/request.go:187-235 | a request passes the window check if and only if it is in its client's window, and is then appended to its bucket if and only if the index did not hold its ID |
| `Admission.WatermarkExact` | request/request.go:268-303 | in every run, a client's watermark is the least number that no garbage collection which has advanced the client was given |
| `Admission.AdvancedBeforePruned` | request/request.go:268-303 | in every run, a garbage collection advances all clients known at its start before it prunes a bucket |
| `Admission.PrunedForGood` | request/bucket.go:435-460 | in every run, the index of a pruned bucket never again holds an ID over which the watermark was moved |
| `Admission.OnceOverall` | request/request.go:306-318 | an ID is appended at most once overall if all messages with it map to one bucket |
| `Admission.SplitAdmitsBoth` | request/request.go:306-318 | otherwise two messages with one ID are both appended |
| `Log.StepKeeps` | log/log.go:78-324 | every step keeps the log's invariant, whatever the interleaving |
| `Log.RunKeeps` | log/log.go:78-324 | the invariant holds in every run |
| `Log.WriteOnce` | log/log.go:78-86 | a filled slot holds the same entry for the rest of every run |
| `Log.CommitFills` | log/log.go:78-86 | in every run, after a commit its slot holds the entry that was there, or else the committed one |
| `Log.SubscribedForGood` | log/log.go:139-177 | in every run, a subscriber stays, and is due everything from the point of its subscription |
| `Log.CanFinish` | log/log.go:78-111 | every run can be continued to a state in which no commit is in progress |
| `Log.InOrderDelivery` | log/log.go:139-150 | a reader has exactly the entries with a batch from its subscription on, in order, once each |
| `Log.DeliveredHeld` | manager/mirmanager.go:141-148 | when a reader has an entry, all slots up to it are filled |
| `Log.OutOfOrderDelivery` | log/log.go:156-168 | a follower gets each entry at most once, and all of them when no commit is in progress |
| `Log.NoLostWakeUp` | log/log.go:179-205 | no call waits for a passed slot, none returns early, and the first empty slot is exact when no commit is in progress |
| `Log.WaitsOrReturned` | log/log.go:179-205 | in every run, from the step that makes it on, a call is registered or has returned, and when it has returned all slots up to its own are filled |
| `Log.DeliveredExactly` | log/log.go:260-304 | delivered entries are increasing and complete |
| `Log.Log.CommitEntry` | log/log.go:78-110 | write-once; followers, readers, waiters and the first empty slot afterwards |
| `Log.Log.PublishEntries` | log/log.go:260-304 | delivers up to the first empty slot and wakes exactly those who waited for the slots passed |
| `Log.Log.Missing` | log/log.go:123-136 | exactly the empty slots up to a number, in order |
| `Log.Log.CommitCheckpoint` | log/log.go:209-229 | the highest checkpoint stays; every one is pushed |
| `Backlog.StepKeeps` | orderer/common.go:92-175 | every step keeps each live message in exactly one place |
| `Backlog.RunKeeps` | orderer/pbftorderer.go:60-107 | the same over all runs |
| `Backlog.HandedOverOnce` | orderer/pbftorderer.go:182-199 | a message of a live number reaches its own segment's channel at most once and no other; exactly once when it is not with a handler or queued, its segment has been started, and its subscription has been dealt with |
| `Backlog.NeverLost` | orderer/common.go:125-175 | a message of a live number is with its handler, queued, stashed or handed over |
| `Backlog.CanHandOverAll` | orderer/common.go:92-123 | every run can be continued to a state in which every live message of a started segment has been handed over exactly once |
| `Backlog.FoundAfterStart` | orderer/pbftorderer.go:182-201 | in every run, handlers find the instance of a started segment that is not retired |
| `Backlog.LateNeverHandedOver` | orderer/pbftorderer.go:60-120 | in every run, a message that arrives when its segment has been passed is never handed over |
| `Backlog.StoppedForGood` | orderer/common.go:40-58 | in every run, a stopped channel takes nothing any more |
| `Backlog.DeletedForGood` | orderer/pbftorderer.go:203-248 | in every run, a deleted number of a retired segment is not found any more |
| `Backlog.Backlog.AppendToBacklog` | orderer/common.go:125-154 | stashed, and passed on if the number is registered; nothing if it is old |
| `Backlog.Backlog.DispatchToInstance` | orderer/common.go:156-175 | exactly the given numbers are registered in addition, and an open channel gains exactly what is stashed for them, in order |
| `Backlog.Backlog.GarbageCollect` | orderer/common.go:177-189 | exactly the entries up to a number are dropped |
| `Segments.InitSNs` | manager/skippingsegment.go:36-41 | an arithmetic progression |
| `Segments.CreateSegments` | manager/mirmanager.go:258-319 | one segment per leader with its ID, offset, distance and share |
| `Segments.MemberIff` | manager/mirmanager.go:262-281 | a number is in a segment if and only if it is in the epoch and has the segment's remainder |
| `Segments.EpochTiled` | manager/mirmanager.go:258-319 | the segments of an epoch hold each of its numbers exactly once |
| `Segments.LogTiled` | manager/mirmanager.go:123-204 | over all epochs, for any leader lists, the created segments tile the log from 0 |
| `Segments.LogAligned` | manager/mirmanager.go:258-319 | with n leaders always and n dividing the epoch length, first number and segment ID agree modulo n |
| `Segments.EqualShares` | manager/mirmanager.go:258-319 | every leader gets the configured segment length, or else an even share of the epoch |
| `Segments.SameLeadersIff` | manager/mirmanager.go:258-319 | two leader lists of one length give every number the same leader if and only if they agree on all leaders that get a number |
| `Segments.NoneLostIff` | manager/mirmanager.go:283-319 | segments are kept by leader; no number is lost if and only if no leader that gets a number is listed again |
| `Segments.Manager.constructor` | manager/mirmanager.go:123-138 | the first epoch is issued and tiled |
| `Segments.Manager.HandleEntry` | manager/mirmanager.go:140-203 | an epoch ends exactly with its last entry; the tracked last number is right and all issued segments tile the log |
| `BucketAssignment.RoundRobin` | manager/mirmanager.go:354-362 | exactly the buckets with the node's remainder |
| `BucketAssignment.AssignBuckets` | manager/mirmanager.go:336-390 | every bucket goes to exactly one leader, exactly once: to the node at place (b - epoch) mod n if it leads, and otherwise to the leader with (b + epoch) mod m smaller ones |
| `BucketAssignment.OwnersPartition` | manager/mirmanager.go:336-390 | lists that follow the owner form a partition |
| `BucketAssignment.OwnerIs` | manager/mirmanager.go:336-390 | the owner of a bucket in numbers |
| `BucketAssignment.EachNodeOnce` | manager/mirmanager.go:354-362 | over any n consecutive epochs the round robin gives a bucket to each node exactly once |
| `BucketAssignment.OrderFree` | manager/mirmanager.go:347-351 | the assignment does not depend on the order of the leader list |
| `LeaderPolicies.SkippingEpochs` | manager/leaderpolicies.go:128-134 | shortening all bans by k is skipping k epochs |
| `LeaderPolicies.ShortenedExactly` | manager/leaderpolicies.go:128-134 | the shortening is by the least k that leaves a leader, is unique, and gives each epoch the leaders of k epochs later |
| `LeaderPolicies.Backoff.GetLeaders` | manager/leaderpolicies.go:137-149 | exactly the nodes whose ban, if any, ended before the epoch, in their order |
| `LeaderPolicies.Backoff.Update` | manager/leaderpolicies.go:114-135 | terminates; ban doubled or set, bans shortened by the least k, next epoch has a leader |
| `LeaderPolicies.BannedDoesNotLead` | manager/leaderpolicies.go:103-149 | a banned node leads no epoch until its shortened ban is over |
| `LeaderPolicies.AlwaysALeader` | manager/mirmanager.go:142-191 | in every run every epoch, the first included, has a leader |
| `LeaderPolicies.FewExcluded` | manager/leaderpolicies.go:181-191 | a ban list excludes no more nodes than it has entries |
| `LeaderPolicies.Blacklist.Update` | manager/leaderpolicies.go:168-179 | exactly the last f suspects stay banned |
| `LeaderPolicies.Blacklist.GetLeaders` | manager/leaderpolicies.go:181-191 | all nodes but the last f suspects, at least n - f |
| `LeaderPolicies.Combine` | manager/leaderpolicies.go:216-233 | exactly the nodes that one of the two policies selects, once each |
| `Ledger.Ledger.Transfer` | account/balance.go:135-144 | known accounts change by the amount, unknown ones are passed over, also for self-transfers |
| `Ledger.Ledger.CommitEntry` | account/balance.go:146-163 | each known account changes by the sum of what the requests do to it |
| `Ledger.Confluence` | announcer/announcer.go:26-29 | the same batches in any order give the same balances |
| `Ledger.SumApplied` | account/balance.go:146-163 | the sum of all balances falls by exactly what is lost to gas and unknown accounts |
| `Ledger.OnlyGasIsLost` | account/balance.go:146-163 | if all accounts are known, it falls by exactly one gas fee per contract request |
| `LedgerSteps.StepExact` | account/balance.go:135-144 | without a lock: a read or write step keeps what an account ends up with if and only if it does not overwrite a balance that has changed since it was read |
| `LedgerSteps.OutcomeKept` | account/balance.go:146-163 | if no balance is read that another instance is about to write, every order of steps keeps every account's outcome |
| `LedgerSteps.ConcurrentConfluence` | announcer/announcer.go:26-29 | then the balances, when all are done, are those of applying the batches one by one in any order |
| `LedgerSteps.ConfluentIff` | account/balance.go:135-163 | every interleaving of the instances' reads and writes ends with the balances of applying the batches one by one if and only if no known account is updated by one batch and changed by another |
| `LedgerSteps.LostUpdate` | account/balance.go:135-163 | for any batches that conflict, a run from start to end after which the balances differ |
| `Checkpoint.HandledOk` | checkpoint/simplecheckpointer.go:63-98 | the stable number strictly increases, exactly when a quorum completes, and every number above it keeps exactly its senders and the new one |
| `Checkpoint.Checkpointer.HandleMessage` | checkpoint/simplecheckpointer.go:63-98 | the counter after a checkpoint message |
| `Checkpoint.Checkpointer.Prune` | checkpoint/simplecheckpointer.go:159-166 | exactly the numbers up to the stable one are dropped |
| `Checkpoint.StableIsBacked` | checkpoint/simplecheckpointer.go:63-98 | whenever a correct peer has a stable checkpoint, the logs of f+1 correct peers hold every entry up to it; peers launch checkpoints for what their logs have delivered, under all interleavings |
| `Checkpoint.QuorumMakesStable` | checkpoint/simplecheckpointer.go:63-98 | in every run, a peer that has received messages for a number from a quorum of senders has a stable checkpoint at or above it |
| `Checkpoint.LaunchedArrives` | checkpoint/simplecheckpointer.go:138-157 | in every run, a launched checkpoint message can be received by all correct peers from then on |
| `Checkpoint.StableGrows` | log/log.go:209-224 | in every run a peer's stable checkpoint never falls, and stays backed |

## Left out

- HotStuff and Raft instances: their vote handling does not implement the protocols' safety arguments, so there is no theorem of this kind to state.
- State transfer and Ladon gap-filling in the agreement theorem: gap-filling acts on the local absence of messages, and transferred entries are not verified. Gap-filling is modelled on one peer, in view 0, in `Ladon`.
- The segment-level PBFT checkpoint messages, whose store of messages is read but never written.
- Timers, channel capacities and blocking, simulated crashes and stragglers, tracing and logging.
- Wrap-around of 32-bit integers and rounding of floating-point amounts: numbers are unbounded and amounts are real.
- Cryptography, gRPC, discovery, clients, configuration files and deployment.
- Requests for missing proposals (orderer/pbftinstance.go:1746-1778) are not messages of the model: a peer may answer at any time, and like every message its answer may reach any peer.
- PbftFlags.CanBeRejectedIff: the leader of view 0 has to be a member, as all leaders of a segment are.
- Views are natural numbers. Messages with negative views, and accepting a NEWVIEW for view 0, end in a panic or an error in the source and are not steps.
- PbftInstance.Instance.MaybeSendNewView: the search for a checkpoint (orderer/pbftinstance.go:1571-1602) and its panic when none is found are left out; genuine VIEWCHANGEs show only -1 (`PbftProof.CheckpointIsInitial`).
- PbftInstance.Instance.HandlePreprepare: checking the requests of a batch is left to the environment, which says whether to admit, ignore or suspect.
- The objects that hold the state of one slot in one view (`pbftBatch`) are values in a map from view and sequence number; sharing between views is not captured.
- Ladon.Announcer.Announce: view 0 only, with all nodes leading.
- Ladon.Announcer.HandleMissingEntry: the leader is recomputed from the sequence number as in the source, which is right only where all nodes lead and the epoch length is a multiple of their number.
- LadonLead.Propose: the ranks known at each step are a parameter, and view changes and stopping do not interrupt the loop.
- Bucket.Bucket.RemoveFirst: request validity is a parameter. The source returns true before its balance check (account/balance.go:114-133).
- Bucket.Bucket.Add: the verified flag of a request does not change, so the second attempt after a signature check is another request object.
- Admission.StepKeeps: lists are sets of IDs here, their order is in `Bucket`; requests kept ahead of the window may arrive again at any time; negative sender fields, which index outside the bucket array, are not modelled.
- BucketGroup.BucketGroup.CutBatch: waiting for requests is left out; the counted total may have any value when the cut begins.
- Log.Log.CommitEntry: run without interruption; interleavings are the steps of the module.
- Backlog.Backlog.DispatchToInstance: channels are values; the order in which several threads write to one channel is not captured.
- Segments.CreateSegments: the node order behind each leader, batch sizes and bucket groups are left out. The result lists segments in leader order, while the source indexes them by leader.
- Ledger.Ledger.CommitEntry: run without interruption; interleavings are the steps of `LedgerSteps`.
- Checkpoint.StableIsBacked: peers may send a checkpoint message for any delivered entry, not only for the last of an epoch; catching up with a checkpoint by state transfer is left out.
- The Simple, Single and SimulatedRandomFailures leader policies return a fixed list, one node by epoch number, and a configured list. They and the older bucket assignments of manager/manager.go and manager/dummymanager.go, which the Mir manager does not call, are not modelled, nor are adaptive batch sizes, which are switched off.

# Team Relay: verified protocol model

Dafny models of the protocols of Team Relay that have to survive lost replies,
failed writes, crashes and concurrency, with proofs of what they guarantee.
`dafny verify dfyconfig.toml` checks everything.

| File | What it models |
|---|---|
| `Base.dfy`, `Protocol.dfy` | Option and Result; wire types. A digest is the value it was taken of, a random identifier is where it was drawn. |
| `RelayRecord.dfy` | The relay's record of one request and its lifecycle updates. |
| `RelayDatabase.dfy`, `RelayGuarantees.dfy` | The Redis database under WATCH and MULTI: every interleaving of reads, conditional commits, retries and expiry; what follows for requests, idempotency keys and evicted agents. |
| `DurableFile.dfy` | One file replaced as a whole: what programs see and what a power loss would leave. |
| `MutationStore.dfy` | The receiver's write-ahead store, with rollback of failed writes. |
| `Approvals.dfy`, `ApprovalStorage.dfy`, `Revocation.dfy` | Standing grants: normalization, stable identifiers, ceilings, lookup; the grant store; revocation across restarts. |
| `ReceiverProtocol.dfy` | The composed system: relay, network, any number of receivers with separate state directories, each with a locked control flow and an executing goroutine. |
| `ReceiverInvariant.dfy`, `ReceiverSteps.dfy`, `ReceiverCoupling.dfy`, `ReceiverGuarantees.dfy` | Its inductive invariant, its preservation by every step, what keeps the claims sent and the phases held in order, and the guarantees. |
| `PrivateFiles.dfy` | A private directory changed step by step under faults, with the states a power loss may bring back. |
| `AdminRotation.dfy` | Administrator credential rotation, command and server. |
| `Enrollment.dfy`, `Setup.dfy`, `EnrollmentOnce.dfy` | Device enrollment: watched transactions at the server, crash-recoverable publication at the client, and both together. |
| `ConversationLock.dfy` | The per-conversation lock, the run limit and session hand-over. |
| `Hub.dfy` | The notification hub. |
| `Sse.dfy` | The event stream writer and reader. |

Network, clocks and randomness are parameters of the steps. A call is applied
or not and its reply arrives or not; a message, once sent, may be delivered any
number of times and at any later moment. What relay status a receiver acts on
in recovery is arbitrary, so it may be stale. JSON is an injective encoding.
The composed protocol answers each relay call in one atomic step. Two theorems
allow that: committed calls take effect one at a time
(`RelayGuarantees.TransactionsLinearize`), and every other answer is one that an
atomic call would have been given meanwhile (`RelayGuarantees.AnswersAreAtomic`).

## Results that are not what the code intends

Each is stated as a lemma with a concrete run or with the exact condition.

- A claim can reach the relay before the claim phase is durable: a rename whose
  directory sync failed survives a process restart, recovery acts on it, and a
  power loss then undoes it (`ReceiverGuarantees.ClaimCanOutliveItsPhase`). It is
  the only way: from a state in order, a step breaks the order if and only if it
  is a power loss that brings back a decision-phase record whose claim has been
  sent (`ReceiverGuarantees.OnlyThatPowerLossUncouples`). The runtime is still
  started at most once.
- A private file whose permissions are refused after the rename is deleted
  (`internal/privatefs/privatefs.go:322-331`), and with it every tombstone: a
  revoked grant can then be recreated by the recovery of a prepared approval
  (`Revocation.ErasedFileForgetsRevocation`).
- A rotation killed while its attempt file is half written cannot be rerun:
  the unreadable file is refused every time (`AdminRotation.TornAttemptWedges`).
- A rotation rerun does not sync an attempt file that it finds. If the first run
  was killed before its own sync, a power loss after the server committed can
  take the only copy of the live credential
  (`AdminRotation.SurvivesExactlyWhenStaged`).
- Setup deletes a token file that it finds with neither an attempt nor a config
  beside it: `prepareSetupPublication` fails to reserve the existing file and
  `cleanup` then removes it. Without faults the token survives exactly when one
  of the two is there (`Setup.TokenSurvivesExactlyBeside`), and beside either no
  fault makes a run touch it (`Setup.TokenIsNeverTouchedBeside`).
- A stream that ends cleanly inside the data of an event, or that reaches the
  64 MiB limit there, hands on the truncated event
  (`Sse.CutEventIsHandedOn`, `Sse.LimitCutsAnEvent`); section 9.2.6 of the WHATWG
  HTML Standard discards it. A connection that breaks below the limit is
  harmless, and so is any cut outside an event's data; nothing else is
  (`Sse.HarmlessCuts`).
- The hub may hand a subscriber two publications of one key in the wrong order:
  both send under the read lock. It takes two that overlap
  (`Hub.WithoutOverlapOrderIsKept`), any two that both owe a channel with room
  can do it (`Hub.OverlapCanInvert`), and a run shows it
  (`Hub.InversionHappens`).

## Model

| member | source | states |
|---|---|---|
| RelayRecord.TransitionAdvances | internal/collaboration/store.go:793-808 | Every committed change strictly raises the rank awaiting, accepted, running, terminal, adds one to the version, keeps the metadata, and leaves a decision, claim or result digest that was already written as it was. |
| RelayRecord.VersionCountsChanges | internal/collaboration/store.go:767-824 | Over any sequence of calls the version counts the changes, there are at most three of them, and each identity is written at most once. |
| RelayRecord.TerminalIsAbsorbing | internal/collaboration/store.go:462-701 | No later call of any kind changes a terminal record. |
| RelayRecord.OnlyUnrevokedRequestersAreAccepted | internal/collaboration/store.go:469-517 | A request becomes accepted only by an allow that saw its requester unrevoked, before the deadline, from awaiting approval. |
| RelayRecord.ReplaysAreHarmless | internal/collaboration/store.go:462-681 | Repeating an answered call after anything else happened leaves the record identical; decisions and results are acknowledged for ever, a claim exactly while the request is running. |
| RelayRecord.DifferentIdentityIsRefused | internal/collaboration/store.go:474-484 | A second decision, claim or result with another identity is refused. |
| RelayDatabase.StepKeepsLinearized | internal/collaboration/store.go:767-824 | Every watched read, conditional commit, restart and expiry keeps the database equal to the sequential replay of the commit log, and what an undisturbed client read equal to what is stored. |
| RelayGuarantees.TransactionsLinearize | internal/collaboration/store.go:767-824 | After any interleaving the database is what the committed calls produce one at a time in commit order; each committed call stands in that order exactly once and no other call stands in it. |
| RelayGuarantees.AnswersAreAtomic | internal/collaboration/store.go:787-824 | Every answer of a call that commits nothing is the one that an atomic execution, with the clock of the attempt that gave it, would have had at some moment while the call was under way. |
| RelayGuarantees.ExecutionsAreSound | internal/collaboration/store.go:212-357 | In every reachable state each live request has a live idempotency record that points to it and expires no earlier, and tombstoned agents have no presence. |
| RelayGuarantees.RevokedAgentsStayEvicted | internal/collaboration/eviction.go:43-53 | Once an eviction has committed, no heartbeat in flight restores the agent's card or membership. |
| RelayGuarantees.RequestsChangeOnlyByTransitions | internal/collaboration/store.go:469-517 | A stored request changes only at a commit, only along the lifecycle, and becomes accepted only where its requester is not tombstoned at the commit point. |
| RelayGuarantees.LiveRequestsHaveOwnKeys | internal/collaboration/store.go:219-236 | No two live requests were created under one idempotency key. |
| RelayGuarantees.IdempotencyRecordIsStable | internal/collaboration/store.go:800-808 | While a request lives, the idempotency record of its key is the one its creation wrote. |
| RelayGuarantees.RetriedCreateCreatesNothing | internal/collaboration/store.go:219-236 | Under the key of a live request the same content is answered with that request, different content with a conflict, and no interleaving of such a call changes the database. |
| Approvals.JoinInjective | internal/receiver/approval_store.go:566-580 | Joining NUL-free fields with NUL loses nothing. |
| Approvals.StableGrantIDInjective | internal/receiver/approval_store.go:566-580 | Two grant identifiers are equal exactly when authority, level and the subject that the level uses are. |
| Approvals.NormalizeScopeIdempotent | internal/receiver/approval_store.go:655-690 | A normalized access scope normalizes to itself. |
| Approvals.CoversPreorder | internal/receiver/approval_store.go:692-711 | Coverage of scopes is reflexive and transitive. |
| Approvals.NewGrantIsValid | internal/receiver/approval_store.go:545-564 | A grant built from normal input passes the validation that files are loaded with. |
| Approvals.HashedLookupAgreesWithScan | internal/receiver/approval_store.go:406-436 | Lookup by hashed identifier returns exactly the most specific unexpired grant that a scan over authority, member, conversation and ceiling would pick, and nothing only when no grant is eligible. |
| Approvals.NarrowerCandidateMatches | internal/receiver/approval_store.go:692-711 | Whatever request matches, one from the same sender that asks for less matches too. |
| ApprovalStorage.OperationKeepsSound | internal/receiver/approval_store.go:200-543 | Every operation with every write outcome keeps memory and both files keyed by recomputed identifiers, grants and tombstones disjoint, and conversation windows at creation plus thirty minutes. |
| ApprovalStorage.WrittenSnapshotsReload | internal/receiver/approval_store.go:438-497 | Any snapshot that was written loads again as itself without the grants expired since. |
| ApprovalStorage.UpsertNeverSlides | internal/receiver/approval_store.go:200-268 | Choosing an active grant again keeps its times; a grant that was not active starts exactly now, and a conversation grant ends exactly one window later. |
| ApprovalStorage.RestoreNeverSlides | internal/receiver/approval_store.go:274-354 | Recovering a prepared approval keeps the times of an active grant; a grant it enters starts exactly when the approval was made (or now, under a clock set back), so its window ends after now and at most one window after the approval. |
| ApprovalStorage.ApprovalStore.PruneLocked | internal/receiver/approval_store.go:514-528 | The loop over the grants leaves exactly the unexpired ones of this authority and reports a removal exactly when the map changed. |
| ApprovalStorage.ApprovalStore.Upsert | internal/receiver/approval_store.go:200-268 | Memory and file end as the specification says for every write outcome; a returned grant is stored, untombstoned and covers what was asked. |
| ApprovalStorage.ApprovalStore.RestorePrepared | internal/receiver/approval_store.go:274-354 | The same for recovery, which refuses tombstoned and elapsed grants. |
| ApprovalStorage.ApprovalStore.Revoke | internal/receiver/approval_store.go:358-390 | The same for revocation. |
| ApprovalStorage.ApprovalStore.Match | internal/receiver/approval_store.go:406-436 | The result is the most specific eligible grant of the store as it was, after pruning. |
| ApprovalStorage.ApprovalStore.Load | internal/receiver/approval_store.go:438-497 | A load takes memory from the file and rewrites it when grants had expired. |
| ApprovalStorage.FindGrant | internal/receiver/approval_store.go:417-435 | The three lookups from the most specific level on find what the specification finds. |
| ApprovalStorage.ScopeCovers | internal/receiver/approval_store.go:692-711 | The two loops over aliases and modes decide coverage. |
| Revocation.StepKeepsTombstone | internal/receiver/approval_store.go:358-390 | A step that does not choose the grant keeps its tombstone in memory and in both files if and only if its write does not delete the file. |
| Revocation.RevokedGrantStaysRevoked | internal/receiver/approval_store.go:274-354 | After a completed revocation no sequence of operations, crashes, power losses, reloads, authority switches and recoveries, none of whose writes deletes the file, brings the grant back before it is chosen again. |
| Revocation.RevokedGrantIsNeverMatched | internal/receiver/service.go:727-778 | After such a run no lookup returns the grant. |
| Revocation.GrantWasEntered | internal/receiver/approval_store.go:200-354 | From an empty store no run of operations, crashes and reloads holds a grant anywhere, in memory or in a file, that no choice or recovery entered. |
| Revocation.MatchedGrantWasChosen | internal/receiver/service.go:727-778 | A grant that a lookup returns is eligible for that candidate, was entered by some choice or recovery, and was chosen again after every moment at which it was revoked, unless a write deleted the file since. |
| Revocation.CompletedRevocationTombstones | internal/receiver/approval_store.go:358-390 | A revocation that was written tombstones the grant in memory and in both files. |
| Revocation.ErasedFileForgetsRevocation | internal/privatefs/privatefs.go:322-331 | A concrete run in which a deleted file lets a revoked grant return. |
| MutationStore.WriteThroughIsSlotwise | internal/receiver/mutation_store.go:238-254 | Writing the whole file acts on each request as a write of that request's own slot, which is the step the composed protocol takes. |
| MutationStore.MutationFile.Put | internal/receiver/mutation_store.go:132-150 | An invalid record changes nothing; a valid one is stored and written, and memory is rolled back when the write fails, whatever the disk then holds. |
| MutationStore.MutationFile.Update | internal/receiver/mutation_store.go:152-180 | The edit is stored exactly when it applies, keeps the request and leaves a valid record; a failed write rolls memory back. |
| MutationStore.MutationFile.Remove | internal/receiver/mutation_store.go:182-195 | The record is gone from memory exactly when the write succeeded. |
| MutationStore.MutationFile.Reload | internal/receiver/mutation_store.go:206-236 | A file that this store wrote always loads, as it was written; a refused file leaves memory alone. |
| ReceiverInvariant.OthersKept | internal/receiver/service.go:193-219 | A step of one receiver or of the relay leaves the invariant of every other receiver standing. |
| ReceiverSteps.TransitionIdentities | internal/collaboration/store.go:462-681 | Which of decision, claim and result digest each lifecycle operation may write, and that an acknowledged one has written its own. |
| ReceiverSteps.AnswerKeeps | internal/collaboration/store.go:462-701 | Any relay answer to anything ever sent keeps the relay's identities equal to the ones history remembers; an acknowledged decision or claim is the one on record. |
| ReceiverSteps.EditedFacts | internal/receiver/service.go:927-1497 | No edit of a write-ahead record changes its identity or takes its phase back. |
| ReceiverSteps.BoundaryRecord | internal/receiver/service.go:1407-1420 | Where the runtime-start boundary is written, nothing had crossed it, started or been journaled under that claim, and the record is the one that was authorized and checked. |
| ReceiverSteps.FlowKeeps | internal/receiver/service.go:866-1280 | Decision, confirmation, reply handling, recovery dispatch, replay and removal keep the invariant under every write outcome. |
| ReceiverSteps.ExecKeeps | internal/receiver/service.go:1356-1543 | Load, fetch and check, claim, boundary, launch, journal, submit and removal keep the invariant under every write outcome. |
| ReceiverSteps.StepKeepsInv | internal/receiver/service.go:1049-1108 | Every step of the composed system keeps the invariant. |
| ReceiverSteps.RunsAreSafe | internal/receiver/service.go:1116-1280 | The invariant holds in every state of every run. |
| ReceiverCoupling.SystemCoupled | internal/receiver/service.go:972-990 | If no copy of a receiver's record is at the decision phase with its claim sent, then after any step of the system that is still so, if and only if the step is not a power loss of that receiver that brings back such a record. |
| ReceiverCoupling.RunsStayCoupled | internal/privatefs/privatefs.go:220-228 | So it is in every run without such a power loss. |
| ReceiverGuarantees.RuntimeStartsAtMostOnce | internal/receiver/service.go:1356-1420 | In every run of any number of receivers the runtime is started at most once per request and at most one result is journaled, under the same claim. |
| ReceiverGuarantees.LocalPhasesMatchTheRelay | internal/receiver/service.go:927-990 | While the relay holds the request: claim phase implies its decision is this one and allows; started phase implies its claim is this one and it is running or terminal; its claim being this one implies claim phase, in every run in which no power loss of that receiver brought back a decision-phase record whose claim was sent. |
| ReceiverGuarantees.OnlyThatPowerLossUncouples | internal/privatefs/privatefs.go:220-228 | That condition is exact: from any reachable state in order, a step breaks the order of sent claims and phases if and only if it is that power loss, and it makes the last implication false if and only if the relay then holds the claim. |
| ReceiverGuarantees.CurrentStatusIsNeverInconsistent | internal/receiver/service.go:1116-1213 | The inconsistent-phase arms of recovery cannot be taken on the status that the relay holds. |
| ReceiverGuarantees.ClaimCanOutliveItsPhase | internal/privatefs/privatefs.go:220-228 | For every request, a reachable state in which the relay holds a claim whose local record is back at the decision phase. |
| ReceiverGuarantees.StoredResultIsTheJournaledOne | internal/receiver/service.go:1497-1543 | A completed or failed request stores the single journaled result, and a later copy of that message is acknowledged and changes nothing. |
| ReceiverGuarantees.ReconcileDischargesResults | internal/receiver/service.go:1049-1108 | A fault-free reconcile discharges a prepared result if and only if the relay no longer holds the request, has ended it, or accepts the result's fields and files; otherwise nothing changes. |
| ReceiverGuarantees.WhatRunsWasApproved | internal/receiver/service.go:1372-1394 | Every start's payload matches the notice bound by one earlier allow of the same receiver, under the authority that execute checked; that decision is the relay's, and a standing approval behind it is one that a lookup in an approval store returned for that very notice. |
| ReceiverGuarantees.AutoRunsWereChosen | internal/receiver/service.go:727-778 | The grant behind an auto-approved start covers the notice that was bound, was entered by the recipient's choice or its recovery, and was chosen again after every moment at which its store had it revoked, unless that store's file was deleted since. |
| ReceiverGuarantees.BindingFixesPayload | internal/receiver/service.go:1727-1783 | Two payloads that match one binding are equal. |
| ReceiverGuarantees.HonestMetadataIsNeverRefused | internal/receiver/service.go:425-440 | Against the relay's own notices neither the notice check nor the payload check ever rejects. |
| ReceiverGuarantees.SomeRunCompletes | internal/receiver/service.go:1356-1543 | For every request and every result the relay accepts there is a run, with a restart in its middle, that starts the runtime once, completes the request with that result and leaves no record. |
| PrivateFiles.WriteNewShows | internal/privatefs/privatefs.go:131-152 | A file written in place, whatever interrupts it, shows only the states before, half written and written, and is durable when it reports success. |
| PrivateFiles.AtomicWriteShows | internal/privatefs/privatefs.go:198-228 | A replaced file, whatever interrupts it, shows only the states before, after and deleted, and is durable when it reports success. |
| AdminRotation.RotationHappensOnce | internal/store/redis.go:303-372 | A rotation keeps the number of live credentials, and afterwards its key answers the same content alike, for the old and the new credential only, and changes nothing. |
| AdminRotation.AdminStore.RotateAdminCredential | internal/store/redis.go:276-373 | The watched transaction with its five attempts, other clients running before each command it sends: it is exactly one atomic rotation at one of the states they left, or gives up and changes nothing, which it does only if somebody else wrote a watched key. |
| AdminRotation.PreparedKeeps | cmd/team-relay-admin/recovery.go:94-132 | Under every fault, staging an attempt keeps the live credential in every state of the directory, and an attempt it returns is the one in the file, beside the token file that it matches. |
| AdminRotation.FinalizedKeeps | cmd/team-relay-admin/recovery.go:134-165 | Under every fault, moving a committed token into place keeps the live credential in every state of the directory; success leaves only the new token, synced. |
| AdminRotation.RotateCredential | cmd/team-relay-admin/main.go:66-116 | The whole command, the retry with the staged token included, on directory and server. |
| AdminRotation.RotateKeeps | internal/store/redis.go:303-372 | A request about a staged attempt, new or delayed, keeps every directory state that holds the attempt safe. |
| AdminRotation.NeverLockedOut | cmd/team-relay-admin/recovery.go:94-165 | After any number of runs, failures, kills, lost replies and late deliveries the one live credential is in the token file or staged in the attempt file. |
| AdminRotation.NeverLockedOutByPowerLoss | cmd/team-relay-admin/recovery.go:94-165 | The same of every state a power loss may bring back, if no command began on an unsynced attempt. |
| AdminRotation.SurvivesExactlyWhenStaged | cmd/team-relay-admin/recovery.go:101-115 | No faults of one command followed by a power loss lose the credential if and only if a visible uncommitted attempt is in every state that may survive. |
| AdminRotation.RerunRecovers | cmd/team-relay-admin/main.go:90-112 | A fault-free rerun ends with the live credential in the token file and no attempt if and only if the attempt is not half written and the token file exists; otherwise it changes nothing. |
| AdminRotation.TornAttemptWedges | cmd/team-relay-admin/recovery.go:101-115 | A run killed while writing its attempt leaves a state that no rerun changes. |
| Enrollment.CleanPlanIsCurrent | internal/store/redis.go:556-703 | What an undisturbed transaction plans to create from is what is stored, and its invite has not been used. |
| Enrollment.InviteYieldsAtMostOneDevice | internal/store/redis.go:522-703 | In every interleaving an invite is used exactly when one device came from it, and no two devices came from one invite. |
| Enrollment.InviteEndIsFinal | internal/store/redis.go:476-520 | Used and revoked are final, so they exclude each other. |
| Enrollment.RetriesGetTheSameDevice | internal/store/redis.go:680-703 | Two successful calls with the same content were given the same device. |
| Enrollment.ExactRetryCreatesNothing | internal/store/redis.go:720-766 | Repeating a call that created a device replays it exactly while nothing of it has been revoked, and is a conflict from then on. |
| Setup.PreparedOk | cmd/team-relay/main.go:457-512 | Under every fault, preparation keeps every directory state resumable or untouched; success leaves the complete attempt beside its own token and the reserved config, synced, and comes only before anything was sent. |
| Setup.ResumedOk | cmd/team-relay/main.go:514-566 | Under every fault, the deletion by a refused rename included, resuming keeps that; when it is ready the token file holds the attempt's token and all is synced before anything is sent. |
| Setup.PublishedOk | cmd/team-relay/main.go:626-645 | Under every fault, publication keeps that; success leaves the config beside the same token, without the attempt, synced. |
| Setup.EveryCallIsTheSame | cmd/team-relay/main.go:222-291 | Across any runs, crashes, lost replies and power losses every Enroll call carries the same token, key and invitation, and no state that can be found later has lost that token. |
| Setup.EveryStagedStateResumes | cmd/team-relay/main.go:514-566 | Every crash or power-loss state with a complete attempt is accepted by the identical command, which without further faults publishes the config beside that same token and removes the attempt. |
| Setup.RerunAccepts | cmd/team-relay/main.go:236-262 | A fault-free run succeeds if and only if its own attempt is complete or no file is there. |
| Setup.TokenSurvivesExactlyBeside | cmd/team-relay/main.go:466-472 | Without faults, a token file that a run finds still holds that token afterwards if and only if an attempt or a config was beside it. |
| Setup.TokenIsNeverTouchedBeside | cmd/team-relay/main.go:514-566 | Beside an attempt or a config, complete or half written, no sequence of faults makes a run change the token. |
| Setup.PreparationDeletesForeignToken | cmd/team-relay/main.go:466-472 | Beside neither, a run without faults fails, sends nothing and leaves the directory empty. |
| EnrollmentOnce.OneSetupOneDevice | cmd/team-relay/main.go:222-291 | Any history of the setup command against any interleaving of the server yields at most one device: every success named it, its credential is the token that was sent, and every state the directory can be found in still holds that token. |
| ConversationLock.LockTable.Register | internal/receiver/controller.go:118-132 | The lock of a conversation is found or made, and referenced. |
| ConversationLock.LockTable.ReleaseConversationRef | internal/receiver/controller.go:151-158 | A reference is dropped, and the table entry with the last one. |
| ConversationLock.StepKeepsInv | internal/receiver/controller.go:118-158 | Tokens and holders of a lock make one, its references are its callers, and it is in the table exactly while it has any. |
| ConversationLock.ConversationsAreExclusive | internal/receiver/controller.go:73-158 | With cancellation anywhere: one holder and one live lock object per conversation, a table entry exactly while somebody refers to it, and no more runs than the limit. |
| ConversationLock.NobodyIsStuck | internal/receiver/controller.go:133-148 | Giving a token back never blocks, and a waiter finds the token when nobody has it. |
| ConversationLock.SessionsAreNotLost | internal/receiver/controller.go:89-115 | When a run ends, the session it was given is still the stored one. |
| Hub.Hub.Subscribe | internal/collaboration/hub.go:24-37 | A channel is registered, or closed at once for a revoked key. |
| Hub.Hub.DropSubscriber | internal/collaboration/hub.go:102-115 | A registered channel is removed and closed; any other is left alone. |
| Hub.Hub.Revoke | internal/collaboration/hub.go:62-71 | The loop closes every subscriber of the key, which can have none again. |
| Hub.StepKeepsInv | internal/collaboration/hub.go:24-115 | Every locked section, send and receive keeps registration, delivery and order. |
| Hub.ChannelsCloseOnce | internal/collaboration/hub.go:24-115 | A channel is open exactly while registered, is never sent to after it was closed or closed twice, and a revoked key has no subscriber. |
| Hub.SubscribersAreHandedEverything | internal/collaboration/hub.go:81-100 | With no publication in flight a registered subscriber was handed every publication since it subscribed, each once, out of order only where publications overlapped. |
| Hub.WithoutOverlapOrderIsKept | internal/collaboration/hub.go:81-100 | A subscriber was handed the publications to its key in order, unless two of that key overlapped; publications to other keys do not matter. |
| Hub.OverlapCanInvert | internal/collaboration/hub.go:81-93 | From any reachable state in which two publications both owe a channel that has room for two, sending the later one first is possible and hands them over in the wrong order. |
| Hub.InversionHappens | internal/collaboration/hub.go:81-93 | A run in which a subscriber got two publications, both completed, in the wrong order. |
| Sse.EventWriter.WriteSSE | internal/collaboration/handler.go:330-337 | One frame is appended. |
| Sse.EventWriter.Stream | internal/collaboration/handler.go:307-327 | The loop appends the frames and keepalives of its items in order. |
| Sse.StreamEvents | internal/client/client.go:302-343 | The scanning loop hands on what reading line by line defines; it fails exactly on an overlong line or when reading broke off below the limit, and then without the last event. |
| Sse.StreamIsRead | internal/client/client.go:302-343 | A written stream is read as exactly its events whatever follows it. |
| Sse.RoundTrip | internal/client/client.go:302-343 | Events with trimmed, non-empty, newline-free fields come back exactly, however mixed with keepalives and however the body then ends. |
| Sse.HarmlessCuts | internal/client/client.go:302-343 | Of a stream cut at any position or at the limit, exactly the events complete before the cut come back if and only if reading broke off below the limit or the cut is not inside an event's data. |
| Sse.CutEventIsHandedOn | internal/client/client.go:339-343 | A body that ends cleanly inside an event's data hands on that event with the part that arrived. |
| Sse.LimitCutsAnEvent | internal/client/client.go:302 | A stream of well-formed events longer than the limit ends in a truncated one, whether or not the connection then breaks. |

## Left out

- NeverLockedOutByPowerLoss: directory changes are assumed to reach the disk in the order they were made; a file system that persists them independently is not modelled, here and in Setup.
- RotateCredential: two rotate commands that run on one directory at the same time are not modelled; a transaction that exhausts its attempts is, to the command, a request that was not applied.
- InviteYieldsAtMostOneDevice: the five-attempt loop reads its watched keys at one moment; the member record, which the source reads unwatched, may be stale.
- RoundTrip: an event handler that returns an error and so ends the loop is not modelled.
- AutoRunsWereChosen: each auto-approval names its own history of the store it matched in, which is arbitrary; that successive approvals share one store is not stated.
- HarmlessCuts: the limits on a line and on the body count characters, and a cut inside the bytes of one character is not modelled; texts elsewhere are measured in bytes of UTF-8.
- Publish: its two phases are steps of the hub's transition system, since other publications run between them; only the sections under the write lock are methods.
- A rotation whose replacement token goes to another file than the current one, and the bootstrap of the first administrator, which stages its attempt in the same way.
- Legacy store versions: a missing authority or binding is only a refusal.
- The pending store, artifact fetching and agent listing: their invariants are single map updates.
- Runtime adapters, artifact sandboxes, redaction and policy intersection: the runtime is one opaque step that ends in a result, a failure or neither.
- HTTP, JSON, TLS, command-line parsing, logging and the desktop and MCP front ends.
- Operating-system locks, access-control lists and file identity checks: a state directory is written by one process at a time.
- Inbox membership beyond seven days, and progress after the runtime-start boundary, which needs manual resolution by design.

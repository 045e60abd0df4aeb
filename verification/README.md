# SFSS verification

SFSS is a file transfer service between network zones. It keeps SQLite rows and files on disk in step
without a common transaction, so nearly every operation has places where a crash can leave one side
ahead of the other. This project models the service at that grain and proves what it keeps.

**How the model is built.** One SQL transaction, or one rename, mkdir, unlink or rmtree, is one step.
`Upload`, `Inbound` and `Outbound` are step machines for one upload session, one inbound object and one
outbound transfer: any number of threads interleave freely, a crash may drop them all between any two
steps, every statement and file operation may raise instead and leads to the handler the code has for it, and
scanners, classifier, approval provider, clocks and configuration are choices of the environment.
`UploadService`, `InboundService` and `OutboundService` are the operations as the service executes them: classes
whose methods update rows and files statement by statement and may be cut after any step. Each method is proved to be one uninterleaved run of one thread of its machine, and such a run is
one of the machine's runs (`AloneIsRun`); the interleavings themselves are proved of the machine. The
operations a caller sees also state what they keep and what they achieve. The other parts follow the same
split: a specification on values with its theorems, and the imperative form proved equal to it.

What an operation comes to is stated apart from how it is computed, in words of its own: the predicates `ScanEnds`,
`DecisionEnds`, `CallbackEnds`, `Delivered`, `Due`, `Claimed`, `Agrees` and their like are used by theorems and
contracts only, never by the code they are about, and give the whole state afterwards in every case.

SHA-256 is a parameter (`Hash`, `TextHash`). Nothing is assumed about collisions: results say "equal,
or here are two different texts with the same digest".

| file | part |
|---|---|
| `Basics.dfy`, `PartPlan.dfy` | shared vocabulary; the part plan, the completeness check, assembly |
| `Upload.dfy`, `UploadRecovery.dfy`, `UploadService.dfy` | multipart upload; crash, restart and retry; the operations |
| `Admission.dfy` | disk reservation and accounting |
| `Inbound.dfy`, `InboundScan.dfy`, `InboundGates.dfy`, `InboundService.dfy` | inbound scan, release, timeouts, dead letters; the startup check |
| `InboundJobs.dfy` | an inbound object together with the job queue |
| `Outbound.dfy`, `OutboundScan.dfy`, `OutboundService.dfy` | outbound scan, approval, recoverable release |
| `OutboundOutcome.dfy`, `OutboundDecision.dfy` | what a decision, a callback and a release come to; what undoes a decision |
| `OutboundCallback.dfy`, `OutboundOrigin.dfy` | the callback endpoint; which request each decision comes from |
| `OutboundGates.dfy`, `OutboundLoss.dfy` | the startup check; how releases lose a payload |
| `JobQueue.dfy`, `JobLeases.dfy`, `QueueService.dfy` | the leased durable queue; how long leases and waits last |
| `Canonical.dfy`, `AuditChain.dfy`, `AuditExport.dfy` | the hash-chained log, its verification and export |
| `Restore.dfy` | offline verification, backup and restore |
| `Sessions.dfy` | login sessions |
| `Download.dfy`, `Scanner.dfy` | range download and resumption; streaming signature search |

## What the code does where it differs from what one would expect

These are theorems about the code as it is. Each names when the expected property fails and when it holds,
and where the failure needs a history, a run that has it.

- **A decision undone.** The decision is unique, but a released transfer can be expired by an approver who
  passed the guard before the other one decided: he hashes the isolation path after the release has emptied it
  and expires the transfer in his own name. `OutboundDecision.ReleasedTransferUndone` is that run, without any
  tampering; `WhatUndoes` and `UndoneBy` say which steps undo a decision and which guard let them through, and
  `DecisionStands` that the decision and its actor stand if nobody was past the guard and nobody expires the
  transfer or withdraws the policy; `ThreatIsReal` and `ExpiryUndoes` that each of these can in fact undo it.
- **A payload lost between releases.** A release whose rename raises looks whether the target exists and then
  removes the target directory; another release may rename the payload into it in between, and finish. The transfer
  is then released without a payload: `OutboundLoss.DroppedIsReachable`. Nothing else loses one:
  `OutboundLoss.NothingIsDropped`, and `DroppedIsLost` that nothing brings it back. The theorems about where the
  payload is (`Outbound.PayloadInOnePlace`, `Outbound.ReleaseRecovers`) name that case (`dropped`).
- **Startup check before recovery.** `main` refuses to start when a stored path does not hold the recorded
  bytes (src/sfss/server.py:1645-1648), and that check runs before recovery and maintenance. A crash between
  a rename and the update of the path column is therefore not repaired by a restart, although
  docs/THREAT_MODEL.md:49 describes the retry; nor is one between the unlink of a purge and its update. Nor does it
  take a crash at that very point: when one of these updates raises (a full disk, a lock that is held too long) the
  handler goes on, row and file stay apart, and the next start is refused; so does an expiry that overtakes a
  release between rename and update. `InboundGates.StartupRefusedIffInWindow` and
  `OutboundGates.StartupRefusedIffInWindow` give the condition over all histories; `InboundGates.StrandedIsReachable`,
  `InboundGates.PurgeWindowIsReachable`, `OutboundGates.StrandedIsReachable` and `OutboundGates.RaisedIsReachable`
  are runs into it. The same holds for a part that was being replaced with other bytes, or whose commit raised:
  `Upload.StartupRefusedIffTorn`, `UploadRecovery.TornIsReachable`, `UploadRecovery.LooseIsReachable`.
- **Orphan directories.** The inbound release creates its directory with a plain mkdir. A crash after it, a
  failed rename, or a timeout or restart after the move leaves the directory, empty or with the payload, and
  every later pass then ends in quarantine: `Inbound.CleanPassReleases`, `Inbound.OrphanDirectoryBlocksRelease`,
  with the runs `InboundGates.EmptyDirectoryIsReachable` and `InboundGates.FilledDirectoryIsReachable`. For
  uploads a left-over target directory blocks completion only until a startup finds the session completing,
  that is, until a crash cuts a later attempt: `UploadRecovery.OrphanDirectoryBlocks`, `CrashClearsOrphan`. A
  left-over assembly file costs one failed attempt: `Upload.RetryCompletes`.
- **Integrity at promotion.** The release hashes the payload again only when it finds it already moved without
  a record (src/sfss/service.py:829-832), not always as docs/APPROVAL_RELAY_PROTOCOL.md says:
  `Outbound.PromotionIntegrity` says exactly when a rewritten payload is refused, and
  `OutboundDecision.RewrittenPayloadReleased` releases one.
- **Callback nonces.** A nonce row can expire in the very second in which its timestamp is still accepted, and
  in no other: `OutboundCallback.ReplayMeetsItsNonce`, `OutboundCallback.BoundarySecond`.
- **Missed resubmission.** A rescan while the old job is still running is ignored by the queue, and leaves
  no active job when that worker completes: `JobQueue.MissedResubmission`, with the run
  `JobQueue.MissedIsReachable`. `InboundJobs.WhatOrphans` says over object and queue together when a pending object
  loses its job, and `InboundJobs.OrphanIsReachable` is the whole run of scan, rescan and worker.
- **Clock.** If the clock runs backwards a login may evict the session it has just created:
  `Sessions.FreshSurvives`, with the run `Sessions.FreshIsEvicted`.
- **Temporary part files.** Concurrent uploads of one part pass their capacity checks before any of them has
  written, so together they breach the reserve: `Admission.SamePartBreachesReserve`. `SpaceIsAccounted` says
  exactly when it is breached.
- **Admission reads.** A creation reads received and reserved bytes in two statements. When a session completes
  between them its received bytes are subtracted although its reserved ones are no longer counted, and a fully
  uploaded session may then be refused for lack of space: `Admission.LateReadRefusesCompletion`.
- **Restore.** A crash between the rename and the end of the second rebase leaves a directory that does not
  verify and that blocks a second restore: `Restore.TornRestore`.
- **Partial downloads.** A wrong partial file of the agent is completed to full size, rejected, and kept:
  `Download.WrongPrefixStaysWrong`.
- **Range headers.** Another unit, a unit not in lower case, a list of ranges and a number of more than 4300
  digits are answered with 416, also where section 14.2 of RFC 9110 asks for the header to be ignored or the
  range to be served: `Download.DeviatesFromStandard` gives the exact condition.

## Model

| member | source | states |
|---|---|---|
| PartPlan.PlanTiles | src/sfss/service.py:301-306 | each part starts where the previous one ends, no part is empty, the last one ends the file |
| PartPlan.EveryByteInOnePart | src/sfss/service.py:284-306 | every byte position below the total lies in exactly one planned part |
| PartPlan.CompletionCheckExact | src/sfss/service.py:405-406 | the count-and-sum check passes exactly when every part number is present, and then the rows are read as 1..n |
| PartPlan.AssemblyIsSource | src/sfss/agent.py:243-259 | when every part is the agent's slice, assembling the parts in order gives the source file byte for byte |
| Upload.OneInside | src/sfss/service.py:140-146 | mutual exclusion per session although lock objects are discarded while threads still wait on them |
| Upload.NextKeepsInv | src/sfss/service.py:295-508 | the invariant of rows, files, locks and threads survives every step of put, complete, cancel, expire, crash and boot |
| Upload.RunFollows | src/sfss/service.py:363-443 | over any run the planned id never changes, a terminal session keeps its state and gains no part, a registered object keeps row and payload |
| Upload.OneObjectPerSession | src/sfss/service.py:408-508 | in every reachable state at most one object is registered, under the planned id, with the recorded size and digest; a completed session names it |
| Upload.StartupRefusedIffTorn | src/sfss/service.py:1093-1142 | after a crash in any mode the storage check refuses exactly when a re-upload with other bytes was between rename and commit, or such a commit raised and the part was not uploaded again; a crash of the startup itself changes no answer |
| Upload.RecoverySettles | src/sfss/service.py:1271-1300 | recovery binds a completing session to its registered record and clears its staging, or returns it to uploading with parts and files untouched and the same planned id |
| Upload.RetryCompletes | src/sfss/service.py:390-443 | an undisturbed completion of a full upload registers the planned id if and only if no assembly file and no target directory were left and the bytes match, and leaves nothing in staging; otherwise it undoes itself |
| Upload.RecoveredCompletes | src/sfss/service.py:394-399 | with the object registered by an earlier attempt an undisturbed completion closes the session with it and leaves nothing in staging |
| Upload.RecoveredFails | src/sfss/service.py:394-399 | whatever fails on that way, the session is completed with that object or nothing has changed |
| Upload.RefusedAlone | src/sfss/service.py:367-370 | parts and cancellation once a completion has begun, and a completion with a part missing or another attempt unfinished, change nothing |
| Upload.OneFailureReopens | src/sfss/service.py:415-443 | one failure anywhere in a completion: the session ends completed or open with all its parts, the object registered with its payload or not at all, and of an unregistered one at most an empty directory is left |
| Upload.OneFailureThenRetry | src/sfss/service.py:386-443 | and the next completion delivers the object under the same id, unless that directory was left |
| Upload.CompletionDeliversSource | src/sfss/service.py:416-431 | staged slices of a source file are registered as exactly that file with its digest |
| Upload.AloneIsRun | src/sfss/service.py:386-443 | an operation run on its own, cut anywhere, is a run of the system |
| UploadRecovery.EndedIsCleared | src/sfss/service.py:382-384 | an undisturbed request in the system that ends the session, by completing, cancelling or expiring, leaves no staging tree, part file, part row or entry in the lock table |
| UploadRecovery.CompletionClears | src/sfss/service.py:451-464 | a completion in the system, first or recovered, ends with the object and its bytes, and with staging tree, part rows and lock gone |
| UploadRecovery.CrashRecoverRetry | src/sfss/service.py:1271-1300 | from every reachable completing session: a crash, the whole startup and one undisturbed retry end with the object registered under the id planned before the crash, unless its bytes do not match; the startup is refused exactly when a part is torn |
| UploadRecovery.OrphanDirectoryBlocks | src/sfss/service.py:473-474 | with its target directory left behind a session registers nothing over any run that never comes to the recovery of a completing session |
| UploadRecovery.CrashClearsOrphan | src/sfss/service.py:1271-1280 | a later attempt cut by a crash clears the directory, and the attempt after the restart registers exactly when the bytes match; a torn part prevents the restart |
| UploadRecovery.TornIsReachable | src/sfss/service.py:331-356 | a run from a created session to the refused startup: a second upload of a part with other bytes, cut between rename and commit |
| UploadRecovery.LooseIsReachable | src/sfss/service.py:351-358 | a run from a created session to the refused startup without any interrupted upload: the commit of the second upload raises |
| UploadRecovery.OrphanDirectoryIsReachable | src/sfss/service.py:466-490 | a run from a created session to a fully received, blocked one: the rename of the assembled file fails |
| UploadService.Service.PutUploadPart | src/sfss/service.py:295-361 | rows and files stay in order, the row names the sent bytes exactly when the call succeeds, a session that is not uploading or an unplanned size changes nothing, an undisturbed call on an open session succeeds |
| UploadService.Service.CompleteUploadSession | src/sfss/service.py:386-508 | cut anywhere, nothing registered is lost and a completed session names an object with the checked bytes; a terminal session, one with a part missing and one with another attempt unfinished are left alone; undisturbed, it completes exactly with the object registered already, or with all parts, matching bytes and nothing left behind, and then staging is empty; otherwise all but the assembly file is in its place |
| UploadService.Service.EndSession | src/sfss/service.py:363-384 | a session that is over stays as it is, and so does a completing one that is to be cancelled; an open one ends without files and part rows, and keeps its registered object |
| UploadService.Service.RecoverInterrupted | src/sfss/service.py:1271-1300 | cut anywhere it registers nothing and keeps order; uncut it leaves no session completing, completed exactly when its object is registered |
| Admission.NextKeeps | src/sfss/service.py:200-268 | every step of create (in its two halves), part, complete, cancel, expire and wipe keeps the reservation and the per-user limits |
| Admission.ReserveIsKept | src/sfss/service.py:246-248 | in every run free space covers the reserve and all that active sessions may still write, short only of stray temporary files, outside writes and late reads; per-user count and staged bytes stay within limits |
| Admission.AdmittedIsNotRefused | src/sfss/service.py:307-307 | without those three, the capacity checks of an admitted session's missing parts and of its completion pass |
| Admission.ChecksSpace | src/sfss/service.py:170-173 | a part request may write, and a completion may start, exactly with its planned bytes free above the reserve, in a session that is uploading, and the latter with every part present |
| Admission.RemainingAtMost | src/sfss/service.py:246-248 | the admission formula is at least the true worst case, as it counts assembled bytes again |
| Admission.SpaceIsAccounted | src/sfss/service.py:164-173 | in every run free space plus everything written is the initial space, so the reserve is breached exactly when more than the space above it is written |
| Admission.SamePartBreachesReserve | src/sfss/service.py:307-322 | a run with nothing outside that breaches the reserve: three concurrent uploads of one part |
| Admission.LateReadRefusesCompletion | src/sfss/service.py:238-248 | a run in which a session admitted across the end of another one has all its parts and is refused its completion |
| Admission.UploadSessions.BeginCreation | src/sfss/service.py:221-241 | which of the user's limits refuses, by the number of his open sessions and the bytes they are for, and the received bytes it records |
| Admission.UploadSessions.FinishCreation | src/sfss/service.py:242-268 | admits exactly when twice the sizes of all open sessions and of this one, less the bytes received, are free above the reserve; the reservation invariant is kept |
| Inbound.NextKeepsInv | src/sfss/service.py:952-1030 | log, files and every thread's evidence stay consistent in every step |
| Inbound.ReplayAgrees | src/sfss/service.py:24-31 | in every reachable store the state column equals the replay of the log, along allowed transitions |
| Inbound.FailClosed | src/sfss/service.py:969-1030 | a released object was released by a pass with both integrity checks, all scanners clean and a known, unconflicted type; its row names the directory that holds the submitted bytes |
| Inbound.CleanPassReleases | src/sfss/service.py:1006-1016 | an undisturbed clean pass over an untampered object releases it if and only if the released directory does not exist yet, wherever the payload is, and quarantines it otherwise |
| Inbound.OrphanDirectoryBlocksRelease | src/sfss/service.py:1009-1010 | once the directory exists, with or without the payload, and no release is under way, no run ever releases the object |
| InboundScan.ScanOutcome | src/sfss/service.py:969-1020 | where every undisturbed scan of a pending object ends: quarantine without an accepted runtime or the recorded bytes; else rejection exactly by an infected verdict; else quarantine by a verdict that is not clean, an unknown or conflicting type or an existing directory; else release, with the bytes sealed in the released directory only |
| InboundScan.ScanFailsClosed | src/sfss/service.py:1021-1030 | a scan that meets one exception, at any statement, ends in quarantine or still pending, never released and never scanning |
| InboundScan.MaintenanceAlone | src/sfss/service.py:1205-1250 | what an undisturbed timeout, rescan, expiry and purge do to an object in each state |
| InboundScan.StateFollows | src/sfss/service.py:24-31 | in every step of every run: from which states each state is entered |
| InboundScan.VerdictStands | src/sfss/service.py:24-31 | over every run a rejected object is never pending, scanned or released again, a released one never judged again, an expired one stays expired |
| InboundScan.RejectedForCause | src/sfss/service.py:999-1000 | every rejection in a reachable log comes from a pass over an intact payload with an infected verdict |
| InboundScan.EvidenceIsReal | src/sfss/service.py:981-1005 | a thread notes an integrity check only when the file at its path has the recorded length and hash, and as verdicts what the scanners answered |
| Inbound.AloneIsRun | src/sfss/service.py:969-1030 | a scan pass on its own, cut anywhere, is a run of the system |
| InboundGates.StartupRefusedIffInWindow | src/sfss/service.py:1093-1118 | in every untampered run, exceptions and expired objects included, a crash makes the storage check refuse exactly when a thread is in a window (rename to path update, path update to seal in production, unlink to update of a purge), or has left one by an exception and nothing has mended it since |
| InboundGates.RewrittenIsRefused | src/sfss/service.py:1112-1113 | a payload rewritten since is accepted by the startup check exactly when it has the recorded length and hash |
| InboundGates.ReleaseCrashWindow | src/sfss/service.py:1009-1016 | after which steps of a clean pass a crash makes the next startup refuse |
| InboundGates.EmptyDirectoryIsReachable | src/sfss/service.py:1009-1010 | a run to an accepted restart whose empty released directory blocks the object for good |
| InboundGates.FilledDirectoryIsReachable | src/sfss/service.py:1205-1210 | a run to a quarantined object whose payload already lies in the released directory |
| InboundGates.PurgeWindowIsReachable | src/sfss/service.py:1235-1250 | a run to the refused startup of an expired object: a crash between the unlink of the purge and its update |
| InboundGates.StrandedIsReachable | src/sfss/service.py:1013-1025 | a run in which the path update raises and the handler quarantines the object: nobody is in a window, and the next startup is refused |
| InboundGates.ReleasedIsSealed | src/sfss/service.py:1014-1016 | in every run the file of a released object is sealed |
| InboundService.Service.Transition | src/sfss/service.py:952-967 | read the state, check the map, then the update guarded by the state that was read, with its event |
| InboundService.Service.ScanObject | src/sfss/service.py:969-1030 | cut anywhere, order is kept and only a pending object is touched; a release has a clean pass behind it and the payload in the released directory; undisturbed, the object ends as ScanOutcome says, rejected exactly by an infected verdict; a clean pass releases exactly when the directory does not exist |
| InboundService.Service.FailScanJob | src/sfss/service.py:1252-1259 | an object whose scan is due or under way ends in quarantine, any other stays as it is |
| Outbound.NextKeepsInv | src/sfss/service.py:603-845 | log, decision, files, callbacks and every thread's evidence stay consistent in every step |
| Outbound.ReplayAgrees | src/sfss/service.py:33-39 | in every reachable store the state column equals the replay of the log |
| Outbound.FailClosed | src/sfss/service.py:674-763 | the log of a released transfer ends with scan, clean classified pass, submission, one verified approval and one permitted release, and holds no other decision |
| Outbound.PayloadInOnePlace | src/sfss/service.py:816-845 | unless a failed release has removed it, while approved exactly one of the two directories holds the payload and once released the green one, with the submitted bytes; if one has, neither does |
| Outbound.DecisionFixed | src/sfss/service.py:742-814 | over any run there is at most one decision event, and short of an expiry the state stays on its side and the row names its actor |
| Outbound.ActorColumn | src/sfss/service.py:603-624 | the approval_actor column is the last actor the log names |
| Outbound.FailedApprovalExpires | src/sfss/service.py:748-763 | an approver whose integrity check fails expires the transfer from whatever state allows it and writes his name |
| OutboundDecision.WhatUndoes | src/sfss/service.py:603-624 | after a decision a step expires the transfer exactly when it is the compare-and-swap of an expiry, and changes the actor exactly when that expiry carries another one |
| OutboundDecision.UndoneBy | src/sfss/service.py:742-763 | such a thread had passed the guard of the decision before it fell, was expiring already, started an explicit expiry, or found the policy withdrawn |
| OutboundDecision.DecisionStands | src/sfss/service.py:742-845 | without those, state side and actor of the first decision stand over every run of callbacks, approvers, retries, timeouts and crashes |
| OutboundDecision.ThreatIsReal | src/sfss/service.py:742-763 | the converse: from every reachable decided state a thread on the way to an expiry, at a withdrawn policy or late at the guard expires the transfer by its own steps, behind one release at most |
| OutboundDecision.ExpiryUndoes | src/sfss/service.py:870-875 | and an explicit expiry does so from every decided state |
| OutboundDecision.ReleasedTransferUndone | src/sfss/service.py:748-758 | a run from submission, without tampering, in which a second approver expires the released transfer and signs it |
| Outbound.ReleaseFromIsolation | src/sfss/service.py:816-845 | the exact world after each number of steps of a first release |
| Outbound.ReleaseFromGreen | src/sfss/service.py:826-832 | a release that finds the payload moved adopts it after hashing it and finishes |
| Outbound.ReleaseRecovers | src/sfss/service.py:1218-1224 | from every reachable approved transfer an undisturbed attempt ends released with the green path and the submitted bytes and another attempt changes nothing, exactly if no failed release has removed the payload |
| Outbound.PromotionIntegrity | src/sfss/service.py:826-834 | whoever rewrote the payload that is there, an undisturbed release refuses exactly when it finds a moved, unrecorded and damaged file, and otherwise delivers the bytes as they are |
| OutboundDecision.RewrittenPayloadReleased | src/sfss/service.py:826-834 | a run that releases a payload rewritten after its approval |
| Outbound.ReleaseCrashWindow | src/sfss/service.py:829-841 | after which steps of a release a crash makes the next startup refuse |
| OutboundGates.StartupRefusedIffInWindow | src/sfss/service.py:1093-1118 | in every untampered run, in every state, a crash makes the storage check refuse exactly when a thread is in a window, or an exception, an overtaking expiry or a failed release's clean-up has parted row and file and nothing has mended it since |
| OutboundGates.RewrittenIsRefused | src/sfss/service.py:1112-1113 | a payload rewritten since is accepted by the startup check exactly when it has the recorded length and hash |
| OutboundGates.StrandedIsReachable | src/sfss/service.py:839-841 | a run in which an expiry between rename and path update strands the path |
| OutboundGates.RaisedIsReachable | src/sfss/service.py:839-841 | a run in which the path update of a release raises: an approved transfer whose next startup is refused |
| OutboundLoss.NothingIsDropped | src/sfss/service.py:826-838 | no run loses the payload of a transfer in which nothing raises between the look at the target and the end of the rename, whatever else raises, crashes or expires |
| OutboundLoss.DroppedIsLost | src/sfss/service.py:834-838 | once lost the payload is nowhere, for ever |
| OutboundLoss.DroppedIsReachable | src/sfss/service.py:834-838 | an untampered run from submission to a transfer released without a payload: one rename raises, another release finishes, the clean-up removes its directory |
| OutboundGates.ReleasedIsSealed | src/sfss/service.py:842-845 | in every run the file of a released transfer is sealed, if no failed release has removed it |
| Outbound.LogGrows | src/sfss/db.py:434-440 | events are only ever appended |
| Outbound.AloneIsRun | src/sfss/service.py:816-845 | an operation on its own, cut anywhere, is a run of the system |
| OutboundScan.ScanOutcome | src/sfss/service.py:674-718 | where every undisturbed scan of a pending transfer ends: it waits for approval exactly under an accepted runtime, with the recorded bytes, all verdicts clean, no type conflict and an allowed classification; else quarantine; no file moves |
| OutboundScan.ScanFailsClosed | src/sfss/service.py:719-727 | a scan that meets one exception ends in quarantine or still pending, never waiting for approval and never half-way |
| OutboundScan.MaintenanceAlone | src/sfss/service.py:1209-1259 | what an undisturbed timeout, dead letter, rescan, expiry and purge do to a transfer in each state |
| OutboundScan.StateFollows | src/sfss/service.py:33-39 | in every step of every run: from which states each state is entered |
| OutboundScan.EvidenceIsReal | src/sfss/service.py:674-826 | a thread notes a check only when it holds: file and hash, verdicts, the policy in force when it classifies, runtime, approval and policy when it releases |
| OutboundOutcome.DecideOutcome | src/sfss/service.py:734-763 | a local approver's undisturbed decision in every case: refused, expired, rejected, expired for damage, approved without a runtime, or released with exactly the bytes that were checked |
| OutboundOutcome.ReleaseOutcome | src/sfss/service.py:816-845 | an undisturbed release in every case: nothing without runtime and approval, expiry when the policy no longer permits it, release of the payload in isolation otherwise |
| OutboundOutcome.CallbackOutcome | src/sfss/service.py:765-814 | an undisturbed callback in every case, with what the event table says afterwards |
| OutboundOutcome.ForeignIsInert | src/sfss/service.py:778-783 | a callback for another approval, for a transfer with local approval, or with an event bound to another payload changes nothing, whatever is raised |
| OutboundOutcome.CallbackFails | src/sfss/service.py:810-814 | an exception after the event is recorded leaves row and log where it found them and the event recorded as failed |
| OutboundOrigin.DecisionHasItsRequest | src/sfss/service.py:765-809 | over every run of the endpoint each decision in a relay user's name stands on a transfer with enterprise approval and comes from an authentic, timely request, with a nonce of its own, that named this transfer's approval, that user, event and decision; each one in an approver's name on a transfer with local approval, from that approver |
| OutboundCallback.ReusedNonceIsInert | src/sfss/server.py:611-624 | until its row expires a nonce stays bound to its first payload, and any run ends as the run without the requests that reuse it for another one |
| OutboundCallback.ReplayMeetsItsNonce | src/sfss/server.py:599-624 | a signed request sent again within its window finds its nonce, except in the one second in which row and window end together |
| OutboundCallback.BoundarySecond | src/sfss/service.py:1180-1182 | in that second the purge may already have removed the row, and another payload is admitted under the nonce |
| OutboundCallback.ReusedEventIsInert | src/sfss/service.py:778-796 | an event id is bound to its first payload for ever: after any run, neither a request with another one nor any step of its thread changes the transfer or the event table |
| OutboundCallback.EventIsBound | src/sfss/service.py:778-796 | the same over every run from a submission, from the moment the event is recorded |
| OutboundCallback.ProcessedEventIsInert | src/sfss/service.py:785-786 | once an event is processed and no delivery of it is under way, no request that names it and no step of its thread changes anything, over every run |
| OutboundCallback.GateIsRun | src/sfss/server.py:589-632 | behind the endpoint the transfer runs as the outbound machine does, so every theorem about its runs applies |
| OutboundCallback.HandledIsRun | src/sfss/server.py:589-632 | handling one request on its own is one of the runs of the endpoint |
| OutboundService.Service.Transition | src/sfss/service.py:603-624 | read the state, check the map, then the update of state and columns guarded by the state that was read, with its event |
| OutboundService.Service.ScanOutbound | src/sfss/service.py:674-727 | only a pending transfer is touched and none waits for approval without a clean pass; undisturbed, it ends as ScanOutcome says |
| OutboundService.Service.Release | src/sfss/service.py:816-845 | success means released, with the payload in the green directory and nowhere else if none was lost before; undisturbed on an approved untampered transfer it succeeds with the submitted bytes; without runtime and approval nothing changes, without the policy the transfer expires |
| OutboundService.Service.DecideOutbound | src/sfss/service.py:733-763 | success means a release or rejection in the approver's name; a transfer that is not waiting for approval, or not for a local one, stays as it is; undisturbed, it ends as DecideOutcome says and succeeds exactly then |
| OutboundService.Service.HandleApprovalCallback | src/sfss/server.py:589-632 | a request that is stale, unsigned, or reuses a nonce changes neither nonces nor transfer; one for another approval, for a transfer with local approval, or that reuses an event id does not change the transfer; any other undisturbed one that is no duplicate ends as CallbackOutcome says and succeeds exactly when its event is recorded as processed |
| OutboundService.Service.ProcessApprovalCallback | src/sfss/service.py:765-814 | a processed event, one with another payload hash, and one for another approval or a transfer with local approval change nothing; success means the transfer is on the event's side, and by this event unless it was approved before; undisturbed, it ends as CallbackOutcome says |
| JobQueue.ReachableRow | src/sfss/jobs.py:81-162 | every row of every reachable queue: attempts at most max_attempts plus interruptions, a dead letter exactly once when failed and never otherwise |
| JobQueue.ReachableRows | src/sfss/db.py:262-263 | in every reachable queue the rows stand in id order and an object has at most one active row |
| JobQueue.ClaimTakesOldest | src/sfss/jobs.py:81-99 | a claim takes the row with the lowest id among those queued and available or running with a lease that has run out, and none if there is none |
| JobLeases.ClaimIs | src/sfss/jobs.py:81-99 | what a claim makes of the first due row, of the tickets, and of no other row |
| JobLeases.FencedIs | src/sfss/jobs.py:113-162 | what completing, renewing, and raising below and at the limit make of the held row, and of no other |
| JobLeases.RestartIs | src/sfss/jobs.py:61-66 | what a restart makes of each row |
| JobLeases.SubmitIs | src/sfss/jobs.py:70-79 | a submission appends one queued row, or nothing when the object has a queued or running one |
| JobLeases.LeaseHolds | src/sfss/jobs.py:81-99 | over runs: until t + lease_seconds no claim takes a row that was claimed or renewed at t; from then on a claim with no lower due row takes it, counts the interruption, and the old lease is lost |
| JobLeases.LeaseStarts | src/sfss/jobs.py:124-130 | a claim and a renewal each start such a lease |
| JobLeases.BackoffHolds | src/sfss/jobs.py:143-153 | over runs: a job whose a-th attempt failed at t is not taken before t + min(60, 2^a), and from then on it is, when no lower row is due |
| JobQueue.LostLeaseIsFenced | src/sfss/jobs.py:113-162 | a worker whose lease is lost can never again complete, renew, requeue or fail, after any run |
| JobQueue.LeaseIsLost | src/sfss/jobs.py:81-162 | reclaiming, restarting and finishing each lose the lease |
| JobQueue.TerminalRowsStay | src/sfss/jobs.py:113-162 | a completed or failed row never changes in any column until it is purged |
| JobQueue.PurgeExact | src/sfss/jobs.py:168-169 | the purge leaves exactly the rows that are not completed or failed, or have changed since |
| JobQueue.BoundedChanges | src/sfss/jobs.py:143-158 | a job with at most k interruptions changes stage (queued or running, and attempts) at most 2 * (max_attempts + k) times in any run |
| JobQueue.WorkChangesStage | src/sfss/jobs.py:101-122 | claiming a row, and the end of a handler that still holds it, are such changes; completion, and a raise at the limit, end the job |
| JobQueue.ActiveUntilFinished | src/sfss/jobs.py:70-162 | over every interleaving an object keeps its active row exactly until the worker that holds it ends it |
| JobQueue.RecoveryInterleaved | src/sfss/service.py:1314-1323 | while workers already run, a resubmitted record has exactly one active row from its submission on, or none, and none only when a worker that claimed after the restart has ended it since |
| JobQueue.MissedResubmission | src/sfss/jobs.py:75-78 | after a rescan's submission and the old worker's completion an active job is left exactly when that worker did not hold the object's row |
| JobQueue.MissedIsReachable | src/sfss/jobs.py:70-120 | a run from the empty queue: submit, claim, submit, complete, and no active row |
| InboundJobs.WhatOrphans | src/sfss/service.py:877-883 | over object and queue together: a pending object loses its job exactly when a rescan makes it pending before it submits, or a worker ends the row while the object is pending again; it is found again exactly by a submission or by leaving the state |
| InboundJobs.OrphanStays | src/sfss/service.py:877-883 | until then it waits, whatever workers, retries, purges, crashes and restarts of the queue do |
| InboundJobs.OrphanIsReachable | src/sfss/service.py:877-883 | the run from submission: scan, rescan, ignored submission, end of the first worker's round |
| QueueService.SQLiteJobQueue.Start | src/sfss/jobs.py:53-68 | a first start with matching handlers requeues every running row; any other start changes nothing |
| QueueService.SQLiteJobQueue.Submit | src/sfss/jobs.py:70-79 | insert-or-ignore under the partial unique index |
| QueueService.SQLiteJobQueue.Claim | src/sfss/jobs.py:81-99 | takes the first row that is queued and available or running with a lapsed lease, for the lease time, under a fresh owner token, and nothing only when there is none |
| QueueService.SQLiteJobQueue.FinishWork | src/sfss/jobs.py:111-120 | at any later state of the queue: the fenced end of a worker's round; a lost lease changes nothing, and no lease is held afterwards |
| QueueService.SQLiteJobQueue.RenewLease | src/sfss/jobs.py:124-130 | renews exactly when the lease still owns the row, to the lease time from now |
| QueueService.SQLiteJobQueue.RetryOrFailJob | src/sfss/jobs.py:143-162 | requeue with backoff below the limit, else fail and answer that the dead letter is due |
| QueueService.SQLiteJobQueue.PurgeCompleted | src/sfss/jobs.py:168-169 | leaves exactly the rows that are not old and terminal, and counts the others |
| QueueService.SQLiteJobQueue.ResubmitPending | src/sfss/service.py:1316-1323 | submits every pending record in turn; afterwards each has an active row |
| Canonical.EncodeDetermines | src/sfss/db.py:319-323 | the canonical JSON array of an event determines the event |
| AuditChain.HeadBindsChain | src/sfss/db.py:319-340 | two verified chains with the same head are the same events in the same number, or two different hashed texts, one from each, collide |
| AuditChain.AppendKeepsChain | src/sfss/db.py:417-432 | appending keeps a chain verified |
| AuditChain.CountRulesOutExtras | src/sfss/db.py:333-333 | with a chain row for every event, equal counts hold exactly when there is no chain row without an event |
| AuditChain.Store.VerifyAuditChain | src/sfss/db.py:326-340 | the loop accepts exactly the intact tables and returns their count and head |
| AuditChain.Store.AppendAudit | src/sfss/db.py:417-432 | appends one event linked to the current head and keeps the tables intact |
| AuditChain.Store.ExecuteAudited | src/sfss/db.py:434-440 | when the state change or the append fails neither is kept, otherwise both are, and the chain stays intact |
| AuditChain.Store.ExecuteAuditedCounted | src/sfss/db.py:373-383 | the same for housekeeping, which leaves no event when it touched no row |
| AuditExport.ExportRoundTrip | src/sfss/operations.py:232-263 | verifying an exported chain against its own digest, head and count succeeds exactly when ids run from 1, times are not negative, details are objects and lines fit, and then returns its count and head |
| AuditExport.AcceptedIsChain | src/sfss/operations.py:266-348 | every accepted file holds a log the database verifier accepts, with ids 1..n and the reported count and head, and meets every expectation that was given |
| AuditExport.AcceptedLineIs | src/sfss/operations.py:294-333 | a line is accepted exactly when it is a whole line of at most two mebibytes with the document of a record: exact members, types, next id, details that are an object, linked by its own digest to the head before it |
| AuditExport.RetainedHeadBinds | src/sfss/operations.py:341-346 | a file accepted against a retained head holds exactly the log of that head, or yields a collision |
| AuditExport.VerifyAuditExport | src/sfss/operations.py:266-348 | the streaming loop, holding one line at a time, decides as the line-by-line specification does |
| AuditExport.ExportAudit | src/sfss/operations.py:244-253 | the file is the concatenation of the rendered rows |
| AuditExport.LinesOfFlatten | src/sfss/operations.py:249-253 | splitting the written file at newlines gives the written lines back |
| Restore.RestoreIsSound | src/sfss/operations.py:560-598 | an archive is accepted exactly when its chain verifies, every row has its file below the original root with the recorded length and hash, and the head is the manifest's; then the same holds below the destination |
| Restore.VerifiedAgrees | src/sfss/operations.py:158-193 | a directory verifies exactly when its chain does, every payload row and part row has its file below the root with the recorded length and hash, and no part is stale |
| Restore.RewritingIsFound | src/sfss/operations.py:167-192 | one named file of a verified directory replaced: verification, backup and restore refuse, or both contents have the same length and hash |
| Restore.BackupRestoreRoundTrip | src/sfss/operations.py:198-229 | a verified directory comes back verified with the same files and log, each path moved to the destination, and two rows of payloads or parts name one path exactly when they did before |
| Restore.RebasedVerifies | src/sfss/operations.py:566-580 | rebasing neither gains nor loses verification |
| Restore.TornRestore | src/sfss/operations.py:585-596 | after a crash in the second rebase the directory verifies exactly when no row is left to rebase |
| Restore.DataDirectory.VerifyData | src/sfss/operations.py:148-195 | the loops accept exactly the directories whose chain verifies and whose every row has its file, with length and hash, below the root |
| Restore.DataDirectory.RebaseRows | src/sfss/operations.py:568-580 | succeeds exactly when every path is inside, and then every row is rebased |
| Restore.RestoreArchive | src/sfss/operations.py:560-598 | the whole restore decides and produces what the specification says: success exactly for an intact archive, and then every row has its file at the destination |
| Sessions.EvictionKeepsNewest | src/sfss/auth.py:150-155 | the eviction query revokes exactly the live sessions that at least cap newer ones precede, and changes nothing else |
| Sessions.EvictionCaps | src/sfss/auth.py:150-155 | after an eviction the user has at most cap live sessions, whatever the table held |
| Sessions.CapAlwaysHolds | src/sfss/auth.py:131-164 | in every run no user exceeds the cap |
| Sessions.RevokedStaysOut | src/sfss/auth.py:166-199 | a revoked session never authenticates again, after any run |
| Sessions.SessionWindow | src/sfss/auth.py:166-191 | over every run a session issued at t is admitted exactly while it stands unrevoked, its user is active, before t + ttl, before the last successful authentication + idle, at its own entrance or issued at the development one |
| Sessions.WhatSpends | src/sfss/auth.py:173-190 | a failed authentication revokes the session exactly when it was invalid, not when only the entrance was wrong |
| Sessions.FreshSurvives | src/sfss/auth.py:143-155 | the fresh session survives its own eviction exactly when fewer than cap live ones are dated later |
| Sessions.FreshIsEvicted | src/sfss/auth.py:143-155 | a run of two logins with the clock running backwards and room for one: the second evicts the session it has just created |
| Sessions.FreshAuthenticates | src/sfss/auth.py:131-191 | with a clock that does not run backwards a session authenticates the moment it is issued |
| Sessions.IssueAdds | src/sfss/auth.py:143-155 | row by row what an issue makes of the table |
| Sessions.PersistentSessions.EvictOldest | src/sfss/auth.py:150-155 | sorting and cutting off, as the statement does it |
| Sessions.PersistentSessions.IssueSession | src/sfss/auth.py:131-164 | insert and evict, or nothing, and which; exactly for an active user and, with local accounts, a matching credential |
| Sessions.PersistentSessions.AuthenticateToken | src/sfss/auth.py:166-191 | admits exactly an unrevoked row of an active user that is neither expired nor idle, at its entrance; touches that row, revokes an unusable one, and changes no other |
| Sessions.PersistentSessions.RevokeToken | src/sfss/auth.py:193-196 | revokes the rows of the token |
| Sessions.PersistentSessions.RevokeUserSessions | src/sfss/auth.py:198-199 | revokes the rows of the user |
| Sessions.PersistentSessions.PurgeInvalid | src/sfss/service.py:1166-1172 | deletes exactly the revoked or expired rows, keeping order, and counts them |
| Download.RangesAreStandard | src/sfss/server.py:338-355 | a well-formed single range with readable numbers selects the positions section 14.1.2 of RFC 9110 gives it, and one with a longer number is unsatisfiable |
| Download.RangeIsServed | src/sfss/server.py:330-392 | what every request with a legible range, or none, gets: status and exact bytes, with If-Range, HEAD and a file of another size |
| Download.DeviatesFromStandard | src/sfss/server.py:337-355 | an applying header is answered otherwise than sections 14.1 and 14.2 of RFC 9110 allow exactly when it has another unit, or a satisfiable range in a list, under a unit not in lower case, or with a number too long to read |
| Download.ServedIsSlice | src/sfss/server.py:333-390 | every request is refused or served exactly one non-empty slice, the whole file only when no range applies |
| Download.RespondDownload | src/sfss/server.py:330-392 | negotiation and block loop send what the specification says |
| Download.Agent.Download | src/sfss/agent.py:324-369 | only a file with the recorded size and digest becomes the output; anything else stays in the partial file; which outcome each case has |
| Download.ResumptionIsExact | src/sfss/agent.py:293-359 | from a correct prefix, through any interruptions and either status, the partial file stays a prefix and a whole transfer completes it |
| Download.WrongPrefixStaysWrong | src/sfss/agent.py:331-359 | an undisturbed resumption gives the object's bytes exactly when the partial file was a prefix |
| Scanner.TailIsEnough | src/sfss/scanners.py:44-48 | keeping the last signature length minus one bytes loses no occurrence and invents none |
| Scanner.Scan | src/sfss/scanners.py:38-49 | for every split into blocks, infected exactly when the signature occurs in the whole file |

## Left out

- HTTP routing, headers, cookies, metrics, static files and the browser code: no invariant beyond the range logic.
- TLS, LDAP, ClamAV, YARA and the relay transport: foreign calls; scanners, classifier and approval provider are choices of the environment.
- The relay provider's request (src/sfss/approvals.py:48 reads a `project_id` that schema version 3 does not have, so it raises): submission is a choice that succeeds or raises.
- Configuration validation and the runtime fingerprint: one flag that may change at any step.
- Filename, CIDR, role and credential checks, directory synchronisation, file type detection: flat conditions that would add easy members; where they can refuse, the step has a refusal.
- Permissions, symbolic links, inode fingerprints, concurrent mutation of files being read: a payload has bytes and a sealed flag.
- SQL and JSON text: rows are records; the exporter's dump and the verifier's load are parameters assumed to be inverse on exported records. The canonical array that is hashed is modelled character by character, above the UTF-8 encoding.
- Other sessions, objects and transfers appear in the upload machine as foreign steps with other identifiers, and not at all in the other two: they share only tables keyed by identifier. Random identifiers and tokens never repeat.
- Several reads made under a session's lock are one step; rmtree is one step; time limits are choices of the environment.
- An operation that raises has had no effect; one that raises halfway (a seal whose time stamps are not recorded, an unlink whose directory stays) counts as done, and the exception as that of the next step. A file that exists and cannot be opened is not modelled apart from one that is damaged.
- Outsiders rewrite payload files in the machines, and do not delete them.
- The receive loop of a part before its critical section: the thread starts with a complete, verified temporary file of planned size.
- Admission.UploadSessions.BeginCreation: the user's count and staged bytes and the received bytes are three statements in the service and one step here; only the received bytes make a difference when a session ends in between.
- Admission.ReserveIsKept: starts from a volume whose free space is at least the reserve; direct uploads and other writers are the `outside` count, and a removed file gives its space back at once, open or not.
- AuditChain.Store.ExecuteAudited: that SQLite rolls a failed transaction back is assumed, here and in the counted form; what is proved is that the chain stays intact on either outcome.
- QueueService.SQLiteJobQueue.FinishWork: worker threads, condition variables and the heartbeat's timing are not modelled; renewals and late workers are steps that may come at any time.
- Callback endpoint: the signature and the nonce's form are one flag of the request; two inserts of one nonce at the same time are one step; a malformed body, refused behind the nonce, acts like one that names another transfer.
- A dead-letter handler may be lost to a crash after the row has failed: the queue says that it is due at most once, and the record is then quarantined by the next startup.
- Download.Agent.Download: manifest signatures and file identity checks against concurrent replacement are left out.
- Restore.RestoreArchive: tar member checks, the archive digest and disk headroom are left out.
- Deployment scripts, preflight and release manifests: not core code.

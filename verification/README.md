# Verified models of the contest orchestrator

The orchestrator runs programming contests on a Hydro judge: a Hydro addon accepts submissions,
rewrites contests to file I/O and publishes materials; install scripts switch Caddy and the
controller container; small tools batch notifications, seal capacity evidence and edit one YAML key.
This project models the parts of it that must survive crashes, retries and interleaving, and proves
what they keep.

The source's form is followed: code that updates objects, lists and files step by step is a class or
a method with loops, proved against functions and predicates; interleaved handlers are state machines
cut at their awaits. Everything is stated for all inputs and all runs.

| module | what it models |
|---|---|
| `Basics` | an option type and distinctness, shared by the models |
| `InputNormaliser` | the streaming normaliser of test data, and the batch form it must equal |
| `JournalStore` | the pruned, crash-safe journals of the addon |
| `SubmissionProtocol` | submit and status requests over the submission journal, with crashes and throwing saves |
| `SubmissionSafety`, `SubmissionOwners`, `SubmissionCounters`, `SubmissionProgress` | what every run of that protocol keeps |
| `SubmissionSteps`, `SubmissionEvidence`, `SubmissionRecords` | where each event may leave its request, and which earlier event earns each thing an entry says |
| `SubmissionReplies` | what requests are told |
| `SubmissionLimits`, `SubmissionEviction` | crash-free runs that show where its guarantees end |
| `ContestLocks` | leases and mutations per contest |
| `ProblemDraftMapping`, `ProblemDraftSwap`, `ProblemDraftSafety` | cloning a contest's problems and switching to the clones |
| `ProblemDraftEvidence` | what the links and checks of a switch rest on |
| `ProblemDraftRetry` | a retry of that switch, from wherever earlier attempts died |
| `MaterialPublication` | publishing the two contest attachments |
| `TextLines` | lines, stripping and occurrence counts of strings |
| `CaddyTransform`, `CaddyHardening`, `CaddyResults`, `CaddyEditor` | the Caddyfile edit |
| `CaddyCommit`, `ClosedFrontend` | conditional config replacement; the closed-frontend phase and its rollback |
| `ControllerPhase` | replacing and restoring the controller container |
| `NotificationBatch` | the fair batches of seat notifications |
| `LineBreaks` | text as lines that end in LF, CR or CRLF |
| `YamlMerge`, `YamlEditor`, `YamlResults` | the one-key YAML edit, and what the edited file says |
| `SamplingChain` | the capacity session |

What the proofs found:

- `updateStatus` is called once per reservation plus once per late takeover. A sibling request that
  passed the first check before the reservation existed and resumes after the first request failed
  is such a takeover (hydro-plugin-orchestrator/index.js:2363-2405); `OverlapCallsTwice` is that run.
- An entry may be marked updated, and its submit answered, without any record: when `RecordModel.add`
  throws, a sibling request that was waiting for its own checks takes the entry over with an empty
  record id (hydro-plugin-orchestrator/index.js:2363-2405). `UpdatedHasRecord` says that nothing else
  leads there, `TakeoverWithoutRecord` is the run.
- The bound on a counter, one call per process and throw, holds where no submit of an id overlaps a
  status query of it; submits among themselves, and queries among themselves, are serialised by the
  addon (`OneAtWork`) and may overlap. Neither half of that condition can be dropped, each shown by a
  run without crash, thrown counter call or overlapping submits: in `OverlapCountsTwice` a query starts
  beside a submit that waits in `updateStatus`, in `RetryCountsTwice` a submit is retried beside a query
  (hydro-plugin-orchestrator/index.js:495-525, 549-617 and 2268-2309).
- An id is added to the judge again once its completed entry was evicted, even under another payload:
  `AtMostOneAdd` bounds the adds of an id by one more than its evictions, and `EvictedIsAddedAgain`
  reaches the bound for every journal limit (hydro-plugin-orchestrator/index.js:320-330, 2363-2406).
- Attachments are overwritten before the marker moves (hydro-plugin-orchestrator/index.js:2039-2083), so
  a second publication that dies leaves the marker of the first over other bytes: `OldMarkerNewBytes`;
  `BytesStay` says exactly when the marker's bytes are still there. A retry repairs it.
- The last coverage check of `resolveContestProblemDraft` can never fail: as many distinct documents
  of the contest as it lists are all of it (hydro-plugin-orchestrator/index.js:1344-1346).
- On a Caddyfile without the marker, exactly one top-level block per target and at most one import do
  not suffice: a target's header must not be an unfinished last line. `SucceedsExactly` has the whole
  condition; `OneBlockEachMayFail` gives, for every domain and path, a file that meets the first two
  and fails, and `UnfinishedHeaderFails` is one such file spelt out.
- In the controller rollback the last stop is never reached without outside interference
  (scripts/apply_v1_controller.py:361-367).

Assumptions shared by the models: hashes (fingerprints, preflight ids, publication ids) are injective,
so a value stands for its own hash; equal ETags mean equal configs (RFC 9110, sections 13.1.1 and
15.5.13); writing a temporary file and renaming it is one atomic write that may also throw on either
side of the rename; one database or Docker call is one atomic step that may fail.

## Model

| member | source | states |
|---|---|---|
| `InputNormaliser.NormalizedInputSha256` | hydro-plugin-orchestrator/index.js:1108-1198 | for every way of cutting the bytes into chunks the bytes hashed are the canonical form of their concatenation, and it raises exactly when that concatenation is over budget or has an overlong line |
| `InputNormaliser.ConvertIsReplace` | orchestrator/services/artifact_generation.py:211 | the one-pass conversion of CR and CRLF equals the two replacements of the batch form |
| `InputNormaliser.ConvertAppend` | hydro-plugin-orchestrator/index.js:1176-1193 | converting in two chunks with the carried CR flag equals converting at once, wherever the cut falls |
| `InputNormaliser.SplitAppend` | hydro-plugin-orchestrator/index.js:1160-1169 | lines of a concatenation are the lines of both parts, the last and first glued |
| `InputNormaliser.EmittedStep` | hydro-plugin-orchestrator/index.js:1131-1151 | one more line keeps the hashed bytes plus the deferred separators equal to the joined, right-stripped and left-stripped lines so far |
| `InputNormaliser.OverlongStays` | hydro-plugin-orchestrator/index.js:1152-1159 | a line too long in a prefix stays too long in every extension, so raising early loses nothing |
| `InputNormaliser.CanonicalIsTidy` | hydro-plugin-orchestrator/index.js:1131-1151 | no line of the hashed bytes ends in one of the six blank bytes, and they neither begin nor end with one |
| `InputNormaliser.OnlyBlanksGo` | orchestrator/services/artifact_generation.py:211-212 | all other bytes are hashed, in their order |
| `InputNormaliser.Normaliser.HashSeparators` | hydro-plugin-orchestrator/index.js:1123-1130 | hashes exactly the deferred line breaks and leaves none pending |
| `InputNormaliser.Normaliser.AppendLinePart` | hydro-plugin-orchestrator/index.js:1152-1159 | extends the current line, failing exactly when it gets too long |
| `InputNormaliser.Normaliser.FinishLine` | hydro-plugin-orchestrator/index.js:1131-1151 | closes the current line and keeps the hashed bytes tied to the finished lines |
| `InputNormaliser.Normaliser.ProcessNormalized` | hydro-plugin-orchestrator/index.js:1160-1169 | splits a converted chunk into the lines carried over, failing exactly when some line is too long |
| `InputNormaliser.Normaliser.ConvertChunk` | hydro-plugin-orchestrator/index.js:1176-1193 | converts one chunk and records whether it ended in CR |
| `InputNormaliser.Normaliser.Feed` | hydro-plugin-orchestrator/index.js:1172-1195 | after a chunk the state is a function of all bytes so far |
| `JournalStore.Journal.Prune` | hydro-plugin-orchestrator/index.js:320-330 | drops only completed entries, exactly the excess or all completed ones, none newer than a completed one it keeps |
| `JournalStore.Journal.Save` | hydro-plugin-orchestrator/index.js:332-362 | memory is pruned; the file becomes that memory unless the throw comes before the rename |
| `JournalStore.Journal.Load` | hydro-plugin-orchestrator/index.js:252-264 | a restart brings back exactly the stored entries, takes an absent file for an empty journal, and refuses exactly an unreadable file or one of another version |
| `JournalStore.Journal.RemoveAll` | hydro-plugin-orchestrator/index.js:327-329 | deletes exactly the listed entries |
| `JournalStore.SortKeeps` | hydro-plugin-orchestrator/index.js:323-325 | the sorted removable entries are the same ones, oldest first |
| `JournalStore.DroppingOldestPrunes` | hydro-plugin-orchestrator/index.js:323-329 | removing the front of the completed entries sorted by age is a legal pruning |
| `JournalStore.PrunedSize` | hydro-plugin-orchestrator/index.js:364-374 | after a pruning the journal is within its limit or holds only incomplete entries, and every incomplete entry is still there |
| `JournalStore.PruningExists` | hydro-plugin-orchestrator/index.js:320-330 | there is always a legal pruning, whatever the entries and the limit |
| `SubmissionSafety.AtMostOneAdd` | hydro-plugin-orchestrator/index.js:2363-2406 | in every interleaving with crashes anywhere, each reservation gets at most one `RecordModel.add`; one that was added and not evicted is in memory and on disk under the same payload; so an id has at most one add more than evicted reservations |
| `SubmissionSafety.AddIsReservedFirst` | hydro-plugin-orchestrator/index.js:2365-2400 | an add is issued only for an id without entry, whose earlier adds were all for entries since evicted, and after its reservation has reached the disk without a record id |
| `SubmissionSafety.EvictedWasComplete` | hydro-plugin-orchestrator/index.js:320-330 | every evicted reservation was complete at some time before, and both its counter calls had returned |
| `SubmissionSafety.ReservedIsDurable` | hydro-plugin-orchestrator/index.js:2381-2384 | the save of a reservation keeps it and writes it, so the add that follows is durable and new; any earlier add of the id was for an evicted entry |
| `SubmissionSafety.UpdateStatusCalls` | hydro-plugin-orchestrator/index.js:495-511 | all `updateStatus` calls of a run differ, and a reservation gets at most one plus one per takeover |
| `SubmissionSafety.RecoveryNeverUpdates` | hydro-plugin-orchestrator/index.js:497-507 | a recovery or a status query never calls `updateStatus`, so it cannot reset a judged row |
| `SubmissionSafety.AtMostOneUpdateStatus` | hydro-plugin-orchestrator/index.js:2265-2309 | when submits of one id do not overlap, at most one call per reservation over all crashes, retries and status queries |
| `SubmissionSafety.RunKeeps` | hydro-plugin-orchestrator/index.js:2249-2418 | the joint invariant of memory, disk, handlers and observations holds in every reachable world |
| `SubmissionSafety.ApplyKeeps` | hydro-plugin-orchestrator/index.js:549-617 | every event, its save and what follows keep that invariant |
| `SubmissionSafety.NothingIsExcluded` | hydro-plugin-orchestrator/index.js:332-362 | what an event needs beside its guard is a legal pruning for its save; in every reachable world there is one, so no behaviour is excluded |
| `SubmissionSteps.ApplyLands` | hydro-plugin-orchestrator/index.js:2249-2418 | after every event of a reachable world its handler is gone or stands where that event and what it found allow - a recovery only with a record, a reservation only admitted, in the window and with nobody else at work, an effect only if its flag is not set - and nobody else has moved |
| `SubmissionEvidence.StatusIsEarned` | hydro-plugin-orchestrator/index.js:497-511 | in every run, an entry in memory or on disk marked `statusUpdated` had an earlier event for that very reservation: `updateStatus` returned, the contest journal was read and held the row, or a query found an agreeing result |
| `SubmissionEvidence.RecordIsEarned` | hydro-plugin-orchestrator/index.js:2385-2404 | a record id in an entry was returned by `RecordModel.add` for that reservation, or found by a query whose result agreed |
| `SubmissionEvidence.CountIsEarned` | hydro-plugin-orchestrator/index.js:512-521 | a counter an entry counts was moved by a call for that reservation that returned |
| `SubmissionEvidence.EntryIsAdmitted` | hydro-plugin-orchestrator/index.js:2316-2364 | every entry was reserved by a submit of its id and payload that passed its checks, in the window |
| `SubmissionEvidence.CompletionIsShown` | hydro-plugin-orchestrator/index.js:495-525 | a completed entry had its row written or found and each counter moved, all for that reservation |
| `SubmissionRecords.HandlerStarted` | hydro-plugin-orchestrator/index.js:2249-2316 | whoever is under way asked for that id, and for that payload if it submits |
| `SubmissionRecords.ResultWasFound` | hydro-plugin-orchestrator/index.js:585-600 | a query that compares a result found that record before, for an entry that had none or the same |
| `SubmissionRecords.UpdatedHasRecord` | hydro-plugin-orchestrator/index.js:2363-2406 | an entry marked updated names its record unless a submit took it over; where submits of an id do not overlap it always does |
| `SubmissionReplies.AnsweredAtTheEnd` | hydro-plugin-orchestrator/index.js:549-617 | a request is told something exactly when it ends |
| `SubmissionReplies.ConflictIsExact` | hydro-plugin-orchestrator/index.js:2249-2256 | a submit is refused as conflicting exactly when another payload has its id, in the journal or in flight |
| `SubmissionReplies.SharesItsOwn` | hydro-plugin-orchestrator/index.js:2257-2260 | a reply is shared only with a request of the same kind, id and payload that is under way |
| `SubmissionReplies.RefusalsTouchNothing` | hydro-plugin-orchestrator/index.js:497-503 | whoever is told anything but a receipt or a failure - a missing journal row, a contradicted record, a conflict - has changed no entry, no file and called nothing |
| `SubmissionReplies.ReceiptIsEarned` | hydro-plugin-orchestrator/index.js:2261-2264 | a receipt is given only for a completed entry of the request's own id and payload, under the entry's record or the one just found |
| `SubmissionOwners.OneAtWork` | hydro-plugin-orchestrator/index.js:634-641 | in every run two requests of one kind never hold an entry of one id at a time: submits of an id are serialised, and so are its status queries |
| `SubmissionOwners.OwnersRun` | hydro-plugin-orchestrator/index.js:2254-2309 | whoever holds an entry is the one marked as at work on its id, in every reachable world |
| `SubmissionCounters.CountersBounded` | hydro-plugin-orchestrator/index.js:512-523 | when no submit of an id overlaps a status query of it, each counter of a reservation is called at most once, plus the restarts since that reservation, plus thrown calls; submits may overlap each other, and so may queries |
| `SubmissionCounters.CompletionIsEarned` | hydro-plugin-orchestrator/index.js:512-523 | in every run a completed entry, in memory or on disk, had each of its counter calls return; `CompletionIsShown` adds its status |
| `SubmissionCounters.BoundRun` | hydro-plugin-orchestrator/index.js:495-525 | under the same condition the bound holds in every world of a run, counting a call as spent once its flag is set or its request is still under way |
| `SubmissionProgress.FlagsOnlyRise` | hydro-plugin-orchestrator/index.js:495-525 | within a process no entry loses a flag, no step takes one from the disk, and a crash brings back exactly what the disk held |
| `SubmissionProgress.FlagsRiseOverRuns` | hydro-plugin-orchestrator/index.js:332-362 | over any stretch that keeps a reservation on disk its flags only go up |
| `SubmissionLimits.OverlapCallsTwice` | hydro-plugin-orchestrator/index.js:2338-2406 | for every id, payload and two requests there is a crash-free run in which one resident reservation is given to `updateStatus` twice |
| `SubmissionLimits.TakeoverWithoutRecord` | hydro-plugin-orchestrator/index.js:2363-2406 | for every id, payload and two handlers there is a run without crash that ends with an entry marked updated and without a record |
| `SubmissionLimits.OverlapCountsTwice` | hydro-plugin-orchestrator/index.js:549-617 | for every id, payload and two handlers there is a run without crash or throw, where submits never overlap and none starts beside a query, in which a query started beside a submit moves one counter of one reservation a second time |
| `SubmissionLimits.RetryCountsTwice` | hydro-plugin-orchestrator/index.js:2268-2309 | the same in a run where submits never overlap and no query starts beside a submit: the first submit gave up when `updateStatus` threw, and its retry starts beside a query |
| `SubmissionEviction.EvictedIsAddedAgain` | hydro-plugin-orchestrator/index.js:2363-2406 | for every limit, id, two payloads and as many other ids there is a run without crash that completes the id, evicts it and adds it again: two adds, one eviction |
| `ContestLocks.Locks.AcquireSubmissionLease` | hydro-plugin-orchestrator/index.js:1625-1630 | throws exactly under a mutation, otherwise adds one lease, and changes nothing on failure |
| `ContestLocks.Locks.ReleaseSubmissionLease` | hydro-plugin-orchestrator/index.js:1632-1636 | takes one lease away and drops the contest at zero |
| `ContestLocks.Locks.AcquireMutation` | hydro-plugin-orchestrator/index.js:1638-1654 | throws exactly under a mutation or a live lease, otherwise takes the contest |
| `ContestLocks.Locks.ReleaseMutation` | hydro-plugin-orchestrator/index.js:1930-1932 | takes the contest out of its own kind's collection and touches nothing else |
| `ContestLocks.MutualExclusion` | hydro-plugin-orchestrator/index.js:1780-1932 | in every interleaving at most one mutation per contest, never beside a lease, and the lease count is the number of submissions inside |
| `ContestLocks.AcquireIsExact` | hydro-plugin-orchestrator/index.js:2316-2416 | an acquire succeeds exactly when nobody inside stands in its way; a failed one frees nobody |
| `ContestLocks.NothingLeaks` | hydro-plugin-orchestrator/index.js:1987-2097 | once all handlers left, all three collections are empty |
| `ProblemDraftMapping.ResolveContestProblemDraft` | hydro-plugin-orchestrator/index.js:1305-1348 | succeeds exactly when the counts agree and no item has a fault; the answer then pairs the contest list, in its order, one to one with the request; otherwise the error is the first faulty item's: pid, derived problem, config type, raw config, or its formal inputs |
| `ProblemDraftMapping.InContestOrder` | hydro-plugin-orchestrator/index.js:1347-1348 | the lookup lists the resolved items by the contest list |
| `ProblemDraftMapping.PigeonholeCovers` | hydro-plugin-orchestrator/index.js:1344-1346 | as many distinct documents of the contest as it lists are all of it, and the list has no duplicates |
| `ProblemDraftMapping.RemapPidRecord` | hydro-plugin-orchestrator/index.js:906-915 | the loop computes the remapped record |
| `ProblemDraftMapping.RemapUpToIs` | hydro-plugin-orchestrator/index.js:906-915 | with distinct targets each target has exactly its source's value and there are no other keys |
| `ProblemDraftMapping.RemapRoundTrip` | hydro-plugin-orchestrator/index.js:885-915 | remapping there and back restores the record exactly when it only has source keys, which the snapshot check demands |
| `ProblemDraftSafety.SourceOrTarget` | hydro-plugin-orchestrator/index.js:1854-1916 | in every run a contest holds its original list and records, or one clone per problem in order, made for it, with the records moved along and recoverable by moving them back |
| `ProblemDraftSafety.SwitchOnce` | hydro-plugin-orchestrator/index.js:1894-1925 | once switched the list, records and marker never change again |
| `ProblemDraftEvidence.SwitchIsApproved` | hydro-plugin-orchestrator/index.js:1868-1916 | every switch happens while the contest is open to it and follows, with no step of the worker between, a recheck that derived the approved snapshot anew; it replaces the approved list by clones the journal on disk already names, each of which an earlier copy step of that operation compared with its source, in agreement |
| `ProblemDraftEvidence.VerifiedIsCopied` | hydro-plugin-orchestrator/index.js:1846-1848 | every link marked verified, in memory or on disk, had an earlier copy step of its operation at that clone whose comparison agreed |
| `ProblemDraftEvidence.LinkIsEarned` | hydro-plugin-orchestrator/index.js:1437-1482 | every link names a clone that its operation made for the item, or found there clean and its own |
| `ProblemDraftEvidence.SourceIsDerived` | hydro-plugin-orchestrator/index.js:1802-1826 | the sources an entry records are those of the approved snapshot, derived admissible from the contest |
| `ProblemDraftEvidence.ForeignRequestIgnored` | hydro-plugin-orchestrator/index.js:1736-1740 | a request under an operation first used for another one changes nothing |
| `ProblemDraftSafety.StepCore` | hydro-plugin-orchestrator/index.js:1894-1916 | in any world whatsoever, a step changes the list, records or marker only if it is the conditional edit, while the list and records still are those the entry recorded |
| `ProblemDraftSafety.AnswersAgree` | hydro-plugin-orchestrator/index.js:1673-1681 | every answer ever given is the one mapping of the one switch |
| `ProblemDraftSafety.RetryIsRecognised` | hydro-plugin-orchestrator/index.js:1783-1801 | after the switch, wherever the process died, a retry of the request is told that mapping unless its entry was evicted; nothing is ever rederived after a switch |
| `ProblemDraftSafety.EvictedWasComplete` | hydro-plugin-orchestrator/index.js:398-408 | only a completed entry can have been evicted, so a crash before completion always leaves it resident |
| `ProblemDraftSafety.ApplyKeeps` | hydro-plugin-orchestrator/index.js:1722-1944 | every step of the worker, other requests, outside edits and crashes keep the invariant |
| `ProblemDraftSafety.FindNext` | hydro-plugin-orchestrator/index.js:1829-1850 | the saved link of an item is found at the item's own position or not at all |
| `ProblemDraftSafety.AlwaysReady` | hydro-plugin-orchestrator/index.js:1722-1944 | in every reachable world a working attempt has its own entry resident under its request, its links inside that entry and the clone it copies in place, so the runs leave no behaviour out on that account |
| `ProblemDraftRetry.RetryConverges` | hydro-plugin-orchestrator/index.js:1722-1944 | before the switch, from any reachable idle world in which the approved snapshot derives again, one undisturbed retry switches the contest under its marker and is told the mapping |
| `ProblemDraftRetry.RunPends` | hydro-plugin-orchestrator/index.js:1810-1854 | until the switch, memory and disk agree on every request, every saved link names an existing clone, and every clone was made for an item of an entry on disk |
| `MaterialPublication.MarkerAndFilesAgree` | hydro-plugin-orchestrator/index.js:2013-2028 | in every run no marker and no reserved file, or an owned marker and each reserved file once; no conflict is ever met and other private files stay in order |
| `MaterialPublication.PublishedIsVerified` | hydro-plugin-orchestrator/index.js:839-858 | every time `published` is answered, marker, file entries and stored bytes are the request's; nothing else answers it |
| `MaterialPublication.EditIsOpen` | hydro-plugin-orchestrator/index.js:2056-2083 | right before every edit, with no step of the worker between, a re-read found the contest not begun and marker and files fitting |
| `MaterialPublication.AnswerIsOpen` | hydro-plugin-orchestrator/index.js:1987-2007 | every `published` belongs to an attempt that found the contest not begun: by the read that found all in place, or by the re-read before its own edit |
| `MaterialPublication.ClosedStops` | hydro-plugin-orchestrator/index.js:1992-1995 | once the contest has begun a read or re-read ends the attempt and leaves everything as it is; an upload that cannot be read back never goes on |
| `MaterialPublication.RetryConverges` | hydro-plugin-orchestrator/index.js:1987-2091 | from wherever a run stopped, one undisturbed retry of any publication before the start ends in `published` |
| `MaterialPublication.BytesStay` | hydro-plugin-orchestrator/index.js:2039-2083 | between two edits the marker stays, and its publication has been verifiable throughout exactly if every upload since the edit wrote that publication's bytes |
| `MaterialPublication.OldMarkerNewBytes` | hydro-plugin-orchestrator/index.js:2039-2083 | from any reachable idle world one publication, then another with a different statement that dies after its first upload, leaves the first marker over the second statement |
| `MaterialPublication.EditSettles` | hydro-plugin-orchestrator/index.js:2079-2090 | the edit leaves each reserved file once, behind the untouched others, verified |
| `CaddyTransform.Idempotent` | scripts/apply_v1_closed_frontend.py:113-116 | for every input, what the edit returns it returns unchanged |
| `CaddyTransform.HardenedIdentity` | scripts/apply_v1_closed_frontend.py:88-96 | where every target's block carries the rule nothing is inserted |
| `CaddyHardening.HeadersKept` | scripts/apply_v1_closed_frontend.py:74-97 | the insertions are balanced, so every top-level header of the file stays one and none appears |
| `CaddyHardening.InsideKept` | scripts/apply_v1_closed_frontend.py:83-87 | inside braces nothing is inserted and a block ends at the same line |
| `CaddyHardening.RuleOnce` | scripts/apply_v1_closed_frontend.py:119-141 | each hardened block matches the rule pattern exactly once |
| `CaddyHardening.MarkersAdded` | scripts/apply_v1_closed_frontend.py:142-143 | one marker per top-level header |
| `CaddyResults.SucceedsExactly` | scripts/apply_v1_closed_frontend.py:67-116 | without a marker, the edit succeeds exactly when each target heads one top-level block, the import is there at most once and no such header is an unfinished last line |
| `CaddyResults.OnlyInserts` | scripts/apply_v1_closed_frontend.py:101-112 | taking the rule out of the result gives back the input, up to a final newline and the import |
| `CaddyResults.RuleFollowsHeader` | scripts/apply_v1_closed_frontend.py:88-97 | in every result, right behind a header of each target stand the four lines of the rule, written out, that answer 404 to submissions |
| `CaddyResults.LoneFails` | scripts/apply_v1_closed_frontend.py:101-102 | a header that is an unfinished last line always makes the edit fail |
| `CaddyResults.OneBlockEachMayFail` | scripts/apply_v1_closed_frontend.py:101-116 | for every domain and path there is a file with one top-level block per target and no import on which the edit fails |
| `CaddyResults.UnfinishedHeaderFails` | scripts/apply_v1_closed_frontend.py:101-116 | such a failure at one text written out |
| `CaddyEditor.HardenCaddyfile` | scripts/apply_v1_closed_frontend.py:67-116 | the scan and the reversed list insertions compute the specified edit, errors included |
| `CaddyEditor.Scan` | scripts/apply_v1_closed_frontend.py:74-97 | one pass finds the targets and collects the specified insertions |
| `CaddyEditor.BlockLength` | scripts/apply_v1_closed_frontend.py:83-87 | the lines of a block until the depth returns to zero |
| `CaddyEditor.InsertAll` | scripts/apply_v1_closed_frontend.py:101-102 | applies the insertions last to first |
| `CaddyEditor.HeaderIndices` | scripts/apply_v1_closed_frontend.py:122-125 | lists a target's top-level headers and finds its block |
| `CaddyEditor.HardenOnce` | scripts/apply_v1_closed_frontend.py:119-144 | the final check, block by block, as specified |
| `CaddyEditor.WovenIs` | scripts/apply_v1_closed_frontend.py:101-102 | inserting from the last position to the first puts each rule right after its header |
| `CaddyCommit.Admin.Commit` | scripts/commit_v1_caddy_config.py:77-88 | under any foreign writes it replaces only the expected config and only by the desired one; success means that a read after the post found that one in place; undisturbed it succeeds exactly from the expected config |
| `CaddyCommit.Admin.Restore` | scripts/commit_v1_caddy_config.py:91-107 | replaces only the desired config and only by the baseline; success means that its last request read the baseline; undisturbed it succeeds exactly from one of the two |
| `CaddyCommit.Admin.Post` | scripts/commit_v1_caddy_config.py:82-85 | an If-Match post changes exactly the config its tag names, or is answered 412 |
| `CaddyCommit.Admin.Get` | scripts/commit_v1_caddy_config.py:59-64 | reads the config with the tag that names it, changing nothing of its own |
| `ClosedFrontend.Host.Apply` | scripts/apply_v1_closed_frontend.py:219-260 | wherever it dies, each live object is the baseline or what a transaction file on disk says; completed, all three are the desired ones; undisturbed it completes exactly if the Caddyfile can be hardened, Caddyfile and active config are the baseline, Caddy adapts the baseline to that config and the candidate at all, and an earlier desired config is the same |
| `ClosedFrontend.Host.WriteAhead` | scripts/apply_v1_closed_frontend.py:234-238 | the transaction files are written once, ahead of the live ones |
| `ClosedFrontend.Host.Publish` | scripts/apply_v1_closed_frontend.py:251-257 | snippet, desired config, Caddyfile and commit, each covered by a transaction file; undisturbed it completes exactly if the candidate adapts, to the desired config already written if there is one |
| `ClosedFrontend.Host.Rollback` | scripts/apply_v1_closed_frontend.py:263-307 | completed, all three objects are the baseline; undisturbed it always completes |
| `ClosedFrontend.AnyHistory` | scripts/apply_v1_closed_frontend.py:219-307 | after any sequence of attempts dying anywhere, one undisturbed rollback restores Caddyfile, snippet or its absence, and active config |
| `ControllerPhase.Host.Apply` | scripts/apply_v1_controller.py:374-398 | wherever it dies the baseline container is there exactly once, put aside only when stopped, and no file was changed under a running controller; completed, the new controller was started on the given config and env; with changes enough it completes exactly if every comparison agrees |
| `ControllerPhase.Host.Rollback` | scripts/apply_v1_controller.py:336-371 | completed, the baseline container is back and stopped, or none is there, and the files are the backup's; eight changes always suffice |
| `ControllerPhase.Host.RestoreFile` | scripts/apply_v1_controller.py:233-245 | one file becomes the backup's, or absent if it was |
| `ControllerPhase.Host.RestoreFiles` | scripts/apply_v1_controller.py:350-355 | with no controller running, all five files become the backup's |
| `ControllerPhase.Host.Quiesce` | scripts/apply_v1_controller.py:338-349 | the plan's own controller is stopped and removed, a baseline one stopped |
| `ControllerPhase.Host.Cleanup` | scripts/apply_v1_controller.py:401-412 | removes only the retained stopped baseline, and only beside the plan's running controller |
| `ControllerPhase.AnyHistory` | scripts/apply_v1_controller.py:336-398 | after any sequence of attempts dying anywhere, one rollback left alone reaches the baseline, and no file was ever changed while a controller ran |
| `NotificationBatch.Store.NotifyReleasedSeats` | orchestrator/main.py:315-498 | one run queues every prepared seat, sorts what is open, takes three and marks each outcome; without a gateway every job of the batch is marked for retry |
| `NotificationBatch.Store.NotifyRepeatedly` | orchestrator/main.py:593-595 | the runs the scheduler makes one after the other leave what repeated queueing and rounds specify |
| `NotificationBatch.Store.QueueJobs` | orchestrator/main.py:337-380 | queues each seat that could be prepared, leaves rows that exist, skips a seat whose preparation failed, and lists those still open |
| `NotificationBatch.Store.MarkBatch` | orchestrator/main.py:392-498 | marks each job of the batch with its outcome, or for retry where there is no gateway |
| `NotificationBatch.Store.MarkSeatNotification` | orchestrator/services/store.py:1894-1921 | adds an attempt and sets the state, or reports a missing row |
| `NotificationBatch.SortSorts` | orchestrator/main.py:382-389 | the sort is sorted by the key and a permutation |
| `NotificationBatch.BatchIs` | orchestrator/main.py:382-390 | the batch is three different waiting notifications, or all, and none left out has fewer attempts |
| `NotificationBatch.QueueSettles` | orchestrator/services/store.py:1850-1892 | notifications queued for the first time start without attempts, and once all are queued a further run queues nothing |
| `NotificationBatch.QueueKeeps` | orchestrator/services/store.py:1850-1882 | queueing keeps every row and adds, for a prepared seat without one, a pending row of that seat, of now, without attempts |
| `NotificationBatch.RunReports` | orchestrator/services/store.py:1894-1919 | a run leaves a row as it is or makes its state report how the delivery went, one attempt more; without a gateway, that it is to be retried |
| `NotificationBatch.TriedIsMarked` | orchestrator/main.py:400-498 | each notification a run takes then reports how its delivery went |
| `NotificationBatch.ClosedStays` | orchestrator/main.py:360-364 | what was sent, or refused for good, is never touched again |
| `NotificationBatch.StateWasReported` | orchestrator/services/store.py:1902-1906 | a row is marked sent only by a run whose gateway was there and delivered it, and failed for good only by one that was told so |
| `NotificationBatch.NotifiedIs` | orchestrator/main.py:315-498 | repeated runs over the same seats queue only the first time; afterwards they are plain rounds |
| `NotificationBatch.AttemptsEven` | orchestrator/main.py:472-498 | after any number of failing rounds, for want of a gateway or otherwise, the attempts of any two differ by at most one and every round spent all it had |
| `NotificationBatch.AttemptsAreShares` | orchestrator/main.py:472-498 | each notification has its share of all attempts, rounded up or down |
| `NotificationBatch.WaitIsBounded` | orchestrator/main.py:382-390 | over any stretch that skips a notification at most twice as many attempts are made as there are others |
| `NotificationBatch.FairFromTheStart` | orchestrator/main.py:315-498 | over seats not yet known, after any number of failing runs the attempts differ by at most one and none is lost |
| `YamlMerge.LastWriteWins` | deploy/merge_orchestrator_config.py:25-77 | on every text, merging one host and then another equals merging the second alone, and where the first fails on the text the second fails with the same error |
| `YamlMerge.OnlyTheKeyChanges` | deploy/merge_orchestrator_config.py:56-77 | every line but the key's own is kept in its place, up to a missing final newline, and the key is replaced by the two lines written out with the host |
| `YamlResults.HostIsWritten` | deploy/merge_orchestrator_config.py:56-77 | in the merged file the key line and one value line with the host, written out, stand in the one hydro block, the key nowhere else in it, and no further value follows |
| `YamlResults.HostsDiffer` | deploy/merge_orchestrator_config.py:56-59 | merging different hosts into one text gives different texts |
| `YamlResults.MergesExactly` | deploy/merge_orchestrator_config.py:25-55 | a merge succeeds exactly for a valid host and one hydro block, closed off safely, with the key at most once, and each error has its own condition |
| `YamlMerge.EditAgain` | deploy/merge_orchestrator_config.py:68-77 | the next edit of an edited block replaces exactly the two lines of the last one |
| `LineBreaks.JoinSplitLines` | deploy/merge_orchestrator_config.py:30 | joining the lines of a text gives it back, and each line has one break, at its end |
| `LineBreaks.SplitLinesJoin` | deploy/merge_orchestrator_config.py:30 | lines that are joined and split again are the same lines, CRLF never being cut |
| `YamlEditor.MergeNotifyAllowedHttpsHost` | deploy/merge_orchestrator_config.py:25-77 | the index loops compute the merge that `HostIsWritten` and `MergesExactly` describe, errors included |
| `YamlEditor.BlockEnd` | deploy/merge_orchestrator_config.py:39-47 | finds the end of the hydro block or reports it unsafe |
| `YamlEditor.HydroIndexes` | deploy/merge_orchestrator_config.py:31-37 | lists the hydro lines |
| `YamlEditor.ManagedIndexes` | deploy/merge_orchestrator_config.py:49-55 | counts the managed keys and finds the first |
| `YamlEditor.EditBlock` | deploy/merge_orchestrator_config.py:56-76 | replaces the key with its values, or adds it at the block's end |
| `SamplingChain.ChainOrder` | scripts/collect_v1_capacity_evidence.py:510-535 | over any stretch of the chain time and both telemetry sequences move forward within the allowed gaps and the PM2 identity stays |
| `SamplingChain.Session.RecordSample` | scripts/collect_v1_capacity_evidence.py:499-553 | a sample is appended exactly when the session is open, the measurement is in range, a trusted probe is the session's own, and it follows the last one |
| `SamplingChain.Session.CheckSamples` | scripts/collect_v1_capacity_evidence.py:815-912 | accepts exactly the chains that cover the duration densely with distinct samples of one trusted probe |
| `SamplingChain.Session.CheckSeries` | scripts/collect_v1_capacity_evidence.py:882-911 | accepts exactly when all samples are by one trusted probe under one marker and no telemetry hash occurs twice |
| `SamplingChain.Session.CheckFacts` | scripts/collect_v1_capacity_evidence.py:826-863 | accepts exactly when all five facts are there, sound, by trusted probes, within their deadlines, and the ordinary judge stayed clean |
| `SamplingChain.SealedIsDense` | scripts/collect_v1_capacity_evidence.py:820-825 | a sealed window of D seconds with n samples at interval I has D < n * I |
| `SamplingChain.SealedCovers` | scripts/collect_v1_capacity_evidence.py:815-912 | a sealed chain spans the planned duration, is by the frozen probe under one marker, and repeats no telemetry |
| `SamplingChain.SamplesInRange` | scripts/collect_v1_capacity_evidence.py:431-488 | every recorded sample has all its metrics, in range |
| `SamplingChain.FactsPassExactly` | scripts/collect_v1_capacity_evidence.py:834-866 | the five facts pass exactly when sound, trusted, not early, late by at most 300 or 2700 seconds, and the ordinary judge's clean |
| `SamplingChain.EvidenceReads` | scripts/collect_v1_capacity_evidence.py:919-980 | the evidence gives the number of samples, first and last time, whole seconds between, the sum of reconnects and each metric's maximum |
| `SamplingChain.PeakIsMaximum` | scripts/collect_v1_capacity_evidence.py:773-781 | the peak of a metric is one of its values and none is larger |
| `SamplingChain.PeaksAreMaxima` | scripts/collect_v1_capacity_evidence.py:773-777 | of a recorded chain every metric has a peak in the evidence, and it is the maximum of its values |
| `SamplingChain.ReconnectsAdd` | scripts/collect_v1_capacity_evidence.py:778-780 | the reconnects are a sum: those of two stretches add up and one sample counts its own |
| `SamplingChain.Session.Finalize` | scripts/collect_v1_capacity_evidence.py:794-980 | writes series then evidence, never changes an existing file, and seals exactly what was checked: the samples, the five facts and the agreeing restarts |
| `SamplingChain.SealAfterCrashes` | scripts/collect_v1_capacity_evidence.py:190-198 | however often sealing dies between its writes, a last attempt yields the evidence an undisturbed one would have |

## Left out

- InputNormaliser.NormalizedInputSha256: chunks are byte sequences; `Buffer.from` of text chunks and SHA-256 itself are not part of the model.
- SubmissionCounters.CountersBounded: counts calls; a call that threw may or may not have been applied by the judge, which is why thrown calls are added to the bound.
- SubmissionProtocol: journal entries from before the record markers (without public id, language or document ids) are not modelled; neither are eligibility rules, which appear as one admitted or refused answer.
- ContestLocks.MutualExclusion: contests are compared by the text of their id, as the addon does; two spellings of one id would be two contests.
- ProblemDraftSafety.SourceOrTarget: outside edits of problems, times and texts are covered, outside edits of the problem list, the records or the marker are not; of those `StepCore` says that the switch never replaces a list or records other than those it recorded.
- ProblemDraftEvidence.SwitchIsApproved: verification of a clone is one answer; copying test data file by file and the bounded re-reads are not modelled. Any clone id may be met, and a foreign clone is refused.
- ProblemDraftSafety.RetryIsRecognised: once a completed entry is evicted, a retry of its request is refused because the contest is already switched; that is the code's behaviour and is stated as such.
- ProblemDraftRetry.RetryConverges: takes the shortened hashes in clone ids not to collide, document ids to be new, and slugs to be distinct as the request parser demands; with a collision the attempt is refused instead.
- ProblemDraftMapping.ResolveContestProblemDraft: parsing a raw config and hashing the formal inputs are answers of the problem, not computed.
- MaterialPublication.MarkerAndFilesAgree: the journal entry repeats the publication, so only the throws of its saves appear; edits by other tools between re-read and edit would be lost by the unconditional edit and are excluded.
- CaddyResults.SucceedsExactly: a line ends at LF only, blanks are the ASCII ones, and the domain and snippet path are as the installer's own checks leave them.
- ClosedFrontend.AnyHistory: file modes, ownership checks and the other client of the admin API are left out there; foreign writes are covered in `CaddyCommit`.
- ControllerPhase.Host.Apply: comparing containers, images, files and health are answers of the environment; the baseline container is taken not to carry this plan's labels.
- ControllerPhase.AnyHistory: attempts after cleanup are not covered, since the retained container is gone then.
- NotificationBatch.Store.NotifyReleasedSeats: finding the released seats and the message text are not modelled; each seat comes ready or not, and a mark that does not reach the store is an outcome that is missing.
- NotificationBatch.AttemptsEven: takes every outcome to be marked and the set of waiting notifications to be fixed, queued in one order; time stamps and uids only break ties. `FairFromTheStart` takes the same seats to be released in every run.
- YamlMerge.LastWriteWins: vertical tab, form feed and the rarer separators of `splitlines` are ordinary characters, and blanks are the ASCII ones.
- SamplingChain.ChainOrder: samples are in recording order; their file names sort that way up to 999999 samples. Ratios are exact reals.
- SamplingChain.Session.Finalize: identity, patterns and kind-specific counters of a fact file are one answer each, and the evidence verifier is one answer.
- The notification handler of the addon, HTTP parsing, cookies, templates and admin pages: user interface.
- Hydro, Mongo, Docker and cloud clients, SSH and PM2: only their effects at the modelled calls.
- The agent and probe builders, evidence collectors, product-contract checks and demo builders: they compare fixed fields and keep no state.

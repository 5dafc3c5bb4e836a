# Evidence and trust machinery: a verified model

This project models the machinery under `scripts/` that produces and checks release evidence,
and the session state machine of the end-to-end framework. Every theorem is stated over all
inputs, all event orders or all reachable states of the model.

What is modelled, component by component:

- **Audit.** `AuditRow` is one result row: how a finished child becomes a row and which rows a
  resume accepts. `AuditEngine` is the runner as a state machine: workers over a shared cursor,
  the serialized checkpoint chain, deadlines, signals, fail-fast, crashes and resumes.
  `AuditRunner` is the same runner as a class whose methods update its fields in place, each
  proved equal to one step. `AuditInvariant`, `AuditResume`, `AuditStops` and `AuditProgress`
  prove conservation, durability, stop behaviour and termination. `AuditReport`,
  `AuditContract`, `AuditEvidence`, `AuditAccepted` and `AuditSummary` are the producer and the two
  independent consumers of the resulting inventory, report and summary: what a run produces is
  accepted, and what is accepted was so produced. `AuditResumable` proves which runs can
  be resumed, and `AuditInterrupted` is one interrupted run in full.
- **Relays.** `OwnedRelay` is the cancel, settle and close protocol of the owned provider relay;
  `JournalRelay` and `JournalRelayServer` are the write-ahead journal of the chat relay.
- **Replay compiler.** `Replay` and `ReplayPlan` make execution plans portable and print them;
  `PosixShell` is a small evaluator for POSIX.1-2017 Shell Command Language, sections 2.2.2,
  2.2.3, 2.3, 2.6.2 and 2.6.5, with the `env` utility; `NodePath` is the part of Node's POSIX
  path arithmetic that the compiler uses. `ReplayTokens` and `ReplayTheorem` prove when the
  printed line means the plan.
- **Parser.** `Utf8` (RFC 3629) and `RawDiff`, the NUL-separated raw-diff parser.
- **Outputs.** `Rollback` (Gate 0 output rollback) and `Retention` (nightly run retention).
- **Verifiers.** `SecondWindow` with `SecondWindowExact` and `SecondWindowWitness`, `RiskPolicy` with `RiskTheorem`, `PrivacyAccounting`, `Transport`.
- **Conversation.** `Conversation`, the simulator of design sessions.
- `Common`, `Sorting` and `Grouping` hold options, sequence helpers, a stable sort and grouping.

Files, sockets, child processes, signals and clocks are events or parameters. Digests, failure
signatures, text classifiers and `localeCompare` are arbitrary functions or orders.

## Where the code does less than one would expect

Each point names the theorem with the exact condition and, where it is a run or an input that goes
wrong, a lemma that exhibits one.

- A replay line reproduces its execution exactly when every absolute value is the root or lies
  literally below it without a dollar sign or backquote, no relative value reads as `$PWD`, and
  the executable has no equals sign (`ReplayTheorem.ReplayableExactly`, for roots without a dollar
  sign; `ReplayTheorem.DollarRootKept` shows why). For the locked plan, and every root, that means a
  canonical root, as `process.cwd()` returns it (`ReplayPlan.PlanMeansExactly`); the root `/` is not
  one of them: it doubles a slash (`ReplayPlan.SlashDoubles`).
- An entry of the locked plan is refused exactly when one of its arguments contains the root
  (`ReplayPlan.PlanPortableExactly`), as `scripts/nightly-audit.js` contains the canonical root
  `/n` (`ReplayPlan.PlanRefused`).
- A run whose process died is refused, fresh and resumed, given unchanged logs, exactly when its directory was made but
  its inventory never written, or a FAIL row on disk has a hole in its evidence
  (`AuditResumable.ResumesExactly`, `AuditResumable.RefusedExactly`); both happen
  (`AuditResumable.AbandonedHappens`, `AuditResumable.UnresumableHappens`).
- While no signal came, the deadline is ahead and suites are left, a worker of a fail-fast audit is
  refused exactly when its own invocation recorded a required failure: failures accepted on resume
  do not stop it (`AuditStops.FailFastExactly`).
- An interrupted audit report still satisfies the audit contract exactly when its results fail
  anyway (`AuditContract.Agreement`, `AuditInterrupted.InterruptedReports`): the contract does not
  read `interruptionSignal`.
- The owned relay loses sight of an exchange exactly when a forward of its handler succeeds after
  the handler returned; `forward` does not refuse that (`OwnedRelay.OwnedUntilSettled`). `close()`
  can then return while the upstream request is open (`OwnedRelay.EscapeHappens`).
- The chat relay contacts the upstream for a request that has already ended exactly when
  `beforeForward` returns well after the end (`JournalRelay.ContactedLateExactly`,
  `JournalRelay.LateUpstreamRun`); nothing is journaled or forwarded for it any more
  (`JournalRelay.EndedIsFinal`).
- A raw diff that `validateRecord` accepts does not come back from the parser exactly when a
  present side carries a literal zero mode or object id, or a path contains U+FFFD
  (`RawDiff.RoundTrip`, `RawDiff.RoundTripFails`).
- The second-window verifier does not bound the final answer by the boundary of the second summary
  (`SecondWindow.CoverageExactly`, `SecondWindowWitness.SecondCoverageFails`); for the first summary
  coverage always holds.
- The privacy accounting conserves bytes while the tracked objects weigh less than 2^53
  (`PrivacyAccounting.AcceptedExactly`); from there on the additions of doubles can lose some
  (`PrivacyAccounting.RoundingLoses`).
- A fractional `--retain` is rounded up (`Retention.RoomOfWhole`).

## Model

| member | source | states |
|---|---|---|
| AuditRow.RunSuite | scripts/nightly-audit.js:767-855 | the status that the successive overrides leave is the one the evidence supports: any missing evidence, leak or output error is FAIL, then TIMEOUT, then a clean exit is PASS |
| AuditRow.StatusExactly | scripts/nightly-audit.js:767-855 | the row of a finished child in all cases: TIMEOUT and PASS exactly on complete evidence without leak or output error, FAIL otherwise, with the metadata of its suite |
| AuditRow.ValidateCompletedResults | scripts/nightly-audit.js:1329-1420 | returns or throws what the row-by-row specification says, in the order of the checks |
| AuditRow.CompletedRows | scripts/nightly-audit.js:1329-1420 | an accepted checkpoint contributes exactly its PASS, FAIL and TIMEOUT rows, for known suites, none twice, each with valid evidence |
| AuditRow.CheckedRow | scripts/nightly-audit.js:1362-1418 | a resumable row passes exactly if it describes its suite at the revision, its log is a file with its digest, its tree was clean unless a dirty one is allowed, its cleanup was checked and its status fits its exit |
| AuditRow.AcceptedExactly | scripts/nightly-audit.js:1329-1420 | a checkpoint is accepted exactly if its executed rows are for known suites, none twice, and each trustworthy in that sense; exactly those are kept |
| AuditRow.EmittedRowAccepted | scripts/nightly-audit.js:767-855 | a row emitted by a worker survives a resume with its log unchanged exactly when its evidence was complete, with and without allowDirty |
| AuditRow.PassedRowAccepted | scripts/nightly-audit.js:1362-1418 | a PASS row passes every check that a resume makes on a single row, and its child left cleanly without a leak |
| AuditRow.EmittedRowConsistent | scripts/nightly-audit.js:1329-1420 | no emitted row can trigger the timeout-mismatch or leak-misclassification rejections |
| AuditResumable.ResumesExactly | scripts/nightly-audit.js:1271-1327 | over every history of a run: with unchanged logs a resume launches with all resumable rows exactly when the inventory was written and no row on disk is a FAIL with incomplete evidence; PASS and TIMEOUT rows never make a run unresumable |
| AuditResumable.RefusedExactly | scripts/nightly-audit.js:344-391 | a dead run that has its directory is refused both fresh and resumed exactly when it is abandoned before its inventory or a row on disk blocks |
| AuditResumable.AbandonedForever | scripts/nightly-audit.js:1638-1660 | a run abandoned before its inventory is never picked up again, whatever is tried |
| AuditResumable.AbandonedHappens | scripts/nightly-audit.js:1638-1660 | it happens to a process that dies between the creation of the directory and the write of the inventory |
| AuditResumable.UnresumableHappens | scripts/nightly-audit.js:1329-1420 | a run with an unhashed failure, which no resume accepts |
| AuditRunner.Begin | scripts/nightly-audit.js:343-436 | a fresh run needs a new directory, which it makes before it writes the inventory; a resume needs a directory with an inventory and an acceptable checkpoint; the started invocation is the launch step, and otherwise nothing changes |
| AuditRunner.Invocation.constructor | scripts/nightly-audit.js:430-436 | pending suites, results, cursor, deadline and flags of a new invocation |
| AuditRunner.Invocation.NextSuite | scripts/nightly-audit.js:438-446 | the four stop conditions or the next suite and an advanced cursor, as one step of the engine |
| AuditRunner.Invocation.Finish | scripts/nightly-audit.js:448-517 | the row of a taken suite is appended, a required failure noted and a checkpoint write enqueued |
| AuditRunner.Invocation.SerializeCheckpoint | scripts/nightly-audit.js:519-522 | the next write of the chain captures the live result list |
| AuditRunner.Invocation.RenameCheckpoint | scripts/nightly-audit.js:1594-1600 | the temporary file atomically becomes the checkpoint |
| AuditRunner.Invocation.Resume | scripts/nightly-audit.js:505-515 | a worker goes on when its own write is done |
| AuditRunner.Invocation.SkipSuite | scripts/nightly-audit.js:528-531 | one untouched suite is skipped with the reason that holds at that moment |
| AuditRunner.Invocation.EnqueueLast | scripts/nightly-audit.js:532-543 | one more write is enqueued exactly if this invocation added results |
| AuditRunner.Invocation.SkipRest | scripts/nightly-audit.js:527-543 | the loop equals one skip step per untouched suite and the closing step |
| AuditInvariant.StepKeeps | scripts/nightly-audit.js:377-542 | every event keeps the ledger (each suite recorded, running or pending exactly once), the checkpoint bounds and the link between outstanding writes and waiting workers |
| AuditInvariant.RunKeeps | scripts/nightly-audit.js:377-542 | the same over every sequence of events, crashes and resumes included |
| AuditResume.FinishedIsPermutation | scripts/nightly-audit.js:377-542 | a finished invocation has exactly one row per selected suite and its last checkpoint is its result list |
| AuditResume.WritesArePrefixes | scripts/nightly-audit.js:505-522 | every checkpoint write is a prefix of the invocation's results and extends the previous write |
| AuditResume.AcceptedNeverRerun | scripts/nightly-audit.js:377-436 | a PASS, FAIL or TIMEOUT row on disk stays on disk and its suite is never started again, over any further events, crashes and resumes |
| AuditResume.CrashLoss | scripts/nightly-audit.js:505-522 | a crash loses at most one recorded row per worker, and none once the workers have returned |
| AuditStops.FailFastBound | scripts/nightly-audit.js:433-517 | with fail-fast, fewer worker rows than workers follow the first required failure of an invocation, running suites included |
| AuditStops.FailFastStops | scripts/nightly-audit.js:438-446 | from the recording of a required failure on, the same invocation starts nothing more |
| AuditStops.FailFastExactly | scripts/nightly-audit.js:433-446 | with time and suites left a worker is refused exactly when fail-fast is on and a worker of the same invocation recorded a required failure |
| AuditStops.FailFastFinish | scripts/nightly-audit.js:433-529 | in a finished fail-fast invocation fewer non-SKIPPED rows than workers follow the first required failure |
| AuditStops.TakesExactly | scripts/nightly-audit.js:438-446 | in every reachable state an idle worker starts the suite under the cursor exactly when no signal is noted, the deadline is ahead, fail-fast bars nothing and a suite is left; otherwise it stops and nothing is started |
| AuditStops.SignalStops | scripts/nightly-audit.js:438-446 | after a signal the same invocation starts nothing more, and the first signal is the one noted |
| AuditStops.DeadlineStops | scripts/nightly-audit.js:433-446 | once the deadline of an invocation has passed it starts nothing more |
| AuditStops.FinishedRowsExplained | scripts/nightly-audit.js:519-543 | a finished list is the accepted rows, the workers' rows and SKIPPED rows for all remaining suites in order, each for a reason that is true |
| AuditStops.OneWorkerOrder | scripts/nightly-audit.js:430-529 | one worker reports the accepted rows and then the remaining suites in the selected order |
| AuditProgress.AlwaysAStep | scripts/nightly-audit.js:448-543 | no reachable unfinished invocation is deadlocked on its checkpoint chain |
| AuditProgress.InvocationBounded | scripts/nightly-audit.js:448-543 | an invocation takes at most a computed number of steps of its own, whatever signals and time do in between |
| AuditReport.MakeReport | scripts/nightly-audit.js:1178-1269 | source root, counts, verdict, exit code and the interruption override of a report, in terms of its results |
| AuditReport.CountStatuses | scripts/nightly-audit.js:1194-1196 | the counter loop counts each status |
| AuditReport.CountProfiles | scripts/nightly-audit.js:1435-1439 | the counter loop counts each profile, named or occurring |
| AuditReport.VerdictMeans | scripts/nightly-audit.js:1197-1208 | verdict and exit code in terms of the rows: PASS (0) means no required problem, BLOCKED (2) that all of them are blocked, FAIL (1) that one is not |
| AuditContract.ValidateAuditContract | scripts/nightly-orchestrator.js:1296-1572 | returns a contract exactly when registry, source root, headers, identities, every result and the recomputed totals agree, and returns the recomputed figures |
| AuditContract.CheckRegistry | scripts/nightly-orchestrator.js:1297-1324 | the registry check accepts exactly the reviewed registry |
| AuditContract.CheckHeaders | scripts/nightly-orchestrator.js:1381-1446 | the header check accepts exactly the locked options, fingerprints and inventory; the source root is compared by ValidateAuditContract |
| AuditContract.CheckIdentities | scripts/nightly-orchestrator.js:1448-1464 | ids of inventory and report are those of the registry selection, once each, with matching totals |
| AuditContract.CheckResults | scripts/nightly-orchestrator.js:1466-1518 | the loop accepts exactly lists whose every row is sound |
| AuditContract.SelectionIsExpected | scripts/nightly-audit.js:150-169 | the producer's sort-then-filter equals the consumer's filter-then-sort |
| AuditContract.Agreement | scripts/nightly-orchestrator.js:1296-1572 | for a run with the locked options and sound rows the contract holds exactly if it was not interrupted or fails anyway |
| AuditAccepted.AcceptedRows | scripts/nightly-orchestrator.js:1466-1518 | in an accepted report every executed row has a log on disk with its digest, a finished and checked cleanup and a clean tree at the revision, and a PASS row a clean exit |
| AuditAccepted.TamperedLogRefused | scripts/nightly-orchestrator.js:1500-1518 | an accepted report is refused once the log of an executed row has another content or is gone |
| AuditAccepted.AcceptedRegistry | scripts/nightly-orchestrator.js:1297-1324 | the registry of an accepted report has the reviewed digest and profile counts, and its selected suites are active, required and bounded in time |
| AuditAccepted.AcceptedInventory | scripts/nightly-orchestrator.js:1381-1446 | an accepted inventory is the one that a locked run makes, and the report carries its fingerprints and options |
| AuditAccepted.AcceptedIsPermutation | scripts/nightly-orchestrator.js:1448-1464 | the results of an accepted report are the reviewed selection, each suite once |
| AuditAccepted.AcceptedTotals | scripts/nightly-orchestrator.js:1520-1540 | verdict, exit codes and counts of an accepted report are those of its rows |
| AuditAccepted.ContractMeans | scripts/nightly-orchestrator.js:1542-1572 | the figures and paths handed on to the summary check, in terms of the rows |
| AuditInterrupted.InterruptedReports | scripts/nightly-audit.js:1254-1269 | the report of an interrupted run of one suite satisfies the contract exactly when the suite failed |
| AuditEvidence.FinishedRunPasses | scripts/nightly-orchestrator.js:1296-1572 | every finished uninterrupted run of the engine with the locked options and clean evidence, whatever its history, passes the audit contract |
| AuditSummary.ClusterFailures | scripts/audit-summary.js:66-95 | the map filled by the loop holds, per key in order of first occurrence, the cluster of that group of failures |
| AuditSummary.Summarize | scripts/audit-summary.js:54-152 | the summary of a final report: counters, sorted clusters and paths |
| AuditSummary.ClustersPartition | scripts/audit-summary.js:66-97 | for any signature function the clusters hold every failure's path exactly once and nothing else, with matching counts |
| AuditSummary.KeyExactly | scripts/audit-summary.js:66-74 | two failures share a cluster key exactly if they share status and signature |
| AuditSummary.ClustersMean | scripts/audit-summary.js:66-97 | each cluster shows the failures of one status and signature, with their paths, logs and how many are new, and clusters come largest first |
| AuditSummary.SummaryMeans | scripts/audit-summary.js:98-152 | the figures of a summary in terms of the rows of the report |
| AuditSummary.AcceptedSummaryMeans | scripts/nightly-orchestrator.js:1574-1636 | an accepted summary tells of exactly the failures, timeouts and blocked suites of the accepted report |
| AuditSummary.SummaryAgrees | scripts/nightly-orchestrator.js:1574-1636 | the summary of a report that the audit contract accepts passes the summary contract, for any signature function and baseline |
| AuditReport.BlockersFor | scripts/nightly-audit.js:171-183 | the set that is filled and sorted is the sorted, duplicate-free list of the suite's needs; the orchestrator's copy is the same function |
| AuditReport.BlockersExactly | scripts/nightly-audit.js:171-183 | a suite lists each of its needs once, in order, under its own name, and nothing else |
| AuditReport.SelectionExactly | scripts/nightly-audit.js:150-169 | a registered suite is selected exactly when the options ask for its id and profile and do not exclude it, as often as registered, ordered by path |
| Sorting.SortFilter | scripts/nightly-audit.js:150-169 | filtering commutes with stable sorting by any total preorder |
| Sorting.SortCanonical | scripts/nightly-orchestrator.js:1638-1642 | comparing sorted lists compares them as multisets, for any total order |
| Sorting.TextOrder | scripts/nightly-orchestrator.js:1638-1642 | the default order of texts is a total order, as the contracts need |
| OwnedRelay.Relay.Accept | scripts/project-app-provider-relay.js:9-34 | a connection is owned at once, and cancelled at once if the relay is closing |
| OwnedRelay.Relay.ForwardRequest | scripts/project-app-provider-relay.js:35-68 | forward throws, and changes nothing, when closing, cancelled, already forwarded or when no request is created |
| OwnedRelay.Relay.CancelExchange | scripts/project-app-provider-relay.js:20-29 | cancelling happens once and may settle the exchange |
| OwnedRelay.Relay.FinishExchange | scripts/project-app-provider-relay.js:14-19 | an exchange is released exactly when handler, request and response are done |
| OwnedRelay.Relay.Responded | scripts/project-app-provider-relay.js:42-57 | a response that comes after cancelling or closing cancels the exchange |
| OwnedRelay.Relay.CancelEverything | scripts/project-app-provider-relay.js:83-92 | the loop of close cancels exactly the owned exchanges |
| OwnedRelay.Relay.FinishClose | scripts/project-app-provider-relay.js:92-96 | the last check of close cannot fail |
| OwnedRelay.StepKeeps | scripts/project-app-provider-relay.js:6-101 | every event that Node can emit, late forwards included, keeps "owned is not settled" and the order of the closing phases |
| OwnedRelay.KeptStep | scripts/project-app-provider-relay.js:14-68 | one event makes an exchange open and unowned exactly when it is a forward that succeeds after the handler returned |
| OwnedRelay.OwnedUntilSettled | scripts/project-app-provider-relay.js:14-68 | in any event order an exchange is at every moment owned exactly while handler, request or response is open, if and only if its handler never forwards successfully after it returned |
| OwnedRelay.SettledForever | scripts/project-app-provider-relay.js:14-82 | without such a forward a settled exchange stays settled and unowned; only its cancel flag can still change |
| OwnedRelay.LateForwardEscapes | scripts/project-app-provider-relay.js:35-68 | such a forward opens an exchange that had settled, and nothing owns it |
| OwnedRelay.EscapeHappens | scripts/project-app-provider-relay.js:35-98 | a run in which close returns in good order while the request of such an exchange is open |
| OwnedRelay.NothingForwarded | scripts/project-app-provider-relay.js:35-38 | in any event order no upstream request is made once the relay is closing or the exchange cancelled |
| OwnedRelay.ForwardExactly | scripts/project-app-provider-relay.js:35-68 | a forward makes its request exactly if nothing bars it, and otherwise changes nothing |
| OwnedRelay.CancelledPays | scripts/project-app-provider-relay.js:20-82 | once the exchange is cancelled or the relay closing, each handler, request or response event lowers a measure that no other event raises |
| OwnedRelay.OwnedHasDebt | scripts/project-app-provider-relay.js:14-82 | an owned exchange always has such an event to come |
| OwnedRelay.CloseOwnsNothing | scripts/project-app-provider-relay.js:83-98 | in any event order close returns only with nothing owned, its error branch is never taken, and every exchange that did not escape is settled |
| OwnedRelay.CloseBounded | scripts/project-app-provider-relay.js:83-98 | after the server is closed, close takes no more steps than its debt, whatever else happens |
| OwnedRelay.CloseAlwaysAStep | scripts/project-app-provider-relay.js:83-98 | until close has returned such a step is possible |
| JournalRelayServer.JournalFile.Write | scripts/chat-resilience-provider-relay.js:14-25 | for any pattern of partial writes the file grows by exactly the bytes, or by a strict prefix when the write fails |
| JournalRelayServer.Relay.Accept | scripts/chat-resilience-provider-relay.js:26-44 | a request is numbered, active and started in the journal |
| JournalRelayServer.Relay.FinishWithError | scripts/chat-resilience-provider-relay.js:45-61 | the first error ends a request with one incomplete entry |
| JournalRelayServer.Relay.OnRequestChunk | scripts/chat-resilience-provider-relay.js:81-85 | a request chunk is journaled unless the request has ended |
| JournalRelayServer.Relay.OnRequestEnd | scripts/chat-resilience-provider-relay.js:86-99 | bad JSON, request end, scope check and the wait for the hook, in that order |
| JournalRelayServer.Relay.OnHookReturn | scripts/chat-resilience-provider-relay.js:99-143 | the upstream request is made when the hook returns |
| JournalRelayServer.Relay.OnResponse | scripts/chat-resilience-provider-relay.js:102-110 | a response is journaled unless the request has ended |
| JournalRelayServer.Relay.OnData | scripts/chat-resilience-provider-relay.js:112-117 | a chunk is journaled and then delivered, unless the request has ended |
| JournalRelayServer.Relay.OnUpstreamEnd | scripts/chat-resilience-provider-relay.js:118-135 | the end of the upstream is noted, or ends the request if the child's response throws |
| JournalRelayServer.Relay.OnChildFinish | scripts/chat-resilience-provider-relay.js:67-77 | a finished child response completes the capture, or ends it as finished early |
| JournalRelayServer.Relay.SealPending | scripts/chat-resilience-provider-relay.js:144-149 | the loop ends every active request |
| JournalRelay.StepKeeps | scripts/chat-resilience-provider-relay.js:26-149 | every event keeps journal, variables and active set in agreement |
| JournalRelay.JournalIsScript | scripts/chat-resilience-provider-relay.js:26-149 | each request's journal is a start, chunks, end, response start, response chunks and one terminal entry, cut off somewhere; active means no terminal; captureComplete means it is response_end |
| JournalRelay.ForwardedIsJournaled | scripts/chat-resilience-provider-relay.js:112-117 | the child has received a prefix of the journaled response, at most one chunk behind |
| JournalRelay.EndedIsFinal | scripts/chat-resilience-provider-relay.js:45-77 | after its terminal entry nothing is journaled or forwarded for a request |
| JournalRelay.SealedOnce | scripts/chat-resilience-provider-relay.js:144-149 | after sealPending nothing is active and every started request has exactly one terminal entry, its last |
| JournalRelay.SentExactly | scripts/chat-resilience-provider-relay.js:86-104 | in any event order the provider is contacted for a request exactly if it was read to its end while open, was valid and in scope, and its hook, if any, returned well |
| JournalRelay.RejectedNeverSent | scripts/chat-resilience-provider-relay.js:86-99 | an invalid or out-of-scope request never reaches the provider, whatever happens afterwards |
| JournalRelay.JournaledExactly | scripts/chat-resilience-provider-relay.js:45-143 | what each event adds to the journal of its request while the request is open, rejections included, and nothing else |
| JournalRelay.CaptureMeans | scripts/chat-resilience-provider-relay.js:67-135 | a capture counts as complete only if the upstream ended and the child's response was finished |
| JournalRelay.ContactedLateExactly | scripts/chat-resilience-provider-relay.js:99-104 | in any event order the upstream is contacted after a request's terminal entry if and only if its hook returns well after that entry |
| JournalRelay.LateUpstream | scripts/chat-resilience-provider-relay.js:99-104 | the same for one event |
| JournalRelay.LateUpstreamHappens | scripts/chat-resilience-provider-relay.js:99-104 | that is possible for every request whose hook is running |
| JournalRelay.LateUpstreamRun | scripts/chat-resilience-provider-relay.js:26-104 | a whole run in which the upstream is contacted for an abandoned request |
| Replay.EnvironmentForExecution | scripts/gate0-evidence-contract.js:596-605 | the loop builds inherited keys with empty defaults, then the overrides |
| NodePath.InsideMeansBelow | scripts/gate0-evidence-contract.js:651-657 | a path is inside a root exactly when its segments extend the root's |
| ReplayTokens.TokenReads | scripts/generate-gate0-evidence.js:1604-1611 | the shell reads a printed token as its value wherever it stands, for every text and both quoting branches |
| ReplayTokens.InheritedReads | scripts/generate-gate0-evidence.js:1569-1602 | an inherited key printed as a defaulted parameter yields the host's value or nothing |
| ReplayTokens.FieldsOfTokens | scripts/generate-gate0-evidence.js:1569-1602 | a line of printed tokens splits into exactly their values |
| ReplayTheorem.TokenKept | scripts/gate0-evidence-contract.js:611-626 | a value made portable and printed expands back to itself in the root |
| ReplayTheorem.TokenLost | scripts/gate0-evidence-contract.js:611-626 | a value that is not replayable expands to something else |
| ReplayTheorem.ReplayPreservesMeaning | scripts/generate-gate0-evidence.js:1569-1611 | a replayable execution gives the same executable, arguments and environment in every shell standing in the root |
| ReplayTheorem.UnreplayableIsLost | scripts/generate-gate0-evidence.js:1569-1611 | any other execution does not |
| ReplayTheorem.ReplayableExactly | scripts/generate-gate0-evidence.js:1569-1611 | meaning is preserved exactly for replayable executions |
| ReplayTheorem.ValuesKept | scripts/generate-gate0-evidence.js:1569-1611 | for every root a replay that means its execution reads every argument and every override as itself |
| ReplayTheorem.DollarRootKept | scripts/gate0-evidence-contract.js:611-626 | with a dollar sign in the root a value that is not replayable can come back all the same |
| ReplayPlan.PlanReplayableExactly | scripts/gate0-evidence-contract.js:88-248 | every entry of the locked plan is replayable exactly when the root is canonical |
| ReplayPlan.PlanPortableExactly | scripts/gate0-evidence-contract.js:250-265 | for every absolute root a plan entry is portable exactly when no argument contains the root; its overrides never stand in the way |
| ReplayPlan.PlanRefused | scripts/gate0-evidence-contract.js:611-626 | below the canonical root /n the deterministic audit is refused, because its script path contains the root |
| ReplayPlan.PlanReplays | scripts/gate0-evidence-contract.js:88-265 | for a canonical root that no argument contains, a plan entry is portable, printable and keeps its meaning on every host |
| ReplayPlan.PlanKeysDistinct | scripts/gate0-evidence-contract.js:88-248 | no plan entry overrides a key twice |
| ReplayPlan.PlanMeansExactly | scripts/gate0-evidence-contract.js:88-265 | a portable plan entry prints, and its line means the entry in every shell standing in the root exactly when the root is canonical |
| ReplayPlan.SlashDoubles | scripts/gate0-evidence-contract.js:611-626 | below the root directory an owned path comes back with a second slash |
| Utf8.DecodeEncode | scripts/final-disposition-manifest.js:444-449 | decoding undoes encoding |
| Utf8.EncodeDecode | scripts/final-disposition-manifest.js:444-449 | no other bytes decode to a text |
| RawDiff.SplitNul | scripts/final-disposition-manifest.js:431-442 | the index loop computes the fields |
| RawDiff.SplitTerminated | scripts/final-disposition-manifest.js:431-442 | splitting undoes NUL-terminated concatenation |
| RawDiff.ReadBody | scripts/final-disposition-manifest.js:244-262 | one path or two are read after a header, with the same errors in the same order |
| RawDiff.ParseRawDiff | scripts/final-disposition-manifest.js:231-283 | the index loop computes the field-by-field specification, errors included |
| RawDiff.ParsePrinted | scripts/final-disposition-manifest.js:231-283 | what the parser returns for any printed list of accepted records: the records with literal zeros read as absent, or a UTF-8 error |
| RawDiff.RoundTrip | scripts/final-disposition-manifest.js:334-403 | parsing undoes printing exactly for lists without U+FFFD and without a literal zero on a present side |
| RawDiff.RoundTripFails | scripts/final-disposition-manifest.js:231-283 | two accepted records that do not come back: one with literal zeros, one with U+FFFD |
| RawDiff.ParsedNumbered | scripts/final-disposition-manifest.js:263-279 | accepted output is numbered from one |
| RawDiff.ParsedPrints | scripts/final-disposition-manifest.js:231-283 | printing undoes parsing for any accepted output without empty fields, so every field is consumed |
| RawDiff.AcceptedExactly | scripts/final-disposition-manifest.js:334-406 | a record is accepted exactly if both sides are sound and status and change are the ones that the two sides determine |
| RawDiff.SafePathExactly | scripts/final-disposition-manifest.js:408-414 | a path is safe exactly if it is its own normal form without NUL or backslash, and then it stays below any root it is joined to |
| RawDiff.HeaderExactly | scripts/final-disposition-manifest.js:231-243 | a header matches exactly if it is two modes, two blobs and a status in their fixed places |
| RawDiff.BodyExactly | scripts/final-disposition-manifest.js:244-279 | which record or which error follows a header, for every status |
| RawDiff.EmptyFieldSkipped | scripts/final-disposition-manifest.js:231-243 | an empty field in place of a header is passed over |
| RawDiff.OtherFieldRefused | scripts/final-disposition-manifest.js:231-243 | a field that is no text, or text that is no header, stops the parser with its own error |
| Rollback.Outputs.WriteOutput | scripts/generate-gate0-evidence.js:1613-1634 | an output changes only by the rename, wholly |
| Rollback.Outputs.ArmRollback | scripts/generate-gate0-evidence.js:538-549 | arming reads the outputs up to the first failure and throws when repeated |
| Rollback.Outputs.RestoreAll | scripts/generate-gate0-evidence.js:556-569 | every snapshot entry is tried, and a failure is remembered |
| Rollback.Outputs.Run | scripts/generate-gate0-evidence.js:532-578 | the operation, the late signal check and the restore, as specified |
| Rollback.RolledBackExactly | scripts/generate-gate0-evidence.js:532-578 | after a failure past arming an output is as it was then, exactly unless its restore failed and it had changed |
| Rollback.AllOrNothing | scripts/generate-gate0-evidence.js:532-578 | the wrapper returns exactly when nothing threw and no signal was noticed, and then all writes stand; otherwise, if the restores succeed, every output is as at arming |
| Rollback.OutcomeExactly | scripts/generate-gate0-evidence.js:550-577 | the wrapper reports a failed rollback exactly when the restore of some snapshot entry failed, and otherwise the first error |
| Rollback.ArmsOnce | scripts/generate-gate0-evidence.js:538-549 | arming throws exactly when repeated or when an output cannot be read, and writes nothing |
| Rollback.AlwaysWhole | scripts/generate-gate0-evidence.js:1613-1634 | in every intermediate state each file is wholly old or wholly one of the new versions |
| Retention.RunStore.RetainCompleted | scripts/nightly-orchestrator.js:1768-1797 | the two loops delete the computed runs in order, up to the first that cannot be removed |
| Retention.RunStore.KeptPaths | scripts/nightly-orchestrator.js:1787-1791 | the loop stops as soon as enough paths are kept |
| Retention.RunStore.RemoveAll | scripts/nightly-orchestrator.js:1792-1795 | the runs go in order, all of them exactly when none is stuck, otherwise a prefix of them |
| Retention.DeletesTheRest | scripts/nightly-orchestrator.js:1784-1796 | exactly the newest other runs stay, as many as there is room for |
| Retention.RoomOfWhole | scripts/nightly-orchestrator.js:1786-1792 | there is room for retain minus one, rounded up |
| Retention.NeverDeletes | scripts/nightly-orchestrator.js:1777-1796 | the current run, runs of another owner and unfinished runs are never deleted |
| Retention.KeepsTheNewest | scripts/nightly-orchestrator.js:1784-1796 | every kept run ended at or after every deleted one |
| SecondWindow.Validate | scripts/chat-second-window-evidence.js:121-369 | the loops accept exactly the evidence that the specification accepts |
| SecondWindow.FirstTurnIsFirst | scripts/chat-second-window-evidence.js:263-340 | a stage-1 turn exists, it comes first and it started the conversation |
| SecondWindow.HistoryAccounted | scripts/chat-second-window-evidence.js:278-363 | turn k holds places 2k and 2k+1 of the final list, counted from zero, and the list has 2(n+1) messages |
| SecondWindow.SnapshotsAreReceipts | scripts/chat-second-window-evidence.js:334-363 | the final list is exactly the receipted pairs and the first snapshot exactly those of stage 1 |
| SecondWindow.RowsUsedOnce | scripts/chat-second-window-evidence.js:47-61 | no provider row serves two receipts |
| SecondWindow.RowsMatch | scripts/chat-second-window-evidence.js:47-61 | every receipt names the row whose hashes it shows |
| SecondWindow.CapturedInOrder | scripts/chat-second-window-evidence.js:263-332 | captures of the long turns increase, covered answers precede their summary, and the first summary covers no turn after the restart |
| SecondWindow.CoverageExactly | scripts/chat-second-window-evidence.js:310-363 | with the final answer included, coverage always holds for the first summary, and for the second exactly when its boundary is before the final answer |
| SecondWindow.WindowsFilled | scripts/chat-second-window-evidence.js:16-17 | the receipted turns of either stage carry exactly the claimed raw tokens, and fill a provider window |
| SecondWindowWitness.SecondCoverageFails | scripts/chat-second-window-evidence.js:310-363 | an accepted receipt whose second summary claims to cover a final answer captured after it |
| SecondWindow.OtherProjectAccounted | scripts/chat-second-window-evidence.js:219-262 | the other project's list is exactly its three receipted pairs |
| SecondWindow.ScenarioFollowed | scripts/chat-second-window-evidence.js:263-332 | every long turn asks the question of the scenario, stage by stage and in its order, and question and answer are in the final list |
| SecondWindowExact.AcceptedExactly | scripts/chat-second-window-evidence.js:121-369 | the verifier accepts exactly the evidence that is sound as a whole: stated by places, without its loops, their sets or their counters |
| Grouping.GroupBy | scripts/gate0-evidence-verdict.js:521-530 | the map holds each key's values in order, keys in order of first occurrence |
| RiskPolicy.ParseRiskRegister | scripts/gate0-evidence-verdict.js:498-519 | the rows and errors of a register |
| RiskTheorem.RowsExactly | scripts/gate0-evidence-verdict.js:498-519 | the rows of a register are those of its risk lines, in order |
| RiskPolicy.EvaluateRiskPolicy | scripts/gate0-evidence-verdict.js:312-431 | the loops compute the specified assessment |
| RiskTheorem.OpenRiskListed | scripts/gate0-evidence-verdict.js:381-420 | every open register row is in one of the four lists, whatever is wrong with register or policy |
| RiskTheorem.ListedOnce | scripts/gate0-evidence-verdict.js:381-420 | no risk is listed twice |
| RiskTheorem.ValidExactly | scripts/gate0-evidence-verdict.js:312-431 | an assessment is valid exactly when register and policy are sound and in bijection |
| RiskTheorem.ValidCounts | scripts/gate0-evidence-verdict.js:401-420 | the impact counts of a valid assessment sum to the rows and to the entries |
| RiskTheorem.CountsOfImpact | scripts/gate0-evidence-verdict.js:401-420 | a valid assessment counts, for each impact, the register rows that the policy gives it, and the open ones among them |
| RiskTheorem.GateExactly | scripts/gate0-evidence-verdict.js:433-496 | the gate does not fail exactly when every clause holds and each open risk has one sound entry that puts it elsewhere |
| RiskTheorem.VerdictExactly | scripts/gate0-evidence-verdict.js:433-496 | PASS exactly for a clear gate with an approved review, CONDITIONAL PASS exactly for a clear gate with a pending one, FAIL otherwise, and exit code one exactly for FAIL |
| RiskTheorem.FailedClauses | scripts/generate-gate0-evidence.js:612-716 | the failed clauses are exactly those whose own facts do not hold |
| RiskTheorem.NoClauses | scripts/gate0-evidence-verdict.js:433-496 | without clauses there is no outcome; with clauses it fails exactly for a blocker or a failing clause |
| RiskTheorem.ClausesPass | scripts/generate-gate0-evidence.js:612-716 | no clause fails exactly when every underlying fact holds and the risk assessment is valid |
| PrivacyAccounting.ReadManifest | scripts/gate0-evidence-projections.js:210-235 | the loop finds the first unsound or repeated object, or the totals |
| PrivacyAccounting.ClaimEach | scripts/gate0-evidence-projections.js:258-265 | the loop over the blobs of one removal claims them and adds up their bytes |
| PrivacyAccounting.RemoveEach | scripts/gate0-evidence-projections.js:243-272 | the loop over the removals claims their blobs, with the same errors in the same order |
| PrivacyAccounting.CheckAccounting | scripts/gate0-evidence-projections.js:205-280 | the accounting checks accept or reject as specified |
| PrivacyAccounting.AcceptedExactly | scripts/gate0-evidence-projections.js:205-280 | for objects of less than 2^53 bytes, and any rounding of larger sums, an incident is accepted exactly when the removals claim disjoint known blobs with their exact weight and the unclaimed objects number and weigh the original removal |
| PrivacyAccounting.RoundingLoses | scripts/gate0-evidence-projections.js:205-280 | at 2^53 a sound incident that loses a byte is accepted |
| Transport.CompleteExactly | scripts/chat-resilience-transport.js:3-43 | for distinct selected cases the verdict holds exactly when the recorded rows are the selected cases reordered, each once and each carried |
| Transport.CompleteMeans | scripts/chat-resilience-transport.js:3-43 | the verdict holds exactly if the run exited cleanly, every model call is attested and pinned to the model and its window, and the recorded rows are the selected cases, each carried |
| Conversation.Simulator.SendInput | e2e/framework.js:355-486 | the branches of send, in order, as one step of the session |
| Conversation.Simulator.Record | e2e/framework.js:488-493 | history and per-turn arrays grow together |
| Conversation.AlwaysCounted | e2e/framework.js:355-493 | over every conversation an open project's turnCount is the number of design turns since it was opened, and all arrays keep step |
| Conversation.SameProjectTurn | e2e/framework.js:355-486 | a turn that leaves the same project open records design and adds one, or is a fact query that leaves the count alone |
| Conversation.ClosesExactly | e2e/framework.js:368-427 | a project closes exactly on a close, an explicit break, or a build that is not a continuation |
| Conversation.OpensExactly | e2e/framework.js:454-475 | after any conversation an input opens a new project exactly if it is a decided design input outside of a session, or breaks out of one with neither close nor build |
| Conversation.RecordedExactly | e2e/framework.js:355-493 | which inputs are answered, and with which intent, kind, content and turn count they are recorded |
| Conversation.SessionHolds | e2e/framework.js:376-474 | until the next close, break, build or fact query the same project stays open through any number of inputs, every answered turn is design and each is counted once |

## Left out

- Spawning, signalling and reaping processes, the filesystem and git: events or given facts.
- SHA-256 and JSON: digests are arbitrary functions; a log or capture file is what its digest says.
- SecondWindow.Validate: the text checks (prompts, arithmetic answers, semantic quality) and the header and row fields of the evidence are flags of the evidence; token counts are integers.
- The regular expressions of the risk register, the conversation patterns and the failure signatures: their outcomes are inputs.
- Which blockers an option allows: that a suite is blocked is the outcome of its start, not computed from its needs.
- Rows carry no timestamps, durations, preflight records or retry counts.
- AuditReport.MakeReport: timestamps, the run's own paths, preflight records and the blocker counts of the report, which no consumer checks.
- AuditContract.ValidateAuditContract: manifest types and schema versions; paths are compared as resolved texts; the returned profile names and counts are those of the reviewed policy and are not repeated.
- AuditEngine.Step: dry runs; a run directory and its log directory are made at once, and no inventory is there before both. A signal may arrive between two skipped suites, which the single-threaded loop excludes; the results hold for the larger set of behaviours.
- OwnedRelay.Step: sockets, timeouts and the bytes of an exchange; `incoming`, `outgoing` and upstream errors are one abort event.
- JournalRelayServer.JournalFile.Write: `fsync` and a failing write inside a handler; journal writes of the relay succeed, as a failing one ends the process.
- JournalRelay.Step: the byte count of `response_end`, which the source takes from the decoded text.
- RawDiff.ParseRawDiff: texts are sequences of Unicode scalar values, not UTF-16 units; no check depends on the difference.
- RiskPolicy.EvaluateRiskPolicy: errors and lists are kept as values; their texts and the sorting of the lists are not modelled, so the four lists are sets.
- AuditSummary.Summarize: environment errors, blocker heuristics, preflight analysis and rerun advice.
- PrivacyAccounting.CheckAccounting: an addition of doubles is any monotone rounding that is exact up to 2^53; sums do not overflow to infinity.
- Retention.RunStore.RetainCompleted: directory entries have distinct resolved paths, and an unreadable metadata file is an absent one.
- `validateGate0Provenance`, `loadAndValidateAuditEvidence`, the process-recovery helper and the measurement programs.
- Conversation.Simulator.SendInput: experts, pending decisions, working memory and the last decision and input of `SimpleSessionState`, which do not influence the modelled branches.

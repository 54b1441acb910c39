# Ordering, persistence and text-shaping components, modelled in Dafny

This project models the parts of the repository whose comments promise an order, an all-or-nothing effect or an
exact result, and proves those promises for every input and every interleaving:

- the token store of the browser extension (`AuthTokenStore.dfy`), after sections 5.2 and 6 of RFC 6749;
- the interpreter's execution gate (`Semaphores.dfy`, `ExecutionGate.dfy`);
- the skill installer (`Disk.dfy`, `Metadata.dfy`, `SkillWriter.dfy`, `Installer.dfy`) and its download pool (`PinnedDownload.dfy`);
- Gmail's incremental sync (`GmailSync.dfy`);
- the file relay, the draft store and the stdio transport (`HubRelay.dfy`, `ChatDrafts.dfy`, `StdioTransport.dfy`);
- two stores guarded by a generation number (`ConversationStore.dfy`, `HostSession.dfy`);
- three sequential algorithms (`Sitemap.dfy`, `Chunker.dfy`, and `ClientMessages.dfy` with `MessageObjects.dfy`).

`Wrappers.dfy`, `JsonValues.dfy` and `SetFacts.dfy` hold what several of them share.

An `async` function is cut at its awaits. Each file of that kind has a `State`, the `Action`s the environment may
choose among, `Next`, which says what an action does, and `Run`, the fold of any list of actions in which a disabled
one does nothing; so a lemma about `Run` is one about every reachable state. Beside it stands a class with the source's
own variables, whose methods are proved to do exactly what `Next` says. A relation `Effects` tells separately, in terms of what
is kept, what each action comes to, and `EveryStep` proves it of every step of every run. The network, storage, disk and timers are
actions or parameters and may fail wherever the source lets them. In the disk model `history` records every state a
crash could leave and `faults` counts failures.

`dafny verify dfyconfig.toml` checks everything.

Where the code does less than it says, the code is modelled and the difference is a lemma with the exact condition:
a line longer than the cap may pass the stdio transport (`LongLineMayPass`); a request still waiting when the transport
is closed may wait for ever (`WhoWaitsForAServerThatIsGone`, `AskedThenClosed`); an added file named like an inherited property goes unreported
(`InheritedNameGoesUnreported`); a download that rejects with `undefined` is swallowed (`UndefinedIsSwallowed`); a
sole listener subscribed twice leaves a second poller behind (`OnePollerUnlessSubscribedAgain`); a call may return
another user's session after disconnecting (`SuitsExactlyUnlessOvertaken`, `AnotherUsersSession`); a range that ends after
the one that closes its group is cut off there (`NothingIsCutOff`, `EndIsLostOnce`).

## Model

| member | source | states |
|---|---|---|
| `AuthTokenStore.Convergence` | apps/extension/entrypoints/background.ts:84-102 | In every interleaving of sign-ins, sign-outs, refreshes and storage answers, whenever the write queue is drained and no storage call of the newest generation failed, storage holds that generation's value: nothing after a sign-out, otherwise the sign-in's tokens or what the last successful refresh, or a definitive rejection, of the same generation left |
| `AuthTokenStore.OneExchangePerGeneration` | apps/extension/entrypoints/background.ts:238-252 | At most one unsettled refresh per generation, whatever fails; a further caller of the current generation changes nothing and joins the pending promise |
| `AuthTokenStore.PresentsLatestToken` | apps/extension/entrypoints/background.ts:254-289 | Each exchange happens in the newest generation and presents the refresh token that generation holds at that moment (unless a storage call of it failed), so never one superseded by rotation |
| `AuthTokenStore.SignInIsUndisturbed` | apps/extension/entrypoints/background.ts:230-235 | A sign-in that replaces the session is the latest attempt, and neither a sign-out nor another sign-in happened since it began; it opens exactly the next generation |
| `AuthTokenStore.GenerationsInOrder` | apps/extension/entrypoints/background.ts:93-102 | A sign-out opens exactly the next generation, and a caller learns that its write succeeded only while its generation is the newest |
| `AuthTokenStore.RunKeepsInv` | apps/extension/entrypoints/background.ts:84-289 | Every run keeps the invariant that ties queue, storage, suspended refreshes and the record of events together |
| `AuthTokenStore.EveryStep` | apps/extension/entrypoints/background.ts:84-289 | After any run each step has exactly the effect told without the code's own functions: an answered exchange queues, guarded and for its own generation, the new access token with the old client and the new refresh token, or the old one when none came, a rejected one a removal, any other nothing; a sign-in replaces the session if and only if nothing happened since it began; a stale guarded write is dropped; and so on for all thirteen |
| `AuthTokenStore.RotationSupersedes` | apps/extension/entrypoints/background.ts:281-287 | Once the endpoint has answered with a new refresh token, every later exchange of that generation presents it or what a still later answer brought |
| `AuthTokenStore.QueueMoves` | apps/extension/entrypoints/background.ts:84-102 | From every reachable state a storage that does not fail takes one operation off the queue after the other, and after the last one holds the newest generation's value |
| `AuthTokenStore.Background.QueueStorageWrite` | apps/extension/entrypoints/background.ts:84-91 | An operation joins the end of the queue and nothing else changes |
| `AuthTokenStore.Background.BeginSignIn` | apps/extension/entrypoints/background.ts:176-178 | A new attempt remembers the current generation and supersedes earlier attempts |
| `AuthTokenStore.Background.CompleteSignIn` | apps/extension/entrypoints/background.ts:230-235 | With both guards passed the generation grows and the write is queued in the same step; otherwise only the attempt ends |
| `AuthTokenStore.Background.SignOut` | apps/extension/entrypoints/background.ts:398-404 | The generation grows and an unguarded removal is queued in the same step |
| `AuthTokenStore.Background.RefreshTokens` | apps/extension/entrypoints/background.ts:238-252 | Joins the pending refresh of the same generation or starts one behind the queued writes |
| `AuthTokenStore.Background.SampleStore` | apps/extension/entrypoints/background.ts:77-82 | Storage is read once the writes queued before the read have settled |
| `AuthTokenStore.Background.ResumeRead` | apps/extension/entrypoints/background.ts:255-269 | A read that resumes in another generation, or finds no refresh token, ends the refresh; otherwise the exchange starts with the token found |
| `AuthTokenStore.Background.AnswerExchange` | apps/extension/entrypoints/background.ts:262-287 | A granted answer queues the merged tokens (keeping the old refresh token when none came), `invalid_grant` (section 5.2 of RFC 6749) queues a removal, any other failure queues nothing |
| `AuthTokenStore.Background.FinishRefresh` | apps/extension/entrypoints/background.ts:277-288 | The refresh settles when its own queued write has |
| `AuthTokenStore.Background.ClearPending` | apps/extension/entrypoints/background.ts:243-250 | The settled handler clears the pending refresh only if it is still that one |
| `AuthTokenStore.Background.StartWrite` | apps/extension/entrypoints/background.ts:84-98 | The head of the queue runs; a stale guarded write is dropped without touching storage |
| `AuthTokenStore.Background.ApplyWrite` | apps/extension/entrypoints/background.ts:98-99 | A storage call that takes effect stores or removes the head's value |
| `AuthTokenStore.Background.FinishWrite` | apps/extension/entrypoints/background.ts:84-101 | The head settles and the next operation may start |
| `AuthTokenStore.Background.FailWrite` | apps/extension/entrypoints/background.ts:86-89 | A storage call that fails lets the queue go on and marks its generation |
| `Semaphores.PermitsConserved` | packages/agent-interpreter/src/gate.ts:11-56 | `active` is the number of granted permits not yet released and never passes the capacity; nobody waits while a permit is free; `Math.max` never bites on a release that counts |
| `Semaphores.FirstComeFirstServed` | packages/agent-interpreter/src/gate.ts:26-55 | When somebody has been granted, everybody who arrived before was granted or timed out, exactly one of the two, and none of them waits |
| `Semaphores.CallEffects` | packages/agent-interpreter/src/gate.ts:17-55 | After any run: acquire grants at once while there is a permit, otherwise queues at the end and arms a timer exactly if asked to; release, repeated without effect, hands over to the head and clears its timer, or frees the permit; a timeout removes exactly that waiter |
| `Semaphores.Semaphore.Acquire` | packages/agent-interpreter/src/gate.ts:17-40 | Grants at once or queues at the end |
| `Semaphores.Semaphore.Release` | packages/agent-interpreter/src/gate.ts:42-55 | Releases once, handing the permit to the head of the queue if there is one |
| `Semaphores.Semaphore.TimeOut` | packages/agent-interpreter/src/gate.ts:29-35 | Takes exactly that waiter out of the queue and rejects it |
| `ExecutionGate.CheckLimits` | packages/agent-interpreter/src/gate.ts:63-76 | Limits are accepted if and only if all twelve are positive and a turn may make at least an evaluation's calls; otherwise the first that is not positive is named, before the two are compared |
| `ExecutionGate.EvalBudget` | packages/agent-interpreter/src/gate.ts:98-110 | `evals` is grants plus waiters plus timeouts not yet refunded, never above the limit, so with all rejections delivered exactly grants plus waiters |
| `ExecutionGate.OperationBudget` | packages/agent-interpreter/src/gate.ts:111-123 | A turn state starts no more operations than its limit and runs no more at once than its limit, although callers have given up: permits return only when operations settle |
| `ExecutionGate.EvalConcurrency` | packages/agent-interpreter/src/gate.ts:80-105 | Over all turns together no more evaluations hold permits than allowed, and evaluations wait only when all permits are taken |
| `ExecutionGate.EvalAdmission` | packages/agent-interpreter/src/gate.ts:98-103 | An evaluation is admitted exactly while its turn state has charged fewer than the limit; a rejected one costs nothing |
| `ExecutionGate.OperationAdmission` | packages/agent-interpreter/src/gate.ts:111-121 | A tool operation reaches the turn's semaphore exactly while fewer calls than the limit were made |
| `ExecutionGate.KeepsRefund` | packages/agent-interpreter/src/gate.ts:104-109 | A delivered timeout refunds exactly the one charge it belongs to |
| `ExecutionGate.EveryStep` | packages/agent-interpreter/src/gate.ts:84-141 | After any run each step changes only its own turn state, or the evaluations: a settling operation is no longer running and its permit goes to the head of the turn's queue or becomes free; admission, refund, timeouts, start and reset likewise; what is not possible changes nothing |
| `ExecutionGate.QuietTurnBeginsAtOnce` | packages/agent-interpreter/src/gate.ts:111-123 | In a turn in which everything granted has settled, a call below the limit gets its permit at once |
| `ExecutionGate.InterpreterExecutionGate.TurnFor` | packages/agent-interpreter/src/gate.ts:84-94 | Finds the turn state of a key or creates a fresh one; no other turn state changes |
| `ExecutionGate.InterpreterExecutionGate.AcquireEval` | packages/agent-interpreter/src/gate.ts:98-105 | At the turn's evaluation limit the call is rejected with EVAL_LIMIT and nothing changes; otherwise the turn's counter grows by one and the call gets a permit of the shared semaphore or waits at its end, exactly as `Do` says |
| `ExecutionGate.InterpreterExecutionGate.ReleaseEval` | packages/agent-interpreter/src/gate.ts:42-55 | The shared semaphore hands the permit to its head or frees it, once; turn counters stay |
| `ExecutionGate.InterpreterExecutionGate.EvalTimeOut` | packages/agent-interpreter/src/gate.ts:29-35 | Exactly that waiter leaves the shared queue and is rejected; its charge stays until the rejection is delivered |
| `ExecutionGate.InterpreterExecutionGate.RefundEval` | packages/agent-interpreter/src/gate.ts:106-109 | The turn state that was charged, even one that a reset has dropped since, loses one evaluation, and the call counts as refunded |
| `ExecutionGate.InterpreterExecutionGate.RunPtc` | packages/agent-interpreter/src/gate.ts:111-121 | At the turn's call limit the call is rejected with PTC_LIMIT and nothing changes; otherwise it is counted for good and gets a permit of the turn's semaphore or waits at its end |
| `ExecutionGate.InterpreterExecutionGate.PtcTimeOut` | packages/agent-interpreter/src/gate.ts:118-121 | Exactly that waiter leaves the turn's queue and is rejected; its call stays counted and is never started |
| `ExecutionGate.InterpreterExecutionGate.StartOperation` | packages/agent-interpreter/src/gate.ts:122-123 | A granted operation that has not begun is recorded as begun; permits stay as they are |
| `ExecutionGate.InterpreterExecutionGate.SettleOperation` | packages/agent-interpreter/src/gate.ts:123-137 | The permit of a running operation goes to the head of the turn's queue or becomes free, whether or not its caller has given up |
| `ExecutionGate.InterpreterExecutionGate.ResetTurn` | packages/agent-interpreter/src/gate.ts:139-141 | Only the map's entry for the key goes; every turn state and every call under way stays as it is |
| `Disk.SkillsRoot.Rename` | cli/src/install/write.ts:91-104 | A rename moves the whole tree or fails and changes nothing |
| `Disk.SkillsRoot.RemoveTree` | cli/src/install/write.ts:216-225 | A recursive delete may stop half-way, leaving a part of that tree and nothing else changed |
| `Disk.SkillsRoot.WriteNew` | cli/src/install/write.ts:197-203 | Writing with `wx` never overwrites and touches only its own directory |
| `Disk.SkillsRoot.MakeTemporary` | cli/src/install/write.ts:188-189 | A temporary directory is new and empty |
| `Disk.SkillsRoot.Exists` | cli/src/install/write.ts:127-134 | `lstat`, every error meaning absent |
| `Disk.SkillsRoot.ReadFile` | cli/src/install/metadata.ts:149-154 | Reading a file gives its content or nothing |
| `Disk.SkillsRoot.ListFiles` | cli/src/install/metadata.ts:122-135 | Listing gives all files of the tree or fails |
| `Metadata.ParseSerialize` | cli/src/install/metadata.ts:42-101 | Reading back what was written gives the same record, whatever optional fields it has |
| `Metadata.ParseMeans` | cli/src/install/metadata.ts:42-96 | A document is read as a record if and only if it says just that record, every required property in its type and every optional one if it has its type |
| `Metadata.DetectLocalChanges` | cli/src/install/metadata.ts:142-166 | Reports exactly the modified, missing and added files of the tree; a fault can only add to the report |
| `Metadata.ChangesMean` | cli/src/install/metadata.ts:142-166 | A recorded file of another content is modified, a recorded one that is not there is missing, and one there that is neither recorded nor named like an inherited property is added; no other |
| `Metadata.ReadMetadata` | cli/src/install/metadata.ts:104-112 | The record of the installed skill, or none for anything unreadable or malformed |
| `Metadata.NoChangesMeansIntact` | cli/src/install/metadata.ts:159-182 | Nothing is reported if and only if every recorded file is intact and every other file has a name all JavaScript objects inherit (the `in` test); without such names, if and only if the tree is exactly the recorded files |
| `Metadata.InheritedNameGoesUnreported` | cli/src/install/metadata.ts:159-163 | An added file called `toString` is not reported |
| `SkillWriter.RenameWithRetry` | cli/src/install/write.ts:91-117 | One attempt per pause plus one, and a further one only after EPERM, EBUSY or EACCES; the rename happened exactly if no error is returned, and no state between is anything but before or after |
| `SkillWriter.SafeNames` | packages/skill-format/src/paths.ts:115-124 | A skill name may be a directory if and only if it has 1 to 64 lower-case letters, digits and hyphens, the first no hyphen, and is no device name |
| `SkillWriter.CheckTarget` | cli/src/install/write.ts:155-186 | Without faults gives exactly the refusal that the entry at the target calls for, in the source's order; with faults it never lets pass what is not this slug's and registry's install, nor, without `force`, one with local changes |
| `SkillWriter.RefusalMeans` | cli/src/install/write.ts:156-186 | NOT_OURS if and only if there is no readable record, OTHER_SOURCE if it names another slug or registry, LOCALLY_MODIFIED if it is the same skill, not forced and edited, and no refusal otherwise |
| `SkillWriter.FillStaging` | cli/src/install/write.ts:192-203 | Without faults the staging directory becomes the complete new tree exactly if the paths are safe, distinct and not the metadata name; nothing else is touched |
| `SkillWriter.Exchange` | cli/src/install/write.ts:205-215 | Ends with the new tree at the target and the old one at the backup, or with the disk as it was (less an empty backup), or, if moving back failed too, with the old install at the backup and nothing else moved; each state between is one of the allowed three |
| `SkillWriter.Place` | cli/src/install/write.ts:208-215 | The staging directory becomes the target, which was absent or an empty directory, or nothing changes; without faults it fails only if something was there |
| `SkillWriter.Swap` | cli/src/install/write.ts:205-222 | At every moment the target shows the original, or nothing while the whole original is at the backup path, or the complete new tree |
| `SkillWriter.CleanUp` | cli/src/install/write.ts:216-227 | Deleting leftovers never touches the target |
| `SkillWriter.WriteSkillDir` | cli/src/install/write.ts:146-229 | All or nothing with every file-system call free to fail: at each step the target is the untouched original, or absent with the full original at the backup path, or the complete new tree; a throw leaves it as it was unless moving back failed too; success leaves exactly the given files plus the metadata; without faults the outcome is exactly the checks' verdict and nothing else remains |
| `Installer.FindCaseCollisions` | packages/skill-format/src/paths.ts:98-113 | No collision is reported if and only if no two different paths fold to the same key |
| `Installer.FoldsTogether` | cli/src/install/metadata-view.ts:74-81 | Two ASCII names fold to one if and only if they differ at most in the case of letters |
| `Installer.CheckManifest` | cli/src/install/verify.ts:80-110 | No problem is found if and only if the record meets every limit, name and collision rule and has a SKILL.md |
| `Installer.VerifyFiles` | cli/src/install/verify.ts:116-153 | Succeeds if and only if the record is good and every file arrived with its recorded size and hash, and then gives the files in order |
| `Installer.BackupName` | cli/src/install/metadata-view.ts:74-81 | The search ends after at most one more candidate than names are taken, on a name of one segment that no bundle path begins with, whatever the case |
| `Installer.PrepareInstalledFiles` | cli/src/install/metadata-view.ts:12-94 | Throws exactly if there is no SKILL.md or the first one cannot be adapted; nothing is changed if it suits; otherwise only SKILL.md is rewritten and the original is kept byte for byte under a new name, so that nothing of the bundle is lost |
| `Installer.WithOriginalKeepsAll` | cli/src/install/metadata-view.ts:82-93 | The adapted list holds every original byte |
| `Installer.FreshInstallHasNoChanges` | cli/src/install/install-skill.ts:141-165 | Right after an install no file counts as modified, missing or added |
| `Installer.FreshInstallIsUpToDate` | cli/src/install/install-skill.ts:106-122 | The directory just written passes the unchanged check for the same registry answer |
| `Installer.InstalledOnDisk` | cli/src/install/install-skill.ts:139-173 | Every verified file's original bytes are on disk, SKILL.md perhaps under the backup name |
| `Installer.InstallIsRecorded` | cli/src/install/install-skill.ts:141-165 | The record on disk has, each in its field, the skill's slug, reference, version, source and licence, the registry and the time, the hash of every file there, and, exactly when SKILL.md was rewritten, the name under which the original is on disk and the hashes of all that was downloaded |
| `Installer.CheckUnchanged` | cli/src/install/install-skill.ts:108-122 | Without faults reports unchanged if and only if same slug, registry, commit, version, format and the recorded files are intact; with faults never without that |
| `Installer.InstallFromRegistry` | cli/src/install/install-skill.ts:84-174 | Without faults a call is unchanged if and only if the name is safe, the record good and the directory up to date, and then it downloads nothing and adds no state to the directory's history; it comes to writing if and only if it is not up to date and record, download and SKILL.md are acceptable, and then, if no stale backup is in the way, the result is exactly the verdict of the writer's checks. With every call free to fail, writing is all or nothing at every moment: a failed install leaves the old one at the target or whole at the backup; a successful one has all original bytes on disk, a record that is this install's field by field, no local changes, and is up to date |
| `Installer.PreparedIsWritable` | cli/src/install/write.ts:194-203 | What was prepared from a good record passes the writer's path checks if and only if no path is recorded twice and the backup name, if any, is a safe path |
| `Installer.Write` | cli/src/install/install-skill.ts:141-173 | The writer's all-or-nothing guarantee and its exact verdict, with the metadata of this install; after success every original byte is on disk, nothing counts as a local change and the directory is up to date |
| `Installer.InstallAgain` | cli/src/install/install-skill.ts:104-122 | On a directory that is up to date, without faults nothing is downloaded and neither the directory nor its history changes |
| `Installer.InstallTwice` | cli/src/install/install-skill.ts:84-174 | When the first call installs and no call fails for no reason, the second is unchanged without a download, and all the directory ever was is what the first call made of it, written at its own time |
| `GmailSync.Gather` | packages/builtin-connector-gmail/src/adapter.ts:595-606 | The changed and deleted ids of a page's events, each changed id once |
| `GmailSync.HistoryPage` | packages/builtin-connector-gmail/src/adapter.ts:595-627 | A page's items and deletions say of exactly the touched messages whether they are selected now; no id is in both |
| `GmailSync.DiscoverHistory` | packages/builtin-connector-gmail/src/adapter.ts:571-643 | One page per reply, the last one complete with a checkpoint; a 404 falls through, any other failure stops |
| `GmailSync.HistoryConverges` | packages/builtin-connector-gmail/src/adapter.ts:571-643 | Applying all history pages to an index exact at the start id gives the exact index of the mailbox, also when resumed after a crash at any page, and no page both upserts and deletes an id |
| `GmailSync.PageEffect` | packages/builtin-connector-gmail/src/adapter.ts:595-640 | Applying one page sets touched messages to what the mailbox has and leaves all others |
| `GmailSync.ExactIsRight` | packages/builtin-connector-gmail/src/adapter.ts:194-220 | The index called exact is the one with just those messages of the mailbox that carry none of TRASH, SPAM and DRAFT, carry a configured label if any is configured, and whose date is present and not a number before the configured one |
| `GmailSync.ExcludedIsDeleted` | packages/builtin-connector-gmail/src/adapter.ts:595-627 | A touched message that has gone, or is now trash, spam or a draft, is among the page's deletions and not its items |
| `GmailSync.ScanPage` | packages/builtin-connector-gmail/src/adapter.ts:677-700 | A page of the scan takes the next selected messages up to the limit |
| `GmailSync.FullScan` | packages/builtin-connector-gmail/src/adapter.ts:645-719 | The scan's items are the first selected messages of the listing up to the limit, only the last page reconciles and has the checkpoint |
| `GmailSync.LimitMeans` | packages/builtin-connector-gmail/src/adapter.ts:221-226 | The limit is the whole number configured, or the nearest one from 1 to 10000, and 500 without one |
| `GmailSync.FirstSelectedCount` | packages/builtin-connector-gmail/src/adapter.ts:651-702 | Of distinct ids the scan takes all selected ones or exactly the limit |
| `GmailSync.FullScanConverges` | packages/builtin-connector-gmail/src/adapter.ts:645-719 | From any index the scan with `reconcileMissing` gives the exact index if the selected set fits `maxMessages`; from a new start, if and only if it fits |
| `GmailSync.DiscoverPages` | packages/builtin-connector-gmail/src/adapter.ts:559-720 | A finished call yields the reported history, or as much as there is and then the whole scan, and these pages lead from every index a run may begin with to the right one, told in labels and dates; every throw has a cause in the replies or the configuration |
| `GmailSync.BothModesAgree` | packages/builtin-connector-gmail/src/adapter.ts:559-720 | Begun at the first page or resumed at any other with the index the earlier pages left, a finished run ends in the exact index, whether the history holds out or expires on the way and the full scan takes over |
| `PinnedDownload.EachIndexOnce` | cli/src/source/github.ts:265-271 | In every interleaving an index is with at most one worker and is never handed out again |
| `PinnedDownload.ReturnsCompleteOrThrows` | cli/src/source/github.ts:267-342 | When all workers have left, the thrown failure is the first one recorded; with nothing caught the keys are exactly the manifest's paths; each body is the in-order concatenation of its chunks within the recorded size |
| `PinnedDownload.NormalReturnIsComplete` | cli/src/source/github.ts:333-342 | For distinct paths a normal return is complete if and only if no worker caught `undefined`, the value that also stands for no failure |
| `PinnedDownload.UndefinedIsSwallowed` | cli/src/source/github.ts:333-342 | A download rejecting with `undefined` makes the call return without the file |
| `PinnedDownload.EveryStep` | cli/src/source/github.ts:258-342 | After any run each step has exactly its effect: a worker at its head leaves with the abort's reason, takes the next index or is done; a delivered body within the recorded size is stored under its path; an error is kept if it is the first that is not `undefined` and stops the others |
| `PinnedDownload.ConcatMeans` | cli/src/source/github.ts:311-328 | One chunk is itself the body, and further chunks come behind those before them |
| `PinnedDownload.ReadBody` | cli/src/source/github.ts:311-328 | The assembled body is the concatenation of the chunks, or an error exactly when it passes the recorded size |
| `PinnedDownload.Pool.CatchError` | cli/src/source/github.ts:333-338 | The worker has left; while no failure but `undefined` is recorded this error becomes the failure and, unless the signal is aborted already, aborts it; a failure once recorded stays |
| `PinnedDownload.Pool.Loop` | cli/src/source/github.ts:270-332 | On an aborted signal the worker leaves with the abort's reason as its error; with no index left it leaves without one; otherwise it takes the next index, which nobody gets again |
| `PinnedDownload.Pool.StartWorker` | cli/src/source/github.ts:268-271 | A worker begins as after an answer: it leaves or takes the next index |
| `PinnedDownload.Pool.Answer` | cli/src/source/github.ts:311-330 | A body within the recorded size is stored under its path and the worker goes on; one too long fails the worker and stores nothing |
| `PinnedDownload.Pool.FailWorker` | cli/src/source/github.ts:285-338 | The worker's index counts as failed, its error is recorded if none was, the signal is aborted, and the worker leaves |
| `PinnedDownload.Pool.Abort` | cli/src/source/github.ts:258-263 | The first abort gives the shared signal its reason; later ones change nothing |
| `ChatDrafts.SequentialPerKey` | apps/web/lib/chat-drafts.ts:43-62 | However storage and attachments answer, each key stores what its settled calls leave when run one after another in call order; a call that stored is a write whose attachments were read and stored its text with just those, one that cleared is a clear, and a read finds what the calls before it left |
| `ChatDrafts.FlushedMeansSaved` | apps/web/lib/chat-drafts.ts:78-87 | After a normal return of the flush nothing is outstanding and every key stores what its last write or clear meant |
| `ChatDrafts.FlushThrowsOnUnrepaired` | apps/web/lib/chat-drafts.ts:78-87 | A key counts as failed if and only if a failed call was not made up for by a later write or clear |
| `ChatDrafts.EveryStep` | apps/web/lib/chat-drafts.ts:43-158 | After any run each step has exactly its effect: a failed transaction or lost attachment changes no draft and marks the key, a write stores its text with its attachments, a clear leaves nothing, both unmark it, and a read finds what is stored |
| `ChatDrafts.DraftStore.EnqueueCall` | apps/web/lib/chat-drafts.ts:43-62 | The call gets the next number and joins the end of its key's chain; no other chain and no stored draft changes |
| `ChatDrafts.DraftStore.SettleHead` | apps/web/lib/chat-drafts.ts:89-158 | The head of a chain, its attachments in, takes effect on its key alone and leaves the chain; a failure marks the key, a successful write or clear unmarks it |
| `ChatDrafts.DraftStore.ForgetChain` | apps/web/lib/chat-drafts.ts:58-60 | A chain without calls is dropped; nothing else changes |
| `HubRelay.ChunkingRoundTrip` | apps/web/lib/hub-file-relay.ts:168-181 | Joining the chunks gives the text back, and no chunk passes the receiver's size |
| `HubRelay.Serve` | apps/web/lib/hub-file-relay.ts:137-194 | What is sent is a beginning of the chunks in order and, after any failure, one error; it succeeds if and only if every check permits the request, it is authorised, the text is not too long and every chunk is delivered, and no chunk goes out after a check or a send that failed |
| `HubRelay.SettledOnce` | apps/web/lib/hub-file-relay.ts:196-309 | `pending` holds exactly the unsettled requests, each with its timer, and an outcome never changes |
| `HubRelay.NeverAnotherValue` | apps/web/lib/hub-file-relay.ts:258-306 | Under any loss, repetition or reordering a request resolves with exactly the sender's value, rejects or stays pending |
| `HubRelay.InOrderResolves` | apps/web/lib/hub-file-relay.ts:281-305 | In-order delivery with the conversation unchanged passes every check and resolves with exactly the sender's value |
| `HubRelay.NextChunk` | apps/web/lib/hub-file-relay.ts:281-297 | The receiver accepts each chunk the sender makes, at its place |
| `HubRelay.EveryStep` | apps/web/lib/hub-file-relay.ts:196-309 | After any run each step has exactly its effect on waiting requests, timers and outcomes, the conversation's session, context and permitted paths deciding whether a request may wait or go on |
| `HubRelay.ErrorArrives` | apps/web/lib/hub-file-relay.ts:183-193 | The error sent for a waiting request reaches its caller and touches no other request |
| `HubRelay.HubFileClient.Ask` | apps/web/lib/hub-file-relay.ts:220-256 | A request the conversation at hand does not allow is rejected at once; any other waits with no parts and its own timer |
| `HubRelay.HubFileClient.Receive` | apps/web/lib/hub-file-relay.ts:258-306 | A message for no waiting request, or naming another session or context, changes nothing; one that comes after the conversation changed, reports an error, does not fit its place, or completes the text ends the request and its timer; any other chunk is appended |
| `HubRelay.HubFileClient.TimeOut` | apps/web/lib/hub-file-relay.ts:244-249 | The request is rejected, unless it has its outcome, and dropped with its timer; others stay |
| `HubRelay.HubFileClient.SendFailed` | apps/web/lib/hub-file-relay.ts:251-255 | The request that could not be sent is rejected, unless it has its outcome, and dropped with its timer; others stay |
| `HubRelay.HubFileClient.Cancel` | apps/web/lib/hub-file-relay.ts:212-218 | Every pending request is rejected, every timer cleared |
| `StdioTransport.LinesOfAllBytes` | cli/src/mcp/stdio.ts:216-230 | However the output is cut and whatever happens in between, the lines handled are those of all bytes split at 0x0A and the buffer is the unterminated rest |
| `StdioTransport.SplitJoins` | cli/src/mcp/stdio.ts:219-221 | Writing lines and rest down again gives the bytes |
| `StdioTransport.SplitIsUnique` | cli/src/mcp/stdio.ts:219-221 | No other reading of the bytes as lines and a rest exists |
| `StdioTransport.CuttingDoesNotMatter` | cli/src/mcp/stdio.ts:216-237 | While no line passes the cap, two cuttings of the same bytes lead to the same state of the whole transport |
| `StdioTransport.FailsOnlyOnUnfinishedLines` | cli/src/mcp/stdio.ts:231-236 | The transport fails on size if and only if after some chunk the unfinished line passes the cap |
| `StdioTransport.LongLineMayPass` | cli/src/mcp/stdio.ts:22-23 | So the cap is not one on lines, as its comment says: a longer line passes if its line feed comes in the same chunk and not if it comes in the next |
| `StdioTransport.EachRequestGetsItsAnswer` | cli/src/mcp/stdio.ts:194-214 | Each request waits or has exactly one outcome: the first response with its id (section 5 of JSON-RPC 2.0) heard after it was made and before any failure, or else the first failure; nothing waits after a failure |
| `StdioTransport.OutcomesAreTheServers` | cli/src/mcp/stdio.ts:194-214 | A settled request has resolved with the result of the first response heard to it, or was rejected with the detail of the error that response carries, or, without a response, with the first failure |
| `StdioTransport.HeardUntilFailure` | cli/src/mcp/stdio.ts:216-230 | Every line handled before the first failure counts as heard, and none after |
| `StdioTransport.EveryStep` | cli/src/mcp/stdio.ts:145-285 | After any run each step has exactly its effect on waiting requests, outcomes, messages written, the failure and the closed flag; a chunk fails the transport if and only if a refusal could not be written or an unfinished line is too long |
| `StdioTransport.FailureIsFinal` | cli/src/mcp/stdio.ts:145-151 | An outcome never changes, and after a failure no request waits, is added or settled again, and the failure stays the first one |
| `StdioTransport.WhoWaitsForAServerThatIsGone` | cli/src/mcp/stdio.ts:253-260 | In every run, a request that was waiting when the server exited still waits later if and only if the transport had been closed before and neither an answer to it nor a failure has come since; without a close the exit itself rejects it |
| `StdioTransport.WhenAllAreSettled` | cli/src/mcp/stdio.ts:145-151 | So everybody who waited when the server exited is told in the end if and only if there was no close before, or a failure came, or every one of them was answered |
| `StdioTransport.ClosedWaitsForEver` | cli/src/mcp/stdio.ts:276-285 | After a close no sequence of deadlines, exits and closes changes anything, and while the server can be written to no further call ends a wait or settles a request |
| `StdioTransport.AskedThenClosed` | cli/src/mcp/stdio.ts:253-285 | A run that ends like that: asked, closed, gone; the request still waits after any such sequence |
| `StdioTransport.EveryServerCallIsRefused` | cli/src/mcp/stdio.ts:195-202 | The server's own requests are refused once each, with their ids, in order |
| `StdioTransport.Transport.RejectAll` | cli/src/mcp/stdio.ts:145-151 | The first error stays the failure, every waiting request is rejected with this one, and none waits |
| `StdioTransport.Transport.Write` | cli/src/mcp/stdio.ts:182-192 | The message is written; if that throws, the transport fails with the error and every waiting request is rejected |
| `StdioTransport.Transport.OnMessage` | cli/src/mcp/stdio.ts:194-214 | A server request with an id is refused with that id; a response to a waiting request settles exactly it; any other frame changes nothing |
| `StdioTransport.Transport.OnChunk` | cli/src/mcp/stdio.ts:216-237 | The buffer and the chunk together are cut at line feeds, every whole line is handled once and in order, the rest stays, and a rest past the cap fails the transport |
| `StdioTransport.Transport.OnDeadline` | cli/src/mcp/stdio.ts:157-167 | Every waiting request is rejected with the timeout and the transport has failed, unless it had failed before with another error |
| `StdioTransport.Transport.OnStartError` | cli/src/mcp/stdio.ts:246-252 | As for the deadline, with the start error |
| `StdioTransport.Transport.OnExit` | cli/src/mcp/stdio.ts:253-260 | On a closed transport nothing changes; otherwise every waiting request is rejected and the transport has failed |
| `StdioTransport.Transport.Request` | cli/src/mcp/stdio.ts:263-270 | After a failure the call is refused with it and nothing changes; otherwise it waits under the next id and its question is written |
| `StdioTransport.Transport.Notify` | cli/src/mcp/stdio.ts:271-275 | After a failure the call is refused with it and nothing changes; otherwise its message is written and no request is added |
| `StdioTransport.Transport.Close` | cli/src/mcp/stdio.ts:276-285 | The transport counts as closed; waiting requests stay waiting |
| `Sitemap.SplitStaticSitemap` | apps/web/lib/sitemap-xml.ts:88-119 | Succeeds if and only if both limits are integers in range and every entry can be printed and fits a document alone, and fails with the first reason otherwise; the documents are the rows in order, none empty, within both limits, full, and no split within the limits has fewer documents |
| `Sitemap.NoProblemMeansSplittable` | apps/web/lib/sitemap-xml.ts:104-108 | Nothing is wrong with the entries if and only if all can be printed and their rows can be split within the limits at all |
| `Sitemap.FullSplitIsUnique` | apps/web/lib/sitemap-xml.ts:109-116 | There is only one split in which no document has room for the next row |
| `Sitemap.StaysAhead` | apps/web/lib/sitemap-xml.ts:109-113 | No split gets further with as many documents than closing them only when full |
| `Sitemap.DocumentsMeetLimits` | apps/web/lib/sitemap-xml.ts:93-117 | Each printed document, head and end included, meets the limits asked for and those of the format |
| `Sitemap.AddOrClose` | apps/web/lib/sitemap-xml.ts:109-115 | The counted bytes decide exactly whether the row still fits |
| `ConversationStore.ReadyIsCurrent` | apps/web/lib/local-conversation-store.ts:39-56 | A ready snapshot is the answer of a read started in the present generation, and that answer is ready or cloud |
| `ConversationStore.OneReadPerGeneration` | apps/web/lib/local-conversation-store.ts:38-76 | Of each generation at most one read is in flight, of the present one none but the busy one |
| `ConversationStore.RefreshReads` | apps/web/lib/local-conversation-store.ts:33-76 | Asking for a refresh, or being the first to listen, has a read of the present generation under way, unless the snapshot says cloud |
| `ConversationStore.CloudStays` | apps/web/lib/local-conversation-store.ts:33-38 | Once the snapshot says cloud it stays as it is, and nothing is read, until the last listener leaves |
| `ConversationStore.OnePollerUnlessSubscribedAgain` | apps/web/lib/local-conversation-store.ts:98-122 | One interval polls while there are listeners and none otherwise, kept by every call if and only if it does not subscribe the only listener again, which leaves an interval that outlives it |
| `ConversationStore.RunHasOnePoller` | apps/web/lib/local-conversation-store.ts:18-18 | Without that call there is one poller in every run, as promised |
| `ConversationStore.EveryStep` | apps/web/lib/local-conversation-store.ts:33-121 | After any run each step has exactly its effect; in particular what is shown after each answer: ready if and only if it says cloud or ready, with its code and message, and after an error the information there was |
| `ConversationStore.Store.Refresh` | apps/web/lib/local-conversation-store.ts:33-76 | A cloud snapshot or a busy read leaves all as it is; otherwise one read of the present generation starts |
| `ConversationStore.Store.Answered` | apps/web/lib/local-conversation-store.ts:41-69 | The answer of a read of an older generation is only noted; one of the present generation becomes the snapshot, an error keeping the information shown before |
| `ConversationStore.Store.Finished` | apps/web/lib/local-conversation-store.ts:71-74 | The busy read is cleared only if it is that one |
| `ConversationStore.Store.Invalidate` | apps/web/lib/local-conversation-store.ts:83-93 | Unless the snapshot says cloud, a new generation begins, the busy read no longer counts and the snapshot is checking again |
| `ConversationStore.Store.Subscribe` | apps/web/lib/local-conversation-store.ts:98-110 | The listener is added; if it is then the only one an interval is set and a refresh asked for |
| `ConversationStore.Store.Unsubscribe` | apps/web/lib/local-conversation-store.ts:111-121 | The listener is gone; if none is left, a new generation begins with the first snapshot, no read counts, and the last interval set is cleared |
| `HostSession.NothingOldIsInstalled` | apps/web/lib/local-host-session.ts:39-72 | After the session was cleared no attempt begun before is the source of any later session |
| `HostSession.OneAttemptPerGeneration` | apps/web/lib/local-host-session.ts:38-83 | Two attempts of one generation are never under way together, and no attempt makes a third round |
| `HostSession.SessionIsTheRightUsers` | apps/web/lib/local-host-session.ts:53-71 | The session there is was installed in the present generation and belongs to the user its attempt expected |
| `HostSession.SuitsUnlessOvertaken` | apps/web/lib/local-host-session.ts:20-28 | Step by step: a call bound for its own user's session stays so if and only if it does not find another user's session or attempt right after its disconnect |
| `HostSession.SuitsExactlyUnlessOvertaken` | apps/web/lib/local-host-session.ts:16-84 | In every run a call never overtaken returns only its own user's session and waits only for an attempt for that user; unless made to wait for an attempt for nobody in particular, it returns its user's session if and only if it was not overtaken |
| `HostSession.AnotherUsersSession` | apps/web/lib/local-host-session.ts:20-28 | It happens: while user b's call disconnects, user a is enrolled again, and b's call returns a's session |
| `HostSession.EveryStep` | apps/web/lib/local-host-session.ts:16-142 | After any run each step has exactly its effect on session, pending attempt, generation, its own call and its own attempt: a settled handler leaves nothing pending, an identity of the present generation becomes the session of the ticket's user, everything late or foreign ends its attempt |
| `HostSession.HostSessions.ClearLocalHostSession` | apps/web/lib/local-host-session.ts:137-142 | The generation grows by one and neither a session nor a pending attempt is left |
| `HostSession.HostSessions.EnsureLocalHostSession` | apps/web/lib/local-host-session.ts:16-29 | Another user's session or pending attempt is cleared and disconnected first; otherwise the call returns a good session, waits for the pending attempt, or asks for the status |
| `HostSession.HostSessions.AfterDisconnect` | apps/web/lib/local-host-session.ts:25-29 | A failed disconnect fails the call; otherwise it takes a good session, waits for a pending attempt, or asks for the status, whoever they belong to |
| `HostSession.HostSessions.AfterStatus` | apps/web/lib/local-host-session.ts:29-84 | An unusable host returns nothing, an outdated one fails; otherwise the call starts over if an attempt is pending, and begins one of the present generation if not |
| `HostSession.HostSessions.AfterEnroll` | apps/web/lib/local-host-session.ts:43-58 | A refused enrolment, a cleared generation or a ticket of another user than expected ends the attempt with an error; otherwise it authenticates for the ticket's user |
| `HostSession.HostSessions.AfterAuthenticate` | apps/web/lib/local-host-session.ts:59-73 | A cleared generation, a broken answer or a second missing proof ends the attempt with an error, a first missing proof enrols again, and an identity becomes the session of the ticket's user |
| `HostSession.HostSessions.AfterAttempt` | apps/web/lib/local-host-session.ts:76-83 | The pending attempt is cleared only if it is that one |
| `HostSession.HostSessions.Wake` | apps/web/lib/local-host-session.ts:84-84 | The caller returns the session its attempt installed, or fails with it |
| `Chunker.OnlyASingleChunkIsShort` | packages/builtin-document-parsers/src/chunker.ts:115-142 | For any ranges a chunk under 200 trimmed characters is the only one, and something comes out if something went in |
| `Chunker.MergingKeepsAll` | packages/builtin-document-parsers/src/chunker.ts:115-142 | For starts and ends in ascending order the chunks are in that order, keep first start and last end and cover every position that was covered |
| `Chunker.RangeInItsChunk` | packages/builtin-document-parsers/src/chunker.ts:119-142 | For starts in order the chunk a range is merged into begins exactly where its group does and ends where the group does, and the range lies inside it if and only if it ends no later |
| `Chunker.NothingIsCutOff` | packages/builtin-document-parsers/src/chunker.ts:115-142 | So all ranges lie inside their chunks if and only if none ends later than its group, and then no covered position is lost |
| `Chunker.EndIsLost` | packages/builtin-document-parsers/src/chunker.ts:98-142 | For a text of 100 different characters that the splitter gives back whole followed by a part of it, the pieces are located where they are and the one chunk lacks the last ten characters |
| `Chunker.EndIsLostOnce` | packages/builtin-document-parsers/src/chunker.ts:144-163 | There are such a text and such a splitter |
| `Chunker.MergeShortChunks` | packages/builtin-document-parsers/src/chunker.ts:115-142 | The in-place merge computes exactly the groups the lemmas speak of |
| `Chunker.ToRanges` | packages/builtin-document-parsers/src/chunker.ts:98-113 | The located ranges of the pieces that are not blank |
| `Chunker.LocatesTheText` | packages/builtin-document-parsers/src/chunker.ts:83-96 | A range cuts out its piece if the piece occurs in the text at all |
| `Chunker.LocatedAscends` | packages/builtin-document-parsers/src/chunker.ts:98-113 | As long as no piece is found behind where its search began, every range starts later than the one before |
| `Chunker.OverlappingPiecesAreKept` | packages/builtin-document-parsers/src/chunker.ts:98-142 | If besides the pieces are at least as long as the overlap, nothing located is lost by merging |
| `Chunker.TrimGrows` | packages/builtin-document-parsers/src/chunker.ts:126-128 | A longer text does not trim to less |
| `Chunker.TrimMeans` | packages/builtin-document-parsers/src/chunker.ts:126-128 | What is left of a text has no blank at either end and what has gone is blank; nothing is left if and only if all is blank |
| `Chunker.TokenCountMeans` | packages/builtin-document-parsers/src/chunker.ts:79-81 | Every four characters, or part of four, count as a token, and at least one |
| `Chunker.ChunkSourceContent` | packages/builtin-document-parsers/src/chunker.ts:144-163 | Whatever the splitter does, chunks carry the text they point at, and several chunks are never too short |
| `ClientMessages.PickIsSelect` | apps/web/i18n/client-messages.ts:139-163 | Picking is the projection onto the union of the listed paths |
| `ClientMessages.SelectHasAll` | apps/web/i18n/client-messages.ts:138-163 | Every value under a listed path is there, equal |
| `ClientMessages.SelectHasNothingElse` | apps/web/i18n/client-messages.ts:138-163 | Whatever is there is in the catalog, and every leaf lies under a listed path |
| `ClientMessages.OrderDoesNotMatter` | apps/web/i18n/client-messages.ts:144-161 | Neither the order nor repetition of entries matters, overlapping ones such as `a` and `a.b` included |
| `ClientMessages.PutSelect` | apps/web/i18n/client-messages.ts:150-160 | One more entry extends the projection by exactly its path |
| `ClientMessages.MergedLeaves` | apps/web/i18n/client-messages.ts:165-173 | A merge has all leaves of the second tree, and those of the first that the second has nothing at, or a leaf on the way to |
| `MessageObjects.Objects.PickMessages` | apps/web/i18n/client-messages.ts:139-163 | On objects that share sub-trees: the picked object stands for that projection, and every object there was, the catalog's included, stands for the same tree as before |
| `MessageObjects.Objects.PickOne` | apps/web/i18n/client-messages.ts:144-161 | One entry changes the picked tree as its value does and keeps the value of whatever may be shared |
| `MessageObjects.Objects.Find` | apps/web/i18n/client-messages.ts:145-150 | The catalog's value at the path |
| `MessageObjects.Objects.Walk` | apps/web/i18n/client-messages.ts:152-156 | Down to the object to be written, making missing trees without changing what the entry comes to |
| `MessageObjects.Objects.WriteLeaf` | apps/web/i18n/client-messages.ts:157-160 | The assignment writes into the picked tree or, with an equal value, into the catalog |
| `MessageObjects.Objects.MergeTrees` | apps/web/i18n/client-messages.ts:165-173 | A new object standing for the merge, which here is the whole sub-tree; nothing existing is written |
| `MessageObjects.SameValueKeepsTree` | apps/web/i18n/client-messages.ts:157-160 | Writing a value that stands for the same tree changes the tree of no object, shared or not |
| `MessageObjects.WritingSets` | apps/web/i18n/client-messages.ts:157-160 | Writing into an object of the picked tree's own changes exactly that place |

## Left out

- The extension's worker restarts, which reset its counters, and the HTTP, PKCE and expiry parts of signing in and of `ensureAccessToken`, of which only the synchronous call of `refreshTokens` is an action.
- AuthTokenStore.Convergence: says nothing about a generation one of whose storage calls failed, because then storage need not hold its value; failures in other generations are allowed.
- The interpreter gate's clocks: timers are events that may fire whenever they are set. Its per-evaluation call limit is kept by another component.
- The skill writer: other processes working in the same directory, `resolveInside`, conflicts between a file and a directory of the same name (they appear as faults of `mkdir`), case-insensitive disks, and the device names Windows reserves beyond those in the name check.
- Installer.PrepareInstalledFiles: parsing and rewriting SKILL.md's front matter is one function parameter, with the source's three results (unsuitable, suitable as it is, rewritten).
- Installer.FindCaseCollisions: Unicode folding is a function parameter; `LowerCase`, used for the backup name, covers ASCII.
- Metadata.ParseSerialize: JSON text is a value, printing and parsing being taken as inverse; bytes that are no JSON text parse to nothing. Hashing is an uninterpreted function.
- GmailSync.DiscoverPages: the profile request, the label check and the cursor's own format; messages are read from a mailbox that does not change during the run, a page token is a position, and the converging lemmas rest on two promises of Gmail, stated as `HistoryCovers` and `ListingCovers`. MIME, message text, sending and OAuth are not modelled.
- PinnedDownload.ReturnsCompleteOrThrows: the checks before the workers start, HTTP status mapping and headers; the retry helper is one answer.
- ChatDrafts.FlushedMeansSaved: the registered flushers, the opening of IndexedDB, and the check of what a read finds (it can make a read fail, which any read may do here).
- HubRelay.Serve: the path rules of the request check are a set of allowed paths; previews and downloads differ only in who reads. HubRelay.NeverAnotherValue speaks about messages made from one reading of the file: a request served twice from a file that changed in between is not covered.
- StdioTransport: starting and stopping the process, signals, the text of errors, and standard error. Whether a line parses, and the number a response id stands for, is a function parameter.
- Sitemap.SplitStaticSitemap: printing an entry is given (a row or its error); texts are their UTF-8 bytes. The method's documents are known by their rows, `Print` giving the text.
- ConversationStore: listeners that call back into the store while it publishes, and the visibility handler, which is an invalidation followed by a refresh.
- HostSession: the desktop bridge being absent, proof headers, and the scope synchronisation around these calls. Whether a session is still good for a minute is an answer of the clock, given with each step.
- Chunker: the splitter is an arbitrary function and the characters `trim` removes are a parameter; choosing separators and detecting HTML are left out.
- MessageObjects.Objects: the objects of the catalog are entries of one store, referred to by number, instead of objects of their own; names inherited from `Object.prototype` are not fields.
- HTTP handlers, React components, label and catalogue helpers, command-line parsing and build scripts, which would only add easy members.

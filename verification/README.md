# A verified model of the codemcp bridge

The bridge lets remote sessions change files in registered Git projects. It keeps a durable ledger of
sessions, operations, one-time approvals and checkpoints, records every change of state in an append-only
audit log, and turns each file mutation into a commit that it either adds or amends. This project models
that behaviour in Dafny and proves what the bridge is for: that a request runs at most once, that a crash at
any point leaves a state from which nothing is lost or repeated, that no commit but the session's own
unpublished work in progress is ever replaced, and that a failure that is not reported as unknown changed
nothing.

## How it is organised

* **The ledger.** `StoreModel` has the tables and one specification function per transaction, which either
  commits a new store or raises and leaves the old one. `AuditHistory` proves that the log is the history of
  the tables and that every transaction keeps the invariants. `DatabaseStore` is the class, method by method
  proved against the specification. `Lifecycle` is the transition system of all requests in flight,
  interleaved between any two transactions, with crash and recovery as a step; `LifecycleRuns` has the
  theorems over its runs, `Reconciliation` says which unknown operations can still be settled, and `WitnessRuns`
  has three runs that end badly. `OperationServices`, `AccessServices` and `ReplayKeys` are the services on top.
* **Git.** `Repository` is an abstract repository of immutable commits, refs, HEAD, index and worktree.
  `Workspaces` runs one Git command per await: before each of them the rest of the world may change the
  repository in any way that keeps commits immutable, and the command may fail before or after taking effect.
  What others do is an arbitrary script; "undisturbed" means that the script is exhausted. `GitGuards`,
  `CheckpointServices`, `MutationServices` and `RestoreServices` follow the source's classes. Ghost state of the
  workspace records every move of the repository, whether others' or the bridge's, every command of the bridge
  that took effect, and in which repository each command ran; its invariant says that no move is unaccounted
  for, so that "the bridge changed nothing" is a statement about the repository and not about a log.
  `AwaitBounds` and `ReviewBound` show by runs that the bounds on disturbed awaits are sharp, `SharedTips` that
  one branch ahead of a tip forces a new commit. `MutationModel`
  states what a mutation may do as relations between states, `CommitCount` proves the commit count from them,
  and `Execution` runs a whole request and shows that it is a step of such a series. `Footers`, `LineEndings`
  and `Porcelain` are the text cores.
* **Projects.** `PathPolicy`, `FileTree`, `SearchRoots`, `DirectoryTree`, `RegistryReload`, `RegistryRuns`.

## Findings

Each is stated by a lemma or by an exact condition in a contract.

* An expired approval is never stored as `expired`: the update at `db/store.py:1198-1214` is rolled back by
  the exception raised right after it, so the row stays pending (`Database.ConsumeApproval`,
  `ApprovalCoupling`).
* A mutation that crashes between the two transactions of a dispatch is recovered as `unknown` although its
  body never began (`DispatchedNotBegunRecoversToUnknown`; the exact condition is `RecoveryOfMutations`).
* An unknown operation whose checkpoint had already been finalized when the bridge crashed can never be
  reconciled as succeeded (`FinalizedButUnknown`; the exact condition is `UnknownCanSucceed`).
* An unknown mutation whose session was revoked by the removal of its project can be reconciled by nobody,
  neither as succeeded nor as failed; adding the project again does not help, and its slot keeps every
  further mutation of the project out (`RevokedForever`, `HeldForever`; the exact conditions are
  `UnknownCanSucceed`, `UnknownCanFail` and `UnknownCanSettle`).
* A description is only checked for carriage returns, line feeds and NUL, but the footer is read back with
  all of Python's line breaks; a description with another line break before text that opens like a footer
  loses its session (`FooterReadBack`, `AmbiguousDescription`). The bridge then commits instead of amending.
* Finalization ties the changed names and the diff to two fixed commits, but not the dirty flag and the file
  hashes, which come from the last two commands of the second snapshot (`TenthAwaitMixesTheHeads`); they agree
  with the recorded HEAD if nobody acts at those two commands (`Finalize`).
* A restore across sensitive names is carried out and then reported as unknown (`UnrecordableRestore`;
  the exact condition is `Recordable`, used by `Restore`).
* A restore of the safety checkpoint does not bring back ignored, untracked files that were in the way of
  the target's files, as a file, or as a directory above or below one (`DirectoryInTheWayIsLost`; the exact
  condition is in `RestoreRoundTrip` and `ThereAndBack`).
* `_replace_exact_text` accepts an old string that occurs twice if the occurrences overlap (`AcceptedExactly`,
  `OverlapAccepted`).
* An edit of an ignored, untracked file, or a new file on an ignored path, is written and reported as a success,
  but never committed, so that no checkpoint holds it (`git_guard.py:664-665`; the exact condition is in
  `EditFile`).
* A session created after a reload between lookup and creation can work on a root that is no longer the
  project's (`SessionsStayOnTheirRoot`, `SplitOpenGoesStale`).

## Assumptions

* One transaction is one atomic step, and persistence does not fail other than by a crash.
* New commits get fresh ids; commits, once made, do not change or disappear.
* The amend recheck and the commit after it are separate awaits in the model. That an amend is safe is proved
  for every run in which nobody changes the repository between the first command of the recheck and the
  commit; that window exists in the code. The window between the safety checkpoint and the reset is likewise
  covered by the claims about undisturbed restores only.
* A `git mv` or `git rm` that fails or times out changed nothing; the source reports it as failed.
* While the body of a mutation runs, the ledger changes only by its own transactions. The slot and the lock
  keep other mutations of the project out; a session that is revoked at one of the body's awaits is not
  modelled there (it is in `Lifecycle`).
* Digests are injective on what they stand for: the diff hash is modelled by the two trees it compares.
* A reconciliation checks the caller's session and that its operation is unknown, and then finishes it as
  failed, or queues for the lock, without a suspension in between (`mcp_server.py:2211-2243`), so the model
  fuses check and effect. With a stale read a failed operation could
  be finished as failed again, and its stored payload would change.
* That a continuation exists means: for some behaviour of callers and environment that the guards of the
  ledger admit. A caller with the identity of a session can be there, the project can be registered, Git can
  answer as a reconciliation needs, and whoever holds the lock can let go of it. A start after a shutdown
  recovers first, which moves nothing that is unknown.
* Session ids are drawn fresh: no stored operation names the id of a session that is yet to be opened.
* Sessions move only as the services move them: closed by a shutdown, blocked by the removal of their project
  or by a restart.
* The worktree of a file system is prefix-free: no path is both a file and a directory. The round trip of the
  whole worktree is stated for such worktrees.
* Recovery's order over rows is arbitrary, and its report is a set per list of the source.

## Model

| member | source | states |
|---|---|---|
| AuditHistory.TrailIsPath | bridge/src/codemcp_bridge/db/store.py:1033-1097 | In every consistent store the states an operation entered, read off the log, start at `received`, follow the edges of `OPERATION_TRANSITIONS` one by one, and end in the state the row is in. |
| AuditHistory.EntersEachStateOnce | bridge/src/codemcp_bridge/db/store.py:48-58 | No operation enters a state twice, so every run of an operation is finite and nothing before its current state ranks above it. |
| AuditHistory.OperationWrite | bridge/src/codemcp_bridge/db/store.py:1065-1097 | An operation's row and its event, written together, keep the log a complete history, add exactly that state to that operation's trail, and record no identity. |
| AuditHistory.SessionWrite | bridge/src/codemcp_bridge/db/store.py:445-485 | The same for a session row and its event. |
| AuditHistory.ApprovalWrite | bridge/src/codemcp_bridge/db/store.py:1181-1261 | The same for an approval row and its event. |
| AuditHistory.SilentAppend | bridge/src/codemcp_bridge/db/store.py:1099-1123 | Identity records and checkpoint events leave the history of every row as it was. |
| AuditHistory.FirstIdentity | bridge/src/codemcp_bridge/db/store.py:1125-1142 | The identity behind an operation is the one its first record in the log names; there is none exactly without a record. |
| AuditHistory.FirstSessionIdentity | bridge/src/codemcp_bridge/db/store.py:426-443 | So is the identity behind a session. |
| AuditHistory.CreateSessionConsistent | bridge/src/codemcp_bridge/db/store.py:357-416 | Opening a session keeps history, slot, key and approval invariants, or raises and changes nothing. |
| AuditHistory.TransitionSessionConsistent | bridge/src/codemcp_bridge/db/store.py:445-485 | So does moving a session. |
| AuditHistory.InsertOperationConsistent | bridge/src/codemcp_bridge/db/store.py:664-733 | An insert that `create_operation` performs never violates the one-slot or the one-key index, a null session included. |
| AuditHistory.TransitionOperationConsistent | bridge/src/codemcp_bridge/db/store.py:1033-1097 | So does every transition, which moves the operation's trail by exactly the new state, or not at all for a same-state rewrite. |
| AuditHistory.SlotOnlyByInsert | bridge/src/codemcp_bridge/db/store.py:33-40 | No transition adds an operation to the six states that occupy a project. |
| AuditHistory.EnteredFrom | bridge/src/codemcp_bridge/db/store.py:42-58 | From which states each state of a session, an operation and an approval can be entered. |
| AuditHistory.ApprovalStepsConsistent | bridge/src/codemcp_bridge/db/store.py:1144-1261 | Creating, consuming and cancelling an approval keep all invariants: every approval has its operation, none is `expired`, a consumed one was consumed before its expiry. |
| AuditHistory.RecordAuthConsistent | bridge/src/codemcp_bridge/db/store.py:1099-1123 | Recording an operation's identity keeps all invariants. |
| AuditHistory.CreateCheckpointConsistent | bridge/src/codemcp_bridge/db/store.py:793-851 | So does inserting a checkpoint. |
| AuditHistory.FinalizeCheckpointConsistent | bridge/src/codemcp_bridge/db/store.py:853-893 | So does finalizing one. |
| AuditHistory.MarkRestoredConsistent | bridge/src/codemcp_bridge/db/store.py:895-924 | So does marking one restored. |
| AuditHistory.RecoveryConsistent | bridge/src/codemcp_bridge/db/store.py:524-662 | So does restart recovery, whatever order it visits the rows in. |
| AuditHistory.RecoveryOutcome | bridge/src/codemcp_bridge/db/store.py:524-662 | Recovery uses only edges of the transition tables; among in-flight operations exactly the dispatched or running mutations become `unknown` and exactly the awaiting ones `cancelled`; no pending approval, open session or in-flight operation is left; afterwards a slot is held exactly by unknown mutations. |
| AuditHistory.RecoveryOfMutations | bridge/src/codemcp_bridge/db/store.py:524-662 | A mutation whose body had begun becomes `unknown`; one whose body had not begun becomes `failed` or `cancelled` exactly when it had not been dispatched. |
| AuditHistory.RecoveryTablesStable | bridge/src/codemcp_bridge/db/store.py:524-662 | Recovering a second time changes no table. |
| DatabaseStore.Database.CreateSession | bridge/src/codemcp_bridge/db/store.py:357-416 | The method leaves exactly the store of the transaction's specification, or raises on a duplicate id and leaves the old one. |
| DatabaseStore.Database.TransitionSession | bridge/src/codemcp_bridge/db/store.py:445-485 | The same for a session transition; an edge that is not in the table raises. |
| DatabaseStore.Database.CloseActiveSessions | bridge/src/codemcp_bridge/db/store.py:487-502 | After the loop exactly the active and closing sessions are `closed`, all others untouched. |
| DatabaseStore.Database.BlockActiveSessionsForProject | bridge/src/codemcp_bridge/db/store.py:504-522 | After the loop exactly the project's active and closing sessions are `blocked`, and those are the ones reported. |
| DatabaseStore.Database.RecoverAfterRestart | bridge/src/codemcp_bridge/db/store.py:524-662 | The three loops together leave a recovered store with nothing left to recover, report exactly the rows they settled, and change nothing at all when there was nothing to do. Row by row: an operation in flight becomes `unknown` with `UNKNOWN_SIDE_EFFECT` exactly if it was a dispatched or running mutation, otherwise `cancelled` or `failed` with `BRIDGE_RESTARTED`, and keeps all its other fields; open sessions become blocked by the restart, pending approvals withdrawn; every other row stays as it is. |
| DatabaseStore.Database.CreateOperation | bridge/src/codemcp_bridge/db/store.py:664-733 | An existing key returns its row, an occupied project reports its holder, otherwise one received row and its event are added; nothing else changes. |
| DatabaseStore.Database.ActiveMutation | bridge/src/codemcp_bridge/db/store.py:664-733 | The one mutation that occupies a project: exactly one that has neither succeeded nor failed nor been cancelled. |
| DatabaseStore.Database.TransitionOperation | bridge/src/codemcp_bridge/db/store.py:1033-1097 | Compare-and-swap on the expected state, edge check, same-state rewrite, one event per move; a raise changes nothing. |
| DatabaseStore.Database.RecordOperationAuthContext | bridge/src/codemcp_bridge/db/store.py:1099-1123 | Appends the identity record, or raises without a row. |
| DatabaseStore.Database.CreateApproval | bridge/src/codemcp_bridge/db/store.py:1144-1179 | One approval per operation and per token digest, pending; otherwise a raise that changes nothing. |
| DatabaseStore.Database.ConsumeApproval | bridge/src/codemcp_bridge/db/store.py:1181-1235 | Consumes exactly a pending, matching, unexpired approval; a missing one, a wrong token, a used or withdrawn one and an expired one are refused each exactly under its own name; the `expired` update is undone by its own raise. |
| DatabaseStore.Database.CancelApproval | bridge/src/codemcp_bridge/db/store.py:1237-1261 | Withdraws exactly a pending approval. |
| DatabaseStore.Database.CreateCheckpoint | bridge/src/codemcp_bridge/db/store.py:793-851 | Adds the row with its event, or raises for a duplicate id or an unknown operation. |
| DatabaseStore.Database.FinalizeCheckpoint | bridge/src/codemcp_bridge/db/store.py:853-893 | Sets only the after part and the diff hash. |
| DatabaseStore.Database.MarkCheckpointRestored | bridge/src/codemcp_bridge/db/store.py:895-924 | Sets only the status. |
| DatabaseStore.Database.FindSessionWipCheckpoint | bridge/src/codemcp_bridge/db/store.py:961-1031 | Finds a row exactly when one proves, in all the query's clauses, that the session owns the tip: a recorded, finalized, clean mutation of the active session that moved HEAD to the tip and succeeded; a read that changes nothing. |
| DatabaseStore.RestoreThenFind | bridge/src/codemcp_bridge/db/store.py:895-924 | A checkpoint that was restored is never found as evidence again, and no other row's evidence changes. |
| AccessServices.SessionService.Create | bridge/src/codemcp_bridge/session_service.py:24-32 | The new session is active, carries the caller's identity, and only such a caller may use it. |
| AccessServices.SessionService.RequireActive | bridge/src/codemcp_bridge/session_service.py:56-78 | Admits exactly an active session of the project that was opened under the caller's identity. |
| AccessServices.SessionService.AuthContextsMatch | bridge/src/codemcp_bridge/session_service.py:34-43 | True exactly when both sessions have the same identity or neither has one. |
| AccessServices.ApprovalService.Issue | bridge/src/codemcp_bridge/approval_service.py:45-56 | Stores the digest and the expiry of the token, or nothing. |
| AccessServices.ApprovalService.Consume | bridge/src/codemcp_bridge/approval_service.py:58-72 | Accepts a token exactly when its length is admissible, its digest is the stored one, and the approval is pending and not expired; `APPROVAL_EXPIRED` and `APPROVAL_ALREADY_USED` are answered exactly to the right token of an expired and of a used approval, `APPROVAL_INVALID` to every other; every refusal changes nothing. |
| AccessServices.ApprovalService.Cancel | bridge/src/codemcp_bridge/approval_service.py:74-80 | Withdraws a pending approval or reports that there is none. |
| AccessServices.IssueThenConsume | bridge/src/codemcp_bridge/approval_service.py:45-72 | A token that was issued is accepted within its time, exactly once: afterwards it is expired, and a second attempt finds it used. |
| OperationServices.OperationService.Start | bridge/src/codemcp_bridge/operation_service.py:66-187 | A row under the caller's key always answers: its stored payload to the same identity and hash, in progress while there is none, a conflict to anybody else. A payload is returned only for a row of the same project, session and request id whose identity and hash are the caller's, and it is the stored result, else that the outcome is unknown, else the stored error. An operation is started exactly when the request is well formed, nothing stored answers to it, the id is new and no mutation occupies the project; its row is validated and carries the caller's identity. Everything else changes nothing. |
| OperationServices.OperationService.AnswerRetry | bridge/src/codemcp_bridge/operation_service.py:120-160 | A retry is answered with the stored payload exactly when identity and hash agree and there is one; it conflicts exactly when one of them differs. |
| OperationServices.OperationService.FindStored | bridge/src/codemcp_bridge/operation_service.py:94-120 | The key's own row wins; only when there is none, and only for an OAuth caller, a legacy row with the same request id is found; none is found exactly when neither exists. |
| OperationServices.RetryTwice | bridge/src/codemcp_bridge/operation_service.py:66-187 | Two calls of `start` with any part of any run of the system between them: once the row under the caller's key is settled, both are answered with the same stored payload, without a plaintext token, or both with the same conflict. |
| OperationServices.RecoverThenRetry | bridge/src/codemcp_bridge/db/store.py:569-585 | A restart and then a retry of an operation that was in flight: its caller is told `unknown` with `UNKNOWN_SIDE_EFFECT` if it was a dispatched or running mutation, `cancelled` with `BRIDGE_RESTARTED` if it awaited approval, `failed` with `BRIDGE_RESTARTED` otherwise. |
| OperationServices.FinishThenRetry | bridge/src/codemcp_bridge/operation_service.py:206-222 | The end of an operation and then a retry: the answer has the status, the body, the error code and the error details of the payload it ended with, and no plaintext token. |
| OperationServices.OperationService.Dispatch | bridge/src/codemcp_bridge/operation_service.py:189-195 | Two transactions that end in `running` exactly from the expected state, and touch no other table; otherwise nothing changes. |
| OperationServices.OperationService.AwaitApproval | bridge/src/codemcp_bridge/operation_service.py:197-204 | Parks exactly a validated operation; its error is the notice in code and details, without the plaintext token, and nothing else changes. |
| OperationServices.OperationService.Finish | bridge/src/codemcp_bridge/operation_service.py:206-222 | Ends an operation exactly along an edge of the table, or rewrites its state: the stored result is the caller's payload in status, body, error code and details, without a plaintext token, the stored error that of the payload, and every other field and row is kept. |
| ReplayKeys.DecodeInvertsEncode | bridge/src/codemcp_bridge/resource_auth.py:497-515 | Decoding gives back the request id exactly when the id is free of the separator. |
| ReplayKeys.EncodeInjective | bridge/src/codemcp_bridge/resource_auth.py:497-508 | Separator-free ids share a key only with the same namespace, or the same lack of one, and the same id. |
| ReplayKeys.IdentitiesSeparated | bridge/src/codemcp_bridge/resource_auth.py:436-450 | The network profile never shares a key with an OAuth caller, and two OAuth callers share one only if their digests agree. |
| Lifecycle.KeepsInvariant | bridge/src/codemcp_bridge/mcp_server.py:309-481 | Every step of every coroutine, between any two transactions, crash and recovery included, keeps the system invariant that couples operations, approvals, checkpoints and reconciliations. Only `ReconcileFailed` reads and writes in one step, as the code does without a suspension in between. |
| Lifecycle.Reachable | bridge/src/codemcp_bridge/mcp_server.py:309-481 | So the invariant holds in every reachable state. |
| LifecycleRuns.EveryRowStep | bridge/src/codemcp_bridge/mcp_server.py:309-481 | What any step may do to one operation: append at most its own next state, start its body only by `Begin` of its own driver, leave `unknown` only by reconciliation, never touch a settled row, never change project or kind. |
| LifecycleRuns.AtMostOnce | bridge/src/codemcp_bridge/operation_service.py:66-195 | Over every interleaving of retries, confirmations, cancellations, reconciliations and crashes a (project, session, key) has one row and the body of a row starts at most once. |
| LifecycleRuns.OneMutationPerProject | bridge/src/codemcp_bridge/db/store.py:664-733 | In every reachable state a project has at most one mutation in the six active states. |
| LifecycleRuns.SlotKeptByEveryStep | bridge/src/codemcp_bridge/db/store.py:664-733 | A step puts an operation into those states only by creating it, and an unknown mutation stays there until it is reconciled. |
| LifecycleRuns.TerminalRowsFrozen | bridge/src/codemcp_bridge/operation_service.py:206-222 | Once succeeded, failed or cancelled, an operation's row never changes again in any continuation. |
| LifecycleRuns.ReplayIsStable | bridge/src/codemcp_bridge/operation_service.py:94-187 | The payload stored for a settled operation exists, never changes in any continuation and holds no plaintext approval token. |
| LifecycleRuns.FinishedAnswer | bridge/src/codemcp_bridge/operation_service.py:206-222 | In every continuation of every run, what a body succeeded or failed with is the stored answer of its operation, but for a plaintext token. |
| LifecycleRuns.IdentitiesFixed | bridge/src/codemcp_bridge/operation_service.py:160-187 | The identity that guards an operation's replays never changes once it is validated, and a session's identity never changes. |
| LifecycleRuns.ApprovalCoupling | bridge/src/codemcp_bridge/db/store.py:1144-1261 | In every reachable state a pending approval means validated or awaiting; an approved operation that is dispatched, running, succeeded or unknown had its approval consumed before expiry; none is ever `expired`. |
| LifecycleRuns.ConsumedOnceByItsToken | bridge/src/codemcp_bridge/approval_service.py:58-72 | A consumed approval was consumed exactly once, by a confirmation that presented the stored digest before expiry. |
| LifecycleRuns.CancelledNeverRan | bridge/src/codemcp_bridge/mcp_server.py:2137-2186 | A cancelled operation never entered `running` and its body never started. |
| Reconciliation.UnknownCanSucceed | bridge/src/codemcp_bridge/mcp_server.py:500-536 | In every reachable state an unknown operation has a continuation that ends with it succeeded exactly when it is already being reconciled as succeeded; or it has one mutation checkpoint that is not finalized, and somebody waits for the lock to reconcile it, or its session is open, was blocked by a restart or closed by a shutdown. |
| Reconciliation.UnknownCanFail | bridge/src/codemcp_bridge/mcp_server.py:500-536 | It has one that ends with it failed exactly when its session is open, was blocked by a restart or closed by a shutdown. |
| Reconciliation.UnknownCanSettle | bridge/src/codemcp_bridge/mcp_server.py:2188-2293 | So it can be settled at all exactly when one of the two is open. |
| Reconciliation.StuckForever | bridge/src/codemcp_bridge/mcp_server.py:2243-2262 | An unknown or failed operation for which success is not open in this sense never succeeds in any continuation. |
| Reconciliation.HeldForever | bridge/src/codemcp_bridge/db/store.py:664-733 | A mutation that can no longer be settled stays unknown in every continuation, keeps its project's slot, and no further mutation of that project is ever stored. |
| Reconciliation.ReconciledByOwner | bridge/src/codemcp_bridge/mcp_server.py:500-536 | A reconciliation gets past its checks exactly for an unknown operation and an active session of its project that is its own, or that has the identity of an origin which a restart blocked or a shutdown closed. |
| WitnessRuns.FinalizedButUnknown | bridge/src/codemcp_bridge/mcp_server.py:559-583 | A run that gets there: a crash between the finalization of a body's checkpoint and the end of its operation leaves an unknown operation that may be reconciled as failed and that no continuation lets succeed. |
| WitnessRuns.RevokedForever | bridge/src/codemcp_bridge/mcp_server.py:291-298 | A run that ends with a mutation nobody can settle: it finishes as unknown, with one open checkpoint, and then its project is removed, which revokes its session; its slot is held in every continuation. |
| WitnessRuns.DispatchedNotBegunRecoversToUnknown | bridge/src/codemcp_bridge/operation_service.py:189-195 | A run that crashes between the two transactions of a dispatch: the body never began, and recovery still makes the operation `unknown`. |
| Footers.FooterReadBack | bridge/src/codemcp_bridge/git_guard.py:273-293 | A WIP message is read back as its own session exactly when no later line of the description, at any of Python's line breaks, opens like a footer; otherwise no session is read, never another one. |
| Footers.FooterIsLastLine | bridge/src/codemcp_bridge/git_guard.py:281-293 | For any message: a session is read exactly when the last line, after trailing line ends, is its footer and no other line opens like a footer. |
| Footers.MessageLines | bridge/src/codemcp_bridge/git_guard.py:430-462 | The message of a commit is the description with its mark, a blank line and the session's footer. |
| Footers.PlainDescriptionsUnambiguous | bridge/src/codemcp_bridge/git_guard.py:430-462 | Descriptions without any line break are always read back. |
| Footers.AmbiguousDescription | bridge/src/codemcp_bridge/git_guard.py:430-462 | A description that the commit arguments accept although its footer cannot be read back. |
| Repository.CleanMeans | bridge/src/codemcp_bridge/git_guard.py:158-189 | No changed path means: the index is HEAD's tree, tracked files are unmodified, and every untracked file is ignored. |
| Repository.CommitOnlyCleans | bridge/src/codemcp_bridge/git_guard.py:461-462 | A commit of every changed path leaves a clean workspace. |
| Repository.CheckpointRefsShareNothing | bridge/src/codemcp_bridge/git_guard.py:320-365 | Checkpoint refs never count as published refs, so they cannot block an amend. |
| Repository.ReachesByPath | bridge/src/codemcp_bridge/git_guard.py:341-349 | Reaching a commit is exactly having a sequence of commits that leads to it, each a parent of the one before. |
| Repository.SharedByPath | bridge/src/codemcp_bridge/git_guard.py:341-365 | The shared refs of a tip are exactly the remote refs, tags and other branches from which such a sequence leads to it. |
| Workspaces.Workspace.Status | bridge/src/codemcp_bridge/git_guard.py:158-189 | Branch, HEAD and changed paths come from three commands that may each see another repository; reading changes nothing. |
| Workspaces.Workspace.SharedRefsContainingHead | bridge/src/codemcp_bridge/git_guard.py:320-365 | Exactly the remote refs, the tags and the branches other than the current one from which a path of parents leads to the tip; on a detached HEAD every branch counts. |
| Workspaces.Workspace.ReadSessionFooter | bridge/src/codemcp_bridge/git_guard.py:295-307 | The footer of a fixed commit. |
| Workspaces.Workspace.VerifyAmendTarget | bridge/src/codemcp_bridge/git_guard.py:382-415 | Passes only if branch, HEAD and refs, read at four awaits, are as expected; undisturbed, exactly when they are and no remote ref, tag or other branch has a path of parents to the tip. |
| Workspaces.OwnMoves | bridge/src/codemcp_bridge/git_guard.py:107-156 | Nothing happens to a repository unaccounted for: between any two moments of one history every move is the next step of others or a logged command of the bridge that did what that command does; without a new logged command only others moved. |
| GitGuards.CommitIsSafe | bridge/src/codemcp_bridge/git_guard.py:382-415 | An amend that ran where its recheck left the repository, at five awaits in a row, replaces the expected tip on the expected branch, to which no remote ref, tag or other branch has a path of parents, and keeps its parents and message. |
| GitGuards.CommittedIsolated | bridge/src/codemcp_bridge/git_guard.py:430-462 | A commit of everything that had changed is clean, differs from HEAD's tree only in its paths, and has the parents of its mode. |
| GitGuards.AmendIsolated | bridge/src/codemcp_bridge/git_guard.py:664-690 | An amend of the expected head that leaves a clean workspace is isolated, whatever else had changed before it. |
| GitGuards.GitGuard.Commit | bridge/src/codemcp_bridge/git_guard.py:430-462 | One commit command: in its mode, from the HEAD it finds, with only its paths taken from the worktree, or nothing. |
| GitGuards.GitGuard.CommitAndConfirm | bridge/src/codemcp_bridge/git_guard.py:664-690 | Recheck, commit and check of the result: at most one commit command takes effect, in its mode, and an amend is safe unless the repository changed during the last five awaits; undisturbed it succeeds exactly when it committed. |
| GitGuards.GitGuard.CommitFileBytes | bridge/src/codemcp_bridge/git_guard.py:547-699 | Whatever happens at the awaits: after an error other than unknown every move of the repository was others'; every amend is safe unless somebody interfered with its recheck; the old head is returned only if nothing was committed. The new head is clean, differs only in the path and has the right parents if others act at no more than the first five awaits for a new commit, the first nine for an amend; at no more than the first three, it holds the given content in both modes. Undisturbed on a clean expected head the result is given exactly, a success that Git does not see included. |
| GitGuards.GitGuard.MoveTrackedFile | bridge/src/codemcp_bridge/git_guard.py:701-789 | The same for a move, isolated for up to six disturbed awaits for a new commit and nine for an amend; for up to three, in both modes, the new tree is the old one with that one entry renamed. |
| GitGuards.GitGuard.DeleteTrackedFile | bridge/src/codemcp_bridge/git_guard.py:791-876 | The same for a deletion, isolated for up to six disturbed awaits for a new commit and nine for an amend; for up to four, in both modes, the new tree is the old one without that path. |
| AwaitBounds.SixthAwaitMovesTheParent | bridge/src/codemcp_bridge/git_guard.py:547-699 | The bound of five for new commits is sharp: a run with six disturbed awaits whose commit has another parent. |
| AwaitBounds.FourthAwaitReplacesTheContent | bridge/src/codemcp_bridge/git_guard.py:547-699 | So is the bound of three on the content: a run with four whose commit holds the content of others. |
| AwaitBounds.SeventhAwaitMovesTheMove | bridge/src/codemcp_bridge/git_guard.py:701-789 | A run of a move that makes a new commit, with seven disturbed awaits, whose commit has another parent. |
| AwaitBounds.FourthAwaitRewritesTheMove | bridge/src/codemcp_bridge/git_guard.py:701-789 | A run of a move with four disturbed awaits that carries the content of others along. |
| AwaitBounds.SeventhAwaitMovesTheParent | bridge/src/codemcp_bridge/git_guard.py:791-876 | A run of a deletion that makes a new commit, with seven disturbed awaits, whose commit has another parent. |
| AwaitBounds.FifthAwaitKeepsTheFile | bridge/src/codemcp_bridge/git_guard.py:791-876 | A run of a deletion with five disturbed awaits whose commit still has the file. |
| AwaitBounds.TenthAwaitAmendsAnotherCommit | bridge/src/codemcp_bridge/git_guard.py:382-415 | The bound of nine for amends is sharp: a run of a write with ten disturbed awaits that amends a commit of others, whose file the new head keeps. |
| AwaitBounds.TenthAwaitAmendsAnotherDeletion | bridge/src/codemcp_bridge/git_guard.py:791-876 | The same for a deletion. |
| AwaitBounds.TenthAwaitAmendsAnotherMove | bridge/src/codemcp_bridge/git_guard.py:701-789 | The same for a move. |
| GitGuards.GitGuard.Snapshot | bridge/src/codemcp_bridge/git_guard.py:203-220 | A status and HEAD's files, from four possibly different repositories, and exactly when it succeeds; undisturbed, of one. |
| GitGuards.GitGuard.SetCheckpointRef | bridge/src/codemcp_bridge/git_guard.py:246-249 | Each move of the bridge changed nothing but this one checkpoint ref; the ref is only set to an existing commit. |
| GitGuards.GitGuard.DeleteCheckpointRef | bridge/src/codemcp_bridge/git_guard.py:251-253 | Each move of the bridge changed nothing but this one checkpoint ref. |
| GitGuards.OnlyRefMoved | bridge/src/codemcp_bridge/git_guard.py:246-253 | Over any stretch in which nobody else moves, moves that only touch one checkpoint ref leave commits, HEAD, index, worktree and every other ref as they were. |
| GitGuards.GitGuard.ResolveCheckpointRef | bridge/src/codemcp_bridge/git_guard.py:255-266 | The commit the ref names. |
| GitGuards.GitGuard.DiffNamesBetween | bridge/src/codemcp_bridge/git_guard.py:921-945 | Exactly the paths that differ between the ref's commit and the fixed commit, refused if one is sensitive. |
| GitGuards.GitGuard.DiffBetween | bridge/src/codemcp_bridge/git_guard.py:961-983 | The hash of the difference of the same two trees. |
| PathPolicy.SensitiveStep | bridge/src/codemcp_bridge/project_registry.py:64-70 | A path is sensitive exactly when its directory is or its last component matches a pattern. |
| PathPolicy.SensitiveByGlob | bridge/src/codemcp_bridge/project_registry.py:22-70 | A component is sensitive exactly when, in lower case, it matches one of the shell patterns: the names, `*.env`, `*.env.*`, or `*` and a suffix. |
| CheckpointServices.OneFixedPair | bridge/src/codemcp_bridge/checkpoint_service.py:83-152 | While the checkpoint ref is left alone, the recorded names and diff describe the pair (checkpoint commit, expected head), whatever HEAD did in between. |
| CheckpointServices.CheckpointService.Create | bridge/src/codemcp_bridge/checkpoint_service.py:42-81 | On success one fresh row of a clean snapshot whose ref names its head; on failure no row, and the bridge changed nothing but that ref; undisturbed it succeeds exactly on a clean HEAD with a fresh id and an existing operation. |
| CheckpointServices.CheckpointService.Finalize | bridge/src/codemcp_bridge/checkpoint_service.py:83-152 | Succeeds, whatever others do, exactly when the eleven commands see what they must; then HEAD and branch were as expected both before and after the comparison, and the row gets exactly its after part; on failure the ledger is unchanged. If others act at no more than the first nine awaits, files and dirty flag describe the recorded HEAD. |
| ReviewBound.TenthAwaitMixesTheHeads | bridge/src/codemcp_bridge/checkpoint_service.py:110-152 | The bound of nine is sharp: a successful finalization with ten disturbed awaits that records one HEAD with the files of another, and calls a clean workspace dirty. |
| CheckpointServices.CheckpointService.DetermineCommitMode | bridge/src/codemcp_bridge/checkpoint_service.py:154-215 | Amend is chosen only with the ledger's proof and the session's own footer; undisturbed, exactly when scope, clean workspace, branch, HEAD, ledger and footer agree and no remote ref, tag or other branch has a path of parents to the tip; it changes nothing. |
| SharedTips.AheadForcesCreate | bridge/src/codemcp_bridge/checkpoint_service.py:203-210 | Undisturbed, a remote ref, a tag or another branch from which a path of parents leads to the tip forces a new commit, whatever ledger and footer say. |
| SharedTips.OneBranchDecides | bridge/src/codemcp_bridge/checkpoint_service.py:154-215 | Two runs of the choice with the same ledger and the same tip of the session: it is amended while only its branch names it, and kept once another branch is one commit ahead. |
| CheckpointServices.CheckpointService.VerifyRef | bridge/src/codemcp_bridge/checkpoint_service.py:227-245 | Passes only while the ref names the recorded commit; undisturbed, exactly then. |
| CheckpointServices.CheckpointService.GetForSession | bridge/src/codemcp_bridge/checkpoint_service.py:247-266 | Shows a checkpoint exactly to the session of the project that made it. |
| MutationModel.CommitJustified | bridge/src/codemcp_bridge/checkpoint_service.py:154-215 | Every amend of a mutation was backed, when the mode was chosen, by a finalized, succeeded, HEAD-moving mutation of the same session in the ledger; unless the repository changed at its last five awaits it replaces that very commit, with exactly this session's footer; every new commit carries the session's footer. |
| MutationModel.AssembleOutcome | bridge/src/codemcp_bridge/mcp_server.py:538-583 | Checkpoint, mode, Git mutation and finalization together: for an error other than unknown every command of the bridge changed nothing but the checkpoint ref, and at most an unfinished checkpoint is recorded. |
| MutationModel.MovesOfBody | bridge/src/codemcp_bridge/mcp_server.py:538-583 | The same of the repository's moves: after an error other than unknown all of them are others' or of the checkpoint ref, and every own amend and commit among them is justified. |
| MutationModel.AmendedTip | bridge/src/codemcp_bridge/git_guard.py:382-415 | What stands behind every amend, spelled out: a recorded, succeeded mutation of the session that had moved HEAD to the checkpoint's head; and if the repository was the same at the five awaits up to it, the replaced tip is that head, with the session's footer, no remote ref, tag or other branch has a path of parents to it, and parents and message are kept. |
| MutationModel.ModeEarned | bridge/src/codemcp_bridge/checkpoint_service.py:154-215 | Undisturbed, the mode is the one that ledger, footer and refs earn; the mutation's own fresh checkpoint is no evidence. |
| MutationModel.MovedReviewable | bridge/src/codemcp_bridge/checkpoint_service.py:83-152 | Nothing about a commit of harmless paths can make its finalization fail. |
| MutationModel.AssembleStep | bridge/src/codemcp_bridge/mcp_server.py:538-583 | An undisturbed mutation either leaves commits, refs and HEAD as they are, or makes exactly one commit in the earned mode, records it, and succeeds. |
| MutationServices.MutationService.Begin | bridge/src/codemcp_bridge/mcp_server.py:538-557 | Preconditions, one fresh checkpoint and the mode; a failure changes no row and, of the repository, only that ref; undisturbed it succeeds exactly on an allowed branch of a clean repository with a fresh checkpoint id, and each failure has its code. |
| MutationServices.MutationService.Finish | bridge/src/codemcp_bridge/mcp_server.py:559-583 | Finalizes against the committed head; a result that cannot be recorded is unknown. |
| MutationServices.MutationService.EditFile | bridge/src/codemcp_bridge/mcp_server.py:853-941 | A create, edit or overwrite keeps the promises of every mutation, of its log and of the repository's moves. Undisturbed, HEAD moves only on success, and then to the old files with the one path changed as the caller asked: the new file's text as it is; the first place of the old text, in lines with the file's own ending, now the new text's lines with that ending; or the text's lines for the known content. Success leaves exactly that in the worktree, without a commit exactly if nothing changed or the path is ignored and untracked. Every refusal is given with its code, and undisturbed there is no other. |
| MutationServices.MutationService.MoveFile | bridge/src/codemcp_bridge/mcp_server.py:1136-1253 | A move keeps them too; undisturbed, HEAD moves only to the old files with that one entry renamed; every refusal is given with its code, and undisturbed a tracked file with a free destination and valid arguments is always moved. |
| MutationServices.MutationService.DeleteFile | bridge/src/codemcp_bridge/mcp_server.py:1255-1329 | So does a deletion; undisturbed, HEAD moves only to the old files without that path; every refusal is given with its code, and undisturbed a tracked file with valid arguments is always deleted. |
| MutationServices.PreparedKeepsEndings | bridge/src/codemcp_bridge/mcp_server.py:1031-1134 | Edits and overwrites of an existing file keep its line endings. |
| MutationServices.PreparedAsAsked | bridge/src/codemcp_bridge/mcp_server.py:188-206 | The bytes to write are what the caller asked for, and are refused exactly when the old text does not stand in the file once, or the content is not the known one. |
| Execution.ExecutionService.Execute | bridge/src/codemcp_bridge/mcp_server.py:309-481 | One file mutation request through start, dispatch, body and end. Refused or answered from the store, it changes nothing. Otherwise the operation succeeded exactly if its body did, is unknown exactly if the body's error is the unknown side effect, and failed otherwise; the answer is stored for retries and has the status and the code of that error, or the summary of the recorded checkpoint; only an unknown one keeps the project's slot. A failed operation changed nothing of the repository but its checkpoint ref: all other moves were others', and undisturbed commits, HEAD, index, worktree and every other ref are as they were. The codes of an unusable session, a bad description, a sensitive path, a missing file and an occupied target are given for every run, those of a forbidden branch, a dirty workspace and a text that does not stand in the file for undisturbed ones, and undisturbed every other well-formed request succeeds. Undisturbed the whole is one step of a series in the sense of `CommitCount`. |
| CommitCount.ModeIsLastMover | bridge/src/codemcp_bridge/checkpoint_service.py:154-215 | Within a series of mutations by fresh sessions the earned mode is to amend exactly when the same session made the last move of HEAD. |
| CommitCount.TallyMoves | bridge/src/codemcp_bridge/git_guard.py:430-462 | After a move the chain above the start gains this session's commit, or has its own last commit replaced. |
| CommitCount.LedgerIdle | bridge/src/codemcp_bridge/db/store.py:961-1031 | A mutation that did not move HEAD adds no evidence and takes none away. |
| CommitCount.LedgerMoves | bridge/src/codemcp_bridge/db/store.py:961-1031 | A mutation that moved HEAD makes the ledger prove its session as the last mover. |
| CommitCount.CommitsAreBlocks | bridge/src/codemcp_bridge/checkpoint_service.py:154-215 | After any undisturbed series the commits above the starting HEAD are one per maximal block of consecutive HEAD-changing mutations by one session, oldest first, each with its own session's footer, on top of the starting HEAD. |
| RestoreServices.RestoreArrives | bridge/src/codemcp_bridge/mcp_server.py:1767-1868 | An undisturbed restore keeps the branch, leaves HEAD at the checkpoint, the workspace clean with its files, and the old HEAD under the safety ref; no file becomes a directory as well. |
| RestoreServices.RestoreRoundTrip | bridge/src/codemcp_bridge/mcp_server.py:1767-1868 | A restore to the old HEAD afterwards returns branch, HEAD, index, files and all other refs; the whole worktree returns exactly when no untracked path was, was above or was below a file of the target. |
| RestoreServices.DirectoryInTheWayIsLost | bridge/src/codemcp_bridge/git_guard.py:268-270 | A clean repository that loses an ignored file below a directory that the target has as a file. |
| RestoreServices.ResetIsRestore | bridge/src/codemcp_bridge/mcp_server.py:1767-1868 | A reset on top of an undisturbed safety checkpoint is such a restore, and can be recorded exactly when no differing name is sensitive. |
| RestoreServices.RestoreService.Check | bridge/src/codemcp_bridge/mcp_server.py:1776-1801 | The compare-and-swap reads: own checkpoint, intact ref, expected branch and HEAD; undisturbed, exactly these. |
| RestoreServices.RestoreService.ResetToCheckpoint | bridge/src/codemcp_bridge/git_guard.py:268-270 | At most one command takes effect, the hard reset to the commit that the checkpoint ref named. |
| RestoreServices.RestoreService.Restore | bridge/src/codemcp_bridge/mcp_server.py:1767-1868 | For an error other than unknown all moves of the repository were others' or of the safety ref, and the ledger is unchanged; success marks exactly this checkpoint restored and finalizes exactly the safety row; undisturbed, admission, success and the resulting repository are given exactly, and the safety row stands for the HEAD and the branch that were left. |
| RestoreServices.RestoreService.ThereAndBack | bridge/src/codemcp_bridge/mcp_server.py:1767-1868 | Two calls: whenever an undisturbed restore succeeds, the restore of its safety checkpoint succeeds too, exactly when its own safety id is new and its operation exists, and then everything is as before, the worktree under the condition of the round trip; of the ledger only the rows of the three checkpoints change, and how is stated. |
| RestoreServices.UnrecordableRestore | bridge/src/codemcp_bridge/mcp_server.py:1808-1853 | An admitted restore of a clean repository that cannot be recorded, because a differing name is sensitive. |
| Porcelain.ParseStatus | bridge/src/codemcp_bridge/git_guard.py:158-189 | The index loop computes the entry-by-entry reading, overshooting index included; dirty exactly when it is not empty. |
| Porcelain.StatusRoundTrip | bridge/src/codemcp_bridge/git_guard.py:158-189 | Parsing what Git prints for any list of records gives exactly their paths in order, each original path after its new one; dirty exactly when there is a record. |
| LineEndings.CountsAgree | bridge/src/codemcp_bridge/mcp_server.py:181-185 | The source's two counts agree exactly when every line feed follows a carriage return. |
| LineEndings.EditsKeepLineEndings | bridge/src/codemcp_bridge/mcp_server.py:188-201 | An accepted edit keeps carriage returns before all line feeds, across both seams, and a file without carriage returns stays without. |
| LineEndings.OverwritesKeepLineEndings | bridge/src/codemcp_bridge/mcp_server.py:204-206 | So does an overwrite. |
| LineEndings.AcceptedExactly | bridge/src/codemcp_bridge/mcp_server.py:188-201 | An edit is accepted exactly when the old text, in lines with the file's own ending, stands in the file and every other place of it overlaps the first; the empty text exactly in an empty file. |
| LineEndings.EditsReplace | bridge/src/codemcp_bridge/mcp_server.py:188-201 | An accepted edit is the file with the first place of the old text, in lines with the file's own ending, replaced by the new text's lines with that ending, and nothing else changed. |
| LineEndings.MatchedLines | bridge/src/codemcp_bridge/mcp_server.py:181-185 | What is written of the caller's text has exactly his lines, split at carriage return with line feed or at either alone, and one ending throughout: pairs if the file has line feeds and each follows a carriage return, line feeds otherwise. |
| LineEndings.LinesReadBack | bridge/src/codemcp_bridge/mcp_server.py:181-185 | Joined with either ending, lines are read back as they were. |
| LineEndings.OverlapAccepted | bridge/src/codemcp_bridge/mcp_server.py:188-201 | An accepted edit whose old text occurs at two places, against the promise of exactly one occurrence. |
| FileTree.Sorted | bridge/src/codemcp_bridge/project_registry.py:277-281 | Sorting loses and adds no entry. |
| FileTree.SortedIsSorted | bridge/src/codemcp_bridge/project_registry.py:277-281 | The listing is ordered by lower-case name, descending for the stack. |
| FileTree.SortedIsStable | bridge/src/codemcp_bridge/project_registry.py:320-324 | Entries with equal lower-case names keep their order, in both directions. |
| SearchRoots.SafeRoots | bridge/src/codemcp_bridge/project_registry.py:277-308 | The recursion with its growing list: excluded exactly when something below is; the whole directory when nothing is; and its roots cover exactly the visible files. |
| SearchRoots.SafeSearchPaths | bridge/src/codemcp_bridge/project_registry.py:261-275 | Searching the roots meets exactly the regular files without a linked or sensitive component, in order; the target stays whole exactly when nothing below it is excluded. |
| SearchRoots.VisibleIsFilter | bridge/src/codemcp_bridge/project_registry.py:277-308 | Those files are everything a search could meet, filtered by kind and sensitivity. |
| SearchRoots.CoveredOnce | bridge/src/codemcp_bridge/project_registry.py:277-308 | No file is covered twice. |
| DirectoryTree.SafeDirectoryTree | bridge/src/codemcp_bridge/project_registry.py:310-363 | The stack loop returns the first `max_entries` lines of the recursive pre-order and says that it stopped exactly when there are more; it ends because the nodes on the stack run out. |
| DirectoryTree.PopStep | bridge/src/codemcp_bridge/project_registry.py:332-361 | Popping one entry shows it and puts its children in its place in the pre-order. |
| DirectoryTree.ChildrenAscend | bridge/src/codemcp_bridge/project_registry.py:320-324 | The pre-order takes children by ascending lower-case name although they are pushed descending. |
| RegistryReload.ProjectRegistry.RefreshIfChanged | bridge/src/codemcp_bridge/project_registry.py:140-207 | Installs exactly when the file is news at both looks, loads, moves no root and is unchanged at the last look, and then remembers its fingerprint; every other outcome keeps the snapshot and records its cause. |
| RegistryReload.RefreshTwice | bridge/src/codemcp_bridge/project_registry.py:140-207 | A file that was installed is not installed again while it stays as it is, and one that did not load is not tried again. |
| RegistryReload.BridgeService.RefreshProjectRegistry | bridge/src/codemcp_bridge/mcp_server.py:291-298 | After an install exactly the open sessions of removed projects are blocked; otherwise nothing but the reload status changes. |
| RegistryRuns.GenerationCounts | bridge/src/codemcp_bridge/project_registry.py:140-207 | Over whole runs the generation counts the installs, and without one the projects stay as they were. |
| RegistryRuns.RootsMoveOnlyThroughRemoval | bridge/src/codemcp_bridge/project_registry.py:168-180 | A project's root differs between two times only if a snapshot without it was installed in between. |
| RegistryRuns.SessionsStayOnTheirRoot | bridge/src/codemcp_bridge/mcp_server.py:592-618 | In every run all open sessions work on the root they were opened under, at all times, exactly when every session creation finds its project registered with the root that its opener had looked up. |
| RegistryRuns.SplitOpenGoesStale | bridge/src/codemcp_bridge/mcp_server.py:592-618 | A run that breaks it: removal and re-addition at another root between lookup and creation. |

## Left out

- Processes, timeouts and output limits of Git, process killing, PID ownership, secret stores, transports: platform glue.
- OAuth validation, network-trust middleware, MCP registration: an identity is a frozen tuple or the network profile.
- Malformed stored JSON, malformed or empty identity fields, the schema and its migrations.
- Wall-clock texts other than the approval expiry, owner ids (one constant), event details and event-type texts.
- `list_audit_events` orders by millisecond and random id; log properties are stated over insertion order.
- Liveness: a cancelled read builds an error code that `errors.py` does not know, so not every operation is shown to become terminal.
- The generic `except Exception` path of `_execute` that records a mutation as failed.
- Registered commands and the finalization without an expected head that they use; grep filtering, readiness, profiles.
- The commit-mode-free call of `commit_file_bytes`, which no caller in the bridge uses; `commit_paths` and `create_wip_commit`, which repeat its last part.
- `directory_create`: creates a directory and a marker file through `commit_file_bytes`, and removes the directory again on failure.
- Git hooks, message cleanup of trailing blanks, annotated tags as objects of their own, unborn history, a branch called `HEAD`, file modes, symbolic links and empty directories in a tree, exclusion rules that change with the tree.
- Upper and lower case of commit hashes; case folding beyond ASCII.
- Size limits, binary detection and the existence of parent directories, checked before a file mutation.
- The mutation locks as objects: the claims about Git are proved against arbitrary interference with the repository.
- Finalize: ties the dirty flag and the file hashes to the expected head only while others act at no more than its first nine awaits, because the source does not tie them.
- Restore: does not claim that the reset hits the checked HEAD when others act between the check and the reset.
- CommitsAreBlocks: does not extend to restores, after which the evidence for the old tip is gone.
- SafeSearchPaths: does not model entries that change while they are listed; the tree is one finite value.
- RegistryReload: does not model links in project roots; a root is its resolved path.

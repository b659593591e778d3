# The offline sync engine and the state machines around it

A laptop and a server each hold projects, memos, memo versions and memberships, and replicate them row by row:
the last writer wins, the server wins ties, and the losing text of a memo survives as a version. Row triggers
fill a change log on each node; the client fixes outgoing payloads in a durable outbox, the server answers each
seq once and keeps a receipt, and what the client cannot apply yet waits in a durable inbox. This project models
that protocol as code and as a two-node state machine and proves what it is for: convergence, exactly-once
effect, no silent overwrite, nothing lost behind a cursor, no lost text, and that it comes to rest without echo.
Around it stand the authorisation of a pushed batch, the lease registry and its delegation, the duplicate merges,
saving a memo, and login sessions.

## How it is built

- **Policy.** `SyncSchema`, `SyncStore`, `SyncApply` and `SyncBatch` say what one change and one batch do, as
  functions: `ApplyOne` for a row, `Fold` over row transitions for a batch. The database's NOT NULL, foreign-key
  and UNIQUE constraints are `ConstraintsHold`; a write that breaks one raises and its row is rolled back.
  `SyncBatchProofs`, `SyncReceiptProofs`, `SyncEffectProofs` and `SyncApplyProofs` prove accounting, replay,
  conflict preservation, echo freedom and dependency order about them. What each decision means is said a second time
  without its own words, on columns, clocks, roles and log entries: `SyncOutcome` for one change, `SyncOneSided` for
  the edit of one side, `SyncVisibility` for the feed, `SyncRoles` for the authorisation, `SyncSettling` for the
  client's books.
- **Node.** `SyncNode` holds the classes: a node with its tables, receipts and applying flag, updated in place with
  savepoints and loops. Its methods are proved equal to the policy functions. `SyncEndpoint` puts authorisation in
  front of the push transaction, and `SyncGate` says which single pushes it refuses.
- **Protocol.** `SyncQueue` has the client's bookkeeping, `TwoNode` the two-node system. Each database transaction
  and each message is one atomic step. Messages sit in sets that only grow, so a request or response may be lost,
  repeated, delayed or reordered; a crash drops the page in memory. A run is a list of steps, each enabled in the
  state it meets. `SyncInvariants` to `SyncTexts` prove safety of every run, and `SyncProgress` to `SyncStandstill`
  progress, with a lexicographic measure: pending work about projects, memos and memberships first, then pending
  work about versions, because settling a memo may add one version.
- **Runs that show a limit.** `SyncClocks` and `SyncTies` say when an edit arrives whatever its stamp, and show runs
  in which one does not; `SyncMovedVersions` has a version change its memo, `SyncStarvation` a queue that starves,
  `SyncRefusal` a push that is refused for ever. `SyncSamples` holds the rows they use.
- **Daemon.** `SyncDaemon` is the client's loop as a class, over the steps of `SyncDaemonSteps`. A ghost `trace`
  records the steps it has taken, and `Valid()` says that the two nodes are in the state the trace leads to. Users
  of both nodes may write between any two of its transactions (`Interlude`); their edits are in the trace too. So
  every theorem about runs is a theorem about the loop, whatever requests the network drops. What it promises about
  progress it promises while users are quiet.
- **Beside the engine.** `SyncAuthorize` and `SyncAuthorizeProofs`; `LockRegistry` and `Realtime`; `Merge`,
  `MergeOutcome` and `MergeProjects`; `MemoHistory`; `SessionAuth`.

## Hypotheses

- *Strict clocks.* In two-node runs an edit, on either node, is stamped later than the row it edits. From rest, a
  client edit arrives exactly when it is (`EditArrivesExactlyWhenLater`, `OldStampIsLost`). A server edit arrives
  from rest exactly when it is not stamped earlier (`ServerEditArrivesExactlyUnlessOlder`); a tie, though, can be
  taken back by an older item that waited in the inbox (`TieIsLost`), so in runs the server's edits are strict as
  well.
- *One client, one account* in two-node runs: every project belongs to the account, so all rows are visible. Feeds
  and pushes of many accounts are treated for one node (`SyncVisibility`, `SyncRoles`).
- *What was agreed is remembered.* That an edit of one side alone is no conflict needs the client to remember the
  clock of the row it holds (`OneSidedEditIsNoConflict`); it does after a push or a pull that arrived
  (`PushedEditIsRemembered`, `PulledEditIsRemembered`), and otherwise the condition is exact (`ItemConflicts`).
- *No hard deletes* in two-node runs (they are in the single-node policy and its proofs): the code stamps them with
  the receiver's clock and the feed drops vanished rows.
- *Rest.* The nodes agree at rest but for rows with a dead letter and rows that wait for such a row
  (`CanComeToRest`); each dead letter has its issue (`DeadLettersAreReported`).
- *Refused pushes.* The client pushes each outbox entry alone, lowest seq first, and the endpoint refuses a memo, a
  membership or a new version whose parent it does not store (`OrphanPushIsForbidden`). A refusal ends the cycle
  before it pulls, and the next cycle meets it again. So once such an entry is listed before its parent, the client
  neither pushes what is behind it nor pulls (`RefusedMemoStopsEverything`, with three offline edits). The loop's
  progress condition `CanMove` says when a cycle gets anywhere, if and only if; the loop is promised to reach rest
  only where no listed push is refused (`CycleToRest`).
- *A peer that only applies.* The same loop is also proved against a peer without authorisation (`gate` is `None`),
  which defers such an entry and goes on (`OpenPeerMoves`). The shipped endpoint is the peer whose `gate` is the
  account. The two-node protocol allows a delivery to be deferred; it contains every run of either peer, and a refused
  request is no step of it.
- *Batch limit.* The client lists the `limit` lowest queued seqs and no others. Entries behind a full batch of
  entries that lack their parents are never tried (`StarvationIsReachable`), so the loop is promised to reach rest
  only where at most `limit` entries per direction are left waiting (`CycleToRest`). The protocol itself has no such
  limit.
- *Generated values are fresh where that matters.* A version id stands for one text and for the memo the version was
  first written under (`WriteOnce`); edits may move versions between memos, as merging two memos does, and what that
  excludes is said exactly (`StaysHomeExactlyUnlessMoved`). Lease tokens and session ids do not repeat. That the
  authorisation server issues no refresh token twice is needed for `OneRefreshPerToken` alone. Two projects merged,
  and batches authorised, meet a database whose constraints hold; for authorisation, also one without a project or
  memo whose id is empty, which no writer creates. Every push leaves such a database behind.
- Where texts are compared in SQL, equality is an abstract relation, reflexive where a text has to equal itself.

## Where the code and its documents differ

The model follows the code.

- `.idea/completed/TODO_OFFLINE_SYNC_TODO_API_FASTAPI_PLAN.md:75` records every change with an older or equal clock
  as a conflict. The code records one only when both sides changed the row since they last agreed
  (`src/services/sync_apply.py:353-400`); an older change without divergence is skipped with no trace.
- Line 74 of that plan defers every row that breaks a foreign key. The code defers a row only when it names a
  non-empty parent id (`src/services/sync_apply.py:478-480`); an empty or missing one is rejected by the database.
- The same line has such a row wait for the next round, as when a project and a memo in it are created offline. A
  pushed row is authorised first (`src/routers/sync.py:384-436`), and a memo without its project is refused there, so
  the wait never comes about for it (`RefusedMemoStopsEverything`).
- The comment on divergence speaks of a base clock. A pushed change that carries a base seq is judged by the
  server's own log alone (`src/services/sync_apply.py:437-448`), and its base clock is not looked at.

## Model

| member | source | states |
|---|---|---|
| SyncBatchProofs.BatchAccounts | src/services/sync_apply.py:119-233 | every change of a batch gets exactly one result: the results' (seq, table, row id) are a permutation of the changes', and applied + skipped + deferred + rejected is their number, replayed receipts included |
| SyncBatchProofs.GroupsPartition | src/services/sync_apply.py:121-138 | grouping by table in foreign-key order neither loses nor repeats a change |
| SyncBatchProofs.ParentsComeFirst | src/services/sync_apply.py:121-139 | a batch is applied projects first, then memos, versions and memberships, whatever order it came in |
| SyncEffectProofs.OrderAcrossTablesIsFree | src/services/sync_apply.py:121-138 | two batches that agree table by table have the same effect, results and receipts: only the order within a table matters |
| SyncEffectProofs.SwapAcrossTables | src/services/sync_apply.py:121-138 | swapping neighbours of different tables changes nothing |
| SyncApplyProofs.ApplyTouchesTwoRows | src/services/sync_apply.py:299-419 | one applied change alters at most its own row and one fresh version row of that memo; the log grows by that version's insert or not at all; a deferred or rejected row writes nothing |
| SyncApplyProofs.ApplyDecidesByClock | src/services/sync_apply.py:338-419 | the whole effect on the named row: it takes the incoming columns exactly when it is new or the incoming clock is later (the server winning ties), within the database constraints; a skipped row is unchanged and older, tied or identical |
| SyncApplyProofs.PreserveAddsOneVersion | src/services/sync_apply.py:527-576 | keeping a losing text adds one fresh, valid, logged version, or nothing at all |
| SyncOutcome.ConflictExactlyWhenBothChanged | src/services/sync_apply.py:422-460 | on columns, clocks and log entries alone: a change to a stored row is a conflict if and only if it does not repeat the row and, for a push with a base seq, the log has a later entry of the row, or else neither side has the base clock; an edit of one side alone never is |
| SyncOutcome.AppliedExactlyWhenLater | src/services/sync_apply.py:333-419 | a change to a stored row is applied if and only if it does not repeat it and its clock is later, or equal and the change is the server's; each column it names is written then, and none otherwise |
| SyncOutcome.InsertFillsColumns | src/services/sync_apply.py:487-493 | a new row has the columns of the change, and the database's defaults for the others |
| SyncOutcome.MalformedIsRefused | src/services/sync_apply.py:310-336 | no row id or no clock is rejected; otherwise a row is deferred if and only if it names a parent that is not stored, and nothing is written |
| SyncOutcome.StoredExactlyIfAccepted | src/connectors/__init__.py:205-222 | a new row is stored if and only if no required column is empty, its parent is stored and no membership of the same project and user is; otherwise the database raises |
| SyncOutcome.PartSaysWhatHappened | src/services/sync_apply.py:263-296 | counters, lists and the result of one row follow from its status, the result with the clock the row has afterwards |
| SyncOutcome.UnknownTablesAreRefused | src/services/sync_apply.py:122-133 | each row for an unknown table is refused as such, under its own seq and id, in order |
| SyncOutcome.HardDeleteMarksOrDrops | src/services/sync_apply.py:507-524 | a hard delete drops a stored version, marks any other row that is not deleted yet as deleted now, and skips everything else |
| SyncOutcome.LosingTextIsAVersion | src/services/sync_apply.py:527-576 | after a conflict some version of that memo has the losing text; one added for it has the next number and names the losing side, column by column |
| SyncOutcome.DuplicatesAreNamesakes | src/services/sync_apply.py:579-629 | reported, and recorded, is each live row of the same table, for memos of the same project, with the same normal name, and nothing else |
| SyncOneSided.ItemConflicts | src/services/sync_apply.py:449-460 | from rest, a pulled server edit is a conflict if and only if the remembered clock is neither the client's nor the edit's |
| SyncOneSided.OneSidedEditIsNoConflict | src/services/sync_apply.py:425-430 | from rest, a server edit of a row the client remembers as it holds it is pulled without version, log entry or conflict issue: nothing is sent back |
| SyncOneSided.PulledEditIsRemembered | src/services/sync_daemon.py:600-645 | after that pull the remembered clock is the edit's, so it is what the client holds unless the edit was stamped earlier |
| SyncOneSided.PushedEditIsRemembered | src/services/sync_daemon.py:494-506 | after an exchange the remembered clock is that of the server's row, so it is what the client holds if the edit was stamped later |
| SyncApply.MaxOrZero | src/services/sync_apply.py:554-558 | the largest version number, 0 when there is none: what the next number is built on |
| SyncStore.LatestSeqIsLast | src/services/sync_apply.py:438-448 | the latest seq of a row bounds every log entry about it and is one of them, or 0 when there is none |
| SyncEffectProofs.ConflictExactlyOnDivergence | src/services/sync_apply.py:353-400 | a conflict is reported and recorded exactly for a diverging change, on every table, and names as loser the side whose value did not stay |
| SyncEffectProofs.LosingTextSurvives | src/services/sync_apply.py:353-400 | whichever side loses a diverging memo change, its non-null text equals some version of the memo afterwards; an added version is numbered above all earlier ones and never duplicates a kept text |
| SyncEffectProofs.BatchDoesNotEcho | src/connectors/__init__.py:51-82 | applying a batch, pulled or pushed with receipts, logs exactly one version insert for each row that is not replayed and preserves a losing text, and nothing else; without memo changes nothing is logged, and a batch of replays leaves the whole store alone |
| SyncEffectProofs.FoldKeepsRowsValid | src/services/sync_apply.py:476-524 | no batch leaves a row without its parent, its clock or one of its columns, hard deletes included |
| SyncEffectProofs.FoldKeepsMembershipsDistinct | src/services/sync_apply.py:487-524 | no batch lets a project and a user share two memberships, hard deletes and preserved versions included |
| SyncEffectProofs.StoredOrInsertedEarlier | src/services/sync_apply.py:119-139 | a project or memo is stored at some point of a batch exactly when it was stored before or an earlier row of the batch inserted it |
| SyncEffectProofs.DeferredExactlyWithoutParent | src/services/sync_apply.py:330-336 | a well-formed child naming a non-empty parent id is deferred exactly when that parent was neither stored at the start nor inserted earlier in the batch |
| SyncReceiptProofs.RefusedRowWritesNothing | src/services/sync_apply.py:171-232 | a refused row is the identity on rows, log and issues; a deferred one on the receipts too |
| SyncReceiptProofs.FoldRecords | src/services/sync_apply.py:211-231 | after a batch each undeferred change has a receipt with its payload and its result, and earlier receipts are untouched |
| SyncReceiptProofs.ReplayIsInert | src/services/sync_apply.py:143-175 | re-sending any undeferred change of a committed batch, after any other activity, returns the stored result and writes nothing |
| SyncReceiptProofs.BatchAbortsExactlyOnMismatch | src/services/sync_apply.py:154-175 | any batch aborts if and only if a row reuses a seq for another payload than a receipt held before the batch, or than an earlier row of it that was reached and not deferred |
| SyncReceiptProofs.ConsistentBatchAbortsOnHeldReceipt | src/services/sync_apply.py:154-175 | when each seq names one payload in the batch, only the receipts held before it decide |
| SyncNode.ApplyOutcome.MergeFrom | src/services/sync_apply.py:240-260 | one row's counters, lists and references are added to the batch's, in order |
| SyncNode.Node.Write | src/connectors/__init__.py:777-785 | an in-place write is logged as insert or update unless the connection is applying a peer's changes |
| SyncNode.Node.Erase | src/services/sync_apply.py:521-522 | deleting a row logs a delete under the same rule |
| SyncNode.Node.PreserveConflictContent | src/services/sync_apply.py:527-576 | the in-place version insert, logged although the connection is applying, and the flag restored, meets the specification on success; it raises exactly when the database refuses the row |
| SyncNode.Node.DetectDuplicates | src/services/sync_apply.py:579-634 | the scan over candidates reports and records exactly one issue for each live row of the same table and scope whose normalised name equals the non-empty incoming one, and touches nothing else |
| SyncNode.Node.ApplyHardDelete | src/services/sync_apply.py:507-524 | a hard delete tombstones a live soft-delete row with the local clock, drops a version row, and skips what is gone |
| SyncNode.Node.ApplyExisting | src/services/sync_apply.py:345-400 | the mutation of an existing row, with conflict record and preserved text, is the specified transition |
| SyncNode.Node.ApplyRow | src/services/sync_apply.py:299-400 | the in-place code for one change is the specified transition, or raises exactly where the database refuses |
| SyncNode.Node.RowResult | src/services/sync_apply.py:263-296 | the status, reason, conflict flag and effective clock read off the counters and the stored row are those of the transition |
| SyncNode.Node.ApplyFresh | src/services/sync_apply.py:161-231 | under its savepoint a raising row leaves the node as it was and becomes a terminal rejection |
| SyncNode.Node.ApplyUnderSavepoint | src/services/sync_apply.py:142-232 | a row with a receipt is answered from it, a contradicted receipt aborts, anything else new and terminal leaves a receipt |
| SyncNode.Node.GroupByTable | src/services/sync_apply.py:119-134 | the batch is split by table with each table's order kept, unknown tables refused with a result |
| SyncNode.Node.ApplyChanges | src/services/sync_apply.py:103-233 | the batch method with its loops, savepoints and in-place writes is the fold of row transitions over the ordered batch |
| SyncNode.Node.ReceivePush | src/routers/sync.py:581-594 | the applying half of the push transaction, behind the authorisation that Endpoint.Push adds: a receipt mismatch restores the whole database, anything else commits the fold and clears the applying flag |
| SyncNode.Node.ReadChanges | src/services/sync_store.py:128-194 | the feed window is each row's last entry, still existing, with its present value, in seq order, of exactly the projects the account owns or has a live membership of, and the cursor covers what was scanned |
| SyncNode.Node.CollectLocalChanges | src/services/sync_store.py:197-256 | the outgoing window is each row's last entry with its present value and the last agreed clock and seq; a vanished row becomes a delete |
| SyncNode.Node.LatestEntries | src/services/sync_store.py:157-162 | the coalescing dictionary maps each logged row of the window to its last entry there |
| SyncFeedProofs.WindowDeliversExactly | src/services/sync_store.py:128-194 | a window delivers a row with a value if and only if the row is logged there, exists with that value and is visible, which `WindowDeliversToMembers` says on the columns |
| SyncFeedProofs.PagesDeliverEverything | src/services/sync_store.py:128-194 | pages of any limits over a fixed server together deliver exactly the present value of every visible logged row, with seqs strictly ascending, and positive limits reach the end |
| SyncVisibility.HiddenExactlyIfForeign | src/services/sync_store.py:45-74 | whatever the database holds, a row is hidden if and only if it lies in a project that is not stored, or that the account neither owns nor has a live membership of, said on the columns |
| SyncVisibility.WindowDeliversToMembers | src/services/sync_store.py:165-191 | a window delivers a row if and only if it is logged there, stored with that value, and lies in a project the account owns or has a live membership of |
| SyncVisibility.PagesDeliverToMembers | src/services/sync_store.py:128-194 | the same for all pages together |
| SyncVisibility.StrangersSeeNothing | src/services/sync_store.py:45-51 | an account that owns no project and has no live membership gets an empty feed |
| SyncVisibility.WindowNamesRowsOnce | src/services/sync_store.py:150-163 | a window names each row once |
| SyncQueueProofs.EnqueueAllAdds | src/services/sync_store.py:317-370 | queueing a snapshot adds exactly the collected changes, each under its own seq, and alters no entry |
| SyncQueueProofs.PageIsHeldOrFinished | src/services/sync_daemon.py:600-645 | after a page is settled each of its changes was applied or skipped, or is in the inbox, live or dead |
| SyncQueueProofs.RetriesRetire | src/services/sync_daemon.py:709-751 | a retried entry leaves the inbox only if its change was applied or skipped, or moves to the dead letters; nothing new appears |
| SyncSettling.AnswerSettles | src/services/sync_daemon.py:478-550 | entry by entry: what an answer does to outbox, dead letters, remembered clocks and issues, and that rows, log and marks stay |
| SyncSettling.PulledSettles | src/services/sync_daemon.py:600-645 | the same for a pulled change |
| SyncSettling.RetriedSettles | src/services/sync_daemon.py:709-751 | the same for a retried one |
| SyncSettling.QueuedUnlessDifferent | src/services/sync_store.py:317-370 | a payload can be queued unless another one is queued under its seq |
| SyncQueue.SortedPrefixAscends | src/services/sync_store.py:373-392 | the retry list is strictly ascending by seq |
| SyncQueue.ListedAreLowest | src/services/sync_store.py:373-392 | a seq is listed for retry if and only if it is queued and fewer than `limit` queued seqs lie below it |
| SyncPullProofs.PullBatchKeepsOk | src/services/sync_daemon.py:583-645 | a pulled batch never makes a client row older, and a change reported as applied or skipped leaves the client not behind the value it carried |
| SyncSafety.ActionKeepsInv | src/services/sync_daemon.py:251-276 | every step of either node, the network or a crash keeps the protocol invariant: whatever one node lacks is logged beyond a mark, queued, dead-lettered or in the page in memory |
| SyncSafety.RunKeepsInv | src/services/sync_daemon.py:251-276 | the invariant holds after every run from empty nodes |
| SyncConvergence.DifferenceIsOnItsWay | src/services/sync_daemon.py:397-440 | in every reachable state, a row on which the nodes differ is in the client log past the push mark, the server log past the pull mark, or in a queue with its present value |
| SyncConvergence.QuiescentNodesAgree | src/services/sync_daemon.py:552-664 | in every reachable state with nothing pending the two nodes hold the same rows |
| SyncConvergence.QuiescentRowIsLatest | src/services/sync_apply.py:411-419 | at rest each row is the maximum, by clock with the server winning ties, of all values it ever had on either node |
| SyncConvergence.StepNeverGoesBack | src/services/sync_apply.py:393-400 | no step replaces a server row except by a later one, nor a client row by an earlier one |
| SyncConvergence.RunNeverGoesBack | src/services/sync_apply.py:393-400 | the same between any two moments of a run |
| SyncClocks.EditArrivesExactlyWhenLater | src/services/sync_apply.py:437-448 | from rest, a client edit is exchanged and answered for good, and the nodes agree on it if and only if it was stamped later than the row it replaced |
| SyncClocks.OldStampIsLost | src/services/sync_apply.py:393-395 | a concrete run: a rename with the old stamp leaves both nodes at rest with different rows |
| SyncClocks.ServerEditArrivesExactlyUnlessOlder | src/services/sync_apply.py:411-419 | from rest, a server edit is read and committed, nothing about the row is left on its way, and the nodes agree on it if and only if it was not stamped earlier: the server wins ties |
| SyncTies.TieIsLost | src/services/sync_apply.py:393-400 | why a server edit must be stamped later all the same: a run in which the client applies a tie and then takes it back by retrying the older item that had waited for its project; both nodes rest and differ |
| SyncExactlyOnce.EachSeqTakesEffectOnce | src/services/sync_apply.py:145-231 | however messages are lost, repeated or reordered, and whenever the client crashes, no (account, client:epoch, seq) changes the server twice |
| SyncExactlyOnce.PayloadIsFixed | src/services/sync_daemon.py:409-434 | all messages ever sent for a seq carry one payload from one sender, and none is ever refused as a mismatch |
| SyncExactlyOnce.EpochsHaveTheirOwnReceipts | src/services/sync_daemon.py:466-468 | a client that starts over under a new epoch is not answered from old receipts |
| SyncExactlyOnce.ScannedSeqIsAccountedFor | src/services/sync_daemon.py:413-434 | every log seq at or below the push mark is in the outbox, dead-lettered, accepted by the server with its payload, or superseded by a later scanned entry of its row for which this holds |
| SyncExactlyOnce.OutboxIsDeletedOnReceipt | src/services/sync_daemon.py:482-497 | in every run an outbox entry disappears only on an answer, when the server's receipt for that seq holds its payload and is no refusal |
| SyncExactlyOnce.OutboxLeavesOnReceipt | src/services/sync_daemon.py:482-521 | the same for a single step of any state that satisfies the invariant |
| SyncExactlyOnce.DeliveryIsReceipted | src/routers/sync.py:572-589 | a delivery adds at most its own receipt, and changes the server's tables only when it does |
| SyncExactlyOnce.RunKeepsPush | src/services/sync_daemon.py:397-440 | the bookkeeping behind these claims holds after every run |
| SyncOverwrite.NoSilentOverwrite | src/services/sync_apply.py:422-448 | if a delivered push replaces a value the server wrote and reports no conflict, the client had already applied or skipped that very value when it took the snapshot |
| SyncOverwrite.UnknownRowAlwaysDiverges | src/services/sync_store.py:241-252 | a row with no remembered state always counts as diverged |
| SyncOverwrite.RunKeepsSeen | src/services/sync_store.py:288-314 | after every run each remembered peer seq is one the client handled, and each snapshot's base was handled when it was taken |
| SyncCursor.NothingIsLostBehindCursor | src/services/sync_daemon.py:569-648 | every server seq behind the pull cursor was applied, skipped, is in the inbox or a dead letter, or gave way to a later seq of its row, also behind the cursor, for which this holds |
| SyncCursor.DeadLettersAreReported | src/services/sync_daemon.py:498-521 | every dead letter of either direction has its unresolved issue |
| SyncCursor.MarksNeverMoveBack | src/services/sync_daemon.py:646-648 | neither cursor moves back between any two moments of a run |
| SyncCursor.RunKeepsCursor | src/services/sync_daemon.py:552-664 | the cursor bookkeeping holds after every run |
| SyncCommits.CollectCommits | src/services/sync_daemon.py:409-434 | a scan always commits: no seq is queued with another payload |
| SyncCommits.PageCommits | src/services/sync_daemon.py:581-648 | a page that was read always commits |
| SyncTexts.PushedLoserSurvives | src/services/sync_apply.py:353-400 | in every run, a fresh diverging push's losing text is the text of some stored version on the server in all later states, and of that memo's unless an edit of the run moves the version to another memo |
| SyncTexts.PulledLoserSurvives | src/services/sync_apply.py:353-400 | in every run, a diverging pulled change's losing text is the text of some stored version on the client in all later states, and of that memo's unless an edit of the run moves the version to another memo |
| SyncTexts.TextsStayInRun | src/services/sync_apply.py:527-576 | a text kept as a version stays the text of some version for the rest of the run, on either node, whatever merges move versions between memos |
| SyncTexts.StaysHomeExactlyUnlessMoved | src/services/merge.py:86-93 | a version is found under the memo it was first written under, on both nodes and in every state of a run, if and only if no edit gives it to another memo |
| SyncMovedVersions.MergeMovesTheVersion | src/services/merge.py:86-93 | a run that does what merging two memos does: the hypothesis of text survival holds, the losing memo has the text no more, and the moved version still has it |
| SyncProgress.DeliverNoRise | src/services/sync_apply.py:527-576 | a delivery never raises the lexicographic measure of pending work, not even when it adds a conflict version |
| SyncProgress.CollectFalls | src/services/sync_daemon.py:413-437 | scanning anything lowers the measure |
| SyncProgress.AnswerFalls | src/services/sync_daemon.py:482-521 | an answer that removes an outbox entry lowers it |
| SyncProgress.PageFalls | src/services/sync_daemon.py:581-648 | committing a page past the cursor lowers it |
| SyncRetryProgress.RetryFalls | src/services/sync_daemon.py:709-751 | a retry that removes an inbox entry lowers it |
| SyncRetryProgress.OrderedIsDistinct | src/services/sync_apply.py:121-138 | grouping by table keeps seqs distinct |
| SyncTermination.StepNeverRises | src/services/sync_daemon.py:251-276 | no protocol step raises what is pending |
| SyncTermination.RunKeepsProg | src/services/sync_daemon.py:251-276 | the invariant the measure rests on holds after every run |
| SyncLiveness.SomethingFalls | src/services/sync_daemon.py:251-276 | unless both logs are scanned and every queued entry lacks its parent, a few answered steps lower the measure |
| SyncLiveness.QueuedIsBlocked | src/services/sync_apply.py:476-484 | at rest the chain of missing parents of every queued entry ends in a dead letter |
| SyncLiveness.NothingIsBlocked | src/services/sync_apply.py:476-484 | without a dead letter no row is blocked |
| SyncLiveness.RestIsBlockedOrEqual | src/services/sync_daemon.py:251-276 | at rest the nodes differ only on rows with a dead letter and on rows that wait for such a row, however far up; without dead letters nothing is queued and all rows are equal |
| SyncLiveness.CanComeToRest | src/services/sync_daemon.py:251-276 | from every reachable state, with no further edit, protocol steps lead to rest, where the nodes agree on every row that is neither dead-lettered nor waiting for one that is; each push delivered on the way is one the endpoint lets through |
| SyncLiveness.EditFreeRunNeverRises | src/services/sync_daemon.py:251-276 | however the network behaves, a run without edits never raises what is pending |
| SyncStandstill.RunKeepsParented | src/services/sync_apply.py:330-336 | after every run each receipted payload has its parent on the server |
| SyncStandstill.OrphanExchange | src/services/sync_apply.py:330-336 | once applied, whether the peer has no authorisation or lets it through, a push whose parent the server lacks is deferred: sending, delivering and answering it leaves both nodes and the outbox as they were |
| SyncStandstill.OrphanRetry | src/services/sync_daemon.py:677-751 | a retry in which no listed entry has its parent changes nothing |
| SyncStandstill.RunKeepsDatabase | src/routers/sync.py:351-436 | after every run the server's database is one the endpoint may authorise against |
| SyncGate.ChildIsAllowed | src/routers/sync.py:416-423 | where every project is the account's, a memo or membership pushed on its own is allowed if and only if its project is stored |
| SyncGate.VersionIsAllowed | src/routers/sync.py:425-434 | a version pushed on its own is allowed if and only if its memo is stored or it is stored itself |
| SyncGate.OrphanPushIsForbidden | src/routers/sync.py:384-436 | pushed on its own, a whole row is refused if and only if the server lacks its parent and does not store it as a version already |
| SyncStandstill.QueuedPushIsForbidden | src/services/sync_daemon.py:470-472 | in every reachable state that decides which queued payloads the endpoint refuses |
| SyncStandstill.OpenPeerMoves | src/services/sync_daemon.py:251-276 | for a peer that only applies, something can move if and only if something is unscanned, unread, or listed and takeable |
| SyncStandstill.StarvedQueueIsLongOrRefused | src/services/sync_store.py:373-392 | a state that is not at rest and in which no cycle can move anything has a queue longer than the batch limit or a listed push that the endpoint refuses |
| SyncStarvation.StarvationIsReachable | src/services/sync_store.py:373-392 | for every batch limit there is a run without dead letters, scanned with that limit throughout, to a state no cycle gets out of: that many memos moved offline wait for a project whose own entry is the next one behind them; both for a peer that defers them and for the endpoint that refuses the first |
| SyncRefusal.RefusedMemoStopsEverything | src/services/sync_daemon.py:236-240 | for every batch limit from three on, the run that creates a project and a memo in it offline, renames the project and scans: nothing is dead, the queue fits the limit, its second entry is takeable and the server's log is unread, yet no cycle can move anything, because the endpoint refuses the memo that comes first; a peer that only applied would |
| SyncDaemon.SyncDaemon.CollectOnce | src/services/sync_daemon.py:413-434 | one scan transaction is the protocol's scan step |
| SyncDaemon.SyncDaemon.RememberClock | src/services/sync_store.py:288-314 | the remembered clock is replaced and the remembered peer seq only grows |
| SyncDaemon.SyncDaemon.MarkDead | src/services/sync_store.py:410-429 | a live queue entry becomes a dead letter with its payload |
| SyncDaemon.SyncDaemon.MirrorRemoteIssues | src/services/sync_daemon.py:530-550 | every conflict and duplicate of an answer is recorded locally, and nothing else changes |
| SyncDaemon.SyncDaemon.SettleAnswer | src/services/sync_daemon.py:478-527 | a terminal answer leaves the outbox and is remembered, a refusal is buried and noted, anything else waits |
| SyncDaemon.SyncDaemon.Interlude | src/services/sync_daemon.py:409-434 | between two transactions users of either node may write what the database accepts; with no edits to come nothing happens |
| SyncDaemon.SyncDaemon.Serve | src/routers/sync.py:576-594 | the server's transaction: refused exactly when the endpoint's authorisation refuses it, with nothing changed, and otherwise the applied batch |
| SyncDaemon.SyncDaemon.Request | src/routers/sync.py:551-600 | a refused request is no step; any other is one delivery and its answer |
| SyncDaemon.SyncDaemon.Exchange | src/services/sync_daemon.py:470-478 | one request, lost on either way, refused or answered, while users write: protocol steps and edits; a request that arrives is refused exactly when the endpoint forbids it, and a refused or undeliverable one does nothing |
| SyncDaemon.SyncDaemon.PushEntry | src/services/sync_daemon.py:470-527 | one request and its settling is a list of protocol steps, and of edits if users write meanwhile, that keeps every other outbox entry; answered and deliverable it lowers the measure, refused or undeliverable it does nothing, and it is refused exactly when the endpoint forbids it |
| SyncDaemon.SyncDaemon.RetryPushQueue | src/services/sync_daemon.py:450-528 | the push loop, whatever is lost and edited meanwhile, is such a list; with nothing lost, it lowers the measure when a listed entry is deliverable and none before it is refused; otherwise it does nothing, and ends refused exactly when a listed entry is |
| SyncDaemon.SyncDaemon.CollectRounds | src/services/sync_daemon.py:413-437 | the scan rounds lower the measure exactly when something is unscanned |
| SyncDaemon.SyncDaemon.PushRounds | src/services/sync_daemon.py:397-441 | retry, scan and retry again, while users may write: with nothing lost it lowers the measure when a listed entry is deliverable with none refused before it, or none is refused and something is unscanned; otherwise it does nothing, and ends refused exactly when a listed entry is |
| SyncDaemon.SyncDaemon.AddPullBases | src/services/sync_daemon.py:771-780 | each pulled change without a base gets the last agreed clock of its row |
| SyncDaemon.SyncDaemon.SettlePulled | src/services/sync_daemon.py:600-645 | a finished pulled row is remembered, any other is queued or buried and noted |
| SyncDaemon.SyncDaemon.SettleQueued | src/services/sync_daemon.py:709-751 | a finished retry leaves the inbox and is remembered, a refused one is buried and noted |
| SyncDaemon.SyncDaemon.CommitPage | src/services/sync_daemon.py:581-648 | applying, settling and moving the cursor are one protocol step |
| SyncDaemon.SyncDaemon.RetryPullQueue | src/services/sync_daemon.py:677-769 | the inbox retry is one protocol step |
| SyncDaemon.SyncDaemon.PullOnce | src/services/sync_daemon.py:569-664 | one page, while users may write: it lowers the measure when the feed has more and otherwise does nothing |
| SyncDaemon.SyncDaemon.PullPages | src/services/sync_daemon.py:569-664 | the page loop likewise, whichever request is lost |
| SyncDaemon.SyncDaemon.PullRounds | src/services/sync_daemon.py:552-675 | retry and pages, while users may write: it lowers the measure when the feed has more or a listed inbox entry is ready, and otherwise does nothing |
| SyncDaemon.SyncDaemon.Cycle | src/services/sync_daemon.py:229-276 | a whole cycle, whatever is lost and whatever users write meanwhile, is a list of steps of the two-node system, so every run theorem applies to it; with users quiet and nothing lost, it lowers the measure if and only if a listed push can be taken and none before it is refused, or no listed push is refused and something is unscanned, unread, or listed in the inbox and takeable; otherwise it leaves nodes and queues alone; an idle client stays idle |
| SyncDaemon.SyncDaemon.CycleToRest | src/services/sync_daemon.py:182-200 | cycles repeated until nothing can move end, with nothing lost, at rest or starved; with queues within the batch limit there and no listed push refused, at rest, where the nodes agree unless something is dead-lettered |
| SyncAuthorize.Authorizer.ReadRole | src/routers/sync.py:281-302 | the owner column decides first, then the live membership, else no role |
| SyncAuthorize.Authorizer.RoleFor | src/routers/sync.py:384-397 | the role cache answers like the database or the batch, unless the batch itself is to be refused |
| SyncAuthorize.Authorizer.CheckProject | src/routers/sync.py:406-419 | a new project must name the account as owner; a stored one may be changed by its owner, who may not hand it over |
| SyncAuthorize.Authorizer.CheckChange | src/routers/sync.py:392-447 | each table asks its role of the stored and of the incoming project |
| SyncAuthorize.Authorizer.Authorize | src/routers/sync.py:351-447 | the loop with its cache accepts exactly the batches in which every row is allowed |
| SyncAuthorize.RoleIsUnique | src/routers/sync.py:281-302 | an account has one role in a project |
| SyncAuthorize.AnswerDecides | src/routers/sync.py:384-397 | the looked-up role is in the wanted set exactly when the account may act in the project |
| SyncAuthorize.OwnRowCreates | src/routers/sync.py:372-414 | a row naming the account as owner of a new project: the batch creates that project for it, or another row names another owner and the batch is refused |
| SyncRoles.RolesSuffice | src/routers/sync.py:281-301 | in a stored project an owner is its owner or a live member with the role "owner", and a writer one of these or a live member with the role "editor"; what the batch brings counts for nothing |
| SyncRoles.ProjectNeedsOwner | src/routers/sync.py:404-416 | a lone change to a stored project is allowed if and only if the account is an owner and the change fills in no other owner |
| SyncRoles.NewProjectNeedsOwnName | src/routers/sync.py:406-413 | a new project is allowed if and only if it names the account as its owner |
| SyncRoles.ChildNeedsRole | src/routers/sync.py:418-447 | a lone memo is allowed if and only if the account is owner or editor where it is and where it goes, a membership if and only if it is an owner of both |
| SyncRoles.VersionNeedsRole | src/routers/sync.py:427-436 | a lone version is allowed if and only if the account is owner or editor in the projects of the memo it hangs on and of the one it names |
| SyncRoles.VersionGoesWhereItsMemoGoes | src/routers/sync.py:327-337 | a new version follows its memo to the project the batch puts it in |
| SyncRoles.NewTreeIsAccepted | src/routers/sync.py:363-413 | a new project, a memo in it and a version of that, sent together in any order, are accepted if and only if the project names the account as its owner |
| SyncRoles.AcceptedBatchNeedsRoles | src/routers/sync.py:351-447 | whatever an accepted batch changes in a stored project took an owner, for the project and its memberships, or an owner or editor, for memos and versions |
| SyncRoles.OutsidersChangeNothing | src/routers/sync.py:351-447 | an account that is neither owner nor editor of a stored project leaves everything in it alone |
| SyncRoles.ProjectsAreNotHandedOver | src/routers/sync.py:414-416 | an accepted batch leaves the owner of a stored project as it is, or empties it |
| SyncAuthorizeProofs.AcceptedBatchStaysInBounds | src/routers/sync.py:351-447 | every row an accepted batch touches lay before, and lies after, in a project where the account held the role its table asks for, or in one the batch creates with that account as owner; versions of memos moved or created in the batch included |
| SyncAuthorizeProofs.CreatedProjectIsOwned | src/routers/sync.py:406-414 | a project an accepted batch brings into being belongs to the account |
| SyncAuthorizeProofs.AcceptedBatchKeepsDatabase | src/routers/sync.py:572-589 | an accepted batch leaves a database that meets what the next push demands: parents stored, memberships distinct, no empty ids |
| SyncEndpoint.Endpoint.Push | src/routers/sync.py:551-594 | the endpoint: a row out of bounds or a contradicted receipt changes nothing at all; any other batch is the fold, stays in bounds, and leaves the database as sound as the next push needs it |
| LockRegistry.LockTable.FindLive | src/services/lock_registry.py:66-72 | a lease is live strictly before its expiry |
| LockRegistry.LockTable.ScheduleExpiry | src/services/lock_registry.py:74-85 | a memo has one timer, started for its present lease |
| LockRegistry.LockTable.Acquire | src/services/lock_registry.py:131-164 | a live lease of another owner refuses and changes nothing, the same owner's is extended, a free memo gets the next generation |
| LockRegistry.LockTable.Expire | src/services/lock_registry.py:87-104 | a timer ends only the lease it was started for, only once expired, and is rescheduled when early |
| LockRegistry.LockTable.Release | src/services/lock_registry.py:166-179 | the owner, nobody in particular, or force ends a live lease |
| LockRegistry.LockTable.ReleaseAllForOwner | src/services/lock_registry.py:181-196 | all leases of an owner end, expired or not, and no other |
| LockRegistry.LockTable.Validate | src/services/lock_registry.py:111-129 | a token is valid exactly for the live lease it names, and the given user and owner |
| LockRegistry.LockTable.Snapshot | src/services/lock_registry.py:198-203 | the snapshot holds exactly the live leases |
| LockRegistry.RegistryStaysWellformed | src/services/lock_registry.py:74-196 | after every run the lock and timer maps have the same keys, each timer is that of the present lease, and a lease carries its memo's newest generation |
| LockRegistry.LeaseSurvivesStep | src/services/lock_registry.py:87-164 | only its own release or expiry takes a lease away; no other owner and no late, early or stale timer does, and a heartbeat keeps token and generation |
| LockRegistry.LeaseIsExclusive | src/services/lock_registry.py:131-164 | over all runs, between a grant and its expiry or release the memo keeps that lease, so nobody else is granted it |
| LockRegistry.GrantsAreFenced | src/services/lock_registry.py:131-164 | each new grant of a memo has a generation above all earlier grants' |
| LockRegistry.EndedTokenStaysInvalid | src/services/lock_registry.py:111-129 | a token that was issued and no longer validates never validates again |
| LockRegistry.TimerEndsOnlyItsLease | src/services/lock_registry.py:87-104 | the timer on record ends its lease after the expiry, and no firing removes an unexpired one |
| Realtime.RealtimeServer.ChooseRoute | src/services/realtime.py:228-246 | a node that is no client serves locks itself; a client asks its peer while online, refuses without a configured one, and offline serves locks exactly when the outage is established and the quarantine is over |
| Realtime.RealtimeServer.AfterCall | src/services/realtime.py:247-262 | an unreachable call starts a quarantine of one lease, since a grant may exist that nobody heard of |
| Realtime.RealtimeServer.HandleAcquired | src/services/realtime.py:481-520 | a grant is remembered with its local deadline, a refusal forgets the lease |
| Realtime.RealtimeServer.HandleReleased | src/services/realtime.py:566-603 | a socket that holds nothing or whose delegation failed keeps what it has; any answer makes it forget the lease |
| Realtime.RealtimeServer.SocketOwnsValidLease | src/services/realtime.py:863-882 | a socket owns a lease if it is connected, joined, recorded and within the local deadline, and on a node that is no client the registry confirms owner, user and token |
| Realtime.RealtimeServer.ValidateRestLease | src/services/realtime.py:884-900 | a write over HTTP is covered exactly by a socket of the same user holding that token |
| Realtime.DeadlineIsSafeExactly | src/services/realtime.py:518-521 | the local deadline stays within the server's lease exactly when the answer is handled early enough, within TTL/4 where 0.75 TTL is at least a second |
| Realtime.DelegatedLeaseIsReal | src/services/realtime.py:481-520 | whenever the node says a socket holds a valid lease nobody released, the server's registry holds that owner and token, unexpired |
| Realtime.OneValidSocket | src/services/realtime.py:863-882 | no two sockets of a node both hold an unreleased valid lease on one memo |
| Realtime.ReleasedIsForgotten | src/services/realtime.py:566-603 | a lease the node is told was released, or was refused, is no valid lease of that socket from then on; other leases stay |
| Merge.MergeService.ListVersions | src/services/merge.py:81-86 | the loser's versions, all and once each, by number and then creation time |
| Merge.MergeService.MoveContent | src/services/merge.py:48-78 | the loser's own text becomes the winner's next version unless empty or already there |
| Merge.MergeService.MoveVersions | src/services/merge.py:80-93 | the listed versions move to the winner, numbered on consecutively, each write logged |
| Merge.MergeService.MergeMemos | src/services/merge.py:33-113 | the merge refuses exactly the same memo twice or one not live, leaving the database as it was; else it is the specified merge and every changed row is logged |
| Merge.MergedTextsSurvive | src/services/merge.py:33-113 | the winner's old versions are untouched, the loser keeps none, every moved text and the loser's own non-empty one is a version of the winner, no other memo changes |
| Merge.MergedNumbersStayDistinct | src/services/merge.py:48-93 | distinct version numbers of the winner stay distinct |
| Merge.MergedNumbersAreABlock | src/services/merge.py:48-113 | the winner has exactly its old numbers and the contiguous block from the next one to the reported latest |
| MergeOutcome.VersionsKeepTheirOrder | src/services/merge.py:80-93 | of two versions of the loser, the one with the lower number, or with the same and created earlier, still has the lower number |
| MergeOutcome.VersionsMoveWhole | src/services/merge.py:84-93 | a version that moves keeps its text, its creation time and its note if it has one |
| MergeOutcome.TextMovesExactlyWhenNew | src/services/merge.py:52-78 | the loser's text becomes the winner's next version if and only if it is not empty and no version of the winner has it |
| MergeOutcome.MergeIsStamped | src/services/merge.py:84-98 | the loser is marked as deleted, and whatever differs carries the time of the merge |
| MergeProjects.ProjectMergeService.ReparentMemos | src/services/merge.py:125-134 | every memo of the loser, tombstoned ones too, belongs to the winner; the set of memos is unchanged |
| MergeProjects.ProjectMergeService.FindMember | src/services/merge.py:148-152 | the membership of a user in a project, live or not, is found exactly when there is one |
| MergeProjects.ProjectMergeService.MoveMember | src/services/merge.py:147-196 | one membership moved keeps the account of who was moved, with which role, and uniqueness, and counts exactly when its user was no live member of the winner |
| MergeProjects.ProjectMergeService.MoveMembers | src/services/merge.py:141-196 | all live memberships moved, and counted once for each user the winner did not have |
| MergeProjects.ProjectMergeService.MergeProjects | src/services/merge.py:116-215 | the merge refuses exactly the same project twice or one not live, leaving the database as it was; else it is the specified merge, every changed row is logged, and the reported numbers of memos and new members are right; what differs carries the time of the merge |
| MergeProjects.AlreadyMember | src/services/merge.py:147-196 | a user who is a live member of the winner keeps that membership and role |
| MergeProjects.Admitted | src/services/merge.py:153-196 | any other user is admitted with the loser's role, in a new row or the winner's tombstoned one, and (project, user) stays unique |
| MergeProjects.UsersUnited | src/services/merge.py:141-196 | the winner's live users are the union of both, and the loser has none |
| MergeProjects.RolesKept | src/services/merge.py:153-196 | a live member of the winner is an old one unchanged, or has the moved user's role |
| MergeProjects.MergeIsDone | src/services/merge.py:116-215 | memos conserved, users united, roles kept, uniqueness, other projects untouched, the loser tombstoned |
| MergeProjects.MemosChangeProject | src/services/merge.py:125-134 | no memo is left with the loser; the winner has its own and all of the loser's, which differ in project and clock alone |
| MergeProjects.MembersChangeProject | src/services/merge.py:141-203 | the loser is marked as deleted with all its memberships, and the winner's live users are those of both |
| MemoHistory.MemoService.UpdateMemo | src/routers/memos.py:230-315 | each verdict under exactly its condition; a save writes the new text and the clocks, nothing else of the row, and the replaced text as the next version, and logs both; a refusal changes nothing |
| MemoHistory.BasesAreUsedOnce | src/routers/memos.py:239-265 | with strictly increasing clocks no two accepted saves name the same base: no lost update |
| MemoHistory.HistoryIsTheReplacedTexts | src/routers/memos.py:270-305 | after any run the versions added to a memo are exactly the non-empty texts that accepted saves replaced, in order, numbered consecutively from the old maximum |
| MemoHistory.TextIsTheLastSaved | src/routers/memos.py:298-305 | without other writes the memo's text is that of the last accepted save |
| MemoHistory.HistoryIsTheSavedTexts | src/routers/memos.py:270-296 | without other writes the versions added are the first text and all saved ones but the last, the empty ones left out, in order and numbered on |
| SessionAuth.TodoSessionService.StoreSession | src/services/session_auth.py:861-864 | a login stores a new session object under its id |
| SessionAuth.TodoSessionService.GetForUse | src/services/session_auth.py:652-662 | the present session, and whether it is within the refresh margin |
| SessionAuth.TodoSessionService.FinishRefresh | src/services/session_auth.py:693-716 | a finished refresh replaces only the session it started from; otherwise its new refresh token is handed to revocation |
| SessionAuth.TodoSessionService.DeleteIfRefreshToken | src/services/session_auth.py:874-883 | a rejected refresh deletes only the session that still has that refresh token |
| SessionAuth.TodoSessionService.ToOffline | src/services/session_auth.py:756-787 | a conversion replaces only the very object it read and keeps its account and issuer |
| SessionAuth.TodoSessionService.Delete | src/services/session_auth.py:866-872 | logout removes whatever is stored under the id |
| SessionAuth.DeletedStaysDeleted | src/services/session_auth.py:649-716 | in every interleaving of refresh, rejection, offline conversion and logout a deleted id never comes back, whether or not refresh tokens rotate |
| SessionAuth.LateRefreshIsRevoked | src/services/session_auth.py:698-713 | a refresh that ends after the logout leaves the id dead and its new token revoked, whether or not refresh tokens rotate |
| SessionAuth.OneRefreshPerToken | src/services/session_auth.py:693-713 | with rotating refresh tokens, one is exchanged for a stored session at most once |
| SessionAuth.UnrotatedTokenIsRefreshedAgain | src/services/session_auth.py:693-713 | a server that returns the same token again has it exchanged twice |
| SessionAuth.SameUidSameSession | src/services/session_auth.py:756-787 | object identity names one session value under an id |
| SessionAuth.AccountChangesExactlyOnSwitch | src/services/session_auth.py:693-705 | a step on a living session keeps its account and issuer if and only if it does not install a refresh response that names others; the offline conversion always keeps them |
| SessionAuth.AccountChangesOnlyBySwitch | src/services/session_auth.py:756-787 | between any two moments of a living session its account and issuer are the same unless such a response was installed in between |
| SessionAuth.RefreshMaySwitchAccount | src/services/session_auth.py:693-705 | the code compares no accounts: a response that names another one is installed |

## Left out

- SyncDaemon.SyncDaemon.PushEntry: does not keep the attempt counters, reasons and times of the queue's rows.
- SyncDaemon.SyncDaemon.MirrorRemoteIssues: does not keep the details of an issue, nor its resolution; recording one twice keeps one.
- SyncDaemon.SyncDaemon.Cycle: promises progress for requests that are not lost and for quiet users only; the report counters and the stored reason of a refusal are not kept.
- SyncDaemon.SyncDaemon.CycleToRest: does not model the timing between cycles, nor what else wakes the loop.
- SyncNode.Node.ApplyHardDelete: is proved for one node and one batch; two-node runs contain no hard delete.
- SyncExactlyOnce.ScannedSeqIsAccountedFor: takes seqs as commit order without gaps, as a database without concurrent writers gives them.
- SyncFeedProofs.PagesDeliverEverything: speaks of a fixed server; a moving one is covered by the run theorems.
- SyncTexts.PulledLoserSurvives: does not promise to keep an edit made between a snapshot and the pull of the same cycle when the pull does not diverge; nor does the code.
- SyncLiveness.CanComeToRest: is about what answered steps reach in a suitable order; a peer that never answers is outside it, and so is the loop's own order, for which see `Cycle`.
- SyncDaemon.SyncDaemon.Request: knows of refusals by the authorisation only; errors of the transport or of a peer with another schema count as lost requests.
- SyncEndpoint.Endpoint.Push: does not model negotiated column sets.
- LockRegistry.LockTable.Acquire: reads the clock once per call, and does not call listeners.
- Realtime.DelegatedLeaseIsReal: is stated for a TTL whose three quarters are at least a second and a server that does not restart.
- Merge.MergeService.MergeMemos: does not resolve the issues of the merged memos, and does not cut notes to 255 characters.
- MergeProjects.ProjectMergeService.MergeProjects: does not resolve the issues of the merged projects, and does not touch their articles, which are not replicated.
- SessionAuth.DeletedStaysDeleted: is about the map in memory; sessions stored in the database are not part of this model.
- HTTP, Socket.IO, asyncio scheduling, MySQL's statements and table creation: only transactions, savepoints, constraints and the logging flag remain.
- Hashes, JSON and ISO text: a payload stands for its hash, a clock is a number of milliseconds.
- Unicode normalisation of names and the collation behind SQL equality: abstract functions.
- Column lengths, types and AUTO_INCREMENT gaps; the automatic `updated_at` column.
- Negotiated column sets: both nodes have the same schema; a peer that sends fewer columns appears in the one-node policy only.
- Generated ids and clock readings: parameters of the step that uses them.
- The handshake's gates on identity, schema and clock skew, and pausing: they only decide whether a cycle starts.
- The client epoch is fixed when the first message is sent; the code fixes it when the state row is first read.
- An edit of several rows is several edits in a row; the code may commit them together.
- Several clients per account, and accounts that see only a part of the server.
- Cross-node uniqueness of version numbers and of locks while offline: the code does not promise them.
- The wording of notes and messages, and the listing endpoints.
- Login, tokens and keys, mode presets, the command line, migration, screen sharing, daily tasks and articles: simple or separate.

# htalk: a model of its mailbox, receivers and algorithms

htalk passes messages between coding-agent sessions through one shared SQLite mailbox. Any number of
processes send, acknowledge, wait, watch, retire peers and upgrade the file at the same time, and any of
them may crash between two statements. This project models that system as durable state changed by atomic
steps, and proves what holds over whole runs. The commands are classes whose methods take those steps one
at a time while other processes run in between. The exact algorithms (dates, quoting, framing, paging) are
functions, proved against independent definitions.

How the parts fit together:

- `Mailbox` has the tables and what one statement or transaction does to them; `SaveRules` states by the
  tables what `save` admits, and `Inboxes` what each statement does to the inbox lists. `MailboxRuns` has the
  step system of many processes with its invariant and the theorems over runs; `Retries` and `Registry` add two
  more. `Store` has the commands of `src/store.rs`: each method takes steps of that system, with arbitrary
  steps of other processes in between, and its contract says what it returns and what it did, by the native
  calls and the journal of write transactions that the system keeps for all processes. `WriteTurn`
  and `Send` model the two attempts of `send` and `reply`, `Paging` and `Watch` the lists and the watcher.
- `ReceiverLedger`, `ManagedSession`, `AdmissionLedger` and `NoticeWaiter` are the crash-safe receivers,
  and `ReceiverCheck` is the look that the first takes before it submits. The first, second and fourth
  separate a step system (durable state, memory, locks, crash anywhere) from the class whose methods take its
  steps; in the third the class itself carries the invariant.
- `ProcessGroup` has a history of the process table in which numbers are reused. `ProcStat` reads one line
  of `/proc`.
- `SchemaUpgrade` has the upgrade of an old file statement by statement and what it keeps, `SchemaOpeners`
  many processes that open one file at once.
- `CivilDate`, `ShellWords`, `Framing` and `LoadedScan` are the algorithms. Seconds are those of section
  4.16 of IEEE Std 1003.1-2017 (Base Definitions), shell words those of sections 2.2.1 to 2.2.3 of its
  Shell Command Language.

What is not known of the outside is a parameter or arbitrary: native clients, clocks, random ids, faults of
the file system, replies of servers. `if *` and `:| true` stand for it. The SQLite engine is assumed to run
statements and `BEGIN IMMEDIATE` transactions atomically, files are replaced atomically, file locks are
exclusive, a native process keeps the descriptor of a lock that it inherited, and start times are unique for
each process number.

Some properties that a reader would expect do not hold. The model keeps the code as it is and shows where:

- A cleanup can be missed: one failed look for the recipient's address is enough. The notifier reads its row
  back before the acknowledgment, the acknowledger then sees both marks, cannot read the address and reports
  that, and `dismiss` is never called (`MailboxRuns.CleanupCanBeMissed`). It is called with a row that shows
  both marks exactly if a command that read such a row found the address (`MailboxRuns.NoLostCleanup`).
- The last page of `sent` leaves out a message with the largest number SQLite can give, because the first
  page asks for smaller numbers (`Paging.FollowGivesAll` has the exact condition).
- A line of exactly the frame limit is accepted or refused depending on the reads (`Framing.LineAtLimit`).
- A process may be outside the group at the moment it is pinned, if it leaves and comes back between the
  two reads (`ProcessGroup.AwayWhenPinned`). It was a member at every moment between them exactly if nobody
  moved it (`ProcessGroup.MemberWhenPinned`).
- A Copilot notice is not handed out under the wait lock. The hook gives that lock back before it replaces
  the file and before it prints, so a new waiter may hold it at either moment
  (`NoticeWaiter.SaveMayMeetWaiter`, `NoticeWaiter.PrintMayMeetWaiter`): exactly if it took the lock after the
  hook gave it back, and kept it (`NoticeWaiter.WaiterCameAfter`). Until the notice is out of the file such a
  waiter gets no further than its first look (`NoticeWaiter.TakenWithoutWatcher`).
- A pending Copilot notice with an empty text is lost to the next one (`NoticeWaiter.EmptyIsLost`). The
  `watch` command of htalk never gives an empty text (src/notify.rs:20-28), so this takes another program in
  `HTALK_BIN`.

## Model

| member | source | states |
|---|---|---|
| Mailbox.ApplyKeepsShape | src/store.rs:411-483 | every statement keeps the conversations in shape: distinct registered participants, each answer names an earlier request with the addresses swapped, one answer per request, unique ids, numbers in commit order, submission states that fit their times |
| Mailbox.SaveKeepsShape | src/store.rs:430-481 | the transaction of `save` inserts only rows that fit, whatever ids, requests and addresses it is given |
| Mailbox.AppendKeepsShape | src/store.rs:474-480 | a new last row keeps the shape if its request is there, unanswered, and addressed the other way round |
| Mailbox.ApplyExtends | src/store.rs:485-531 | no statement removes or rewrites a row, clears an acknowledgment, a claim or a recorded return, or changes a peer; new rows get larger numbers |
| Mailbox.WaitAdded | src/store.rs:605-616 | a poll is registered exactly if there is a message to wait for |
| Mailbox.WaitStays | src/store.rs:605-616 | a registered poll stays until it is dropped or replaced, or until another one is registered more than a minute after its end |
| SaveRules.SavedByRules | src/store.rs:430-482 | in every well-formed mailbox the transaction of `save` decides by these conditions on the tables and no others: a first request between registered peers under an unused id is inserted exactly if neither is retired, and refused `peer_retired` if one is; a first answer by the peer that was asked is inserted whoever is retired; what is a repetition of a request or an answer, and what each other refusal means |
| SaveRules.OneOutcome | src/store.rs:430-482 | these conditions exclude each other: no mailbox fits two outcomes of `save` |
| MailboxRuns.NotifiedAtMostOnce | src/store.rs:485-531 | in every reachable state each message had at most one native call, always for a claimed message and never for a pull recipient; conversations have their shape |
| MailboxRuns.RunGrows | src/store.rs:485-531 | over a run nothing saved is taken back: rows, acknowledgments, claims, receipts with their outcome and detail, recorded returns, calls |
| MailboxRuns.AbandonedClaimStaysUnknown | src/store.rs:491-524 | a claim whose process is gone without a receipt stays `submission_unknown` for ever, and nobody calls the client for it again |
| MailboxRuns.NoLostCleanup | src/store.rs:523-587 | when the notifier and an acknowledger of one message have both finished without error, one of them worked on a row with both marks; `dismiss` was called with such a row if and only if one that read both marks found the recipient's address |
| MailboxRuns.CleanupCanBeMissed | src/store.rs:554-566 | one failed lookup suffices: from every unclaimed message to a native peer there is a run in which only the acknowledger, which alone saw both marks, fails to read the address, and `dismiss` is never called |
| MailboxRuns.RunKeepsInv | src/store.rs:485-587 | the invariant behind these: one holder per claim, calls only for claimed messages, what each process knows of its row, and that of two readers the second sees both marks |
| MailboxRuns.DoKeepsInv | src/store.rs:485-587 | every single step of any process keeps that invariant |
| MailboxRuns.StepKeepsAbandoned | src/store.rs:492-500 | no step of any process revives an abandoned claim or calls for it |
| Registry.OneNameOneAddress | src/store.rs:314-366 | over a run a name keeps its address, a session keeps one name, and registering the name again succeeds exactly for the same address |
| Registry.RunKeepsOneName | src/store.rs:345-354 | no two names of a reachable mailbox share a session |
| Inboxes.InboxChanges | src/store.rs:24-26 | what every statement does to the inbox of every peer: a saved message goes into the list of its recipient, a saved answer takes its request out of the list of the peer that answers, the acknowledgment of its recipient takes an answer out and leaves a request in, and nothing else changes a list |
| Retries.RepeatedSend | src/store.rs:456-470 | in every later mailbox the same request under its id returns the saved row, other content is a conflict, and neither changes anything |
| Retries.RepeatedReply | src/store.rs:432-455 | in every later mailbox the same answer to a request returns the saved answer under any id, another text is a conflict, and neither changes anything |
| Retries.RepeatsInRun | src/store.rs:432-473 | both, from any state of a run to any later one, whoever was retired in between |
| Retries.EachIdInsertedOnce | src/store.rs:456-482 | over a run no message id is inserted twice, by any number of senders that repeat themselves |
| Store.Store.Save | src/store.rs:411-483 | `save` among other processes: result or refusal follow from the tables at the moment its transaction had just begun. A first request that involves no retired peer and a first answer whoever is retired are inserted unless the database fails, a row that was there comes back as it was, and a refusal names the first condition that holds there. By the journal of the run this process begins at most one write transaction and inserts at most one row, under the given id, in the very next state; the row has the given content, no mark, and "pull_only" exactly for a pull recipient |
| Store.Store.SaveTransaction | src/store.rs:430-482 | the transaction inserts exactly what the tables at that moment allow, refuses with a reason that holds there, or returns the row that was there |
| Store.Store.InsertRow | src/store.rs:474-482 | the new row carries the given content and no mark, comes after all others, and its read-back is that row with whatever marks it got since |
| Store.NothingNew | src/store.rs:432-470 | once a request or an answer is saved, no later `save` of it in the run inserts anything |
| Store.LoadByRows | src/store.rs:98-113 | `load` finds the row with this id and the row that answers it, if there is one, for its sender, its recipient or without a name, and tells anyone else that the message is not theirs |
| Store.NeedlessAfter | src/store.rs:123-149 | a notice is needless after the acknowledgment of its recipient, after its retirement, and after the recorded return of an answer; the recorded return of a request changes nothing about it |
| Store.OnlyRecipientMarks | src/store.rs:572-583 | an acknowledgment or a recorded return by anyone but the recipient changes nothing |
| Store.Store.NotifyOnce | src/store.rs:485-531 | `notify_once` among other processes: at most one call by this process, for this message. An end without error is justified by the marks at its last look: a message that was acknowledged, an answer that was returned, or one whose recipient is retired is saved as not submitted, with the detail that names the cause, and any other was given to the client, or its address could not be read. After success nobody can claim the message any more, and the returned row carries the saved outcome |
| Store.Store.Claim | src/store.rs:491-502 | the UPDATE claims exactly a message that was there, not claimed, not acknowledged and not for a pull recipient; afterwards nobody can claim it |
| Store.Store.Notify | src/store.rs:503-530 | a claim that ends without error was needless at its last look and is saved as such, or was called, or its address could not be read |
| Store.Store.Submit | src/store.rs:502-530 | with a cause to skip there is no call, and the saved detail names that cause; without one there is a call unless the address cannot be read |
| Store.Store.AskClient | src/store.rs:509-513 | one call with an arbitrary answer, taken in a step of this run, or none if the address cannot be read in such a step |
| Store.Store.SaveReceipt | src/store.rs:514-530 | the row that is returned carries exactly the outcome that was saved, and was read after it |
| Store.Store.SkipAfterGrace | src/store.rs:541-552 | a reason is found exactly if the message is acknowledged, a returned answer, or for a retired recipient at that moment, and its text names the first of these; the loop ends |
| Store.Store.DismissAcknowledged | src/store.rs:554-570 | the row that decides the cleanup was read after the mark of this process was durable, and carries all marks that were there; `dismiss` gets that row exactly if it is acknowledged, unless its address cannot be read |
| Store.Store.Ack | src/store.rs:572-587 | only the recipient acknowledges, and is refused for no reason but a failing mailbox; success means a finished cleanup on the returned row, which is acknowledged |
| Store.Store.SetRetired | src/store.rs:394-409 | `retire` and `restore` refuse a peer that is not registered; success means that this process ran exactly this statement, after which the peer is retired or not as asked, since the first time it was asked |
| Store.Store.LaterChange | src/store.rs:605-660 | a statement of `wait` is one step of this process on the mailbox of its moment, and calls nothing |
| Store.Store.Register | src/store.rs:314-366 | success means that this process ran the transaction while the name had this address or neither the name nor the session was registered, and returns exactly the given peer; an error means that the name had another address, or the session another name |
| Store.Store.WaitFor | src/store.rs:589-632 | a result is what the last look found: the actor's own request, with its answer exactly if there was one then; a refusal is what that look demands, and no other error ends it but a failing mailbox or an interrupt |
| Store.Store.PollForAnswer | src/store.rs:617-631 | the poll keeps finding the request it began with and ends; a look that finds the answer returns it, and a result without one means there was none |
| Store.Store.ReturnAnswer | src/store.rs:634-660 | the answer that was read is returned unchanged but for its mark, and a mark that cannot be saved is no error |
| Store.Store.Others | src/store.rs:303-312 | between two statements other processes may take any steps; they do not move this process and call nothing in its name |
| WriteTurn.LockWait.WaitForLock | src/store.rs:227-250 | a fresh send never waits, an interrupted heir stops, any other writer is told to try again exactly within five seconds of the start of its locking event |
| WriteTurn.LockWait.Contend | src/store.rs:227-250 | a locking event ends: with the free lock, at once for a fresh send, or after the whole budget and at most 5000 looks |
| Send.Sender.Write | src/commands/mail.rs:27-53 | the journal of the run has exactly one attempt of this process, or two of which the first began no write transaction and did no more than read the text; so there is at most one write transaction of `save`, one row, of the returned id, and one reading of the text; a busy failure that is not tried again had begun a write or was interrupted; at most one call, the mode restored on every exit; repeating what is saved inserts nothing, calls nothing and reports `created` false |
| Send.Sender.Attempt | src/commands/mail.rs:55-118 | what the journal of the run has of one attempt, in order: its start, an upgrade, the text, the write transaction, the row; one without a write transaction failed, left the mode and called nothing; a message that was not created is not notified |
| Send.Sender.SaveTo | src/commands/mail.rs:63-84 | what was saved is what the arguments and the text say, an answer going to whoever sent the request; once its write transaction began, the attempt fails only for what the tables at that moment refuse, or a failing database; the journal has no insertion if the message was there |
| Send.Sender.NotifyAndWait | src/commands/mail.rs:88-117 | the native call happens only for a created message and without `no_notify`, and then success leaves nothing to claim; the exit status is 2 exactly for such a message without an answer, an acknowledgment, a receipt that it was submitted, and a detail that says why no notice was needed, and otherwise 0 |
| Send.Sender.ReadText | src/commands/mail.rs:65-73 | the text is read, by the journal, exactly if no earlier attempt has it |
| Paging.CutIsStretch | src/store.rs:665-712 | a page is a contiguous stretch of the ordered matching rows, and the rows before it, its own and the omitted ones add up to the total |
| Paging.MatchingIsListed | src/store.rs:24-27 | the inbox of a peer holds exactly the requests to it that no row answers and the answers to it that it has not acknowledged; `sent` exactly what it sent |
| Paging.FollowGivesAll | src/guidance.rs:83-105 | following `next_page` from the first page ends and gives every matching row once and in order, exactly if no matching sent row has the last possible number |
| Paging.NextPageContinues | src/guidance.rs:83-105 | the command is offered exactly while messages are omitted, and a shell that runs it asks for the same list, mailbox, peer, limit and texts from the last message on |
| Paging.NextWordsRead | src/guidance.rs:11-21 | splitting the command gives its words back, and its numbers parse to the limit and the cursor |
| Paging.CataloguePageIsAllowedPage | src/catalog/mailbox.rs:38-89 | the catalogue's page is the ordinary page of the mailbox that holds only the conversations with the allowed names |
| Paging.CatalogueLists | src/catalog/mailbox.rs:51-54 | the catalogue lists exactly what is on the list of the actor and was exchanged with one of the names |
| Paging.AnsweredInAllowed | src/store.rs:24-26 | whether a request to the actor is answered does not depend on the other conversations |
| Paging.ReadPage | src/store.rs:665-712 | the row-by-row query gives that page, and refuses exactly a limit or cursor out of range or an unknown actor; in a well-formed mailbox the page holds only rows of the list beyond the cursor, and any such row it leaves out is beyond its last one, on a full page |
| Watch.Watcher.Round | src/commands/read.rs:54-86 | one page, printed while others go on: exactly its messages; the watcher goes to sleep exactly if none was omitted, and then every unanswered request to the actor and every answer to it that it had not acknowledged at the snapshot has been printed |
| Watch.Watcher.Emit | src/commands/read.rs:76-81 | printing the next message of a page passes over no open row, and the numbers rise |
| Watch.Watcher.Watch | src/commands/read.rs:54-86 | over any rounds: printed numbers only rise; each printed row was, in a state of the run, an unanswered request to the actor or an answer to it without its acknowledgment; no such row of the mailbox as it is now and not beyond the cursor is missing; each round that is not busy prints exactly the page of a state of this call's part of the run, in rising order, from the last printed message on, and sleeps exactly if nothing was omitted, when all that was open in that state is printed |
| Watch.OpenBefore | src/store.rs:24-26 | an unanswered request or unacknowledged answer of a later mailbox was one before or is newer |
| Watch.CaughtLater | src/commands/read.rs:54-86 | whoever has caught up stays caught up while the mailbox changes |
| Watch.NextMessage | src/commands/read.rs:76-81 | between the cursor and the next message of a page there is no open row |
| ReceiverLedger.EnqueuedAtMostOnce | src/adapters/codex/receive.rs:407-441 | over any starts, crashes, cancellations and rebinds each message is enqueued at most once, and whatever a native call enqueued or may yet enqueue has a receipt or is the pending message |
| ReceiverLedger.ReceiptsOnlyGrow | src/adapters/codex/receive.rs:430-437 | receipts are never lost or changed, and the binding keeps peer, session, workspace, command, check command and socket path |
| ReceiverLedger.PendingBlocks | src/adapters/codex/receive.rs:278-280 | a durable pending message whose process is gone stays so: every later start and rebind refuses, and nothing is submitted |
| ReceiverLedger.CrashBlocks | src/adapters/codex/receive.rs:422-437 | a crash anywhere between the saved intent and the saved outcome leaves exactly that |
| ReceiverLedger.DoKeepsInv | src/adapters/codex/receive.rs:83-97 | every step keeps the ledger ahead of the native calls, also a save that fails before or after its rename |
| ReceiverLedger.StartTakes | src/adapters/codex/receive.rs:246-285 | a start that is not refused goes on to watch with the given binding and the saved receipts, and saves the ledger first exactly if it is not the saved one |
| ReceiverLedger.RebindTakes | src/adapters/codex/receive.rs:339-360 | a rebind that is not refused and finds another socket goes on to save it |
| ReceiverCheck.NeededIsOpen | src/adapters/codex/receive.rs:107-161 | what the mailbox shows to the peer suffices: the receiver submits a notice exactly if the message is in the inbox of the peer at that moment; a message to someone else or under another number is an error |
| ReceiverLedger.Receiver.Receive | src/adapters/codex/receive.rs:246-285 | `run` refuses exactly a directory that is not empty, a binding that differs in peer, session, workspace, command, or a saved check command or socket, and a message with an unknown outcome, in this order; a refusal changes nothing, and otherwise the saved binding is the given one unless saving it fails |
| ReceiverLedger.Receiver.Notify | src/adapters/codex/receive.rs:407-441 | one message: the loop goes on only with the receipt that the client gave saved under it; a notice that was not submitted leaves nothing pending, and an unknown outcome leaves it pending and the ledger blocked |
| ReceiverLedger.Receiver.Operate | src/adapters/codex/receive.rs:373-455 | the loop over any stream ends without a process and with the binding it had; a message that is reported as not confirmed has no receipt, and is pending and blocks the ledger exactly if its outcome is unknown |
| ReceiverLedger.Receiver.Save | src/adapters/codex/receive.rs:83-97 | after a failed save the file is the old or the new ledger |
| ReceiverLedger.Receiver.RebindSocket | src/adapters/codex/receive.rs:339-360 | a rebind refuses exactly a directory without state, a pending message and a binding without socket, and changes nothing but the identity of the socket, and only if it differs |
| ManagedSession.PromptedOncePerRetry | integrations/managed_receiver.py:269-410 | over all restarts, crashes and recoveries: a message is prompted at most once and once more per recovery that retries it; every message up to the cursor is settled or had a completed turn, by the log of turns; the pending message is beyond the cursor; new and idle states have none |
| ManagedSession.TurnConcludes | integrations/managed_receiver.py:335-347 | the end of a turn, once saved: a completed turn is logged, nothing is pending, the cursor is at its message and the loop goes on from there; any other turn leaves message and cursor as they were, in a state that needs a recovery, and ends the session |
| ManagedSession.CursorNeverGoesBack | integrations/managed_receiver.py:345-347 | the cursor and the counts never go back |
| ManagedSession.QuietMeansStopped | integrations/managed_receiver.py:353-373 | with an adapter that needs a clean shutdown, a new or idle state means that no native process of a session is left, so a crash during a session always leaves a state that needs recovery; every session is marked as one of a version that closes its sessions |
| ManagedSession.SessionsNeverMeet | integrations/managed_receiver.py:458-460 | because native processes inherit the lock, none of an earlier session is left when a session is launched or a state recovered |
| ManagedSession.CleanClose | integrations/managed_receiver.py:369-373 | a session that was active and is closed without an error leaves an idle state and no process |
| ManagedSession.FailedEnd | integrations/managed_receiver.py:353-368 | an end of the session that fails and is recorded leaves a state that needs a recovery |
| ManagedSession.UncertainHolds | integrations/managed_receiver.py:279-284 | an uncertain state stays as it is and nothing is prompted until it is recovered |
| ManagedSession.DoKeepsInv | integrations/managed_receiver.py:269-410 | every step of the worker, its `finally` block, a recovery or a failing save keeps the invariant |
| ManagedSession.RenameBounded | integrations/managed_receiver.py:25-37 | replacing the file forgets no prompt that was not counted as a retry |
| ManagedSession.FedAccounts | integrations/managed_receiver.py:322-330 | a message that is skipped is settled or behind the cursor, so the cursor can pass it |
| ManagedSession.Manager.Worker | integrations/managed_receiver.py:269-373 | `run` does nothing while a process of an earlier session holds the lock; it refuses an uncertain state, prompts nothing and leaves it as it is; an idle record of an older version is only marked for inspection |
| ManagedSession.Manager.Handle | integrations/managed_receiver.py:311-347 | one notice: skipped without a change if settled or behind the cursor, else prompted at most once. If its turn completed, the loop goes on only from a saved state that consumed the message; if not, it does not go on, and the cursor of file and memory is the one of before, with the message pending for a recovery once it was prompted |
| ManagedSession.Manager.Turn | integrations/managed_receiver.py:335-347 | the prompt and its turn: the log of completed turns grows exactly if the turn completed; the loop goes on exactly if that was saved, and a turn that did not complete leaves message and cursor in file and memory, in a state that needs a recovery |
| ManagedSession.Manager.Close | integrations/managed_receiver.py:353-373 | the `finally` block ends the process and prompts nothing |
| ManagedSession.Manager.RecoverSession | integrations/managed_receiver.py:383-410 | `recover` accepts exactly what names the saved session, the pending message and its state as the mailbox shows it, with the lock free and a state that `run` refuses; it writes a new state without session and message, with the cursor at the message exactly if that is settled, or nothing |
| AdmissionLedger.Ledger.Live | integrations/openhands_receiver.py:189-302 | over any launches, crashes, failing saves and recoveries a message is admitted at most once and once more per recovery that retries it, and the cursor never goes back |
| AdmissionLedger.Ledger.Launch | integrations/openhands_receiver.py:189-260 | a launch on an active record refuses and admits nothing |
| AdmissionLedger.Ledger.Bind | integrations/openhands_receiver.py:35-47 | uncertain work and another binding are refused without a change, and nothing else is, unless a save fails |
| AdmissionLedger.Ledger.Reserve | integrations/openhands_receiver.py:49-53 | exactly a repeated or concurrent notice is refused, without a change; success is durable before the admission |
| AdmissionLedger.Ledger.Consume | integrations/openhands_receiver.py:55-59 | exactly the pending notice is consumed, and the cursor moves to it |
| AdmissionLedger.Ledger.Finish | integrations/openhands_receiver.py:61-64 | the record becomes idle only without a pending notice |
| AdmissionLedger.Ledger.Recover | integrations/openhands_receiver.py:66-82 | a recovery is accepted exactly for an active record, its conversation and its notice; it moves the cursor only for `consumed`, and is counted for `retry` |
| AdmissionLedger.RetryBounded | integrations/openhands_receiver.py:79-82 | forgetting a notice for retry allows one more admission of it and of no other |
| NoticeWaiter.HandedOutOnce | integrations/copilot.py:43-117 | for every interleaving of hooks and waiters: each id is offered once, each notice printed at most once and only after it left the file, and, if no text is empty, every posted notice is the pending one or was taken, in order |
| NoticeWaiter.TakenWithoutWatcher | integrations/copilot.py:63-75 | there is no waiter while a hook holds the wait lock, and from then until it has taken the notice out of the file a waiter is at most at its first look; the notice stays the pending one all that time |
| NoticeWaiter.WaiterCameAfter | integrations/copilot.py:67-75 | once a hook has given the wait lock back, and so when it replaces the file and when it prints, a waiter holds the lock if and only if it took it after that and kept it |
| NoticeWaiter.SaveMayMeetWaiter | integrations/copilot.py:67-75 | a run whose last step takes the notice out of the file while a waiter holds the wait lock |
| NoticeWaiter.OverwrittenOnlyIfEmpty | integrations/copilot.py:105-111 | no step replaces a pending notice with a text; it leaves the file only by being taken |
| NoticeWaiter.EmptyCanBeOverwritten | integrations/copilot.py:81-83 | an empty one can be replaced in every state in which the locks are free |
| NoticeWaiter.EmptyIsLost | integrations/copilot.py:105-111 | a run from a fresh session on in which an empty notice is pending and the next message takes its place, and no hook ever took it |
| NoticeWaiter.PrintMayMeetWaiter | integrations/copilot.py:62-75 | a run in which a waiter already watches while a hook has not printed yet |
| NoticeWaiter.DoKeepsInv | integrations/copilot.py:22-33 | every step under the two locks, and a crash anywhere, keeps the books of posted, taken and printed notices |
| NoticeWaiter.OneSession | integrations/copilot.py:48-57 | over every interleaving one state directory serves one session and mailbox, and a closed session stays closed |
| NoticeWaiter.DeliveredWhenFree | integrations/copilot.py:59-75 | a hook that finds both locks free prints the pending notice and takes it out of the file exactly if the directory is its own, open, and holds a notice with a text |
| NoticeWaiter.PostedWhenFree | integrations/copilot.py:78-111 | a waiter of an open session that nobody disturbs posts a message that was not offered, and remembers it as offered |
| NoticeWaiter.ClosedEndsWait | integrations/copilot.py:80-107 | a waiter that looks at a closed session ends and posts nothing |
| NoticeWaiter.Command.Wait | integrations/copilot.py:78-117 | a waiter posts at most one notice, of a message that was not offered before, and none in a closed session |
| NoticeWaiter.Command.TakeNotice | integrations/copilot.py:59-75 | what a hook prints is a notice that this call took out of the file; a hook of another session or mailbox, or of a closed session, prints nothing |
| NoticeWaiter.Command.StartSession | integrations/copilot.py:50-54 | the start hook binds a directory that is not bound, and no other |
| NoticeWaiter.Command.EndSession | integrations/copilot.py:55-58 | only a hook of the session of the directory closes it |
| ProcessGroup.ReadsNameOneLife | src/os/linux/group.rs:221-248 | for every schedule of forks, exits, reaps and reuse: two reads with the same start time saw one process, and a handle pinned in between names it |
| ProcessGroup.SignalFounded | src/os/linux/group.rs:198-256 | with the anchor there again, a signal to a pinned member goes to a process that was in the group at both reads and the user's own, under a leader that was unreaped all along |
| ProcessGroup.MemberWhenPinned | src/os/linux/group.rs:221-248 | the process was a member at every moment from the first read to the second, the pin included, if and only if nobody moved it in between |
| ProcessGroup.AwayWhenPinned | src/os/linux/group.rs:221-248 | otherwise it need not be: every member can leave and come back unnoticed |
| ProcessGroup.ThereBetween | src/os/linux/group.rs:174-181 | a process seen at two moments was there in between, under its number |
| ProcessGroup.AnchorHolds | src/os/linux/group.rs:174-181 | the start time of the leader at its number means that the leader is not reaped |
| ProcessGroup.OwnedGroup.Step | src/os/linux/group.rs:198-256 | a check of the anchor that fails, or cannot be made, sends nothing; otherwise every process of the user that was in the group from the first check to the second is pinned, every pinned member had ended or was sent the signal, and `finished` means that none was sent |
| ProcessGroup.OwnedGroup.Inspect | src/os/linux/group.rs:200-248 | only a member of the user's own, seen twice around its pin, is added, and one that stays a member meanwhile is; earlier handles stay |
| ProcessGroup.OwnedGroup.SignalMembers | src/os/linux/group.rs:249-255 | every member that has not ended gets the signal, and only members do |
| ProcessGroup.OwnedGroup.CheckAnchor | src/os/linux/group.rs:174-181 | success means that the leader is there and leads the group |
| ProcessGroup.OwnedGroup.Finish | src/os/linux/group.rs:258-276 | success means that every member that was pinned has ended for good, and so has every process of the user that was in the group all through the last scan; every signal of the rounds of the first two seconds is SIGTERM, every later one SIGKILL |
| ProcessGroup.Own | src/os/linux/group.rs:156-172 | ownership is taken only of a child that leads its own group and is the same process before and after the pin |
| ProcStat.ReadsAnyLine | src/os/linux/group.rs:28-57 | whatever bytes the command name has, the group and the start time of the line are read |
| ProcStat.NumberOfSigned | src/os/linux/group.rs:43-50 | a negative group number is read with its sign |
| SchemaUpgrade.UpgradeKeepsMeaning | src/schema.rs:264-296 | the upgrade of a file that passes the checks before it keeps every message, wait and retirement and all other objects, every peer with native delivery, at version 3 with every reference closed |
| SchemaUpgrade.ReferencesStayClosed | src/schema.rs:296 | the last check of references cannot fail for a file that passed the first, if its references to peers name columns that stay |
| SchemaUpgrade.EmptyOldFile | src/schema.rs:264-296 | an old mailbox without peers can be upgraded, and has then exactly the tables of a new one |
| SchemaUpgrade.ChangeTables | src/schema.rs:274-296 | the statements, one by one, succeed exactly for the files that can be upgraded, and then give that upgrade |
| SchemaUpgrade.RebuildPeers | src/schema.rs:274-284 | the new peers table replaces the old one exactly if its constraints hold and no name is taken |
| SchemaUpgrade.PeersHoldIfFit | src/schema.rs:277-283 | the new table takes the old peers exactly if each has a harness, a session and a workspace, and no two share a name or a session of one harness |
| SchemaUpgrade.AddUrl | src/schema.rs:274-276 | adding the column changes no peer, and fails for another spelling of it |
| SchemaUpgrade.MessagesKept | src/schema.rs:285-287 | the new column of messages is null where there was none |
| SchemaUpgrade.HeldStays | src/schema.rs:129-138 | what a reference finds before the upgrade it finds after |
| SchemaOpeners.OneUpgrade | src/schema.rs:201-303 | with any number of openers at most one upgrade is committed, it keeps the meaning of the file, its backup is the file as it was, and whoever has opened the mailbox finds version 3 |
| SchemaOpeners.OnlyCommitChanges | src/schema.rs:232-303 | a failure at any point, and every step but the commit, leaves the file as it was |
| SchemaOpeners.DoKeepsInv | src/schema.rs:201-303 | every step keeps one writer, a backup equal to the file it changes, and at most one commit |
| SchemaOpeners.Connection.Ensure | src/schema.rs:201-230 | without an error the mailbox is open at version 3; a file that was at version 3 when looked at is opened as it is, or refused if a table or column is missing; an unknown version is refused; any other is open only after a commit that changed it |
| SchemaOpeners.Connection.Upgrade | src/schema.rs:264-303 | broken structure and broken references are refused as such, and only a file that can be upgraded is |
| SchemaOpeners.Connection.BackUp | src/schema.rs:143-199 | the copy is made of the file that the transaction changes, which nobody else changes meanwhile |
| SchemaOpeners.Connection.Commit | src/schema.rs:296-303 | the committed file is the working copy at version 3, or the file is unchanged |
| CivilDate.StartedIsTheCalendarDay | src/os/macos.rs:197-224 | for every u64 number of seconds the result is the date and weekday reached by stepping day by day from Thursday 1 January 1970, and the time of day, with every intermediate value in range |
| CivilDate.CivilFromDaysIsDateOf | src/os/macos.rs:203-215 | the closed form of the date is the stepped one |
| CivilDate.DateOfIsCivil | src/os/macos.rs:203-215 | every stepped day lies in its March year where the closed form puts it |
| CivilDate.WeekdayOfIsTable | src/os/macos.rs:198-218 | the table of weekdays is the stepped one |
| CivilDate.YearStartClosed | src/os/macos.rs:206-207 | the days before a year, counted with its leap years |
| ShellWords.SplitShellJoin | src/os/mod.rs:166-181 | a shell splits the joined words into exactly those words, empty ones included |
| ShellWords.ShellJoinInjective | src/os/mod.rs:166-181 | different words never join to the same text |
| ShellWords.ProxyCommandRoundTrip | src/catalog/discover/tailscale.rs:193-205 | percent expansion by OpenSSH and splitting by a shell give the binary, the socket argument, the address and the port back unchanged |
| Framing.EveryLineIsReceived | src/adapters/codex/rpc.rs:429-456 | for every stream of lines below the limit and every split into reads, there is one call per line, in order, that gives it or reports that it is no text, and the rest is kept exactly |
| Framing.FramingIgnoresChunks | src/adapters/codex/rpc.rs:429-456 | for a stream of text lines the calls return exactly the lines in order and keep exactly the remainder |
| Framing.RecvTakesOneLine | src/adapters/codex/rpc.rs:429-456 | one call takes the first line of the stream or nothing, and never returns one over the limit |
| Framing.LongLineIsRefused | src/adapters/codex/rpc.rs:431-454 | a line over the limit, also one that never ends, is refused however healthy reads split it |
| Framing.LineAtLimit | src/adapters/codex/rpc.rs:431-434 | a line of exactly the limit is refused if and only if a read ends just before its newline |
| Framing.Utf8IsEncoded | src/adapters/codex/rpc.rs:455-455 | a line counts as text exactly if it is the encoding of a sequence of Unicode scalar values by the table of RFC 3629 |
| Framing.StdioProcess.Recv | src/adapters/codex/rpc.rs:429-456 | the loop over reads does what the specification of one frame says |
| Framing.Rpc.CallUntil | src/adapters/codex/rpc.rs:195-233 | a result or rejection is the next line of the stream that carries this call's own new number, as an integer, as the same double, or as `true` for the first call; the lines before it carry none of these; the frame is added to those that the connection has taken, in the order of the calls |
| Framing.AcceptedApart | src/adapters/codex/rpc.rs:205-233 | no two calls of one connection take frames with the same id, so a late answer to one call never answers another |
| LoadedScan.Scan.ScanLoaded | src/adapters/codex/discovery.rs:287-346 | the scan ends for every server, with at most 21 lists and 200 reads; it adds exactly the verified sessions, also when it fails later, and without a failure it read every listed thread, got no answer that ends a scan, and counts exactly what it rejected |
| LoadedScan.Scan.ScanPage | src/adapters/codex/discovery.rs:312-332 | a page is read through unless a failure ends the source, each thread once |
| LoadedScan.Scan.Follow | src/adapters/codex/discovery.rs:333-343 | a cursor is followed only if it is new and within the limit |
| LoadedScan.VerifiedAreAsked | src/adapters/codex/discovery.rs:348-384 | the sessions reported are exactly the threads that were asked for and read back under their own ids, loaded and accepting input; no id is reported twice |
| LoadedScan.LoadedByRecord | src/adapters/codex/discovery.rs:348-384 | an answer gives a session exactly if it is such a thread, is passed over exactly if the thread is unloaded or refuses input, and is otherwise rejected, with its own failure if the read failed |
| LoadedScan.ReportedSessions | src/adapters/codex/discovery.rs:287-346 | every reported session was listed, their ids are pairwise distinct, and every thread that was read back and accepts input is reported |

## Left out

- HTTP, TLS, WebSocket, SSH, mDNS and the native clients behind the adapters: a call has an arbitrary outcome.
- SQLite itself, file locks and fsync, and the case of table names in a schema: see the assumptions above.
- The budgets of five seconds and of the grace period are modelled only where they bound a loop; elsewhere a loop may end at any time.
- The helper thread and the lock file of `acquire`: it ends with the turn, without it, or interrupted.
- Field validators (names, UUIDs, texts, limits of `wait`), argument parsing, JSON fields, summaries, guidance texts, error-code tables.
- Shell words are read without redirections and expansions, which the quoting leaves nowhere unquoted, and without reserved words and assignments: a shell takes a first word such as `if` or `A=b`, which stays unquoted, for one of these.
- Framing.Rpc.CallUntil: the JSON text of a frame is an arbitrary decoder, and numbers are exact below 2^53.
- LoadedScan.Scan.ScanLoaded: the time limit may strike at any look at the clock.
- Store.Store.WaitFor: the wait registration of a poll has no effect but a longer grace period, and the time is any number of polls.
- ManagedSession.FedAccounts: the watcher of a managed session is an ordered feed that leaves out only settled messages, which is what `Watch.Watcher.Watch` proves of the command.
- ReceiverLedger.EnqueuedAtMostOnce: one state directory, as receipts are; a call that reports `not_submitted` is taken at its word.
- ProcessGroup.OwnedGroup.Finish: a process that joined the group during or after the last scan is not covered; that a listing of `/proc` leaves out no process that is there all the time is an assumption.
- SchemaUpgrade.UpgradeKeepsMeaning: indexes, triggers and type affinity of a legacy file are not modelled.
- ManagedSession.SessionsNeverMeet: that a native process keeps its inherited lock descriptor until it ends (`pass_fds` in integrations/letta.py:83, integrations/antigravity.py:70 and integrations/goose.py:125) is an assumption.
- AdmissionLedger.Ledger.Live: the user interface that admits a notice is one step after its reservation.
- Windows job objects, macOS process queries, signal handlers, terminal interfaces and version-pinned clients: no algorithm of their own.

# Durable coordination of the demo agent

This project models the part of `demo_agent` that must not lose, repeat or reorder work: protocols that run over a
compare-and-swap document store while other tasks interleave, callers are cancelled and processes die. It also models
the tracked-change editor, whose promise is that its revisions can be taken back, and the signing-key cache, whose
promise is a bound on fetches.

Each area has a value model with small functions, a state machine where several tasks interleave, theorems over every
run of it, and, where the program edits something in place, a class whose methods do the same and are proved against
the value model.

- **Compliance cases** (`Compliance*.dfy`). One indexed document holds all cases of an instance. Every external write
  is claimed, then sent, then receipted. A handler is a little program (`Pc`); one store update is one step, a backend
  call is two, and interruptions, lost processes and new messages may come between any two of them. `ComplianceRecord`
  holds the edits, `ComplianceProtocol` the machine, `ComplianceTheorems` the promises. `ComplianceWords`,
  `ComplianceFindings` and `ComplianceConfirmations` follow what was said, found and confirmed to the close,
  `ComplianceRouting` and `ComplianceOwners` say which case a message reaches and who is at work on it, and
  `ComplianceProgress` what gets done when nothing disturbs it.
- **Conversation store** (`ConversationStore`, `Store*.dfy`, `JsonValue`, `ReceiptWindow`). Clients read, judge expiry,
  transform and swap in any interleaving.
- **Case desk** (`Desk*.dfy`). Inbox, serial worker and timer of one desk, with the index that is written after each
  update. The worker includes drains that fail and crashes; the timer is a heap with stale entries.
- **Document editor** (`Doc*.dfy`). Paragraphs are trees of runs and elements. `Cells` is a paragraph without its run
  boundaries: every character with its formatting and place. `Settle` accepts or rejects the revisions of an id range.
- **Conversation jobs** (`Chat*.dfy`). A lock, a generation, and updates whose evaluation and swap are separate steps,
  so that a swap left behind by a cancelled call may still land.
- **Signing keys** (`KeyCache.dfy`) and **held document saves** (`HeldSaves`, `HeldRestart`), with the index row that a
  restart goes by.

Hashes are taken to be injective and fresh nonces to be distinct; clocks never run backwards; model callbacks and
external calls may answer anything.

## What the proofs found

The code is modelled as it is. Where a promise does not hold as stated, the project proves exactly when it does, and
shows a run in which it fails:

- A failed records check releases a case with replies queued if one overtook the check (`FailedCheckStrands`,
  `AReplyCanBeStranded`).
- A case whose owner is lost keeps its replies queued and is never worked again until its record expires, as the
  service documents (`OwnerIsAtWorkOrLost`, `LostOwnerIsForGood`, `RepliesOfALostOwnerWaitForever`).
- The desk's restart goes by the index row of a case, which is written after the case. It skips waiting and resolved
  cases, cases whose row is older than their last update, and new cases without a row (`ResumedIffRowSaysSo`,
  `EventOnWaitingCaseIsNotResumed`, `NewCaseIsNotResumed`, `TakenCaseIsNotResumed`). A batch in the hands of a dying
  drain is lost (`EveryEventIsWorkedOnce`).
- In the same way a restart can leave a wake-up out of the timer (`UncoveredIff`, `StoppedBeforeTheIndex`,
  `WakeUpIsForgotten`), and it misses held document saves whose index row is missing, older than the save, dropped or not
  among the rows it lists (`AbandonedIff`, `HeldRestart.ResumedIffRowSaysSo`, `HeldRestart.StoppedBeforeTheIndex`,
  `LateRowHidesTheSave`).
- The timer clears the stored wake-up without comparing it, so a wake-up set between its read and its clear is lost
  (`LossIff`, `RacingWakeIsLost`, `WakeUpIsCleared`); so is one whose process stops between the clear and the event
  (`StoppedBeforeTheEvent`), and one in the same second as an earlier one of the case, whose event counts as seen
  (`FireReachesTheCase`).
- Forgetting a chat that is already empty, in a turn that has written nothing, leaves a swap of a cancelled turn valid
  (`ForgettingIsFinalIff`, `LeftoverComesBack`).
- The history limit of 20 can be broken by a running record whose job was cancelled (`AdmittedHistoryIsBounded`,
  `OverfullNeedsUnbacked`, `TwentyOneRunning`).
- Two fetches a minute bounds the fetches that are not cancelled; cancelled ones come on top without bound
  (`AllFetchesAreBounded`, `CancelledFetchesAreUnbounded`).
- Changes queued for a document while its dropped save is still being announced are held with nobody to save them
  (`AbandonedIff`, `StrandedIff`, `QueuedDuringADropIsStranded`); a saver that dies between an upload and its record
  has its batches written twice (`HeldEditsAreConserved`, `DeathAfterUploadWritesTwice`).
- Minted revision ids skip existing ids of ten or more digits and can meet one; rejecting then takes a foreign revision
  away (`FreshIff`, `GivenBackIff`, `LongIdsCollide`).
- A replacement whose phrase ends inside a link puts the new text behind the whole link (`ReplaceAccepted`).

## Model

| member | source | states |
|---|---|---|
| ComplianceTheorems.EveryEffectAtMostOnce | demo_agent/compliance_service.py:624-661 | over every run no named write of a case, and no confirmation email, is sent a second time |
| ComplianceTheorems.NoCallWhileAnotherIsOpen | demo_agent/compliance_service.py:631-649 | at most one write of a case is open (claimed or unknown), and a call goes out only for the claim of its own owner and nonce while every other write is completed |
| ComplianceTheorems.ClaimsNeverReplay | demo_agent/compliance_service.py:634-637 | the "retained claim" error cannot be reached by a driver that owns its case: its claim fails only on a newer turn or a suspension |
| ComplianceTheorems.FewWrites | demo_agent/compliance_service.py:471-471 | the writes of a valid record never exceed two per turn and four |
| ComplianceTheorems.NeverRejectsItsOwnState | demo_agent/compliance_service.py:433-522 | after every run each stored record passes everything the next read checks, so the service never rejects what it wrote |
| ComplianceTheorems.NoReplyIsLost | demo_agent/compliance_service.py:750-760 | when a driver finds no more work on a live, open case, nothing is queued and the delivery of the current turn is completed, however many replies arrived meanwhile |
| ComplianceTheorems.AtRest | demo_agent/compliance_service.py:882-974 | a live, open case without owner owes no answer, unless its records could not be checked |
| ComplianceTheorems.FailedCheckStrands | demo_agent/compliance_service.py:905-915 | after a failed check replies stay queued with nobody driving if and only if one was accepted after the turn was taken |
| ComplianceStranding.AReplyCanBeStranded | demo_agent/compliance_service.py:905-915 | and that happens: after a first answer a reply starts a second turn, another is accepted while its records are checked, the check fails, and the case keeps that reply queued with no owner |
| ComplianceTheorems.ClosedOnlyOnConfirmation | demo_agent/compliance_service.py:1146-1156 | every close sent was claimed while nothing had been accepted since the confirmation, with the answer of that very turn delivered earlier under the confirmed message id and every earlier write completed |
| ComplianceTheorems.MaterialEndsTheTurn | demo_agent/compliance_service.py:1100-1124 | a message with news raises the generation or suspends the case, and takes back the standing authority to close, so the confirmed turn can no longer be closed |
| ComplianceTheorems.ClosureIsSettled | demo_agent/compliance_service.py:1175-1189 | in every run a closure that was read back is closed at Salesforce; it goes on to its notice, by way of an email exactly if the confirmation asked for one, only if nothing came in between, and is otherwise let go and handed to a specialist |
| ComplianceTheorems.ClosureEnds | demo_agent/compliance_service.py:1194-1203 | in every run a closure whose notice went out ends closed and in service if nothing came in between, and every other one ends with a specialist; either way the case is let go |
| ComplianceTheorems.MaterialPreventsClose | demo_agent/compliance_service.py:1152-1156 | once material has won the race, no later step of the closing handler can claim the close of that turn |
| ComplianceTheorems.ReplaysChangeNothing | demo_agent/compliance_service.py:1069-1073 | a recorded activity belongs to one case; handling it again under any marker, text or reading changes no case, and it is reported as handled only for its own case |
| ComplianceTheorems.OneLiveDriver | demo_agent/compliance_service.py:1036-1044 | two live handlers never drive one case, and whoever drives owns it |
| ComplianceOwners.OwnerIsAtWorkOrLost | demo_agent/compliance_service.py:36-39 | in every run and at any time a case in service whose owner is not at work on it is exactly one whose owner was lost |
| ComplianceOwners.QueuedRepliesAreAttended | demo_agent/compliance_service.py:750-760 | so replies queued on an open case in service whose records could be checked have a driver at work exactly as long as its owner was not lost |
| ComplianceOwners.LostOwnerIsForGood | demo_agent/compliance_service.py:575-589 | once its owner is lost a case is never worked again: no write is claimed or completed and every reply stays queued, whatever follows |
| ComplianceOwners.RepliesOfALostOwnerWaitForever | demo_agent/compliance_service.py:1113-1124 | which happens: a run after which a queued reply is never taken in any continuation |
| ComplianceTheorems.ReferencesAreUnique | demo_agent/compliance_service.py:734-748 | no two unsuspended cases share a Salesforce id or number |
| ComplianceFindings.ProjectionFiles | demo_agent/compliance_service.py:284-341 | answer, evidence and questions are filed as found; the filed findings are ready if and only if the raw ones say ready, nothing was shortened, the input was complete, evidence and answer are there, and no question and no objection is open |
| ComplianceFindings.ClosedOnFindings | demo_agent/compliance_service.py:898-928 | in every run each close sent goes back to a check of that very turn whose raw findings meet that condition |
| ComplianceFindings.OfferedIffFindingsAllow | demo_agent/compliance_service.py:956-972 | in every run an answer that was not overtaken is offered for confirmation exactly if the raw findings of its turn allow it; else it waits for the requester if they left questions open, and for a specialist if not |
| ComplianceFindings.FindingsAreKept | demo_agent/compliance_service.py:919-923 | in every run at most four findings are kept and those the case goes by are the latest |
| ComplianceFindings.FindingsAreFiled | demo_agent/compliance_service.py:917-926 | findings of a turn in service are filed behind the last three before them |
| ComplianceWords.MaterialIsQueued | demo_agent/compliance_service.py:1100-1114 | a message starts a new turn if and only if it is free text with news, on a case in service with room for a turn; queue and history get its text, its time and its activity |
| ComplianceWords.NewTurnsAreMessages | demo_agent/compliance_service.py:1108-1114 | in every run whatever raises a case to a new turn is one accepted message that had come in, and the one entry it adds is that message |
| ComplianceWords.EveryReplyWasSaid | demo_agent/compliance_service.py:1108-1114 | in every run each entry of a history is what one message accepted for that case said |
| ComplianceWords.WorkIsTheReply | demo_agent/compliance_service.py:889-904 | in every run whoever starts or checks a turn works on the reply accepted for it, with the same as the latest reply unless it is empty, and knows whether the input is complete |
| ComplianceWords.CompleteMeansWhole | demo_agent/compliance_service.py:1100-1104 | in every run the input counts as complete only if the email and every message in the history were taken over whole, and as incomplete only if one was not |
| ComplianceConfirmations.ClosedOnRequest | demo_agent/compliance_service.py:1086-1096 | in every run each close sent goes back to a message accepted for this case, as a command or as understood for it, while the answer stood |
| ComplianceConfirmations.EmailedOnlyIfAsked | demo_agent/compliance_service.py:1187-1188 | in every run a confirmation email goes out only if the confirming message was read as wanting one |
| ComplianceRouting.ReachesIff | demo_agent/compliance_service.py:1003-1015 | the case a message reaches, both ways: the only one it can mean, or among several, without a number or a command, the open one contacted last |
| ComplianceRouting.HandledIff | demo_agent/compliance_service.py:1066-1074 | a message is reported as handled if and only if it reaches a case and no other case holds its activity |
| ComplianceRouting.ContactIsAReceipt | demo_agent/compliance_service.py:952-958 | in every run the contact time that decides this is that of a receipted delivery of the case |
| ComplianceStatus.StatusTells | demo_agent/compliance_service.py:609-642 | in every run the status shows the write under way, the turn taken, the failed check and the unknown outcome, which voids authority and marks exactly the open writes of the handler |
| ComplianceStatus.ClosedAsReadBack | demo_agent/compliance_service.py:1162-1173 | in every run a readback is what the backend said after the close, and a case counts as closed only if it said exactly that |
| ComplianceStatus.EventIsLogged | demo_agent/compliance_service.py:535-541 | each event ends the timeline, numbered in turn, before it the latest forty-nine |
| ComplianceProgress.WriteCompletes | demo_agent/compliance_service.py:624-661 | an undisturbed write that the outside world answers is claimed, sent once and receipted |
| ComplianceProgress.UndisturbedTurnIsAnswered | demo_agent/compliance_service.py:898-974 | an undisturbed turn is answered whatever its findings; they are filed as found, and the case may be closed exactly if the raw findings allow it |
| ComplianceProgress.ConfirmedAnswerCloses | demo_agent/compliance_service.py:1086-1156 | any message that confirms a standing answer leads to the close being sent |
| ComplianceProgress.AnEmailCanBeSeenThrough | demo_agent/compliance_service.py:678-718 | every acceptable email can be seen through from its arrival to the close, for any answers of the outside world |
| ComplianceGrowth.NothingIsForgotten | demo_agent/compliance_service.py:547-589 | over any run cases, receipts, replies, references and suspensions are only ever added to |
| ComplianceRuns.RunKeeps | demo_agent/compliance_service.py:524-589 | the whole invariant of index, handlers and calls holds in every reachable state, with crashes and interruptions between any two steps |
| ComplianceRuns.NextKeeps | demo_agent/compliance_service.py:574-589 | each single step of any handler keeps that invariant |
| ComplianceKeeps.ClaimKeeps | demo_agent/compliance_service.py:631-642 | a claim keeps every bound and receipt rule of the record |
| ComplianceKeeps.CompleteKeeps | demo_agent/compliance_service.py:651-657 | recording a receipt keeps them, and the receipt proves its write |
| ComplianceKeeps.AbortKeeps | demo_agent/compliance_service.py:609-615 | marking open writes unknown and suspending keeps them |
| ComplianceKeeps.RegisterKeeps | demo_agent/compliance_service.py:734-744 | registration ties the reference to the create receipt |
| ComplianceKeeps.TakeKeeps | demo_agent/compliance_service.py:751-758 | taking work or letting go leaves the queue contiguous and an idle case answered |
| ComplianceKeeps.BlockedKeeps | demo_agent/compliance_service.py:906-909 | giving up a check releases the case without breaking the record |
| ComplianceKeeps.InvestigatedKeeps | demo_agent/compliance_service.py:917-924 | findings are filed within their bound |
| ComplianceKeeps.DeliveredKeeps | demo_agent/compliance_service.py:956-972 | authority to close refers to the answer just delivered |
| ComplianceKeeps.ReadbackKeeps | demo_agent/compliance_service.py:1167-1169 | a status readback keeps the record valid |
| ComplianceKeeps.ClosedKeeps | demo_agent/compliance_service.py:1175-1182 | a confirmed closure is backed by its write and readback |
| ComplianceKeeps.NotifiedKeeps | demo_agent/compliance_service.py:1194-1203 | recording the closing notice keeps the record valid |
| ComplianceKeeps.NewCaseKeeps | demo_agent/compliance_service.py:698-713 | an admitted case starts valid |
| ComplianceArrivals.AcceptKeeps | demo_agent/compliance_service.py:1062-1124 | accepting any message keeps the record valid |
| ComplianceArrivals.AcceptOvertakes | demo_agent/compliance_service.py:1062-1124 | an accepted message leaves everything a running driver relies on |
| ComplianceArrivals.OvertakenDriver | demo_agent/compliance_service.py:917-928 | a driver overtaken by a message still satisfies what its next step needs |
| ComplianceIndex.Target | demo_agent/compliance_service.py:1003-1015 | the case a message is routed to belongs to its sender and chat, and to its case number if it names one |
| ComplianceCaseFile.CaseFile.constructor | demo_agent/compliance_service.py:698-713 | a new record in place |
| ComplianceCaseFile.CaseFile.Note | demo_agent/compliance_service.py:535-541 | the timeline stays within its bound and its sequence grows |
| ComplianceCaseFile.CaseFile.Claim | demo_agent/compliance_service.py:631-642 | claims in place exactly as specified, with the skipped and refused outcomes |
| ComplianceCaseFile.CaseFile.Complete | demo_agent/compliance_service.py:651-657 | records a receipt for its own claim only |
| ComplianceCaseFile.CaseFile.Abort | demo_agent/compliance_service.py:609-615 | one pass over the writes marks the open ones of this owner unknown |
| ComplianceCaseFile.CaseFile.Take | demo_agent/compliance_service.py:751-758 | takes the first pending reply or lets go |
| ComplianceCaseFile.CaseFile.Record | demo_agent/compliance_service.py:917-924 | files findings only for the current turn |
| ComplianceCaseFile.CaseFile.Deliver | demo_agent/compliance_service.py:956-972 | records the delivery and the authority it gives |
| ComplianceCaseFile.CaseFile.Settle | demo_agent/compliance_service.py:1175-1182 | settles a confirmed closure |
| ComplianceCaseFile.CaseFile.Notify | demo_agent/compliance_service.py:1194-1203 | records the notice and releases the case |
| ComplianceCaseFile.CaseFile.Accept | demo_agent/compliance_service.py:1074-1124 | the branches of accept, with the next action |
| ComplianceCaseFile.CaseFile.AddMaterial | demo_agent/compliance_service.py:1100-1124 | material voids authority and wakes an idle case |
| ComplianceCaseFile.CaseFile.Queue | demo_agent/compliance_service.py:1101-1116 | the message joins queue and history word for word, or the case is suspended |
| JsonValue.SameJsonIsIdentity | demo_agent/conversation_memory.py:172-182 | the no-op test recognises exactly the unchanged value |
| JsonValue.PythonEqualUpToTypes | demo_agent/conversation_memory.py:172-182 | what plain equality would miss is exactly a change of type |
| StoreLinearizability.RunKeeps | demo_agent/conversation_memory.py:376-408 | the invariant of versions, history and calls holds over every interleaving |
| StoreLinearizability.StateIsReplay | demo_agent/conversation_memory.py:376-408 | the stored document is the fold of the committed transforms in commit order, its version counting them |
| StoreLinearizability.EveryCallIsAtomic | demo_agent/conversation_memory.py:376-408 | every finished call took effect at one point between its start and end, changed nothing at one such point, or lost all its attempts to other commits |
| StoreLinearizability.ExpiryKeepsTheVersion | demo_agent/conversation_memory.py:366-369 | a commit on an expired document starts from a fresh one, and the step that makes commit k turns a row of version k into one of version k + 1, expired or not |
| StoreReceipts.ClaimIsItsCommit | demo_agent/conversation_memory.py:794-804 | claim_activity answers True exactly when its own commit recorded the id |
| StoreReceipts.ClaimedTwice | demo_agent/conversation_memory.py:787-804 | two claims of one id both succeed only past an expiry or 512 other new ids |
| StoreReceipts.WelcomeIsItsCommit | demo_agent/conversation_memory.py:807-818 | mark_welcomed answers True exactly when its own commit turned the mark on |
| StoreReceipts.WelcomedOnce | demo_agent/conversation_memory.py:807-818 | mark_welcomed succeeds once until the document expires |
| StoreReceipts.ExchangeIsIdempotent | demo_agent/conversation_memory.py:843-858 | repeating a recent exchange changes nothing and the message bound holds |
| StoreReceipts.ExchangeIsRecorded | demo_agent/conversation_memory.py:843-858 | a new exchange ends the recent messages with what the user said and what was answered, and only the oldest fall out |
| StoreLinearizability.MissingOrExpiredReadsBlank | demo_agent/conversation_memory.py:357-369 | a missing or expired document reads as an empty one, any other as it is stored |
| StoreLinearizability.StoredDocumentIsValid | demo_agent/conversation_memory.py:273-300 | in every run the stored document is one of its scope and within its bounds |
| ReceiptWindow.WindowMoves | demo_agent/conversation_memory.py:781-784 | an id leaves the bounded list only behind as many newer ids as the list holds |
| StoreUpdate.Store.Update | demo_agent/conversation_memory.py:376-408 | the retry loop is one client of the machine and ends the way its answer says |
| StoreUpdate.Store.Attempt | demo_agent/conversation_memory.py:387-407 | one turn of the loop either answers or has lost its swap |
| StoreUpdate.Store.Snapshot | demo_agent/conversation_memory.py:357-369 | a snapshot is the stored or a fresh document at the stored version |
| StoreUpdate.Store.Change | demo_agent/conversation_memory.py:389-397 | a candidate is written only if it is valid and different |
| DeskCase.ErrorsAreTheStreak | demo_agent/case_desk.py:415-416 | the error counter is the number of failed turns since the last good one, whatever tools do in between |
| DeskCase.TurnLeavesANextStep | demo_agent/case_desk.py:404-433 | after a turn a case is never left working: escalated exactly on the third failure in a row, otherwise waiting with a wake-up |
| DeskCase.Document.SubmitEvent | demo_agent/case_desk.py:313-338 | admits, ignores or revives in place, with bounded inbox, receipts and timeline |
| DeskCase.Document.TakeEvents | demo_agent/case_desk.py:369-377 | hands over all waiting events and marks the case as worked |
| DeskCase.Document.FinishTurn | demo_agent/case_desk.py:405-430 | the end of a turn in place; an unknown case is left alone |
| DeskFile.EventIsFiled | demo_agent/case_desk.py:301-338 | when an event is filed, and what it leaves in line, log, status, record and requester |
| DeskFile.TakenIsWorked | demo_agent/case_desk.py:366-377 | taking empties the line; an open case is then worked, a finished one stays finished |
| DeskFile.EndOfTurnInNumbers | demo_agent/case_desk.py:404-433 | three failures in a row hand over; else a case still worked keeps what its tools asked for or is looked at again after an hour, ten minutes after a failure |
| DeskFile.RefusedIff | demo_agent/case_desk.py:436-475 | exactly which updates are refused; they change nothing |
| DeskFile.FinishedStaysFinished | demo_agent/case_desk.py:470-482 | a finished case stays so, without wake-up, whatever arrives, until it is reopened or edited |
| DeskFile.FollowUpsCount | demo_agent/case_desk.py:441-445 | follow-ups count the waits in a row for the same party |
| DeskFile.TimerIdsTell | demo_agent/case_desk.py:508-509 | two timer events of a case have one id exactly if their times fall in the same second |
| DeskFile.SleepsUntilDue | demo_agent/case_desk.py:510-512 | the loop sleeps exactly until its earliest entry, but half a second at least and fifteen minutes at most |
| DeskFile.SleepsWithoutEntries | demo_agent/case_desk.py:510-512 | and fifteen minutes without entries |
| DeskWaits.WaitsAreTimed | demo_agent/case_desk.py:436-468 | a wait or a resolution stores the clock reading of the call plus its delay as wake-up, and none without a delay or for zero |
| DeskWaits.WakeUpsAreSet | demo_agent/case_desk.py:451-455 | asking for a wake-up stores its time and reason, clearing takes it away, and nothing else changes |
| DeskWaits.NoEarlyWakeUp | demo_agent/case_desk.py:490-509 | in every run the loop does not clear and submit that wake-up earlier than one second before that time, unless it had read the case before the call or another update sets or takes away the wake-up in between |
| DeskInbox.InboxConserves | demo_agent/case_desk.py:313-377 | the batches taken followed by what waits are the admitted events in order, less exactly those 24 later ones pushed out |
| DeskInbox.NothingLostIffNeverFull | demo_agent/case_desk.py:327-328 | no event is lost exactly when no more than 24 are admitted between two takes |
| DeskInbox.AdmittedTwice | demo_agent/case_desk.py:314-326 | an event id is admitted again only after 400 other ids |
| DeskWorker.Worker.ScheduleCase | demo_agent/case_desk.py:355-360 | starts a drain or sets the again flag |
| DeskWorker.Worker.EndDrain | demo_agent/case_desk.py:398-402 | releases the case and starts over if asked to |
| DeskWorkerTheorems.WorkIsSerialAndBounded | demo_agent/case_desk.py:355-402 | never two drains on one case, never more than the configured number past the semaphore |
| DeskWorkerTheorems.ForsakenIff | demo_agent/case_desk.py:340-402 | in every run events wait with nobody to take them exactly when the last caller of the case gave up with no drain that would take again, its drain died without being asked back and without a caller, or the process stopped, and no later event and no restart came to their help |
| DeskWorkerTheorems.NoLostWakeUp | demo_agent/case_desk.py:340-402 | without failures waiting events always have a caller about to schedule, a drain that takes again, or the again flag |
| DeskWorkerTheorems.QuietMeansDone | demo_agent/case_desk.py:380-402 | without failures, once every caller and drain is gone nothing waits and all surviving events were worked |
| DeskWorkerTheorems.EveryEventIsWorkedOnce | demo_agent/case_desk.py:366-396 | events worked, the batch in hand and the waiting ones are the surviving events in order, if and only if no drain or process died with a batch in hand; otherwise just those events are missing |
| DeskRestart.ResumedIffRowSaysSo | demo_agent/case_desk.py:550-559 | after a crash waiting events are worked again exactly if the stored index row says new or working |
| DeskRestart.ResumedIffNewOrWorking | demo_agent/case_desk.py:550-559 | that row tells the status of the case as long as nobody comes to the case, fails or stops between an update and its index write; then exactly new and working cases are resumed |
| DeskRestart.NewCaseIsNotResumed | demo_agent/case_desk.py:340-346 | a crash between the first event of a case and its index row: the case is new, its event waits, and no restart finds it |
| DeskRestart.EventOnWaitingCaseIsNotResumed | demo_agent/case_desk.py:340-346 | an event admitted to a waiting or resolved case just before a crash stays unworked, with or without its index write |
| DeskRestart.TakenCaseIsNotResumed | demo_agent/case_desk.py:381-389 | a crash between a take and its index row: the case is working, a newer event waits, and no restart finds it |
| DeskRestart.TakenCaseIsLeftBehind | demo_agent/case_desk.py:550-559 | a whole run in which that happens |
| DeskWorkerRuns.NextAttends | demo_agent/case_desk.py:340-402 | every step that is no failure keeps each waiting case attended |
| DeskWorkerRuns.NextShape | demo_agent/case_desk.py:355-402 | every step keeps the running set equal to the cases of live drains and the slots balanced |
| DeskTimer.UncoveredIff | demo_agent/case_desk.py:485-488 | in every run a stored wake-up has dropped out of the timer exactly when a restart found an index row that did not agree with the case, or its one index write failed, and nobody came back to the case since |
| DeskTimer.HeapRefinesWakeUps | demo_agent/case_desk.py:253-256 | otherwise, after completed updates, each stored wake-up of an open case has an equal heap entry, and a loop that oversleeps it by half a second may wake |
| DeskTimer.PromptRunsKeepWakeUps | demo_agent/case_desk.py:211-228 | nothing drops out as long as nobody comes to the case, fails or stops between an update of it and its index write |
| DeskTimer.StoppedBeforeTheIndex | demo_agent/case_desk.py:485-488 | a process that stops in between does drop it: after the restart the case is open and wants to be woken, and nobody will |
| DeskTimer.WakeUpIsForgotten | demo_agent/case_desk.py:485-488 | a whole run in which that happens |
| DeskTimer.FiresOnlyWhatIsDue | demo_agent/case_desk.py:495-509 | whatever timer event the loop is about to submit, its time has come, an earlier step cleared it, and a step before that read the case open and due within a second of it |
| DeskTimer.FireReachesTheCase | demo_agent/case_desk.py:508-509 | the timer event reaches the case unless it was closed or the same second was admitted before |
| DeskTimer.LossIff | demo_agent/case_desk.py:497-507 | whatever others do between the read and the clear, the clear drops a newer wake-up exactly when the last update in between left the case open with one more than a second off |
| DeskTimer.RacingWakeIsLost | demo_agent/case_desk.py:504-507 | and then the open case ends without any wake-up |
| DeskTimer.WakeUpIsCleared | demo_agent/case_desk.py:497-507 | a whole run in which that happens |
| DeskTimer.StoppedBeforeTheEvent | demo_agent/case_desk.py:507-509 | a process that stops between the clear and the event drops the wake-up for good, until somebody else updates the case |
| DocText.LocatedIffUnique | demo_agent/doc_edit.py:547-555 | a phrase is located exactly when the quoted or squeezed phrase occurs once, overlaps included |
| DocSections.BlocksAreTheParagraphs | demo_agent/doc_edit.py:471-475 | the text is split at its blank lines in the one way that puts no separator off, and the paragraphs are the parts that are not blank, in order, without line ends at their ends |
| DocSections.SectionsSplit | demo_agent/doc_edit.py:473-473 | the sections with the separators between them are the text, and no section contains one or lets one start in it |
| DocSections.SplitIsSections | demo_agent/doc_edit.py:473-473 | and no other split does that |
| DocSections.CleanText | demo_agent/doc_edit.py:399-400 | cleaning turns each line end into one newline, drops what XML may not hold and keeps all else |
| DocSections.SqueezeIsWords | demo_agent/doc_edit.py:547-555 | squeezing leaves the words of a phrase with one blank between them |
| DocLook.ReadsPieceByPiece | demo_agent/doc_edit.py:209-222 | a paragraph reads piece by piece; what is deleted, moved away or in a text box is not read |
| DocLook.PhraseIsFoundIff | demo_agent/doc_edit.py:543-555 | a phrase is found exactly where its only occurrence is, as quoted if it occurs so at all and else by its words |
| DocLook.ResolveIff | demo_agent/doc_edit.py:608-620 | a reference names the paragraph at its place or the only one with its identifier |
| DocLook.LooksLikeTheFirstText | demo_agent/doc_edit.py:410-425 | new text looks like the first run shown that holds text and is no link and no comment mark |
| DocLook.LooksLikeBodyText | demo_agent/doc_edit.py:463-468 | behind a heading new paragraphs look like the next body text |
| DocLook.LayoutWithoutBreaks | demo_agent/doc_edit.py:484-490 | and take over its layout without section break and tracked change |
| DocLook.AdditionReads | demo_agent/doc_edit.py:599-605 | an accepted addition reads as the paragraph, a blank exactly where one is needed, and the text |
| DocRuns.NewRunsAreStyled | demo_agent/doc_edit.py:439-456 | new runs are, character by character, one scan that toggles bold at each pair of stars |
| DocRuns.NewRunsText | demo_agent/doc_edit.py:439-456 | their text is the cleaned text without bold marks |
| DocRuns.CellsGiveText | demo_agent/doc_edit.py:221-222 | paragraphs equal character by character read alike |
| DocRuns.MakeRuns | demo_agent/doc_edit.py:439-456 | the loops give exactly these runs |
| DocTree.VisibleIsAccepted | demo_agent/doc_edit.py:221-222 | the text the editor reads is the text left by accepting |
| DocPhraseSpec.PhraseRunsSpec | demo_agent/doc_edit.py:543-569 | fails exactly when the phrase is absent, repeated or cuts a run that is not plain; otherwise the chosen runs hold the phrase and no character changes |
| DocPhraseSpec.CutIff | demo_agent/doc_edit.py:522-569 | splitting succeeds exactly when neither end falls inside a run that is not plain text |
| DocPhrase.CutKeepsCells | demo_agent/doc_edit.py:529-541 | splitting changes no character and no formatting |
| DocReplace.ReplaceRejected | demo_agent/doc_edit.py:572-596 | rejecting a replacement gives the paragraph back, character by character |
| DocAccept.ReplaceAccepted | demo_agent/doc_edit.py:572-596 | accepting it, wherever it succeeds and with or without a phrase: exactly the characters of the phrase are gone, the new text without bold marks stands right behind it or behind the link it ends in, all else stays |
| DocAccept.PlainExchange | demo_agent/doc_edit.py:572-596 | in a paragraph whose text stands in its own runs that is prefix, new text, suffix |
| DocReplace.ReplaceAllRefused | demo_agent/doc_edit.py:573-581 | and it is refused exactly for tracked, complex or empty paragraphs |
| DocReplace.AppendSettles | demo_agent/doc_edit.py:599-605 | rejecting an addition removes it; accepting adds the text after a space where needed |
| DocBody.FreshIff | demo_agent/doc_edit.py:378-388 | minted ids are new exactly when no id of ten or more digits lies among them |
| DocBody.ShownRefsResolve | demo_agent/doc_edit.py:608-620 | a reference shown to the reader resolves to its paragraph |
| DocBody.CreatedShape | demo_agent/doc_edit.py:471-503 | each block becomes one paragraph with inserted mark and content |
| DocGroups.EditRefines | demo_agent/doc_edit.py:731-748 | the flat body with its table of last insertions does what the simple grouped form does |
| DocTheorems.CallRefinesGroups | demo_agent/doc_edit.py:709-755 | the same for a whole call, refusals included |
| DocTheorems.RejectingGivesTheDocumentBack | demo_agent/doc_edit.py:709-755 | rejecting exactly the minted revisions of a call gives every original paragraph back, in order |
| DocTheorems.GivenBackIff | demo_agent/doc_edit.py:378-388 | and if and only if no revision inside a paragraph has an id that the call mints, and no inserted paragraph mark has one, except on a last paragraph with content, which cannot be taken out |
| DocTheorems.LongIdsCollide | demo_agent/doc_edit.py:378-388 | which does happen: a call mints the id of a foreign insertion, and rejecting the call removes that insertion |
| DocRefusals.ReplaceRefusedIff | demo_agent/doc_edit.py:543-581 | a replacement is refused exactly if the paragraph holds tracked changes or fields, or the phrase is not there once at plain ends |
| DocRefusals.CallSucceedsIff | demo_agent/doc_edit.py:709-755 | exactly which calls succeed, told from the request and the document as it was read |
| DocReading.InsertionsStandInRequestOrder | demo_agent/doc_edit.py:731-748 | each original paragraph keeps its identity, mark and layout, reads as its edits ask, and is followed by exactly its requested blocks in request order; untouched paragraphs are identical |
| DocReading.AcceptingGivesWhatWasAsked | demo_agent/doc_edit.py:709-755 | accepting the revisions of a whole call: the document reads, paragraph by paragraph, as the fold of its edits, and no revision of the call is left |
| DocEditor.CutAll | demo_agent/doc_edit.py:556-569 | the loop that splits and collects runs |
| DocEditor.Paragraph.Pick | demo_agent/doc_edit.py:543-569 | finding and choosing in place, with its three failures |
| DocEditor.Paragraph.StrikePicked | demo_agent/doc_edit.py:583-589 | wraps the chosen runs in order with consecutive ids |
| DocEditor.Paragraph.ReplaceWith | demo_agent/doc_edit.py:572-596 | the replacement in place, with every refusal |
| DocEditor.Paragraph.Add | demo_agent/doc_edit.py:599-605 | the addition in place |
| DocEditor.Editor.InsertBlocks | demo_agent/doc_edit.py:737-741 | insertion behind the last one of the anchor |
| DocEditor.Editor.Apply | demo_agent/doc_edit.py:733-748 | the loop over the edits; the first failure ends the call |
| ChatTrim.TrimSpec | demo_agent/conversation.py:374-380 | running records stay, the newest others that fit stay, and the limit holds exactly when no more than 20 run |
| ChatTrim.TrimTasks | demo_agent/conversation.py:374-380 | the deleting loop does exactly that |
| ChatRuns.ForgettingIsFinalIff | demo_agent/conversation.py:691-704 | nothing from before a forgetting ever comes back, whatever follows, if and only if no swap left behind by a cancelled call is still valid at its end and holds something older |
| ChatRuns.ForgettingThatWritesIsSafe | demo_agent/conversation.py:695-700 | so a forgetting that changes the document is always final |
| ChatRuns.LeftoverComesBack | demo_agent/conversation.py:569-580 | while a forgetting that finds the chat empty can be followed by a message from before it |
| ChatRuns.CommitLeavesNoSwapValid | demo_agent/conversation.py:687-688 | any write of the turn, such as its receipt, protects it |
| ChatResults.AnnouncedResultsAreSaved | demo_agent/conversation.py:931-945 | a result is announced only while the saved record holds it with a final status and no swap can change it |
| ChatHistory.AdmissionIsBounded | demo_agent/conversation.py:811-834 | admitted jobs never exceed the limit in any interleaving |
| ChatBounds.AdmittedHistoryIsBounded | demo_agent/conversation.py:842-850 | in every run an admission drops no running record and of the others exactly the oldest, and the history stays within 20 records if and only if fewer than 20 were running |
| ChatUpdates.EveryWriteIsAnUpdate | demo_agent/conversation.py:569-592 | in every run, whatever swaps cancelled turns leave behind, a step changes the document only as one whole update of the document as it stands |
| ChatUpdates.RemovedChatStaysSilent | demo_agent/conversation.py:555-592 | so a chat that was left takes no message, summary, record or result until a welcome, and no receipt is ever lost |
| ChatUpdates.ClosedChatTakesNothing | demo_agent/conversation.py:526-580 | which updates a closed chat refuses, and which one opens it |
| ChatUpdates.OpensAndCloses | demo_agent/conversation.py:555-567 | a welcome opens the chat even after a removal, and an activation does where there was none |
| ChatUpdates.InterruptionsBreakOff | demo_agent/conversation.py:970-984 | a removal, an interruption and a recovery break off exactly the records they are about and leave ended ones as they are |
| ChatUpdates.MessagesAreKept | demo_agent/conversation.py:569-617 | a message stands last behind the latest fifteen, and a new summary leaves them alone |
| ChatUpdates.ReadyJobIsAnnounced | demo_agent/conversation.py:884-948 | a job that nothing disturbs runs, saves its result and announces it |
| ChatDeliveries.RecordsTellTheTruth | demo_agent/conversation.py:931-961 | in every run a record ends only with what its runner returned, and is marked sent or not only as an announcement of its saved result ended |
| ChatDeliveries.AnnouncementsAreResults | demo_agent/conversation.py:931-948 | in every run whatever is announced is what a runner returned for that task |
| ChatDeliveries.DeliveryIsRecorded | demo_agent/conversation.py:950-958 | recording a delivery marks that record only; a notice sent becomes the latest message |
| ChatAdmission.OverfullNeedsUnbacked | demo_agent/conversation.py:374-380 | running records are at most the other admitted jobs and the records without a job, so the limit breaks only if one without a job is left |
| ChatAdmission.UndisturbedTurnIsBounded | demo_agent/conversation.py:534-551 | none is left in a turn during which no swap left behind lands and no cancelled job leaves |
| ChatAdmission.TwentyOneRunning | demo_agent/conversation.py:842-850 | otherwise it does break: a whole run that ends with 21 running records in a history of 20 |
| ChatDocument.State.PersistRecord | demo_agent/conversation.py:842-847 | adds the record and trims in place |
| ChatDocument.State.FinishRecord | demo_agent/conversation.py:931-938 | saves the result of a valid job only |
| ChatDocument.State.RecoverRecords | demo_agent/conversation.py:534-551 | breaks off every orphaned record |
| ChatDocument.State.InterruptRecords | demo_agent/conversation.py:973-984 | breaks off the records named, or all on removal |
| ChatDocument.State.AppendEntry | demo_agent/conversation.py:575-580 | appends within the bound while live and active |
| ChatDocument.State.ForgetAll | demo_agent/conversation.py:695-698 | empties summary, messages and tasks |
| KeyCache.FetchesAreRare | demo_agent/control_auth.py:277-306 | at most two fetches that are not cancelled start in less than 60 seconds, under any calls and failures |
| KeyCache.CancelledFetchesAreUnbounded | demo_agent/control_auth.py:293-301 | cancelled fetches hold nothing back: any number can start at one instant |
| KeyCache.AllFetchesAreBounded | demo_agent/control_auth.py:277-306 | all fetches of such a time together are at most two more than the cancelled ones |
| KeyCache.DecidedByHistory | demo_agent/control_auth.py:277-306 | in every run, what a call gets follows from what happened: keys for an hour, refusal for a minute after a failure, else a fetch; a forced one at most once a minute |
| KeyCache.ServedKeysWereBrought | demo_agent/control_auth.py:301-306 | in every run the keys in the cache are those of the last successful fetch |
| KeyCache.ServedKeysAreRecent | demo_agent/control_auth.py:281-288 | keys are served only in the 3600 seconds after they were stored |
| KeyCache.Validator.GetKeys | demo_agent/control_auth.py:277-306 | serve, refuse or fetch, and what each leaves in the fields |
| KeyCache.Validator.Validate | demo_agent/control_auth.py:361-401 | a token is accepted exactly if one of the key sets this validation got verifies it, and denied exactly if the cache raised, a key set shows it invalid or the last one does not settle it; the one retry is made exactly if the first does not settle it and nobody replaced the keys; one validation starts at most one fetch |
| HeldReplies.SeventhBatchIsRefused | demo_agent/case_work.py:532-541 | changes are refused exactly if six batches wait; else they stand last and a reply replaces the one before |
| HeldReplies.ReplyIsKept | demo_agent/case_work.py:536-541 | in every run a queued reply is still held or went out with a recorded save, unless another was queued or the save was dropped |
| HeldReplies.PromiseIsKept | demo_agent/case_work.py:541-541 | the promise to tell the requester stays as long as a save is held |
| HeldReplies.GivesUpIff | demo_agent/case_work.py:563-614 | in every run a save is given up exactly when it waited too long, the document refused it, or the fifth upload in a row did not reach the service |
| HeldSaves.HeldEditsAreConserved | demo_agent/case_work.py:529-624 | written batches followed by those still held are the batches queued, in order and once, if and only if no saver died between an upload of batches and its record since the last drop; otherwise just those batches come on top |
| HeldSaves.OnlyThatDeathRepeats | demo_agent/case_work.py:596-624 | deaths and crashes at any other point repeat nothing |
| HeldSaves.DeathAfterUploadWritesTwice | demo_agent/case_work.py:556-610 | while after such a death the same batches are written again, by a restart whose row says held or by the saver of the next caller |
| HeldSaves.AbandonedIff | demo_agent/case_work.py:549-624 | in every run a held save has no caller and no saver that will look again exactly when some step left it so and since then nothing was queued and no restart read an index row that says held |
| HeldSaves.StrandedIff | demo_agent/case_work.py:549-581 | without deaths and failures the one such step is the last caller meeting a saver that has decided to return |
| HeldSaves.EveryHeldSaveHasASaver | demo_agent/case_work.py:549-554 | so a run without that step never leaves a held save alone |
| HeldSaves.QueuedDuringADropIsStranded | demo_agent/case_work.py:644-656 | which does happen to changes queued while a drop is being announced |
| HeldSaves.CaseFile.HoldBack | demo_agent/case_work.py:529-541 | queues in place, refusing a seventh batch |
| HeldSaves.CaseFile.RecordSaved | demo_agent/case_work.py:615-622 | keeps what was queued while the save was in flight |
| HeldRestart.ResumedIffRowSaysSo | demo_agent/case_work.py:556-561 | after a crash a held save is taken up again exactly when the restart looks at the row of the case and the row says held |
| HeldRestart.PromptRunsResume | demo_agent/case_desk.py:224-253 | the row says so as long as nobody comes to the case, fails or stops between an update and its index write; then every held save is taken up again |
| HeldRestart.StoppedBeforeTheIndex | demo_agent/case_work.py:529-549 | a whole run each: a process that stops, or a caller that is cancelled, between queueing and the index write leaves a held save that a restart misses |
| HeldRestart.LateRowHidesTheSave | demo_agent/case_desk.py:230-253 | a whole run without failures: a late index write of an older look at the case hides a held save from the next restart |

## Left out

- Transports and services behind the backends (HTTP, Graph, Teams, Salesforce, Copilot): each call is an arbitrary outcome.
- Planner, summarizer, investigator and reply reading: arbitrary values; the theorems hold for all of them.
- Redaction and compaction of texts: arbitrary strings, length bounds kept where a check depends on them.
- Compression, JSON bytes, SQLite and Azure: a versioned row with compare-and-swap; size limits are one abstract failure.
- Store-wide deletion (`clear_all`), which restarts versions: the store theorems are about documents that are not deleted.
- Numbers that compare unequal to themselves and signed zero in stored JSON.
- Compliance: expiry of the index document, rebinding to another directory, the event sink and the wording of messages.
- Case desk: finding a case through its aliases, sweeps, token and run bookkeeping, expiry of case documents. The index drops rows of closed cases beyond its limit; no event restart or wake-up depends on those, and for held saves `Prune` is that step.
- ComplianceTheorems.NoReplyIsLost: excludes the failed records check, for which FailedCheckStrands gives the exact condition.
- DeskTimer.FiresOnlyWhatIsDue: a store failure inside the timer loop, which ends the loop until the next restart.
- ChatRuns.ForgettingIsFinalIff: one process serves a chat; a second process would have its own lock and generation.
- Conversation service shutdown (`close`), which stops every chat the way a removal stops one.
- HeldSaves.HeldEditsAreConserved: uploads have a definite outcome; a reply queued over another replaces it, and equal reply texts are not told apart, as in the code.
- Held saves: the document binding and the function of a case stay as they are; a saver that finds them changed or the case gone returns early in the code.
- DocReading.AcceptingGivesWhatWasAsked: is about the text; the look of new runs is in NewRunsAreStyled.
- Document packaging, comments and their replies, paragraph ids of new paragraphs, author and date of revisions.
- Whether a style name is a heading is a field of the layout; the name pattern itself is not part of this model.
- Key cache: token decoding and key parsing are arbitrary outcomes; times are exact reals.
- Administrative pages, analytics, value catalog and packaging scripts: they hold no protocol state.

# A verified model of the chat server's calls, sending, paging and housekeeping

These Dafny files model the parts of the messaging application whose correctness depends on more
than one function: the live-call protocol of the socket server, exactly-once sending, the browser's
message merge and call session, keyset paging, the rate limiters, search escaping, the opening of
direct conversations and the account anonymizer. `dafny verify dfyconfig.toml` checks everything.

Imperative code is modelled twice: by a class whose methods change its fields in place and promise
that the object's `View()` is a function of the old one, and by that function, about which the
results are proved. Protocols are state machines over steps: a run is any sequence of steps, each
enabled where it is taken, so the results hold for every interleaving.

**Live calls** (`CallModel`, `CallSegments`, `CallProtocol` and the proofs on them; `ActiveCalls`,
`CallControllers`). Every handler is cut at its awaits into atomic segments. A database batch is one
transaction that lands or fails later, in any order, and only if the call row its inserts refer to
exists; the handler goes on after that. Nothing ties a join to a ring, so a join may run while the
call's own insert is still in flight. A log records which calls four events hit: a rollback of a
failed join that strands a group, one that leaves a ring without its timer, a terminal stamp that
failed though no foreign key stopped it, and the stuck-ring sweeper. Each result excuses at most the
calls of the event it names.

In four places the code does less than it says; each has a run that shows it, and its exact
condition for all runs. The rollback of a failed join may leave a group call without anybody in it:
`RollbackKeepsGroupShapeExactly` says when it does not. A rollback may put a call back to ringing
after its ring timer has come and gone, though the comment at `active-calls.js:262-263` says nothing
legitimate rings past it: a ringing call is timed exactly when no rollback of that kind hit it
(`RingingCallIsTimedExactly`), and one such rollback keeps the timer exactly if the call was timed
before (`RollbackKeepsTimerExactly`). And the sweeper stamps no participant:
`SweepLeavesOpenExactly` says whose `left_at` stays open. That is one case of a ledger kept for
every row of a call and of each of its participants: when all is over a row is open exactly when
some step of the run, a failing batch or the sweeper, took the last thing that would have closed it
(`QuiescentRowIsOpenExactly`).

`CallEffects` tells what every action does by who is in the call and who is still rung: when it ends
and with which verdict, who is out, who is free, and what was sent. `CallTalk` dates the talk time
of every finalizer and bubble from the join that answered the call. `CallTables` sets the tables
against memory: a finished call's row has its bubble's verdict (`RowHasTheVerdict`), but that an
invite whose handler comes back to a call already joined and over stamps MISSED on it, the fourth of
those places: the row always says what the last stamp to land said (`RowIsTheLastStamp`).

**Sending** (`SendModel`, `SendProofs`, `SendResults`). Requests, acks and broadcasts may be delayed
or lost, batches may fail or commit without their answer coming back, handlers may die. One lemma
gives a run where the comment at `send.js:152-153` is wrong: after a lost commit answer the retry is
acked as a duplicate although the room never got the message and never will. `AnnouncedExactly` says
when a stored message has been announced. An entry that leaves its outbox undiscarded has a stored
row, or was taken out by another user's message with the same client id (`VanishedEntryIsStored`).

**Merging and paging** (`Strings`, `LiveStore`, `LiveMerge`, `LiveServer`, `Paging`, `Backfill`).
The merge result depends only on the set of ids held, whichever copies arrived, as long as copies
agree once the marks are applied; and with the last edit and the delete heard it shows each message
as the server has it. A tombstone is shown empty as long as the database clock runs forward over the
edits of its message; two racing edits stamped backwards break that (`BackwardEditFillsTombstone`).
Cursors print milliseconds while the database stores microseconds
(`db/schema/chat/message.js:107-109`), so a walk over pages can skip rows; `WalkIsCompleteExactly`
says, for each page size, for which tables it does not, and `SubMillisecondRowIsSkipped` gives one
for which it does.

**The browser's call session** (`ClientCall`, `ClientSession`, `ClientCallProofs`,
`ClientCallResults`). All entry points, including the continuations of every await, with what each
does to tiles, windows and connections; and from any rest a call gets through, on either side. At
rest the session holds no peer, timer or stored stream. One lemma shows a run that contradicts the
comment at `session.ts:169`, after which no camera may stay on: redialling while the first
permission prompt is up stores one stream over another, which is then never stopped;
`StreamIsOverwrittenExactly` says which steps do that.

**Rate limits** (`RateLimit`), **search patterns** (`LikePattern`, after section 9.7.1 of the
PostgreSQL manual), **direct conversations** (`DirectKeys`, `DirectMessages`, `DirectResults`) and
**the anonymizer** (`Anonymizer`, with crashes and cancellations at any statement) are smaller. The
limiter's comment allows twice the maximum across a window boundary; the bound proved, and met, is
one less. The comment at `direct-key.ts:10` says user ids are UUIDs while
`controllers/call/shared.js:6-7` says they are base62; the results need only that they contain no
`:`.

## Model

| member | source | states |
|---|---|---|
| CallResults.QuiescentRowIsOpenExactly | server/src/controllers/call/join.js:57-93 | once a call has left memory and none of its handlers is in flight, its row or a participant's is open exactly when some step of the run took the last batch or continuation that would have stamped it, for every interleaving |
| CallResults.LostExactly | server/src/controllers/call/end-call.js:15-51 | at any point of a run a row is open with nothing under way to close it exactly when some step lost it: a batch failing as the last that would have, or the sweeper |
| CallDebts.StepLosesExactly | server/src/controllers/call/end-call.js:15-51 | the steps that lose a row, and that none ever regains one |
| CallResults.QuiescentCallIsSettled | server/src/controllers/call/join.js:57-93 | so without a sweep and without a failed stamp its row is absent or terminal and everybody who joined has left |
| CallResults.SweepLeavesOpenExactly | server/src/services/active-calls.js:267-279 | a swept call none of whose batches fails later ends with exactly those participants open who were open at the sweep with no insert, join or leave under way that stamps them |
| CallResults.SweptRowStaysOpen | server/src/services/active-calls.js:267-279 | those stay open at every later point of every run |
| CallResults.RingingCallIsTimedExactly | server/src/services/active-calls.js:262-271 | a ringing call has its timer armed or its invite still to arm it, exactly when no rollback put it back to ringing after the timer had gone |
| CallResults.RollbackKeepsTimerExactly | server/src/controllers/call/join.js:75-81 | the rollback of a failed first answer leaves a ringing call timed exactly if it was timed before |
| CallRings.StepKeepsRing | server/src/controllers/call/invite.js:141-157 | every step keeps that |
| CallSteps.OrdinarySteps | server/src/controllers/call/controls.js:20-88 | no step but an invite, a batch answer, a continuation or a sweep brings a call to life, starts a ring or arms its timer; it sends batches of live calls only, and a call it ends gets its finalizer |
| CallSteps.SettledSteps | server/src/controllers/call/end-call.js:15-51 | of those all but a join keep status, answer time, conversation and kind of every call, and send of a call they end a finalizer that says what is true of it |
| CallResults.MapsAgree | server/src/services/active-calls.js:19-53 | in every reachable state a user is busy in c exactly when joined in c, `calls` and `byConversation` are mutually inverse, and at most four are joined |
| CallResults.OneCallEach | server/src/controllers/call/join.js:41-53 | nobody is joined in two calls and no conversation has two live ones |
| CallResults.DirectCallShape | server/src/controllers/call/join.js:73-81 | a live DIRECT call rings with its starter alone or is ongoing with both members, failed joins included |
| CallResults.GroupCallShape | server/src/controllers/call/controls.js:48-82 | a live GROUP call that no rollback stranded has somebody in it and, while ringing, only its starter and somebody still able to answer |
| CallShape.RollbackKeepsGroupShapeExactly | server/src/controllers/call/join.js:75-81 | the exact condition under which the rollback of a failed join leaves a GROUP call in that shape |
| CallResults.VerdictsFit | server/src/controllers/call/end-call.js:15-51 | a finalizer says ENDED, with a talk time, exactly for an answered call, and REJECTED only in a DM |
| CallResults.OneFinalizerOneBubble | server/src/services/active-calls.js:231-240 | whatever terminal paths race, a call gets at most one finalizer batch and at most one bubble |
| CallResults.TerminalSlotWillBeFreed | server/src/controllers/call/end-call.js:16-74 | a record marked terminal still has its own finalizer to go on |
| CallResults.FinalizerFreesSlot | server/src/controllers/call/end-call.js:67-74 | when the finalizer goes on, committed or failed, no map entry and no armed timer names the call any more |
| CallResults.NothingNamesIt | server/src/services/active-calls.js:242-260 | a call out of memory is in no map and has no armed timer |
| CallResults.TerminalRowStays | server/src/controllers/call/join.js:66-72 | no step takes a call row out of a terminal status |
| CallResults.TerminalForever | server/src/controllers/call/join.js:66-72 | once terminal a row is terminal at every later point of the run |
| CallTalk.EveryFinalizerCountsTheTalk | server/src/controllers/call/end-call.js:18-23 | over every run a finalizer says ENDED exactly when it carries a time, and that is the seconds, to the nearest, from the last join that took the call from ringing to ongoing to the step that sent it |
| CallTalk.TalkIsCountedFromTheAnswer | server/src/controllers/call/end-call.js:18-23 | the same of the step that sends it: not from the ring, not from an answer rolled back |
| CallTalk.BubblesTellTheTalk | server/src/controllers/call/end-call.js:38-50 | so does every history bubble, and no other bubble tells a time |
| CallTalk.AnsweredByTheLast | server/src/services/active-calls.js:105-146 | an ongoing call dates its answer from that join |
| CallTables.LiveRowTellsTheStatus | server/src/controllers/call/join.js:66-81 | the row of a live call has memory's status, but that it still rings while the join that answered it is in flight |
| CallTables.RowHasTheVerdict | server/src/controllers/call/end-call.js:24-28 | the row of a call with a bubble is ended with the bubble's verdict, or MISSED by an invite that came back to a call already over |
| CallTables.RowIsTheLastStamp | server/src/controllers/call/invite.js:128-139 | in every run a row is terminal exactly when a stamp has landed on it, and says what the last to land said |
| CallTables.JoinTimeIsTheFirst | server/src/controllers/call/join.js:55-64 | `joined_at` is the time the first insert or join of that user landed |
| CallTables.JoinTimesStay | server/src/controllers/call/join.js:55-64 | and no later step of any run changes it |
| CallTables.LeftTimeIsTheStamps | server/src/controllers/call/controls.js:84-88 | `left_at` is the time a stamp that reaches the row landed, and only a join that lands takes it back |
| CallTables.StepKeepsTables | server/src/controllers/call/join.js:66-72 | every step keeps the rows in line with memory and bubbles |
| CallEffects.CancelEnds | server/src/controllers/call/controls.js:22-28 | a cancel by the starter of a ringing call ends it as MISSED with one batch, its finalizer; any other changes nothing |
| CallEffects.RejectDeclines | server/src/controllers/call/controls.js:42-59 | a declined DM ends as REJECTED; a declined group ends as MISSED exactly when it rings and nobody else is left to answer, and otherwise only loses that ring; anybody not rung changes nothing |
| CallEffects.LeaveDeparts | server/src/controllers/call/controls.js:73-88 | a leave ends a DM, and a group when its last is gone, as MISSED or ENDED by whether it was answered; otherwise it stamps the leaver, who alone is out and free |
| CallEffects.KickTakesOut | server/src/controllers/call/kick.js:14-51 | all users removed are out and rung no more, in whatever order named; the call ends exactly when that took the last one in it or the last one it rang, and stamps exactly those who were in it otherwise |
| CallEffects.RingTimeoutMisses | server/src/controllers/call/invite.js:141-157 | a ring timer ends a call still ringing as MISSED and moves nobody otherwise |
| CallEffects.GraceTimeoutDeparts | server/src/controllers/call/disconnect.js:12-39 | a grace that runs out leaves for a user still offline and moves nobody otherwise |
| CallEffects.DisconnectLoses | server/src/controllers/call/disconnect.js:45-80 | what the loss of a socket does to every call: nothing unless it was the last; then a ring of the user's own ends as MISSED, a call they are in gives them a grace, a DM ringing them ends, and a group loses the ring, ending if it was its last |
| CallEffects.ConnectClearsGraces | server/src/controllers/call/index.js:13-24 | a new socket leaves exactly the timers that are no grace of that user |
| CallEffects.SweepTakesTheStuck | server/src/services/active-calls.js:262-279 | the sweeper takes exactly calls ringing for more than two minutes, freeing slot and users |
| CallEffects.JoinSeats | server/src/controllers/call/join.js:39-74 | a join that may sit down is in the call, rung no more, busy, without grace, and answers a ringing call; any other changes nothing |
| CallEffects.JoinIsAnswered | server/src/controllers/call/join.js:24-53 | which of its answers a join gets, each with its reason |
| CallEffects.InviteStarts | server/src/controllers/call/invite.js:67-118 | an invite that may start a call rings exactly the others online, its starter alone in it; any other changes nothing |
| CallEffects.InviteIsAnswered | server/src/controllers/call/invite.js:67-108 | which of its answers an invite gets, in the order of the checks |
| CallResults.RungUserIsConnected | server/src/controllers/call/invite.js:86-108 | whoever is rung and pending in a live call has a connected socket |
| CallResults.ListenerOrderMatters | server/src/socket/connection.js:17-50 | with presence removed first, a user with another tab would lose a DM ring; in the order registered nothing changes |
| CallResults.TimersGuard | server/src/services/active-calls.js:190-229 | an armed grace timer belongs to a joined user of a call in memory, an armed ring timer to such a call, one of each |
| CallResults.NoCallsNoTimers | server/src/services/active-calls.js:242-260 | with no call in memory no timer is armed and both maps are empty |
| CallTheorems.StepKeepsInv | server/src/services/active-calls.js:10-17 | every segment, batch answer, continuation and timer keeps the invariant of memory, presence, batches and tables |
| CallTheorems.RunKeepsInv | server/src/services/active-calls.js:10-17 | so does every run |
| CallMemory.CreateKeeps | server/src/services/active-calls.js:29-53 | a reservation keeps the maps mutually consistent and at most four joined |
| CallMemory.MarkJoinedKeeps | server/src/services/active-calls.js:105-133 | a join under the handler's checks keeps them |
| CallMemory.MarkLeftKeeps | server/src/services/active-calls.js:165-178 | a leave keeps them |
| CallMemory.RevertOngoingKeeps | server/src/services/active-calls.js:140-146 | the rollback of the first answer keeps them |
| CallMemory.MarkRejectedKeeps | server/src/services/active-calls.js:148-154 | a rejection keeps them |
| CallMemory.MarkRungGoneKeeps | server/src/services/active-calls.js:157-163 | a lost ring keeps them |
| CallMemory.BeginTerminalKeeps | server/src/services/active-calls.js:235-240 | the terminal mark keeps them |
| CallMemory.RemoveKeeps | server/src/services/active-calls.js:244-260 | a removal keeps them |
| CallMemory.HandlesAreItsTimers | server/src/services/active-calls.js:247-255 | the handles a record holds are exactly its armed timers, so clearing them leaves none |
| CallMemory.ClearUserGraceTimersKeeps | server/src/services/active-calls.js:221-229 | a new socket's clearing of graces keeps them |
| CallMemory.RingFiresTimers | server/src/controllers/call/invite.js:142-143 | a ring timer that fires is forgotten by its record |
| CallMemory.GraceFiresTimers | server/src/controllers/call/disconnect.js:13-14 | a grace timer that fires is forgotten by its participant |
| CallMemory.ArmRingTimers | server/src/controllers/call/invite.js:155-157 | arming the ring timer of a call without one keeps timers and handles in step |
| CallMemory.ArmGraceTimers | server/src/controllers/call/disconnect.js:37-39 | arming a joined user's grace timer replaces any earlier one |
| CallShape.JoinKeepsShape | server/src/controllers/call/join.js:41-93 | a join keeps the shapes of all live calls |
| CallShape.RejectKeepsShape | server/src/controllers/call/controls.js:43-59 | a reject keeps them or finalizes |
| CallShape.DepartKeepsShape | server/src/controllers/call/controls.js:78-88 | a leave keeps them or finalizes |
| CallTheorems.GraceExpiresKeepsNode | server/src/controllers/call/disconnect.js:13-31 | an expired grace keeps the invariant, leaving for the user only if still offline and joined |
| CallShape.RingExpiresKeepsShape | server/src/controllers/call/invite.js:142-155 | an expired ring keeps them or finalizes |
| CallShape.LoseOwnCallKeepsShape | server/src/controllers/call/disconnect.js:52-63 | losing the last socket while joined keeps them |
| CallShape.LoseRingKeepsShape | server/src/controllers/call/disconnect.js:67-76 | losing the last socket while rung keeps them |
| CallShape.LoseRingsWalk | server/src/controllers/call/disconnect.js:67-76 | walking the listing of rings leaves no ring of that user pending and keeps the shapes |
| CallShape.KickKeepsShape | server/src/controllers/call/kick.js:14-51 | removing any users in one loop keeps them or finalizes |
| CallShape.RollbackKeepsShape | server/src/controllers/call/join.js:75-81 | a rolled-back join keeps DIRECT shapes, and GROUP shapes of all calls it does not strand |
| CallTheorems.GoOnKeepsNode | server/src/controllers/call/join.js:73-93 | every continuation keeps the invariant, the calls it strands excepted |
| CallBooks.EndCallKeepsBooks | server/src/controllers/call/end-call.js:15-51 | what the tables still owe a finished call is owed by a batch that has yet to land |
| CallBooks.CommitKeepsBooks | server/src/controllers/call/end-call.js:24-51 | a landing batch settles what it owed and opens nothing unowed |
| CallBooks.FailKeepsBooks | server/src/controllers/call/invite.js:119-139 | a batch that fails on its foreign key owed nothing that exists |
| CallBooks.RestampKeepsBooks | server/src/controllers/call/join.js:83-93 | a join that landed late on a finished call restamps the participant it reopened |
| CallBooks.GoOnKeepsBooks | server/src/controllers/call/invite.js:124-139 | every continuation leaves each open row owed by somebody |
| CallBooks.StepKeepsBooks | server/src/controllers/call/end-call.js:24-51 | every step keeps these books |
| CallTheorems.DisconnectKeepsOnline | server/src/controllers/call/disconnect.js:48-76 | after a disconnect every user still rung has a socket |
| CallTheorems.InviteKeepsNode | server/src/controllers/call/invite.js:77-108 | an invite rings only connected users and keeps the invariant |
| CallCounterexamples.FailedJoinStrandsGroup | server/src/controllers/call/join.js:75-81 | a reachable live GROUP call that rings with nobody joined and nobody left to answer |
| CallCounterexamples.RollbackOutlivesRingTimer | server/src/services/active-calls.js:262-271 | a reachable call that rings with no timer armed and no handler left |
| CallCounterexamples.SweeperLeavesParticipantsOpen | server/src/services/active-calls.js:273-276 | a reachable finished call with a participant whose `left_at` is open |
| CallCounterexamples.LateInviteOverwritesVerdict | server/src/controllers/call/invite.js:124-139 | a reachable state with a bubble that says ENDED and a row that says MISSED |
| ActiveCallsService.ActiveCalls.Create | server/src/services/active-calls.js:29-53 | the record and both map entries, loop over the rung users included |
| ActiveCallsService.ActiveCalls.JoinedUserIds | server/src/services/active-calls.js:75-83 | lists exactly the joined users, each once |
| ActiveCallsService.ActiveCalls.RungPendingUserIds | server/src/services/active-calls.js:180-188 | lists exactly the rung and pending users, each once |
| ActiveCallsService.ActiveCalls.RingsFor | server/src/services/active-calls.js:95-103 | lists exactly the live calls in which the user is rung and pending |
| ActiveCallsService.ActiveCalls.MarkJoined | server/src/services/active-calls.js:105-133 | the new state and what the caller learns of it |
| ActiveCallsService.ActiveCalls.RevertOngoing | server/src/services/active-calls.js:140-146 | back to RINGING, unless terminal |
| ActiveCallsService.ActiveCalls.MarkRejected | server/src/services/active-calls.js:148-154 | the flag, and how many are still to answer |
| ActiveCallsService.ActiveCalls.MarkRungGone | server/src/services/active-calls.js:157-163 | the flag, and how many are still to answer |
| ActiveCallsService.ActiveCalls.MarkLeft | server/src/services/active-calls.js:165-178 | the entry left, its grace timer disarmed, and how many remain |
| ActiveCallsService.ActiveCalls.ClearUserGraceTimers | server/src/services/active-calls.js:221-229 | no grace timer of the user is left in any call |
| ActiveCallsService.ActiveCalls.BeginTerminal | server/src/services/active-calls.js:235-240 | only the first caller wins |
| ActiveCallsService.ActiveCalls.Remove | server/src/services/active-calls.js:244-260 | all timers of the call disarmed and all three maps freed of it |
| CallControllers.Presence.Add | server/src/services/presence.js:17-25 | whether this is the user's first socket |
| CallControllers.Presence.Remove | server/src/services/presence.js:28-37 | whether this was the last, and no empty set is kept |
| CallControllers.CallController.EndCall | server/src/controllers/call/end-call.js:15-51 | check-and-set, then the one batch |
| CallControllers.CallController.CallInvite | server/src/controllers/call/invite.js:67-118 | the answer in the order of the checks, and the reservation |
| CallControllers.CallController.JoinCall | server/src/controllers/call/join.js:39-74 | the re-checks, the reservation and the batch |
| CallControllers.CallController.CallCancel | server/src/controllers/call/controls.js:23-28 | only the starter of a ringing call |
| CallControllers.CallController.CallReject | server/src/controllers/call/controls.js:43-59 | a DM ends, a group only when nobody is left to answer |
| CallControllers.CallController.CallLeave | server/src/controllers/call/controls.js:74-88 | leave, or end without the user |
| CallControllers.CallController.RingTimeout | server/src/controllers/call/invite.js:142-155 | MISSED only while still ringing |
| CallControllers.CallController.GraceTimeout | server/src/controllers/call/disconnect.js:13-31 | re-checked before it leaves for the user |
| CallControllers.CallController.Connection | server/src/controllers/call/index.js:13-24 | graces cleared, then presence counted |
| CallControllers.CallController.Disconnecting | server/src/controllers/call/disconnect.js:48-80 | the last-socket matrix before presence is removed |
| CallControllers.CallController.KickFromConversationCall | server/src/controllers/call/kick.js:14-51 | the loop over the removed users, then one end or one stamp |
| CallControllers.CallController.GoesOn | server/src/controllers/call/join.js:73-93 | rollback, restamp, orphan stamp, ring timer, removal: what follows each batch |
| CallControllers.CallController.SweepOne | server/src/services/active-calls.js:267-279 | removes a stuck ring and stamps its row only |
| SendResults.StoredAndAnnouncedOnce | server/src/controllers/chat/send.js:112-170 | one sender and client id give at most one row and at most one `message:new` |
| SendResults.OkAcksAgree | server/src/controllers/chat/send.js:151-170 | all ok acks of one client message name the same stored row |
| SendResults.VanishedEntryIsStored | web/src/app/(app)/realtime-provider.tsx:569-634 | an entry gone from its outbox without a discard has a stored row, or another sender's announced row carries its client id |
| SendResults.OwnIdsLoseNothing | web/src/app/(app)/realtime-provider.tsx:569-634 | so it has a stored row if no two users share a client id |
| SendResults.EntriesShowTheirFate | web/src/app/(app)/realtime-provider.tsx:569-634 | what every step does to every outbox entry: a send makes it pending, a bad ack or a timeout failed if it is still there, an ok ack, its broadcast or a discard takes it out, and nothing else touches it |
| SendResults.PendingIsAwaited | web/src/app/(app)/realtime-provider.tsx:575-580 | nothing is pending for ever: a pending entry has a callback still to run |
| SendResults.EveryRowWasAdmitted | server/src/controllers/chat/send.js:80-149 | in every run a stored client message was sent in a tab of its sender by a request the server admitted |
| SendResults.SendGetsThrough | server/src/controllers/chat/send.js:98-170 | a new message that nothing interrupts is stored, announced and acked, and leaves the outbox |
| SendResults.RetryIsAcked | server/src/controllers/chat/send.js:151-163 | a message stored already is acked with its row, and neither stored nor announced again |
| SendResults.AnnouncedExactly | server/src/controllers/chat/send.js:165-170 | a stored message has been announced exactly when its inserting handler went on |
| SendResults.SilenceIsForever | server/src/controllers/chat/send.js:151-163 | a message whose inserting handler never went on is announced by no later step, retries included |
| SendResults.LostCommitAnswerSilencesMessage | server/src/controllers/chat/send.js:151-163 | a run in which a duplicate is acked ok although the room never received the message |
| SendResults.SharedClientIdLosesMessage | web/src/app/(app)/realtime-provider.tsx:430-432 | a run in which another user's broadcast takes an unsent entry out of the outbox |
| SendProofs.NextKeepsServerInv | server/src/controllers/chat/send.js:112-170 | every step keeps rows distinct, acks true, and every client message either announced, pending or silenced |
| SendProofs.NextKeepsAccounts | web/src/app/(app)/realtime-provider.tsx:189-196 | no step takes an entry out of an outbox without a discard, a stored row or another sender's broadcast of its client id |
| SendModel.Original | db/schema/chat/message.js:125-130 | what the unique index finds, and that it finds nothing only when there is nothing |
| SendModel.SendHandlers.FindOriginal | server/src/controllers/chat/send.js:154-158 | the scan for the original |
| SendModel.SendHandlers.InsertOrIgnore | server/src/controllers/chat/send.js:112-149 | insert, or nothing on conflict |
| SendModel.SendHandlers.Continue | server/src/controllers/chat/send.js:151-170 | announce and ack the new row, or ack the original |
| LiveMerge.MergeShowsTheUnion | web/src/lib/chat/live-store.ts:183-204 | the merge is strictly sorted by (createdAt, id) and shows exactly the visible copies with the marks applied |
| LiveMerge.MergedIdsAreTheUnion | web/src/lib/chat/live-store.ts:191-204 | its ids are those of history and buffer less the hidden |
| LiveMerge.MergesConverge | web/src/lib/chat/live-store.ts:175-204 | equal id sets merge to equal lists, whichever copies and orders |
| LiveMerge.PushOrderDoesNotMatter | web/src/lib/chat/live-store.ts:80-100 | up to 200 ids pushed in any order and multiplicity give one merge |
| LiveMerge.OverflowDropsTheOldest | web/src/lib/chat/live-store.ts:86 | beyond 200 the buffer keeps the last 200 |
| LiveMerge.OverflowLosesAMessage | web/src/lib/chat/live-store.ts:86 | so the merge shows the first pushed exactly when history has it visible |
| LiveMerge.EarlyReturnIsExact | web/src/lib/chat/live-store.ts:184-189 | the early return equals the full merge exactly for strictly sorted, duplicate-free history |
| LiveMerge.MarkingTwiceIsMarkingOnce | web/src/lib/chat/live-store.ts:206-220 | a copy already past its marks is left as it is |
| LiveMerge.TombstoneIsEmptyExactly | web/src/lib/chat/live-store.ts:206-220 | a shown tombstone is empty exactly unless the copy already was one and an edit mark newer than its own is present |
| LiveMerge.CopyIsPastItsEdits | server/src/controllers/chat/edit.js:40-66 | with edit times that do not run backwards a copy is at or past every edit announced before it was taken |
| LiveMerge.TombstonesStayEmpty | server/src/controllers/chat/delete.js:41-63 | then every tombstone is shown empty, whenever fetched and whichever announced edit was marked |
| LiveMerge.BackwardEditFillsTombstone | server/src/controllers/chat/edit.js:40-66 | two racing edits stamped backwards and a delete, after which a tombstone shows a body |
| LiveServer.MarkedIsCurrent | web/src/lib/chat/live-store.ts:203-220 | with the last edit and the delete heard, and edit times that run forward, a copy however old is shown as the server has it: text, edit time, deletion, media |
| LiveServer.MergeShowsTheServer | web/src/lib/chat/live-store.ts:183-220 | so the merge shows exactly the messages held and not hidden, each as the server has it now |
| LiveServer.MarksAreTheLastHeard | web/src/lib/chat/live-store.ts:111-164 | after any notices of any messages each message's marks are the last it was given, and no buffer has changed |
| LiveServer.HidingTakesTwoHalves | web/src/lib/chat/live-store.ts:134-164 | a hidden message is on its way out first and hidden then, and no other is touched |
| LiveServer.SameMillisecondEditsDiverge | web/src/lib/chat/live-store.ts:203-209 | two edits dated alike are not told apart: the copy between them keeps the first text |
| LiveMerge.BeforeIsStrictTotal | web/src/lib/chat/live-store.ts:222-225 | the comparison is a strict order, total on distinct ids |
| LiveStore.LiveMessages.PushLiveMessage | web/src/lib/chat/live-store.ts:80-89 | deduped by id, the last 200 kept |
| LiveStore.LiveMessages.PushLiveMessages | web/src/lib/chat/live-store.ts:91-100 | one push after another |
| LiveStore.LiveMessages.MarkLiveMessageEdited | web/src/lib/chat/live-store.ts:111-122 | the mark, whether or not the message is buffered |
| LiveStore.LiveMessages.MarkLiveMessageDeleted | web/src/lib/chat/live-store.ts:124-132 | the mark, whether or not the message is buffered |
| LiveStore.LiveMessages.MarkLiveMessageHidden | web/src/lib/chat/live-store.ts:140-150 | starts one exit, and arms its timer only then |
| LiveStore.LiveMessages.CommitLiveHidden | web/src/lib/chat/live-store.ts:152-165 | the id moves from exiting to hidden |
| LiveStore.LiveMessages.MergeWithHistory | web/src/lib/chat/live-store.ts:183-204 | early return, Map by id in insertion order, filter, marks, sort |
| Paging.CursorRoundTrip | web/src/lib/validation/chat.ts:136-148 | a printed cursor reads back as the row's truncated key exactly for a positive safe time and a non-empty id |
| Paging.CursorIsReadExactly | web/src/lib/validation/chat.ts:136-144 | only the empty cursor asks for the first page; a text is a cursor exactly when it names a key, and is refused otherwise |
| Paging.IndexOf | web/src/lib/validation/chat.ts:138 | the first separator |
| Paging.Selected | web/src/lib/chat/messages.ts:131-142 | exactly the rows below the cursor |
| Paging.PageIsNextRows | web/src/lib/chat/messages.ts:144-154 | a page is the next rows up to the limit, and says truly whether there are more |
| Paging.CursorSkipsPage | web/src/lib/call/history.ts:190-195 | the next page skips this one and every row not below its last row truncated to the millisecond |
| Paging.WalkNeverRepeats | web/src/lib/call/history.ts:62-104 | for every table the walk ends, strictly descends and shows rows of the table only |
| Paging.WalkIsCompleteExactly | web/src/lib/chat/messages.ts:123-155 | for each page size, the walk shows every row exactly when at each page boundary the next row lies below the last one truncated |
| Paging.WholeMillisecondsWalkCompletely | web/src/lib/chat/messages.ts:123-155 | with whole milliseconds every page size yields every row once |
| Paging.SubMillisecondRowIsSkipped | web/src/lib/validation/chat.ts:146-148 | two rows of one millisecond of which pages of one show only the first |
| Paging.BackfillIsPrefixOfEverythingNewer | web/src/lib/chat/messages.ts:166-185 | a backfill page is the ascending prefix of a set holding everything newer than the anchor, and all of it under the limit |
| Backfill.BackfillLosesNothing | web/src/app/(app)/(messaging)/chats/[conversationId]/chat-thread.tsx:206-220 | a page under its limit, pushed and merged, shows every newer visible message, each once |
| RateLimit.Limiter.Allow | server/src/services/rate-limit.js:20-29 | the hit bucket and the answer |
| RateLimit.Limiter.Sweep | server/src/services/rate-limit.js:35-40 | drops exactly the stale buckets |
| RateLimit.RateLimitTable.CheckRateLimit | web/src/lib/rate-limit.ts:24-56 | the upserted row and the answer |
| RateLimit.GrantsPerInterval | server/src/services/rate-limit.js:14-29 | no interval one window long sees more than 2 * max - 1 grants, sweeps included |
| RateLimit.BoundIsMet | server/src/services/rate-limit.js:14-29 | a trace that reaches that many |
| RateLimit.RefusedOnlyWhenFull | server/src/services/rate-limit.js:20-29 | a refused call has as many calls as the limit allows within one window before it, sweeps included |
| RateLimit.SweeperIsInvisibleExactly | server/src/services/rate-limit.js:31-40 | sweeps change no answer of any trace exactly when the window fits the stale age |
| RateLimit.SocketLimiterHolds | server/src/services/rate-limit.js:43-64 | the bound for every limit of the socket server |
| RateLimit.InviteLimiterHolds | server/src/controllers/call/invite.js:19-40 | at most 29 invites in any hour |
| RateLimit.InviteBoundIsMet | server/src/controllers/call/invite.js:19-40 | a trace with that many |
| RateLimit.SharedSweeperWouldForgetInvites | server/src/controllers/call/invite.js:16-18 | why the invite limiter has a sweeper of its own |
| LikePattern.PrefixSearchFindsPrefixes | web/src/app/api/users/search/route.ts:45 | the built pattern matches exactly the texts the term is a prefix of |
| LikePattern.SubstringSearchFindsSubstrings | web/src/lib/chat/messages.ts:277-287 | the built pattern matches exactly the texts the term occurs in |
| LikePattern.EscapedTermIsLiteral | web/src/lib/validation/search.ts:17-19 | an escaped term in front of any pattern stands for itself |
| LikePattern.PatternsNeverDangle | web/src/lib/validation/search.ts:17-19 | no built pattern ends in an escape |
| LikePattern.UnescapedPercentFindsAll | web/src/lib/validation/search.ts:15-16 | what the escape is for |
| DirectKeys.KeyIsSymmetric | web/src/lib/chat/direct-key.ts:11-13 | either side builds the same key |
| DirectKeys.KeyNamesOnePair | web/src/lib/chat/direct-key.ts:10-13 | two pairs of ids without ":" share a key exactly when they are the same pair |
| DirectKeys.ColonsCollide | web/src/lib/chat/direct-key.ts:10-13 | with a ":" two disjoint pairs can share one |
| DirectResults.OneConversationPerPair | web/src/app/api/conversations/direct/route.ts:94-115 | however requests interleave and crash, a pair has at most one conversation |
| DirectResults.AnswersAgree | web/src/app/api/conversations/direct/route.ts:79-127 | two answers name one conversation exactly when asked for one pair, and at most one says created |
| DirectResults.AnswerFindsBothMembers | web/src/app/api/conversations/direct/route.ts:64-82 | an answered conversation has exactly the two members |
| DirectResults.NextClickHeals | web/src/app/api/conversations/direct/route.ts:64-82 | after any crash the next uninterrupted request of either side answers with both member rows in place |
| DirectResults.FirstClickOpens | web/src/app/api/conversations/direct/route.ts:84-128 | without a conversation yet, an admitted request makes one with both members and any other is refused and makes nothing |
| DirectResults.EveryConversationWasAdmitted | web/src/app/api/conversations/direct/route.ts:84-102 | in every run whoever made a conversation had been admitted to |
| DirectResults.WinnerIsAlwaysThere | web/src/app/api/conversations/direct/route.ts:104-115 | the 500 for a vanished winner is never given |
| DirectResults.NextKeepsInv | web/src/app/api/conversations/direct/route.ts:62-139 | every statement of every request keeps the tables consistent |
| DirectMessages.DirectRoute.LookUp | web/src/app/api/conversations/direct/route.ts:70-92 | the fast path with the caller's own member row |
| DirectMessages.DirectRoute.InsertOrIgnore | web/src/app/api/conversations/direct/route.ts:94-102 | insert, or nothing on conflict |
| DirectMessages.DirectRoute.ReadTheWinner | web/src/app/api/conversations/direct/route.ts:104-114 | the loser's read |
| DirectMessages.DirectRoute.InsertMembers | web/src/app/api/conversations/direct/route.ts:130-139 | both member rows in one statement |
| DirectMessages.DirectRoute.Post | web/src/app/api/conversations/direct/route.ts:62-128 | a whole request that nothing interrupts |
| Anonymizer.Job.Scrub | web/src/lib/jobs/anonymize-accounts.ts:90-122 | the statements of one due user, skipped when cancelled before the commit |
| Anonymizer.Job.RunAccountAnonymizer | web/src/lib/jobs/anonymize-accounts.ts:68-149 | the loop over the batch, its counters, `hasMore` and the sweep of expired holds |
| Anonymizer.CrashedAttemptsChangeNothing | web/src/lib/jobs/anonymize-accounts.ts:22-26 | unfinished attempts leave the user a candidate and the next full run as if they had not been |
| Anonymizer.RerunsEndAsOneRun | web/src/lib/jobs/anonymize-accounts.ts:90-122 | after any crashes the first attempt to finish leaves exactly what one uninterrupted run at its time would have: no session, account, companion row or old profile field; and nothing later changes that |
| Anonymizer.ProfileTellsNothing | web/src/lib/jobs/anonymize-accounts.ts:38-66 | the profile left tells nothing but the digest of the id, and two collide exactly when their digests do |
| Anonymizer.RunLeaves | web/src/lib/jobs/anonymize-accounts.ts:68-149 | what one run leaves of everybody: those in its batch nothing, those cancelled in time all but sessions, all others all but expired holds |
| Anonymizer.CancelledKeepsUserExactly | web/src/lib/auth/session.ts:17-24 | a cancelled deletion has cost sessions only exactly when no crashed attempt had reached the commit; otherwise the half-scrubbed user is never a candidate again |
| Anonymizer.LateCancelOfSurvivingRunIsHarmless | web/src/lib/jobs/anonymize-accounts.ts:108-122 | a cancel after the commit changes nothing if the run survives |
| Anonymizer.RunDrains | web/src/lib/jobs/anonymize-accounts.ts:75-90 | a run clears of the users due at an earlier time as many as it may take, oldest first |
| Anonymizer.RunsDrain | web/src/lib/jobs/anonymize-accounts.ts:75-136 | over any runs, those that die among them and any other writes in between, the users due at some time shrink by what the runs finished, exactly so when nothing else is written |
| Anonymizer.EnoughRunsDrainAll | web/src/lib/jobs/anonymize-accounts.ts:75-136 | nobody stays due once the surviving runs times `maxUsers` reach their number |
| ClientCallProofs.IdleHoldsNothing | web/src/lib/call/session.ts:169-181 | an idle session has no peer, timer, ring failsafe or stored stream, and no open connection |
| ClientCallProofs.MeshLivesInCall | web/src/lib/call/session.ts:185-256 | peers and connect timers exist only while active or reconnecting, and open connections are exactly the entries' |
| ClientCallProofs.StreamIsOverwrittenExactly | web/src/lib/call/call-store.ts:157-160 | the steps that leave a stream running unstored |
| ClientCallProofs.RedialLeavesStreamRunning | web/src/lib/call/session.ts:260-284 | a run after which a stopped call's stream still runs |
| ClientCallProofs.NextKeepsInv | web/src/lib/call/session.ts:170-712 | every handler, timer and continuation keeps the session's invariant |
| ClientCallProofs.DropIsRemoval | web/src/lib/call/session.ts:561-566 | deleting the entry before destroying it keeps onClose from retrying |
| ClientCallProofs.CloseKeepsInv | web/src/lib/call/session.ts:225-236 | a failed peer retries at most inside a call |
| ClientCallResults.JoinOkGoesActive | web/src/lib/call/session.ts:438-453 | a join that succeeds makes the call active, with tiles and connect windows for everybody named, and keeps media and connections |
| ClientCallResults.JoinAckEndsExactly | web/src/lib/call/session.ts:406-439 | only a failed join of the call still shown ends the session |
| ClientCallResults.StateAckSettles | web/src/lib/call/session.ts:676-712 | after a reconnect the same call is pruned to the server's participants and joined again; another call or none ends the session |
| ClientCallResults.NewcomerIsOffered | web/src/lib/call/session.ts:552-570 | a newcomer has a tile, a window and one fresh connection that we offer, and answers an outgoing ring; nobody else is touched |
| ClientCallResults.OwnEchoStandsDown | web/src/lib/call/session.ts:542-551 | our own join elsewhere ends a ring here, its own echo does not |
| ClientCallResults.LeaverIsGone | web/src/lib/call/session.ts:572-590 | a leaver's tile, window and connection go, and nobody else's; our own forced leave ends the session |
| ClientCallResults.OfferIsAnswered | web/src/lib/call/session.ts:624-658 | an offer from somebody known gets one fresh connection that we answer; any other signal makes none |
| ClientCallResults.ConnectionComesUp | web/src/lib/call/session.ts:213-218 | a connection that comes up shows on its tile and closes its window |
| ClientCallResults.ConnectionFails | web/src/lib/call/session.ts:225-236 | a failed connection is retried once by its initiator, and dropped otherwise |
| ClientCallResults.WindowRunsOut | web/src/lib/call/session.ts:238-256 | a window that runs out ends a DM and drops a group tile, unless connected by then |
| ClientCallResults.MediaSettles | web/src/lib/call/session.ts:272-284 | media still wanted is stored and the server asked for the call; media not wanted is stopped; a refused permission ends an accept |
| ClientCallResults.InviteAckSettles | web/src/lib/call/session.ts:285-331 | the call has its id, or the call already there is joined, or the session ends |
| ClientCallResults.EndingsEnd | web/src/lib/call/session.ts:593-622 | the events and clicks that end a session leave it holding nothing; a lost socket only makes it reconnecting |
| ClientCallResults.SurfaceOpens | web/src/lib/call/session.ts:501-530 | clicks and rings open their surface from rest only, and an accept goes out once |
| ClientCallResults.AcceptsComeOneByOne | web/src/lib/call/session.ts:333-363 | in every reachable state at most one accept is under way, exactly while the flag is up |
| ClientCallResults.CallerGetsThrough | web/src/lib/call/session.ts:260-296 | from any rest a call, allowed, invited and answered, ends active with its peer connected |
| ClientCallResults.CalleeGetsThrough | web/src/lib/call/session.ts:333-363 | so does a ring accepted, allowed and joined |
| ClientCallResults.JoinedGetsThrough | web/src/lib/call/session.ts:406-453 | the half that every join has in common |
| ClientSession.CallSession.TearDown | web/src/lib/call/session.ts:170-181 | everything held is destroyed, the loop over peers included |
| ClientSession.CallSession.MakePeer | web/src/lib/call/session.ts:198-223 | an entry only with a stream and a call |
| ClientSession.CallSession.PeerClosed | web/src/lib/call/session.ts:225-236 | one retry, by the initiator, inside a call |
| ClientSession.CallSession.ConnectWindowExpired | web/src/lib/call/session.ts:238-256 | hang up a DM, drop a group tile |
| ClientSession.CallSession.StartMediaBack | web/src/lib/call/session.ts:272-285 | stored if the surface is still up, stopped otherwise |
| ClientSession.CallSession.InviteAckBack | web/src/lib/call/session.ts:285-331 | call id, pivot to the existing call, or teardown |
| ClientSession.CallSession.AcceptMediaBack | web/src/lib/call/session.ts:342-362 | stored and joined if the ring still stands |
| ClientSession.CallSession.JoinMediaBack | web/src/lib/call/session.ts:388-404 | stored and joined if the surface is still up |
| ClientSession.CallSession.JoinAckBack | web/src/lib/call/session.ts:406-453 | teardown, or active with a window per participant |
| ClientSession.CallSession.StateAckBack | web/src/lib/call/session.ts:676-712 | the resync decisions |
| ClientSession.CallSession.ParticipantJoined | web/src/lib/call/session.ts:542-570 | stand down, answer, or re-peer with a fresh offer |
| ClientSession.CallSession.ParticipantLeft | web/src/lib/call/session.ts:572-590 | force-leave, or drop the peer |
| ClientSession.CallSession.RtcSignal | web/src/lib/call/session.ts:624-653 | an offer re-peers an existing entry or makes one for a known participant |

## Left out

- CallResults.QuiescentCallIsSettled: excuses whole calls the sweeper took or a stamp of which failed by itself; `QuiescentRowIsOpenExactly` and `SweepLeavesOpenExactly` say it row by row.
- CallResults.SweepLeavesOpenExactly: later failures of the call's own batches are excluded; with them `QuiescentRowIsOpenExactly` holds.
- CallResults.GroupCallShape: excuses calls a rollback stranded; `RollbackKeepsGroupShapeExactly` says which those are.
- Call batches: a batch that commits is reported as committed; a commit whose answer is lost is modelled for sending, not for calls.
- DM membership is fixed in the call model: the web routes refuse to remove members of a conversation that is not a group; conversations and messages are never hard-deleted.
- Map iteration order in the call records is abstracted to sets and to arbitrary listings without repetition.
- Handler parts before the last await (pre-checks, rate limits, id shapes) only refuse, and the same checks run again after it.
- `call:state`, mute, `rtc:signal` relaying, boot reconciliation and shutdown on the server; notification texts and rooms, except where a `message:new` is counted.
- ClientCall: WebRTC and media internals are a connection that closes once and a stream that is stopped; ringtones, toasts, mute flags, the ongoing-calls map and the minimized surface are not modelled.
- Who offers in the mesh: two joiners may both be in each other's list while one is still joining, so no claim of exactly one offerer.
- Participant rows while a call lives: leave and rejoin batches may land in either order; only ended calls are claimed.
- LiveStore: the four media fields a delete empties in the browser are one, the three it leaves (width, height, duration) are not modelled; identity of snapshots and listeners are not modelled; strings compare by character.
- LiveServer.MarkedIsCurrent: speaks of messages deleted at most once; the time of a second delete reaches only copies fetched after it.
- Paging.CursorRoundTrip: JavaScript's `Number` is a parameter that is only required to read decimal digits; its other spellings of numbers are whatever they are.
- Paging: a table stands still during a walk; collation of ids is any strict total order, here the order of characters; pages around an anchor and the media grid use the same keyset and add nothing harder.
- Sidebar paging: its cursor is one timestamp, so ties are lost and the exact walk does not hold.
- LikePattern: folding is one character to one character, whatever it is.
- Sending: message contents, media tokens and reply targets; every refusal before the insert is one step.
- DirectMessages: the lookup of the target, blocks, the rate limit and the discoverable gate only refuse; they are one answer to the fast path's miss.
- Anonymizer: a cancel that lands while a run is at another user counts as landing before or after the run; asset deletion is best effort and outside the database; two users whose digests collide would break the unique username.
- Call history details, unread counts, message edits and deletes beyond what they leave of one message, groups, privacy flags, tokens and mail are single-branch or foreign.

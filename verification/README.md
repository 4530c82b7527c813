# Codex Telegram Bridge: a verified model

The bridge connects Codex sessions to Telegram. Most of what can go wrong in it
goes wrong between two suspension points of one event loop, or between two
system calls. This project models those parts as state machines over such
stretches, keeps the source's objects as classes whose methods change the same
fields, and proves what the parts promise in every run. Transport outcomes,
server answers, clock readings, file-system failures, write sizes, cancellations
and other processes are inputs, so a statement holds for all of them.

| files | part of the bridge |
|---|---|
| `OutboundModel`, `OutboundInvariants`, `OutboundTransport`, `OutboundOrdering`, `OutboundResults`, `OutboundAnswers`, `OutboundWorkers`, `OutboundMessenger` | the Bot API scheduler: class queues, workers, retries, edit coalescing, transport recycling, restart, and who is told what |
| `CredentialDisk`, `Credentials` | installing the bot tokens as a transaction over a directory |
| `TurnGate`, `QueueDispatch`, `QueuePick`, `QueueGate`, `QueueOpening`, `QueueRuns`, `QueueOutcomes`, `Interest` | the turn gate, queued prompts, and the threads the bridge follows |
| `ServerRequests`, `SideQuestion`, `SideAnswer` | the pump of server requests and the isolated side question |
| `DeliveryModel`, `DeliveryInvariants`, `DeliveryEngine`, `DeliveryOutcomes` | reconciling editable messages to their latest payload |
| `TaskTable`, `Projector`, `TaskLaws`, `Goal` | agent tasks, their counters and the goal of a thread |
| `NewCommand`, `NewParsing`, `Text`, `Wrappers` | the `/new` arguments and the suggestion printed for them; shared vocabulary |

Each part has the same shape: a `State` and a `Step` over events, an invariant
every event keeps, lemmas over whole runs, and a class with the source's fields
whose methods each refine one event (`View() == Step(old(View()), e)`). What an
event does is stated a second time without the steps, in terms of what callers
and the outside world see: `OutboundAnswers`, `OutboundWorkers`, `QueueOutcomes`,
`DeliveryOutcomes`, `SideAnswer`, `TaskLaws` and `NewParsing`. The
credential transaction has no separate step function: its methods are proved
against what readers of the destinations see, with the other processes acting
between the calls.

## Where the code falls short of a plain reading

Each of these is proved as an exact condition or by a concrete input.

- `start` during the grace wait of an earlier `stop`: the end of that `stop`
  clears the chat locks of the new generation (outbound.py:222-233).
  `OutboundResults.RestartIsSafeExactlyAfterStop`.
- Without `force`, a staged name that cannot be unlinked after the link leaves a
  token in place although the error says the originals were restored
  (cli.py:602-604, 630). This can happen exactly to orders without `force` whose
  destinations are different and missing. `Credentials.WorstCase` and
  `Credentials.Installer.Install`; what holds under any single fault is
  `Credentials.OneFault`.
- A queued prompt whose session directory is gone is marked failed even if an
  earlier attempt was executed (bridge.py:2382-2402).
  `QueueRuns.FailedThoughStarted`, and exactly when:
  `QueueRuns.FailedForLackOfDirectory`.
- The queue of a thread also lists the prompts of its spaces (store.py:2153-2160)
  under another lock, so one prompt can have two dispatchers and two turns.
  `QueueRuns.TwoLocksStartTwoTurns`, and exactly when a second pick is safe:
  `QueuePick.PickIsSafeExactlyWhenNobodyMayStart`. The turn gate does not make up
  for it, because a receipt may be older than the gate:
  `QueueRuns.StaleAnswerStartsTwoTurns`, `QueueGate.GateAloneBoundsTurns`, and
  exactly when a gate may open:
  `QueueOpening.OpeningIsSafeExactlyWhenNobodyStartsTwice`.
- A message after a side question's completion is heard by a late binding only;
  when the position of the binding matters is
  `SideQuestion.BindingTimeMattersExactlyWhen`.
- A printed `/new` suggestion with a prompt and no directory does not parse back
  (control_bot.py:1444-1447). `NewCommand.RoundTrip`.

## Model

| member | source | states |
|---|---|---|
| OutboundModel.FirstDue | src/codex_telegram_bridge/outbound.py:446-469 | The job a worker takes is the first one in its queue that is due and eligible: nothing before it in the queue qualifies |
| OutboundModel.EarliestDue | src/codex_telegram_bridge/outbound.py:471-489 | The wake-up time belongs to an eligible job and no eligible job is due earlier |
| OutboundModel.Without | src/codex_telegram_bridge/outbound.py:329-340 | Superseding keeps exactly the queued jobs that do not carry the coalesce key, and frees at least as many places as were counted replaceable |
| OutboundResults.ReadyExactlyWhenDue | src/codex_telegram_bridge/outbound.py:427-489 | For any queue, locked chats and time, a job can be taken now if and only if the computed wake-up time has come: a worker neither sleeps past a job nor spins |
| OutboundInvariants.KeepConserved | src/codex_telegram_bridge/outbound.py:189-727 | Every event keeps the conservation invariant: queues without repeats, one holder per job, job records matching the phase of their worker, an unanswered job waiting in one place |
| OutboundInvariants.StopAnswersAll | src/codex_telegram_bridge/outbound.py:200-216 | The first half of stop answers every call there is and empties every queue |
| OutboundTransport.KeepCounts | src/codex_telegram_bridge/outbound.py:631-700 | Every event keeps the transport counter equal to the running operations, one recycle at most, and the queue bound |
| OutboundOrdering.KeepFair | src/codex_telegram_bridge/outbound.py:446-493 | Every orderly event keeps interactive chats exclusive within each generation, the locks of the live one held, and calls of one chat in submission order |
| OutboundResults.KeepInv | src/codex_telegram_bridge/outbound.py:189-727 | The three invariants together are kept by every event, whatever its inputs |
| OutboundResults.EveryCallHasOnePlace | src/codex_telegram_bridge/outbound.py:252-291 | An unanswered call is in its own class queue exactly once, or with exactly one worker of the live generation, never both |
| OutboundResults.StepRecords | src/codex_telegram_bridge/outbound.py:706-727 | One event leaves an admitted call what it was and keeps any answer it had |
| OutboundResults.AnswersAreFinal | src/codex_telegram_bridge/outbound.py:706-727 | Over any run no admitted call disappears and an answered call keeps its answer |
| OutboundResults.StopLeavesNothingWaiting | src/codex_telegram_bridge/outbound.py:200-216 | In any reachable state, stop leaves no future unresolved and no job queued |
| OutboundResults.NeverOverCapacity | src/codex_telegram_bridge/outbound.py:252-257 | In every run queued jobs plus busy live workers stay within the queue limit plus eight |
| OutboundResults.AttemptsAreBounded | src/codex_telegram_bridge/outbound.py:495-546 | Across any mix of rate limits and network failures a job makes at most retries + 1 attempts, and a non-idempotent job has no attempt after one that may have acted |
| OutboundResults.NothingAfterAnEffect | src/codex_telegram_bridge/outbound.py:646-666 | Once an attempt of a non-idempotent call may have reached Telegram, no run makes another one |
| OutboundResults.NoLateSendWithoutInterval | src/codex_telegram_bridge/outbound.py:495-513 | With the interval off, an attempt begins only for a call that still has no answer; a superseded call is not sent |
| OutboundResults.RecycleIsExclusive | src/codex_telegram_bridge/outbound.py:668-700 | The transport is recycled with zero operations running, by one worker at a time, which is not itself counted; no operation enters while the flag is up |
| OutboundResults.OneWorkerPerChat | src/codex_telegram_bridge/outbound.py:446-469 | In an orderly run two workers of one generation, be it the live one or one that lingers after a stop, never serve one chat |
| OutboundResults.InteractiveOrder | src/codex_telegram_bridge/outbound.py:446-469 | In an orderly run a call being served has no unanswered predecessor in its chat, even when that one was requeued with a later due time |
| OutboundResults.AtMostTwoEditsWait | src/codex_telegram_bridge/outbound.py:329-364 | Of interactive edits sharing a coalesce key and a chat, at most two are unanswered at any time, however many are submitted |
| OutboundResults.OlderEditsNeverRunAgain | src/codex_telegram_bridge/outbound.py:253-260 | While an edit is being sent every older call of its chat is answered and has no live worker, and no run ever gives it one again |
| OutboundResults.LateStopBreaksExclusion | src/codex_telegram_bridge/outbound.py:222-233 | A concrete run: a stop still inside its grace wait unlocks the chats of a restarted scheduler, and two live workers serve one chat |
| OutboundResults.RestartIsSafeExactlyAfterStop | src/codex_telegram_bridge/outbound.py:189-233 | A restart keeps chats exclusive in every orderly run if and only if no stop is still waiting when it happens |
| OutboundAnswers.FulfilledExactlyWhenDelivered | src/codex_telegram_bridge/outbound.py:539-546 | In any reachable state and for any event, a waiting call is fulfilled if and only if an attempt of it that was delivered leaves the transport |
| OutboundAnswers.FailedExactlyWhenRefusedOrExhausted | src/codex_telegram_bridge/outbound.py:516-538 | It fails with the error of the transport if and only if Telegram refused it, another Telegram or unexpected error came, or a rate limit or a network error that may be repeated came with no attempt left |
| OutboundAnswers.UncertainExactlyWhenRisky | src/codex_telegram_bridge/outbound.py:651-666 | Its outcome is reported as uncertain if and only if it is non-idempotent and a network error not known to be unsent has run its course: at once, behind another worker's recycle, or behind its own |
| OutboundAnswers.StoppedOrCancelledExactlyWhen | src/codex_telegram_bridge/outbound.py:200-212 | It fails because of a stop if and only if one begins or a worker of an ended generation takes it; it is cancelled if and only if its caller gives up or a newer edit of its key is admitted while it is not being sent |
| OutboundAnswers.RetriedExactlyWhenRepeatable | src/codex_telegram_bridge/outbound.py:702-713 | A call with a worker goes back to the end of its class queue, still waiting, if and only if a rate limit or a safe network error came with attempts left; it is due after the time Telegram named and a tenth of a second, or after 1, 2, 4, ... seconds, at most 60 |
| OutboundAnswers.TheLastOutcomeDecides | src/codex_telegram_bridge/outbound.py:646-700 | The outcome that decides, through all phases of a recycle, is the last one reported of the call |
| OutboundAnswers.HistoryIsWhatWasReported | src/codex_telegram_bridge/outbound.py:511-546 | The recorded outcomes of a call are exactly those the transport reported of it, in order, and the interruption of one that a stop cut short |
| OutboundAnswers.AttemptSettles | src/codex_telegram_bridge/outbound.py:631-644 | For every outcome: the run of one attempt, from entering the transport to leaving it, ends in the answer that outcome calls for, or before a recycle after the second network error in a row |
| OutboundAnswers.RecycleSettles | src/codex_telegram_bridge/outbound.py:668-700 | A whole recycle forgets the failures in a row, and the network error that caused it decides as it would have at once |
| OutboundAnswers.CallSettles | src/codex_telegram_bridge/outbound.py:394-546 | From the queue to its answer: a due call taken by a live worker, with or without the interval, one attempt more, for every outcome |
| OutboundAnswers.AdmittedExactlyWhenRoom | src/codex_telegram_bridge/outbound.py:247-257 | A submission is admitted if and only if the scheduler runs and the queued calls, less the waiting edits it replaces, are fewer than the limit; otherwise nothing changes |
| OutboundAnswers.AdmittedCall | src/codex_telegram_bridge/outbound.py:258-291 | An admitted call waits at the end of its class queue under its own number with what it was submitted with, unless its journal entry fails |
| OutboundAnswers.ChatlessCallsAreApart | src/codex_telegram_bridge/outbound.py:263 | Two calls without a chat never share one |
| OutboundWorkers.WorkersOfAGeneration | src/codex_telegram_bridge/outbound.py:29-34 | Four workers answer callbacks, two serve interactive calls, one each media and maintenance |
| OutboundWorkers.LifeCycle | src/codex_telegram_bridge/outbound.py:189-233 | A start opens a new generation unless one runs, a stop ends it at once, and the end of a stop unlocks all chats |
| OutboundWorkers.AnsweredFreesWorker | src/codex_telegram_bridge/outbound.py:495-546 | A worker whose call has its answer lets go of it after pacing, after the attempt, and around a recycle |
| OutboundWorkers.SettledFreesWorker | src/codex_telegram_bridge/outbound.py:408-425 | A worker is free once its attempt has been answered or will be repeated: it stays busy exactly for a recycle |
| OutboundWorkers.AbortEndsWork | src/codex_telegram_bridge/outbound.py:220-221 | A worker cancelled by a stop is free unless its operation is in the transport or it has a recycle to wind up |
| OutboundWorkers.KeepLocks | src/codex_telegram_bridge/outbound.py:446-493 | Every event keeps: a chat of the live generation is locked only while a live worker serves it |
| OutboundWorkers.NoChatStaysLocked | src/codex_telegram_bridge/outbound.py:446-493 | So does every run, restarts inside a grace wait included: no chat stays locked |
| OutboundWorkers.KeptBackOnlyByItsChat | src/codex_telegram_bridge/outbound.py:446-469 | A queued call is kept back only by a live worker that serves its chat or by an older queued call of that chat |
| OutboundMessenger.WithoutExtends | src/codex_telegram_bridge/outbound.py:334-339 | Scanning one more queued job adds it to the kept ones exactly when its key differs |
| OutboundMessenger.SupersededIds | src/codex_telegram_bridge/outbound.py:329-347 | Scanning the queues and the active jobs finds every edit that can be superseded |
| OutboundMessenger.OutboundMessenger.constructor | src/codex_telegram_bridge/outbound.py:128-187 | A new messenger is empty, stopped and satisfies the invariant |
| OutboundMessenger.OutboundMessenger.Start | src/codex_telegram_bridge/outbound.py:189-198 | Starting opens a new generation unless one is running |
| OutboundMessenger.OutboundMessenger.StopBegin | src/codex_telegram_bridge/outbound.py:200-221 | Stop up to its wait: active and queued calls failed, queues emptied, generation advanced |
| OutboundMessenger.OutboundMessenger.FailActive | src/codex_telegram_bridge/outbound.py:205-207 | The loop fails exactly the unresolved active jobs |
| OutboundMessenger.OutboundMessenger.DrainQueue | src/codex_telegram_bridge/outbound.py:208-212 | Popping until the queue is empty fails exactly its unresolved jobs |
| OutboundMessenger.OutboundMessenger.Call | src/codex_telegram_bridge/outbound.py:235-291 | Refused, admitted, or rejected by the journal: the new state is that of the model, and an accepted call is pending under its sequence number |
| OutboundMessenger.OutboundMessenger.QueuedCoalesceCount | src/codex_telegram_bridge/outbound.py:349-356 | The nested loops count exactly the replaceable queued edits |
| OutboundMessenger.OutboundMessenger.SupersedeWaitingEdits | src/codex_telegram_bridge/outbound.py:329-347 | The loops over queues and active jobs remove every queued edit of the key and cancel every one that has not reached the transport |
| OutboundMessenger.SweepSnapshot | src/codex_telegram_bridge/outbound.py:335-340 | The loop over a snapshot of one queue leaves exactly the other jobs, in order |
| OutboundMessenger.OutboundMessenger.OlderWaits | src/codex_telegram_bridge/outbound.py:460-464 | The loop answers whether some queued job of the chat has a smaller sequence |
| OutboundMessenger.OutboundMessenger.TakeDue | src/codex_telegram_bridge/outbound.py:446-469 | The loop removes the first due and eligible job and locks its chat, or changes nothing |
| OutboundMessenger.OutboundMessenger.NextDueAt | src/codex_telegram_bridge/outbound.py:471-489 | The running minimum is a time such that a job can be taken exactly from then on |
| OutboundMessenger.OutboundMessenger.Take | src/codex_telegram_bridge/outbound.py:394-407 | A worker takes a job, fails it if its generation is over, drops it if it was cancelled, or holds it |
| OutboundMessenger.OutboundMessenger.Release | src/codex_telegram_bridge/outbound.py:491-493 | Only keyed classes unlock a chat, under the generation of the job |
| OutboundMessenger.OutboundMessenger.RequeueJob | src/codex_telegram_bridge/outbound.py:706-713 | A current job goes to the end of its class queue with its new due time; any other is forgotten |
| OutboundMessenger.OutboundMessenger.HandleNetworkError | src/codex_telegram_bridge/outbound.py:651-666 | Stale, uncertain, retried or failed: one of the four, in the order of the source |
| OutboundMessenger.OutboundMessenger.HandleOutcome | src/codex_telegram_bridge/outbound.py:516-546 | Each way an attempt can end has the effect of its except clause; which answer that is, outcome by outcome, is OutboundAnswers.AttemptSettles and the lemmas beside it |
| OutboundMessenger.OutboundMessenger.Pass | src/codex_telegram_bridge/outbound.py:496-511 | After pacing a job that no longer counts is given up, any other starts an attempt or waits for the interval |
| OutboundMessenger.OutboundMessenger.Begin | src/codex_telegram_bridge/outbound.py:502-511 | After the interval the attempt begins without another check |
| OutboundMessenger.OutboundMessenger.Enter | src/codex_telegram_bridge/outbound.py:635-638 | An operation enters the transport exactly when no recycle is under way |
| OutboundMessenger.OutboundMessenger.Leave | src/codex_telegram_bridge/outbound.py:641-644 | The operation stops counting and its outcome takes effect |
| OutboundMessenger.OutboundMessenger.EnterRecycling | src/codex_telegram_bridge/outbound.py:668-678 | One worker raises the recycle flag; another goes on with its error at once |
| OutboundMessenger.OutboundMessenger.RunRecycling | src/codex_telegram_bridge/outbound.py:679-683 | The recycle begins exactly when no operation is counted |
| OutboundMessenger.OutboundMessenger.FinishRecycling | src/codex_telegram_bridge/outbound.py:684-697 | The failure counter is reset only for a current job |
| OutboundMessenger.OutboundMessenger.LeaveRecycling | src/codex_telegram_bridge/outbound.py:698-700 | The flag comes down before the error is handled |
| OutboundMessenger.OutboundMessenger.CallerCancels | src/codex_telegram_bridge/outbound.py:291 | A caller that gives up cancels a pending future and nothing else |
| OutboundMessenger.OutboundMessenger.Abort | src/codex_telegram_bridge/outbound.py:220-221 | A cancelled worker leaves what its phase allows: an attempt under way is recorded as interrupted, a recycle lowers its flag |
| OutboundMessenger.OutboundMessenger.FailQueued | src/codex_telegram_bridge/outbound.py:208-212 | Every class queue is drained and its unresolved jobs fail |
| OutboundMessenger.OutboundMessenger.CountEdits | src/codex_telegram_bridge/outbound.py:352-356 | The loop over one queue counts its replaceable edits |
| OutboundMessenger.OutboundMessenger.SweepQueues | src/codex_telegram_bridge/outbound.py:334-340 | Every class queue keeps exactly the other jobs, and the removed edits that have not reached the transport are cancelled |
| OutboundMessenger.OutboundMessenger.SweepActive | src/codex_telegram_bridge/outbound.py:341-344 | The active edits that have not reached the transport are cancelled, no other job |
| CredentialDisk.InterfereKeeps | src/codex_telegram_bridge/cli.py:363-374 | What other processes do to a destination keeps the bookkeeping exact |
| CredentialDisk.InterfereKeepsAll | src/codex_telegram_bridge/cli.py:536-624 | No interference makes the transaction lose track of its targets or of what the others left |
| CredentialDisk.PlacedUnrecorded | src/codex_telegram_bridge/cli.py:590-602 | A token linked to a free destination and not yet recorded is a stray: visible, with nothing there before |
| CredentialDisk.PlacedRecorded | src/codex_telegram_bridge/cli.py:582-604 | A placed and recorded token leaves every other target alone and loses nobody's update |
| CredentialDisk.GivenBack | src/codex_telegram_bridge/cli.py:509-515 | Replacing a token by a copy of the original makes readers see what they would have seen without the installer |
| CredentialDisk.Withdrawn | src/codex_telegram_bridge/cli.py:529-531 | Unlinking the token of a destination that did not exist does the same |
| CredentialDisk.CommittedIsThere | src/codex_telegram_bridge/cli.py:605-612 | A committed token whose destination the others left alone is there, so its check fails only if a call does |
| CredentialDisk.MismatchIsActed | src/codex_telegram_bridge/cli.py:580-581 | A snapshot that no longer matches was disturbed by somebody else: they acted on this destination |
| CredentialDisk.OrdinaryVerdict | src/codex_telegram_bridge/cli.py:615-630 | After the rollback readers find what the others left everywhere but at a stray, and with the others idle every destination is as before if and only if no stray token was left |
| CredentialDisk.StrayShows | src/codex_telegram_bridge/cli.py:591-604 | A stray token is read where there was no file |
| Credentials.SetFindsRepeats | src/codex_telegram_bridge/cli.py:542-544 | Comparing the number of distinct paths with the number of paths finds repeated paths exactly |
| Credentials.ReadDecides | src/codex_telegram_bridge/cli.py:457-461 | Reading one byte more than expected tells a longer file from the right one |
| Credentials.SameVerdict | src/codex_telegram_bridge/cli.py:631-637 | Cleaning up staged names changes nothing the outcome promises |
| Credentials.Installer.constructor | src/codex_telegram_bridge/cli.py:536-547 | Any directory contents, with no token of the installer in place |
| Credentials.Installer.OpenExclusive | src/codex_telegram_bridge/cli.py:393-406 | A new file is opened under a name nobody had; if that fails, or all 128 names drawn are taken, nothing is created |
| Credentials.Installer.WriteAll | src/codex_telegram_bridge/cli.py:409-415 | However short the writes are, success means exactly this content; a write without progress is an error |
| Credentials.Installer.Fill | src/codex_telegram_bridge/cli.py:408-417 | Success means exactly this content and mode |
| Credentials.Installer.Stage | src/codex_telegram_bridge/cli.py:377-425 | Success gives a new private file with exactly this content beside the destination; failure leaves destinations and other staged files alone |
| Credentials.Installer.SnapshotAt | src/codex_telegram_bridge/cli.py:292-324 | The snapshot is what is there; a file that is not plain, private and small is refused |
| Credentials.Installer.SnapshotMatches | src/codex_telegram_bridge/cli.py:363-374 | True exactly when inode, mode and content are those of the snapshot |
| Credentials.Installer.Verify | src/codex_telegram_bridge/cli.py:441-477 | Success means the destination leads to the staged file and the file is as expected; failure means it does not or a call failed |
| Credentials.Installer.ReplaceDestination | src/codex_telegram_bridge/cli.py:582-604 | The staged token takes the destination and is recorded |
| Credentials.Installer.LinkDestination | src/codex_telegram_bridge/cli.py:589-604 | Which calls fail decides: the link fails and nothing happens, the link succeeds and the removal of the staged name fails and a stray is left, or both succeed and the token is recorded |
| Credentials.Installer.LinkNew | src/codex_telegram_bridge/cli.py:589-601 | A destination that appeared in the meantime is never replaced; a failure is a stray, has a failing call behind it, or means the others acted on this destination; no stray is left where staged names can be removed |
| Credentials.Installer.ReplaceNew | src/codex_telegram_bridge/cli.py:582-588 | The staged token takes the destination and is recorded exactly when the call succeeds |
| Credentials.Installer.CommitOne | src/codex_telegram_bridge/cli.py:577-612 | A turn that succeeds leaves the destination showing its token; one that fails left a stray, has a failing call behind it, or the others acted on this destination, and at most this destination changed; no stray where staged names can be removed |
| Credentials.Installer.CommitAll | src/codex_telegram_bridge/cli.py:577-612 | The targets are committed in order; on an error exactly those recorded, and at most the next one as a stray, show a token; every recorded token the others left alone still stands; without a stray, a failing call or an act on a destination there is no error |
| Credentials.Installer.DestinationMatches | src/codex_telegram_bridge/cli.py:480-491 | A destination is rolled back only while it still leads to the committed inode; the match is refused only if a call fails or the others acted on the destination |
| Credentials.Installer.PutBack | src/codex_telegram_bridge/cli.py:501-528 | Success leaves the destination with the content and mode of the snapshot; it fails only if a call fails or the others act on the destination |
| Credentials.Installer.TakeAway | src/codex_telegram_bridge/cli.py:529-531 | Success leaves no file at the destination; it fails only if a call does |
| Credentials.Installer.RestoreOne | src/codex_telegram_bridge/cli.py:495-533 | A turn of the rollback that succeeds shows what the snapshot saw; it fails only if a call fails meanwhile or the others have acted on the destination |
| Credentials.Installer.Restore | src/codex_telegram_bridge/cli.py:494-533 | Rolling back last to first leaves no token behind but a stray; it fails only if a call fails meanwhile or the others have acted on a committed destination |
| Credentials.Installer.TakeSnapshots | src/codex_telegram_bridge/cli.py:553-563 | Every target is snapshot; an error means a failing call, an act of the others on a destination, or a file that was there from the start and that no order may replace |
| Credentials.Installer.StageAll | src/codex_telegram_bridge/cli.py:567-576 | Every token is staged, or an error was caused by a failing call |
| Credentials.Installer.CleanUp | src/codex_telegram_bridge/cli.py:631-637 | Removing staged names changes no destination |
| Credentials.Installer.Install | src/codex_telegram_bridge/cli.py:536-643 | All or nothing under failure of any call, on any write sizes and any interference: success and the committed error mean every untouched destination holds its token with mode 0600, and the finalizer completed or was left unconfirmed; an ordinary error means readers find what the others left at every destination but a stray one; with the others idle, an ordinary error has restored every destination whenever there is force or the order cannot link. Unless the others act on a destination, only a fit order succeeds, without a failing call and without a stray the outcome is the expected one (the finalizer's for a fit order, refusal for any other), and a rollback is left incomplete only by a second failing call, or by one after a stray or a finalizer that broke. No stray is left where staged names can be removed; the failures counted are at most the moments at which something can go wrong |
| Credentials.OneFault | src/codex_telegram_bridge/cli.py:536-643 | Single-fault tolerance: where nobody else acts and one call at most goes wrong, any order ends with all its tokens in place or, exactly when no stray was left, with every destination as before; only the rollback after a finalizer that breaks can be left incomplete |
| CredentialDisk.SnapshotsSpeak | src/codex_telegram_bridge/cli.py:553-566 | Snapshots taken one after the other, between turns of the others, decide whether the order was fit at the start, unless the others acted on a destination |
| Credentials.WorstCase | src/codex_telegram_bridge/cli.py:589-604 | In the environment that refuses only the removal of staged names after a link, an order ends with an ordinary error that has not restored everything, its first token visible, if and only if there is no force and all its destinations are different and missing |
| Credentials.Installer.GiveUp | src/codex_telegram_bridge/cli.py:419-425 | A failed staging closes its descriptor and removes at most the last name it drew, which after 128 collisions may be another's |
| Credentials.Installer.CheckUnchanged | src/codex_telegram_bridge/cli.py:580-581 | Going on means the destination is as in the snapshot and not the installer's; an error means a call failed or the others acted on the destination |
| Credentials.Installer.CheckCommitted | src/codex_telegram_bridge/cli.py:606-612 | Success means readers of the destination see the token now; an error means a call failed or the others acted on the destination |
| Credentials.Installer.ConfirmCommitted | src/codex_telegram_bridge/cli.py:605-612 | After the directory is synced and the others had a turn, success means readers see the token; an error means a failing call or an act of the others on the destination |
| Credentials.Installer.LinkAndRecord | src/codex_telegram_bridge/cli.py:602-604 | Once linked, a stray is left exactly when the removal of the staged name fails; otherwise the token is recorded |
| Credentials.Installer.StageCopy | src/codex_telegram_bridge/cli.py:501-507 | A copy of what the snapshot saw, under a name and inode of its own; refused only if a call fails |
| Credentials.Installer.MoveBack | src/codex_telegram_bridge/cli.py:508-528 | The copy takes the place of the token; otherwise a call failed and the copy is dropped |
| Credentials.Installer.ConfirmReturned | src/codex_telegram_bridge/cli.py:516-523 | Success means readers see the content and mode of the snapshot; a refusal means a failing call or an act of the others on the destination |
| Credentials.Installer.TakeSnapshot | src/codex_telegram_bridge/cli.py:554-563 | The target records what is there now |
| Credentials.Installer.Prepare | src/codex_telegram_bridge/cli.py:552-576 | Snapshots, the refusal of existing files and staging: nothing is committed; going on means everything is staged and, unless the others acted on a destination, the order was fit and without force linkable; an error means a failing call, an act on a destination, or an order that is not fit |
| Credentials.Installer.Body | src/codex_telegram_bridge/cli.py:548-614 | How the body of the transaction ends, and what is committed or stray then: a normal end is the finalizer's; unless the others act on a destination, only a fit order ends normally, and without a stray or a failing call every fit order reaches the finalizer and every other one is refused; no stray where staged names can be removed |
| Credentials.Installer.Recover | src/codex_telegram_bridge/cli.py:621-625 | A complete rollback leaves what the others left except at a stray; it is asked for only if something was committed, and fails only if a call fails or the others have acted on a committed destination |
| Credentials.Installer.Settle | src/codex_telegram_bridge/cli.py:615-630 | The except clause: which error is reported, what readers find after it, and that an incomplete rollback needs a failing call during it or an act on a destination |
| Credentials.Installer.Attempt | src/codex_telegram_bridge/cli.py:548-630 | The verdict before the clean-up, causes of the outcome included; no stray where staged names can be removed |
| TurnGate.StepKeepsValid | src/codex_telegram_bridge/bridge.py:1105-1133 | Every begin, bind, completion and release keeps: a thread has a gate exactly when its lock is held |
| TurnGate.RunKeepsValid | src/codex_telegram_bridge/bridge.py:1105-1133 | So does every run |
| TurnGate.RememberPushes | src/codex_telegram_bridge/bridge.py:2964-2968 | A fresh marker moves the others one place towards being forgotten; a known one moves nothing |
| TurnGate.RememberedExactlyFor512 | src/codex_telegram_bridge/bridge.py:2964-2968 | A completion is still remembered after a run if and only if fewer than 512 fresh ones followed it |
| TurnGate.BindReleasesIffRemembered | src/codex_telegram_bridge/bridge.py:1113-1121 | Binding a turn releases the gate with one queue request if and only if its completion is remembered |
| TurnGate.GatesOpenExactly | src/codex_telegram_bridge/bridge.py:1105-1167 | Every gate after any event: begun with nothing to wait for, given its turn to wait for, opened with one queue request unless it was forced, or as it was |
| TurnGate.Rendezvous | src/codex_telegram_bridge/bridge.py:1105-1167 | In any run without a forced release and with fewer than 512 other completions, the gate opens exactly when the turn was both bound and completed, in either order, or when a receipt reconciles it after it was bound, with exactly one queue request; other turns never open it |
| TurnGate.TurnGates.BeginTurnGate | src/codex_telegram_bridge/bridge.py:1105-1111 | Begins exactly when the thread has no gate |
| TurnGate.TurnGates.ReleaseTurnGate | src/codex_telegram_bridge/bridge.py:1123-1133 | Releases exactly a gate that waits for this turn, or any gate when no turn is named |
| TurnGate.TurnGates.BindTurnGate | src/codex_telegram_bridge/bridge.py:1113-1121 | Binds the gate of this prompt only, and releases it if the turn is already over |
| TurnGate.TurnGates.ReconcileTurn | src/codex_telegram_bridge/bridge.py:1155-1170 | A receipt binds the turn it names and, if that turn is over, releases the gate with a queue request |
| TurnGate.TurnGates.TurnCompleted | src/codex_telegram_bridge/bridge.py:2964-2976 | Remembers the turn and opens the gate that waits for it |
| TurnGate.TurnGates.RememberTerminal | src/codex_telegram_bridge/bridge.py:2965-2968 | The trimming loop keeps the newest 512 markers in order |
| QueueDispatch.StepKeepsValid | src/codex_telegram_bridge/bridge.py:2326-2499 | Every event keeps what each dispatcher may rely on about its entry and the server |
| QueueDispatch.AtMostOneTurnPerPrompt | src/codex_telegram_bridge/bridge.py:2326-2499 | Over all failures, cancellations and restarts the server starts at most one turn per queued prompt; dispatched entries started one, rejected entries none |
| QueueDispatch.LeftForGood | src/codex_telegram_bridge/bridge.py:2545-2585 | An entry that left the queue keeps its state and never starts another turn |
| QueueRuns.TurnsAreApplications | src/codex_telegram_bridge/bridge.py:2326-2499 | Whatever locks and gates do, the turns of a prompt are the starts of it that the server applied in the run |
| QueueRuns.FailedForLackOfDirectory | src/codex_telegram_bridge/bridge.py:2382-2402 | After any solo run, an entry failed because the directory is gone has a turn, then and ever after, if and only if that run applied a start of it: the check comes before any receipt is read |
| QueueRuns.FailedThoughStarted | src/codex_telegram_bridge/bridge.py:2382-2402 | For every prompt and lock: the run in which the start is applied, its answer is lost, no receipt can be read and the directory is then gone ends with the prompt reported as never started and one turn |
| QueuePick.StepKeepsCareful | src/codex_telegram_bridge/bridge.py:2326-2499 | An event that picks no entry whose turn another dispatcher may still start keeps: one such dispatcher an entry, answers that are still true, one turn a prompt |
| QueuePick.WellPickedStartsOneTurn | src/codex_telegram_bridge/bridge.py:2326-2499 | In every run of such events the server starts at most one turn per prompt, however many dispatchers work on it |
| QueuePick.CarefulFromTheStart | src/codex_telegram_bridge/bridge.py:2326-2499 | From the empty queue on: any run in which every entry has one dispatcher, followed by any with careful picks, starts at most one turn per prompt |
| QueuePick.PickIsSafeExactlyWhenNobodyMayStart | src/codex_telegram_bridge/bridge.py:2335-2402 | Picking an entry under a free lock keeps at most one turn per prompt in every later run with careful picks, and in every later run with one dispatcher an entry, if and only if no other dispatcher may still start its turn (it has not been told of one and its start is not applied) |
| QueuePick.UnsafePick | src/codex_telegram_bridge/bridge.py:2335-2437 | From any state where another dispatcher may still start the turn, picking the entry has a continuation without further picks that starts two turns |
| QueueRuns.SpacePromptsHaveTwoLocks | src/codex_telegram_bridge/bridge.py:2335-2337 | Exactly the queued prompts of a space can be picked under two different locks |
| QueueRuns.TwoLocksStartTwoTurns | src/codex_telegram_bridge/bridge.py:2335-2337 | For every such prompt a run from the empty queue starts two turns: the thread queue and the space queue use different locks, and a forced release lets both start |
| QueueGate.StepKeepsGated | src/codex_telegram_bridge/bridge.py:2402-2445 | An event that opens no gate over an unapplied start, nor before a dispatcher with a stale negative receipt, keeps: every such start holds the gate of its thread for its prompt, every stale receipt waits behind a shut gate, and no prompt has two turns |
| QueueGate.GateAloneBoundsTurns | src/codex_telegram_bridge/bridge.py:2402-2479 | Whatever locks are held and however many dispatchers pick one entry: while no gate opens over a start in flight or before a stale negative receipt, the server starts at most one turn per prompt and one start per thread is in flight |
| QueueOpening.StepKeepsGuarded | src/codex_telegram_bridge/bridge.py:2402-2445 | The same with a weaker demand: only a start that another dispatcher could repeat (it lists the entry, has not learnt of a turn, or has its own start unapplied) needs its gate, and every event that opens no gate over such a start nor before a stale negative receipt keeps this |
| QueueOpening.StepIsSafeExactlyWhenGuarded | src/codex_telegram_bridge/bridge.py:2402-2479 | Any event in such a state is safe, in that every later run that opens gates with the same care starts at most one turn per prompt, if and only if it opens no gate over a start that could be repeated and none before a stale negative receipt; otherwise some such run starts two turns |
| QueueOpening.OpeningIsSafeExactlyWhenNobodyStartsTwice | src/codex_telegram_bridge/bridge.py:1123-1133 | What can be looked up before a gate is opened: opening it is safe in that sense if and only if no start under way in its thread could be repeated and no dispatcher behind it holds a stale negative receipt |
| QueueOpening.GatedIsGuarded | src/codex_telegram_bridge/bridge.py:2402-2445 | The states and the rule of QueueGate are a special case |
| QueueOpening.GuardedFromTheStart | src/codex_telegram_bridge/bridge.py:2402-2479 | In every run from the empty queue that opens gates with this care the server starts at most one turn per prompt |
| QueueRuns.StaleAnswerStartsTwoTurns | src/codex_telegram_bridge/bridge.py:2402-2437 | The first half of that condition is not enough: in this run, for every prompt of a space, no gate opens over a start in flight, and the prompt has two turns because a receipt was read before the first start |
| QueueOutcomes.LeavesExactlyWhenTold | src/codex_telegram_bridge/bridge.py:2382-2498 | For a queued prompt and any event: dispatched if and only if its turn is known of (a receipt before or after the start, or the start returned), rejected if and only if the server refused the start and has no turn, failed if and only if it is picked without a directory, cancelled if and only if the user takes it back |
| QueueOutcomes.FoundTurnIsDispatched | src/codex_telegram_bridge/bridge.py:2402-2429 | From any state with a free lock: a queued prompt that has its turn is dispatched by the next attempt, and no turn is added |
| QueueOutcomes.FreshPromptIsDispatched | src/codex_telegram_bridge/bridge.py:2430-2499 | One without a turn, behind a free gate, gets exactly one and is dispatched, with the gate held for it |
| QueueOutcomes.ShutGateKeepsQueued | src/codex_telegram_bridge/bridge.py:2430-2431 | Behind a shut gate it stays queued without a turn, and the attempt is over |
| QueueOutcomes.FailedStartIsSortedOut | src/codex_telegram_bridge/bridge.py:2465-2498 | When the start call raises and a receipt can be read: dispatched with its one turn if it was applied, whatever the error; otherwise rejected with the gate open if the server refused it, and queued behind its gate if not |
| QueueOutcomes.UnreadableReceiptPostpones | src/codex_telegram_bridge/bridge.py:2406-2409 | A receipt that cannot be read ends the attempt and changes nothing else |
| QueueOutcomes.LocksHeldExactly | src/codex_telegram_bridge/bridge.py:2335-2337 | A lock is held exactly from the pick of an entry until its dispatcher releases it, is cancelled, or the process ends |
| QueueOutcomes.RestartedQueueMoves | src/codex_telegram_bridge/bridge.py:2326-2499 | After a restart of the process, whatever locks and gates there were, the next attempt dispatches a queued prompt with the turn it has or with its first one |
| QueueDispatch.PromptQueue.Dispatch | src/codex_telegram_bridge/bridge.py:2335-2402 | Nothing happens under a held lock; without a directory the entry fails; otherwise a receipt is asked for |
| QueueDispatch.PromptQueue.ServerAnswers | src/codex_telegram_bridge/codex.py:924-951 | The server's answer is a snapshot: it is fixed before the dispatcher resumes and does not change afterwards |
| QueueDispatch.PromptQueue.ReceiptBeforeStart | src/codex_telegram_bridge/bridge.py:2402-2437 | The dispatcher resumes with the answer it was given, however old: no answer postpones, a receipt leads to dispatch, none leads to a start if the gate is free; where each of these ends is QueueOutcomes.FoundTurnIsDispatched and the lemmas beside it |
| QueueDispatch.PromptQueue.ReconcilePromptDelivery | src/codex_telegram_bridge/bridge.py:2465-2498 | After a failed start the entry is dispatched, rejected or kept, by receipt and kind of error |
| QueueDispatch.PromptQueue.MarkPromptDispatched | src/codex_telegram_bridge/bridge.py:2410-2429 | Only an entry still queued is marked |
| DeliveryInvariants.StepKeepsValid | src/codex_telegram_bridge/delivery.py:113-327 | Every event keeps the tables of deliveries, pendings, tasks and workers consistent |
| DeliveryInvariants.TryKeeps | src/codex_telegram_bridge/delivery.py:198-212 | An attempt is the first one of its revision and newer than every earlier edit of the message |
| DeliveryInvariants.EnsureKeepsCrew | src/codex_telegram_bridge/delivery.py:301-308 | Ensuring a worker never makes a second one for a message |
| DeliveryEngine.OneWorkerPerMessage | src/codex_telegram_bridge/delivery.py:195-278 | In every run a message has at most one live worker, and a pending message has one until the engine is stopping |
| DeliveryEngine.EditsGoOutInOrder | src/codex_telegram_bridge/delivery.py:195-212 | Edits of one message are begun in strictly increasing revisions, so each revision is tried at most once |
| DeliveryEngine.OnlyTheLatestWaits | src/codex_telegram_bridge/delivery.py:137-160 | A future that still waits belongs to the latest admitted revision of its message |
| DeliveryEngine.OutcomesAreFinal | src/codex_telegram_bridge/delivery.py:310-327 | A future gets one outcome over any run, and "performed" only at a point where its edit succeeded while it was current |
| DeliveryOutcomes.OneCauseForEachOutcome | src/codex_telegram_bridge/delivery.py:213-253 | A delivery that waits is delivered if and only if its edit succeeded while it was current, a transient failure if and only if the transport failed then, a permanent one if and only if Telegram refused it or something unexpected came, superseded if and only if a newer payload of its message was admitted or a stop withdrew it |
| DeliveryOutcomes.OutcomesHaveOneCause | src/codex_telegram_bridge/delivery.py:310-327 | Over any run it ends with an outcome if and only if some event told it that one, and then for good |
| DeliveryOutcomes.AdmittedExactlyWhenNew | src/codex_telegram_bridge/delivery.py:113-160 | A submission becomes the next revision, which waits and has a worker, if and only if work is accepted and it differs from the pending payload and from the one delivered last |
| DeliveryOutcomes.SamePayloadJoins | src/codex_telegram_bridge/delivery.py:118-125 | The pending payload again joins it; the first terminal one makes it terminal and due no later than now |
| DeliveryOutcomes.TriedExactlyWhenDue | src/codex_telegram_bridge/delivery.py:198-212 | An edit is begun exactly when a worker looks, what is pending for its message is due and no stop is under way; it is that of the pending revision |
| DeliveryOutcomes.DeliveredExactlyWhenEdited | src/codex_telegram_bridge/delivery.py:244-262 | What counts as delivered changes exactly when a current edit succeeds |
| DeliveryOutcomes.WorkersMoveExactly | src/codex_telegram_bridge/delivery.py:195-278 | A worker asleep wakes, one whose edit ended looks again, one with nothing to do or under a stop leaves, and nothing else takes it away |
| DeliveryOutcomes.StagesFollowTheCalls | src/codex_telegram_bridge/delivery.py:95-193 | Started, accepting, draining and stopping follow from the calls of start and stop, and a stop ends only once all workers are gone, with nothing pending |
| DeliveryEngine.CachedAnswerChangesNothing | src/codex_telegram_bridge/delivery.py:116-135 | A submit is answered without a new revision exactly when it equals the pending payload or the last delivered one, and then nothing pending changes |
| DeliveryEngine.StopAnswersEverything | src/codex_telegram_bridge/delivery.py:162-193 | Once stopped, every future has its outcome and no worker or pending delivery is left |
| DeliveryEngine.TelegramDeliveryEngine.StartEngine | src/codex_telegram_bridge/delivery.py:95-100 | Starting accepts work again unless started |
| DeliveryEngine.TelegramDeliveryEngine.Settle | src/codex_telegram_bridge/delivery.py:213-253 | A current delivery leaves with the outcome of its edit, which is that of DeliveryOutcomes.OneCauseForEachOutcome; only a successful one changes what counts as delivered |
| DeliveryEngine.TelegramDeliveryEngine.SubmitIntent | src/codex_telegram_bridge/delivery.py:113-160 | Refused exactly when not accepting; otherwise the future of the pending revision or a delivered answer |
| DeliveryEngine.TelegramDeliveryEngine.Admit | src/codex_telegram_bridge/delivery.py:137-160 | The new revision supersedes the pending one and has a worker |
| DeliveryEngine.TelegramDeliveryEngine.WorkerLooks | src/codex_telegram_bridge/delivery.py:198-212 | One turn of the loop: exit, sleep or try |
| DeliveryEngine.TelegramDeliveryEngine.WorkerExits | src/codex_telegram_bridge/delivery.py:272-278 | The worker forgets itself and leaves a pending message a new worker |
| DeliveryEngine.TelegramDeliveryEngine.WorkerEdited | src/codex_telegram_bridge/delivery.py:213-262 | The outcome counts only for a delivery that is still current |
| DeliveryEngine.TelegramDeliveryEngine.Supersede | src/codex_telegram_bridge/delivery.py:166-170 | The loop pops and supersedes exactly these deliveries |
| DeliveryEngine.TelegramDeliveryEngine.BeginStop | src/codex_telegram_bridge/delivery.py:162-172 | Only terminal deliveries survive the beginning of a stop |
| DeliveryEngine.TelegramDeliveryEngine.EndStop | src/codex_telegram_bridge/delivery.py:188-193 | The end of a stop leaves no future waiting |
| ServerRequests.FirstIdle | src/codex_telegram_bridge/codex.py:709-716 | The selected request is the first whose thread is idle |
| ServerRequests.PumpKeeps | src/codex_telegram_bridge/codex.py:704-734 | Pumping keeps exclusion, bounds, order and account, and ends with an empty queue, full workers or only busy threads |
| ServerRequests.StartKeepsOrder | src/codex_telegram_bridge/codex.py:709-722 | Starting the first idle request starts no thread out of order |
| ServerRequests.RunKeepsValid | src/codex_telegram_bridge/codex.py:678-760 | Every run keeps the invariant |
| ServerRequests.BoundedAndExclusive | src/codex_telegram_bridge/codex.py:678-749 | Queue and workers stay within their limits, the active threads are exactly those of the running requests, one each, and every accepted request is queued, started or dropped |
| ServerRequests.StartsInArrivalOrder | src/codex_telegram_bridge/codex.py:704-734 | Over any run requests of one thread start in arrival order |
| ServerRequests.NeverIdleInVain | src/codex_telegram_bridge/codex.py:704-749 | Over any run, unless a request to stop stands (no later start found its connection ended), whatever waits finds all workers busy or its own thread busy |
| ServerRequests.StoppingExactlyWhenRequested | src/codex_telegram_bridge/codex.py:276-304 | After any run the pump is stopping if and only if a stop was asked for and no start since then found its connection ended |
| ServerRequests.RunningExactlyTheStarted | src/codex_telegram_bridge/codex.py:704-749 | What runs after an event is what ran before, less the request that ended, plus those started; requests start only on an arrival, or on an end while no stop is under way |
| ServerRequests.ArrivalIsTaken | src/codex_telegram_bridge/codex.py:678-702 | A request is turned away exactly at capacity; otherwise it gets the next number and waits or has started |
| ServerRequests.ClearingDropsTheQueue | src/codex_telegram_bridge/codex.py:751-752 | A lost connection drops exactly what waits |
| ServerRequests.ServerRequestPump.Enqueue | src/codex_telegram_bridge/codex.py:678-702 | Refused exactly at capacity; otherwise queued and pumped |
| ServerRequests.ServerRequestPump.PumpRequests | src/codex_telegram_bridge/codex.py:704-734 | The loop computes the pumped state |
| ServerRequests.ServerRequestPump.IdleIndex | src/codex_telegram_bridge/codex.py:709-716 | The search finds the first request of an idle thread |
| ServerRequests.ServerRequestPump.RequestFinished | src/codex_telegram_bridge/codex.py:736-749 | The thread becomes idle and, unless stopping, the pump runs |
| ServerRequests.ServerRequestPump.Start | src/codex_telegram_bridge/codex.py:276-280 | A start clears the stopping flag exactly if the connection has ended, which left no queue behind |
| ServerRequests.ServerRequestPump.Clear | src/codex_telegram_bridge/codex.py:751-752 | A lost connection drops what was queued and nothing that was started |
| SideQuestion.LastIn | src/codex_telegram_bridge/codex.py:94-100 | The last message of a phase, if there is one |
| SideQuestion.OutcomeIs | src/codex_telegram_bridge/codex.py:110-155 | For any events and any position of the binding, the outcome is the verdict on the turn's own events up to the first point at or after the binding where they are final, or none; what that verdict says is SideAnswer.AnswerIs |
| SideQuestion.BindingTimeMattersExactlyWhen | src/codex_telegram_bridge/codex.py:110-155 | For any events, every position of the binding gives the same outcome if and only if the turn's own events never make it final, or make it final at the end and with one verdict at every point where it is final |
| SideQuestion.AnswerIgnoresBindingTime | src/codex_telegram_bridge/codex.py:77-155 | In particular with exactly one final completion that is the turn's last event |
| SideQuestion.OtherTurnsDoNotMatter | src/codex_telegram_bridge/codex.py:116-135 | Events of other turns, however interleaved, do not change the capture |
| SideQuestion.StragglersTellBindingsApart | src/codex_telegram_bridge/codex.py:116-155 | A message after the completion is heard by a late binding and not by an early one: these events have two verdicts |
| SideAnswer.AnswerIs | src/codex_telegram_bridge/codex.py:77-155 | For any events and any position of the binding: there is an answer if and only if from then on the turn's last completion at some point says completed, failed or interrupted, and at the first such point it is the last final answer, or else the last message without a phase, or none; the last error not retried; or that it was interrupted |
| SideAnswer.AnswerOfCompletedTurn | src/codex_telegram_bridge/codex.py:94-155 | A turn completed once, by its last event, answers exactly that whenever it is bound |
| SideAnswer.CapturedMessages | src/codex_telegram_bridge/codex.py:83-92 | The messages captured of a turn are a table of what was heard of it: every id once, as last heard, in the place where it was first heard |
| SideAnswer.LastWordIsOne | src/codex_telegram_bridge/codex.py:94-100 | There is one last message of a phase at most |
| SideAnswer.CapturedError | src/codex_telegram_bridge/codex.py:122-131 | The captured error is that of the last report that is not retried or completion with one, and a generic text if it is empty |
| SideQuestion.IsolatedQuestion.BindTurn | src/codex_telegram_bridge/codex.py:110-114 | Fails exactly for a second, different turn; otherwise binds and finishes if ready |
| SideQuestion.IsolatedQuestion.RecordAll | src/codex_telegram_bridge/codex.py:83-92 | The loop records the non-empty agent messages in order |
| SideQuestion.IsolatedQuestion.IngestEvent | src/codex_telegram_bridge/codex.py:116-135 | Each kind of notification changes the capture of its own turn |
| Interest.ClosedHoldsReachable | src/codex_telegram_bridge/bridge.py:788-800 | A set closed under child links that holds the roots holds everything reachable |
| Interest.Expand | src/codex_telegram_bridge/bridge.py:791-799 | Following the links of one parent keeps the set sound |
| Interest.Reachable | src/codex_telegram_bridge/bridge.py:788-800 | On any graph, cyclic or with unknown threads, the worklist ends with exactly the threads reachable from the roots |
| Interest.ManagedThreads.ManagedThreadIds | src/codex_telegram_bridge/bridge.py:784-802 | The managed ids are exactly the reachable threads and the provisional ones; the cache is reused only for the same roots |
| TaskTable.LessTotal | src/codex_telegram_bridge/projector.py:819 | String comparison is total |
| TaskTable.SortFound | src/codex_telegram_bridge/projector.py:819 | Sorting keeps the same tasks, ordered by update time and id |
| TaskTable.NewestKeepsTheNewest | src/codex_telegram_bridge/projector.py:819 | At most fifty tasks are kept, with distinct ids, and none left out is newer than one kept |
| Projector.Merged | src/codex_telegram_bridge/projector.py:760-818 | A merged task carries the reported id; history never reopens a task that ended; a task that ended has an end time |
| Projector.Reconcile | src/codex_telegram_bridge/projector.py:333-387 | A child reopens an ended task only if it is active and moved on after the end; an idle child does not turn a failure into success |
| Projector.FinalizeTask | src/codex_telegram_bridge/projector.py:402-414 | What is still active after finalizing has a stored child thread that is active; what ended is untouched |
| Projector.ReconcileIsIdempotent | src/codex_telegram_bridge/projector.py:333-387 | Reconciling twice with the same child and clock is reconciling once |
| Projector.PutFound | src/codex_telegram_bridge/projector.py:787-818 | Storing a task under its id replaces that one and keeps ids unique |
| Projector.TalliesPartition | src/codex_telegram_bridge/projector.py:390-400 | The three tallies of a table with known statuses add up to its size |
| Projector.MergeAllKeeps | src/codex_telegram_bridge/projector.py:749-820 | Any number of reports keeps ids unique and statuses known |
| TaskLaws.CallMergesEachAgent | src/codex_telegram_bridge/projector.py:749-818 | A call leaves every agent it reports on with its merged task, made from what was known before the call, and every other task as it was |
| TaskLaws.ReportDecidesState | src/codex_telegram_bridge/projector.py:887-901 | A report puts the task into the group its word names: done, failed, at work, or waiting for any other word; only history that knows less leaves the state as it is |
| TaskLaws.ReportKeepsTimes | src/codex_telegram_bridge/projector.py:773-782 | A task begins when first seen waiting or at work and keeps that time; its first end is kept until it is reopened |
| TaskLaws.ReportKeepsNames | src/codex_telegram_bridge/projector.py:783-817 | What the child thread knows comes first, then what a spawn said of its receivers, then what was known before |
| TaskLaws.ActivityDecidesState | src/codex_telegram_bridge/projector.py:826-873 | An interruption ends the task, a start or an exchange puts it to work unless history tells it of an ended one, anything else leaves its state |
| TaskLaws.ChildDecidesState | src/codex_telegram_bridge/projector.py:333-387 | An active child puts its task to work, one in error fails it, an idle or unloaded one is done unless the task had ended otherwise; old news and unknown states change nothing |
| TaskLaws.FinalizingEndsWhatHasNoLiveChild | src/codex_telegram_bridge/projector.py:402-415 | Finalizing: an active task goes on only with an active child; otherwise it ends as its child says or is shut down |
| TaskLaws.SyncingTakesTheChildsNames | src/codex_telegram_bridge/projector.py:276-320 | Following a child also takes over the names it knows of itself |
| Projector.FinalizedTable | src/codex_telegram_bridge/projector.py:402-415 | Finalizing keeps the table and leaves only live tasks active |
| Projector.ThreadState.constructor | src/codex_telegram_bridge/models.py:115-158 | A new thread has no tasks and zero counters |
| Projector.ThreadState.RefreshAgentCounts | src/codex_telegram_bridge/projector.py:390-400 | The counters become the tallies, and their sum the number of tasks |
| Projector.ThreadState.CollabAgentCall | src/codex_telegram_bridge/projector.py:749-825 | The loop over reports merges them and keeps the newest fifty; counters match |
| Projector.ThreadState.SubAgentActivity | src/codex_telegram_bridge/projector.py:826-873 | One agent's activity updates its task; counters match |
| Projector.ThreadState.ReconcileTasksFromChildren | src/codex_telegram_bridge/projector.py:322-330 | Every task follows its stored child, and the result tells whether anything changed |
| Projector.ThreadState.FinalizeActiveTasks | src/codex_telegram_bridge/projector.py:402-415 | Every active task is finalized in place |
| Projector.ThreadState.SyncAgentMetadata | src/codex_telegram_bridge/projector.py:276-320 | The first task that concerns the child follows it, no other |
| Projector.ThreadState.ApplyGoal | src/codex_telegram_bridge/projector.py:154-163 | A goal that becomes complete leaves only tasks with a live child active |
| Projector.ThreadState.ApplyGoalNotification | src/codex_telegram_bridge/projector.py:165-190 | The same for notifications; what is visible is saved, and an invisible change shows no other goal or status |
| Goal.RegisterHoldsLatest | src/codex_telegram_bridge/projector.py:199-212 | Folding any updates: after the last one without a time, the latest time remains, complete if and only if some update of that time is complete |
| Goal.LastOfTheLatestRemains | src/codex_telegram_bridge/projector.py:199-212 | What remains is one of those updates as a whole: of the latest time, complete if any of that time is, and the last such one to arrive |
| Goal.ArrivalOrderDoesNotMatter | src/codex_telegram_bridge/projector.py:199-212 | Updates with times end at the same time and completeness in any arrival order |
| NewCommand.Split | src/codex_telegram_bridge/control_bot.py:1346 | Splitting with a limit gives at most limit + 1 parts, and only the last may hold a bar |
| NewParsing.ParseIsMeaning | src/codex_telegram_bridge/control_bot.py:1335-1378 | For every text the parser reads exactly this: the first two pieces between bars as model and effort, refused if one is blank; the third as mode; after planmode two more pieces, refused if one is blank, then directory and prompt; after noplan these at once; the prompt is everything that is left |
| NewParsing.SplitIs | src/codex_telegram_bridge/control_bot.py:1346 | A limited split gives the first pieces between all bars, and whatever follows as the last one |
| NewCommand.RoundTrip | src/codex_telegram_bridge/control_bot.py:1335-1378 | Parsing a printed suggestion gives back its fields, bars in the prompt included, if and only if a prompt comes with a directory and neither comes without a mode |
| NewCommand.ParsedIsWellFormed | src/codex_telegram_bridge/control_bot.py:1335-1378 | Whatever is parsed, model and effort are trimmed, non-empty and free of bars, and so is every further field under no mode or a known one, bars in the prompt aside; any other mode, the empty one included, is trimmed, folded and free of bars, and nothing follows it |
| NewCommand.ReprintedIsStable | src/codex_telegram_bridge/control_bot.py:1432-1448 | Printing what was parsed, under any mode, and parsing it again changes nothing if and only if no prompt lacks its directory, neither comes without a mode, and the mode is not the empty one |
| NewCommand.StrayPrompt | src/codex_telegram_bridge/control_bot.py:1373-1377 | A prompt printed in the place of the directory never comes back as it was |
| NewCommand.BuildSuggestion | src/codex_telegram_bridge/control_bot.py:1432-1448 | Appending the fields and joining them gives the printed form |
| Text.StripFound | src/codex_telegram_bridge/control_bot.py:1348-1349 | Stripping removes white space at both ends, all of it and nothing else |

## Left out

- OutboundMessenger: jobs are values in a table keyed by sequence number, and a worker's stack is the phase of its slot; aliasing of job objects, metrics, the journal's text, log lines and wake-up events are not modelled.
- OutboundModel: pacing of maintenance and group chats is one step of unspecified length, because its clocks decide only when, not what, is sent; a worker is cancelled only by `stop`, never by the library it waits in.
- OutboundResults.NoLateSendWithoutInterval: is stated for the interval off; with an explicit interval a call superseded during the wait is still sent (outbound.py:508-513), which the model keeps as it is.
- OutboundResults.OneWorkerPerChat: is about workers of one generation; a worker of an older one may still be inside an attempt for a chat that a live one serves, when `stop` gave up waiting for it.
- Credentials.OneFault: one call going wrong also stands for one write that writes nothing, one drawn name that is taken and one directory that is no longer the named one; the finalizer is an input of its own.
- CredentialDisk: an encoded file is a sequence of characters; a staged name never coincides with a destination's; whether a drawn name is taken is an input, and a name that is not taken is any name not in the directory; opening and locking the directories come before any change and are not modelled; the durability that `fsync` adds is not observable in the model.
- Credentials.Installer.Install: other processes act before the snapshot check, before a link, before each verification, before finalize and before the rollback check, but not between the check and the replace (cli.py:580-588, 498-514), where the source relies on its directory lock; they do not write into the file just installed; a keyboard interrupt between two statements is not modelled; targets are values in the transaction's list.
- Credentials.Installer.Install: the finalizer is one step that completes, fails, or reports that its file was replaced without confirmation; the rewriting of the legacy sources behind it (cli.py:727-810) is not part of this model.
- TurnGate.Rendezvous: assumes no forced release of the gate during the run (bridge.py:436, 667, 1176, 1200, 2479), since a forced release does not ask whose gate it is, and no settlement of a pending review (bridge.py:1213), which gives a turn up by name without a queue request.
- QueueDispatch.AtMostOneTurnPerPrompt: assumes that an entry has one dispatcher at a time (`QueuePick.WellPickedStartsOneTurn`, `QueueGate.GateAloneBoundsTurns` and `QueueOpening.GuardedFromTheStart` assume less) and that a failed start was applied before it raised or never; the store is a table with compare-and-set on the entry's state, and prompt intents, runs and dashboards are left out.
- Interest.ManagedThreads.ManagedThreadIds: whether the cached graph is still the stored one when the roots did not change is not claimed.
- ServerRequests: what a request handler does, and the waiting for cancelled tasks, are left out; a cancelled task is one that finished.
- SideQuestion: the timeout and cancellation of the caller's future are left out, and so is the JSON behind a notification.
- DeliveryModel: two overlapping `stop` calls are not modelled; a worker is cancelled only by `stop`, so a cancellation raised by the library inside an edit, after which the next worker would try the same revision again (delivery.py:272-278), is not; wake-up events only decide when a worker looks again, so a worker may look at any time.
- DeliveryEngine.OutcomesAreFinal: says nothing about the text Telegram shows; the last delivered fingerprint is what the engine believes.
- TaskTable: tasks are values in the thread's list, and the dictionary of merged tasks is a list with distinct ids.
- Projector: activity logs, prompts and text shortening are left out, and so is the profile refresh that sets a status without refreshing the counters (bridge.py:3109-3117).
- Goal: an update that is not a dictionary clears the goal; other fields of a goal are carried but not interpreted.
- NewCommand: case folding is that of ASCII letters, which is exact for recognising the two modes; the nearest model and effort are given to the printer, not computed.
- Telegram and websocket transport, approvals, dashboards, metrics, files, tmux and the wizard flow of the control bot are not part of this model: they would add formatting and input handling rather than protocol.

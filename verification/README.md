# A verified model of clidecar

clidecar keeps a fleet of Claude agents alive and mirrors each agent's turn into a chat channel. This project models
the three parts of it that hold state and must survive failures and concurrency, and proves what they promise:

- **The append-only message layout.** A turn's transcript becomes a growing sequence of display units; the units are
  laid over size-bounded messages, the fullest prefix frozen ("sealed") and the last message live. Any send or edit may
  fail, state is stored after every seal, and the progress and Stop hooks run one at a time under a lock.
- **The broker.** Concurrent senders, waiting claims, the agents' sockets, the routing table and the reaper, with each
  locked section and each unlocked transport or socket write as one atomic step.
- **Desired state.** The fleet store and its crashes, the owner's commands, the routing cache, the reconcile pass and
  the crash-loop guard.

`dafny verify dfyconfig.toml` checks it all.

## How the model is built

| module | models |
|---|---|
| `Text`, `Blanks`, `Lists`, `Wrappers` | the string and list operations the rest needs |
| `Layout`, `Widths`, `FenceMeaning`, `StrayFences` | rendering, fitting, the hard cut, the fence state, and what a cut does to code fences |
| `Transcript`, `UnitStability`, `Streaming`, `Closing` | rows to units, the streamed narration, the closing answer |
| `Spilling`, `Progress`, `Content`, `LostDeltas`, `Following`, `Rehoming` | the sealing loop, the progress hook, what its runs freeze, lose, follow and repeat |
| `LayOut`, `WideLines`, `Chunking`, `Stop`, `Overlap`, `Tombstone` | the cap, the chunks, the Stop hook, hooks in any order |
| `Arrival`, `Answer`, `Homes`, `HomeAnswer` | the whole turn: every unit arrives and no answer is lost silently, on one chain of messages and across re-homes |
| `Streamed`, `LostLine` | what a refused send loses |
| `Emitting`, `Exchange`, `Tally`, `Undelivered`, `Mediator` | `emit` under concurrency, inbound mediation under concurrency, the lines written, the messages refused, the Broker object |
| `FleetStore`, `Control`, `Refreshing` | the store, the commands and the gateway's cache, commands and refreshes that overlap |
| `Supervisor`, `Convergence` | the crash-loop guard and the reconcile pass; store, routes and processes together |

The channel is a trace of calls; whether the i-th call succeeds is an arbitrary oracle, and a message is named by its
place in the trace, so ids are fresh. A hook is a `class` (`Spilling.Hook`) whose methods run the loops of the source and are
proved equal to functions on the state (`SpillFrom`, `Progress.Step`, `LayOut.Laid`, `Stop.Committed`); the theorems are
about those functions and every run of them. `Mediator.Broker`, `Control.Controller` and `Supervisor.Sidecar` are classes in
the same way. The interleavings are runs of an arbitrary list of actions; an action whose thread is not ready does nothing.
`frozen` in `Spilling.Sys` is a history variable: it records what each seal froze and decides nothing; what a frozen message
holds is always stated of the text that the calls put on it. `Homes.Turn` adds the messages that a re-home left behind.

## Where the code falls short of its comments

The model follows the code. Each of these is a lemma with a concrete input, an exact condition, or both:

- `lay_out` returns True although a unit that is not the last one was cut at 1990 (`bridge/_hooklib.py:366`,
  `bridge/_hooklib.py:405-406`): `WideLines.WideLineIsCut`, exact condition in `WideLines.CoveredIsWholeIffUncut`.
- `fence_state` reads narration only, `_balance_fences` counts one line for each unit, and a reader sees every line. A
  subagent's task with a fence on a line of its own, or a search pattern with one, tells them apart:
  `StrayFences.TaskFenceIsStray`, `StrayFences.PatternFenceStaysOpen`, exact conditions in
  `FenceMeaning.MeaningKeptIffNoStrayFence` and `FenceMeaning.PostedIsBalancedIff`.
- The progress hook ignores whether its edit went through, and render may drop the oldest lines of a tail that a failed
  seal left too long; `shown` counts all of them, so a re-home starts behind lines that are on no message
  (`bridge/hook-progress.py:74-88`): `Rehoming.FailedEditExample`, `Rehoming.FailedSealExample`, exact condition in
  `Rehoming.LiveShowsTailIff`.
- A re-home starts at `shown`, which does not count streamed lines, so it repeats lines that spilled while streaming
  (`bridge/hook-progress.py:52-58`): `Rehoming.RehomeContinuesIffNotStreaming`.
- A streamed delta that changes nothing to be seen, such as a line break at the end, is not stored
  (`bridge/hook-progress.py:76-77`), so the joined segments are not the committed text, as `bridge/_hooklib.py:278-279` says,
  and a progress step shows the narration a second time once it is committed: `LostDeltas.LostLineBreak`, exact conditions in
  `LostDeltas.SegmentsAreTheTextIff` and `LostDeltas.ShownTwiceIff`.
- Nor is a delta stored whose send is refused (`bridge/hook-progress.py:80-83`). If a later line of that narration is then
  frozen, it is frozen at the lost line's place: after one refused send Stop reports the answer shown and leaves its
  tombstone, a line of the answer is on no message and in no record, no warning is sent, and the next line stands twice:
  `LostLine.RefusedSendLosesLine`, `LostLine.RefusedSendExample`, exact condition in `Streamed.StreamedTurnReadsWholeIff`.
- The locked part of Stop does not look at the tombstone again, so of two overlapping Stops both post:
  `Overlap.OverlappingStopsBothPost`, exact condition in `Overlap.SecondStopSilentIff`.
- It falls back on the state it read before its poll when the stored one is gone, and then edits a message that was frozen
  since (`bridge/hook-final.py:149`): `Overlap.StaleStopEditsFrozen`, exact condition in `Overlap.CommitEditsFrozenIff`.
- A Stop that looked before another left the tombstone can erase it: it caps and posts, and when that fails clears the stored
  state (`bridge/hook-final.py:51-58`), so a later progress step posts the turn anew: `Tombstone.SecondStopErases`, exact condition in
  `Tombstone.SilentIffNoneClears`.
- `chunks` puts the line break after a line instead of before it, so the first two lines of a chunk run together
  (`bridge/hook-final.py:34`): `Chunking.FirstTwoLinesRunTogether`, exact condition in `Chunking.PostedVerbatimIffOneLine`.
- `save` accepts an empty workdir, which `load` rejects; `set <id> workdir=` makes the store unreadable, every later command
  is refused and reconciling stops: `Control.EmptyWorkdirIsAccepted`, `Convergence.ErasedWorkdirFreezesFleet`, exact condition in
  `Control.AcceptedReadsIffWorkdirKept`.
- A command reads the store and saves it in separate steps, so of two that overlap one is lost, and a refresh installs
  routes it read earlier over newer ones: `Refreshing.OverlappingCommandsLoseOne`, `Refreshing.LateInstallIsStale`, exact conditions
  in `Refreshing.NoChangeLostIff` and `Refreshing.RoutesAreTheStoresIff`.
- `route_inbound` calls a message undelivered "if that channel maps to no attached agent"; it also does when the agent attached
  anew between the lookup and the push (`bridge/exchange.py:258-270`): `Undelivered.SupersededIsRefused`, exact condition in
  `Undelivered.ReachesNoOneIff`.
- The crash-loop guard lets MAX_RELAUNCHES + 1 relaunches through in a window, not MAX_RELAUNCHES, because the launch after a pause is
  not remembered (`bin/sidecar.sh:269-270`); and even that bound needs a pause longer than the window:
  `Supervisor.BoundIsReached`, `Supervisor.RateBoundIffPauseLonger`.

## Model

| member | source | states |
|---|---|---|
| Layout.FenceState | bridge/_hooklib.py:291-303 | the loop leaves exactly the fence that a fold over all narration lines leaves open |
| Layout.Render | bridge/_hooklib.py:316-335 | the newest-first loop posts the render of one suffix, `Rendered`, whose suffix the next three lemmas characterise |
| Layout.KeptIsLongestSuffix | bridge/_hooklib.py:322-331 | render keeps the longest suffix within the budget, never fewer than one item |
| Layout.RenderDropsNothingIffFits | bridge/_hooklib.py:338-341 | for two or more items render drops nothing if and only if `fits` holds, and then it equals render_head |
| Layout.HeadFit | bridge/_hooklib.py:344-356 | the counting loop finds the greatest fitting prefix, at least one item |
| Layout.HeadIsFullest | bridge/_hooklib.py:344-347 | the sealed prefix fits unless it is a lone item, and no longer prefix fits |
| FenceMeaning.MeaningKeptIffNoStrayFence | bridge/_hooklib.py:291-313 | for every message and every unit of it, a reader of the message and a reader of the uncut turn, both reading line by line, are in the same fence state, if and only if no tool or agent unit that another follows leaves a reader in another state than the narration before it |
| FenceMeaning.PostedIsBalancedIff | bridge/_hooklib.py:306-313 | the posted text, read line by line, closes the fences it opens if and only if the fence lines in its units and those the closer counts are both odd or both even in number |
| FenceMeaning.LinesAreBalanced | bridge/_hooklib.py:306-313 | so it does whenever no unit holds a line break |
| FenceMeaning.PostedTextIsTheMessage | bridge/_hooklib.py:359-366 | the posted text's lines up to a unit leave a reader in the state that the message has there, whatever the units hold |
| FenceMeaning.PostedTextKeepsMeaning | bridge/_hooklib.py:359-366 | and, without stray units, in the state that the uncut turn has there |
| StrayFences.TaskFenceIsStray | bridge/_hooklib.py:166-180 | the units of a subagent call whose task holds a fence on its second line include a stray one |
| StrayFences.PatternFenceStaysOpen | bridge/_hooklib.py:152-154 | the message of a search whose pattern holds a fence on its second line leaves a fence open |
| Transcript.CurrentTurn | bridge/transcript.py:100-106 | the loop returns the rows from the last human prompt on |
| Transcript.AppendKeepsTurn | bridge/transcript.py:100-122 | rows without a human prompt extend the current turn and leave its identifier |
| Transcript.ToolResultErrors | bridge/transcript.py:145-155 | the loop computes, per tool call, whether its last result was an error |
| Transcript.TurnLines | bridge/_hooklib.py:202-232 | the loops compute the turn's items: narrations whole, replies skipped, statuses by the results so far |
| Transcript.WorkLines | bridge/_hooklib.py:235-244 | popping in place leaves the items without their trailing narrations |
| Transcript.SplitUnits | bridge/_hooklib.py:247-259 | the loop computes the line-granular units |
| UnitStability.UnitsAreLines | bridge/_hooklib.py:247-259 | no narration or agent unit holds a line break |
| UnitStability.AppendKeepsSlots | bridge/_hooklib.py:202-259 | appending rows keeps every earlier unit's index, kind and, for narration, text |
| UnitStability.AppendWithoutResultsKeepsUnits | bridge/_hooklib.py:202-232 | until a tool result arrives the earlier units do not change at all |
| UnitStability.CommitKeepsLiveUnits | bridge/_hooklib.py:247-252 | a committed narration takes exactly the units it had while it streamed |
| UnitStability.GrowthKeepsCompletedUnits | bridge/_hooklib.py:247-259 | a narration that grows at its end changes at most its last unit |
| Streaming.DeltaKeepsCompletedUnits | bridge/_hooklib.py:262-283 | deltas in order only extend the streamed text, after strip, and leave every completed unit |
| Closing.ClosingFlushed | bridge/transcript.py:125-142 | the two-index loop decides whether some assistant text follows every tool result |
| Closing.ExtractClosing | bridge/transcript.py:181-210 | the loop finds the last assistant text, and counts it as sent exactly when a reply that did not fail carried it |
| Closing.FlushedIffClosingIsLast | bridge/transcript.py:125-142 | flushed holds if and only if the closing text's own row follows every tool result; then the text is not empty |
| Answer.ClosingIsWithin | bridge/hook-final.py:150-155 | in the text of the turn's units, whatever statuses have become, the closing answer's blocks stand whole and in order, with all its characters but white space |
| Answer.LonePartIsTheText | bridge/transcript.py:90-97 | of a row with one text block that is the answer itself |
| Spilling.Hook.SealedHead | bridge/_hooklib.py:402-406 | the next seal: the fullest sealable prefix and its frozen text |
| Spilling.Hook.SealNext | bridge/_hooklib.py:402-416 | one turn of the loop: freeze, advance and checkpoint, or stop with nothing advanced |
| Spilling.Hook.Spill | bridge/_hooklib.py:380-417 | the sealing loop equals `SpillFrom` for every failure pattern; it ends |
| Spilling.SpillKeepsAnchored | bridge/_hooklib.py:397-417 | sealing keeps the frozen messages tiling units [0, base), each frozen by one successful call and not edited since |
| Spilling.SpillKeepsFaithful | bridge/_hooklib.py:405-406 | every frozen message holds exactly the render of its own interval, and fits or holds one unit |
| Spilling.SpillOnlyAdds | bridge/_hooklib.py:397-417 | calls and seals only get added, base never goes back, the last shown unit is never sealed, and the stored boundary is the new one as soon as anything was sealed |
| Spilling.SpillStops | bridge/_hooklib.py:393-404 | sealing ends only when the tail fits, one unit is left, or the last call failed |
| Spilling.TailFitsIffLastUnitFits | bridge/_hooklib.py:395-396 | with a working transport the tail fits afterwards if and only if the last shown unit fits by itself |
| Spilling.SealKeepsShownLines | bridge/_hooklib.py:46-50 | the next seal keeps every line the live message showed whole, but possibly one still growing |
| Spilling.UntouchedStillShows | bridge/_hooklib.py:391-392 | a message shows what the last call that succeeded on it put there |
| Progress.Run | bridge/hook-progress.py:34-88 | the locked step - tombstone, live drop, re-home, spill, render, send or edit, save - equals `Step` |
| Progress.StepKeepsOrder | bridge/hook-progress.py:49-88 | a step that does not re-home keeps the tiling, and the stored boundary names it, whatever units it sees and whichever calls fail |
| Progress.RunKeepsOrder | bridge/hook-progress.py:49-88 | so does every run of steps that do not re-home |
| Progress.StepKeepsSettled | bridge/hook-progress.py:34-88 | every step, re-homing or not, leaves each frozen message to the one call that froze it, and the stored live message is none of them |
| Progress.FrozenStaysFrozen | bridge/_hooklib.py:407-416 | over every run of progress steps a message once frozen is never edited again and keeps its text |
| Content.SpillSame | bridge/_hooklib.py:397-417 | sealing does not look back: units that differ below the boundary, and not in narration, are sealed alike |
| Content.RunKeepsFaithful | bridge/hook-progress.py:63-88 | over any run that keeps sealed units in their slots, every frozen message holds the render of its interval of the latest units, but for tool and agent text that changed since |
| Content.EvolvingRunHolds | bridge/_hooklib.py:398-404 | units that get appended, grow at the end or change their status keep all that is sealed, through any run |
| LostDeltas.DeltaIsStoredIff | bridge/hook-progress.py:65-88 | which inputs make a display step store its delta: an overflow whose seal goes through, a live text that changes, or a first send that goes through |
| LostDeltas.BufferIsKept | bridge/_hooklib.py:262-283 | after a run of deltas in order the stored segments are exactly those of the steps that stored theirs |
| LostDeltas.SegmentsAreTheTextIff | bridge/_hooklib.py:277-283 | the joined segments are the whole narration, stripped, if and only if every delta that was not stored was white space with only white space before or after it |
| LostDeltas.ShownTwiceIff | bridge/hook-progress.py:42-47 | in the list that the next progress step lays out the committed narration stands once if and only if that holds, and otherwise a second time as it was stored; what the messages hold is in `Streamed` |
| LostDeltas.LostLineBreak | bridge/hook-progress.py:76-77 | "a", a line break and "b" streamed one by one show as one line |
| Following.GrowingTranscript | bridge/transcript.py:100-122 | a transcript that gets only rows without a human prompt has a turn that extends under the same identifier |
| Following.DeltaTells | bridge/_hooklib.py:262-283 | a delta that is in order and stored, while the rows that come show nothing, carries the narration on |
| Following.CommitTells | bridge/hook-progress.py:42-47 | so does the row that commits the deltas' text, and nothing is then pending |
| Following.FollowsEvolves | bridge/hook-progress.py:34-88 | a turn whose transcript extends, whose deltas come in order, whose narrations go on until they are committed and which loses no delta that shows something: every step shows what the one before showed, appended to, grown at the end or with statuses changed |
| Following.StepKeepsShownLines | bridge/_hooklib.py:46-50 | while no tool result comes, the first message that the next step of such a turn freezes keeps every completed line that the live message had room for |
| Progress.TombstoneSilences | bridge/hook-progress.py:36-40 | steps of a finished turn send, edit and store nothing, however many come |
| Rehoming.RehomeContinuesIffNotStreaming | bridge/hook-progress.py:52-58 | a re-home after a saved step starts right behind the units that step laid out if and only if nothing was streaming |
| Rehoming.LiveShowsTailIff | bridge/hook-progress.py:74-88 | the live message shows the whole tail that the step saved as shown if and only if the call went through, the tail fits and is not cut - or the call failed and the message showed it before |
| Rehoming.RehomeLosesNothing | bridge/hook-progress.py:52-58 | then every unit below the re-home's start is in a frozen message or on the live one left behind |
| Rehoming.FailedEditExample | bridge/hook-progress.py:78-88 | a failed edit: a tool call is on no message, and the re-home starts behind it |
| Rehoming.FailedSealExample | bridge/_hooklib.py:408-410 | a failed seal and an edit that drops the oldest line: that line is on no message, and the re-home starts behind it |
| LayOut.Run | bridge/hook-final.py:78-99 | sealing and capping equal `Laid` |
| LayOut.LaidFacts | bridge/hook-final.py:78-99 | after a reported success the last message shows the footer-less render of units[base:] and the frozen ones tile the rest |
| Widths.MessageShape | bridge/_hooklib.py:359-366 | an uncut message is its items' lines between the inserted front and back |
| Widths.PackedWholeIff | bridge/_hooklib.py:405-406 | a seal is not cut if and only if none of its units would be in a message of its own |
| Widths.NarrowIsUncut | bridge/_hooklib.py:359-366 | units of at most 1886 characters, with info strings of at most 83, are never cut |
| LayOut.CoveredTurnIsWhole | bridge/hook-final.py:78-99 | when lay_out returns True and no unit but the last would be cut in a message of its own, all messages with inserted fences and footers erased join to exactly the units in order |
| LayOut.LaidSame | bridge/hook-final.py:78-99 | capping does not look back either |
| LayOut.CoversIffLastUnitFits | bridge/hook-final.py:82-99 | with a working transport lay_out returns True if and only if the last unit fits one message by itself |
| LayOut.QuietStopEditsOnce | bridge/hook-final.py:85-94 | a Stop with nothing new makes one edit of the live message and no send |
| WideLines.CoveredIsWholeIffUncut | bridge/hook-final.py:85-99 | a covered turn shows all its text, fences and all, if and only if none of its units but the last would be cut in a message of its own |
| WideLines.WideLineIsCut | bridge/_hooklib.py:405-406 | two lines of which the first is cut though lay_out returns True |
| Chunking.Chunks | bridge/hook-final.py:27-37 | the accumulating loop equals a fold of the source lines |
| Chunking.ChunksConserve | bridge/hook-final.py:27-37 | the chunks hold every character but line breaks, in order |
| Chunking.ChunksAreSized | bridge/hook-final.py:31-37 | each chunk is at most 1900 long or one source line; only a text of line breaks alone is posted as it is |
| Chunking.PostedVerbatimIffOneLine | bridge/hook-final.py:34-37 | a stripped answer is posted unchanged if and only if it is one line |
| Chunking.FirstTwoLinesRunTogether | bridge/hook-final.py:34 | two short lines are posted as one |
| Stop.AwaitClosing | bridge/hook-final.py:40-48 | the polling loop equals `Awaited`: read until the closing is there, fifty times at most, give up on a read that does not parse |
| Stop.AwaitedIsFirst | bridge/hook-final.py:40-48 | if a read within the fifty is the first to find the closing, all earlier ones having parsed, its turn is reported as flushed |
| Stop.FlushedWasFound | bridge/hook-final.py:40-48 | and conversely, a turn is reported as flushed only if there is such a read |
| Stop.Decide | bridge/hook-final.py:118-143 | skip, refuse with which reason, or close with which text |
| Stop.Deliver | bridge/hook-final.py:61-75 | all chunks are sent; a refusal records the answer and warns |
| Stop.Commit | bridge/hook-final.py:145-175 | the locked part equals `Committed` |
| Stop.Run | bridge/hook-final.py:109-175 | the whole hook, from poll to tombstone |
| Stop.ClosesOnlyWithTheAnswer | bridge/hook-final.py:118-143 | Stop closes a turn only with a non-empty text from a row after every tool result, never a stale line |
| Stop.CoveredOrPosted | bridge/hook-final.py:51-75 | unless skipped or already sent, lay_out reports the answer shown, or it was sent whole, or recorded with a warning attempted; every refusal attempts a warning |
| Answer.CloseIsSafe | bridge/hook-final.py:145-175 | when Stop closes a turn, the messages read in order are the turn's units and hold the closing answer, or the answer was posted whole, or recorded with a warning attempted, whichever calls fail |
| Answer.NeverSilent | bridge/hook-final.py:109-175 | from the first progress step on, whichever calls fail: a turn told in order, no unit too wide, no re-home and no delta lost that shows something, is closed by a Stop that finds the answer flushed and not sent, and the answer is safe in that sense |
| Homes.HomeRunAlike | bridge/hook-progress.py:52-58 | a run with the history of what was frozen and left behind makes the calls and stores the states of the run without it |
| Homes.MoveKeepsHome | bridge/hook-progress.py:52-88 | a step that re-homes, and leaves a live message showing every unit up to the new start, keeps every unit below the boundary on a message |
| Homes.SavedTailIsLeftWhole | bridge/hook-progress.py:74-88 | so it does after a step that saved its tail when nothing was streaming, whose call went through and whose tail fitted and was not cut |
| Homes.CoveredHomeReads | bridge/hook-final.py:78-99 | when lay_out then returns True, the frozen messages, those left behind and the last, read in order without what was inserted, are the units held |
| HomeAnswer.MovingTurnArrives | bridge/hook-final.py:78-99 | the delivery guarantee across re-homes: a turn told in order whose moves all leave whole messages arrives once, whole and in order at a Stop whose calls go through |
| HomeAnswer.NeverSilentAcrossHomes | bridge/hook-final.py:109-175 | and, whichever calls fail, its answer is on the messages, or posted, or recorded with a warning attempted |
| Streamed.StreamedTurnReadsWholeIff | bridge/hook-final.py:145-175 | a narration streamed in order under any failures, committed and capped by a Stop whose calls go through: lay_out reports it shown, and the messages read whole if and only if none of its lines was frozen while it streamed, or the frozen ones equal the committed ones |
| Streamed.HarmlessLossesReadWhole | bridge/hook-progress.py:65-88 | so they do if every lost delta was white space at an end |
| LostLine.RefusedSendLosesLine | bridge/hook-progress.py:80-83 | one refused send: lay_out reports success and the tombstone is stored, a character of the first line is on no message and in no record, the answer is not safe, and the second line is on two messages |
| LostLine.RefusedSendExample | bridge/hook-progress.py:80-83 | with three concrete lines of a thousand letters |
| Stop.StopSilencesTurn | bridge/hook-final.py:145-175 | after the tombstone no progress step makes any call as long as only progress steps of the turn follow, and a Stop that looks then skips |
| Tombstone.SilentIffNoneClears | bridge/hook-final.py:51-75 | once the tombstone is stored, through every order of the turn's progress steps and of Stops under way, under any failures: at no moment would a progress step make a call, if and only if no Stop's commit refuses, or closes with neither the cap nor the chunks going through |
| Tombstone.LateStopErases | bridge/hook-final.py:145-175 | a Stop that looked before the tombstone, and whose calls all fail, is such a commit |
| Tombstone.SecondStopErases | bridge/hook-final.py:126-175 | two Stops that look before either commits come to it: the first leaves the tombstone, the second erases it |
| Overlap.SecondStopSilentIff | bridge/hook-final.py:126-175 | after a turn's tombstone another Stop makes no call if and only if it read the tombstone before its poll, or the answer was sent by a reply and one over-cap line is left |
| Overlap.OverlappingStopsBothPost | bridge/hook-final.py:126-175 | of two Stops that both read the state first, the second still posts after the first has left its tombstone; one that reads later does not |
| Overlap.CommitEditsFrozenIff | bridge/hook-final.py:148-155 | a commit edits a frozen message if and only if the stored state is gone, what its Stop read before names that message, and lay_out makes a call |
| Overlap.FrozenStaysFrozen | bridge/hook-final.py:148-155 | in every order of progress steps and overlapping Stops none of which is so stale, a frozen message is never edited again and keeps its text |
| Overlap.StaleStopEditsFrozen | bridge/hook-final.py:149 | how a Stop becomes so stale, and that it then edits the frozen message |
| Arrival.TurnArrivesWhole | bridge/hook-final.py:148-155 | from an empty turn, through any run of progress steps under failures, to a covered cap: the messages read in order are the final units, but for tool and agent text that changed after it was sealed |
| Arrival.ToldTurnArrives | bridge/hook-final.py:78-99 | in terms of transcripts and deltas: a turn told in order, without a re-home or a lost delta that shows something, arrives once, whole and in order at a Stop whose calls go through |
| Arrival.EvolvingTurnArrives | bridge/hook-final.py:78-99 | the delivery guarantee: units that evolve, any failures before Stop and none from then on, no unit too wide: lay_out succeeds and every unit has arrived once, whole and in order |
| Arrival.UnshownTurnArrives | bridge/hook-final.py:78-99 | a turn that no progress step showed arrives whole from Stop alone |
| Emitting.EveryInterleaving | bridge/exchange.py:194-218 | in every interleaving a key is in the dedup set exactly while its send is in flight or after it succeeded; never two sends at once, never two successes |
| Emitting.FailureLeavesRetry | bridge/exchange.py:211-217 | once a failed send has released its key, a new emit of it goes on to send |
| Emitting.DedupedIffTaken | bridge/exchange.py:203-207 | an emit is dropped exactly when another thread sends that message or it has been sent |
| Exchange.EveryInterleaving | bridge/exchange.py:237-272 | in every interleaving with asks, attaches, disconnects, deaths, route changes and reaping: claims, routing threads and registry keep their invariants |
| Tally.EveryInterleaving | bridge/exchange.py:237-272 | in every interleaving, on every connection, each message is written exactly as often as routing threads gave it there |
| Tally.LinesAreDeliveries | bridge/exchange.py:237-272 | summed over all connections, the lines that carry a message are as many as the threads that gave it to a claim or an agent |
| Tally.RoutedOnceWrittenOnce | bridge/exchange.py:237-242 | a message that one thread routed is written at most once in all, and on no connection but the one it was given to |
| Undelivered.ReachesNoOneIff | bridge/exchange.py:254-272 | in every interleaving a message ends with no one if and only if its chat had no route, the agent was not registered when looked up, or the connection found was dead or closed when written to |
| Undelivered.SupersededIsRefused | bridge/exchange.py:258-270 | a new attach between the lookup and the push: the message is refused though the agent is registered on a live connection |
| Exchange.ClaimLeavesOnce | bridge/exchange.py:243-253 | a claim that left the stack never returns; its connection is closed and never gets another line, one at most in all |
| Exchange.NewestLiveClaimTakes | bridge/exchange.py:243-253 | the newest live matching claim, and no other, gets the message; dead waiters never consume it |
| Exchange.UntakenGoesOn | bridge/exchange.py:243-254 | if no live claim matches, the message goes on and no connection gets a line |
| Exchange.EntryLeavesOnlyForItsConnection | bridge/exchange.py:389-416 | an agent's entry goes only by its own connection's disconnect or failed push, or to a newer attach |
| Exchange.ScanLeaves | bridge/exchange.py:244-253 | the locked scan takes claims off only with their connections closed and leaves all others untouched |
| Exchange.ReapLeaves | bridge/exchange.py:423-432 | so does the reaper |
| Mediator.AttemptedWithin | bridge/exchange.py:183-192 | a call succeeds if and only if one of its three attempts does, and it stops at the first |
| Mediator.Broker.Op | bridge/exchange.py:183-192 | the retry loop finds that attempt |
| Mediator.Broker.Emit | bridge/exchange.py:194-218 | a known key makes no call; otherwise the key stays if and only if the send succeeded; the id is what the send printed, none if that is blank |
| Mediator.Broker.TakeClaim | bridge/exchange.py:243-253 | the locked loop, removing and closing as it goes, leaves what the newest-live-claim rule says |
| Mediator.Broker.ReapOnce | bridge/exchange.py:422-432 | one pass leaves exactly the unexpired claims and closes the others |
| Mediator.Broker.Attach | bridge/exchange.py:389-396 | the newest attach is registered and the one it supersedes closed |
| Mediator.Broker.Detach | bridge/exchange.py:412-416 | the entry goes only if it is still this connection's |
| Mediator.Broker.RouteInbound | bridge/exchange.py:237-272 | one destination, decided in order - claim, control, live agent, refusal - with the whole new state |
| Mediator.AloneReachesDestination | bridge/exchange.py:237-272 | the stepwise machine, uninterrupted, reaches the destination of that rule and no other |
| FleetStore.Validate | bridge/fleet.py:88-104 | the loop with the channels seen so far finds no problem if and only if the fleet is valid |
| FleetStore.RoutesAreABijection | bridge/fleet.py:72-79 | routes pair the enabled agents with their channels one to one and never hold the control channel |
| FleetStore.ListenedIffRoutedOrControl | bridge/fleet.py:81-85 | a channel is listened to if and only if it is routed or is the control channel |
| FleetStore.Load | bridge/fleet.py:122-169 | reading row by row gives a validated fleet or nothing |
| FleetStore.LoadAfterSaveIffStorable | bridge/fleet.py:122-208 | after an accepted save load returns that fleet if and only if workdirs are not empty, keys are the agents' ids and the control channel is not the empty string |
| FleetStore.StoreIsSafe | bridge/fleet.py:172-208 | over any run of saves, loads and migrations that stop anywhere, the store holds the last committed fleet or nothing, and every load returns what some committed fleet's store reads as, or nothing |
| FleetStore.LoadsReturnCommitted | bridge/fleet.py:122-169 | which is that committed fleet itself, for fleets filed by their ids and without an empty control channel |
| FleetStore.EmptyOnlyIfSavedEmpty | bridge/fleet.py:150-158 | a load returns an empty fleet only if an empty fleet was committed |
| Control.Pairs | bridge/control.py:65-71 | the loop over the tokens equals a fold |
| Control.LastPairWins | bridge/control.py:65-71 | a key has a value if and only if a token assigns it; the last one counts, split at its first equals sign |
| Control.RemoveUndoesSpawn | bridge/control.py:325-339 | removing a spawned agent gives the old fleet back |
| Control.StartUndoesStop | bridge/control.py:302-322 | stop and start give the old fleet back if and only if the agent was enabled |
| Control.ProposalKeepsKeys | bridge/control.py:302-408 | every handler keeps agents filed under their own ids and leaves the control channel alone |
| Control.Controller.RefreshFleet | bridge/gateway.py:318-331 | the stored fleet's routes are installed, or the last ones kept |
| Control.Controller.Save | bridge/fleet.py:172-208 | refusal, schema step and data transaction, and when the caller is told |
| Control.Controller.Dispatch | bridge/control.py:468-489 | load, transform, persist, refresh equal `Dispatched` |
| Control.RefusedChangesNothing | bridge/control.py:98-106 | a refused command changes neither store nor routing |
| Control.AcceptedIsLive | bridge/control.py:98-106 | after an accepted one the store holds the proposed fleet, and reads back as it with the live routes in step unless a workdir is empty |
| Control.AcceptedReadsIffWorkdirKept | bridge/control.py:385-408 | the store reads after an accepted command if and only if the command was not a `set` with an empty workdir |
| Control.EmptyWorkdirIsAccepted | bridge/control.py:397-408 | such a `set` is accepted for any agent, and the store then does not read |
| Control.EveryRun | bridge/control.py:98-106 | over any mix of commands, command-line saves, failures and polls the stored fleet is valid and the live routes are some read fleet's |
| Refreshing.EveryInterleaving | bridge/gateway.py:318-331 | so they are when the steps of commands, refreshes and saves interleave in any way |
| Refreshing.NoChangeLostIff | bridge/control.py:98-106 | in every interleaving: a command that is accepted leaves the control channel and every agent but the one it names as the store has them, if and only if the store has them as they were when the command read it |
| Refreshing.NoChangeLostIfSpared | bridge/control.py:468-489 | so no change is lost if nothing accepted in between touches the control channel or another agent |
| Refreshing.RoutesAreTheStoresIff | bridge/gateway.py:318-331 | in every interleaving: the live routes are the stored fleet's if and only if the refresh installed last read the store after the last accepted save, or read a fleet with the same routes |
| Refreshing.OverlappingCommandsLoseOne | bridge/control.py:468-489 | of two overlapping commands the first one's change is lost |
| Refreshing.LateInstallIsStale | bridge/gateway.py:318-331 | a refresh that read before a save and installs after the next refresh leaves the old routes |
| Control.UnreadableRefusesAll | bridge/control.py:91-95 | while the store does not read no command changes anything |
| Supervisor.KeepRecent | bin/sidecar.sh:261-263 | the loop keeps exactly the launches within the window |
| Supervisor.GuardRelaunch | bin/sidecar.sh:257-272 | one call: prune, count, and pause and forget when there are too many |
| Supervisor.CallKeepsGuard | bin/sidecar.sh:257-272 | a call keeps any MAX + 2 consecutive passes further apart than the window |
| Supervisor.SpacedIffWindowsBounded | bin/sidecar.sh:262-265 | that spacing holds if and only if no window, wherever it starts, holds more than MAX + 1 passes |
| Supervisor.RateBoundIffPauseLonger | bin/sidecar.sh:257-272 | at most MAX + 1 passes in any window, for all runs, if and only if the pause is longer than the window |
| Supervisor.BoundIsReached | bin/sidecar.sh:265-271 | MAX + 1 passes at one moment do occur |
| Supervisor.Sidecar.GuardAgent | bin/sidecar.sh:256-272 | only this agent's times change, and everyone's clock |
| Supervisor.Sidecar.GuardGateway | bin/sidecar.sh:333-348 | the same for the gateway |
| Supervisor.Sidecar.Reconcile | bin/sidecar.sh:294-318 | the launching and stopping loops equal `Reconciled` |
| Supervisor.EachLaunchIsGuardedOnce | bin/sidecar.sh:305-311 | a pass takes every enabled agent that is down, and no other, through its guard exactly once |
| Supervisor.ConvergesIffNothingFailed | bin/sidecar.sh:304-317 | a readable pass ends with exactly the enabled agents running if and only if every needed launch and stop worked |
| Supervisor.SecondPassDoesNothing | bin/sidecar.sh:304-317 | a second pass launches and stops nothing and takes no time |
| Supervisor.RelaunchRateIsBounded | bin/sidecar.sh:254-272 | over any run of passes, crashes, recycles and gateway relaunches on one clock, the bound holds for every agent and the gateway |
| Supervisor.WantedStaysUp | bin/sidecar.sh:288-303 | an agent that lives and is enabled in every list that could be read is never stopped or relaunched, through any number of unreadable reads |
| Supervisor.OneAlertPerOutage | bin/sidecar.sh:293-304 | exactly one alert for each outage of the store |
| Convergence.RunningIffRouted | bin/sidecar.sh:294-318 | after an accepted command and a pass without failures, the running agents are exactly the routed ones |
| Convergence.ErasedWorkdirFreezesFleet | bin/sidecar.sh:294-303 | after a command that erases a workdir no later command or pass changes anything |

## Left out

- WideLines.CoveredIsWholeIffUncut: assumes fence info strings of at most 83 characters, because with longer ones it depends on where the seals fall whether a unit is cut.
- Arrival.EvolvingTurnArrives: assumes no re-home and that each step shows the units of the one before with their narration unchanged but at the end; `Following` says which transcripts and deltas give that, `Rehoming` and `Streamed` what happens otherwise.
- Answer.NeverSilent: assumes no lost delta that shows something, because it is false with one (`LostLine`), no re-home, and that the stored state is there or was never written; `HomeAnswer.NeverSilentAcrossHomes` has re-homes, `Answer.CloseIsSafe` needs only what Stop finds on the channel.
- HomeAnswer.NeverSilentAcrossHomes: assumes that a re-home that takes effect leaves a message that shows all up to the new start; `Rehoming` has the exact condition and the inputs where it does not.
- Streamed.StreamedTurnReadsWholeIff: is about one narration streamed into one state of the transcript, right before Stop.
- Tombstone.SilentIffNoneClears: asks of every moment what a progress step would do then, because a run may end before one comes.
- Progress.RunKeepsOrder: assumes no re-home, because a re-home moves the boundary; `Progress.FrozenStaysFrozen` does not.
- Rehoming.LiveShowsTailIff: leaves out a tail of nothing but bare fence lines, where dropping one can leave the same text.
- LostDeltas.SegmentsAreTheTextIff: assumes that the deltas of a message come in order and that what is streamed is not, by chance, already a block of the turn.
- FenceMeaning.PostedTextKeepsMeaning: is about texts before the cut at 1990; `Widths` says when there is none.
- Stop.Run: runs poll and lock without a step of another hook between; `Overlap` has every order of them.
- Mediator.Broker.RouteInbound: runs without another thread between its steps; `Exchange` and `Tally` have the interleavings.
- Control.RefusedChangesNothing: takes a command as one step; `Refreshing` has the interleavings.
- Supervisor.RelaunchRateIsBounded: counts the moments the guard lets a relaunch through; the wait for the network before the process starts is not modelled.
- Supervisor.WantedStaysUp: lets a deliberate recycle count as staying up if its relaunch works.
- FleetStore.StoreIsSafe: takes a file without all its tables, a file with tables but no control-channel row, and a full store as the only states SQLite can leave behind.
- A crash between a successful send and its checkpoint, and a call that reports failure although the message arrived.
- A negative `base` or `shown`, which only a hand-edited state file can hold.
- The hook that opens a new turn and resets the stored state; every run is of one turn.
- The chat adapter, sockets, JSON, threads, locks and files as such; a locked section is one step, a connection a number that may be dead.
- `str.isdigit`, `str.split` and `str.lower` beyond ASCII; digits are '0' to '9' and a command arrives as verb and arguments with aliases resolved.
- What a tool works on, subagent types and tasks, and usage trailers as computed texts: they are inputs, any text but for the usage, which is one line; that a command's summary is one line is not used.
- Reactions on the source message, target selection and log events.
- Answering MCP requests on an agent's socket, and the ops edit, react, latest, buttons and home, which are one transport call each.
- The owner gate, the translator and the replies of the control channel; a command is any verb with any arguments.
- What a spawn does to the file system: its resolved workdir and the created channel are inputs.
- The modification time that `_watch_fleet` compares: a poll may refresh at any moment.
- `set_routes` assigns two fields without a lock; the concurrent machine takes them as two steps.
- `GATEWAY_RELOAD`, the recycle of all agents, the stall alert for the launch modal, screen sessions and process ids.
- The plan and question hooks, the session hooks and the scheduler design.

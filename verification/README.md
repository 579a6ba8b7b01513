# The per-user agent, modelled and proved

A Dafny model of the state machines in termag's per-user agent (`agent/`) and proofs about every run of
them: the chat runner and the turn wrapper it shares a directory with, the asks steered between chats, the
browser pane manager and its panes, and the parsers and transformations beside them. `dafny verify
dfyconfig.toml` checks everything.

JavaScript runs to completion between two awaits, so one await-free stretch of the source is one step. Steps
of different calls, of the wrapper process, of timers, of scripts and of crashes interleave freely. Each
protocol is a datatype for the state, a `Step` function per kind of step, `ValidRun`/`Run` over sequences of
them, and theorems over every run. Where the source updates state in place, a class has the source's fields
and its methods are proved equal to the step functions, loops included, so what holds of all runs holds of
the methods' runs too. The table has the methods that loop or decide; the others are each their step and
have no row.

| file | models |
|---|---|
| `Forwarding` | a turn's log tailed into numbered frames, across failed sends and crashes (`chat-runner.js`) |
| `ChatRunner`, `SingleWriter`, `ChatProgress`, `Conservation`, `RunnerProcess` | one chat: sends, queue, live inboxes, stops, claims, compaction, sweeps, crashes (`chat-runner.js`) |
| `PaneClaim` | the claim of a `claude --resume` typed in the terminal (`chat-runner.js`) |
| `LiveTracker`, `TurnInbox` | when the wrapper closes Claude's stdin, and the inbox two processes share (`chat-turn.js`) |
| `AskChain`, `AskLines`, `AskSteps`, `AskTexts`, `AskInbox`, `AskAnswers`, `AskRaces`, `AskJobs`, `AskResult` | follow-up asks steered into a running turn, and who is answered (`ask-chat.js`) |
| `PaneManager`, `PanePlaces`, `PaneShares`, `PaneEnds`, `PaneRooms`, `PaneRaces`, `PaneProcess` | live, parked and closing browsers, kept profiles, room (`browser-pane.js`) |
| `FramePacing`, `OwnPages` | frames, acks and snapshots; which page is the pane's own (`browser-pane.js`) |
| `Framing`, `Sse`, `Splitting` | streams cut into messages whatever their chunks |
| `DiffParser`, `TurnCosts`, `PrWorktree`, `History`, `BoxNotice` | the git diff parser, session costs, the pull request's worktree, history capping, notices |
| `Common` | shared names |

## What turned out not to hold

Each of these is kept as the code has it, with the exact condition or a run that shows it.

- Single writer: `compact` and the resume claim look only at the first turn in the map, so behind a finished,
  unswept turn a second compaction (`SingleWriter.TwoCompactionsCanRunAtOnce`) or a claim
  (`SingleWriter.ClaimCanMeetATurn`) passes while a compaction runs. One writer holds throughout a run exactly
  when no compaction is taken in that state; and no claim meets a turn while each compaction was taken with
  an empty map, and only then (`SingleWriter.ClaimsMeetNoTurnIff`).
- Queue: a turn can be over and swept before the start that made it has returned, and `startNext` then waits
  for a start nobody follows up: a message queued meanwhile stays in the queue of a free chat until the next
  send, resume or sweep (`ChatProgress.SweptStartLeavesTheQueue`). The other ways there are a claim, a hold or
  a clear that ends (`ChatProgress.NoneLeftWaiting`).
- Asks: `reconcile` fails an ask whose steer, or whose start out of the queue, is still on its way, or whose
  `--fail` script still runs; a sweep can report an ask a follow-up has just joined; a drop can fail a lost
  follow-up that a sweep has failed already; and a sweep can report or fail an ask that a drop has failed,
  because the wrapper claimed its file all the same (`AskRaces.LateDropAnswersTwice`) or because another
  ask's file has its number by then (`AskRaces.ReusedNumberFailsTwice`). No ask is answered twice exactly
  when none of these happens. A crash between two halves of a steer or of a turn's end can do it too. A
  follow-up can reach Claude before an older one that waits (`AskRaces.LaterAskIsClaimedFirst`). And an ask
  whose clone reaches its time limit is never answered: the script, stopped, tells nobody.
- Browser room: a takeover takes its browser out of the live map, awaits, and puts it back without a room
  check, so an owner can have five (`PaneRaces.TakeoverMakesFive`). The limit holds throughout a run exactly
  when no fresh browser is opened while one being taken over holds the last place.
- Event streams: a CR LF shared by two chunks reads as two line ends and can split an event.
- Costs: the cost stored at a turn's end and the one read back differ exactly when the session's last total
  is past the 2000 kept records, is not zero, and the new total is not below it.
- Notices: a text that starts with newlines loses them in the strip.
- `poll` looks at `exit` twice, and the second time against the log's size from the start of the pass: a line
  and `exit` written between the looks are marked done unsent (`Forwarding.BlindSweepSkipsAnEvent`). `done`
  means the whole log was forwarded exactly when no sweep of the run was of that kind.
- A stop takes a live turn's waiting messages out with a forced removal, which does not say when the wrapper
  has just claimed one: a message is claimed and dropped both exactly then (`TurnInbox.ClaimedAndDroppedIff`).
  And a number freed in the middle of a tick can make a message be claimed before an older one
  (`TurnInbox.OvertakenCanBePassed`).
- The documentation of `readSse`'s standard has a `data` line without a colon add an empty line, and end of
  stream discard a pending event; the code ignores the one and dispatches the other, and so does the model.

## Model

| member | source | states |
|---|---|---|
| Forwarding.ForwardingIsCrashSafe | agent/chat-runner.js:2789-2896 | over any run of log growth, failed sends, crashes and recoveries: the stored sequence number counts the lines before the stored offset, frame n always carries line n, no event before the offset was skipped, and frames have no gap |
| Forwarding.DoneMeansWholeIff | agent/chat-runner.js:2866-2887 | `done` stands only over a log forwarded to its end, and then every event of it was shown, exactly when no sweep of the run first saw no `exit` and then marked a log grown past what was forwarded |
| Forwarding.PassForwards | agent/chat-runner.js:2804-2887 | a pass shows the events in order up to the first refused one and stands there; with all taken it stands behind the last whole line; the turn is done exactly when, besides, `exit` is there and the log ends at a line's end |
| Forwarding.PassShowsAll | agent/chat-runner.js:2821-2863 | with every frame taken, no event of the log is left unshown |
| Forwarding.StoredIsNotSentAgain | agent/chat-runner.js:2933-2934 | through any crashes and recoveries, what `forwarded.json` counts is not sent again, and its count never falls |
| Forwarding.ShownOnce | agent/chat-runner.js:2848-2863 | each event is shown at most once, in order, unless a refused frame arrived all the same or the agent died with sent lines not yet stored |
| Forwarding.LooksDecide | agent/chat-runner.js:2866-2874 | the first look ends the pass exactly with `exit` there and the log grown; the second marks the turn done exactly with `exit` there and all the pass had read forwarded |
| Forwarding.CrashKeepsFiles | agent/chat-runner.js:2930-2936 | a death leaves the files, and the next agent begins where `forwarded.json` stands |
| Forwarding.BlindSweepSkipsAnEvent | agent/chat-runner.js:2869-2874 | a run in which such a sweep marks a turn done whose one event was never sent |
| Forwarding.ReplayAgreesWithFrames | agent/chat-runner.js:3158-3175 | a reload's replay numbers the log as the live frames did: each frame is in the replay or older than all of it, and each replayed event up to the stored line was a frame under the same number |
| Forwarding.ReplayHoldsTheEvents | agent/chat-runner.js:3158-3175 | a replay holds exactly the lines that are events, each under its own line number, in increasing order |
| Forwarding.NewestAreNewer | agent/chat-runner.js:3158-3175 | a replay keeps as many of the newest events as it may, in order, and what its cut leaves out is older |
| Forwarding.SendLinesIsRun | agent/chat-runner.js:2818-2868 | a send loop broken by a refused send is a run of single forwards, so a crash inside it is covered |
| Forwarding.PollIsRun | agent/chat-runner.js:2789-2896 | a whole pass is a run of the protocol's steps |
| Forwarding.TurnTail.SendUnsent | agent/chat-runner.js:2821-2863 | the loop sends the lines in order up to the first refusal, and counts the bytes of exactly those |
| Forwarding.TurnTail.Poll | agent/chat-runner.js:2804-2887 | one pass over a turn, in place: what it shows, where it stands, `forwarded.json`, and exactly when it is `done` |
| PaneClaim.ClaimGoesIffClaudeIsGone | agent/chat-runner.js:180-186 | over any series of looks, a resume's claim goes exactly when a shell follows a seen Claude, or, Claude never seen, a shell or another program is there past the grace; a failed look never frees it |
| SingleWriter.OneWriterIffNoBlindCompact | agent/chat-runner.js:3574-3593 | in every state of a run a chat has at most one start or running turn exactly when no compaction was taken while a turn ran behind an unswept one |
| SingleWriter.StepKeepsOneWriterIff | agent/chat-runner.js:2583-2586 | sends, queue starts, sweeps, stops, claims, crashes and recoveries each keep one writer; such a compaction, and nothing else, breaks it |
| SingleWriter.CompactKeepsOneWriterIff | agent/chat-runner.js:3577-3579 | the same for `compact`'s own guard |
| SingleWriter.BehindIsReached | agent/chat-runner.js:3568-3599 | the state before a blind compaction is reached from an empty chat |
| SingleWriter.TwoCompactionsCanRunAtOnce | agent/chat-runner.js:3577-3579 | and from it the guard passes and two writers run |
| SingleWriter.NothingStartsUnderAClaim | agent/chat-runner.js:2763-2775 | no step starts a turn while the pane's claim or a resume hold stands or another start is under way |
| SingleWriter.StartNextStartsFree | agent/chat-runner.js:2763-2775 | the queue starts a job only with no turn in the map and nothing else holding the chat |
| ChatProgress.SweepStartsTheOldest | agent/chat-runner.js:2882-2893 | a swept turn leaves the map, and with nothing else there or holding the chat its oldest queued job starts and leaves the queue; else the queue is as it was |
| ChatProgress.ResumeStartsTheOldest | agent/chat-runner.js:2995-3007 | so too when the backend resumes the chat, which unparks it and vouches for what runs, unless the terminal has the session |
| ChatProgress.SendIsTakenUp | agent/chat-runner.js:3426-3458 | a send is refused, changing nothing, exactly when what it has to wait in is full; else the message is in the running turn's inbox, is started, or is last in the queue, whose oldest starts if it can |
| ChatProgress.NoneLeftWaiting | agent/chat-runner.js:2763-2775 | over any run, a free chat with a message in its queue was set free by the end of a claim, a hold, a clear or a start whose turn was swept before it, and no sweep, resume or accepted send has come since |
| ChatProgress.SweptStartLeavesTheQueue | agent/chat-runner.js:2755-2760 | a run of the last kind |
| ChatProgress.OnlyStopsDrop | agent/chat-runner.js:2876-2880 | without a stop, a clear, or a queued ask canceled, nothing is ever dropped, crashes included |
| ChatProgress.DroppedBy | agent/chat-runner.js:2448-2457 | what each kind of step drops |
| ChatProgress.StopDropsAll | agent/chat-runner.js:3605-3632 | after an interrupt or a clear the queue and the first turn's inbox are empty, other turns untouched; an interrupt while the terminal has the chat and no turn runs changes nothing |
| ChatProgress.UnreadIsCarried | agent/chat-runner.js:2876-2880 | a sweep puts what Claude never read ahead of the queue, oldest first, unless the turn was stopped |
| ChatProgress.ClaimHoldsTheChat | agent/chat-runner.js:3818-3875 | a resume claim is taken exactly when no turn starts, the first is not running and no claim stands |
| ChatProgress.CompactionStarts | agent/chat-runner.js:3568-3599 | a compaction starts exactly when no turn starts, the first is not running, the queue is empty and nothing holds the chat |
| ChatProgress.SteeredJoinsItsTurn | agent/chat-runner.js:3306-3333 | a follow-up is last in its turn's inbox, or is refused and changes nothing |
| ChatProgress.ReleaseLetsGo | agent/chat-runner.js:3886-3905 | a release ends the hold, and leaves the claim and the park as it was told |
| ChatProgress.ClearLetsGo | agent/chat-runner.js:3493-3495 | while a clear goes on nothing starts from the queue; its end lets the chat go and changes nothing else |
| ChatProgress.StartReturns | agent/chat-runner.js:2738-2760 | a start that failed leaves its own turn over, for a sweep to find, and no other turn changed |
| ChatProgress.RestartTakesUp | agent/chat-runner.js:2933-2990 | the next agent takes up the turns there were, none of them vouched for, stopped or swept, keeps the queue and the terminal's claim, and parks the queue when there is no turn to wait for |
| RunnerProcess.ChatProcess.StartNextJob | agent/chat-runner.js:2763-2775 | `startNext` in place starts the oldest job of a free chat, and else changes nothing |
| SingleWriter.ClaimsMeetNoTurnIff | agent/chat-runner.js:3818-3875 | no resume claim of a run succeeds while a turn starts or runs, if each compaction was taken with an empty map; and only then: else some continuation without a further compaction has such a claim |
| SingleWriter.ClaimCanMeetATurn | agent/chat-runner.js:3823-3826 | a run from an empty chat to a claim that meets a running turn |
| SingleWriter.EarlyCanMeet | agent/chat-runner.js:3577-3579 | from whatever state, a compaction taken over a finished, unswept turn comes up behind it, and a claim can meet it |
| SingleWriter.OneWriterWithoutEarlyCompact | agent/chat-runner.js:3443-3458 | a chat compacted only with an empty map has one writer in every state, and nothing runs behind another turn |
| Conservation.MessagesAreConserved | agent/chat-runner.js:3409-3459 | over any run each accepted message is in exactly one place, none is handed to Claude twice, and a person's messages are handed in the order accepted, also when unread inbox messages go ahead of the queue; a stop's drain and the wrapper's claims one after the other, else as in `TurnInbox.ClaimedAndDroppedIff` and `TurnInbox.ClaimsAreInOrder` |
| Conservation.LostIff | agent/chat-runner.js:2763-2775 | a message is lost exactly by a crash that found it taken up for a turn not yet on disk, or among the first files a drain had removed and not yet written to the queue |
| Conservation.CrashKeepsTheRest | agent/chat-runner.js:2933-2990 | a crash leaves every other message in its place, and in the order it had |
| Conservation.OnlyCrashesLose | agent/chat-runner.js:2763-2775 | within one process's life nothing is lost |
| RunnerProcess.ChatProcess.SendMessage | agent/chat-runner.js:3409-3459 | the send's decision and its effect in place are the step: into the live turn, the queue, a turn of its own, or refused |
| RunnerProcess.ChatProcess.EndStart | agent/chat-runner.js:2583-2760 | a start that failed leaves its turn, and only it, over |
| LiveTracker.ClosesExactlyWhenQuietLongEnough | agent/chat-turn.js:187-192 | a check says to close stdin exactly when the trace is quiet (a result since the last delivery with no later work, no task, no fresh notification) and every check back to one at least the grace time ago was quiet too |
| LiveTracker.QuietIsQuiet | agent/chat-turn.js:166-192 | the tracker's five variables say quiet exactly when the trace is |
| LiveTracker.ReadAllIsTrace | agent/chat-turn.js:173-185 | reading the lines of a chunk one by one is what the trace says of them in that order |
| LiveTracker.LogTracker.Feed | agent/chat-turn.js:173-185 | the tracker's trace goes on with the completed lines in the log's order, and its variables say what the trace says |
| LiveTracker.LogTracker.Idle | agent/chat-turn.js:187-192 | `idle` says to close exactly when that trace has been quiet long enough |
| TurnInbox.ClaimedOrCarriedNeverBoth | agent/chat-turn.js:263-328 | however the runner's check and write, a stop's drain file by file, and the wrapper's ticks and death interleave: until the sweep each message waits, was claimed or was dropped, and a waiting one is neither; after it each was claimed, dropped, or is carried, and a carried one, in the order placed, is neither; none is dropped twice |
| TurnInbox.ClaimedAndDroppedIff | agent/chat-runner.js:2448-2457 | a message is both claimed and dropped exactly when a drain came to its file after the wrapper had renamed it |
| TurnInbox.DrainCanBeLate | agent/chat-runner.js:2448-2457 | a run in which it does |
| TurnInbox.ClaimsAreInOrder | agent/chat-turn.js:274-286 | messages are written oldest first, none waits that is older than a claimed one, and the carried ones are the latest, while no send takes a number that a tick has passed with later ones still to come |
| TurnInbox.OvertakenCanBePassed | agent/chat-runner.js:2421-2432 | from whatever state, such a send can be passed by: further sends and the rest of the tick claim a later message while it waits |
| TurnInbox.DrainCanOvertake | agent/chat-runner.js:2421-2457 | a run to such a send |
| TurnInbox.StdinIsClosedLateAndOnce | agent/chat-turn.js:263-328 | stdin gets claimed messages, each once, nothing after its end, and the tick that ends it delivered nothing |
| TurnInbox.EndsExactlyWhenQuiet | agent/chat-turn.js:309-324 | however the processes interleave, a tick goes on to end stdin exactly when what the ticks read, wrote and asked up to then has been quiet long enough |
| TurnInbox.ClaimsTheList | agent/chat-turn.js:274-286 | an undisturbed delivery claims every listed message under its number, and no other |
| TurnInbox.WritesTheList | agent/chat-turn.js:274-286 | and writes them in the list's order, once each |
| TurnInbox.DrainDropsAll | agent/chat-runner.js:2448-2457 | an undisturbed drain drops every message it listed, in order, and their files are gone |
| TurnInbox.TickEnds | agent/chat-turn.js:319-324 | an idle tick records the end of stdin if it can and ends it, and any other waits for the next |
| TurnInbox.EndIsWritten | agent/chat-runner.js:2572-2577 | `exit` comes as the wrapper's last act, or from the runner for a wrapper that died |
| TurnInbox.TickIsRun | agent/chat-turn.js:309-324 | a whole tick is a run of the protocol's steps |
| TurnInbox.DeliverAllIsRun | agent/chat-turn.js:274-286 | so is the delivery loop |
| TurnInbox.LiveWrapper.DeliverInbox | agent/chat-turn.js:274-286 | the delivery loop claims and writes each listed message, and tells the tracker of each |
| TurnInbox.LiveWrapper.TickOnce | agent/chat-turn.js:309-324 | a tick in place: the log's news, every message of the inbox in order, and stdin's end exactly when the trace with this tick has been quiet long enough |
| AskChain.LastDelivered | agent/ask-chat.js:131-143 | the target is delivered and no later ask of the chain is |
| AskChain.FindTarget | agent/ask-chat.js:131-143 | the two passes over the chain find the newest ask that Claude was given, its own text (none for the turn's first), the asks before it, the lost ones, and whether to report |
| AskChain.TargetFound | agent/ask-chat.js:131-143 | the same of the function the passes compute |
| AskTexts.AfterIsItsOwnText | agent/chat-runner.js:3324-3331 | over any run, the text a sweep looks for is one its target was steered with, and there is none exactly when the target is the ask the turn began with |
| AskSteps.PreparedIsSent | agent/ask-chat.js:271-287 | a prepared ask is sent unless it was canceled meanwhile; a failed one has been told of and its job goes; one past its time limit is told of by nobody |
| AskSteps.SentAskGoesOn | agent/ask-chat.js:288-305 | a send's ask starts a turn, is the last of the queue, or is failed |
| AskSteps.OldestAskStarts | agent/chat-runner.js:2770-2774 | the oldest queued ask starts, and its turn comes last in the map with the ask as its prompt |
| AskSteps.FollowUpFindsItsTurn | agent/chat-runner.js:3306-3309 | a follow-up goes to a turn that has the ask it follows, and is refused exactly when none has |
| AskSteps.FollowUpJoinsIff | agent/chat-runner.js:3310-3331 | it joins, last in the chain with its own text and file, exactly when its turn runs, was not stopped, takes input and still answers the ask it follows; else it is as if it had never been |
| AskSteps.JoinedIsMarked | agent/ask-chat.js:364-368 | the ask it joined is then superseded in its job file, if that is still there, and no other |
| AskSteps.CancelTakesTheJobIff | agent/ask-chat.js:477-483 | a cancel takes the job file exactly unless the ask is superseded or being told |
| AskSteps.CancelStopsItsTurn | agent/chat-runner.js:3273-3288 | and stops the ask's turn, its end not to be told, exactly if that runs and the ask is its last |
| AskSteps.CancelLeavesTheQueue | agent/chat-runner.js:3277-3280 | a queued ask that is canceled is out of the queue, and no other |
| AskSteps.StopFailsAll | agent/ask-chat.js:461-463 | a stop fails every queued and unread ask that has its job file, once each, and none is left |
| AskSteps.ReconcileDoes | agent/ask-chat.js:503-530 | what the next agent does with a job file: begin again, leave it to a turn or the queue, or fail it as lost |
| AskSteps.DeathStrands | agent/chat-runner.js:2933-2990 | a death strands what was on its way and leaves the queue, the job files, the turns and their inboxes |
| AskChain.FindTurn | agent/chat-runner.js:3199-3203 | `findAsk` finds a turn exactly when one has the ask in its chain |
| AskAnswers.NoneAnsweredTwiceIff | agent/ask-chat.js:422-458 | over a thread's whole life, inbox numbers reused and drains overtaken by the wrapper, no ask is answered twice, answered while on its way, or reported once a follow-up has joined it, exactly when no sweep, reconcile or drop falls into the window of a steer, a queued ask's start or a failure being told |
| AskAnswers.NewestIsAnswered | agent/ask-chat.js:422-458 | in such a run an ask that was not canceled and that no follow-up joined has exactly one answer once it is over, and none before, drops and restarts included; only one whose clone reached its time limit is over with none |
| AskLines.ChainsAreLines | agent/chat-runner.js:3301-3334 | in every run, crashes and all, the asks of each turn are one duplicate-free line, each follow-up behind the ask it joined, all but the last superseded |
| AskInbox.NumbersRise | agent/chat-runner.js:2421-2432 | in every run the files of a turn's inbox are numbered in the order their asks joined, so a drain in number order carries them in that order |
| AskInbox.NoneWaitsBehind | agent/chat-turn.js:274-286 | while no steer takes a number that the wrapper's tick has passed with later ones of its list still to come, no ask waits in the inbox ahead of a delivered one |
| AskAnswers.CleanIffGood | agent/ask-chat.js:347-376 | every step keeps what the answers rest on but a sweep, a reconcile or a drop in its window, and each of those breaks it at once |
| AskAnswers.EarlyIsBad | agent/ask-chat.js:358-368 | a sweep between a steer's acceptance and its mark reports a superseded ask |
| AskAnswers.RetoldIsBad | agent/ask-chat.js:431-445 | a sweep whose target, or one of whose lost asks, has its job file there and its `--fail` script running tells that ask a second time |
| AskAnswers.StrayIsBad | agent/ask-chat.js:506-524 | a reconcile in its window answers an ask still on its way (a send that starts its turn itself is not in the window), or one answered already |
| AskAnswers.RelostIsBad | agent/chat-runner.js:3466-3486 | a drop fails a lost follow-up again while the failure its sweep told is not yet delivered |
| AskAnswers.NothingLeft | agent/ask-chat.js:422-458 | a turn's end told before a crash is told again with no effect |
| AskAnswers.BuriedTombstones | agent/ask-chat.js:491-497 | a cancel removes tombstones only, and leaves every other job file as it is |
| AskRaces.DropMidSweepFailsTwice | agent/chat-runner.js:3466-3486 | a clear between a stopped turn's end and its leaving the map fails a lost follow-up twice |
| AskRaces.LateDropAnswersTwice | agent/chat-runner.js:2448-2457 | an interrupt fails a follow-up that the wrapper claims meanwhile, and the turn's end reports it too, though nothing joined or canceled it |
| AskRaces.ReusedNumberFailsTwice | agent/chat-runner.js:2421-2432 | a follow-up is failed a second time because a later one has the number its file had |
| AskRaces.LaterAskIsClaimedFirst | agent/chat-runner.js:2421-2457 | a run in which a later follow-up reaches Claude while an older one waits |
| AskRaces.RestartMidSweepAnswersTwice | agent/chat-runner.js:2874-2893 | a crash there has it failed and then run and reported |
| AskRaces.ToldIsCarriedAgain | agent/chat-runner.js:2874-2893 | from whatever state: once the agent dies before a swept turn's `done`, the next sweep puts each lost follow-up that was told on its way again |
| AskRaces.RestartMidSteerReportsJoined | agent/ask-chat.js:358-368 | a crash between a steer's acceptance and its mark has the joined ask reported |
| AskRaces.UnsaidIsReported | agent/ask-chat.js:440-456 | from whatever state: a joined ask whose job file was never marked is reported by the end of a turn it is the last of |
| AskJobs.JobFiles.OnTurnDone | agent/ask-chat.js:422-458 | the two loops over superseded and lost asks and the report, on the job files in place; a result told to an ask is the log's last, and came after Claude took in that ask's own text, or tells that the turn stopped before |
| AskJobs.JobFiles.Cancel | agent/ask-chat.js:477-483 | a cancel takes the job file exactly when the ask is neither superseded nor reporting |
| AskJobs.JobFiles.RemoveTombstones | agent/ask-chat.js:491-497 | the bounded walk back over the asks it had superseded |
| AskResult.TurnResult | agent/ask-chat.js:89-121 | the answer is Claude's last result, and it came after Claude took the follow-up in; with no such result the turn stopped, told with the last runner error |
| AskResult.TakenIn | agent/ask-chat.js:96-102 | the search from the end finds the last place the follow-up was taken in |
| PanePlaces.OneBrowserPerProfile | agent/browser-pane.js:1549-1557 | however attaches, takeovers, parks, closes, exits, forgets and deletes interleave, a kept profile has at most one running browser of this manager, and it is the recorded holder |
| PanePlaces.DeletedOnlyUnheld | agent/browser-pane.js:1593-1610 | from the check to the end of a profile's delete no browser is recorded on it |
| PanePlaces.OnePlace | agent/browser-pane.js:1783-1838 | a browser is on one stream, or parked once under its own key, or between streams, or in none of these |
| PaneShares.ViewersGetTheirShare | agent/browser-pane.js:1756-1878 | over any run, the browser live on a stream is of the kind its attach asked for, and a guest's was made for the share that attach names |
| PaneShares.HandedBackIff | agent/browser-pane.js:1811-1832 | an attach of no kept profile gets its key's parked browser exactly when that is not gone, was made for the same kind and share, and a guest finds room |
| PaneShares.ParkedWaitsOn | agent/browser-pane.js:1816-1817 | with no room it is parked again, and no browser is opened or closed |
| PaneShares.OtherShareIsClosed | agent/browser-pane.js:1832-1834 | one of another kind or share is closed, and the attach gets a new browser or none |
| PaneShares.LiveHolderIsTakenIff | agent/browser-pane.js:1782-1809 | a live browser on the attach's kept profile leaves its viewer, and goes on to this one exactly when it was made for the same kind and share; else it is closed |
| PaneShares.TakenGoesLive | agent/browser-pane.js:1789-1790 | and once suspended it is live for the new viewer |
| PaneShares.CountsAre | agent/browser-pane.js:1496-1501 | the browsers counted against a limit are those on a stream, and for a fresh one's room those parked too |
| PaneEnds.CloseParksOrCloses | agent/browser-pane.js:1713-1730 | a browser off its stream is the last parked one, its key's earlier one closed; or it is closed, having no key, parking being off, or closing already; no other changes |
| PaneEnds.ParkAllEndsStreams | agent/browser-pane.js:1996-2001 | a drop of the socket leaves none of the streams, and each browser there was is parked or closing |
| PaneEnds.EndLeavesNoPlace | agent/browser-pane.js:1732-1744 | a browser whose page or process ended is closing, on no stream and not parked; the other streams go on |
| PaneEnds.ExpiryCloses | agent/browser-pane.js:1721-1728 | an expired parked browser is closing and its key parks none |
| PaneEnds.ForgetClosesTheKey | agent/browser-pane.js:2023-2038 | a forgotten key's browsers, live or parked, are closing and nowhere; all others are as they were |
| PaneEnds.ExitFreesProfile | agent/browser-pane.js:1578-1588 | the exit of a profile's holder frees it, and of no other browser any |
| PaneEnds.DeleteGoesAheadIff | agent/browser-pane.js:1593-1610 | a delete goes ahead exactly when nobody holds the profile and it is still wanted |
| PaneEnds.WaitDecides | agent/browser-pane.js:1856-1867 | after the wait for a quitting browser the attach keeps its profile exactly when nobody has it; else it loses its key too |
| PaneEnds.FailureCloses | agent/browser-pane.js:1874-1878 | an attach that failed ends its stream and closes its browser |
| PaneRooms.OwnersFitIff | agent/browser-pane.js:1851-1878 | an owner's browsers stay within `MAX_PANES` throughout a run exactly when none is opened fresh while one being taken over holds the last place; and then so does what `counts` sees |
| PaneRooms.StepFitsIff | agent/browser-pane.js:1783-1878 | the same for each step |
| PaneRooms.OpenFitsIff | agent/browser-pane.js:1851-1854 | the same for the room check and the insertion |
| PaneRooms.FreshGuestFits | agent/browser-pane.js:1835-1850 | a fresh guest attach leaves no more guest browsers, live and parked, than its limit |
| PaneRooms.RoomIs | agent/browser-pane.js:1835-1854 | room is made by closing parked browsers of the attach's own kind only, the others' order kept; a refusal not for want of room closes none |
| PaneRooms.GuestRoomIs | agent/browser-pane.js:1848-1850 | the eviction loop ends with the count under the limit, or with none of the kind parked |
| PaneEnds.EvictsTheOldest | agent/browser-pane.js:1503-1511 | an eviction takes the oldest parked browser of its kind, if there is one |
| PaneEnds.GuestRoomEvictsInOrder | agent/browser-pane.js:1848-1850 | guests make room by as many evictions as it takes and no more, the oldest first |
| PaneEnds.OwnerRoomEvictsOne | agent/browser-pane.js:1851-1854 | an owner under the limit evicts none, one at it the oldest, and is refused exactly when none is parked |
| PaneRaces.TakeoverMakesFive | agent/browser-pane.js:1787-1800 | a takeover and a fresh attach between its halves make five |
| PaneManager.Oldest | agent/browser-pane.js:1503-1511 | the eviction takes the first parked browser of its kind |
| PaneManager.Evict | agent/browser-pane.js:1503-1511 | an eviction leaves one parked browser less |
| PaneProcess.PaneBrowsers.EvictParked | agent/browser-pane.js:1503-1511 | the search and the eviction, in place |
| PaneProcess.PaneBrowsers.MakeRoom | agent/browser-pane.js:1832-1854 | the room check and the eviction loop, in place |
| PaneProcess.PaneBrowsers.UnparkKey | agent/browser-pane.js:1704-1710 | the key's parked browser, taken out |
| PaneProcess.PaneBrowsers.AttachPane | agent/browser-pane.js:1756-1878 | the attach up to its first await, in place; `PaneShares` and `PaneRooms` say what it does |
| PaneProcess.PaneBrowsers.ParkEvery | agent/browser-pane.js:1996-2001 | the socket's drop parks every live browser |
| FramePacing.AcksArePaced | agent/browser-pane.js:1036-1052 | each screencast frame is acked at most once, 50 ms or more after the ack before, with less than 1 MiB unsent, and if it went to the viewer only after it left the pending list |
| FramePacing.AcksInAnyWindow | agent/browser-pane.js:1036-1052 | any window of a run has at most one ack more than whole frame intervals |
| FramePacing.EveryFrameIsAcked | agent/browser-pane.js:1008-1052 | while a pane is shown each screencast frame is with the viewer, awaits its ack, which a look past the interval with room in the socket makes, or was acked |
| FramePacing.FrameGoesToTheViewer | agent/browser-pane.js:1011-1018 | a frame of a shown pane goes out, the last of those pending; one of a hidden pane only awaits its ack |
| FramePacing.TickDoes | agent/browser-pane.js:1036-1052 | a look acks a released frame exactly when the interval is over and the socket has room |
| FramePacing.ReleaseDoes | agent/browser-pane.js:1020-1034 | an ack releases the oldest pending frame, a timeout its own, and a screencast frame then awaits its ack |
| FramePacing.HidesAndCloses | agent/browser-pane.js:909-931 | a hidden pane holds no frame for a viewer; a closed one stays so and acks nothing |
| FramePacing.OnlyShownPanesSend | agent/browser-pane.js:1011-1018 | a frame or a snapshot goes out only of a pane that is shown and open |
| FramePacing.SnapshotIsAsked | agent/browser-pane.js:800-816 | a shown pane asks for a snapshot, noting the frames sent so far |
| FramePacing.SnapshotGoesOutIff | agent/browser-pane.js:800-816 | a snapshot goes out exactly when it came, the pane is shown, and no screencast frame was sent and no later snapshot asked for since its request |
| FramePacing.IndexOf | agent/browser-pane.js:1026-1028 | a frame is found in the pending list exactly when it is there |
| FramePacing.FramePane.ReleaseFrame | agent/browser-pane.js:1026-1034 | the frame taken out of the list wherever it is, once, and its ack awaited |
| OwnPages.NothingLeftOver | agent/browser-pane.js:729-757 | in whatever order announcements, answers and failures came, with no creation in flight there is no expectation or early claim left, the own pages are exactly those returned, and each other announced page was sent a close |
| OwnPages.ClosedAtOnceIff | agent/browser-pane.js:990-1009 | a page is closed as it is announced exactly when it is not a returned one and another page opened it, or no creation still awaits its page |
| OwnPages.AnswerSettles | agent/browser-pane.js:736-757 | at most one page rides on a creation, and the answer or the failure settles which is own and closes the other |
| OwnPages.ReturnedStayOpenIff | agent/browser-pane.js:729-757 | no page the pane got back is ever sent a close, exactly when none was sent one as foreign before it was returned |
| OwnPages.GuestPages.CloseEarly | agent/browser-pane.js:749-757 | the loop closes and disowns every early page but the answered one |
| Framing.PipeFramer.Push | agent/browser-pane.js:435-446 | after each chunk the messages out are those of one cut of all that came in, and the unfinished document waits |
| Framing.PipeFramer.PushAll | agent/browser-pane.js:428-446 | so too after any number of chunks |
| Framing.SameMessages | agent/browser-pane.js:428-446 | any two chunkings of one stream give the same messages |
| Framing.PiPipe.Write | agent/chat-turn.js:375-379 | each chunk takes the lines it completes, the blank ones skipped |
| Framing.PiPipe.Close | agent/chat-turn.js:380-384 | at the end every line has been taken once, the last one ended or not |
| Framing.UnblankAppend | agent/chat-turn.js:369-373 | the lines that are not blank, in order, however they are grouped |
| Framing.UnblankOne | agent/chat-turn.js:369-373 | of one line, that one unless it is blank |
| Framing.PiLines | agent/chat-turn.js:367-385 | any chunking takes the lines of the whole |
| Framing.SplitText | agent/chat-turn.js:375-377 | the split of a text: the pieces its separators close, and what follows |
| Splitting.SplitAppend | agent/chat-turn.js:375-377 | cutting in two goes with the tail carried over is cutting once |
| Splitting.SplitOfClosed | agent/git-changes.js:61-86 | separator-free pieces, each followed by the separator, are read back as they were |
| Splitting.SplitJoins | agent/browser-pane.js:435-446 | nothing is lost in a cut |
| Sse.ReadSse | agent/mcp-bridge.js:51-76 | the events are those of the lines read chunk by chunk, and of the whole stream when no two chunks share a CR LF |
| Sse.LinesSameIff | agent/mcp-bridge.js:64-71 | the lines are the whole stream's exactly when no two chunks share a CR LF |
| Sse.FedAgainstWhole | agent/mcp-bridge.js:64-71 | each shared CR LF adds exactly one line, and the unfinished line is the same |
| Sse.ReadAppend | agent/mcp-bridge.js:64-71 | reading in two goes is reading once, unless a CR LF is split |
| Sse.ReadSplitCrlf | agent/mcp-bridge.js:64-71 | a split CR LF adds an empty line |
| Sse.NoneEndsInCr | agent/mcp-bridge.js:64-71 | chunks that do not end in CR share none |
| Sse.SharedCrlfBreaksAnEvent | agent/mcp-bridge.js:55-71 | one event becomes two |
| Sse.FindEnd | agent/mcp-bridge.js:67-68 | the search finds the first line end and its length |
| Sse.Reader.Chunk | agent/mcp-bridge.js:64-71 | the loop takes the lines of what is carried and the chunk |
| Sse.Reader.Line | agent/mcp-bridge.js:55-62 | an empty line dispatches, a data line adds, any other is ignored |
| Sse.DataLineReads | agent/mcp-bridge.js:58-60 | a data line adds its text, with or without the one space after the colon |
| Sse.OtherLineIsIgnored | agent/mcp-bridge.js:58-62 | a line that does not begin with the field's name adds nothing |
| Sse.EmptyLineAlone | agent/mcp-bridge.js:55-58 | an empty line dispatches what data came before it, and with none is no event |
| Sse.EventsReadBack | agent/mcp-bridge.js:55-62 | whatever events are written, each of one line of data at least, are read back in order |
| Sse.JoinLfCuts | agent/mcp-bridge.js:57 | an event's data is its lines with a newline between, and is cut into them again |
| DiffParser.ParseDiff | agent/git-changes.js:61-86 | the two loops over the pieces, their maps and skips included |
| DiffParser.ReadCounts | agent/git-changes.js:62-71 | the numstat loop |
| DiffParser.ReadFiles | agent/git-changes.js:72-85 | the name-status loop |
| DiffParser.PrintedReads | agent/git-changes.js:61-86 | what git prints for any list of files with distinct non-empty NUL-free paths is read back as that list, in name-status order whatever numstat's; tabs, newlines, status-like names, renames, copies and binaries included |
| DiffParser.NumLineReads | agent/git-changes.js:65-70 | a printed numstat entry is read back, its path past the second tab whatever it holds |
| DiffParser.NumLineIff | agent/git-changes.js:65-69 | a piece is read as a numstat entry exactly when it is two counts, each a dash or digits, and a path, a tab after each count |
| DiffParser.OtherPieceIsSkipped | agent/git-changes.js:75-76 | a piece that is no status code names no file, and the reading goes on behind it |
| DiffParser.NumberOfDigits | agent/git-changes.js:70 | a printed count is read back |
| TurnCosts.ParseTurnRecords | agent/chat-runner.js:1863-1889 | the loop over the file with its map of totals takes each cost again from its session's last total, and cuts to the newest records |
| TurnCosts.RecostKeepsTotals | agent/chat-runner.js:1863-1889 | a record read back keeps its turn, its session and the session's total, which an old record has as its cost |
| TurnCosts.CostsAddUp | agent/chat-runner.js:1849-1889 | however sessions interleave, a session's costs add up to the last total of each run of totals that does not fall |
| TurnCosts.RisingCostsAddUp | agent/chat-runner.js:1849-1853 | with totals that never fall, to the last one |
| TurnCosts.BlockSumIsEnds | agent/chat-runner.js:1849-1853 | the sum by differences is the sum over the runs' ends |
| TurnCosts.SessionTotalBefore | agent/chat-runner.js:2153-2161 | the session's last total before the turn's own record |
| TurnCosts.StoredIsReadIff | agent/chat-runner.js:2124-2161 | exactly when the stored cost is the one read back |
| TurnCosts.StoredAreRead | agent/chat-runner.js:2109-2161 | while the turns fit the kept records, every stored cost is the one read back |
| TurnCosts.PlainIsRead | agent/chat-runner.js:1849-1853 | a turn of no session, or with no total, is stored as it is read |
| PrWorktree.NoCommitLost | agent/git-worktree-pr.js:69-151 | on any commit graph, however git fails and however the call ends, each commit the local branch reached it still reaches, and no other branch moves |
| PrWorktree.AddedHasThePr | agent/git-worktree-pr.js:132-150 | a worktree added is on a branch at or past the PR's head, fast-forwarded only over its own ancestors |
| PrWorktree.ReusedIsRelated | agent/git-worktree-pr.js:107-123 | a reused or adopted worktree is left as it was, its tip an ancestor or a descendant of the PR's head |
| PrWorktree.AddsIffRelated | agent/git-worktree-pr.js:132-147 | with a working git and no live holder the call succeeds exactly when the branch is new or related to the PR's head, and ends at the later of the two; else nothing moves |
| PrWorktree.HolderKeptIff | agent/git-worktree-pr.js:107-123 | with a live holder, exactly when its work is this PR's and it stands where it may |
| PrWorktree.HolderIsFirst | agent/git-worktree-pr.js:107 | the holder is the first listed worktree on the branch whose directory is there and not to be pruned |
| PrWorktree.SucceedsIff | agent/git-worktree-pr.js:69-151 | however git fails, the call succeeds exactly when every command it needed did and the branch or its holder is related; and which check failed is told |
| PrWorktree.LeavesBehind | agent/git-worktree-pr.js:132-150 | what a call leaves, refused or not: every worktree there was, the new one if it came that far, and at most the one ref moved or made |
| PrWorktree.Holder | agent/git-worktree-pr.js:107 | the first live worktree on the branch, or none on it |
| PrWorktree.Checkout.FindHolder | agent/git-worktree-pr.js:107 | the search, in place |
| PrWorktree.Checkout.Add | agent/git-worktree-pr.js:69-151 | the sequence of git commands on the refs and worktrees, in place |
| History.CapBefore | agent/chat-runner.js:1180-1185 | capping older entries first gives the cap of the whole |
| History.CapAfter | agent/chat-runner.js:3674-3675 | so does capping newer ones before older are put ahead |
| History.CapTwice | agent/chat-runner.js:1180-1185 | capping twice is capping once |
| History.CapKeeps | agent/chat-runner.js:1180-1185 | a subsequence of exactly the dividers and the newest `max` entries, in order |
| BoxNotice.RoundTripIff | agent/box-notice.js:91-103 | for all notices without the closing tag and every text, even one that opens with the tag, the strip gives the text as it entered, exactly unless a notice stood ahead of a leading newline |
| BoxNotice.MessageHolds | agent/box-notice.js:95-99 | a message holds each notice that says something, in order, between the tags, and ends with the text |
| BoxNotice.DefusedEndsWithText | agent/box-notice.js:87-93 | a sent text is kept whole, one that opens with the tag behind a mark that shows nothing |
| BoxNotice.SecondStripIff | agent/box-notice.js:96-103 | exactly when a second strip changes nothing |
| BoxNotice.StrippedOnceForAll | agent/box-notice.js:91-103 | for a text that does not start with a newline it never does |
| BoxNotice.StripOfNotice | agent/box-notice.js:96-103 | a strip takes the notices, their newlines and the text's leading ones, and nothing else |
| BoxNotice.BlocksRoundTrip | agent/box-notice.js:102-111 | in a message of blocks the strip gives the first text block back as it entered, an empty one beside others gone, and no other block changed |
| BoxNotice.AnyNoticeComesOff | agent/box-notice.js:81-85 | any notice accepted from the orchestrator comes off again whole |
| BoxNotice.SentNoticeIff | agent/box-notice.js:80-85 | a sent notice is one exactly when, trimmed, it says something, is within the limit and has no closing tag |
| BoxNotice.TrimIs | agent/box-notice.js:83 | trimming takes spaces, and all of them, off both ends |
| BoxNotice.NoNoticeNoStrip | agent/box-notice.js:102-111 | a message with no notice ahead of its first text is left alone |
| BoxNotice.BlockEnds | agent/box-notice.js:35 | the shortest match ends at the tag that was put there |

## Left out

- RPC, sockets, tmux, terminals, systemd, Docker and launcher processes: library I/O; only the file and protocol effects the properties name are here.
- The desktop hold on a chat (`claimT3`/`releaseT3`): a chat with none. A send's wait for its release, and what `clear` answers while a start or a send is in flight, are not claimed.
- Permission modes, checkout trust, models, effort and the rest of what lets a message join a running turn: one flag (`fits`) given by the environment.
- Real-time waits other than the ack interval, the wake time and the grace times; signal escalation and orphaned pi processes.
- Forwarding.ForwardingIsCrashSafe: nothing is written to a log after `exit`, and logs hold whole UTF-8 lines, taken as bytes. The cost attached to the turn-end frame is not part of a frame here. Refused sends and crashes are its faults: a write that throws inside the send loop, which keeps the sequence number it has reached and not the offset, is not here.
- SingleWriter.OneWriterIffNoBlindCompact: an archived project's turns (`abandon`) are not taken up and are not here; a start whose own file writes fail is taken as one that ended its turn.
- Conservation.MessagesAreConserved: a stop's drain and the wrapper's claims are one after the other here; `TurnInbox` has them file by file. Which of several queued messages is edited or reordered by hand is not here.
- TurnInbox.ClaimedOrCarriedNeverBoth: a directory is listed and its files read in one step, and the stop requests and reload lines that also go to stdin are not messages.
- AskAnswers.NoneAnsweredTwiceIff: run ids are new for each ask unless its steer was refused. A prepare script that fails before its time limit has told the asker; one that outlives its agent is not here. A crash in the middle of a steer, or of the end of a turn with lost follow-ups, is excluded here (`Untorn`), with runs in `AskRaces` that show why and what follows from any state; a crash in the middle of a drain is in `Conservation`. A queued ask's start that throws before its turn is in the map, and an archived project's turns (`abandon`), are not here.
- AskAnswers.NewestIsAnswered: a report or a failure counts as told once its script is started; that script's delivery is not part of this model.
- AskResult.TurnResult: a log line that is not JSON is left out before; the session id kept with a stopped turn's answer is not here.
- PanePlaces.OneBrowserPerProfile: another agent's browsers on a profile are an answer of the environment. Cookie jars, profile directories and the sweep's choice of names are not here, its check and delete are.
- PaneRooms.FreshGuestFits: the room check and the insertion are one step, also for a kept profile, where the source awaits in between. Stream ids are not used twice.
- FramePacing.AcksArePaced: a clock that does not run backwards; picture quality, dialogs and navigation are not here.
- OwnPages.NothingLeftOver: pages of a guest's browser only, one creation at a time, as the pane makes them.
- Framing.SameMessages and Sse.ReadSse: decoded text; that the platform's UTF-8 decoders do not depend on chunks is taken for granted.
- DiffParser.PrintedReads: unbounded counts, where the source's numbers lose precision past 2^53.
- TurnCosts.CostsAddUp: fixed-point costs; rounding of doubles is not here, nor are the other fields of a record.
- PrWorktree.NoCommitLost: no other process moves the branch between a check and the command it guards.
- BoxNotice.BlocksRoundTrip: how a message's blocks are built around the text is not here, only their strip.
- The stale-lock takeover of the profile index, URL canonicalisation, the guest proxy, login, telemetry, titles, image storage and the host's readings: flat or platform-bound.

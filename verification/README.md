# Athena core: a verified model

This project models the stateful core of Athena, the desktop workspace for coding agents, and proves what its parts
promise over whole runs.

| part | files |
|---|---|
| OSC 6337 lifecycle parser and printer | `LifecycleScan`, `LifecycleWire`, `LifecycleParser`, `LifecycleStreams`, `LifecycleLimits`, `LifecycleWords` |
| Agent activity tracker of the panes | `AgentActivity`, `ActivityTracker`, `ActivityRuns`, `ActivityCompletion`, `ActivityPinning`, `ActivityPulses`, `ActivityOutcomes`, `ActivityObserver`, `ActivityWitnesses` |
| Questions to the user and their cancellation | `QuestionProtocol`, `QuestionCancellation`, `QuestionOutcomes`, `EventSender` |
| Browser panels | `BrowserNavigation`, `BrowserManager`, `BrowserRuns`, `BrowserCallbacks`, `BrowserEvents` |
| OMP session log and its two-window reading | `OmpSession`, `OmpWindows`, `OmpMisreadings`, `OmpSnapshots` |
| Visible part of a restored window | `WindowVisibility` |
| Request budget of an MCP connection | `RequestBudget` |
| Sessions of connected agents | `SessionRegistry`, `AgentComms` |

Objects that the program updates in place are classes whose methods are proved equal to functions on values; the
theorems are about those functions and the runs made of them. Protocols between threads are state machines with one
step per lock acquisition, so a theorem about every run is a theorem about every interleaving. Emitted events, delivered
alerts and messages in channels are append-only ghost logs. The clock, the foreground process, the text in a pane's tail,
the URL parser, the JSON decoder of log lines, the comparison of directories and random ids are parameters.

Standards: OSC and ST are sections 8.3.89 and 8.3.143 of ECMA-48; escaping of strings is section 7 of RFC 8259.

Where the code departs from what its comments suggest, the model follows the code; each departure has its exact condition
and, but for the last, an input that shows it:

- An event whose encoding is over the carry limit is lost when it is cut before its terminator, though the same bytes in
  one chunk are reported. `OversizeEventsAreLost` says exactly which; `LongMessageIsLost` is one.
- A newer turn is not always reported as completed: if the pane has lost the proof that it saw the turn start, the record
  is taken for another pane's and pinned. `CompletedRecordCompletes` says exactly when; `NewerTurnCanBeLost` is a run.
- A pane that silence demoted keeps that mark through a new detection, so its first pulse can show Working instead of
  Thinking. `PulsesDecide` says exactly when; `FirstPulseOfNextAgentWorks` is a run.
- An answer that `athena_user_answer` reports as accepted is dropped if the waiting call has just timed out.
  `AcceptedMessageIsReturnedIff` says exactly when; `LateAnswerIsDropped` is a run.
- A log longer than 128 KiB can be read differently from the whole file. `OmpMisreadings.LongLogsAgree` says exactly when;
  `LongLogsCanBeMisread` is a file.
- The request window is not a sliding one: 480 requests can pass within two nanoseconds. `MinuteExceeds` says
  exactly when a minute holds more than 240; `MinuteLimitIsReached` is a run.
- A redirect that finishes after its navigation has started tells the toolbar no URL. `SilentRedirectIsMissed` says exactly
  when the toolbar goes on showing the old one; `RedirectIsMissed` is a run.
- A connection that initializes twice leaves its first session behind exactly when the identities differ;
  `SecondInitialize`.

## Model

| member | source | states |
|---|---|---|
| LifecycleParser.AgentLifecycleParser.Feed | crates/athena-core/src/agent_lifecycle.rs:144-205 | the scanning loop with its two terminators and two truncation rules reports the payloads of `Drain` and keeps the remainder `Retain` allows |
| LifecycleParser.AgentLifecycleParser.Reset | crates/athena-core/src/agent_lifecycle.rs:208-210 | reset forgets everything carried |
| LifecycleParser.FloorCharBoundary | crates/athena-core/src/agent_lifecycle.rs:40-47 | the loop finds the greatest character boundary not after the index |
| LifecycleParser.KeepText | crates/athena-core/src/agent_lifecycle.rs:151-163 | text without a prefix loses no complete sequence and is kept whole up to 4096 bytes, else from the last whole character that leaves at least as much |
| LifecycleParser.KeepUnterminated | crates/athena-core/src/agent_lifecycle.rs:178-194 | an unterminated sequence is kept whole up to 8192 bytes, else from its last ESC, or without one like text |
| LifecycleScan.NoOverlap | crates/athena-core/src/agent_lifecycle.rs:31 | the OSC prefix cannot overlap itself |
| LifecycleScan.DrainAppend | crates/athena-core/src/agent_lifecycle.rs:144-205 | scanning a stream is scanning a first part and then its remainder with the rest |
| LifecycleScan.RetainStandsFor | crates/athena-core/src/agent_lifecycle.rs:151-194 | what a feed keeps stands for the untrimmed remainder, so a prefix that straddles chunks is never lost |
| LifecycleParser.StreamingRefinement | crates/athena-core/src/agent_lifecycle.rs:144-205 | however a stream is cut, the feeds together report the events of one scan of it, if no unterminated sequence carried exceeds 8192 bytes |
| LifecycleStreams.ScanIsReading | crates/athena-core/src/agent_lifecycle.rs:144-205 | a scan reports given payloads if and only if the stream reads as well-cut sequences with those payloads and a tail without one |
| LifecycleStreams.OneShotRoundTrip | crates/athena-core/src/agent_lifecycle.rs:104-205 | one scan of printed events between texts without a prefix reports those events |
| LifecycleStreams.RoundTrip | crates/athena-core/src/agent_lifecycle.rs:104-205 | the same in any chunking, each encoding fitting the carry limit: exactly the printed list, in order |
| LifecycleWire.KindRoundTrip | crates/athena-core/src/agent_lifecycle.rs:58-78 | every kind is read back from its printed name |
| LifecycleWire.StringRoundTrip | crates/athena-core/src/agent_lifecycle.rs:104-134 | any string is read back from its escaped form, whatever follows it |
| LifecycleWire.PayloadRoundTrip | crates/athena-core/src/agent_lifecycle.rs:104-134 | any event is read back from its printed payload |
| LifecycleWire.JsonIsClean | crates/athena-core/src/agent_lifecycle.rs:104-111 | escaping keeps BEL and ESC out of every payload |
| LifecycleWords.WordIsRead | crates/athena-core/src/agent_lifecycle.rs:66-78 | each of the twelve words, in any white space, is read as the kind it is listed under |
| LifecycleWords.ReadIsWord | crates/athena-core/src/agent_lifecycle.rs:66-78 | and nothing else is read as a kind |
| LifecycleWords.WordIsReported | crates/athena-core/src/agent_lifecycle.rs:117-134 | one feed of the prefix, a word in any white space and either terminator reports the event of that literal kind without details, and keeps nothing |
| LifecycleWords.OtherPayloadIsDropped | crates/athena-core/src/agent_lifecycle.rs:117-134 | any other payload that does not open an object reports nothing |
| LifecycleWords.ObjectIsRead | crates/athena-core/src/agent_lifecycle.rs:80-111 | an object of string or null members in any order and layout, keys of its own included, is the event its four members name, with those that are missing or null left out |
| LifecycleWords.OtherObjectIsDropped | crates/athena-core/src/agent_lifecycle.rs:80-111 | with a repeated key, without a kind, or with a kind that is no such word, it is dropped |
| LifecycleWords.WireText | crates/athena-core/src/agent_lifecycle.rs:104-111 | what the printer writes, byte for byte |
| LifecycleWords.EscapesAreStandard | crates/athena-core/src/agent_lifecycle.rs:104-134 | string escapes are those of section 7 of RFC 8259 |
| LifecycleStreams.MemoryBound | crates/athena-core/src/agent_lifecycle.rs:149-194 | after a feed of d the buffer has at most 8192 bytes, or starts with its only ESC and has at most 8192 plus the length of d |
| LifecycleStreams.MemoryBoundAlways | crates/athena-core/src/agent_lifecycle.rs:149-194 | the same after any run of feeds |
| LifecycleLimits.CarryLimitIsExact | crates/athena-core/src/agent_lifecycle.rs:178-194 | a sequence without ESC in its payload, cut anywhere in it, is reported as in one piece if and only if the part before the cut fits the limit or it is no event |
| LifecycleLimits.LastEscCutIsExact | crates/athena-core/src/agent_lifecycle.rs:181-188 | cut anywhere after the last ESC of a payload, if and only if the part before the cut fits or the payload parses as what follows its last ESC |
| LifecycleLimits.StCutIsExact | crates/athena-core/src/agent_lifecycle.rs:161-188 | cut inside its two-byte terminator, whatever follows, if and only if the part before the cut fits or it is no event |
| LifecycleLimits.OversizeEventsAreLost | crates/athena-core/src/agent_lifecycle.rs:104-205 | any printed event cut before its terminator is reported if its encoding fits the limit, and lost if it does not |
| LifecycleLimits.LongMessageIsLost | crates/athena-core/src/agent_lifecycle.rs:178-194 | one event that is lost: a completion with a message of 9000 letters |
| ActivityTracker.AgentActivityTracker.DrainPendingNotifications | crates/athena-core/src/agent_activity.rs:384-399 | the pending queue is delivered in order and emptied |
| ActivityTracker.AgentActivityTracker.NotifyLocked | crates/athena-core/src/agent_activity.rs:1106-1186 | an alert is queued unless switched off, without service, or inside its cooldown, and then stamps the pane |
| ActivityTracker.AgentActivityTracker.EmitPaneStatus | crates/athena-core/src/agent_activity.rs:1188-1224 | a status is emitted only when its signature differs from the last one emitted for the pane |
| ActivityTracker.AgentActivityTracker.AcknowledgeAttention | crates/athena-core/src/agent_activity.rs:423-449 | acknowledging leaves the state the tracker function gives |
| ActivityTracker.AgentActivityTracker.RegisterPane | crates/athena-core/src/agent_activity.rs:451-460 | registering inserts the pane and lifts its retirement |
| ActivityTracker.AgentActivityTracker.RegisterPaneWithGeneration | crates/athena-core/src/agent_activity.rs:462-491 | registering returns the next token, which becomes current |
| ActivityTracker.AgentActivityTracker.RemovePaneIfGeneration | crates/athena-core/src/agent_activity.rs:493-526 | removal acts only on a current token, and retires the pane |
| ActivityTracker.AgentActivityTracker.SetPluginConnected | crates/athena-core/src/agent_activity.rs:530-536 | the flag of an existing pane |
| ActivityTracker.AgentActivityTracker.OnPluginStatus | crates/athena-core/src/agent_activity.rs:538-548 | a plugin's status is stored without an announcement |
| ActivityTracker.AgentActivityTracker.ApplyTurnStatus | crates/athena-core/src/agent_activity.rs:1037-1104 | the turn status rules, with their alerts |
| ActivityTracker.AgentActivityTracker.OnAgentLifecycle | crates/athena-core/src/agent_activity.rs:550-608 | a pushed event leaves the state, alerts and emissions of the tracker function |
| ActivityTracker.AgentActivityTracker.OnPtyOutput | crates/athena-core/src/agent_activity.rs:610-683 | the same for an output pulse |
| ActivityTracker.AgentActivityTracker.OnShellCommandFinished | crates/athena-core/src/agent_activity.rs:685-768 | the same for a finished shell command |
| ActivityTracker.AgentActivityTracker.OnHeartbeat | crates/athena-core/src/agent_activity.rs:770-1015 | the same for a heartbeat: foreground, launch, detection, session log, silence and prompt in the tail |
| ActivityTracker.AgentActivityTracker.HeartbeatOfShell | crates/athena-core/src/agent_activity.rs:964-1003 | the branch of a heartbeat without a known agent |
| ActivityTracker.AgentActivityTracker.HeartbeatOfTurn | crates/athena-core/src/agent_activity.rs:861-962 | the branch that judges the turn |
| ActivityTracker.AgentActivityTracker.SilenceRule | crates/athena-core/src/agent_activity.rs:904-926 | a silent pane falls back to Idle unless its log is authoritative |
| ActivityTracker.AgentActivityTracker.TailRule | crates/athena-core/src/agent_activity.rs:927-962 | a prompt in the tail moves a pane to waiting, and its absence after output moves it back |
| ActivityTracker.AgentActivityTracker.NotifyAgentStarted | crates/athena-core/src/agent_activity.rs:1229-1258 | a launch inserts and claims the pane, alerts, and emits nothing |
| ActivityTracker.AgentActivityTracker.CancelPane | crates/athena-core/src/agent_activity.rs:1260-1287 | cancelling a pane |
| ActivityTracker.AgentActivityTracker.ForgetPane | crates/athena-core/src/agent_activity.rs:1289-1296 | cancelling and removing a pane |
| ActivityTracker.AgentActivityTracker.PruneStalePanes | crates/athena-core/src/agent_activity.rs:1331-1345 | exactly the panes idle beyond the limit are removed, and returned |
| ActivityTracker.AgentActivityTracker.SetNotifyConfig | crates/athena-core/src/agent_activity.rs:313-316 | the switches of the alert kinds |
| ActivityOutcomes.PushedComplete | crates/athena-core/src/agent_activity.rs:550-602 | a pushed `complete` leaves the pane Completed with its clock stopped, announced and without an alert, unless the turn was acknowledged |
| ActivityOutcomes.PushedRequest | crates/athena-core/src/agent_activity.rs:550-602 | a pushed `request` leaves it waiting from now on, with an alert unless switch, cooldown or service forbid it |
| ActivityOutcomes.PushedError | crates/athena-core/src/agent_activity.rs:550-602 | a pushed `error` leaves it in Error, with an alert under the same conditions |
| ActivityOutcomes.PushIgnored | crates/athena-core/src/agent_activity.rs:558-575 | removed panes, stale read loops and panes with a plugin ignore it |
| ActivityOutcomes.CompletedRecord | crates/athena-core/src/agent_activity.rs:870-902 | the whole outcome of a heartbeat whose log says completed: Completed if the pane saw the turn start and it is not acknowledged, else pinned or dimmed |
| ActivityOutcomes.ErrorRecord | crates/athena-core/src/agent_activity.rs:870-902 | the same for an error: a pane not in Error gets there if and only if it saw the turn start and it is not acknowledged, and then alerts |
| ActivityOutcomes.WaitingRecord | crates/athena-core/src/agent_activity.rs:870-902 | the same for a turn that waits for input |
| ActivityOutcomes.WorkingRecord | crates/athena-core/src/agent_activity.rs:1057-1076 | a record of work puts the pane to work with a running clock, unless a prompt has it waiting |
| ActivityOutcomes.NoRecord | crates/athena-core/src/agent_activity.rs:904-965 | without a record: silence dims, a prompt in the output makes it wait, an answered prompt puts it back to work |
| ActivityOutcomes.DetectedAgent | crates/athena-core/src/agent_activity.rs:823-880 | the first heartbeat that sees an agent leaves nothing of an earlier turn, and pins a finished one |
| ActivityOutcomes.NoAgentSeen | crates/athena-core/src/agent_activity.rs:966-1003 | the whole outcome of a heartbeat without an agent, with the grace of five seconds |
| ActivityOutcomes.HeartbeatIgnored | crates/athena-core/src/agent_activity.rs:770-815 | removed panes and panes with a plugin ignore heartbeats |
| ActivityOutcomes.OutputSeen | crates/athena-core/src/agent_activity.rs:616-678 | the whole outcome of output: the stamp, and the way from Idle over Thinking to Working |
| ActivityOutcomes.ShellCommandEnds | crates/athena-core/src/agent_activity.rs:719-762 | both exits of the agent's own launch command, with the alert of a failure; other commands change nothing |
| ActivityOutcomes.Acknowledged | crates/athena-core/src/agent_activity.rs:423-448 | acknowledging pins the turn last read and clears Completed, waiting and Error to Idle |
| ActivityOutcomes.Launched | crates/athena-core/src/agent_activity.rs:1229-1255 | which panes a launch claims, with what record, and its alert |
| ActivityOutcomes.CancelledByUser | crates/athena-core/src/agent_activity.rs:1260-1286 | which agents a cancel ends, with what record, and its alert |
| ActivityOutcomes.Forgotten | crates/athena-core/src/agent_activity.rs:1289-1296 | forgetting is cancelling and dropping the record |
| ActivityOutcomes.Pruned | crates/athena-core/src/agent_activity.rs:1331-1345 | a pane is dropped if and only if it had output and the last is more than the limit ago |
| ActivityOutcomes.Registered | crates/athena-core/src/agent_activity.rs:451-458 | registering lifts the mark of removal and keeps the record, or makes a blank one |
| ActivityOutcomes.RegisteredWithToken | crates/athena-core/src/agent_activity.rs:462-488 | registering with a token: the next one, current for the pane, with the last announcement forgotten and the queue handed over |
| ActivityOutcomes.RemovedByToken | crates/athena-core/src/agent_activity.rs:500-526 | which removals happen, and all they change |
| ActivityOutcomes.PluginSpeaks | crates/athena-core/src/agent_activity.rs:530-543 | what a plugin's status and its connection change |
| ActivityOutcomes.AnnouncementHandsOver | crates/athena-core/src/agent_activity.rs:384-399 | heartbeats and acknowledgements hand the queue over if and only if they announce |
| ActivityOutcomes.SwitchesSet | crates/athena-core/src/agent_activity.rs:313-316 | each switch gets its own value |
| ActivityRuns.StepReaches | crates/athena-core/src/agent_activity.rs:338-413 | an operation that reaches a pane settles its effect there, extends queue and stream by it, and touches no other pane |
| ActivityRuns.StepPasses | crates/athena-core/src/agent_activity.rs:338-413 | any other operation leaves the pane as it was |
| ActivityCompletion.StatusIsAnnounced | crates/athena-core/src/agent_activity.rs:1188-1224 | an operation that changes a pane's status announces it, save plugin statuses and launches |
| ActivityCompletion.CompletionNeedsEvidence | crates/athena-core/src/agent_activity.rs:820-1003 | over all runs: completion by foreground loss needs that very agent confirmed since its last launch, and seen active since its last claim |
| ActivityCompletion.UnconfirmedLaunchNeverCompletes | crates/athena-core/src/agent_activity.rs:964-987 | over all runs: a launch that nothing has confirmed does not complete by foreground loss |
| ActivityCompletion.GraceReleasesLaunch | crates/athena-core/src/agent_activity.rs:988-1003 | the first shell heartbeat after the 5 s grace releases an unconfirmed launch |
| ActivityCompletion.HeartbeatWithoutAgent | crates/athena-core/src/agent_activity.rs:964-1003 | exactly when a heartbeat without an agent completes the pane, releases it, or does neither |
| ActivityPinning.PinnedTurnNeverRefires | crates/athena-core/src/agent_activity.rs:844-902 | over all runs in which t stays the latest turn of the same agent, with polls of all panes, pushes and prunes that spare the pane: a pinned turn t never makes the pane Completed or Error |
| ActivityPinning.AcknowledgePins | crates/athena-core/src/agent_activity.rs:423-449 | acknowledging pins the turn consumed last |
| ActivityPinning.ForeignTurnIsPinned | crates/athena-core/src/agent_activity.rs:866-902 | a finished turn that the pane never saw start is pinned by the heartbeat that brings it, be it the one that first detects the agent in a fresh pane |
| ActivityPinning.ForeignTurnNeverFires | crates/athena-core/src/agent_activity.rs:866-902 | so, over all runs, a pane first detected with another turn's finished log never reports that turn |
| ActivityPinning.CompletedRecordCompletes | crates/athena-core/src/agent_activity.rs:876-902 | a completed record of the pane's agent completes the pane if and only if it is not the acknowledged turn and the pane proves that it saw a turn start |
| ActivityPinning.NewerTurnCompletes | crates/athena-core/src/agent_activity.rs:1037-1104 | a newer working record and, after any run of polls, output, requests and operations on other panes, a newer completed record do complete a pinned pane whose work clock runs, or whose polls all saw work |
| ActivityWitnesses.NewerTurnCanBeLost | crates/athena-core/src/agent_activity.rs:876-926 | a run, for every configuration, in which the clock does not run, one poll sees no work, and the newer turn is pinned instead |
| ActivityPinning.WaitingIsSticky | crates/athena-core/src/agent_activity.rs:927-962 | over all runs without a final record, with polls of all panes and prunes that spare the pane, a waiting pane stays waiting until the prompt is answered |
| ActivityPinning.AnswerEndsWaiting | crates/athena-core/src/agent_activity.rs:927-962 | and the first heartbeat that finds it answered moves it to Working |
| ActivityPulses.PulsesDecide | crates/athena-core/src/agent_activity.rs:616-683 | over all runs of output and operations on other panes, the number of pulses decides the status: Thinking after one and Working after two, or Working after one when silence had demoted the pane |
| ActivityWitnesses.FirstPulseOfNextAgentWorks | crates/athena-core/src/agent_activity.rs:830-843 | a run, for every configuration, in which a demoted pane is detected with another agent and its first pulse shows Working |
| ActivityPulses.SilenceIsUndone | crates/athena-core/src/agent_activity.rs:904-926 | with or without a log, as long as it gives no verdict, silence dims an active pane exactly past the limit, alerts nobody, keeps agent and work clock, and the next pulse restores the status it took |
| ActivityObserver.ObserverAgreement | crates/athena-core/src/agent_activity.rs:1188-1224 | from any state without the pane, over all runs without plugin statuses or launches of it, the status last shown by the stream is the pane's |
| ActivityObserver.NoRepeatedAnnouncement | crates/athena-core/src/agent_activity.rs:1188-1224 | within a registration no announcement repeats the one before it, whatever operation makes it, the removal of the pane by forget_pane included |
| ActivityObserver.AlertsAreConserved | crates/athena-core/src/agent_activity.rs:384-399 | over all runs, delivered followed by pending is the queued log in order |
| ActivityObserver.AlertRate | crates/athena-core/src/agent_activity.rs:1106-1186 | over all runs, alerts of one kind for one pane entry number at most T/(cooldown+1) + 1, even when the clock runs backwards |
| ActivityObserver.SwitchedOffIsSilent | crates/athena-core/src/agent_activity.rs:1106-1112 | over all runs, while its switch stays off no alert of the kind is queued |
| ActivityObserver.TokensAreFresh | crates/athena-core/src/agent_activity.rs:462-491 | over all runs, a new token exceeds all before it and is current for its pane alone |
| ActivityObserver.SupersededForever | crates/athena-core/src/agent_activity.rs:401-413 | over all runs, a token that was issued and is not current never becomes current again |
| ActivityObserver.StaleTokenIsInert | crates/athena-core/src/agent_activity.rs:401-413 | a call with such a token changes nothing and emits nothing, whatever happened meanwhile |
| ActivityObserver.RemovedStaysAbsent | crates/athena-core/src/agent_activity.rs:493-526 | over all runs, a removed pane stays absent until it is registered or launched |
| QuestionProtocol.StepKeeps | src-tauri/src/state.rs:76-455 | every lock-granular step keeps the lock discipline, the tombstone check, one message per question and the ownership of every live question |
| QuestionProtocol.AlwaysGood | src-tauri/src/state.rs:316-455 | so every reachable state has them |
| QuestionCancellation.CancellationLeavesNobodyBlocked | src-tauri/src/state.rs:316-455 | in every interleaving, a tombstoned stream with no cancel or clear under way has no listening question without a message or a dropped sender |
| QuestionCancellation.CancelledCallWakes | src-tauri/src/state.rs:371-395 | so its blocked calls wake at their next step |
| QuestionCancellation.LockHolderMoves | src-tauri/src/state.rs:326-345 | whoever holds the nested locks can always take its next step |
| QuestionCancellation.CallStep | src-tauri/src/state.rs:76-455 | all that one step can do to one question: enter, walk one phase on, get one message, or nothing |
| QuestionCancellation.AcceptedMessageIsReturnedIff | src-tauri/src/commands/athena.rs:248-262 | an accepted answer is what the call returns if and only if the call waits for it, or has still to show its question and the step that tries to succeeds |
| QuestionCancellation.LateAnswerIsDropped | src-tauri/src/state.rs:371-395 | a run in which the call has timed out but not yet left the pending map, so that an answer is accepted and dropped |
| QuestionCancellation.OnlyOwnStreamCancels | src-tauri/src/state.rs:436-455 | in every interleaving, a question whose stream is not cancelled is never refused or told of a cancellation |
| QuestionCancellation.TombstoneRefuses | src-tauri/src/state.rs:326-336 | in every interleaving, while a stream is tombstoned its new questions are refused |
| QuestionOutcomes.CallAdvances | src-tauri/src/state.rs:316-395 | with the locks free, the next step of a call always leads to its next phase, with the session, message or outcome of that moment |
| QuestionOutcomes.CallCanEnd | src-tauri/src/state.rs:316-395 | every call of every reachable state can run to its end, whoever holds the locks |
| QuestionOutcomes.RegisteredIsAnswerable | src-tauri/src/state.rs:336-345 | registering gives the question its sender and the last place in its stream's index, and frees the locks |
| QuestionOutcomes.EndedLeavesNothing | src-tauri/src/state.rs:76-87 | a call that ends leaves neither sender nor index entry, and the other questions where they were |
| QuestionOutcomes.WithoutFilters | src-tauri/src/state.rs:80-80 | the others keep their order |
| QuestionOutcomes.FinishedStreamAsksAgain | src-tauri/src/state.rs:432-434 | in every interleaving, finishing a stream lifts its tombstone, and until it is cancelled again its new questions are let in and can register |
| QuestionOutcomes.ContextStep | src-tauri/src/state.rs:398-426 | the session of a stream is the one set last, until a clear of that stream |
| QuestionOutcomes.SweepFinds | src-tauri/src/state.rs:414-455 | the steps of a cancel or clear: which locks they need, what they take, and what they report as found |
| QuestionOutcomes.ClearAllReaches | src-tauri/src/state.rs:404-412 | in every interleaving, a finished clear of all contexts has cleared every stream that had one, unless it was set again |
| EventSender.SendAllReaches | src-tauri/src/state.rs:414-455 | each listed question with a sender gets the message once and loses its sender; nothing else changes |
| EventSender.TauriEventSender.Deliver | src-tauri/src/commands/athena.rs:248-262 | take the sender and send, and report whether there was one |
| EventSender.TauriEventSender.CancelRequest | src-tauri/src/state.rs:436-455 | the whole new state of an uncontended cancel, and its result |
| EventSender.TauriEventSender.ClearRequestContextFor | src-tauri/src/state.rs:414-426 | the whole new state of an uncontended clear |
| EventSender.TauriEventSender.RemovePendingQuestion | src-tauri/src/state.rs:76-87 | the question leaves the index, with its stream's entry if and only if that gets empty, and the pending map |
| EventSender.TauriEventSender.FinishRequest | src-tauri/src/state.rs:432-434 | the tombstone is lifted |
| EventSender.CancelIsItsSteps | src-tauri/src/state.rs:436-455 | the steps of a cancel in a row lead to the state the method leaves |
| EventSender.ClearIsItsSteps | src-tauri/src/state.rs:414-426 | the steps of a clear in a row lead to the state the method leaves |
| BrowserNavigation.UrlsEquivalence | crates/athena-browser/src/lib.rs:354-373 | for any parser, equivalence of URLs is reflexive, symmetric and transitive |
| BrowserEvents.EquivalentUrls | crates/athena-browser/src/lib.rs:354-373 | URLs that parse are equivalent if and only if they differ at most in the case of the scheme, a usual port and a root path that is written or not; others only if they are the same |
| BrowserManagement.BrowserManager.OpenBrowser | crates/athena-browser/src/lib.rs:488-501 | the new panel, or which error and no change |
| BrowserManagement.BrowserManager.CloseBrowser | crates/athena-browser/src/lib.rs:504-510 | the panel is gone, or was not there |
| BrowserManagement.BrowserManager.Navigate | crates/athena-browser/src/lib.rs:542-565 | the panel function, its event, and the errors |
| BrowserManagement.BrowserManager.GoBack | crates/athena-browser/src/lib.rs:567-599 | the panel function, its event, and the errors |
| BrowserManagement.BrowserManager.GoForward | crates/athena-browser/src/lib.rs:601-632 | the panel function, its event, and the errors |
| BrowserManagement.BrowserManager.Reload | crates/athena-browser/src/lib.rs:634-648 | the panel function, its event, and the errors |
| BrowserManagement.BrowserManager.SetLoaded | crates/athena-browser/src/lib.rs:766-782 | a load of the present generation ends; another changes nothing |
| BrowserManagement.BrowserManager.SetLoadFailed | crates/athena-browser/src/lib.rs:788-804 | a load of the present generation fails; another changes nothing |
| BrowserManagement.BrowserManager.FindObserved | crates/athena-browser/src/lib.rs:822-828 | the scan of the observed list finds an equivalent URL if and only if there is one |
| BrowserManagement.BrowserManager.ObserveNavigation | crates/athena-browser/src/lib.rs:808-842 | the panel function, the generation, and the errors |
| BrowserManagement.BrowserManager.ApplyPageLoad | crates/athena-browser/src/lib.rs:846-934 | the panel function of a page load in both phases, its events and the generation |
| BrowserManagement.BrowserManager.ApplyPageLoadForCurrentUrl | crates/athena-browser/src/lib.rs:939-952 | a callback for another URL than the committed one changes nothing, any other is a page load |
| BrowserManagement.BrowserManager.SetUrl | crates/athena-browser/src/lib.rs:956-977 | the panel function of a completed native URL |
| BrowserManagement.BrowserManager.SetTitle | crates/athena-browser/src/lib.rs:980-1000 | the title and its event |
| BrowserManagement.BrowserManager.RestorePanel | crates/athena-browser/src/lib.rs:733-757 | the saved panel is back, with its corrective events |
| BrowserManagement.BrowserManager.Shutdown | crates/athena-browser/src/lib.rs:1004-1008 | no panel is left |
| BrowserEvents.StatusIsTrue | crates/athena-browser/src/lib.rs:456-479 | every status told by any operation has the panel's id, loading state and generation, and says of each direction whether a move that way exists |
| BrowserEvents.ToolbarAgrees | crates/athena-browser/src/lib.rs:456-934 | over all runs of commands and callbacks the toolbar shows the loading state and the open ways, and the URL up to equivalence as long as no redirect finishes silently |
| BrowserEvents.SilentRedirectIsMissed | crates/athena-browser/src/lib.rs:918-930 | a toolbar that shows the URL stops doing so if and only if a started navigation finishes under another one |
| BrowserEvents.RedirectIsMissed | crates/athena-browser/src/lib.rs:918-930 | such a run, for every panel and every two URLs that are not equivalent |
| BrowserEvents.CommandsAwait | crates/athena-browser/src/lib.rs:542-648 | what each command leads to, and what its generation awaits and records |
| BrowserEvents.OpenedPanel | crates/athena-browser/src/lib.rs:488-501 | how a panel begins, with room for fifty entries |
| BrowserEvents.RequestSeen | crates/athena-browser/src/lib.rs:808-842 | a request admits a redirect once the navigation has started, nothing before, and begins a navigation when none is pending |
| BrowserEvents.LoadLeaves | crates/athena-browser/src/lib.rs:846-934 | which page loads count, what they answer and what they show |
| BrowserEvents.UrlReported | crates/athena-browser/src/lib.rs:956-977 | a completed URL reported without callbacks finishes the navigation that waits for it, or one of its own, with the entry it owes |
| BrowserEvents.OtherReported | crates/athena-browser/src/lib.rs:956-977 | what a report that is no web URL drops |
| BrowserRuns.AlwaysGood | crates/athena-browser/src/lib.rs:94-170 | in every reachable state, restores included, the two stacks together hold at most fifty entries and pending navigations are correlated: unstarted ones have observed only their target, started ones show it |
| BrowserRuns.BackMoves | crates/athena-browser/src/lib.rs:121-127 | back moves one place on the line of URLs, which stays as it is; nothing is trimmed |
| BrowserRuns.ForwardMoves | crates/athena-browser/src/lib.rs:130-135 | forward moves one place on the line, which stays as it is; nothing is trimmed |
| BrowserRuns.LineDetermines | crates/athena-browser/src/lib.rs:94-170 | the line and the place on it determine the URL and both stacks |
| BrowserRuns.BackAndForth | crates/athena-browser/src/lib.rs:567-632 | from any reachable panel, k backs then k forwards restore the URL and both stacks, for every k |
| BrowserCallbacks.ForeignCallbacksAreInert | crates/athena-browser/src/lib.rs:808-934 | until a navigation starts, any run of callbacks for other URLs leaves the panel as it is |
| BrowserCallbacks.HistoryChanges | crates/athena-browser/src/lib.rs:846-934 | a callback changes the history only by the entry it pushes |
| BrowserCallbacks.OneEntryPerGeneration | crates/athena-browser/src/lib.rs:522-534 | over all runs without a restore, entries are pushed by different generations in increasing order |
| BrowserCallbacks.SupersededIsInert | crates/athena-browser/src/lib.rs:766-804 | over all runs without a restore, load results of a superseded generation are dropped forever |
| BrowserCallbacks.FailureKeepsHistory | crates/athena-browser/src/lib.rs:788-804 | a navigation that fails before it commits, however it began and whatever callbacks came meanwhile, leaves history and URL as they were |
| BrowserCallbacks.FailedNavigation | crates/athena-browser/src/lib.rs:542-565 | so a failed command navigation costs the forward history and no more |
| BrowserCallbacks.FinishedNavigation | crates/athena-browser/src/lib.rs:846-934 | after any course of commands and callbacks that leaves a command navigation pending, with or without a Started of its own and through redirects, a Finished for an observed URL shows that URL and records the page left, once, unless it has no URL or one equivalent to the target |
| BrowserCallbacks.StaysPending | crates/athena-browser/src/lib.rs:766-934 | a navigation stays pending through requests seen, Started callbacks for whatever URLs, results of other generations and titles, and may finish with any URL equivalent to its target |
| BrowserCallbacks.BackUndoesNavigation | crates/athena-browser/src/lib.rs:542-599 | after any such course, going back from a finished navigation restores the URL and the back stack, less its oldest entry if it was full |
| OmpSession.FirstNewline | crates/athena-core/src/agent_detection.rs:687 | the end of the first line |
| OmpSession.Records | crates/athena-core/src/agent_detection.rs:687-690 | one record a line, decoded in order |
| OmpSnapshots.ParseOmpSession | crates/athena-core/src/agent_detection.rs:681-761 | the loop over the lines gives a snapshot if and only if the last session record has an id: with that id, the file time, the last valid prompt, its title, and the log's verdict under the exit rule |
| OmpSnapshots.OmpHeaderMatches | crates/athena-core/src/agent_detection.rs:763-783 | found if and only if some line is a session record of this directory |
| OmpSnapshots.ParseOmpSessionFile | crates/athena-core/src/agent_detection.rs:785-798 | nothing for another directory, else the snapshot of the records of both windows |
| OmpSnapshots.SnapshotOfRecords | crates/athena-core/src/agent_detection.rs:681-761 | the snapshot of the fold, from the last session record, the last valid prompt, the verdict and the exits alone |
| OmpSnapshots.WindowsOf | crates/athena-core/src/agent_detection.rs:785-798 | the windows are the first 16384 and the last 131072 bytes, a newline between them |
| OmpSnapshots.HeaderIs | crates/athena-core/src/agent_detection.rs:763-783 | a header is a session record that names the directory |
| OmpSnapshots.ValidPrompts | crates/athena-core/src/agent_detection.rs:364-376 | which prompts are worth showing |
| OmpWindows.ReplayIsIdempotent | crates/athena-core/src/agent_detection.rs:681-761 | folding over a block a second time changes nothing |
| OmpWindows.FoldsAgree | crates/athena-core/src/agent_detection.rs:681-761 | two folds of a block end with the same activity if and only if they start alike as far as the block looks |
| OmpWindows.ShortLogsReadWhole | crates/athena-core/src/agent_detection.rs:785-798 | any log of at most 128 KiB: the windows give what the whole file gives |
| OmpWindows.TailSettles | crates/athena-core/src/agent_detection.rs:785-798 | any longer log: activity, prompt and session agree whenever the tail holds a record that fixes them |
| OmpMisreadings.FoldVerdict | crates/athena-core/src/agent_detection.rs:681-761 | a block of records ends with its own last verdict, or keeps the activity, except that an exit ends a turn at work |
| OmpMisreadings.LongLogsAgree | crates/athena-core/src/agent_detection.rs:785-798 | any longer log: if the windows leave out no record, everything agrees; else activity, prompt and session agree, each if and only if the tail settles it, the records left out say nothing of it, or their last word is what was known from the prefix |
| OmpMisreadings.FoldLast | crates/athena-core/src/agent_detection.rs:681-761 | a block of records ends with the prompt and the session of its own last such records, or keeps those it started with |
| OmpMisreadings.LongLogsCanBeMisread | crates/athena-core/src/agent_detection.rs:785-798 | one decoder and one file on which the file says completed and the windows say working |
| OmpWindows.LongLogsReadWhole | crates/athena-core/src/agent_detection.rs:785-798 | a longer log with one header and a valid prompt in the tail gives the snapshot of the whole file |
| WindowVisibility.VisibleFraction | src-tauri/src/main.rs:582-597 | the sum of the intersections over the area, zero for a window without area |
| WindowVisibility.AreaCounts | src-tauri/src/main.rs:588-594 | an area is the number of pixels |
| WindowVisibility.SumCounts | src-tauri/src/main.rs:577-597 | the sum is at least the number of window pixels shown, and equal to it if and only if the monitors do not overlap on the window |
| WindowVisibility.FractionIsShare | src-tauri/src/main.rs:577-597 | on monitors that do not overlap the fraction is the share of pixels shown, between zero and one |
| WindowVisibility.OrderDoesNotMatter | src-tauri/src/main.rs:588-595 | the order of the monitors does not matter |
| RequestBudget.Connection.Allow | crates/athena-core/src/mcp_transport.rs:55-68 | which requests are allowed and what the counters become |
| RequestBudget.LifetimeLimit | crates/athena-core/src/mcp_transport.rs:55-68 | at most 10000 requests in all, whatever the clock does |
| RequestBudget.MinuteLimit | crates/athena-core/src/mcp_transport.rs:55-68 | with a nondecreasing clock, at most 480 requests in any closed interval of 60 s |
| RequestBudget.MinuteLimitIsReached | crates/athena-core/src/mcp_transport.rs:55-68 | and some run reaches 480 |
| RequestBudget.MinuteWithinOneWindow | crates/athena-core/src/mcp_transport.rs:55-68 | at most 240 in the minute from a on when no window begins after a |
| RequestBudget.MinuteExceeds | crates/athena-core/src/mcp_transport.rs:55-68 | with a nondecreasing clock, the minute from a on holds more than 240 if and only if its last window begins after a and what was allowed from a on before that window, added to its counter at the end of the minute, is more |
| RequestBudget.StartLimit | crates/athena-core/src/mcp_transport.rs:55-68 | at most 240 for each minute begun since the connection was made |
| RequestBudget.RefusedForAReason | crates/athena-core/src/mcp_transport.rs:55-68 | a request is refused only after 10000, or 240 within the last minute |
| SessionRegistry.OnePlaceStep | crates/athena-core/src/agent_comms_connection.rs:385-432 | every step keeps a session in one place: in the map, owed by one connection, announced once, or dropped |
| SessionRegistry.IdentitiesAreUnique | crates/athena-core/src/agent_comms_connection.rs:385-409 | in every interleaving no two sessions share plugin id and agent id |
| SessionRegistry.DisconnectedAtMostOnce | crates/athena-core/src/agent_comms_connection.rs:893-933 | in every interleaving `agents:disconnected` is emitted at most once per session, never while it is in the map |
| SessionRegistry.LateCloseIsInert | crates/athena-core/src/agent_comms_connection.rs:893-933 | after a reconnect, the late close of the superseded connection changes no session and no pending input and announces nothing |
| SessionRegistry.ReconnectSupersedes | crates/athena-core/src/agent_comms_connection.rs:385-409 | after a reconnect the new session is alone under its identity and all others are untouched |
| SessionRegistry.LiveInputsStay | crates/athena-core/src/agent_comms_connection.rs:411-420 | in every interleaving, evictions and closes never touch pending inputs of a session in the map |
| SessionRegistry.SecondInitialize | crates/athena-core/src/agent_comms_connection.rs:246-260 | a second initialize leaves the first session behind if and only if its identity differs |
| SessionRegistry.SessionsAreAccountedFor | crates/athena-core/src/agent_comms_connection.rs:385-432 | without `disconnect_agent` and shutdown, every session is in the map, about to be announced, or announced |
| SessionRegistry.QuietSessionsAreHereOrAnnounced | crates/athena-core/src/agent_comms_connection.rs:893-933 | when no connection is mid-way, a session is in the map if and only if it was not announced |
| SessionRegistry.InputsDieWithTheirSession | crates/athena-core/src/agent_comms_connection.rs:385-466 | over all runs without disconnect and shutdown, once no connection is mid-way no pending input is left of a session that is gone |
| SessionRegistry.ShutdownEmpties | crates/athena-core/src/agent_comms.rs:458-472 | whatever happens during a shutdown, it leaves neither sessions nor pending inputs |
| SessionRegistry.AnnouncementsNameTheSession | crates/athena-core/src/agent_comms_connection.rs:385-466 | over all runs, each announcement names the plugin and agent its session was opened for |
| AgentComms.Registry.FindMatching | crates/athena-core/src/agent_comms_connection.rs:386-393 | exactly the sessions under an identity, each once |
| AgentComms.Registry.HandleInitialize | crates/athena-core/src/agent_comms_connection.rs:385-466 | the whole new state of an uncontended initialize, with its announcements |
| AgentComms.Registry.CleanupConnection | crates/athena-core/src/agent_comms_connection.rs:893-933 | the whole new state of an uncontended close |
| AgentComms.Registry.DisconnectAgent | crates/athena-core/src/agent_comms.rs:434-453 | one session of the agent is removed silently, or there is none |
| AgentComms.Registry.Shutdown | crates/athena-core/src/agent_comms.rs:458-472 | both maps are emptied |
| AgentComms.InitializeIsItsSteps | crates/athena-core/src/agent_comms_connection.rs:385-466 | the steps of an initialize that evicts a session, in a row, lead to the state the method leaves |
| AgentComms.FirstInitializeIsItsSteps | crates/athena-core/src/agent_comms_connection.rs:385-466 | the same for one that evicts nobody |
| AgentComms.CloseIsItsSteps | crates/athena-core/src/agent_comms_connection.rs:893-933 | the steps of a close in a row lead to the state the method leaves |

## Left out

- Lifecycle parser: JSON objects with members other than strings and null, and `\u` escapes of code points from 0x80 up.
- Tracker: message texts and labels of alerts, titles derived by a language model, `tail_looks_waiting_for_input` and the recognition of agent commands (both are inputs), cloning of the tracker.
- Tracker: calls run one after another; the locks inside one call are not split into steps.
- Questions: question ids are unique, as the callers draw them; `app_handle` is a lock held while a question is shown and only decides whether it is shown.
- Questions: the interleaved protocol is modelled on values, one state per lock release; the class `TauriEventSender` covers its methods without interleaving.
- Browser: `normalize_url` and the URL parser are parameters; the theorems hold for any of them. Host validation is not modelled.
- Browser: no wrap-around of the generation counter; `operation_guard` and lock poisoning are not modelled.
- Browser: a restore puts back a panel that was saved earlier in the run.
- OMP log: the byte windows are exact; the decoder of one line is a parameter. Where a theorem needs it, a line cut by a window is assumed to decode as nothing or as the whole line. The caches, the search for the session file, and other agents' history formats are not modelled.
- OMP log: the file does not change between the two reads.
- Visible fraction: exact rational arithmetic instead of 64-bit floating point and 64-bit integers.
- Request budget: 32-bit counters cannot overflow below their limits, so they are unbounded here. The connection loop and the line limits are not modelled.
- Sessions: token check, message validation, statuses and heartbeats; an input request is an insertion under a fresh key and a removal, whatever ends it.
- Mutex poisoning and saturation of 64-bit counters: neither happens.
- Tauri wiring, sockets, PTY spawning, `ps`, the front end, plugins, kanban and file tools: input and output, or single-branch code.

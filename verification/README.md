# Verification of the telephony bridge's state machines

Dafny models of the stateful parts of the bridge daemon and its tools, with proofs of
what they promise over whole runs. Each part that changes state in place is a class
whose methods are proved to compute a specification function; the properties are then
proved of that function, over every input and every run.

| files | component |
|---|---|
| `Session.dfy`, `SessionTrace.dfy`, `SessionGuards.dfy`, `SessionArms.dfy` | one call's WebSocket session: the biased select loop, its message trace, its deadlines and limits, which arm each pass takes and how it ends |
| `LogExport.dfy` | the OTLP log hand-off: producers, bounded queue, worker and shutdown as interleaved atomic steps |
| `Reload.dfy`, `ReloadHistory.dfy` | configuration reload on SIGHUP, and histories of reloads |
| `Registration.dfy` | the registration driver: attempts, backoff, operator commands |
| `Console.dfy`, `Keymap.dfy`, `ConsoleRuns.dfy`, `ConsolePanes.dfy`, `ConsoleHistory.dfy`, `ConsoleDispatch.dfy`, `ConsoleKeys.dfy` | the fleet console: reducer, keys, whole sessions, whose data it shows, what it dispatches, what each key means |
| `Endpointer.dfy` | cutting a frame stream into utterances |
| `Reframer.dfy`, `Base64.dfy`, `MuLaw.dfy` | audio framing and packing, base64, mu-law |
| `Sequences.dfy` | shared vocabulary |

What a component cannot decide is an input of its run: which writes fail and what each
arm of the select would yield, the interleaving of threads, registrar answers and
wake-ups, whether a sink builds, the detector's verdict on a frame, messages and keys.
Time is a natural number of milliseconds.

Where code and documentation disagree, the model follows the code:

- `DisconnectReason::ControllerHungUp` documents a synthesized stop. The code writes one
  only when the control channel closes, not when an inbound channel does
  (`SessionTrace.HangUpWithoutStop`; the exact condition is `SessionTrace.StopExactly`).
- `restart_fingerprints` documents covering every startup-only section. The `registrar`
  and `webrtc` sections, and values that `Debug` redacts, are not covered, and a gateway's
  `recording` is not in its fingerprint line (`ReloadHistory.UnprintedEditIsSilent`,
  `ReloadHistory.RecordingEditIsSilent`, both from any reachable state and beside any
  other edit). The exact condition for an empty report, in terms of the startup and new
  configurations and the running sinks, is `ReloadHistory.SilentExactly`; what an empty
  report then guarantees is `ReloadHistory.SilentExactlyWhenApplied`.
- `ReloadState` documents that a failed swap is re-detected on the next reload. It is, but
  for each of the four parts the reload only happens once the file's text differs
  (`ReloadHistory.FailedBuildNeedsAnEdit`).
- A console action is permitted at the role known when its modal opened. A role lowered
  while the modal is up does not withdraw it (`ConsoleDispatch.ConfirmedAsShown`).

## Model

| member | source | states |
|---|---|---|
| `Session.Conn.constructor` | crates/bridge/src/conn.rs:605-670 | a session before its start message: next number 1, no deadline armed, expected frame size computed from the format |
| `Session.Conn.Send` | crates/bridge/src/conn.rs:698-712 | one write: on the wire exactly when the link takes it, and every attempt counts |
| `Session.Conn.CloseClean` | crates/bridge/src/conn.rs:874-885 | one Close frame with the normal code, or a failure |
| `Session.Conn.EmitFatal` | crates/bridge/src/conn.rs:892-920 | the error, then the stop only if the error got through; a number is used up for each attempt |
| `Session.Conn.RelayControl` | crates/bridge/src/conn.rs:676-704 | relaying a notice, ending after a stop, or the synthesized stop and Close when the channel is closed |
| `Session.Conn.ReceiveAudio` | crates/bridge/src/conn.rs:717-762 | wrong sizes dropped and reported at most once a second; a right size clears the start deadline and is handed over |
| `Session.Conn.Receive` | crates/bridge/src/conn.rs:715-827 | every kind of socket item, with its replies and its ending |
| `Session.Conn.KeepAlive` | crates/bridge/src/conn.rs:829-837 | a ping; the pong deadline is set only when none is outstanding |
| `Session.Conn.Pass` | crates/bridge/src/conn.rs:672-871 | one pass of the biased select: the first ready arm in program order, and its whole effect on the session |
| `Session.Conn.Greet` | crates/bridge/src/conn.rs:623-665 | the start message and the armed start deadline, or an ending when the write fails |
| `Session.Conn.RunLoop` | crates/bridge/src/conn.rs:597-872 | the whole loop returns with the state and ending of the specification run, for any passes and any failing writes |
| `SessionTrace.WireAlwaysOrdered` | crates/bridge/src/conn.rs:623-920 | in every run, with any writes failing, the texts written are one Start, then non-Stops, at most one Stop, the k-th numbered k modulo 2^64; only a Close can follow a Stop, and nothing follows a Close |
| `SessionTrace.AlwaysRelayed` | crates/bridge/src/conn.rs:672-920 | in every run and under every ending the wire shows exactly what the arms taken asked for: outbound audio, answers to pings with their own payloads, keepalive pings and controller notices, once each, in order. A run ended by a failed write may lack what its last arm asked for; a fatal ending, or the hang-up of the control channel, may add the session's own Stop; nothing else |
| `SessionTrace.HandleRelays` | crates/bridge/src/conn.rs:676-869 | the same of one arm, from any state |
| `SessionTrace.EndingFixesTail` | crates/bridge/src/conn.rs:676-869 | when writes succeed each ending fixes which arm was last and how the wire ends: the fatal endings by Error of their own code then Stop(error), stop-sent by the controller's Stop and a Close, server-closed and read errors without a Stop |
| `SessionTrace.StopExactly` | crates/bridge/src/conn.rs:676-869 | when writes succeed the wire holds a Stop if and only if the controller asked for one, its channel closed, or a fatal ending was reported |
| `SessionTrace.HangUpWithoutStop` | crates/bridge/src/conn.rs:759-761 | the documented synthesized stop is missing when the hang-up shows on the inbound audio channel |
| `SessionGuards.KeepaliveExact` | crates/bridge/src/conn.rs:829-855 | the pong deadline is set exactly while a ping is unanswered, at the first such ping's time plus the timeout; a keepalive ending comes only after that long without a Pong |
| `SessionGuards.TooSlowMeansSilent` | crates/bridge/src/conn.rs:661-665 | the start deadline, once cleared, never returns; a too-slow ending means it was configured and had passed and no right-size frame and no hangup was ever handled |
| `SessionGuards.AlwaysHandedOver` | crates/bridge/src/conn.rs:755-807 | the controller gets exactly the right-size frames and the well-addressed messages, in order; when it proves gone on an inbound item, exactly that item is missing |
| `SessionGuards.ThrottleSpaced` | crates/bridge/src/conn.rs:732-737 | reports chosen by the limiter are always at least a second apart |
| `SessionGuards.EveryWrongSizeCovered` | crates/bridge/src/conn.rs:731-754 | when writes succeed and the clock does not run back, every wrong-size frame handled has a report on the wire with it or less than a second before it |
| `SessionGuards.ReportsAlwaysThrottled` | crates/bridge/src/conn.rs:731-754 | the wrong-size errors on the wire are a prefix of the limiter applied to the wrong-size frames received, all of it unless a write failed |
| `SessionGuards.ReportsSpaced` | crates/bridge/src/conn.rs:731-754 | wrong-size errors on the wire are at least a second apart in every run |
| `SessionGuards.ClosedAudioStarvesSocket` | crates/bridge/src/conn.rs:706-711 | with the outbound audio channel closed the loop never reads the socket or a timer again: it can end only through the control channel or a failed write |
| `SessionArms.ArmExactly` | crates/bridge/src/conn.rs:672-871 | each pass takes exactly one arm, told from the pass, the configured durations and the arms before it: control, then outbound audio, then the socket, then a due ping, then an overdue pong, then an overdue start, else none |
| `SessionArms.EndingExactly` | crates/bridge/src/conn.rs:672-871 | the arm taken and the fate of its next two writes decide whether the session ends there, and which ending it is, for all eight endings |
| `SessionArms.TooSlowExactly` | crates/bridge/src/conn.rs:857-869 | server-too-slow ends a session if and only if nothing ahead is ready, no pong is overdue, a start deadline is set and past, and the server never spoke |
| `SessionArms.KeepaliveTimeoutExactly` | crates/bridge/src/conn.rs:839-855 | a keepalive timeout if and only if nothing ahead is ready and the first unanswered ping is at least the pong timeout old |
| `SessionArms.ReportsNameSizes` | crates/bridge/src/conn.rs:741-751 | in every run each wrong-size error has the audio_format code, the expected size, and the size of a frame handled at that moment |
| `SessionArms.FrameBytesMean` | crates/bridge/src/conn.rs:614-621 | for whole kilohertz the expected size is the frame's milliseconds of 16-bit samples of every channel |
| `LogExport.LogSink.constructor` | bins/siphon-ai/src/otel.rs:325-353 | the sink as installed: slot full, queue empty, worker waiting |
| `LogExport.LogSink.LoadSender` | bins/siphon-ai/src/otel.rs:219-224 | a producer takes its own reference to the sender, or nothing after the slot is emptied |
| `LogExport.LogSink.Offer` | bins/siphon-ai/src/otel.rs:225-225 | the record is queued when there is room, refused otherwise, in one atomic step |
| `LogExport.LogSink.CountDrop` | bins/siphon-ai/src/otel.rs:228-230 | a refusal is counted while the producer still holds its sender |
| `LogExport.LogSink.DropSender` | bins/siphon-ai/src/otel.rs:225-232 | the producer lets go of its reference |
| `LogExport.LogSink.ReceiveRecord` | bins/siphon-ai/src/otel.rs:247-247 | the worker takes the oldest record, or learns that no sender is left and the queue is empty |
| `LogExport.LogSink.ExportRecord` | bins/siphon-ai/src/otel.rs:248-248 | the record in hand is exported, once |
| `LogExport.LogSink.ReadDropCount` | bins/siphon-ai/src/otel.rs:252-253 | the worker reads the drop counter |
| `LogExport.LogSink.PublishDropCount` | bins/siphon-ai/src/otel.rs:254-265 | it publishes the count it read if that differs from the last published |
| `LogExport.LogSink.StoreNone` | bins/siphon-ai/src/otel.rs:371-373 | shutdown empties the slot |
| `LogExport.LogSink.JoinWorker` | bins/siphon-ai/src/otel.rs:374-377 | the join returns only after the worker has finished |
| `LogExport.NextKeepsInv` | bins/siphon-ai/src/otel.rs:204-267 | every atomic step of any thread keeps the invariant |
| `LogExport.AlwaysInv` | bins/siphon-ai/src/otel.rs:204-267 | for every interleaving: accepted = exported ++ in hand ++ queued, in order, at most 1024 queued; every offer is accounted for; no send ever met a missing worker, so each counted drop was a full queue; the metric never exceeds the count |
| `LogExport.OfferExactly` | bins/siphon-ai/src/otel.rs:225-231 | a send queues its record exactly when fewer than 1024 are waiting and is refused exactly when 1024 are |
| `LogExport.RefusedExactly` | bins/siphon-ai/src/otel.rs:225-231 | over any run a step is a refusal exactly when it is a send that found 1024 records waiting |
| `LogExport.FewAreNeverRefused` | bins/siphon-ai/src/otel.rs:98-103 | a run asked to log at most 1024 records refuses and drops none |
| `LogExport.HeldIsLoaded` | bins/siphon-ai/src/otel.rs:204-225 | what a producer sends is the record it was last asked to log |
| `LogExport.MetricAlwaysFresh` | bins/siphon-ai/src/otel.rs:245-267 | the drop counter is read once after each record exported and once at the end, and the metric shows the last reading once published |
| `LogExport.JoinDrains` | bins/siphon-ai/src/otel.rs:364-378 | when the join returns the queue is empty, everything accepted has been exported, and metric = counter = records refused |
| `LogExport.JoinedIsFinal` | bins/siphon-ai/src/otel.rs:364-378 | after the join no step of any thread changes anything |
| `LogExport.ClosedStepsDescend` | bins/siphon-ai/src/otel.rs:371-378 | after the slot is emptied every possible step brings the join nearer |
| `LogExport.ClosedNeverStuck` | bins/siphon-ai/src/otel.rs:371-378 | until the join returns some thread can take a step |
| `LogExport.ShutdownEnds` | bins/siphon-ai/src/otel.rs:364-378 | so every schedule of enabled steps from the close has at most a fixed number of steps, the state's rank, before the join |
| `Reload.Daemon.constructor` | bins/siphon-ai/src/reload.rs:335-349 | the rolling state taken from the startup configuration |
| `Reload.Daemon.RebuildWebhooks` | bins/siphon-ai/src/reload.rs:515-537 | the webhook sink and its baseline move together, and only on a successful swap |
| `Reload.Daemon.RebuildCdr` | bins/siphon-ai/src/reload.rs:539-554 | the same for the CDR sink |
| `Reload.Daemon.RebuildAudit` | bins/siphon-ai/src/reload.rs:556-604 | the same for the audit sink, null when disabled, and only named when auditing was off at startup |
| `Reload.Daemon.RebuildGateways` | bins/siphon-ai/src/reload.rs:606-628 | the gateway set is rebuilt when enabled, limits unchanged and lines different |
| `Reload.Daemon.ApplyReload` | bins/siphon-ai/src/reload.rs:463-631 | the whole reload: new state, and the names reported, in order |
| `Reload.Daemon.Sighup` | bins/siphon-ai/src/reload.rs:351-425 | one signal: unreadable, unchanged, invalid or applied; the remembered text moves only when applied |
| `ReloadHistory.RestartNamedExactly` | bins/siphon-ai/src/reload.rs:170-211 | each of the 17 restart-only parts is named if and only if what its own section shows, or a limit, differs from startup |
| `ReloadHistory.OneSectionNamed` | bins/siphon-ai/src/reload.rs:170-211 | an edit of what one restart-only section shows, and of nothing else with a reason to be named, is reported as exactly that section, once |
| `ReloadHistory.SignalExactly` | bins/siphon-ai/src/reload.rs:363-424 | an unreadable or invalid file is rejected, an unchanged text left alone, and an applied one reports exactly the labels that have a reason; the text is remembered only when applied |
| `ReloadHistory.OneGatewayEdited` | bins/siphon-ai/src/reload.rs:219-238 | replacing one gateway changes the fingerprint if and only if its name, host, port, transport, from, srtp or credentials differ |
| `ReloadHistory.GatewayEditApplied` | bins/siphon-ai/src/reload.rs:613-628 | any such edit of one running gateway is applied |
| `ReloadHistory.GatewaysSwapped` | bins/siphon-ai/src/reload.rs:213-218 | the order of the gateways in the file does not matter |
| `ReloadHistory.ApplyTruthful` | bins/siphon-ai/src/reload.rs:463-631 | whatever builds fail, every stored fingerprint and spool flag still describes the sink or gateway set actually running |
| `ReloadHistory.AlwaysTruthful` | bins/siphon-ai/src/reload.rs:351-425 | the same through any sequence of signals |
| `ReloadHistory.ReportExact` | bins/siphon-ai/src/reload.rs:475-604 | each label is in the report for its one reason and only then |
| `ReloadHistory.ReportComplete` | bins/siphon-ai/src/reload.rs:450-460 | after a reload each hot part runs the new value, or is named, or a named entry covers it, or its own build failed |
| `ReloadHistory.SilentExactlyWhenApplied` | bins/siphon-ai/src/reload.rs:158-162 | with all builds succeeding, an empty report means exactly that everything fingerprinted runs as the file says |
| `ReloadHistory.SilentExactly` | bins/siphon-ai/src/reload.rs:475-604 | the report is empty if and only if no restart-only section shows differently than at startup, no spool stands in the way of a changed sink, and auditing is not being turned on |
| `ReloadHistory.UnprintedEditIsSilent` | bins/siphon-ai/src/reload.rs:170-211 | from any state and beside any other edit: registrar, webrtc and whatever the rendering of any section hides have no fingerprint, so editing them changes neither the report nor what is applied, contrary to the doc comment |
| `ReloadHistory.RecordingEditIsSilent` | bins/siphon-ai/src/reload.rs:219-238 | from any reachable state and beside any other edit: an edit of gateways that keeps the running lines, of their recording modes alone, is neither applied nor reported |
| `ReloadHistory.GatewaysReplacedExactly` | bins/siphon-ai/src/reload.rs:613-628 | the new gateway set runs if and only if its lines changed or it was the same set |
| `ReloadHistory.HistoryClosedForm` | bins/siphon-ai/src/reload.rs:430-448 | after any history of successful builds the whole rolling state equals a closed form of the history: last routes, last spool-free sink configurations (or the startup ones), gateways and their lines under the startup limits |
| `ReloadHistory.GatewaysSinceHot` | bins/siphon-ai/src/reload.rs:606-628 | the gateways running are those of a configuration with the startup limits whose lines are the last configured under them |
| `ReloadHistory.GatewaysSinceNew` | bins/siphon-ai/src/reload.rs:606-628 | the lines configured before that one were different |
| `ReloadHistory.GatewaysSinceAlike` | bins/siphon-ai/src/reload.rs:606-628 | no later configuration with the startup limits shows other lines; so the recording modes running are those of the first one since the lines last changed |
| `ReloadHistory.StartupRestores` | bins/siphon-ai/src/reload.rs:430-448 | reloading the startup configuration after any history reports nothing and restores the startup state, gateways up to their recording modes |
| `ReloadHistory.ReapplyingChangesNothing` | bins/siphon-ai/src/reload.rs:376-382 | applying a configuration twice is applying it once, so skipping an unchanged file loses nothing when builds succeeded |
| `ReloadHistory.FailedBuildNeedsAnEdit` | bins/siphon-ai/src/reload.rs:397-424 | after a failed build of the webhook, CDR or audit sink or of the gateways, the next signal with the same configuration heals it if and only if the file text changed, though the change is still detectable |
| `ReloadHistory.DuePartBuilds` | bins/siphon-ai/src/reload.rs:515-628 | a part due to be built runs the new value exactly when its build succeeds, and stays due otherwise |
| `Registration.Driver.constructor` | bins/siphon-ai/src/registration.rs:89-100 | manager row and gauge row seeded alike before the loop starts |
| `Registration.Driver.PublishState` | bins/siphon-ai/src/registration.rs:600-617 | the new row is 1 and the previous, if different, 0 |
| `Registration.Driver.Report` | bins/siphon-ai/src/registration.rs:329-342 | manager, gauge and webhook for one status change; no webhook when the status is the same |
| `Registration.Driver.Send` | bins/siphon-ai/src/registration.rs:298-317 | the pending unregister, if any, then a full REGISTER |
| `Registration.Driver.Conclude` | bins/siphon-ai/src/registration.rs:319-394 | counter, status, backoff and webhook for one outcome |
| `Registration.Driver.Woken` | bins/siphon-ai/src/registration.rs:353-417 | what a timer, a command or the shutdown does to backoff, the pending unregister and the loop |
| `Registration.Driver.RunLoop` | bins/siphon-ai/src/registration.rs:242-421 | the whole driver, parked or not, equals the specification run over any outcomes and wake-ups |
| `Registration.AlwaysInStep` | bins/siphon-ai/src/registration.rs:252-394 | throughout every run exactly one gauge row is 1 and it is the manager's status; webhooks form an unbroken chain of real changes ending at it |
| `Registration.RunClosedForm` | bins/siphon-ai/src/registration.rs:285-420 | requests, waits, backoff and counters of every run are closed forms of its turns; the backoff depends only on the failures since the last grant or command |
| `Registration.OutputsClosedForm` | bins/siphon-ai/src/registration.rs:252-394 | after every run the manager's status, expiry and error text are those of the last turn taken, and the webhooks are exactly one for each turn that changed the status, with that turn's status, error and expiry, after that of a started parked binding |
| `Registration.BackoffDoubles` | bins/siphon-ai/src/registration.rs:402-403 | the wait after n+1 failures is twice that after n, up to 300 s |
| `Registration.UnregisterThenRegister` | bins/siphon-ai/src/registration.rs:298-317 | every unregister is at once followed by a full REGISTER |
| `Registration.RestartInvisible` | bins/siphon-ai/src/registration.rs:298-314 | replacing restarts by refreshes changes nothing but the unregisters: registrations, waits, backoffs, statuses, gauge, counters, webhooks are the same whatever the unregisters answered |
| `Console.App.constructor` | bins/sightglass/src/model.rs:561-577 | a fresh console: every node connecting and empty |
| `Console.VisibleCallsExactly` | bins/sightglass/src/model.rs:721-728 | a key is visible if and only if its node passes the filter and lists that call |
| `Console.VisibleRoomsExactly` | bins/sightglass/src/model.rs:733-770 | a row is visible if and only if its node passes the filter and lists that room, member or parked call |
| `Console.VisibleSystemExactly` | bins/sightglass/src/model.rs:774-778 | the System rows are exactly the nodes that pass the filter |
| `Console.App.ClampSelection` | bins/sightglass/src/model.rs:902-921 | all three selections brought into range, or to 0 when nothing is listed |
| `Console.App.FocusedCall` | bins/sightglass/src/model.rs:818-823 | the composite key under the call selection, if any |
| `Console.App.SyncStatsFocus` | bins/sightglass/src/model.rs:925-943 | a pane about another call is emptied and re-keyed; the ladder stays open |
| `Console.App.SelectNext` | bins/sightglass/src/model.rs:836-850 | one further on the list the tab shows, clamped; panes follow the call selection |
| `Console.App.SelectPrev` | bins/sightglass/src/model.rs:852-863 | one back, not below 0 |
| `Console.App.SelectFirst` | bins/sightglass/src/model.rs:865-876 | to the first |
| `Console.App.SelectLast` | bins/sightglass/src/model.rs:878-889 | to the last, or 0 when nothing is listed |
| `Console.App.CycleNodeFilter` | bins/sightglass/src/model.rs:892-900 | all, then each node in turn, then all again, with selection and panes following |
| `Console.App.ToggleLadder` | bins/sightglass/src/model.rs:948-958 | opening forgets the previous answer; closing also folds |
| `Console.App.Notify` | bins/sightglass/src/model.rs:695-704 | at most four notices, the oldest making room |
| `Console.App.AgeToasts` | bins/sightglass/src/model.rs:656-660 | notices a second older, those at the end of their life gone, order kept |
| `Console.App.TakeSnapshot` | bins/sightglass/src/model.rs:581-605 | an answer replaces the node's tables, a failure only its health; selection and panes follow |
| `Console.App.TakeStats` | bins/sightglass/src/model.rs:606-625 | an answer for another call changes nothing; one for the focus extends the histories |
| `Console.App.TakeLadder` | bins/sightglass/src/model.rs:626-652 | the same for the ladder, with its cursor kept inside |
| `Console.App.TakeOutcome` | bins/sightglass/src/model.rs:669-691 | the notice, and after a refusal the role it teaches |
| `Console.App.Update` | bins/sightglass/src/model.rs:579-693 | every message has exactly the effect of the specification, including the role a refusal teaches |
| `ConsoleRuns.AlwaysConsistent` | bins/sightglass/src/model.rs:579-693 | after any messages and keys: all selections in range or 0, both panes keyed by the focused call, ladder cursor inside, filter and roster valid, at most 120 samples and 4 notices each with 1 to 5 seconds left |
| `ConsoleRuns.RolesAreNotListed` | bins/sightglass/src/model.rs:664-690 | learning or lowering a role changes nothing that is visible |
| `ConsoleHistory.NodesAreAsReceived` | bins/sightglass/src/model.rs:579-691 | until it quits the console knows of each node exactly its name, how its last poll went, the tables of its last successful poll, and the role last probed or lowered by a refusal |
| `ConsoleHistory.HistoryIsNewestTotals` | bins/sightglass/src/model.rs:653-655 | the overview history is the newest 120 fleet totals, one a tick |
| `ConsoleHistory.NoticeLivesFiveTicks` | bins/sightglass/src/model.rs:656-660 | a notice is shown for five ticks |
| `ConsoleHistory.AgedApart` | bins/sightglass/src/model.rs:656-660 | notices age each by itself, in order |
| `ConsoleHistory.NoticeComesLast` | bins/sightglass/src/model.rs:695-704 | the newest notice comes last, after the newest three before it |
| `ConsoleHistory.MessagesNotify` | bins/sightglass/src/model.rs:653-676 | a finished action is announced in its own words, a tick ages the notices, no other message touches them |
| `ConsoleHistory.MoveLands` | bins/sightglass/src/model.rs:836-889 | where each of the four moves lands on the list its tab shows, and that nothing else moves |
| `ConsoleHistory.FilterGoesRound` | bins/sightglass/src/model.rs:892-900 | the filter goes from all nodes to each in turn and back |
| `ConsoleHistory.SnapshotClamps` | bins/sightglass/src/model.rs:603-604 | a poll leaves each selection where it was while its list reaches that far, and else at the end |
| `ConsoleHistory.LadderCursorStays` | bins/sightglass/src/model.rs:637-651 | the ladder cursor stays on its message while there is one |
| `ConsoleHistory.LadderFollows` | bins/sightglass/src/model.rs:933-942 | following the cursor to another call leaves the ladder up if it was up, asking afresh |
| `ConsoleHistory.CallsKeepNodeOrder` | bins/sightglass/src/model.rs:719-728 | the calls listed of a node are that node's, each as often and in its own order |
| `ConsoleHistory.CallsInFleetOrder` | bins/sightglass/src/model.rs:719-728 | the nodes of the calls listed come in fleet order |
| `ConsoleHistory.RoomsInFleetOrder` | bins/sightglass/src/model.rs:733-769 | so do those of the Rooms rows |
| `ConsoleHistory.RoomThenMembers` | bins/sightglass/src/model.rs:739-767 | a room's row is followed by its members' in order, and parked calls come last |
| `ConsoleRuns.PressDoes` | bins/sightglass/src/keys.rs:12-117 | every key does one of eight things: nothing, cycle, select, change tab, quit, work the ladder, open or answer a modal; with a modal up, only the last |
| `ConsolePanes.SettledMeans` | bins/sightglass/src/model.rs:923-943 | the focus has been what it is ever since the event counted as settling it |
| `ConsolePanes.StatsShowFocus` | bins/sightglass/src/model.rs:606-625 | the stats pane shows exactly the answers received for the focused call since the focus settled: the last answer and the newest 120 measured values of each series, however stale or reordered other answers are |
| `ConsolePanes.LadderShowsFocus` | bins/sightglass/src/model.rs:626-652 | the ladder shows nothing or the newest answer received for the focused call since the focus settled |
| `Keymap.TrimExactly` | bins/sightglass/src/model.rs:260-273 | trimming removes white space, only white space, and only at the two ends |
| `Keymap.SpacesAre` | bins/sightglass/src/model.rs:260-273 | the 25 characters trimming takes for white space |
| `Keymap.FirstMissing` | bins/sightglass/src/model.rs:262-268 | the first required field without text, and none exactly when every one has text |
| `Keymap.Guard` | bins/sightglass/src/keys.rs:121-135 | refused with a notice in read-only mode or under a known lower role, otherwise allowed silently |
| `Keymap.OpenConfirm` | bins/sightglass/src/keys.rs:140-156 | a confirm for the focused call, guarded by its action's own role |
| `Keymap.OpenCallForm` | bins/sightglass/src/keys.rs:160-175 | a form bound to the focused call, guarded as operator |
| `Keymap.OpenOriginate` | bins/sightglass/src/keys.rs:179-198 | the originate form on the filtered node, else the focused call's, else the first |
| `Keymap.RoomsDestroy` | bins/sightglass/src/keys.rs:203-238 | ending the room, kicking the member or hanging up the parked call under the cursor |
| `Keymap.RoomsRetrieve` | bins/sightglass/src/keys.rs:242-261 | the retrieve form, for a parked row only |
| `Keymap.SystemTarget` | bins/sightglass/src/keys.rs:265-268 | the node under the System cursor, if an admin action may be opened on it |
| `Keymap.SystemConfirm` | bins/sightglass/src/keys.rs:270-279 | a confirm naming that node |
| `Keymap.SystemLogFilter` | bins/sightglass/src/keys.rs:281-292 | the log-filter form on that node |
| `Keymap.CopyFocusedMessage` | bins/sightglass/src/keys.rs:353-364 | the clipboard escape for the selected ladder message, written to the terminal, and the notice with its byte count; or the notice that there is none |
| `Keymap.ClipboardHasMessage` | bins/sightglass/src/keys.rs:353-364 | whatever a key writes to the terminal is that escape, and decoding what it carries gives the selected message back |
| `Keymap.EditForm` | bins/sightglass/src/keys.rs:314-338 | moving between fields with wrap-around, typing and erasing in the active field only |
| `Keymap.ModalKey` | bins/sightglass/src/keys.rs:295-341 | each key of a confirm or a form: confirm, cancel, submit or keep it up |
| `Keymap.LadderKey` | bins/sightglass/src/keys.rs:24-51 | the keys the open ladder takes, one layer at a time, and what they write to the terminal |
| `Keymap.PlainKey` | bins/sightglass/src/keys.rs:53-115 | the keys with no modal up and the ladder not taking them |
| `Keymap.ActionKey` | bins/sightglass/src/keys.rs:75-114 | the action keys of each tab |
| `Keymap.Handle` | bins/sightglass/src/keys.rs:12-117 | every event, press or not, has exactly the specified effect, hands over exactly the specified action, and writes exactly the specified text to the terminal |
| `ConsoleKeys.KeyOpensExactly` | bins/sightglass/src/keys.rs:75-292 | with no modal up an event opens a modal if and only if it is the press of its own key on its own tab, for the action written out for that key and target and in that action's words, outside read-only mode, and the role learned for the node allows it |
| `ConsoleKeys.RefusalSaysWhy` | bins/sightglass/src/keys.rs:119-246 | an action key that opens nothing says why in one notice and does no more |
| `ConsoleKeys.PlainKeysMean` | bins/sightglass/src/keys.rs:53-71 | the keys without a letter: quit, tabs, selection |
| `ConsoleKeys.PlainLettersMean` | bins/sightglass/src/keys.rs:53-71 | the letters that mean the same on every tab |
| `ConsoleKeys.DigitsChooseTabs` | bins/sightglass/src/keys.rs:60-65 | 1 to 6 choose the six tabs |
| `ConsoleKeys.TabsGoRound` | bins/sightglass/src/model.rs:76-82 | Tab and its reverse go round the six tabs |
| `ConsoleKeys.LadderOpens` | bins/sightglass/src/model.rs:945-954 | s puts the ladder up for the focused call, asking afresh |
| `ConsoleKeys.LadderKeysMean` | bins/sightglass/src/keys.rs:24-51 | what each key of the open ladder does to it |
| `ConsoleKeys.SelectedIsUnderCursor` | bins/sightglass/src/model.rs:464-470 | the selected message is the one under the cursor |
| `ConsoleKeys.ConfirmKeysMean` | bins/sightglass/src/keys.rs:295-304 | a confirm is answered by y or Enter, dropped by n or Esc, deaf to all else |
| `ConsoleKeys.FormKeysMean` | bins/sightglass/src/keys.rs:305-339 | a form is dropped by Esc, submitted or refused by Enter, edited by all else |
| `ConsoleKeys.TypingMeans` | bins/sightglass/src/keys.rs:322-332 | what is typed goes into the active field alone, at its end |
| `ConsoleKeys.TabbingMeans` | bins/sightglass/src/keys.rs:314-321 | Tab and Down go round the fields forwards, their reverses backwards, and no other key moves |
| `ConsoleKeys.SubmitTakesFields` | bins/sightglass/src/model.rs:260-296 | each submitted text is that of the field so called, each kind gives its own action, and the first blank required field is the one named |
| `ConsoleKeys.RequiredRoleMeans` | bins/sightglass/src/model.rs:163-174 | originate, log-filter, probe and drain need an admin, all else an operator |
| `ConsoleKeys.DispatchFixedByKey` | bins/sightglass/src/keys.rs:119-341 | over every session the key that opened a modal fixes the constructor of what is dispatched, the role last received for its node before that key allows it, and a confirm's prompt is that action's own words and node |
| `ConsoleRuns.PressKeepsReady` | bins/sightglass/src/model.rs:240-248 | an open form always has the fields its submit indexes and an active field in range, whatever is pressed |
| `ConsoleDispatch.ModalHasOrigin` | bins/sightglass/src/keys.rs:119-156 | an open modal was opened by one key press, on what the cursor was then on, at its own role, and has been up ever since, whatever arrived meanwhile |
| `ConsoleDispatch.SubmitMeans` | bins/sightglass/src/model.rs:260-296 | what a form submits needs exactly the role the form was guarded with, keeps its target, and carries trimmed non-empty texts |
| `ConsoleDispatch.DispatchedWasPermitted` | bins/sightglass/src/keys.rs:119-341 | over every run each dispatched action targets an existing node, was permitted at its own required role when its modal opened, is about what the cursor was then on, and is filled in; never in read-only mode |
| `ConsoleDispatch.PromptNamesNode` | bins/sightglass/src/keys.rs:137-156 | a confirm's prompt always ends with the name of the node its action goes to |
| `ConsoleDispatch.DispatchedOnce` | bins/sightglass/src/keys.rs:295-313 | between two dispatches a key opened another modal: no opening is used twice |
| `ConsoleDispatch.ReadOnlyDispatchesNothing` | bins/sightglass/src/keys.rs:121-125 | in read-only mode no modal opens and nothing is dispatched, over every run |
| `ConsoleDispatch.ConfirmedAsShown` | bins/sightglass/src/keys.rs:295-303 | no message changes an open confirm: even after the role was lowered or the selection moved, Enter dispatches the action its prompt shows |
| `ConsoleDispatch.Take` | bins/sightglass/src/main.rs:136-146 | one event has the specified effect and hands over the specified action |
| `ConsoleDispatch.Serve` | bins/sightglass/src/main.rs:122-163 | the main loop leaves the state and dispatches the actions of the specification run, and tells the pollers the current focus |
| `Endpointer.Detector.constructor` | examples/openai-pipeline-bot-py/server.py:184-208 | an idle detector |
| `Endpointer.Detector.Process` | examples/openai-pipeline-bot-py/server.py:210-248 | one frame: new state and event |
| `Endpointer.Detector.Reset` | examples/openai-pipeline-bot-py/server.py:250-255 | back to idle |
| `Endpointer.Detector.ProcessAll` | examples/openai-pipeline-bot-py/server.py:210-248 | frame by frame over a whole stream, the specification run and its events |
| `Endpointer.AlwaysPlaced` | examples/openai-pipeline-bot-py/server.py:219-248 | between utterances the preroll is the newest frames since the last end and the speech count is exact; during one the buffer is the stream since its beginning, the silence count is exact, and it is under the cap |
| `Endpointer.EventsAlternate` | examples/openai-pipeline-bot-py/server.py:210-248 | starts and ends alternate over any stream and any verdicts |
| `Endpointer.StartExactly` | examples/openai-pipeline-bot-py/server.py:219-231 | a start comes exactly when the required run of speech since the last end is complete |
| `Endpointer.StartReachesBack` | examples/openai-pipeline-bot-py/server.py:219-228 | an utterance begins with its preroll: the newest frames since the last end, as many as configured, the starting one included |
| `Endpointer.EndExactly` | examples/openai-pipeline-bot-py/server.py:240-248 | an end comes exactly on the required trailing silence or the size cap |
| `Endpointer.UtterancesAreSlices` | examples/openai-pipeline-bot-py/server.py:219-255 | the utterances emitted are contiguous slices of the stream, in order and disjoint |
| `Endpointer.UtteranceBounded` | examples/openai-pipeline-bot-py/server.py:203-248 | with exact-size frames an utterance has at most max(cap, preroll + 1) frames |
| `Reframer.PackPcm16Le` | crates/bridge/src/audio.rs:69-75 | two bytes a sample, low byte first |
| `Reframer.UnpackPcm16Le` | crates/bridge/src/audio.rs:83-92 | odd lengths are an error, even ones the samples |
| `Reframer.LittleEndian` | crates/bridge/src/audio.rs:64-75 | the two bytes are the sample in two's complement, low byte first |
| `Reframer.FrameIs20Ms` | crates/bridge/src/audio.rs:94-105 | a frame is 20 ms of samples, at 8000 and 16000 Hz only, and the error names any other rate |
| `Reframer.UnpackPacked` | crates/bridge/src/audio.rs:69-92 | unpacking what was packed gives it back, for every sample value |
| `Reframer.PackUnpacked` | crates/bridge/src/audio.rs:69-92 | packing what was unpacked gives the bytes back |
| `Reframer.Buffer.Open` | crates/bridge/src/audio.rs:130-137 | a buffer for 8000 or 16000 Hz, the error naming any other rate |
| `Reframer.Buffer.Push` | crates/bridge/src/audio.rs:142-144 | samples appended |
| `Reframer.Buffer.PopFrame` | crates/bridge/src/audio.rs:150-156 | the oldest whole frame, or none |
| `Reframer.Buffer.Drain` | crates/bridge/src/audio.rs:112-116 | the pending samples cut into whole frames, less than one left |
| `Reframer.SamplesConserved` | crates/bridge/src/audio.rs:142-156 | under any pushes and pops, popped ++ pending is everything pushed, and every frame is exact |
| `Reframer.FramesIgnoreChunking` | crates/bridge/src/audio.rs:107-117 | the frames after a full drain depend only on the concatenated input |
| `Reframer.WireRecoversInput` | crates/bridge/src/audio.rs:69-156 | unpacking the packed frames, with what is pending, recovers the input |
| `Reframer.PackedFrameFitsSession` | crates/bridge/src/conn.rs:614-621 | each packed frame has exactly the size the session loop expects |
| `Base64.TableInOrder` | bins/sightglass/src/keys.rs:369-369 | the table holds the 64 letters in the order of section 4 of RFC 4648 |
| `Base64.Encode` | bins/sightglass/src/keys.rs:368-392 | the loop computes the encoding |
| `Base64.PushGroup` | bins/sightglass/src/keys.rs:372-389 | one group of four letters, padded for a short chunk |
| `Base64.DecodeEncoded` | bins/sightglass/src/keys.rs:368-392 | decoding the encoding gives every byte sequence back |
| `Base64.EncodedLength` | bins/sightglass/src/keys.rs:368-392 | the length is 4 times the length over 3, rounded up |
| `Base64.PaddingOnlyAtEnd` | bins/sightglass/src/keys.rs:380-389 | padding is only at the end, and as long as the last group is short |
| `MuLaw.UlawEncode` | test-harness/sipp-scenarios/gen_tone_pcap.py:22-33 | the loop finds the chord and yields the code word |
| `MuLaw.ChordUnique` | test-harness/sipp-scenarios/gen_tone_pcap.py:27-31 | the exponent found is the only e with 2^(e+7) <= biased magnitude < 2^(e+8) |
| `MuLaw.DecodeNear` | test-harness/sipp-scenarios/gen_tone_pcap.py:22-33 | for every integer, decoding lands within 2^(e+2) of the clipped sample |
| `MuLaw.DecodeMonotone` | test-harness/sipp-scenarios/gen_tone_pcap.py:22-33 | the decoded value never decreases as the sample grows |
| `MuLaw.CodesRoundTrip` | test-harness/sipp-scenarios/gen_tone_pcap.py:22-33 | encoding a decoded code gives it back if and only if it is not negative zero, 0x7F |

## Left out

- Session: the WebSocket handshake, TLS, upgrade headers and JSON text. Parsed messages are values, "malformed" is one kind of input, and a notice's own fields travel as one opaque detail.
- Session: JSON serialization failures, which the source calls impossible for its own types.
- Session: the one-second bound on the fatal emit after a keepalive timeout is a write that may fail; when the ping timer ticks is an input, as is the runtime's fairness, so no progress is claimed.
- Session: tracing, metrics and the readiness signal.
- LogExport: weak memory ordering. The steps are sequentially consistent.
- LogExport: a second activation, a second shutdown, a worker thread that cannot be started, the per-layer filter, and trace-context stamping.
- Reload: concrete hashes. A fingerprint stands for the printed section it hashes, the sorted gateway lines for their multiset, and the text of a file for a number.
- Reload: TLS certificate reload, audit events and counters of the handler, and the sinks' own delivery.
- Registration: the REGISTER transaction itself, its digest authentication and the registrar's answer, which is an input; `wait_for`'s handling of a closed command channel, so a wake-up is one of three inputs.
- Console: drawing, the admin client and the pollers; the outcome task behind a dispatched action, whose answer is a message like any other.
- Console: merged views of recent calls and errors, which only sort for display, and tables of a snapshot that nothing but drawing reads, carried as one opaque value.
- Console: scaling measured MOS and jitter to integers is floating point; the scaled values, if any, are inputs. Notice texts are kept structured. A SIP message is its UTF-8 bytes.
- Endpointer: the voice detector's internals; its verdict comes with each frame. The speech service around it is not part of this model.
- Reframer: capacity reserved in the pending deque.
- MuLaw: writing the pcap file and synthesizing the tone.
- The draining of calls at shutdown and trunk admission: short polls and an allowlist over crates not modelled here.

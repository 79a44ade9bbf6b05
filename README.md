# Application controller of the xiaozhi-esp32 voice assistant, modelled in Dafny

This project models the controller of the xiaozhi-esp32 voice-assistant client (`main/application.cc`).
The controller is one object with several parts:

- the device state and the listening and echo-cancellation modes;
- a few lifecycle flags: the activation worker is running, a protocol session exists, the audio channel is open;
- the pending-event flags of the reactor;
- the task list of the scheduler.

One reactor thread waits for flags and services them in a fixed order. Other threads do two things:

- they raise flags: the board's buttons and network layer, the audio service, the clock timer and the protocol's callbacks;
- they queue closures with `Schedule`, which the reactor later runs in order.

An activation worker runs beside the reactor. It does three things:

- it checks the assets once;
- it checks for a new firmware, with exponential back-off, and upgrades it;
- it polls the activation server, then starts the protocol and raises ActivationDone.

The model is organised in modules:

- `Types` holds the shared values: device states, modes, event flags, task descriptors, collaborator replies and effect-log entries.
- `Reactor` holds the fixed service order of one wake and the send-audio drain loop.
- `Messages` holds the dispatch of an inbound JSON control message by its `type` field, over a decoded message.
- `Policy` holds the pure deciders: the listening mode from the AEC mode, the transport variant, the digit-to-clip lookup of the activation code, the effects of entering each state, and the network-event callback.
- `Activation` holds the back-off arithmetic, the back-off wait loop and the bounded activation poll.
- `Controller` holds the class `Application`: its fields, the reactor wake `Step`, the handlers, the scheduler, the entry points other threads call, and the activation worker.

The class records every call it makes on a collaborator, in order, in the ghost log `trace`. That covers the display, LED, audio service, protocol session, OTA client and board. Three more ghost logs exist:

- `scheduled`: every task handed to the scheduler;
- `executed`: every task the reactor has run;
- `serviced`: every flag the reactor has serviced.

Some answers come from collaborators. They are parameters of the methods:

- whether an audio channel opens;
- whether the protocol takes a packet;
- whether the audio processor runs;
- the OTA server's check and activation answers;
- the outcome of a download.

The state machine's allow-list of transitions is not part of this model. It is the constructor parameter `transitions`, so every property holds for every allow-list.

A request `SetDeviceState(s)` works as follows:

- it is logged as `Requested(s)`;
- it moves the state only when the allow-list permits;
- an accepted move raises StateChanged, through the listener `Initialize` registers (lines 104-106).

The Starting request that `Initialize` makes first (line 74) comes before that listener exists, so it moves the state without raising StateChanged.

## Model

| member | source | states |
|---|---|---|
| Reactor.WakeOrder | main/application.cc:205-287 | one wake services each flag pending when it woke exactly once, no other flag, in strictly increasing rank of the fixed order; the number serviced equals the number pending, so repeats before the wake collapse to one |
| Reactor.ServicedOrder | main/application.cc:209-286 | the first n positions of the order service exactly the pending flags of rank below n, in increasing rank |
| Reactor.NoDuplicatesCardinality | main/application.cc:207 | a list of flags with strictly increasing ranks lists each flag of its set once, so its length is the number of pending flags |
| Reactor.Rank | main/application.cc:209-286 | every flag has a position below 13 in the service order, and the event at that position is the flag itself |
| Reactor.DrainSendQueue | main/application.cc:246-252 | the loop pops at most the whole queue. Without a protocol it pops everything and offers nothing. With one it offers the popped packets in queue order, every packet but the last offered was taken, and it stops before the end only right after a declined packet |
| Controller.Application.Step | main/application.cc:205-287 | one wake clears all pending flags together and services them in the fixed order (Reactor.WakeOrder). Only a reboot task can stop it early, inside the Schedule service. Afterwards only StateChanged or Schedule can be pending. Without the Schedule flag no task runs; with it, every task queued before the wake has run. The clock ticks restart at a state entry and count the ClockTick service |
| Controller.Application.WakeFront | main/application.cc:209-243 | the first eight services, Error to StopListening, each run exactly when its flag was pending |
| Controller.Application.WakeConnect | main/application.cc:209-218 | Error then NetworkConnected: the state afterwards is the one those two handlers produce |
| Controller.Application.WakeNetwork | main/application.cc:220-226 | NetworkDisconnected then ActivationDone, each serviced only if pending; only ActivationDone moves the state |
| Controller.Application.WakeUser | main/application.cc:228-235 | StateChanged then ToggleChat; the clock ticks are reset exactly when StateChanged was pending |
| Controller.Application.WakeListen | main/application.cc:237-243 | StartListening then StopListening, each only if pending, without touching the clock ticks |
| Controller.Application.WakeAudio | main/application.cc:245-264 | SendAudio, WakeWordDetected and VadChange, in that order, each only if pending |
| Controller.Application.WakeSchedule | main/application.cc:266-274 | the Schedule service runs the queued tasks only when its flag was pending. A restart can happen only there, and without a restart every task queued before the wake has run |
| Controller.Application.WakeClock | main/application.cc:276-286 | a tick adds one to the counter and refreshes the status bar, and every tenth tick also logs the heap statistics |
| Controller.Application.ServeNetwork | main/application.cc:209-226 | the four network and activation services append their flag at its rank. The Error and ActivationDone services request Idle. The NetworkConnected service requests Activating from Starting or WifiConfiguring. ActivationDone releases the OTA client |
| Controller.Application.ServeUser | main/application.cc:228-243 | the state-change and user-request services append their flag at its rank; only the StateChanged service resets the clock ticks |
| Controller.Application.ServeAudio | main/application.cc:245-264 | the audio services append their flag at its rank. The send-queue drain leaves the state alone. A voice-activity change refreshes the LED only while Listening |
| Controller.Application.Schedule | main/application.cc:918-924 | one task is appended to the task list and to the submission log, and the Schedule flag is raised |
| Controller.Application.DrainTasks | main/application.cc:267-274 | the whole task list is moved out and run in submission order. The tasks that ran are a prefix of it. All of them ran unless a reboot ran, and then the reboot ran last. A task queued meanwhile waits in the fresh list with the Schedule flag raised |
| Controller.Application.RunTask | main/application.cc:271-273 | one queued closure runs. Only the reboot task halts the device. The chat-line, emotion and MCP-send tasks change nothing but the log. Every task raises at most StateChanged and Schedule |
| Controller.Application.StartSpeaking | main/application.cc:565-568 | the `tts/start` task clears the abort flag and requests Speaking |
| Controller.Application.StopSpeaking | main/application.cc:570-578 | the `tts/stop` task acts only while Speaking: it requests Idle after a manual-stop turn and Listening otherwise; in any other state nothing changes |
| Controller.Application.FinishClosedChannel | main/application.cc:551-555 | the task posted when the channel closes clears the chat line and requests Idle |
| Controller.Application.CloseChannelTaskRun | main/application.cc:1047-1051 | the task closes the audio channel if and only if there is a protocol |
| Controller.Application.ApplyAec | main/application.cc:1083-1105 | the task reads the mode current when it runs. Device-side AEC is on only for the device-side mode, and the notice says off only for AecOff. An open channel is then closed |
| Controller.Application.DropProtocol | main/application.cc:1113-1120 | the reset task closes an open channel first, and afterwards there is no protocol |
| Controller.Application.SetDeviceState | main/application.cc:65-67 | a request moves the state if and only if the allow-list permits, and only an accepted move raises StateChanged (the listener at 104-106) |
| Controller.Application.Raise | main/application.cc:923 | raising a flag adds it to the pending set and removes nothing |
| Controller.Application.Alert | main/application.cc:687-696 | an alert shows its status, emotion and message, then plays its sound |
| Controller.Application.SetListeningMode | main/application.cc:934-937 | the mode is stored, then Listening is requested |
| Controller.Application.AbortSpeaking | main/application.cc:926-932 | the abort flag is set always; the abort notice with its reason is sent only when there is a protocol |
| Controller.Application.OpenAudioChannel | main/application.cc:541-547 | the channel is open exactly when the transport opens it, and only a successful open runs the opened callback's switch to performance power |
| Controller.Application.OnAudioChannelClosed | main/application.cc:549-556 | the closed callback restores low power and queues the task that clears the chat line and requests Idle |
| Controller.Application.CloseAudioChannel | main/application.cc:752 | after a close the channel is shut; with a transport that notifies on close, the closed callback runs |
| Controller.Application.CloseIfOpen | main/application.cc:942-944 | the channel is closed exactly when there is a protocol and its channel is open; otherwise nothing happens |
| Controller.Application.HandleError | main/application.cc:210-213 | the Error service requests Idle and then shows the last transport error with the exclamation clip |
| Controller.Application.HandleNetworkConnectedEvent | main/application.cc:293-317 | from Starting or WifiConfiguring, Activating is requested and the worker is running afterwards. A worker already running is not started again, and the status bar refresh is then skipped. In any other state only the status bar is refreshed |
| Controller.Application.HandleNetworkDisconnectedEvent | main/application.cc:319-330 | the channel is closed exactly when the state is Connecting, Listening or Speaking; the state itself is untouched, and the status bar is refreshed |
| Controller.Application.HandleActivationDoneEvent | main/application.cc:332-352 | Idle is requested. The server-time flag comes from the OTA client. The version is shown, the chat line cleared and the success clip played. The OTA client is released and low power restored |
| Controller.Application.HandleStateChangedEvent | main/application.cc:854-912 | every service resets the clock ticks, refreshes the LED and runs the entry effects of the current state only. The popup flag is cleared on entering Listening, so a deferred popup plays at most once |
| Policy.EntryIdle | main/application.cc:864-870 | entering Idle or Unknown turns voice processing off and wake-word detection on, and never the reverse |
| Policy.EntryWifiConfiguring | main/application.cc:904-907 | entering WifiConfiguring turns both voice processing and wake-word detection off and does nothing else |
| Policy.EntryListening | main/application.cc:876-893 | entering Listening sends the start notice, enables voice processing and disables detection if and only if the audio processor is not running; the popup plays if and only if it was deferred; the decoder is not reset |
| Policy.EntrySpeaking | main/application.cc:894-903 | entering Speaking always resets the decoder. Voice processing is turned off if and only if the mode is not realtime, and detection is then set to whether the AFE wake-word engine is built in |
| Policy.EntryOnly | main/application.cc:863-911 | only a Listening entry sends the start notice or plays the popup; only a Speaking entry resets the decoder; Starting, Activating, Upgrading and AudioTesting have no entry effects |
| Controller.Application.ListenFromIdle | main/application.cc:740-748 | from Idle with the channel closed, Connecting is requested and the channel opened. A failed open stops before any listening mode is set. Otherwise the mode is set and Listening requested |
| Controller.Application.HandleToggleChatEvent | main/application.cc:719-754 | Activating requests Idle. WifiConfiguring and AudioTesting switch audio testing on or off and request each other. Without a protocol nothing else happens. Idle listens in AutoStop when AEC is off, else Realtime, opening the channel first and stopping on a failed open. Speaking sets the abort flag and sends the abort with no reason. Listening only closes the channel, with Idle arriving later through the closed callback's task |
| Controller.Application.HandleStartListeningEvent | main/application.cc:756-786 | as the toggle from Idle, but always ManualStop. Speaking aborts with no reason, then requests Listening in ManualStop. AudioTesting, Listening and the other states are left alone |
| Controller.Application.HandleStopListeningEvent | main/application.cc:788-801 | AudioTesting switches testing off and requests WifiConfiguring. Listening sends the stop notice only if there is a protocol, then requests Idle. Any other state is left alone |
| Controller.Application.SendWakeWordPackets | main/application.cc:829-831 | every encoded wake-word packet is handed to the protocol, in order |
| Controller.Application.WakeInIdle | main/application.cc:813-841 | the wake word is encoded. A failed open turns wake-word detection back on and sets no listening mode. Otherwise the packets and the wake word are sent when streaming is built in, else the popup is deferred. Then Listening is requested in the mode the AEC allows |
| Controller.Application.HandleWakeWordDetectedEvent | main/application.cc:806-849 | without a protocol nothing happens. Idle runs the wake path: a failed open turns detection back on; otherwise Listening is reached, through Connecting when the channel had to be opened, in the mode the AEC allows, after the wake word is streamed and announced or, when streaming is not built in, the popup deferred. Speaking sets the abort flag and sends the abort with the wake-word reason. Activating requests Idle. Other states are left alone |
| Controller.Application.WakeWordInvoke | main/application.cc:1009-1053 | without a protocol nothing happens. Idle runs the same wake path, streaming only when that wake-word engine is built in: a failed open turns detection back on; otherwise Listening is reached, through Connecting when the channel had to be opened, with the wake word streamed or the popup deferred. Speaking queues an abort. Listening queues a channel close. Neither queued case touches the state or the channel at once |
| Controller.Application.Reboot | main/application.cc:939-950 | an open channel is closed, the protocol is dropped, the audio service stopped, and after a one-second pause the device restarts; nothing runs afterwards |
| Controller.Application.Initialize | main/application.cc:72-183 | Starting is requested, the user agent shown, the audio service started, the network started and the status bar refreshed, in that order. The Starting request moves the state if the allow-list permits but raises no StateChanged, because the listener is registered after it (104-106) |
| Controller.Application.OnNetworkEvent | main/application.cc:120-175 | the network callback shows the event's notice and raises the flags the event calls for |
| Policy.NetworkFlags | main/application.cc:120-175 | a connection raises NetworkConnected and nothing else does. A scan or a disconnection raises NetworkDisconnected. No other flag is ever raised |
| Policy.NetworkNotice | main/application.cc:120-175 | only the no-SIM and registration-denied modem errors play a clip, each its own. The configuration-mode events and a disconnection show nothing. A connection shows the network's name |
| Controller.Application.ToggleChatState | main/application.cc:707-709 | the button raises the ToggleChat flag and nothing else |
| Controller.Application.StartListening | main/application.cc:711-713 | the button raises the StartListening flag and nothing else |
| Controller.Application.StopListening | main/application.cc:715-717 | the button raises the StopListening flag and nothing else |
| Controller.Application.OnAudioEvent | main/application.cc:91-99 | the audio service's callbacks raise SendAudio, WakeWordDetected or VadChange |
| Controller.Application.OnClockTimer | main/application.cc:42-45 | the one-second timer raises ClockTick |
| Controller.Application.SendMcpMessage | main/application.cc:1072-1079 | an MCP message is always queued as a task, never sent on the caller's thread |
| Controller.Application.SetAecMode | main/application.cc:1081-1106 | the mode is stored at once and the task that applies it is queued |
| Controller.Application.ResetProtocol | main/application.cc:1112-1121 | the reset is queued as a task |
| Controller.Application.DismissAlert | main/application.cc:698-705 | the standby display comes back only in Idle; otherwise nothing is shown |
| Controller.Application.OnNetworkError | main/application.cc:530-533 | the transport's error message is stored for the Error service and the Error flag raised |
| Controller.Application.OnIncomingAudio | main/application.cc:535-539 | incoming audio is queued for decoding if and only if the device is Speaking |
| Controller.Application.OnIncomingJson | main/application.cc:559-652 | the message callback carries out what Messages.Dispatch decides. A task is queued with the Schedule flag, or an alert shown with the vibration clip, or the payload handed to the tool server. An ignored message changes nothing, and the device state is never changed here |
| Messages.Dispatch | main/application.cc:559-652 | `tts`/start and `tts`/stop post their tasks, and nothing else does. Only `system` with command `reboot` posts a reboot. An alert is shown exactly when status, message and emotion are all strings. MCP payloads go to the tool server exactly when the payload is an object, and the printed object is what it receives. A chat line is shown exactly for an assistant sentence or a user transcript carrying a text, or an enabled custom message carrying a payload object, with the role `assistant`, `user` or `system` and that text or payload. An emotion is shown exactly for an `llm` message carrying one. A `tts` message in any other state, unknown types and other system commands are ignored |
| Messages.KnownTypes | main/application.cc:562-649 | `custom` is a handled type exactly when that feature is built in |
| Controller.Application.CanEnterSleepMode | main/application.cc:1055-1070 | sleep is allowed only in Idle with an idle audio service. An open channel forbids it. Idle with an idle audio service and no open channel always allows it |
| Policy.ListeningModeFor | main/application.cc:748 | a toggle or wake word never listens in ManualStop, and listens in AutoStop exactly when AEC is off |
| Policy.ChooseTransport | main/application.cc:517-524 | WebSocket is chosen exactly when there is no MQTT configuration but a WebSocket one; MQTT otherwise, including when neither is configured |
| Controller.TransportOf | main/application.cc:517-524 | WebSocket is selected exactly when the OTA client's last reply has a WebSocket configuration and no MQTT one; an MQTT configuration, or the lack of any reply, selects MQTT |
| Controller.Application.InitializeProtocol | main/application.cc:510-655 | the loading status is shown and the chosen protocol started, with no audio channel open |
| Policy.DigitSound | main/application.cc:662-683 | a character of the activation code has a clip exactly when it is a decimal digit, and that clip is the digit's own |
| Policy.Find | main/application.cc:679-681 | the linear search finds nothing exactly when no entry has the character, and what it finds is an entry of the table for that character |
| Policy.FindFirst | main/application.cc:679-681 | what the linear search finds is the first entry for the character: no earlier entry has it |
| Policy.CodeSoundsShape | main/application.cc:678-684 | an activation code plays at most one clip per character, and only digit clips |
| Policy.CodeSoundsOfDigits | main/application.cc:678-684 | an all-digit code plays exactly one clip per character, in order, each the clip of its digit |
| Policy.CodeSoundsWithoutDigits | main/application.cc:678-684 | a code without digits plays nothing |
| Policy.CodeSoundsAppend | main/application.cc:678-684 | the clips of a concatenated code are the clips of its parts, in order |
| Controller.Application.ShowActivationCode | main/application.cc:657-685 | the activation alert with its clip, then the clip of every digit of the code in order, skipping other characters |
| Controller.Application.CheckAssetsVersion | main/application.cc:374-430 | the check runs at most once per process, and an unusable partition stops it. A stored URL is erased before the download starts and never survives the check. Without a URL the assets are applied. A failed download requests Activating and skips the apply |
| Controller.Application.DownloadAssets | main/application.cc:394-423 | the download is announced and Upgrading requested. A failure shows the error and requests Activating, and the result says whether to apply |
| Activation.RetryDelay | main/application.cc:435-463 | the delay after the k-th failure in a row is at least ten seconds and doubles with each further failure |
| Activation.RetryDelayMonotone | main/application.cc:463 | the retry delay never shrinks as failures accumulate |
| Activation.RetryDelays | main/application.cc:443-465 | every delay a failed check can announce lies between 10 and 10·2^8 seconds |
| Activation.TrailingFailuresMeans | main/application.cc:443-467 | the retry count is the number of failed checks at the end of the reply history, preceded by a success if any |
| Activation.TrailingFailuresSnoc | main/application.cc:443-467 | a failure adds one to the retry count; a success resets it to zero |
| Activation.WaitAfterSuccess | main/application.cc:466-467 | no wait follows a success |
| Activation.WaitAfterFailure | main/application.cc:454-463 | a failure below ten waits ten seconds after a success, and twice the previous wait after another failure |
| Activation.WaitAfterTenth | main/application.cc:444-448 | the tenth failure in a row is followed by no wait |
| Activation.WaitsSnoc | main/application.cc:443-467 | each further check adds exactly the wait that follows it |
| Activation.HistoryStep | main/application.cc:443-467 | one more reply moves the retry count, the waits and the stored successful reply one step on |
| Activation.WaitsAnnounced | main/application.cc:443-465 | every wait that follows a check is none or one of the delays a failed check can announce |
| Activation.BackoffWait | main/application.cc:457-462 | the wait sleeps at most the delay in one-second steps, at least once when the delay is positive, and is cut short only by a state read that finds Idle |
| Controller.Application.WaitBeforeRetry | main/application.cc:450-462 | the alert after the k-th failure announces RetryDelay(k) seconds; the sleeps that follow are those of BackoffWait |
| Activation.LastOk | main/application.cc:442 | the OTA client's stored reply changes only to the reply of a successful check |
| Controller.Application.CheckNewVersion | main/application.cc:432-505 | the check gives up exactly at the tenth failure in a row. It ends as finished only after a success with neither activation code nor challenge, and as restarted only after a success with a new firmware that installed. Every earlier success went on to the activation poll. The OTA client keeps the last successful reply. The wait after each check is RetryDelay(k) after the k-th failure in a row below ten, and none otherwise |
| Controller.Application.CheckRound | main/application.cc:438-504 | one round: the checking status is shown and the server asked. A failure counts one more and gives up at ten with nothing more logged. Any other failure shows the alert announcing RetryDelay(k) seconds, then sleeps one second per state read until that many have passed or a read found Idle, and doubles the delay; it makes no upgrade and no Activate call. A success resets count and delay, keeps the reply, upgrades a new firmware and, unless that restarted the device, logs what AfterCheck states; it ends the check only on a restart or nothing to activate |
| Controller.Application.NextRound | main/application.cc:438-504 | round i moves the retry count, the delay, the stored reply and the announced wait one reply on along the reply history, as the history functions of Activation say |
| Controller.Application.AfterCheck | main/application.cc:466-503 | a new firmware is upgraded first. Only a successful upgrade restarts the device. A failed one falls through to marking the version valid and the activation step. The log is the upgrade attempt, the version marked valid and, unless nothing is to be activated, the activation status, the code and the poll of between one and ten Activate calls |
| Controller.Application.TryUpgrade | main/application.cc:469-474 | the device restarts exactly when the upgrade succeeds |
| Controller.Application.ContinueRound | main/application.cc:477-503 | the running version is marked valid. The round finishes exactly when there is neither an activation code nor a challenge. Otherwise the activation status, the code and the activation poll follow, with at most ten Activate calls |
| Controller.Application.AwaitActivation | main/application.cc:483-503 | the activation status is shown, the code is shown only when present, and the poll makes between one and ten Activate calls |
| Activation.PollActivation | main/application.cc:490-503 | Activate is called at most ten times and at least once. Every call but the last failed and was followed by a read that did not find Idle. The poll ends early only on success or on an Idle read. Each non-success sleeps 3000 ms on a timeout and 10000 ms on any other error |
| Activation.PollLogShape | main/application.cc:490-503 | the poll's log has one Activate call per answer, and nothing but calls and the 3000 ms or 10000 ms sleeps |
| Activation.ActivateWait | main/application.cc:495-499 | a timeout sleeps 3000 ms, any other error 10000 ms |
| Controller.Application.UpgradeFirmware | main/application.cc:955-1007 | the channel is closed before the download and stays closed, and Upgrading is requested. A failed download returns false, restarts the audio service and leaves the state as it is. A successful one returns true, drops the protocol and restarts the device |
| Controller.Application.AnnounceUpgrade | main/application.cc:970-980 | the upgrade is announced, Upgrading requested and the audio service stopped before the download |
| Controller.Application.RecoverFromUpgrade | main/application.cc:991-998 | a failed upgrade restarts the audio service, restores low power and shows the failure |
| Controller.Application.RebootAfterUpgrade | main/application.cc:999-1005 | a successful upgrade shows its notice and then reboots, with nothing left to close |
| Controller.Application.ActivationTask | main/application.cc:357-372 | the worker creates a fresh OTA client and runs the assets check and the version check. A check that finished or gave up is followed by the protocol start and the ActivationDone flag, and the worker is no longer running. A restart ends everything there |
| Controller.Application.CompleteActivation | main/application.cc:368-371 | the protocol is started, ActivationDone raised, and the worker marked as finished (its handle cleared at 309) |
| Controller.Application.constructor | main/application.cc:25-52 | the controller starts in Unknown with the configured AEC mode, no pending flags, an empty task list, no protocol, no OTA client and no worker running |

## Left out

- The board file `main/boards/spdff-esp32-wifiwall/WifiWall_board_lcd.cc` is not part of this model. It is hardware bring-up, and its button handlers only call `ToggleChatState`, `StartListening`, `StopListening` and `WakeWordInvoke`, which are modelled.
- Concurrency: the event group, the mutex, task creation and the timer are not modelled as such, and interleavings are not explored. Producers are methods that add flags or tasks, and the reactor is one sequential `Step` per wake.
- The activation worker runs each step atomically between wakes. Its reads of the device state during the waits are the oracle `idleAt`, indexed by read number.
- The state machine's allow-list of transitions is not part of this model. It is the parameter `transitions`.
- The transports (`MqttProtocol`, `WebsocketProtocol`) are not part of this model. Whether closing a channel runs the closed callback inside the call is the configuration flag `closeNotifies`. Whether an open succeeds is a parameter. A failed open reports through `OnNetworkError`.
- The opened callback's sample-rate warning (543-546) is a log line and is left out. Its power switch is part of `OpenAudioChannel`.
- Collaborator internals are left out: `Ota::CheckVersion`, `Ota::Activate`, `Ota::Upgrade` and `Assets::Download` are answers, not byte transfers; `esp_restart` is the terminal flag `halted`; cJSON parsing is replaced by a decoded message `map`; `McpServer::ParseMessage` is the opaque log entry `McpParsed`; the audio codec and the wake-word engines are not modelled.
- `ota.cc` is not part of this model. The OTA client's `HasActivationCode` is taken to mean a non-empty activation code.
- Presentation is opaque: display and LED calls, language strings, alert text formatting and heap-statistics logging are log entries. The detached progress threads of the two downloads (407-413, 983-989) are left out.
- Compile-time configuration is fixed per instance in `Config`: the AEC mode, wake-word streaming for detected and for invoked wake words, the AFE wake-word engine, and custom messages. The `#error` for both AEC options (30-31) cannot arise, because `AecMode` holds one value.
- `PlaySound` (1108-1110) only forwards to the audio service and is not modelled.
- The destructor (54-60) only releases the timer and the event group and is not modelled.
- The dereferences the source does without checking are preconditions:
  - `protocol_` when a disconnection finds a conversation (324). The source does not guarantee this one: the reset task (1112-1121) drops the protocol without changing the state, so the device stays in Listening without a protocol until the Idle request queued by the closed callback runs, and for good with a transport that does not notify on close. A disconnection serviced meanwhile would dereference a null pointer. The model's precondition excludes that wake;
  - `protocol_` when Listening is entered with the audio processor stopped (883);
  - `ota_` in the ActivationDone service (338);
  - the `type` and `state` fields of a JSON message (561-564).
- Controller.Application.CheckNewVersion: the version check runs on a finite script of server replies, `w.replies`. When the script runs out the outcome is `OutOfScript`, whereas the source loops on. Its contract states the outcome, the OTA client and the waits, not the concatenated effect log. Each round's log is stated by CheckRound, and the loop does not chain them.
- Controller.Application.ActivationTask: the worker's effect log is stated only at its end (the protocol start). The assets check and the version check state their own logs.
- Controller.Application.TryUpgrade: the upgrade's log is returned as a ghost value. UpgradeFirmware states what it holds.
- Controller.Application.Step: the wake's effect log is not restated. Each handler's contract states its own part.
- Controller.Application.RunTask: it states the log only for the display and MCP tasks. The other tasks are the methods StartSpeaking, StopSpeaking, FinishClosedChannel, Reboot, CloseChannelTaskRun, ApplyAec and DropProtocol, whose own contracts state them.
- Controller.Application.ServeAudio: the send-audio drain's log is what Reactor.DrainSendQueue offers. The service's own contract only says that the state, the flags and the channel are untouched.
- Controller.Application.Alert: the sound is always played. The source skips an empty sound, but every call site passes one.
- `clock_ticks_` is a C `int`. It is modelled as an unbounded natural, because its wrap-around after 2^31 seconds is not reachable in practice.
- After a failed firmware upgrade the requested Upgrading state stays in force, as in the source. Nothing here requests another state.

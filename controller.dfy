/**
 * The application controller: one object holding the device state, the listening
 * and echo-cancellation modes, the lifecycle flags, the pending-event flags of the
 * reactor and the task queue of the scheduler.
 *
 * Every call the controller makes on the display, the LED, the audio service, the
 * protocol session, the OTA client or the board is recorded, in order, in the ghost
 * log `trace`. The tasks handed to the scheduler are recorded in `scheduled`, the
 * tasks run by the reactor in `executed`, and the flags the reactor services in
 * `serviced`. Collaborator answers (whether an audio channel opens, whether the audio
 * processor is running, what the OTA server replies) are parameters.
 */
module Controller {
  import opened Types
  import opened Reactor
  import opened Messages
  import opened Policy
  import opened Activation

  /** Build-time choices, fixed for one instance. */
  datatype Config = Config(
    aec: AecMode,                // the echo-cancellation mode the object starts with
    sendWakeWordData: bool,      // a detected wake word is streamed to the server before listening
    streamInvokedWakeWord: bool, // likewise for a wake word invoked by the board
    afeWakeWord: bool,           // the wake-word engine keeps running while the device speaks
    receiveCustom: bool,         // `custom` messages are shown
    closeNotifies: bool)         // the transport runs the channel-closed callback inside CloseAudioChannel

  /** How the version check ended. */
  datatype CheckOutcome =
    | Finished     // a successful check without activation code or challenge
    | GaveUp       // ten consecutive failed checks
    | Rebooted     // a firmware upgrade succeeded and the device restarted
    | OutOfScript  // the scripted server replies ran out while the loop was still running

  /** Everything the activation worker receives from outside. */
  datatype WorkerInputs = WorkerInputs(
    partitionValid: bool,                 // the assets partition is usable
    downloadOk: bool,                     // the assets download succeeds
    replies: seq<CheckReply>,             // the answers of successive version checks
    activate: nat -> ActivateResult,      // the answer of the n-th Activate call
    idleAt: nat -> bool,                  // the answer of the n-th device-state read: Idle or not
    upgradeOk: nat -> bool)               // the outcome of the n-th firmware upgrade

  /** Everything one reactor wake receives from outside. */
  datatype WakeInputs = WakeInputs(
    toggleOpens: bool,               // the channel opens when the toggle handler asks
    startOpens: bool,                // the channel opens when the start-listening handler asks
    wakeOpens: bool,                 // the channel opens when the wake-word handler asks
    processorRunning: bool,          // the audio processor's answer on entering Listening
    sendQueue: seq<Packet>,          // the audio send queue
    accepts: nat -> bool,            // whether the protocol takes the n-th packet offered
    wakeWord: string,                // the last wake word
    wakeWordPackets: seq<Packet>)    // the encoded wake-word audio

  /** An alert: status, emotion and message shown, then its sound played. */
  function AlertLog(kind: AlertKind, sound: Sound): seq<Effect>
  {
    [Shown(AlertBox(kind)), Played(sound)]
  }

  /** The `has_server_time` answer of the OTA client. */
  function ServerTimeOf(ota: OtaClient): bool
  {
    match ota.checked
    case Some(info) => info.serverTime
    case None => false
  }

  /** The protocol variant the OTA client's last successful reply asks for. */
  function TransportOf(ota: OtaClient): (r: Transport)
    ensures ota.checked.None? ==> r == Mqtt
    ensures ota.checked.Some? && ota.checked.value.mqttConfig ==> r == Mqtt
    // WebSocket exactly when the last reply carried a WebSocket configuration and no MQTT one
    ensures r == Websocket <==> ota.checked.Some? && !ota.checked.value.mqttConfig && ota.checked.value.websocketConfig
  {
    match ota.checked
    case Some(info) => ChooseTransport(info.mqttConfig, info.websocketConfig)
    case None => ChooseTransport(false, false)
  }

  /** The version text shown during an upgrade. */
  function VersionNotice(version: string): string
  {
    "NEW_VERSION" + (if version == "" then "(Manual upgrade)" else version)
  }

  /** A check reply that leads on to the activation poll: an activation code or a challenge is present. */
  predicate Activates(info: VersionInfo)
  {
    |info.activationCode| > 0 || info.activationChallenge
  }

  /** The assets download announced and run, up to the restored power level; the stored URL goes first. */
  function AssetsDownloadLog(url: string): seq<Effect>
  {
    [AssetsUrlErased] + AlertLog(LoadingAssetsAlert(url), UpgradeClip)
    + [Slept(3000), Requested(Upgrading), Power(Performance), Shown(ChatLine("system", "PLEASE_WAIT")),
       AssetsDownload(url), Power(LowPower), Slept(1000)]
  }

  /** The assets applied, the chat line cleared and the chip emotion shown. */
  const AssetsApplyLog: seq<Effect> := [AssetsApplied, Shown(ChatLine("system", "")), Shown(EmotionTag("microchip_ai"))]

  /** A failed assets download: the error alert, a pause, Activating requested. */
  const AssetsFailLog: seq<Effect> := AlertLog(AssetsDownloadFailedAlert, ExclamationClip) + [Slept(2000), Requested(Activating)]

  /** A firmware upgrade announced and run, up to the download. */
  function UpgradeLog(url: string, version: string): seq<Effect>
  {
    AlertLog(UpgradingAlert, UpgradeClip)
    + [Slept(3000), Requested(Upgrading), Shown(ChatLine("system", VersionNotice(version))), Power(Performance),
       AudioServiceStop, Slept(1000), FirmwareDownload(url)]
  }

  /** After a failed download: the audio service restarted, power saving restored, the error alert, a pause. */
  const UpgradeFailLog: seq<Effect> :=
    [AudioServiceStart, Power(LowPower)] + AlertLog(UpgradeFailedAlert, ExclamationClip) + [Slept(3000)]

  /** After a successful download: the notice, a pause, then the restart (the channel is closed already). */
  const UpgradeDoneLog: seq<Effect> :=
    [Shown(ChatLine("system", "Upgrade successful, rebooting...")), Slept(1000), AudioServiceStop, Slept(1000), Restarted]

  /** The start of every round of the version check: the checking status shown, the server asked. */
  const CheckingLog: seq<Effect> := [Shown(StatusText("CHECKING_NEW_VERSION")), VersionChecked]

  /**
   * A failed round that does not give up, from trace `t0` to `t1`: the checking status, the
   * alert announcing `wait` seconds, then one second per state read (reads `p0` to `polls - 1`)
   * until the wait is over or a read found Idle.
   */
  ghost predicate FailedRoundLogged(code: int, wait: nat, idleAt: nat -> bool, p0: nat, polls: nat,
                                   t0: seq<Effect>, t1: seq<Effect>)
  {
    p0 < polls <= p0 + wait
    && t1 == t0 + CheckingLog + AlertLog(CheckFailedAlert(wait, code), ExclamationClip) + Seconds(polls - p0)
    && (forall j :: p0 <= j < polls - 1 ==> !idleAt(j))
    && (polls < p0 + wait ==> idleAt(polls - 1))
  }

  /**
   * What follows a successful check when it did not restart the device, from trace `t0`
   * to `t1`: the upgrade attempt if any (`upgradeLog`), the version marked valid, and
   * unless the round `finished` the activation code and the poll (Activate calls `a0` to
   * `calls - 1`, state reads from `p0` on).
   */
  ghost predicate AfterCheckLogged(info: VersionInfo, activate: nat -> ActivateResult, finished: bool,
                                   upgradeLog: seq<Effect>, a0: nat, p0: nat, calls: nat, polls: nat,
                                   t0: seq<Effect>, t1: seq<Effect>)
  {
    if finished then
      t1 == t0 + upgradeLog + [VersionMarkedValid] && calls == a0 && polls == p0
    else
      a0 < calls <= a0 + MaxActivateCalls && p0 <= polls
      && t1 == t0 + upgradeLog + [VersionMarkedValid] + [Shown(StatusText("ACTIVATION"))]
         + CodeLog(info) + PollLog(Answers(activate, a0, calls - a0))
  }

  /**
   * One round of the version check, from trace `t0` to `t1`, with upgrade number `u0`,
   * Activate call number `a0` and state read number `p0` before it and `upgrades`, `calls`,
   * `polls` after it. A failure makes no upgrade and no Activate call; the tenth in a row
   * logs only the check, any other failure its back-off wait. A success makes the upgrade
   * a new firmware asks for and, unless that restarted the device, goes on as
   * AfterCheckLogged says.
   */
  ghost predicate RoundLogged(reply: CheckReply, stop: Option<CheckOutcome>, wait: nat, w: WorkerInputs,
                              upgradeLog: seq<Effect>, u0: nat, upgrades: nat, a0: nat, calls: nat, p0: nat, polls: nat,
                              t0: seq<Effect>, t1: seq<Effect>)
  {
    match reply
    case CheckFailed(code) =>
      upgrades == u0 && calls == a0 && upgradeLog == []
      && if stop == Some(GaveUp) then t1 == t0 + CheckingLog && polls == p0
         else FailedRoundLogged(code, wait, w.idleAt, p0, polls, t0, t1)
    case CheckOk(info) =>
      upgrades == u0 + (if info.newFirmware then 1 else 0)
      && (!info.newFirmware ==> upgradeLog == [])
      && (stop != Some(Rebooted) ==> AfterCheckLogged(info, w.activate, stop.Some?, upgradeLog, a0, p0, calls, polls, t0 + CheckingLog, t1))
  }

  /** The activation code's alert and digit clips, if the reply carries a code. */
  function CodeLog(info: VersionInfo): seq<Effect>
  {
    if |info.activationCode| > 0 then AlertLog(ActivationAlert(info.activationMessage), ActivationClip) + CodeSounds(info.activationCode)
    else []
  }

  class Application {
    /** The state machine's allow-list of transitions. */
    const transitions: set<(DeviceState, DeviceState)>
    const config: Config

    var state: DeviceState
    var listeningMode: ListeningMode
    var aecMode: AecMode
    var aborted: bool
    var playPopupOnListening: bool
    var clockTicks: nat
    var assetsVersionChecked: bool
    /** The persisted assets download URL ("" when none is stored). */
    var assetsDownloadUrl: string
    var activationRunning: bool
    var hasProtocol: bool
    var transport: Transport
    var channelOpen: bool
    var ota: Option<OtaClient>
    var hasServerTime: bool
    var lastErrorMessage: string
    /** The reactor's pending-event flags. */
    var pending: set<Event>
    /** The scheduler's task list. */
    var tasks: seq<Task>
    /** Set by a restart: nothing runs afterwards. */
    var halted: bool

    ghost var trace: seq<Effect>
    ghost var scheduled: seq<Task>
    ghost var executed: seq<Task>
    ghost var serviced: seq<Event>

    predicate CanTransition(from: DeviceState, to: DeviceState)
    {
      (from, to) in transitions
    }

    /** The state after requesting `to` in state `from`. */
    function After(from: DeviceState, to: DeviceState): DeviceState
    {
      if CanTransition(from, to) then to else from
    }

    /** The flag an accepted request raises. */
    function Moved(from: DeviceState, to: DeviceState): set<Event>
    {
      if CanTransition(from, to) then {Event.StateChanged} else {}
    }

    /** What CloseAudioChannel logs, queues and raises (nothing if `closing` is false). */
    function CloseLog(closing: bool): seq<Effect>
    {
      if !closing then [] else [ChannelClose] + (if config.closeNotifies then [Power(LowPower)] else [])
    }

    function CloseTasks(closing: bool): seq<Task>
    {
      if closing && config.closeNotifies then [ChannelClosedTask] else []
    }

    function CloseFlags(closing: bool): set<Event>
    {
      if closing && config.closeNotifies then {Event.Schedule} else {}
    }

    /** One request of `to` from `from`: the state moves if the allow-list permits, and StateChanged is raised. */
    twostate predicate Went(from: DeviceState, to: DeviceState)
      reads this
    {
      state == After(from, to) && pending == old(pending) + Moved(from, to)
    }

    /** Two requests in a row: `mid`, then `to`. */
    twostate predicate Went2(from: DeviceState, mid: DeviceState, to: DeviceState)
      reads this
    {
      var m := After(from, mid);
      state == After(m, to) && pending == old(pending) + Moved(from, mid) + Moved(m, to)
    }

    /** An open audio channel belongs to a protocol. */
    ghost predicate Sane()
      reads this
    {
      channelOpen ==> hasProtocol
    }

    /** Every task handed to the scheduler has run or is still queued, in submission order. */
    ghost predicate Fifo()
      reads this
    {
      !halted ==> scheduled == executed + tasks
    }

    ghost predicate Valid()
      reads this
    {
      && Sane() && Fifo()
      // a queued task always has the Schedule flag raised, so it is run by a later wake
      && (tasks != [] ==> Event.Schedule in pending)
      // ActivationDone is only raised while the OTA client is held
      && (Event.ActivationDone in pending ==> ota.Some?)
    }

    /**
     * What every handler and task keeps: no flag is cleared, the only flags raised are
     * StateChanged and Schedule, and a task queued on an empty list raises Schedule.
     */
    twostate predicate Raised()
      reads this
    {
      && old(pending) <= pending <= old(pending) + {Event.StateChanged, Event.Schedule}
      && (old(tasks) == [] && tasks != [] ==> Event.Schedule in pending)
    }

    /** As Raised, and every task submitted before is still recorded, in order. */
    twostate predicate Grew()
      reads this
    {
      Raised() && old(scheduled) <= scheduled
    }

    /**
     * Within one wake whose flags were `bits`, before the Schedule service: the only flags
     * raised since are StateChanged and Schedule, a queued task has its Schedule flag raised
     * now or in `bits`, and `sch0` is still a prefix of the submitted tasks.
     */
    ghost predicate Amid(bits: set<Event>, sch0: seq<Task>)
      reads this
    {
      && Sane() && Fifo() && !halted
      && pending <= {Event.StateChanged, Event.Schedule}
      && (tasks != [] ==> Event.Schedule in pending || Event.Schedule in bits)
      && sch0 <= scheduled
    }

    /** The scheduled tasks are `prefix` followed by the queue. */
    ghost predicate QueuedAfter(prefix: seq<Task>)
      reads this
    {
      scheduled == prefix + tasks
    }

    /** Only the effect log and the fields named in a contract's other clauses may have changed. */
    twostate predicate Quiet()
      reads this
    {
      && state == old(state) && pending == old(pending) && tasks == old(tasks) && scheduled == old(scheduled)
      && channelOpen == old(channelOpen) && hasProtocol == old(hasProtocol) && aborted == old(aborted)
      && halted == old(halted)
    }

    constructor (transitions: set<(DeviceState, DeviceState)>, config: Config, storedAssetsUrl: string)
      ensures this.transitions == transitions && this.config == config
      ensures Valid() && !halted
      ensures state == Unknown && aecMode == config.aec && pending == {} && tasks == []
      ensures !hasProtocol && !channelOpen && ota.None? && !activationRunning && !assetsVersionChecked
      ensures assetsDownloadUrl == storedAssetsUrl && clockTicks == 0
      ensures trace == [] && scheduled == [] && executed == [] && serviced == []
    {
      this.transitions := transitions;
      this.config := config;
      state := Unknown;
      listeningMode := AutoStop;
      aecMode := config.aec;
      aborted := false;
      playPopupOnListening := false;
      clockTicks := 0;
      assetsVersionChecked := false;
      assetsDownloadUrl := storedAssetsUrl;
      activationRunning := false;
      hasProtocol := false;
      transport := Mqtt;
      channelOpen := false;
      ota := None;
      hasServerTime := false;
      lastErrorMessage := "";
      pending := {};
      tasks := [];
      halted := false;
      trace := [];
      scheduled := [];
      executed := [];
      serviced := [];
    }

    /** Requests a state; the state machine decides. */
    method SetDeviceState(next: DeviceState)
      modifies this`state, this`pending, this`trace
      ensures Went(old(state), next)
      ensures trace == old(trace) + [Requested(next)]
    {
      trace := trace + [Requested(next)];
      if CanTransition(state, next) {
        state := next;
        pending := pending + {Event.StateChanged};
      }
    }

    /** Sets a flag of the reactor's event group. */
    method Raise(e: Event)
      modifies this`pending
      ensures pending == old(pending) + {e}
    {
      pending := pending + {e};
    }

    /** Queues a task for the reactor and raises the Schedule flag. */
    method Schedule(t: Task)
      modifies this`tasks, this`scheduled, this`pending
      ensures tasks == old(tasks) + [t] && scheduled == old(scheduled) + [t]
      ensures pending == old(pending) + {Event.Schedule}
    {
      tasks := tasks + [t];
      scheduled := scheduled + [t];
      pending := pending + {Event.Schedule};
    }

    method Alert(kind: AlertKind, sound: Sound)
      modifies this`trace
      ensures trace == old(trace) + AlertLog(kind, sound)
    {
      trace := trace + AlertLog(kind, sound);
    }

    /** The closed callback: power saving back to low, then Idle requested through the scheduler. */
    method OnAudioChannelClosed()
      modifies this`trace, this`tasks, this`scheduled, this`pending
      ensures trace == old(trace) + [Power(LowPower)]
      ensures tasks == old(tasks) + [ChannelClosedTask] && scheduled == old(scheduled) + [ChannelClosedTask]
      ensures pending == old(pending) + {Event.Schedule}
    {
      trace := trace + [Power(LowPower)];
      Schedule(ChannelClosedTask);
    }

    method CloseAudioChannel()
      modifies this`channelOpen, this`trace, this`tasks, this`scheduled, this`pending
      ensures !channelOpen
      ensures trace == old(trace) + CloseLog(true)
      ensures tasks == old(tasks) + CloseTasks(true) && scheduled == old(scheduled) + CloseTasks(true)
      ensures pending == old(pending) + CloseFlags(true)
    {
      channelOpen := false;
      trace := trace + [ChannelClose];
      if config.closeNotifies {
        OnAudioChannelClosed();
      }
    }

    /** Opens the audio channel; `opens` is the transport's answer. Success runs the opened callback. */
    method OpenAudioChannel(opens: bool) returns (ok: bool)
      modifies this`channelOpen, this`trace
      ensures ok == opens && channelOpen == opens
      ensures trace == old(trace) + [ChannelOpen] + (if opens then [Power(Performance)] else [])
    {
      trace := trace + [ChannelOpen];
      channelOpen := opens;
      if opens {
        trace := trace + [Power(Performance)];
      }
      ok := opens;
    }

    method SetListeningMode(mode: ListeningMode)
      modifies this`listeningMode, this`state, this`pending, this`trace
      ensures listeningMode == mode && Went(old(state), Listening)
      ensures trace == old(trace) + [Requested(Listening)]
    {
      listeningMode := mode;
      SetDeviceState(Listening);
    }

    method AbortSpeaking(reason: AbortReason)
      modifies this`aborted, this`trace
      ensures aborted
      ensures trace == old(trace) + (if hasProtocol then [AbortSent(reason)] else [])
    {
      aborted := true;
      if hasProtocol {
        trace := trace + [AbortSent(reason)];
      }
    }

    /** The reactor's Error service: Idle requested, then the last transport error shown. */
    method HandleError()
      requires Sane() && Fifo()
      modifies this`state, this`pending, this`trace
      ensures Sane() && Fifo() && Grew()
      ensures Went(old(state), Idle)
      ensures trace == old(trace) + [Requested(Idle)] + AlertLog(NetworkErrorAlert(lastErrorMessage), ExclamationClip)
    {
      SetDeviceState(Idle);
      Alert(NetworkErrorAlert(lastErrorMessage), ExclamationClip);
    }

    method HandleNetworkConnectedEvent()
      requires Sane() && Fifo()
      modifies this`state, this`pending, this`trace, this`activationRunning
      ensures Sane() && Fifo() && Grew()
      // from Starting or WifiConfiguring: Activating requested and the worker started unless it runs already
      ensures old(state) in {Starting, WifiConfiguring} ==> Went(old(state), Activating) && activationRunning
      ensures old(state) in {Starting, WifiConfiguring} && old(activationRunning) ==>
        trace == old(trace) + [Requested(Activating)]
      ensures old(state) in {Starting, WifiConfiguring} && !old(activationRunning) ==>
        trace == old(trace) + [Requested(Activating), Shown(StatusBarRefresh)]
      // in any other state only the status bar is refreshed
      ensures old(state) !in {Starting, WifiConfiguring} ==>
        trace == old(trace) + [Shown(StatusBarRefresh)] && unchanged(this`state, this`pending, this`activationRunning)
    {
      if state == Starting || state == WifiConfiguring {
        SetDeviceState(Activating);
        if activationRunning {
          return;
        }
        activationRunning := true;
      }
      trace := trace + [Shown(StatusBarRefresh)];
    }

    method HandleNetworkDisconnectedEvent()
      requires state in {Connecting, Listening, Speaking} ==> hasProtocol
      requires Sane() && Fifo()
      modifies this`channelOpen, this`trace, this`tasks, this`scheduled, this`pending
      ensures Sane() && Fifo() && Grew()
      // a conversation in progress has its channel closed; the state itself is left alone
      ensures var closing := old(state) in {Connecting, Listening, Speaking};
        && trace == old(trace) + CloseLog(closing) + [Shown(StatusBarRefresh)]
        && tasks == old(tasks) + CloseTasks(closing) && scheduled == old(scheduled) + CloseTasks(closing)
        && pending == old(pending) + CloseFlags(closing)
        && channelOpen == (old(channelOpen) && !closing)
    {
      if state == Connecting || state == Listening || state == Speaking {
        CloseAudioChannel();
      }
      trace := trace + [Shown(StatusBarRefresh)];
    }

    method HandleActivationDoneEvent()
      requires ota.Some?
      requires Sane() && Fifo()
      modifies this`state, this`pending, this`trace, this`hasServerTime, this`ota
      ensures Sane() && Fifo() && Grew()
      ensures Went(old(state), Idle)
      ensures hasServerTime == ServerTimeOf(old(ota).value)
      // the OTA client is released
      ensures ota.None?
      ensures trace == old(trace) + [HeapStatsLogged, Requested(Idle), Shown(Notice("VERSION" + old(ota).value.currentVersion)),
        Shown(ChatLine("system", "")), Played(SuccessClip), Power(LowPower)]
    {
      trace := trace + [HeapStatsLogged];
      SetDeviceState(Idle);
      hasServerTime := ServerTimeOf(ota.value);
      trace := trace + [Shown(Notice("VERSION" + ota.value.currentVersion)), Shown(ChatLine("system", "")), Played(SuccessClip)];
      ota := None;
      trace := trace + [Power(LowPower)];
    }

    /**
     * The StateChanged service: it reads only the current state, resets the clock
     * ticks, refreshes the LED and runs the entry effects of that state.
     */
    method HandleStateChangedEvent(processorRunning: bool)
      requires state == Listening && !processorRunning ==> hasProtocol
      modifies this`clockTicks, this`trace, this`playPopupOnListening
      ensures clockTicks == 0
      ensures trace == old(trace) + [Shown(LedRefresh)]
        + EntryEffects(state, listeningMode, processorRunning, old(playPopupOnListening), config.afeWakeWord)
      // the popup flag is cleared on entering Listening, so the popup plays at most once per request
      ensures playPopupOnListening == (old(playPopupOnListening) && state != Listening)
    {
      clockTicks := 0;
      trace := trace + [Shown(LedRefresh)];
      ghost var t0 := trace;
      match state {
        case Unknown =>
          trace := t0 + [Shown(StatusText("STANDBY")), Shown(EmotionTag("neutral")), VoiceProcessing(false), WakeWordDetection(true)];
        case Idle =>
          trace := t0 + [Shown(StatusText("STANDBY")), Shown(EmotionTag("neutral")), VoiceProcessing(false), WakeWordDetection(true)];
        case Connecting =>
          trace := t0 + [Shown(StatusText("CONNECTING")), Shown(EmotionTag("neutral")), Shown(ChatLine("system", ""))];
        case Listening =>
          var starting: seq<Effect> := [];
          if !processorRunning {
            starting := [StartListeningSent(listeningMode), VoiceProcessing(true), WakeWordDetection(false)];
          }
          var popup: seq<Effect> := [];
          if playPopupOnListening {
            playPopupOnListening := false;
            popup := [Played(PopupClip)];
          }
          trace := t0 + [Shown(StatusText("LISTENING")), Shown(EmotionTag("neutral"))] + starting + popup;
        case Speaking =>
          var quiet: seq<Effect> := [];
          if listeningMode != Realtime {
            quiet := [VoiceProcessing(false), WakeWordDetection(config.afeWakeWord)];
          }
          trace := t0 + [Shown(StatusText("SPEAKING"))] + quiet + [DecoderReset];
        case WifiConfiguring =>
          trace := t0 + [VoiceProcessing(false), WakeWordDetection(false)];
        case _ =>
      }
    }

    /**
     * The Idle branch shared by the toggle and the start-listening handlers: request
     * Connecting and open the channel if it is closed, stopping on a failed open; then
     * listen in `mode`.
     */
    method ListenFromIdle(opens: bool, mode: ListeningMode)
      modifies this`state, this`pending, this`trace, this`channelOpen, this`listeningMode
      ensures channelOpen == (old(channelOpen) || opens)
      ensures old(channelOpen) ==>
        Went(old(state), Listening) && listeningMode == mode && trace == old(trace) + [Requested(Listening)]
      ensures !old(channelOpen) && !opens ==>
        Went(old(state), Connecting) && trace == old(trace) + [Requested(Connecting), ChannelOpen]
        && listeningMode == old(listeningMode)
      ensures !old(channelOpen) && opens ==>
        Went2(old(state), Connecting, Listening) && listeningMode == mode
        && trace == old(trace) + [Requested(Connecting), ChannelOpen, Power(Performance), Requested(Listening)]
    {
      if !channelOpen {
        SetDeviceState(Connecting);
        var ok := OpenAudioChannel(opens);
        if !ok {
          return;
        }
      }
      SetListeningMode(mode);
    }

    method HandleToggleChatEvent(opens: bool)
      requires Sane() && Fifo()
      modifies this`state, this`pending, this`trace, this`channelOpen, this`listeningMode, this`aborted,
        this`tasks, this`scheduled
      ensures Sane() && Fifo() && Grew()
      ensures old(state) == Activating ==>
        Went(Activating, Idle) && trace == old(trace) + [Requested(Idle)]
        && unchanged(this`channelOpen, this`listeningMode, this`aborted, this`tasks)
      ensures old(state) == WifiConfiguring ==>
        Went(WifiConfiguring, AudioTesting) && trace == old(trace) + [AudioTestMode(true), Requested(AudioTesting)]
        && unchanged(this`channelOpen, this`listeningMode, this`aborted, this`tasks)
      ensures old(state) == AudioTesting ==>
        Went(AudioTesting, WifiConfiguring) && trace == old(trace) + [AudioTestMode(false), Requested(WifiConfiguring)]
        && unchanged(this`channelOpen, this`listeningMode, this`aborted, this`tasks)
      // without a protocol nothing else happens
      ensures old(state) !in {Activating, WifiConfiguring, AudioTesting} && !hasProtocol ==> unchanged(this)
      // Idle with the channel open: listen in the mode the echo cancellation allows
      ensures old(state) == Idle && hasProtocol && old(channelOpen) ==>
        Went(Idle, Listening) && listeningMode == ListeningModeFor(aecMode)
        && trace == old(trace) + [Requested(Listening)] && unchanged(this`channelOpen, this`aborted, this`tasks)
      // Idle with the channel closed: Connecting requested and the channel opened; a failed open stops there
      ensures old(state) == Idle && hasProtocol && !old(channelOpen) && !opens ==>
        Went(Idle, Connecting) && trace == old(trace) + [Requested(Connecting), ChannelOpen]
        && unchanged(this`channelOpen, this`listeningMode, this`aborted, this`tasks)
      ensures old(state) == Idle && hasProtocol && !old(channelOpen) && opens ==>
        Went2(Idle, Connecting, Listening) && channelOpen && listeningMode == ListeningModeFor(aecMode)
        && trace == old(trace) + [Requested(Connecting), ChannelOpen, Power(Performance), Requested(Listening)]
        && unchanged(this`aborted, this`tasks)
      // Speaking: abort with no reason
      ensures old(state) == Speaking && hasProtocol ==>
        aborted && trace == old(trace) + [AbortSent(AbortNone)]
        && unchanged(this`state, this`pending, this`channelOpen, this`listeningMode, this`tasks)
      // Listening: only the channel is closed; Idle comes later from the closed callback's task
      ensures old(state) == Listening && hasProtocol ==>
        !channelOpen && trace == old(trace) + CloseLog(true)
        && tasks == old(tasks) + CloseTasks(true) && scheduled == old(scheduled) + CloseTasks(true)
        && pending == old(pending) + CloseFlags(true)
        && unchanged(this`state, this`listeningMode, this`aborted)
      ensures old(state) in {Unknown, Starting, Connecting, Upgrading} ==> unchanged(this)
    {
      if state == Activating {
        SetDeviceState(Idle);
        return;
      } else if state == WifiConfiguring {
        trace := trace + [AudioTestMode(true)];
        SetDeviceState(AudioTesting);
        return;
      } else if state == AudioTesting {
        trace := trace + [AudioTestMode(false)];
        SetDeviceState(WifiConfiguring);
        return;
      }
      if !hasProtocol {
        return;
      }
      if state == Idle {
        ListenFromIdle(opens, ListeningModeFor(aecMode));
      } else if state == Speaking {
        AbortSpeaking(AbortNone);
      } else if state == Listening {
        CloseAudioChannel();
      }
    }

    method HandleStartListeningEvent(opens: bool)
      requires Sane() && Fifo()
      modifies this`state, this`pending, this`trace, this`channelOpen, this`listeningMode, this`aborted
      ensures Sane() && Fifo() && Grew()
      ensures old(state) == Activating ==>
        Went(Activating, Idle) && trace == old(trace) + [Requested(Idle)]
        && unchanged(this`channelOpen, this`listeningMode, this`aborted)
      ensures old(state) == WifiConfiguring ==>
        Went(WifiConfiguring, AudioTesting) && trace == old(trace) + [AudioTestMode(true), Requested(AudioTesting)]
        && unchanged(this`channelOpen, this`listeningMode, this`aborted)
      ensures old(state) !in {Activating, WifiConfiguring} && !hasProtocol ==> unchanged(this)
      // Idle: like the toggle, but always in manual-stop mode
      ensures old(state) == Idle && hasProtocol && old(channelOpen) ==>
        Went(Idle, Listening) && listeningMode == ManualStop
        && trace == old(trace) + [Requested(Listening)] && unchanged(this`channelOpen, this`aborted)
      ensures old(state) == Idle && hasProtocol && !old(channelOpen) && !opens ==>
        Went(Idle, Connecting) && trace == old(trace) + [Requested(Connecting), ChannelOpen]
        && unchanged(this`channelOpen, this`listeningMode, this`aborted)
      ensures old(state) == Idle && hasProtocol && !old(channelOpen) && opens ==>
        Went2(Idle, Connecting, Listening) && channelOpen && listeningMode == ManualStop
        && trace == old(trace) + [Requested(Connecting), ChannelOpen, Power(Performance), Requested(Listening)]
        && unchanged(this`aborted)
      // Speaking: abort with no reason, then listen in manual-stop mode
      ensures old(state) == Speaking && hasProtocol ==>
        aborted && Went(Speaking, Listening) && listeningMode == ManualStop
        && trace == old(trace) + [AbortSent(AbortNone), Requested(Listening)] && unchanged(this`channelOpen)
      // AudioTesting is not handled here
      ensures old(state) in {Unknown, Starting, Connecting, Listening, Upgrading, AudioTesting} ==> unchanged(this)
    {
      if state == Activating {
        SetDeviceState(Idle);
        return;
      } else if state == WifiConfiguring {
        trace := trace + [AudioTestMode(true)];
        SetDeviceState(AudioTesting);
        return;
      }
      if !hasProtocol {
        return;
      }
      if state == Idle {
        ListenFromIdle(opens, ManualStop);
      } else if state == Speaking {
        AbortSpeaking(AbortNone);
        SetListeningMode(ManualStop);
      }
    }

    method HandleStopListeningEvent()
      requires Sane() && Fifo()
      modifies this`state, this`pending, this`trace
      ensures Sane() && Fifo() && Grew()
      ensures old(state) == AudioTesting ==>
        Went(AudioTesting, WifiConfiguring) && trace == old(trace) + [AudioTestMode(false), Requested(WifiConfiguring)]
      // Listening: the stop notice if there is a protocol, then Idle
      ensures old(state) == Listening ==>
        Went(Listening, Idle) && trace == old(trace) + (if hasProtocol then [StopListeningSent] else []) + [Requested(Idle)]
      ensures old(state) !in {AudioTesting, Listening} ==> unchanged(this)
    {
      if state == AudioTesting {
        trace := trace + [AudioTestMode(false)];
        SetDeviceState(WifiConfiguring);
        return;
      } else if state == Listening {
        if hasProtocol {
          trace := trace + [StopListeningSent];
        }
        SetDeviceState(Idle);
      }
    }

    /** Hands each encoded wake-word packet to the protocol, in order. */
    method SendWakeWordPackets(packets: seq<Packet>)
      modifies this`trace
      ensures trace == old(trace) + AudioSends(packets)
    {
      var i := 0;
      while i < |packets|
        invariant i <= |packets|
        invariant trace == old(trace) + AudioSends(packets[..i])
      {
        assert packets[..i + 1] == packets[..i] + [packets[i]];
        assert AudioSends(packets[..i + 1]) == AudioSends(packets[..i]) + [AudioSent(packets[i])];
        trace := trace + [AudioSent(packets[i])];
        i := i + 1;
      }
      assert packets[..i] == packets;
    }

    /**
     * A wake word in Idle: encode it; open the channel if needed, and on failure turn
     * wake-word detection back on and stop; then either stream the wake word and
     * announce it, or defer the popup; then listen in the mode the echo cancellation allows.
     */
    method WakeInIdle(opens: bool, stream: bool, word: string, packets: seq<Packet>)
      requires hasProtocol && state == Idle
      modifies this`state, this`pending, this`trace, this`channelOpen, this`listeningMode, this`playPopupOnListening
      ensures channelOpen == (old(channelOpen) || opens)
      // a failed open: detection back on, no listening mode set, Listening not requested
      ensures !old(channelOpen) && !opens ==>
        Went(Idle, Connecting) && trace == old(trace) + [WakeWordEncoded, Requested(Connecting), ChannelOpen, WakeWordDetection(true)]
        && unchanged(this`listeningMode, this`playPopupOnListening)
      ensures old(channelOpen) || opens ==> listeningMode == ListeningModeFor(aecMode)
      ensures old(channelOpen) ==> Went(Idle, Listening)
      ensures !old(channelOpen) && opens ==> Went2(Idle, Connecting, Listening)
      ensures old(channelOpen) || opens ==>
        var opening := if old(channelOpen) then [] else [Requested(Connecting), ChannelOpen, Power(Performance)];
        var announce := if stream then AudioSends(packets) + [WakeWordSent(word)] else [];
        trace == old(trace) + [WakeWordEncoded] + opening + announce + [Requested(Listening)]
      // the popup is deferred exactly when the wake word is not streamed
      ensures old(channelOpen) || opens ==> playPopupOnListening == (old(playPopupOnListening) || !stream)
    {
      trace := trace + [WakeWordEncoded];
      ghost var opening: seq<Effect> := [];
      if !channelOpen {
        SetDeviceState(Connecting);
        var ok := OpenAudioChannel(opens);
        if !ok {
          trace := trace + [WakeWordDetection(true)];
          return;
        }
        opening := [Requested(Connecting), ChannelOpen, Power(Performance)];
      }
      ghost var t1 := trace;
      assert t1 == old(trace) + [WakeWordEncoded] + opening;
      if stream {
        SendWakeWordPackets(packets);
        trace := trace + [WakeWordSent(word)];
      } else {
        playPopupOnListening := true;
      }
      ghost var announce := if stream then AudioSends(packets) + [WakeWordSent(word)] else [];
      assert trace == t1 + announce;
      SetListeningMode(ListeningModeFor(aecMode));
    }

    method HandleWakeWordDetectedEvent(opens: bool, word: string, packets: seq<Packet>)
      requires Sane() && Fifo()
      modifies this`state, this`pending, this`trace, this`channelOpen, this`listeningMode,
        this`playPopupOnListening, this`aborted
      ensures Sane() && Fifo() && Grew()
      ensures !hasProtocol ==> unchanged(this)
      ensures hasProtocol && old(state) == Idle ==>
        unchanged(this`aborted) && channelOpen == (old(channelOpen) || opens)
        && (old(channelOpen) || opens ==> listeningMode == ListeningModeFor(aecMode))
        && (!old(channelOpen) && !opens ==>
              Went(Idle, Connecting) && trace == old(trace) + [WakeWordEncoded, Requested(Connecting), ChannelOpen, WakeWordDetection(true)])
      // an open channel: Listening reached (through Connecting when the channel had to be opened)
      ensures hasProtocol && old(state) == Idle && old(channelOpen) ==> Went(Idle, Listening)
      ensures hasProtocol && old(state) == Idle && !old(channelOpen) && opens ==> Went2(Idle, Connecting, Listening)
      // the wake word is streamed and announced, or the popup deferred, as the configuration says
      ensures hasProtocol && old(state) == Idle && (old(channelOpen) || opens) ==>
        var opening := if old(channelOpen) then [] else [Requested(Connecting), ChannelOpen, Power(Performance)];
        var announce := if config.sendWakeWordData then AudioSends(packets) + [WakeWordSent(word)] else [];
        trace == old(trace) + [WakeWordEncoded] + opening + announce + [Requested(Listening)]
        && playPopupOnListening == (old(playPopupOnListening) || !config.sendWakeWordData)
      ensures hasProtocol && old(state) == Speaking ==>
        aborted && trace == old(trace) + [AbortSent(AbortWakeWordDetected)]
        && unchanged(this`state, this`pending, this`channelOpen, this`listeningMode, this`playPopupOnListening)
      ensures hasProtocol && old(state) == Activating ==>
        Went(Activating, Idle) && trace == old(trace) + [Requested(Idle)]
        && unchanged(this`channelOpen, this`listeningMode, this`playPopupOnListening, this`aborted)
      ensures old(state) !in {Idle, Speaking, Activating} ==> unchanged(this)
    {
      if !hasProtocol {
        return;
      }
      if state == Idle {
        WakeInIdle(opens, config.sendWakeWordData, word, packets);
      } else if state == Speaking {
        AbortSpeaking(AbortWakeWordDetected);
      } else if state == Activating {
        SetDeviceState(Idle);
      }
    }

    /** Closes the audio channel when there is a protocol and its channel is open. */
    method CloseIfOpen()
      modifies this`channelOpen, this`trace, this`tasks, this`scheduled, this`pending
      ensures var closing := old(hasProtocol && channelOpen);
        && channelOpen == (old(channelOpen) && !closing)
        && trace == old(trace) + CloseLog(closing)
        && tasks == old(tasks) + CloseTasks(closing) && scheduled == old(scheduled) + CloseTasks(closing)
        && pending == old(pending) + CloseFlags(closing)
    {
      if hasProtocol && channelOpen {
        CloseAudioChannel();
      }
    }

    /**
     * Closes the channel if one is open, drops the protocol, stops the audio service,
     * waits a second and restarts the device; nothing runs after the restart.
     */
    method Reboot()
      modifies this`channelOpen, this`trace, this`tasks, this`scheduled, this`pending, this`hasProtocol, this`halted
      ensures halted && !hasProtocol && !channelOpen
      ensures var closing := old(hasProtocol && channelOpen);
        && trace == old(trace) + CloseLog(closing) + [AudioServiceStop, Slept(1000), Restarted]
        && tasks == old(tasks) + CloseTasks(closing) && scheduled == old(scheduled) + CloseTasks(closing)
        && pending == old(pending) + CloseFlags(closing)
    {
      CloseIfOpen();
      hasProtocol := false;
      channelOpen := false;
      trace := trace + [AudioServiceStop, Slept(1000), Restarted];
      halted := true;
    }

    /** The tts/start task: the abort flag is cleared and Speaking requested. */
    method StartSpeaking()
      modifies this`aborted, this`state, this`pending, this`trace
      ensures !aborted && Went(old(state), Speaking) && trace == old(trace) + [Requested(Speaking)]
    {
      aborted := false;
      SetDeviceState(Speaking);
    }

    /** The tts/stop task: only while Speaking; Idle after a manual-stop turn, Listening otherwise. */
    method StopSpeaking()
      modifies this`state, this`pending, this`trace
      ensures old(state) == Speaking ==>
        var next := if listeningMode == ManualStop then Idle else Listening;
        Went(Speaking, next) && trace == old(trace) + [Requested(next)]
      ensures old(state) != Speaking ==> unchanged(this)
    {
      if state == Speaking {
        if listeningMode == ManualStop {
          SetDeviceState(Idle);
        } else {
          SetDeviceState(Listening);
        }
      }
    }

    /** The task the channel-closed callback posts: the chat line is cleared and Idle requested. */
    method FinishClosedChannel()
      modifies this`state, this`pending, this`trace
      ensures Went(old(state), Idle) && trace == old(trace) + [Shown(ChatLine("system", "")), Requested(Idle)]
    {
      trace := trace + [Shown(ChatLine("system", ""))];
      SetDeviceState(Idle);
    }

    /** The task WakeWordInvoke posts while Listening: close the channel if there is a protocol. */
    method CloseChannelTaskRun()
      modifies this`channelOpen, this`trace, this`tasks, this`scheduled, this`pending
      ensures channelOpen == (old(channelOpen) && !hasProtocol)
      ensures trace == old(trace) + CloseLog(hasProtocol)
      ensures tasks == old(tasks) + CloseTasks(hasProtocol) && scheduled == old(scheduled) + CloseTasks(hasProtocol)
      ensures pending == old(pending) + CloseFlags(hasProtocol)
    {
      if hasProtocol {
        CloseAudioChannel();
      }
    }

    /** The task SetAecMode posts: apply the current mode to the device, announce it, close an open channel. */
    method ApplyAec()
      modifies this`channelOpen, this`trace, this`tasks, this`scheduled, this`pending
      ensures channelOpen == (old(channelOpen) && !hasProtocol)
      ensures var closing := old(hasProtocol && channelOpen);
        && trace == old(trace) + [DeviceAec(aecMode == AecOnDeviceSide),
             Shown(Notice(if aecMode == AecOff then "RTC_MODE_OFF" else "RTC_MODE_ON"))] + CloseLog(closing)
        && tasks == old(tasks) + CloseTasks(closing) && scheduled == old(scheduled) + CloseTasks(closing)
        && pending == old(pending) + CloseFlags(closing)
    {
      match aecMode {
        case AecOff =>
          trace := trace + [DeviceAec(false), Shown(Notice("RTC_MODE_OFF"))];
        case AecOnServerSide =>
          trace := trace + [DeviceAec(false), Shown(Notice("RTC_MODE_ON"))];
        case AecOnDeviceSide =>
          trace := trace + [DeviceAec(true), Shown(Notice("RTC_MODE_ON"))];
      }
      CloseIfOpen();
    }

    /** The task ResetProtocol posts: close an open channel, then drop the protocol. */
    method DropProtocol()
      modifies this`channelOpen, this`trace, this`tasks, this`scheduled, this`pending, this`hasProtocol
      ensures !hasProtocol && channelOpen == (old(channelOpen) && !old(hasProtocol))
      ensures var closing := old(hasProtocol && channelOpen);
        && trace == old(trace) + CloseLog(closing)
        && tasks == old(tasks) + CloseTasks(closing) && scheduled == old(scheduled) + CloseTasks(closing)
        && pending == old(pending) + CloseFlags(closing)
    {
      CloseIfOpen();
      hasProtocol := false;
    }

    /** Runs one scheduled task; each task's own method states what it does. */
    method RunTask(t: Task, ghost prefix: seq<Task>)
      requires Sane() && QueuedAfter(prefix)
      modifies this`state, this`pending, this`trace, this`aborted, this`channelOpen, this`tasks, this`scheduled,
        this`hasProtocol, this`halted
      ensures Sane() && Raised() && QueuedAfter(prefix)
      // only the reboot task halts the device
      ensures halted <==> old(halted) || t == RebootTask
      ensures t.ShowChat? ==> Quiet() && trace == old(trace) + [Shown(ChatLine(t.role, t.text))]
      ensures t.ShowEmotion? ==> Quiet() && trace == old(trace) + [Shown(EmotionTag(t.emotion))]
      ensures t.McpSendTask? ==> Quiet() && trace == old(trace) + (if hasProtocol then [McpSent(t.payload)] else [])
    {
      match t {
        case BeginSpeaking =>
          StartSpeaking();
        case EndSpeaking =>
          StopSpeaking();
        case ShowChat(role, text) =>
          trace := trace + [Shown(ChatLine(role, text))];
        case ShowEmotion(emotion) =>
          trace := trace + [Shown(EmotionTag(emotion))];
        case RebootTask =>
          Reboot();
        case ChannelClosedTask =>
          FinishClosedChannel();
        case AbortSpeakingTask =>
          AbortSpeaking(AbortNone);
        case CloseChannelTask =>
          CloseChannelTaskRun();
        case McpSendTask(payload) =>
          if hasProtocol {
            trace := trace + [McpSent(payload)];
          }
        case ApplyAecTask =>
          ApplyAec();
        case ResetProtocolTask =>
          DropProtocol();
      }
    }

    /**
     * The Schedule service: the whole task list is moved out and run in submission
     * order; tasks queued meanwhile wait in the fresh list. A reboot ends the run.
     */
    method DrainTasks() returns (ran: nat)
      requires Sane() && Fifo() && !halted
      modifies this`state, this`pending, this`trace, this`aborted, this`channelOpen, this`tasks, this`scheduled,
        this`executed, this`hasProtocol, this`halted
      ensures Sane() && Fifo()
      // the tasks that ran are a prefix of the moved-out list, in order
      ensures ran <= |old(tasks)| && executed == old(executed) + old(tasks)[..ran]
      // all of them ran unless a reboot stopped the run, and then the reboot was the last to run
      ensures !halted ==> ran == |old(tasks)|
      ensures halted ==> 0 < ran && old(tasks)[ran - 1] == RebootTask
      ensures forall i :: 0 <= i < ran - 1 ==> old(tasks)[i] != RebootTask
      // whatever the tasks queued waits in the fresh list, with the Schedule flag raised
      ensures !halted ==> scheduled == old(scheduled) + tasks
      ensures tasks != [] ==> Event.Schedule in pending
      ensures old(pending) <= pending <= old(pending) + {Event.StateChanged, Event.Schedule}
    {
      var batch := tasks;
      tasks := [];
      ran := 0;
      while ran < |batch| && !halted
        invariant ran <= |batch|
        invariant Sane()
        invariant executed == old(executed) + batch[..ran]
        invariant scheduled == old(scheduled) + tasks
        invariant halted ==> 0 < ran && batch[ran - 1] == RebootTask
        invariant forall i :: 0 <= i < ran && (!halted || i < ran - 1) ==> batch[i] != RebootTask
        invariant tasks != [] ==> Event.Schedule in pending
        invariant old(pending) <= pending <= old(pending) + {Event.StateChanged, Event.Schedule}
      {
        assert batch[..ran + 1] == batch[..ran] + [batch[ran]];
        executed := executed + [batch[ran]];
        RunTask(batch[ran], old(scheduled));
        ran := ran + 1;
      }
      assert batch[..ran] == batch || halted;
    }

    /** The state after servicing one of the four network and activation flags in state `s`. */
    function NetworkServed(e: Event, s: DeviceState): DeviceState
    {
      if e == Event.Error || e == Event.ActivationDone then After(s, Idle)
      else if e == Event.NetworkConnected && s in {Starting, WifiConfiguring} then After(s, Activating)
      else s
    }

    /** The state after servicing `e` if it is among the flags `p`. */
    function ServedIf(e: Event, s: DeviceState, p: set<Event>): DeviceState
    {
      if e in p then NetworkServed(e, s) else s
    }

    /** The state the NetworkDisconnected service finds in a wake that starts in `s` with flags `p`. */
    function StateAtDisconnect(s: DeviceState, p: set<Event>): DeviceState
    {
      ServedIf(Event.NetworkConnected, ServedIf(Event.Error, s, p), p)
    }

    /** The state the StateChanged service finds in a wake that starts in `s` with flags `p`. */
    function StateAtStateChanged(s: DeviceState, p: set<Event>): DeviceState
    {
      ServedIf(Event.ActivationDone, StateAtDisconnect(s, p), p)
    }

    /**
     * The services of the four network and activation flags. Servicing `e` appends it to
     * `serviced` at its position in the order. The preconditions are the dereferences the
     * source leaves unchecked: the protocol when a disconnection finds a conversation, and
     * the OTA client when activation completes.
     */
    method ServeNetwork(e: Event, ghost bits: set<Event>, ghost sch0: seq<Task>, ghost s0: seq<Event>)
      requires e in {Event.Error, Event.NetworkConnected, Event.NetworkDisconnected, Event.ActivationDone} && e in bits
      requires Amid(bits, sch0) && serviced == s0 + Serviced(Rank(e), bits)
      requires e == Event.NetworkDisconnected && state in {Connecting, Listening, Speaking} ==> hasProtocol
      requires e == Event.ActivationDone ==> ota.Some?
      modifies this`state, this`pending, this`trace, this`activationRunning, this`channelOpen, this`tasks,
        this`scheduled, this`hasServerTime, this`ota, this`serviced
      ensures Amid(bits, sch0) && serviced == s0 + Serviced(Rank(e) + 1, bits)
      ensures state == NetworkServed(e, old(state))
      ensures ota == if e == Event.ActivationDone then None else old(ota)
    {
      ServicedTake(s0, serviced, Rank(e), bits);
      serviced := serviced + [e];
      if e == Event.Error {
        HandleError();
      } else if e == Event.NetworkConnected {
        HandleNetworkConnectedEvent();
      } else if e == Event.NetworkDisconnected {
        HandleNetworkDisconnectedEvent();
      } else {
        HandleActivationDoneEvent();
      }
    }

    /** The services of the state-change flag and the three user-request flags. */
    method ServeUser(e: Event, inp: WakeInputs, ghost bits: set<Event>, ghost sch0: seq<Task>, ghost s0: seq<Event>)
      requires e in {Event.StateChanged, Event.ToggleChat, Event.StartListening, Event.StopListening} && e in bits
      requires Amid(bits, sch0) && serviced == s0 + Serviced(Rank(e), bits)
      requires e == Event.StateChanged && state == Listening && !inp.processorRunning ==> hasProtocol
      modifies this`state, this`pending, this`trace, this`channelOpen, this`listeningMode, this`aborted,
        this`tasks, this`scheduled, this`clockTicks, this`playPopupOnListening, this`serviced
      ensures Amid(bits, sch0) && serviced == s0 + Serviced(Rank(e) + 1, bits)
      ensures clockTicks == if e == Event.StateChanged then 0 else old(clockTicks)
    {
      ServicedTake(s0, serviced, Rank(e), bits);
      serviced := serviced + [e];
      if e == Event.StateChanged {
        HandleStateChangedEvent(inp.processorRunning);
      } else if e == Event.ToggleChat {
        HandleToggleChatEvent(inp.toggleOpens);
      } else if e == Event.StartListening {
        HandleStartListeningEvent(inp.startOpens);
      } else {
        HandleStopListeningEvent();
      }
    }

    /** The services of the three audio flags: the send queue, a detected wake word, a voice-activity change. */
    method ServeAudio(e: Event, inp: WakeInputs, ghost bits: set<Event>, ghost sch0: seq<Task>, ghost s0: seq<Event>)
      requires e in {Event.SendAudio, Event.WakeWordDetected, Event.VadChange} && e in bits
      requires Amid(bits, sch0) && serviced == s0 + Serviced(Rank(e), bits)
      modifies this`state, this`pending, this`trace, this`channelOpen, this`listeningMode, this`aborted,
        this`playPopupOnListening, this`serviced
      ensures Amid(bits, sch0) && serviced == s0 + Serviced(Rank(e) + 1, bits)
      // the send queue is offered to the protocol as DrainSendQueue describes
      ensures e == Event.SendAudio ==> unchanged(this`state, this`pending, this`channelOpen)
      // a voice-activity change only refreshes the LED, and only while listening
      ensures e == Event.VadChange ==>
        unchanged(this`state, this`pending, this`channelOpen)
        && trace == old(trace) + (if state == Listening then [Shown(LedRefresh)] else [])
    {
      ServicedTake(s0, serviced, Rank(e), bits);
      serviced := serviced + [e];
      if e == Event.SendAudio {
        var popped, offered := DrainSendQueue(inp.sendQueue, hasProtocol, inp.accepts);
        trace := trace + AudioSends(offered);
      } else if e == Event.WakeWordDetected {
        HandleWakeWordDetectedEvent(inp.wakeOpens, inp.wakeWord, inp.wakeWordPackets);
      } else if state == Listening {
        trace := trace + [Shown(LedRefresh)];
      }
    }

    /** The first two services of a wake: Error, then NetworkConnected. */
    method WakeConnect(bits: set<Event>, ghost sch0: seq<Task>, ghost s0: seq<Event>)
      requires Amid(bits, sch0) && serviced == s0
      modifies this`state, this`pending, this`trace, this`activationRunning, this`channelOpen, this`tasks,
        this`scheduled, this`hasServerTime, this`ota, this`serviced
      ensures Amid(bits, sch0) && serviced == s0 + Serviced(2, bits)
      ensures state == StateAtDisconnect(old(state), bits) && ota == old(ota)
    {
      assert serviced == s0 + Serviced(0, bits);
      if Event.Error in bits {
        ServeNetwork(Event.Error, bits, sch0, s0);
      } else {
        ServicedSkip(0, bits);
      }
      assert state == ServedIf(Event.Error, old(state), bits);
      if Event.NetworkConnected in bits {
        ServeNetwork(Event.NetworkConnected, bits, sch0, s0);
      } else {
        ServicedSkip(1, bits);
      }
    }

    /** The next two services: NetworkDisconnected, then ActivationDone. */
    method WakeNetwork(bits: set<Event>, ghost sch0: seq<Task>, ghost s0: seq<Event>)
      requires Amid(bits, sch0) && serviced == s0 + Serviced(2, bits)
      requires Event.NetworkDisconnected in bits && state in {Connecting, Listening, Speaking} ==> hasProtocol
      requires Event.ActivationDone in bits ==> ota.Some?
      modifies this`state, this`pending, this`trace, this`activationRunning, this`channelOpen, this`tasks,
        this`scheduled, this`hasServerTime, this`ota, this`serviced
      ensures Amid(bits, sch0) && serviced == s0 + Serviced(4, bits)
      ensures state == ServedIf(Event.ActivationDone, old(state), bits)
    {
      if Event.NetworkDisconnected in bits {
        ServeNetwork(Event.NetworkDisconnected, bits, sch0, s0);
      } else {
        ServicedSkip(2, bits);
      }
      assert state == old(state) && ota == old(ota);
      if Event.ActivationDone in bits {
        ServeNetwork(Event.ActivationDone, bits, sch0, s0);
      } else {
        ServicedSkip(3, bits);
      }
    }

    /** The next two services: StateChanged, then ToggleChat. */
    method WakeUser(bits: set<Event>, inp: WakeInputs, ghost sch0: seq<Task>, ghost s0: seq<Event>)
      requires Amid(bits, sch0) && serviced == s0 + Serviced(4, bits)
      requires Event.StateChanged in bits && state == Listening && !inp.processorRunning ==> hasProtocol
      modifies this`state, this`pending, this`trace, this`channelOpen, this`listeningMode, this`aborted,
        this`tasks, this`scheduled, this`clockTicks, this`playPopupOnListening, this`serviced
      ensures Amid(bits, sch0) && serviced == s0 + Serviced(6, bits)
      ensures clockTicks == if Event.StateChanged in bits then 0 else old(clockTicks)
    {
      if Event.StateChanged in bits {
        ServeUser(Event.StateChanged, inp, bits, sch0, s0);
      } else {
        ServicedSkip(4, bits);
      }
      ghost var ticks := clockTicks;
      if Event.ToggleChat in bits {
        ServeUser(Event.ToggleChat, inp, bits, sch0, s0);
      } else {
        ServicedSkip(5, bits);
      }
      assert clockTicks == ticks;
    }

    /** The next two services: StartListening, then StopListening. */
    method WakeListen(bits: set<Event>, inp: WakeInputs, ghost sch0: seq<Task>, ghost s0: seq<Event>)
      requires Amid(bits, sch0) && serviced == s0 + Serviced(6, bits)
      modifies this`state, this`pending, this`trace, this`channelOpen, this`listeningMode, this`aborted,
        this`tasks, this`scheduled, this`clockTicks, this`playPopupOnListening, this`serviced
      ensures Amid(bits, sch0) && serviced == s0 + Serviced(8, bits)
      ensures clockTicks == old(clockTicks)
    {
      if Event.StartListening in bits {
        ServeUser(Event.StartListening, inp, bits, sch0, s0);
      } else {
        ServicedSkip(6, bits);
      }
      if Event.StopListening in bits {
        ServeUser(Event.StopListening, inp, bits, sch0, s0);
      } else {
        ServicedSkip(7, bits);
      }
    }

    /**
     * The first eight services of a wake, up to StopListening. The preconditions are the
     * protocol dereferences the source leaves unchecked, and the OTA client ActivationDone reads.
     */
    method WakeFront(bits: set<Event>, inp: WakeInputs, ghost sch0: seq<Task>, ghost s0: seq<Event>)
      requires Amid(bits, sch0) && serviced == s0
      requires Event.NetworkDisconnected in bits && StateAtDisconnect(state, bits) in {Connecting, Listening, Speaking}
        ==> hasProtocol
      requires Event.StateChanged in bits && StateAtStateChanged(state, bits) == Listening && !inp.processorRunning
        ==> hasProtocol
      requires Event.ActivationDone in bits ==> ota.Some?
      modifies this`state, this`pending, this`trace, this`activationRunning, this`channelOpen, this`tasks,
        this`scheduled, this`hasServerTime, this`ota, this`listeningMode, this`aborted, this`clockTicks,
        this`playPopupOnListening, this`serviced
      ensures Amid(bits, sch0) && serviced == s0 + Serviced(8, bits)
      ensures clockTicks == if Event.StateChanged in bits then 0 else old(clockTicks)
    {
      WakeConnect(bits, sch0, s0);
      assert state == StateAtDisconnect(old(state), bits) && hasProtocol == old(hasProtocol);
      WakeNetwork(bits, sch0, s0);
      assert state == StateAtStateChanged(old(state), bits) && hasProtocol == old(hasProtocol);
      WakeUser(bits, inp, sch0, s0);
      ghost var ticks := clockTicks;
      WakeListen(bits, inp, sch0, s0);
      assert clockTicks == ticks;
    }

    /** The audio services: SendAudio, WakeWordDetected, VadChange. */
    method WakeAudio(bits: set<Event>, inp: WakeInputs, ghost sch0: seq<Task>, ghost s0: seq<Event>)
      requires Amid(bits, sch0) && serviced == s0 + Serviced(8, bits)
      modifies this`state, this`pending, this`trace, this`channelOpen, this`listeningMode, this`aborted,
        this`playPopupOnListening, this`serviced
      ensures Amid(bits, sch0) && serviced == s0 + Serviced(11, bits)
    {
      if Event.SendAudio in bits {
        ServeAudio(Event.SendAudio, inp, bits, sch0, s0);
      } else {
        ServicedSkip(8, bits);
      }
      assert serviced == s0 + Serviced(9, bits);
      if Event.WakeWordDetected in bits {
        ServeAudio(Event.WakeWordDetected, inp, bits, sch0, s0);
      } else {
        ServicedSkip(9, bits);
      }
      assert serviced == s0 + Serviced(10, bits);
      if Event.VadChange in bits {
        ServeAudio(Event.VadChange, inp, bits, sch0, s0);
      } else {
        ServicedSkip(10, bits);
      }
      assert serviced == s0 + Serviced(11, bits);
    }

    /**
     * One wake of the reactor: the pending flags are taken and cleared together, and
     * each is serviced once, in the fixed order. Flags raised meanwhile wait for the next
     * wake. The two preconditions are the protocol dereferences the source leaves unchecked.
     */
    method Step(inp: WakeInputs)
      requires Valid() && !halted
      requires Event.NetworkDisconnected in pending && StateAtDisconnect(state, pending) in {Connecting, Listening, Speaking}
        ==> hasProtocol
      requires Event.StateChanged in pending && StateAtStateChanged(state, pending) == Listening && !inp.processorRunning
        ==> hasProtocol
      modifies this
      ensures Valid()
      // the flags pending at the wake are serviced in the fixed order (see Reactor.WakeOrder),
      // except that a reboot task ends the wake inside the Schedule service
      ensures !halted ==> serviced == old(serviced) + Serviced(EventCount, old(pending))
      ensures halted ==> Event.Schedule in old(pending) && serviced == old(serviced) + Serviced(12, old(pending))
      // the only flags pending afterwards are those the services raised
      ensures pending <= {Event.StateChanged, Event.Schedule}
      // without the Schedule flag no task runs; with it, every task queued before the wake has run
      ensures Event.Schedule !in old(pending) ==> executed == old(executed)
      ensures Event.Schedule in old(pending) && !halted ==> old(scheduled) <= executed
      // clock ticks restart at every state entry and count the ClockTick services
      ensures !halted ==>
        clockTicks == (if Event.StateChanged in old(pending) then 0 else old(clockTicks))
                      + (if Event.ClockTick in old(pending) then 1 else 0)
    {
      var bits := pending;
      pending := {};
      ghost var s0 := serviced;
      ghost var sch0 := scheduled;
      WakeFront(bits, inp, sch0, s0);
      ghost var ticks := clockTicks;
      WakeAudio(bits, inp, sch0, s0);
      assert clockTicks == ticks && executed == old(executed);
      WakeSchedule(bits, sch0, s0);
      if halted {
        return;
      }
      WakeClock(bits, s0);
    }

    /**
     * The Schedule service of a wake: the queued tasks run, and a reboot among them
     * ends the wake there.
     */
    method WakeSchedule(bits: set<Event>, ghost sch0: seq<Task>, ghost s0: seq<Event>)
      requires Amid(bits, sch0) && serviced == s0 + Serviced(11, bits)
      modifies this`state, this`pending, this`trace, this`aborted, this`channelOpen, this`tasks, this`scheduled,
        this`executed, this`hasProtocol, this`halted, this`serviced
      ensures Valid() && pending <= {Event.StateChanged, Event.Schedule}
      ensures serviced == s0 + Serviced(12, bits)
      ensures halted ==> Event.Schedule in bits
      ensures Event.Schedule !in bits ==> executed == old(executed)
      ensures Event.Schedule in bits && !halted ==> sch0 <= executed
    {
      if Event.Schedule in bits {
        ServicedTake(s0, serviced, 11, bits);
        ghost var before := scheduled;
        assert before == executed + tasks;
        serviced := serviced + [Event.Schedule];
        var ran := DrainTasks();
        assert !halted ==> executed == before;
      } else {
        ServicedSkip(11, bits);
      }
    }

    /** The ClockTick service: count the tick, refresh the status bar, and every tenth tick log the heap statistics. */
    method WakeClock(bits: set<Event>, ghost s0: seq<Event>)
      requires serviced == s0 + Serviced(12, bits)
      modifies this`clockTicks, this`trace, this`serviced
      ensures serviced == s0 + Serviced(EventCount, bits)
      ensures clockTicks == old(clockTicks) + (if Event.ClockTick in bits then 1 else 0)
      ensures trace == old(trace) +
        (if Event.ClockTick in bits then [Shown(StatusBarRefresh)] + (if clockTicks % 10 == 0 then [HeapStatsLogged] else [])
         else [])
    {
      if Event.ClockTick in bits {
        ServicedTake(s0, serviced, 12, bits);
        serviced := serviced + [Event.ClockTick];
        clockTicks := clockTicks + 1;
        trace := trace + [Shown(StatusBarRefresh)];
        if clockTicks % 10 == 0 {
          trace := trace + [HeapStatsLogged];
        }
      } else {
        ServicedSkip(12, bits);
      }
    }

    // The entry points other threads use: the board, the audio service, the clock timer
    // and the protocol's callbacks. Each either raises a flag, queues a task, or does
    // the little the source does on the caller's thread.

    /**
     * Start-up: Starting requested, the user agent shown, the audio service started, the
     * network started and the status bar refreshed. The callbacks it registers are the
     * methods below; the state-change listener among them is registered after the Starting
     * request, so that request moves the state without raising StateChanged.
     */
    method Initialize(userAgent: string)
      requires Valid()
      modifies this`state, this`trace
      // the state-change listener is registered only after the Starting request, so that request raises no flag
      ensures Valid() && state == After(old(state), Starting) && pending == old(pending)
      ensures trace == old(trace) + [Requested(Starting), Shown(ChatLine("system", userAgent)), AudioServiceStart,
        NetworkStarted, Shown(StatusBarRefresh)]
    {
      trace := trace + [Requested(Starting)];
      state := After(state, Starting);
      trace := trace + [Shown(ChatLine("system", userAgent)), AudioServiceStart, NetworkStarted, Shown(StatusBarRefresh)];
    }

    /** The network callback: the notice of the event, and the connection flags it raises. */
    method OnNetworkEvent(ev: NetworkEvent)
      requires Valid()
      modifies this`pending, this`trace
      ensures Valid()
      ensures trace == old(trace) + NetworkNotice(ev) && pending == old(pending) + NetworkFlags(ev)
    {
      trace := trace + NetworkNotice(ev);
      pending := pending + NetworkFlags(ev);
    }

    /** A button asks for the toggle; the reactor does the rest. */
    method ToggleChatState()
      requires Valid()
      modifies this`pending
      ensures Valid() && pending == old(pending) + {Event.ToggleChat}
    {
      Raise(Event.ToggleChat);
    }

    method StartListening()
      requires Valid()
      modifies this`pending
      ensures Valid() && pending == old(pending) + {Event.StartListening}
    {
      Raise(Event.StartListening);
    }

    method StopListening()
      requires Valid()
      modifies this`pending
      ensures Valid() && pending == old(pending) + {Event.StopListening}
    {
      Raise(Event.StopListening);
    }

    /** The audio service's three callbacks: a packet is ready to send, a wake word was heard, voice activity changed. */
    method OnAudioEvent(e: Event)
      requires e in {Event.SendAudio, Event.WakeWordDetected, Event.VadChange}
      requires Valid()
      modifies this`pending
      ensures Valid() && pending == old(pending) + {e}
    {
      Raise(e);
    }

    /** The one-second clock timer. */
    method OnClockTimer()
      requires Valid()
      modifies this`pending
      ensures Valid() && pending == old(pending) + {Event.ClockTick}
    {
      Raise(Event.ClockTick);
    }

    /**
     * A wake word invoked by the board: nothing without a protocol; in Idle the same
     * path as a detected wake word; while speaking or listening the abort or the
     * channel close is handed to the reactor.
     */
    method WakeWordInvoke(opens: bool, word: string, packets: seq<Packet>)
      requires Valid()
      modifies this`state, this`pending, this`trace, this`channelOpen, this`listeningMode, this`playPopupOnListening,
        this`tasks, this`scheduled
      ensures Valid()
      ensures !hasProtocol ==> unchanged(this)
      ensures hasProtocol && old(state) == Idle ==>
        unchanged(this`tasks, this`scheduled) && channelOpen == (old(channelOpen) || opens)
        && (old(channelOpen) || opens ==>
              listeningMode == ListeningModeFor(aecMode)
              && playPopupOnListening == (old(playPopupOnListening) || !config.streamInvokedWakeWord))
        && (!old(channelOpen) && !opens ==>
              Went(Idle, Connecting) && trace == old(trace) + [WakeWordEncoded, Requested(Connecting), ChannelOpen, WakeWordDetection(true)])
      ensures hasProtocol && old(state) == Idle && old(channelOpen) ==> Went(Idle, Listening)
      ensures hasProtocol && old(state) == Idle && !old(channelOpen) && opens ==> Went2(Idle, Connecting, Listening)
      ensures hasProtocol && old(state) == Idle && (old(channelOpen) || opens) ==>
        var opening := if old(channelOpen) then [] else [Requested(Connecting), ChannelOpen, Power(Performance)];
        var announce := if config.streamInvokedWakeWord then AudioSends(packets) + [WakeWordSent(word)] else [];
        trace == old(trace) + [WakeWordEncoded] + opening + announce + [Requested(Listening)]
      ensures hasProtocol && old(state) == Speaking ==>
        tasks == old(tasks) + [AbortSpeakingTask] && scheduled == old(scheduled) + [AbortSpeakingTask]
        && pending == old(pending) + {Event.Schedule} && unchanged(this`state, this`trace, this`channelOpen)
      ensures hasProtocol && old(state) == Listening ==>
        tasks == old(tasks) + [CloseChannelTask] && scheduled == old(scheduled) + [CloseChannelTask]
        && pending == old(pending) + {Event.Schedule} && unchanged(this`state, this`trace, this`channelOpen)
      ensures old(state) !in {Idle, Speaking, Listening} ==> unchanged(this)
    {
      if !hasProtocol {
        return;
      }
      if state == Idle {
        WakeInIdle(opens, config.streamInvokedWakeWord, word, packets);
      } else if state == Speaking {
        Schedule(AbortSpeakingTask);
      } else if state == Listening {
        Schedule(CloseChannelTask);
      }
    }

    /** An MCP message to send: always through the reactor. */
    method SendMcpMessage(payload: string)
      requires Valid()
      modifies this`tasks, this`scheduled, this`pending
      ensures Valid()
      ensures tasks == old(tasks) + [McpSendTask(payload)] && scheduled == old(scheduled) + [McpSendTask(payload)]
      ensures pending == old(pending) + {Event.Schedule}
    {
      Schedule(McpSendTask(payload));
    }

    /** The mode is stored at once; the task that applies it reads the mode current when it runs. */
    method SetAecMode(mode: AecMode)
      requires Valid()
      modifies this`aecMode, this`tasks, this`scheduled, this`pending
      ensures Valid() && aecMode == mode
      ensures tasks == old(tasks) + [ApplyAecTask] && scheduled == old(scheduled) + [ApplyAecTask]
      ensures pending == old(pending) + {Event.Schedule}
    {
      aecMode := mode;
      Schedule(ApplyAecTask);
    }

    method ResetProtocol()
      requires Valid()
      modifies this`tasks, this`scheduled, this`pending
      ensures Valid()
      ensures tasks == old(tasks) + [ResetProtocolTask] && scheduled == old(scheduled) + [ResetProtocolTask]
      ensures pending == old(pending) + {Event.Schedule}
    {
      Schedule(ResetProtocolTask);
    }

    /** The protocol's connected callback: in Idle only, the standby display comes back. */
    method DismissAlert()
      modifies this`trace
      ensures trace == old(trace) +
        (if state == Idle then [Shown(StatusText("STANDBY")), Shown(EmotionTag("neutral")), Shown(ChatLine("system", ""))] else [])
    {
      if state == Idle {
        trace := trace + [Shown(StatusText("STANDBY")), Shown(EmotionTag("neutral")), Shown(ChatLine("system", ""))];
      }
    }

    /** The protocol's error callback: the message is kept for the Error service, which the flag wakes. */
    method OnNetworkError(message: string)
      requires Valid()
      modifies this`lastErrorMessage, this`pending
      ensures Valid() && lastErrorMessage == message && pending == old(pending) + {Event.Error}
    {
      lastErrorMessage := message;
      Raise(Event.Error);
    }

    /** Incoming audio is decoded only while speaking; any other time it is dropped. */
    method OnIncomingAudio(packet: Packet)
      modifies this`trace
      ensures state == Speaking ==> trace == old(trace) + [DecodeQueued(packet)]
      ensures state != Speaking ==> trace == old(trace)
    {
      if state == Speaking {
        trace := trace + [DecodeQueued(packet)];
      }
    }

    /**
     * The protocol's message callback: what Messages.Dispatch decides is done here;
     * a task is queued, an alert shown with the vibration clip, or the payload handed
     * to the tool server. Nothing here changes the device state.
     */
    method OnIncomingJson(m: JsonMessage)
      requires WellFormed(m) && Valid()
      modifies this`trace, this`tasks, this`scheduled, this`pending
      ensures Valid()
      ensures var r := Dispatch(m, config.receiveCustom);
        && (r.Posted? ==>
              tasks == old(tasks) + [r.task] && scheduled == old(scheduled) + [r.task]
              && pending == old(pending) + {Event.Schedule} && trace == old(trace))
        && (r.Alerted? ==>
              trace == old(trace) + AlertLog(ServerAlert(r.status, r.message, r.emotion), VibrationClip)
              && unchanged(this`tasks, this`scheduled, this`pending))
        && (r.ToMcp? ==> trace == old(trace) + [McpParsed(r.payload)] && unchanged(this`tasks, this`scheduled, this`pending))
        && (r == Ignored ==> unchanged(this))
    {
      match Dispatch(m, config.receiveCustom) {
        case Ignored =>
        case Posted(t) =>
          Schedule(t);
        case Alerted(status, message, emotion) =>
          Alert(ServerAlert(status, message, emotion), VibrationClip);
        case ToMcp(payload) =>
          trace := trace + [McpParsed(payload)];
      }
    }

    /**
     * Whether the board may put the device to sleep; `audioIdle` is the audio service's
     * answer. Only an idle device with no open audio channel and an idle audio service may.
     */
    function CanEnterSleepMode(audioIdle: bool): (r: bool)
      reads this
      ensures r ==> state == Idle && audioIdle
      // an open channel always belongs to a protocol, so an open channel forbids sleep
      ensures Sane() && r ==> !channelOpen
      ensures state == Idle && audioIdle && !channelOpen ==> r
    {
      if state != Idle then false
      else if hasProtocol && channelOpen then false
      else audioIdle
    }

    // The activation worker. It runs beside the reactor; here each of its steps is one
    // method, and its reads of the device state are the oracle `idleAt`.

    /** An alert, then the clip of every digit of the code, in order; other characters are skipped. */
    method ShowActivationCode(code: string, message: string)
      modifies this`trace
      ensures trace == old(trace) + AlertLog(ActivationAlert(message), ActivationClip) + CodeSounds(code)
    {
      Alert(ActivationAlert(message), ActivationClip);
      ghost var t0 := trace;
      var i := 0;
      while i < |code|
        invariant i <= |code|
        invariant trace == t0 + CodeSounds(code[..i])
      {
        CodeSoundsStep(code, i);
        trace := trace + CharSound(code[i]);
        i := i + 1;
      }
      assert code[..i] == code;
    }

    /**
     * The assets check: at most once per process. With a usable partition, a stored
     * download URL is erased first and then downloaded (Upgrading requested for the
     * while); a failed download requests Activating and skips the apply.
     */
    method CheckAssetsVersion(partitionValid: bool, downloadOk: bool)
      requires Valid()
      modifies this`assetsVersionChecked, this`assetsDownloadUrl, this`state, this`pending, this`trace
      ensures Valid() && assetsVersionChecked
      // a second call, or an unusable partition, does nothing more
      ensures old(assetsVersionChecked) || !partitionValid ==>
        unchanged(this`assetsDownloadUrl, this`state, this`pending, this`trace)
      // the stored URL never survives a check, whatever the download does
      ensures !old(assetsVersionChecked) && partitionValid ==> assetsDownloadUrl == ""
      ensures !old(assetsVersionChecked) && partitionValid && old(assetsDownloadUrl) == "" ==>
        unchanged(this`state, this`pending) && trace == old(trace) + AssetsApplyLog
      ensures !old(assetsVersionChecked) && partitionValid && old(assetsDownloadUrl) != "" && downloadOk ==>
        Went(old(state), Upgrading) && trace == old(trace) + AssetsDownloadLog(old(assetsDownloadUrl)) + AssetsApplyLog
      ensures !old(assetsVersionChecked) && partitionValid && old(assetsDownloadUrl) != "" && !downloadOk ==>
        Went2(old(state), Upgrading, Activating) && trace == old(trace) + AssetsDownloadLog(old(assetsDownloadUrl)) + AssetsFailLog
    {
      if assetsVersionChecked {
        return;
      }
      assetsVersionChecked := true;
      if partitionValid {
        var url := assetsDownloadUrl;
        var applied := true;
        if url != "" {
          assetsDownloadUrl := "";
          applied := DownloadAssets(url, downloadOk);
        }
        if applied {
          trace := trace + AssetsApplyLog;
        }
      }
    }

    /**
     * The download of the assets at `url`, announced, with Upgrading requested for the
     * while; `ok` is its outcome. A failure is announced and requests Activating.
     */
    method DownloadAssets(url: string, ok: bool) returns (applied: bool)
      requires Valid()
      modifies this`state, this`pending, this`trace
      ensures Valid() && applied == ok
      ensures ok ==> Went(old(state), Upgrading) && trace == old(trace) + AssetsDownloadLog(url)
      ensures !ok ==> Went2(old(state), Upgrading, Activating) && trace == old(trace) + AssetsDownloadLog(url) + AssetsFailLog
    {
      trace := trace + [AssetsUrlErased];
      Alert(LoadingAssetsAlert(url), UpgradeClip);
      trace := trace + [Slept(3000)];
      SetDeviceState(Upgrading);
      trace := trace + [Power(Performance), Shown(ChatLine("system", "PLEASE_WAIT")), AssetsDownload(url),
        Power(LowPower), Slept(1000)];
      assert trace == old(trace) + AssetsDownloadLog(url);
      applied := ok;
      if !ok {
        ghost var t1 := trace;
        Alert(AssetsDownloadFailedAlert, ExclamationClip);
        trace := trace + [Slept(2000)];
        SetDeviceState(Activating);
        assert trace == t1 + AssetsFailLog;
      }
    }

    /** The upgrade announced, Upgrading requested, the audio service stopped and the download started. */
    method AnnounceUpgrade(url: string, version: string)
      modifies this`state, this`pending, this`trace
      ensures Went(old(state), Upgrading) && trace == old(trace) + UpgradeLog(url, version)
    {
      Alert(UpgradingAlert, UpgradeClip);
      trace := trace + [Slept(3000)];
      SetDeviceState(Upgrading);
      trace := trace + [Shown(ChatLine("system", VersionNotice(version))), Power(Performance), AudioServiceStop, Slept(1000),
        FirmwareDownload(url)];
    }

    /**
     * A firmware upgrade from `url`; `ok` is the download's outcome. The audio channel is
     * closed first and Upgrading requested. A failed download restarts the audio service
     * and returns false, leaving the state as it is; a successful one restarts the device.
     */
    method UpgradeFirmware(url: string, version: string, ok: bool) returns (success: bool)
      requires Valid()
      modifies this`channelOpen, this`trace, this`tasks, this`scheduled, this`pending, this`state, this`hasProtocol,
        this`halted
      ensures Valid() && success == ok
      ensures halted == (old(halted) || ok)
      // the channel is closed before the download and stays closed
      ensures !channelOpen
      ensures var closing := old(hasProtocol && channelOpen);
        && tasks == old(tasks) + CloseTasks(closing) && scheduled == old(scheduled) + CloseTasks(closing)
        && state == After(old(state), Upgrading)
        && pending == old(pending) + CloseFlags(closing) + Moved(old(state), Upgrading)
        && trace == old(trace) + CloseLog(closing) + UpgradeLog(url, version) + (if ok then UpgradeDoneLog else UpgradeFailLog)
      ensures hasProtocol == (old(hasProtocol) && !ok)
    {
      CloseIfOpen();
      AnnounceUpgrade(url, version);
      if ok {
        RebootAfterUpgrade();
      } else {
        RecoverFromUpgrade();
      }
      success := ok;
    }

    /** After a failed download: the audio service restarted, power saving restored, the failure announced. */
    method RecoverFromUpgrade()
      modifies this`trace
      ensures trace == old(trace) + UpgradeFailLog
    {
      trace := trace + [AudioServiceStart, Power(LowPower)];
      Alert(UpgradeFailedAlert, ExclamationClip);
      trace := trace + [Slept(3000)];
    }

    /** After a successful download: the notice, a pause, and the restart. */
    method RebootAfterUpgrade()
      requires !channelOpen
      modifies this`channelOpen, this`trace, this`tasks, this`scheduled, this`pending, this`hasProtocol, this`halted
      ensures halted && !hasProtocol && !channelOpen
      ensures trace == old(trace) + UpgradeDoneLog
      ensures tasks == old(tasks) && scheduled == old(scheduled) && pending == old(pending)
    {
      trace := trace + [Shown(ChatLine("system", "Upgrade successful, rebooting...")), Slept(1000)];
      assert CloseTasks(false) == [] && CloseFlags(false) == {};
      Reboot();
    }

    /**
     * The alert and the wait after the k-th failed check in a row (k below ten): the
     * alert announces RetryDelay(k) seconds, and the wait sleeps in one-second steps
     * until that many have passed or a state read finds Idle. Reads start at number `p0`.
     */
    method WaitBeforeRetry(k: nat, delay: nat, code: int, idleAt: nat -> bool, p0: nat) returns (waited: nat)
      requires 1 <= k < MaxRetry && delay == RetryDelay(k)
      modifies this`trace
      ensures trace == old(trace) + AlertLog(CheckFailedAlert(RetryDelay(k), code), ExclamationClip) + Seconds(waited)
      ensures 0 < waited <= RetryDelay(k)
      ensures forall j :: p0 <= j < p0 + waited - 1 ==> !idleAt(j)
      ensures waited < RetryDelay(k) ==> idleAt(p0 + waited - 1)
    {
      Alert(CheckFailedAlert(delay, code), ExclamationClip);
      waited := BackoffWait(delay, idleAt, p0);
      trace := trace + Seconds(waited);
    }

    /**
     * The rest of a round whose check succeeded with `info`. A new firmware is upgraded
     * (upgrade number `u0`); unless that restarted the device, the round goes on as
     * ContinueRound says.
     */
    method AfterCheck(info: VersionInfo, w: WorkerInputs, u0: nat, a0: nat, p0: nat)
      returns (rebooted: bool, finished: bool, upgrades: nat, calls: nat, polls: nat, ghost upgradeLog: seq<Effect>)
      requires Valid() && !halted
      modifies this`channelOpen, this`trace, this`tasks, this`scheduled, this`pending, this`state, this`hasProtocol,
        this`halted
      ensures Valid() && halted == rebooted
      ensures rebooted <==> info.newFirmware && w.upgradeOk(u0)
      ensures upgrades == u0 + (if info.newFirmware then 1 else 0)
      ensures !info.newFirmware ==> upgradeLog == []
      ensures !rebooted ==> (finished <==> !Activates(info))
      ensures !rebooted ==> AfterCheckLogged(info, w.activate, finished, upgradeLog, a0, p0, calls, polls, old(trace), trace)
    {
      rebooted, upgrades := false, u0;
      upgradeLog := [];
      if info.newFirmware {
        rebooted, upgradeLog := TryUpgrade(info, w.upgradeOk(u0));
        upgrades := u0 + 1;
        if rebooted {
          finished, calls, polls := true, a0, p0;
          return;
        }
      } else {
        assert trace == old(trace) + upgradeLog;
      }
      finished, calls, polls := ContinueRound(info, w, a0, p0);
    }

    /** The upgrade a successful check asks for; `ok` is the download's outcome, as UpgradeFirmware states. */
    method TryUpgrade(info: VersionInfo, ok: bool) returns (rebooted: bool, ghost log: seq<Effect>)
      requires Valid() && !halted
      modifies this`channelOpen, this`trace, this`tasks, this`scheduled, this`pending, this`state, this`hasProtocol,
        this`halted
      ensures Valid() && halted == rebooted && rebooted == ok
      ensures trace == old(trace) + log
    {
      ghost var t0 := trace;
      rebooted := UpgradeFirmware(info.firmwareUrl, info.firmwareVersion, ok);
      log := trace[|t0|..];
      assert trace == t0 + log;
    }

    /**
     * A successful round after any upgrade that did not restart the device: the running
     * version is marked valid, even after a failed upgrade. Without an activation code or
     * challenge the check is finished; otherwise the activation status is shown, the code
     * if there is one, and the activation poll runs (Activate calls numbered from `a0`,
     * state reads from `p0`).
     */
    method ContinueRound(info: VersionInfo, w: WorkerInputs, a0: nat, p0: nat) returns (finished: bool, calls: nat, polls: nat)
      modifies this`trace
      ensures finished <==> !Activates(info)
      ensures finished ==> trace == old(trace) + [VersionMarkedValid] && calls == a0 && polls == p0
      ensures !finished ==>
        a0 < calls <= a0 + MaxActivateCalls && p0 <= polls
        && trace == old(trace) + [VersionMarkedValid] + [Shown(StatusText("ACTIVATION"))] + CodeLog(info)
           + PollLog(Answers(w.activate, a0, calls - a0))
    {
      trace := trace + [VersionMarkedValid];
      if !Activates(info) {
        finished, calls, polls := true, a0, p0;
        return;
      }
      finished := false;
      var n, stateReads := AwaitActivation(info, w, a0, p0);
      calls, polls := a0 + n, p0 + stateReads;
    }

    /**
     * The activation part of a round: the activation status, the code if there is one,
     * and the activation poll (Activate calls numbered from `a0`, state reads from `p0`).
     */
    method AwaitActivation(info: VersionInfo, w: WorkerInputs, a0: nat, p0: nat) returns (calls: nat, polls: nat)
      modifies this`trace
      ensures 1 <= calls <= MaxActivateCalls
      ensures trace == old(trace) + [Shown(StatusText("ACTIVATION"))] + CodeLog(info) + PollLog(Answers(w.activate, a0, calls))
    {
      trace := trace + [Shown(StatusText("ACTIVATION"))];
      if |info.activationCode| > 0 {
        ShowActivationCode(info.activationCode, info.activationMessage);
      }
      var log;
      calls, polls, log := PollActivation(w.activate, w.idleAt, a0, p0);
      trace := trace + log;
    }

    /**
     * The version check. Each round shows the checking status and asks the OTA server,
     * whose answers are `w.replies` in order. A failure counts one more in a row: the
     * tenth in a row ends the check at once, any other is followed by the announced
     * back-off wait, which doubles with each failure in a row. A success resets the count
     * and runs the rest of the round (AfterCheck); the check ends when that round
     * restarted the device or found nothing to activate. Returns how the check ended,
     * how many replies it used, and the wait announced after each of them (0 for none).
     */
    method CheckNewVersion(w: WorkerInputs) returns (outcome: CheckOutcome, ghost used: nat, ghost waits: seq<nat>)
      requires Valid() && !halted && ota.Some?
      modifies this`channelOpen, this`trace, this`tasks, this`scheduled, this`pending, this`state, this`hasProtocol,
        this`halted, this`ota
      ensures Valid() && (halted <==> outcome == Rebooted)
      ensures used <= |w.replies|
      // the OTA client keeps the reply of the last successful check
      ensures ota == Some(old(ota).value.(checked := LastOk(w.replies[..used], old(ota).value.checked)))
      // the check gives up exactly at the tenth failure in a row
      ensures outcome == GaveUp <==> TrailingFailures(w.replies[..used]) == MaxRetry
      ensures outcome == Finished ==> 0 < used && w.replies[used - 1].CheckOk? && !Activates(w.replies[used - 1].info)
      ensures outcome == Rebooted ==> 0 < used && w.replies[used - 1].CheckOk? && w.replies[used - 1].info.newFirmware
      ensures outcome == OutOfScript ==> used == |w.replies|
      // every earlier successful check went on to the activation poll
      ensures forall j :: 0 <= j < used - 1 && w.replies[j].CheckOk? ==> Activates(w.replies[j].info)
      // the wait after each check: RetryDelay(k) after the k-th failure in a row below ten, none otherwise
      ensures waits == Waits(w.replies[..used])
    {
      ghost var client := ota.value;
      var retryCount: nat := 0;
      var retryDelay: nat := InitialRetryDelay;
      var i := 0;
      var upgrades: nat, calls: nat, polls: nat := 0, 0, 0;
      waits := [];
      while i < |w.replies|
        invariant i <= |w.replies| && Valid() && !halted
        invariant ota == Some(client.(checked := LastOk(w.replies[..i], client.checked)))
        invariant retryCount == TrailingFailures(w.replies[..i]) < MaxRetry
        invariant retryDelay == RetryDelay(retryCount + 1)
        invariant forall j :: 0 <= j < i && w.replies[j].CheckOk? ==> Activates(w.replies[j].info)
        invariant waits == Waits(w.replies[..i])
      {
        HistoryStep(w.replies, i, client.checked);
        var stop, wait;
        stop, retryCount, retryDelay, wait, upgrades, calls, polls :=
          NextRound(w, i, client, retryCount, retryDelay, upgrades, calls, polls);
        waits := waits + [wait];
        i := i + 1;
        if stop.Some? {
          outcome, used := stop.value, i;
          return;
        }
      }
      outcome, used := OutOfScript, i;
    }

    /**
     * One round of the version check, after `k` failures in a row (below ten) with the
     * next delay `delay`: the checking status shown and the server asked. A failure
     * counts one more in a row; the tenth ends the check at once, any other is followed
     * by the announced back-off wait, and the delay doubles. A success resets the count
     * and delay, keeps the reply in the OTA client and runs AfterCheck. Returns how the
     * check ended, if it did, the new count and delay, and the wait announced.
     */
    method CheckRound(reply: CheckReply, k: nat, delay: nat, w: WorkerInputs, u0: nat, a0: nat, p0: nat)
      returns (stop: Option<CheckOutcome>, k1: nat, delay1: nat, wait: nat, upgrades: nat, calls: nat, polls: nat,
               ghost upgradeLog: seq<Effect>)
      requires Valid() && !halted && ota.Some? && k < MaxRetry && delay == RetryDelay(k + 1)
      modifies this`channelOpen, this`trace, this`tasks, this`scheduled, this`pending, this`state, this`hasProtocol,
        this`halted, this`ota
      ensures Valid() && (halted <==> stop == Some(Rebooted))
      ensures ota == Some(old(ota).value.(checked := if reply.CheckOk? then Some(reply.info) else old(ota).value.checked))
      ensures k1 == if reply.CheckFailed? then k + 1 else 0
      ensures stop == Some(GaveUp) <==> k1 == MaxRetry
      ensures stop.None? ==> k1 < MaxRetry && delay1 == RetryDelay(k1 + 1)
      ensures wait == if 0 < k1 < MaxRetry then RetryDelay(k1) else 0
      ensures stop == Some(Finished) ==> reply.CheckOk? && !Activates(reply.info)
      ensures stop == Some(Rebooted) ==> reply.CheckOk? && reply.info.newFirmware
      ensures stop.None? && reply.CheckOk? ==> Activates(reply.info)
      ensures stop != Some(OutOfScript)
      // what the round adds to the trace, and the upgrades, Activate calls and state reads it used
      ensures RoundLogged(reply, stop, wait, w, upgradeLog, u0, upgrades, a0, calls, p0, polls, old(trace), trace)
    {
      trace := trace + CheckingLog;
      upgrades, calls, polls, upgradeLog := u0, a0, p0, [];
      match reply {
        case CheckFailed(code) =>
          k1 := k + 1;
          if k1 >= MaxRetry {
            stop, delay1, wait := Some(GaveUp), delay, 0;
            return;
          }
          var waited := WaitBeforeRetry(k1, delay, code, w.idleAt, p0);
          stop, delay1, wait, polls := None, delay * 2, delay, p0 + waited;
        case CheckOk(info) =>
          k1, delay1, wait := 0, InitialRetryDelay, 0;
          ota := Some(ota.value.(checked := Some(info)));
          var rebooted, finished;
          rebooted, finished, upgrades, calls, polls, upgradeLog := AfterCheck(info, w, u0, a0, p0);
          stop := if rebooted then Some(Rebooted) else if finished then Some(Finished) else None;
      }
    }

    /**
     * Round number `i` of the version check, stated on the history of replies: CheckRound
     * on reply `i` moves the run of failures, the OTA client and the wait one reply on.
     */
    method NextRound(w: WorkerInputs, i: nat, ghost client: OtaClient, k: nat, delay: nat, u0: nat, a0: nat, p0: nat)
      returns (stop: Option<CheckOutcome>, k1: nat, delay1: nat, wait: nat, upgrades: nat, calls: nat, polls: nat)
      requires Valid() && !halted && i < |w.replies|
      requires ota == Some(client.(checked := LastOk(w.replies[..i], client.checked)))
      requires k == TrailingFailures(w.replies[..i]) < MaxRetry && delay == RetryDelay(k + 1)
      modifies this`channelOpen, this`trace, this`tasks, this`scheduled, this`pending, this`state, this`hasProtocol,
        this`halted, this`ota
      ensures Valid() && (halted <==> stop == Some(Rebooted))
      ensures ota == Some(client.(checked := LastOk(w.replies[..i + 1], client.checked)))
      ensures stop == Some(GaveUp) <==> TrailingFailures(w.replies[..i + 1]) == MaxRetry
      ensures stop.None? ==> k1 == TrailingFailures(w.replies[..i + 1]) < MaxRetry && delay1 == RetryDelay(k1 + 1)
      ensures wait == WaitAfter(w.replies[..i + 1])
      ensures stop == Some(Finished) ==> w.replies[i].CheckOk? && !Activates(w.replies[i].info)
      ensures stop == Some(Rebooted) ==> w.replies[i].CheckOk? && w.replies[i].info.newFirmware
      ensures stop.None? && w.replies[i].CheckOk? ==> Activates(w.replies[i].info)
      ensures stop != Some(OutOfScript)
    {
      HistoryStep(w.replies, i, client.checked);
      ghost var upgradeLog;
      stop, k1, delay1, wait, upgrades, calls, polls, upgradeLog := CheckRound(w.replies[i], k, delay, w, u0, a0, p0);
    }

    /**
     * Starts the protocol the OTA client's configuration asks for: MQTT unless only a
     * WebSocket configuration is present. The new session has no audio channel open.
     */
    method InitializeProtocol()
      requires ota.Some?
      modifies this`trace, this`hasProtocol, this`transport, this`channelOpen
      ensures hasProtocol && !channelOpen && transport == TransportOf(ota.value)
      ensures trace == old(trace) + [Shown(StatusText("LOADING_PROTOCOL")), ProtocolStarted(transport)]
    {
      trace := trace + [Shown(StatusText("LOADING_PROTOCOL"))];
      transport := TransportOf(ota.value);
      hasProtocol := true;
      channelOpen := false;
      trace := trace + [ProtocolStarted(transport)];
    }

    /**
     * The activation worker: a fresh OTA client, the assets check, the version check,
     * the protocol started and ActivationDone raised for the reactor; then the worker is
     * no longer running. A restart during the version check ends everything there; when
     * the scripted replies run out the worker is still inside the check.
     */
    method ActivationTask(w: WorkerInputs, currentVersion: string) returns (outcome: CheckOutcome)
      requires Valid() && !halted
      modifies this`ota, this`assetsVersionChecked, this`assetsDownloadUrl, this`state, this`pending, this`trace,
        this`channelOpen, this`tasks, this`scheduled, this`hasProtocol, this`halted, this`transport, this`activationRunning
      ensures Valid() && assetsVersionChecked && (halted <==> outcome == Rebooted)
      ensures ota.Some? && ota.value.currentVersion == currentVersion
      // a check that finished or gave up leads to the protocol and the ActivationDone flag
      ensures outcome == Finished || outcome == GaveUp ==>
        hasProtocol && !channelOpen && transport == TransportOf(ota.value)
        && Event.ActivationDone in pending && !activationRunning
        && |trace| >= 2 && trace[|trace| - 2..] == [Shown(StatusText("LOADING_PROTOCOL")), ProtocolStarted(transport)]
      ensures outcome == Rebooted || outcome == OutOfScript ==> activationRunning == old(activationRunning)
    {
      ota := Some(OtaClient(currentVersion, None));
      CheckAssetsVersion(w.partitionValid, w.downloadOk);
      ghost var used, waits;
      outcome, used, waits := CheckNewVersion(w);
      if outcome == Finished || outcome == GaveUp {
        CompleteActivation();
      }
    }

    /** The protocol started, ActivationDone raised for the reactor, and the worker no longer running. */
    method CompleteActivation()
      requires Valid() && ota.Some?
      modifies this`trace, this`hasProtocol, this`transport, this`channelOpen, this`pending, this`activationRunning
      ensures Valid() && hasProtocol && !channelOpen && transport == TransportOf(ota.value)
      ensures pending == old(pending) + {Event.ActivationDone} && !activationRunning
      ensures trace == old(trace) + [Shown(StatusText("LOADING_PROTOCOL")), ProtocolStarted(transport)]
    {
      InitializeProtocol();
      Raise(Event.ActivationDone);
      activationRunning := false;
    }
  }
}

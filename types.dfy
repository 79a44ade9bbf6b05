/**
 * Value types shared by the controller model: device states, modes, the pending-event
 * flags, scheduled task descriptors, the collaborator replies the activation worker
 * consumes, and the entries of the ghost effect log.
 */
module Types {

  datatype Option<T> = None | Some(value: T)

  /** The device lifecycle states; exactly one is current. */
  datatype DeviceState =
    | Unknown | Starting | WifiConfiguring | Activating | Idle
    | Connecting | Listening | Speaking | Upgrading | AudioTesting

  /** How a Listening session ends. */
  datatype ListeningMode = AutoStop | ManualStop | Realtime

  /** Acoustic echo cancellation; one value, so "device and server side at once" cannot be expressed. */
  datatype AecMode = AecOff | AecOnDeviceSide | AecOnServerSide

  /** Cause sent to the server when speaking is interrupted. */
  datatype AbortReason = AbortNone | AbortWakeWordDetected

  /** The pending-event flags of the reactor's event group. */
  datatype Event =
    | Schedule | SendAudio | WakeWordDetected | VadChange | ClockTick | Error
    | NetworkConnected | NetworkDisconnected | ToggleChat | StartListening
    | StopListening | ActivationDone | StateChanged

  /** Events reported by the board's network layer. */
  datatype NetworkEvent =
    | Scanning | NetConnecting(carrier: string) | NetConnected(ssid: string) | NetDisconnected
    | WifiConfigModeEnter | WifiConfigModeExit | ModemDetecting | ModemErrorNoSim
    | ModemErrorRegDenied | ModemErrorInitFailed | ModemErrorTimeout

  datatype PowerLevel = LowPower | Performance

  /** The two protocol session variants. */
  datatype Transport = Mqtt | Websocket

  /** An encoded audio packet; its content is opaque to the controller. */
  type Packet = seq<bv8>

  /** A closure handed to the scheduler, as a descriptor of what it does when it runs. */
  datatype Task =
    | BeginSpeaking                        // tts/start
    | EndSpeaking                          // tts/stop
    | ShowChat(role: string, text: string) // tts/sentence_start, stt, custom
    | ShowEmotion(emotion: string)         // llm
    | RebootTask                           // system/reboot
    | ChannelClosedTask                    // posted by the audio-channel-closed callback
    | AbortSpeakingTask                    // WakeWordInvoke while Speaking
    | CloseChannelTask                     // WakeWordInvoke while Listening
    | McpSendTask(payload: string)         // SendMcpMessage
    | ApplyAecTask                         // SetAecMode
    | ResetProtocolTask                    // ResetProtocol

  /** What the OTA server returned for a successful version check. */
  datatype VersionInfo = VersionInfo(
    newFirmware: bool, firmwareUrl: string, firmwareVersion: string,
    activationCode: string, activationMessage: string, activationChallenge: bool,
    mqttConfig: bool, websocketConfig: bool, serverTime: bool)

  /** One answer of Ota::CheckVersion: an error code, or success with the parsed reply. */
  datatype CheckReply = CheckFailed(code: int) | CheckOk(info: VersionInfo)

  /** One answer of Ota::Activate. */
  datatype ActivateResult = ActivateOk | ActivateTimeout | ActivateError(code: int)

  /** The owned OTA client: the running firmware's version and the reply of its last successful version check, if any. */
  datatype OtaClient = OtaClient(currentVersion: string, checked: Option<VersionInfo>)

  datatype Sound =
    | DigitClip(digit: nat) | ActivationClip | SuccessClip | PopupClip
    | ExclamationClip | UpgradeClip | VibrationClip | PinErrorClip | RegErrorClip

  /** The alerts the controller raises (status, message and emotion folded into one tag). */
  datatype AlertKind =
    | NetworkErrorAlert(message: string)
    | PinErrorAlert | RegErrorAlert
    | LoadingAssetsAlert(url: string)
    | AssetsDownloadFailedAlert
    | CheckFailedAlert(delay: nat, code: int)
    | ActivationAlert(message: string)
    | UpgradingAlert
    | UpgradeFailedAlert
    | ServerAlert(status: string, message: string, emotion: string)

  /** Presentation calls, kept opaque. */
  datatype Ui =
    | StatusText(name: string)
    | EmotionTag(tag: string)
    | ChatLine(role: string, text: string)
    | Notice(name: string)
    | AlertBox(kind: AlertKind)
    | StatusBarRefresh
    | LedRefresh

  /** One entry of the ghost effect log: a call on the display, the audio service, the protocol or the OTA client. */
  datatype Effect =
    | Requested(target: DeviceState)
    | ChannelOpen | ChannelClose
    | StartListeningSent(mode: ListeningMode)
    | StopListeningSent
    | AbortSent(reason: AbortReason)
    | WakeWordSent(word: string)
    | McpSent(payload: string)
    | AudioSent(packet: Packet)
    | ProtocolStarted(transport: Transport)
    | McpParsed(payload: string)
    | VoiceProcessing(on: bool)
    | WakeWordDetection(on: bool)
    | AudioTestMode(on: bool)
    | DeviceAec(on: bool)
    | DecoderReset
    | WakeWordEncoded
    | DecodeQueued(packet: Packet)
    | Played(sound: Sound)
    | AudioServiceStart | AudioServiceStop
    | NetworkStarted
    | Power(level: PowerLevel)
    | Shown(ui: Ui)
    | Slept(ms: nat)
    | HeapStatsLogged
    | VersionChecked
    | ActivateCalled
    | VersionMarkedValid
    | FirmwareDownload(url: string)
    | AssetsUrlErased
    | AssetsDownload(url: string)
    | AssetsApplied
    | Restarted

  /** The one-second sleeps of a cut-short retry wait. */
  function Seconds(n: nat): (r: seq<Effect>)
    ensures |r| == n
    ensures forall i :: 0 <= i < n ==> r[i] == Slept(1000)
  {
    seq(n, _ => Slept(1000))
  }

  /** One AudioSent entry per packet handed to SendAudio, in order. */
  function AudioSends(ps: seq<Packet>): (r: seq<Effect>)
    ensures |r| == |ps|
    ensures forall i :: 0 <= i < |ps| ==> r[i] == AudioSent(ps[i])
  {
    seq(|ps|, i requires 0 <= i < |ps| => AudioSent(ps[i]))
  }
}

/**
 * The controller's pure decision tables: the listening mode a conversation starts in,
 * the transport variant, the digit-to-clip lookup of the activation code, and the
 * side effects of entering each device state.
 */
module Policy {
  import opened Types

  /** Listening mode for a conversation opened by the toggle or a wake word: realtime only with AEC. */
  function ListeningModeFor(aec: AecMode): (r: ListeningMode)
    ensures r != ManualStop
    ensures r == AutoStop <==> aec == AecOff
  {
    if aec == AecOff then AutoStop else Realtime
  }

  /** Transport choice from the OTA configuration: MQTT first, then WebSocket, else MQTT. */
  function ChooseTransport(hasMqttConfig: bool, hasWebsocketConfig: bool): (r: Transport)
    ensures r == Websocket <==> !hasMqttConfig && hasWebsocketConfig
    ensures hasMqttConfig ==> r == Mqtt
  {
    if hasMqttConfig then Mqtt
    else if hasWebsocketConfig then Websocket
    else Mqtt
  }

  predicate IsDigit(c: char)
  {
    '0' <= c <= '9'
  }

  /** The value of a digit character (zero for any other character). */
  function DigitOf(c: char): nat
  {
    if IsDigit(c) then c as nat - '0' as nat else 0
  }

  /** The ten (digit, clip) pairs searched for each character of an activation code. */
  const DigitSounds: seq<(char, Sound)> := [
    ('0', DigitClip(0)), ('1', DigitClip(1)), ('2', DigitClip(2)), ('3', DigitClip(3)),
    ('4', DigitClip(4)), ('5', DigitClip(5)), ('6', DigitClip(6)), ('7', DigitClip(7)),
    ('8', DigitClip(8)), ('9', DigitClip(9))]

  /** First entry of `table` whose character is `c`, as a linear search does. */
  function Find(table: seq<(char, Sound)>, c: char): (r: Option<Sound>)
    ensures r.None? <==> forall i :: 0 <= i < |table| ==> table[i].0 != c
    ensures r.Some? ==> (c, r.value) in table
  {
    if table == [] then None
    else if table[0].0 == c then Some(table[0].1)
    else
      assert forall i :: 0 <= i < |table[1..]| ==> table[1..][i] == table[i + 1];
      Find(table[1..], c)
  }

  /** What Find returns is the first entry for `c`: no earlier entry has that character. */
  lemma {:induction false} FindFirst(table: seq<(char, Sound)>, c: char)
    requires Find(table, c).Some?
    ensures exists i :: 0 <= i < |table| && table[i] == (c, Find(table, c).value)
                        && forall j :: 0 <= j < i ==> table[j].0 != c
  {
    if table[0].0 != c {
      var rest := table[1..];
      FindFirst(rest, c);
      var i :| 0 <= i < |rest| && rest[i] == (c, Find(rest, c).value) && forall j :: 0 <= j < i ==> rest[j].0 != c;
      assert table[i + 1] == rest[i];
      assert forall j :: 1 <= j < i + 1 ==> table[j] == rest[j - 1];
    } else {
      assert table[0] == (c, Find(table, c).value);
    }
  }

  /** The clip for one character of an activation code: its digit's clip, none for a non-digit. */
  function DigitSound(c: char): (r: Option<Sound>)
    ensures r.Some? <==> IsDigit(c)
    ensures r.Some? ==> r.value == DigitClip(DigitOf(c))
  {
    assert forall i :: 0 <= i < |DigitSounds| ==>
      DigitSounds[i] == (('0' as int + i) as char, DigitClip(i));
    assert IsDigit(c) ==> DigitSounds[c as int - '0' as int].0 == c;
    Find(DigitSounds, c)
  }

  /** The clip played for one character of an activation code: its digit's clip, nothing for a non-digit. */
  function CharSound(c: char): seq<Effect>
  {
    match DigitSound(c)
    case Some(s) => [Played(s)]
    case None => []
  }

  /** The clips played for an activation code: one per digit, in order; other characters are skipped. */
  function CodeSounds(code: string): seq<Effect>
  {
    if code == [] then [] else CharSound(code[0]) + CodeSounds(code[1..])
  }

  /** At most one clip per character, and every one of them a digit clip. */
  lemma {:induction false} CodeSoundsShape(code: string)
    ensures |CodeSounds(code)| <= |code|
    ensures forall e :: e in CodeSounds(code) ==> e.Played? && e.sound.DigitClip? && e.sound.digit <= 9
  {
    if code != [] {
      CodeSoundsShape(code[1..]);
    }
  }

  /** The clips of a concatenation are the clips of its parts. */
  lemma {:induction false} CodeSoundsAppend(a: string, b: string)
    ensures CodeSounds(a + b) == CodeSounds(a) + CodeSounds(b)
  {
    if a != [] {
      assert (a + b)[1..] == a[1..] + b;
      CodeSoundsAppend(a[1..], b);
      assert CodeSounds(a + b) == CharSound(a[0]) + CodeSounds(a[1..] + b);
    } else {
      assert a + b == b;
    }
  }

  /** One more character adds its own clip, if any, at the end. */
  lemma CodeSoundsSnoc(a: string, c: char)
    ensures CodeSounds(a + [c]) == CodeSounds(a) + CharSound(c)
  {
    CodeSoundsAppend(a, [c]);
    assert CodeSounds([c]) == CharSound(c) + CodeSounds([]);
  }

  /** The clips of the first i + 1 characters: those of the first i, then the clip of character i. */
  lemma CodeSoundsStep(code: string, i: nat)
    requires i < |code|
    ensures CodeSounds(code[..i + 1]) == CodeSounds(code[..i]) + CharSound(code[i])
  {
    assert code[..i + 1] == code[..i] + [code[i]];
    CodeSoundsSnoc(code[..i], code[i]);
  }

  /** A code made only of digits plays exactly one clip per character, each the clip of that digit. */
  lemma {:induction false} CodeSoundsOfDigits(code: string)
    requires forall i :: 0 <= i < |code| ==> IsDigit(code[i])
    ensures |CodeSounds(code)| == |code|
    ensures forall i :: 0 <= i < |code| ==> CodeSounds(code)[i] == Played(DigitClip(DigitOf(code[i])))
  {
    if code != [] {
      var tail := code[1..];
      assert forall i :: 0 <= i < |tail| ==> tail[i] == code[i + 1];
      CodeSoundsOfDigits(tail);
      var rest := CodeSounds(tail);
      var first := Played(DigitClip(DigitOf(code[0])));
      assert CodeSounds(code) == [first] + rest;
      forall i | 0 <= i < |code|
        ensures CodeSounds(code)[i] == Played(DigitClip(DigitOf(code[i])))
      {
        if i > 0 {
          assert CodeSounds(code)[i] == rest[i - 1];
        }
      }
    }
  }

  /** A code without digits plays nothing. */
  lemma {:induction false} CodeSoundsWithoutDigits(code: string)
    requires forall i :: 0 <= i < |code| ==> !IsDigit(code[i])
    ensures CodeSounds(code) == []
  {
    if code != [] {
      CodeSoundsWithoutDigits(code[1..]);
    }
  }

  /**
   * What entering `s` does after the LED refresh: status and emotion, voice
   * processing and wake-word detection, the start-listening notice, the deferred
   * popup clip and the decoder reset. `processorRunning` is the audio service's
   * answer at that moment, `popup` the deferred-popup flag, `afe` whether the
   * wake-word engine also runs while speaking.
   */
  function EntryEffects(s: DeviceState, mode: ListeningMode, processorRunning: bool, popup: bool, afe: bool): seq<Effect>
  {
    match s
    case Unknown | Idle =>
      [Shown(StatusText("STANDBY")), Shown(EmotionTag("neutral")), VoiceProcessing(false), WakeWordDetection(true)]
    case Connecting =>
      [Shown(StatusText("CONNECTING")), Shown(EmotionTag("neutral")), Shown(ChatLine("system", ""))]
    case Listening =>
      [Shown(StatusText("LISTENING")), Shown(EmotionTag("neutral"))]
      + (if !processorRunning then [StartListeningSent(mode), VoiceProcessing(true), WakeWordDetection(false)] else [])
      + (if popup then [Played(PopupClip)] else [])
    case Speaking =>
      [Shown(StatusText("SPEAKING"))]
      + (if mode != Realtime then [VoiceProcessing(false), WakeWordDetection(afe)] else [])
      + [DecoderReset]
    case WifiConfiguring =>
      [VoiceProcessing(false), WakeWordDetection(false)]
    case _ => []
  }

  /** Entering Idle or Unknown: voice processing off and wake-word detection on, nothing else of either. */
  lemma EntryIdle(s: DeviceState, mode: ListeningMode, processorRunning: bool, popup: bool, afe: bool)
    requires s == Idle || s == Unknown
    ensures var r := EntryEffects(s, mode, processorRunning, popup, afe);
      && VoiceProcessing(false) in r && WakeWordDetection(true) in r
      && VoiceProcessing(true) !in r && WakeWordDetection(false) !in r
  {
  }

  /** Entering WifiConfiguring turns both voice processing and wake-word detection off, and does nothing else. */
  lemma EntryWifiConfiguring(mode: ListeningMode, processorRunning: bool, popup: bool, afe: bool)
    ensures EntryEffects(WifiConfiguring, mode, processorRunning, popup, afe) == [VoiceProcessing(false), WakeWordDetection(false)]
  {
  }

  /**
   * Entering Listening: the start notice, voice processing and the detection switch-off
   * only when the audio processor is not running; the popup exactly when it was deferred.
   */
  lemma EntryListening(mode: ListeningMode, processorRunning: bool, popup: bool, afe: bool)
    ensures var r := EntryEffects(Listening, mode, processorRunning, popup, afe);
      && (StartListeningSent(mode) in r <==> !processorRunning)
      && (VoiceProcessing(true) in r <==> !processorRunning)
      && (WakeWordDetection(false) in r <==> !processorRunning)
      && (Played(PopupClip) in r <==> popup)
      && DecoderReset !in r
  {
  }

  /** Entering Speaking always resets the decoder; voice processing is turned off only outside realtime mode. */
  lemma EntrySpeaking(mode: ListeningMode, processorRunning: bool, popup: bool, afe: bool)
    ensures var r := EntryEffects(Speaking, mode, processorRunning, popup, afe);
      && DecoderReset in r
      && (VoiceProcessing(false) in r <==> mode != Realtime)
      && (WakeWordDetection(afe) in r <==> mode != Realtime)
      && VoiceProcessing(true) !in r && Played(PopupClip) !in r
  {
  }

  /** Only a Listening entry sends the start notice or plays the popup, and only a Speaking entry resets the decoder. */
  lemma EntryOnly(s: DeviceState, mode: ListeningMode, processorRunning: bool, popup: bool, afe: bool)
    ensures var r := EntryEffects(s, mode, processorRunning, popup, afe);
      && (StartListeningSent(mode) in r ==> s == Listening)
      && (Played(PopupClip) in r ==> s == Listening)
      && (DecoderReset in r ==> s == Speaking)
      && (s in {Starting, Activating, Upgrading, AudioTesting} ==> r == [])
  {
  }

  /** Flags the network-event callback raises for the reactor. */
  function NetworkFlags(ev: NetworkEvent): (r: set<Event>)
    ensures Event.NetworkConnected in r <==> ev.NetConnected?
    ensures Event.NetworkDisconnected in r <==> ev == Scanning || ev == NetDisconnected
    ensures r <= {Event.NetworkConnected, Event.NetworkDisconnected}
  {
    match ev
    case Scanning | NetDisconnected => {Event.NetworkDisconnected}
    case NetConnected(_) => {Event.NetworkConnected}
    case _ => {}
  }

  /** What the network-event callback shows or plays for an event. */
  function NetworkNotice(ev: NetworkEvent): (r: seq<Effect>)
    // only the two modem errors raise an alert, each with its own clip
    ensures Played(PinErrorClip) in r <==> ev == ModemErrorNoSim
    ensures Played(RegErrorClip) in r <==> ev == ModemErrorRegDenied
    ensures forall e :: e in r ==> e.Shown? || e == Played(PinErrorClip) || e == Played(RegErrorClip)
    // the configuration-mode events and a plain disconnection show nothing
    ensures ev == WifiConfigModeEnter || ev == WifiConfigModeExit || ev == NetDisconnected ==> r == []
    // a connection reports the network's name
    ensures ev.NetConnected? ==> r == [Shown(Notice("CONNECTED_TO" + ev.ssid))]
  {
    match ev
    case Scanning => [Shown(Notice("SCANNING_WIFI"))]
    case NetConnecting(carrier) =>
      if carrier == [] then [Shown(StatusText("REGISTERING_NETWORK"))]
      else [Shown(Notice("CONNECT_TO" + carrier + "..."))]
    case NetConnected(ssid) => [Shown(Notice("CONNECTED_TO" + ssid))]
    case NetDisconnected | WifiConfigModeEnter | WifiConfigModeExit => []
    case ModemDetecting => [Shown(StatusText("DETECTING_MODULE"))]
    case ModemErrorNoSim => [Shown(AlertBox(PinErrorAlert)), Played(PinErrorClip)]
    case ModemErrorRegDenied => [Shown(AlertBox(RegErrorAlert)), Played(RegErrorClip)]
    case ModemErrorInitFailed => [Shown(StatusText("DETECTING_MODULE")), Shown(ChatLine("system", "DETECTING_MODULE"))]
    case ModemErrorTimeout => [Shown(StatusText("REGISTERING_NETWORK"))]
  }
}

/**
 * Inbound control messages: a decoded JSON object is a map from its top-level keys
 * to their values, and the dispatcher decides from the `type` field (and the
 * per-type fields) what the controller does with it.
 */
module Messages {
  import opened Types

  /** A top-level JSON value as far as the dispatcher inspects it. */
  datatype JsonValue = JString(s: string) | JObject(printed: string) | JOther

  /** A decoded inbound message: its top-level fields. */
  type JsonMessage = map<string, JsonValue>

  /** What the incoming-message callback does with a message. */
  datatype Reaction =
    | Ignored                                              // logged and dropped
    | Posted(task: Task)                                   // handed to the scheduler
    | Alerted(status: string, message: string, emotion: string)  // alert shown on the callback thread
    | ToMcp(payload: string)                               // given to the tool-invocation server

  /** The string value of field `key`, if the field is present and is a string. */
  function StringField(m: JsonMessage, key: string): (r: Option<string>)
    ensures r.Some? <==> key in m && m[key].JString?
    ensures r.Some? ==> m[key] == JString(r.value)
  {
    if key in m && m[key].JString? then Some(m[key].s) else None
  }

  /** The printed form of field `key`, if the field is present and is an object. */
  function ObjectField(m: JsonMessage, key: string): (r: Option<string>)
    ensures r.Some? <==> key in m && m[key].JObject?
    ensures r.Some? ==> m[key] == JObject(r.value)
  {
    if key in m && m[key].JObject? then Some(m[key].printed) else None
  }

  /**
   * The dereferences the source does without checking: `type` must be a string, and
   * for `tts` so must `state`.
   */
  predicate WellFormed(m: JsonMessage)
  {
    && StringField(m, "type").Some?
    && (m["type"].s == "tts" ==> StringField(m, "state").Some?)
  }

  /** The message types the dispatcher acts on; `custom` only when that feature is built in. */
  function KnownTypes(receiveCustom: bool): (r: set<string>)
    ensures "custom" in r <==> receiveCustom
    ensures {"tts", "stt", "llm", "mcp", "system", "alert"} <= r
  {
    {"tts", "stt", "llm", "mcp", "system", "alert"} + (if receiveCustom then {"custom"} else {})
  }

  /** Dispatch of one inbound message by its `type` field. */
  function Dispatch(m: JsonMessage, receiveCustom: bool): (r: Reaction)
    requires WellFormed(m)
    // tts/start and tts/stop always post their task; nothing else posts them
    ensures r == Posted(BeginSpeaking) <==> m["type"].s == "tts" && m["state"].s == "start"
    ensures r == Posted(EndSpeaking) <==> m["type"].s == "tts" && m["state"].s == "stop"
    // only system/reboot posts a reboot
    ensures r == Posted(RebootTask) <==> m["type"].s == "system" && StringField(m, "command") == Some("reboot")
    // an alert is shown exactly when status, message and emotion are all strings
    ensures r.Alerted? <==> (m["type"].s == "alert" && StringField(m, "status").Some?
                             && StringField(m, "message").Some? && StringField(m, "emotion").Some?)
    ensures r.Alerted? ==> r == Alerted(m["status"].s, m["message"].s, m["emotion"].s)
    ensures r.ToMcp? <==> m["type"].s == "mcp" && ObjectField(m, "payload").Some?
    // the MCP server receives the payload object as printed
    ensures r.ToMcp? ==> m["payload"] == JObject(r.payload)
    // a chat line is shown for an assistant sentence or a user transcript carrying a text,
    // and for a custom message carrying a payload object when custom messages are enabled
    ensures (r.Posted? && r.task.ShowChat?) <==>
      || (m["type"].s == "tts" && m["state"].s == "sentence_start" && StringField(m, "text").Some?)
      || (m["type"].s == "stt" && StringField(m, "text").Some?)
      || (m["type"].s == "custom" && receiveCustom && ObjectField(m, "payload").Some?)
    // with the role of its speaker and the text, or the payload printed
    ensures r.Posted? && r.task.ShowChat? && m["type"].s == "tts" ==> r.task == ShowChat("assistant", m["text"].s)
    ensures r.Posted? && r.task.ShowChat? && m["type"].s == "stt" ==> r.task == ShowChat("user", m["text"].s)
    ensures r.Posted? && r.task.ShowChat? && m["type"].s == "custom" ==> r.task == ShowChat("system", m["payload"].printed)
    // an emotion is shown exactly for an llm message carrying one
    ensures (r.Posted? && r.task.ShowEmotion?) <==> m["type"].s == "llm" && StringField(m, "emotion").Some?
    ensures r.Posted? && r.task.ShowEmotion? ==> r.task == ShowEmotion(m["emotion"].s)
    // a tts message in any other state does nothing
    ensures m["type"].s == "tts" && m["state"].s !in {"start", "stop", "sentence_start"} ==> r == Ignored
    // a system command other than reboot does nothing
    ensures m["type"].s == "system" && StringField(m, "command") != Some("reboot") ==> r == Ignored
    // an unknown type does nothing
    ensures m["type"].s !in KnownTypes(receiveCustom) ==> r == Ignored
    // every posted task only touches the display or the state machine, or reboots
    ensures r.Posted? ==> (r.task.BeginSpeaking? || r.task.EndSpeaking? || r.task.ShowChat?
                           || r.task.ShowEmotion? || r.task.RebootTask?)
  {
    var kind := m["type"].s;
    if kind == "tts" then
      var st := m["state"].s;
      if st == "start" then Posted(BeginSpeaking)
      else if st == "stop" then Posted(EndSpeaking)
      else if st == "sentence_start" then
        match StringField(m, "text")
        case Some(text) => Posted(ShowChat("assistant", text))
        case None => Ignored
      else Ignored
    else if kind == "stt" then
      match StringField(m, "text")
      case Some(text) => Posted(ShowChat("user", text))
      case None => Ignored
    else if kind == "llm" then
      match StringField(m, "emotion")
      case Some(emotion) => Posted(ShowEmotion(emotion))
      case None => Ignored
    else if kind == "mcp" then
      match ObjectField(m, "payload")
      case Some(payload) => ToMcp(payload)
      case None => Ignored
    else if kind == "system" then
      match StringField(m, "command")
      case Some(command) => if command == "reboot" then Posted(RebootTask) else Ignored
      case None => Ignored
    else if kind == "alert" then
      match (StringField(m, "status"), StringField(m, "message"), StringField(m, "emotion"))
      case (Some(status), Some(message), Some(emotion)) => Alerted(status, message, emotion)
      case _ => Ignored
    else if kind == "custom" && receiveCustom then
      match ObjectField(m, "payload")
      case Some(payload) => Posted(ShowChat("system", payload))
      case None => Ignored
    else Ignored
  }
}

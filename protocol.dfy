/** The two message schemas the bridge speaks and the per-message translation
    each forwarding loop performs: the body of `handle_from_telecmi` for a
    message from the telephony provider, the body of `handle_from_eleven` for a
    message from the voice-AI provider. */
module Protocol {
  import opened Values

  /** The greeting sent to the AI when the session opens. */
  const Greeting: string := "Hello! How can I assist you?"

  /** What one inbound message makes the bridge do. */
  datatype Action =
    | SendToAi(message: Json)          // a send on the AI connection
    | SendToTelephony(message: Json)   // a send on the telephony connection
    | CloseAi                          // close the AI connection
    | Skip                             // nothing

  /** `{"user_audio_chunk": chunk}` */
  function UserAudioChunk(chunk: Json): Json {
    JObj(map["user_audio_chunk" := chunk])
  }

  /** `{"type": "pong", "event_id": id}` */
  function Pong(eventId: Json): Json {
    JObj(map["type" := JStr("pong"), "event_id" := eventId])
  }

  /** `{"event": "media", "media": {"payload": p}}`, the telephony media frame. */
  function MediaFrame(payload: Json): Json {
    JObj(map["event" := JStr("media"), "media" := JObj(map["payload" := payload])])
  }

  /** `{"event": "clear"}` */
  function ClearFrame(): Json {
    JObj(map["event" := JStr("clear")])
  }

  /** `{"text": greeting, "voice_id": voiceId, "start_conversation": true}` */
  function SessionStart(voiceId: string): (m: Json)
    ensures m.JObj? && m.fields.Keys == {"text", "voice_id", "start_conversation"}
    ensures m.fields["text"] == JStr("Hello! How can I assist you?")
    ensures m.fields["voice_id"] == JStr(voiceId) && m.fields["start_conversation"] == JBool(true)
  {
    JObj(map["text" := JStr(Greeting), "voice_id" := JStr(voiceId), "start_conversation" := JBool(true)])
  }

  /** Telephony to AI: `media` forwards its payload as a user audio chunk,
      `stop` closes the AI connection, any other or missing `event` is ignored. */
  function TelephonyMessageAction(data: Json): (r: Result<Action>)
    ensures r.Success? ==> !r.value.SendToTelephony?
    ensures !data.JObj? ==> r == Failure(AttributeError)
    ensures FieldIs(data, "event", "media") && HasPath(data, "media", "payload") ==>
              r == Success(SendToAi(JObj(map["user_audio_chunk" := At(data, "media", "payload")])))
    ensures FieldIs(data, "event", "media") && !HasPath(data, "media", "payload") ==>
              r == Failure(PathFault(data, "media", "payload").value)
    ensures r == Success(CloseAi) <==> FieldIs(data, "event", "stop")
    ensures r == Success(Skip) <==>
              data.JObj? && !FieldIs(data, "event", "media") && !FieldIs(data, "event", "stop")
  {
    var event :- Lookup(data, "event");
    if event == Some(JStr("media")) then
      var media :- Index(data, "media");
      var chunk :- Index(media, "payload");
      Success(SendToAi(UserAudioChunk(chunk)))
    else if event == Some(JStr("stop")) then
      Success(CloseAi)
    else
      Success(Skip)
  }

  /** AI to telephony: `ping` is answered on the AI connection with a pong
      echoing its event id, `audio` is forwarded as a telephony media frame,
      `interruption` becomes a telephony `clear`, anything else is ignored. */
  function AiMessageAction(data: Json): (r: Result<Action>)
    ensures r.Success? ==> !r.value.CloseAi?
    ensures !data.JObj? ==> r == Failure(AttributeError)
    ensures FieldIs(data, "type", "ping") && HasPath(data, "ping_event", "event_id") ==>
              r == Success(SendToAi(JObj(map["type" := JStr("pong"), "event_id" := At(data, "ping_event", "event_id")])))
    ensures FieldIs(data, "type", "ping") && !HasPath(data, "ping_event", "event_id") ==>
              r == Failure(PathFault(data, "ping_event", "event_id").value)
    ensures FieldIs(data, "type", "audio") && HasPath(data, "audio_event", "audio_base_64") ==>
              r == Success(SendToTelephony(JObj(map["event" := JStr("media"),
                                                    "media" := JObj(map["payload" := At(data, "audio_event", "audio_base_64")])])))
    ensures FieldIs(data, "type", "audio") && !HasPath(data, "audio_event", "audio_base_64") ==>
              r == Failure(PathFault(data, "audio_event", "audio_base_64").value)
    ensures FieldIs(data, "type", "interruption") ==> r == Success(SendToTelephony(JObj(map["event" := JStr("clear")])))
    ensures r == Success(Skip) <==>
              data.JObj? && !FieldIs(data, "type", "ping") && !FieldIs(data, "type", "audio")
              && !FieldIs(data, "type", "interruption")
  {
    var kind :- Lookup(data, "type");
    if kind == Some(JStr("ping")) then
      var ping :- Index(data, "ping_event");
      var id :- Index(ping, "event_id");
      Success(SendToAi(Pong(id)))
    else if kind == Some(JStr("audio")) then
      var audio :- Index(data, "audio_event");
      var payload :- Index(audio, "audio_base_64");
      Success(SendToTelephony(MediaFrame(payload)))
    else if kind == Some(JStr("interruption")) then
      Success(SendToTelephony(ClearFrame()))
    else
      Success(Skip)
  }

  /** The media frame the bridge sends to the telephony side has the very
      shape it reads from the telephony side: were it echoed back, the same
      payload would reach the AI as a user audio chunk. */
  lemma MediaFrameEchoesBack(payload: Json)
    ensures TelephonyMessageAction(MediaFrame(payload)) == Success(SendToAi(UserAudioChunk(payload)))
  {
  }

  /** Worked examples of the two schemas: telephony media "QUJD" reaches the
      AI as a user audio chunk "QUJD"; AI audio "WFla" reaches the telephony
      side as a media frame "WFla"; an AI interruption becomes a `clear`. */
  lemma ScenarioMessages()
    ensures TelephonyMessageAction(JObj(map["event" := JStr("media"), "media" := JObj(map["payload" := JStr("QUJD")])]))
            == Success(SendToAi(JObj(map["user_audio_chunk" := JStr("QUJD")])))
    ensures AiMessageAction(JObj(map["type" := JStr("audio"), "audio_event" := JObj(map["audio_base_64" := JStr("WFla")])]))
            == Success(SendToTelephony(JObj(map["event" := JStr("media"), "media" := JObj(map["payload" := JStr("WFla")])])))
    ensures AiMessageAction(JObj(map["type" := JStr("interruption")]))
            == Success(SendToTelephony(JObj(map["event" := JStr("clear")])))
  {
  }
}

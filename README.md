# Telephony to voice-AI bridge: message translation, relay loops and call set-up

This project models the core of a small Python service that bridges a phone
call leg from a telephony provider (TeleCMI) to a conversational voice-AI
session (ElevenLabs). The service does two things:

- On `/ws`, the telephony provider opens a WebSocket carrying the call audio.
  The bridge opens a second WebSocket to the AI provider and sends it one
  session-start message with a greeting. It then runs two forwarding loops
  until they end:
  - telephony to AI: `media` becomes a user audio chunk, `stop` closes the AI
    connection, anything else is ignored;
  - AI to telephony: `ping` is answered with a `pong` on the AI connection,
    `audio` becomes a telephony media frame, `interruption` becomes a `clear`,
    anything else is ignored.
  Any exception sends an error text to the telephony side. The telephony
  connection is closed on every path.
- On `/make-outbound-call`, the service checks the request's `to` field. It
  answers 400 when `to` is missing or falsy. Otherwise it builds the call
  request for the provider: app id, secret, origin number, destination, and
  one `stream` action that points the call audio at `/ws` in `callee` mode.

Modules:

- `Values` (values.dfy): decoded JSON values and Python's `d.get(k)` and `d[k]`,
  with the exceptions they raise (`KeyError`, `TypeError`, `AttributeError`),
  and Python truthiness.
- `Protocol` (protocol.dfy): the two message schemas, and the translation of
  one inbound message into an `Action`. These are the loop bodies of
  `handle_from_telecmi` and `handle_from_eleven`.
- `Relay` (relay.dfy): both loops as a function `Run` of a message schedule.
  The schedule is a sequence of messages, each tagged with the connection it
  was read from. Handling a message may suspend at its `await` of a send or a
  close, and the other loop can read and act in the meantime. But each message
  causes at most one send or close, so the schedule orders messages by the
  moment that send or close takes effect. The first exception ends both loops.
  The module also holds the lemmas about runs.
- `Bridge` (bridge.dfy): the two connections as classes that record what was
  sent and whether they are closed. It also holds the loop method `Forward`,
  proved equal to `Run`, and the endpoint `Session`, proved equal to
  `SessionOutcome`.
- `OutboundCall` (outbound_call.dfy): the `to` check and the call request body.

Behaviour of the code worth knowing, all modelled as written:

- The `pong` goes back on the AI connection. So the AI connection is written by
  both loops: chunks from the telephony loop and pongs from the AI loop.
- `stop` closes the AI connection but does not leave the telephony loop. A
  later `media` message, or a `ping` reply, then sends on a closed WebSocket.
  The websockets library raises `ConnectionClosed` for that, so the session
  ends with an error text (`Relay.StopThenMedia`).
- A recognised message without its nested field raises. `KeyError` is raised
  when a key is missing, and `TypeError` when the outer field is not an
  object. A message that is not a JSON object raises `AttributeError` at
  `.get`. Each of these ends the session.
- Leaving the `async with` block closes the AI connection on both the normal
  and the error path, before the error text is sent.

## Model

| member | source | states |
|---|---|---|
| `Values.Lookup` | main.py:85 | `d.get(k)` gives the value under k, or None when k is absent; on a value that is not an object it raises AttributeError |
| `Values.Index` | main.py:88 | `d[k]` gives the value under k; it raises KeyError(k) on an object without k, and TypeError on a non-object |
| `Values.PathFault` | main.py:91 | the exception raised by `d[a][b]` on an object is absent exactly when the path exists |
| `Values.Truthy` | main.py:38 | a JSON value is falsy exactly when it is null, false, 0, `""`, `[]` or `{}` |
| `Values.Describe` | main.py:116 | `str(e)` of a KeyError is its key in single quotes; a failed connect gives its own error text |
| `Protocol.SessionStart` | main.py:76-80 | the session-start message has exactly the keys text, voice_id and start_conversation: the fixed greeting, the configured voice id, and true |
| `Protocol.TelephonyMessageAction` | main.py:103-110 | `media` with payload P gives exactly one AI send `{"user_audio_chunk": P}`. `media` without a payload raises the exception of `data["media"]["payload"]`. `stop` gives exactly CloseAi, and nothing is sent. Any other or missing `event` is a no-op. A non-object raises AttributeError. Nothing is ever sent to the telephony side |
| `Protocol.AiMessageAction` | main.py:84-98 | `ping` with id E gives exactly one AI send `{"type":"pong","event_id":E}`, and nothing goes to the telephony side. `audio` with payload P gives one telephony `{"event":"media","media":{"payload":P}}`. `interruption` gives one telephony `{"event":"clear"}`. A missing nested field raises the matching exception. Any other `type` is a no-op. This direction never closes a connection |
| `Protocol.MediaFrameEchoesBack` | main.py:92-95 | the media frame sent to the telephony side has the shape the telephony loop reads: the same payload would come back as a user audio chunk |
| `Protocol.ScenarioMessages` | main.py:90-108 | worked examples: telephony media "QUJD" becomes the AI chunk "QUJD"; AI audio "WFla" becomes the telephony media frame "WFla"; an AI interruption becomes `{"event":"clear"}` |
| `Relay.ActionOf` | main.py:83-110 | telephony messages never send to the telephony side, and AI messages never close a connection. Every AI-bound message from the telephony direction has exactly the key `user_audio_chunk`. Every AI-bound message from the AI direction has exactly the keys `type` and `event_id`, a pong |
| `Relay.Apply` | main.py:86-110 | a send on the AI connection raises ConnectionClosed exactly when it is closed, and otherwise appends the message. A telephony send appends one JSON frame. A close only sets the closed flag, and closing twice is harmless |
| `Relay.Step` | main.py:83-110 | one message appends at most its one translated output to its connection, and closes the AI connection only on `stop`. It raises exactly when the translation raises, or when it would send on the closed AI connection |
| `Relay.Run` | main.py:83-112 | both loops over a schedule, stopping at the first message that raises. A closed AI connection stays closed, and it is closed only if some telephony message in the schedule was `stop` |
| `Relay.RunAppendOnly` | main.py:83-110 | over any schedule, messages already sent stay sent, and each input yields at most one output. The loops put only JSON frames on the telephony side, and a closed AI connection stays closed |
| `Relay.RunOutputs` | main.py:83-110 | a run that raises nothing sends exactly the translations of the messages, in arrival order |
| `Relay.TelephonyOutputFromAiOnly` | main.py:82-98 | in a run that raises nothing, what reaches the telephony side is exactly the frames of the AI messages, in their order, whatever the interleaving with telephony input |
| `Relay.AiOutputSplitsByDirection` | main.py:83-108 | in a run that raises nothing, the AI connection receives chunks and pongs interleaved. Of what the run sends it, the chunks are exactly those of the telephony messages and the pongs exactly those of the AI messages, each in arrival order, whatever the interleaving |
| `Relay.RunStopsAtFault` | main.py:112-116 | a run that raises stops at one message k: every earlier message was handled, k raised, and nothing after k was looked at |
| `Relay.SendAfterCloseRaises` | main.py:106-110 | once the AI connection is closed, a chunk or pong meant for it raises ConnectionClosed |
| `Relay.StopThenMedia` | main.py:104-110 | `stop` closes the AI connection and sends nothing. Because the loop goes on, a following `media` raises ConnectionClosed |
| `Bridge.AiSocket.constructor` | main.py:70-73 | a freshly opened AI connection is open and has been sent nothing |
| `Bridge.AiSocket.Send` | main.py:106-108 | a send appends the message to an open AI connection, and raises ConnectionClosed on a closed one |
| `Bridge.AiSocket.Close` | main.py:110 | closing marks the AI connection closed and sends nothing |
| `Bridge.TelephonySocket.constructor` | main.py:66 | the accepted telephony connection is open and has been sent nothing |
| `Bridge.TelephonySocket.SendText` | main.py:92-95 | a send appends one frame to the telephony connection |
| `Bridge.TelephonySocket.Close` | main.py:119 | closing marks the telephony connection closed |
| `Bridge.Perform` | main.py:86-110 | carrying out one action changes the two connections exactly as `Apply` says. If it raises, nothing changes |
| `Bridge.Forward` | main.py:82-112 | the loop leaves the connections and the exception exactly as `Run` over the message schedule says |
| `Bridge.ErrorText` | main.py:116 | the text sent for any exception starts with `❌ Error: ` |
| `Bridge.SessionOutcome` | main.py:65-119 | the telephony connection is closed on every path, and the AI connection whenever it was opened. The greeting is the first AI message. Every telephony frame but the last is JSON. The last frame is a text frame exactly when opening the AI connection failed or a message raised. That frame is `❌ Error: ` followed by the failure: the connect error, or the exception of the message that raised, after everything the run sent |
| `Bridge.Session` | main.py:65-119 | the endpoint leaves both connections exactly as `SessionOutcome` says |
| `OutboundCall.PrepareCall` | main.py:34-55 | a non-object body raises. A falsy or missing `to` gets 400 with `{"error": "Missing 'to' number"}`, and only then. Otherwise the request has exactly the keys appid, secret, from, to and pcmo. It carries the account's id, secret and origin number and the given `to` unchanged, plus exactly one `pcmo` action: `stream` to the fixed relay URL with `listen_mode` `callee` |
| `OutboundCall.ScenarioRequests` | main.py:36-55 | worked examples: `{"to": "+15551234567"}` dials that number from the account's number; `{}` gets the 400 reply with the error body |

## Left out

- FastAPI app set-up, CORS, routing, the liveness endpoint and the `uvicorn` start-up: framework plumbing.
- Environment loading and the `int(...)` of the application id. The voice id and the account settings are parameters. An unset variable, which would become `None`, is not modelled.
- Opening the AI connection (URL with the agent id, API-key header). Its failure is a parameter: the error text that `websockets.connect` would raise.
- `requests.post`, `raise_for_status`, `response.json()` and the 200/500 replies built from them: a foreign HTTP call. `PrepareCall` stops at the request body.
- JSON text: `json.loads`/`json.dumps`, malformed input and key order are not modelled. Messages are decoded values, and JSON numbers are integers only.
- Concurrency below whole messages. The two loops are modelled as one schedule of whole messages, ordered by when each message's one send or close takes effect. After one loop raises, `asyncio.gather` lets the other loop run on briefly while the connections are closed. The model stops both loops at once.
- Peer-initiated closes, and failures of sends on the telephony connection. A schedule simply ends when both peers stop sending.
- `Values.Describe`: gives only the exception class name for TypeError, AttributeError and ConnectionClosed, not Python's message text, which depends on the Python and library versions. For KeyError it gives the exact text, the key in quotes.
- `print` logging: output only.

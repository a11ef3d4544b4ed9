/** The two forwarding loops of one call session, as a function of a schedule
    of inbound messages. Each entry is one message read by one of the two
    loops. Handling a message can suspend at its one `await` of a send or a
    close, and the other loop may read and act meanwhile. Each message causes
    at most one send or close, so the schedule orders messages by the moment
    that send or close takes effect. The first message whose handling raises
    ends both loops. */
module Relay {
  import opened Values
  import opened Protocol

  /** A text frame written on the telephony connection: a JSON message, or the
      plain error text of the `except` branch. */
  datatype Frame = JsonFrame(body: Json) | TextFrame(text: string)

  /** One inbound message, tagged with the connection it was read from. */
  datatype Event = FromTelephony(message: Json) | FromAi(message: Json)

  /** What the two connections have been sent so far, and whether the AI
      connection has been closed. */
  datatype Wire = Wire(toAi: seq<Json>, aiClosed: bool, toTelephony: seq<Frame>)

  /** Where a run stopped: the wire, and the exception that ended it, if any. */
  datatype RunResult = RunResult(wire: Wire, fault: Option<Fault>)

  function ActionOf(e: Event): (r: Result<Action>)
    ensures e.FromTelephony? && r.Success? ==> !r.value.SendToTelephony?
    ensures e.FromAi? && r.Success? ==> !r.value.CloseAi?
    ensures e.FromTelephony? && r.Success? && r.value.SendToAi? ==>
              r.value.message.JObj? && r.value.message.fields.Keys == {"user_audio_chunk"}
    ensures e.FromAi? && r.Success? && r.value.SendToAi? ==>
              r.value.message.JObj? && r.value.message.fields.Keys == {"type", "event_id"}
  {
    match e
    case FromTelephony(m) => TelephonyMessageAction(m)
    case FromAi(m) => AiMessageAction(m)
  }

  /** The messages an action puts on each connection. */
  function AiPart(a: Action): seq<Json> {
    if a.SendToAi? then [a.message] else []
  }

  function TelephonyPart(a: Action): seq<Frame> {
    if a.SendToTelephony? then [JsonFrame(a.message)] else []
  }

  /** Performing an action. A send on the closed AI connection raises;
      closing it twice is harmless. */
  function Apply(w: Wire, a: Action): (r: Result<Wire>)
    ensures r.Failure? <==> a.SendToAi? && w.aiClosed
    ensures r.Failure? ==> r.error == ConnectionClosed
    ensures r.Success? ==> r.value.toAi == w.toAi + AiPart(a)
    ensures r.Success? ==> r.value.toTelephony == w.toTelephony + TelephonyPart(a)
    ensures r.Success? ==> r.value.aiClosed == (w.aiClosed || a.CloseAi?)
  {
    match a
    case SendToAi(m) => if w.aiClosed then Failure(ConnectionClosed) else Success(w.(toAi := w.toAi + [m]))
    case SendToTelephony(m) => Success(w.(toTelephony := w.toTelephony + [JsonFrame(m)]))
    case CloseAi => Success(w.(aiClosed := true))
    case Skip => Success(w)
  }

  /** Handling one inbound message. */
  function Step(w: Wire, e: Event): (r: Result<Wire>)
    ensures r.Success? ==> ActionOf(e).Success?
    ensures r.Success? ==> r.value.toAi == w.toAi + AiPart(ActionOf(e).value)
    ensures r.Success? ==> r.value.toTelephony == w.toTelephony + TelephonyPart(ActionOf(e).value)
    ensures r.Success? ==> r.value.aiClosed == (w.aiClosed || ActionOf(e).value.CloseAi?)
    ensures r.Failure? <==> ActionOf(e).Failure? || (ActionOf(e).value.SendToAi? && w.aiClosed)
    ensures ActionOf(e).Success? && r.Failure? ==> r.error == ConnectionClosed
  {
    var a :- ActionOf(e);
    Apply(w, a)
  }

  /** A telephony `stop` message. */
  predicate IsStop(e: Event) {
    e.FromTelephony? && FieldIs(e.message, "event", "stop")
  }

  /** Handling a whole schedule, up to the first message that raises. A closed
      AI connection stays closed, and only a telephony `stop` closes it. */
  function Run(w: Wire, es: seq<Event>): (r: RunResult)
    ensures w.aiClosed ==> r.wire.aiClosed
    ensures r.wire.aiClosed ==> w.aiClosed || exists i :: 0 <= i < |es| && IsStop(es[i])
    decreases |es|
  {
    if es == [] then RunResult(w, None)
    else
      match Step(w, es[0])
      case Failure(f) => RunResult(w, Some(f))
      case Success(w') => Run(w', es[1..])
  }

  /** What a run would send to each connection if no message raised: one entry
      per message at most, in arrival order. */
  function ToAiOf(es: seq<Event>): seq<Json>
    decreases |es|
  {
    if es == [] then []
    else (if ActionOf(es[0]).Success? then AiPart(ActionOf(es[0]).value) else []) + ToAiOf(es[1..])
  }

  function ToTelephonyOf(es: seq<Event>): seq<Frame>
    decreases |es|
  {
    if es == [] then []
    else (if ActionOf(es[0]).Success? then TelephonyPart(ActionOf(es[0]).value) else []) + ToTelephonyOf(es[1..])
  }

  /** The messages read from the AI connection, in order. */
  function AiMessages(es: seq<Event>): seq<Json>
    decreases |es|
  {
    if es == [] then []
    else (if es[0].FromAi? then [es[0].message] else []) + AiMessages(es[1..])
  }

  /** The messages read from the telephony connection, in order. */
  function TelephonyMessages(es: seq<Event>): seq<Json>
    decreases |es|
  {
    if es == [] then []
    else (if es[0].FromTelephony? then [es[0].message] else []) + TelephonyMessages(es[1..])
  }

  /** The user audio chunks that the telephony messages ms produce, in order. */
  function ChunksFor(ms: seq<Json>): seq<Json>
    decreases |ms|
  {
    if ms == [] then []
    else (if TelephonyMessageAction(ms[0]).Success? then AiPart(TelephonyMessageAction(ms[0]).value) else [])
         + ChunksFor(ms[1..])
  }

  /** The pongs that the AI messages ms produce, in order. */
  function PongsFor(ms: seq<Json>): seq<Json>
    decreases |ms|
  {
    if ms == [] then []
    else (if AiMessageAction(ms[0]).Success? then AiPart(AiMessageAction(ms[0]).value) else [])
         + PongsFor(ms[1..])
  }

  /** The messages of ms that carry the key k, in order. */
  function WithKey(ms: seq<Json>, k: string): seq<Json>
    decreases |ms|
  {
    if ms == [] then []
    else (if ms[0].JObj? && k in ms[0].fields then [ms[0]] else []) + WithKey(ms[1..], k)
  }

  /** The telephony frames that the AI-side messages ms produce, one per
      `audio` or `interruption` message, in order. */
  function FramesFor(ms: seq<Json>): seq<Frame>
    decreases |ms|
  {
    if ms == [] then []
    else (if AiMessageAction(ms[0]).Success? then TelephonyPart(AiMessageAction(ms[0]).value) else [])
         + FramesFor(ms[1..])
  }

  /** Every message is sent in arrival order, each input yields at most one
      output, nothing already sent is taken back, and the loops only ever put
      JSON frames on the telephony connection. */
  lemma {:induction false} RunAppendOnly(w: Wire, es: seq<Event>)
    ensures var r := Run(w, es).wire;
            && w.toAi <= r.toAi
            && w.toTelephony <= r.toTelephony
            && (|r.toAi| - |w.toAi|) + (|r.toTelephony| - |w.toTelephony|) <= |es|
            && (forall i :: |w.toTelephony| <= i < |r.toTelephony| ==> r.toTelephony[i].JsonFrame?)
            && (w.aiClosed ==> r.aiClosed)
    decreases |es|
  {
    if es != [] {
      match Step(w, es[0])
      case Failure(_) =>
      case Success(w') =>
        RunAppendOnly(w', es[1..]);
        var r := Run(w', es[1..]).wire;
        assert r == Run(w, es).wire;
        assert w.toAi <= w'.toAi <= r.toAi;
        assert w.toTelephony <= w'.toTelephony <= r.toTelephony;
    }
  }

  /** A run that raised nothing sent exactly what the messages translate to,
      in arrival order. */
  lemma {:induction false} RunOutputs(w: Wire, es: seq<Event>)
    requires Run(w, es).fault.None?
    ensures Run(w, es).wire.toAi == w.toAi + ToAiOf(es)
    ensures Run(w, es).wire.toTelephony == w.toTelephony + ToTelephonyOf(es)
    decreases |es|
  {
    if es != [] {
      var w' := Step(w, es[0]).value;
      RunOutputs(w', es[1..]);
      var a := ActionOf(es[0]).value;
      assert w.toAi + AiPart(a) + ToAiOf(es[1..]) == w.toAi + (AiPart(a) + ToAiOf(es[1..]));
      assert w.toTelephony + TelephonyPart(a) + ToTelephonyOf(es[1..])
          == w.toTelephony + (TelephonyPart(a) + ToTelephonyOf(es[1..]));
    }
  }

  /** In a run that raises nothing, what reaches the telephony side depends
      only on the AI-side messages and their order, not on how they interleave
      with telephony input. (A run that raises does depend on the interleaving:
      it stops at the message that raised.) */
  lemma TelephonyOutputFromAiOnly(w: Wire, es: seq<Event>)
    requires Run(w, es).fault.None?
    ensures Run(w, es).wire.toTelephony == w.toTelephony + FramesFor(AiMessages(es))
  {
    RunOutputs(w, es);
    ToTelephonyOfAiOnly(es);
  }

  lemma {:induction false} ToTelephonyOfAiOnly(es: seq<Event>)
    ensures ToTelephonyOf(es) == FramesFor(AiMessages(es))
    decreases |es|
  {
    if es != [] {
      ToTelephonyOfAiOnly(es[1..]);
      if es[0].FromAi? {
        assert AiMessages(es) == [es[0].message] + AiMessages(es[1..]);
        assert ([es[0].message] + AiMessages(es[1..]))[1..] == AiMessages(es[1..]);
      } else {
        assert AiMessages(es) == AiMessages(es[1..]);
        var a := ActionOf(es[0]);
        assert a.Success? ==> TelephonyPart(a.value) == [];
      }
    }
  }

  /** In a run that raises nothing, the AI connection receives user audio
      chunks and pongs interleaved. Of what the run sends it, the chunks are
      exactly those of the telephony messages and the pongs exactly those of
      the AI messages, each in arrival order, whatever the interleaving. */
  lemma AiOutputSplitsByDirection(w: Wire, es: seq<Event>)
    requires Run(w, es).fault.None?
    ensures var sent := Run(w, es).wire.toAi;
            && w.toAi <= sent
            && WithKey(sent[|w.toAi|..], "user_audio_chunk") == ChunksFor(TelephonyMessages(es))
            && WithKey(sent[|w.toAi|..], "event_id") == PongsFor(AiMessages(es))
  {
    RunOutputs(w, es);
    ToAiOfSplit(es);
    assert (w.toAi + ToAiOf(es))[|w.toAi|..] == ToAiOf(es);
  }

  lemma {:induction false} ToAiOfSplit(es: seq<Event>)
    ensures WithKey(ToAiOf(es), "user_audio_chunk") == ChunksFor(TelephonyMessages(es))
    ensures WithKey(ToAiOf(es), "event_id") == PongsFor(AiMessages(es))
    decreases |es|
  {
    if es != [] {
      ToAiOfSplit(es[1..]);
      var head := if ActionOf(es[0]).Success? then AiPart(ActionOf(es[0]).value) else [];
      assert ToAiOf(es) == head + ToAiOf(es[1..]);
      if head == [] {
        assert head + ToAiOf(es[1..]) == ToAiOf(es[1..]);
      } else {
        assert (head + ToAiOf(es[1..]))[0] == head[0];
        assert (head + ToAiOf(es[1..]))[1..] == ToAiOf(es[1..]);
      }
      if es[0].FromTelephony? {
        assert TelephonyMessages(es) == [es[0].message] + TelephonyMessages(es[1..]);
        assert ([es[0].message] + TelephonyMessages(es[1..]))[1..] == TelephonyMessages(es[1..]);
        assert AiMessages(es) == AiMessages(es[1..]);
      } else {
        assert AiMessages(es) == [es[0].message] + AiMessages(es[1..]);
        assert ([es[0].message] + AiMessages(es[1..]))[1..] == AiMessages(es[1..]);
        assert TelephonyMessages(es) == TelephonyMessages(es[1..]);
      }
    }
  }

  /** A run that raised stopped at some message k: everything before k was
      handled, k itself raised, and nothing after k was looked at. */
  lemma {:induction false} RunStopsAtFault(w: Wire, es: seq<Event>)
    requires Run(w, es).fault.Some?
    ensures exists k :: 0 <= k < |es| && Run(w, es[..k]) == RunResult(Run(w, es).wire, None)
                        && Step(Run(w, es).wire, es[k]) == Failure(Run(w, es).fault.value)
    decreases |es|
  {
    match Step(w, es[0])
    case Failure(f) =>
      assert es[..0] == [];
      assert Run(w, es[..0]) == RunResult(w, None);
    case Success(w') =>
      RunStopsAtFault(w', es[1..]);
      var k :| 0 <= k < |es[1..]| && Run(w', es[1..][..k]) == RunResult(Run(w', es[1..]).wire, None)
               && Step(Run(w', es[1..]).wire, es[1..][k]) == Failure(Run(w', es[1..]).fault.value);
      var p := es[..k + 1];
      assert p != [] && p[0] == es[0] && p[1..] == es[1..][..k];
      assert Run(w, p) == Run(w', es[1..][..k]);
      assert es[k + 1] == es[1..][k];
  }

  /** Once the AI connection is closed (a telephony `stop`), it stays closed,
      and the next media chunk or ping reply meant for it raises. */
  lemma SendAfterCloseRaises(w: Wire, e: Event)
    requires w.aiClosed
    requires ActionOf(e).Success? && ActionOf(e).value.SendToAi?
    ensures Step(w, e) == Failure(ConnectionClosed)
  {
  }

  /** A telephony `stop` closes the AI connection and sends nothing anywhere;
      the loop carries on, so a media message after it raises. */
  lemma StopThenMedia(w: Wire, stop: Json, media: Json)
    requires !w.aiClosed
    requires FieldIs(stop, "event", "stop")
    requires FieldIs(media, "event", "media") && HasPath(media, "media", "payload")
    ensures Step(w, FromTelephony(stop)) == Success(w.(aiClosed := true))
    ensures Run(w, [FromTelephony(stop), FromTelephony(media)]) == RunResult(w.(aiClosed := true), Some(ConnectionClosed))
  {
  }
}

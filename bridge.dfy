/** The `/ws` endpoint: one call session between the telephony provider's
    media stream and the voice-AI conversation, over two connection objects
    that record what was sent on them and whether they were closed. */
module Bridge {
  import opened Values
  import opened Protocol
  import opened Relay

  /** The AI provider connection. Sending on it once it is closed raises. */
  class AiSocket {
    var sent: seq<Json>
    var closed: bool

    constructor ()
      ensures sent == [] && !closed
    {
      sent, closed := [], false;
    }

    method Send(m: Json) returns (fault: Option<Fault>)
      modifies this
      ensures fault == (if old(closed) then Some(ConnectionClosed) else None)
      ensures sent == (if old(closed) then old(sent) else old(sent) + [m])
      ensures closed == old(closed)
    {
      if closed {
        fault := Some(ConnectionClosed);
      } else {
        sent := sent + [m];
        fault := None;
      }
    }

    method Close()
      modifies this
      ensures closed && sent == old(sent)
    {
      closed := true;
    }
  }

  /** The connection the telephony provider opened to the bridge. */
  class TelephonySocket {
    var sent: seq<Frame>
    var closed: bool

    constructor ()
      ensures sent == [] && !closed
    {
      sent, closed := [], false;
    }

    method SendText(f: Frame)
      requires !closed
      modifies this
      ensures sent == old(sent) + [f] && !closed
    {
      sent := sent + [f];
    }

    method Close()
      modifies this
      ensures closed && sent == old(sent)
    {
      closed := true;
    }
  }

  /** The state of the two connections, as a Wire. */
  function WireOf(ai: AiSocket, tel: TelephonySocket): Wire
    reads ai, tel
  {
    Wire(ai.sent, ai.closed, tel.sent)
  }

  /** After handling one message from `before`: success leaves the connections
      as the step says, a raise leaves them untouched and reports the fault. */
  predicate Settled(before: Wire, step: Result<Wire>, after: Wire, fault: Option<Fault>) {
    match step
    case Success(w) => fault.None? && after == w
    case Failure(f) => fault == Some(f) && after == before
  }

  /** Carry out one action on the two connections. */
  method Perform(a: Action, ai: AiSocket, tel: TelephonySocket) returns (fault: Option<Fault>)
    requires !tel.closed
    modifies ai, tel
    ensures !tel.closed
    ensures Settled(old(WireOf(ai, tel)), Apply(old(WireOf(ai, tel)), a), WireOf(ai, tel), fault)
  {
    match a
    case SendToAi(m) =>
      fault := ai.Send(m);
    case SendToTelephony(m) =>
      tel.SendText(JsonFrame(m));
      fault := None;
    case CloseAi =>
      ai.Close();
      fault := None;
    case Skip =>
      fault := None;
  }

  /** Both forwarding loops over a schedule of messages, ordered by when each
      message's one send or close takes effect; the first exception ends both
      loops. */
  method Forward(schedule: seq<Event>, ai: AiSocket, tel: TelephonySocket) returns (fault: Option<Fault>)
    requires !tel.closed
    modifies ai, tel
    ensures !tel.closed
    ensures Run(old(WireOf(ai, tel)), schedule) == RunResult(WireOf(ai, tel), fault)
  {
    var i := 0;
    while i < |schedule|
      invariant 0 <= i <= |schedule|
      invariant !tel.closed
      invariant Run(WireOf(ai, tel), schedule[i..]) == Run(old(WireOf(ai, tel)), schedule)
    {
      assert schedule[i..][0] == schedule[i] && schedule[i..][1..] == schedule[i + 1..];
      ghost var before := WireOf(ai, tel);
      var action := ActionOf(schedule[i]);
      if action.Failure? {
        return Some(action.error);
      }
      fault := Perform(action.value, ai, tel);
      if fault.Some? {
        assert WireOf(ai, tel) == before;
        return fault;
      }
      i := i + 1;
    }
    assert schedule[i..] == [];
    fault := None;
  }

  /** What a session leaves behind on its two connections. */
  datatype Outcome = Outcome(aiOpened: bool, toAi: seq<Json>, aiClosed: bool,
                             toTelephony: seq<Frame>, telephonyClosed: bool)

  const ErrorPrefix: string := "\U{274C} Error: "

  /** The text the `except` branch sends for an exception. */
  function ErrorText(f: Fault): (s: string)
    ensures |s| >= |ErrorPrefix| && s[..|ErrorPrefix|] == ErrorPrefix
  {
    ErrorPrefix + Describe(f)
  }

  /** A session, given whether opening the AI connection failed (and with what
      text) and the order in which messages arrive. The greeting is the first
      message the AI receives; a raise sends one error text to the telephony
      side as its last frame; the telephony connection is closed on every path,
      the AI connection whenever it was opened. */
  function SessionOutcome(voiceId: string, connectError: Option<string>, schedule: seq<Event>): (r: Outcome)
    ensures r.telephonyClosed
    ensures r.aiOpened <==> connectError.None?
    ensures r.aiOpened ==> r.aiClosed && |r.toAi| >= 1 && r.toAi[0] == SessionStart(voiceId)
    ensures !r.aiOpened ==> r.toAi == [] && r.toTelephony == [TextFrame(ErrorText(ConnectFailed(connectError.value)))]
    ensures forall i :: 0 <= i < |r.toTelephony| - 1 ==> r.toTelephony[i].JsonFrame?
    ensures r.toTelephony != [] && r.toTelephony[|r.toTelephony| - 1].TextFrame? <==>
              connectError.Some? || Run(Wire([SessionStart(voiceId)], false, []), schedule).fault.Some?
    ensures connectError.None? ==>
              var run := Run(Wire([SessionStart(voiceId)], false, []), schedule);
              && r.toAi == run.wire.toAi
              && r.toTelephony == run.wire.toTelephony
                                  + (if run.fault.Some? then [TextFrame(ErrorText(run.fault.value))] else [])
  {
    match connectError
    case Some(reason) =>
      Outcome(false, [], false, [TextFrame(ErrorText(ConnectFailed(reason)))], true)
    case None =>
      var start := Wire([SessionStart(voiceId)], false, []);
      var run := Run(start, schedule);
      RunAppendOnly(start, schedule);
      var frames := run.wire.toTelephony;
      Outcome(true, run.wire.toAi, true,
              frames + (if run.fault.Some? then [TextFrame(ErrorText(run.fault.value))] else []), true)
  }

  /** `ws_endpoint`: accept the telephony connection, open the AI connection,
      send the greeting, run both loops, report any exception to the telephony
      side, and close both connections. */
  method Session(voiceId: string, connectError: Option<string>, schedule: seq<Event>)
    returns (tel: TelephonySocket, ai: AiSocket?)
    ensures fresh(tel) && (ai != null ==> fresh(ai))
    ensures var r := SessionOutcome(voiceId, connectError, schedule);
            && (ai != null <==> r.aiOpened)
            && tel.sent == r.toTelephony && tel.closed == r.telephonyClosed
            && (ai != null ==> ai.sent == r.toAi && ai.closed == r.aiClosed)
  {
    tel := new TelephonySocket();
    if connectError.Some? {
      ai := null;
      tel.SendText(TextFrame(ErrorText(ConnectFailed(connectError.value))));
      tel.Close();
      return;
    }
    var link := new AiSocket();
    ai := link;
    var started := link.Send(SessionStart(voiceId));
    ghost var start := WireOf(link, tel);
    assert start == Wire([SessionStart(voiceId)], false, []);
    var fault := Forward(schedule, link, tel);
    assert RunResult(WireOf(link, tel), fault) == Run(start, schedule);
    link.Close();
    if fault.Some? {
      tel.SendText(TextFrame(ErrorText(fault.value)));
    }
    tel.Close();
  }
}

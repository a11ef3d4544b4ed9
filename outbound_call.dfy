/** The `/make-outbound-call` endpoint up to the point where it posts the call
    request to the telephony provider: checking the `to` field and building the
    request body. */
module OutboundCall {
  import opened Values

  /** The telephony account settings read from the environment. */
  datatype Account = Account(appId: int, secret: string, fromNumber: string)

  /** The media-relay address the provider is told to stream the call to. */
  const StreamUrl: string := "wss://your-deployed-url.onrender.com/ws"

  const MissingTo: string := "Missing 'to' number"

  /** Either the 400 reply, or the body of the call request to post. */
  datatype Prepared = Rejected(status: int, body: Json) | Dial(request: Json)

  /** The single `pcmo` action: stream the call audio to the relay, callee side. */
  function StreamAction(): Json {
    JObj(map["action" := JStr("stream"), "ws_url" := JStr(StreamUrl), "listen_mode" := JStr("callee")])
  }

  /** `body.get("to")`, then `if not to: 400`, else the request payload.
      A request body that is not a JSON object raises before any reply. */
  function PrepareCall(acct: Account, body: Json): (r: Result<Prepared>)
    ensures r.Failure? <==> !body.JObj?
    ensures r.Failure? ==> r.error == AttributeError
    ensures r.Success? ==> (r.value.Rejected? <==> "to" !in body.fields || !Truthy(body.fields["to"]))
    ensures r.Success? && r.value.Rejected? ==>
              r.value.status == 400 && r.value.body == JObj(map["error" := JStr("Missing 'to' number")])
    ensures r.Success? && r.value.Dial? ==>
              var req := r.value.request;
              && req.JObj?
              && req.fields.Keys == {"appid", "secret", "from", "to", "pcmo"}
              && req.fields["appid"] == JNum(acct.appId)
              && req.fields["secret"] == JStr(acct.secret)
              && req.fields["from"] == JStr(acct.fromNumber)
              && req.fields["to"] == body.fields["to"]
              && req.fields["pcmo"].JArr? && |req.fields["pcmo"].items| == 1
              && req.fields["pcmo"].items[0] == StreamAction()
  {
    var to :- Lookup(body, "to");
    if to.None? || !Truthy(to.value) then
      Success(Rejected(400, JObj(map["error" := JStr(MissingTo)])))
    else
      Success(Dial(JObj(map[
        "appid" := JNum(acct.appId),
        "secret" := JStr(acct.secret),
        "from" := JStr(acct.fromNumber),
        "to" := to.value,
        "pcmo" := JArr([StreamAction()])])))
  }

  /** Worked examples: `{"to": "+15551234567"}` dials that number from the
      account's number; `{}` is turned away with 400 and the error body. */
  lemma ScenarioRequests(acct: Account)
    ensures var r := PrepareCall(acct, JObj(map["to" := JStr("+15551234567")]));
            && r.Success? && r.value.Dial?
            && r.value.request.fields["to"] == JStr("+15551234567")
            && r.value.request.fields["from"] == JStr(acct.fromNumber)
    ensures PrepareCall(acct, JObj(map[])) == Success(Rejected(400, JObj(map["error" := JStr("Missing 'to' number")])))
  {
  }
}

/** The notification primitive (`sendPushNotification`) and the HTTP trigger's handler. */
module Dispatch {
  import opened Wrappers
  import opened Js

  /** The `data` payload of a multicast message. */
  datatype MessageData = MessageData(title: Value, body: Value, icon: Value)

  /** `{ data: { title, body, icon }, tokens }`: exactly what is handed to the push gateway. */
  datatype Message = Message(data: MessageData, tokens: Value)

  /** One entry of the gateway's per-token report; the functions file never inspects it. */
  datatype SendResponse = SendResponse(success: bool, messageId: Option<string>)

  /** The gateway's report for one multicast send. */
  datatype BatchResponse = BatchResponse(responses: seq<SendResponse>)

  /** The push gateway (`sendEachForMulticast`): for a message, either a report or the
      `message` of the error it throws. */
  type Gateway = Message -> Result<BatchResponse>

  /** `{ success: true, response }` or `{ success: false, error }`. */
  datatype NotificationResult = Success(response: BatchResponse) | Failure(error: string)

  /** The message built from the four parameters `title, body, icon, tokens`. */
  function BuildMessage(title: Value, body: Value, icon: Value, tokens: Value): (m: Message)
  {
    Message(MessageData(title, body, icon), tokens)
  }

  /** Sends one multicast message and normalises the outcome: the gateway's report on
      success, the thrown error's message on failure. Nothing is thrown to the caller. */
  function SendPushNotification(title: Value, body: Value, icon: Value, tokens: Value, gateway: Gateway)
    : (r: NotificationResult)
    ensures var m := BuildMessage(title, body, icon, tokens);
      && m.data == MessageData(title, body, icon) && m.tokens == tokens
      && (r.Success? <==> gateway(m).Ok?)
      && (gateway(m).Ok? ==> r == Success(gateway(m).value))
      && (gateway(m).Err? ==> r == Failure(gateway(m).message))
  {
    match gateway(BuildMessage(title, body, icon, tokens))
    case Ok(report) => Success(report)
    case Err(message) => Failure(message)
  }

  /** `response.success ? 200 : 500` */
  function StatusFor(r: NotificationResult): (status: int)
    ensures status == 200 <==> r.Success?
    ensures status == 500 <==> r.Failure?
  {
    if r.Success? then 200 else 500
  }

  /** The fields destructured from the request body; a missing field is `Undefined`. */
  datatype RequestBody = RequestBody(tokens: Value, title: Value, body: Value, icon: Value)

  /** The status code and the JSON body of the handler's reply. */
  datatype HttpResponse = HttpResponse(status: int, json: NotificationResult)

  /** The HTTP trigger once the middleware has let the request through: the request's four
      fields go to the gateway in their own places, with no validation, and the reply is
      200 with the report or 500 with the gateway's error message. */
  function HandleRequest(req: RequestBody, gateway: Gateway): (resp: HttpResponse)
    ensures var m := BuildMessage(req.title, req.body, req.icon, req.tokens);
      && m.tokens == req.tokens && m.data.icon == req.icon
      && (resp.status == 200 <==> gateway(m).Ok?)
      && (resp.status == 500 <==> gateway(m).Err?)
      && (gateway(m).Ok? ==> resp.json == Success(gateway(m).value))
      && (gateway(m).Err? ==> resp.json == Failure(gateway(m).message))
  {
    var response := SendPushNotification(req.title, req.body, req.icon, req.tokens, gateway);
    HttpResponse(StatusFor(response), response)
  }

  /** The reply's status is 200 exactly when its body reports success, whatever the gateway does. */
  lemma StatusAgreesWithBody(req: RequestBody, gateway: Gateway)
    ensures var resp := HandleRequest(req, gateway);
      (resp.status == 200 <==> resp.json.Success?) && (resp.status == 500 <==> resp.json.Failure?)
  {
  }
}

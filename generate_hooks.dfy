/** The `generate-hooks` edge function: checks the request's topic, forwards
    it to the hook-generator webhook and turns the webhook's reply into four
    hooks or an error response. */
module GenerateHooks {
  import opened Common

  /** A JSON value. Numbers are integers here (see README). */
  datatype Json =
    | JNull
    | JBool(b: bool)
    | JNum(n: int)
    | JStr(s: string)
    | JArr(items: seq<Json>)
    | JObj(fields: map<string, Json>)

  /** JavaScript truthiness of a value; `None` is `undefined`. */
  predicate Truthy(v: Option<Json>)
  {
    match v
    case None => false
    case Some(JNull) => false
    case Some(JBool(b)) => b
    case Some(JNum(n)) => n != 0
    case Some(JStr(s)) => s != ""
    case Some(JArr(_)) => true
    case Some(JObj(_)) => true
  }

  /** Property access `v.key` on a JSON value that is not null: only objects
      have own keys, everything else yields `undefined`. */
  function Get(v: Json, key: string): Option<Json>
  {
    if v.JObj? && key in v.fields then Some(v.fields[key]) else None
  }

  /** A thrown value: an `Error` carries a message, anything else does not. */
  datatype Thrown = ErrorValue(message: string) | OtherValue

  /** The result of reading a body as JSON. */
  datatype BodyRead = Parsed(value: Json) | Threw(thrown: Thrown)

  datatype Request = Request(verb: string, body: BodyRead)

  /** What the webhook `fetch` produced: a thrown value (network failure,
      the 30-second abort), or a response with its status, its text and its
      body read as JSON. Only one of the two readings is ever used. */
  datatype WebhookReply =
    | FetchThrew(thrown: Thrown)
    | Replied(status: nat, text: string, json: BodyRead)

  datatype WebhookCall = WebhookCall(url: string, verb: string, body: Json, timeoutMs: nat)

  datatype Headers = CorsOnly | CorsAndJson

  datatype Response = Response(status: nat, body: Option<Json>, headers: Headers)

  const WebhookUrl: string := "https://kuts.air2.top/webhook/hook-generator"
  const WebhookTimeoutMs: nat := 30000
  const FallbackMessage: string := "Failed to generate hooks"
  const HookKeys: seq<string> := ["hook1", "hook2", "hook3", "hook4"]

  /** The message V8 gives the `TypeError` when the request body is JSON `null`. */
  const NullBodyMessage: string := "Cannot destructure property 'topic' of '(intermediate value)' as it is null."

  function ErrorBody(message: string): Json
  {
    JObj(map["error" := JStr(message)])
  }

  /** `error instanceof Error ? error.message : 'Failed to generate hooks'`. */
  function MessageOf(t: Thrown): string
  {
    if t.ErrorValue? then t.message else FallbackMessage
  }

  /** The 500 response of the `catch` block. */
  function Failure(t: Thrown): Response
  {
    Response(500, Some(ErrorBody(MessageOf(t))), CorsAndJson)
  }

  /** `webhookResponse.ok`. */
  predicate IsOk(status: nat)
  {
    200 <= status <= 299
  }

  function StatusMessage(status: nat, text: string): string
  {
    "Webhook responded with status: " + NatToString(status) + ", body: " + text
  }

  /** `[output.hook1, …, output.hook4]`. */
  function HooksOf(output: Json): (hooks: seq<Option<Json>>)
    ensures |hooks| == 4
    ensures forall i :: 0 <= i < 4 ==> hooks[i] == Get(output, HookKeys[i])
  {
    [Get(output, "hook1"), Get(output, "hook2"), Get(output, "hook3"), Get(output, "hook4")]
  }

  predicate AllPresent(hooks: seq<Option<Json>>)
  {
    forall i :: 0 <= i < |hooks| ==> Truthy(hooks[i])
  }

  /** The values of present hooks. */
  function Values(hooks: seq<Option<Json>>): (vs: seq<Json>)
    requires AllPresent(hooks)
    ensures |vs| == |hooks|
    ensures forall i :: 0 <= i < |hooks| ==> hooks[i] == Some(vs[i])
  {
    seq(|hooks|, i requires 0 <= i < |hooks| => hooks[i].value)
  }

  /** Everything after the webhook replied. */
  function AfterWebhook(reply: WebhookReply): Response
  {
    match reply
    case FetchThrew(t) => Failure(t)
    case Replied(status, text, json) =>
      if !IsOk(status) then Failure(ErrorValue(StatusMessage(status, text)))
      else match json
        case Threw(t) => Failure(t)
        case Parsed(data) =>
          var output := if data.JNull? then None else Get(data, "output");
          if !Truthy(output) then Failure(ErrorValue("Invalid response format from webhook"))
          else
            var hooks := HooksOf(output.value);
            if !AllPresent(hooks) then Failure(ErrorValue("Some hooks are missing in the response"))
            else Response(200, Some(JObj(map["hooks" := JArr(Values(hooks))])), CorsAndJson)
  }

  /** The handler. It returns the response and the webhook call it made, if
      any; `reply` is what that call produces and is not consulted when no
      call is made. */
  function Handle(req: Request, reply: WebhookReply): (out: (Response, Option<WebhookCall>))
    ensures req.verb == "OPTIONS" ==> out == (Response(200, None, CorsOnly), None)
    ensures out.1.Some? ==>
              req.verb != "OPTIONS" && req.body.Parsed? && !req.body.value.JNull?
              && Truthy(Get(req.body.value, "topic"))
              && out.1.value == WebhookCall(WebhookUrl, "POST", JObj(map["topic" := Get(req.body.value, "topic").value]), WebhookTimeoutMs)
    ensures out.0.status in {200, 400, 500}
    ensures out.0.status == 400 <==>
              req.verb != "OPTIONS" && req.body.Parsed? && !req.body.value.JNull? && !Truthy(Get(req.body.value, "topic"))
  {
    if req.verb == "OPTIONS" then (Response(200, None, CorsOnly), None)
    else match req.body
      case Threw(t) => (Failure(t), None)
      case Parsed(body) =>
        if body.JNull? then (Failure(ErrorValue(NullBodyMessage)), None)
        else
          var topic := Get(body, "topic");
          if !Truthy(topic) then (Response(400, Some(ErrorBody("Topic is required")), CorsAndJson), None)
          else
            var call := WebhookCall(WebhookUrl, "POST", JObj(map["topic" := topic.value]), WebhookTimeoutMs);
            (AfterWebhook(reply), Some(call))
  }

  /** A request with a falsy topic gets 400 "Topic is required" and no webhook
      call. */
  lemma TopicRequired(body: Json, reply: WebhookReply, verb: string)
    requires verb != "OPTIONS" && !body.JNull? && !Truthy(Get(body, "topic"))
    ensures Handle(Request(verb, Parsed(body)), reply) ==
              (Response(400, Some(ErrorBody("Topic is required")), CorsAndJson), None)
  {
  }

  /** A request with a truthy topic always calls the webhook, with the topic
      alone as its body. */
  lemma TopicForwarded(body: Json, reply: WebhookReply, verb: string)
    requires verb != "OPTIONS" && !body.JNull? && Truthy(Get(body, "topic"))
    ensures Handle(Request(verb, Parsed(body)), reply).1 ==
              Some(WebhookCall(WebhookUrl, "POST", JObj(map["topic" := Get(body, "topic").value]), WebhookTimeoutMs))
    ensures Handle(Request(verb, Parsed(body)), reply).0 == AfterWebhook(reply)
  {
  }

  /** A status outside 200-299 gives 500 with a message naming the status and
      the webhook's text. */
  lemma NonOkStatusReported(status: nat, text: string, json: BodyRead)
    requires !IsOk(status)
    ensures AfterWebhook(Replied(status, text, json)) == Failure(ErrorValue(StatusMessage(status, text)))
    ensures Contains(StatusMessage(status, text), NatToString(status))
    ensures DecimalValue(NatToString(status)) == status
  {
    NatToStringRoundTrip(status);
    ContainsInfix("Webhook responded with status: ", NatToString(status), ", body: " + text);
    assert StatusMessage(status, text) == "Webhook responded with status: " + NatToString(status) + (", body: " + text);
  }

  /** A reply without a truthy `output` is rejected. */
  lemma MissingOutputRejected(status: nat, text: string, data: Json)
    requires IsOk(status)
    requires data.JNull? || !Truthy(Get(data, "output"))
    ensures AfterWebhook(Replied(status, text, Parsed(data))) ==
              Response(500, Some(ErrorBody("Invalid response format from webhook")), CorsAndJson)
  {
  }

  /** An `output` with any of the four hooks missing or falsy is rejected. */
  lemma MissingHookRejected(status: nat, text: string, data: Json, k: int)
    requires IsOk(status) && !data.JNull? && Truthy(Get(data, "output"))
    requires 0 <= k < 4 && !Truthy(Get(Get(data, "output").value, HookKeys[k]))
    ensures AfterWebhook(Replied(status, text, Parsed(data))) ==
              Response(500, Some(ErrorBody("Some hooks are missing in the response")), CorsAndJson)
  {
    assert !AllPresent(HooksOf(Get(data, "output").value));
  }

  /** A 200 from the handler carries exactly the four hooks, in key order,
      and happens exactly when the webhook's reply had all four. */
  lemma SuccessCarriesFourHooks(req: Request, reply: WebhookReply)
    requires req.verb != "OPTIONS"
    ensures Handle(req, reply).0.status == 200 <==>
              Handle(req, reply).1.Some? && reply.Replied? && IsOk(reply.status) && reply.json.Parsed?
              && !reply.json.value.JNull? && Truthy(Get(reply.json.value, "output"))
              && AllPresent(HooksOf(Get(reply.json.value, "output").value))
    ensures Handle(req, reply).0.status == 200 ==>
              var output := Get(reply.json.value, "output").value;
              exists hooks: seq<Json> ::
                |hooks| == 4
                && (forall i :: 0 <= i < 4 ==> Get(output, HookKeys[i]) == Some(hooks[i]) && Truthy(Some(hooks[i])))
                && Handle(req, reply).0 == Response(200, Some(JObj(map["hooks" := JArr(hooks)])), CorsAndJson)
  {
    if Handle(req, reply).0.status == 200 {
      var output := Get(reply.json.value, "output").value;
      var hooks := Values(HooksOf(output));
      assert forall i :: 0 <= i < 4 ==> Get(output, HookKeys[i]) == Some(hooks[i]) && Truthy(Some(hooks[i]));
    }
  }

  /** The `catch` block: any thrown `Error` surfaces its message, anything
      else the fixed fallback. */
  lemma CatchReportsMessage(t: Thrown)
    ensures Failure(t).status == 500
    ensures t.ErrorValue? ==> Failure(t).body == Some(ErrorBody(t.message))
    ensures t.OtherValue? ==> Failure(t).body == Some(ErrorBody("Failed to generate hooks"))
  {
  }
}

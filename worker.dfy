/**
 * The Worker's `fetch` handler: a GET is answered with the status document or 404, a
 * method other than GET and POST with 405, and a POST body is parsed, normalised into
 * a batch of webhook events and processed in order. Each `chat.postMessage` request the
 * batch issues is recorded, with the reply it got, in an outbound log; the i-th reply is
 * given by `reply(i)`.
 */
module Worker {
  import opened JsValues
  import opened SlackMessage
  import opened Delivery

  const MessageReceived := "message.received"

  /** An incoming request; `body` is the outcome of `request.json()` (only read for a POST). */
  datatype Request = Request(verb: string, path: string, body: Payload)
  datatype Payload = Parsed(json: Json) | Malformed

  datatype StatusDoc = StatusDoc(
    service: string,
    status: string,
    slackNotifications: string,
    channel: Option<string>,  // an unset channel is left out of the JSON
    statusEndpoint: string,
    webhookEndpoint: string)

  datatype ResponseBody = PlainText(text: string) | StatusJson(doc: StatusDoc)
  datatype Response = Response(status: int, body: ResponseBody)

  const NotFound := Response(404, PlainText("Not found"))
  const MethodNotAllowed := Response(405, PlainText("Method not allowed"))
  const Accepted := Response(200, PlainText("OK"))
  const InternalError := Response(500, PlainText("Internal Server Error"))

  /** The chat API's answer: its `ok` field, or a failure of the fetch or of reading the reply. */
  datatype SlackReply = Answered(ok: bool) | Failed

  /** One outbound call: the request made and the reply it got. */
  datatype Attempt = Attempt(post: SlackPost, reply: SlackReply)

  datatype Exchange = Exchange(response: Response, log: seq<Attempt>)

  function Posts(log: seq<Attempt>): (r: seq<SlackPost>)
    ensures |r| == |log| && forall i :: 0 <= i < |log| ==> r[i] == log[i].post
  {
    seq(|log|, i requires 0 <= i < |log| => log[i].post)
  }

  // ---------------------------------------------------------------- routing

  datatype Route = ServeGet | RejectMethod | ProcessWebhook

  /** Routing looks at the method (`verb`) only: GET, then anything but POST, then POST on any path. */
  function Dispatch(verb: string): (r: Route)
    ensures r == ProcessWebhook <==> verb == "POST"
    ensures r == ServeGet <==> verb == "GET"
    ensures r == RejectMethod <==> verb != "GET" && verb != "POST"
  {
    if verb == "GET" then ServeGet
    else if verb != "POST" then RejectMethod
    else ProcessWebhook
  }

  /** `handleGetRequest`: the status document on `/status` and `/`, 404 elsewhere. */
  function HandleGetRequest(path: string, env: Env): (r: Response)
    ensures r.status == 200 <==> path == "/status" || path == "/"
    ensures r.status != 200 ==> r == NotFound
    ensures r.status == 200 ==> (r.body.StatusJson? &&
      (r.body.doc.slackNotifications == "enabled" <==> Enabled(env)) &&
      (r.body.doc.slackNotifications == "disabled" <==> !Enabled(env)) &&
      r.body.doc.channel == env.channel && r.body.doc.status == "running")
  {
    if path == "/status" || path == "/" then
      Response(200, StatusJson(StatusDoc(
        "A069 Webhook Handler",
        "running",
        if Enabled(env) then "enabled" else "disabled",
        env.channel,
        "/status",
        "/ (POST)")))
    else NotFound
  }

  // ---------------------------------------------------------------- the batch

  /** An array payload is the batch itself; any other value is a batch of one. */
  function Normalise(payload: Json): (events: seq<Json>)
    ensures payload.JArray? ==> events == payload.items
    ensures !payload.JArray? ==> events == [payload]
    ensures |events| == 0 ==> payload == JArray([])
  {
    if payload.JArray? then payload.items else [payload]
  }

  /** `webhook.body?.event`: a TypeError when the event itself is null. */
  function EventType(webhook: Json): (r: Result<JsVal>)
    ensures r.Threw? <==> webhook == JNull
    ensures r.Ok? && r.value.Defined? ==>
      webhook.JObject? && "body" in webhook.fields && webhook.fields["body"].JObject? &&
      "event" in webhook.fields["body"].fields && r.value.v == webhook.fields["body"].fields["event"]
  {
    match Member(Defined(webhook), "body")
    case Threw(e) => Threw(e)
    case Ok(body) => Ok(OptionalMember(body, "event"))
  }

  predicate IsMessageReceived(webhook: Json) {
    EventType(webhook) == Ok(Defined(JString(MessageReceived)))
  }

  /** `webhook.body` of a recognised event, which is an object. */
  function Body(webhook: Json): (b: JsVal)
    requires IsMessageReceived(webhook)
    ensures !Nullish(b) && b.v.JObject?
  {
    Member(Defined(webhook), "body").value
  }

  /** What one iteration of the loop did: threw, sent nothing, or sent one request. */
  type StepOutcome = Result<Option<SlackPost>>

  /**
   * The event type is interpolated into a log line for every event, before the filter:
   * this throws when it cannot be converted to text.
   */
  predicate TypeLogThrows(webhook: Json) {
    EventType(webhook).Ok? && Text(EventType(webhook).value).Threw?
  }

  /** One iteration of the loop: a TypeError, nothing to send, or one request to send. */
  function Step(webhook: Json, env: Env): (r: StepOutcome)
    ensures r.Threw? <==> (webhook == JNull || TypeLogThrows(webhook) ||
      (IsMessageReceived(webhook) && Enabled(env) && DataThrows(OptionalMember(Body(webhook), "data"))))
    ensures (r.Ok? && r.value.Some?) <==>
      IsMessageReceived(webhook) && Enabled(env) && TokenSet(env) && !DataThrows(OptionalMember(Body(webhook), "data"))
  {
    match EventType(webhook)
    case Threw(e) => Threw(e)
    case Ok(t) =>
      if Text(t).Threw? then Threw(TypeError)
      else if t == Defined(JString(MessageReceived)) then HandleMessageReceived(Body(webhook), env)
      else Ok(None)
  }

  /** The outcome of each event of the batch, in order. */
  function Steps(events: seq<Json>, env: Env): (r: seq<StepOutcome>)
    ensures |r| == |events| && forall i :: 0 <= i < |events| ==> r[i] == Step(events[i], env)
    decreases |events|
  {
    if events == [] then [] else [Step(events[0], env)] + Steps(events[1..], env)
  }

  /** The outcome of a batch: whether the loop ran to its end, and the log so far. */
  datatype BatchResult = BatchResult(completed: bool, log: seq<Attempt>)

  /**
   * The loop's control flow over the outcomes of the events, with `log` the calls already
   * made: each request is sent in turn and gets the next reply; the first throw ends the
   * batch, and what was sent stays sent.
   */
  function Run(steps: seq<StepOutcome>, reply: nat -> SlackReply, log: seq<Attempt>): (r: BatchResult)
    ensures log <= r.log && |r.log| <= |log| + |steps|
    decreases |steps|
  {
    if steps == [] then BatchResult(true, log)
    else match steps[0]
      case Threw(_) => BatchResult(false, log)
      case Ok(None) => Run(steps[1..], reply, log)
      case Ok(Some(post)) => Run(steps[1..], reply, log + [Attempt(post, reply(|log|))])
  }

  /** The whole handler, as a function of the request, the environment and the chat API's replies. */
  function Handle(req: Request, env: Env, reply: nat -> SlackReply): (x: Exchange)
    ensures x.response in {Accepted, InternalError, NotFound, MethodNotAllowed} ||
      (req.verb == "GET" && x.response.status == 200 && x.response.body.StatusJson?)
    ensures x.log != [] ==> req.verb == "POST" && req.body.Parsed?
  {
    match Dispatch(req.verb)
    case ServeGet => Exchange(HandleGetRequest(req.path, env), [])
    case RejectMethod => Exchange(MethodNotAllowed, [])
    case ProcessWebhook =>
      match req.body
      case Malformed => Exchange(InternalError, [])
      case Parsed(payload) =>
        var r := Run(Steps(Normalise(payload), env), reply, []);
        Exchange(if r.completed then Accepted else InternalError, r.log)
  }

  /** The `fetch` handler. */
  method Fetch(req: Request, env: Env, reply: nat -> SlackReply) returns (response: Response, log: seq<Attempt>)
    ensures Exchange(response, log) == Handle(req, env, reply)
  {
    log := [];
    var route := Dispatch(req.verb);
    if route == ServeGet {
      response := HandleGetRequest(req.path, env);
      return;
    }
    if route == RejectMethod {
      response := MethodNotAllowed;
      return;
    }
    if req.body.Malformed? {
      response := InternalError;
      return;
    }
    var webhooks := Normalise(req.body.json);
    ghost var steps := Steps(webhooks, env);
    var i := 0;
    while i < |webhooks|
      invariant 0 <= i <= |webhooks|
      invariant Run(steps, reply, []) == Run(steps[i..], reply, log)
    {
      var webhook := webhooks[i];
      assert steps[i..][0] == Step(webhook, env) && steps[i..][1..] == steps[i + 1..];
      var outcome := Step(webhook, env);
      if outcome.Threw? {
        response := InternalError;
        return;
      }
      if outcome.value.Some? {
        log := log + [Attempt(outcome.value.value, reply(|log|))];
      }
      i := i + 1;
    }
    response := Accepted;
  }
}

/**
 * What the handler promises about a request as a whole: which status it answers with,
 * how many chat messages it sends, in which order and with what content, and that the
 * chat API's replies never change the answer.
 */
module WorkerProperties {
  import opened JsValues
  import opened SlackMessage
  import opened Delivery
  import opened Worker

  predicate Sends(s: StepOutcome) {
    s.Ok? && s.value.Some?
  }

  /** The requests a sequence of outcomes sends, in order. */
  function Sent(steps: seq<StepOutcome>): (posts: seq<SlackPost>)
    ensures |posts| <= |steps|
    decreases |steps|
  {
    if steps == [] then []
    else (if Sends(steps[0]) then [steps[0].value.value] else []) + Sent(steps[1..])
  }

  // ---------------------------------------------------------------- the loop

  /** A loop whose events send nothing makes no call. */
  lemma {:induction false} RunGated(steps: seq<StepOutcome>, reply: nat -> SlackReply, log: seq<Attempt>)
    requires forall i :: 0 <= i < |steps| ==> !Sends(steps[i])
    ensures Run(steps, reply, log).log == log
    decreases |steps|
  {
    if steps != [] {
      RunGated(steps[1..], reply, log);
    }
  }

  /** The loop runs to the end of the batch exactly when no event throws. */
  lemma {:induction false} RunCompletesIff(steps: seq<StepOutcome>, reply: nat -> SlackReply, log: seq<Attempt>)
    ensures Run(steps, reply, log).completed <==> forall i :: 0 <= i < |steps| ==> !steps[i].Threw?
    decreases |steps|
  {
    if steps != [] && !steps[0].Threw? {
      var log' := if Sends(steps[0]) then log + [Attempt(steps[0].value.value, reply(|log|))] else log;
      RunCompletesIff(steps[1..], reply, log');
    }
  }

  /**
   * A batch that throws stops at its first throwing event `k`: the calls made are exactly
   * those the events before `k` made, and none is taken back.
   */
  lemma {:induction false} FirstFailure(steps: seq<StepOutcome>, reply: nat -> SlackReply, log: seq<Attempt>)
    returns (k: nat)
    requires !Run(steps, reply, log).completed
    ensures k < |steps| && steps[k].Threw?
    ensures forall i :: 0 <= i < k ==> !steps[i].Threw?
    ensures Run(steps[..k], reply, log).completed
    ensures Run(steps, reply, log).log == Run(steps[..k], reply, log).log
    decreases |steps|
  {
    if steps[0].Threw? {
      k := 0;
    } else {
      var log' := if Sends(steps[0]) then log + [Attempt(steps[0].value.value, reply(|log|))] else log;
      var k' := FirstFailure(steps[1..], reply, log');
      k := k' + 1;
      assert steps[..k][1..] == steps[1..][..k'];
    }
  }

  /** A completed loop appended exactly the requests its events send, in order. */
  lemma {:induction false} RunSends(steps: seq<StepOutcome>, reply: nat -> SlackReply, log: seq<Attempt>)
    requires Run(steps, reply, log).completed
    ensures Posts(Run(steps, reply, log).log) == Posts(log) + Sent(steps)
    decreases |steps|
  {
    if steps != [] {
      var rest := steps[1..];
      if Sends(steps[0]) {
        var post := steps[0].value.value;
        var log' := log + [Attempt(post, reply(|log|))];
        RunSends(rest, reply, log');
        assert Posts(log') == Posts(log) + [post];
        assert Sent(steps) == [post] + Sent(rest);
      } else {
        RunSends(rest, reply, log);
      }
    }
  }

  /** The call at each position of the log got the reply for that position. */
  lemma {:induction false} RunReplies(steps: seq<StepOutcome>, reply: nat -> SlackReply, log: seq<Attempt>)
    ensures var r := Run(steps, reply, log);
      forall i :: |log| <= i < |r.log| ==> r.log[i].reply == reply(i)
    decreases |steps|
  {
    if steps != [] && Sends(steps[0]) {
      var log' := log + [Attempt(steps[0].value.value, reply(|log|))];
      RunReplies(steps[1..], reply, log');
      assert Run(steps, reply, log).log[|log|] == log'[|log|];
    } else if steps != [] && !steps[0].Threw? {
      RunReplies(steps[1..], reply, log);
    }
  }

  /** The replies to earlier calls change neither which calls are made nor how the loop ends. */
  lemma {:induction false} RunIgnoresReplies(steps: seq<StepOutcome>, reply1: nat -> SlackReply, reply2: nat -> SlackReply,
                                             log1: seq<Attempt>, log2: seq<Attempt>)
    requires Posts(log1) == Posts(log2)
    ensures Run(steps, reply1, log1).completed == Run(steps, reply2, log2).completed
    ensures Posts(Run(steps, reply1, log1).log) == Posts(Run(steps, reply2, log2).log)
    decreases |steps|
  {
    if steps != [] && !steps[0].Threw? {
      if Sends(steps[0]) {
        var post := steps[0].value.value;
        var log1', log2' := log1 + [Attempt(post, reply1(|log1|))], log2 + [Attempt(post, reply2(|log2|))];
        assert Posts(log1') == Posts(log1) + [post];
        assert Posts(log2') == Posts(log2) + [post];
        RunIgnoresReplies(steps[1..], reply1, reply2, log1', log2');
      } else {
        RunIgnoresReplies(steps[1..], reply1, reply2, log1, log2);
      }
    }
  }

  // ---------------------------------------------------------------- the events

  /** The bodies of the events the loop hands to `handleMessageReceived`, in batch order. */
  function Recognised(events: seq<Json>): (bodies: seq<JsVal>)
    ensures |bodies| <= |events|
    ensures forall j :: 0 <= j < |bodies| ==> !Nullish(bodies[j])
  {
    if events == [] then []
    else (if IsMessageReceived(events[0]) then [Body(events[0])] else []) + Recognised(events[1..])
  }

  /** What `handleMessageReceived` yields for each body, in order. */
  function Outcomes(bodies: seq<JsVal>, env: Env): (r: seq<StepOutcome>)
    requires forall j :: 0 <= j < |bodies| ==> !Nullish(bodies[j])
    ensures |r| == |bodies|
    ensures forall j :: 0 <= j < |bodies| ==> r[j] == HandleMessageReceived(bodies[j], env)
    decreases |bodies|
  {
    if bodies == [] then []
    else [HandleMessageReceived(bodies[0], env)] + Outcomes(bodies[1..], env)
  }

  /** Each request as the outcome of a handler call that sent it. */
  function Delivered(posts: seq<SlackPost>): (r: seq<StepOutcome>)
    ensures |r| == |posts|
    ensures forall j :: 0 <= j < |posts| ==> r[j] == Ok(Some(posts[j]))
    decreases |posts|
  {
    if posts == [] then [] else [Ok(Some(posts[0]))] + Delivered(posts[1..])
  }

  /**
   * With forwarding on and a token set, a batch in which no event throws sends one request
   * per recognised event, in batch order, the one `handleMessageReceived` builds from it.
   */
  lemma {:induction false} SentRecognised(events: seq<Json>, env: Env)
    requires Enabled(env) && TokenSet(env)
    requires forall i :: 0 <= i < |events| ==> !Steps(events, env)[i].Threw?
    ensures Delivered(Sent(Steps(events, env))) == Outcomes(Recognised(events), env)
    decreases |events|
  {
    if events != [] {
      var e, rest := events[0], events[1..];
      var steps, later := Steps(events, env), Steps(rest, env);
      assert steps == [Step(e, env)] + later;
      assert steps[1..] == later;
      assert forall i :: 0 <= i < |rest| ==> later[i] == steps[i + 1];
      SentRecognised(rest, env);
      assert !steps[0].Threw?;
      if Sends(Step(e, env)) {
        var post := Step(e, env).value.value;
        assert IsMessageReceived(e);
        var bodies := Recognised(rest);
        assert Recognised(events) == [Body(e)] + bodies;
        assert ([Body(e)] + bodies)[1..] == bodies;
        assert Outcomes(Recognised(events), env) == [Ok(Some(post))] + Outcomes(bodies, env);
        assert Sent(steps) == [post] + Sent(later);
        assert ([post] + Sent(later))[1..] == Sent(later);
      } else {
        assert !IsMessageReceived(e);
        assert Recognised(events) == Recognised(rest);
        assert Sent(steps) == Sent(later);
      }
    }
  }

  // ---------------------------------------------------------------- the handler

  /**
   * Every request gets exactly one of 200, 404, 405 and 500: 405 for any method but GET
   * and POST, 200 or 404 for a GET depending only on the path, 200 or 500 for a POST
   * whatever its path; only a POST sends anything.
   */
  lemma Routing(req: Request, env: Env, reply: nat -> SlackReply)
    ensures var x := Handle(req, env, reply);
      (x.response == MethodNotAllowed <==> req.verb != "GET" && req.verb != "POST") &&
      (x.response == NotFound <==> req.verb == "GET" && req.path != "/" && req.path != "/status") &&
      (req.verb == "GET" ==> (x.response.status == 200 <==> req.path == "/" || req.path == "/status")) &&
      (req.verb == "POST" ==> x.response == Accepted || x.response == InternalError) &&
      (x.log != [] ==> req.verb == "POST")
  {
  }

  /**
   * A POST is answered 500 exactly when its body does not parse or some event of the
   * batch throws: a null event, or a recognised event without `data` while forwarding is on.
   */
  lemma InternalErrorIff(req: Request, env: Env, reply: nat -> SlackReply)
    requires req.verb == "POST"
    ensures Handle(req, env, reply).response == InternalError <==>
      req.body.Malformed? ||
      exists i :: 0 <= i < |Normalise(req.body.json)| && Step(Normalise(req.body.json)[i], env).Threw?
    ensures req.body.Malformed? ==> Handle(req, env, reply).log == []
  {
    if req.body.Parsed? {
      RunCompletesIff(Steps(Normalise(req.body.json), env), reply, []);
    }
  }

  /** Without the flag set to "true", or without a token, nothing is sent. */
  lemma GatedSendsNothing(req: Request, env: Env, reply: nat -> SlackReply)
    requires !Enabled(env) || !TokenSet(env)
    ensures Handle(req, env, reply).log == []
  {
    if req.verb == "POST" && req.body.Parsed? {
      RunGated(Steps(Normalise(req.body.json), env), reply, []);
    }
  }

  /**
   * With forwarding off, a POST whose batch holds no null event and no event type that
   * cannot be logged is answered "OK" and sends nothing.
   */
  lemma DisabledAcceptsQuietly(req: Request, env: Env, reply: nat -> SlackReply)
    requires req.verb == "POST" && req.body.Parsed? && !Enabled(env)
    requires forall i :: 0 <= i < |Normalise(req.body.json)| ==>
      Normalise(req.body.json)[i] != JNull && !TypeLogThrows(Normalise(req.body.json)[i])
    ensures Handle(req, env, reply) == Exchange(Accepted, [])
  {
    var steps := Steps(Normalise(req.body.json), env);
    RunCompletesIff(steps, reply, []);
    RunGated(steps, reply, []);
  }

  /**
   * An accepted POST with forwarding on and a token set sent one request per recognised
   * event of the batch, in batch order, each built from that event's `data` and each
   * answered by the reply for its position.
   */
  lemma OneCallPerRecognisedEvent(req: Request, env: Env, reply: nat -> SlackReply)
    requires req.verb == "POST" && req.body.Parsed? && Enabled(env) && TokenSet(env)
    requires Handle(req, env, reply).response == Accepted
    ensures var log := Handle(req, env, reply).log; var bodies := Recognised(Normalise(req.body.json));
      |log| == |bodies| &&
      forall j :: 0 <= j < |bodies| ==>
        HandleMessageReceived(bodies[j], env) == Ok(Some(log[j].post)) && log[j].reply == reply(j)
  {
    var events := Normalise(req.body.json);
    var steps := Steps(events, env);
    var log := Run(steps, reply, []).log;
    assert Handle(req, env, reply).log == log;
    RunCompletesIff(steps, reply, []);
    RunSends(steps, reply, []);
    RunReplies(steps, reply, []);
    SentRecognised(events, env);
    var bodies, sent := Recognised(events), Sent(steps);
    assert Posts(log) == sent;
    forall j | 0 <= j < |bodies|
      ensures HandleMessageReceived(bodies[j], env) == Ok(Some(log[j].post))
    {
      assert Outcomes(bodies, env)[j] == Delivered(sent)[j];
    }
  }

  /**
   * A POST answered 500 after parsing stopped at its first throwing event `k` and kept the
   * calls made by the events before it.
   */
  lemma FailedBatchKeepsEarlierCalls(req: Request, env: Env, reply: nat -> SlackReply) returns (k: nat)
    requires req.verb == "POST" && req.body.Parsed?
    requires Handle(req, env, reply).response == InternalError
    ensures var events := Normalise(req.body.json);
      k < |events| && Step(events[k], env).Threw? &&
      (forall i :: 0 <= i < k ==> !Step(events[i], env).Threw?) &&
      Handle(req, env, reply).log == Run(Steps(events[..k], env), reply, []).log
  {
    var events := Normalise(req.body.json);
    var steps := Steps(events, env);
    k := FirstFailure(steps, reply, []);
    assert steps[..k] == Steps(events[..k], env);
  }

  /** What the chat API answers (an `ok` of false, a failed fetch) never changes the response or the calls made. */
  lemma SlackFailureIgnored(req: Request, env: Env, reply1: nat -> SlackReply, reply2: nat -> SlackReply)
    ensures Handle(req, env, reply1).response == Handle(req, env, reply2).response
    ensures Posts(Handle(req, env, reply1).log) == Posts(Handle(req, env, reply2).log)
  {
    if req.verb == "POST" && req.body.Parsed? {
      RunIgnoresReplies(Steps(Normalise(req.body.json), env), reply1, reply2, [], []);
    }
  }

  /**
   * A batch of three events of which only the second is a `message.received`, with data
   * the handler can convert, and whose other two event types can be logged: one call,
   * carrying the second event's message, and the answer "OK".
   */
  lemma ThreeEventBatch(e1: Json, e2: Json, e3: Json, path: string, env: Env, reply: nat -> SlackReply)
    requires Enabled(env) && TokenSet(env)
    requires e1 != JNull && e3 != JNull && !IsMessageReceived(e1) && !IsMessageReceived(e3)
    requires !TypeLogThrows(e1) && !TypeLogThrows(e3)
    requires IsMessageReceived(e2) && !DataThrows(OptionalMember(Body(e2), "data"))
    ensures var x := Handle(Request("POST", path, Parsed(JArray([e1, e2, e3]))), env, reply);
      x.response == Accepted && |x.log| == 1 &&
      HandleMessageReceived(Body(e2), env) == Ok(Some(x.log[0].post))
  {
    var post := HandleMessageReceived(Body(e2), env).value.value;
    var steps: seq<StepOutcome> := [Ok(None), Ok(Some(post)), Ok(None)];
    assert Steps([e1, e2, e3], env) == steps;
    var sent := [Attempt(post, reply(0))];
    var none: seq<Attempt> := [];
    assert none + [Attempt(post, reply(|none|))] == sent;
    assert steps[1..] == [Ok(Some(post)), Ok(None)] && steps[1..][1..] == [Ok(None)] && steps[1..][1..][1..] == [];
    calc {
      Run(steps, reply, []);
      Run(steps[1..], reply, []);
      Run(steps[1..][1..], reply, sent);
      Run(steps[1..][1..][1..], reply, sent);
    }
  }

  /**
   * An event whose type is an object with its own `toString` member cannot be logged, so
   * the batch `[{"body": {"event": {"toString": 1}}}]` is answered 500 even with
   * forwarding off.
   */
  lemma UnloggableEventType(path: string, env: Env, reply: nat -> SlackReply)
    ensures var eventType := JObject(map["toString" := JNumber(1.0, "1")]);
      var webhook := JObject(map["body" := JObject(map["event" := eventType])]);
      Handle(Request("POST", path, Parsed(JArray([webhook]))), env, reply) == Exchange(InternalError, [])
  {
    var eventType := JObject(map["toString" := JNumber(1.0, "1")]);
    var webhook := JObject(map["body" := JObject(map["event" := eventType])]);
    assert EventType(webhook) == Ok(Defined(eventType));
    assert Steps([webhook], env) == [Threw(TypeError)];
  }
}

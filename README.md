# Hostaway-to-Slack webhook relay, modelled in Dafny

The system is a Cloudflare Worker, `src/index.js`, that receives Hostaway webhooks and
relays guest messages to a Slack channel. This project models its request handling:

- **Routing** (`Worker.Dispatch`, `Worker.HandleGetRequest`). Any GET goes to the status
  handler, which answers the status document on `/` and `/status` and 404 elsewhere. Any
  method other than GET and POST gets 405. A POST on any path is processed as a webhook.
- **Normalisation and the batch loop** (`Worker.Normalise`, `Worker.Step`, `Worker.Steps`,
  `Worker.Run`, `Worker.Fetch`). An array payload is the batch; any other value is a batch of one. Events
  are handled in order. Only those whose `body?.event` is exactly `"message.received"` reach
  `handleMessageReceived`. The first TypeError ends the batch with 500. Calls already made
  stay made.
- **JavaScript reads and conversions** (`JsValues`). Reading a property of null or
  undefined throws a TypeError. Truthiness, `${…}` conversion and `x > 0` follow
  JavaScript's rules for the values `JSON.parse` can produce. That includes the TypeError
  from converting an object that has its own `toString` member, directly or inside an
  array. Such a member is never callable, so the object has no primitive value. The one
  exception is the string-to-number step of `x > 0`, listed under "Left out".
- **Gating and extraction** (`Delivery`). Nothing is sent unless `SLACK_NOTIFICATIONS_ENABLED`
  is exactly `"true"`. The flag is checked before `data` is read. The token is checked only
  after `data` was read and the message formatted. So a disabled worker never throws on a
  missing `data`, while a worker without a token does. With forwarding on, an event also
  throws when its attachment list's `length` cannot be compared with 0. It throws too when
  the conversation id, message, timezone or date cannot be converted to text.
- **Formatting** (`SlackMessage`). This is the notification template. Its labels, emoji and
  line breaks are the source's own characters.

`Worker.Fetch` is the handler, written as a method with the source's loop. It is proved
equal to the function `Worker.Handle`. `Worker.Step` is one iteration of the loop: what one
event does. It logs the event type, which throws on a type that cannot be converted, even
with forwarding off. Then it filters, then it calls the handler. `Worker.Run` is the loop's
control flow over those outcomes: each request is sent in turn, and the first throw ends the
batch. `WorkerProperties` proves the promised properties about `Handle` and `Run`.

The Slack HTTP call is an entry in an outbound log. Each entry holds the request (URL,
bearer authorization, channel, username, text, unfurl flags) and the reply it received. The
reply to the i-th call is `reply(i)`, a parameter, so every possible behaviour of Slack is
covered.

The code does not isolate events from each other. One event that throws aborts the rest of
the batch and turns the answer into 500. Such an event is a `null` element, an event type
that cannot be logged, or a recognised event whose `data` is missing or cannot be converted
while forwarding is on. The model follows the code (`WorkerProperties.InternalErrorIff`,
`WorkerProperties.FailedBatchKeepsEarlierCalls`, `WorkerProperties.UnloggableEventType`).

## Model

| member | source | states |
|---|---|---|
| JsValues.Member | src/index.js:61-69 | reading a property throws a TypeError exactly on null or undefined; otherwise it yields the object's own member, or undefined |
| JsValues.OptionalMember | src/index.js:27 | `x?.key` is undefined when `x` is null or undefined, and the plain read otherwise |
| JsValues.Truthy | src/index.js:68-72 | a value is falsy exactly when it is null, undefined, false, the empty string or zero |
| JsValues.GreaterThanZero | src/index.js:72 | `x > 0` throws a TypeError exactly when `x` cannot be converted, that is an object with its own `toString` member, directly or inside an array; a number compares by its value and any other object is not greater than zero |
| JsValues.NonEmptyList | src/index.js:68-72 | the length test on a value that defaults to an empty list is false for a falsy value, tells whether an array is non-empty, and throws exactly when the value is an object whose own `length` cannot be converted |
| JsValues.Text | src/index.js:28 | `${x}` shows undefined as "undefined" and a string as itself, and throws exactly when the value cannot be converted |
| JsValues.JsonText | src/index.js:110-113 | converting a JSON value to text throws exactly when it is, or holds in an array, an object with its own `toString`; a string is itself and any other object is "[object Object]" |
| JsValues.JoinItems | src/index.js:110-113 | joining an array's elements throws exactly when one of the elements cannot be converted |
| JsValues.JsonTextExamples | src/index.js:110-113 | `["a", null, true]` becomes "a,,true"; `[]` becomes ""; undefined becomes "undefined"; an object with only `valueOf` becomes "[object Object]"; an array holding an array holding an object with its own `toString` throws |
| SlackMessage.ConversationLink | src/index.js:75 | the link throws exactly when the conversation id cannot be converted; otherwise it is the fixed dashboard inbox prefix, and after it exactly the interpolated id |
| SlackMessage.FormatSlackMessage | src/index.js:94-117 | formatting throws exactly when the message, the timezone or the date cannot be converted to text |
| SlackMessage.SectionsInOrder | src/index.js:107-116 | the text of a message that formats holds the message, then the timezone, then the date, then the conversation link, in that order and without overlap |
| SlackMessage.Frame | src/index.js:108-115 | the text of a message that formats starts with the "New Message Received" header and ends with `<link|Open in Hostaway Dashboard>` |
| SlackMessage.AttachmentNoteInserted | src/index.js:102-105 | the attachment flag changes the text only by inserting the attachment note right after the date line, before the link section |
| SlackMessage.PaperclipIffAttachments | src/index.js:102-113 | when no interpolated value contains a paperclip, a paperclip appears in the text if and only if the message has attachments |
| Delivery.SendToSlack | src/index.js:122-145 | a request is made if and only if the token is truthy; it goes to chat.postMessage with `Bearer <token>`, the configured channel, the fixed username, the message text and both unfurl flags false |
| Delivery.ExtractFields | src/index.js:61-75 | reading the fields throws iff `data` is null or missing, its attachment list's length cannot be compared, or its conversation id cannot be converted; `hasAttachments` holds iff the attachment list is non-empty or `imagesUrls` is truthy; the link is built from `conversationId` |
| Delivery.HandleMessageReceived | src/index.js:50-89 | with the flag not exactly "true" nothing happens, even without `data`; with the flag on it throws iff `data` is missing or one of its fields cannot be read or converted; a request is built iff the flag is on, the token is set and nothing throws |
| Delivery.PostCarriesEventData | src/index.js:61-88 | a request built for an event carries the text formatted from that event's own `data` fields, the configured channel, and the attachment flag as the event's data determines it |
| Worker.Dispatch | src/index.js:10-17 | POST is processed whatever the path; GET goes to the status handler; every other method is rejected |
| Worker.HandleGetRequest | src/index.js:162-184 | 200 with the status document iff the path is `/status` or `/`, else 404 "Not found"; the document says "enabled" iff the flag is exactly "true", and reports the configured channel |
| Worker.Normalise | src/index.js:24 | an array payload is the batch itself; any other value becomes a batch of one |
| Worker.EventType | src/index.js:27 | reading `body?.event` throws iff the event is null; a defined type is the `event` member of the event's `body` object |
| Worker.Body | src/index.js:33 | the body passed on for a recognised event is an object |
| Worker.Step | src/index.js:27-36 | one event throws iff it is null, its type cannot be converted for the log line, or it is recognised with forwarding on and its `data` throws; it sends a request iff it is recognised, forwarding is on, the token is set and its `data` does not throw |
| Worker.Steps | src/index.js:26-37 | the events are handled one by one, in batch order, one outcome per event |
| Worker.Run | src/index.js:26-43 | the loop only appends to the outbound log: what was sent stays sent, and at most one call is made per event |
| Worker.Handle | src/index.js:6-44 | every answer is 200 "OK", 500, 404, 405, or, for a GET, 200 with the status document; only a POST whose body parsed makes outbound calls |
| Worker.Fetch | src/index.js:6-44 | the handler's response and outbound calls are exactly those `Handle` specifies |
| WorkerProperties.Sent | src/index.js:31-33 | the requests a batch's events send, in order, at most one per event |
| WorkerProperties.RunGated | src/index.js:26-37 | a loop whose events send nothing makes no call |
| WorkerProperties.RunCompletesIff | src/index.js:26-39 | the loop reaches the end of the batch iff no event throws |
| WorkerProperties.FirstFailure | src/index.js:26-43 | a batch that throws stops at its first throwing event; the calls made are exactly those of the events before it |
| WorkerProperties.RunSends | src/index.js:26-37 | a completed loop appended exactly the requests its events send, in order |
| WorkerProperties.RunReplies | src/index.js:26-37 | the calls are awaited one at a time: the call at each position of the log got the reply for that position |
| WorkerProperties.Recognised | src/index.js:30-33 | the recognised events' bodies, in batch order, none of them null or undefined |
| WorkerProperties.Outcomes | src/index.js:33 | `handleMessageReceived` applied to each recognised body, in order |
| WorkerProperties.SentRecognised | src/index.js:26-37 | with forwarding on and a token, a batch where no event throws sends one request per recognised event, in batch order, the one `handleMessageReceived` builds from it |
| WorkerProperties.RunIgnoresReplies | src/index.js:147-156 | the replies to earlier calls change neither which calls are made nor whether the batch completes |
| WorkerProperties.Routing | src/index.js:10-17 | every request is answered 405 iff its method is neither GET nor POST, 404 iff it is a GET on another path than `/` and `/status`, 200 or 500 if it is a POST; only a POST makes calls |
| WorkerProperties.InternalErrorIff | src/index.js:19-43 | a POST gets 500 iff its body fails to parse or some event of the batch throws; a body that fails to parse makes no call |
| WorkerProperties.GatedSendsNothing | src/index.js:52-129 | a request makes no outbound call when the flag is not exactly "true" or the token is falsy |
| WorkerProperties.DisabledAcceptsQuietly | src/index.js:26-57 | with forwarding off, a POST whose batch has no null event and no event type that cannot be logged gets 200 "OK" and makes no call |
| WorkerProperties.OneCallPerRecognisedEvent | src/index.js:26-39 | an accepted POST with forwarding on and a token made exactly one call per recognised event, in batch order, each built from that event's data |
| WorkerProperties.FailedBatchKeepsEarlierCalls | src/index.js:26-43 | a POST answered 500 after parsing stopped at its first throwing event and keeps exactly the calls made by the events before it |
| WorkerProperties.SlackFailureIgnored | src/index.js:147-156 | whatever Slack answers (`ok` false, a failed fetch), the response and the calls made are the same |
| WorkerProperties.ThreeEventBatch | src/index.js:26-39 | of three events where only the second is a `message.received` whose data reads and converts, and the other two have loggable types, exactly one call is made, built from the second, and the answer is 200 "OK" |
| WorkerProperties.UnloggableEventType | src/index.js:26-43 | a batch whose one event has as its type an object with its own `toString` gets 500 and makes no call, whatever the configuration |

## Left out

- The HTTP call to `https://slack.com/api/chat.postMessage` and `response.json()` are network I/O. Each call is a log entry, and its reply is the parameter `reply`.
- `request.json()` is a library call. Its outcome is the `Payload` of the request: a parsed JSON value, or `Malformed` for any failure to read or parse the body.
- `console.log` and `console.error` are logging only and have no effect on results.
- `new URL(...)` is a library call. The model receives the request's path name directly.
- Response headers and the exact `JSON.stringify` serialisation of the status document and of the Slack request body are library output. They are modelled as records. An unset channel is `None`, which `JSON.stringify` leaves out.
- `async`/`await` and the Worker's `ctx` are left out. The handler awaits each call in turn, which the ordered log captures.
- Number rendering is not modelled. A JSON number carries the text JavaScript prints for it as data.
- JsValues.GreaterThanZero: `x > 0` for a string, or for an array that converts without throwing, goes on with JavaScript's string-to-number rules. The model does not include that step and takes such values as not greater than zero. This only matters for an `attachments` object that has its own `length` member holding a string or an array.
- Environment bindings are modelled as strings or unset. A non-string binding (for example a boolean `true` var, which is never `=== "true"`) is not modelled.
- String length in JavaScript counts UTF-16 units and the model counts characters. They agree on whether a string is empty, which is all the handler asks.

/**
 * What happens to one `message.received` event: the forwarding flag is checked, the
 * message's fields are read from the event's `data`, the notification is formatted,
 * and, when a bot token is configured, one `chat.postMessage` request is built.
 * The HTTP exchange itself is not modelled here: the request is returned as a value.
 */
module Delivery {
  import opened JsValues
  import opened SlackMessage

  datatype Option<+T> = None | Some(value: T)

  /** The Worker's environment bindings; `None` is an unset binding. */
  datatype Env = Env(notificationsEnabled: Option<string>, channel: Option<string>, botToken: Option<string>)

  const SlackEndpoint := "https://slack.com/api/chat.postMessage"
  const Username := "A069 Message"

  /** Forwarding is on only when the flag is exactly the string "true". */
  predicate Enabled(env: Env) {
    env.notificationsEnabled == Some("true")
  }

  /** The token is truthy: set and not empty. */
  predicate TokenSet(env: Env) {
    env.botToken.Some? && env.botToken.value != ""
  }

  /**
   * One outbound request to the chat API: its URL, bearer authorization and JSON body
   * (an unset channel is left out of the body).
   */
  datatype SlackPost = SlackPost(
    url: string,
    authorization: string,
    channel: Option<string>,
    username: string,
    text: string,
    unfurlLinks: bool,
    unfurlMedia: bool)

  /** The request `sendToSlack` issues for a message, or none when no token is set. */
  function SendToSlack(message: Message, env: Env): (r: Option<SlackPost>)
    ensures r.Some? <==> TokenSet(env)
    ensures r.Some? ==> r.value.text == message.text && r.value.channel == env.channel
    ensures r.Some? ==> r.value.url == SlackEndpoint && r.value.authorization == "Bearer " + env.botToken.value
    ensures r.Some? ==> r.value.username == Username && !r.value.unfurlLinks && !r.value.unfurlMedia
  {
    if !TokenSet(env) then None
    else Some(SlackPost(SlackEndpoint, "Bearer " + env.botToken.value, env.channel, Username, message.text, false, false))
  }

  /**
   * The formatter's arguments read from an event's `data`: a TypeError when `data` is
   * null or missing (its `body` is read first), when the attachment list's `length`
   * cannot be compared with 0, or when the conversation id cannot be converted to text.
   */
  function ExtractFields(data: JsVal): (r: Result<MessageFields>)
    ensures r.Threw? <==> (Nullish(data) || NonEmptyList(OptionalMember(data, "attachments")).Threw? ||
      Text(OptionalMember(data, "conversationId")).Threw?)
    ensures r.Ok? ==> ConversationLink(r.value.conversationId) == Ok(r.value.conversationLink)
    ensures r.Ok? ==> (r.value.hasAttachments <==>
      NonEmptyList(OptionalMember(data, "attachments")).value || Truthy(OptionalMember(data, "imagesUrls")))
    ensures r.Ok? ==> (r.value.messageBody == OptionalMember(data, "body") &&
      r.value.conversationId == OptionalMember(data, "conversationId") &&
      r.value.timezone == OptionalMember(data, "listingTimeZoneName") &&
      r.value.messageDate == OptionalMember(data, "date"))
  {
    match Member(data, "body")
    case Threw(e) => Threw(e)
    case Ok(messageBody) =>
      var conversationId := Member(data, "conversationId").value;
      var timezone := Member(data, "listingTimeZoneName").value;
      var messageDate := Member(data, "date").value;
      var attachments := Member(data, "attachments").value;
      var imageUrls := Member(data, "imagesUrls").value;
      match NonEmptyList(attachments)
      case Threw(e) => Threw(e)
      case Ok(listed) =>
        var hasAttachments := listed || Truthy(imageUrls);
        match ConversationLink(conversationId)
        case Threw(e) => Threw(e)
        case Ok(link) => Ok(MessageFields(messageBody, conversationId, timezone, messageDate, hasAttachments, link))
  }

  /**
   * Whether handling an event with this `data` throws once forwarding is on: `data` is
   * null or missing, or one of the values the handler compares or converts to text (the
   * attachment list's `length`, the conversation id, the message, the timezone, the date)
   * cannot be converted to a primitive.
   */
  predicate DataThrows(data: JsVal) {
    Nullish(data) || NonEmptyList(OptionalMember(data, "attachments")).Threw? ||
    Text(OptionalMember(data, "conversationId")).Threw? || Text(OptionalMember(data, "body")).Threw? ||
    Text(OptionalMember(data, "listingTimeZoneName")).Threw? || Text(OptionalMember(data, "date")).Threw?
  }

  /**
   * `handleMessageReceived` for the event's `body`: nothing when forwarding is off (before
   * `data` is even read), a TypeError when `data` is missing or a value cannot be converted,
   * otherwise the request `sendToSlack` would issue, if any.
   */
  function HandleMessageReceived(body: JsVal, env: Env): (r: Result<Option<SlackPost>>)
    requires !Nullish(body)
    ensures !Enabled(env) ==> r == Ok(None)
    ensures r.Threw? <==> Enabled(env) && DataThrows(OptionalMember(body, "data"))
    ensures (r.Ok? && r.value.Some?) <==> Enabled(env) && TokenSet(env) && !DataThrows(OptionalMember(body, "data"))
  {
    if !Enabled(env) then Ok(None)
    else
      var data := Member(body, "data").value;
      match ExtractFields(data)
      case Threw(e) => Threw(e)
      case Ok(fields) =>
        match FormatSlackMessage(fields)
        case Threw(e) => Threw(e)
        case Ok(message) => Ok(SendToSlack(message, env))
  }

  /**
   * A request built for an event carries that event's message text, timezone, date and
   * dashboard link, in that order, and the attachment note exactly when the event lists
   * attachments or image URLs.
   */
  lemma PostCarriesEventData(body: JsVal, env: Env, post: SlackPost)
    requires !Nullish(body)
    requires HandleMessageReceived(body, env) == Ok(Some(post))
    ensures var data := OptionalMember(body, "data");
      var f := ExtractFields(data).value;
      ExtractFields(data).Ok? && FormatSlackMessage(f).Ok? && post.text == Formatted(f) &&
      f.conversationLink == DashboardPrefix + Text(OptionalMember(data, "conversationId")).value &&
      post.channel == env.channel &&
      (f.hasAttachments <==>
        NonEmptyList(OptionalMember(data, "attachments")).value || Truthy(OptionalMember(data, "imagesUrls")))
  {
  }
}

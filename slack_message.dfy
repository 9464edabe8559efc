/**
 * The text of the chat notification built for one received guest message: a fixed
 * header, the message, the listing's timezone, the date, an optional attachment note,
 * and a link to the conversation in the Hostaway dashboard. Values are interpolated
 * verbatim, with no escaping.
 */
module SlackMessage {
  import opened JsValues

  const Paperclip: char := '\U{1F4CE}'

  const Header := "*New Message Received*\n\n\U{1F4AC} *Message:* "
  const TimezoneLabel := "\n\n\U{1F30D} *Timezone:* "
  const DateLabel := "\n\U{23F0} *Date:* "
  const AttachmentNote := "\n" + [Paperclip] + " *This message contains attachments or URLs*"
  const LinkLabel := "\n\n\U{1F517} *View Conversation:* <"
  const LinkEnd := "|Open in Hostaway Dashboard>"

  const DashboardPrefix := "https://dashboard.hostaway.com/v3/messages/inbox/"

  /** The named arguments of the formatter; `hasAttachments` is the truthiness of the value the caller computed. */
  datatype MessageFields = MessageFields(
    messageBody: JsVal,
    conversationId: JsVal,
    timezone: JsVal,
    messageDate: JsVal,
    hasAttachments: bool,
    conversationLink: string)

  datatype Message = Message(text: string)

  /**
   * The dashboard link for a conversation: the fixed inbox prefix followed by the
   * interpolated id; a TypeError when the id cannot be converted to text.
   */
  function ConversationLink(conversationId: JsVal): (r: Result<string>)
    ensures r.Threw? <==> Text(conversationId).Threw?
    ensures r.Ok? ==> (|r.value| == |DashboardPrefix| + |Text(conversationId).value| &&
      r.value[..|DashboardPrefix|] == DashboardPrefix &&
      r.value[|DashboardPrefix|..] == Text(conversationId).value)
  {
    match Text(conversationId)
    case Threw(e) => Threw(e)
    case Ok(id) => Ok(DashboardPrefix + id)
  }

  /** The template literal of the notification, with its five holes filled. */
  function Template(message: string, timezone: string, date: string, attachmentText: string, link: string): string {
    Header + message + TimezoneLabel + timezone + DateLabel + date + attachmentText + LinkLabel + link + LinkEnd
  }

  /**
   * `formatSlackMessage`: the template with the message, timezone and date converted to
   * text in that order (the first conversion that throws ends it), the attachment note when
   * the flag is set, and the link.
   */
  function FormatSlackMessage(f: MessageFields): (r: Result<Message>)
    ensures r.Threw? <==> Text(f.messageBody).Threw? || Text(f.timezone).Threw? || Text(f.messageDate).Threw?
  {
    var attachmentText := if f.hasAttachments then AttachmentNote else "";
    match Text(f.messageBody)
    case Threw(e) => Threw(e)
    case Ok(message) =>
      match Text(f.timezone)
      case Threw(e) => Threw(e)
      case Ok(timezone) =>
        match Text(f.messageDate)
        case Threw(e) => Threw(e)
        case Ok(date) => Ok(Message(Template(message, timezone, date, attachmentText, f.conversationLink)))
  }

  /** The text of a message that formats: the template filled with the converted fields. */
  ghost function Formatted(f: MessageFields): string
    requires FormatSlackMessage(f).Ok?
  {
    FormatSlackMessage(f).value.text
  }

  /** `needle` occurs in `s` starting at index `i`. */
  ghost predicate At(s: string, needle: string, i: nat) {
    i + |needle| <= |s| && s[i..i + |needle|] == needle
  }

  lemma AtMiddle(pre: string, x: string, post: string)
    ensures At(pre + x + post, x, |pre|)
  {
  }

  /**
   * The message, the timezone, the date and the link occur in the text in that order,
   * without overlapping.
   */
  lemma SectionsInOrder(f: MessageFields) returns (i: nat, j: nat, k: nat, l: nat)
    requires FormatSlackMessage(f).Ok?
    ensures var text := Formatted(f);
      var b, z, d := Text(f.messageBody).value, Text(f.timezone).value, Text(f.messageDate).value;
      At(text, b, i) && i + |b| < j && At(text, z, j) && j + |z| < k &&
      At(text, d, k) && k + |d| < l && At(text, f.conversationLink, l)
  {
    var b, z, d, link := Text(f.messageBody).value, Text(f.timezone).value, Text(f.messageDate).value, f.conversationLink;
    var att := if f.hasAttachments then AttachmentNote else "";
    i, j, k, l := TemplateSections(b, z, d, att, link);
  }

  lemma TemplateSections(b: string, z: string, d: string, att: string, link: string) returns (i: nat, j: nat, k: nat, l: nat)
    ensures var text := Template(b, z, d, att, link);
      At(text, b, i) && i + |b| < j && At(text, z, j) && j + |z| < k &&
      At(text, d, k) && k + |d| < l && At(text, link, l)
  {
    assert TimezoneLabel[0] == DateLabel[0] == LinkLabel[0] == '\n';
    i, j, k, l := Holes(Header, b, TimezoneLabel, z, DateLabel, d, att, LinkLabel, link, LinkEnd);
  }

  /** Where the holes of a template with non-empty separators sit. */
  lemma Holes(h: string, b: string, s1: string, z: string, s2: string, d: string, att: string, s3: string, link: string, t: string)
    returns (i: nat, j: nat, k: nat, l: nat)
    requires s1 != [] && s2 != [] && s3 != []
    ensures var text := h + b + s1 + z + s2 + d + att + s3 + link + t;
      At(text, b, i) && i + |b| < j && At(text, z, j) && j + |z| < k &&
      At(text, d, k) && k + |d| < l && At(text, link, l)
  {
    var p2 := h + b + s1;
    var p3 := p2 + z + s2;
    var p4 := p3 + d + att + s3;
    AtMiddle(h, b, s1 + z + s2 + d + att + s3 + link + t);
    AtMiddle(p2, z, s2 + d + att + s3 + link + t);
    AtMiddle(p3, d, att + s3 + link + t);
    AtMiddle(p4, link, t);
    i, j, k, l := |h|, |p2|, |p3|, |p4|;
  }

  /** The text opens with the fixed header and closes with the dashboard link and its label. */
  lemma Frame(f: MessageFields)
    requires FormatSlackMessage(f).Ok?
    ensures var text := Formatted(f);
      var close := "<" + f.conversationLink + LinkEnd;
      |text| >= |Header| + |close| &&
      text[..|Header|] == Header &&
      text[|text| - |close|..] == close
  {
    var att := if f.hasAttachments then AttachmentNote else "";
    TemplateFrame(Text(f.messageBody).value, Text(f.timezone).value, Text(f.messageDate).value, att, f.conversationLink);
  }

  lemma TemplateFrame(b: string, z: string, d: string, att: string, link: string)
    ensures var text := Template(b, z, d, att, link);
      var close := "<" + link + LinkEnd;
      |text| >= |Header| + |close| &&
      text[..|Header|] == Header &&
      text[|text| - |close|..] == close
  {
  }

  /**
   * `marked` is `plain` with `x` inserted just before its last `|tail|` characters, and
   * the two differ.
   */
  ghost predicate InsertedBefore(plain: string, marked: string, x: string, tail: string) {
    var cut := |plain| - |tail|;
    0 <= cut <= |plain| && marked == plain[..cut] + x + plain[cut..] && plain != marked
  }

  /**
   * The attachment note is the only difference attachments make: with it, the text is
   * the text without it, with the note inserted just before the conversation link section.
   */
  lemma AttachmentNoteInserted(f: MessageFields)
    requires FormatSlackMessage(f).Ok?
    ensures InsertedBefore(Formatted(f.(hasAttachments := false)), Formatted(f.(hasAttachments := true)),
      AttachmentNote, LinkLabel + f.conversationLink + LinkEnd)
  {
    var b, z, d, link := Text(f.messageBody).value, Text(f.timezone).value, Text(f.messageDate).value, f.conversationLink;
    var f0, f1 := f.(hasAttachments := false), f.(hasAttachments := true);
    assert f0.messageBody == f1.messageBody == f.messageBody && f0.timezone == f1.timezone == f.timezone;
    assert f0.messageDate == f1.messageDate == f.messageDate && f0.conversationLink == f1.conversationLink == link;
    FormattedTemplate(f0);
    FormattedTemplate(f1);
    LabelsHaveNoPaperclip();
    TemplateInserted(b, z, d, AttachmentNote, link);
  }

  lemma TemplateInserted(b: string, z: string, d: string, x: string, link: string)
    requires x != []
    ensures InsertedBefore(Template(b, z, d, "", link), Template(b, z, d, x, link), x, LinkLabel + link + LinkEnd)
  {
    Inserted(Header, b, TimezoneLabel, z, DateLabel, d, x, LinkLabel, link, LinkEnd);
  }

  /** A message that formats has the template, filled with its converted fields, as its text. */
  lemma FormattedTemplate(f: MessageFields)
    requires FormatSlackMessage(f).Ok?
    ensures Text(f.messageBody).Ok? && Text(f.timezone).Ok? && Text(f.messageDate).Ok?
    ensures Formatted(f) == Template(Text(f.messageBody).value, Text(f.timezone).value, Text(f.messageDate).value,
      if f.hasAttachments then AttachmentNote else "", f.conversationLink)
  {
  }

  /** Filling a hole of a template with `x` instead of nothing inserts `x` at that place, and changes the text. */
  lemma Inserted(h: string, b: string, s1: string, z: string, s2: string, d: string, x: string, s3: string, link: string, t: string)
    requires x != []
    ensures var plain := h + b + s1 + z + s2 + d + "" + s3 + link + t;
      var marked := h + b + s1 + z + s2 + d + x + s3 + link + t;
      var cut := |plain| - |s3 + link + t|;
      0 <= cut <= |plain| && marked == plain[..cut] + x + plain[cut..] && plain != marked
  {
    var front := h + b + s1 + z + s2 + d;
    var back := s3 + link + t;
    var plain := h + b + s1 + z + s2 + d + "" + s3 + link + t;
    var marked := h + b + s1 + z + s2 + d + x + s3 + link + t;
    assert plain == front + back;
    assert marked == front + x + back;
    assert plain[..|front|] == front && plain[|front|..] == back;
    assert |marked| != |plain|;
  }

  /**
   * When none of the interpolated values contains a paperclip, the paperclip appears in
   * the text exactly when the formatter was told there are attachments. (The message is
   * interpolated verbatim, so a guest can write a paperclip themselves.)
   */
  lemma PaperclipIffAttachments(f: MessageFields)
    requires FormatSlackMessage(f).Ok?
    requires Paperclip !in Text(f.messageBody).value && Paperclip !in Text(f.timezone).value
    requires Paperclip !in Text(f.messageDate).value && Paperclip !in f.conversationLink
    ensures Paperclip in Formatted(f) <==> f.hasAttachments
  {
    var att := if f.hasAttachments then AttachmentNote else "";
    LabelsHaveNoPaperclip();
    TemplateMembers(Paperclip, Text(f.messageBody).value, Text(f.timezone).value, Text(f.messageDate).value, att, f.conversationLink);
  }

  lemma LabelsHaveNoPaperclip()
    ensures Paperclip !in Header && Paperclip !in TimezoneLabel && Paperclip !in DateLabel
    ensures Paperclip !in LinkLabel && Paperclip !in LinkEnd && Paperclip in AttachmentNote
  {
    assert AttachmentNote[1] == Paperclip;
  }

  lemma TemplateMembers(c: char, b: string, z: string, d: string, att: string, link: string)
    ensures c in Template(b, z, d, att, link) <==>
      c in Header || c in b || c in TimezoneLabel || c in z || c in DateLabel || c in d || c in att ||
      c in LinkLabel || c in link || c in LinkEnd
  {
  }
}

/**
 * The lead endpoint (`POST /api/lead`): checks that the visitor gave a name and
 * an e-mail address, renders the chat transcript, and assembles the notification
 * mail (subject and plain-text body) that is relayed to the site's inbox when a
 * relay key is configured.
 */
module LeadNotice {
  import opened Wrappers
  import opened Strings
  import opened Http

  /**
   * The parsed request: its method and the body's `name`, `email` and `messages`
   * fields. `messages` is `None` when the field is absent or not an array.
   */
  datatype LeadRequest = LeadRequest(
    httpMethod: string,
    name: Option<string>,
    email: Option<string>,
    messages: Option<seq<ChatMessage>>)

  const MissingIdentity: Reply := Reply(400, ErrorBody("Nom et email requis"))

  /** The inbox every notification is addressed to. */
  const NotifyEmail: string := "contact.eco.btp.deal@gmail.com"

  const Sender: string := "Eco-BTP Deal <onboarding@resend.dev>"

  // ---------------------------------------------------------------------------
  // The transcript
  // ---------------------------------------------------------------------------

  const NoConversation: string := "Aucun message échangé."

  /** The label a message is rendered with: the visitor is the client, anyone else the assistant. */
  function Speaker(role: string): string {
    if role == "user" then "Client" else "Assistant"
  }

  function TranscriptLine(m: ChatMessage): string {
    Speaker(m.role) + ": " + m.content
  }

  /** `messages.map(...)`: one rendered line per message, in order. */
  function TranscriptLines(ms: seq<ChatMessage>): (r: seq<string>)
    ensures |r| == |ms|
    ensures forall i | 0 <= i < |ms| :: r[i] == TranscriptLine(ms[i])
  {
    seq(|ms|, i requires 0 <= i < |ms| => TranscriptLine(ms[i]))
  }

  /** The transcript: the rendered messages joined by a blank line, or a fixed sentence without a message array. */
  function ConversationText(messages: Option<seq<ChatMessage>>): string {
    match messages
    case Some(ms) => Join(TranscriptLines(ms), "\n\n")
    case None => NoConversation
  }

  /** A line starts with the client label exactly when the message is the visitor's. */
  lemma SpeakerShown(m: ChatMessage)
    ensures StartsWith(TranscriptLine(m), "Client: ") <==> m.role == "user"
    ensures StartsWith(TranscriptLine(m), "Assistant: ") <==> m.role != "user"
  {
    var line := TranscriptLine(m);
    if m.role == "user" {
      assert line[..8] == "Client: ";
      assert line[0] != "Assistant: "[0];
    } else {
      assert line[..11] == "Assistant: ";
      assert line[0] != "Client: "[0];
    }
  }

  /** A one-message transcript is that message's line. */
  lemma ConversationOfOne(m: ChatMessage)
    ensures ConversationText(Some([m])) == TranscriptLine(m)
  {
  }

  /** A later message is rendered after the earlier ones, one blank line below them. */
  lemma ConversationExtends(ms: seq<ChatMessage>, m: ChatMessage)
    requires ms != []
    ensures ConversationText(Some(ms + [m])) == ConversationText(Some(ms)) + "\n\n" + TranscriptLine(m)
  {
    assert TranscriptLines(ms + [m]) == TranscriptLines(ms) + [TranscriptLine(m)];
    JoinSnoc(TranscriptLines(ms), TranscriptLine(m), "\n\n");
  }

  /** An empty message array is still an array: its transcript is empty, not the fixed sentence. */
  lemma EmptyConversation()
    ensures ConversationText(Some([])) == ""
    ensures ConversationText(None) != ConversationText(Some([]))
  {
  }

  // ---------------------------------------------------------------------------
  // Subject and body
  // ---------------------------------------------------------------------------

  const SubjectPrefix: string := "Nouveau lead Eco-BTP Deal : "

  function Subject(name: string): string {
    SubjectPrefix + name
  }

  /** The name a notification subject announces, if it has the lead subject's form. */
  function NameInSubject(subject: string): Option<string> {
    if StartsWith(subject, SubjectPrefix) then Some(subject[|SubjectPrefix|..]) else None
  }

  /** The subject announces exactly the lead's name. */
  lemma SubjectNamesLead(name: string)
    ensures NameInSubject(Subject(name)) == Some(name)
  {
    assert Subject(name)[..|SubjectPrefix|] == SubjectPrefix;
  }

  const BodyHeader: string := "Nouveau contact " + "depuis le chatbot " + "Eco-BTP Deal"
  const ConversationSeparator: string := "--- Conversation ---"

  /** The body's lines, in order; `timestamp` is the Paris-time rendering of the current date. */
  function BodyLines(timestamp: string, name: string, email: string, conversation: string): (r: seq<string>)
    ensures |r| == 8
  {
    [BodyHeader, "", "Date : " + timestamp, "Nom : " + name, "Email : " + email, "",
     ConversationSeparator, conversation]
  }

  function Body(timestamp: string, name: string, email: string, conversation: string): string {
    Join(BodyLines(timestamp, name, email, conversation), "\n")
  }

  /** The text after the first line break (nothing when there is none). */
  function DropLine(s: string): (r: string)
    ensures |r| <= |s|
  {
    if s == [] then []
    else if s[0] == '\n' then s[1..]
    else DropLine(s[1..])
  }

  /** The text after the k-th line break. */
  function DropLines(s: string, k: nat): string
    decreases k
  {
    if k == 0 then s else DropLines(DropLine(s), k - 1)
  }

  lemma {:induction false} DropLineOf(line: string, rest: string)
    requires '\n' !in line
    ensures DropLine(line + "\n" + rest) == rest
    decreases |line|
  {
    var s := line + "\n" + rest;
    if line == [] {
      assert s[0] == '\n' && s[1..] == rest;
    } else {
      assert s[0] != '\n';
      assert s[1..] == line[1..] + "\n" + rest;
      DropLineOf(line[1..], rest);
    }
  }

  /** Past k lines without a line break, a join by line breaks continues with the k-th part. */
  lemma {:induction false} JoinDropLines(lines: seq<string>, k: nat)
    requires k < |lines|
    requires forall i | 0 <= i < k :: '\n' !in lines[i]
    ensures DropLines(Join(lines, "\n"), k) == Join(lines[k..], "\n")
    decreases k
  {
    if k > 0 {
      assert Join(lines, "\n") == lines[0] + "\n" + Join(lines[1..], "\n");
      DropLineOf(lines[0], Join(lines[1..], "\n"));
      JoinDropLines(lines[1..], k - 1);
      assert lines[1..][k - 1..] == lines[k..];
    }
  }

  /** ... so the k-th part is the k-th line, ended by a line break when another part follows. */
  lemma LineAt(lines: seq<string>, k: nat)
    requires k + 1 < |lines|
    requires forall i | 0 <= i < k :: '\n' !in lines[i]
    ensures StartsWith(DropLines(Join(lines, "\n"), k), lines[k] + "\n")
  {
    JoinDropLines(lines, k);
    assert Join(lines[k..], "\n") == lines[k] + "\n" + Join(lines[k + 1..], "\n");
  }

  lemma FixedLinesUnbroken()
    ensures '\n' !in BodyHeader
    ensures '\n' !in ConversationSeparator
    ensures '\n' !in "Date : " && '\n' !in "Nom : " && '\n' !in "Email : "
  {
    assert '\n' !in "Nouveau contact ";
    assert '\n' !in "depuis le chatbot ";
    assert '\n' !in "Eco-BTP Deal";
    assert forall i | 0 <= i < |ConversationSeparator| :: ConversationSeparator[i] != '\n';
  }

  /**
   * Read line by line (when the timestamp, name and address hold no line break),
   * the body gives the header, a blank line, the date, the name and the address
   * on lines 3 to 5, and the whole transcript after the separator line.
   */
  lemma BodyReadBack(timestamp: string, name: string, email: string, conversation: string)
    requires '\n' !in timestamp && '\n' !in name && '\n' !in email
    ensures var body := Body(timestamp, name, email, conversation);
      && StartsWith(body, BodyHeader + "\n")
      && StartsWith(DropLines(body, 1), "\n")
      && StartsWith(DropLines(body, 2), "Date : " + timestamp + "\n")
      && StartsWith(DropLines(body, 3), "Nom : " + name + "\n")
      && StartsWith(DropLines(body, 4), "Email : " + email + "\n")
      && DropLines(body, 6) == ConversationSeparator + "\n" + conversation
      && DropLines(body, 7) == conversation
  {
    var lines := BodyLines(timestamp, name, email, conversation);
    FixedLinesUnbroken();
    assert forall i | 0 <= i < 7 :: '\n' !in lines[i];
    LineAt(lines, 0);
    LineAt(lines, 1);
    LineAt(lines, 2);
    LineAt(lines, 3);
    LineAt(lines, 4);
    JoinDropLines(lines, 6);
    assert lines[6..] == [ConversationSeparator, conversation];
    JoinDropLines(lines, 7);
    assert lines[7..] == [conversation];
  }

  // ---------------------------------------------------------------------------
  // The handler
  // ---------------------------------------------------------------------------

  /** The mail the relay is asked to send (`from`, `to`, `subject`, `text`). */
  datatype Notification = Notification(from: string, to: seq<string>, subject: string, text: string)

  /** What the relay's `fetch` did: it answered with some status, or it threw. */
  datatype Delivery = Answered(status: int) | DeliveryFailed(thrown: Thrown)

  /** The reply, and the notification handed to the relay if one was. */
  datatype LeadOutcome = LeadOutcome(reply: Reply, sent: Option<Notification>)

  /** The name and address are both given (`!name || !email` is false). */
  predicate Identified(req: LeadRequest) {
    Truthy(req.name) && Truthy(req.email)
  }

  function LeadMail(req: LeadRequest, timestamp: string): Notification
    requires Identified(req)
  {
    Notification(Sender, [NotifyEmail], Subject(req.name.value),
                 Body(timestamp, req.name.value, req.email.value, ConversationText(req.messages)))
  }

  /**
   * `handler`: the method check, the name/e-mail check, then the relay call when
   * `resendKey` is set (its log lines otherwise). The relay's answer is ignored;
   * only a thrown error changes the reply.
   */
  function HandleLead(req: LeadRequest, resendKey: Option<string>, timestamp: string, delivery: Delivery): (o: LeadOutcome)
    ensures o.sent.Some? <==> req.httpMethod == "POST" && Identified(req) && Truthy(resendKey)
    ensures o.reply.status == 405 <==> req.httpMethod != "POST"
  {
    if req.httpMethod != "POST" then LeadOutcome(MethodNotAllowed, None)
    else if !Identified(req) then LeadOutcome(MissingIdentity, None)
    else if !Truthy(resendKey) then LeadOutcome(Reply(200, SuccessBody), None)
    else
      var mail := LeadMail(req, timestamp);
      match delivery
      case Answered(_) => LeadOutcome(Reply(200, SuccessBody), Some(mail))
      case DeliveryFailed(thrown) =>
        LeadOutcome(Reply(500, ErrorBody(CaughtMessage(thrown, "Erreur serveur"))), Some(mail))
  }

  /** A request without a name or an address is refused with 400 and nothing is sent. */
  lemma MissingIdentityRefused(req: LeadRequest, resendKey: Option<string>, timestamp: string, delivery: Delivery)
    requires req.httpMethod == "POST" && !Identified(req)
    ensures HandleLead(req, resendKey, timestamp, delivery) == LeadOutcome(MissingIdentity, None)
  {
  }

  /** Unless the relay call throws, an identified lead gets 200 `{success: true}`, with or without a relay key. */
  lemma LeadAcknowledged(req: LeadRequest, resendKey: Option<string>, timestamp: string, delivery: Delivery)
    requires req.httpMethod == "POST" && Identified(req) && !delivery.DeliveryFailed?
    ensures HandleLead(req, resendKey, timestamp, delivery).reply == Reply(200, SuccessBody)
  {
  }

  /** The relay's status never changes the outcome. */
  lemma RelayStatusIgnored(req: LeadRequest, resendKey: Option<string>, timestamp: string, s1: int, s2: int)
    ensures HandleLead(req, resendKey, timestamp, Answered(s1)) == HandleLead(req, resendKey, timestamp, Answered(s2))
  {
  }

  /** A relay call that throws gives 500 with the error's message, after the mail was handed over. */
  lemma RelayFailureReported(req: LeadRequest, resendKey: Option<string>, timestamp: string, thrown: Thrown)
    requires req.httpMethod == "POST" && Identified(req) && Truthy(resendKey)
    ensures var o := HandleLead(req, resendKey, timestamp, DeliveryFailed(thrown));
      && o.reply.status == 500
      && o.reply.body == ErrorBody(CaughtMessage(thrown, "Erreur serveur"))
      && o.sent.Some?
  {
  }

  /** The mail goes to the site's inbox, announces the lead's name and carries the transcript as its last part. */
  lemma MailDescribesLead(req: LeadRequest, resendKey: Option<string>, timestamp: string, delivery: Delivery)
    requires req.httpMethod == "POST" && Identified(req) && Truthy(resendKey)
    requires '\n' !in timestamp && '\n' !in req.name.value && '\n' !in req.email.value
    ensures var o := HandleLead(req, resendKey, timestamp, delivery);
      && o.sent.Some?
      && o.sent.value.to == [NotifyEmail]
      && NameInSubject(o.sent.value.subject) == req.name
      && StartsWith(DropLines(o.sent.value.text, 3), "Nom : " + req.name.value + "\n")
      && StartsWith(DropLines(o.sent.value.text, 4), "Email : " + req.email.value + "\n")
      && DropLines(o.sent.value.text, 7) == ConversationText(req.messages)
  {
    SubjectNamesLead(req.name.value);
    BodyReadBack(timestamp, req.name.value, req.email.value, ConversationText(req.messages));
  }
}

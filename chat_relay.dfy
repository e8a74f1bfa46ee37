/**
 * The chat relay endpoint: it checks the request, builds the system prompt,
 * opens a completion stream and re-emits each text delta as one server-sent
 * event, ending with `[DONE]` or, when the stream fails, with an error.
 */
module ChatRelay {
  import opened Wrappers
  import opened Strings
  import opened Json
  import opened Http

  // ---------------------------------------------------------------------------
  // The request and the completion call
  // ---------------------------------------------------------------------------

  /** The assistant's standing instructions. */
  const SystemPrompt: string :=
    "Tu es l'assistant IA d'Eco-BTP Deal, la marketplace de référence pour le réemploi de matériaux de construction (BTP) en France.\n"
    + "\n"
    + "## À propos d'Eco-BTP Deal\n"
    + "- Marketplace en ligne spécialisée dans le réemploi et la revente de matériaux de construction\n"
    + "- Objectif : réduire le gaspillage dans le secteur du BTP en facilitant l'économie circulaire\n"
    + "- Plateforme mettant en relation acheteurs et vendeurs de matériaux de seconde main\n"
    + "- Matériaux disponibles : briques, tuiles, bois, métaux, sanitaires, portes, fenêtres, carrelage, isolants, etc.\n"
    + "- Zone de couverture : France métropolitaine\n"
    + "\n"
    + "## Services principaux\n"
    + "- **Achat de matériaux de réemploi** : catalogue en ligne avec recherche par catégorie, localisation et prix\n"
    + "- **Vente de matériaux** : les professionnels et particuliers peuvent déposer des annonces\n"
    + "- **Livraison** : service de livraison disponible selon les régions, devis sur demande\n"
    + "- **Accompagnement** : conseils sur la conformité réglementaire et les diagnostics ressources\n"
    + "- **Garanties** : vérification qualité des matériaux, descriptions détaillées, photos\n"
    + "\n"
    + "## Réglementation\n"
    + "- Loi AGEC (Anti-Gaspillage pour une Économie Circulaire) : obligation de diagnostic PEMD (Produits Équipements Matériaux Déchets) pour les chantiers de démolition\n"
    + "- REP Bâtiment : filière de Responsabilité Élargie du Producteur appliquée au secteur du bâtiment\n"
    + "- Eco-BTP Deal aide les professionnels à se conformer à ces réglementations\n"
    + "\n"
    + "## Avantages du réemploi\n"
    + "- Économies de 30% à 70% par rapport au neuf\n"
    + "- Réduction de l'empreinte carbone du chantier\n"
    + "- Conformité aux exigences environnementales croissantes\n"
    + "- Matériaux de qualité, souvent avec du cachet (ancien)\n"
    + "\n"
    + "## Contact\n"
    + "- Email : contact.eco.btp.deal@gmail.com (seul canal de contact)\n"
    + "\n"
    + "## Consignes de comportement\n"
    + "- Réponds toujours en français\n"
    + "- Sois professionnel, chaleureux et orienté solution\n"
    + "- Mets en avant les avantages économiques et écologiques du réemploi\n"
    + "- Si tu ne connais pas la réponse exacte, propose de mettre en relation avec l'équipe commerciale\n"
    + "- Encourage les visiteurs à explorer le catalogue et à créer un compte\n"
    + "- Ne donne jamais de prix précis (ils varient selon le stock), renvoie vers le catalogue\n"
    + "- Propose toujours un appel à l'action (visiter le catalogue, contacter l'équipe, demander un devis)\n"
    + "- Garde les réponses concises (max 3-4 paragraphes)"

  /** The `lead` object of the request body: who is chatting, when the widget knows it. */
  datatype Lead = Lead(name: Option<string>, email: Option<string>)

  /**
   * The request as the handler reads it. `messages` is None when the field is
   * missing or is not an array; `lead` is None when it is missing or falsy.
   */
  datatype ChatRequest = ChatRequest(httpMethod: string, messages: Option<seq<ChatMessage>>, lead: Option<Lead>)

  const CompletionModel: string := "claude-sonnet-4-5-20250929"
  const MaxTokens: int := 1024

  /**
   * The system prompt the handler sends, by how it is built: the standing
   * instructions alone, or followed by the lead's section. `SystemText`
   * spells it out.
   */
  datatype SystemPromptChoice = Standing | StandingWithLead(lead: Lead)

  /** The parameters of `client.messages.stream(...)`. */
  datatype CompletionRequest = CompletionRequest(model: string, maxTokens: int, system: SystemPromptChoice, messages: seq<ChatMessage>)

  const LeadHeading: string := "\n\n## Informations sur l'utilisateur actuel\n"

  function NameLine(l: Lead): string {
    "- Nom : " + Shown(l.name) + "\n"
  }

  function EmailLine(l: Lead): string {
    "- Email : " + Shown(l.email) + "\n"
  }

  const LeadInstruction: string := "Personnalise subtilement tes réponses en utilisant son prénom."

  /** The section that introduces a known user to the assistant. */
  function LeadSection(l: Lead): string {
    LeadHeading + NameLine(l) + EmailLine(l) + LeadInstruction
  }

  /** `prompt`, followed by the lead's section when there is a lead. */
  function WithLead(prompt: string, lead: Option<Lead>): string {
    match lead
    case None => prompt
    case Some(l) => prompt + LeadSection(l)
  }

  /** `systemWithLead`: a truthy `lead` extends the prompt. */
  function SystemWithLead(lead: Option<Lead>): SystemPromptChoice {
    match lead
    case None => Standing
    case Some(l) => StandingWithLead(l)
  }

  /** The text of the system prompt. */
  function SystemText(choice: SystemPromptChoice): string {
    match choice
    case Standing => WithLead(SystemPrompt, None)
    case StandingWithLead(l) => WithLead(SystemPrompt, Some(l))
  }

  /** The history as the handler forwards it: each `{role, content}` copied field by field. */
  function Forwarded(messages: seq<ChatMessage>): (r: seq<ChatMessage>)
    ensures r == messages
  {
    var r := seq(|messages|, i requires 0 <= i < |messages| => ChatMessage(messages[i].role, messages[i].content));
    assert forall i | 0 <= i < |r| :: r[i] == messages[i];
    r
  }

  /** Whether the request passes the handler's three checks. */
  predicate Accepted(req: ChatRequest, apiKey: Option<string>) {
    req.httpMethod == "POST" && req.messages.Some? && Truthy(apiKey)
  }

  /** The completion call the handler makes, if it gets that far. */
  function CompletionCall(req: ChatRequest, apiKey: Option<string>): Option<CompletionRequest> {
    if Accepted(req, apiKey) then
      Some(CompletionRequest(CompletionModel, MaxTokens, SystemWithLead(req.lead), Forwarded(req.messages.value)))
    else None
  }

  // ---------------------------------------------------------------------------
  // The completion stream, abstractly
  // ---------------------------------------------------------------------------

  datatype Delta = TextDelta(text: string) | OtherDelta
  datatype StreamEvent = ContentBlockDelta(delta: Delta) | OtherEvent

  /** How the stream ended once it was open. */
  datatype StreamEnd = Finished | Broke(thrown: Thrown)

  /** What the completion service did: refuse to open the stream, or send events and then end. */
  datatype Upstream =
    | Refused(thrown: Thrown)
    | Streamed(events: seq<StreamEvent>, end: StreamEnd)

  predicate IsTextDelta(e: StreamEvent) {
    e.ContentBlockDelta? && e.delta.TextDelta?
  }

  /** The texts of the text deltas, in arrival order. */
  function DeltaTexts(events: seq<StreamEvent>): (texts: seq<string>)
    ensures |texts| <= |events|
  {
    if events == [] then []
    else
      var last := events[|events| - 1];
      DeltaTexts(events[..|events| - 1]) + if IsTextDelta(last) then [last.delta.text] else []
  }

  /** Events that arrive later add their texts after the earlier ones: the texts keep arrival order. */
  lemma {:induction false} DeltaTextsAppend(a: seq<StreamEvent>, b: seq<StreamEvent>)
    ensures DeltaTexts(a + b) == DeltaTexts(a) + DeltaTexts(b)
    decreases |b|
  {
    if b == [] {
      assert a + b == a;
    } else {
      var init := b[..|b| - 1];
      assert (a + b)[..|a + b| - 1] == a + init;
      DeltaTextsAppend(a, init);
    }
  }

  /** A single event contributes its text exactly when it is a text delta. */
  lemma DeltaTextsOfOne(e: StreamEvent)
    ensures IsTextDelta(e) ==> DeltaTexts([e]) == [e.delta.text]
    ensures !IsTextDelta(e) ==> DeltaTexts([e]) == []
  {
    assert [e][..0] == [];
  }

  // ---------------------------------------------------------------------------
  // Server-sent events
  // ---------------------------------------------------------------------------

  /** One server-sent event. */
  function Frame(payload: string): string {
    "data: " + payload + "\n\n"
  }

  function TextFrame(text: string): string {
    Frame(ObjectWithString("text", text))
  }

  function ErrorFrame(message: string): string {
    Frame(ObjectWithString("error", message))
  }

  const DoneFrame: string := Frame("[DONE]")

  /** The frames the loop writes for `events`: one per text delta, nothing for the other events. */
  function TextFrames(events: seq<StreamEvent>): seq<string> {
    if events == [] then []
    else
      var last := events[|events| - 1];
      TextFrames(events[..|events| - 1]) + if IsTextDelta(last) then [TextFrame(last.delta.text)] else []
  }

  // ---------------------------------------------------------------------------
  // The response
  // ---------------------------------------------------------------------------

  /** What the handler has done to its response: status, frames written, the written flag, a JSON body, ended. */
  datatype Response = Response(status: int, frames: seq<string>, written: bool, json: Option<JsonBody>, ended: bool)

  const Untouched: Response := Response(200, [], false, None, false)

  /** `res.status(status).json(body)`, which writes and ends the response. */
  function JsonReply(reply: Reply): Response {
    Response(reply.status, [], true, Some(reply.body), true)
  }

  /** The `catch` block, applied to the response as it stands. */
  function Caught(r: Response, thrown: Thrown): Response {
    var message := CaughtMessage(thrown, "Erreur serveur interne");
    if !r.written then JsonReply(Reply(500, ErrorBody(message)))
    else r.(frames := r.frames + [ErrorFrame(message)], ended := true)
  }

  /** The response as it stands after the loop has relayed `events`. */
  function Relayed(events: seq<StreamEvent>): Response {
    Untouched.(frames := TextFrames(events), written := TextFrames(events) != [])
  }

  /** The handler's whole effect on the response. */
  function Respond(req: ChatRequest, apiKey: Option<string>, upstream: Upstream): Response {
    if req.httpMethod != "POST" then JsonReply(MethodNotAllowed)
    else if req.messages.None? then JsonReply(Reply(400, ErrorBody("Messages requis")))
    else if !Truthy(apiKey) then JsonReply(Reply(500, ErrorBody("Clé API Anthropic non configurée")))
    else
      match upstream
      case Refused(thrown) => Caught(Untouched, thrown)
      case Streamed(events, end) =>
        match end
        case Finished => Relayed(events).(frames := TextFrames(events) + [DoneFrame], written := true, ended := true)
        case Broke(thrown) => Caught(Relayed(events), thrown)
  }

  /** The response object, updated in place by the handler. */
  class ServerResponse {
    var statusCode: int
    var frames: seq<string>
    var headersSent: bool
    var json: Option<JsonBody>
    var ended: bool

    function State(): Response
      reads this
    {
      Response(statusCode, frames, headersSent, json, ended)
    }

    constructor()
      ensures State() == Untouched
    {
      statusCode := 200;
      frames := [];
      headersSent := false;
      json := None;
      ended := false;
    }

    /** `res.write(chunk)`: sends the headers if they were not sent yet. */
    method Write(chunk: string)
      requires !ended
      modifies this
      ensures State() == old(State()).(frames := old(frames) + [chunk], written := true)
    {
      frames := frames + [chunk];
      headersSent := true;
    }

    /** `res.end()`. */
    method End()
      requires !ended
      modifies this
      ensures State() == old(State()).(ended := true)
    {
      ended := true;
    }

    /** `res.status(status).json(body)`; only possible while nothing has been sent. */
    method StatusJson(status: int, body: JsonBody)
      requires !headersSent
      modifies this
      ensures State() == Response(status, old(frames), true, Some(body), true)
    {
      statusCode := status;
      json := Some(body);
      headersSent := true;
      ended := true;
    }
  }

  /** The `catch (error)` block. */
  method Fail(res: ServerResponse, thrown: Thrown)
    requires !res.ended && (res.headersSent <==> res.frames != [])
    modifies res
    ensures res.State() == Caught(old(res.State()), thrown)
  {
    var message := CaughtMessage(thrown, "Erreur serveur interne");
    if !res.headersSent {
      res.StatusJson(500, ErrorBody(message));
      return;
    }
    res.Write(ErrorFrame(message));
    res.End();
  }

  /**
   * `handler(req, res)`: the checks, the completion call (returned, as the
   * request the service receives), and the event loop.
   */
  method Handle(req: ChatRequest, apiKey: Option<string>, upstream: Upstream, res: ServerResponse)
    returns (sent: Option<CompletionRequest>)
    requires res.State() == Untouched
    modifies res
    ensures sent == CompletionCall(req, apiKey)
    ensures res.State() == Respond(req, apiKey, upstream)
  {
    sent := None;
    if req.httpMethod != "POST" {
      res.StatusJson(405, ErrorBody("Method not allowed"));
      return;
    }
    if req.messages.None? {
      res.StatusJson(400, ErrorBody("Messages requis"));
      return;
    }
    if !Truthy(apiKey) {
      res.StatusJson(500, ErrorBody("Clé API Anthropic non configurée"));
      return;
    }
    sent := Some(CompletionRequest(CompletionModel, MaxTokens, SystemWithLead(req.lead), Forwarded(req.messages.value)));
    match upstream {
      case Refused(thrown) =>
        Fail(res, thrown);
      case Streamed(events, end) =>
        var i := 0;
        while i < |events|
          invariant 0 <= i <= |events|
          invariant res.State() == Relayed(events[..i])
        {
          assert events[..i + 1][..i] == events[..i];
          var event := events[i];
          if IsTextDelta(event) {
            res.Write(TextFrame(event.delta.text));
          }
          i := i + 1;
        }
        assert events[..i] == events;
        match end {
          case Finished =>
            res.Write(DoneFrame);
            res.End();
          case Broke(thrown) =>
            Fail(res, thrown);
        }
    }
  }

  // ---------------------------------------------------------------------------
  // What the handler guarantees
  // ---------------------------------------------------------------------------

  /** The prompt is the standing one exactly when there is no lead, and a lead's section only extends it. */
  lemma LeadExtendsPrompt(prompt: string, lead: Option<Lead>)
    ensures WithLead(prompt, lead) == prompt <==> lead.None?
    ensures StartsWith(WithLead(prompt, lead), prompt)
  {
    var t := WithLead(prompt, lead);
    assert t[..|prompt|] == prompt;
    if lead.Some? {
      assert |t| > |prompt|;
    }
  }

  /** The lead's section names the user and gives their email. */
  lemma LeadSectionNamesUser(prompt: string, l: Lead)
    ensures Contains(WithLead(prompt, Some(l)), NameLine(l))
    ensures Contains(WithLead(prompt, Some(l)), EmailLine(l))
  {
    var name, email := NameLine(l), EmailLine(l);
    assert WithLead(prompt, Some(l)) == (prompt + LeadHeading) + name + email + LeadInstruction;
    MiddlePartsContained(prompt + LeadHeading, name, email, LeadInstruction);
  }

  lemma MiddlePartsContained(a: string, b: string, c: string, d: string)
    ensures Contains(a + b + c + d, b) && Contains(a + b + c + d, c)
  {
    assert a + b + c + d == a + b + (c + d);
    ContainsPart(a, b, c + d);
    ContainsPart(a + b, c, d);
  }

  /**
   * The checks run in a fixed order (method, then messages, then key); a
   * request that fails one is answered with JSON, is never forwarded, and
   * gets the same answer whatever the completion service would have done.
   */
  lemma ChecksInOrder(req: ChatRequest, apiKey: Option<string>, upstream: Upstream, other: Upstream)
    ensures req.httpMethod != "POST" ==> Respond(req, apiKey, upstream) == JsonReply(MethodNotAllowed)
    ensures req.httpMethod == "POST" && req.messages.None? ==>
      Respond(req, apiKey, upstream) == JsonReply(Reply(400, ErrorBody("Messages requis")))
    ensures req.httpMethod == "POST" && req.messages.Some? && !Truthy(apiKey) ==>
      Respond(req, apiKey, upstream) == JsonReply(Reply(500, ErrorBody("Clé API Anthropic non configurée")))
    ensures CompletionCall(req, apiKey).Some? <==> Accepted(req, apiKey)
    ensures !Accepted(req, apiKey) ==> Respond(req, apiKey, upstream) == Respond(req, apiKey, other)
  {
  }

  /** An accepted request forwards its history unchanged, with the fixed model and token limit. */
  lemma AcceptedForwarded(req: ChatRequest, apiKey: Option<string>)
    requires Accepted(req, apiKey)
    ensures CompletionCall(req, apiKey) == Some(CompletionRequest(CompletionModel, MaxTokens, SystemWithLead(req.lead), req.messages.value))
  {
  }

  /** The text frames are the deltas' texts, one frame per delta, in arrival order. */
  lemma {:induction false} FramesPerDelta(events: seq<StreamEvent>)
    ensures |TextFrames(events)| == |DeltaTexts(events)|
    ensures forall k | 0 <= k < |DeltaTexts(events)| :: TextFrames(events)[k] == TextFrame(DeltaTexts(events)[k])
    decreases |events|
  {
    if events != [] {
      FramesPerDelta(events[..|events| - 1]);
    }
  }

  const TextHead: string := "data: " + "{\"" + "text" + "\":\""
  const FrameTail: string := "\"}" + "\n\n"

  /** How a client reads a text frame back: the unescaped text, or None for any other frame. */
  function ReadTextFrame(f: string): Option<string> {
    if |f| >= |TextHead| + |FrameTail| && f[..|TextHead|] == TextHead && f[|f| - |FrameTail|..] == FrameTail
    then Unescape(f[|TextHead|..|f| - |FrameTail|])
    else None
  }

  lemma Regroup(a: string, b: string, k: string, c: string, v: string, d: string, g: string)
    ensures a + (b + k + c + v + d) + g == (a + b + k + c) + v + (d + g)
  {
  }

  lemma TextFrameParts(text: string)
    ensures TextFrame(text) == TextHead + Escape(text) + FrameTail
  {
    EscapePlain("text");
    Regroup("data: ", "{\"", Escape("text"), "\":\"", Escape(text), "\"}", "\n\n");
  }

  /** A text frame reads back as its text. */
  lemma TextFrameReadBack(text: string)
    ensures ReadTextFrame(TextFrame(text)) == Some(text)
  {
    TextFrameParts(text);
    var e := Escape(text);
    var f := TextHead + e + FrameTail;
    assert f[..|TextHead|] == TextHead;
    assert f[|f| - |FrameTail|..] == FrameTail;
    assert f[|TextHead|..|f| - |FrameTail|] == e;
    UnescapeEscape(text);
  }

  /** The `[DONE]` and error frames are never read as text. */
  lemma OtherFramesReadNothing(message: string)
    ensures ReadTextFrame(DoneFrame) == None
    ensures ReadTextFrame(ErrorFrame(message)) == None
  {
    assert TextHead[6] == '{' && TextHead[8] == 't';
    assert |DoneFrame| < |TextHead|;
    var f := ErrorFrame(message);
    EscapePlain("error");
    assert f[8] == 'e';
    if |f| >= |TextHead| {
      assert f[..|TextHead|][8] == 'e';
    }
  }

  /** A client reading the text frames in order gets the deltas back, in order. */
  lemma ClientReadsDeltas(events: seq<StreamEvent>)
    ensures |TextFrames(events)| == |DeltaTexts(events)|
    ensures forall k | 0 <= k < |TextFrames(events)| :: ReadTextFrame(TextFrames(events)[k]) == Some(DeltaTexts(events)[k])
  {
    FramesPerDelta(events);
    forall k | 0 <= k < |TextFrames(events)|
      ensures ReadTextFrame(TextFrames(events)[k]) == Some(DeltaTexts(events)[k])
    {
      TextFrameReadBack(DeltaTexts(events)[k]);
    }
  }

  /** `[DONE]` is not among the text frames. */
  lemma DoneNotText(events: seq<StreamEvent>)
    ensures DoneFrame !in TextFrames(events)
  {
    ClientReadsDeltas(events);
    OtherFramesReadNothing("");
  }

  /** On completion: every text frame, then exactly one `[DONE]`, then the end. */
  lemma StreamFinished(req: ChatRequest, apiKey: Option<string>, events: seq<StreamEvent>)
    requires Accepted(req, apiKey)
    ensures var r := Respond(req, apiKey, Streamed(events, Finished));
      && r.status == 200 && r.json.None? && r.ended
      && r.frames == TextFrames(events) + [DoneFrame]
      && DoneFrame !in TextFrames(events)
  {
    DoneNotText(events);
  }

  /**
   * On failure: a 500 JSON error and no frames when nothing was written yet;
   * otherwise the text frames, exactly one error frame, and the end. Either
   * way `[DONE]` is never written.
   */
  lemma StreamFailed(req: ChatRequest, apiKey: Option<string>, events: seq<StreamEvent>, thrown: Thrown)
    requires Accepted(req, apiKey)
    ensures var r := Respond(req, apiKey, Streamed(events, Broke(thrown)));
      var message := CaughtMessage(thrown, "Erreur serveur interne");
      && (DeltaTexts(events) == [] ==> r == JsonReply(Reply(500, ErrorBody(message))))
      && (DeltaTexts(events) != [] ==>
            r.status == 200 && r.json.None? && r.ended && r.frames == TextFrames(events) + [ErrorFrame(message)])
      && DoneFrame !in r.frames
  {
    assert Respond(req, apiKey, Streamed(events, Broke(thrown))) == Caught(Relayed(events), thrown);
    CaughtAfterRelay(events, thrown);
  }

  /** The failure rule applied to the response the loop left behind. */
  lemma CaughtAfterRelay(events: seq<StreamEvent>, thrown: Thrown)
    ensures var r := Caught(Relayed(events), thrown);
      var message := CaughtMessage(thrown, "Erreur serveur interne");
      && (DeltaTexts(events) == [] ==> r == JsonReply(Reply(500, ErrorBody(message))))
      && (DeltaTexts(events) != [] ==>
            r.status == 200 && r.json.None? && r.ended && r.frames == TextFrames(events) + [ErrorFrame(message)])
      && DoneFrame !in r.frames
  {
    FramesPerDelta(events);
    DoneNotText(events);
    ErrorFrameIsNotDone(CaughtMessage(thrown, "Erreur serveur interne"));
  }

  /** An error frame is never the `[DONE]` frame: their payloads start differently. */
  lemma ErrorFrameIsNotDone(message: string)
    ensures ErrorFrame(message) != DoneFrame
  {
    assert ErrorFrame(message)[6] == '{';
    assert DoneFrame[6] == '[';
  }

  /** A stream that cannot be opened is answered like a failure before anything was written. */
  lemma StreamRefused(req: ChatRequest, apiKey: Option<string>, thrown: Thrown)
    requires Accepted(req, apiKey)
    ensures Respond(req, apiKey, Refused(thrown)) == Respond(req, apiKey, Streamed([], Broke(thrown)))
  {
  }

  /** One server-sent event: `data: `, a payload on one line, and the blank line that ends it. */
  predicate IsEvent(f: string) {
    && |f| >= 8
    && f[..6] == "data: "
    && f[|f| - 2..] == "\n\n"
    && forall i | 6 <= i < |f| - 2 :: f[i] != '\n' && f[i] != '\r'
  }

  lemma FrameIsEvent(payload: string)
    requires '\n' !in payload && '\r' !in payload
    ensures IsEvent(Frame(payload))
  {
    var f := Frame(payload);
    assert forall i | 6 <= i < |f| - 2 :: f[i] == payload[i - 6];
  }

  /** A one-field JSON object written by `JSON.stringify` is one line long. */
  lemma ObjectOnOneLine(key: string, value: string)
    ensures '\n' !in ObjectWithString(key, value) && '\r' !in ObjectWithString(key, value)
  {
    EscapeHasNoLineBreak(key);
    EscapeHasNoLineBreak(value);
  }

  lemma {:induction false} TextFramesAreEvents(events: seq<StreamEvent>)
    ensures forall f | f in TextFrames(events) :: IsEvent(f)
    decreases |events|
  {
    if events != [] {
      TextFramesAreEvents(events[..|events| - 1]);
      var last := events[|events| - 1];
      if IsTextDelta(last) {
        ObjectOnOneLine("text", last.delta.text);
        FrameIsEvent(ObjectWithString("text", last.delta.text));
      }
    }
  }

  lemma ClosingFramesAreEvents(message: string)
    ensures IsEvent(DoneFrame) && IsEvent(ErrorFrame(message))
  {
    FrameIsEvent("[DONE]");
    ObjectOnOneLine("error", message);
    FrameIsEvent(ObjectWithString("error", message));
  }

  /** The `catch` block adds at most one frame, the error event. */
  lemma CaughtFramesAreEvents(r: Response, thrown: Thrown)
    requires forall f | f in r.frames :: IsEvent(f)
    ensures forall f | f in Caught(r, thrown).frames :: IsEvent(f)
  {
    ClosingFramesAreEvents(CaughtMessage(thrown, "Erreur serveur interne"));
  }

  /** Every frame the handler writes is exactly one server-sent event. */
  lemma EveryFrameIsAnEvent(req: ChatRequest, apiKey: Option<string>, upstream: Upstream)
    ensures forall f | f in Respond(req, apiKey, upstream).frames :: IsEvent(f)
  {
    if Accepted(req, apiKey) {
      match upstream
      case Refused(thrown) =>
        CaughtFramesAreEvents(Untouched, thrown);
      case Streamed(events, end) =>
        TextFramesAreEvents(events);
        match end
        case Finished =>
          ClosingFramesAreEvents("");
        case Broke(thrown) =>
          CaughtFramesAreEvents(Relayed(events), thrown);
    }
  }
}

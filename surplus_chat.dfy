/**
 * The support chat widget's session: the conversation shown to the user, the
 * guided "declare a surplus" dialogue (type, quantity, state, location), the
 * running impact total, and the open conversation forwarded to the chat relay.
 *
 * Each handler is modelled as one atomic update, its `setTimeout` continuation
 * included: the input box and the send button are disabled while the bot is
 * "typing", so no other handler runs in between.
 */
module SurplusChat {
  import opened Wrappers
  import opened Strings
  import opened Http
  import opened SurplusQuantity
  import opened SurplusCo2

  // ---------------------------------------------------------------------------
  // Messages
  // ---------------------------------------------------------------------------

  datatype Sender = Bot | User

  /**
   * The greeting's id is '1'; every other message gets `Date.now().toString() +
   * Math.random()`, a string with a decimal point that is never '1'.
   */
  datatype MessageId = GreetingId | StampedId

  /**
   * The widget's fixed lines; `LineText` spells each out. A message keeps which
   * line it shows (with the line's slots filled) rather than the spelled-out text.
   */
  datatype Line =
    | GreetingLine
    | AskQuantityLine(materialType: string)
    | AskStateLine
    | QuantityNotUnderstoodLine
    | AskLocationLine
    | SummaryLine(finalData: SurplusData, co2: int)
    | SurplusRequestLine
    | SurplusIntroLine
    | ImpactRequestLine
    | ImpactRecapLine
    | NoImpactYetLine
    | TransportRequestLine
    | TransportHelpLine
    | ApologyLine

  /** What a message shows: text typed by the user or received from the relay, or one of the fixed lines. */
  datatype Content = Said(text: string) | Canned(line: Line)

  datatype Message = Message(id: MessageId, content: Content, sender: Sender)

  const Greeting: Message := Message(GreetingId, Canned(GreetingLine), Bot)

  function UserSays(content: Content): Message {
    Message(StampedId, content, User)
  }

  function BotSays(content: Content): Message {
    Message(StampedId, content, Bot)
  }

  /** The text a message shows. */
  function Text(m: Message): string {
    match m.content
    case Said(text) => text
    case Canned(line) => LineText(line)
  }

  // ---------------------------------------------------------------------------
  // The bot's texts
  // ---------------------------------------------------------------------------

  /** The exact wording of each fixed line. */
  function LineText(line: Line): string {
    match line
    case GreetingLine =>
      "Bonjour ! Je suis Eco-Assist Master, votre assistant expert en économie circulaire pour le BTP. Comment puis-je vous aider aujourd'hui ?"
    case AskQuantityLine(materialType) =>
      "Parfait, " + materialType + " ! Quelle quantité avez-vous à déclarer ? (en kg ou tonnes, par exemple \"500 kg\" ou \"2 tonnes\")"
    case AskStateLine => "Super ! Quel est l'état du matériau ? (neuf, bon état, à restaurer)"
    case QuantityNotUnderstoodLine => "Je n'ai pas bien compris la quantité. Pouvez-vous préciser ? (ex: 500 kg, 2 tonnes)"
    case AskLocationLine => "Dernière étape ! Où se trouve le matériau ? (ville ou adresse du chantier)"
    case SummaryLine(finalData, co2) => Summary(finalData, co2)
    case SurplusRequestLine => "Je voudrais déclarer un surplus de matériaux"
    case SurplusIntroLine =>
      "Excellent choix pour la planète ! En déclarant vos surplus, vous contribuez activement à l'économie circulaire du BTP.\n\nQuel type de matériau souhaitez-vous déclarer ? (ex: béton, acier, bois, isolant, parpaings...)"
    case ImpactRequestLine => "Je voudrais connaître mon impact environnemental"
    case ImpactRecapLine => "Voici le récapitulatif de votre contribution à l'économie circulaire :"
    case NoImpactYetLine =>
      "Vous n'avez pas encore déclaré de surplus de matériaux. Commencez dès maintenant pour suivre votre impact positif sur l'environnement !\n\nChaque kg de matériau réemployé, c'est du CO2 évité."
    case TransportRequestLine => "J'ai besoin d'aide pour le transport"
    case TransportHelpLine =>
      "Je peux vous aider à trouver la solution logistique adaptée !\n\nPour vous orienter, j'aurais besoin de quelques informations :\n- Poids et volume approximatifs\n- Adresse de départ et d'arrivée\n- Contraintes d'accès (hauteur, largeur, grue nécessaire ?)\n\nDécrivez-moi votre besoin et je vous proposerai des solutions adaptées."
    case ApologyLine => "Désolé, je rencontre un problème technique. Pouvez-vous réessayer ?"
  }

  /** `s` without its trailing `0` characters. */
  function DropTrailingZeros(s: string): (r: string)
    ensures |r| <= |s| && forall i | 0 <= i < |r| :: r[i] == s[i]
    ensures r == [] || r[|r| - 1] != '0'
  {
    if s != [] && s[|s| - 1] == '0' then DropTrailingZeros(s[..|s| - 1]) else s
  }

  /** The digits after the decimal point of a number of thousandths `f`, trailing zeros dropped. */
  function FractionText(f: nat): string
    requires f < 1000
  {
    if f == 0 then ""
    else "." + DropTrailingZeros([DigitChar(f / 100), DigitChar(f / 10 % 10), DigitChar(f % 10)])
  }

  /** `toLocaleString()` without digit grouping: rounded to at most three decimals. */
  function NumberText(x: real): string {
    if x < 0.0 then "-" + UnsignedText(-x) else UnsignedText(x)
  }

  function UnsignedText(x: real): string
    requires x >= 0.0
  {
    ThousandthsText(Round(x * 1000.0))
  }

  /** A number of thousandths `m` written with a decimal point. */
  function ThousandthsText(m: nat): string {
    DecimalString(m / 1000) + FractionText(m % 1000)
  }

  lemma ThousandfoldRound(n: nat)
    ensures Round(n as real * 1000.0) == n * 1000
  {
    assert n as real * 1000.0 == (n * 1000) as real;
  }

  lemma UnsignedWhole(n: nat)
    ensures UnsignedText(n as real) == ThousandthsText(n * 1000)
  {
    ThousandfoldRound(n);
  }

  lemma WholeThousandths(n: nat)
    ensures ThousandthsText(n * 1000) == DecimalString(n) + FractionText(0)
  {
    assert (n * 1000) / 1000 == n && (n * 1000) % 1000 == 0;
  }

  /** A whole number is shown as its plain decimal digits. */
  lemma NumberTextOfNat(n: nat)
    ensures NumberText(n as real) == DecimalString(n)
  {
    UnsignedWhole(n);
    WholeThousandths(n);
    assert FractionText(0) == "";
    assert DecimalString(n) + "" == DecimalString(n);
  }

  /** The estimate's equivalent in car kilometres: `Math.round(co2Saved / 0.12)`. */
  function CarKilometres(co2: int): int {
    Round(co2 as real / 0.12)
  }

  /** The summary the bot sends once the location is given. */
  function Summary(d: SurplusData, co2: int): string {
    "Excellent choix pour la planète ! Votre déclaration est enregistrée :\n\n"
    + "- Matériau : " + Shown(d.materialType) + "\n"
    + "- Quantité : " + (if d.quantity.Some? then NumberText(d.quantity.value) else "undefined") + " kg\n"
    + "- État : " + Shown(d.state) + "\n"
    + "- Localisation : " + Shown(d.location) + "\n\n"
    + "Impact estimé : " + NumberText(co2 as real) + " kg de CO2 évités ! C'est l'équivalent de "
    + NumberText(CarKilometres(co2) as real) + " km en voiture."
  }

  // ---------------------------------------------------------------------------
  // Session state
  // ---------------------------------------------------------------------------

  /** The active quick-reply flow; `NoFlow` is `null`. */
  datatype Flow = NoFlow | SurplusFlow | ImpactFlow | TransportFlow

  /** The three quick-reply buttons. */
  datatype QuickReply = SurplusReply | ImpactReply | TransportReply

  datatype Step = TypeStep | QuantityStep | StateStep | LocationStep | CompleteStep

  /** The position of a step in the dialogue. */
  function Rank(step: Step): nat {
    match step
    case TypeStep => 0
    case QuantityStep => 1
    case StateStep => 2
    case LocationStep => 3
    case CompleteStep => 4
  }

  /** The dialogue's working record. */
  datatype SurplusData = SurplusData(
    step: Step,
    materialType: Option<string>,
    quantity: Option<real>,
    unit: Option<string>,
    state: Option<string>,
    location: Option<string>)

  /** `{ step: 'type' }`. */
  const InitialSurplus: SurplusData := SurplusData(TypeStep, None, None, None, None, None)

  /** The session's running total. */
  datatype Impact = Impact(kgSaved: real, co2Avoided: int)

  /** The widget's state: the fields its handlers update. */
  datatype Session = Session(
    messages: seq<Message>,
    surplusData: SurplusData,
    userImpact: Impact,
    currentFlow: Flow,
    showQuickReplies: bool)

  const InitialSession: Session := Session([Greeting], InitialSurplus, Impact(0.0, 0), NoFlow, true)

  /** The working record at rest: each step has filled exactly the fields before it. */
  predicate WellFormed(d: SurplusData) {
    match d.step
    case TypeStep => d == InitialSurplus
    case QuantityStep =>
      d.materialType.Some? && d.quantity.None? && d.unit.None? && d.state.None? && d.location.None?
    case StateStep =>
      d.materialType.Some? && d.quantity.Some? && d.quantity.value >= 0.0 && d.unit == Some("kg")
      && d.state.None? && d.location.None?
    case LocationStep =>
      d.materialType.Some? && d.quantity.Some? && d.quantity.value >= 0.0 && d.unit == Some("kg")
      && d.state.Some? && d.location.None?
    case CompleteStep => false
  }

  /** What holds of the widget between two handlers. */
  predicate ValidSession(s: Session) {
    && |s.messages| >= 1
    && s.messages[0] == Greeting
    && (forall i | 1 <= i < |s.messages| :: s.messages[i].id == StampedId)
    && (s.currentFlow == NoFlow || s.currentFlow == SurplusFlow)
    && (s.currentFlow == NoFlow ==> s.surplusData == InitialSurplus)
    && (s.showQuickReplies ==> s.currentFlow == NoFlow)
    && WellFormed(s.surplusData)
    && s.userImpact.kgSaved >= 0.0
    && s.userImpact.co2Avoided >= 0
  }

  // ---------------------------------------------------------------------------
  // The handlers, as functions of the state
  // ---------------------------------------------------------------------------

  /** `finalData`: the record once the location is given. */
  function Declared(d: SurplusData, location: string): SurplusData {
    d.(location := Some(location), step := CompleteStep)
  }

  /** `calculateCO2(finalData.type || '', finalData.quantity || 0)`. */
  function DeclaredCo2(finalData: SurplusData): int {
    Co2Saved(finalData.materialType.GetOr(""), finalData.quantity.GetOr(0.0))
  }

  /** The running total with one more declaration folded in. */
  function AddDeclaration(impact: Impact, finalData: SurplusData): Impact {
    Impact(impact.kgSaved + finalData.quantity.GetOr(0.0), impact.co2Avoided + DeclaredCo2(finalData))
  }

  /** The record after an answer; once the location is given it starts over. */
  function NextData(d: SurplusData, input: string): SurplusData {
    match d.step
    case TypeStep => d.(materialType := Some(input), step := QuantityStep)
    case QuantityStep =>
      (match ParseQuantity(input)
       case Some(qty) => d.(quantity := Some(qty), unit := Some("kg"), step := StateStep)
       case None => d)
    case StateStep => d.(state := Some(input), step := LocationStep)
    case LocationStep => InitialSurplus
    case CompleteStep => d
  }

  /** The bot's answer to the user's answer. */
  function BotAnswer(d: SurplusData, input: string): Line {
    match d.step
    case TypeStep => AskQuantityLine(input)
    case QuantityStep => if ParseQuantity(input).Some? then AskStateLine else QuantityNotUnderstoodLine
    case StateStep => AskLocationLine
    case LocationStep => SummaryLine(Declared(d, input), DeclaredCo2(Declared(d, input)))
    case CompleteStep => AskStateLine   // not reached: the complete step sends nothing
  }

  /**
   * `handleSurplusFlow(input)`: one answer of the guided dialogue. Nothing
   * happens at the `complete` step, which the switch has no case for.
   */
  function SurplusStep(s: Session, input: string): Session {
    var d := s.surplusData;
    if d.step == CompleteStep then s
    else
      var completes := d.step == LocationStep;
      s.(messages := s.messages + [UserSays(Said(input)), BotSays(Canned(BotAnswer(d, input)))],
         surplusData := NextData(d, input),
         userImpact := if completes then AddDeclaration(s.userImpact, Declared(d, input)) else s.userImpact,
         currentFlow := if completes then NoFlow else s.currentFlow,
         showQuickReplies := if completes then true else s.showQuickReplies)
  }

  /** `handleQuickReply(type)`. */
  function QuickReplyStep(s: Session, reply: QuickReply): Session {
    match reply
    case SurplusReply =>
      s.(messages := s.messages + [UserSays(Canned(SurplusRequestLine)), BotSays(Canned(SurplusIntroLine))],
         currentFlow := SurplusFlow, showQuickReplies := false)
    case ImpactReply =>
      var answer := if s.userImpact.kgSaved > 0.0 then ImpactRecapLine else NoImpactYetLine;
      s.(messages := s.messages + [UserSays(Canned(ImpactRequestLine)), BotSays(Canned(answer))],
         currentFlow := NoFlow, showQuickReplies := true)
    case TransportReply =>
      s.(messages := s.messages + [UserSays(Canned(TransportRequestLine)), BotSays(Canned(TransportHelpLine))],
         currentFlow := NoFlow, showQuickReplies := false)
  }

  /** The role a message has in the relay's history. */
  function ApiRole(sender: Sender): string {
    if sender == User then "user" else "assistant"
  }

  function ToApi(m: Message): ChatMessage {
    ChatMessage(ApiRole(m.sender), Text(m))
  }

  /** `callClaudeAPI`'s history: the greeting dropped, the rest mapped to role and content. */
  function ApiHistory(history: seq<Message>): (r: seq<ChatMessage>)
    ensures |r| <= |history|
    ensures forall i | 0 <= i < |r| :: r[i].role == "user" || r[i].role == "assistant"
  {
    if history == [] then []
    else (if history[0].id == GreetingId then [] else [ToApi(history[0])]) + ApiHistory(history[1..])
  }

  /** The messages posted to the relay for one user turn. */
  function ApiRequestMessages(history: seq<Message>, userText: string): seq<ChatMessage> {
    ApiHistory(history) + [ChatMessage("user", userText)]
  }

  /** The bot's message after a relay call: the relay's text, or the apology when the call failed. */
  function RelayAnswer(reply: Option<string>): Content {
    match reply
    case Some(text) => Said(text)
    case None => Canned(ApologyLine)
  }

  /**
   * `handleSend(text)`. `reply` is what `callClaudeAPI` got back: the relay's
   * text, or None when the call threw (network failure, a non-2xx status, or a
   * body that is not the expected JSON).
   */
  function SendStep(s: Session, text: string, reply: Option<string>): Session {
    var userText := Trim(text);
    if userText == [] then s
    else if s.currentFlow == SurplusFlow then SurplusStep(s, userText)
    else
      s.(messages := s.messages + [UserSays(Said(userText)), BotSays(RelayAnswer(reply))],
         showQuickReplies := true)
  }

  /** The history `handleSend` posts to the relay, if it posts one. */
  function SendRequest(s: Session, text: string): Option<seq<ChatMessage>> {
    var userText := Trim(text);
    if userText == [] || s.currentFlow == SurplusFlow then None
    else Some(ApiRequestMessages(s.messages, userText))
  }

  // ---------------------------------------------------------------------------
  // The widget
  // ---------------------------------------------------------------------------

  /** The quantity step spelled out: the answer is stored only when it parses. */
  lemma QuantityAnswer(s: Session, input: string)
    requires s.surplusData.step == QuantityStep
    ensures var parsed := ParseQuantity(input);
      SurplusStep(s, input) ==
      if parsed.Some? then
        s.(messages := s.messages + [UserSays(Said(input)), BotSays(Canned(AskStateLine))],
           surplusData := s.surplusData.(quantity := Some(parsed.value), unit := Some("kg"), step := StateStep))
      else
        s.(messages := s.messages + [UserSays(Said(input)), BotSays(Canned(QuantityNotUnderstoodLine))])
  {
  }

  class ChatSession {
    var messages: seq<Message>
    var surplusData: SurplusData
    var userImpact: Impact
    var currentFlow: Flow
    var showQuickReplies: bool

    function State(): Session
      reads this
    {
      Session(messages, surplusData, userImpact, currentFlow, showQuickReplies)
    }

    predicate Valid()
      reads this
    {
      ValidSession(State())
    }

    constructor()
      ensures State() == InitialSession
      ensures Valid()
    {
      messages := [Greeting];
      surplusData := InitialSurplus;
      userImpact := Impact(0.0, 0);
      currentFlow := NoFlow;
      showQuickReplies := true;
    }

    /** `addMessage(text, sender)`: appends one message with a fresh id. */
    method AddMessage(content: Content, sender: Sender)
      modifies this
      ensures messages == old(messages) + [Message(StampedId, content, sender)]
      ensures surplusData == old(surplusData) && userImpact == old(userImpact)
      ensures currentFlow == old(currentFlow) && showQuickReplies == old(showQuickReplies)
    {
      messages := messages + [Message(StampedId, content, sender)];
    }

    /** `handleSurplusFlow(input)`: the switch on the dialogue's step. */
    method HandleSurplusFlow(input: string)
      modifies this
      ensures State() == SurplusStep(old(State()), input)
    {
      match surplusData.step {
        case TypeStep => AnswerType(input);
        case QuantityStep => AnswerQuantity(input);
        case StateStep => AnswerState(input);
        case LocationStep => AnswerLocation(input);
        case CompleteStep =>
      }
    }

    /** `case 'type'`. */
    method AnswerType(input: string)
      requires surplusData.step == TypeStep
      modifies this
      ensures State() == SurplusStep(old(State()), input)
    {
      surplusData := surplusData.(materialType := Some(input), step := QuantityStep);
      AddMessage(Said(input), User);
      AddMessage(Canned(AskQuantityLine(input)), Bot);
    }

    /** `case 'quantity'`. */
    method AnswerQuantity(input: string)
      requires surplusData.step == QuantityStep
      modifies this
      ensures State() == SurplusStep(old(State()), input)
    {
      QuantityAnswer(State(), input);
      var parsed := ParseQuantity(input);
      if parsed.Some? {
        AcceptQuantity(input, parsed.value);
      } else {
        RejectQuantity(input);
      }
    }

    /** The `if (match)` branch: the quantity is stored and the bot asks for the state. */
    method AcceptQuantity(input: string, qty: real)
      modifies this
      ensures State() == old(State()).(
        messages := old(messages) + [UserSays(Said(input)), BotSays(Canned(AskStateLine))],
        surplusData := old(surplusData).(quantity := Some(qty), unit := Some("kg"), step := StateStep))
    {
      surplusData := surplusData.(quantity := Some(qty), unit := Some("kg"), step := StateStep);
      AddMessage(Said(input), User);
      AddMessage(Canned(AskStateLine), Bot);
    }

    /** The `else` branch: only the two messages are added. */
    method RejectQuantity(input: string)
      modifies this
      ensures State() == old(State()).(
        messages := old(messages) + [UserSays(Said(input)), BotSays(Canned(QuantityNotUnderstoodLine))])
    {
      AddMessage(Said(input), User);
      AddMessage(Canned(QuantityNotUnderstoodLine), Bot);
    }

    /** `case 'state'`. */
    method AnswerState(input: string)
      requires surplusData.step == StateStep
      modifies this
      ensures State() == SurplusStep(old(State()), input)
    {
      surplusData := surplusData.(state := Some(input), step := LocationStep);
      AddMessage(Said(input), User);
      AddMessage(Canned(AskLocationLine), Bot);
    }

    /** `case 'location'`: records the declaration, adds it to the totals and starts over. */
    method AnswerLocation(input: string)
      requires surplusData.step == LocationStep
      modifies this
      ensures State() == SurplusStep(old(State()), input)
    {
      var finalData := surplusData.(location := Some(input), step := CompleteStep);
      surplusData := finalData;
      AddMessage(Said(input), User);
      var co2 := CalculateCO2(finalData.materialType.GetOr(""), finalData.quantity.GetOr(0.0));
      userImpact := Impact(userImpact.kgSaved + finalData.quantity.GetOr(0.0), userImpact.co2Avoided + co2);
      AddMessage(Canned(SummaryLine(finalData, co2)), Bot);
      currentFlow := NoFlow;
      surplusData := InitialSurplus;
      showQuickReplies := true;
    }

    /** `handleQuickReply(type)`; the buttons are only shown while no flow is active. */
    method HandleQuickReply(reply: QuickReply)
      requires showQuickReplies && currentFlow == NoFlow
      modifies this
      ensures State() == QuickReplyStep(old(State()), reply)
    {
      showQuickReplies := false;
      match reply {
        case SurplusReply =>
          currentFlow := SurplusFlow;
          AddMessage(Canned(SurplusRequestLine), User);
          AddMessage(Canned(SurplusIntroLine), Bot);
        case ImpactReply =>
          currentFlow := ImpactFlow;
          AddMessage(Canned(ImpactRequestLine), User);
          if userImpact.kgSaved > 0.0 {
            AddMessage(Canned(ImpactRecapLine), Bot);
          } else {
            AddMessage(Canned(NoImpactYetLine), Bot);
          }
          currentFlow := NoFlow;
          showQuickReplies := true;
        case TransportReply =>
          currentFlow := TransportFlow;
          AddMessage(Canned(TransportRequestLine), User);
          AddMessage(Canned(TransportHelpLine), Bot);
          currentFlow := NoFlow;
          showQuickReplies := false;
      }
    }

    /**
     * `handleSend(text)`: blank input is ignored; inside the surplus flow the
     * trimmed text answers the dialogue; otherwise it is echoed, posted to the
     * relay with the history as it was before the echo, and the reply (or the
     * apology) is appended.
     */
    method HandleSend(text: string, reply: Option<string>) returns (request: Option<seq<ChatMessage>>)
      requires Valid()
      modifies this
      ensures State() == SendStep(old(State()), text, reply)
      ensures request == SendRequest(old(State()), text)
      ensures Valid()
    {
      SendPreservesValid(State(), text, reply);
      var userText := Trim(text);
      if userText == [] {
        return None;
      }
      if currentFlow == SurplusFlow {
        HandleSurplusFlow(userText);
        return None;
      }
      var history := messages;
      AddMessage(Said(userText), User);
      showQuickReplies := false;
      request := Some(ApiRequestMessages(history, userText));
      AddMessage(RelayAnswer(reply), Bot);
      showQuickReplies := true;
    }
  }

  // ---------------------------------------------------------------------------
  // The invariant
  // ---------------------------------------------------------------------------

  lemma InitialSessionValid()
    ensures ValidSession(InitialSession)
  {
  }

  /** Appending two stamped messages keeps the greeting first and the only message with id '1'. */
  lemma AppendTwoKeepsIds(s: seq<Message>, a: Message, b: Message)
    requires |s| >= 1 && s[0] == Greeting
    requires forall i | 1 <= i < |s| :: s[i].id == StampedId
    requires a.id == StampedId && b.id == StampedId
    ensures var t := s + [a, b]; |t| >= 1 && t[0] == Greeting && forall i | 1 <= i < |t| :: t[i].id == StampedId
  {
  }

  lemma SurplusStepPreservesValid(s: Session, input: string)
    requires ValidSession(s) && s.currentFlow == SurplusFlow
    ensures ValidSession(SurplusStep(s, input))
  {
    var d := s.surplusData;
    AppendTwoKeepsIds(s.messages, UserSays(Said(input)), BotSays(Canned(BotAnswer(d, input))));
    if d.step == LocationStep {
      Co2SavedNonNegative(d.materialType.value, d.quantity.value);
    }
  }

  /** The quick replies are only offered while no flow is active. */
  lemma QuickReplyPreservesValid(s: Session, reply: QuickReply)
    requires ValidSession(s) && s.showQuickReplies
    ensures ValidSession(QuickReplyStep(s, reply))
  {
    var r := QuickReplyStep(s, reply);
    AppendTwoKeepsIds(s.messages, r.messages[|s.messages|], r.messages[|s.messages| + 1]);
  }

  lemma SendPreservesValid(s: Session, text: string, reply: Option<string>)
    requires ValidSession(s)
    ensures ValidSession(SendStep(s, text, reply))
  {
    var userText := Trim(text);
    if userText != [] {
      if s.currentFlow == SurplusFlow {
        SurplusStepPreservesValid(s, userText);
      } else {
        AppendTwoKeepsIds(s.messages, UserSays(Said(userText)), BotSays(RelayAnswer(reply)));
      }
    }
  }

  // ---------------------------------------------------------------------------
  // The guided dialogue
  // ---------------------------------------------------------------------------

  /**
   * Every answer echoes the user's text and adds one bot message; the dialogue
   * advances one step, stays put exactly when the quantity cannot be read, and
   * goes back to the start once the location is given.
   */
  lemma DialogueIsLinear(s: Session, input: string)
    requires ValidSession(s) && s.currentFlow == SurplusFlow
    ensures var r := SurplusStep(s, input);
      && |r.messages| == |s.messages| + 2
      && r.messages[..|s.messages|] == s.messages
      && r.messages[|s.messages|] == UserSays(Said(input))
      && r.messages[|s.messages| + 1].sender == Bot
    ensures var d, r := s.surplusData, SurplusStep(s, input).surplusData;
      || Rank(r.step) == Rank(d.step) + 1
      || (r == d && d.step == QuantityStep)
      || (r == InitialSurplus && d.step == LocationStep)
    ensures SurplusStep(s, input).surplusData == s.surplusData
        <==> s.surplusData.step == QuantityStep && ParseQuantity(input).None?
  {
    var d := s.surplusData;
    var r := SurplusStep(s, input);
    assert r.messages == s.messages + [UserSays(Said(input)), BotSays(Canned(BotAnswer(d, input)))];
    assert r.messages[..|s.messages|] == s.messages;
    assert r.surplusData == NextData(d, input);
    NextDataAdvances(d, input);
  }

  /** The record moves one step on, stays put on an unreadable quantity, or starts over after the location. */
  lemma NextDataAdvances(d: SurplusData, input: string)
    requires WellFormed(d)
    ensures var r := NextData(d, input);
      || Rank(r.step) == Rank(d.step) + 1
      || (r == d && d.step == QuantityStep)
      || (r == InitialSurplus && d.step == LocationStep)
    ensures NextData(d, input) == d <==> d.step == QuantityStep && ParseQuantity(input).None?
  {
  }

  /** The type and state answers are stored verbatim in their one field, and nothing else changes. */
  lemma TextAnswersStored(s: Session, input: string)
    requires ValidSession(s) && s.currentFlow == SurplusFlow
    ensures var d, r := s.surplusData, SurplusStep(s, input);
      d.step == TypeStep ==>
        && r.surplusData.step == QuantityStep && r.surplusData.materialType == Some(input)
        && r.surplusData.(step := d.step, materialType := d.materialType) == d
        && r.messages == s.messages + [UserSays(Said(input)), BotSays(Canned(AskQuantityLine(input)))]
        && r.(messages := s.messages, surplusData := d) == s
    ensures var d, r := s.surplusData, SurplusStep(s, input);
      d.step == StateStep ==>
        && r.surplusData.step == LocationStep && r.surplusData.state == Some(input)
        && r.surplusData.(step := d.step, state := d.state) == d
        && r.messages == s.messages + [UserSays(Said(input)), BotSays(Canned(AskLocationLine))]
        && r.(messages := s.messages, surplusData := d) == s
  {
  }

  /** A quantity that can be read is stored in kilograms, with the unit set to "kg". */
  lemma QuantityStored(s: Session, input: string)
    requires ValidSession(s) && s.currentFlow == SurplusFlow
    requires s.surplusData.step == QuantityStep && ParseQuantity(input).Some?
    ensures var d, r := s.surplusData, SurplusStep(s, input);
      && r.surplusData.step == StateStep
      && r.surplusData.quantity == ParseQuantity(input)
      && r.surplusData.unit == Some("kg")
      && r.surplusData.(step := d.step, quantity := d.quantity, unit := d.unit) == d
      && r.messages == s.messages + [UserSays(Said(input)), BotSays(Canned(AskStateLine))]
      && r.(messages := s.messages, surplusData := d) == s
  {
  }

  /** An answer without a digit at the quantity step changes nothing but the two new messages. */
  lemma MalformedQuantityKeepsState(s: Session, input: string)
    requires ValidSession(s) && s.currentFlow == SurplusFlow
    requires s.surplusData.step == QuantityStep
    requires forall i | 0 <= i < |input| :: !IsDigit(input[i])
    ensures SurplusStep(s, input)
         == s.(messages := s.messages + [UserSays(Said(input)), BotSays(Canned(QuantityNotUnderstoodLine))])
  {
  }

  /**
   * The location answer completes the declaration: the totals grow by exactly
   * the stored quantity and its CO2 estimate, the record goes back to
   * `{step: 'type'}`, the flow ends and the quick replies come back.
   */
  lemma LocationCompletes(s: Session, input: string)
    requires ValidSession(s) && s.currentFlow == SurplusFlow
    requires s.surplusData.step == LocationStep
    ensures var d, r := s.surplusData, SurplusStep(s, input);
      && r.userImpact.kgSaved == s.userImpact.kgSaved + d.quantity.value
      && r.userImpact.co2Avoided == s.userImpact.co2Avoided + Co2Saved(d.materialType.value, d.quantity.value)
      && r.surplusData == InitialSurplus
      && r.currentFlow == NoFlow
      && r.showQuickReplies
      && r.messages == s.messages + [UserSays(Said(input)),
           BotSays(Canned(SummaryLine(d.(location := Some(input), step := CompleteStep),
                                      Co2Saved(d.materialType.value, d.quantity.value))))]
  {
  }

  /** Neither running total ever goes down, whatever the user sends or clicks. */
  lemma TotalsNeverDecrease(s: Session, text: string, reply: Option<string>, quick: QuickReply)
    requires ValidSession(s)
    ensures SendStep(s, text, reply).userImpact.kgSaved >= s.userImpact.kgSaved
    ensures SendStep(s, text, reply).userImpact.co2Avoided >= s.userImpact.co2Avoided
    ensures QuickReplyStep(s, quick).userImpact == s.userImpact
  {
    var userText := Trim(text);
    var d := s.surplusData;
    if userText != [] && s.currentFlow == SurplusFlow && d.step == LocationStep {
      Co2SavedNonNegative(d.materialType.value, d.quantity.value);
    }
  }

  // ---------------------------------------------------------------------------
  // Sending
  // ---------------------------------------------------------------------------

  /** Blank input does nothing, and any other input adds two messages. */
  lemma BlankInputIgnored(s: Session, text: string, reply: Option<string>)
    requires ValidSession(s)
    ensures SendStep(s, text, reply) == s <==> forall i | 0 <= i < |text| :: IsSpace(text[i])
    ensures SendRequest(s, text).None? || SendStep(s, text, reply) != s
  {
    TrimEmptyIff(text);
    var userText := Trim(text);
    if userText != [] && s.currentFlow == SurplusFlow {
      DialogueIsLinear(s, userText);
    }
    assert userText != [] ==> |SendStep(s, text, reply).messages| == |s.messages| + 2;
  }

  /**
   * Non-blank input goes to the dialogue exactly when the surplus flow is
   * active; otherwise it is echoed and the relay's reply, or the apology when
   * the call failed, follows it.
   */
  lemma SendRouting(s: Session, text: string, reply: Option<string>)
    requires Trim(text) != []
    ensures s.currentFlow == SurplusFlow ==>
      SendStep(s, text, reply) == SurplusStep(s, Trim(text)) && SendRequest(s, text).None?
    ensures s.currentFlow != SurplusFlow ==>
      && SendStep(s, text, reply).messages == s.messages + [UserSays(Said(Trim(text))), BotSays(RelayAnswer(reply))]
      && SendStep(s, text, reply).(messages := s.messages, showQuickReplies := s.showQuickReplies) == s
      && SendRequest(s, text) == Some(ApiRequestMessages(s.messages, Trim(text)))
  {
  }

  /** The bot shows the relay's text verbatim, and the apology exactly when the call failed. */
  lemma RelayAnswerShown(reply: Option<string>)
    ensures reply.Some? ==> Text(BotSays(RelayAnswer(reply))) == reply.value
    ensures reply.None? ==> Text(BotSays(RelayAnswer(reply))) == "Désolé, je rencontre un problème technique. Pouvez-vous réessayer ?"
  {
  }

  /** Without the greeting, the history maps message for message, in order. */
  lemma {:induction false} ApiHistoryMapsEach(history: seq<Message>)
    requires forall i | 0 <= i < |history| :: history[i].id == StampedId
    ensures |ApiHistory(history)| == |history|
    ensures forall i | 0 <= i < |history| :: ApiHistory(history)[i] == ToApi(history[i])
    decreases |history|
  {
    if history != [] {
      ApiHistoryMapsEach(history[1..]);
    }
  }

  /**
   * The request posted for a turn: every message after the greeting, in order,
   * as `user` for the user's and `assistant` for the bot's, then the new text.
   */
  lemma RequestFollowsConversation(s: Session, text: string)
    requires ValidSession(s) && Trim(text) != [] && s.currentFlow != SurplusFlow
    ensures SendRequest(s, text).Some?
    ensures var req := SendRequest(s, text).value;
      && |req| == |s.messages|
      && (forall i | 0 <= i < |s.messages| - 1 ::
            req[i].content == Text(s.messages[i + 1])
            && (req[i].role == "user" <==> s.messages[i + 1].sender == User))
      && req[|req| - 1] == ChatMessage("user", Trim(text))
  {
    var h := s.messages;
    var api := ApiHistory(h[1..]);
    assert ApiHistory(h) == api;
    ApiHistoryMapsEach(h[1..]);
    var req := api + [ChatMessage("user", Trim(text))];
    assert SendRequest(s, text) == Some(req);
    forall i | 0 <= i < |h| - 1
      ensures req[i].content == Text(h[i + 1]) && (req[i].role == "user" <==> h[i + 1].sender == User)
    {
      assert req[i] == api[i] == ToApi(h[1..][i]);
    }
  }

  // ---------------------------------------------------------------------------
  // A whole declaration
  // ---------------------------------------------------------------------------

  /** The dialogue is active and waiting for the answer to `step`. */
  predicate AwaitsAnswer(s: Session, step: Step) {
    ValidSession(s) && s.currentFlow == SurplusFlow && s.surplusData.step == step
  }

  /** Sending the material: it is stored and the quantity is asked for next. */
  lemma MaterialSent(s: Session, text: string, r: Session)
    requires AwaitsAnswer(s, TypeStep) && Trim(text) != [] && r == SendStep(s, text, None)
    ensures AwaitsAnswer(r, QuantityStep)
    ensures r.surplusData.materialType == Some(Trim(text))
    ensures r.userImpact == s.userImpact && |r.messages| == |s.messages| + 2
  {
    SurplusStepPreservesValid(s, Trim(text));
  }

  /** Sending a quantity that can be read: it is stored and the state is asked for next. */
  lemma QuantitySent(s: Session, text: string, q: real, r: Session)
    requires AwaitsAnswer(s, QuantityStep) && ParseQuantity(Trim(text)) == Some(q) && r == SendStep(s, text, None)
    ensures AwaitsAnswer(r, StateStep)
    ensures r.surplusData.materialType == s.surplusData.materialType && r.surplusData.quantity == Some(q)
    ensures r.userImpact == s.userImpact && |r.messages| == |s.messages| + 2
  {
    assert Trim(text) != [];
    QuantityStored(s, Trim(text));
    SurplusStepPreservesValid(s, Trim(text));
  }

  /** Sending the state: it is stored and the location is asked for next. */
  lemma StateSent(s: Session, text: string, r: Session)
    requires AwaitsAnswer(s, StateStep) && Trim(text) != [] && r == SendStep(s, text, None)
    ensures AwaitsAnswer(r, LocationStep)
    ensures r.surplusData.materialType == s.surplusData.materialType && r.surplusData.quantity == s.surplusData.quantity
    ensures r.userImpact == s.userImpact && |r.messages| == |s.messages| + 2
  {
    SurplusStepPreservesValid(s, Trim(text));
  }

  /** Sending the location: the declaration is added to the totals and the widget is back at rest. */
  lemma LocationSent(s: Session, text: string, r: Session)
    requires AwaitsAnswer(s, LocationStep) && Trim(text) != [] && r == SendStep(s, text, None)
    ensures r.userImpact == AddDeclaration(s.userImpact, Declared(s.surplusData, Trim(text)))
    ensures r.surplusData == InitialSurplus && r.currentFlow == NoFlow && r.showQuickReplies
    ensures |r.messages| == |s.messages| + 2
  {
  }

  /** The surplus button starts the dialogue at its first step, the totals untouched. */
  lemma SurplusButtonPressed(s: Session, r: Session)
    requires ValidSession(s) && s.showQuickReplies && r == QuickReplyStep(s, SurplusReply)
    ensures AwaitsAnswer(r, TypeStep)
    ensures r.userImpact == s.userImpact && |r.messages| == |s.messages| + 2
  {
    QuickReplyPreservesValid(s, SurplusReply);
  }

  /**
   * A whole declaration once the dialogue has started (`s1`): a material
   * (`s2`), a quantity that can be read (`s3`), a state (`s4`) and a location
   * (`s5`). The totals grow by the quantity and its estimate, eight messages
   * are added, and the widget is back at rest.
   */
  lemma WholeDeclaration(material: string, amount: string, condition: string, location: string, q: real,
                         s1: Session, s2: Session, s3: Session, s4: Session, s5: Session)
    requires AwaitsAnswer(s1, TypeStep)
    requires Trim(material) != [] && Trim(condition) != [] && Trim(location) != []
    requires ParseQuantity(Trim(amount)) == Some(q)
    requires s2 == SendStep(s1, material, None) && s3 == SendStep(s2, amount, None)
    requires s4 == SendStep(s3, condition, None) && s5 == SendStep(s4, location, None)
    ensures s5.userImpact.kgSaved == s1.userImpact.kgSaved + q
    ensures s5.userImpact.co2Avoided == s1.userImpact.co2Avoided + Co2Saved(Trim(material), q)
    ensures s5.surplusData == InitialSurplus && s5.currentFlow == NoFlow && s5.showQuickReplies
    ensures |s5.messages| == |s1.messages| + 8
  {
    MaterialSent(s1, material, s2);
    QuantitySent(s2, amount, q, s3);
    StateSent(s3, condition, s4);
    LocationSent(s4, location, s5);
  }

  /** The steel example's material answer is read as it is and weighs 1.8 kg of CO2 per kg. */
  lemma SteelAnswer(material: string)
    requires material == "acier"
    ensures Trim(material) == material && Co2Saved(Trim(material), 500.0) == 900
  {
    TrimFixes(material);
    SteelExample(material);
  }

  /** The steel example's quantity answer is read as 500 kg. */
  lemma AmountAnswer(amount: string)
    requires amount == "500 kg"
    ensures ParseQuantity(Trim(amount)) == Some(500.0)
  {
    TrimFixes(amount);
    KilogramsExample(amount);
  }

  /** The steel example's state and location answers are not blank. */
  lemma PlainAnswers(condition: string, location: string)
    requires condition == "neuf" && location == "Cergy"
    ensures Trim(condition) != [] && Trim(location) != []
  {
    TrimFixes(condition);
    TrimFixes(location);
  }

  /** "acier", "500 kg", "neuf", "Cergy" after the surplus button: 500 kg and 900 kg of CO2 more. */
  lemma SteelDeclaration(material: string, amount: string, condition: string, location: string,
                          s: Session, s1: Session, s2: Session, s3: Session, s4: Session, s5: Session)
    requires material == "acier" && amount == "500 kg" && condition == "neuf" && location == "Cergy"
    requires ValidSession(s) && s.showQuickReplies
    requires s1 == QuickReplyStep(s, SurplusReply)
    requires s2 == SendStep(s1, material, None) && s3 == SendStep(s2, amount, None)
    requires s4 == SendStep(s3, condition, None) && s5 == SendStep(s4, location, None)
    ensures s5.userImpact.kgSaved == s.userImpact.kgSaved + 500.0
    ensures s5.userImpact.co2Avoided == s.userImpact.co2Avoided + 900
    ensures s5.surplusData == InitialSurplus && s5.currentFlow == NoFlow
    ensures |s5.messages| == |s.messages| + 10
  {
    SurplusButtonPressed(s, s1);
    SteelAnswer(material);
    AmountAnswer(amount);
    PlainAnswers(condition, location);
    WholeDeclaration(material, amount, condition, location, 500.0, s1, s2, s3, s4, s5);
  }
}

/**
 * The conversation agent of lib/ai-agent.ts. `createAgent(instructions)`
 * closes its three operations over the instructions; here each operation
 * takes the instructions as a parameter.
 *
 * The OpenAI chat-completion call is an oracle: a function from the exact
 * messages the agent sends to a `Generation`, success with the returned
 * content or failure. Model name, temperature and token limits are
 * backend tuning and are not modelled.
 */
module AiAgent {
  import opened JsString
  import Twilio
  import Options

  datatype Role = System | User | Assistant

  /** One entry of `currentConversation`, and one chat message sent to the backend. */
  datatype Turn = Turn(role: Role, content: string)

  /** `actionRequired`: the action kinds, each with the details it carries. */
  datatype ActionRequired = NoAction | Transfer(reason: string) | Callback | Schedule

  datatype AgentResponse = AgentResponse(message: string, twiML: string, actionRequired: ActionRequired)

  datatype CompanyInfo = CompanyInfo(name: string, description: string, services: seq<string>, contactMethods: seq<string>)

  datatype AgentInstructions = AgentInstructions(
    role: string,
    objective: string,
    persona: string,
    guidelines: seq<string>,
    companyInfo: CompanyInfo)

  /** The `Call` handed to `handleIncomingCall`. */
  datatype IncomingCall = IncomingCall(id: string, from: string, to: string, status: string, direction: string)

  /** `defaultAgentConfig`, the instructions both API routes create their agent with. */
  const DefaultConfig := AgentInstructions(
    "Assistant service client",
    "Aider les clients à résoudre leurs problèmes et répondre à leurs questions",
    "Professionnel, empathique et efficace",
    [ "Écouter attentivement les préoccupations du client",
      "Fournir des informations précises et utiles",
      "Rester poli et professionnel en toutes circonstances",
      "Rediriger vers un agent humain pour les questions complexes" ],
    CompanyInfo(
      "NexCallAI",
      "Plateforme de gestion de centre d'appels alimentée par l'IA",
      [ "Service client automatisé",
        "Gestion d'appels entrants et sortants",
        "Analyse de conversations",
        "Intégration avec des systèmes CRM" ],
      [ "Téléphone: +33 1 23 45 67 89",
        "Email: support@nexcallai.com",
        "Site web: www.nexcallai.com" ]))

  // ---------------------------------------------------------------------------
  // Prompts

  /** The system prompt up to the heading of the guidelines section. */
  function SystemPromptHead(instr: AgentInstructions): string {
    "\nTu es un agent IA de centre d'appel pour " + instr.companyInfo.name + ".\n"
    + "Ton rôle: " + instr.role + "\n"
    + "Ton objectif: " + instr.objective + "\n"
    + "Persona: " + instr.persona + "\n"
    + "\n"
    + "Informations sur l'entreprise:\n"
    + instr.companyInfo.description + "\n"
    + "\n"
    + "Services offerts:\n"
    + Join(instr.companyInfo.services, '\n') + "\n"
    + "\n"
    + "Directives à suivre:"
  }

  /** The system prompt after the guidelines. */
  const SystemPromptTail :=
    "\n"
    + "Parle toujours en français, sois professionnel, poli et concis. \n"
    + "N'oublie pas que tu communiques par téléphone, donc garde tes réponses claires et facilement compréhensibles à l'oral.\n"
    + "    "

  /**
   * `generateSystemPrompt()`: the persona, company and guideline preamble.
   * Each guideline reaches the backend as a line of its own, when no
   * guideline holds a line break.
   */
  function SystemPrompt(instr: AgentInstructions): (prompt: string)
    ensures (forall x :: x in instr.guidelines ==> '\n' !in x) ==>
              forall g :: g in instr.guidelines ==> g in Split(prompt, '\n')
  {
    var head, body := SystemPromptHead(instr), Join(instr.guidelines, '\n');
    var prompt := head + "\n" + body + "\n" + SystemPromptTail;
    assert prompt == (head + ['\n'] + body) + ['\n'] + SystemPromptTail;
    SplitConcat(head + ['\n'] + body, '\n', SystemPromptTail);
    SplitConcat(head, '\n', body);
    if |instr.guidelines| >= 1 && forall x :: x in instr.guidelines ==> '\n' !in x then
      SplitJoin(instr.guidelines, '\n');
      prompt
    else prompt
  }

  const GreetingOpening := "Bonjour, vous êtes en ligne avec "

  /**
   * The greeting `handleIncomingCall` speaks; a fixed template, no backend
   * call. It is never empty and names the company right after the opening words.
   */
  function Greeting(instr: AgentInstructions): (greeting: string)
    ensures |GreetingOpening| + |instr.companyInfo.name| < |greeting|
    ensures greeting[..|GreetingOpening|] == GreetingOpening
    ensures greeting[|GreetingOpening|..|GreetingOpening| + |instr.companyInfo.name|] == instr.companyInfo.name
  {
    GreetingOpening + instr.companyInfo.name
    + ". Je suis votre assistant virtuel. Comment puis-je vous aider aujourd'hui?"
  }

  /** The messages `processInput` sends: the system prompt, then the whole history in order. */
  function ChatMessages(instr: AgentInstructions, history: seq<Turn>): (messages: seq<Turn>)
    ensures |messages| == |history| + 1
    ensures messages[0] == Turn(System, SystemPrompt(instr))
    ensures messages[1..] == history
  {
    [Turn(System, SystemPrompt(instr))] + history
  }

  // ---------------------------------------------------------------------------
  // One turn

  /** What the backend did: returned some content (empty when missing), or threw. */
  datatype Generation = Generated(content: string) | GenerationFailed

  const NotUnderstood := "Je suis désolé, je n'ai pas compris."
  const TechnicalApology := "Désolé, je rencontre des difficultés techniques. Un agent humain va prendre le relais."
  const TechnicalError := "technical_error"

  /** `content || 'Je suis désolé, je n'ai pas compris.'` */
  function ReplyText(content: string): string {
    if content == "" then NotUnderstood else content
  }

  /** The response `processInput` returns for a backend outcome. */
  function ResponseFor(g: Generation): AgentResponse {
    match g
    case Generated(content) =>
      AgentResponse(ReplyText(content), Twilio.GenerateTwiML(ReplyText(content)), NoAction)
    case GenerationFailed =>
      AgentResponse(TechnicalApology, Twilio.GenerateTwiML(TechnicalApology), Transfer(TechnicalError))
  }

  /** The history `processInput` leaves: the user turn, then the reply only when the backend succeeded. */
  function HistoryAfterTurn(history: seq<Turn>, userInput: string, g: Generation): seq<Turn> {
    match g
    case Generated(content) => history + [Turn(User, userInput), Turn(Assistant, ReplyText(content))]
    case GenerationFailed => history + [Turn(User, userInput)]
  }

  predicate NoSystemTurns(history: seq<Turn>) {
    forall i :: 0 <= i < |history| ==> history[i].role != System
  }

  function CountUserTurns(history: seq<Turn>): nat {
    if |history| == 0 then 0
    else CountUserTurns(history[..|history| - 1]) + (if history[|history| - 1].role == User then 1 else 0)
  }

  // ---------------------------------------------------------------------------
  // The conversation context, updated in place

  /** `ConversationContext`; its `currentConversation` grows in place turn by turn. */
  class ConversationContext {
    const callId: string
    const customerPhone: string
    var currentConversation: seq<Turn>

    constructor (callId: string, customerPhone: string)
      ensures this.callId == callId && this.customerPhone == customerPhone
      ensures currentConversation == []
    {
      this.callId := callId;
      this.customerPhone := customerPhone;
      currentConversation := [];
    }
  }

  /** `handleIncomingCall`: a new context holding the greeting, and the greeting as the response. */
  method HandleIncomingCall(instr: AgentInstructions, call: IncomingCall) returns (context: ConversationContext, response: AgentResponse)
    ensures fresh(context)
    ensures context.callId == call.id && context.customerPhone == call.from
    ensures context.currentConversation == [Turn(Assistant, Greeting(instr))]
    ensures response == AgentResponse(Greeting(instr), Twilio.GenerateTwiML(Greeting(instr)), NoAction)
  {
    context := new ConversationContext(call.id, call.from);
    var greeting := Greeting(instr);
    context.currentConversation := context.currentConversation + [Turn(Assistant, greeting)];
    response := AgentResponse(greeting, Twilio.GenerateTwiML(greeting), NoAction);
  }

  /**
   * `processInput`: pushes the user turn, sends the system prompt and the
   * whole history to the backend, and pushes the reply only on success.
   */
  method ProcessInput(instr: AgentInstructions, context: ConversationContext, userInput: string, backend: seq<Turn> -> Generation)
    returns (response: AgentResponse)
    modifies context
    ensures context.currentConversation
         == HistoryAfterTurn(old(context.currentConversation), userInput,
                             backend(ChatMessages(instr, old(context.currentConversation) + [Turn(User, userInput)])))
    ensures response == ResponseFor(backend(ChatMessages(instr, old(context.currentConversation) + [Turn(User, userInput)])))
  {
    context.currentConversation := context.currentConversation + [Turn(User, userInput)];
    var messages := ChatMessages(instr, context.currentConversation);
    var outcome := backend(messages);
    match outcome {
      case Generated(content) =>
        var responseContent := if content == "" then NotUnderstood else content;
        context.currentConversation := context.currentConversation + [Turn(Assistant, responseContent)];
        response := AgentResponse(responseContent, Twilio.GenerateTwiML(responseContent), NoAction);
      case GenerationFailed =>
        response := AgentResponse(TechnicalApology, Twilio.GenerateTwiML(TechnicalApology), Transfer(TechnicalError));
    }
  }

  // ---------------------------------------------------------------------------
  // Summary

  const SummaryInstruction :=
    "Résume la conversation suivante entre un client et un agent de centre d'appel. "
    + "Inclus les points clés discutés, les problèmes identifiés et les actions à entreprendre."

  const NoSummary := "Aucun résumé disponible."
  const SummaryFailure := "Erreur lors de la génération du résumé."

  /** `Client` for the user, `Agent` for every other role, the system included. */
  function SpeakerLabel(r: Role): string {
    if r == User then "Client" else "Agent"
  }

  function SummaryLine(t: Turn): string {
    SpeakerLabel(t.role) + ": " + t.content
  }

  function SummaryLines(history: seq<Turn>): seq<string> {
    seq(|history|, i requires 0 <= i < |history| => SummaryLine(history[i]))
  }

  /** The transcript handed to the summariser: one `Client:`/`Agent:` line per turn, joined by newlines. */
  function FlattenHistory(history: seq<Turn>): string {
    Join(SummaryLines(history), '\n')
  }

  function SummaryPrompt(history: seq<Turn>): seq<Turn> {
    [Turn(System, SummaryInstruction), Turn(User, FlattenHistory(history))]
  }

  /**
   * `generateConversationSummary`: the backend's summary when it is not
   * empty, `Aucun résumé disponible.` when it is, and the error text when the
   * backend throws; it never throws itself, and the summary is never empty.
   */
  function GenerateConversationSummary(history: seq<Turn>, summarizer: seq<Turn> -> Generation): (summary: string)
    ensures summary != ""
    ensures summary == NoSummary || summary == SummaryFailure || summarizer(SummaryPrompt(history)) == Generated(summary)
    ensures summarizer(SummaryPrompt(history)) == GenerationFailed ==> summary == SummaryFailure
    ensures summarizer(SummaryPrompt(history)) == Generated("") ==> summary == NoSummary
    ensures summarizer(SummaryPrompt(history)).Generated? && summarizer(SummaryPrompt(history)).content != ""
      ==> summary == summarizer(SummaryPrompt(history)).content
  {
    match summarizer(SummaryPrompt(history))
    case Generated(content) => if content == "" then NoSummary else content
    case GenerationFailed => SummaryFailure
  }

  // ---------------------------------------------------------------------------
  // Properties

  /** On success the history grows by exactly the user turn and the reply, and the reply is what is spoken. */
  lemma SuccessfulTurn(history: seq<Turn>, userInput: string, content: string)
    ensures var h := HistoryAfterTurn(history, userInput, Generated(content));
            h == history + [Turn(User, userInput), Turn(Assistant, ResponseFor(Generated(content)).message)]
    ensures ResponseFor(Generated(content)).actionRequired == NoAction
    ensures ResponseFor(Generated(content)).message == if content == "" then NotUnderstood else content
  {
  }

  /** On failure only the user turn is kept; the apology is spoken but not added to the history, and a transfer is asked for. */
  lemma FailedTurn(history: seq<Turn>, userInput: string)
    ensures HistoryAfterTurn(history, userInput, GenerationFailed) == history + [Turn(User, userInput)]
    ensures ResponseFor(GenerationFailed).message == TechnicalApology
    ensures ResponseFor(GenerationFailed).actionRequired == Transfer(TechnicalError)
  {
  }

  /** Every response is spoken: its message is never empty and its TwiML is `generateTwiML(message)`. */
  lemma ResponseIsSpoken(g: Generation)
    ensures ResponseFor(g).message != ""
    ensures ResponseFor(g).twiML == Twilio.GenerateTwiML(ResponseFor(g).message)
    ensures Twilio.SayText(ResponseFor(g).twiML) == Options.Some(ResponseFor(g).message)
  {
    Twilio.SayTextRoundTrip(ResponseFor(g).message);
  }

  /**
   * A turn keeps the old history as a prefix, puts the user input right after
   * it, never stores a system message, and adds exactly one user turn.
   */
  lemma {:induction false} TurnAppendsUserFirst(history: seq<Turn>, userInput: string, g: Generation)
    ensures var h := HistoryAfterTurn(history, userInput, g);
            |h| > |history| && h[..|history|] == history && h[|history|] == Turn(User, userInput)
    ensures NoSystemTurns(history) ==> NoSystemTurns(HistoryAfterTurn(history, userInput, g))
    ensures CountUserTurns(HistoryAfterTurn(history, userInput, g)) == CountUserTurns(history) + 1
  {
    var h1 := history + [Turn(User, userInput)];
    assert h1[..|h1| - 1] == history;
    match g
    case Generated(content) =>
      var h2 := h1 + [Turn(Assistant, ReplyText(content))];
      assert h2[..|h2| - 1] == h1;
      assert HistoryAfterTurn(history, userInput, g) == h2;
    case GenerationFailed =>
  }

  lemma SummaryLineHasNoNewline(t: Turn)
    requires '\n' !in t.content
    ensures '\n' !in SummaryLine(t)
  {
    assert SummaryLine(t) == SpeakerLabel(t.role) + ": " + t.content;
  }

  /**
   * The flattened transcript has one line per turn, in history order, as long
   * as no turn's text itself holds a line break.
   */
  lemma FlattenHistoryLines(history: seq<Turn>)
    requires |history| >= 1
    requires forall i :: 0 <= i < |history| ==> '\n' !in history[i].content
    ensures Split(FlattenHistory(history), '\n') == SummaryLines(history)
    ensures |Split(FlattenHistory(history), '\n')| == |history|
  {
    var lines := SummaryLines(history);
    forall p | p in lines ensures '\n' !in p {
      var i :| 0 <= i < |lines| && lines[i] == p;
      SummaryLineHasNoNewline(history[i]);
    }
    SplitJoin(lines, '\n');
  }
}

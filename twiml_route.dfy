/**
 * The Twilio webhook of app/api/twiml/route.ts: a process-wide map from
 * CallSid to conversation context, and one POST per telephony event that
 * picks a branch on `CallStatus` / `SpeechResult`, drives the agent, writes
 * to the record store, and answers with one of four TwiML replies.
 *
 * `Step` is the whole effect of one event on an abstract snapshot (the
 * conversations and the two tables) and the reply it produces;
 * `TwimlWebhook.Post` is the handler over the live objects, proved to do
 * exactly what `Step` says. The properties of the handler are lemmas
 * about `Step`.
 *
 * A form field that is absent is the empty string. For `From`, `To`,
 * `SpeechResult` and `CallStatus` the two behave alike, since the handler
 * only tests them for truthiness or compares them. An absent `CallSid` is
 * `null` in the handler and is stored as it is: the model stores `""` instead.
 */
module TwimlRoute {
  import opened Options
  import opened JsString
  import opened CallRecords
  import opened AiAgent
  import Twilio

  // ---------------------------------------------------------------------------
  // The four replies

  /** The text after the message in the reply that keeps listening. */
  const GatherTail :=
    "</Say>\n"
    + "  <Gather input=\"speech\" action=\"/api/twiml\" method=\"POST\" speechTimeout=\"auto\" language=\"fr-FR\">\n"
    + "    <Say voice=\"Polly.Joanna\" language=\"fr-FR\">Je vous écoute.</Say>\n"
    + "  </Gather>\n"
    + "</Response>"

  /** The text after the message in the reply that hands the call to a human. */
  const TransferTail :=
    "</Say>\n"
    + "  <Say voice=\"Polly.Joanna\" language=\"fr-FR\">Je vous transfère vers un agent humain.</Say>\n"
    + "  <Dial>+33123456789</Dial>\n"
    + "</Response>"

  /** The number calls are transferred to. */
  const FallbackNumber := "+33123456789"

  const DefaultMessage := "Désolé, je n'ai pas compris votre demande. Comment puis-je vous aider?"

  /** The statuses that end a conversation; `canceled` is not among them. */
  const TerminalStatuses := [StatusName(Completed), StatusName(Failed), StatusName(Busy), StatusName(NoAnswer)]

  datatype Reply =
    | Listen(message: string)           // Say + Gather
    | TransferToHuman(message: string)  // Say + Say + Dial
    | Hangup                            // empty body
    | Speak(message: string)            // generateTwiML: a single Say

  /**
   * The response body of each reply, character for character; messages are
   * not escaped. Only the hang-up is empty; every other body is an XML
   * document whose first `<Say>` speaks the message verbatim.
   */
  function Render(r: Reply): (doc: string)
    ensures doc == "" <==> r.Hangup?
    ensures !r.Hangup? ==> Twilio.StartsWithDeclaration(doc)
    ensures !r.Hangup? ==> |Twilio.SayOpen| + |r.message| <= |doc|
                           && doc[|Twilio.SayOpen|..|Twilio.SayOpen| + |r.message|] == r.message
  {
    match r
    case Listen(m) => Twilio.SayOpen + m + GatherTail
    case TransferToHuman(m) => Twilio.SayOpen + m + TransferTail
    case Hangup => ""
    case Speak(m) => Twilio.GenerateTwiML(m)
  }

  predicate EndsWith(s: string, suffix: string) {
    |suffix| <= |s| && s[|s| - |suffix|..] == suffix
  }

  /** Reads a reply back from a response body. */
  function ParseReply(doc: string): Option<Reply> {
    if doc == "" then Some(Hangup)
    else if |doc| < |Twilio.SayOpen| || doc[..|Twilio.SayOpen|] != Twilio.SayOpen then None
    else
      var body := doc[|Twilio.SayOpen|..];
      if EndsWith(body, Twilio.SayClose) then Some(Speak(body[..|body| - |Twilio.SayClose|]))
      else if EndsWith(body, GatherTail) then Some(Listen(body[..|body| - |GatherTail|]))
      else if EndsWith(body, TransferTail) then Some(TransferToHuman(body[..|body| - |TransferTail|]))
      else None
  }

  /** The three closing texts differ in the character just before `>\n</Response>`. */
  lemma TailsDiffer(m: string)
    ensures !EndsWith(m + GatherTail, Twilio.SayClose)
    ensures !EndsWith(m + TransferTail, Twilio.SayClose)
    ensures !EndsWith(m + TransferTail, GatherTail)
  {
    var g, t, c := m + GatherTail, m + TransferTail, Twilio.SayClose;
    assert c[|c| - 14] == 'y';
    assert g[|g| - |c|..][|c| - 14] == 'r';
    assert t[|t| - |c|..][|c| - 14] == 'l';
    if |GatherTail| <= |t| {
      assert GatherTail[|GatherTail| - 14] == 'r';
      assert t[|t| - |GatherTail|..][|GatherTail| - 14] == 'l';
    }
  }

  /**
   * Every reply can be read back from its body: the body determines the
   * shape and the exact, unescaped message.
   */
  lemma ParseRender(r: Reply)
    ensures ParseReply(Render(r)) == Some(r)
  {
    match r
    case Hangup =>
    case Speak(m) => ParseSpeak(m);
    case Listen(m) => ParseListen(m);
    case TransferToHuman(m) => ParseTransfer(m);
  }

  lemma ParseSpeak(m: string)
    ensures ParseReply(Render(Speak(m))) == Some(Speak(m))
  {
    ParseSpoken(m, Twilio.SayClose);
  }

  lemma ParseListen(m: string)
    ensures ParseReply(Render(Listen(m))) == Some(Listen(m))
  {
    TailsDiffer(m);
    ParseSpoken(m, GatherTail);
  }

  lemma ParseTransfer(m: string)
    ensures ParseReply(Render(TransferToHuman(m))) == Some(TransferToHuman(m))
  {
    TailsDiffer(m);
    ParseSpoken(m, TransferTail);
  }

  /** A body made of the opening `<Say>`, a message and a closing text is read as that message. */
  lemma ParseSpoken(m: string, tail: string)
    ensures var doc := Twilio.SayOpen + m + tail;
      && doc != ""
      && doc[..|Twilio.SayOpen|] == Twilio.SayOpen
      && doc[|Twilio.SayOpen|..] == m + tail
      && EndsWith(m + tail, tail)
      && (m + tail)[..|m + tail| - |tail|] == m
  {
    var doc := Twilio.SayOpen + m + tail;
    assert |doc| >= |Twilio.SayOpen| > 0;
    assert doc[|Twilio.SayOpen|..] == m + tail;
  }

  /** Distinct replies have distinct bodies. */
  lemma RenderInjective(r1: Reply, r2: Reply)
    ensures Render(r1) == Render(r2) ==> r1 == r2
  {
    ParseRender(r1);
    ParseRender(r2);
  }

  /** Lines 140-174: only a `transfer` action dials out; every other action, `callback` and `schedule` included, keeps listening. */
  function ReplyFor(response: AgentResponse): (r: Reply)
    ensures r.TransferToHuman? <==> response.actionRequired.Transfer?
    ensures r == Listen(response.message) || r == TransferToHuman(response.message)
  {
    if response.actionRequired != NoAction && response.actionRequired.Transfer? then TransferToHuman(response.message)
    else Listen(response.message)
  }

  // ---------------------------------------------------------------------------
  // Persistence helpers, on the value of the store

  function RoleName(r: Role): string {
    match r
    case System => "system"
    case User => "user"
    case Assistant => "assistant"
  }

  /** `updateCallStatus`: update the row with that SID, or insert one (other columns take their defaults). */
  function StatusUpserted(db: Db, sid: string, status: string, now: nat): Db {
    if FindBySid(db.calls, sid).Some? then
      db.(calls := UpdateWhereSid(db.calls, sid, SetStatus(status), now))
    else
      var (id, db1) := TakeId(db);
      InsertedCall(db1, CallRecord(id, sid, None, None, status, DefaultDirection, None, now, now)).1
  }

  /** `saveConversationEntry`: insert a turn; a refused insert is logged and swallowed. */
  function EntrySaved(db: Db, sid: string, role: Role, content: string, now: nat): Db {
    var (id, db1) := TakeId(db);
    InsertedEntry(db1, ConversationEntry(id, sid, RoleName(role), content, now)).1
  }

  /** `updateCallTranscript`: set the transcript of the rows with that SID (none, if there are none). */
  function TranscriptUpdated(db: Db, sid: string, transcript: string, now: nat): Db {
    db.(calls := UpdateWhereSid(db.calls, sid, SetTranscript(transcript), now))
  }

  /**
   * `updateCallStatus` on a call that has a row: the row gets the status, no
   * other row and no entry changes.
   */
  lemma StatusUpsertedExisting(db: Db, sid: string, status: string, now: nat)
    requires WellFormed(db) && HasSid(db.calls, sid)
    ensures WellFormed(StatusUpserted(db, sid, status, now))
    ensures |StatusUpserted(db, sid, status, now).calls| == |db.calls|
    ensures FindBySid(StatusUpserted(db, sid, status, now).calls, sid)
            == Some(FindBySid(db.calls, sid).value.(status := status, updatedAt := now))
    ensures forall i :: 0 <= i < |db.calls| && db.calls[i].twilioSid != sid ==>
              StatusUpserted(db, sid, status, now).calls[i] == db.calls[i]
    ensures StatusUpserted(db, sid, status, now).callConversations == db.callConversations
  {
    var calls' := UpdateWhereSid(db.calls, sid, SetStatus(status), now);
    assert StatusUpserted(db, sid, status, now) == db.(calls := calls');
    UpdateKeepsWellFormed(db, sid, SetStatus(status), now);
    UpdatedRowIsFound(db.calls, sid, SetStatus(status), now);
  }

  /**
   * `updateCallStatus` on a call with no row: one row is appended with the
   * status, no number, and the column default `outbound` as direction.
   */
  lemma StatusUpsertedNew(db: Db, sid: string, status: string, now: nat)
    requires WellFormed(db) && !HasSid(db.calls, sid)
    ensures WellFormed(StatusUpserted(db, sid, status, now))
    ensures StatusUpserted(db, sid, status, now).calls
            == db.calls + [CallRecord(db.nextId, sid, None, None, status, DefaultDirection, None, now, now)]
    ensures HasSid(StatusUpserted(db, sid, status, now).calls, sid)
    ensures FindBySid(StatusUpserted(db, sid, status, now).calls, sid).value.status == status
    ensures StatusUpserted(db, sid, status, now).callConversations == db.callConversations
  {
    var db' := StatusUpserted(db, sid, status, now);
    FreshIdIsFree(db);
    var row := CallRecord(db.nextId, sid, None, None, status, DefaultDirection, None, now, now);
    InsertCallKeepsWellFormed(TakeId(db).1, row);
    FindBySidUnique(db'.calls, sid, |db.calls|);
  }

  /** Whichever branch it takes, `updateCallStatus` leaves a well-formed store in which the call's row has the status. */
  lemma StatusUpsertedProperties(db: Db, sid: string, status: string, now: nat)
    requires WellFormed(db)
    ensures WellFormed(StatusUpserted(db, sid, status, now))
    ensures HasSid(StatusUpserted(db, sid, status, now).calls, sid)
    ensures FindBySid(StatusUpserted(db, sid, status, now).calls, sid).value.status == status
    ensures StatusUpserted(db, sid, status, now).callConversations == db.callConversations
  {
    if HasSid(db.calls, sid) {
      StatusUpsertedExisting(db, sid, status, now);
    } else {
      StatusUpsertedNew(db, sid, status, now);
    }
  }

  /**
   * `saveConversationEntry` appends exactly the one entry when the call has a
   * row, and otherwise the foreign key refuses it and nothing is stored; the
   * call rows never change.
   */
  lemma EntrySavedProperties(db: Db, sid: string, role: Role, content: string, now: nat)
    requires WellFormed(db)
    ensures var db' := EntrySaved(db, sid, role, content, now);
      && WellFormed(db')
      && db'.calls == db.calls
      && db'.callConversations
         == db.callConversations + (if HasSid(db.calls, sid) then [ConversationEntry(db.nextId, sid, RoleName(role), content, now)] else [])
  {
    FreshIdIsFree(db);
    InsertEntryKeepsWellFormed(TakeId(db).1, ConversationEntry(db.nextId, sid, RoleName(role), content, now));
  }

  /** `updateCallTranscript` sets the transcript of the call's row and of no other row. */
  lemma TranscriptUpdatedProperties(db: Db, sid: string, transcript: string, now: nat)
    requires WellFormed(db)
    ensures var db' := TranscriptUpdated(db, sid, transcript, now);
      && WellFormed(db')
      && db'.callConversations == db.callConversations
      && |db'.calls| == |db.calls|
      && (forall i :: 0 <= i < |db.calls| ==>
            if db.calls[i].twilioSid == sid then db'.calls[i].transcript == Some(transcript) && db'.calls[i].status == db.calls[i].status
            else db'.calls[i] == db.calls[i])
  {
    UpdateKeepsWellFormed(db, sid, SetTranscript(transcript), now);
  }

  // ---------------------------------------------------------------------------
  // One event

  /** The form fields the handler reads; an absent field is "". */
  datatype WebhookEvent = WebhookEvent(callSid: string, from: string, to: string, speechResult: string, callStatus: string)

  /** The value of one `ConversationContext`. */
  datatype Conversation = Conversation(callId: string, customerPhone: string, history: seq<Turn>)

  /** The conversations held in memory and the two tables. */
  datatype Snapshot = Snapshot(contexts: map<string, Conversation>, db: Db)

  /** A status-only event (line 59). */
  predicate IsStatusOnly(ev: WebhookEvent) {
    ev.callStatus != "" && ev.speechResult == ""
  }

  /** A status-only event with a status of line 98. */
  predicate EndsCall(ev: WebhookEvent) {
    IsStatusOnly(ev) && ev.callStatus in TerminalStatuses
  }

  /** A speech event the handler answers (line 117). */
  predicate IsSpeech(ev: WebhookEvent) {
    !IsStatusOnly(ev) && ev.speechResult != "" && ev.callSid != ""
  }

  /** The conversation a speech event continues: the stored one, or a fresh empty one for an unknown call. */
  function SpeechConversation(contexts: map<string, Conversation>, ev: WebhookEvent): Conversation {
    if ev.callSid in contexts then contexts[ev.callSid] else Conversation(ev.callSid, ev.from, [])
  }

  /** What the backend returns for the turn a speech event starts. */
  function SpeechGeneration(instr: AgentInstructions, contexts: map<string, Conversation>, ev: WebhookEvent,
                            backend: seq<Turn> -> Generation): Generation
  {
    backend(ChatMessages(instr, SpeechConversation(contexts, ev).history + [Turn(User, ev.speechResult)]))
  }

  /** A status-only event: record the status, then greet, close or acknowledge (lines 59-115). */
  function StatusStep(instr: AgentInstructions, s: Snapshot, ev: WebhookEvent,
                      summarizer: seq<Turn> -> Generation, now: nat): (Snapshot, Reply)
  {
    StatusReaction(instr, s.contexts, StatusUpserted(s.db, ev.callSid, ev.callStatus, now), ev, summarizer, now)
  }

  /** What follows the status update: greet a new call, close an ended one, or acknowledge. */
  function StatusReaction(instr: AgentInstructions, contexts: map<string, Conversation>, db1: Db, ev: WebhookEvent,
                          summarizer: seq<Turn> -> Generation, now: nat): (Snapshot, Reply)
  {
    var sid := ev.callSid;
    if ev.callStatus == "in-progress" && sid !in contexts then
      var greeting := Greeting(instr);
      var conv := Conversation(sid, ev.from, [Turn(Assistant, greeting)]);
      (Snapshot(contexts[sid := conv], EntrySaved(db1, sid, Assistant, greeting, now)), Listen(greeting))
    else if ev.callStatus in TerminalStatuses then
      if sid in contexts then
        var summary := GenerateConversationSummary(contexts[sid].history, summarizer);
        (Snapshot(contexts - {sid}, TranscriptUpdated(db1, sid, summary, now)), Hangup)
      else
        (Snapshot(contexts, db1), Hangup)
    else
      (Snapshot(contexts, db1), Speak(DefaultMessage))
  }

  /** A speech event: one agent turn, both sides persisted (lines 117-175). */
  function SpeechStep(instr: AgentInstructions, s: Snapshot, ev: WebhookEvent,
                      backend: seq<Turn> -> Generation, now: nat): (Snapshot, Reply)
  {
    var sid := ev.callSid;
    var conv := SpeechConversation(s.contexts, ev);
    var g := SpeechGeneration(instr, s.contexts, ev, backend);
    var response := ResponseFor(g);
    var db1 := EntrySaved(s.db, sid, User, ev.speechResult, now);
    var db2 := EntrySaved(db1, sid, Assistant, response.message, now);
    var conv' := conv.(history := HistoryAfterTurn(conv.history, ev.speechResult, g));
    (Snapshot(s.contexts[sid := conv'], db2), ReplyFor(response))
  }

  /**
   * `POST`: the snapshot after one event, and the reply. The call hangs up
   * exactly on a terminal status, is transferred only from a speech turn,
   * and every other reply speaks a non-empty message.
   */
  function Step(instr: AgentInstructions, s: Snapshot, ev: WebhookEvent,
                backend: seq<Turn> -> Generation, summarizer: seq<Turn> -> Generation, now: nat): (r: (Snapshot, Reply))
    ensures r.1 == Hangup <==> EndsCall(ev)
    ensures r.1.TransferToHuman? ==> IsSpeech(ev)
    ensures r.1 != Hangup ==> r.1.message != ""
  {
    if IsStatusOnly(ev) then
      StatusReplyShape(instr, s, ev, summarizer, now);
      StatusStep(instr, s, ev, summarizer, now)
    else if IsSpeech(ev) then
      ResponseIsSpoken(SpeechGeneration(instr, s.contexts, ev, backend));
      SpeechStep(instr, s, ev, backend, now)
    else
      SpokenMessagesAreNotEmpty(instr);
      (s, Speak(DefaultMessage))
  }

  /**
   * What every snapshot reachable by the handler satisfies: the table
   * constraints hold, each conversation is keyed by its own call id, and no
   * history holds a system message (the system prompt is only ever prepended
   * when talking to the backend).
   */
  ghost predicate Consistent(s: Snapshot) {
    WellFormed(s.db) && ContextsConsistent(s.contexts)
  }

  predicate ContextsConsistent(contexts: map<string, Conversation>) {
    forall k :: k in contexts ==> contexts[k].callId == k && NoSystemTurns(contexts[k].history)
  }

  lemma GreetingKeepsConsistent(instr: AgentInstructions, s: Snapshot, ev: WebhookEvent,
                                summarizer: seq<Turn> -> Generation, now: nat)
    requires Consistent(s) && ev.callStatus == "in-progress" && ev.callSid !in s.contexts
    ensures Consistent(StatusStep(instr, s, ev, summarizer, now).0)
  {
    var sid := ev.callSid;
    var db1 := StatusUpserted(s.db, sid, ev.callStatus, now);
    StatusUpsertedProperties(s.db, sid, ev.callStatus, now);
    var greeting := Greeting(instr);
    EntrySavedProperties(db1, sid, Assistant, greeting, now);
    var conv := Conversation(sid, ev.from, [Turn(Assistant, greeting)]);
    assert NoSystemTurns(conv.history);
    NewContextConsistent(s.contexts, sid, conv);
    StatusStepGreets(instr, s, ev, summarizer, now);
  }

  /** The first `in-progress` of a call opens its conversation with the greeting. */
  lemma StatusStepGreets(instr: AgentInstructions, s: Snapshot, ev: WebhookEvent,
                         summarizer: seq<Turn> -> Generation, now: nat)
    requires ev.callStatus == "in-progress" && ev.callSid !in s.contexts
    ensures StatusStep(instr, s, ev, summarizer, now)
            == (Snapshot(s.contexts[ev.callSid := Conversation(ev.callSid, ev.from, [Turn(Assistant, Greeting(instr))])],
                         EntrySaved(StatusUpserted(s.db, ev.callSid, ev.callStatus, now), ev.callSid, Assistant, Greeting(instr), now)),
                Listen(Greeting(instr)))
  {
  }

  lemma NewContextConsistent(contexts: map<string, Conversation>, sid: string, conv: Conversation)
    requires ContextsConsistent(contexts) && conv.callId == sid && NoSystemTurns(conv.history)
    ensures ContextsConsistent(contexts[sid := conv])
  {
  }

  lemma CloseKeepsConsistent(instr: AgentInstructions, s: Snapshot, ev: WebhookEvent,
                             summarizer: seq<Turn> -> Generation, now: nat)
    requires Consistent(s) && !(ev.callStatus == "in-progress" && ev.callSid !in s.contexts)
    requires ev.callStatus in TerminalStatuses && ev.callSid in s.contexts
    ensures Consistent(StatusStep(instr, s, ev, summarizer, now).0)
  {
    var sid := ev.callSid;
    var db1 := StatusUpserted(s.db, sid, ev.callStatus, now);
    StatusUpsertedProperties(s.db, sid, ev.callStatus, now);
    var summary := GenerateConversationSummary(s.contexts[sid].history, summarizer);
    TranscriptUpdatedProperties(db1, sid, summary, now);
    assert ContextsConsistent(s.contexts - {sid});
    assert StatusStep(instr, s, ev, summarizer, now).0
           == Snapshot(s.contexts - {sid}, TranscriptUpdated(db1, sid, summary, now));
  }

  lemma StatusStepKeepsConsistent(instr: AgentInstructions, s: Snapshot, ev: WebhookEvent,
                                  summarizer: seq<Turn> -> Generation, now: nat)
    requires Consistent(s)
    ensures Consistent(StatusStep(instr, s, ev, summarizer, now).0)
  {
    var sid := ev.callSid;
    if ev.callStatus == "in-progress" && sid !in s.contexts {
      GreetingKeepsConsistent(instr, s, ev, summarizer, now);
    } else if ev.callStatus in TerminalStatuses && sid in s.contexts {
      CloseKeepsConsistent(instr, s, ev, summarizer, now);
    } else {
      StatusUpsertedProperties(s.db, sid, ev.callStatus, now);
      assert StatusStep(instr, s, ev, summarizer, now).0 == Snapshot(s.contexts, StatusUpserted(s.db, sid, ev.callStatus, now));
    }
  }

  lemma SpeechStepKeepsConsistent(instr: AgentInstructions, s: Snapshot, ev: WebhookEvent,
                                  backend: seq<Turn> -> Generation, now: nat)
    requires Consistent(s)
    ensures Consistent(SpeechStep(instr, s, ev, backend, now).0)
  {
    var sid := ev.callSid;
    var conv := SpeechConversation(s.contexts, ev);
    var g := SpeechGeneration(instr, s.contexts, ev, backend);
    var db1 := EntrySaved(s.db, sid, User, ev.speechResult, now);
    var db2 := EntrySaved(db1, sid, Assistant, ResponseFor(g).message, now);
    var conv' := conv.(history := HistoryAfterTurn(conv.history, ev.speechResult, g));
    EntrySavedProperties(s.db, sid, User, ev.speechResult, now);
    EntrySavedProperties(db1, sid, Assistant, ResponseFor(g).message, now);
    assert WellFormed(db2);
    TurnAppendsUserFirst(conv.history, ev.speechResult, g);
    assert ContextsConsistent(s.contexts[sid := conv']);
    assert SpeechStep(instr, s, ev, backend, now).0 == Snapshot(s.contexts[sid := conv'], db2);
  }

  /** Every event keeps the snapshot consistent. */
  lemma StepKeepsConsistent(instr: AgentInstructions, s: Snapshot, ev: WebhookEvent,
                            backend: seq<Turn> -> Generation, summarizer: seq<Turn> -> Generation, now: nat)
    requires Consistent(s)
    ensures Consistent(Step(instr, s, ev, backend, summarizer, now).0)
  {
    if IsStatusOnly(ev) {
      StatusStepKeepsConsistent(instr, s, ev, summarizer, now);
    } else if IsSpeech(ev) {
      SpeechStepKeepsConsistent(instr, s, ev, backend, now);
    }
  }

  // ---------------------------------------------------------------------------
  // What one event does

  /**
   * The first `in-progress` of a call opens its conversation with the
   * greeting, speaks it and listens; the call's row has the status and the
   * greeting is stored as the call's one new entry.
   */
  lemma GreetingOpensConversation(instr: AgentInstructions, s: Snapshot, ev: WebhookEvent,
                                  backend: seq<Turn> -> Generation, summarizer: seq<Turn> -> Generation, now: nat)
    requires WellFormed(s.db)
    requires ev.callStatus == "in-progress" && ev.speechResult == "" && ev.callSid !in s.contexts
    ensures var (s', r) := Step(instr, s, ev, backend, summarizer, now);
      && s'.contexts == s.contexts[ev.callSid := Conversation(ev.callSid, ev.from, [Turn(Assistant, Greeting(instr))])]
      && r == Listen(Greeting(instr))
      && FindBySid(s'.db.calls, ev.callSid).Some?
      && FindBySid(s'.db.calls, ev.callSid).value.status == "in-progress"
      && |s'.db.callConversations| == |s.db.callConversations| + 1
      && s'.db.callConversations[..|s.db.callConversations|] == s.db.callConversations
      && s'.db.callConversations[|s.db.callConversations|].callSid == ev.callSid
      && s'.db.callConversations[|s.db.callConversations|].role == "assistant"
      && s'.db.callConversations[|s.db.callConversations|].content == Greeting(instr)
  {
    var sid := ev.callSid;
    GreetStep(instr, s, ev, backend, summarizer, now);
    GreetingSaved(s.db, sid, Greeting(instr), now);
    var c := s.db.callConversations;
    var e := ConversationEntry(StatusUpserted(s.db, sid, "in-progress", now).nextId, sid, "assistant", Greeting(instr), now);
    assert (c + [e])[..|c|] == c;
  }

  /** Recording `in-progress` then saving the greeting: the call has its row, and the greeting is stored after it. */
  lemma GreetingSaved(db: Db, sid: string, greeting: string, now: nat)
    requires WellFormed(db)
    ensures var db1 := StatusUpserted(db, sid, "in-progress", now);
      var db' := EntrySaved(db1, sid, Assistant, greeting, now);
      && FindBySid(db'.calls, sid).Some? && FindBySid(db'.calls, sid).value.status == "in-progress"
      && db'.callConversations == db.callConversations + [ConversationEntry(db1.nextId, sid, "assistant", greeting, now)]
  {
    var db1 := StatusUpserted(db, sid, "in-progress", now);
    StatusUpsertedProperties(db, sid, "in-progress", now);
    EntrySavedKeepsCalls(db1, sid, Assistant, greeting, now);
    EntrySavedForKnownCall(db1, sid, Assistant, greeting, now);
  }

  /** For a call that has a row, `saveConversationEntry` appends exactly its entry. */
  lemma EntrySavedForKnownCall(db: Db, sid: string, role: Role, content: string, now: nat)
    requires WellFormed(db) && HasSid(db.calls, sid)
    ensures EntrySaved(db, sid, role, content, now).callConversations
            == db.callConversations + [ConversationEntry(db.nextId, sid, RoleName(role), content, now)]
  {
    EntrySavedProperties(db, sid, role, content, now);
  }

  /** What `Step` does on the first `in-progress` of a call. */
  lemma GreetStep(instr: AgentInstructions, s: Snapshot, ev: WebhookEvent,
                  backend: seq<Turn> -> Generation, summarizer: seq<Turn> -> Generation, now: nat)
    requires ev.callStatus == "in-progress" && ev.speechResult == "" && ev.callSid !in s.contexts
    ensures Step(instr, s, ev, backend, summarizer, now)
            == (Snapshot(s.contexts[ev.callSid := Conversation(ev.callSid, ev.from, [Turn(Assistant, Greeting(instr))])],
                         EntrySaved(StatusUpserted(s.db, ev.callSid, ev.callStatus, now), ev.callSid, Assistant, Greeting(instr), now)),
                Listen(Greeting(instr)))
  {
    StatusStepGreets(instr, s, ev, summarizer, now);
  }

  /** Every row with the SID has the status and was updated at `now`. */
  ghost predicate Stamped(calls: seq<CallRecord>, sid: string, status: string, now: nat) {
    forall i :: 0 <= i < |calls| && calls[i].twilioSid == sid ==> calls[i].status == status && calls[i].updatedAt == now
  }

  lemma StatusUpsertedStamps(db: Db, sid: string, status: string, now: nat)
    ensures Stamped(StatusUpserted(db, sid, status, now).calls, sid, status, now)
  {
    if !HasSid(db.calls, sid) {
      var row := CallRecord(db.nextId, sid, None, None, status, DefaultDirection, None, now, now);
      var calls' := StatusUpserted(db, sid, status, now).calls;
      assert calls' == db.calls || calls' == db.calls + [row];
    }
  }

  /** Updating rows that already hold what the patch writes changes nothing. */
  lemma StampedUpdateIsNoop(calls: seq<CallRecord>, sid: string, status: string, now: nat)
    requires Stamped(calls, sid, status, now)
    ensures UpdateWhereSid(calls, sid, SetStatus(status), now) == calls
  {
  }

  /** What `Step` does on a terminal status, branch by branch. */
  lemma TerminalStep(instr: AgentInstructions, s: Snapshot, ev: WebhookEvent,
                     backend: seq<Turn> -> Generation, summarizer: seq<Turn> -> Generation, now: nat)
    requires EndsCall(ev)
    ensures var (s', r) := Step(instr, s, ev, backend, summarizer, now);
      var db1 := StatusUpserted(s.db, ev.callSid, ev.callStatus, now);
      && r == Hangup
      && s'.contexts == s.contexts - {ev.callSid}
      && s'.db == if ev.callSid in s.contexts
                  then TranscriptUpdated(db1, ev.callSid, GenerateConversationSummary(s.contexts[ev.callSid].history, summarizer), now)
                  else db1
  {
    assert ev.callStatus != "in-progress";
    if ev.callSid !in s.contexts {
      assert s.contexts - {ev.callSid} == s.contexts;
    }
  }

  /**
   * A terminal status ends the conversation: the context is dropped, the
   * reply is empty, the row has the status and, when there was a
   * conversation, its summary as transcript; no entry is written.
   */
  lemma TerminalStatusClosesConversation(instr: AgentInstructions, s: Snapshot, ev: WebhookEvent,
                                         backend: seq<Turn> -> Generation, summarizer: seq<Turn> -> Generation, now: nat)
    requires WellFormed(s.db) && EndsCall(ev)
    ensures var (s', r) := Step(instr, s, ev, backend, summarizer, now);
      && s'.contexts == s.contexts - {ev.callSid}
      && r == Hangup && Render(r) == ""
      && s'.db.callConversations == s.db.callConversations
      && FindBySid(s'.db.calls, ev.callSid).Some?
      && FindBySid(s'.db.calls, ev.callSid).value.status == ev.callStatus
      && (ev.callSid in s.contexts ==>
            FindBySid(s'.db.calls, ev.callSid).value.transcript
            == Some(GenerateConversationSummary(s.contexts[ev.callSid].history, summarizer)))
  {
    var sid := ev.callSid;
    TerminalStep(instr, s, ev, backend, summarizer, now);
    var db1 := StatusUpserted(s.db, sid, ev.callStatus, now);
    StatusUpsertedProperties(s.db, sid, ev.callStatus, now);
    if sid in s.contexts {
      var summary := GenerateConversationSummary(s.contexts[sid].history, summarizer);
      TranscriptUpdatedFound(db1, sid, summary, now);
    }
  }

  /** After `updateCallTranscript` the call's row has the transcript and keeps its status. */
  lemma TranscriptUpdatedFound(db: Db, sid: string, transcript: string, now: nat)
    requires WellFormed(db) && HasSid(db.calls, sid)
    ensures var db' := TranscriptUpdated(db, sid, transcript, now);
      && db'.callConversations == db.callConversations
      && FindBySid(db'.calls, sid).Some?
      && FindBySid(db'.calls, sid).value == FindBySid(db.calls, sid).value.(transcript := Some(transcript), updatedAt := now)
  {
    UpdatedRowIsFound(db.calls, sid, SetTranscript(transcript), now);
  }

  /**
   * A terminal status delivered twice (Twilio retries webhooks) has no
   * further effect: the second delivery finds no context, rewrites the same
   * status at the same time, and hangs up again.
   */
  lemma TerminalStatusIsIdempotent(instr: AgentInstructions, s: Snapshot, ev: WebhookEvent,
                                   backend: seq<Turn> -> Generation, summarizer: seq<Turn> -> Generation, now: nat)
    requires WellFormed(s.db) && EndsCall(ev)
    ensures var (s1, r1) := Step(instr, s, ev, backend, summarizer, now);
      Step(instr, s1, ev, backend, summarizer, now) == (s1, r1)
  {
    var s1 := Step(instr, s, ev, backend, summarizer, now).0;
    TerminalStatusClosesConversation(instr, s, ev, backend, summarizer, now);
    ClosedCallIsStamped(instr, s, ev, backend, summarizer, now);
    StampedTerminalIsNoop(instr, s1, ev, backend, summarizer, now);
  }

  /** After a terminal status every row of the call has that status, stamped `now`. */
  lemma ClosedCallIsStamped(instr: AgentInstructions, s: Snapshot, ev: WebhookEvent,
                            backend: seq<Turn> -> Generation, summarizer: seq<Turn> -> Generation, now: nat)
    requires WellFormed(s.db) && EndsCall(ev)
    ensures Stamped(Step(instr, s, ev, backend, summarizer, now).0.db.calls, ev.callSid, ev.callStatus, now)
  {
    var sid := ev.callSid;
    var db1 := StatusUpserted(s.db, sid, ev.callStatus, now);
    TerminalStep(instr, s, ev, backend, summarizer, now);
    StatusUpsertedStamps(s.db, sid, ev.callStatus, now);
    if sid in s.contexts {
      StatusUpsertedProperties(s.db, sid, ev.callStatus, now);
      var summary := GenerateConversationSummary(s.contexts[sid].history, summarizer);
      TranscriptUpdatedProperties(db1, sid, summary, now);
    }
  }

  /** A terminal status for a call with no context whose row already holds it changes nothing. */
  lemma StampedTerminalIsNoop(instr: AgentInstructions, s: Snapshot, ev: WebhookEvent,
                              backend: seq<Turn> -> Generation, summarizer: seq<Turn> -> Generation, now: nat)
    requires EndsCall(ev) && ev.callSid !in s.contexts && HasSid(s.db.calls, ev.callSid)
    requires Stamped(s.db.calls, ev.callSid, ev.callStatus, now)
    ensures Step(instr, s, ev, backend, summarizer, now) == (s, Hangup)
  {
    TerminalStep(instr, s, ev, backend, summarizer, now);
    StampedUpdateIsNoop(s.db.calls, ev.callSid, ev.callStatus, now);
    assert s.contexts - {ev.callSid} == s.contexts;
    assert StatusUpserted(s.db, ev.callSid, ev.callStatus, now) == s.db;
  }

  /**
   * Any other status (`ringing`, `canceled`, a repeated `in-progress`, …)
   * only records the status: the conversations and the entries are kept, and
   * the default message is spoken.
   */
  lemma OtherStatusOnlyRecordsIt(instr: AgentInstructions, s: Snapshot, ev: WebhookEvent,
                                 backend: seq<Turn> -> Generation, summarizer: seq<Turn> -> Generation, now: nat)
    requires WellFormed(s.db) && IsStatusOnly(ev) && !EndsCall(ev)
    requires !(ev.callStatus == "in-progress" && ev.callSid !in s.contexts)
    ensures var (s', r) := Step(instr, s, ev, backend, summarizer, now);
      && s'.contexts == s.contexts
      && r == Speak(DefaultMessage)
      && s'.db == StatusUpserted(s.db, ev.callSid, ev.callStatus, now)
      && s'.db.callConversations == s.db.callConversations
      && FindBySid(s'.db.calls, ev.callSid).Some?
      && FindBySid(s'.db.calls, ev.callSid).value.status == ev.callStatus
  {
    StatusUpsertedProperties(s.db, ev.callSid, ev.callStatus, now);
  }

  /** `canceled` is not one of the terminal statuses: a canceled call keeps its conversation in memory. */
  lemma CanceledKeepsConversation(instr: AgentInstructions, s: Snapshot, ev: WebhookEvent,
                                  backend: seq<Turn> -> Generation, summarizer: seq<Turn> -> Generation, now: nat)
    requires WellFormed(s.db) && ev.callStatus == "canceled" && ev.speechResult == ""
    ensures Step(instr, s, ev, backend, summarizer, now).0.contexts == s.contexts
  {
    OtherStatusOnlyRecordsIt(instr, s, ev, backend, summarizer, now);
  }

  /**
   * A speech event runs one agent turn on the call's conversation (a new one
   * for an unknown call), and the backend sees the system prompt followed by
   * the whole history including the new user turn. A status that comes with
   * the speech is not recorded.
   */
  lemma SpeechRunsOneTurn(instr: AgentInstructions, s: Snapshot, ev: WebhookEvent,
                          backend: seq<Turn> -> Generation, summarizer: seq<Turn> -> Generation, now: nat)
    requires IsSpeech(ev)
    ensures var (s', r) := Step(instr, s, ev, backend, summarizer, now);
      var h := if ev.callSid in s.contexts then s.contexts[ev.callSid].history else [];
      var g := backend([Turn(System, SystemPrompt(instr))] + h + [Turn(User, ev.speechResult)]);
      && ev.callSid in s'.contexts
      && s'.contexts[ev.callSid].history == HistoryAfterTurn(h, ev.speechResult, g)
      && (forall k :: k in s.contexts && k != ev.callSid ==> k in s'.contexts && s'.contexts[k] == s.contexts[k])
      && |s'.contexts| <= |s.contexts| + 1
      && r == ReplyFor(ResponseFor(g))
      && s'.db.calls == s.db.calls
  {
    assert Step(instr, s, ev, backend, summarizer, now) == SpeechStep(instr, s, ev, backend, now);
    SpeechStepRunsOneTurn(instr, s, ev, backend, now);
  }

  lemma SpeechStepRunsOneTurn(instr: AgentInstructions, s: Snapshot, ev: WebhookEvent,
                              backend: seq<Turn> -> Generation, now: nat)
    ensures var (s', r) := SpeechStep(instr, s, ev, backend, now);
      var h := if ev.callSid in s.contexts then s.contexts[ev.callSid].history else [];
      var g := backend([Turn(System, SystemPrompt(instr))] + h + [Turn(User, ev.speechResult)]);
      && ev.callSid in s'.contexts
      && s'.contexts[ev.callSid].history == HistoryAfterTurn(h, ev.speechResult, g)
      && (forall k :: k in s.contexts && k != ev.callSid ==> k in s'.contexts && s'.contexts[k] == s.contexts[k])
      && |s'.contexts| <= |s.contexts| + 1
      && r == ReplyFor(ResponseFor(g))
      && s'.db.calls == s.db.calls
  {
    var sid := ev.callSid;
    var conv := SpeechConversation(s.contexts, ev);
    var h := conv.history;
    assert ChatMessages(instr, h + [Turn(User, ev.speechResult)])
           == [Turn(System, SystemPrompt(instr))] + h + [Turn(User, ev.speechResult)];
    var g := SpeechGeneration(instr, s.contexts, ev, backend);
    var conv' := conv.(history := HistoryAfterTurn(h, ev.speechResult, g));
    MapUpdateFrame(s.contexts, sid, conv');
    var db1 := EntrySaved(s.db, sid, User, ev.speechResult, now);
    EntrySavedKeepsCalls(s.db, sid, User, ev.speechResult, now);
    EntrySavedKeepsCalls(db1, sid, Assistant, ResponseFor(g).message, now);
  }

  lemma EntrySavedKeepsCalls(db: Db, sid: string, role: Role, content: string, now: nat)
    ensures EntrySaved(db, sid, role, content, now).calls == db.calls
  {
  }

  lemma MapUpdateFrame<K, V>(m: map<K, V>, k: K, v: V)
    ensures k in m[k := v] && m[k := v][k] == v
    ensures forall j :: j in m && j != k ==> j in m[k := v] && m[k := v][j] == m[j]
    ensures |m[k := v]| <= |m| + 1
  {
  }

  /** The first words of an unknown caller start a two-turn conversation when the backend answers. */
  lemma SpeechFromUnknownCall(instr: AgentInstructions, s: Snapshot, ev: WebhookEvent,
                              backend: seq<Turn> -> Generation, summarizer: seq<Turn> -> Generation, now: nat)
    requires IsSpeech(ev) && ev.callSid !in s.contexts
    requires backend([Turn(System, SystemPrompt(instr)), Turn(User, ev.speechResult)]).Generated?
    ensures var content := backend([Turn(System, SystemPrompt(instr)), Turn(User, ev.speechResult)]).content;
      var (s', r) := Step(instr, s, ev, backend, summarizer, now);
      && s'.contexts[ev.callSid]
         == Conversation(ev.callSid, ev.from, [Turn(User, ev.speechResult), Turn(Assistant, ReplyText(content))])
      && r == Listen(ReplyText(content))
  {
    assert ChatMessages(instr, [] + [Turn(User, ev.speechResult)])
           == [Turn(System, SystemPrompt(instr)), Turn(User, ev.speechResult)];
  }

  /**
   * When the backend fails the caller hears the apology and is transferred;
   * only the user turn joins the history, while the apology is still stored.
   */
  lemma FailedGenerationTransfers(instr: AgentInstructions, s: Snapshot, ev: WebhookEvent,
                                  backend: seq<Turn> -> Generation, summarizer: seq<Turn> -> Generation, now: nat)
    requires IsSpeech(ev) && SpeechGeneration(instr, s.contexts, ev, backend) == GenerationFailed
    ensures var (s', r) := Step(instr, s, ev, backend, summarizer, now);
      && r == TransferToHuman(TechnicalApology)
      && s'.contexts[ev.callSid].history == SpeechConversation(s.contexts, ev).history + [Turn(User, ev.speechResult)]
      && s'.db == EntrySaved(EntrySaved(s.db, ev.callSid, User, ev.speechResult, now),
                             ev.callSid, Assistant, TechnicalApology, now)
  {
  }

  /**
   * Both sides of a speech turn are stored, user first, when the call has a
   * row; for a call with no row the foreign key refuses both and nothing is
   * stored. The call rows never change.
   */
  lemma SpeechPersistsBothTurns(instr: AgentInstructions, s: Snapshot, ev: WebhookEvent,
                                backend: seq<Turn> -> Generation, summarizer: seq<Turn> -> Generation, now: nat)
    requires WellFormed(s.db) && IsSpeech(ev)
    ensures var (s', r) := Step(instr, s, ev, backend, summarizer, now);
      && WellFormed(s'.db)
      && s'.db.calls == s.db.calls
      && s'.db.callConversations == s.db.callConversations
         + (if HasSid(s.db.calls, ev.callSid) then
              [ConversationEntry(s.db.nextId, ev.callSid, "user", ev.speechResult, now),
               ConversationEntry(s.db.nextId + 1, ev.callSid, "assistant", r.message, now)]
            else [])
  {
    var g := SpeechGeneration(instr, s.contexts, ev, backend);
    assert Step(instr, s, ev, backend, summarizer, now) == SpeechStep(instr, s, ev, backend, now);
    TurnSaved(s.db, ev.callSid, ev.speechResult, ResponseFor(g).message, now);
  }

  /** Saving the caller's words then the agent's answer: two entries in that order, or none for an unknown call. */
  lemma TurnSaved(db: Db, sid: string, said: string, answered: string, now: nat)
    requires WellFormed(db)
    ensures var db' := EntrySaved(EntrySaved(db, sid, User, said, now), sid, Assistant, answered, now);
      && WellFormed(db')
      && db'.calls == db.calls
      && db'.callConversations == db.callConversations
         + (if HasSid(db.calls, sid) then
              [ConversationEntry(db.nextId, sid, "user", said, now),
               ConversationEntry(db.nextId + 1, sid, "assistant", answered, now)]
            else [])
  {
    var db1 := EntrySaved(db, sid, User, said, now);
    EntrySavedProperties(db, sid, User, said, now);
    EntrySavedProperties(db1, sid, Assistant, answered, now);
    assert db1.nextId == db.nextId + 1;
  }

  /** An event with neither a status nor (speech and a SID) changes nothing and gets the default message. */
  lemma IgnoredEventChangesNothing(instr: AgentInstructions, s: Snapshot, ev: WebhookEvent,
                                   backend: seq<Turn> -> Generation, summarizer: seq<Turn> -> Generation, now: nat)
    requires ev.callStatus == "" && (ev.speechResult == "" || ev.callSid == "")
    ensures Step(instr, s, ev, backend, summarizer, now) == (s, Speak(DefaultMessage))
  {
  }

  lemma StatusReplyShape(instr: AgentInstructions, s: Snapshot, ev: WebhookEvent,
                         summarizer: seq<Turn> -> Generation, now: nat)
    requires IsStatusOnly(ev)
    ensures var r := StatusStep(instr, s, ev, summarizer, now).1;
      && (r == Hangup <==> ev.callStatus in TerminalStatuses)
      && !r.TransferToHuman?
      && (r != Hangup ==> r.message != "")
  {
    ReactionReplyShape(instr, s.contexts, StatusUpserted(s.db, ev.callSid, ev.callStatus, now), ev, summarizer, now);
  }

  lemma ReactionReplyShape(instr: AgentInstructions, contexts: map<string, Conversation>, db1: Db, ev: WebhookEvent,
                           summarizer: seq<Turn> -> Generation, now: nat)
    ensures var r := StatusReaction(instr, contexts, db1, ev, summarizer, now).1;
      && (r == Hangup <==> ev.callStatus in TerminalStatuses)
      && !r.TransferToHuman?
      && (r != Hangup ==> r.message != "")
  {
    var r := StatusReaction(instr, contexts, db1, ev, summarizer, now).1;
    if ev.callStatus == "in-progress" && ev.callSid !in contexts {
      InProgressIsNotTerminal();
      assert r == Listen(Greeting(instr));
      SpokenMessagesAreNotEmpty(instr);
    } else if ev.callStatus in TerminalStatuses {
      assert r == Hangup;
    } else {
      assert r == Speak(DefaultMessage);
      SpokenMessagesAreNotEmpty(instr);
    }
  }

  lemma SpokenMessagesAreNotEmpty(instr: AgentInstructions)
    ensures Greeting(instr) != "" && DefaultMessage != ""
  {
    assert Greeting(instr)[0] == 'B';
    assert |DefaultMessage| > 0;
  }

  lemma InProgressIsNotTerminal()
    ensures "in-progress" !in TerminalStatuses
  {
  }

  // ---------------------------------------------------------------------------
  // Several events

  /** The events handled one after the other. */
  function Run(instr: AgentInstructions, s: Snapshot, events: seq<WebhookEvent>,
               backend: seq<Turn> -> Generation, summarizer: seq<Turn> -> Generation, now: nat): Snapshot
    decreases |events|
  {
    if |events| == 0 then s
    else Run(instr, Step(instr, s, events[0], backend, summarizer, now).0, events[1..], backend, summarizer, now)
  }

  function HistoryOf(contexts: map<string, Conversation>, sid: string): seq<Turn> {
    if sid in contexts then contexts[sid].history else []
  }

  function CountSpeechEvents(events: seq<WebhookEvent>): nat {
    if |events| == 0 then 0
    else (if IsSpeech(events[0]) then 1 else 0) + CountSpeechEvents(events[1..])
  }

  lemma {:induction false} StepCountsUserTurn(instr: AgentInstructions, s: Snapshot, ev: WebhookEvent,
                                              backend: seq<Turn> -> Generation, summarizer: seq<Turn> -> Generation, now: nat)
    requires !EndsCall(ev)
    ensures CountUserTurns(HistoryOf(Step(instr, s, ev, backend, summarizer, now).0.contexts, ev.callSid))
            == CountUserTurns(HistoryOf(s.contexts, ev.callSid)) + (if IsSpeech(ev) then 1 else 0)
  {
    var sid := ev.callSid;
    if IsStatusOnly(ev) {
      if ev.callStatus == "in-progress" && sid !in s.contexts {
        var h := [Turn(Assistant, Greeting(instr))];
        assert h[..0] == [];
        assert CountUserTurns(h) == 0;
      }
    } else if IsSpeech(ev) {
      TurnAppendsUserFirst(SpeechConversation(s.contexts, ev).history, ev.speechResult,
                           SpeechGeneration(instr, s.contexts, ev, backend));
    }
  }

  /**
   * Over a call that does not end, its history holds exactly one user turn
   * per speech event, whatever the backend answers.
   */
  lemma {:induction false} UserTurnsCountSpeechEvents(instr: AgentInstructions, s: Snapshot, sid: string,
                                                      events: seq<WebhookEvent>,
                                                      backend: seq<Turn> -> Generation, summarizer: seq<Turn> -> Generation, now: nat)
    requires forall i :: 0 <= i < |events| ==> events[i].callSid == sid && !EndsCall(events[i])
    ensures CountUserTurns(HistoryOf(Run(instr, s, events, backend, summarizer, now).contexts, sid))
            == CountUserTurns(HistoryOf(s.contexts, sid)) + CountSpeechEvents(events)
    decreases |events|
  {
    if |events| > 0 {
      StepCountsUserTurn(instr, s, events[0], backend, summarizer, now);
      UserTurnsCountSpeechEvents(instr, Step(instr, s, events[0], backend, summarizer, now).0, sid, events[1..],
                                 backend, summarizer, now);
    }
  }

  /** A run of events keeps the snapshot consistent. */
  lemma {:induction false} RunKeepsConsistent(instr: AgentInstructions, s: Snapshot, events: seq<WebhookEvent>,
                                              backend: seq<Turn> -> Generation, summarizer: seq<Turn> -> Generation, now: nat)
    requires Consistent(s)
    ensures Consistent(Run(instr, s, events, backend, summarizer, now))
    decreases |events|
  {
    if |events| > 0 {
      StepKeepsConsistent(instr, s, events[0], backend, summarizer, now);
      RunKeepsConsistent(instr, Step(instr, s, events[0], backend, summarizer, now).0, events[1..], backend, summarizer, now);
    }
  }

  // ---------------------------------------------------------------------------
  // The handler object

  class TwimlWebhook {
    /** The agent's instructions (`defaultAgentConfig`). */
    const agent: AgentInstructions
    const db: CallDb
    /** `conversationContexts`, shared by every request of the process. */
    var conversationContexts: map<string, ConversationContext>

    function Contexts(): map<string, Conversation>
      reads this, conversationContexts.Values
    {
      map k | k in conversationContexts ::
        Conversation(conversationContexts[k].callId, conversationContexts[k].customerPhone,
                     conversationContexts[k].currentConversation)
    }

    function State(): Snapshot
      reads this, db, conversationContexts.Values
    {
      Snapshot(Contexts(), db.Value())
    }

    /** No two calls share a context object. */
    ghost predicate DistinctContexts()
      reads this
    {
      forall k, k' :: k in conversationContexts && k' in conversationContexts && k != k' ==>
        conversationContexts[k] != conversationContexts[k']
    }

    ghost predicate Valid()
      reads this, db, conversationContexts.Values
    {
      Consistent(State()) && DistinctContexts()
    }

    constructor (db: CallDb)
      requires db.Valid()
      ensures Valid() && this.db == db && agent == DefaultConfig && Contexts() == map[]
    {
      this.db := db;
      agent := DefaultConfig;
      conversationContexts := map[];
    }

    method UpdateCallStatus(callSid: string, status: string, now: nat)
      modifies db
      ensures db.Value() == StatusUpserted(old(db.Value()), callSid, status, now)
    {
      var existingCall := FindBySid(db.calls, callSid);
      if existingCall.Some? {
        db.UpdateWhere(callSid, SetStatus(status), now);
      } else {
        var id := db.CreateId();
        var inserted := db.InsertCall(CallRecord(id, callSid, None, None, status, DefaultDirection, None, now, now));
      }
    }

    method SaveConversationEntry(callSid: string, role: Role, content: string, now: nat)
      modifies db
      ensures db.Value() == EntrySaved(old(db.Value()), callSid, role, content, now)
    {
      var id := db.CreateId();
      var inserted := db.InsertConversation(ConversationEntry(id, callSid, RoleName(role), content, now));
    }

    method UpdateCallTranscript(callSid: string, transcript: string, now: nat)
      modifies db
      ensures db.Value() == TranscriptUpdated(old(db.Value()), callSid, transcript, now)
    {
      db.UpdateWhere(callSid, SetTranscript(transcript), now);
    }

    /** The first `in-progress` of a call: a new context holding the greeting. */
    method Greet(ev: WebhookEvent, now: nat) returns (reply: Reply)
      requires DistinctContexts() && ev.callSid !in conversationContexts
      modifies this, db
      ensures DistinctContexts()
      ensures reply == Listen(Greeting(agent))
      ensures Contexts() == old(Contexts())[ev.callSid := Conversation(ev.callSid, ev.from, [Turn(Assistant, Greeting(agent))])]
      ensures db.Value() == EntrySaved(old(db.Value()), ev.callSid, Assistant, Greeting(agent), now)
    {
      ghost var before := Contexts();
      var call := IncomingCall(ev.callSid, ev.from, ev.to, ev.callStatus, "inbound");
      var context, response := HandleIncomingCall(agent, call);
      conversationContexts := conversationContexts[ev.callSid := context];
      ghost var conv := Conversation(ev.callSid, ev.from, [Turn(Assistant, Greeting(agent))]);
      assert Contexts() == before[ev.callSid := conv] by {
        forall k | k in conversationContexts && k != ev.callSid
          ensures Contexts()[k] == before[k]
        {
          assert conversationContexts[k] != context;
        }
      }
      SaveConversationEntry(ev.callSid, Assistant, response.message, now);
      reply := Listen(response.message);
    }

    /** A terminal status of a call with a context: its summary becomes the transcript and the context is dropped. */
    method Close(ev: WebhookEvent, summarizer: seq<Turn> -> Generation, now: nat)
      requires DistinctContexts() && ev.callSid in conversationContexts
      modifies this, db
      ensures DistinctContexts()
      ensures Contexts() == old(Contexts()) - {ev.callSid}
      ensures db.Value() == TranscriptUpdated(old(db.Value()), ev.callSid,
                              GenerateConversationSummary(old(Contexts())[ev.callSid].history, summarizer), now)
    {
      var context := conversationContexts[ev.callSid];
      var summary := GenerateConversationSummary(context.currentConversation, summarizer);
      UpdateCallTranscript(ev.callSid, summary, now);
      conversationContexts := conversationContexts - {ev.callSid};
    }

    /** The status-only branch of `POST`. */
    method HandleStatus(ev: WebhookEvent, summarizer: seq<Turn> -> Generation, now: nat) returns (reply: Reply)
      requires DistinctContexts()
      modifies this, db
      ensures DistinctContexts()
      ensures (State(), reply) == StatusStep(agent, old(State()), ev, summarizer, now)
    {
      ghost var s := State();
      UpdateCallStatus(ev.callSid, ev.callStatus, now);
      assert Contexts() == s.contexts;
      ghost var db1 := db.Value();
      reply := React(ev, summarizer, now);
      assert StatusStep(agent, s, ev, summarizer, now) == StatusReaction(agent, s.contexts, db1, ev, summarizer, now);
    }

    /** Greets, closes or acknowledges once the status is recorded. */
    method React(ev: WebhookEvent, summarizer: seq<Turn> -> Generation, now: nat) returns (reply: Reply)
      requires DistinctContexts()
      modifies this, db
      ensures DistinctContexts()
      ensures (State(), reply) == StatusReaction(agent, old(Contexts()), old(db.Value()), ev, summarizer, now)
    {
      if ev.callStatus == "in-progress" && ev.callSid !in conversationContexts {
        reply := Greet(ev, now);
      } else if ev.callStatus in TerminalStatuses {
        if ev.callSid in conversationContexts {
          Close(ev, summarizer, now);
        }
        reply := Hangup;
      } else {
        reply := Speak(DefaultMessage);
      }
    }

    /** The context a speech event continues: the stored one, or a new one registered under the call SID. */
    method ContextFor(ev: WebhookEvent) returns (context: ConversationContext)
      requires DistinctContexts()
      modifies this
      ensures DistinctContexts()
      ensures conversationContexts == old(conversationContexts)[ev.callSid := context]
      ensures ev.callSid in old(conversationContexts) ==> context == old(conversationContexts)[ev.callSid]
      ensures ev.callSid !in old(conversationContexts) ==> fresh(context)
      ensures Conversation(context.callId, context.customerPhone, context.currentConversation)
              == SpeechConversation(old(Contexts()), ev)
      ensures Contexts() == old(Contexts())[ev.callSid := SpeechConversation(old(Contexts()), ev)]
    {
      if ev.callSid in conversationContexts {
        context := conversationContexts[ev.callSid];
        assert Contexts() == old(Contexts())[ev.callSid := SpeechConversation(old(Contexts()), ev)];
      } else {
        context := new ConversationContext(ev.callSid, ev.from);
        conversationContexts := conversationContexts[ev.callSid := context];
      }
    }

    /** One agent turn on `context`, both sides persisted under the call SID. */
    method TakeTurn(context: ConversationContext, callSid: string, speech: string,
                    backend: seq<Turn> -> Generation, now: nat) returns (response: AgentResponse)
      modifies db, context
      ensures context.currentConversation
              == HistoryAfterTurn(old(context.currentConversation), speech,
                                  backend(ChatMessages(agent, old(context.currentConversation) + [Turn(User, speech)])))
      ensures response == ResponseFor(backend(ChatMessages(agent, old(context.currentConversation) + [Turn(User, speech)])))
      ensures db.Value() == EntrySaved(EntrySaved(old(db.Value()), callSid, User, speech, now),
                                       callSid, Assistant, response.message, now)
    {
      SaveConversationEntry(callSid, User, speech, now);
      response := ProcessInput(agent, context, speech, backend);
      SaveConversationEntry(callSid, Assistant, response.message, now);
    }

    /** The speech branch of `POST`. */
    method HandleSpeech(ev: WebhookEvent, backend: seq<Turn> -> Generation, now: nat) returns (reply: Reply)
      requires DistinctContexts()
      modifies this, db, conversationContexts.Values
      ensures DistinctContexts()
      ensures (State(), reply) == SpeechStep(agent, old(State()), ev, backend, now)
    {
      ghost var s := State();
      ghost var conv := SpeechConversation(s.contexts, ev);
      ghost var g := SpeechGeneration(agent, s.contexts, ev, backend);
      var context := ContextFor(ev);
      assert context.currentConversation == conv.history;
      ghost var mid := Contexts();
      assert mid[ev.callSid] == conv;
      reply := Converse(context, ev, backend, now);
      ghost var conv' := conv.(history := HistoryAfterTurn(conv.history, ev.speechResult, g));
      assert Contexts() == s.contexts[ev.callSid := conv'];
      assert reply == ReplyFor(ResponseFor(g));
    }

    /** One agent turn on the call's registered context; no other context changes. */
    method Converse(context: ConversationContext, ev: WebhookEvent, backend: seq<Turn> -> Generation, now: nat)
      returns (reply: Reply)
      requires DistinctContexts()
      requires ev.callSid in conversationContexts && conversationContexts[ev.callSid] == context
      modifies db, context
      ensures var g := backend(ChatMessages(agent, old(context.currentConversation) + [Turn(User, ev.speechResult)]));
        && Contexts() == old(Contexts())[ev.callSid := old(Contexts())[ev.callSid].(history :=
                           HistoryAfterTurn(old(context.currentConversation), ev.speechResult, g))]
        && reply == ReplyFor(ResponseFor(g))
        && db.Value() == EntrySaved(EntrySaved(old(db.Value()), ev.callSid, User, ev.speechResult, now),
                                    ev.callSid, Assistant, ResponseFor(g).message, now)
    {
      ghost var before := Contexts();
      var response := TakeTurn(context, ev.callSid, ev.speechResult, backend, now);
      reply := ReplyFor(response);
      forall k | k in conversationContexts && k != ev.callSid
        ensures Contexts()[k] == before[k]
      {
        assert conversationContexts[k] != context;
      }
    }

    /** `POST`: handles one event; the new state and the reply are those `Step` gives. */
    method Post(ev: WebhookEvent, backend: seq<Turn> -> Generation, summarizer: seq<Turn> -> Generation, now: nat)
      returns (reply: Reply)
      requires Valid()
      modifies this, db, conversationContexts.Values
      ensures Valid()
      ensures (State(), reply) == Step(agent, old(State()), ev, backend, summarizer, now)
    {
      ghost var s := State();
      if ev.callStatus != "" && ev.speechResult == "" {
        reply := HandleStatus(ev, summarizer, now);
      } else if ev.speechResult != "" && ev.callSid != "" {
        reply := HandleSpeech(ev, backend, now);
      } else {
        reply := Speak(DefaultMessage);
      }
      StepKeepsConsistent(agent, s, ev, backend, summarizer, now);
    }
  }
}
